/**
 Any number of buffers and views over shared memory blocks, and the machine they implement: buffers
 and views that each own a copy of their bytes. Every run of the first is a run of the second, so
 sharing is unobservable and bytes, once visible, never change.
 */
module SharedMemory {
  import opened Base
  import opened Addresses
  import opened Queues

  datatype World = World(mem: Memory, bufs: map<nat, Queue>, views: map<nat, seq<Addr>>)

  datatype Step =
    | NewBuffer(b: nat)
    | Reserve(b: nat, more: seq<Addr>)
    | Put(b: nat, src: seq<byte>)
    | Scribble(b: nat, at: nat, src: seq<byte>)
    | Commit(b: nat, src: seq<byte>)
    | Peek(b: nat, v: nat)
    | Consume(b: nat, count: nat, v: nat)
    | ConsumeLosing(b: nat, count: nat, v: nat)
    | Append(b: nat, v: nat)
    | SplitOff(b: nat, count: nat, c: nat)
    | Clone(v: nat, u: nat)
    | Range(v: nat, from: nat, to: nat, u: nat)
    | Advance(v: nat, count: nat)
    | Concat(v: nat, u: nat)
    | DropBuffer(b: nat)
    | DropView(v: nat)

  /** An address that some buffer or view can read. */
  ghost predicate Visible(w: World, a: Addr) {
    || (exists b :: b in w.bufs && a in w.bufs[b].data)
    || (exists v :: v in w.views && a in w.views[v])
  }

  ghost predicate Owned(w: World, a: Addr) {
    exists b :: b in w.bufs && a in w.bufs[b].free
  }

  /** When a step can happen. Memory that is reserved is exclusively owned, as providers promise. */
  ghost predicate Enabled(w: World, s: Step) {
    match s
    case NewBuffer(b) => b !in w.bufs
    case Reserve(b, more) =>
      b in w.bufs && NoDuplicates(more) && forall a :: a in more ==> !Visible(w, a) && !Owned(w, a)
    case Put(b, src) => b in w.bufs && |src| <= |w.bufs[b].free|
    case Scribble(b, at, src) => b in w.bufs && at + |src| <= |w.bufs[b].free|
    case Commit(b, src) =>
      b in w.bufs && |src| <= |w.bufs[b].free| && Read(w.mem, w.bufs[b].free[..|src|]) == src
    case Peek(b, v) => b in w.bufs && v !in w.views
    case Consume(b, count, v) => b in w.bufs && v !in w.views && count <= |w.bufs[b].data|
    case ConsumeLosing(b, count, v) => b in w.bufs && v !in w.views && count <= |w.bufs[b].data|
    case Append(b, v) => b in w.bufs && v in w.views
    case SplitOff(b, count, c) => b in w.bufs && c !in w.bufs && count <= |w.bufs[b].free|
    case Clone(v, u) => v in w.views && u !in w.views
    case Range(v, from, to, u) => v in w.views && u !in w.views && from <= to <= |w.views[v]|
    case Advance(v, count) => v in w.views && count <= |w.views[v]|
    case Concat(v, u) => v in w.views && u in w.views && v != u
    case DropBuffer(b) => b in w.bufs
    case DropView(v) => v in w.views
  }

  /** The effect of a step on the shared world, in terms of the operations of `Queue`. */
  ghost function Apply(w: World, s: Step): World
    requires Enabled(w, s)
  {
    match s
    case NewBuffer(b) => w.(bufs := w.bufs[b := Queue([], [])])
    case Reserve(b, more) => w.(bufs := w.bufs[b := w.bufs[b].Reserved(more)])
    case Put(b, src) =>
      World(Write(w.mem, w.bufs[b].free[..|src|], src), w.bufs[b := w.bufs[b].Written(|src|)], w.views)
    case Scribble(b, at, src) => w.(mem := Write(w.mem, w.bufs[b].free[at..at + |src|], src))
    case Commit(b, src) => w.(bufs := w.bufs[b := w.bufs[b].Written(|src|)])
    case Peek(b, v) => w.(views := w.views[v := w.bufs[b].data])
    case Consume(b, count, v) =>
      w.(bufs := w.bufs[b := w.bufs[b].Consumed(count)], views := w.views[v := w.bufs[b].data[..count]])
    case ConsumeLosing(b, count, v) =>
      w.(bufs := w.bufs[b := Queue([], w.bufs[b].free)], views := w.views[v := w.bufs[b].data[..count]])
    case Append(b, v) =>
      w.(bufs := w.bufs[b := w.bufs[b].Appended(w.views[v])], views := w.views - {v})
    case SplitOff(b, count, c) =>
      w.(bufs := w.bufs[b := w.bufs[b].Kept(count)][c := w.bufs[b].SplitOff(count)])
    case Clone(v, u) => w.(views := w.views[u := w.views[v]])
    case Range(v, from, to, u) => w.(views := w.views[u := w.views[v][from..to]])
    case Advance(v, count) => w.(views := w.views[v := w.views[v][count..]])
    case Concat(v, u) => w.(views := w.views[v := w.views[v] + w.views[u]] - {u})
    case DropBuffer(b) => w.(bufs := w.bufs - {b})
    case DropView(v) => w.(views := w.views - {v})
  }

  /** What each buffer and view owns in the machine without sharing. */
  datatype Copy = Copy(bytes: seq<byte>, capacity: nat)
  datatype Copies = Copies(bufs: map<nat, Copy>, views: map<nat, seq<byte>>)

  ghost function Content(w: World): Copies {
    Copies(map b | b in w.bufs :: Copy(Read(w.mem, w.bufs[b].data), |w.bufs[b].free|),
           map v | v in w.views :: Read(w.mem, w.views[v]))
  }

  ghost predicate CopyEnabled(c: Copies, s: Step) {
    match s
    case NewBuffer(b) => b !in c.bufs
    case Reserve(b, _) => b in c.bufs
    case Put(b, src) => b in c.bufs && |src| <= c.bufs[b].capacity
    case Scribble(b, at, src) => b in c.bufs && at + |src| <= c.bufs[b].capacity
    case Commit(b, src) => b in c.bufs && |src| <= c.bufs[b].capacity
    case Peek(b, v) => b in c.bufs && v !in c.views
    case Consume(b, count, v) => b in c.bufs && v !in c.views && count <= |c.bufs[b].bytes|
    case ConsumeLosing(b, count, v) => b in c.bufs && v !in c.views && count <= |c.bufs[b].bytes|
    case Append(b, v) => b in c.bufs && v in c.views
    case SplitOff(b, count, d) => b in c.bufs && d !in c.bufs && count <= c.bufs[b].capacity
    case Clone(v, u) => v in c.views && u !in c.views
    case Range(v, from, to, u) => v in c.views && u !in c.views && from <= to <= |c.views[v]|
    case Advance(v, count) => v in c.views && count <= |c.views[v]|
    case Concat(v, u) => v in c.views && u in c.views && v != u
    case DropBuffer(b) => b in c.bufs
    case DropView(v) => v in c.views
  }

  /** The same step when every buffer is a byte queue with a capacity and every view owns its bytes. */
  ghost function CopyApply(c: Copies, s: Step): Copies
    requires CopyEnabled(c, s)
  {
    match s
    case NewBuffer(b) => c.(bufs := c.bufs[b := Copy([], 0)])
    case Reserve(b, more) => c.(bufs := c.bufs[b := Copy(c.bufs[b].bytes, c.bufs[b].capacity + |more|)])
    case Put(b, src) => c.(bufs := c.bufs[b := Copy(c.bufs[b].bytes + src, c.bufs[b].capacity - |src|)])
    case Scribble(_, _, _) => c
    case Commit(b, src) => c.(bufs := c.bufs[b := Copy(c.bufs[b].bytes + src, c.bufs[b].capacity - |src|)])
    case Peek(b, v) => c.(views := c.views[v := c.bufs[b].bytes])
    case Consume(b, count, v) =>
      Copies(c.bufs[b := Copy(c.bufs[b].bytes[count..], c.bufs[b].capacity)], c.views[v := c.bufs[b].bytes[..count]])
    case ConsumeLosing(b, count, v) =>
      Copies(c.bufs[b := Copy([], c.bufs[b].capacity)], c.views[v := c.bufs[b].bytes[..count]])
    case Append(b, v) =>
      Copies(c.bufs[b := Copy(c.bufs[b].bytes + c.views[v], c.bufs[b].capacity)], c.views - {v})
    case SplitOff(b, count, d) =>
      c.(bufs := c.bufs[b := Copy(c.bufs[b].bytes, c.bufs[b].capacity - count)][d := Copy([], count)])
    case Clone(v, u) => c.(views := c.views[u := c.views[v]])
    case Range(v, from, to, u) => c.(views := c.views[u := c.views[v][from..to]])
    case Advance(v, count) => c.(views := c.views[v := c.views[v][count..]])
    case Concat(v, u) => c.(views := c.views[v := c.views[v] + c.views[u]] - {u})
    case DropBuffer(b) => c.(bufs := c.bufs - {b})
    case DropView(v) => c.(views := c.views - {v})
  }

  /** No free address is free twice, and none is visible. */
  ghost predicate Inv(w: World) {
    && (forall b :: b in w.bufs ==> NoDuplicates(w.bufs[b].free))
    && (forall b, c, a :: b in w.bufs && c in w.bufs && b != c && a in w.bufs[b].free ==> a !in w.bufs[c].free)
    && (forall b, c, a :: b in w.bufs && c in w.bufs && a in w.bufs[b].free ==> a !in w.bufs[c].data)
    && (forall b, v, a :: b in w.bufs && v in w.views && a in w.bufs[b].free ==> a !in w.views[v])
  }

  // ---- Every step keeps the invariant ----

  /** No buffer other than `b` uses the address, and no view reads it. */
  ghost predicate FreeFor(w: World, b: nat, a: Addr) {
    && (forall c :: c in w.bufs && c != b ==> a !in w.bufs[c].free && a !in w.bufs[c].data)
    && (forall v :: v in w.views ==> a !in w.views[v])
  }

  /** No buffer other than `b` may write the address. */
  ghost predicate StableFor(w: World, b: nat, a: Addr) {
    forall c :: c in w.bufs && c != b ==> a !in w.bufs[c].free
  }

  lemma SetBuffer(w: World, b: nat, q: Queue)
    requires Inv(w) && NoDuplicates(q.free)
    requires forall a :: a in q.free ==> FreeFor(w, b, a) && a !in q.data
    requires forall a :: a in q.data ==> StableFor(w, b, a)
    ensures Inv(w.(bufs := w.bufs[b := q]))
  {
    var bufs := w.bufs[b := q];
    forall c, d, a | c in bufs && d in bufs && c != d && a in bufs[c].free
      ensures a !in bufs[d].free
    {
      assert c == b ==> FreeFor(w, b, a);
      assert d == b && a in q.free ==> FreeFor(w, b, a);
    }
    forall c, d, a | c in bufs && d in bufs && a in bufs[c].free
      ensures a !in bufs[d].data
    {
      assert c == b ==> FreeFor(w, b, a);
      assert d == b && a in q.data ==> StableFor(w, b, a);
    }
    forall c, v, a | c in bufs && v in w.views && a in bufs[c].free
      ensures a !in w.views[v]
    {
      assert c == b ==> FreeFor(w, b, a);
    }
  }

  lemma SetView(w: World, v: nat, addrs: seq<Addr>)
    requires Inv(w)
    requires forall b, a :: b in w.bufs && a in w.bufs[b].free ==> a !in addrs
    ensures Inv(w.(views := w.views[v := addrs]))
  {
  }

  lemma DropView'(w: World, v: nat)
    requires Inv(w)
    ensures Inv(w.(views := w.views - {v}))
  {
  }

  /** A buffer keeps its place when it only gives up free addresses or turns them into data. */
  lemma ShrinkBuffer(w: World, b: nat, q: Queue)
    requires Inv(w) && b in w.bufs && NoDuplicates(q.free)
    requires forall a :: a in q.free ==> a in w.bufs[b].free && a !in q.data
    requires forall a :: a in q.data ==> a in w.bufs[b].data || a in w.bufs[b].free
    ensures Inv(w.(bufs := w.bufs[b := q]))
  {
    hide NoDuplicates;
    forall a | a in q.free
      ensures FreeFor(w, b, a)
    {
    }
    forall a | a in q.data
      ensures StableFor(w, b, a)
    {
    }
    SetBuffer(w, b, q);
  }

  lemma WriteKeepsInv(w: World, b: nat, count: nat)
    requires Inv(w) && b in w.bufs && count <= |w.bufs[b].free|
    ensures Inv(w.(bufs := w.bufs[b := w.bufs[b].Written(count)]))
  {
    var q := w.bufs[b];
    WrittenSets(q, count);
    ShrinkBuffer(w, b, q.Written(count));
  }

  lemma SplitKeepsInv(w: World, b: nat, count: nat, c: nat)
    requires Inv(w) && b in w.bufs && c !in w.bufs && count <= |w.bufs[b].free|
    ensures Inv(w.(bufs := w.bufs[b := w.bufs[b].Kept(count)][c := w.bufs[b].SplitOff(count)]))
  {
    var q := w.bufs[b];
    SplitSets(q, count);
    ShrinkBuffer(w, b, q.Kept(count));
    var mid := w.(bufs := w.bufs[b := q.Kept(count)]);
    hide NoDuplicates;
    forall a | a in q.SplitOff(count).free
      ensures FreeFor(mid, c, a)
    {
    }
    SetBuffer(mid, c, q.SplitOff(count));
  }

  lemma ReserveKeepsInv(w: World, b: nat, more: seq<Addr>)
    requires Inv(w) && Enabled(w, Reserve(b, more))
    ensures Inv(w.(bufs := w.bufs[b := w.bufs[b].Reserved(more)]))
  {
    ReservedSets(w, b, more);
    var q := w.bufs[b].Reserved(more);
    forall a | a in q.free
      ensures FreeFor(w, b, a) && a !in q.data
    {
      assert a in w.bufs[b].free || a in more;
    }
    SetBuffer(w, b, q);
  }

  lemma AppendKeepsInv(w: World, b: nat, addrs: seq<Addr>)
    requires Inv(w) && b in w.bufs
    requires forall c, a :: c in w.bufs && a in w.bufs[c].free ==> a !in addrs
    ensures Inv(w.(bufs := w.bufs[b := w.bufs[b].Appended(addrs)]))
  {
    var q := w.bufs[b].Appended(addrs);
    hide NoDuplicates;
    forall a | a in q.data
      ensures StableFor(w, b, a)
    {
      assert a in w.bufs[b].data || a in addrs;
    }
    SetBuffer(w, b, q);
  }

  lemma ConsumeKeepsInv(w: World, b: nat, count: nat, v: nat, kept: seq<Addr>)
    requires Inv(w) && b in w.bufs && count <= |w.bufs[b].data|
    requires forall a :: a in kept ==> a in w.bufs[b].data
    ensures Inv(World(w.mem, w.bufs[b := Queue(kept, w.bufs[b].free)], w.views[v := w.bufs[b].data[..count]]))
  {
    hide NoDuplicates;
    SetView(w, v, w.bufs[b].data[..count]);
    ShrinkBuffer(w.(views := w.views[v := w.bufs[b].data[..count]]), b, Queue(kept, w.bufs[b].free));
  }

  /** Every step, of every kind, on any of the buffers and views. */
  lemma StepKeepsInv(w: World, s: Step)
    requires Inv(w) && Enabled(w, s)
    ensures Inv(Apply(w, s))
  {
    hide Inv, Write, NoDuplicates, Queue.Written, Queue.Kept, Queue.SplitOff, Queue.Reserved, Queue.Appended;
    match s
    case NewBuffer(b) => SetBuffer(w, b, Queue([], []));
    case Reserve(b, more) => ReserveKeepsInv(w, b, more);
    case Put(b, src) =>
      WriteKeepsInv(w, b, |src|);
      MemoryIsFree(w.(bufs := w.bufs[b := w.bufs[b].Written(|src|)]), Apply(w, s).mem);
    case Scribble(b, at, src) => MemoryIsFree(w, Apply(w, s).mem);
    case Commit(b, src) => WriteKeepsInv(w, b, |src|);
    case Peek(b, v) => ViewOf(w, b); SetView(w, v, w.bufs[b].data);
    case Consume(b, count, v) => ConsumeKeepsInv(w, b, count, v, w.bufs[b].data[count..]);
    case ConsumeLosing(b, count, v) => ConsumeKeepsInv(w, b, count, v, []);
    case Append(b, v) =>
      ViewStable(w, v);
      AppendKeepsInv(w, b, w.views[v]);
      DropView'(w.(bufs := w.bufs[b := w.bufs[b].Appended(w.views[v])]), v);
    case SplitOff(b, count, c) => SplitKeepsInv(w, b, count, c);
    case Clone(v, u) => ViewStable(w, v); SetView(w, u, w.views[v]);
    case Range(v, from, to, u) =>
      ViewStable(w, v);
      assert forall a :: a in w.views[v][from..to] ==> a in w.views[v];
      SetView(w, u, w.views[v][from..to]);
    case Advance(v, count) =>
      ViewStable(w, v);
      assert forall a :: a in w.views[v][count..] ==> a in w.views[v];
      SetView(w, v, w.views[v][count..]);
    case Concat(v, u) =>
      ViewStable(w, v);
      ViewStable(w, u);
      SetView(w, v, w.views[v] + w.views[u]);
      DropView'(w.(views := w.views[v := w.views[v] + w.views[u]]), u);
    case DropBuffer(b) => DropKeepsInv(w, b);
    case DropView(v) => DropView'(w, v);
  }

  lemma DropKeepsInv(w: World, b: nat)
    requires Inv(w)
    ensures Inv(w.(bufs := w.bufs - {b}))
  {
  }

  lemma MemoryIsFree(w: World, mem: Memory)
    requires Inv(w)
    ensures Inv(w.(mem := mem))
  {
  }

  lemma ViewOf(w: World, b: nat)
    requires Inv(w) && b in w.bufs
    ensures forall c, a :: c in w.bufs && a in w.bufs[c].free ==> a !in w.bufs[b].data
  {
  }

  lemma ViewStable(w: World, v: nat)
    requires Inv(w) && v in w.views
    ensures forall c, a :: c in w.bufs && a in w.bufs[c].free ==> a !in w.views[v]
  {
  }

  lemma WrittenSets(q: Queue, count: nat)
    requires NoDuplicates(q.free) && count <= |q.free|
    requires forall a :: a in q.free ==> a !in q.data
    ensures NoDuplicates(q.Written(count).free)
    ensures forall a :: a in q.Written(count).free ==> a in q.free && a !in q.Written(count).data
    ensures forall a :: a in q.Written(count).data ==> a in q.data || a in q.free
  {
  }

  lemma SplitSets(q: Queue, count: nat)
    requires NoDuplicates(q.free) && count <= |q.free|
    ensures NoDuplicates(q.Kept(count).free) && NoDuplicates(q.SplitOff(count).free)
    ensures forall a :: a in q.Kept(count).free ==> a in q.free && a !in q.SplitOff(count).free
    ensures forall a :: a in q.SplitOff(count).free ==> a in q.free && a !in q.Kept(count).free
  {
  }

  lemma ReservedSets(w: World, b: nat, more: seq<Addr>)
    requires Inv(w) && Enabled(w, Reserve(b, more))
    ensures NoDuplicates(w.bufs[b].free + more)
    ensures forall c, a :: c in w.bufs && a in more ==> a !in w.bufs[c].free && a !in w.bufs[c].data
    ensures forall v, a :: v in w.views && a in more ==> a !in w.views[v]
  {
    forall c, a | c in w.bufs && a in more
      ensures a !in w.bufs[c].free && a !in w.bufs[c].data
    {
      assert !Visible(w, a) && !Owned(w, a);
    }
    forall v, a | v in w.views && a in more
      ensures a !in w.views[v]
    {
      assert !Visible(w, a);
    }
    JoinNoDuplicates(w.bufs[b].free, more);
  }

  lemma JoinNoDuplicates(s: seq<Addr>, t: seq<Addr>)
    requires NoDuplicates(s) && NoDuplicates(t)
    requires forall a :: a in t ==> a !in s
    ensures NoDuplicates(s + t)
  {
    forall i, j | 0 <= i < j < |s + t|
      ensures (s + t)[i] != (s + t)[j]
    {
      if i < |s| <= j {
        assert t[j - |s|] in t && s[i] in s;
      }
    }
  }

  // ---- Every step is a step of the machine without sharing ----

  /** Writing to free addresses changes no content. */
  lemma WriteUnseen(w: World, b: nat, addrs: seq<Addr>, src: seq<byte>)
    requires Inv(w) && b in w.bufs && |addrs| == |src|
    requires forall a :: a in addrs ==> a in w.bufs[b].free
    ensures Content(w.(mem := Write(w.mem, addrs, src))) == Content(w)
  {
    hide Write, NoDuplicates;
    var mem := Write(w.mem, addrs, src);
    forall c | c in w.bufs
      ensures Read(mem, w.bufs[c].data) == Read(w.mem, w.bufs[c].data)
    {
      Unseen(w, b, addrs, w.bufs[c].data);
      ReadElsewhere(w.mem, addrs, src, w.bufs[c].data);
    }
    forall v | v in w.views
      ensures Read(mem, w.views[v]) == Read(w.mem, w.views[v])
    {
      Unseen(w, b, addrs, w.views[v]);
      ReadElsewhere(w.mem, addrs, src, w.views[v]);
    }
  }

  lemma Unseen(w: World, b: nat, addrs: seq<Addr>, seen: seq<Addr>)
    requires b in w.bufs && (forall a :: a in addrs ==> a in w.bufs[b].free)
    requires forall a :: a in w.bufs[b].free ==> a !in seen
    ensures Disjoint(addrs, seen)
  {
    forall i, j | 0 <= i < |addrs| && 0 <= j < |seen|
      ensures addrs[i] != seen[j]
    {
      assert addrs[i] in addrs && seen[j] in seen;
    }
  }

  lemma ReadSlice(mem: Memory, a: seq<Addr>, i: nat, j: nat)
    requires i <= j <= |a|
    ensures Read(mem, a[i..j]) == Read(mem, a)[i..j]
  {
  }

  lemma ReadSuffix(mem: Memory, a: seq<Addr>, i: nat)
    requires i <= |a|
    ensures Read(mem, a[i..]) == Read(mem, a)[i..]
  {
  }

  /** The content of a world with one buffer replaced, and with one view replaced. */
  lemma ContentOfBuffer(w: World, b: nat, q: Queue)
    ensures Content(w.(bufs := w.bufs[b := q]))
         == Copies(Content(w).bufs[b := Copy(Read(w.mem, q.data), |q.free|)], Content(w).views)
  {
  }

  lemma ContentOfView(w: World, v: nat, addrs: seq<Addr>)
    ensures Content(w.(views := w.views[v := addrs]))
         == Copies(Content(w).bufs, Content(w).views[v := Read(w.mem, addrs)])
  {
  }

  lemma ContentWithoutView(w: World, v: nat)
    ensures Content(w.(views := w.views - {v})) == Copies(Content(w).bufs, Content(w).views - {v})
  {
  }

  lemma PutRefines(w: World, b: nat, src: seq<byte>)
    requires Inv(w) && Enabled(w, Put(b, src))
    ensures Content(Apply(w, Put(b, src))) == CopyApply(Content(w), Put(b, src))
  {
    hide Write, NoDuplicates;
    var q := w.bufs[b];
    var mem := Write(w.mem, q.free[..|src|], src);
    WriteUnseen(w, b, q.free[..|src|], src);
    SeparateBuffer(w, b);
    WrittenContent(w.mem, q, src);
    ContentOfBuffer(w.(mem := mem), b, q.Written(|src|));
  }

  lemma SeparateBuffer(w: World, b: nat)
    requires Inv(w) && b in w.bufs
    ensures Separate(w.bufs[b])
  {
    Unseen(w, b, w.bufs[b].free, w.bufs[b].data);
  }

  lemma CommitRefines(w: World, b: nat, src: seq<byte>)
    requires Enabled(w, Commit(b, src))
    ensures Content(Apply(w, Commit(b, src))) == CopyApply(Content(w), Commit(b, src))
  {
    var q := w.bufs[b];
    ReadAppend(w.mem, q.data, q.free[..|src|]);
    ContentOfBuffer(w, b, q.Written(|src|));
  }

  lemma ConsumeRefines(w: World, b: nat, count: nat, v: nat, kept: seq<Addr>)
    requires b in w.bufs && count <= |w.bufs[b].data|
    ensures Content(World(w.mem, w.bufs[b := Queue(kept, w.bufs[b].free)], w.views[v := w.bufs[b].data[..count]]))
         == Copies(Content(w).bufs[b := Copy(Read(w.mem, kept), |w.bufs[b].free|)],
                   Content(w).views[v := Read(w.mem, w.bufs[b].data)[..count]])
  {
    hide Content;
    var mid := w.(views := w.views[v := w.bufs[b].data[..count]]);
    ContentOfView(w, v, w.bufs[b].data[..count]);
    ContentOfBuffer(mid, b, Queue(kept, w.bufs[b].free));
    ReadSlice(w.mem, w.bufs[b].data, 0, count);
  }

  lemma SplitRefines(w: World, b: nat, count: nat, c: nat)
    requires Enabled(w, SplitOff(b, count, c))
    ensures Content(Apply(w, SplitOff(b, count, c))) == CopyApply(Content(w), SplitOff(b, count, c))
  {
    var q := w.bufs[b];
    ContentOfBuffer(w, b, q.Kept(count));
    ContentOfBuffer(w.(bufs := w.bufs[b := q.Kept(count)]), c, q.SplitOff(count));
  }

  lemma AppendRefines(w: World, b: nat, v: nat)
    requires Enabled(w, Append(b, v))
    ensures Content(Apply(w, Append(b, v))) == CopyApply(Content(w), Append(b, v))
  {
    var q := w.bufs[b].Appended(w.views[v]);
    ReadAppend(w.mem, w.bufs[b].data, w.views[v]);
    ContentOfBuffer(w, b, q);
    ContentWithoutView(w.(bufs := w.bufs[b := q]), v);
  }

  lemma ConcatRefines(w: World, v: nat, u: nat)
    requires Enabled(w, Concat(v, u))
    ensures Content(Apply(w, Concat(v, u))) == CopyApply(Content(w), Concat(v, u))
  {
    ReadAppend(w.mem, w.views[v], w.views[u]);
    ContentOfView(w, v, w.views[v] + w.views[u]);
    ContentWithoutView(w.(views := w.views[v := w.views[v] + w.views[u]]), u);
  }

  lemma ScribbleRefines(w: World, b: nat, at: nat, src: seq<byte>)
    requires Inv(w) && Enabled(w, Scribble(b, at, src))
    ensures Content(Apply(w, Scribble(b, at, src))) == Content(w)
  {
    var addrs := w.bufs[b].free[at..at + |src|];
    assert forall a :: a in addrs ==> a in w.bufs[b].free;
    WriteUnseen(w, b, addrs, src);
  }

  predicate OnViews(s: Step) {
    s.Clone? || s.Range? || s.Advance? || s.Concat? || s.DropView? || s.Peek?
  }

  lemma ViewStepRefines(w: World, s: Step)
    requires OnViews(s) && Enabled(w, s)
    ensures CopyEnabled(Content(w), s)
    ensures Content(Apply(w, s)) == CopyApply(Content(w), s)
  {
    hide Read;
    match s
    case Peek(b, v) => ContentOfView(w, v, w.bufs[b].data);
    case Clone(v, u) => ContentOfView(w, u, w.views[v]);
    case Range(v, from, to, u) =>
      ReadSlice(w.mem, w.views[v], from, to);
      ContentOfView(w, u, w.views[v][from..to]);
    case Advance(v, count) =>
      ReadSuffix(w.mem, w.views[v], count);
      ContentOfView(w, v, w.views[v][count..]);
    case Concat(v, u) => ConcatRefines(w, v, u);
    case DropView(v) => ContentWithoutView(w, v);
  }

  lemma TransferRefines(w: World, s: Step)
    requires s.Consume? || s.ConsumeLosing? || s.Append? || s.SplitOff? || s.DropBuffer?
    requires Enabled(w, s)
    ensures CopyEnabled(Content(w), s)
    ensures Content(Apply(w, s)) == CopyApply(Content(w), s)
  {
    hide Read;
    match s
    case Consume(b, count, v) =>
      ReadSuffix(w.mem, w.bufs[b].data, count);
      ConsumeRefines(w, b, count, v, w.bufs[b].data[count..]);
    case ConsumeLosing(b, count, v) =>
      ConsumeRefines(w, b, count, v, []);
      assert Read(w.mem, []) == [];
    case Append(b, v) => AppendRefines(w, b, v);
    case SplitOff(b, count, c) => SplitRefines(w, b, count, c);
    case DropBuffer(b) =>
  }

  /** Every step is, on the contents, the step of the machine without sharing. */
  lemma StepRefines(w: World, s: Step)
    requires Inv(w) && Enabled(w, s)
    ensures CopyEnabled(Content(w), s)
    ensures Content(Apply(w, s)) == CopyApply(Content(w), s)
  {
    hide Inv, Write, Read, NoDuplicates;
    match s
    case NewBuffer(b) =>
      ContentOfBuffer(w, b, Queue([], []));
      assert Read(w.mem, []) == [];
    case Reserve(b, more) => ContentOfBuffer(w, b, w.bufs[b].Reserved(more));
    case Put(b, src) => PutRefines(w, b, src);
    case Scribble(b, at, src) => ScribbleRefines(w, b, at, src);
    case Commit(b, src) => CommitRefines(w, b, src);
    case _ =>
      if OnViews(s) {
        ViewStepRefines(w, s);
      } else {
        TransferRefines(w, s);
      }
  }

  // ---- Whole runs ----

  ghost predicate Runs(w: World, steps: seq<Step>)
    decreases |steps|
  {
    steps == [] || (Enabled(w, steps[0]) && Runs(Apply(w, steps[0]), steps[1..]))
  }

  ghost function After(w: World, steps: seq<Step>): World
    requires Runs(w, steps)
    decreases |steps|
  {
    if steps == [] then w else After(Apply(w, steps[0]), steps[1..])
  }

  ghost predicate CopyRuns(c: Copies, steps: seq<Step>)
    decreases |steps|
  {
    steps == [] || (CopyEnabled(c, steps[0]) && CopyRuns(CopyApply(c, steps[0]), steps[1..]))
  }

  ghost function CopyAfter(c: Copies, steps: seq<Step>): Copies
    requires CopyRuns(c, steps)
    decreases |steps|
  {
    if steps == [] then c else CopyAfter(CopyApply(c, steps[0]), steps[1..])
  }

  /** Sharing is unobservable: every run yields the contents that copying would have yielded. */
  lemma {:induction false} RunRefinesCopies(w: World, steps: seq<Step>)
    requires Inv(w) && Runs(w, steps)
    ensures Inv(After(w, steps))
    ensures CopyRuns(Content(w), steps)
    ensures Content(After(w, steps)) == CopyAfter(Content(w), steps)
    decreases |steps|
  {
    hide Inv, Enabled, Apply, Content, CopyEnabled, CopyApply;
    if steps != [] {
      StepKeepsInv(w, steps[0]);
      StepRefines(w, steps[0]);
      RunRefinesCopies(Apply(w, steps[0]), steps[1..]);
    }
  }

  /** The steps that change or release the view `v` itself. */
  predicate Touches(s: Step, v: nat) {
    match s
    case Append(_, u) => u == v
    case Advance(u, _) => u == v
    case Concat(u, t) => u == v || t == v
    case DropView(u) => u == v
    case _ => false
  }

  /** Bytes once visible never change, whatever is done with buffers and other views meanwhile. */
  lemma {:induction false} VisibleBytesNeverChange(w: World, steps: seq<Step>, v: nat)
    requires Inv(w) && Runs(w, steps) && v in w.views
    requires forall i :: 0 <= i < |steps| ==> !Touches(steps[i], v)
    ensures v in After(w, steps).views
    ensures Read(After(w, steps).mem, After(w, steps).views[v]) == Read(w.mem, w.views[v])
  {
    RunRefinesCopies(w, steps);
    CopiesKeepView(Content(w), steps, v);
    assert v in Content(After(w, steps)).views;
  }

  lemma {:induction false} CopiesKeepView(c: Copies, steps: seq<Step>, v: nat)
    requires CopyRuns(c, steps) && v in c.views
    requires forall i :: 0 <= i < |steps| ==> !Touches(steps[i], v)
    ensures v in CopyAfter(c, steps).views && CopyAfter(c, steps).views[v] == c.views[v]
    decreases |steps|
  {
    if steps != [] {
      assert !Touches(steps[0], v);
      CopiesKeepView(CopyApply(c, steps[0]), steps[1..], v);
    }
  }
}
