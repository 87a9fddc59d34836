/**
 The same world as spans and builders lay it out: every buffer a `Layout`, every view its stored spans.
 Each operation does to blocks, starts and lengths what `SharedMemory` says it does to addresses.
 */
module SharedBlocks {
  import opened Base
  import opened Addresses
  import opened Spans
  import opened SpanPositions
  import opened Queues
  import opened Layouts
  import opened LayoutSteps
  import opened BytesViews
  import M = SharedMemory

  datatype Blocks = Blocks(mem: Memory, bufs: map<nat, Layout>, views: map<nat, seq<Span>>)

  /** The addresses behind the layouts and spans. */
  ghost function World(c: Blocks): M.World {
    M.World(c.mem, map b | b in c.bufs :: c.bufs[b].AsQueue(), map v | v in c.views :: FlatReversed(c.views[v]))
  }

  /** Every buffer has the structural invariant, and no view holds an empty span. */
  ghost predicate Sound(c: Blocks) {
    && (forall b :: b in c.bufs ==> c.bufs[b].Sound())
    && (forall v :: v in c.views ==> AllNonEmpty(c.views[v]))
  }

  /**
   The operations; a consume and a split carry what their first loop has decided. Splitting off nothing
   is making a new buffer.
   */
  datatype Op =
    | NewBuffer(b: nat)
    | Reserve(b: nat, provided: seq<SpanBuilder>)
    | Put(b: nat, src: seq<byte>)
    | Scribble(b: nat, at: nat, src: seq<byte>)
    | Commit(b: nat, src: seq<byte>)
    | Peek(b: nat, v: nat)
    | Consume(b: nat, count: nat, manifest: ConsumeManifest, v: nat)
    | Append(b: nat, v: nat)
    | SplitOff(b: nat, count: nat, taken: nat, left: nat, c: nat)
    | Clone(v: nat, u: nat)
    | Range(v: nat, from: nat, to: nat, u: nat)
    | Advance(v: nat, count: nat)
    | Concat(v: nat, u: nat)
    | DropBuffer(b: nat)
    | DropView(v: nat)

  // ---- What an operation leaves behind ----

  /** The spans of `peek`, as stored in a view. */
  function PeekSpans(l: Layout): seq<Span> {
    (if l.builders != [] && Last(l.builders).filled > 0 then [Last(l.builders).Peek()] else []) + Reverse(l.frozen)
  }

  /** The spans that are left of a view when it has advanced. */
  function Advanced(rs: seq<Span>, count: nat): seq<Span>
    requires AllNonEmpty(rs) && count <= |FlatReversed(rs)|
    decreases |rs|
  {
    if count == 0 then rs
    else
      AdvanceFront(rs, count);
      if count < Last(rs).len then Init(rs) + [Last(rs).Advance(count)]
      else Advanced(Init(rs), count - Last(rs).len)
  }

  function AppendedLayout(l: Layout, rs: seq<Span>): Layout
    requires l.Sound()
  {
    if rs == [] then l else Layout(AllFrozen(l).frozen + Reverse(rs), AllFrozen(l).builders)
  }

  ghost predicate Enabled(c: Blocks, op: Op) {
    match op
    case NewBuffer(b) => b !in c.bufs
    case Reserve(b, provided) =>
      && b in c.bufs && Fresh(provided) && NoDuplicates(FreeReversed(provided))
      && forall a :: a in FreeReversed(provided) ==> !M.Visible(World(c), a) && !M.Owned(World(c), a)
    case Put(b, src) => b in c.bufs && (c.bufs[b].Ready() || src == []) && |src| <= |c.bufs[b].Free()|
    case Scribble(b, at, src) => b in c.bufs && at + |src| <= |c.bufs[b].Free()|
    case Commit(b, src) =>
      && b in c.bufs && (c.bufs[b].Ready() || src == []) && |src| <= |c.bufs[b].Free()|
      && Read(c.mem, c.bufs[b].Free()[..|src|]) == src
    case Peek(b, v) => b in c.bufs && v !in c.views
    case Consume(b, count, manifest, v) =>
      && b in c.bufs && v !in c.views && c.bufs[b].Sound() && count <= |c.bufs[b].Data()|
      && Covers(FrozenUpTo(c.bufs[b], count).frozen, manifest, count)
    case Append(b, v) => b in c.bufs && v in c.views
    case SplitOff(b, count, taken, left, d) =>
      && b in c.bufs && d !in c.bufs && 0 < count <= |c.bufs[b].Free()|
      && TakesWhole(c.bufs[b].builders, count, taken, left)
    case Clone(v, u) => v in c.views && u !in c.views
    case Range(v, from, to, u) => v in c.views && u !in c.views && from <= to <= |FlatReversed(c.views[v])|
    case Advance(v, count) => v in c.views && count <= |FlatReversed(c.views[v])|
    case Concat(v, u) => v in c.views && u in c.views && v != u
    case DropBuffer(b) => b in c.bufs
    case DropView(v) => v in c.views
  }

  /** What a commit leaves, and what a put leaves: an empty put goes through the fast path too. */
  function AfterCommit(l: Layout, count: nat): Layout
    requires l.Ready() || count == 0
  {
    if count == 0 then l else l.Fill(count)
  }

  function AfterPut(l: Layout, count: nat): Layout
    requires l.Sound() && (l.Ready() || count == 0)
  {
    if count > 0 then l.Fill(count)
    else if l.builders == [] then l
    else
      PutSmallShape(l, 0);
      PutSmallResult(l, 0)
  }

  ghost function Consumed(c: Blocks, b: nat, count: nat, manifest: ConsumeManifest, v: nat): Blocks
    requires Sound(c) && Enabled(c, Consume(b, count, manifest, v))
  {
    var mid := FrozenUpTo(c.bufs[b], count);
    FrozenUpToShape(c.bufs[b], count);
    c.(bufs := c.bufs[b := Layout(Retained(mid.frozen, manifest), mid.builders)],
       views := c.views[v := Detached(mid.frozen, manifest)])
  }

  ghost function Apply(c: Blocks, op: Op): Blocks
    requires Sound(c) && Enabled(c, op)
  {
    match op
    case NewBuffer(b) => c.(bufs := c.bufs[b := Layout([], [])])
    case Reserve(b, provided) =>
      c.(bufs := c.bufs[b := Layout(c.bufs[b].frozen, provided + c.bufs[b].builders)])
    case Put(b, src) =>
      c.(mem := Write(c.mem, c.bufs[b].Free()[..|src|], src), bufs := c.bufs[b := AfterPut(c.bufs[b], |src|)])
    case Scribble(b, at, src) => c.(mem := Write(c.mem, c.bufs[b].Free()[at..at + |src|], src))
    case Commit(b, src) => c.(bufs := c.bufs[b := AfterCommit(c.bufs[b], |src|)])
    case Peek(b, v) => c.(views := c.views[v := PeekSpans(c.bufs[b])])
    case Consume(b, count, manifest, v) => Consumed(c, b, count, manifest, v)
    case Append(b, v) =>
      c.(bufs := c.bufs[b := AppendedLayout(c.bufs[b], c.views[v])], views := c.views - {v})
    case SplitOff(b, count, taken, left, d) =>
      SplitPartsDefined(c.bufs[b], count, taken, left);
      c.(bufs := c.bufs[b := Layout(c.bufs[b].frozen, KeptPart(c.bufs[b].builders, taken, left))]
                       [d := Layout([], SplitPart(c.bufs[b].builders, taken, left))])
    case Clone(v, u) => c.(views := c.views[u := c.views[v]])
    case Range(v, from, to, u) => c.(views := c.views[u := Cut(c.views[v], 0, from, to)])
    case Advance(v, count) => c.(views := c.views[v := Advanced(c.views[v], count)])
    case Concat(v, u) => c.(views := c.views[v := c.views[u] + c.views[v]] - {u})
    case DropBuffer(b) => c.(bufs := c.bufs - {b})
    case DropView(v) => c.(views := c.views - {v})
  }

  /** The operation as a step on addresses. */
  ghost function StepOf(c: Blocks, op: Op): M.Step
    requires Enabled(c, op)
  {
    match op
    case NewBuffer(b) => M.NewBuffer(b)
    case Reserve(b, provided) => M.Reserve(b, FreeReversed(provided))
    case Put(b, src) => M.Put(b, src)
    case Scribble(b, at, src) => M.Scribble(b, at, src)
    case Commit(b, src) => M.Commit(b, src)
    case Peek(b, v) => M.Peek(b, v)
    case Consume(b, count, _, v) =>
      if LosesBytes(c.bufs[b], count) then M.ConsumeLosing(b, count, v) else M.Consume(b, count, v)
    case Append(b, v) => M.Append(b, v)
    case SplitOff(b, count, _, _, d) => M.SplitOff(b, count, d)
    case Clone(v, u) => M.Clone(v, u)
    case Range(v, from, to, u) => M.Range(v, from, to, u)
    case Advance(v, count) => M.Advance(v, count)
    case Concat(v, u) => M.Concat(v, u)
    case DropBuffer(b) => M.DropBuffer(b)
    case DropView(v) => M.DropView(v)
  }

  // ---- Replacing one buffer or one view ----

  lemma SetBuffer(c: Blocks, b: nat, l: Layout)
    ensures World(c.(bufs := c.bufs[b := l])) == World(c).(bufs := World(c).bufs[b := l.AsQueue()])
    ensures Sound(c) && l.Sound() ==> Sound(c.(bufs := c.bufs[b := l]))
  {
    hide Layout.AsQueue, Layout.Sound;
    assert World(c.(bufs := c.bufs[b := l])).bufs == World(c).bufs[b := l.AsQueue()];
  }

  lemma SetView(c: Blocks, v: nat, rs: seq<Span>)
    ensures World(c.(views := c.views[v := rs])) == World(c).(views := World(c).views[v := FlatReversed(rs)])
    ensures Sound(c) && AllNonEmpty(rs) ==> Sound(c.(views := c.views[v := rs]))
  {
    hide Layout.AsQueue, Layout.Sound, FlatReversed, AllNonEmpty;
    assert World(c.(views := c.views[v := rs])).views == World(c).views[v := FlatReversed(rs)];
  }

  lemma RemoveView(c: Blocks, v: nat)
    ensures World(c.(views := c.views - {v})) == World(c).(views := World(c).views - {v})
    ensures Sound(c) ==> Sound(c.(views := c.views - {v}))
  {
    hide Layout.AsQueue, Layout.Sound, FlatReversed, AllNonEmpty;
    assert World(c.(views := c.views - {v})).views == World(c).views - {v};
  }

  lemma RemoveBuffer(c: Blocks, b: nat)
    ensures World(c.(bufs := c.bufs - {b})) == World(c).(bufs := World(c).bufs - {b})
    ensures Sound(c) ==> Sound(c.(bufs := c.bufs - {b}))
  {
    hide Layout.AsQueue, Layout.Sound, FlatReversed, AllNonEmpty;
    assert World(c.(bufs := c.bufs - {b})).bufs == World(c).bufs - {b};
  }

  lemma SetMemory(c: Blocks, mem: Memory)
    ensures World(c.(mem := mem)) == World(c).(mem := mem)
    ensures Sound(c) ==> Sound(c.(mem := mem))
  {
    hide Layout.AsQueue, Layout.Sound, FlatReversed, AllNonEmpty;
  }

  // ---- What each operation does to one buffer or view ----

  lemma CommitShape(l: Layout, count: nat)
    requires l.Sound() && (l.Ready() || count == 0) && count <= |l.Free()|
    ensures AfterCommit(l, count).Sound() && AfterCommit(l, count).AsQueue() == l.AsQueue().Written(count)
  {
    hide Flat, FreeReversed, Interval, Layout.Fill;
    if count == 0 {
      assert l.AsQueue().Written(0) == l.AsQueue();
    } else {
      FillWrites(l, count);
    }
  }

  lemma PutShape(l: Layout, count: nat)
    requires l.Sound() && (l.Ready() || count == 0) && count <= |l.Free()|
    ensures AfterPut(l, count).Sound() && AfterPut(l, count).AsQueue() == l.AsQueue().Written(count)
  {
    hide Flat, FreeReversed, Interval, Layout.Fill, PutSmallResult;
    if count > 0 {
      FillWrites(l, count);
    } else if l.builders == [] {
      assert l.AsQueue().Written(0) == l.AsQueue();
    } else {
      PutSmallShape(l, 0);
    }
  }

  lemma PeekShape(l: Layout)
    requires l.Sound()
    ensures AllNonEmpty(PeekSpans(l)) && FlatReversed(PeekSpans(l)) == l.Data()
  {
    hide Flat, FlatReversed, FreeReversed, Reverse, Interval;
    NothingIsFlat();
    NoAddrs(SpanBuilder(0, 0, 0, 0), l);
    var first := if l.builders != [] && Last(l.builders).filled > 0 then [Last(l.builders).Peek()] else [];
    if first != [] { FlatOfOne(first[0]); }
    FlatReversedAppend(first, Reverse(l.frozen));
    FlatReverse(l.frozen);
    ReverseKeepsNonEmpty(l.frozen);
  }

  lemma {:induction false} AdvancedShape(rs: seq<Span>, count: nat)
    requires AllNonEmpty(rs) && count <= |FlatReversed(rs)|
    ensures AllNonEmpty(Advanced(rs, count)) && FlatReversed(Advanced(rs, count)) == FlatReversed(rs)[count..]
    decreases |rs|
  {
    if count == 0 {
      assert FlatReversed(rs)[0..] == FlatReversed(rs);
    } else {
      AdvanceFront(rs, count);
      if count >= Last(rs).len { AdvancedShape(Init(rs), count - Last(rs).len); }
    }
  }

  lemma AppendedShape(l: Layout, rs: seq<Span>)
    requires l.Sound() && AllNonEmpty(rs)
    ensures AppendedLayout(l, rs).Sound() && AppendedLayout(l, rs).AsQueue() == l.AsQueue().Appended(FlatReversed(rs))
  {
    hide Flat, FlatReversed, FreeReversed, Reverse, Interval, AllFrozen;
    AppendShape(l, rs);
    if rs == [] {
      NothingIsFlat();
      assert l.Data() + [] == l.Data();
    }
  }

  // ---- Every operation is a step on addresses ----

  ghost predicate Refines(c: Blocks, op: Op)
    requires Sound(c) && Enabled(c, op)
  {
    && Sound(Apply(c, op)) && M.Enabled(World(c), StepOf(c, op))
    && World(Apply(c, op)) == M.Apply(World(c), StepOf(c, op))
  }

  lemma BufferOf(c: Blocks, b: nat)
    requires b in c.bufs
    ensures b in World(c).bufs && World(c).mem == c.mem && World(c).bufs.Keys == c.bufs.Keys
    ensures World(c).bufs[b] == c.bufs[b].AsQueue() == Queue(c.bufs[b].Data(), c.bufs[b].Free())
    ensures World(c).views.Keys == c.views.Keys
    ensures Sound(c) ==> c.bufs[b].Sound()
  {
    hide Flat, FlatReversed, FreeReversed, Layout.Sound;
  }

  lemma ViewOf(c: Blocks, v: nat)
    requires v in c.views
    ensures v in World(c).views && World(c).views[v] == FlatReversed(c.views[v])
    ensures World(c).views.Keys == c.views.Keys
    ensures Sound(c) ==> AllNonEmpty(c.views[v])
  {
    hide Flat, FlatReversed, FreeReversed, Layout.Sound, AllNonEmpty;
  }

  lemma ReserveRefines(c: Blocks, b: nat, provided: seq<SpanBuilder>)
    requires Sound(c) && Enabled(c, Reserve(b, provided))
    ensures Refines(c, Reserve(b, provided))
  {
    hide Sound, World, Layout.Sound, Layout.AsQueue, FreeReversed, Fresh, M.Visible, M.Owned, NoDuplicates;
    BufferOf(c, b);
    ReserveShape(c.bufs[b], provided);
    SetBuffer(c, b, Layout(c.bufs[b].frozen, provided + c.bufs[b].builders));
  }

  lemma PutRefines(c: Blocks, b: nat, src: seq<byte>)
    requires Sound(c) && Enabled(c, Put(b, src))
    ensures Refines(c, Put(b, src))
  {
    hide Sound, World, Layout.Sound, Layout.Ready, Layout.AsQueue, FreeReversed, AfterPut, Write;
    BufferOf(c, b);
    PutShape(c.bufs[b], |src|);
    SetBuffer(c, b, AfterPut(c.bufs[b], |src|));
    SetMemory(c.(bufs := c.bufs[b := AfterPut(c.bufs[b], |src|)]), Write(c.mem, c.bufs[b].Free()[..|src|], src));
  }

  lemma CommitRefines(c: Blocks, b: nat, src: seq<byte>)
    requires Sound(c) && Enabled(c, Commit(b, src))
    ensures Refines(c, Commit(b, src))
  {
    hide Sound, World, Layout.Sound, Layout.Ready, Layout.AsQueue, FreeReversed, AfterCommit, Read;
    BufferOf(c, b);
    CommitShape(c.bufs[b], |src|);
    SetBuffer(c, b, AfterCommit(c.bufs[b], |src|));
  }

  lemma ScribbleRefines(c: Blocks, b: nat, at: nat, src: seq<byte>)
    requires Sound(c) && Enabled(c, Scribble(b, at, src))
    ensures Refines(c, Scribble(b, at, src))
  {
    hide Sound, World, Layout.Sound, Layout.AsQueue, FreeReversed, Write;
    BufferOf(c, b);
    SetMemory(c, Write(c.mem, c.bufs[b].Free()[at..at + |src|], src));
  }

  lemma PeekRefines(c: Blocks, b: nat, v: nat)
    requires Sound(c) && Enabled(c, Peek(b, v))
    ensures Refines(c, Peek(b, v))
  {
    hide Sound, World, Layout.Sound, Layout.AsQueue, FreeReversed, FlatReversed, PeekSpans, AllNonEmpty;
    BufferOf(c, b);
    PeekShape(c.bufs[b]);
    SetView(c, v, PeekSpans(c.bufs[b]));
  }

  lemma ManifestShape(l: Layout, manifest: ConsumeManifest, count: nat)
    requires l.Sound() && count <= |l.Data()| && Covers(FrozenUpTo(l, count).frozen, manifest, count)
    ensures var spans := FrozenUpTo(l, count).frozen;
      && AllNonEmpty(spans) && count <= |Flat(spans)| && manifest.whole <= |spans|
      && (manifest.partial > 0 ==>
            manifest.whole < |spans| && manifest.partial <= spans[manifest.whole].len <= BLOCK_MAX)
      && FlatReversed(Detached(spans, manifest)) == l.Data()[..count] && AllNonEmpty(Detached(spans, manifest))
      && Flat(Retained(spans, manifest)) == Flat(spans)[count..] && AllNonEmpty(Retained(spans, manifest))
  {
    hide Flat, FlatReversed, FreeReversed, Interval, FrozenUpTo, Retained, Detached;
    FrozenUpToShape(l, count);
    var spans := FrozenUpTo(l, count).frozen;
    DetachedIsPrefix(spans, manifest, count);
    RetainedIsSuffix(spans, manifest, count);
    DetachedNonEmpty(spans, manifest, count);
  }

  lemma ConsumedShape(l: Layout, manifest: ConsumeManifest, count: nat)
    requires l.Sound() && count <= |l.Data()| && Covers(FrozenUpTo(l, count).frozen, manifest, count)
    ensures var mid := FrozenUpTo(l, count);
      && manifest.whole <= |mid.frozen|
      && (manifest.partial > 0 ==>
            manifest.whole < |mid.frozen| && manifest.partial <= mid.frozen[manifest.whole].len <= BLOCK_MAX)
      && AllNonEmpty(Detached(mid.frozen, manifest))
      && FlatReversed(Detached(mid.frozen, manifest)) == l.AsQueue().data[..count]
      && var rest := Layout(Retained(mid.frozen, manifest), mid.builders);
         && rest.Sound()
         && rest.AsQueue() == if LosesBytes(l, count) then Queue([], l.AsQueue().free) else l.AsQueue().Consumed(count)
  {
    hide Layout.Sound, Flat, FlatReversed, FreeReversed, AllNonEmpty;
    hide FrozenUpTo, Retained, Detached, Covers, LosesBytes;
    ManifestShape(l, manifest, count);
    ConsumeShape(l, Retained(FrozenUpTo(l, count).frozen, manifest), count);
  }

  lemma ConsumeRefines(c: Blocks, b: nat, count: nat, manifest: ConsumeManifest, v: nat)
    requires Sound(c) && Enabled(c, Consume(b, count, manifest, v))
    ensures Refines(c, Consume(b, count, manifest, v))
  {
    hide Sound, World, Layout.Sound, Layout.AsQueue, Layout.Data, Layout.Free, FlatReversed, AllNonEmpty;
    hide FrozenUpTo, Retained, Detached, Covers, LosesBytes, Queue.Consumed;
    var mid := FrozenUpTo(c.bufs[b], count);
    BufferOf(c, b);
    ConsumedShape(c.bufs[b], manifest, count);
    var rest := Layout(Retained(mid.frozen, manifest), mid.builders);
    SetBuffer(c, b, rest);
    SetView(c.(bufs := c.bufs[b := rest]), v, Detached(mid.frozen, manifest));
  }

  lemma AppendRefines(c: Blocks, b: nat, v: nat)
    requires Sound(c) && Enabled(c, Append(b, v))
    ensures Refines(c, Append(b, v))
  {
    hide Sound, World, Layout.Sound, Layout.AsQueue, FreeReversed, FlatReversed, AllNonEmpty, AppendedLayout;
    BufferOf(c, b);
    ViewOf(c, v);
    AppendedShape(c.bufs[b], c.views[v]);
    SetBuffer(c, b, AppendedLayout(c.bufs[b], c.views[v]));
    RemoveView(c.(bufs := c.bufs[b := AppendedLayout(c.bufs[b], c.views[v])]), v);
  }

  lemma SplitPartShape(l: Layout, count: nat, taken: nat, left: nat)
    requires l.Sound() && 0 < count <= |l.Free()| && TakesWhole(l.builders, count, taken, left)
    ensures taken <= |l.builders|
    ensures left > 0 ==> taken < |l.builders| && l.builders[taken].FitsBlock() && left <= l.builders[taken].available
    ensures var split := Layout([], SplitPart(l.builders, taken, left));
      split.Sound() && split.AsQueue() == l.AsQueue().SplitOff(count)
  {
    hide Flat, FreeReversed, KeptPart, SplitPart, TakesWhole, Fresh;
    SplitPartsDefined(l, count, taken, left);
    SplitShape(l, count, taken, left);
    FreshShape(SplitPart(l.builders, taken, left));
  }

  lemma SplitOffRefines(c: Blocks, b: nat, count: nat, taken: nat, left: nat, d: nat)
    requires Sound(c) && Enabled(c, SplitOff(b, count, taken, left, d))
    ensures Refines(c, SplitOff(b, count, taken, left, d))
  {
    hide Sound, World, Layout.Sound, Layout.AsQueue, FreeReversed, Flat, KeptPart, SplitPart, TakesWhole;
    hide Queue.Kept, Queue.SplitOff;
    var l := c.bufs[b];
    BufferOf(c, b);
    SplitPartShape(l, count, taken, left);
    SplitShape(l, count, taken, left);
    var kept := Layout(l.frozen, KeptPart(l.builders, taken, left));
    var split := Layout([], SplitPart(l.builders, taken, left));
    SetBuffer(c, b, kept);
    SetBuffer(c.(bufs := c.bufs[b := kept]), d, split);
  }

  lemma RangeRefines(c: Blocks, v: nat, from: nat, to: nat, u: nat)
    requires Sound(c) && Enabled(c, Range(v, from, to, u))
    ensures Refines(c, Range(v, from, to, u))
  {
    hide Sound, World, Layout.Sound, Layout.AsQueue, FlatReversed, AllNonEmpty, Cut;
    ViewOf(c, v);
    CutIsSlice(c.views[v], 0, from, to);
    CutIsNonEmpty(c.views[v], 0, from, to);
    SetView(c, u, Cut(c.views[v], 0, from, to));
  }

  lemma AdvanceRefines(c: Blocks, v: nat, count: nat)
    requires Sound(c) && Enabled(c, Advance(v, count))
    ensures Refines(c, Advance(v, count))
  {
    hide Sound, World, Layout.Sound, Layout.AsQueue, FlatReversed, AllNonEmpty, Advanced;
    ViewOf(c, v);
    AdvancedShape(c.views[v], count);
    SetView(c, v, Advanced(c.views[v], count));
  }

  lemma ViewRefines(c: Blocks, op: Op)
    requires Sound(c) && Enabled(c, op) && (op.Clone? || op.DropView?)
    ensures Refines(c, op)
  {
    hide Sound, World, Layout.Sound, Layout.AsQueue, FlatReversed, AllNonEmpty;
    ViewOf(c, op.v);
    match op
    case Clone(v, u) => SetView(c, u, c.views[v]);
    case DropView(v) => RemoveView(c, v);
  }

  lemma ConcatRefines(c: Blocks, v: nat, u: nat)
    requires Sound(c) && Enabled(c, Concat(v, u))
    ensures Refines(c, Concat(v, u))
  {
    hide Sound, World, Layout.Sound, Layout.AsQueue, FlatReversed, AllNonEmpty;
    ViewOf(c, v);
    ViewOf(c, u);
    ConcatShape(c.views[u], c.views[v]);
    SetView(c, v, c.views[u] + c.views[v]);
    RemoveView(c.(views := c.views[v := c.views[u] + c.views[v]]), u);
  }

  lemma ConcatShape(a: seq<Span>, b: seq<Span>)
    requires AllNonEmpty(a) && AllNonEmpty(b)
    ensures FlatReversed(a + b) == FlatReversed(b) + FlatReversed(a) && AllNonEmpty(a + b)
  {
    FlatReversedAppend(a, b);
  }

  /** Every operation on blocks, starts and lengths is the step on addresses that it stands for. */
  lemma OpRefines(c: Blocks, op: Op)
    requires Sound(c) && Enabled(c, op)
    ensures Refines(c, op)
  {
    hide Refines, Sound;
    match op
    case NewBuffer(b) => NewBufferRefines(c, b);
    case Reserve(b, provided) => ReserveRefines(c, b, provided);
    case Put(b, src) => PutRefines(c, b, src);
    case Scribble(b, at, src) => ScribbleRefines(c, b, at, src);
    case Commit(b, src) => CommitRefines(c, b, src);
    case Peek(b, v) => PeekRefines(c, b, v);
    case Consume(b, count, manifest, v) => ConsumeRefines(c, b, count, manifest, v);
    case Append(b, v) => AppendRefines(c, b, v);
    case SplitOff(b, count, taken, left, d) => SplitOffRefines(c, b, count, taken, left, d);
    case DropBuffer(b) => DropBufferRefines(c, b);
    case Concat(v, u) => ConcatRefines(c, v, u);
    case Range(v, from, to, u) => RangeRefines(c, v, from, to, u);
    case Advance(v, count) => AdvanceRefines(c, v, count);
    case _ => ViewRefines(c, op);
  }

  lemma NewBufferRefines(c: Blocks, b: nat)
    requires Sound(c) && Enabled(c, NewBuffer(b))
    ensures Refines(c, NewBuffer(b))
  {
    hide Sound, World, Layout.AsQueue;
    FreshShape([]);
    NewKey(c, b);
    SetBuffer(c, b, Layout([], []));
  }

  lemma NewKey(c: Blocks, b: nat)
    ensures b in World(c).bufs <==> b in c.bufs
  {
    hide Layout.AsQueue, FlatReversed;
  }

  lemma DropBufferRefines(c: Blocks, b: nat)
    requires Sound(c) && Enabled(c, DropBuffer(b))
    ensures Refines(c, DropBuffer(b))
  {
    hide Sound, World;
    NewKey(c, b);
    RemoveBuffer(c, b);
  }
}
