/**
 Whole runs over blocks, starts and lengths: what they leave is what copying would have left, and the
 memory that a builder may still write is never anywhere else.
 */
module SharedRegions {
  import opened Base
  import opened Addresses
  import opened Spans
  import opened Layouts
  import opened LayoutSteps
  import opened SharedBlocks
  import M = SharedMemory

  // ---- Whole runs ----

  ghost predicate Runs(c: Blocks, ops: seq<Op>)
    requires Sound(c)
    decreases |ops|
  {
    ops == [] || (Enabled(c, ops[0]) && Sound(Apply(c, ops[0])) && Runs(Apply(c, ops[0]), ops[1..]))
  }

  ghost function After(c: Blocks, ops: seq<Op>): Blocks
    requires Sound(c) && Runs(c, ops)
    decreases |ops|
  {
    if ops == [] then c else After(Apply(c, ops[0]), ops[1..])
  }

  ghost function StepsOf(c: Blocks, ops: seq<Op>): seq<M.Step>
    requires Sound(c) && Runs(c, ops)
    decreases |ops|
  {
    if ops == [] then [] else [StepOf(c, ops[0])] + StepsOf(Apply(c, ops[0]), ops[1..])
  }

  /** No operation ever has to be refused because an earlier one spoilt a layout. */
  lemma RunsOn(c: Blocks, ops: seq<Op>)
    requires Sound(c) && ops != [] && Enabled(c, ops[0])
    ensures Sound(Apply(c, ops[0]))
    ensures Runs(c, ops) <==> Runs(Apply(c, ops[0]), ops[1..])
  {
    hide Sound, Enabled, Apply;
    OpRefines(c, ops[0]);
  }

  /** A run on blocks is a run on addresses. */
  lemma {:induction false} RunIsOnAddresses(c: Blocks, ops: seq<Op>)
    requires Sound(c) && Runs(c, ops)
    ensures Sound(After(c, ops)) && M.Runs(World(c), StepsOf(c, ops))
    ensures World(After(c, ops)) == M.After(World(c), StepsOf(c, ops))
    decreases |ops|
  {
    hide Sound, Enabled, Apply, World, StepOf, M.Enabled, M.Apply;
    if ops != [] {
      OpRefines(c, ops[0]);
      RunIsOnAddresses(Apply(c, ops[0]), ops[1..]);
      assert StepsOf(c, ops)[1..] == StepsOf(Apply(c, ops[0]), ops[1..]);
    }
  }

  /** Any run on blocks, starts and lengths leaves the bytes that copying would have left. */
  lemma RunRefinesCopies(c: Blocks, ops: seq<Op>)
    requires Sound(c) && M.Inv(World(c)) && Runs(c, ops)
    ensures M.Inv(World(After(c, ops)))
    ensures M.CopyRuns(M.Content(World(c)), StepsOf(c, ops))
    ensures M.Content(World(After(c, ops))) == M.CopyAfter(M.Content(World(c)), StepsOf(c, ops))
  {
    hide Sound, Runs, After, World, M.Inv, M.Content;
    RunIsOnAddresses(c, ops);
    M.RunRefinesCopies(World(c), StepsOf(c, ops));
  }

  /** The operations that change or release the view `v` itself. */
  predicate Touches(op: Op, v: nat) {
    match op
    case Append(_, u) => u == v
    case Advance(u, _) => u == v
    case Concat(u, t) => u == v || t == v
    case DropView(u) => u == v
    case _ => false
  }

  lemma {:induction false} StepsTouchAlike(c: Blocks, ops: seq<Op>, v: nat)
    requires Sound(c) && Runs(c, ops) && forall i :: 0 <= i < |ops| ==> !Touches(ops[i], v)
    ensures forall i :: 0 <= i < |StepsOf(c, ops)| ==> !M.Touches(StepsOf(c, ops)[i], v)
    decreases |ops|
  {
    hide Sound, Apply, World;
    if ops != [] {
      assert !Touches(ops[0], v);
      StepsTouchAlike(Apply(c, ops[0]), ops[1..], v);
    }
  }

  /** What the spans of a view show never changes, whatever is done with buffers and other views meanwhile. */
  lemma ViewNeverChanges(c: Blocks, ops: seq<Op>, v: nat)
    requires Sound(c) && M.Inv(World(c)) && Runs(c, ops) && v in c.views
    requires forall i :: 0 <= i < |ops| ==> !Touches(ops[i], v)
    ensures var e := After(c, ops);
      v in e.views && Read(e.mem, FlatReversed(e.views[v])) == Read(c.mem, FlatReversed(c.views[v]))
  {
    hide Sound, Runs, After, M.Inv, FlatReversed, Read, Touches, M.Touches;
    RunIsOnAddresses(c, ops);
    StepsTouchAlike(c, ops, v);
    M.VisibleBytesNeverChange(World(c), StepsOf(c, ops), v);
  }

  // ---- Regions ----

  function Unfilled(b: SpanBuilder): Span {
    Span(b.block, b.start + b.filled, b.available)
  }

  predicate Apart(x: Span, y: Span) {
    x.block != y.block || x.len == 0 || y.len == 0 || x.start + x.len <= y.start || y.start + y.len <= x.start
  }

  /** Regions overlap exactly when they share an address. */
  lemma ApartIsDisjoint(x: Span, y: Span)
    ensures Apart(x, y) <==> (forall a :: a in x.Addrs() ==> a !in y.Addrs())
  {
    if Apart(x, y) {
      forall a | a in x.Addrs()
        ensures a !in y.Addrs()
      {
        var i :| 0 <= i < x.len && x.Addrs()[i] == a;
      }
    } else if x.start <= y.start {
      var a := y.Addrs()[0];
      assert x.Addrs()[y.start - x.start] == a;
      assert a in x.Addrs() && a in y.Addrs();
    } else {
      var a := x.Addrs()[0];
      assert y.Addrs()[x.start - y.start] == a;
      assert a in x.Addrs() && a in y.Addrs();
    }
  }

  lemma FreeOfBuilder(builders: seq<SpanBuilder>, i: nat)
    requires i < |builders|
    ensures forall a :: a in Unfilled(builders[i]).Addrs() ==> a in FreeReversed(builders)
  {
    hide FreeReversed, Interval;
    FreeAround(builders, i);
  }

  lemma BuildersApart(builders: seq<SpanBuilder>, i: nat, j: nat)
    requires i < j < |builders| && NoDuplicates(FreeReversed(builders))
    ensures Apart(Unfilled(builders[i]), Unfilled(builders[j]))
  {
    hide FreeReversed, Interval, NoDuplicates;
    var x, y := Unfilled(builders[i]), Unfilled(builders[j]);
    ApartIsDisjoint(x, y);
    FreeAround(builders, j);
    FreeOfBuilder(builders[..j], i);
    var front := FreeReversed(builders[j + 1..]) + builders[j].Free();
    forall a | a in y.Addrs()
      ensures a !in x.Addrs()
    {
      NotTwice(front, FreeReversed(builders[..j]), a);
    }
  }

  lemma NotTwice(s: seq<Addr>, t: seq<Addr>, a: Addr)
    requires NoDuplicates(s + t) && a in s
    ensures a !in t
  {
    var i :| 0 <= i < |s| && s[i] == a;
    assert (s + t)[i] == a;
    forall j | 0 <= j < |t|
      ensures t[j] != a
    {
      assert (s + t)[|s| + j] == t[j];
    }
  }

  lemma AddrsOfFrozen(spans: seq<Span>, k: nat)
    requires k < |spans|
    ensures forall a :: a in spans[k].Addrs() ==> a in Flat(spans)
  {
    hide Flat, Span.Addrs;
    FlatAround(spans, k);
  }

  lemma {:induction false} AddrsOfView(spans: seq<Span>, k: nat)
    requires k < |spans|
    ensures forall a :: a in spans[k].Addrs() ==> a in FlatReversed(spans)
  {
    hide Span.Addrs;
    if k < |spans| - 1 {
      assert Init(spans)[k] == spans[k];
      AddrsOfView(Init(spans), k);
    }
  }

  /** The builder of a buffer, by buffer and position. */
  ghost predicate HasBuilder(c: Blocks, b: nat, i: nat) {
    b in c.bufs && i < |c.bufs[b].builders|
  }

  ghost function Writable(c: Blocks, b: nat, i: nat): Span
    requires HasBuilder(c, b, i)
  {
    Unfilled(c.bufs[b].builders[i])
  }

  /** The regions that a buffer reads: its frozen spans and what its builders hold. */
  ghost predicate ReadByBuffer(l: Layout, r: Span) {
    r in l.frozen || (l.builders != [] && r == Last(l.builders).Peek())
  }

  lemma AddrsOfBuffer(l: Layout, r: Span)
    requires ReadByBuffer(l, r)
    ensures forall a :: a in r.Addrs() ==> a in l.Data()
  {
    hide Flat, Span.Addrs, SpanBuilder.Data;
    if r in l.frozen {
      var k :| 0 <= k < |l.frozen| && l.frozen[k] == r;
      AddrsOfFrozen(l.frozen, k);
    }
  }

  lemma WritableApart(c: Blocks, b: nat, i: nat, d: nat, j: nat)
    requires M.Inv(World(c)) && HasBuilder(c, b, i) && HasBuilder(c, d, j) && (b != d || i != j)
    ensures Apart(Writable(c, b, i), Writable(c, d, j))
  {
    hide FreeReversed, Flat, Interval, NoDuplicates, World;
    BufferOf(c, b);
    BufferOf(c, d);
    if b == d {
      assert NoDuplicates(World(c).bufs[b].free);
      BuildersApart(c.bufs[b].builders, if i < j then i else j, if i < j then j else i);
    } else {
      FreeOfBuilder(c.bufs[b].builders, i);
      FreeOfBuilder(c.bufs[d].builders, j);
      ApartIsDisjoint(Writable(c, b, i), Writable(c, d, j));
    }
  }

  lemma WritableUnread(c: Blocks, b: nat, i: nat, d: nat, r: Span)
    requires M.Inv(World(c)) && HasBuilder(c, b, i) && d in c.bufs && ReadByBuffer(c.bufs[d], r)
    ensures Apart(Writable(c, b, i), r)
  {
    hide FreeReversed, Flat, Interval, NoDuplicates, World;
    BufferOf(c, b);
    BufferOf(c, d);
    FreeOfBuilder(c.bufs[b].builders, i);
    AddrsOfBuffer(c.bufs[d], r);
    ApartIsDisjoint(Writable(c, b, i), r);
  }

  lemma WritableUnseen(c: Blocks, b: nat, i: nat, v: nat, r: Span)
    requires M.Inv(World(c)) && HasBuilder(c, b, i) && v in c.views && r in c.views[v]
    ensures Apart(Writable(c, b, i), r)
  {
    hide FreeReversed, FlatReversed, Interval, NoDuplicates, World;
    BufferOf(c, b);
    ViewOf(c, v);
    FreeOfBuilder(c.bufs[b].builders, i);
    var k :| 0 <= k < |c.views[v]| && c.views[v][k] == r;
    AddrsOfView(c.views[v], k);
    ApartIsDisjoint(Writable(c, b, i), r);
  }

  /**
   Exclusive access, on blocks, starts and lengths: after any run, the region that a builder may still
   write overlaps no other builder's, nothing any buffer reads, and no span of any view.
   */
  lemma WritableIsExclusive(c: Blocks, ops: seq<Op>, b: nat, i: nat)
    requires Sound(c) && M.Inv(World(c)) && Runs(c, ops) && HasBuilder(After(c, ops), b, i)
    ensures var e := After(c, ops); var w := Writable(e, b, i);
      && (forall d, j :: HasBuilder(e, d, j) && (b != d || i != j) ==> Apart(w, Writable(e, d, j)))
      && (forall d, r :: d in e.bufs && ReadByBuffer(e.bufs[d], r) ==> Apart(w, r))
      && (forall v, r :: v in e.views && r in e.views[v] ==> Apart(w, r))
  {
    hide Sound, Runs, After, World, M.Inv, M.Content, Apart, ReadByBuffer;
    var e := After(c, ops);
    RunRefinesCopies(c, ops);
    forall d, j | HasBuilder(e, d, j) && (b != d || i != j)
      ensures Apart(Writable(e, b, i), Writable(e, d, j))
    {
      WritableApart(e, b, i, d, j);
    }
    forall d, r | d in e.bufs && ReadByBuffer(e.bufs[d], r)
      ensures Apart(Writable(e, b, i), r)
    {
      WritableUnread(e, b, i, d, r);
    }
    forall v, r | v in e.views && r in e.views[v]
      ensures Apart(Writable(e, b, i), r)
    {
      WritableUnseen(e, b, i, v, r);
    }
  }

  /** Runs begin with nothing reserved and nothing shared. */
  lemma NothingIsShared(mem: Memory)
    ensures Sound(Blocks(mem, map[], map[])) && M.Inv(World(Blocks(mem, map[], map[])))
  {
  }
}
