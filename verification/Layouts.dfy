/** How a buffer lays out its data: frozen spans, then span builders in reverse order. */
module Layouts {
  import opened Base
  import opened Addresses
  import opened Spans
  import opened Queues

  datatype Layout = Layout(frozen: seq<Span>, builders: seq<SpanBuilder>) {

    function FirstLen(): nat {
      if builders == [] then 0 else Last(builders).filled
    }

    /** The length of the first unfilled slice. */
    function FirstAvailable(): nat {
      if builders == [] then 0 else Last(builders).available
    }

    function Unfrozen(): seq<Addr> {
      if builders == [] then [] else Last(builders).Data()
    }

    function Data(): seq<Addr> {
      Flat(frozen) + Unfrozen()
    }

    function Free(): seq<Addr> {
      FreeReversed(builders)
    }

    function AsQueue(): Queue {
      Queue(Data(), Free())
    }

    /**
     The structural invariant: no empty frozen span, only the logically first builder holds data,
     and no builder is empty on both sides.
     */
    predicate Sound() {
      && AllNonEmpty(frozen)
      && (forall i :: 0 <= i < |builders| ==> builders[i].FitsBlock())
      && (forall i :: 0 <= i < |builders| - 1 ==> builders[i].filled == 0 && builders[i].available > 0)
      && (builders != [] ==> FirstLen() + FirstAvailable() > 0)
    }

    /** The intended invariant: besides, every builder can still be written to. */
    predicate Ready() {
      Sound() && (builders != [] ==> FirstAvailable() > 0)
    }

    /** `freeze_from_first`: a builder without capacity is dropped, whatever it still holds. */
    function Freeze(count: nat): Layout
      requires Sound() && 0 < count <= FirstLen()
    {
      var (span, rest) := Last(builders).Consume(count);
      Layout(frozen + [span], if rest.available == 0 then Init(builders) else Init(builders) + [rest])
    }

    /** `BytesBuf::advance`: fills the first builder and freezes it when it is full. */
    function Advance(count: nat): Layout
      requires Sound() && count <= FirstAvailable()
    {
      if count == 0 then this
      else
        var filled := Layout(frozen, Init(builders) + [Last(builders).Advance(count)]);
        if filled.FirstAvailable() == 0 then filled.Freeze(filled.FirstLen()) else filled
    }

    /** The layout after `count` bytes were written, slice by slice. */
    function Fill(count: nat): Layout
      requires Ready()
      decreases count
    {
      if count == 0 || builders == [] then this
      else
        var step := Min(FirstAvailable(), count);
        AdvanceIsReady(this, step);
        Advance(step).Fill(count - step)
    }
  }

  /** A layout with builders, by its first builder. */
  lemma FirstBuilder(l: Layout)
    requires l.builders != []
    ensures l.builders == Init(l.builders) + [Last(l.builders)]
    ensures l.Free() == Last(l.builders).Free() + FreeReversed(Init(l.builders))
  {
  }

  /** The first unfilled slice holds the first free addresses, and exists while any are free. */
  lemma FirstFree(l: Layout)
    requires l.Sound()
    ensures l.FirstAvailable() <= |l.Free()|
    ensures l.builders != [] ==> Last(l.builders).Free() == l.Free()[..l.FirstAvailable()]
    ensures l.Ready() && l.Free() != [] ==> l.builders != [] && l.FirstAvailable() > 0
  {
    if l.builders != [] {
      FirstBuilder(l);
    }
  }

  /** Freezing keeps the free addresses and freezes the first `count` unfrozen ones. */
  lemma FreezeAddrs(l: Layout, count: nat)
    requires l.Sound() && 0 < count <= l.FirstLen()
    ensures var r := l.Freeze(count);
      && r.Free() == l.Free()
      && Flat(r.frozen) == Flat(l.frozen) + l.Unfrozen()[..count]
      && r.Unfrozen() == if l.FirstAvailable() > 0 then l.Unfrozen()[count..] else []
  {
    hide Interval, Flat, FreeReversed, SpanBuilder.Data;
    var (span, rest) := Last(l.builders).Consume(count);
    FlatSnoc(l.frozen, span);
    FirstBuilder(l);
    FreeSnoc(Init(l.builders), rest);
    if l.FirstAvailable() == 0 {
      NoAddrs(Last(l.builders), l.Freeze(count));
    }
  }

  lemma NoAddrs(b: SpanBuilder, r: Layout)
    ensures b.available == 0 ==> b.Free() == []
    ensures r.FirstLen() == 0 ==> r.Unfrozen() == []
  {
  }

  /** Freezing keeps all data, unless it drops a builder that still holds some. */
  lemma FreezeKeeps(l: Layout, count: nat)
    requires l.Sound() && 0 < count <= l.FirstLen()
    ensures var r := l.Freeze(count);
      && r.Sound() && r.Ready() && r.Free() == l.Free()
      && Flat(r.frozen) == l.Data()[..|Flat(l.frozen)| + count]
      && (l.FirstAvailable() > 0 || count == l.FirstLen() ==> r.Data() == l.Data())
      && (l.FirstAvailable() == 0 ==> r.Data() == l.Data()[..|Flat(l.frozen)| + count])
  {
    hide Interval, Flat, FreeReversed, SpanBuilder.Data, SpanBuilder.Free;
    FreezeAddrs(l, count);
    FreezeSound(l, count);
    Associative(Flat(l.frozen), l.Unfrozen()[..count], l.Unfrozen()[count..]);
  }

  lemma FreezeSound(l: Layout, count: nat)
    requires l.Sound() && 0 < count <= l.FirstLen()
    ensures l.Freeze(count).Ready() && |l.Unfrozen()| == l.FirstLen()
  {
  }

  /** The layout once the first builder was advanced, before a full builder is frozen. */
  function Filled(l: Layout, count: nat): Layout
    requires l.Sound() && l.builders != [] && count <= l.FirstAvailable()
  {
    Layout(l.frozen, Init(l.builders) + [Last(l.builders).Advance(count)])
  }

  lemma FilledAddrs(l: Layout, count: nat)
    requires l.Sound() && l.builders != [] && count <= l.FirstAvailable()
    ensures count <= |l.Free()| && Filled(l, count).Sound()
    ensures Filled(l, count).AsQueue() == l.AsQueue().Written(count)
  {
    hide Interval, Flat, FreeReversed, SpanBuilder.Data;
    var b := Last(l.builders);
    var rest := FreeReversed(Init(l.builders));
    FirstBuilder(l);
    FreeSnoc(Init(l.builders), b.Advance(count));
    SplitInside([], b.Free(), rest, count);
    assert [] + (b.Free() + rest) == b.Free() + rest;
    Associative(Flat(l.frozen), b.Data(), b.Free()[..count]);
  }

  /** Advancing moves the first free addresses to the end of the data. */
  lemma AdvanceWrites(l: Layout, count: nat)
    requires l.Sound() && count <= l.FirstAvailable()
    ensures count <= |l.Free()|
    ensures l.Advance(count).Sound()
    ensures l.Advance(count).AsQueue() == l.AsQueue().Written(count)
    ensures l.FirstAvailable() > 0 ==> l.Advance(count).Ready()
  {
    hide Interval, Flat, FreeReversed, SpanBuilder.Data, SpanBuilder.Free;
    if count == 0 {
      assert l.AsQueue().Written(0) == l.AsQueue();
    } else {
      FilledAddrs(l, count);
      var filled := Filled(l, count);
      if filled.FirstAvailable() == 0 {
        FreezeKeeps(filled, filled.FirstLen());
      }
    }
  }

  lemma AdvanceIsReady(l: Layout, count: nat)
    requires l.Ready() && l.builders != [] && 0 < count <= l.FirstAvailable()
    ensures l.Advance(count).Ready()
    ensures count == l.FirstAvailable() ==> |l.Advance(count).builders| == |l.builders| - 1
    ensures count < l.FirstAvailable() ==> |l.Advance(count).builders| == |l.builders|
  {
    hide Interval, Flat, FreeReversed;
    AdvanceWrites(l, count);
  }

  /** Writing `count` bytes that fit moves exactly the first `count` free addresses. */
  lemma {:induction false} FillWrites(l: Layout, count: nat)
    requires l.Ready() && count <= |l.Free()|
    ensures l.Fill(count).Ready()
    ensures l.Fill(count).AsQueue() == l.AsQueue().Written(count)
    decreases count
  {
    hide Interval, Flat, FreeReversed, Layout.Advance;
    FirstFree(l);
    if count == 0 {
      assert l.AsQueue().Written(0) == l.AsQueue();
    } else {
      var step := Min(l.FirstAvailable(), count);
      AdvanceIsReady(l, step);
      AdvanceWrites(l, step);
      FillWrites(l.Advance(step), count - step);
      WrittenTwice(l.AsQueue(), step, count - step);
    }
  }

  lemma WrittenTwice(q: Queue, a: nat, b: nat)
    requires a + b <= |q.free|
    ensures q.Written(a).Written(b) == q.Written(a + b)
  {
    SliceJoin(q.free, 0, a, a + b);
    Associative(q.data, q.free[..a], q.free[a..a + b]);
    SliceSlice(q.free, a, |q.free|, 0, b);
  }

  // The write loops of `put_slice_looped`, `put_byte_repeated` and `commit`.

  /** One iteration: the first unfilled slice takes as much as it can of what is left. */
  function WriteStep(l: Layout, left: nat): (Layout, nat)
    requires l.Sound()
  {
    var step := Min(l.FirstAvailable(), left);
    (l.Advance(step), left - step)
  }

  function WriteSteps(l: Layout, left: nat, iterations: nat): (r: (Layout, nat))
    requires l.Sound()
    ensures r.0.Sound()
    decreases iterations
  {
    if iterations == 0 || left == 0 then (l, left)
    else
      AdvanceWrites(l, Min(l.FirstAvailable(), left));
      var (next, rest) := WriteStep(l, left);
      WriteSteps(next, rest, iterations - 1)
  }

  /** Without a first unfilled slice the loop makes no progress, however long it runs. */
  lemma {:induction false} StalledForever(l: Layout, left: nat, iterations: nat)
    requires l.Sound() && l.FirstAvailable() == 0
    ensures WriteSteps(l, left, iterations) == (l, left)
  {
    if iterations > 0 && left > 0 {
      StalledForever(l, left, iterations - 1);
    }
  }

  /** From a ready layout the loop ends after at most one iteration per builder. */
  lemma {:induction false} WriteLoopEnds(l: Layout, left: nat)
    requires l.Ready() && left <= |l.Free()|
    ensures WriteSteps(l, left, |l.builders|) == (l.Fill(left), 0)
    decreases |l.builders|
  {
    hide Flat, FreeReversed, Interval, Layout.Advance;
    FirstFree(l);
    if l.builders != [] && left > 0 {
      var step := Min(l.FirstAvailable(), left);
      AdvanceIsReady(l, step);
      AdvanceWrites(l, step);
      if step == l.FirstAvailable() {
        WriteLoopEnds(l.Advance(step), left - step);
      }
    }
  }

  /**
   A write loop for `left` bytes that fit terminates if and only if there is nothing to write or
   the first builder has room.
   */
  lemma WriteLoopTerminates(l: Layout, left: nat)
    requires l.Sound() && left <= |l.Free()|
    ensures (exists iterations :: WriteSteps(l, left, iterations).1 == 0) <==> left == 0 || l.FirstAvailable() > 0
  {
    if left == 0 {
      assert WriteSteps(l, left, 0).1 == 0;
    } else if l.FirstAvailable() > 0 {
      WriteLoopEnds(l, left);
      assert WriteSteps(l, left, |l.builders|).1 == 0;
    } else {
      forall iterations: nat
        ensures WriteSteps(l, left, iterations).1 == left
      {
        StalledForever(l, left, iterations);
      }
    }
  }
}
