/**
 Spans (immutable ranges of a memory block) and span builders (a filled prefix and an unfilled
 suffix of a block region). Both are plain structs that the source stores by value in vectors.
 */
module Spans {
  import opened Base
  import opened Addresses

  datatype Span = Span(block: nat, start: nat, len: nat) {

    function Addrs(): seq<Addr> {
      Interval(block, start, len)
    }

    /** `Span::slice` for the half-open range `from..to`. */
    function Slice(from: nat, to: nat): (r: Span)
      requires from <= to <= len
      ensures r.Addrs() == Addrs()[from..to]
    {
      Span(block, start + from, to - from)
    }

    /** `Span::advance`; the cast to `BlockSize` and the wrapping subtraction are written out. */
    function Advance(count: nat): (r: Span)
      requires count <= len <= BLOCK_MAX
      ensures r.Addrs() == Addrs()[count..]
    {
      Span(block, start + count, WrappingSub(len, ToBlockSize(count), BLOCK_MAX))
    }
  }

  datatype SpanBuilder = SpanBuilder(block: nat, start: nat, filled: nat, available: nat) {

    /** The addresses that hold data, and the addresses that can still be written. */
    function Data(): seq<Addr> {
      Interval(block, start, filled)
    }

    function Free(): seq<Addr> {
      Interval(block, start + filled, available)
    }

    predicate FitsBlock() {
      filled + available <= BLOCK_MAX
    }

    /** `SpanBuilder::consume`: detaches `count` filled bytes from the front. */
    function Consume(count: nat): (r: (Span, SpanBuilder))
      requires FitsBlock() && 0 < count <= filled
      ensures r.0.Addrs() == Data()[..count]
      ensures r.1.Data() == Data()[count..]
      ensures r.1.Free() == Free()
      ensures r.0.len == count && r.1.FitsBlock()
    {
      (Span(block, start, count),
       SpanBuilder(block, start + count, WrappingSub(filled, count, BLOCK_MAX), available))
    }

    /** `SpanBuilder::peek`: a span over all filled bytes. */
    function Peek(): (r: Span)
      ensures r.Addrs() == Data()
    {
      Span(block, start, filled)
    }

    /** `SpanBuilder::advance`: turns the first `count` unfilled bytes into data. */
    function Advance(count: nat): (r: SpanBuilder)
      requires FitsBlock() && count <= available
      ensures r.Data() == Data() + Free()[..count]
      ensures r.Free() == Free()[count..]
      ensures r.FitsBlock()
    {
      var c := ToBlockSize(count);
      SpanBuilder(block, start, WrappingAdd(filled, c, BLOCK_MAX), WrappingSub(available, c, BLOCK_MAX))
    }

    /** `SpanBuilder::split_off_available`: the last `count` unfilled bytes become a new builder. */
    function SplitOff(count: nat): (r: (SpanBuilder, SpanBuilder))
      requires FitsBlock() && 0 < count <= available
      ensures r.0.Data() == Data() && r.1.Data() == []
      ensures r.0.Free() + r.1.Free() == Free()
      ensures r.1.available == count
      ensures r.0.FitsBlock() && r.1.FitsBlock()
    {
      var keep := WrappingSub(available, count, BLOCK_MAX);
      (SpanBuilder(block, start, filled, keep),
       SpanBuilder(block, start + WrappingAdd(filled, keep, BLOCK_MAX), 0, count))
    }
  }

  /** The addresses covered by spans that are listed in content order. */
  function Flat(spans: seq<Span>): seq<Addr> {
    if spans == [] then [] else spans[0].Addrs() + Flat(spans[1..])
  }

  /** The addresses covered by spans that are listed in reverse content order. */
  function FlatReversed(spans: seq<Span>): seq<Addr> {
    if spans == [] then [] else Last(spans).Addrs() + FlatReversed(Init(spans))
  }

  /** The unfilled addresses of builders that are listed in reverse content order. */
  function FreeReversed(builders: seq<SpanBuilder>): seq<Addr> {
    if builders == [] then [] else Last(builders).Free() + FreeReversed(Init(builders))
  }

  predicate AllNonEmpty(spans: seq<Span>) {
    forall i :: 0 <= i < |spans| ==> 0 < spans[i].len <= BLOCK_MAX
  }

  lemma {:induction false} FlatAppend(a: seq<Span>, b: seq<Span>)
    ensures Flat(a + b) == Flat(a) + Flat(b)
  {
    hide Interval, Span.Addrs;
    if a == [] {
      assert a + b == b;
    } else {
      assert (a + b)[1..] == a[1..] + b;
      FlatAppend(a[1..], b);
      Associative(a[0].Addrs(), Flat(a[1..]), Flat(b));
    }
  }

  lemma {:induction false} FlatReversedAppend(a: seq<Span>, b: seq<Span>)
    ensures FlatReversed(a + b) == FlatReversed(b) + FlatReversed(a)
  {
    hide Interval, Span.Addrs;
    if b == [] {
      assert a + b == a;
    } else {
      assert Init(a + b) == a + Init(b) && Last(a + b) == Last(b);
      FlatReversedAppend(a, Init(b));
      Associative(Last(b).Addrs(), FlatReversed(Init(b)), FlatReversed(a));
    }
  }

  lemma {:induction false} FlatReverse(spans: seq<Span>)
    ensures FlatReversed(Reverse(spans)) == Flat(spans)
  {
    hide Interval, Span.Addrs;
    if spans != [] {
      FlatReverse(spans[1..]);
      assert Init(Reverse(spans)) == Reverse(spans[1..]);
    }
  }

  lemma {:induction false} FreeReversedAppend(a: seq<SpanBuilder>, b: seq<SpanBuilder>)
    ensures FreeReversed(a + b) == FreeReversed(b) + FreeReversed(a)
  {
    hide Interval, SpanBuilder.Free;
    if b == [] {
      assert a + b == a;
    } else {
      assert Init(a + b) == a + Init(b) && Last(a + b) == Last(b);
      FreeReversedAppend(a, Init(b));
      Associative(Last(b).Free(), FreeReversed(Init(b)), FreeReversed(a));
    }
  }

  lemma FreeSnoc(builders: seq<SpanBuilder>, b: SpanBuilder)
    ensures FreeReversed(builders + [b]) == b.Free() + FreeReversed(builders)
  {
    assert Init(builders + [b]) == builders;
  }

  lemma FlatSnoc(spans: seq<Span>, span: Span)
    ensures Flat(spans + [span]) == Flat(spans) + span.Addrs()
  {
    hide Interval, Span.Addrs;
    FlatAppend(spans, [span]);
    assert Flat([span]) == span.Addrs() + Flat([]);
  }

  lemma ReverseKeepsNonEmpty(spans: seq<Span>)
    requires AllNonEmpty(spans)
    ensures AllNonEmpty(Reverse(spans))
  {
    if spans != [] {
      ReverseKeepsNonEmpty(spans[1..]);
    }
  }
}
