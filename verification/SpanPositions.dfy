/** Positions of spans inside the byte sequence they make up together. */
module SpanPositions {
  import opened Base
  import opened Addresses
  import opened Spans

  /** The content-order `i`th span of spans stored in reverse. */
  function SpanAt(rs: seq<Span>, i: nat): Span
    requires i < |rs|
  {
    rs[|rs| - 1 - i]
  }

  /** The number of bytes before the content-order `i`th span. */
  function Pos(rs: seq<Span>, i: nat): nat
    requires i <= |rs|
  {
    if i == 0 then 0 else Pos(rs, i - 1) + SpanAt(rs, i - 1).len
  }

  lemma {:induction false} PosMonotone(rs: seq<Span>, i: nat, j: nat)
    requires i <= j <= |rs|
    ensures Pos(rs, i) <= Pos(rs, j)
    ensures AllNonEmpty(rs) && i < j ==> Pos(rs, i) < Pos(rs, j)
    decreases j
  {
    if i < j {
      PosMonotone(rs, i, j - 1);
    }
  }

  /** The first `i` spans cover the first `Pos(rs, i)` addresses. */
  lemma {:induction false} PosPrefix(rs: seq<Span>, i: nat)
    requires i <= |rs|
    ensures |FlatReversed(rs[|rs| - i..])| == Pos(rs, i)
    ensures FlatReversed(rs) == FlatReversed(rs[|rs| - i..]) + FlatReversed(rs[..|rs| - i])
  {
    hide FlatReversed, Interval;
    assert rs == rs[..|rs| - i] + rs[|rs| - i..];
    FlatReversedAppend(rs[..|rs| - i], rs[|rs| - i..]);
    NothingIsFlat();
    if i > 0 {
      PosPrefix(rs, i - 1);
      var one := SpanAt(rs, i - 1);
      assert rs[|rs| - i..] == [one] + rs[|rs| - (i - 1)..];
      FlatReversedAppend([one], rs[|rs| - (i - 1)..]);
      FlatOfOne(one);
    }
  }

  lemma PosTotal(rs: seq<Span>)
    ensures Pos(rs, |rs|) == |FlatReversed(rs)|
  {
    PosPrefix(rs, |rs|);
    assert rs[0..] == rs;
  }

  /** The `i`th span covers exactly its slice of the whole. */
  lemma PosSlice(rs: seq<Span>, i: nat)
    requires i < |rs|
    ensures Pos(rs, i) + SpanAt(rs, i).len == Pos(rs, i + 1) <= |FlatReversed(rs)|
    ensures FlatReversed(rs)[Pos(rs, i)..Pos(rs, i + 1)] == SpanAt(rs, i).Addrs()
  {
    hide Interval;
    PosPrefix(rs, i);
    var front, rest := rs[|rs| - i..], rs[..|rs| - i];
    assert FlatReversed(rest) == SpanAt(rs, i).Addrs() + FlatReversed(Init(rest));
    SliceInside(FlatReversed(front), SpanAt(rs, i).Addrs(), FlatReversed(Init(rest)));
  }

  /** The part of the `i`th span that lies in `s..e`, or nothing. */
  function Piece(rs: seq<Span>, i: nat, s: nat, e: nat): (r: seq<Span>)
    requires i < |rs|
  {
    var lo := if s < Pos(rs, i) then Pos(rs, i) else s;
    var hi := Min(e, Pos(rs, i + 1));
    if lo < hi then [SpanAt(rs, i).Slice(lo - Pos(rs, i), hi - Pos(rs, i))] else []
  }

  /** The pieces of the spans from the `i`th on that lie in `s..e`, in reverse content order. */
  function Cut(rs: seq<Span>, i: nat, s: nat, e: nat): seq<Span>
    requires i <= |rs|
    decreases |rs| - i
  {
    if i == |rs| then [] else Cut(rs, i + 1, s, e) + Piece(rs, i, s, e)
  }

  /** Cutting the spans is slicing the sequence. */
  lemma {:induction false} CutIsSlice(rs: seq<Span>, i: nat, s: nat, e: nat)
    requires i <= |rs| && s <= e <= |FlatReversed(rs)|
    ensures var from := Min(if s < Pos(rs, i) then Pos(rs, i) else s, e);
            FlatReversed(Cut(rs, i, s, e)) == FlatReversed(rs)[from..e]
    decreases |rs| - i
  {
    hide FlatReversed, Interval, Span.Addrs, Piece;
    var whole := FlatReversed(rs);
    PosTotal(rs);
    if i == |rs| {
      NothingIsFlat();
    } else {
      var lo := Min(if s < Pos(rs, i) then Pos(rs, i) else s, e);
      var mid := Min(if s < Pos(rs, i + 1) then Pos(rs, i + 1) else s, e);
      CutIsSlice(rs, i + 1, s, e);
      PieceIsSlice(rs, i, s, e);
      FlatReversedAppend(Cut(rs, i + 1, s, e), Piece(rs, i, s, e));
      SliceJoin(whole, lo, mid, e);
    }
  }

  lemma NothingIsFlat()
    ensures FlatReversed([]) == [] && Flat([]) == []
  {
  }

  lemma FlatOfOne(span: Span)
    ensures FlatReversed([span]) == span.Addrs() == Flat([span])
  {
    hide Interval, Span.Addrs;
    assert FlatReversed([span]) == span.Addrs() + FlatReversed([]);
    assert Flat([span]) == span.Addrs() + Flat([]);
  }

  lemma PieceIsSlice(rs: seq<Span>, i: nat, s: nat, e: nat)
    requires i < |rs| && s <= e <= |FlatReversed(rs)|
    ensures var lo := Min(if s < Pos(rs, i) then Pos(rs, i) else s, e);
            var hi := Min(if s < Pos(rs, i + 1) then Pos(rs, i + 1) else s, e);
            lo <= hi && FlatReversed(Piece(rs, i, s, e)) == FlatReversed(rs)[lo..hi]
  {
    hide FlatReversed, Interval, Span.Addrs;
    PosSlice(rs, i);
    var p := Pos(rs, i);
    var lo, hi := if s < p then p else s, Min(e, Pos(rs, i + 1));
    NothingIsFlat();
    if lo < hi {
      FlatOfOne(SpanAt(rs, i).Slice(lo - p, hi - p));
      SliceSlice(FlatReversed(rs), p, Pos(rs, i + 1), lo - p, hi - p);
    }
  }

  lemma {:induction false} CutIsNonEmpty(rs: seq<Span>, i: nat, s: nat, e: nat)
    requires i <= |rs| && AllNonEmpty(rs)
    ensures AllNonEmpty(Cut(rs, i, s, e))
    decreases |rs| - i
  {
    if i < |rs| {
      CutIsNonEmpty(rs, i + 1, s, e);
    }
  }

  /** Spans past the end of the range, and spans before its start, contribute nothing. */
  lemma {:induction false} CutPastEnd(rs: seq<Span>, i: nat, s: nat, e: nat)
    requires i <= |rs| && e <= Pos(rs, i)
    ensures Cut(rs, i, s, e) == []
    decreases |rs| - i
  {
    if i < |rs| {
      CutPastEnd(rs, i + 1, s, e);
    }
  }

  lemma {:induction false} CutBeforeStart(rs: seq<Span>, i: nat, k: nat, s: nat, e: nat)
    requires i <= k <= |rs| && Pos(rs, k) <= s
    ensures Cut(rs, i, s, e) == Cut(rs, k, s, e)
    decreases k - i
  {
    if i < k {
      PosMonotone(rs, i + 1, k);
      CutBeforeStart(rs, i + 1, k, s, e);
    }
  }
}
