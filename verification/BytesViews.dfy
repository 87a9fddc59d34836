/** `BytesView`: a sequence of immutable bytes made of spans that are stored in reverse order. */
module BytesViews {
  import opened Base
  import opened Addresses
  import opened Spans
  import opened SpanPositions
  import opened Ranges

  /** What the first pass of `range_checked` learns about the range. */
  datatype Relevant = Relevant(until: nat, inside: nat, skip: nat, leave: nat)

  ghost predicate Locates(rs: seq<Span>, s: nat, e: nat, r: Relevant) {
    && 1 <= r.inside
    && r.until + r.inside <= |rs|
    && Pos(rs, r.until) <= s < Pos(rs, r.until + 1)
    && Pos(rs, r.until + r.inside - 1) < e <= Pos(rs, r.until + r.inside)
    && r.skip == s - Pos(rs, r.until)
    && r.leave == Pos(rs, r.until + r.inside) - e
  }

  /**
   The first pass of `range_checked`: finds the spans that overlap `s..e`, how much to skip in the
   first of them and how much to leave in the last. Every checked subtraction of the source is a
   subtraction of naturals here and every narrowing conversion is an assertion.
   */
  method LocateRange(rs: seq<Span>, s: nat, e: nat) returns (r: Relevant)
    requires AllNonEmpty(rs) && s < e <= Pos(rs, |rs|)
    ensures Locates(rs, s, e, r)
  {
    hide FlatReversed, Interval, Span.Addrs;
    var spansUntil, spansInside, skip, leave := 0, 0, 0, 0;
    var until, inside := s, e - s;
    var i := 0;
    while i < |rs|
      invariant i <= |rs| && i == spansUntil + spansInside
      invariant spansInside == 0 ==> until == s - Pos(rs, i) && inside == e - s && skip == leave == 0 && Pos(rs, i) <= s
      invariant spansInside > 0 ==>
        && Pos(rs, spansUntil) <= s < Pos(rs, spansUntil + 1) && skip == s - Pos(rs, spansUntil)
        && until == 0 && leave == 0 && Pos(rs, i) < e && inside == e - Pos(rs, i)
    {
      var bytesInSpan := SpanAt(rs, i).len;
      assert Pos(rs, i + 1) == Pos(rs, i) + bytesInSpan;
      if until > 0 && bytesInSpan <= until {
        spansUntil := spansUntil + 1;
        until := until - bytesInSpan;
        i := i + 1;
        continue;
      }
      leave := bytesInSpan;
      assert until <= BLOCK_MAX;
      if until != 0 {
        skip := until;
        leave := leave - skip;
      }
      var relevant := Min(bytesInSpan - until, inside);
      assert relevant <= BLOCK_MAX;
      leave := leave - relevant;
      spansInside := spansInside + 1;
      until := 0;
      inside := inside - relevant;
      i := i + 1;
      if inside == 0 {
        break;
      }
    }
    r := Relevant(spansUntil, spansInside, skip, leave);
  }

  /**
   One step of the second pass. The span can supply `span.len - leave` bytes; it is taken for the
   first relevant span when it can supply all the remaining ones.
   */
  method TakeFromSpan(span: Span, leave: nat, skip: nat, remaining: nat) returns (piece: Span, left: nat)
    requires leave < span.len <= BLOCK_MAX && remaining > 0
    requires remaining <= span.len - leave ==> skip + remaining == span.len - leave
    ensures remaining <= span.len - leave ==> piece == span.Slice(skip, skip + remaining) && left == 0
    ensures remaining > span.len - leave ==>
      piece == span.Slice(0, span.len - leave) && left == remaining - (span.len - leave)
  {
    var consider := span.len;
    if leave > 0 {
      consider := consider - leave;
    }
    var take := Min(consider, remaining);
    assert take <= BLOCK_MAX;
    var isFirst := remaining <= take;
    if isFirst && skip > 0 {
      take := Min(take, consider - skip);
      left := remaining - take;
      piece := span.Slice(skip, skip + take);
    } else {
      left := remaining - take;
      piece := span.Slice(0, take);
    }
  }

  /** Inside the located spans only the first can supply all that remains. */
  lemma FirstTestIsExact(rs: seq<Span>, s: nat, e: nat, found: Relevant, i: nat)
    requires AllNonEmpty(rs) && s < e <= Pos(rs, |rs|) && Locates(rs, s, e, found)
    requires found.until <= i < found.until + found.inside
    ensures Pos(rs, i) < e && s < Pos(rs, i + 1)
    ensures i == found.until <==> Min(e, Pos(rs, i + 1)) - s <= Min(e, Pos(rs, i + 1)) - Pos(rs, i)
    ensures i + 1 < found.until + found.inside ==> Pos(rs, i + 1) < e
  {
    PosMonotone(rs, i, found.until + found.inside - 1);
    PosMonotone(rs, found.until + 1, i + 1);
    if i > found.until {
      PosMonotone(rs, found.until + 1, i);
    }
    if i + 1 < found.until + found.inside {
      PosMonotone(rs, i + 1, found.until + found.inside - 1);
    }
  }

  /** The piece that the `i`th span contributes when it overlaps the range. */
  lemma CutStep(rs: seq<Span>, i: nat, s: nat, e: nat)
    requires i < |rs| && 0 < SpanAt(rs, i).len && Pos(rs, i) < e && s < Pos(rs, i + 1) && s < e
    ensures Pos(rs, i + 1) == Pos(rs, i) + SpanAt(rs, i).len
    ensures var lo := if s < Pos(rs, i) then 0 else s - Pos(rs, i);
      Cut(rs, i, s, e) == Cut(rs, i + 1, s, e) + [SpanAt(rs, i).Slice(lo, Min(e, Pos(rs, i + 1)) - Pos(rs, i))]
  {
    hide FlatReversed, Interval, Span.Addrs;
    var lo := if s < Pos(rs, i) then 0 else s - Pos(rs, i);
    assert Piece(rs, i, s, e) == [SpanAt(rs, i).Slice(lo, Min(e, Pos(rs, i + 1)) - Pos(rs, i))];
  }

  /**
   The second pass of `range_checked`: walks the relevant spans from the last to the first and
   collects exactly the pieces that lie in the range.
   */
  method TakeRange(rs: seq<Span>, s: nat, e: nat, found: Relevant) returns (taken: seq<Span>)
    requires AllNonEmpty(rs) && s < e <= Pos(rs, |rs|)
    requires Locates(rs, s, e, found)
    ensures taken == Cut(rs, 0, s, e)
  {
    hide FlatReversed, Interval, Span.Addrs, Cut, Piece, Pos;
    taken := [];
    var remaining, leave := e - s, found.leave;
    var j := found.until + found.inside;
    CutPastEnd(rs, j, s, e);
    while j > found.until
      invariant found.until <= j <= found.until + found.inside
      invariant taken == Cut(rs, j, s, e)
      invariant j > found.until ==> remaining == Min(e, Pos(rs, j)) - s
      invariant leave == if j == found.until + found.inside then found.leave else 0
    {
      FirstTestIsExact(rs, s, e, found, j - 1);
      var span := SpanAt(rs, j - 1);
      CutStep(rs, j - 1, s, e);
      var piece, left := TakeFromSpan(span, leave, found.skip, remaining);
      taken := taken + [piece];
      remaining := left;
      leave := 0;
      j := j - 1;
    }
    CutBeforeStart(rs, 0, found.until, s, e);
  }

  /** A non-empty range in bounds: the fast path and the two passes produce the same spans. */
  method CutSpans(rs: seq<Span>, s: nat, e: nat) returns (taken: seq<Span>)
    requires AllNonEmpty(rs) && s < e <= |FlatReversed(rs)|
    ensures taken == Cut(rs, 0, s, e)
  {
    PosTotal(rs);
    if rs != [] && e <= Last(rs).len {
      FastPathIsCut(rs, s, e);
      return [Last(rs).Slice(ToBlockSize(s), ToBlockSize(e))];
    }
    var found := LocateRange(rs, s, e);
    taken := TakeRange(rs, s, e, found);
  }

  /**
   `BytesView::range_checked` on the stored spans. The result is `None` exactly when the range is
   out of bounds. Otherwise it covers exactly the slice, in non-empty pieces.
   */
  method RangeSpans(rs: seq<Span>, len: nat, lower: Bound, upper: Bound) returns (r: Option<seq<Span>>)
    requires AllNonEmpty(rs) && len == |FlatReversed(rs)| <= USIZE_MAX
    requires Fits(lower, USIZE_MAX) && Fits(upper, USIZE_MAX)
    ensures r.Some? <==> StartOf(lower) <= EndOf(upper, len) <= len
    ensures r.Some? ==> FlatReversed(r.value) == FlatReversed(rs)[StartOf(lower)..EndOf(upper, len)]
    ensures r.Some? ==> AllNonEmpty(r.value)
  {
    hide FlatReversed, Cut, Interval;
    var range := Resolve(lower, upper, len, USIZE_MAX);
    if range.None? {
      return None;
    }
    var (until, inside) := range.value;
    if inside == 0 {
      NothingIsFlat();
      return Some([]);
    }
    var taken := CutSpans(rs, until, until + inside);
    CutIsSlice(rs, 0, until, until + inside);
    CutIsNonEmpty(rs, 0, until, until + inside);
    r := Some(taken);
  }

  /** A range inside the first span is cut from that span alone. */
  lemma FastPathIsCut(rs: seq<Span>, s: nat, e: nat)
    requires rs != [] && s < e <= Last(rs).len <= BLOCK_MAX
    ensures [Last(rs).Slice(ToBlockSize(s), ToBlockSize(e))] == Cut(rs, 0, s, e)
  {
    assert Pos(rs, 1) == Last(rs).len;
    CutPastEnd(rs, 1, s, e);
    assert Cut(rs, 0, s, e) == Cut(rs, 1, s, e) + Piece(rs, 0, s, e);
  }

  /** `PartialEq for BytesView`: two span cursors that move independently. */
  method EqualSpans(mem: Memory, a: seq<Span>, aLen: nat, b: seq<Span>, bLen: nat) returns (same: bool)
    requires AllNonEmpty(a) && aLen == |FlatReversed(a)|
    requires AllNonEmpty(b) && bLen == |FlatReversed(b)|
    ensures same <==> Read(mem, FlatReversed(a)) == Read(mem, FlatReversed(b))
  {
    if aLen != bLen {
      return false;
    }
    hide FlatReversed, Interval, Span.Addrs, Read, Pos, CursorAt;
    CursorStarts(a);
    CursorStarts(b);
    ghost var left, right := Read(mem, FlatReversed(a)), Read(mem, FlatReversed(b));
    var aIndex: nat, aOffset: nat, bIndex: nat, bOffset: nat := |a|, 0, |b|, 0;
    var remaining: nat := aLen;
    while remaining > 0
      invariant aIndex <= |a| && bIndex <= |b| && remaining <= aLen
      invariant CursorAt(a, aIndex, aOffset, aLen - remaining)
      invariant CursorAt(b, bIndex, bOffset, bLen - remaining)
      invariant left[..aLen - remaining] == right[..aLen - remaining]
    {
      ghost var at := aLen - remaining;
      CursorInside(a, aIndex, aOffset, at);
      CursorInside(b, bIndex, bOffset, at);
      var aSpan, bSpan := a[aIndex - 1], b[bIndex - 1];
      var step := Min(aSpan.len - aOffset, bSpan.len - bOffset);
      CursorReads(mem, a, aIndex, aOffset, at, step);
      CursorReads(mem, b, bIndex, bOffset, at, step);
      if Read(mem, aSpan.Addrs()[aOffset..aOffset + step]) != Read(mem, bSpan.Addrs()[bOffset..bOffset + step]) {
        assert left[at..at + step] != right[at..at + step];
        return false;
      }
      SliceJoin(left, 0, at, at + step);
      SliceJoin(right, 0, at, at + step);
      aOffset := aOffset + step;
      if aOffset == aSpan.len {
        aIndex, aOffset := aIndex - 1, 0;
      }
      bOffset := bOffset + step;
      if bOffset == bSpan.len {
        bIndex, bOffset := bIndex - 1, 0;
      }
      remaining := remaining - step;
    }
    assert left[..aLen] == left && right[..aLen] == right;
    same := true;
  }

  /** A cursor at storage index `index - 1`, `offset` bytes into that span, stands at byte `at`. */
  ghost predicate CursorAt(rs: seq<Span>, index: nat, offset: nat, at: nat)
    requires index <= |rs|
  {
    && at == Pos(rs, |rs| - index) + offset
    && (offset > 0 ==> index > 0 && offset < rs[index - 1].len)
  }

  lemma CursorStarts(rs: seq<Span>)
    ensures CursorAt(rs, |rs|, 0, 0)
  {
  }

  lemma CursorInside(rs: seq<Span>, index: nat, offset: nat, at: nat)
    requires AllNonEmpty(rs) && index <= |rs| && CursorAt(rs, index, offset, at)
    requires at < |FlatReversed(rs)|
    ensures index > 0 && offset < rs[index - 1].len
  {
    PosTotal(rs);
  }

  lemma CursorReads(mem: Memory, rs: seq<Span>, index: nat, offset: nat, at: nat, step: nat)
    requires 0 < index <= |rs| && CursorAt(rs, index, offset, at)
    requires offset + step <= rs[index - 1].len
    ensures at + step <= |FlatReversed(rs)|
    ensures Read(mem, rs[index - 1].Addrs()[offset..offset + step]) == Read(mem, FlatReversed(rs))[at..at + step]
    ensures offset + step < rs[index - 1].len ==> CursorAt(rs, index, offset + step, at + step)
    ensures offset + step == rs[index - 1].len ==> CursorAt(rs, index - 1, 0, at + step)
  {
    hide FlatReversed, Interval;
    var i := |rs| - index;
    PosSlice(rs, i);
    SliceSlice(FlatReversed(rs), Pos(rs, i), Pos(rs, i + 1), offset, offset + step);
  }

  const HASH_BLOCK_BYTES: nat := 64

  /** The calls a `Hasher` receives. */
  datatype HashCall = WriteLength(len: nat) | WriteBytes(bytes: seq<byte>)

  /** `count` full blocks from the front of the content. */
  function FullBlocks(content: seq<byte>, count: nat): (r: seq<HashCall>)
    requires HASH_BLOCK_BYTES * count <= |content|
    ensures |r| == count
  {
    seq(count, i requires 0 <= i < count =>
      WriteBytes(content[HASH_BLOCK_BYTES * i..HASH_BLOCK_BYTES * (i + 1)]))
  }

  /** The canonical calls: a length prefix, full blocks, then one partial block if bytes remain. */
  function HashCalls(content: seq<byte>): seq<HashCall> {
    var count := |content| / HASH_BLOCK_BYTES;
    [WriteLength(|content|)] + FullBlocks(content, count) +
    if |content| % HASH_BLOCK_BYTES == 0 then [] else [WriteBytes(content[HASH_BLOCK_BYTES * count..])]
  }

  /** The hasher receives the length, and then the content in blocks of 64 bytes, the last one maybe shorter. */
  lemma HashCallsAreBlocks(content: seq<byte>)
    ensures |HashCalls(content)| == 1 + (|content| + 63) / 64 && HashCalls(content)[0] == WriteLength(|content|)
    ensures forall i :: 0 <= i < (|content| + 63) / 64 ==>
      HashCalls(content)[i + 1] == WriteBytes(content[64 * i..Min(64 * (i + 1), |content|)])
  {
    var count := |content| / HASH_BLOCK_BYTES;
    if |content| % HASH_BLOCK_BYTES != 0 {
      assert HashCalls(content)[count + 1] == WriteBytes(content[HASH_BLOCK_BYTES * count..]);
    }
  }

  /** The canonical calls determine the content, so unequal contents are never hashed alike. */
  lemma HashCallsInjective(a: seq<byte>, b: seq<byte>)
    requires HashCalls(a) == HashCalls(b)
    ensures a == b
  {
    var count := |a| / HASH_BLOCK_BYTES;
    assert HashCalls(a)[0] == HashCalls(b)[0];
    forall i | 0 <= i < |a|
      ensures a[i] == b[i]
    {
      var q := i / HASH_BLOCK_BYTES;
      if q < count {
        assert HashCalls(a)[q + 1] == WriteBytes(a[HASH_BLOCK_BYTES * q..HASH_BLOCK_BYTES * (q + 1)]);
        assert HashCalls(b)[q + 1] == WriteBytes(b[HASH_BLOCK_BYTES * q..HASH_BLOCK_BYTES * (q + 1)]);
        assert a[HASH_BLOCK_BYTES * q..HASH_BLOCK_BYTES * (q + 1)][i - HASH_BLOCK_BYTES * q] == a[i];
      } else {
        assert Last(HashCalls(a)) == WriteBytes(a[HASH_BLOCK_BYTES * count..]);
        assert Last(HashCalls(b)) == WriteBytes(b[HASH_BLOCK_BYTES * count..]);
        assert a[HASH_BLOCK_BYTES * count..][i - HASH_BLOCK_BYTES * count] == a[i];
      }
    }
  }

  /** After `at` bytes, `count` blocks were written and the buffer holds the bytes after them. */
  ghost predicate Chunked(content: seq<byte>, calls: seq<HashCall>, block: seq<byte>, count: nat, at: nat) {
    && |block| < HASH_BLOCK_BYTES
    && HASH_BLOCK_BYTES * count + |block| == at <= |content|
    && block == content[HASH_BLOCK_BYTES * count..at]
    && calls == [WriteLength(|content|)] + FullBlocks(content, count)
  }

  /** Writing the next full block, from the buffer or straight from a span. */
  lemma NextBlock(content: seq<byte>, calls: seq<HashCall>, block: seq<byte>, count: nat)
    requires HASH_BLOCK_BYTES * (count + 1) <= |content|
    requires block == content[HASH_BLOCK_BYTES * count..HASH_BLOCK_BYTES * (count + 1)]
    requires calls == [WriteLength(|content|)] + FullBlocks(content, count)
    ensures Chunked(content, calls + [WriteBytes(block)], [], count + 1, HASH_BLOCK_BYTES * (count + 1))
  {
    assert FullBlocks(content, count + 1) == FullBlocks(content, count) + [WriteBytes(block)];
  }

  /** The inner loop of `hash`: feeds the bytes of one span, which begin at byte `at`. */
  method HashSpan(ghost content: seq<byte>, ghost at: nat, bytes: seq<byte>,
                  calls0: seq<HashCall>, block0: seq<byte>, ghost count0: nat)
    returns (calls: seq<HashCall>, block: seq<byte>, ghost count: nat)
    requires Chunked(content, calls0, block0, count0, at)
    requires at + |bytes| <= |content| && bytes == content[at..at + |bytes|]
    ensures Chunked(content, calls, block, count, at + |bytes|)
  {
    hide FullBlocks, Chunked;
    calls, block, count := calls0, block0, count0;
    var remaining := bytes;
    while remaining != []
      invariant |remaining| <= |bytes|
      invariant remaining == content[at + |bytes| - |remaining|..at + |bytes|]
      invariant Chunked(content, calls, block, count, at + |bytes| - |remaining|)
      decreases |remaining|
    {
      ghost var here := at + |bytes| - |remaining|;
      ChunkedBound(content, calls, block, count, here);
      var take := if |block| == 0 && |remaining| >= HASH_BLOCK_BYTES then HASH_BLOCK_BYTES
                  else Min(HASH_BLOCK_BYTES - |block|, |remaining|);
      SliceSlice(content, here, at + |bytes|, 0, take);
      SliceSlice(content, here, at + |bytes|, take, |remaining|);
      BlockGrows(content, calls, block, count, here, take);
      assert remaining[take..] == content[here + take..at + |bytes|];
      if |block| == 0 && |remaining| >= HASH_BLOCK_BYTES {
        assert block + remaining[..HASH_BLOCK_BYTES] == remaining[..HASH_BLOCK_BYTES] && block == [];
        calls := calls + [WriteBytes(remaining[..HASH_BLOCK_BYTES])];
        count := count + 1;
      } else {
        block := block + remaining[..take];
        if |block| == HASH_BLOCK_BYTES {
          calls := calls + [WriteBytes(block)];
          block := [];
          count := count + 1;
        }
      }
      remaining := remaining[take..];
    }
  }

  lemma ChunkedBound(content: seq<byte>, calls: seq<HashCall>, block: seq<byte>, count: nat, at: nat)
    requires Chunked(content, calls, block, count, at)
    ensures |block| < HASH_BLOCK_BYTES && at <= |content|
  {
  }

  /** The next `take` bytes either stay in the buffer or complete a block. */
  lemma BlockGrows(content: seq<byte>, calls: seq<HashCall>, block: seq<byte>, count: nat, at: nat, take: nat)
    requires Chunked(content, calls, block, count, at)
    requires at + take <= |content| && |block| + take <= HASH_BLOCK_BYTES
    ensures var grown := block + content[at..at + take];
      if |grown| == HASH_BLOCK_BYTES
      then Chunked(content, calls + [WriteBytes(grown)], [], count + 1, at + take)
      else Chunked(content, calls, grown, count, at + take)
  {
    hide FullBlocks;
    SliceJoin(content, HASH_BLOCK_BYTES * count, at, at + take);
    var grown := block + content[at..at + take];
    if |grown| == HASH_BLOCK_BYTES {
      NextBlock(content, calls, grown, count);
    }
  }

  /**
   `Hash for BytesView`: re-chunks the spans through a block buffer, with a fast path that hashes
   a full block straight from a span. For every segmentation the calls are the canonical ones.
   */
  method HashSpans(mem: Memory, rs: seq<Span>, len: nat) returns (calls: seq<HashCall>)
    requires len == |FlatReversed(rs)|
    ensures calls == HashCalls(Read(mem, FlatReversed(rs)))
  {
    hide FlatReversed, Interval, Span.Addrs, Pos, Read, FullBlocks, Chunked;
    ghost var content := Read(mem, FlatReversed(rs));
    ghost var count: nat := 0;
    calls := [WriteLength(len)];
    var block: seq<byte> := [];
    var i := 0;
    ChunkedStarts(content, rs);
    while i < |rs|
      invariant i <= |rs|
      invariant Chunked(content, calls, block, count, Pos(rs, i))
    {
      SpanReads(mem, rs, i);
      calls, block, count := HashSpan(content, Pos(rs, i), Read(mem, SpanAt(rs, i).Addrs()), calls, block, count);
      i := i + 1;
    }
    PosTotal(rs);
    ChunkedEnds(content, calls, block, count);
    if |block| > 0 {
      calls := calls + [WriteBytes(block)];
    }
  }

  lemma ChunkedStarts(content: seq<byte>, rs: seq<Span>)
    ensures Chunked(content, [WriteLength(|content|)], [], 0, Pos(rs, 0))
  {
    assert FullBlocks(content, 0) == [];
  }

  lemma ChunkedEnds(content: seq<byte>, calls: seq<HashCall>, block: seq<byte>, count: nat)
    requires Chunked(content, calls, block, count, |content|)
    ensures HashCalls(content) == if |block| > 0 then calls + [WriteBytes(block)] else calls
  {
    hide FullBlocks;
    assert count == |content| / HASH_BLOCK_BYTES && block == content[HASH_BLOCK_BYTES * count..];
  }

  lemma SpanReads(mem: Memory, rs: seq<Span>, i: nat)
    requires i < |rs|
    ensures Pos(rs, i) + SpanAt(rs, i).len == Pos(rs, i + 1) <= |FlatReversed(rs)|
    ensures |SpanAt(rs, i).Addrs()| == SpanAt(rs, i).len
    ensures Read(mem, SpanAt(rs, i).Addrs()) == Read(mem, FlatReversed(rs))[Pos(rs, i)..Pos(rs, i + 1)]
  {
    hide FlatReversed, Interval;
    PosSlice(rs, i);
  }

  class BytesView {
    var spansReversed: seq<Span>
    var len: nat

    ghost predicate Valid()
      reads this
    {
      && AllNonEmpty(spansReversed)
      && len == |FlatReversed(spansReversed)| <= USIZE_MAX
    }

    ghost function Addrs(): seq<Addr>
      reads this
    {
      FlatReversed(spansReversed)
    }

    constructor (spans: seq<Span>, total: nat)
      ensures spansReversed == spans && len == total
    {
      spansReversed, len := spans, total;
    }

    /** `BytesView::range_checked`. */
    method RangeChecked(lower: Bound, upper: Bound) returns (r: Option<BytesView>)
      requires Valid() && Fits(lower, USIZE_MAX) && Fits(upper, USIZE_MAX)
      ensures r.Some? <==> StartOf(lower) <= EndOf(upper, len) <= len
      ensures r.Some? ==> fresh(r.value) && r.value.Valid()
      ensures r.Some? ==> r.value.Addrs() == Addrs()[StartOf(lower)..EndOf(upper, len)]
    {
      var spans := RangeSpans(spansReversed, len, lower, upper);
      if spans.None? {
        return None;
      }
      var view := new BytesView(spans.value, EndOf(upper, len) - StartOf(lower));
      r := Some(view);
    }

    /** `BytesView::advance`; `ok` is false where the source panics, before changing anything. */
    method Advance(count: nat) returns (ok: bool)
      requires Valid()
      modifies this
      ensures Valid() && (ok <==> count <= old(len))
      ensures Addrs() == if ok then old(Addrs())[count..] else old(Addrs())
    {
      if count > len {
        return false;
      }
      len := len - count;
      var left: nat := count;
      ghost var total := FlatReversed(spansReversed);
      while left > 0
        invariant AllNonEmpty(spansReversed) && left <= count && left <= |FlatReversed(spansReversed)|
        invariant FlatReversed(spansReversed)[left..] == total[count..]
        invariant len == old(len) - count
        decreases |spansReversed|
      {
        var front := Last(spansReversed);
        AdvanceFront(spansReversed, left);
        if left < front.len {
          spansReversed := Init(spansReversed) + [front.Advance(left)];
          left := 0;
          break;
        }
        spansReversed := Init(spansReversed);
        left := WrappingSub(left, front.len, USIZE_MAX);
      }
      assert FlatReversed(spansReversed)[0..] == FlatReversed(spansReversed);
      ok := true;
    }

    /** `BytesView::append`; `ok` is false where the source panics, before changing anything. */
    method Append(other: BytesView) returns (ok: bool)
      requires Valid() && other.Valid() && other != this
      modifies this
      ensures Valid() && (ok <==> old(len) + other.len <= USIZE_MAX)
      ensures Addrs() == if ok then old(Addrs()) + other.Addrs() else old(Addrs())
    {
      var total := CheckedAdd(len, other.len, USIZE_MAX);
      if total.None? {
        return false;
      }
      ok := true;
      if other.len == 0 {
        assert other.Addrs() == [];
        return;
      }
      len := total.value;
      FlatReversedAppend(other.spansReversed, spansReversed);
      spansReversed := other.spansReversed + spansReversed;
    }

    method Equals(mem: Memory, other: BytesView) returns (same: bool)
      requires Valid() && other.Valid()
      ensures same <==> Read(mem, Addrs()) == Read(mem, other.Addrs())
    {
      same := EqualSpans(mem, spansReversed, len, other.spansReversed, other.len);
    }
  }

  /** Advancing inside the first span, or past it, drops bytes from the front of the whole. */
  lemma AdvanceFront(rs: seq<Span>, count: nat)
    requires AllNonEmpty(rs) && 0 < count <= |FlatReversed(rs)|
    ensures rs != []
    ensures count < Last(rs).len ==>
      FlatReversed(Init(rs) + [Last(rs).Advance(count)]) == FlatReversed(rs)[count..]
    ensures count >= Last(rs).len ==>
      && count - Last(rs).len <= |FlatReversed(Init(rs))|
      && FlatReversed(Init(rs))[count - Last(rs).len..] == FlatReversed(rs)[count..]
  {
    var front, rest := Last(rs), FlatReversed(Init(rs));
    assert FlatReversed(rs) == front.Addrs() + rest;
    if count < front.len {
      var shorter := Init(rs) + [front.Advance(count)];
      assert Init(shorter) == Init(rs);
      assert (front.Addrs() + rest)[count..] == front.Addrs()[count..] + rest;
    }
  }

  /** The stored spans of concatenated views: the views are reversed, each keeps its own order. */
  function ConcatReversed(views: seq<seq<Span>>): seq<Span> {
    if views == [] then [] else ConcatReversed(views[1..]) + views[0]
  }

  function ConcatAddrs(views: seq<seq<Span>>): seq<Addr> {
    if views == [] then [] else FlatReversed(views[0]) + ConcatAddrs(views[1..])
  }

  lemma {:induction false} ConcatIsInOrder(views: seq<seq<Span>>)
    ensures FlatReversed(ConcatReversed(views)) == ConcatAddrs(views)
  {
    if views != [] {
      ConcatIsInOrder(views[1..]);
      FlatReversedAppend(ConcatReversed(views[1..]), views[0]);
    }
  }

  /**
   `BytesView::from_views`: `None` where the length fold overflows, which is exactly when the
   concatenation is longer than `usize::MAX`.
   */
  method FromViews(views: seq<seq<Span>>) returns (r: Option<(seq<Span>, nat)>)
    requires forall i :: 0 <= i < |views| ==> AllNonEmpty(views[i])
    ensures r.None? <==> |ConcatAddrs(views)| > USIZE_MAX
    ensures r.Some? ==> FlatReversed(r.value.0) == ConcatAddrs(views) && r.value.1 == |ConcatAddrs(views)|
  {
    var spans: seq<Span> := [];
    var i: nat := |views|;
    assert views[|views|..] == [];
    while i > 0
      invariant i <= |views| && spans == ConcatReversed(views[i..])
    {
      i := i - 1;
      assert views[i..][1..] == views[i + 1..];
      spans := spans + views[i];
    }
    assert views[0..] == views;
    ConcatIsInOrder(views);
    r := FromSpansReversed(spans);
  }

  /** `BytesView::from_spans_reversed`: the checked fold over span lengths. */
  method FromSpansReversed(spans: seq<Span>) returns (r: Option<(seq<Span>, nat)>)
    ensures r.None? <==> |FlatReversed(spans)| > USIZE_MAX
    ensures r.Some? ==> r.value == (spans, |FlatReversed(spans)|)
  {
    var total, i := 0, 0;
    while i < |spans|
      invariant i <= |spans| && total == |FlatReversed(spans[..i])| <= USIZE_MAX
    {
      assert Init(spans[..i + 1]) == spans[..i];
      FlatPrefix(spans, i + 1);
      var next := CheckedAdd(total, spans[i].len, USIZE_MAX);
      if next.None? {
        return None;
      }
      total := next.value;
      i := i + 1;
    }
    assert spans[..|spans|] == spans;
    r := Some((spans, total));
  }

  lemma FlatPrefix(spans: seq<Span>, i: nat)
    requires i <= |spans|
    ensures |FlatReversed(spans[..i])| <= |FlatReversed(spans)|
  {
    assert spans == spans[..i] + spans[i..];
    FlatReversedAppend(spans[..i], spans[i..]);
  }
}
