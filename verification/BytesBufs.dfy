/**
 `BytesBuf`: frozen spans in content order, span builders in reverse order, and three cached
 counters. Each method is proved to be one step of the abstract `Queue`.
 */
module BytesBufs {
  import opened Base
  import opened Addresses
  import opened Spans
  import opened SpanPositions
  import opened Queues
  import opened Layouts
  import opened LayoutSteps
  import opened BytesViews

  /** The memory that builders write to and spans read from. */
  class MemorySpace {
    var cells: Memory

    constructor (m: Memory)
      ensures cells == m
    {
      cells := m;
    }

    /** `ptr::copy_nonoverlapping` into `addrs`. */
    method Copy(addrs: seq<Addr>, src: seq<byte>)
      requires |addrs| == |src|
      modifies this
      ensures cells == Write(old(cells), addrs, src)
    {
      cells := Write(cells, addrs, src);
    }
  }

  class BytesBuf {
    var frozenSpans: seq<Span>
    var buildersReversed: seq<SpanBuilder>
    var len: nat
    var frozen: nat
    var available: nat

    ghost function Shape(): Layout
      reads this
    {
      Layout(frozenSpans, buildersReversed)
    }

    ghost function AsQueue(): Queue
      reads this
    {
      Shape().AsQueue()
    }

    /** The counters are exact and the total capacity fits in `usize`. */
    ghost predicate Counted()
      reads this
    {
      && frozen == |Flat(frozenSpans)|
      && len == |AsQueue().data|
      && available == |AsQueue().free|
      && len + available <= USIZE_MAX
    }

    /** Holds after every operation, except a consume that loses bytes. */
    ghost predicate Sound()
      reads this
    {
      Shape().Sound() && Counted()
    }

    /** The intended invariant. */
    ghost predicate Valid()
      reads this
    {
      Shape().Ready() && Counted()
    }

    /** What the full invariant says about the counters. */
    lemma Counts()
      requires Valid()
      ensures available == |AsQueue().free| && AsQueue() == Queue(Shape().Data(), Shape().Free())
      ensures Shape().Ready() && Shape().Sound()
    {
    }

    /** `from_span_builders`; the builders own distinct memory, so their total fits in `usize`. */
    constructor FromSpanBuilders(builders: seq<SpanBuilder>)
      requires Fresh(builders) && |FreeReversed(builders)| <= USIZE_MAX
      ensures Valid() && frozenSpans == [] && buildersReversed == builders
      ensures AsQueue() == Queue([], FreeReversed(builders))
    {
      frozenSpans, buildersReversed, len, frozen := [], builders, 0, 0;
      available := |FreeReversed(builders)|;
      new;
      FreshShape(builders);
    }

    /**
     `reserve` and `extend_capacity_by_at_least`. `provided` is what the memory provider returns
     when asked for the missing bytes. `ok` is false where the source panics; then nothing changed.
     */
    method Reserve(additional: nat, provided: seq<SpanBuilder>) returns (ok: bool)
      requires Sound() && additional <= USIZE_MAX
      requires Fresh(provided) && |FreeReversed(provided)| >= additional - available
      modifies this
      ensures Sound() && (old(Valid()) ==> Valid())
      ensures ok <==> old(available) >= additional || old(len) + old(available) + |FreeReversed(provided)| <= USIZE_MAX
      ensures !ok || old(available) >= additional ==> Shape() == old(Shape()) && AsQueue() == old(AsQueue())
      ensures ok && old(available) < additional ==> AsQueue() == old(AsQueue()).Reserved(FreeReversed(provided))
      ensures ok ==> available >= additional
    {
      hide Flat, FreeReversed, Interval, Fresh, Layout.Sound, Layout.Ready, Layout.AsQueue;
      var needed := SaturatingSub(additional, available);
      if needed == 0 {
        return true;
      }
      var total := CheckedAdd(available, |FreeReversed(provided)|, USIZE_MAX);
      if total.None? || CheckedAdd(len, total.value, USIZE_MAX).None? {
        return false;
      }
      ReserveShape(Shape(), provided);
      available := total.value;
      buildersReversed := provided + buildersReversed;
      ok := true;
    }

    /** `freeze_from_first`. */
    method FreezeFromFirst(count: nat)
      requires Shape().Sound() && 0 < count <= Shape().FirstLen()
      requires frozen + count <= USIZE_MAX
      modifies this`frozenSpans, this`buildersReversed, this`frozen
      ensures Shape() == old(Shape()).Freeze(count)
      ensures frozen == old(frozen) + count
    {
      hide Flat, FreeReversed, Interval;
      var (span, rest) := Last(buildersReversed).Consume(count);
      frozenSpans := frozenSpans + [span];
      if rest.available == 0 {
        buildersReversed := Init(buildersReversed);
      } else {
        buildersReversed := Init(buildersReversed) + [rest];
      }
      frozen := frozen + count;
    }

    /** Freezes all unfrozen data, as `append` does first. */
    method FreezeAll()
      requires Sound()
      modifies this`frozenSpans, this`buildersReversed, this`frozen
      ensures Shape() == AllFrozen(old(Shape())) && frozen == len
    {
      hide Flat, FreeReversed, Interval, Layout.Freeze;
      AllFrozenShape(Shape());
      AllFrozenLength(Shape());
      var unfrozen := if buildersReversed == [] then 0 else Last(buildersReversed).filled;
      if unfrozen > 0 {
        FreezeFromFirst(unfrozen);
      }
    }

    /**
     `append`. `ok` is false where the source panics: nothing changed, not even the layout. Since
     unfrozen data is frozen first, appending a non-empty view always restores the full invariant.
     */
    method Append(view: BytesView) returns (ok: bool)
      requires Sound() && view.Valid()
      modifies this
      ensures Sound()
      ensures ok <==> view.len == 0 || old(len) + view.len + old(available) <= USIZE_MAX
      ensures ok ==> AsQueue() == old(AsQueue()).Appended(view.Addrs())
      ensures ok && view.len > 0 ==> Valid()
      ensures !ok || view.len == 0 ==> Shape() == old(Shape())
    {
      hide Flat, FlatReversed, FreeReversed, Reverse, Interval, AllFrozen, Layout.Sound;
      if view.len == 0 {
        assert AsQueue().data + view.Addrs() == AsQueue().data;
        return true;
      }
      var newLen := CheckedAdd(len, view.len, USIZE_MAX);
      if newLen.None? || CheckedAdd(newLen.value, available, USIZE_MAX).None? {
        return false;
      }
      AppendShape(Shape(), view.spansReversed);
      FreezeAll();
      len := newLen.value;
      frozen := WrappingAdd(frozen, view.len, USIZE_MAX);
      frozenSpans := frozenSpans + Reverse(view.spansReversed);
      ok := true;
    }

    /** `peek`: a view of all the data, without freezing any of it. */
    method Peek() returns (view: BytesView)
      requires Sound()
      ensures fresh(view) && view.Valid() && view.Addrs() == AsQueue().data
    {
      var spans := PeekSpans();
      var made := FromSpansReversed(spans);
      view := new BytesView(spans, made.value.1);
    }

    method PeekSpans() returns (spans: seq<Span>)
      requires Sound()
      ensures AllNonEmpty(spans) && FlatReversed(spans) == AsQueue().data
    {
      hide Flat, FlatReversed, FreeReversed, Reverse, Interval;
      spans := [];
      NothingIsFlat();
      if buildersReversed != [] && Last(buildersReversed).Peek().len > 0 {
        spans := [Last(buildersReversed).Peek()];
        FlatOfOne(spans[0]);
      }
      NoAddrs(SpanBuilder(0, 0, 0, 0), Shape());
      FlatReversedAppend(spans, Reverse(frozenSpans));
      FlatReverse(frozenSpans);
      ReverseKeepsNonEmpty(frozenSpans);
      spans := spans + Reverse(frozenSpans);
    }

    /** `ensure_frozen`. */
    method EnsureFrozen(count: nat)
      requires Sound() && count <= len
      modifies this`frozenSpans, this`buildersReversed, this`frozen
      ensures Shape() == FrozenUpTo(old(Shape()), count)
      ensures frozen == |Flat(frozenSpans)|
    {
      hide Flat, FreeReversed, Interval, Layout.Freeze;
      FrozenUpToShape(Shape(), count);
      var mustFreeze := SaturatingSub(count, frozen);
      assert mustFreeze <= BLOCK_MAX;
      if mustFreeze > 0 {
        FreezeFromFirst(mustFreeze);
      }
    }

    /** The mutating part of `consume_checked`: detaches the first `count` bytes as spans. */
    method TakeSpans(count: nat) returns (spans: seq<Span>)
      requires Sound() && count <= len
      modifies this
      ensures AllNonEmpty(spans) && FlatReversed(spans) == old(AsQueue()).data[..count]
      ensures !LosesBytes(old(Shape()), count) ==>
        Sound() && AsQueue() == old(AsQueue()).Consumed(count) && (old(Valid()) ==> Valid())
      ensures LosesBytes(old(Shape()), count) ==>
        AsQueue() == Queue([], old(AsQueue()).free) && len == old(len) - count > 0
    {
      hide Flat, FlatReversed, FreeReversed, Reverse, Interval, FrozenUpTo, Layout.Data, Layout.Free;
      ghost var l := Shape();
      FrozenUpToShape(l, count);
      AllFrozenLength(l);
      EnsureFrozen(count);
      var rest;
      spans, rest := DetachFront(frozenSpans, count);
      ConsumeShape(l, rest, count);
      frozenSpans := rest;
      len := WrappingSub(len, count, USIZE_MAX);
      frozen := WrappingSub(frozen, count, USIZE_MAX);
    }

    /**
     `consume_checked`. The view always covers the first `count` bytes. The rest stays, with the
     capacity unchanged, unless the first builder is full and only part of its data is asked for:
     then the builder is dropped with the data it still holds.
     */
    method ConsumeChecked(count: nat) returns (r: Option<BytesView>)
      requires Sound()
      modifies this
      ensures r.Some? <==> count <= old(len)
      ensures r.None? ==> Shape() == old(Shape()) && Sound()
      ensures r.Some? ==> fresh(r.value) && r.value.Valid() && r.value.Addrs() == old(AsQueue()).data[..count]
      ensures r.Some? && !LosesBytes(old(Shape()), count) ==>
        Sound() && AsQueue() == old(AsQueue()).Consumed(count) && (old(Valid()) ==> Valid())
      ensures r.Some? && LosesBytes(old(Shape()), count) ==>
        AsQueue() == Queue([], old(AsQueue()).free) && len == old(len) - count > 0
    {
      hide Flat, FlatReversed, FreeReversed, Interval, LosesBytes;
      if count > len {
        return None;
      }
      var spans := TakeSpans(count);
      var view := new BytesView(spans, count);
      r := Some(view);
    }

    /**
     `split_off_remaining_checked`: data and total capacity are conserved, and the new buffer is
     empty with exactly `count` bytes of capacity. A valid buffer stays valid unless `count` is all
     of its remaining capacity while its first builder holds data.
     */
    method SplitOffRemainingChecked(count: nat) returns (r: Option<BytesBuf>)
      requires Sound()
      modifies this
      ensures r.Some? <==> count <= old(available)
      ensures r.None? ==> Shape() == old(Shape())
      ensures Sound()
      ensures r.Some? ==> fresh(r.value) && r.value.Valid() && r.value.AsQueue() == old(AsQueue()).SplitOff(count)
      ensures r.Some? ==> AsQueue() == old(AsQueue()).Kept(count)
      ensures old(Valid()) ==> (Valid() <==> !(0 < count == old(available) && old(Shape()).FirstLen() > 0))
    {
      hide Flat, FreeReversed, Interval, Fresh, Layout.Sound, Layout.Data;
      if count > available {
        return None;
      }
      if count == 0 {
        NoFree();
        NothingIsFresh();
        var empty := new BytesBuf.FromSpanBuilders([]);
        return Some(empty);
      }
      var kept, split := SplitBuilders(Shape(), buildersReversed, count);
      buildersReversed := kept;
      available := available - count;
      var result := new BytesBuf.FromSpanBuilders(split);
      r := Some(result);
    }

    /** `BytesBuf::advance`: `count` bytes were written to the first unfilled slice. */
    method Advance(count: nat)
      requires Sound() && count <= Shape().FirstAvailable()
      modifies this
      ensures Sound() && (old(Valid()) ==> Valid())
      ensures Shape() == old(Shape()).Advance(count)
      ensures AsQueue() == old(AsQueue()).Written(count)
    {
      hide Flat, FreeReversed, Interval, Layout.Freeze, Layout.Data, Layout.Free;
      AdvanceCounts(Shape(), count);
      AllFrozenLength(Shape());
      if count == 0 {
        return;
      }
      var b := Last(buildersReversed).Advance(count);
      buildersReversed := Init(buildersReversed) + [b];
      if b.available == 0 {
        assert b.filled != 0;
        FreezeFromFirst(b.filled);
      }
      len := len + count;
      available := available - count;
    }

    /**
     `put_small`: `None` where the source panics for lack of capacity, `Some(false)` where it
     declines without touching anything. When it handles the write it leaves exactly the layout
     that the general loop leaves.
     */
    method PutSmall(mem: MemorySpace, src: seq<byte>) returns (r: Option<bool>)
      requires Sound()
      modifies this, mem
      ensures r.None? <==> |src| > old(available)
      ensures r.Some? ==> (r.value <==> old(buildersReversed) != [] && |src| <= old(Shape()).FirstAvailable())
      ensures r != Some(true) ==> Shape() == old(Shape()) && Sound() && mem.cells == old(mem.cells)
      ensures r == Some(true) ==>
        && Valid() && AsQueue() == old(AsQueue()).Written(|src|)
        && mem.cells == Write(old(mem.cells), old(AsQueue()).free[..|src|], src)
      ensures r == Some(true) && old(Valid()) ==> Shape() == old(Shape()).Fill(|src|)
    {
      hide Flat, FreeReversed, Interval, Write, Layout.Fill, Layout.Data;
      if available < |src| {
        return None;
      }
      if buildersReversed == [] || Last(buildersReversed).available < |src| {
        return Some(false);
      }
      FirstFree(Shape());
      SliceSlice(AsQueue().free, 0, Shape().FirstAvailable(), 0, |src|);
      mem.Copy(Last(buildersReversed).Free()[..|src|], src);
      FillFirst(|src|);
      r := Some(true);
    }

    /** The bookkeeping of `put_small` once the bytes are copied. */
    method FillFirst(count: nat)
      requires Sound() && buildersReversed != [] && count <= Shape().FirstAvailable()
      modifies this
      ensures Valid() && AsQueue() == old(AsQueue()).Written(count)
      ensures old(Valid()) ==> Shape() == old(Shape()).Fill(count)
    {
      hide Flat, FreeReversed, Interval, Layout.Fill, Layout.Freeze, Layout.Data, Layout.Free;
      PutSmallShape(Shape(), count);
      AllFrozenLength(Shape());
      if Shape().Ready() {
        PutSmallIsFill(Shape(), count);
      }
      var b := Last(buildersReversed).Advance(count);
      buildersReversed := Init(buildersReversed) + [b];
      len := len + count;
      available := available - count;
      if b.available == 0 {
        assert b.filled != 0;
        FreezeFromFirst(b.filled);
      }
    }

    /** One iteration of `put_slice_looped`: copies what fits into the first unfilled slice. */
    method PutChunk(mem: MemorySpace, src: seq<byte>) returns (count: nat)
      requires Valid() && 0 < |src| <= available
      modifies this, mem
      ensures Valid() && 0 < count == Min(old(Shape()).FirstAvailable(), |src|)
      ensures Shape() == old(Shape()).Advance(count) && AsQueue() == old(AsQueue()).Written(count)
      ensures mem.cells == Write(old(mem.cells), old(AsQueue()).free[..count], src[..count])
    {
      hide Flat, FreeReversed, Interval, Write, Layout.Advance, Layout.Data;
      FirstFree(Shape());
      var slice := Last(buildersReversed).Free();
      count := Min(|slice|, |src|);
      SliceSlice(AsQueue().free, 0, Shape().FirstAvailable(), 0, count);
      mem.Copy(slice[..count], src[..count]);
      Advance(count);
    }

    /** What a write loop has done: the first `done` bytes of `src` went to the first free addresses of `l`. */
    ghost predicate Filling(mem: MemorySpace, l: Layout, cells: Memory, src: seq<byte>, done: nat)
      reads this, mem
    {
      && Valid() && l.Ready() && done <= |src| <= |l.Free()|
      && Shape().Fill(|src| - done) == l.Fill(|src|)
      && AsQueue().free == l.Free()[done..]
      && mem.cells == Write(cells, l.Free()[..done], src[..done])
    }

    lemma FillingStarts(mem: MemorySpace, src: seq<byte>)
      requires Valid() && |src| <= available
      ensures Filling(mem, Shape(), mem.cells, src, 0)
    {
      hide Flat, FreeReversed, Interval, Write, Layout.Fill, Layout.Ready;
      Counts();
      WriteNothing(mem.cells);
      assert src[..0] == [] && Shape().Free()[..0] == [] && Shape().Free()[0..] == Shape().Free();
    }

    lemma FillingEnds(mem: MemorySpace, l: Layout, cells: Memory, src: seq<byte>)
      requires Filling(mem, l, cells, src, |src|)
      ensures Shape() == l.Fill(|src|) && AsQueue() == l.AsQueue().Written(|src|)
      ensures mem.cells == Write(cells, l.Free()[..|src|], src)
    {
      hide Flat, FreeReversed, Interval, Write, Queue.Written, BytesBuf.Valid, Layout.Data;
      Counts();
      FillWrites(l, |src|);
      FillNothing();
      assert src[..|src|] == src;
    }

    /** One iteration of a write loop. */
    method PutNext(mem: MemorySpace, rest: seq<byte>,
                   ghost l: Layout, ghost cells: Memory, ghost src: seq<byte>, ghost done: nat)
      returns (count: nat)
      requires Filling(mem, l, cells, src, done) && rest == src[done..] && rest != []
      modifies this, mem
      ensures 0 < count <= |rest| && Filling(mem, l, cells, src, done + count)
    {
      hide Flat, FreeReversed, Interval, Write, Layout.Fill, Layout.Advance, Layout.AsQueue, Layout.Ready, Layout.Sound;
      hide BytesBuf.Valid, BytesBuf.Counted, Queue.Written;
      Counts();
      FillStep(Shape(), |rest|);
      count := PutChunk(mem, rest);
      Counts();
      WrittenFree(l.Free()[done..], count);
      WriteMore(cells, l.Free(), src, done, count);
    }

    /**
     `put_slice_looped`: `ok` is false where the source panics for lack of capacity. The loop needs
     the full invariant; without it, it would not end (see `WriteLoopTerminates`).
     */
    method PutSliceLooped(mem: MemorySpace, src: seq<byte>) returns (ok: bool)
      requires Valid()
      modifies this, mem
      ensures Valid() && (ok <==> |src| <= old(available))
      ensures !ok ==> Shape() == old(Shape()) && mem.cells == old(mem.cells)
      ensures ok ==>
        && Shape() == old(Shape()).Fill(|src|) && AsQueue() == old(AsQueue()).Written(|src|)
        && mem.cells == Write(old(mem.cells), old(AsQueue()).free[..|src|], src)
    {
      hide Flat, FreeReversed, Interval, Write, Layout.Fill, Layout.Ready, Layout.Sound, Layout.Data;
      hide BytesBuf.Filling, BytesBuf.Counted, BytesBuf.Valid, BytesBuf.Sound, Queue.Written;
      if available < |src| {
        return false;
      }
      ghost var l, cells, done: nat := Shape(), mem.cells, 0;
      FillingStarts(mem, src);
      var rest := src;
      while rest != []
        invariant done <= |src| && rest == src[done..] && Filling(mem, l, cells, src, done)
        decreases |rest|
      {
        var count := PutNext(mem, rest, l, cells, src, done);
        rest := rest[count..];
        done := done + count;
      }
      FillingEnds(mem, l, cells, src);
      FillingIsValid(mem, l, cells, src, done);
      ok := true;
    }

    lemma FillingIsValid(mem: MemorySpace, l: Layout, cells: Memory, src: seq<byte>, done: nat)
      requires Filling(mem, l, cells, src, done)
      ensures Valid() && Sound()
    {
    }

    /** `put_slice`. */
    method PutSlice(mem: MemorySpace, src: seq<byte>) returns (ok: bool)
      requires Sound() && (Valid() || src == [] || |src| > available)
      modifies this, mem
      ensures Sound() && (old(Valid()) ==> Valid())
      ensures ok <==> |src| <= old(available)
      ensures !ok ==> Shape() == old(Shape()) && mem.cells == old(mem.cells)
      ensures ok ==> AsQueue() == old(AsQueue()).Written(|src|)
      ensures ok ==> mem.cells == Write(old(mem.cells), old(AsQueue()).free[..|src|], src)
      ensures ok && old(Valid()) ==> Shape() == old(Shape()).Fill(|src|)
      ensures ok && Separate(old(AsQueue())) ==>
        Read(mem.cells, AsQueue().data) == Read(old(mem.cells), old(AsQueue()).data) + src
    {
      hide Flat, FreeReversed, Interval, Write, Layout.Fill, Separate, Layout.Data;
      ghost var q := AsQueue();
      var small := PutSmall(mem, src);
      ok := small.Some?;
      if small == Some(false) {
        if src == [] {
          WriteNothing(mem.cells);
          FillNothing();
          assert q.Written(0) == q;
        } else {
          ok := PutSliceLooped(mem, src);
        }
      }
      if ok && Separate(q) {
        WrittenContent(old(mem.cells), q, src);
      }
    }

    /** `put_byte_repeated`: what writing that many copies of the byte as a slice does. */
    method PutByteRepeated(mem: MemorySpace, value: byte, count: nat) returns (ok: bool)
      requires Sound() && (Valid() || count == 0 || count > available)
      modifies this, mem
      ensures Sound() && (old(Valid()) ==> Valid()) && (ok <==> count <= old(available))
      ensures !ok || count == 0 ==> Shape() == old(Shape()) && mem.cells == old(mem.cells)
      ensures ok && count > 0 ==>
        && Shape() == old(Shape()).Fill(count) && AsQueue() == old(AsQueue()).Written(count)
        && mem.cells == Write(old(mem.cells), old(AsQueue()).free[..count], Repeated(value, count))
    {
      hide Flat, FreeReversed, Interval, Write, Layout.Fill, Layout.Ready, Layout.Sound, Layout.Data;
      hide BytesBuf.Filling, BytesBuf.Counted, BytesBuf.Valid, BytesBuf.Sound, Queue.Written;
      if available < count {
        return false;
      }
      if count == 0 {
        return true;
      }
      ghost var l, cells, src := Shape(), mem.cells, Repeated(value, count);
      FillingStarts(mem, src);
      var left: nat := count;
      while left > 0
        invariant left <= count && Filling(mem, l, cells, src, count - left)
        decreases left
      {
        assert Repeated(value, left) == src[count - left..];
        var step := PutNext(mem, Repeated(value, left), l, cells, src, count - left);
        left := left - step;
      }
      FillingEnds(mem, l, cells, src);
      FillingIsValid(mem, l, cells, src, count);
      ok := true;
    }

    /** `BytesBufVectoredWrite::commit`: the caller wrote the first `count` exposed bytes. */
    method Commit(count: nat)
      requires Valid() && count <= available
      modifies this
      ensures Valid() && Shape() == old(Shape()).Fill(count)
      ensures AsQueue() == old(AsQueue()).Written(count)
    {
      hide Flat, FreeReversed, Interval, Layout.Fill, Layout.Advance, Layout.AsQueue, Layout.Ready, Layout.Sound;
      ghost var l := Shape();
      QueueOf(l);
      FillWrites(l, count);
      FillNothing();
      var left: nat := count;
      while left > 0
        invariant Valid() && left <= available && Shape().Fill(left) == l.Fill(count)
        decreases left
      {
        QueueOf(Shape());
        FirstFree(Shape());
        FillStep(Shape(), left);
        var step := Min(Last(buildersReversed).available, left);
        Advance(step);
        left := left - step;
      }
    }
  }

  function Repeated(value: byte, count: nat): seq<byte> {
    seq(count, _ => value)
  }

  lemma WrittenFree(free: seq<Addr>, count: nat)
    requires count <= |free|
    ensures forall data :: Queue(data, free).Written(count).free == free[count..]
  {
  }

  lemma QueueOf(l: Layout)
    ensures l.AsQueue() == Queue(l.Data(), l.Free())
    ensures l.Ready() ==> l.Sound()
  {
  }

  lemma NothingIsFresh()
    ensures Fresh([])
  {
  }

  lemma AllFrozenLength(l: Layout)
    requires l.Sound()
    ensures |Flat(l.frozen)| + l.FirstLen() == |l.Data()|
  {
  }

  lemma WriteNothing(cells: Memory)
    ensures Write(cells, [], []) == cells
  {
  }

  lemma WriteMore(cells: Memory, addrs: seq<Addr>, src: seq<byte>, done: nat, count: nat)
    requires done + count <= |src| <= |addrs|
    ensures Write(Write(cells, addrs[..done], src[..done]), addrs[done..][..count], src[done..][..count])
         == Write(cells, addrs[..done + count], src[..done + count])
    ensures addrs[done..][count..] == addrs[done + count..] && src[done..][count..] == src[done + count..]
  {
    hide Write;
    WriteAppend(cells, addrs[..done], addrs[done..][..count], src[..done], src[done..][..count]);
    assert addrs[..done] + addrs[done..][..count] == addrs[..done + count];
    assert src[..done] + src[done..][..count] == src[..done + count];
  }
}
