/** `BytesBufRemaining`: the iterator over the unfilled slices that a vectored write exposes. */
module VectoredWrites {
  import opened Base
  import opened Addresses
  import opened Spans
  import opened LayoutSteps
  import opened BytesBufs

  /** The first `max` items, or all of them without a limit. */
  function Limited(addrs: seq<Addr>, max: Option<nat>): seq<Addr> {
    if max.None? then addrs else addrs[..Min(max.value, |addrs|)]
  }

  class BytesBufRemaining {
    const buf: BytesBuf
    var nextIndex: Option<nat>
    var maxLen: Option<nat>

    ghost predicate Valid()
      reads this, buf
    {
      nextIndex.Some? ==> nextIndex.value < |buf.buildersReversed|
    }

    /** The addresses that are still to be exposed. */
    ghost function Remaining(): seq<Addr>
      requires Valid()
      reads this, buf
    {
      if nextIndex.None? then []
      else Limited(FreeReversed(buf.buildersReversed[..|buf.buildersReversed| - nextIndex.value]), maxLen)
    }

    /** The number of `next` calls that can still yield a slice. */
    ghost function Left(): nat
      requires Valid()
      reads this, buf
    {
      if nextIndex.None? then 0 else |buf.buildersReversed| - nextIndex.value
    }

    /** `iter_available_capacity`. */
    constructor (buffer: BytesBuf, max: Option<nat>)
      ensures Valid() && buf == buffer
      ensures Remaining() == Limited(FreeReversed(buffer.buildersReversed), max)
    {
      buf := buffer;
      nextIndex := if buffer.buildersReversed == [] then None else Some(0);
      maxLen := max;
      new;
      assert buffer.buildersReversed[..|buffer.buildersReversed|] == buffer.buildersReversed;
    }

    /** `next`: the next slice in content order, cut to what the limit still allows. */
    method Next() returns (slice: Option<seq<Addr>>)
      requires Valid()
      modifies this
      ensures Valid()
      ensures slice.None? <==> old(nextIndex).None?
      ensures slice.None? ==> Remaining() == old(Remaining()) == []
      ensures slice.Some? ==> slice.value + Remaining() == old(Remaining()) && Left() < old(Left())
    {
      hide FreeReversed, Interval;
      if nextIndex.None? {
        return None;
      }
      var builders := buf.buildersReversed;
      var index := nextIndex.value;
      nextIndex := if index + 1 == |builders| then None else Some(index + 1);
      var storage := |builders| - (index + 1);
      var exposed := builders[storage].Free();
      NextSlice(builders, storage, maxLen);
      if maxLen.Some? {
        var constrained := Min(|exposed|, maxLen.value);
        exposed := exposed[..constrained];
        maxLen := Some(maxLen.value - constrained);
        if maxLen == Some(0) {
          nextIndex := None;
        }
      }
      slice := Some(exposed);
    }
  }

  /** The slice at a storage index, and what the builders before it in storage still expose. */
  lemma NextSlice(builders: seq<SpanBuilder>, storage: nat, max: Option<nat>)
    requires storage < |builders|
    ensures var slice := builders[storage].Free();
      var rest := FreeReversed(builders[..storage]);
      && FreeReversed(builders[..storage + 1]) == slice + rest
      && (max.Some? ==>
        var cut := Min(|slice|, max.value);
        && Limited(slice + rest, max) == slice[..cut] + Limited(rest, Some(max.value - cut))
        && (cut == max.value ==> Limited(rest, Some(max.value - cut)) == []))
      && (storage == 0 ==> rest == [])
  {
    hide FreeReversed, Interval, SpanBuilder.Free;
    var slice, rest := builders[storage].Free(), FreeReversed(builders[..storage]);
    assert builders[..storage + 1] == builders[..storage] + [builders[storage]];
    FreeSnoc(builders[..storage], builders[storage]);
    NoFree();
    if max.Some? {
      var cut := Min(|slice|, max.value);
      if max.value <= |slice| {
        assert (slice + rest)[..max.value] == slice[..max.value];
      } else {
        var more := Min(max.value - |slice|, |rest|);
        assert (slice + rest)[..|slice| + more] == slice + rest[..more];
      }
    }
  }

  /**
   Draining the iterator: for every limit the slices add up to the first
   `min(max_len, remaining_capacity)` free addresses, in content order.
   */
  method CollectSlices(buffer: BytesBuf, max: Option<nat>) returns (slices: seq<seq<Addr>>)
    requires buffer.Sound()
    ensures Joined(slices) == Limited(buffer.AsQueue().free, max)
  {
    hide FreeReversed, Flat, Interval, Limited;
    var remaining := new BytesBufRemaining(buffer, max);
    slices := [];
    while true
      invariant remaining.Valid() && fresh(remaining) && remaining.buf == buffer
      invariant Joined(slices) + remaining.Remaining() == Limited(buffer.AsQueue().free, max)
      decreases remaining.Left() + if remaining.nextIndex.Some? then 1 else 0
    {
      var slice := remaining.Next();
      if slice.None? {
        assert Joined(slices) + [] == Joined(slices);
        break;
      }
      Associative(Joined(slices), slice.value, remaining.Remaining());
      JoinedSnoc(slices, slice.value);
      slices := slices + [slice.value];
    }
  }

  function Joined(slices: seq<seq<Addr>>): seq<Addr> {
    if slices == [] then [] else slices[0] + Joined(slices[1..])
  }

  lemma {:induction false} JoinedSnoc(slices: seq<seq<Addr>>, last: seq<Addr>)
    ensures Joined(slices + [last]) == Joined(slices) + last
  {
    if slices == [] {
      assert slices + [last] == [last];
      assert Joined([last]) == last + Joined([last][1..]);
    } else {
      assert (slices + [last])[1..] == slices[1..] + [last];
      JoinedSnoc(slices[1..], last);
      Associative(slices[0], Joined(slices[1..]), last);
    }
  }
}
