/**
 Splitting off all the capacity under a buffer's data leaves a first builder that is full. The
 structural invariant still holds, but two later operations misbehave, for every such buffer.
 */
module SplitOffs {
  import opened Base
  import opened Addresses
  import opened Spans
  import opened Layouts
  import opened LayoutSteps

  /** What `split_off_remaining_checked` leaves when it takes all the capacity from under the data. */
  lemma TakingAllLeavesAFullBuilder(l: Layout, taken: nat, left: nat)
    requires l.Ready() && l.FirstLen() > 0 && l.Free() != [] && TakesWhole(l.builders, |l.Free()|, taken, left)
    ensures var kept := Layout(l.frozen, KeptPart(l.builders, taken, left));
      && kept.Sound() && !kept.Ready() && kept.FirstAvailable() == 0
      && kept.FirstLen() == l.FirstLen() && kept.Data() == l.Data()
  {
    hide Flat, FreeReversed, Interval, TakesWhole, KeptPart, SplitPart;
    SplitPartsDefined(l, |l.Free()|, taken, left);
    SplitShape(l, |l.Free()|, taken, left);
    SplitKeepsData(l, |l.Free()|, taken, left);
  }

  /** From there a consume loses bytes exactly when it takes some, but not all, of that builder's data. */
  lemma ConsumeFromFullBuilder(kept: Layout, count: nat)
    requires kept.Sound() && kept.FirstAvailable() == 0 && kept.FirstLen() > 0 && count <= |kept.Data()|
    ensures FrozenUpTo(kept, count).Data() == kept.Data()
        <==> count <= |Flat(kept.frozen)| || count == |kept.Data()|
    ensures LosesBytes(kept, count) ==> FrozenUpTo(kept, count).Data() == kept.Data()[..count]
  {
    hide Flat, FreeReversed, Interval, FrozenUpTo, Layout.Data;
    FrozenUpToShape(kept, count);
  }

  /** And after a reserve, a write of any bytes that fit never ends. */
  lemma WriteBehindFullBuilder(kept: Layout, provided: seq<SpanBuilder>, left: nat)
    requires kept.Sound() && kept.FirstAvailable() == 0 && kept.FirstLen() > 0
    requires Fresh(provided) && 0 < left <= |FreeReversed(provided)|
    ensures var reserved := Layout(kept.frozen, provided + kept.builders);
      && reserved.Sound() && left <= |reserved.Free()|
      && forall iterations :: WriteSteps(reserved, left, iterations).1 == left
  {
    var reserved := Layout(kept.frozen, provided + kept.builders);
    ReserveShape(kept, provided);
    assert Last(reserved.builders) == Last(kept.builders);
    forall iterations: nat ensures WriteSteps(reserved, left, iterations).1 == left {
      StalledForever(reserved, left, iterations);
    }
  }

  /** Two bytes of data in a block of four: split off the two free bytes, consume one, and one is gone. */
  lemma SplitThenConsumeLosesAByte()
    ensures var l := Layout([], [SpanBuilder(0, 0, 2, 2)]);
      var kept := Layout([], KeptPart(l.builders, 0, 2));
      && l.Ready() && TakesWhole(l.builders, 2, 0, 2) && |l.Data()| == 2
      && kept.Sound() && kept.Data() == l.Data() && |FrozenUpTo(kept, 1).Data()| == 1
  {
    var l := Layout([], [SpanBuilder(0, 0, 2, 2)]);
    assert l.builders[..0] == [];
    assert KeptPart(l.builders, 0, 2) == [SpanBuilder(0, 0, 2, 0)];
  }
}
