/** What each `BytesBuf` operation does to the layout of the buffer. */
module LayoutSteps {
  import opened Base
  import opened Addresses
  import opened Spans
  import opened SpanPositions
  import opened Queues
  import opened Layouts

  // ---- Writing ----

  /** One iteration of a write loop, and its end. */
  lemma FillStep(l: Layout, count: nat)
    requires l.Ready() && 0 < count <= |l.Free()|
    ensures var step := Min(l.FirstAvailable(), count);
      && 0 < step && l.Advance(step).Ready()
      && l.Fill(count) == l.Advance(step).Fill(count - step)
  {
    hide Flat, FreeReversed, Interval, Layout.Advance;
    FirstFree(l);
    AdvanceIsReady(l, Min(l.FirstAvailable(), count));
  }

  lemma FillNothing()
    ensures forall l: Layout :: l.Ready() ==> l.Fill(0) == l
  {
  }

  /** Advancing, with the length of the frozen part. */
  lemma AdvanceCounts(l: Layout, count: nat)
    requires l.Sound() && count <= l.FirstAvailable()
    ensures l.Advance(count).Sound() && (l.Ready() ==> l.Advance(count).Ready())
    ensures count <= |l.Free()| && l.Advance(count).AsQueue() == l.AsQueue().Written(count)
    ensures |Flat(l.Advance(count).frozen)|
         == |Flat(l.frozen)| + if 0 < count == l.FirstAvailable() then l.FirstLen() + count else 0
    ensures count > 0 ==> l.builders != [] && Filled(l, count).Sound()
  {
    hide Flat, FreeReversed, Interval;
    AdvanceWrites(l, count);
    if count > 0 {
      FilledAddrs(l, count);
      if count == l.FirstAvailable() {
        FreezeLength(Filled(l, count), l.FirstLen() + count);
      }
    }
  }

  lemma FreezeLength(l: Layout, count: nat)
    requires l.Sound() && 0 < count <= l.FirstLen()
    ensures |Flat(l.Freeze(count).frozen)| == |Flat(l.frozen)| + count
  {
    FreezeAddrs(l, count);
  }

  /** The layout after `put_small`: filled, and frozen when full. */
  function PutSmallResult(l: Layout, count: nat): Layout
    requires l.Sound() && l.builders != [] && count <= l.FirstAvailable() && Filled(l, count).Sound()
  {
    var filled := Filled(l, count);
    if filled.FirstAvailable() == 0 then filled.Freeze(filled.FirstLen()) else filled
  }

  /** The fast path does what the loop does in its one iteration. */
  lemma PutSmallShape(l: Layout, count: nat)
    requires l.Sound() && l.builders != [] && count <= l.FirstAvailable()
    ensures count <= |l.Free()| && Filled(l, count).Sound()
    ensures PutSmallResult(l, count).Ready() && PutSmallResult(l, count).AsQueue() == l.AsQueue().Written(count)
    ensures |Flat(PutSmallResult(l, count).frozen)|
         == |Flat(l.frozen)| + if count == l.FirstAvailable() then l.FirstLen() + count else 0
  {
    hide Flat, FreeReversed, Interval;
    FilledAddrs(l, count);
    var filled := Filled(l, count);
    if filled.FirstAvailable() == 0 {
      FreezeKeeps(filled, filled.FirstLen());
      FreezeLength(filled, filled.FirstLen());
    }
  }

  lemma PutSmallIsFill(l: Layout, count: nat)
    requires l.Ready() && l.builders != [] && count <= l.FirstAvailable() && Filled(l, count).Sound()
    ensures PutSmallResult(l, count) == l.Fill(count)
  {
    hide Flat, FreeReversed, Interval;
    if count == 0 {
      assert Filled(l, 0) == l;
    } else {
      AdvanceIsReady(l, count);
    }
  }

  // ---- Reserving and appending ----

  predicate Fresh(builders: seq<SpanBuilder>) {
    forall i :: 0 <= i < |builders| ==> builders[i].FitsBlock() && builders[i].filled == 0 < builders[i].available
  }

  lemma FreshShape(builders: seq<SpanBuilder>)
    requires Fresh(builders)
    ensures Layout([], builders).Ready()
    ensures Layout([], builders).AsQueue() == Queue([], FreeReversed(builders)) && |Flat([])| == 0
  {
  }

  lemma ReserveShape(l: Layout, provided: seq<SpanBuilder>)
    requires l.Sound() && Fresh(provided)
    ensures var r := Layout(l.frozen, provided + l.builders);
      && r.Sound() && (l.Ready() ==> r.Ready())
      && r.AsQueue() == l.AsQueue().Reserved(FreeReversed(provided))
  {
    hide Flat, FreeReversed, Interval;
    FreeReversedAppend(provided, l.builders);
    if l.builders == [] {
      assert provided + l.builders == provided;
      NoAddrs(SpanBuilder(0, 0, 0, 0), Layout(l.frozen, provided));
    } else {
      assert Last(provided + l.builders) == Last(l.builders);
    }
  }

  /** The layout once everything is frozen. */
  function AllFrozen(l: Layout): Layout
    requires l.Sound()
  {
    if l.FirstLen() > 0 then l.Freeze(l.FirstLen()) else l
  }

  lemma AllFrozenShape(l: Layout)
    requires l.Sound()
    ensures AllFrozen(l).Ready() && AllFrozen(l).AsQueue() == l.AsQueue()
    ensures AllFrozen(l).Unfrozen() == [] && |Flat(AllFrozen(l).frozen)| == |l.Data()|
  {
    hide Flat, FreeReversed, Interval;
    NoAddrs(SpanBuilder(0, 0, 0, 0), l);
    if l.FirstLen() > 0 {
      FreezeAddrs(l, l.FirstLen());
      FreezeKeeps(l, l.FirstLen());
      FreezeSound(l, l.FirstLen());
    }
  }

  /** Freezing what is unfrozen and adding the spans of a view adds its addresses to the data. */
  lemma AppendShape(l: Layout, viewSpans: seq<Span>)
    requires l.Sound() && AllNonEmpty(viewSpans)
    ensures var r := Layout(AllFrozen(l).frozen + Reverse(viewSpans), AllFrozen(l).builders);
      && r.Ready() && r.AsQueue() == l.AsQueue().Appended(FlatReversed(viewSpans))
      && |Flat(r.frozen)| == |l.Data()| + |FlatReversed(viewSpans)|
  {
    hide Flat, FlatReversed, FreeReversed, Interval, Reverse, Layout.Freeze, AllFrozen;
    var mid := AllFrozen(l);
    AllFrozenShape(l);
    AppendSpans(mid.frozen, viewSpans);
    assert Flat(mid.frozen) + [] == Flat(mid.frozen);
  }

  lemma AppendSpans(frozen: seq<Span>, viewSpans: seq<Span>)
    requires AllNonEmpty(frozen) && AllNonEmpty(viewSpans)
    ensures Flat(frozen + Reverse(viewSpans)) == Flat(frozen) + FlatReversed(viewSpans)
    ensures AllNonEmpty(frozen + Reverse(viewSpans))
  {
    hide Flat, FlatReversed, Interval, Reverse;
    FlatAppend(frozen, Reverse(viewSpans));
    FlatOfReverse(viewSpans);
    ReverseKeepsNonEmpty(viewSpans);
  }

  lemma {:induction false} FlatOfReverse(spans: seq<Span>)
    ensures Flat(Reverse(spans)) == FlatReversed(spans)
  {
    hide Interval, Span.Addrs, Flat;
    NothingIsFlat();
    if spans != [] {
      var init, last := Init(spans), Last(spans);
      FlatOfReverse(init);
      assert spans == init + [last];
      ReverseAppend(init, [last]);
      assert Reverse([last]) == [last];
      FlatAppend([last], Reverse(init));
      FlatOfOne(last);
    }
  }

  // ---- Consuming ----

  /** A partial consume of a full first builder. */
  predicate LosesBytes(l: Layout, count: nat) {
    l.FirstAvailable() == 0 && |Flat(l.frozen)| < count < |l.Data()|
  }

  /** The layout after `ensure_frozen(count)`. */
  function FrozenUpTo(l: Layout, count: nat): Layout
    requires l.Sound() && count <= |l.Data()|
  {
    if count <= |Flat(l.frozen)| then l else l.Freeze(count - |Flat(l.frozen)|)
  }

  lemma FrozenUpToShape(l: Layout, count: nat)
    requires l.Sound() && count <= |l.Data()|
    ensures var r := FrozenUpTo(l, count);
      && r.Sound() && r.Free() == l.Free() && count <= |Flat(r.frozen)|
      && Flat(r.frozen)[..count] == l.Data()[..count]
      && (l.Ready() ==> r.Ready())
      && (!LosesBytes(l, count) ==> r.Data() == l.Data())
      && (LosesBytes(l, count) ==> r.Data() == Flat(r.frozen) == l.Data()[..count])
    ensures |Flat(FrozenUpTo(l, count).frozen)| == if count <= |Flat(l.frozen)| then |Flat(l.frozen)| else count
  {
    hide Flat, FreeReversed, Interval, Layout.Freeze;
    if count > |Flat(l.frozen)| {
      FreezeKeeps(l, count - |Flat(l.frozen)|);
      assert count == |l.Data()| ==> l.Data()[..count] == l.Data();
    }
  }

  /** Dropping the first `count` bytes of frozen content from a layout drops them from its data. */
  lemma ConsumeShape(l: Layout, retained: seq<Span>, count: nat)
    requires l.Sound() && count <= |l.Data()|
    requires count <= |Flat(FrozenUpTo(l, count).frozen)|
    requires Flat(retained) == Flat(FrozenUpTo(l, count).frozen)[count..] && AllNonEmpty(retained)
    ensures var r := Layout(retained, FrozenUpTo(l, count).builders);
      && r.Sound() && r.Free() == l.Free() && (l.Ready() ==> r.Ready())
      && r.Data() == if LosesBytes(l, count) then [] else l.Data()[count..]
  {
    hide Flat, FreeReversed, Interval, FrozenUpTo;
    FrozenUpToShape(l, count);
    var mid := FrozenUpTo(l, count);
    SplitInside([], Flat(mid.frozen), mid.Unfrozen(), count);
    assert [] + mid.Data() == mid.Data();
  }

  /** How many spans to detach whole, and how many bytes to take from the next one. */
  datatype ConsumeManifest = ConsumeManifest(whole: nat, partial: nat)

  ghost predicate Covers(spans: seq<Span>, m: ConsumeManifest, count: nat) {
    && m.whole <= |spans|
    && |Flat(spans[..m.whole])| + m.partial == count
    && (m.partial > 0 ==> m.whole < |spans| && m.partial < spans[m.whole].len)
  }

  /** `prepare_consume`. */
  method PrepareConsume(spans: seq<Span>, count: nat) returns (m: ConsumeManifest)
    requires AllNonEmpty(spans) && count <= |Flat(spans)|
    ensures Covers(spans, m, count)
  {
    hide Flat, Interval;
    NothingIsFlat();
    var whole: nat, left: nat := 0, count;
    while whole < |spans|
      invariant whole <= |spans| && |Flat(spans[..whole])| + left == count
      invariant left == 0 ==> whole == 0
    {
      var spanLen := spans[whole].len;
      FlatNext(spans, whole);
      if spanLen <= left {
        whole := whole + 1;
        left := left - spanLen;
        if left != 0 {
          continue;
        }
      }
      break;
    }
    FlatTake(spans, whole);
    assert whole == |spans| ==> spans[..whole] == spans;
    m := ConsumeManifest(whole, left);
  }

  lemma FlatNext(spans: seq<Span>, i: nat)
    requires i < |spans|
    ensures |Flat(spans[..i + 1])| == |Flat(spans[..i])| + spans[i].len
  {
    hide Flat, Interval;
    assert spans[..i + 1] == spans[..i] + [spans[i]];
    FlatSnoc(spans[..i], spans[i]);
  }

  lemma FlatTake(spans: seq<Span>, i: nat)
    requires i <= |spans|
    ensures Flat(spans) == Flat(spans[..i]) + Flat(spans[i..])
  {
    hide Flat, Interval;
    assert spans == spans[..i] + spans[i..];
    FlatAppend(spans[..i], spans[i..]);
  }

  /** The spans handed out, in reverse content order, and the spans that stay. */
  function Detached(spans: seq<Span>, m: ConsumeManifest): seq<Span>
    requires m.whole <= |spans| && (m.partial > 0 ==> m.whole < |spans| && m.partial <= spans[m.whole].len)
  {
    (if m.partial != 0 then [spans[m.whole].Slice(0, m.partial)] else []) + Reverse(spans[..m.whole])
  }

  function Retained(spans: seq<Span>, m: ConsumeManifest): seq<Span>
    requires m.whole <= |spans|
    requires m.partial > 0 ==> m.whole < |spans| && m.partial <= spans[m.whole].len <= BLOCK_MAX
  {
    if m.partial != 0 then [spans[m.whole].Advance(m.partial)] + spans[m.whole + 1..] else spans[m.whole..]
  }

  /** The content around the span that a manifest splits. */
  lemma FlatAround(spans: seq<Span>, k: nat)
    requires k < |spans|
    ensures Flat(spans) == Flat(spans[..k]) + (spans[k].Addrs() + Flat(spans[k + 1..]))
  {
    hide Interval, Span.Addrs;
    FlatTake(spans, k);
    assert spans[k..][1..] == spans[k + 1..];
  }

  /** A manifest for `count` bytes hands out exactly the first `count` bytes. */
  lemma DetachedIsPrefix(spans: seq<Span>, m: ConsumeManifest, count: nat)
    requires AllNonEmpty(spans) && Covers(spans, m, count)
    ensures count <= |Flat(spans)|
    ensures FlatReversed(Detached(spans, m)) == Flat(spans)[..count]
  {
    hide Flat, FlatReversed, Reverse, Interval;
    var front := spans[..m.whole];
    FlatReverse(front);
    if m.partial == 0 {
      FlatTake(spans, m.whole);
      assert Detached(spans, m) == Reverse(front);
    } else {
      var next, rest := spans[m.whole], spans[m.whole + 1..];
      FlatAround(spans, m.whole);
      SplitInside(Flat(front), next.Addrs(), Flat(rest), m.partial);
      var take := next.Slice(0, m.partial);
      FlatReversedAppend([take], Reverse(front));
      FlatOfOne(take);
    }
  }

  /** And keeps exactly the others. */
  lemma RetainedIsSuffix(spans: seq<Span>, m: ConsumeManifest, count: nat)
    requires AllNonEmpty(spans) && Covers(spans, m, count)
    ensures count <= |Flat(spans)|
    ensures Flat(Retained(spans, m)) == Flat(spans)[count..]
  {
    hide Flat, Interval;
    if m.partial == 0 {
      FlatTake(spans, m.whole);
    } else {
      var next, rest := spans[m.whole], spans[m.whole + 1..];
      FlatAround(spans, m.whole);
      SplitInside(Flat(spans[..m.whole]), next.Addrs(), Flat(rest), m.partial);
      FlatAppend([next.Advance(m.partial)], rest);
      FlatOfOne(next.Advance(m.partial));
    }
  }

  lemma DetachedNonEmpty(spans: seq<Span>, m: ConsumeManifest, count: nat)
    requires AllNonEmpty(spans) && Covers(spans, m, count)
    ensures AllNonEmpty(Detached(spans, m)) && AllNonEmpty(Retained(spans, m))
  {
    hide Flat, Interval, Reverse;
    ReverseKeepsNonEmpty(spans[..m.whole]);
  }

  /** Takes `count` bytes from the front of frozen spans. */
  method DetachFront(spans: seq<Span>, count: nat) returns (taken: seq<Span>, rest: seq<Span>)
    requires AllNonEmpty(spans) && count <= |Flat(spans)|
    ensures FlatReversed(taken) == Flat(spans)[..count] && AllNonEmpty(taken)
    ensures Flat(rest) == Flat(spans)[count..] && AllNonEmpty(rest)
  {
    hide Flat, FlatReversed, Reverse, Interval;
    var manifest := PrepareConsume(spans, count);
    DetachedIsPrefix(spans, manifest, count);
    RetainedIsSuffix(spans, manifest, count);
    DetachedNonEmpty(spans, manifest, count);
    taken, rest := Detached(spans, manifest), Retained(spans, manifest);
  }

  // ---- Splitting off capacity ----

  lemma FreeOfOne(b: SpanBuilder)
    ensures FreeReversed([b]) == b.Free()
  {
    hide Interval, SpanBuilder.Free;
    assert FreeReversed([b]) == b.Free() + FreeReversed([]);
  }

  lemma NoFree()
    ensures FreeReversed([]) == []
  {
  }

  /** The free addresses of builders, split at a storage index. */
  lemma FreeTake(builders: seq<SpanBuilder>, i: nat)
    requires i <= |builders|
    ensures FreeReversed(builders) == FreeReversed(builders[i..]) + FreeReversed(builders[..i])
  {
    hide FreeReversed, Interval;
    assert builders == builders[..i] + builders[i..];
    FreeReversedAppend(builders[..i], builders[i..]);
  }

  /** The free addresses around the builder at storage index `k`. */
  lemma FreeAround(builders: seq<SpanBuilder>, k: nat)
    requires k < |builders|
    ensures FreeReversed(builders)
         == (FreeReversed(builders[k + 1..]) + builders[k].Free()) + FreeReversed(builders[..k])
  {
    hide FreeReversed, Interval, SpanBuilder.Free;
    FreeTake(builders, k);
    SliceHead(builders, k);
    FreeReversedAppend([builders[k]], builders[k + 1..]);
    FreeOfOne(builders[k]);
  }

  /** Splitting the builder at index `k` after taking the `k` before it splits the free addresses. */
  lemma SplitSplitsFree(builders: seq<SpanBuilder>, k: nat, count: nat)
    requires k < |builders| && builders[k].FitsBlock() && 0 < count <= builders[k].available
    ensures var (kept, split) := builders[k].SplitOff(count);
      FreeReversed(builders)
      == FreeReversed([kept] + builders[k + 1..]) + FreeReversed(builders[..k] + [split])
  {
    hide FreeReversed, Interval, SpanBuilder.Free;
    var (kept, split) := builders[k].SplitOff(count);
    FreeAround(builders, k);
    FreeReversedAppend([kept], builders[k + 1..]);
    FreeReversedAppend(builders[..k], [split]);
    FreeOfOne(kept);
    FreeOfOne(split);
    Regroup(FreeReversed(builders[k + 1..]), kept.Free(), split.Free(), FreeReversed(builders[..k]));
  }

  /** What the loop of `split_off_remaining_checked` has decided: how much to take whole. */
  ghost predicate TakesWhole(builders: seq<SpanBuilder>, count: nat, taken: nat, left: nat) {
    && taken <= |builders| && |FreeReversed(builders[..taken])| + left == count
    && (forall i :: 0 <= i < taken ==> builders[i].filled == 0 < builders[i].available)
    && (left > 0 ==>
      && taken < |builders| && left <= builders[taken].available
      && (builders[taken].filled == 0 ==> left < builders[taken].available)
      && (builders[taken].filled > 0 ==> taken == |builders| - 1))
  }

  /**
   The loop of `split_off_remaining_checked`: takes whole empty builders, from the logically last,
   while they fit.
   */
  method TakeWholeBuilders(builders: seq<SpanBuilder>, count: nat) returns (taken: nat, left: nat)
    requires Layout([], builders).Sound() && 0 < count <= |FreeReversed(builders)|
    ensures TakesWhole(builders, count, taken, left)
  {
    hide FreeReversed, Flat, Interval;
    taken, left := 0, count;
    NoFree();
    while taken < |builders|
      invariant taken <= |builders| && |FreeReversed(builders[..taken])| + left == count
      invariant forall i :: 0 <= i < taken ==> builders[i].filled == 0 < builders[i].available
    {
      var b := builders[taken];
      if b.filled != 0 {
        FreeAround(builders, taken);
        assert builders[taken + 1..] == [];
        break;
      }
      if b.available > left {
        break;
      }
      TakeOneMore(builders, taken);
      left := left - b.available;
      taken := taken + 1;
    }
    assert builders[..|builders|] == builders;
  }

  lemma TakeOneMore(builders: seq<SpanBuilder>, taken: nat)
    requires taken < |builders|
    ensures |FreeReversed(builders[..taken + 1])| == |FreeReversed(builders[..taken])| + builders[taken].available
  {
    hide FreeReversed, Interval;
    assert builders[..taken + 1] == builders[..taken] + [builders[taken]];
    FreeSnoc(builders[..taken], builders[taken]);
  }

  /** The builders split off and the builders kept. */
  function SplitPart(builders: seq<SpanBuilder>, taken: nat, left: nat): seq<SpanBuilder>
    requires taken <= |builders|
    requires left > 0 ==> taken < |builders| && builders[taken].FitsBlock() && left <= builders[taken].available
  {
    if left > 0 then builders[..taken] + [builders[taken].SplitOff(left).1] else builders[..taken]
  }

  function KeptPart(builders: seq<SpanBuilder>, taken: nat, left: nat): seq<SpanBuilder>
    requires taken <= |builders|
    requires left > 0 ==> taken < |builders| && builders[taken].FitsBlock() && left <= builders[taken].available
  {
    if left > 0 then [builders[taken].SplitOff(left).0] + builders[taken + 1..] else builders[taken..]
  }

  /** Splitting conserves the free addresses: they are cut in two, in order. */
  lemma SplitConserves(builders: seq<SpanBuilder>, count: nat, taken: nat, left: nat)
    requires Layout([], builders).Sound() && TakesWhole(builders, count, taken, left)
    ensures FreeReversed(builders)
         == FreeReversed(KeptPart(builders, taken, left)) + FreeReversed(SplitPart(builders, taken, left))
    ensures |FreeReversed(SplitPart(builders, taken, left))| == count
  {
    hide FreeReversed, Flat, Interval;
    FreeTake(builders, taken);
    if left > 0 {
      SplitSplitsFree(builders, taken, left);
      FreeSnoc(builders[..taken], builders[taken].SplitOff(left).1);
    }
  }

  lemma SplitKeepsData(l: Layout, count: nat, taken: nat, left: nat)
    requires l.Sound() && 0 < count <= |l.Free()| && TakesWhole(l.builders, count, taken, left)
    ensures var kept := Layout(l.frozen, KeptPart(l.builders, taken, left));
      && kept.Sound() && kept.Unfrozen() == l.Unfrozen() && kept.FirstLen() == l.FirstLen()
  {
    hide FreeReversed, Flat;
  }

  /** The kept builders have room unless all the capacity was taken from under the data. */
  lemma SplitKeepsReady(l: Layout, count: nat, taken: nat, left: nat)
    requires l.Ready() && 0 < count <= |l.Free()| && TakesWhole(l.builders, count, taken, left)
    ensures Layout(l.frozen, KeptPart(l.builders, taken, left)).Ready()
        <==> !(count == |l.Free()| && l.FirstLen() > 0)
  {
    hide FreeReversed, Flat, Interval;
    SplitKeepsData(l, count, taken, left);
    SplitConserves(l.builders, count, taken, left);
    var kept := KeptPart(l.builders, taken, left);
    NoFree();
    if kept != [] {
      FirstFree(Layout(l.frozen, kept));
      if |kept| > 1 {
        FreeAround(kept, 0);
        assert kept[0].available > 0;
      } else {
        assert kept == [kept[0]];
        FreeOfOne(kept[0]);
      }
    }
  }

  lemma SplitShape(l: Layout, count: nat, taken: nat, left: nat)
    requires l.Sound() && 0 < count <= |l.Free()| && TakesWhole(l.builders, count, taken, left)
    ensures var kept := Layout(l.frozen, KeptPart(l.builders, taken, left));
      && kept.Sound() && kept.AsQueue() == l.AsQueue().Kept(count)
      && FreeReversed(SplitPart(l.builders, taken, left)) == l.AsQueue().SplitOff(count).free
      && (l.Ready() ==> (kept.Ready() <==> !(count == |l.Free()| && l.FirstLen() > 0)))
  {
    hide FreeReversed, Flat, Interval, KeptPart, SplitPart, TakesWhole;
    SplitPartsDefined(l, count, taken, left);
    SplitConserves(l.builders, count, taken, left);
    SplitKeepsData(l, count, taken, left);
    if l.Ready() {
      SplitKeepsReady(l, count, taken, left);
    }
  }

  lemma SplitPartsDefined(l: Layout, count: nat, taken: nat, left: nat)
    requires l.Sound() && TakesWhole(l.builders, count, taken, left)
    ensures taken <= |l.builders|
    ensures left > 0 ==> taken < |l.builders| && l.builders[taken].FitsBlock() && left <= l.builders[taken].available
    ensures Fresh(SplitPart(l.builders, taken, left))
  {
    hide FreeReversed, Flat, Interval;
  }

  /** Takes `count` bytes of capacity from the end of the builders of a layout. */
  method SplitBuilders(ghost l: Layout, builders: seq<SpanBuilder>, count: nat)
    returns (kept: seq<SpanBuilder>, split: seq<SpanBuilder>)
    requires builders == l.builders && l.Sound() && 0 < count <= |l.Free()|
    ensures var k := Layout(l.frozen, kept);
      && k.Sound() && k.AsQueue() == l.AsQueue().Kept(count)
      && (l.Ready() ==> (k.Ready() <==> !(count == |l.Free()| && l.FirstLen() > 0)))
    ensures FreeReversed(split) == l.AsQueue().SplitOff(count).free && Fresh(split)
  {
    hide FreeReversed, Flat, Interval, TakesWhole, Fresh;
    var taken, left := TakeWholeBuilders(builders, count);
    SplitPartsDefined(l, count, taken, left);
    SplitShape(l, count, taken, left);
    split := builders[..taken];
    if left > 0 {
      var (shorter, last) := builders[taken].SplitOff(left);
      split := split + [last];
      kept := [shorter] + builders[taken + 1..];
    } else {
      kept := builders[taken..];
    }
  }
}
