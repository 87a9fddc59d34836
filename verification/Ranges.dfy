/** The bound arithmetic shared by `Span::slice_checked` and `BytesView::range_checked`. */
module Ranges {
  import opened Base
  import opened Spans

  datatype Bound = Included(at: nat) | Excluded(at: nat) | Unbounded

  /** Where a range starts and ends, as unbounded integers. */
  function StartOf(lower: Bound): nat {
    match lower
    case Included(x) => x
    case Excluded(x) => x + 1
    case Unbounded => 0
  }

  function EndOf(upper: Bound, len: nat): nat {
    match upper
    case Included(x) => x + 1
    case Excluded(x) => x
    case Unbounded => len
  }

  predicate Fits(b: Bound, max: nat) {
    b.Unbounded? || b.at <= max
  }

  /** The number of bytes before the range; `None` is an overflow of the width `max`. */
  function BytesUntilRange(lower: Bound, max: nat): Option<nat> {
    match lower
    case Included(x) => Some(x)
    case Excluded(x) => CheckedAdd(x, 1, max)
    case Unbounded => Some(0)
  }

  function BytesInRange(upper: Bound, until: nat, len: nat, max: nat): Option<nat> {
    match upper
    case Included(x) =>
      var end := CheckedAdd(x, 1, max);
      if end.None? then None else CheckedSub(end.value, until)
    case Excluded(x) => CheckedSub(x, until)
    case Unbounded => CheckedSub(len, until)
  }

  /**
   The pair (bytes before the range, bytes in the range) as the source computes it with
   arithmetic of width `max`, or `None` where the source returns `None`. It is `None` exactly when
   the range does not lie inside a sequence of `len` items, so no overflow is ever taken for a hit
   and no hit is ever lost to an overflow. The last addition, which wraps in one caller and panics in
   the other, never overflows: not for a range in bounds and not for one that is refused.
   */
  function Resolve(lower: Bound, upper: Bound, len: nat, max: nat): (r: Option<(nat, nat)>)
    requires len <= max && Fits(lower, max) && Fits(upper, max)
    ensures r.Some? <==> StartOf(lower) <= EndOf(upper, len) <= len
    ensures r.Some? ==> r.value.0 == StartOf(lower) && r.value.0 + r.value.1 == EndOf(upper, len)
    ensures var until := BytesUntilRange(lower, max);
      until.Some? ==>
        var inside := BytesInRange(upper, until.value, len, max);
        inside.Some? ==> until.value + inside.value <= max
  {
    var until := BytesUntilRange(lower, max);
    if until.None? then None
    else
      var inside := BytesInRange(upper, until.value, len, max);
      if inside.None? then None
      else if WrappingAdd(until.value, inside.value, max) > len then None
      else Some((until.value, inside.value))
  }

  /** `Span::slice_checked`. */
  function SliceChecked(span: Span, lower: Bound, upper: Bound): (r: Option<Span>)
    requires span.len <= BLOCK_MAX && Fits(lower, BLOCK_MAX) && Fits(upper, BLOCK_MAX)
    ensures r.Some? <==> StartOf(lower) <= EndOf(upper, span.len) <= span.len
    ensures r.Some? ==> r.value.Addrs() == span.Addrs()[StartOf(lower)..EndOf(upper, span.len)]
  {
    var range := Resolve(lower, upper, span.len, BLOCK_MAX);
    if range.None? then None
    else Some(Span(span.block, span.start + range.value.0, range.value.1))
  }
}
