/** Shared vocabulary: optional values and the fixed-width arithmetic of the source. */
module Base {

  /** `usize` on a 64-bit target and `BlockSize` (`u32`). */
  const USIZE_MAX: nat := 0xFFFF_FFFF_FFFF_FFFF
  const BLOCK_MAX: nat := 0xFFFF_FFFF

  datatype Option<+T> = None | Some(value: T)

  /** `wrapping_add` and `wrapping_sub` on an unsigned type whose largest value is `max`. */
  function WrappingAdd(a: nat, b: nat, max: nat): nat
    requires a <= max && b <= max
  {
    if a + b <= max then a + b else a + b - (max + 1)
  }

  function WrappingSub(a: nat, b: nat, max: nat): nat
    requires a <= max && b <= max
  {
    if b <= a then a - b else a + (max + 1) - b
  }

  /** The cast `as BlockSize`. */
  function ToBlockSize(a: nat): nat {
    a % (BLOCK_MAX + 1)
  }

  /** `checked_add`: `None` stands for an overflow. */
  function CheckedAdd(a: nat, b: nat, max: nat): Option<nat> {
    if a + b <= max then Some(a + b) else None
  }

  /** `checked_sub`: `None` stands for an underflow. */
  function CheckedSub(a: nat, b: nat): Option<nat> {
    if b <= a then Some(a - b) else None
  }

  function SaturatingSub(a: nat, b: nat): nat {
    if b <= a then a - b else 0
  }

  function Min(a: nat, b: nat): nat {
    if a <= b then a else b
  }

  function Last<T>(s: seq<T>): T
    requires s != []
  {
    s[|s| - 1]
  }

  function Init<T>(s: seq<T>): seq<T>
    requires s != []
  {
    s[..|s| - 1]
  }

  function Reverse<T>(s: seq<T>): seq<T> {
    if s == [] then [] else Reverse(s[1..]) + [s[0]]
  }

  lemma {:induction false} ReverseLength<T>(s: seq<T>)
    ensures |Reverse(s)| == |s|
  {
    if s != [] {
      ReverseLength(s[1..]);
    }
  }

  lemma {:induction false} ReverseAppend<T>(s: seq<T>, t: seq<T>)
    ensures Reverse(s + t) == Reverse(t) + Reverse(s)
  {
    if s == [] {
      assert s + t == t;
    } else {
      assert (s + t)[1..] == s[1..] + t;
      ReverseAppend(s[1..], t);
    }
  }

  predicate NoDuplicates<T(==)>(s: seq<T>) {
    forall i, j :: 0 <= i < j < |s| ==> s[i] != s[j]
  }

  predicate Disjoint<T(==)>(s: seq<T>, t: seq<T>) {
    forall i, j :: 0 <= i < |s| && 0 <= j < |t| ==> s[i] != t[j]
  }

  // Regrouping of concatenations, stated once so that larger proofs need not search for it.

  lemma SplitInside<T>(a: seq<T>, b: seq<T>, c: seq<T>, k: nat)
    requires k <= |b|
    ensures (a + (b + c))[..|a| + k] == a + b[..k]
    ensures (a + (b + c))[|a| + k..] == b[k..] + c
  {
  }

  lemma Associative<T>(a: seq<T>, b: seq<T>, c: seq<T>)
    ensures (a + b) + c == a + (b + c)
  {
  }

  lemma SliceJoin<T>(s: seq<T>, i: nat, j: nat, k: nat)
    requires i <= j <= k <= |s|
    ensures s[i..j] + s[j..k] == s[i..k]
  {
  }

  lemma SliceSlice<T>(s: seq<T>, i: nat, j: nat, a: nat, b: nat)
    requires i <= j <= |s| && a <= b <= j - i
    ensures s[i..j][a..b] == s[i + a..i + b]
  {
    var t := s[i..j];
    assert forall k :: 0 <= k < b - a ==> t[a..b][k] == t[a + k];
  }

  lemma SliceInside<T>(a: seq<T>, b: seq<T>, c: seq<T>)
    ensures (a + (b + c))[|a|..|a| + |b|] == b
  {
  }

  lemma SliceHead<T>(s: seq<T>, k: nat)
    requires k < |s|
    ensures s[k..] == [s[k]] + s[k + 1..]
  {
  }

  lemma Regroup<T>(x: seq<T>, a: seq<T>, b: seq<T>, y: seq<T>)
    ensures (x + (a + b)) + y == (x + a) + (b + y)
  {
  }
}
