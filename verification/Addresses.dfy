/**
 Memory addresses and the bytes stored at them.

 A memory block is identified by a number; an address is an offset inside a block. Every zero-copy
 operation of the crate only rearranges addresses, so spans, builders, buffers and views are all
 described by the sequence of addresses they cover, and the bytes are looked up last.
 */
module Addresses {
  import opened Base

  newtype byte = x: int | 0 <= x < 256

  datatype Addr = Addr(block: nat, offset: nat)

  type Memory = map<Addr, byte>

  /** The `len` consecutive addresses of `block` that begin at `start`. */
  function Interval(block: nat, start: nat, len: nat): (r: seq<Addr>)
    ensures |r| == len
    ensures forall i :: 0 <= i < len ==> r[i] == Addr(block, start + i)
  {
    seq(len, i requires 0 <= i => Addr(block, start + i))
  }

  /** The byte stored at an address; an unmapped address reads as zero. */
  function Load(mem: Memory, a: Addr): byte {
    if a in mem then mem[a] else 0
  }

  function Read(mem: Memory, addrs: seq<Addr>): (r: seq<byte>)
    ensures |r| == |addrs|
    ensures forall i :: 0 <= i < |addrs| ==> r[i] == Load(mem, addrs[i])
  {
    seq(|addrs|, i requires 0 <= i < |addrs| => Load(mem, addrs[i]))
  }

  /** Stores `src[i]` at `addrs[i]`, in order. */
  function Write(mem: Memory, addrs: seq<Addr>, src: seq<byte>): Memory
    requires |addrs| == |src|
    decreases |src|
  {
    if src == [] then mem else Write(mem[addrs[0] := src[0]], addrs[1..], src[1..])
  }

  lemma {:induction false} WriteAppend(mem: Memory, a: seq<Addr>, b: seq<Addr>, s: seq<byte>, t: seq<byte>)
    requires |a| == |s| && |b| == |t|
    ensures Write(mem, a + b, s + t) == Write(Write(mem, a, s), b, t)
    decreases |s|
  {
    if s == [] {
      assert a + b == b && s + t == t;
    } else {
      assert (a + b)[1..] == a[1..] + b && (s + t)[1..] == s[1..] + t;
      WriteAppend(mem[a[0] := s[0]], a[1..], b, s[1..], t);
    }
  }

  /** A write is invisible at every address it does not name. */
  lemma {:induction false} WriteElsewhere(mem: Memory, addrs: seq<Addr>, src: seq<byte>, a: Addr)
    requires |addrs| == |src|
    requires a !in addrs
    ensures Load(Write(mem, addrs, src), a) == Load(mem, a)
    decreases |src|
  {
    if src != [] {
      WriteElsewhere(mem[addrs[0] := src[0]], addrs[1..], src[1..], a);
    }
  }

  /** What was written to distinct addresses can be read back. */
  lemma {:induction false} ReadWritten(mem: Memory, addrs: seq<Addr>, src: seq<byte>)
    requires |addrs| == |src|
    requires NoDuplicates(addrs)
    ensures Read(Write(mem, addrs, src), addrs) == src
    decreases |src|
  {
    if src != [] {
      var mem1 := mem[addrs[0] := src[0]];
      ReadWritten(mem1, addrs[1..], src[1..]);
      WriteElsewhere(mem1, addrs[1..], src[1..], addrs[0]);
      var r := Read(Write(mem, addrs, src), addrs);
      assert forall i :: 1 <= i < |addrs| ==> r[i] == Read(Write(mem1, addrs[1..], src[1..]), addrs[1..])[i - 1];
    }
  }

  lemma ReadElsewhere(mem: Memory, addrs: seq<Addr>, src: seq<byte>, other: seq<Addr>)
    requires |addrs| == |src|
    requires Disjoint(addrs, other)
    ensures Read(Write(mem, addrs, src), other) == Read(mem, other)
  {
    forall i | 0 <= i < |other|
      ensures Load(Write(mem, addrs, src), other[i]) == Load(mem, other[i])
    {
      WriteElsewhere(mem, addrs, src, other[i]);
    }
  }

  lemma ReadAppend(mem: Memory, a: seq<Addr>, b: seq<Addr>)
    ensures Read(mem, a + b) == Read(mem, a) + Read(mem, b)
  {
  }
}
