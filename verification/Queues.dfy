/**
 The abstract buffer: the addresses of the unread data and the addresses that can still be
 written, both in content order. Every `BytesBuf` operation is one of these steps.
 */
module Queues {
  import opened Base
  import opened Addresses

  datatype Queue = Queue(data: seq<Addr>, free: seq<Addr>) {

    function Written(count: nat): Queue
      requires count <= |free|
    {
      Queue(data + free[..count], free[count..])
    }

    function Consumed(count: nat): Queue
      requires count <= |data|
    {
      Queue(data[count..], free)
    }

    function Appended(addrs: seq<Addr>): Queue {
      Queue(data + addrs, free)
    }

    function Reserved(more: seq<Addr>): Queue {
      Queue(data, free + more)
    }

    /** What is kept, and the new empty buffer, when `count` bytes of capacity are split off. */
    function Kept(count: nat): Queue
      requires count <= |free|
    {
      Queue(data, free[..|free| - count])
    }

    function SplitOff(count: nat): Queue
      requires count <= |free|
    {
      Queue([], free[|free| - count..])
    }
  }

  /** A buffer never reads what it may still write, and writes each address once. */
  ghost predicate Separate(q: Queue) {
    NoDuplicates(q.free) && Disjoint(q.free, q.data)
  }

  lemma WrittenIsSeparate(q: Queue, count: nat)
    requires Separate(q) && count <= |q.free|
    ensures Separate(q.Written(count)) && NoDuplicates(q.free[..count]) && Disjoint(q.free[..count], q.data)
  {
  }

  /** Writing the first free addresses appends the written bytes to the content. */
  lemma WrittenContent(mem: Memory, q: Queue, src: seq<byte>)
    requires Separate(q) && |src| <= |q.free|
    ensures Read(Write(mem, q.free[..|src|], src), q.Written(|src|).data) == Read(mem, q.data) + src
    ensures Separate(q.Written(|src|))
  {
    hide Read, Write, Separate, NoDuplicates, Disjoint;
    WrittenIsSeparate(q, |src|);
    ReadWritten(mem, q.free[..|src|], src);
    ReadElsewhere(mem, q.free[..|src|], src, q.data);
    ReadAppend(Write(mem, q.free[..|src|], src), q.data, q.free[..|src|]);
  }
}
