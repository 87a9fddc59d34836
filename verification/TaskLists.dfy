/** The intrusive list of pending tasks: links live in the tasks, and the list refines a sequence. */
module TaskLists {
  import opened Base

  /**
   The links of one task, and its strong references: those in the hands of callers, and the raw one that a
   list took over and owns.
   */
  class TaskNode {
    var previous: TaskNode?
    var next: TaskNode?
    var linked: bool
    ghost var handles: nat
    ghost var raw: nat

    /** A new task has one handle. */
    constructor ()
      ensures !linked && previous == null && next == null && handles == 1 && Owned()
    {
      previous, next, linked := null, null, false;
      handles, raw := 1, 0;
    }

    /** A link owns exactly one reference, and nothing else holds a raw one. */
    ghost predicate Owned()
      reads this
    {
      raw == if linked then 1 else 0
    }

    ghost function StrongCount(): nat
      reads this
    {
      handles + raw
    }

    /** `TaskHandle::into_raw`: the handle is forgotten, its reference is not released. */
    ghost method IntoRaw()
      requires handles > 0
      modifies this`handles, this`raw
      ensures handles == old(handles) - 1 && raw == old(raw) + 1
    {
      handles, raw := handles - 1, raw + 1;
    }

    /** `TaskPtr::into_handle`: a raw reference becomes a handle again. */
    ghost method IntoHandle()
      requires raw > 0
      modifies this`handles, this`raw
      ensures handles == old(handles) + 1 && raw == old(raw) - 1
    {
      handles, raw := handles + 1, raw - 1;
    }

    /** Dropping a handle releases its reference. */
    ghost method DropHandle()
      requires handles > 0
      modifies this`handles
      ensures handles == old(handles) - 1
    {
      handles := handles - 1;
    }
  }

  /** The references of a node are where they were. */
  twostate predicate SameReferences(node: TaskNode)
    reads node
  {
    node.handles == old(node.handles) && node.raw == old(node.raw)
  }

  /** Where a sequence without repetitions holds a node. */
  ghost function IndexOf(nodes: seq<TaskNode>, node: TaskNode): (i: nat)
    requires node in nodes
    ensures i < |nodes| && nodes[i] == node
  {
    var i :| 0 <= i < |nodes| && nodes[i] == node; i
  }

  /** The sequence without its `i`-th entry. */
  ghost function DropAt(nodes: seq<TaskNode>, i: nat): (rest: seq<TaskNode>)
    requires i < |nodes|
    ensures |rest| == |nodes| - 1
    ensures forall k :: 0 <= k < |rest| ==> rest[k] == nodes[if k < i then k else k + 1]
  {
    nodes[..i] + nodes[i + 1..]
  }

  lemma DropAtKeepsDistinct(nodes: seq<TaskNode>, i: nat)
    requires NoDuplicates(nodes) && i < |nodes|
    ensures NoDuplicates(DropAt(nodes, i)) && nodes[i] !in DropAt(nodes, i)
  {
  }

  lemma PastIsGone(nodes: seq<TaskNode>, i: nat)
    requires NoDuplicates(nodes) && i <= |nodes|
    ensures forall k :: 0 <= k < i ==> nodes[k] !in nodes[i..]
  {
  }

  /** Neighbours point at each other. */
  ghost predicate Chained(nodes: seq<TaskNode>)
    reads nodes
  {
    forall i, j :: 0 <= i < |nodes| && 0 <= j < |nodes| && j == i + 1 ==>
      nodes[i].next == nodes[j] && nodes[j].previous == nodes[i]
  }

  /** When neighbours around an entry are linked, and all others still are, the rest is chained. */
  lemma RestIsChained(was: seq<TaskNode>, i: nat)
    requires i < |was|
    requires forall a, b :: 0 <= a < |was| && 0 <= b < |was| && b == a + 1 && a != i && b != i ==>
      was[a].next == was[b] && was[b].previous == was[a]
    requires 0 < i < |was| - 1 ==> was[i - 1].next == was[i + 1] && was[i + 1].previous == was[i - 1]
    ensures Chained(DropAt(was, i))
  {
    var nodes := DropAt(was, i);
    forall a, b | 0 <= a < |nodes| && 0 <= b < |nodes| && b == a + 1
      ensures nodes[a].next == nodes[b] && nodes[b].previous == nodes[a]
    {
      if b < i {
        assert nodes[a] == was[a] && nodes[b] == was[b];
      } else if i <= a {
        assert nodes[a] == was[a + 1] && nodes[b] == was[b + 1];
      } else {
        assert nodes[a] == was[i - 1] && nodes[b] == was[i + 1];
      }
    }
  }

  class TaskList {
    var head: TaskNode?
    var tail: TaskNode?
    /** The linked tasks, in order. */
    ghost var nodes: seq<TaskNode>

    ghost predicate Valid()
      reads this, nodes
    {
      && NoDuplicates(nodes)
      && (forall i :: 0 <= i < |nodes| ==> nodes[i].linked && nodes[i].raw == 1)
      && Chained(nodes)
      && (if nodes == [] then head == null && tail == null else
            && head == nodes[0] && head.previous == null
            && tail == nodes[|nodes| - 1] && tail.next == null)
    }

    constructor ()
      ensures Valid() && nodes == []
    {
      head, tail, nodes := null, null, [];
    }

    predicate IsEmpty()
      requires Valid()
      reads this, nodes
      ensures IsEmpty() <==> nodes == []
    {
      head == null
    }

    /** Appends the task, and moves the caller's reference into the link; a task may be linked only once. */
    method Insert(node: TaskNode)
      requires Valid() && !node.linked && node.Owned() && node.handles > 0
      modifies this, node, tail
      ensures Valid() && nodes == old(nodes) + [node]
      ensures node.Owned() && node.handles == old(node.handles) - 1 && node.StrongCount() == old(node.StrongCount())
      ensures forall other :: other in old(nodes) ==> SameReferences(other)
    {
      node.linked := true;
      node.previous := tail;
      node.next := null;
      if tail != null {
        tail.next := node;
      } else {
        head := node;
      }
      tail := node;
      node.IntoRaw();
      nodes := nodes + [node];
    }

    /** Makes two neighbours point at each other; a missing one is the end of the list. */
    method Join(previous: TaskNode?, next: TaskNode?)
      requires previous == null || previous != next
      modifies this`head, this`tail, previous, next
      ensures previous == null ==> head == next
      ensures previous != null ==>
        && previous.next == next && head == old(head)
        && previous.previous == old(previous.previous) && previous.linked == old(previous.linked)
        && SameReferences(previous)
      ensures next == null ==> tail == previous
      ensures next != null ==>
        && next.previous == previous && tail == old(tail)
        && next.next == old(next.next) && next.linked == old(next.linked)
        && SameReferences(next)
    {
      if previous != null {
        previous.next := next;
      } else {
        head := next;
      }
      if next != null {
        next.previous := previous;
      } else {
        tail := previous;
      }
    }

    /** Takes a linked task out of the list; the reference of the link is left to the caller. */
    method Unlink(node: TaskNode)
      requires Valid() && node in nodes
      modifies this, node, node.previous, node.next
      ensures Valid() && !node.linked && node !in nodes && node.previous == null && node.next == null
      ensures nodes == old(DropAt(nodes, IndexOf(nodes, node)))
      ensures forall other :: other in old(nodes) ==> SameReferences(other)
    {
      ghost var was, i := nodes, IndexOf(nodes, node);
      assert if i == 0 then node.previous == null else node.previous == was[i - 1];
      assert if i == |was| - 1 then node.next == null else node.next == was[i + 1];
      var previous, next := node.previous, node.next;
      assert forall k :: 0 <= k < |was| ==>
        (k != i ==> was[k] != node) && (k + 1 != i ==> was[k] != previous) && (k != i + 1 ==> was[k] != next);
      DropAtKeepsDistinct(was, i);
      hide NoDuplicates;
      node.linked := false;
      node.previous, node.next := null, null;
      Join(previous, next);
      nodes := DropAt(nodes, i);
      RestIsChained(was, i);
    }

    /** Unlinks the task wherever it is and gives back the link's reference; does nothing to an unlinked task. */
    method Remove(node: TaskNode) returns (handle: TaskNode?)
      requires Valid() && (node.linked ==> node in nodes) && node.Owned()
      modifies this, node, node.previous, node.next
      ensures Valid() && !node.linked && node !in nodes
      ensures node.Owned() && node.StrongCount() == old(node.StrongCount())
      ensures node.handles == old(node.handles) + if handle == node then 1 else 0
      ensures forall other :: other in old(nodes) && other != node ==> SameReferences(other)
      ensures !old(node.linked) ==> handle == null && nodes == old(nodes)
      ensures old(node.linked) ==>
        && handle == node && node.previous == null && node.next == null
        && nodes == old(DropAt(nodes, IndexOf(nodes, node)))
    {
      if !node.linked {
        return null;
      }
      Unlink(node);
      node.IntoHandle();
      handle := node;
    }

    /** Unlinks the first task. */
    method PopFront() returns (handle: TaskNode?)
      requires Valid()
      modifies this, nodes
      ensures Valid()
      ensures old(nodes) == [] ==> handle == null && nodes == []
      ensures old(nodes) != [] ==>
        && handle == old(nodes)[0] && nodes == old(nodes)[1..] && !handle.linked
        && handle.Owned() && handle.handles == old(handle.handles) + 1
      ensures forall other :: other in nodes ==> other in old(nodes) && SameReferences(other)
    {
      if head == null {
        return null;
      }
      assert head == nodes[0] && (|nodes| > 1 ==> head.next == nodes[1]);
      handle := Remove(head);
    }

    /** Pops the first task and drops its handle. */
    method DropFront()
      requires Valid() && nodes != []
      modifies this, nodes
      ensures Valid() && nodes == old(nodes)[1..]
      ensures var first := old(nodes)[0]; !first.linked && first.raw == 0 && first.handles == old(first.handles)
      ensures forall other :: other in nodes ==> other in old(nodes) && SameReferences(other)
    {
      var first := PopFront();
      first.DropHandle();
    }

    /** Dropping the list unlinks every task, first to last, and releases exactly the references of its links. */
    method Drop()
      requires Valid()
      modifies this, nodes
      ensures Valid() && nodes == []
      ensures forall node :: node in old(nodes) ==>
        !node.linked && node.Owned() && node.StrongCount() == old(node.StrongCount()) - 1
    {
      ghost var was, done: nat := nodes, 0;
      assert NoDuplicates(was);
      hide TaskList.Valid, TaskList.IsEmpty, NoDuplicates;
      while !IsEmpty()
        invariant Valid() && NoDuplicates(was) && done <= |was| && nodes == was[done..]
        invariant forall k :: 0 <= k < done ==> !was[k].linked && was[k].raw == 0
        invariant forall k :: 0 <= k < |was| ==> was[k].handles == old(was[k].handles)
        decreases |nodes|
      {
        PastIsGone(was, done);
        label Before:
        DropFront();
        forall k | 0 <= k < |was| ensures was[k].handles == old@Before(was[k].handles) {
          if k > done {
            assert was[k] == nodes[k - done - 1];
            assert SameReferences@Before(was[k]);
          }
        }
        done := done + 1;
      }
    }
  }
}
