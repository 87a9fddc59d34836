/**
 The thread-local state of an executor's owner thread: its wake queue and its executing flag. Each method
 does to the queue what the executor's step does to it.
 */
module OwnerContexts {
  import opened Base
  import opened ExecutorState
  import opened ExecutorInvariant
  import opened ExecutorFrames
  import opened ExecutorRuns

  type ThreadId = nat

  lemma {:induction false} WithoutSnoc(ids: seq<TaskId>, x: TaskId, t: TaskId)
    ensures Without(ids + [x], t) == Without(ids, t) + if x == t then [] else [x]
  {
    if ids == [] {
      assert ids + [x] == [x];
      assert [x][1..] == [];
    } else {
      assert (ids + [x])[1..] == ids[1..] + [x];
      WithoutSnoc(ids[1..], x, t);
      Associative(if ids[0] == t then [] else [ids[0]], Without(ids[1..], t), if x == t then [] else [x]);
    }
  }

  /** The owner is about to retire a task that is scheduled locally. */
  predicate Retires(s: State, task: TaskId) {
    s.owner.pc.Ending? && s.owner.pc.t == task && Get(s, task).sched == Local
  }

  // ---- Clearing the wake queue, one notification after the other ----

  /** The state after every queued notification has been dropped. */
  function DropAll(s: State): State
    decreases |s.queues.awakened|
  {
    if s.queues.awakened == [] then s else DropAll(DoDropAwakened(s))
  }

  lemma DropOne(s: State, t: TaskId)
    requires s.queues.awakened != []
    ensures var s' := DoDropAwakened(s);
      && s'.queues == s.queues.(awakened := s.queues.awakened[1..]) && s'.channel == s.channel && s'.owner == s.owner
      && Get(s', t) == if t == s.queues.awakened[0] then Release(Get(s, t)) else Get(s, t)
  {
  }

  /** Clearing empties the queue and nothing else, and each task loses one reference per notification. */
  lemma {:induction false} DropAllReleases(s: State, t: TaskId)
    ensures var s' := DropAll(s);
      && s'.queues == s.queues.(awakened := []) && s'.channel == s.channel && s'.owner == s.owner
      && Get(s', t) == Get(s, t).(count := SaturatingSub(Get(s, t).count, Occ(s.queues.awakened, t)))
    decreases |s.queues.awakened|
  {
    hide DoDropAwakened, Get, Occ;
    if s.queues.awakened == [] {
      assert Occ(s.queues.awakened, t) == 0 by { NothingOccurs(t); }
    } else {
      DropOne(s, t);
      OccPop(s.queues.awakened, t);
      DropAllReleases(DoDropAwakened(s), t);
    }
  }

  lemma NothingOccurs(t: TaskId)
    ensures Occ([], t) == 0
  {
  }

  /** It is a run of the executor: as many drops as there are notifications. */
  lemma {:induction false} DropAllIsARun(s: State)
    requires s.owner.pc.Preparing?
    ensures var steps := seq(|s.queues.awakened|, _ => AtEnd(DropAwakened));
      CanRun(s, steps) && Run(s, steps) == DropAll(s)
    decreases |s.queues.awakened|
  {
    if s.queues.awakened != [] {
      var n := |s.queues.awakened|;
      assert seq(n, _ => AtEnd(DropAwakened))[1..] == seq(n - 1, _ => AtEnd(DropAwakened));
      DropAllIsARun(DoDropAwakened(s));
    }
  }

  class OwnerContext {
    var owner: Option<ThreadId>
    var awakened: seq<TaskId>
    var executing: bool

    constructor ()
      ensures owner == None && awakened == [] && !executing
    {
      owner, awakened, executing := None, [], false;
    }

    predicate IsCurrent(thread: ThreadId)
      reads this
    {
      owner == Some(thread)
    }

    /** This is the wake queue of an executor in that state. */
    ghost predicate Holds(s: State)
      reads this
    {
      awakened == s.queues.awakened
    }

    /** `register`: only one executor may live on a thread. */
    method Register(thread: ThreadId)
      requires owner == None
      modifies this
      ensures IsCurrent(thread) && awakened == [] && !executing
    {
      owner, awakened, executing := Some(thread), [], false;
    }

    /** `unregister`: an executor unregisters on its own thread. */
    method Unregister(thread: ThreadId)
      requires IsCurrent(thread)
      modifies this
      ensures owner == None && awakened == [] && !executing
    {
      owner, awakened, executing := None, [], false;
    }

    /** `enter_cycle`; a cycle is not reentrant. The guard's drop is `LeaveCycle`. */
    method EnterCycle(thread: ThreadId)
      requires IsCurrent(thread) && !executing
      modifies this`executing
      ensures executing
    {
      executing := true;
    }

    method LeaveCycle()
      modifies this`executing
      ensures !executing
    {
      executing := false;
    }

    /**
     `enqueue`: on the owner's thread this is the last access of a local wake and of a promoted remote one.
     On any other thread the handle comes back and the queue is as it was; no handle is lost or doubled.
     */
    method Enqueue(thread: ThreadId, task: TaskId) returns (handedBack: Option<TaskId>)
      modifies this`awakened
      ensures handedBack.None? <==> IsCurrent(thread)
      ensures forall s: State :: old(Holds(s)) && IsCurrent(thread) && s.owner.hand == Promoted(task) ==>
        Holds(DoEnqueue(s))
      ensures forall s: State :: old(Holds(s)) && IsCurrent(thread) && s.owner.hand == Waking(task) ==>
        Holds(DoEnqueueLocal(s))
      ensures forall t :: Occ(awakened, t) + (if handedBack == Some(t) then 1 else 0)
                       == Occ(old(awakened), t) + (if t == task then 1 else 0)
      ensures old(awakened) <= awakened
    {
      if !IsCurrent(thread) {
        return Some(task);
      }
      awakened := awakened + [task];
      handedBack := None;
    }

    /** `append_wakes`: every queued wake moves to the end of the target, in order, as the executor's append does. */
    method AppendWakes(thread: ThreadId, target: seq<TaskId>) returns (appended: seq<TaskId>)
      modifies this`awakened
      ensures appended + awakened == target + old(awakened)
      ensures forall s: State :: old(Holds(s)) && IsCurrent(thread) && s.queues.active == target ==>
        Holds(DoAppendWakes(s)) && appended == DoAppendWakes(s).queues.active
      ensures !IsCurrent(thread) ==> appended == target
    {
      appended := target;
      if IsCurrent(thread) {
        appended := target + awakened;
        awakened := [];
      }
    }

    /** `remove_wake`: every notification of the task goes, the others stay, as when a scheduled task is retired. */
    method RemoveWake(thread: ThreadId, task: TaskId)
      modifies this`awakened
      ensures awakened == if IsCurrent(thread) then Without(old(awakened), task) else old(awakened)
      ensures IsCurrent(thread) ==>
        forall t :: Occ(awakened, t) == if t == task then 0 else Occ(old(awakened), t)
      ensures forall s: State :: old(Holds(s)) && IsCurrent(thread) && Retires(s, task) ==> Holds(DoRetireSignal(s))
    {
      if IsCurrent(thread) {
        var kept: seq<TaskId>, i := [], 0;
        assert awakened[..0] == [] && Without([], task) == [];
        hide Without, Occ;
        while i < |awakened|
          invariant i <= |awakened| && awakened == old(awakened) && kept == Without(awakened[..i], task)
        {
          WithoutSnoc(awakened[..i], awakened[i], task);
          assert awakened[..i + 1] == awakened[..i] + [awakened[i]];
          if awakened[i] != task {
            kept := kept + [awakened[i]];
          }
          i := i + 1;
        }
        assert awakened[..|awakened|] == awakened;
        forall t ensures Occ(kept, t) == if t == task then 0 else Occ(awakened, t) {
          OccWithout(awakened, task, t);
        }
        awakened := kept;
      }
    }

    /** `clear_wakes`: every notification is dropped, as the executor's abort does one by one. */
    method ClearWakes(thread: ThreadId)
      modifies this`awakened
      ensures forall s: State :: old(Holds(s)) && IsCurrent(thread) ==> Holds(DropAll(s))
      ensures !IsCurrent(thread) ==> awakened == old(awakened)
    {
      if IsCurrent(thread) {
        forall s: State | Holds(s) ensures DropAll(s).queues.awakened == [] {
          DropAllReleases(s, 0);
        }
        awakened := [];
      }
    }
  }
}
