/** How the state looks to one task, and what a step leaves alone. */
module ExecutorFrames {
  import opened Base
  import opened ExecutorState
  import opened ExecutorInvariant

  lemma OccPop(ids: seq<TaskId>, t: TaskId)
    requires ids != []
    ensures Occ(ids, t) == Occ(ids[1..], t) + if t == ids[0] then 1 else 0
  {
    assert ids == [ids[0]] + ids[1..];
  }

  lemma OccAppend(a: seq<TaskId>, b: seq<TaskId>, t: TaskId)
    ensures Occ(a + b, t) == Occ(a, t) + Occ(b, t)
  {
  }

  lemma OccPush(ids: seq<TaskId>, x: TaskId, t: TaskId)
    ensures Occ(ids + [x], t) == Occ(ids, t) + if t == x then 1 else 0
  {
  }

  lemma {:induction false} OccWithout(ids: seq<TaskId>, x: TaskId, t: TaskId)
    ensures Occ(Without(ids, x), t) == if t == x then 0 else Occ(ids, t)
  {
    if ids != [] {
      OccPop(ids, t);
      OccWithout(ids[1..], x, t);
    }
  }

  lemma ViewTask(s: State, t: TaskId)
    ensures View(s, t).task == Get(s, t)
  {
  }

  lemma PutView(s: State, u: TaskId, k: Task, t: TaskId)
    ensures EnvOf(Put(s, u, k)) == EnvOf(s)
    ensures View(Put(s, u, k), t) == if t == u then View(s, u).(known := true, task := k) else View(s, t)
  {
    hide Occ;
  }

  /** A step that changes one task, keeps the environment, and keeps the global part. */
  lemma OneTaskKeeps(s: State, s': State, u: TaskId)
    requires Global(s') && TaskInv(s', u) && EnvOf(s') == EnvOf(s)
    requires forall t: TaskId {:trigger TaskInv(s', t)} :: t != u ==> TaskInv(s, t) && View(s', t) == View(s, t)
    ensures Inv(s')
  {
    hide View, MineInv, EnvOf, Global;
  }

  /** A step that changes no task and keeps the environment. */
  lemma NoTaskKeeps(s: State, s': State)
    requires Inv(s) && Global(s') && EnvOf(s') == EnvOf(s)
    requires forall t: TaskId :: View(s', t) == View(s, t)
    ensures Inv(s')
  {
    hide View, MineInv, EnvOf, Global;
    forall t ensures TaskInv(s', t) {
      assert TaskInv(s, t);
    }
  }

  lemma SenderSeen(s: State, t: TaskId)
    requires Get(s, t).calls.sent > 0
    ensures SomeSender(s)
  {
  }

  lemma NotifierSeen(s: State, t: TaskId)
    requires Get(s, t).calls.notifying > 0
    ensures SomeNotifier(s)
  {
  }

  /** The calls that send and notify are still there when one task's calls do not lose any. */
  lemma CallsKept(s: State, s': State, u: TaskId)
    requires forall t: TaskId :: t != u ==> Get(s', t) == Get(s, t)
    ensures Get(s', u).calls.sent >= Get(s, u).calls.sent && SomeSender(s) ==> SomeSender(s')
    ensures Get(s', u).calls.notifying >= Get(s, u).calls.notifying && SomeNotifier(s) ==> SomeNotifier(s')
  {
    hide Get;
    if Get(s', u).calls.sent >= Get(s, u).calls.sent && SomeSender(s) {
      var t: TaskId :| Get(s, t).calls.sent > 0;
      assert Get(s', t).calls.sent > 0;
    }
    if Get(s', u).calls.notifying >= Get(s, u).calls.notifying && SomeNotifier(s) {
      var t: TaskId :| Get(s, t).calls.notifying > 0;
      assert Get(s', t).calls.notifying > 0;
    }
  }

  lemma PutSignalled(s: State, u: TaskId, k: Task)
    requires Signalled(s)
    requires k.calls.sent >= Get(s, u).calls.sent && k.calls.notifying >= Get(s, u).calls.notifying
    ensures Signalled(Put(s, u, k))
  {
    hide SomeSender, SomeNotifier;
    CallsKept(s, Put(s, u, k), u);
  }

  lemma OccSomewhere(ids: seq<TaskId>)
    ensures ids != [] ==> exists t :: Occ(ids, t) > 0
  {
    if ids != [] {
      assert Occ(ids, ids[0]) > 0;
    }
  }

  /** Program counters that single out no task. */
  predicate Plain(pc: Pc) {
    !pc.Polling? && !pc.Ending? && !pc.Clearing?
  }

  lemma QuietView(s: State, s': State, t: TaskId)
    requires s'.tasks == s.tasks && s'.queues == s.queues && s'.channel.messages == s.channel.messages
    requires s'.owner.hand == s.owner.hand && s'.owner.polledNow == s.owner.polledNow && Plain(s'.owner.pc)
    requires Plain(s.owner.pc) || (s.owner.pc.Clearing? && s.owner.pc.from >= |s.queues.active|)
    ensures View(s', t) == View(s, t)
  {
    assert s.owner.pc.Clearing? && s.owner.pc.from <= |s.queues.active| ==> s.queues.active[s.owner.pc.from..] == [];
  }

  /** A step that only moves the owner on, between program counters that single out no task. */
  lemma QuietKeeps(s: State, s': State)
    requires Inv(s) && Global(s') && EnvOf(s') == EnvOf(s)
    requires s'.tasks == s.tasks && s'.queues == s.queues && s'.channel.messages == s.channel.messages
    requires s'.owner.hand == s.owner.hand && s'.owner.polledNow == s.owner.polledNow && Plain(s'.owner.pc)
    requires Plain(s.owner.pc) || (s.owner.pc.Clearing? && s.owner.pc.from >= |s.queues.active|)
    ensures Inv(s')
  {
    hide View, Global, TaskInv;
    forall t ensures View(s', t) == View(s, t) { QuietView(s, s', t); }
    NoTaskKeeps(s, s');
  }

  /** What the global part says about where the owner is. */
  lemma OwnerFacts(s: State)
    requires Global(s)
    ensures NoActive(s.owner.pc) ==> s.queues.active == []
    ensures s.owner.pc.Polling? || (s.owner.pc.Ending? && s.owner.pc.inLoop) ==>
      s.queues.active != [] && s.queues.active[0] == s.owner.pc.t
    ensures s.owner.pc.Ending? && s.owner.pc.kind.Cancels? ==> s.owner.cause.Some?
    ensures InAbort(s.owner.pc) ==> s.channel.closed
    ensures s.owner.pc.AbortHead? ==> s.queues.pending == []
    ensures !s.owner.pc.Draining? && !UserCode(s.owner.pc) ==> s.owner.hand.Empty?
    ensures Early(s.owner.pc) ==> s.owner.polledNow == {}
  {
    hide OwnedSet, SomeSender, SomeNotifier;
  }

  lemma OwnedByQueues(m: Mine, e: Env)
    requires MineInv(m, e) && !Queued(m) && !InLocal(m)
    ensures m.places.awakened == 0 && !m.task.payload && m.task.sched == Retired
  {
    hide FirstCause, Lent, Unpolled, Counted;
  }

  /** Once the queues are closed and empty, the wake queue is empty too. */
  lemma ClosedIsEmpty(s: State)
    requires Inv(s) && s.channel.closed && !InAbort(s.owner.pc)
    ensures s.queues == Queues([], [], [], [])
    ensures forall t: TaskId :: Get(s, t).sched == Retired && !Get(s, t).payload
  {
    assert s.queues.submitted == [] && s.queues.active == [] && s.queues.pending == [] by { hide TaskInv; }
    forall t: TaskId ensures Get(s, t).sched == Retired && !Get(s, t).payload && Occ(s.queues.awakened, t) == 0 {
      hide MineInv, Global;
      assert TaskInv(s, t);
      OwnedByQueues(View(s, t), EnvOf(s));
    }
    OccSomewhere(s.queues.awakened);
  }

  lemma OwnedIgnoresWakes(q: Queues, awakened: seq<TaskId>)
    ensures OwnedSet(q.(awakened := awakened)) == OwnedSet(q)
  {
  }

  lemma SameTasks(s: State, s': State)
    requires s'.tasks == s.tasks
    ensures SomeSender(s) ==> SomeSender(s')
    ensures SomeNotifier(s) ==> SomeNotifier(s')
  {
    hide SomeSender, SomeNotifier;
    CallsKept(s, s', 0);
  }

  /** A step that leaves every task's calls alone leaves the sending and notifying calls alone. */
  lemma SameCalls(s: State, s': State, u: TaskId, k: Task)
    requires s'.tasks == s.tasks[u := k] && k.calls == Get(s, u).calls
    ensures SomeSender(s) ==> SomeSender(s')
    ensures SomeNotifier(s) ==> SomeNotifier(s')
  {
    hide SomeSender, SomeNotifier;
    CallsKept(s, s', u);
  }

  /** The first published cause explains every outcome told before it was published. */
  lemma CauseLocal(m: Mine, e: Env, cause: Option<Cause>)
    requires MineInv(m, e) && (e.cause == None || e.cause == cause)
    ensures MineInv(m, e.(cause := cause))
  {
  }
}
