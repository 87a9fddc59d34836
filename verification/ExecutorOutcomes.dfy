/** Every task gets exactly one outcome, its references are counted exactly, and shutdown takes one cycle. */
module ExecutorOutcomes {
  import opened Base
  import opened ExecutorState
  import opened ExecutorEvents
  import opened ExecutorInvariant
  import opened ExecutorFrames
  import opened ExecutorAborts
  import opened ExecutorRuns
  import opened ExecutorWakes
  import opened ExecutorSuspends

  // ---- What no step takes back ----

  /** Outcomes are only added, once the payload is gone; retirement and the loss of the payload are final. */
  predicate Grows(k: Task, k': Task) {
    && (k'.outcomes == k.outcomes ||
        (!k.payload && k.sched == Retired && |k'.outcomes| == |k.outcomes| + 1 && k.outcomes <= k'.outcomes))
    && (k.sched == Retired ==> k'.sched == Retired)
    && (!k.payload ==> !k'.payload)
    && (k.polled ==> k'.polled)
  }

  lemma StartStepGrows(s: State, step: StartStep, t: TaskId)
    requires StartEnabled(s, step) && t in s.tasks
    ensures t in StartNext(s, step).tasks && Grows(Get(s, t), Get(StartNext(s, step), t))
  {
  }

  lemma LeaveGrows(s: State, t: TaskId)
    requires s.owner.pc.Ending? && s.queues.active != [] && t in s.tasks
    ensures t in DoLeave(s).tasks && Grows(Get(s, t), Get(DoLeave(s), t))
  {
    hide Without;
  }

  lemma DeliverGrows(s: State, t: TaskId)
    requires s.owner.pc.Ending? && t in s.tasks
    requires var k := Get(s, s.owner.pc.t); !k.payload && k.sched == Retired
    ensures t in DoDeliver(s).tasks && Grows(Get(s, t), Get(DoDeliver(s), t))
  {
    hide OutcomeOf;
  }

  lemma PollStepGrows(s: State, step: PollStep, t: TaskId)
    requires Inv(s) && PollEnabled(s, step) && t in s.tasks
    ensures t in PollNext(s, step).tasks && Grows(Get(s, t), Get(PollNext(s, step), t))
  {
    hide Inv, Without, DoLeave, DoDeliver;
    if step.Deliver? {
      DeliveredIsRetired(s);
      DeliverGrows(s, t);
    } else if step.Finish? && s.owner.pc.inLoop {
      LeaveGrows(s, t);
    }
  }

  lemma DeliveredIsRetired(s: State)
    requires Inv(s) && s.owner.pc.Ending? && s.owner.pc.stage.Delivering?
    ensures var k := Get(s, s.owner.pc.t); !k.payload && k.sched == Retired && k.outcomes == []
  {
    assert TaskInv(s, s.owner.pc.t);
    hide Global, Counted, Scheduled, Unpolled, FirstCause;
  }

  lemma EndStepGrows(s: State, step: EndStep, t: TaskId)
    requires EndEnabled(s, step) && t in s.tasks
    ensures t in EndNext(s, step).tasks && Grows(Get(s, t), Get(EndNext(s, step), t))
  {
  }

  lemma UserStepGrows(s: State, step: UserStep, t: TaskId)
    requires UserEnabled(s, step) && t in s.tasks
    ensures t in UserNext(s, step).tasks && Grows(Get(s, t), Get(UserNext(s, step), t))
  {
  }

  lemma WakerStepGrows(s: State, step: WakerStep, u: TaskId, t: TaskId)
    requires WakerEnabled(s, step, u) && t in s.tasks
    ensures t in WakerNext(s, step, u).tasks && Grows(Get(s, t), Get(WakerNext(s, step, u), t))
  {
  }

  lemma StepGrows(s: State, step: Step, t: TaskId)
    requires Inv(s) && Enabled(s, step) && t in s.tasks
    ensures t in Next(s, step).tasks && Grows(Get(s, t), Get(Next(s, step), t))
  {
    hide Inv, Grows, StartEnabled, StartNext, PollEnabled, PollNext, EndEnabled, EndNext;
    hide UserEnabled, UserNext, WakerEnabled, WakerNext;
    match step
    case AtStart(start) => StartStepGrows(s, start, t);
    case AtPoll(poll) => PollStepGrows(s, poll, t);
    case AtEnd(end) => EndStepGrows(s, end, t);
    case ByUser(user) => UserStepGrows(s, user, t);
    case ByWaker(call, u) => WakerStepGrows(s, call, u, t);
  }

  /** Over every run an outcome once told stays the only one, and a retired task stays retired. */
  lemma {:induction false} OutcomeIsFinal(s: State, steps: seq<Step>, t: TaskId)
    requires Inv(s) && CanRun(s, steps) && t in s.tasks
    ensures t in Run(s, steps).tasks && Get(s, t).outcomes <= Get(Run(s, steps), t).outcomes
    ensures Get(s, t).sched == Retired ==> Get(Run(s, steps), t).sched == Retired
    ensures !Get(s, t).payload ==> !Get(Run(s, steps), t).payload
    decreases |steps|
  {
    hide Inv, Enabled, Next, Get;
    if steps != [] {
      StepKeepsInv(s, steps[0]);
      StepGrows(s, steps[0], t);
      OutcomeIsFinal(Next(s, steps[0]), steps[1..], t);
    }
  }

  // ---- Exactly one outcome ----

  /** No task is told twice, and a task is told exactly when its payload is gone and delivery is over. */
  lemma ExactlyOneOutcome(s: State, t: TaskId)
    requires Reachable(s) && t in s.tasks
    ensures |Get(s, t).outcomes| <= 1
    ensures Get(s, t).payload ==> Get(s, t).outcomes == []
    ensures !Get(s, t).payload && !(s.owner.pc.Ending? && s.owner.pc.t == t && s.owner.pc.stage.Delivering?) ==>
      |Get(s, t).outcomes| == 1
    ensures Live(s, t) ==> Get(s, t).payload
  {
    ReachableInv(s);
    assert TaskInv(s, t);
    hide Global, Counted, Scheduled, Unpolled, FirstCause;
  }

  /** What a target is told when its task ends in a certain way, after the cause `known` was published, if any. */
  predicate Tells(o: Outcome, kind: Kind, shutdownOnPanic: bool, known: Option<Cause>) {
    && KindOf(o) == kind
    && (o.Panicked? ==> (shutdownOnPanic ==> o.shutdown.Some?) && (known.Some? ==> o.shutdown == known))
    && (o.Cancelled? ==> known == Some(o.cause))
  }

  /** The task is being ended in this way, or has been told so. */
  predicate EndsAs(s: State, t: TaskId, kind: Kind, known: Option<Cause>) {
    var k := Get(s, t);
    || (EndingAs(s.owner.pc, t, kind) && (known.Some? ==> s.owner.cause == known))
    || (t in s.tasks && |k.outcomes| == 1 && Tells(k.outcomes[0], kind, s.owner.shutdownOnPanic, known))
  }

  lemma DeliveryTells(s: State, known: Option<Cause>)
    requires Inv(s) && s.owner.pc.Ending? && s.owner.pc.stage.Delivering?
    requires EndsAs(s, s.owner.pc.t, s.owner.pc.kind, known) && (s.owner.pc.kind.Cancels? ==> known.Some?)
    ensures EndsAs(DoDeliver(s), s.owner.pc.t, s.owner.pc.kind, known)
  {
    DeliveredIsRetired(s);
    assert s.owner.pc.kind.Panics? && s.owner.shutdownOnPanic ==> s.owner.cause.Some? by { hide TaskInv; }
    hide Inv;
  }

  lemma AtMostOneOutcome(s: State, t: TaskId)
    requires Inv(s)
    ensures |Get(s, t).outcomes| <= 1
    ensures s.owner.pc.Ending? && s.owner.pc.t == t && !s.owner.pc.stage.Delivered? ==> Get(s, t).outcomes == []
  {
    assert TaskInv(s, t);
    hide Global, Counted, Scheduled, Unpolled, FirstCause;
  }

  lemma StepKeepsEnd(s: State, step: Step, t: TaskId, kind: Kind, known: Option<Cause>)
    requires Inv(s) && Enabled(s, step) && EndsAs(s, t, kind, known) && (kind.Cancels? ==> known.Some?)
    ensures EndsAs(Next(s, step), t, kind, known)
  {
    EndingIsUntold(s, t, kind);
    hide Inv, Get, Tells, EndingAs;
    StepRegisters(s, step);
    if step == AtPoll(Deliver) && EndingAs(s.owner.pc, t, kind) {
      EndingMeans(s.owner.pc, t, kind);
      DeliveryTells(s, known);
    } else if !EndingAs(s.owner.pc, t, kind) {
      StepKeepsInv(s, step);
      StepGrows(s, step, t);
      AtMostOneOutcome(Next(s, step), t);
      hide Next;
    } else {
      hide Next;
    }
  }

  lemma EndingIsUntold(s: State, t: TaskId, kind: Kind)
    requires Inv(s)
    ensures EndingAs(s.owner.pc, t, kind) ==> Get(s, t).outcomes == []
  {
    AtMostOneOutcome(s, t);
    hide Inv;
  }

  lemma EndingMeans(pc: Pc, t: TaskId, kind: Kind)
    requires EndingAs(pc, t, kind)
    ensures pc.Ending? && pc.t == t && pc.kind == kind
  {
  }

  lemma {:induction false} RunKeepsEnd(s: State, steps: seq<Step>, t: TaskId, kind: Kind, known: Option<Cause>)
    requires Inv(s) && CanRun(s, steps) && EndsAs(s, t, kind, known) && (kind.Cancels? ==> known.Some?)
    ensures EndsAs(Run(s, steps), t, kind, known)
    decreases |steps|
  {
    hide Inv, Enabled, Next, EndsAs;
    if steps != [] {
      StepKeepsInv(s, steps[0]);
      StepKeepsEnd(s, steps[0], t, kind, known);
      RunKeepsEnd(Next(s, steps[0]), steps[1..], t, kind, known);
    }
  }

  /**
   Over every run a target is told how its task ended: that its future completed, that it panicked, with the
   cause of the shutdown if there is one, or that it was cancelled for the cause already published.
   */
  lemma TargetIsToldTheTruth(s: State, step: Step, steps: seq<Step>, t: TaskId, kind: Kind)
    requires Reachable(s) && Enabled(s, step) && Ends(s, step, t, kind) && CanRun(Next(s, step), steps)
    ensures var told := Get(Run(Next(s, step), steps), t).outcomes;
      told == [] || (|told| == 1 && Tells(told[0], kind, s.owner.shutdownOnPanic, s.owner.cause))
  {
    var s0 := Next(s, step);
    var s' := Run(s0, steps);
    ReachableInv(s);
    StepKeepsInv(s, step);
    StepRegisters(s, step);
    CancelNeedsCause(s, step, t);
    RunKeepsInv(s0, steps);
    PolicyIsFixed(s0, steps);
    assert EndsAs(s0, t, kind, s.owner.cause) by { hide Inv, Enabled, Next, Get, Tells; }
    hide Inv, Enabled, Next, Reachable, Tells;
    RunKeepsEnd(s0, steps, t, kind, s.owner.cause);
    AtMostOneOutcome(s', t);
  }

  lemma {:induction false} PolicyIsFixed(s: State, steps: seq<Step>)
    requires CanRun(s, steps)
    ensures Run(s, steps).owner.shutdownOnPanic == s.owner.shutdownOnPanic
    decreases |steps|
  {
    hide Enabled, Next;
    if steps != [] {
      StepRegisters(s, steps[0]);
      PolicyIsFixed(Next(s, steps[0]), steps[1..]);
    }
  }

  /** When the executor is gone, and when a cycle reports Shutdown, every task has been told exactly once. */
  lemma ShutdownTellsEveryone(s: State, t: TaskId)
    requires Reachable(s) && s.channel.closed && !InAbort(s.owner.pc)
    ensures t in s.tasks ==> |Get(s, t).outcomes| == 1 && !Get(s, t).payload && !Live(s, t)
    ensures s.queues == Queues([], [], [], []) && s.owner.taskCount == 0
  {
    ReachableInv(s);
    ClosedIsEmpty(s);
    assert s.owner.taskCount == 0 by {
      assert OwnedSet(s.queues) == {};
      hide TaskInv;
    }
    assert TaskInv(s, t);
    ClosedEndsNothing(s);
    hide Global, Counted, Scheduled, Unpolled, FirstCause;
  }

  lemma ClosedEndsNothing(s: State)
    requires Inv(s) && s.channel.closed && !InAbort(s.owner.pc)
    ensures !s.owner.pc.Ending?
  {
    hide TaskInv;
  }

  /** All cancelled tasks, and all panics reported with a cause, are told the first published cause. */
  lemma CauseIsHeard(s: State, t: TaskId, o: Outcome)
    requires Reachable(s) && o in Get(s, t).outcomes
    ensures o.Cancelled? ==> s.owner.cause == Some(o.cause)
    ensures o.Panicked? && o.shutdown.Some? ==> s.owner.cause == o.shutdown
  {
    ReachableInv(s);
    assert TaskInv(s, t);
    hide Global, Counted, Scheduled, Unpolled, Owned;
  }

  // ---- Polling ----

  /** Each cycle polls a task at most once, and never after its retirement. */
  lemma PolledAtMostOnce(s: State)
    requires Reachable(s) && PollEnabled(s, PollBegin)
    ensures var t := s.queues.active[0];
            && t !in s.owner.polledNow && t !in s.queues.active[1..]
            && Live(s, t) && Get(s, t).payload && Get(s, t).outcomes == []
  {
    var t := s.queues.active[0];
    ReachableInv(s);
    assert TaskInv(s, t);
    OccPop(s.queues.active, t);
    hide Global, Unpolled, FirstCause, WakeKept;
  }

  // ---- Counting ----

  /** At a cycle boundary the count is the number of new and pending tasks. */
  lemma CountAtBoundary(s: State)
    requires Reachable(s) && s.owner.pc.Idle?
    ensures s.queues.active == [] && s.owner.taskCount == |s.queues.submitted| + |s.queues.pending|
  {
    ReachableInv(s);
    BatchIsCounted(s);
  }

  lemma BatchIsCounted(s: State)
    requires Inv(s) && NoActive(s.owner.pc)
    ensures s.queues.active == [] && s.owner.taskCount == |s.queues.submitted| + |s.queues.pending|
  {
    var q := s.queues;
    assert q.active == [] && s.owner.taskCount == |OwnedSet(q)| by { hide TaskInv; }
    assert q.active + q.submitted + q.pending == q.submitted + q.pending;
    BatchSize(q);
    forall t ensures Occ(q.submitted + q.pending, t) <= 1 {
      assert TaskInv(s, t);
      OccAppend(q.submitted, q.pending, t);
    }
    hide Inv;
    MembersSize(q.submitted + q.pending);
  }

  /** The count never drops below zero: both subtractions find what they take away. */
  lemma CountNeverUnderflows(s: State)
    requires Reachable(s)
    ensures s.owner.pc.Ending? && s.owner.pc.inLoop ==> s.owner.taskCount >= 1
    ensures s.owner.pc.Preparing? ==> s.owner.taskCount == |s.queues.active + s.queues.submitted + s.queues.pending|
  {
    ReachableInv(s);
    if s.owner.pc.Preparing? { BatchIsCounted(s); }
    if s.owner.pc.Ending? && s.owner.pc.inLoop {
      assert s.owner.pc.t in OwnedSet(s.queues) by { hide TaskInv; }
    }
    hide TaskInv;
  }

  /** The handles that schedule the task: in the owner's three queues, or in the abort loop's local. */
  function SchedulingHandles(s: State, t: TaskId): nat {
    Occ(s.queues.submitted, t) + Occ(s.queues.active, t) + Occ(s.queues.pending, t)
    + if s.owner.pc.Ending? && s.owner.pc.t == t && !s.owner.pc.inLoop then 1 else 0
  }

  /** The handles that notifications carry. */
  function NotificationHandles(s: State, t: TaskId): nat {
    Occ(s.queues.awakened, t) + Occ(s.channel.messages, t)
    + if s.owner.hand == Message(t) || s.owner.hand == Promoted(t) then 1 else 0
  }

  lemma HandlesOfView(s: State, t: TaskId)
    ensures Queued(View(s, t)) || InLocal(View(s, t)) ==> SchedulingHandles(s, t) > 0
    ensures Refs(View(s, t)) == SchedulingHandles(s, t) + NotificationHandles(s, t) + Remotely(Get(s, t))
  {
    hide Occ, Remotely;
  }

  lemma CountedOwned(m: Mine, e: Env)
    requires MineInv(m, e)
    ensures m.task.count == Refs(m) && (m.task.payload ==> Queued(m) || InLocal(m))
  {
    hide FirstCause, Lent, Unpolled, Scheduled, Refs, Queued, InLocal;
  }

  /** Every strong reference is accounted for, and a payload always has a scheduling handle. */
  lemma CountIsExact(s: State, t: TaskId)
    requires Reachable(s)
    ensures Get(s, t).count == SchedulingHandles(s, t) + NotificationHandles(s, t) + Remotely(Get(s, t))
    ensures Get(s, t).payload ==> SchedulingHandles(s, t) > 0
  {
    hide MineInv, Global, Refs, Queued, InLocal, SchedulingHandles, NotificationHandles, Remotely;
    ReachableInv(s);
    assert TaskInv(s, t);
    CountedOwned(View(s, t), EnvOf(s));
    HandlesOfView(s, t);
  }

  /** Some remote wake call is in flight. */
  predicate InCall(c: Calls) {
    c.won > 0 || c.sent > 0 || c.notifying > 0 || c.failed > 0 || c.cleared > 0 || c.done > 0
  }

  lemma CallsLocal(m: Mine, e: Env)
    requires MineInv(m, e)
    ensures InCall(m.task.calls) ==> m.task.count > 0
    ensures m.task.calls.done > 0 ==> m.task.calls.borrowing > 0 || m.task.calls.owning > 0
  {
    hide Owned, Scheduled, Unpolled, WakeKept, PolledOnce, FirstCause;
  }

  /**
   No call outlives the task it wakes, although calls that only borrow their waker hold no reference of
   their own, and a call that is done can always return.
   */
  lemma CallsKeepTheirTask(s: State, t: TaskId)
    requires Reachable(s)
    ensures InCall(Get(s, t).calls) ==> Get(s, t).count > 0
    ensures Get(s, t).calls.done > 0 ==> WakerEnabled(s, RemoteReturn, t) || WakerEnabled(s, RemoteConsume, t)
  {
    hide MineInv, Global;
    ReachableInv(s);
    assert TaskInv(s, t);
    CallsLocal(View(s, t), EnvOf(s));
  }

  /** User state is never dropped off the owner thread: whoever releases the last reference finds no payload. */
  lemma LastReleaseFindsNoPayload(s: State, call: WakerStep, t: TaskId)
    requires Reachable(s) && WakerEnabled(s, call, t) && Get(WakerNext(s, call, t), t).count == 0
    ensures !Get(s, t).payload && !Get(WakerNext(s, call, t), t).payload
  {
    hide MineInv, Global, Refs, Queued, InLocal, Reachable;
    ReachableInv(s);
    WakerStepKeeps(s, call, t);
    var s' := WakerNext(s, call, t);
    WakerStepKeepsPayload(s, call, t);
    hide WakerNext;
    assert TaskInv(s', t);
    CountedOwned(View(s', t), EnvOf(s'));
    OwnersAreCounted(View(s', t));
  }

  lemma WakerStepKeepsPayload(s: State, call: WakerStep, t: TaskId)
    requires WakerEnabled(s, call, t)
    ensures Get(WakerNext(s, call, t), t).payload == Get(s, t).payload
  {
  }

  lemma OwnersAreCounted(m: Mine)
    ensures Queued(m) || InLocal(m) ==> Refs(m) > 0
  {
    hide Remotely;
  }

  // ---- Shutdown ----

  /** In a cycle that runs with a cause, or after one: nothing but that Shutdown is reported any more. */
  predicate ShuttingDown(s: State, c: Cause) {
    s.owner.cause == Some(c) && (s.owner.pc.Idle? ==> s.owner.last == Some(Shutdown(c)))
  }

  lemma StepKeepsShuttingDown(s: State, step: Step, c: Cause)
    requires Inv(s) && Enabled(s, step) && ShuttingDown(s, c)
    ensures ShuttingDown(Next(s, step), c)
  {
    hide Inv, JudgeOutcome;
    StepRegisters(s, step);
    if step == AtEnd(Judge) {
      JudgedOnShutdown(s);
    } else {
      hide Next;
    }
  }

  lemma {:induction false} RunKeepsShuttingDown(s: State, steps: seq<Step>, c: Cause)
    requires Inv(s) && CanRun(s, steps) && ShuttingDown(s, c)
    ensures ShuttingDown(Run(s, steps), c)
    decreases |steps|
  {
    hide Inv, Enabled, Next, ShuttingDown;
    if steps != [] {
      StepKeepsInv(s, steps[0]);
      StepKeepsShuttingDown(s, steps[0], c);
      RunKeepsShuttingDown(Next(s, steps[0]), steps[1..], c);
    }
  }

  /**
   Shutdown takes one cycle: once a cause is published inside a cycle, that cycle and every later one
   returns Shutdown with that cause, with nothing queued and every task told exactly once.
   */
  lemma ShutdownInOneCycle(s: State, steps: seq<Step>, c: Cause, t: TaskId)
    requires Reachable(s) && !s.owner.pc.Idle? && s.owner.cause == Some(c) && CanRun(s, steps)
    requires var s' := Run(s, steps); s'.owner.pc.Idle?
    ensures var s' := Run(s, steps);
            && s'.owner.last == Some(Shutdown(c))
            && s'.queues == Queues([], [], [], []) && s'.owner.taskCount == 0
            && (t in s'.tasks ==> |Get(s', t).outcomes| == 1 && !Get(s', t).payload && !Live(s', t))
  {
    var s' := Run(s, steps);
    ReachableInv(s);
    RunStaysReachable(s, steps);
    hide Inv, Reachable;
    RunKeepsShuttingDown(s, steps, c);
    ReachableInv(s');
    assert s'.channel.closed by { hide TaskInv; }
    ShutdownTellsEveryone(s', t);
  }
}
