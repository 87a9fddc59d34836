/** A cycle comes to its end: a measure falls with every step of the owner, and no other step raises it. */
module ExecutorProgress {
  import opened Base
  import opened ExecutorState
  import opened ExecutorInvariant
  import opened ExecutorFrames
  import opened ExecutorRuns
  import opened ExecutorOutcomes

  /** How far a task that is being ended still has to go. */
  function StagesLeft(stage: Stage): nat {
    match stage
    case Retiring => 4
    case Destroying => 3
    case Delivering => 2
    case Delivered => 1
  }

  /** The phases of a cycle, counted down. */
  function Phase(pc: Pc): nat {
    match pc
    case Swapping => 11
    case Draining => 10
    case Appending => 9
    case Clearing(_) => 8
    case PollHead => 7
    case Polling(_) => 7
    case Ending(_, _, _, inLoop) => if inLoop then 7 else 2
    case CancelCheck => 6
    case Closing => 5
    case Emptying => 4
    case Preparing => 3
    case AbortHead => 2
    case Judging => 1
    case Idle => 0
    case Gone => 0
  }

  /** A task for which a message can still be sent before its notification is cleared. */
  predicate CanSend(k: Task) {
    k.sched == Active || k.calls.won > 0
  }

  function Sendable(tasks: map<TaskId, Task>): set<TaskId> {
    set t | t in tasks && CanSend(tasks[t])
  }

  /** What is left to do within the phase; a drain takes what is in the channel and what may still be sent. */
  function Left(s: State): nat {
    var n := |s.queues.active|;
    match s.owner.pc
    case Draining =>
      3 * (|s.channel.messages| + |Sendable(s.tasks)|)
      + (if s.owner.hand.Message? then 2 else if s.owner.hand.Promoted? then 1 else 0)
    case Clearing(from) => SaturatingSub(n, from)
    case PollHead => 6 * n
    case Polling(_) => 6 * n - if n > 0 then 1 else 0
    case Ending(_, _, stage, inLoop) =>
      if inLoop then SaturatingSub(6 * n + StagesLeft(stage), 6) else 6 * n + StagesLeft(stage)
    case AbortHead => 6 * n
    case Emptying => |s.channel.messages|
    case Preparing => |s.queues.awakened|
    case _ => 0
  }

  predicate Below(s': State, s: State) {
    Phase(s'.owner.pc) < Phase(s.owner.pc) || (Phase(s'.owner.pc) == Phase(s.owner.pc) && Left(s') < Left(s))
  }

  lemma EndingProgresses(s: State, step: PollStep)
    requires PollEnabled(s, step) && s.owner.pc.Ending? && (s.owner.pc.inLoop ==> s.queues.active != [])
    ensures Below(PollNext(s, step), s)
  {
    hide Get, Without, Release, RetiredTask, OutcomeOf;
  }

  lemma PollingProgresses(s: State, step: PollStep)
    requires PollEnabled(s, step) && !s.owner.pc.Ending? && (s.owner.pc.Polling? ==> s.queues.active != [])
    ensures Below(PollNext(s, step), s)
  {
    hide Get, Release;
  }

  /** Every step of the owner's poll loop brings the cycle closer to its end. */
  lemma PollStepProgresses(s: State, step: PollStep)
    requires Inv(s) && PollEnabled(s, step)
    ensures Below(PollNext(s, step), s)
  {
    PolledIsFirst(s);
    hide PollNext, TaskInv;
    if s.owner.pc.Ending? { EndingProgresses(s, step); } else { PollingProgresses(s, step); }
  }

  /** So does every step of its cancellation and of its end. */
  lemma EndStepProgresses(s: State, step: EndStep)
    requires EndEnabled(s, step) && !step.DropExecutor?
    ensures Below(EndNext(s, step), s)
  {
    hide Get, Release, JudgeOutcome;
  }

  lemma SendablePut(tasks: map<TaskId, Task>, u: TaskId, k: Task)
    requires u in tasks && (CanSend(k) ==> CanSend(tasks[u]))
    ensures |Sendable(tasks[u := k])| == |Sendable(tasks)| - if CanSend(tasks[u]) && !CanSend(k) then 1 else 0
  {
    if CanSend(tasks[u]) && !CanSend(k) {
      assert Sendable(tasks) == Sendable(tasks[u := k]) + {u};
    } else {
      assert Sendable(tasks) == Sendable(tasks[u := k]);
    }
  }

  lemma DrainStepProgresses(s: State, step: StartStep)
    requires StartEnabled(s, step) && s.owner.pc.Draining? && (s.owner.hand.Message? ==> s.owner.hand.t in s.tasks)
    requires !step.EnterCycle? && !s.owner.hand.Waking?
    ensures Below(StartNext(s, step), s)
  {
    hide Sendable;
    if step.Promote? { SendablePut(s.tasks, s.owner.hand.t, StartNext(s, step).tasks[s.owner.hand.t]); }
  }

  lemma AppendStepProgresses(s: State, step: StartStep)
    requires StartEnabled(s, step) && !step.EnterCycle? && !s.owner.pc.Draining?
    requires !s.owner.hand.Message? && !s.owner.hand.Promoted?
    ensures Below(StartNext(s, step), s)
  {
    hide Get, ClearNotification, Release, Sendable;
  }

  /** So does every step of its start. */
  lemma StartStepProgresses(s: State, step: StartStep)
    requires Inv(s) && StartEnabled(s, step) && !step.EnterCycle?
    ensures Below(StartNext(s, step), s)
  {
    HandFacts(s);
    if s.owner.hand.Message? { HeldIsKnown(s); }
    hide Inv, Below, StartNext;
    if s.owner.pc.Draining? { DrainStepProgresses(s, step); } else { AppendStepProgresses(s, step); }
  }

  predicate NotDelayed(s: State, s': State) {
    && s'.owner.pc == s.owner.pc && s'.queues.active == s.queues.active
    && (s.owner.pc.Emptying? ==> s'.channel.messages == s.channel.messages)
    && (s.owner.pc.Draining? ==>
          && s'.owner.hand == s.owner.hand
          && |s'.channel.messages| + |Sendable(s'.tasks)| <= |s.channel.messages| + |Sendable(s.tasks)|)
    && (s.owner.pc.Preparing? ==> s'.queues.awakened == s.queues.awakened)
  }

  lemma NotDelayedLeft(s: State, s': State)
    requires NotDelayed(s, s')
    ensures Left(s') <= Left(s)
  {
    hide Sendable;
  }

  lemma UserDoesNotDelay(s: State, step: UserStep)
    requires UserEnabled(s, step) && (s.owner.hand.Waking? ==> UserCode(s.owner.pc))
    ensures NotDelayed(s, UserNext(s, step))
  {
    hide Get, CanUseWaker, BeginLocal, Sendable;
  }

  /** Calls while the owner drains: at most one owes a message, and none can be refused. */
  lemma DrainFacts(s: State, t: TaskId)
    requires Inv(s) && s.owner.pc.Draining?
    ensures Get(s, t).calls.won > 0 ==> Get(s, t).calls.won == 1 && Get(s, t).sched != Active
    ensures Get(s, t).calls.failed > 0 ==> Get(s, t).sched == Retired
  {
    if s.channel.closed { ClosedIsEmpty(s); }
    assert TaskInv(s, t);
    hide Global, Owned, Unpolled, WakeKept, PolledOnce, FirstCause, Lent;
  }

  lemma WakerStepSends(s: State, step: WakerStep, t: TaskId)
    requires WakerEnabled(s, step, t) && t in s.tasks
    requires Get(s, t).calls.won > 0 ==> Get(s, t).calls.won == 1 && Get(s, t).sched != Active
    requires Get(s, t).calls.failed > 0 ==> Get(s, t).sched == Retired
    ensures var s' := WakerNext(s, step, t);
      |s'.channel.messages| + |Sendable(s'.tasks)| <= |s.channel.messages| + |Sendable(s.tasks)|
  {
    var s' := WakerNext(s, step, t);
    assert s'.tasks == s.tasks[t := s'.tasks[t]];
    hide Sendable;
    SendablePut(s.tasks, t, s'.tasks[t]);
  }

  lemma WakerDoesNotDelay(s: State, step: WakerStep, t: TaskId)
    requires Inv(s) && WakerEnabled(s, step, t)
    ensures NotDelayed(s, WakerNext(s, step, t))
  {
    OwnerFacts(s);
    if s.owner.pc.Draining? {
      DrainFacts(s, t);
      UserIsKnown(s, step, t);
      WakerStepSends(s, step, t);
    }
    hide Inv, Sendable;
    WakerLeavesOwner(s, step, t);
  }

  lemma WakerLeavesOwner(s: State, step: WakerStep, t: TaskId)
    requires WakerEnabled(s, step, t) && (s.owner.pc.Emptying? ==> s.channel.closed)
    ensures var s' := WakerNext(s, step, t);
      && s'.owner.pc == s.owner.pc && s'.owner.hand == s.owner.hand && s'.queues == s.queues
      && (s.owner.pc.Emptying? ==> s'.channel.messages == s.channel.messages)
  {
    hide Get, CanUseWaker, BeginRemote;
  }

  lemma UserIsKnown(s: State, step: WakerStep, t: TaskId)
    requires Inv(s) && WakerEnabled(s, step, t)
    ensures t in s.tasks
  {
    assert TaskInv(s, t);
    hide Global, Counted, Scheduled, FirstCause, Lent;
  }

  lemma HeldIsKnown(s: State)
    requires Inv(s) && !s.owner.hand.Empty?
    ensures s.owner.hand.t in s.tasks
  {
    var t := s.owner.hand.t;
    assert TaskInv(s, t);
    hide Global, FirstCause, Lent;
  }

  /**
   No wake and no submission in between sets the cycle back. A message that arrives while the owner drains
   is taken by the same drain, but each task can send one only once before its notification is cleared.
   */
  lemma OthersDoNotDelay(s: State, step: Step)
    requires Inv(s) && Enabled(s, step) && (step.ByUser? || step.ByWaker?)
    ensures Next(s, step).owner.pc == s.owner.pc && Left(Next(s, step)) <= Left(s)
  {
    HandFacts(s);
    hide Inv, UserEnabled, UserNext, WakerEnabled, WakerNext, Left;
    match step {
      case ByUser(user) => UserDoesNotDelay(s, user);
      case ByWaker(call, t) => WakerDoesNotDelay(s, call, t);
    }
    NotDelayedLeft(s, Next(s, step));
  }

  /** What the owner does next; where user code runs, the return of that code. */
  function OwnerStep(s: State): Step
    requires !s.owner.pc.Gone?
  {
    var o, q := s.owner, s.queues;
    if o.hand.Waking? then ByUser(EnqueueLocal)
    else if o.hand.Message? then AtStart(Promote)
    else if o.hand.Promoted? then AtStart(Enqueue)
    else
      match o.pc
      case Idle => AtStart(EnterCycle)
      case Swapping => AtStart(SwapFlag)
      case Draining => AtStart(if s.channel.messages == [] then ReceiveNothing else Receive)
      case Appending => AtStart(AppendWakes)
      case Clearing(from) => AtStart(if from < |q.active| then ClearNext else ClearDone)
      case PollHead => AtPoll(if q.active == [] then PollDone else if o.cause.None? then PollBegin else AbortBegin)
      case Polling(_) => AtPoll(PollPending)
      case Ending(_, _, stage, _) =>
        AtPoll(match stage
               case Retiring => RetireSignal
               case Destroying => RetirePayload
               case Delivering => Deliver
               case Delivered => Finish)
      case CancelCheck => AtEnd(CheckCancel)
      case Closing => AtEnd(Close)
      case Emptying => AtEnd(if s.channel.messages == [] then Emptied else DropMessage)
      case Preparing => AtEnd(if q.awakened == [] then Prepare else DropAwakened)
      case AbortHead => AtEnd(if q.active == [] then AbortDone else AbortNext)
      case Judging => AtEnd(Judge)
  }

  lemma HandIsEmptied(s: State)
    requires !s.owner.pc.Gone? && !s.owner.hand.Empty?
    ensures Enabled(s, OwnerStep(s))
  {
  }

  lemma OwnerMovesOn(s: State)
    requires !s.owner.pc.Gone? && s.owner.hand.Empty?
    requires s.owner.pc.Polling? || (s.owner.pc.Ending? && s.owner.pc.inLoop) ==> s.queues.active != []
    ensures Enabled(s, OwnerStep(s))
  {
    var step := OwnerStep(s);
    match step
    case AtStart(start) => assert StartEnabled(s, start) by { hide PollEnabled, EndEnabled; }
    case AtPoll(poll) => assert PollEnabled(s, poll) by { hide StartEnabled, EndEnabled; }
    case AtEnd(end) => assert EndEnabled(s, end) by { hide PollEnabled, StartEnabled; }
  }

  /** The owner is never stuck, wherever it is and whatever the other threads have done. */
  lemma OwnerIsNeverStuck(s: State)
    requires Inv(s) && !s.owner.pc.Gone?
    ensures Enabled(s, OwnerStep(s))
  {
    OwnerFacts(s);
    hide Inv, Enabled, OwnerStep;
    if s.owner.hand.Empty? { OwnerMovesOn(s); } else { HandIsEmptied(s); }
  }

  /** A cycle begins by entering it, or by the drop of the executor. */
  predicate Begins(step: Step) {
    step == AtStart(EnterCycle) || step == AtEnd(DropExecutor)
  }

  lemma OwnerStepBeginsNothing(s: State)
    requires !s.owner.pc.Gone? && !s.owner.pc.Idle?
    ensures !Begins(OwnerStep(s)) && !OwnerStep(s).ByWaker?
    ensures if s.owner.hand.Waking? then OwnerStep(s) == ByUser(EnqueueLocal) else !OwnerStep(s).ByUser?
  {
  }

  /** Its next step finishes a local wake, or brings the cycle closer to its end. */
  lemma OwnerProgresses(s: State)
    requires Inv(s) && !s.owner.pc.Gone? && !s.owner.pc.Idle?
    ensures Enabled(s, OwnerStep(s))
    ensures var s' := Next(s, OwnerStep(s));
      if s.owner.hand.Waking?
      then s'.owner.pc == s.owner.pc && Left(s') == Left(s) && s'.owner.hand.Empty?
      else Below(s', s)
  {
    OwnerIsNeverStuck(s);
    OwnerStepBeginsNothing(s);
    HandFacts(s);
    var step := OwnerStep(s);
    hide Inv, OwnerStep, Below, Left, DoEnqueueLocal;
    hide StartEnabled, PollEnabled, EndEnabled, StartNext, PollNext, EndNext;
    if s.owner.hand.Waking? {
      WakeIsFinished(s);
    } else {
      match step
      case AtStart(start) => StartStepProgresses(s, start);
      case AtPoll(poll) => PollStepProgresses(s, poll);
      case AtEnd(end) => EndStepProgresses(s, end);
    }
  }

  lemma HandFacts(s: State)
    requires Inv(s)
    ensures s.owner.hand.Message? || s.owner.hand.Promoted? ==> s.owner.pc.Draining?
    ensures s.owner.hand.Waking? ==> UserCode(s.owner.pc)
  {
    hide TaskInv;
  }

  lemma WakeIsFinished(s: State)
    requires s.owner.hand.Waking? && UserCode(s.owner.pc)
    ensures var s' := DoEnqueueLocal(s); s'.owner.pc == s.owner.pc && Left(s') == Left(s) && s'.owner.hand.Empty?
  {
    hide Get;
  }

  /** The owner alone can finish a cycle from any state that it can be in, and return or be gone. */
  lemma {:induction false} CycleCanFinish(s: State) returns (steps: seq<Step>)
    requires Inv(s)
    ensures CanRun(s, steps) && (Run(s, steps).owner.pc.Idle? || Run(s, steps).owner.pc.Gone?)
    ensures forall step :: step in steps ==> !Begins(step)
    decreases Phase(s.owner.pc), Left(s), if s.owner.hand.Waking? then 1 else 0
  {
    steps := [];
    if !s.owner.pc.Idle? && !s.owner.pc.Gone? {
      var step := OwnerStep(s);
      OwnerProgresses(s);
      StepKeepsInv(s, step);
      OwnerStepBeginsNothing(s);
      hide Inv, Enabled, Next, OwnerStep, Left, Phase, Begins;
      var rest := CycleCanFinish(Next(s, step));
      steps := [step] + rest;
      assert steps[1..] == rest;
    }
  }

  // ---- Remote calls ----

  /** How many accesses the calls in flight have still to make, at most. */
  function CallsLeft(c: Calls): nat {
    4 * c.won + 3 * (c.sent + c.failed) + 2 * (c.notifying + c.cleared) + c.done
  }

  /** What some call in flight does next. */
  function CallStep(c: Calls): WakerStep {
    if c.won > 0 then RemoteSend
    else if c.failed > 0 then RemoteClear
    else if c.cleared > 0 then RemoteDropMessage
    else if c.sent > 0 then RemoteFlag
    else if c.notifying > 0 then RemoteNotify
    else if c.borrowing > 0 then RemoteReturn
    else RemoteConsume
  }

  lemma CallStepLowers(s: State, step: WakerStep, t: TaskId)
    requires WakerEnabled(s, step, t)
    requires !step.CloneWaker? && !step.DropWaker? && !step.Wake? && !step.WakeByRef?
    ensures CallsLeft(Get(WakerNext(s, step, t), t).calls) < CallsLeft(Get(s, t).calls)
  {
    hide CanUseWaker, ClearNotification;
  }

  lemma DoneIsOwned(s: State, t: TaskId)
    requires Inv(s)
    ensures Get(s, t).calls.done > 0 ==> Get(s, t).calls.borrowing > 0 || Get(s, t).calls.owning > 0
  {
    assert TaskInv(s, t);
    hide Global, MineInv;
    CallsLocal(View(s, t), EnvOf(s));
  }

  lemma CallProgresses(s: State, t: TaskId)
    requires Inv(s) && InCall(Get(s, t).calls)
    ensures var step := ByWaker(CallStep(Get(s, t).calls), t);
      Enabled(s, step) && CallsLeft(Get(Next(s, step), t).calls) < CallsLeft(Get(s, t).calls)
  {
    hide Inv, Get, WakerNext, CallsLeft;
    DoneIsOwned(s, t);
    CallStepLowers(s, CallStep(Get(s, t).calls), t);
  }

  /** A wake never waits for anyone: by their own accesses alone the calls for a task can all finish. */
  lemma {:induction false} CallsCanFinish(s: State, t: TaskId) returns (steps: seq<Step>)
    requires Inv(s)
    ensures CanRun(s, steps) && |steps| <= CallsLeft(Get(s, t).calls)
    ensures forall step :: step in steps ==> step.ByWaker? && step.t == t
    ensures !InCall(Get(Run(s, steps), t).calls)
    decreases CallsLeft(Get(s, t).calls)
  {
    hide Inv, Enabled, Next, CallStep, CallsLeft, InCall, Get;
    steps := [];
    if InCall(Get(s, t).calls) {
      var step := ByWaker(CallStep(Get(s, t).calls), t);
      CallProgresses(s, t);
      StepKeepsInv(s, step);
      var rest := CallsCanFinish(Next(s, step), t);
      steps := [step] + rest;
      assert steps[1..] == rest;
    }
  }

  // ---- Nothing is assumed of code outside the executor ----

  /**
   A future that is polled may be pending, ready or panic. Where code outside the executor runs on the owner's
   thread, that is between cycles, in a future, in a destructor and in a completion target, it may trigger
   shutdown, submit tasks and use any waker it has; tasks may even be submitted when the executor is gone.
   */
  lemma UserCodeIsFree(s: State, t: TaskId, c: Cause)
    requires Reachable(s) && s.owner.hand.Empty?
    ensures s.owner.pc.Polling? ==>
      Enabled(s, AtPoll(PollPending)) && Enabled(s, AtPoll(PollReady)) && Enabled(s, AtPoll(PollPanics))
    ensures var pc := s.owner.pc;
      pc.Idle? || pc.Polling? || (pc.Ending? && (pc.stage.Destroying? || pc.stage.Delivered?)) ==>
        && Enabled(s, ByUser(Trigger(c))) && (t !in s.tasks ==> Enabled(s, ByUser(Submit(t))))
        && (Get(s, t).calls.wakers > 0 || pc == Polling(t) ==> Enabled(s, ByUser(LocalWake(t))))
    ensures s.owner.pc.Gone? && t !in s.tasks ==> Enabled(s, ByUser(Submit(t)))
    ensures s.owner.pc.Idle? ==> Enabled(s, AtStart(EnterCycle)) && Enabled(s, AtEnd(DropExecutor))
  {
    hide Reachable, Enabled;
    ReachableInv(s);
    PolledIsFirst(s);
    hide Inv;
    FutureIsFree(s);
    CallerIsFree(s, t, c);
  }

  lemma FutureIsFree(s: State)
    requires s.owner.hand.Empty? && (s.owner.pc.Polling? ==> s.queues.active != [])
    ensures s.owner.pc.Polling? ==>
      Enabled(s, AtPoll(PollPending)) && Enabled(s, AtPoll(PollReady)) && Enabled(s, AtPoll(PollPanics))
    ensures s.owner.pc.Idle? ==> Enabled(s, AtStart(EnterCycle)) && Enabled(s, AtEnd(DropExecutor))
  {
  }

  lemma CallerIsFree(s: State, t: TaskId, c: Cause)
    requires s.owner.hand.Empty?
    ensures var pc := s.owner.pc;
      pc.Idle? || pc.Polling? || (pc.Ending? && (pc.stage.Destroying? || pc.stage.Delivered?)) ==>
        && Enabled(s, ByUser(Trigger(c))) && (t !in s.tasks ==> Enabled(s, ByUser(Submit(t))))
        && (Get(s, t).calls.wakers > 0 || pc == Polling(t) ==> Enabled(s, ByUser(LocalWake(t))))
    ensures s.owner.pc.Gone? && t !in s.tasks ==> Enabled(s, ByUser(Submit(t)))
  {
  }

  /** On any thread and at any time a waker may be cloned and used by reference, and unless it is lent, consumed. */
  lemma WakersAreFree(s: State, t: TaskId)
    ensures Get(s, t).calls.wakers > 0 ==> Enabled(s, ByWaker(WakeByRef, t)) && Enabled(s, ByWaker(CloneWaker, t))
    ensures s.owner.pc == Polling(t) ==> Enabled(s, ByWaker(CloneWaker, t))
    ensures Get(s, t).calls.wakers > (if Get(s, t).calls.borrowing > 0 then 1 else 0) ==>
      Enabled(s, ByWaker(Wake, t)) && Enabled(s, ByWaker(DropWaker, t))
  {
  }
}
