/** What every run of the executor keeps, and what follows for its callers. */
module ExecutorRuns {
  import opened ExecutorState
  import opened ExecutorEvents
  import opened ExecutorInvariant
  import opened ExecutorRemote
  import opened ExecutorDrain
  import opened ExecutorPolls
  import opened ExecutorAborts
  import opened ExecutorLocal

  // ---- Every step keeps the invariant ----

  lemma WakerStepKeeps(s: State, step: WakerStep, t: TaskId)
    requires Inv(s) && WakerEnabled(s, step, t)
    ensures Inv(WakerNext(s, step, t))
  {
    hide Inv, Put, DoRemoteSend, DoRemoteFlag, DoRemoteNotify;
    match step
    case RemoteSend => SendKeeps(s, t);
    case RemoteFlag => FlagKeeps(s, t);
    case RemoteNotify => NotifyKeeps(s, t);
    case _ => OwnTaskKeeps(s, step, t);
  }

  lemma StartStepKeeps(s: State, step: StartStep)
    requires Inv(s) && StartEnabled(s, step)
    ensures Inv(StartNext(s, step))
  {
    hide Inv, Goto, DoEnterCycle, DoSwapFlag, DoReceive, DoPromote, DoEnqueue, DoAppendWakes, DoClearNext;
    match step
    case EnterCycle => EnterKeeps(s);
    case SwapFlag => SwapKeeps(s);
    case Receive => ReceiveKeeps(s);
    case ReceiveNothing => DrainedKeeps(s);
    case Promote => PromoteKeeps(s);
    case Enqueue => EnqueueKeeps(s);
    case AppendWakes => AppendKeeps(s);
    case ClearNext => ExecutorDrain.ClearKeeps(s);
    case ClearDone => ClearedKeeps(s);
  }

  lemma PollStepKeeps(s: State, step: PollStep)
    requires Inv(s) && PollEnabled(s, step)
    ensures Inv(PollNext(s, step))
  {
    if step.PollReady? || step.PollPanics? || step.AbortBegin? { PolledIsFirst(s); }
    hide Inv, Goto, DoPollBegin, DoPollPending, DoRetireSignal, DoRetirePayload, DoDeliver, DoFinish;
    match step
    case PollBegin => PollBeginKeeps(s);
    case AbortBegin => EndKeeps(s, Cancels);
    case PollPending => PollPendingKeeps(s);
    case PollReady => EndKeeps(s, Completes);
    case PollPanics => EndKeeps(s, Panics);
    case RetireSignal => RetireKeeps(s);
    case RetirePayload => PayloadKeeps(s);
    case Deliver => DeliverKeeps(s);
    case Finish => FinishKeeps(s);
    case PollDone => PollDoneKeeps(s);
  }

  lemma PolledIsFirst(s: State)
    requires Inv(s)
    ensures s.owner.pc.Polling? ==> s.queues.active != [] && s.queues.active[0] == s.owner.pc.t
    ensures s.owner.pc.PollHead? ==> s.owner.hand.Empty?
  {
    hide TaskInv;
  }

  lemma EndStepKeeps(s: State, step: EndStep)
    requires Inv(s) && EndEnabled(s, step)
    ensures Inv(EndNext(s, step))
  {
    hide Inv, Goto, DoClose, DoDropMessage, DoEmptied, DoDropAwakened, DoPrepare, DoAbortNext, DoJudge, DoDropExecutor;
    match step
    case CheckCancel => CheckKeeps(s);
    case Close => CloseKeeps(s);
    case DropMessage => ExecutorAborts.DropMessageKeeps(s);
    case Emptied => EmptiedKeeps(s);
    case DropAwakened => DropAwakenedKeeps(s);
    case Prepare => PrepareKeeps(s);
    case AbortNext => AbortNextKeeps(s);
    case AbortDone => AbortDoneKeeps(s);
    case Judge => JudgeKeeps(s);
    case DropExecutor => DropKeeps(s);
  }

  lemma UserStepKeeps(s: State, step: UserStep)
    requires Inv(s) && UserEnabled(s, step)
    ensures Inv(UserNext(s, step))
  {
    hide Inv, DoLocalWake, DoEnqueueLocal, DoSubmit, DoTrigger;
    match step
    case LocalWake(t) => LocalWakeKeeps(s, t);
    case EnqueueLocal => EnqueueLocalKeeps(s);
    case Submit(t) => SubmitKeeps(s, t);
    case Trigger(c) => TriggerKeeps(s, c);
  }

  /** Every step of the owner, of user code and of any remote thread keeps the invariant. */
  lemma StepKeepsInv(s: State, step: Step)
    requires Inv(s) && Enabled(s, step)
    ensures Inv(Next(s, step))
  {
    hide Inv, StartEnabled, StartNext, PollEnabled, PollNext, EndEnabled, EndNext;
    hide UserEnabled, UserNext, WakerEnabled, WakerNext;
    match step
    case AtStart(start) => StartStepKeeps(s, start);
    case AtPoll(poll) => PollStepKeeps(s, poll);
    case AtEnd(end) => EndStepKeeps(s, end);
    case ByUser(user) => UserStepKeeps(s, user);
    case ByWaker(call, t) => WakerStepKeeps(s, call, t);
  }

  // ---- Runs ----

  predicate CanRun(s: State, steps: seq<Step>)
    decreases |steps|
  {
    steps == [] || (Enabled(s, steps[0]) && CanRun(Next(s, steps[0]), steps[1..]))
  }

  function Run(s: State, steps: seq<Step>): State
    requires CanRun(s, steps)
    decreases |steps|
  {
    if steps == [] then s else Run(Next(s, steps[0]), steps[1..])
  }

  ghost predicate Reachable(s: State) {
    exists shutdownOnPanic: bool, steps: seq<Step> ::
      CanRun(Start(shutdownOnPanic), steps) && Run(Start(shutdownOnPanic), steps) == s
  }

  /** How an executor without tasks looks to any task. */
  predicate Absent(m: Mine) {
    && !m.known && Blank(m.task) && m.held.NotHeld? && m.at.Elsewhere? && !m.awaitsClear
    && m.places.submitted == 0 && m.places.active == 0 && m.places.pending == 0
    && m.places.awakened == 0 && m.places.messages == 0
  }

  lemma AbsentLocal(m: Mine, e: Env)
    requires Absent(m)
    ensures MineInv(m, e)
  {
  }

  lemma StartIsAbsent(shutdownOnPanic: bool, t: TaskId)
    ensures Absent(View(Start(shutdownOnPanic), t))
  {
  }

  lemma StartInv(shutdownOnPanic: bool)
    ensures Inv(Start(shutdownOnPanic))
  {
    var s := Start(shutdownOnPanic);
    assert Global(s) by { assert OwnedSet(s.queues) == {}; }
    hide MineInv, Global, Start, Absent;
    forall t ensures TaskInv(s, t) {
      StartIsAbsent(shutdownOnPanic, t);
      AbsentLocal(View(s, t), EnvOf(s));
    }
  }

  lemma {:induction false} RunKeepsInv(s: State, steps: seq<Step>)
    requires Inv(s) && CanRun(s, steps)
    ensures Inv(Run(s, steps))
    decreases |steps|
  {
    hide Inv, Enabled, Next;
    if steps != [] {
      StepKeepsInv(s, steps[0]);
      RunKeepsInv(Next(s, steps[0]), steps[1..]);
    }
  }

  /** The invariant holds in every reachable state. */
  lemma ReachableInv(s: State)
    requires Reachable(s)
    ensures Inv(s)
  {
    hide Inv, CanRun, Run;
    var shutdownOnPanic: bool, steps: seq<Step> :|
      CanRun(Start(shutdownOnPanic), steps) && Run(Start(shutdownOnPanic), steps) == s;
    StartInv(shutdownOnPanic);
    RunKeepsInv(Start(shutdownOnPanic), steps);
  }

  lemma {:induction false} RunReaches(start: State, steps: seq<Step>, more: seq<Step>)
    requires CanRun(start, steps) && CanRun(Run(start, steps), more)
    ensures CanRun(start, steps + more) && Run(start, steps + more) == Run(Run(start, steps), more)
    decreases |steps|
  {
    hide Enabled, Next;
    if steps == [] {
      assert steps + more == more;
    } else {
      assert (steps + more)[1..] == steps[1..] + more;
      RunReaches(Next(start, steps[0]), steps[1..], more);
    }
  }

  lemma RunStaysReachable(s: State, steps: seq<Step>)
    requires Reachable(s) && CanRun(s, steps)
    ensures Reachable(Run(s, steps))
  {
    hide CanRun, Run;
    var policy: bool, before: seq<Step> :| CanRun(Start(policy), before) && Run(Start(policy), before) == s;
    RunReaches(Start(policy), before, steps);
  }

  // ---- What happens in a run ----

  predicate PollsIn(s: State, steps: seq<Step>, t: TaskId)
    requires CanRun(s, steps)
    decreases |steps|
  {
    steps != [] && (Polls(s, steps[0], t) || PollsIn(Next(s, steps[0]), steps[1..], t))
  }

  /** The owner's waker is called in the run. */
  predicate CallsOwnerIn(s: State, steps: seq<Step>)
    requires CanRun(s, steps)
    decreases |steps|
  {
    steps != [] && (CallsOwner(s, steps[0]) || CallsOwnerIn(Next(s, steps[0]), steps[1..]))
  }

  function Count(steps: seq<Step>, p: Step -> bool): nat {
    if steps == [] then 0 else (if p(steps[0]) then 1 else 0) + Count(steps[1..], p)
  }

  lemma {:induction false} RunKeepsDue(s: State, steps: seq<Step>)
    requires CanRun(s, steps) && AtStart(AppendWakes) !in steps
    ensures Run(s, steps).owner.due == s.owner.due
    decreases |steps|
  {
    hide Enabled, Next, PollsTracked;
    if steps != [] {
      StepRegisters(s, steps[0]);
      RunKeepsDue(Next(s, steps[0]), steps[1..]);
    }
  }

  /** Only a poll in the run makes a task count as polled in it. */
  lemma {:induction false} PolledNowWasPolled(s: State, steps: seq<Step>, t: TaskId)
    requires CanRun(s, steps) && t in Run(s, steps).owner.polledNow && t !in s.owner.polledNow
    ensures PollsIn(s, steps, t)
    decreases |steps|
  {
    hide Enabled, Next, RegistersKept, Polls;
    if steps != [] {
      StepRegisters(s, steps[0]);
      if !Polls(s, steps[0], t) { PolledNowWasPolled(Next(s, steps[0]), steps[1..], t); }
    }
  }

  /** Until it is judged again, the owner counts as woken exactly when its waker was called. */
  lemma {:induction false} PokedMeansCalled(s: State, steps: seq<Step>)
    requires CanRun(s, steps) && AtEnd(Judge) !in steps
    ensures Run(s, steps).owner.poked == (s.owner.poked || CallsOwnerIn(s, steps))
    ensures Run(s, steps).owner.last == s.owner.last
    decreases |steps|
  {
    hide Enabled, Next, PollsTracked, CallsOwner;
    if steps != [] {
      StepRegisters(s, steps[0]);
      PokedMeansCalled(Next(s, steps[0]), steps[1..]);
    }
  }
}
