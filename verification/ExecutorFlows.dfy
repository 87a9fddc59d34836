/** What flows through the channel and the queues is neither lost nor doubled nor reordered. */
module ExecutorFlows {
  import opened Base
  import opened ExecutorState
  import opened ExecutorEvents
  import opened ExecutorInvariant
  import opened ExecutorRuns
  import opened ExecutorWakes

  // ---- The channel ----

  /** The messages put into the channel, and those taken out of it, in order. */
  function SentIn(s: State, steps: seq<Step>): seq<TaskId>
    requires CanRun(s, steps)
    decreases |steps|
  {
    if steps == [] then []
    else (if Sends(s, steps[0]) then [steps[0].t] else []) + SentIn(Next(s, steps[0]), steps[1..])
  }

  function TakenIn(s: State, steps: seq<Step>): seq<TaskId>
    requires CanRun(s, steps)
    decreases |steps|
  {
    if steps == [] then []
    else (if Takes(s, steps[0]) then [s.channel.messages[0]] else []) + TakenIn(Next(s, steps[0]), steps[1..])
  }

  lemma SentAndTaken(m: seq<TaskId>, sent: seq<TaskId>, taken: seq<TaskId>, m': seq<TaskId>,
                     restSent: seq<TaskId>, restTaken: seq<TaskId>, e: seq<TaskId>)
    requires m + sent == taken + m' && m' + restSent == restTaken + e
    ensures m + (sent + restSent) == (taken + restTaken) + e
  {
    Associative(m, sent, restSent);
    Associative(taken, m', restSent);
    Associative(taken, restTaken, e);
  }

  /** The channel hands on every message once and in order: over every run, what came in was taken out or is there. */
  lemma {:induction false} ChannelIsAQueue(s: State, steps: seq<Step>)
    requires CanRun(s, steps)
    ensures s.channel.messages + SentIn(s, steps) == TakenIn(s, steps) + Run(s, steps).channel.messages
    decreases |steps|
  {
    hide Enabled, Next, Sends, Takes;
    if steps != [] {
      var s', rest := Next(s, steps[0]), steps[1..];
      StepChannel(s, steps[0]);
      ChannelIsAQueue(s', rest);
      ChannelStep(s, steps[0], s');
      SentAndTaken(s.channel.messages, if Sends(s, steps[0]) then [steps[0].t] else [],
                   if Takes(s, steps[0]) then [s.channel.messages[0]] else [], s'.channel.messages,
                   SentIn(s', rest), TakenIn(s', rest), Run(s', rest).channel.messages);
    }
  }

  lemma ChannelStep(s: State, step: Step, s': State)
    requires ChannelKept(s, step, s')
    ensures Sends(s, step) ==> step.ByWaker?
    ensures Takes(s, step) ==> s.channel.messages != []
    ensures s.channel.messages + (if Sends(s, step) then [step.t] else [])
         == (if Takes(s, step) then [s.channel.messages[0]] else []) + s'.channel.messages
  {
  }

  predicate PastTheDrain(pc: Pc) {
    !pc.Swapping? && !pc.Draining?
  }

  lemma StartStepPastTheDrain(s: State, step: StartStep)
    requires StartEnabled(s, step) && !step.EnterCycle? && PastTheDrain(s.owner.pc)
    requires s.owner.hand.Message? || s.owner.hand.Promoted? ==> s.owner.pc.Draining?
    ensures !step.Receive? && PastTheDrain(StartNext(s, step).owner.pc)
  {
    hide Get, ClearNotification;
  }

  lemma PollStepPastTheDrain(s: State, step: PollStep)
    requires PollEnabled(s, step)
    ensures PastTheDrain(PollNext(s, step).owner.pc)
  {
    hide Get, Without, Release, RetiredTask, OutcomeOf;
  }

  lemma EndStepPastTheDrain(s: State, step: EndStep)
    requires EndEnabled(s, step)
    ensures PastTheDrain(EndNext(s, step).owner.pc)
  {
    hide Get, Release, JudgeOutcome;
  }

  lemma StepsPastTheDrain(s: State, step: Step)
    requires Inv(s) && Enabled(s, step) && step != AtStart(EnterCycle) && PastTheDrain(s.owner.pc)
    ensures step != AtStart(Receive) && PastTheDrain(Next(s, step).owner.pc)
  {
    OrderFacts(s);
    hide Inv, StartEnabled, StartNext, PollEnabled, PollNext, EndEnabled, EndNext;
    hide UserEnabled, UserNext, WakerEnabled, WakerNext;
    match step
    case AtStart(start) => StartStepPastTheDrain(s, start);
    case AtPoll(poll) => PollStepPastTheDrain(s, poll);
    case AtEnd(end) => EndStepPastTheDrain(s, end);
    case _ => OtherStepOrder(s, step);
  }

  lemma {:induction false} RunsPastTheDrain(s: State, steps: seq<Step>)
    requires Inv(s) && CanRun(s, steps) && AtStart(EnterCycle) !in steps && PastTheDrain(s.owner.pc)
    ensures AtStart(Receive) !in steps
    decreases |steps|
  {
    hide Inv, Enabled, Next, PastTheDrain;
    if steps != [] {
      StepKeepsInv(s, steps[0]);
      StepsPastTheDrain(s, steps[0]);
      RunsPastTheDrain(Next(s, steps[0]), steps[1..]);
      assert steps == [steps[0]] + steps[1..];
    }
  }

  /** A cycle that finds the flag clear does not look into the channel. */
  lemma ClearFlagSkipsTheDrain(s: State, steps: seq<Step>)
    requires Reachable(s) && StartEnabled(s, SwapFlag) && !s.channel.flag
    requires CanRun(StartNext(s, SwapFlag), steps) && AtStart(EnterCycle) !in steps
    ensures AtStart(Receive) !in steps
  {
    ReachableInv(s);
    StartStepKeeps(s, SwapFlag);
    hide Inv, Reachable;
    RunsPastTheDrain(StartNext(s, SwapFlag), steps);
  }

  // ---- Waking the owner ----

  /** The calls that set the flag and found it clear, and the calls that woke the owner, by task. */
  function SettersIn(s: State, steps: seq<Step>): seq<TaskId>
    requires CanRun(s, steps)
    decreases |steps|
  {
    if steps == [] then []
    else (if steps[0].ByWaker? && SetsFlag(s, steps[0], steps[0].t) then [steps[0].t] else [])
         + SettersIn(Next(s, steps[0]), steps[1..])
  }

  function NotifiersIn(steps: seq<Step>): seq<TaskId> {
    if steps == [] then []
    else (if steps[0].ByWaker? && steps[0].call.RemoteNotify? then [steps[0].t] else []) + NotifiersIn(steps[1..])
  }

  lemma {:induction false} NotifiersWereSetters(s: State, steps: seq<Step>, t: TaskId)
    requires CanRun(s, steps)
    ensures Get(Run(s, steps), t).calls.notifying + multiset(NotifiersIn(steps))[t]
         == Get(s, t).calls.notifying + multiset(SettersIn(s, steps))[t]
    decreases |steps|
  {
    hide Enabled, Next, Get;
    if steps != [] {
      StepNotifiers(s, steps[0], t);
      NotifiersWereSetters(Next(s, steps[0]), steps[1..], t);
    }
  }

  /** Between two calls that set the flag there is a drain that cleared it. */
  lemma {:induction false} SettersAreFew(s: State, steps: seq<Step>)
    requires CanRun(s, steps)
    ensures |SettersIn(s, steps)| + (if s.channel.flag then 1 else 0)
         <= Count(steps, Drains) + if Run(s, steps).channel.flag then 1 else 0
    decreases |steps|
  {
    hide Enabled, Next;
    if steps != [] {
      StepChannel(s, steps[0]);
      SettersAreFew(Next(s, steps[0]), steps[1..]);
    }
  }

  lemma SubMultiset(a: multiset<TaskId>, b: multiset<TaskId>)
    requires forall t: TaskId :: a[t] <= b[t]
    ensures |a| <= |b|
  {
    assert b == a + (b - a);
  }

  /** Remote wakes call the owner's waker at most once per drain, however many calls there are, and once at first. */
  lemma OwnerIsCalledOncePerDrain(shutdownOnPanic: bool, steps: seq<Step>)
    requires CanRun(Start(shutdownOnPanic), steps)
    ensures |NotifiersIn(steps)| <= Count(steps, Drains) + 1
  {
    var s := Start(shutdownOnPanic);
    forall t: TaskId ensures multiset(NotifiersIn(steps))[t] <= multiset(SettersIn(s, steps))[t] {
      NotifiersWereSetters(s, steps, t);
    }
    hide NotifiersIn, SettersIn, Count, CanRun, Run;
    SubMultiset(multiset(NotifiersIn(steps)), multiset(SettersIn(s, steps)));
    SettersAreFew(s, steps);
  }

  // ---- The order of polls ----

  /** The tasks whose poll begins in the run, in order. */
  function PolledIn(s: State, steps: seq<Step>): seq<TaskId>
    requires CanRun(s, steps)
    decreases |steps|
  {
    if steps == [] then []
    else (if steps[0] == AtPoll(PollBegin) then [s.queues.active[0]] else []) + PolledIn(Next(s, steps[0]), steps[1..])
  }

  /** The tasks that this cycle has still to poll. */
  function ToPoll(s: State): seq<TaskId> {
    if (s.owner.pc.Polling? || (s.owner.pc.Ending? && s.owner.pc.inLoop)) && s.queues.active != []
    then s.queues.active[1..] else s.queues.active
  }

  lemma StartStepOrder(s: State, step: StartStep)
    requires StartEnabled(s, step) && !step.EnterCycle? && !step.AppendWakes?
    requires step.Promote? || step.Enqueue? ==> s.owner.pc.Draining?
    ensures ToPoll(StartNext(s, step)) == ToPoll(s)
  {
    hide Get, ClearNotification, Release;
  }

  lemma PollStepOrder(s: State, step: PollStep)
    requires PollEnabled(s, step) && PollNext(s, step).owner.cause.None?
    requires s.owner.pc.Polling? || (s.owner.pc.Ending? && s.owner.pc.inLoop) ==> s.queues.active != []
    requires s.owner.pc.Ending? ==> s.owner.pc.inLoop
    ensures step.PollBegin? ==> ToPoll(s) == [s.queues.active[0]] + ToPoll(PollNext(s, step))
    ensures !step.PollBegin? ==> ToPoll(s) == ToPoll(PollNext(s, step))
  {
    hide Get, Without, Release, RetiredTask, OutcomeOf;
  }

  lemma EndStepOrder(s: State, step: EndStep)
    requires EndEnabled(s, step) && !InAbort(s.owner.pc)
    ensures ToPoll(EndNext(s, step)) == ToPoll(s)
  {
    hide Get, Release, JudgeOutcome;
  }

  lemma OtherStepOrder(s: State, step: Step)
    requires Enabled(s, step) && (step.ByUser? || step.ByWaker?)
    ensures Next(s, step).owner.pc == s.owner.pc && Next(s, step).queues.active == s.queues.active
  {
    hide Get, UserCode, CanUseWaker, BeginLocal, BeginRemote, ClearNotification;
  }

  lemma StepOrder(s: State, step: Step)
    requires Inv(s) && Enabled(s, step) && Next(s, step).owner.cause.None?
    requires step != AtStart(EnterCycle) && step != AtStart(AppendWakes)
    ensures step == AtPoll(PollBegin) ==>
      s.queues.active != [] && ToPoll(s) == [s.queues.active[0]] + ToPoll(Next(s, step))
    ensures step != AtPoll(PollBegin) ==> ToPoll(s) == ToPoll(Next(s, step))
  {
    OrderFacts(s);
    StepRegisters(s, step);
    hide Inv, ToPoll, PollsTracked, StartNext, PollNext, EndNext, UserEnabled, UserNext, WakerEnabled, WakerNext;
    match step
    case AtStart(start) => StartStepOrder(s, start);
    case AtPoll(poll) => PollStepOrder(s, poll);
    case AtEnd(end) => EndStepOrder(s, end);
    case _ => OtherStepOrder(s, step); SameToPoll(s, Next(s, step));
  }

  lemma SameToPoll(s: State, s': State)
    requires s'.owner.pc == s.owner.pc && s'.queues.active == s.queues.active
    ensures ToPoll(s') == ToPoll(s)
  {
  }

  lemma OrderFacts(s: State)
    requires Inv(s)
    ensures s.owner.pc.Polling? || (s.owner.pc.Ending? && s.owner.pc.inLoop) ==> s.queues.active != []
    ensures s.owner.hand.Message? || s.owner.hand.Promoted? ==> s.owner.pc.Draining?
    ensures InAbort(s.owner.pc) ==> s.owner.cause.Some?
  {
    AbortNeedsCause(s);
    hide TaskInv;
  }

  lemma {:induction false} RunOrder(s: State, steps: seq<Step>)
    requires Inv(s) && CanRun(s, steps) && Run(s, steps).owner.cause.None?
    requires AtStart(EnterCycle) !in steps && AtStart(AppendWakes) !in steps
    ensures ToPoll(s) == PolledIn(s, steps) + ToPoll(Run(s, steps))
    decreases |steps|
  {
    hide Inv, Enabled, Next, ToPoll;
    if steps == [] {
      assert [] + ToPoll(s) == ToPoll(s);
    } else {
      var s', rest := Next(s, steps[0]), steps[1..];
      StepKeepsInv(s, steps[0]);
      CauseIsKept(s', rest);
      StepOrder(s, steps[0]);
      RunOrder(s', rest);
      if steps[0] == AtPoll(PollBegin) {
        Associative([s.queues.active[0]], PolledIn(s', rest), ToPoll(Run(s', rest)));
      } else {
        assert [] + PolledIn(s', rest) == PolledIn(s', rest);
      }
    }
  }

  /**
   Without shutdown a cycle polls the tasks that it accepted and then those that were woken, each once and in
   the order in which they were queued, and no others.
   */
  lemma CyclePollsInOrder(s: State, steps: seq<Step>)
    requires Reachable(s) && s.owner.pc.Appending? && CanRun(DoAppendWakes(s), steps)
    requires AtStart(EnterCycle) !in steps && AtStart(AppendWakes) !in steps
    requires var e := Run(DoAppendWakes(s), steps); e.owner.pc.Judging? && e.owner.cause.None?
    ensures PolledIn(DoAppendWakes(s), steps) == s.queues.active + s.queues.awakened
  {
    var s0 := DoAppendWakes(s);
    assert ToPoll(s0) == s.queues.active + s.queues.awakened;
    AppendStaysReachable(s);
    ReachableInv(s0);
    RunKeepsInv(s0, steps);
    assert ToPoll(Run(s0, steps)) == [] by { hide TaskInv; }
    hide Inv, Reachable, DoAppendWakes, ToPoll;
    RunOrder(s0, steps);
    assert PolledIn(s0, steps) + [] == PolledIn(s0, steps);
  }

  // ---- The order of submissions ----

  /** The tasks that are accepted for execution in the run, in order. */
  function SubmittedIn(s: State, steps: seq<Step>): seq<TaskId>
    requires CanRun(s, steps)
    decreases |steps|
  {
    if steps == [] then []
    else (if steps[0].ByUser? && steps[0].user.Submit? && s.owner.cause.None? then [steps[0].user.t] else [])
         + SubmittedIn(Next(s, steps[0]), steps[1..])
  }

  lemma StepSubmits(s: State, step: Step)
    requires Enabled(s, step) && step != AtStart(EnterCycle) && step != AtEnd(Prepare)
    ensures Next(s, step).queues.submitted
         == s.queues.submitted
            + if step.ByUser? && step.user.Submit? && s.owner.cause.None? then [step.user.t] else []
  {
    hide Get, Without, Release, RetiredTask, OutcomeOf, JudgeOutcome, BeginLocal, BeginRemote, ClearNotification;
    assert s.queues.submitted + [] == s.queues.submitted;
  }

  lemma {:induction false} SubmissionsKeepTheirOrder(s: State, steps: seq<Step>)
    requires CanRun(s, steps) && AtStart(EnterCycle) !in steps && AtEnd(Prepare) !in steps
    ensures Run(s, steps).queues.submitted == s.queues.submitted + SubmittedIn(s, steps)
    decreases |steps|
  {
    hide Enabled, Next;
    if steps == [] {
      assert s.queues.submitted + [] == s.queues.submitted;
    } else {
      StepSubmits(s, steps[0]);
      SubmissionsKeepTheirOrder(Next(s, steps[0]), steps[1..]);
    }
  }

  /** The next cycle accepts what was submitted since the last one, in that order. */
  lemma CycleAcceptsInOrder(s: State, steps: seq<Step>)
    requires Reachable(s) && s.queues.submitted == [] && CanRun(s, steps)
    requires AtStart(EnterCycle) !in steps && AtEnd(Prepare) !in steps
    requires StartEnabled(Run(s, steps), EnterCycle)
    ensures StartNext(Run(s, steps), EnterCycle).queues.active == SubmittedIn(s, steps)
  {
    var e := Run(s, steps);
    RunStaysReachable(s, steps);
    ReachableInv(e);
    SubmissionsKeepTheirOrder(s, steps);
    assert e.queues.active == [] by { hide TaskInv; }
    hide Inv, Reachable;
  }

  // ---- The order of cancellation ----

  /** The tasks whose cancellation begins in the abort loop, in order. */
  function AbortedIn(s: State, steps: seq<Step>): seq<TaskId>
    requires CanRun(s, steps)
    decreases |steps|
  {
    if steps == [] then []
    else (if steps[0] == AtEnd(AbortNext) then [s.queues.active[0]] else []) + AbortedIn(Next(s, steps[0]), steps[1..])
  }

  lemma StepAborts(s: State, step: Step)
    requires Inv(s) && Enabled(s, step) && Aborting(s.owner.pc)
    ensures var s' := Next(s, step);
      && (step == AtEnd(AbortNext) ==>
            s.queues.active != [] && s.queues.active == [s.queues.active[0]] + s'.queues.active)
      && (step != AtEnd(AbortNext) ==> s'.queues.active == s.queues.active)
      && (Aborting(s'.owner.pc) || (step == AtEnd(AbortDone) && s.queues.active == []))
  {
    OrderFacts(s);
    hide Inv, Get, Without, Release, RetiredTask, OutcomeOf, JudgeOutcome, BeginLocal, BeginRemote, ClearNotification;
  }

  lemma {:induction false} RunAborts(s: State, steps: seq<Step>)
    requires Inv(s) && CanRun(s, steps) && Aborting(s.owner.pc) && AtEnd(AbortDone) !in steps
    ensures s.queues.active == AbortedIn(s, steps) + Run(s, steps).queues.active
    decreases |steps|
  {
    hide Inv, Enabled, Next, Aborting;
    if steps == [] {
      assert [] + s.queues.active == s.queues.active;
    } else {
      var s', rest := Next(s, steps[0]), steps[1..];
      StepKeepsInv(s, steps[0]);
      StepAborts(s, steps[0]);
      RunAborts(s', rest);
      if steps[0] == AtEnd(AbortNext) {
        Associative([s.queues.active[0]], AbortedIn(s', rest), Run(s', rest).queues.active);
      } else {
        assert [] + AbortedIn(s', rest) == AbortedIn(s', rest);
      }
    }
  }

  /** Shutdown cancels first the tasks that were not yet accepted, as submitted, then the pending ones, as listed. */
  lemma AbortCancelsInOrder(s: State, steps: seq<Step>)
    requires Reachable(s) && EndEnabled(s, Prepare) && CanRun(EndNext(s, Prepare), steps) && AtEnd(AbortDone) !in steps
    requires EndEnabled(Run(EndNext(s, Prepare), steps), AbortDone)
    ensures AbortedIn(EndNext(s, Prepare), steps) == s.queues.submitted + s.queues.pending
  {
    ReachableInv(s);
    EndStepKeeps(s, Prepare);
    PrepareQueues(s);
    hide Inv, Reachable, EndNext, Aborting, CanRun, Run, AbortedIn;
    AbortsAll(EndNext(s, Prepare), steps);
  }

  lemma AbortsAll(s: State, steps: seq<Step>)
    requires Inv(s) && CanRun(s, steps) && Aborting(s.owner.pc) && AtEnd(AbortDone) !in steps
    requires EndEnabled(Run(s, steps), AbortDone)
    ensures AbortedIn(s, steps) == s.queues.active
  {
    hide Inv, CanRun, Run, AbortedIn;
    RunAborts(s, steps);
    assert AbortedIn(s, steps) + [] == AbortedIn(s, steps);
  }

  lemma PrepareQueues(s: State)
    requires Inv(s) && EndEnabled(s, Prepare)
    ensures EndNext(s, Prepare).queues.active == s.queues.submitted + s.queues.pending
    ensures Aborting(EndNext(s, Prepare).owner.pc)
  {
    assert s.queues.active == [] by { hide TaskInv; }
    hide Inv;
    assert [] + s.queues.submitted == s.queues.submitted;
  }
}
