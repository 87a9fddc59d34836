/** What a cycle answers, when the owner may sleep, and who wakes it. */
module ExecutorSuspends {
  import opened Base
  import opened ExecutorState
  import opened ExecutorInvariant
  import opened ExecutorFrames
  import opened ExecutorRuns
  import opened ExecutorWakes

  // ---- What a cycle answers ----

  /** What the cycle answers. */
  function Answer(s: State): CycleOutcome
    requires s.owner.pc.Judging?
  {
    var last := Next(s, AtEnd(Judge)).owner.last;
    if last.Some? then last.value else Suspend
  }

  /** Some task has never been polled; some task is scheduled on the owner's thread. */
  ghost predicate SomeNewTask(s: State) {
    exists t: TaskId :: Live(s, t) && !Get(s, t).polled
  }

  ghost predicate SomeLocalTask(s: State) {
    exists t: TaskId :: Get(s, t).sched == Local
  }

  lemma JudgedView(s: State, t: TaskId)
    requires Inv(s) && s.owner.pc.Judging?
    ensures t in s.queues.submitted ==> Live(s, t) && !Get(s, t).polled
    ensures Live(s, t) && !Get(s, t).polled ==> t in s.queues.submitted
    ensures t in s.queues.awakened ==> Get(s, t).sched == Local
    ensures Get(s, t).sched == Local && !s.channel.closed ==> t in s.queues.awakened
  {
    assert TaskInv(s, t);
    assert s.queues.active == [] && s.owner.hand.Empty? by { hide TaskInv; }
    hide Global, Counted, WakeKept, PolledOnce, FirstCause, Lent;
  }

  /**
   The answer is exact. Shutdown: a cause was published. Continue: none was, and there is a task that was never
   polled, or one scheduled on this thread, or a set pending flag. Suspend: nothing of this.
   */
  lemma JudgementIsExact(s: State)
    requires Reachable(s) && s.owner.pc.Judging?
    ensures Next(s, AtEnd(Judge)).owner.last == Some(Answer(s))
    ensures forall c :: Answer(s) == Shutdown(c) <==> s.owner.cause == Some(c)
    ensures Answer(s) == Continue <==>
      s.owner.cause.None? && (SomeNewTask(s) || SomeLocalTask(s) || s.channel.flag)
  {
    ReachableInv(s);
    if s.owner.cause.Some? {
      JudgedOnShutdown(s);
    } else {
      AbortNeedsCause(s);
      var q := s.queues;
      if q.submitted != [] { JudgedView(s, q.submitted[0]); }
      if q.awakened != [] { JudgedView(s, q.awakened[0]); }
      if SomeNewTask(s) {
        var t :| Live(s, t) && !Get(s, t).polled;
        JudgedView(s, t);
      }
      if SomeLocalTask(s) {
        var t :| Get(s, t).sched == Local;
        JudgedView(s, t);
      }
      hide Inv;
    }
  }

  /**
   A cycle that suspends leaves nothing to do: no new, runnable or locally woken task, no cause, and a task
   whose state is REMOTE, whether or not it was polled since, is owed by a call in flight. Only such a task
   can still be woken.
   */
  lemma SuspendIsSound(s: State, t: TaskId)
    requires Reachable(s) && s.owner.pc.Judging? && Answer(s) == Suspend
    ensures s.queues.submitted == [] && s.queues.active == [] && s.queues.awakened == []
    ensures s.owner.cause == None
    ensures Get(s, t).sched == Remote ==> Get(s, t).calls.won > 0 || (t in s.channel.messages && SomeSender(s))
    ensures Get(s, t).sched != Local && (Woken(s, t) ==> Get(s, t).sched == Remote)
  {
    ReachableInv(s);
    AbortNeedsCause(s);
    if s.owner.cause.Some? { JudgedOnShutdown(s); }
    FlagIsSignalled(s);
    if Live(s, t) {
      ScheduleStateIsExact(s, t);
    }
    if Woken(s, t) {
      WokenAwaitsItsPoll(s, t);
    }
    hide TaskInv, SomeSender, SomeNotifier;
  }

  /** A cycle that sees a shutdown cause at its end has nothing left and reports that cause. */
  lemma JudgedOnShutdown(s: State)
    requires Inv(s) && s.owner.pc.Judging? && s.owner.cause.Some?
    ensures JudgeOutcome(s) == Shutdown(s.owner.cause.value)
    ensures s.queues == Queues([], [], [], []) && s.owner.taskCount == 0 && s.channel.closed
  {
    assert s.channel.closed by { hide TaskInv; }
    ClosedIsEmpty(s);
    assert OwnedSet(s.queues) == {};
    hide TaskInv;
  }

  // ---- Quiet cycles ----

  /** What can give the owner something to do in the next cycle. */
  predicate Disturbs(step: Step) {
    match step
    case ByUser(Submit(_)) => true
    case ByUser(LocalWake(_)) => true
    case ByWaker(RemoteFlag, _) => true
    case _ => false
  }

  /** Since the cycle began: nothing was submitted, the flag is clear once swapped, the wake queue once appended. */
  predicate Undisturbed(s: State) {
    && s.queues.submitted == [] && !s.owner.hand.Waking?
    && (s.owner.pc.Swapping? || !s.channel.flag)
    && (Early(s.owner.pc) || s.queues.awakened == [])
    && (s.owner.hand.Promoted? ==> s.owner.pc.Draining?)
  }

  lemma StartStepQuiet(s: State, step: StartStep)
    requires StartEnabled(s, step) && Undisturbed(s) && !step.EnterCycle?
    requires s.owner.hand.Message? ==> s.owner.pc.Draining?
    ensures Undisturbed(StartNext(s, step))
  {
    hide Get, ClearNotification, Release;
  }

  lemma PollStepQuiet(s: State, step: PollStep)
    requires PollEnabled(s, step) && Undisturbed(s)
    ensures Undisturbed(PollNext(s, step))
  {
    hide Get, Release, RetiredTask, OutcomeOf;
  }

  lemma EndStepQuiet(s: State, step: EndStep)
    requires EndEnabled(s, step) && Undisturbed(s)
    ensures Undisturbed(EndNext(s, step))
  {
    hide Get, Release, JudgeOutcome;
  }

  lemma OtherStepQuiet(s: State, step: Step)
    requires Enabled(s, step) && (step.ByUser? || step.ByWaker?) && Undisturbed(s) && !Disturbs(step)
    ensures Undisturbed(Next(s, step))
  {
    hide Get, UserCode, CanUseWaker;
  }

  lemma StepQuiet(s: State, step: Step)
    requires Inv(s) && Enabled(s, step) && Undisturbed(s) && !Disturbs(step) && step != AtStart(EnterCycle)
    ensures Undisturbed(Next(s, step))
  {
    assert s.owner.hand.Message? ==> s.owner.pc.Draining? by { hide TaskInv; }
    hide Inv, Undisturbed, StartEnabled, StartNext, PollEnabled, PollNext, EndEnabled, EndNext;
    hide UserEnabled, UserNext, WakerEnabled, WakerNext;
    match step
    case AtStart(start) => StartStepQuiet(s, start);
    case AtPoll(poll) => PollStepQuiet(s, poll);
    case AtEnd(end) => EndStepQuiet(s, end);
    case _ => OtherStepQuiet(s, step);
  }

  lemma {:induction false} RunQuiet(s: State, steps: seq<Step>)
    requires Inv(s) && CanRun(s, steps) && Undisturbed(s)
    requires forall step :: step in steps ==> !Disturbs(step) && step != AtStart(EnterCycle)
    ensures Undisturbed(Run(s, steps))
    decreases |steps|
  {
    hide Inv, Enabled, Next, Undisturbed;
    if steps != [] {
      StepKeepsInv(s, steps[0]);
      StepQuiet(s, steps[0]);
      RunQuiet(Next(s, steps[0]), steps[1..]);
    }
  }

  /**
   An idle executor sleeps: a cycle in which nothing is submitted, no waker is used on this thread and no remote
   call reaches the flag answers Suspend, whatever tasks are pending, unless a cause was published.
   */
  lemma QuietCycleSuspends(s: State, steps: seq<Step>)
    requires Reachable(s) && s.owner.pc.Swapping? && CanRun(s, steps)
    requires forall step :: step in steps ==> !Disturbs(step) && step != AtStart(EnterCycle)
    requires Run(s, steps).owner.pc.Judging? && Run(s, steps).owner.cause.None?
    ensures Answer(Run(s, steps)) == Suspend
  {
    ReachableInv(s);
    QuietAtStart(s);
    hide Inv, Reachable, Answer, Undisturbed;
    RunQuiet(s, steps);
    QuietAnswer(Run(s, steps));
  }

  lemma QuietAtStart(s: State)
    requires Inv(s) && s.owner.pc.Swapping?
    ensures Undisturbed(s)
  {
    hide TaskInv;
  }

  lemma QuietAnswer(s: State)
    requires Undisturbed(s) && s.owner.pc.Judging? && s.owner.cause.None?
    ensures Answer(s) == Suspend
  {
  }

  // ---- Sleeping ----

  /** While the owner sleeps after a Suspend, a woken task has woken it, or a call in flight still will. */
  lemma SleeperIsPoked(s: State, t: TaskId)
    requires Reachable(s) && s.owner.pc.Idle? && s.owner.hand.Empty? && s.owner.last == Some(Suspend) && Woken(s, t)
    ensures s.owner.poked || Get(s, t).calls.won > 0 || SomeSender(s) || SomeNotifier(s)
  {
    ReachableInv(s);
    if s.channel.closed {
      ClosedIsEmpty(s);
    } else {
      WokenAwaitsItsPoll(s, t);
    }
    hide TaskInv, SomeSender, SomeNotifier;
  }

  /**
   A suspended owner is woken: when a live task is woken while the owner sleeps, the owner's waker is called in
   that run, or a call in flight still will.
   */
  lemma SleepingOwnerIsWoken(s: State, steps: seq<Step>, t: TaskId)
    requires Reachable(s) && s.owner.pc.Judging? && Answer(s) == Suspend
    requires var s0 := DoJudge(s); CanRun(s0, steps) && AtEnd(Judge) !in steps && WokenSince(s0, steps, t)
    requires var e := Run(DoJudge(s), steps); e.owner.pc.Idle? && e.owner.hand.Empty? && Live(e, t)
    ensures var e := Run(DoJudge(s), steps);
      CallsOwnerIn(DoJudge(s), steps) || Get(e, t).calls.won > 0 || SomeSender(e) || SomeNotifier(e)
  {
    var s0 := DoJudge(s);
    JudgementIsExact(s);
    MarkIsExact(s0, steps, t);
    PokedMeansCalled(s0, steps);
    JudgeStaysReachable(s);
    RunStaysReachable(s0, steps);
    hide Reachable, SomeSender, SomeNotifier;
    SleeperIsPoked(Run(s0, steps), t);
  }

  lemma JudgeStaysReachable(s: State)
    requires Reachable(s) && s.owner.pc.Judging?
    ensures Reachable(DoJudge(s))
  {
    var steps := [AtEnd(Judge)];
    assert steps[1..] == [];
    hide Reachable, DoJudge;
    RunStaysReachable(s, steps);
  }

  /** A set flag means that the owner was woken since the last drain, or that some call is about to wake it. */
  lemma FlagIsSignalled(s: State)
    requires Reachable(s)
    ensures s.channel.flag ==> s.channel.notified || SomeNotifier(s)
    ensures s.channel.messages != [] && !s.owner.pc.Draining? ==> s.channel.flag || SomeSender(s)
  {
    ReachableInv(s);
    hide TaskInv;
  }
}
