/** Why tasks end and why the executor shuts down: what is told follows from what happened in the run. */
module ExecutorCauses {
  import opened Base
  import opened ExecutorState
  import opened ExecutorEvents
  import opened ExecutorInvariant
  import opened ExecutorRuns
  import opened ExecutorOutcomes

  // ---- The cause of the shutdown ----

  /** The cause named by the first step of the run that publishes one. */
  function FirstPublished(s: State, steps: seq<Step>): Option<Cause>
    requires CanRun(s, steps)
    decreases |steps|
  {
    if steps == [] then None
    else if Publishes(s, steps[0]).Some? then Publishes(s, steps[0])
    else FirstPublished(Next(s, steps[0]), steps[1..])
  }

  lemma {:induction false} CauseIsTheFirstPublished(s: State, steps: seq<Step>)
    requires CanRun(s, steps)
    ensures Run(s, steps).owner.cause == if s.owner.cause.Some? then s.owner.cause else FirstPublished(s, steps)
    decreases |steps|
  {
    hide Enabled, Next, PollsTracked, Publishes;
    if steps != [] {
      StepRegisters(s, steps[0]);
      CauseIsTheFirstPublished(Next(s, steps[0]), steps[1..]);
    }
  }

  lemma RunFromStart(shutdownOnPanic: bool, steps: seq<Step>)
    requires CanRun(Start(shutdownOnPanic), steps)
    ensures Reachable(Run(Start(shutdownOnPanic), steps))
    ensures Run(Start(shutdownOnPanic), steps).owner.cause == FirstPublished(Start(shutdownOnPanic), steps)
    ensures Run(Start(shutdownOnPanic), steps).owner.shutdownOnPanic == shutdownOnPanic
  {
    hide CanRun, Run;
    CauseIsTheFirstPublished(Start(shutdownOnPanic), steps);
    PolicyIsFixed(Start(shutdownOnPanic), steps);
  }

  lemma ShutdownNamesTheCause(s: State)
    requires Inv(s)
    ensures s.owner.last.Some? && s.owner.last.value.Shutdown? ==> s.owner.cause == Some(s.owner.last.value.cause)
  {
    hide TaskInv;
  }

  /**
   Everyone hears the first cause: over every run, a cancelled task, a panic reported with a cause, and a cycle
   that answers Shutdown name the cause that the first publishing step of the run named.
   */
  lemma EveryoneHearsTheFirstCause(shutdownOnPanic: bool, steps: seq<Step>, t: TaskId, o: Outcome)
    requires CanRun(Start(shutdownOnPanic), steps) && o in Get(Run(Start(shutdownOnPanic), steps), t).outcomes
    ensures o.Cancelled? ==> FirstPublished(Start(shutdownOnPanic), steps) == Some(o.cause)
    ensures o.Panicked? && o.shutdown.Some? ==> FirstPublished(Start(shutdownOnPanic), steps) == o.shutdown
  {
    hide CanRun, Run, Start;
    RunFromStart(shutdownOnPanic, steps);
    CauseIsHeard(Run(Start(shutdownOnPanic), steps), t, o);
  }

  lemma ShutdownAnswersTheFirstCause(shutdownOnPanic: bool, steps: seq<Step>, c: Cause)
    requires CanRun(Start(shutdownOnPanic), steps)
    requires Run(Start(shutdownOnPanic), steps).owner.last == Some(Shutdown(c))
    ensures FirstPublished(Start(shutdownOnPanic), steps) == Some(c)
  {
    hide CanRun, Run, Start;
    RunFromStart(shutdownOnPanic, steps);
    ReachableInv(Run(Start(shutdownOnPanic), steps));
    ShutdownNamesTheCause(Run(Start(shutdownOnPanic), steps));
  }

  /** After the first trigger, every cancelled task and every Shutdown carries the cause of that trigger. */
  lemma TriggeredCauseIsHeard(s: State, c: Cause, steps: seq<Step>, t: TaskId, o: Outcome)
    requires Reachable(s) && s.owner.cause.None? && Enabled(s, ByUser(Trigger(c)))
    requires CanRun(Next(s, ByUser(Trigger(c))), steps)
    ensures var e := Run(Next(s, ByUser(Trigger(c))), steps);
      && e.owner.cause == Some(c)
      && (o in Get(e, t).outcomes && o.Cancelled? ==> o.cause == c)
      && (e.owner.last.Some? && e.owner.last.value.Shutdown? ==> e.owner.last == Some(Shutdown(c)))
  {
    var run := [ByUser(Trigger(c))] + steps;
    assert run[1..] == steps;
    RunStaysReachable(s, run);
    CauseIsTheFirstPublished(s, run);
    var e := Run(s, run);
    ReachableInv(e);
    ShutdownNamesTheCause(e);
    if o in Get(e, t).outcomes { CauseIsHeard(e, t, o); }
    hide Inv, Reachable;
  }

  predicate AsksForShutdown(step: Step) {
    step == AtEnd(DropExecutor) || (step.ByUser? && step.user.Trigger?)
  }

  lemma {:induction false} NothingIsPublished(s: State, steps: seq<Step>)
    requires CanRun(s, steps) && !s.owner.shutdownOnPanic && forall step :: step in steps ==> !AsksForShutdown(step)
    ensures FirstPublished(s, steps) == None
    decreases |steps|
  {
    hide Enabled, Next, PollsTracked;
    if steps != [] {
      StepRegisters(s, steps[0]);
      assert !AsksForShutdown(steps[0]);
      NothingIsPublished(Next(s, steps[0]), steps[1..]);
    }
  }

  /** The ignoring policy contains a panic: unless someone asks for it, nothing is cancelled or shut down. */
  lemma IgnoredPanicsShutNothingDown(steps: seq<Step>, t: TaskId, o: Outcome)
    requires CanRun(Start(false), steps) && forall step :: step in steps ==> !AsksForShutdown(step)
    ensures var e := Run(Start(false), steps);
      && e.owner.cause == None
      && !(e.owner.last.Some? && e.owner.last.value.Shutdown?)
      && (o in Get(e, t).outcomes ==> o == Completed || o == Panicked(None))
  {
    NothingIsPublished(Start(false), steps);
    hide CanRun, Run, Start;
    RunFromStart(false, steps);
    var e := Run(Start(false), steps);
    ReachableInv(e);
    ShutdownNamesTheCause(e);
    if o in Get(e, t).outcomes { CauseIsHeard(e, t, o); }
    hide Inv;
  }

  /** Once a cause is published, no task is polled any more: those that wait for their poll are cancelled instead. */
  lemma {:induction false} NothingIsPolledAfterTheCause(s: State, steps: seq<Step>, t: TaskId)
    requires CanRun(s, steps) && s.owner.cause.Some?
    ensures !PollsIn(s, steps, t)
    decreases |steps|
  {
    if steps != [] {
      StepRegisters(s, steps[0]);
      PollNeedsNoCause(s, steps[0], t);
      hide Enabled, Next, PollsTracked;
      NothingIsPolledAfterTheCause(Next(s, steps[0]), steps[1..], t);
    }
  }

  lemma PollNeedsNoCause(s: State, step: Step, t: TaskId)
    requires Enabled(s, step)
    ensures Polls(s, step, t) ==> s.owner.cause.None?
  {
  }

  // ---- The reason of an outcome ----

  /** In the run the end of the task begins in this way; in the run the task is refused. */
  predicate EndsIn(s: State, steps: seq<Step>, t: TaskId, kind: Kind)
    requires CanRun(s, steps)
    decreases |steps|
  {
    steps != [] && (Ends(s, steps[0], t, kind) || EndsIn(Next(s, steps[0]), steps[1..], t, kind))
  }

  predicate RefusesIn(s: State, steps: seq<Step>, t: TaskId)
    requires CanRun(s, steps)
    decreases |steps|
  {
    steps != [] && (Refuses(s, steps[0], t) || RefusesIn(Next(s, steps[0]), steps[1..], t))
  }

  /** What is told once is what is told in the end. */
  lemma ToldForGood(s: State, steps: seq<Step>, t: TaskId)
    requires Inv(s) && CanRun(s, steps) && t in s.tasks && |Get(s, t).outcomes| == 1
    ensures Get(Run(s, steps), t).outcomes == Get(s, t).outcomes
  {
    hide Inv;
    OutcomeIsFinal(s, steps, t);
    RunKeepsInv(s, steps);
    AtMostOneOutcome(Run(s, steps), t);
  }

  lemma TellingStep(s: State, step: Step, t: TaskId)
    requires Inv(s) && Enabled(s, step) && Get(s, t).outcomes == [] && Get(Next(s, step), t).outcomes != []
    ensures t in Next(s, step).tasks && |Get(Next(s, step), t).outcomes| == 1
    ensures var kind := KindOf(Get(Next(s, step), t).outcomes[0]);
      EndingAs(s.owner.pc, t, kind) || (kind.Cancels? && Refuses(s, step, t))
  {
    StepOutcomes(s, step, t);
    hide Inv, OutcomeOf;
    if Delivers(s, step, t) { assert s.owner.pc.stage.Delivering?; }
    hide Next;
  }

  lemma {:induction false} ToldHasAReason(s: State, steps: seq<Step>, t: TaskId, kind: Kind)
    requires Inv(s) && CanRun(s, steps) && Get(s, t).outcomes == [] && !EndingAs(s.owner.pc, t, kind)
    requires var told := Get(Run(s, steps), t).outcomes; |told| == 1 && KindOf(told[0]) == kind
    ensures EndsIn(s, steps, t, kind) || (kind.Cancels? && RefusesIn(s, steps, t))
    decreases |steps|
  {
    hide Inv, Enabled, Next, Ends, EndingAs, Refuses, Get, RegistersKept;
    if steps != [] {
      var s', rest := Next(s, steps[0]), steps[1..];
      StepKeepsInv(s, steps[0]);
      StepRegisters(s, steps[0]);
      if Get(s', t).outcomes != [] {
        TellingStep(s, steps[0], t);
        ToldForGood(s', rest, t);
      } else if !Ends(s, steps[0], t, kind) {
        ToldHasAReason(s', rest, t, kind);
      }
    }
  }

  lemma StartIsUntold(shutdownOnPanic: bool, t: TaskId, kind: Kind)
    ensures Inv(Start(shutdownOnPanic)) && Get(Start(shutdownOnPanic), t).outcomes == []
    ensures !EndingAs(Start(shutdownOnPanic).owner.pc, t, kind)
  {
    StartInv(shutdownOnPanic);
    hide Inv;
  }

  /**
   Nothing is told without its reason: over every run a target that is told of completion, panic or cancellation
   belongs to a task whose future was ready, whose future panicked, or that was cancelled or refused in the run.
   */
  lemma OutcomeHasItsReason(shutdownOnPanic: bool, steps: seq<Step>, t: TaskId)
    requires CanRun(Start(shutdownOnPanic), steps) && Get(Run(Start(shutdownOnPanic), steps), t).outcomes != []
    ensures var s := Start(shutdownOnPanic);
      var kind := KindOf(Get(Run(s, steps), t).outcomes[0]);
      EndsIn(s, steps, t, kind) || (kind.Cancels? && RefusesIn(s, steps, t))
  {
    var s := Start(shutdownOnPanic);
    var kind := KindOf(Get(Run(s, steps), t).outcomes[0]);
    StartIsUntold(shutdownOnPanic, t, kind);
    hide Inv, Start, EndsIn, RefusesIn;
    RunKeepsInv(s, steps);
    AtMostOneOutcome(Run(s, steps), t);
    ToldHasAReason(s, steps, t, kind);
  }

  /** And what happened is what is told, whatever comes after, a panic under the shutdown policy with a cause. */
  lemma {:induction false} EndedIsToldSo(s: State, steps: seq<Step>, t: TaskId, kind: Kind)
    requires Reachable(s) && CanRun(s, steps) && EndsIn(s, steps, t, kind)
    ensures var told := Get(Run(s, steps), t).outcomes;
      told == [] || (|told| == 1 && KindOf(told[0]) == kind
                     && (kind.Panics? && s.owner.shutdownOnPanic ==> told[0].shutdown.Some?))
    decreases |steps|
  {
    hide Reachable, Enabled, Next, Ends, Get, PollsTracked;
    if Ends(s, steps[0], t, kind) {
      TargetIsToldTheTruth(s, steps[0], steps[1..], t, kind);
    } else {
      StepRegisters(s, steps[0]);
      assert [steps[0]][1..] == [];
      RunStaysReachable(s, [steps[0]]);
      EndedIsToldSo(Next(s, steps[0]), steps[1..], t, kind);
    }
  }

  /** A task that is submitted after the shutdown has begun is told so on the spot, and never anything else. */
  lemma RefusedIsToldSo(s: State, steps: seq<Step>, t: TaskId, c: Cause)
    requires Reachable(s) && Enabled(s, ByUser(Submit(t))) && s.owner.cause == Some(c)
    requires CanRun(Next(s, ByUser(Submit(t))), steps)
    ensures Get(Run(Next(s, ByUser(Submit(t))), steps), t).outcomes == [Cancelled(c)]
  {
    ReachableInv(s);
    StepKeepsInv(s, ByUser(Submit(t)));
    StepOutcomes(s, ByUser(Submit(t)), t);
    assert t in Next(s, ByUser(Submit(t))).tasks;
    hide Inv, Reachable, Next;
    ToldForGood(Next(s, ByUser(Submit(t))), steps, t);
  }
}
