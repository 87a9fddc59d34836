/** Why the bound on a cycle counts submissions: a cycle that shuts down pays for each of them. */
module ExecutorCosts {
  import opened ExecutorState
  import opened ExecutorInvariant
  import opened ExecutorFrames
  import opened ExecutorRuns
  import opened ExecutorOutcomes
  import opened ExecutorProgress
  import opened ExecutorBounds

  // ---- Two tasks a step: how fast the owner's queues can empty ----

  function Load(q: Queues): nat {
    |q.submitted| + |q.active| + |q.pending|
  }

  lemma {:induction false} WithoutLength(ids: seq<TaskId>, t: TaskId)
    ensures |Without(ids, t)| + Occ(ids, t) == |ids|
  {
    if ids != [] {
      WithoutLength(ids[1..], t);
      OccPop(ids, t);
    }
  }

  lemma StartStepLoad(s: State, step: StartStep)
    requires StartEnabled(s, step)
    ensures Load(StartNext(s, step).queues) >= Load(s.queues)
  {
    hide Get, Release, ClearNotification;
  }

  lemma PollStepLoad(s: State, step: PollStep)
    requires PollEnabled(s, step) && forall t: TaskId :: Occ(s.queues.pending, t) <= 1
    ensures Load(PollNext(s, step).queues) + 2 >= Load(s.queues)
  {
    if step.Finish? { WithoutLength(s.queues.pending, s.owner.pc.t); }
    hide Get, Release, RetiredTask, OutcomeOf, Without, Occ;
  }

  lemma EndStepLoad(s: State, step: EndStep)
    requires EndEnabled(s, step)
    ensures Load(EndNext(s, step).queues) + 1 >= Load(s.queues)
  {
    hide Get, Release, JudgeOutcome;
  }

  lemma OtherStepLoad(s: State, step: Step)
    requires Enabled(s, step) && !ByOwner(step)
    ensures Load(Next(s, step).queues) >= Load(s.queues)
  {
    hide Get, BeginLocal, BeginRemote, CanUseWaker;
  }

  lemma StepLoad(s: State, step: Step)
    requires Inv(s) && Enabled(s, step)
    ensures Load(Next(s, step).queues) + (if ByOwner(step) then 2 else 0) >= Load(s.queues)
  {
    forall t: TaskId ensures Occ(s.queues.pending, t) <= 1 {
      assert TaskInv(s, t);
    }
    hide Inv, Load, StartNext, PollNext, EndNext, Occ;
    match step
    case AtStart(start) => StartStepLoad(s, start);
    case AtPoll(poll) => PollStepLoad(s, poll);
    case AtEnd(end) => EndStepLoad(s, end);
    case _ => OtherStepLoad(s, step);
  }

  lemma {:induction false} RunLoad(s: State, steps: seq<Step>)
    requires Inv(s) && CanRun(s, steps)
    ensures Load(Run(s, steps).queues) + 2 * Count(steps, ByOwner) >= Load(s.queues)
    decreases |steps|
  {
    if steps != [] {
      hide Inv, Enabled, Next, Load;
      StepKeepsInv(s, steps[0]);
      StepLoad(s, steps[0]);
      RunLoad(Next(s, steps[0]), steps[1..]);
    }
  }

  // ---- A future that submits, and then asks for shutdown ----

  /** The owner polls a task whose identity, like all others, is below `unused`, and no cause is published. */
  predicate PollsBelow(s: State, unused: nat) {
    s.owner.pc.Polling? && s.owner.hand.Empty? && s.owner.cause.None? && forall t :: t in s.tasks ==> t < unused
  }

  lemma SubmitFresh(s: State, unused: nat)
    requires PollsBelow(s, unused)
    ensures var step := ByUser(Submit(unused));
      && Enabled(s, step) && PollsBelow(Next(s, step), unused + 1)
      && Load(Next(s, step).queues) == Load(s.queues) + 1
  {
  }

  lemma {:induction false} SubmitMany(s: State, unused: nat, n: nat) returns (steps: seq<Step>)
    requires PollsBelow(s, unused)
    ensures CanRun(s, steps) && PollsBelow(Run(s, steps), unused + n)
    ensures Load(Run(s, steps).queues) == Load(s.queues) + n && forall step :: step in steps ==> !Begins(step)
    decreases n
  {
    steps := [];
    if n > 0 {
      var step := ByUser(Submit(unused));
      SubmitFresh(s, unused);
      hide Enabled, Next, PollsBelow, Load;
      var rest := SubmitMany(Next(s, step), unused + 1, n - 1);
      steps := [step] + rest;
      assert steps[1..] == rest;
    }
  }

  lemma StepStaysReachable(s: State, step: Step)
    requires Reachable(s) && Enabled(s, step)
    ensures Reachable(Next(s, step))
  {
    hide Reachable, Enabled, Next;
    assert [step][1..] == [];
    assert CanRun(Next(s, step), []) && Run(Next(s, step), []) == Next(s, step);
    assert CanRun(s, [step]) && Run(s, [step]) == Next(s, step);
    RunStaysReachable(s, [step]);
  }

  /** A first task is submitted, the first cycle enters, and the task is polled. */
  lemma FirstPoll() returns (s: State)
    ensures Reachable(s) && PollsBelow(s, 1) && |s.tasks| == 1
  {
    var s0 := Start(false);
    assert CanRun(s0, []) && Run(s0, []) == s0;
    assert Reachable(s0);
    hide Reachable;
    StepStaysReachable(s0, ByUser(Submit(0)));
    var s1 := Next(s0, ByUser(Submit(0)));
    StepStaysReachable(s1, AtStart(EnterCycle));
    var s2 := Next(s1, AtStart(EnterCycle));
    StepStaysReachable(s2, AtStart(SwapFlag));
    var s3 := Next(s2, AtStart(SwapFlag));
    StepStaysReachable(s3, AtStart(AppendWakes));
    var s4 := Next(s3, AtStart(AppendWakes));
    StepStaysReachable(s4, AtStart(ClearDone));
    var s5 := Next(s4, AtStart(ClearDone));
    StepStaysReachable(s5, AtPoll(PollBegin));
    s := Next(s5, AtPoll(PollBegin));
    assert s.tasks.Keys == {0};
  }

  lemma {:induction false} CountAppend(a: seq<Step>, b: seq<Step>)
    ensures Count(a + b, ByOwner) == Count(a, ByOwner) + Count(b, ByOwner)
  {
    if a == [] {
      assert a + b == b;
    } else {
      assert (a + b)[1..] == a[1..] + b;
      CountAppend(a[1..], b);
    }
  }

  /** Any number of the owner's steps can be needed from a state with a single task. */
  lemma SubmissionsAreCostly(n: nat) returns (s: State, steps: seq<Step>)
    ensures Reachable(s) && |s.tasks| == 1 && CanRun(s, steps) && forall step :: step in steps ==> !Begins(step)
    ensures Count(steps, ByOwner) >= n
  {
    s := FirstPoll();
    var submits := SubmitMany(s, 1, 2 * n);
    var s1 := Run(s, submits);
    var trigger := ByUser(Trigger(DefaultCause));
    RunStaysReachable(s, submits);
    hide Reachable;
    StepStaysReachable(s1, trigger);
    var s2 := Next(s1, trigger);
    ReachableInv(s2);
    var finish := CycleCanFinish(s2);
    RunLoad(s2, finish);
    EmptyAtTheEnd(s2, finish);
    assert Load(s2.queues) >= 2 * n && Load(Run(s2, finish).queues) == 0;
    hide Inv, Next, Load;
    assert CanRun(s1, [trigger] + finish) by { assert ([trigger] + finish)[1..] == finish; }
    steps := submits + ([trigger] + finish);
    RunReaches(s, submits, [trigger] + finish);
    CountAppend(submits, [trigger] + finish);
    CountAppend([trigger], finish);
  }

  lemma EmptyAtTheEnd(s: State, steps: seq<Step>)
    requires Reachable(s) && CanRun(s, steps) && s.owner.pc.Polling? && s.owner.cause.Some?
    requires Run(s, steps).owner.pc.Idle? || Run(s, steps).owner.pc.Gone?
    ensures Run(s, steps).queues == Queues([], [], [], [])
  {
    var s' := Run(s, steps);
    RunStaysReachable(s, steps);
    ReachableInv(s');
    if s'.owner.pc.Idle? {
      ShutdownInOneCycle(s, steps, s.owner.cause.value, 0);
    } else {
      assert s'.channel.closed by { hide TaskInv; }
      ClosedIsEmpty(s');
    }
  }
}
