/** What the initialization promises its caller, and what it does not. */
module InitializationGuarantees {
  import opened Base
  import opened Initialization
  import opened InitializationInvariant

  // ---- What initialization promises ----

  lemma StepKeepsPhase(s: State, step: Step)
    requires Enabled(s, step) && s.phase != Preparing
    ensures Next(s, step).phase == s.phase
  {
  }

  /** The phase changes at most once: over every run, the first change is final. */
  lemma {:induction false} PhaseIsFinal(s: State, steps: seq<Step>)
    requires CanRun(s, steps) && s.phase != Preparing
    ensures Run(s, steps).phase == s.phase
    decreases |steps|
  {
    hide Enabled, Next;
    if steps != [] {
      StepKeepsPhase(s, steps[0]);
      PhaseIsFinal(Next(s, steps[0]), steps[1..]);
    }
  }

  // ---- What has happened to an installer ----

  /** The installer is marked as entered, or as dropped, exactly when it took that step in the run. */
  lemma {:induction false} MarksAreExact(s: State, steps: seq<Step>, i: nat)
    requires CanRun(s, steps) && i < |s.workers|
    ensures |Run(s, steps).workers| == |s.workers|
    ensures Run(s, steps).workers[i].entered == (s.workers[i].entered || ByWorker(i, EnterContext) in steps)
    ensures Run(s, steps).workers[i].dropped == (s.workers[i].dropped || ByWorker(i, DropTask) in steps)
    decreases |steps|
  {
    hide Enabled, Next;
    if steps != [] {
      StepMarks(s, steps[0], i);
      MarksAreExact(Next(s, steps[0]), steps[1..], i);
      assert steps == [steps[0]] + steps[1..];
    }
  }

  lemma StepMarks(s: State, step: Step, i: nat)
    requires Enabled(s, step) && i < |s.workers|
    ensures |Next(s, step).workers| == |s.workers|
    ensures Next(s, step).workers[i].entered == (s.workers[i].entered || step == ByWorker(i, EnterContext))
    ensures Next(s, step).workers[i].dropped == (s.workers[i].dropped || step == ByWorker(i, DropTask))
  {
  }

  /**
   Ok is returned only after the commit, and then every installer had entered the context and answered Ready. It
   is still inside exactly when its task was not dropped in the run, or was and has not left yet.
   */
  lemma OkMeansCommitted(start: State, steps: seq<Step>, i: nat)
    requires Initial(start) && CanRun(start, steps) && i < |start.workers|
    requires Run(start, steps).coordinator.pc.ReturnedOk?
    ensures var s := Run(start, steps);
      && |s.workers| == |start.workers| && s.phase == Committed && s.workers[i].startup == ReadySent
      && ByWorker(i, EnterContext) in steps
      && (s.workers[i].inside <==> ByWorker(i, DropTask) !in steps || s.workers[i].pc.Leaving?)
  {
    var s := Run(start, steps);
    InitialInv(start);
    MarksAreExact(start, steps, i);
    RunKeepsInv(start, steps);
    assert WorkerInv(s.workers[i], s.phase, s.version);
    assert Answers(s, i);
  }

  /** Err is returned only after the abort, and then every installer task is over and none is inside. */
  lemma ErrMeansRolledBack(s: State, i: nat)
    requires Reachable(s) && s.coordinator.pc.ReturnedErr? && i < |s.workers|
    ensures s.phase == Aborted && s.workers[i].pc.Ended? && !s.workers[i].inside
  {
    ReachableInv(s);
    assert WorkerInv(s.workers[i], s.phase, s.version);
    assert Ends(s, i);
  }

  /** A dropped coordinator leaves an aborted transaction. */
  lemma DropMeansAborted(s: State)
    requires Reachable(s) && s.coordinator.pc.Dropped?
    ensures s.phase == Aborted
  {
    ReachableInv(s);
  }

  /** Nobody but the coordinator commits, and only when every installer has answered Ready. */
  lemma CommitNeedsEveryone(s: State, i: nat)
    requires Reachable(s) && s.phase == Committed && i < |s.workers|
    ensures s.workers[i].startup == ReadySent && s.workers[i].entered
    ensures s.coordinator.pc.CommitWon? || s.coordinator.pc.ReturnedOk?
  {
    ReachableInv(s);
    assert WorkerInv(s.workers[i], s.phase, s.version);
    assert Answers(s, i);
  }

  /** No phase change is missed: an installer that waits has its notification, or the sender is about to send it. */
  lemma NoChangeIsMissed(s: State, i: nat)
    requires Reachable(s) && i < |s.workers| && s.workers[i].pc.Waiting? && s.phase != Preparing
    ensures WorkerEnabled(s, i, Notified) || s.sender.Some?
  {
    ReachableInv(s);
    assert WorkerInv(s.workers[i], s.phase, s.version);
  }

  // ---- The rollback ends ----

  /** How many of its own steps an installer still takes once the transaction is aborted, at most. */
  function StepsLeft(pc: WorkerPc): nat {
    match pc
    case NotStarted => 10
    case Armed => 9
    case Checked => 8
    case Entered => 7
    case Waiting => 6
    case Looping => 5
    case Conflicting => 5
    case Parked => 5
    case Leaving(_) => 4
    case Guarding(_) => 3
    case Exiting(_) => 2
    case Exited(_) => 1
    case Ended(_) => 0
  }

  /** What an installer does next on its own. */
  function OwnStep(pc: WorkerPc): WorkerStep {
    match pc
    case NotStarted => Start
    case Armed => CheckPhase
    case Checked => EnterContext
    case Entered => SendReady
    case Waiting => Notified
    case Looping => LoadPhase
    case Conflicting => SendConflict
    case Parked => DropTask
    case Leaving(_) => Leave
    case Guarding(_) => DropGuard
    case Exiting(_) => CloseStartup
    case Exited(_) => End
    case Ended(_) => End
  }

  /** Once aborted, no installer can hang: it is over, or the change is being sent, or it can take its next step. */
  lemma RollbackIsNeverStuck(s: State, i: nat)
    requires Reachable(s) && s.phase == Aborted && i < |s.workers|
    ensures var pc := s.workers[i].pc;
      pc.Ended? || s.sender.Some? || (WorkerEnabled(s, i, OwnStep(pc)) && !pc.Parked?)
  {
    ReachableInv(s);
    assert WorkerInv(s.workers[i], s.phase, s.version);
  }

  lemma OwnStepProgresses(w: Worker, step: WorkerStep, version: nat, s: State, i: nat)
    requires WorkerEnabled(s, i, step) && s.workers[i] == w && !w.pc.Parked?
    ensures StepsLeft(Stepped(w, step, Aborted, version).pc) < StepsLeft(w.pc)
  {
  }

  /** Each of its steps brings it closer to its end, and the other participants do not set it back. */
  lemma RollbackProgresses(s: State, step: Step, i: nat)
    requires Reachable(s) && s.phase == Aborted && i < |s.workers| && Enabled(s, step)
    ensures if step.ByWorker? && step.i == i
            then StepsLeft(Next(s, step).workers[i].pc) < StepsLeft(s.workers[i].pc)
            else Next(s, step).workers[i] == s.workers[i]
  {
    ReachableInv(s);
    hide Reachable;
    assert !s.workers[i].pc.Parked? by { assert WorkerInv(s.workers[i], s.phase, s.version); }
    hide Inv, Stepped, StepsLeft;
    if step.ByWorker? && step.i == i {
      OwnStepProgresses(s.workers[i], step.work, s.version, s, i);
    }
  }

  // ---- The whole protocol is never stuck ----

  /** What can spoil an attempt: a worker that is already in a context, and a task that is dropped. */
  predicate Troubles(step: Step) {
    step == ByCoordinator(DropCoordinator) || (step.ByWorker? && (step.work.DropTask? || step.work.FindConflict?))
  }

  /** What brings the protocol on when the coordinator waits for installer `i`. */
  function AwaitedStep(s: State, i: nat): Step
    requires i < |s.workers|
  {
    var w := s.workers[i];
    if s.sender.Some? then SendChange
    else if s.coordinator.pc.Awaiting? && w.startup.ReadySent? then ByCoordinator(TakeReady)
    else if s.coordinator.pc.Awaiting? && w.startup.ConflictSent? then ByCoordinator(TakeConflict)
    else if s.coordinator.pc.Awaiting? && w.startup.Closed? then ByCoordinator(TakeClosed)
    else if s.coordinator.pc.Joining? && w.pc == Ended(true) then ByCoordinator(JoinOk)
    else if s.coordinator.pc.Joining? && w.pc == Ended(false) then ByCoordinator(JoinErr)
    else if s.coordinator.pc.Finishing? && w.pc.Ended? then ByCoordinator(Finish)
    else ByWorker(i, OwnStep(w.pc))
  }

  lemma AwaitedIsNeverStuck(s: State, i: nat)
    requires Inv(s) && i < |s.workers|
    requires s.coordinator.pc == Awaiting(i) || s.coordinator.pc == Joining(i) || s.coordinator.pc == Finishing(i)
    ensures Enabled(s, AwaitedStep(s, i)) && !Troubles(AwaitedStep(s, i))
  {
    assert WorkerInv(s.workers[i], s.phase, s.version);
    assert s.coordinator.pc.Joining? ==> s.workers[i].startup.Closed?;
    assert s.coordinator.pc.Finishing? ==> s.phase == Aborted;
    hide Inv;
  }

  /**
   Until the coordinator has returned or was dropped, somebody can take a step, without any conflict and without
   any task being dropped.
   */
  lemma ProtocolIsNeverStuck(s: State)
    requires Reachable(s)
    requires !s.coordinator.pc.ReturnedOk? && !s.coordinator.pc.ReturnedErr? && !s.coordinator.pc.Dropped?
    ensures exists step :: Enabled(s, step) && !Troubles(step)
  {
    ReachableInv(s);
    var c, n := s.coordinator, |s.workers|;
    if c.pc.CommitWon? || c.pc.Aborting? || c.pc == Awaiting(n) || c.pc == Finishing(n) {
      var step := if s.sender.Some? then SendChange
                  else ByCoordinator(if c.pc.CommitWon? then ReturnOk else if c.pc.Aborting? then Rollback
                                     else if c.pc.Awaiting? then Decide else ReturnErr);
      assert Enabled(s, step) && !Troubles(step);
    } else {
      AwaitedIsNeverStuck(s, c.pc.i);
    }
  }

  // ---- What it does not promise ----

  lemma {:induction false} RunOneMore(start: State, steps: seq<Step>, step: Step)
    requires CanRun(start, steps) && Enabled(Run(start, steps), step)
    ensures CanRun(start, steps + [step]) && Run(start, steps + [step]) == Next(Run(start, steps), step)
    decreases |steps|
  {
    hide Enabled, Next;
    if steps == [] {
      assert steps + [step] == [step];
      assert [step][1..] == [];
    } else {
      assert (steps + [step])[1..] == steps[1..] + [step];
      RunOneMore(Next(start, steps[0]), steps[1..], step);
    }
  }

  lemma StepStaysReachable(s: State, step: Step)
    requires Reachable(s) && Enabled(s, step)
    ensures Reachable(Next(s, step))
  {
    hide CanRun, Run, Enabled, Next, Initial;
    var start: State, steps: seq<Step> :| Initial(start) && CanRun(start, steps) && Run(start, steps) == s;
    RunOneMore(start, steps, step);
  }

  /** A state with one installer, before the commit. */
  function Alone(w: Worker): State {
    State(Preparing, 0, None, Coordinator(Awaiting(0), 0, None, {}), [w])
  }

  lemma AloneStep(w: Worker, step: WorkerStep)
    requires Reachable(Alone(w)) && WorkerEnabled(Alone(w), 0, step) && !Aborts(w, step)
    ensures Reachable(Alone(Stepped(w, step, Preparing, 0)))
  {
    hide Reachable, WorkerEnabled, Stepped;
    StepStaysReachable(Alone(w), ByWorker(0, step));
    assert [w][0 := Stepped(w, step, Preparing, 0)] == [Stepped(w, step, Preparing, 0)];
  }

  lemma AloneStarts()
    ensures Reachable(Alone(FRESH))
  {
    var s := Alone(FRESH);
    assert Initial(s) && CanRun(s, []) && Run(s, []) == s;
  }

  /** An installer that answered Ready, was dropped while it waited, and has left, with its guard still to run. */
  lemma DroppedAndLeft()
    ensures Reachable(Alone(Worker(Guarding(false), ReadySent, 0, false, true, true, true)))
  {
    hide Reachable;
    AloneStarts();
    AloneStep(FRESH, Start);
    var armed := FRESH.(pc := Armed, armed := true);
    AloneStep(armed, CheckPhase);
    AloneStep(armed.(pc := Checked), EnterContext);
    var entered := armed.(pc := Entered, inside := true, entered := true);
    AloneStep(entered, SendReady);
    AloneStep(entered.(pc := Looping, startup := ReadySent), LoadPhase);
    AloneStep(entered.(pc := Waiting, startup := ReadySent), DropTask);
    AloneStep(entered.(pc := Leaving(false), startup := ReadySent, dropped := true), Leave);
  }

  lemma CommitAlone(w: Worker)
    requires Reachable(Alone(w)) && w.startup.ReadySent?
    ensures Reachable(State(Committed, 1, None, Coordinator(ReturnedOk, 1, None, {}), [w]))
  {
    hide Reachable;
    StepStaysReachable(Alone(w), ByCoordinator(TakeReady));
    var taken := Alone(w).(coordinator := Coordinator(Awaiting(1), 1, None, {}));
    StepStaysReachable(taken, ByCoordinator(Decide));
    var won := State(Committed, 0, Some(Owner), Coordinator(CommitWon, 1, None, {}), [w]);
    StepStaysReachable(won, SendChange);
    StepStaysReachable(won.(version := 1, sender := None), ByCoordinator(ReturnOk));
  }

  /**
   Ok does not promise that every worker is still inside: an installer may have been dropped, and have
   left, before the commit. `OkMeansCommitted` says exactly which installers are inside.
   */
  lemma CommitMayFindAWorkerOutside()
    ensures exists s :: Reachable(s) && s.coordinator.pc.ReturnedOk? && |s.workers| == 1 && !s.workers[0].inside
  {
    hide Reachable;
    var w := Worker(Guarding(false), ReadySent, 0, false, true, true, true);
    DroppedAndLeft();
    CommitAlone(w);
    var s := State(Committed, 1, None, Coordinator(ReturnedOk, 1, None, {}), [w]);
    assert Reachable(s) && s.coordinator.pc.ReturnedOk? && |s.workers| == 1 && !s.workers[0].inside;
  }
}
