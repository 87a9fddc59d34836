/** When initialization succeeds, and that every attempt ends. */
module InitializationOutcomes {
  import opened Base
  import opened Initialization
  import opened InitializationInvariant
  import opened InitializationGuarantees

  // ---- The decision ----

  /**
   The decision is exact: the coordinator commits if and only if every installer has answered Ready and nobody
   has aborted the transaction.
   */
  lemma DecisionIsExact(s: State)
    requires Reachable(s) && CoordinatorEnabled(s, Decide)
    ensures CoordinatorNext(s, Decide).coordinator.pc.CommitWon? <==>
      s.phase == Preparing && forall j :: 0 <= j < |s.workers| ==> s.workers[j].startup.ReadySent?
    ensures !CoordinatorNext(s, Decide).coordinator.pc.CommitWon? ==>
      CoordinatorNext(s, Decide).coordinator.pc.Aborting? && CoordinatorNext(s, Decide).phase == s.phase
  {
    ReachableInv(s);
    hide WorkerInv, ReadyAmong;
  }

  /** A conflict and a failed join abort the transaction at once, so that the other installers roll back. */
  lemma FailureAborts(s: State, step: CoordinatorStep)
    requires Reachable(s) && CoordinatorEnabled(s, step) && (step.TakeConflict? || step.JoinErr?)
    ensures CoordinatorNext(s, step).phase == Aborted
  {
    ReachableInv(s);
    hide WorkerInv, ReadyAmong;
  }

  // ---- The error ----

  /** The failure that the coordinator meets in the step. */
  function Meets(s: State, step: Step): Option<Failure> {
    match step
    case ByCoordinator(TakeConflict) => Some(ContextConflict)
    case ByCoordinator(JoinErr) => Some(JoinFailed)
    case ByCoordinator(Finish) =>
      var pc := s.coordinator.pc;
      if pc.Finishing? && pc.i < |s.workers| && pc.i !in s.coordinator.joined && s.workers[pc.i].pc == Ended(false)
      then Some(JoinFailed) else None
    case _ => None
  }

  function FirstMet(s: State, steps: seq<Step>): Option<Failure>
    requires CanRun(s, steps)
    decreases |steps|
  {
    if steps == [] then None
    else if Meets(s, steps[0]).Some? then Meets(s, steps[0])
    else FirstMet(Next(s, steps[0]), steps[1..])
  }

  lemma StepMeets(s: State, step: Step)
    requires Enabled(s, step)
    ensures var c, c' := s.coordinator, Next(s, step).coordinator;
      && c'.failure == (if c.failure.Some? then c.failure else Meets(s, step))
      && (c'.pc.ReturnedErr? && !c.pc.ReturnedErr? ==>
            Meets(s, step).None? && c'.pc.error == if c.failure.Some? then c.failure.value else InitializationAborted)
      && (c.pc.ReturnedErr? ==> c'.pc == c.pc && Meets(s, step).None?)
  {
  }

  lemma {:induction false} RunMeets(s: State, steps: seq<Step>)
    requires CanRun(s, steps)
    requires var c := s.coordinator;
      c.pc.ReturnedErr? ==> c.pc.error == if c.failure.Some? then c.failure.value else InitializationAborted
    ensures var c, c' := s.coordinator, Run(s, steps).coordinator;
      && c'.failure == (if c.failure.Some? then c.failure else FirstMet(s, steps))
      && (c'.pc.ReturnedErr? ==> c'.pc.error == if c'.failure.Some? then c'.failure.value else InitializationAborted)
    decreases |steps|
  {
    hide Enabled, Next, Meets;
    if steps != [] {
      StepMeets(s, steps[0]);
      RunMeets(Next(s, steps[0]), steps[1..]);
    }
  }

  /**
   Err names the first failure: over every run the error is the first conflict or failed join that the
   coordinator met, and that the initialization was aborted if it met none.
   */
  lemma ErrNamesTheFirstFailure(start: State, steps: seq<Step>)
    requires Initial(start) && CanRun(start, steps) && Run(start, steps).coordinator.pc.ReturnedErr?
    ensures var met := FirstMet(start, steps);
      Run(start, steps).coordinator.pc.error == if met.Some? then met.value else InitializationAborted
  {
    RunMeets(start, steps);
  }

  /** A join fails exactly when the installer's task was dropped. */
  lemma JoinTellsOfTheDrop(s: State, i: nat)
    requires Reachable(s) && i < |s.workers| && s.workers[i].pc.Ended?
    ensures s.workers[i].pc == Ended(!s.workers[i].dropped)
  {
    ReachableInv(s);
    assert WorkerInv(s.workers[i], s.phase, s.version);
  }

  // ---- Success ----

  /** An installer that has met no trouble. */
  predicate Untroubled(w: Worker) {
    !w.dropped && !OnWayOut(w.pc) && !w.pc.Conflicting? && (w.startup.Unsent? || w.startup.ReadySent?)
  }

  predicate Smooth(s: State) {
    && s.phase != Aborted && s.coordinator.failure.None? && s.coordinator.joined == {}
    && (s.coordinator.pc.Awaiting? || s.coordinator.pc.CommitWon? || s.coordinator.pc.ReturnedOk?)
    && forall i :: 0 <= i < |s.workers| ==> Untroubled(s.workers[i])
  }

  lemma WorkerStepSmooth(s: State, i: nat, step: WorkerStep)
    requires Inv(s) && Smooth(s) && WorkerEnabled(s, i, step) && !step.DropTask? && !step.FindConflict?
    ensures Smooth(WorkerNext(s, i, step))
  {
    var w := s.workers[i];
    assert WorkerInv(w, s.phase, s.version) && Untroubled(w);
    assert s.phase == Committed ==> Answers(s, i);
    hide Inv;
  }

  lemma CoordinatorStepSmooth(s: State, step: CoordinatorStep)
    requires Inv(s) && Smooth(s) && CoordinatorEnabled(s, step) && !step.DropCoordinator?
    ensures Smooth(CoordinatorNext(s, step))
  {
    if step.Decide? {
      forall j | 0 <= j < |s.workers| ensures s.workers[j].startup.ReadySent? {
        assert Untroubled(s.workers[j]);
      }
    }
    hide WorkerInv;
  }

  lemma {:induction false} RunSmooth(s: State, steps: seq<Step>)
    requires Inv(s) && Smooth(s) && CanRun(s, steps) && forall step :: step in steps ==> !Troubles(step)
    ensures Smooth(Run(s, steps))
    decreases |steps|
  {
    if steps != [] {
      var step := steps[0];
      assert !Troubles(step);
      StepKeepsInv(s, step);
      hide Inv, Smooth, WorkerEnabled, WorkerNext, CoordinatorEnabled, CoordinatorNext;
      match step {
        case ByWorker(i, work) => WorkerStepSmooth(s, i, work);
        case ByCoordinator(act) => CoordinatorStepSmooth(s, act);
        case SendChange => SendSmooth(s);
      }
      RunSmooth(Next(s, step), steps[1..]);
    }
  }

  lemma SendSmooth(s: State)
    requires Smooth(s) && s.sender.Some?
    ensures Smooth(Next(s, SendChange))
  {
  }

  lemma InitialIsSmooth(s: State)
    requires Initial(s)
    ensures Smooth(s)
  {
  }

  /**
   An attempt fails for a reason: with any number of workers, if no worker is already in a context and no task is
   dropped, the transaction is never aborted and the coordinator never returns Err.
   */
  lemma ErrHasAReason(start: State, steps: seq<Step>)
    requires Initial(start) && CanRun(start, steps)
    requires Run(start, steps).phase == Aborted || Run(start, steps).coordinator.pc.ReturnedErr?
    ensures exists step :: step in steps && Troubles(step)
  {
    if forall step :: step in steps ==> !Troubles(step) {
      InitialInv(start);
      InitialIsSmooth(start);
      RunSmooth(start, steps);
      assert false;
    }
  }

  /** And it succeeds otherwise: such an attempt can only come to rest with Ok, and everyone inside. */
  lemma UntroubledAttemptSucceeds(start: State, steps: seq<Step>)
    requires Initial(start) && CanRun(start, steps) && forall step :: step in steps ==> !Troubles(step)
    requires forall step :: Enabled(Run(start, steps), step) ==> Troubles(step)
    ensures var s := Run(start, steps);
      && s.coordinator.pc.ReturnedOk? && s.phase == Committed && |s.workers| == |start.workers|
      && forall i :: 0 <= i < |s.workers| ==> s.workers[i].inside
  {
    var s := Run(start, steps);
    InitialInv(start);
    InitialIsSmooth(start);
    RunSmooth(start, steps);
    RunKeepsInv(start, steps);
    assert Reachable(s);
    assert s.coordinator.pc.ReturnedOk? ==> s.phase == Committed by { hide WorkerInv; }
    if !s.coordinator.pc.ReturnedOk? && !s.coordinator.pc.ReturnedErr? && !s.coordinator.pc.Dropped? {
      ProtocolIsNeverStuck(s);
    }
    hide Inv, Reachable;
    SameWorkers(start, steps);
    forall i | 0 <= i < |s.workers| ensures s.workers[i].inside {
      OkMeansCommitted(start, steps, i);
      assert Troubles(ByWorker(i, DropTask));
    }
  }

  lemma {:induction false} SameWorkers(s: State, steps: seq<Step>)
    requires CanRun(s, steps)
    ensures |Run(s, steps).workers| == |s.workers|
    decreases |steps|
  {
    if steps != [] { SameWorkers(Next(s, steps[0]), steps[1..]); }
  }

  // ---- Every attempt ends ----

  /** How many steps an installer, the coordinator and the notification have left, at most. */
  function WorkerRank(w: Worker): nat {
    match w.pc
    case NotStarted => 12
    case Armed => 11
    case Checked => 10
    case Entered => 9
    case Looping => if w.seen == 0 then 8 else 6
    case Waiting => 7
    case Parked => 5
    case Leaving(_) => 4
    case Guarding(_) => 3
    case Conflicting => 3
    case Exiting(_) => 2
    case Exited(_) => 1
    case Ended(_) => 0
  }

  function CoordinatorRank(pc: CoordinatorPc, n: nat): int {
    match pc
    case Awaiting(i) => 2 * (n - i) + n + 5
    case Joining(i) => 2 * (n - i) + n + 4
    case Aborting => n + 3
    case Finishing(i) => n - i + 1
    case CommitWon => 1
    case _ => 0
  }

  function SendRank(s: State): nat {
    if s.phase == Preparing then 2 else if s.sender.Some? then 1 else 0
  }

  function WorkersRank(workers: seq<Worker>): nat {
    if workers == [] then 0 else WorkerRank(workers[0]) + WorkersRank(workers[1..])
  }

  function Rank(s: State): int {
    WorkersRank(s.workers) + CoordinatorRank(s.coordinator.pc, |s.workers|) + SendRank(s)
  }

  lemma {:induction false} UpdateRank(workers: seq<Worker>, i: nat, w: Worker)
    requires i < |workers|
    ensures WorkersRank(workers[i := w]) + WorkerRank(workers[i]) == WorkersRank(workers) + WorkerRank(w)
  {
    if i == 0 {
      assert workers[0 := w][1..] == workers[1..];
    } else {
      assert workers[i := w][1..] == workers[1..][i - 1 := w];
      UpdateRank(workers[1..], i - 1, w);
    }
  }

  lemma WorkerStepRank(s: State, i: nat, step: WorkerStep)
    requires Inv(s) && WorkerEnabled(s, i, step)
    ensures WorkerRank(Stepped(s.workers[i], step, s.phase, s.version)) < WorkerRank(s.workers[i])
  {
    assert WorkerInv(s.workers[i], s.phase, s.version);
    hide CoordinatorInv, Answered, Guarded;
  }

  lemma CoordinatorStepRank(s: State, step: CoordinatorStep)
    requires Inv(s) && CoordinatorEnabled(s, step)
    ensures var n := |s.workers|;
      0 <= CoordinatorRank(CoordinatorNext(s, step).coordinator.pc, n) < CoordinatorRank(s.coordinator.pc, n)
  {
    hide WorkerInv, ReadyAmong, Notifies;
  }

  lemma RankIsNatural(s: State)
    requires Inv(s)
    ensures Rank(s) >= 0
  {
    hide WorkerInv, ReadyAmong, Notifies, WorkersRank;
  }

  lemma WorkerStepLowersRank(s: State, i: nat, step: WorkerStep)
    requires Inv(s) && WorkerEnabled(s, i, step)
    ensures Rank(WorkerNext(s, i, step)) < Rank(s)
  {
    WorkerStepRank(s, i, step);
    UpdateRank(s.workers, i, Stepped(s.workers[i], step, s.phase, s.version));
    hide Inv, WorkersRank, WorkerRank, CoordinatorRank, Stepped;
  }

  lemma CoordinatorStepLowersRank(s: State, step: CoordinatorStep)
    requires Inv(s) && CoordinatorEnabled(s, step)
    ensures Rank(CoordinatorNext(s, step)) < Rank(s)
  {
    CoordinatorStepRank(s, step);
    hide Inv, WorkersRank, CoordinatorRank;
  }

  lemma StepLowersRank(s: State, step: Step)
    requires Inv(s) && Enabled(s, step)
    ensures Rank(Next(s, step)) < Rank(s)
  {
    assert s.sender.Some? ==> s.phase != Preparing by { hide WorkerInv, CoordinatorInv; }
    hide Inv, WorkerEnabled, WorkerNext, CoordinatorEnabled, CoordinatorNext, WorkersRank, CoordinatorRank;
    match step
    case ByWorker(i, work) => WorkerStepLowersRank(s, i, work);
    case ByCoordinator(act) => CoordinatorStepLowersRank(s, act);
    case SendChange =>
  }

  lemma {:induction false} RunLowersRank(s: State, steps: seq<Step>)
    requires Inv(s) && CanRun(s, steps)
    ensures |steps| <= Rank(s)
    decreases |steps|
  {
    if steps == [] {
      RankIsNatural(s);
    } else {
      StepKeepsInv(s, steps[0]);
      StepLowersRank(s, steps[0]);
      hide Inv, Enabled, Next, Rank;
      RunLowersRank(Next(s, steps[0]), steps[1..]);
    }
  }

  lemma {:induction false} FreshRank(workers: seq<Worker>)
    requires forall i :: 0 <= i < |workers| ==> workers[i] == FRESH
    ensures WorkersRank(workers) == 12 * |workers|
  {
    if workers != [] { FreshRank(workers[1..]); }
  }

  /** Every attempt ends: in whatever order the tasks run and are dropped, there are at most so many steps. */
  lemma AttemptEnds(start: State, steps: seq<Step>)
    requires Initial(start) && CanRun(start, steps)
    ensures |steps| <= 15 * |start.workers| + 7
  {
    InitialInv(start);
    FreshRank(start.workers);
    hide Inv, WorkersRank;
    RunLowersRank(start, steps);
  }

  // ---- Late installers ----

  /** The installer has not yet looked at the phase and is not inside. */
  predicate Outside(w: Worker) {
    !w.inside && !w.entered && (w.pc.NotStarted? || w.pc.Armed? || w.pc.Exiting? || w.pc.Exited? || w.pc.Ended?)
  }

  lemma StepStaysOutside(s: State, step: Step, i: nat)
    requires Enabled(s, step) && i < |s.workers| && s.phase != Preparing && Outside(s.workers[i])
    ensures var s' := Next(s, step);
      |s'.workers| == |s.workers| && Outside(s'.workers[i]) && s'.phase != Preparing
  {
  }

  /** An installer that begins after the outcome is known never enters the context. */
  lemma {:induction false} LateInstallerNeverEnters(s: State, steps: seq<Step>, i: nat)
    requires CanRun(s, steps) && i < |s.workers| && s.phase != Preparing && Outside(s.workers[i])
    ensures |Run(s, steps).workers| == |s.workers|
    ensures !Run(s, steps).workers[i].inside && ByWorker(i, EnterContext) !in steps
    decreases |steps|
  {
    hide Enabled, Next, Outside;
    MarksAreExact(s, steps, i);
    LateStaysOutside(s, steps, i);
  }

  lemma {:induction false} LateStaysOutside(s: State, steps: seq<Step>, i: nat)
    requires CanRun(s, steps) && i < |s.workers| && s.phase != Preparing && Outside(s.workers[i])
    ensures |Run(s, steps).workers| == |s.workers|
    ensures !Run(s, steps).workers[i].inside && !Run(s, steps).workers[i].entered
    decreases |steps|
  {
    if steps != [] {
      StepStaysOutside(s, steps[0], i);
      hide Enabled, Next, Outside;
      LateStaysOutside(Next(s, steps[0]), steps[1..], i);
    }
  }
}
