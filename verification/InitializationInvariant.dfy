/** What holds in every reachable state of the initialization. */
module InitializationInvariant {
  import opened Base
  import opened Initialization

  /** The installer has answered Ready and has not yet begun to exit. */
  predicate InLoop(pc: WorkerPc) {
    pc.Looping? || pc.Waiting? || pc.Parked?
  }

  predicate OnWayOut(pc: WorkerPc) {
    pc.Leaving? || pc.Guarding? || pc.Exiting? || pc.Exited? || pc.Ended?
  }

  predicate Answered(w: Worker, phase: Phase) {
    && (w.startup.ReadySent? ==> w.entered && (InLoop(w.pc) || OnWayOut(w.pc)))
    && (InLoop(w.pc) || w.pc.Leaving? || w.pc.Guarding? ==> w.startup.ReadySent?)
    && (w.startup.ConflictSent? ==> (w.pc.Exiting? || w.pc.Exited? || w.pc.Ended?) && phase != Preparing)
    && (w.startup.Closed? ==> w.pc.Exited? || w.pc.Ended?)
    && (w.pc.Exited? || w.pc.Ended? ==> !w.startup.Unsent?)
    && (w.pc.Conflicting? ==> phase != Preparing)
  }

  /** Who is inside, whose guard still watches, and why an installer that answered Ready is leaving. */
  predicate Guarded(w: Worker, phase: Phase) {
    && (w.inside <==> w.pc.Entered? || InLoop(w.pc) || w.pc.Leaving?)
    && (w.inside ==> w.entered)
    && (w.pc.Looping? || w.pc.Waiting? || w.pc.Armed? || w.pc.Checked? || w.pc.Conflicting? || w.pc.Entered? ==> w.armed)
    && (w.pc.NotStarted? || w.pc.Parked? || w.pc.Exiting? || w.pc.Exited? || w.pc.Ended? ==> !w.armed)
    && (w.pc.Parked? ==> phase == Committed)
    && (w.startup.ReadySent? && OnWayOut(w.pc) && !w.armed ==> phase != Preparing)
    && (w.startup.ReadySent? && OnWayOut(w.pc) && !w.dropped ==> phase == Aborted)
    && (w.dropped ==> OnWayOut(w.pc))
    && (OnWayOut(w.pc) ==> w.pc.ok == !w.dropped)
  }

  predicate WorkerInv(w: Worker, phase: Phase, version: nat) {
    Answered(w, phase) && Guarded(w, phase) && w.seen <= version && (w.pc.Waiting? ==> w.seen == 0)
  }

  /** The phase changes once, and the change is sent once. */
  predicate Notifies(s: State) {
    && (s.phase == Preparing ==> s.version == 0 && s.sender == None)
    && (s.phase != Preparing ==> s.version == if s.sender.Some? then 0 else 1)
  }

  predicate Ends(s: State, j: nat) {
    j < |s.workers| && s.workers[j].pc.Ended?
  }

  predicate Answers(s: State, j: nat) {
    j < |s.workers| && s.workers[j].startup.ReadySent?
  }

  /** How many of the first `i` installers have answered Ready. */
  function ReadyAmong(workers: seq<Worker>, i: nat): (count: nat)
    requires i <= |workers|
    ensures count <= i
    ensures count == i <==> forall j :: 0 <= j < i ==> workers[j].startup.ReadySent?
  {
    if i == 0 then 0 else ReadyAmong(workers, i - 1) + if workers[i - 1].startup.ReadySent? then 1 else 0
  }

  /** The answers of the first `i` installers are in, and `ready` of them are Ready. */
  predicate Collected(s: State, i: nat) {
    && i <= |s.workers| && s.coordinator.ready == ReadyAmong(s.workers, i)
    && forall j :: 0 <= j < i ==> !s.workers[j].startup.Unsent?
  }

  predicate CoordinatorInv(s: State) {
    var c, n := s.coordinator, |s.workers|;
    && (c.failure.Some? || c.pc.Finishing? || c.pc.ReturnedErr? || c.pc.Dropped? ==> s.phase == Aborted)
    && (s.phase == Committed <==> c.pc.CommitWon? || c.pc.ReturnedOk?)
    && (forall j :: j in c.joined ==>
          j < n && s.workers[j].startup.Closed? && (c.pc == Joining(j) || c.pc.Dropped? || Ends(s, j)))
    && (match c.pc
        case Awaiting(i) => Collected(s, i)
        case Joining(i) => i < n && Collected(s, i) && i in c.joined
        case Finishing(i) => i <= n && forall j: nat :: j < i ==> Ends(s, j)
        case ReturnedErr(_) => forall j: nat :: j < n ==> Ends(s, j)
        case CommitWon => forall j: nat :: j < n ==> Answers(s, j)
        case ReturnedOk => forall j: nat :: j < n ==> Answers(s, j)
        case _ => true)
  }

  predicate Inv(s: State) {
    && Notifies(s) && CoordinatorInv(s)
    && forall i :: 0 <= i < |s.workers| ==> WorkerInv(s.workers[i], s.phase, s.version)
  }

  lemma InitialInv(s: State)
    requires Initial(s)
    ensures Inv(s)
  {
  }

  // ---- Every step keeps it ----

  lemma AnsweredLocal(s: State, i: nat, step: WorkerStep)
    requires WorkerEnabled(s, i, step) && WorkerInv(s.workers[i], s.phase, s.version)
    ensures var s' := WorkerNext(s, i, step); Answered(s'.workers[i], s'.phase)
  {
  }

  lemma GuardedLocal(s: State, i: nat, step: WorkerStep)
    requires WorkerEnabled(s, i, step) && WorkerInv(s.workers[i], s.phase, s.version)
    ensures var s' := WorkerNext(s, i, step); Guarded(s'.workers[i], s'.phase)
  {
  }

  /** An installer's step keeps its own invariant; the phase is the one after the step. */
  lemma WorkerStepLocal(s: State, i: nat, step: WorkerStep)
    requires Inv(s) && WorkerEnabled(s, i, step)
    ensures var s' := WorkerNext(s, i, step); WorkerInv(s'.workers[i], s'.phase, s'.version)
  {
    assert WorkerInv(s.workers[i], s.phase, s.version) && Notifies(s);
    hide Inv;
    AnsweredLocal(s, i, step);
    GuardedLocal(s, i, step);
    hide Answered, Guarded;
  }

  /** What another participant does to the phase does not disturb an installer. */
  lemma OtherWorkerKeeps(w: Worker, phase: Phase, phase': Phase, version: nat, version': nat)
    requires WorkerInv(w, phase, version) && (phase == Preparing || phase' == phase) && version <= version'
    ensures WorkerInv(w, phase', version')
  {
  }

  lemma {:induction false} SameAnswers(workers: seq<Worker>, workers': seq<Worker>, i: nat)
    requires i <= |workers| && i <= |workers'|
    requires forall j :: 0 <= j < i ==> workers'[j].startup == workers[j].startup
    ensures ReadyAmong(workers', i) == ReadyAmong(workers, i)
  {
    if i > 0 { SameAnswers(workers, workers', i - 1); }
  }

  /** What an installer has answered stays its answer. */
  lemma AnswerStays(w: Worker, step: WorkerStep, s: State, i: nat)
    requires WorkerEnabled(s, i, step) && s.workers[i] == w && WorkerInv(w, s.phase, s.version)
    ensures !w.startup.Unsent? ==> Stepped(w, step, s.phase, s.version).startup == w.startup
  {
  }

  lemma WorkerStepCollects(s: State, i: nat, step: WorkerStep, k: nat)
    requires Inv(s) && WorkerEnabled(s, i, step) && Collected(s, k)
    ensures Collected(WorkerNext(s, i, step), k)
  {
    AnswerStays(s.workers[i], step, s, i);
    hide Inv, WorkerInv, Stepped;
    SameAnswers(s.workers, WorkerNext(s, i, step).workers, k);
  }

  lemma WorkerStepCoordinator(s: State, i: nat, step: WorkerStep)
    requires Inv(s) && WorkerEnabled(s, i, step)
    ensures Notifies(WorkerNext(s, i, step)) && CoordinatorInv(WorkerNext(s, i, step))
  {
    var s' := WorkerNext(s, i, step);
    assert WorkerInv(s.workers[i], s.phase, s.version);
    assert forall j: nat :: Ends(s, j) ==> Ends(s', j);
    assert forall j: nat :: Answers(s, j) ==> Answers(s', j);
    if s.coordinator.pc.Awaiting? || s.coordinator.pc.Joining? { WorkerStepCollects(s, i, step, s.coordinator.pc.i); }
    hide ReadyAmong, Collected;
  }

  lemma WorkerStepKeeps(s: State, i: nat, step: WorkerStep)
    requires Inv(s) && WorkerEnabled(s, i, step)
    ensures Inv(WorkerNext(s, i, step))
  {
    var s' := WorkerNext(s, i, step);
    WorkerStepCoordinator(s, i, step);
    forall j | 0 <= j < |s'.workers| ensures WorkerInv(s'.workers[j], s'.phase, s'.version) {
      hide WorkerInv, CoordinatorInv, Notifies, Stepped;
      if j == i {
        WorkerStepLocal(s, i, step);
      } else {
        OtherWorkerKeeps(s.workers[j], s.phase, s'.phase, s.version, s'.version);
      }
    }
  }

  predicate Takes(step: CoordinatorStep) {
    step.TakeReady? || step.TakeConflict? || step.TakeClosed? || step.JoinOk? || step.JoinErr?
  }

  lemma TakingCoordinator(s: State, step: CoordinatorStep)
    requires Notifies(s) && CoordinatorInv(s) && CoordinatorEnabled(s, step) && Takes(step)
    ensures Notifies(CoordinatorNext(s, step)) && CoordinatorInv(CoordinatorNext(s, step))
  {
    var s' := CoordinatorNext(s, step);
    assert forall j: nat :: Ends(s, j) == Ends(s', j);
    assert forall j: nat :: Answers(s, j) == Answers(s', j);
  }

  lemma DecidingCoordinator(s: State, step: CoordinatorStep)
    requires Notifies(s) && CoordinatorInv(s) && CoordinatorEnabled(s, step) && !Takes(step)
    ensures Notifies(CoordinatorNext(s, step)) && CoordinatorInv(CoordinatorNext(s, step))
  {
    var s' := CoordinatorNext(s, step);
    assert forall j: nat :: Ends(s, j) == Ends(s', j);
    assert forall j: nat :: Answers(s, j) == Answers(s', j);
  }

  lemma CoordinatorStepKeeps(s: State, step: CoordinatorStep)
    requires Inv(s) && CoordinatorEnabled(s, step)
    ensures Inv(CoordinatorNext(s, step))
  {
    if Takes(step) { TakingCoordinator(s, step); } else { DecidingCoordinator(s, step); }
    var s' := CoordinatorNext(s, step);
    forall j | 0 <= j < |s'.workers| ensures WorkerInv(s'.workers[j], s'.phase, s'.version) {
      hide WorkerInv, CoordinatorInv, Notifies;
      OtherWorkerKeeps(s.workers[j], s.phase, s'.phase, s.version, s'.version);
    }
  }

  lemma SendKeeps(s: State)
    requires Inv(s) && s.sender.Some?
    ensures Inv(Next(s, SendChange))
  {
    var s' := Next(s, SendChange);
    assert CoordinatorInv(s') by {
      hide WorkerInv;
      assert forall j: nat :: Ends(s, j) == Ends(s', j);
      assert forall j: nat :: Answers(s, j) == Answers(s', j);
    }
    forall j | 0 <= j < |s'.workers| ensures WorkerInv(s'.workers[j], s'.phase, s'.version) {
      OtherWorkerKeeps(s.workers[j], s.phase, s'.phase, s.version, s'.version);
    }
  }

  /** Every step of the coordinator, of an installer, and of a dropped task keeps the invariant. */
  lemma StepKeepsInv(s: State, step: Step)
    requires Inv(s) && Enabled(s, step)
    ensures Inv(Next(s, step))
  {
    hide Inv, WorkerEnabled, WorkerNext, CoordinatorEnabled, CoordinatorNext;
    match step
    case ByWorker(i, work) => WorkerStepKeeps(s, i, work);
    case ByCoordinator(act) => CoordinatorStepKeeps(s, act);
    case SendChange => SendKeeps(s);
  }

  lemma {:induction false} RunKeepsInv(s: State, steps: seq<Step>)
    requires Inv(s) && CanRun(s, steps)
    ensures Inv(Run(s, steps))
    decreases |steps|
  {
    hide Inv, Enabled, Next;
    if steps != [] {
      StepKeepsInv(s, steps[0]);
      RunKeepsInv(Next(s, steps[0]), steps[1..]);
    }
  }

  lemma ReachableInv(s: State)
    requires Reachable(s)
    ensures Inv(s)
  {
    hide Inv, CanRun, Run, Initial;
    var start: State, steps: seq<Step> :| Initial(start) && CanRun(start, steps) && Run(start, steps) == s;
    InitialInv(start);
    RunKeepsInv(start, steps);
  }
}
