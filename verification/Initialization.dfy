/**
 Entering the Tokio context on every worker: one coordinator and one installer task per worker agree on
 a transaction that is committed or aborted. Installers and coordinator may be dropped while they wait.
 */
module Initialization {
  import opened Base

  datatype Phase = Preparing | Committed | Aborted

  /** What an installer told the coordinator; `Closed` is a sender that was dropped unused. */
  datatype Startup = Unsent | ReadySent | ConflictSent | Closed

  /** Where an installer is; `ok` says whether its task returned or was dropped. */
  datatype WorkerPc =
    | NotStarted
    | Armed
    | Checked
    | Conflicting
    | Entered
    | Looping
    | Waiting
    | Parked
    | Leaving(ok: bool)
    | Guarding(ok: bool)
    | Exiting(ok: bool)
    | Exited(ok: bool)
    | Ended(ok: bool)

  /**
   An installer: its answer, the version of the phase notification it has seen, whether it is inside the
   context, and whether its guard is armed. `entered` and `dropped` only observe.
   */
  datatype Worker = Worker(
    pc: WorkerPc, startup: Startup, seen: nat, inside: bool, armed: bool, entered: bool, dropped: bool)

  /** Why an attempt fails; an installer whose task did not return is reported by its join handle. */
  datatype Failure = ContextConflict | JoinFailed | InitializationAborted

  datatype CoordinatorPc =
    | Awaiting(i: nat)
    | Joining(i: nat)
    | CommitWon
    | Aborting
    | Finishing(i: nat)
    | ReturnedOk
    | ReturnedErr(error: Failure)
    | Dropped

  /** The coordinator; `joined` holds the installers whose join handle was taken. */
  datatype Coordinator = Coordinator(pc: CoordinatorPc, ready: nat, failure: Option<Failure>, joined: set<nat>)

  datatype Who = Owner | Installer(i: nat)

  /** `sender` has changed the phase and not yet sent the notification that `version` counts. */
  datatype State = State(phase: Phase, version: nat, sender: Option<Who>, coordinator: Coordinator, workers: seq<Worker>)

  const FRESH: Worker := Worker(NotStarted, Unsent, 0, false, false, false, false)

  predicate Initial(s: State) {
    && s.phase == Preparing && s.version == 0 && s.sender == None
    && s.coordinator == Coordinator(Awaiting(0), 0, None, {})
    && forall i :: 0 <= i < |s.workers| ==> s.workers[i] == FRESH
  }

  // ---- The transaction ----

  /** `Transaction::transition`: the compare-exchange; the winner sends next. */
  function Transition(s: State, destination: Phase, who: Who): State {
    if s.phase == Preparing then s.(phase := destination, sender := Some(who)) else s
  }

  // ---- Installers ----

  datatype WorkerStep =
    | Start | CheckPhase | FindConflict | EnterContext | SendConflict | SendReady | LoadPhase | Notified
    | Leave | DropGuard | CloseStartup | End | DropTask

  predicate WorkerEnabled(s: State, i: nat, step: WorkerStep) {
    && i < |s.workers| && s.sender != Some(Installer(i))
    && var w := s.workers[i];
       match step
       case Start => w.pc.NotStarted?
       case CheckPhase => w.pc.Armed?
       case FindConflict => w.pc.Checked?
       case EnterContext => w.pc.Checked?
       case SendConflict => w.pc.Conflicting?
       case SendReady => w.pc.Entered?
       case LoadPhase => w.pc.Looping?
       case Notified => w.pc.Waiting? && s.version > w.seen
       case Leave => w.pc.Leaving?
       case DropGuard => w.pc.Guarding?
       case CloseStartup => w.pc.Exiting?
       case End => w.pc.Exited?
       case DropTask => w.pc.NotStarted? || w.pc.Waiting? || w.pc.Parked?
  }

  /** What a step does to the installer itself. */
  function Stepped(w: Worker, step: WorkerStep, phase: Phase, version: nat): Worker {
    match step
    case Start => w.(pc := Armed, armed := true)
    case CheckPhase => if phase == Preparing then w.(pc := Checked) else w.(pc := Exiting(true), armed := false)
    case FindConflict => w.(pc := Conflicting)
    case EnterContext => w.(pc := Entered, inside := true, entered := true)
    case SendConflict => w.(pc := Exiting(true), startup := ConflictSent, armed := false)
    case SendReady => w.(pc := Looping, startup := ReadySent)
    case LoadPhase => (match phase
                       case Preparing => w.(pc := Waiting)
                       case Committed => w.(pc := Parked, armed := false)
                       case Aborted => w.(pc := Leaving(true), armed := false))
    case Notified => w.(pc := Looping, seen := version)
    case Leave => w.(pc := Guarding(w.pc.Leaving? && w.pc.ok), inside := false)
    case DropGuard => w.(pc := Exiting(w.pc.Guarding? && w.pc.ok), armed := false)
    case CloseStartup =>
      w.(pc := Exited(w.pc.Exiting? && w.pc.ok), startup := if w.startup.Unsent? then Closed else w.startup)
    case End => w.(pc := Ended(w.pc.Exited? && w.pc.ok))
    case DropTask => w.(pc := if w.pc.NotStarted? then Exiting(false) else Leaving(false), dropped := true)
  }

  /** The steps that abort the transaction: a conflict, and a guard dropped while it is armed. */
  predicate Aborts(w: Worker, step: WorkerStep) {
    step.FindConflict? || (step.DropGuard? && w.armed)
  }

  function WorkerNext(s: State, i: nat, step: WorkerStep): State
    requires i < |s.workers|
  {
    var w := s.workers[i];
    var s' := if Aborts(w, step) then Transition(s, Aborted, Installer(i)) else s;
    s'.(workers := s.workers[i := Stepped(w, step, s.phase, s.version)])
  }

  // ---- The coordinator ----

  datatype CoordinatorStep =
    | TakeReady | TakeConflict | TakeClosed | JoinOk | JoinErr | Decide | ReturnOk | Rollback | Finish | ReturnErr
    | DropCoordinator

  /** The coordinator can be dropped where it awaits an installer. */
  predicate AtAwait(pc: CoordinatorPc, n: nat) {
    (pc.Awaiting? && pc.i < n) || pc.Joining? || (pc.Finishing? && pc.i < n)
  }

  predicate CoordinatorEnabled(s: State, step: CoordinatorStep) {
    var c, n := s.coordinator, |s.workers|;
    && s.sender != Some(Owner)
    && match step
       case TakeReady => c.pc.Awaiting? && c.pc.i < n && s.workers[c.pc.i].startup.ReadySent?
       case TakeConflict => c.pc.Awaiting? && c.pc.i < n && s.workers[c.pc.i].startup.ConflictSent?
       case TakeClosed => c.pc.Awaiting? && c.pc.i < n && s.workers[c.pc.i].startup.Closed?
       case JoinOk => c.pc.Joining? && c.pc.i < n && s.workers[c.pc.i].pc == Ended(true)
       case JoinErr => c.pc.Joining? && c.pc.i < n && s.workers[c.pc.i].pc == Ended(false)
       case Decide => c.pc == Awaiting(n)
       case ReturnOk => c.pc.CommitWon?
       case Rollback => c.pc.Aborting?
       case Finish => c.pc.Finishing? && c.pc.i < n && (c.pc.i in c.joined || s.workers[c.pc.i].pc.Ended?)
       case ReturnErr => c.pc == Finishing(n)
       case DropCoordinator => AtAwait(c.pc, n)
  }

  /** `get_or_insert`: the first failure is kept. */
  function FirstFailure(failure: Option<Failure>, f: Failure): Option<Failure> {
    if failure.None? then Some(f) else failure
  }

  function Fail(s: State, i: nat, f: Failure): State {
    var s', c := Transition(s, Aborted, Owner), s.coordinator;
    s'.(coordinator := c.(pc := Awaiting(i + 1), failure := FirstFailure(c.failure, f)))
  }

  /** `Installer::finish`: a join handle that is still there may report a failure. */
  function DoFinish(s: State, i: nat): State
    requires i < |s.workers|
  {
    var c := s.coordinator;
    var failed := i !in c.joined && s.workers[i].pc == Ended(false);
    s.(coordinator := c.(pc := Finishing(i + 1),
                         failure := if failed then FirstFailure(c.failure, JoinFailed) else c.failure))
  }

  /** `startup_succeeded` and `commit_if_started`. */
  function DoDecide(s: State): State {
    var c := s.coordinator;
    if c.failure.None? && c.ready == |s.workers| && s.phase == Preparing
    then Transition(s, Committed, Owner).(coordinator := c.(pc := CommitWon))
    else s.(coordinator := c.(pc := Aborting))
  }

  function CoordinatorNext(s: State, step: CoordinatorStep): State
    requires CoordinatorEnabled(s, step)
  {
    var c := s.coordinator;
    match step
    case TakeReady => s.(coordinator := c.(pc := Awaiting(c.pc.i + 1), ready := c.ready + 1))
    case TakeConflict => Fail(s, c.pc.i, ContextConflict)
    case TakeClosed => s.(coordinator := c.(pc := Joining(c.pc.i), joined := c.joined + {c.pc.i}))
    case JoinOk => s.(coordinator := c.(pc := Awaiting(c.pc.i + 1)))
    case JoinErr => Fail(s, c.pc.i, JoinFailed)
    case Decide => DoDecide(s)
    case ReturnOk => s.(coordinator := c.(pc := ReturnedOk))
    case Rollback => Transition(s, Aborted, Owner).(coordinator := c.(pc := Finishing(0)))
    case Finish => DoFinish(s, c.pc.i)
    case ReturnErr =>
      s.(coordinator := c.(pc := ReturnedErr(if c.failure.Some? then c.failure.value else InitializationAborted)))
    case DropCoordinator => Transition(s, Aborted, Owner).(coordinator := c.(pc := Dropped))
  }

  // ---- Steps and runs ----

  datatype Step = ByWorker(i: nat, work: WorkerStep) | ByCoordinator(act: CoordinatorStep) | SendChange

  predicate Enabled(s: State, step: Step) {
    match step
    case ByWorker(i, work) => WorkerEnabled(s, i, work)
    case ByCoordinator(act) => CoordinatorEnabled(s, act)
    case SendChange => s.sender.Some?
  }

  function Next(s: State, step: Step): State
    requires Enabled(s, step)
  {
    match step
    case ByWorker(i, work) => WorkerNext(s, i, work)
    case ByCoordinator(act) => CoordinatorNext(s, act)
    case SendChange => s.(version := s.version + 1, sender := None)
  }

  predicate CanRun(s: State, steps: seq<Step>)
    decreases |steps|
  {
    steps == [] || (Enabled(s, steps[0]) && CanRun(Next(s, steps[0]), steps[1..]))
  }

  function Run(s: State, steps: seq<Step>): State
    requires CanRun(s, steps)
    decreases |steps|
  {
    if steps == [] then s else Run(Next(s, steps[0]), steps[1..])
  }

  ghost predicate Reachable(s: State) {
    exists start: State, steps: seq<Step> :: Initial(start) && CanRun(start, steps) && Run(start, steps) == s
  }
}
