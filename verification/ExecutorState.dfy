/**
 The executor as a transition system. The owner thread runs the cycle one atomic access at a time;
 any number of remote threads wake tasks in between. Remote wake calls have no identity, so the
 calls in flight are counted, per task, by the stage they have reached.
 */
module ExecutorState {
  import opened Base

  type TaskId = nat

  /** The four values of `schedule_state`: 0, `TASK_ACTIVE`, and active with one notification bit. */
  datatype Sched = Retired | Active | Local | Remote

  datatype Cause = DefaultCause | PanicCause | UserCause(id: nat)

  /** What a completion target is told. */
  datatype Outcome = Completed | Panicked(shutdown: Option<Cause>) | Cancelled(cause: Cause)

  datatype CycleOutcome = Continue | Suspend | Shutdown(cause: Cause)

  /**
   The owned wakers of a task and the remote wake calls in flight. A call either consumes its waker
   (`owning`) or borrows one (`borrowing`; any number of calls may borrow the same). By stage, calls have
   won the schedule state, sent their message, are about to wake the owner, were refused by the closed
   channel, have cleared the notification but still hold the message they got back, or are done.
   */
  datatype Calls = Calls(
    wakers: nat, owning: nat, borrowing: nat,
    won: nat, sent: nat, notifying: nat, failed: nat, cleared: nat, done: nat)

  /**
   One task: its schedule state, whether its payload (future and completion target) is present, its
   strong count, and what its completion target was told. `polled` and `woken` only observe: polled
   at least once, and woken since its last poll began.
   */
  datatype Task = Task(
    sched: Sched, payload: bool, count: nat, outcomes: seq<Outcome>, polled: bool, woken: bool, calls: Calls)

  /** What the owner holds in the middle of draining a message or of waking a task locally. */
  datatype Hand = Empty | Message(t: TaskId) | Promoted(t: TaskId) | Waking(t: TaskId)

  datatype Kind = Completes | Panics | Cancels
  datatype Stage = Retiring | Destroying | Delivering | Delivered

  /** Where the owner is in its cycle. */
  datatype Pc =
    | Idle
    | Swapping
    | Draining
    | Appending
    | Clearing(from: nat)
    | PollHead
    | Polling(t: TaskId)
    | Ending(t: TaskId, kind: Kind, stage: Stage, inLoop: bool)
    | CancelCheck
    | Closing
    | Emptying
    | Preparing
    | AbortHead
    | Judging
    | Gone

  /** `new_tasks`, `active`, the intrusive `pending` list, and the owner-thread wake queue. */
  datatype Queues = Queues(
    submitted: seq<TaskId>, active: seq<TaskId>, pending: seq<TaskId>, awakened: seq<TaskId>)

  /** The remote wake channel with its pending flag; `notified`: the owner was woken since the last drain. */
  datatype Channel = Channel(messages: seq<TaskId>, closed: bool, flag: bool, notified: bool)

  /**
   The owner's registers. The last four only observe: the last cycle's outcome, whether the owner was
   woken since then, the tasks that this cycle collected, and those it has polled.
   */
  datatype Owner = Owner(
    pc: Pc, hand: Hand, taskCount: nat, cause: Option<Cause>, shutdownOnPanic: bool, dropping: bool,
    last: Option<CycleOutcome>, poked: bool, due: set<TaskId>, polledNow: set<TaskId>)

  datatype State = State(tasks: map<TaskId, Task>, queues: Queues, channel: Channel, owner: Owner)

  /** What is found under an identity that is not in use. */
  const NO_TASK: Task := Task(Retired, false, 0, [], false, false, Calls(0, 0, 0, 0, 0, 0, 0, 0, 0))

  function Get(s: State, t: TaskId): Task {
    if t in s.tasks then s.tasks[t] else NO_TASK
  }

  function Put(s: State, t: TaskId, k: Task): State {
    s.(tasks := s.tasks[t := k])
  }

  function Goto(s: State, pc: Pc): State {
    s.(owner := s.owner.(pc := pc))
  }

  function Start(shutdownOnPanic: bool): State {
    State(map[], Queues([], [], [], []), Channel([], false, false, false),
          Owner(Idle, Empty, 0, None, shutdownOnPanic, false, None, false, {}, {}))
  }

  // ---- What a step does to the task it is about ----

  function Retain(k: Task): Task {
    k.(count := k.count + 1)
  }

  /** Releasing a reference; a count of zero frees the task's storage. */
  function Release(k: Task): Task {
    k.(count := SaturatingSub(k.count, 1))
  }

  /** `clear_notification`: `fetch_and(TASK_ACTIVE)`. */
  function ClearNotification(k: Task): Task {
    k.(sched := if k.sched == Retired then Retired else Active)
  }

  /** `begin_notification(false)`. */
  function BeginLocal(k: Task): Task {
    if k.sched == Retired then k else k.(sched := if k.sched == Active then Local else k.sched, woken := true)
  }

  /** A waker can be given up while it is not the only one and lent. */
  predicate Spare(c: Calls) {
    c.wakers > 1 || (c.wakers == 1 && c.borrowing == 0)
  }

  /** `begin_notification(true)` by a call that is already counted. */
  function BeginRemote(k: Task): Task {
    var c := k.calls;
    match k.sched
    case Active => k.(sched := Remote, woken := true, calls := c.(won := c.won + 1))
    case Retired => k.(calls := c.(done := c.done + 1))
    case _ => k.(woken := true, calls := c.(done := c.done + 1))
  }

  /** `wake` moves its waker into the call. */
  function BeginWake(k: Task): Task {
    BeginRemote(k.(calls := k.calls.(wakers := SaturatingSub(k.calls.wakers, 1), owning := k.calls.owning + 1)))
  }

  /** `wake_by_ref` borrows its waker. */
  function BeginWakeByRef(k: Task): Task {
    BeginRemote(k.(calls := k.calls.(borrowing := k.calls.borrowing + 1)))
  }

  /** `schedule_remote` after the notification took its own reference: sent, or refused. */
  function Send(k: Task, closed: bool): Task {
    var c := k.calls.(won := SaturatingSub(k.calls.won, 1));
    Retain(k).(calls := if closed then c.(failed := c.failed + 1) else c.(sent := c.sent + 1))
  }

  /** A refused call clears the notification, and then drops the message it got back. */
  function Cleared(k: Task): Task {
    var c := k.calls;
    ClearNotification(k).(calls := c.(failed := SaturatingSub(c.failed, 1), cleared := c.cleared + 1))
  }

  function MessageDropped(k: Task): Task {
    var c := k.calls;
    Release(k).(calls := c.(cleared := SaturatingSub(c.cleared, 1), done := c.done + 1))
  }

  /** The swap of the pending flag: the call that sets it must wake the owner. */
  function Flagged(k: Task, wasSet: bool): Task {
    var c := k.calls.(sent := SaturatingSub(k.calls.sent, 1));
    k.(calls := if wasSet then c.(done := c.done + 1) else c.(notifying := c.notifying + 1))
  }

  function Notified(k: Task): Task {
    k.(calls := k.calls.(notifying := SaturatingSub(k.calls.notifying, 1), done := k.calls.done + 1))
  }

  /** `wake_by_ref` gives back what it borrowed, `wake` releases the waker it consumed. */
  function Returned(k: Task): Task {
    var c := k.calls;
    k.(calls := c.(done := SaturatingSub(c.done, 1), borrowing := SaturatingSub(c.borrowing, 1)))
  }

  function Consumed(k: Task): Task {
    var c := k.calls;
    Release(k).(calls := c.(done := SaturatingSub(c.done, 1), owning := SaturatingSub(c.owning, 1)))
  }

  function Cloned(k: Task): Task {
    Retain(k).(calls := k.calls.(wakers := k.calls.wakers + 1))
  }

  function WakerDropped(k: Task): Task {
    Release(k).(calls := k.calls.(wakers := SaturatingSub(k.calls.wakers, 1)))
  }

  /** `WakeSignal::retire`, with the references of the queued notifications it removes. */
  function RetiredTask(k: Task, removed: nat): Task {
    k.(sched := Retired, count := SaturatingSub(k.count, removed))
  }

  function Without(ids: seq<TaskId>, t: TaskId): seq<TaskId> {
    if ids == [] then []
    else (if ids[0] == t then [] else [ids[0]]) + Without(ids[1..], t)
  }

  /** Where code outside the executor runs on the owner thread: between cycles, in a future, in a target. */
  predicate UserCode(pc: Pc) {
    pc.Idle? || pc.Polling? || (pc.Ending? && (pc.stage.Destroying? || pc.stage.Delivered?))
  }

  /** A waker is an owned clone, or the one borrowed by the task that is being polled. */
  predicate CanUseWaker(s: State, t: TaskId) {
    Get(s, t).calls.wakers > 0 || s.owner.pc == Polling(t)
  }

  /** The start of a cycle: new tasks, remote wakes, local wakes. */
  datatype StartStep =
    | EnterCycle | SwapFlag | Receive | ReceiveNothing | Promote | Enqueue | AppendWakes | ClearNext | ClearDone

  /** The poll loop and the end of a task. */
  datatype PollStep =
    | PollBegin | AbortBegin | PollPending | PollReady | PollPanics
    | RetireSignal | RetirePayload | Deliver | Finish | PollDone

  /** Cancellation, the end of the cycle, and the drop of the executor. */
  datatype EndStep =
    | CheckCancel | Close | DropMessage | Emptied | DropAwakened | Prepare | AbortNext | AbortDone | Judge | DropExecutor

  /** What code outside the executor does on the owner thread. */
  datatype UserStep = LocalWake(t: TaskId) | EnqueueLocal | Submit(t: TaskId) | Trigger(c: Cause)

  /** What wakers do on any thread. */
  datatype WakerStep =
    | CloneWaker | DropWaker | Wake | WakeByRef | RemoteSend | RemoteClear | RemoteDropMessage
    | RemoteFlag | RemoteNotify | RemoteReturn | RemoteConsume

  datatype Step =
    | AtStart(start: StartStep)
    | AtPoll(poll: PollStep)
    | AtEnd(end: EndStep)
    | ByUser(user: UserStep)
    | ByWaker(call: WakerStep, t: TaskId)

  predicate StartEnabled(s: State, step: StartStep) {
    var o := s.owner;
    match step
    case EnterCycle => o.pc.Idle? && o.hand.Empty?
    case SwapFlag => o.pc.Swapping?
    case Receive => o.pc.Draining? && o.hand.Empty? && s.channel.messages != []
    case ReceiveNothing => o.pc.Draining? && o.hand.Empty? && s.channel.messages == []
    case Promote => o.hand.Message?
    case Enqueue => o.hand.Promoted?
    case AppendWakes => o.pc.Appending?
    case ClearNext => o.pc.Clearing? && o.pc.from < |s.queues.active|
    case ClearDone => o.pc.Clearing? && o.pc.from >= |s.queues.active|
  }

  predicate PollEnabled(s: State, step: PollStep) {
    var o, active := s.owner, s.queues.active;
    match step
    case PollBegin => o.pc.PollHead? && active != [] && o.cause.None?
    case AbortBegin => o.pc.PollHead? && active != [] && o.cause.Some?
    case PollPending => o.pc.Polling? && o.hand.Empty? && active != []
    case PollReady => o.pc.Polling? && o.hand.Empty?
    case PollPanics => o.pc.Polling? && o.hand.Empty?
    case RetireSignal => o.pc.Ending? && o.pc.stage.Retiring?
    case RetirePayload => o.pc.Ending? && o.pc.stage.Destroying? && o.hand.Empty?
    case Deliver => o.pc.Ending? && o.pc.stage.Delivering?
    case Finish => o.pc.Ending? && o.pc.stage.Delivered? && o.hand.Empty? && (o.pc.inLoop ==> active != [])
    case PollDone => o.pc.PollHead? && active == []
  }

  predicate EndEnabled(s: State, step: EndStep) {
    var pc, q := s.owner.pc, s.queues;
    match step
    case CheckCancel => pc.CancelCheck?
    case Close => pc.Closing?
    case DropMessage => pc.Emptying? && s.channel.messages != []
    case Emptied => pc.Emptying? && s.channel.messages == []
    case DropAwakened => pc.Preparing? && q.awakened != []
    case Prepare => pc.Preparing? && q.awakened == []
    case AbortNext => pc.AbortHead? && q.active != []
    case AbortDone => pc.AbortHead? && q.active == []
    case Judge => pc.Judging?
    case DropExecutor => pc.Idle? && s.owner.hand.Empty?
  }

  predicate UserEnabled(s: State, step: UserStep) {
    var o := s.owner;
    match step
    case LocalWake(t) => UserCode(o.pc) && o.hand.Empty? && CanUseWaker(s, t)
    case EnqueueLocal => o.hand.Waking?
    case Submit(t) => (UserCode(o.pc) || o.pc.Gone?) && o.hand.Empty? && t !in s.tasks
    case Trigger(_) => UserCode(o.pc) && o.hand.Empty?
  }

  predicate WakerEnabled(s: State, step: WakerStep, t: TaskId) {
    var c := Get(s, t).calls;
    match step
    case CloneWaker => CanUseWaker(s, t)
    case DropWaker => Spare(c)
    case Wake => Spare(c)
    case WakeByRef => c.wakers > 0
    case RemoteSend => c.won > 0
    case RemoteClear => c.failed > 0
    case RemoteDropMessage => c.cleared > 0
    case RemoteFlag => c.sent > 0
    case RemoteNotify => c.notifying > 0
    case RemoteReturn => c.done > 0 && c.borrowing > 0
    case RemoteConsume => c.done > 0 && c.owning > 0
  }

  predicate Enabled(s: State, step: Step) {
    match step
    case AtStart(start) => StartEnabled(s, start)
    case AtPoll(poll) => PollEnabled(s, poll)
    case AtEnd(end) => EndEnabled(s, end)
    case ByUser(user) => UserEnabled(s, user)
    case ByWaker(call, t) => WakerEnabled(s, call, t)
  }

  // ---- The owner's cycle (executor.rs, executor_shared.rs, executor_context.rs) ----

  /** `enter_cycle` and `accept_new_tasks`: the queues are swapped when there are new tasks. */
  function DoEnterCycle(s: State): State {
    var q := s.queues;
    s.(owner := s.owner.(pc := Swapping, polledNow := {}),
       queues := if q.submitted == [] then q else q.(active := q.submitted, submitted := q.active))
  }

  /** The swap at the head of `drain_remote_wakes`. */
  function DoSwapFlag(s: State): State {
    Goto(s, if s.channel.flag then Draining else Appending).(channel := s.channel.(flag := false, notified := false))
  }

  function DoReceive(s: State): State
    requires s.channel.messages != []
  {
    s.(owner := s.owner.(hand := Message(s.channel.messages[0])),
       channel := s.channel.(messages := s.channel.messages[1..]))
  }

  /** `RemoteWake::schedule_local`: promote, or drop the notification. */
  function DoPromote(s: State): State
    requires s.owner.hand.Message?
  {
    var t := s.owner.hand.t;
    var k := Get(s, t);
    if k.sched == Remote then Put(s, t, k.(sched := Local)).(owner := s.owner.(hand := Promoted(t)))
    else Put(s, t, Release(k)).(owner := s.owner.(hand := Empty))
  }

  function DoEnqueue(s: State): State
    requires s.owner.hand.Promoted?
  {
    s.(queues := s.queues.(awakened := s.queues.awakened + [s.owner.hand.t]), owner := s.owner.(hand := Empty))
  }

  function DoAppendWakes(s: State): State {
    var q := s.queues;
    var active := q.active + q.awakened;
    s.(queues := q.(active := active, awakened := []),
       owner := s.owner.(pc := Clearing(|q.active|), due := set t | t in active))
  }

  function DoClearNext(s: State): State
    requires s.owner.pc.Clearing? && s.owner.pc.from < |s.queues.active|
  {
    var t := s.queues.active[s.owner.pc.from];
    Goto(Put(s, t, ClearNotification(Get(s, t))), Clearing(s.owner.pc.from + 1))
  }

  function DoPollBegin(s: State): State
    requires s.queues.active != []
  {
    var t := s.queues.active[0];
    Put(s, t, Get(s, t).(polled := true, woken := false))
    .(owner := s.owner.(pc := Polling(t), polledNow := s.owner.polledNow + {t}))
  }

  /** A pending task stays linked, or is linked now. */
  function DoPollPending(s: State): State
    requires s.owner.pc.Polling? && s.queues.active != []
  {
    var t, q := s.owner.pc.t, s.queues;
    if t in q.pending then Goto(Put(s, t, Release(Get(s, t))), PollHead).(queues := q.(active := q.active[1..]))
    else Goto(s, PollHead).(queues := q.(active := q.active[1..], pending := q.pending + [t]))
  }

  /** `WakeSignal::retire`: a locally scheduled task also leaves the wake queue. */
  function DoRetireSignal(s: State): State
    requires s.owner.pc.Ending?
  {
    var t, q, pc := s.owner.pc.t, s.queues, s.owner.pc;
    var local := Get(s, t).sched == Local;
    var removed := if local then multiset(q.awakened)[t] else 0;
    Goto(Put(s, t, RetiredTask(Get(s, t), removed)), Ending(t, pc.kind, Destroying, pc.inLoop))
    .(queues := q.(awakened := if local then Without(q.awakened, t) else q.awakened))
  }

  /** `retire_payload`; a panic may also publish the shutdown cause before the target is told. */
  function DoRetirePayload(s: State): State
    requires s.owner.pc.Ending?
  {
    var t, o := s.owner.pc.t, s.owner;
    var publish := o.pc.kind.Panics? && o.shutdownOnPanic && o.cause.None?;
    Put(s, t, Get(s, t).(payload := false))
    .(owner := o.(pc := Ending(t, o.pc.kind, Delivering, o.pc.inLoop),
                  cause := if publish then Some(PanicCause) else o.cause))
  }

  function OutcomeOf(kind: Kind, cause: Option<Cause>): Outcome {
    match kind
    case Completes => Completed
    case Panics => Panicked(cause)
    case Cancels => Cancelled(if cause.Some? then cause.value else DefaultCause)
  }

  function DoDeliver(s: State): State
    requires s.owner.pc.Ending?
  {
    var t, o := s.owner.pc.t, s.owner;
    var k := Get(s, t);
    Goto(Put(s, t, k.(outcomes := k.outcomes + [OutcomeOf(o.pc.kind, o.cause)])),
         Ending(t, o.pc.kind, Delivered, o.pc.inLoop))
  }

  /** An ended task leaves the queues and the count. */
  function DoLeave(s: State): State
    requires s.owner.pc.Ending? && s.queues.active != []
  {
    var t, q, o := s.owner.pc.t, s.queues, s.owner;
    var k := Get(s, t);
    State(s.tasks[t := if t in q.pending then Release(Release(k)) else Release(k)],
          q.(active := q.active[1..], pending := Without(q.pending, t)), s.channel,
          o.(pc := PollHead, taskCount := SaturatingSub(o.taskCount, 1)))
  }

  /** The abort loop drops its handle; the batch was subtracted from the count before. */
  function DoFinish(s: State): State
    requires s.owner.pc.Ending? && (s.owner.pc.inLoop ==> s.queues.active != [])
  {
    if s.owner.pc.inLoop then DoLeave(s)
    else Goto(Put(s, s.owner.pc.t, Release(Get(s, s.owner.pc.t))), AbortHead)
  }

  function DoClose(s: State): State {
    Goto(s, Emptying).(channel := s.channel.(closed := true))
  }

  function DoDropMessage(s: State): State
    requires s.channel.messages != []
  {
    var t := s.channel.messages[0];
    Put(s, t, Release(Get(s, t))).(channel := s.channel.(messages := s.channel.messages[1..]))
  }

  function DoEmptied(s: State): State {
    Goto(s, Preparing).(channel := s.channel.(flag := false, notified := false))
  }

  function DoDropAwakened(s: State): State
    requires s.queues.awakened != []
  {
    var t := s.queues.awakened[0];
    Put(s, t, Release(Get(s, t))).(queues := s.queues.(awakened := s.queues.awakened[1..]))
  }

  /** `prepare_task_abort` after the wakes are gone; `active` is empty here. */
  function DoPrepare(s: State): State {
    var q, o := s.queues, s.owner;
    s.(queues := Queues([], q.active + q.submitted + q.pending, [], q.awakened),
       owner := o.(pc := AbortHead, taskCount := SaturatingSub(o.taskCount, |q.active + q.submitted + q.pending|)))
  }

  function DoAbortNext(s: State): State
    requires s.queues.active != []
  {
    Goto(s, Ending(s.queues.active[0], Cancels, Retiring, false))
    .(queues := s.queues.(active := s.queues.active[1..]))
  }

  /** `cycle_outcome`. */
  function JudgeOutcome(s: State): CycleOutcome {
    if s.owner.cause.Some? && s.owner.taskCount == 0 then Shutdown(s.owner.cause.value)
    else if s.queues.submitted != [] || s.queues.awakened != [] || s.channel.flag then Continue
    else Suspend
  }

  function DoJudge(s: State): State {
    s.(owner := s.owner.(pc := Idle, last := Some(JudgeOutcome(s)), poked := false))
  }

  /** `Shutdown::publish`: only the first cause is kept. */
  function Published(cause: Option<Cause>, c: Cause): Option<Cause> {
    if cause.None? then Some(c) else cause
  }

  function DoDropExecutor(s: State): State {
    s.(owner := s.owner.(pc := Closing, dropping := true, cause := Published(s.owner.cause, DefaultCause)))
  }

  // ---- User code on the owner thread ----

  function DoLocalWake(s: State, t: TaskId): State {
    var k := Get(s, t);
    Put(s, t, BeginLocal(k)).(owner := if k.sched == Active then s.owner.(hand := Waking(t)) else s.owner)
  }

  /** `schedule_local`: retain, enqueue, and wake the owner when no cycle is running. */
  function DoEnqueueLocal(s: State): State
    requires s.owner.hand.Waking?
  {
    var t, o := s.owner.hand.t, s.owner;
    Put(s, t, Retain(Get(s, t)))
    .(queues := s.queues.(awakened := s.queues.awakened + [t]),
      owner := o.(hand := Empty, poked := o.poked || o.pc.Idle? || o.dropping))
  }

  /** `add_task`: registered, or cancelled on the spot once shutdown has started. */
  function DoSubmit(s: State, t: TaskId): State {
    var o, k := s.owner, Get(s, t);
    if o.cause.Some? then Put(s, t, k.(outcomes := [Cancelled(o.cause.value)]))
    else Put(s, t, k.(sched := Active, payload := true, count := 1))
         .(queues := s.queues.(submitted := s.queues.submitted + [t]), owner := o.(taskCount := o.taskCount + 1))
  }

  /** `Shutdown::trigger` wakes the owner when it records the cause. */
  function DoTrigger(s: State, c: Cause): State {
    var o := s.owner;
    s.(owner := o.(cause := Published(o.cause, c), poked := o.poked || o.cause.None?))
  }

  // ---- Remote wake calls that touch more than the task (wake.rs) ----

  function DoRemoteSend(s: State, t: TaskId): State {
    var c := s.channel;
    Put(s, t, Send(Get(s, t), c.closed)).(channel := if c.closed then c else c.(messages := c.messages + [t]))
  }

  function DoRemoteFlag(s: State, t: TaskId): State {
    Put(s, t, Flagged(Get(s, t), s.channel.flag)).(channel := s.channel.(flag := true))
  }

  function DoRemoteNotify(s: State, t: TaskId): State {
    Put(s, t, Notified(Get(s, t)))
    .(channel := s.channel.(notified := true), owner := s.owner.(poked := true))
  }

  // ---- The step relation ----

  function StartNext(s: State, step: StartStep): State
    requires StartEnabled(s, step)
  {
    match step
    case EnterCycle => DoEnterCycle(s)
    case SwapFlag => DoSwapFlag(s)
    case Receive => DoReceive(s)
    case ReceiveNothing => Goto(s, Appending)
    case Promote => DoPromote(s)
    case Enqueue => DoEnqueue(s)
    case AppendWakes => DoAppendWakes(s)
    case ClearNext => DoClearNext(s)
    case ClearDone => Goto(s, PollHead)
  }

  function PollNext(s: State, step: PollStep): State
    requires PollEnabled(s, step)
  {
    match step
    case PollBegin => DoPollBegin(s)
    case AbortBegin => Goto(s, Ending(s.queues.active[0], Cancels, Retiring, true))
    case PollPending => DoPollPending(s)
    case PollReady => Goto(s, Ending(s.owner.pc.t, Completes, Retiring, true))
    case PollPanics => Goto(s, Ending(s.owner.pc.t, Panics, Retiring, true))
    case RetireSignal => DoRetireSignal(s)
    case RetirePayload => DoRetirePayload(s)
    case Deliver => DoDeliver(s)
    case Finish => DoFinish(s)
    case PollDone => Goto(s, CancelCheck)
  }

  function EndNext(s: State, step: EndStep): State
    requires EndEnabled(s, step)
  {
    match step
    case CheckCancel => Goto(s, if s.owner.cause.Some? then Closing else Judging)
    case Close => DoClose(s)
    case DropMessage => DoDropMessage(s)
    case Emptied => DoEmptied(s)
    case DropAwakened => DoDropAwakened(s)
    case Prepare => DoPrepare(s)
    case AbortNext => DoAbortNext(s)
    case AbortDone => Goto(s, if s.owner.dropping then Gone else Judging)
    case Judge => DoJudge(s)
    case DropExecutor => DoDropExecutor(s)
  }

  function UserNext(s: State, step: UserStep): State
    requires UserEnabled(s, step)
  {
    match step
    case LocalWake(t) => DoLocalWake(s, t)
    case EnqueueLocal => DoEnqueueLocal(s)
    case Submit(t) => DoSubmit(s, t)
    case Trigger(c) => DoTrigger(s, c)
  }

  function WakerNext(s: State, step: WakerStep, t: TaskId): State
    requires WakerEnabled(s, step, t)
  {
    match step
    case CloneWaker => Put(s, t, Cloned(Get(s, t)))
    case DropWaker => Put(s, t, WakerDropped(Get(s, t)))
    case Wake => Put(s, t, BeginWake(Get(s, t)))
    case WakeByRef => Put(s, t, BeginWakeByRef(Get(s, t)))
    case RemoteSend => DoRemoteSend(s, t)
    case RemoteClear => Put(s, t, Cleared(Get(s, t)))
    case RemoteDropMessage => Put(s, t, MessageDropped(Get(s, t)))
    case RemoteFlag => DoRemoteFlag(s, t)
    case RemoteNotify => DoRemoteNotify(s, t)
    case RemoteReturn => Put(s, t, Returned(Get(s, t)))
    case RemoteConsume => Put(s, t, Consumed(Get(s, t)))
  }

  function Next(s: State, step: Step): State
    requires Enabled(s, step)
  {
    match step
    case AtStart(start) => StartNext(s, start)
    case AtPoll(poll) => PollNext(s, poll)
    case AtEnd(end) => EndNext(s, end)
    case ByUser(user) => UserNext(s, user)
    case ByWaker(call, t) => WakerNext(s, call, t)
  }
}
