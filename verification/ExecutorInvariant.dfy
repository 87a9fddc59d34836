/** What holds of the executor in every reachable state. */
module ExecutorInvariant {
  import opened Base
  import opened ExecutorState

  /** How often a task occurs in a queue. */
  function Occ(ids: seq<TaskId>, t: TaskId): nat {
    multiset(ids)[t]
  }

  // ---- One task's view of the state ----

  /** How often each queue holds the task. */
  datatype Places = Places(submitted: nat, active: nat, pending: nat, awakened: nat, messages: nat)

  datatype Held = NotHeld | AsMessage | AsPromoted | AsWaking

  /** What the owner is doing with the task. */
  datatype At = Elsewhere | Polled | Ended(stage: Stage, inLoop: bool)

  datatype Mine = Mine(
    known: bool, task: Task, places: Places, held: Held, at: At, awaitsClear: bool, polledNow: bool)

  /** What all tasks see alike; `early` says that the cycle has not yet appended the woken tasks. */
  datatype Env = Env(closed: bool, early: bool, aborting: bool, cause: Option<Cause>)

  function PlacesOf(s: State, t: TaskId): Places {
    Places(Occ(s.queues.submitted, t), Occ(s.queues.active, t), Occ(s.queues.pending, t),
           Occ(s.queues.awakened, t), Occ(s.channel.messages, t))
  }

  function HeldAs(h: Hand, t: TaskId): Held {
    match h
    case Empty => NotHeld
    case Message(u) => if u == t then AsMessage else NotHeld
    case Promoted(u) => if u == t then AsPromoted else NotHeld
    case Waking(u) => if u == t then AsWaking else NotHeld
  }

  function AtPc(pc: Pc, t: TaskId): At {
    if pc == Polling(t) then Polled
    else if pc.Ending? && pc.t == t then Ended(pc.stage, pc.inLoop)
    else Elsewhere
  }

  /** The task waits in `active` for its schedule state to be cleared. */
  predicate AwaitsClear(pc: Pc, active: seq<TaskId>, t: TaskId) {
    pc.Clearing? && pc.from <= |active| && Occ(active[pc.from..], t) > 0
  }

  function View(s: State, t: TaskId): Mine {
    Mine(t in s.tasks, Get(s, t), PlacesOf(s, t), HeldAs(s.owner.hand, t), AtPc(s.owner.pc, t),
         AwaitsClear(s.owner.pc, s.queues.active, t), t in s.owner.polledNow)
  }

  predicate Aborting(pc: Pc) {
    pc.AbortHead? || (pc.Ending? && !pc.inLoop)
  }

  predicate Early(pc: Pc) {
    pc.Swapping? || pc.Draining? || pc.Appending?
  }

  function EnvOf(s: State): Env {
    Env(s.channel.closed, Early(s.owner.pc), Aborting(s.owner.pc), s.owner.cause)
  }

  // ---- Invariants of one task ----

  /** The owner's queues hold the task for scheduling. */
  predicate Queued(m: Mine) {
    m.places.submitted > 0 || m.places.active > 0 || m.places.pending > 0
  }

  /** The abort loop holds the task's handle in a local variable. */
  predicate InLocal(m: Mine) {
    m.at.Ended? && !m.at.inLoop
  }

  /** References held by wakers, by the calls that consume one, and by the messages that refused calls got back. */
  function Remotely(k: Task): nat {
    k.calls.wakers + k.calls.owning + k.calls.failed + k.calls.cleared
  }

  /** Every reference there is. */
  function Refs(m: Mine): nat {
    m.places.submitted + m.places.active + m.places.pending + m.places.awakened + m.places.messages + Remotely(m.task)
    + (if InLocal(m) then 1 else 0) + (if m.held.AsMessage? || m.held.AsPromoted? then 1 else 0)
  }

  /** No remote notification is under way. */
  predicate Quiet(m: Mine) {
    m.task.calls.won == 0 && m.task.calls.failed == 0 && m.places.messages == 0 && !m.held.AsMessage?
  }

  /** Exactly one is: owed by a call that won, refused, in the channel, or in the owner's hand. */
  predicate Inflight(m: Mine) {
    var c := m.task.calls;
    || (c.won == 1 && c.failed == 0 && m.places.messages == 0 && !m.held.AsMessage?)
    || (c.won == 0 && c.failed == 1 && m.places.messages == 0 && !m.held.AsMessage?)
    || (c.won == 0 && c.failed == 0 && m.places.messages == 1 && !m.held.AsMessage?)
    || (c.won == 0 && c.failed == 0 && m.places.messages == 0 && m.held.AsMessage?)
  }

  predicate BeingEnqueued(m: Mine) {
    m.held.AsPromoted? || m.held.AsWaking?
  }

  /** The notification of a locally scheduled task is queued, about to be, or awaits its clearing. */
  predicate Placed(m: Mine) {
    m.places.awakened > 0 || BeingEnqueued(m) || m.awaitsClear
  }

  /** The strong count is exact, no queue holds a task twice, and at most one notification is under way. */
  predicate Counted(m: Mine, e: Env) {
    && m.task.count == Refs(m)
    && m.places.submitted <= 1 && m.places.active <= 1 && m.places.pending <= 1 && m.places.awakened <= 1
    && (m.places.submitted > 0 ==> m.places.active == 0 && m.places.pending == 0)
    && (BeingEnqueued(m) ==> m.places.awakened == 0)
    && (Quiet(m) || Inflight(m))
    && (m.task.calls.failed > 0 ==> e.closed)
  }

  predicate NoCalls(c: Calls) {
    && c.wakers == 0 && c.owning == 0 && c.borrowing == 0
    && c.won == 0 && c.sent == 0 && c.notifying == 0 && c.failed == 0 && c.cleared == 0 && c.done == 0
  }

  /** Every call in flight consumes a waker or borrows one, and what is borrowed is there. */
  predicate Lent(c: Calls) {
    && c.owning + c.borrowing == c.won + c.sent + c.notifying + c.failed + c.cleared + c.done
    && (c.borrowing > 0 ==> c.wakers > 0)
  }

  /** What a task looks like before it is submitted. */
  predicate Blank(k: Task) {
    k.sched == Retired && !k.payload && k.count == 0 && k.outcomes == [] && !k.polled && !k.woken && NoCalls(k.calls)
  }

  /** The payload is present exactly while the task is live, and the owner then holds a handle. */
  predicate Owned(m: Mine) {
    var k := m.task;
    && (k.sched != Retired ==> k.payload)
    && (k.payload ==> m.known && k.outcomes == [] && (Queued(m) || InLocal(m)))
    && (k.payload && k.sched == Retired ==> m.at.Ended? && m.at.stage.Destroying?)
    && (m.at.Polled? ==> k.sched != Retired && m.places.active == 1)
    && (m.at.Ended? ==> EndedOk(m))
    && (Queued(m) && !k.payload ==> m.at.Ended? && (m.at.stage.Delivering? || m.at.stage.Delivered?))
    && (m.known && !k.payload ==> |k.outcomes| == if m.at.Ended? && m.at.stage.Delivering? then 0 else 1)
    && (!m.known ==> Blank(k))
  }

  predicate EndedOk(m: Mine)
    requires m.at.Ended?
  {
    && m.known
    && (m.at.stage.Retiring? ==> m.task.sched != Retired)
    && (m.at.stage.Destroying? ==> m.task.payload && m.task.sched == Retired)
    && (m.at.stage.Delivering? || m.at.stage.Delivered? ==> !m.task.payload)
    && (if m.at.inLoop then m.places.active == 1 else !Queued(m))
  }

  /** The schedule state tells where the notification is. */
  predicate Scheduled(m: Mine, e: Env) {
    var k := m.task;
    && (Placed(m) ==> k.sched == Local)
    && (k.sched == Local && !e.closed ==> Placed(m))
    && (k.sched == Remote && !e.closed ==> Inflight(m))
    && (k.sched == Active || k.sched == Local ==> Quiet(m))
    && (m.awaitsClear ==> m.places.active > 0 && m.places.awakened == 0 && !BeingEnqueued(m))
  }

  /** A task that was never polled has no waker, so nothing can have woken it. */
  predicate Unpolled(m: Mine, e: Env) {
    var k := m.task;
    && (!k.polled ==>
      && (k.sched == Active || k.sched == Retired) && !k.woken
      && NoCalls(k.calls) && m.held.NotHeld?
      && m.places.messages == 0 && m.places.pending == 0 && m.places.awakened == 0)
    && (m.places.submitted > 0 ==> !k.polled)
    && (e.early && m.places.active > 0 ==> !k.polled)
    && (m.at.Polled? ==> k.polled)
  }

  /** A wake since the last poll began is never lost, unless the executor is being shut down. */
  predicate WakeKept(m: Mine, e: Env) {
    var k := m.task;
    k.woken && k.sched != Retired && !e.closed ==>
      k.sched == Local || k.sched == Remote || (m.places.active > 0 && !m.at.Polled?)
  }

  /** A task that was polled in this cycle is not waiting for another poll in it. */
  predicate PolledOnce(m: Mine, e: Env) {
    m.polledNow && m.places.active > 0 ==> !m.at.Elsewhere? || e.aborting
  }

  /** Completion targets only ever hear the first published cause. */
  predicate FirstCause(outcomes: seq<Outcome>, cause: Option<Cause>) {
    forall o :: o in outcomes ==>
      && (o.Cancelled? ==> cause == Some(o.cause))
      && (o.Panicked? && o.shutdown.Some? ==> cause == o.shutdown)
  }

  predicate MineInv(m: Mine, e: Env) {
    && Counted(m, e) && Owned(m) && Scheduled(m, e) && Unpolled(m, e)
    && WakeKept(m, e) && PolledOnce(m, e) && FirstCause(m.task.outcomes, e.cause) && Lent(m.task.calls)
  }

  predicate TaskInv(s: State, t: TaskId) {
    MineInv(View(s, t), EnvOf(s))
  }

  // ---- Invariants of the whole executor ----

  predicate NoActive(pc: Pc) {
    pc.Idle? || pc.CancelCheck? || pc.Closing? || pc.Emptying? || pc.Preparing? || pc.Judging? || pc.Gone?
  }

  predicate Control(o: Owner, q: Queues) {
    && (o.pc.Polling? || (o.pc.Ending? && o.pc.inLoop) ==> q.active != [] && q.active[0] == o.pc.t)
    && (NoActive(o.pc) ==> q.active == [])
    && (o.pc.Clearing? ==> o.pc.from <= |q.active| && q.awakened == [])
    && (o.hand.Message? || o.hand.Promoted? ==> o.pc.Draining?)
    && (o.hand.Waking? ==> UserCode(o.pc))
    && (Early(o.pc) || o.pc.Clearing? ==> o.polledNow == {})
    && (o.pc.Ending? && o.pc.kind.Cancels? ==> o.cause.Some?)
    && (o.pc.Ending? && !o.pc.inLoop ==> o.pc.kind.Cancels?)
    && (o.pc.Ending? && o.pc.kind.Panics? && o.pc.stage.Delivering? && o.shutdownOnPanic ==> o.cause.Some?)
    && (Early(o.pc) ==> q.submitted == [])
  }

  predicate InAbort(pc: Pc) {
    pc.Emptying? || pc.Preparing? || Aborting(pc)
  }

  /** Once the channel is closed nothing is left but what the abort loop still holds. */
  predicate ClosedDown(o: Owner, q: Queues, c: Channel) {
    && (c.closed || o.pc.Closing? || o.dropping ==> o.cause.Some?)
    && (InAbort(o.pc) || o.pc.Gone? ==> c.closed)
    && (c.closed && !o.pc.Emptying? ==> c.messages == [])
    && (c.closed && !o.pc.Emptying? && !o.pc.Preparing? ==> q.submitted == [] && q.pending == [])
    && (c.closed && !Aborting(o.pc) ==> q.active == [])
    && (o.pc.Judging? && o.cause.Some? ==> c.closed)
    && (o.last.Some? && o.last.value.Shutdown? ==> c.closed)
    && (o.pc.Gone? ==> o.dropping)
    && (o.dropping ==> o.pc.Closing? || InAbort(o.pc) || o.pc.Gone?)
  }

  function Members(ids: seq<TaskId>): set<TaskId> {
    set t | t in ids
  }

  /** The tasks in the owner's queues. */
  function OwnedSet(q: Queues): set<TaskId> {
    Members(q.submitted) + Members(q.active) + Members(q.pending)
  }

  /** `task_count` counts the tasks in the queues; the abort loop has already subtracted its batch. */
  predicate CountExact(o: Owner, q: Queues) {
    o.taskCount == if Aborting(o.pc) then 0 else |OwnedSet(q)|
  }

  /** Some call is about to set the flag, or to wake the owner. */
  ghost predicate SomeSender(s: State) {
    exists t: TaskId :: Get(s, t).calls.sent > 0
  }

  ghost predicate SomeNotifier(s: State) {
    exists t: TaskId :: Get(s, t).calls.notifying > 0
  }

  /** A set flag means that the owner was woken or is about to be; a message means that the flag is. */
  ghost predicate Signalled(s: State) {
    && (s.channel.flag ==> s.channel.notified || SomeNotifier(s))
    && (s.channel.messages != [] && !s.owner.pc.Draining? ==> s.channel.flag || SomeSender(s))
    && (s.owner.pc.Idle? && s.owner.last == Some(Suspend) && s.channel.flag ==> s.owner.poked || SomeNotifier(s))
  }

  predicate Reported(o: Owner, q: Queues) {
    && (o.pc.Idle? && o.last == Some(Suspend) && (q.awakened != [] || o.cause.Some?) ==> o.poked)
    && (o.last.Some? && o.last.value.Shutdown? ==> o.cause == Some(o.last.value.cause))
  }

  /** From the append on: what the cycle collected was polled or still waits, unless shutdown began. */
  predicate Served(o: Owner, q: Queues) {
    && (o.pc.Polling? || (o.pc.Ending? && o.pc.inLoop && !o.pc.kind.Cancels?) ==> o.pc.t in o.polledNow)
    && (!Early(o.pc) && o.cause.None? ==> forall t :: t in o.due ==> t in o.polledNow || t in q.active)
  }

  ghost predicate Global(s: State) {
    && Control(s.owner, s.queues) && ClosedDown(s.owner, s.queues, s.channel)
    && CountExact(s.owner, s.queues) && Signalled(s) && Reported(s.owner, s.queues) && Served(s.owner, s.queues)
  }

  ghost predicate Inv(s: State) {
    Global(s) && forall t: TaskId :: TaskInv(s, t)
  }
}
