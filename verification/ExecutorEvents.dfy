/**
 What happens in a step as its caller knows it, told from the step and from where the owner is, and what the
 step may change. Everything that the model only observes is tied to these events.
 */
module ExecutorEvents {
  import opened Base
  import opened ExecutorState

  // ---- Events ----

  /** A waker of the task is invoked, on the owner's thread or on another. */
  predicate Wakes(step: Step, t: TaskId) {
    step == ByUser(LocalWake(t)) || step == ByWaker(Wake, t) || step == ByWaker(WakeByRef, t)
  }

  predicate Polls(s: State, step: Step, t: TaskId) {
    step == AtPoll(PollBegin) && s.queues.active != [] && s.queues.active[0] == t
  }

  /** The end of a task begins: its future is ready or panics, or the task is cancelled. */
  predicate Ends(s: State, step: Step, t: TaskId, kind: Kind) {
    match kind
    case Completes => step == AtPoll(PollReady) && s.owner.pc == Polling(t)
    case Panics => step == AtPoll(PollPanics) && s.owner.pc == Polling(t)
    case Cancels =>
      (step == AtPoll(AbortBegin) || step == AtEnd(AbortNext)) && s.queues.active != [] && s.queues.active[0] == t
  }

  /** The cause that the step would publish. */
  function Publishes(s: State, step: Step): Option<Cause> {
    match step
    case ByUser(Trigger(c)) => Some(c)
    case AtEnd(DropExecutor) => Some(DefaultCause)
    case AtPoll(RetirePayload) =>
      if s.owner.pc.Ending? && s.owner.pc.kind.Panics? && s.owner.shutdownOnPanic then Some(PanicCause) else None
    case _ => None
  }

  /** The owner's waker is called: by a remote wake, by a local wake outside a cycle, by the first trigger. */
  predicate CallsOwner(s: State, step: Step) {
    match step
    case ByWaker(RemoteNotify, _) => true
    case ByUser(EnqueueLocal) => s.owner.pc.Idle? || s.owner.dropping
    case ByUser(Trigger(_)) => s.owner.cause.None?
    case _ => false
  }

  // ---- What a step does to the owner's registers ----

  /** The task that is being ended, and how, before its target is told. */
  predicate EndingAs(pc: Pc, t: TaskId, kind: Kind) {
    pc.Ending? && pc.t == t && pc.kind == kind && !pc.stage.Delivered?
  }

  /**
   The policy stays; the cause is the first that is published; the owner was called since the last judgement
   exactly when a step called it; only the judgement returns from a cycle and only the append collects tasks.
   */
  predicate RegistersKept(s: State, step: Step, o': Owner) {
    var o := s.owner;
    && o'.shutdownOnPanic == o.shutdownOnPanic
    && o'.cause == (if o.cause.Some? then o.cause else Publishes(s, step))
    && o'.poked == (if step == AtEnd(Judge) then false else o.poked || CallsOwner(s, step))
    && (step != AtStart(AppendWakes) ==> o'.due == o.due)
    && (step != AtEnd(Judge) ==> o'.last == o.last && (o'.pc.Idle? ==> o.pc.Idle?))
  }

  /** A task is polled, and its end begins, by the steps that say so; only the delivery ends its end. */
  ghost predicate PollsTracked(s: State, step: Step, o': Owner) {
    var o := s.owner;
    && (forall t :: t in o'.polledNow ==> t in o.polledNow || Polls(s, step, t))
    && (forall t :: o'.pc == Polling(t) ==> o.pc == Polling(t) || Polls(s, step, t))
    && (forall t, kind :: EndingAs(o'.pc, t, kind) ==> EndingAs(o.pc, t, kind) || Ends(s, step, t, kind))
    && (forall t, kind :: Ends(s, step, t, kind) ==> EndingAs(o'.pc, t, kind))
    && (o'.pc.Ending? ==> (o.pc.Ending? && o.pc.t == o'.pc.t) || Ends(s, step, o'.pc.t, o'.pc.kind))
    && (step != AtPoll(Deliver) ==> forall t, kind :: EndingAs(o.pc, t, kind) ==> EndingAs(o'.pc, t, kind))
  }

  lemma StartStepRegisters(s: State, step: StartStep)
    requires StartEnabled(s, step)
    ensures RegistersKept(s, AtStart(step), StartNext(s, step).owner)
  {
    hide Get, ClearNotification, Release;
  }

  lemma StartStepTracked(s: State, step: StartStep)
    requires StartEnabled(s, step)
    ensures PollsTracked(s, AtStart(step), StartNext(s, step).owner)
  {
    hide Get, ClearNotification, Release;
  }

  lemma PollStepRegisters(s: State, step: PollStep)
    requires PollEnabled(s, step)
    ensures RegistersKept(s, AtPoll(step), PollNext(s, step).owner)
  {
    hide Get, Release, Without, RetiredTask, OutcomeOf;
  }

  lemma PollStepTracked(s: State, step: PollStep)
    requires PollEnabled(s, step)
    ensures PollsTracked(s, AtPoll(step), PollNext(s, step).owner)
  {
    hide Get, Release, Without, RetiredTask, OutcomeOf;
  }

  lemma EndStepRegisters(s: State, step: EndStep)
    requires EndEnabled(s, step)
    ensures RegistersKept(s, AtEnd(step), EndNext(s, step).owner)
  {
    hide Get, Release, JudgeOutcome;
  }

  lemma EndStepTracked(s: State, step: EndStep)
    requires EndEnabled(s, step)
    ensures PollsTracked(s, AtEnd(step), EndNext(s, step).owner)
  {
    hide Get, Release, JudgeOutcome;
  }

  lemma UserStepRegisters(s: State, step: UserStep)
    requires UserEnabled(s, step)
    ensures RegistersKept(s, ByUser(step), UserNext(s, step).owner)
  {
    hide Get, UserCode, CanUseWaker, BeginLocal;
  }

  lemma UserStepTracked(s: State, step: UserStep)
    requires UserEnabled(s, step)
    ensures PollsTracked(s, ByUser(step), UserNext(s, step).owner)
  {
    hide Get, UserCode, CanUseWaker, BeginLocal;
  }

  lemma WakerStepRegisters(s: State, step: WakerStep, t: TaskId)
    requires WakerEnabled(s, step, t)
    ensures RegistersKept(s, ByWaker(step, t), WakerNext(s, step, t).owner)
  {
    hide Get, CanUseWaker, BeginRemote;
  }

  lemma WakerStepTracked(s: State, step: WakerStep, t: TaskId)
    requires WakerEnabled(s, step, t)
    ensures PollsTracked(s, ByWaker(step, t), WakerNext(s, step, t).owner)
  {
    hide Get, CanUseWaker, BeginRemote;
  }

  lemma StepRegisters(s: State, step: Step)
    requires Enabled(s, step)
    ensures RegistersKept(s, step, Next(s, step).owner) && PollsTracked(s, step, Next(s, step).owner)
  {
    hide RegistersKept, PollsTracked, StartEnabled, StartNext, PollEnabled, PollNext, EndEnabled, EndNext;
    hide UserEnabled, UserNext, WakerEnabled, WakerNext;
    match step
    case AtStart(start) => StartStepRegisters(s, start); StartStepTracked(s, start);
    case AtPoll(poll) => PollStepRegisters(s, poll); PollStepTracked(s, poll);
    case AtEnd(end) => EndStepRegisters(s, end); EndStepTracked(s, end);
    case ByUser(user) => UserStepRegisters(s, user); UserStepTracked(s, user);
    case ByWaker(call, t) => WakerStepRegisters(s, call, t); WakerStepTracked(s, call, t);
  }

  // ---- What a step does to a task ----

  /**
   A live task is marked as woken by a wake and by nothing else, until its next poll begins; a wake leaves no
   task without its notification, and a refused one takes it back; a task counts as polled from its first poll on;
   only its end retires it.
   */
  predicate TaskKept(s: State, step: Step, s': State, t: TaskId) {
    var k, k' := Get(s, t), Get(s', t);
    && (t in s.tasks ==> t in s'.tasks && (k.sched == Retired ==> k'.sched == Retired))
    && (Wakes(step, t) && k.sched != Retired ==> k'.woken && (k'.sched == Local || k'.sched == Remote))
    && (k.woken && k'.sched != Retired && !Polls(s, step, t) ==> k'.woken)
    && (k'.woken ==> k.woken || (Wakes(step, t) && k.sched != Retired))
    && (Polls(s, step, t) ==> k'.polled && !k'.woken)
    && (k.polled ==> k'.polled)
    && (k'.polled ==> k.polled || Polls(s, step, t))
    && (step == ByWaker(RemoteClear, t) && k.sched != Retired ==> k'.sched == Active)
    && (k.sched != Retired && k'.sched == Retired ==>
          step == AtPoll(RetireSignal) && s.owner.pc.Ending? && s.owner.pc.t == t)
  }

  lemma StartStepTask(s: State, step: StartStep, t: TaskId)
    requires StartEnabled(s, step)
    ensures TaskKept(s, AtStart(step), StartNext(s, step), t)
  {
  }

  lemma PollStepTask(s: State, step: PollStep, t: TaskId)
    requires PollEnabled(s, step)
    ensures TaskKept(s, AtPoll(step), PollNext(s, step), t)
  {
    hide Without, OutcomeOf;
  }

  lemma EndStepTask(s: State, step: EndStep, t: TaskId)
    requires EndEnabled(s, step)
    ensures TaskKept(s, AtEnd(step), EndNext(s, step), t)
  {
    hide JudgeOutcome;
  }

  lemma UserStepTask(s: State, step: UserStep, t: TaskId)
    requires UserEnabled(s, step)
    ensures TaskKept(s, ByUser(step), UserNext(s, step), t)
  {
    hide UserCode, CanUseWaker;
  }

  lemma WakerStepTask(s: State, step: WakerStep, u: TaskId, t: TaskId)
    requires WakerEnabled(s, step, u)
    ensures TaskKept(s, ByWaker(step, u), WakerNext(s, step, u), t)
  {
    hide CanUseWaker;
  }

  lemma StepTask(s: State, step: Step, t: TaskId)
    requires Enabled(s, step)
    ensures TaskKept(s, step, Next(s, step), t)
  {
    hide TaskKept, Get, StartEnabled, StartNext, PollEnabled, PollNext, EndEnabled, EndNext;
    hide UserEnabled, UserNext, WakerEnabled, WakerNext;
    match step
    case AtStart(start) => StartStepTask(s, start, t);
    case AtPoll(poll) => PollStepTask(s, poll, t);
    case AtEnd(end) => EndStepTask(s, end, t);
    case ByUser(user) => UserStepTask(s, user, t);
    case ByWaker(call, u) => WakerStepTask(s, call, u, t);
  }

  // ---- What a step does to the channel ----

  /** The pending flag is cleared: at the head of a drain, and when the channel has been closed and emptied. */
  predicate Drains(step: Step) {
    step == AtStart(SwapFlag) || step == AtEnd(Emptied)
  }

  /** A message for the task is put into the channel; the first one is taken out. */
  predicate Sends(s: State, step: Step) {
    step.ByWaker? && step.call.RemoteSend? && !s.channel.closed
  }

  predicate Takes(s: State, step: Step) {
    (step == AtStart(Receive) || step == AtEnd(DropMessage)) && s.channel.messages != []
  }

  /** A call sets the pending flag and finds it clear, so that it has to wake the owner. */
  predicate SetsFlag(s: State, step: Step, t: TaskId) {
    step == ByWaker(RemoteFlag, t) && !s.channel.flag
  }

  /** The channel is a queue; the flag is set by remote calls only and cleared by drains only. */
  predicate ChannelKept(s: State, step: Step, s': State) {
    var c, c' := s.channel, s'.channel;
    && c'.messages == (if Takes(s, step) then c.messages[1..]
                       else if Sends(s, step) then c.messages + [step.t] else c.messages)
    && (step == AtStart(Receive) ==> Takes(s, step) && s'.owner.hand == Message(c.messages[0]))
    && c'.closed == (c.closed || step == AtEnd(Close))
    && c'.flag == (!Drains(step) && (c.flag || (step.ByWaker? && step.call.RemoteFlag?)))
    && c'.notified == (!Drains(step) && (c.notified || (step.ByWaker? && step.call.RemoteNotify?)))
  }

  /** A call is about to wake the owner after it set the flag, and until it has. */
  predicate NotifiersKept(s: State, step: Step, s': State, t: TaskId) {
    Get(s', t).calls.notifying + (if step == ByWaker(RemoteNotify, t) then 1 else 0)
    == Get(s, t).calls.notifying + if SetsFlag(s, step, t) then 1 else 0
  }

  lemma StartStepChannel(s: State, step: StartStep)
    requires StartEnabled(s, step)
    ensures ChannelKept(s, AtStart(step), StartNext(s, step))
  {
    hide ClearNotification;
  }

  lemma PollStepChannel(s: State, step: PollStep)
    requires PollEnabled(s, step)
    ensures ChannelKept(s, AtPoll(step), PollNext(s, step))
  {
    hide Without, OutcomeOf;
  }

  lemma EndStepChannel(s: State, step: EndStep)
    requires EndEnabled(s, step)
    ensures ChannelKept(s, AtEnd(step), EndNext(s, step))
  {
    hide JudgeOutcome;
  }

  lemma UserStepChannel(s: State, step: UserStep)
    requires UserEnabled(s, step)
    ensures ChannelKept(s, ByUser(step), UserNext(s, step))
  {
    hide UserCode, CanUseWaker;
  }

  lemma WakerStepChannel(s: State, step: WakerStep, u: TaskId)
    requires WakerEnabled(s, step, u)
    ensures ChannelKept(s, ByWaker(step, u), WakerNext(s, step, u))
  {
    hide Get, CanUseWaker, BeginRemote;
  }

  lemma StepChannel(s: State, step: Step)
    requires Enabled(s, step)
    ensures ChannelKept(s, step, Next(s, step))
  {
    hide ChannelKept, StartEnabled, StartNext, PollEnabled, PollNext, EndEnabled, EndNext;
    hide UserEnabled, UserNext, WakerEnabled, WakerNext;
    match step
    case AtStart(start) => StartStepChannel(s, start);
    case AtPoll(poll) => PollStepChannel(s, poll);
    case AtEnd(end) => EndStepChannel(s, end);
    case ByUser(user) => UserStepChannel(s, user);
    case ByWaker(call, u) => WakerStepChannel(s, call, u);
  }

  lemma StartStepNotifiers(s: State, step: StartStep, t: TaskId)
    requires StartEnabled(s, step)
    ensures Get(StartNext(s, step), t).calls.notifying == Get(s, t).calls.notifying
  {
  }

  lemma PollStepNotifiers(s: State, step: PollStep, t: TaskId)
    requires PollEnabled(s, step)
    ensures Get(PollNext(s, step), t).calls.notifying == Get(s, t).calls.notifying
  {
    hide Without, OutcomeOf;
  }

  lemma EndStepNotifiers(s: State, step: EndStep, t: TaskId)
    requires EndEnabled(s, step)
    ensures Get(EndNext(s, step), t).calls.notifying == Get(s, t).calls.notifying
  {
    hide JudgeOutcome;
  }

  lemma UserStepNotifiers(s: State, step: UserStep, t: TaskId)
    requires UserEnabled(s, step)
    ensures Get(UserNext(s, step), t).calls.notifying == Get(s, t).calls.notifying
  {
    hide UserCode, CanUseWaker;
  }

  lemma WakerStepNotifiers(s: State, step: WakerStep, u: TaskId, t: TaskId)
    requires WakerEnabled(s, step, u)
    ensures NotifiersKept(s, ByWaker(step, u), WakerNext(s, step, u), t)
  {
    hide CanUseWaker;
  }

  lemma StepNotifiers(s: State, step: Step, t: TaskId)
    requires Enabled(s, step)
    ensures NotifiersKept(s, step, Next(s, step), t)
  {
    hide Get, StartEnabled, StartNext, PollEnabled, PollNext, EndEnabled, EndNext;
    hide UserEnabled, UserNext, WakerEnabled, WakerNext;
    match step
    case AtStart(start) => StartStepNotifiers(s, start, t);
    case AtPoll(poll) => PollStepNotifiers(s, poll, t);
    case AtEnd(end) => EndStepNotifiers(s, end, t);
    case ByUser(user) => UserStepNotifiers(s, user, t);
    case ByWaker(call, u) => WakerStepNotifiers(s, call, u, t);
  }

  // ---- What a step tells a completion target ----

  function KindOf(o: Outcome): Kind {
    match o
    case Completed => Completes
    case Panicked(_) => Panics
    case Cancelled(_) => Cancels
  }

  /** The target of the task is told how the task ends. */
  predicate Delivers(s: State, step: Step, t: TaskId) {
    step == AtPoll(Deliver) && s.owner.pc.Ending? && s.owner.pc.t == t
  }

  /** The task is refused, because shutdown has begun. */
  predicate Refuses(s: State, step: Step, t: TaskId) {
    step == ByUser(Submit(t)) && s.owner.cause.Some?
  }

  /** A target is told by the delivery how its task ended, or on the spot that it was refused, and nothing else. */
  predicate OutcomesKept(s: State, step: Step, s': State, t: TaskId) {
    var told, told' := Get(s, t).outcomes, Get(s', t).outcomes;
    && (!Delivers(s, step, t) && !Refuses(s, step, t) ==> told' == told)
    && (Delivers(s, step, t) ==>
          && |told'| == |told| + 1 && told <= told'
          && var o := told'[|told|];
             && KindOf(o) == s.owner.pc.kind
             && (o.Panicked? ==> o.shutdown == s.owner.cause)
             && (o.Cancelled? && s.owner.cause.Some? ==> o.cause == s.owner.cause.value))
    && (Refuses(s, step, t) ==> told' == [Cancelled(s.owner.cause.value)])
  }

  lemma StartStepOutcomes(s: State, step: StartStep, t: TaskId)
    requires StartEnabled(s, step)
    ensures OutcomesKept(s, AtStart(step), StartNext(s, step), t)
  {
  }

  lemma PollStepOutcomes(s: State, step: PollStep, t: TaskId)
    requires PollEnabled(s, step)
    ensures OutcomesKept(s, AtPoll(step), PollNext(s, step), t)
  {
    hide Without;
  }

  lemma EndStepOutcomes(s: State, step: EndStep, t: TaskId)
    requires EndEnabled(s, step)
    ensures OutcomesKept(s, AtEnd(step), EndNext(s, step), t)
  {
    hide JudgeOutcome;
  }

  lemma UserStepOutcomes(s: State, step: UserStep, t: TaskId)
    requires UserEnabled(s, step)
    ensures OutcomesKept(s, ByUser(step), UserNext(s, step), t)
  {
    hide UserCode, CanUseWaker;
  }

  lemma WakerStepOutcomes(s: State, step: WakerStep, u: TaskId, t: TaskId)
    requires WakerEnabled(s, step, u)
    ensures OutcomesKept(s, ByWaker(step, u), WakerNext(s, step, u), t)
  {
    hide CanUseWaker;
  }

  lemma StepOutcomes(s: State, step: Step, t: TaskId)
    requires Enabled(s, step)
    ensures OutcomesKept(s, step, Next(s, step), t)
  {
    hide OutcomesKept, StartEnabled, StartNext, PollEnabled, PollNext, EndEnabled, EndNext;
    hide UserEnabled, UserNext, WakerEnabled, WakerNext;
    match step
    case AtStart(start) => StartStepOutcomes(s, start, t);
    case AtPoll(poll) => PollStepOutcomes(s, poll, t);
    case AtEnd(end) => EndStepOutcomes(s, end, t);
    case ByUser(user) => UserStepOutcomes(s, user, t);
    case ByWaker(call, u) => WakerStepOutcomes(s, call, u, t);
  }
}
