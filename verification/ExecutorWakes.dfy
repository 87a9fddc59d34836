/** No wake is lost, and every wake and every submission leads to a poll. */
module ExecutorWakes {
  import opened ExecutorState
  import opened ExecutorEvents
  import opened ExecutorInvariant
  import opened ExecutorRuns

  // ---- Wakes ----

  predicate Live(s: State, t: TaskId) {
    Get(s, t).sched != Retired
  }

  /** Woken since its last poll began. */
  predicate Woken(s: State, t: TaskId) {
    Live(s, t) && Get(s, t).woken
  }

  /** A remote notification is under way: owed by a call that won, in the channel, or in the owner's hand. */
  predicate Underway(s: State, t: TaskId) {
    Get(s, t).calls.won > 0 || t in s.channel.messages || s.owner.hand == Message(t)
  }

  /** A local notification is queued, about to be queued, or just taken over into `active`. */
  predicate QueuedLocally(s: State, t: TaskId) {
    || t in s.queues.awakened
    || s.owner.hand == Promoted(t) || s.owner.hand == Waking(t)
    || AwaitsClear(s.owner.pc, s.queues.active, t)
  }

  /** A remote notification that has not been refused. */
  predicate Pending(m: Mine) {
    m.task.calls.won > 0 || m.places.messages > 0 || m.held.AsMessage?
  }

  lemma NotificationsOfView(s: State, t: TaskId)
    ensures QueuedLocally(s, t) <==> Placed(View(s, t))
    ensures Underway(s, t) <==> Pending(View(s, t))
    ensures t in s.queues.active <==> View(s, t).places.active > 0
  {
  }

  lemma WokenLocal(m: Mine, e: Env)
    requires MineInv(m, e) && m.task.woken && m.task.sched != Retired && !e.closed
    ensures || (m.places.active > 0 && !m.at.Polled?)
            || (m.task.sched == Local && Placed(m))
            || (m.task.sched == Remote && Pending(m))
  {
    hide FirstCause, Lent, Owned, Unpolled, PolledOnce;
  }

  lemma ScheduledLocal(m: Mine, e: Env)
    requires MineInv(m, e) && m.task.sched != Retired
    ensures Placed(m) ==> m.task.sched == Local
    ensures Pending(m) ==> m.task.sched == Remote
    ensures !e.closed && m.task.sched == Local ==> Placed(m)
    ensures !e.closed && m.task.sched == Remote ==> Pending(m)
  {
    hide FirstCause, Lent, Owned, Unpolled, PolledOnce, WakeKept, Placed;
  }

  /** A task that is marked as woken still has its poll or its notification coming. */
  lemma WokenAwaitsItsPoll(s: State, t: TaskId)
    requires Reachable(s) && Woken(s, t) && !s.channel.closed
    ensures AwaitsItsPoll(s, t)
  {
    hide Global, MineInv, Placed, Pending, QueuedLocally, Underway, Occ, Reachable;
    ReachableInv(s);
    assert TaskInv(s, t);
    WokenLocal(View(s, t), EnvOf(s));
    NotificationsOfView(s, t);
  }

  /** The task is queued for a poll that has not begun, or its notification is, or is on its way. */
  predicate AwaitsItsPoll(s: State, t: TaskId) {
    || (t in s.queues.active && s.owner.pc != Polling(t))
    || (Get(s, t).sched == Local && QueuedLocally(s, t))
    || (Get(s, t).sched == Remote && Underway(s, t))
  }

  /** In the run a waker of the live task was invoked, and no poll of it has begun since. */
  predicate WokenSince(s: State, steps: seq<Step>, t: TaskId)
    requires CanRun(s, steps)
    decreases |steps|
  {
    && steps != []
    && var s', rest := Next(s, steps[0]), steps[1..];
       (Wakes(steps[0], t) && Live(s, t) && !PollsIn(s', rest, t)) || WokenSince(s', rest, t)
  }

  lemma {:induction false} RetiredForGood(s: State, steps: seq<Step>, t: TaskId)
    requires CanRun(s, steps) && t in s.tasks && !Live(s, t)
    ensures !Live(Run(s, steps), t)
    decreases |steps|
  {
    hide Enabled, Next;
    if steps != [] {
      StepTask(s, steps[0], t);
      RetiredForGood(Next(s, steps[0]), steps[1..], t);
    }
  }

  /** The mark says exactly that: over every run a live task is marked when it was woken after its last poll. */
  lemma {:induction false} MarkIsExact(s: State, steps: seq<Step>, t: TaskId)
    requires CanRun(s, steps) && Live(Run(s, steps), t)
    ensures Woken(Run(s, steps), t) <==> WokenSince(s, steps, t) || (Woken(s, t) && !PollsIn(s, steps, t))
    decreases |steps|
  {
    hide Enabled, Next, Polls, Wakes;
    if steps != [] {
      var s', rest := Next(s, steps[0]), steps[1..];
      StepTask(s, steps[0], t);
      if t in s.tasks && !Live(s, t) { RetiredForGood(s, steps, t); }
      if t in s'.tasks && !Live(s', t) { RetiredForGood(s', rest, t); }
      MarkIsExact(s', rest, t);
    }
  }

  /**
   No wake is lost: in every run and every interleaving, a live task that was woken after its last poll began
   still has its next poll or its notification coming, until shutdown closes the channel.
   */
  lemma NoWakeIsLost(s: State, steps: seq<Step>, t: TaskId)
    requires Reachable(s) && CanRun(s, steps) && WokenSince(s, steps, t)
    requires Live(Run(s, steps), t) && !Run(s, steps).channel.closed
    ensures AwaitsItsPoll(Run(s, steps), t)
  {
    hide Reachable, AwaitsItsPoll;
    MarkIsExact(s, steps, t);
    RunStaysReachable(s, steps);
    WokenAwaitsItsPoll(Run(s, steps), t);
  }

  /** The schedule state says exactly where the notification of a live task is. */
  lemma ScheduleStateIsExact(s: State, t: TaskId)
    requires Reachable(s) && Live(s, t)
    ensures QueuedLocally(s, t) ==> Get(s, t).sched == Local
    ensures Underway(s, t) ==> Get(s, t).sched == Remote
    ensures !s.channel.closed ==> (Get(s, t).sched == Local <==> QueuedLocally(s, t))
    ensures !s.channel.closed ==> (Get(s, t).sched == Remote <==> Underway(s, t))
  {
    hide Global, MineInv, Placed, Pending, QueuedLocally, Underway, Occ, Reachable;
    ReachableInv(s);
    assert TaskInv(s, t);
    ScheduledLocal(View(s, t), EnvOf(s));
    NotificationsOfView(s, t);
  }

  /** Just before the woken tasks are appended, every woken task is collected unless a remote call still owes it. */
  lemma AppendCollectsWakes(s: State, t: TaskId)
    requires Reachable(s) && s.owner.pc.Appending? && !s.channel.closed && Woken(s, t)
    ensures t in DoAppendWakes(s).owner.due || Underway(s, t)
  {
    WokenAwaitsItsPoll(s, t);
    ReachableInv(s);
    hide TaskInv;
  }

  /** Unless shutdown begins, a cycle polls every task that it collected. */
  lemma CyclePollsWhatItCollects(s: State)
    requires Reachable(s) && s.owner.pc.Judging? && s.owner.cause.None?
    ensures s.owner.due <= s.owner.polledNow
  {
    ReachableInv(s);
    hide TaskInv;
  }

  /** A task that is collected by the append is polled before the cycle is judged, unless shutdown begins. */
  lemma CollectedIsPolled(s: State, steps: seq<Step>, t: TaskId)
    requires Reachable(s) && s.owner.pc.Appending? && t in DoAppendWakes(s).owner.due
    requires CanRun(DoAppendWakes(s), steps) && AtStart(AppendWakes) !in steps
    requires var e := Run(DoAppendWakes(s), steps); e.owner.pc.Judging? && e.owner.cause.None?
    ensures PollsIn(DoAppendWakes(s), steps, t)
  {
    var s1 := DoAppendWakes(s);
    assert s1 == Next(s, AtStart(AppendWakes));
    AppendStaysReachable(s);
    RunStaysReachable(s1, steps);
    CyclePollsWhatItCollects(Run(s1, steps));
    RunKeepsDue(s1, steps);
    assert s1.owner.polledNow == {} by { ReachableInv(s); hide TaskInv; }
    hide Reachable, DoAppendWakes;
    PolledNowWasPolled(s1, steps, t);
  }

  lemma AppendStaysReachable(s: State)
    requires Reachable(s) && s.owner.pc.Appending?
    ensures Reachable(DoAppendWakes(s))
  {
    var steps := [AtStart(AppendWakes)];
    assert steps[1..] == [];
    hide Reachable, DoAppendWakes;
    RunStaysReachable(s, steps);
  }

  /**
   A wake leads to a poll: when a cycle appends and no remote call still owes the notification, a task that was
   woken is polled before that cycle is judged, however the other threads run in between.
   */
  lemma WokenTaskIsPolled(s: State, before: seq<Step>, after: seq<Step>, t: TaskId)
    requires Reachable(s) && CanRun(s, before) && WokenSince(s, before, t)
    requires var a := Run(s, before); a.owner.pc.Appending? && !a.channel.closed && Live(a, t) && !Underway(a, t)
    requires var a := DoAppendWakes(Run(s, before));
      && CanRun(a, after) && AtStart(AppendWakes) !in after
      && Run(a, after).owner.pc.Judging? && Run(a, after).owner.cause.None?
    ensures PollsIn(DoAppendWakes(Run(s, before)), after, t)
  {
    var a := Run(s, before);
    MarkIsExact(s, before, t);
    RunStaysReachable(s, before);
    AppendCollectsWakes(a, t);
    hide Reachable, WokenSince, PollsIn, DoAppendWakes;
    CollectedIsPolled(a, after, t);
  }

  // ---- New tasks ----

  /** The task is live and neither polled nor ended at the moment. */
  predicate AtRest(s: State, t: TaskId) {
    Live(s, t) && s.owner.pc != Polling(t) && !(s.owner.pc.Ending? && s.owner.pc.t == t)
  }

  lemma StaysAtRest(s: State, step: Step, t: TaskId)
    requires Inv(s) && Enabled(s, step) && AtRest(s, t) && !Polls(s, step, t) && Next(s, step).owner.cause.None?
    ensures AtRest(Next(s, step), t)
  {
    StepTask(s, step, t);
    StepRegisters(s, step);
    CancelNeedsCause(s, step, t);
    hide Inv, Enabled, Next, Get, Polls;
  }

  lemma CancelNeedsCause(s: State, step: Step, t: TaskId)
    requires Inv(s) && Enabled(s, step)
    ensures Ends(s, step, t, Cancels) ==> s.owner.cause.Some?
  {
    AbortNeedsCause(s);
    hide Inv;
  }

  lemma AbortNeedsCause(s: State)
    requires Inv(s)
    ensures InAbort(s.owner.pc) || s.channel.closed ==> s.owner.cause.Some?
  {
    hide TaskInv;
  }

  lemma {:induction false} RunStaysAtRest(s: State, steps: seq<Step>, t: TaskId)
    requires Inv(s) && CanRun(s, steps) && AtRest(s, t) && !Get(s, t).polled
    requires !PollsIn(s, steps, t) && Run(s, steps).owner.cause.None?
    ensures AtRest(Run(s, steps), t) && !Get(Run(s, steps), t).polled
    decreases |steps|
  {
    hide Inv, Enabled, Next, AtRest, Polls;
    if steps != [] {
      var s', rest := Next(s, steps[0]), steps[1..];
      StepKeepsInv(s, steps[0]);
      StepTask(s, steps[0], t);
      CauseIsKept(s', rest);
      StaysAtRest(s, steps[0], t);
      RunStaysAtRest(s', rest, t);
    }
  }

  lemma {:induction false} CauseIsKept(s: State, steps: seq<Step>)
    requires CanRun(s, steps)
    ensures s.owner.cause.Some? ==> Run(s, steps).owner.cause == s.owner.cause
    decreases |steps|
  {
    hide Enabled, Next, PollsTracked, Publishes;
    if steps != [] {
      StepRegisters(s, steps[0]);
      CauseIsKept(Next(s, steps[0]), steps[1..]);
    }
  }

  lemma NewTaskIsCollected(s: State, t: TaskId)
    requires Reachable(s) && s.owner.pc.Appending? && AtRest(s, t) && !Get(s, t).polled
    ensures t in DoAppendWakes(s).owner.due
  {
    ReachableInv(s);
    assert TaskInv(s, t);
    assert s.queues.submitted == [] by { hide TaskInv; }
    hide Global, Counted, Scheduled, WakeKept, PolledOnce, FirstCause, Lent;
  }

  /**
   A submission leads to a poll: a task that is submitted before any cause is published is polled at the latest
   in the next cycle that is judged without one.
   */
  lemma NewTaskIsPolled(s: State, before: seq<Step>, after: seq<Step>, t: TaskId)
    requires Reachable(s) && Enabled(s, ByUser(Submit(t))) && s.owner.cause.None?
    requires CanRun(DoSubmit(s, t), before) && Run(DoSubmit(s, t), before).owner.pc.Appending?
    requires var a := DoAppendWakes(Run(DoSubmit(s, t), before));
      && CanRun(a, after) && AtStart(AppendWakes) !in after
      && Run(a, after).owner.pc.Judging? && Run(a, after).owner.cause.None?
    ensures PollsIn(DoSubmit(s, t), before, t) || PollsIn(DoAppendWakes(Run(DoSubmit(s, t), before)), after, t)
  {
    var s0 := DoSubmit(s, t);
    var a := Run(s0, before);
    if !PollsIn(s0, before, t) {
      SubmittedIsAtRest(s, t);
      ReachableInv(s0);
      CauseIsKept(DoAppendWakes(a), after);
      RunStaysReachable(s0, before);
      hide Reachable, DoSubmit, DoAppendWakes, AtRest;
      RunStaysAtRest(s0, before, t);
      NewTaskIsCollected(a, t);
      CollectedIsPolled(a, after, t);
    }
  }

  lemma SubmittedIsAtRest(s: State, t: TaskId)
    requires Reachable(s) && Enabled(s, ByUser(Submit(t))) && s.owner.cause.None?
    ensures Reachable(DoSubmit(s, t)) && AtRest(DoSubmit(s, t), t) && !Get(DoSubmit(s, t), t).polled
  {
    var steps := [ByUser(Submit(t))];
    assert steps[1..] == [];
    assert CanRun(s, steps) && Run(s, steps) == DoSubmit(s, t);
    RunStaysReachable(s, steps);
    ReachableInv(s);
    CurrentIsKnown(s, t);
    hide Inv, Reachable;
  }

  lemma CurrentIsKnown(s: State, t: TaskId)
    requires Inv(s) && t !in s.tasks
    ensures AtPc(s.owner.pc, t).Elsewhere?
  {
    assert TaskInv(s, t);
    hide Global, Counted, Scheduled, Unpolled, FirstCause, Lent;
  }
}
