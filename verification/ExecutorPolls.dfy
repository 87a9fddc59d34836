/** The poll loop and the end of a task keep the invariant. */
module ExecutorPolls {
  import opened ExecutorState
  import opened ExecutorInvariant
  import opened ExecutorFrames

  // ---- A poll begins ----

  lemma PollBeginView(s: State, t: TaskId)
    requires s.owner.pc.PollHead? && s.queues.active != []
    ensures EnvOf(DoPollBegin(s)) == EnvOf(s)
    ensures var m := View(s, t);
            View(DoPollBegin(s), t) == if t != s.queues.active[0] then m else
              m.(known := true, task := m.task.(polled := true, woken := false), at := Polled, polledNow := true)
  {
    hide Occ;
  }

  lemma PollBeginLocal(m: Mine, e: Env)
    requires MineInv(m, e) && m.places.active > 0 && m.at.Elsewhere? && !e.early
    ensures MineInv(m.(known := true, task := m.task.(polled := true, woken := false), at := Polled, polledNow := true), e)
  {
    hide FirstCause, Lent;
  }

  lemma PollBeginGlobal(s: State)
    requires Global(s) && s.owner.pc.PollHead? && s.queues.active != []
    ensures Global(DoPollBegin(s))
  {
    hide SomeSender, SomeNotifier, OwnedSet;
    CallsKept(s, DoPollBegin(s), s.queues.active[0]);
  }

  lemma PollBeginKeeps(s: State)
    requires Inv(s) && s.owner.pc.PollHead? && s.queues.active != []
    ensures Inv(DoPollBegin(s))
  {
    hide MineInv, Global;
    var s', u := DoPollBegin(s), s.queues.active[0];
    PollBeginGlobal(s);
    forall t ensures EnvOf(s') == EnvOf(s) && (t != u ==> View(s', t) == View(s, t)) { PollBeginView(s, t); }
    assert TaskInv(s', u) by {
      assert TaskInv(s, u);
      PollBeginView(s, u);
      PollBeginLocal(View(s, u), EnvOf(s));
    }
    OneTaskKeeps(s, s', u);
  }

  // ---- A poll returns Pending ----

  function AfterPending(m: Mine): Mine
    requires m.places.active > 0
  {
    if m.places.pending > 0
    then m.(known := true, task := Release(m.task), at := Elsewhere, places := m.places.(active := m.places.active - 1))
    else m.(at := Elsewhere, places := m.places.(active := m.places.active - 1, pending := 1))
  }

  lemma PollPendingView(s: State, t: TaskId)
    requires s.owner.pc.Polling? && s.queues.active != [] && s.queues.active[0] == s.owner.pc.t
    ensures EnvOf(DoPollPending(s)) == EnvOf(s)
    ensures t != s.owner.pc.t ==> View(DoPollPending(s), t) == View(s, t)
    ensures t == s.owner.pc.t ==>
      View(s, t).places.active > 0 && View(DoPollPending(s), t) == AfterPending(View(s, t))
  {
    assert s.owner.pc.t in s.queues.pending <==> Occ(s.queues.pending, s.owner.pc.t) > 0;
    hide Occ;
    OccPop(s.queues.active, t);
    OccPush(s.queues.pending, s.owner.pc.t, t);
  }

  lemma PollPendingLocal(m: Mine, e: Env)
    requires MineInv(m, e) && m.at.Polled? && m.held.NotHeld? && m.places.active > 0 && !m.awaitsClear
    ensures MineInv(AfterPending(m), e)
  {
    hide FirstCause, Lent;
  }

  lemma PollPendingOwned(q: Queues, t: TaskId)
    requires q.active != [] && q.active[0] == t
    ensures t in q.pending ==> OwnedSet(q.(active := q.active[1..])) == OwnedSet(q)
    ensures OwnedSet(q.(active := q.active[1..], pending := q.pending + [t])) == OwnedSet(q)
  {
    assert q.active == [t] + q.active[1..];
    if t in q.pending {
      assert OwnedSet(q.(active := q.active[1..])) == OwnedSet(q);
    }
    assert OwnedSet(q.(active := q.active[1..], pending := q.pending + [t])) == OwnedSet(q);
  }

  lemma PollPendingGlobal(s: State)
    requires Global(s) && s.owner.pc.Polling? && s.queues.active != [] && s.owner.hand.Empty?
    ensures Global(DoPollPending(s))
  {
    hide SomeSender, SomeNotifier, OwnedSet;
    PollPendingOwned(s.queues, s.owner.pc.t);
    CallsKept(s, DoPollPending(s), s.owner.pc.t);
  }

  lemma PollPendingKeeps(s: State)
    requires Inv(s) && s.owner.pc.Polling? && s.owner.hand.Empty? && s.queues.active != []
    ensures Inv(DoPollPending(s))
  {
    hide MineInv, Global, AfterPending;
    var s', u := DoPollPending(s), s.owner.pc.t;
    OwnerFacts(s);
    PollPendingGlobal(s);
    forall t ensures EnvOf(s') == EnvOf(s) && (t != u ==> View(s', t) == View(s, t)) { PollPendingView(s, t); }
    assert TaskInv(s', u) by {
      assert TaskInv(s, u);
      PollPendingView(s, u);
      PollPendingLocal(View(s, u), EnvOf(s));
    }
    OneTaskKeeps(s, s', u);
  }

  // ---- A task ends: the stages of its retirement ----

  lemma GotoEndView(s: State, pc: Pc, t: TaskId)
    requires pc.Ending? && !s.owner.pc.Clearing?
    requires s.owner.pc == Polling(pc.t) || s.owner.pc.PollHead?
    ensures EnvOf(Goto(s, pc)) == EnvOf(s).(aborting := !pc.inLoop)
    ensures View(Goto(s, pc), t) == if t == pc.t then View(s, t).(at := Ended(pc.stage, pc.inLoop)) else View(s, t)
  {
    hide Occ;
  }

  lemma EndLocal(m: Mine, e: Env)
    requires MineInv(m, e) && (m.at.Polled? || (m.at.Elsewhere? && m.places.active > 0))
    ensures MineInv(m.(at := Ended(Retiring, true)), e)
  {
    hide FirstCause, Lent;
  }

  lemma EndGlobal(s: State, kind: Kind)
    requires Global(s) && s.owner.hand.Empty? && s.queues.active != []
    requires if kind.Cancels? then s.owner.pc.PollHead? && s.owner.cause.Some? else s.owner.pc == Polling(s.queues.active[0])
    ensures Global(Goto(s, Ending(s.queues.active[0], kind, Retiring, true)))
  {
    hide SomeSender, SomeNotifier, OwnedSet;
    SameTasks(s, Goto(s, Ending(s.queues.active[0], kind, Retiring, true)));
  }

  lemma EndKeeps(s: State, kind: Kind)
    requires Inv(s) && s.owner.hand.Empty? && s.queues.active != []
    requires if kind.Cancels? then s.owner.pc.PollHead? && s.owner.cause.Some? else s.owner.pc == Polling(s.queues.active[0])
    ensures Inv(Goto(s, Ending(s.queues.active[0], kind, Retiring, true)))
  {
    var u := s.queues.active[0];
    var pc := Ending(u, kind, Retiring, true);
    var s' := Goto(s, pc);
    hide MineInv, Global;
    EndGlobal(s, kind);
    forall t ensures EnvOf(s') == EnvOf(s) && (t != u ==> View(s', t) == View(s, t)) { GotoEndView(s, pc, t); }
    assert TaskInv(s', u) by {
      assert TaskInv(s, u);
      GotoEndView(s, pc, u);
      EndLocal(View(s, u), EnvOf(s));
    }
    OneTaskKeeps(s, s', u);
  }

  lemma RetireView(s: State, t: TaskId)
    requires s.owner.pc.Ending? && s.owner.pc.stage.Retiring?
    requires var u := s.owner.pc.t; Occ(s.queues.awakened, u) > 0 ==> Get(s, u).sched == Local
    ensures EnvOf(DoRetireSignal(s)) == EnvOf(s)
    ensures var m := View(s, t);
            View(DoRetireSignal(s), t) == if t != s.owner.pc.t then m else
              m.(known := true, task := RetiredTask(m.task, m.places.awakened),
                 places := m.places.(awakened := 0), at := Ended(Destroying, s.owner.pc.inLoop))
  {
    var u, awakened := s.owner.pc.t, s.queues.awakened;
    assert multiset(awakened)[u] == Occ(awakened, u);
    hide Occ, Without, RetiredTask;
    OccWithout(awakened, u, t);
  }

  lemma RetireLocal(m: Mine, e: Env)
    requires MineInv(m, e) && m.at.Ended? && m.at.stage.Retiring? && m.held.NotHeld? && !m.awaitsClear
    ensures MineInv(m.(known := true, task := RetiredTask(m.task, m.places.awakened),
                       places := m.places.(awakened := 0), at := Ended(Destroying, m.at.inLoop)), e)
  {
    hide FirstCause, Lent;
  }

  lemma RetireGlobal(s: State)
    requires Global(s) && s.owner.pc.Ending? && s.owner.pc.stage.Retiring?
    ensures Global(DoRetireSignal(s))
  {
    var s' := DoRetireSignal(s);
    hide SomeSender, SomeNotifier, OwnedSet, Without, Get;
    OwnedIgnoresWakes(s.queues, s'.queues.awakened);
    SameCalls(s, s', s.owner.pc.t, s'.tasks[s.owner.pc.t]);
  }

  lemma AwakenedIsLocal(m: Mine, e: Env)
    requires MineInv(m, e)
    ensures m.places.awakened > 0 ==> m.task.sched == Local
  {
    hide FirstCause, Lent, Unpolled, Owned, Counted;
  }

  lemma RetireKeeps(s: State)
    requires Inv(s) && s.owner.pc.Ending? && s.owner.pc.stage.Retiring?
    ensures Inv(DoRetireSignal(s))
  {
    hide MineInv, Global;
    var s', u := DoRetireSignal(s), s.owner.pc.t;
    RetireGlobal(s);
    assert TaskInv(s, u);
    OwnerFacts(s);
    AwakenedIsLocal(View(s, u), EnvOf(s));
    forall t ensures EnvOf(s') == EnvOf(s) && (t != u ==> View(s', t) == View(s, t)) { RetireView(s, t); }
    assert TaskInv(s', u) by {
      RetireView(s, u);
      RetireLocal(View(s, u), EnvOf(s));
    }
    OneTaskKeeps(s, s', u);
  }

  lemma PayloadView(s: State, t: TaskId)
    requires s.owner.pc.Ending? && s.owner.pc.stage.Destroying?
    ensures EnvOf(DoRetirePayload(s)) == EnvOf(s).(cause := DoRetirePayload(s).owner.cause)
    ensures var m := View(s, t);
            View(DoRetirePayload(s), t) == if t != s.owner.pc.t then m else
              m.(known := true, task := m.task.(payload := false), at := Ended(Delivering, s.owner.pc.inLoop))
  {
    hide Occ;
  }

  lemma PayloadLocal(m: Mine, e: Env)
    requires MineInv(m, e) && m.at.Ended? && m.at.stage.Destroying?
    ensures MineInv(m.(known := true, task := m.task.(payload := false), at := Ended(Delivering, m.at.inLoop)), e)
  {
    hide FirstCause, Lent;
  }

  lemma PayloadGlobal(s: State)
    requires Global(s) && s.owner.pc.Ending? && s.owner.pc.stage.Destroying? && s.owner.hand.Empty?
    ensures Global(DoRetirePayload(s))
  {
    hide SomeSender, SomeNotifier, OwnedSet, Get;
    var u := s.owner.pc.t;
    SameCalls(s, DoRetirePayload(s), u, DoRetirePayload(s).tasks[u]);
  }

  lemma PayloadKeeps(s: State)
    requires Inv(s) && s.owner.pc.Ending? && s.owner.pc.stage.Destroying? && s.owner.hand.Empty?
    ensures Inv(DoRetirePayload(s))
  {
    hide MineInv, Global;
    var s', u := DoRetirePayload(s), s.owner.pc.t;
    PayloadGlobal(s);
    forall t ensures TaskInv(s', t) {
      assert TaskInv(s, t);
      PayloadView(s, t);
      if t == u { PayloadLocal(View(s, u), EnvOf(s)); }
      CauseLocal(View(s', t), EnvOf(s), s'.owner.cause);
    }
  }

  lemma DeliverView(s: State, t: TaskId)
    requires s.owner.pc.Ending?
    ensures EnvOf(DoDeliver(s)) == EnvOf(s)
    ensures var m := View(s, t);
            View(DoDeliver(s), t) == if t != s.owner.pc.t then m else
              m.(known := true, task := m.task.(outcomes := m.task.outcomes + [OutcomeOf(s.owner.pc.kind, s.owner.cause)]),
                 at := Ended(Delivered, s.owner.pc.inLoop))
  {
    hide Occ, OutcomeOf;
  }

  lemma DeliverLocal(m: Mine, e: Env, kind: Kind)
    requires MineInv(m, e) && m.at.Ended? && m.at.stage.Delivering? && (kind.Cancels? ==> e.cause.Some?)
    ensures MineInv(m.(known := true, task := m.task.(outcomes := m.task.outcomes + [OutcomeOf(kind, e.cause)]),
                       at := Ended(Delivered, m.at.inLoop)), e)
  {
  }

  lemma DeliverGlobal(s: State)
    requires Global(s) && s.owner.pc.Ending? && s.owner.pc.stage.Delivering?
    ensures Global(DoDeliver(s))
  {
    hide SomeSender, SomeNotifier, OwnedSet, Get;
    var u := s.owner.pc.t;
    SameCalls(s, DoDeliver(s), u, DoDeliver(s).tasks[u]);
  }

  lemma DeliverKeeps(s: State)
    requires Inv(s) && s.owner.pc.Ending? && s.owner.pc.stage.Delivering?
    ensures Inv(DoDeliver(s))
  {
    hide MineInv, Global, OutcomeOf;
    var s', u := DoDeliver(s), s.owner.pc.t;
    DeliverGlobal(s);
    OwnerFacts(s);
    forall t ensures EnvOf(s') == EnvOf(s) && (t != u ==> View(s', t) == View(s, t)) { DeliverView(s, t); }
    assert TaskInv(s', u) by {
      assert TaskInv(s, u);
      DeliverView(s, u);
      DeliverLocal(View(s, u), EnvOf(s), s.owner.pc.kind);
    }
    OneTaskKeeps(s, s', u);
  }

  // ---- An ended task leaves ----

  function AfterFinish(m: Mine): Mine
    requires m.at.Ended? && (m.at.inLoop ==> m.places.active > 0)
  {
    if !m.at.inLoop then m.(known := true, task := Release(m.task), at := Elsewhere)
    else m.(known := true, at := Elsewhere, places := m.places.(active := m.places.active - 1, pending := 0),
            task := if m.places.pending > 0 then Release(Release(m.task)) else Release(m.task))
  }

  lemma LeaveView(s: State, t: TaskId)
    requires s.owner.pc.Ending? && s.owner.pc.inLoop && s.queues.active != [] && s.queues.active[0] == s.owner.pc.t
    ensures EnvOf(DoLeave(s)) == EnvOf(s)
    ensures t != s.owner.pc.t ==> View(DoLeave(s), t) == View(s, t)
    ensures t == s.owner.pc.t ==>
      var m := View(s, t); m.places.active > 0 && View(DoLeave(s), t) == AfterFinish(m)
  {
    assert s.owner.pc.t in s.queues.pending <==> Occ(s.queues.pending, s.owner.pc.t) > 0;
    hide Occ, Without, Release;
    OccPop(s.queues.active, t);
    OccWithout(s.queues.pending, s.owner.pc.t, t);
  }

  lemma FinishView(s: State, t: TaskId)
    requires s.owner.pc.Ending? && (s.owner.pc.inLoop ==> s.queues.active != [] && s.queues.active[0] == s.owner.pc.t)
    ensures EnvOf(DoFinish(s)) == EnvOf(s)
    ensures t != s.owner.pc.t ==> View(DoFinish(s), t) == View(s, t)
    ensures t == s.owner.pc.t ==>
      var m := View(s, t); (m.at.inLoop ==> m.places.active > 0) && View(DoFinish(s), t) == AfterFinish(m)
  {
    hide Occ, Release, DoLeave;
    if s.owner.pc.inLoop { LeaveView(s, t); }
  }

  lemma FinishLocal(m: Mine, e: Env)
    requires MineInv(m, e) && m.at.Ended? && m.at.stage.Delivered? && m.held.NotHeld? && !m.awaitsClear
    ensures (m.at.inLoop ==> m.places.active > 0) && MineInv(AfterFinish(m), e)
  {
    hide FirstCause, Lent;
    assert Owned(AfterFinish(m));
    assert Counted(AfterFinish(m), e);
    hide Owned, Counted;
  }

  lemma {:induction false} WithoutKeepsOthers(ids: seq<TaskId>, x: TaskId, t: TaskId)
    ensures t in Without(ids, x) <==> t in ids && t != x
  {
    if ids != [] {
      WithoutKeepsOthers(ids[1..], x, t);
    }
  }

  lemma FinishOwned(q: Queues, u: TaskId)
    requires q.active != [] && q.active[0] == u && Occ(q.submitted, u) + Occ(q.active, u) == 1
    ensures OwnedSet(q.(active := q.active[1..], pending := Without(q.pending, u))) == OwnedSet(q) - {u}
    ensures u in OwnedSet(q)
  {
    var q' := q.(active := q.active[1..], pending := Without(q.pending, u));
    assert q.active == [u] + q.active[1..];
    forall t ensures t in OwnedSet(q') <==> t in OwnedSet(q) - {u} {
      WithoutKeepsOthers(q.pending, u, t);
    }
  }

  lemma FinishGlobal(s: State)
    requires Global(s) && s.owner.pc.Ending? && s.owner.pc.stage.Delivered? && s.owner.hand.Empty?
    requires s.owner.pc.inLoop ==>
      s.queues.active != [] && Occ(s.queues.submitted, s.owner.pc.t) + Occ(s.queues.active, s.owner.pc.t) == 1
    ensures Global(DoFinish(s))
  {
    hide SomeSender, SomeNotifier, OwnedSet, Get, Without, Occ;
    var u := s.owner.pc.t;
    SameCalls(s, DoFinish(s), u, DoFinish(s).tasks[u]);
    if s.owner.pc.inLoop { FinishOwned(s.queues, u); }
  }

  lemma EndedIsActive(m: Mine, e: Env)
    requires MineInv(m, e) && m.at.Ended? && m.at.inLoop
    ensures m.places.submitted + m.places.active == 1
  {
    hide FirstCause, Lent, Unpolled, Scheduled;
  }

  lemma FinishKeeps(s: State)
    requires Inv(s) && s.owner.pc.Ending? && s.owner.pc.stage.Delivered? && s.owner.hand.Empty?
    requires s.owner.pc.inLoop ==> s.queues.active != []
    ensures Inv(DoFinish(s))
  {
    hide MineInv, Global, AfterFinish;
    var s', u := DoFinish(s), s.owner.pc.t;
    assert TaskInv(s, u);
    OwnerFacts(s);
    if s.owner.pc.inLoop { EndedIsActive(View(s, u), EnvOf(s)); }
    FinishGlobal(s);
    forall t ensures EnvOf(s') == EnvOf(s) && (t != u ==> View(s', t) == View(s, t)) { FinishView(s, t); }
    assert TaskInv(s', u) by {
      FinishView(s, u);
      FinishLocal(View(s, u), EnvOf(s));
    }
    OneTaskKeeps(s, s', u);
  }

  lemma PollDoneKeeps(s: State)
    requires Inv(s) && s.owner.pc.PollHead? && s.queues.active == []
    ensures Inv(Goto(s, CancelCheck))
  {
    hide SomeSender, SomeNotifier, OwnedSet, TaskInv;
    SameTasks(s, Goto(s, CancelCheck));
    QuietKeeps(s, Goto(s, CancelCheck));
  }
}
