/** What user code does on the owner thread keeps the invariant. */
module ExecutorLocal {
  import opened Base
  import opened ExecutorState
  import opened ExecutorInvariant
  import opened ExecutorFrames

  // ---- Waking a task on its own thread ----

  function Awoken(m: Mine): Mine {
    m.(known := true, task := BeginLocal(m.task), held := if m.task.sched == Active then AsWaking else m.held)
  }

  lemma LocalWakeView(s: State, u: TaskId, t: TaskId)
    requires s.owner.hand.Empty?
    ensures EnvOf(DoLocalWake(s, u)) == EnvOf(s)
    ensures View(DoLocalWake(s, u), t) == if t != u then View(s, t) else Awoken(View(s, t))
  {
    hide Occ, BeginLocal;
  }

  lemma LocalWakeLocal(m: Mine, e: Env)
    requires MineInv(m, e) && m.held.NotHeld? && (m.task.calls.wakers > 0 || m.at.Polled?)
    ensures MineInv(Awoken(m), e)
  {
    hide FirstCause, Lent;
  }

  lemma LocalWakeGlobal(s: State, u: TaskId)
    requires Global(s) && UserCode(s.owner.pc) && s.owner.hand.Empty?
    ensures Global(DoLocalWake(s, u))
  {
    hide SomeSender, SomeNotifier, OwnedSet, Get;
    SameCalls(s, DoLocalWake(s, u), u, DoLocalWake(s, u).tasks[u]);
  }

  lemma LocalWakeKeeps(s: State, u: TaskId)
    requires Inv(s) && UserCode(s.owner.pc) && s.owner.hand.Empty? && CanUseWaker(s, u)
    ensures Inv(DoLocalWake(s, u))
  {
    hide MineInv, Global, Awoken;
    var s' := DoLocalWake(s, u);
    LocalWakeGlobal(s, u);
    forall t ensures EnvOf(s') == EnvOf(s) && (t != u ==> View(s', t) == View(s, t)) { LocalWakeView(s, u, t); }
    assert TaskInv(s', u) by {
      assert TaskInv(s, u);
      LocalWakeView(s, u, u);
      LocalWakeLocal(View(s, u), EnvOf(s));
    }
    OneTaskKeeps(s, s', u);
  }

  lemma EnqueueLocalView(s: State, t: TaskId)
    requires s.owner.hand.Waking?
    ensures EnvOf(DoEnqueueLocal(s)) == EnvOf(s)
    ensures var m := View(s, t);
            View(DoEnqueueLocal(s), t) == if t != s.owner.hand.t then m else
              m.(known := true, task := Retain(m.task), held := NotHeld,
                 places := m.places.(awakened := m.places.awakened + 1))
  {
    hide Occ, Retain;
    OccPush(s.queues.awakened, s.owner.hand.t, t);
  }

  lemma EnqueueLocalLocal(m: Mine, e: Env)
    requires MineInv(m, e) && m.held.AsWaking?
    ensures MineInv(m.(known := true, task := Retain(m.task), held := NotHeld,
                       places := m.places.(awakened := m.places.awakened + 1)), e)
  {
    hide FirstCause, Lent;
  }

  lemma EnqueueLocalGlobal(s: State)
    requires Global(s) && s.owner.hand.Waking?
    ensures Global(DoEnqueueLocal(s))
  {
    hide SomeSender, SomeNotifier, OwnedSet, Get;
    var u, s' := s.owner.hand.t, DoEnqueueLocal(s);
    OwnedIgnoresWakes(s.queues, s'.queues.awakened);
    SameCalls(s, s', u, s'.tasks[u]);
  }

  lemma EnqueueLocalKeeps(s: State)
    requires Inv(s) && s.owner.hand.Waking?
    ensures Inv(DoEnqueueLocal(s))
  {
    hide MineInv, Global;
    var s', u := DoEnqueueLocal(s), s.owner.hand.t;
    EnqueueLocalGlobal(s);
    forall t ensures EnvOf(s') == EnvOf(s) && (t != u ==> View(s', t) == View(s, t)) { EnqueueLocalView(s, t); }
    assert TaskInv(s', u) by {
      assert TaskInv(s, u);
      EnqueueLocalView(s, u);
      EnqueueLocalLocal(View(s, u), EnvOf(s));
    }
    OneTaskKeeps(s, s', u);
  }

  // ---- Submitting a task ----

  function Submitted(m: Mine, cause: Option<Cause>): Mine {
    if cause.Some? then m.(known := true, task := m.task.(outcomes := [Cancelled(cause.value)]))
    else m.(known := true, task := m.task.(sched := Active, payload := true, count := 1),
            places := m.places.(submitted := m.places.submitted + 1))
  }

  lemma SubmitView(s: State, u: TaskId, t: TaskId)
    ensures EnvOf(DoSubmit(s, u)) == EnvOf(s)
    ensures View(DoSubmit(s, u), t) == if t != u then View(s, t) else Submitted(View(s, t), s.owner.cause)
  {
    hide Occ;
    OccPush(s.queues.submitted, u, t);
  }

  lemma SubmitLocal(m: Mine, e: Env)
    requires MineInv(m, e) && !m.known && !e.early
    ensures MineInv(Submitted(m, e.cause), e)
  {
  }

  lemma UnknownIsNowhere(m: Mine, e: Env)
    requires MineInv(m, e) && !m.known
    ensures m.places == Places(0, 0, 0, 0, 0)
  {
    hide FirstCause, Lent;
  }

  lemma SubmitOwned(q: Queues, u: TaskId)
    requires Occ(q.submitted, u) == 0 && Occ(q.active, u) == 0 && Occ(q.pending, u) == 0
    ensures OwnedSet(q.(submitted := q.submitted + [u])) == OwnedSet(q) + {u} && u !in OwnedSet(q)
  {
  }

  lemma SubmitGlobal(s: State, u: TaskId)
    requires Global(s) && (UserCode(s.owner.pc) || s.owner.pc.Gone?) && s.owner.hand.Empty? && u !in s.tasks
    requires PlacesOf(s, u) == Places(0, 0, 0, 0, 0)
    ensures Global(DoSubmit(s, u))
  {
    hide SomeSender, SomeNotifier, OwnedSet, Occ;
    SubmitOwned(s.queues, u);
    SameCalls(s, DoSubmit(s, u), u, DoSubmit(s, u).tasks[u]);
  }

  lemma SubmitKeeps(s: State, u: TaskId)
    requires Inv(s) && (UserCode(s.owner.pc) || s.owner.pc.Gone?) && s.owner.hand.Empty? && u !in s.tasks
    ensures Inv(DoSubmit(s, u))
  {
    hide MineInv, Global, Submitted;
    var s' := DoSubmit(s, u);
    assert TaskInv(s, u);
    UnknownIsNowhere(View(s, u), EnvOf(s));
    SubmitGlobal(s, u);
    forall t ensures EnvOf(s') == EnvOf(s) && (t != u ==> View(s', t) == View(s, t)) { SubmitView(s, u, t); }
    assert TaskInv(s', u) by {
      SubmitView(s, u, u);
      SubmitLocal(View(s, u), EnvOf(s));
    }
    OneTaskKeeps(s, s', u);
  }
}
