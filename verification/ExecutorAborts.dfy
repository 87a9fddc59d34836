/** Cancellation, the end of a cycle and the drop of the executor keep the invariant. */
module ExecutorAborts {
  import opened ExecutorState
  import opened ExecutorInvariant
  import opened ExecutorFrames

  lemma CheckKeeps(s: State)
    requires Inv(s) && s.owner.pc.CancelCheck?
    ensures Inv(Goto(s, if s.owner.cause.Some? then Closing else Judging))
  {
    hide SomeSender, SomeNotifier, OwnedSet, TaskInv;
    var s' := Goto(s, if s.owner.cause.Some? then Closing else Judging);
    SameTasks(s, s');
    QuietKeeps(s, s');
  }

  // ---- Closing the channel and emptying it ----

  lemma ClosedLocal(m: Mine, e: Env)
    requires MineInv(m, e)
    ensures MineInv(m, e.(closed := true))
  {
    hide FirstCause, Lent;
  }

  lemma CloseGlobal(s: State)
    requires Global(s) && s.owner.pc.Closing?
    ensures Global(DoClose(s))
  {
    hide SomeSender, SomeNotifier, OwnedSet;
    SameTasks(s, DoClose(s));
  }

  lemma CloseKeeps(s: State)
    requires Inv(s) && s.owner.pc.Closing?
    ensures Inv(DoClose(s))
  {
    hide View, MineInv, Global;
    var s' := DoClose(s);
    CloseGlobal(s);
    forall t ensures TaskInv(s', t) {
      assert TaskInv(s, t);
      QuietView(s, s', t);
      ClosedLocal(View(s, t), EnvOf(s));
    }
  }

  lemma DropMessageView(s: State, t: TaskId)
    requires s.channel.messages != []
    ensures EnvOf(DoDropMessage(s)) == EnvOf(s)
    ensures var m, u := View(s, t), s.channel.messages[0];
            m.places.messages >= (if t == u then 1 else 0) &&
            View(DoDropMessage(s), t) == if t != u then m else
              m.(known := true, task := Release(m.task), places := m.places.(messages := m.places.messages - 1))
  {
    hide Occ, Release;
    OccPop(s.channel.messages, t);
  }

  lemma DropMessageLocal(m: Mine, e: Env)
    requires MineInv(m, e) && m.places.messages > 0 && e.closed
    ensures MineInv(m.(known := true, task := Release(m.task), places := m.places.(messages := m.places.messages - 1)), e)
  {
    hide FirstCause, Lent;
  }

  lemma DropMessageGlobal(s: State)
    requires Global(s) && s.owner.pc.Emptying? && s.channel.messages != []
    ensures Global(DoDropMessage(s))
  {
    hide SomeSender, SomeNotifier, OwnedSet, Get;
    var u := s.channel.messages[0];
    SameCalls(s, DoDropMessage(s), u, DoDropMessage(s).tasks[u]);
  }

  lemma DropMessageKeeps(s: State)
    requires Inv(s) && s.owner.pc.Emptying? && s.channel.messages != []
    ensures Inv(DoDropMessage(s))
  {
    hide MineInv, Global;
    OwnerFacts(s);
    var s', u := DoDropMessage(s), s.channel.messages[0];
    DropMessageGlobal(s);
    forall t ensures EnvOf(s') == EnvOf(s) && (t != u ==> View(s', t) == View(s, t)) { DropMessageView(s, t); }
    assert TaskInv(s', u) by {
      assert TaskInv(s, u);
      DropMessageView(s, u);
      DropMessageLocal(View(s, u), EnvOf(s));
    }
    OneTaskKeeps(s, s', u);
  }

  lemma EmptiedKeeps(s: State)
    requires Inv(s) && s.owner.pc.Emptying? && s.channel.messages == []
    ensures Inv(DoEmptied(s))
  {
    hide SomeSender, SomeNotifier, OwnedSet, TaskInv;
    QuietKeeps(s, DoEmptied(s));
  }

  lemma DropAwakenedView(s: State, t: TaskId)
    requires s.queues.awakened != [] && !s.owner.pc.Clearing?
    ensures EnvOf(DoDropAwakened(s)) == EnvOf(s)
    ensures var m, u := View(s, t), s.queues.awakened[0];
            m.places.awakened >= (if t == u then 1 else 0) &&
            View(DoDropAwakened(s), t) == if t != u then m else
              m.(known := true, task := Release(m.task), places := m.places.(awakened := m.places.awakened - 1))
  {
    hide Occ, Release;
    OccPop(s.queues.awakened, t);
  }

  lemma DropAwakenedLocal(m: Mine, e: Env)
    requires MineInv(m, e) && m.places.awakened > 0 && e.closed && !m.awaitsClear && m.held.NotHeld?
    ensures MineInv(m.(known := true, task := Release(m.task), places := m.places.(awakened := m.places.awakened - 1)), e)
  {
    hide FirstCause, Lent;
  }

  lemma DropAwakenedGlobal(s: State)
    requires Global(s) && s.owner.pc.Preparing? && s.queues.awakened != []
    ensures Global(DoDropAwakened(s))
  {
    hide SomeSender, SomeNotifier, OwnedSet, Get;
    var u := s.queues.awakened[0];
    OwnedIgnoresWakes(s.queues, s.queues.awakened[1..]);
    SameCalls(s, DoDropAwakened(s), u, DoDropAwakened(s).tasks[u]);
  }

  lemma DropAwakenedKeeps(s: State)
    requires Inv(s) && s.owner.pc.Preparing? && s.queues.awakened != []
    ensures Inv(DoDropAwakened(s))
  {
    hide MineInv, Global;
    OwnerFacts(s);
    var s', u := DoDropAwakened(s), s.queues.awakened[0];
    DropAwakenedGlobal(s);
    forall t ensures EnvOf(s') == EnvOf(s) && (t != u ==> View(s', t) == View(s, t)) { DropAwakenedView(s, t); }
    assert TaskInv(s', u) by {
      assert TaskInv(s, u);
      DropAwakenedView(s, u);
      DropAwakenedLocal(View(s, u), EnvOf(s));
    }
    OneTaskKeeps(s, s', u);
  }

  // ---- Collecting the batch and aborting it ----

  lemma PrepareView(s: State, t: TaskId)
    requires s.owner.pc.Preparing? && s.queues.active == []
    ensures EnvOf(DoPrepare(s)) == EnvOf(s).(aborting := true)
    ensures var m := View(s, t);
            View(DoPrepare(s), t) ==
              m.(places := m.places.(active := m.places.submitted + m.places.pending, submitted := 0, pending := 0))
  {
    var q := s.queues;
    assert q.active + q.submitted + q.pending == q.submitted + q.pending;
    OccAppend(q.submitted, q.pending, t);
  }

  lemma PrepareLocal(m: Mine, e: Env)
    requires MineInv(m, e) && m.at.Elsewhere? && m.places.active == 0 && !m.awaitsClear && !e.early
    ensures MineInv(m.(places := m.places.(active := m.places.submitted + m.places.pending, submitted := 0, pending := 0)),
                    e.(aborting := true))
  {
    hide FirstCause, Lent;
  }

  /** Distinct tasks are counted exactly, repeated ones at most once each. */
  lemma {:induction false} MembersSize(ids: seq<TaskId>)
    ensures |Members(ids)| <= |ids|
    ensures (forall t :: Occ(ids, t) <= 1) ==> |Members(ids)| == |ids|
  {
    if ids == [] {
      assert Members(ids) == {};
    } else {
      var rest := ids[1..];
      MembersSize(rest);
      assert Members(ids) == Members(rest) + {ids[0]};
      if forall t :: Occ(ids, t) <= 1 {
        forall t ensures Occ(rest, t) <= 1 { OccPop(ids, t); }
        OccPop(ids, ids[0]);
        assert ids[0] !in Members(rest);
      }
    }
  }

  lemma BatchSize(q: Queues)
    ensures |OwnedSet(q)| <= |q.active + q.submitted + q.pending|
    ensures OwnedSet(q) == Members(q.active + q.submitted + q.pending)
  {
    MembersSize(q.active + q.submitted + q.pending);
    assert OwnedSet(q) == Members(q.active + q.submitted + q.pending);
  }

  lemma PrepareGlobal(s: State)
    requires Global(s) && s.owner.pc.Preparing? && s.queues.awakened == []
    ensures Global(DoPrepare(s))
  {
    hide SomeSender, SomeNotifier, OwnedSet;
    BatchSize(s.queues);
    SameTasks(s, DoPrepare(s));
  }

  lemma PrepareKeeps(s: State)
    requires Inv(s) && s.owner.pc.Preparing? && s.queues.awakened == []
    ensures Inv(DoPrepare(s))
  {
    hide MineInv, Global;
    PrepareGlobal(s);
    OwnerFacts(s);
    forall t ensures TaskInv(DoPrepare(s), t) {
      assert TaskInv(s, t);
      PrepareView(s, t);
      PrepareLocal(View(s, t), EnvOf(s));
    }
  }

  lemma AbortNextView(s: State, t: TaskId)
    requires s.owner.pc.AbortHead? && s.queues.active != []
    ensures EnvOf(DoAbortNext(s)) == EnvOf(s)
    ensures var m, u := View(s, t), s.queues.active[0];
            m.places.active >= (if t == u then 1 else 0) &&
            View(DoAbortNext(s), t) == if t != u then m else
              m.(at := Ended(Retiring, false), places := m.places.(active := m.places.active - 1))
  {
    hide Occ;
    OccPop(s.queues.active, t);
  }

  lemma AbortNextLocal(m: Mine, e: Env)
    requires MineInv(m, e) && m.at.Elsewhere? && m.places.active > 0 && m.places.pending == 0 && !m.awaitsClear
    requires e.aborting && e.closed
    ensures MineInv(m.(at := Ended(Retiring, false), places := m.places.(active := m.places.active - 1)), e)
  {
    hide FirstCause, Lent;
  }

  lemma AbortNextGlobal(s: State)
    requires Global(s) && s.owner.pc.AbortHead? && s.queues.active != []
    ensures Global(DoAbortNext(s))
  {
    hide SomeSender, SomeNotifier, OwnedSet;
    SameTasks(s, DoAbortNext(s));
  }

  lemma AbortNextKeeps(s: State)
    requires Inv(s) && s.owner.pc.AbortHead? && s.queues.active != []
    ensures Inv(DoAbortNext(s))
  {
    hide MineInv, Global;
    OwnerFacts(s);
    var s', u := DoAbortNext(s), s.queues.active[0];
    AbortNextGlobal(s);
    forall t ensures EnvOf(s') == EnvOf(s) && (t != u ==> View(s', t) == View(s, t)) { AbortNextView(s, t); }
    assert TaskInv(s', u) by {
      assert TaskInv(s, u);
      AbortNextView(s, u);
      AbortNextLocal(View(s, u), EnvOf(s));
    }
    OneTaskKeeps(s, s', u);
  }

  lemma AbortedLocal(m: Mine, e: Env)
    requires MineInv(m, e) && m.places.active == 0
    ensures MineInv(m, e.(aborting := false))
  {
    hide FirstCause, Lent;
  }

  lemma AbortDoneGlobal(s: State)
    requires Global(s) && s.owner.pc.AbortHead? && s.queues.active == []
    ensures Global(Goto(s, if s.owner.dropping then Gone else Judging))
  {
    assert OwnedSet(s.queues) == {};
    hide SomeSender, SomeNotifier, OwnedSet;
    SameTasks(s, Goto(s, if s.owner.dropping then Gone else Judging));
  }

  lemma AbortDoneKeeps(s: State)
    requires Inv(s) && s.owner.pc.AbortHead? && s.queues.active == []
    ensures Inv(Goto(s, if s.owner.dropping then Gone else Judging))
  {
    hide MineInv, Global;
    var s' := Goto(s, if s.owner.dropping then Gone else Judging);
    AbortDoneGlobal(s);
    forall t ensures TaskInv(s', t) {
      assert TaskInv(s, t);
      QuietView(s, s', t);
      AbortedLocal(View(s, t), EnvOf(s));
    }
  }

  // ---- The end of the cycle and the drop ----

  lemma JudgeGlobal(s: State)
    requires Global(s) && s.owner.pc.Judging?
    ensures Global(DoJudge(s))
  {
    assert s.owner.cause.Some? ==> OwnedSet(s.queues) == {};
    hide SomeSender, SomeNotifier, OwnedSet;
    SameTasks(s, DoJudge(s));
  }

  lemma JudgeKeeps(s: State)
    requires Inv(s) && s.owner.pc.Judging?
    ensures Inv(DoJudge(s))
  {
    hide TaskInv, Global;
    JudgeGlobal(s);
    QuietKeeps(s, DoJudge(s));
  }

  /** A step that at most publishes a cause. */
  lemma PublishKeeps(s: State, s': State)
    requires Inv(s) && Global(s')
    requires s'.tasks == s.tasks && s'.queues == s.queues && s'.channel == s.channel
    requires s'.owner.hand == s.owner.hand && s'.owner.polledNow == s.owner.polledNow
    requires s'.owner.pc == s.owner.pc || (s.owner.pc.Idle? && s'.owner.pc.Closing?)
    requires s.owner.cause.None? || s'.owner.cause == s.owner.cause
    ensures Inv(s')
  {
    hide MineInv, Global, Occ;
    forall t ensures TaskInv(s', t) {
      assert TaskInv(s, t);
      assert View(s', t) == View(s, t);
      CauseLocal(View(s, t), EnvOf(s), s'.owner.cause);
    }
  }

  lemma DropKeeps(s: State)
    requires Inv(s) && s.owner.pc.Idle? && s.owner.hand.Empty?
    ensures Inv(DoDropExecutor(s))
  {
    hide SomeSender, SomeNotifier, OwnedSet, TaskInv;
    SameTasks(s, DoDropExecutor(s));
    PublishKeeps(s, DoDropExecutor(s));
  }

  lemma TriggerKeeps(s: State, c: Cause)
    requires Inv(s) && UserCode(s.owner.pc) && s.owner.hand.Empty?
    ensures Inv(DoTrigger(s, c))
  {
    hide SomeSender, SomeNotifier, OwnedSet, TaskInv;
    SameTasks(s, DoTrigger(s, c));
    PublishKeeps(s, DoTrigger(s, c));
  }
}
