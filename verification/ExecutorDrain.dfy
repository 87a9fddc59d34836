/** The start of a cycle keeps the invariant: new tasks, remote wakes, local wakes. */
module ExecutorDrain {
  import opened ExecutorState
  import opened ExecutorInvariant
  import opened ExecutorFrames

  // ---- Entering the cycle swaps the new tasks in ----

  lemma EnterView(s: State, t: TaskId)
    requires s.owner.pc.Idle? && s.queues.active == []
    ensures EnvOf(DoEnterCycle(s)) == EnvOf(s).(early := true)
    ensures var m := View(s, t);
            View(DoEnterCycle(s), t) ==
            m.(places := m.places.(submitted := 0, active := m.places.submitted), polledNow := false)
  {
  }

  lemma EnterLocal(m: Mine, e: Env)
    requires MineInv(m, e) && m.places.active == 0 && m.at.Elsewhere? && !m.awaitsClear
    ensures MineInv(m.(places := m.places.(submitted := 0, active := m.places.submitted), polledNow := false),
                    e.(early := true))
  {
    hide FirstCause, Lent;
  }

  lemma EnterGlobal(s: State)
    requires Global(s) && s.owner.pc.Idle? && s.owner.hand.Empty?
    ensures Global(DoEnterCycle(s))
  {
    var s' := DoEnterCycle(s);
    assert OwnedSet(s'.queues) == OwnedSet(s.queues);
    assert SomeSender(s) ==> SomeSender(s') by { SameTasks(s, s'); }
    assert SomeNotifier(s) ==> SomeNotifier(s') by { SameTasks(s, s'); }
  }

  lemma EnterKeeps(s: State)
    requires Inv(s) && s.owner.pc.Idle? && s.owner.hand.Empty?
    ensures Inv(DoEnterCycle(s))
  {
    hide MineInv, Global;
    EnterGlobal(s);
    OwnerFacts(s);
    forall t ensures TaskInv(DoEnterCycle(s), t) {
      assert TaskInv(s, t);
      EnterView(s, t);
      EnterLocal(View(s, t), EnvOf(s));
    }
  }

  // ---- Receiving, promoting and enqueueing a remote wake ----

  lemma ReceiveView(s: State, t: TaskId)
    requires s.channel.messages != [] && s.owner.hand.Empty?
    ensures EnvOf(DoReceive(s)) == EnvOf(s)
    ensures var m, u := View(s, t), s.channel.messages[0];
            m.places.messages >= (if t == u then 1 else 0) &&
            View(DoReceive(s), t) == if t != u then m else
              m.(places := m.places.(messages := m.places.messages - 1), held := AsMessage)
  {
    hide Occ;
    OccPop(s.channel.messages, t);
  }

  lemma ReceiveLocal(m: Mine, e: Env)
    requires MineInv(m, e) && m.places.messages > 0 && m.held.NotHeld?
    ensures MineInv(m.(places := m.places.(messages := m.places.messages - 1), held := AsMessage), e)
  {
    hide FirstCause, Lent;
  }

  lemma ReceiveGlobal(s: State)
    requires Global(s) && s.owner.pc.Draining? && s.owner.hand.Empty? && s.channel.messages != []
    ensures Global(DoReceive(s))
  {
    hide SomeSender, SomeNotifier, OwnedSet;
    SameTasks(s, DoReceive(s));
  }

  lemma ReceiveKeeps(s: State)
    requires Inv(s) && s.owner.pc.Draining? && s.owner.hand.Empty? && s.channel.messages != []
    ensures Inv(DoReceive(s))
  {
    hide MineInv, Global;
    var s', u := DoReceive(s), s.channel.messages[0];
    ReceiveGlobal(s);
    forall t ensures EnvOf(s') == EnvOf(s) && (t != u ==> View(s', t) == View(s, t)) { ReceiveView(s, t); }
    assert TaskInv(s', u) by {
      assert TaskInv(s, u);
      ReceiveView(s, u);
      ReceiveLocal(View(s, u), EnvOf(s));
    }
    OneTaskKeeps(s, s', u);
  }

  lemma PromoteView(s: State, t: TaskId)
    requires s.owner.hand.Message?
    ensures EnvOf(DoPromote(s)) == EnvOf(s)
    ensures var m, u := View(s, t), s.owner.hand.t;
            View(DoPromote(s), t) ==
              if t != u then m
              else if m.task.sched == Remote then m.(known := true, task := m.task.(sched := Local), held := AsPromoted)
              else m.(known := true, task := Release(m.task), held := NotHeld)
  {
    hide Occ;
  }

  lemma PromoteLocal(m: Mine, e: Env)
    requires MineInv(m, e) && m.held.AsMessage?
    ensures m.task.sched == Remote ==> MineInv(m.(known := true, task := m.task.(sched := Local), held := AsPromoted), e)
    ensures m.task.sched != Remote ==> MineInv(m.(known := true, task := Release(m.task), held := NotHeld), e)
  {
    hide FirstCause, Lent;
  }

  lemma PromoteGlobal(s: State)
    requires Global(s) && s.owner.hand.Message?
    ensures Global(DoPromote(s))
  {
    hide SomeSender, SomeNotifier, OwnedSet;
    CallsKept(s, DoPromote(s), s.owner.hand.t);
  }

  lemma PromoteKeeps(s: State)
    requires Inv(s) && s.owner.hand.Message?
    ensures Inv(DoPromote(s))
  {
    hide MineInv, Global;
    var s', u := DoPromote(s), s.owner.hand.t;
    PromoteGlobal(s);
    forall t ensures EnvOf(s') == EnvOf(s) && (t != u ==> View(s', t) == View(s, t)) { PromoteView(s, t); }
    assert TaskInv(s', u) by {
      assert TaskInv(s, u);
      PromoteView(s, u);
      PromoteLocal(View(s, u), EnvOf(s));
    }
    OneTaskKeeps(s, s', u);
  }

  lemma EnqueueView(s: State, t: TaskId)
    requires s.owner.hand.Promoted?
    ensures EnvOf(DoEnqueue(s)) == EnvOf(s)
    ensures var m, u := View(s, t), s.owner.hand.t;
            View(DoEnqueue(s), t) == if t != u then m else
              m.(places := m.places.(awakened := m.places.awakened + 1), held := NotHeld)
  {
    hide Occ;
    OccPush(s.queues.awakened, s.owner.hand.t, t);
  }

  lemma EnqueuedLocal(m: Mine, e: Env)
    requires MineInv(m, e) && m.held.AsPromoted?
    ensures MineInv(m.(places := m.places.(awakened := m.places.awakened + 1), held := NotHeld), e)
  {
    hide FirstCause, Lent;
  }

  lemma EnqueueGlobal(s: State)
    requires Global(s) && s.owner.hand.Promoted?
    ensures Global(DoEnqueue(s))
  {
    var s' := DoEnqueue(s);
    assert OwnedSet(s'.queues) == OwnedSet(s.queues);
    hide SomeSender, SomeNotifier, OwnedSet;
    SameTasks(s, s');
  }

  lemma EnqueueKeeps(s: State)
    requires Inv(s) && s.owner.hand.Promoted?
    ensures Inv(DoEnqueue(s))
  {
    hide MineInv, Global;
    var s', u := DoEnqueue(s), s.owner.hand.t;
    EnqueueGlobal(s);
    forall t ensures EnvOf(s') == EnvOf(s) && (t != u ==> View(s', t) == View(s, t)) { EnqueueView(s, t); }
    assert TaskInv(s', u) by {
      assert TaskInv(s, u);
      EnqueueView(s, u);
      EnqueuedLocal(View(s, u), EnvOf(s));
    }
    OneTaskKeeps(s, s', u);
  }

  // ---- Appending the woken tasks and clearing their notifications ----

  lemma AppendView(s: State, t: TaskId)
    requires s.owner.pc.Appending?
    ensures EnvOf(DoAppendWakes(s)) == EnvOf(s).(early := false)
    ensures var m := View(s, t);
            View(DoAppendWakes(s), t) ==
              m.(places := m.places.(active := m.places.active + m.places.awakened, awakened := 0),
                 awaitsClear := m.places.awakened > 0)
  {
    var q := s.queues;
    assert (q.active + q.awakened)[|q.active|..] == q.awakened;
    OccAppend(q.active, q.awakened, t);
  }

  lemma AppendLocal(m: Mine, e: Env)
    requires MineInv(m, e) && e.early && m.at.Elsewhere? && m.held.NotHeld? && !m.polledNow && !m.awaitsClear
    ensures MineInv(m.(places := m.places.(active := m.places.active + m.places.awakened, awakened := 0),
                       awaitsClear := m.places.awakened > 0), e.(early := false))
  {
    hide FirstCause, Lent;
  }

  lemma AppendOwned(s: State)
    requires s.owner.pc.Appending? && forall t: TaskId :: TaskInv(s, t)
    ensures OwnedSet(DoAppendWakes(s).queues) == OwnedSet(s.queues)
  {
    var s' := DoAppendWakes(s);
    forall t ensures t in OwnedSet(s'.queues) <==> t in OwnedSet(s.queues) {
      assert TaskInv(s, t);
    }
  }

  lemma AppendGlobal(s: State)
    requires Global(s) && s.owner.pc.Appending? && OwnedSet(DoAppendWakes(s).queues) == OwnedSet(s.queues)
    requires s.channel.closed ==> s.queues.awakened == []
    ensures Global(DoAppendWakes(s))
  {
    hide SomeSender, SomeNotifier, OwnedSet;
    SameTasks(s, DoAppendWakes(s));
  }

  lemma AppendKeeps(s: State)
    requires Inv(s) && s.owner.pc.Appending?
    ensures Inv(DoAppendWakes(s))
  {
    hide TaskInv, Global;
    OwnerFacts(s);
    AppendOwned(s);
    if s.channel.closed { ClosedIsEmpty(s); }
    AppendGlobal(s);
    forall t ensures TaskInv(DoAppendWakes(s), t) {
      AppendTask(s, t);
    }
  }

  lemma AppendTask(s: State, t: TaskId)
    requires TaskInv(s, t) && s.owner.pc.Appending? && s.owner.hand.Empty? && s.owner.polledNow == {}
    ensures TaskInv(DoAppendWakes(s), t)
  {
    hide MineInv;
    AppendView(s, t);
    AppendLocal(View(s, t), EnvOf(s));
  }

  lemma ClearView(s: State, t: TaskId)
    requires s.owner.pc.Clearing? && s.owner.pc.from < |s.queues.active|
    ensures EnvOf(DoClearNext(s)) == EnvOf(s)
    ensures var m, u, m' := View(s, t), s.queues.active[s.owner.pc.from], View(DoClearNext(s), t);
            && (t != u ==> m' == m)
            && (t == u ==> m.awaitsClear && m.places.active > 0)
            && (t == u && m.places.active == 1 ==>
                m' == m.(known := true, task := ClearNotification(m.task), awaitsClear := false))
  {
    hide Occ;
    var from, active := s.owner.pc.from, s.queues.active;
    OccPop(active[from..], t);
    assert active[from..][1..] == active[from + 1..];
    assert active == active[..from] + active[from..];
    OccAppend(active[..from], active[from..], t);
  }

  lemma ActiveOnce(m: Mine, e: Env)
    requires MineInv(m, e) && m.places.active > 0
    ensures m.places.active == 1
  {
    hide FirstCause, Lent, Owned, Unpolled, Scheduled;
  }

  lemma ClearedLocal(m: Mine, e: Env)
    requires MineInv(m, e) && m.awaitsClear && m.at.Elsewhere?
    ensures MineInv(m.(known := true, task := ClearNotification(m.task), awaitsClear := false), e)
  {
    hide FirstCause, Lent;
  }

  lemma ClearGlobal(s: State)
    requires Global(s) && s.owner.pc.Clearing? && s.owner.pc.from < |s.queues.active|
    ensures Global(DoClearNext(s))
  {
    hide SomeSender, SomeNotifier, OwnedSet;
    CallsKept(s, DoClearNext(s), s.queues.active[s.owner.pc.from]);
  }

  lemma ClearKeeps(s: State)
    requires Inv(s) && s.owner.pc.Clearing? && s.owner.pc.from < |s.queues.active|
    ensures Inv(DoClearNext(s))
  {
    hide MineInv, Global;
    var s', u := DoClearNext(s), s.queues.active[s.owner.pc.from];
    ClearGlobal(s);
    forall t ensures EnvOf(s') == EnvOf(s) && (t != u ==> View(s', t) == View(s, t)) { ClearView(s, t); }
    assert TaskInv(s', u) by {
      assert TaskInv(s, u);
      ClearView(s, u);
      ActiveOnce(View(s, u), EnvOf(s));
      ClearedLocal(View(s, u), EnvOf(s));
    }
    OneTaskKeeps(s, s', u);
  }

  // ---- Steps that only move the owner on ----

  lemma SwapKeeps(s: State)
    requires Inv(s) && s.owner.pc.Swapping?
    ensures Inv(DoSwapFlag(s))
  {
    hide SomeSender, SomeNotifier, OwnedSet, TaskInv;
    SameTasks(s, DoSwapFlag(s));
    QuietKeeps(s, DoSwapFlag(s));
  }

  lemma DrainedKeeps(s: State)
    requires Inv(s) && s.owner.pc.Draining? && s.owner.hand.Empty? && s.channel.messages == []
    ensures Inv(Goto(s, Appending))
  {
    hide SomeSender, SomeNotifier, OwnedSet, TaskInv;
    SameTasks(s, Goto(s, Appending));
    QuietKeeps(s, Goto(s, Appending));
  }

  lemma ClearedKeeps(s: State)
    requires Inv(s) && s.owner.pc.Clearing? && s.owner.pc.from >= |s.queues.active|
    ensures Inv(Goto(s, PollHead))
  {
    hide SomeSender, SomeNotifier, OwnedSet, TaskInv;
    SameTasks(s, Goto(s, PollHead));
    QuietKeeps(s, Goto(s, PollHead));
  }
}
