/** Wakers and the remote wake calls keep the invariant. */
module ExecutorRemote {
  import opened ExecutorState
  import opened ExecutorInvariant
  import opened ExecutorFrames

  lemma WakeLocal(m: Mine, e: Env)
    requires MineInv(m, e) && Spare(m.task.calls)
    ensures MineInv(m.(known := true, task := BeginWake(m.task)), e)
  {
    hide FirstCause;
  }

  lemma WakeByRefLocal(m: Mine, e: Env)
    requires MineInv(m, e) && m.task.calls.wakers > 0
    ensures MineInv(m.(known := true, task := BeginWakeByRef(m.task)), e)
  {
    hide FirstCause;
  }

  lemma ClearedLocal(m: Mine, e: Env)
    requires MineInv(m, e) && m.task.calls.failed > 0
    ensures MineInv(m.(known := true, task := Cleared(m.task)), e)
  {
    hide FirstCause;
  }

  lemma MessageDroppedLocal(m: Mine, e: Env)
    requires MineInv(m, e) && m.task.calls.cleared > 0
    ensures MineInv(m.(known := true, task := MessageDropped(m.task)), e)
  {
    hide FirstCause;
  }

  lemma ReturnedLocal(m: Mine, e: Env)
    requires MineInv(m, e) && m.task.calls.done > 0 && m.task.calls.borrowing > 0
    ensures MineInv(m.(known := true, task := Returned(m.task)), e)
  {
    hide FirstCause;
  }

  lemma ConsumedLocal(m: Mine, e: Env)
    requires MineInv(m, e) && m.task.calls.done > 0 && m.task.calls.owning > 0
    ensures MineInv(m.(known := true, task := Consumed(m.task)), e)
  {
    hide FirstCause;
  }

  lemma ClonedLocal(m: Mine, e: Env)
    requires MineInv(m, e) && (m.task.calls.wakers > 0 || m.at.Polled?)
    ensures MineInv(m.(known := true, task := Cloned(m.task)), e)
  {
    hide FirstCause;
  }

  lemma WakerDroppedLocal(m: Mine, e: Env)
    requires MineInv(m, e) && Spare(m.task.calls)
    ensures MineInv(m.(known := true, task := WakerDropped(m.task)), e)
  {
    hide FirstCause;
  }

  // ---- Steps of wakers and of remote calls on their own task ----

  lemma TaskOnlyKeeps(s: State, u: TaskId, k: Task)
    requires Global(s) && forall t: TaskId {:trigger TaskInv(Put(s, u, k), t)} :: TaskInv(s, t)
    requires k.calls.sent >= Get(s, u).calls.sent && k.calls.notifying >= Get(s, u).calls.notifying
    requires MineInv(View(s, u).(known := true, task := k), EnvOf(s))
    ensures Inv(Put(s, u, k))
  {
    hide View, MineInv, EnvOf, Signalled, Control, ClosedDown, CountExact, Reported, Served;
    PutSignalled(s, u, k);
    forall t ensures TaskInv(Put(s, u, k), t) {
      assert TaskInv(s, t);
      PutView(s, u, k, t);
    }
  }

  predicate OnOwnTask(step: WakerStep) {
    !step.RemoteSend? && !step.RemoteFlag? && !step.RemoteNotify?
  }

  /** What such a step makes of the task. */
  function Changed(k: Task, step: WakerStep): Task
    requires OnOwnTask(step)
  {
    match step
    case CloneWaker => Cloned(k)
    case DropWaker => WakerDropped(k)
    case Wake => BeginWake(k)
    case WakeByRef => BeginWakeByRef(k)
    case RemoteClear => Cleared(k)
    case RemoteDropMessage => MessageDropped(k)
    case RemoteReturn => Returned(k)
    case RemoteConsume => Consumed(k)
  }

  lemma OwnTaskLocal(s: State, step: WakerStep, t: TaskId)
    requires TaskInv(s, t) && WakerEnabled(s, step, t) && OnOwnTask(step)
    ensures MineInv(View(s, t).(known := true, task := Changed(Get(s, t), step)), EnvOf(s))
  {
    hide MineInv, Global;
    var m, e := View(s, t), EnvOf(s);
    match step
    case CloneWaker => ClonedLocal(m, e);
    case DropWaker => WakerDroppedLocal(m, e);
    case Wake => WakeLocal(m, e);
    case WakeByRef => WakeByRefLocal(m, e);
    case RemoteClear => ClearedLocal(m, e);
    case RemoteDropMessage => MessageDroppedLocal(m, e);
    case RemoteReturn => ReturnedLocal(m, e);
    case RemoteConsume => ConsumedLocal(m, e);
  }

  lemma OwnTaskKeeps(s: State, step: WakerStep, t: TaskId)
    requires Inv(s) && WakerEnabled(s, step, t) && OnOwnTask(step)
    ensures Inv(WakerNext(s, step, t))
  {
    assert TaskInv(s, t);
    OwnTaskLocal(s, step, t);
    hide MineInv, Global, View;
    TaskOnlyKeeps(s, t, Changed(Get(s, t), step));
  }

  // ---- Sending, flagging and notifying ----

  lemma SendView(s: State, u: TaskId, t: TaskId)
    requires Get(s, u).calls.won > 0
    ensures EnvOf(DoRemoteSend(s, u)) == EnvOf(s)
    ensures t != u ==> View(DoRemoteSend(s, u), t) == View(s, t)
    ensures t == u ==>
      var m := View(s, u);
      View(DoRemoteSend(s, u), u) == m.(
        task := Send(m.task, s.channel.closed),
        places := if s.channel.closed then m.places else m.places.(messages := m.places.messages + 1))
  {
    hide Occ;
    OccPush(s.channel.messages, u, t);
  }

  lemma SendLocal(m: Mine, e: Env)
    requires MineInv(m, e) && m.task.calls.won > 0
    ensures e.closed ==> MineInv(m.(task := Send(m.task, true)), e)
    ensures !e.closed ==>
      MineInv(m.(task := Send(m.task, false), places := m.places.(messages := m.places.messages + 1)), e)
  {
    hide FirstCause;
  }

  lemma SendGlobal(s: State, u: TaskId)
    requires Global(s) && Get(s, u).calls.won > 0
    ensures Global(DoRemoteSend(s, u))
  {
    hide SomeSender, SomeNotifier, OwnedSet;
    var s' := DoRemoteSend(s, u);
    CallsKept(s, s', u);
    if !s.channel.closed {
      assert Get(s', u).calls.sent > 0;
      assert SomeSender(s') by { SenderSeen(s', u); }
    }
  }

  lemma SendKeeps(s: State, u: TaskId)
    requires Inv(s) && Get(s, u).calls.won > 0
    ensures Inv(DoRemoteSend(s, u))
  {
    hide View, MineInv, Global, Send;
    var s' := DoRemoteSend(s, u);
    forall t ensures EnvOf(s') == EnvOf(s) && (t != u ==> View(s', t) == View(s, t)) { SendView(s, u, t); }
    assert TaskInv(s, u);
    SendView(s, u, u);
    assert View(s, u).task == Get(s, u) by { ViewTask(s, u); }
    SendLocal(View(s, u), EnvOf(s));
    SendGlobal(s, u);
    OneTaskKeeps(s, s', u);
  }

  lemma FlagView(s: State, u: TaskId, t: TaskId)
    requires Get(s, u).calls.sent > 0
    ensures EnvOf(DoRemoteFlag(s, u)) == EnvOf(s)
    ensures View(DoRemoteFlag(s, u), t) ==
      if t == u then View(s, u).(task := Flagged(Get(s, u), s.channel.flag)) else View(s, t)
  {
    hide Occ;
  }

  lemma FlagLocal(m: Mine, e: Env, wasSet: bool)
    requires MineInv(m, e) && m.task.calls.sent > 0
    ensures MineInv(m.(task := Flagged(m.task, wasSet)), e)
  {
    hide FirstCause;
  }

  lemma FlagGlobal(s: State, u: TaskId)
    requires Global(s) && Get(s, u).calls.sent > 0
    ensures Global(DoRemoteFlag(s, u))
  {
    hide SomeSender, SomeNotifier, OwnedSet;
    var s' := DoRemoteFlag(s, u);
    CallsKept(s, s', u);
    if !s.channel.flag { NotifierSeen(s', u); }
  }

  lemma FlagKeeps(s: State, u: TaskId)
    requires Inv(s) && Get(s, u).calls.sent > 0
    ensures Inv(DoRemoteFlag(s, u))
  {
    hide View, MineInv, Global, Flagged;
    var s' := DoRemoteFlag(s, u);
    forall t ensures EnvOf(s') == EnvOf(s) && (t != u ==> View(s', t) == View(s, t)) { FlagView(s, u, t); }
    assert TaskInv(s, u);
    FlagView(s, u, u);
    ViewTask(s, u);
    FlagLocal(View(s, u), EnvOf(s), s.channel.flag);
    FlagGlobal(s, u);
    OneTaskKeeps(s, s', u);
  }

  lemma NotifyView(s: State, u: TaskId, t: TaskId)
    requires Get(s, u).calls.notifying > 0
    ensures EnvOf(DoRemoteNotify(s, u)) == EnvOf(s)
    ensures View(DoRemoteNotify(s, u), t) == if t == u then View(s, u).(task := Notified(Get(s, u))) else View(s, t)
  {
    hide Occ;
  }

  lemma NotifyLocal(m: Mine, e: Env)
    requires MineInv(m, e) && m.task.calls.notifying > 0
    ensures MineInv(m.(task := Notified(m.task)), e)
  {
    hide FirstCause;
  }

  lemma NotifyGlobal(s: State, u: TaskId)
    requires Global(s) && Get(s, u).calls.notifying > 0
    ensures Global(DoRemoteNotify(s, u))
  {
    hide SomeSender, SomeNotifier, OwnedSet;
    CallsKept(s, DoRemoteNotify(s, u), u);
  }

  lemma NotifyKeeps(s: State, u: TaskId)
    requires Inv(s) && Get(s, u).calls.notifying > 0
    ensures Inv(DoRemoteNotify(s, u))
  {
    hide View, MineInv, Global, Notified;
    var s' := DoRemoteNotify(s, u);
    forall t ensures EnvOf(s') == EnvOf(s) && (t != u ==> View(s', t) == View(s, t)) { NotifyView(s, u, t); }
    assert TaskInv(s, u);
    NotifyView(s, u, u);
    ViewTask(s, u);
    NotifyLocal(View(s, u), EnvOf(s));
    NotifyGlobal(s, u);
    OneTaskKeeps(s, s', u);
  }
}
