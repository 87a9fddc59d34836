/** However the other threads run, a cycle takes a bounded number of the owner's steps. */
module ExecutorBounds {
  import opened ExecutorState
  import opened ExecutorEvents
  import opened ExecutorInvariant
  import opened ExecutorAborts
  import opened ExecutorLocal
  import opened ExecutorRuns
  import opened ExecutorProgress

  // ---- The queues are no longer than the tasks are many ----

  lemma KnownAndOnce(s: State, t: TaskId)
    requires Inv(s)
    ensures Occ(s.queues.active, t) <= 1 && Occ(s.queues.awakened, t) <= 1 && Occ(s.channel.messages, t) <= 1
    ensures t !in s.tasks ==> View(s, t).places == Places(0, 0, 0, 0, 0)
  {
    assert TaskInv(s, t);
    if t !in s.tasks { UnknownIsNowhere(View(s, t), EnvOf(s)); }
    hide Global, Owned, Scheduled, Unpolled, WakeKept, PolledOnce, FirstCause, Lent;
  }

  lemma QueueFits(s: State, ids: seq<TaskId>)
    requires forall t: TaskId :: Occ(ids, t) <= 1 && (t !in s.tasks ==> Occ(ids, t) == 0)
    ensures |ids| <= |s.tasks|
  {
    MembersSize(ids);
    forall t | t in Members(ids) ensures t in s.tasks.Keys {
      assert Occ(ids, t) > 0;
    }
    SubsetSize(Members(ids), s.tasks.Keys);
  }

  lemma {:induction false} SubsetSize(a: set<TaskId>, b: set<TaskId>)
    requires a <= b
    ensures |a| <= |b|
  {
    if a != {} {
      var x :| x in a;
      SubsetSize(a - {x}, b - {x});
    }
  }

  /** An upper bound on what is left to do within any phase. */
  function PhaseSize(s: State): nat {
    6 * |s.tasks| + 5
  }

  lemma LeftFits(s: State)
    requires |s.queues.active| <= |s.tasks| && |s.queues.awakened| <= |s.tasks|
    requires |s.channel.messages| <= |s.tasks| && |Sendable(s.tasks)| <= |s.tasks|
    ensures Left(s) < PhaseSize(s)
  {
    hide Sendable;
  }

  lemma LeftIsBounded(s: State)
    requires Inv(s)
    ensures Left(s) < PhaseSize(s)
  {
    forall t: TaskId
      ensures Occ(s.queues.active, t) <= 1 && (t !in s.tasks ==> Occ(s.queues.active, t) == 0)
      ensures Occ(s.queues.awakened, t) <= 1 && (t !in s.tasks ==> Occ(s.queues.awakened, t) == 0)
      ensures Occ(s.channel.messages, t) <= 1 && (t !in s.tasks ==> Occ(s.channel.messages, t) == 0)
    {
      KnownAndOnce(s, t);
    }
    hide Inv, Occ, Left;
    QueueFits(s, s.queues.active);
    QueueFits(s, s.queues.awakened);
    QueueFits(s, s.channel.messages);
    SubsetSize(Sendable(s.tasks), s.tasks.Keys);
    hide Sendable;
    LeftFits(s);
  }

  // ---- Only a submission adds a task ----

  lemma QueuedIsKnown(s: State, t: TaskId)
    requires Inv(s)
    requires t in s.queues.active || t in s.queues.awakened || t in s.channel.messages
    ensures t in s.tasks
  {
    KnownAndOnce(s, t);
    hide Inv;
  }

  lemma CurrentIsKnown(s: State)
    requires Inv(s)
    ensures s.owner.pc.Polling? || s.owner.pc.Ending? ==> s.owner.pc.t in s.tasks
  {
    if s.owner.pc.Polling? || s.owner.pc.Ending? {
      assert TaskInv(s, s.owner.pc.t);
    }
    hide Global, Counted, Scheduled, Unpolled, FirstCause, Lent;
  }

  lemma StartStepAddsNone(s: State, step: StartStep)
    requires Inv(s) && StartEnabled(s, step)
    ensures StartNext(s, step).tasks.Keys == s.tasks.Keys
  {
    if step.Promote? { HeldIsKnown(s); }
    if step.ClearNext? { QueuedIsKnown(s, s.queues.active[s.owner.pc.from]); }
    hide Inv;
    StartStepKeys(s, step);
  }

  lemma StartStepKeys(s: State, step: StartStep)
    requires StartEnabled(s, step) && (step.Promote? ==> s.owner.hand.t in s.tasks)
    requires step.ClearNext? ==> s.queues.active[s.owner.pc.from] in s.tasks
    ensures StartNext(s, step).tasks.Keys == s.tasks.Keys
  {
    hide Get, Release, ClearNotification;
  }

  lemma PollStepAddsNone(s: State, step: PollStep)
    requires Inv(s) && PollEnabled(s, step)
    ensures PollNext(s, step).tasks.Keys == s.tasks.Keys
  {
    CurrentIsKnown(s);
    if step.PollBegin? { QueuedIsKnown(s, s.queues.active[0]); }
    hide Inv, Release, RetiredTask, OutcomeOf, Without;
  }

  lemma EndStepAddsNone(s: State, step: EndStep)
    requires Inv(s) && EndEnabled(s, step)
    ensures EndNext(s, step).tasks.Keys == s.tasks.Keys
  {
    if step.DropMessage? { QueuedIsKnown(s, s.channel.messages[0]); }
    if step.DropAwakened? { QueuedIsKnown(s, s.queues.awakened[0]); }
    hide Inv;
    EndStepKeys(s, step);
  }

  lemma EndStepKeys(s: State, step: EndStep)
    requires EndEnabled(s, step) && (step.DropMessage? ==> s.channel.messages[0] in s.tasks)
    requires step.DropAwakened? ==> s.queues.awakened[0] in s.tasks
    ensures EndNext(s, step).tasks.Keys == s.tasks.Keys
  {
    hide Get, Release, JudgeOutcome;
  }

  lemma UserStepAddsOne(s: State, step: UserStep)
    requires Inv(s) && UserEnabled(s, step)
    ensures |UserNext(s, step).tasks| == |s.tasks| + if step.Submit? then 1 else 0
  {
    if step.LocalWake? { UserIsKnown(s, CloneWaker, step.t); }
    if step.EnqueueLocal? { HeldIsKnown(s); }
    hide Inv, BeginLocal;
  }

  lemma WakerStepAddsNone(s: State, step: WakerStep, t: TaskId)
    requires Inv(s) && WakerEnabled(s, step, t)
    ensures WakerNext(s, step, t).tasks.Keys == s.tasks.Keys
  {
    UserIsKnown(s, step, t);
    hide Inv, BeginRemote;
  }

  predicate Submits(step: Step) {
    step.ByUser? && step.user.Submit?
  }

  lemma StepAddsTasks(s: State, step: Step)
    requires Inv(s) && Enabled(s, step)
    ensures |Next(s, step).tasks| == |s.tasks| + if Submits(step) then 1 else 0
  {
    hide Inv, StartEnabled, StartNext, PollEnabled, PollNext, EndEnabled, EndNext;
    hide UserEnabled, UserNext, WakerEnabled, WakerNext;
    match step
    case AtStart(start) => StartStepAddsNone(s, start);
    case AtPoll(poll) => PollStepAddsNone(s, poll);
    case AtEnd(end) => EndStepAddsNone(s, end);
    case ByUser(user) => UserStepAddsOne(s, user);
    case ByWaker(call, t) => WakerStepAddsNone(s, call, t);
  }

  // ---- The rank of a state bounds the owner's steps ----

  /** Phases and what is left within them, as one number. */
  function Rank(s: State): nat {
    Phase(s.owner.pc) * PhaseSize(s) + Left(s)
  }

  predicate ByOwner(step: Step) {
    step.AtStart? || step.AtPoll? || step.AtEnd?
  }

  lemma {:induction false} ProductGrows(p: nat, q: nat, size: nat)
    requires p < q
    ensures p * size + size <= q * size
  {
    assert q * size == (q - 1) * size + size;
    if p < q - 1 { ProductGrows(p, q - 1, size); }
  }

  lemma {:induction false} ProductOfSum(p: nat, size: nat, more: nat)
    ensures p * (size + more) == p * size + p * more
  {
    if p > 0 {
      ProductOfSum(p - 1, size, more);
      assert p * (size + more) == (p - 1) * (size + more) + (size + more);
      assert p * size == (p - 1) * size + size;
      assert p * more == (p - 1) * more + more;
    }
  }

  lemma RankFalls(p: nat, l: nat, p': nat, l': nat, size: nat)
    requires l' < size && (p' < p || (p' == p && l' < l))
    ensures p' * size + l' < p * size + l
  {
    if p' < p { ProductGrows(p', p, size); }
  }

  lemma OwnerStepIsBelow(s: State, step: Step)
    requires Inv(s) && Enabled(s, step) && ByOwner(step) && !Begins(step)
    ensures Below(Next(s, step), s)
  {
    hide Inv, Below, StartEnabled, PollEnabled, EndEnabled, StartNext, PollNext, EndNext;
    match step
    case AtStart(start) => StartStepProgresses(s, start);
    case AtPoll(poll) => PollStepProgresses(s, poll);
    case AtEnd(end) => EndStepProgresses(s, end);
  }

  lemma OwnerStepLowersRank(s: State, step: Step)
    requires Inv(s) && Enabled(s, step) && ByOwner(step) && !Begins(step)
    ensures Rank(Next(s, step)) < Rank(s)
  {
    var s' := Next(s, step);
    StepAddsTasks(s, step);
    StepKeepsInv(s, step);
    LeftIsBounded(s');
    OwnerStepIsBelow(s, step);
    hide Inv, Enabled, Next, Left, Phase;
    RankFalls(Phase(s.owner.pc), Left(s), Phase(s'.owner.pc), Left(s'), PhaseSize(s));
  }

  /** A submission can raise the rank by what one more task may cost in each remaining phase. */
  const COST_OF_SUBMISSION: nat := 66

  lemma OtherStepRank(s: State, step: Step)
    requires Inv(s) && Enabled(s, step) && !ByOwner(step)
    ensures Rank(Next(s, step)) <= Rank(s) + if Submits(step) then COST_OF_SUBMISSION else 0
  {
    var s' := Next(s, step);
    StepAddsTasks(s, step);
    OthersDoNotDelay(s, step);
    PhaseAtMost(s.owner.pc);
    hide Inv, Enabled, Next, Left, Phase;
    if Submits(step) { RankGrows(Phase(s.owner.pc), PhaseSize(s), Left(s), Left(s')); }
  }

  lemma PhaseAtMost(pc: Pc)
    ensures Phase(pc) <= 11
  {
  }

  lemma RankGrows(p: nat, size: nat, l: nat, l': nat)
    requires p <= 11 && l' <= l
    ensures p * (size + 6) + l' <= p * size + l + COST_OF_SUBMISSION
  {
    ProductOfSum(p, size, 6);
  }

  lemma {:induction false} RunRank(s: State, steps: seq<Step>)
    requires Inv(s) && CanRun(s, steps) && forall step :: step in steps ==> !Begins(step)
    ensures Count(steps, ByOwner) + Rank(Run(s, steps)) <= Rank(s) + COST_OF_SUBMISSION * Count(steps, Submits)
    decreases |steps|
  {
    if steps != [] {
      var step := steps[0];
      hide Inv, Enabled, Next, Rank;
      StepKeepsInv(s, step);
      RunRank(Next(s, step), steps[1..]);
      if ByOwner(step) { OwnerStepLowersRank(s, step); } else { OtherStepRank(s, step); }
    }
  }

  // ---- Without shutdown, submissions wait for the next cycle ----

  /** The rank with phases of a fixed size. */
  function RankIn(s: State, size: nat): nat {
    Phase(s.owner.pc) * size + Left(s)
  }

  /** The size is enough for what is left, and before the first poll for every later phase. */
  predicate Fits(s: State, size: nat) {
    Left(s) < size && (Phase(s.owner.pc) >= 8 ==> PhaseSize(s) <= size)
  }

  lemma NoAbortWithoutCause(s: State)
    requires Inv(s) && s.owner.cause.None?
    ensures !InAbort(s.owner.pc) && !s.owner.pc.Closing?
  {
    hide TaskInv;
  }

  lemma StartStepPhase(s: State, step: StartStep)
    requires StartEnabled(s, step) && !step.EnterCycle?
    requires s.owner.hand.Message? || s.owner.hand.Promoted? ==> s.owner.pc.Draining?
    ensures Phase(s.owner.pc) >= 8
  {
  }

  lemma PollStepPhase(s: State, step: PollStep)
    requires PollEnabled(s, step) && !InAbort(s.owner.pc)
    ensures var s' := PollNext(s, step); Phase(s'.owner.pc) == Phase(s.owner.pc) || Left(s') == 0
  {
    hide Get, Without, Release, RetiredTask, OutcomeOf, Sendable;
  }

  lemma EndStepPhase(s: State, step: EndStep)
    requires EndEnabled(s, step) && !InAbort(s.owner.pc) && !s.owner.pc.Closing? && !step.DropExecutor?
    ensures Left(EndNext(s, step)) == 0
  {
    hide JudgeOutcome, Sendable;
  }

  /** With no cause published, an owner's step comes before the first poll, stays in its phase, or leaves nothing. */
  lemma PhaseWithoutCause(s: State, step: Step)
    requires Inv(s) && Enabled(s, step) && ByOwner(step) && !Begins(step) && s.owner.cause.None?
    ensures var s' := Next(s, step);
      Phase(s.owner.pc) >= 8 || Phase(s'.owner.pc) == Phase(s.owner.pc) || Left(s') == 0
  {
    NoAbortWithoutCause(s);
    HandFacts(s);
    hide Inv, InAbort, StartEnabled, PollEnabled, EndEnabled, StartNext, PollNext, EndNext, Left, Phase;
    match step
    case AtStart(start) => StartStepPhase(s, start);
    case AtPoll(poll) => PollStepPhase(s, poll);
    case AtEnd(end) => EndStepPhase(s, end);
  }

  lemma OwnerStepFits(s: State, step: Step, size: nat)
    requires Inv(s) && Enabled(s, step) && ByOwner(step) && !Begins(step) && s.owner.cause.None? && Fits(s, size)
    ensures Fits(Next(s, step), size) && RankIn(Next(s, step), size) < RankIn(s, size)
  {
    var s' := Next(s, step);
    StepAddsTasks(s, step);
    StepKeepsInv(s, step);
    LeftIsBounded(s');
    PhaseWithoutCause(s, step);
    OwnerStepIsBelow(s, step);
    hide Inv, Next, Left, Phase;
    RankFalls(Phase(s.owner.pc), Left(s), Phase(s'.owner.pc), Left(s'), size);
  }

  lemma OtherStepFits(s: State, step: Step, size: nat)
    requires Inv(s) && Enabled(s, step) && !ByOwner(step) && Fits(s, size)
    ensures Fits(Next(s, step), size) && RankIn(Next(s, step), size) <= RankIn(s, size)
  {
    StepAddsTasks(s, step);
    OthersDoNotDelay(s, step);
    assert Submits(step) ==> Phase(s.owner.pc) < 8 by { hide Inv; }
    hide Inv, Next, Left, Phase;
  }

  lemma {:induction false} RunRankIn(s: State, steps: seq<Step>, size: nat)
    requires Inv(s) && CanRun(s, steps) && forall step :: step in steps ==> !Begins(step)
    requires Run(s, steps).owner.cause.None? && Fits(s, size)
    ensures Count(steps, ByOwner) + RankIn(Run(s, steps), size) <= RankIn(s, size)
    ensures s.owner.cause.None?
    decreases |steps|
  {
    if steps != [] {
      var step := steps[0];
      var rest := steps[1..];
      hide Inv, Enabled, Next, RankIn, Fits;
      StepKeepsInv(s, step);
      CauseComesLater(s, steps);
      if ByOwner(step) { OwnerStepFits(s, step, size); } else { OtherStepFits(s, step, size); }
      RunRankIn(Next(s, step), rest, size);
    }
  }

  lemma {:induction false} CauseComesLater(s: State, steps: seq<Step>)
    requires CanRun(s, steps) && Run(s, steps).owner.cause.None?
    ensures s.owner.cause.None?
    decreases |steps|
  {
    hide Enabled, Next;
    if steps != [] {
      StepRegisters(s, steps[0]);
      CauseComesLater(Next(s, steps[0]), steps[1..]);
    }
  }

  // ---- The bound ----

  function Bound(s: State): nat {
    12 * PhaseSize(s)
  }

  lemma RankFits(s: State)
    requires Inv(s)
    ensures Rank(s) == RankIn(s, PhaseSize(s)) <= Bound(s) && Fits(s, PhaseSize(s))
  {
    LeftIsBounded(s);
    hide Inv, Left;
    PhaseAtMost(s.owner.pc);
    hide Phase;
    ProductGrows(Phase(s.owner.pc), 12, PhaseSize(s));
  }

  /**
   A cycle ends: in every run inside one cycle, however wakes and submissions interleave, the owner takes at
   most so many steps, plus a fixed number for each task that is submitted during the run. The addition is
   needed only when the cycle shuts down: user code may submit any number of tasks and then trigger shutdown,
   and each of them is aborted in that cycle. As long as no cause is published, submitted tasks wait.
   */
  lemma CycleIsBounded(s: State, steps: seq<Step>)
    requires Reachable(s) && CanRun(s, steps) && forall step :: step in steps ==> !Begins(step)
    ensures Count(steps, ByOwner) <= Bound(s) + COST_OF_SUBMISSION * Count(steps, Submits)
    ensures Run(s, steps).owner.cause.None? ==> Count(steps, ByOwner) <= Bound(s)
  {
    ReachableInv(s);
    hide Inv, Reachable, Count, CanRun, Run, Begins, Rank, RankIn, Fits, Bound;
    RankFits(s);
    RunRank(s, steps);
    if Run(s, steps).owner.cause.None? { RunRankIn(s, steps, PhaseSize(s)); }
  }
}
