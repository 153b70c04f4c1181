/** Draining: once every count is at or below 0 and nothing new starts, every run ends, and a run that
    cannot go on has returned every waiter and left ring, counter and locks as they were at the start. */
module WaitSyncDrain {
  import opened Base
  import opened WaitSyncModel
  import opened WaitSyncFlow
  import opened WaitSyncLocks
  import opened WaitSyncManager
  import opened WaitSyncTheorems

  /** Steps other than new waits, updates and wakeups; spurious wakeups are included. */
  predicate DrainLabel(l: Label) { l.Run? || l.Spurious? || l.Release? }

  ghost predicate AllComplete(pc: seq<Pc>, count: seq<int>)
    requires |count| == |pc|
  {
    forall s :: 0 <= s < |pc| && !pc[s].Outside? ==> count[s] <= 0
  }

  ghost predicate AmountsOk(frame: seq<Frame>) {
    forall t :: 0 <= t < |frame| && frame[t].Add? ==> frame[t].amount >= 0
  }

  ghost predicate Draining(st: State) {
    Inv(st) && AllComplete(st.pc, st.count) && AmountsOk(st.frame)
  }

  /** Draining starts in any reachable state with complete counts and no negative update under way,
      even where an overshooting update completed a sleeper without signalling it. */
  lemma DrainStarts(st: State)
    requires Reachable(st) && AllComplete(st.pc, st.count) && AmountsOk(st.frame)
    ensures Draining(st)
  {
    ReachableInv(st);
  }

  // ---------------------------------------------------------------- draining is kept

  lemma WaitKeepsDraining(st: State, t: Id)
    requires Shape(st) && CanRun(st, t) && st.frame[t].Idle?
    requires AllComplete(st.pc, st.count)
    ensures var st' := RunWait(st, t); |st'.count| == |st'.pc| && AllComplete(st'.pc, st'.count)
  {
    WaitFlow(st, t);
    assert !st.pc[t].Outside?;
  }

  lemma FrameKeepsDraining(st: State, t: Id)
    requires Shape(st) && CanRun(st, t) && !st.frame[t].Idle?
    requires AllComplete(st.pc, st.count) && AmountsOk(st.frame)
    ensures var st' := RunFrame(st, t);
            |st'.count| == |st'.pc| && AllComplete(st'.pc, st'.count) && AmountsOk(st'.frame)
  {
    FrameFlow(st, t);
    assert FrameInRange(st.pc, st.ring, st.frame[t]);
  }

  lemma StepKeepsDraining(st: State, l: Label)
    requires Draining(st) && DrainLabel(l) && Enabled(st, l)
    ensures Draining(Apply(st, l))
  {
    StepInv(st, l);
    if l.Run? && st.frame[l.t].Idle? {
      WaitKeepsDraining(st, l.t);
      WaitFlow(st, l.t);
    } else if l.Run? {
      FrameKeepsDraining(st, l.t);
    }
  }

  // ---------------------------------------------------------------- every step lowers the measure

  function Rank(p: Pc): int {
    match p
    case Outside => 0        case Released(_) => 0   case Returned(_) => 1    case ReadStatus => 2
    case BailOut => 3        case ReleaseTrim => 3   case PassUnlock => 4     case PassSignal => 5
    case PassLock => 6       case Unlink => 7        case AcquireTrim => 8    case CountOut => 9
    case LeaveLocked => 9    case LoopTest => 10     case CheckDone => 10     case Progress => 11
    case Waking => 11        case Asleep => 12       case CountIn => 12       case EnterSleep => 13
    case ReleaseOwn => 13    case ReadBusy => 14     case ReadHead => 15      case ReleaseRing => 16
    case Link => 17          case AcquireRing => 18  case RecheckLocked => 19 case AcquireOwn => 20
    case FastCheck => 21
  }

  /** Weight of the ring positions a traversal among n threads may still visit after position k. */
  function Ahead(n: nat, k: nat): int { if k < n then 2 + 8 * (n - 1 - k) else 2 }

  function After(n: nat, from: Origin): int { if from.Direct? then 0 else Ahead(n, from.index) }

  function FrameWeight(n: nat, f: Frame): int {
    match f
    case Idle => 0
    case Add(_, _, from) => 6 + After(n, from)
    case SetStatus(_, _, from) => 6 + After(n, from)
    case Swap(_, from) => 5 + After(n, from)
    case SignalLock(_, from) => 4 + After(n, from)
    case SignalCond(_, from) => 3 + After(n, from)
    case SignalUnlock(_, from) => 2 + After(n, from)
    case ClearSignaling(_, from) => 1 + After(n, from)
    case SweepLock(_) => 8 * n + 2
    case SweepHead(_) => 8 * n + 1
    case SweepNext(_, k) => Ahead(n, k)
    case SweepUnlock(_) => 1
  }

  function FrameRank(n: nat): Frame -> int { (f: Frame) => FrameWeight(n, f) }

  function Measure(st: State): int { Sum(st.pc, Rank) + Sum(st.frame, FrameRank(N(st))) }

  lemma MeasureNonNegative(st: State)
    ensures Measure(st) >= 0
  {
    SumNonNegative(st.pc, Rank);
    SumNonNegative(st.frame, FrameRank(N(st)));
  }

  lemma FlowLowers(p: Pc, q: Pc, count: int, status: int)
    requires Flow(p, q, count, status) && count <= 0
    ensures Rank(q) < Rank(p)
  {}

  lemma WaitLowers(st: State, t: Id)
    requires Shape(st) && CanRun(st, t) && st.frame[t].Idle? && AllComplete(st.pc, st.count)
    ensures Measure(RunWait(st, t)) < Measure(st)
  {
    WaitFlow(st, t);
    var st' := RunWait(st, t);
    assert !st.pc[t].Outside?;
    FlowLowers(st.pc[t], st'.pc[t], st.count[t], st.status[t]);
    SumLower(st.pc, st'.pc, Rank, t);
  }

  lemma FrameWeightLowers(st: State, t: Id)
    requires Shape(st) && CanRun(st, t) && !st.frame[t].Idle? && |st.ring| <= N(st)
    ensures FrameWeight(N(st), RunFrame(st, t).frame[t]) < FrameWeight(N(st), st.frame[t])
  {}

  lemma FrameLowers(st: State, t: Id)
    requires Structure(st) && CanRun(st, t) && !st.frame[t].Idle?
    ensures Measure(RunFrame(st, t)) < Measure(st)
  {
    FrameFlow(st, t);
    DistinctBounded(st.ring, N(st));
    FrameWeightLowers(st, t);
    FramesLower(st.frame, t, RunFrame(st, t).frame[t], N(st));
    if st.frame[t].SignalCond? && st.pc[st.frame[t].target].Asleep? {
      SumUpdate(st.pc, st.frame[t].target, Waking, Rank);
    }
  }

  lemma FramesLower(frame: seq<Frame>, t: Id, f: Frame, n: nat)
    requires t < |frame| && FrameWeight(n, f) < FrameWeight(n, frame[t])
    ensures Sum(frame[t := f], FrameRank(n)) < Sum(frame, FrameRank(n))
  {
    SumUpdate(frame, t, f, FrameRank(n));
  }

  lemma MoveLowers(st: State, t: Id, p: Pc)
    requires t < N(st) && Rank(p) < Rank(st.pc[t])
    ensures Measure(Move(st, t, p)) < Measure(st)
  {
    SumUpdate(st.pc, t, p, Rank);
  }

  lemma RunLowers(st: State, t: Id)
    requires Structure(st) && AllComplete(st.pc, st.count) && CanRun(st, t)
    ensures Measure(Apply(st, Run(t))) < Measure(st)
  {
    if st.frame[t].Idle? { WaitLowers(st, t); } else { FrameLowers(st, t); }
  }

  /** Every step of a draining run, spurious wakeups included, lowers the measure. */
  lemma DrainLowers(st: State, l: Label)
    requires Structure(st) && AllComplete(st.pc, st.count) && DrainLabel(l) && Enabled(st, l)
    ensures 0 <= Measure(Apply(st, l)) < Measure(st)
  {
    MeasureNonNegative(Apply(st, l));
    match l {
      case Run(t) => RunLowers(st, t);
      case Spurious(t) => MoveLowers(st, t, Waking);
      case Release(t) => MoveLowers(st, t, Released(st.pc[t].outcome));
    }
  }

  // ---------------------------------------------------------------- nothing is stuck

  ghost predicate Done(st: State) {
    && |st.frame| == N(st)
    && forall t :: 0 <= t < N(st) ==> Over(st.pc[t]) && st.frame[t].Idle?
  }

  /** While anybody sleeps on the ring, the head's waiter or the thread promoting it has something to do. */
  lemma ManagerIsActive(st: State, t: Id) returns (a: Id)
    requires Structure(st) && ManagerOk(st.pc, st.ring, st.ringLock) && t < N(st) && st.pc[t].Asleep?
    ensures Active(st, a)
  {
    assert OnRing(st.pc[t]);
    a := st.ring[0];
    assert OnRing(st.pc[a]);
    if st.pc[a].Asleep? {
      a := st.ringLock.value;
    }
  }

  /** An unfinished draining state has a thread that can run, without help from spurious wakeups. */
  lemma DrainIsLive(st: State)
    requires Draining(st) && !Done(st)
    ensures exists t :: CanRun(st, t)
  {
    var t :| 0 <= t < N(st) && !(Over(st.pc[t]) && st.frame[t].Idle?);
    if !Active(st, t) {
      t := ManagerIsActive(st, t);
    }
    ChainEnds(st, t);
  }

  lemma HeadOnRing(pc: seq<Pc>, ring: seq<Id>)
    requires RingOk(pc, ring)
    ensures ring != [] ==> ring[0] < |pc| && OnRing(pc[ring[0]])
  {}

  /** When all is done the ring is empty, nobody counts as in progress, and every lock is free. */
  lemma DoneIsClean(st: State)
    requires Structure(st) && Done(st)
    ensures st.ring == [] && st.busy == 0 && st.ringLock == None
    ensures forall s :: 0 <= s < N(st) ==> st.lock[s] == None
  {
    HeadOnRing(st.pc, st.ring);
    forall s | 0 <= s < N(st) ensures st.lock[s] == None {
      assert OwnerOk(st.pc, st.frame, st.ring, st.lock, s);
    }
    SumZero(st.pc, InProgress);
  }

  // ---------------------------------------------------------------- whole runs

  ghost predicate DrainStep(st: State, st': State) {
    Shape(st) && exists l :: DrainLabel(l) && Enabled(st, l) && st' == Apply(st, l)
  }

  ghost predicate DrainStepAt(run: seq<State>, i: nat) {
    i + 1 < |run| ==> DrainStep(run[i], run[i + 1])
  }

  ghost predicate IsDrain(run: seq<State>) {
    |run| > 0 && forall i: nat :: DrainStepAt(run, i)
  }

  lemma DrainStepGood(st: State, st': State)
    requires Draining(st) && DrainStep(st, st')
    ensures Draining(st') && 0 <= Measure(st') < Measure(st)
  {
    var l :| DrainLabel(l) && Enabled(st, l) && st' == Apply(st, l);
    StepKeepsDraining(st, l);
    DrainLowers(st, l);
  }

  lemma DrainAt(run: seq<State>, i: nat)
    requires IsDrain(run) && i + 1 < |run| && Draining(run[i])
    ensures Draining(run[i + 1]) && 0 <= Measure(run[i + 1]) < Measure(run[i])
  {
    assert DrainStepAt(run, i);
    DrainStepGood(run[i], run[i + 1]);
  }

  /** A draining run has at most as many steps as the measure of its first state. */
  lemma {:induction false} DrainBounded(run: seq<State>, i: nat)
    requires IsDrain(run) && Draining(run[0]) && i < |run|
    ensures Draining(run[i]) && i + Measure(run[i]) <= Measure(run[0]) && 0 <= Measure(run[i])
  {
    if i == 0 {
      MeasureNonNegative(run[0]);
    } else {
      DrainBounded(run, i - 1);
      DrainAt(run, i - 1);
    }
  }

  /** A draining run that cannot be extended has finished: every waiter returned, everything clean. */
  lemma MaximalDrainIsDone(run: seq<State>)
    requires IsDrain(run) && Draining(run[0])
    requires forall l :: DrainLabel(l) ==> !Enabled(run[|run| - 1], l)
    ensures |run| - 1 <= Measure(run[0])
    ensures var last := run[|run| - 1];
            && Done(last) && last.ring == [] && last.busy == 0 && last.ringLock == None
            && |last.lock| == N(last) && forall s :: 0 <= s < N(last) ==> last.lock[s] == None
  {
    var last := run[|run| - 1];
    DrainBounded(run, |run| - 1);
    if Done(last) {
      DoneIsClean(last);
    } else {
      DrainIsLive(last);
      var t :| CanRun(last, t);
      assert DrainLabel(Run(t));
      assert false;
    }
  }

  lemma DrainAdvances(st: State) returns (st': State)
    requires Draining(st) && !Done(st)
    ensures DrainStep(st, st') && Draining(st') && 0 <= Measure(st') < Measure(st)
  {
    DrainIsLive(st);
    var t :| CanRun(st, t);
    st' := Apply(st, Run(t));
    assert DrainLabel(Run(t)) && Enabled(st, Run(t));
    DrainStepGood(st, st');
  }

  lemma DrainPrepend(st: State, rest: seq<State>)
    requires IsDrain(rest) && DrainStep(st, rest[0])
    ensures var run := [st] + rest; IsDrain(run) && run[0] == st && run[|run| - 1] == rest[|rest| - 1]
  {
    var run := [st] + rest;
    forall i: nat ensures DrainStepAt(run, i) {
      if i > 0 {
        assert DrainStepAt(rest, i - 1);
      }
    }
  }

  /** From every draining state some run finishes. */
  lemma {:induction false} DrainFinishes(st: State) returns (run: seq<State>)
    requires Draining(st)
    ensures IsDrain(run) && run[0] == st && Done(run[|run| - 1])
    decreases Measure(st)
  {
    if Done(st) {
      run := [st];
    } else {
      var st' := DrainAdvances(st);
      var rest := DrainFinishes(st');
      DrainPrepend(st, rest);
      run := [st] + rest;
    }
  }
}
