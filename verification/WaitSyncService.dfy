/** Service: a completed waiter gets to return even if no other waiter ever completes.  The only help it
    needs comes from threads that hold a lock or are inside an update or a wakeup, and there is a bound on
    the number of steps. */
module WaitSyncService {
  import opened Base
  import opened WaitSyncModel
  import opened WaitSyncFlow
  import opened WaitSyncLocks
  import opened WaitSyncCompletion
  import opened WaitSyncSweep
  import opened WaitSyncTheorems
  import opened WaitSyncDrain

  /** No negative update of w is under way. */
  ghost predicate NoneRaises(frame: seq<Frame>, w: Id) {
    forall t :: 0 <= t < |frame| && frame[t].Add? && frame[t].target == w ==> frame[t].amount >= 0
  }

  /** w is awake, or no update leapt over its 0. */
  predicate WillHear(st: State, w: Id)
    requires w < N(st) == |st.log|
  {
    Committed(st.pc[w]) ==> !st.log[w].leapt
  }

  /** w has started its wait, is complete, stays so, and will be woken if it sleeps. */
  ghost predicate Served(st: State, w: Id) {
    && Inv(st) && w < N(st) && !st.pc[w].Outside? && st.count[w] <= 0 && WillHear(st, w) && NoneRaises(st.frame, w)
  }

  /** Steps until a thread that holds a lock has given up all locks of its wait. */
  function HoldRank(p: Pc): int {
    match p
    case RecheckLocked => 8  case AcquireRing => 7  case Link => 6        case ReleaseRing => 5
    case ReadHead => 4       case ReadBusy => 3     case EnterSleep => 2  case BailOut => 1
    case CheckDone => 5      case LeaveLocked => 1  case ReleaseOwn => 1  case Unlink => 5
    case PassLock => 4       case PassSignal => 3   case PassUnlock => 2  case ReleaseTrim => 1
    case _ => 0
  }

  lemma HoldFlow(p: Pc, q: Pc, count: int, status: int)
    requires Flow(p, q, count, status) && HoldRank(p) > 0
    ensures HoldRank(q) < HoldRank(p)
  {}

  /** What w itself still has to do, what lock holders have to do, and what is under way in frames. */
  function Debt(st: State, w: Id): int
    requires w < N(st)
  {
    Rank(st.pc[w]) + Sum(st.pc[w := Outside], HoldRank) + Sum(st.frame, FrameRank(N(st)))
  }

  lemma DebtNonNegative(st: State, w: Id)
    requires w < N(st)
    ensures Debt(st, w) >= 0
  {
    SumNonNegative(st.pc[w := Outside], HoldRank);
    SumNonNegative(st.frame, FrameRank(N(st)));
  }

  /** Threads that may be asked to help w: w itself, lock holders, and threads inside an update or wakeup. */
  predicate Helps(st: State, w: Id, t: Id) {
    t < N(st) == |st.frame| && (t == w || !st.frame[t].Idle? || HoldRank(st.pc[t]) > 0)
  }

  // ---------------------------------------------------------------- a helper's step lowers the debt

  lemma OwnStepLowers(st: State, w: Id)
    requires Shape(st) && CanRun(st, w) && st.frame[w].Idle? && !st.pc[w].Outside? && st.count[w] <= 0
    ensures N(RunWait(st, w)) == N(st) && Debt(RunWait(st, w), w) < Debt(st, w)
  {
    WaitFlow(st, w);
    var st' := RunWait(st, w);
    FlowLowers(st.pc[w], st'.pc[w], st.count[w], st.status[w]);
    HoldersNotHigher(st.pc, st'.pc, w);
  }

  lemma HolderStepLowers(st: State, w: Id, t: Id)
    requires Shape(st) && CanRun(st, t) && st.frame[t].Idle? && w < N(st) && t != w && HoldRank(st.pc[t]) > 0
    ensures N(RunWait(st, t)) == N(st) && Debt(RunWait(st, t), w) < Debt(st, w)
  {
    WaitFlow(st, t);
    var st' := RunWait(st, t);
    HoldFlow(st.pc[t], st'.pc[t], st.count[t], st.status[t]);
    HoldersLower(st.pc, st'.pc, w, t);
    assert Rank(st'.pc[w]) <= Rank(st.pc[w]);
  }

  lemma HoldersLower(pc: seq<Pc>, pc': seq<Pc>, w: Id, t: Id)
    requires w < |pc| && t < |pc| && t != w && OthersStay(pc, pc', t) && HoldRank(pc'[t]) < HoldRank(pc[t])
    ensures Sum(pc'[w := Outside], HoldRank) < Sum(pc[w := Outside], HoldRank)
  {
    SumLower(pc[w := Outside], pc'[w := Outside], HoldRank, t);
  }

  lemma HoldersNotHigher(pc: seq<Pc>, pc': seq<Pc>, w: Id)
    requires w < |pc| == |pc'|
    requires forall u :: 0 <= u < |pc| && u != w ==> pc'[u] == pc[u] || (pc[u].Asleep? && pc'[u].Waking?)
    ensures Sum(pc'[w := Outside], HoldRank) <= Sum(pc[w := Outside], HoldRank)
  {
    SumNotHigher(pc[w := Outside], pc'[w := Outside], HoldRank);
  }

  /** A frame's step puts no further work on any wait. */
  lemma FrameWakesOnly(st: State, w: Id, t: Id)
    requires Shape(st) && CanRun(st, t) && !st.frame[t].Idle? && w < N(st)
    ensures var st' := RunFrame(st, t);
            && N(st') == N(st) && Rank(st'.pc[w]) <= Rank(st.pc[w])
            && Sum(st'.pc[w := Outside], HoldRank) <= Sum(st.pc[w := Outside], HoldRank)
  {
    FrameFlow(st, t);
    HoldersNotHigher(st.pc, RunFrame(st, t).pc, w);
  }

  lemma FrameSumLowers(st: State, t: Id)
    requires Structure(st) && CanRun(st, t) && !st.frame[t].Idle?
    ensures Sum(RunFrame(st, t).frame, FrameRank(N(st))) < Sum(st.frame, FrameRank(N(st)))
  {
    FrameFlow(st, t);
    DistinctBounded(st.ring, N(st));
    FrameWeightLowers(st, t);
    FramesLower(st.frame, t, RunFrame(st, t).frame[t], N(st));
  }

  lemma FrameStepLowers(st: State, w: Id, t: Id)
    requires Structure(st) && CanRun(st, t) && !st.frame[t].Idle? && w < N(st)
    ensures N(RunFrame(st, t)) == N(st) && Debt(RunFrame(st, t), w) < Debt(st, w)
  {
    FrameWakesOnly(st, w, t);
    FrameSumLowers(st, t);
  }

  lemma HelpLowers(st: State, w: Id, t: Id)
    requires Structure(st) && w < N(st) && !st.pc[w].Outside? && st.count[w] <= 0 && Helps(st, w, t) && CanRun(st, t)
    ensures N(Apply(st, Run(t))) == N(st) && Debt(Apply(st, Run(t)), w) < Debt(st, w)
  {
    if !st.frame[t].Idle? {
      FrameStepLowers(st, w, t);
    } else if t == w {
      OwnStepLowers(st, w);
    } else {
      HolderStepLowers(st, w, t);
    }
  }

  // ---------------------------------------------------------------- w stays served

  lemma FrameKeepsServed(st: State, w: Id, t: Id)
    requires Shape(st) && CanRun(st, t) && !st.frame[t].Idle? && w < N(st) && st.count[w] <= 0
    requires NoneRaises(st.frame, w)
    ensures var st' := RunFrame(st, t);
            && |st'.count| == |st'.log| == N(st) && st'.count[w] <= 0 && NoneRaises(st'.frame, w)
            && st'.log[w].leapt == st.log[w].leapt
  {
    FrameFlow(st, t);
  }

  lemma StepKeepsServed(st: State, w: Id, t: Id)
    requires Served(st, w) && CanRun(st, t)
    ensures Served(Apply(st, Run(t)), w)
  {
    StepInv(st, Run(t));
    if st.frame[t].Idle? {
      WaitFlow(st, t);
      WaitStaysInside(st, t, w);
      if t == w && Committed(RunWait(st, w).pc[w]) {
        NeverCommits(st.pc[w], RunWait(st, w).pc[w], st.count[w], st.status[w]);
      }
    } else {
      FrameFlow(st, t);
      FrameKeepsServed(st, w, t);
    }
  }

  /** A complete waiter does not commit itself to sleep anew. */
  lemma NeverCommits(p: Pc, q: Pc, count: int, status: int)
    requires Flow(p, q, count, status) && count <= 0 && Committed(q)
    ensures Committed(p)
  {}

  lemma WaitStaysInside(st: State, t: Id, w: Id)
    requires Shape(st) && CanRun(st, t) && st.frame[t].Idle? && w < N(st) && !st.pc[w].Outside?
    ensures N(RunWait(st, t)) == N(st) && !RunWait(st, t).pc[w].Outside?
  {
    WaitFlow(st, t);
  }

  // ---------------------------------------------------------------- there is always a helper that can run

  lemma OwnerHelps(st: State, w: Id, t: Id)
    requires Structure(st) && t < N(st)
    requires st.ringLock == Some(t) || exists s :: 0 <= s < N(st) && st.lock[s] == Some(t)
    ensures Helps(st, w, t)
  {
    if st.ringLock == Some(t) {
      assert OwnsRing(st.pc[t]) || SweepHolds(st.frame[t]);
    } else {
      var s :| 0 <= s < N(st) && st.lock[s] == Some(t);
      assert OwnerOk(st.pc, st.frame, st.ring, st.lock, s);
    }
  }

  /** Along a chain of lock waits everybody helps. */
  lemma {:induction false} FollowHelps(st: State, w: Id, t: Id, k: nat)
    requires Structure(st) && Helps(st, w, t)
    ensures Helps(st, w, Follow(st, t, k))
    decreases k
  {
    var want := Wanted(st, t);
    var owner := OwnerOf(st, want);
    if k > 0 && owner.Some? && owner.value < N(st) {
      if want.SyncLock? {
        assert st.lock[want.s] == Some(owner.value);
      }
      OwnerHelps(st, w, owner.value);
      FollowHelps(st, w, owner.value, k - 1);
    }
  }

  /** Whom w waits for first: itself, or the updater that has yet to signal it. */
  lemma FirstHelper(st: State, w: Id) returns (t: Id)
    requires Shape(st) && DataOk(st) && w < N(st) && !st.pc[w].Outside? && st.count[w] <= 0 && WillHear(st, w) && !Ended(st.pc[w])
    ensures Active(st, t) && Helps(st, w, t)
  {
    t := w;
    if st.pc[w].Asleep? && st.frame[w].Idle? {
      assert NotLost(st.pc[w], st.frame, st.count[w], st.log[w], w);
      t :| 0 <= t < |st.frame| && WillSignal(st.frame[t], w);
    }
  }

  lemma Helper(st: State, w: Id) returns (t: Id)
    requires Served(st, w) && !Ended(st.pc[w])
    ensures CanRun(st, t) && Helps(st, w, t)
  {
    var a := FirstHelper(st, w);
    ChainEnds(st, a);
    FollowHelps(st, w, a, 3);
    t := Follow(st, a, 3);
  }

  // ---------------------------------------------------------------- whole runs

  /** Each step is an action of a thread that helps w. */
  ghost predicate HelpStep(st: State, st': State, w: Id) {
    Shape(st) && exists t :: Helps(st, w, t) && CanRun(st, t) && st' == Apply(st, Run(t))
  }

  ghost predicate HelpStepAt(run: seq<State>, w: Id, i: nat) {
    i + 1 < |run| ==> HelpStep(run[i], run[i + 1], w)
  }

  ghost predicate IsHelp(run: seq<State>, w: Id) {
    |run| > 0 && forall i: nat :: HelpStepAt(run, w, i)
  }

  lemma HelpPrepend(st: State, rest: seq<State>, w: Id)
    requires IsHelp(rest, w) && HelpStep(st, rest[0], w)
    ensures var run := [st] + rest; IsHelp(run, w) && run[0] == st && run[|run| - 1] == rest[|rest| - 1]
  {
    var run := [st] + rest;
    forall i: nat ensures HelpStepAt(run, w, i) {
      if i > 0 {
        assert HelpStepAt(rest, w, i - 1);
      }
    }
  }

  /** One step of help: it exists, keeps w served and lowers the debt. */
  lemma HelpAdvances(st: State, w: Id) returns (st': State)
    requires Served(st, w) && !Ended(st.pc[w])
    ensures HelpStep(st, st', w) && Served(st', w) && 0 <= Debt(st', w) < Debt(st, w)
  {
    var t := Helper(st, w);
    st' := Apply(st, Run(t));
    StepKeepsServed(st, w, t);
    HelpLowers(st, w, t);
    DebtNonNegative(st', w);
  }

  /** However w is helped, it is served for good and the help takes at most as many steps as the debt. */
  lemma {:induction false} HelpBounded(run: seq<State>, w: Id, i: nat)
    requires IsHelp(run, w) && Served(run[0], w) && i < |run|
    ensures Served(run[i], w) && 0 <= Debt(run[i], w) && i + Debt(run[i], w) <= Debt(run[0], w)
  {
    if i == 0 {
      DebtNonNegative(run[0], w);
    } else {
      HelpBounded(run, w, i - 1);
      HelpAt(run, w, i - 1);
    }
  }

  lemma HelpAt(run: seq<State>, w: Id, i: nat)
    requires IsHelp(run, w) && i + 1 < |run| && Served(run[i], w)
    ensures Served(run[i + 1], w) && 0 <= Debt(run[i + 1], w) < Debt(run[i], w)
  {
    assert HelpStepAt(run, w, i);
    HelpNext(run[i], run[i + 1], w);
  }

  lemma HelpNext(st: State, st': State, w: Id)
    requires Served(st, w) && HelpStep(st, st', w)
    ensures Served(st', w) && 0 <= Debt(st', w) < Debt(st, w)
  {
    var t :| Helps(st, w, t) && CanRun(st, t) && st' == Apply(st, Run(t));
    StepKeepsServed(st, w, t);
    HelpLowers(st, w, t);
    DebtNonNegative(st', w);
  }

  ghost predicate NoHelp(st: State, w: Id) {
    forall t :: Helps(st, w, t) ==> !CanRun(st, t)
  }

  /** Every run of helpers that cannot be extended has returned w. */
  lemma MaximalHelpReturns(run: seq<State>, w: Id)
    requires IsHelp(run, w) && Served(run[0], w)
    requires NoHelp(run[|run| - 1], w)
    ensures |run| - 1 <= Debt(run[0], w) && w < N(run[|run| - 1]) && Ended(run[|run| - 1].pc[w])
  {
    HelpBounded(run, w, |run| - 1);
    var last := run[|run| - 1];
    if !Ended(last.pc[w]) {
      var t := Helper(last, w);
    }
  }

  /** From every reachable state, a started waiter whose count is at most 0 can be returned by helpers
      alone: no other wait completes or moves unless it holds a lock, nothing new is started and no
      spurious wakeup is needed. */
  lemma CompletedReturns(st: State, w: Id) returns (run: seq<State>)
    requires Reachable(st) && w < N(st) && !st.pc[w].Outside? && st.count[w] <= 0 && WillHear(st, w)
    requires NoneRaises(st.frame, w)
    ensures IsHelp(run, w) && run[0] == st
    ensures w < N(run[|run| - 1]) && Ended(run[|run| - 1].pc[w])
  {
    ReachableInv(st);
    run := HelpedHome(st, w);
  }

  lemma {:induction false} HelpedHome(st: State, w: Id) returns (run: seq<State>)
    requires Served(st, w)
    ensures IsHelp(run, w) && run[0] == st
    ensures w < N(run[|run| - 1]) && Ended(run[|run| - 1].pc[w])
    decreases Debt(st, w)
  {
    if Ended(st.pc[w]) {
      run := [st];
    } else {
      var st' := HelpAdvances(st, w);
      var rest := HelpedHome(st', w);
      HelpPrepend(st, rest, w);
      run := [st] + rest;
    }
  }

  // ---------------------------------------------------------------- after an error wakeup

  lemma HelpKeepsDoom(st: State, st': State, w: Id)
    requires Served(st, w) && HelpStep(st, st', w) && Doomed(st, w)
    ensures Doomed(st', w)
  {
    var t :| Helps(st, w, t) && CanRun(st, t) && st' == Apply(st, Run(t));
    assert Enabled(st, Run(t));
    DoomedNext(st, st', w);
  }

  lemma {:induction false} HelpReportsError(run: seq<State>, w: Id, i: nat)
    requires IsHelp(run, w) && Served(run[0], w) && Doomed(run[0], w) && i < |run|
    ensures Doomed(run[i], w)
  {
    if i > 0 {
      HelpReportsError(run, w, i - 1);
      DoomAt(run, w, i - 1);
    }
  }

  lemma DoomAt(run: seq<State>, w: Id, i: nat)
    requires IsHelp(run, w) && Served(run[0], w) && i + 1 < |run| && Doomed(run[i], w)
    ensures Doomed(run[i + 1], w)
  {
    HelpBounded(run, w, i);
    assert HelpStepAt(run, w, i);
    HelpKeepsDoom(run[i], run[i + 1], w);
  }

  /** When a global wakeup with an error is about to release wait_sync_lock, every ring member with steady
      updates can be helped home, and returns an error. */
  lemma WakeupReturnsError(st: State, t: Id, j: nat) returns (run: seq<State>)
    requires Reachable(st) && t < N(st) && st.frame[t].SweepUnlock? && st.frame[t].code != 0 && j < |st.ring|
    requires st.log[st.ring[j]].steady && NoneRaises(st.frame, st.ring[j])
    ensures IsHelp(run, st.ring[j]) && run[0] == st
    ensures var last, s := run[|run| - 1], st.ring[j];
            s < N(last) && Ended(last.pc[s]) && last.pc[s].outcome.Error?
  {
    var s := st.ring[j];
    GlobalWakeupReachesAll(st, t, j);
    ReachableInv(st);
    SweptIsAwake(st, t, j);
    run := HelpedHome(st, s);
    HelpReportsError(run, s, |run| - 1);
  }

  lemma SweptIsAwake(st: State, t: Id, j: nat)
    requires Shape(st) && SweepOk(st) && t < N(st) && st.frame[t].SweepUnlock? && st.frame[t].code != 0 && j < |st.ring|
    requires st.log[st.ring[j]].steady
    ensures !Committed(st.pc[st.ring[j]]) && !st.pc[st.ring[j]].Outside?
  {
    assert SweepInv(st.frame[t], st.pc, st.ring, st.log);
    assert Swept(st.pc[st.ring[j]], st.log[st.ring[j]]);
  }
}
