/** What holds in every reachable state of the wait-sync protocol. */
module WaitSyncTheorems {
  import opened Base
  import opened WaitSyncModel
  import opened WaitSyncFlow
  import opened WaitSyncLocks
  import opened WaitSyncManager
  import opened WaitSyncCompletion
  import opened WaitSyncRelease
  import opened WaitSyncSweep

  ghost predicate Inv(st: State) {
    && Structure(st)
    && OrderOk(st)
    && ManagerOk(st.pc, st.ring, st.ringLock)
    && DataOk(st)
    && TameOk(st)
    && SweepOk(st)
  }

  lemma InitInv(st: State)
    requires Init(st)
    ensures Inv(st)
  {
    InitStructure(st);
  }

  lemma StepInv(st: State, l: Label)
    requires Inv(st) && Enabled(st, l)
    ensures Inv(Apply(st, l))
  {
    StepKeepsStructure(st, l);
    StepKeepsOrder(st, l);
    StepKeepsManager(st, l);
    StepKeepsData(st, l);
    StepKeepsTame(st, l);
    StepKeepsSweep(st, l);
  }

  lemma NextInv(st: State, st': State)
    requires Inv(st) && Next(st, st')
    ensures Inv(st')
  {
    var l :| Enabled(st, l) && st' == Apply(st, l);
    StepInv(st, l);
  }

  lemma {:induction false} RunInv(run: seq<State>, i: nat)
    requires IsRun(run) && i < |run|
    ensures Inv(run[i])
  {
    if i == 0 {
      InitInv(run[0]);
    } else {
      RunInv(run, i - 1);
      assert StepAt(run, i - 1);
      NextInv(run[i - 1], run[i]);
    }
  }

  lemma RunStructure(run: seq<State>, i: nat)
    requires IsRun(run) && i < |run|
    ensures Structure(run[i])
  {
    RunInv(run, i);
  }

  /** The invariant holds in every reachable state. */
  lemma ReachableInv(st: State)
    requires Reachable(st)
    ensures Inv(st)
  {
    var run :| EndsIn(run, st);
    EndInv(run, st);
  }

  lemma EndInv(run: seq<State>, st: State)
    requires EndsIn(run, st)
    ensures Inv(st)
  {
    RunInv(run, |run| - 1);
  }

  lemma RunReachable(run: seq<State>, i: nat)
    requires IsRun(run) && i < |run|
    ensures Reachable(run[i])
  {
    RunStructure(run, i);
    PrefixRuns(run, i);
    assert EndsIn(run[..i + 1], run[i]);
  }

  lemma PrefixRuns(run: seq<State>, i: nat)
    requires IsRun(run) && i < |run|
    ensures IsRun(run[..i + 1])
  {
    var prefix := run[..i + 1];
    forall k: nat ensures StepAt(prefix, k) {
      assert StepAt(run, k);
    }
  }

  // ---------------------------------------------------------------- deadlock freedom

  /** Whoever holds wait_sync_lock waits for nothing but the lock of a ring member;
      whoever holds a ring member's lock waits for nothing. */
  lemma LockOrder(st: State, t: Id, s: Id)
    requires Reachable(st) && t < N(st) && s < N(st)
    ensures st.ringLock == Some(t) ==>
              Wanted(st, t) == Nothing || (Wanted(st, t).SyncLock? && Wanted(st, t).s in st.ring)
    ensures s in st.ring && st.lock[s] == Some(t) ==> Wanted(st, t) == Nothing
  {
    ReachableInv(st);
    if st.ringLock == Some(t) {
      RingHolderWants(st, t);
    }
    if st.lock[s] == Some(t) {
      LockHolderWants(st, t, s);
    }
  }

  /** The thread at the end of a chain of at most k lock waits starting at t. */
  function Follow(st: State, t: Id, k: nat): Id
    requires t < N(st) && |st.frame| == N(st)
    decreases k
  {
    var owner := OwnerOf(st, Wanted(st, t));
    if k == 0 || owner.None? || owner.value >= N(st) then t else Follow(st, owner.value, k - 1)
  }

  /** A thread that holds some lock has a next action. */
  lemma OwnerActive(st: State, t: Id)
    requires Structure(st) && t < N(st)
    requires st.ringLock == Some(t) || exists s :: 0 <= s < N(st) && st.lock[s] == Some(t)
    ensures Active(st, t)
  {
    if st.ringLock == Some(t) {
      assert OwnsRing(st.pc[t]) || SweepHolds(st.frame[t]);
    } else {
      var s :| 0 <= s < N(st) && st.lock[s] == Some(t);
      assert OwnerOk(st.pc, st.frame, st.ring, st.lock, s);
    }
  }

  /** Only a waiter that is not on the ring yet asks for wait_sync_lock while holding its own lock. */
  lemma LockHolderWants(st: State, t: Id, s: Id)
    requires Structure(st) && t < N(st) && s < N(st) && st.lock[s] == Some(t)
    ensures Wanted(st, t) == Nothing || (Wanted(st, t) == RingLock && s !in st.ring)
  {
    assert OwnerOk(st.pc, st.frame, st.ring, st.lock, s);
    assert !st.frame[t].Idle? ==> FreePc(st.pc[t]);
    assert s in st.ring ==> OnRing(st.pc[s]);
  }

  lemma RingHolderWants(st: State, t: Id)
    requires Structure(st) && st.ringLock == Some(t)
    ensures t < N(st)
    ensures Wanted(st, t) == Nothing || (Wanted(st, t).SyncLock? && Wanted(st, t).s in st.ring && Wanted(st, t).s < N(st))
  {
    assert OwnsRing(st.pc[t]) || SweepHolds(st.frame[t]);
    assert !st.frame[t].Idle? ==> FreePc(st.pc[t]);
    assert FrameInRange(st.pc, st.ring, st.frame[t]);
  }

  /** Following a wait for a sync's lock leads to a thread that can run, in k + 1 hops when the ring lock needs k. */
  lemma ChainFromRing(st: State, t: Id)
    requires Structure(st) && st.ringLock == Some(t)
    ensures t < N(st) && CanRun(st, Follow(st, t, 1))
  {
    RingHolderWants(st, t);
    OwnerActive(st, t);
    var w := Wanted(st, t);
    if OwnerOf(st, w).Some? {
      var o := st.lock[w.s].value;
      assert OwnerOk(st.pc, st.frame, st.ring, st.lock, w.s);
      LockHolderWants(st, o, w.s);
      OwnerActive(st, o);
      assert Follow(st, t, 1) == Follow(st, o, 0) == o;
    }
  }

  lemma ChainFromSync(st: State, t: Id, s: Id)
    requires Structure(st) && t < N(st) && s < N(st) && st.lock[s] == Some(t)
    ensures CanRun(st, Follow(st, t, 2))
  {
    OwnerActive(st, t);
    LockHolderWants(st, t, s);
    var o := OwnerOf(st, Wanted(st, t));
    if o.Some? {
      ChainFromRing(st, o.value);
      assert Follow(st, t, 2) == Follow(st, o.value, 1);
    }
  }

  lemma ChainEnds(st: State, t: Id)
    requires Structure(st) && Active(st, t)
    ensures CanRun(st, Follow(st, t, 3))
  {
    var w := Wanted(st, t);
    var o := OwnerOf(st, w);
    if o.Some? {
      assert w.SyncLock? ==> w.s < N(st);
      if w.RingLock? {
        ChainFromRing(st, o.value);
        FollowMore(st, o.value, 1, 2);
      } else {
        assert OwnerOk(st.pc, st.frame, st.ring, st.lock, w.s);
        ChainFromSync(st, o.value, w.s);
      }
      assert Follow(st, t, 3) == Follow(st, o.value, 2);
    }
  }

  /** Deadlock freedom: from every thread that has something to do, a chain of at most three lock
      waits ends at a thread that can run. */
  lemma DeadlockFree(st: State, t: Id)
    requires Reachable(st) && Active(st, t)
    ensures CanRun(st, Follow(st, t, 3))
  {
    ReachableInv(st);
    ChainEnds(st, t);
  }

  /** A chain that has reached a runnable thread goes no further. */
  lemma {:induction false} FollowMore(st: State, t: Id, k: nat, m: nat)
    requires t < N(st) && |st.frame| == N(st) && k <= m && CanRun(st, Follow(st, t, k))
    ensures Follow(st, t, m) == Follow(st, t, k)
    decreases k
  {
    var owner := OwnerOf(st, Wanted(st, t));
    if k > 0 && owner.Some? && owner.value < N(st) {
      FollowMore(st, owner.value, k - 1, m - 1);
    }
  }

  // ---------------------------------------------------------------- progress manager, order, completion

  /** The ring is exactly the linked and not yet unlinked syncs in order of linking, each once;
      its members are exactly those whose waiter is between linking and unlinking. */
  lemma RingIsFifo(st: State)
    requires Reachable(st)
    ensures st.ring == Remaining(st.arrivals, st.gone) && Distinct(st.ring)
    ensures forall s :: 0 <= s < N(st) ==> (s in st.ring <==> OnRing(st.pc[s]))
  {
    ReachableInv(st);
    forall s | 0 <= s < N(st) ensures s in st.ring <==> OnRing(st.pc[s]) {
      if s in st.ring { assert OnRing(st.pc[s]); }
    }
  }

  /** The pointer operations on the ring are called as they require: what is linked is not on the ring,
      what is unlinked is. */
  lemma RingCallsAreLegal(st: State, t: Id)
    requires Reachable(st) && t < N(st)
    ensures st.pc[t].Link? ==> t !in st.ring
    ensures st.pc[t].Unlink? ==> t in st.ring
  {
    RingIsFifo(st);
  }

  /** The head's waiter sleeps only while another thread holds wait_sync_lock and is about to signal it. */
  lemma ManagerNotStranded(st: State)
    requires Reachable(st) && st.ring != [] && st.pc[st.ring[0]].Asleep?
    ensures st.ringLock.Some? && st.ringLock.value < N(st) && st.ringLock.value != st.ring[0]
    ensures AboutToPass(st.pc[st.ringLock.value])
  {
    ReachableInv(st);
  }

  /** A waiter asleep with a completed count has a signal coming, unless an update leapt over 0. */
  lemma NoLostCompletion(st: State, s: Id)
    requires Reachable(st) && s < N(st) && st.pc[s].Asleep? && st.count[s] <= 0 && !st.log[s].leapt
    ensures exists a :: 0 <= a < N(st) && WillSignal(st.frame[a], s)
  {
    ReachableInv(st);
    assert NotLost(st.pc[s], st.frame, st.count[s], st.log[s], s);
  }

  /** The limit of the previous lemma, exactly: a success update applied to a sleeper with a positive
      count and no signal under way leaves it complete and unsignalled iff the update exceeds the count. */
  lemma OvershootLosesCompletion(st: State, t: Id)
    requires Reachable(st) && CanRun(st, t) && st.frame[t].Add?
    requires var s := st.frame[t].target; st.pc[s].Asleep? && st.count[s] > 0 && !Pending(st.frame, s)
    ensures var s, st' := st.frame[t].target, Apply(st, Run(t));
            (st'.pc[s].Asleep? && st'.count[s] <= 0 && !Pending(st'.frame, s)) <==> st.frame[t].amount > st.count[s]
  {
    var s, st' := st.frame[t].target, Apply(st, Run(t));
    assert forall a :: 0 <= a < N(st) && a != t ==> !WillSignal(st'.frame[a], s);
    assert st'.count[s] == 0 <==> WillSignal(st'.frame[t], s);
  }

  // ---------------------------------------------------------------- returned outcomes

  /** With regular updates a wait that returned success had successful updates totalling exactly the
      initial count; with non-negative ones a wait whose count an error update brought down returned an error. */
  lemma OutcomeIsJustified(st: State, s: Id)
    requires Reachable(st) && s < N(st) && Ended(st.pc[s])
    ensures st.log[s].regular && st.log[s].init >= 0 && st.pc[s].outcome.Success? ==> st.log[s].applied == st.log[s].init
    ensures st.log[s].steady && st.log[s].failed ==> st.pc[s].outcome.Error?
  {
    ReachableInv(st);
    assert Verdict(st.pc[s], st.count[s], st.log[s]);
  }

  /** A sync whose waiter has not returned and which an error update has zeroed. */
  ghost predicate Doomed(st: State, s: Id) {
    && s < N(st) && |st.log| == N(st)
    && !st.pc[s].Outside? && st.log[s].erred && (Ended(st.pc[s]) ==> st.pc[s].outcome.Error?)
  }

  lemma DoomedStep(st: State, l: Label, s: Id)
    requires Shape(st) && Enabled(st, l) && Doomed(st, s) && st.status[s] != 0
    ensures Doomed(Apply(st, l), s)
  {
    if l.Run? && st.frame[l.t].Idle? {
      WaitFlow(st, l.t);
      DoomedFlow(st.pc[l.t], RunWait(st, l.t).pc[l.t], st.count[l.t], st.status[l.t]);
    } else if l.Run? {
      FrameFlow(st, l.t);
      FrameKeepsErred(st, l.t, s);
    }
  }

  lemma DoomedFlow(p: Pc, q: Pc, count: int, status: int)
    requires Flow(p, q, count, status)
    ensures !q.Outside? && !Ended(p) && (Ended(q) ==> q.outcome == OutcomeOf(status))
  {}

  lemma FrameKeepsErred(st: State, t: Id, s: Id)
    requires Shape(st) && t < N(st) && s < N(st) && st.log[s].erred
    ensures |RunFrame(st, t).log| == N(st) && RunFrame(st, t).log[s].erred
  {}

  lemma DoomedNext(st: State, st': State, s: Id)
    requires Structure(st) && DataOk(st) && Next(st, st') && Doomed(st, s)
    ensures Doomed(st', s)
  {
    assert Ledger(st.count[s], st.status[s], st.log[s]);
    var l :| Enabled(st, l) && st' == Apply(st, l);
    DoomedStep(st, l, s);
  }

  /** Once an error update has zeroed a sync, its wait, if it has not returned yet, can only return an error. */
  lemma {:induction false} ErrorIsReported(run: seq<State>, i: nat, j: nat, s: Id)
    requires IsRun(run) && i <= j < |run| && Doomed(run[i], s)
    ensures Doomed(run[j], s)
    decreases j
  {
    if i < j {
      ErrorIsReported(run, i, j - 1, s);
      DoomedAt(run, j - 1, s);
    }
  }

  lemma DoomedAt(run: seq<State>, j: nat, s: Id)
    requires IsRun(run) && j + 1 < |run| && Doomed(run[j], s)
    ensures Doomed(run[j + 1], s)
  {
    RunInv(run, j);
    assert StepAt(run, j);
    DoomedNext(run[j], run[j + 1], s);
  }

  /** When a global wakeup with an error is about to release wait_sync_lock, every ring member has been
      failed, is complete, has no unsignalled sleeper, and will return an error. */
  lemma GlobalWakeupReachesAll(st: State, t: Id, j: nat)
    requires Reachable(st) && t < N(st) && st.frame[t].SweepUnlock? && st.frame[t].code != 0 && j < |st.ring|
    ensures var s := st.ring[j];
            && st.status[s] != 0 && Doomed(st, s)
            && (st.log[s].steady ==> st.count[s] <= 0 && !st.pc[s].Asleep?)
  {
    ReachableInv(st);
    SweptMember(st, t, j);
  }

  lemma SweptMember(st: State, t: Id, j: nat)
    requires Shape(st) && RingOk(st.pc, st.ring) && LedgerOk(st.pc, st.count, st.status, st.log) && SweepOk(st)
    requires t < N(st) && st.frame[t].SweepUnlock? && st.frame[t].code != 0 && j < |st.ring|
    ensures var s := st.ring[j];
            && st.status[s] != 0 && Doomed(st, s)
            && (st.log[s].steady ==> st.count[s] <= 0 && !st.pc[s].Asleep?)
  {
    var s := st.ring[j];
    assert SweepInv(st.frame[t], st.pc, st.ring, st.log);
    assert Swept(st.pc[s], st.log[s]);
    assert OnRing(st.pc[s]);
    assert Ledger(st.count[s], st.status[s], st.log[s]);
  }

  /** A global wakeup with status 0 that is not signalling. */
  predicate SuccessSweep(f: Frame) {
    || ((f.SweepLock? || f.SweepHead? || f.SweepNext? || f.SweepUnlock?) && f.code == 0)
    || (f.Add? && f.from.Sweep? && f.from.code == 0 && f.amount == 0)
  }

  /** The wakeup's update is about to find its target's count at 0. */
  predicate AtZero(st: State, t: Id) {
    t < |st.frame| && st.frame[t].Add? && st.frame[t].target < |st.count| && st.count[st.frame[t].target] == 0
  }

  /** Everything but frames, history and the owner of wait_sync_lock is as before. */
  predicate SameFields(st: State, st': State) {
    && st'.pc == st.pc && st'.count == st.count && st'.status == st.status && st'.signaling == st.signaling
    && st'.lock == st.lock && st'.ring == st.ring && st'.busy == st.busy
  }

  /** One action of a success wakeup changes no field, and leads to signalling iff it finds a count at 0. */
  lemma SuccessSweepStep(st: State, t: Id)
    requires Shape(st) && CanRun(st, t) && SuccessSweep(st.frame[t])
    ensures var st' := Apply(st, Run(t));
            && SameFields(st, st') && |st'.frame| == N(st) && st'.frame[t] != st.frame[t]
            && (if AtZero(st, t) then WillSignal(st'.frame[t], st.frame[t].target)
                else SuccessSweep(st'.frame[t]) || st'.frame[t].Idle?)
  {
    var f := st.frame[t];
    if f.Add? {
      assert st.count[f.target := st.count[f.target] - 0] == st.count;
    }
  }

  /** Nobody but t moves t's open frame. */
  lemma FrameMovesAlone(st: State, st': State, t: Id)
    requires Next(st, st') && t < N(st) && !st.frame[t].Idle?
    ensures |st'.frame| == N(st') == N(st)
    ensures st'.frame[t] == st.frame[t] || (CanRun(st, t) && st' == Apply(st, Run(t)))
  {
    var l :| Enabled(st, l) && st' == Apply(st, l);
    if l.Run? && st.frame[l.t].Idle? {
      WaitFlow(st, l.t);
    } else if l.Run? {
      FrameFlow(st, l.t);
    }
  }

  /** Step k is the update of t's wakeup on a member whose count is 0. */
  ghost predicate VisitsZero(run: seq<State>, k: nat, t: Id) {
    k + 1 < |run| && t < |run[k + 1].frame| && AtZero(run[k], t) && run[k + 1].frame[t] != run[k].frame[t]
  }

  /** t's global wakeup with status 0 starts at i and is still open before j. */
  ghost predicate SuccessWakeup(run: seq<State>, i: nat, j: nat, t: Id) {
    && IsRun(run) && i <= j < |run| && t < |run[i].frame| == N(run[i]) && run[i].frame[t] == SweepLock(0)
    && forall k {:trigger run[k]} :: i <= k < j ==> t < |run[k].frame| && !run[k].frame[t].Idle?
  }

  /** A whole global wakeup with status 0, among whatever other threads do meanwhile: as long as none of its
      updates met a count of 0, it is not signalling anybody, and its next action changes no field of any
      sync, wakes nobody, and leaves ring and counter alone. */
  lemma SuccessWakeupIsNoOp(run: seq<State>, i: nat, j: nat, t: Id)
    requires SuccessWakeup(run, i, j, t) && forall k: nat :: i <= k < j ==> !VisitsZero(run, k, t)
    ensures Shape(run[j]) && t < N(run[j])
    ensures SuccessSweep(run[j].frame[t]) || run[j].frame[t].Idle?
    ensures CanRun(run[j], t) && !run[j].frame[t].Idle? ==> SameFields(run[j], Apply(run[j], Run(t)))
  {
    SuccessGoesOn(run, i, j, t);
    RunStructure(run, j);
    if CanRun(run[j], t) && !run[j].frame[t].Idle? {
      SuccessSweepStep(run[j], t);
    }
  }

  lemma {:induction false} SuccessGoesOn(run: seq<State>, i: nat, j: nat, t: Id)
    requires SuccessWakeup(run, i, j, t) && forall k: nat :: i <= k < j ==> !VisitsZero(run, k, t)
    ensures t < |run[j].frame| == N(run[j]) && (SuccessSweep(run[j].frame[t]) || run[j].frame[t].Idle?)
    decreases j
  {
    if i < j {
      SuccessGoesOn(run, i, j - 1, t);
      assert !VisitsZero(run, j - 1, t);
      SuccessAt(run, j - 1, t);
    }
  }

  lemma SuccessAt(run: seq<State>, k: nat, t: Id)
    requires IsRun(run) && k + 1 < |run| && t < |run[k].frame| == N(run[k]) && SuccessSweep(run[k].frame[t])
    ensures t < |run[k + 1].frame| == N(run[k + 1])
    ensures SuccessSweep(run[k + 1].frame[t]) || run[k + 1].frame[t].Idle? || VisitsZero(run, k, t)
  {
    RunStructure(run, k);
    assert StepAt(run, k);
    SuccessSweepNext(run[k], run[k + 1], t);
  }

  lemma SuccessSweepNext(st: State, st': State, t: Id)
    requires Shape(st) && Next(st, st') && t < N(st) && SuccessSweep(st.frame[t])
    ensures |st'.frame| == N(st') == N(st)
    ensures || st'.frame[t] == st.frame[t]
            || (if AtZero(st, t) then WillSignal(st'.frame[t], st.frame[t].target)
                else SuccessSweep(st'.frame[t]) || st'.frame[t].Idle?)
  {
    FrameMovesAlone(st, st', t);
    if st'.frame[t] != st.frame[t] {
      SuccessSweepStep(st, t);
    }
  }

  /** The exception is exact: the first update of the wakeup that meets a count of 0 goes on to signal. */
  lemma ZeroVisitSignals(run: seq<State>, i: nat, j: nat, t: Id)
    requires SuccessWakeup(run, i, j, t) && (forall k: nat :: i <= k < j ==> !VisitsZero(run, k, t)) && VisitsZero(run, j, t)
    ensures WillSignal(run[j + 1].frame[t], run[j].frame[t].target)
  {
    SuccessWakeupIsNoOp(run, i, j, t);
    assert StepAt(run, j);
    SuccessSweepNext(run[j], run[j + 1], t);
  }

  /** A thread on the signal path of sync s stays there until it clears the mark. */
  lemma SignallerStep(st: State, st': State, t: Id, s: Id)
    requires Structure(st) && Next(st, st') && t < N(st) && Signalling(st.frame[t]) && st.frame[t].target == s
    ensures |st'.frame| == |st'.signaling| == N(st') == N(st)
    ensures if On(st'.frame[t], s) then Signalling(st'.frame[t]) && st'.frame[t].from == st.frame[t].from
            else !st'.signaling[s] && st'.frame[t] == Resume(st.frame[t].from)
  {
    FrameMovesAlone(st, st', t);
    NextShape(st, st');
    if st'.frame[t] != st.frame[t] {
      SignallerMoves(st, t);
    }
  }

  lemma NextShape(st: State, st': State)
    requires Structure(st) && Next(st, st')
    ensures Shape(st')
  {
    var l :| Enabled(st, l) && st' == Apply(st, l);
    StepKeepsStructure(st, l);
  }

  lemma SignallerMoves(st: State, t: Id)
    requires Shape(st) && CanRun(st, t) && Signalling(st.frame[t])
    ensures var st', s := Apply(st, Run(t)), st.frame[t].target;
            && |st'.frame| == |st'.signaling| == N(st)
            && (if On(st'.frame[t], s) then Signalling(st'.frame[t]) && st'.frame[t].from == st.frame[t].from
                else !st'.signaling[s] && st'.frame[t] == Resume(st.frame[t].from))
  {}

  /** Step k of the run ends t's call on sync s. */
  ghost predicate Leaves(run: seq<State>, k: nat, t: Id, s: Id) {
    && k + 1 < |run| && t < |run[k].frame| && t < |run[k + 1].frame|
    && On(run[k].frame[t], s) && !On(run[k + 1].frame[t], s)
  }

  lemma SignallerAt(run: seq<State>, j: nat, t: Id, s: Id)
    requires IsRun(run) && j + 1 < |run| && t < |run[j].frame| == N(run[j]) && Signalling(run[j].frame[t]) && run[j].frame[t].target == s
    ensures t < |run[j + 1].frame| == N(run[j + 1]) && s < |run[j + 1].signaling|
    ensures if On(run[j + 1].frame[t], s) then Signalling(run[j + 1].frame[t]) && run[j + 1].frame[t].from == run[j].frame[t].from
            else !run[j + 1].signaling[s] && run[j + 1].frame[t] == Resume(run[j].frame[t].from)
  {
    RunStructure(run, j);
    assert StepAt(run, j);
    SignallerStep(run[j], run[j + 1], t, s);
  }

  /** Until it leaves, the thread stays on the signal path of the same call. */
  lemma {:induction false} SignallerStays(run: seq<State>, i: nat, j: nat, t: Id, s: Id)
    requires IsRun(run) && i <= j < |run| && t < |run[i].frame| == N(run[i]) && Signalling(run[i].frame[t]) && run[i].frame[t].target == s
    requires forall k: nat :: i <= k < j ==> !Leaves(run, k, t, s)
    ensures t < |run[j].frame| == N(run[j]) && Signalling(run[j].frame[t]) && run[j].frame[t].target == s
    ensures run[j].frame[t].from == run[i].frame[t].from
    decreases j
  {
    if i < j {
      SignallerStays(run, i, j - 1, t, s);
      SignallerAt(run, j - 1, t, s);
      assert !Leaves(run, j - 1, t, s);
    }
  }

  /** What an update that went on to signal does to the sync, a visit that met a count of 0 for instance: when
      the thread leaves the sync, whatever happened in between, the mark has just been cleared, and a
      traversal goes on. */
  lemma SignallerClears(run: seq<State>, i: nat, j: nat, t: Id, s: Id)
    requires IsRun(run) && i <= j && j + 1 < |run| && t < |run[i].frame| == N(run[i])
    requires Signalling(run[i].frame[t]) && run[i].frame[t].target == s
    requires (forall k: nat :: i <= k < j ==> !Leaves(run, k, t, s)) && Leaves(run, j, t, s)
    ensures s < |run[j + 1].signaling| && !run[j + 1].signaling[s] && run[j + 1].frame[t] == Resume(run[i].frame[t].from)
  {
    SignallerStays(run, i, j, t, s);
    SignallerAt(run, j, t, s);
  }

  // ---------------------------------------------------------------- safe release

  function Members(ring: seq<Id>): set<Id> { set i | 0 <= i < |ring| :: ring[i] }

  /** The syncs whose fields thread t's next action may access. */
  function Touches(st: State, t: Id): set<Id>
    requires t < N(st) && |st.frame| == N(st)
  {
    var f := st.frame[t];
    if HasTarget(f) then {f.target}
    else if f.SweepHead? || f.SweepNext? then Members(st.ring)
    else if !f.Idle? then {}
    else if st.pc[t].Outside? || st.pc[t].Released? then {}
    else if OwnsRing(st.pc[t]) then {t} + Members(st.ring)
    else {t}
  }

  predicate SameSize(st: State, st': State) {
    && |st'.count| == |st.count| && |st'.status| == |st.status| && |st'.signaling| == |st.signaling|
    && |st'.lock| == |st.lock| && |st'.pc| == |st.pc|
  }

  /** Nothing of sync x has changed. */
  predicate SameSync(st: State, st': State, x: Id)
    requires x < |st.count| == |st.status| == |st.signaling| == |st.lock|
  {
    && SameSize(st, st')
    && st'.count[x] == st.count[x] && st'.status[x] == st.status[x]
    && st'.signaling[x] == st.signaling[x] && st'.lock[x] == st.lock[x]
  }

  /** `Touches` is sound: an action changes nothing of a sync outside it and wakes nobody outside it. */
  lemma TouchesSound(st: State, t: Id, x: Id)
    requires Shape(st) && CanRun(st, t) && x < N(st) && x !in Touches(st, t)
    ensures SameSync(st, Apply(st, Run(t)), x) && (x != t ==> Apply(st, Run(t)).pc[x] == st.pc[x])
  {
    if !st.frame[t].Idle? {
      FrameTouchesSound(st, t, x);
    } else if PassesOn(st.pc[t]) {
      PassTouchesSound(st, t, x);
    } else {
      OwnTouchesSound(st, t, x);
    }
  }

  lemma FrameTouchesSound(st: State, t: Id, x: Id)
    requires Shape(st) && CanRun(st, t) && x < N(st) && x !in Touches(st, t) && !st.frame[t].Idle?
    ensures SameSync(st, RunFrame(st, t), x) && RunFrame(st, t).pc[x] == st.pc[x]
  {
    if HasTarget(st.frame[t]) {
      assert st.frame[t].target != x;
    } else {
      var st' := RunFrame(st, t);
      assert st'.count == st.count && st'.pc == st.pc && st'.lock == st.lock;
    }
  }

  lemma PassTouchesSound(st: State, t: Id, x: Id)
    requires Shape(st) && t < N(st) && x < N(st) && x !in Members(st.ring) && PassesOn(st.pc[t])
    ensures SameSync(st, RunWait(st, t), x) && (x != t ==> RunWait(st, t).pc[x] == st.pc[x])
  {
    if st.ring != [] {
      assert st.ring[0] in Members(st.ring);
    }
  }

  lemma OwnTouchesSound(st: State, t: Id, x: Id)
    requires Shape(st) && t < N(st) && x < N(st) && !PassesOn(st.pc[t])
    requires x != t || st.pc[t].Outside? || st.pc[t].Released?
    ensures SameSync(st, RunWait(st, t), x) && (x != t ==> RunWait(st, t).pc[x] == st.pc[x])
  {
    if !MovesOwnLock(st.pc[t]) {
      StillKeeps(st, t);
    }
  }

  /** The state with the fields of sync x replaced by arbitrary values. */
  function Scramble(st: State, x: Id, c: int, e: int, g: bool, o: Option<Id>): State
    requires x < |st.count| == |st.status| == |st.signaling| == |st.lock|
  {
    st.(count := st.count[x := c], status := st.status[x := e], signaling := st.signaling[x := g], lock := st.lock[x := o])
  }

  lemma Commute<T>(s: seq<T>, i: nat, a: T, j: nat, b: T)
    requires i < |s| && j < |s| && i != j
    ensures s[i := a][j := b] == s[j := b][i := a]
  {}

  /** `Touches` covers reads too: an action neither needs nor uses any field of a sync outside it. */
  lemma TouchesBlind(st: State, t: Id, x: Id, c: int, e: int, g: bool, o: Option<Id>)
    requires Shape(st) && CanRun(st, t) && x < N(st) && x !in Touches(st, t)
    ensures var mixed := Scramble(st, x, c, e, g, o);
            && CanRun(mixed, t) && SameSize(st, Apply(st, Run(t)))
            && Apply(mixed, Run(t)) == Scramble(Apply(st, Run(t)), x, c, e, g, o)
  {
    if !st.frame[t].Idle? {
      FrameBlind(st, t, x, c, e, g, o);
    } else {
      WaitBlind(st, t, x, c, e, g, o);
    }
  }

  lemma FrameBlind(st: State, t: Id, x: Id, c: int, e: int, g: bool, o: Option<Id>)
    requires Shape(st) && CanRun(st, t) && x < N(st) && x !in Touches(st, t) && !st.frame[t].Idle?
    ensures SameSize(st, RunFrame(st, t))
    ensures RunFrame(Scramble(st, x, c, e, g, o), t) == Scramble(RunFrame(st, t), x, c, e, g, o)
  {
    if HasTarget(st.frame[t]) {
      TargetBlind(st, t, x, c, e, g, o);
    }
  }

  lemma TargetBlind(st: State, t: Id, x: Id, c: int, e: int, g: bool, o: Option<Id>)
    requires Shape(st) && t < N(st) && x < N(st) && HasTarget(st.frame[t]) && x != st.frame[t].target
    ensures SameSize(st, RunFrame(st, t))
    ensures RunFrame(Scramble(st, x, c, e, g, o), t) == Scramble(RunFrame(st, t), x, c, e, g, o)
  {
    var st' := RunFrame(st, t);
    match st.frame[t] {
      case Add(s, _, _) => Commute(st.count, x, c, s, st'.count[s]);
      case SetStatus(s, _, _) => Commute(st.status, x, e, s, st'.status[s]);
      case Swap(s, _) => Commute(st.count, x, c, s, st'.count[s]);
      case SignalLock(s, _) => Commute(st.lock, x, o, s, st'.lock[s]);
      case SignalCond(_, _) =>
      case SignalUnlock(s, _) => Commute(st.lock, x, o, s, st'.lock[s]);
      case ClearSignaling(s, _) => Commute(st.signaling, x, g, s, st'.signaling[s]);
    }
  }

  lemma WaitBlind(st: State, t: Id, x: Id, c: int, e: int, g: bool, o: Option<Id>)
    requires Shape(st) && CanRun(st, t) && x < N(st) && x !in Touches(st, t) && st.frame[t].Idle?
    ensures SameSize(st, RunWait(st, t))
    ensures RunWait(Scramble(st, x, c, e, g, o), t) == Scramble(RunWait(st, t), x, c, e, g, o)
  {
    if PassesOn(st.pc[t]) {
      PassBlind(st, t, x, c, e, g, o);
    } else {
      OwnBlind(st, t, x, c, e, g, o);
    }
  }

  predicate PassesOn(p: Pc) { p.PassLock? || p.PassSignal? || p.PassUnlock? }

  lemma PassBlind(st: State, t: Id, x: Id, c: int, e: int, g: bool, o: Option<Id>)
    requires Shape(st) && t < N(st) && x < N(st) && x !in Members(st.ring) && PassesOn(st.pc[t])
    ensures SameSize(st, RunWait(st, t))
    ensures RunWait(Scramble(st, x, c, e, g, o), t) == Scramble(RunWait(st, t), x, c, e, g, o)
  {
    if st.ring != [] {
      assert st.ring[0] in Members(st.ring);
      Commute(st.lock, x, o, st.ring[0], RunWait(st, t).lock[st.ring[0]]);
    }
  }

  lemma OwnBlind(st: State, t: Id, x: Id, c: int, e: int, g: bool, o: Option<Id>)
    requires Shape(st) && t < N(st) && x < N(st) && x != t && !PassesOn(st.pc[t])
    ensures SameSize(st, RunWait(st, t))
    ensures RunWait(Scramble(st, x, c, e, g, o), t) == Scramble(RunWait(st, t), x, c, e, g, o)
  {
    if MovesOwnLock(st.pc[t]) {
      Commute(st.lock, x, o, t, RunWait(st, t).lock[t]);
    } else {
      StillBlind(st, t, x, c, e, g, o);
    }
  }

  predicate MovesOwnLock(p: Pc) {
    p.AcquireOwn? || p.Waking? || p.BailOut? || p.EnterSleep? || p.LeaveLocked? || p.ReleaseOwn?
  }

  lemma StillBlind(st: State, t: Id, x: Id, c: int, e: int, g: bool, o: Option<Id>)
    requires Shape(st) && t < N(st) && x < N(st) && x != t && !PassesOn(st.pc[t]) && !MovesOwnLock(st.pc[t])
    ensures SameSize(st, RunWait(st, t))
    ensures RunWait(Scramble(st, x, c, e, g, o), t) == Scramble(RunWait(st, t), x, c, e, g, o)
  {
    var mixed := Scramble(st, x, c, e, g, o);
    StillKeeps(st, t);
    StillReads(st, t, mixed.count, mixed.status, mixed.signaling, mixed.lock);
  }

  lemma StillKeeps(st: State, t: Id)
    requires Shape(st) && t < N(st) && !PassesOn(st.pc[t]) && !MovesOwnLock(st.pc[t])
    ensures var st' := RunWait(st, t);
            && st'.count == st.count && st'.status == st.status && st'.signaling == st.signaling && st'.lock == st.lock
            && st'.pc == st.pc[t := st'.pc[t]]
  {
    match st.pc[t] {
      case Outside | Asleep | Returned(_) | Released(_) =>
      case FastCheck | RecheckLocked | ReadHead | ReadBusy | CheckDone | LoopTest | Progress | ReadStatus =>
      case AcquireRing | Link | ReleaseRing | CountIn | CountOut | AcquireTrim | Unlink | ReleaseTrim =>
    }
  }

  function WithData(st: State, count: seq<int>, status: seq<int>, signaling: seq<bool>, lock: seq<Option<Id>>): State {
    st.(count := count, status := status, signaling := signaling, lock := lock)
  }

  /** A step that moves no sync's lock reads only its own sync's count and status. */
  lemma StillReads(st: State, t: Id, count: seq<int>, status: seq<int>, signaling: seq<bool>, lock: seq<Option<Id>>)
    requires Shape(st) && t < N(st) && !PassesOn(st.pc[t]) && !MovesOwnLock(st.pc[t])
    requires |count| == |status| == |signaling| == |lock| == N(st) && count[t] == st.count[t] && status[t] == st.status[t]
    ensures RunWait(WithData(st, count, status, signaling, lock), t) == WithData(RunWait(st, t), count, status, signaling, lock)
  {
    match st.pc[t] {
      case Outside | Asleep | Returned(_) | Released(_) =>
      case FastCheck | RecheckLocked | ReadHead | ReadBusy | CheckDone | LoopTest | Progress | ReadStatus =>
      case AcquireRing | Link | ReleaseRing | CountIn | CountOut | AcquireTrim | Unlink | ReleaseTrim =>
    }
  }

  lemma NoFrameOnReleased(st: State, s: Id, t: Id)
    requires Shape(st) && TameOk(st) && s < N(st) && t < N(st) && st.pc[s].Released? && st.log[s].tame
    ensures !On(st.frame[t], s)
  {
    assert Tame(st.pc[s], st.frame, st.count[s], st.signaling[s], st.log[s], s);
    OutstandingAtLeast(st.frame, t, s);
    assert TameFrame(st.frame[t], s);
    assert SignalsOn(st.frame[t], s) ==> Signallers(st.frame, s);
  }

  lemma ReleasedNext(st: State, st': State, s: Id)
    requires Next(st, st') && s < N(st) && st.pc[s].Released?
    ensures s < N(st') && st'.pc[s].Released?
  {
    var l :| Enabled(st, l) && st' == Apply(st, l);
    if l.Run? && st.frame[l.t].Idle? {
      WaitFlow(st, l.t);
    } else if l.Run? {
      FrameFlow(st, l.t);
    }
  }

  lemma {:induction false} StaysReleased(run: seq<State>, i: nat, j: nat, s: Id)
    requires IsRun(run) && i <= j < |run| && s < N(run[i]) && run[i].pc[s].Released?
    ensures s < N(run[j]) && run[j].pc[s].Released?
    decreases j
  {
    if i < j {
      StaysReleased(run, i, j - 1, s);
      assert StepAt(run, j - 1);
      ReleasedNext(run[j - 1], run[j], s);
    }
  }

  /** Within budget exactly the update that brings the count to 0 signals, and at most one thread is signalling. */
  lemma ExactlyOneSignal(st: State, s: Id)
    requires Reachable(st) && s < N(st) && !st.pc[s].Outside? && st.log[s].tame
    ensures st.log[s].init > 0 ==> 0 <= st.count[s] <= st.log[s].init
    ensures st.log[s].init > 0 ==> st.log[s].signals == (if st.count[s] == 0 then 1 else 0)
    ensures AtMostOneSignaller(st.frame, s)
  {
    ReachableInv(st);
    assert Tame(st.pc[s], st.frame, st.count[s], st.signaling[s], st.log[s], s);
    SumNonNegativeOn(st.frame, s);
  }

  lemma SumNonNegativeOn(frame: seq<Frame>, s: Id)
    requires TameFrames(frame, s)
    ensures Outstanding(frame, s) >= 0
  {
    SumNonNegative(frame, AmountOn(s));
  }

  /** The spin loop of WAIT_SYNC_RELEASE, within budget: a returned wait can be released iff no signaller
      is left and its initial count was not negative. */
  lemma ReleaseEnabledIff(st: State, s: Id)
    requires Reachable(st) && s < N(st) && st.pc[s].Returned? && st.frame[s].Idle? && st.log[s].tame
    ensures Enabled(st, Release(s)) <==> st.log[s].init >= 0 && !Signallers(st.frame, s)
  {
    ReachableInv(st);
    TameReturned(st, s);
  }

  lemma TameReturned(st: State, s: Id)
    requires Shape(st) && DataOk(st) && TameOk(st) && s < N(st) && st.pc[s].Returned? && st.frame[s].Idle? && st.log[s].tame
    ensures Enabled(st, Release(s)) <==> st.log[s].init >= 0 && !Signallers(st.frame, s)
  {
    assert Ledger(st.count[s], st.status[s], st.log[s]);
    assert Tame(st.pc[s], st.frame, st.count[s], st.signaling[s], st.log[s], s);
    assert Verdict(st.pc[s], st.count[s], st.log[s]);
    SumNonNegativeOn(st.frame, s);
  }
}
