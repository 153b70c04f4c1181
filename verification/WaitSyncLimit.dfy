/** What max_thread_in_progress limits: with room for everybody nobody sleeps, with room for nobody only the
    ring head progresses, and in between the counter may exceed the limit. */
module WaitSyncLimit {
  import opened Base
  import opened WaitSyncModel
  import opened WaitSyncFlow
  import opened WaitSyncLocks
  import opened WaitSyncTheorems
  import opened WaitSyncWitness

  lemma LimitIsFixed(st: State, l: Label)
    requires Shape(st) && Enabled(st, l)
    ensures Apply(st, l).limit == st.limit && N(Apply(st, l)) == N(st)
  {
    if l.Run? && st.frame[l.t].Idle? {
      WaitFlow(st, l.t);
    } else if l.Run? {
      FrameFlow(st, l.t);
    }
  }

  /** A thread outside its progress loop is not counted, so the counter is below the number of threads. */
  lemma {:induction false} BusyBounds(pc: seq<Pc>, t: Id)
    requires t < |pc| && !Counted(pc[t])
    ensures 0 <= Sum(pc, InProgress) < |pc|
  {
    SumNonNegative(pc, InProgress);
    AtMostAll(pc[..t]);
    AtMostAll(pc[t + 1..]);
    SumSplit(pc, t);
  }

  lemma {:induction false} AtMostAll(pc: seq<Pc>)
    ensures Sum(pc, InProgress) <= |pc|
  {
    if pc != [] {
      AtMostAll(pc[1..]);
    }
  }

  lemma {:induction false} SumSplit(pc: seq<Pc>, t: nat)
    requires t < |pc|
    ensures Sum(pc, InProgress) == Sum(pc[..t], InProgress) + InProgress(pc[t]) + Sum(pc[t + 1..], InProgress)
  {
    if t > 0 {
      SumSplit(pc[1..], t - 1);
      assert pc[1..][..t - 1] == pc[..t][1..];
      assert pc[1..][t..] == pc[t + 1..];
    }
  }

  // ---------------------------------------------------------------- room for everybody

  predicate SleepPath(p: Pc) { p.EnterSleep? || p.Asleep? || p.Waking? || p.CheckDone? || p.LeaveLocked? }

  ghost predicate NobodySleeps(pc: seq<Pc>) { forall t :: 0 <= t < |pc| ==> !SleepPath(pc[t]) }

  lemma StepKeepsAwake(st: State, l: Label)
    requires Structure(st) && Enabled(st, l) && st.limit >= N(st) && NobodySleeps(st.pc)
    ensures NobodySleeps(Apply(st, l).pc)
  {
    if l.Run? && st.frame[l.t].Idle? {
      WaitFlow(st, l.t);
      WaitStaysAwake(st, l.t);
    } else if l.Run? {
      FrameFlow(st, l.t);
    }
  }

  lemma WaitStaysAwake(st: State, t: Id)
    requires Shape(st) && BusyOk(st.pc, st.busy) && CanRun(st, t) && st.frame[t].Idle? && st.limit >= N(st)
    requires !SleepPath(st.pc[t])
    ensures |RunWait(st, t).pc| == N(st) && !SleepPath(RunWait(st, t).pc[t])
  {
    WaitFlow(st, t);
    if st.pc[t].ReadBusy? {
      BusyBounds(st.pc, t);
    }
  }

  /** If the limit is at least the number of threads, no waiter ever goes to sleep. */
  lemma {:induction false} RoomForAll(run: seq<State>, i: nat)
    requires IsRun(run) && i < |run| && run[0].limit >= N(run[0])
    ensures NobodySleeps(run[i].pc) && run[i].limit >= N(run[i])
  {
    if i > 0 {
      RoomForAll(run, i - 1);
      AwakeAt(run, i - 1);
    }
  }

  lemma AwakeNext(st: State, st': State)
    requires Structure(st) && Next(st, st') && st.limit >= N(st) && NobodySleeps(st.pc)
    ensures NobodySleeps(st'.pc) && st'.limit >= N(st')
  {
    var l :| Enabled(st, l) && st' == Apply(st, l);
    LimitIsFixed(st, l);
    StepKeepsAwake(st, l);
  }

  lemma AwakeAt(run: seq<State>, i: nat)
    requires IsRun(run) && i + 1 < |run| && NobodySleeps(run[i].pc) && run[i].limit >= N(run[i])
    ensures NobodySleeps(run[i + 1].pc) && run[i + 1].limit >= N(run[i + 1])
  {
    RunStructure(run, i);
    assert StepAt(run, i);
    AwakeNext(run[i], run[i + 1]);
  }

  // ---------------------------------------------------------------- room for nobody

  predicate Managing(p: Pc) { p.ReleaseOwn? || Counted(p) || p.CountIn? }

  /** Whoever progresses, or is about to, is the ring head. */
  ghost predicate OnlyHeadManages(pc: seq<Pc>, ring: seq<Id>) {
    forall t :: 0 <= t < |pc| && Managing(pc[t]) ==> HeadIs(ring, t)
  }

  lemma RingStepKeepsSole(st: State, t: Id)
    requires Structure(st) && t < N(st) && OnlyHeadManages(st.pc, st.ring) && (st.pc[t].Link? || st.pc[t].Unlink?)
    ensures OnlyHeadManages(RunWait(st, t).pc, RunWait(st, t).ring)
  {
    var st' := RunWait(st, t);
    assert st.ring != [] && st.ring[0] != t ==> st'.ring != [] && st'.ring[0] == st.ring[0];
  }

  lemma StepKeepsSole(st: State, l: Label)
    requires Structure(st) && Enabled(st, l) && st.limit <= 0 && OnlyHeadManages(st.pc, st.ring)
    ensures OnlyHeadManages(Apply(st, l).pc, Apply(st, l).ring)
  {
    if l.Run? && st.frame[l.t].Idle? {
      if st.pc[l.t].Link? || st.pc[l.t].Unlink? {
        RingStepKeepsSole(st, l.t);
      } else {
        StillStepKeepsSole(st, l.t);
      }
    } else if l.Run? {
      FrameFlow(st, l.t);
    }
  }

  /** With no room, a thread that leaves the pointer block alone starts managing only as the head. */
  lemma StillStepKeepsSole(st: State, t: Id)
    requires Shape(st) && BusyOk(st.pc, st.busy) && CanRun(st, t) && st.frame[t].Idle? && !st.pc[t].Link? && !st.pc[t].Unlink?
    requires st.limit <= 0 && OnlyHeadManages(st.pc, st.ring)
    ensures OnlyHeadManages(RunWait(st, t).pc, RunWait(st, t).ring)
  {
    WaitFlow(st, t);
    assert RunWait(st, t).ring == st.ring;
    if Managing(RunWait(st, t).pc[t]) && !Managing(st.pc[t]) {
      NewManagerIsHead(st, t);
    }
  }

  lemma NewManagerIsHead(st: State, t: Id)
    requires Shape(st) && BusyOk(st.pc, st.busy) && CanRun(st, t) && st.frame[t].Idle? && st.limit <= 0
    requires Managing(RunWait(st, t).pc[t]) && !Managing(st.pc[t])
    ensures HeadIs(st.ring, t)
  {
    if st.pc[t].ReadBusy? {
      BusyBounds(st.pc, t);
    }
  }

  lemma SoleNext(st: State, st': State)
    requires Structure(st) && Next(st, st') && st.limit <= 0 && OnlyHeadManages(st.pc, st.ring)
    ensures OnlyHeadManages(st'.pc, st'.ring) && st'.limit <= 0
  {
    var l :| Enabled(st, l) && st' == Apply(st, l);
    LimitIsFixed(st, l);
    StepKeepsSole(st, l);
  }

  lemma SoleAt(run: seq<State>, i: nat)
    requires IsRun(run) && i + 1 < |run| && OnlyHeadManages(run[i].pc, run[i].ring) && run[i].limit <= 0
    ensures OnlyHeadManages(run[i + 1].pc, run[i + 1].ring) && run[i + 1].limit <= 0
  {
    RunStructure(run, i);
    assert StepAt(run, i);
    SoleNext(run[i], run[i + 1]);
  }

  /** If the limit is 0 or less, at every moment only the head of the ring is in its progress loop. */
  lemma {:induction false} RoomForNone(run: seq<State>, i: nat)
    requires IsRun(run) && i < |run| && run[0].limit <= 0
    ensures OnlyHeadManages(run[i].pc, run[i].ring) && run[i].limit <= 0
  {
    if i > 0 {
      RoomForNone(run, i - 1);
      SoleAt(run, i - 1);
    }
  }

  // ---------------------------------------------------------------- the limit as a bound

  /** Threads below j are in their loops, those below k have passed the test of line 82, the rest is outside. */
  ghost predicate Lined(st: State, n: nat, limit: int, j: nat, k: nat) {
    && N(st) == n && st.limit == limit && st.busy == j && st.ringLock == None && |st.frame| == n && |st.ring| == k
    && (k > 0 ==> st.ring[0] == 0)
    && forall t :: 0 <= t < n ==> st.frame[t].Idle? && st.pc[t] == (if t < j then LoopTest else if t < k then CountIn else Outside)
  }

  /** k threads can all pass the test before any of them counts itself in. */
  lemma {:induction false} AllPass(n: nat, limit: int, k: nat) returns (st: State)
    requires k <= n && (limit > 0 || k <= 1)
    ensures Reachable(st) && Lined(st, n, limit, 0, k)
  {
    if k == 0 {
      StartReachable(n, limit);
      st := Start(n, limit);
    } else {
      st := AllPass(n, limit, k - 1);
      st := OnePasses(st, n, limit, k - 1);
    }
  }

  lemma OnePasses(st: State, n: nat, limit: int, k: nat) returns (st': State)
    requires Reachable(st) && Lined(st, n, limit, 0, k) && k < n && (limit > 0 || k == 0)
    ensures Reachable(st') && Lined(st', n, limit, 0, k + 1)
  {
    var a := Arrives(st, k, 1);
    st' := Proceeds(a, k);
    assert st'.pc == st.pc[k := CountIn];
  }

  lemma {:induction false} AllCount(n: nat, limit: int, j: nat, k: nat) returns (st: State)
    requires j <= k <= n && (limit > 0 || k <= 1)
    ensures Reachable(st) && Lined(st, n, limit, j, k)
    decreases j
  {
    if j == 0 {
      st := AllPass(n, limit, k);
    } else {
      st := AllCount(n, limit, j - 1, k);
      st := OneCounts(st, n, limit, j - 1, k);
    }
  }

  lemma OneCounts(st: State, n: nat, limit: int, j: nat, k: nat) returns (st': State)
    requires Reachable(st) && Lined(st, n, limit, j, k) && j < k <= n
    ensures Reachable(st') && Lined(st', n, limit, j + 1, k)
  {
    st' := Move(st, j, LoopTest).(busy := st.busy + 1);
    CountStep(st, j);
    OneStep(st, j, st');
  }

  ghost predicate BoundKept(n: nat, limit: int) {
    forall st :: Reachable(st) && N(st) == n && st.limit == limit ==> st.busy <= limit
  }

  /** num_thread_in_progress stays within max_thread_in_progress in every reachable state iff the limit is at
      least the number of threads. */
  lemma BoundKeptIff(n: nat, limit: int)
    ensures BoundKept(n, limit) <==> limit >= n
  {
    if limit >= n {
      forall st | Reachable(st) && N(st) == n && st.limit == limit ensures st.busy <= limit {
        BusyWithinThreads(st);
      }
    } else {
      var st := BoundExceeded(n, limit);
    }
  }

  lemma BusyWithinThreads(st: State)
    requires Reachable(st)
    ensures st.busy <= N(st)
  {
    ReachableInv(st);
    AtMostAll(st.pc);
  }

  /** Below that there is a run that exceeds the limit by one. */
  lemma BoundExceeded(n: nat, limit: int) returns (st: State)
    requires limit < n
    ensures Reachable(st) && N(st) == n && st.limit == limit && st.busy > limit
  {
    var k := if limit < 0 then 0 else limit + 1;
    st := AllCount(n, limit, k, k);
  }
}
