/** Global wakeup with an error: behind the traversal every ring member is failed and awake. */
module WaitSyncSweep {
  import opened Base
  import opened WaitSyncModel
  import opened WaitSyncFlow
  import opened WaitSyncLocks
  import opened WaitSyncCompletion

  /** The waiter is on the ring, has no signal left to wait for, and can only go on to trim the ring. */
  predicate Woken(p: Pc) {
    p.Waking? || p.CheckDone? || p.LeaveLocked? || p.CountIn? || p.LoopTest? || p.Progress? || p.CountOut? || p.AcquireTrim?
  }

  ghost predicate Swept(p: Pc, lg: Log) {
    lg.erred && (lg.steady ==> Woken(p))
  }

  predicate ErrorSweep(f: Frame) {
    SweepHolds(f) && (if HasTarget(f) then f.from.code else f.code) != 0
  }

  /** How many ring positions the traversal has finished with. */
  function Behind(f: Frame, length: nat): nat
    requires SweepHolds(f)
  {
    if HasTarget(f) then f.from.index else if f.SweepNext? then f.index + 1 else if f.SweepUnlock? then length else 0
  }

  ghost predicate SweepInv(f: Frame, pc: seq<Pc>, ring: seq<Id>, log: seq<Log>)
    requires |log| == |pc| && (forall i :: 0 <= i < |ring| ==> ring[i] < |pc|) && FrameInRange(pc, ring, f)
  {
    && (f.Add? && f.from.Sweep? ==> f.amount == 0 && f.from.code == 0)
    && (ErrorSweep(f) ==>
      && (forall j :: 0 <= j < Behind(f, |ring|) ==> Swept(pc[ring[j]], log[ring[j]]))
      && (Signalling(f) ==> log[f.target].erred)
      && (f.SignalUnlock? || f.ClearSignaling? ==> Swept(pc[f.target], log[f.target])))
  }

  ghost predicate SweepOk(st: State)
    requires Shape(st)
  {
    forall t {:trigger SweepInv(st.frame[t], st.pc, st.ring, st.log)} :: 0 <= t < N(st) ==> SweepInv(st.frame[t], st.pc, st.ring, st.log)
  }

  // ---------------------------------------------------------------- what other threads may do meanwhile

  /** History only moves towards failure and unsteadiness. */
  predicate LogGrows(lg: Log, lg': Log) {
    (lg.erred ==> lg'.erred) && (lg'.steady ==> lg.steady)
  }

  /** Nobody takes a woken, failed waiter off the ring or back to sleep while the traversal holds wait_sync_lock. */
  ghost predicate Steady(pc: seq<Pc>, pc': seq<Pc>, log: seq<Log>, log': seq<Log>)
    requires |pc| == |log|
  {
    && |pc'| == |pc| && |log'| == |log|
    && forall s :: 0 <= s < |pc| && Swept(pc[s], log[s]) ==> Swept(pc'[s], log'[s])
  }

  lemma SweepSteady(f: Frame, pc: seq<Pc>, pc': seq<Pc>, ring: seq<Id>, log: seq<Log>, log': seq<Log>)
    requires |log| == |pc| && (forall i :: 0 <= i < |ring| ==> ring[i] < |pc|) && FrameInRange(pc, ring, f)
    requires Steady(pc, pc', log, log') && FrameInRange(pc', ring, f)
    requires forall s :: 0 <= s < |log| && log[s].erred && !pc[s].Outside? ==> log'[s].erred
    requires SweepInv(f, pc, ring, log)
    ensures SweepInv(f, pc', ring, log')
  {}

  lemma WokenFlow(p: Pc, q: Pc, count: int, status: int)
    requires Woken(p) && Flow(p, q, count, status) && count <= 0 && !q.Unlink?
    ensures Woken(q)
  {}

  /** A waiter that neither holds nor takes wait_sync_lock keeps whatever the traversal has achieved. */
  lemma WaitSteady(st: State, t: Id)
    requires Shape(st) && DataOk(st) && CanRun(st, t) && st.frame[t].Idle? && !OwnsRing(st.pc[t]) && st.ringLock.Some?
    ensures var st' := RunWait(st, t);
            st'.ring == st.ring && st'.log == st.log && st'.frame == st.frame && Steady(st.pc, st'.pc, st.log, st'.log)
  {
    var st' := RunWait(st, t);
    WaitFlow(st, t);
    assert !st.pc[t].Outside? && Ledger(st.count[t], st.status[t], st.log[t]);
    if Woken(st.pc[t]) && st.count[t] <= 0 {
      WokenFlow(st.pc[t], st'.pc[t], st.count[t], st.status[t]);
    }
  }

  lemma WaitKeepsSweep(st: State, t: Id)
    requires Structure(st) && DataOk(st) && SweepOk(st) && CanRun(st, t) && st.frame[t].Idle?
    requires Shape(RunWait(st, t))
    ensures SweepOk(RunWait(st, t))
  {
    var st' := RunWait(st, t);
    if u :| 0 <= u < N(st) && SweepHolds(st.frame[u]) {
      assert st.ringLock == Some(u) && !OwnsRing(st.pc[t]);
      WaitSteady(st, t);
      forall v | 0 <= v < N(st) ensures SweepInv(st'.frame[v], st'.pc, st'.ring, st'.log) {
        SweepSteady(st.frame[v], st.pc, st'.pc, st.ring, st.log, st'.log);
      }
    } else {
      WaitFlow(st, t);
    }
  }

  // ---------------------------------------------------------------- the traversal itself

  /** The error is in place before the signal: Swap leaves the target failed. */
  lemma SwapSweeps(st: State, t: Id)
    requires Shape(st) && SweepOk(st) && t < N(st) && st.frame[t].Swap? && Shape(RunFrame(st, t))
    ensures var st' := RunFrame(st, t); SweepInv(st'.frame[t], st'.pc, st'.ring, st'.log)
  {
    var st' := RunFrame(st, t);
    assert SweepInv(st.frame[t], st.pc, st.ring, st.log);
  }

  lemma SignalCondSweeps(st: State, t: Id)
    requires Structure(st) && SweepOk(st) && t < N(st) && st.frame[t].SignalCond? && Shape(RunFrame(st, t))
    ensures var st' := RunFrame(st, t); SweepInv(st'.frame[t], st'.pc, st'.ring, st'.log)
  {
    var st' := RunFrame(st, t);
    var f := st.frame[t];
    assert SweepInv(f, st.pc, st.ring, st.log);
    assert FreePc(st.pc[t]);
    if ErrorSweep(f) {
      assert OnRing(st.pc[f.target]);
      assert !OwnsLock(st.pc[f.target]) && !OwnsRing(st.pc[f.target]);
    }
  }

  /** The traversal moves on: what lies behind it grows by the member it has just finished. */
  lemma TraverseSweeps(st: State, t: Id)
    requires Shape(st) && SweepOk(st) && t < N(st) && (st.frame[t].SweepHead? || st.frame[t].SweepNext?)
    requires Shape(RunFrame(st, t))
    ensures var st' := RunFrame(st, t); SweepInv(st'.frame[t], st'.pc, st'.ring, st'.log)
  {
    var st' := RunFrame(st, t);
    assert SweepInv(st.frame[t], st.pc, st.ring, st.log);
    forall j | 0 <= j < |st.ring| && Swept(st.pc[st.ring[j]], st.log[st.ring[j]])
      ensures Swept(st'.pc[st'.ring[j]], st'.log[st'.ring[j]])
    {}
  }

  lemma OtherSweeps(st: State, t: Id)
    requires Shape(st) && SweepOk(st) && CanRun(st, t) && !st.frame[t].Idle? && Shape(RunFrame(st, t))
    requires !st.frame[t].Swap? && !st.frame[t].SignalCond? && !st.frame[t].SweepHead? && !st.frame[t].SweepNext?
    ensures var st' := RunFrame(st, t); SweepInv(st'.frame[t], st'.pc, st'.ring, st'.log)
  {
    assert SweepInv(st.frame[t], st.pc, st.ring, st.log);
  }

  lemma FrameSteady(st: State, t: Id)
    requires Shape(st) && CanRun(st, t) && !st.frame[t].Idle? && Shape(RunFrame(st, t))
    ensures var st' := RunFrame(st, t);
            && Steady(st.pc, st'.pc, st.log, st'.log)
            && (forall s :: 0 <= s < N(st) && st.log[s].erred ==> st'.log[s].erred)
  {
    FrameFlow(st, t);
    var st' := RunFrame(st, t);
    assert forall s :: 0 <= s < N(st) ==> LogGrows(st.log[s], st'.log[s]);
  }

  lemma FrameKeepsSweep(st: State, t: Id)
    requires Structure(st) && SweepOk(st) && CanRun(st, t) && !st.frame[t].Idle? && Shape(RunFrame(st, t))
    ensures SweepOk(RunFrame(st, t))
  {
    var st' := RunFrame(st, t);
    FrameFlow(st, t);
    FrameSteady(st, t);
    if st.frame[t].Swap? {
      SwapSweeps(st, t);
    } else if st.frame[t].SignalCond? {
      SignalCondSweeps(st, t);
    } else if st.frame[t].SweepHead? || st.frame[t].SweepNext? {
      TraverseSweeps(st, t);
    } else {
      OtherSweeps(st, t);
    }
    forall v | 0 <= v < N(st) ensures SweepInv(st'.frame[v], st'.pc, st'.ring, st'.log) {
      if v != t {
        assert st'.frame[v] == st.frame[v];
        SweepSteady(st.frame[v], st.pc, st'.pc, st.ring, st.log, st'.log);
      }
    }
  }

  lemma BeginKeepsSweep(st: State, l: Label)
    requires Structure(st) && SweepOk(st) && Enabled(st, l) && l.Begin? && Shape(Apply(st, l))
    ensures SweepOk(Apply(st, l))
  {
    var st' := Apply(st, l);
    forall i | 0 <= i < |st.ring| ensures st.ring[i] != l.t {
      assert OnRing(st.pc[st.ring[i]]);
    }
    forall v | 0 <= v < N(st) ensures SweepInv(st'.frame[v], st'.pc, st'.ring, st'.log) {
      assert SweepInv(st.frame[v], st.pc, st.ring, st.log) && FrameInRange(st.pc, st.ring, st.frame[v]);
    }
  }

  lemma StartKeepsSweep(st: State, l: Label)
    requires Shape(st) && SweepOk(st) && Enabled(st, l) && !l.Run? && !l.Begin? && Shape(Apply(st, l))
    ensures SweepOk(Apply(st, l))
  {
    var st' := Apply(st, l);
    assert Steady(st.pc, st'.pc, st.log, st'.log);
    forall v | 0 <= v < N(st) ensures SweepInv(st'.frame[v], st'.pc, st'.ring, st'.log) {
      if st'.frame[v] == st.frame[v] {
        SweepSteady(st.frame[v], st.pc, st'.pc, st.ring, st.log, st'.log);
      }
    }
  }

  lemma StepKeepsSweep(st: State, l: Label)
    requires Structure(st) && DataOk(st) && SweepOk(st) && Enabled(st, l)
    ensures Shape(Apply(st, l)) && SweepOk(Apply(st, l))
  {
    StepKeepsStructure(st, l);
    if l.Run? && st.frame[l.t].Idle? {
      WaitKeepsSweep(st, l.t);
    } else if l.Run? {
      FrameKeepsSweep(st, l.t);
    } else if l.Begin? {
      BeginKeepsSweep(st, l);
    } else {
      StartKeepsSweep(st, l);
    }
  }
}
