/** Completions: the ledger of a sync's updates, what a wait may return, and why no completion is lost. */
module WaitSyncCompletion {
  import opened WaitSyncModel
  import opened WaitSyncFlow
  import opened WaitSyncLocks

  // ---------------------------------------------------------------- the ledger of one sync

  /** The count is the initial count less the successes applied, until an error update zeroes it;
      the error's status is in place by then.  Regular updates never take the count past its goal. */
  ghost predicate Ledger(count: int, status: int, lg: Log) {
    && (!lg.erred ==> count == lg.init - lg.applied)
    && (lg.erred ==> status != 0)
    && (lg.failed ==> lg.erred)
    && (lg.steady && lg.erred ==> count <= 0)
    && (lg.regular ==> lg.steady && 0 <= lg.applied && (lg.applied > 0 ==> lg.applied <= lg.init))
  }

  ghost predicate LedgerOk(pc: seq<Pc>, count: seq<int>, status: seq<int>, log: seq<Log>)
    requires |count| == |status| == |log| == |pc|
  {
    forall s {:trigger Ledger(count[s], status[s], log[s])} :: 0 <= s < |pc| && !pc[s].Outside? ==>
      Ledger(count[s], status[s], log[s])
  }

  /** An error update carries a non-zero status and has stored it before it swaps the count. */
  ghost predicate ErrorsOk(frame: seq<Frame>, status: seq<int>) {
    forall t :: 0 <= t < |frame| ==>
      && (frame[t].SetStatus? ==> frame[t].error != 0)
      && (frame[t].Swap? ==> frame[t].target < |status| && status[frame[t].target] != 0)
  }

  lemma LedgerAdd(count: int, status: int, lg: Log, amount: int)
    requires Ledger(count, status, lg)
    ensures Ledger(count - amount, status, LogAdd(lg, count, amount))
  {}

  lemma LedgerSwap(count: int, status: int, lg: Log)
    requires Ledger(count, status, lg) && status != 0
    ensures Ledger(0, status, LogSwap(lg, count))
  {}

  // ---------------------------------------------------------------- what the waiter has seen

  /** Program points reached only after the waiter saw its count at or below 0. */
  predicate Finished(p: Pc) {
    p.BailOut? || p.LeaveLocked? || p.CountOut? || p.AcquireTrim? || p.Unlink? || p.PassLock? || p.PassSignal? ||
    p.PassUnlock? || p.ReleaseTrim? || p.ReadStatus? || p.Returned? || p.Released?
  }

  predicate Ended(p: Pc) { p.Returned? || p.Released? }

  /** A finished wait stays complete; a reported success had all its updates; a failure is reported. */
  ghost predicate Verdict(p: Pc, count: int, lg: Log) {
    && (lg.steady && Finished(p) ==> count <= 0)
    && (lg.steady && lg.failed && Ended(p) ==> p.outcome.Error?)
    && (lg.regular && Ended(p) && p.outcome.Success? && lg.init >= 0 ==> lg.applied == lg.init)
  }

  ghost predicate VerdictOk(pc: seq<Pc>, count: seq<int>, log: seq<Log>)
    requires |count| == |log| == |pc|
  {
    forall s {:trigger Verdict(pc[s], count[s], log[s])} :: 0 <= s < |pc| ==> Verdict(pc[s], count[s], log[s])
  }

  lemma VerdictFlow(p: Pc, q: Pc, count: int, status: int, lg: Log)
    requires Flow(p, q, count, status) && Verdict(p, count, lg) && Ledger(count, status, lg)
    ensures Verdict(q, count, lg)
  {}

  lemma VerdictAdd(p: Pc, count: int, status: int, lg: Log, amount: int)
    requires Verdict(p, count, lg) && Ledger(count, status, lg)
    ensures Verdict(p, count - amount, LogAdd(lg, count, amount))
  {}

  lemma VerdictSwap(p: Pc, count: int, lg: Log)
    requires Verdict(p, count, lg)
    ensures Verdict(p, 0, LogSwap(lg, count))
  {}

  // ---------------------------------------------------------------- no completion is lost

  /** The waiter saw a positive count under its lock and has not woken since. */
  predicate Committed(p: Pc) {
    p.AcquireRing? || p.Link? || p.ReleaseRing? || p.ReadHead? || p.ReadBusy? || p.EnterSleep? || p.Asleep?
  }

  /** Thread a has completed sync s and its signal is still to come. */
  predicate WillSignal(f: Frame, s: Id) { (f.SignalLock? || f.SignalCond?) && f.target == s }

  ghost predicate Pending(frame: seq<Frame>, s: Id) {
    exists a :: 0 <= a < |frame| && WillSignal(frame[a], s)
  }

  ghost predicate NotLost(p: Pc, frame: seq<Frame>, count: int, lg: Log, s: Id) {
    Committed(p) && count <= 0 && !lg.leapt ==> Pending(frame, s)
  }

  ghost predicate CompletionOk(pc: seq<Pc>, frame: seq<Frame>, count: seq<int>, log: seq<Log>)
    requires |count| == |log| == |pc|
  {
    forall s {:trigger NotLost(pc[s], frame, count[s], log[s], s)} :: 0 <= s < |pc| ==>
      NotLost(pc[s], frame, count[s], log[s], s)
  }

  ghost predicate DataOk(st: State)
    requires Shape(st)
  {
    && LedgerOk(st.pc, st.count, st.status, st.log)
    && ErrorsOk(st.frame, st.status)
    && VerdictOk(st.pc, st.count, st.log)
    && CompletionOk(st.pc, st.frame, st.count, st.log)
  }

  // ---------------------------------------------------------------- steps of the wait

  lemma WaitKeepsData(st: State, t: Id)
    requires Shape(st) && DataOk(st) && CanRun(st, t) && st.frame[t].Idle?
    requires Shape(RunWait(st, t))
    ensures DataOk(RunWait(st, t))
  {
    var st' := RunWait(st, t);
    WaitFlow(st, t);
    assert !st.pc[t].Outside?;
    VerdictFlow(st.pc[t], st'.pc[t], st.count[t], st.status[t], st.log[t]);
    forall s | 0 <= s < N(st) ensures Verdict(st'.pc[s], st'.count[s], st'.log[s]) {
      assert Verdict(st.pc[s], st.count[s], st.log[s]);
    }
    forall s | 0 <= s < N(st) ensures NotLost(st'.pc[s], st'.frame, st'.count[s], st'.log[s], s) {
      assert NotLost(st.pc[s], st.frame, st.count[s], st.log[s], s);
    }
  }

  // ---------------------------------------------------------------- steps of a frame

  /** Replacing thread t's frame keeps sync s's pending signal unless that was t's own. */
  lemma PendingKept(frame: seq<Frame>, t: Id, f: Frame, s: Id)
    requires t < |frame| && Pending(frame, s) && (WillSignal(frame[t], s) ==> WillSignal(f, s))
    ensures Pending(frame[t := f], s)
  {
    var a :| 0 <= a < |frame| && WillSignal(frame[a], s);
    assert WillSignal(frame[t := f][a], s);
  }

  lemma AddKeepsData(st: State, t: Id)
    requires Shape(st) && DataOk(st) && t < N(st) && st.frame[t].Add?
    requires Shape(RunFrame(st, t))
    ensures DataOk(RunFrame(st, t))
  {
    var st' := RunFrame(st, t);
    var f := st.frame[t];
    LedgerAdd(st.count[f.target], st.status[f.target], st.log[f.target], f.amount);
    VerdictAdd(st.pc[f.target], st.count[f.target], st.status[f.target], st.log[f.target], f.amount);
    forall s | 0 <= s < N(st) ensures NotLost(st'.pc[s], st'.frame, st'.count[s], st'.log[s], s) {
      assert NotLost(st.pc[s], st.frame, st.count[s], st.log[s], s);
      if Pending(st.frame, s) {
        PendingKept(st.frame, t, st'.frame[t], s);
      } else if s == f.target && st'.count[s] == 0 {
        assert WillSignal(st'.frame[t], s);
      }
    }
  }

  lemma SwapKeepsData(st: State, t: Id)
    requires Shape(st) && DataOk(st) && t < N(st) && st.frame[t].Swap?
    requires Shape(RunFrame(st, t))
    ensures DataOk(RunFrame(st, t))
  {
    var st' := RunFrame(st, t);
    var f := st.frame[t];
    LedgerSwap(st.count[f.target], st.status[f.target], st.log[f.target]);
    VerdictSwap(st.pc[f.target], st.count[f.target], st.log[f.target]);
    forall s | 0 <= s < N(st) ensures NotLost(st'.pc[s], st'.frame, st'.count[s], st'.log[s], s) {
      assert NotLost(st.pc[s], st.frame, st.count[s], st.log[s], s);
      if s == f.target {
        assert WillSignal(st'.frame[t], s);
      } else if Pending(st.frame, s) {
        PendingKept(st.frame, t, st'.frame[t], s);
      }
    }
  }

  /** The signaller holds the target's lock, so the target's waiter is asleep or past its sleep. */
  lemma SignalCondKeepsData(st: State, t: Id)
    requires Structure(st) && DataOk(st) && t < N(st) && st.frame[t].SignalCond?
    requires Shape(RunFrame(st, t))
    ensures DataOk(RunFrame(st, t))
  {
    var st' := RunFrame(st, t);
    var f := st.frame[t];
    assert !OwnsLock(st.pc[f.target]) by { assert FreePc(st.pc[t]); }
    forall s | 0 <= s < N(st) ensures NotLost(st'.pc[s], st'.frame, st'.count[s], st'.log[s], s) {
      assert NotLost(st.pc[s], st.frame, st.count[s], st.log[s], s);
      if s != f.target && Pending(st.frame, s) {
        PendingKept(st.frame, t, st'.frame[t], s);
      }
    }
    forall s | 0 <= s < N(st) ensures Verdict(st'.pc[s], st'.count[s], st'.log[s]) {
      assert Verdict(st.pc[s], st.count[s], st.log[s]);
    }
  }

  /** A step that changes no count and no wait, and no history that the ledger, verdict or signals depend on. */
  lemma SameDataKeeps(st: State, st': State, t: Id)
    requires Shape(st) && Shape(st') && DataOk(st) && t < N(st) && N(st') == N(st)
    requires st'.count == st.count && st'.frame == st.frame[t := st'.frame[t]]
    requires forall s :: 0 <= s < N(st) ==> SameHistory(st.log[s], st'.log[s]) && SameStand(st.pc[s], st'.pc[s])
    requires forall s :: 0 <= s < N(st) ==> !WillSignal(st.frame[t], s) || WillSignal(st'.frame[t], s)
    ensures VerdictOk(st'.pc, st'.count, st'.log) && CompletionOk(st'.pc, st'.frame, st'.count, st'.log)
  {
    forall s | 0 <= s < N(st)
      ensures NotLost(st'.pc[s], st'.frame, st'.count[s], st'.log[s], s) && Verdict(st'.pc[s], st'.count[s], st'.log[s])
    {
      assert SameHistory(st.log[s], st'.log[s]) && SameStand(st.pc[s], st'.pc[s]);
      assert NotLost(st.pc[s], st.frame, st.count[s], st.log[s], s) && Verdict(st.pc[s], st.count[s], st.log[s]);
      if Pending(st.frame, s) {
        PendingKept(st.frame, t, st'.frame[t], s);
      }
    }
  }

  /** Logs that differ at most in what only the release discipline looks at. */
  predicate SameHistory(a: Log, b: Log) {
    && a.init == b.init && a.applied == b.applied && a.erred == b.erred && a.failed == b.failed
    && a.steady == b.steady && a.leapt == b.leapt && a.regular == b.regular
  }

  /** The waiter has seen no more, is committed to no more, and has ended with the same outcome if at all. */
  predicate SameStand(p: Pc, q: Pc) {
    && (Finished(q) ==> Finished(p)) && (Committed(q) ==> Committed(p))
    && (Ended(q) ==> Ended(p) && q.outcome == p.outcome)
  }

  lemma LedgerKept(st: State, st': State)
    requires Shape(st) && Shape(st') && LedgerOk(st.pc, st.count, st.status, st.log) && N(st') == N(st)
    requires forall s :: 0 <= s < N(st) && !st'.pc[s].Outside? ==>
               && !st.pc[s].Outside? && st'.count[s] == st.count[s] && SameHistory(st.log[s], st'.log[s])
               && (st'.status[s] == st.status[s] || st'.status[s] != 0)
    ensures LedgerOk(st'.pc, st'.count, st'.status, st'.log)
  {
    forall s | 0 <= s < N(st) && !st'.pc[s].Outside? ensures Ledger(st'.count[s], st'.status[s], st'.log[s]) {
      assert Ledger(st.count[s], st.status[s], st.log[s]);
      assert SameHistory(st.log[s], st'.log[s]);
    }
  }

  /** The other frame steps change neither a count nor a wait; history changes only where it is not read here. */
  lemma OtherFrameKeepsData(st: State, t: Id)
    requires Shape(st) && DataOk(st) && CanRun(st, t)
    requires !st.frame[t].Idle? && !st.frame[t].Add? && !st.frame[t].Swap? && !st.frame[t].SignalCond?
    requires Shape(RunFrame(st, t))
    ensures DataOk(RunFrame(st, t))
  {
    var st' := RunFrame(st, t);
    FrameFlow(st, t);
    SameDataKeeps(st, st', t);
    LedgerKept(st, st');
  }

  lemma FrameKeepsData(st: State, t: Id)
    requires Structure(st) && DataOk(st) && CanRun(st, t) && !st.frame[t].Idle?
    requires Shape(RunFrame(st, t))
    ensures DataOk(RunFrame(st, t))
  {
    if st.frame[t].Add? {
      AddKeepsData(st, t);
    } else if st.frame[t].Swap? {
      SwapKeepsData(st, t);
    } else if st.frame[t].SignalCond? {
      SignalCondKeepsData(st, t);
    } else {
      OtherFrameKeepsData(st, t);
    }
  }

  // ---------------------------------------------------------------- every step

  lemma BeginKeepsData(st: State, t: Id, c: int)
    requires Shape(st) && DataOk(st) && Enabled(st, Begin(t, c)) && Shape(Apply(st, Begin(t, c)))
    ensures DataOk(Apply(st, Begin(t, c)))
  {
    var st' := Apply(st, Begin(t, c));
    forall s | 0 <= s < N(st) && !st'.pc[s].Outside? ensures Ledger(st'.count[s], st'.status[s], st'.log[s]) {
      assert s != t ==> Ledger(st.count[s], st.status[s], st.log[s]);
    }
    forall s | 0 <= s < N(st)
      ensures NotLost(st'.pc[s], st'.frame, st'.count[s], st'.log[s], s) && Verdict(st'.pc[s], st'.count[s], st'.log[s])
    {
      assert NotLost(st.pc[s], st.frame, st.count[s], st.log[s], s) && Verdict(st.pc[s], st.count[s], st.log[s]);
    }
    forall u | 0 <= u < N(st) && st.frame[u].Swap? ensures st.frame[u].target != t {
      assert FrameInRange(st.pc, st.ring, st.frame[u]);
    }
  }

  lemma StartKeepsData(st: State, l: Label)
    requires Shape(st) && DataOk(st) && Enabled(st, l) && !l.Run? && !l.Begin? && Shape(Apply(st, l))
    ensures DataOk(Apply(st, l))
  {
    var st' := Apply(st, l);
    assert st'.frame == st.frame[l.t := st'.frame[l.t]];
    SameDataKeeps(st, st', l.t);
    LedgerKept(st, st');
  }

  lemma StepKeepsData(st: State, l: Label)
    requires Structure(st) && DataOk(st) && Enabled(st, l)
    ensures Shape(Apply(st, l)) && DataOk(Apply(st, l))
  {
    StepKeepsStructure(st, l);
    if l.Run? && st.frame[l.t].Idle? {
      WaitKeepsData(st, l.t);
    } else if l.Run? {
      FrameKeepsData(st, l.t);
    } else if l.Begin? {
      BeginKeepsData(st, l.t, l.c);
    } else {
      StartKeepsData(st, l);
    }
  }
}
