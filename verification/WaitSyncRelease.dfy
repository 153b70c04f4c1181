/** Safe release: while callers keep to a sync's budget, exactly one update signals it, and once
    WAIT_SYNC_RELEASE has destroyed it nobody refers to it any more. */
module WaitSyncRelease {
  import opened Base
  import opened WaitSyncModel
  import opened WaitSyncFlow
  import opened WaitSyncLocks

  // ---------------------------------------------------------------- outstanding updates of one sync

  function AmountOn(s: Id): Frame -> int {
    (f: Frame) => if f.Add? && f.target == s then f.amount else 0
  }

  /** Total of the updates of s that were issued and not applied yet. */
  function Outstanding(frame: seq<Frame>, s: Id): int { Sum(frame, AmountOn(s)) }

  predicate SignalsOn(f: Frame, s: Id) { Signalling(f) && f.target == s }

  /** Frames that a sync within budget may see. */
  predicate TameFrame(f: Frame, s: Id) {
    On(f, s) ==> f.from.Direct? && !f.SetStatus? && !f.Swap? && (f.Add? ==> f.amount > 0)
  }

  ghost predicate TameFrames(frame: seq<Frame>, s: Id) {
    forall a :: 0 <= a < |frame| ==> TameFrame(frame[a], s)
  }

  /** What was issued is what was applied plus what is outstanding, and fits the initial count. */
  ghost predicate Budget(frame: seq<Frame>, lg: Log, s: Id) {
    && lg.regular && !lg.erred && 0 <= lg.applied
    && lg.applied + Outstanding(frame, s) == lg.reserved
    && (lg.reserved == 0 || lg.reserved <= lg.init)
    && TameFrames(frame, s)
  }

  ghost predicate Signallers(frame: seq<Frame>, s: Id) {
    exists a :: 0 <= a < |frame| && SignalsOn(frame[a], s)
  }

  ghost predicate AtMostOneSignaller(frame: seq<Frame>, s: Id) {
    forall a, b :: 0 <= a < |frame| && 0 <= b < |frame| && SignalsOn(frame[a], s) && SignalsOn(frame[b], s) ==> a == b
  }

  /** The update that exhausts the budget signals; `signaling` is true until it is through. */
  ghost predicate OneSignal(frame: seq<Frame>, count: int, signaling: bool, lg: Log, s: Id) {
    && AtMostOneSignaller(frame, s)
    && (Signallers(frame, s) <==> lg.init > 0 && count == 0 && signaling)
    && (lg.init > 0 && !signaling ==> count == 0)
    && (lg.init == 0 ==> !signaling)
    && (lg.init < 0 ==> signaling)
    && lg.signals == (if lg.init > 0 && lg.applied == lg.init then 1 else 0)
  }

  ghost predicate Tame(p: Pc, frame: seq<Frame>, count: int, signaling: bool, lg: Log, s: Id) {
    lg.tame ==>
      && Budget(frame, lg, s)
      && count == lg.init - lg.applied
      && OneSignal(frame, count, signaling, lg, s)
      && (p.Released? ==> !signaling)
  }

  ghost predicate TameOk(st: State)
    requires Shape(st)
  {
    forall s {:trigger Tame(st.pc[s], st.frame, st.count[s], st.signaling[s], st.log[s], s)} ::
      0 <= s < N(st) && !st.pc[s].Outside? ==> Tame(st.pc[s], st.frame, st.count[s], st.signaling[s], st.log[s], s)
  }

  // ---------------------------------------------------------------- changing one frame

  lemma OutstandingUpdate(frame: seq<Frame>, t: Id, f: Frame, s: Id)
    requires t < |frame|
    ensures Outstanding(frame[t := f], s) == Outstanding(frame, s) - AmountOn(s)(frame[t]) + AmountOn(s)(f)
  {
    SumUpdate(frame, t, f, AmountOn(s));
  }

  lemma OutstandingAtLeast(frame: seq<Frame>, t: Id, s: Id)
    requires t < |frame| && TameFrames(frame, s)
    ensures 0 <= AmountOn(s)(frame[t]) <= Outstanding(frame, s)
  {
    SumAtLeast(frame, t, AmountOn(s));
  }

  /** A change of frame that starts and ends away from s, or stays on the same side of signalling s. */
  lemma TameElsewhere(p: Pc, frame: seq<Frame>, count: int, signaling: bool, lg: Log, s: Id, t: Id, f: Frame)
    requires Tame(p, frame, count, signaling, lg, s) && t < |frame|
    requires (!On(frame[t], s) && !On(f, s)) || (SignalsOn(frame[t], s) && SignalsOn(f, s) && f.from == frame[t].from)
    ensures Tame(p, frame[t := f], count, signaling, lg, s)
  {
    if lg.tame {
      OutstandingUpdate(frame, t, f, s);
      SignallersSame(frame, t, f, s);
    }
  }

  lemma SignallersSame(frame: seq<Frame>, t: Id, f: Frame, s: Id)
    requires t < |frame| && SignalsOn(frame[t], s) == SignalsOn(f, s)
    ensures Signallers(frame[t := f], s) == Signallers(frame, s)
    ensures AtMostOneSignaller(frame, s) ==> AtMostOneSignaller(frame[t := f], s)
  {
    var frame' := frame[t := f];
    if Signallers(frame, s) {
      var a :| 0 <= a < |frame| && SignalsOn(frame[a], s);
      assert SignalsOn(frame'[a], s);
    }
    if Signallers(frame', s) {
      var a :| 0 <= a < |frame'| && SignalsOn(frame'[a], s);
      assert SignalsOn(frame[a], s);
    }
  }

  lemma BudgetAdd(frame: seq<Frame>, lg: Log, count: int, s: Id, t: Id, f: Frame)
    requires Budget(frame, lg, s) && count == lg.init - lg.applied && t < |frame|
    requires frame[t].Add? && frame[t].target == s
    requires f.Idle? || f == SignalLock(s, Direct)
    ensures Budget(frame[t := f], LogAdd(lg, count, frame[t].amount), s)
    ensures 0 < frame[t].amount <= count
  {
    assert TameFrame(frame[t], s);
    OutstandingUpdate(frame, t, f, s);
    OutstandingAtLeast(frame, t, s);
    assert TameFrames(frame[t := f], s);
  }

  lemma TameAdd(p: Pc, frame: seq<Frame>, count: int, signaling: bool, lg: Log, s: Id, t: Id, f: Frame)
    requires Tame(p, frame, count, signaling, lg, s) && t < |frame|
    requires frame[t].Add? && frame[t].target == s
    requires f == (if count - frame[t].amount != 0 then Resume(frame[t].from) else SignalLock(s, frame[t].from))
    ensures Tame(p, frame[t := f], count - frame[t].amount, signaling, LogAdd(lg, count, frame[t].amount), s)
  {
    if lg.tame {
      assert TameFrame(frame[t], s);
      BudgetAdd(frame, lg, count, s, t, f);
      assert !Signallers(frame, s);
      var frame' := frame[t := f];
      forall a | 0 <= a < |frame'| && a != t ensures !SignalsOn(frame'[a], s) {
        assert frame'[a] == frame[a];
      }
      if f.SignalLock? {
        assert SignalsOn(frame'[t], s);
      }
    }
  }

  lemma TameClear(p: Pc, frame: seq<Frame>, count: int, lg: Log, s: Id, t: Id, f: Frame, signaling: bool)
    requires Tame(p, frame, count, signaling, lg, s) && t < |frame|
    requires frame[t].ClearSignaling? && frame[t].target == s && f == Resume(frame[t].from)
    ensures Tame(p, frame[t := f], count, false, lg, s)
  {
    if lg.tame {
      OutstandingUpdate(frame, t, f, s);
      assert TameFrame(frame[t], s);
      assert SignalsOn(frame[t], s);
      var frame' := frame[t := f];
      forall a | 0 <= a < |frame'| ensures !SignalsOn(frame'[a], s) {
        assert a != t ==> frame'[a] == frame[a];
      }
    }
  }

  lemma TameIssue(p: Pc, frame: seq<Frame>, count: int, signaling: bool, lg: Log, s: Id, t: Id, amount: int, code: int)
    requires Tame(p, frame, count, signaling, lg, s) && t < |frame| && frame[t].Idle?
    ensures Tame(p, frame[t := Entry(s, amount, code, Direct)], count, signaling, LogIssue(lg, amount, code), s)
  {
    var f := Entry(s, amount, code, Direct);
    if LogIssue(lg, amount, code).tame {
      OutstandingUpdate(frame, t, f, s);
      SignallersSame(frame, t, f, s);
      assert TameFrames(frame[t := f], s);
    }
  }

  lemma TameBegin(frame: seq<Frame>, c: int, s: Id)
    requires forall a :: 0 <= a < |frame| ==> !On(frame[a], s)
    ensures Tame(FastCheck, frame, c, c != 0, NewLog(c), s)
  {
    SumZero(frame, AmountOn(s));
    forall a | 0 <= a < |frame| ensures TameFrame(frame[a], s) && !SignalsOn(frame[a], s) {
      assert !On(frame[a], s);
    }
  }

  // ---------------------------------------------------------------- every step

  lemma WaitKeepsTame(st: State, t: Id)
    requires Shape(st) && TameOk(st) && CanRun(st, t) && st.frame[t].Idle? && Shape(RunWait(st, t))
    ensures TameOk(RunWait(st, t))
  {
    WaitFlow(st, t);
    var st' := RunWait(st, t);
    forall s | 0 <= s < N(st) && !st'.pc[s].Outside?
      ensures Tame(st'.pc[s], st'.frame, st'.count[s], st'.signaling[s], st'.log[s], s)
    {
      assert Tame(st.pc[s], st.frame, st.count[s], st.signaling[s], st.log[s], s);
    }
  }

  lemma DataFrameKeepsTame(st: State, t: Id)
    requires Shape(st) && TameOk(st) && CanRun(st, t) && (st.frame[t].Add? || st.frame[t].ClearSignaling?)
    requires Shape(RunFrame(st, t))
    ensures TameOk(RunFrame(st, t))
  {
    var st' := RunFrame(st, t);
    var f := st'.frame[t];
    var target := st.frame[t].target;
    forall s | 0 <= s < N(st) && !st'.pc[s].Outside?
      ensures Tame(st'.pc[s], st'.frame, st'.count[s], st'.signaling[s], st'.log[s], s)
    {
      assert Tame(st.pc[s], st.frame, st.count[s], st.signaling[s], st.log[s], s);
      if s != target {
        TameElsewhere(st.pc[s], st.frame, st.count[s], st.signaling[s], st.log[s], s, t, f);
      } else if st.frame[t].Add? {
        TameAdd(st.pc[s], st.frame, st.count[s], st.signaling[s], st.log[s], s, t, f);
      } else {
        TameClear(st.pc[s], st.frame, st.count[s], st.log[s], s, t, f, st.signaling[s]);
      }
    }
  }

  lemma ErrorFrameKeepsTame(st: State, t: Id)
    requires Shape(st) && TameOk(st) && CanRun(st, t) && (st.frame[t].SetStatus? || st.frame[t].Swap?)
    requires Shape(RunFrame(st, t))
    ensures TameOk(RunFrame(st, t))
  {
    var st' := RunFrame(st, t);
    var f := st'.frame[t];
    forall s | 0 <= s < N(st) && !st'.pc[s].Outside?
      ensures Tame(st'.pc[s], st'.frame, st'.count[s], st'.signaling[s], st'.log[s], s)
    {
      assert Tame(st.pc[s], st.frame, st.count[s], st.signaling[s], st.log[s], s);
      if s != f.target {
        TameElsewhere(st.pc[s], st.frame, st.count[s], st.signaling[s], st.log[s], s, t, f);
      } else {
        assert st.log[s].tame ==> TameFrame(st.frame[t], s);
      }
    }
  }

  lemma SignalFrameKeepsTame(st: State, t: Id)
    requires Shape(st) && TameOk(st) && CanRun(st, t)
    requires st.frame[t].SignalLock? || st.frame[t].SignalCond? || st.frame[t].SignalUnlock?
    requires Shape(RunFrame(st, t))
    ensures TameOk(RunFrame(st, t))
  {
    FrameFlow(st, t);
    var st' := RunFrame(st, t);
    var f := st'.frame[t];
    forall s | 0 <= s < N(st) && !st'.pc[s].Outside?
      ensures Tame(st'.pc[s], st'.frame, st'.count[s], st'.signaling[s], st'.log[s], s)
    {
      assert Tame(st.pc[s], st.frame, st.count[s], st.signaling[s], st.log[s], s);
      TameElsewhere(st.pc[s], st.frame, st.count[s], st.signaling[s], st.log[s], s, t, f);
    }
  }

  lemma SweepFrameKeepsTame(st: State, t: Id)
    requires Shape(st) && TameOk(st) && CanRun(st, t) && !st.frame[t].Idle? && !HasTarget(st.frame[t])
    requires Shape(RunFrame(st, t))
    ensures TameOk(RunFrame(st, t))
  {
    var st' := RunFrame(st, t);
    var f := st'.frame[t];
    assert st'.pc == st.pc && st'.count == st.count && st'.signaling == st.signaling;
    forall s | 0 <= s < N(st) && !st'.pc[s].Outside?
      ensures Tame(st'.pc[s], st'.frame, st'.count[s], st'.signaling[s], st'.log[s], s)
    {
      assert Tame(st.pc[s], st.frame, st.count[s], st.signaling[s], st.log[s], s);
      if !On(f, s) {
        TameElsewhere(st.pc[s], st.frame, st.count[s], st.signaling[s], st.log[s], s, t, f);
      }
    }
  }

  lemma StartKeepsTame(st: State, l: Label)
    requires Shape(st) && TameOk(st) && Enabled(st, l) && (l.StartUpdate? || l.StartWakeup?) && Shape(Apply(st, l))
    ensures TameOk(Apply(st, l))
  {
    var st' := Apply(st, l);
    var f := st'.frame[l.t];
    forall s | 0 <= s < N(st) && !st'.pc[s].Outside?
      ensures Tame(st'.pc[s], st'.frame, st'.count[s], st'.signaling[s], st'.log[s], s)
    {
      assert Tame(st.pc[s], st.frame, st.count[s], st.signaling[s], st.log[s], s);
      if l.StartUpdate? && l.target == s {
        TameIssue(st.pc[s], st.frame, st.count[s], st.signaling[s], st.log[s], s, l.t, l.amount, l.error);
      } else {
        TameElsewhere(st.pc[s], st.frame, st.count[s], st.signaling[s], st.log[s], s, l.t, f);
      }
    }
  }

  lemma OtherKeepsTame(st: State, l: Label)
    requires Shape(st) && TameOk(st) && Enabled(st, l) && (l.Begin? || l.Spurious? || l.Release?) && Shape(Apply(st, l))
    ensures TameOk(Apply(st, l))
  {
    var st' := Apply(st, l);
    forall s | 0 <= s < N(st) && !st'.pc[s].Outside?
      ensures Tame(st'.pc[s], st'.frame, st'.count[s], st'.signaling[s], st'.log[s], s)
    {
      if l.Begin? && s == l.t {
        forall a | 0 <= a < N(st) ensures !On(st.frame[a], s) {
          assert FrameInRange(st.pc, st.ring, st.frame[a]);
        }
        TameBegin(st.frame, l.c, s);
      } else {
        assert Tame(st.pc[s], st.frame, st.count[s], st.signaling[s], st.log[s], s);
      }
    }
  }

  lemma FrameKeepsTame(st: State, t: Id)
    requires Shape(st) && TameOk(st) && CanRun(st, t) && !st.frame[t].Idle? && Shape(RunFrame(st, t))
    ensures TameOk(RunFrame(st, t))
  {
    if st.frame[t].Add? || st.frame[t].ClearSignaling? {
      DataFrameKeepsTame(st, t);
    } else if st.frame[t].SetStatus? || st.frame[t].Swap? {
      ErrorFrameKeepsTame(st, t);
    } else if !HasTarget(st.frame[t]) {
      SweepFrameKeepsTame(st, t);
    } else {
      SignalFrameKeepsTame(st, t);
    }
  }

  lemma StepKeepsTame(st: State, l: Label)
    requires Structure(st) && TameOk(st) && Enabled(st, l)
    ensures Shape(Apply(st, l)) && TameOk(Apply(st, l))
  {
    StepKeepsStructure(st, l);
    match l {
      case Run(t) => if st.frame[t].Idle? { WaitKeepsTame(st, t); } else { FrameKeepsTame(st, t); }
      case StartUpdate(_, _, _, _) => StartKeepsTame(st, l);
      case StartWakeup(_, _) => StartKeepsTame(st, l);
      case Begin(_, _) => OtherKeepsTame(st, l);
      case Spurious(_) => OtherKeepsTame(st, l);
      case Release(_) => OtherKeepsTame(st, l);
    }
  }
}
