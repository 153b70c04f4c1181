/** The progress manager: ring order, and why the head's waiter is never left asleep. */
module WaitSyncManager {
  import opened Base
  import opened WaitSyncModel
  import opened WaitSyncFlow
  import opened WaitSyncLocks

  // ---------------------------------------------------------------- insertion order

  /** Program points after the unlinking. */
  predicate Past(p: Pc) {
    p.PassLock? || p.PassSignal? || p.PassUnlock? || p.ReleaseTrim? || p.ReadStatus? || p.Returned? || p.Released?
  }

  ghost predicate GoneOk(pc: seq<Pc>, gone: set<Id>) {
    forall s :: s in gone ==> s < |pc| && Past(pc[s])
  }

  /** The ring is the sequence of linked and not yet unlinked syncs in order of linking. */
  ghost predicate OrderOk(st: State) {
    st.ring == Remaining(st.arrivals, st.gone) && GoneOk(st.pc, st.gone)
  }

  lemma GoneKept(pc: seq<Pc>, pc': seq<Pc>, gone: set<Id>, t: Id)
    requires GoneOk(pc, gone) && t < |pc| && OthersStay(pc, pc', t) && (Past(pc[t]) ==> Past(pc'[t]))
    ensures GoneOk(pc', gone)
  {}

  lemma WaitKeepsOrder(st: State, t: Id)
    requires Shape(st) && OrderOk(st) && CanRun(st, t) && st.frame[t].Idle?
    ensures OrderOk(RunWait(st, t))
  {
    var st' := RunWait(st, t);
    WaitFlow(st, t);
    GoneKept(st.pc, st'.pc, st.gone, t);
    if st.pc[t].Link? {
      RemainingAppend(st.arrivals, st.gone, t);
    } else if st.pc[t].Unlink? {
      RemainingRemove(st.arrivals, st.gone, t);
    } else {
      assert st'.ring == st.ring && st'.arrivals == st.arrivals && st'.gone == st.gone;
    }
  }

  lemma StepKeepsOrder(st: State, l: Label)
    requires Shape(st) && OrderOk(st) && Enabled(st, l)
    ensures OrderOk(Apply(st, l))
  {
    var st' := Apply(st, l);
    if l.Run? && st.frame[l.t].Idle? {
      WaitKeepsOrder(st, l.t);
    } else if l.Run? {
      FrameFlow(st, l.t);
      GoneKept(st.pc, st'.pc, st.gone, l.t);
    } else {
      GoneKept(st.pc, st'.pc, st.gone, l.t);
    }
  }

  // ---------------------------------------------------------------- the head is awake or about to be woken

  /** The waiter has found, or is about to act on having found, that it is not the head. */
  predicate Stale(p: Pc) { p.ReadBusy? || p.EnterSleep? || p.Asleep? }

  predicate AboutToPass(p: Pc) { p.PassLock? || p.PassSignal? }

  /** If the head's waiter does not know of its promotion, the promoter has not signalled it yet. */
  ghost predicate ManagerOk(pc: seq<Pc>, ring: seq<Id>, owner: Option<Id>) {
    ring != [] && ring[0] < |pc| && Stale(pc[ring[0]]) ==>
      owner.Some? && owner.value < |pc| && AboutToPass(pc[owner.value])
  }

  lemma ManagerKept(pc: seq<Pc>, pc': seq<Pc>, ring: seq<Id>, owner: Option<Id>, t: Id)
    requires ManagerOk(pc, ring, owner) && t < |pc| && OthersStay(pc, pc', t)
    requires HeadIs(ring, t) && Stale(pc'[t]) ==> Stale(pc[t])
    requires owner == Some(t) && AboutToPass(pc[t]) ==> AboutToPass(pc'[t])
    ensures ManagerOk(pc', ring, owner)
  {}

  /** The owner of wait_sync_lock is not handing over, so the head knows its role, whoever owns the lock next. */
  lemma ManagerSettled(pc: seq<Pc>, pc': seq<Pc>, ring: seq<Id>, owner: Option<Id>, owner': Option<Id>, t: Id)
    requires ManagerOk(pc, ring, owner) && t < |pc| && OthersStay(pc, pc', t)
    requires owner.None? || (owner.value < |pc| && !AboutToPass(pc[owner.value]))
    requires !Stale(pc'[t])
    ensures ManagerOk(pc', ring, owner')
  {}

  lemma LinkKeepsManager(st: State, t: Id)
    requires Structure(st) && ManagerOk(st.pc, st.ring, st.ringLock) && t < N(st) && st.pc[t].Link?
    ensures var st' := RunWait(st, t); ManagerOk(st'.pc, st'.ring, st'.ringLock)
  {
    assert OwnsRing(st.pc[t]);
    assert st.ring != [] ==> (st.ring + [t])[0] == st.ring[0];
  }

  lemma UnlinkKeepsManager(st: State, t: Id)
    requires Structure(st) && ManagerOk(st.pc, st.ring, st.ringLock) && t < N(st) && st.pc[t].Unlink?
    ensures var st' := RunWait(st, t); ManagerOk(st'.pc, st'.ring, st'.ringLock)
  {
    assert OwnsRing(st.pc[t]);
    assert st.ring != [] && st.ring[0] != t ==> Without(st.ring, t)[0] == st.ring[0];
  }

  /** When the promoter signals, the head's waiter is not holding its lock, so it hears the signal. */
  lemma PassKeepsManager(st: State, t: Id)
    requires Structure(st) && t < N(st) && st.pc[t].PassSignal?
    ensures var st' := RunWait(st, t); ManagerOk(st'.pc, st'.ring, st'.ringLock)
  {
    var h := st.ring[0];
    assert OnRing(st.pc[h]) && h != t;
    assert !OwnsLock(st.pc[h]);
  }

  /** Acquiring or releasing wait_sync_lock, outside a handover. */
  lemma RingLockKeepsManager(st: State, t: Id)
    requires Structure(st) && ManagerOk(st.pc, st.ring, st.ringLock) && CanRun(st, t) && st.frame[t].Idle?
    requires st.pc[t].AcquireRing? || st.pc[t].AcquireTrim? || st.pc[t].ReleaseRing? || st.pc[t].ReleaseTrim?
    ensures var st' := RunWait(st, t); ManagerOk(st'.pc, st'.ring, st'.ringLock)
  {
    var st' := RunWait(st, t);
    assert OwnsRing(st.pc[t]) ==> st.ringLock == Some(t);
    ManagerSettled(st.pc, st'.pc, st.ring, st.ringLock, st'.ringLock, t);
  }

  lemma WaitKeepsManager(st: State, t: Id)
    requires Structure(st) && ManagerOk(st.pc, st.ring, st.ringLock) && CanRun(st, t) && st.frame[t].Idle?
    ensures var st' := RunWait(st, t); ManagerOk(st'.pc, st'.ring, st'.ringLock)
  {
    var st' := RunWait(st, t);
    match st.pc[t] {
      case Link => LinkKeepsManager(st, t);
      case Unlink => UnlinkKeepsManager(st, t);
      case PassSignal => PassKeepsManager(st, t);
      case AcquireRing | AcquireTrim | ReleaseRing | ReleaseTrim => RingLockKeepsManager(st, t);
      case _ => OtherKeepsManager(st, t);
    }
  }

  lemma OtherKeepsManager(st: State, t: Id)
    requires Shape(st) && ManagerOk(st.pc, st.ring, st.ringLock) && CanRun(st, t) && st.frame[t].Idle?
    requires !(st.pc[t].Link? || st.pc[t].Unlink? || st.pc[t].PassSignal? || st.pc[t].AcquireRing? ||
               st.pc[t].AcquireTrim? || st.pc[t].ReleaseRing? || st.pc[t].ReleaseTrim?)
    ensures var st' := RunWait(st, t); ManagerOk(st'.pc, st'.ring, st'.ringLock)
  {
    WaitFlow(st, t);
    ManagerKept(st.pc, RunWait(st, t).pc, st.ring, st.ringLock, t);
  }

  lemma FrameKeepsManager(st: State, t: Id)
    requires Structure(st) && ManagerOk(st.pc, st.ring, st.ringLock) && CanRun(st, t) && !st.frame[t].Idle?
    ensures var st' := RunFrame(st, t); ManagerOk(st'.pc, st'.ring, st'.ringLock)
  {
    FrameFlow(st, t);
    var st' := RunFrame(st, t);
    if st.frame[t].SweepLock? || st.frame[t].SweepUnlock? {
      ManagerSettled(st.pc, st'.pc, st.ring, st.ringLock, st'.ringLock, t);
    } else {
      ManagerKept(st.pc, st'.pc, st.ring, st.ringLock, t);
    }
  }

  lemma StepKeepsManager(st: State, l: Label)
    requires Structure(st) && ManagerOk(st.pc, st.ring, st.ringLock) && Enabled(st, l)
    ensures var st' := Apply(st, l); ManagerOk(st'.pc, st'.ring, st'.ringLock)
  {
    if l.Run? && st.frame[l.t].Idle? {
      WaitKeepsManager(st, l.t);
    } else if l.Run? {
      FrameKeepsManager(st, l.t);
    } else {
      ManagerKept(st.pc, Apply(st, l).pc, st.ring, st.ringLock, l.t);
    }
  }
}
