/** Mutual exclusion, ring membership and the busy counter: what every step of the protocol keeps.

    Each part of the invariant names just the state components it depends on, so that a step is
    checked against only the parts whose components it changes. */
module WaitSyncLocks {
  import opened Base
  import opened WaitSyncModel

  ghost predicate NestingOk(pc: seq<Pc>, frame: seq<Frame>)
    requires |frame| == |pc|
  {
    forall t {:trigger frame[t]} :: 0 <= t < |pc| && !frame[t].Idle? ==> FreePc(pc[t])
  }

  /** The ring holds, once each, exactly the syncs whose waiter is between linking and unlinking. */
  ghost predicate RingOk(pc: seq<Pc>, ring: seq<Id>) {
    && Distinct(ring)
    && (forall i :: 0 <= i < |ring| ==> ring[i] < |pc| && OnRing(pc[ring[i]]))
    && (forall s {:trigger OnRing(pc[s])} :: 0 <= s < |pc| && OnRing(pc[s]) ==> s in ring)
  }

  /** wait_sync_lock is owned by t exactly when t is at a program point inside its critical section. */
  ghost predicate RingLockOk(pc: seq<Pc>, frame: seq<Frame>, owner: Option<Id>)
    requires |frame| == |pc|
  {
    && (forall t {:trigger OwnsRing(pc[t])} :: 0 <= t < |pc| && OwnsRing(pc[t]) ==> owner == Some(t))
    && (forall t :: 0 <= t < |pc| && SweepHolds(frame[t]) ==> owner == Some(t))
    && (owner.Some? ==> owner.value < |pc| && (OwnsRing(pc[owner.value]) || SweepHolds(frame[owner.value])))
  }

  predicate HeadIs(ring: seq<Id>, s: Id) { ring != [] && ring[0] == s }

  /** Thread t is inside a critical section of sync s's lock. */
  ghost predicate Holds(pc: seq<Pc>, frame: seq<Frame>, ring: seq<Id>, t: Id, s: Id)
    requires |frame| == |pc| && t < |pc|
  {
    || (t == s && OwnsLock(pc[t]))
    || (HoldsTarget(frame[t]) && frame[t].target == s)
    || (PassHolds(pc[t]) && HeadIs(ring, s))
  }

  ghost predicate OwnerOk(pc: seq<Pc>, frame: seq<Frame>, ring: seq<Id>, lock: seq<Option<Id>>, s: Id)
    requires |frame| == |pc| == |lock| && s < |pc|
  {
    lock[s].Some? ==> lock[s].value < |pc| && Holds(pc, frame, ring, lock[s].value, s)
  }

  /** Each sync->lock is owned by t exactly when t is inside a critical section of it. */
  ghost predicate SyncLockOk(pc: seq<Pc>, frame: seq<Frame>, ring: seq<Id>, lock: seq<Option<Id>>)
    requires |frame| == |pc| == |lock|
  {
    && (forall s {:trigger OwnsLock(pc[s])} :: 0 <= s < |pc| && OwnsLock(pc[s]) ==> lock[s] == Some(s))
    && (forall t :: 0 <= t < |pc| && HoldsTarget(frame[t]) ==>
          frame[t].target < |pc| && lock[frame[t].target] == Some(t))
    && (forall t :: 0 <= t < |pc| && PassHolds(pc[t]) ==>
          ring != [] && ring[0] < |pc| && lock[ring[0]] == Some(t))
    && (forall s {:trigger OwnerOk(pc, frame, ring, lock, s)} :: 0 <= s < |pc| ==> OwnerOk(pc, frame, ring, lock, s))
  }

  /** Duties are passed on only while there is a head to pass them to. */
  ghost predicate PassOk(pc: seq<Pc>, ring: seq<Id>) {
    forall t :: 0 <= t < |pc| && pc[t].PassLock? ==> ring != []
  }

  function InProgress(p: Pc): int { if Counted(p) then 1 else 0 }

  ghost predicate BusyOk(pc: seq<Pc>, busy: int) { busy == Sum(pc, InProgress) }

  ghost predicate Structure(st: State) {
    && Shape(st)
    && NestingOk(st.pc, st.frame)
    && RingOk(st.pc, st.ring)
    && RingLockOk(st.pc, st.frame, st.ringLock)
    && SyncLockOk(st.pc, st.frame, st.ring, st.lock)
    && PassOk(st.pc, st.ring)
    && BusyOk(st.pc, st.busy)
  }

  // ---------------------------------------------------------------- one program point changes

  lemma PcRange(pc: seq<Pc>, frame: seq<Frame>, ring: seq<Id>, t: Id, p: Pc)
    requires FramesInRange(pc, frame, ring) && t < |pc| && !p.Outside?
    ensures FramesInRange(pc[t := p], frame, ring)
  {}

  lemma PcRing(pc: seq<Pc>, ring: seq<Id>, t: Id, p: Pc)
    requires RingOk(pc, ring) && t < |pc| && OnRing(p) == OnRing(pc[t])
    ensures RingOk(pc[t := p], ring)
  {}

  lemma PcRingLock(pc: seq<Pc>, frame: seq<Frame>, owner: Option<Id>, t: Id, p: Pc)
    requires |frame| == |pc| && RingLockOk(pc, frame, owner) && t < |pc| && OwnsRing(p) == OwnsRing(pc[t])
    ensures RingLockOk(pc[t := p], frame, owner)
  {}

  lemma PcSyncLock(pc: seq<Pc>, frame: seq<Frame>, ring: seq<Id>, lock: seq<Option<Id>>, t: Id, p: Pc)
    requires |frame| == |pc| == |lock| && SyncLockOk(pc, frame, ring, lock) && t < |pc|
    requires OwnsLock(p) == OwnsLock(pc[t]) && PassHolds(p) == PassHolds(pc[t])
    ensures SyncLockOk(pc[t := p], frame, ring, lock)
  {
    var pc' := pc[t := p];
    forall x | 0 <= x < |pc| ensures OwnerOk(pc', frame, ring, lock, x) {
      assert OwnerOk(pc, frame, ring, lock, x);
    }
  }

  lemma PcNesting(pc: seq<Pc>, frame: seq<Frame>, ring: seq<Id>, t: Id, p: Pc)
    requires |frame| == |pc| && NestingOk(pc, frame) && PassOk(pc, ring) && t < |pc|
    requires frame[t].Idle? || FreePc(p)
    requires p.PassLock? ==> ring != []
    ensures NestingOk(pc[t := p], frame) && PassOk(pc[t := p], ring)
  {}

  lemma PcBusy(pc: seq<Pc>, busy: int, t: Id, p: Pc)
    requires BusyOk(pc, busy) && t < |pc|
    ensures BusyOk(pc[t := p], busy - InProgress(pc[t]) + InProgress(p))
  {
    SumUpdate(pc, t, p, InProgress);
  }

  // ---------------------------------------------------------------- one lock changes hands

  lemma OwnTaken(pc: seq<Pc>, frame: seq<Frame>, ring: seq<Id>, lock: seq<Option<Id>>, t: Id, p: Pc)
    requires |frame| == |pc| == |lock| && SyncLockOk(pc, frame, ring, lock) && t < |pc|
    requires lock[t].None? && OwnsLock(p) && !PassHolds(p) && !PassHolds(pc[t])
    ensures SyncLockOk(pc[t := p], frame, ring, lock[t := Some(t)])
  {
    var pc', lock' := pc[t := p], lock[t := Some(t)];
    forall x | 0 <= x < |pc| ensures OwnerOk(pc', frame, ring, lock', x) {
      assert OwnerOk(pc, frame, ring, lock, x);
    }
  }

  lemma OwnDropped(pc: seq<Pc>, frame: seq<Frame>, ring: seq<Id>, lock: seq<Option<Id>>, t: Id, p: Pc)
    requires |frame| == |pc| == |lock| && SyncLockOk(pc, frame, ring, lock) && t < |pc|
    requires OwnsLock(pc[t]) && !OwnsLock(p) && !PassHolds(p) && !PassHolds(pc[t]) && !HoldsTarget(frame[t])
    ensures SyncLockOk(pc[t := p], frame, ring, lock[t := None])
  {
    var pc', lock' := pc[t := p], lock[t := None];
    forall x | 0 <= x < |pc| ensures OwnerOk(pc', frame, ring, lock', x) {
      assert OwnerOk(pc, frame, ring, lock, x);
    }
  }

  lemma HeadTaken(pc: seq<Pc>, frame: seq<Frame>, ring: seq<Id>, lock: seq<Option<Id>>, t: Id)
    requires |frame| == |pc| == |lock| && SyncLockOk(pc, frame, ring, lock) && t < |pc| && pc[t].PassLock?
    requires ring != [] && ring[0] < |pc| && lock[ring[0]].None?
    ensures SyncLockOk(pc[t := PassSignal], frame, ring, lock[ring[0] := Some(t)])
  {
    var pc', lock' := pc[t := PassSignal], lock[ring[0] := Some(t)];
    forall x | 0 <= x < |pc| ensures OwnerOk(pc', frame, ring, lock', x) {
      assert OwnerOk(pc, frame, ring, lock, x);
    }
  }

  lemma HeadDropped(pc: seq<Pc>, frame: seq<Frame>, ring: seq<Id>, lock: seq<Option<Id>>, t: Id)
    requires |frame| == |pc| == |lock| && SyncLockOk(pc, frame, ring, lock) && t < |pc| && pc[t].PassUnlock?
    requires ring != [] && ring[0] < |pc| && !HoldsTarget(frame[t])
    ensures SyncLockOk(pc[t := ReleaseTrim], frame, ring, lock[ring[0] := None])
  {
    var pc', lock' := pc[t := ReleaseTrim], lock[ring[0] := None];
    forall x | 0 <= x < |pc| ensures OwnerOk(pc', frame, ring, lock', x) {
      assert OwnerOk(pc, frame, ring, lock, x);
    }
  }

  lemma TargetTaken(pc: seq<Pc>, frame: seq<Frame>, ring: seq<Id>, lock: seq<Option<Id>>, t: Id, s: Id, f: Frame)
    requires |frame| == |pc| == |lock| && SyncLockOk(pc, frame, ring, lock) && t < |pc| && s < |pc|
    requires lock[s].None? && !HoldsTarget(frame[t]) && HoldsTarget(f) && f.target == s
    ensures SyncLockOk(pc, frame[t := f], ring, lock[s := Some(t)])
  {
    var frame', lock' := frame[t := f], lock[s := Some(t)];
    forall x | 0 <= x < |pc| ensures OwnerOk(pc, frame', ring, lock', x) {
      assert OwnerOk(pc, frame, ring, lock, x);
    }
  }

  lemma TargetDropped(pc: seq<Pc>, frame: seq<Frame>, ring: seq<Id>, lock: seq<Option<Id>>, t: Id, f: Frame)
    requires |frame| == |pc| == |lock| && SyncLockOk(pc, frame, ring, lock) && t < |pc|
    requires HoldsTarget(frame[t]) && !HoldsTarget(f) && FreePc(pc[t])
    ensures SyncLockOk(pc, frame[t := f], ring, lock[frame[t].target := None])
  {
    var frame', lock' := frame[t := f], lock[frame[t].target := None];
    forall x | 0 <= x < |pc| ensures OwnerOk(pc, frame', ring, lock', x) {
      assert OwnerOk(pc, frame, ring, lock, x);
    }
  }

  lemma RingLockTaken(pc: seq<Pc>, frame: seq<Frame>, t: Id, p: Pc, f: Frame)
    requires |frame| == |pc| && RingLockOk(pc, frame, None) && t < |pc| && (OwnsRing(p) || SweepHolds(f))
    ensures RingLockOk(pc[t := p], frame[t := f], Some(t))
  {}

  lemma RingLockDropped(pc: seq<Pc>, frame: seq<Frame>, t: Id, p: Pc, f: Frame)
    requires |frame| == |pc| && RingLockOk(pc, frame, Some(t)) && t < |pc| && !OwnsRing(p) && !SweepHolds(f)
    ensures RingLockOk(pc[t := p], frame[t := f], None)
  {}

  // ---------------------------------------------------------------- one frame changes

  lemma FrameRingLock(pc: seq<Pc>, frame: seq<Frame>, owner: Option<Id>, t: Id, f: Frame)
    requires |frame| == |pc| && RingLockOk(pc, frame, owner) && t < |pc| && SweepHolds(f) == SweepHolds(frame[t])
    ensures RingLockOk(pc, frame[t := f], owner)
  {}

  lemma FrameSyncLock(pc: seq<Pc>, frame: seq<Frame>, ring: seq<Id>, lock: seq<Option<Id>>, t: Id, f: Frame)
    requires |frame| == |pc| == |lock| && SyncLockOk(pc, frame, ring, lock) && t < |pc|
    requires HoldsTarget(f) == HoldsTarget(frame[t]) && (HoldsTarget(f) ==> f.target == frame[t].target)
    ensures SyncLockOk(pc, frame[t := f], ring, lock)
  {
    var frame' := frame[t := f];
    forall x | 0 <= x < |pc| ensures OwnerOk(pc, frame', ring, lock, x) {
      assert OwnerOk(pc, frame, ring, lock, x);
    }
  }

  // ---------------------------------------------------------------- the ring changes

  /** Whoever changes the ring holds wait_sync_lock: no traversal and no handover is under way. */
  lemma SoleOwner(pc: seq<Pc>, frame: seq<Frame>, owner: Option<Id>, t: Id)
    requires |frame| == |pc| && RingLockOk(pc, frame, owner) && t < |pc| && OwnsRing(pc[t]) && frame[t].Idle?
    ensures forall u :: 0 <= u < |pc| ==> !SweepHolds(frame[u])
    ensures forall u :: 0 <= u < |pc| && u != t ==> !OwnsRing(pc[u])
  {}

  lemma RingLinked(pc: seq<Pc>, ring: seq<Id>, t: Id, p: Pc)
    requires RingOk(pc, ring) && t < |pc| && !OnRing(pc[t]) && OnRing(p)
    ensures RingOk(pc[t := p], ring + [t])
  {
    assert forall i :: 0 <= i < |ring| ==> ring[i] != t;
    var ring', pc' := ring + [t], pc[t := p];
    forall s | 0 <= s < |pc'| && OnRing(pc'[s]) ensures s in ring' {
      assert s == t ==> ring'[|ring|] == t;
    }
  }

  lemma RingUnlinked(pc: seq<Pc>, ring: seq<Id>, t: Id, p: Pc)
    requires RingOk(pc, ring) && t < |pc| && OnRing(pc[t]) && !OnRing(p)
    ensures RingOk(pc[t := p], Without(ring, t))
  {
    WithoutDistinct(ring, t);
    var ring', pc' := Without(ring, t), pc[t := p];
    forall i | 0 <= i < |ring'| ensures ring'[i] < |pc'| && OnRing(pc'[ring'[i]]) {
      assert ring'[i] in ring && ring'[i] != t;
    }
  }

  lemma SyncLockRing(pc: seq<Pc>, frame: seq<Frame>, ring: seq<Id>, ring': seq<Id>, lock: seq<Option<Id>>, t: Id, p: Pc)
    requires |frame| == |pc| == |lock| && SyncLockOk(pc, frame, ring, lock) && t < |pc|
    requires OwnsLock(p) == OwnsLock(pc[t]) && !PassHolds(p)
    requires forall u :: 0 <= u < |pc| ==> !PassHolds(pc[u])
    ensures SyncLockOk(pc[t := p], frame, ring', lock)
  {
    var pc' := pc[t := p];
    forall x | 0 <= x < |pc| ensures OwnerOk(pc', frame, ring', lock, x) {
      assert OwnerOk(pc, frame, ring, lock, x);
    }
  }

  lemma RangeRing(pc: seq<Pc>, frame: seq<Frame>, ring: seq<Id>, ring': seq<Id>)
    requires FramesInRange(pc, frame, ring)
    requires forall u :: 0 <= u < |pc| ==> !SweepHolds(frame[u])
    ensures FramesInRange(pc, frame, ring')
  {}

  // ---------------------------------------------------------------- steps of the wait

  /** Program points that agree on everything `Structure` looks at. */
  predicate SameRole(p: Pc, q: Pc) {
    && OwnsLock(p) == OwnsLock(q) && OwnsRing(p) == OwnsRing(q) && PassHolds(p) == PassHolds(q)
    && OnRing(p) == OnRing(q) && Counted(p) == Counted(q)
  }

  lemma MoveKeeps(st: State, t: Id, p: Pc)
    requires Structure(st) && t < N(st) && SameRole(st.pc[t], p)
    requires !p.Outside? && !p.PassLock? && (st.frame[t].Idle? || FreePc(p))
    ensures Structure(Move(st, t, p))
  {
    PcRange(st.pc, st.frame, st.ring, t, p);
    PcNesting(st.pc, st.frame, st.ring, t, p);
    PcRing(st.pc, st.ring, t, p);
    PcRingLock(st.pc, st.frame, st.ringLock, t, p);
    PcSyncLock(st.pc, st.frame, st.ring, st.lock, t, p);
    PcBusy(st.pc, st.busy, t, p);
  }

  /** Transitions of the wait, a wakeup and a release that touch neither lock, ring nor counter. */
  predicate QuietStep(p: Pc, q: Pc) {
    match p
    case FastCheck => q == ReadStatus || q == AcquireOwn
    case RecheckLocked => q == BailOut || q == AcquireRing
    case ReadHead => q == ReleaseOwn || q == ReadBusy
    case ReadBusy => q == EnterSleep || q == ReleaseOwn
    case Asleep => q == Waking
    case CheckDone => q == LeaveLocked || q == ReadHead
    case LoopTest => q == Progress || q == CountOut
    case Progress => q == LoopTest
    case PassSignal => q == PassUnlock
    case ReadStatus => q.Returned?
    case Returned(_) => q.Released?
    case _ => false
  }

  lemma QuietRole(p: Pc, q: Pc)
    requires QuietStep(p, q)
    ensures SameRole(p, q) && !q.Outside? && !q.PassLock?
  {
    match p {
      case FastCheck | RecheckLocked | ReadHead | ReadBusy =>
      case Asleep | CheckDone | LoopTest | Progress =>
      case PassSignal | ReadStatus | Returned(_) =>
    }
  }

  lemma QuietKeeps(st: State, t: Id, p: Pc)
    requires Structure(st) && t < N(st) && QuietStep(st.pc[t], p) && (st.frame[t].Idle? || FreePc(p))
    ensures Structure(Move(st, t, p))
  {
    QuietRole(st.pc[t], p);
    MoveKeeps(st, t, p);
  }

  lemma WakeKeeps(st: State, s: Id)
    requires Structure(st) && s < N(st)
    ensures Structure(Wake(st, s))
  {
    if st.pc[s].Asleep? {
      assert st.frame[s].Idle?;
      QuietKeeps(st, s, Waking);
    }
  }

  lemma TakeOwnKeeps(st: State, t: Id)
    requires Structure(st) && CanRun(st, t) && st.frame[t].Idle? && (st.pc[t].AcquireOwn? || st.pc[t].Waking?)
    ensures Structure(RunWait(st, t))
  {
    var p := if st.pc[t].AcquireOwn? then RecheckLocked else CheckDone;
    PcRange(st.pc, st.frame, st.ring, t, p);
    PcNesting(st.pc, st.frame, st.ring, t, p);
    PcRing(st.pc, st.ring, t, p);
    PcRingLock(st.pc, st.frame, st.ringLock, t, p);
    OwnTaken(st.pc, st.frame, st.ring, st.lock, t, p);
    PcBusy(st.pc, st.busy, t, p);
  }

  /** From p to q a waiter gives up its own lock and stays in every other role. */
  predicate GivesUpOwn(p: Pc, q: Pc) {
    && OwnsLock(p) && !OwnsLock(q) && !PassHolds(p) && !PassHolds(q) && !q.Outside? && !q.PassLock?
    && OwnsRing(p) == OwnsRing(q) && OnRing(p) == OnRing(q) && Counted(p) == Counted(q)
  }

  lemma DropOwnKeeps(st: State, t: Id, p: Pc)
    requires Structure(st) && t < N(st) && st.frame[t].Idle? && GivesUpOwn(st.pc[t], p)
    ensures Structure(SetLock(Move(st, t, p), t, None))
  {
    PcRange(st.pc, st.frame, st.ring, t, p);
    PcNesting(st.pc, st.frame, st.ring, t, p);
    PcRing(st.pc, st.ring, t, p);
    PcRingLock(st.pc, st.frame, st.ringLock, t, p);
    OwnDropped(st.pc, st.frame, st.ring, st.lock, t, p);
    PcBusy(st.pc, st.busy, t, p);
  }

  /** wait_sync_lock changes hands as thread t moves to p, which is otherwise in the same role. */
  lemma RingHandKeeps(st: State, t: Id, p: Pc, owner: Option<Id>)
    requires Structure(st) && t < N(st) && st.frame[t].Idle? && !p.Outside? && !p.PassLock?
    requires OwnsLock(p) == OwnsLock(st.pc[t]) && PassHolds(p) == PassHolds(st.pc[t])
    requires OnRing(p) == OnRing(st.pc[t]) && Counted(p) == Counted(st.pc[t])
    requires RingLockOk(st.pc[t := p], st.frame, owner)
    ensures Structure(Move(st, t, p).(ringLock := owner))
  {
    PcRange(st.pc, st.frame, st.ring, t, p);
    PcNesting(st.pc, st.frame, st.ring, t, p);
    PcRing(st.pc, st.ring, t, p);
    PcSyncLock(st.pc, st.frame, st.ring, st.lock, t, p);
    PcBusy(st.pc, st.busy, t, p);
  }

  lemma TakeRingKeeps(st: State, t: Id, p: Pc)
    requires Structure(st) && t < N(st) && st.frame[t].Idle? && st.ringLock == None
    requires (st.pc[t].AcquireRing? && p == Link) || (st.pc[t].AcquireTrim? && p == Unlink)
    ensures Structure(Move(st, t, p).(ringLock := Some(t)))
  {
    assert st.frame[t := Idle] == st.frame;
    RingLockTaken(st.pc, st.frame, t, p, Idle);
    RingHandKeeps(st, t, p, Some(t));
  }

  lemma DropRingKeeps(st: State, t: Id, p: Pc)
    requires Structure(st) && t < N(st) && st.frame[t].Idle?
    requires (st.pc[t].ReleaseRing? && p == ReadHead) || (st.pc[t].ReleaseTrim? && p == ReadStatus)
    ensures Structure(Move(st, t, p).(ringLock := None))
  {
    assert st.frame[t := Idle] == st.frame;
    assert OwnsRing(st.pc[t]) && st.ringLock == Some(t);
    RingLockDropped(st.pc, st.frame, t, p, Idle);
    RingHandKeeps(st, t, p, None);
  }

  lemma CountKeeps(st: State, t: Id)
    requires Structure(st) && CanRun(st, t) && st.frame[t].Idle? && (st.pc[t].CountIn? || st.pc[t].CountOut?)
    ensures Structure(RunWait(st, t))
  {
    var p := if st.pc[t].CountIn? then LoopTest else AcquireTrim;
    PcRange(st.pc, st.frame, st.ring, t, p);
    PcNesting(st.pc, st.frame, st.ring, t, p);
    PcRing(st.pc, st.ring, t, p);
    PcRingLock(st.pc, st.frame, st.ringLock, t, p);
    PcSyncLock(st.pc, st.frame, st.ring, st.lock, t, p);
    PcBusy(st.pc, st.busy, t, p);
  }

  lemma LinkKeeps(st: State, t: Id)
    requires Structure(st) && t < N(st) && st.frame[t].Idle? && st.pc[t].Link?
    ensures Structure(RunWait(st, t))
  {
    SoleOwner(st.pc, st.frame, st.ringLock, t);
    RangeRing(st.pc, st.frame, st.ring, st.ring + [t]);
    PcRange(st.pc, st.frame, st.ring + [t], t, ReleaseRing);
    RingLinked(st.pc, st.ring, t, ReleaseRing);
    PcRingLock(st.pc, st.frame, st.ringLock, t, ReleaseRing);
    SyncLockRing(st.pc, st.frame, st.ring, st.ring + [t], st.lock, t, ReleaseRing);
    PcBusy(st.pc, st.busy, t, ReleaseRing);
  }

  lemma UnlinkKeeps(st: State, t: Id)
    requires Structure(st) && t < N(st) && st.frame[t].Idle? && st.pc[t].Unlink?
    ensures Structure(RunWait(st, t))
  {
    var st' := RunWait(st, t);
    var p := st'.pc[t];
    SoleOwner(st.pc, st.frame, st.ringLock, t);
    RangeRing(st.pc, st.frame, st.ring, st'.ring);
    PcRange(st.pc, st.frame, st'.ring, t, p);
    RingUnlinked(st.pc, st.ring, t, p);
    PcRingLock(st.pc, st.frame, st.ringLock, t, p);
    SyncLockRing(st.pc, st.frame, st.ring, st'.ring, st.lock, t, p);
    PcBusy(st.pc, st.busy, t, p);
  }

  lemma HandoverKeeps(st: State, t: Id)
    requires Structure(st) && CanRun(st, t) && st.frame[t].Idle? && (st.pc[t].PassLock? || st.pc[t].PassUnlock?)
    ensures Structure(RunWait(st, t))
  {
    var p := if st.pc[t].PassLock? then PassSignal else ReleaseTrim;
    PcRange(st.pc, st.frame, st.ring, t, p);
    PcNesting(st.pc, st.frame, st.ring, t, p);
    PcRing(st.pc, st.ring, t, p);
    PcRingLock(st.pc, st.frame, st.ringLock, t, p);
    PcBusy(st.pc, st.busy, t, p);
    if st.pc[t].PassLock? {
      HeadTaken(st.pc, st.frame, st.ring, st.lock, t);
    } else {
      HeadDropped(st.pc, st.frame, st.ring, st.lock, t);
    }
  }

  lemma PassSignalKeeps(st: State, t: Id, h: Id)
    requires Structure(st) && t < N(st) && st.frame[t].Idle? && st.pc[t].PassSignal? && h < N(st) && h != t
    ensures Structure(Move(Wake(st, h), t, PassUnlock))
  {
    WakeKeeps(st, h);
    QuietKeeps(Wake(st, h), t, PassUnlock);
  }

  lemma BailOutKeeps(st: State, t: Id)
    requires Structure(st) && t < N(st) && st.frame[t].Idle? && st.pc[t].BailOut?
    ensures Structure(RunWait(st, t))
  {
    DropOwnKeeps(st, t, ReadStatus);
  }

  lemma EnterSleepKeeps(st: State, t: Id)
    requires Structure(st) && t < N(st) && st.frame[t].Idle? && st.pc[t].EnterSleep?
    ensures Structure(RunWait(st, t))
  {
    DropOwnKeeps(st, t, Asleep);
  }

  lemma LeaveLockedKeeps(st: State, t: Id)
    requires Structure(st) && t < N(st) && st.frame[t].Idle? && st.pc[t].LeaveLocked?
    ensures Structure(RunWait(st, t))
  {
    DropOwnKeeps(st, t, AcquireTrim);
  }

  lemma ReleaseOwnKeeps(st: State, t: Id)
    requires Structure(st) && t < N(st) && st.frame[t].Idle? && st.pc[t].ReleaseOwn?
    ensures Structure(RunWait(st, t))
  {
    DropOwnKeeps(st, t, CountIn);
  }

  lemma AcquireRingKeeps(st: State, t: Id)
    requires Structure(st) && t < N(st) && st.frame[t].Idle? && st.pc[t].AcquireRing? && st.ringLock == None
    ensures Structure(RunWait(st, t))
  {
    TakeRingKeeps(st, t, Link);
  }

  lemma AcquireTrimKeeps(st: State, t: Id)
    requires Structure(st) && t < N(st) && st.frame[t].Idle? && st.pc[t].AcquireTrim? && st.ringLock == None
    ensures Structure(RunWait(st, t))
  {
    TakeRingKeeps(st, t, Unlink);
  }

  lemma ReleaseRingKeeps(st: State, t: Id)
    requires Structure(st) && t < N(st) && st.frame[t].Idle? && st.pc[t].ReleaseRing?
    ensures Structure(RunWait(st, t))
  {
    DropRingKeeps(st, t, ReadHead);
  }

  lemma ReleaseTrimKeeps(st: State, t: Id)
    requires Structure(st) && t < N(st) && st.frame[t].Idle? && st.pc[t].ReleaseTrim?
    ensures Structure(RunWait(st, t))
  {
    DropRingKeeps(st, t, ReadStatus);
  }

  lemma WaitKeeps(st: State, t: Id)
    requires Structure(st) && CanRun(st, t) && st.frame[t].Idle?
    ensures Structure(RunWait(st, t))
  {
    match st.pc[t] {
      case AcquireOwn | Waking => TakeOwnKeeps(st, t);
      case BailOut => BailOutKeeps(st, t);
      case EnterSleep => EnterSleepKeeps(st, t);
      case LeaveLocked => LeaveLockedKeeps(st, t);
      case ReleaseOwn => ReleaseOwnKeeps(st, t);
      case AcquireRing => AcquireRingKeeps(st, t);
      case AcquireTrim => AcquireTrimKeeps(st, t);
      case ReleaseRing => ReleaseRingKeeps(st, t);
      case ReleaseTrim => ReleaseTrimKeeps(st, t);
      case CountIn | CountOut => CountKeeps(st, t);
      case Link => LinkKeeps(st, t);
      case Unlink => UnlinkKeeps(st, t);
      case PassLock | PassUnlock => HandoverKeeps(st, t);
      case PassSignal => PassSignalKeeps(st, t, st.ring[0]);
      case FastCheck | RecheckLocked | ReadHead | ReadBusy | CheckDone | LoopTest | Progress | ReadStatus =>
        QuietKeeps(st, t, RunWait(st, t).pc[t]);
    }
  }

  // ---------------------------------------------------------------- steps of a frame

  /** The frame changes; the locks stay where they are. */
  lemma FrameMoveKeeps(st: State, t: Id, f: Frame)
    requires Structure(st) && t < N(st) && FreePc(st.pc[t]) && FrameInRange(st.pc, st.ring, f)
    requires SweepHolds(f) == SweepHolds(st.frame[t])
    requires HoldsTarget(f) == HoldsTarget(st.frame[t]) && (HoldsTarget(f) ==> f.target == st.frame[t].target)
    ensures Structure(Step(st, t, f))
  {
    FrameRingLock(st.pc, st.frame, st.ringLock, t, f);
    FrameSyncLock(st.pc, st.frame, st.ring, st.lock, t, f);
  }

  /** Steps of a frame that touch no lock and wake nobody: history and data fields may change. */
  lemma QuietFrameKeeps(st: State, t: Id)
    requires Structure(st) && CanRun(st, t)
    requires st.frame[t].Add? || st.frame[t].SetStatus? || st.frame[t].Swap? || st.frame[t].ClearSignaling?
    ensures Structure(RunFrame(st, t))
  {
    var f := RunFrame(st, t).frame[t];
    FrameMoveKeeps(st, t, f);
  }

  lemma VisitKeeps(st: State, t: Id, code: int, k: nat)
    requires Structure(st) && t < N(st) && (st.frame[t].SweepHead? || st.frame[t].SweepNext?) && k < |st.ring|
    ensures Structure(Visit(st, t, code, k))
  {
    assert OnRing(st.pc[st.ring[k]]);
    FrameMoveKeeps(st, t, Entry(st.ring[k], 0, code, Sweep(code, k)));
  }

  lemma TurnEndsKeeps(st: State, t: Id, code: int)
    requires Structure(st) && t < N(st) && (st.frame[t].SweepHead? || st.frame[t].SweepNext?)
    ensures Structure(Step(st, t, SweepUnlock(code)))
  {
    FrameMoveKeeps(st, t, SweepUnlock(code));
  }

  lemma SweepHeadKeeps(st: State, t: Id)
    requires Structure(st) && t < N(st) && st.frame[t].SweepHead?
    ensures Structure(RunFrame(st, t))
  {
    if st.ring == [] { TurnEndsKeeps(st, t, st.frame[t].code); } else { VisitKeeps(st, t, st.frame[t].code, 0); }
  }

  lemma SweepNextKeeps(st: State, t: Id)
    requires Structure(st) && t < N(st) && st.frame[t].SweepNext?
    ensures Structure(RunFrame(st, t))
  {
    var code, k := st.frame[t].code, st.frame[t].index;
    if k + 1 == |st.ring| { TurnEndsKeeps(st, t, code); } else { VisitKeeps(st, t, code, k + 1); }
  }

  lemma SignalCondKeeps(st: State, t: Id)
    requires Structure(st) && CanRun(st, t) && st.frame[t].SignalCond?
    ensures Structure(RunFrame(st, t))
  {
    var f := SignalUnlock(st.frame[t].target, st.frame[t].from);
    FrameMoveKeeps(st, t, f);
    WakeKeeps(Step(st, t, f), f.target);
  }

  lemma SignalLockKeeps(st: State, t: Id)
    requires Structure(st) && CanRun(st, t) && st.frame[t].SignalLock?
    ensures Structure(RunFrame(st, t))
  {
    var f := RunFrame(st, t).frame[t];
    FrameRingLock(st.pc, st.frame, st.ringLock, t, f);
    TargetTaken(st.pc, st.frame, st.ring, st.lock, t, f.target, f);
  }

  lemma SignalUnlockKeeps(st: State, t: Id)
    requires Structure(st) && CanRun(st, t) && st.frame[t].SignalUnlock?
    ensures Structure(RunFrame(st, t))
  {
    var f := RunFrame(st, t).frame[t];
    FrameRingLock(st.pc, st.frame, st.ringLock, t, f);
    TargetDropped(st.pc, st.frame, st.ring, st.lock, t, f);
  }

  lemma SweepLockKeeps(st: State, t: Id)
    requires Structure(st) && CanRun(st, t) && (st.frame[t].SweepLock? || st.frame[t].SweepUnlock?)
    ensures Structure(RunFrame(st, t))
  {
    var f := RunFrame(st, t).frame[t];
    assert st.pc[t := st.pc[t]] == st.pc;
    FrameSyncLock(st.pc, st.frame, st.ring, st.lock, t, f);
    if st.frame[t].SweepLock? {
      RingLockTaken(st.pc, st.frame, t, st.pc[t], f);
    } else {
      RingLockDropped(st.pc, st.frame, t, st.pc[t], f);
    }
  }

  lemma FrameKeeps(st: State, t: Id)
    requires Structure(st) && CanRun(st, t) && !st.frame[t].Idle?
    ensures Structure(RunFrame(st, t))
  {
    match st.frame[t] {
      case SignalLock(_, _) => SignalLockKeeps(st, t);
      case SignalCond(_, _) => SignalCondKeeps(st, t);
      case SignalUnlock(_, _) => SignalUnlockKeeps(st, t);
      case SweepLock(_) => SweepLockKeeps(st, t);
      case SweepUnlock(_) => SweepLockKeeps(st, t);
      case SweepHead(_) => SweepHeadKeeps(st, t);
      case SweepNext(_, _) => SweepNextKeeps(st, t);
      case Add(_, _, _) => QuietFrameKeeps(st, t);
      case SetStatus(_, _, _) => QuietFrameKeeps(st, t);
      case Swap(_, _) => QuietFrameKeeps(st, t);
      case ClearSignaling(_, _) => QuietFrameKeeps(st, t);
    }
  }

  // ---------------------------------------------------------------- every step

  lemma BeginKeeps(st: State, t: Id, c: int)
    requires Structure(st) && Enabled(st, Begin(t, c))
    ensures Structure(Apply(st, Begin(t, c)))
  {
    MoveKeeps(st, t, FastCheck);
    assert OwnerOk(st.pc, st.frame, st.ring, st.lock, t);
    assert st.frame[t].Idle? && st.lock[t].None?;
    assert st.lock[t := None] == st.lock;
  }

  lemma StartKeeps(st: State, l: Label)
    requires Structure(st) && Enabled(st, l) && (l.StartUpdate? || l.StartWakeup?)
    ensures Structure(Apply(st, l))
  {
    FrameMoveKeeps(st, l.t, if l.StartWakeup? then SweepLock(l.code) else Entry(l.target, l.amount, l.error, Direct));
  }

  /** Every step keeps the structure. */
  lemma StepKeepsStructure(st: State, l: Label)
    requires Structure(st) && Enabled(st, l)
    ensures Structure(Apply(st, l))
  {
    match l {
      case Run(t) => if st.frame[t].Idle? { WaitKeeps(st, t); } else { FrameKeeps(st, t); }
      case Begin(t, c) => BeginKeeps(st, t, c);
      case StartUpdate(_, _, _, _) => StartKeeps(st, l);
      case StartWakeup(_, _) => StartKeeps(st, l);
      case Spurious(t) => WakeKeeps(st, t);
      case Release(t) => QuietKeeps(st, t, Released(st.pc[t].outcome));
    }
  }

  lemma InitStructure(st: State)
    requires Init(st)
    ensures Structure(st)
  {
    SumZero(st.pc, InProgress);
  }
}
