/** What one step may change: the control flow of the wait, and the components each step leaves alone. */
module WaitSyncFlow {
  import opened WaitSyncModel

  /** The control-flow graph of `ompi_sync_wait_mt` with the tests on its edges. */
  predicate Flow(p: Pc, q: Pc, count: int, status: int) {
    match p
    case FastCheck => if count <= 0 then q.ReadStatus? else q.AcquireOwn?
    case AcquireOwn => q.RecheckLocked?
    case RecheckLocked => if count <= 0 then q.BailOut? else q.AcquireRing?
    case BailOut => q.ReadStatus?
    case AcquireRing => q.Link?
    case Link => q.ReleaseRing?
    case ReleaseRing => q.ReadHead?
    case ReadHead => q.ReleaseOwn? || q.ReadBusy?
    case ReadBusy => q.EnterSleep? || q.ReleaseOwn?
    case EnterSleep => q.Asleep?
    case Waking => q.CheckDone?
    case CheckDone => if count <= 0 then q.LeaveLocked? else q.ReadHead?
    case LeaveLocked => q.AcquireTrim?
    case ReleaseOwn => q.CountIn?
    case CountIn => q.LoopTest?
    case LoopTest => if count > 0 then q.Progress? else q.CountOut?
    case Progress => q.LoopTest?
    case CountOut => q.AcquireTrim?
    case AcquireTrim => q.Unlink?
    case Unlink => q.PassLock? || q.ReleaseTrim?
    case PassLock => q.PassSignal?
    case PassSignal => q.PassUnlock?
    case PassUnlock => q.ReleaseTrim?
    case ReleaseTrim => q.ReadStatus?
    case ReadStatus => q == Returned(OutcomeOf(status))
    case _ => false
  }

  /** The other threads stay where they are, except that a sleeper may be woken. */
  predicate OthersStay(pc: seq<Pc>, pc': seq<Pc>, t: Id) {
    && |pc'| == |pc|
    && forall u :: 0 <= u < |pc| && u != t ==> pc'[u] == pc[u] || (pc[u].Asleep? && pc'[u].Waking?)
  }

  lemma WaitOthersStay(st: State, t: Id)
    requires Shape(st) && CanRun(st, t) && st.frame[t].Idle?
    ensures OthersStay(st.pc, RunWait(st, t).pc, t)
  {}

  lemma WaitEdge(st: State, t: Id)
    requires Shape(st) && CanRun(st, t) && st.frame[t].Idle?
    ensures |RunWait(st, t).pc| == N(st)
    ensures Flow(st.pc[t], RunWait(st, t).pc[t], st.count[t], st.status[t])
  {}

  /** A step of the wait follows the graph and changes no data field and no frame. */
  lemma WaitFlow(st: State, t: Id)
    requires Shape(st) && CanRun(st, t) && st.frame[t].Idle?
    ensures var st' := RunWait(st, t);
            && OthersStay(st.pc, st'.pc, t)
            && Flow(st.pc[t], st'.pc[t], st.count[t], st.status[t])
            && st'.frame == st.frame && st'.count == st.count && st'.status == st.status
            && st'.signaling == st.signaling && st'.log == st.log && st'.limit == st.limit
            && st'.orderly == st.orderly
  {
    WaitOthersStay(st, t);
    WaitEdge(st, t);
  }

  /** A step of a frame moves no thread's wait, except that the sleeper it signals is woken. */
  lemma FrameFlow(st: State, t: Id)
    requires Shape(st) && CanRun(st, t) && !st.frame[t].Idle?
    ensures var st' := RunFrame(st, t);
            && st'.ring == st.ring && st'.busy == st.busy && st'.limit == st.limit && st'.arrivals == st.arrivals && st'.gone == st.gone
            && st'.pc == (if st.frame[t].SignalCond? && st.pc[st.frame[t].target].Asleep?
                          then st.pc[st.frame[t].target := Waking] else st.pc)
            && st'.frame == st.frame[t := st'.frame[t]]
            && (SweepHolds(st.frame[t]) && !st.frame[t].SweepUnlock? ==> st'.ringLock == st.ringLock)
            && (HasTarget(st.frame[t]) ==> st'.ringLock == st.ringLock)
  {}
}
