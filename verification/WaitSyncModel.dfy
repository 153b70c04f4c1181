/** The multi-threaded wait-sync protocol as a state machine, one step per atomic action.

    Thread t waits on at most one sync, which carries the same number t.  A wait runs through the
    program points `Pc`.  Independently a thread may be inside `wait_sync_update` or a global wakeup;
    that activity is its `Frame`.  A frame may be open before the wait starts, inside `progress()`, or
    after the wait returned, and while it is open the wait itself stands still: it is a nested call. */
module WaitSyncModel {
  import opened Base

  type Id = nat

  datatype Outcome = Success | Error

  /** Program points of `ompi_sync_wait_mt`; the comment is the line about to be executed. */
  datatype Pc =
    | Outside        // no sync initialised yet
    | FastCheck      // 47: read count
    | AcquireOwn     // 52: lock sync->lock
    | RecheckLocked  // 57: read count
    | BailOut        // 58: unlock sync->lock
    | AcquireRing    // 63: lock wait_sync_lock
    | Link           // 64-72: append to the ring
    | ReleaseRing    // 73: unlock wait_sync_lock
    | ReadHead       // 82: compare with the ring head, without wait_sync_lock
    | ReadBusy       // 82: read num_thread_in_progress
    | EnterSleep     // 83: cond_wait releases sync->lock and sleeps, atomically
    | Asleep         // 83: inside cond_wait, not signalled
    | Waking         // 83: signalled, cond_wait must take sync->lock again
    | CheckDone      // 91: read count
    | LeaveLocked    // 92: unlock sync->lock
    | ReleaseOwn     // 98: unlock sync->lock
    | CountIn        // 100: num_thread_in_progress + 1
    | LoopTest       // 101: read count
    | Progress       // 103: inside progress()
    | CountOut       // 105: num_thread_in_progress - 1
    | AcquireTrim    // 109: lock wait_sync_lock
    | Unlink         // 110-114: remove from the ring, move the head
    | PassLock       // 35: lock the new head's lock
    | PassSignal     // 36: signal the new head's condition
    | PassUnlock     // 37: unlock the new head's lock
    | ReleaseTrim    // 119: unlock wait_sync_lock
    | ReadStatus     // 48, 59, 121: read status and return
    | Returned(outcome: Outcome)
    | Released(outcome: Outcome)  // WAIT_SYNC_RELEASE has destroyed condition and lock

  /** Where an update was called from: directly, or at a position of a global wakeup's traversal. */
  datatype Origin = Direct | Sweep(code: int, index: nat)

  /** Program points of `wait_sync_update` (wait_sync.h) and of the global wakeup (wait_sync.c). */
  datatype Frame =
    | Idle
    | Add(target: Id, amount: int, from: Origin)       // wait_sync.h:111
    | SetStatus(target: Id, error: int, from: Origin)  // wait_sync.h:116
    | Swap(target: Id, from: Origin)                   // wait_sync.h:118
    | SignalLock(target: Id, from: Origin)             // wait_sync.h:52
    | SignalCond(target: Id, from: Origin)             // wait_sync.h:53
    | SignalUnlock(target: Id, from: Origin)           // wait_sync.h:54
    | ClearSignaling(target: Id, from: Origin)         // wait_sync.h:55
    | SweepLock(code: int)                             // wait_sync.c:17
    | SweepHead(code: int)                             // wait_sync.c:18, first iteration
    | SweepNext(code: int, index: nat)                 // wait_sync.c:25 and the step of 18
    | SweepUnlock(code: int)                           // wait_sync.c:29

  /** What happened to a sync since WAIT_SYNC_INIT.  No step reads it.
      applied   total of the success updates applied before any error update
      erred     some error update has swapped the count to 0
      failed    some error update found the count positive and swapped it to 0
      steady    no success update was negative
      leapt     some success update took the count from above 0 to below 0
      regular   no success update was negative or exceeded the count of a not yet failed sync
      tame      callers only issued positive success updates, of at most `init` in total
      reserved  total of the updates issued while tame
      signals   number of updates that went on to signal */
  datatype Log = Log(init: int, applied: int, erred: bool, failed: bool,
                     steady: bool, leapt: bool, regular: bool, tame: bool, reserved: int, signals: nat)

  datatype State = State(
    pc: seq<Pc>,
    frame: seq<Frame>,
    count: seq<int>,
    status: seq<int>,
    signaling: seq<bool>,
    lock: seq<Option<Id>>,    // owner of each sync->lock
    ring: seq<Id>,            // threads_base_wait_sync_list, head first
    ringLock: Option<Id>,     // owner of wait_sync_lock
    busy: int,                // num_thread_in_progress
    limit: int,               // max_thread_in_progress
    log: seq<Log>,
    arrivals: seq<Id>,        // every sync ever linked, in order of linking
    gone: set<Id>,            // every sync ever unlinked
    orderly: seq<bool>)       // per sync: every call that left its budget was issued alone and with `signaling` set

  /** A step: a thread executes its next action, or the environment starts something. */
  datatype Label =
    | Run(t: Id)
    | Begin(t: Id, c: int)                                   // WAIT_SYNC_INIT, then the wait may run
    | StartUpdate(t: Id, target: Id, amount: int, error: int)
    | StartWakeup(t: Id, code: int)
    | Spurious(t: Id)                                        // cond_wait wakes without a signal
    | Release(t: Id)                                         // WAIT_SYNC_RELEASE gets past its spin loop

  // ---------------------------------------------------------------- classes of program points

  predicate OwnsLock(p: Pc) {  // holds its own sync->lock
    p.RecheckLocked? || p.BailOut? || p.AcquireRing? || p.Link? || p.ReleaseRing? || p.ReadHead? ||
    p.ReadBusy? || p.EnterSleep? || p.CheckDone? || p.LeaveLocked? || p.ReleaseOwn?
  }

  predicate OwnsRing(p: Pc) {  // holds wait_sync_lock
    p.Link? || p.ReleaseRing? || p.Unlink? || p.PassLock? || p.PassSignal? || p.PassUnlock? || p.ReleaseTrim?
  }

  predicate PassHolds(p: Pc) {  // holds the new head's lock
    p.PassSignal? || p.PassUnlock?
  }

  predicate OnRing(p: Pc) {
    p.ReleaseRing? || p.ReadHead? || p.ReadBusy? || p.EnterSleep? || p.Asleep? || p.Waking? || p.CheckDone? ||
    p.LeaveLocked? || p.ReleaseOwn? || p.CountIn? || p.LoopTest? || p.Progress? || p.CountOut? ||
    p.AcquireTrim? || p.Unlink?
  }

  predicate Counted(p: Pc) {  // contributes to num_thread_in_progress
    p.LoopTest? || p.Progress? || p.CountOut?
  }

  predicate FreePc(p: Pc) {  // a frame may be open
    p.Outside? || p.FastCheck? || p.Progress? || p.Returned? || p.Released?
  }

  predicate Over(p: Pc) { p.Outside? || p.Returned? || p.Released? }

  predicate HasTarget(f: Frame) {
    f.Add? || f.SetStatus? || f.Swap? || f.SignalLock? || f.SignalCond? || f.SignalUnlock? || f.ClearSignaling?
  }

  /** The frame is a call on sync s that may still access it. */
  predicate On(f: Frame, s: Id) { HasTarget(f) && f.target == s }

  /** Some call on sync s is open. */
  predicate OpenOn(frame: seq<Frame>, s: Id) { exists t :: 0 <= t < |frame| && On(frame[t], s) }

  predicate Signalling(f: Frame) {  // on the WAIT_SYNC_SIGNAL path
    f.SignalLock? || f.SignalCond? || f.SignalUnlock? || f.ClearSignaling?
  }

  predicate HoldsTarget(f: Frame) { f.SignalCond? || f.SignalUnlock? }

  predicate SweepHolds(f: Frame) {  // a global wakeup that holds wait_sync_lock
    f.SweepHead? || f.SweepNext? || f.SweepUnlock? || (HasTarget(f) && f.from.Sweep?)
  }

  // ---------------------------------------------------------------- well-formed states

  function N(st: State): nat { |st.pc| }

  /** A frame refers only to initialised syncs, a traversal only to the ring. */
  ghost predicate FrameInRange(pc: seq<Pc>, ring: seq<Id>, f: Frame) {
    && (HasTarget(f) ==> f.target < |pc| && !pc[f.target].Outside?)
    && (HasTarget(f) && f.from.Sweep? ==> f.from.index < |ring| && ring[f.from.index] == f.target)
    && (f.SweepNext? ==> f.index < |ring|)
  }

  ghost predicate FramesInRange(pc: seq<Pc>, frame: seq<Frame>, ring: seq<Id>) {
    && |frame| == |pc|
    && forall t :: 0 <= t < |frame| ==> FrameInRange(pc, ring, frame[t])
  }

  ghost predicate Shape(st: State) {
    && |st.count| == |st.status| == |st.signaling| == |st.lock| == |st.log| == |st.orderly| == N(st)
    && (forall i :: 0 <= i < |st.ring| ==> st.ring[i] < N(st))
    && FramesInRange(st.pc, st.frame, st.ring)
  }

  // ---------------------------------------------------------------- enabledness

  datatype Want = Nothing | RingLock | SyncLock(s: Id)

  /** The lock that thread t's next action must acquire. */
  function Wanted(st: State, t: Id): Want
    requires t < N(st) && |st.frame| == N(st)
  {
    var f := st.frame[t];
    if f.SignalLock? then SyncLock(f.target)
    else if f.SweepLock? then RingLock
    else if !f.Idle? then Nothing
    else if st.pc[t].AcquireOwn? || st.pc[t].Waking? then SyncLock(t)
    else if st.pc[t].AcquireRing? || st.pc[t].AcquireTrim? then RingLock
    else if st.pc[t].PassLock? && st.ring != [] then SyncLock(st.ring[0])
    else Nothing
  }

  function OwnerOf(st: State, w: Want): Option<Id> {
    match w
    case Nothing => None
    case RingLock => st.ringLock
    case SyncLock(s) => if s < |st.lock| then st.lock[s] else None
  }

  /** Thread t has an action of its own to take, if only it gets the lock it wants. */
  predicate Active(st: State, t: Id) {
    && t < N(st) && |st.frame| == N(st)
    && (!st.frame[t].Idle? || !(Over(st.pc[t]) || st.pc[t].Asleep?))
  }

  predicate CanRun(st: State, t: Id) {
    Active(st, t) && OwnerOf(st, Wanted(st, t)).None?
  }

  predicate Enabled(st: State, l: Label) {
    && l.t < N(st) && |st.frame| == |st.signaling| == N(st)
    && match l
       case Run(t) => CanRun(st, t)
       case Begin(t, _) => st.pc[t].Outside? && st.frame[t].Idle?
       case StartUpdate(t, s, _, _) =>
         st.frame[t].Idle? && FreePc(st.pc[t]) && s < N(st) && !st.pc[s].Outside?
       case StartWakeup(t, _) => st.frame[t].Idle? && FreePc(st.pc[t])
       case Spurious(t) => st.pc[t].Asleep?
       case Release(t) => st.pc[t].Returned? && st.frame[t].Idle? && !st.signaling[t]
  }

  // ---------------------------------------------------------------- effects

  function Move(st: State, t: Id, p: Pc): State
    requires t < N(st)
  {
    st.(pc := st.pc[t := p])
  }

  /** The condition of sync s is signalled: its waiter, if asleep, must now take the lock again. */
  function Wake(st: State, s: Id): State
    requires s < N(st)
  {
    if st.pc[s].Asleep? then Move(st, s, Waking) else st
  }

  function SetLock(st: State, s: Id, owner: Option<Id>): State
    requires s < |st.lock|
  {
    st.(lock := st.lock[s := owner])
  }

  function Step(st: State, t: Id, f: Frame): State
    requires t < |st.frame|
  {
    st.(frame := st.frame[t := f])
  }

  function OutcomeOf(status: int): Outcome { if status == 0 then Success else Error }

  /** The next action of `ompi_sync_wait_mt` by thread t. */
  function RunWait(st: State, t: Id): State
    requires Shape(st) && t < N(st)
  {
    match st.pc[t]
    case FastCheck => Move(st, t, if st.count[t] <= 0 then ReadStatus else AcquireOwn)
    case AcquireOwn => SetLock(Move(st, t, RecheckLocked), t, Some(t))
    case RecheckLocked => Move(st, t, if st.count[t] <= 0 then BailOut else AcquireRing)
    case BailOut => SetLock(Move(st, t, ReadStatus), t, None)
    case AcquireRing => Move(st, t, Link).(ringLock := Some(t))
    case Link => Move(st, t, ReleaseRing).(ring := st.ring + [t], arrivals := st.arrivals + [t])
    case ReleaseRing => Move(st, t, ReadHead).(ringLock := None)
    case ReadHead => Move(st, t, if st.ring != [] && st.ring[0] == t then ReleaseOwn else ReadBusy)
    case ReadBusy => Move(st, t, if st.busy >= st.limit then EnterSleep else ReleaseOwn)
    case EnterSleep => SetLock(Move(st, t, Asleep), t, None)
    case Waking => SetLock(Move(st, t, CheckDone), t, Some(t))
    case CheckDone => Move(st, t, if st.count[t] <= 0 then LeaveLocked else ReadHead)
    case LeaveLocked => SetLock(Move(st, t, AcquireTrim), t, None)
    case ReleaseOwn => SetLock(Move(st, t, CountIn), t, None)
    case CountIn => Move(st, t, LoopTest).(busy := st.busy + 1)
    case LoopTest => Move(st, t, if st.count[t] > 0 then Progress else CountOut)
    case Progress => Move(st, t, LoopTest)
    case CountOut => Move(st, t, AcquireTrim).(busy := st.busy - 1)
    case AcquireTrim => Move(st, t, Unlink).(ringLock := Some(t))
    case Unlink =>
      var rest := Without(st.ring, t);
      var promotes := st.ring != [] && st.ring[0] == t && rest != [];
      Move(st, t, if promotes then PassLock else ReleaseTrim).(ring := rest, gone := st.gone + {t})
    case PassLock =>
      if st.ring == [] then Move(st, t, PassSignal)
      else SetLock(Move(st, t, PassSignal), st.ring[0], Some(t))
    case PassSignal =>
      if st.ring == [] then Move(st, t, PassUnlock)
      else Move(Wake(st, st.ring[0]), t, PassUnlock)
    case PassUnlock =>
      if st.ring == [] then Move(st, t, ReleaseTrim)
      else SetLock(Move(st, t, ReleaseTrim), st.ring[0], None)
    case ReleaseTrim => Move(st, t, ReadStatus).(ringLock := None)
    case ReadStatus => Move(st, t, Returned(OutcomeOf(st.status[t])))
    case _ => st
  }

  /** Where an update returns to. */
  function Resume(from: Origin): Frame {
    match from
    case Direct => Idle
    case Sweep(code, index) => SweepNext(code, index)
  }

  /** The first action of wait_sync_update(target, amount, code). */
  function Entry(target: Id, amount: int, code: int, from: Origin): Frame {
    if code == 0 then Add(target, amount, from) else SetStatus(target, code, from)
  }

  /** A call issued on sync s now is the only one, and finds the mark that holds back the release. */
  predicate Alone(st: State, s: Id)
    requires s < |st.signaling|
  {
    st.signaling[s] && !OpenOn(st.frame, s)
  }

  /** The traversal reaches ring position k and calls wait_sync_update(ring[k], 0, code). */
  function Visit(st: State, t: Id, code: int, k: nat): State
    requires Shape(st) && t < N(st) && k < |st.ring|
  {
    var s := st.ring[k];
    Step(st, t, Entry(s, 0, code, Sweep(code, k)))
      .(log := st.log[s := st.log[s].(tame := false)], orderly := st.orderly[s := st.orderly[s] && Alone(st, s)])
  }

  /** A success update is irregular if it is negative or exceeds the count of a not yet failed sync. */
  predicate Irregular(lg: Log, count: int, amount: int) {
    amount < 0 || (!lg.erred && amount > 0 && amount > count)
  }

  function LogAdd(lg: Log, count: int, amount: int): Log {
    lg.(applied := if lg.erred then lg.applied else lg.applied + amount,
        steady := lg.steady && amount >= 0,
        leapt := lg.leapt || (count > 0 && count - amount < 0),
        regular := lg.regular && !Irregular(lg, count, amount),
        signals := if count - amount == 0 then lg.signals + 1 else lg.signals)
  }

  function LogSwap(lg: Log, count: int): Log {
    lg.(erred := true, failed := lg.failed || count > 0, signals := lg.signals + 1)
  }

  /** The next action of the open frame of thread t. */
  function RunFrame(st: State, t: Id): State
    requires Shape(st) && t < N(st)
  {
    match st.frame[t]
    case Add(s, amount, from) =>
      var c := st.count[s] - amount;
      Step(st, t, if c != 0 then Resume(from) else SignalLock(s, from))
        .(count := st.count[s := c], log := st.log[s := LogAdd(st.log[s], st.count[s], amount)])
    case SetStatus(s, error, from) =>
      Step(st, t, Swap(s, from)).(status := st.status[s := error])
    case Swap(s, from) =>
      Step(st, t, SignalLock(s, from))
        .(count := st.count[s := 0], log := st.log[s := LogSwap(st.log[s], st.count[s])])
    case SignalLock(s, from) => SetLock(Step(st, t, SignalCond(s, from)), s, Some(t))
    case SignalCond(s, from) => Wake(Step(st, t, SignalUnlock(s, from)), s)
    case SignalUnlock(s, from) => SetLock(Step(st, t, ClearSignaling(s, from)), s, None)
    case ClearSignaling(s, from) => Step(st, t, Resume(from)).(signaling := st.signaling[s := false])
    case SweepLock(code) => Step(st, t, SweepHead(code)).(ringLock := Some(t))
    case SweepHead(code) => if st.ring == [] then Step(st, t, SweepUnlock(code)) else Visit(st, t, code, 0)
    case SweepNext(code, k) =>
      if k + 1 == |st.ring| then Step(st, t, SweepUnlock(code)) else Visit(st, t, code, k + 1)
    case SweepUnlock(_) => Step(st, t, Idle).(ringLock := None)
    case Idle => st
  }

  function NewLog(c: int): Log {
    Log(c, 0, false, false, true, false, true, true, 0, 0)
  }

  function LogIssue(lg: Log, amount: int, code: int): Log {
    if code == 0 && amount > 0 && lg.reserved + amount <= lg.init
    then lg.(reserved := lg.reserved + amount)
    else lg.(tame := false)
  }

  function Apply(st: State, l: Label): State
    requires Shape(st) && Enabled(st, l)
  {
    match l
    case Run(t) => if st.frame[t].Idle? then RunWait(st, t) else RunFrame(st, t)
    case Begin(t, c) =>
      Move(st, t, FastCheck).(count := st.count[t := c], status := st.status[t := 0],
        signaling := st.signaling[t := c != 0], lock := st.lock[t := None], log := st.log[t := NewLog(c)],
        orderly := st.orderly[t := true])
    case StartUpdate(t, s, amount, code) =>
      var lg := LogIssue(st.log[s], amount, code);
      Step(st, t, Entry(s, amount, code, Direct))
        .(log := st.log[s := lg], orderly := st.orderly[s := st.orderly[s] && (lg.tame || Alone(st, s))])
    case StartWakeup(t, code) => Step(st, t, SweepLock(code))
    case Spurious(t) => Move(st, t, Waking)
    case Release(t) => Move(st, t, Released(st.pc[t].outcome))
  }

  ghost predicate Init(st: State) {
    && Shape(st)
    && st.ring == [] && st.ringLock == None && st.busy == 0 && st.arrivals == [] && st.gone == {}
    && forall t :: 0 <= t < N(st) ==> st.pc[t] == Outside && st.frame[t] == Idle && st.lock[t] == None
  }

  ghost predicate Next(st: State, st': State) {
    Shape(st) && exists l :: Enabled(st, l) && st' == Apply(st, l)
  }

  ghost predicate StepAt(run: seq<State>, i: nat) {
    i + 1 < |run| ==> Next(run[i], run[i + 1])
  }

  /** A finite run of the protocol from an initial state. */
  ghost predicate IsRun(run: seq<State>) {
    |run| > 0 && Init(run[0]) && forall i: nat :: StepAt(run, i)
  }

  ghost predicate EndsIn(run: seq<State>, st: State) {
    IsRun(run) && run[|run| - 1] == st
  }

  /** The last state of some run.  (Every such state has the shape; it is named here to index components.) */
  ghost predicate Reachable(st: State) {
    Shape(st) && exists run :: EndsIn(run, st)
  }
}
