/** The Qthreads condition variable as a protocol, and a proof that it refines the abstract condition
    variable the wait-sync code relies on: wait releases the mutex and sleeps in one step, a signal
    wakes the longest sleeper if there is one, and nobody wakes without a signal. */
module QthreadsCond {
  import opened Base

  type Id = nat

  // ---------------------------------------------------------------- the abstract condition variable

  datatype Phase = Running | Asleep | Woken

  /** What has happened to one thread: how often it fell asleep, was woken, and returned from its wait. */
  datatype History = History(slept: nat, woken: nat, returned: nat)

  /** sleepers: in order of falling asleep. */
  datatype Spec = Spec(phase: seq<Phase>, sleepers: seq<Id>, mutex: Option<Id>, past: seq<History>)

  function Sleeps(past: seq<History>, t: Id): (r: seq<History>)
    requires t < |past|
  {
    past[t := past[t].(slept := past[t].slept + 1)]
  }

  function Wakes(past: seq<History>, t: Id): (r: seq<History>)
    requires t < |past|
  {
    past[t := past[t].(woken := past[t].woken + 1)]
  }

  function Returns(past: seq<History>, t: Id): (r: seq<History>)
    requires t < |past|
  {
    past[t := past[t].(returned := past[t].returned + 1)]
  }

  ghost predicate SpecInit(a: Spec) {
    && a.sleepers == [] && a.mutex == None && |a.past| == |a.phase|
    && forall t :: 0 <= t < |a.phase| ==> a.phase[t] == Running && a.past[t] == History(0, 0, 0)
  }

  /** One step of the abstract condition variable with its mutex. */
  ghost predicate SpecNext(a: Spec, b: Spec)
    requires |a.past| == |a.phase|
  {
    || (exists t :: 0 <= t < |a.phase| && SpecLock(a, b, t))
    || (exists t :: 0 <= t < |a.phase| && SpecUnlock(a, b, t))
    || (exists t :: 0 <= t < |a.phase| && SpecSleep(a, b, t))
    || (exists t :: 0 <= t < |a.phase| && SpecReturn(a, b, t))
    || SpecWake(a, b)
  }

  ghost predicate SpecLock(a: Spec, b: Spec, t: Id)
    requires t < |a.phase|
  {
    a.phase[t].Running? && a.mutex == None && b == a.(mutex := Some(t))
  }

  ghost predicate SpecUnlock(a: Spec, b: Spec, t: Id)
    requires t < |a.phase|
  {
    a.phase[t].Running? && a.mutex == Some(t) && b == a.(mutex := None)
  }

  /** wait: give up the mutex and fall asleep, in one step */
  ghost predicate SpecSleep(a: Spec, b: Spec, t: Id)
    requires t < |a.phase| == |a.past|
  {
    && a.phase[t].Running? && a.mutex == Some(t)
    && b == a.(phase := a.phase[t := Asleep], sleepers := a.sleepers + [t], mutex := None, past := Sleeps(a.past, t))
  }

  /** wait returns: only after a wakeup, and with the mutex */
  ghost predicate SpecReturn(a: Spec, b: Spec, t: Id)
    requires t < |a.phase| == |a.past|
  {
    && a.phase[t].Woken? && a.mutex == None
    && b == a.(phase := a.phase[t := Running], mutex := Some(t), past := Returns(a.past, t))
  }

  /** a signal, or one round of a broadcast, wakes the longest sleeper */
  ghost predicate SpecWake(a: Spec, b: Spec)
    requires |a.past| == |a.phase|
  {
    && a.sleepers != [] && a.sleepers[0] < |a.phase|
    && b == a.(phase := a.phase[a.sleepers[0] := Woken], sleepers := a.sleepers[1..], past := Wakes(a.past, a.sleepers[0]))
  }

  /** Each thread's wakeups, one by one: every sleep is ended by one wakeup and every wakeup is used by
      one return, in this order. */
  predicate Balanced(p: Phase, h: History) {
    && h.slept == h.woken + (if p.Asleep? then 1 else 0)
    && h.woken == h.returned + (if p.Woken? then 1 else 0)
  }

  /** Wakeups are conserved thread by thread, and the sleepers are exactly the threads asleep. */
  ghost predicate Conserved(a: Spec) {
    && |a.past| == |a.phase|
    && (forall t {:trigger Balanced(a.phase[t], a.past[t])} :: 0 <= t < |a.phase| ==> Balanced(a.phase[t], a.past[t]))
    && SleepersOk(a.phase, a.sleepers)
  }

  ghost predicate SleepersOk(phase: seq<Phase>, sleepers: seq<Id>) {
    && Distinct(sleepers)
    && (forall i :: 0 <= i < |sleepers| ==> sleepers[i] < |phase| && phase[sleepers[i]].Asleep?)
    && (forall t :: 0 <= t < |phase| && phase[t].Asleep? ==> t in sleepers)
  }

  lemma SleepConserves(a: Spec, b: Spec, t: Id)
    requires Conserved(a) && t < |a.phase| && SpecSleep(a, b, t)
    ensures Conserved(b)
  {
    assert b.sleepers[|a.sleepers|] == t;
    forall u | 0 <= u < |b.phase| ensures Balanced(b.phase[u], b.past[u]) {
      assert Balanced(a.phase[u], a.past[u]);
    }
  }

  lemma ReturnConserves(a: Spec, b: Spec, t: Id)
    requires Conserved(a) && t < |a.phase| && SpecReturn(a, b, t)
    ensures Conserved(b)
  {
    forall u | 0 <= u < |b.phase| ensures Balanced(b.phase[u], b.past[u]) {
      assert Balanced(a.phase[u], a.past[u]);
    }
  }

  lemma WakeConserves(a: Spec, b: Spec)
    requires Conserved(a) && SpecWake(a, b)
    ensures Conserved(b)
  {
    forall u | 0 <= u < |b.phase| ensures Balanced(b.phase[u], b.past[u]) {
      assert Balanced(a.phase[u], a.past[u]);
    }
    forall u | 0 <= u < |b.phase| && b.phase[u].Asleep? ensures u in b.sleepers {
      var i :| 0 <= i < |a.sleepers| && a.sleepers[i] == u;
      assert b.sleepers[i - 1] == u;
    }
  }

  /** The abstract condition variable conserves wakeups. */
  lemma SpecConserves(a: Spec, b: Spec)
    requires Conserved(a) && SpecNext(a, b)
    ensures Conserved(b)
  {
    if SpecWake(a, b) {
      WakeConserves(a, b);
    } else if t :| 0 <= t < |a.phase| && SpecSleep(a, b, t) {
      SleepConserves(a, b, t);
    } else if t :| 0 <= t < |a.phase| && SpecReturn(a, b, t) {
      ReturnConserves(a, b, t);
    } else {
      assert b == a.(mutex := b.mutex);
    }
  }

  // ---------------------------------------------------------------- the implementation

  /** Program points; `held` tells whether the caller holds the associated mutex. */
  datatype Pc =
    | Out                            // does not hold the mutex
    | Holding                        // holds the mutex, in its own code
    | WaitLock                       // 108: lock m_lock
    | WaitEnqueue                    // 109-115: append the waiter
    | WaitUnlock                     // 116: unlock m_lock
    | DropMutex                      // 118: unlock the mutex
    | TakeMutex                      // 119-120: yield, lock the mutex
    | CheckLock                      // 122: lock m_lock
    | Check                          // 123: read m_signaled
    | CheckUnlock(saw: bool)         // 124-127: unlock m_lock, leave the loop if signalled
    | SignalLock(held: bool)         // 147: lock m_lock
    | SignalOldest(held: bool)       // 148-156: take the tail off and mark it
    | SignalUnlock(held: bool)       // 157: unlock m_lock
    | BroadcastLock(held: bool)      // 134: lock m_lock
    | BroadcastLoop(held: bool)      // 135-142: one round, or leave the loop
    | BroadcastUnlock(held: bool)    // 143: unlock m_lock

  datatype State = State(pc: seq<Pc>, signaled: seq<bool>, queue: seq<Id>, mutex: Option<Id>, inner: Option<Id>,
                         past: seq<History>)

  datatype Label =
    | Run(t: Id)
    | Acquire(t: Id) | Relinquish(t: Id)      // user code takes or gives up the mutex
    | CallWait(t: Id) | CallSignal(t: Id) | CallBroadcast(t: Id)

  predicate Waiting(p: Pc) {  // enqueued, cond_wait not returned
    p.WaitUnlock? || p.DropMutex? || p.TakeMutex? || p.CheckLock? || p.Check? || p.CheckUnlock?
  }

  predicate HasMutex(p: Pc) {
    || p.Holding? || p.WaitLock? || p.WaitEnqueue? || p.WaitUnlock? || p.DropMutex? || p.CheckLock? || p.Check?
    || p.CheckUnlock?
    || ((p.SignalLock? || p.SignalOldest? || p.SignalUnlock? || p.BroadcastLock? || p.BroadcastLoop? ||
         p.BroadcastUnlock?) && p.held)
  }

  predicate HasInner(p: Pc) {
    p.WaitEnqueue? || p.WaitUnlock? || p.Check? || p.CheckUnlock? || p.SignalOldest? || p.SignalUnlock? ||
    p.BroadcastLoop? || p.BroadcastUnlock?
  }

  predicate WantsInner(p: Pc) { p.WaitLock? || p.CheckLock? || p.SignalLock? || p.BroadcastLock? }

  predicate Enabled(st: State, l: Label) {
    && l.t < |st.pc|
    && match l
       case Run(t) =>
         && !st.pc[t].Out? && !st.pc[t].Holding?
         && (WantsInner(st.pc[t]) ==> st.inner == None) && (st.pc[t].TakeMutex? ==> st.mutex == None)
       case Acquire(t) => st.pc[t].Out? && st.mutex == None
       case Relinquish(t) => st.pc[t].Holding?
       case CallWait(t) => st.pc[t].Holding?
       case CallSignal(t) => st.pc[t].Out? || st.pc[t].Holding?
       case CallBroadcast(t) => st.pc[t].Out? || st.pc[t].Holding?
  }

  function Move(st: State, t: Id, p: Pc): State
    requires t < |st.pc|
  {
    st.(pc := st.pc[t := p])
  }

  function Back(held: bool): Pc { if held then Holding else Out }

  predicate Sized(st: State) {
    |st.signaled| == |st.past| == |st.pc| && forall i :: 0 <= i < |st.queue| ==> st.queue[i] < |st.pc|
  }

  /** Take the oldest waiter off the queue and mark it signalled. */
  function ReleaseOldest(st: State): State
    requires Sized(st) && st.queue != []
  {
    st.(queue := st.queue[1..], signaled := st.signaled[st.queue[0] := true], past := Wakes(st.past, st.queue[0]))
  }

  function Exec(st: State, t: Id): State
    requires Sized(st) && t < |st.pc|
  {
    match st.pc[t]
    case WaitLock => Move(st, t, WaitEnqueue).(inner := Some(t))
    case WaitEnqueue =>
      Move(st, t, WaitUnlock).(queue := st.queue + [t], signaled := st.signaled[t := false], past := Sleeps(st.past, t))
    case WaitUnlock => Move(st, t, DropMutex).(inner := None)
    case DropMutex => Move(st, t, TakeMutex).(mutex := None)
    case TakeMutex => Move(st, t, CheckLock).(mutex := Some(t))
    case CheckLock => Move(st, t, Check).(inner := Some(t))
    case Check => Move(st, t, CheckUnlock(st.signaled[t]))
    case CheckUnlock(saw) =>
      if saw then Move(st, t, Holding).(inner := None, past := Returns(st.past, t))
      else Move(st, t, DropMutex).(inner := None)
    case SignalLock(held) => Move(st, t, SignalOldest(held)).(inner := Some(t))
    case SignalOldest(held) => Move(if st.queue == [] then st else ReleaseOldest(st), t, SignalUnlock(held))
    case SignalUnlock(held) => Move(st, t, Back(held)).(inner := None)
    case BroadcastLock(held) => Move(st, t, BroadcastLoop(held)).(inner := Some(t))
    case BroadcastLoop(held) => if st.queue == [] then Move(st, t, BroadcastUnlock(held)) else ReleaseOldest(st)
    case BroadcastUnlock(held) => Move(st, t, Back(held)).(inner := None)
    case _ => st
  }

  function Apply(st: State, l: Label): State
    requires Sized(st) && Enabled(st, l)
  {
    match l
    case Run(t) => Exec(st, t)
    case Acquire(t) => Move(st, t, Holding).(mutex := Some(t))
    case Relinquish(t) => Move(st, t, Out).(mutex := None)
    case CallWait(t) => Move(st, t, WaitLock)
    case CallSignal(t) => Move(st, t, SignalLock(st.pc[t].Holding?))
    case CallBroadcast(t) => Move(st, t, BroadcastLock(st.pc[t].Holding?))
  }

  ghost predicate Init(st: State) {
    && Sized(st) && st.queue == [] && st.mutex == None && st.inner == None
    && forall t :: 0 <= t < |st.pc| ==> st.pc[t] == Out && st.past[t] == History(0, 0, 0)
  }

  // ---------------------------------------------------------------- invariant

  ghost predicate MutexOk(pc: seq<Pc>, mutex: Option<Id>) {
    && (forall t :: 0 <= t < |pc| && HasMutex(pc[t]) ==> mutex == Some(t))
    && (mutex.Some? ==> mutex.value < |pc| && HasMutex(pc[mutex.value]))
  }

  ghost predicate InnerOk(pc: seq<Pc>, inner: Option<Id>) {
    && (forall t :: 0 <= t < |pc| && HasInner(pc[t]) ==> inner == Some(t))
    && (inner.Some? ==> inner.value < |pc| && HasInner(pc[inner.value]))
  }

  /** The queue holds exactly the waiters that have not been signalled, each once. */
  ghost predicate QueueOk(pc: seq<Pc>, signaled: seq<bool>, queue: seq<Id>)
    requires |signaled| == |pc|
  {
    && Distinct(queue)
    && (forall i :: 0 <= i < |queue| ==> queue[i] < |pc| && Waiting(pc[queue[i]]) && !signaled[queue[i]])
    && (forall t :: 0 <= t < |pc| && Waiting(pc[t]) && !signaled[t] ==> t in queue)
  }

  /** A waiter that read its flag under m_lock still sees the same value. */
  ghost predicate CheckOk(pc: seq<Pc>, signaled: seq<bool>)
    requires |signaled| == |pc|
  {
    forall t :: 0 <= t < |pc| && pc[t].CheckUnlock? ==> pc[t].saw == signaled[t]
  }

  ghost predicate Inv(st: State) {
    && Sized(st)
    && MutexOk(st.pc, st.mutex) && InnerOk(st.pc, st.inner)
    && QueueOk(st.pc, st.signaled, st.queue) && CheckOk(st.pc, st.signaled)
  }

  lemma InitInv(st: State)
    requires Init(st)
    ensures Inv(st)
  {}

  lemma MutexMoves(pc: seq<Pc>, mutex: Option<Id>, t: Id, p: Pc, mutex': Option<Id>)
    requires MutexOk(pc, mutex) && t < |pc| && LockMove(HasMutex(pc[t]), HasMutex(p), mutex, mutex', t)
    ensures MutexOk(pc[t := p], mutex')
  {}

  lemma InnerMoves(pc: seq<Pc>, inner: Option<Id>, t: Id, p: Pc, inner': Option<Id>)
    requires InnerOk(pc, inner) && t < |pc| && LockMove(HasInner(pc[t]), HasInner(p), inner, inner', t)
    ensures InnerOk(pc[t := p], inner')
  {}

  /** Each step moves one thread and moves each lock accordingly. */
  lemma LockFlow(st: State, l: Label)
    requires Sized(st) && Enabled(st, l)
    ensures var st' := Apply(st, l);
            && |st'.pc| == |st.pc| && st'.pc == st.pc[l.t := st'.pc[l.t]]
            && LockMove(HasMutex(st.pc[l.t]), HasMutex(st'.pc[l.t]), st.mutex, st'.mutex, l.t)
            && LockMove(HasInner(st.pc[l.t]), HasInner(st'.pc[l.t]), st.inner, st'.inner, l.t)
  {
    if l.Run? {
      RunFlow(st, l.t);
    }
  }

  lemma RunFlow(st: State, t: Id)
    requires Sized(st) && t < |st.pc|
    requires (WantsInner(st.pc[t]) ==> st.inner == None) && (st.pc[t].TakeMutex? ==> st.mutex == None)
    ensures var st' := Exec(st, t);
            && |st'.pc| == |st.pc| && st'.pc == st.pc[t := st'.pc[t]]
            && LockMove(HasMutex(st.pc[t]), HasMutex(st'.pc[t]), st.mutex, st'.mutex, t)
            && LockMove(HasInner(st.pc[t]), HasInner(st'.pc[t]), st.inner, st'.inner, t)
  {
    match st.pc[t] {
      case Out | Holding =>
      case WaitLock | WaitEnqueue | WaitUnlock | DropMutex | TakeMutex =>
      case CheckLock | Check | CheckUnlock(_) =>
      case SignalLock(_) | SignalOldest(_) | SignalUnlock(_) =>
      case BroadcastLock(_) | BroadcastLoop(_) | BroadcastUnlock(_) =>
    }
  }

  lemma StepLocks(st: State, l: Label)
    requires Inv(st) && Enabled(st, l)
    ensures MutexOk(Apply(st, l).pc, Apply(st, l).mutex) && InnerOk(Apply(st, l).pc, Apply(st, l).inner)
  {
    LockFlow(st, l);
    var st' := Apply(st, l);
    MutexMoves(st.pc, st.mutex, l.t, st'.pc[l.t], st'.mutex);
    InnerMoves(st.pc, st.inner, l.t, st'.pc[l.t], st'.inner);
  }

  lemma QueueSame(pc: seq<Pc>, signaled: seq<bool>, queue: seq<Id>, t: Id, p: Pc)
    requires |signaled| == |pc| && QueueOk(pc, signaled, queue) && t < |pc|
    requires Waiting(p) == Waiting(pc[t]) || (!Waiting(p) && signaled[t])
    ensures QueueOk(pc[t := p], signaled, queue)
  {}

  lemma QueueJoin(pc: seq<Pc>, signaled: seq<bool>, queue: seq<Id>, t: Id, p: Pc)
    requires |signaled| == |pc| && QueueOk(pc, signaled, queue) && t < |pc| && !Waiting(pc[t]) && Waiting(p)
    ensures QueueOk(pc[t := p], signaled[t := false], queue + [t])
  {
    assert (queue + [t])[|queue|] == t;
  }

  lemma QueueLeave(pc: seq<Pc>, signaled: seq<bool>, queue: seq<Id>)
    requires |signaled| == |pc| && QueueOk(pc, signaled, queue) && queue != []
    ensures QueueOk(pc, signaled[queue[0] := true], queue[1..])
  {
    forall u | 0 <= u < |pc| && Waiting(pc[u]) && !signaled[u] && u != queue[0] ensures u in queue[1..] {
      var i :| 0 <= i < |queue| && queue[i] == u;
      assert queue[1..][i - 1] == u;
    }
  }

  lemma RunQueue(st: State, t: Id)
    requires Sized(st) && t < |st.pc| && QueueOk(st.pc, st.signaled, st.queue) && CheckOk(st.pc, st.signaled)
    ensures var st' := Exec(st, t); Sized(st') && QueueOk(st'.pc, st'.signaled, st'.queue)
  {
    var st' := Exec(st, t);
    if st.pc[t].WaitEnqueue? {
      QueueJoin(st.pc, st.signaled, st.queue, t, WaitUnlock);
    } else if (st.pc[t].SignalOldest? || st.pc[t].BroadcastLoop?) && st.queue != [] {
      QueueLeave(st.pc, st.signaled, st.queue);
      QueueSame(st.pc, st'.signaled, st'.queue, t, st'.pc[t]);
    } else {
      StillQueue(st, t);
      QueueSame(st.pc, st.signaled, st.queue, t, st'.pc[t]);
    }
  }

  lemma StillQueue(st: State, t: Id)
    requires Sized(st) && t < |st.pc| && CheckOk(st.pc, st.signaled) && !st.pc[t].WaitEnqueue?
    requires st.pc[t].SignalOldest? || st.pc[t].BroadcastLoop? ==> st.queue == []
    ensures var st' := Exec(st, t);
            && st'.queue == st.queue && st'.signaled == st.signaled && |st'.past| == |st.past|
            && |st'.pc| == |st.pc| && st'.pc == st.pc[t := st'.pc[t]]
            && (Waiting(st'.pc[t]) == Waiting(st.pc[t]) || (!Waiting(st'.pc[t]) && st.signaled[t]))
  {}

  lemma StepQueue(st: State, l: Label)
    requires Sized(st) && Enabled(st, l) && QueueOk(st.pc, st.signaled, st.queue) && CheckOk(st.pc, st.signaled)
    ensures var st' := Apply(st, l); Sized(st') && QueueOk(st'.pc, st'.signaled, st'.queue)
  {
    if l.Run? {
      RunQueue(st, l.t);
    } else {
      QueueSame(st.pc, st.signaled, st.queue, l.t, Apply(st, l).pc[l.t]);
    }
  }

  lemma StepCheck(st: State, l: Label)
    requires Sized(st) && Enabled(st, l) && InnerOk(st.pc, st.inner) && CheckOk(st.pc, st.signaled)
    ensures var st' := Apply(st, l); |st'.signaled| == |st'.pc| && CheckOk(st'.pc, st'.signaled)
  {
    LockFlow(st, l);
    assert HasInner(st.pc[l.t]) ==> forall u :: 0 <= u < |st.pc| && u != l.t ==> !HasInner(st.pc[u]);
  }

  /** Every step keeps the invariant: at all times the queue is exactly the unsignalled waiters, so no
      queued pointer refers to a waiter whose cond_wait has returned. */
  lemma StepInv(st: State, l: Label)
    requires Inv(st) && Enabled(st, l)
    ensures Inv(Apply(st, l))
  {
    StepLocks(st, l);
    StepQueue(st, l);
    StepCheck(st, l);
  }

  // ---------------------------------------------------------------- refinement

  function PhaseOf(p: Pc, signaled: bool): Phase {
    if !Waiting(p) then Running else if signaled then Woken else Asleep
  }

  function Phases(pc: seq<Pc>, signaled: seq<bool>): (r: seq<Phase>)
    requires |signaled| == |pc|
    ensures |r| == |pc|
    ensures forall t :: 0 <= t < |pc| ==> r[t] == PhaseOf(pc[t], signaled[t])
  {
    seq(|pc|, t requires 0 <= t < |pc| => PhaseOf(pc[t], signaled[t]))
  }

  /** The mutex as seen from outside: a thread inside cond_wait does not count as its owner. */
  function VisibleMutex(pc: seq<Pc>, mutex: Option<Id>): Option<Id> {
    if mutex.Some? && mutex.value < |pc| && Waiting(pc[mutex.value]) then None else mutex
  }

  function Abs(st: State): Spec
    requires Sized(st)
  {
    Spec(Phases(st.pc, st.signaled), st.queue, VisibleMutex(st.pc, st.mutex), st.past)
  }

  lemma ReleaseRefines(st: State, t: Id)
    requires Inv(st) && t < |st.pc| && (st.pc[t].SignalOldest? || st.pc[t].BroadcastLoop?) && st.queue != []
    requires Inv(Exec(st, t))
    ensures SpecWake(Abs(st), Abs(Exec(st, t)))
  {
    var a, b := Abs(st), Abs(Exec(st, t));
    assert b.phase == a.phase[st.queue[0] := Woken];
  }

  lemma EnqueueRefines(st: State, t: Id)
    requires Inv(st) && t < |st.pc| && st.pc[t].WaitEnqueue? && Inv(Exec(st, t))
    ensures SpecSleep(Abs(st), Abs(Exec(st, t)), t)
  {
    var a, b := Abs(st), Abs(Exec(st, t));
    assert b.phase == a.phase[t := Asleep];
  }

  lemma ReturnRefines(st: State, t: Id)
    requires Inv(st) && t < |st.pc| && st.pc[t] == CheckUnlock(true) && Inv(Exec(st, t))
    ensures SpecReturn(Abs(st), Abs(Exec(st, t)), t)
  {
    var a, b := Abs(st), Abs(Exec(st, t));
    assert b.phase == a.phase[t := Running];
  }

  /** The remaining actions inside the implementation are invisible. */
  lemma StutterRefines(st: State, t: Id)
    requires Inv(st) && Enabled(st, Run(t)) && Inv(Exec(st, t))
    requires !st.pc[t].WaitEnqueue? && st.pc[t] != CheckUnlock(true)
    requires st.pc[t].SignalOldest? || st.pc[t].BroadcastLoop? ==> st.queue == []
    ensures Abs(Exec(st, t)) == Abs(st)
  {
    assert Abs(Exec(st, t)).phase == Abs(st).phase;
  }

  lemma CallRefines(st: State, l: Label)
    requires Inv(st) && Enabled(st, l) && !l.Run? && Inv(Apply(st, l))
    ensures match l
            case Acquire(t) => SpecLock(Abs(st), Abs(Apply(st, l)), t)
            case Relinquish(t) => SpecUnlock(Abs(st), Abs(Apply(st, l)), t)
            case _ => Abs(Apply(st, l)) == Abs(st)
  {
    assert Abs(Apply(st, l)).phase == Abs(st).phase;
  }

  /** Refinement: every step of the implementation is a step of the abstract condition variable or invisible. */
  lemma Refines(st: State, l: Label)
    requires Inv(st) && Enabled(st, l)
    ensures Sized(Apply(st, l))
    ensures Abs(Apply(st, l)) == Abs(st) || SpecNext(Abs(st), Abs(Apply(st, l)))
  {
    StepInv(st, l);
    if !l.Run? {
      CallRefines(st, l);
    } else if st.pc[l.t].WaitEnqueue? {
      EnqueueRefines(st, l.t);
    } else if st.pc[l.t] == CheckUnlock(true) {
      ReturnRefines(st, l.t);
    } else if (st.pc[l.t].SignalOldest? || st.pc[l.t].BroadcastLoop?) && st.queue != [] {
      ReleaseRefines(st, l.t);
    } else {
      StutterRefines(st, l.t);
    }
  }

  // ---------------------------------------------------------------- whole runs

  ghost predicate Next(st: State, st': State) {
    Sized(st) && exists l :: Enabled(st, l) && st' == Apply(st, l)
  }

  ghost predicate StepAt(run: seq<State>, i: nat) {
    i + 1 < |run| ==> Next(run[i], run[i + 1])
  }

  ghost predicate IsRun(run: seq<State>) {
    |run| > 0 && Init(run[0]) && forall i: nat :: StepAt(run, i)
  }

  /** In every reachable state wakeups are conserved thread by thread: each sleep of a thread has had one
      wakeup or waits for it, and each wakeup has been used by one return or is about to be. */
  lemma {:induction false} WakeupsConserved(run: seq<State>, i: nat)
    requires IsRun(run) && i < |run|
    ensures Inv(run[i]) && Conserved(Abs(run[i]))
  {
    if i == 0 {
      InitInv(run[0]);
    } else {
      WakeupsConserved(run, i - 1);
      assert StepAt(run, i - 1);
      ConservedNext(run[i - 1], run[i]);
    }
  }

  /** Matching a return with its wakeup: a thread asleep at i that has returned by j without falling asleep
      again was woken exactly once in between, after its enqueue and before its return. */
  lemma ReturnMatchesWakeup(run: seq<State>, i: nat, j: nat, t: Id)
    requires IsRun(run) && i <= j < |run| && t < |run[i].pc| == |run[i].signaled| && t < |run[j].pc|
    requires |run[i].past| == |run[i].pc| && |run[j].past| == |run[j].pc|
    requires PhaseOf(run[i].pc[t], run[i].signaled[t]).Asleep?
    requires run[j].past[t].returned > run[i].past[t].returned && run[j].past[t].slept == run[i].past[t].slept
    ensures run[j].past[t].woken == run[i].past[t].woken + 1
    ensures run[j].past[t].returned == run[i].past[t].returned + 1
    ensures exists k :: i <= k < j && WokenAt(run, k, t)
  {
    WakeupsConserved(run, i);
    WakeupsConserved(run, j);
    assert Balanced(Abs(run[i]).phase[t], Abs(run[i]).past[t]);
    assert Balanced(Abs(run[j]).phase[t], Abs(run[j]).past[t]);
    FindWakeup(run, i, j, t);
  }

  /** Step k takes thread t off the head of the queue and marks it. */
  ghost predicate WokenAt(run: seq<State>, k: nat, t: Id) {
    && k + 1 < |run| && t < |run[k].past| && t < |run[k + 1].past|
    && run[k].queue != [] && run[k].queue[0] == t && run[k + 1].queue == run[k].queue[1..]
    && run[k + 1].past[t].woken == run[k].past[t].woken + 1
  }

  lemma {:induction false} FindWakeup(run: seq<State>, i: nat, j: nat, t: Id)
    requires IsRun(run) && i <= j < |run| && t < |run[i].past| && t < |run[j].past|
    requires run[j].past[t].woken > run[i].past[t].woken
    ensures exists k :: i <= k < j && WokenAt(run, k, t)
    decreases j
  {
    WakeupsConserved(run, j - 1);
    assert StepAt(run, j - 1);
    PastStep(run[j - 1], run[j], t);
    if run[j].past[t].woken != run[j - 1].past[t].woken {
      assert WokenAt(run, j - 1, t);
    } else {
      FindWakeup(run, i, j - 1, t);
    }
  }

  lemma PastStep(st: State, st': State, t: Id)
    requires Sized(st) && Next(st, st') && t < |st'.past|
    ensures t < |st.past|
    ensures st'.past[t].woken == st.past[t].woken ||
            (st'.past[t].woken == st.past[t].woken + 1 && st.queue != [] && st.queue[0] == t && st'.queue == st.queue[1..])
  {
    var l :| Enabled(st, l) && st' == Apply(st, l);
  }

  /** Every run is a run of the abstract condition variable, with invisible steps in between. */
  lemma RunRefines(run: seq<State>, i: nat)
    requires IsRun(run) && i + 1 < |run|
    ensures Sized(run[0]) && SpecInit(Abs(run[0]))
    ensures Sized(run[i]) && Sized(run[i + 1])
    ensures Abs(run[i + 1]) == Abs(run[i]) || SpecNext(Abs(run[i]), Abs(run[i + 1]))
  {
    WakeupsConserved(run, i);
    assert StepAt(run, i);
    NextRefines(run[i], run[i + 1]);
  }

  lemma NextRefines(st: State, st': State)
    requires Inv(st) && Next(st, st')
    ensures Sized(st') && (Abs(st') == Abs(st) || SpecNext(Abs(st), Abs(st')))
  {
    var l :| Enabled(st, l) && st' == Apply(st, l);
    Refines(st, l);
  }

  lemma ConservedNext(st: State, st': State)
    requires Inv(st) && Conserved(Abs(st)) && Next(st, st')
    ensures Inv(st') && Conserved(Abs(st'))
  {
    var l :| Enabled(st, l) && st' == Apply(st, l);
    StepInv(st, l);
    Refines(st, l);
    if Abs(st') != Abs(st) {
      SpecConserves(Abs(st), Abs(st'));
    }
  }

  /** A signal cannot miss: if any waiter is asleep when the signaller takes one off the queue, the
      longest sleeper is woken and nobody else changes; a condition's only sleeper is the one woken. */
  lemma SignalCannotMiss(st: State, t: Id, w: Id)
    requires Inv(st) && t < |st.pc| && st.pc[t].SignalOldest? && w < |st.pc| && Abs(st).phase[w].Asleep?
    ensures st.queue != [] && Sized(Exec(st, t))
    ensures var a, b := Abs(st), Abs(Exec(st, t));
            && b.phase == a.phase[st.queue[0] := Woken] && b.past == Wakes(a.past, st.queue[0])
            && ((forall u :: 0 <= u < |st.pc| && a.phase[u].Asleep? ==> u == w) ==> b.phase[w].Woken?)
  {
    assert w in st.queue;
    StepInv(st, Run(t));
    ReleaseRefines(st, t);
    assert Abs(st).phase[st.queue[0]].Asleep?;
  }

  /** A broadcast leaves its loop only when nobody is asleep, and each round before that wakes one sleeper. */
  lemma BroadcastReleasesAll(st: State, t: Id)
    requires Inv(st) && t < |st.pc| && st.pc[t].BroadcastLoop? && Sized(Exec(st, t))
    ensures Exec(st, t).pc[t].BroadcastUnlock? <==> forall u :: 0 <= u < |st.pc| ==> !Abs(st).phase[u].Asleep?
    ensures !Exec(st, t).pc[t].BroadcastUnlock? ==> |Exec(st, t).queue| == |st.queue| - 1
  {
    if st.queue != [] {
      assert Abs(st).phase[st.queue[0]].Asleep?;
    }
  }
}
