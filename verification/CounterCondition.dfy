/** The counter-based condition of condition.h and the ACQUIRE_THREAD/RELEASE_THREAD macros built on it,
    for any number of threads and any interleaving: wakeup tokens are exact, late arrivals steal none,
    at most one thread is inside, and an open door strands nobody. */
module CounterCondition {
  import opened Base

  type Id = nat

  /** How the condition is used in a run: by arbitrary callers, with or without condition_timedwait,
      or only through the ACQUIRE and RELEASE macros. */
  datatype Usage = Plain | WithTimeouts | Macros

  /** struct timeval: seconds and microseconds. */
  datatype Time = Time(sec: int, usec: int)

  /** condition.h:61-62: the deadline, its nanoseconds truncated to microseconds. */
  function Deadline(sec: int, nsec: int): (d: Time)
    ensures d.sec == sec
    ensures nsec >= 0 ==> d.usec * 1000 <= nsec < (d.usec + 1) * 1000
    ensures nsec < 0 ==> (d.usec - 1) * 1000 < nsec <= d.usec * 1000
  {
    Time(sec, if nsec >= 0 then nsec / 1000 else -(-nsec / 1000))
  }

  /** condition.h:70-72: the clock's half of the test that keeps condition_timedwait in its loop. */
  predicate GoesOn(now: Time, deadline: Time) {
    now.sec <= deadline.sec || (now.sec == deadline.sec && now.usec < deadline.usec)
  }

  /** Program points; those marked * do not hold the mutex. */
  datatype Pc =
    | Out              // *
    | Holding          // user code
    | Broadcast        // condition.h:103
    | WaitCount        // condition.h:27: c_waiting++
    | WaitTest         // condition.h:30
    | WaitUndo         // condition.h:31: c_waiting--
    | YieldUnlock      // condition.h:32
    | YieldLock        // * condition.h:33-34: progress, lock
    | LoopTest         // condition.h:37
    | LoopUnlock       // condition.h:38
    | LoopLock         // * condition.h:39-40: progress, lock
    | WaitTake         // condition.h:48: c_signaled--
    | WaitLeave        // condition.h:49: c_waiting--
    | TimedCount(deadline: Time)               // condition.h:59-62: c_waiting++
    | TimedTest(deadline: Time)                // condition.h:64
    | TimedUnlock(deadline: Time)              // condition.h:66
    | TimedRead(deadline: Time)                // * condition.h:67-68: progress, read the clock
    | TimedLock(deadline: Time, now: Time)     // * condition.h:69
    | TimedLoopTest(deadline: Time, now: Time) // condition.h:70-72
    | TimedTake        // condition.h:88-90: c_signaled-- unless it is 0
    | TimedLeave       // condition.h:91: c_waiting--
    | AcquireTest      // threads.h:49: while (*act)
    | AcquireSet       // threads.h:52: *act = true
    | Inside           // between ACQUIRE and RELEASE, holding the lock
    | InsideUnlocked   // * the same, having given up the lock for a while
    | ReleaseClear     // threads.h:69: *act = false
    | ReleaseBroadcast // threads.h:70
    | ReleaseUnlock    // threads.h:71

  datatype State = State(pc: seq<Pc>, mutex: Option<Id>, waiting: int, signaled: int, active: bool, usage: Usage)

  datatype Label =
    | Lock(t: Id) | Unlock(t: Id) | Wait(t: Id) | TimedWait(t: Id, sec: int, nsec: int) | CallBroadcast(t: Id)
    | Acquire(t: Id) | StepOut(t: Id) | StepIn(t: Id) | Release(t: Id)
    | Run(t: Id, clock: Time)  // clock: what gettimeofday returns if this action calls it

  predicate NoMutex(p: Pc) {
    p.Out? || p.YieldLock? || p.LoopLock? || p.TimedRead? || p.TimedLock? || p.InsideUnlocked?
  }

  predicate TakesMutex(p: Pc) { NoMutex(p) && !p.TimedRead? }

  predicate Enabled(st: State, l: Label) {
    && l.t < |st.pc|
    && match l
       case Lock(t) => st.pc[t].Out? && st.mutex.None? && !st.usage.Macros?
       case Unlock(t) => st.pc[t].Holding?
       case Wait(t) => st.pc[t].Holding?
       case TimedWait(t, _, _) => st.pc[t].Holding? && st.usage.WithTimeouts?
       case CallBroadcast(t) => st.pc[t].Holding?
       case Acquire(t) => st.pc[t].Out? && st.mutex.None? && st.usage.Macros?
       case StepOut(t) => st.pc[t].Inside?
       case StepIn(t) => st.pc[t].InsideUnlocked? && st.mutex.None?
       case Release(t) => st.pc[t].Inside?
       case Run(t, _) =>
         && !st.pc[t].Out? && !st.pc[t].Holding? && !st.pc[t].Inside? && !st.pc[t].InsideUnlocked?
         && (TakesMutex(st.pc[t]) ==> st.mutex.None?)
  }

  function Move(st: State, t: Id, p: Pc): State
    requires t < |st.pc|
  {
    st.(pc := st.pc[t := p])
  }

  /** Where condition_wait returns to. */
  function Caller(u: Usage): Pc { if u.Macros? then AcquireTest else Holding }

  /** condition_wait and condition_broadcast */
  function ExecWait(st: State, t: Id): State
    requires t < |st.pc|
  {
    match st.pc[t]
    case Broadcast => Move(st, t, Holding).(signaled := st.waiting)
    case WaitCount => Move(st, t, WaitTest).(waiting := st.waiting + 1)
    case WaitTest => Move(st, t, if st.signaled != 0 then WaitUndo else LoopTest)
    case WaitUndo => Move(st, t, YieldUnlock).(waiting := st.waiting - 1)
    case YieldUnlock => Move(st, t, YieldLock).(mutex := None)
    case YieldLock => Move(st, t, Caller(st.usage)).(mutex := Some(t))
    case LoopTest => Move(st, t, if st.signaled == 0 then LoopUnlock else WaitTake)
    case LoopUnlock => Move(st, t, LoopLock).(mutex := None)
    case LoopLock => Move(st, t, LoopTest).(mutex := Some(t))
    case WaitTake => Move(st, t, WaitLeave).(signaled := st.signaled - 1)
    case WaitLeave => Move(st, t, Caller(st.usage)).(waiting := st.waiting - 1)
    case _ => st
  }

  /** condition_timedwait */
  function ExecTimed(st: State, t: Id, clock: Time): State
    requires t < |st.pc|
  {
    match st.pc[t]
    case TimedCount(d) => Move(st, t, TimedTest(d)).(waiting := st.waiting + 1)
    case TimedTest(d) => Move(st, t, if st.signaled == 0 then TimedUnlock(d) else TimedTake)
    case TimedUnlock(d) => Move(st, t, TimedRead(d)).(mutex := None)
    case TimedRead(d) => Move(st, t, TimedLock(d, clock))
    case TimedLock(d, now) => Move(st, t, TimedLoopTest(d, now)).(mutex := Some(t))
    case TimedLoopTest(d, now) => Move(st, t, if st.signaled == 0 && GoesOn(now, d) then TimedUnlock(d) else TimedTake)
    case TimedTake => Move(st, t, TimedLeave).(signaled := if st.signaled != 0 then st.signaled - 1 else 0)
    case TimedLeave => Move(st, t, Holding).(waiting := st.waiting - 1)
    case _ => st
  }

  /** ACQUIRE_THREAD and RELEASE_THREAD */
  function ExecMacro(st: State, t: Id): State
    requires t < |st.pc|
  {
    match st.pc[t]
    case AcquireTest => Move(st, t, if st.active then WaitCount else AcquireSet)
    case AcquireSet => Move(st, t, Inside).(active := true)
    case ReleaseClear => Move(st, t, ReleaseBroadcast).(active := false)
    case ReleaseBroadcast => Move(st, t, ReleaseUnlock).(signaled := st.waiting)
    case ReleaseUnlock => Move(st, t, Out).(mutex := None)
    case _ => st
  }

  function Exec(st: State, t: Id, clock: Time): State
    requires t < |st.pc|
  {
    if Timed(st.pc[t]) then ExecTimed(st, t, clock)
    else if Macro(st.pc[t]) then ExecMacro(st, t)
    else ExecWait(st, t)
  }

  function Apply(st: State, l: Label): State
    requires Enabled(st, l)
  {
    match l
    case Lock(t) => Move(st, t, Holding).(mutex := Some(t))
    case Unlock(t) => Move(st, t, Out).(mutex := None)
    case Wait(t) => Move(st, t, WaitCount)
    case TimedWait(t, sec, nsec) => Move(st, t, TimedCount(Deadline(sec, nsec)))
    case CallBroadcast(t) => Move(st, t, Broadcast)
    case Acquire(t) => Move(st, t, AcquireTest).(mutex := Some(t))
    case StepOut(t) => Move(st, t, InsideUnlocked).(mutex := None)
    case StepIn(t) => Move(st, t, Inside).(mutex := Some(t))
    case Release(t) => Move(st, t, ReleaseClear)
    case Run(t, clock) => Exec(st, t, clock)
  }

  ghost predicate Init(st: State) {
    && st.mutex == None && st.waiting == 0 && st.signaled == 0 && !st.active
    && forall t :: 0 <= t < |st.pc| ==> st.pc[t] == Out
  }

  // ---------------------------------------------------------------- counting threads

  predicate Registered(p: Pc) {  // counted in c_waiting
    p.WaitTest? || p.WaitUndo? || p.LoopTest? || p.LoopUnlock? || p.LoopLock? || p.WaitTake? || p.WaitLeave? ||
    p.TimedTest? || p.TimedUnlock? || p.TimedRead? || p.TimedLock? || p.TimedLoopTest? || p.TimedTake? || p.TimedLeave?
  }

  predicate Entitled(p: Pc) {  // in the wait loop and without a token yet
    p.LoopTest? || p.LoopUnlock? || p.LoopLock? || p.WaitTake? ||
    p.TimedUnlock? || p.TimedRead? || p.TimedLock? || p.TimedLoopTest? || p.TimedTake?
  }

  predicate Within(p: Pc) {  // between ACQUIRE and RELEASE
    p.Inside? || p.InsideUnlocked? || p.ReleaseClear?
  }

  predicate Timed(p: Pc) {
    p.TimedCount? || p.TimedTest? || p.TimedUnlock? || p.TimedRead? || p.TimedLock? || p.TimedLoopTest? || p.TimedTake? || p.TimedLeave?
  }

  predicate Macro(p: Pc) {
    p.AcquireTest? || p.AcquireSet? || Within(p) || p.ReleaseBroadcast? || p.ReleaseUnlock?
  }

  function Reg(p: Pc): int { if Registered(p) then 1 else 0 }
  function Ent(p: Pc): int { if Entitled(p) then 1 else 0 }
  function In(p: Pc): int { if Within(p) then 1 else 0 }

  function Registrations(st: State): int { Sum(st.pc, Reg) }
  function Entitlements(st: State): int { Sum(st.pc, Ent) }
  function Occupancy(st: State): int { Sum(st.pc, In) }

  // ---------------------------------------------------------------- invariant

  ghost predicate MutexOk(pc: seq<Pc>, mutex: Option<Id>) {
    && (forall t :: 0 <= t < |pc| && !NoMutex(pc[t]) ==> mutex == Some(t))
    && (mutex.Some? ==> mutex.value < |pc| && !NoMutex(pc[mutex.value]))
  }

  /** Program points that the usage of the run allows. */
  ghost predicate UsageOk(pc: seq<Pc>, usage: Usage) {
    forall t :: 0 <= t < |pc| ==> Allowed(pc[t], usage)
  }

  predicate Allowed(p: Pc, usage: Usage) {
    && (Timed(p) ==> usage.WithTimeouts?)
    && (Macro(p) ==> usage.Macros?)
    && (p.Holding? || p.Broadcast? ==> !usage.Macros?)
  }

  /** What the mutex holder has found out and nobody can have changed since. */
  ghost predicate Found(p: Pc, signaled: int, active: bool, usage: Usage) {
    && (p.WaitTake? ==> signaled != 0)
    && (p.AcquireSet? || p.ReleaseBroadcast? ==> !active)
    && (usage.Macros? && (p.WaitCount? || p.WaitTest?) ==> active)
  }

  ghost predicate FoundOk(st: State) {
    forall t :: 0 <= t < |st.pc| ==> Found(st.pc[t], st.signaled, st.active, st.usage)
  }

  /** Tokens: never more than threads that may take one; without timeouts all or nothing. */
  ghost predicate TokensOk(st: State) {
    && st.waiting == Registrations(st)
    && 0 <= st.signaled <= Entitlements(st)
    && (!st.usage.WithTimeouts? ==> st.signaled == 0 || st.signaled == Entitlements(st))
  }

  ghost predicate Broadcasting(st: State) {
    st.mutex.Some? && st.mutex.value < |st.pc| && st.pc[st.mutex.value].ReleaseBroadcast?
  }

  /** The door: closed iff somebody is inside; when it is open, everybody in the loop has a token. */
  ghost predicate DoorOk(st: State) {
    st.usage.Macros? ==>
      && Occupancy(st) == (if st.active then 1 else 0)
      && (!st.active && !Broadcasting(st) ==> st.signaled == Entitlements(st))
  }

  ghost predicate Inv(st: State) {
    MutexOk(st.pc, st.mutex) && UsageOk(st.pc, st.usage) && FoundOk(st) && TokensOk(st) && DoorOk(st)
  }

  // ---------------------------------------------------------------- steps

  /** st' moves thread t only, and the mutex accordingly. */
  predicate Moves(st: State, st': State, t: Id) {
    && t < |st.pc| == |st'.pc| && st'.pc == st.pc[t := st'.pc[t]] && st'.usage == st.usage
    && LockMove(!NoMutex(st.pc[t]), !NoMutex(st'.pc[t]), st.mutex, st'.mutex, t)
  }

  lemma WaitFlow(st: State, t: Id)
    requires t < |st.pc| && (TakesMutex(st.pc[t]) ==> st.mutex.None?)
    ensures Moves(st, ExecWait(st, t), t)
  {}

  lemma TimedFlow(st: State, t: Id, clock: Time)
    requires t < |st.pc| && (TakesMutex(st.pc[t]) ==> st.mutex.None?)
    ensures Moves(st, ExecTimed(st, t, clock), t)
  {}

  lemma MacroFlow(st: State, t: Id)
    requires t < |st.pc|
    ensures Moves(st, ExecMacro(st, t), t)
  {}

  lemma Flow(st: State, l: Label)
    requires Enabled(st, l)
    ensures Moves(st, Apply(st, l), l.t)
  {
    if l.Run? {
      if Timed(st.pc[l.t]) {
        TimedFlow(st, l.t, l.clock);
      } else if Macro(st.pc[l.t]) {
        MacroFlow(st, l.t);
      } else {
        WaitFlow(st, l.t);
      }
    }
  }

  lemma MutexKept(pc: seq<Pc>, mutex: Option<Id>, t: Id, p: Pc, mutex': Option<Id>)
    requires MutexOk(pc, mutex) && t < |pc| && LockMove(!NoMutex(pc[t]), !NoMutex(p), mutex, mutex', t)
    ensures MutexOk(pc[t := p], mutex')
  {}

  lemma RunStaysAllowed(st: State, t: Id, clock: Time)
    requires t < |st.pc| && Allowed(st.pc[t], st.usage)
    ensures |Exec(st, t, clock).pc| == |st.pc| && Allowed(Exec(st, t, clock).pc[t], st.usage)
  {
    if Timed(st.pc[t]) {
      assert Exec(st, t, clock) == ExecTimed(st, t, clock);
    } else if Macro(st.pc[t]) {
      assert Exec(st, t, clock) == ExecMacro(st, t);
    } else {
      assert Exec(st, t, clock) == ExecWait(st, t);
    }
  }

  lemma StaysAllowed(st: State, l: Label)
    requires Enabled(st, l) && Allowed(st.pc[l.t], st.usage)
    ensures |Apply(st, l).pc| == |st.pc| && Allowed(Apply(st, l).pc[l.t], st.usage)
  {
    if l.Run? {
      RunStaysAllowed(st, l.t, l.clock);
    }
  }

  lemma UsageKept(st: State, l: Label)
    requires Enabled(st, l) && UsageOk(st.pc, st.usage)
    ensures UsageOk(Apply(st, l).pc, st.usage)
  {
    Flow(st, l);
    StaysAllowed(st, l);
  }

  /** Whoever changes a counter or the flag holds the mutex, so nobody else has anything to forget. */
  lemma FoundKept(st: State, l: Label)
    requires Enabled(st, l) && MutexOk(st.pc, st.mutex) && UsageOk(st.pc, st.usage) && FoundOk(st)
    ensures FoundOk(Apply(st, l))
  {
    Flow(st, l);
    var st' := Apply(st, l);
    OwnFound(st, l);
    if NoMutex(st.pc[l.t]) {
      SharedKept(st, l);
    }
    forall u | 0 <= u < |st.pc| ensures Found(st'.pc[u], st'.signaled, st'.active, st'.usage) {
      assert Found(st.pc[u], st.signaled, st.active, st.usage);
      if u != l.t && !NoMutex(st.pc[l.t]) {
        assert NoMutex(st.pc[u]);
      }
    }
  }

  lemma OwnFound(st: State, l: Label)
    requires Enabled(st, l) && Allowed(st.pc[l.t], st.usage) && Found(st.pc[l.t], st.signaled, st.active, st.usage)
    ensures var st' := Apply(st, l); |st'.pc| == |st.pc| && Found(st'.pc[l.t], st'.signaled, st'.active, st'.usage)
  {
    if l.Run? {
      RunFound(st, l.t, l.clock);
    }
  }

  lemma RunFound(st: State, t: Id, clock: Time)
    requires t < |st.pc| && Allowed(st.pc[t], st.usage) && Found(st.pc[t], st.signaled, st.active, st.usage)
    ensures var st' := Exec(st, t, clock); |st'.pc| == |st.pc| && Found(st'.pc[t], st'.signaled, st'.active, st'.usage)
  {}

  lemma SharedKept(st: State, l: Label)
    requires Enabled(st, l) && NoMutex(st.pc[l.t])
    ensures Apply(st, l).signaled == st.signaled && Apply(st, l).active == st.active
  {}

  lemma Counts(pc: seq<Pc>, t: Id, p: Pc)
    requires t < |pc|
    ensures Sum(pc[t := p], Reg) == Sum(pc, Reg) - Reg(pc[t]) + Reg(p)
    ensures Sum(pc[t := p], Ent) == Sum(pc, Ent) - Ent(pc[t]) + Ent(p)
    ensures Sum(pc[t := p], In) == Sum(pc, In) - In(pc[t]) + In(p)
  {
    SumUpdate(pc, t, p, Reg);
    SumUpdate(pc, t, p, Ent);
    SumUpdate(pc, t, p, In);
  }

  /** Away from the mutex, being registered and being entitled are the same. */
  lemma {:induction false} LoopersOnly(pc: seq<Pc>)
    requires forall t :: 0 <= t < |pc| ==> Reg(pc[t]) == Ent(pc[t])
    ensures Sum(pc, Reg) == Sum(pc, Ent)
  {
    if pc != [] {
      LoopersOnly(pc[1..]);
    }
  }

  /** When t holds the mutex and is not registered, or nobody holds it, c_waiting is the number of
      threads in the wait loop. */
  lemma WaitingIsLoopers(st: State)
    requires MutexOk(st.pc, st.mutex) && st.waiting == Registrations(st)
    requires st.mutex.Some? ==> !Registered(st.pc[st.mutex.value])
    ensures st.waiting == Entitlements(st)
  {
    forall t | 0 <= t < |st.pc| ensures Reg(st.pc[t]) == Ent(st.pc[t]) {
      if !NoMutex(st.pc[t]) {
        assert st.mutex == Some(t);
      }
    }
    LoopersOnly(st.pc);
  }

  /** The change of the counters in one step, against the change of the numbers they stand for. */
  ghost predicate TokenStep(st: State, st': State, t: Id)
    requires t < |st.pc| == |st'.pc|
  {
    var r, e := Reg(st'.pc[t]) - Reg(st.pc[t]), Ent(st'.pc[t]) - Ent(st.pc[t]);
    && st'.waiting == st.waiting + r
    && ( || (st'.signaled == st.signaled && e == 0)
         || (st'.signaled == st.signaled && e == 1 && (st.signaled == 0 || st.usage.WithTimeouts?))
         || (st'.signaled == st.signaled - 1 && st.signaled > 0 && e == -1)
         || (st'.signaled == st.signaled == 0 && e == -1 && st.usage.WithTimeouts?)
         || (st'.signaled == st.waiting && e == r == 0 && st.mutex == Some(t) && !Registered(st.pc[t])))
  }

  lemma WaitTokens(st: State, t: Id)
    requires t < |st.pc| && (!NoMutex(st.pc[t]) ==> st.mutex == Some(t))
    requires Found(st.pc[t], st.signaled, st.active, st.usage) && st.signaled >= 0
    ensures TokenStep(st, ExecWait(st, t), t)
  {}

  lemma TimedTokens(st: State, t: Id, clock: Time)
    requires t < |st.pc| && st.usage.WithTimeouts? && st.signaled >= 0
    ensures TokenStep(st, ExecTimed(st, t, clock), t)
  {}

  lemma MacroTokens(st: State, t: Id)
    requires t < |st.pc| && (!NoMutex(st.pc[t]) ==> st.mutex == Some(t))
    ensures TokenStep(st, ExecMacro(st, t), t)
  {}

  lemma CallTokens(st: State, l: Label)
    requires Enabled(st, l) && !l.Run?
    ensures |Apply(st, l).pc| == |st.pc| && TokenStep(st, Apply(st, l), l.t)
  {}

  lemma StepTokens(st: State, l: Label)
    requires Enabled(st, l) && MutexOk(st.pc, st.mutex) && Allowed(st.pc[l.t], st.usage)
    requires Found(st.pc[l.t], st.signaled, st.active, st.usage) && st.signaled >= 0
    ensures |Apply(st, l).pc| == |st.pc| && TokenStep(st, Apply(st, l), l.t)
  {
    if l.Run? {
      RunTokens(st, l.t, l.clock);
    } else {
      CallTokens(st, l);
    }
  }

  lemma RunTokens(st: State, t: Id, clock: Time)
    requires t < |st.pc| && (!NoMutex(st.pc[t]) ==> st.mutex == Some(t)) && Allowed(st.pc[t], st.usage)
    requires Found(st.pc[t], st.signaled, st.active, st.usage) && st.signaled >= 0
    ensures |Exec(st, t, clock).pc| == |st.pc| && TokenStep(st, Exec(st, t, clock), t)
  {
    if Timed(st.pc[t]) {
      TimedTokens(st, t, clock);
    } else if Macro(st.pc[t]) {
      MacroTokens(st, t);
    } else {
      WaitTokens(st, t);
    }
  }

  lemma TokensKept(st: State, l: Label)
    requires Enabled(st, l) && Inv(st)
    ensures TokensOk(Apply(st, l))
  {
    var st' := Apply(st, l);
    Flow(st, l);
    assert Found(st.pc[l.t], st.signaled, st.active, st.usage);
    StepTokens(st, l);
    TokensFromStep(st, st', l.t);
  }

  lemma TokensFromStep(st: State, st': State, t: Id)
    requires MutexOk(st.pc, st.mutex) && TokensOk(st) && Moves(st, st', t) && TokenStep(st, st', t)
    ensures TokensOk(st')
  {
    Counts(st.pc, t, st'.pc[t]);
    SumNonNegative(st.pc, Ent);
    SumNonNegative(st'.pc, Ent);
    if st.mutex == Some(t) && !Registered(st.pc[t]) {
      WaitingIsLoopers(st);
    }
  }

  /** How one step moves the door and the tokens under the macros. */
  ghost predicate DoorStep(st: State, st': State, t: Id)
    requires t < |st.pc| == |st'.pc|
  {
    var p, q := st.pc[t], st'.pc[t];
    && In(q) - In(p) == (if st'.active then 1 else 0) - (if st.active then 1 else 0)
    && (p.ReleaseBroadcast? ==> st'.signaled == st.waiting && !st'.active && !Entitled(q))
    && (st.active && !st'.active ==> q.ReleaseBroadcast? && st'.mutex == Some(t))
    && (!st.active && !p.ReleaseBroadcast? ==> Ent(q) - Ent(p) == st'.signaled - st.signaled)
  }

  lemma WaitDoor(st: State, t: Id)
    requires t < |st.pc| && st.usage.Macros? && Found(st.pc[t], st.signaled, st.active, st.usage)
    requires !st.pc[t].Broadcast? && !Timed(st.pc[t]) && !Macro(st.pc[t])
    ensures DoorStep(st, ExecWait(st, t), t)
  {}

  lemma MacroDoor(st: State, t: Id)
    requires t < |st.pc| && Found(st.pc[t], st.signaled, st.active, st.usage)
    requires st.pc[t].ReleaseClear? ==> st.active && st.mutex == Some(t)
    ensures DoorStep(st, ExecMacro(st, t), t)
  {}

  /** Whoever is inside closed the door behind it; whoever is about to broadcast has opened it. */
  lemma DoorFacts(st: State, t: Id)
    requires Inv(st) && st.usage.Macros? && t < |st.pc|
    ensures Within(st.pc[t]) ==> st.active
    ensures st.pc[t].ReleaseClear? ==> st.mutex == Some(t)
    ensures !Timed(st.pc[t]) && !st.pc[t].Broadcast? && !st.pc[t].Holding?
  {
    SumAtLeast(st.pc, t, In);
  }

  lemma CallDoor(st: State, l: Label)
    requires Enabled(st, l) && !l.Run?
    ensures |Apply(st, l).pc| == |st.pc| && DoorStep(st, Apply(st, l), l.t)
  {}

  lemma DoorFromStep(st: State, st': State, t: Id)
    requires Inv(st) && st.usage.Macros? && Moves(st, st', t) && DoorStep(st, st', t)
    requires TakesMutex(st.pc[t]) ==> st.mutex.None?
    ensures DoorOk(st')
  {
    Counts(st.pc, t, st'.pc[t]);
    if st.pc[t].ReleaseBroadcast? {
      WaitingIsLoopers(st);
      assert Found(st.pc[t], st.signaled, st.active, st.usage);
    }
  }

  lemma DoorKept(st: State, l: Label)
    requires Enabled(st, l) && Inv(st) && st.usage.Macros?
    ensures DoorOk(Apply(st, l))
  {
    var t := l.t;
    Flow(st, l);
    DoorFacts(st, t);
    assert Found(st.pc[t], st.signaled, st.active, st.usage);
    if !l.Run? {
      CallDoor(st, l);
    } else if Macro(st.pc[t]) {
      MacroDoor(st, t);
    } else {
      WaitDoor(st, t);
    }
    DoorFromStep(st, Apply(st, l), t);
  }

  lemma StepInv(st: State, l: Label)
    requires Inv(st) && Enabled(st, l)
    ensures Inv(Apply(st, l))
  {
    Flow(st, l);
    MutexKept(st.pc, st.mutex, l.t, Apply(st, l).pc[l.t], Apply(st, l).mutex);
    UsageKept(st, l);
    FoundKept(st, l);
    TokensKept(st, l);
    if st.usage.Macros? {
      DoorKept(st, l);
    }
  }

  // ---------------------------------------------------------------- whole runs

  ghost predicate Next(st: State, st': State) {
    exists l :: Enabled(st, l) && st' == Apply(st, l)
  }

  ghost predicate StepAt(run: seq<State>, i: nat) {
    i + 1 < |run| ==> Next(run[i], run[i + 1])
  }

  ghost predicate IsRun(run: seq<State>) {
    |run| > 0 && Init(run[0]) && forall i: nat :: StepAt(run, i)
  }

  lemma NextInv(st: State, st': State)
    requires Inv(st) && Next(st, st')
    ensures Inv(st')
  {
    var l :| Enabled(st, l) && st' == Apply(st, l);
    StepInv(st, l);
  }

  lemma InitInv(st: State)
    requires Init(st)
    ensures Inv(st)
  {
    SumZero(st.pc, Reg);
    SumZero(st.pc, Ent);
    SumZero(st.pc, In);
  }

  lemma {:induction false} RunInv(run: seq<State>, k: nat)
    requires IsRun(run) && k < |run|
    ensures Inv(run[k])
  {
    if k == 0 {
      InitInv(run[0]);
    } else {
      RunInv(run, k - 1);
      assert StepAt(run, k - 1);
      NextInv(run[k - 1], run[k]);
    }
  }

  /** Whenever the mutex is free, c_waiting is the number of threads in the wait loop and
      0 <= c_signaled <= c_waiting; without condition_timedwait c_signaled is 0 or c_waiting, so every
      thread in the loop has a token or none has, and late arrivals steal none. */
  lemma TokensAreExact(run: seq<State>, k: nat)
    requires IsRun(run) && k < |run| && run[k].mutex.None?
    ensures run[k].waiting == Entitlements(run[k]) && 0 <= run[k].signaled <= run[k].waiting
    ensures !run[k].usage.WithTimeouts? ==> run[k].signaled == 0 || run[k].signaled == run[k].waiting
  {
    RunInv(run, k);
    WaitingIsLoopers(run[k]);
  }

  /** At most one thread is between ACQUIRE_THREAD and RELEASE_THREAD, and then `active` is true. */
  lemma MutualExclusion(run: seq<State>, k: nat, t: Id, u: Id)
    requires IsRun(run) && k < |run| && run[k].usage.Macros? && t < |run[k].pc| && u < |run[k].pc|
    requires Within(run[k].pc[t]) && Within(run[k].pc[u])
    ensures t == u && run[k].active
  {
    RunInv(run, k);
    SumAtLeast(run[k].pc, t, In);
    if t != u {
      TwoInside(run[k].pc, t, u);
    }
  }

  lemma TwoInside(pc: seq<Pc>, t: Id, u: Id)
    requires t < |pc| && u < |pc| && t != u && Within(pc[t]) && Within(pc[u])
    ensures Sum(pc, In) >= 2
  {
    Counts(pc, t, Out);
    SumAtLeast(pc[t := Out], u, In);
  }

  /** No stranded acquirer: whenever the lock is free and `active` is false, every thread in the wait
      loop has a token with which to leave it. */
  lemma NobodyStranded(run: seq<State>, k: nat)
    requires IsRun(run) && k < |run| && run[k].usage.Macros? && run[k].mutex.None? && !run[k].active
    ensures run[k].signaled == run[k].waiting == Entitlements(run[k])
  {
    RunInv(run, k);
    WaitingIsLoopers(run[k]);
  }

  // ---------------------------------------------------------------- the deadline

  /** The moment the deadline is meant to stand for has not come yet. */
  predicate Before(now: Time, deadline: Time) {
    now.sec < deadline.sec || (now.sec == deadline.sec && now.usec < deadline.usec)
  }

  /** The test of condition_timedwait is the intended one iff the clock is not within the deadline's own
      second, or is and has not reached its microseconds: the microseconds never end a wait. */
  lemma DeadlineTestIff(now: Time, deadline: Time)
    ensures GoesOn(now, deadline) <==> now.sec <= deadline.sec
    ensures (GoesOn(now, deadline) <==> Before(now, deadline)) <==>
            (now.sec != deadline.sec || now.usec < deadline.usec)
  {}

  /** A timed wait that found no token when it tested the clock goes on iff the deadline's second is not over. */
  lemma TimeoutIsWholeSeconds(st: State, t: Id, clock: Time)
    requires Enabled(st, Run(t, clock)) && st.pc[t].TimedLoopTest? && st.signaled == 0
    ensures var p, q := st.pc[t], Apply(st, Run(t, clock)).pc[t];
            (q == TimedTake <==> p.now.sec > p.deadline.sec) && (q == TimedUnlock(p.deadline) <==> p.now.sec <= p.deadline.sec)
  {}

  /** The states of a run of one timed wait without a broadcast, with deadline d and clock reading now. */
  function TimedRun(d: Time, now: Time): seq<State> {
    var out, held := State([Out], None, 0, 0, false, WithTimeouts), State([Holding], Some(0), 0, 0, false, WithTimeouts);
    var locked, unlocked := held.(waiting := 1), out.(waiting := 1);
    [out, held, held.(pc := [TimedCount(d)]), locked.(pc := [TimedTest(d)]), locked.(pc := [TimedUnlock(d)]),
     unlocked.(pc := [TimedRead(d)]), unlocked.(pc := [TimedLock(d, now)]), locked.(pc := [TimedLoopTest(d, now)]),
     locked.(pc := [TimedUnlock(d)])]
  }

  lemma TimedRunStarts(sec: int, nsec: int, now: Time)
    ensures var d := Deadline(sec, nsec); var run := TimedRun(d, now); StepAt(run, 0) && StepAt(run, 1)
  {
    var d := Deadline(sec, nsec);
    var run := TimedRun(d, now);
    Follow(run[0], Lock(0), run[1]);
    Follow(run[1], TimedWait(0, sec, nsec), run[2]);
  }

  lemma TimedRunEnters(d: Time, now: Time)
    ensures var run := TimedRun(d, now); StepAt(run, 2) && StepAt(run, 3)
  {
    var run := TimedRun(d, now);
    Follow(run[2], Run(0, now), run[3]);
    Follow(run[3], Run(0, now), run[4]);
  }

  lemma TimedRunReads(d: Time, now: Time)
    ensures var run := TimedRun(d, now); StepAt(run, 4) && StepAt(run, 5)
  {
    var run := TimedRun(d, now);
    Follow(run[4], Run(0, now), run[5]);
    Follow(run[5], Run(0, now), run[6]);
  }

  lemma TimedRunLoops(d: Time, now: Time)
    requires now.sec <= d.sec
    ensures var run := TimedRun(d, now); StepAt(run, 6) && StepAt(run, 7)
  {
    var run := TimedRun(d, now);
    Follow(run[6], Run(0, now), run[7]);
    Follow(run[7], Run(0, now), run[8]);
  }

  lemma Follow(st: State, l: Label, st': State)
    requires Enabled(st, l) && Apply(st, l) == st'
    ensures Next(st, st')
  {}

  /** Overrunning a deadline happens: for every deadline and every clock reading in the same second at or
      after it there is a run that reads that clock and waits on. */
  lemma DeadlineOverrun(sec: int, nsec: int, now: Time) returns (run: seq<State>)
    requires now.sec == sec && !Before(now, Deadline(sec, nsec))
    ensures IsRun(run) && |run| == 9 && run[7].signaled == 0
    ensures run[7].pc == [TimedLoopTest(Deadline(sec, nsec), now)] && run[8].pc == [TimedUnlock(Deadline(sec, nsec))]
  {
    run := TimedRun(Deadline(sec, nsec), now);
    TimedRunStarts(sec, nsec, now);
    TimedRunEnters(Deadline(sec, nsec), now);
    TimedRunReads(Deadline(sec, nsec), now);
    TimedRunLoops(Deadline(sec, nsec), now);
    forall i: nat ensures StepAt(run, i) {
      assert i < 8 ==> i == 0 || i == 1 || i == 2 || i == 3 || i == 4 || i == 5 || i == 6 || i == 7;
    }
  }
}
