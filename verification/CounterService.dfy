/** What the tokens of the counter-based condition are good for: with a token for everybody all waits return, an
    open door lets an acquirer in, and by the labels of the calls a broadcast gives everybody a token, a wait
    returns only after it saw one, and a timed wait goes on exactly while its second lasts. */
module CounterService {
  import opened Base
  import opened CounterCondition

  // ---------------------------------------------------------------- with a token each, all waits return

  /** Points of a wait that has, or will find, a token; and of callers that give the mutex up. */
  predicate DrainPc(p: Pc) {
    p.Out? || p.Holding? || p.YieldLock? || p.LoopLock? || p.LoopTest? || p.WaitTake? || p.WaitLeave? ||
    p.TimedRead? || p.TimedLock? || p.TimedLoopTest? || p.TimedTake? || p.TimedLeave?
  }

  ghost predicate Draining(st: State) {
    && Inv(st) && !st.usage.Macros? && st.signaled == Entitlements(st)
    && forall t :: 0 <= t < |st.pc| ==> DrainPc(st.pc[t])
  }

  /** Nothing new is called; callers give the mutex up. */
  predicate DrainLabel(l: Label) { l.Run? || l.Unlock? }

  function Rank(p: Pc): int {
    match p
    case TimedRead(_) => 6          case LoopLock => 5     case TimedLock(_, _) => 5
    case LoopTest => 4              case WaitTake => 3     case WaitLeave => 2
    case TimedLoopTest(_, _) => 4   case TimedTake => 3    case TimedLeave => 2
    case YieldLock => 2             case Holding => 1      case _ => 0
  }

  function Measure(st: State): int { Sum(st.pc, Rank) }

  lemma StartsDraining(run: seq<State>, k: nat)
    requires IsRun(run) && k < |run| && !run[k].usage.Macros? && run[k].mutex.None? && run[k].signaled == run[k].waiting
    ensures Draining(run[k])
  {
    RunInv(run, k);
    WaitingIsLoopers(run[k]);
    forall t | 0 <= t < |run[k].pc| ensures DrainPc(run[k].pc[t]) {
      assert NoMutex(run[k].pc[t]) && Allowed(run[k].pc[t], run[k].usage);
    }
  }

  lemma DrainRun(st: State, t: Id, clock: Time)
    requires t < |st.pc| && DrainPc(st.pc[t]) && !st.pc[t].Out? && !st.pc[t].Holding? && !st.usage.Macros?
    requires Entitled(st.pc[t]) ==> st.signaled >= 1
    ensures var st' := Exec(st, t, clock);
            && |st'.pc| == |st.pc| && st'.usage == st.usage && DrainPc(st'.pc[t]) && Rank(st'.pc[t]) < Rank(st.pc[t])
            && st'.signaled - st.signaled == Ent(st'.pc[t]) - Ent(st.pc[t])
  {
    match st.pc[t] {
      case YieldLock | LoopLock | LoopTest | WaitTake | WaitLeave =>
      case TimedRead(_) | TimedLock(_, _) | TimedLoopTest(_, _) | TimedTake | TimedLeave =>
    }
  }

  lemma DrainStepKeeps(st: State, l: Label)
    requires Draining(st) && DrainLabel(l) && Enabled(st, l)
    ensures Draining(Apply(st, l)) && 0 <= Measure(Apply(st, l)) < Measure(st)
  {
    StepInv(st, l);
    Flow(st, l);
    DrainMove(st, l);
    DrainSums(st, Apply(st, l), l.t);
  }

  lemma DrainMove(st: State, l: Label)
    requires Draining(st) && DrainLabel(l) && Enabled(st, l)
    ensures var st' := Apply(st, l);
            && |st'.pc| == |st.pc| && st'.usage == st.usage && DrainPc(st'.pc[l.t]) && Rank(st'.pc[l.t]) < Rank(st.pc[l.t])
            && st'.signaled - st.signaled == Ent(st'.pc[l.t]) - Ent(st.pc[l.t])
  {
    if l.Run? {
      if Entitled(st.pc[l.t]) {
        SumAtLeast(st.pc, l.t, Ent);
      }
      DrainRun(st, l.t, l.clock);
    }
  }

  lemma DrainSums(st: State, st': State, t: Id)
    requires t < |st.pc| && |st'.pc| == |st.pc| && st'.pc == st.pc[t := st'.pc[t]] && Rank(st'.pc[t]) < Rank(st.pc[t])
    requires st'.signaled - st.signaled == Ent(st'.pc[t]) - Ent(st.pc[t]) && st.signaled == Entitlements(st)
    ensures st'.signaled == Entitlements(st') && 0 <= Measure(st') < Measure(st)
  {
    Counts(st.pc, t, st'.pc[t]);
    SumUpdate(st.pc, t, st'.pc[t], Rank);
    SumNonNegative(st'.pc, Rank);
  }

  /** A draining state with a thread that is not out is never stuck. */
  lemma DrainIsLive(st: State, t: Id) returns (l: Label)
    requires Draining(st) && t < |st.pc| && !st.pc[t].Out?
    ensures DrainLabel(l) && Enabled(st, l)
  {
    var u := if st.mutex.Some? then st.mutex.value else t;
    assert st.mutex.Some? ==> !NoMutex(st.pc[u]);
    assert st.mutex.None? ==> NoMutex(st.pc[u]);
    l := if st.pc[u].Holding? then Unlock(u) else Run(u, Time(0, 0));
  }

  ghost predicate DrainStep(st: State, st': State) {
    exists l :: DrainLabel(l) && Enabled(st, l) && st' == Apply(st, l)
  }

  ghost predicate DrainStepAt(run: seq<State>, i: nat) {
    i + 1 < |run| ==> DrainStep(run[i], run[i + 1])
  }

  ghost predicate IsDrain(run: seq<State>) {
    |run| > 0 && forall i: nat :: DrainStepAt(run, i)
  }

  lemma DrainAt(run: seq<State>, i: nat)
    requires IsDrain(run) && i + 1 < |run| && Draining(run[i])
    ensures Draining(run[i + 1]) && 0 <= Measure(run[i + 1]) < Measure(run[i])
  {
    assert DrainStepAt(run, i);
    var l :| DrainLabel(l) && Enabled(run[i], l) && run[i + 1] == Apply(run[i], l);
    DrainStepKeeps(run[i], l);
  }

  lemma {:induction false} DrainBounded(run: seq<State>, i: nat)
    requires IsDrain(run) && Draining(run[0]) && i < |run|
    ensures Draining(run[i]) && 0 <= Measure(run[i]) && i + Measure(run[i]) <= Measure(run[0])
  {
    if i == 0 {
      SumNonNegative(run[0].pc, Rank);
    } else {
      DrainBounded(run, i - 1);
      DrainAt(run, i - 1);
    }
  }

  lemma OutIsClean(st: State)
    requires Inv(st) && forall t :: 0 <= t < |st.pc| ==> st.pc[t].Out?
    ensures st.waiting == 0 && st.signaled == 0 && st.mutex == None
  {
    SumZero(st.pc, Reg);
    SumZero(st.pc, Ent);
  }

  /** From every reachable state with the mutex free and a token for each waiter, condition_timedwait included: a run
      of the waits in which nothing new is called has a bounded length, and if it cannot be extended every wait has
      returned, every caller has given up the mutex, and both counters are 0. */
  lemma TokensLetAllReturn(run: seq<State>)
    requires IsDrain(run) && Draining(run[0]) && forall l :: DrainLabel(l) ==> !Enabled(run[|run| - 1], l)
    ensures |run| - 1 <= Measure(run[0])
    ensures var last := run[|run| - 1];
            && (forall t :: 0 <= t < |last.pc| ==> last.pc[t].Out?)
            && last.waiting == 0 && last.signaled == 0 && last.mutex == None
  {
    var last := run[|run| - 1];
    DrainBounded(run, |run| - 1);
    forall t | 0 <= t < |last.pc| ensures last.pc[t].Out? {
      if !last.pc[t].Out? {
        var l := DrainIsLive(last, t);
      }
    }
    OutIsClean(last);
  }

  // ---------------------------------------------------------------- an open door lets an acquirer in

  /** Thread t is on its way in: the door is open, and t has or can take the lock. */
  ghost predicate Entering(st: State, t: Id) {
    && Inv(st) && st.usage.Macros? && t < |st.pc| && !st.active
    && (if NoMutex(st.pc[t]) then st.mutex == None else st.mutex == Some(t))
    && (st.pc[t].LoopLock? || st.pc[t].LoopTest? || st.pc[t].WaitTake? || st.pc[t].WaitLeave? || st.pc[t].YieldLock? ||
        st.pc[t].AcquireTest? || st.pc[t].AcquireSet?)
    && (st.pc[t].LoopLock? || st.pc[t].LoopTest? ==> st.signaled > 0)
  }

  function EnterRank(p: Pc): int {
    match p
    case LoopLock => 7    case LoopTest => 6     case WaitTake => 5    case WaitLeave => 4
    case YieldLock => 4   case AcquireTest => 3  case AcquireSet => 2
    case _ => 0
  }

  lemma EnterStep(st: State, t: Id, clock: Time)
    requires Entering(st, t)
    ensures Enabled(st, Run(t, clock))
    ensures var st' := Apply(st, Run(t, clock));
            && |st'.pc| == |st.pc| && (st'.pc[t].Inside? || (Entering(st', t) && 0 <= EnterRank(st'.pc[t]) < EnterRank(st.pc[t])))
  {
    StepInv(st, Run(t, clock));
    EnterMove(st, t, clock);
  }

  lemma EnterMove(st: State, t: Id, clock: Time)
    requires Entering(st, t)
    ensures var st' := Exec(st, t, clock);
            && |st'.pc| == |st.pc| && st'.usage == st.usage
            && (st.pc[t].AcquireSet? ==> st'.pc[t].Inside?)
            && (!st.pc[t].AcquireSet? ==>
                  && !st'.active && st'.mutex == Some(t) && EnterRank(st'.pc[t]) < EnterRank(st.pc[t])
                  && (st'.pc[t].LoopTest? ==> st'.signaled > 0)
                  && (st'.pc[t].LoopTest? || st'.pc[t].WaitTake? || st'.pc[t].WaitLeave? || st'.pc[t].AcquireTest? || st'.pc[t].AcquireSet?))
  {
    match st.pc[t] {
      case LoopLock | LoopTest | WaitTake | WaitLeave | YieldLock =>
      case AcquireTest | AcquireSet =>
    }
  }

  /** A finite continuation of a run. */
  ghost predicate IsPath(run: seq<State>) {
    |run| > 0 && forall i: nat :: StepAt(run, i)
  }

  lemma PathPrepend(st: State, rest: seq<State>)
    requires IsPath(rest) && Next(st, rest[0])
    ensures var run := [st] + rest; IsPath(run) && run[0] == st && run[|run| - 1] == rest[|rest| - 1]
  {
    var run := [st] + rest;
    forall i: nat ensures StepAt(run, i) {
      if i > 0 {
        assert StepAt(rest, i - 1);
      }
    }
  }

  lemma {:induction false} Enters(st: State, t: Id) returns (run: seq<State>)
    requires Entering(st, t)
    ensures IsPath(run) && run[0] == st && t < |run[|run| - 1].pc| && run[|run| - 1].pc[t].Inside?
    decreases EnterRank(st.pc[t])
  {
    EnterStep(st, t, Time(0, 0));
    var st' := Apply(st, Run(t, Time(0, 0)));
    assert Next(st, st');
    if st'.pc[t].Inside? {
      run := [st, st'];
      forall i: nat ensures StepAt(run, i) {}
    } else {
      var rest := Enters(st', t);
      PathPrepend(st, rest);
      run := [st] + rest;
    }
  }

  /** Whenever the lock is free and `active` is false, each thread that waits in ACQUIRE_THREAD, in the loop or after an
      early return, gets inside by its own actions alone. */
  lemma AcquirerEnters(run: seq<State>, k: nat, t: Id) returns (path: seq<State>)
    requires IsRun(run) && k < |run| && run[k].usage.Macros? && run[k].mutex.None? && !run[k].active
    requires t < |run[k].pc| && (run[k].pc[t].LoopLock? || run[k].pc[t].YieldLock?)
    ensures IsPath(path) && path[0] == run[k] && t < |path[|path| - 1].pc| && path[|path| - 1].pc[t].Inside?
  {
    RunInv(run, k);
    NobodyStranded(run, k);
    SumAtLeast(run[k].pc, t, Ent);
    path := Enters(run[k], t);
  }

  /** So does a thread that calls ACQUIRE_THREAD now. */
  lemma NewcomerEnters(run: seq<State>, k: nat, t: Id) returns (path: seq<State>)
    requires IsRun(run) && k < |run| && run[k].usage.Macros? && run[k].mutex.None? && !run[k].active
    requires t < |run[k].pc| && run[k].pc[t].Out?
    ensures IsPath(path) && path[0] == run[k] && t < |path[|path| - 1].pc| && path[|path| - 1].pc[t].Inside?
  {
    RunInv(run, k);
    StepInv(run[k], Acquire(t));
    var st' := Apply(run[k], Acquire(t));
    var rest := Enters(st', t);
    PathPrepend(run[k], rest);
    path := [run[k]] + rest;
  }

  /** Thread u is inside RELEASE_THREAD. */
  ghost predicate Opening(st: State, u: Id) {
    && Inv(st) && st.usage.Macros? && u < |st.pc| && st.mutex == Some(u)
    && (st.pc[u].ReleaseClear? || ((st.pc[u].ReleaseBroadcast? || st.pc[u].ReleaseUnlock?) && !st.active))
  }

  function OpenRank(p: Pc): int {
    match p
    case ReleaseClear => 3  case ReleaseBroadcast => 2  case ReleaseUnlock => 1
    case _ => 0
  }

  lemma OpenStep(st: State, u: Id, clock: Time)
    requires Opening(st, u)
    ensures Enabled(st, Run(u, clock))
    ensures var st' := Apply(st, Run(u, clock));
            && Inv(st') && st'.usage.Macros? && !st'.active && |st'.pc| == |st.pc| && st'.pc == st.pc[u := st'.pc[u]]
            && (if st.pc[u].ReleaseUnlock? then st'.pc[u].Out? && st'.mutex == None
                else Opening(st', u) && 0 <= OpenRank(st'.pc[u]) < OpenRank(st.pc[u]))
  {
    StepInv(st, Run(u, clock));
  }

  /** RELEASE_THREAD opens the door and leaves the waiting threads where they are. */
  lemma {:induction false} Opens(st: State, u: Id) returns (path: seq<State>)
    requires Opening(st, u)
    ensures IsPath(path) && path[0] == st
    ensures var last := path[|path| - 1];
            Inv(last) && last.usage.Macros? && !last.active && last.mutex == None && last.pc == st.pc[u := Out]
    decreases OpenRank(st.pc[u])
  {
    OpenStep(st, u, Time(0, 0));
    var st' := Apply(st, Run(u, Time(0, 0)));
    assert Next(st, st');
    if st.pc[u].ReleaseUnlock? {
      path := [st, st'];
      forall i: nat ensures StepAt(path, i) {}
    } else {
      var rest := Opens(st', u);
      PathPrepend(st, rest);
      path := [st] + rest;
    }
  }

  lemma Releases(st: State, u: Id) returns (path: seq<State>)
    requires Inv(st) && st.usage.Macros? && u < |st.pc| && st.pc[u].Inside?
    ensures IsPath(path) && path[0] == st
    ensures var last := path[|path| - 1];
            Inv(last) && last.usage.Macros? && !last.active && last.mutex == None && last.pc == st.pc[u := Out]
  {
    StepInv(st, Release(u));
    var st' := Apply(st, Release(u));
    assert Next(st, st') && st'.pc == st.pc[u := ReleaseClear];
    var rest := Opens(st', u);
    PathPrepend(st, rest);
    path := [st] + rest;
  }

  /** Inside, also with the lock given up for a while if it is free again. */
  ghost predicate CanRelease(st: State, u: Id) {
    u < |st.pc| && (st.pc[u].Inside? || (st.pc[u].InsideUnlocked? && st.mutex == None))
  }

  /** A thread that gave up the lock inside takes it again and releases. */
  lemma ReleasesAnyhow(st: State, u: Id) returns (path: seq<State>)
    requires Inv(st) && st.usage.Macros? && CanRelease(st, u)
    ensures IsPath(path) && path[0] == st
    ensures var last := path[|path| - 1];
            Inv(last) && last.usage.Macros? && !last.active && last.mutex == None && last.pc == st.pc[u := Out]
  {
    if st.pc[u].Inside? {
      path := Releases(st, u);
    } else {
      StepInv(st, StepIn(u));
      var st' := Apply(st, StepIn(u));
      assert Next(st, st') && st'.pc == st.pc[u := Inside];
      var rest := Releases(st', u);
      PathPrepend(st, rest);
      path := [st] + rest;
    }
  }

  /** Hence a release lets a waiting acquirer in. */
  lemma ReleaseLetsIn(run: seq<State>, k: nat, u: Id, t: Id) returns (release: seq<State>, path: seq<State>)
    requires IsRun(run) && k < |run| && run[k].usage.Macros? && CanRelease(run[k], u)
    requires t < |run[k].pc| && (run[k].pc[t].LoopLock? || run[k].pc[t].YieldLock?)
    ensures IsPath(release) && release[0] == run[k] && IsPath(path) && path[0] == release[|release| - 1]
    ensures t < |path[|path| - 1].pc| && path[|path| - 1].pc[t].Inside?
  {
    RunInv(run, k);
    release := ReleasesAnyhow(run[k], u);
    var st := release[|release| - 1];
    WaitingIsLoopers(st);
    SumAtLeast(st.pc, t, Ent);
    path := Enters(st, t);
  }

  // ---------------------------------------------------------------- calls by their labels

  ghost predicate TraceAt(run: seq<State>, ls: seq<Label>, k: nat) {
    k < |ls| && k + 1 < |run| ==> Enabled(run[k], ls[k]) && run[k + 1] == Apply(run[k], ls[k])
  }

  /** A run from an initial state together with the label of each step. */
  ghost predicate IsTrace(run: seq<State>, ls: seq<Label>) {
    |run| == |ls| + 1 && Init(run[0]) && forall k: nat :: TraceAt(run, ls, k)
  }

  lemma TraceInv(run: seq<State>, ls: seq<Label>, k: nat)
    requires IsTrace(run, ls) && k < |run|
    ensures IsRun(run) && Inv(run[k])
  {
    forall m: nat ensures StepAt(run, m) {
      assert TraceAt(run, ls, m);
    }
    RunInv(run, k);
  }

  /** Thread t's call starts with step i; `inside` holds of its program point until j. */
  ghost predicate CallSpans(run: seq<State>, ls: seq<Label>, i: nat, j: nat, t: Id, inside: Pc -> bool) {
    && IsTrace(run, ls) && i < j <= |ls| && t < |run[i].pc|
    && forall k {:trigger run[k]} :: i < k < j ==> t < |run[k].pc| && inside(run[k].pc[t])
  }

  lemma MovesAt(run: seq<State>, ls: seq<Label>, k: nat, t: Id)
    requires IsTrace(run, ls) && k < |ls| && t < |run[k].pc|
    ensures |run[k + 1].pc| == |run[k].pc| && run[k + 1].usage == run[k].usage
    ensures ls[k].t != t ==> run[k + 1].pc[t] == run[k].pc[t]
  {
    assert TraceAt(run, ls, k);
    Flow(run[k], ls[k]);
  }

  predicate InBroadcast(p: Pc) { p.Broadcast? }

  lemma BroadcastStep(st: State, l: Label, t: Id)
    requires Enabled(st, l) && t < |st.pc| && st.pc[t].Broadcast?
    ensures var st' := Apply(st, l);
            |st'.pc| == |st.pc| && (st'.pc[t].Broadcast? || (st'.pc[t].Holding? && st'.signaled == st'.waiting))
  {
    Flow(st, l);
  }

  lemma BroadcastStarts(run: seq<State>, ls: seq<Label>, i: nat, t: Id)
    requires IsTrace(run, ls) && i < |ls| && ls[i] == CallBroadcast(t)
    ensures t < |run[i + 1].pc| && run[i + 1].pc[t].Broadcast?
  {
    assert TraceAt(run, ls, i);
  }

  /** When a broadcast call returns, every thread in the wait loop has a token. */
  lemma BroadcastGivesTokens(run: seq<State>, ls: seq<Label>, i: nat, j: nat, t: Id)
    requires CallSpans(run, ls, i, j, t, InBroadcast) && ls[i] == CallBroadcast(t)
    requires t < |run[j].pc| && !run[j].pc[t].Broadcast?
    ensures run[j].pc[t].Holding? && run[j].mutex == Some(t)
    ensures run[j].signaled == run[j].waiting == Entitlements(run[j])
  {
    BroadcastStarts(run, ls, i, t);
    assert InBroadcast(run[j - 1].pc[t]) && TraceAt(run, ls, j - 1);
    BroadcastStep(run[j - 1], ls[j - 1], t);
    TraceInv(run, ls, j);
    WaitingIsLoopers(run[j]);
  }

  // ---------------------------------------------------------------- a wait call

  predicate InWait(p: Pc) {
    p.WaitCount? || p.WaitTest? || p.WaitUndo? || p.YieldUnlock? || p.YieldLock? || p.LoopTest? || p.LoopUnlock? ||
    p.LoopLock? || p.WaitTake? || p.WaitLeave?
  }

  /** Points of a wait that has not seen a token yet. */
  predicate Seeking(p: Pc) { p.WaitCount? || p.WaitTest? || p.LoopTest? || p.LoopUnlock? || p.LoopLock? }

  /** At step m the wait of t tests c_signaled and finds a token. */
  predicate SeesAt(st: State, l: Label, t: Id) {
    l.Run? && l.t == t && t < |st.pc| && (st.pc[t].WaitTest? || st.pc[t].LoopTest?) && st.signaled != 0
  }

  ghost predicate SawToken(run: seq<State>, ls: seq<Label>, i: nat, j: nat, t: Id) {
    exists m: nat :: i < m < j && m < |ls| && m < |run| && SeesAt(run[m], ls[m], t)
  }

  lemma WaitStep(st: State, t: Id, clock: Time)
    requires t < |st.pc| && InWait(st.pc[t]) && !st.usage.Macros?
    ensures var st' := Exec(st, t, clock);
            && |st'.pc| == |st.pc| && (InWait(st'.pc[t]) || st'.pc[t].Holding?)
            && (Seeking(st.pc[t]) ==> Seeking(st'.pc[t]) || SeesAt(st, Run(t, clock), t))
            && (!Seeking(st.pc[t]) ==> !Seeking(st'.pc[t]))
  {
    match st.pc[t] {
      case WaitCount | WaitTest | WaitUndo | YieldUnlock | YieldLock =>
      case LoopTest | LoopUnlock | LoopLock | WaitTake | WaitLeave =>
    }
  }

  lemma {:induction false} WaitGoesOn(run: seq<State>, ls: seq<Label>, i: nat, j: nat, t: Id)
    requires CallSpans(run, ls, i, j, t, InWait) && ls[i] == Wait(t)
    ensures t < |run[j].pc| && !run[j].usage.Macros? && (InWait(run[j].pc[t]) || run[j].pc[t].Holding?)
    ensures Seeking(run[j].pc[t]) || SawToken(run, ls, i, j, t)
    decreases j
  {
    MovesAt(run, ls, j - 1, t);
    assert TraceAt(run, ls, j - 1);
    if j == i + 1 {
      TraceInv(run, ls, i);
      assert Allowed(run[i].pc[t], run[i].usage);
    } else {
      WaitGoesOn(run, ls, i, j - 1, t);
      assert InWait(run[j - 1].pc[t]);
      if ls[j - 1].t == t {
        WaitStep(run[j - 1], t, ls[j - 1].clock);
      }
    }
  }

  /** A call of condition_wait returns with the mutex held, and only after it has seen a token since it was called. */
  lemma WaitNeedsToken(run: seq<State>, ls: seq<Label>, i: nat, j: nat, t: Id)
    requires CallSpans(run, ls, i, j, t, InWait) && ls[i] == Wait(t) && t < |run[j].pc| && !InWait(run[j].pc[t])
    ensures run[j].pc[t].Holding? && run[j].mutex == Some(t) && SawToken(run, ls, i, j, t)
  {
    WaitGoesOn(run, ls, i, j, t);
    TraceInv(run, ls, j);
  }

  // ---------------------------------------------------------------- a timed wait call

  /** The last reading of the clock by thread t before state j. */
  ghost function LastClock(run: seq<State>, ls: seq<Label>, j: nat, t: Id): Time
    requires |run| == |ls| + 1 && j <= |ls|
  {
    if j == 0 then Time(0, 0)
    else if ls[j - 1].Run? && ls[j - 1].t == t && t < |run[j - 1].pc| && run[j - 1].pc[t].TimedRead? then ls[j - 1].clock
    else LastClock(run, ls, j - 1, t)
  }

  predicate HasDeadline(p: Pc) {
    p.TimedCount? || p.TimedTest? || p.TimedUnlock? || p.TimedRead? || p.TimedLock? || p.TimedLoopTest?
  }

  /** The timed wait goes by the deadline it was called with and by the clock it read last. */
  predicate OnTime(p: Pc, d: Time, clock: Time) {
    && (HasDeadline(p) ==> p.deadline == d)
    && (p.TimedLock? || p.TimedLoopTest? ==> p.now == clock)
  }

  lemma TimedStep(st: State, t: Id, clock: Time, d: Time, last: Time)
    requires t < |st.pc| && Timed(st.pc[t]) && OnTime(st.pc[t], d, last)
    ensures var st' := Exec(st, t, clock);
            && |st'.pc| == |st.pc| && (Timed(st'.pc[t]) || st'.pc[t].Holding?)
            && OnTime(st'.pc[t], d, if st.pc[t].TimedRead? then clock else last)
  {
    match st.pc[t] {
      case TimedCount(_) | TimedTest(_) | TimedUnlock(_) | TimedRead(_) =>
      case TimedLock(_, _) | TimedLoopTest(_, _) | TimedTake | TimedLeave =>
    }
  }

  lemma {:induction false} TimedGoesOn(run: seq<State>, ls: seq<Label>, i: nat, j: nat, t: Id, sec: int, nsec: int)
    requires CallSpans(run, ls, i, j, t, Timed) && ls[i] == TimedWait(t, sec, nsec)
    ensures t < |run[j].pc| && (Timed(run[j].pc[t]) || run[j].pc[t].Holding?)
    ensures OnTime(run[j].pc[t], Deadline(sec, nsec), LastClock(run, ls, j, t))
    decreases j
  {
    MovesAt(run, ls, j - 1, t);
    assert TraceAt(run, ls, j - 1);
    if j > i + 1 {
      TimedGoesOn(run, ls, i, j - 1, t, sec, nsec);
      assert Timed(run[j - 1].pc[t]);
      if ls[j - 1].t == t {
        TimedStep(run[j - 1], t, ls[j - 1].clock, Deadline(sec, nsec), LastClock(run, ls, j - 1, t));
      }
    }
  }

  /** A timed wait called with (sec, nsec) that finds no token when it tests the clock goes on iff the seconds of its last
      clock reading are at most sec, whatever nsec is; otherwise it leaves the loop. */
  lemma TimedCallIff(run: seq<State>, ls: seq<Label>, i: nat, j: nat, t: Id, sec: int, nsec: int)
    requires CallSpans(run, ls, i, j, t, Timed) && ls[i] == TimedWait(t, sec, nsec) && j < |ls|
    requires t < |run[j].pc| && run[j].pc[t].TimedLoopTest? && run[j].signaled == 0 && ls[j].Run? && ls[j].t == t
    ensures t < |run[j + 1].pc|
    ensures LastClock(run, ls, j, t).sec <= sec ==> run[j + 1].pc[t].TimedUnlock?
    ensures LastClock(run, ls, j, t).sec > sec ==> run[j + 1].pc[t].TimedTake?
  {
    TimedGoesOn(run, ls, i, j, t, sec, nsec);
    assert TraceAt(run, ls, j);
    TimeoutIsWholeSeconds(run[j], t, ls[j].clock);
    MovesAt(run, ls, j, t);
  }

  /** A timed wait returns with the mutex held. */
  lemma TimedReturnsLocked(run: seq<State>, ls: seq<Label>, i: nat, j: nat, t: Id, sec: int, nsec: int)
    requires CallSpans(run, ls, i, j, t, Timed) && ls[i] == TimedWait(t, sec, nsec) && t < |run[j].pc| && !Timed(run[j].pc[t])
    ensures run[j].pc[t].Holding? && run[j].mutex == Some(t)
  {
    TimedGoesOn(run, ls, i, j, t, sec, nsec);
    TraceInv(run, ls, j);
  }

  // ---------------------------------------------------------------- calls that find tokens

  /** The mutex holder sees the counter change only by its own steps. */
  lemma HeldCounter(st: State, l: Label, t: Id)
    requires Enabled(st, l) && st.mutex == Some(t) && MutexOk(st.pc, st.mutex) && t < |st.pc| && l.t != t
    ensures Apply(st, l).signaled == st.signaled
  {
    assert NoMutex(st.pc[l.t]);
  }

  predicate AtOnce(p: Pc) { p.TimedCount? || p.TimedTest? || p.TimedTake? || p.TimedLeave? || p.Holding? }

  /** Thread t holds the mutex, and has a token to find if it has yet to look for one. */
  predicate Prompt(st: State, t: Id) {
    && t < |st.pc| && AtOnce(st.pc[t]) && st.mutex == Some(t)
    && (st.pc[t].TimedCount? || st.pc[t].TimedTest? ==> st.signaled != 0)
  }

  lemma OwnPromptStep(st: State, t: Id, clock: Time)
    requires Prompt(st, t) && Timed(st.pc[t])
    ensures Prompt(Exec(st, t, clock), t)
  {
    match st.pc[t] {
      case TimedCount(_) | TimedTest(_) | TimedTake | TimedLeave =>
    }
  }

  lemma PromptStep(st: State, l: Label, t: Id)
    requires Inv(st) && Enabled(st, l) && Prompt(st, t) && Timed(st.pc[t])
    ensures Prompt(Apply(st, l), t)
  {
    StepInv(st, l);
    Flow(st, l);
    if l.t == t {
      OwnPromptStep(st, t, l.clock);
    } else {
      HeldCounter(st, l, t);
      assert !NoMutex(Apply(st, l).pc[t]);
    }
  }

  lemma PromptAt(run: seq<State>, ls: seq<Label>, k: nat, t: Id)
    requires IsTrace(run, ls) && k < |ls| && Prompt(run[k], t) && Timed(run[k].pc[t])
    ensures Prompt(run[k + 1], t)
  {
    TraceInv(run, ls, k);
    assert TraceAt(run, ls, k);
    PromptStep(run[k], ls[k], t);
  }

  lemma PromptStart(run: seq<State>, ls: seq<Label>, i: nat, t: Id, sec: int, nsec: int)
    requires IsTrace(run, ls) && i < |ls| && ls[i] == TimedWait(t, sec, nsec) && run[i].signaled != 0
    ensures Prompt(run[i + 1], t)
  {
    TraceInv(run, ls, i);
    assert TraceAt(run, ls, i) && !NoMutex(run[i].pc[t]);
  }

  /** A timed wait called while there are tokens returns at once, without giving up the mutex. */
  lemma {:induction false} TimedKeepsMutex(run: seq<State>, ls: seq<Label>, i: nat, j: nat, t: Id, sec: int, nsec: int)
    requires CallSpans(run, ls, i, j, t, Timed) && ls[i] == TimedWait(t, sec, nsec) && run[i].signaled != 0
    ensures t < |run[j].pc| && AtOnce(run[j].pc[t]) && run[j].mutex == Some(t) && Prompt(run[j], t)
    decreases j
  {
    if j == i + 1 {
      PromptStart(run, ls, i, t, sec, nsec);
    } else {
      TimedKeepsMutex(run, ls, i, j - 1, t, sec, nsec);
      assert Timed(run[j - 1].pc[t]);
      PromptAt(run, ls, j - 1, t);
    }
  }

  predicate PassingBy(p: Pc) {
    p.WaitCount? || p.WaitTest? || p.WaitUndo? || p.YieldUnlock? || p.YieldLock? || p.Holding?
  }

  lemma PassingStep(st: State, t: Id, clock: Time)
    requires t < |st.pc| && PassingBy(st.pc[t]) && InWait(st.pc[t]) && !st.usage.Macros?
    requires st.pc[t].WaitCount? || st.pc[t].WaitTest? ==> st.signaled != 0
    ensures var st' := Exec(st, t, clock); |st'.pc| == |st.pc| && PassingBy(st'.pc[t]) && st'.signaled == st.signaled
  {
    match st.pc[t] {
      case WaitCount | WaitTest | WaitUndo | YieldUnlock | YieldLock =>
    }
  }

  /** Thread t passes by, and there is a token to see if it has yet to look. */
  predicate Passing(st: State, t: Id) {
    && t < |st.pc| && PassingBy(st.pc[t]) && !st.usage.Macros?
    && (st.pc[t].WaitCount? || st.pc[t].WaitTest? ==> st.signaled != 0)
  }

  lemma PassingAt(run: seq<State>, ls: seq<Label>, k: nat, t: Id)
    requires IsTrace(run, ls) && k < |ls| && Passing(run[k], t) && InWait(run[k].pc[t])
    ensures Passing(run[k + 1], t) && (ls[k].t == t ==> run[k + 1].signaled == run[k].signaled)
  {
    MovesAt(run, ls, k, t);
    TraceInv(run, ls, k);
    assert TraceAt(run, ls, k);
    if ls[k].t == t {
      PassingStep(run[k], t, ls[k].clock);
    } else if run[k].pc[t].WaitCount? || run[k].pc[t].WaitTest? {
      HeldCounter(run[k], ls[k], t);
    }
  }

  lemma PassingStart(run: seq<State>, ls: seq<Label>, i: nat, t: Id)
    requires IsTrace(run, ls) && i < |ls| && ls[i] == Wait(t) && run[i].signaled != 0
    ensures Passing(run[i + 1], t)
  {
    TraceInv(run, ls, i);
    assert TraceAt(run, ls, i) && Allowed(run[i].pc[t], run[i].usage);
  }

  /** A wait called while there are tokens, a late arrival, passes by the loop, and none of its steps takes a token. */
  lemma {:induction false} LateArrivalTakesNone(run: seq<State>, ls: seq<Label>, i: nat, j: nat, t: Id)
    requires CallSpans(run, ls, i, j, t, InWait) && ls[i] == Wait(t) && run[i].signaled != 0
    ensures t < |run[j].pc| && PassingBy(run[j].pc[t]) && Passing(run[j], t)
    ensures i + 1 < j && ls[j - 1].t == t ==> run[j].signaled == run[j - 1].signaled
    decreases j
  {
    if j == i + 1 {
      PassingStart(run, ls, i, t);
    } else {
      LateArrivalTakesNone(run, ls, i, j - 1, t);
      assert InWait(run[j - 1].pc[t]);
      PassingAt(run, ls, j - 1, t);
    }
  }
}
