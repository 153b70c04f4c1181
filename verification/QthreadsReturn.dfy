/** The Qthreads condition variable gets things done: a woken waiter returns, a broadcast call leaves nobody
    asleep who was asleep when it was called, a signal call releases at most one waiter, and a wait call
    returns only by using up a wakeup. */
module QthreadsReturn {
  import opened Base
  import opened QthreadsCond

  // ---------------------------------------------------------------- a woken waiter returns

  /** w is inside cond_wait and has been signalled. */
  ghost predicate Served(st: State, w: Id) {
    Inv(st) && w < |st.pc| && Waiting(st.pc[w]) && st.signaled[w]
  }

  /** w's cond_wait has returned: it holds the mutex. */
  ghost predicate Back(st: State, w: Id, h: History) {
    Inv(st) && w < |st.pc| && st.pc[w].Holding? && st.mutex == Some(w) && st.past[w] == h.(returned := h.returned + 1)
  }

  /** An action of w, or of a thread that holds the mutex or m_lock; user code gives the mutex up. */
  predicate HelpLabel(st: State, w: Id, l: Label) {
    && l.t < |st.pc|
    && ((l.Run? && (l.t == w || HasMutex(st.pc[l.t]) || HasInner(st.pc[l.t]))) || (l.Relinquish? && l.t != w))
  }

  /** Steps until w returns, once it gets the locks it wants. */
  function WaiterRank(p: Pc): int {
    match p
    case WaitUnlock => 6      case DropMutex => 5  case TakeMutex => 4
    case CheckLock => 3       case Check => 2      case CheckUnlock(_) => 1
    case _ => 0
  }

  /** Steps until another thread has given up both locks, not counting the rounds of a broadcast. */
  function HolderRank(p: Pc): int {
    match p
    case WaitLock => 6         case WaitEnqueue => 5         case WaitUnlock => 2
    case DropMutex => 1        case TakeMutex => 0
    case CheckLock => 4        case Check => 3               case CheckUnlock(_) => 2
    case SignalLock(_) => 4    case SignalOldest(_) => 3     case SignalUnlock(_) => 2
    case BroadcastLock(_) => 4 case BroadcastLoop(_) => 3    case BroadcastUnlock(_) => 2
    case Holding => 1          case Out => 0
  }

  /** What stands between w and its return. */
  function Debt(st: State, w: Id): int
    requires w < |st.pc|
  {
    WaiterRank(st.pc[w]) + Sum(st.pc[w := Out], HolderRank) + |st.queue|
  }

  lemma DebtNonNegative(st: State, w: Id)
    requires w < |st.pc|
    ensures Debt(st, w) >= 0
  {
    SumNonNegative(st.pc[w := Out], HolderRank);
  }

  lemma OwnStep(st: State, w: Id)
    requires Served(st, w) && Enabled(st, Run(w))
    ensures var st' := Exec(st, w);
            && |st'.pc| == |st.pc| && st'.pc == st.pc[w := st'.pc[w]] && st'.queue == st.queue && |st'.past| == |st.past|
            && (if st.pc[w].CheckUnlock? then st'.pc[w].Holding? && st'.past == Returns(st.past, w)
                else Waiting(st'.pc[w]) && st'.signaled == st.signaled && st'.past == st.past
                     && WaiterRank(st'.pc[w]) < WaiterRank(st.pc[w]))
  {
    match st.pc[w] {
      case WaitUnlock | DropMutex | TakeMutex =>
      case CheckLock | Check | CheckUnlock(_) =>
    }
  }

  lemma HolderStep(st: State, t: Id)
    requires Sized(st) && Enabled(st, Run(t)) && (HasMutex(st.pc[t]) || HasInner(st.pc[t]))
    ensures var st' := Exec(st, t);
            && |st'.pc| == |st.pc| && st'.pc == st.pc[t := st'.pc[t]]
            && HolderRank(st'.pc[t]) + |st'.queue| < HolderRank(st.pc[t]) + |st.queue|
  {
    match st.pc[t] {
      case WaitLock | WaitEnqueue | WaitUnlock | DropMutex =>
      case CheckLock | Check | CheckUnlock(_) =>
      case SignalLock(_) | SignalOldest(_) | SignalUnlock(_) =>
      case BroadcastLock(_) | BroadcastLoop(_) | BroadcastUnlock(_) =>
    }
  }

  /** What other threads do leaves a signalled waiter signalled and its history alone. */
  lemma OthersKeepServed(st: State, l: Label, w: Id)
    requires Served(st, w) && Enabled(st, l) && l.t != w
    ensures Served(Apply(st, l), w) && Apply(st, l).pc[w] == st.pc[w] && Apply(st, l).past[w] == st.past[w]
  {
    StepInv(st, l);
    LockFlow(st, l);
    assert st.queue != [] ==> st.queue[0] != w;
    SignalStays(st, l, w);
  }

  lemma SignalStays(st: State, l: Label, w: Id)
    requires Sized(st) && Enabled(st, l) && l.t != w && w < |st.pc| && st.signaled[w] && (st.queue != [] ==> st.queue[0] != w)
    ensures var st' := Apply(st, l); w < |st'.signaled| && w < |st'.past| && st'.signaled[w] && st'.past[w] == st.past[w]
  {}

  lemma OtherLowers(st: State, l: Label, w: Id)
    requires Served(st, w) && HelpLabel(st, w, l) && Enabled(st, l) && l.t != w
    ensures |Apply(st, l).pc| == |st.pc| && Debt(Apply(st, l), w) < Debt(st, w)
  {
    OthersKeepServed(st, l, w);
    LockFlow(st, l);
    var st' := Apply(st, l);
    if l.Run? {
      HolderStep(st, l.t);
    }
    assert st'.pc[w := Out] == st.pc[w := Out][l.t := st'.pc[l.t]];
    SumUpdate(st.pc[w := Out], l.t, st'.pc[l.t], HolderRank);
  }

  /** Every helping action either returns w or keeps it served and lowers the debt. */
  lemma HelpNext(st: State, l: Label, w: Id)
    requires Served(st, w) && HelpLabel(st, w, l) && Enabled(st, l)
    ensures var st' := Apply(st, l);
            || Back(st', w, st.past[w])
            || (Served(st', w) && st'.past[w] == st.past[w] && 0 <= Debt(st', w) < Debt(st, w))
  {
    var st' := Apply(st, l);
    if l.t != w {
      OthersKeepServed(st, l, w);
      OtherLowers(st, l, w);
      DebtNonNegative(st', w);
    } else {
      StepInv(st, l);
      OwnStep(st, w);
      assert st'.pc[w := Out] == st.pc[w := Out];
      if st'.pc[w].Holding? {
        assert HasMutex(st'.pc[w]);
      } else {
        DebtNonNegative(st', w);
      }
    }
  }

  lemma InnerHolderRuns(st: State, w: Id) returns (l: Label)
    requires Inv(st) && w < |st.pc| && st.inner.Some?
    ensures HelpLabel(st, w, l) && Enabled(st, l)
  {
    l := Run(st.inner.value);
  }

  /** A woken waiter that has not returned is never stuck. */
  lemma Helper(st: State, w: Id) returns (l: Label)
    requires Served(st, w)
    ensures HelpLabel(st, w, l) && Enabled(st, l)
  {
    if st.pc[w].TakeMutex? && st.mutex.Some? {
      var h := st.mutex.value;
      assert HasMutex(st.pc[h]) && h != w;
      if st.pc[h].Holding? {
        l := Relinquish(h);
      } else if WantsInner(st.pc[h]) && st.inner.Some? {
        l := InnerHolderRuns(st, w);
      } else {
        l := Run(h);
      }
    } else if st.pc[w].CheckLock? && st.inner.Some? {
      l := InnerHolderRuns(st, w);
    } else {
      l := Run(w);
    }
  }

  // ---------------------------------------------------------------- runs of help

  ghost predicate HelpStep(st: State, st': State, w: Id) {
    Served(st, w) && exists l :: HelpLabel(st, w, l) && Enabled(st, l) && st' == Apply(st, l)
  }

  ghost predicate HelpStepAt(run: seq<State>, w: Id, i: nat) {
    i + 1 < |run| ==> HelpStep(run[i], run[i + 1], w)
  }

  /** A run of helping actions that stops when w has returned. */
  ghost predicate IsHelp(run: seq<State>, w: Id) {
    |run| > 0 && forall i: nat :: HelpStepAt(run, w, i)
  }

  ghost predicate NoHelp(st: State, w: Id) {
    forall l :: HelpLabel(st, w, l) ==> !Enabled(st, l)
  }

  lemma HelpAt(run: seq<State>, w: Id, i: nat)
    requires IsHelp(run, w) && i + 1 < |run|
    ensures Served(run[i], w)
    ensures || Back(run[i + 1], w, run[i].past[w])
            || (Served(run[i + 1], w) && run[i + 1].past[w] == run[i].past[w] && 0 <= Debt(run[i + 1], w) < Debt(run[i], w))
  {
    assert HelpStepAt(run, w, i);
    var l :| HelpLabel(run[i], w, l) && Enabled(run[i], l) && run[i + 1] == Apply(run[i], l);
    HelpNext(run[i], l, w);
  }

  lemma {:induction false} HelpBounded(run: seq<State>, w: Id, i: nat)
    requires IsHelp(run, w) && Served(run[0], w) && i < |run|
    ensures || (Back(run[i], w, run[0].past[w]) && i == |run| - 1 && i <= Debt(run[0], w))
            || (Served(run[i], w) && run[i].past[w] == run[0].past[w] && 0 <= Debt(run[i], w) && i + Debt(run[i], w) <= Debt(run[0], w))
  {
    if i == 0 {
      DebtNonNegative(run[0], w);
    } else {
      HelpBounded(run, w, i - 1);
      HelpAt(run, w, i - 1);
      if i + 1 < |run| {
        HelpAt(run, w, i);
      }
      DebtPositive(run[i - 1], w);
    }
  }

  lemma DebtPositive(st: State, w: Id)
    requires Served(st, w)
    ensures Debt(st, w) >= 1
  {
    SumNonNegative(st.pc[w := Out], HolderRank);
  }

  /** A waiter that a signal or broadcast has released returns with the mutex: every run of its own actions and of
      those of lock holders that cannot be extended has used up the wakeup, within a bound. */
  lemma WokenReturns(run: seq<State>, w: Id)
    requires IsHelp(run, w) && Served(run[0], w)
    requires Served(run[|run| - 1], w) ==> NoHelp(run[|run| - 1], w)
    ensures |run| - 1 <= Debt(run[0], w) && Back(run[|run| - 1], w, run[0].past[w])
  {
    HelpBounded(run, w, |run| - 1);
    if Served(run[|run| - 1], w) {
      var l := Helper(run[|run| - 1], w);
    }
  }

  /** And there is such a run. */
  lemma {:induction false} WokenCanReturn(st: State, w: Id) returns (run: seq<State>)
    requires Served(st, w)
    ensures IsHelp(run, w) && run[0] == st && Back(run[|run| - 1], w, st.past[w])
    decreases Debt(st, w)
  {
    var l := Helper(st, w);
    var st' := Apply(st, l);
    HelpNext(st, l, w);
    if Served(st', w) {
      var rest := WokenCanReturn(st', w);
      HelpPrepend(st, rest, w);
      run := [st] + rest;
    } else {
      run := [st, st'];
      forall i: nat ensures HelpStepAt(run, w, i) {}
    }
  }

  lemma HelpPrepend(st: State, rest: seq<State>, w: Id)
    requires IsHelp(rest, w) && HelpStep(st, rest[0], w)
    ensures var run := [st] + rest; IsHelp(run, w) && run[0] == st && run[|run| - 1] == rest[|rest| - 1]
  {
    var run := [st] + rest;
    forall i: nat ensures HelpStepAt(run, w, i) {
      if i > 0 {
        assert HelpStepAt(rest, w, i - 1);
      }
    }
  }

  // ---------------------------------------------------------------- calls by their labels

  ghost predicate TraceAt(run: seq<State>, ls: seq<Label>, k: nat) {
    k < |ls| && k + 1 < |run| ==> Sized(run[k]) && Enabled(run[k], ls[k]) && run[k + 1] == Apply(run[k], ls[k])
  }

  /** A run from an initial state together with the label of each step. */
  ghost predicate IsTrace(run: seq<State>, ls: seq<Label>) {
    |run| == |ls| + 1 && Init(run[0]) && forall k: nat :: TraceAt(run, ls, k)
  }

  lemma TraceConserves(run: seq<State>, ls: seq<Label>, k: nat)
    requires IsTrace(run, ls) && k < |run|
    ensures Inv(run[k]) && Conserved(Abs(run[k]))
  {
    forall m: nat ensures StepAt(run, m) {
      assert TraceAt(run, ls, m);
    }
    WakeupsConserved(run, k);
  }

  predicate Free(p: Pc) { p.Out? || p.Holding? }

  /** Thread t's call starts with step i and has not returned at any state before j. */
  ghost predicate CallSpans(run: seq<State>, ls: seq<Label>, i: nat, j: nat, t: Id) {
    && IsTrace(run, ls) && i < j <= |ls| && t < |run[i].pc|
    && forall k {:trigger run[k]} :: i < k < j ==> t < |run[k].pc| && !Free(run[k].pc[t])
  }

  /** Sleeps and wakeups are only ever counted up; other threads leave t's program point alone. */
  lemma PastGrows(st: State, l: Label, u: Id, t: Id)
    requires Sized(st) && Enabled(st, l) && u < |st.pc| && t < |st.pc|
    ensures var st' := Apply(st, l);
            && |st'.pc| == |st'.past| == |st.pc|
            && st'.past[u].slept >= st.past[u].slept && st'.past[u].woken >= st.past[u].woken
            && (l.t != t ==> st'.pc[t] == st.pc[t])
  {
    LockFlow(st, l);
  }

  lemma PastGrowsAt(run: seq<State>, ls: seq<Label>, k: nat, u: Id, t: Id)
    requires IsTrace(run, ls) && k < |ls| && u < |run[k].pc| == |run[k].past| && t < |run[k].pc|
    ensures |run[k + 1].pc| == |run[k + 1].past| == |run[k].pc|
    ensures run[k + 1].past[u].slept >= run[k].past[u].slept && run[k + 1].past[u].woken >= run[k].past[u].woken
    ensures ls[k].t != t ==> run[k + 1].pc[t] == run[k].pc[t]
  {
    assert TraceAt(run, ls, k);
    PastGrows(run[k], ls[k], u, t);
  }

  /** t's broadcast has not left its loop yet, or u has been woken since. */
  ghost predicate Reaching(st: State, t: Id, u: Id, h: History) {
    && t < |st.pc| == |st.past| && u < |st.pc|
    && st.past[u].slept >= h.slept && st.past[u].woken >= h.woken
    && (st.pc[t].BroadcastLock? || st.pc[t].BroadcastLoop? || st.past[u].woken > h.woken)
  }

  lemma ReachingStep(st: State, l: Label, t: Id, u: Id, h: History)
    requires Inv(st) && Conserved(Abs(st)) && Enabled(st, l) && Reaching(st, t, u, h) && h.slept == h.woken + 1 && !Free(st.pc[t])
    ensures Reaching(Apply(st, l), t, u, h)
  {
    PastGrows(st, l, u, t);
    if l.t == t && st.pc[t].BroadcastLoop? && st.queue == [] {
      assert Balanced(Abs(st).phase[u], Abs(st).past[u]);
      assert !Abs(st).phase[u].Asleep?;
    }
  }

  lemma {:induction false} BroadcastGoesOn(run: seq<State>, ls: seq<Label>, i: nat, j: nat, t: Id, u: Id)
    requires CallSpans(run, ls, i, j, t) && ls[i] == CallBroadcast(t)
    requires u < |run[i].pc| == |run[i].past| && run[i].past[u].slept == run[i].past[u].woken + 1
    ensures Reaching(run[j], t, u, run[i].past[u])
    decreases j
  {
    if j == i + 1 {
      PastGrowsAt(run, ls, i, u, t);
      assert TraceAt(run, ls, i);
    } else {
      BroadcastGoesOn(run, ls, i, j - 1, t, u);
      TraceConserves(run, ls, j - 1);
      assert TraceAt(run, ls, j - 1) && !Free(run[j - 1].pc[t]);
      ReachingStep(run[j - 1], ls[j - 1], t, u, run[i].past[u]);
    }
  }

  /** When a broadcast call returns, everybody who was asleep when it was called has been woken since. */
  lemma BroadcastCallWakesAll(run: seq<State>, ls: seq<Label>, i: nat, j: nat, t: Id, u: Id)
    requires CallSpans(run, ls, i, j, t) && ls[i] == CallBroadcast(t) && t < |run[j].pc| && Free(run[j].pc[t])
    requires u < |run[i].pc| == |run[i].signaled| && PhaseOf(run[i].pc[u], run[i].signaled[u]).Asleep?
    ensures u < |run[i].past| && u < |run[j].past| && run[j].past[u].woken > run[i].past[u].woken
  {
    TraceConserves(run, ls, i);
    assert Balanced(Abs(run[i]).phase[u], Abs(run[i]).past[u]);
    BroadcastGoesOn(run, ls, i, j, t, u);
  }

  // ---------------------------------------------------------------- a signal call

  /** Step k takes nobody off the queue. */
  ghost predicate QuietAt(run: seq<State>, k: nat) {
    k + 1 < |run| && run[k + 1].queue == run[k].queue && run[k + 1].past == run[k].past
  }

  /** Step m releases the oldest waiter, if there is one. */
  ghost predicate ReleasesAt(run: seq<State>, m: nat) {
    && m + 1 < |run| && Sized(run[m])
    && (if run[m].queue == [] then QuietAt(run, m)
        else run[m + 1].queue == run[m].queue[1..] && run[m + 1].past == Wakes(run[m].past, run[m].queue[0]))
  }

  /** Of t's steps after i and before j only m touches the queue. */
  ghost predicate OnlyAt(run: seq<State>, ls: seq<Label>, i: nat, j: nat, t: Id, m: nat)
    requires |run| == |ls| + 1 && j <= |ls|
  {
    forall k: nat {:trigger QuietAt(run, k)} :: i < k < j && k != m && ls[k] == Run(t) ==> QuietAt(run, k)
  }

  ghost predicate SignalStage(run: seq<State>, ls: seq<Label>, i: nat, j: nat, t: Id)
    requires |run| == |ls| + 1 && j <= |ls| && t < |run[j].pc|
  {
    if run[j].pc[t].SignalLock? || run[j].pc[t].SignalOldest? then OnlyAt(run, ls, i, j, t, j)
    else (run[j].pc[t].SignalUnlock? || Free(run[j].pc[t])) &&
         exists m: nat :: i < m < j && ls[m] == Run(t) && ReleasesAt(run, m) && OnlyAt(run, ls, i, j, t, m)
  }

  lemma SignalStep(st: State, t: Id)
    requires Sized(st) && Enabled(st, Run(t)) && (st.pc[t].SignalLock? || st.pc[t].SignalOldest? || st.pc[t].SignalUnlock?)
    ensures var st' := Exec(st, t);
            && |st'.pc| == |st.pc|
            && (st.pc[t].SignalLock? ==> st'.pc[t].SignalOldest? && st'.queue == st.queue && st'.past == st.past)
            && (st.pc[t].SignalUnlock? ==> Free(st'.pc[t]) && st'.queue == st.queue && st'.past == st.past)
            && (st.pc[t].SignalOldest? ==> st'.pc[t].SignalUnlock?)
            && (st.pc[t].SignalOldest? && st.queue == [] ==> st'.queue == st.queue && st'.past == st.past)
            && (st.pc[t].SignalOldest? && st.queue != [] ==>
                  st'.queue == st.queue[1..] && st'.past == Wakes(st.past, st.queue[0]))
  {}

  lemma SignalAdvances(run: seq<State>, ls: seq<Label>, i: nat, j: nat, t: Id)
    requires IsTrace(run, ls) && i < j < |ls| && t < |run[j].pc| && !Free(run[j].pc[t]) && SignalStage(run, ls, i, j, t)
    ensures t < |run[j + 1].pc| && SignalStage(run, ls, i, j + 1, t)
  {
    assert TraceAt(run, ls, j);
    LockFlow(run[j], ls[j]);
    if ls[j].t != t {
      if run[j].pc[t].SignalUnlock? {
        var m: nat :| i < m < j && ls[m] == Run(t) && ReleasesAt(run, m) && OnlyAt(run, ls, i, j, t, m);
        assert OnlyAt(run, ls, i, j + 1, t, m);
      }
    } else {
      SignalStep(run[j], t);
      if run[j].pc[t].SignalOldest? {
        assert ReleasesAt(run, j) && OnlyAt(run, ls, i, j + 1, t, j);
      } else if run[j].pc[t].SignalUnlock? {
        var m: nat :| i < m < j && ls[m] == Run(t) && ReleasesAt(run, m) && OnlyAt(run, ls, i, j, t, m);
        assert QuietAt(run, j) && OnlyAt(run, ls, i, j + 1, t, m);
      } else {
        assert QuietAt(run, j);
      }
    }
  }

  lemma {:induction false} SignalGoesOn(run: seq<State>, ls: seq<Label>, i: nat, j: nat, t: Id)
    requires CallSpans(run, ls, i, j, t) && ls[i] == CallSignal(t)
    ensures t < |run[j].pc| && SignalStage(run, ls, i, j, t)
    decreases j
  {
    if j == i + 1 {
      assert TraceAt(run, ls, i);
    } else {
      SignalGoesOn(run, ls, i, j - 1, t);
      assert !Free(run[j - 1].pc[t]);
      SignalAdvances(run, ls, i, j - 1, t);
    }
  }

  /** When a signal call returns, exactly one of its steps has released the longest sleeper of that moment, or
      nobody if there was none, and no other step of it has woken anybody. */
  lemma SignalCallWakesOne(run: seq<State>, ls: seq<Label>, i: nat, j: nat, t: Id) returns (m: nat)
    requires CallSpans(run, ls, i, j, t) && ls[i] == CallSignal(t) && t < |run[j].pc| && Free(run[j].pc[t])
    ensures i < m < j && ls[m] == Run(t) && ReleasesAt(run, m) && OnlyAt(run, ls, i, j, t, m)
  {
    SignalGoesOn(run, ls, i, j, t);
    m :| i < m < j && ls[m] == Run(t) && ReleasesAt(run, m) && OnlyAt(run, ls, i, j, t, m);
  }

  // ---------------------------------------------------------------- a wait call

  ghost predicate WaitStage(st: State, t: Id, h: History) {
    && t < |st.pc| == |st.past|
    && (if st.pc[t].WaitLock? || st.pc[t].WaitEnqueue? then st.past[t].slept == h.slept && st.past[t].returned == h.returned
        else if Waiting(st.pc[t]) then st.past[t].slept == h.slept + 1 && st.past[t].returned == h.returned
        else st.pc[t].Holding? && st.past[t].slept == h.slept + 1 && st.past[t].returned == h.returned + 1)
  }

  lemma WaitStep(st: State, l: Label, t: Id, h: History)
    requires Sized(st) && Enabled(st, l) && WaitStage(st, t, h) && !Free(st.pc[t])
    ensures WaitStage(Apply(st, l), t, h)
  {
    LockFlow(st, l);
    if l.t == t {
      OwnWaitStep(st, t, h);
    }
  }

  lemma OwnWaitStep(st: State, t: Id, h: History)
    requires Sized(st) && WaitStage(st, t, h) && !Free(st.pc[t])
    ensures WaitStage(Exec(st, t), t, h)
  {
    match st.pc[t] {
      case WaitLock | WaitEnqueue | WaitUnlock | DropMutex | TakeMutex =>
      case CheckLock | Check | CheckUnlock(_) =>
    }
  }

  lemma {:induction false} WaitGoesOn(run: seq<State>, ls: seq<Label>, i: nat, j: nat, t: Id)
    requires CallSpans(run, ls, i, j, t) && ls[i] == CallWait(t) && t < |run[i].past|
    ensures WaitStage(run[j], t, run[i].past[t])
    decreases j
  {
    if j == i + 1 {
      assert TraceAt(run, ls, i);
    } else {
      WaitGoesOn(run, ls, i, j - 1, t);
      assert TraceAt(run, ls, j - 1) && !Free(run[j - 1].pc[t]);
      WaitStep(run[j - 1], ls[j - 1], t, run[i].past[t]);
    }
  }

  /** When a wait call returns, its thread holds the mutex and has since the call slept once, been woken once and
      returned once. */
  lemma WaitCallSleeps(run: seq<State>, ls: seq<Label>, i: nat, j: nat, t: Id)
    requires CallSpans(run, ls, i, j, t) && ls[i] == CallWait(t) && t < |run[j].pc| && Free(run[j].pc[t])
    ensures run[j].pc[t].Holding? && run[j].mutex == Some(t) && t < |run[i].past| && t < |run[j].past|
    ensures var h := run[i].past[t]; run[j].past[t] == History(h.slept + 1, h.woken + 1, h.returned + 1)
  {
    TraceConserves(run, ls, i);
    TraceConserves(run, ls, j);
    WaitGoesOn(run, ls, i, j, t);
    assert TraceAt(run, ls, i) && run[i].pc[t].Holding?;
    assert Balanced(Abs(run[i]).phase[t], Abs(run[i]).past[t]);
    assert Balanced(Abs(run[j]).phase[t], Abs(run[j]).past[t]);
    assert HasMutex(run[j].pc[t]);
  }
}
