/** Double-checked initialisation of the Qthreads self key, for any number of threads. */
module SelfKey {
  import opened Base

  type Id = nat

  /** Program points of self_key_ensure_init. */
  datatype Pc =
    | Outside    // not called
    | FastTest   // 18: read the flag without the lock
    | Acquire    // 20: atomic_lock
    | SlowTest   // 22: read the flag under the lock
    | Create     // 24: qthread_key_create
    | SetFlag    // 26: thread_self_key_init = true
    | Unlock     // 28: atomic_unlock
    | Returned

  /** created: how often the key has been created. */
  datatype State = State(pc: seq<Pc>, lock: Option<Id>, flag: bool, created: nat)

  datatype Label = Call(t: Id) | Run(t: Id)

  predicate Enabled(st: State, l: Label) {
    && l.t < |st.pc|
    && match l
       case Call(t) => st.pc[t].Outside? || st.pc[t].Returned?
       case Run(t) => !st.pc[t].Outside? && !st.pc[t].Returned? && (st.pc[t].Acquire? ==> st.lock.None?)
  }

  function Move(st: State, t: Id, p: Pc): State
    requires t < |st.pc|
  {
    st.(pc := st.pc[t := p])
  }

  function Apply(st: State, l: Label): State
    requires Enabled(st, l)
  {
    var t := l.t;
    if l.Call? then Move(st, t, FastTest)
    else match st.pc[t]
      case FastTest => Move(st, t, if st.flag then Returned else Acquire)
      case Acquire => Move(st, t, SlowTest).(lock := Some(t))
      case SlowTest => Move(st, t, if st.flag then Unlock else Create)
      case Create => Move(st, t, SetFlag).(created := st.created + 1)
      case SetFlag => Move(st, t, Unlock).(flag := true)
      case Unlock => Move(st, t, Returned).(lock := None)
      case _ => st
  }

  ghost predicate Init(st: State) {
    && st.lock.None? && !st.flag && st.created == 0
    && forall t :: 0 <= t < |st.pc| ==> st.pc[t].Outside?
  }

  predicate Locked(p: Pc) { p.SlowTest? || p.Create? || p.SetFlag? || p.Unlock? }

  /** The key exists from the creator's SetFlag point on, and the flag is set only after that. */
  ghost predicate Inv(st: State) {
    && (forall t :: 0 <= t < |st.pc| && Locked(st.pc[t]) ==> st.lock == Some(t))
    && (st.lock.Some? ==> st.lock.value < |st.pc| && Locked(st.pc[st.lock.value]))
    && (forall t :: 0 <= t < |st.pc| && st.pc[t].Create? ==> !st.flag)
    && (forall t :: 0 <= t < |st.pc| && (st.pc[t].Unlock? || st.pc[t].Returned?) ==> st.flag)
    && st.created == (if st.flag || (st.lock.Some? && st.pc[st.lock.value].SetFlag?) then 1 else 0)
    && (forall t :: 0 <= t < |st.pc| && st.pc[t].SetFlag? ==> !st.flag)
  }

  lemma StepInv(st: State, l: Label)
    requires Inv(st) && Enabled(st, l)
    ensures Inv(Apply(st, l))
  {}

  ghost predicate Next(st: State, st': State) {
    exists l :: Enabled(st, l) && st' == Apply(st, l)
  }

  ghost predicate StepAt(run: seq<State>, i: nat) {
    i + 1 < |run| ==> Next(run[i], run[i + 1])
  }

  ghost predicate IsRun(run: seq<State>) {
    |run| > 0 && Init(run[0]) && forall i: nat :: StepAt(run, i)
  }

  lemma NextInv(st: State, st': State)
    requires Inv(st) && Next(st, st')
    ensures Inv(st')
  {
    var l :| Enabled(st, l) && st' == Apply(st, l);
    StepInv(st, l);
  }

  lemma {:induction false} RunInv(run: seq<State>, k: nat)
    requires IsRun(run) && k < |run|
    ensures Inv(run[k])
  {
    if k > 0 {
      RunInv(run, k - 1);
      assert StepAt(run, k - 1);
      NextInv(run[k - 1], run[k]);
    }
  }

  /** The key is created at most once, and whoever has returned did so after its creation. */
  lemma CreatedOnceBeforeUse(run: seq<State>, k: nat, t: Id)
    requires IsRun(run) && k < |run| && t < |run[k].pc|
    ensures run[k].created <= 1
    ensures run[k].pc[t].Returned? ==> run[k].created == 1
  {
    RunInv(run, k);
  }

  // ---------------------------------------------------------------- everybody returns

  function Rank(p: Pc): int {
    match p
    case FastTest => 6  case Acquire => 5  case SlowTest => 4  case Create => 3  case SetFlag => 2  case Unlock => 1
    case _ => 0
  }

  function Measure(st: State): int { Sum(st.pc, Rank) }

  lemma RunLowers(st: State, t: Id)
    requires Enabled(st, Run(t))
    ensures |Apply(st, Run(t)).pc| == |st.pc| && 0 <= Measure(Apply(st, Run(t))) < Measure(st)
  {
    var st' := Apply(st, Run(t));
    assert st'.pc == st.pc[t := st'.pc[t]];
    SumUpdate(st.pc, t, st'.pc[t], Rank);
    SumNonNegative(st'.pc, Rank);
  }

  ghost predicate RunStepAt(run: seq<State>, i: nat) {
    i + 1 < |run| ==> exists t :: Enabled(run[i], Run(t)) && run[i + 1] == Apply(run[i], Run(t))
  }

  /** A run in which nobody calls anew. */
  ghost predicate OnlyRuns(run: seq<State>) {
    |run| > 0 && forall i: nat :: RunStepAt(run, i)
  }

  lemma {:induction false} CallsBounded(run: seq<State>, i: nat)
    requires OnlyRuns(run) && Inv(run[0]) && i < |run|
    ensures Inv(run[i]) && 0 <= Measure(run[i]) && i + Measure(run[i]) <= Measure(run[0])
  {
    SumNonNegative(run[i].pc, Rank);
    if i > 0 {
      CallsBounded(run, i - 1);
      assert RunStepAt(run, i - 1);
      var t :| Enabled(run[i - 1], Run(t)) && run[i] == Apply(run[i - 1], Run(t));
      StepInv(run[i - 1], Run(t));
      RunLowers(run[i - 1], t);
    }
  }

  /** Calls under way come to their end: a run without new calls has a bounded length, and if it cannot be extended
      every call has returned, after the creation of the key if there was any call. */
  lemma CallsReturn(run: seq<State>, t: Id)
    requires OnlyRuns(run) && Inv(run[0]) && t < |run[|run| - 1].pc|
    requires forall u :: !Enabled(run[|run| - 1], Run(u))
    ensures |run| - 1 <= Measure(run[0])
    ensures run[|run| - 1].pc[t].Outside? || (run[|run| - 1].pc[t].Returned? && run[|run| - 1].created == 1)
  {
    CallsBounded(run, |run| - 1);
    var last := run[|run| - 1];
    assert !Enabled(last, Run(t));
    if last.lock.Some? {
      assert !Enabled(last, Run(last.lock.value));
    }
  }

  // ---------------------------------------------------------------- calls by their labels

  ghost predicate TraceAt(run: seq<State>, ls: seq<Label>, k: nat) {
    k < |ls| && k + 1 < |run| ==> Enabled(run[k], ls[k]) && run[k + 1] == Apply(run[k], ls[k])
  }

  /** A run from an initial state together with the label of each step. */
  ghost predicate IsTrace(run: seq<State>, ls: seq<Label>) {
    |run| == |ls| + 1 && Init(run[0]) && forall k: nat :: TraceAt(run, ls, k)
  }

  /** A call starts, so that by CallsReturn it ends with the key created; and a call made when the flag is set returns
      without ever asking for the lock. */
  lemma {:induction false} CallGoesOn(run: seq<State>, ls: seq<Label>, i: nat, j: nat, t: Id)
    requires IsTrace(run, ls) && i < j <= |ls| && ls[i] == Call(t) && forall k :: i < k < j ==> ls[k] != Call(t)
    ensures t < |run[j].pc| && !run[j].pc[t].Outside?
    ensures run[i].flag ==> run[j].flag && (run[j].pc[t].FastTest? || run[j].pc[t].Returned?)
    decreases j
  {
    assert TraceAt(run, ls, j - 1);
    if j > i + 1 {
      CallGoesOn(run, ls, i, j - 1, t);
    }
  }
}
