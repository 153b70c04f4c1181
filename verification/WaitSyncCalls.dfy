/** Runs with their labels: what a call asks for is what happens.  The amounts of the updates that callers
    issue account for the count, an error wakeup fails every ring member with the caller's code, and every
    call can be run to its end. */
module WaitSyncCalls {
  import opened Base
  import opened WaitSyncModel
  import opened WaitSyncFlow
  import opened WaitSyncLocks
  import opened WaitSyncCompletion
  import opened WaitSyncRelease
  import opened WaitSyncSweep
  import opened WaitSyncTheorems
  import opened WaitSyncDrain
  import opened WaitSyncService

  // ---------------------------------------------------------------- traces

  ghost predicate TraceAt(run: seq<State>, ls: seq<Label>, k: nat) {
    k < |ls| && k + 1 < |run| ==> Shape(run[k]) && Enabled(run[k], ls[k]) && run[k + 1] == Apply(run[k], ls[k])
  }

  /** A run from an initial state together with the label of each step. */
  ghost predicate IsTrace(run: seq<State>, ls: seq<Label>) {
    |run| == |ls| + 1 && Init(run[0]) && forall k: nat :: TraceAt(run, ls, k)
  }

  lemma TraceIsRun(run: seq<State>, ls: seq<Label>)
    requires IsTrace(run, ls)
    ensures IsRun(run)
  {
    forall k: nat ensures StepAt(run, k) {
      assert TraceAt(run, ls, k);
    }
  }

  lemma ExtendTrace(run: seq<State>, ls: seq<Label>, l: Label, st': State)
    requires IsTrace(run, ls) && Shape(run[|ls|]) && Enabled(run[|ls|], l) && st' == Apply(run[|ls|], l)
    ensures IsTrace(run + [st'], ls + [l])
  {
    var run', ls' := run + [st'], ls + [l];
    forall k: nat ensures TraceAt(run', ls', k) {
      assert TraceAt(run, ls, k);
    }
  }

  lemma {:induction false} LabelsOf(run: seq<State>, i: nat) returns (ls: seq<Label>)
    requires IsRun(run) && i < |run|
    ensures IsTrace(run[..i + 1], ls)
  {
    if i == 0 {
      ls := [];
    } else {
      ls := LabelsOf(run, i - 1);
      assert StepAt(run, i - 1);
      var l :| Enabled(run[i - 1], l) && run[i] == Apply(run[i - 1], l);
      ExtendTrace(run[..i], ls, l, run[i]);
      assert run[..i] + [run[i]] == run[..i + 1];
      ls := ls + [l];
    }
  }

  /** Every reachable state ends a trace. */
  lemma ReachableTrace(st: State) returns (run: seq<State>, ls: seq<Label>)
    requires Reachable(st)
    ensures IsTrace(run, ls) && run[|ls|] == st
  {
    run :| EndsIn(run, st);
    ls := LabelsOf(run, |run| - 1);
    assert run[..|run| - 1 + 1] == run;
  }

  lemma TraceReachable(run: seq<State>, ls: seq<Label>, k: nat)
    requires IsTrace(run, ls) && k < |run|
    ensures Reachable(run[k])
  {
    TraceIsRun(run, ls);
    RunReachable(run, k);
  }

  lemma TraceStructure(run: seq<State>, ls: seq<Label>, k: nat)
    requires IsTrace(run, ls) && k < |run|
    ensures Structure(run[k])
  {
    TraceIsRun(run, ls);
    RunStructure(run, k);
  }

  // ---------------------------------------------------------------- the count follows the calls

  /** What a label takes off the count of sync s, once it is applied. */
  function IssueAmount(l: Label, s: Id): int {
    if l.StartUpdate? && l.target == s && l.error == 0 then l.amount else 0
  }

  /** The total of the success updates that the labels issue on sync s. */
  function IssuedSum(ls: seq<Label>, s: Id): int {
    if ls == [] then 0 else IssuedSum(ls[..|ls| - 1], s) + IssueAmount(ls[|ls| - 1], s)
  }

  /** The step swaps the count of sync s to 0. */
  predicate Zeroes(st: State, l: Label, s: Id) {
    l.Run? && l.t < |st.frame| && st.frame[l.t].Swap? && st.frame[l.t].target == s
  }

  /** The count of s with every open update applied. */
  function Settled(st: State, s: Id): int
    requires s < |st.count|
  {
    st.count[s] - Outstanding(st.frame, s)
  }

  lemma FrameSettles(st: State, t: Id, s: Id)
    requires Shape(st) && CanRun(st, t) && !st.frame[t].Idle? && s < N(st) && !Zeroes(st, Run(t), s)
    ensures s < |RunFrame(st, t).count| && Settled(RunFrame(st, t), s) == Settled(st, s)
  {
    FrameFlow(st, t);
    OutstandingUpdate(st.frame, t, RunFrame(st, t).frame[t], s);
  }

  lemma StepSettles(st: State, l: Label, s: Id)
    requires Shape(st) && Enabled(st, l) && s < N(st) && !st.pc[s].Outside? && !Zeroes(st, l, s)
    ensures s < |Apply(st, l).count| && Settled(Apply(st, l), s) == Settled(st, s) - IssueAmount(l, s)
  {
    if l.Run? && st.frame[l.t].Idle? {
      WaitFlow(st, l.t);
    } else if l.Run? {
      FrameSettles(st, l.t, s);
    } else if l.StartUpdate? {
      OutstandingUpdate(st.frame, l.t, Entry(l.target, l.amount, l.error, Direct), s);
    } else if l.StartWakeup? {
      OutstandingUpdate(st.frame, l.t, SweepLock(l.code), s);
    }
  }

  lemma BeginSettles(st: State, s: Id, c: int)
    requires Shape(st) && Enabled(st, Begin(s, c))
    ensures var st' := Apply(st, Begin(s, c)); s < N(st') == |st'.count| && !st'.pc[s].Outside? && Settled(st', s) == c
  {
    forall u | 0 <= u < N(st) ensures AmountOn(s)(st.frame[u]) == 0 {
      assert FrameInRange(st.pc, st.ring, st.frame[u]);
    }
    SumZero(st.frame, AmountOn(s));
  }

  lemma StaysInside(st: State, l: Label, s: Id)
    requires Shape(st) && Enabled(st, l) && s < N(st) && !st.pc[s].Outside?
    ensures s < N(Apply(st, l)) && !Apply(st, l).pc[s].Outside?
  {
    if l.Run? && st.frame[l.t].Idle? {
      WaitFlow(st, l.t);
    } else if l.Run? {
      FrameFlow(st, l.t);
    }
  }

  lemma SettlesAt(run: seq<State>, ls: seq<Label>, j: nat, s: Id)
    requires IsTrace(run, ls) && j < |ls| && s < N(run[j]) == |run[j].count| && !run[j].pc[s].Outside?
    requires !Zeroes(run[j], ls[j], s)
    ensures s < N(run[j + 1]) == |run[j + 1].count| && !run[j + 1].pc[s].Outside?
    ensures Settled(run[j + 1], s) == Settled(run[j], s) - IssueAmount(ls[j], s)
  {
    assert TraceAt(run, ls, j);
    StepSettles(run[j], ls[j], s);
    StaysInside(run[j], ls[j], s);
    TraceReachable(run, ls, j + 1);
  }

  lemma {:induction false} SettlesOver(run: seq<State>, ls: seq<Label>, i: nat, j: nat, s: Id)
    requires IsTrace(run, ls) && i <= j <= |ls| && s < N(run[i]) == |run[i].count| && !run[i].pc[s].Outside?
    requires forall k: nat :: i <= k < j ==> !Zeroes(run[k], ls[k], s)
    ensures s < N(run[j]) == |run[j].count| && !run[j].pc[s].Outside?
    ensures Settled(run[j], s) == Settled(run[i], s) - IssuedSum(ls[i..j], s)
    decreases j
  {
    if i < j {
      SettlesOver(run, ls, i, j - 1, s);
      SettlesAt(run, ls, j - 1, s);
      var issued := ls[i..j];
      assert issued[..|issued| - 1] == ls[i..j - 1] && issued[|issued| - 1] == ls[j - 1];
    }
  }

  /** From WAIT_SYNC_INIT with count c on, whoever issues the updates and from wherever, `progress()` included:
      as long as no error update swaps it, the count is c less the success updates that the labels issue,
      except for those still open. */
  lemma CountFollowsCalls(run: seq<State>, ls: seq<Label>, i: nat, j: nat, s: Id, c: int)
    requires IsTrace(run, ls) && i < j <= |ls| && ls[i] == Begin(s, c)
    requires forall k: nat :: i < k < j ==> !Zeroes(run[k], ls[k], s)
    ensures s < N(run[j]) == |run[j].count| && !run[j].pc[s].Outside?
    ensures Settled(run[j], s) == c - IssuedSum(ls[i + 1..j], s)
  {
    assert TraceAt(run, ls, i);
    BeginSettles(run[i], s, c);
    SettlesOver(run, ls, i + 1, j, s);
  }

  /** With no call open the count is exactly what the labels say. */
  lemma QuietCount(run: seq<State>, ls: seq<Label>, i: nat, j: nat, s: Id, c: int)
    requires IsTrace(run, ls) && i < j <= |ls| && ls[i] == Begin(s, c) && !OpenOn(run[j].frame, s)
    requires forall k: nat :: i < k < j ==> !Zeroes(run[k], ls[k], s)
    ensures s < |run[j].count| && run[j].count[s] == c - IssuedSum(ls[i + 1..j], s)
  {
    CountFollowsCalls(run, ls, i, j, s, c);
    var frame := run[j].frame;
    forall u | 0 <= u < |frame| ensures AmountOn(s)(frame[u]) == 0 {
      assert !On(frame[u], s);
    }
    SumZero(frame, AmountOn(s));
  }

  // ---------------------------------------------------------------- a call from its label to its end

  /** Thread t's call starts with step i and is still open at every state after that and before j. */
  ghost predicate CallSpans(run: seq<State>, ls: seq<Label>, i: nat, j: nat, t: Id) {
    && IsTrace(run, ls) && i < j <= |ls| && t < N(run[i])
    && forall k {:trigger run[k]} :: i < k < j ==> t < |run[k].frame| && !run[k].frame[t].Idle?
  }

  ghost predicate RanFrame(st: State, st': State, t: Id) { Shape(st) && t < N(st) && st' == RunFrame(st, t) }

  lemma FrameOnly(run: seq<State>, ls: seq<Label>, j: nat, t: Id)
    requires IsTrace(run, ls) && j < |ls| && t < N(run[j]) == |run[j].frame| && !run[j].frame[t].Idle?
    ensures t < N(run[j + 1]) == |run[j + 1].frame|
    ensures run[j + 1].frame[t] == run[j].frame[t] || (CanRun(run[j], t) && RanFrame(run[j], run[j + 1], t))
  {
    assert TraceAt(run, ls, j);
    FrameMovesAlone(run[j], run[j + 1], t);
  }

  // ---------------------------------------------------------------- error wakeups

  /** The frame belongs to a global wakeup with this code. */
  predicate OfWakeup(f: Frame, code: int) {
    || ((f.SweepLock? || f.SweepHead? || f.SweepNext? || f.SweepUnlock?) && f.code == code)
    || (HasTarget(f) && f.from.Sweep? && f.from.code == code && (f.SetStatus? ==> f.error == code))
  }

  lemma WakeupMoves(st: State, t: Id, code: int)
    requires Shape(st) && t < N(st) && OfWakeup(st.frame[t], code)
    ensures |RunFrame(st, t).frame| == N(st)
    ensures OfWakeup(RunFrame(st, t).frame[t], code) || (RunFrame(st, t).frame[t].Idle? && st.frame[t] == SweepUnlock(code))
  {}

  lemma WakeupAt(run: seq<State>, ls: seq<Label>, j: nat, t: Id, code: int)
    requires IsTrace(run, ls) && j < |ls| && t < N(run[j]) == |run[j].frame| && OfWakeup(run[j].frame[t], code)
    ensures t < N(run[j + 1]) == |run[j + 1].frame|
    ensures OfWakeup(run[j + 1].frame[t], code) ||
            (run[j + 1].frame[t].Idle? && run[j].frame[t] == SweepUnlock(code) && RanFrame(run[j], run[j + 1], t))
  {
    FrameOnly(run, ls, j, t);
    assert TraceAt(run, ls, j);
    WakeupMoves(run[j], t, code);
  }

  /** The call goes on with its own code, and ends only by releasing wait_sync_lock. */
  lemma {:induction false} WakeupGoesOn(run: seq<State>, ls: seq<Label>, i: nat, j: nat, t: Id, code: int)
    requires CallSpans(run, ls, i, j, t) && ls[i] == StartWakeup(t, code)
    ensures t < N(run[j]) == |run[j].frame|
    ensures OfWakeup(run[j].frame[t], code) ||
            (i + 1 < j && run[j].frame[t].Idle? && run[j - 1].frame[t] == SweepUnlock(code) && RanFrame(run[j - 1], run[j], t))
    decreases j
  {
    if j == i + 1 {
      assert TraceAt(run, ls, i);
    } else {
      WakeupGoesOn(run, ls, i, j - 1, t, code);
      assert !run[j - 1].frame[t].Idle?;
      WakeupAt(run, ls, j - 1, t, code);
    }
  }

  /** A global wakeup called with a non-zero code, from its call to its return: every sync on the ring when it
      lets go of the ring has a non-zero status and is bound to return an error and, with steady updates, is
      complete and not asleep. */
  lemma ErrorWakeupReaches(run: seq<State>, ls: seq<Label>, i: nat, j: nat, t: Id, code: int, s: Id)
    requires CallSpans(run, ls, i, j, t) && ls[i] == StartWakeup(t, code) && code != 0
    requires t < |run[j].frame| && run[j].frame[t].Idle? && s in run[j - 1].ring
    ensures Shape(run[j]) && s in run[j].ring && Doomed(run[j], s) && run[j].status[s] != 0
    ensures run[j].log[s].steady ==> run[j].count[s] <= 0 && !run[j].pc[s].Asleep?
  {
    WakeupGoesOn(run, ls, i, j, t, code);
    var st := run[j - 1];
    TraceReachable(run, ls, j - 1);
    TraceReachable(run, ls, j);
    var p :| 0 <= p < |st.ring| && st.ring[p] == s;
    GlobalWakeupReachesAll(st, t, p);
  }

  // ---------------------------------------------------------------- the caller's code arrives

  /** The traversal of frame f has written the status of ring position p. */
  predicate Passed(f: Frame, length: nat, p: nat) {
    SweepHolds(f) && (p < Behind(f, length) || (HasTarget(f) && f.from.index == p && !f.SetStatus?))
  }

  /** The step writes the status of sync s from a frame of a thread other than t. */
  predicate ForeignStatus(st: State, l: Label, t: Id, s: Id) {
    l.Run? && l.t != t && l.t < |st.frame| && st.frame[l.t].SetStatus? && st.frame[l.t].target == s
  }

  lemma StatusStays(st: State, l: Label, t: Id, s: Id)
    requires Shape(st) && Enabled(st, l) && s < N(st) && !st.pc[s].Outside? && !ForeignStatus(st, l, t, s) && !(l.Run? && l.t == t)
    ensures s < |Apply(st, l).status| && Apply(st, l).status[s] == st.status[s]
  {
    if l.Run? && st.frame[l.t].Idle? {
      WaitFlow(st, l.t);
    }
  }

  /** While t's traversal holds wait_sync_lock nobody changes the ring. */
  lemma RingStill(st: State, l: Label, t: Id)
    requires Structure(st) && Enabled(st, l) && t < N(st) && SweepHolds(st.frame[t])
    ensures Apply(st, l).ring == st.ring
  {
    if l.Run? && st.frame[l.t].Idle? {
      assert st.ringLock == Some(t);
      assert !OwnsRing(st.pc[l.t]);
    } else if l.Run? {
      FrameFlow(st, l.t);
    }
  }

  /** What thread t's wakeup has written, it has written with its code. */
  ghost predicate Stamped(st: State, t: Id, p: nat, code: int) {
    && Shape(st) && t < N(st) && p < |st.ring| && OfWakeup(st.frame[t], code)
    && (Passed(st.frame[t], |st.ring|, p) ==> st.status[st.ring[p]] == code)
  }

  lemma OwnStamp(st: State, t: Id, p: nat, code: int)
    requires Shape(st) && CanRun(st, t) && Distinct(st.ring) && code != 0 && Stamped(st, t, p, code) && SweepHolds(st.frame[t])
    requires Shape(RunFrame(st, t)) && OfWakeup(RunFrame(st, t).frame[t], code) && N(RunFrame(st, t)) == N(st)
    ensures Stamped(RunFrame(st, t), t, p, code)
  {
    FrameFlow(st, t);
  }

  lemma StampStep(st: State, l: Label, t: Id, p: nat, code: int)
    requires Structure(st) && Enabled(st, l) && code != 0 && Stamped(st, t, p, code) && SweepHolds(st.frame[t])
    requires !ForeignStatus(st, l, t, st.ring[p])
    requires var st' := Apply(st, l); Shape(st') && N(st') == N(st) && OfWakeup(st'.frame[t], code)
    ensures Stamped(Apply(st, l), t, p, code)
  {
    if l == Run(t) {
      OwnStamp(st, t, p, code);
    } else {
      RingStill(st, l, t);
      assert OnRing(st.pc[st.ring[p]]);
      StatusStays(st, l, t, st.ring[p]);
      OthersFrame(st, l, t);
    }
  }

  lemma OthersFrame(st: State, l: Label, t: Id)
    requires Shape(st) && Enabled(st, l) && t < N(st) && !st.frame[t].Idle? && l != Run(t)
    ensures |Apply(st, l).frame| == N(st) && Apply(st, l).frame[t] == st.frame[t]
  {
    if l.Run? && st.frame[l.t].Idle? {
      WaitFlow(st, l.t);
    } else if l.Run? {
      FrameFlow(st, l.t);
    }
  }

  /** Before the traversal has the lock, it has written nothing. */
  lemma StampNext(st: State, l: Label, t: Id, p: nat, code: int)
    requires Structure(st) && Enabled(st, l) && code != 0 && t < N(st) && OfWakeup(st.frame[t], code)
    requires SweepHolds(st.frame[t]) ==> p < |st.ring| && Stamped(st, t, p, code) && !ForeignStatus(st, l, t, st.ring[p])
    requires var st' := Apply(st, l); Shape(st') && N(st') == N(st) && OfWakeup(st'.frame[t], code) && p < |st'.ring|
    ensures Stamped(Apply(st, l), t, p, code)
  {
    if SweepHolds(st.frame[t]) {
      StampStep(st, l, t, p, code);
    } else if l != Run(t) {
      OthersFrame(st, l, t);
    }
  }

  lemma {:induction false} StampAt(run: seq<State>, ls: seq<Label>, i: nat, j: nat, t: Id, code: int, p: nat)
    requires CallSpans(run, ls, i, j, t) && ls[i] == StartWakeup(t, code) && code != 0
    requires t < |run[j].frame| && OfWakeup(run[j].frame[t], code) && p < |run[j].ring|
    requires forall k: nat :: i < k < j ==> !ForeignStatus(run[k], ls[k], t, run[j].ring[p])
    ensures Stamped(run[j], t, p, code)
    decreases j
  {
    WakeupGoesOn(run, ls, i, j, t, code);
    if j == i + 1 {
      TraceStructure(run, ls, j);
      assert TraceAt(run, ls, i);
    } else {
      WakeupGoesOn(run, ls, i, j - 1, t, code);
      var f := run[j - 1].frame[t];
      assert !f.Idle?;
      if SweepHolds(f) {
        RingStillAt(run, ls, j - 1, t);
        StampAt(run, ls, i, j - 1, t, code, p);
        assert !ForeignStatus(run[j - 1], ls[j - 1], t, run[j].ring[p]);
      }
      StampNextAt(run, ls, j - 1, t, p, code);
    }
  }

  lemma RingStillAt(run: seq<State>, ls: seq<Label>, k: nat, t: Id)
    requires IsTrace(run, ls) && k < |ls| && t < |run[k].frame| == N(run[k]) && SweepHolds(run[k].frame[t])
    ensures run[k + 1].ring == run[k].ring
  {
    TraceStructure(run, ls, k);
    assert TraceAt(run, ls, k);
    RingStill(run[k], ls[k], t);
  }

  lemma StampNextAt(run: seq<State>, ls: seq<Label>, k: nat, t: Id, p: nat, code: int)
    requires IsTrace(run, ls) && k < |ls| && code != 0 && t < |run[k].frame| == N(run[k]) && OfWakeup(run[k].frame[t], code)
    requires SweepHolds(run[k].frame[t]) ==> p < |run[k].ring| && Stamped(run[k], t, p, code) && !ForeignStatus(run[k], ls[k], t, run[k].ring[p])
    requires t < |run[k + 1].frame| && OfWakeup(run[k + 1].frame[t], code) && p < |run[k + 1].ring|
    ensures Stamped(run[k + 1], t, p, code)
  {
    TraceStructure(run, ls, k);
    TraceStructure(run, ls, k + 1);
    assert TraceAt(run, ls, k);
    SameThreads(run[k], ls[k]);
    StampNext(run[k], ls[k], t, p, code);
  }

  lemma SameThreads(st: State, l: Label)
    requires Shape(st) && Enabled(st, l)
    ensures N(Apply(st, l)) == N(st)
  {
    if l.Run? && st.frame[l.t].Idle? {
      WaitFlow(st, l.t);
    } else if l.Run? {
      FrameFlow(st, l.t);
    }
  }

  /** The status that an error wakeup leaves behind is the caller's code, unless another error update wrote the
      same sync's status meanwhile. */
  lemma ErrorWakeupStamps(run: seq<State>, ls: seq<Label>, i: nat, j: nat, t: Id, code: int, s: Id)
    requires CallSpans(run, ls, i, j, t) && ls[i] == StartWakeup(t, code) && code != 0
    requires t < |run[j].frame| && run[j].frame[t].Idle? && s in run[j - 1].ring
    requires forall k: nat :: i < k < j ==> !ForeignStatus(run[k], ls[k], t, s)
    ensures s < |run[j].status| && run[j].status[s] == code
  {
    WakeupGoesOn(run, ls, i, j, t, code);
    var st := run[j - 1];
    var p :| 0 <= p < |st.ring| && st.ring[p] == s;
    assert CallSpans(run, ls, i, j - 1, t);
    StampAt(run, ls, i, j - 1, t, code, p);
  }

  // ---------------------------------------------------------------- error updates

  /** The frame belongs to an error update of sync s with this code; `written`: its status is in place. */
  predicate OfError(f: Frame, s: Id, code: int) {
    HasTarget(f) && f.target == s && f.from.Direct? && !f.Add? && (f.SetStatus? ==> f.error == code)
  }

  /** What the update has done so far. */
  ghost predicate ErrorDone(st: State, t: Id, s: Id, code: int, foreign: bool) {
    && Shape(st) && t < N(st) && s < N(st) && !st.pc[s].Outside?
    && (OfError(st.frame[t], s, code) || st.frame[t].Idle?)
    && (!st.frame[t].SetStatus? && !foreign ==> st.status[s] == code)
    && (!st.frame[t].SetStatus? && !st.frame[t].Swap? ==> st.log[s].erred)
  }

  lemma OwnErrorStep(st: State, t: Id, s: Id, code: int, foreign: bool)
    requires ErrorDone(st, t, s, code, foreign) && CanRun(st, t) && !st.frame[t].Idle? && Shape(RunFrame(st, t))
    ensures ErrorDone(RunFrame(st, t), t, s, code, foreign)
  {
    FrameFlow(st, t);
  }

  lemma ErrorStep(st: State, l: Label, t: Id, s: Id, code: int, foreign: bool)
    requires ErrorDone(st, t, s, code, foreign) && Enabled(st, l) && !st.frame[t].Idle? && Shape(Apply(st, l))
    ensures ErrorDone(Apply(st, l), t, s, code, foreign || ForeignStatus(st, l, t, s))
  {
    if l == Run(t) {
      OwnErrorStep(st, t, s, code, foreign);
    } else {
      OthersFrame(st, l, t);
      SameThreads(st, l);
      StaysInside(st, l, s);
      ErredStays(st, l, s);
      if !ForeignStatus(st, l, t, s) {
        StatusStays(st, l, t, s);
      }
    }
  }

  lemma ErredStays(st: State, l: Label, s: Id)
    requires Shape(st) && Enabled(st, l) && s < N(st) && !st.pc[s].Outside?
    ensures s < |Apply(st, l).log| && (st.log[s].erred ==> Apply(st, l).log[s].erred)
  {
    if l.Run? && st.frame[l.t].Idle? {
      WaitFlow(st, l.t);
    }
  }

  /** Some step between i and j writes the status of s from another thread. */
  ghost predicate ForeignIn(run: seq<State>, ls: seq<Label>, i: nat, j: nat, t: Id, s: Id) {
    exists k: nat :: i < k < j && k < |run| && k < |ls| && ForeignStatus(run[k], ls[k], t, s)
  }

  lemma {:induction false} ErrorGoesOn(run: seq<State>, ls: seq<Label>, i: nat, j: nat, t: Id, s: Id, amount: int, code: int)
    requires CallSpans(run, ls, i, j, t) && ls[i] == StartUpdate(t, s, amount, code) && code != 0
    ensures ErrorDone(run[j], t, s, code, ForeignIn(run, ls, i, j, t, s))
    decreases j
  {
    TraceStructure(run, ls, j);
    if j == i + 1 {
      assert TraceAt(run, ls, i);
    } else {
      ErrorGoesOn(run, ls, i, j - 1, t, s, amount, code);
      assert !run[j - 1].frame[t].Idle?;
      assert TraceAt(run, ls, j - 1);
      ErrorStep(run[j - 1], ls[j - 1], t, s, code, ForeignIn(run, ls, i, j - 1, t, s));
    }
  }

  /** An update called with a non-zero code, from its call to its return: the sync has been failed, its wait
      can only return an error unless it has ended already, and its status is the caller's code unless
      another error update wrote it meanwhile. */
  lemma ErrorUpdateReaches(run: seq<State>, ls: seq<Label>, i: nat, j: nat, t: Id, s: Id, amount: int, code: int)
    requires CallSpans(run, ls, i, j, t) && ls[i] == StartUpdate(t, s, amount, code) && code != 0
    requires t < |run[j].frame| && run[j].frame[t].Idle?
    ensures Shape(run[j]) && s < N(run[j]) && run[j].status[s] != 0 && run[j].log[s].erred
    ensures Doomed(run[j], s) || Ended(run[j].pc[s])
    ensures ForeignIn(run, ls, i, j, t, s) || run[j].status[s] == code
  {
    ErrorGoesOn(run, ls, i, j, t, s, amount, code);
    TraceReachable(run, ls, j);
    ReachableInv(run[j]);
    assert Ledger(run[j].count[s], run[j].status[s], run[j].log[s]);
  }

  // ---------------------------------------------------------------- calls can be finished

  /** What lock holders and open calls still have to do. */
  function Load(st: State): int { Sum(st.pc, HoldRank) + Sum(st.frame, FrameRank(N(st))) }

  lemma LoadNonNegative(st: State)
    ensures Load(st) >= 0
  {
    SumNonNegative(st.pc, HoldRank);
    SumNonNegative(st.frame, FrameRank(N(st)));
  }

  lemma LoadLowers(st: State, u: Id)
    requires Structure(st) && CanRun(st, u) && (!st.frame[u].Idle? || HoldRank(st.pc[u]) > 0)
    ensures N(Apply(st, Run(u))) == N(st) && Load(Apply(st, Run(u))) < Load(st)
  {
    if st.frame[u].Idle? {
      WaitFlow(st, u);
      var st' := RunWait(st, u);
      HoldFlow(st.pc[u], st'.pc[u], st.count[u], st.status[u]);
      SumLower(st.pc, st'.pc, HoldRank, u);
    } else {
      FrameFlow(st, u);
      FrameSumLowers(st, u);
      SumNotHigher(st.pc, RunFrame(st, u).pc, HoldRank);
    }
  }

  /** Somebody can act so that t's open call gets on: t itself if it can. */
  lemma CallHelper(st: State, t: Id) returns (u: Id)
    requires Structure(st) && t < N(st) && !st.frame[t].Idle?
    ensures CanRun(st, u) && (!st.frame[u].Idle? || HoldRank(st.pc[u]) > 0)
    ensures CanRun(st, t) ==> u == t
  {
    u := t;
    if !CanRun(st, t) {
      ChainEnds(st, t);
      FollowHelps(st, t, t, 3);
      u := Follow(st, t, 3);
    }
  }

  /** The second trace goes on where the first one ends. */
  ghost predicate Continues(run: seq<State>, ls: seq<Label>, run': seq<State>, ls': seq<Label>) {
    |run| <= |run'| && |ls| <= |ls'| && run'[..|run|] == run && ls'[..|ls|] == ls
  }

  /** Every open call can be run to its end, by actions of lock holders and open calls alone; a traversal that
      holds wait_sync_lock, or finds it free, leaves the ring as it is. */
  lemma {:induction false} FinishCall(run: seq<State>, ls: seq<Label>, t: Id) returns (run': seq<State>, ls': seq<Label>)
    requires IsTrace(run, ls) && t < |run[|ls|].frame| == N(run[|ls|]) && !run[|ls|].frame[t].Idle?
    ensures IsTrace(run', ls') && Continues(run, ls, run', ls') && |ls| < |ls'|
    ensures t < |run'[|ls'|].frame| && run'[|ls'|].frame[t].Idle?
    ensures forall k {:trigger run'[k]} :: |ls| <= k < |ls'| ==> t < |run'[k].frame| && !run'[k].frame[t].Idle?
    ensures forall k :: |ls| <= k < |ls'| ==> ls'[k].Run?
    ensures var st, st' := run[|ls|], run'[|ls'| - 1]; KeepsRing(st, t) ==> st'.ring == st.ring
    decreases Load(run[|ls|])
  {
    run', ls' := StepCall(run, ls, t);
    if !run'[|ls'|].frame[t].Idle? {
      var run'', ls'' := FinishCall(run', ls', t);
      ContinuesFurther(run, ls, run', ls', run'', ls'');
      run', ls' := run'', ls'';
    }
  }

  /** One helping step for t's open call. */
  lemma StepCall(run: seq<State>, ls: seq<Label>, t: Id) returns (run': seq<State>, ls': seq<Label>)
    requires IsTrace(run, ls) && t < |run[|ls|].frame| == N(run[|ls|]) && !run[|ls|].frame[t].Idle?
    ensures IsTrace(run', ls') && Continues(run, ls, run', ls') && |ls'| == |ls| + 1 && ls'[|ls|].Run?
    ensures var st, st' := run[|ls|], run'[|ls'|];
            && t < |st'.frame| == N(st') && 0 <= Load(st') < Load(st)
            && (KeepsRing(st, t) && !st'.frame[t].Idle? ==> st'.ring == st.ring && KeepsRing(st', t))
  {
    var st := run[|ls|];
    TraceStructure(run, ls, |ls|);
    var u := CallHelper(st, t);
    LoadLowers(st, u);
    LoadNonNegative(Apply(st, Run(u)));
    run', ls' := run + [Apply(st, Run(u))], ls + [Run(u)];
    ExtendTrace(run, ls, Run(u), Apply(st, Run(u)));
    CallGoesOn(st, t, u);
  }

  /** The traversal of t holds wait_sync_lock or can take it. */
  ghost predicate KeepsRing(st: State, t: Id) {
    t < |st.frame| && (SweepHolds(st.frame[t]) || (st.frame[t].SweepLock? && st.ringLock == None))
  }

  lemma CallGoesOn(st: State, t: Id, u: Id)
    requires Structure(st) && t < N(st) && !st.frame[t].Idle? && CanRun(st, u) && (CanRun(st, t) ==> u == t)
    ensures var st' := Apply(st, Run(u));
            && |st'.frame| == N(st') == N(st)
            && (KeepsRing(st, t) && !st'.frame[t].Idle? ==> st'.ring == st.ring && KeepsRing(st', t))
  {
    SameThreads(st, Run(u));
    if u != t {
      OthersFrame(st, Run(u), t);
    }
    if SweepHolds(st.frame[t]) {
      RingStill(st, Run(u), t);
    }
    if u == t && KeepsRing(st, t) {
      FrameFlow(st, t);
      OwnGoesOn(st, t);
    }
  }

  lemma OwnGoesOn(st: State, t: Id)
    requires Shape(st) && t < N(st) && (SweepHolds(st.frame[t]) || st.frame[t].SweepLock?)
    ensures |RunFrame(st, t).frame| == N(st) && (RunFrame(st, t).frame[t].Idle? || SweepHolds(RunFrame(st, t).frame[t]))
  {}

  lemma ContinuesFurther(run: seq<State>, ls: seq<Label>, run': seq<State>, ls': seq<Label>, run'': seq<State>, ls'': seq<Label>)
    requires Continues(run, ls, run', ls') && Continues(run', ls', run'', ls'')
    ensures Continues(run, ls, run'', ls'')
    ensures forall k :: 0 <= k < |run'| ==> run''[k] == run'[k]
    ensures forall k :: 0 <= k < |ls'| ==> ls''[k] == ls'[k]
  {
    forall k | 0 <= k < |run'| ensures run''[k] == run'[k] {
      assert run''[..|run'|][k] == run''[k];
    }
    forall k | 0 <= k < |ls'| ensures ls''[k] == ls'[k] {
      assert ls''[..|ls'|][k] == ls''[k];
    }
    assert run''[..|run|] == run && ls''[..|ls|] == ls;
  }

  /** From every reachable state every call that can be issued has a trace that runs it from its label i to its
      return, at the end of the trace. */
  lemma CallRuns(st: State, l: Label) returns (run: seq<State>, ls: seq<Label>, i: nat)
    requires Reachable(st) && Enabled(st, l) && (l.StartUpdate? || l.StartWakeup?)
    ensures IsTrace(run, ls) && i < |ls| && run[i] == st && ls[i] == l && CallSpans(run, ls, i, |ls|, l.t)
    ensures l.t < |run[|ls|].frame| && run[|ls|].frame[l.t].Idle? && forall k :: i < k < |ls| ==> ls[k].Run?
    ensures l.StartWakeup? && st.ringLock == None ==> run[|ls| - 1].ring == st.ring
  {
    var run0, ls0 := ReachableTrace(st);
    i := |ls0|;
    var st' := Apply(st, l);
    ExtendTrace(run0, ls0, l, st');
    var run1, ls1 := run0 + [st'], ls0 + [l];
    SameThreads(st, l);
    run, ls := FinishCall(run1, ls1, l.t);
    ContinuesFurther(run1, ls1, run1, ls1, run, ls);
    assert run[i] == run1[i] == st && ls[i] == ls1[i] == l;
  }

  /** A global wakeup with an error called while wait_sync_lock is free can be run to its end, and then every sync
      that was on the ring has been failed: it has a non-zero status, and its wait can only return an error. */
  lemma ErrorWakeupWorks(st: State, t: Id, code: int) returns (run: seq<State>, ls: seq<Label>, i: nat)
    requires Reachable(st) && t < N(st) && st.frame[t].Idle? && FreePc(st.pc[t]) && st.ringLock == None && code != 0
    ensures IsTrace(run, ls) && i < |ls| && run[i] == st && ls[i] == StartWakeup(t, code) && CallSpans(run, ls, i, |ls|, t)
    ensures Shape(run[|ls|]) && t < N(run[|ls|]) && run[|ls|].frame[t].Idle?
    ensures forall s :: s in st.ring ==> Doomed(run[|ls|], s) && run[|ls|].status[s] != 0
  {
    run, ls, i := CallRuns(st, StartWakeup(t, code));
    TraceReachable(run, ls, |ls|);
    WakeupGoesOn(run, ls, i, |ls|, t, code);
    forall s | s in st.ring ensures Doomed(run[|ls|], s) && run[|ls|].status[s] != 0 {
      ErrorWakeupReaches(run, ls, i, |ls|, t, code, s);
    }
  }

  /** A success update on a sync that no error has zeroed can be issued by any free thread, inside `progress()`
      say, and run to its end; the labels then account for one more update of that amount. */
  lemma UpdateWorks(st: State, t: Id, s: Id, amount: int) returns (run: seq<State>, ls: seq<Label>, i: nat)
    requires Reachable(st) && t < N(st) && st.frame[t].Idle? && FreePc(st.pc[t]) && s < N(st) && !st.pc[s].Outside?
    ensures IsTrace(run, ls) && i < |ls| && run[i] == st && ls[i] == StartUpdate(t, s, amount, 0) && CallSpans(run, ls, i, |ls|, t)
    ensures t < |run[|ls|].frame| && run[|ls|].frame[t].Idle? && s < |run[|ls|].count|
    ensures (forall k: nat :: i <= k < |ls| ==> !Zeroes(run[k], ls[k], s)) ==>
              Settled(run[|ls|], s) == Settled(st, s) - amount
  {
    run, ls, i := CallRuns(st, StartUpdate(t, s, amount, 0));
    SizesAt(run, ls, |ls|, i);
    if forall k: nat :: i <= k < |ls| ==> !Zeroes(run[k], ls[k], s) {
      SettlesOver(run, ls, i, |ls|, s);
      OneIssue(ls[i..|ls|], s);
    }
  }

  lemma {:induction false} SizesAt(run: seq<State>, ls: seq<Label>, j: nat, i: nat)
    requires IsTrace(run, ls) && i <= j <= |ls|
    ensures N(run[j]) == N(run[i]) == |run[j].count|
    decreases j
  {
    TraceStructure(run, ls, j);
    if i < j {
      SizesAt(run, ls, j - 1, i);
      TraceStructure(run, ls, j - 1);
      assert TraceAt(run, ls, j - 1);
      SameThreads(run[j - 1], ls[j - 1]);
    }
  }

  lemma {:induction false} OneIssue(ls: seq<Label>, s: Id)
    requires |ls| > 0 && forall k :: 1 <= k < |ls| ==> ls[k].Run?
    ensures IssuedSum(ls, s) == IssueAmount(ls[0], s)
  {
    if |ls| == 1 {
      assert ls[..0] == [];
    } else {
      OneIssue(ls[..|ls| - 1], s);
    }
  }

  /** A global wakeup called with status 0, from its call on: the no-op of SuccessWakeupIsNoOp. */
  lemma SuccessCallIsNoOp(run: seq<State>, ls: seq<Label>, i: nat, j: nat, t: Id)
    requires CallSpans(run, ls, i, j, t) && ls[i] == StartWakeup(t, 0) && forall k: nat :: i < k < j ==> !VisitsZero(run, k, t)
    ensures Shape(run[j]) && t < N(run[j]) && (SuccessSweep(run[j].frame[t]) || run[j].frame[t].Idle?)
    ensures CanRun(run[j], t) && !run[j].frame[t].Idle? ==> SameFields(run[j], Apply(run[j], Run(t)))
  {
    TraceIsRun(run, ls);
    assert TraceAt(run, ls, i);
    SameThreads(run[i], ls[i]);
    assert SuccessWakeup(run, i + 1, j, t);
    SuccessWakeupIsNoOp(run, i + 1, j, t);
  }

  // ---------------------------------------------------------------- history says what happened

  /** The step applies a success update to sync s. */
  predicate Adds(st: State, l: Label, s: Id) {
    l.Run? && l.t < |st.frame| && st.frame[l.t].Add? && st.frame[l.t].target == s
  }

  predicate Leaps(st: State, l: Label, s: Id) {
    s < |st.count| && Adds(st, l, s) && st.count[s] > 0 && st.count[s] - st.frame[l.t].amount < 0
  }

  predicate Raises(st: State, l: Label, s: Id) { Adds(st, l, s) && st.frame[l.t].amount < 0 }

  predicate Fails(st: State, l: Label, s: Id) { s < |st.count| && Zeroes(st, l, s) && st.count[s] > 0 }

  predicate Exceeds(st: State, l: Label, s: Id) {
    s < |st.count| && s < |st.log| && Adds(st, l, s) && Irregular(st.log[s], st.count[s], st.frame[l.t].amount)
  }

  lemma FlagsStep(st: State, l: Label, s: Id)
    requires Shape(st) && Enabled(st, l) && s < N(st) && !st.pc[s].Outside?
    ensures s < |Apply(st, l).log|
    ensures var a, b := st.log[s], Apply(st, l).log[s];
            && b.init == a.init && b.leapt == (a.leapt || Leaps(st, l, s)) && b.steady == (a.steady && !Raises(st, l, s))
            && b.erred == (a.erred || Zeroes(st, l, s)) && b.failed == (a.failed || Fails(st, l, s))
            && b.regular == (a.regular && !Exceeds(st, l, s))
  {
    if l.Run? && st.frame[l.t].Idle? {
      WaitFlow(st, l.t);
    } else if l.Run? {
      FrameFlags(st, l.t, s);
    }
  }

  lemma FrameFlags(st: State, t: Id, s: Id)
    requires Shape(st) && t < N(st) && !st.frame[t].Idle? && s < N(st)
    ensures |RunFrame(st, t).log| == N(st)
    ensures var a, b, l := st.log[s], RunFrame(st, t).log[s], Run(t);
            && b.init == a.init && b.leapt == (a.leapt || Leaps(st, l, s)) && b.steady == (a.steady && !Raises(st, l, s))
            && b.erred == (a.erred || Zeroes(st, l, s)) && b.failed == (a.failed || Fails(st, l, s))
            && b.regular == (a.regular && !Exceeds(st, l, s))
  {}

  /** The flags of sync s at j, as the steps after i made them. */
  ghost predicate FlagsTrue(run: seq<State>, ls: seq<Label>, i: nat, j: nat, s: Id, c: int)
    requires |run| == |ls| + 1 && j <= |ls| && s < |run[j].log|
  {
    var lg := run[j].log[s];
    && lg.init == c
    && (lg.leapt <==> exists k: nat :: i < k < j && Leaps(run[k], ls[k], s))
    && (lg.steady <==> forall k: nat :: i < k < j ==> !Raises(run[k], ls[k], s))
    && (lg.erred <==> exists k: nat :: i < k < j && Zeroes(run[k], ls[k], s))
    && (lg.failed <==> exists k: nat :: i < k < j && Fails(run[k], ls[k], s))
    && (lg.regular <==> forall k: nat :: i < k < j ==> !Exceeds(run[k], ls[k], s))
  }

  lemma FlagsAt(run: seq<State>, ls: seq<Label>, i: nat, j: nat, s: Id, c: int)
    requires IsTrace(run, ls) && i < j < |ls| && s < N(run[j]) && !run[j].pc[s].Outside? && s < |run[j].log| && FlagsTrue(run, ls, i, j, s, c)
    ensures s < N(run[j + 1]) && !run[j + 1].pc[s].Outside? && s < |run[j + 1].log| && FlagsTrue(run, ls, i, j + 1, s, c)
  {
    assert TraceAt(run, ls, j);
    FlagsStep(run[j], ls[j], s);
    StaysInside(run[j], ls[j], s);
  }

  /** The words that describe callers mean what they say: each flag of a sync's history is set by the steps
      since WAIT_SYNC_INIT that it speaks of, and by no others. */
  lemma {:induction false} HistoryIsTrue(run: seq<State>, ls: seq<Label>, i: nat, j: nat, s: Id, c: int)
    requires IsTrace(run, ls) && i < j <= |ls| && ls[i] == Begin(s, c)
    ensures s < N(run[j]) && !run[j].pc[s].Outside? && s < |run[j].log| && FlagsTrue(run, ls, i, j, s, c)
    decreases j
  {
    if j == i + 1 {
      FlagsStart(run, ls, i, s, c);
    } else {
      HistoryIsTrue(run, ls, i, j - 1, s, c);
      FlagsAt(run, ls, i, j - 1, s, c);
    }
  }

  lemma FlagsStart(run: seq<State>, ls: seq<Label>, i: nat, s: Id, c: int)
    requires IsTrace(run, ls) && i < |ls| && ls[i] == Begin(s, c)
    ensures s < N(run[i + 1]) && !run[i + 1].pc[s].Outside? && s < |run[i + 1].log| && FlagsTrue(run, ls, i, i + 1, s, c)
  {
    assert TraceAt(run, ls, i);
    assert run[i + 1].log[s] == NewLog(c);
  }

  // ---------------------------------------------------------------- the budget by the labels

  /** The step is a traversal's visit of sync s. */
  predicate Visits(st: State, l: Label, s: Id) {
    && l.Run? && l.t < |st.frame|
    && match st.frame[l.t]
       case SweepHead(_) => st.ring != [] && st.ring[0] == s
       case SweepNext(_, k) => k + 1 < |st.ring| && st.ring[k + 1] == s
       case _ => false
  }

  /** Step k keeps to the budget c of sync s: no visit, and an update of it is a positive success that fits. */
  ghost predicate FitsAt(run: seq<State>, ls: seq<Label>, i: nat, k: nat, s: Id, c: int)
    requires i < k < |ls| && k < |run|
  {
    && !Visits(run[k], ls[k], s)
    && (ls[k].StartUpdate? && ls[k].target == s ==>
          ls[k].error == 0 && ls[k].amount > 0 && IssuedSum(ls[i + 1..k + 1], s) <= c)
  }

  lemma BudgetStep(st: State, l: Label, s: Id)
    requires Shape(st) && Enabled(st, l) && s < N(st) && !st.pc[s].Outside?
    ensures s < |Apply(st, l).log|
    ensures var a, b := st.log[s], Apply(st, l).log[s];
            && (Visits(st, l, s) ==> !b.tame)
            && (!Visits(st, l, s) && !(l.StartUpdate? && l.target == s) ==> b.tame == a.tame && b.reserved == a.reserved)
            && (l.StartUpdate? && l.target == s ==> b == LogIssue(a, l.amount, l.error))
  {
    if l.Run? && st.frame[l.t].Idle? {
      WaitFlow(st, l.t);
    } else if l.Run? {
      FrameBudget(st, l.t, s);
    }
  }

  lemma FrameBudget(st: State, t: Id, s: Id)
    requires Shape(st) && t < N(st) && !st.frame[t].Idle? && s < N(st)
    ensures |RunFrame(st, t).log| == N(st)
    ensures if Visits(st, Run(t), s) then !RunFrame(st, t).log[s].tame
            else RunFrame(st, t).log[s].tame == st.log[s].tame && RunFrame(st, t).log[s].reserved == st.log[s].reserved
  {}

  ghost predicate BudgetTrue(run: seq<State>, ls: seq<Label>, i: nat, j: nat, s: Id, c: int)
    requires |run| == |ls| + 1 && i < j <= |ls| && s < |run[j].log|
  {
    var lg := run[j].log[s];
    && lg.init == c
    && (lg.tame <==> forall k: nat :: i < k < j ==> FitsAt(run, ls, i, k, s, c))
    && (lg.tame ==> lg.reserved == IssuedSum(ls[i + 1..j], s))
  }

  lemma BudgetAt(run: seq<State>, ls: seq<Label>, i: nat, j: nat, s: Id, c: int)
    requires IsTrace(run, ls) && i < j < |ls| && s < N(run[j]) && !run[j].pc[s].Outside? && s < |run[j].log| && BudgetTrue(run, ls, i, j, s, c)
    ensures s < N(run[j + 1]) && !run[j + 1].pc[s].Outside? && s < |run[j + 1].log| && BudgetTrue(run, ls, i, j + 1, s, c)
  {
    assert TraceAt(run, ls, j);
    BudgetStep(run[j], ls[j], s);
    FlagsStep(run[j], ls[j], s);
    StaysInside(run[j], ls[j], s);
    var issued := ls[i + 1..j + 1];
    assert issued[..|issued| - 1] == ls[i + 1..j] && issued[|issued| - 1] == ls[j];
    assert run[j + 1].log[s].tame <==> run[j].log[s].tame && FitsAt(run, ls, i, j, s, c);
  }

  /** A sync is within its budget exactly as long as the labels since WAIT_SYNC_INIT only issue positive success
      updates of at most the initial count in total and no traversal visits it. */
  lemma {:induction false} BudgetIsTrue(run: seq<State>, ls: seq<Label>, i: nat, j: nat, s: Id, c: int)
    requires IsTrace(run, ls) && i < j <= |ls| && ls[i] == Begin(s, c)
    ensures s < N(run[j]) && !run[j].pc[s].Outside? && s < |run[j].log| && BudgetTrue(run, ls, i, j, s, c)
    decreases j
  {
    if j == i + 1 {
      assert TraceAt(run, ls, i);
    } else {
      BudgetIsTrue(run, ls, i, j - 1, s, c);
      BudgetAt(run, ls, i, j - 1, s, c);
    }
  }

  // ---------------------------------------------------------------- syncs complete from the start

  /** Points of a wait that never looks at a lock. */
  predicate Swift(p: Pc) { p.FastCheck? || p.ReadStatus? || Ended(p) }

  lemma SwiftStep(st: State, l: Label, s: Id)
    requires Shape(st) && Enabled(st, l) && s < N(st) && Swift(st.pc[s]) && st.count[s] <= 0 && !Raises(st, l, s)
    ensures var st' := Apply(st, l); s < N(st') == |st'.count| && Swift(st'.pc[s]) && st'.count[s] <= 0
  {
    SameThreads(st, l);
    if l.Run? && st.frame[l.t].Idle? {
      WaitFlow(st, l.t);
    } else if l.Run? {
      FrameFlow(st, l.t);
      CountFalls(st, l.t, s);
    }
  }

  lemma CountFalls(st: State, t: Id, s: Id)
    requires Shape(st) && t < N(st) && !st.frame[t].Idle? && s < N(st) && st.count[s] <= 0 && !Raises(st, Run(t), s)
    ensures |RunFrame(st, t).count| == N(st) && RunFrame(st, t).count[s] <= 0
  {}

  /** A wait on a sync that is complete from the start, and that no negative update raises, returns without taking a lock
      or joining the ring. */
  lemma {:induction false} CompleteNeverWaits(run: seq<State>, ls: seq<Label>, i: nat, j: nat, s: Id, c: int)
    requires IsTrace(run, ls) && i < j <= |ls| && ls[i] == Begin(s, c) && c <= 0
    requires forall k: nat :: i < k < j ==> !Raises(run[k], ls[k], s)
    ensures s < N(run[j]) == |run[j].count| && Swift(run[j].pc[s]) && run[j].count[s] <= 0
    decreases j
  {
    assert TraceAt(run, ls, j - 1);
    if j > i + 1 {
      CompleteNeverWaits(run, ls, i, j - 1, s, c);
      SwiftStep(run[j - 1], ls[j - 1], s);
    }
  }
}
