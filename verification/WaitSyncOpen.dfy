/** Safe release without a budget: exactly when a released sync may still be touched, and which calls the
    spin loop of WAIT_SYNC_RELEASE holds back long enough. */
module WaitSyncOpen {
  import opened WaitSyncModel
  import opened WaitSyncFlow
  import opened WaitSyncLocks
  import opened WaitSyncRelease
  import opened WaitSyncTheorems
  import opened WaitSyncWitness

  // ---------------------------------------------------------------- touching a released sync

  /** Some thread can take an action that accesses sync s. */
  ghost predicate Touchable(st: State, s: Id)
    requires |st.frame| == N(st)
  {
    exists t :: CanRun(st, t) && s in Touches(st, t)
  }

  lemma NotOnRing(st: State, s: Id)
    requires Structure(st) && s < N(st) && st.pc[s].Released?
    ensures s !in st.ring && s !in Members(st.ring)
  {
    forall i | 0 <= i < |st.ring| ensures st.ring[i] != s {
      assert OnRing(st.pc[st.ring[i]]);
    }
  }

  /** Whoever may touch a released sync does so from an open call. */
  lemma TouchIsCall(st: State, s: Id, t: Id)
    requires Structure(st) && s < N(st) && st.pc[s].Released? && t < N(st)
    ensures s in Touches(st, t) <==> On(st.frame[t], s)
  {
    NotOnRing(st, s);
  }

  /** The lock of a released sync is held, if at all, by an open call that is about to go on. */
  lemma HolderIsCall(st: State, s: Id)
    requires Structure(st) && s < N(st) && st.pc[s].Released? && st.lock[s].Some?
    ensures var o := st.lock[s].value; o < N(st) && On(st.frame[o], s) && CanRun(st, o)
  {
    var o := st.lock[s].value;
    assert OwnerOk(st.pc, st.frame, st.ring, st.lock, s);
    NotOnRing(st, s);
  }

  lemma CallCanRun(st: State, s: Id, t: Id) returns (u: Id)
    requires Structure(st) && s < N(st) && st.pc[s].Released? && t < N(st) && On(st.frame[t], s)
    ensures CanRun(st, u) && On(st.frame[u], s)
  {
    u := t;
    if st.frame[t].SignalLock? && st.lock[s].Some? {
      HolderIsCall(st, s);
      u := st.lock[s].value;
    }
  }

  /** A released sync can be touched by somebody's next action iff a call on it is open. */
  lemma ReleasedTouchedIff(st: State, s: Id)
    requires Reachable(st) && s < N(st) && st.pc[s].Released?
    ensures Touchable(st, s) <==> OpenOn(st.frame, s)
  {
    ReachableInv(st);
    if t :| CanRun(st, t) && s in Touches(st, t) {
      TouchIsCall(st, s, t);
    }
    if t :| 0 <= t < |st.frame| && On(st.frame[t], s) {
      var u := CallCanRun(st, s, t);
      TouchIsCall(st, s, u);
    }
  }

  /** So a release is followed by a touch iff it overtakes an open call. */
  lemma ReleaseOvertakesIff(st: State, s: Id)
    requires Reachable(st) && Enabled(st, Release(s))
    ensures Shape(Apply(st, Release(s))) && (Touchable(Apply(st, Release(s)), s) <==> OpenOn(st.frame, s))
  {
    Extend(st, Release(s));
    ReleasedTouchedIff(Apply(st, Release(s)), s);
  }

  // ---------------------------------------------------------------- the rest of the run

  /** Step k issues an update of sync s. */
  ghost predicate Issues(st: State, st': State, s: Id) {
    Shape(st) && exists l: Label :: IssueOf(l, s) && Enabled(st, l) && st' == Apply(st, l)
  }

  predicate IssueOf(l: Label, s: Id) { l.StartUpdate? && l.target == s }

  ghost predicate IssuesAt(run: seq<State>, k: nat, s: Id) {
    k + 1 < |run| && Issues(run[k], run[k + 1], s)
  }

  /** Only an update issued on it can open a call on a released sync: no traversal meets it. */
  lemma NothingOpens(st: State, l: Label, s: Id)
    requires Structure(st) && Enabled(st, l) && s < N(st) && st.pc[s].Released? && !OpenOn(st.frame, s) && !IssueOf(l, s)
    ensures !OpenOn(Apply(st, l).frame, s)
  {
    NotOnRing(st, s);
    if l.Run? && st.frame[l.t].Idle? {
      WaitFlow(st, l.t);
    } else if l.Run? {
      FrameFlow(st, l.t);
      FrameOpens(st, l.t, s);
    }
    forall u | 0 <= u < N(st) ensures !On(st.frame[u], s) {}
  }

  lemma FrameOpens(st: State, t: Id, s: Id)
    requires Shape(st) && t < N(st) && s !in st.ring && !On(st.frame[t], s)
    ensures |RunFrame(st, t).frame| == N(st) && !On(RunFrame(st, t).frame[t], s)
  {}

  lemma NothingOpensNext(st: State, st': State, s: Id)
    requires Structure(st) && Next(st, st') && s < N(st) && st.pc[s].Released? && !OpenOn(st.frame, s) && !Issues(st, st', s)
    ensures !OpenOn(st'.frame, s)
  {
    var l :| Enabled(st, l) && st' == Apply(st, l);
    NothingOpens(st, l, s);
  }

  /** A sync that is released while no call on it is open, and on which none is issued later, is never
      touched again, whatever its callers did before. */
  lemma ClosedReleaseIsFinal(run: seq<State>, i: nat, j: nat, s: Id)
    requires IsRun(run) && i <= j < |run| && s < N(run[i]) && run[i].pc[s].Released? && !OpenOn(run[i].frame, s)
    requires forall k: nat :: i <= k < j ==> !IssuesAt(run, k, s)
    ensures Shape(run[j]) && s < N(run[j]) && run[j].pc[s].Released?
    ensures !OpenOn(run[j].frame, s) && !Touchable(run[j], s)
  {
    RunReachable(run, j);
    StaysReleased(run, i, j, s);
    StaysClosed(run, i, j, s);
    ReleasedTouchedIff(run[j], s);
  }

  lemma {:induction false} StaysClosed(run: seq<State>, i: nat, j: nat, s: Id)
    requires IsRun(run) && i <= j < |run| && s < N(run[i]) && run[i].pc[s].Released? && !OpenOn(run[i].frame, s)
    requires forall k: nat :: i <= k < j ==> !IssuesAt(run, k, s)
    ensures s < N(run[j]) && run[j].pc[s].Released? && !OpenOn(run[j].frame, s)
    decreases j
  {
    StaysReleased(run, i, j, s);
    if i < j {
      StaysClosed(run, i, j - 1, s);
      ClosedAt(run, j - 1, s);
    }
  }

  lemma ClosedAt(run: seq<State>, k: nat, s: Id)
    requires IsRun(run) && k + 1 < |run| && s < N(run[k]) && run[k].pc[s].Released? && !OpenOn(run[k].frame, s) && !IssuesAt(run, k, s)
    ensures !OpenOn(run[k + 1].frame, s)
  {
    RunStructure(run, k);
    assert StepAt(run, k);
    NothingOpensNext(run[k], run[k + 1], s);
  }

  // ---------------------------------------------------------------- orderly calls

  ghost predicate AtMostOneOpen(frame: seq<Frame>, s: Id) {
    forall a, b :: 0 <= a < |frame| && 0 <= b < |frame| && On(frame[a], s) && On(frame[b], s) ==> a == b
  }

  /** Once a sync has left its budget in an orderly way, calls on it come one at a time and the mark stays
      set while one is open; a released sync has its mark cleared. */
  ghost predicate Orderly(st: State, s: Id)
    requires Shape(st) && s < N(st)
  {
    && (st.log[s].tame ==> st.orderly[s]) && (st.pc[s].Released? ==> !st.signaling[s])
    && (st.orderly[s] && !st.log[s].tame ==> AtMostOneOpen(st.frame, s) && (OpenOn(st.frame, s) ==> st.signaling[s]))
  }

  ghost predicate OrderlyOk(st: State)
    requires Shape(st)
  {
    forall s {:trigger Orderly(st, s)} :: 0 <= s < N(st) && !st.pc[s].Outside? ==> Orderly(st, s)
  }

  /** A frame change that opens no call on s. */
  lemma NoneOpened(frame: seq<Frame>, t: Id, f: Frame, s: Id)
    requires t < |frame| && (On(f, s) ==> On(frame[t], s))
    ensures AtMostOneOpen(frame, s) ==> AtMostOneOpen(frame[t := f], s)
    ensures OpenOn(frame[t := f], s) ==> OpenOn(frame, s)
  {
    if OpenOn(frame[t := f], s) {
      var a :| 0 <= a < |frame| && On(frame[t := f][a], s);
      assert On(frame[a], s);
    }
  }

  /** The last call on s ends. */
  lemma LastCloses(frame: seq<Frame>, t: Id, f: Frame, s: Id)
    requires t < |frame| && On(frame[t], s) && !On(f, s) && AtMostOneOpen(frame, s)
    ensures !OpenOn(frame[t := f], s)
  {}

  /** The first call on s starts. */
  lemma FirstOpens(frame: seq<Frame>, t: Id, f: Frame, s: Id)
    requires t < |frame| && !OpenOn(frame, s)
    ensures AtMostOneOpen(frame[t := f], s)
  {
    forall a | 0 <= a < |frame| ensures !On(frame[a], s) {}
  }

  /** A step of a frame that is neither a visit nor the clearing of a mark. */
  lemma PlainFrameKeepsOrder(st: State, t: Id)
    requires Structure(st) && OrderlyOk(st) && CanRun(st, t) && !st.frame[t].Idle? && Shape(RunFrame(st, t))
    requires !st.frame[t].ClearSignaling? && !st.frame[t].SweepHead? && !st.frame[t].SweepNext?
    ensures OrderlyOk(RunFrame(st, t))
  {
    FrameFlow(st, t);
    var st' := RunFrame(st, t);
    PlainFrame(st, t);
    forall s | 0 <= s < N(st) && !st'.pc[s].Outside? ensures Orderly(st', s) {
      assert Orderly(st, s);
      NoneOpened(st.frame, t, st'.frame[t], s);
    }
  }

  lemma PlainFrame(st: State, t: Id)
    requires Shape(st) && t < N(st) && !st.frame[t].Idle?
    requires !st.frame[t].ClearSignaling? && !st.frame[t].SweepHead? && !st.frame[t].SweepNext?
    ensures var st' := RunFrame(st, t);
            && st'.signaling == st.signaling && st'.orderly == st.orderly && |st'.log| == N(st) && |st'.frame| == N(st)
            && (forall s :: 0 <= s < N(st) ==> st'.log[s].tame == st.log[s].tame)
            && (HasTarget(st'.frame[t]) ==> HasTarget(st.frame[t]) && st'.frame[t].target == st.frame[t].target)
  {}

  lemma ClearKeepsOrder(st: State, t: Id)
    requires Structure(st) && OrderlyOk(st) && CanRun(st, t) && st.frame[t].ClearSignaling? && Shape(RunFrame(st, t))
    ensures OrderlyOk(RunFrame(st, t))
  {
    var st' := RunFrame(st, t);
    forall s | 0 <= s < N(st) && !st'.pc[s].Outside? ensures Orderly(st', s) {
      assert Orderly(st, s);
      NoneOpened(st.frame, t, st'.frame[t], s);
      if s == st.frame[t].target && AtMostOneOpen(st.frame, s) {
        LastCloses(st.frame, t, st'.frame[t], s);
      }
    }
  }

  /** A visit of a traversal, and the end of one, seen from sync s. */
  lemma SweepKeepsOrder(st: State, t: Id)
    requires Structure(st) && OrderlyOk(st) && CanRun(st, t) && (st.frame[t].SweepHead? || st.frame[t].SweepNext?)
    requires Shape(RunFrame(st, t))
    ensures OrderlyOk(RunFrame(st, t))
  {
    var st' := RunFrame(st, t);
    FrameFlow(st, t);
    SweepFrame(st, t);
    forall s | 0 <= s < N(st) && !st'.pc[s].Outside? ensures Orderly(st', s) {
      assert Orderly(st, s);
      if !On(st'.frame[t], s) {
        NoneOpened(st.frame, t, st'.frame[t], s);
      } else if Alone(st, s) {
        FirstOpens(st.frame, t, st'.frame[t], s);
      }
    }
  }

  lemma SweepFrame(st: State, t: Id)
    requires Shape(st) && t < N(st) && (st.frame[t].SweepHead? || st.frame[t].SweepNext?)
    ensures var st' := RunFrame(st, t);
            && st'.signaling == st.signaling && |st'.log| == |st'.orderly| == |st'.frame| == N(st)
            && forall s :: 0 <= s < N(st) ==>
                 if On(st'.frame[t], s) then !st'.log[s].tame && st'.orderly[s] == (st.orderly[s] && Alone(st, s))
                 else st'.log[s].tame == st.log[s].tame && st'.orderly[s] == st.orderly[s]
  {}

  lemma FrameKeepsOrder(st: State, t: Id)
    requires Structure(st) && OrderlyOk(st) && CanRun(st, t) && !st.frame[t].Idle? && Shape(RunFrame(st, t))
    ensures OrderlyOk(RunFrame(st, t))
  {
    if st.frame[t].ClearSignaling? {
      ClearKeepsOrder(st, t);
    } else if st.frame[t].SweepHead? || st.frame[t].SweepNext? {
      SweepKeepsOrder(st, t);
    } else {
      PlainFrameKeepsOrder(st, t);
    }
  }

  lemma IssueKeepsOrder(st: State, l: Label)
    requires Structure(st) && OrderlyOk(st) && Enabled(st, l) && l.StartUpdate? && Shape(Apply(st, l))
    ensures OrderlyOk(Apply(st, l))
  {
    var st', f := Apply(st, l), Entry(l.target, l.amount, l.error, Direct);
    forall s | 0 <= s < N(st) && !st'.pc[s].Outside? ensures Orderly(st', s) {
      assert Orderly(st, s);
      if s != l.target {
        NoneOpened(st.frame, l.t, f, s);
      } else if Alone(st, s) {
        FirstOpens(st.frame, l.t, f, s);
      }
    }
  }

  lemma OtherKeepsOrder(st: State, l: Label)
    requires Structure(st) && OrderlyOk(st) && Enabled(st, l) && !l.Run? && !l.StartUpdate? && Shape(Apply(st, l))
    ensures OrderlyOk(Apply(st, l))
  {
    var st' := Apply(st, l);
    forall s | 0 <= s < N(st) && !st'.pc[s].Outside? ensures Orderly(st', s) {
      if !(l.Begin? && s == l.t) {
        assert Orderly(st, s);
        NoneOpened(st.frame, l.t, st'.frame[l.t], s);
        assert st'.frame == st.frame[l.t := st'.frame[l.t]];
      }
    }
  }

  lemma WaitKeepsOrderly(st: State, t: Id)
    requires Structure(st) && OrderlyOk(st) && CanRun(st, t) && st.frame[t].Idle? && Shape(RunWait(st, t))
    ensures OrderlyOk(RunWait(st, t))
  {
    WaitFlow(st, t);
    var st' := RunWait(st, t);
    forall s | 0 <= s < N(st) && !st'.pc[s].Outside? ensures Orderly(st', s) {
      assert Orderly(st, s);
    }
  }

  lemma StepKeepsOrderly(st: State, l: Label)
    requires Structure(st) && OrderlyOk(st) && Enabled(st, l)
    ensures Shape(Apply(st, l)) && OrderlyOk(Apply(st, l))
  {
    StepKeepsStructure(st, l);
    if l.Run? && st.frame[l.t].Idle? {
      WaitKeepsOrderly(st, l.t);
    } else if l.Run? {
      FrameKeepsOrder(st, l.t);
    } else if l.StartUpdate? {
      IssueKeepsOrder(st, l);
    } else {
      OtherKeepsOrder(st, l);
    }
  }

  lemma OrderlyNext(st: State, st': State)
    requires Structure(st) && OrderlyOk(st) && Next(st, st')
    ensures Shape(st') && OrderlyOk(st')
  {
    var l :| Enabled(st, l) && st' == Apply(st, l);
    StepKeepsOrderly(st, l);
  }

  lemma {:induction false} RunOrderly(run: seq<State>, i: nat)
    requires IsRun(run) && i < |run|
    ensures Shape(run[i]) && OrderlyOk(run[i])
  {
    if i > 0 {
      RunOrderly(run, i - 1);
      OrderlyAt(run, i - 1);
    }
  }

  lemma OrderlyAt(run: seq<State>, i: nat)
    requires IsRun(run) && i + 1 < |run| && Shape(run[i]) && OrderlyOk(run[i])
    ensures Shape(run[i + 1]) && OrderlyOk(run[i + 1])
  {
    RunStructure(run, i);
    assert StepAt(run, i);
    OrderlyNext(run[i], run[i + 1]);
  }

  lemma ReachableOrderly(st: State)
    requires Reachable(st)
    ensures OrderlyOk(st)
  {
    var run :| EndsIn(run, st);
    RunOrderly(run, |run| - 1);
  }

  // ---------------------------------------------------------------- released and untouched

  lemma ClosedWhenReleased(st: State, s: Id)
    requires Shape(st) && TameOk(st) && OrderlyOk(st) && s < N(st) && st.pc[s].Released? && st.orderly[s]
    ensures !OpenOn(st.frame, s)
  {
    assert Orderly(st, s);
    if st.log[s].tame {
      forall u | 0 <= u < N(st) ensures !On(st.frame[u], s) {
        NoFrameOnReleased(st, s, u);
      }
    }
  }

  /** No action of any thread touches a released sync whose callers were orderly: as long as they kept to its
      budget, and after that one call at a time, each issued while the mark was set. */
  lemma ReleasedIsUntouched(st: State, s: Id, t: Id)
    requires Reachable(st) && s < N(st) && t < N(st) && st.pc[s].Released? && st.orderly[s]
    ensures s !in Touches(st, t) && !Touchable(st, s) && st.lock[s].None?
  {
    ReachableInv(st);
    ReachableOrderly(st);
    ClosedWhenReleased(st, s);
    ReleasedTouchedIff(st, s);
    TouchIsCall(st, s, t);
    if st.lock[s].Some? {
      HolderIsCall(st, s);
    }
  }

  /** Callers that keep to the budget are orderly. */
  lemma TameIsOrderly(st: State, s: Id)
    requires Reachable(st) && s < N(st) && !st.pc[s].Outside? && st.log[s].tame
    ensures st.orderly[s]
  {
    ReachableOrderly(st);
    assert Orderly(st, s);
  }

  /** Released syncs stay released, so this holds for the rest of the run. */
  lemma ReleaseIsForever(run: seq<State>, i: nat, j: nat, s: Id, t: Id)
    requires IsRun(run) && i <= j < |run| && s < N(run[i]) && t < N(run[j]) && run[i].pc[s].Released?
    ensures s < N(run[j]) && run[j].pc[s].Released? && Shape(run[j])
    ensures run[j].orderly[s] ==> s !in Touches(run[j], t) && !Touchable(run[j], s)
  {
    StaysReleased(run, i, j, s);
    RunReachable(run, j);
    if run[j].orderly[s] {
      ReleasedIsUntouched(run[j], s, t);
    }
  }

  // ---------------------------------------------------------------- a last call of any kind

  /** Some thread has entered a call on sync s between the two states. */
  ghost predicate Opens(st: State, st': State, s: Id) {
    |st'.frame| == |st.frame| && exists t :: 0 <= t < |st.frame| && !On(st.frame[t], s) && On(st'.frame[t], s)
  }

  ghost predicate OpensAt(run: seq<State>, k: nat, s: Id) {
    k + 1 < |run| && Opens(run[k], run[k + 1], s)
  }

  /** Whatever step is taken, an orderly sync stays orderly if no call is opened on it or if it is alone. */
  lemma StaysOrderly(st: State, l: Label, s: Id)
    requires Structure(st) && Enabled(st, l) && s < N(st) && !st.pc[s].Outside? && st.orderly[s]
    requires Alone(st, s) || !Opens(st, Apply(st, l), s)
    ensures var st' := Apply(st, l); s < N(st') == |st'.orderly| && st'.orderly[s] && !st'.pc[s].Outside?
  {
    var st' := Apply(st, l);
    if l.Run? && st.frame[l.t].Idle? {
      WaitFlow(st, l.t);
    } else if l.Run? {
      FrameFlow(st, l.t);
      FrameStaysOrderly(st, l.t, s);
    } else if l.StartUpdate? {
      assert l.target == s && !Alone(st, s) ==> !On(st.frame[l.t], s) && On(st'.frame[l.t], s);
    }
  }

  lemma FrameStaysOrderly(st: State, t: Id, s: Id)
    requires Shape(st) && t < N(st) && !st.frame[t].Idle? && s < N(st) && st.orderly[s]
    requires Alone(st, s) || !Opens(st, RunFrame(st, t), s)
    ensures |RunFrame(st, t).orderly| == N(st) && RunFrame(st, t).orderly[s]
  {
    if st.frame[t].SweepHead? || st.frame[t].SweepNext? {
      SweepFrame(st, t);
      var st' := RunFrame(st, t);
      assert !On(st.frame[t], s) && (On(st'.frame[t], s) ==> Opens(st, st', s));
    }
  }

  lemma StaysOrderlyNext(st: State, st': State, s: Id)
    requires Structure(st) && Next(st, st') && s < N(st) && !st.pc[s].Outside? && st.orderly[s]
    requires Alone(st, s) || !Opens(st, st', s)
    ensures s < N(st') == |st'.orderly| && st'.orderly[s] && !st'.pc[s].Outside?
  {
    var l :| Enabled(st, l) && st' == Apply(st, l);
    StaysOrderly(st, l, s);
  }

  /** The spin loop suffices for one more call of any kind, an error update or a visit of a global wakeup
      say: if it is opened at i while no other call is open and the mark is set, and no call is opened after
      it, then whenever the sync has been released nobody can touch it. */
  lemma {:induction false} LastCallIsSafe(run: seq<State>, i: nat, j: nat, s: Id)
    requires IsRun(run) && i < j < |run| && Shape(run[i]) && s < N(run[i]) && !run[i].pc[s].Outside?
    requires run[i].orderly[s] && Alone(run[i], s)
    requires forall k: nat :: i < k < j ==> !OpensAt(run, k, s)
    ensures Shape(run[j]) && s < N(run[j]) && !run[j].pc[s].Outside? && run[j].orderly[s]
    ensures run[j].pc[s].Released? ==> !Touchable(run[j], s)
    decreases j
  {
    if i + 1 < j {
      LastCallIsSafe(run, i, j - 1, s);
      assert !OpensAt(run, j - 1, s);
    }
    StaysOrderlyAt(run, j - 1, s);
    RunReachable(run, j);
    if run[j].pc[s].Released? {
      ReleasedIsUntouched(run[j], s, s);
    }
  }

  lemma StaysOrderlyAt(run: seq<State>, k: nat, s: Id)
    requires IsRun(run) && k + 1 < |run| && Shape(run[k]) && s < N(run[k]) && !run[k].pc[s].Outside? && run[k].orderly[s]
    requires Alone(run[k], s) || !OpensAt(run, k, s)
    ensures s < N(run[k + 1]) == |run[k + 1].orderly| && run[k + 1].orderly[s] && !run[k + 1].pc[s].Outside?
  {
    RunStructure(run, k);
    assert StepAt(run, k);
    StaysOrderlyNext(run[k], run[k + 1], s);
  }

  /** The mark is needed: on a returned sync whose mark is cleared, any call can be overtaken by the release. */
  lemma UnmarkedCallIsOvertaken(st: State, s: Id, t: Id, amount: int, code: int) returns (st': State)
    requires Reachable(st) && s < N(st) && st.pc[s].Returned? && st.frame[s].Idle? && !st.signaling[s]
    requires t < N(st) && t != s && st.frame[t].Idle? && FreePc(st.pc[t])
    ensures Reachable(st') && N(st') == N(st) && st'.pc[s].Released? && Touchable(st', s)
  {
    Extend(st, StartUpdate(t, s, amount, code));
    var a := Apply(st, StartUpdate(t, s, amount, code));
    Extend(a, Release(s));
    st' := Apply(a, Release(s));
    assert On(st'.frame[t], s);
    ReleasedTouchedIff(st', s);
  }
}
