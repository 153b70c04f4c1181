/** A run in which a global wakeup with status 0 is not a no-op: it meets a count that an update has just
    brought to 0, signals in the updater's place and clears the mark, and the sync is released while the
    updater has yet to touch it. */
module WaitSyncWakeup {
  import opened Base
  import opened WaitSyncModel
  import opened WaitSyncTheorems
  import opened WaitSyncWitness
  import opened WaitSyncOpen

  // ---------------------------------------------------------------- the update

  /** An update that brings the count to 0 and stops short of its signal. */
  lemma BringsToZero(st: State, t: Id, s: Id) returns (st': State)
    requires Reachable(st) && s < N(st) && Updating(st, t, s, Add(s, st.count[s], Direct))
    ensures Reachable(st') && Alongside(st, st', t) && Updating(st', t, s, SignalLock(s, Direct))
    ensures st'.count == st.count[s := 0] && st'.lock == st.lock && SameRing(st, st')
  {
    st' := RunFrame(st, t);
    FrameStep(st, t, st');
  }

  // ---------------------------------------------------------------- the wakeup

  lemma StartsWakeup(st: State, t: Id) returns (st': State)
    requires Reachable(st) && t < N(st) && st.frame[t].Idle? && FreePc(st.pc[t])
    ensures Reachable(st') && st' == Step(st, t, SweepLock(0))
  {
    Extend(st, StartWakeup(t, 0));
    st' := Apply(st, StartWakeup(t, 0));
  }

  /** Up to the update of the only ring member. */
  lemma VisitsHead(st: State, t: Id, s: Id) returns (st': State)
    requires Reachable(st) && Updating(st, t, s, SweepLock(0)) && st.ringLock == None && st.ring == [s]
    ensures Reachable(st') && Alongside(st, st', t) && Updating(st', t, s, Add(s, 0, Sweep(0, 0)))
    ensures st'.count == st.count && st'.lock == st.lock && st'.ring == st.ring && st'.ringLock == Some(t)
  {
    var a := Step(st, t, SweepHead(0)).(ringLock := Some(t));
    FrameStep(st, t, a);
    st' := RunFrame(a, t);
    FrameStep(a, t, st');
  }

  /** The update of the wakeup meets a count of 0 and signals. */
  lemma MeetsZero(st: State, t: Id, s: Id) returns (st': State)
    requires Reachable(st) && Updating(st, t, s, Add(s, 0, Sweep(0, 0))) && st.count[s] == 0
    ensures Reachable(st') && Alongside(st, st', t) && Updating(st', t, s, SignalLock(s, Sweep(0, 0)))
    ensures st'.count == st.count && st'.lock == st.lock && SameRing(st, st')
  {
    st' := RunFrame(st, t);
    FrameStep(st, t, st');
    assert st.count[s := 0] == st.count;
  }

  lemma EndsWakeup(st: State, t: Id, s: Id) returns (st': State)
    requires Reachable(st) && Updating(st, t, s, SweepNext(0, 0)) && |st.ring| == 1
    ensures Reachable(st') && st' == Step(st, t, Idle).(ringLock := None)
  {
    var a := Step(st, t, SweepUnlock(0));
    FrameStep(st, t, a);
    st' := Step(a, t, Idle).(ringLock := None);
    FrameStep(a, t, st');
  }

  // ---------------------------------------------------------------- the waiter leaves

  /** Through a progress loop that has nothing to do. */
  lemma Loops(st: State, t: Id) returns (st': State)
    requires Reachable(st) && t < N(st) && st.pc[t].CountIn? && st.frame[t].Idle? && st.count[t] <= 0
    ensures Reachable(st') && st' == Move(st, t, AcquireTrim)
  {
    var a := Move(st, t, LoopTest).(busy := st.busy + 1);
    CountStep(st, t);
    OneStep(st, t, a);
    var b := Move(a, t, CountOut);
    LoopEnds(a, t);
    OneStep(a, t, b);
    st' := Move(b, t, AcquireTrim).(busy := b.busy - 1);
    CountOutStep(b, t);
    OneStep(b, t, st');
  }

  lemma LoopEnds(st: State, t: Id)
    requires Shape(st) && t < N(st) && st.pc[t].LoopTest? && st.frame[t].Idle? && st.count[t] <= 0
    ensures CanRun(st, t) && RunWait(st, t) == Move(st, t, CountOut)
  {}

  lemma CountOutStep(st: State, t: Id)
    requires Shape(st) && t < N(st) && st.pc[t].CountOut? && st.frame[t].Idle?
    ensures CanRun(st, t) && RunWait(st, t) == Move(st, t, AcquireTrim).(busy := st.busy - 1)
  {}

  lemma TakesTrim(st: State, t: Id)
    requires Reachable(st) && t < N(st) && st.pc[t].AcquireTrim? && st.frame[t].Idle? && st.ringLock == None
    ensures Reachable(Move(st, t, Unlink).(ringLock := Some(t)))
  {
    OneStep(st, t, Move(st, t, Unlink).(ringLock := Some(t)));
  }

  lemma LastUnlinks(st: State, t: Id)
    requires Reachable(st) && t < N(st) && st.pc[t].Unlink? && st.frame[t].Idle? && st.ring == [t]
    ensures Reachable(Move(st, t, ReleaseTrim).(ring := [], gone := st.gone + {t}))
  {
    UnlinkStep(st, t);
    OneStep(st, t, Move(st, t, ReleaseTrim).(ring := [], gone := st.gone + {t}));
  }

  lemma UnlinkStep(st: State, t: Id)
    requires Shape(st) && t < N(st) && st.pc[t].Unlink? && st.frame[t].Idle? && st.ring == [t]
    ensures CanRun(st, t) && RunWait(st, t) == Move(st, t, ReleaseTrim).(ring := [], gone := st.gone + {t})
  {
    assert Without([t], t) == [];
  }

  lemma DropsTrim(st: State, t: Id)
    requires Reachable(st) && t < N(st) && st.pc[t].ReleaseTrim? && st.frame[t].Idle?
    ensures Reachable(Move(st, t, ReadStatus).(ringLock := None))
  {
    OneStep(st, t, Move(st, t, ReadStatus).(ringLock := None));
  }

  /** The only ring member takes itself off the ring. */
  lemma Trims(st: State, t: Id) returns (st': State)
    requires Reachable(st) && t < N(st) && st.pc[t].AcquireTrim? && st.frame[t].Idle? && st.ringLock == None && st.ring == [t]
    ensures Reachable(st') && st'.pc == st.pc[t := ReadStatus] && st'.frame == st.frame && st'.signaling == st.signaling
  {
    TakesTrim(st, t);
    st' := Move(st, t, Unlink).(ringLock := Some(t));
    LastUnlinks(st', t);
    st' := Move(st', t, ReleaseTrim).(ring := [], gone := st'.gone + {t});
    DropsTrim(st', t);
    st' := Move(st', t, ReadStatus).(ringLock := None);
  }

  lemma ReturnsNow(st: State, t: Id) returns (st': State)
    requires Reachable(st) && t < N(st) && st.pc[t].ReadStatus? && st.frame[t].Idle?
    ensures Reachable(st') && st' == Move(st, t, Returned(OutcomeOf(st.status[t])))
  {
    Tests(st, t);
    st' := Move(st, t, Returned(OutcomeOf(st.status[t])));
  }

  // ---------------------------------------------------------------- the run

  /** Thread 0 waits at the head of the ring, thread 1's update has brought its count to 0, and thread 2's
      wakeup with status 0 is about to meet it. */
  ghost predicate Met(st: State) {
    && Shape(st) && st.pc == [CountIn, Outside, Outside] && st.ring == [0] && st.ringLock == Some(2)
    && st.frame == [Idle, SignalLock(0, Direct), Add(0, 0, Sweep(0, 0))] && st.count[0] == 0 && st.lock[0] == None
  }

  lemma WaitsAtHead(st: State) returns (st': State)
    requires Reachable(st) && st.pc == [Outside, Outside, Outside] && st.frame == [Idle, Idle, Idle]
    requires st.ring == [] && st.ringLock == None
    ensures Reachable(st') && st'.pc == [CountIn, Outside, Outside] && st'.frame == [Idle, Idle, Idle]
    ensures st'.ring == [0] && st'.ringLock == None && st'.count[0] == 1 && st'.lock[0] == None
  {
    var a := Arrives(st, 0, 1);
    assert a.pc == [ReadHead, Outside, Outside] && a.ring == [0];
    st' := Proceeds(a, 0);
  }

  /** A wakeup with status 0 does meet a count of 0. */
  lemma ZeroVisitHappens() returns (st: State)
    ensures Reachable(st) && Met(st) && AtZero(st, 2) && SuccessSweep(st.frame[2])
  {
    StartReachable(3, 0);
    var a := WaitsAtHead(Start(3, 0));
    var b := Issued(a);
    var c := BringsToZero(b, 1, 0);
    var d := StartsWakeup(c, 2);
    st := VisitsHead(d, 2, 0);
  }

  lemma Issued(st: State) returns (st': State)
    requires Reachable(st) && st.pc == [CountIn, Outside, Outside] && st.frame == [Idle, Idle, Idle] && st.count[0] == 1
    ensures Reachable(st') && st'.pc == st.pc && st'.frame == [Idle, Add(0, 1, Direct), Idle] && st'.count == st.count
    ensures st'.lock == st.lock && SameRing(st, st')
  {
    Extend(st, StartUpdate(1, 0, 1, 0));
    st' := Apply(st, StartUpdate(1, 0, 1, 0));
  }

  /** From there the wakeup runs to its end and leaves the mark cleared. */
  lemma WakeupClears(st: State) returns (st': State)
    requires Reachable(st) && Met(st)
    ensures Reachable(st') && st'.pc == st.pc && st'.frame == [Idle, SignalLock(0, Direct), Idle]
    ensures st'.ring == [0] && st'.ringLock == None && st'.count[0] == 0 && !st'.signaling[0]
  {
    var a := MeetsZero(st, 2, 0);
    var b := SendsSignal(a, 2, 0, Sweep(0, 0));
    var c := EndsSignal(b, 2, 0, Sweep(0, 0));
    st' := EndsWakeup(c, 2, 0);
  }

  /** Callers issued one update that exactly fits the count and one wakeup with status 0; still the sync is
      released while the updater has yet to signal it. */
  lemma SuccessWakeupHarms() returns (st: State)
    ensures Reachable(st) && N(st) == 3 && st.pc[0].Released? && st.frame[1] == SignalLock(0, Direct)
    ensures Touchable(st, 0) && 0 in Touches(st, 1)
  {
    var a := ZeroVisitHappens();
    var b := WakeupClears(a);
    var c := Loops(b, 0);
    var d := Trims(c, 0);
    var e := ReturnsNow(d, 0);
    st := Releases(e, 0);
    assert On(st.frame[1], 0);
    ReleasedTouchedIff(st, 0);
  }
}
