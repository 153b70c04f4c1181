/** Runs that do happen: how a waiter gets onto the ring, goes to sleep or enters its progress loop, and
    from that the situations in which the code falls short. */
module WaitSyncWitness {
  import opened Base
  import opened WaitSyncModel
  import opened WaitSyncLocks
  import opened WaitSyncCompletion
  import opened WaitSyncRelease
  import opened WaitSyncTheorems

  lemma Extend(st: State, l: Label)
    requires Reachable(st) && Enabled(st, l)
    ensures Reachable(Apply(st, l))
  {
    ReachableInv(st);
    StepKeepsStructure(st, l);
    var run :| EndsIn(run, st);
    ExtendRun(run, st, Apply(st, l));
  }

  lemma ExtendRun(run: seq<State>, st: State, st': State)
    requires EndsIn(run, st) && Next(st, st') && Shape(st')
    ensures Reachable(st')
  {
    var longer := run + [st'];
    forall i: nat ensures StepAt(longer, i) {
      assert StepAt(run, i);
    }
    assert EndsIn(longer, st');
  }

  /** n threads that have not started anything. */
  function Start(n: nat, limit: int): (st: State)
    ensures N(st) == n && st.limit == limit
  {
    State(seq(n, _ => Outside), seq(n, _ => Idle), seq(n, _ => 0), seq(n, _ => 0), seq(n, _ => false),
          seq(n, _ => None), [], None, 0, limit, seq(n, _ => NewLog(0)), [], {}, seq(n, _ => true))
  }

  lemma StartReachable(n: nat, limit: int)
    ensures Reachable(Start(n, limit))
  {
    var st := Start(n, limit);
    assert EndsIn([st], st);
  }

  // ---------------------------------------------------------------- stretches of a wait

  /** Thread t alone has moved, to p; its frame, everybody's counts but its own, and the limits are as before. */
  predicate OnlyMoved(st: State, st': State, t: Id, p: Pc) {
    t < N(st) && st'.pc == st.pc[t := p] && st'.frame == st.frame && st'.busy == st.busy && st'.limit == st.limit
  }

  lemma OneStep(st: State, t: Id, st': State)
    requires Reachable(st) && CanRun(st, t) && st.frame[t].Idle? && st' == RunWait(st, t)
    ensures Reachable(st')
  {
    Extend(st, Run(t));
  }

  /** Where a step that only tests something leads. */
  function Tested(st: State, t: Id): Pc
    requires Shape(st) && t < N(st)
  {
    match st.pc[t]
    case FastCheck => if st.count[t] <= 0 then ReadStatus else AcquireOwn
    case RecheckLocked => if st.count[t] <= 0 then BailOut else AcquireRing
    case ReadHead => if HeadIs(st.ring, t) then ReleaseOwn else ReadBusy
    case ReadBusy => if st.busy >= st.limit then EnterSleep else ReleaseOwn
    case ReadStatus => Returned(OutcomeOf(st.status[t]))
    case p => p
  }

  lemma Tests(st: State, t: Id)
    requires Reachable(st) && t < N(st) && st.frame[t].Idle?
    requires st.pc[t].FastCheck? || st.pc[t].RecheckLocked? || st.pc[t].ReadHead? || st.pc[t].ReadBusy? || st.pc[t].ReadStatus?
    ensures Reachable(Move(st, t, Tested(st, t)))
  {
    TestStep(st, t);
    OneStep(st, t, Move(st, t, Tested(st, t)));
  }

  lemma TestStep(st: State, t: Id)
    requires Shape(st) && t < N(st) && st.frame[t].Idle?
    requires st.pc[t].FastCheck? || st.pc[t].RecheckLocked? || st.pc[t].ReadHead? || st.pc[t].ReadBusy? || st.pc[t].ReadStatus?
    ensures CanRun(st, t) && RunWait(st, t) == Move(st, t, Tested(st, t))
  {}

  /** A step that gives up the sync's own lock. */
  lemma Unlocks(st: State, t: Id, p: Pc)
    requires Reachable(st) && t < N(st) && st.frame[t].Idle?
    requires (st.pc[t].EnterSleep? && p == Asleep) || (st.pc[t].ReleaseOwn? && p == CountIn)
    ensures Reachable(SetLock(Move(st, t, p), t, None))
  {
    UnlockStep(st, t, p);
    OneStep(st, t, SetLock(Move(st, t, p), t, None));
  }

  lemma UnlockStep(st: State, t: Id, p: Pc)
    requires Shape(st) && t < N(st) && st.frame[t].Idle?
    requires (st.pc[t].EnterSleep? && p == Asleep) || (st.pc[t].ReleaseOwn? && p == CountIn)
    ensures CanRun(st, t) && RunWait(st, t) == SetLock(Move(st, t, p), t, None)
  {}

  /** The state after WAIT_SYNC_INIT of sync t. */
  lemma Starts(st: State, t: Id, c: int) returns (st': State)
    requires Reachable(st) && t < N(st) && st.pc[t].Outside? && st.frame[t].Idle?
    ensures Reachable(st') && OnlyMoved(st, st', t, FastCheck) && st'.lock[t] == None && st'.status[t] == 0
    ensures st'.count == st.count[t := c] && st'.ring == st.ring && st'.ringLock == st.ringLock
    ensures st'.log[t] == NewLog(c) && st'.signaling[t] == (c != 0)
  {
    Extend(st, Begin(t, c));
    st' := Apply(st, Begin(t, c));
  }

  lemma TakesOwn(st: State, t: Id)
    requires Reachable(st) && t < N(st) && st.pc[t].AcquireOwn? && st.frame[t].Idle? && st.lock[t] == None
    ensures Reachable(SetLock(Move(st, t, RecheckLocked), t, Some(t)))
  {
    OneStep(st, t, SetLock(Move(st, t, RecheckLocked), t, Some(t)));
  }

  /** Through the second test of the count, under the sync's lock. */
  lemma Enters(st: State, t: Id) returns (st': State)
    requires Reachable(st) && t < N(st) && st.pc[t].FastCheck? && st.frame[t].Idle? && st.lock[t] == None && st.count[t] > 0
    ensures Reachable(st') && OnlyMoved(st, st', t, AcquireRing)
    ensures st'.count == st.count && st'.ring == st.ring && st'.ringLock == st.ringLock
  {
    Tests(st, t);
    st' := Move(st, t, AcquireOwn);
    TakesOwn(st', t);
    st' := SetLock(Move(st', t, RecheckLocked), t, Some(t));
    Tests(st', t);
    st' := Move(st', t, AcquireRing);
  }

  lemma TakesRing(st: State, t: Id)
    requires Reachable(st) && t < N(st) && st.pc[t].AcquireRing? && st.frame[t].Idle? && st.ringLock == None
    ensures Reachable(Move(st, t, Link).(ringLock := Some(t)))
  {
    OneStep(st, t, Move(st, t, Link).(ringLock := Some(t)));
  }

  lemma Appends(st: State, t: Id)
    requires Reachable(st) && t < N(st) && st.pc[t].Link? && st.frame[t].Idle?
    ensures Reachable(Move(st, t, ReleaseRing).(ring := st.ring + [t], arrivals := st.arrivals + [t]))
  {
    OneStep(st, t, Move(st, t, ReleaseRing).(ring := st.ring + [t], arrivals := st.arrivals + [t]));
  }

  lemma DropsRing(st: State, t: Id)
    requires Reachable(st) && t < N(st) && st.pc[t].ReleaseRing? && st.frame[t].Idle?
    ensures Reachable(Move(st, t, ReadHead).(ringLock := None))
  {
    OneStep(st, t, Move(st, t, ReadHead).(ringLock := None));
  }

  /** Onto the ring. */
  lemma Links(st: State, t: Id) returns (st': State)
    requires Reachable(st) && t < N(st) && st.pc[t].AcquireRing? && st.frame[t].Idle? && st.ringLock == None
    ensures Reachable(st') && OnlyMoved(st, st', t, ReadHead)
    ensures st'.count == st.count && st'.log == st.log && st'.ring == st.ring + [t] && st'.ringLock == None
  {
    TakesRing(st, t);
    st' := Move(st, t, Link).(ringLock := Some(t));
    Appends(st', t);
    st' := Move(st', t, ReleaseRing).(ring := st'.ring + [t], arrivals := st'.arrivals + [t]);
    DropsRing(st', t);
    st' := Move(st', t, ReadHead).(ringLock := None);
  }

  /** From the start of a wait to its test of the ring head. */
  lemma Arrives(st: State, t: Id, c: int) returns (st': State)
    requires Reachable(st) && t < N(st) && st.pc[t].Outside? && st.frame[t].Idle? && c > 0 && st.ringLock == None
    ensures Reachable(st') && OnlyMoved(st, st', t, ReadHead)
    ensures st'.count == st.count[t := c] && st'.ring == st.ring + [t] && st'.ringLock == None
  {
    st' := Starts(st, t, c);
    st' := Enters(st', t);
    st' := Links(st', t);
  }

  /** To sleep, if t is not the head and the progress loop is full. */
  lemma Sleeps(st: State, t: Id) returns (st': State)
    requires Reachable(st) && t < N(st) && st.pc[t].ReadHead? && st.frame[t].Idle?
    requires !HeadIs(st.ring, t) && st.busy >= st.limit
    ensures Reachable(st') && OnlyMoved(st, st', t, Asleep)
    ensures st'.count == st.count && st'.ring == st.ring && st'.ringLock == st.ringLock
  {
    Tests(st, t);
    st' := Move(st, t, ReadBusy);
    Tests(st', t);
    st' := Move(st', t, EnterSleep);
    Unlocks(st', t, Asleep);
    st' := SetLock(Move(st', t, Asleep), t, None);
  }

  lemma Passes(st: State, t: Id)
    requires Reachable(st) && t < N(st) && st.pc[t].ReadHead? && st.frame[t].Idle?
    requires HeadIs(st.ring, t) || st.busy < st.limit
    ensures Reachable(Move(st, t, ReleaseOwn))
  {
    Tests(st, t);
    if !HeadIs(st.ring, t) {
      var a := Move(st, t, ReadBusy);
      Tests(a, t);
      assert Move(a, t, ReleaseOwn) == Move(st, t, ReleaseOwn);
    }
  }

  /** Past the test of line 82, if t is the head or the progress loop has room. */
  lemma Proceeds(st: State, t: Id) returns (st': State)
    requires Reachable(st) && t < N(st) && st.pc[t].ReadHead? && st.frame[t].Idle?
    requires HeadIs(st.ring, t) || st.busy < st.limit
    ensures Reachable(st') && OnlyMoved(st, st', t, CountIn) && st'.ring == st.ring && st'.ringLock == st.ringLock
    ensures st'.count == st.count && st'.lock[t] == None
  {
    Passes(st, t);
    st' := Move(st, t, ReleaseOwn);
    Unlocks(st', t, CountIn);
    st' := SetLock(Move(st', t, CountIn), t, None);
  }

  lemma CountStep(st: State, t: Id)
    requires Shape(st) && t < N(st) && st.pc[t].CountIn? && st.frame[t].Idle?
    ensures CanRun(st, t) && RunWait(st, t) == Move(st, t, LoopTest).(busy := st.busy + 1)
  {}

  // ---------------------------------------------------------------- overshooting

  /** For every count and every larger update there is a run that leaves a sleeper complete with no signal
      to come. */
  lemma OvershootHappens(c: int, amount: int) returns (st: State)
    requires 0 < c < amount
    ensures Reachable(st) && N(st) == 3
    ensures st.pc[1].Asleep? && st.count[1] == c - amount && !Pending(st.frame, 1) && st.log[1].leapt
  {
    StartReachable(3, 0);
    st := SleepsBehind(Start(3, 0), c);
    st := Updates(st, 2, 1, amount);
  }

  /** Thread 0 heads the ring and thread 1 sleeps behind it. */
  lemma SleepsBehind(st: State, c: int) returns (st': State)
    requires Reachable(st) && N(st) == 3 && st.ring == [] && st.ringLock == None && st.busy >= st.limit && c > 0
    requires st.pc == [Outside, Outside, Outside] && st.frame == [Idle, Idle, Idle]
    ensures Reachable(st') && st'.pc == [ReadHead, Asleep, Outside] && st'.frame == [Idle, Idle, Idle] && st'.count[1] == c
  {
    st' := Arrives(st, 0, 1);
    assert st'.pc == [ReadHead, Outside, Outside];
    st' := Arrives(st', 1, c);
    st' := Sleeps(st', 1);
  }

  /** A thread outside any wait issues and applies an update that does not bring the count to 0. */
  lemma Updates(st: State, t: Id, s: Id, amount: int) returns (st': State)
    requires Reachable(st) && t < N(st) && s < N(st) && st.pc[t].Outside? && st.frame[t].Idle? && !st.pc[s].Outside?
    requires amount != st.count[s]
    ensures Reachable(st') && st'.pc == st.pc && st'.frame == st.frame && st'.count == st.count[s := st.count[s] - amount]
    ensures st.count[s] > 0 && amount > st.count[s] ==> st'.log[s].leapt
  {
    var a := Issues(st, t, s, amount);
    assert a.frame[t := Idle] == st.frame;
    st' := Applies(a, t);
  }

  lemma Issues(st: State, t: Id, s: Id, amount: int) returns (st': State)
    requires Reachable(st) && t < N(st) && s < N(st) && st.pc[t].Outside? && st.frame[t].Idle? && !st.pc[s].Outside?
    ensures Reachable(st') && st'.pc == st.pc && st'.frame == st.frame[t := Add(s, amount, Direct)] && st'.count == st.count
  {
    Extend(st, StartUpdate(t, s, amount, 0));
    st' := Apply(st, StartUpdate(t, s, amount, 0));
  }

  lemma Applies(st: State, t: Id) returns (st': State)
    requires Reachable(st) && t < N(st) && st.frame[t].Add? && st.frame[t].from.Direct?
    requires st.frame[t].amount != st.count[st.frame[t].target]
    ensures Reachable(st') && Applied(st, st', t)
  {
    ApplyStep(st, t);
    Extend(st, Run(t));
    st' := Apply(st, Run(t));
  }

  predicate Applied(st: State, st': State, t: Id)
    requires Shape(st) && t < N(st) && st.frame[t].Add?
  {
    var s, amount := st.frame[t].target, st.frame[t].amount;
    && st'.pc == st.pc && st'.frame == st.frame[t := Idle]
    && st'.count == st.count[s := st.count[s] - amount] && st'.log == st.log[s := LogAdd(st.log[s], st.count[s], amount)]
  }

  lemma ApplyStep(st: State, t: Id)
    requires Shape(st) && t < N(st) && st.frame[t].Add? && st.frame[t].from.Direct?
    requires st.frame[t].amount != st.count[st.frame[t].target]
    ensures CanRun(st, t) && Applied(st, Apply(st, Run(t)), t)
  {}

  // ---------------------------------------------------------------- negative initial counts

  /** For every negative initial count there is a run that returns success within budget, with nobody left
      to signal, to a release that cannot get past its spin loop. */
  lemma NegativeCountHappens(c: int) returns (st: State)
    requires c < 0
    ensures Reachable(st) && N(st) == 1
    ensures st.pc[0] == Returned(Success) && st.log[0].tame && st.log[0].init == c
    ensures !Signallers(st.frame, 0) && !Enabled(st, Release(0))
  {
    StartReachable(1, 0);
    st := ReturnsAtOnce(Start(1, 0), 0, c);
  }

  /** A wait on a sync that is complete from the start. */
  lemma ReturnsAtOnce(st: State, t: Id, c: int) returns (st': State)
    requires Reachable(st) && t < N(st) && st.pc[t].Outside? && st.frame[t].Idle? && c <= 0
    ensures Reachable(st') && OnlyMoved(st, st', t, Returned(Success))
    ensures st'.log[t] == NewLog(c) && st'.signaling[t] == (c != 0)
  {
    var a := Starts(st, t, c);
    st' := Returns(a, t);
  }

  lemma Returns(st: State, t: Id) returns (st': State)
    requires Reachable(st) && t < N(st) && st.frame[t].Idle? && st.pc[t].FastCheck? && st.count[t] <= 0 && st.status[t] == 0
    ensures Reachable(st') && st' == Move(st, t, Returned(Success))
  {
    Tests(st, t);
    st' := Move(st, t, ReadStatus);
    Tests(st', t);
    st' := Move(st', t, Returned(Success));
  }

  // ---------------------------------------------------------------- two updaters that signal

  lemma FrameStep(st: State, t: Id, st': State)
    requires Reachable(st) && CanRun(st, t) && !st.frame[t].Idle? && st' == RunFrame(st, t)
    ensures Reachable(st')
  {
    Extend(st, Run(t));
  }

  /** Thread t is at frame f of an update of sync s. */
  predicate Updating(st: State, t: Id, s: Id, f: Frame) {
    t < N(st) && s < N(st) && |st.frame| == |st.lock| == |st.status| == |st.signaling| == |st.count| == N(st) && st.frame[t] == f
  }

  /** What an update leaves alone on its way: every wait, and every other thread's frame. */
  predicate Alongside(st: State, st': State, t: Id) {
    st'.pc == st.pc && t < |st.frame| && |st'.frame| == |st.frame| && st'.frame == st.frame[t := st'.frame[t]]
  }

  lemma SwapsCount(st: State, t: Id, s: Id, code: int) returns (st': State)
    requires Reachable(st) && Updating(st, t, s, SetStatus(s, code, Direct)) && st.lock[s] == None
    ensures Reachable(st') && Alongside(st, st', t) && Updating(st', t, s, SignalLock(s, Direct))
    ensures st'.lock[s] == None && st'.count[s] == 0 && st'.status[s] == code
  {
    var a := Step(st, t, Swap(s, Direct)).(status := st.status[s := code]);
    FrameStep(st, t, a);
    st' := RunFrame(a, t);
    FrameStep(a, t, st');
  }

  lemma SendsSignal(st: State, t: Id, s: Id, from: Origin) returns (st': State)
    requires Reachable(st) && Updating(st, t, s, SignalLock(s, from)) && st.lock[s] == None && !st.pc[s].Asleep?
    ensures Reachable(st') && Alongside(st, st', t) && Updating(st', t, s, SignalUnlock(s, from))
    ensures st'.count == st.count && st'.status == st.status && st'.lock[s] == Some(t) && SameRing(st, st')
  {
    var a := SetLock(Step(st, t, SignalCond(s, from)), s, Some(t));
    FrameStep(st, t, a);
    st' := Step(a, t, SignalUnlock(s, from));
    FrameStep(a, t, st');
  }

  lemma EndsSignal(st: State, t: Id, s: Id, from: Origin) returns (st': State)
    requires Reachable(st) && Updating(st, t, s, SignalUnlock(s, from))
    ensures Reachable(st') && Alongside(st, st', t) && Updating(st', t, s, Resume(from))
    ensures st'.count == st.count && st'.status == st.status && !st'.signaling[s] && st'.lock[s] == None && SameRing(st, st')
  {
    var a := SetLock(Step(st, t, ClearSignaling(s, from)), s, None);
    FrameStep(st, t, a);
    st' := Step(a, t, Resume(from)).(signaling := st.signaling[s := false]);
    FrameStep(a, t, st');
  }

  predicate SameRing(st: State, st': State) { st'.ring == st.ring && st'.ringLock == st.ringLock }

  lemma IssuesError(st: State, t: Id, s: Id, code: int) returns (st': State)
    requires Reachable(st) && t < N(st) && s < N(st) && st.frame[t].Idle? && FreePc(st.pc[t]) && !st.pc[s].Outside? && code != 0
    ensures Reachable(st') && Alongside(st, st', t) && Updating(st', t, s, SetStatus(s, code, Direct)) && st'.lock == st.lock
  {
    Extend(st, StartUpdate(t, s, 0, code));
    st' := Apply(st, StartUpdate(t, s, 0, code));
  }

  lemma ReturnsError(st: State, t: Id) returns (st': State)
    requires Reachable(st) && t < N(st) && st.frame[t].Idle? && st.pc[t].FastCheck? && st.count[t] <= 0 && st.status[t] != 0
    ensures Reachable(st') && st' == Move(st, t, Returned(Error))
  {
    Tests(st, t);
    st' := Move(st, t, ReadStatus);
    Tests(st', t);
    st' := Move(st', t, Returned(Error));
  }

  lemma Releases(st: State, t: Id) returns (st': State)
    requires Reachable(st) && t < N(st) && st.frame[t].Idle? && st.pc[t].Returned? && !st.signaling[t]
    ensures Reachable(st') && st' == Move(st, t, Released(st.pc[t].outcome))
  {
    Extend(st, Release(t));
    st' := Apply(st, Release(t));
  }

  /** Two error updates of one sync: the first one signals and clears the mark, the sync is released, and the
      second one is still to write to it. */
  lemma UnsafeReleaseHappens(code: int, code': int) returns (st: State)
    requires code != 0 && code' != 0
    ensures Reachable(st) && N(st) == 3 && st.pc[0].Released? && CanRun(st, 2) && 0 in Touches(st, 2)
  {
    StartReachable(3, 0);
    st := TwoErrors(Start(3, 0), code, code');
    st := FirstError(st, code, code');
    st := ReturnsError(st, 0);
    st := Releases(st, 0);
  }

  lemma TwoErrors(st: State, code: int, code': int) returns (st': State)
    requires Reachable(st) && st.pc == [Outside, Outside, Outside] && st.frame == [Idle, Idle, Idle] && code != 0 && code' != 0
    ensures Reachable(st') && st'.pc == [FastCheck, Outside, Outside] && st'.lock[0] == None
    ensures st'.frame == [Idle, SetStatus(0, code, Direct), SetStatus(0, code', Direct)]
  {
    var a := Starts(st, 0, 1);
    assert a.pc == [FastCheck, Outside, Outside];
    var b := IssuesError(a, 1, 0, code);
    st' := IssuesError(b, 2, 0, code');
  }

  lemma FirstError(st: State, code: int, code': int) returns (st': State)
    requires Reachable(st) && st.pc == [FastCheck, Outside, Outside] && st.lock[0] == None && code != 0
    requires st.frame == [Idle, SetStatus(0, code, Direct), SetStatus(0, code', Direct)]
    ensures Reachable(st') && st'.pc == st.pc && st'.frame == [Idle, Idle, SetStatus(0, code', Direct)]
    ensures st'.count[0] == 0 && st'.status[0] != 0 && !st'.signaling[0]
  {
    var a := SwapsCount(st, 1, 0, code);
    var b := SendsSignal(a, 1, 0, Direct);
    st' := EndsSignal(b, 1, 0, Direct);
  }
}
