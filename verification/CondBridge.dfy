/** The link between the two protocols: seen through the lock and the condition of one sync, the wait-sync
    model does exactly what the abstract condition variable does, and spurious wakeups besides. */
module CondBridge {
  import opened Base
  import M = WaitSyncModel
  import L = WaitSyncLocks
  import T = WaitSyncTheorems
  import C = QthreadsCond

  type Id = nat

  /** The waiter of the sync as the condition variable sees it. */
  function PhaseOf(p: M.Pc): C.Phase {
    if p.Asleep? then C.Asleep else if p.Waking? then C.Woken else C.Running
  }

  function Phases(n: nat, s: Id, p: C.Phase): (r: seq<C.Phase>)
    requires s < n
    ensures |r| == n && forall t :: 0 <= t < n ==> r[t] == if t == s then p else C.Running
  {
    seq(n, t => if t == s then p else C.Running)
  }

  /** The lock and the condition of sync s; the other threads never sleep on it. */
  function View(st: M.State, s: Id, past: seq<C.History>): C.Spec
    requires s < M.N(st) && s < |st.lock|
  {
    C.Spec(Phases(M.N(st), s, PhaseOf(st.pc[s])), if st.pc[s].Asleep? then [s] else [], st.lock[s], past)
  }

  /** cond_wait: the model's step into sleep is the condition variable's, and its only one. */
  lemma SleepAgrees(st: M.State, s: Id, past: seq<C.History>, b: C.Spec)
    requires M.Reachable(st) && s < M.N(st) == |past| && st.pc[s].EnterSleep? && st.frame[s].Idle?
    ensures M.CanRun(st, s) && s < |M.RunWait(st, s).lock| && M.N(M.RunWait(st, s)) == M.N(st)
    ensures C.SpecSleep(View(st, s, past), b, s) <==> b == View(M.RunWait(st, s), s, C.Sleeps(past, s))
  {
    T.ReachableInv(st);
    assert L.SyncLockOk(st.pc, st.frame, st.ring, st.lock) && M.OwnsLock(st.pc[s]);
    var a, a' := View(st, s, past), View(M.RunWait(st, s), s, C.Sleeps(past, s));
    assert a'.phase == a.phase[s := C.Asleep];
  }

  /** A signal: what it does to the model's waiter is what it does to the condition's only sleeper. */
  lemma WakeAgrees(st: M.State, s: Id, past: seq<C.History>, b: C.Spec)
    requires M.Shape(st) && s < M.N(st) == |past|
    ensures C.SpecWake(View(st, s, past), b) <==>
            st.pc[s].Asleep? && b == View(M.Wake(st, s), s, C.Wakes(past, s))
  {
    if st.pc[s].Asleep? {
      var a, a' := View(st, s, past), View(M.Wake(st, s), s, C.Wakes(past, s));
      assert a'.phase == a.phase[s := C.Woken] && a.sleepers[1..] == [];
    }
  }

  /** cond_wait returns only to a waiter that the model has woken. */
  lemma ReturnNeedsWakeup(st: M.State, s: Id, past: seq<C.History>, t: Id, b: C.Spec)
    requires M.Shape(st) && s < M.N(st) == |past| && t < M.N(st) && C.SpecReturn(View(st, s, past), b, t)
    ensures t == s && st.pc[s].Waking?
  {
    assert View(st, s, past).phase[t].Woken?;
  }

  /** For a woken waiter it returns in the model exactly when and as it does from the condition variable. */
  lemma ReturnAgrees(st: M.State, s: Id, past: seq<C.History>, b: C.Spec)
    requires M.Shape(st) && s < M.N(st) == |past| && st.pc[s].Waking? && st.frame[s].Idle?
    ensures M.N(M.RunWait(st, s)) == M.N(st) && s < |M.RunWait(st, s).lock|
    ensures C.SpecReturn(View(st, s, past), b, s) <==>
            M.CanRun(st, s) && b == View(M.RunWait(st, s), s, C.Returns(past, s))
  {
    var a, a' := View(st, s, past), View(M.RunWait(st, s), s, C.Returns(past, s));
    assert a'.phase == a.phase[s := C.Running];
  }

  /** Everybody else takes the sync's lock as the mutex of the condition. */
  lemma LockAgrees(st: M.State, s: Id, past: seq<C.History>, t: Id)
    requires M.Reachable(st) && s < M.N(st) == |past| && t < M.N(st) && !(t == s && st.pc[s].Waking?)
    requires M.CanRun(st, t) && M.Wanted(st, t) == M.SyncLock(s)
    ensures var st' := M.Apply(st, M.Run(t));
            M.N(st') == M.N(st) && s < |st'.lock| && C.SpecLock(View(st, s, past), View(st', s, past), t)
  {
    T.ReachableInv(st);
    LockStep(st, s, t);
    assert L.NestingOk(st.pc, st.frame) && !(t == s && st.pc[s].Asleep?);
  }

  lemma LockStep(st: M.State, s: Id, t: Id)
    requires M.Shape(st) && s < M.N(st) && M.CanRun(st, t) && M.Wanted(st, t) == M.SyncLock(s) && !(t == s && st.pc[s].Waking?)
    ensures var st' := M.Apply(st, M.Run(t));
            M.N(st') == M.N(st) && |st'.lock| == M.N(st) && PhaseOf(st'.pc[s]) == PhaseOf(st.pc[s]) && st'.lock[s] == Some(t)
  {}
}
