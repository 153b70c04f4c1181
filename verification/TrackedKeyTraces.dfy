/** Tracked thread-specific data by the calls of its users: a get returns the value of the last set call, the
    user destructor receives the value of a set call, a thread's exit cleans up behind it, and every operation
    comes to its end. */
module TrackedKeyTraces {
  import opened Base
  import opened TrackedKeyProtocol

  // ---------------------------------------------------------------- traces

  ghost predicate TraceAt(run: seq<State>, ls: seq<Label>, k: nat) {
    k < |ls| && k + 1 < |run| ==> Shape(run[k]) && Enabled(run[k], ls[k]) && run[k + 1] == Apply(run[k], ls[k])
  }

  /** A run from an initial state together with the label of each step. */
  ghost predicate IsTrace(run: seq<State>, ls: seq<Label>) {
    |run| == |ls| + 1 && Init(run[0]) && forall k: nat :: TraceAt(run, ls, k)
  }

  lemma TraceInv(run: seq<State>, ls: seq<Label>, k: nat)
    requires IsTrace(run, ls) && k < |run|
    ensures IsRun(run) && Inv(run[k])
  {
    forall m: nat ensures StepAt(run, m) {
      assert TraceAt(run, ls, m);
    }
    RunInv(run, k);
  }

  /** The value of thread t's last set call since its start, none after its exit. */
  function LastSet(ls: seq<Label>, t: Id): Option<Value> {
    if ls == [] then None
    else match ls[|ls| - 1]
      case Set(u, p) => if u == t then Some(p) else LastSet(ls[..|ls| - 1], t)
      case Exit(u) => if u == t then None else LastSet(ls[..|ls| - 1], t)
      case _ => LastSet(ls[..|ls| - 1], t)
  }

  lemma LastSetStep(ls: seq<Label>, k: nat, t: Id)
    requires k < |ls|
    ensures ls[k].Set? && ls[k].t == t ==> LastSet(ls[..k + 1], t) == Some(ls[k].p)
    ensures ls[k].Exit? && ls[k].t == t ==> LastSet(ls[..k + 1], t) == None
    ensures !(ls[k].t == t && (ls[k].Set? || ls[k].Exit?)) ==> LastSet(ls[..k + 1], t) == LastSet(ls[..k], t)
  {
    var longer := ls[..k + 1];
    assert longer[..|longer| - 1] == ls[..k] && longer[|longer| - 1] == ls[k];
  }

  /** The value that a set under way is to store. */
  predicate Setting(p: Pc) { p.Lookup? || p.Allocate? || p.Append? || p.Write? || p.Store? }

  /** A step by thread l.t moves nobody else. */
  lemma OthersStay(st: State, l: Label, t: Id)
    requires Shape(st) && Enabled(st, l) && t < |st.pc| && l.t != t
    ensures |Apply(st, l).pc| == |st.pc| && Apply(st, l).pc[t] == st.pc[t] && Apply(st, l).slot[t] == st.slot[t]
  {}

  lemma SettingStep(st: State, l: Label, t: Id)
    requires Shape(st) && Enabled(st, l) && t < |st.pc|
    ensures |Apply(st, l).pc| == |st.pc|
    ensures var q := Apply(st, l).pc[t];
            Setting(q) ==>
              if l.Set? && l.t == t then q.p == l.p
              else Setting(st.pc[t]) && q.p == st.pc[t].p && !(l.t == t && l.Exit?)
  {
    if l.t != t {
      OthersStay(st, l, t);
    }
  }

  /** A set under way carries the value of its call. */
  lemma {:induction false} SettingCarries(run: seq<State>, ls: seq<Label>, k: nat, t: Id)
    requires IsTrace(run, ls) && k < |run| && t < |run[0].pc|
    ensures |run[k].pc| == |run[0].pc| && (Setting(run[k].pc[t]) ==> LastSet(ls[..k], t) == Some(run[k].pc[t].p))
  {
    if k > 0 {
      SettingCarries(run, ls, k - 1, t);
      assert TraceAt(run, ls, k - 1);
      SettingStep(run[k - 1], ls[k - 1], t);
      LastSetStep(ls, k - 1, t);
    }
  }

  // ---------------------------------------------------------------- what a get returns

  /** The step is the last one of a set of thread t, its tsd_set. */
  predicate StoresAt(st: State, l: Label, t: Id) { l.Run? && l.t == t && t < |st.pc| && st.pc[t].Store? }

  /** What thread t is to read at state k: the value of the last set call that got as far as tsd_set, unless that failed
      for a thread without a value; NULL before the first and after an exit. */
  ghost function Reading(run: seq<State>, ls: seq<Label>, k: nat, t: Id): Option<Value>
    requires |run| == |ls| + 1 && k <= |ls|
  {
    if k == 0 then None
    else
      var before := Reading(run, ls, k - 1, t);
      if ls[k - 1] == Exit(t) then None
      else if StoresAt(run[k - 1], ls[k - 1], t) && (ls[k - 1].ok || before.Some?) then LastSet(ls[..k - 1], t)
      else before
  }

  ghost predicate Seen(st: State, t: Id, reading: Option<Value>) {
    && Shape(st) && t < |st.pc|
    && (st.pc[t].Idle? ==> Get(st, t) == reading)
    && (Setting(st.pc[t]) ==> (st.slot[t].Some? <==> reading.Some?))
  }

  lemma SeenStep(st: State, l: Label, t: Id, last: Option<Value>, before: Option<Value>, after: Option<Value>)
    requires Inv(st) && st.destroyer.None? && Enabled(st, l) && Apply(st, l).destroyer.None? && Seen(st, t, before)
    requires Setting(st.pc[t]) ==> last == Some(st.pc[t].p)
    requires after == if l == Exit(t) then None
                      else if StoresAt(st, l, t) && (l.ok || before.Some?) then last else before
    ensures Seen(Apply(st, l), t, after)
  {
    StepInv(st, l);
    if l.t != t {
      SetIsPrivate(st, l, t);
      OthersStay(st, l, t);
    } else {
      assert ThreadOk(st.pc[t], st.slot[t], st.items, st.list, st.hook, t);
    }
  }

  lemma DestroyerStays(st: State, l: Label)
    requires Shape(st) && Enabled(st, l) && Apply(st, l).destroyer.None?
    ensures st.destroyer.None?
  {}

  lemma {:induction false} SeenAt(run: seq<State>, ls: seq<Label>, k: nat, t: Id)
    requires IsTrace(run, ls) && k < |run| && t < |run[0].pc| && run[k].destroyer.None?
    ensures Seen(run[k], t, Reading(run, ls, k, t))
  {
    if k > 0 {
      DestroyerAt(run, ls, k - 1);
      SeenAt(run, ls, k - 1, t);
      SeenNext(run, ls, k - 1, t);
    }
  }

  lemma SeenNext(run: seq<State>, ls: seq<Label>, k: nat, t: Id)
    requires IsTrace(run, ls) && k < |ls| && t < |run[0].pc| && run[k].destroyer.None? && run[k + 1].destroyer.None?
    requires Seen(run[k], t, Reading(run, ls, k, t))
    ensures Seen(run[k + 1], t, Reading(run, ls, k + 1, t))
  {
    assert TraceAt(run, ls, k);
    TraceInv(run, ls, k);
    SettingCarries(run, ls, k, t);
    SeenStep(run[k], ls[k], t, LastSet(ls[..k], t), Reading(run, ls, k, t), Reading(run, ls, k + 1, t));
  }

  /** Between its operations a thread reads exactly that, whatever succeeded or failed. */
  lemma GetIsExact(run: seq<State>, ls: seq<Label>, k: nat, t: Id)
    requires IsTrace(run, ls) && k < |run| && t < |run[0].pc| && run[k].destroyer.None?
    ensures Shape(run[k]) && t < |run[k].pc| && (run[k].pc[t].Idle? ==> Get(run[k], t) == Reading(run, ls, k, t))
  {
    SeenAt(run, ls, k, t);
  }

  /** The step is the failure of a set of thread t. */
  predicate SetFails(st: State, l: Label, t: Id) {
    l == Run(t, false) && t < |st.pc| && (st.pc[t].Allocate? || st.pc[t].Store?)
  }

  /** Without failures what is read between operations is the last set, and a set under way has yet to be read. */
  lemma {:induction false} ReadingIsLastSet(run: seq<State>, ls: seq<Label>, k: nat, t: Id)
    requires IsTrace(run, ls) && k < |run| && t < |run[0].pc| && forall m: nat :: m < k ==> !SetFails(run[m], ls[m], t)
    ensures t < |run[k].pc| && (Setting(run[k].pc[t]) || Reading(run, ls, k, t) == LastSet(ls[..k], t))
  {
    if k > 0 {
      ReadingIsLastSet(run, ls, k - 1, t);
      assert TraceAt(run, ls, k - 1);
      SettingEnds(run[k - 1], ls[k - 1], t);
      LastSetStep(ls, k - 1, t);
    }
  }

  lemma SettingEnds(st: State, l: Label, t: Id)
    requires Shape(st) && Enabled(st, l) && t < |st.pc| && !SetFails(st, l, t)
    ensures |Apply(st, l).pc| == |st.pc|
    ensures Setting(st.pc[t]) && !Setting(Apply(st, l).pc[t]) ==> StoresAt(st, l, t) && l.ok
    ensures !Setting(st.pc[t]) && !(l.Set? && l.t == t) ==> !StoresAt(st, l, t)
    ensures l.Set? && l.t == t ==> Setting(Apply(st, l).pc[t])
    ensures Setting(st.pc[t]) ==> l != Exit(t)
  {
    if l.t != t {
      OthersStay(st, l, t);
    }
  }

  /** A thread that is between operations, and of whose sets none has failed, reads the value of its last set call
      since its start, or NULL if there was none. */
  lemma GetReturnsLastSet(run: seq<State>, ls: seq<Label>, k: nat, t: Id)
    requires IsTrace(run, ls) && k < |run| && t < |run[0].pc| && run[k].destroyer.None?
    requires forall m: nat :: m < k ==> !SetFails(run[m], ls[m], t)
    ensures Shape(run[k]) && t < |run[k].pc| && (run[k].pc[t].Idle? ==> Get(run[k], t) == LastSet(ls[..k], t))
  {
    GetIsExact(run, ls, k, t);
    ReadingIsLastSet(run, ls, k, t);
  }

  // ---------------------------------------------------------------- what an item holds

  /** The step writes item i. */
  predicate Writes(st: State, l: Label, i: Ref) {
    l.Run? && l.t < |st.pc| && st.pc[l.t].Write? && st.pc[l.t].item == i
  }

  /** The value of the set call that wrote item i last before state k. */
  ghost function Written(run: seq<State>, ls: seq<Label>, k: nat, i: Ref): Option<Value>
    requires |run| == |ls| + 1 && k <= |ls|
  {
    if k == 0 then None
    else if Writes(run[k - 1], ls[k - 1], i) then LastSet(ls[..k - 1], ls[k - 1].t)
    else Written(run, ls, k - 1, i)
  }

  /** The item has been written, or its owner is about to write it for the first time. */
  ghost predicate Filled(st: State, i: Ref)
    requires i < |st.items|
  {
    && st.items[i].owner < |st.pc|
    && (st.items[i].tracked || ((st.pc[st.items[i].owner].Append? || st.pc[st.items[i].owner].Write?) && st.pc[st.items[i].owner].item == i))
  }

  lemma FilledStep(st: State, l: Label, i: Ref)
    requires Shape(st) && Enabled(st, l) && i < |Apply(st, l).items| && (i < |st.items| ==> Filled(st, i))
    ensures Filled(Apply(st, l), i)
  {
    var st' := Apply(st, l);
    SamePcs(st, l);
    if i >= |st.items| {
      NewItem(st, l, i);
    } else {
      OwnerStays(st, l, i);
      if st.items[i].owner != l.t {
        OthersStay(st, l, st.items[i].owner);
      } else if !st.items[i].tracked {
        FillingStep(st, l);
      }
    }
  }

  /** A set that has taken its item goes on to write it. */
  lemma FillingStep(st: State, l: Label)
    requires Shape(st) && Enabled(st, l) && (st.pc[l.t].Append? || st.pc[l.t].Write?)
    ensures l.Run? && |Apply(st, l).pc| == |st.pc|
    ensures st.pc[l.t].Append? ==> Apply(st, l).pc[l.t] == Write(st.pc[l.t].p, st.pc[l.t].item)
  {}

  lemma OwnerStays(st: State, l: Label, i: Ref)
    requires Shape(st) && Enabled(st, l) && i < |st.items|
    ensures i < |Apply(st, l).items|
    ensures var a, b := st.items[i], Apply(st, l).items[i];
            && b.owner == a.owner && (a.tracked ==> b.tracked)
            && (if Writes(st, l, i) then b.tracked && b.data == st.pc[l.t].p else b.tracked == a.tracked && b.data == a.data)
  {
    if l.Run? {
      match st.pc[l.t] {
        case Lookup(_) | Allocate(_) | Append(_, _) | Write(_, _) | Store(_, _) =>
        case ExitUnlink(_) | ExitUser(_) | ExitFree(_) =>
        case KeyNext | KeyUser(_) | KeyFree(_) =>
      }
    }
  }

  lemma NewItem(st: State, l: Label, i: Ref)
    requires Shape(st) && Enabled(st, l) && |st.items| <= i < |Apply(st, l).items|
    ensures !Apply(st, l).items[i].tracked && !Writes(st, l, i) && Apply(st, l).items[i].owner == l.t
    ensures l.t < |Apply(st, l).pc| && Apply(st, l).pc[l.t].Append? && Apply(st, l).pc[l.t].item == i
  {}

  /** An item holds the value of the set call that wrote it last; it has been written unless its first set is
      still under way. */
  lemma {:induction false} ItemHoldsSet(run: seq<State>, ls: seq<Label>, k: nat, i: Ref)
    requires IsTrace(run, ls) && k < |run| && i < |run[k].items|
    ensures Filled(run[k], i)
    ensures run[k].items[i].tracked ==> Written(run, ls, k, i) == Some(run[k].items[i].data)
  {
    if k > 0 {
      var st, l := run[k - 1], ls[k - 1];
      assert TraceAt(run, ls, k - 1);
      if i < |st.items| {
        ItemHoldsSet(run, ls, k - 1, i);
        OwnerStays(st, l, i);
        if Writes(st, l, i) {
          SizeStays(run, ls, k - 1);
          SettingCarries(run, ls, k - 1, l.t);
        }
      } else {
        NewItem(st, l, i);
      }
      FilledStep(st, l, i);
    }
  }

  lemma {:induction false} SizeStays(run: seq<State>, ls: seq<Label>, k: nat)
    requires IsTrace(run, ls) && k < |run|
    ensures |run[k].pc| == |run[0].pc|
  {
    if k > 0 {
      SizeStays(run, ls, k - 1);
      assert TraceAt(run, ls, k - 1);
      SamePcs(run[k - 1], ls[k - 1]);
    }
  }

  lemma SamePcs(st: State, l: Label)
    requires Shape(st) && Enabled(st, l)
    ensures |Apply(st, l).pc| == |st.pc|
  {}

  /** When the key is destroyed, every item ever allocated has been released exactly once, and the user destructor
      has received exactly once the value of the set call that wrote it last. */
  lemma DestructionReports(run: seq<State>, ls: seq<Label>, k: nat, i: Ref)
    requires IsTrace(run, ls) && k < |run| && i < |run[k].items|
    requires run[k].destroyer.Some? && run[k].destroyer.value < |run[k].pc| && run[k].pc[run[k].destroyer.value].KeyDone?
    ensures run[k].list == [] && run[k].items[i].freed == 1
    ensures Written(run, ls, k, i).Some?
    ensures run[k].items[i].calls == (if run[k].hook then [Written(run, ls, k, i).value] else [])
  {
    TraceInv(run, ls, k);
    ExactlyOnce(run, k, i);
    ItemHoldsSet(run, ls, k, i);
    assert ClosedInv(run[k]);
  }

  // ---------------------------------------------------------------- a thread's exit

  /** The exit of thread t is unlinking its item x, or has done so. */
  ghost predicate Leaving(st: State, t: Id, x: Ref) {
    && t < |st.pc| && x < |st.items| && st.items[x].owner == t
    && (st.pc[t] == ExitUnlink(x) || ((st.pc[t] == ExitUser(x) || st.pc[t] == ExitFree(x) || st.pc[t].Gone?) && x !in st.list))
  }

  lemma LeavingStep(st: State, l: Label, t: Id, x: Ref)
    requires Inv(st) && st.destroyer.None? && Enabled(st, l) && !l.Destroy? && Leaving(st, t, x)
    ensures Leaving(Apply(st, l), t, x)
  {
    OwnerStays(st, l, x);
    if l.t != t {
      OthersStay(st, l, t);
      assert ThreadOk(st.pc[l.t], st.slot[l.t], st.items, st.list, st.hook, l.t);
      if x !in st.list {
        ListGrowsOwn(st, l, x);
      }
    }
  }

  lemma ListGrowsOwn(st: State, l: Label, x: Ref)
    requires Shape(st) && Enabled(st, l) && x !in st.list && (l.Run? && st.pc[l.t].Append? ==> st.pc[l.t].item != x)
    ensures x !in Apply(st, l).list
  {}

  lemma {:induction false} ExitGoesOn(run: seq<State>, ls: seq<Label>, i: nat, j: nat, t: Id, x: Ref)
    requires IsTrace(run, ls) && i < j < |run| && ls[i] == Exit(t) && run[j].destroyer.None?
    requires Shape(run[i]) && t < |run[i].slot| && run[i].slot[t] == Some(x)
    ensures Leaving(run[j], t, x)
    decreases j
  {
    DestroyerAt(run, ls, j - 1);
    if j == i + 1 {
      LeavingStart(run, ls, i, t, x);
    } else {
      ExitGoesOn(run, ls, i, j - 1, t, x);
      LeavingAt(run, ls, j - 1, t, x);
    }
  }

  lemma LeavingStart(run: seq<State>, ls: seq<Label>, i: nat, t: Id, x: Ref)
    requires IsTrace(run, ls) && i < |ls| && ls[i] == Exit(t) && run[i].destroyer.None?
    requires Shape(run[i]) && t < |run[i].slot| && run[i].slot[t] == Some(x)
    ensures Leaving(run[i + 1], t, x)
  {
    TraceInv(run, ls, i);
    assert TraceAt(run, ls, i);
    assert ThreadOk(run[i].pc[t], run[i].slot[t], run[i].items, run[i].list, run[i].hook, t);
  }

  lemma LeavingAt(run: seq<State>, ls: seq<Label>, k: nat, t: Id, x: Ref)
    requires IsTrace(run, ls) && k < |ls| && run[k].destroyer.None? && run[k + 1].destroyer.None? && Leaving(run[k], t, x)
    ensures Leaving(run[k + 1], t, x)
  {
    TraceInv(run, ls, k);
    assert TraceAt(run, ls, k);
    LeavingStep(run[k], ls[k], t, x);
  }

  /** When a thread with a value has exited, its item is off the list and released once, and the user destructor has
      received once the value of the set call that wrote it last. */
  lemma ExitReports(run: seq<State>, ls: seq<Label>, i: nat, j: nat, t: Id, x: Ref)
    requires IsTrace(run, ls) && i < j < |run| && ls[i] == Exit(t) && run[j].destroyer.None?
    requires Shape(run[i]) && t < |run[i].slot| && run[i].slot[t] == Some(x)
    requires t < |run[j].pc| && run[j].pc[t].Gone?
    ensures x < |run[j].items| && x !in run[j].list && run[j].items[x].freed == 1 && Written(run, ls, j, x).Some?
    ensures run[j].items[x].calls == (if run[j].hook then [Written(run, ls, j, x).value] else [])
  {
    ExitGoesOn(run, ls, i, j, t, x);
    TraceInv(run, ls, j);
    ItemHoldsSet(run, ls, j, x);
    assert ItemOk(run[j].pc, run[j].items, run[j].list, run[j].hook, x);
  }

  // ---------------------------------------------------------------- every operation ends

  function OpRank(p: Pc): int {
    match p
    case Lookup(_) => 10     case Allocate(_) => 9  case Append(_, _) => 8  case Write(_, _) => 2  case Store(_, _) => 1
    case ExitUnlink(_) => 3  case ExitUser(_) => 2  case ExitFree(_) => 1
    case KeyNext => 1        case KeyUser(_) => 3   case KeyFree(_) => 2
    case _ => 0
  }

  /** Steps that operations under way may still take. */
  function Measure(st: State): int { Sum(st.pc, OpRank) + 3 * |st.list| }

  lemma MeasureNonNegative(st: State)
    ensures Measure(st) >= 0
  {
    SumNonNegative(st.pc, OpRank);
  }

  lemma RunLowers(st: State, t: Id, ok: bool)
    requires Shape(st) && Enabled(st, Run(t, ok))
    ensures 0 <= Measure(Exec(st, t, ok)) < Measure(st)
  {
    var st' := Exec(st, t, ok);
    RankLowers(st, t, ok);
    SumUpdate(st.pc, t, st'.pc[t], OpRank);
    MeasureNonNegative(st');
  }

  lemma RankLowers(st: State, t: Id, ok: bool)
    requires Shape(st) && Enabled(st, Run(t, ok))
    ensures var st' := Exec(st, t, ok);
            && |st'.pc| == |st.pc| && st'.pc == st.pc[t := st'.pc[t]]
            && OpRank(st'.pc[t]) + 3 * |st'.list| < OpRank(st.pc[t]) + 3 * |st.list|
  {
    match st.pc[t] {
      case Lookup(_) | Allocate(_) | Append(_, _) | Write(_, _) | Store(_, _) =>
      case ExitUnlink(_) | ExitUser(_) | ExitFree(_) =>
      case KeyNext | KeyUser(_) | KeyFree(_) =>
    }
  }

  predicate Settled(p: Pc) { p.Idle? || p.Gone? || p.KeyDone? }

  ghost predicate RunStepAt(run: seq<State>, i: nat) {
    i + 1 < |run| ==> Shape(run[i]) && exists t, ok :: Enabled(run[i], Run(t, ok)) && run[i + 1] == Apply(run[i], Run(t, ok))
  }

  /** A run in which nothing new is called. */
  ghost predicate OnlyRuns(run: seq<State>) {
    |run| > 0 && forall i: nat :: RunStepAt(run, i)
  }

  lemma {:induction false} OperationsBounded(run: seq<State>, i: nat)
    requires OnlyRuns(run) && i < |run|
    ensures 0 <= Measure(run[i]) && i + Measure(run[i]) <= Measure(run[0])
  {
    if i == 0 {
      MeasureNonNegative(run[0]);
    } else {
      OperationsBounded(run, i - 1);
      RunAt(run, i - 1);
    }
  }

  lemma RunAt(run: seq<State>, i: nat)
    requires OnlyRuns(run) && i + 1 < |run|
    ensures 0 <= Measure(run[i + 1]) < Measure(run[i])
  {
    assert RunStepAt(run, i);
    var t, ok :| Enabled(run[i], Run(t, ok)) && run[i + 1] == Apply(run[i], Run(t, ok));
    RunLowers(run[i], t, ok);
  }

  /** Sets, exits and the destruction come to their end: a run without new calls has a bounded length, and if it
      cannot be extended every thread is between operations, gone, or done with the destruction. */
  lemma OperationsEnd(run: seq<State>, t: Id)
    requires OnlyRuns(run) && Shape(run[|run| - 1]) && t < |run[|run| - 1].pc|
    requires forall u, ok :: !Enabled(run[|run| - 1], Run(u, ok))
    ensures |run| - 1 <= Measure(run[0]) && Settled(run[|run| - 1].pc[t])
  {
    OperationsBounded(run, |run| - 1);
    assert !Enabled(run[|run| - 1], Run(t, true));
  }

  // ---------------------------------------------------------------- the list is in order

  /** The items in the order in which their sets appended them. */
  ghost function Appended(run: seq<State>, ls: seq<Label>, k: nat): seq<Ref>
    requires |run| == |ls| + 1 && k <= |ls|
  {
    if k == 0 then []
    else if ls[k - 1].Run? && ls[k - 1].t < |run[k - 1].pc| && run[k - 1].pc[ls[k - 1].t].Append?
    then Appended(run, ls, k - 1) + [run[k - 1].pc[ls[k - 1].t].item]
    else Appended(run, ls, k - 1)
  }

  /** The items that thread exits have unlinked. */
  ghost function Unlinked(run: seq<State>, ls: seq<Label>, k: nat): set<Ref>
    requires |run| == |ls| + 1 && k <= |ls|
  {
    if k == 0 then {}
    else if ls[k - 1].Run? && ls[k - 1].t < |run[k - 1].pc| && run[k - 1].pc[ls[k - 1].t].ExitUnlink?
    then Unlinked(run, ls, k - 1) + {run[k - 1].pc[ls[k - 1].t].item}
    else Unlinked(run, ls, k - 1)
  }

  /** What is unlinked is off the list and will not be appended again. */
  ghost predicate OffList(st: State, x: Ref) {
    x < |st.items| && x !in st.list && forall t :: 0 <= t < |st.pc| && st.pc[t].Append? ==> st.pc[t].item != x
  }

  lemma OffListStep(st: State, l: Label, x: Ref)
    requires Inv(st) && st.destroyer.None? && Enabled(st, l) && OffList(st, x)
    ensures OffList(Apply(st, l), x)
  {
    OwnerStays(st, l, x);
    ListGrowsOwn(st, l, x);
    SamePcs(st, l);
    var st' := Apply(st, l);
    forall t | 0 <= t < |st'.pc| && st'.pc[t].Append? ensures st'.pc[t].item != x {
      if t != l.t {
        OthersStay(st, l, t);
      }
    }
  }

  lemma UnlinkGoesOff(st: State, l: Label)
    requires Inv(st) && st.destroyer.None? && Enabled(st, l) && l.Run? && st.pc[l.t].ExitUnlink?
    ensures OffList(Apply(st, l), st.pc[l.t].item)
  {
    var st', x := Apply(st, l), st.pc[l.t].item;
    assert ThreadOk(st.pc[l.t], st.slot[l.t], st.items, st.list, st.hook, l.t);
    forall t | 0 <= t < |st'.pc| && st'.pc[t].Append? ensures st'.pc[t].item != x {
      if t != l.t {
        OthersStay(st, l, t);
        assert ThreadOk(st.pc[t], st.slot[t], st.items, st.list, st.hook, t);
      }
    }
  }

  lemma ListStep(st: State, l: Label)
    requires Shape(st) && Enabled(st, l) && st.destroyer.None? && (l.Run? ==> !st.pc[l.t].KeyNext?)
    ensures Apply(st, l).list == (if l.Run? && st.pc[l.t].Append? then st.list + [st.pc[l.t].item]
                                  else if l.Run? && st.pc[l.t].ExitUnlink? then Without(st.list, st.pc[l.t].item)
                                  else st.list)
  {}

  lemma {:induction false} UnlinkedStaysOff(run: seq<State>, ls: seq<Label>, k: nat, x: Ref)
    requires IsTrace(run, ls) && k < |run| && run[k].destroyer.None? && x in Unlinked(run, ls, k)
    ensures OffList(run[k], x)
  {
    DestroyerAt(run, ls, k - 1);
    if x in Unlinked(run, ls, k - 1) {
      UnlinkedStaysOff(run, ls, k - 1, x);
    }
    OffListAt(run, ls, k - 1, x);
  }

  lemma OffListAt(run: seq<State>, ls: seq<Label>, k: nat, x: Ref)
    requires IsTrace(run, ls) && k < |ls| && run[k].destroyer.None? && x in Unlinked(run, ls, k + 1)
    requires x in Unlinked(run, ls, k) ==> OffList(run[k], x)
    ensures OffList(run[k + 1], x)
  {
    TraceInv(run, ls, k);
    assert TraceAt(run, ls, k);
    if x in Unlinked(run, ls, k) {
      OffListStep(run[k], ls[k], x);
    } else {
      UnlinkGoesOff(run[k], ls[k]);
    }
  }

  ghost predicate InOrder(run: seq<State>, ls: seq<Label>, k: nat)
    requires |run| == |ls| + 1 && k <= |ls|
  {
    run[k].list == Remaining(Appended(run, ls, k), Unlinked(run, ls, k))
  }

  lemma NotUnlinked(run: seq<State>, ls: seq<Label>, k: nat, x: Ref)
    requires IsTrace(run, ls) && k < |run| && run[k].destroyer.None?
    requires exists t :: 0 <= t < |run[k].pc| && run[k].pc[t].Append? && run[k].pc[t].item == x
    ensures x !in Unlinked(run, ls, k)
  {
    if x in Unlinked(run, ls, k) {
      UnlinkedStaysOff(run, ls, k, x);
    }
  }

  lemma InUse(run: seq<State>, ls: seq<Label>, k: nat)
    requires IsTrace(run, ls) && k < |ls| && run[k].destroyer.None?
    ensures Shape(run[k]) && Enabled(run[k], ls[k]) && run[k + 1] == Apply(run[k], ls[k]) && ls[k].t < |run[k].pc|
    ensures ls[k].Run? ==> !run[k].pc[ls[k].t].KeyNext?
  {
    TraceInv(run, ls, k);
    assert TraceAt(run, ls, k);
    var t := ls[k].t;
    assert ThreadOk(run[k].pc[t], run[k].slot[t], run[k].items, run[k].list, run[k].hook, t);
  }

  lemma InOrderAt(run: seq<State>, ls: seq<Label>, k: nat)
    requires IsTrace(run, ls) && k < |ls| && run[k].destroyer.None? && InOrder(run, ls, k)
    ensures InOrder(run, ls, k + 1)
  {
    var st, l := run[k], ls[k];
    InUse(run, ls, k);
    ListStep(st, l);
    if l.Run? && st.pc[l.t].Append? {
      NotUnlinked(run, ls, k, st.pc[l.t].item);
      RemainingAppend(Appended(run, ls, k), Unlinked(run, ls, k), st.pc[l.t].item);
    } else if l.Run? && st.pc[l.t].ExitUnlink? {
      RemainingRemove(Appended(run, ls, k), Unlinked(run, ls, k), st.pc[l.t].item);
    }
  }

  lemma DestroyerAt(run: seq<State>, ls: seq<Label>, k: nat)
    requires IsTrace(run, ls) && k < |ls| && run[k + 1].destroyer.None?
    ensures run[k].destroyer.None?
  {
    assert TraceAt(run, ls, k);
    DestroyerStays(run[k], ls[k]);
  }

  /** While the key is in use, tsd_list is the appended and not yet unlinked items in order of their appending. */
  lemma {:induction false} ListIsFifo(run: seq<State>, ls: seq<Label>, k: nat)
    requires IsTrace(run, ls) && k < |run| && run[k].destroyer.None?
    ensures InOrder(run, ls, k)
  {
    if k > 0 {
      DestroyerAt(run, ls, k - 1);
      ListIsFifo(run, ls, k - 1);
      InOrderAt(run, ls, k - 1);
    }
  }

  // ---------------------------------------------------------------- the destruction

  /** d is destroying the key, has taken the first m items of `all` off the list, and is working on the last of them. */
  ghost predicate Destroying(st: State, d: Id, all: seq<Ref>, m: nat) {
    && d < |st.pc| && st.destroyer == Some(d) && m <= |all| && st.list == all[m..]
    && match st.pc[d]
       case KeyNext => true
       case KeyUser(x) => m > 0 && x == all[m - 1]
       case KeyFree(x) => m > 0 && x == all[m - 1]
       case KeyDone => m == |all|
       case _ => false
  }

  lemma DestroyingStep(st: State, l: Label, d: Id, all: seq<Ref>, m: nat) returns (m': nat)
    requires Inv(st) && Enabled(st, l) && Destroying(st, d, all, m)
    ensures m <= m' <= m + 1 && Destroying(Apply(st, l), d, all, m')
  {
    m' := m;
    if l.t == d && st.pc[d].KeyNext? && st.list != [] {
      m' := m + 1;
      assert all[m..][1..] == all[m + 1..] && all[m..][0] == all[m];
    } else if l.t != d {
      OthersStay(st, l, d);
    }
  }

  /** A call of the key's destructor takes the items off the list one by one in list order and, once it has come to its
      end (OperationsEnd), has taken them all. */
  lemma {:induction false} DestroyInOrder(run: seq<State>, ls: seq<Label>, i: nat, j: nat, d: Id) returns (m: nat)
    requires IsTrace(run, ls) && i < j < |run| && ls[i] == Destroy(d)
    ensures Destroying(run[j], d, run[i].list, m)
    ensures Settled(run[j].pc[d]) ==> run[j].pc[d].KeyDone? && m == |run[i].list|
    decreases j
  {
    assert TraceAt(run, ls, j - 1);
    if j == i + 1 {
      m := 0;
    } else {
      m := DestroyInOrder(run, ls, i, j - 1, d);
      TraceInv(run, ls, j - 1);
      m := DestroyingStep(run[j - 1], ls[j - 1], d, run[i].list, m);
    }
  }
}
