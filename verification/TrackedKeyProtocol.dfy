/** Tracked thread-specific data under any interleaving of sets and thread exits, and a key destruction
    that overlaps none of them: every item is unlinked and released exactly once, its last value goes
    to the user destructor exactly once, and no thread changes what another one reads. */
module TrackedKeyProtocol {
  import opened Base

  type Id = nat      // threads
  type Ref = nat     // allocated items, numbered in order of allocation
  type Value = int

  /** tsd_list_item_t.  tracked: tracked_key points to the key; calls: values passed to the user destructor;
      freed: number of releases. */
  datatype Item = Item(owner: Id, data: Value, tracked: bool, calls: seq<Value>, freed: nat)

  datatype Pc =
    | Idle
    | Lookup(p: Value)             // 53: tsd_get
    | Allocate(p: Value)           // 56: OBJ_NEW, which may fail
    | Append(p: Value, item: Ref)  // 61-63: under the key's mutex
    | Write(p: Value, item: Ref)   // 66-67: data and tracked_key
    | Store(p: Value, item: Ref)   // 69: tsd_set, which may fail
    | ExitUnlink(item: Ref)        // 14-16: _tracked_destructor, under the key's mutex
    | ExitUser(item: Ref)          // 18-20
    | ExitFree(item: Ref)          // 21
    | Gone                         // thread has exited
    | KeyNext                      // 37-38: take the next item off the list, if any
    | KeyUser(item: Ref)           // 39-41
    | KeyFree(item: Ref)           // 42
    | KeyDone                      // the key is destroyed

  /** hook: a user destructor is set.  destroyer: the thread that called tsd_key_delete. */
  datatype State = State(pc: seq<Pc>, slot: seq<Option<Ref>>, items: seq<Item>, list: seq<Ref>,
                         hook: bool, destroyer: Option<Id>)

  datatype Label =
    | Set(t: Id, p: Value)        // tsd_tracked_key_set is called
    | Run(t: Id, ok: bool)        // next action; ok is the outcome of OBJ_NEW or tsd_set
    | Exit(t: Id)                 // the thread ends: the slot is cleared, the destructor gets its old value
    | Destroy(t: Id)              // tsd_tracked_key_destructor is called

  predicate HasItem(p: Pc) {
    p.Append? || p.Write? || p.Store? || p.ExitUnlink? || p.ExitUser? || p.ExitFree? || p.KeyUser? || p.KeyFree?
  }

  ghost predicate Shape(st: State) {
    && |st.slot| == |st.pc|
    && (forall i :: 0 <= i < |st.list| ==> st.list[i] < |st.items|)
    && (forall t :: 0 <= t < |st.pc| && HasItem(st.pc[t]) ==> st.pc[t].item < |st.items|)
    && (forall t :: 0 <= t < |st.pc| && st.slot[t].Some? ==> st.slot[t].value < |st.items|)
  }

  predicate Enabled(st: State, l: Label) {
    && l.t < |st.pc| == |st.slot|
    && match l
       case Set(t, _) => st.pc[t].Idle? && st.destroyer.None?
       case Run(t, _) => !st.pc[t].Idle? && !st.pc[t].Gone? && !st.pc[t].KeyDone?
       case Exit(t) => st.pc[t].Idle?
       case Destroy(t) =>
         st.destroyer.None? && st.pc[t].Idle? && forall u :: 0 <= u < |st.pc| ==> st.pc[u].Idle? || st.pc[u].Gone?
  }

  function Move(st: State, t: Id, p: Pc): State
    requires t < |st.pc|
  {
    st.(pc := st.pc[t := p])
  }

  function SetItem(st: State, i: Ref, item: Item): State
    requires i < |st.items|
  {
    st.(items := st.items[i := item])
  }

  function Notify(hook: bool, item: Item): Item {
    if hook then item.(calls := item.calls + [item.data]) else item
  }

  function Exec(st: State, t: Id, ok: bool): State
    requires Shape(st) && t < |st.pc|
  {
    match st.pc[t]
    case Lookup(p) => Move(st, t, if st.slot[t].Some? then Write(p, st.slot[t].value) else Allocate(p))
    case Allocate(p) =>
      if !ok then Move(st, t, Idle)
      else Move(st, t, Append(p, |st.items|)).(items := st.items + [Item(t, 0, false, [], 0)])
    case Append(p, i) => Move(st, t, Write(p, i)).(list := st.list + [i])
    case Write(p, i) => SetItem(Move(st, t, Store(p, i)), i, st.items[i].(data := p, tracked := true))
    case Store(_, i) =>
      if ok then Move(st, t, Idle).(slot := st.slot[t := Some(i)]) else Move(st, t, Idle)
    case ExitUnlink(i) => Move(st, t, ExitUser(i)).(list := Without(st.list, i))
    case ExitUser(i) => SetItem(Move(st, t, ExitFree(i)), i, Notify(st.hook, st.items[i]))
    case ExitFree(i) => SetItem(Move(st, t, Gone), i, st.items[i].(freed := st.items[i].freed + 1))
    case KeyNext =>
      if st.list == [] then Move(st, t, KeyDone)
      else Move(st, t, KeyUser(st.list[0])).(list := st.list[1..])
    case KeyUser(i) => SetItem(Move(st, t, KeyFree(i)), i, Notify(st.hook, st.items[i]))
    case KeyFree(i) => SetItem(Move(st, t, KeyNext), i, st.items[i].(freed := st.items[i].freed + 1))
    case _ => st
  }

  function Apply(st: State, l: Label): State
    requires Shape(st) && Enabled(st, l)
  {
    match l
    case Set(t, p) => Move(st, t, Lookup(p))
    case Run(t, ok) => Exec(st, t, ok)
    case Exit(t) =>
      if st.destroyer.Some? || st.slot[t].None? then Move(st, t, Gone).(slot := st.slot[t := None])
      else Move(st, t, ExitUnlink(st.slot[t].value)).(slot := st.slot[t := None])
    case Destroy(t) => Move(st, t, KeyNext).(destroyer := Some(t))
  }

  /** tsd_tracked_key_get: the value in the thread's slot, or NULL. */
  function Get(st: State, t: Id): Option<Value>
    requires Shape(st) && t < |st.pc|
  {
    if st.slot[t].Some? then Some(st.items[st.slot[t].value].data) else None
  }

  ghost predicate Init(st: State) {
    && Shape(st) && st.items == [] && st.list == [] && st.destroyer.None?
    && forall t :: 0 <= t < |st.pc| ==> st.pc[t].Idle? && st.slot[t].None?
  }

  // ---------------------------------------------------------------- life of an item

  predicate Fresh(item: Item) { item.calls == [] && item.freed == 0 }

  predicate Told(hook: bool, item: Item) { item.calls == (if hook then [item.data] else []) && item.freed == 0 }

  /** Released once, and its last value passed on once if there is a user destructor. */
  predicate CleanedUp(hook: bool, item: Item) {
    item.calls == (if hook then [item.data] else []) && item.freed == 1
  }

  /** The owner works on the item off the list: before linking it or after unlinking it. */
  predicate Carries(p: Pc, i: Ref) { (p.Append? || p.ExitUser? || p.ExitFree?) && p.item == i }

  // ---------------------------------------------------------------- invariant while the key is in use

  /** Thread t refers only to items it owns, and knows whether they are on the list. */
  ghost predicate ThreadOk(p: Pc, slot: Option<Ref>, items: seq<Item>, list: seq<Ref>, hook: bool, t: Id) {
    && (slot.Some? ==> slot.value < |items| && items[slot.value].owner == t && items[slot.value].tracked && slot.value in list)
    && (HasItem(p) ==> p.item < |items| && items[p.item].owner == t)
    && match p
       case Idle => true
       case Lookup(_) => true
       case Allocate(_) => slot.None?
       case Append(_, i) => slot.None? && i !in list && Fresh(items[i])
       case Write(_, i) => i in list && (slot.None? || slot == Some(i))
       case Store(v, i) => i in list && (slot.None? || slot == Some(i)) && items[i].data == v && items[i].tracked
       case ExitUnlink(i) => slot.None? && i in list && items[i].tracked
       case ExitUser(i) => slot.None? && i !in list && Fresh(items[i])
       case ExitFree(i) => slot.None? && i !in list && Told(hook, items[i])
       case Gone => slot.None?
       case _ => false
  }

  ghost predicate ItemOk(pc: seq<Pc>, items: seq<Item>, list: seq<Ref>, hook: bool, i: Ref)
    requires i < |items|
  {
    && items[i].owner < |pc|
    && (i in list ==> Fresh(items[i]))
    && (i !in list && !Carries(pc[items[i].owner], i) ==> CleanedUp(hook, items[i]))
  }

  ghost predicate OpenInv(st: State)
    requires Shape(st)
  {
    && (forall t {:trigger ThreadOk(st.pc[t], st.slot[t], st.items, st.list, st.hook, t)} :: 0 <= t < |st.pc| ==>
          ThreadOk(st.pc[t], st.slot[t], st.items, st.list, st.hook, t))
    && (forall i {:trigger ItemOk(st.pc, st.items, st.list, st.hook, i)} :: 0 <= i < |st.items| ==>
          ItemOk(st.pc, st.items, st.list, st.hook, i))
  }

  // ---------------------------------------------------------------- invariant while the key is destroyed

  ghost predicate KeyItemOk(p: Pc, items: seq<Item>, list: seq<Ref>, hook: bool, i: Ref)
    requires i < |items|
  {
    if i in list then Fresh(items[i])
    else if p == KeyUser(i) then Fresh(items[i])
    else if p == KeyFree(i) then Told(hook, items[i])
    else CleanedUp(hook, items[i])
  }

  ghost predicate ClosedInv(st: State)
    requires Shape(st) && st.destroyer.Some?
  {
    var d := st.destroyer.value;
    && d < |st.pc|
    && (forall u :: 0 <= u < |st.pc| && u != d ==> st.pc[u].Idle? || st.pc[u].Gone?)
    && (match st.pc[d]
        case KeyNext => true
        case KeyUser(i) => i !in st.list
        case KeyFree(i) => i !in st.list
        case KeyDone => st.list == []
        case _ => false)
    && (forall i {:trigger KeyItemOk(st.pc[d], st.items, st.list, st.hook, i)} :: 0 <= i < |st.items| ==>
          KeyItemOk(st.pc[d], st.items, st.list, st.hook, i))
  }

  ghost predicate Inv(st: State) {
    && Shape(st) && Distinct(st.list)
    && (if st.destroyer.None? then OpenInv(st) else ClosedInv(st))
  }

  // ---------------------------------------------------------------- steps on the open key

  /** st' differs from st only in thread t and in items t owns. */
  ghost predicate OnlyOwn(st: State, st': State, t: Id)
    requires Shape(st) && t < |st.pc|
  {
    && |st'.pc| == |st'.slot| == |st.pc| && |st.items| <= |st'.items|
    && st'.hook == st.hook && st'.destroyer == st.destroyer
    && (forall u :: 0 <= u < |st.pc| && u != t ==> st'.pc[u] == st.pc[u] && st'.slot[u] == st.slot[u])
    && (forall i :: 0 <= i < |st.items| && st.items[i].owner != t ==>
          st'.items[i] == st.items[i] && (i in st'.list <==> i in st.list))
    && (forall i :: 0 <= i < |st.items| && st.items[i].owner == t ==> st'.items[i].owner == t)
    && (forall i :: |st.items| <= i < |st'.items| ==> st'.items[i].owner == t)
    && (forall i :: 0 <= i < |st'.list| ==> st'.list[i] < |st'.items|)
    && Distinct(st'.list)
  }

  /** What a step has to establish about the thread that takes it. */
  ghost predicate OwnOk(st: State, t: Id)
    requires |st.slot| == |st.pc| && t < |st.pc|
  {
    && ThreadOk(st.pc[t], st.slot[t], st.items, st.list, st.hook, t)
    && (forall i :: 0 <= i < |st.items| && st.items[i].owner == t ==> ItemOk(st.pc, st.items, st.list, st.hook, i))
  }

  lemma OthersKept(st: State, st': State, t: Id)
    requires Shape(st) && OpenInv(st) && t < |st.pc| && OnlyOwn(st, st', t)
    ensures forall u :: 0 <= u < |st.pc| && u != t ==> ThreadOk(st'.pc[u], st'.slot[u], st'.items, st'.list, st'.hook, u)
    ensures forall i :: 0 <= i < |st.items| && st.items[i].owner != t ==> ItemOk(st'.pc, st'.items, st'.list, st'.hook, i)
  {
    forall u | 0 <= u < |st.pc| && u != t
      ensures ThreadOk(st'.pc[u], st'.slot[u], st'.items, st'.list, st'.hook, u)
    {
      assert ThreadOk(st.pc[u], st.slot[u], st.items, st.list, st.hook, u);
    }
    forall i | 0 <= i < |st.items| && st.items[i].owner != t ensures ItemOk(st'.pc, st'.items, st'.list, st'.hook, i) {
      assert ItemOk(st.pc, st.items, st.list, st.hook, i);
    }
  }

  lemma OpenFromOwn(st: State, st': State, t: Id)
    requires Shape(st) && OpenInv(st) && st.destroyer.None? && t < |st.pc| && OnlyOwn(st, st', t) && OwnOk(st', t)
    ensures Inv(st')
  {
    OthersKept(st, st', t);
    forall u | 0 <= u < |st'.pc| ensures HasItem(st'.pc[u]) ==> st'.pc[u].item < |st'.items| {
      assert ThreadOk(st'.pc[u], st'.slot[u], st'.items, st'.list, st'.hook, u);
    }
    forall u | 0 <= u < |st'.pc| ensures st'.slot[u].Some? ==> st'.slot[u].value < |st'.items| {
      assert ThreadOk(st'.pc[u], st'.slot[u], st'.items, st'.list, st'.hook, u);
    }
  }

  /** Starting a set, its lookup and its last step, failures included, touch neither an item nor the list. */
  lemma SetStep(st: State, l: Label)
    requires Inv(st) && st.destroyer.None? && Enabled(st, l) && (l.Set? || l.Run?)
    requires l.Run? ==> st.pc[l.t].Lookup? || st.pc[l.t].Store? || (st.pc[l.t].Allocate? && !l.ok)
    ensures Inv(Apply(st, l))
  {
    var st', t := Apply(st, l), l.t;
    assert ThreadOk(st.pc[t], st.slot[t], st.items, st.list, st.hook, t);
    forall i | 0 <= i < |st.items| && st.items[i].owner == t ensures ItemOk(st'.pc, st'.items, st'.list, st'.hook, i) {
      assert ItemOk(st.pc, st.items, st.list, st.hook, i);
    }
    OpenFromOwn(st, st', t);
  }

  lemma ExitStep(st: State, t: Id)
    requires Inv(st) && st.destroyer.None? && Enabled(st, Exit(t))
    ensures Inv(Apply(st, Exit(t)))
  {
    var st' := Apply(st, Exit(t));
    assert ThreadOk(st.pc[t], st.slot[t], st.items, st.list, st.hook, t);
    forall i | 0 <= i < |st.items| && st.items[i].owner == t ensures ItemOk(st'.pc, st'.items, st'.list, st'.hook, i) {
      assert ItemOk(st.pc, st.items, st.list, st.hook, i);
    }
    OpenFromOwn(st, st', t);
  }

  lemma AllocateStep(st: State, t: Id)
    requires Inv(st) && st.destroyer.None? && Enabled(st, Run(t, true)) && st.pc[t].Allocate?
    ensures Inv(Exec(st, t, true))
  {
    var st' := Exec(st, t, true);
    assert ThreadOk(st.pc[t], st.slot[t], st.items, st.list, st.hook, t);
    assert |st.items| !in st.list;
    forall i | 0 <= i < |st'.items| && st'.items[i].owner == t ensures ItemOk(st'.pc, st'.items, st'.list, st'.hook, i) {
      if i < |st.items| {
        assert ItemOk(st.pc, st.items, st.list, st.hook, i);
      }
    }
    OpenFromOwn(st, st', t);
  }

  lemma ItemStep(st: State, t: Id, ok: bool)
    requires Inv(st) && st.destroyer.None? && Enabled(st, Run(t, ok))
    requires st.pc[t].Write? || st.pc[t].ExitUser? || st.pc[t].ExitFree?
    ensures Inv(Exec(st, t, ok))
  {
    var st' := Exec(st, t, ok);
    assert ThreadOk(st.pc[t], st.slot[t], st.items, st.list, st.hook, t);
    forall i | 0 <= i < |st'.items| && st'.items[i].owner == t ensures ItemOk(st'.pc, st'.items, st'.list, st'.hook, i) {
      assert ItemOk(st.pc, st.items, st.list, st.hook, i);
    }
    OpenFromOwn(st, st', t);
  }

  lemma AppendStep(st: State, t: Id, ok: bool)
    requires Inv(st) && st.destroyer.None? && Enabled(st, Run(t, ok)) && st.pc[t].Append?
    ensures Inv(Exec(st, t, ok))
  {
    var st' := Exec(st, t, ok);
    var item := st.pc[t].item;
    assert ThreadOk(st.pc[t], st.slot[t], st.items, st.list, st.hook, t);
    assert st'.list[|st.list|] == item;
    assert forall i :: i in st'.list <==> i in st.list || i == item;
    forall i | 0 <= i < |st'.items| && st'.items[i].owner == t ensures ItemOk(st'.pc, st'.items, st'.list, st'.hook, i) {
      assert ItemOk(st.pc, st.items, st.list, st.hook, i);
    }
    OpenFromOwn(st, st', t);
  }

  lemma UnlinkStep(st: State, t: Id, ok: bool)
    requires Inv(st) && st.destroyer.None? && Enabled(st, Run(t, ok)) && st.pc[t].ExitUnlink?
    ensures Inv(Exec(st, t, ok))
  {
    var st' := Exec(st, t, ok);
    var item := st.pc[t].item;
    assert ThreadOk(st.pc[t], st.slot[t], st.items, st.list, st.hook, t);
    WithoutDistinct(st.list, item);
    assert forall i :: i in st'.list <==> i in st.list && i != item;
    assert ItemOk(st.pc, st.items, st.list, st.hook, item);
    forall i | 0 <= i < |st'.list| ensures st'.list[i] < |st'.items| {
      assert st'.list[i] in st.list;
    }
    forall i | 0 <= i < |st'.items| && st'.items[i].owner == t ensures ItemOk(st'.pc, st'.items, st'.list, st'.hook, i) {
      assert ItemOk(st.pc, st.items, st.list, st.hook, i);
    }
    OpenFromOwn(st, st', t);
  }

  lemma OpenStep(st: State, l: Label)
    requires Inv(st) && st.destroyer.None? && Enabled(st, l) && !l.Destroy?
    ensures Inv(Apply(st, l))
  {
    assert ThreadOk(st.pc[l.t], st.slot[l.t], st.items, st.list, st.hook, l.t);
    if l.Run? && st.pc[l.t].Append? {
      AppendStep(st, l.t, l.ok);
    } else if l.Run? && st.pc[l.t].ExitUnlink? {
      UnlinkStep(st, l.t, l.ok);
    } else if l.Run? && (st.pc[l.t].Write? || st.pc[l.t].ExitUser? || st.pc[l.t].ExitFree?) {
      ItemStep(st, l.t, l.ok);
    } else if l.Run? && st.pc[l.t].Allocate? && l.ok {
      AllocateStep(st, l.t);
    } else if l.Exit? {
      ExitStep(st, l.t);
    } else {
      SetStep(st, l);
    }
  }

  // ---------------------------------------------------------------- destruction of the key

  lemma DestroyStep(st: State, t: Id)
    requires Inv(st) && Enabled(st, Destroy(t))
    ensures Inv(Apply(st, Destroy(t)))
  {
    var st' := Apply(st, Destroy(t));
    forall i | 0 <= i < |st.items| ensures KeyItemOk(st'.pc[t], st'.items, st'.list, st'.hook, i) {
      assert ItemOk(st.pc, st.items, st.list, st.hook, i);
    }
  }

  lemma ClosedStepItem(st: State, l: Label, i: Ref)
    requires Inv(st) && st.destroyer.Some? && Enabled(st, l) && i < |st.items|
    ensures var st', d := Apply(st, l), st.destroyer.value;
            |st'.items| == |st.items| && d < |st'.pc| && KeyItemOk(st'.pc[d], st'.items, st'.list, st'.hook, i)
  {
    var list, d := st.list, st.destroyer.value;
    if st.pc[d].KeyNext? && list != [] {
      assert list[0] !in list[1..];
      assert i in list <==> i == list[0] || i in list[1..];
    }
    assert KeyItemOk(st.pc[d], st.items, st.list, st.hook, i);
  }

  lemma ClosedStep(st: State, l: Label)
    requires Inv(st) && st.destroyer.Some? && Enabled(st, l)
    ensures Inv(Apply(st, l))
  {
    var st', d := Apply(st, l), st.destroyer.value;
    forall i | 0 <= i < |st.items| ensures KeyItemOk(st'.pc[d], st'.items, st'.list, st'.hook, i) {
      ClosedStepItem(st, l, i);
    }
  }

  lemma StepInv(st: State, l: Label)
    requires Inv(st) && Enabled(st, l)
    ensures Inv(Apply(st, l))
  {
    if st.destroyer.Some? {
      ClosedStep(st, l);
    } else if l.Destroy? {
      DestroyStep(st, l.t);
    } else {
      OpenStep(st, l);
    }
  }

  // ---------------------------------------------------------------- whole runs

  ghost predicate Next(st: State, st': State) {
    Shape(st) && exists l :: Enabled(st, l) && st' == Apply(st, l)
  }

  ghost predicate StepAt(run: seq<State>, i: nat) {
    i + 1 < |run| ==> Next(run[i], run[i + 1])
  }

  ghost predicate IsRun(run: seq<State>) {
    |run| > 0 && Init(run[0]) && forall i: nat :: StepAt(run, i)
  }

  lemma NextInv(st: State, st': State)
    requires Inv(st) && Next(st, st')
    ensures Inv(st')
  {
    var l :| Enabled(st, l) && st' == Apply(st, l);
    StepInv(st, l);
  }

  lemma {:induction false} RunInv(run: seq<State>, k: nat)
    requires IsRun(run) && k < |run|
    ensures Inv(run[k])
  {
    if k > 0 {
      RunInv(run, k - 1);
      assert StepAt(run, k - 1);
      NextInv(run[k - 1], run[k]);
    }
  }

  /** At no time has an item been released, or its value passed to the user destructor, more than once,
      and nothing on the list has been. */
  lemma NeverTwice(run: seq<State>, k: nat, i: Ref)
    requires IsRun(run) && k < |run| && i < |run[k].items|
    ensures run[k].items[i].freed <= 1 && |run[k].items[i].calls| <= 1
    ensures i in run[k].list ==> Fresh(run[k].items[i])
  {
    RunInv(run, k);
    var st := run[k];
    if st.destroyer.None? {
      assert ItemOk(st.pc, st.items, st.list, st.hook, i);
      var o := st.items[i].owner;
      assert ThreadOk(st.pc[o], st.slot[o], st.items, st.list, st.hook, o);
    } else {
      assert KeyItemOk(st.pc[st.destroyer.value], st.items, st.list, st.hook, i);
    }
  }

  /** When the key is destroyed, every item ever allocated, orphans of failed sets included, is off the
      list, released exactly once, and its last value went to the user destructor exactly once. */
  lemma ExactlyOnce(run: seq<State>, k: nat, i: Ref)
    requires IsRun(run) && k < |run| && i < |run[k].items|
    requires run[k].destroyer.Some? && run[k].destroyer.value < |run[k].pc| && run[k].pc[run[k].destroyer.value].KeyDone?
    ensures run[k].list == [] && CleanedUp(run[k].hook, run[k].items[i])
  {
    RunInv(run, k);
    var st := run[k];
    assert KeyItemOk(st.pc[st.destroyer.value], st.items, st.list, st.hook, i);
  }

  /** No step of thread t changes what another thread reads. */
  lemma SetIsPrivate(st: State, l: Label, u: Id)
    requires Inv(st) && st.destroyer.None? && Enabled(st, l) && u < |st.pc| && u != l.t
    ensures Shape(Apply(st, l)) && Get(Apply(st, l), u) == Get(st, u)
  {
    StepInv(st, l);
    assert ThreadOk(st.pc[l.t], st.slot[l.t], st.items, st.list, st.hook, l.t);
    assert ThreadOk(st.pc[u], st.slot[u], st.items, st.list, st.hook, u);
  }

  /** Every occupied slot's item is on the list exactly once, belongs to the slot's thread and points back to
      its key; so does the item a thread exit is about to unlink. */
  lemma SlotsAreListed(run: seq<State>, k: nat, t: Id)
    requires IsRun(run) && k < |run| && t < |run[k].pc| && run[k].destroyer.None?
    ensures Shape(run[k]) && Distinct(run[k].list)
    ensures run[k].slot[t].Some? ==>
              && run[k].slot[t].value in run[k].list
              && run[k].items[run[k].slot[t].value].owner == t && run[k].items[run[k].slot[t].value].tracked
    ensures run[k].pc[t].ExitUnlink? ==> run[k].pc[t].item in run[k].list && run[k].items[run[k].pc[t].item].tracked
  {
    RunInv(run, k);
    var st := run[k];
    assert ThreadOk(st.pc[t], st.slot[t], st.items, st.list, st.hook, t);
  }
}
