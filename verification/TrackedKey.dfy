/** Tracked thread-specific data on the heap, one operation at a time: a key is a map from threads to
    values, kept as per-thread slots that point into a list of items. */
module TrackedKey {
  import opened Base

  type Id = nat
  type Value = int

  /** tsd_list_item_t */
  class Item {
    var data: Value
    var tracked: Key?   // tracked_key
    constructor () { data, tracked := 0, null; }
  }

  /** The values of the items of s, in order. */
  ghost function DataOf(s: seq<Item>): (r: seq<Value>)
    reads s
    ensures |r| == |s| && forall i :: 0 <= i < |s| ==> r[i] == s[i].data
  {
    if s == [] then [] else [s[0].data] + DataOf(s[1..])
  }

  /** Nothing is listed or released twice, and nothing released is still listed. */
  ghost predicate ListsOk(list: seq<Item>, released: seq<Item>) {
    && Distinct(list) && Distinct(released)
    && (forall i :: 0 <= i < |list| ==> list[i] !in released)
  }

  /** Every occupied slot points to a listed item, no two to the same one. */
  ghost predicate SlotsOk(slot: map<Id, Item>, list: seq<Item>) {
    && (forall t :: t in slot ==> slot[t] in list)
    && (forall t, u :: t in slot && u in slot && t != u ==> slot[t] != slot[u])
  }

  lemma ReleaseOne(list: seq<Item>, released: seq<Item>, item: Item)
    requires ListsOk(list, released) && item in list
    ensures ListsOk(Without(list, item), released + [item])
  {
    WithoutDistinct(list, item);
    var rest := Without(list, item);
    forall i | 0 <= i < |rest| ensures rest[i] !in released + [item] {
      assert rest[i] in list;
    }
  }

  lemma ReleaseAll(list: seq<Item>, released: seq<Item>)
    requires ListsOk(list, released)
    ensures ListsOk([], released + list)
  {}

  lemma ClearSlot(slot: map<Id, Item>, list: seq<Item>, t: Id)
    requires SlotsOk(slot, list) && t in slot
    ensures SlotsOk(slot - {t}, Without(list, slot[t]))
  {
    var slot' := slot - {t};
    forall u | u in slot' ensures slot'[u] in Without(list, slot[t]) {
      assert slot[u] in list && slot[u] != slot[t];
    }
  }

  /** tsd_tracked_key_t together with the slots of the underlying key. */
  class Key {
    var slot: map<Id, Item>       // threads whose slot is not NULL
    var list: seq<Item>           // tsd_list
    var hook: bool                // user_destructor is not NULL
    var calls: seq<Value>         // values passed to the user destructor
    ghost var released: seq<Item> // items given to OBJ_RELEASE

    // Every listed item, orphans of failed sets included, points back to its key.
    ghost predicate Valid()
      reads this, list
    {
      && ListsOk(list, released) && SlotsOk(slot, list)
      && forall i :: 0 <= i < |list| ==> list[i].tracked == this
    }

    /** What the key means to its users: each thread's value, or NULL. */
    ghost function View(t: Id): Option<Value>
      reads this, slot.Values
    {
      if t in slot then Some(slot[t].data) else None
    }

    /** tsd_tracked_key_constructor */
    constructor ()
      ensures Valid() && slot == map[] && list == [] && !hook && calls == [] && released == []
    {
      slot, list, hook, calls, released := map[], [], false, [], [];
    }

    /** tsd_tracked_key_get */
    method Get(t: Id) returns (p: Option<Value>)
      ensures p == View(t)
    {
      p := None;
      if t in slot {
        p := Some(slot[t].data);
      }
    }

    /** tsd_tracked_key_set; room and stored are the outcomes of OBJ_NEW and tsd_set.  A set that fails
        in tsd_set leaves an orphan on the list, or has already overwritten the thread's item. */
    method Set(t: Id, p: Value, room: bool, stored: bool) returns (ok: bool)
      requires Valid()
      modifies this`slot, this`list, slot.Values
      ensures Valid()
      ensures ok == (stored && (t in old(slot) || room))
      ensures View(t) == if ok || t in old(slot) then Some(p) else None
      ensures forall u :: u != t ==> View(u) == old(View(u))
      ensures if t !in old(slot) && room
              then |list| == |old(list)| + 1 && list[..|old(list)|] == old(list) && fresh(list[|old(list)|])
              else list == old(list)
    {
      var item: Item;
      if t in slot {
        item := slot[t];
      } else {
        if !room {
          return false;
        }
        item := new Item();
        list := list + [item];
      }
      item.data := p;
      item.tracked := this;
      if stored {
        slot := slot[t := item];
      }
      ok := stored;
    }

    /** Thread t ends: its slot is cleared and _tracked_destructor runs on what was in it. */
    method Exit(t: Id)
      requires Valid()
      modifies this`slot, this`list, this`calls, this`released
      ensures Valid() && View(t) == None
      ensures forall u :: u != t ==> View(u) == old(View(u))
      ensures t !in old(slot) ==> list == old(list) && calls == old(calls) && released == old(released)
      ensures t in old(slot) ==>
                && list == Without(old(list), old(slot)[t])
                && released == old(released) + [old(slot)[t]]
                && calls == old(calls) + (if hook then [old(slot)[t].data] else [])
    {
      if t in slot {
        var item := slot[t];
        var key := item.tracked;
        ReleaseOne(list, released, item);
        ClearSlot(slot, list, t);
        slot := slot - {t};
        key.list := Without(key.list, item);
        if key.hook {
          key.calls := key.calls + [item.data];
        }
        key.released := key.released + [item];
      }
    }

    /** tsd_tracked_key_destructor: every listed item, orphans included, is released once, in list order. */
    method Destroy()
      requires Valid()
      modifies this`slot, this`list, this`calls, this`released
      ensures Valid() && list == [] && slot == map[]
      ensures released == old(released) + old(list)
      ensures calls == old(calls) + (if hook then DataOf(old(list)) else [])
    {
      ReleaseAll(list, released);
      slot := map[];
      ghost var all, values, k := list, DataOf(list), 0;
      while list != []
        invariant 0 <= k <= |all| && list == all[k..] && slot == map[]
        invariant released == old(released) + all[..k]
        invariant calls == old(calls) + (if hook then values[..k] else [])
        decreases |list|
      {
        var item := list[0];
        assert item == all[k] && item.data == values[k] && values[..k + 1] == values[..k] + [values[k]];
        assert all[..k + 1] == all[..k] + [item];
        list := list[1..];
        if hook {
          calls := calls + [item.data];
        }
        released := released + [item];
        k := k + 1;
      }
      assert all[..k] == all && values[..k] == values;
    }
  }
}
