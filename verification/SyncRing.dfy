/** The ring of pending syncs on the heap: `next`/`prev` pointers and the global head, as the wait-sync
    code updates them under wait_sync_lock, proved to represent the sequence used by the protocol model. */
module SyncRing {
  import opened Base

  /** ompi_wait_sync_t without its lock and condition. */
  class WaitSync {
    var count: int
    var status: int
    var signaling: bool
    var next: WaitSync?
    var prev: WaitSync?

    /** WAIT_SYNC_INIT */
    constructor (c: int)
      ensures count == c && status == 0 && signaling == (c != 0) && next == null && prev == null
    {
      count, status, signaling, next, prev := c, 0, c != 0, null, null;
    }

    /** wait_sync_update, run to its end by one thread; `signals` tells whether the condition was signalled. */
    method Update(updates: int, code: int) returns (signals: bool)
      modifies this`count, this`status, this`signaling
      ensures signals == (code != 0 || old(count) == updates)
      ensures count == (if code != 0 then 0 else old(count) - updates)
      ensures status == (if code != 0 then code else old(status))
      ensures signaling == (old(signaling) && !signals)
    {
      if code == 0 {
        count := count - updates;
        if count != 0 {
          return false;
        }
      } else {
        status := code;
        count := 0;
      }
      signaling := false;
      signals := true;
    }
  }

  /** A sync after a global wakeup: an error completes it; a success leaves a count other than 0 alone. */
  ghost predicate Updated(s: WaitSync, code: int, count: int, status: int, signaling: bool)
    reads s
  {
    var hit := code != 0 || count == 0;
    && s.count == (if hit then 0 else count)
    && s.status == (if code != 0 then code else status)
    && s.signaling == (signaling && !hit)
  }

  function After(n: nat, i: nat): nat { if i + 1 < n then i + 1 else 0 }

  function Before(n: nat, i: nat): nat { if i > 0 then i - 1 else if n > 0 then n - 1 else 0 }

  /** Index in a ring of an element of the ring without its k-th. */
  function Shift(k: nat, i: nat): nat { if i < k then i else i + 1 }

  /** Closing the gap at k makes k's neighbours each other's neighbours and leaves the others alone. */
  lemma Neighbours(n: nat, k: nat, i: nat)
    requires k < n && i < n - 1
    ensures var j := Shift(k, i);
            && (After(n, j) == k <==> j == Before(n, k)) && (Before(n, j) == k <==> j == After(n, k))
            && Shift(k, After(n - 1, i)) == (if j == Before(n, k) then After(n, k) else After(n, j))
            && Shift(k, Before(n - 1, i)) == (if j == After(n, k) then Before(n, k) else Before(n, j))
  {}

  ghost predicate LinkAt(m: seq<WaitSync>, i: nat)
    requires i < |m|
    reads m`next, m`prev
  {
    m[i].next == m[After(|m|, i)] && m[i].prev == m[Before(|m|, i)]
  }

  /** The pointers of m form one circular doubly linked ring in the order of m. */
  ghost predicate Linked(m: seq<WaitSync>)
    reads m`next, m`prev
  {
    forall i {:trigger LinkAt(m, i)} :: 0 <= i < |m| ==> LinkAt(m, i)
  }

  /** Pointers of the j-th member once the neighbours of the k-th point past it. */
  ghost predicate GapAt(m: seq<WaitSync>, k: nat, j: nat)
    requires j < |m| && k < |m|
    reads m`next, m`prev
  {
    && m[j].next == m[if j == Before(|m|, k) then After(|m|, k) else After(|m|, j)]
    && m[j].prev == m[if j == After(|m|, k) then Before(|m|, k) else Before(|m|, j)]
  }

  /** The two writes of the removal turn the ring m into the ring without m[k]. */
  lemma CloseGap(m: seq<WaitSync>, k: nat, r: seq<WaitSync>)
    requires k < |m| && r == m[..k] + m[k + 1..]
    requires forall j {:trigger GapAt(m, k, j)} :: 0 <= j < |m| ==> GapAt(m, k, j)
    ensures Linked(r)
  {
    forall i | 0 <= i < |r| ensures LinkAt(r, i) {
      var j := Shift(k, i);
      Neighbours(|m|, k, i);
      assert r[i] == m[j] && GapAt(m, k, j);
      assert r[After(|r|, i)] == m[Shift(k, After(|r|, i))] && r[Before(|r|, i)] == m[Shift(k, Before(|r|, i))];
    }
  }

  lemma RestDistinct(m: seq<WaitSync>, k: nat)
    requires Distinct(m) && k < |m|
    ensures Distinct(m[..k] + m[k + 1..])
  {}

  class SyncList {
    var head: WaitSync?               // threads_base_wait_sync_list
    ghost var members: seq<WaitSync>  // the ring, head first

    ghost predicate Valid()
      reads this, members
    {
      && Distinct(members)
      && Linked(members)
      && head == (if members == [] then null else members[0])
    }

    constructor ()
      ensures Valid() && members == []
    {
      head, members := null, [];
    }

    /** wait_sync.c:64-72 appends: the newcomer is the last to be promoted. */
    method Insert(sync: WaitSync)
      requires Valid() && sync !in members
      modifies this, sync`next, sync`prev, members`next, members`prev
      ensures Valid() && members == old(members) + [sync]
    {
      ghost var m, r := members, members + [sync];
      if head == null {
        sync.next := sync;
        sync.prev := sync;
        head := sync;
      } else {
        assert LinkAt(m, 0);
        sync.prev := head.prev;
        sync.prev.next := sync;
        sync.next := head;
        head.prev := sync;
      }
      members := r;
      forall i | 0 <= i < |r| ensures LinkAt(r, i) {
        assert i < |m| ==> old(LinkAt(m, i)) && r[i] == m[i];
      }
    }

    /** wait_sync.c:110-111: the neighbours of the k-th member point past it. */
    static method Unlink(sync: WaitSync, ghost m: seq<WaitSync>, ghost k: nat)
      requires Distinct(m) && Linked(m) && k < |m| && m[k] == sync
      modifies m`next, m`prev
      ensures Linked(m[..k] + m[k + 1..])
      ensures sync.next == m[After(|m|, k)]
    {
      assert LinkAt(m, k);
      sync.prev.next := sync.next;
      sync.next.prev := sync.prev;
      forall j | 0 <= j < |m| ensures GapAt(m, k, j) {
        assert old(LinkAt(m, j));
      }
      CloseGap(m, k, m[..k] + m[k + 1..]);
    }

    /** wait_sync.c:110-116 removes and, if the manager leaves, returns the sync to promote. */
    method Trim(sync: WaitSync) returns (promoted: WaitSync?)
      requires Valid() && sync in members
      modifies this, members`next, members`prev
      ensures Valid() && members == Without(old(members), sync)
      ensures promoted == (if old(members)[0] == sync && members != [] then members[0] else null)
    {
      ghost var m := members;
      ghost var k :| 0 <= k < |m| && m[k] == sync;
      ghost var r := m[..k] + m[k + 1..];
      WithoutAt(m, k);
      promoted := null;
      Unlink(sync, m, k);
      members := r;
      assert sync == head <==> k == 0;
      if sync == head {
        assert sync == sync.next <==> r == [];
        assert r != [] ==> sync.next == r[0];
        head := if sync == sync.next then null else sync.next;
        if head != null {
          promoted := head;
        }
      }
      RestDistinct(m, k);
    }

    /** threads_base_wait_sync_global_wakeup_mt: the traversal stops after one full turn, having updated
        every member exactly once, in ring order. */
    method GlobalWakeup(code: int) returns (ghost visited: seq<WaitSync>)
      requires Valid()
      modifies members`count, members`status, members`signaling
      ensures Valid() && visited == members == old(members)
      ensures forall s :: s in members ==> Updated(s, code, old(s.count), old(s.status), old(s.signaling))
    {
      visited := [];
      var sync := head;
      while sync != null
        invariant Valid() && members == old(members)
        invariant |visited| <= |members| && visited == members[..|visited|]
        invariant sync == null <==> |visited| == |members|
        invariant sync != null ==> sync == members[|visited|]
        invariant forall i :: 0 <= i < |visited| ==>
                    Updated(members[i], code, old(members[i].count), old(members[i].status), old(members[i].signaling))
        invariant forall i :: |visited| <= i < |members| ==>
                    && members[i].count == old(members[i].count) && members[i].status == old(members[i].status)
                    && members[i].signaling == old(members[i].signaling)
        decreases |members| - |visited|
      {
        ghost var k := |visited|;
        assert LinkAt(members, k);
        var signals := sync.Update(0, code);
        visited := visited + [sync];
        sync := if sync.next == head then null else sync.next;
      }
    }
  }
}
