/** The waiter queue of the Qthreads condition variable on the heap: stack-allocated waiters chained by
    m_prev from the oldest (tail) to the newest (head), as it stands while m_lock is held. */
module QthreadsQueue {
  import opened Base

  /** thread_cond_waiter_t */
  class Waiter {
    var signaled: bool
    var prev: Waiter?

    constructor ()
      ensures !signaled && prev == null
    {
      signaled, prev := false, null;
    }
  }

  ghost predicate ChainAt(q: seq<Waiter>, i: nat)
    requires i < |q|
    reads q
  {
    !q[i].signaled && q[i].prev == (if i + 1 < |q| then q[i + 1] else null)
  }

  /** Following m_prev from the tail visits q from oldest to newest, all unsignalled. */
  ghost predicate Chained(q: seq<Waiter>)
    reads q
  {
    Distinct(q) && forall i {:trigger ChainAt(q, i)} :: 0 <= i < |q| ==> ChainAt(q, i)
  }

  lemma ChainedTail(q: seq<Waiter>)
    requires Chained(q) && q != []
    ensures Chained(q[1..]) && q[0].prev == (if |q| > 1 then q[1] else null)
  {
    assert ChainAt(q, 0);
    forall i | 0 <= i < |q[1..]| ensures ChainAt(q[1..], i) {
      assert ChainAt(q, i + 1);
    }
  }

  /** thread_internal_cond_t */
  class CondVar {
    var head: Waiter?              // m_waiter_head, the newest
    var tail: Waiter?              // m_waiter_tail, the oldest
    ghost var queue: seq<Waiter>   // unsignalled waiters in order of arrival

    ghost predicate Valid()
      reads this, queue
    {
      && Chained(queue)
      && tail == (if queue == [] then null else queue[0])
      && head == (if queue == [] then null else queue[|queue| - 1])
    }

    /** thread_internal_cond_init */
    constructor ()
      ensures Valid() && queue == []
    {
      head, tail, queue := null, null, [];
    }

    /** The locked part of thread_internal_cond_wait (lines 109-115): the new waiter joins at the end. */
    method Enqueue() returns (waiter: Waiter)
      requires Valid()
      modifies this, queue`prev
      ensures Valid() && fresh(waiter) && queue == old(queue) + [waiter]
    {
      waiter := new Waiter();
      ghost var q := queue;
      if head == null {
        tail := waiter;
      } else {
        head.prev := waiter;
      }
      head := waiter;
      queue := q + [waiter];
      forall i | 0 <= i < |queue| ensures ChainAt(queue, i) {
        if i < |q| {
          assert old(ChainAt(q, i));
        }
      }
    }

    /** thread_internal_cond_signal: exactly the oldest waiter, if any, is released. */
    method Signal()
      requires Valid()
      modifies this, queue`signaled
      ensures Valid()
      ensures queue == (if old(queue) == [] then [] else old(queue)[1..])
      ensures forall i :: 0 <= i < |old(queue)| ==> old(queue)[i].signaled == (i == 0)
    {
      if tail != null {
        ghost var q := queue;
        ChainedTail(q);
        var cur := tail;
        tail := cur.prev;
        cur.signaled := true;
        if tail == null {
          head := null;
        }
        queue := q[1..];
        forall i | 0 <= i < |q| ensures q[i].signaled == (i == 0) {
          assert old(ChainAt(q, i));
        }
        forall i | 0 <= i < |queue| ensures ChainAt(queue, i) {
          assert old(ChainAt(q, i + 1));
        }
      }
    }

    /** thread_internal_cond_broadcast: the loop ends and has released every waiter. */
    method Broadcast()
      requires Valid()
      modifies this, queue`signaled
      ensures Valid() && queue == []
      ensures forall w :: w in old(queue) ==> w.signaled
    {
      ghost var q := queue;
      ghost var k := 0;
      while tail != null
        invariant queue == q == old(queue) && 0 <= k <= |q|
        invariant forall i :: 0 <= i < k ==> q[i].signaled
        invariant Chained(q[k..])
        invariant tail == (if k == |q| then null else q[k])
        decreases |q| - k
      {
        assert q[k..][1..] == q[k + 1..];
        ChainedTail(q[k..]);
        ghost var rest := q[k + 1..];
        var cur := tail;
        tail := cur.prev;
        cur.signaled := true;
        assert cur !in rest;
        k := k + 1;
        assert Chained(rest);
      }
      head := null;
      queue := [];
    }
  }
}
