/** Small vocabulary shared by the models: options, lock moves, duplicate-free sequences, removal, order of arrival, and sums. */
module Base {

  datatype Option<+T> = None | Some(value: T)

  /** How a lock moves when thread t's holding of it changes from `had` to `has`. */
  predicate LockMove(had: bool, has: bool, owner: Option<nat>, owner': Option<nat>, t: nat) {
    || (had == has && owner' == owner)
    || (!had && has && owner == None && owner' == Some(t))
    || (had && !has && owner' == None)
  }

  ghost predicate Distinct<T>(s: seq<T>) {
    forall i, j :: 0 <= i < j < |s| ==> s[i] != s[j]
  }

  /** The sequence without its elements equal to x, order kept. */
  function Without<T(==)>(s: seq<T>, x: T): (r: seq<T>)
    ensures forall i :: 0 <= i < |r| ==> r[i] in s && r[i] != x
    ensures forall i :: 0 <= i < |s| && s[i] != x ==> s[i] in r
    ensures |r| <= |s|
  {
    if s == [] then []
    else if s[0] == x then Without(s[1..], x)
    else [s[0]] + Without(s[1..], x)
  }

  lemma {:induction false} WithoutAbsent<T>(s: seq<T>, x: T)
    requires x !in s
    ensures Without(s, x) == s
  {
    if s != [] {
      WithoutAbsent(s[1..], x);
    }
  }

  lemma {:induction false} WithoutBetween<T>(a: seq<T>, x: T, b: seq<T>)
    requires x !in a && x !in b
    ensures Without(a + ([x] + b), x) == a + b
  {
    var s := a + ([x] + b);
    if a == [] {
      assert s[1..] == b && s[0] == x;
      WithoutAbsent(b, x);
      assert a + b == b;
    } else {
      assert s[1..] == a[1..] + ([x] + b) && s[0] == a[0];
      WithoutBetween(a[1..], x, b);
      assert a + b == [a[0]] + (a[1..] + b);
    }
  }

  /** Removing the element at k from a duplicate-free sequence closes the gap and changes nothing else. */
  lemma {:induction false} WithoutAt<T>(s: seq<T>, k: nat)
    requires Distinct(s) && k < |s|
    ensures Without(s, s[k]) == s[..k] + s[k + 1..]
  {
    WithoutBetween(s[..k], s[k], s[k + 1..]);
    assert s == s[..k] + ([s[k]] + s[k + 1..]);
  }

  lemma {:induction false} WithoutDistinct<T>(s: seq<T>, x: T)
    requires Distinct(s)
    ensures Distinct(Without(s, x))
  {
    if s != [] {
      WithoutDistinct(s[1..], x);
    }
  }

  /** A duplicate-free sequence of numbers below n has at most n elements. */
  lemma {:induction false} DistinctBounded(s: seq<nat>, n: nat)
    requires Distinct(s)
    requires forall i :: 0 <= i < |s| ==> s[i] < n
    ensures |s| <= n
    decreases n
  {
    if n > 0 {
      var top: nat := n - 1;
      WithoutDistinct(s, top);
      DistinctBounded(Without(s, top), top);
      if top in s {
        var k :| 0 <= k < |s| && s[k] == top;
        WithoutAt(s, k);
      } else {
        WithoutAbsent(s, top);
      }
    }
  }

  /** The arrivals that are not gone yet, in order of arrival. */
  function Remaining(arrivals: seq<nat>, gone: set<nat>): (r: seq<nat>) {
    if arrivals == [] then []
    else if arrivals[0] in gone then Remaining(arrivals[1..], gone)
    else [arrivals[0]] + Remaining(arrivals[1..], gone)
  }

  lemma {:induction false} RemainingAppend(arrivals: seq<nat>, gone: set<nat>, t: nat)
    requires t !in gone
    ensures Remaining(arrivals + [t], gone) == Remaining(arrivals, gone) + [t]
  {
    if arrivals == [] {
      assert [t][1..] == [];
    } else {
      RemainingAppend(arrivals[1..], gone, t);
      assert (arrivals + [t])[1..] == arrivals[1..] + [t];
    }
  }

  lemma {:induction false} RemainingRemove(arrivals: seq<nat>, gone: set<nat>, t: nat)
    ensures Remaining(arrivals, gone + {t}) == Without(Remaining(arrivals, gone), t)
  {
    if arrivals != [] {
      RemainingRemove(arrivals[1..], gone, t);
      if arrivals[0] !in gone {
        var rest := Remaining(arrivals[1..], gone);
        assert ([arrivals[0]] + rest)[1..] == rest;
      }
    }
  }

  /** Sum of f over the elements of s. */
  function Sum<T>(s: seq<T>, f: T -> int): (r: int) {
    if s == [] then 0 else f(s[0]) + Sum(s[1..], f)
  }

  lemma {:induction false} SumUpdate<T>(s: seq<T>, i: nat, x: T, f: T -> int)
    requires i < |s|
    ensures Sum(s[i := x], f) == Sum(s, f) - f(s[i]) + f(x)
  {
    if i == 0 {
      assert s[0 := x][1..] == s[1..];
    } else {
      SumUpdate(s[1..], i - 1, x, f);
      assert s[i := x][1..] == s[1..][i - 1 := x];
    }
  }

  lemma {:induction false} SumAtLeast<T>(s: seq<T>, i: nat, f: T -> int)
    requires i < |s|
    requires forall j :: 0 <= j < |s| ==> f(s[j]) >= 0
    ensures 0 <= f(s[i]) <= Sum(s, f)
  {
    if i == 0 {
      SumNonNegative(s[1..], f);
    } else {
      SumAtLeast(s[1..], i - 1, f);
    }
  }

  lemma {:induction false} SumNonNegative<T>(s: seq<T>, f: T -> int)
    requires forall j :: 0 <= j < |s| ==> f(s[j]) >= 0
    ensures Sum(s, f) >= 0
  {
    if s != [] {
      SumNonNegative(s[1..], f);
    }
  }

  lemma {:induction false} SumZero<T>(s: seq<T>, f: T -> int)
    requires forall j :: 0 <= j < |s| ==> f(s[j]) == 0
    ensures Sum(s, f) == 0
  {
    if s != [] {
      SumZero(s[1..], f);
    }
  }

  /** Lowering one element and raising none lowers the sum. */
  lemma {:induction false} SumLower<T>(s: seq<T>, s': seq<T>, f: T -> int, i: nat)
    requires |s| == |s'| && i < |s|
    requires forall j :: 0 <= j < |s| ==> f(s'[j]) <= f(s[j])
    requires f(s'[i]) < f(s[i])
    ensures Sum(s', f) < Sum(s, f)
  {
    if i == 0 {
      SumNotHigher(s[1..], s'[1..], f);
    } else {
      SumLower(s[1..], s'[1..], f, i - 1);
    }
  }

  lemma {:induction false} SumNotHigher<T>(s: seq<T>, s': seq<T>, f: T -> int)
    requires |s| == |s'|
    requires forall j :: 0 <= j < |s| ==> f(s'[j]) <= f(s[j])
    ensures Sum(s', f) <= Sum(s, f)
  {
    if s != [] {
      SumNotHigher(s[1..], s'[1..], f);
    }
  }
}
