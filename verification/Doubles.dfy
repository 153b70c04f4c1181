/** IEEE 754 double precision over the reals: which reals are doubles, and rounding to nearest
    (section 4.3.1 of IEEE 754-2019) as a relation.  Nothing here depends on how ties are broken. */
module Doubles {

  const TWO52: int := 4503599627370496
  const TWO53: int := 9007199254740992
  const TWO64: int := 18446744073709551616

  function P(e: nat): (r: int)  // 2 to the e
    ensures r >= 1
  {
    if e == 0 then 1 else 2 * P(e - 1)
  }

  function Abs(r: real): real { if r < 0.0 then -r else r }

  /** r is m times 2 to the e, with a 53-bit significand. */
  ghost predicate DoubleAs(r: real, m: int, e: int) {
    && -TWO53 < m < TWO53 && -1074 <= e <= 971
    && (if e >= 0 then r == m as real * P(e) as real else r * P(-e) as real == m as real)
  }

  ghost predicate Double(r: real) { exists m, e :: DoubleAs(r, m, e) }

  /** d is a double, and no double is nearer to q. */
  ghost predicate Nearest(d: real, q: real) {
    Double(d) && forall x :: Double(x) ==> Abs(d - q) <= Abs(x - q)
  }

  // ---------------------------------------------------------------- powers of two

  lemma {:induction false} PAdd(a: nat, b: nat)
    ensures P(a + b) == P(a) * P(b)
  {
    if a > 0 {
      PAdd(a - 1, b);
    }
  }

  lemma SmallPowers()
    ensures P(0) == 1 && P(1) == 2 && P(2) == 4 && P(3) == 8 && P(4) == 16 && P(5) == 32 && P(6) == 64 && P(7) == 128
    ensures P(8) == 256 && P(9) == 512 && P(10) == 1024 && P(11) == 2048 && P(12) == 4096
  {
    PAdd(4, 4);
    PAdd(8, 4);
  }

  lemma PValues()
    ensures P(19) == 524288 && P(23) == 8388608 && P(29) == 536870912 && P(31) == 2147483648
    ensures P(52) == TWO52 && P(53) == TWO53
  {
    SmallPowers();
    PAdd(12, 7);
    PAdd(12, 11);
    PAdd(19, 10);
    PAdd(29, 2);
    PAdd(29, 23);
  }

  lemma MulMono(a: int, b: int, c: int)
    requires a <= b && 0 <= c
    ensures a * c <= b * c
  {}

  lemma RealMulMono(a: real, b: real, c: real)
    requires a <= b && 0.0 <= c
    ensures a * c <= b * c
  {}

  // ---------------------------------------------------------------- doubles and their nearest

  lemma IntegerIsDouble(n: int)
    requires -TWO53 < n < TWO53
    ensures Double(n as real)
  {
    assert DoubleAs(n as real, n, 0);
  }

  /** An integer with at most 53 significant bits is a double. */
  lemma ScaledIsDouble(n: int, m: int, j: nat)
    requires -TWO53 < m < TWO53 && j <= 971 && n == m * P(j)
    ensures Double(n as real)
  {
    assert DoubleAs(n as real, m, j);
  }

  lemma ExactIfDouble(d: real, q: real)
    requires Nearest(d, q) && Double(q)
    ensures d == q
  {
    assert Abs(d - q) <= Abs(q - q);
  }

  /** Rounding does not cross a double. */
  lemma NotBelow(d: real, q: real, x: real)
    requires Nearest(d, q) && Double(x) && x <= q
    ensures x <= d
  {
    assert Abs(d - q) <= Abs(x - q);
  }

  lemma NotAbove(d: real, q: real, x: real)
    requires Nearest(d, q) && Double(x) && q <= x
    ensures d <= x
  {
    assert Abs(d - q) <= Abs(x - q);
  }

  /** From 2^(52+j) on, doubles are multiples of 2^j. */
  lemma Coarse(d: real, j: nat) returns (k: int)
    requires Double(d) && d >= (TWO52 * P(j)) as real
    ensures d == (k * P(j)) as real
  {
    var m, e :| DoubleAs(d, m, e);
    CoarseExponent(d, m, e, j);
    k := CoarseMultiple(d, m, e, j);
  }

  lemma CoarseMultiple(d: real, m: int, e: nat, j: nat) returns (k: int)
    requires j <= e && d == m as real * P(e) as real
    ensures d == (k * P(j)) as real
  {
    PAdd(j, e - j);
    k := m * P(e - j);
    Regroup(m, P(e - j), P(j), P(e));
  }

  lemma CoarseExponent(d: real, m: int, e: int, j: nat)
    requires DoubleAs(d, m, e) && d >= (TWO52 * P(j)) as real
    ensures e >= j
  {
    if e < 0 {
      TooSmallFraction(d, m, P(-e), P(j));
    } else if e < j {
      PAdd(e, j - e);
      TooSmall(m, P(e), P(j - e), P(j));
    }
  }

  lemma Regroup(m: int, a: int, b: int, c: int)
    requires c == b * a
    ensures m as real * c as real == (m * a * b) as real
  {
    assert m * c == m * a * b;
  }

  lemma TooSmall(m: int, a: int, b: int, c: int)
    requires m < TWO53 && a >= 1 && b >= 2 && c == a * b
    ensures m as real * a as real < (TWO52 * c) as real
  {
    MulMono(m, TWO53 - 1, a);
    MulMono(2, b, a);
    assert m as real * a as real == (m * a) as real;
  }

  lemma TooSmallFraction(d: real, m: int, a: int, c: int)
    requires m < TWO53 && a >= 2 && c >= 1 && d * a as real == m as real
    ensures d < (TWO52 * c) as real
  {
    assert d >= TWO52 as real ==> d * a as real >= TWO52 as real * 2.0;
    assert (TWO52 * c) as real >= TWO52 as real;
  }

  // ---------------------------------------------------------------- rounding is possible

  /** An integer within one half of y is at least as near to y as any other integer. */
  lemma NearestWhole(y: real, m: int, k: int)
    requires m as real - 0.5 <= y <= m as real + 0.5
    ensures Abs(m as real - y) <= Abs(k as real - y)
  {
    assert k < m ==> k as real <= m as real - 1.0;
    assert k > m ==> k as real >= m as real + 1.0;
  }

  lemma SmallDouble(z: real, m: int, b: int)
    requires m < TWO53 && b >= 1 && z * (2.0 * b as real) == m as real
    ensures z < 4503599627370496.0
  {
    assert z >= 4503599627370496.0 ==> z * (2.0 * b as real) >= z * 2.0;
  }

  lemma ScaledWhole(x: real, m: int, a: int, b: int)
    requires x == m as real * a as real
    ensures x * b as real == (m * a * b) as real
  {
    assert x == (m * a) as real;
  }

  lemma ScaledFurther(x: real, m: int, a: int, b: int, c: int)
    requires x * a as real == m as real && c == a * b
    ensures x * c as real == (m * b) as real
  {
    assert x * (a * b) as real == (x * a as real) * b as real;
  }

  lemma ScaledLess(x: real, m: int, a: int, b: int, c: int)
    requires m < TWO53 && b >= 1 && c == 2 * a * b && x * c as real == m as real
    ensures x * a as real < 4503599627370496.0
  {
    assert x * (2 * a * b) as real == (x * a as real) * (2.0 * b as real);
    SmallDouble(x * a as real, m, b);
  }

  lemma PSplit(j: nat, f: nat)
    requires j < f
    ensures P(f) == 2 * P(j) * P(f - j - 1)
  {
    PAdd(j + 1, f - j - 1);
  }

  /** Scaled by P(j), a double is the integer k or lies below 2^52. */
  lemma ScaledDouble(x: real, m: int, e: int, j: nat, c: int) returns (k: int)
    requires DoubleAs(x, m, e) && c == P(j)
    ensures x * c as real == k as real || x * c as real < 4503599627370496.0
  {
    if e >= 0 {
      k := ScaledInteger(x, m, P(e), c);
    } else {
      k := ScaledFraction(x, m, -e, j, P(-e), c);
    }
  }

  lemma ScaledInteger(x: real, m: int, a: int, c: int) returns (k: int)
    requires x == m as real * a as real
    ensures x * c as real == k as real
  {
    k := m * a * c;
    ScaledWhole(x, m, a, c);
  }

  lemma PRatio(f: nat, j: nat)
    requires f <= j
    ensures P(j) == P(f) * P(j - f)
  {
    PAdd(f, j - f);
  }

  lemma ScaledFraction(x: real, m: int, f: nat, j: nat, a: int, c: int) returns (k: int)
    requires m < TWO53 && a == P(f) && c == P(j) && x * a as real == m as real
    ensures x * c as real == k as real || x * c as real < 4503599627370496.0
  {
    if f <= j {
      PRatio(f, j);
      k := ScaledUp(x, m, a, P(j - f), c);
    } else {
      k := 0;
      PSplit(j, f);
      ScaledLess(x, m, c, P(f - j - 1), a);
    }
  }

  lemma ScaledUp(x: real, m: int, a: int, b: int, c: int) returns (k: int)
    requires x * a as real == m as real && c == a * b
    ensures x * c as real == k as real
  {
    k := m * b;
    ScaledFurther(x, m, a, b, c);
  }

  lemma Unscale(a: real, b: real, p: real)
    requires p > 0.0 && Abs(a * p) <= Abs(b * p)
    ensures Abs(a) <= Abs(b)
  {
    AbsScales(a, p);
    AbsScales(b, p);
    if Abs(a) > Abs(b) {
      MultiplyKeepsOrder(Abs(b), Abs(a), p);
    }
  }

  lemma AbsScales(a: real, p: real)
    requires p > 0.0
    ensures Abs(a * p) == Abs(a) * p
  {}

  lemma MultiplyKeepsOrder(a: real, b: real, p: real)
    requires a < b && p > 0.0
    ensures a * p < b * p
  {}

  /** With q scaled to y between 2^52 and 2^53, the integer nearest to y scales back to a double nearest to q. */
  lemma NearerScaled(d: real, x: real, q: real, y: real, p: real, m: int, k: int)
    requires p > 0.0 && y == q * p && 4503599627370496.0 <= y && m as real - 0.5 <= y <= m as real + 0.5
    requires d * p == m as real && (x * p == k as real || x * p < 4503599627370496.0)
    ensures Abs(d - q) <= Abs(x - q)
  {
    NearestPlain(y, m, x * p, k);
    Scaled(d, q, p);
    Scaled(x, q, p);
    Unscale(d - q, x - q, p);
  }

  lemma NearestPlain(y: real, m: int, z: real, k: int)
    requires 4503599627370496.0 <= y && m as real - 0.5 <= y <= m as real + 0.5
    requires z == k as real || z < 4503599627370496.0
    ensures Abs(m as real - y) <= Abs(z - y)
  {
    NearestWhole(y, m, 4503599627370496);
    NearestWhole(y, m, k);
  }

  lemma Scaled(d: real, q: real, p: real)
    ensures (d - q) * p == d * p - q * p
  {}

  /** An integer of at most 2^53 over P(j) is a double. */
  lemma ScaledBackIsDouble(d: real, m: int, j: nat)
    requires 0 < j < 84 && 0 <= m <= TWO53 && d * P(j) as real == m as real
    ensures Double(d)
  {
    if m == TWO53 {
      var h := P(j - 1);
      assert d * (2 * h) as real == (d * h as real) * 2.0;
      assert d * h as real == 4503599627370496.0;
      var e: int := j - 1;
      assert DoubleAs(d, 4503599627370496, -e);
    } else {
      var e: int := j;
      assert DoubleAs(d, m, -e);
    }
  }

  lemma RoundHalf(y: real) returns (m: int)
    requires 4503599627370496.0 <= y < 9007199254740992.0
    ensures m as real - 0.5 <= y <= m as real + 0.5 && 0 <= m <= TWO53
  {
    m := (y + 0.5).Floor;
  }

  /** d is a nearest double to q: q scaled by p is y, and d scaled by p is the integer nearest to y. */
  ghost predicate Rounds(d: real, q: real, y: real, p: real, m: int) {
    && p > 0.0 && y == q * p && d * p == m as real && 4503599627370496.0 <= y
    && m as real - 0.5 <= y <= m as real + 0.5
  }

  lemma RoundsNearer(d: real, q: real, y: real, p: real, m: int, x: real, k: int)
    requires Rounds(d, q, y, p, m) && (x * p == k as real || x * p < 4503599627370496.0)
    ensures Abs(d - q) <= Abs(x - q)
  {
    NearerScaled(d, x, q, y, p, m, k);
  }

  ghost predicate Lands(x: real, p: real) {
    (exists k: int :: HitsInteger(x, p, k)) || x * p < 4503599627370496.0
  }

  ghost predicate HitsInteger(x: real, p: real, k: int) { x * p == k as real }

  lemma AnyLands(x: real, j: nat, c: int)
    requires Double(x) && c == P(j)
    ensures Lands(x, c as real)
  {
    var k := ScaledAny(x, j, c);
    assert HitsInteger(x, c as real, k) || x * c as real < 4503599627370496.0;
  }

  lemma LandsFarther(d: real, q: real, y: real, p: real, m: int, x: real)
    requires Rounds(d, q, y, p, m) && Lands(x, p)
    ensures Abs(d - q) <= Abs(x - q)
  {
    if k: int :| HitsInteger(x, p, k) {
      RoundsNearer(d, q, y, p, m, x, k);
    } else {
      RoundsNearer(d, q, y, p, m, x, 0);
    }
  }

  lemma NearestFromLanding(d: real, q: real, y: real, p: real, m: int)
    requires Rounds(d, q, y, p, m) && Double(d) && forall x :: Double(x) ==> Lands(x, p)
    ensures Nearest(d, q)
  {
    forall x | Double(x) ensures Abs(d - q) <= Abs(x - q) {
      LandsFarther(d, q, y, p, m, x);
    }
  }

  lemma BackIsDouble(d: real, q: real, y: real, p: int, m: int, j: nat)
    requires 0 < j < 84 && p == P(j) && Rounds(d, q, y, p as real, m) && 0 <= m <= TWO53
    ensures Double(d)
  {
    ScaledBackIsDouble(d, m, j);
  }

  lemma Unscaled(m: int, p: int) returns (d: real)
    requires p >= 1
    ensures d * p as real == m as real
  {
    d := m as real / p as real;
  }

  lemma ScaledAny(x: real, j: nat, c: int) returns (k: int)
    requires Double(x) && c == P(j)
    ensures x * c as real == k as real || x * c as real < 4503599627370496.0
  {
    var m, e :| DoubleAs(x, m, e);
    k := ScaledDouble(x, m, e, j, c);
  }

  lemma AllLand(j: nat, c: int)
    requires c == P(j)
    ensures forall x :: Double(x) ==> Lands(x, c as real)
  {
    forall x | Double(x) ensures Lands(x, c as real) {
      AnyLands(x, j, c);
    }
  }

  lemma DoubleIsNearest(q: real)
    requires Double(q)
    ensures Nearest(q, q)
  {}

  lemma FindCoarse(n: int) returns (j: nat)
    requires TWO53 <= n <= TWO64
    ensures 1 <= j <= 12 && TWO52 * P(j) <= n < TWO53 * P(j)
  {
    SmallPowers();
    j := 1;
    while n >= TWO53 * P(j)
      invariant 1 <= j <= 12 && TWO52 * P(j) <= n
      decreases 12 - j
    {
      assert j == 12 ==> n >= TWO53 * 4096;
      j := j + 1;
    }
  }

  lemma CoarseLands(x: real, j: nat, c: int, p: real)
    requires Double(x) && c == P(j) && p * c as real == 1.0
    ensures Lands(x, p)
  {
    if x >= (TWO52 * c) as real {
      var k := Coarse(x, j);
      TimesInverse(k, c, p);
      assert HitsInteger(x, p, k);
    } else {
      DownScaled(x, c, p);
    }
  }

  lemma TimesInverse(k: int, c: int, p: real)
    requires p * c as real == 1.0
    ensures (k * c) as real * p == k as real
  {
    assert (k * c) as real == k as real * c as real;
    Reassociate(k as real, c as real, p);
  }

  lemma Reassociate(a: real, b: real, c: real)
    ensures a * b * c == a * (c * b)
  {}

  lemma DownScaled(x: real, c: int, p: real)
    requires c >= 1 && p * c as real == 1.0 && x < (TWO52 * c) as real
    ensures x * p < 4503599627370496.0
  {
    ScaleBack(x, c as real, p);
    assert (TWO52 * c) as real == TWO52 as real * c as real;
    CancelLess(x * p, TWO52 as real, c as real);
  }

  lemma ScaleBack(x: real, c: real, p: real)
    requires p * c == 1.0
    ensures x * p * c == x
  {
    assert x * p * c == x * (p * c);
  }

  lemma ScaledRange(n: int, c: int, y: real)
    requires c >= 1 && y * c as real == n as real && TWO52 * c <= n < TWO53 * c
    ensures 4503599627370496.0 <= y < 9007199254740992.0
  {
    assert (TWO52 * c) as real == TWO52 as real * c as real && (TWO53 * c) as real == TWO53 as real * c as real;
    CancelLess(y, TWO53 as real, c as real);
    CancelAtMost(TWO52 as real, y, c as real);
  }

  lemma CancelLess(a: real, b: real, c: real)
    requires c > 0.0 && a * c < b * c
    ensures a < b
  {
    if a >= b {
      RealMulMono(b, a, c);
    }
  }

  lemma CancelAtMost(a: real, b: real, c: real)
    requires c > 0.0 && a * c <= b * c
    ensures a <= b
  {
    if a > b {
      MultiplyKeepsOrder(b, a, c);
    }
  }

  lemma CoarseCandidate(n: int, c: int, p: real) returns (y: real, m: int)
    requires c >= 1 && p > 0.0 && p * c as real == 1.0 && TWO52 * c <= n < TWO53 * c
    ensures Rounds((m * c) as real, n as real, y, p, m) && 0 <= m <= TWO53
  {
    y := n as real * p;
    ScaleBack(n as real, c as real, p);
    ScaledRange(n, c, y);
    m := RoundHalf(y);
    TimesInverse(m, c, p);
  }

  /** Every integer from 0 to 2^64 has a nearest double. */
  lemma IntegerRounds(n: int) returns (d: real)
    requires 0 <= n <= TWO64
    ensures Nearest(d, n as real)
  {
    if n < TWO53 {
      d := n as real;
      IntegerIsDouble(n);
      DoubleIsNearest(d);
    } else {
      var j := FindCoarse(n);
      d := CoarseRounds(n, j, P(j));
    }
  }

  lemma Reciprocal(c: int) returns (p: real)
    requires c >= 1
    ensures p > 0.0 && p * c as real == 1.0
  {
    p := 1.0 / c as real;
  }

  lemma CoarseRounds(n: int, j: nat, c: int) returns (d: real)
    requires 1 <= j <= 12 && c == P(j) && TWO52 * c <= n < TWO53 * c
    ensures Nearest(d, n as real)
  {
    var p := Reciprocal(c);
    var y, m := CoarseCandidate(n, c, p);
    d := (m * c) as real;
    if m == TWO53 {
      assert P(j + 1) == 2 * c;
      ScaledIsDouble(m * c, TWO52, j + 1);
    } else {
      ScaledIsDouble(m * c, m, j);
    }
    forall x | Double(x) ensures Lands(x, p) {
      CoarseLands(x, j, c, p);
    }
    NearestFromLanding(d, n as real, y, p, m);
  }
}
