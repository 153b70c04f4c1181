/** The seconds/nanoseconds arithmetic of threads_pthreads_yield_init in double precision, for every
    64-bit number of nanoseconds: when the split is exact, and the first value for which it is not. */
module NanosleepSplit {
  import opened Doubles

  const GIGA: int := 1000000000
  const TWO33: int := 8589934592
  const TWO62: int := 4611686018427387904
  const TWO63: int := 9223372036854775808

  /** Lines 60-61 for the value n, every operation rounded; conversions to integers truncate. */
  ghost predicate Splits(n: nat, converted: real, quotient: real, sec: int, product: real, nsec: int) {
    && Nearest(converted, n as real)
    && Nearest(quotient, converted / GIGA as real)
    && sec == quotient.Floor
    && Nearest(product, sec as real * GIGA as real)
    && nsec == n - product.Floor
  }

  /** Line 54: tv_sec * 1E9 + tv_nsec, both operations rounded, truncated to an integer. */
  ghost predicate Joins(sec: int, nsec: int, product: real, sum: real, n: int) {
    Nearest(product, sec as real * GIGA as real) && Nearest(sum, product + nsec as real) && n == sum.Floor
  }

  /** The split is integer division with remainder. */
  predicate Exact(n: nat, sec: int, nsec: int) { sec == n / GIGA && nsec == n % GIGA }

  /** The start of the k-th second is a double: below 2^62 nanoseconds always, further on every second
      or every fourth time. */
  predicate SecondFits(k: int) { k * GIGA < TWO62 || (k * GIGA < TWO63 && k % 2 == 0) || k % 4 == 0 }

  /** What decides, given c, the value n as converted to a double: the conversion stays within the second,
      the start of the second is a double, and from 2^33 seconds on c is not the last multiple of 512
      before the next second. */
  predicate Safe(n: nat, c: int) {
    var k := n / GIGA;
    c / GIGA == k && SecondFits(k) && !(k >= TWO33 && c == (k + 1) * GIGA - 512)
  }

  // ---------------------------------------------------------------- seconds that are doubles

  lemma SecondIsDouble(k: int)
    requires 0 <= k && k * GIGA < TWO64 && SecondFits(k)
    ensures Double((k * GIGA) as real)
  {
    SmallPowers();
    if k * GIGA < TWO62 {
      ScaledIsDouble(k * GIGA, k * 1953125, 9);
    } else if k % 2 == 0 && k * GIGA < TWO63 {
      ScaledIsDouble(k * GIGA, k / 2 * 1953125, 10);
    } else {
      ScaledIsDouble(k * GIGA, k / 4 * 1953125, 11);
    }
  }

  lemma DoubleSecondFits(k: int)
    requires 0 <= k && Double((k * GIGA) as real)
    ensures SecondFits(k)
  {
    SmallPowers();
    if k * GIGA >= TWO63 {
      var a := Coarse((k * GIGA) as real, 11);
      QuarterSecond(k, a);
    } else if k * GIGA >= TWO62 {
      var a := Coarse((k * GIGA) as real, 10);
      HalfSecond(k, a);
    }
  }

  lemma QuarterSecond(k: int, a: int)
    requires k * GIGA == a * 2048
    ensures k % 4 == 0
  {
    assert k == 4 * (a - 488281 * k);
  }

  lemma HalfSecond(k: int, a: int)
    requires k * GIGA == a * 1024
    ensures k % 2 == 0
  {
    assert k == 2 * (a - 976562 * k);
  }

  // ---------------------------------------------------------------- the conversion of n

  /** A converted value is an integer of at most 2^64. */
  lemma ConvertedIsWhole(n: nat, converted: real) returns (c: int)
    requires n < TWO64 && Nearest(converted, n as real)
    ensures converted == c as real && 0 <= c <= TWO64 && converted.Floor == c
  {
    SmallPowers();
    if n < TWO53 {
      IntegerIsDouble(n);
      ExactIfDouble(converted, n as real);
      c := n;
    } else {
      ScaledIsDouble(TWO53, TWO52, 1);
      ScaledIsDouble(TWO64, TWO52, 12);
      NotBelow(converted, n as real, TWO53 as real);
      NotAbove(converted, n as real, TWO64 as real);
      var k := Coarse(converted, 1);
      c := 2 * k;
    }
  }

  // ---------------------------------------------------------------- the quotient

  /** The smallest power of two at least k + 1 seconds, and at least 2^24. */
  lemma FindLevel(k: int) returns (i: nat)
    requires 0 <= k <= TWO64 / GIGA
    ensures i <= 11 && k + 1 <= P(24 + i) && (i > 0 ==> k >= P(23 + i))
  {
    PValues();
    i := 0;
    while k + 1 > P(24 + i)
      invariant i <= 11 && (i > 0 ==> k >= P(23 + i))
      decreases 11 - i
    {
      if i == 11 {
        SmallPowers();
        PAdd(23, 12);
      }
      i := i + 1;
    }
  }

  /** At distance 2^i / 2^29 below k + 1 there is a double. */
  lemma JustBelow(k: int, i: nat)
    requires 0 <= k && i <= 11 && k + 1 <= P(24 + i)
    ensures Double((k + 1) as real - P(i) as real / 536870912.0)
  {
    PValues();
    PAdd(i, 29 - i);
    PAdd(24 + i, 29 - i);
    MulMono(k + 1, P(24 + i), P(29 - i));
    BelowIsDouble(k + 1, P(i), P(29 - i), 29 - i);
  }

  lemma BelowIsDouble(a: int, b: int, p: int, e: int)
    requires 1 <= a && 0 < e <= 29 && p == P(e) && b * p == 536870912 && a * p <= TWO53
    ensures Double(a as real - b as real / 536870912.0)
  {
    var r := a as real - b as real / 536870912.0;
    BelowTimes(a, b, p, r);
    assert DoubleAs(r, a * p - 1, -e);
  }

  lemma BelowTimes(a: int, b: int, p: int, r: real)
    requires b * p == 536870912 && r == a as real - b as real / 536870912.0
    ensures r * p as real == (a * p - 1) as real
  {
    assert (b * p) as real == b as real * p as real;
    assert r * p as real == a as real * p as real - b as real * p as real / 536870912.0;
    assert (a * p) as real == a as real * p as real;
  }

  /** If c is at least 2^i below the next second, truncating the rounded quotient is integer division. */
  lemma LevelTruncates(c: int, k: int, i: nat, d: real)
    requires 0 <= c && k == c / GIGA && i <= 11 && k + 1 <= P(24 + i) && (k + 1) * GIGA - c >= P(i)
    requires k < TWO53 && Nearest(d, c as real / GIGA as real)
    ensures d.Floor == k
  {
    var q := c as real / GIGA as real;
    QuotientBounds(c, k, P(i), q);
    IntegerIsDouble(k);
    NotBelow(d, q, k as real);
    JustBelow(k, i);
    assert Abs(d - q) <= Abs((k + 1) as real - P(i) as real / 536870912.0 - q);
    BelowNext(d, q, (k + 1) as real, P(i) as real);
  }

  lemma QuotientBounds(c: int, k: int, u: int, q: real)
    requires k == c / GIGA && (k + 1) * GIGA - c >= u && q == c as real / GIGA as real
    ensures k as real <= q && u as real / 1000000000.0 <= (k + 1) as real - q
  {
    assert q * 1000000000.0 == c as real;
    assert k * GIGA <= c <= (k + 1) * GIGA - u;
    assert (k * GIGA) as real == k as real * 1000000000.0 && ((k + 1) * GIGA) as real == (k + 1) as real * 1000000000.0;
  }

  /** If a double below b is as near to q as that, the rounded value stays below b. */
  lemma BelowNext(d: real, q: real, b: real, u: real)
    requires u > 0.0 && u / 1000000000.0 <= b - q && Abs(d - q) <= Abs(b - u / 536870912.0 - q)
    ensures d < b
  {}

  /** A converted value short of the next second falls short by at least its own unit in the last place,
      except for the one value that Safe excludes. */
  lemma UnitBelowNext(n: nat, c: int, i: nat)
    requires n < TWO64 && Double(c as real) && Safe(n, c)
    requires i <= 11 && (i > 0 ==> n / GIGA >= P(23 + i))
    ensures (n / GIGA + 1) * GIGA - c >= P(i)
  {
    var k := n / GIGA;
    if i > 0 {
      PValues();
      PAdd(23, i);
      FarSecond(k, P(i));
      var a := Coarse(c as real, i);
      if i <= 9 {
        SmallPowers();
        PAdd(i, 9 - i);
        LowLevel(k, c, a, P(i), P(9 - i));
      } else {
        HighLevel(k, c, a, i);
      }
    }
  }

  lemma FarSecond(k: int, u: int)
    requires k >= 8388608 * u && u >= 1
    ensures k * GIGA >= TWO52 * u
  {}

  lemma LowLevel(k: int, c: int, a: int, u: int, v: int)
    requires u >= 1 && u * v == 512 && c == a * u && c < (k + 1) * GIGA
    ensures (k + 1) * GIGA - c >= u
  {
    var b := (k + 1) * 1953125 * v;
    assert (k + 1) * GIGA == (k + 1) * 1953125 * (u * v) == b * u;
    if b - a <= 0 {
      MulMono(b, a, u);
    } else {
      MulMono(1, b - a, u);
    }
  }

  lemma HighLevel(k: int, c: int, a: int, i: nat)
    requires 10 <= i <= 11 && k >= P(23 + i) && 0 <= k && k * GIGA < TWO64 && SecondFits(k)
    requires c == a * P(i) && c < (k + 1) * GIGA && c != (k + 1) * GIGA - 512
    ensures (k + 1) * GIGA - c >= P(i)
  {
    SmallPowers();
    PValues();
    PAdd(23, i);
    SecondIsDouble(k);
    FarSecond(k, P(i));
    var b := Coarse((k * GIGA) as real, i);
    HighGap(k, c, a, b, P(i));
  }

  lemma HighGap(k: int, c: int, a: int, b: int, u: int)
    requires (u == 1024 || u == 2048) && c == a * u && k * GIGA == b * u
    requires c < (k + 1) * GIGA && c != (k + 1) * GIGA - 512
    ensures (k + 1) * GIGA - c >= u
  {
    if u == 1024 {
      assert (k + 1) * GIGA - c - 512 == 1024 * (b - a + 976562);
    } else {
      assert (k + 1) * GIGA - c - 512 == 2048 * (b - a + 488281);
    }
  }

  /** Truncating the rounded quotient of a safe value is integer division. */
  lemma QuotientTruncates(n: nat, c: int, d: real)
    requires n < TWO64 && 0 <= c <= TWO64 && Double(c as real) && Safe(n, c) && Nearest(d, c as real / GIGA as real)
    ensures d.Floor == n / GIGA
  {
    var i := FindLevel(n / GIGA);
    UnitBelowNext(n, c, i);
    LevelTruncates(c, n / GIGA, i, d);
  }

  /** The value that Safe excludes rounds up to the next second. */
  lemma QuotientRoundsUp(k: int, c: int, d: real)
    requires TWO33 <= k <= TWO64 / GIGA && c == (k + 1) * GIGA - 512 && Nearest(d, c as real / GIGA as real)
    ensures d >= (k + 1) as real
  {
    var q := c as real / GIGA as real;
    assert ((k + 1) * GIGA - 512) as real == (k + 1) as real * 1000000000.0 - 512.0;
    assert q == (k + 1) as real - 0.000000512;
    IntegerIsDouble(k);
    IntegerIsDouble(k + 1);
    NotBelow(d, q, k as real);
    PValues();
    var a := ScaledAny(d, 19, 524288);
    assert d * 524288.0 == a as real;
    assert Abs(d - q) <= Abs((k + 1) as real - q);
    assert d >= (k + 1) as real || a <= (k + 1) * 524288 - 1;
  }

  // ---------------------------------------------------------------- the split

  /** For every 64-bit value the split is exact if and only if the converted value is safe. */
  lemma SplitExactIff(n: nat, converted: real, quotient: real, sec: int, product: real, nsec: int)
    requires n < TWO64 && Splits(n, converted, quotient, sec, product, nsec)
    ensures Exact(n, sec, nsec) <==> Safe(n, converted.Floor)
  {
    var c := ConvertedIsWhole(n, converted);
    if Safe(n, c) {
      QuotientTruncates(n, c, quotient);
      SecondIsDouble(n / GIGA);
      ProductIsExact(sec, product);
    }
    if Exact(n, sec, nsec) {
      ExactIsSafe(n, c, quotient, product);
    }
  }

  lemma ProductIsExact(sec: int, product: real)
    requires Nearest(product, sec as real * GIGA as real) && Double((sec * GIGA) as real)
    ensures product == (sec * GIGA) as real
  {
    assert (sec * GIGA) as real == sec as real * GIGA as real;
    ExactIfDouble(product, (sec * GIGA) as real);
  }

  lemma ExactIsSafe(n: nat, c: int, quotient: real, product: real)
    requires n < TWO64 && 0 <= c <= TWO64 && Nearest(c as real, n as real)
    requires Nearest(quotient, c as real / GIGA as real) && quotient.Floor == n / GIGA
    requires Nearest(product, (n / GIGA) as real * GIGA as real) && product.Floor == n / GIGA * GIGA
    ensures Safe(n, c)
  {
    var k := n / GIGA;
    ProductIsSecond(k, product);
    DoubleSecondFits(k);
    NotBelow(c as real, n as real, (k * GIGA) as real);
    if c >= (k + 1) * GIGA {
      ReachesNext(c, k, quotient);
    } else if k >= TWO33 && c == (k + 1) * GIGA - 512 {
      QuotientRoundsUp(k, c, quotient);
    }
  }

  lemma ReachesNext(c: int, k: int, quotient: real)
    requires 0 <= k < TWO53 - 1 && c >= (k + 1) * GIGA && Nearest(quotient, c as real / GIGA as real)
    ensures quotient >= (k + 1) as real
  {
    assert ((k + 1) * GIGA) as real == (k + 1) as real * 1000000000.0;
    IntegerIsDouble(k + 1);
    NotBelow(quotient, c as real / GIGA as real, (k + 1) as real);
  }

  /** If truncating the rounded product gives the start of the second, that is a double. */
  lemma ProductIsSecond(k: int, product: real)
    requires 0 <= k && k * GIGA < TWO64 && Nearest(product, k as real * GIGA as real) && product.Floor == k * GIGA
    ensures Double((k * GIGA) as real)
  {
    assert (k * GIGA) as real == k as real * GIGA as real;
    if k * GIGA < TWO53 {
      IntegerIsDouble(k * GIGA);
    } else {
      SmallPowers();
      var a := Coarse(product, 0);
    }
  }

  // ---------------------------------------------------------------- consequences

  /** Up to 9007199999999998 the split is exact however ties are broken. */
  lemma SplitIsExact(n: nat, converted: real, quotient: real, sec: int, product: real, nsec: int)
    requires n <= 9007199999999998 && Splits(n, converted, quotient, sec, product, nsec)
    ensures sec == n / GIGA && nsec == n % GIGA
    ensures 0 <= nsec < GIGA && sec * GIGA + nsec == n
  {
    SplitExactIff(n, converted, quotient, sec, product, nsec);
    ConvertedIsSafe(n, converted);
  }

  lemma ConvertedIsSafe(n: nat, converted: real)
    requires n <= 9007199999999998 && Nearest(converted, n as real)
    ensures Safe(n, converted.Floor)
  {
    if n < TWO53 {
      IntegerIsDouble(n);
      ExactIfDouble(converted, n as real);
      assert converted.Floor == n;
    } else {
      SameDoubles(n, converted);
      assert 9007199254740992 <= converted.Floor <= 9007199999999998;
    }
    SafeBand(n, converted.Floor);
  }

  lemma SameDoubles(n: nat, converted: real)
    requires TWO53 <= n <= 9007199999999998 && Nearest(converted, n as real)
    ensures 9007199254740992.0 <= converted <= 9007199999999998.0
  {
    SmallPowers();
    ScaledIsDouble(TWO53, TWO52, 1);
    NotBelow(converted, n as real, 9007199254740992.0);
    ScaledIsDouble(9007199999999998, 4503599999999999, 1);
    NotAbove(converted, n as real, 9007199999999998.0);
  }

  lemma SafeBand(n: nat, c: int)
    requires n <= 9007199999999998 && (c == n || (TWO53 <= n && TWO53 <= c <= 9007199999999998))
    ensures Safe(n, c)
  {
    assert n / GIGA * GIGA <= n;
  }

  /** Below 2^62 the split is exact for every value at least 257 nanoseconds before the next second. */
  lemma SplitIsSafe(n: nat, converted: real, quotient: real, sec: int, product: real, nsec: int)
    requires n < TWO62 && n % GIGA + 256 < GIGA && Splits(n, converted, quotient, sec, product, nsec)
    ensures Exact(n, sec, nsec)
  {
    var k := n / GIGA;
    SplitExactIff(n, converted, quotient, sec, product, nsec);
    SecondIsDouble(k);
    NotBelow(converted, n as real, (k * GIGA) as real);
    ConvertedNear(n, converted);
  }

  lemma ConvertedNear(n: nat, converted: real)
    requires n < TWO62 && Nearest(converted, n as real)
    ensures converted <= (n + 256) as real
  {
    SmallPowers();
    var a := (n + 256) / 512;
    if a < TWO53 {
      ScaledIsDouble(a * 512, a, 9);
    } else {
      ScaledIsDouble(a * 512, TWO52, 10);
    }
    assert Abs(converted - n as real) <= Abs((a * 512) as real - n as real);
  }

  /** Where the seconds alone are exact, the join is exact iff the total is a double. */
  lemma JoinExactIff(sec: nat, nsec: nat, product: real, sum: real, n: int)
    requires sec * GIGA + nsec < TWO64 && SecondFits(sec) && Joins(sec, nsec, product, sum, n)
    ensures n == sec * GIGA + nsec <==> Double((sec * GIGA + nsec) as real)
  {
    var total := sec * GIGA + nsec;
    SecondIsDouble(sec);
    ProductIsExact(sec, product);
    assert product + nsec as real == total as real;
    var c := ConvertedIsWhole(total, sum);
    if Double(total as real) {
      ExactIfDouble(sum, total as real);
    }
  }

  /** The join is exact for all parts that together stay below 2^53 nanoseconds. */
  lemma JoinIsExact(sec: nat, nsec: nat, product: real, sum: real, n: int)
    requires sec * GIGA + nsec < TWO53 && Joins(sec, nsec, product, sum, n)
    ensures n == sec * GIGA + nsec
  {
    IntegerIsDouble(sec * GIGA + nsec);
    JoinExactIff(sec, nsec, product, sum, n);
  }

  /** Joining the parts of a value gives the value back. */
  lemma JoinUndoesSplit(n: nat, converted: real, quotient: real, sec: int, product: real, nsec: int, p: real, sum: real, n': int)
    requires n < TWO53 && Splits(n, converted, quotient, sec, product, nsec) && Joins(sec, nsec, p, sum, n')
    ensures n' == n
  {
    SplitIsExact(n, converted, quotient, sec, product, nsec);
    JoinIsExact(sec, nsec, p, sum, n');
  }

  /** Splitting what was joined gives the parts back, if the nanoseconds are less than a second. */
  lemma SplitUndoesJoin(sec: nat, nsec: nat, p: real, sum: real, n: nat,
                        converted: real, quotient: real, sec': int, product: real, nsec': int)
    requires sec * GIGA + nsec < TWO53 && nsec < GIGA && Joins(sec, nsec, p, sum, n)
    requires Splits(n, converted, quotient, sec', product, nsec')
    ensures sec' == sec && nsec' == nsec
  {
    JoinIsExact(sec, nsec, p, sum, n);
    SplitIsExact(n, converted, quotient, sec', product, nsec');
    QuotientUnique(n, sec, nsec);
  }

  lemma QuotientUnique(n: int, sec: int, nsec: int)
    requires n == sec * GIGA + nsec && 0 <= nsec < GIGA
    ensures n / GIGA == sec && n % GIGA == nsec
  {}

  // ---------------------------------------------------------------- every value can be split

  /** The scale at which c / 1E9 has a 53-bit integer part. */
  lemma FindScale(c: nat) returns (j: nat)
    requires 0 < c <= TWO64
    ensures 0 < j < 84 && TWO52 * GIGA <= c * P(j) < TWO53 * GIGA
  {
    j := 0;
    while c * P(j) < TWO52 * GIGA
      invariant c * P(j) < TWO53 * GIGA
      decreases TWO52 * GIGA - c * P(j)
    {
      assert c * P(j + 1) == 2 * (c * P(j));
      j := j + 1;
    }
    if j >= 84 {
      LargePower(j);
      MulMono(1, c, P(j));
    }
  }

  lemma LargePower(j: nat)
    requires j >= 84
    ensures P(j) >= TWO53 * GIGA
  {
    PValues();
    PAdd(53, 31);
    PAdd(84, j - 84);
    MulMono(1, P(j - 84), P(84));
  }

  lemma ScaleQuotient(c: nat, p: int, q: real, y: real)
    requires p >= 1 && q == c as real / GIGA as real && y == (c * p) as real / GIGA as real
    requires TWO52 * GIGA <= c * p < TWO53 * GIGA
    ensures y == q * p as real && 4503599627370496.0 <= y < 9007199254740992.0
  {
    assert (c * p) as real == c as real * p as real;
    assert y * 1000000000.0 == (c * p) as real;
  }

  /** The quotient of the split has a nearest double. */
  lemma QuotientRounds(c: nat) returns (d: real)
    requires c <= TWO64
    ensures Nearest(d, c as real / GIGA as real)
  {
    if c == 0 {
      d := 0.0;
      IntegerIsDouble(0);
    } else {
      var j := FindScale(c);
      d := RoundAt(c, j, P(j), c as real / GIGA as real);
    }
  }

  lemma RoundAt(c: nat, j: nat, p: int, q: real) returns (d: real)
    requires 0 < j < 84 && p == P(j) && TWO52 * GIGA <= c * p < TWO53 * GIGA && q == c as real / GIGA as real
    ensures Nearest(d, q)
  {
    var y, m;
    y, m, d := Candidate(c, p, q);
    BackIsDouble(d, q, y, p, m, j);
    AllLand(j, p);
    NearestFromLanding(d, q, y, p as real, m);
  }

  /** The quotient q scaled by p to y, the integer m nearest to y, and d, which is m scaled back. */
  lemma Candidate(c: nat, p: int, q: real) returns (y: real, m: int, d: real)
    requires p >= 1 && q == c as real / GIGA as real && TWO52 * GIGA <= c * p < TWO53 * GIGA
    ensures Rounds(d, q, y, p as real, m) && 0 <= m <= TWO53
  {
    y := (c * p) as real / GIGA as real;
    ScaleQuotient(c, p, q, y);
    m := RoundHalf(y);
    d := Unscaled(m, p);
  }

  /** Every 64-bit value can be split, so none of the lemmas above is vacuous. */
  lemma SplitExists(n: nat) returns (converted: real, quotient: real, sec: int, product: real, nsec: int)
    requires n < TWO64
    ensures Splits(n, converted, quotient, sec, product, nsec)
  {
    converted := IntegerRounds(n);
    var c := ConvertedIsWhole(n, converted);
    quotient := QuotientRounds(c);
    sec := quotient.Floor;
    QuotientRange(c, quotient);
    product := IntegerRounds(sec * GIGA);
    assert (sec * GIGA) as real == sec as real * GIGA as real;
    nsec := n - product.Floor;
  }

  lemma QuotientRange(c: nat, d: real)
    requires c <= TWO64 && Nearest(d, c as real / GIGA as real)
    ensures 0 <= d.Floor && d.Floor * GIGA <= TWO64
  {
    var top := 18446744073;
    IntegerIsDouble(0);
    NotBelow(d, c as real / GIGA as real, 0.0);
    SmallPowers();
    PValues();
    PAdd(23, 12);
    JustBelow(top, 11);
    NotAbove(d, c as real / GIGA as real, 18446744074.0 - 2048.0 / 536870912.0);
  }

  // ---------------------------------------------------------------- the first value that fails

  /** r has an even 53-bit significand: the choice of roundTiesToEven between two nearest doubles. */
  ghost predicate Even(r: real) {
    exists m, e :: DoubleAs(r, m, e) && TWO52 <= m && m % 2 == 0
  }

  /** Round to nearest, ties to even (section 4.3.1 of IEEE 754-2019). */
  ghost predicate TiesToEven(d: real, q: real) {
    Nearest(d, q) && (Even(d) || forall x :: Nearest(x, q) ==> x == d)
  }

  /** 9007199999999999 lies halfway between two doubles; the even one is the next full second. */
  lemma FirstFailureRoundsUp(converted: real)
    ensures TiesToEven(converted, 9007199999999999.0) <==> converted == 9007200000000000.0
  {
    SmallPowers();
    var q, up, down := 9007199999999999.0, 9007200000000000.0, 9007199999999998.0;
    ScaledIsDouble(9007200000000000, 4503600000000000, 1);
    ScaledIsDouble(9007199999999998, 4503599999999999, 1);
    forall x | Double(x) ensures Abs(x - q) >= 1.0 {
      HalfwayGap(x);
    }
    assert Nearest(up, q) && Nearest(down, q);
    assert DoubleAs(up, 4503600000000000, 1) && Even(up);
    if TiesToEven(converted, q) && converted != up {
      assert Abs(converted - q) <= Abs(up - q);
      var a := Coarse(converted, 1);
      assert converted == down;
      NotEven();
    }
  }

  lemma HalfwayGap(x: real)
    requires Double(x)
    ensures Abs(x - 9007199999999999.0) >= 1.0
  {
    SmallPowers();
    if x >= TWO53 as real {
      var a := Coarse(x, 1);
      assert 2 * a <= 9007199999999998 || 2 * a >= 9007200000000000;
    }
  }

  lemma NotEven()
    ensures !Even(9007199999999998.0)
  {
    if m, e :| DoubleAs(9007199999999998.0, m, e) && TWO52 <= m && m % 2 == 0 {
      SmallPowers();
      CoarseExponent(9007199999999998.0, m, e, 1);
      if e >= 2 {
        PAdd(2, e - 2);
        MulMono(1, P(e - 2), 4);
        MulMono(4, P(e), m);
        assert m as real * P(e) as real == (m * P(e)) as real;
      }
    }
  }

  /** The bound of SplitIsExact is sharp: with ties to even the very next value is split into one second
      too many and -1 nanoseconds. */
  lemma FirstFailure(converted: real, quotient: real, sec: int, product: real, nsec: int)
    requires Splits(9007199999999999, converted, quotient, sec, product, nsec) && TiesToEven(converted, 9007199999999999.0)
    ensures sec == 9007200 && nsec == -1
  {
    FirstFailureRoundsUp(converted);
    IntegerIsDouble(9007200);
    assert converted / GIGA as real == 9007200.0;
    ExactIfDouble(quotient, 9007200.0);
    SmallPowers();
    ScaledIsDouble(9007200000000000, 4503600000000000, 1);
    ProductIsExact(sec, product);
  }

  /** That failure does occur. */
  lemma FirstFailureIsReal()
    ensures TiesToEven(9007200000000000.0, 9007199999999999.0)
    ensures Splits(9007199999999999, 9007200000000000.0, 9007200.0, 9007200, 9007200000000000.0, -1)
  {
    FirstFailureRoundsUp(9007200000000000.0);
    IntegerIsDouble(9007200);
    DoubleIsNearest(9007200.0);
    DoubleIsNearest(9007200000000000.0);
    assert 9007200000000000.0 / GIGA as real == 9007200.0;
  }
}
