/**
 The amount on the wire: the gateway divides the integer amount by 100 in binary64, prints the
 shortest decimal that reads back as that double, and the worker reads the decimal exactly.
 Rounding follows sections 4.3 and 5.12.2 of IEEE 754-2019; exponents are unbounded here,
 which makes no difference for amounts of money.
 */
module Amounts {

  const TWO52: int := 0x10_0000_0000_0000
  const TWO53: int := 0x20_0000_0000_0000
  const FIFTEEN_DIGITS: int := 1_000_000_000_000_000
  /** 100 * 2^46 hundredths: up to 2^46 doubles are at most 1/128 apart. */
  const LAST_SAFE_AMOUNT: int := 7_036_874_417_766_400

  ghost function Pow2(e: int): real
    decreases if e < 0 then -e else e
  {
    if e == 0 then 1.0 else if e > 0 then 2.0 * Pow2(e - 1) else Pow2(e + 1) / 2.0
  }

  lemma {:induction false} Pow2Step(e: int)
    ensures Pow2(e + 1) == 2.0 * Pow2(e)
    ensures Pow2(e) > 0.0
    decreases if e < 0 then -e else e
  {
    if e > 0 { Pow2Step(e - 1); } else if e < 0 { Pow2Step(e + 1); }
  }

  ghost function Pow10(q: int): real
    decreases if q < 0 then -q else q
  {
    if q == 0 then 1.0 else if q > 0 then 10.0 * Pow10(q - 1) else Pow10(q + 1) / 10.0
  }

  function Power10(k: nat): nat {
    if k == 0 then 1 else 10 * Power10(k - 1)
  }

  ghost function Scaled(m: nat, e: int): real {
    m as real * Pow2(e)
  }

  ghost function Decimal(p: nat, q: int): real {
    p as real * Pow10(q)
  }

  ghost predicate IsBinary64(f: real) {
    exists m: nat, e: int :: m < TWO53 && f == Scaled(m, e)
  }

  ghost function Distance(a: real, b: real): real {
    if a < b then b - a else a - b
  }

  /** f is a binary64 number closest to x. */
  ghost predicate Nearest(x: real, f: real) {
    IsBinary64(f) && forall g | IsBinary64(g) :: Distance(f, x) <= Distance(g, x)
  }

  /** Round to nearest, whatever the rule for ties. */
  ghost predicate IsRounding(round: real -> real) {
    forall x | x > 0.0 :: Nearest(x, round(x))
  }

  // ----- Half a unit in the last place -----

  lemma {:induction false} Normalize(m: nat, e: int) returns (m': nat, e': int)
    requires 0 < m < TWO53
    ensures TWO52 <= m' < TWO53 && Scaled(m', e') == Scaled(m, e)
    decreases TWO53 - m
  {
    if m < TWO52 {
      Pow2Step(e - 1);
      assert Scaled(2 * m, e - 1) == Scaled(m, e);
      m', e' := Normalize(2 * m, e - 1);
    } else {
      m', e' := m, e;
    }
  }

  lemma OneStepUp(m: nat, u: real)
    ensures (m + 1) as real * u == m as real * u + u
  {
  }

  lemma NeighboursAreBinary64(m: nat, e: int)
    requires TWO52 <= m < TWO53
    ensures IsBinary64(Scaled(m, e) + Pow2(e)) && IsBinary64(Scaled(m, e) - Pow2(e))
  {
    OneStepUp(m, Pow2(e));
    OneStepUp(m - 1, Pow2(e));
    assert Scaled(m - 1, e) == Scaled(m, e) - Pow2(e);
    if m + 1 < TWO53 {
      assert Scaled(m + 1, e) == Scaled(m, e) + Pow2(e);
    } else {
      Pow2Step(e);
      assert Scaled(TWO52, e + 1) == Scaled(m, e) + Pow2(e);
    }
  }

  /** Being no closer to either neighbour, x lies within half a step of f. */
  lemma BetweenMidpoints(x: real, f: real, u: real)
    requires u > 0.0
    requires Distance(f, x) <= Distance(f + u, x) && Distance(f, x) <= Distance(f - u, x)
    ensures f - 0.5 * u <= x <= f + 0.5 * u
  {
  }

  /** Whatever rounds to f = m * u lies within half of u. */
  lemma HalfUlp(x: real, m: nat, e: int)
    requires TWO52 <= m < TWO53 && Nearest(x, Scaled(m, e))
    ensures Scaled(m, e) - 0.5 * Pow2(e) <= x <= Scaled(m, e) + 0.5 * Pow2(e)
  {
    var u := Pow2(e);
    Pow2Step(e);
    NeighboursAreBinary64(m, e);
    BetweenMidpoints(x, Scaled(m, e), u);
  }

  lemma PositiveRounding(x: real, f: real)
    requires x >= 0.01 && Nearest(x, f)
    ensures f > 0.0
  {
    assert Pow2(-7) == 1.0 / 128.0 by {
      assert Pow2(-2) == 0.25;
      assert Pow2(-4) == 1.0 / 16.0;
      assert Pow2(-6) == 1.0 / 64.0;
    }
    assert IsBinary64(Scaled(1, -7));
    var m: nat, e: int :| m < TWO53 && f == Scaled(m, e);
    Pow2Step(e);
    assert Distance(f, x) <= Distance(Scaled(1, -7), x) < x;
  }

  /** (2^52 - 1/2) * u */
  function Room(u: real): real {
    4503599627370495.5 * u
  }

  /** Two numbers that round to the same double differ by less than a relative 1 / (2^52 - 1/2). */
  lemma SameDoubleIsClose(x: real, d: real, f: real) returns (u: real)
    requires x >= 0.01 && Nearest(x, f) && Nearest(d, f)
    ensures u > 0.0 && Distance(x, d) <= u
    ensures Room(u) <= x && Room(u) <= d
  {
    PositiveRounding(x, f);
    var m0: nat, e0: int :| m0 < TWO53 && f == Scaled(m0, e0);
    Pow2Step(e0);
    var m, e := Normalize(m0, e0);
    HalfUlp(x, m, e);
    HalfUlp(d, m, e);
    u := Pow2(e);
    Pow2Step(e);
    LeastMantissa(m, e);
  }

  lemma LeastMantissa(m: nat, e: int)
    requires TWO52 <= m
    ensures Room(Pow2(e)) <= Scaled(m, e) - 0.5 * Pow2(e)
  {
    var r, u := m as real, Pow2(e);
    Pow2Step(e);
    assert (r - 4503599627370496.0) * u >= 0.0;
    assert (r - 4503599627370496.0) * u == r * u - 4503599627370496.0 * u;
  }

  // ----- Decimals of at most 15 digits -----

  lemma {:induction false} Pow10IsPower(k: nat)
    ensures Pow10(k) == Power10(k) as real
    ensures Pow10(-(k as int)) * Power10(k) as real == 1.0
    ensures Power10(k) >= 1
  {
    if k > 0 {
      Pow10IsPower(k - 1);
      assert Pow10(-(k as int)) == Pow10(-(k as int - 1)) / 10.0;
      var a, b := Pow10(-(k as int - 1)), Power10(k - 1) as real;
      assert Power10(k) as real == 10.0 * b;
      assert (a / 10.0) * (10.0 * b) == a * b;
    }
  }

  /** Distinct integers are at least 1 apart, which is more than their doubles' spacing below 10^15. */
  lemma CloseIntegersAreEqual(a: nat, b: nat, v: real)
    requires Room(v) <= b as real && b < FIFTEEN_DIGITS
    requires Distance(a as real, b as real) <= v
    ensures a == b
  {
    assert v < 1.0;
  }

  lemma ScaledDistance(x: real, d: real, s: real, u: real)
    requires s > 0.0 && Distance(x, d) <= u
    ensures Distance(x * s, d * s) <= u * s
  {
  }

  lemma ScaledRoom(u: real, d: real, s: real)
    requires s > 0.0 && Room(u) <= d
    ensures Room(u * s) <= d * s
  {
  }

  /** If both become integers when scaled by s, they are equal. */
  lemma EqualAtScale(x: real, d: real, u: real, s: real, a: nat, b: nat)
    requires s > 0.0 && Distance(x, d) <= u && Room(u) <= d
    requires x * s == a as real && d * s == b as real && b < FIFTEEN_DIGITS
    ensures x == d
  {
    ScaledDistance(x, d, s, u);
    ScaledRoom(u, d, s);
    CloseIntegersAreEqual(a, b, u * s);
    assert (x - d) * s == 0.0;
  }

  /** A number of hundredths up to 100 * 2^46 and a decimal of at most 15 digits, or 16 where that many are needed, share
      a double only if they are equal. */
  lemma AmountsAreSeparated(n: nat, p: nat, q: int, f: real)
    requires 0 < n <= LAST_SAFE_AMOUNT
    requires p < FIFTEEN_DIGITS || (n > FIFTEEN_DIGITS && p < 10 * FIFTEEN_DIGITS)
    requires Nearest(n as real / 100.0, f) && Nearest(Decimal(p, q), f)
    ensures Decimal(p, q) == n as real / 100.0
  {
    var x, d := n as real / 100.0, Decimal(p, q);
    assert x >= 0.01;
    if q >= -2 {
      CoarseCase(n, p, q, x, d, f);
    } else if p < FIFTEEN_DIGITS {
      var u := SameDoubleIsClose(x, d, f);
      FineCase(n, p, q, x, d, u);
    } else {
      FinestCase(p, q);
      DoublesAreDense(x, d, f);
    }
  }

  /** Two numbers that round to the same double of at most 2^46 are within 1/128 of each other, or of 2^46. */
  lemma DoublesAreDense(x: real, d: real, f: real)
    requires 0.01 <= x <= 70368744177664.0 && Nearest(x, f) && Nearest(d, f)
    ensures || Distance(x, d) <= 0.0078125
            || (Distance(x, 70368744177664.0) <= 0.0078125 && Distance(d, 70368744177664.0) <= 0.0078125)
  {
    PositiveRounding(x, f);
    var m0: nat, e0: int :| m0 < TWO53 && f == Scaled(m0, e0);
    Pow2Step(e0);
    var m, e := Normalize(m0, e0);
    HalfUlp(x, m, e);
    HalfUlp(d, m, e);
    if e < -6 {
      FinePow2(e);
    } else {
      RoundsToAtMost(x, f);
      LeastCoarse(m, e);
    }
  }

  lemma RoundsToAtMost(x: real, f: real)
    requires x <= 70368744177664.0 && Nearest(x, f)
    ensures f <= 70368744177664.0
  {
    var k := CoarsePow2(-6);
    assert Pow2(-6) == 0.015625 by { assert Pow2(-2) == 0.25; assert Pow2(-4) == 0.0625; }
    assert Scaled(TWO52, -6) == 70368744177664.0;
    assert IsBinary64(70368744177664.0);
    assert Distance(f, x) <= Distance(70368744177664.0, x);
  }

  lemma LeastCoarse(m: nat, e: int)
    requires TWO52 <= m && e >= -6 && Scaled(m, e) <= 70368744177664.0
    ensures Scaled(m, e) == 70368744177664.0 && Pow2(e) == 0.015625
  {
    var k := CoarsePow2(e);
    Pow2Step(e);
    InSixtyFourths(m, e, k);
    assert k >= 1 && m * k >= m && (k > 1 ==> m * k >= 2 * m);
  }

  /** Both are numbers of hundredths, which are further apart than that. */
  lemma CoarseCase(n: nat, p: nat, q: int, x: real, d: real, f: real)
    requires 0 < n <= LAST_SAFE_AMOUNT && q >= -2 && x == n as real / 100.0 && d == Decimal(p, q)
    requires Nearest(x, f) && Nearest(d, f)
    ensures x == d
  {
    CoarseScale(p, q);
    DoublesAreDense(x, d, f);
    EqualHundredths(n, p * Power10(q + 2), x, d);
  }

  lemma SameInteger(a: int, b: int, difference: real)
    requires a as real - b as real == difference && -1.0 < difference < 1.0
    ensures a == b
  {
  }

  lemma BothAtTheTop(a: nat, b: nat, x: real, d: real)
    requires x * 100.0 == a as real && d * 100.0 == b as real
    requires Distance(x, 70368744177664.0) <= 0.0078125 && Distance(d, 70368744177664.0) <= 0.0078125
    ensures x == d
  {
    SameInteger(a, LAST_SAFE_AMOUNT, (x - 70368744177664.0) * 100.0);
    SameInteger(b, LAST_SAFE_AMOUNT, (d - 70368744177664.0) * 100.0);
  }

  lemma EqualHundredths(a: nat, b: nat, x: real, d: real)
    requires x * 100.0 == a as real && d * 100.0 == b as real
    requires || Distance(x, d) <= 0.0078125
             || (Distance(x, 70368744177664.0) <= 0.0078125 && Distance(d, 70368744177664.0) <= 0.0078125)
    ensures x == d
  {
    if Distance(x, d) <= 0.0078125 { SameInteger(a, b, (x - d) * 100.0); } else { BothAtTheTop(a, b, x, d); }
  }

  /** With 16 digits and more than two decimals a number is less than 10^13. */
  lemma FinestCase(p: nat, q: int)
    requires p < 10 * FIFTEEN_DIGITS && q < -2
    ensures Decimal(p, q) < 10000000000000.0
  {
    SmallPow10(q);
    Pow10Positive(q);
    assert p as real * Pow10(q) <= p as real * 0.001;
  }

  lemma {:induction false} SmallPow10(q: int)
    requires q < -2
    ensures Pow10(q) <= 0.001
    decreases -q
  {
    if q < -3 { SmallPow10(q + 1); } else { assert Pow10(-1) == 0.1; }
  }

  lemma FineCase(n: nat, p: nat, q: int, x: real, d: real, u: real)
    requires p < FIFTEEN_DIGITS && q < -2 && x == n as real / 100.0 && d == Decimal(p, q)
    requires Distance(x, d) <= u && Room(u) <= d
    ensures x == d
  {
    FineScale(n, p, q);
    EqualAtScale(x, d, u, 100.0 * Power10(-q - 2) as real, n * Power10(-q - 2), p);
  }

  /** A decimal with an exponent of at least -2 is a number of hundredths. */
  lemma CoarseScale(p: nat, q: int)
    requires q >= -2
    ensures Decimal(p, q) * 100.0 == (p * Power10(q + 2)) as real
  {
    var t := Power10(q + 2) as real;
    Pow10Shift(q + 2);
    assert Decimal(p, q) == p as real * (t / 100.0);
    assert p as real * (t / 100.0) * 100.0 == p as real * t;
    CastProduct(p, Power10(q + 2));
  }

  /** With a smaller exponent, both numbers become integers at the decimal's own scale. */
  lemma FineScale(n: nat, p: nat, q: int)
    requires q < -2
    ensures var s := 100.0 * Power10(-q - 2) as real;
            && s > 0.0
            && n as real / 100.0 * s == (n * Power10(-q - 2)) as real
            && Decimal(p, q) * s == p as real
  {
    var k: nat := -q - 2;
    var a, b := Pow10(-(k as int)), Power10(k) as real;
    Pow10IsPower(k);
    Pow10Shift(-(k as int));
    CastProduct(n, Power10(k));
    assert n as real / 100.0 * (100.0 * b) == n as real * b;
    assert Decimal(p, q) == p as real * (a / 100.0);
    assert (a / 100.0) * (100.0 * b) == a * b == 1.0;
    assert p as real * (a / 100.0) * (100.0 * b) == p as real * ((a / 100.0) * (100.0 * b));
  }

  lemma CastProduct(a: nat, b: nat)
    ensures (a * b) as real == a as real * b as real
  {
  }

  lemma Pow10Shift(k: int)
    ensures Pow10(k - 2) == Pow10(k) / 100.0
    ensures k >= 0 ==> Pow10(k - 2) == Power10(k) as real / 100.0
  {
    Pow10Down(k);
    Pow10Down(k - 1);
    if k >= 0 { Pow10IsPower(k); }
  }

  lemma Pow10Down(k: int)
    ensures Pow10(k - 1) == Pow10(k) / 10.0
  {
  }

  // ----- The wire -----

  /** repr(f): a decimal that reads back as f, with no more digits than any other that does. */
  ghost predicate IsShortest(round: real -> real, f: real, p: nat, q: int) {
    && p > 0
    && round(Decimal(p, q)) == f
    && forall k: nat, p': nat, q': int | p' > 0 && round(Decimal(p', q')) == f && p' < Power10(k) :: p < Power10(k)
  }

  /** The shortest decimal has no more digits than the amount needs. */
  lemma DigitsNeeded(round: real -> real, n: nat, p: nat, q: int)
    requires 0 < n <= LAST_SAFE_AMOUNT && IsShortest(round, round(n as real / 100.0), p, q)
    ensures p < FIFTEEN_DIGITS || (n > FIFTEEN_DIGITS && p < 10 * FIFTEEN_DIGITS)
  {
    var x := n as real / 100.0;
    PowersAtHand();
    assert Decimal(n, -2) == x;
    if n == FIFTEEN_DIGITS {
      assert Decimal(1, 13) == x;
      assert 1 < Power10(1);
      assert p < Power10(1);
    } else if n < FIFTEEN_DIGITS {
      assert n < Power10(15);
      assert p < Power10(15);
    } else {
      assert n < Power10(16);
      assert p < Power10(16);
    }
  }

  /** For every amount up to 100 * 2^46 hundredths the worker reads exactly the hundredths the gateway divided. */
  lemma AmountSurvivesTheWire(round: real -> real, n: nat, p: nat, q: int)
    requires IsRounding(round) && 0 < n <= LAST_SAFE_AMOUNT
    requires IsShortest(round, round(n as real / 100.0), p, q)
    ensures Decimal(p, q) == n as real / 100.0
  {
    DigitsNeeded(round, n, p, q);
    DecimalIsPositive(p, q);
    RoundsToNearest(round, Decimal(p, q));
    RoundsToNearest(round, n as real / 100.0);
    AmountsAreSeparated(n, p, q, round(n as real / 100.0));
  }

  lemma DecimalIsPositive(p: nat, q: int)
    requires p > 0
    ensures Decimal(p, q) > 0.0
  {
    var t := Pow10(q);
    Pow10Positive(q);
    assert p as real >= 1.0;
    assert p as real * t >= t;
  }

  lemma RoundsToNearest(round: real -> real, x: real)
    requires IsRounding(round) && x > 0.0
    ensures Nearest(x, round(x))
  {
  }

  lemma PowersAtHand()
    ensures Pow10(-2) == 0.01 && Power10(1) == 10
    ensures Power10(15) == FIFTEEN_DIGITS && Power10(16) == 10 * FIFTEEN_DIGITS
    ensures Pow10(13) == 10000000000000.0
  {
    assert Pow10(-1) == 0.1;
    assert Power10(3) == 1000;
    assert Power10(6) == 1_000_000;
    assert Power10(9) == 1_000_000_000;
    assert Power10(12) == 1_000_000_000_000;
    assert Power10(13) == 10_000_000_000_000;
    Pow10IsPower(13);
  }

  lemma {:induction false} Pow10Positive(q: int)
    ensures Pow10(q) > 0.0
    decreases if q < 0 then -q else q
  {
    if q > 0 { Pow10Positive(q - 1); } else if q < 0 { Pow10Positive(q + 1); }
  }

  // ----- Why a bound is needed -----

  lemma {:induction false} CoarsePow2(e: int) returns (k: nat)
    requires e >= -6
    ensures Pow2(e) * 64.0 == k as real
    decreases e + 6
  {
    if e == -6 {
      assert Pow2(-2) == 0.25;
      assert Pow2(-4) == 0.0625;
      k := 1;
    } else {
      Pow2Step(e - 1);
      var h := CoarsePow2(e - 1);
      k := 2 * h;
    }
  }

  lemma {:induction false} FinePow2(e: int)
    requires e < -6
    ensures Pow2(e) * 128.0 <= 1.0
    decreases -e
  {
    Pow2Step(e);
    if e == -7 { var k := CoarsePow2(-6); assert Pow2(-6) * 64.0 == 1.0 by { assert Pow2(-2) == 0.25; assert Pow2(-4) == 0.0625; } }
    else { FinePow2(e + 1); }
  }

  lemma FineIsSmall(m: nat, e: int)
    requires e < -6 && m < TWO53
    ensures Scaled(m, e) <= 70368744177664.0
  {
    FinePow2(e);
    var r := m as real;
    assert r * (Pow2(e) * 128.0) <= r;
    assert r * (Pow2(e) * 128.0) == Scaled(m, e) * 128.0;
    assert r < 9007199254740992.0;
  }

  lemma InSixtyFourths(m: nat, e: int, k: nat)
    requires Pow2(e) * 64.0 == k as real
    ensures Scaled(m, e) * 64.0 == (m * k) as real
  {
    CastProduct(m, k);
    assert m as real * Pow2(e) * 64.0 == m as real * (Pow2(e) * 64.0);
  }

  /** Around 2^46 the doubles are 1/64 apart. */
  lemma LonelyDouble(g: real)
    requires IsBinary64(g) && 70368744177664.0 < g < 70368744177664.03125
    ensures g == 70368744177664.015625
  {
    var m: nat, e: int :| m < TWO53 && g == Scaled(m, e);
    Pow2Step(e);
    if e < -6 {
      FineIsSmall(m, e);
    } else {
      var k := CoarsePow2(e);
      InSixtyFourths(m, e, k);
      SameInteger(m * k, 4503599627370497, g * 64.0 - 4503599627370497.0);
    }
  }

  lemma NearestIsTheLonelyOne(x: real, f: real)
    requires 70368744177664.0078125 < x < 70368744177664.0234375 && Nearest(x, f)
    ensures f == 70368744177664.015625
  {
    var h := 70368744177664.015625;
    var k := CoarsePow2(-6);
    assert Pow2(-6) == 0.015625 by { assert Pow2(-2) == 0.25; assert Pow2(-4) == 0.0625; }
    assert Scaled(4503599627370497, -6) == h;
    assert IsBinary64(h);
    assert Distance(f, x) <= Distance(h, x);
    LonelyDouble(f);
  }

  /** The bound is sharp: the next two amounts become the same double, so no wire format can tell them apart. */
  lemma LargeAmountsCollide(round: real -> real)
    requires IsRounding(round)
    ensures round((LAST_SAFE_AMOUNT + 1) as real / 100.0) == round((LAST_SAFE_AMOUNT + 2) as real / 100.0)
  {
    var x, y := (LAST_SAFE_AMOUNT + 1) as real / 100.0, (LAST_SAFE_AMOUNT + 2) as real / 100.0;
    NearestIsTheLonelyOne(x, round(x));
    NearestIsTheLonelyOne(y, round(y));
  }
}
