/**
 Dollar amounts as reals, rounded to cents the way the services round them:
 `Math.round(100 * x) / 100`, that is, half a cent goes up.
 */
module Money {

  function Cents(x: real): int {
    (100.0 * x + 0.5).Floor
  }

  function Dollars(cents: int): real {
    cents as real / 100.0
  }

  function Round2(x: real): real {
    Dollars(Cents(x))
  }

  predicate WholeCents(x: real) {
    Round2(x) == x
  }

  function MinR(a: real, b: real): real {
    if a < b then a else b
  }

  function MaxR(a: real, b: real): real {
    if a < b then b else a
  }

  lemma {:induction false} CentsOfDollars(c: int)
    ensures Cents(Dollars(c)) == c
    ensures WholeCents(Dollars(c))
  {}

  lemma {:induction false} RoundIsWhole(x: real)
    ensures WholeCents(Round2(x))
  {
    CentsOfDollars(Cents(x));
  }

  lemma {:induction false} RoundMonotone(x: real, y: real)
    requires x <= y
    ensures Cents(x) <= Cents(y) && Round2(x) <= Round2(y)
  {
    assert 100.0 * x + 0.5 <= 100.0 * y + 0.5;
  }

  lemma {:induction false} RoundIsNear(x: real)
    ensures Round2(x) - 0.005 <= x < Round2(x) + 0.005
  {}

  lemma {:induction false} WholeSum(x: real, y: real)
    requires WholeCents(x) && WholeCents(y)
    ensures WholeCents(x + y) && WholeCents(x - y)
    ensures Round2(x + y) == x + y && Round2(x - y) == x - y
  {
    assert x + y == Dollars(Cents(x) + Cents(y));
    assert x - y == Dollars(Cents(x) - Cents(y));
    CentsOfDollars(Cents(x) + Cents(y));
    CentsOfDollars(Cents(x) - Cents(y));
  }

  /** Rounding never crosses a whole-cent bound. */
  lemma {:induction false} RoundMin(x: real, bound: real)
    requires WholeCents(bound)
    ensures Round2(MinR(x, bound)) == MinR(Round2(x), bound)
  {
    if x <= bound {
      RoundMonotone(x, bound);
    } else {
      RoundMonotone(bound, x);
    }
  }

  lemma {:induction false} ShareAtMost(total: real, pct: real, cap: real)
    requires total >= 0.0 && 0.0 <= pct <= cap
    ensures 0.0 <= total * pct <= total * cap
  {}

  lemma {:induction false} PortionOf(x: real, q: real)
    requires x >= 0.0 && 0.0 <= q <= 1.0
    ensures 0.0 <= x * q <= x && 0.0 <= q * x <= x
  {
    var y := x * q;
    assert y >= 0.0;
    var z := x * (1.0 - q);
    assert z >= 0.0;
    assert z == x - y;
    assert q * x == y;
  }

  /** An amount ending in exactly half a cent. */
  predicate HalfCent(x: real) {
    Round2(x) - x == 0.005
  }

  lemma {:induction false} SubtractRounded(r: real, c: real)
    requires WholeCents(r)
    ensures Round2(r - c) == r - Round2(c) + (if HalfCent(c) then 0.01 else 0.0)
  {
    var n, m := Cents(r), Cents(c);
    assert 100.0 * r == n as real;
    assert 100.0 * (r - c) + 0.5 == (n - m) as real + (m as real - 100.0 * c) + 0.5;
    assert HalfCent(c) <==> m as real - 100.0 * c == 0.5;
    assert Cents(r - c) == n - m + (if HalfCent(c) then 1 else 0);
  }

  lemma {:induction false} AddRounded(a: real, c: real)
    requires WholeCents(a)
    ensures Round2(a + c) == a + Round2(c)
  {
    var n, m := Cents(a), Cents(c);
    assert 100.0 * a == n as real;
    assert 100.0 * (a + c) + 0.5 == n as real + (100.0 * c + 0.5);
    assert Cents(a + c) == n + m;
  }

  lemma {:induction false} ZeroIsWhole()
    ensures WholeCents(0.0) && !HalfCent(0.0)
  {}

  lemma {:induction false} WholeDifference(r: real, c: real)
    requires WholeCents(c)
    ensures Round2(r - c) == Round2(r) - c
  {
    ZeroIsWhole();
    WholeSum(0.0, c);
    AddRounded(-c, r);
  }

  lemma {:induction false} WholeMeans(x: real)
    requires WholeCents(x)
    ensures Round2(x) == x
  {}

  /** `x` is a number of cents, and the nearest one to `exact`; half a cent goes up. */
  predicate NearestCent(x: real, exact: real) {
    (100.0 * x).Floor as real == 100.0 * x && x - 0.005 <= exact < x + 0.005
  }

  lemma {:induction false} RoundIsNearestCent(x: real, exact: real)
    ensures NearestCent(x, exact) <==> x == Round2(exact)
  {
    assert 100.0 * Round2(exact) == Cents(exact) as real;
    if NearestCent(x, exact) {
      assert (100.0 * x).Floor <= Cents(exact) <= (100.0 * x).Floor;
    }
  }
}
