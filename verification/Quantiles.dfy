/**
 Sorted price lists and the interpolated, cent-rounded quantile that the market analytics
 and the comp selection share (src/services/acquisitionMarketAnalytics.ts:58-66 and
 src/services/acquisitionCompSelection.ts:244-252).
 */
module Quantiles {
  import opened Common
  import opened Money

  // ---------- sorting ----------

  function Insert(x: real, s: seq<real>): seq<real> {
    if s == [] || x <= s[0] then [x] + s else [s[0]] + Insert(x, s[1..])
  }

  function Sorted(s: seq<real>): seq<real> {
    if s == [] then [] else Insert(s[0], Sorted(s[1..]))
  }

  ghost predicate Ascending(s: seq<real>) {
    forall i, j :: 0 <= i <= j < |s| ==> s[i] <= s[j]
  }

  lemma {:induction false} InsertAscends(x: real, s: seq<real>)
    requires Ascending(s)
    ensures Ascending(Insert(x, s)) && multiset(Insert(x, s)) == multiset{x} + multiset(s)
    ensures |Insert(x, s)| == |s| + 1
  {
    if s != [] && s[0] < x {
      InsertAscends(x, s[1..]);
      assert s == [s[0]] + s[1..];
      var rest := Insert(x, s[1..]);
      forall j | 0 <= j < |rest|
        ensures s[0] <= rest[j]
      {
        assert rest[j] in multiset(rest);
        assert rest[j] == x || rest[j] in s[1..];
      }
    }
  }

  lemma {:induction false} SortedAscends(s: seq<real>)
    ensures Ascending(Sorted(s)) && multiset(Sorted(s)) == multiset(s) && |Sorted(s)| == |s|
  {
    if s != [] {
      SortedAscends(s[1..]);
      InsertAscends(s[0], Sorted(s[1..]));
      assert s == [s[0]] + s[1..];
    }
  }

  // ---------- the quantile ----------

  function Position(n: nat, q: real): real {
    (n - 1) as real * q
  }

  function Interpolate(lower: real, upper: real, rest: real): real {
    lower + rest * (upper - lower)
  }

  /** The value at a position between two ranks, before rounding. */
  function At(values: seq<real>, pos: real): real
    requires values != [] && 0.0 <= pos <= (|values| - 1) as real
  {
    var base := pos.Floor;
    var upper := if base + 1 < |values| then values[base + 1] else values[base];
    Interpolate(values[base], upper, pos - base as real)
  }

  lemma {:induction false} PositionInRange(n: nat, q: real)
    requires n > 0 && 0.0 <= q <= 1.0
    ensures 0.0 <= Position(n, q) <= (n - 1) as real
  {
    PortionOf((n - 1) as real, q);
  }

  lemma {:induction false} PositionMonotone(n: nat, q: real, r: real)
    requires n > 0 && q <= r
    ensures Position(n, q) <= Position(n, r)
  {}

  function Quantile(values: seq<real>, q: real): Option<real>
    requires 0.0 <= q <= 1.0
  {
    if values == [] then None
    else
      PositionInRange(|values|, q);
      Some(Round2(At(values, Position(|values|, q))))
  }

  lemma {:induction false} InterpolateBetween(lower: real, upper: real, rest: real)
    requires lower <= upper && 0.0 <= rest <= 1.0
    ensures lower <= Interpolate(lower, upper, rest) <= upper
  {
    var gap := upper - lower;
    PortionOf(gap, rest);
    assert Interpolate(lower, upper, rest) == lower + rest * gap;
  }

  lemma {:induction false} InterpolateMonotone(lower: real, upper: real, a: real, b: real)
    requires lower <= upper && a <= b
    ensures Interpolate(lower, upper, a) <= Interpolate(lower, upper, b)
  {}

  /** The value at a position lies between the values at the ranks around it. */
  lemma {:induction false} AtBetween(values: seq<real>, pos: real, k: nat)
    requires Ascending(values) && values != [] && 0.0 <= pos <= (|values| - 1) as real && k < |values|
    ensures k as real <= pos ==> values[k] <= At(values, pos)
    ensures pos <= k as real ==> At(values, pos) <= values[k]
  {
    hide Interpolate;
    var base := pos.Floor;
    var upper := if base + 1 < |values| then values[base + 1] else values[base];
    InterpolateBetween(values[base], upper, pos - base as real);
    if k as real <= pos {
      assert k <= base;
    }
    if pos <= k as real && k <= base {
      assert pos == base as real;
      InterpolateAtZero(values[base], upper);
    }
  }

  lemma {:induction false} InterpolateAtZero(lower: real, upper: real)
    ensures Interpolate(lower, upper, 0.0) == lower
  {}

  lemma {:induction false} AtMonotone(values: seq<real>, p: real, r: real)
    requires Ascending(values) && values != [] && 0.0 <= p <= r <= (|values| - 1) as real
    ensures At(values, p) <= At(values, r)
  {
    hide Interpolate;
    if p.Floor == r.Floor {
      var base := p.Floor;
      var upper := if base + 1 < |values| then values[base + 1] else values[base];
      InterpolateMonotone(values[base], upper, p - base as real, r - base as real);
    } else {
      assert p.Floor + 1 <= r.Floor;
      hide At;
      AtBetween(values, p, r.Floor);
      AtBetween(values, r, r.Floor);
    }
  }

  /** On every sorted list the rounded quantile is monotone in q. */
  lemma {:induction false} QuantileMonotone(values: seq<real>, q: real, r: real)
    requires Ascending(values) && 0.0 <= q <= r <= 1.0
    ensures Quantile(values, q).Some? <==> values != []
    ensures Quantile(values, r).Some? <==> values != []
    ensures values != [] ==> Quantile(values, q).value <= Quantile(values, r).value
  {
    if values != [] {
      var n := |values|;
      PositionInRange(n, q);
      PositionInRange(n, r);
      PositionMonotone(n, q, r);
      hide At, Position;
      AtMonotone(values, Position(n, q), Position(n, r));
      RoundMonotone(At(values, Position(n, q)), At(values, Position(n, r)));
    }
  }

  /** A quantile never leaves the range of its list by more than the rounding. */
  lemma {:induction false} QuantileInRange(values: seq<real>, q: real)
    requires Ascending(values) && values != [] && 0.0 <= q <= 1.0
    ensures Round2(values[0]) <= Quantile(values, q).value <= Round2(values[|values| - 1])
  {
    var n := |values|;
    PositionInRange(n, q);
    hide At, Position;
    AtBetween(values, Position(n, q), 0);
    AtBetween(values, Position(n, q), n - 1);
    RoundMonotone(values[0], At(values, Position(n, q)));
    RoundMonotone(At(values, Position(n, q)), values[n - 1]);
  }

  lemma {:induction false} AtIs(values: seq<real>, pos: real, k: nat)
    requires values != [] && 0.0 <= pos <= (|values| - 1) as real && k as real <= pos < k as real + 1.0
    ensures k < |values|
    ensures At(values, pos) ==
            Interpolate(values[k], if k + 1 < |values| then values[k + 1] else values[k], pos - k as real)
  {
    hide Interpolate;
    assert pos.Floor == k;
  }

  /** With `k` the rank at or below the position, the quantile is the nearest cent to the mean
      of the values at `k` and the next rank, weighted by how far the position is between. */
  lemma {:induction false} QuantileInterpolates(values: seq<real>, q: real, k: nat)
    requires values != [] && 0.0 <= q <= 1.0
    requires k as real <= (|values| - 1) as real * q < k as real + 1.0
    ensures k < |values| && Quantile(values, q).Some?
    ensures var weight := (|values| - 1) as real * q - k as real;
      var next := if k + 1 < |values| then values[k + 1] else values[k];
      NearestCent(Quantile(values, q).value, (1.0 - weight) * values[k] + weight * next)
  {
    PositionInRange(|values|, q);
    var pos := Position(|values|, q);
    assert pos == (|values| - 1) as real * q;
    hide Position, At, NearestCent, Round2, Interpolate;
    AtIs(values, pos, k);
    RoundIsNearestCent(Quantile(values, q).value, At(values, pos));
    WeightedMean(values[k], if k + 1 < |values| then values[k + 1] else values[k], pos - k as real);
  }

  lemma {:induction false} WeightedMean(lower: real, upper: real, weight: real)
    ensures Interpolate(lower, upper, weight) == (1.0 - weight) * lower + weight * upper
  {}

  lemma {:induction false} FirstIsLeast(a: seq<real>, x: real)
    requires Ascending(a) && x in multiset(a)
    ensures a != [] && a[0] <= x
  {
    var i :| 0 <= i < |a| && a[i] == x;
  }

  lemma {:induction false} SameRest(a: seq<real>, b: seq<real>)
    requires a != [] && b != [] && a[0] == b[0] && multiset(a) == multiset(b)
    ensures multiset(a[1..]) == multiset(b[1..])
  {
    assert a == [a[0]] + a[1..] && b == [b[0]] + b[1..];
    assert multiset(a[1..]) == multiset(a) - multiset{a[0]};
    assert multiset(b[1..]) == multiset(b) - multiset{b[0]};
  }

  lemma {:induction false} SameFirst(a: seq<real>, b: seq<real>)
    requires Ascending(a) && Ascending(b) && multiset(a) == multiset(b) && a != []
    ensures b != [] && a[0] == b[0]
  {
    assert a[0] in multiset(b);
    FirstIsLeast(b, a[0]);
    assert b[0] in multiset(a);
    FirstIsLeast(a, b[0]);
  }

  lemma {:induction false} SameLength(a: seq<real>, b: seq<real>)
    requires multiset(a) == multiset(b)
    ensures |a| == |b|
  {
    assert |multiset(a)| == |multiset(b)|;
  }

  /** There is one ascending list of given values. */
  lemma {:induction false} AscendingIsUnique(a: seq<real>, b: seq<real>)
    requires Ascending(a) && Ascending(b) && multiset(a) == multiset(b)
    ensures a == b
  {
    SameLength(a, b);
    if a != [] {
      SameFirst(a, b);
      SameRest(a, b);
      AscendingIsUnique(a[1..], b[1..]);
      assert a == [a[0]] + a[1..] && b == [b[0]] + b[1..];
    }
  }
}
