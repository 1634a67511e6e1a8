/**
 Moments of a finite weighted distribution: weight `w[i]` sits on the value `x[i]`.
 Each function sums the first `n` terms. Sums that the proofs compare are defined one term at
 a time, so that every induction step is linear; a lemma then gives each its closed form.
 */
module Moments {

  ghost predicate Positive(w: seq<real>) {
    forall i :: 0 <= i < |w| ==> w[i] > 0.0
  }

  ghost predicate Increasing(x: seq<real>) {
    forall i, j :: 0 <= i < j < |x| ==> x[i] < x[j]
  }

  function M0(w: seq<real>, n: nat): real
    requires n <= |w|
  {
    if n == 0 then 0.0 else M0(w, n - 1) + w[n - 1]
  }

  function Times(x: real, u: real): real {
    x * u
  }

  function Second(x: real, u: real): real {
    x * x * u
  }

  function M1(w: seq<real>, x: seq<real>, n: nat): real
    requires n <= |w| == |x|
  {
    if n == 0 then 0.0 else M1(w, x, n - 1) + Times(x[n - 1], w[n - 1])
  }

  function M2(w: seq<real>, x: seq<real>, n: nat): real
    requires n <= |w| == |x|
  {
    if n == 0 then 0.0 else M2(w, x, n - 1) + Second(x[n - 1], w[n - 1])
  }

  lemma {:induction false} M0Positive(w: seq<real>, n: nat)
    requires Positive(w) && n <= |w|
    ensures M0(w, n) >= 0.0
    ensures n > 0 ==> M0(w, n) > 0.0
  {
    if n > 0 {
      M0Positive(w, n - 1);
    }
  }

  function Mean(w: seq<real>, x: seq<real>): real
    requires Positive(w) && |w| == |x| > 0
  {
    M0Positive(w, |w|);
    M1(w, x, |w|) / M0(w, |w|)
  }

  function VarianceOf(s0: real, s1: real, s2: real): real
    requires s0 > 0.0
  {
    s2 / s0 - (s1 / s0) * (s1 / s0)
  }

  function Variance(w: seq<real>, x: seq<real>): real
    requires Positive(w) && |w| == |x| > 0
  {
    M0Positive(w, |w|);
    VarianceOf(M0(w, |w|), M1(w, x, |w|), M2(w, x, |w|))
  }

  // ----- scalar arithmetic -----

  lemma Distribute(k: real, a: real, b: real, c: real)
    requires c == a + b
    ensures Times(k, c) == Times(k, a) + Times(k, b)
  {
  }

  lemma ScaledOrder(d: real, p: real, q: real)
    requires d > 0.0 && p >= q
    ensures d * p >= d * q
    ensures p > q ==> d * p > d * q
  {
    assert d * (p - q) == d * p - d * q;
  }

  lemma ProductPositive(p: real, q: real)
    requires p > 0.0 && q > 0.0
    ensures p * q > 0.0 && Times(p, q) > 0.0
  {
  }

  lemma SignOfProduct(p: real, d: real)
    requires d > 0.0
    ensures p * d > 0.0 || Times(p, d) > 0.0 ==> p > 0.0
    ensures p * d >= 0.0 ==> p >= 0.0
  {
  }

  lemma QuotientScaled(a: real, b: real, k: real, ka: real, kb: real)
    requires b > 0.0 && k > 0.0 && ka == Times(k, a) && kb == Times(k, b)
    ensures kb > 0.0 && ka / kb == a / b
  {
    var q := a / b;
    ProductPositive(k, b);
    assert a == q * b;
    assert q * kb == k * (q * b);
  }

  lemma QuotientOrder(a: real, b: real, c: real, d: real)
    requires b > 0.0 && d > 0.0 && c * b > a * d
    ensures a / b < c / d
  {
    var p, q := a / b, c / d;
    assert a == p * b && c == q * d;
    assert c * b - a * d == (q - p) * (b * d);
    assert b * d > 0.0;
    SignOfProduct(q - p, b * d);
  }

  lemma Proportion(outcomes: real, hidden: real, members: real, total: real, marked: real, first: real)
    requires members > 0.0 && total > 0.0 && first == Times(hidden, marked)
    requires Times(outcomes, total) == Times(members, marked)
    ensures first / total == Times(outcomes, hidden) / members
  {
    assert hidden * (members * marked) == (hidden * marked) * members;
    assert hidden * (outcomes * total) == (outcomes * hidden) * total;
    SameQuotient(first, total, Times(outcomes, hidden), members);
  }

  lemma SameQuotient(a: real, b: real, c: real, d: real)
    requires b > 0.0 && d > 0.0 && Times(a, d) == Times(c, b)
    ensures a / b == c / d
  {
    var p, q := a / b, c / d;
    assert p * b == a && q * d == c;
    assert (p - q) * (b * d) == 0.0;
    assert b * d > 0.0;
  }

  // ----- scaling -----

  lemma {:induction false} ScaledSums(w: seq<real>, v: seq<real>, x: seq<real>, k: real, n: nat)
    requires |v| == |w| == |x| && n <= |w|
    requires forall i :: 0 <= i < |w| ==> v[i] == Times(k, w[i])
    ensures M0(v, n) == Times(k, M0(w, n))
    ensures M1(v, x, n) == Times(k, M1(w, x, n))
    ensures M2(v, x, n) == Times(k, M2(w, x, n))
  {
    if n > 0 {
      ScaledSums(w, v, x, k, n - 1);
      var y, u := x[n - 1], w[n - 1];
      Distribute(k, M0(w, n - 1), u, M0(w, n));
      Distribute(k, M1(w, x, n - 1), Times(y, u), M1(w, x, n));
      Distribute(k, M2(w, x, n - 1), Second(y, u), M2(w, x, n));
      ScaledTerm(y, k, u, v[n - 1]);
    }
  }

  lemma ScaledTerm(y: real, k: real, u: real, ku: real)
    requires ku == Times(k, u)
    ensures Times(y, ku) == Times(k, Times(y, u)) && Second(y, ku) == Times(k, Second(y, u))
  {
  }

  /** Multiplying every weight by the same positive factor changes neither moment. */
  lemma ScaleInvariance(w: seq<real>, v: seq<real>, x: seq<real>, k: real)
    requires Positive(w) && |v| == |w| == |x| > 0 && k > 0.0
    requires forall i :: 0 <= i < |w| ==> v[i] == Times(k, w[i])
    ensures Positive(v) && Mean(v, x) == Mean(w, x) && Variance(v, x) == Variance(w, x)
  {
    forall i | 0 <= i < |v| ensures v[i] > 0.0 {
      ProductPositive(k, w[i]);
    }
    ScaledSums(w, v, x, k, |w|);
    M0Positive(w, |w|);
    QuotientScaled(M1(w, x, |w|), M0(w, |w|), k, M1(v, x, |w|), M0(v, |w|));
    QuotientScaled(M2(w, x, |w|), M0(w, |w|), k, M2(v, x, |w|), M0(v, |w|));
  }

  // ----- monotone likelihood ratio -----

  /** The ratio v/w at j is at least (strictly above) the ratio at i; cross-multiplied. */
  ghost predicate RatioAtLeast(w: seq<real>, v: seq<real>, i: nat, j: nat)
    requires i < |w| == |v| && j < |w|
  {
    Times(w[i], v[j]) >= Times(w[j], v[i])
  }

  ghost predicate RatioAbove(w: seq<real>, v: seq<real>, i: nat, j: nat)
    requires i < |w| == |v| && j < |w|
  {
    Times(w[i], v[j]) > Times(w[j], v[i])
  }

  ghost predicate RatioNeverFalls(w: seq<real>, v: seq<real>) {
    |w| == |v| && forall i, j :: 0 <= i < j < |w| ==> RatioAtLeast(w, v, i, j)
  }

  ghost predicate RatioRises(w: seq<real>, v: seq<real>) {
    |w| == |v| && forall i, j :: 0 <= i < j < |w| ==> RatioAbove(w, v, i, j)
  }

  function Product(d: real, u: real, b: real): real {
    d * (u * b)
  }

  function Weighted(b: real, y: real, s0: real, s1: real): real {
    b * (y * s0 - s1)
  }

  /** b times the pull of the first n weights towards y. */
  function Pull(w: seq<real>, x: seq<real>, y: real, b: real, n: nat): real
    requires n <= |w| == |x|
  {
    if n == 0 then 0.0 else Pull(w, x, y, b, n - 1) + Product(y - x[n - 1], w[n - 1], b)
  }

  lemma {:induction false} PullIs(w: seq<real>, x: seq<real>, y: real, b: real, n: nat)
    requires n <= |w| == |x|
    ensures Pull(w, x, y, b, n) == Weighted(b, y, M0(w, n), M1(w, x, n))
  {
    if n > 0 {
      PullIs(w, x, y, b, n - 1);
      PullStep(M0(w, n - 1), M1(w, x, n - 1), w[n - 1], y, x[n - 1], b, M0(w, n), M1(w, x, n));
    }
  }

  lemma PullStep(s0: real, s1: real, u: real, y: real, z: real, b: real, r0: real, r1: real)
    requires r0 == s0 + u && r1 == s1 + Times(z, u)
    ensures Weighted(b, y, r0, r1) == Weighted(b, y, s0, s1) + Product(y - z, u, b)
  {
    var d := y - z;
    assert y * r0 - r1 == (y * s0 - s1) + d * u;
    Distribute(b, y * s0 - s1, d * u, y * r0 - r1);
    assert b * (d * u) == d * (u * b);
  }

  lemma {:induction false} PullOrder(w: seq<real>, v: seq<real>, x: seq<real>, top: nat, n: nat)
    requires |w| == |x| && n <= top < |w| && Increasing(x)
    requires RatioNeverFalls(w, v)
    ensures Pull(w, x, x[top], v[top], n) >= Pull(v, x, x[top], w[top], n)
    ensures n > 0 && RatioRises(w, v) ==> Pull(w, x, x[top], v[top], n) > Pull(v, x, x[top], w[top], n)
  {
    if n > 0 {
      PullOrder(w, v, x, top, n - 1);
      assert RatioAtLeast(w, v, n - 1, top);
      assert RatioRises(w, v) ==> RatioAbove(w, v, n - 1, top);
      PullTerm(x[top] - x[n - 1], w[n - 1], v[top], w[top], v[n - 1]);
    }
  }

  lemma PullTerm(d: real, wi: real, vj: real, wj: real, vi: real)
    requires d > 0.0 && Times(wi, vj) >= Times(wj, vi)
    ensures Product(d, wi, vj) >= Product(d, vi, wj)
    ensures Times(wi, vj) > Times(wj, vi) ==> Product(d, wi, vj) > Product(d, vi, wj)
  {
    ScaledOrder(d, wi * vj, wj * vi);
  }

  /** The determinant whose sign compares the two means, one weight at a time. */
  function Cross(w: seq<real>, v: seq<real>, x: seq<real>, n: nat): real
    requires n <= |w| == |v| == |x|
  {
    if n == 0 then 0.0
    else Cross(w, v, x, n - 1) + Pull(w, x, x[n - 1], v[n - 1], n - 1) - Pull(v, x, x[n - 1], w[n - 1], n - 1)
  }

  function Minor(s0: real, s1: real, t0: real, t1: real): real {
    t1 * s0 - s1 * t0
  }

  lemma {:induction false} CrossIs(w: seq<real>, v: seq<real>, x: seq<real>, n: nat)
    requires n <= |w| == |v| == |x|
    ensures Cross(w, v, x, n) == Minor(M0(w, n), M1(w, x, n), M0(v, n), M1(v, x, n))
  {
    if n > 0 {
      CrossIs(w, v, x, n - 1);
      var y, a, b := x[n - 1], w[n - 1], v[n - 1];
      PullIs(w, x, y, b, n - 1);
      PullIs(v, x, y, a, n - 1);
      CrossStep(M0(w, n - 1), M1(w, x, n - 1), M0(v, n - 1), M1(v, x, n - 1), a, b, y,
                M0(w, n), M1(w, x, n), M0(v, n), M1(v, x, n));
    }
  }

  lemma CrossStep(s0: real, s1: real, t0: real, t1: real, a: real, b: real, y: real,
                  p0: real, p1: real, q0: real, q1: real)
    requires p0 == s0 + a && p1 == s1 + Times(y, a) && q0 == t0 + b && q1 == t1 + Times(y, b)
    ensures Minor(p0, p1, q0, q1) == Minor(s0, s1, t0, t1) + Weighted(b, y, s0, s1) - Weighted(a, y, t0, t1)
  {
    assert q1 * p0 == t1 * s0 + t1 * a + b * (y * s0) + y * b * a;
    assert p1 * q0 == s1 * t0 + s1 * b + a * (y * t0) + y * a * b;
    assert b * (y * s0 - s1) == b * (y * s0) - s1 * b;
    assert a * (y * t0 - t1) == a * (y * t0) - t1 * a;
  }

  /**
   Monotone likelihood ratio: if v/w never falls, the mean under v is at least the mean under w,
   strictly if the ratio rises on two or more values. No weight needs to be positive.
   */
  lemma {:induction false} CrossSign(w: seq<real>, v: seq<real>, x: seq<real>, n: nat)
    requires n <= |w| == |x| && Increasing(x)
    requires RatioNeverFalls(w, v)
    ensures Cross(w, v, x, n) >= 0.0
    ensures n >= 2 && RatioRises(w, v) ==> Cross(w, v, x, n) > 0.0
  {
    if n > 0 {
      CrossSign(w, v, x, n - 1);
      PullOrder(w, v, x, n - 1, n - 1);
    }
  }

  lemma MeanOrder(w: seq<real>, v: seq<real>, x: seq<real>)
    requires Positive(w) && Positive(v) && |w| == |v| == |x| >= 2 && Increasing(x)
    requires RatioRises(w, v)
    ensures Mean(w, x) < Mean(v, x)
  {
    assert RatioNeverFalls(w, v) by {
      forall i, j | 0 <= i < j < |w| ensures RatioAtLeast(w, v, i, j) {
        assert RatioAbove(w, v, i, j);
      }
    }
    CrossSign(w, v, x, |w|);
    CrossIs(w, v, x, |w|);
    M0Positive(w, |w|);
    M0Positive(v, |w|);
    QuotientOrder(M1(w, x, |w|), M0(w, |w|), M1(v, x, |w|), M0(v, |w|));
  }

  // ----- the mean is inside the range -----

  lemma InsideStep(low: real, high: real, y: real, s: real, u: real, m: real)
    requires s > 0.0 && u > 0.0 && low <= high < y && low * s <= m <= high * s
    ensures low * (s + u) < m + Times(y, u) < y * (s + u)
  {
    assert low * (s + u) == low * s + low * u && y * (s + u) == y * s + y * u;
    ScaledOrder(u, y, low);
    ScaledOrder(s, y, high);
  }

  lemma {:induction false} SumsInside(w: seq<real>, x: seq<real>, n: nat)
    requires Positive(w) && Increasing(x) && 1 < n <= |w| == |x|
    ensures x[0] * M0(w, n) < M1(w, x, n) < x[n - 1] * M0(w, n)
  {
    M0Positive(w, n - 1);
    if n > 2 {
      SumsInside(w, x, n - 1);
    } else {
      assert M1(w, x, 1) == M1(w, x, 0) + Times(x[0], w[0]);
      assert M0(w, 1) == M0(w, 0) + w[0];
    }
    InsideStep(x[0], x[n - 2], x[n - 1], M0(w, n - 1), w[n - 1], M1(w, x, n - 1));
  }

  lemma MeanInside(w: seq<real>, x: seq<real>)
    requires Positive(w) && Increasing(x) && |w| == |x| >= 2
    ensures x[0] < Mean(w, x) < x[|x| - 1]
  {
    SumsInside(w, x, |w|);
    M0Positive(w, |w|);
    QuotientOrder(x[0], 1.0, M1(w, x, |w|), M0(w, |w|));
    QuotientOrder(M1(w, x, |w|), M0(w, |w|), x[|x| - 1], 1.0);
  }

  // ----- the variance is positive -----

  function SquaredGap(d: real, u: real): real {
    d * d * u
  }

  /** u times the squared distances of the first n weights from y. */
  function SquaredGaps(w: seq<real>, x: seq<real>, y: real, n: nat): real
    requires n <= |w| == |x|
  {
    if n == 0 then 0.0 else SquaredGaps(w, x, y, n - 1) + SquaredGap(y - x[n - 1], w[n - 1])
  }

  function Quadratic(y: real, s0: real, s1: real, s2: real): real {
    s2 - 2.0 * y * s1 + y * y * s0
  }

  lemma {:induction false} SquaredGapsIs(w: seq<real>, x: seq<real>, y: real, n: nat)
    requires n <= |w| == |x|
    ensures SquaredGaps(w, x, y, n) == Quadratic(y, M0(w, n), M1(w, x, n), M2(w, x, n))
  {
    if n > 0 {
      SquaredGapsIs(w, x, y, n - 1);
      QuadraticStep(y, x[n - 1], w[n - 1], M0(w, n - 1), M1(w, x, n - 1), M2(w, x, n - 1),
                    M0(w, n), M1(w, x, n), M2(w, x, n));
    }
  }

  lemma QuadraticStep(y: real, z: real, u: real, s0: real, s1: real, s2: real, r0: real, r1: real, r2: real)
    requires r0 == s0 + u && r1 == s1 + Times(z, u) && r2 == s2 + Second(z, u)
    ensures Quadratic(y, r0, r1, r2) == Quadratic(y, s0, s1, s2) + SquaredGap(y - z, u)
  {
    var d := y - z;
    assert d * d == y * y - 2.0 * y * z + z * z;
    assert d * d * u == y * y * u - 2.0 * y * (z * u) + z * z * u;
    Distribute(2.0 * y, s1, z * u, r1);
    Distribute(y * y, s0, u, r0);
  }

  lemma SquaredGapPositive(d: real, u: real)
    requires d > 0.0 && u > 0.0
    ensures SquaredGap(d, u) > 0.0
  {
    ProductPositive(d, u);
    ProductPositive(d, d * u);
    assert d * d * u == d * (d * u);
  }

  lemma {:induction false} SquaredGapsPositive(w: seq<real>, x: seq<real>, top: nat, n: nat)
    requires Positive(w) && Increasing(x) && n <= top < |w| == |x|
    ensures SquaredGaps(w, x, x[top], n) >= 0.0
    ensures n > 0 ==> SquaredGaps(w, x, x[top], n) > 0.0
  {
    if n > 0 {
      SquaredGapsPositive(w, x, top, n - 1);
      SquaredGapPositive(x[top] - x[n - 1], w[n - 1]);
    }
  }

  function Spread(w: seq<real>, x: seq<real>, n: nat): real
    requires n <= |w| == |x|
  {
    if n == 0 then 0.0 else Spread(w, x, n - 1) + Times(w[n - 1], SquaredGaps(w, x, x[n - 1], n - 1))
  }

  function Determinant(s0: real, s1: real, s2: real): real {
    s0 * s2 - s1 * s1
  }

  lemma {:induction false} SpreadIs(w: seq<real>, x: seq<real>, n: nat)
    requires n <= |w| == |x|
    ensures Spread(w, x, n) == Determinant(M0(w, n), M1(w, x, n), M2(w, x, n))
  {
    if n > 0 {
      SpreadIs(w, x, n - 1);
      SquaredGapsIs(w, x, x[n - 1], n - 1);
      SpreadStep(M0(w, n - 1), M1(w, x, n - 1), M2(w, x, n - 1), x[n - 1], w[n - 1],
                 M0(w, n), M1(w, x, n), M2(w, x, n));
    }
  }

  lemma SpreadStep(s0: real, s1: real, s2: real, y: real, u: real, r0: real, r1: real, r2: real)
    requires r0 == s0 + u && r1 == s1 + Times(y, u) && r2 == s2 + Second(y, u)
    ensures Determinant(r0, r1, r2) == Determinant(s0, s1, s2) + Times(u, Quadratic(y, s0, s1, s2))
  {
    assert r0 * r2 == s0 * s2 + s0 * (y * y * u) + u * s2 + u * (y * y * u);
    assert r1 * r1 == s1 * s1 + 2.0 * s1 * (y * u) + (y * u) * (y * u);
    assert (y * u) * (y * u) == u * (y * y * u);
    assert u * (s2 - 2.0 * y * s1 + y * y * s0) == u * s2 - 2.0 * s1 * (y * u) + s0 * (y * y * u);
  }

  lemma {:induction false} SpreadPositive(w: seq<real>, x: seq<real>, n: nat)
    requires Positive(w) && Increasing(x) && n <= |w| == |x|
    ensures Spread(w, x, n) >= 0.0
    ensures n >= 2 ==> Spread(w, x, n) > 0.0
  {
    if n > 0 {
      SpreadPositive(w, x, n - 1);
      SquaredGapsPositive(w, x, n - 1, n - 1);
      ScaledOrder(w[n - 1], SquaredGaps(w, x, x[n - 1], n - 1), 0.0);
    }
  }

  /** The variance as one fraction. */
  lemma VarianceIs(w: seq<real>, x: seq<real>)
    requires Positive(w) && |w| == |x| > 0
    ensures M0(w, |w|) > 0.0
    ensures Times(Mean(w, x), M0(w, |w|)) == M1(w, x, |w|)
    ensures Times(Variance(w, x), Times(M0(w, |w|), M0(w, |w|))) == Spread(w, x, |w|)
  {
    M0Positive(w, |w|);
    SpreadIs(w, x, |w|);
    Fraction(M0(w, |w|), M1(w, x, |w|), M2(w, x, |w|));
  }

  lemma Fraction(s0: real, s1: real, s2: real)
    requires s0 > 0.0
    ensures Times(s1 / s0, s0) == s1
    ensures Times(VarianceOf(s0, s1, s2), Times(s0, s0)) == Determinant(s0, s1, s2)
  {
    var m, q := s1 / s0, s2 / s0;
    assert m * s0 == s1 && q * s0 == s2;
    assert (q - m * m) * (s0 * s0) == s0 * (q * s0) - (m * s0) * (m * s0);
  }

  lemma VariancePositive(w: seq<real>, x: seq<real>)
    requires Positive(w) && Increasing(x) && |w| == |x| >= 2
    ensures Variance(w, x) > 0.0
  {
    SpreadPositive(w, x, |w|);
    VarianceIs(w, x);
    ProductPositive(M0(w, |w|), M0(w, |w|));
    SignOfProduct(Variance(w, x), Times(M0(w, |w|), M0(w, |w|)));
  }

  // ----- a variance bound from one-sided weight ratios -----

  ghost predicate Consecutive(x: seq<real>) {
    forall i {:trigger x[i]} :: 0 < i < |x| ==> x[i] == x[i - 1] + 1.0
  }

  lemma {:induction false} ConsecutiveIncreasing(x: seq<real>)
    requires Consecutive(x)
    ensures Increasing(x)
  {
    forall i, j | 0 <= i < j < |x| ensures x[i] < x[j] {
      ConsecutiveFrom(x, i, j);
    }
  }

  lemma {:induction false} ConsecutiveFrom(x: seq<real>, i: nat, j: nat)
    requires Consecutive(x) && i < j < |x|
    ensures x[i] < x[j]
    decreases j
  {
    assert x[j] == x[j - 1] + 1.0;
    if i < j - 1 {
      ConsecutiveFrom(x, i, j - 1);
    }
  }

  /** Each weight moved one value up and multiplied by its distance from the top. */
  function FromTop(w: seq<real>, x: seq<real>): seq<real>
    requires |w| == |x| > 0
  {
    seq(|w|, i requires 0 <= i < |w| => if i == 0 then 0.0 else Times(x[|x| - 1] - x[i - 1], w[i - 1]))
  }

  /** Each weight moved one value down and multiplied by its distance from the bottom. */
  function FromBottom(w: seq<real>, x: seq<real>): seq<real>
    requires |w| == |x| > 0
  {
    seq(|w|, i requires 0 <= i < |w| => if i == |w| - 1 then 0.0 else Times(x[i + 1] - x[0], w[i + 1]))
  }

  lemma {:induction false} FromTopSums(w: seq<real>, x: seq<real>, n: nat)
    requires |w| == |x| && n < |w| && Consecutive(x)
    ensures M0(FromTop(w, x), n + 1) == TopGap(x[|x| - 1], M0(w, n), M1(w, x, n))
    ensures M1(FromTop(w, x), x, n + 1) == TopGapRaised(x[|x| - 1], M0(w, n), M1(w, x, n), M2(w, x, n))
  {
    var u := FromTop(w, x);
    if n == 0 {
      assert M0(u, 1) == M0(u, 0) + u[0];
      assert M1(u, x, 1) == M1(u, x, 0) + Times(x[0], u[0]);
    } else {
      FromTopSums(w, x, n - 1);
      var z, v := x[n - 1], w[n - 1];
      assert x[n] == z + 1.0;
      assert u[n] == Times(x[|x| - 1] - z, v);
      TopGapStep(x[|x| - 1], z, v, M0(w, n - 1), M1(w, x, n - 1), M2(w, x, n - 1),
                 M0(w, n), M1(w, x, n), M2(w, x, n), x[n], u[n]);
    }
  }

  function TopGap(top: real, s0: real, s1: real): real {
    top * s0 - s1
  }

  function TopGapRaised(top: real, s0: real, s1: real, s2: real): real {
    top * s1 - s2 + top * s0 - s1
  }

  lemma TopGapStep(top: real, z: real, v: real, s0: real, s1: real, s2: real, r0: real, r1: real, r2: real,
                   y: real, u: real)
    requires r0 == s0 + v && r1 == s1 + Times(z, v) && r2 == s2 + Second(z, v)
    requires y == z + 1.0 && u == Times(top - z, v)
    ensures TopGap(top, r0, r1) == TopGap(top, s0, s1) + u
    ensures TopGapRaised(top, r0, r1, r2) == TopGapRaised(top, s0, s1, s2) + Times(y, u)
  {
    assert u == top * v - z * v;
    assert y * u == z * (top * v) - z * z * v + top * v - z * v;
    assert top * r1 == top * s1 + z * (top * v);
    assert top * r0 == top * s0 + top * v;
  }

  lemma {:induction false} FromBottomSums(w: seq<real>, x: seq<real>, n: nat)
    requires |w| == |x| && n < |w| && Consecutive(x)
    ensures M0(FromBottom(w, x), n) == BottomGap(x[0], M0(w, n + 1), M1(w, x, n + 1))
    ensures M1(FromBottom(w, x), x, n) == BottomGapLowered(x[0], M0(w, n + 1), M1(w, x, n + 1), M2(w, x, n + 1))
  {
    var u := FromBottom(w, x);
    if n == 0 {
      BottomGapStart(x[0], w[0]);
      assert M0(w, 1) == M0(w, 0) + w[0];
      assert M1(w, x, 1) == M1(w, x, 0) + Times(x[0], w[0]);
      assert M2(w, x, 1) == M2(w, x, 0) + Second(x[0], w[0]);
    } else {
      FromBottomSums(w, x, n - 1);
      var z, v := x[n], w[n];
      assert x[n] == x[n - 1] + 1.0;
      assert u[n - 1] == Times(z - x[0], v);
      BottomGapStep(x[0], z, v, M0(w, n), M1(w, x, n), M2(w, x, n),
                    M0(w, n + 1), M1(w, x, n + 1), M2(w, x, n + 1), x[n - 1], u[n - 1]);
    }
  }

  function BottomGap(low: real, s0: real, s1: real): real {
    s1 - low * s0
  }

  function BottomGapLowered(low: real, s0: real, s1: real, s2: real): real {
    s2 - low * s1 - s1 + low * s0
  }

  lemma BottomGapStart(low: real, v: real)
    ensures BottomGap(low, v, Times(low, v)) == 0.0
    ensures BottomGapLowered(low, v, Times(low, v), Second(low, v)) == 0.0
  {
    assert low * (low * v) == low * low * v;
  }

  lemma BottomGapStep(low: real, z: real, v: real, s0: real, s1: real, s2: real, r0: real, r1: real, r2: real,
                      y: real, u: real)
    requires r0 == s0 + v && r1 == s1 + Times(z, v) && r2 == s2 + Second(z, v)
    requires y == z - 1.0 && u == Times(z - low, v)
    ensures BottomGap(low, r0, r1) == BottomGap(low, s0, s1) + u
    ensures BottomGapLowered(low, r0, r1, r2) == BottomGapLowered(low, s0, s1, s2) + Times(y, u)
  {
    assert u == z * v - low * v;
    assert y * u == z * z * v - low * (z * v) - z * v + low * v;
    assert low * r1 == low * s1 + low * (z * v);
    assert low * r0 == low * s0 + low * v;
  }

  /** If the raised weights gain on the weights, the variance is at most the distance from mean to top. */
  lemma VarianceBelowTop(w: seq<real>, x: seq<real>)
    requires Positive(w) && Consecutive(x) && |w| == |x| > 0
    requires RatioNeverFalls(w, FromTop(w, x))
    ensures Variance(w, x) <= x[|x| - 1] - Mean(w, x)
  {
    SpreadBelowTop(w, x);
    VarianceIs(w, x);
    DividedBound(Variance(w, x), Mean(w, x), M0(w, |w|), M1(w, x, |w|), Spread(w, x, |w|), x[|x| - 1]);
  }

  lemma SpreadBelowTop(w: seq<real>, x: seq<real>)
    requires Positive(w) && Consecutive(x) && |w| == |x| > 0
    requires RatioNeverFalls(w, FromTop(w, x))
    ensures Spread(w, x, |w|) <= Times(TopGap(x[|x| - 1], M0(w, |w|), M1(w, x, |w|)), M0(w, |w|))
  {
    var u, n := FromTop(w, x), |w|;
    ConsecutiveIncreasing(x);
    CrossSign(w, u, x, n);
    CrossIs(w, u, x, n);
    AllFromTop(w, x);
    SpreadIs(w, x, n);
    TopAlgebra(x[n - 1], M0(w, n), M1(w, x, n), M2(w, x, n), M0(u, n), M1(u, x, n));
  }

  lemma AllFromTop(w: seq<real>, x: seq<real>)
    requires |w| == |x| > 0 && Consecutive(x)
    ensures M0(FromTop(w, x), |w|) == TopGap(x[|x| - 1], M0(w, |w|), M1(w, x, |w|))
    ensures M1(FromTop(w, x), x, |w|) == TopGapRaised(x[|x| - 1], M0(w, |w|), M1(w, x, |w|), M2(w, x, |w|))
  {
    var n := |w|;
    FromTopSums(w, x, n - 1);
    LastTermAtTop(x[n - 1], w[n - 1], M0(w, n - 1), M1(w, x, n - 1), M2(w, x, n - 1),
                  M0(w, n), M1(w, x, n), M2(w, x, n));
  }

  lemma LastTermAtTop(top: real, v: real, s0: real, s1: real, s2: real, r0: real, r1: real, r2: real)
    requires r0 == s0 + v && r1 == s1 + Times(top, v) && r2 == s2 + Second(top, v)
    ensures TopGap(top, r0, r1) == TopGap(top, s0, s1)
    ensures TopGapRaised(top, r0, r1, r2) == TopGapRaised(top, s0, s1, s2)
  {
    assert top * r0 == top * s0 + top * v;
    assert top * r1 == top * s1 + top * top * v;
  }

  lemma TopAlgebra(top: real, s0: real, s1: real, s2: real, u0: real, u1: real)
    requires u0 == TopGap(top, s0, s1) && u1 == TopGapRaised(top, s0, s1, s2)
    requires Minor(s0, s1, u0, u1) >= 0.0
    ensures Determinant(s0, s1, s2) <= Times(TopGap(top, s0, s1), s0)
  {
    assert u1 * s0 == top * s1 * s0 - s2 * s0 + top * s0 * s0 - s1 * s0;
    assert s1 * u0 == top * s1 * s0 - s1 * s1;
    assert u0 * s0 == top * s0 * s0 - s1 * s0;
  }

  lemma DividedBound(variance: real, mean: real, s0: real, s1: real, spread: real, top: real)
    requires s0 > 0.0 && Times(mean, s0) == s1 && Times(variance, Times(s0, s0)) == spread
    requires spread <= Times(TopGap(top, s0, s1), s0)
    ensures variance <= top - mean
  {
    ScaledDifference(top - mean, variance, s0, TopGap(top, s0, s1));
  }

  lemma ScaledDifference(d: real, variance: real, s0: real, gap: real)
    requires s0 > 0.0 && gap == d * s0 && variance * Times(s0, s0) <= Times(gap, s0)
    ensures variance <= d
  {
    var q := Times(s0, s0);
    ProductPositive(s0, s0);
    assert Times(gap, s0) == d * q;
    assert (d - variance) * q == d * q - variance * q;
    SignOfProduct(d - variance, q);
  }

  /** The mirror image at the lower end. */
  lemma VarianceBelowMean(w: seq<real>, x: seq<real>)
    requires Positive(w) && Consecutive(x) && |w| == |x| > 0
    requires RatioNeverFalls(FromBottom(w, x), w)
    ensures Variance(w, x) <= Mean(w, x) - x[0]
  {
    SpreadBelowMean(w, x);
    VarianceIs(w, x);
    DividedBoundBelow(Variance(w, x), Mean(w, x), M0(w, |w|), M1(w, x, |w|), Spread(w, x, |w|), x[0]);
  }

  lemma SpreadBelowMean(w: seq<real>, x: seq<real>)
    requires Positive(w) && Consecutive(x) && |w| == |x| > 0
    requires RatioNeverFalls(FromBottom(w, x), w)
    ensures Spread(w, x, |w|) <= Times(BottomGap(x[0], M0(w, |w|), M1(w, x, |w|)), M0(w, |w|))
  {
    var u, n := FromBottom(w, x), |w|;
    ConsecutiveIncreasing(x);
    CrossSign(u, w, x, n);
    CrossIs(u, w, x, n);
    AllFromBottom(w, x);
    SpreadIs(w, x, n);
    BottomAlgebra(x[0], M0(w, n), M1(w, x, n), M2(w, x, n), M0(u, n), M1(u, x, n));
  }

  lemma AllFromBottom(w: seq<real>, x: seq<real>)
    requires |w| == |x| > 0 && Consecutive(x)
    ensures M0(FromBottom(w, x), |w|) == BottomGap(x[0], M0(w, |w|), M1(w, x, |w|))
    ensures M1(FromBottom(w, x), x, |w|) == BottomGapLowered(x[0], M0(w, |w|), M1(w, x, |w|), M2(w, x, |w|))
  {
    var u := FromBottom(w, x);
    FromBottomSums(w, x, |w| - 1);
    assert u[|w| - 1] == 0.0;
    assert Times(x[|w| - 1], 0.0) == 0.0;
  }

  lemma BottomAlgebra(low: real, s0: real, s1: real, s2: real, u0: real, u1: real)
    requires u0 == BottomGap(low, s0, s1) && u1 == BottomGapLowered(low, s0, s1, s2)
    requires Minor(u0, u1, s0, s1) >= 0.0
    ensures Determinant(s0, s1, s2) <= Times(BottomGap(low, s0, s1), s0)
  {
    assert u1 * s0 == s2 * s0 - low * s1 * s0 - s1 * s0 + low * s0 * s0;
    assert s1 * u0 == s1 * s1 - low * s1 * s0;
    assert u0 * s0 == s1 * s0 - low * s0 * s0;
  }

  lemma DividedBoundBelow(variance: real, mean: real, s0: real, s1: real, spread: real, low: real)
    requires s0 > 0.0 && Times(mean, s0) == s1 && Times(variance, Times(s0, s0)) == spread
    requires spread <= Times(BottomGap(low, s0, s1), s0)
    ensures variance <= mean - low
  {
    ScaledDifference(mean - low, variance, s0, BottomGap(low, s0, s1));
  }
}
