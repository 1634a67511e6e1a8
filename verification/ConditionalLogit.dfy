/**
 The one-coefficient conditional logistic fit over matched strata.
 The model is exact: the odds ratio is exp(beta) for a real exponential `exp` that is passed in,
 and the weights are true binomials.
 */
module ConditionalLogit {
  import opened Binomials
  import opened Moments

  // ----- the exponential -----

  ghost predicate Grows(exp: real -> real, a: real, b: real) {
    a < b ==> exp(a) < exp(b)
  }

  ghost predicate TurnsSumToProduct(exp: real -> real, a: real, b: real, sum: real) {
    sum == a + b ==> exp(sum) == Times(exp(a), exp(b))
  }

  ghost predicate IsExponential(exp: real -> real) {
    && (forall a :: exp(a) > 0.0)
    && (forall a, b :: Grows(exp, a, b))
    && (forall a, b, sum :: TurnsSumToProduct(exp, a, b, sum))
  }

  function Power(base: real, n: nat): real {
    if n == 0 then 1.0 else Times(base, Power(base, n - 1))
  }

  lemma {:induction false} PowerPositive(base: real, n: nat)
    requires base > 0.0
    ensures Power(base, n) > 0.0
  {
    if n > 0 {
      PowerPositive(base, n - 1);
      ProductPositive(base, Power(base, n - 1));
    }
  }

  lemma ExponentialZero(exp: real -> real)
    requires IsExponential(exp)
    ensures exp(0.0) == 1.0
  {
    assert TurnsSumToProduct(exp, 0.0, 0.0, 0.0);
    Cancel(exp(0.0));
  }

  lemma Cancel(e: real)
    requires e > 0.0 && e == Times(e, e)
    ensures e == 1.0
  {
    if e < 1.0 {
      assert e * (1.0 - e) == e - e * e;
      ProductPositive(e, 1.0 - e);
    } else if e > 1.0 {
      ScaledOrder(e, e, 1.0);
    }
  }

  lemma {:induction false} ExponentialMultiple(exp: real -> real, beta: real, n: nat, product: real)
    requires IsExponential(exp) && product == Times(beta, n as real)
    ensures exp(product) == Power(exp(beta), n)
  {
    if n == 0 {
      ExponentialZero(exp);
      assert product == 0.0;
    } else {
      var rest := product - beta;
      Distribute(beta, (n - 1) as real, 1.0, n as real);
      ExponentialMultiple(exp, beta, n - 1, rest);
      assert TurnsSumToProduct(exp, beta, rest, product);
      assert Power(exp(beta), n) == Times(exp(beta), Power(exp(beta), n - 1));
    }
  }

  // ----- one stratum -----

  /** The sufficient statistics of one stratum. */
  datatype Sufficient = Sufficient(hidden: nat, control: nat, outcomes: nat, observedHidden: nat) {
    ghost predicate Useful() {
      0 < hidden && 0 < control && 0 < outcomes < hidden + control
    }

    /** The observed count is one that the margins allow. */
    ghost predicate InRange() {
      Minimum() <= observedHidden <= Maximum()
    }

    function Minimum(): nat {
      if outcomes > control then outcomes - control else 0
    }

    function Maximum(): nat {
      if hidden < outcomes then hidden else outcomes
    }
  }

  /** The number of ways to place `count` of the outcomes on the hidden opportunities. */
  function Coefficient(s: Sufficient, count: nat): real {
    (Choose(s.hidden, count) * Choose(s.control, s.outcomes - count)) as real
  }

  /** The conditional likelihood weight of `count` hidden outcomes at odds ratio theta. */
  function Weight(s: Sufficient, theta: real, count: nat): real {
    Times(Coefficient(s, count), Power(theta, count))
  }

  function Span(s: Sufficient): nat
    requires s.Minimum() <= s.Maximum()
  {
    s.Maximum() - s.Minimum() + 1
  }

  function Weights(s: Sufficient, theta: real): seq<real>
    requires s.Minimum() <= s.Maximum()
  {
    seq(Span(s), i requires 0 <= i < Span(s) => Weight(s, theta, s.Minimum() + i))
  }

  function Counts(s: Sufficient): seq<real>
    requires s.Minimum() <= s.Maximum()
  {
    seq(Span(s), i requires 0 <= i < Span(s) => (s.Minimum() + i) as real)
  }

  lemma CoefficientPositive(s: Sufficient, count: nat)
    requires s.Minimum() <= count <= s.Maximum()
    ensures Coefficient(s, count) > 0.0
  {
    ChoosePositive(s.hidden, count);
    ChoosePositive(s.control, s.outcomes - count);
    assert Choose(s.hidden, count) * Choose(s.control, s.outcomes - count) > 0;
  }

  lemma WeightPositive(s: Sufficient, theta: real, count: nat)
    requires theta > 0.0 && s.Minimum() <= count <= s.Maximum()
    ensures Weight(s, theta, count) > 0.0
  {
    CoefficientPositive(s, count);
    PowerPositive(theta, count);
    ProductPositive(Coefficient(s, count), Power(theta, count));
  }

  /** The clipped range is proper, and holds exactly the counts that can occur: those with a positive weight. */
  lemma RangeOfUseful(s: Sufficient, theta: real, count: nat)
    requires s.Useful() && theta > 0.0
    ensures s.Minimum() < s.Maximum()
    ensures Weight(s, theta, count) > 0.0 <==> s.Minimum() <= count <= s.Maximum()
  {
    if s.Minimum() <= count <= s.Maximum() {
      WeightPositive(s, theta, count);
    } else {
      ChoosePositive(s.hidden, count);
      ChoosePositive(s.control, s.outcomes - count);
      assert Choose(s.hidden, count) * Choose(s.control, s.outcomes - count) == 0;
    }
  }

  lemma WeightsPositive(s: Sufficient, theta: real)
    requires theta > 0.0 && s.Minimum() <= s.Maximum()
    ensures Positive(Weights(s, theta))
    ensures Consecutive(Counts(s)) && Increasing(Counts(s))
  {
    forall i | 0 <= i < Span(s) ensures Weights(s, theta)[i] > 0.0 {
      WeightPositive(s, theta, s.Minimum() + i);
    }
    ConsecutiveIncreasing(Counts(s));
  }

  /** The conditional mean number of hidden outcomes. */
  function Expected(s: Sufficient, theta: real): real
    requires theta > 0.0 && s.Minimum() <= s.Maximum()
  {
    WeightsPositive(s, theta);
    Mean(Weights(s, theta), Counts(s))
  }

  function Dispersion(s: Sufficient, theta: real): real
    requires theta > 0.0 && s.Minimum() <= s.Maximum()
  {
    WeightsPositive(s, theta);
    Variance(Weights(s, theta), Counts(s))
  }

  // ----- the mean grows with the odds ratio -----

  lemma {:induction false} PowerRatio(a: real, b: real, i: nat, j: nat)
    requires 0.0 < a < b && i < j
    ensures Times(Power(a, i), Power(b, j)) > Times(Power(a, j), Power(b, i))
    decreases j - i
  {
    var p, q := Power(a, i), Power(b, i);
    PowerPositive(a, i);
    PowerPositive(b, i);
    if j == i + 1 {
      PowerRatioStep(p, q, a, b, Power(a, j), Power(b, j));
    } else {
      PowerRatio(a, b, i, j - 1);
      PowerPositive(a, j - 1);
      PowerPositive(b, j - 1);
      PowerRatioGrow(p, q, a, b, Power(a, j - 1), Power(b, j - 1), Power(a, j), Power(b, j));
    }
  }

  lemma PowerRatioStep(p: real, q: real, a: real, b: real, pa: real, qb: real)
    requires p > 0.0 && q > 0.0 && 0.0 < a < b && pa == Times(a, p) && qb == Times(b, q)
    ensures Times(p, qb) > Times(pa, q)
  {
    assert p * qb == b * (p * q) && pa * q == a * (p * q);
    ProductPositive(p, q);
    ScaledOrder(p * q, b, a);
  }

  lemma PowerRatioGrow(p: real, q: real, a: real, b: real, pj: real, qj: real, pa: real, qb: real)
    requires p > 0.0 && q > 0.0 && pj > 0.0 && qj > 0.0 && 0.0 < a < b && pa == Times(a, pj) && qb == Times(b, qj)
    requires Times(p, qj) > Times(pj, q)
    ensures Times(p, qb) > Times(pa, q)
  {
    var l, r := p * qj, pj * q;
    assert p * qb == b * l && pa * q == a * r;
    ProductPositive(pj, q);
    ScaledOrder(b, l, r);
    ScaledOrder(r, b, a);
  }

  lemma WeightsRatio(s: Sufficient, a: real, b: real)
    requires 0.0 < a < b && s.Minimum() <= s.Maximum()
    ensures RatioRises(Weights(s, a), Weights(s, b))
  {
    forall i, j | 0 <= i < j < Span(s) ensures RatioAbove(Weights(s, a), Weights(s, b), i, j) {
      var m := s.Minimum();
      PowerRatio(a, b, m + i, m + j);
      CoefficientPositive(s, m + i);
      CoefficientPositive(s, m + j);
      FourWay(Coefficient(s, m + i), Coefficient(s, m + j),
              Power(a, m + i), Power(a, m + j), Power(b, m + i), Power(b, m + j));
      assert Weights(s, a)[i] == Weight(s, a, m + i) && Weights(s, a)[j] == Weight(s, a, m + j);
      assert Weights(s, b)[i] == Weight(s, b, m + i) && Weights(s, b)[j] == Weight(s, b, m + j);
    }
  }

  lemma FourWay(ci: real, cj: real, ai: real, aj: real, bi: real, bj: real)
    requires ci > 0.0 && cj > 0.0
    requires Times(ai, bj) > Times(aj, bi)
    ensures Times(Times(ci, ai), Times(cj, bj)) > Times(Times(cj, aj), Times(ci, bi))
  {
    var l, r, c := ai * bj, aj * bi, ci * cj;
    assert (ci * ai) * (cj * bj) == c * l;
    assert (cj * aj) * (ci * bi) == c * r;
    ProductPositive(ci, cj);
    ScaledOrder(c, l, r);
  }

  /** The conditional mean is strictly increasing in the odds ratio. */
  lemma ExpectedIncreases(s: Sufficient, a: real, b: real)
    requires s.Useful() && 0.0 < a < b
    ensures Expected(s, a) < Expected(s, b)
  {
    WeightsPositive(s, a);
    WeightsPositive(s, b);
    WeightsRatio(s, a, b);
    MeanOrder(Weights(s, a), Weights(s, b), Counts(s));
  }

  lemma ExpectedInside(s: Sufficient, theta: real)
    requires s.Useful() && theta > 0.0
    ensures s.Minimum() as real < Expected(s, theta) < s.Maximum() as real
    ensures Dispersion(s, theta) > 0.0
  {
    WeightsPositive(s, theta);
    MeanInside(Weights(s, theta), Counts(s));
    VariancePositive(Weights(s, theta), Counts(s));
  }

  // ----- how far the variance can exceed the distance to a bound -----

  /** Neighbouring weights, cross-multiplied by their factorial steps. */
  lemma WeightStep(s: Sufficient, theta: real, c: nat)
    requires s.Minimum() <= c < s.Maximum()
    ensures Times(Weight(s, theta, c + 1), ((c + 1) * (s.control - s.outcomes + c + 1)) as real)
         == Times(Times(theta, Weight(s, theta, c)), ((s.hidden - c) * (s.outcomes - c)) as real)
  {
    NeighbourStep(s.hidden, s.control, s.outcomes, c);
    StepReals(Choose(s.hidden, c + 1) * Choose(s.control, s.outcomes - (c + 1)),
              Choose(s.hidden, c) * Choose(s.control, s.outcomes - c),
              (c + 1) * (s.control - s.outcomes + c + 1), (s.hidden - c) * (s.outcomes - c),
              theta, Power(theta, c));
  }

  lemma StepReals(c1: int, c0: int, up: int, down: int, theta: real, p: real)
    requires c1 * up == c0 * down
    ensures Times(Times(c1 as real, Times(theta, p)), up as real)
         == Times(Times(theta, Times(c0 as real, p)), down as real)
  {
    assert c1 as real * up as real == (c1 * up) as real;
    assert c0 as real * down as real == (c0 * down) as real;
    assert c1 as real * (theta * p) * up as real == theta * p * (c1 as real * up as real);
    assert theta * (c0 as real * p) * down as real == theta * p * (c0 as real * down as real);
  }

  /** If u/w moves like a/e with a growing and e shrinking, it never falls. */
  lemma RatioFromFactors(wi: real, wj: real, ui: real, uj: real, theta: real,
                         ai: real, aj: real, ei: real, ej: real)
    requires theta > 0.0 && wi > 0.0 && wj > 0.0
    requires ei > 0.0 && ej > 0.0 && ei >= ej && 0.0 <= ai <= aj
    requires Times(theta, Times(ui, ei)) == Times(wi, ai)
    requires Times(theta, Times(uj, ej)) == Times(wj, aj)
    ensures Times(wi, uj) >= Times(wj, ui)
  {
    var left, right, q := wi * uj, wj * ui, theta * (ei * ej);
    ProductPositive(ei, ej);
    ProductPositive(theta, ei * ej);
    ProductPositive(wi, wj);
    assert left * q == wi * ei * (theta * (uj * ej));
    assert wi * ei * (wj * aj) == (wi * wj) * (ei * aj);
    assert right * q == wj * ej * (theta * (ui * ei));
    assert wj * ej * (wi * ai) == (wi * wj) * (ej * ai);
    FactorOrder(ai, aj, ei, ej);
    ScaledOrder(wi * wj, ei * aj, ej * ai);
    assert (left - right) * q == left * q - right * q;
    SignOfProduct(left - right, q);
  }

  lemma FactorOrder(ai: real, aj: real, ei: real, ej: real)
    requires ei >= ej > 0.0 && 0.0 <= ai <= aj
    ensures ei * aj >= ej * ai
  {
    assert ei * aj - ej * ai == ei * (aj - ai) + (ei - ej) * ai;
  }

  /** The factors of the upward step into `count`, split by which end of the range binds. */
  function UpperFactor(s: Sufficient, count: nat): real {
    (count * (s.control - s.outcomes + count)) as real
  }

  function UpperOther(s: Sufficient, count: nat): real {
    if s.hidden < s.outcomes then (s.outcomes - count + 1) as real else (s.hidden - count + 1) as real
  }

  function UpperOtherCount(s: Sufficient, count: nat): int {
    if s.hidden < s.outcomes then s.outcomes - count + 1 else s.hidden - count + 1
  }

  lemma RaisedWeight(s: Sufficient, theta: real, i: nat, c: nat)
    requires theta > 0.0 && s.Useful() && i < Span(s) && c == s.Minimum() + i
    ensures Times(theta, Times(FromTop(Weights(s, theta), Counts(s))[i], UpperOther(s, c)))
         == Times(Weight(s, theta, c), UpperFactor(s, c))
  {
    if i == 0 {
      assert c == 0 || s.control - s.outcomes + c == 0;
      assert UpperFactor(s, c) == 0.0;
      assert FromTop(Weights(s, theta), Counts(s))[0] == 0.0;
    } else {
      var d := s.Maximum() - c + 1;
      WeightStep(s, theta, c - 1);
      assert FromTop(Weights(s, theta), Counts(s))[i] == Times(d as real, Weight(s, theta, c - 1));
      SplitFactor(theta, d as real, Weight(s, theta, c - 1), UpperOther(s, c), d, UpperOtherCount(s, c));
      UpperProduct(s, c);
    }
  }

  lemma UpperProduct(s: Sufficient, c: nat)
    requires c > 0
    ensures (s.hidden - (c - 1)) * (s.outcomes - (c - 1)) == (s.Maximum() - c + 1) * UpperOtherCount(s, c)
    ensures UpperOther(s, c) == UpperOtherCount(s, c) as real
  {
  }

  lemma SplitFactor(theta: real, d: real, w: real, e: real, di: int, ei: int)
    requires d == di as real && e == ei as real
    ensures Times(theta, Times(Times(d, w), e)) == Times(Times(theta, w), (di * ei) as real)
  {
    assert (di * ei) as real == di as real * ei as real;
    assert theta * ((d * w) * e) == theta * w * (d * e);
  }

  lemma UpperMonotone(s: Sufficient, c: nat, c': nat)
    requires s.Useful() && s.Minimum() <= c < c' <= s.Maximum()
    ensures 0.0 <= UpperFactor(s, c) <= UpperFactor(s, c')
    ensures UpperOther(s, c) >= UpperOther(s, c') > 0.0
  {
    ProductGrows(s.control - s.outcomes, c, c');
  }

  lemma ProductGrows(d: int, c: nat, c': nat)
    requires 0 <= d + c && c < c'
    ensures 0 <= c * (d + c) <= c' * (d + c')
  {
    assert c' * (d + c') - c * (d + c) == (c' - c) * (d + c') + c * (c' - c);
  }

  lemma VarianceWithinTop(s: Sufficient, theta: real)
    requires s.Useful() && theta > 0.0
    ensures Dispersion(s, theta) <= s.Maximum() as real - Expected(s, theta)
  {
    var w, x := Weights(s, theta), Counts(s);
    WeightsPositive(s, theta);
    var u := FromTop(w, x);
    forall i, j | 0 <= i < j < |w| ensures RatioAtLeast(w, u, i, j) {
      RaisedRises(s, theta, i, j);
    }
    VarianceBelowTop(w, x);
  }

  lemma RaisedRises(s: Sufficient, theta: real, i: nat, j: nat)
    requires s.Useful() && theta > 0.0 && i < j < Span(s)
    ensures RatioAtLeast(Weights(s, theta), FromTop(Weights(s, theta), Counts(s)), i, j)
  {
    var c, c' := s.Minimum() + i, s.Minimum() + j;
    var u := FromTop(Weights(s, theta), Counts(s));
    WeightPositive(s, theta, c);
    WeightPositive(s, theta, c');
    RaisedWeight(s, theta, i, c);
    RaisedWeight(s, theta, j, c');
    UpperMonotone(s, c, c');
    RatioFromFactors(Weight(s, theta, c), Weight(s, theta, c'), u[i], u[j], theta,
                     UpperFactor(s, c), UpperFactor(s, c'), UpperOther(s, c), UpperOther(s, c'));
  }

  function LowerFactor(s: Sufficient, theta: real, count: nat): real {
    Times(theta, ((s.hidden - count) * (s.outcomes - count)) as real)
  }

  function LowerOther(s: Sufficient, count: nat): real {
    if s.outcomes > s.control then (count + 1) as real else (s.control - s.outcomes + count + 1) as real
  }

  function LowerOtherCount(s: Sufficient, count: nat): int {
    if s.outcomes > s.control then count + 1 else s.control - s.outcomes + count + 1
  }

  lemma LoweredWeight(s: Sufficient, theta: real, i: nat, c: nat)
    requires theta > 0.0 && s.Useful() && i < Span(s) && c == s.Minimum() + i
    ensures Times(1.0, Times(FromBottom(Weights(s, theta), Counts(s))[i], LowerOther(s, c)))
         == Times(Weight(s, theta, c), LowerFactor(s, theta, c))
  {
    Reorder(theta, Weight(s, theta, c), ((s.hidden - c) * (s.outcomes - c)) as real);
    if i == Span(s) - 1 {
      assert s.hidden - c == 0 || s.outcomes - c == 0;
      assert LowerFactor(s, theta, c) == 0.0;
      assert FromBottom(Weights(s, theta), Counts(s))[i] == 0.0;
    } else {
      WeightStep(s, theta, c);
      FromBottomAt(s, theta, i, c);
      SplitFactor(1.0, (i + 1) as real, Weight(s, theta, c + 1), LowerOther(s, c), i + 1, LowerOtherCount(s, c));
      LowerProduct(s, i, c);
    }
  }

  lemma LowerProduct(s: Sufficient, i: nat, c: nat)
    requires c == s.Minimum() + i
    ensures (i + 1) * LowerOtherCount(s, c) == (c + 1) * (s.control - s.outcomes + c + 1)
    ensures LowerOther(s, c) == LowerOtherCount(s, c) as real
  {
  }

  lemma FromBottomAt(s: Sufficient, theta: real, i: nat, c: nat)
    requires theta > 0.0 && s.Useful() && i + 1 < Span(s) && c == s.Minimum() + i
    ensures FromBottom(Weights(s, theta), Counts(s))[i] == Times((i + 1) as real, Weight(s, theta, c + 1))
  {
  }

  lemma Reorder(theta: real, w: real, r: real)
    ensures Times(Times(theta, w), r) == Times(w, Times(theta, r))
  {
  }

  lemma LowerMonotone(s: Sufficient, theta: real, c: nat, c': nat)
    requires s.Useful() && theta > 0.0 && s.Minimum() <= c < c' <= s.Maximum()
    ensures LowerFactor(s, theta, c) >= LowerFactor(s, theta, c') >= 0.0
    ensures 0.0 < LowerOther(s, c) <= LowerOther(s, c')
  {
    ProductShrinks(s.hidden - c, s.outcomes - c, c' - c);
    ScaledOrder(theta, ((s.hidden - c) * (s.outcomes - c)) as real, ((s.hidden - c') * (s.outcomes - c')) as real);
    ScaledOrder(theta, ((s.hidden - c') * (s.outcomes - c')) as real, 0.0);
  }

  lemma ProductShrinks(p: int, q: int, d: nat)
    requires d <= p && d <= q
    ensures p * q >= (p - d) * (q - d) >= 0
  {
    assert p * q - (p - d) * (q - d) == d * (p - d) + d * q;
  }

  lemma VarianceWithinBottom(s: Sufficient, theta: real)
    requires s.Useful() && theta > 0.0
    ensures Dispersion(s, theta) <= Expected(s, theta) - s.Minimum() as real
  {
    var w, x := Weights(s, theta), Counts(s);
    WeightsPositive(s, theta);
    var u := FromBottom(w, x);
    forall i, j | 0 <= i < j < |w| ensures RatioAtLeast(u, w, i, j) {
      LoweredFalls(s, theta, i, j);
    }
    VarianceBelowMean(w, x);
  }

  lemma LoweredFalls(s: Sufficient, theta: real, i: nat, j: nat)
    requires s.Useful() && theta > 0.0 && i < j < Span(s)
    ensures RatioAtLeast(FromBottom(Weights(s, theta), Counts(s)), Weights(s, theta), i, j)
  {
    var c, c' := s.Minimum() + i, s.Minimum() + j;
    var u := FromBottom(Weights(s, theta), Counts(s));
    WeightPositive(s, theta, c);
    WeightPositive(s, theta, c');
    LoweredWeight(s, theta, i, c);
    LoweredWeight(s, theta, j, c');
    LowerMonotone(s, theta, c, c');
    RatioFromFactors(Weight(s, theta, c'), Weight(s, theta, c), u[j], u[i], 1.0,
                     LowerFactor(s, theta, c'), LowerFactor(s, theta, c), LowerOther(s, c'), LowerOther(s, c));
    Commute(Weight(s, theta, c'), u[i]);
    Commute(Weight(s, theta, c), u[j]);
  }

  lemma Commute(a: real, b: real)
    ensures Times(a, b) == Times(b, a)
  {
  }

  // ----- at odds ratio one -----

  lemma {:induction false} PowerOfOne(n: nat)
    ensures Power(1.0, n) == 1.0
  {
    if n > 0 {
      PowerOfOne(n - 1);
    }
  }

  lemma TimesOne(a: real)
    ensures Times(a, 1.0) == a
  {
  }

  lemma NullWeight(s: Sufficient, i: nat)
    requires s.Minimum() <= s.Maximum() && i < Span(s)
    ensures Weights(s, 1.0)[i] == Coefficient(s, s.Minimum() + i)
  {
    var c := s.Minimum() + i;
    PowerOfOne(c);
    TimesOne(Coefficient(s, c));
    assert Weights(s, 1.0)[i] == Weight(s, 1.0, c) == Times(Coefficient(s, c), Power(1.0, c));
  }

  lemma {:induction false} NullMass(s: Sufficient, n: nat)
    requires s.Minimum() <= s.Maximum() && n <= Span(s)
    ensures M0(Weights(s, 1.0), n) == Convolution(s.hidden, s.control, s.outcomes, s.Minimum() + n) as real
  {
    if n == 0 {
      BelowMinimum(s, s.Minimum());
    } else {
      NullMass(s, n - 1);
      NullWeight(s, n - 1);
    }
  }

  lemma {:induction false} BelowMinimum(s: Sufficient, n: nat)
    requires n <= s.Minimum()
    ensures Convolution(s.hidden, s.control, s.outcomes, n) == 0
    ensures 0 < s.hidden && 0 < s.outcomes && n > 0 ==>
              Convolution(s.hidden - 1, s.control, s.outcomes - 1, n - 1) == 0
  {
    if n > 0 {
      BelowMinimum(s, n - 1);
      ChoosePositive(s.control, s.outcomes - (n - 1));
      if n > 1 {
        ChoosePositive(s.control, s.outcomes - 1 - (n - 2));
      }
    }
  }

  /** hidden times the first `n` terms of the convolution with one hidden opportunity set aside. */
  function MarkedTotal(s: Sufficient, n: nat): nat
    requires 0 < s.hidden
  {
    s.hidden * Convolution(s.hidden - 1, s.control, s.outcomes - 1, n)
  }

  lemma MarkedStep(s: Sufficient, c: nat)
    requires 0 < s.hidden && 0 < c
    ensures MarkedTotal(s, c) == MarkedTotal(s, c - 1) + c * (Choose(s.hidden, c) * Choose(s.control, s.outcomes - c))
  {
    Absorption(s.hidden, c);
    AbsorbedTerm(c, s.hidden, Choose(s.hidden, c), Choose(s.hidden - 1, c - 1), Choose(s.control, s.outcomes - c),
                 Convolution(s.hidden - 1, s.control, s.outcomes - 1, c - 1));
  }

  lemma AbsorbedTerm(c: nat, h: nat, x: nat, y: nat, k: nat, sum: nat)
    requires c * x == h * y
    ensures h * (sum + y * k) == h * sum + c * (x * k)
  {
    assert c * (x * k) == (c * x) * k;
    assert h * (y * k) == (h * y) * k;
  }

  lemma TimesCounts(a: nat, b: nat)
    ensures Times(a as real, b as real) == (a * b) as real
  {
  }

  /** First moment at odds ratio one, by absorption. */
  lemma {:induction false} NullMoment(s: Sufficient, n: nat)
    requires s.Useful() && 0 < n <= Span(s)
    ensures M1(Weights(s, 1.0), Counts(s), n) == MarkedTotal(s, s.Minimum() + n - 1) as real
  {
    var c := s.Minimum() + n - 1;
    if n == 1 {
      BelowMinimum(s, s.Minimum());
      assert M1(Weights(s, 1.0), Counts(s), 0) == 0.0;
      assert c > 0 ==> MarkedTotal(s, c - 1) == 0;
    } else {
      NullMoment(s, n - 1);
    }
    NullTerm(s, n - 1, c);
    if c > 0 {
      MarkedStep(s, c);
    }
  }

  lemma NullTerm(s: Sufficient, i: nat, c: nat)
    requires s.Minimum() <= s.Maximum() && i < Span(s) && c == s.Minimum() + i
    ensures Times(Counts(s)[i], Weights(s, 1.0)[i]) == (c * (Choose(s.hidden, c) * Choose(s.control, s.outcomes - c))) as real
  {
    NullWeight(s, i);
    TimesCounts(c, Choose(s.hidden, c) * Choose(s.control, s.outcomes - c));
  }

  lemma {:induction false} ConvolutionTail(h: nat, k: nat, m: int, n: nat)
    requires n >= h + 1
    ensures Convolution(h, k, m, n) == Convolution(h, k, m, h + 1)
  {
    if n > h + 1 {
      ConvolutionTail(h, k, m, n - 1);
      ChoosePositive(h, n - 1);
    }
  }

  lemma ConvolutionClipped(h: nat, k: nat, m: int, n: nat)
    requires m >= -1 && n == (if h < m then h else m) + 1
    ensures Convolution(h, k, m, n) == Choose(h + k, m)
  {
    Vandermonde(h, k, m);
    if h < m {
      ConvolutionTail(h, k, m, m + 1);
    }
  }

  /** Total weight and first moment at odds ratio one, in closed form. */
  lemma NullSums(s: Sufficient)
    requires s.Useful()
    ensures M0(Weights(s, 1.0), Span(s)) == Choose(s.hidden + s.control, s.outcomes) as real
    ensures M1(Weights(s, 1.0), Counts(s), Span(s))
         == Times(s.hidden as real, Choose(s.hidden - 1 + s.control, s.outcomes - 1) as real)
  {
    var h, k, m := s.hidden, s.control, s.outcomes;
    NullMass(s, Span(s));
    NullMoment(s, Span(s));
    ConvolutionClipped(h, k, m, s.Maximum() + 1);
    ConvolutionClipped(h - 1, k, m - 1, s.Maximum());
    TimesCounts(h, Choose(h - 1 + k, m - 1));
  }

  /** With no effect, the expected hidden outcomes are the outcomes shared out in proportion. */
  lemma NullMean(s: Sufficient)
    requires s.Useful()
    ensures Expected(s, 1.0) == (s.outcomes * s.hidden) as real / (s.hidden + s.control) as real
  {
    var h, k, m := s.hidden, s.control, s.outcomes;
    WeightsPositive(s, 1.0);
    NullSums(s);
    Absorption(h + k, m);
    M0Positive(Weights(s, 1.0), Span(s));
    TimesCounts(m, Choose(h + k, m));
    TimesCounts(h + k, Choose(h + k - 1, m - 1));
    TimesCounts(m, h);
    Proportion(m as real, h as real, (h + k) as real, M0(Weights(s, 1.0), Span(s)),
               Choose(h - 1 + k, m - 1) as real, M1(Weights(s, 1.0), Counts(s), Span(s)));
  }
}
