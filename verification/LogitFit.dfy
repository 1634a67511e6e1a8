/** The clamped Newton fit over all strata of one player, and when it may report convergence. */
module LogitFit {
  import opened Binomials
  import opened Common
  import opened ConditionalLogit
  import opened Moments
  import opened Observations

  datatype MatchedStratum = MatchedStratum(
    stratumID: string,
    playerSessionID: string,
    contextKey: string,
    observations: seq<Observation>,
    controlQuality: real,
    policyVersion: string)

  datatype FitResult = FitResult(
    playerID: string,
    logOddsRatio: real,
    usefulStrata: nat,
    observationCount: nat,
    converged: bool,
    separated: bool)

  const MAX_ITERATIONS := 50
  const MAX_STEP := 2.0
  const MAX_BETA := 20.0
  const MIN_INFORMATION := 0.0000000001
  const STEP_TOLERANCE := 0.00000001

  // ----- sufficient statistics -----

  /** Every observation of a matched stratum is a hidden opportunity or a control. */
  ghost predicate WellMatched(observations: seq<Observation>) {
    forall i :: 0 <= i < |observations| ==> observations[i].strongHidden || observations[i].control
  }

  function One(b: bool): nat {
    if b then 1 else 0
  }

  function Tally(observations: seq<Observation>, n: nat): Sufficient
    requires n <= |observations|
  {
    if n == 0 then Sufficient(0, 0, 0, 0)
    else
      var t, o := Tally(observations, n - 1), observations[n - 1];
      Sufficient(t.hidden + One(o.strongHidden), t.control + One(o.control),
                 t.outcomes + One(o.outcome.observed), t.observedHidden + One(o.outcome.observed && o.strongHidden))
  }

  lemma {:induction false} TallyBounds(observations: seq<Observation>, n: nat)
    requires WellMatched(observations) && n <= |observations|
    ensures var t := Tally(observations, n);
            && t.outcomes <= n <= t.hidden + t.control && t.InRange()
    ensures (forall i :: 0 <= i < n ==> !(observations[i].strongHidden && observations[i].control)) ==>
              Tally(observations, n).hidden + Tally(observations, n).control == n
  {
    if n > 0 {
      TallyBounds(observations, n - 1);
    }
  }

  predicate Informative(s: Sufficient) {
    s.hidden != 0 && s.control != 0 && s.outcomes != 0 && s.outcomes != s.hidden + s.control
  }

  function UsefulStrata(strata: seq<MatchedStratum>, eligible: set<string>, n: nat): seq<Sufficient>
    requires n <= |strata|
  {
    if n == 0 then []
    else
      var s := strata[n - 1];
      var t := Tally(s.observations, |s.observations|);
      if s.playerSessionID in eligible && Informative(t) then UsefulStrata(strata, eligible, n - 1) + [t]
      else UsefulStrata(strata, eligible, n - 1)
  }

  ghost predicate AllUseful(useful: seq<Sufficient>) {
    forall i :: 0 <= i < |useful| ==> useful[i].Useful()
  }

  ghost predicate AllInRange(useful: seq<Sufficient>) {
    forall i :: 0 <= i < |useful| ==> useful[i].InRange()
  }

  lemma {:induction false} UsefulStrataAreUseful(strata: seq<MatchedStratum>, eligible: set<string>, n: nat)
    requires n <= |strata|
    requires forall s :: s in strata ==> WellMatched(s.observations)
    ensures AllUseful(UsefulStrata(strata, eligible, n)) && AllInRange(UsefulStrata(strata, eligible, n))
  {
    if n > 0 {
      UsefulStrataAreUseful(strata, eligible, n - 1);
      TallyBounds(strata[n - 1].observations, |strata[n - 1].observations|);
    }
  }

  function Members(useful: seq<Sufficient>): nat {
    if useful == [] then 0
    else Members(useful[..|useful| - 1]) + useful[|useful| - 1].hidden + useful[|useful| - 1].control
  }

  // ----- score and information -----

  ghost function Score(useful: seq<Sufficient>, theta: real, n: nat): real
    requires AllUseful(useful) && n <= |useful| && theta > 0.0
  {
    if n == 0 then 0.0
    else Score(useful, theta, n - 1) + (useful[n - 1].observedHidden as real - Expected(useful[n - 1], theta))
  }

  ghost function Information(useful: seq<Sufficient>, theta: real, n: nat): real
    requires AllUseful(useful) && n <= |useful| && theta > 0.0
  {
    if n == 0 then 0.0 else Information(useful, theta, n - 1) + Dispersion(useful[n - 1], theta)
  }

  /** Total of the observed hidden outcomes, and of the least and most each stratum admits. */
  function Observed(useful: seq<Sufficient>, n: nat): nat
    requires n <= |useful|
  {
    if n == 0 then 0 else Observed(useful, n - 1) + useful[n - 1].observedHidden
  }

  function Least(useful: seq<Sufficient>, n: nat): nat
    requires n <= |useful|
  {
    if n == 0 then 0 else Least(useful, n - 1) + useful[n - 1].Minimum()
  }

  function Most(useful: seq<Sufficient>, n: nat): nat
    requires n <= |useful|
  {
    if n == 0 then 0 else Most(useful, n - 1) + useful[n - 1].Maximum()
  }

  /** The observed outcomes are as extreme as the strata allow, or more. */
  predicate Separable(useful: seq<Sufficient>) {
    Observed(useful, |useful|) <= Least(useful, |useful|) || Observed(useful, |useful|) >= Most(useful, |useful|)
  }

  lemma {:induction false} ObservedWithin(useful: seq<Sufficient>, n: nat)
    requires AllInRange(useful) && n <= |useful|
    ensures Least(useful, n) <= Observed(useful, n) <= Most(useful, n)
  {
    if n > 0 {
      ObservedWithin(useful, n - 1);
    }
  }

  /** The summed score falls strictly as the odds ratio grows. */
  lemma {:induction false} ScoreDecreases(useful: seq<Sufficient>, a: real, b: real, n: nat)
    requires AllUseful(useful) && n <= |useful| && 0.0 < a < b
    ensures n > 0 ==> Score(useful, b, n) < Score(useful, a, n)
    ensures n == 0 ==> Score(useful, b, n) == Score(useful, a, n)
  {
    if n > 0 {
      ScoreDecreases(useful, a, b, n - 1);
      ExpectedIncreases(useful[n - 1], a, b);
    }
  }

  /** The likelihood has at most one stationary coefficient. */
  lemma AtMostOneStationary(useful: seq<Sufficient>, exp: real -> real, beta: real, beta': real)
    requires AllUseful(useful) && useful != [] && IsExponential(exp)
    requires Score(useful, exp(beta), |useful|) == 0.0 == Score(useful, exp(beta'), |useful|)
    ensures beta == beta'
  {
    if beta < beta' {
      assert Grows(exp, beta, beta');
      ScoreDecreases(useful, exp(beta), exp(beta'), |useful|);
    } else if beta' < beta {
      assert Grows(exp, beta', beta);
      ScoreDecreases(useful, exp(beta'), exp(beta), |useful|);
    }
  }

  /** The score always lies strictly between the two extremes that the data could show. */
  lemma {:induction false} ScoreBounds(useful: seq<Sufficient>, theta: real, n: nat)
    requires AllUseful(useful) && n <= |useful| && theta > 0.0
    ensures n > 0 ==> Observed(useful, n) as real - Most(useful, n) as real < Score(useful, theta, n)
                        < Observed(useful, n) as real - Least(useful, n) as real
    ensures n > 0 ==> Information(useful, theta, n) > 0.0
    ensures n == 0 ==> Information(useful, theta, n) == 0.0
  {
    if n > 0 {
      ScoreBounds(useful, theta, n - 1);
      ExpectedInside(useful[n - 1], theta);
    }
  }

  /** A stationary coefficient exists only when the data are not separated. */
  lemma StationaryNeedsInterior(useful: seq<Sufficient>, theta: real)
    requires AllUseful(useful) && useful != [] && theta > 0.0
    requires Score(useful, theta, |useful|) == 0.0
    ensures Least(useful, |useful|) < Observed(useful, |useful|) < Most(useful, |useful|)
  {
    ScoreBounds(useful, theta, |useful|);
  }

  /** On separated data the score dominates the information, so a Newton step is at least one. */
  lemma {:induction false} InformationWithinScore(useful: seq<Sufficient>, theta: real, n: nat)
    requires AllUseful(useful) && n <= |useful| && theta > 0.0
    ensures Information(useful, theta, n) <= Score(useful, theta, n) + (Most(useful, n) - Observed(useful, n)) as real
    ensures Information(useful, theta, n) <= (Observed(useful, n) - Least(useful, n)) as real - Score(useful, theta, n)
  {
    if n > 0 {
      InformationWithinScore(useful, theta, n - 1);
      VarianceWithinTop(useful[n - 1], theta);
      VarianceWithinBottom(useful[n - 1], theta);
    }
  }

  // ----- the Newton iteration -----

  datatype Newton = Newton(beta: real, converged: bool, separated: bool)

  function Clamp(step: real): real {
    if step > MAX_STEP then MAX_STEP else if step < -MAX_STEP then -MAX_STEP else step
  }

  function Magnitude(x: real): real {
    if x < 0.0 then -x else x
  }

  ghost function Iterate(useful: seq<Sufficient>, exp: real -> real, beta: real, iteration: nat): Newton
    requires AllUseful(useful) && IsExponential(exp) && iteration <= MAX_ITERATIONS
    decreases MAX_ITERATIONS - iteration
  {
    if iteration == MAX_ITERATIONS then Newton(beta, false, false)
    else
      var information := Information(useful, exp(beta), |useful|);
      if information < MIN_INFORMATION then Newton(beta, false, true)
      else
        var step := Clamp(Score(useful, exp(beta), |useful|) / information);
        if Magnitude(beta + step) > MAX_BETA then Newton(beta + step, false, true)
        else if Magnitude(step) < STEP_TOLERANCE then Newton(beta + step, true, false)
        else Iterate(useful, exp, beta + step, iteration + 1)
  }

  lemma QuotientTimes(a: real, b: real)
    requires b > 0.0
    ensures Times(a / b, b) == a
  {
  }

  lemma QuotientAtLeastOne(score: real, information: real)
    requires information > 0.0
    ensures score >= information ==> score / information >= 1.0
    ensures score <= -information ==> score / information <= -1.0
  {
    var q := score / information;
    assert q * information == score;
    if score >= information && q < 1.0 {
      ScaledOrder(information, 1.0, q);
      assert false;
    }
    if score <= -information && q > -1.0 {
      ScaledOrder(information, q, -1.0);
      assert false;
    }
  }

  lemma SeparatedStep(useful: seq<Sufficient>, theta: real)
    requires AllUseful(useful) && useful != [] && theta > 0.0
    ensures Information(useful, theta, |useful|) > 0.0
    ensures var step := Clamp(Score(useful, theta, |useful|) / Information(useful, theta, |useful|));
            && (Observed(useful, |useful|) >= Most(useful, |useful|) ==> 1.0 <= step <= MAX_STEP)
            && (Observed(useful, |useful|) <= Least(useful, |useful|) ==> -MAX_STEP <= step <= -1.0)
  {
    ScoreBounds(useful, theta, |useful|);
    InformationWithinScore(useful, theta, |useful|);
    QuotientAtLeastOne(Score(useful, theta, |useful|), Information(useful, theta, |useful|));
  }

  /** Separated upwards: beta grows by at least one per round until it leaves the accepted range. */
  lemma {:induction false} SeparatedAbove(useful: seq<Sufficient>, exp: real -> real, beta: real, iteration: nat)
    requires AllUseful(useful) && useful != [] && IsExponential(exp)
    requires Observed(useful, |useful|) >= Most(useful, |useful|)
    requires iteration as real <= beta <= MAX_BETA
    ensures iteration <= MAX_ITERATIONS
    ensures var r := Iterate(useful, exp, beta, iteration); r.separated && !r.converged
    decreases MAX_ITERATIONS - iteration
  {
    var theta := exp(beta);
    SeparatedStep(useful, theta);
    var information := Information(useful, theta, |useful|);
    var step := Clamp(Score(useful, theta, |useful|) / information);
    assert step >= 1.0;
    if information >= MIN_INFORMATION && beta + step <= MAX_BETA {
      SeparatedAbove(useful, exp, beta + step, iteration + 1);
    }
  }

  lemma {:induction false} SeparatedBelow(useful: seq<Sufficient>, exp: real -> real, beta: real, iteration: nat)
    requires AllUseful(useful) && useful != [] && IsExponential(exp)
    requires Observed(useful, |useful|) <= Least(useful, |useful|)
    requires iteration as real <= -beta <= MAX_BETA
    ensures iteration <= MAX_ITERATIONS
    ensures var r := Iterate(useful, exp, beta, iteration); r.separated && !r.converged
    decreases MAX_ITERATIONS - iteration
  {
    var theta := exp(beta);
    SeparatedStep(useful, theta);
    var information := Information(useful, theta, |useful|);
    var step := Clamp(Score(useful, theta, |useful|) / information);
    assert step <= -1.0;
    if information >= MIN_INFORMATION && beta + step >= -MAX_BETA {
      SeparatedBelow(useful, exp, beta + step, iteration + 1);
    }
  }

  /** Separated data are always reported as separated, never as a converged fit. */
  lemma SeparatedFitIsSuppressed(useful: seq<Sufficient>, exp: real -> real)
    requires AllUseful(useful) && useful != [] && IsExponential(exp)
    requires Separable(useful)
    ensures var r := Iterate(useful, exp, 0.0, 0); r.separated && !r.converged
  {
    if Observed(useful, |useful|) >= Most(useful, |useful|) {
      SeparatedAbove(useful, exp, 0.0, 0);
    } else {
      SeparatedBelow(useful, exp, 0.0, 0);
    }
  }

  /** The coefficient before the last step: its clamped Newton step was below the tolerance. */
  ghost predicate NearStationary(useful: seq<Sufficient>, exp: real -> real, before: real, beta: real)
    requires AllUseful(useful) && IsExponential(exp)
  {
    var information := Information(useful, exp(before), |useful|);
    && information >= MIN_INFORMATION
    && Magnitude(beta - before) < STEP_TOLERANCE
    && Score(useful, exp(before), |useful|) == Times(beta - before, information)
    && Magnitude(beta) <= MAX_BETA
  }

  lemma {:induction false} ConvergedIsNearStationary(useful: seq<Sufficient>, exp: real -> real, beta: real, iteration: nat)
      returns (before: real)
    requires AllUseful(useful) && IsExponential(exp) && iteration <= MAX_ITERATIONS
    requires Iterate(useful, exp, beta, iteration).converged
    ensures NearStationary(useful, exp, before, Iterate(useful, exp, beta, iteration).beta)
    ensures !Iterate(useful, exp, beta, iteration).separated
    decreases MAX_ITERATIONS - iteration
  {
    var information := Information(useful, exp(beta), |useful|);
    var score := Score(useful, exp(beta), |useful|);
    var step := Clamp(score / information);
    if Magnitude(step) < STEP_TOLERANCE {
      before := beta;
      QuotientTimes(score, information);
    } else {
      before := ConvergedIsNearStationary(useful, exp, beta + step, iteration + 1);
    }
  }

  /** Every Newton step goes towards the stationary coefficient, if there is one, and stays exactly there. */
  lemma StationaryIsReturned(useful: seq<Sufficient>, exp: real -> real, beta: real, stationary: real, iteration: nat)
    requires AllUseful(useful) && useful != [] && IsExponential(exp) && iteration < MAX_ITERATIONS
    requires Score(useful, exp(stationary), |useful|) == 0.0
    ensures Information(useful, exp(beta), |useful|) > 0.0
    ensures var step := Clamp(Score(useful, exp(beta), |useful|) / Information(useful, exp(beta), |useful|));
            (step > 0.0 <==> beta < stationary) && (step < 0.0 <==> beta > stationary)
    ensures beta == stationary && Magnitude(beta) <= MAX_BETA && Information(useful, exp(beta), |useful|) >= MIN_INFORMATION ==>
              Iterate(useful, exp, beta, iteration) == Newton(beta, true, false)
  {
    ScoreBounds(useful, exp(beta), |useful|);
    var score, information := Score(useful, exp(beta), |useful|), Information(useful, exp(beta), |useful|);
    if beta < stationary {
      assert Grows(exp, beta, stationary);
      ScoreDecreases(useful, exp(beta), exp(stationary), |useful|);
    } else if stationary < beta {
      assert Grows(exp, stationary, beta);
      ScoreDecreases(useful, exp(stationary), exp(beta), |useful|);
    }
    SignOfQuotient(score, information);
  }

  lemma SignOfQuotient(a: real, b: real)
    requires b > 0.0
    ensures (a / b > 0.0 <==> a > 0.0) && (a / b < 0.0 <==> a < 0.0)
  {
    QuotientTimes(a, b);
    SignOfProduct(a / b, b);
  }

  // ----- the loops of the source -----

  method WeightAt(s: Sufficient, beta: real, exp: real -> real, count: nat) returns (value: real)
    requires IsExponential(exp) && s.Minimum() <= count <= s.Maximum()
    ensures value == Weight(s, exp(beta), count) > 0.0
  {
    ExponentialMultiple(exp, beta, count, Times(beta, count as real));
    WeightPositive(s, exp(beta), count);
    value := Times(Coefficient(s, count), exp(Times(beta, count as real)));
  }

  /** The unnormalised weights and the largest of them. */
  method WeightValues(s: Sufficient, beta: real, exp: real -> real) returns (values: seq<real>, largest: real)
    requires s.Useful() && IsExponential(exp)
    ensures values == Weights(s, exp(beta))
    ensures largest > 0.0 && largest in values && forall v :: v in values ==> v <= largest
  {
    var minimum, maximum := s.Minimum(), s.Maximum();
    values, largest := [], 0.0;
    for count := minimum to maximum + 1
      invariant |values| == count - minimum
      invariant forall i :: 0 <= i < |values| ==> values[i] == Weight(s, exp(beta), minimum + i)
      invariant forall v :: v in values ==> v <= largest
      invariant values != [] ==> largest > 0.0 && largest in values
      invariant values == [] ==> largest == 0.0
    {
      var value := WeightAt(s, beta, exp, count);
      InAppended(values, value);
      values := values + [value];
      if value > largest {
        largest := value;
      }
    }
  }

  lemma InAppended(values: seq<real>, value: real)
    ensures forall v :: v in values + [value] <==> v == value || v in values
  {
  }

  /** Mean and variance from the weights divided by the largest one, as the source scales them. */
  method ConditionalMoments(s: Sufficient, beta: real, exp: real -> real) returns (mean: real, variance: real)
    requires s.Useful() && IsExponential(exp)
    ensures mean == Expected(s, exp(beta)) && variance == Dispersion(s, exp(beta))
  {
    var values, largest := WeightValues(s, beta, exp);
    WeightsPositive(s, exp(beta));
    mean, variance := ScaledMoments(values, largest, s.Minimum(), Counts(s));
  }

  function Rescaled(values: seq<real>, k: real): seq<real> {
    seq(|values|, i requires 0 <= i < |values| => Times(k, values[i]))
  }

  /** Scaling the weights changes neither moment. */
  lemma ScaledAgrees(values: seq<real>, largest: real, v: seq<real>, x: seq<real>)
    requires Positive(values) && largest > 0.0 && |values| == |x| > 0 && v == Rescaled(values, 1.0 / largest)
    ensures M0(v, |v|) > 0.0
    ensures Mean(values, x) == M1(v, x, |v|) / M0(v, |v|)
    ensures Variance(values, x) == VarianceOf(M0(v, |v|), M1(v, x, |v|), M2(v, x, |v|))
  {
    Reciprocal(largest, largest);
    ScaleInvariance(values, v, x, 1.0 / largest);
    M0Positive(v, |v|);
  }

  method ScaledMoments(values: seq<real>, largest: real, minimum: nat, ghost x: seq<real>)
      returns (mean: real, variance: real)
    requires Positive(values) && largest > 0.0 && |values| == |x| > 0
    requires forall i :: 0 <= i < |x| ==> x[i] == (minimum + i) as real
    ensures mean == Mean(values, x) && variance == Variance(values, x)
  {
    ghost var v := Rescaled(values, 1.0 / largest);
    var weightSum, first, second := WeightedSums(values, largest, minimum, v, x);
    ScaledAgrees(values, largest, v, x);
    mean := first / weightSum;
    variance := VarianceOf(weightSum, first, second);
  }

  method WeightedSums(values: seq<real>, largest: real, minimum: nat, ghost v: seq<real>, ghost x: seq<real>)
      returns (weightSum: real, first: real, second: real)
    requires largest > 0.0 && |values| == |x| && v == Rescaled(values, 1.0 / largest)
    requires forall i :: 0 <= i < |x| ==> x[i] == (minimum + i) as real
    ensures weightSum == M0(v, |v|) && first == M1(v, x, |v|) && second == M2(v, x, |v|)
  {
    weightSum, first, second := 0.0, 0.0, 0.0;
    for index := 0 to |values|
      invariant weightSum == M0(v, index) && first == M1(v, x, index) && second == M2(v, x, index)
    {
      var count := (minimum + index) as real;
      var weight := values[index] / largest;
      Reciprocal(values[index], largest);
      weightSum := weightSum + weight;
      first := first + Times(count, weight);
      second := second + Second(count, weight);
    }
  }

  lemma Reciprocal(a: real, b: real)
    requires b > 0.0
    ensures a / b == Times(1.0 / b, a)
    ensures 1.0 / b > 0.0
  {
    var r := 1.0 / b;
    assert r * b == 1.0;
    assert (r * a) * b == a * (r * b);
    SignOfProduct(r, b);
  }

  method CollectUseful(strata: seq<MatchedStratum>, eligible: set<string>)
      returns (useful: seq<Sufficient>, observationCount: nat)
    ensures useful == UsefulStrata(strata, eligible, |strata|)
    ensures observationCount == Members(useful)
  {
    useful, observationCount := [], 0;
    for i := 0 to |strata|
      invariant useful == UsefulStrata(strata, eligible, i)
      invariant observationCount == Members(useful)
    {
      var stratum := strata[i];
      if stratum.playerSessionID !in eligible {
        continue;
      }
      var value := Sufficient(0, 0, 0, 0);
      for k := 0 to |stratum.observations|
        invariant value == Tally(stratum.observations, k)
      {
        var observation := stratum.observations[k];
        if observation.strongHidden {
          value := value.(hidden := value.hidden + 1);
        }
        if observation.control {
          value := value.(control := value.control + 1);
        }
        if observation.outcome.observed {
          value := value.(outcomes := value.outcomes + 1);
          if observation.strongHidden {
            value := value.(observedHidden := value.observedHidden + 1);
          }
        }
      }
      if value.hidden == 0 || value.control == 0 || value.outcomes == 0 || value.outcomes == value.hidden + value.control {
        continue;
      }
      assert (useful + [value])[..|useful|] == useful;
      useful := useful + [value];
      observationCount := observationCount + value.hidden + value.control;
    }
  }

  method ScoreAndInformation(useful: seq<Sufficient>, beta: real, exp: real -> real)
      returns (score: real, information: real)
    requires AllUseful(useful) && IsExponential(exp)
    ensures score == Score(useful, exp(beta), |useful|)
    ensures information == Information(useful, exp(beta), |useful|)
  {
    score, information := 0.0, 0.0;
    for i := 0 to |useful|
      invariant score == Score(useful, exp(beta), i)
      invariant information == Information(useful, exp(beta), i)
    {
      var expected, variance := ConditionalMoments(useful[i], beta, exp);
      score := score + (useful[i].observedHidden as real - expected);
      information := information + variance;
    }
  }

  method NewtonLoop(useful: seq<Sufficient>, exp: real -> real) returns (end: Newton)
    requires AllUseful(useful) && IsExponential(exp)
    ensures end == Iterate(useful, exp, 0.0, 0)
  {
    var beta := 0.0;
    for iteration := 0 to MAX_ITERATIONS
      invariant Iterate(useful, exp, beta, iteration) == Iterate(useful, exp, 0.0, 0)
    {
      var score, information := ScoreAndInformation(useful, beta, exp);
      if information < MIN_INFORMATION {
        return Newton(beta, false, true);
      }
      var step := score / information;
      if step > MAX_STEP {
        step := MAX_STEP;
      }
      if step < -MAX_STEP {
        step := -MAX_STEP;
      }
      beta := beta + step;
      if Magnitude(beta) > MAX_BETA {
        return Newton(beta, false, true);
      }
      if Magnitude(step) < STEP_TOLERANCE {
        return Newton(beta, true, false);
      }
    }
    return Newton(beta, false, false);
  }

  // ----- strata that no matching produces -----

  /** Outcomes of a stratum beyond its hidden opportunities and controls: those of members that are neither. */
  function Excess(s: Sufficient): nat {
    if s.outcomes <= s.hidden + s.control then 0 else s.outcomes - (s.hidden + s.control)
  }

  function LargestExcess(useful: seq<Sufficient>, n: nat): nat
    requires n <= |useful|
  {
    if n == 0 then 0 else Max(LargestExcess(useful, n - 1), Excess(useful[n - 1]))
  }

  /** What becomes of a fit: with a table of negative size the program stops. */
  datatype FitEnd = Crashes | Ends(result: FitResult)

  ghost predicate AllInformative(useful: seq<Sufficient>) {
    forall i :: 0 <= i < |useful| ==> Informative(useful[i])
  }

  lemma {:induction false} UsefulStrataAreInformative(strata: seq<MatchedStratum>, eligible: set<string>, n: nat)
    requires n <= |strata|
    ensures AllInformative(UsefulStrata(strata, eligible, n))
  {
    if n > 0 {
      UsefulStrataAreInformative(strata, eligible, n - 1);
    }
  }

  /** Without excess every informative stratum is useful. */
  lemma {:induction false} UsefulWithoutExcess(useful: seq<Sufficient>, n: nat)
    requires AllInformative(useful) && n <= |useful|
    ensures LargestExcess(useful, n) == 0 <==> forall i :: 0 <= i < n ==> useful[i].Useful()
  {
    if n > 0 {
      UsefulWithoutExcess(useful, n - 1);
    }
  }

  method ExcessOf(useful: seq<Sufficient>) returns (excess: nat)
    ensures excess == LargestExcess(useful, |useful|)
  {
    excess := 0;
    for i := 0 to |useful|
      invariant excess == LargestExcess(useful, i)
    {
      if useful[i].outcomes > useful[i].hidden + useful[i].control + excess {
        excess := useful[i].outcomes - (useful[i].hidden + useful[i].control);
      }
    }
  }

  /**
   The whole fit. Already the first round looks at every stratum: an excess of two or more asks for a table of negative
   size, and an excess of one makes an empty table and so a score that is not a number, with which all comparisons fail
   in all rounds. After a converged loop the final information check of the source can never fail.
   */
  method FitConditionalLogitForSessions(
      playerID: string, sessionIDs: seq<string>, strata: seq<MatchedStratum>, exp: real -> real)
      returns (fit: FitEnd)
    requires IsExponential(exp)
    ensures fit == FitOfStrata(playerID, strata, (set id | id in sessionIDs), exp)
  {
    var eligible := set id | id in sessionIDs;
    UsefulStrataAreInformative(strata, eligible, |strata|);
    var useful, observationCount := CollectUseful(strata, eligible);
    var result := FitResult(playerID, 0.0, |useful|, observationCount, false, false);
    if |useful| == 0 {
      return Ends(result);
    }
    var excess := ExcessOf(useful);
    UsefulWithoutExcess(useful, |useful|);
    if excess > 1 {
      return Crashes;
    }
    if excess == 1 {
      return Ends(result);
    }
    var newton := NewtonLoop(useful, exp);
    result := result.(converged := newton.converged, separated := newton.separated);
    if !result.converged {
      return Ends(result);
    }
    var _, information := ScoreAndInformation(useful, newton.beta, exp);
    ScoreBounds(useful, exp(newton.beta), |useful|);
    if information <= 0.0 {
      assert false;
    }
    return Ends(result.(logOddsRatio := newton.beta));
  }

  ghost function FitOf(playerID: string, useful: seq<Sufficient>, exp: real -> real): FitEnd
    requires AllInformative(useful) && IsExponential(exp)
  {
    var nothing := FitResult(playerID, 0.0, |useful|, Members(useful), false, false);
    if useful == [] || LargestExcess(useful, |useful|) == 1 then Ends(nothing)
    else if LargestExcess(useful, |useful|) > 1 then Crashes
    else
      UsefulWithoutExcess(useful, |useful|);
      var newton := Iterate(useful, exp, 0.0, 0);
      Ends(nothing.(logOddsRatio := if newton.converged then newton.beta else 0.0,
                    converged := newton.converged, separated := newton.separated))
  }

  ghost function FitOfStrata(playerID: string, strata: seq<MatchedStratum>, eligible: set<string>, exp: real -> real): FitEnd
    requires IsExponential(exp)
  {
    UsefulStrataAreInformative(strata, eligible, |strata|);
    FitOf(playerID, UsefulStrata(strata, eligible, |strata|), exp)
  }

  /**
   What a reader may conclude from a fit: separated or sparse input never converges, and a
   converged coefficient comes with an interior total and a vanishing last step.
   */
  lemma FitIsSuppressedOrInterior(playerID: string, useful: seq<Sufficient>, exp: real -> real)
    requires AllUseful(useful) && IsExponential(exp)
    ensures AllInformative(useful) && FitOf(playerID, useful, exp).Ends?
    ensures var fit := FitOf(playerID, useful, exp).result;
            && !(fit.converged && fit.separated)
            && (useful == [] ==> !fit.converged && !fit.separated)
            && (useful != [] && Separable(useful) ==> fit.separated)
            && (fit.converged ==>
                  && Least(useful, |useful|) < Observed(useful, |useful|) < Most(useful, |useful|)
                  && exists before :: NearStationary(useful, exp, before, fit.logOddsRatio))
  {
    UsefulWithoutExcess(useful, |useful|);
    if useful != [] {
      if Separable(useful) {
        SeparatedFitIsSuppressed(useful, exp);
      }
      if Iterate(useful, exp, 0.0, 0).converged {
        var before := ConvergedIsNearStationary(useful, exp, 0.0, 0);
      }
    }
  }

  /** Strata with more outcomes than hidden opportunities and controls never give an estimate. */
  lemma ExcessIsSuppressed(playerID: string, useful: seq<Sufficient>, exp: real -> real)
    requires AllInformative(useful) && IsExponential(exp) && !AllUseful(useful)
    ensures FitOf(playerID, useful, exp).Crashes?
            || (!FitOf(playerID, useful, exp).result.converged && !FitOf(playerID, useful, exp).result.separated)
  {
    UsefulWithoutExcess(useful, |useful|);
  }
}
