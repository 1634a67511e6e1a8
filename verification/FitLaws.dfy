/** What the fit says about the observations it was given, in terms of those observations alone. */
module FitLaws {
  import opened ConditionalLogit
  import opened LogitFit
  import opened Moments
  import opened Observations

  // ----- the members of a stratum by kind and by fate -----

  function Hidden(o: seq<Observation>, n: nat): set<nat>
    requires n <= |o|
  {
    set i: nat | i < n && o[i].strongHidden
  }

  function Controls(o: seq<Observation>, n: nat): set<nat>
    requires n <= |o|
  {
    set i: nat | i < n && o[i].control
  }

  function Followed(o: seq<Observation>, n: nat): set<nat>
    requires n <= |o|
  {
    set i: nat | i < n && o[i].outcome.observed
  }

  function FollowedHidden(o: seq<Observation>, n: nat): set<nat>
    requires n <= |o|
  {
    set i: nat | i < n && o[i].outcome.observed && o[i].strongHidden
  }

  /** A player's stratum enters the fit with both kinds, an outcome, and not only outcomes. */
  ghost predicate Enters(stratum: MatchedStratum, eligible: set<string>) {
    var o := stratum.observations;
    && stratum.playerSessionID in eligible
    && Hidden(o, |o|) != {} && Controls(o, |o|) != {} && Followed(o, |o|) != {}
    && |Followed(o, |o|)| != |Hidden(o, |o|)| + |Controls(o, |o|)|
  }

  ghost predicate CountsOf(o: seq<Observation>, n: nat, u: Sufficient)
    requires n <= |o|
  {
    && u.hidden == |Hidden(o, n)| && u.control == |Controls(o, n)|
    && u.outcomes == |Followed(o, n)| && u.observedHidden == |FollowedHidden(o, n)|
  }

  ghost predicate CountsOfStratum(stratum: MatchedStratum, u: Sufficient) {
    CountsOf(stratum.observations, |stratum.observations|, u)
  }

  ghost predicate HasHidden(stratum: MatchedStratum) {
    Hidden(stratum.observations, |stratum.observations|) != {}
  }

  lemma GrowsByOne(before: set<nat>, after: set<nat>, n: nat, b: bool)
    requires n !in before && after == if b then before + {n} else before
    ensures |after| == |before| + One(b)
  {
  }

  lemma HiddenStep(o: seq<Observation>, n: nat)
    requires n < |o|
    ensures |Hidden(o, n + 1)| == |Hidden(o, n)| + One(o[n].strongHidden)
    ensures |Controls(o, n + 1)| == |Controls(o, n)| + One(o[n].control)
  {
    GrowsByOne(Hidden(o, n), Hidden(o, n + 1), n, o[n].strongHidden);
    GrowsByOne(Controls(o, n), Controls(o, n + 1), n, o[n].control);
  }

  lemma FollowedStep(o: seq<Observation>, n: nat)
    requires n < |o|
    ensures |Followed(o, n + 1)| == |Followed(o, n)| + One(o[n].outcome.observed)
  {
    GrowsByOne(Followed(o, n), Followed(o, n + 1), n, o[n].outcome.observed);
  }

  lemma FollowedHiddenStep(o: seq<Observation>, n: nat)
    requires n < |o|
    ensures |FollowedHidden(o, n + 1)| == |FollowedHidden(o, n)| + One(o[n].outcome.observed && o[n].strongHidden)
  {
    GrowsByOne(FollowedHidden(o, n), FollowedHidden(o, n + 1), n, o[n].outcome.observed && o[n].strongHidden);
  }

  lemma {:induction false} TallyCounts(o: seq<Observation>, n: nat)
    requires n <= |o|
    ensures CountsOf(o, n, Tally(o, n))
  {
    if n > 0 {
      TallyCounts(o, n - 1);
      HiddenStep(o, n - 1);
      FollowedStep(o, n - 1);
      FollowedHiddenStep(o, n - 1);
    }
  }

  /** `picks` lists, in input order, exactly the strata among the first `n` that enter the fit. */
  ghost predicate Picks(strata: seq<MatchedStratum>, eligible: set<string>, n: nat, picks: seq<nat>)
    requires n <= |strata|
  {
    && (forall i :: 0 <= i < |picks| ==> picks[i] < n)
    && (forall i, j :: 0 <= i < j < |picks| ==> picks[i] < picks[j])
    && (forall k: nat :: k < n ==> (k in picks <==> Enters(strata[k], eligible)))
  }

  /** The statistics of the fit are the counts of the picked strata, in their order. */
  ghost predicate CountsOfPicked(strata: seq<MatchedStratum>, picks: seq<nat>, useful: seq<Sufficient>) {
    |useful| == |picks| && forall i :: 0 <= i < |picks| ==> CountsAt(strata, picks[i], useful[i])
  }

  ghost predicate CountsAt(strata: seq<MatchedStratum>, k: nat, u: Sufficient) {
    k < |strata| && CountsOfStratum(strata[k], u)
  }

  lemma CountsPush(strata: seq<MatchedStratum>, picks: seq<nat>, useful: seq<Sufficient>, k: nat, u: Sufficient)
    requires CountsOfPicked(strata, picks, useful) && CountsAt(strata, k, u)
    ensures CountsOfPicked(strata, picks + [k], useful + [u])
  {
    forall i | 0 <= i < |picks| + 1 ensures CountsAt(strata, (picks + [k])[i], (useful + [u])[i]) {
      if i < |picks| {
        assert CountsAt(strata, picks[i], useful[i]);
      }
    }
  }

  lemma UsefulUnfolds(strata: seq<MatchedStratum>, eligible: set<string>, n: nat, t: Sufficient)
    requires n < |strata| && t == Tally(strata[n].observations, |strata[n].observations|)
    ensures Enters(strata[n], eligible) ==> UsefulStrata(strata, eligible, n + 1) == UsefulStrata(strata, eligible, n) + [t]
    ensures !Enters(strata[n], eligible) ==> UsefulStrata(strata, eligible, n + 1) == UsefulStrata(strata, eligible, n)
    ensures CountsAt(strata, n, t)
  {
    EntersIsInformative(strata[n], eligible);
  }

  /** What one more stratum adds to the statistics. */
  lemma EntersIsInformative(stratum: MatchedStratum, eligible: set<string>)
    ensures var t := Tally(stratum.observations, |stratum.observations|);
            && CountsOfStratum(stratum, t)
            && (Enters(stratum, eligible) <==> stratum.playerSessionID in eligible && Informative(t))
  {
    TallyCounts(stratum.observations, |stratum.observations|);
  }

  lemma {:induction false} UsefulAreCounts(strata: seq<MatchedStratum>, eligible: set<string>, n: nat)
      returns (picks: seq<nat>)
    requires n <= |strata|
    ensures Picks(strata, eligible, n, picks)
    ensures CountsOfPicked(strata, picks, UsefulStrata(strata, eligible, n))
  {
    if n == 0 {
      picks := [];
    } else {
      var earlier := UsefulAreCounts(strata, eligible, n - 1);
      var t := Tally(strata[n - 1].observations, |strata[n - 1].observations|);
      UsefulUnfolds(strata, eligible, n - 1, t);
      CountsPush(strata, earlier, UsefulStrata(strata, eligible, n - 1), n - 1, t);
      picks := PicksStep(strata, eligible, n - 1, earlier);
    }
  }

  lemma PicksStep(strata: seq<MatchedStratum>, eligible: set<string>, n: nat, earlier: seq<nat>) returns (picks: seq<nat>)
    requires n < |strata| && Picks(strata, eligible, n, earlier)
    ensures picks == if Enters(strata[n], eligible) then earlier + [n] else earlier
    ensures Picks(strata, eligible, n + 1, picks)
  {
    picks := if Enters(strata[n], eligible) then earlier + [n] else earlier;
  }

  /** All members of the picked strata, of either kind. */
  function MembersOf(strata: seq<MatchedStratum>, picks: seq<nat>, n: nat): nat
    requires n <= |picks| && forall i :: 0 <= i < |picks| ==> picks[i] < |strata|
  {
    if n == 0 then 0
    else
      var o := strata[picks[n - 1]].observations;
      MembersOf(strata, picks, n - 1) + |Hidden(o, |o|)| + |Controls(o, |o|)|
  }

  lemma {:induction false} MembersArePicked(strata: seq<MatchedStratum>, picks: seq<nat>, useful: seq<Sufficient>, n: nat)
    requires CountsOfPicked(strata, picks, useful) && n <= |picks|
    ensures Members(useful[..n]) == MembersOf(strata, picks, n)
  {
    if n > 0 {
      MembersArePicked(strata, picks, useful, n - 1);
      assert useful[..n][..n - 1] == useful[..n - 1];
    }
  }

  /** What the fit reports as its strata and its observations. */
  lemma FitCountsPicked(playerID: string, strata: seq<MatchedStratum>, eligible: set<string>, exp: real -> real)
      returns (picks: seq<nat>)
    requires IsExponential(exp)
    ensures Picks(strata, eligible, |strata|, picks)
    ensures CountsOfPicked(strata, picks, UsefulStrata(strata, eligible, |strata|))
    ensures var fit := FitOfStrata(playerID, strata, eligible, exp);
            fit.Ends? ==> fit.result.usefulStrata == |picks| && fit.result.observationCount == MembersOf(strata, picks, |picks|)
  {
    picks := UsefulAreCounts(strata, eligible, |strata|);
    var useful := UsefulStrata(strata, eligible, |strata|);
    UsefulStrataAreInformative(strata, eligible, |strata|);
    MembersArePicked(strata, picks, useful, |picks|);
    assert useful[..|picks|] == useful;
  }

  // ----- the sign of the effect -----

  /**
   By how much the hidden opportunities of the first `n` picked strata that were followed by readiness outnumber their
   proportional share of all that were.
   */
  ghost function ExcessHidden(strata: seq<MatchedStratum>, picks: seq<nat>, n: nat): real
    requires n <= |picks| && forall i :: 0 <= i < |picks| ==> picks[i] < |strata|
    requires forall i :: 0 <= i < |picks| ==> HasHidden(strata[picks[i]])
  {
    if n == 0 then 0.0
    else
      var o := strata[picks[n - 1]].observations;
      ExcessHidden(strata, picks, n - 1)
      + (|FollowedHidden(o, |o|)| as real
         - (|Followed(o, |o|)| * |Hidden(o, |o|)|) as real / (|Hidden(o, |o|)| + |Controls(o, |o|)|) as real)
  }

  /** At odds ratio one the score is that excess. */
  lemma {:induction false} ScoreAtOne(strata: seq<MatchedStratum>, picks: seq<nat>, useful: seq<Sufficient>, n: nat)
    requires CountsOfPicked(strata, picks, useful) && AllUseful(useful) && n <= |picks|
    ensures forall i :: 0 <= i < |picks| ==> HasHidden(strata[picks[i]])
    ensures Score(useful, 1.0, n) == ExcessHidden(strata, picks, n)
  {
    forall i | 0 <= i < |picks| ensures HasHidden(strata[picks[i]]) {
      assert useful[i].Useful() && CountsOfStratum(strata[picks[i]], useful[i]);
    }
    if n > 0 {
      ScoreAtOne(strata, picks, useful, n - 1);
      NullMean(useful[n - 1]);
      assert CountsOfStratum(strata[picks[n - 1]], useful[n - 1]);
    }
  }

  lemma SignOfScore(useful: seq<Sufficient>, exp: real -> real, beta: real)
    requires AllUseful(useful) && useful != [] && IsExponential(exp)
    ensures beta > 0.0 ==> Score(useful, exp(beta), |useful|) < Score(useful, 1.0, |useful|)
    ensures beta < 0.0 ==> Score(useful, exp(beta), |useful|) > Score(useful, 1.0, |useful|)
    ensures beta == 0.0 ==> Score(useful, exp(beta), |useful|) == Score(useful, 1.0, |useful|)
  {
    ExponentialZero(exp);
    if beta > 0.0 {
      assert Grows(exp, 0.0, beta);
      ScoreDecreases(useful, 1.0, exp(beta), |useful|);
    } else if beta < 0.0 {
      assert Grows(exp, beta, 0.0);
      ScoreDecreases(useful, exp(beta), 1.0, |useful|);
    }
  }

  /** Half the width of what the strata admit: it bounds the information. */
  function HalfWidth(useful: seq<Sufficient>): real {
    (Most(useful, |useful|) - Least(useful, |useful|)) as real / 2.0
  }

  lemma InformationWithinWidth(useful: seq<Sufficient>, theta: real)
    requires AllUseful(useful) && theta > 0.0
    ensures Information(useful, theta, |useful|) <= HalfWidth(useful)
  {
    InformationWithinScore(useful, theta, |useful|);
  }

  /** What the last step may hide of the excess. */
  function Slack(useful: seq<Sufficient>): real {
    Times(STEP_TOLERANCE, HalfWidth(useful))
  }

  /** A last step below the tolerance decides the sign unless the excess is within the slack. */
  lemma SignOfConverged(useful: seq<Sufficient>, exp: real -> real, before: real, beta: real, atOne: real)
    requires AllUseful(useful) && useful != [] && IsExponential(exp) && NearStationary(useful, exp, before, beta)
    requires atOne == Score(useful, 1.0, |useful|)
    ensures atOne >= Slack(useful) ==> beta > -STEP_TOLERANCE
    ensures atOne <= -Slack(useful) ==> beta < STEP_TOLERANCE
  {
    var information, score := Information(useful, exp(before), |useful|), Score(useful, exp(before), |useful|);
    InformationWithinWidth(useful, exp(before));
    SignOfScore(useful, exp, before);
    SignFromStep(before, beta, STEP_TOLERANCE, information, score, atOne, HalfWidth(useful));
  }

  lemma SignFromStep(before: real, beta: real, tolerance: real, information: real, score: real, atOne: real, half: real)
    requires information > 0.0 && Magnitude(beta - before) < tolerance && score == Times(beta - before, information)
    requires before > 0.0 ==> score < atOne
    requires before < 0.0 ==> score > atOne
    requires before == 0.0 ==> score == atOne
    requires information <= half
    ensures atOne >= Times(tolerance, half) ==> beta > -tolerance
    ensures atOne <= -Times(tolerance, half) ==> beta < tolerance
  {
    StepBelow(beta - before, tolerance, information, score);
    ScaledOrder(tolerance, half, information);
  }

  lemma StepBelow(step: real, tolerance: real, information: real, score: real)
    requires information > 0.0 && Magnitude(step) < tolerance && score == Times(step, information)
    ensures -(tolerance * information) < score
    ensures score < tolerance * information
  {
    assert -tolerance < step < tolerance;
    ScaledOrder(information, tolerance, step);
    ScaledOrder(information, step, -tolerance);
    assert information * step == score;
    assert information * -tolerance == -(tolerance * information);
  }

  /**
   The sign law. A stationary coefficient is positive exactly when more of the followed opportunities were hidden than
   their proportional share, and a fit that converged reports that sign, up to the tolerance of its last step.
   */
  lemma EffectHasTheSignOfTheExcess(
      playerID: string, strata: seq<MatchedStratum>, eligible: set<string>, exp: real -> real, beta: real)
      returns (picks: seq<nat>, excess: real)
    requires IsExponential(exp)
    requires forall s :: s in strata ==> WellMatched(s.observations)
    requires exists k: nat :: k < |strata| && Enters(strata[k], eligible)
    ensures Picks(strata, eligible, |strata|, picks) && picks != []
    ensures forall i :: 0 <= i < |picks| ==> HasHidden(strata[picks[i]])
    ensures excess == ExcessHidden(strata, picks, |picks|)
    ensures var useful := UsefulStrata(strata, eligible, |strata|);
            && CountsOfPicked(strata, picks, useful) && AllUseful(useful)
            && (Score(useful, exp(beta), |useful|) == 0.0 ==> (beta > 0.0 <==> excess > 0.0) && (beta < 0.0 <==> excess < 0.0))
            && SignReported(FitOfStrata(playerID, strata, eligible, exp), excess, Slack(useful))
  {
    UsefulStrataAreUseful(strata, eligible, |strata|);
    UsefulStrataAreInformative(strata, eligible, |strata|);
    var useful := UsefulStrata(strata, eligible, |strata|);
    picks := UsefulAreCounts(strata, eligible, |strata|);
    ScoreAtOne(strata, picks, useful, |picks|);
    excess := ExcessHidden(strata, picks, |picks|);
    SignOfScore(useful, exp, beta);
    FitIsSuppressedOrInterior(playerID, useful, exp);
    var fit := FitOf(playerID, useful, exp).result;
    if fit.converged {
      var before :| NearStationary(useful, exp, before, fit.logOddsRatio);
      SignOfConverged(useful, exp, before, fit.logOddsRatio, excess);
    }
  }

  ghost predicate SignReported(fit: FitEnd, excess: real, slack: real) {
    && fit.Ends?
    && (fit.result.converged && excess >= slack ==> fit.result.logOddsRatio > -STEP_TOLERANCE)
    && (fit.result.converged && excess <= -slack ==> fit.result.logOddsRatio < STEP_TOLERANCE)
  }
}
