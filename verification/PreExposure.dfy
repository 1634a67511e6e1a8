/** Interval-based timing of readiness against exposure, and what its bounds guarantee. */
module PreExposure {
  import opened Sorting

  datatype Incident = Incident(
    readinessLowerMS: int,
    readinessUpperMS: int,
    exposureLowerMS: int,
    exposureUpperMS: int,
    censored: bool)

  datatype Estimate = Estimate(
    incidentCount: nat,
    definite: nat,
    ambiguous: nat,
    medianLeadLowerMS: int,
    medianLeadUpperMS: int,
    rateLower: real,
    rateUpper: real)

  /** The incident has a usable exposure interval. */
  predicate Counted(i: Incident) {
    !i.censored && i.exposureLowerMS > 0 && i.exposureLowerMS <= i.exposureUpperMS
  }

  /** It also has a usable readiness interval. */
  predicate Timed(i: Incident) {
    Counted(i) && i.readinessLowerMS > 0 && i.readinessLowerMS <= i.readinessUpperMS
  }

  predicate Definite(i: Incident) {
    Timed(i) && i.readinessUpperMS < i.exposureLowerMS
  }

  predicate Ambiguous(i: Incident) {
    Timed(i) && !Definite(i) && i.readinessLowerMS < i.exposureUpperMS
  }

  function Count(s: seq<Incident>, p: Incident -> bool): nat {
    if s == [] then 0 else Count(s[..|s| - 1], p) + if p(s[|s| - 1]) then 1 else 0
  }

  function LowerLeads(s: seq<Incident>): seq<int> {
    if s == [] then []
    else
      var i := s[|s| - 1];
      LowerLeads(s[..|s| - 1]) + if Definite(i) then [i.exposureLowerMS - i.readinessUpperMS] else []
  }

  function UpperLeads(s: seq<Incident>): seq<int> {
    if s == [] then []
    else
      var i := s[|s| - 1];
      UpperLeads(s[..|s| - 1]) + if Definite(i) then [i.exposureUpperMS - i.readinessLowerMS] else []
  }

  // ----- medians -----

  predicate IntAtMost(a: int, b: int) {
    a <= b
  }

  predicate RealAtMost(a: real, b: real) {
    a <= b
  }

  /** Division by two that truncates toward zero. */
  function Half(n: int): int {
    if n >= 0 then n / 2 else -((-n) / 2)
  }

  /** The middle of a sorted list, with a middle pair averaged by integer division. */
  function Middle(s: seq<int>): int {
    if s == [] then 0
    else if |s| % 2 == 1 then s[|s| / 2]
    else Half(s[|s| / 2 - 1] + s[|s| / 2])
  }

  function ExactMiddle(s: seq<real>): real {
    if s == [] then 0.0
    else if |s| % 2 == 1 then s[|s| / 2]
    else (s[|s| / 2 - 1] + s[|s| / 2]) / 2.0
  }

  function MedianOf(values: seq<int>): int {
    Middle(SortBy(values, IntAtMost))
  }

  function ExactMedian(values: seq<real>): real {
    ExactMiddle(SortBy(values, RealAtMost))
  }

  function Reals(values: seq<int>): seq<real> {
    seq(|values|, i requires 0 <= i < |values| => values[i] as real)
  }

  /** Sorts its argument in place and reads the middle off. */
  method MedianInt64(values: array<int>) returns (median: int)
    modifies values
    ensures values[..] == SortBy(old(values[..]), IntAtMost)
    ensures median == MedianOf(old(values[..]))
  {
    var sorted := SortBy(values[..], IntAtMost);
    SortPermutes(values[..], IntAtMost);
    if values.Length == 0 {
      return 0;
    }
    forall i | 0 <= i < values.Length {
      values[i] := sorted[i];
    }
    assert values[..] == sorted;
    var middle := values.Length / 2;
    if values.Length % 2 == 1 {
      return values[middle];
    }
    return Half(values[middle - 1] + values[middle]);
  }

  method EstimatePreExposure(input: seq<Incident>) returns (result: Estimate)
    ensures result.incidentCount == Count(input, Counted)
    ensures result.definite == Count(input, Definite)
    ensures result.ambiguous == Count(input, Ambiguous)
    ensures result.medianLeadLowerMS == MedianOf(LowerLeads(input))
    ensures result.medianLeadUpperMS == MedianOf(UpperLeads(input))
    ensures result.incidentCount == 0 ==> result.rateLower == result.rateUpper == 0.0
    ensures result.incidentCount > 0 ==>
              && result.rateLower == result.definite as real / result.incidentCount as real
              && result.rateUpper == (result.definite + result.ambiguous) as real / result.incidentCount as real
  {
    var incidents, definite, ambiguous, lower, upper := CountIncidents(input);
    var rateLower, rateUpper := 0.0, 0.0;
    if incidents > 0 {
      rateLower := definite as real / incidents as real;
      rateUpper := (definite + ambiguous) as real / incidents as real;
    }
    var medianLower := MedianOfList(lower);
    var medianUpper := MedianOfList(upper);
    result := Estimate(incidents, definite, ambiguous, medianLower, medianUpper, rateLower, rateUpper);
  }

  method CountIncidents(input: seq<Incident>)
      returns (incidents: nat, definite: nat, ambiguous: nat, lowerLeads: seq<int>, upperLeads: seq<int>)
    ensures incidents == Count(input, Counted)
    ensures definite == Count(input, Definite) && ambiguous == Count(input, Ambiguous)
    ensures lowerLeads == LowerLeads(input) && upperLeads == UpperLeads(input)
  {
    incidents, definite, ambiguous, lowerLeads, upperLeads := 0, 0, 0, [], [];
    for k := 0 to |input|
      invariant incidents == Count(input[..k], Counted)
      invariant definite == Count(input[..k], Definite) && ambiguous == Count(input[..k], Ambiguous)
      invariant lowerLeads == LowerLeads(input[..k]) && upperLeads == UpperLeads(input[..k])
    {
      var incident := input[k];
      assert input[..k + 1][..k] == input[..k] && input[..k + 1][k] == incident;
      if incident.censored || incident.exposureLowerMS <= 0 || incident.exposureUpperMS < incident.exposureLowerMS {
        continue;
      }
      incidents := incidents + 1;
      if incident.readinessLowerMS <= 0 || incident.readinessUpperMS < incident.readinessLowerMS {
        continue;
      }
      if incident.readinessUpperMS < incident.exposureLowerMS {
        definite := definite + 1;
        lowerLeads := lowerLeads + [incident.exposureLowerMS - incident.readinessUpperMS];
        upperLeads := upperLeads + [incident.exposureUpperMS - incident.readinessLowerMS];
        continue;
      }
      if incident.readinessLowerMS < incident.exposureUpperMS {
        ambiguous := ambiguous + 1;
      }
    }
    assert input[..|input|] == input;
  }

  method MedianOfList(leads: seq<int>) returns (median: int)
    ensures median == MedianOf(leads)
  {
    var values := new int[|leads|](i requires 0 <= i < |leads| => leads[i]);
    assert values[..] == leads;
    median := MedianInt64(values);
  }

  // ----- true times -----

  /** One possible truth: when readiness and exposure really happened. */
  datatype Truth = Truth(readiness: real, exposure: real)

  predicate Possible(i: Incident, t: Truth) {
    && i.readinessLowerMS as real <= t.readiness <= i.readinessUpperMS as real
    && i.exposureLowerMS as real <= t.exposure <= i.exposureUpperMS as real
  }

  /** True times for every incident that has both intervals. */
  ghost predicate Possibles(s: seq<Incident>, truth: seq<Truth>) {
    |truth| == |s| && forall k :: 0 <= k < |s| && Timed(s[k]) ==> Possible(s[k], truth[k])
  }

  predicate PreExposed(i: Incident, t: Truth) {
    Timed(i) && t.readiness < t.exposure
  }

  function CountPreExposed(s: seq<Incident>, truth: seq<Truth>): nat
    requires |truth| == |s|
  {
    if s == [] then 0
    else CountPreExposed(s[..|s| - 1], truth[..|s| - 1]) + if PreExposed(s[|s| - 1], truth[|s| - 1]) then 1 else 0
  }

  function Rate(count: nat, total: nat): real {
    if total == 0 then 0.0 else count as real / total as real
  }

  lemma {:induction false} CountBounds(s: seq<Incident>, truth: seq<Truth>)
    requires Possibles(s, truth)
    ensures Count(s, Definite) <= CountPreExposed(s, truth) <= Count(s, Definite) + Count(s, Ambiguous)
  {
    if s != [] {
      CountBounds(s[..|s| - 1], truth[..|s| - 1]);
      assert Timed(s[|s| - 1]) ==> Possible(s[|s| - 1], truth[|s| - 1]);
    }
  }

  /** Readiness as late and exposure as early as the intervals allow; and the reverse. */
  function Latest(s: seq<Incident>): seq<Truth> {
    seq(|s|, k requires 0 <= k < |s| => Truth(s[k].readinessUpperMS as real, s[k].exposureLowerMS as real))
  }

  function Earliest(s: seq<Incident>): seq<Truth> {
    seq(|s|, k requires 0 <= k < |s| => Truth(s[k].readinessLowerMS as real, s[k].exposureUpperMS as real))
  }

  lemma {:induction false} CountAttained(s: seq<Incident>)
    ensures Possibles(s, Latest(s)) && Possibles(s, Earliest(s))
    ensures CountPreExposed(s, Latest(s)) == Count(s, Definite)
    ensures CountPreExposed(s, Earliest(s)) == Count(s, Definite) + Count(s, Ambiguous)
  {
    if s != [] {
      var front := s[..|s| - 1];
      CountAttained(front);
      assert Latest(s)[..|s| - 1] == Latest(front);
      assert Earliest(s)[..|s| - 1] == Earliest(front);
    }
  }

  lemma RateMonotone(a: nat, b: nat, total: nat)
    requires a <= b
    ensures Rate(a, total) <= Rate(b, total)
  {
    if total > 0 {
      var p, q := Rate(a, total), Rate(b, total);
      assert p * total as real == a as real && q * total as real == b as real;
      assert (q - p) * total as real >= 0.0;
    }
  }

  /** The true rate lies within the two reported rates, and each of them is some possible true rate. */
  lemma RateWithinBounds(s: seq<Incident>, truth: seq<Truth>)
    requires Possibles(s, truth)
    ensures Rate(Count(s, Definite), Count(s, Counted)) <= Rate(CountPreExposed(s, truth), Count(s, Counted))
              <= Rate(Count(s, Definite) + Count(s, Ambiguous), Count(s, Counted))
    ensures exists t :: Possibles(s, t) && CountPreExposed(s, t) == Count(s, Definite)
    ensures exists t :: Possibles(s, t) && CountPreExposed(s, t) == Count(s, Definite) + Count(s, Ambiguous)
  {
    CountBounds(s, truth);
    RateMonotone(Count(s, Definite), CountPreExposed(s, truth), Count(s, Counted));
    RateMonotone(CountPreExposed(s, truth), Count(s, Definite) + Count(s, Ambiguous), Count(s, Counted));
    CountAttained(s);
  }

  // ----- order statistics -----

  ghost predicate Below(a: seq<real>, b: seq<real>) {
    |a| == |b| && forall k :: 0 <= k < |a| ==> a[k] <= b[k]
  }

  lemma {:induction false} InsertBelow(x: real, s: seq<real>, y: real, t: seq<real>)
    requires x <= y && Below(s, t) && Sorted(s, RealAtMost) && Sorted(t, RealAtMost)
    ensures Below(Insert(x, s, RealAtMost), Insert(y, t, RealAtMost))
    decreases |s|
  {
    if s != [] {
      HeadFirst(s);
      HeadFirst(t);
      if x <= s[0] {
        if y > t[0] {
          InsertBelow(s[0], s[1..], y, t[1..]);
        }
      } else if y <= t[0] {
        InsertBelow(x, s[1..], t[0], t[1..]);
      } else {
        InsertBelow(x, s[1..], y, t[1..]);
      }
    }
  }

  lemma HeadFirst(s: seq<real>)
    requires s != [] && Sorted(s, RealAtMost)
    ensures Insert(s[0], s[1..], RealAtMost) == s && Sorted(s[1..], RealAtMost)
  {
    assert |s| > 1 ==> RealAtMost(s[0], s[1]);
  }

  lemma RealOrder()
    ensures TotalOrder(RealAtMost)
  {
  }

  /** Pointwise dominance survives sorting the two lists separately. */
  lemma {:induction false} SortedBelow(a: seq<real>, b: seq<real>)
    requires Below(a, b)
    ensures Below(SortBy(a, RealAtMost), SortBy(b, RealAtMost))
  {
    if a != [] {
      RealOrder();
      SortedBelow(a[1..], b[1..]);
      SortSorts(a[1..], RealAtMost);
      SortSorts(b[1..], RealAtMost);
      InsertBelow(a[0], SortBy(a[1..], RealAtMost), b[0], SortBy(b[1..], RealAtMost));
    }
  }

  lemma MedianBelow(a: seq<real>, b: seq<real>)
    requires Below(a, b)
    ensures ExactMedian(a) <= ExactMedian(b)
  {
    SortedBelow(a, b);
    MiddleBelow(SortBy(a, RealAtMost), SortBy(b, RealAtMost));
  }

  lemma MiddleBelow(s: seq<real>, t: seq<real>)
    requires Below(s, t)
    ensures ExactMiddle(s) <= ExactMiddle(t)
  {
  }

  lemma {:induction false} InsertReals(x: int, s: seq<int>)
    ensures Reals(Insert(x, s, IntAtMost)) == Insert(x as real, Reals(s), RealAtMost)
  {
    if s != [] {
      assert Reals(s)[1..] == Reals(s[1..]);
      if x > s[0] {
        InsertReals(x, s[1..]);
      }
    }
  }

  lemma {:induction false} SortReals(s: seq<int>)
    ensures Reals(SortBy(s, IntAtMost)) == SortBy(Reals(s), RealAtMost)
  {
    if s != [] {
      SortReals(s[1..]);
      assert Reals(s)[1..] == Reals(s[1..]);
      InsertReals(s[0], SortBy(s[1..], IntAtMost));
    }
  }

  /** Integer division loses half a millisecond exactly when an even list has an odd middle sum. */
  predicate LosesHalf(values: seq<int>) {
    MiddleLosesHalf(SortBy(values, IntAtMost))
  }

  predicate MiddleLosesHalf(s: seq<int>) {
    s != [] && |s| % 2 == 0 && (s[|s| / 2 - 1] + s[|s| / 2]) % 2 == 1
  }

  lemma MiddleOfReals(s: seq<int>)
    requires forall x :: x in s ==> x >= 0
    ensures ExactMiddle(Reals(s)) == Middle(s) as real + if MiddleLosesHalf(s) then 0.5 else 0.0
  {
    if s != [] && |s| % 2 == 0 {
      var a, b := s[|s| / 2 - 1], s[|s| / 2];
      assert a in s && b in s;
      var n := a + b;
      assert n == 2 * (n / 2) + n % 2;
      assert n as real == 2.0 * (n / 2) as real + (n % 2) as real;
    }
  }

  lemma MedianOfReals(values: seq<int>)
    requires forall x :: x in values ==> x >= 0
    ensures ExactMedian(Reals(values)) == MedianOf(values) as real + if LosesHalf(values) then 0.5 else 0.0
  {
    SortReals(values);
    SortPermutes(values, IntAtMost);
    MiddleOfReals(SortBy(values, IntAtMost));
  }

  // ----- the median lead -----

  /** The true leads of the definite incidents. */
  function TrueLeads(s: seq<Incident>, truth: seq<Truth>): seq<real>
    requires |truth| == |s|
  {
    if s == [] then []
    else
      var t := truth[|s| - 1];
      TrueLeads(s[..|s| - 1], truth[..|s| - 1]) + if Definite(s[|s| - 1]) then [t.exposure - t.readiness] else []
  }

  lemma {:induction false} LeadBounds(s: seq<Incident>, truth: seq<Truth>)
    requires Possibles(s, truth)
    ensures Below(Reals(LowerLeads(s)), TrueLeads(s, truth))
    ensures Below(TrueLeads(s, truth), Reals(UpperLeads(s)))
    ensures forall k :: 0 <= k < |LowerLeads(s)| ==> LowerLeads(s)[k] > 0
    ensures forall k :: 0 <= k < |UpperLeads(s)| ==> UpperLeads(s)[k] > 0
  {
    if s != [] {
      LeadBounds(s[..|s| - 1], truth[..|s| - 1]);
      assert Timed(s[|s| - 1]) ==> Possible(s[|s| - 1], truth[|s| - 1]);
    }
  }

  lemma {:induction false} UpperLeadsAttained(s: seq<Incident>)
    ensures TrueLeads(s, Earliest(s)) == Reals(UpperLeads(s))
  {
    if s != [] {
      UpperLeadsAttained(s[..|s| - 1]);
      assert Earliest(s)[..|s| - 1] == Earliest(s[..|s| - 1]);
    }
  }

  /**
   The median of the true leads is never below the reported lower median, and never more than half
   a millisecond above the reported upper median.
   */
  lemma MedianLeadWithinBounds(s: seq<Incident>, truth: seq<Truth>)
    requires Possibles(s, truth)
    ensures MedianOf(LowerLeads(s)) as real <= ExactMedian(TrueLeads(s, truth))
    ensures ExactMedian(TrueLeads(s, truth))
              <= MedianOf(UpperLeads(s)) as real + if LosesHalf(UpperLeads(s)) then 0.5 else 0.0
  {
    LeadBounds(s, truth);
    MedianBelow(Reals(LowerLeads(s)), TrueLeads(s, truth));
    MedianBelow(TrueLeads(s, truth), Reals(UpperLeads(s)));
    MedianOfReals(LowerLeads(s));
    MedianOfReals(UpperLeads(s));
  }

  /** The reported upper median bounds every possible true median exactly when no half is lost. */
  lemma UpperMedianExact(s: seq<Incident>)
    ensures (forall truth :: Possibles(s, truth) ==>
               ExactMedian(TrueLeads(s, truth)) <= MedianOf(UpperLeads(s)) as real)
       <==> !LosesHalf(UpperLeads(s))
  {
    CountAttained(s);
    LeadBounds(s, Earliest(s));
    UpperLeadsAttained(s);
    MedianOfReals(UpperLeads(s));
    if !LosesHalf(UpperLeads(s)) {
      forall truth | Possibles(s, truth) ensures ExactMedian(TrueLeads(s, truth)) <= MedianOf(UpperLeads(s)) as real {
        MedianLeadWithinBounds(s, truth);
      }
    }
  }

  /** Two definite incidents with leads of one and two milliseconds: the true median 1.5 exceeds the reported 1. */
  lemma UpperMedianCanBeShort()
    ensures var s := [Incident(1, 1, 2, 2, false), Incident(1, 1, 3, 3, false)];
            && MedianOf(UpperLeads(s)) == 1
            && ExactMedian(TrueLeads(s, Earliest(s))) == 1.5
  {
    var s := [Incident(1, 1, 2, 2, false), Incident(1, 1, 3, 3, false)];
    assert s[..1] == [s[0]] && s[..1][..0] == [];
    assert UpperLeads(s[..1]) == [1];
    assert UpperLeads(s) == [1, 2];
    assert SortBy([2], IntAtMost) == [2];
    assert [1, 2][1..] == [2];
    assert SortBy([1, 2], IntAtMost) == [1, 2];
    UpperLeadsAttained(s);
    MedianOfReals(UpperLeads(s));
  }
}
