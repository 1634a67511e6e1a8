/** From a client's clock to a pre-exposure count: what a "definite" lead says about the true times. */
module EdgeTiming {
  import Builder
  import PreExposure
  import opened Clock
  import opened ClockRuns
  import opened ProbeQueues

  /** The event that carries the server's report on an edge. */
  predicate Reports(f: Builder.FlatEvent, e: Edge) {
    var report := ReportOf(e);
    && f.data.eventTimeLowerMS == report.lowerMS
    && f.data.eventTimeUpperMS == report.upperMS
    && f.data.eventTimeEstimateMS == report.estimateMS
    && f.data.eventTimeUncertaintyMS == report.uncertaintyMS
    && f.event.serverTimeMS == report.estimateMS
  }

  /** The builder keeps the interval of an edge unless the interval starts at zero; then only a point survives. */
  lemma IntervalSurvivesExactlyWhen(f: Builder.FlatEvent, e: Edge)
    requires Reports(f, e) && 0 <= e.lowerMS <= e.upperMS
    ensures var o := Builder.Interval(f);
            (o.lowerMS <= e.lowerMS && e.upperMS <= o.upperMS) <==> (e.lowerMS > 0 || e.upperMS == 0)
    ensures e.lowerMS > 0 ==> Builder.Interval(f).lowerMS == e.lowerMS && Builder.Interval(f).upperMS == e.upperMS
  {
  }

  predicate Timing(i: PreExposure.Incident, f: Builder.FlatEvent) {
    i.readinessLowerMS == Builder.Interval(f).lowerMS && i.readinessUpperMS == Builder.Interval(f).upperMS
  }

  /** A definite count timed by f, for an edge that really happened at `t` and an exposure at `x`, with the order wrong. */
  predicate Misleads(e: Edge, f: Builder.FlatEvent, i: PreExposure.Incident, t: real, x: real) {
    && Timing(i, f) && PreExposure.Definite(i)
    && WithinServer(e, t) && i.exposureLowerMS as real <= x <= i.exposureUpperMS as real
    && t >= x
  }

  /** Definite counts of a reported edge are always right exactly when its interval starts after zero or ends by one. */
  lemma DefiniteIsRightExactlyWhen(f: Builder.FlatEvent, e: Edge)
    requires Reports(f, e) && 0 <= e.lowerMS <= e.upperMS
    ensures (forall i, t, x :: !Misleads(e, f, i, t, x)) <==> (e.lowerMS > 0 || e.upperMS <= 1)
  {
    if e.lowerMS == 0 && e.upperMS > 1 {
      var m := e.upperMS / 2;
      assert Misleads(e, f, PreExposure.Incident(m, m, m + 1, m + 1, false), e.upperMS as real, (m + 1) as real);
    }
  }

  /**
   In every run in which this player answers honestly, an aligned edge counted as a definite pre-exposure really
   happened before the exposure: `t` is when the client raised the weapon, by its own clock.
   */
  lemma DefiniteLeadIsReal(nonce: string, steps: seq<Step>, player: string, delta: nat -> real,
                           e: Edge, f: Builder.FlatEvent, i: PreExposure.Incident, t: real, exposure: real)
    requires player != "" && InOrder(steps) && HonestRun(nonce, steps, player, delta)
    requires e in Run(nonce, steps).log.edges && e.player == player && e.aligned
    requires Reports(f, e) && Timing(i, f) && (e.lowerMS > 0 || e.upperMS <= 1)
    requires WithinClient(e, t) && t + delta(|steps|) >= 0.0
    requires i.exposureLowerMS as real <= exposure <= i.exposureUpperMS as real
    requires PreExposure.Definite(i)
    ensures t + delta(|steps|) < exposure
  {
    RunIsTruthful(nonce, steps, player, delta);
    RunIsBounded(nonce, steps);
    assert Sound(e, delta(|steps|));
    assert WithinServer(e, t + delta(|steps|));
    DefiniteIsRightExactlyWhen(f, e);
    assert !Misleads(e, f, i, t + delta(|steps|), exposure);
  }

  // ----- a clamped edge -----

  /** A challenge, its honest answer ten milliseconds later, and an edge right after it. */
  const CLAMPED: seq<Step> := [
    ChallengeAll(["p"], 0),
    Responded("p", Response(1, "n", 1, 0, 5, 5), 10),
    EdgeArrived("p", EdgeMessage(1, "n", 1, 5, 5, "WEAPON_RAISED", 1.0), 10)]

  /** The client's clock is four milliseconds behind all the time. */
  function FourBehind(i: nat): real {
    4.0
  }

  lemma ClampedRun() returns (w1: World, w2: World, w3: World)
    ensures w1 == Run("n", CLAMPED[..1]) && w2 == Run("n", CLAMPED[..2]) && w3 == Run("n", CLAMPED)
    ensures w1.align.pending == map["p" := Challenge(1, 0, 10000)]
    ensures w2.align.estimates == map["p" := Estimate(0.0, 5.0)]
    ensures w3.log.edges == [Edge("p", "WEAPON_RAISED", 1, 5, 5, 0, 10, 10, true)]
  {
    assert CLAMPED[..1][..0] == [] && CLAMPED[..2][..1] == CLAMPED[..1] && CLAMPED[..3] == CLAMPED;
    assert ["p"][..0] == [];
    w1 := Next("n", EMPTY, CLAMPED[0]);
    w2 := Next("n", w1, CLAMPED[1]);
    w3 := Next("n", w2, CLAMPED[2]);
    assert Run("n", CLAMPED[..1]) == w1;
    assert Run("n", CLAMPED[..2]) == w2;
    assert CLAMPED[..3][..2] == CLAMPED[..2];
  }

  /**
   An honest player's run in which the edge, nine milliseconds after the server started, is reported as the point
   five, and so counted as a definite pre-exposure of an exposure at six.
   */
  lemma ClampedEdgeCanMislead(e: Edge, f: Builder.FlatEvent)
    requires e == Edge("p", "WEAPON_RAISED", 1, 5, 5, 0, 10, 10, true) && Reports(f, e)
    ensures InOrder(CLAMPED) && HonestRun("n", CLAMPED, "p", FourBehind) && e in Run("n", CLAMPED).log.edges
    ensures WithinClient(e, 5.0) && Misleads(e, f, PreExposure.Incident(5, 5, 6, 6, false), 5.0 + FourBehind(3), 6.0)
  {
    var w1, w2, w3 := ClampedRun();
    forall i | 0 <= i < |CLAMPED| ensures HonestAt("n", CLAMPED, i, "p", FourBehind(i)) {
      assert i == 1 ==> CLAMPED[..i] == CLAMPED[..1];
    }
  }
}
