/** The pre-exposure incidents that the analysis takes from built evidence, and what a definite one says. */
module Incidents {
  import opened Builder
  import opened ClientEdges
  import opened Clock
  import opened ClockRuns
  import opened Common
  import opened EdgeTiming
  import opened EvidenceLaws
  import opened Independence
  import opened Observations
  import opened PreExposure
  import Telemetry

  /** The observations that become incidents. */
  predicate IsIncident(o: Observation, eligible: set<string>) {
    && o.context.observer in eligible && o.exposure.estimateMS != 0 && o.strongHidden && o.independent
    && o.cueClass == Unexplained
  }

  function IncidentOf(o: Observation): Incident {
    Incident(o.outcome.lowerMS, o.outcome.upperMS, o.exposure.lowerMS, o.exposure.upperMS, o.exposure.censored)
  }

  function IncidentsOf(built: seq<Observation>, eligible: set<string>): seq<Incident> {
    if built == [] then []
    else
      var o := built[|built| - 1];
      IncidentsOf(built[..|built| - 1], eligible) + if IsIncident(o, eligible) then [IncidentOf(o)] else []
  }

  method EstimatePreExposureForSessions(sessionIDs: seq<string>, built: seq<Observation>) returns (result: PreExposure.Estimate)
    ensures var incidents := IncidentsOf(built, (set id | id in sessionIDs));
            && result.incidentCount == Count(incidents, Counted)
            && result.definite == Count(incidents, Definite)
            && result.ambiguous == Count(incidents, Ambiguous)
            && result.medianLeadLowerMS == MedianOf(LowerLeads(incidents))
            && result.medianLeadUpperMS == MedianOf(UpperLeads(incidents))
    ensures var eligible := set id | id in sessionIDs;
            && result.incidentCount == |Places(built, |built|, SeenIn(eligible))|
            && result.definite == |Places(built, |built|, BeforeIn(eligible))|
            && result.ambiguous == |Places(built, |built|, MaybeIn(eligible))|
    ensures result.incidentCount == 0 ==> result.rateLower == result.rateUpper == 0.0
    ensures result.incidentCount > 0 ==>
              && result.rateLower == result.definite as real / result.incidentCount as real
              && result.rateUpper == (result.definite + result.ambiguous) as real / result.incidentCount as real
  {
    var eligible := set id | id in sessionIDs;
    var incidents: seq<Incident> := [];
    for k := 0 to |built|
      invariant incidents == IncidentsOf(built[..k], eligible)
    {
      var o := built[k];
      assert built[..k + 1][..k] == built[..k];
      if !(o.context.observer in eligible) || o.exposure.estimateMS == 0 || !o.strongHidden || !o.independent
         || o.cueClass != Unexplained {
        continue;
      }
      incidents := incidents + [IncidentOf(o)];
    }
    assert built[..|built|] == built;
    CountsAreOfObservations(built, eligible);
    result := EstimatePreExposure(incidents);
  }

  // ----- the counts, from the observations alone -----

  /** An unexplained hidden opportunity of an eligible player whose exposure was seen, with a usable interval. */
  predicate Seen(o: Observation, eligible: set<string>) {
    && o.context.observer in eligible && o.independent && o.strongHidden && o.cueClass == Unexplained
    && o.exposure.estimateMS != 0 && !o.exposure.censored && 0 < o.exposure.lowerMS <= o.exposure.upperMS
  }

  /** Readiness that certainly came before the exposure. */
  predicate Before(o: Observation) {
    0 < o.outcome.lowerMS <= o.outcome.upperMS < o.exposure.lowerMS
  }

  /** Readiness that may have come before the exposure, or may not. */
  predicate MaybeBefore(o: Observation) {
    && 0 < o.outcome.lowerMS <= o.outcome.upperMS
    && o.exposure.lowerMS <= o.outcome.upperMS && o.outcome.lowerMS < o.exposure.upperMS
  }

  function SeenIn(eligible: set<string>): Observation -> bool {
    o => Seen(o, eligible)
  }

  function BeforeIn(eligible: set<string>): Observation -> bool {
    o => Seen(o, eligible) && Before(o)
  }

  function MaybeIn(eligible: set<string>): Observation -> bool {
    o => Seen(o, eligible) && MaybeBefore(o)
  }

  /** The places among the first `n` where the test holds. */
  function Places(built: seq<Observation>, n: nat, test: Observation -> bool): set<nat>
    requires n <= |built|
  {
    set k: nat | k < n && test(built[k])
  }

  lemma PlacesGrow(built: seq<Observation>, n: nat, test: Observation -> bool)
    requires n < |built|
    ensures |Places(built, n + 1, test)| == |Places(built, n, test)| + if test(built[n]) then 1 else 0
  {
    assert Places(built, n + 1, test) == Places(built, n, test) + if test(built[n]) then {n} else {};
  }

  ghost predicate Tells(test: Observation -> bool, p: Incident -> bool, eligible: set<string>) {
    forall o :: test(o) <==> IsIncident(o, eligible) && p(IncidentOf(o))
  }

  lemma CountOfOne(s: seq<Incident>, more: seq<Incident>, p: Incident -> bool)
    requires |more| <= 1
    ensures Count(s + more, p) == Count(s, p) + if more != [] && p(more[0]) then 1 else 0
  {
    if more == [] {
      assert s + more == s;
    } else {
      assert (s + more)[..|s|] == s;
    }
  }

  lemma {:induction false} CountIsPlaces(
      built: seq<Observation>, eligible: set<string>, n: nat, p: Incident -> bool, test: Observation -> bool)
    requires n <= |built| && Tells(test, p, eligible)
    ensures Count(IncidentsOf(built[..n], eligible), p) == |Places(built, n, test)|
  {
    if n > 0 {
      var o := built[n - 1];
      CountIsPlaces(built, eligible, n - 1, p, test);
      assert built[..n][..n - 1] == built[..n - 1];
      CountOfOne(IncidentsOf(built[..n - 1], eligible), if IsIncident(o, eligible) then [IncidentOf(o)] else [], p);
      PlacesGrow(built, n - 1, test);
      assert test(o) <==> IsIncident(o, eligible) && p(IncidentOf(o));
    }
  }

  lemma IncidentKinds(eligible: set<string>)
    ensures Tells(SeenIn(eligible), Counted, eligible)
    ensures Tells(BeforeIn(eligible), Definite, eligible)
    ensures Tells(MaybeIn(eligible), Ambiguous, eligible)
  {
  }

  /** The three counts are those of the observations that are seen, that came before, and that may have. */
  lemma CountsAreOfObservations(built: seq<Observation>, eligible: set<string>)
    ensures Count(IncidentsOf(built, eligible), Counted) == |Places(built, |built|, SeenIn(eligible))|
    ensures Count(IncidentsOf(built, eligible), Definite) == |Places(built, |built|, BeforeIn(eligible))|
    ensures Count(IncidentsOf(built, eligible), Ambiguous) == |Places(built, |built|, MaybeIn(eligible))|
  {
    IncidentKinds(eligible);
    assert built[..|built|] == built;
    CountIsPlaces(built, eligible, |built|, Counted, SeenIn(eligible));
    CountIsPlaces(built, eligible, |built|, Definite, BeforeIn(eligible));
    CountIsPlaces(built, eligible, |built|, Ambiguous, MaybeIn(eligible));
  }

  // ----- what an incident rests on -----

  /** What an incident rests on: the readiness edge that times it and the exposure that it is measured against. */
  ghost predicate Rests(events: seq<FlatEvent>, o: Observation, edge: FlatEvent, exposure: FlatEvent) {
    && edge in events && exposure in events && Timing(IncidentOf(o), edge) && IsReadinessEdge(edge)
    && SessionOf(edge) == SessionOf(exposure) == (o.context.serverID, o.context.serverSessionID)
    && edge.event.playerSessionID == exposure.event.playerSessionID == o.context.observer
    && exposure.event.eventType == Telemetry.VisibilityObservation && IsVisible(exposure.data.classification)
    && o.exposure == ExposureAt(exposure)
  }

  function OutcomeFound(current: FlatEvent, after: seq<FlatEvent>, closedMS: int): Outcome {
    var found := OutcomeOf(current, closedMS, after);
    if found.Some? then Interval(found.value) else NO_OUTCOME
  }

  function ExposureFound(current: FlatEvent, after: seq<FlatEvent>): Exposure {
    if current.data.targetPlayerID == "" then NO_TARGET_EXPOSURE
    else if ExposureOf(current, after).Some? then ExposureAt(ExposureOf(current, after).value)
    else UNKNOWN_EXPOSURE
  }

  lemma TimedHasEdge(current: FlatEvent, after: seq<FlatEvent>, closedMS: int) returns (edge: FlatEvent)
    requires OutcomeFound(current, after, closedMS).lowerMS > 0
    ensures edge in after && IsOutcome(current, closedMS, edge) && OutcomeFound(current, after, closedMS) == Interval(edge)
  {
    FirstMatchIs(after, OutcomeTest(current, closedMS));
    edge := OutcomeOf(current, closedMS, after).value;
  }

  lemma UncensoredHasExposure(current: FlatEvent, after: seq<FlatEvent>) returns (exposure: FlatEvent)
    requires !ExposureFound(current, after).censored
    ensures exposure in after && IsExposure(current, exposure) && ExposureFound(current, after) == ExposureAt(exposure)
  {
    FirstMatchIs(after, ExposureTest(current));
    exposure := ExposureOf(current, after).value;
  }

  lemma ObservedFrom(events: seq<FlatEvent>, config: Independence.Config, p: Observation)
      returns (e: FlatEvent, after: seq<FlatEvent>)
    requires p in Observe([], events, config)
    ensures p.context == ContextOf(e, config) && (forall x :: x in after ==> x in events)
    ensures p.outcome == OutcomeFound(e, after, Started(e) + config.decisionWindowMS) && p.exposure == ExposureFound(e, after)
  {
    var before;
    e, before, after := ObserveOrigin([], events, config, p);
  }

  /** The sweep changes neither times nor context. */
  lemma SweptKeepsTimes(obs: seq<Observation>, config: Independence.Config, o: Observation) returns (p: Observation)
    requires o in AllAssigned(obs, config)
    ensures p in obs && p.context == o.context && p.outcome == o.outcome && p.exposure == o.exposure
  {
    var i :| 0 <= i < |obs| && AllAssigned(obs, config)[i] == o;
    p := obs[i];
  }

  /** A definite incident of built evidence rests on an edge and an exposure of its own player, both in the timeline. */
  lemma DefiniteIncidentRests(events: seq<FlatEvent>, config: Independence.Config, o: Observation)
      returns (edge: FlatEvent, exposure: FlatEvent)
    requires o in Evidence(events, config) && Definite(IncidentOf(o))
    ensures Rests(events, o, edge, exposure)
  {
    var p := SweptKeepsTimes(Observe([], events, config), config, o);
    var e, after := ObservedFrom(events, config, p);
    edge := TimedHasEdge(e, after, Started(e) + config.decisionWindowMS);
    exposure := UncensoredHasExposure(e, after);
    PlayerOfContext(e, config);
  }

  lemma PlayerOfContext(e: FlatEvent, config: Independence.Config)
    ensures var c := ContextOf(e, config);
            c.observer == e.event.playerSessionID && (c.serverID, c.serverSessionID) == SessionOf(e)
  {
  }

  /** The event reports this aligned edge of the player, made at `t` by the client's clock, and keeps its interval. */
  predicate Dates(event: FlatEvent, e: Edge, player: string, t: real) {
    && e.player == player && e.aligned && Reports(event, e) && (e.lowerMS > 0 || e.upperMS <= 1) && WithinClient(e, t)
  }

  /**
   A definite incident is real: if its edge was reported from the queue of a run in which the player answers honestly,
   aligned and with an interval that starts after zero or ends by one, then the client really raised its weapon before
   the exposure, wherever in its interval that lay.
   */
  lemma DefiniteIncidentIsReal(
      events: seq<FlatEvent>, config: Independence.Config, o: Observation, nonce: string, steps: seq<Step>,
      player: string, delta: nat -> real, t: real, exposedMS: real)
      returns (edge: FlatEvent, exposure: FlatEvent)
    requires o in Evidence(events, config) && Definite(IncidentOf(o))
    requires player != "" && InOrder(steps) && HonestRun(nonce, steps, player, delta) && t + delta(|steps|) >= 0.0
    requires o.exposure.lowerMS as real <= exposedMS <= o.exposure.upperMS as real
    ensures Rests(events, o, edge, exposure)
    ensures forall e :: e in Run(nonce, steps).log.edges && Dates(edge, e, player, t) ==> t + delta(|steps|) < exposedMS
  {
    edge, exposure := DefiniteIncidentRests(events, config, o);
    forall e | e in Run(nonce, steps).log.edges && Dates(edge, e, player, t)
      ensures t + delta(|steps|) < exposedMS
    {
      DefiniteLeadIsReal(nonce, steps, player, delta, e, edge, IncidentOf(o), t, exposedMS);
    }
  }
}
