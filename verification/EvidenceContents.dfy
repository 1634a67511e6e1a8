/**
 What each observation of the evidence says, in terms of the timeline alone: which events become observations, and
 which other events give them their outcome, exposure and cue.
 */
module EvidenceContents {
  import opened Builder
  import opened Common
  import opened Independence
  import opened Observations
  import opened Sorting
  import opened Telemetry

  // ----- events in the timeline -----

  /** A random sample of the server: a visibility probe or an opportunity without one. */
  predicate Sampled(e: FlatEvent) {
    && (e.event.eventType == VisibilityObservation || e.event.eventType == SamplingOpportunity)
    && e.data.samplingStream == RandomOpportunity
  }

  function OpensMS(e: FlatEvent): int {
    if e.data.probeStartedMS > 0 then e.data.probeStartedMS else e.event.serverTimeMS
  }

  function ClosesMS(e: FlatEvent, config: Config): int {
    OpensMS(e) + config.decisionWindowMS
  }

  predicate HasInterval(e: FlatEvent) {
    0 < e.data.eventTimeLowerMS <= e.data.eventTimeUpperMS
  }

  function EarliestMS(e: FlatEvent): int {
    if HasInterval(e) then e.data.eventTimeLowerMS else e.event.serverTimeMS
  }

  function LatestMS(e: FlatEvent): int {
    if HasInterval(e) then e.data.eventTimeUpperMS else e.event.serverTimeMS
  }

  predicate SamePlayer(a: FlatEvent, b: FlatEvent) {
    a.serverID == b.serverID && a.sessionID == b.sessionID && a.event.playerSessionID == b.event.playerSessionID
  }

  /** Weapon raised, sights or optics used, within the decision window of `e` as far as its interval tells. */
  predicate Readies(e: FlatEvent, x: FlatEvent, config: Config) {
    && SamePlayer(e, x) && x.event.eventType == DecisionEdge
    && x.data.samplingReason in [WeaponRaised, AdsEntered, OpticsEntered]
    && x.event.serverTimeMS <= ClosesMS(e, config) + 5000
    && EarliestMS(x) <= ClosesMS(e, config) && OpensMS(e) <= LatestMS(x)
  }

  /** An enrichment probe of the same player that saw the same target at most half a minute later. */
  predicate Exposes(e: FlatEvent, x: FlatEvent) {
    && SamePlayer(e, x) && x.event.eventType == VisibilityObservation && x.data.samplingStream == EventEnrichment
    && x.data.classification in [Exposed, PartiallyExposed]
    && x.data.targetPlayerID == e.data.targetPlayerID != ""
    && x.event.serverTimeMS <= OpensMS(e) + 30000
  }

  predicate Sights(e: FlatEvent, x: FlatEvent) {
    && x.event.eventType == VisibilityObservation && x.data.classification in [Exposed, PartiallyExposed]
    && x.data.targetPlayerID == e.data.targetPlayerID
  }

  predicate Hurts(e: FlatEvent, x: FlatEvent) {
    x.event.eventType in [PlayerHit, PlayerKilled] && x.data.sourcePlayerID == e.data.targetPlayerID
  }

  /** A sighting of the target, or a hit or kill by it, at most half a minute before. */
  predicate Warns(e: FlatEvent, x: FlatEvent) {
    && SamePlayer(e, x) && e.data.targetPlayerID != "" && OpensMS(e) - 30000 <= x.event.serverTimeMS
    && (Sights(e, x) || Hurts(e, x))
  }

  // ----- what the record must say -----

  predicate FirstReadies(events: seq<FlatEvent>, k: nat, config: Config, j: nat) {
    && k < j < |events| && Readies(events[k], events[j], config)
    && forall i :: k < i < j ==> !Readies(events[k], events[i], config)
  }

  predicate TimesOf(x: FlatEvent, o: Outcome) {
    var given := x.data.eventTimeEstimateMS;
    && o.observed && o.lowerMS == EarliestMS(x) && o.upperMS == LatestMS(x) && o.authority == x.event.authority
    && o.estimateMS == (if o.lowerMS <= given <= o.upperMS then given else o.lowerMS + (o.upperMS - o.lowerMS) / 2)
    && o.uncertaintyMS == (if x.data.eventTimeUncertaintyMS > 0 then x.data.eventTimeUncertaintyMS else (o.upperMS - o.lowerMS) / 2)
    && (x.data.eventTimingSource != "" ==> o.timing == x.data.eventTimingSource)
  }

  /** The outcome is that of the first event that readies; there is none exactly when no event does. */
  ghost predicate OutcomeIs(events: seq<FlatEvent>, k: nat, config: Config, o: Outcome)
    requires k < |events|
  {
    && (o.observed <==> exists j :: k < j < |events| && Readies(events[k], events[j], config))
    && (o.observed ==> exists j: nat :: FirstReadies(events, k, config, j) && TimesOf(events[j], o))
    && (!o.observed ==> o.estimateMS == o.lowerMS == o.upperMS == o.uncertaintyMS == 0)
  }

  predicate FirstExposes(events: seq<FlatEvent>, k: nat, j: nat) {
    && k < j < |events| && Exposes(events[k], events[j])
    && forall i :: k < i < j ==> !Exposes(events[k], events[i])
  }

  predicate ProbedAt(x: FlatEvent, r: Exposure) {
    && r.lowerMS == OpensMS(x) && r.upperMS == Max(OpensMS(x), x.data.probeCompletedMS)
    && r.estimateMS == r.lowerMS + (r.upperMS - r.lowerMS) / 2
  }

  ghost predicate ExposureIs(events: seq<FlatEvent>, k: nat, r: Exposure)
    requires k < |events|
  {
    && (!r.censored <==> exists j :: k < j < |events| && Exposes(events[k], events[j]))
    && (!r.censored ==> exists j: nat :: FirstExposes(events, k, j) && ProbedAt(events[j], r))
    && (r.censored ==> r.estimateMS == r.lowerMS == r.upperMS == 0)
    && (r.cause == "NOT_APPLICABLE" <==> events[k].data.targetPlayerID == "")
  }

  predicate LastWarns(events: seq<FlatEvent>, k: nat, j: nat) {
    && j < k < |events| && Warns(events[k], events[j])
    && forall i :: j < i < k ==> !Warns(events[k], events[i])
  }

  predicate ToldBy(e: FlatEvent, x: FlatEvent, o: Observation) {
    && o.cueClass == (if Sights(e, x) then Known else Plausible)
    && |o.cueFacts| == 1
    && o.cueFacts[0].cueType == (if Sights(e, x) then RecentVisualExposure else RecentCombatContact)
    && o.cueFacts[0].sourceEventID == x.id && o.cueFacts[0].occurredMS == x.event.serverTimeMS
    && o.cueFacts[0].authority == x.event.authority
  }

  /** An observation is unexplained exactly when nothing warned; otherwise the last warning explains it. */
  ghost predicate CueIs(events: seq<FlatEvent>, k: nat, o: Observation)
    requires k < |events|
  {
    && (o.cueClass == Unexplained <==> !exists j: nat :: j < k && Warns(events[k], events[j]))
    && (o.cueClass == Unexplained ==> o.cueFacts == [])
    && (o.cueClass != Unexplained ==> exists j: nat :: LastWarns(events, k, j) && ToldBy(events[k], events[j], o))
  }

  /** What the record copies from its own event. */
  predicate Copies(e: FlatEvent, config: Config, o: Observation) {
    var c, d := o.context, e.data;
    && o.opportunityID == e.id && c.serverID == e.serverID && c.serverSessionID == e.sessionID
    && c.observer == e.event.playerSessionID && c.authority == e.event.authority
    && c.target == (if d.targetPlayerSessionID != "" || d.targetPlayerID == "" then d.targetPlayerSessionID
                    else e.sessionID + ":" + d.targetPlayerID)
    && c.startedMS == OpensMS(e) && c.closedMS == ClosesMS(e, config)
    && c.visibility == d.classification && c.originMode == d.observerOriginMode && c.validationID == d.visibilityValidationID
    && c.targetInclusion == d.targetInclusion && c.queueAdmission == d.queueAdmission
    && c.queueDelayMS == d.queueDelayMS && c.occlusionDurationMS == d.occlusionDurationMS
    && c.mapID == d.mapID && c.areaCell == d.areaCell && c.samplingPolicy == d.samplingPolicyVersion
    && c.weaponState == d.baselineWeaponState && c.cameraMode == d.cameraMode && c.stanceID == d.observerStanceID
  }

  predicate Timely(o: Observation, config: Config) {
    && 0 <= o.context.queueDelayMS <= config.maxQueueDelayMS
    && (o.outcome.observed ==> o.outcome.uncertaintyMS <= config.maxEventUncertaintyMS)
  }

  /** The eligibility flags of a record, from its own fields. */
  predicate FlagsAre(o: Observation, config: Config) {
    var c := o.context;
    var admitted := o.independent && o.timingEligible && c.authority == TierA && c.queueAdmission > 0.0;
    && (o.timingEligible <==> Timely(o, config))
    && (o.strongHidden <==> admitted && c.visibility == RobustlyOccluded && c.targetInclusion > 0.0
                              && c.originMode in ["VALIDATED_FIRST_PERSON_HEAD", "FIRST_PERSON_EYE"]
                              && c.validationID != "" && c.occlusionDurationMS > 0)
    && (o.control <==> admitted && c.visibility == NoRelevantTarget)
    && (o.positiveControl <==> admitted && c.visibility in [Exposed, PartiallyExposed] && c.targetInclusion > 0.0)
  }

  ghost predicate Describes(events: seq<FlatEvent>, k: nat, config: Config, o: Observation) {
    && k < |events| && Copies(events[k], config, o) && FlagsAre(o, config)
    && OutcomeIs(events, k, config, o.outcome) && ExposureIs(events, k, o.exposure) && CueIs(events, k, o)
  }

  /** `at` lists, in order, exactly the sampled events from the k-th on. */
  ghost predicate SampledFrom(events: seq<FlatEvent>, k: nat, at: seq<nat>) {
    && (forall n :: 0 <= n < |at| ==> k <= at[n] < |events|)
    && (forall m, n :: 0 <= m < n < |at| ==> at[m] < at[n])
    && (forall i: nat :: k <= i < |events| ==> (i in at <==> Sampled(events[i])))
  }

  // ----- one record -----

  lemma ReadiesIsOutcome(e: FlatEvent, x: FlatEvent, config: Config)
    ensures Readies(e, x, config) <==> OutcomeTest(e, Started(e) + config.decisionWindowMS)(x)
    ensures Readies(e, x, config) ==> TimesOf(x, Interval(x))
  {
  }

  lemma ExposesIsExposure(e: FlatEvent, x: FlatEvent)
    ensures Exposes(e, x) <==> e.data.targetPlayerID != "" && ExposureTest(e)(x)
    ensures Exposes(e, x) ==> ProbedAt(x, ExposureAt(x))
  {
  }

  lemma WarnsIsCue(e: FlatEvent, x: FlatEvent)
    ensures Warns(e, x) <==> e.data.targetPlayerID != "" && CueTest(e)(x)
    ensures Sights(e, x) == IsSighting(e, x)
  {
  }

  /** The first match in what follows index k, by index. */
  lemma FirstAfter(events: seq<FlatEvent>, k: nat, p: FlatEvent -> bool) returns (j: nat)
    requires k < |events|
    ensures FirstMatch(events[k + 1..], p) == None ==> forall i :: k < i < |events| ==> !p(events[i])
    ensures FirstMatch(events[k + 1..], p).Some? ==>
              && k < j < |events| && p(events[j]) && FirstMatch(events[k + 1..], p).value == events[j]
              && forall i :: k < i < j ==> !p(events[i])
  {
    var after := events[k + 1..];
    FirstMatchIs(after, p);
    assert forall i :: k < i < |events| ==> events[i] == after[i - k - 1];
    j := 0;
    if FirstMatch(after, p).Some? {
      var m :| 0 <= m < |after| && after[m] == FirstMatch(after, p).value && p(after[m]) && forall i :: 0 <= i < m ==> !p(after[i]);
      j := k + 1 + m;
    }
  }

  lemma LastBefore(events: seq<FlatEvent>, k: nat, p: FlatEvent -> bool) returns (j: nat)
    requires k < |events|
    ensures LastMatch(events[..k], p) == None ==> forall i :: 0 <= i < k ==> !p(events[i])
    ensures LastMatch(events[..k], p).Some? ==>
              && j < k && p(events[j]) && LastMatch(events[..k], p).value == events[j]
              && forall i :: j < i < k ==> !p(events[i])
  {
    var before := events[..k];
    LastMatchIs(before, p);
    assert forall i :: 0 <= i < k ==> events[i] == before[i];
    j := 0;
    if LastMatch(before, p).Some? {
      j :| 0 <= j < |before| && before[j] == LastMatch(before, p).value && p(before[j])
           && forall i :: j < i < |before| ==> !p(before[i]);
    }
  }

  lemma OutcomeByIndex(events: seq<FlatEvent>, k: nat, config: Config) returns (j: nat)
    requires k < |events|
    ensures var found := OutcomeOf(events[k], Started(events[k]) + config.decisionWindowMS, events[k + 1..]);
            && (found == None ==> forall i :: k < i < |events| ==> !Readies(events[k], events[i], config))
            && (found.Some? ==> FirstReadies(events, k, config, j) && found.value == events[j])
  {
    var test := OutcomeTest(events[k], Started(events[k]) + config.decisionWindowMS);
    j := FirstAfter(events, k, test);
    forall i | k < i < |events| ensures Readies(events[k], events[i], config) <==> test(events[i]) {
      ReadiesIsOutcome(events[k], events[i], config);
    }
  }

  lemma OutcomeIsRight(events: seq<FlatEvent>, k: nat, config: Config, found: Option<FlatEvent>)
    requires k < |events| && found == OutcomeOf(events[k], Started(events[k]) + config.decisionWindowMS, events[k + 1..])
    ensures OutcomeIs(events, k, config, if found.Some? then Interval(found.value) else NO_OUTCOME)
  {
    var j := OutcomeByIndex(events, k, config);
    if found.Some? {
      ReadiesIsOutcome(events[k], events[j], config);
    }
  }

  lemma ExposureIsRight(events: seq<FlatEvent>, k: nat, found: Option<FlatEvent>)
    requires k < |events| && found == ExposureOf(events[k], events[k + 1..])
    ensures ExposureIs(events, k, if events[k].data.targetPlayerID == "" then NO_TARGET_EXPOSURE
                                  else if found.Some? then ExposureAt(found.value) else UNKNOWN_EXPOSURE)
  {
    var e := events[k];
    forall x ensures Exposes(e, x) <==> e.data.targetPlayerID != "" && ExposureTest(e)(x) {
      ExposesIsExposure(e, x);
    }
    var j := FirstAfter(events, k, ExposureTest(e));
    if found.Some? {
      ExposesIsExposure(e, events[j]);
      assert FirstExposes(events, k, j);
    }
  }

  lemma CueIsRight(events: seq<FlatEvent>, k: nat, found: Option<FlatEvent>, o: Observation)
    requires k < |events| && found == CueOf(events[k], events[..k])
    requires o.cueClass == if found == None then Unexplained else if IsSighting(events[k], found.value) then Known else Plausible
    requires o.cueFacts == if found == None then [] else [CueFactOf(events[k], found.value)]
    ensures CueIs(events, k, o)
  {
    var e := events[k];
    forall x ensures Warns(e, x) <==> e.data.targetPlayerID != "" && CueTest(e)(x) {
      WarnsIsCue(e, x);
    }
    var j := LastBefore(events, k, CueTest(e));
    if found.Some? {
      WarnsIsCue(e, events[j]);
      assert LastWarns(events, k, j);
      assert ToldBy(e, events[j], o);
    }
  }

  lemma RecordIsRight(events: seq<FlatEvent>, k: nat, config: Config)
    requires k < |events|
    ensures Describes(events, k, config, ObservationOf(events[..k], events[k], events[k + 1..], config))
  {
    var found := Find(events[..k], events[k], events[k + 1..], config);
    var o := ObservationOf(events[..k], events[k], events[k + 1..], config);
    OutcomeIsRight(events, k, config, found.edge);
    ExposureIsRight(events, k, found.exposure);
    CueIsRight(events, k, found.cue, o);
    AssembledIsRight(events[k], config, found);
  }

  lemma AssembledIsRight(e: FlatEvent, config: Config, found: Findings)
    ensures Copies(e, config, Assemble(e, config, found)) && FlagsAre(Assemble(e, config, found), config)
  {
  }

  /** The sweep clears flags along with independence and renumbers groups; the rest of the record stays right. */
  lemma SweptStaysRight(events: seq<FlatEvent>, k: nat, config: Config, obs: seq<Observation>, n: nat)
    requires n < |obs| && obs[n].independent && Describes(events, k, config, obs[n])
    ensures Describes(events, k, config, AllAssigned(obs, config)[n])
  {
    var o, o' := obs[n], Assigned(obs, config, n);
    assert Copies(events[k], config, o') && FlagsAre(o', config);
    assert o'.outcome == o.outcome && o'.exposure == o.exposure;
    SameCue(events, k, o, o');
  }

  lemma SameCue(events: seq<FlatEvent>, k: nat, o: Observation, o': Observation)
    requires k < |events| && CueIs(events, k, o) && o'.cueClass == o.cueClass && o'.cueFacts == o.cueFacts
    ensures CueIs(events, k, o')
  {
    if o.cueClass != Unexplained {
      var j: nat :| LastWarns(events, k, j) && ToldBy(events[k], events[j], o);
      assert ToldBy(events[k], events[j], o');
    }
  }

  // ----- the whole evidence -----

  ghost predicate AllDescribe(events: seq<FlatEvent>, config: Config, at: seq<nat>, obs: seq<Observation>) {
    |obs| == |at| && forall n :: 0 <= n < |at| ==> Describes(events, at[n], config, obs[n])
  }

  function RecordAt(events: seq<FlatEvent>, k: nat, config: Config): Observation
    requires k < |events|
  {
    ObservationOf(events[..k], events[k], events[k + 1..], config)
  }

  function IsRecord(events: seq<FlatEvent>, config: Config): (nat, Observation) -> bool {
    (k: nat, o: Observation) => k < |events| && o == RecordAt(events, k, config)
  }

  ghost predicate Pointwise<A(!new), B(!new)>(relation: (A, B) -> bool, a: seq<A>, b: seq<B>) {
    |a| == |b| && forall n :: 0 <= n < |a| ==> relation(a[n], b[n])
  }

  lemma PointwiseCons<A(!new), B(!new)>(relation: (A, B) -> bool, x: A, a: seq<A>, y: B, b: seq<B>)
    requires relation(x, y) && Pointwise(relation, a, b)
    ensures Pointwise(relation, [x] + a, [y] + b)
  {
  }

  lemma PointAt<A(!new), B(!new)>(relation: (A, B) -> bool, a: seq<A>, b: seq<B>, n: nat)
    requires Pointwise(relation, a, b) && n < |a|
    ensures |a| == |b| && relation(a[n], b[n])
  {
  }

  lemma ObserveFromIndex(events: seq<FlatEvent>, k: nat, config: Config)
    requires k < |events|
    ensures Observe(events[..k], events[k..], config)
         == (if Sampled(events[k]) then [RecordAt(events, k, config)] else []) + Observe(events[..k + 1], events[k + 1..], config)
  {
    assert events[..k] + [events[k]] == events[..k + 1] && events[k..][1..] == events[k + 1..];
  }

  lemma SampledStep(events: seq<FlatEvent>, k: nat, later: seq<nat>)
    requires k < |events| && SampledFrom(events, k + 1, later)
    ensures SampledFrom(events, k, if Sampled(events[k]) then [k] + later else later)
  {
  }

  lemma {:induction false} ObserveIsRecords(events: seq<FlatEvent>, k: nat, config: Config) returns (at: seq<nat>)
    requires k <= |events|
    ensures SampledFrom(events, k, at)
    ensures Pointwise(IsRecord(events, config), at, Observe(events[..k], events[k..], config))
    decreases |events| - k
  {
    if k == |events| {
      at := [];
    } else {
      var later := ObserveIsRecords(events, k + 1, config);
      SampledStep(events, k, later);
      at := RecordsStep(events, k, config, later, Observe(events[..k + 1], events[k + 1..], config));
      ObserveFromIndex(events, k, config);
    }
  }

  lemma RecordsStep(events: seq<FlatEvent>, k: nat, config: Config, later: seq<nat>, obs: seq<Observation>)
      returns (at: seq<nat>)
    requires k < |events| && Pointwise(IsRecord(events, config), later, obs)
    ensures at == if Sampled(events[k]) then [k] + later else later
    ensures Pointwise(IsRecord(events, config), at, (if Sampled(events[k]) then [RecordAt(events, k, config)] else []) + obs)
  {
    var o := RecordAt(events, k, config);
    if Sampled(events[k]) {
      at := [k] + later;
      PointwiseCons(IsRecord(events, config), k, later, o, obs);
    } else {
      at := later;
      assert [] + obs == obs;
    }
  }

  lemma SweptRecordIsRight(events: seq<FlatEvent>, k: nat, config: Config, obs: seq<Observation>, n: nat)
    requires k < |events| && n < |obs| && obs[n] == RecordAt(events, k, config)
    ensures Describes(events, k, config, AllAssigned(obs, config)[n])
  {
    RecordIsRight(events, k, config);
    SweptStaysRight(events, k, config, obs, n);
  }

  /**
   The evidence is one right record for each sampled event of the timeline, in order: it names its event and window, its
   outcome is the first readiness edge of the same player that can lie in the window, its exposure the first enrichment
   probe that saw the same target within the horizon, and it is unexplained exactly when nothing warned the player.
   */
  lemma EvidenceIsRight(events: seq<FlatEvent>, config: Config) returns (at: seq<nat>)
    ensures SampledFrom(events, 0, at)
    ensures AllDescribe(events, config, at, Evidence(events, config))
  {
    at := ObserveIsRecords(events, 0, config);
    assert events[..0] == [] && events[0..] == events;
    var obs := Observe([], events, config);
    forall n | 0 <= n < |at| ensures Describes(events, at[n], config, AllAssigned(obs, config)[n]) {
      PointAt(IsRecord(events, config), at, obs, n);
      SweptRecordIsRight(events, at[n], config, obs, n);
    }
  }

  /** No outcome lies wholly outside the decision window of its observation, and no exposure after the horizon. */
  lemma OutcomeMeetsWindow(events: seq<FlatEvent>, config: Config, o: Observation)
    requires o in Evidence(events, config)
    ensures o.context.closedMS == o.context.startedMS + config.decisionWindowMS
    ensures o.outcome.observed ==> o.outcome.lowerMS <= o.context.closedMS && o.context.startedMS <= o.outcome.upperMS
  {
    var at := EvidenceIsRight(events, config);
    var n :| 0 <= n < |at| && Evidence(events, config)[n] == o;
    assert Describes(events, at[n], config, o);
  }

  // ----- names and bands -----

  /** Each band of a record is the range that its measure lies in. */
  predicate Banded(e: FlatEvent, c: Context) {
    var far, speed, players := e.data.targetDistance, e.data.observerSpeed, e.data.serverPopulationCount;
    && (c.distanceBand == "0-25" <==> far < 25.0) && (c.distanceBand == "25-50" <==> 25.0 <= far < 50.0)
    && (c.distanceBand == "50-100" <==> 50.0 <= far < 100.0) && (c.distanceBand == "100-250" <==> 100.0 <= far < 250.0)
    && (c.distanceBand == "250+" <==> 250.0 <= far)
    && (c.movementBand == "STATIONARY" <==> speed < 0.25) && (c.movementBand == "SLOW" <==> 0.25 <= speed < 2.0)
    && (c.movementBand == "FAST" <==> 2.0 <= speed)
    && (c.populationBand == "0-9" <==> players < 10) && (c.populationBand == "10-29" <==> 10 <= players < 30)
    && (c.populationBand == "30-59" <==> 30 <= players < 60) && (c.populationBand == "60+" <==> 60 <= players)
  }

  lemma DistanceIsBanded(far: real)
    ensures var band := DistanceBand(far);
            && (band == "0-25" <==> far < 25.0) && (band == "25-50" <==> 25.0 <= far < 50.0)
            && (band == "50-100" <==> 50.0 <= far < 100.0) && (band == "100-250" <==> 100.0 <= far < 250.0)
            && (band == "250+" <==> 250.0 <= far)
  {
    var band := DistanceBand(far);
    assert band[0] == '0' <==> far < 25.0;
    assert |band| == 4 && band[0] == '2' && band[1] == '5' && band[2] == '0' <==> 250.0 <= far;
  }

  lemma MovementIsBanded(speed: real, players: int)
    ensures var band := MovementBand(speed);
            && (band == "STATIONARY" <==> speed < 0.25) && (band == "SLOW" <==> 0.25 <= speed < 2.0)
            && (band == "FAST" <==> 2.0 <= speed)
    ensures var band := PopulationBand(players);
            && (band == "0-9" <==> players < 10) && (band == "10-29" <==> 10 <= players < 30)
            && (band == "30-59" <==> 30 <= players < 60) && (band == "60+" <==> 60 <= players)
  {
    var band := PopulationBand(players);
    assert band[0] == '0' <==> players < 10;
    assert band[0] == '6' <==> 60 <= players;
    assert band[0] == '3' <==> 30 <= players < 60;
  }

  lemma ContextIsBanded(e: FlatEvent, config: Config)
    ensures Banded(e, ContextOf(e, config))
  {
    DistanceIsBanded(e.data.targetDistance);
    MovementIsBanded(e.data.observerSpeed, e.data.serverPopulationCount);
  }

  /** Every record is banded by its own event's measures, and carries a name that no record of another event has. */
  lemma RecordsAreBandedAndNamed(events: seq<FlatEvent>, config: Config) returns (at: seq<nat>)
    ensures SampledFrom(events, 0, at) && |Evidence(events, config)| == |at|
    ensures forall n :: 0 <= n < |at| ==> at[n] < |events| && Banded(events[at[n]], Evidence(events, config)[n].context)
    ensures forall m, n :: 0 <= m < |at| && 0 <= n < |at| ==>
              (Evidence(events, config)[m].observationID == Evidence(events, config)[n].observationID
               <==> events[at[m]].id == events[at[n]].id)
  {
    at := ObserveIsRecords(events, 0, config);
    assert events[..0] == [] && events[0..] == events;
    var obs := Observe([], events, config);
    forall n | 0 <= n < |at| ensures at[n] < |events| && Named(events[at[n]], config, Evidence(events, config)[n]) {
      PointAt(IsRecord(events, config), at, obs, n);
      RecordIsNamed(events, at[n], config, obs, n);
    }
    forall n | 0 <= n < |at| ensures Banded(events[at[n]], Evidence(events, config)[n].context) {
      ContextIsBanded(events[at[n]], config);
    }
    forall m, n | 0 <= m < |at| && 0 <= n < |at|
      ensures Evidence(events, config)[m].observationID == Evidence(events, config)[n].observationID
              <==> events[at[m]].id == events[at[n]].id
    {
      NamesDiffer(events[at[m]].id, events[at[n]].id);
    }
  }

  predicate Named(e: FlatEvent, config: Config, o: Observation) {
    o.context == ContextOf(e, config) && o.observationID == ObservationID(e.id)
  }

  lemma RecordIsNamed(events: seq<FlatEvent>, k: nat, config: Config, obs: seq<Observation>, n: nat)
    requires k < |events| && n < |obs| && obs[n] == RecordAt(events, k, config)
    ensures Named(events[k], config, AllAssigned(obs, config)[n])
  {
  }

  lemma NamesDiffer(a: string, b: string)
    ensures ObservationID(a) == ObservationID(b) <==> a == b
  {
    var front, end := "observation" + ['\0'], ['\0'] + BUILDER_VERSION;
    NameParts(a, front, end);
    NameParts(b, front, end);
  }

  lemma NameParts(id: string, front: string, end: string)
    requires front == "observation" + ['\0'] && end == ['\0'] + BUILDER_VERSION
    ensures |ObservationID(id)| == |front| + |id| + |end|
    ensures ObservationID(id)[|front|..|front| + |id|] == id
  {
    assert ObservationID(id) == front + (id + end);
  }

  // ----- the timeline -----

  /** The entry of an event of a batch. */
  predicate Carries(b: Batch, x: Event, e: FlatEvent) {
    && e.serverID == b.serverID && e.sessionID == b.serverSessionID && e.event == x
    && e.id == (if x.sourceEventID != "" then x.sourceEventID else b.serverSessionID + ":" + Decimal(x.serverSequence))
    && e.data == (if x.wire.Decoded? then x.wire.value else ZERO_PAYLOAD)
  }

  lemma {:induction false} BatchIsFlat(b: Batch, n: nat)
    requires n <= |b.events|
    ensures |FlatBatch(b, n)| == n
    ensures forall k :: 0 <= k < n ==> Carries(b, b.events[k], FlatBatch(b, n)[k])
  {
    if n > 0 {
      BatchIsFlat(b, n - 1);
    }
  }

  lemma {:induction false} SentIsFlat(batches: seq<Batch>, n: nat, i: nat, x: Event) returns (e: FlatEvent)
    requires i < n <= |batches| && x in batches[i].events
    ensures e in FlatAll(batches, n) && Carries(batches[i], x, e)
  {
    var earlier, part := FlatAll(batches, n - 1), FlatBatch(batches[n - 1], |batches[n - 1].events|);
    if i == n - 1 {
      e := EventIsFlat(batches[i], x);
      InEither(earlier, part, e);
    } else {
      e := SentIsFlat(batches, n - 1, i, x);
      InEither(earlier, part, e);
    }
  }

  lemma InEither(s: seq<FlatEvent>, t: seq<FlatEvent>, e: FlatEvent)
    ensures e in s + t <==> e in s || e in t
  {
  }

  lemma EventIsFlat(b: Batch, x: Event) returns (e: FlatEvent)
    requires x in b.events
    ensures e in FlatBatch(b, |b.events|) && Carries(b, x, e)
  {
    BatchIsFlat(b, |b.events|);
    var k :| 0 <= k < |b.events| && b.events[k] == x;
    e := FlatBatch(b, |b.events|)[k];
  }

  lemma {:induction false} FlatIsSent(batches: seq<Batch>, n: nat, e: FlatEvent) returns (b: Batch, x: Event)
    requires n <= |batches| && e in FlatAll(batches, n)
    ensures b in batches && x in b.events && Carries(b, x, e)
  {
    b := batches[n - 1];
    var part := FlatBatch(b, |b.events|);
    if e in part {
      BatchIsFlat(b, |b.events|);
      var k :| 0 <= k < |part| && part[k] == e;
      x := b.events[k];
    } else {
      b, x := FlatIsSent(batches, n - 1, e);
    }
  }

  lemma CarriesOne(b: Batch, x: Event, e: FlatEvent, e': FlatEvent)
    requires Carries(b, x, e) && Carries(b, x, e')
    ensures e == e'
  {
  }

  ghost predicate Entered(batches: seq<Batch>, e: FlatEvent) {
    exists b, x :: b in batches && x in b.events && Carries(b, x, e)
  }

  /** The timeline holds the events of all batches and nothing else. */
  lemma TimelineHolds(batches: seq<Batch>, e: FlatEvent)
    ensures e in Timeline(batches) <==> Entered(batches, e)
  {
    SortPermutes(FlatAll(batches, |batches|), EventAtMost);
    if e in Timeline(batches) {
      var b, x := FlatIsSent(batches, |batches|, e);
    }
    if Entered(batches, e) {
      var b, x :| b in batches && x in b.events && Carries(b, x, e);
      var i: nat :| i < |batches| && batches[i] == b;
      var e' := SentIsFlat(batches, |batches|, i, x);
      CarriesOne(b, x, e, e');
    }
  }

  /** It runs by server, then by session, then by time, then by sequence number. */
  lemma TimelineRuns(batches: seq<Batch>, i: nat, j: nat)
    requires i < j < |Timeline(batches)|
    ensures var a, b := Timeline(batches)[i], Timeline(batches)[j];
            if a.serverID != b.serverID then StringLess(a.serverID, b.serverID)
            else if a.sessionID != b.sessionID then StringLess(a.sessionID, b.sessionID)
            else a.event.serverTimeMS < b.event.serverTimeMS
                 || (a.event.serverTimeMS == b.event.serverTimeMS && a.event.serverSequence <= b.event.serverSequence)
  {
    var a, b := Timeline(batches)[i], Timeline(batches)[j];
    EventOrder();
    SortSorts(FlatAll(batches, |batches|), EventAtMost);
    assert EventAtMost(a, b);
    StringTrichotomy(a.serverID, b.serverID);
    StringTrichotomy(a.sessionID, b.sessionID);
  }

  /** The configuration as it is used: an uncertainty limit that is not positive means half a second. */
  function InForce(config: Config): Config {
    config.(maxEventUncertaintyMS := if config.maxEventUncertaintyMS > 0 then config.maxEventUncertaintyMS else 500)
  }

  predicate Misconfigured(config: Config) {
    || config.decisionWindowMS <= 0 || config.refractoryMS <= 0 || config.episodeGapMS <= 0 || config.encounterGapMS <= 0
    || config.maxQueueDelayMS <= 0 || config.timingPolicy == ""
  }

  /** A build refuses bad configurations and malformed payloads, and otherwise returns right records of the sent events. */
  lemma BuildIsRight(batches: seq<Batch>, config: Config, r: BuildResult) returns (at: seq<nat>)
    requires IsBuild(batches, config, r)
    ensures r == BadConfig <==> Misconfigured(config)
    ensures r.BadBatch? ==> exists b, x :: b in batches && x in b.events && x.wire.Malformed?
                                           && b.serverSessionID == r.serverSessionID && x.serverSequence == r.serverSequence
    ensures r.Built? ==> forall b, x :: b in batches && x in b.events ==> !x.wire.Malformed?
    ensures r.Built? ==> SampledFrom(Timeline(batches), 0, at)
                         && AllDescribe(Timeline(batches), InForce(config), at, r.observations)
  {
    at := EvidenceIsRight(Timeline(batches), InForce(config));
    if r.Built? {
      forall b, x | b in batches && x in b.events ensures !x.wire.Malformed? {
        var i: nat :| i < |batches| && batches[i] == b;
        var k: nat :| k < |b.events| && b.events[k] == x;
        assert !batches[i].events[k].wire.Malformed?;
      }
    }
  }
}
