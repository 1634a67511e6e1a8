/** The evidence builder: from sorted telemetry to prospective observations. */
module Builder {
  import opened Common
  import opened Independence
  import opened Observations
  import opened Sorting
  import opened Telemetry

  const BUILDER_VERSION := "observation-builder-v4-temporal"
  const EXPOSURE_HORIZON_MS := 30000
  const CUE_LOOKBACK_MS := 30000
  const OUTCOME_GRACE_MS := 5000
  const DEFAULT_EVENT_UNCERTAINTY_MS := 500

  datatype FlatEvent = FlatEvent(serverID: string, sessionID: string, event: Event, id: string, data: WirePayload)

  // ----- flattening and order -----

  function FlatIn(serverID: string, sessionID: string, e: Event): FlatEvent {
    FlatEvent(serverID, sessionID, e,
              if e.sourceEventID != "" then e.sourceEventID else sessionID + ":" + Decimal(e.serverSequence),
              if e.wire.Decoded? then e.wire.value else ZERO_PAYLOAD)
  }

  function Flat(batch: Batch, e: Event): FlatEvent {
    FlatIn(batch.serverID, batch.serverSessionID, e)
  }

  predicate EventLess(a: FlatEvent, b: FlatEvent) {
    if a.serverID != b.serverID then StringLess(a.serverID, b.serverID)
    else if a.sessionID != b.sessionID then StringLess(a.sessionID, b.sessionID)
    else if a.event.serverTimeMS == b.event.serverTimeMS then a.event.serverSequence < b.event.serverSequence
    else a.event.serverTimeMS < b.event.serverTimeMS
  }

  predicate EventAtMost(a: FlatEvent, b: FlatEvent) {
    !EventLess(b, a)
  }

  predicate SameKey(a: FlatEvent, b: FlatEvent) {
    a.serverID == b.serverID && a.sessionID == b.sessionID
    && a.event.serverTimeMS == b.event.serverTimeMS && a.event.serverSequence == b.event.serverSequence
  }

  lemma EventTrichotomy(a: FlatEvent, b: FlatEvent)
    ensures EventAtMost(a, b) || EventAtMost(b, a)
    ensures EventAtMost(a, b) && EventAtMost(b, a) <==> SameKey(a, b)
  {
    StringTrichotomy(a.serverID, b.serverID);
    StringTrichotomy(a.sessionID, b.sessionID);
  }

  lemma EventTransitive(a: FlatEvent, b: FlatEvent, c: FlatEvent)
    requires EventAtMost(a, b) && EventAtMost(b, c)
    ensures EventAtMost(a, c)
  {
    StringTrichotomy(a.serverID, b.serverID);
    StringTrichotomy(b.serverID, c.serverID);
    StringTrichotomy(a.serverID, c.serverID);
    StringTrichotomy(a.sessionID, b.sessionID);
    StringTrichotomy(b.sessionID, c.sessionID);
    StringTrichotomy(a.sessionID, c.sessionID);
    if StringAtMost(a.serverID, b.serverID) && StringAtMost(b.serverID, c.serverID) {
      StringTransitive(a.serverID, b.serverID, c.serverID);
    }
    if StringAtMost(a.sessionID, b.sessionID) && StringAtMost(b.sessionID, c.sessionID) {
      StringTransitive(a.sessionID, b.sessionID, c.sessionID);
    }
  }

  lemma EventOrder()
    ensures TotalOrder(EventAtMost)
  {
    forall a, b ensures EventAtMost(a, b) || EventAtMost(b, a) {
      EventTrichotomy(a, b);
    }
    forall a, b, c | EventAtMost(a, b) && EventAtMost(b, c) ensures EventAtMost(a, c) {
      EventTransitive(a, b, c);
    }
  }

  predicate SameSession(a: FlatEvent, b: FlatEvent) {
    a.serverID == b.serverID && a.sessionID == b.sessionID
  }

  /** In sorted order the events of a session are contiguous and in time order. */
  lemma SessionContiguous(a: FlatEvent, b: FlatEvent, c: FlatEvent)
    requires EventAtMost(a, b) && EventAtMost(b, c) && SameSession(a, c)
    ensures SameSession(a, b)
    ensures a.event.serverTimeMS <= b.event.serverTimeMS <= c.event.serverTimeMS
  {
    StringTrichotomy(a.serverID, b.serverID);
    StringTrichotomy(a.sessionID, b.sessionID);
  }

  // ----- declarative searches -----

  function FirstMatch<T>(s: seq<T>, p: T -> bool): Option<T> {
    if s == [] then None
    else if p(s[0]) then Some(s[0])
    else FirstMatch(s[1..], p)
  }

  function LastMatch<T>(s: seq<T>, p: T -> bool): Option<T> {
    if s == [] then None
    else if p(s[|s| - 1]) then Some(s[|s| - 1])
    else LastMatch(s[..|s| - 1], p)
  }

  /** The first match has only misses before it; no match means only misses. */
  lemma {:induction false} FirstMatchIs<T>(s: seq<T>, p: T -> bool)
    ensures match FirstMatch(s, p)
            case None => forall x :: x in s ==> !p(x)
            case Some(v) => exists k :: 0 <= k < |s| && s[k] == v && p(v) && forall i :: 0 <= i < k ==> !p(s[i])
  {
    if s != [] && !p(s[0]) {
      FirstMatchIs(s[1..], p);
      if FirstMatch(s[1..], p).Some? {
        var k :| 0 <= k < |s[1..]| && s[1..][k] == FirstMatch(s[1..], p).value && forall i :: 0 <= i < k ==> !p(s[1..][i]);
        forall i | 0 <= i < k + 1 ensures !p(s[i]) {
          assert i == 0 || s[i] == s[1..][i - 1];
        }
        assert s[k + 1] == s[1..][k];
      }
    }
  }

  lemma {:induction false} LastMatchIs<T>(s: seq<T>, p: T -> bool)
    ensures match LastMatch(s, p)
            case None => forall x :: x in s ==> !p(x)
            case Some(v) => exists k :: 0 <= k < |s| && s[k] == v && p(v) && forall i :: k < i < |s| ==> !p(s[i])
  {
    if s != [] && !p(s[|s| - 1]) {
      LastMatchIs(s[..|s| - 1], p);
    }
  }

  lemma {:induction false} FirstMatchAt<T>(s: seq<T>, p: T -> bool, k: nat)
    requires k < |s| && p(s[k]) && forall i :: 0 <= i < k ==> !p(s[i])
    ensures FirstMatch(s, p) == Some(s[k])
  {
    if k > 0 {
      FirstMatchAt(s[1..], p, k - 1);
    }
  }

  lemma {:induction false} LastMatchAt<T>(s: seq<T>, p: T -> bool, k: nat)
    requires k < |s| && p(s[k]) && forall i :: k < i < |s| ==> !p(s[i])
    ensures LastMatch(s, p) == Some(s[k])
  {
    if k < |s| - 1 {
      LastMatchAt(s[..|s| - 1], p, k);
    }
  }

  // ----- what each scan is looking for -----

  function Started(current: FlatEvent): int {
    if current.data.probeStartedMS <= 0 then current.event.serverTimeMS else current.data.probeStartedMS
  }

  predicate IsOpportunity(e: FlatEvent) {
    e.data.samplingStream == RandomOpportunity
    && (e.event.eventType == VisibilityObservation || e.event.eventType == SamplingOpportunity)
  }

  /** Lower end, upper end, estimate and uncertainty of an event's time. */
  function Interval(e: FlatEvent): (r: Outcome)
    ensures r.lowerMS <= r.estimateMS <= r.upperMS
  {
    var point := e.data.eventTimeLowerMS <= 0 || e.data.eventTimeUpperMS < e.data.eventTimeLowerMS;
    var lower := if point then e.event.serverTimeMS else e.data.eventTimeLowerMS;
    var upper := if point then lower else e.data.eventTimeUpperMS;
    var given := e.data.eventTimeEstimateMS;
    Outcome(true,
            if given < lower || given > upper then lower + (upper - lower) / 2 else given,
            lower, upper,
            if e.data.eventTimeUncertaintyMS <= 0 then (upper - lower) / 2 else e.data.eventTimeUncertaintyMS,
            if e.data.eventTimingSource == "" then "SERVER_EVENT_POINT" else e.data.eventTimingSource,
            e.event.authority)
  }

  predicate IsReadinessEdge(e: FlatEvent) {
    e.event.eventType == DecisionEdge
    && (e.data.samplingReason == WeaponRaised || e.data.samplingReason == AdsEntered || e.data.samplingReason == OpticsEntered)
  }

  /** A readiness edge of this observer whose interval meets the decision window. */
  predicate IsOutcome(current: FlatEvent, closedMS: int, e: FlatEvent) {
    && SameSession(current, e)
    && e.event.serverTimeMS <= closedMS + OUTCOME_GRACE_MS
    && e.event.playerSessionID == current.event.playerSessionID
    && IsReadinessEdge(e)
    && Interval(e).upperMS >= Started(current)
    && Interval(e).lowerMS <= closedMS
  }

  predicate IsVisible(c: Classification) {
    c == Exposed || c == PartiallyExposed
  }

  /** A later enrichment probe that saw the same target, within the horizon. */
  predicate IsExposure(current: FlatEvent, e: FlatEvent) {
    && SameSession(current, e)
    && e.event.serverTimeMS <= Started(current) + EXPOSURE_HORIZON_MS
    && SawTarget(current, e)
  }

  predicate SawTarget(current: FlatEvent, e: FlatEvent) {
    && e.event.playerSessionID == current.event.playerSessionID
    && e.event.eventType == VisibilityObservation
    && e.data.targetPlayerID == current.data.targetPlayerID
    && e.data.samplingStream == EventEnrichment
    && IsVisible(e.data.classification)
  }

  predicate IsSighting(current: FlatEvent, e: FlatEvent) {
    e.event.eventType == VisibilityObservation && e.data.targetPlayerID == current.data.targetPlayerID
    && IsVisible(e.data.classification)
  }

  predicate IsContact(current: FlatEvent, e: FlatEvent) {
    (e.event.eventType == PlayerHit || e.event.eventType == PlayerKilled)
    && e.data.sourcePlayerID == current.data.targetPlayerID
  }

  /** Something earlier that told the observer about the target. */
  predicate IsCue(current: FlatEvent, e: FlatEvent) {
    && SameSession(current, e)
    && Started(current) - e.event.serverTimeMS <= CUE_LOOKBACK_MS
    && e.event.playerSessionID == current.event.playerSessionID
    && (IsSighting(current, e) || IsContact(current, e))
  }

  // ----- one observation -----

  const NO_OUTCOME := Outcome(false, 0, 0, 0, 0, "", NoAuthority)
  const UNKNOWN_EXPOSURE := Exposure(0, 0, 0, "UNKNOWN", true)
  const NO_TARGET_EXPOSURE := Exposure(0, 0, 0, "NOT_APPLICABLE", true)

  function OutcomeTest(current: FlatEvent, closedMS: int): FlatEvent -> bool {
    e => IsOutcome(current, closedMS, e)
  }

  function ExposureTest(current: FlatEvent): FlatEvent -> bool {
    e => IsExposure(current, e)
  }

  function CueTest(current: FlatEvent): FlatEvent -> bool {
    e => IsCue(current, e)
  }

  function OutcomeOf(current: FlatEvent, closedMS: int, after: seq<FlatEvent>): Option<FlatEvent> {
    FirstMatch(after, OutcomeTest(current, closedMS))
  }

  function ExposureOf(current: FlatEvent, after: seq<FlatEvent>): Option<FlatEvent> {
    if current.data.targetPlayerID == "" then None else FirstMatch(after, ExposureTest(current))
  }

  function CueOf(current: FlatEvent, before: seq<FlatEvent>): Option<FlatEvent> {
    if current.data.targetPlayerID == "" then None else LastMatch(before, CueTest(current))
  }

  function ExposureAt(e: FlatEvent): (r: Exposure)
    ensures r.lowerMS <= r.estimateMS <= r.upperMS && !r.censored
  {
    var lower := if e.data.probeStartedMS <= 0 then e.event.serverTimeMS else e.data.probeStartedMS;
    var upper := if e.data.probeCompletedMS < lower then lower else e.data.probeCompletedMS;
    Exposure(lower + (upper - lower) / 2, lower, upper, "UNKNOWN", false)
  }

  function CueFactOf(current: FlatEvent, e: FlatEvent): CueFact {
    if IsSighting(current, e)
    then CueFact(RecentVisualExposure, e.id, e.event.serverTimeMS,
                 "captured exposed or partially exposed visibility observation", e.event.authority)
    else CueFact(RecentCombatContact, e.id, e.event.serverTimeMS,
                 "captured hit or kill attributed to the target", e.event.authority)
  }

  function DistanceBand(d: real): string {
    if d < 25.0 then "0-25" else if d < 50.0 then "25-50" else if d < 100.0 then "50-100"
    else if d < 250.0 then "100-250" else "250+"
  }

  function MovementBand(v: real): string {
    if v < 0.25 then "STATIONARY" else if v < 2.0 then "SLOW" else "FAST"
  }

  function PopulationBand(n: int): string {
    if n < 10 then "0-9" else if n < 30 then "10-29" else if n < 60 then "30-59" else "60+"
  }

  function ControlKind(c: Classification, explicit: string): string {
    if explicit != "" then explicit
    else match c
      case RobustlyOccluded | HeadOriginOccluded => "HIDDEN_TARGET"
      case Exposed | PartiallyExposed => "VISIBLE_TARGET"
      case NoRelevantTarget => "NEUTRAL_NO_RELEVANT_TARGET"
      case OtherClassification(_) => "OTHER"
  }

  function TargetSession(current: FlatEvent): string {
    if current.data.targetPlayerSessionID == "" && current.data.targetPlayerID != ""
    then current.sessionID + ":" + current.data.targetPlayerID
    else current.data.targetPlayerSessionID
  }

  /** The text of a stable id before it is digested; the digest itself is not modelled. */
  function StableID(kind: string, rest: string): string {
    kind + ['\0'] + rest
  }

  function ObservationID(id: string): string {
    StableID("observation", id + ['\0'] + BUILDER_VERSION)
  }

  function TargetIdentityKey(targetID: string, targetSession: string): string {
    if targetID != "" then StableID("target-identity", targetID)
    else if targetSession != "" then StableID("target-session", targetSession)
    else ""
  }

  function RefractoryWindowID(observer: string, startedMS: int, config: Config): string {
    StableID("refractory", observer + ['\0'] + Signed(Quotient(startedMS, config.refractoryMS)))
  }

  function LabelsOf(current: FlatEvent, config: Config): Labels {
    Labels(TargetIdentityKey(current.data.targetPlayerID, TargetSession(current)),
           config.timingPolicy + ":max-queue-" + Signed(config.maxQueueDelayMS)
             + "ms:max-event-uncertainty-" + Signed(config.maxEventUncertaintyMS) + "ms",
           StableID("window", current.id),
           RefractoryWindowID(current.event.playerSessionID, Started(current), config))
  }

  function ContextOf(current: FlatEvent, config: Config): Context {
    var d := current.data;
    Context(current.serverID, current.sessionID, d.mapID, d.areaCell, current.event.playerSessionID,
            TargetSession(current), Started(current), Started(current) + config.decisionWindowMS,
            d.samplingPolicyVersion, d.classification, current.event.authority, d.observerOriginMode,
            ControlKind(d.classification, d.controlType), d.targetInclusion, d.queueAdmission, d.queueDelayMS,
            DistanceBand(d.targetDistance), MovementBand(d.observerSpeed), d.observerStanceID, d.baselineWeaponState,
            d.cameraMode, PopulationBand(d.serverPopulationCount), d.occlusionDurationMS, d.visibilityValidationID,
            LabelsOf(current, config))
  }

  predicate TimingEligible(c: Context, o: Outcome, config: Config) {
    && 0 <= c.queueDelayMS <= config.maxQueueDelayMS
    && !(o.observed && o.uncertaintyMS > config.maxEventUncertaintyMS)
  }

  predicate StrongHidden(c: Context) {
    && c.visibility == RobustlyOccluded && c.authority == TierA && FirstPersonOrigin(c.originMode)
    && c.validationID != "" && c.occlusionDurationMS > 0
    && c.targetInclusion > 0.0 && c.queueAdmission > 0.0
  }

  predicate NeutralControl(c: Context) {
    c.visibility == NoRelevantTarget && c.authority == TierA && c.queueAdmission > 0.0
  }

  predicate PositiveControl(c: Context) {
    IsVisible(c.visibility) && c.authority == TierA && c.targetInclusion > 0.0 && c.queueAdmission > 0.0
  }

  /** What the three scans of one opportunity found. */
  datatype Findings = Findings(cue: Option<FlatEvent>, edge: Option<FlatEvent>, exposure: Option<FlatEvent>)

  function Find(before: seq<FlatEvent>, current: FlatEvent, after: seq<FlatEvent>, config: Config): Findings {
    Findings(CueOf(current, before),
             OutcomeOf(current, Started(current) + config.decisionWindowMS, after),
             ExposureOf(current, after))
  }

  /** Put the three findings together, as the source fills in its record. */
  function Assemble(current: FlatEvent, config: Config, found: Findings): Observation {
    var Findings(cue, edge, exposure) := found;
    var c := ContextOf(current, config);
    var outcome := if edge.Some? then Interval(edge.value) else NO_OUTCOME;
    var timing := TimingEligible(c, outcome, config);
    Observation(
      ObservationID(current.id), current.id, c, outcome,
      if current.data.targetPlayerID == "" then NO_TARGET_EXPOSURE
      else if exposure.Some? then ExposureAt(exposure.value) else UNKNOWN_EXPOSURE,
      if cue == None then Unexplained else if IsSighting(current, cue.value) then Known else Plausible,
      if cue == None then [] else [CueFactOf(current, cue.value)],
      [current.id] + IDs(cue) + IDs(edge) + IDs(exposure),
      timing, timing && StrongHidden(c), timing && NeutralControl(c), timing && PositiveControl(c),
      true, 0, 0)
  }

  function IDs(e: Option<FlatEvent>): seq<string> {
    if e.Some? then [e.value.id] else []
  }

  /** The observation of `current`, given the sorted events before and after it. */
  function ObservationOf(before: seq<FlatEvent>, current: FlatEvent, after: seq<FlatEvent>, config: Config): Observation {
    Assemble(current, config, Find(before, current, after, config))
  }

  /** One observation for each random opportunity in `rest`, in order. */
  function Observe(before: seq<FlatEvent>, rest: seq<FlatEvent>, config: Config): seq<Observation>
    decreases |rest|
  {
    if rest == [] then []
    else (if IsOpportunity(rest[0]) then [ObservationOf(before, rest[0], rest[1..], config)] else [])
         + Observe(before + [rest[0]], rest[1..], config)
  }

  // ----- the loops of the source -----

  datatype FlattenResult = Flattened(events: seq<FlatEvent>) | BadPayload(serverSessionID: string, serverSequence: nat)

  function FlatBatch(batch: Batch, n: nat): seq<FlatEvent>
    requires n <= |batch.events|
  {
    if n == 0 then [] else FlatBatch(batch, n - 1) + [Flat(batch, batch.events[n - 1])]
  }

  function FlatAll(batches: seq<Batch>, n: nat): seq<FlatEvent>
    requires n <= |batches|
  {
    if n == 0 then [] else FlatAll(batches, n - 1) + FlatBatch(batches[n - 1], |batches[n - 1].events|)
  }

  predicate Decodable(batches: seq<Batch>) {
    forall i, k :: 0 <= i < |batches| && 0 <= k < |batches[i].events| ==> !batches[i].events[k].wire.Malformed?
  }

  predicate HasMalformed(batches: seq<Batch>, sessionID: string, sequence: nat) {
    exists b, e :: b in batches && e in b.events && e.wire.Malformed?
                   && b.serverSessionID == sessionID && e.serverSequence == sequence
  }

  /** All events in the builder's order. */
  function Timeline(batches: seq<Batch>): seq<FlatEvent> {
    SortBy(FlatAll(batches, |batches|), EventAtMost)
  }

  method Flatten(batches: seq<Batch>) returns (r: FlattenResult)
    ensures r.Flattened? <==> Decodable(batches)
    ensures r.Flattened? ==> r.events == Timeline(batches)
    ensures r.BadPayload? ==> HasMalformed(batches, r.serverSessionID, r.serverSequence)
  {
    var events: seq<FlatEvent> := [];
    for i := 0 to |batches|
      invariant events == FlatAll(batches, i)
      invariant forall b, k :: 0 <= b < i && 0 <= k < |batches[b].events| ==> !batches[b].events[k].wire.Malformed?
    {
      var batch := batches[i];
      for k := 0 to |batch.events|
        invariant events == FlatAll(batches, i) + FlatBatch(batch, k)
        invariant forall j :: 0 <= j < k ==> !batch.events[j].wire.Malformed?
      {
        if batch.events[k].wire.Malformed? {
          return BadPayload(batch.serverSessionID, batch.events[k].serverSequence);
        }
        events := events + [Flat(batch, batch.events[k])];
      }
    }
    return Flattened(SortBy(events, EventAtMost));
  }

  /** Nothing at or after j can match once the scan has left the session or passed the time bound. */
  lemma NothingLater(events: seq<FlatEvent>, index: nat, j: nat, k: nat, bound: int)
    requires index < j <= k < |events| && Sorted(events, EventAtMost)
    requires !SameSession(events[index], events[j]) || events[j].event.serverTimeMS > bound
    ensures !SameSession(events[index], events[k]) || events[k].event.serverTimeMS > bound
  {
    EventTrichotomy(events[k], events[k]);
    if SameSession(events[index], events[k]) {
      SessionContiguous(events[index], events[j], events[k]);
    }
  }

  lemma FirstInSuffix(events: seq<FlatEvent>, from: nat, j: nat, p: FlatEvent -> bool)
    requires from <= j <= |events| && forall k :: from <= k < j ==> !p(events[k])
    ensures j < |events| && p(events[j]) ==> FirstMatch(events[from..], p) == Some(events[j])
    ensures (forall k :: j <= k < |events| ==> !p(events[k])) ==> FirstMatch(events[from..], p) == None
  {
    if j < |events| && p(events[j]) {
      FirstMatchAt(events[from..], p, j - from);
    }
    FirstMatchIs(events[from..], p);
  }

  method ReadinessOutcome(events: seq<FlatEvent>, index: nat, closedMS: int) returns (edge: Option<FlatEvent>)
    requires index < |events| && Sorted(events, EventAtMost)
    ensures edge == OutcomeOf(events[index], closedMS, events[index + 1..])
  {
    var origin := events[index];
    ghost var p := OutcomeTest(origin, closedMS);
    var j := index + 1;
    while j < |events|
      invariant index < j <= |events|
      invariant forall k :: index < k < j ==> !p(events[k])
    {
      var candidate := events[j];
      if !SameSession(origin, candidate) || candidate.event.serverTimeMS > closedMS + OUTCOME_GRACE_MS {
        forall k | j <= k < |events| ensures !p(events[k]) {
          NothingLater(events, index, j, k, closedMS + OUTCOME_GRACE_MS);
        }
        FirstInSuffix(events, index + 1, j, p);
        return None;
      }
      if candidate.event.playerSessionID == origin.event.playerSessionID && IsReadinessEdge(candidate) {
        var interval := Interval(candidate);
        if !(interval.upperMS < Started(origin) || interval.lowerMS > closedMS) {
          FirstInSuffix(events, index + 1, j, p);
          return Some(candidate);
        }
      }
      j := j + 1;
    }
    FirstInSuffix(events, index + 1, j, p);
    return None;
  }

  method FirstExposure(events: seq<FlatEvent>, index: nat) returns (exposure: Option<FlatEvent>)
    requires index < |events| && Sorted(events, EventAtMost) && events[index].data.targetPlayerID != ""
    ensures exposure == ExposureOf(events[index], events[index + 1..])
  {
    var origin := events[index];
    ghost var p := ExposureTest(origin);
    var j := index + 1;
    while j < |events|
      invariant index < j <= |events|
      invariant forall k :: index < k < j ==> !p(events[k])
    {
      var candidate := events[j];
      if !SameSession(origin, candidate) || candidate.event.serverTimeMS > Started(origin) + EXPOSURE_HORIZON_MS {
        forall k | j <= k < |events| ensures !p(events[k]) {
          NothingLater(events, index, j, k, Started(origin) + EXPOSURE_HORIZON_MS);
        }
        FirstInSuffix(events, index + 1, j, p);
        return None;
      }
      if SawTarget(origin, candidate) {
        FirstInSuffix(events, index + 1, j, p);
        return Some(candidate);
      }
      j := j + 1;
    }
    FirstInSuffix(events, index + 1, j, p);
    return None;
  }

  lemma NothingEarlier(events: seq<FlatEvent>, index: nat, j: nat, k: nat, oldest: int)
    requires k <= j < index < |events| && Sorted(events, EventAtMost)
    requires !SameSession(events[index], events[j]) || events[j].event.serverTimeMS < oldest
    ensures !SameSession(events[index], events[k]) || events[k].event.serverTimeMS < oldest
  {
    EventTrichotomy(events[k], events[k]);
    if SameSession(events[index], events[k]) {
      SessionContiguous(events[k], events[j], events[index]);
    }
  }

  lemma LastInPrefix(events: seq<FlatEvent>, index: nat, j: int, p: FlatEvent -> bool)
    requires -1 <= j < index <= |events| && forall k :: j < k < index ==> !p(events[k])
    ensures j >= 0 && p(events[j]) ==> LastMatch(events[..index], p) == Some(events[j])
    ensures (forall k :: 0 <= k <= j ==> !p(events[k])) ==> LastMatch(events[..index], p) == None
  {
    if j >= 0 && p(events[j]) {
      LastMatchAt(events[..index], p, j);
    }
    LastMatchIs(events[..index], p);
  }

  method FindCue(events: seq<FlatEvent>, index: nat) returns (cue: Option<FlatEvent>)
    requires index < |events| && Sorted(events, EventAtMost)
    ensures cue == CueOf(events[index], events[..index])
  {
    var origin := events[index];
    if origin.data.targetPlayerID == "" {
      return None;
    }
    ghost var p := CueTest(origin);
    var j := index - 1;
    while j >= 0
      invariant -1 <= j < index
      invariant forall k :: j < k < index ==> !p(events[k])
    {
      var candidate := events[j];
      if !SameSession(origin, candidate) || Started(origin) - candidate.event.serverTimeMS > CUE_LOOKBACK_MS {
        forall k | 0 <= k <= j ensures !p(events[k]) {
          NothingEarlier(events, index, j, k, Started(origin) - CUE_LOOKBACK_MS);
        }
        LastInPrefix(events, index, j, p);
        return None;
      }
      if candidate.event.playerSessionID == origin.event.playerSessionID
         && (IsSighting(origin, candidate) || IsContact(origin, candidate)) {
        LastInPrefix(events, index, j, p);
        return Some(candidate);
      }
      j := j - 1;
    }
    LastInPrefix(events, index, j, p);
    return None;
  }

  datatype BuildResult =
    | Built(observations: seq<Observation>)
    | BadConfig
    | BadBatch(serverSessionID: string, serverSequence: nat)

  predicate ConfigAccepted(config: Config) {
    && config.decisionWindowMS > 0 && config.refractoryMS > 0 && config.episodeGapMS > 0 && config.encounterGapMS > 0
    && config.maxQueueDelayMS > 0 && config.timingPolicy != ""
  }

  function Effective(config: Config): Config {
    if config.maxEventUncertaintyMS <= 0 then config.(maxEventUncertaintyMS := DEFAULT_EVENT_UNCERTAINTY_MS) else config
  }

  /** The observations of a sorted timeline, after the refractory sweep. */
  function Evidence(events: seq<FlatEvent>, config: Config): seq<Observation> {
    AllAssigned(Observe([], events, config), config)
  }

  /** What `Build` may return: one error for the configuration, one that names a malformed payload, or the evidence. */
  ghost predicate IsBuild(batches: seq<Batch>, config: Config, r: BuildResult) {
    && (r == BadConfig <==> !ConfigAccepted(config))
    && (r.BadBatch? <==> ConfigAccepted(config) && !Decodable(batches))
    && (r.BadBatch? ==> HasMalformed(batches, r.serverSessionID, r.serverSequence))
    && (r.Built? ==> r.observations == Evidence(Timeline(batches), Effective(config)))
  }

  /** The loop over the timeline: at each random opportunity, the three scans, then the record. */
  method Build(batches: seq<Batch>, config: Config) returns (r: BuildResult)
    ensures IsBuild(batches, config, r)
  {
    if !ConfigAccepted(config) {
      return BadConfig;
    }
    var effective := Effective(config);
    var flat := Flatten(batches);
    if flat.BadPayload? {
      return BadBatch(flat.serverSessionID, flat.serverSequence);
    }
    var events := flat.events;
    EventOrder();
    SortSorts(FlatAll(batches, |batches|), EventAtMost);
    var result := ObserveAll(events, effective);
    result := SweepAll(result, effective);
    return Built(result);
  }

  lemma ObserveStep(events: seq<FlatEvent>, index: nat, config: Config, result: seq<Observation>, one: seq<Observation>)
    requires index < |events|
    requires one == if IsOpportunity(events[index])
                    then [ObservationOf(events[..index], events[index], events[index + 1..], config)] else []
    ensures result + Observe(events[..index], events[index..], config)
         == (result + one) + Observe(events[..index + 1], events[index + 1..], config)
  {
    assert events[index..][1..] == events[index + 1..];
    assert events[..index] + [events[index]] == events[..index + 1];
  }

  method ObserveAll(events: seq<FlatEvent>, config: Config) returns (result: seq<Observation>)
    requires Sorted(events, EventAtMost)
    ensures result == Observe([], events, config)
  {
    result := [];
    ghost var all := Observe([], events, config);
    assert events[0..] == events && events[..0] == [];
    for index := 0 to |events|
      invariant result + Observe(events[..index], events[index..], config) == all
    {
      var one: seq<Observation> := [];
      if IsOpportunity(events[index]) {
        var observation := BuildOne(events, index, config);
        one := [observation];
      }
      ObserveStep(events, index, config, result, one);
      result := result + one;
    }
    assert events[|events|..] == [];
  }

  method SweepAll(result: seq<Observation>, config: Config) returns (swept: seq<Observation>)
    ensures swept == AllAssigned(result, config)
  {
    var observations := new Observation[|result|](i requires 0 <= i < |result| => result[i]);
    assert observations[..] == result;
    AssignIndependence(observations, config);
    swept := observations[..];
  }

  method BuildOne(events: seq<FlatEvent>, index: nat, config: Config) returns (o: Observation)
    requires index < |events| && Sorted(events, EventAtMost)
    ensures o == ObservationOf(events[..index], events[index], events[index + 1..], config)
  {
    var current := events[index];
    var cue := FindCue(events, index);
    var edge := ReadinessOutcome(events, index, Started(current) + config.decisionWindowMS);
    var exposure: Option<FlatEvent> := None;
    if current.data.targetPlayerID != "" {
      exposure := FirstExposure(events, index);
    }
    o := Assemble(current, config, Findings(cue, edge, exposure));
  }
}
