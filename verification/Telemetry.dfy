/** The transport envelope: batches of events, and the rules a batch must pass to be accepted. */
module Telemetry {
  import opened Observations

  datatype EventType =
    | VisibilityObservation
    | SamplingOpportunity
    | DecisionEdge
    | PlayerHit
    | PlayerKilled
    | PlayerSnapshot
    | ShotFiredServer
    | MovementAudioOpportunity
    | OtherEvent(name: string)

  datatype EventSource = Server | ClientUntrusted | OtherSource(name: string)

  datatype Stream = RandomOpportunity | EventEnrichment | OtherStream(name: string)

  datatype SamplingReason = WeaponRaised | AdsEntered | OpticsEntered | OtherReason(name: string)

  /** The payload fields that the evidence builder reads; an absent payload leaves every field zero. */
  datatype WirePayload = WirePayload(
    targetPlayerID: string,
    targetPlayerSessionID: string,
    classification: Classification,
    observerOriginMode: string,
    samplingStream: Stream,
    samplingPolicyVersion: string,
    samplingReason: SamplingReason,
    targetInclusion: real,
    queueAdmission: real,
    queueDelayMS: int,
    probeStartedMS: int,
    probeCompletedMS: int,
    sourcePlayerID: string,
    mapID: string,
    areaCell: string,
    targetDistance: real,
    observerSpeed: real,
    observerStanceID: int,
    baselineWeaponState: string,
    cameraMode: string,
    serverPopulationCount: int,
    occlusionDurationMS: int,
    visibilityValidationID: string,
    controlType: string,
    eventTimeLowerMS: int,
    eventTimeUpperMS: int,
    eventTimeEstimateMS: int,
    eventTimeUncertaintyMS: int,
    eventTimingSource: string)

  const ZERO_PAYLOAD := WirePayload("", "", OtherClassification(""), "", OtherStream(""), "", OtherReason(""),
                                    0.0, 0.0, 0, 0, 0, "", "", "", 0.0, 0.0, 0, "", "", 0, 0, "", "", 0, 0, 0, 0, "")

  /** The payload fields that the audio cue ledger reads. */
  datatype CuePayload = CuePayload(
    sourcePlayerID: string,
    position: seq<real>,
    suppressed: bool,
    movementSpeed: real,
    stance: string,
    surfaceType: string,
    footwearType: string,
    description: string)

  const ZERO_CUE := CuePayload("", [], false, 0.0, "", "", "", "")

  datatype Decoding<T> = Absent | Malformed | Decoded(value: T)

  /** A top-level payload field as the validator sees it. */
  datatype Field = Text(text: string) | Number(number: real) | OtherJSON

  datatype RawPayload = RawPayload(bytes: nat, isJSON: bool, fields: Decoding<map<string, Field>>)

  datatype Event = Event(
    eventType: EventType,
    source: EventSource,
    authority: Authority,
    sourceEventID: string,
    serverSequence: nat,
    serverTimeMS: int,
    playerSessionID: string,
    playerID: string,
    hasClientSequence: bool,
    raw: RawPayload,
    wire: Decoding<WirePayload>,
    cue: Decoding<CuePayload>)

  datatype Batch = Batch(
    schemaVersion: int,
    serverID: string,
    serverSessionID: string,
    batchSequence: nat,
    serverTimeMS: int,
    events: seq<Event>)

  // ----- validation -----

  const VERSION := 1
  const MAX_EVENTS := 1000
  const MAX_EVENT_TYPE := 64
  const MAX_IDENTIFIER := 128
  const MAX_PAYLOAD := 32 * 1024

  predicate IsSpace(c: char) {
    c == ' ' || c == '\t' || c == '\n' || c == '\r' || c == '\U{0B}' || c == '\U{0C}' || c == '\U{85}' || c == '\U{A0}'
  }

  predicate Blank(s: string) {
    forall i :: 0 <= i < |s| ==> IsSpace(s[i])
  }

  predicate EventTypeAccepted(t: EventType) {
    match t
    case OtherEvent(name) => !Blank(name) && |name| <= MAX_EVENT_TYPE
    case _ => true
  }

  predicate IdentifierAccepted(value: string, required: bool) {
    !(required && Blank(value)) && |value| <= MAX_IDENTIFIER
  }

  const REQUIRED_TEXT := ["observer_player_id", "target_player_id", "classification", "observer_origin_mode",
    "sampling_stream", "sampling_policy_version", "sampling_reason", "risk_set_definition", "scheduler_load_state",
    "visibility_policy_version"]

  const PROBABILITIES := ["observer_inclusion_probability", "target_inclusion_probability", "queue_admission_probability"]

  const NON_NEGATIVE := ["observer_eligible_count", "target_eligible_count", "probe_started_ms", "probe_completed_ms"]

  function TextOf(fields: map<string, Field>, key: string): string {
    if key in fields && fields[key].Text? then fields[key].text else ""
  }

  predicate HasText(fields: map<string, Field>, key: string) {
    key in fields && fields[key].Text? && !Blank(fields[key].text)
  }

  predicate HasProbability(fields: map<string, Field>, key: string) {
    key in fields && fields[key].Number? && 0.0 < fields[key].number <= 1.0
  }

  predicate HasNonNegative(fields: map<string, Field>, key: string) {
    key in fields && fields[key].Number? && fields[key].number >= 0.0
  }

  predicate FirstPersonOrigin(origin: string) {
    origin == "VALIDATED_FIRST_PERSON_HEAD" || origin == "FIRST_PERSON_EYE"
  }

  predicate VisibilityFieldsAccepted(fields: map<string, Field>) {
    && (forall i :: 0 <= i < |REQUIRED_TEXT| ==> HasText(fields, REQUIRED_TEXT[i]))
    && (TextOf(fields, "sampling_stream") == "random_opportunity" || TextOf(fields, "sampling_stream") == "event_enrichment")
    && (forall i :: 0 <= i < |PROBABILITIES| ==> HasProbability(fields, PROBABILITIES[i]))
    && (forall i :: 0 <= i < |NON_NEGATIVE| ==> HasNonNegative(fields, NON_NEGATIVE[i]))
    && (TextOf(fields, "classification") == "ROBUSTLY_OCCLUDED" ==>
          && FirstPersonOrigin(TextOf(fields, "observer_origin_mode"))
          && HasText(fields, "visibility_validation_id")
          && "occlusion_duration_ms" in fields && fields["occlusion_duration_ms"].Number?
          && fields["occlusion_duration_ms"].number > 0.0)
  }

  /** A client event may leave its authority out, but it may not claim the server's. */
  predicate AuthorityAccepted(source: EventSource, authority: Authority) {
    && !authority.OtherAuthority?
    && (source == ClientUntrusted ==> authority == NoAuthority || authority == TierB || authority == TierC)
  }

  predicate EventAccepted(e: Event) {
    && EventTypeAccepted(e.eventType)
    && (e.source == Server || e.source == ClientUntrusted)
    && AuthorityAccepted(e.source, e.authority)
    && e.serverSequence != 0
    && e.serverTimeMS >= 0
    && IdentifierAccepted(e.playerSessionID, false)
    && IdentifierAccepted(e.playerID, false)
    && (e.source == ClientUntrusted ==> e.hasClientSequence)
    && e.raw.bytes <= MAX_PAYLOAD
    && (e.raw.bytes > 0 ==> e.raw.isJSON)
    && (e.eventType == VisibilityObservation ==>
          && e.source == Server && e.authority == TierA
          && e.raw.fields.Decoded? && VisibilityFieldsAccepted(e.raw.fields.value))
  }

  datatype Verdict = Accepted | UnsupportedVersion | InvalidBatch

  function Validate(b: Batch): Verdict {
    if b.schemaVersion != VERSION then UnsupportedVersion
    else if IdentifierAccepted(b.serverID, true) && IdentifierAccepted(b.serverSessionID, true)
         && b.batchSequence != 0 && b.serverTimeMS >= 0 && 0 < |b.events| <= MAX_EVENTS
         && (forall i :: 0 <= i < |b.events| ==> EventAccepted(b.events[i]))
    then Accepted
    else InvalidBatch
  }

  predicate AllAccepted(batches: seq<Batch>) {
    forall i :: 0 <= i < |batches| ==> Validate(batches[i]) == Accepted
  }

  /** Server authority on an accepted event can only come from the server. */
  lemma TierAIsFromServer(b: Batch, e: Event)
    requires Validate(b) == Accepted && e in b.events && e.authority == TierA
    ensures e.source == Server
  {
    var i :| 0 <= i < |b.events| && b.events[i] == e;
    assert EventAccepted(b.events[i]);
  }

  // ----- what an accepted batch cannot contain -----

  /** Some event breaks a rule that holds for events of every type. */
  predicate Improper(e: Event) {
    || (e.eventType.OtherEvent? && (Blank(e.eventType.name) || |e.eventType.name| > 64))
    || e.source.OtherSource? || e.authority.OtherAuthority?
    || (e.source == ClientUntrusted && (e.authority == TierA || !e.hasClientSequence))
    || e.serverSequence == 0 || e.serverTimeMS < 0 || |e.playerSessionID| > 128 || |e.playerID| > 128
    || e.raw.bytes > 32768 || (e.raw.bytes > 0 && !e.raw.isJSON)
  }

  predicate NamesText(fields: map<string, Field>, key: string) {
    key in fields && fields[key].Text? && exists i :: 0 <= i < |fields[key].text| && !IsSpace(fields[key].text[i])
  }

  predicate NumberIn(fields: map<string, Field>, key: string, low: real, high: real) {
    key in fields && fields[key].Number? && low <= fields[key].number <= high
  }

  /** What a visibility observation must carry at the least: its players, its classification and proper probabilities. */
  predicate Documented(fields: map<string, Field>) {
    && NamesText(fields, "observer_player_id") && NamesText(fields, "target_player_id")
    && NamesText(fields, "classification") && NamesText(fields, "sampling_policy_version")
    && NumberIn(fields, "observer_inclusion_probability", 0.0, 1.0) && fields["observer_inclusion_probability"].number != 0.0
    && NumberIn(fields, "target_inclusion_probability", 0.0, 1.0) && fields["target_inclusion_probability"].number != 0.0
    && NumberIn(fields, "queue_admission_probability", 0.0, 1.0) && fields["queue_admission_probability"].number != 0.0
    && (fields["classification"] == Text("ROBUSTLY_OCCLUDED") ==>
          && NamesText(fields, "visibility_validation_id") && NamesText(fields, "observer_origin_mode")
          && fields["observer_origin_mode"].text in ["VALIDATED_FIRST_PERSON_HEAD", "FIRST_PERSON_EYE"]
          && "occlusion_duration_ms" in fields && fields["occlusion_duration_ms"].Number?
          && fields["occlusion_duration_ms"].number > 0.0)
  }

  lemma HasTextNames(fields: map<string, Field>, key: string)
    ensures HasText(fields, key) <==> NamesText(fields, key)
  {
  }

  lemma FieldsAreDocumented(fields: map<string, Field>)
    requires VisibilityFieldsAccepted(fields)
    ensures Documented(fields)
  {
    assert HasText(fields, REQUIRED_TEXT[0]) && HasText(fields, REQUIRED_TEXT[1]) && HasText(fields, REQUIRED_TEXT[2])
        && HasText(fields, REQUIRED_TEXT[3]) && HasText(fields, REQUIRED_TEXT[5]);
    assert HasProbability(fields, PROBABILITIES[0]) && HasProbability(fields, PROBABILITIES[1])
        && HasProbability(fields, PROBABILITIES[2]);
    forall key ensures HasText(fields, key) <==> NamesText(fields, key) {
      HasTextNames(fields, key);
    }
  }

  /**
   An accepted batch is of the known version, numbered, named and neither empty nor too long; none of its events is
   improper, and each visibility observation is the server's own and documented.
   */
  lemma AcceptedIsProper(b: Batch)
    requires Validate(b) == Accepted
    ensures b.schemaVersion == 1 && b.batchSequence != 0 && b.serverTimeMS >= 0 && 1 <= |b.events| <= 1000
    ensures !Blank(b.serverID) && !Blank(b.serverSessionID) && |b.serverID| <= 128 && |b.serverSessionID| <= 128
    ensures forall e :: e in b.events ==> !Improper(e)
    ensures forall e :: e in b.events && e.eventType == VisibilityObservation ==>
              e.source == Server && e.authority == TierA && e.raw.fields.Decoded? && Documented(e.raw.fields.value)
  {
    forall e | e in b.events
      ensures !Improper(e)
      ensures e.eventType == VisibilityObservation ==>
                e.source == Server && e.authority == TierA && e.raw.fields.Decoded? && Documented(e.raw.fields.value)
    {
      var i :| 0 <= i < |b.events| && b.events[i] == e;
      assert EventAccepted(b.events[i]);
      if e.eventType == VisibilityObservation {
        FieldsAreDocumented(e.raw.fields.value);
      }
    }
  }

  /** And a batch is rejected only for such a reason: proper events without visibility observations are always accepted. */
  lemma ProperIsAccepted(b: Batch)
    requires b.schemaVersion == 1 && b.batchSequence != 0 && b.serverTimeMS >= 0 && 1 <= |b.events| <= 1000
    requires !Blank(b.serverID) && !Blank(b.serverSessionID) && |b.serverID| <= 128 && |b.serverSessionID| <= 128
    requires forall e :: e in b.events ==> !Improper(e)
    requires forall e :: e in b.events && e.eventType == VisibilityObservation ==>
               && e.source == Server && e.authority == TierA
               && e.raw.fields.Decoded? && VisibilityFieldsAccepted(e.raw.fields.value)
    ensures Validate(b) == Accepted
  {
    forall i | 0 <= i < |b.events| ensures EventAccepted(b.events[i]) {
      assert b.events[i] in b.events;
    }
  }
}
