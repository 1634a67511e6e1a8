/** The records that the evidence builder produces and the statistics read. */
module Observations {

  datatype Classification =
    | RobustlyOccluded
    | HeadOriginOccluded
    | Exposed
    | PartiallyExposed
    | NoRelevantTarget
    | OtherClassification(name: string)

  /** Tier A is the server, B the client, C collector health. */
  datatype Authority = TierA | TierB | TierC | NoAuthority | OtherAuthority(name: string)

  datatype CueClass = Known | Plausible | Unexplained

  datatype CueType = RecentVisualExposure | RecentCombatContact | GunshotAudio | FootstepAudio

  datatype CueFact = CueFact(
    cueType: CueType,
    sourceEventID: string,
    occurredMS: int,
    details: string,
    authority: Authority)

  datatype Outcome = Outcome(
    observed: bool,
    estimateMS: int,
    lowerMS: int,
    upperMS: int,
    uncertaintyMS: int,
    timing: string,
    authority: Authority)

  datatype Exposure = Exposure(
    estimateMS: int,
    lowerMS: int,
    upperMS: int,
    cause: string,
    censored: bool)

  /** The names the builder derives for an observation's target, policy and windows. */
  datatype Labels = Labels(
    targetIdentityKey: string,
    timingPolicy: string,
    decisionWindowID: string,
    refractoryWindowID: string)

  /** Everything an observation copies from the opportunity event without looking at other events. */
  datatype Context = Context(
    serverID: string,
    serverSessionID: string,
    mapID: string,
    areaCell: string,
    observer: string,
    target: string,
    startedMS: int,
    closedMS: int,
    samplingPolicy: string,
    visibility: Classification,
    authority: Authority,
    originMode: string,
    controlKind: string,
    targetInclusion: real,
    queueAdmission: real,
    queueDelayMS: int,
    distanceBand: string,
    movementBand: string,
    stanceID: int,
    weaponState: string,
    cameraMode: string,
    populationBand: string,
    occlusionDurationMS: int,
    validationID: string,
    names: Labels)

  datatype Observation = Observation(
    observationID: string,
    opportunityID: string,
    context: Context,
    outcome: Outcome,
    exposure: Exposure,
    cueClass: CueClass,
    cueFacts: seq<CueFact>,
    sourceEventIDs: seq<string>,
    timingEligible: bool,
    strongHidden: bool,
    control: bool,
    positiveControl: bool,
    independent: bool,
    episode: nat,
    encounter: nat)
}
