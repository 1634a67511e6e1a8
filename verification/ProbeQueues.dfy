/**
 The server's probe queues, described on values. A request is known by an identity, so that the same request can
 be found in a queue and in the table of what it has been through.
 */
module ProbeQueues {
  import opened Common
  import Clock

  const ENRICHMENT_WINDOW_MS := 5000
  const ENRICHMENT_INTERVAL_MS := 250

  datatype Config = Config(
    enabled: bool,
    maxPairs: int,
    maxRandom: int,
    maxEnrich: int,
    maxAgeMS: int,
    minOcclusionMS: int,
    validated: bool)

  /** How a probe was reported: not at all on a first occlusion, else as found or as robustly occluded. */
  datatype Mark = Unreported | AsFound | Robust

  /** One raycast; history of a request. */
  datatype Probing = Probing(startedMS: int, completedMS: int, occluded: bool, mark: Mark)

  /** The stream is `random` or event enrichment; `log` is history. */
  datatype Request = Request(
    random: bool,
    queuedMS: int,
    notBeforeMS: int,
    firstOccludedMS: int,
    windowEndMS: int,
    intervalMS: int,
    log: seq<Probing>)

  /** What the game shows when a request is taken from a queue. `usable` says that both players are current, near and distinct. */
  datatype Reading = Reading(nowMS: int, usable: bool, occluded: bool, completedMS: int)

  /** What is exported about a decision edge; the event is dated at the middle of its interval. */
  datatype EdgeReport = EdgeReport(
    player: string,
    kind: string,
    sequence: int,
    receiveMS: int,
    lowerMS: int,
    upperMS: int,
    estimateMS: int,
    uncertaintyMS: int,
    aligned: bool)

  function ReportOf(e: Clock.Edge): EdgeReport {
    EdgeReport(e.player, e.kind, e.sequence, e.receiveMS, e.lowerMS, e.upperMS,
               e.lowerMS + (e.upperMS - e.lowerMS) / 2, (e.upperMS - e.lowerMS) / 2, e.aligned)
  }

  datatype Export<Id> =
    | Observed(id: Id, mark: Mark)
    | Neutral(observer: string)
    | Dropped(observer: string)
    | EdgeReported(report: EdgeReport)

  datatype State<Id> = State(
    random: seq<Id>,
    enrich: seq<Id>,
    requests: map<Id, Request>,
    randomDrops: nat,
    enrichDrops: nat,
    next: map<string, int>,
    exported: seq<Export<Id>>,
    raycasts: nat,
    nowMS: int)

  function Start<Id>(): State<Id> {
    State([], [], map[], 0, 0, map[], [], 0, 0)
  }

  datatype Turn = Idle | Discarded | NotYet | Probed

  // ----- one probe -----

  /** A first occlusion is kept back until it has been seen again. */
  predicate Waits(c: Config, q: Request, r: Reading) {
    r.occluded && c.validated && q.firstOccludedMS == 0
  }

  function MarkOf(c: Config, q: Request, r: Reading): Mark {
    if Waits(c, q, r) then Unreported
    else if r.occluded && c.validated && r.completedMS - q.firstOccludedMS >= c.minOcclusionMS then Robust
    else AsFound
  }

  function Probe(c: Config, q: Request, r: Reading): Request {
    var p := q.(log := q.log + [Probing(r.nowMS, r.completedMS, r.occluded, MarkOf(c, q, r))]);
    if Waits(c, q, r)
    then p.(firstOccludedMS := r.completedMS, notBeforeMS := r.completedMS + c.minOcclusionMS)
    else p
  }

  /** An enrichment request is looked at again while its window lasts. */
  predicate Repeats(q: Request, r: Reading) {
    !q.random && q.windowEndMS > r.nowMS && q.notBeforeMS <= r.nowMS
  }

  function Postponed(q: Request, r: Reading): Request {
    q.(queuedMS := r.nowMS, notBeforeMS := r.nowMS + Max(100, q.intervalMS))
  }

  // ----- the queues -----

  predicate Busy<Id>(s: State<Id>) {
    s.random != [] || s.enrich != []
  }

  function Head<Id>(s: State<Id>): Id
    requires Busy(s)
  {
    if s.random != [] then s.random[0] else s.enrich[0]
  }

  function Popped<Id>(s: State<Id>): State<Id>
    requires Busy(s)
  {
    if s.random != [] then s.(random := s.random[1..]) else s.(enrich := s.enrich[1..])
  }

  function Insert<Id>(s: State<Id>, id: Id, random: bool): State<Id> {
    if random then s.(random := s.random + [id]) else s.(enrich := s.enrich + [id])
  }

  function Requeue<Id>(c: Config, s: State<Id>, id: Id, random: bool): State<Id> {
    if random then
      if |s.random| < c.maxRandom then Insert(s, id, true) else s.(randomDrops := s.randomDrops + 1)
    else
      if |s.enrich| < c.maxEnrich then Insert(s, id, false) else s.(enrichDrops := s.enrichDrops + 1)
  }

  /** An unreported probe goes back into its queue, any other is exported. */
  function File<Id>(s: State<Id>, id: Id, random: bool, mark: Mark, completedMS: int): State<Id> {
    var t := s.(raycasts := s.raycasts + 1, nowMS := completedMS);
    if mark == Unreported then Insert(t, id, random) else t.(exported := s.exported + [Observed(id, mark)])
  }

  function Emit<Id>(c: Config, s: State<Id>, id: Id, r: Reading): State<Id>
    requires id in s.requests
  {
    var q := s.requests[id];
    File(s.(requests := s.requests[id := Probe(c, q, r)]), id, q.random, MarkOf(c, q, r), r.completedMS)
  }

  function Repeat<Id>(c: Config, s: State<Id>, id: Id, r: Reading): State<Id>
    requires id in s.requests
  {
    var q := s.requests[id];
    if Repeats(q, r) then Requeue(c, s.(requests := s.requests[id := Postponed(q, r)]), id, false) else s
  }

  predicate Known<Id>(s: State<Id>) {
    && (forall i :: 0 <= i < |s.random| ==> s.random[i] in s.requests && s.requests[s.random[i]].random)
    && (forall i :: 0 <= i < |s.enrich| ==> s.enrich[i] in s.requests && !s.requests[s.enrich[i]].random)
  }

  function TurnOf<Id>(c: Config, s: State<Id>, r: Reading): Turn
    requires Known(s)
  {
    if !Busy(s) then Idle
    else
      var q := s.requests[Head(s)];
      if !r.usable || r.nowMS - q.queuedMS > c.maxAgeMS then Discarded
      else if q.notBeforeMS > r.nowMS then NotYet
      else Probed
  }

  function Take<Id>(c: Config, s: State<Id>, r: Reading): (t: State<Id>)
    requires Known(s)
    ensures Known(t)
  {
    match TurnOf(c, s, r)
    case Idle => s
    case Discarded => Popped(s).(nowMS := r.nowMS)
    case NotYet => Requeue(c, Popped(s), Head(s), s.requests[Head(s)].random).(nowMS := r.nowMS)
    case Probed => Repeat(c, Emit(c, Popped(s), Head(s), r), Head(s), r)
  }

  /** The drain loop from its k-th turn, with `completed` probes made: the state it leaves and the probes made in all. */
  function DrainFrom<Id>(c: Config, s: State<Id>, world: nat -> Reading, k: nat, completed: nat): (State<Id>, nat)
    requires Known(s)
    decreases c.maxPairs - completed, |s.random| + |s.enrich|
  {
    if completed >= c.maxPairs then (s, completed)
    else
      match TurnOf(c, s, world(k))
      case Idle => (s, completed)
      case NotYet => (Take(c, s, world(k)), completed)
      case Discarded => DrainFrom(c, Take(c, s, world(k)), world, k + 1, completed)
      case Probed => DrainFrom(c, Take(c, s, world(k)), world, k + 1, completed + 1)
  }

  function Drain<Id>(c: Config, s: State<Id>, world: nat -> Reading): (State<Id>, nat)
    requires Known(s)
  {
    if !c.enabled || c.maxPairs <= 0 then (s, 0) else DrainFrom(c, s, world, 0, 0)
  }

  // ----- scheduling -----

  /** A player seen by the random scheduler: whether eligible, how many targets, and when the next opportunity would be. */
  datatype Opportunity<Id> = Opportunity(observer: string, eligible: bool, targets: nat, nextMS: int, id: Id)

  datatype Verdict = NotEligible | FirstSeen | NotDue | IsDue

  function VerdictOf<Id>(s: State<Id>, o: Opportunity<Id>, nowMS: int): Verdict {
    if !o.eligible then NotEligible
    else if o.observer !in s.next then FirstSeen
    else if nowMS < s.next[o.observer] then NotDue
    else IsDue
  }

  function RandomRequest(nowMS: int): Request {
    Request(true, nowMS, 0, 0, 0, 0, [])
  }

  /** A due opportunity becomes a request, or is reported as having no target or as dropped. */
  function Serve<Id>(c: Config, s: State<Id>, o: Opportunity<Id>, nowMS: int): State<Id> {
    if o.targets == 0 then s.(exported := s.exported + [Neutral(o.observer)])
    else if |s.random| >= c.maxRandom then
      s.(randomDrops := s.randomDrops + 1, exported := s.exported + [Dropped(o.observer)])
    else Insert(s.(requests := s.requests[o.id := RandomRequest(nowMS)]), o.id, true)
  }

  function Offer<Id>(c: Config, s: State<Id>, o: Opportunity<Id>, nowMS: int): State<Id> {
    var due := s.(next := s.next[o.observer := o.nextMS], nowMS := nowMS);
    match VerdictOf(s, o, nowMS)
    case NotEligible => s.(nowMS := nowMS)
    case NotDue => s.(nowMS := nowMS)
    case FirstSeen => due
    case IsDue => Serve(c, due, o, nowMS)
  }

  function OfferAll<Id>(c: Config, s: State<Id>, offers: seq<Opportunity<Id>>, nowMS: int): State<Id> {
    if offers == [] then s
    else Offer(c, OfferAll(c, s, offers[..|offers| - 1], nowMS), offers[|offers| - 1], nowMS)
  }

  function ScheduleRandom<Id>(c: Config, s: State<Id>, offers: seq<Opportunity<Id>>, nowMS: int): State<Id> {
    if !c.enabled then s else OfferAll(c, s, offers, nowMS)
  }

  /** A drained decision edge; `probeable` says that its player is present and has a target. */
  datatype EdgeArrival<Id> = EdgeArrival(edge: Clock.Edge, probeable: bool, id: Id)

  function EnrichmentRequest(receiveMS: int): Request {
    Request(false, receiveMS, 0, 0, receiveMS + ENRICHMENT_WINDOW_MS, ENRICHMENT_INTERVAL_MS, [])
  }

  /** The edge is exported in any case; then a probe of its player is queued or dropped. */
  function Enrich<Id>(c: Config, s: State<Id>, e: EdgeArrival<Id>): State<Id> {
    var t := s.(exported := s.exported + [EdgeReported(ReportOf(e.edge))]);
    if !c.enabled || !e.probeable then t
    else if |s.enrich| >= c.maxEnrich then t.(enrichDrops := s.enrichDrops + 1)
    else Insert(t.(requests := s.requests[e.id := EnrichmentRequest(e.edge.receiveMS)]), e.id, false)
  }

  function EnrichAll<Id>(c: Config, s: State<Id>, edges: seq<EdgeArrival<Id>>, nowMS: int): State<Id> {
    if edges == [] then s.(nowMS := nowMS)
    else Enrich(c, EnrichAll(c, s, edges[..|edges| - 1], nowMS), edges[|edges| - 1])
  }
}
