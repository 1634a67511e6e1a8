/** The scheduler as the server runs it: request objects shared between the queues and the loop that rewrites them. */
module MissionServer {
  import opened Common
  import Clock
  import opened ProbeQueues
  import opened ProbeRuns

  /** A request; the log is history. */
  class ProbeRequest {
    const random: bool
    const windowEndMS: int
    const intervalMS: int
    var queuedMS: int
    var notBeforeMS: int
    var firstOccludedMS: int
    ghost var log: seq<Probing>

    ghost function Value(): Request
      reads this
    {
      Request(random, queuedMS, notBeforeMS, firstOccludedMS, windowEndMS, intervalMS, log)
    }

    constructor (q: Request)
      ensures Value() == q
    {
      random, windowEndMS, intervalMS := q.random, q.windowEndMS, q.intervalMS;
      queuedMS, notBeforeMS, firstOccludedMS, log := q.queuedMS, q.notBeforeMS, q.firstOccludedMS, q.log;
    }

    /** What a probe result does to its request, and how it is to be reported. */
    method Confirm(c: Config, r: Reading) returns (mark: Mark)
      modifies this`firstOccludedMS, this`notBeforeMS, this`log
      ensures Value() == Probe(c, old(Value()), r) && mark == MarkOf(c, old(Value()), r)
    {
      mark := AsFound;
      if r.occluded && c.validated {
        if firstOccludedMS == 0 {
          mark := Unreported;
          firstOccludedMS := r.completedMS;
          notBeforeMS := r.completedMS + c.minOcclusionMS;
        } else if r.completedMS - firstOccludedMS >= c.minOcclusionMS {
          mark := Robust;
        }
      }
      log := log + [Probing(r.nowMS, r.completedMS, r.occluded, mark)];
    }

    method Postpone(r: Reading)
      modifies this`queuedMS, this`notBeforeMS
      ensures Value() == Postponed(old(Value()), r)
    {
      queuedMS := r.nowMS;
      notBeforeMS := r.nowMS + Max(100, intervalMS);
    }
  }

  ghost function Values(known: set<ProbeRequest>): map<ProbeRequest, Request>
    reads known
  {
    map q | q in known :: q.Value()
  }

  class MissionServer {
    const config: Config
    var randomQueue: seq<ProbeRequest>
    var enrichQueue: seq<ProbeRequest>
    var randomDrops: nat
    var enrichDrops: nat
    var nextOpportunity: map<string, int>
    var exported: seq<Export<ProbeRequest>>
    ghost var known: set<ProbeRequest>
    ghost var raycasts: nat
    ghost var nowMS: int

    ghost function Now(): State<ProbeRequest>
      reads this, known
    {
      State(randomQueue, enrichQueue, Values(known), randomDrops, enrichDrops, nextOpportunity, exported, raycasts, nowMS)
    }

    ghost predicate Valid()
      reads this, known
    {
      Known(Now())
    }

    constructor (config: Config)
      ensures Valid() && this.config == config && known == {} && Now() == Start()
    {
      this.config := config;
      randomQueue, enrichQueue, randomDrops, enrichDrops := [], [], 0, 0;
      nextOpportunity, exported, known, raycasts, nowMS := map[], [], {}, 0, 0;
    }

    method RequeueRequest(q: ProbeRequest)
      modifies this`randomQueue, this`enrichQueue, this`randomDrops, this`enrichDrops
      ensures Now() == Requeue(config, old(Now()), q, q.random)
    {
      if q.random {
        if |randomQueue| < config.maxRandom {
          randomQueue := randomQueue + [q];
        } else {
          randomDrops := randomDrops + 1;
        }
      } else {
        if |enrichQueue| < config.maxEnrich {
          enrichQueue := enrichQueue + [q];
        } else {
          enrichDrops := enrichDrops + 1;
        }
      }
    }

    method EmitVisibilityObservation(q: ProbeRequest, r: Reading)
      requires q in known
      modifies this`randomQueue, this`enrichQueue, this`exported, this`raycasts, this`nowMS
      modifies q`firstOccludedMS, q`notBeforeMS, q`log
      ensures Now() == Emit(config, old(Now()), q, r)
    {
      var mark := q.Confirm(config, r);
      assert Values(known) == old(Values(known))[q := q.Value()];
      FileResult(q, mark, r.completedMS);
    }

    method FileResult(q: ProbeRequest, mark: Mark, completedMS: int)
      modifies this`randomQueue, this`enrichQueue, this`exported, this`raycasts, this`nowMS
      ensures Now() == File(old(Now()), q, q.random, mark, completedMS)
    {
      raycasts, nowMS := raycasts + 1, completedMS;
      if mark != Unreported {
        exported := exported + [Observed(q, mark)];
      } else if q.random {
        randomQueue := randomQueue + [q];
      } else {
        enrichQueue := enrichQueue + [q];
      }
    }

    method RepeatRequest(q: ProbeRequest, r: Reading)
      requires q in known
      modifies this`randomQueue, this`enrichQueue, this`randomDrops, this`enrichDrops, q`queuedMS, q`notBeforeMS
      ensures Now() == Repeat(config, old(Now()), q, r)
    {
      if !q.random && q.windowEndMS > r.nowMS && q.notBeforeMS <= r.nowMS {
        q.Postpone(r);
        assert Values(known) == old(Values(known))[q := q.Value()];
        RequeueRequest(q);
      }
    }

    method PopRequest() returns (q: ProbeRequest)
      requires Valid() && Busy(Now())
      modifies this`randomQueue, this`enrichQueue
      ensures q == Head(old(Now())) && q in known && Now() == Popped(old(Now()))
    {
      if |randomQueue| > 0 {
        q := randomQueue[0];
        randomQueue := randomQueue[1..];
      } else {
        q := enrichQueue[0];
        enrichQueue := enrichQueue[1..];
      }
    }

    /** One turn of the drain loop; after `Idle` or `NotYet` the loop returns. */
    method TakeTurn(r: Reading) returns (turn: Turn)
      requires Valid()
      modifies this`randomQueue, this`enrichQueue, this`randomDrops, this`enrichDrops, this`exported
      modifies this`raycasts, this`nowMS, known
      ensures turn == TurnOf(config, old(Now()), r) && Now() == Take(config, old(Now()), r)
    {
      if |randomQueue| == 0 && |enrichQueue| == 0 {
        return Idle;
      }
      var q := PopRequest();
      if !r.usable || r.nowMS - q.queuedMS > config.maxAgeMS {
        nowMS := r.nowMS;
        return Discarded;
      }
      if q.notBeforeMS > r.nowMS {
        RequeueRequest(q);
        nowMS := r.nowMS;
        return NotYet;
      }
      ProbeNow(q, r);
      return Probed;
    }

    method ProbeNow(q: ProbeRequest, r: Reading)
      requires q in known
      modifies this`randomQueue, this`enrichQueue, this`randomDrops, this`enrichDrops, this`exported
      modifies this`raycasts, this`nowMS, q
      ensures Now() == Repeat(config, Emit(config, old(Now()), q, r), q, r)
    {
      EmitVisibilityObservation(q, r);
      RepeatRequest(q, r);
    }

    method DrainProbeQueues(world: nat -> Reading) returns (completed: nat)
      requires Valid()
      modifies this`randomQueue, this`enrichQueue, this`randomDrops, this`enrichDrops, this`exported
      modifies this`raycasts, this`nowMS, known
      ensures Valid() && (Now(), completed) == Drain(config, old(Now()), world)
    {
      completed := 0;
      if !config.enabled || config.maxPairs <= 0 {
        return;
      }
      ghost var start := Now();
      var k := 0;
      while completed < config.maxPairs
        invariant Valid() && known == old(known)
        invariant DrainFrom(config, Now(), world, k, completed) == DrainFrom(config, start, world, 0, 0)
        decreases config.maxPairs - completed, |randomQueue| + |enrichQueue|
      {
        ghost var before := Now();
        var turn := TakeTurn(world(k));
        DrainUnfolds(config, before, world, k, completed, Now());
        if turn == Idle || turn == NotYet {
          return;
        }
        if turn == Probed {
          completed := completed + 1;
        }
        k := k + 1;
      }
    }

    /** One player of the random scheduler; the request is made first and dropped again when it is not needed. */
    method OfferOpportunity(p: Player, nowMS: int) returns (request: ProbeRequest)
      modifies this
      ensures fresh(request)
      ensures Now() == Offer(config, old(Now()), OpportunityOf(p, request), nowMS)
    {
      request := new ProbeRequest(RandomRequest(nowMS));
      assert Values(known) == old(Values(known));
      this.nowMS := nowMS;
      if !p.eligible {
        return;
      }
      if p.observer !in nextOpportunity {
        nextOpportunity := nextOpportunity[p.observer := p.nextMS];
        return;
      }
      if nowMS < nextOpportunity[p.observer] {
        return;
      }
      nextOpportunity := nextOpportunity[p.observer := p.nextMS];
      ServeOpportunity(p, request, nowMS);
    }

    method ServeOpportunity(p: Player, request: ProbeRequest, nowMS: int)
      requires request.Value() == RandomRequest(nowMS)
      modifies this`randomQueue, this`enrichQueue, this`randomDrops, this`exported, this`known
      ensures Now() == Serve(config, old(Now()), OpportunityOf(p, request), nowMS)
    {
      if p.targets == 0 {
        exported := exported + [Neutral(p.observer)];
        return;
      }
      if |randomQueue| >= config.maxRandom {
        randomDrops := randomDrops + 1;
        exported := exported + [Dropped(p.observer)];
        return;
      }
      Admit(request);
    }

    /** Puts a new request at the end of the queue of its stream. */
    method Admit(request: ProbeRequest)
      modifies this`randomQueue, this`enrichQueue, this`known
      ensures known == old(known) + {request}
      ensures Now() == Insert(old(Now()).(requests := old(Now()).requests[request := request.Value()]), request, request.random)
    {
      known := known + {request};
      assert Values(known) == old(Values(known))[request := request.Value()];
      if request.random {
        randomQueue := randomQueue + [request];
      } else {
        enrichQueue := enrichQueue + [request];
      }
    }

    method ScheduleRandomOpportunities(players: seq<Player>, nowMS: int) returns (ghost offers: seq<Opportunity<ProbeRequest>>)
      modifies this
      ensures Now() == ScheduleRandom(config, old(Now()), offers, nowMS)
      ensures config.enabled ==> Offered(players, offers)
      ensures FreshIDs(OfferIDs(offers), old(known))
    {
      offers := [];
      if !config.enabled {
        return;
      }
      ghost var start := Now();
      for i := 0 to |players|
        invariant Offered(players[..i], offers)
        invariant FreshIDs(OfferIDs(offers), old(known))
        invariant forall q :: q in OfferIDs(offers) ==> fresh(q)
        invariant Now() == OfferAll(config, start, offers, nowMS)
      {
        ghost var before := offers;
        var request := OfferOpportunity(players[i], nowMS);
        offers := before + [OpportunityOf(players[i], request)];
        OneMoreOffer(before, OpportunityOf(players[i], request));
        OneMoreFresh(OfferIDs(before), request, old(known));
      }
      assert players[..|players|] == players;
    }

    method EnrichEdge(e: EdgeSeen) returns (request: ProbeRequest)
      modifies this`enrichQueue, this`randomQueue, this`enrichDrops, this`exported, this`known
      ensures fresh(request)
      ensures Now() == Enrich(config, old(Now()), ArrivalOf(e, request))
    {
      request := new ProbeRequest(EnrichmentRequest(e.edge.receiveMS));
      exported := exported + [EdgeReported(ReportOf(e.edge))];
      if !config.enabled || !e.probeable {
        return;
      }
      if |enrichQueue| >= config.maxEnrich {
        enrichDrops := enrichDrops + 1;
        return;
      }
      Admit(request);
    }

    method ScheduleEventEnrichment(edges: seq<EdgeSeen>, nowMS: int) returns (ghost arrivals: seq<EdgeArrival<ProbeRequest>>)
      modifies this
      ensures Now() == EnrichAll(config, old(Now()), arrivals, nowMS)
      ensures Arrived(edges, arrivals)
      ensures FreshIDs(EdgeIDs(arrivals), old(known))
    {
      arrivals := [];
      ghost var start := Now();
      this.nowMS := nowMS;
      for i := 0 to |edges|
        invariant Arrived(edges[..i], arrivals)
        invariant FreshIDs(EdgeIDs(arrivals), old(known))
        invariant forall q :: q in EdgeIDs(arrivals) ==> fresh(q)
        invariant Now() == EnrichAll(config, start, arrivals, nowMS)
      {
        ghost var before := arrivals;
        var request := EnrichEdge(edges[i]);
        arrivals := before + [ArrivalOf(edges[i], request)];
        OneMoreArrival(before, ArrivalOf(edges[i], request));
        OneMoreFresh(EdgeIDs(before), request, old(known));
      }
      assert edges[..|edges|] == edges;
    }
  }

  /** A drained decision edge; `probeable` as for `EdgeArrival`. */
  datatype EdgeSeen = EdgeSeen(edge: Clock.Edge, probeable: bool)

  function ArrivalOf(e: EdgeSeen, request: ProbeRequest): EdgeArrival<ProbeRequest> {
    EdgeArrival(e.edge, e.probeable, request)
  }

  ghost predicate Arrived(edges: seq<EdgeSeen>, arrivals: seq<EdgeArrival<ProbeRequest>>) {
    && |arrivals| == |edges|
    && forall i :: 0 <= i < |edges| ==> arrivals[i] == ArrivalOf(edges[i], arrivals[i].id)
  }

  datatype Player = Player(observer: string, eligible: bool, targets: nat, nextMS: int)

  function OpportunityOf(p: Player, request: ProbeRequest): Opportunity<ProbeRequest> {
    Opportunity(p.observer, p.eligible, p.targets, p.nextMS, request)
  }

  ghost predicate Offered(players: seq<Player>, offers: seq<Opportunity<ProbeRequest>>) {
    && |offers| == |players|
    && forall i :: 0 <= i < |players| ==> offers[i] == OpportunityOf(players[i], offers[i].id)
  }

  ghost predicate FreshIDs(ids: seq<ProbeRequest>, known: set<ProbeRequest>) {
    NoRepeats(ids) && forall i :: 0 <= i < |ids| ==> ids[i] !in known
  }

  lemma OneMoreFresh(ids: seq<ProbeRequest>, id: ProbeRequest, known: set<ProbeRequest>)
    requires FreshIDs(ids, known) && id !in ids && id !in known
    ensures FreshIDs(ids + [id], known)
  {
  }

  lemma OneMoreOffer(offers: seq<Opportunity<ProbeRequest>>, o: Opportunity<ProbeRequest>)
    ensures OfferIDs(offers + [o]) == OfferIDs(offers) + [o.id] && (offers + [o])[..|offers|] == offers
  {
  }

  lemma OneMoreArrival(arrivals: seq<EdgeArrival<ProbeRequest>>, e: EdgeArrival<ProbeRequest>)
    ensures EdgeIDs(arrivals + [e]) == EdgeIDs(arrivals) + [e.id] && (arrivals + [e])[..|arrivals|] == arrivals
  {
  }
}
