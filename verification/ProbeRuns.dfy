/** What every run of the probe scheduler keeps. */
module ProbeRuns {
  import opened Common
  import opened ProbeQueues

  /** A first occlusion is either not kept back at all, or kept back for a while. */
  predicate Settles(c: Config) {
    c.minOcclusionMS > 0 || !c.validated
  }

  /** Ticks make probes at all. */
  predicate Probes(c: Config) {
    c.enabled && c.maxPairs >= 1
  }

  /** No request is ever put back twice. */
  predicate Single(c: Config) {
    Settles(c) || !Probes(c) || c.maxAgeMS < 0
  }

  /** No enrichment request is probed twice after its first occlusion. */
  predicate Consecutive(c: Config) {
    !(&& Probes(c) && c.maxEnrich >= 1 && c.validated
      && c.minOcclusionMS < ENRICHMENT_WINDOW_MS && c.maxAgeMS >= Max(ENRICHMENT_INTERVAL_MS, c.minOcclusionMS))
  }

  // ----- one request -----

  /** The clock readings of one turn, taken at or after `nowMS`. */
  predicate Timely(r: Reading, nowMS: int) {
    nowMS <= r.nowMS <= r.completedMS && r.completedMS > 0
  }

  /** A random request is probed once, or twice when the first probe was an occlusion worth confirming. */
  predicate RandomOK(c: Config, q: Request, queued: bool) {
    && q.random
    && (q.log == [] ==> q.firstOccludedMS == 0)
    && (|q.log| == 1 ==> if q.firstOccludedMS == 0 then !queued && q.log[0].mark == AsFound else Unconfirmed(c, q))
    && (|q.log| >= 2 ==> !queued && |q.log| == 2 && Repeated(c, q.log[0], q.log[1]))
  }

  predicate Unconfirmed(c: Config, q: Request)
    requires |q.log| == 1
  {
    var p := q.log[0];
    && c.validated && p.occluded && p.mark == Unreported && p.completedMS == q.firstOccludedMS
    && q.notBeforeMS == q.firstOccludedMS + c.minOcclusionMS
  }

  /** The second of two probes in a row comes after the minimum duration, and is robust exactly if it is occluded too. */
  predicate Repeated(c: Config, first: Probing, second: Probing) {
    && c.validated && first.occluded && first.mark == Unreported
    && second.startedMS >= first.completedMS + c.minOcclusionMS
    && second.completedMS >= second.startedMS
    && second.mark == if second.occluded then Robust else AsFound
  }

  predicate FirstOcclusion(p: Probing, timeMS: int) {
    p.occluded && p.mark == Unreported && p.completedMS == timeMS
  }

  /** The request remembers its first occlusion, the one probe that was not reported. */
  ghost predicate SawFirst(c: Config, q: Request) {
    && (q.firstOccludedMS != 0 ==>
          c.validated && exists i :: 0 <= i < |q.log| && FirstOcclusion(q.log[i], q.firstOccludedMS))
    && (forall i :: 0 <= i < |q.log| && q.log[i].mark == Unreported ==> q.log[i].completedMS == q.firstOccludedMS != 0)
  }

  /** Robust are exactly the occluded probes long enough after the first occlusion. */
  ghost predicate RobustAfterFirst(c: Config, log: seq<Probing>) {
    forall i :: 0 <= i < |log| ==> (log[i].mark == Robust <==> log[i].occluded && Earlier(c, log, i))
  }

  ghost predicate Earlier(c: Config, log: seq<Probing>, i: nat)
    requires i < |log|
  {
    exists j, timeMS :: 0 <= j < i && FirstOcclusion(log[j], timeMS) && log[i].completedMS - timeMS >= c.minOcclusionMS
  }

  function Seen(q: Request): nat {
    if q.firstOccludedMS != 0 then 1 else 0
  }

  const MAX_REPEATS := ENRICHMENT_WINDOW_MS / ENRICHMENT_INTERVAL_MS

  /**
   While the window lasts and an enrichment request waits, each of its probes has pushed it a full interval on: all
   of them but the first occlusion, or (d = 1) all of them, the first occlusion having been queued twice.
   */
  predicate Paced(q: Request, copies: nat, nowMS: int, d: nat) {
    var receivedMS := q.windowEndMS - ENRICHMENT_WINDOW_MS;
    var pushes := |q.log| - Seen(q) + d;
    && d <= Seen(q) && copies <= 1 + d
    && (copies > 0 && nowMS < q.windowEndMS ==>
          pushes <= MAX_REPEATS && (pushes > 0 ==> q.notBeforeMS >= receivedMS + ENRICHMENT_INTERVAL_MS * pushes))
  }

  /** By the time it is due it is too old. */
  predicate Stale(c: Config, q: Request) {
    q.notBeforeMS - q.queuedMS > c.maxAgeMS
  }

  /** The last probe is the first occlusion, and the next one will be the last or leave the request stale. */
  predicate JustOccluded(c: Config, q: Request, copies: nat) {
    && q.log != [] && q.log[|q.log| - 1].mark == Unreported && copies <= 1
    && (forall i :: 0 <= i < |q.log| - 1 ==> q.log[i].mark != Unreported)
    && (c.maxAgeMS < ENRICHMENT_INTERVAL_MS
        || (c.minOcclusionMS >= ENRICHMENT_WINDOW_MS && q.notBeforeMS >= q.windowEndMS))
  }

  /** At most one probe follows the first occlusion, and no other will. */
  predicate Undisturbed(c: Config, q: Request, copies: nat) {
    && (q.firstOccludedMS != 0 ==> copies == 0 || Stale(c, q) || JustOccluded(c, q, copies))
    && (forall i :: 0 <= i < |q.log| && q.log[i].mark == Unreported ==> i + 2 >= |q.log|)
  }

  ghost predicate EnrichOK(c: Config, q: Request, copies: nat, nowMS: int) {
    && !q.random && q.intervalMS == ENRICHMENT_INTERVAL_MS && q.windowEndMS - ENRICHMENT_WINDOW_MS <= nowMS
    && Seen(q) <= |q.log| && |q.log| + copies <= MAX_REPEATS + 1 + Seen(q)
    && (Paced(q, copies, nowMS, 0) || (!Single(c) && Paced(q, copies, nowMS, 1)))
    && q.queuedMS <= nowMS && (Consecutive(c) ==> Undisturbed(c, q, copies))
    && SawFirst(c, q)
    && RobustAfterFirst(c, q.log)
  }

  /** What holds of a request of which so many copies wait in the queues. */
  ghost predicate RequestOK(c: Config, q: Request, copies: nat, nowMS: int) {
    if q.random then copies <= 1 && RandomOK(c, q, copies > 0) else EnrichOK(c, q, copies, nowMS)
  }

  lemma ProbeRandom(c: Config, q: Request, r: Reading)
    requires RandomOK(c, q, true) && q.notBeforeMS <= r.nowMS <= r.completedMS && r.completedMS > 0
    ensures RandomOK(c, Probe(c, q, r), Waits(c, q, r)) && !Repeats(Probe(c, q, r), r)
  {
  }

  lemma ProbeKeepsRobust(c: Config, q: Request, r: Reading)
    requires SawFirst(c, q) && RobustAfterFirst(c, q.log) && r.completedMS > 0
    ensures SawFirst(c, Probe(c, q, r)) && RobustAfterFirst(c, Probe(c, q, r).log)
  {
    var log' := Probe(c, q, r).log;
    var n := |q.log|;
    if Waits(c, q, r) {
      assert FirstOcclusion(log'[n], r.completedMS);
    } else if q.firstOccludedMS != 0 {
      var i :| 0 <= i < n && FirstOcclusion(q.log[i], q.firstOccludedMS);
      assert FirstOcclusion(log'[i], q.firstOccludedMS);
    }
    forall i | 0 <= i < n ensures log'[i].mark == Robust <==> log'[i].occluded && Earlier(c, log', i) {
      EarlierInPrefix(c, q.log, log', i);
    }
  }

  lemma EarlierInPrefix(c: Config, log: seq<Probing>, log': seq<Probing>, i: nat)
    requires i < |log| && log <= log'
    ensures Earlier(c, log, i) <==> Earlier(c, log', i)
  {
    if Earlier(c, log, i) {
      var j, timeMS :| 0 <= j < i && FirstOcclusion(log[j], timeMS) && log[i].completedMS - timeMS >= c.minOcclusionMS;
      assert FirstOcclusion(log'[j], timeMS);
    }
    if Earlier(c, log', i) {
      var j, timeMS :| 0 <= j < i && FirstOcclusion(log'[j], timeMS) && log'[i].completedMS - timeMS >= c.minOcclusionMS;
      assert FirstOcclusion(log[j], timeMS);
    }
  }

  /** The request as the turn leaves it. */
  function AfterProbe(c: Config, q: Request, r: Reading): Request {
    var p := Probe(c, q, r);
    if Repeats(p, r) then Postponed(p, r) else p
  }

  /** How often the turn puts the request back: as a first occlusion, for its next look, or both. */
  function Returns(c: Config, q: Request, r: Reading): nat {
    (if Waits(c, q, r) then 1 else 0) + if Repeats(Probe(c, q, r), r) then 1 else 0
  }

  /** The request is due, and not too old. */
  predicate Ripe(c: Config, q: Request, r: Reading) {
    q.notBeforeMS <= r.nowMS && r.nowMS - q.queuedMS <= c.maxAgeMS
  }

  lemma ProbeEnrich(c: Config, q: Request, copies: nat, r: Reading, nowMS: int)
    requires copies > 0 && EnrichOK(c, q, copies, nowMS) && Timely(r, nowMS) && Ripe(c, q, r)
    requires Probes(c) && c.maxEnrich >= 1
    ensures EnrichOK(c, AfterProbe(c, q, r), copies - 1 + Returns(c, q, r), r.completedMS)
  {
    ProbeKeepsRobust(c, q, r);
    var p := Probe(c, q, r);
    assert Postponed(p, r).log == p.log && SawFirst(c, Postponed(p, r)) == SawFirst(c, p);
    if Paced(q, copies, nowMS, 0) {
      ProbePaced(c, q, copies, r, nowMS, 0, if Returns(c, q, r) == 2 then 1 else 0);
    } else {
      ProbePaced(c, q, copies, r, nowMS, 1, 1);
    }
    if Consecutive(c) {
      ProbeUndisturbed(c, q, copies, r);
    }
  }

  lemma ProbeUndisturbed(c: Config, q: Request, copies: nat, r: Reading)
    requires copies > 0 && Undisturbed(c, q, copies) && Ripe(c, q, r) && r.nowMS <= r.completedMS
    requires Consecutive(c) && Probes(c) && c.maxEnrich >= 1 && (q.firstOccludedMS == 0 ==> copies == 1)
    requires q.intervalMS == ENRICHMENT_INTERVAL_MS && q.queuedMS <= r.nowMS
    requires q.windowEndMS - ENRICHMENT_WINDOW_MS <= r.nowMS
    requires q.firstOccludedMS == 0 ==> forall i :: 0 <= i < |q.log| ==> q.log[i].mark != Unreported
    requires q.firstOccludedMS != 0 ==> c.validated
    ensures Undisturbed(c, AfterProbe(c, q, r), copies - 1 + Returns(c, q, r))
  {
  }

  lemma ProbePaced(c: Config, q: Request, copies: nat, r: Reading, nowMS: int, d: nat, d': nat)
    requires !q.random && q.intervalMS == ENRICHMENT_INTERVAL_MS && Timely(r, nowMS) && q.notBeforeMS <= r.nowMS
    requires copies > 0 && Seen(q) <= |q.log| && |q.log| + copies <= MAX_REPEATS + 1 + Seen(q) && Paced(q, copies, nowMS, d)
    requires q.windowEndMS - ENRICHMENT_WINDOW_MS <= nowMS
    requires d' == if Returns(c, q, r) == 2 then 1 else d
    ensures var q', copies' := AfterProbe(c, q, r), copies - 1 + Returns(c, q, r);
            && Paced(q', copies', r.completedMS, d')
            && Seen(q') <= |q'.log| && |q'.log| + copies' <= MAX_REPEATS + 1 + Seen(q')
    ensures Settles(c) ==> Returns(c, q, r) <= 1
  {
  }

  /** The request stays all right when time passes or copies are dropped. */
  lemma StillOK(c: Config, q: Request, copies: nat, fewer: nat, nowMS: int, laterMS: int)
    requires RequestOK(c, q, copies, nowMS) && fewer <= copies && nowMS <= laterMS
    ensures RequestOK(c, q, fewer, laterMS)
  {
  }

  lemma AfterProbeOK(c: Config, q: Request, copies: nat, r: Reading, nowMS: int)
    requires copies > 0 && RequestOK(c, q, copies, nowMS) && Timely(r, nowMS) && Ripe(c, q, r)
    requires Probes(c) && (!q.random ==> c.maxEnrich >= 1)
    ensures RequestOK(c, AfterProbe(c, q, r), copies - 1 + Returns(c, q, r), r.completedMS)
    ensures AfterProbe(c, q, r).random == q.random
  {
    if q.random {
      ProbeRandom(c, q, r);
    } else {
      ProbeEnrich(c, q, copies, r, nowMS);
    }
  }

  // ----- the queues -----

  predicate NoRepeats<Id(==)>(queue: seq<Id>) {
    forall i, j :: 0 <= i < j < |queue| ==> queue[i] != queue[j]
  }

  /** How often a request waits in the queues. */
  ghost function Copies<Id>(s: State<Id>, id: Id): nat {
    multiset(s.random)[id] + multiset(s.enrich)[id]
  }

  predicate WithinLimits<Id>(c: Config, s: State<Id>) {
    |s.random| <= Max(0, c.maxRandom) && |s.enrich| <= Max(0, c.maxEnrich)
  }

  ghost predicate Inv<Id>(c: Config, s: State<Id>) {
    && Known(s) && WithinLimits(c, s)
    && (forall id :: id in s.requests ==> RequestOK(c, s.requests[id], Copies(s, id), s.nowMS))
  }

  /** As `Inv`, while one copy of a request is out of its queue and nothing is said about that request. */
  ghost predicate Without<Id>(c: Config, s: State<Id>, h: Id, random: bool) {
    && Known(s) && WithinLimits(c, s) && h in s.requests && s.requests[h].random == random
    && (if random then |s.random| < c.maxRandom else |s.enrich| < c.maxEnrich)
    && (forall id :: id in s.requests && id != h ==> RequestOK(c, s.requests[id], Copies(s, id), s.nowMS))
  }

  lemma PopCopies<Id>(s: State<Id>, id: Id)
    requires Busy(s)
    ensures Copies(s, id) == Copies(Popped(s), id) + if id == Head(s) then 1 else 0
  {
    var h, t := Head(s), Popped(s);
    assert s.random != [] ==> s.random == [h] + t.random;
    assert s.random == [] ==> s.enrich == [h] + t.enrich;
  }

  lemma PopTakesOut<Id>(c: Config, s: State<Id>)
    requires Inv(c, s) && Busy(s)
    ensures Without(c, Popped(s), Head(s), s.requests[Head(s)].random)
    ensures RequestOK(c, s.requests[Head(s)], Copies(Popped(s), Head(s)) + 1, s.nowMS)
  {
    var h, t := Head(s), Popped(s);
    PopCopies(s, h);
    forall id | id in t.requests && id != h ensures RequestOK(c, t.requests[id], Copies(t, id), t.nowMS) {
      PopCopies(s, id);
    }
  }

  /** Only h waits more or less often than before. */
  ghost predicate OthersAlike<Id>(s: State<Id>, t: State<Id>, h: Id) {
    && multiset(s.random)[h := 0] == multiset(t.random)[h := 0]
    && multiset(s.enrich)[h := 0] == multiset(t.enrich)[h := 0]
  }

  lemma AlikeElsewhere<Id>(s: State<Id>, t: State<Id>, h: Id, id: Id)
    requires OthersAlike(s, t, h) && id != h
    ensures Copies(t, id) == Copies(s, id)
  {
    assert multiset(s.random)[h := 0][id] == multiset(s.random)[id] && multiset(t.random)[h := 0][id] == multiset(t.random)[id];
    assert multiset(s.enrich)[h := 0][id] == multiset(s.enrich)[id] && multiset(t.enrich)[h := 0][id] == multiset(t.enrich)[id];
  }

  lemma InsertAlike<Id>(s: State<Id>, h: Id, random: bool)
    ensures OthersAlike(s, Insert(s, h, random), h) && Copies(Insert(s, h, random), h) == Copies(s, h) + 1
  {
    var t := Insert(s, h, random);
    assert multiset(t.random) == multiset(s.random) + if random then multiset{h} else multiset{};
    assert multiset(t.enrich) == multiset(s.enrich) + if random then multiset{} else multiset{h};
  }

  lemma InsertWithinLimits<Id>(c: Config, s: State<Id>, h: Id, random: bool)
    requires Known(s) && WithinLimits(c, s) && h in s.requests && s.requests[h].random == random
    requires if random then |s.random| < c.maxRandom else |s.enrich| < c.maxEnrich
    ensures Known(Insert(s, h, random)) && WithinLimits(c, Insert(s, h, random))
  {
  }

  lemma RequeueAlike<Id>(c: Config, s: State<Id>, h: Id, random: bool, t: State<Id>)
    requires t == Requeue(c, s, h, random)
    ensures OthersAlike(s, t, h) && Copies(s, h) <= Copies(t, h) <= Copies(s, h) + 1
  {
    if t == Insert(s, h, random) {
      InsertAlike(s, h, random);
    }
  }

  /** The request that was out is rewritten to q, time passes, and some copies of it go back. */
  lemma ReturnKeepsInv<Id>(c: Config, s: State<Id>, h: Id, q: Request, t: State<Id>)
    requires Without(c, s, h, q.random) && s.nowMS <= t.nowMS && t.requests == s.requests[h := q]
    requires Known(t) && WithinLimits(c, t) && RequestOK(c, q, Copies(t, h), t.nowMS)
    requires OthersAlike(s, t, h)
    ensures Inv(c, t)
  {
    forall id | id in t.requests && id != h ensures RequestOK(c, t.requests[id], Copies(t, id), t.nowMS) {
      AlikeElsewhere(s, t, h, id);
      StillOK(c, s.requests[id], Copies(s, id), Copies(t, id), s.nowMS, t.nowMS);
    }
  }

  /** The state a probe leaves, before the request goes back into its queue. */
  function Rewritten<Id>(c: Config, s: State<Id>, h: Id, r: Reading): State<Id>
    requires h in s.requests
  {
    var q := s.requests[h];
    s.(requests := s.requests[h := AfterProbe(c, q, r)], raycasts := s.raycasts + 1, nowMS := r.completedMS,
       exported := if Waits(c, q, r) then s.exported else s.exported + [Observed(h, MarkOf(c, q, r))])
  }

  lemma ProbedIs<Id>(c: Config, s: State<Id>, h: Id, r: Reading, q: Request)
    requires h in s.requests && s.requests[h] == q
    ensures var u := Rewritten(c, s, h, r);
            var v := if Waits(c, q, r) then Insert(u, h, q.random) else u;
            Repeat(c, Emit(c, s, h, r), h, r) == if Repeats(Probe(c, q, r), r) then Requeue(c, v, h, false) else v
  {
    assert s.requests[h := Probe(c, q, r)][h := AfterProbe(c, q, r)] == s.requests[h := AfterProbe(c, q, r)];
  }

  /** Putting the rewritten request back, at most once as a first occlusion and once for its next look. */
  lemma ReturnAlike<Id>(c: Config, u: State<Id>, h: Id, random: bool, waits: bool, repeats: bool, t: State<Id>)
    requires var v := if waits then Insert(u, h, random) else u;
             t == if repeats then Requeue(c, v, h, false) else v
    ensures Copies(t, h) <= Copies(u, h) + (if waits then 1 else 0) + (if repeats then 1 else 0)
    ensures OthersAlike(u, t, h)
  {
    var v := if waits then Insert(u, h, random) else u;
    if waits {
      InsertAlike(u, h, random);
    }
    if repeats {
      RequeueAlike(c, v, h, false, t);
    }
  }

  lemma ReturnWithinLimits<Id>(c: Config, u: State<Id>, h: Id, random: bool, waits: bool, repeats: bool, t: State<Id>)
    requires Known(u) && WithinLimits(c, u) && h in u.requests && u.requests[h].random == random && !(random && repeats)
    requires if random then |u.random| < c.maxRandom else |u.enrich| < c.maxEnrich
    requires var v := if waits then Insert(u, h, random) else u;
             t == if repeats then Requeue(c, v, h, false) else v
    ensures t.requests == u.requests && t.nowMS == u.nowMS && Known(t) && WithinLimits(c, t)
  {
  }

  /** What one turn on a request that is due makes of the queues. */
  lemma ProbeReturns<Id>(c: Config, s: State<Id>, h: Id, q: Request, r: Reading, t: State<Id>)
    requires h in s.requests && s.requests[h] == q && Without(c, s, h, q.random)
    requires t == Repeat(c, Emit(c, s, h, r), h, r)
    ensures t.requests == s.requests[h := AfterProbe(c, q, r)] && t.nowMS == r.completedMS
    ensures Known(t) && WithinLimits(c, t)
    ensures Copies(t, h) <= Copies(s, h) + Returns(c, q, r) && OthersAlike(s, t, h)
  {
    ProbedIs(c, s, h, r, q);
    var u := Rewritten(c, s, h, r);
    assert Known(u) && AfterProbe(c, q, r).random == q.random;
    ReturnAlike(c, u, h, q.random, Waits(c, q, r), Repeats(Probe(c, q, r), r), t);
    ReturnWithinLimits(c, u, h, q.random, Waits(c, q, r), Repeats(Probe(c, q, r), r), t);
  }

  /** One turn on a request that is due. */
  lemma ProbeTurn<Id>(c: Config, s: State<Id>, h: Id, r: Reading)
    requires h in s.requests && Without(c, s, h, s.requests[h].random)
    requires RequestOK(c, s.requests[h], Copies(s, h) + 1, s.nowMS)
    requires Probes(c) && Timely(r, s.nowMS) && Ripe(c, s.requests[h], r)
    ensures Inv(c, Repeat(c, Emit(c, s, h, r), h, r)) && Repeat(c, Emit(c, s, h, r), h, r).nowMS == r.completedMS
  {
    var q, t := s.requests[h], Repeat(c, Emit(c, s, h, r), h, r);
    AfterProbeOK(c, q, Copies(s, h) + 1, r, s.nowMS);
    ProbeReturns(c, s, h, q, r, t);
    StillOK(c, AfterProbe(c, q, r), Copies(s, h) + Returns(c, q, r), Copies(t, h), r.completedMS, r.completedMS);
    ReturnKeepsInv(c, s, h, AfterProbe(c, q, r), t);
  }

  /** What a turn that makes no probe does to the queues. */
  lemma PassReturns<Id>(c: Config, s: State<Id>, h: Id, q: Request, again: bool, nowMS: int, t: State<Id>)
    requires h in s.requests && s.requests[h] == q && Without(c, s, h, q.random)
    requires t == (if again then Requeue(c, s, h, q.random) else s).(nowMS := nowMS)
    ensures Known(t) && WithinLimits(c, t) && t.requests == s.requests[h := q] && t.nowMS == nowMS
    ensures OthersAlike(s, t, h) && Copies(t, h) <= Copies(s, h) + 1
  {
    assert s.requests[h := q] == s.requests;
    if again {
      RequeueAlike(c, s, h, q.random, Requeue(c, s, h, q.random));
      InsertWithinLimits(c, s, h, q.random);
    }
  }

  /** A turn that makes no probe: the request is dropped, or goes back to the end of its queue. */
  lemma PassTurn<Id>(c: Config, s: State<Id>, h: Id, again: bool, nowMS: int, t: State<Id>)
    requires h in s.requests && Without(c, s, h, s.requests[h].random)
    requires RequestOK(c, s.requests[h], Copies(s, h) + 1, s.nowMS) && s.nowMS <= nowMS
    requires t == (if again then Requeue(c, s, h, s.requests[h].random) else s).(nowMS := nowMS)
    ensures Inv(c, t)
  {
    var q := s.requests[h];
    PassReturns(c, s, h, q, again, nowMS, t);
    StillOK(c, q, Copies(s, h) + 1, Copies(t, h), s.nowMS, nowMS);
    ReturnKeepsInv(c, s, h, q, t);
  }

  lemma TurnIs<Id>(c: Config, s: State<Id>, r: Reading)
    requires Known(s) && Busy(s)
    ensures TurnOf(c, s, r) == Probed ==>
              Ripe(c, s.requests[Head(s)], r)
              && Take(c, s, r) == Repeat(c, Emit(c, Popped(s), Head(s), r), Head(s), r)
    ensures TurnOf(c, s, r) != Probed ==>
              Take(c, s, r) == (if TurnOf(c, s, r) == NotYet then Requeue(c, Popped(s), Head(s), s.requests[Head(s)].random)
                                else Popped(s)).(nowMS := r.nowMS)
  {
  }

  lemma TakeKeepsInv<Id>(c: Config, s: State<Id>, r: Reading)
    requires Probes(c) && Inv(c, s) && Timely(r, s.nowMS)
    ensures Inv(c, Take(c, s, r)) && Take(c, s, r).nowMS <= r.completedMS
  {
    if Busy(s) {
      PopTakesOut(c, s);
      TurnIs(c, s, r);
      if TurnOf(c, s, r) == Probed {
        ProbeTurn(c, Popped(s), Head(s), r);
      } else {
        PassTurn(c, Popped(s), Head(s), TurnOf(c, s, r) == NotYet, r.nowMS, Take(c, s, r));
      }
    }
  }

  // ----- the drain -----

  predicate Follows(world: nat -> Reading, k: nat) {
    Timely(world(k + 1), world(k).completedMS)
  }

  /** The clock readings of successive turns never go back. */
  ghost predicate Ticking(world: nat -> Reading, nowMS: int) {
    Timely(world(0), nowMS) && forall k: nat :: Follows(world, k)
  }

  lemma TakeCounts<Id>(c: Config, s: State<Id>, r: Reading)
    requires Known(s)
    ensures Take(c, s, r).raycasts == s.raycasts + if TurnOf(c, s, r) == Probed then 1 else 0
  {
  }

  /** The loop goes on from t, which one turn has made of s. */
  lemma DrainUnfolds<Id>(c: Config, s: State<Id>, world: nat -> Reading, k: nat, completed: nat, t: State<Id>)
    requires Known(s) && completed < c.maxPairs && t == Take(c, s, world(k))
    ensures TurnOf(c, s, world(k)) == Discarded ==>
              DrainFrom(c, s, world, k, completed) == DrainFrom(c, t, world, k + 1, completed)
              && |t.random| + |t.enrich| < |s.random| + |s.enrich|
    ensures TurnOf(c, s, world(k)) == Probed ==>
              DrainFrom(c, s, world, k, completed) == DrainFrom(c, t, world, k + 1, completed + 1)
    ensures TurnOf(c, s, world(k)) == Idle || TurnOf(c, s, world(k)) == NotYet ==>
              DrainFrom(c, s, world, k, completed) == (t, completed)
  {
  }

  ghost predicate Tallied<Id>(c: Config, s: State<Id>, completed: nat, result: (State<Id>, nat)) {
    && Inv(c, result.0)
    && completed <= result.1 <= c.maxPairs
    && result.0.raycasts - s.raycasts == result.1 - completed
  }

  lemma {:induction false} DrainFromKeeps<Id>(c: Config, s: State<Id>, world: nat -> Reading, k: nat, completed: nat)
    requires Probes(c) && Inv(c, s) && Timely(world(k), s.nowMS) && completed <= c.maxPairs
    requires forall j: nat :: Follows(world, j)
    ensures Tallied(c, s, completed, DrainFrom(c, s, world, k, completed))
    decreases c.maxPairs - completed, |s.random| + |s.enrich|, 1
  {
    if completed < c.maxPairs {
      var t := Take(c, s, world(k));
      TakeKeepsInv(c, s, world(k));
      TakeCounts(c, s, world(k));
      DrainUnfolds(c, s, world, k, completed, t);
      assert Follows(world, k);
      DrainGoesOn(c, s, world, k, completed, t, TurnOf(c, s, world(k)));
    }
  }

  lemma {:induction false} DrainGoesOn<Id>(
      c: Config, s: State<Id>, world: nat -> Reading, k: nat, completed: nat, t: State<Id>, turn: Turn)
    requires Probes(c) && Inv(c, t) && Timely(world(k + 1), t.nowMS) && completed < c.maxPairs
    requires forall j: nat :: Follows(world, j)
    requires t.raycasts == s.raycasts + if turn == Probed then 1 else 0
    requires turn == Discarded ==> |t.random| + |t.enrich| < |s.random| + |s.enrich|
    ensures turn == Discarded ==> Tallied(c, s, completed, DrainFrom(c, t, world, k + 1, completed))
    ensures turn == Probed ==> Tallied(c, s, completed, DrainFrom(c, t, world, k + 1, completed + 1))
    ensures turn == Idle || turn == NotYet ==> Tallied(c, s, completed, (t, completed))
    decreases c.maxPairs - completed, |s.random| + |s.enrich|, 0
  {
    if turn == Discarded {
      DrainFromKeeps(c, t, world, k + 1, completed);
    } else if turn == Probed {
      DrainFromKeeps(c, t, world, k + 1, completed + 1);
    }
  }

  /** One tick makes at most `maxPairs` raycasts, and returns exactly how many it made. */
  lemma DrainKeepsInv<Id>(c: Config, s: State<Id>, world: nat -> Reading)
    requires Inv(c, s) && Ticking(world, s.nowMS)
    ensures Inv(c, Drain(c, s, world).0)
    ensures Drain(c, s, world).1 <= Max(0, c.maxPairs)
    ensures Drain(c, s, world).0.raycasts == s.raycasts + Drain(c, s, world).1
  {
    if c.enabled && c.maxPairs > 0 {
      DrainFromKeeps(c, s, world, 0, 0);
    }
  }

  // ----- the schedulers -----

  lemma LaterKeepsInv<Id>(c: Config, s: State<Id>, t: State<Id>)
    requires Inv(c, s) && t.random == s.random && t.enrich == s.enrich && t.requests == s.requests && s.nowMS <= t.nowMS
    ensures Inv(c, t)
  {
    forall id | id in t.requests ensures RequestOK(c, t.requests[id], Copies(t, id), t.nowMS) {
      StillOK(c, s.requests[id], Copies(s, id), Copies(t, id), s.nowMS, t.nowMS);
    }
  }

  /** A new request enters the queue of its stream. */
  lemma EnterKeepsInv<Id>(c: Config, s: State<Id>, id: Id, q: Request)
    requires Inv(c, s) && id !in s.requests && RequestOK(c, q, 1, s.nowMS)
    requires if q.random then |s.random| < c.maxRandom else |s.enrich| < c.maxEnrich
    ensures Inv(c, Insert(s.(requests := s.requests[id := q]), id, q.random))
  {
    var t := s.(requests := s.requests[id := q]);
    NotWaiting(s, id);
    NewcomerOut(c, s, id, q, t);
    InsertAlike(t, id, q.random);
    InsertWithinLimits(c, t, id, q.random);
    assert Copies(t, id) == Copies(s, id);
    ReturnKeepsInv(c, t, id, q, Insert(t, id, q.random));
  }

  lemma NotWaiting<Id>(s: State<Id>, id: Id)
    requires Known(s) && id !in s.requests
    ensures Copies(s, id) == 0
  {
  }

  lemma NewcomerOut<Id>(c: Config, s: State<Id>, id: Id, q: Request, t: State<Id>)
    requires Inv(c, s) && id !in s.requests && t == s.(requests := s.requests[id := q])
    requires if q.random then |s.random| < c.maxRandom else |s.enrich| < c.maxEnrich
    ensures Without(c, t, id, q.random)
  {
    forall x | x in t.requests && x != id ensures RequestOK(c, t.requests[x], Copies(t, x), t.nowMS) {
      assert Copies(t, x) == Copies(s, x);
    }
  }

  lemma OfferKeepsInv<Id>(c: Config, s: State<Id>, o: Opportunity<Id>, nowMS: int)
    requires Inv(c, s) && s.nowMS <= nowMS && o.id !in s.requests
    ensures Inv(c, Offer(c, s, o, nowMS)) && Offer(c, s, o, nowMS).nowMS == nowMS
    ensures Offer(c, s, o, nowMS).requests.Keys <= s.requests.Keys + {o.id}
  {
    var due := s.(next := s.next[o.observer := o.nextMS], nowMS := nowMS);
    if VerdictOf(s, o, nowMS) == IsDue && o.targets > 0 && |s.random| < c.maxRandom {
      LaterKeepsInv(c, s, due);
      EnterKeepsInv(c, due, o.id, RandomRequest(nowMS));
    } else {
      LaterKeepsInv(c, s, Offer(c, s, o, nowMS));
    }
  }

  lemma EnrichKeepsInv<Id>(c: Config, s: State<Id>, e: EdgeArrival<Id>)
    requires Inv(c, s) && e.edge.receiveMS <= s.nowMS && e.id !in s.requests
    ensures Inv(c, Enrich(c, s, e)) && Enrich(c, s, e).nowMS == s.nowMS
    ensures Enrich(c, s, e).requests.Keys <= s.requests.Keys + {e.id}
  {
    var reported := s.(exported := s.exported + [EdgeReported(ReportOf(e.edge))]);
    LaterKeepsInv(c, s, reported);
    if c.enabled && e.probeable && |s.enrich| < c.maxEnrich {
      EnterKeepsInv(c, reported, e.id, EnrichmentRequest(e.edge.receiveMS));
    } else {
      LaterKeepsInv(c, s, Enrich(c, s, e));
    }
  }

  /** New requests have identities of their own. */
  predicate NewIDs<Id(==)>(s: State<Id>, ids: seq<Id>) {
    NoRepeats(ids) && forall i :: 0 <= i < |ids| ==> ids[i] !in s.requests
  }

  function OfferIDs<Id>(offers: seq<Opportunity<Id>>): (r: seq<Id>)
    ensures |r| == |offers|
    ensures forall i :: 0 <= i < |r| ==> r[i] == offers[i].id
  {
    seq(|offers|, i requires 0 <= i < |offers| => offers[i].id)
  }

  function EdgeIDs<Id>(edges: seq<EdgeArrival<Id>>): (r: seq<Id>)
    ensures |r| == |edges|
    ensures forall i :: 0 <= i < |r| ==> r[i] == edges[i].id
  {
    seq(|edges|, i requires 0 <= i < |edges| => edges[i].id)
  }

  lemma {:induction false} OfferAllKeepsInv<Id>(c: Config, s: State<Id>, offers: seq<Opportunity<Id>>, nowMS: int)
    requires Inv(c, s) && s.nowMS <= nowMS && NewIDs(s, OfferIDs(offers))
    ensures Inv(c, OfferAll(c, s, offers, nowMS)) && s.nowMS <= OfferAll(c, s, offers, nowMS).nowMS <= nowMS
    ensures forall id :: id in OfferAll(c, s, offers, nowMS).requests ==> id in s.requests || id in OfferIDs(offers)
  {
    if offers != [] {
      var front, last := offers[..|offers| - 1], offers[|offers| - 1];
      var before, after := OfferAll(c, s, front, nowMS), OfferAll(c, s, offers, nowMS);
      assert OfferIDs(front) == OfferIDs(offers)[..|front|] && OfferIDs(offers)[|front|] == last.id;
      OfferAllKeepsInv(c, s, front, nowMS);
      OfferKeepsInv(c, before, last, nowMS);
      forall id | id in after.requests ensures id in s.requests || id in OfferIDs(offers) {
        assert id in before.requests || id == last.id;
      }
    }
  }

  lemma {:induction false} EnrichAllKeepsInv<Id>(c: Config, s: State<Id>, edges: seq<EdgeArrival<Id>>, nowMS: int)
    requires Inv(c, s) && s.nowMS <= nowMS && NewIDs(s, EdgeIDs(edges))
    requires forall i :: 0 <= i < |edges| ==> edges[i].edge.receiveMS <= nowMS
    ensures Inv(c, EnrichAll(c, s, edges, nowMS)) && EnrichAll(c, s, edges, nowMS).nowMS == nowMS
    ensures forall id :: id in EnrichAll(c, s, edges, nowMS).requests ==> id in s.requests || id in EdgeIDs(edges)
  {
    if edges == [] {
      LaterKeepsInv(c, s, s.(nowMS := nowMS));
    } else {
      var front, last := edges[..|edges| - 1], edges[|edges| - 1];
      var before, after := EnrichAll(c, s, front, nowMS), EnrichAll(c, s, edges, nowMS);
      assert EdgeIDs(front) == EdgeIDs(edges)[..|front|] && EdgeIDs(edges)[|front|] == last.id;
      EnrichAllKeepsInv(c, s, front, nowMS);
      EnrichKeepsInv(c, before, last);
      forall id | id in after.requests ensures id in s.requests || id in EdgeIDs(edges) {
        assert id in before.requests || id == last.id;
      }
    }
  }

  // ----- runs -----

  datatype Step<Id> =
    | RandomTick(offers: seq<Opportunity<Id>>, nowMS: int)
    | EdgesTick(edges: seq<EdgeArrival<Id>>, nowMS: int)
    | DrainTick(world: nat -> Reading)

  ghost predicate Possible<Id>(s: State<Id>, step: Step<Id>) {
    match step
    case RandomTick(offers, now) => s.nowMS <= now && NewIDs(s, OfferIDs(offers))
    case EdgesTick(edges, now) =>
      && s.nowMS <= now && NewIDs(s, EdgeIDs(edges))
      && forall i :: 0 <= i < |edges| ==> edges[i].edge.receiveMS <= now
    case DrainTick(world) => Ticking(world, s.nowMS)
  }

  function Next<Id>(c: Config, s: State<Id>, step: Step<Id>): State<Id>
    requires Known(s)
  {
    match step
    case RandomTick(offers, now) => ScheduleRandom(c, s, offers, now)
    case EdgesTick(edges, now) => EnrichAll(c, s, edges, now)
    case DrainTick(world) => Drain(c, s, world).0
  }

  /** `states` is what the scheduler goes through when `steps` happen, from an empty start. */
  ghost predicate Behaviour<Id>(c: Config, states: seq<State<Id>>, steps: seq<Step<Id>>) {
    && |states| == |steps| + 1
    && states[0] == Start()
    && forall i :: 0 <= i < |steps| ==>
         Known(states[i]) && Possible(states[i], steps[i]) && states[i + 1] == Next(c, states[i], steps[i])
  }

  lemma StepKeepsInv<Id>(c: Config, s: State<Id>, step: Step<Id>)
    requires Inv(c, s) && Possible(s, step)
    ensures Inv(c, Next(c, s, step))
  {
    match step
    case RandomTick(offers, now) => OfferAllKeepsInv(c, s, offers, now);
    case EdgesTick(edges, now) => EnrichAllKeepsInv(c, s, edges, now);
    case DrainTick(world) => DrainKeepsInv(c, s, world);
  }

  lemma {:induction false} BehaviourKeepsInv<Id>(c: Config, states: seq<State<Id>>, steps: seq<Step<Id>>, k: nat)
    requires Behaviour(c, states, steps) && k <= |steps|
    ensures Inv(c, states[k])
  {
    if k > 0 {
      BehaviourKeepsInv(c, states, steps, k - 1);
      StepKeepsInv(c, states[k - 1], steps[k - 1]);
      assert states[k - 1 + 1] == Next(c, states[k - 1], steps[k - 1]);
    }
  }

  lemma NoRepeatsFromCopies<Id>(queue: seq<Id>)
    requires forall id :: id in queue ==> multiset(queue)[id] <= 1
    ensures NoRepeats(queue)
  {
    forall i, j | 0 <= i < j < |queue| ensures queue[i] != queue[j] {
      assert queue == queue[..j] + queue[j..];
      assert queue[..j][i] == queue[i] && queue[j..][0] == queue[j];
      assert queue[i] in queue[..j] && queue[j] in queue[j..];
      assert multiset(queue) == multiset(queue[..j]) + multiset(queue[j..]);
      assert queue[i] in multiset(queue[..j]) && queue[j] in multiset(queue[j..]) && queue[i] in queue;
    }
  }

  /**
   In every run the queues stay within their limits; a random request waits at most once and an enrichment request at
   most twice, and only once when occlusions are not kept back, or kept back for a while, or no probe is ever made.
   */
  lemma QueuesStayWithinLimits<Id>(c: Config, states: seq<State<Id>>, steps: seq<Step<Id>>, k: nat)
    requires Behaviour(c, states, steps) && k <= |steps|
    ensures |states[k].random| <= Max(0, c.maxRandom) && |states[k].enrich| <= Max(0, c.maxEnrich)
    ensures forall id :: id in states[k].requests ==>
              Copies(states[k], id) <= if states[k].requests[id].random || Single(c) then 1 else 2
    ensures Single(c) ==> NoRepeats(states[k].random + states[k].enrich)
  {
    BehaviourKeepsInv(c, states, steps, k);
    var s := states[k];
    forall id | id in s.requests ensures Copies(s, id) <= if s.requests[id].random || Single(c) then 1 else 2 {
      assert RequestOK(c, s.requests[id], Copies(s, id), s.nowMS);
    }
    if Single(c) {
      forall id | id in s.random + s.enrich ensures multiset(s.random + s.enrich)[id] <= 1 {
        assert id in s.requests && multiset(s.random + s.enrich)[id] == Copies(s, id);
      }
      NoRepeatsFromCopies(s.random + s.enrich);
    }
  }

  /**
   In every run a random request is probed at most twice, and it is called robustly occluded only on its second
   probe, after two occluded probes in a row at least the minimum duration apart.
   */
  lemma RandomRequestsAreConfirmed<Id>(c: Config, states: seq<State<Id>>, steps: seq<Step<Id>>, k: nat, id: Id)
    requires Behaviour(c, states, steps) && k <= |steps|
    requires id in states[k].requests && states[k].requests[id].random
    ensures var log := states[k].requests[id].log;
            && |log| <= 2
            && (forall i :: 0 <= i < |log| ==>
                  (log[i].mark == Robust <==>
                   && c.validated && i == 1 && log[0].occluded && log[1].occluded
                   && log[1].completedMS - log[0].completedMS >= c.minOcclusionMS))
  {
    BehaviourKeepsInv(c, states, steps, k);
    assert RequestOK(c, states[k].requests[id], Copies(states[k], id), states[k].nowMS);
  }

  /**
   In every run an enrichment request is probed at most 22 times, and called robustly occluded exactly on the
   occluded probes at least the minimum duration after its first occlusion.
   */
  lemma EnrichmentRequestsAreBounded<Id>(c: Config, states: seq<State<Id>>, steps: seq<Step<Id>>, k: nat, id: Id)
    requires Behaviour(c, states, steps) && k <= |steps|
    requires id in states[k].requests && !states[k].requests[id].random
    ensures |states[k].requests[id].log| <= 22
    ensures RobustAfterFirst(c, states[k].requests[id].log)
  {
    BehaviourKeepsInv(c, states, steps, k);
    assert RequestOK(c, states[k].requests[id], Copies(states[k], id), states[k].nowMS);
  }

  /** A clear probe lies between the first occlusion and a probe called robustly occluded. */
  ghost predicate ClearBetween(log: seq<Probing>) {
    exists i, m, k :: 0 <= i < m < k < |log| && log[i].mark == Unreported && !log[m].occluded && log[k].mark == Robust
  }

  /** In every run of such a scheduler the two occluded probes behind a robust mark are consecutive. */
  lemma RobustIsConsecutive<Id>(c: Config, states: seq<State<Id>>, steps: seq<Step<Id>>, k: nat, id: Id)
    requires Behaviour(c, states, steps) && k <= |steps| && id in states[k].requests && Consecutive(c)
    ensures !ClearBetween(states[k].requests[id].log)
  {
    BehaviourKeepsInv(c, states, steps, k);
    assert RequestOK(c, states[k].requests[id], Copies(states[k], id), states[k].nowMS);
  }

  // ----- every due opportunity is accounted for -----

  predicate Due<Id>(o: Opportunity<Id>, next: map<string, int>, nowMS: int) {
    o.eligible && o.observer in next && next[o.observer] <= nowMS
  }

  /** What becomes of an opportunity: nothing as long as it is not due, else one of three ends. */
  datatype Fate = Skipped | Queued | Untargeted | Refused

  /** The one right fate, with `waiting` requests in the queue. */
  predicate RightFate<Id>(c: Config, waiting: nat, o: Opportunity<Id>, due: bool, fate: Fate) {
    && (fate == Skipped <==> !due)
    && (fate == Untargeted <==> due && o.targets == 0)
    && (fate == Refused <==> due && o.targets > 0 && waiting >= c.maxRandom)
  }

  /** The requests of the queued opportunities, in order. */
  function Queuing<Id>(offers: seq<Opportunity<Id>>, fates: seq<Fate>): seq<Id>
    requires |offers| == |fates|
  {
    if offers == [] then []
    else Queuing(offers[..|offers| - 1], fates[..|offers| - 1])
         + if fates[|offers| - 1] == Queued then [offers[|offers| - 1].id] else []
  }

  /** The reports about the opportunities that end without a request, in order. */
  function Reporting<Id>(offers: seq<Opportunity<Id>>, fates: seq<Fate>): seq<Export<Id>>
    requires |offers| == |fates|
  {
    if offers == [] then []
    else Reporting(offers[..|offers| - 1], fates[..|offers| - 1]) + ReportOn(offers[|offers| - 1].observer, fates[|offers| - 1])
  }

  function ReportOn<Id>(observer: string, fate: Fate): seq<Export<Id>> {
    match fate
    case Untargeted => [Neutral(observer)]
    case Refused => [ProbeQueues.Dropped(observer)]
    case _ => []
  }

  function Refusals(fates: seq<Fate>): nat {
    if fates == [] then 0
    else Refusals(fates[..|fates| - 1]) + if fates[|fates| - 1] == Refused then 1 else 0
  }

  predicate DistinctObservers<Id>(offers: seq<Opportunity<Id>>) {
    forall i, j :: 0 <= i < j < |offers| ==> offers[i].observer != offers[j].observer
  }

  lemma OfferHasOneFate<Id>(c: Config, s: State<Id>, o: Opportunity<Id>, nowMS: int) returns (fate: Fate)
    ensures RightFate(c, |s.random|, o, Due(o, s.next, nowMS), fate)
    ensures Offer(c, s, o, nowMS).random == s.random + if fate == Queued then [o.id] else []
    ensures Offer(c, s, o, nowMS).exported == s.exported + ReportOn(o.observer, fate)
    ensures Offer(c, s, o, nowMS).randomDrops == s.randomDrops + if fate == Refused then 1 else 0
  {
    fate := if !Due(o, s.next, nowMS) then Skipped
            else if o.targets == 0 then Untargeted
            else if |s.random| >= c.maxRandom then Refused
            else Queued;
  }

  lemma {:induction false} OthersUntouched<Id>(c: Config, s: State<Id>, offers: seq<Opportunity<Id>>, nowMS: int, p: string)
    requires forall i :: 0 <= i < |offers| ==> offers[i].observer != p
    ensures var t := OfferAll(c, s, offers, nowMS);
            (p in t.next <==> p in s.next) && (p in s.next ==> t.next[p] == s.next[p])
  {
    if offers != [] {
      OthersUntouched(c, s, offers[..|offers| - 1], nowMS, p);
    }
  }

  /** The i-th opportunity has its right fate, given how many requests wait before the first. */
  predicate RightAt<Id>(c: Config, waiting: nat, offers: seq<Opportunity<Id>>, next: map<string, int>, nowMS: int,
                        fates: seq<Fate>, i: nat)
    requires |offers| == |fates| && i < |offers|
  {
    RightFate(c, waiting + |Queuing(offers[..i], fates[..i])|, offers[i], Due(offers[i], next, nowMS), fates[i])
  }

  predicate RightFates<Id>(
      c: Config, waiting: nat, offers: seq<Opportunity<Id>>, next: map<string, int>, nowMS: int, fates: seq<Fate>)
    requires |offers| == |fates|
  {
    forall i :: 0 <= i < |offers| ==> RightAt(c, waiting, offers, next, nowMS, fates, i)
  }

  lemma {:induction false} RightInFront<Id>(
      c: Config, waiting: nat, offers: seq<Opportunity<Id>>, next: map<string, int>, nowMS: int, fates: seq<Fate>,
      n: nat, i: nat)
    requires |offers| == |fates| && i < n <= |offers| && RightAt(c, waiting, offers[..n], next, nowMS, fates[..n], i)
    ensures RightAt(c, waiting, offers, next, nowMS, fates, i)
  {
    assert offers[..n][..i] == offers[..i] && fates[..n][..i] == fates[..i];
  }

  lemma {:induction false} OneMoreFate<Id>(
      c: Config, waiting: nat, offers: seq<Opportunity<Id>>, next: map<string, int>, nowMS: int, fates: seq<Fate>)
    requires |offers| == |fates| > 0
    requires RightFates(c, waiting, offers[..|offers| - 1], next, nowMS, fates[..|offers| - 1])
    requires RightAt(c, waiting, offers, next, nowMS, fates, |offers| - 1)
    ensures RightFates(c, waiting, offers, next, nowMS, fates)
  {
    var n := |offers| - 1;
    var front, before := offers[..n], fates[..n];
    forall i | 0 <= i < |offers| ensures RightAt(c, waiting, offers, next, nowMS, fates, i) {
      if i < n {
        assert RightAt(c, waiting, front, next, nowMS, before, i);
        RightInFront(c, waiting, offers, next, nowMS, fates, n, i);
      }
    }
  }

  /**
   Each opportunity has exactly one fate: it is skipped unless due, and a due one is queued, reported as neutral or
   reported as dropped. The queue, the reports and the drop counter grow by just what these fates say.
   */
  lemma {:induction false} OffersAreAccountedFor<Id>(c: Config, s: State<Id>, offers: seq<Opportunity<Id>>, nowMS: int)
    returns (fates: seq<Fate>)
    requires DistinctObservers(offers)
    ensures |fates| == |offers| && RightFates(c, |s.random|, offers, s.next, nowMS, fates)
    ensures OfferAll(c, s, offers, nowMS).random == s.random + Queuing(offers, fates)
    ensures OfferAll(c, s, offers, nowMS).exported == s.exported + Reporting(offers, fates)
    ensures OfferAll(c, s, offers, nowMS).randomDrops == s.randomDrops + Refusals(fates)
  {
    if offers == [] {
      fates := [];
    } else {
      var front, last := offers[..|offers| - 1], offers[|offers| - 1];
      var before := OffersAreAccountedFor(c, s, front, nowMS);
      OthersUntouched(c, s, front, nowMS, last.observer);
      var t := OfferAll(c, s, front, nowMS);
      var fate := OfferHasOneFate(c, t, last, nowMS);
      assert Due(last, t.next, nowMS) == Due(last, s.next, nowMS);
      fates := before + [fate];
      assert fates[..|front|] == before;
      assert RightAt(c, |s.random|, offers, s.next, nowMS, fates, |front|);
      OneMoreFate(c, |s.random|, offers, s.next, nowMS, fates);
      OneMoreReport(t, s, offers, fates, Offer(c, t, last, nowMS));
    }
  }

  lemma {:induction false} OneMoreReport<Id>(t: State<Id>, s: State<Id>, offers: seq<Opportunity<Id>>, fates: seq<Fate>, u: State<Id>)
    requires |offers| == |fates| > 0
    requires t.random == s.random + Queuing(offers[..|offers| - 1], fates[..|offers| - 1])
    requires t.exported == s.exported + Reporting(offers[..|offers| - 1], fates[..|offers| - 1])
    requires t.randomDrops == s.randomDrops + Refusals(fates[..|offers| - 1])
    requires var o, fate := offers[|offers| - 1], fates[|offers| - 1];
             && u.random == t.random + (if fate == Queued then [o.id] else [])
             && u.exported == t.exported + ReportOn(o.observer, fate)
             && u.randomDrops == t.randomDrops + (if fate == Refused then 1 else 0)
    ensures u.random == s.random + Queuing(offers, fates)
    ensures u.exported == s.exported + Reporting(offers, fates)
    ensures u.randomDrops == s.randomDrops + Refusals(fates)
  {
  }

  /** The reports on drained decision edges. */
  function EdgeReports<Id>(edges: seq<EdgeArrival<Id>>): seq<Export<Id>> {
    if edges == [] then []
    else EdgeReports(edges[..|edges| - 1]) + [EdgeReported(ReportOf(edges[|edges| - 1].edge))]
  }

  function ProbeableEdges<Id>(edges: seq<EdgeArrival<Id>>): nat {
    if edges == [] then 0
    else ProbeableEdges(edges[..|edges| - 1]) + if edges[|edges| - 1].probeable then 1 else 0
  }

  /**
   Every drained edge is reported once and in order, whatever becomes of its probe; and when probing is enabled each
   edge that can be probed is queued or counted as dropped.
   */
  lemma {:induction false} EdgesAreAccountedFor<Id>(c: Config, s: State<Id>, edges: seq<EdgeArrival<Id>>, nowMS: int)
    ensures var t := EnrichAll(c, s, edges, nowMS);
            && t.exported == s.exported + EdgeReports(edges)
            && |t.enrich| + t.enrichDrops
               == |s.enrich| + s.enrichDrops + (if c.enabled then ProbeableEdges(edges) else 0)
  {
    if edges != [] {
      EdgesAreAccountedFor(c, s, edges[..|edges| - 1], nowMS);
    }
  }
}
