/** What the drain does with the requests it meets, from the requests and the readings alone. */
module DrainLaws {
  import Clock
  import opened Common
  import opened ProbeQueues
  import opened ProbeRuns

  predicate Waiting<Id(==)>(s: State<Id>, id: Id) {
    id in s.random || id in s.enrich
  }

  /** A reading on which a request is thrown away: its players are not fit for a probe, or it waited too long. */
  predicate Spoils(c: Config, q: Request, r: Reading) {
    !r.usable || r.nowMS > q.queuedMS + c.maxAgeMS
  }

  predicate Early(q: Request, r: Reading) {
    r.nowMS < q.notBeforeMS
  }

  /** Random requests go first, each queue from its front. */
  predicate IsNext<Id(==)>(s: State<Id>, id: Id) {
    || (s.random != [] && id == s.random[0])
    || (s.random == [] && s.enrich != [] && id == s.enrich[0])
  }

  /** A first occlusion that has to be confirmed. */
  predicate Unconfirmed(c: Config, q: Request, r: Reading) {
    r.occluded && c.validated && q.firstOccludedMS == 0
  }

  /** What the log gains: the reading, and how it is reported. */
  predicate Logged(c: Config, q: Request, r: Reading, p: Probing) {
    && p.startedMS == r.nowMS && p.completedMS == r.completedMS && p.occluded == r.occluded
    && (p.mark == Unreported <==> Unconfirmed(c, q, r))
    && (p.mark == Robust <==> r.occluded && c.validated && q.firstOccludedMS != 0
                              && q.firstOccludedMS + c.minOcclusionMS <= r.completedMS)
  }

  /** An enrichment request is looked at again while its window lasts, unless its next look was just put off. */
  predicate LooksAgain(c: Config, q: Request, r: Reading) {
    !q.random && r.nowMS < q.windowEndMS && (Unconfirmed(c, q, r) ==> r.completedMS + c.minOcclusionMS <= r.nowMS)
  }

  /** What one probe writes into its request. */
  predicate Rewrites(c: Config, q: Request, r: Reading, q': Request) {
    && |q'.log| == |q.log| + 1 && q.log <= q'.log && Logged(c, q, r, q'.log[|q.log|])
    && q'.firstOccludedMS == (if Unconfirmed(c, q, r) then r.completedMS else q.firstOccludedMS)
    && q'.random == q.random && q'.windowEndMS == q.windowEndMS && q'.intervalMS == q.intervalMS
    && (if LooksAgain(c, q, r) then
          q'.queuedMS == r.nowMS && q'.notBeforeMS == r.nowMS + (if q.intervalMS > 100 then q.intervalMS else 100)
        else
          q'.queuedMS == q.queuedMS
          && q'.notBeforeMS == if Unconfirmed(c, q, r) then r.completedMS + c.minOcclusionMS else q.notBeforeMS)
  }

  ghost predicate OthersSame<Id(!new)>(s: State<Id>, t: State<Id>, id: Id) {
    t.requests.Keys == s.requests.Keys && forall x :: x in s.requests && x != id ==> t.requests[x] == s.requests[x]
  }

  function Times1<Id>(id: Id, b: bool): seq<Id> {
    if b then [id] else []
  }

  /** The queues after one probe of the head: it may come back to the end of its own. */
  predicate Returned<Id(==)>(c: Config, s: State<Id>, id: Id, q: Request, r: Reading, t: State<Id>)
    requires s.random != [] || s.enrich != []
  {
    if s.random != [] then
      && t.random == s.random[1..] + Times1(id, Unconfirmed(c, q, r)) && t.enrich == s.enrich
      && t.randomDrops == s.randomDrops && t.enrichDrops == s.enrichDrops
    else
      var waiting := s.enrich[1..] + Times1(id, Unconfirmed(c, q, r));
      var room := |waiting| < c.maxEnrich;
      && t.random == [] && t.enrich == waiting + Times1(id, LooksAgain(c, q, r) && room)
      && t.randomDrops == s.randomDrops && t.enrichDrops == s.enrichDrops + |Times1(id, LooksAgain(c, q, r) && !room)|
  }

  /** The state after one probe of the head. */
  ghost predicate AfterOne<Id(!new)>(c: Config, s: State<Id>, id: Id, r: Reading, t: State<Id>) {
    && IsNext(s, id) && id in s.requests && OthersSame(s, t, id)
    && Rewrites(c, s.requests[id], r, t.requests[id]) && Returned(c, s, id, s.requests[id], r, t)
    && t.raycasts == s.raycasts + 1 && t.nowMS == r.completedMS && t.next == s.next
    && var mark := t.requests[id].log[|s.requests[id].log|].mark;
       t.exported == s.exported + if mark == Unreported then [] else [Observed(id, mark)]
  }

  // ----- one turn of the drain -----

  lemma ProbeRewrites(c: Config, q: Request, r: Reading)
    requires !Early(q, r)
    ensures Rewrites(c, q, r, AfterProbe(c, q, r))
    ensures Repeats(Probe(c, q, r), r) == LooksAgain(c, q, r) && Waits(c, q, r) == Unconfirmed(c, q, r)
    ensures MarkOf(c, q, r) == AfterProbe(c, q, r).log[|q.log|].mark
  {
  }

  /** A head that is due and fit is probed, and the drain goes on with one probe less to make. */
  lemma DueIsProbed<Id(!new)>(c: Config, s: State<Id>, id: Id, world: nat -> Reading, k: nat, completed: nat)
      returns (t: State<Id>)
    requires Known(s) && completed < c.maxPairs && IsNext(s, id)
    requires !Spoils(c, s.requests[id], world(k)) && !Early(s.requests[id], world(k))
    ensures Known(t) && AfterOne(c, s, id, world(k), t)
    ensures DrainFrom(c, s, world, k, completed) == DrainFrom(c, t, world, k + 1, completed + 1)
  {
    var q, r := s.requests[id], world(k);
    t := Take(c, s, r);
    assert TurnOf(c, s, r) == Probed && id == Head(s);
    TurnIs(c, s, r);
    ProbedIs(c, Popped(s), id, r, q);
    ProbeRewrites(c, q, r);
    DrainUnfolds(c, s, world, k, completed, t);
    ProbedHead(c, s, id, q, r, t);
  }

  lemma ProbedHead<Id(!new)>(c: Config, s: State<Id>, id: Id, q: Request, r: Reading, t: State<Id>)
    requires Known(s) && IsNext(s, id) && s.requests[id] == q && Rewrites(c, q, r, AfterProbe(c, q, r))
    requires MarkOf(c, q, r) == AfterProbe(c, q, r).log[|q.log|].mark
    requires Repeats(Probe(c, q, r), r) == LooksAgain(c, q, r) && Waits(c, q, r) == Unconfirmed(c, q, r)
    requires var u := Rewritten(c, Popped(s), id, r);
             var v := if Waits(c, q, r) then Insert(u, id, q.random) else u;
             t == if Repeats(Probe(c, q, r), r) then Requeue(c, v, id, false) else v
    ensures AfterOne(c, s, id, r, t)
  {
  }

  /** A head that is spoilt is dropped, and the drain goes on with the next. */
  lemma SpoiltIsDropped<Id>(c: Config, s: State<Id>, id: Id, world: nat -> Reading, k: nat, completed: nat)
    requires Known(s) && completed < c.maxPairs && IsNext(s, id) && Spoils(c, s.requests[id], world(k))
    ensures var t := (if s.random != [] then s.(random := s.random[1..]) else s.(enrich := s.enrich[1..])).(nowMS := world(k).nowMS);
            Known(t) && DrainFrom(c, s, world, k, completed) == DrainFrom(c, t, world, k + 1, completed)
  {
    TurnIs(c, s, world(k));
    DrainUnfolds(c, s, world, k, completed, Take(c, s, world(k)));
  }

  /** A head that is not due yet goes to the end of its queue, where there is room for it, and the drain ends. */
  lemma EarlyGoesBack<Id>(c: Config, s: State<Id>, id: Id, world: nat -> Reading, k: nat, completed: nat)
    requires Known(s) && WithinLimits(c, s) && completed < c.maxPairs && IsNext(s, id)
    requires !Spoils(c, s.requests[id], world(k)) && Early(s.requests[id], world(k))
    ensures var t := (if s.random != [] then s.(random := s.random[1..] + [id]) else s.(enrich := s.enrich[1..] + [id]))
                       .(nowMS := world(k).nowMS);
            DrainFrom(c, s, world, k, completed) == (t, completed)
  {
    TurnIs(c, s, world(k));
    DrainUnfolds(c, s, world, k, completed, Take(c, s, world(k)));
  }

  /** Otherwise it ends: with nothing waiting, or with all its probes made. */
  lemma DrainEnds<Id>(c: Config, s: State<Id>, world: nat -> Reading, k: nat, completed: nat)
    requires Known(s) && (completed >= c.maxPairs || (s.random == [] && s.enrich == []))
    ensures DrainFrom(c, s, world, k, completed) == (s, completed)
  {
  }

  // ----- one request through a whole drain -----

  ghost predicate SpoiltFrom(c: Config, q: Request, world: nat -> Reading, k: nat) {
    exists i: nat :: i >= k && Spoils(c, q, world(i))
  }

  /** Its log only grows, without a probe it stays as it is, and without a probe it leaves only when spoilt. */
  ghost predicate KeptOf<Id>(c: Config, s: State<Id>, t: State<Id>, id: Id, world: nat -> Reading, k: nat) {
    && id in s.requests && id in t.requests
    && var q, q' := s.requests[id], t.requests[id];
       && q.log <= q'.log && (q'.log == q.log ==> q' == q)
       && (Waiting(s, id) && !Waiting(t, id) && q'.log == q.log ==> SpoiltFrom(c, q, world, k))
  }

  lemma LimitsAfterOne<Id(!new)>(c: Config, s: State<Id>, h: Id, r: Reading, t: State<Id>)
    requires WithinLimits(c, s) && AfterOne(c, s, h, r, t)
    ensures WithinLimits(c, t)
  {
  }

  lemma KeptByProbe<Id(!new)>(
      c: Config, s: State<Id>, h: Id, r: Reading, t: State<Id>, u: State<Id>, id: Id, world: nat -> Reading, k: nat)
    requires AfterOne(c, s, h, r, t) && KeptOf(c, t, u, id, world, k + 1) && id in s.requests
    ensures KeptOf(c, s, u, id, world, k)
  {
    if id == h {
      assert |u.requests[id].log| >= |t.requests[id].log| > |s.requests[id].log|;
    } else {
      if Waiting(s, id) {
        StillWaits(c, s, h, r, t, id);
      }
      assert t.requests[id] == s.requests[id];
    }
  }

  lemma StillWaits<Id(!new)>(c: Config, s: State<Id>, h: Id, r: Reading, t: State<Id>, id: Id)
    requires AfterOne(c, s, h, r, t) && id != h && Waiting(s, id)
    ensures Waiting(t, id)
  {
    if s.random != [] {
      assert s.random == [h] + s.random[1..];
    } else {
      assert s.enrich == [h] + s.enrich[1..];
    }
  }

  /** The queues without their head. */
  function Shortened<Id>(s: State<Id>, nowMS: int): State<Id>
    requires s.random != [] || s.enrich != []
  {
    (if s.random != [] then s.(random := s.random[1..]) else s.(enrich := s.enrich[1..])).(nowMS := nowMS)
  }

  lemma KeptByDrop<Id>(c: Config, s: State<Id>, h: Id, u: State<Id>, id: Id, world: nat -> Reading, k: nat)
    requires IsNext(s, h) && id in s.requests && h in s.requests && Spoils(c, s.requests[h], world(k))
    requires KeptOf(c, Shortened(s, world(k).nowMS), u, id, world, k + 1)
    ensures KeptOf(c, s, u, id, world, k)
  {
    if id != h && Waiting(s, id) {
      if s.random != [] {
        assert s.random == [h] + s.random[1..];
      } else {
        assert s.enrich == [h] + s.enrich[1..];
      }
    }
  }

  lemma KeptByPutBack<Id>(c: Config, s: State<Id>, h: Id, u: State<Id>, id: Id, world: nat -> Reading, k: nat)
    requires IsNext(s, h) && id in s.requests && u.requests == s.requests
    requires (s.random != [] ==> u.random == s.random[1..] + [h] && u.enrich == s.enrich)
          && (s.random == [] ==> u.enrich == s.enrich[1..] + [h] && u.random == [])
    ensures KeptOf(c, s, u, id, world, k)
  {
    if s.random != [] {
      assert s.random == [h] + s.random[1..];
    } else {
      assert s.enrich == [h] + s.enrich[1..];
    }
  }

  function First<Id>(s: State<Id>): Id
    requires s.random != [] || s.enrich != []
  {
    if s.random != [] then s.random[0] else s.enrich[0]
  }

  lemma {:induction false} KeptByDrain<Id(!new)>(
      c: Config, s: State<Id>, id: Id, world: nat -> Reading, k: nat, completed: nat)
    requires Known(s) && WithinLimits(c, s) && id in s.requests
    ensures KeptOf(c, s, DrainFrom(c, s, world, k, completed).0, id, world, k)
    decreases c.maxPairs - completed, |s.random| + |s.enrich|
  {
    if completed >= c.maxPairs || (s.random == [] && s.enrich == []) {
      DrainEnds(c, s, world, k, completed);
    } else {
      var h, r := First(s), world(k);
      var u := DrainFrom(c, s, world, k, completed).0;
      if Spoils(c, s.requests[h], r) {
        SpoiltIsDropped(c, s, h, world, k, completed);
        KeptByDrain(c, Shortened(s, r.nowMS), id, world, k + 1, completed);
        KeptByDrop(c, s, h, u, id, world, k);
      } else if Early(s.requests[h], r) {
        EarlyGoesBack(c, s, h, world, k, completed);
        KeptByPutBack(c, s, h, u, id, world, k);
      } else {
        var t := DueIsProbed(c, s, h, world, k, completed);
        LimitsAfterOne(c, s, h, r, t);
        KeptByDrain(c, t, id, world, k + 1, completed + 1);
        KeptByProbe(c, s, h, r, t, u, id, world, k);
      }
    }
  }

  // ----- a whole tick -----

  /** The log of the request went on with this reading. */
  ghost predicate GotReading<Id>(c: Config, s: State<Id>, t: State<Id>, id: Id, r: Reading) {
    && id in s.requests && id in t.requests
    && var log, log' := s.requests[id].log, t.requests[id].log;
       |log'| > |log| && log <= log' && Logged(c, s.requests[id], r, log'[|log|])
  }

  lemma OneIsLogged<Id(!new)>(
      c: Config, s: State<Id>, id: Id, r: Reading, t: State<Id>, u: State<Id>, world: nat -> Reading, k: nat)
    requires AfterOne(c, s, id, r, t) && KeptOf(c, t, u, id, world, k)
    ensures GotReading(c, s, u, id, r)
  {
  }

  lemma HeadIsLogged<Id(!new)>(c: Config, s: State<Id>, id: Id, world: nat -> Reading, k: nat, completed: nat)
    requires Known(s) && WithinLimits(c, s) && IsNext(s, id) && completed < c.maxPairs
    requires !Spoils(c, s.requests[id], world(k)) && !Early(s.requests[id], world(k))
    ensures GotReading(c, s, DrainFrom(c, s, world, k, completed).0, id, world(k))
    ensures DrainFrom(c, s, world, k, completed).1 >= completed + 1
  {
    var t := DueIsProbed(c, s, id, world, k, completed);
    LimitsAfterOne(c, s, id, world(k), t);
    var u := DrainFrom(c, t, world, k + 1, completed + 1).0;
    KeptByDrain(c, t, id, world, k + 1, completed + 1);
    OneIsLogged(c, s, id, world(k), t, u, world, k + 1);
    CountGrows(c, t, world, k + 1, completed + 1);
  }

  lemma DrainIsOn<Id>(c: Config, s: State<Id>, world: nat -> Reading)
    requires Known(s) && c.enabled && c.maxPairs >= 1
    ensures Drain(c, s, world) == DrainFrom(c, s, world, 0, 0)
  {
  }

  /** With probing on, a head that is due and fit at the first reading gets it into its log in that tick. */
  lemma HeadIsProbed<Id(!new)>(c: Config, s: State<Id>, id: Id, world: nat -> Reading)
    requires Known(s) && WithinLimits(c, s) && c.enabled && c.maxPairs >= 1 && IsNext(s, id)
    requires !Spoils(c, s.requests[id], world(0)) && !Early(s.requests[id], world(0))
    ensures Drain(c, s, world).1 >= 1 && Drain(c, s, world).0.raycasts == s.raycasts + Drain(c, s, world).1
    ensures GotReading(c, s, Drain(c, s, world).0, id, world(0))
  {
    DrainIsOn(c, s, world);
    HeadIsLogged(c, s, id, world, 0, 0);
    RaycastsGrow(c, s, world, 0, 0);
  }

  lemma {:induction false} RaycastsGrow<Id>(c: Config, s: State<Id>, world: nat -> Reading, k: nat, completed: nat)
    requires Known(s)
    ensures var (t, made) := DrainFrom(c, s, world, k, completed); t.raycasts - s.raycasts == made - completed
    decreases c.maxPairs - completed, |s.random| + |s.enrich|
  {
    if completed < c.maxPairs && (s.random != [] || s.enrich != []) {
      var t := Take(c, s, world(k));
      TakeCounts(c, s, world(k));
      DrainUnfolds(c, s, world, k, completed, t);
      if TurnOf(c, s, world(k)) == Discarded {
        RaycastsGrow(c, t, world, k + 1, completed);
      } else if TurnOf(c, s, world(k)) == Probed {
        RaycastsGrow(c, t, world, k + 1, completed + 1);
      }
    }
  }

  lemma {:induction false} CountGrows<Id(!new)>(c: Config, s: State<Id>, world: nat -> Reading, k: nat, completed: nat)
    requires Known(s)
    ensures DrainFrom(c, s, world, k, completed).1 >= completed
    decreases c.maxPairs - completed, |s.random| + |s.enrich|
  {
    if completed < c.maxPairs && (s.random != [] || s.enrich != []) {
      var t := Take(c, s, world(k));
      DrainUnfolds(c, s, world, k, completed, t);
      if TurnOf(c, s, world(k)) == Discarded {
        CountGrows(c, t, world, k + 1, completed);
      } else if TurnOf(c, s, world(k)) == Probed {
        CountGrows(c, t, world, k + 1, completed + 1);
      }
    }
  }

  /** The first n waiting random requests, each due and fit at its turn. */
  ghost predicate Served<Id>(c: Config, s: State<Id>, world: nat -> Reading, k: nat, n: nat)
    requires Known(s)
  {
    && n <= |s.random| && NoRepeats(s.random)
    && forall i :: 0 <= i < n ==>
         !Spoils(c, s.requests[s.random[i]], world(k + i)) && !Early(s.requests[s.random[i]], world(k + i))
  }

  lemma HeadFollows<Id(!new)>(
      c: Config, s: State<Id>, world: nat -> Reading, k: nat, completed: nat, t: State<Id>, u: State<Id>)
    requires s.random != [] && Known(t) && WithinLimits(c, t) && AfterOne(c, s, s.random[0], world(k), t)
    requires u == DrainFrom(c, t, world, k + 1, completed + 1).0
    ensures GotReading(c, s, u, s.random[0], world(k))
  {
    KeptByDrain(c, t, s.random[0], world, k + 1, completed + 1);
    OneIsLogged(c, s, s.random[0], world(k), t, u, world, k + 1);
  }

  /** The first n waiting random requests of `s` have each got their own reading. */
  ghost predicate AllGot<Id>(c: Config, s: State<Id>, u: State<Id>, world: nat -> Reading, k: nat, n: nat) {
    n <= |s.random| && forall i :: 0 <= i < n ==> GotReading(c, s, u, s.random[i], world(k + i))
  }

  lemma OtherFollows<Id(!new)>(
      c: Config, s: State<Id>, h: Id, first: Reading, t: State<Id>, u: State<Id>, i: nat, r: Reading)
    requires 0 < i < |s.random| && h == s.random[0] != s.random[i] && AfterOne(c, s, h, first, t)
    requires i - 1 < |t.random| && GotReading(c, t, u, t.random[i - 1], r)
    ensures GotReading(c, s, u, s.random[i], r)
  {
    assert t.random[i - 1] == s.random[i];
  }

  lemma AllGotAfterOne<Id(!new)>(
      c: Config, s: State<Id>, t: State<Id>, u: State<Id>, world: nat -> Reading, k: nat, n: nat)
    requires 0 < n <= |s.random| && NoRepeats(s.random) && AfterOne(c, s, s.random[0], world(k), t)
    requires GotReading(c, s, u, s.random[0], world(k)) && AllGot(c, t, u, world, k + 1, n - 1)
    ensures AllGot(c, s, u, world, k, n)
  {
    forall i | 0 <= i < n ensures GotReading(c, s, u, s.random[i], world(k + i)) {
      if i > 0 {
        assert world(k + 1 + (i - 1)) == world(k + i);
        assert GotReading(c, t, u, t.random[i - 1], world(k + 1 + (i - 1)));
        OtherFollows(c, s, s.random[0], world(k), t, u, i, world(k + i));
      }
    }
  }

  lemma ServedAfterOne<Id(!new)>(c: Config, s: State<Id>, h: Id, world: nat -> Reading, k: nat, n: nat, t: State<Id>)
    requires Known(s) && Known(t) && n > 0 && Served(c, s, world, k, n) && h == s.random[0] && AfterOne(c, s, h, world(k), t)
    ensures Served(c, t, world, k + 1, n - 1)
  {
    forall i | 0 <= i < n - 1
      ensures t.random[i] == s.random[i + 1] && t.requests[t.random[i]] == s.requests[s.random[i + 1]]
    {
    }
    forall i | 0 <= i < n - 1
      ensures !Spoils(c, t.requests[t.random[i]], world(k + 1 + i)) && !Early(t.requests[t.random[i]], world(k + 1 + i))
    {
      assert world(k + (i + 1)) == world(k + 1 + i);
    }
  }

  /** As far as the budget of the tick goes, the waiting random requests are probed in order, each with its own reading. */
  lemma {:induction false} RandomsAreProbed<Id(!new)>(
      c: Config, s: State<Id>, world: nat -> Reading, k: nat, completed: nat, n: nat)
    requires Known(s) && WithinLimits(c, s) && Served(c, s, world, k, n) && completed + n <= c.maxPairs
    ensures DrainFrom(c, s, world, k, completed).1 >= completed + n
    ensures AllGot(c, s, DrainFrom(c, s, world, k, completed).0, world, k, n)
    decreases n
  {
    if n == 0 {
      CountGrows(c, s, world, k, completed);
    } else {
      var h := s.random[0];
      var t := DueIsProbed(c, s, h, world, k, completed);
      var u := DrainFrom(c, t, world, k + 1, completed + 1).0;
      LimitsAfterOne(c, s, h, world(k), t);
      ServedAfterOne(c, s, h, world, k, n, t);
      RandomsAreProbed(c, t, world, k + 1, completed + 1, n - 1);
      HeadFollows(c, s, world, k, completed, t, u);
      AllGotAfterOne(c, s, t, u, world, k, n);
    }
  }

  // ----- whole runs -----

  /** A random request as it enters its queue. */
  predicate FreshRandom(q: Request, nowMS: int) {
    q.random && q.queuedMS == nowMS && q.notBeforeMS <= 0 && q.firstOccludedMS == 0 && q.log == []
  }

  /** An enrichment request as it enters its queue: five seconds long, looked at every quarter of a second. */
  predicate FreshEnrichment(q: Request, receiveMS: int) {
    && !q.random && q.queuedMS == receiveMS && q.notBeforeMS <= 0 && q.firstOccludedMS == 0 && q.log == []
    && q.windowEndMS == receiveMS + 5000 && q.intervalMS == 250
  }

  /** Both queues only grow, and what was requested before stays as it was. */
  ghost predicate Extends<Id>(s: State<Id>, t: State<Id>) {
    && s.random <= t.random && s.enrich <= t.enrich && t.raycasts == s.raycasts
    && forall id :: id in s.requests ==> id in t.requests && t.requests[id] == s.requests[id]
  }

  lemma {:induction false} OffersExtend<Id(!new)>(c: Config, s: State<Id>, offers: seq<Opportunity<Id>>, nowMS: int)
    requires forall i :: 0 <= i < |offers| ==> offers[i].id !in s.requests
    ensures Extends(s, OfferAll(c, s, offers, nowMS))
    ensures forall id :: id in OfferAll(c, s, offers, nowMS).requests && id !in s.requests ==>
              FreshRandom(OfferAll(c, s, offers, nowMS).requests[id], nowMS)
  {
    if offers != [] {
      OffersExtend(c, s, offers[..|offers| - 1], nowMS);
    }
  }

  /** A player's next opportunity moves on exactly when it is first seen or due, queued or not. */
  lemma OpportunityMovesOn<Id>(c: Config, s: State<Id>, o: Opportunity<Id>, nowMS: int)
    ensures var moves := o.eligible && (o.observer in s.next ==> s.next[o.observer] <= nowMS);
            Offer(c, s, o, nowMS).next == if moves then s.next[o.observer := o.nextMS] else s.next
  {
  }

  /** A probeable edge joins the enrichment queue exactly when that has room, and is counted as dropped otherwise. */
  lemma EdgeIsQueued<Id>(c: Config, s: State<Id>, e: EdgeArrival<Id>)
    ensures var t, wanted, room := Enrich(c, s, e), c.enabled && e.probeable, |s.enrich| < c.maxEnrich;
            && t.random == s.random && t.randomDrops == s.randomDrops
            && t.enrich == s.enrich + Times1(e.id, wanted && room)
            && t.enrichDrops == s.enrichDrops + |Times1(e.id, wanted && !room)|
            && (wanted && room ==> e.id in t.requests && FreshEnrichment(t.requests[e.id], e.edge.receiveMS))
            && t.exported == s.exported + [EdgeReported(ReportOf(e.edge))]
  {
  }

  /** A report keeps the identity and the interval of its edge and dates it in the middle. */
  lemma ReportKeepsInterval(e: Clock.Edge)
    requires e.lowerMS <= e.upperMS
    ensures var r := ReportOf(e);
            && r.player == e.player && r.kind == e.kind && r.sequence == e.sequence && r.receiveMS == e.receiveMS
            && r.lowerMS == e.lowerMS <= r.estimateMS <= e.upperMS == r.upperMS && r.aligned == e.aligned
            && 0 <= (r.upperMS - r.estimateMS) - (r.estimateMS - r.lowerMS) <= 1
            && r.estimateMS - r.uncertaintyMS == r.lowerMS
  {
  }

  ghost predicate FreshFrom<Id>(edges: seq<EdgeArrival<Id>>, id: Id, q: Request) {
    exists i :: 0 <= i < |edges| && edges[i].id == id && FreshEnrichment(q, edges[i].edge.receiveMS)
  }

  lemma FreshPrefix<Id>(edges: seq<EdgeArrival<Id>>, id: Id, q: Request)
    requires edges != []
    ensures FreshFrom(edges[..|edges| - 1], id, q) ==> FreshFrom(edges, id, q)
    ensures edges[|edges| - 1].id == id && FreshEnrichment(q, edges[|edges| - 1].edge.receiveMS) ==> FreshFrom(edges, id, q)
  {
    var front := edges[..|edges| - 1];
    if FreshFrom(front, id, q) {
      var i :| 0 <= i < |front| && front[i].id == id && FreshEnrichment(q, front[i].edge.receiveMS);
      assert edges[i] == front[i];
    }
  }

  ghost predicate EdgesEntered<Id(!new)>(s: State<Id>, edges: seq<EdgeArrival<Id>>, t: State<Id>) {
    Extends(s, t) && forall id :: id in t.requests && id !in s.requests ==> FreshFrom(edges, id, t.requests[id])
  }

  lemma {:induction false} EdgesExtend<Id(!new)>(c: Config, s: State<Id>, edges: seq<EdgeArrival<Id>>, nowMS: int)
    requires forall i :: 0 <= i < |edges| ==> edges[i].id !in s.requests
    ensures EdgesEntered(s, edges, EnrichAll(c, s, edges, nowMS))
  {
    if edges != [] {
      var front := edges[..|edges| - 1];
      EdgesExtend(c, s, front, nowMS);
      var before, t := EnrichAll(c, s, front, nowMS), EnrichAll(c, s, edges, nowMS);
      OneEdgeExtends(c, before, edges[|edges| - 1], t);
      forall id | id in t.requests && id !in s.requests ensures FreshFrom(edges, id, t.requests[id]) {
        FreshPrefix(edges, id, t.requests[id]);
      }
    }
  }

  lemma OneEdgeExtends<Id(!new)>(c: Config, s: State<Id>, e: EdgeArrival<Id>, t: State<Id>)
    requires t == Enrich(c, s, e)
    ensures s.random <= t.random && s.enrich <= t.enrich && t.raycasts == s.raycasts
    ensures forall id :: id in t.requests && id != e.id ==> id in s.requests && t.requests[id] == s.requests[id]
    ensures forall id :: id in s.requests ==> id in t.requests
    ensures e.id in t.requests && t.requests != s.requests ==> FreshEnrichment(t.requests[e.id], e.edge.receiveMS)
  {
  }

  /**
   In every run a waiting request that no longer waits after a step without having been probed in it was met by the
   drain of that step, on a reading that found its players unfit or found it too old. Nothing is ever pushed out.
   */
  lemma UnprobedLeavesOnlySpoilt<Id(!new)>(c: Config, states: seq<State<Id>>, steps: seq<Step<Id>>, k: nat, id: Id)
    requires Behaviour(c, states, steps) && k < |steps| && Waiting(states[k], id) && !Waiting(states[k + 1], id)
    ensures id in states[k].requests && id in states[k + 1].requests
    ensures states[k].requests[id].log <= states[k + 1].requests[id].log
    ensures states[k + 1].requests[id].log == states[k].requests[id].log ==>
              steps[k].DrainTick? && exists i: nat :: Spoils(c, states[k].requests[id], steps[k].world(i))
  {
    BehaviourKeepsInv(c, states, steps, k);
    var s, t := states[k], states[k + 1];
    assert t == Next(c, s, steps[k]);
    match steps[k]
    case RandomTick(offers, now) =>
      if c.enabled {
        OffersExtend(c, s, offers, now);
      }
    case EdgesTick(edges, now) => EdgesExtend(c, s, edges, now);
    case DrainTick(world) =>
      if c.enabled && c.maxPairs > 0 {
        KeptByDrain(c, s, id, world, 0, 0);
      }
  }
}
