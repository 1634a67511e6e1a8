/**
 The audio cue ledger: the best audible gunshot and footstep before each observation.
 The audibility model itself is a parameter; the ledger only uses its verdicts.
 */
module AudioCues {
  import opened Common
  import opened Observations
  import opened Sorting
  import opened Telemetry

  datatype Config = Config(gunshotLookbackMS: int, footstepLookbackMS: int, snapshotToleranceMS: int)

  datatype Position = Position(x: real, y: real, z: real)

  datatype Audibility = NotAudible | Possible | Likely | Strong

  /** The audibility model and the text it contributes, both functions of the sound and where it is heard. */
  datatype Ear = Ear(
    gunshot: (CuePayload, Position) -> Audibility,
    footstep: (CuePayload, Position) -> Audibility,
    describe: (CuePayload, Position) -> string)

  datatype CueEvent = CueEvent(
    serverID: string,
    sessionID: string,
    playerSessionID: string,
    eventType: EventType,
    eventID: string,
    timeMS: int,
    authority: Authority,
    data: CuePayload)

  datatype Candidate = Candidate(fact: CueFact, cueClass: CueClass, rank: nat)

  type SessionKey = (string, string)
  type PlayerKey = (string, string, string)

  // ----- what each event contributes -----

  function Vector3(p: seq<real>): Option<Position> {
    if |p| == 3 then Some(Position(p[0], p[1], p[2])) else None
  }

  function ClassRank(c: CueClass): nat {
    match c
    case Known => 3
    case Plausible => 2
    case Unexplained => 0
  }

  function Classify(a: Audibility, gunshot: bool): (CueClass, nat) {
    match a
    case Strong => if gunshot then (Known, 3) else (Plausible, 2)
    case Likely => (Plausible, 2)
    case Possible => (Unexplained, 1)
    case NotAudible => (Unexplained, 0)
  }

  /** The part of a player session id after its last colon. */
  function DurableID(id: string): string {
    if id == [] || id[|id| - 1] == ':' then ""
    else if ':' !in id then id
    else DurableID(id[..|id| - 1]) + [id[|id| - 1]]
  }

  /** The latest sample at or before `at` within the tolerance; the first one if several share that time. */
  function Nearest(samples: seq<CueEvent>, at: int, tolerance: int): Option<CueEvent> {
    if samples == [] then None
    else
      var best, x := Nearest(samples[..|samples| - 1], at, tolerance), samples[|samples| - 1];
      if x.timeMS <= at && at - x.timeMS <= tolerance && (best == None || x.timeMS > best.value.timeMS) then Some(x) else best
  }

  function AuthorityOrServer(a: Authority): Authority {
    if a == NoAuthority then TierA else a
  }

  /** The candidate that one sound gives an observer whose snapshots are `samples`. */
  function Heard(e: CueEvent, samples: seq<CueEvent>, ear: Ear, config: Config, gunshot: bool): Option<Candidate> {
    var at := Nearest(samples, e.timeMS, config.snapshotToleranceMS);
    if at == None then None
    else
      var listener := Vector3(at.value.data.position);
      if listener == None || Vector3(e.data.position) == None then None
      else
        var verdict := if gunshot then ear.gunshot(e.data, listener.value) else ear.footstep(e.data, listener.value);
        if verdict == NotAudible then None
        else
          var (cueClass, rank) := Classify(verdict, gunshot);
          Some(Candidate(CueFact(if gunshot then GunshotAudio else FootstepAudio, e.eventID, e.timeMS,
                                 ear.describe(e.data, listener.value), AuthorityOrServer(e.authority)),
                         cueClass, rank))
  }

  predicate InLookback(o: Observation, e: CueEvent, lookback: int) {
    e.timeMS <= o.context.startedMS && o.context.startedMS - e.timeMS <= lookback
  }

  predicate IsGunshot(o: Observation, e: CueEvent, config: Config) {
    e.eventType == ShotFiredServer && InLookback(o, e, config.gunshotLookbackMS)
    && e.data.sourcePlayerID == DurableID(o.context.target)
  }

  predicate IsFootstep(o: Observation, e: CueEvent, config: Config) {
    e.eventType == MovementAudioOpportunity && InLookback(o, e, config.footstepLookbackMS)
    && (e.playerSessionID == o.context.target || e.data.sourcePlayerID == DurableID(o.context.target))
  }

  function GunshotPick(o: Observation, samples: seq<CueEvent>, ear: Ear, config: Config): CueEvent -> Option<Candidate> {
    (e: CueEvent) => if IsGunshot(o, e, config) then Heard(e, samples, ear, config, true) else None
  }

  function FootstepPick(o: Observation, samples: seq<CueEvent>, ear: Ear, config: Config): CueEvent -> Option<Candidate> {
    (e: CueEvent) => if IsFootstep(o, e, config) then Heard(e, samples, ear, config, false) else None
  }

  predicate Better(value: Candidate, current: Option<Candidate>) {
    current == None || value.rank > current.value.rank
    || (value.rank == current.value.rank && value.fact.occurredMS > current.value.fact.occurredMS)
  }

  /** The best candidate among the first n events, as the scan keeps it. */
  function Best(events: seq<CueEvent>, pick: CueEvent -> Option<Candidate>, n: nat): Option<Candidate>
    requires n <= |events|
  {
    if n == 0 then None
    else
      var best, cue := Best(events, pick, n - 1), pick(events[n - 1]);
      if cue.Some? && Better(cue.value, best) then cue else best
  }

  // ----- the index -----

  function CueEventOf(b: Batch, e: Event): CueEvent {
    CueEvent(b.serverID, b.serverSessionID, e.playerSessionID, e.eventType,
             if e.sourceEventID != "" then e.sourceEventID else b.serverSessionID + ":" + Decimal(e.serverSequence),
             e.serverTimeMS, e.authority, if e.cue.Decoded? then e.cue.value else ZERO_CUE)
  }

  function FlatBatch(b: Batch, n: nat): seq<CueEvent>
    requires n <= |b.events|
  {
    if n == 0 then [] else FlatBatch(b, n - 1) + [CueEventOf(b, b.events[n - 1])]
  }

  /** All events in the order they arrived. */
  function FlatAll(batches: seq<Batch>, n: nat): seq<CueEvent>
    requires n <= |batches|
  {
    if n == 0 then [] else FlatAll(batches, n - 1) + FlatBatch(batches[n - 1], |batches[n - 1].events|)
  }

  predicate TimeAtMost(a: CueEvent, b: CueEvent) {
    a.timeMS <= b.timeMS
  }

  lemma TimeOrder()
    ensures TotalOrder(TimeAtMost)
  {
  }

  function KeyOf(e: CueEvent): SessionKey {
    (e.serverID, e.sessionID)
  }

  function InSession(key: SessionKey): CueEvent -> bool {
    (e: CueEvent) => KeyOf(e) == key
  }

  predicate IsSnapshot(e: CueEvent) {
    e.eventType == PlayerSnapshot && |e.data.position| == 3
  }

  function PlayerOf(e: CueEvent): PlayerKey {
    (e.serverID, e.sessionID, e.playerSessionID)
  }

  function SnapshotOf(key: PlayerKey): CueEvent -> bool {
    (e: CueEvent) => IsSnapshot(e) && PlayerOf(e) == key
  }

  function SessionEvents(flat: seq<CueEvent>, key: SessionKey): seq<CueEvent> {
    SortBy(Filter(flat, InSession(key)), TimeAtMost)
  }

  function Snapshots(flat: seq<CueEvent>, key: PlayerKey): seq<CueEvent> {
    SortBy(Filter(flat, SnapshotOf(key)), TimeAtMost)
  }

  // ----- one observation -----

  function AppendUnique(values: seq<string>, value: string): seq<string> {
    if value in values then values else values + [value]
  }

  function Apply(o: Observation, selected: Option<Candidate>): Observation {
    if selected == None then o
    else
      var c := selected.value;
      o.(cueFacts := o.cueFacts + [c.fact],
         sourceEventIDs := AppendUnique(o.sourceEventIDs, c.fact.sourceEventID),
         cueClass := if ClassRank(c.cueClass) > ClassRank(o.cueClass) then c.cueClass else o.cueClass)
  }

  function EnrichWith(o: Observation, events: seq<CueEvent>, samples: seq<CueEvent>, ear: Ear, config: Config): Observation {
    if DurableID(o.context.target) == "" then o
    else Apply(Apply(o, Best(events, GunshotPick(o, samples, ear, config), |events|)),
               Best(events, FootstepPick(o, samples, ear, config), |events|))
  }

  /** The enriched observation, given every event of the archive. */
  function EnrichOne(o: Observation, flat: seq<CueEvent>, ear: Ear, config: Config): Observation {
    EnrichWith(o, SessionEvents(flat, (o.context.serverID, o.context.serverSessionID)),
               Snapshots(flat, (o.context.serverID, o.context.serverSessionID, o.context.observer)), ear, config)
  }

  // ----- the loops of the source -----

  predicate DecodableBatch(batch: Batch) {
    forall k :: 0 <= k < |batch.events| ==> !batch.events[k].cue.Malformed?
  }

  predicate Decodable(batches: seq<Batch>) {
    forall i :: 0 <= i < |batches| ==> DecodableBatch(batches[i])
  }

  function Lookup<K, V>(m: map<K, seq<V>>, k: K): seq<V> {
    if k in m then m[k] else []
  }

  predicate EventsAt(flat: seq<CueEvent>, events: map<SessionKey, seq<CueEvent>>, k: SessionKey) {
    Lookup(events, k) == Filter(flat, InSession(k))
  }

  predicate SnapshotsAt(flat: seq<CueEvent>, snapshots: map<PlayerKey, seq<CueEvent>>, k: PlayerKey) {
    Lookup(snapshots, k) == Filter(flat, SnapshotOf(k))
  }

  /** Grouped, in the order in which they came. */
  ghost predicate Indexed(flat: seq<CueEvent>, events: map<SessionKey, seq<CueEvent>>, snapshots: map<PlayerKey, seq<CueEvent>>) {
    && (forall k: SessionKey :: EventsAt(flat, events, k))
    && (forall k: PlayerKey :: SnapshotsAt(flat, snapshots, k))
  }

  predicate AnswersEvents(flat: seq<CueEvent>, events: map<SessionKey, seq<CueEvent>>, k: SessionKey) {
    Lookup(events, k) == SessionEvents(flat, k)
  }

  predicate AnswersSnapshots(flat: seq<CueEvent>, snapshots: map<PlayerKey, seq<CueEvent>>, k: PlayerKey) {
    Lookup(snapshots, k) == Snapshots(flat, k)
  }

  /** Grouped and sorted: the index answers every lookup of the archive. */
  ghost predicate Answers(flat: seq<CueEvent>, events: map<SessionKey, seq<CueEvent>>, snapshots: map<PlayerKey, seq<CueEvent>>) {
    && (forall k: SessionKey :: AnswersEvents(flat, events, k))
    && (forall k: PlayerKey :: AnswersSnapshots(flat, snapshots, k))
  }

  function WithEvent(events: map<SessionKey, seq<CueEvent>>, e: CueEvent): map<SessionKey, seq<CueEvent>> {
    events[KeyOf(e) := Lookup(events, KeyOf(e)) + [e]]
  }

  function WithSnapshot(snapshots: map<PlayerKey, seq<CueEvent>>, e: CueEvent): map<PlayerKey, seq<CueEvent>> {
    if IsSnapshot(e) then snapshots[PlayerOf(e) := Lookup(snapshots, PlayerOf(e)) + [e]] else snapshots
  }

  lemma IndexedEmpty(flat: seq<CueEvent>)
    requires flat == []
    ensures Indexed(flat, map[], map[])
  {
  }

  lemma IndexedGrows(flat: seq<CueEvent>, e: CueEvent,
                     events: map<SessionKey, seq<CueEvent>>, snapshots: map<PlayerKey, seq<CueEvent>>)
    requires Indexed(flat, events, snapshots)
    ensures Indexed(flat + [e], WithEvent(events, e), WithSnapshot(snapshots, e))
  {
    forall k: SessionKey ensures EventsAt(flat + [e], WithEvent(events, e), k) {
      FilterPush(flat, e, InSession(k));
      assert EventsAt(flat, events, k);
    }
    forall k: PlayerKey ensures SnapshotsAt(flat + [e], WithSnapshot(snapshots, e), k) {
      FilterPush(flat, e, SnapshotOf(k));
      assert SnapshotsAt(flat, snapshots, k);
    }
  }

  function SortEach<K>(groups: map<K, seq<CueEvent>>): map<K, seq<CueEvent>> {
    map k | k in groups :: SortBy(groups[k], TimeAtMost)
  }

  lemma SortEachLookup<K>(groups: map<K, seq<CueEvent>>, k: K)
    ensures Lookup(SortEach(groups), k) == SortBy(Lookup(groups, k), TimeAtMost)
  {
  }

  lemma SortedIndex(flat: seq<CueEvent>, events: map<SessionKey, seq<CueEvent>>, snapshots: map<PlayerKey, seq<CueEvent>>)
    requires Indexed(flat, events, snapshots)
    ensures Answers(flat, SortEach(events), SortEach(snapshots))
  {
    forall k: SessionKey ensures AnswersEvents(flat, SortEach(events), k) {
      SortEachLookup(events, k);
      assert EventsAt(flat, events, k);
    }
    forall k: PlayerKey ensures AnswersSnapshots(flat, SortEach(snapshots), k) {
      SortEachLookup(snapshots, k);
      assert SnapshotsAt(flat, snapshots, k);
    }
  }

  method IndexEvents(batches: seq<Batch>)
      returns (ok: bool, events: map<SessionKey, seq<CueEvent>>, snapshots: map<PlayerKey, seq<CueEvent>>)
    ensures ok <==> Decodable(batches)
    ensures ok ==> Answers(FlatAll(batches, |batches|), events, snapshots)
  {
    events, snapshots := map[], map[];
    IndexedEmpty(FlatAll(batches, 0));
    for i := 0 to |batches|
      invariant Indexed(FlatAll(batches, i), events, snapshots)
      invariant forall b :: 0 <= b < i ==> DecodableBatch(batches[b])
    {
      ok, events, snapshots := IndexBatch(batches[i], FlatAll(batches, i), events, snapshots);
      if !ok {
        return;
      }
    }
    ok := true;
    SortedIndex(FlatAll(batches, |batches|), events, snapshots);
    events, snapshots := SortEach(events), SortEach(snapshots);
  }

  method IndexBatch(batch: Batch, ghost flat: seq<CueEvent>,
                    events0: map<SessionKey, seq<CueEvent>>, snapshots0: map<PlayerKey, seq<CueEvent>>)
      returns (ok: bool, events: map<SessionKey, seq<CueEvent>>, snapshots: map<PlayerKey, seq<CueEvent>>)
    requires Indexed(flat, events0, snapshots0)
    ensures ok <==> DecodableBatch(batch)
    ensures ok ==> Indexed(flat + FlatBatch(batch, |batch.events|), events, snapshots)
  {
    events, snapshots := events0, snapshots0;
    assert flat + FlatBatch(batch, 0) == flat;
    for k := 0 to |batch.events|
      invariant Indexed(flat + FlatBatch(batch, k), events, snapshots)
      invariant forall j :: 0 <= j < k ==> !batch.events[j].cue.Malformed?
    {
      if batch.events[k].cue.Malformed? {
        ok := false;
        return;
      }
      var e := CueEventOf(batch, batch.events[k]);
      IndexedGrows(flat + FlatBatch(batch, k), e, events, snapshots);
      assert flat + FlatBatch(batch, k) + [e] == flat + FlatBatch(batch, k + 1);
      events, snapshots := WithEvent(events, e), WithSnapshot(snapshots, e);
    }
    ok := true;
  }

  lemma {:induction false} BestBeyond(events: seq<CueEvent>, pick: CueEvent -> Option<Candidate>, n: nat, m: nat)
    requires n <= m <= |events| && forall k :: n <= k < m ==> pick(events[k]) == None
    ensures Best(events, pick, m) == Best(events, pick, n)
  {
    if n < m {
      BestBeyond(events, pick, n, m - 1);
    }
  }

  /** The scan of one observation; it stops at the first event after the observation starts. */
  method ScanSounds(o: Observation, events: seq<CueEvent>, samples: seq<CueEvent>, ear: Ear, config: Config)
      returns (gunshot: Option<Candidate>, footstep: Option<Candidate>)
    requires Sorted(events, TimeAtMost)
    ensures gunshot == Best(events, GunshotPick(o, samples, ear, config), |events|)
    ensures footstep == Best(events, FootstepPick(o, samples, ear, config), |events|)
  {
    ghost var shots, steps := GunshotPick(o, samples, ear, config), FootstepPick(o, samples, ear, config);
    gunshot, footstep := None, None;
    for k := 0 to |events|
      invariant gunshot == Best(events, shots, k) && footstep == Best(events, steps, k)
    {
      var current := events[k];
      if current.timeMS > o.context.startedMS {
        forall j | k <= j < |events| ensures shots(events[j]) == None && steps(events[j]) == None {
          assert j == k || TimeAtMost(events[k], events[j]);
        }
        BestBeyond(events, shots, k, |events|);
        BestBeyond(events, steps, k, |events|);
        return;
      }
      if IsGunshot(o, current, config) {
        var cue := Heard(current, samples, ear, config, true);
        if cue.Some? && Better(cue.value, gunshot) {
          gunshot := cue;
        }
      } else if IsFootstep(o, current, config) {
        var cue := Heard(current, samples, ear, config, false);
        if cue.Some? && Better(cue.value, footstep) {
          footstep := cue;
        }
      }
    }
  }

  datatype EnrichResult = Enriched | BadConfig | BadPayload

  method EnrichFrom(o: Observation, ghost flat: seq<CueEvent>, events: map<SessionKey, seq<CueEvent>>,
                    snapshots: map<PlayerKey, seq<CueEvent>>, ear: Ear, config: Config) returns (o': Observation)
    requires Answers(flat, events, snapshots)
    ensures o' == EnrichOne(o, flat, ear, config)
  {
    if DurableID(o.context.target) == "" {
      return o;
    }
    var key := (o.context.serverID, o.context.serverSessionID);
    var found := Lookup(events, key);
    var samples := Lookup(snapshots, (o.context.serverID, o.context.serverSessionID, o.context.observer));
    assert AnswersEvents(flat, events, key);
    assert AnswersSnapshots(flat, snapshots, (o.context.serverID, o.context.serverSessionID, o.context.observer));
    TimeOrder();
    SortSorts(Filter(flat, InSession(key)), TimeAtMost);
    var gunshot, footstep := ScanSounds(o, found, samples, ear, config);
    o' := Apply(Apply(o, gunshot), footstep);
  }

  method EnrichAll(items: array<Observation>, ghost flat: seq<CueEvent>, events: map<SessionKey, seq<CueEvent>>,
                   snapshots: map<PlayerKey, seq<CueEvent>>, ear: Ear, config: Config)
    requires Answers(flat, events, snapshots)
    modifies items
    ensures items[..] == EachEnriched(old(items[..]), flat, ear, config)
  {
    ghost var was := items[..];
    ghost var goal := EachEnriched(was, flat, ear, config);
    for index := 0 to items.Length
      invariant |goal| == |was| == items.Length
      invariant forall i :: 0 <= i < index ==> items[i] == goal[i]
      invariant forall i :: index <= i < items.Length ==> items[i] == was[i]
    {
      var o := EnrichFrom(items[index], flat, events, snapshots, ear, config);
      EnrichedAt(was, flat, ear, config, index);
      items[index] := o;
    }
    assert items[..] == goal;
  }

  function EachEnriched(items: seq<Observation>, flat: seq<CueEvent>, ear: Ear, config: Config): seq<Observation> {
    seq(|items|, i requires 0 <= i < |items| => EnrichOne(items[i], flat, ear, config))
  }

  lemma EnrichedAt(items: seq<Observation>, flat: seq<CueEvent>, ear: Ear, config: Config, i: nat)
    requires i < |items|
    ensures EachEnriched(items, flat, ear, config)[i] == EnrichOne(items[i], flat, ear, config)
  {
  }

  method Enrich(items: array<Observation>, batches: seq<Batch>, ear: Ear, config: Config) returns (r: EnrichResult)
    modifies items
    ensures r == BadConfig <==> !(config.gunshotLookbackMS > 0 && config.footstepLookbackMS > 0 && config.snapshotToleranceMS > 0)
    ensures r == Enriched ==> Decodable(batches)
    ensures r == BadPayload ==> !Decodable(batches)
    ensures r != Enriched ==> items[..] == old(items[..])
    ensures r == Enriched ==> items[..] == EachEnriched(old(items[..]), FlatAll(batches, |batches|), ear, config)
  {
    if config.gunshotLookbackMS <= 0 || config.footstepLookbackMS <= 0 || config.snapshotToleranceMS <= 0 {
      return BadConfig;
    }
    var ok, events, snapshots := IndexEvents(batches);
    if !ok {
      return BadPayload;
    }
    EnrichAll(items, FlatAll(batches, |batches|), events, snapshots, ear, config);
    return Enriched;
  }

  // ----- the chosen cue is the best one -----

  lemma {:induction false} BestIs(events: seq<CueEvent>, pick: CueEvent -> Option<Candidate>, n: nat)
    requires n <= |events|
    ensures Best(events, pick, n) == None <==> forall k :: 0 <= k < n ==> pick(events[k]) == None
    ensures Best(events, pick, n).Some? ==> exists k :: 0 <= k < n && pick(events[k]) == Best(events, pick, n)
    ensures forall k :: 0 <= k < n && pick(events[k]).Some? ==>
              var c, best := pick(events[k]).value, Best(events, pick, n);
              && best.Some?
              && (c.rank < best.value.rank || (c.rank == best.value.rank && c.fact.occurredMS <= best.value.fact.occurredMS))
  {
    if n > 0 {
      BestIs(events, pick, n - 1);
    }
  }

  lemma {:induction false} NearestIs(samples: seq<CueEvent>, at: int, tolerance: int)
    ensures match Nearest(samples, at, tolerance)
            case None => forall s :: s in samples ==> !(s.timeMS <= at && at - s.timeMS <= tolerance)
            case Some(b) =>
              && b in samples && b.timeMS <= at && at - b.timeMS <= tolerance
              && forall s :: s in samples && s.timeMS <= at ==> s.timeMS <= b.timeMS
  {
    if samples != [] {
      NearestIs(samples[..|samples| - 1], at, tolerance);
      assert samples == samples[..|samples| - 1] + [samples[|samples| - 1]];
    }
  }

  /** `r` differs from `o` only by added cues and a class at least as strong. */
  ghost predicate CuesAdded(o: Observation, r: Observation) {
    && ClassRank(r.cueClass) >= ClassRank(o.cueClass)
    && o.cueFacts <= r.cueFacts && o.sourceEventIDs <= r.sourceEventIDs
    && r == o.(cueClass := r.cueClass, cueFacts := r.cueFacts, sourceEventIDs := r.sourceEventIDs)
  }

  lemma ApplyAdds(o: Observation, selected: Option<Candidate>)
    ensures CuesAdded(o, Apply(o, selected))
  {
  }

  lemma CuesAddedTwice(o: Observation, r: Observation, t: Observation)
    requires CuesAdded(o, r) && CuesAdded(r, t)
    ensures CuesAdded(o, t)
  {
  }

  /** Enriching never lowers a cue class, and touches nothing but the cue fields. */
  lemma CueClassNeverDrops(o: Observation, events: seq<CueEvent>, samples: seq<CueEvent>, ear: Ear, config: Config)
    ensures CuesAdded(o, EnrichWith(o, events, samples, ear, config))
  {
    var shot := Best(events, GunshotPick(o, samples, ear, config), |events|);
    var step := Best(events, FootstepPick(o, samples, ear, config), |events|);
    ApplyAdds(o, shot);
    ApplyAdds(Apply(o, shot), step);
    CuesAddedTwice(o, Apply(o, shot), Apply(Apply(o, shot), step));
  }

  // ----- only the past counts -----

  function Past(o: Observation): CueEvent -> bool {
    (e: CueEvent) => e.timeMS <= o.context.startedMS
  }

  lemma {:induction false} FilterSwap<T>(s: seq<T>, p: T -> bool, q: T -> bool)
    ensures Filter(Filter(s, p), q) == Filter(Filter(s, q), p)
  {
    if s != [] {
      FilterSwap(s[1..], p, q);
      assert p(s[0]) ==> ([s[0]] + Filter(s[1..], p))[1..] == Filter(s[1..], p);
      assert q(s[0]) ==> ([s[0]] + Filter(s[1..], q))[1..] == Filter(s[1..], q);
    }
  }

  lemma SortedPast(flat: seq<CueEvent>, part: CueEvent -> bool, past: CueEvent -> bool)
    ensures SortBy(Filter(Filter(flat, past), part), TimeAtMost) == Filter(SortBy(Filter(flat, part), TimeAtMost), past)
  {
    TimeOrder();
    FilterSwap(flat, past, part);
    FilterSort(Filter(flat, part), TimeAtMost, past);
  }

  lemma {:induction false} NearestPast(samples: seq<CueEvent>, at: int, tolerance: int, past: CueEvent -> bool)
    requires forall e :: e in samples && e.timeMS <= at ==> past(e)
    ensures Nearest(Filter(samples, past), at, tolerance) == Nearest(samples, at, tolerance)
  {
    if samples != [] {
      var front, x := samples[..|samples| - 1], samples[|samples| - 1];
      assert samples == front + [x] && x in samples;
      assert forall e :: e in front ==> e in samples;
      NearestPast(front, at, tolerance, past);
      FilterPush(front, x, past);
      if past(x) {
        assert Filter(samples, past) == Filter(front, past) + [x];
        assert Filter(samples, past)[..|Filter(front, past)|] == Filter(front, past);
      } else {
        assert Filter(samples, past) == Filter(front, past);
      }
    }
  }

  lemma {:induction false} BestPast(events: seq<CueEvent>, pick: CueEvent -> Option<Candidate>,
                                    pick': CueEvent -> Option<Candidate>, past: CueEvent -> bool)
    requires forall e :: e in events ==> pick'(e) == pick(e) && (pick(e).Some? ==> past(e))
    ensures Best(Filter(events, past), pick', |Filter(events, past)|) == Best(events, pick, |events|)
  {
    if events != [] {
      var front, x := events[..|events| - 1], events[|events| - 1];
      assert events == front + [x] && x in events;
      assert forall e :: e in front ==> e in events;
      BestPast(front, pick, pick', past);
      FilterPush(front, x, past);
      BestPrefix(front, x, pick, |front|);
      BestPrefix(Filter(front, past), x, pick', |Filter(front, past)|);
      if !past(x) {
        assert Filter(events, past) == Filter(front, past);
      }
    }
  }

  lemma {:induction false} BestPrefix(events: seq<CueEvent>, x: CueEvent, pick: CueEvent -> Option<Candidate>, n: nat)
    requires n <= |events|
    ensures Best(events + [x], pick, n) == Best(events, pick, n)
  {
    if n > 0 {
      BestPrefix(events, x, pick, n - 1);
    }
  }

  lemma PicksPast(o: Observation, e: CueEvent, samples: seq<CueEvent>, ear: Ear, config: Config)
    ensures GunshotPick(o, Filter(samples, Past(o)), ear, config)(e) == GunshotPick(o, samples, ear, config)(e)
    ensures FootstepPick(o, Filter(samples, Past(o)), ear, config)(e) == FootstepPick(o, samples, ear, config)(e)
    ensures GunshotPick(o, samples, ear, config)(e).Some? || FootstepPick(o, samples, ear, config)(e).Some? ==> Past(o)(e)
  {
    if e.timeMS <= o.context.startedMS {
      NearestPast(samples, e.timeMS, config.snapshotToleranceMS, Past(o));
    }
  }

  lemma EnrichWithPast(o: Observation, events: seq<CueEvent>, samples: seq<CueEvent>, ear: Ear, config: Config)
    ensures EnrichWith(o, Filter(events, Past(o)), Filter(samples, Past(o)), ear, config)
         == EnrichWith(o, events, samples, ear, config)
  {
    forall e | e in events
      ensures GunshotPick(o, Filter(samples, Past(o)), ear, config)(e) == GunshotPick(o, samples, ear, config)(e)
      ensures FootstepPick(o, Filter(samples, Past(o)), ear, config)(e) == FootstepPick(o, samples, ear, config)(e)
      ensures GunshotPick(o, samples, ear, config)(e).Some? || FootstepPick(o, samples, ear, config)(e).Some? ==> Past(o)(e)
    {
      PicksPast(o, e, samples, ear, config);
    }
    BestPast(events, GunshotPick(o, samples, ear, config), GunshotPick(o, Filter(samples, Past(o)), ear, config), Past(o));
    BestPast(events, FootstepPick(o, samples, ear, config), FootstepPick(o, Filter(samples, Past(o)), ear, config), Past(o));
  }

  /** Enrichment is a function of the events up to the observation's start, snapshots included. */
  lemma EnrichUsesOnlyPast(o: Observation, flat: seq<CueEvent>, ear: Ear, config: Config)
    ensures EnrichOne(o, Filter(flat, Past(o)), ear, config) == EnrichOne(o, flat, ear, config)
  {
    var key := (o.context.serverID, o.context.serverSessionID);
    var player := (o.context.serverID, o.context.serverSessionID, o.context.observer);
    SortedPast(flat, InSession(key), Past(o));
    SortedPast(flat, SnapshotOf(player), Past(o));
    EnrichWithPast(o, SessionEvents(flat, key), Snapshots(flat, player), ear, config);
  }

  /** Two archives that agree up to the observation's start enrich it identically. */
  lemma EnrichIsCausal(o: Observation, flat: seq<CueEvent>, flat': seq<CueEvent>, ear: Ear, config: Config)
    requires Filter(flat, Past(o)) == Filter(flat', Past(o))
    ensures EnrichOne(o, flat, ear, config) == EnrichOne(o, flat', ear, config)
  {
    EnrichUsesOnlyPast(o, flat, ear, config);
    EnrichUsesOnlyPast(o, flat', ear, config);
  }

  // ----- the order of arrival does not count -----

  /** Different events of a session have different times. */
  ghost predicate DistinctTimes(flat: seq<CueEvent>) {
    forall a, b :: a in flat && b in flat && KeyOf(a) == KeyOf(b) && a.timeMS == b.timeMS ==> a == b
  }

  lemma SamePart(flat: seq<CueEvent>, flat': seq<CueEvent>, key: SessionKey, part: CueEvent -> bool)
    requires multiset(flat) == multiset(flat') && DistinctTimes(flat)
    requires forall e :: e in flat && part(e) ==> KeyOf(e) == key
    ensures SortBy(Filter(flat, part), TimeAtMost) == SortBy(Filter(flat', part), TimeAtMost)
  {
    TimeOrder();
    FilterMultiset(flat, flat', part);
    FilterMember(flat, part);
    SortOfPermutation(Filter(flat, part), Filter(flat', part), TimeAtMost);
  }

  /** Where times are distinct, the same events enrich alike in whatever order they arrived. */
  lemma ArrivalOrderIrrelevant(o: Observation, flat: seq<CueEvent>, flat': seq<CueEvent>, ear: Ear, config: Config)
    requires multiset(flat) == multiset(flat') && DistinctTimes(flat)
    ensures EnrichOne(o, flat, ear, config) == EnrichOne(o, flat', ear, config)
  {
    var key := (o.context.serverID, o.context.serverSessionID);
    SamePart(flat, flat', key, InSession(key));
    SamePart(flat, flat', key, SnapshotOf((o.context.serverID, o.context.serverSessionID, o.context.observer)));
  }
}
