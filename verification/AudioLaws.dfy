/** Which sound an enriched observation records, and what class it gets, in terms of the archive's events alone. */
module AudioLaws {
  import opened AudioCues
  import opened Common
  import opened Observations
  import opened Sorting
  import opened Telemetry

  // ----- the target's durable id -----

  /** What follows the last colon, or everything when there is none. */
  lemma {:induction false} DurableFollowsLastColon(id: string) returns (front: string)
    ensures id == front + DurableID(id) && ':' !in DurableID(id)
    ensures front == "" || front[|front| - 1] == ':'
  {
    if id == [] || id[|id| - 1] == ':' {
      front := id;
    } else if ':' !in id {
      front := "";
    } else {
      var most, last := id[..|id| - 1], id[|id| - 1];
      front := DurableFollowsLastColon(most);
      Regrouped(front, DurableID(most), last, id);
    }
  }

  lemma Regrouped(front: string, rest: string, last: char, id: string)
    requires id != "" && id[..|id| - 1] == front + rest && id[|id| - 1] == last
    ensures id == front + (rest + [last])
  {
  }

  // ----- sounds of the target -----

  /** A shot or a step of the target, in the session of the observation and inside the lookback. */
  predicate Relevant(o: Observation, e: CueEvent, config: Config, gunshot: bool) {
    var target := o.context.target;
    && DurableID(target) != ""
    && e.serverID == o.context.serverID && e.sessionID == o.context.serverSessionID
    && e.timeMS <= o.context.startedMS <= e.timeMS + (if gunshot then config.gunshotLookbackMS else config.footstepLookbackMS)
    && e.eventType == (if gunshot then ShotFiredServer else MovementAudioOpportunity)
    && (e.data.sourcePlayerID == DurableID(target) || (!gunshot && e.playerSessionID == target))
  }

  /** A usable snapshot of the observer. */
  predicate Locates(o: Observation, s: CueEvent) {
    && s.serverID == o.context.serverID && s.sessionID == o.context.serverSessionID
    && s.playerSessionID == o.context.observer && s.eventType == PlayerSnapshot && |s.data.position| == 3
  }

  function Listener(o: Observation, flat: seq<CueEvent>, timeMS: int, config: Config): Option<CueEvent> {
    Nearest(Snapshots(flat, (o.context.serverID, o.context.serverSessionID, o.context.observer)), timeMS,
            config.snapshotToleranceMS)
  }

  /** The observer is where its latest snapshot up to then puts it, unless that is too old. */
  lemma ListenerIsLatest(o: Observation, flat: seq<CueEvent>, timeMS: int, config: Config)
    ensures match Listener(o, flat, timeMS, config)
            case None => forall s :: s in flat && Locates(o, s) ==> !(s.timeMS <= timeMS <= s.timeMS + config.snapshotToleranceMS)
            case Some(s) =>
              && s in flat && Locates(o, s) && s.timeMS <= timeMS <= s.timeMS + config.snapshotToleranceMS
              && forall s' :: s' in flat && Locates(o, s') && s'.timeMS <= timeMS ==> s'.timeMS <= s.timeMS
  {
    var key := (o.context.serverID, o.context.serverSessionID, o.context.observer);
    var samples := Snapshots(flat, key);
    NearestIs(samples, timeMS, config.snapshotToleranceMS);
    FilterMember(flat, SnapshotOf(key));
    SortPermutes(Filter(flat, SnapshotOf(key)), TimeAtMost);
    SameElements(samples, Filter(flat, SnapshotOf(key)));
    assert forall s :: s in samples <==> s in flat && Locates(o, s);
  }

  function Verdict(o: Observation, flat: seq<CueEvent>, e: CueEvent, ear: Ear, config: Config, gunshot: bool): Audibility {
    var at := Listener(o, flat, e.timeMS, config);
    if at == None || |e.data.position| != 3 || |at.value.data.position| != 3 then NotAudible
    else
      var p := at.value.data.position;
      (if gunshot then ear.gunshot else ear.footstep)(e.data, Position(p[0], p[1], p[2]))
  }

  /** Zero for a sound that is not heard; a strong shot stands above everything, a strong step only with a likely one. */
  function Loudness(v: Audibility, gunshot: bool): nat {
    match v
    case NotAudible => 0
    case Possible => 1
    case Likely => 2
    case Strong => if gunshot then 3 else 2
  }

  function LoudnessOf(o: Observation, flat: seq<CueEvent>, e: CueEvent, ear: Ear, config: Config, gunshot: bool): nat {
    if Relevant(o, e, config, gunshot) then Loudness(Verdict(o, flat, e, ear, config, gunshot), gunshot) else 0
  }

  /** The loudest heard sound of that kind, and the latest of the loudest. */
  ghost predicate IsLoudest(
      o: Observation, flat: seq<CueEvent>, ear: Ear, config: Config, gunshot: bool, sound: Option<CueEvent>)
  {
    match sound
    case None => forall e :: e in flat ==> LoudnessOf(o, flat, e, ear, config, gunshot) == 0
    case Some(b) =>
      && b in flat && LoudnessOf(o, flat, b, ear, config, gunshot) > 0
      && forall e :: e in flat ==> NotAbove(o, flat, ear, config, gunshot, e, b)
  }

  predicate NotAbove(
      o: Observation, flat: seq<CueEvent>, ear: Ear, config: Config, gunshot: bool, e: CueEvent, b: CueEvent)
  {
    var x, y := LoudnessOf(o, flat, e, ear, config, gunshot), LoudnessOf(o, flat, b, ear, config, gunshot);
    x < y || (x == y && e.timeMS <= b.timeMS)
  }

  predicate Records(fact: CueFact, e: CueEvent, gunshot: bool) {
    && fact.cueType == (if gunshot then GunshotAudio else FootstepAudio)
    && fact.sourceEventID == e.eventID && fact.occurredMS == e.timeMS
    && fact.authority == (if e.authority == NoAuthority then TierA else e.authority)
  }

  function Picker(o: Observation, flat: seq<CueEvent>, ear: Ear, config: Config, gunshot: bool): CueEvent -> Option<Candidate> {
    var samples := Snapshots(flat, (o.context.serverID, o.context.serverSessionID, o.context.observer));
    if gunshot then GunshotPick(o, samples, ear, config) else FootstepPick(o, samples, ear, config)
  }

  lemma PickIsLoudness(o: Observation, flat: seq<CueEvent>, e: CueEvent, ear: Ear, config: Config, gunshot: bool)
    requires DurableID(o.context.target) != "" && InSession((o.context.serverID, o.context.serverSessionID))(e)
    ensures var c := Picker(o, flat, ear, config, gunshot)(e);
            var loudness := LoudnessOf(o, flat, e, ear, config, gunshot);
            && (c.Some? <==> loudness > 0)
            && (c.Some? ==> c.value.rank == loudness && Records(c.value.fact, e, gunshot)
                            && c.value.cueClass == (if loudness == 3 then Known else if loudness == 2 then Plausible else Unexplained))
  {
  }

  /** `BestIs` by membership. */
  lemma BestAmong(events: seq<CueEvent>, pick: CueEvent -> Option<Candidate>)
    ensures var best := Best(events, pick, |events|);
            forall e :: e in events && pick(e).Some? ==>
              && best.Some?
              && (pick(e).value.rank < best.value.rank
                  || (pick(e).value.rank == best.value.rank && pick(e).value.fact.occurredMS <= best.value.fact.occurredMS))
    ensures Best(events, pick, |events|).Some? ==> exists e :: e in events && pick(e) == Best(events, pick, |events|)
  {
    BestIs(events, pick, |events|);
  }

  lemma SessionMember(flat: seq<CueEvent>, key: SessionKey)
    ensures forall e :: e in SessionEvents(flat, key) <==> e in flat && InSession(key)(e)
  {
    FilterMember(flat, InSession(key));
    SortPermutes(Filter(flat, InSession(key)), TimeAtMost);
  }

  function BestOfKind(o: Observation, flat: seq<CueEvent>, ear: Ear, config: Config, gunshot: bool): Option<Candidate> {
    var events := SessionEvents(flat, (o.context.serverID, o.context.serverSessionID));
    Best(events, Picker(o, flat, ear, config, gunshot), |events|)
  }

  predicate ClassedBy(c: CueClass, loudness: nat) {
    c == if loudness == 3 then Known else if loudness == 2 then Plausible else Unexplained
  }

  /** The candidate is made from that sound, or there is neither. */
  predicate MadeFrom(
      o: Observation, flat: seq<CueEvent>, ear: Ear, config: Config, gunshot: bool, c: Option<Candidate>, e: Option<CueEvent>)
  {
    && (c == None <==> e == None)
    && (c.Some? ==> Records(c.value.fact, e.value, gunshot)
                    && ClassedBy(c.value.cueClass, LoudnessOf(o, flat, e.value, ear, config, gunshot)))
  }

  lemma BestIsLoudest(o: Observation, flat: seq<CueEvent>, ear: Ear, config: Config, gunshot: bool)
      returns (sound: Option<CueEvent>)
    requires DurableID(o.context.target) != ""
    ensures IsLoudest(o, flat, ear, config, gunshot, sound)
    ensures MadeFrom(o, flat, ear, config, gunshot, BestOfKind(o, flat, ear, config, gunshot), sound)
  {
    var key := (o.context.serverID, o.context.serverSessionID);
    var events := SessionEvents(flat, key);
    var pick := Picker(o, flat, ear, config, gunshot);
    var best := Best(events, pick, |events|);
    SessionMember(flat, key);
    BestAmong(events, pick);
    forall e | e in flat && e !in events ensures LoudnessOf(o, flat, e, ear, config, gunshot) == 0 {
      assert !InSession(key)(e);
    }
    if best == None {
      sound := None;
      forall e | e in flat ensures LoudnessOf(o, flat, e, ear, config, gunshot) == 0 {
        if e in events {
          PickIsLoudness(o, flat, e, ear, config, gunshot);
        }
      }
    } else {
      var b :| b in events && pick(b) == best;
      sound := Some(b);
      PickIsLoudness(o, flat, b, ear, config, gunshot);
      forall e | e in flat ensures NotAbove(o, flat, ear, config, gunshot, e, b) {
        if e in events {
          PickIsLoudness(o, flat, e, ear, config, gunshot);
        }
      }
    }
  }

  /** What the two sounds make of the observation. */
  ghost predicate EnrichedBy(
      o: Observation, r: Observation, flat: seq<CueEvent>, ear: Ear, config: Config, shot: Option<CueEvent>, step: Option<CueEvent>)
  {
    && r == o.(cueClass := r.cueClass, cueFacts := r.cueFacts, sourceEventIDs := r.sourceEventIDs)
    && |r.cueFacts| == |o.cueFacts| + (if shot.Some? then 1 else 0) + (if step.Some? then 1 else 0)
    && o.cueFacts <= r.cueFacts
    && (shot.Some? ==> Records(r.cueFacts[|o.cueFacts|], shot.value, true) && shot.value.eventID in r.sourceEventIDs)
    && (step.Some? ==> Records(r.cueFacts[|r.cueFacts| - 1], step.value, false) && step.value.eventID in r.sourceEventIDs)
    && (r.cueClass == Known <==> o.cueClass == Known || Loud(o, flat, ear, config, true, shot, 3) || Loud(o, flat, ear, config, false, step, 3))
    && (r.cueClass == Unexplained <==>
          o.cueClass == Unexplained && !Loud(o, flat, ear, config, true, shot, 2) && !Loud(o, flat, ear, config, false, step, 2))
  }

  predicate Loud(
      o: Observation, flat: seq<CueEvent>, ear: Ear, config: Config, gunshot: bool, sound: Option<CueEvent>, least: nat)
  {
    sound.Some? && LoudnessOf(o, flat, sound.value, ear, config, gunshot) >= least
  }

  lemma NothingRelevant(o: Observation, flat: seq<CueEvent>, ear: Ear, config: Config, gunshot: bool)
    requires DurableID(o.context.target) == ""
    ensures IsLoudest(o, flat, ear, config, gunshot, None)
  {
  }

  lemma AppliedBy(
      o: Observation, flat: seq<CueEvent>, ear: Ear, config: Config,
      c: Option<Candidate>, d: Option<Candidate>, shot: Option<CueEvent>, step: Option<CueEvent>)
    requires MadeFrom(o, flat, ear, config, true, c, shot) && MadeFrom(o, flat, ear, config, false, d, step)
    ensures EnrichedBy(o, Apply(Apply(o, c), d), flat, ear, config, shot, step)
  {
  }

  /**
   An enriched observation records the loudest audible shot and the loudest audible step of its target within the
   lookbacks, the latest of equally loud ones, and its class rises to what these two explain.
   */
  lemma EnrichmentIsLoudest(o: Observation, flat: seq<CueEvent>, ear: Ear, config: Config)
      returns (shot: Option<CueEvent>, step: Option<CueEvent>)
    ensures IsLoudest(o, flat, ear, config, true, shot) && IsLoudest(o, flat, ear, config, false, step)
    ensures EnrichedBy(o, EnrichOne(o, flat, ear, config), flat, ear, config, shot, step)
  {
    if DurableID(o.context.target) == "" {
      shot, step := None, None;
      NothingRelevant(o, flat, ear, config, true);
      NothingRelevant(o, flat, ear, config, false);
    } else {
      shot := BestIsLoudest(o, flat, ear, config, true);
      step := BestIsLoudest(o, flat, ear, config, false);
      AppliedBy(o, flat, ear, config, BestOfKind(o, flat, ear, config, true), BestOfKind(o, flat, ear, config, false), shot, step);
    }
  }

  // ----- the archive -----

  /** The index entry of an event of a batch. */
  predicate Indexes(b: Batch, x: Event, e: CueEvent) {
    && e.serverID == b.serverID && e.sessionID == b.serverSessionID && e.playerSessionID == x.playerSessionID
    && e.eventType == x.eventType && e.timeMS == x.serverTimeMS && e.authority == x.authority
    && (x.cue.Decoded? ==> e.data == x.cue.value)
    && (!x.cue.Decoded? ==> e.data.sourcePlayerID == "" && e.data.position == [])
    && e.eventID == (if x.sourceEventID != "" then x.sourceEventID else b.serverSessionID + ":" + Decimal(x.serverSequence))
  }

  lemma {:induction false} BatchIsIndexed(b: Batch, n: nat)
    requires n <= |b.events|
    ensures |AudioCues.FlatBatch(b, n)| == n
    ensures forall k :: 0 <= k < n ==> Indexes(b, b.events[k], AudioCues.FlatBatch(b, n)[k])
  {
    if n > 0 {
      BatchIsIndexed(b, n - 1);
    }
  }

  /** The archive of the ledger is every event of every batch, batch by batch. */
  lemma {:induction false} ArchiveIsIndexed(batches: seq<Batch>, n: nat, i: nat, k: nat) returns (at: nat)
    requires i < n <= |batches| && k < |batches[i].events|
    ensures at < |AudioCues.FlatAll(batches, n)| && Indexes(batches[i], batches[i].events[k], AudioCues.FlatAll(batches, n)[at])
  {
    var b := batches[n - 1];
    BatchIsIndexed(b, |b.events|);
    if i == n - 1 {
      at := |AudioCues.FlatAll(batches, n - 1)| + k;
    } else {
      at := ArchiveIsIndexed(batches, n - 1, i, k);
    }
  }

  /** Nothing else is in it. */
  lemma {:induction false} IndexedIsArchived(batches: seq<Batch>, n: nat, e: CueEvent) returns (b: Batch, x: Event)
    requires n <= |batches| && e in AudioCues.FlatAll(batches, n)
    ensures b in batches && x in b.events && Indexes(b, x, e)
  {
    b := batches[n - 1];
    var part := AudioCues.FlatBatch(b, |b.events|);
    if e in part {
      BatchIsIndexed(b, |b.events|);
      var k :| 0 <= k < |part| && part[k] == e;
      x := b.events[k];
    } else {
      b, x := IndexedIsArchived(batches, n - 1, e);
    }
  }
}
