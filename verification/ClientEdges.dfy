/** What client decision edges can and cannot change, and where eligible evidence comes from. */
module ClientEdges {
  import opened Builder
  import opened Common
  import opened EvidenceLaws
  import opened Independence
  import opened Observations
  import opened Sorting
  import opened Telemetry

  function NotEdge(): FlatEvent -> bool {
    (e: FlatEvent) => e.event.eventType != DecisionEdge
  }

  /**
   `o'` is what remains of `o` without client edges: the same opportunity in the same context with the
   same cue and exposure; only the outcome and its consequences differ, and every flag of `o` stays.
   */
  ghost predicate SameButOutcome(o: Observation, o': Observation) {
    && o'.observationID == o.observationID && o'.opportunityID == o.opportunityID
    && o'.context == o.context && o'.exposure == o.exposure
    && o'.cueClass == o.cueClass && o'.cueFacts == o.cueFacts
    && o'.independent == o.independent && o'.episode == o.episode && o'.encounter == o.encounter
    && !o'.outcome.observed
    && (o.timingEligible ==> o'.timingEligible)
    && (o.strongHidden ==> o'.strongHidden)
    && (o.control ==> o'.control)
    && (o.positiveControl ==> o'.positiveControl)
  }

  ghost predicate AllSameButOutcome(obs: seq<Observation>, obs': seq<Observation>) {
    |obs| == |obs'| && forall i :: 0 <= i < |obs| ==> SameButOutcome(obs[i], obs'[i])
  }

  lemma {:induction false} NoMatchFilter<T>(s: seq<T>, p: T -> bool, keep: T -> bool)
    requires forall x :: x in s && keep(x) ==> !p(x)
    ensures FirstMatch(Filter(s, keep), p) == None
  {
    FilterMember(s, keep);
    FirstMatchIs(Filter(s, keep), p);
  }

  lemma CueWithoutEdges(before: seq<FlatEvent>, current: FlatEvent)
    ensures CueOf(current, Filter(before, NotEdge())) == CueOf(current, before)
  {
    LastMatchFilter(before, CueTest(current), NotEdge());
  }

  lemma OutcomeWithoutEdges(after: seq<FlatEvent>, current: FlatEvent, closedMS: int)
    ensures OutcomeOf(current, closedMS, Filter(after, NotEdge())) == None
  {
    NoMatchFilter(after, OutcomeTest(current, closedMS), NotEdge());
  }

  lemma ExposureWithoutEdges(after: seq<FlatEvent>, current: FlatEvent)
    ensures ExposureOf(current, Filter(after, NotEdge())) == ExposureOf(current, after)
  {
    FirstMatchFilter(after, ExposureTest(current), NotEdge());
  }

  lemma FindWithoutEdges(before: seq<FlatEvent>, current: FlatEvent, after: seq<FlatEvent>, config: Config)
    ensures Find(Filter(before, NotEdge()), current, Filter(after, NotEdge()), config)
         == Find(before, current, after, config).(edge := None)
  {
    CueWithoutEdges(before, current);
    OutcomeWithoutEdges(after, current, Started(current) + config.decisionWindowMS);
    ExposureWithoutEdges(after, current);
  }

  lemma AssembleWithoutEdge(current: FlatEvent, config: Config, found: Findings)
    ensures SameButOutcome(Assemble(current, config, found), Assemble(current, config, found.(edge := None)))
  {
  }

  lemma OneWithoutEdges(before: seq<FlatEvent>, e: FlatEvent, tail: seq<FlatEvent>, config: Config)
    ensures SameButOutcome(ObservationOf(before, e, tail, config),
                           ObservationOf(Filter(before, NotEdge()), e, Filter(tail, NotEdge()), config))
  {
    FindWithoutEdges(before, e, tail, config);
    AssembleWithoutEdge(e, config, Find(before, e, tail, config));
  }

  lemma OneSameButOutcome(before: seq<FlatEvent>, e: FlatEvent, tail: seq<FlatEvent>, config: Config)
    ensures AllSameButOutcome(ObserveOne(before, [e] + tail, config),
                              ObserveOne(Filter(before, NotEdge()), [e] + Filter(tail, NotEdge()), config))
  {
    OneWithoutEdges(before, e, tail, config);
    assert ([e] + tail)[1..] == tail && ([e] + Filter(tail, NotEdge()))[1..] == Filter(tail, NotEdge());
  }

  lemma JoinSameButOutcome(x: seq<Observation>, x': seq<Observation>, y: seq<Observation>, y': seq<Observation>)
    requires AllSameButOutcome(x, x') && AllSameButOutcome(y, y')
    ensures AllSameButOutcome(x + y, x' + y')
  {
  }

  lemma {:induction false} ObserveWithoutEdges(before: seq<FlatEvent>, rest: seq<FlatEvent>, config: Config)
    ensures AllSameButOutcome(Observe(before, rest, config),
                              Observe(Filter(before, NotEdge()), Filter(rest, NotEdge()), config))
    decreases |rest|
  {
    if rest != [] {
      ObserveWithoutEdges(before + [rest[0]], rest[1..], config);
      EdgesStep(before, rest[0], rest[1..], config);
      assert rest == [rest[0]] + rest[1..];
    }
  }

  lemma EdgeDropped(before: seq<FlatEvent>, e: FlatEvent, tail: seq<FlatEvent>, config: Config)
    requires !NotEdge()(e)
    ensures Observe(before, [e] + tail, config) == Observe(before + [e], tail, config)
    ensures Filter(before + [e], NotEdge()) == Filter(before, NotEdge())
    ensures Filter([e] + tail, NotEdge()) == Filter(tail, NotEdge())
  {
    assert ([e] + tail)[1..] == tail;
    FilterPush(before, e, NotEdge());
    FilterUnfold([e] + tail, NotEdge());
    ObserveUnfold(before, [e] + tail, config);
  }

  lemma OtherKept(before: seq<FlatEvent>, e: FlatEvent, tail: seq<FlatEvent>)
    requires NotEdge()(e)
    ensures Filter(before + [e], NotEdge()) == Filter(before, NotEdge()) + [e]
    ensures Filter([e] + tail, NotEdge()) == [e] + Filter(tail, NotEdge())
  {
    assert ([e] + tail)[1..] == tail;
    FilterPush(before, e, NotEdge());
    FilterUnfold([e] + tail, NotEdge());
  }

  lemma ObserveFirst(before: seq<FlatEvent>, e: FlatEvent, tail: seq<FlatEvent>, config: Config)
    ensures Observe(before, [e] + tail, config) == ObserveOne(before, [e] + tail, config) + Observe(before + [e], tail, config)
  {
    assert ([e] + tail)[1..] == tail;
    ObserveUnfold(before, [e] + tail, config);
  }

  lemma EdgesStep(before: seq<FlatEvent>, e: FlatEvent, tail: seq<FlatEvent>, config: Config)
    requires AllSameButOutcome(Observe(before + [e], tail, config),
                               Observe(Filter(before + [e], NotEdge()), Filter(tail, NotEdge()), config))
    ensures AllSameButOutcome(Observe(before, [e] + tail, config),
                              Observe(Filter(before, NotEdge()), Filter([e] + tail, NotEdge()), config))
  {
    if NotEdge()(e) {
      var before', tail' := Filter(before, NotEdge()), Filter(tail, NotEdge());
      OtherKept(before, e, tail);
      ObserveFirst(before, e, tail, config);
      ObserveFirst(before', e, tail', config);
      OneSameButOutcome(before, e, tail, config);
      JoinSameButOutcome(ObserveOne(before, [e] + tail, config), ObserveOne(before', [e] + tail', config),
                         Observe(before + [e], tail, config), Observe(before' + [e], tail', config));
    } else {
      EdgeDropped(before, e, tail, config);
    }
  }

  lemma {:induction false} SweepStatesAgree(obs: seq<Observation>, obs': seq<Observation>, config: Config, n: nat)
    requires AllSameButOutcome(obs, obs') && n <= |obs|
    ensures LastKept(obs', config.refractoryMS, n) == LastKept(obs, config.refractoryMS, n)
    ensures Groups(obs', config, n) == Groups(obs, config, n)
  {
    if n > 0 {
      SweepStatesAgree(obs, obs', config, n - 1);
      assert SameButOutcome(obs[n - 1], obs'[n - 1]);
    }
  }

  lemma SweepAgrees(obs: seq<Observation>, obs': seq<Observation>, config: Config)
    requires AllSameButOutcome(obs, obs')
    ensures AllSameButOutcome(AllAssigned(obs, config), AllAssigned(obs', config))
  {
    forall i | 0 <= i < |obs| ensures SameButOutcome(Assigned(obs, config, i), Assigned(obs', config, i)) {
      SweepStatesAgree(obs, obs', config, i);
      SweepStatesAgree(obs, obs', config, i + 1);
      assert SameButOutcome(obs[i], obs'[i]);
    }
  }

  /**
   Deleting every decision edge leaves the same observations, with the same cues, independence,
   episodes and encounters; no observation was eligible only because of an edge.
   */
  lemma EdgesOnlyAddOutcomes(events: seq<FlatEvent>, config: Config)
    ensures AllSameButOutcome(Evidence(events, config), Evidence(Filter(events, NotEdge()), config))
  {
    ObserveWithoutEdges([], events, config);
    SweepAgrees(Observe([], events, config), Observe([], Filter(events, NotEdge()), config), config);
  }

  // ----- where eligible evidence comes from -----

  predicate Eligible(o: Observation) {
    o.strongHidden || o.control || o.positiveControl
  }

  /** Every piece of evidence is an opportunity of the timeline, with flags that the sweep can only clear. */
  lemma EvidenceOrigin(events: seq<FlatEvent>, config: Config, o: Observation) returns (e: FlatEvent)
    requires o in Evidence(events, config)
    ensures e in events && IsOpportunity(e)
    ensures o.opportunityID == e.id && o.context == ContextOf(e, config)
    ensures o.strongHidden ==> o.timingEligible && StrongHidden(o.context)
    ensures o.control ==> o.timingEligible && NeutralControl(o.context)
    ensures o.positiveControl ==> o.timingEligible && PositiveControl(o.context)
  {
    var obs := Observe([], events, config);
    var i :| 0 <= i < |obs| && AllAssigned(obs, config)[i] == o;
    assert obs[i] in obs;
    var before, after;
    e, before, after := ObserveOrigin([], events, config, obs[i]);
  }

  lemma {:induction false} FlatOrigin(batches: seq<Batch>, n: nat, f: FlatEvent) returns (b: Batch, e: Event)
    requires n <= |batches| && f in FlatAll(batches, n)
    ensures b in batches && e in b.events && f == Flat(b, e)
  {
    var last := batches[n - 1];
    if f in FlatBatch(last, |last.events|) {
      b := last;
      e := FlatBatchOrigin(last, |last.events|, f);
    } else {
      b, e := FlatOrigin(batches, n - 1, f);
    }
  }

  lemma {:induction false} FlatBatchOrigin(b: Batch, n: nat, f: FlatEvent) returns (e: Event)
    requires n <= |b.events| && f in FlatBatch(b, n)
    ensures e in b.events && f == Flat(b, e)
  {
    if f == Flat(b, b.events[n - 1]) {
      e := b.events[n - 1];
    } else {
      e := FlatBatchOrigin(b, n - 1, f);
    }
  }

  /** In accepted batches, eligible evidence always rests on an event the server itself produced. */
  lemma EligibleIsServerAuthored(batches: seq<Batch>, config: Config, o: Observation) returns (b: Batch, e: Event)
    requires AllAccepted(batches)
    requires o in Evidence(Timeline(batches), config) && Eligible(o)
    ensures b in batches && e in b.events && o.opportunityID == Flat(b, e).id
    ensures e.source == Server && e.authority == TierA
    ensures e.eventType == VisibilityObservation || e.eventType == SamplingOpportunity
  {
    var f := EvidenceOrigin(Timeline(batches), config, o);
    SortPermutes(FlatAll(batches, |batches|), EventAtMost);
    b, e := FlatOrigin(batches, |batches|, f);
    TierAIsFromServer(b, e);
  }

  /** Hidden opportunities and controls are disjoint kinds of evidence. */
  lemma KindsAreExclusive(events: seq<FlatEvent>, config: Config, o: Observation)
    requires o in Evidence(events, config)
    ensures !(o.strongHidden && o.control) && !(o.strongHidden && o.positiveControl) && !(o.control && o.positiveControl)
  {
    var e := EvidenceOrigin(events, config, o);
  }
}
