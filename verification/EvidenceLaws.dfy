/** What the built evidence does and does not depend on. */
module EvidenceLaws {
  import opened Builder
  import opened Common
  import opened Independence
  import opened Observations
  import opened Sorting
  import opened Telemetry

  // ----- searches over filtered sequences -----

  lemma {:induction false} FirstMatchFilter<T>(s: seq<T>, p: T -> bool, keep: T -> bool)
    requires forall x :: x in s && p(x) ==> keep(x)
    ensures FirstMatch(Filter(s, keep), p) == FirstMatch(s, p)
  {
    if s != [] {
      assert forall x :: x in s[1..] ==> x in s;
      assert s[0] in s;
      FirstMatchFilter(s[1..], p, keep);
      if keep(s[0]) {
        assert ([s[0]] + Filter(s[1..], keep))[1..] == Filter(s[1..], keep);
      }
    }
  }

  lemma {:induction false} LastMatchFilter<T>(s: seq<T>, p: T -> bool, keep: T -> bool)
    requires forall x :: x in s && p(x) ==> keep(x)
    ensures LastMatch(Filter(s, keep), p) == LastMatch(s, p)
  {
    if s != [] {
      var front, last := s[..|s| - 1], s[|s| - 1];
      assert forall x :: x in front ==> x in s;
      assert last in s;
      LastMatchFilter(front, p, keep);
      FilterAppend(front, [last], keep);
      assert s == front + [last];
      assert [last][1..] == [];
      var f := Filter(front, keep);
      if keep(last) {
        assert Filter(s, keep) == f + [last];
        assert (f + [last])[..|f|] == f;
      } else {
        assert Filter(s, keep) == f;
      }
    }
  }

  // ----- a choice of sessions -----

  /** A server and one of its sessions. */
  type Session = (string, string)

  /** A choice of sessions, by server and server session. */
  type Choice = (string, string) -> bool

  function SessionOf(e: FlatEvent): Session {
    (e.serverID, e.sessionID)
  }

  function OfEvent(keep: Choice): FlatEvent -> bool {
    (e: FlatEvent) => keep(e.serverID, e.sessionID)
  }

  function OfObservation(keep: Choice): Observation -> bool {
    (o: Observation) => keep(o.context.serverID, o.context.serverSessionID)
  }

  lemma CueFilter(before: seq<FlatEvent>, current: FlatEvent, keep: Choice)
    requires OfEvent(keep)(current)
    ensures CueOf(current, Filter(before, OfEvent(keep))) == CueOf(current, before)
  {
    LastMatchFilter(before, CueTest(current), OfEvent(keep));
  }

  lemma OutcomeFilter(current: FlatEvent, after: seq<FlatEvent>, closedMS: int, keep: Choice)
    requires OfEvent(keep)(current)
    ensures OutcomeOf(current, closedMS, Filter(after, OfEvent(keep))) == OutcomeOf(current, closedMS, after)
  {
    FirstMatchFilter(after, OutcomeTest(current, closedMS), OfEvent(keep));
  }

  lemma ExposureFilter(current: FlatEvent, after: seq<FlatEvent>, keep: Choice)
    requires OfEvent(keep)(current)
    ensures ExposureOf(current, Filter(after, OfEvent(keep))) == ExposureOf(current, after)
  {
    FirstMatchFilter(after, ExposureTest(current), OfEvent(keep));
  }

  lemma FindFilter(before: seq<FlatEvent>, current: FlatEvent, after: seq<FlatEvent>, config: Config, keep: Choice)
    requires OfEvent(keep)(current)
    ensures Find(Filter(before, OfEvent(keep)), current, Filter(after, OfEvent(keep)), config)
         == Find(before, current, after, config)
  {
    CueFilter(before, current, keep);
    OutcomeFilter(current, after, Started(current) + config.decisionWindowMS, keep);
    ExposureFilter(current, after, keep);
  }

  function ObserveOne(before: seq<FlatEvent>, rest: seq<FlatEvent>, config: Config): seq<Observation>
    requires rest != []
  {
    if IsOpportunity(rest[0]) then [ObservationOf(before, rest[0], rest[1..], config)] else []
  }

  lemma ObserveOneFilter(before: seq<FlatEvent>, rest: seq<FlatEvent>, config: Config, keep: Choice)
    requires rest != []
    ensures Filter(ObserveOne(before, rest, config), OfObservation(keep))
         == if OfEvent(keep)(rest[0])
            then ObserveOne(Filter(before, OfEvent(keep)), Filter(rest, OfEvent(keep)), config) else []
  {
    var e, tail, k := rest[0], rest[1..], OfEvent(keep);
    if k(e) {
      FindFilter(before, e, tail, config, keep);
      assert ([e] + Filter(tail, k))[1..] == Filter(tail, k);
    }
  }

  lemma ObserveUnfold(before: seq<FlatEvent>, rest: seq<FlatEvent>, config: Config)
    requires rest != []
    ensures Observe(before, rest, config) == ObserveOne(before, rest, config) + Observe(before + [rest[0]], rest[1..], config)
  {
  }

  lemma FilterUnfold<T>(s: seq<T>, keep: T -> bool)
    requires s != []
    ensures Filter(s, keep) == (if keep(s[0]) then [s[0]] else []) + Filter(s[1..], keep)
  {
  }

  /** Building a choice of sessions gives exactly their observations, before the sweep. */
  lemma {:induction false} ObserveFilter(before: seq<FlatEvent>, rest: seq<FlatEvent>, config: Config, keep: Choice)
    ensures Observe(Filter(before, OfEvent(keep)), Filter(rest, OfEvent(keep)), config)
         == Filter(Observe(before, rest, config), OfObservation(keep))
    decreases |rest|
  {
    if rest != [] {
      ObserveFilter(before + [rest[0]], rest[1..], config, keep);
      ObserveFilterStep(before, rest, config, keep);
    }
  }

  lemma ObserveFilterStep(before: seq<FlatEvent>, rest: seq<FlatEvent>, config: Config, keep: Choice)
    requires rest != []
    requires Observe(Filter(before + [rest[0]], OfEvent(keep)), Filter(rest[1..], OfEvent(keep)), config)
          == Filter(Observe(before + [rest[0]], rest[1..], config), OfObservation(keep))
    ensures Observe(Filter(before, OfEvent(keep)), Filter(rest, OfEvent(keep)), config)
         == Filter(Observe(before, rest, config), OfObservation(keep))
  {
    var e, tail, k := rest[0], rest[1..], OfEvent(keep);
    FilterPush(before, e, k);
    FilterUnfold(rest, k);
    ObserveUnfold(before, rest, config);
    ObserveOneFilter(before, rest, config, keep);
    FilterAppend(ObserveOne(before, rest, config), Observe(before + [e], tail, config), OfObservation(keep));
    if k(e) {
      assert Filter(rest, k)[1..] == Filter(tail, k);
      ObserveUnfold(Filter(before, k), Filter(rest, k), config);
    } else {
      assert Filter(before, k) + [] == Filter(before, k);
      assert [] + Filter(tail, k) == Filter(tail, k);
    }
  }

  // ----- the refractory sweep on a part of the observations -----

  /** Observations that share an observer or a pair key are kept or dropped together. */
  ghost predicate Separable(obs: seq<Observation>, keep: Observation -> bool) {
    forall a, b :: a in obs && b in obs && (a.context.observer == b.context.observer || PairKey(a) == PairKey(b)) ==>
      keep(a) == keep(b)
  }

  /** The sweep's answer for an observation that follows `earlier`. */
  function AssignedAfter(earlier: seq<Observation>, o: Observation, config: Config): Observation {
    Assigned(earlier + [o], config, |earlier|)
  }

  lemma AssignedPrefix(obs: seq<Observation>, o: Observation, config: Config, i: nat)
    requires i < |obs|
    ensures Assigned(obs + [o], config, i) == Assigned(obs, config, i)
  {
    LastKeptPrefix(obs, o, config.refractoryMS, i);
    GroupsPrefix(obs, o, config, i + 1);
  }

  lemma AllAssignedGrows(obs: seq<Observation>, o: Observation, config: Config)
    ensures AllAssigned(obs + [o], config) == AllAssigned(obs, config) + [AssignedAfter(obs, o, config)]
  {
    forall i | 0 <= i < |obs| ensures AllAssigned(obs + [o], config)[i] == AllAssigned(obs, config)[i] {
      AssignedPrefix(obs, o, config, i);
    }
  }

  ghost predicate SameAt<V>(m: map<string, V>, m': map<string, V>, k: string) {
    (k in m <==> k in m') && (k in m ==> m[k] == m'[k])
  }

  ghost predicate KeepsObserver(obs: seq<Observation>, keep: Observation -> bool, observer: string) {
    forall a :: a in obs && a.context.observer == observer ==> keep(a)
  }

  ghost predicate KeepsPair(obs: seq<Observation>, keep: Observation -> bool, pair: string) {
    forall a :: a in obs && PairKey(a) == pair ==> keep(a)
  }

  lemma LastKeptStep(obs: seq<Observation>, obs': seq<Observation>, o: Observation, refractory: int, observer: string)
    requires SameAt(LastKept(obs, refractory, |obs|), LastKept(obs', refractory, |obs'|), observer)
    ensures SameAt(LastKept(obs + [o], refractory, |obs| + 1), LastKept(obs' + [o], refractory, |obs'| + 1), observer)
    ensures o.context.observer != observer ==>
              SameAt(LastKept(obs + [o], refractory, |obs| + 1), LastKept(obs', refractory, |obs'|), observer)
  {
    LastKeptPrefix(obs, o, refractory, |obs|);
    LastKeptPrefix(obs', o, refractory, |obs'|);
  }

  lemma {:induction false} LastKeptPrefix(obs: seq<Observation>, o: Observation, refractory: int, n: nat)
    requires n <= |obs|
    ensures LastKept(obs + [o], refractory, n) == LastKept(obs, refractory, n)
  {
    if n > 0 {
      LastKeptPrefix(obs, o, refractory, n - 1);
    }
  }

  lemma {:induction false} GroupsPrefix(obs: seq<Observation>, o: Observation, config: Config, n: nat)
    requires n <= |obs|
    ensures Groups(obs + [o], config, n) == Groups(obs, config, n)
  {
    if n > 0 {
      GroupsPrefix(obs, o, config, n - 1);
    }
  }

  lemma GroupsStep(obs: seq<Observation>, obs': seq<Observation>, o: Observation, config: Config, pair: string)
    requires SameAt(Groups(obs, config, |obs|), Groups(obs', config, |obs'|), pair)
    ensures SameAt(Groups(obs + [o], config, |obs| + 1), Groups(obs' + [o], config, |obs'| + 1), pair)
    ensures PairKey(o) != pair ==> SameAt(Groups(obs + [o], config, |obs| + 1), Groups(obs', config, |obs'|), pair)
  {
    GroupsPrefix(obs, o, config, |obs|);
    GroupsPrefix(obs', o, config, |obs'|);
  }

  /** What the sweep remembers about a kept observer or pair is what the kept observations alone would leave. */
  lemma {:induction false} LastKeptFilter(obs: seq<Observation>, refractory: int, keep: Observation -> bool, observer: string)
    requires KeepsObserver(obs, keep, observer)
    ensures SameAt(LastKept(obs, refractory, |obs|), LastKept(Filter(obs, keep), refractory, |Filter(obs, keep)|), observer)
  {
    if obs != [] {
      var front, last := obs[..|obs| - 1], obs[|obs| - 1];
      assert obs == front + [last] && last in obs;
      assert forall a :: a in front ==> a in obs;
      LastKeptFilter(front, refractory, keep, observer);
      FilterPush(front, last, keep);
      LastKeptStep(front, Filter(front, keep), last, refractory, observer);
      if keep(last) {
        assert Filter(obs, keep) == Filter(front, keep) + [last];
      } else {
        assert Filter(obs, keep) == Filter(front, keep);
      }
    }
  }

  lemma {:induction false} GroupsFilter(obs: seq<Observation>, config: Config, keep: Observation -> bool, pair: string)
    requires KeepsPair(obs, keep, pair)
    ensures SameAt(Groups(obs, config, |obs|), Groups(Filter(obs, keep), config, |Filter(obs, keep)|), pair)
  {
    if obs != [] {
      var front, last := obs[..|obs| - 1], obs[|obs| - 1];
      assert obs == front + [last] && last in obs;
      assert forall a :: a in front ==> a in obs;
      GroupsFilter(front, config, keep, pair);
      FilterPush(front, last, keep);
      GroupsStep(front, Filter(front, keep), last, config, pair);
      if keep(last) {
        assert Filter(obs, keep) == Filter(front, keep) + [last];
      } else {
        assert Filter(obs, keep) == Filter(front, keep);
      }
    }
  }

  lemma AssignedAfterFilter(obs: seq<Observation>, o: Observation, config: Config, keep: Observation -> bool)
    requires KeepsObserver(obs, keep, o.context.observer) && KeepsPair(obs, keep, PairKey(o))
    ensures AssignedAfter(Filter(obs, keep), o, config) == AssignedAfter(obs, o, config)
  {
    var kept := Filter(obs, keep);
    LastKeptFilter(obs, config.refractoryMS, keep, o.context.observer);
    GroupsFilter(obs, config, keep, PairKey(o));
    LastKeptPrefix(obs, o, config.refractoryMS, |obs|);
    LastKeptPrefix(kept, o, config.refractoryMS, |kept|);
    GroupsPrefix(obs, o, config, |obs|);
    GroupsPrefix(kept, o, config, |kept|);
  }

  /** The sweep of the kept observations is the kept part of the sweep. */
  lemma {:induction false} AssignFilter(obs: seq<Observation>, config: Config, keep: Choice)
    requires Separable(obs, OfObservation(keep))
    ensures AllAssigned(Filter(obs, OfObservation(keep)), config) == Filter(AllAssigned(obs, config), OfObservation(keep))
  {
    if obs != [] {
      var k := OfObservation(keep);
      var front, last := obs[..|obs| - 1], obs[|obs| - 1];
      assert obs == front + [last] && last in obs;
      assert forall a :: a in front ==> a in obs;
      AssignFilter(front, config, keep);
      FilterPush(front, last, k);
      AllAssignedGrows(front, last, config);
      var swept := AssignedAfter(front, last, config);
      FilterPush(AllAssigned(front, config), swept, k);
      assert k(swept) == k(last);
      if k(last) {
        AssignedAfterFilter(front, last, config, k);
        AllAssignedGrows(Filter(front, k), last, config);
      } else {
        assert Filter(obs, k) == Filter(front, k);
      }
    }
  }

  // ----- sessions do not influence each other -----

  function EventPairKey(e: FlatEvent): string {
    e.event.playerSessionID + "|" + TargetSession(e)
  }

  /** Two opportunities whose observations the sweep compares. */
  predicate Compared(a: FlatEvent, b: FlatEvent) {
    && IsOpportunity(a) && IsOpportunity(b)
    && (a.event.playerSessionID == b.event.playerSessionID || EventPairKey(a) == EventPairKey(b))
  }

  /** Opportunities of different sessions share neither an observer nor a pair key. */
  ghost predicate PlayersUnshared(events: seq<FlatEvent>) {
    forall a, b :: a in events && b in events && Compared(a, b) ==> SameSession(a, b)
  }

  /** Every observation is built from an opportunity of the timeline and keeps its session and player. */
  lemma {:induction false} ObserveOrigin(before: seq<FlatEvent>, rest: seq<FlatEvent>, config: Config, o: Observation)
      returns (e: FlatEvent, b: seq<FlatEvent>, a: seq<FlatEvent>)
    requires o in Observe(before, rest, config)
    ensures e in rest && IsOpportunity(e) && o == ObservationOf(b, e, a, config)
    ensures forall x :: x in a ==> x in rest
    decreases |rest|
  {
    ObserveUnfold(before, rest, config);
    if o in ObserveOne(before, rest, config) {
      e, b, a := rest[0], before, rest[1..];
    } else {
      e, b, a := ObserveOrigin(before + [rest[0]], rest[1..], config, o);
    }
  }

  lemma ObservedEvent(events: seq<FlatEvent>, config: Config, o: Observation) returns (e: FlatEvent)
    requires o in Observe([], events, config)
    ensures e in events && IsOpportunity(e) && o.context == ContextOf(e, config)
  {
    var b, a;
    e, b, a := ObserveOrigin([], events, config, o);
  }

  lemma ObserveSeparable(events: seq<FlatEvent>, config: Config, keep: Choice)
    requires PlayersUnshared(events)
    ensures Separable(Observe([], events, config), OfObservation(keep))
  {
    var obs := Observe([], events, config);
    forall o, o' | o in obs && o' in obs && (o.context.observer == o'.context.observer || PairKey(o) == PairKey(o'))
      ensures OfObservation(keep)(o) == OfObservation(keep)(o')
    {
      var e := ObservedEvent(events, config, o);
      var e' := ObservedEvent(events, config, o');
      assert Compared(e, e');
    }
  }

  /** Building any choice of sessions alone gives exactly the observations of those sessions. */
  lemma SessionsAreIndependent(events: seq<FlatEvent>, config: Config, keep: Choice)
    requires PlayersUnshared(events)
    ensures Evidence(Filter(events, OfEvent(keep)), config) == Filter(Evidence(events, config), OfObservation(keep))
  {
    ObserveFilter([], events, config, keep);
    ObserveSeparable(events, config, keep);
    AssignFilter(Observe([], events, config), config, keep);
  }

  // ----- exactly when they do not -----

  /** The sweep of the chosen observations is the chosen part of the sweep. */
  ghost predicate SweepSplits(obs: seq<Observation>, config: Config, k: Observation -> bool) {
    AllAssigned(Filter(obs, k), config) == Filter(AllAssigned(obs, config), k)
  }

  /** Then each chosen observation is treated as if only the chosen ones before it had been there. */
  lemma {:induction false} SplitAt(obs: seq<Observation>, config: Config, keep: Choice, n: nat)
    requires SweepSplits(obs, config, OfObservation(keep)) && n < |obs| && OfObservation(keep)(obs[n])
    ensures AssignedAfter(Filter(obs[..n], OfObservation(keep)), obs[n], config) == AssignedAfter(obs[..n], obs[n], config)
    decreases |obs|
  {
    var k := OfObservation(keep);
    var front, last := obs[..|obs| - 1], obs[|obs| - 1];
    assert obs == front + [last];
    FilterPush(front, last, k);
    AllAssignedGrows(front, last, config);
    FilterPush(AllAssigned(front, config), AssignedAfter(front, last, config), k);
    if k(last) {
      AllAssignedGrows(Filter(front, k), last, config);
      LastOf(AllAssigned(Filter(front, k), config), AssignedAfter(Filter(front, k), last, config),
             Filter(AllAssigned(front, config), k), AssignedAfter(front, last, config));
    } else {
      assert Filter(obs, k) == Filter(front, k);
    }
    if n < |front| {
      assert front[..n] == obs[..n] && front[n] == obs[n];
      SplitAt(front, config, keep, n);
    }
  }

  lemma LastOf<T>(s: seq<T>, x: T, t: seq<T>, y: T)
    requires s + [x] == t + [y]
    ensures s == t && x == y
  {
    assert (s + [x])[..|s|] == s && (t + [y])[..|t|] == t;
    assert (s + [x])[|s|] == x && (t + [y])[|t|] == y;
  }

  function SessionIn(o: Observation): Session {
    (o.context.serverID, o.context.serverSessionID)
  }

  /** The first observation that passes the test in another session than the ones before it that pass. */
  lemma {:induction false} FirstElsewhere(obs: seq<Observation>, test: Observation -> bool, a: Observation, b: Observation)
      returns (i: nat, j: nat)
    requires a in obs && b in obs && test(a) && test(b) && SessionIn(a) != SessionIn(b)
    ensures i < j < |obs| && test(obs[i]) && test(obs[j]) && SessionIn(obs[i]) != SessionIn(obs[j])
    ensures forall m :: 0 <= m < j && test(obs[m]) ==> SessionIn(obs[m]) == SessionIn(obs[i])
  {
    var n := |obs| - 1;
    var front := obs[..n];
    assert obs == front + [obs[n]];
    if x, y :| x in front && y in front && test(x) && test(y) && SessionIn(x) != SessionIn(y) {
      i, j := FirstElsewhere(front, test, x, y);
    } else {
      j := n;
      var other := if a in front then a else b;
      assert other in front;
      i :| 0 <= i < n && front[i] == other;
      forall m | 0 <= m < j && test(obs[m]) ensures SessionIn(obs[m]) == SessionIn(obs[i]) {
        assert front[m] in front;
      }
    }
  }

  ghost predicate StartedBy(obs: seq<Observation>, n: nat, observer: string, startedMS: int)
    requires n <= |obs|
  {
    exists m :: 0 <= m < n && obs[m].context.observer == observer && Start(obs, m) == startedMS
  }

  lemma {:induction false} LastKeptSeen(obs: seq<Observation>, refractory: int, n: nat, observer: string)
    requires n <= |obs|
    ensures observer in LastKept(obs, refractory, n) <==> exists m :: 0 <= m < n && obs[m].context.observer == observer
    ensures observer in LastKept(obs, refractory, n) ==> StartedBy(obs, n, observer, LastKept(obs, refractory, n)[observer])
  {
    if n > 0 {
      LastKeptSeen(obs, refractory, n - 1, observer);
    }
  }

  ghost predicate GroupFrom(obs: seq<Observation>, n: nat, pair: string, state: GroupState)
    requires n <= |obs|
  {
    state.episode >= 1 && exists m :: 0 <= m < n && PairKey(obs[m]) == pair && Start(obs, m) == state.lastMS
  }

  lemma {:induction false} GroupsSeen(obs: seq<Observation>, config: Config, n: nat, pair: string)
    requires n <= |obs|
    ensures pair in Groups(obs, config, n) <==> exists m :: 0 <= m < n && PairKey(obs[m]) == pair
    ensures pair in Groups(obs, config, n) ==> GroupFrom(obs, n, pair, Groups(obs, config, n)[pair])
  {
    if n > 0 {
      GroupsSeen(obs, config, n - 1, pair);
    }
  }

  /** The observations before the j-th, and of those the ones of its own session. */
  lemma NoneBefore(obs: seq<Observation>, test: Observation -> bool, i: nat, j: nat, k: Observation -> bool)
    requires i < j < |obs| && SessionIn(obs[i]) != SessionIn(obs[j]) && k == OfObservation(Only(SessionIn(obs[j])))
    requires forall m :: 0 <= m < j && test(obs[m]) ==> SessionIn(obs[m]) == SessionIn(obs[i])
    ensures forall m :: 0 <= m < |Filter(obs[..j], k)| ==> !test(Filter(obs[..j], k)[m])
  {
    var mine := Filter(obs[..j], k);
    FilterMember(obs[..j], k);
    forall m | 0 <= m < |mine| ensures !test(mine[m]) {
      assert mine[m] in mine;
      var at :| 0 <= at < j && obs[at] == mine[m];
    }
  }

  function HasObserver(observer: string): Observation -> bool {
    (o: Observation) => o.context.observer == observer
  }

  function HasPairKey(pair: string): Observation -> bool {
    (o: Observation) => PairKey(o) == pair
  }

  lemma ObserverLeaks(obs: seq<Observation>, config: Config, i: nat, j: nat)
    requires i < j < |obs| && SameObserver(obs, i, j) && SessionIn(obs[i]) != SessionIn(obs[j]) && obs[j].independent
    requires forall m :: 0 <= m < j && SameObserver(obs, m, j) ==> SessionIn(obs[m]) == SessionIn(obs[i])
    requires forall m :: 0 <= m < j ==> Start(obs, j) - Start(obs, m) < config.refractoryMS
    ensures !SweepSplits(obs, config, OfObservation(Only(SessionIn(obs[j]))))
  {
    var keep, o := Only(SessionIn(obs[j])), obs[j];
    var k := OfObservation(keep);
    var before := obs[..j];
    var mine := Filter(before, k);
    NoneBefore(obs, HasObserver(o.context.observer), i, j, k);
    LastKeptSeen(mine, config.refractoryMS, |mine|, o.context.observer);
    LastKeptPrefix(mine, o, config.refractoryMS, |mine|);
    assert AssignedAfter(mine, o, config).independent;
    LastKeptSeen(before, config.refractoryMS, j, o.context.observer);
    LastKeptPrefix(before, o, config.refractoryMS, j);
    assert before[i] == obs[i];
    var last := LastKept(before, config.refractoryMS, j)[o.context.observer];
    var m :| 0 <= m < j && before[m].context.observer == o.context.observer && Start(before, m) == last;
    assert Start(obs, j) - Start(obs, m) < config.refractoryMS;
    assert !AssignedAfter(before, o, config).independent;
    if SweepSplits(obs, config, k) {
      SplitAt(obs, config, keep, j);
    }
  }

  lemma PairKeyLeaks(obs: seq<Observation>, config: Config, i: nat, j: nat)
    requires i < j < |obs| && PairKey(obs[i]) == PairKey(obs[j]) && SessionIn(obs[i]) != SessionIn(obs[j])
    requires forall m :: 0 <= m < j && PairKey(obs[m]) == PairKey(obs[j]) ==> SessionIn(obs[m]) == SessionIn(obs[i])
    requires forall m :: 0 <= m < j ==> Start(obs, j) - Start(obs, m) > config.episodeGapMS
    ensures !SweepSplits(obs, config, OfObservation(Only(SessionIn(obs[j]))))
  {
    var keep, o := Only(SessionIn(obs[j])), obs[j];
    var k := OfObservation(keep);
    var before := obs[..j];
    var mine := Filter(before, k);
    NoneBefore(obs, HasPairKey(PairKey(o)), i, j, k);
    GroupsSeen(mine, config, |mine|, PairKey(o));
    GroupsPrefix(mine, o, config, |mine|);
    assert AssignedAfter(mine, o, config).episode == 1;
    GroupsSeen(before, config, j, PairKey(o));
    GroupsPrefix(before, o, config, j);
    assert before[i] == obs[i];
    var state := Groups(before, config, j)[PairKey(o)];
    var m :| 0 <= m < j && PairKey(before[m]) == PairKey(o) && Start(before, m) == state.lastMS;
    assert Start(obs, j) - Start(obs, m) > config.episodeGapMS;
    assert AssignedAfter(before, o, config).episode >= 2;
    if SweepSplits(obs, config, k) {
      SplitAt(obs, config, keep, j);
    }
  }

  /** No opportunity starts further from zero than this. */
  function Reach(events: seq<FlatEvent>): int {
    if events == [] then 0
    else Max(Reach(events[1..]), if Started(events[0]) < 0 then -Started(events[0]) else Started(events[0]))
  }

  lemma {:induction false} ReachIs(events: seq<FlatEvent>, e: FlatEvent)
    requires e in events
    ensures -Reach(events) <= Started(e) <= Reach(events)
  {
    if e != events[0] {
      ReachIs(events[1..], e);
    }
  }

  lemma {:induction false} OpportunityIsObserved(before: seq<FlatEvent>, rest: seq<FlatEvent>, config: Config, e: FlatEvent)
      returns (o: Observation)
    requires e in rest && IsOpportunity(e)
    ensures o in Observe(before, rest, config) && o.context == ContextOf(e, config)
    decreases |rest|
  {
    ObserveUnfold(before, rest, config);
    if e == rest[0] {
      o := ObservationOf(before, e, rest[1..], config);
      assert o in ObserveOne(before, rest, config);
    } else {
      o := OpportunityIsObserved(before + [rest[0]], rest[1..], config, e);
    }
  }

  lemma ObservedWithinReach(events: seq<FlatEvent>, config: Config)
    ensures forall o :: o in Observe([], events, config) ==>
              o.independent && -Reach(events) <= o.context.startedMS <= Reach(events)
  {
    forall o | o in Observe([], events, config)
      ensures o.independent && -Reach(events) <= o.context.startedMS <= Reach(events)
    {
      var e, before, after := ObserveOrigin([], events, config, o);
      ReachIs(events, e);
    }
  }

  /** A long refractory time, and episodes that end at a gap of this length. */
  function Sensitive(events: seq<FlatEvent>, episodeGapMS: int): Config {
    Config(1, 2 * Reach(events) + 1, episodeGapMS, 1, 1, 1, "any")
  }

  ghost predicate Independent(events: seq<FlatEvent>, config: Config, keep: Choice) {
    Evidence(Filter(events, OfEvent(keep)), config) == Filter(Evidence(events, config), OfObservation(keep))
  }

  lemma SharedObserverLeaks(obs: seq<Observation>, config: Config, x: Observation, y: Observation) returns (keep: Choice)
    requires x in obs && y in obs && x.context.observer == y.context.observer && SessionIn(x) != SessionIn(y)
    requires forall o :: o in obs ==> o.independent
    requires forall o, o' :: o in obs && o' in obs ==> o.context.startedMS - o'.context.startedMS < config.refractoryMS
    ensures !SweepSplits(obs, config, OfObservation(keep))
  {
    var i, j := FirstElsewhere(obs, HasObserver(x.context.observer), x, y);
    keep := Only(SessionIn(obs[j]));
    assert forall m :: 0 <= m < |obs| ==> obs[m] in obs;
    ObserverLeaks(obs, config, i, j);
  }

  lemma SharedKeyLeaks(obs: seq<Observation>, config: Config, x: Observation, y: Observation) returns (keep: Choice)
    requires x in obs && y in obs && PairKey(x) == PairKey(y) && SessionIn(x) != SessionIn(y)
    requires forall o, o' :: o in obs && o' in obs ==> o.context.startedMS - o'.context.startedMS > config.episodeGapMS
    ensures !SweepSplits(obs, config, OfObservation(keep))
  {
    var i, j := FirstElsewhere(obs, HasPairKey(PairKey(x)), x, y);
    keep := Only(SessionIn(obs[j]));
    assert forall m :: 0 <= m < |obs| ==> obs[m] in obs;
    PairKeyLeaks(obs, config, i, j);
  }

  lemma SharedPlayersLeak(events: seq<FlatEvent>, a: FlatEvent, b: FlatEvent) returns (config: Config, keep: Choice)
    requires a in events && b in events && Compared(a, b) && !SameSession(a, b)
    ensures !Independent(events, config, keep)
    ensures a.event.playerSessionID == b.event.playerSessionID ==> ConfigAccepted(config)
  {
    var sameObserver := a.event.playerSessionID == b.event.playerSessionID;
    ReachIs(events, a);
    config := Sensitive(events, if sameObserver then 1 else -2 * Reach(events) - 1);
    var obs := Observe([], events, config);
    var x := OpportunityIsObserved([], events, config, a);
    var y := OpportunityIsObserved([], events, config, b);
    ObservedWithinReach(events, config);
    if sameObserver {
      keep := SharedObserverLeaks(obs, config, x, y);
    } else {
      keep := SharedKeyLeaks(obs, config, x, y);
    }
    ObserveFilter([], events, config, keep);
  }

  /** No observer id of an opportunity contains the separator of the pair keys. */
  ghost predicate NoBars(events: seq<FlatEvent>) {
    forall a :: a in events && IsOpportunity(a) ==> NoBar(a.event.playerSessionID)
  }

  /** Without separators, only opportunities of one observer are compared. */
  lemma ComparedWithoutBars(events: seq<FlatEvent>, a: FlatEvent, b: FlatEvent)
    requires NoBars(events) && a in events && b in events && Compared(a, b)
    ensures a.event.playerSessionID == b.event.playerSessionID
  {
    if EventPairKey(a) == EventPairKey(b) {
      BarSplits(a.event.playerSessionID, TargetSession(a), b.event.playerSessionID, TargetSession(b));
    }
  }

  /**
   Sessions can be built apart, in every choice and under every configuration, if and only if no two of them share an
   observer or a pair key among their opportunities; without separators in the observer ids, the configurations that
   `Build` accepts are enough.
   */
  lemma SessionsAreIndependentExactlyWhen(events: seq<FlatEvent>)
    ensures (forall config, keep :: Independent(events, config, keep)) <==> PlayersUnshared(events)
    ensures NoBars(events) ==>
              ((forall config, keep :: ConfigAccepted(config) ==> Independent(events, config, keep)) <==> PlayersUnshared(events))
  {
    if PlayersUnshared(events) {
      forall config, keep ensures Independent(events, config, keep) {
        SessionsAreIndependent(events, config, keep);
      }
    } else {
      var a, b :| a in events && b in events && Compared(a, b) && !SameSession(a, b);
      var config, keep := SharedPlayersLeak(events, a, b);
      assert !Independent(events, config, keep);
      if NoBars(events) {
        ComparedWithoutBars(events, a, b);
      }
    }
  }

  /** What is observed of two opportunities and nothing else. */
  lemma TwoOpportunities(a: FlatEvent, b: FlatEvent, config: Config) returns (o: Observation, p: Observation)
    requires IsOpportunity(a) && IsOpportunity(b)
    ensures Observe([], [a, b], config) == [o, p] && o.context == ContextOf(a, config) && p.context == ContextOf(b, config)
  {
    o, p := ObservationOf([], a, [b], config), ObservationOf([a], b, [], config);
    assert [a, b][1..] == [b] && [b][1..] == [] && [] + [a] == [a];
    ObserveUnfold([], [a, b], config);
    ObserveUnfold([a], [b], config);
    assert Observe([a] + [b], [], config) == [];
  }

  /**
   With a separator inside an id two sessions are not independent although they share no player: "a|b" facing "c" and
   "a" facing "b|c" have the pair key "a|b|c", and the second one's episode is numbered after the first one's.
   */
  lemma SharedPairKeyLeaks(a: FlatEvent, b: FlatEvent, config: Config)
    requires IsOpportunity(a) && IsOpportunity(b) && !SameSession(a, b)
    requires a.event.playerSessionID == "a|b" && TargetSession(a) == "c"
    requires b.event.playerSessionID == "a" && TargetSession(b) == "b|c"
    requires Started(b) - Started(a) > config.episodeGapMS
    ensures !Independent([a, b], config, Only(SessionOf(b)))
  {
    var o, p := TwoOpportunities(a, b, config);
    assert PairKey(o) == "a|b|c" && PairKey(p) == "a|b|c";
    PairKeyLeaks([o, p], config, 0, 1);
    ObserveFilter([], [a, b], config, Only(SessionOf(b)));
  }

  // ----- refractory windows -----

  lemma QuotientBounds(a: int, r: int)
    requires r > 0 && a >= 0
    ensures r * (a / r) <= a < r * (a / r) + r
  {
  }

  lemma TimesMonotone(r: int, x: int, y: int)
    requires r > 0 && x <= y
    ensures r * x <= r * y
  {
  }

  lemma QuotientsDiffer(a: int, b: int, r: int)
    requires r > 0 && 0 <= a && b - a >= r
    ensures 0 <= Quotient(a, r) < Quotient(b, r)
  {
    QuotientBounds(a, r);
    QuotientBounds(b, r);
    if b / r <= a / r {
      TimesMonotone(r, b / r, a / r);
    }
  }

  lemma WindowIDsDiffer(observer: string, a: int, b: int, config: Config)
    requires config.refractoryMS > 0 && 0 <= a && b - a >= config.refractoryMS
    ensures RefractoryWindowID(observer, a, config) != RefractoryWindowID(observer, b, config)
  {
    QuotientsDiffer(a, b, config.refractoryMS);
    var x, y := Quotient(a, config.refractoryMS), Quotient(b, config.refractoryMS);
    var front := "refractory" + ['\0'] + (observer + ['\0']);
    assert RefractoryWindowID(observer, a, config) == front + Decimal(x);
    assert RefractoryWindowID(observer, b, config) == front + Decimal(y);
    if front + Decimal(x) == front + Decimal(y) {
      assert Decimal(x) == (front + Decimal(x))[|front|..] && Decimal(y) == (front + Decimal(y))[|front|..];
      DecimalInjective(x, y);
      assert false;
    }
  }

  /** Independent observations of one observer never share a refractory window id. */
  lemma IndependentWindowsDiffer(events: seq<FlatEvent>, config: Config, i: nat, j: nat)
    requires config.refractoryMS > 0 && forall e :: e in events ==> e.event.serverTimeMS >= 0
    requires i < j < |Evidence(events, config)|
    requires var a, b := Evidence(events, config)[i], Evidence(events, config)[j];
             a.independent && b.independent && a.context.observer == b.context.observer
    ensures Evidence(events, config)[i].context.names.refractoryWindowID
         != Evidence(events, config)[j].context.names.refractoryWindowID
  {
    var obs := Observe([], events, config);
    assert obs[i] in obs && obs[j] in obs;
    var e := ObservedEvent(events, config, obs[i]);
    var f := ObservedEvent(events, config, obs[j]);
    IndependentAreSeparated(obs, config, i, j);
    WindowIDsDiffer(obs[i].context.observer, Started(e), Started(f), config);
  }

  // ----- batches -----

  function OfBatch(keep: Choice): Batch -> bool {
    (b: Batch) => keep(b.serverID, b.serverSessionID)
  }

  lemma {:induction false} FlatBatchSession(b: Batch, n: nat, keep: Choice)
    requires n <= |b.events|
    ensures Filter(FlatBatch(b, n), OfEvent(keep)) == if OfBatch(keep)(b) then FlatBatch(b, n) else []
  {
    if n > 0 {
      FlatBatchSession(b, n - 1, keep);
      FilterPush(FlatBatch(b, n - 1), Flat(b, b.events[n - 1]), OfEvent(keep));
    }
  }

  lemma {:induction false} FlatAllPrefix(batches: seq<Batch>, more: seq<Batch>, n: nat)
    requires n <= |batches|
    ensures FlatAll(batches + more, n) == FlatAll(batches, n)
  {
    if n > 0 {
      FlatAllPrefix(batches, more, n - 1);
    }
  }

  lemma FlatAllPush(batches: seq<Batch>, b: Batch)
    ensures FlatAll(batches + [b], |batches| + 1) == FlatAll(batches, |batches|) + FlatBatch(b, |b.events|)
  {
    FlatAllPrefix(batches, [b], |batches|);
  }

  lemma {:induction false} FlatAllFilter(batches: seq<Batch>, keep: Choice)
    ensures FlatAll(Filter(batches, OfBatch(keep)), |Filter(batches, OfBatch(keep))|)
         == Filter(FlatAll(batches, |batches|), OfEvent(keep))
  {
    if batches != [] {
      var front, last := batches[..|batches| - 1], batches[|batches| - 1];
      assert batches == front + [last];
      FlatAllFilter(front, keep);
      FilterPush(front, last, OfBatch(keep));
      FlatAllPush(front, last);
      FilterAppend(FlatAll(front, |front|), FlatBatch(last, |last.events|), OfEvent(keep));
      FlatBatchSession(last, |last.events|, keep);
      if OfBatch(keep)(last) {
        FlatAllPush(Filter(front, OfBatch(keep)), last);
      } else {
        assert Filter(batches, OfBatch(keep)) == Filter(front, OfBatch(keep));
      }
    }
  }

  lemma TimelineFilter(batches: seq<Batch>, keep: Choice)
    ensures Timeline(Filter(batches, OfBatch(keep))) == Filter(Timeline(batches), OfEvent(keep))
  {
    EventOrder();
    FlatAllFilter(batches, keep);
    FilterSort(FlatAll(batches, |batches|), EventAtMost, OfEvent(keep));
  }

  /** The evidence of a whole archive, restricted to some sessions, is the evidence of those sessions' batches. */
  lemma ArchiveSplitsBySession(batches: seq<Batch>, config: Config, keep: Choice)
    requires PlayersUnshared(Timeline(batches))
    ensures Evidence(Timeline(Filter(batches, OfBatch(keep))), config)
         == Filter(Evidence(Timeline(batches), config), OfObservation(keep))
  {
    TimelineFilter(batches, keep);
    SessionsAreIndependent(Timeline(batches), config, keep);
  }

  lemma FilterAll<T>(s: seq<T>, keep: T -> bool)
    requires forall x :: x in s ==> keep(x)
    ensures Filter(s, keep) == s
  {
    if s != [] {
      assert s[0] in s;
      FilterAll(s[1..], keep);
    }
  }

  lemma FilterNone<T>(s: seq<T>, keep: T -> bool)
    requires forall x :: x in s ==> !keep(x)
    ensures Filter(s, keep) == []
  {
    if s != [] {
      assert s[0] in s;
      FilterNone(s[1..], keep);
    }
  }

  lemma FilterParts<T>(x: seq<T>, y: seq<T>, keep: T -> bool)
    requires (forall t :: t in x ==> keep(t)) && (forall t :: t in y ==> !keep(t))
    ensures Filter(x + y, keep) == x
  {
    FilterAppend(x, y, keep);
    FilterAll(x, keep);
    FilterNone(y, keep);
  }

  lemma FilterPartsLast<T>(x: seq<T>, y: seq<T>, keep: T -> bool)
    requires (forall t :: t in x ==> !keep(t)) && (forall t :: t in y ==> keep(t))
    ensures Filter(x + y, keep) == y
  {
    FilterAppend(x, y, keep);
    FilterNone(x, keep);
    FilterAll(y, keep);
  }

  function SessionsOf(events: seq<FlatEvent>): set<(string, string)> {
    set e | e in events :: (e.serverID, e.sessionID)
  }

  function Inside(sessions: set<(string, string)>): Choice {
    (server, session) => (server, session) in sessions
  }

  function Outside(sessions: set<(string, string)>): Choice {
    (server, session) => (server, session) !in sessions
  }

  predicate From(sessions: set<(string, string)>, o: Observation) {
    (o.context.serverID, o.context.serverSessionID) in sessions
  }

  lemma ObserveParts(left: seq<FlatEvent>, right: seq<FlatEvent>, config: Config) returns (p: seq<Observation>, q: seq<Observation>)
    requires forall a, b :: a in left && b in right ==> !SameSession(a, b)
    ensures Observe([], left + right, config) == p + q
    ensures forall o :: o in p ==> From(SessionsOf(left), o)
    ensures forall o :: o in q ==> !From(SessionsOf(left), o)
  {
    p := ObserveAppend([], left, right, config);
    q := Observe([] + left, right, config);
    forall o | o in q ensures !From(SessionsOf(left), o) {
      var e, _, _ := ObserveOrigin([] + left, right, config, o);
    }
  }

  lemma SweepKeepsContext(obs: seq<Observation>, config: Config)
    ensures |AllAssigned(obs, config)| == |obs|
    ensures forall i :: 0 <= i < |obs| ==> AllAssigned(obs, config)[i].context == obs[i].context
  {
  }

  lemma SweepParts(p: seq<Observation>, q: seq<Observation>, sessions: set<(string, string)>, config: Config)
      returns (x: seq<Observation>, y: seq<Observation>)
    requires forall o :: o in p ==> From(sessions, o)
    requires forall o :: o in q ==> !From(sessions, o)
    ensures AllAssigned(p + q, config) == x + y
    ensures forall o :: o in x ==> From(sessions, o)
    ensures forall o :: o in y ==> !From(sessions, o)
  {
    var all, n := AllAssigned(p + q, config), |p|;
    x, y := all[..n], all[n..];
    SweepKeepsContext(p + q, config);
    forall i | 0 <= i < n ensures From(sessions, x[i]) {
      assert (p + q)[i] == p[i] && p[i] in p;
    }
    forall i | 0 <= i < |y| ensures !From(sessions, y[i]) {
      assert (p + q)[n + i] == q[i] && q[i] in q;
    }
  }

  /** A timeline cut between sessions: its evidence is the evidence of the two parts, one after the other. */
  lemma SessionsConcatenate(left: seq<FlatEvent>, right: seq<FlatEvent>, config: Config)
    requires PlayersUnshared(left + right)
    requires forall a, b :: a in left && b in right ==> !SameSession(a, b)
    ensures Evidence(left + right, config) == Evidence(left, config) + Evidence(right, config)
  {
    var keep, drop := Inside(SessionsOf(left)), Outside(SessionsOf(left));
    var p, q := ObserveParts(left, right, config);
    var x, y := SweepParts(p, q, SessionsOf(left), config);
    SessionsAreIndependent(left + right, config, keep);
    SessionsAreIndependent(left + right, config, drop);
    EventParts(left, right);
    ObservationParts(x, y, SessionsOf(left));
  }

  lemma EventParts(left: seq<FlatEvent>, right: seq<FlatEvent>)
    requires forall a, b :: a in left && b in right ==> !SameSession(a, b)
    ensures Filter(left + right, OfEvent(Inside(SessionsOf(left)))) == left
    ensures Filter(left + right, OfEvent(Outside(SessionsOf(left)))) == right
  {
    FilterParts(left, right, OfEvent(Inside(SessionsOf(left))));
    FilterPartsLast(left, right, OfEvent(Outside(SessionsOf(left))));
  }

  lemma ObservationParts(x: seq<Observation>, y: seq<Observation>, sessions: set<(string, string)>)
    requires (forall o :: o in x ==> From(sessions, o)) && (forall o :: o in y ==> !From(sessions, o))
    ensures Filter(x + y, OfObservation(Inside(sessions))) == x
    ensures Filter(x + y, OfObservation(Outside(sessions))) == y
  {
    FilterParts(x, y, OfObservation(Inside(sessions)));
    FilterPartsLast(x, y, OfObservation(Outside(sessions)));
  }

  /** Every one of these observations is of a session that has an event here. */
  ghost predicate ObservedIn(obs: seq<Observation>, events: seq<FlatEvent>) {
    forall o :: o in obs ==> From(SessionsOf(events), o)
  }

  lemma OneObservedIn(before: seq<FlatEvent>, rest: seq<FlatEvent>, config: Config)
    requires rest != []
    ensures forall o :: o in ObserveOne(before, rest, config) ==> SessionIn(o) == SessionOf(rest[0])
  {
  }

  lemma HeadObservedIn(one: seq<Observation>, tail: seq<Observation>, left: seq<FlatEvent>)
    requires left != [] && (forall o :: o in one ==> SessionIn(o) == SessionOf(left[0])) && ObservedIn(tail, left[1..])
    ensures ObservedIn(one + tail, left)
  {
    assert left[0] in left && SessionOf(left[0]) in SessionsOf(left);
    assert SessionsOf(left[1..]) <= SessionsOf(left);
  }

  lemma ObserveHead(before: seq<FlatEvent>, left: seq<FlatEvent>, right: seq<FlatEvent>, config: Config)
      returns (one: seq<Observation>)
    requires left != []
    ensures Observe(before, left + right, config) == one + Observe(before + [left[0]], left[1..] + right, config)
    ensures forall o :: o in one ==> SessionIn(o) == SessionOf(left[0])
  {
    one := ObserveOne(before, left + right, config);
    ObserveUnfold(before, left + right, config);
    OneObservedIn(before, left + right, config);
    assert (left + right)[1..] == left[1..] + right && (left + right)[0] == left[0];
  }

  lemma {:induction false} ObserveAppend(before: seq<FlatEvent>, left: seq<FlatEvent>, right: seq<FlatEvent>, config: Config)
      returns (p: seq<Observation>)
    ensures Observe(before, left + right, config) == p + Observe(before + left, right, config)
    ensures ObservedIn(p, left)
    decreases |left|
  {
    if left == [] {
      p := [];
      assert left + right == right && before + left == before;
    } else {
      var one := ObserveHead(before, left, right, config);
      var tail := ObserveAppend(before + [left[0]], left[1..], right, config);
      assert before + [left[0]] + left[1..] == before + left;
      p := one + tail;
      Regroup(one, tail, Observe(before + left, right, config));
      HeadObservedIn(one, tail, left);
    }
  }

  // ----- an archive of many sessions -----

  predicate SessionLess(a: Session, b: Session) {
    if a.0 != b.0 then StringLess(a.0, b.0) else StringLess(a.1, b.1)
  }

  predicate InSessionOrder(sessions: seq<Session>) {
    forall i, j :: 0 <= i < j < |sessions| ==> SessionLess(sessions[i], sessions[j])
  }

  function Only(one: Session): Choice {
    (server, session) => (server, session) == one
  }

  function AllBut(one: Session): Choice {
    (server, session) => (server, session) != one
  }

  /** Each session's batches built on their own, and the results put one after the other. */
  function EvidenceBySession(batches: seq<Batch>, sessions: seq<Session>, config: Config): seq<Observation> {
    if sessions == [] then []
    else EvidenceBySession(batches, sessions[..|sessions| - 1], config)
         + Evidence(Timeline(Filter(batches, OfBatch(Only(sessions[|sessions| - 1])))), config)
  }

  lemma {:induction false} FilterFilter<T>(s: seq<T>, p: T -> bool, q: T -> bool)
    requires forall x :: x in s && q(x) ==> p(x)
    ensures Filter(Filter(s, p), q) == Filter(s, q)
  {
    if s != [] {
      assert s[0] in s && forall x :: x in s[1..] ==> x in s;
      FilterFilter(s[1..], p, q);
      if p(s[0]) {
        FilterUnfold([s[0]] + Filter(s[1..], p), q);
        assert ([s[0]] + Filter(s[1..], p))[1..] == Filter(s[1..], p);
      }
    }
  }

  /** Once q holds it holds to the end; so the sequence is its part without q followed by its part with q. */
  lemma {:induction false} FilterSplits<T>(s: seq<T>, p: T -> bool, q: T -> bool)
    requires forall x :: x in s ==> p(x) == !q(x)
    requires forall i, j :: 0 <= i < j < |s| && q(s[i]) ==> q(s[j])
    ensures s == Filter(s, p) + Filter(s, q)
  {
    if s != [] {
      assert s == [s[0]] + s[1..] && s[0] in s && forall x :: x in s[1..] ==> x in s;
      if q(s[0]) {
        forall x | x in s ensures q(x) {
          var k :| 0 <= k < |s| && s[k] == x;
        }
        FilterNone(s, p);
        FilterAll(s, q);
      } else {
        FilterSplits(s[1..], p, q);
      }
    }
  }

  lemma SessionOrderFollows(a: FlatEvent, b: FlatEvent, last: Session)
    requires EventAtMost(a, b) && SessionOf(a) == last && (SessionOf(b) == last || SessionLess(SessionOf(b), last))
    ensures SessionOf(b) == last
  {
    StringTrichotomy(a.serverID, b.serverID);
    StringTrichotomy(a.sessionID, b.sessionID);
  }

  /** The events of the last session are the end of the timeline. */
  lemma LastSessionSplits(batches: seq<Batch>, last: Session)
    requires forall e :: e in Timeline(batches) ==> SessionOf(e) == last || SessionLess(SessionOf(e), last)
    ensures Timeline(batches)
         == Timeline(Filter(batches, OfBatch(AllBut(last)))) + Timeline(Filter(batches, OfBatch(Only(last))))
  {
    var t, p, q := Timeline(batches), OfEvent(AllBut(last)), OfEvent(Only(last));
    TimelineFilter(batches, AllBut(last));
    TimelineFilter(batches, Only(last));
    EventOrder();
    SortSorts(FlatAll(batches, |batches|), EventAtMost);
    forall i, j | 0 <= i < j < |t| && q(t[i]) ensures q(t[j]) {
      SessionOrderFollows(t[i], t[j], last);
    }
    FilterSplits(t, p, q);
  }

  lemma {:induction false} OtherSessionsAlone(batches: seq<Batch>, last: Session, sessions: seq<Session>, config: Config)
    requires last !in sessions
    ensures EvidenceBySession(Filter(batches, OfBatch(AllBut(last))), sessions, config)
         == EvidenceBySession(batches, sessions, config)
  {
    if sessions != [] {
      var one := sessions[|sessions| - 1];
      OtherSessionsAlone(batches, last, sessions[..|sessions| - 1], config);
      FilterFilter(batches, OfBatch(AllBut(last)), OfBatch(Only(one)));
    }
  }

  /** Of an archive whose last session is known: that session's batches, and the rest. */
  lemma LastSessionLast(batches: seq<Batch>, sessions: seq<Session>)
    requires sessions != [] && InSessionOrder(sessions) && forall e :: e in Timeline(batches) ==> SessionOf(e) in sessions
    ensures var last := sessions[|sessions| - 1];
            && (forall e :: e in Timeline(batches) ==> SessionOf(e) == last || SessionLess(SessionOf(e), last))
            && (forall e :: e in Filter(Timeline(batches), OfEvent(AllBut(last))) ==>
                  e in Timeline(batches) && SessionOf(e) in sessions[..|sessions| - 1])
            && (forall e :: e in Filter(Timeline(batches), OfEvent(Only(last))) ==>
                  e in Timeline(batches) && SessionOf(e) == last)
  {
    var last := sessions[|sessions| - 1];
    FilterMember(Timeline(batches), OfEvent(AllBut(last)));
    FilterMember(Timeline(batches), OfEvent(Only(last)));
    forall e | e in Timeline(batches) ensures SessionOf(e) == last || SessionLess(SessionOf(e), last) {
      var k :| 0 <= k < |sessions| && sessions[k] == SessionOf(e);
    }
  }

  /** The evidence of an archive is the evidence of its sessions, each built alone, in the order of their ids. */
  lemma {:induction false} ArchiveIsItsSessions(batches: seq<Batch>, sessions: seq<Session>, config: Config)
    requires PlayersUnshared(Timeline(batches)) && InSessionOrder(sessions)
    requires forall e :: e in Timeline(batches) ==> SessionOf(e) in sessions
    ensures Evidence(Timeline(batches), config) == EvidenceBySession(batches, sessions, config)
    decreases |sessions|
  {
    if sessions == [] {
      SomeMember(Timeline(batches));
    } else {
      var front, last := sessions[..|sessions| - 1], sessions[|sessions| - 1];
      var rest, end := Filter(batches, OfBatch(AllBut(last))), Filter(batches, OfBatch(Only(last)));
      LastSessionLast(batches, sessions);
      LastIsGreatest(sessions);
      LastSessionSplits(batches, last);
      TimelineFilter(batches, AllBut(last));
      TimelineFilter(batches, Only(last));
      SessionsConcatenate(Timeline(rest), Timeline(end), config);
      ArchiveIsItsSessions(rest, front, config);
      OtherSessionsAlone(batches, last, front, config);
    }
  }

  lemma SomeMember<T>(s: seq<T>)
    ensures s == [] || s[0] in s
  {
  }

  lemma LastIsGreatest(sessions: seq<Session>)
    requires sessions != [] && InSessionOrder(sessions)
    ensures sessions[|sessions| - 1] !in sessions[..|sessions| - 1]
  {
    var last := sessions[|sessions| - 1];
    StringTrichotomy(last.0, last.0);
    StringTrichotomy(last.1, last.1);
    assert !SessionLess(last, last);
  }

  // ----- the order and the cut of the batches are immaterial -----

  /** An event with the two ids of its batch; nothing else about the batch is used. */
  datatype SentEvent = SentEvent(serverID: string, sessionID: string, event: Event)

  function SentIn(b: Batch): seq<SentEvent> {
    seq(|b.events|, i requires 0 <= i < |b.events| => SentEvent(b.serverID, b.serverSessionID, b.events[i]))
  }

  function Sent(batches: seq<Batch>): seq<SentEvent> {
    if batches == [] then [] else SentIn(batches[0]) + Sent(batches[1..])
  }

  lemma SentUnfold(b: Batch, tail: seq<Batch>)
    ensures Sent([b] + tail) == SentIn(b) + Sent(tail)
  {
    assert ([b] + tail)[1..] == tail;
  }

  lemma Regroup<T>(a: seq<T>, b: seq<T>, c: seq<T>)
    ensures (a + b) + c == a + (b + c)
  {
  }

  lemma {:induction false} SentAppend(left: seq<Batch>, right: seq<Batch>)
    ensures Sent(left + right) == Sent(left) + Sent(right)
  {
    if left == [] {
      assert left + right == right;
    } else {
      var b, tail := left[0], left[1..];
      SentAppend(tail, right);
      assert left == [b] + tail && left + right == [b] + (tail + right);
      SentUnfold(b, tail);
      SentUnfold(b, tail + right);
      Regroup(SentIn(b), Sent(tail), Sent(right));
    }
  }

  lemma SentOne(b: Batch)
    ensures Sent([b]) == SentIn(b)
  {
    SentUnfold(b, []);
    assert [b] + [] == [b];
  }

  /** Cutting one batch in two, anywhere and under any numbers, sends the same events. */
  lemma RecutSendsTheSame(before: seq<Batch>, b: Batch, first: Batch, second: Batch, after: seq<Batch>)
    requires first.serverID == second.serverID == b.serverID
    requires first.serverSessionID == second.serverSessionID == b.serverSessionID
    requires b.events == first.events + second.events
    ensures Sent(before + [first, second] + after) == Sent(before + [b] + after)
  {
    SentOne(b);
    SentOne(second);
    SentUnfold(first, [second]);
    assert [first] + [second] == [first, second] && SentIn(first) + SentIn(second) == SentIn(b);
    SentAppend(before + [first, second], after);
    SentAppend(before, [first, second]);
    SentAppend(before + [b], after);
    SentAppend(before, [b]);
  }

  function FlatOf(x: SentEvent): FlatEvent {
    FlatIn(x.serverID, x.sessionID, x.event)
  }

  function FlatsOf(sent: seq<SentEvent>): seq<FlatEvent> {
    seq(|sent|, i requires 0 <= i < |sent| => FlatOf(sent[i]))
  }

  lemma {:induction false} FlatBatchIs(b: Batch, n: nat)
    requires n <= |b.events|
    ensures FlatBatch(b, n) == FlatsOf(SentIn(b)[..n])
  {
    if n > 0 {
      FlatBatchIs(b, n - 1);
      assert SentIn(b)[..n] == SentIn(b)[..n - 1] + [SentIn(b)[n - 1]];
    }
  }

  lemma FlatsAppend(s: seq<SentEvent>, t: seq<SentEvent>)
    ensures FlatsOf(s + t) == FlatsOf(s) + FlatsOf(t)
  {
  }

  lemma SentPush(front: seq<Batch>, last: Batch)
    ensures Sent(front + [last]) == Sent(front) + SentIn(last)
  {
    SentAppend(front, [last]);
    SentOne(last);
  }

  lemma FlatBatchAll(b: Batch)
    ensures FlatBatch(b, |b.events|) == FlatsOf(SentIn(b))
  {
    FlatBatchIs(b, |b.events|);
    assert SentIn(b)[..|b.events|] == SentIn(b);
  }

  /** The flattened events are the sent events, one by one. */
  lemma {:induction false} FlatAllIs(batches: seq<Batch>)
    ensures FlatAll(batches, |batches|) == FlatsOf(Sent(batches))
  {
    if batches != [] {
      var front, last := batches[..|batches| - 1], batches[|batches| - 1];
      assert batches == front + [last];
      FlatAllIs(front);
      FlatAllPush(front, last);
      FlatBatchAll(last);
      SentPush(front, last);
      FlatsAppend(Sent(front), SentIn(last));
    }
  }

  function Rest<T>(t: seq<T>, k: nat): (r: seq<T>)
    requires k < |t|
    ensures |r| == |t| - 1
  {
    t[..k] + t[k + 1..]
  }

  lemma WithoutOne<T>(t: seq<T>, k: nat)
    requires k < |t|
    ensures multiset(t) == multiset(Rest(t, k)) + multiset{t[k]}
  {
    assert t == t[..k] + [t[k]] + t[k + 1..];
  }

  lemma FlatsWithoutOne(t: seq<SentEvent>, k: nat)
    requires k < |t|
    ensures multiset(FlatsOf(t)) == multiset(FlatsOf(Rest(t, k))) + multiset{FlatOf(t[k])}
  {
    FlatsAppend(t[..k], t[k + 1..]);
    WithoutOne(FlatsOf(t), k);
    assert FlatsOf(t)[..k] == FlatsOf(t[..k]) && FlatsOf(t)[k + 1..] == FlatsOf(t[k + 1..]);
  }

  lemma Cancel<T>(a: multiset<T>, b: multiset<T>, x: T)
    requires a + multiset{x} == b + multiset{x}
    ensures a == b
  {
    assert a == (a + multiset{x}) - multiset{x} && b == (b + multiset{x}) - multiset{x};
  }

  lemma {:induction false} FlatsPermute(s: seq<SentEvent>, t: seq<SentEvent>)
    requires multiset(s) == multiset(t)
    ensures multiset(FlatsOf(s)) == multiset(FlatsOf(t))
    decreases |s|
  {
    SameElements(s, t);
    if s != [] {
      assert s[0] in t;
      var k :| 0 <= k < |t| && t[k] == s[0];
      WithoutOne(s, 0);
      WithoutOne(t, k);
      Cancel(multiset(Rest(s, 0)), multiset(Rest(t, k)), s[0]);
      FlatsPermute(Rest(s, 0), Rest(t, k));
      FlatsWithoutOne(s, 0);
      FlatsWithoutOne(t, k);
    }
  }

  lemma {:induction false} SentMember(batches: seq<Batch>, x: SentEvent)
    ensures x in Sent(batches) <==>
            exists b, e :: b in batches && e in b.events && x == SentEvent(b.serverID, b.serverSessionID, e)
  {
    if batches != [] {
      var b, tail := batches[0], batches[1..];
      SentMember(tail, x);
      if x in SentIn(b) {
        var k :| 0 <= k < |b.events| && SentIn(b)[k] == x;
        assert b in batches && b.events[k] in b.events;
      }
      if x in Sent(tail) {
        var c, e :| c in tail && e in c.events && x == SentEvent(c.serverID, c.serverSessionID, e);
        assert c in batches;
      }
      forall c, e | c in batches && e in c.events && x == SentEvent(c.serverID, c.serverSessionID, e) ensures x in Sent(batches) {
        if c == b {
          var k :| 0 <= k < |b.events| && b.events[k] == e;
          assert SentIn(b)[k] == x;
        } else {
          assert c in tail;
        }
      }
    }
  }

  ghost predicate IsMalformed(x: SentEvent, sessionID: string, sequence: nat) {
    x.event.wire.Malformed? && x.sessionID == sessionID && x.event.serverSequence == sequence
  }

  lemma MalformedIsSent(batches: seq<Batch>, sessionID: string, sequence: nat)
    ensures HasMalformed(batches, sessionID, sequence)
       <==> exists x :: x in Sent(batches) && IsMalformed(x, sessionID, sequence)
  {
    if HasMalformed(batches, sessionID, sequence) {
      var b, e :| b in batches && e in b.events && e.wire.Malformed?
                  && b.serverSessionID == sessionID && e.serverSequence == sequence;
      var x := SentEvent(b.serverID, b.serverSessionID, e);
      SentMember(batches, x);
      assert IsMalformed(x, sessionID, sequence);
    }
    forall x | x in Sent(batches) && IsMalformed(x, sessionID, sequence) ensures HasMalformed(batches, sessionID, sequence) {
      SentMember(batches, x);
    }
  }

  lemma DecodableIsSent(batches: seq<Batch>)
    ensures Decodable(batches) <==> forall x :: x in Sent(batches) ==> !x.event.wire.Malformed?
  {
    forall x | x in Sent(batches) && x.event.wire.Malformed? ensures !Decodable(batches) {
      SentMember(batches, x);
      var b, e :| b in batches && e in b.events && x == SentEvent(b.serverID, b.serverSessionID, e);
      var i :| 0 <= i < |batches| && batches[i] == b;
      var k :| 0 <= k < |b.events| && b.events[k] == e;
    }
    if !Decodable(batches) {
      var i, k :| 0 <= i < |batches| && 0 <= k < |batches[i].events| && batches[i].events[k].wire.Malformed?;
      var b := batches[i];
      var x := SentEvent(b.serverID, b.serverSessionID, b.events[k]);
      SentMember(batches, x);
      assert b in batches && b.events[k] in b.events && x in Sent(batches);
    }
  }

  ghost predicate DistinctKeys(sent: seq<SentEvent>) {
    forall x, y :: x in sent && y in sent && SameKey(FlatOf(x), FlatOf(y)) ==> x == y
  }

  lemma DistinctFlats(sent: seq<SentEvent>)
    requires DistinctKeys(sent)
    ensures NoTies(FlatsOf(sent), EventAtMost)
  {
    var flats := FlatsOf(sent);
    forall a, b | a in flats && b in flats && EventAtMost(a, b) && EventAtMost(b, a) ensures a == b {
      var i :| 0 <= i < |sent| && flats[i] == a;
      var j :| 0 <= j < |sent| && flats[j] == b;
      EventTrichotomy(a, b);
      assert SameKey(FlatOf(sent[i]), FlatOf(sent[j]));
    }
  }

  /** The same events, in the same order or without two that compete for a place. */
  ghost predicate SendAlike(batches: seq<Batch>, batches': seq<Batch>) {
    || Sent(batches) == Sent(batches')
    || (multiset(Sent(batches)) == multiset(Sent(batches')) && DistinctKeys(Sent(batches)))
  }

  lemma SameTimeline(batches: seq<Batch>, batches': seq<Batch>)
    requires SendAlike(batches, batches')
    ensures Timeline(batches) == Timeline(batches')
  {
    var sent, sent' := Sent(batches), Sent(batches');
    FlatAllIs(batches);
    FlatAllIs(batches');
    if sent != sent' {
      EventOrder();
      FlatsPermute(sent, sent');
      DistinctFlats(sent);
      SortOfPermutation(FlatsOf(sent), FlatsOf(sent'), EventAtMost);
    }
  }

  /**
   Two lists of batches that carry the same events build alike, however the events are cut into batches, in whatever
   order and under whatever numbers these arrive; only events with the same place in time must keep their order.
   */
  lemma ArrivalOrderIrrelevant(batches: seq<Batch>, batches': seq<Batch>, config: Config, r: BuildResult)
    requires SendAlike(batches, batches')
    ensures IsBuild(batches, config, r) <==> IsBuild(batches', config, r)
  {
    SameTimeline(batches, batches');
    SameElements(Sent(batches), Sent(batches'));
    DecodableIsSent(batches);
    DecodableIsSent(batches');
    if r.BadBatch? {
      MalformedIsSent(batches, r.serverSessionID, r.serverSequence);
      MalformedIsSent(batches', r.serverSessionID, r.serverSequence);
    }
  }
}
