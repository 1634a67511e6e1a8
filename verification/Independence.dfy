/**
 The refractory filter and the episode numbering that the builder applies in place to its
 observations, in list order.
 */
module Independence {
  import opened Observations

  datatype Config = Config(
    decisionWindowMS: int,
    refractoryMS: int,
    episodeGapMS: int,
    encounterGapMS: int,
    maxQueueDelayMS: int,
    maxEventUncertaintyMS: int,
    timingPolicy: string)

  datatype GroupState = GroupState(lastMS: int, episode: nat, encounter: nat)

  const NEW_GROUP := GroupState(0, 0, 0)

  function PairKey(o: Observation): string {
    o.context.observer + "|" + o.context.target
  }

  // ----- the specification, one observation at a time -----

  /** Start of the latest observation kept for each observer among the first n. */
  function LastKept(obs: seq<Observation>, refractory: int, n: nat): map<string, int>
    requires n <= |obs|
  {
    if n == 0 then map[]
    else
      var last, c := LastKept(obs, refractory, n - 1), obs[n - 1].context;
      if c.observer in last && c.startedMS - last[c.observer] < refractory then last
      else last[c.observer := c.startedMS]
  }

  predicate Keeps(obs: seq<Observation>, refractory: int, i: nat)
    requires i < |obs|
  {
    var last, c := LastKept(obs, refractory, i), obs[i].context;
    !(c.observer in last && c.startedMS - last[c.observer] < refractory)
  }

  function NextGroup(state: GroupState, startedMS: int, config: Config): GroupState {
    GroupState(
      startedMS,
      state.episode + (if state.lastMS == 0 || startedMS - state.lastMS > config.episodeGapMS then 1 else 0),
      state.encounter + (if state.lastMS == 0 || startedMS - state.lastMS > config.encounterGapMS then 1 else 0))
  }

  function Groups(obs: seq<Observation>, config: Config, n: nat): map<string, GroupState>
    requires n <= |obs|
  {
    if n == 0 then map[]
    else
      var groups, pair := Groups(obs, config, n - 1), PairKey(obs[n - 1]);
      groups[pair := NextGroup(if pair in groups then groups[pair] else NEW_GROUP, obs[n - 1].context.startedMS, config)]
  }

  function GroupAt(obs: seq<Observation>, config: Config, i: nat): GroupState
    requires i < |obs|
  {
    Groups(obs, config, i + 1)[PairKey(obs[i])]
  }

  function Assigned(obs: seq<Observation>, config: Config, i: nat): Observation
    requires i < |obs|
  {
    var g, keep := GroupAt(obs, config, i), Keeps(obs, config.refractoryMS, i);
    obs[i].(episode := g.episode,
            encounter := g.encounter,
            independent := obs[i].independent && keep,
            strongHidden := obs[i].strongHidden && keep,
            control := obs[i].control && keep,
            positiveControl := obs[i].positiveControl && keep)
  }

  function AllAssigned(obs: seq<Observation>, config: Config): seq<Observation> {
    seq(|obs|, i requires 0 <= i < |obs| => Assigned(obs, config, i))
  }

  ghost predicate IsStep(o: Observation, last: map<string, int>, groups: map<string, GroupState>, config: Config,
                         o': Observation, last': map<string, int>, groups': map<string, GroupState>)
  {
    var pair, c := PairKey(o), o.context;
    var state := NextGroup(if pair in groups then groups[pair] else NEW_GROUP, c.startedMS, config);
    var keep := !(c.observer in last && c.startedMS - last[c.observer] < config.refractoryMS);
    && groups' == groups[pair := state]
    && last' == (if keep then last[c.observer := c.startedMS] else last)
    && o' == o.(episode := state.episode, encounter := state.encounter,
                independent := o.independent && keep, strongHidden := o.strongHidden && keep,
                control := o.control && keep, positiveControl := o.positiveControl && keep)
  }

  lemma StepMeets(obs: seq<Observation>, config: Config, i: nat,
                  o': Observation, last': map<string, int>, groups': map<string, GroupState>)
    requires i < |obs|
    requires IsStep(obs[i], LastKept(obs, config.refractoryMS, i), Groups(obs, config, i), config, o', last', groups')
    ensures o' == Assigned(obs, config, i)
    ensures last' == LastKept(obs, config.refractoryMS, i + 1) && groups' == Groups(obs, config, i + 1)
  {
  }

  /** The body of the sweep for one observation. */
  method AssignOne(o: Observation, last: map<string, int>, groups: map<string, GroupState>, config: Config)
      returns (o': Observation, last': map<string, int>, groups': map<string, GroupState>)
    ensures IsStep(o, last, groups, config, o', last', groups')
  {
    var pair := PairKey(o);
    var state := if pair in groups then groups[pair] else NEW_GROUP;
    if state.lastMS == 0 || o.context.startedMS - state.lastMS > config.episodeGapMS {
      state := state.(episode := state.episode + 1);
    }
    if state.lastMS == 0 || o.context.startedMS - state.lastMS > config.encounterGapMS {
      state := state.(encounter := state.encounter + 1);
    }
    state := state.(lastMS := o.context.startedMS);
    groups' := groups[pair := state];
    o' := o.(episode := state.episode, encounter := state.encounter);
    var observer := o.context.observer;
    if observer in last && o.context.startedMS - last[observer] < config.refractoryMS {
      o' := o'.(independent := false, strongHidden := false, control := false, positiveControl := false);
      last' := last;
    } else {
      last' := last[observer := o.context.startedMS];
    }
  }

  /** The pass of the source: one sweep that rewrites the observations in place. */
  method AssignIndependence(observations: array<Observation>, config: Config)
    modifies observations
    ensures observations[..] == AllAssigned(old(observations[..]), config)
  {
    ghost var was := observations[..];
    var lastFeatureByObserver: map<string, int> := map[];
    var groups: map<string, GroupState> := map[];
    for index := 0 to observations.Length
      invariant lastFeatureByObserver == LastKept(was, config.refractoryMS, index)
      invariant groups == Groups(was, config, index)
      invariant forall k :: 0 <= k < index ==> observations[k] == Assigned(was, config, k)
      invariant forall k :: index <= k < observations.Length ==> observations[k] == was[k]
    {
      var o, last', groups' := AssignOne(observations[index], lastFeatureByObserver, groups, config);
      StepMeets(was, config, index, o, last', groups');
      observations[index] := o;
      lastFeatureByObserver, groups := last', groups';
    }
  }

  // ----- separation, for every input -----

  predicate SameObserver(obs: seq<Observation>, i: nat, j: nat)
    requires i < |obs| && j < |obs|
  {
    obs[i].context.observer == obs[j].context.observer
  }

  function Start(obs: seq<Observation>, i: nat): int
    requires i < |obs|
  {
    obs[i].context.startedMS
  }

  /** The stored start belongs to a kept observation, and no kept one of that observer starts later. */
  lemma {:induction false} LastKeptIs(obs: seq<Observation>, refractory: int, n: nat, observer: string)
    requires n <= |obs| && refractory >= 0
    ensures observer in LastKept(obs, refractory, n) <==>
              exists j :: 0 <= j < n && obs[j].context.observer == observer && Keeps(obs, refractory, j)
    ensures observer in LastKept(obs, refractory, n) ==>
              exists j :: 0 <= j < n && obs[j].context.observer == observer && Keeps(obs, refractory, j)
                && Start(obs, j) == LastKept(obs, refractory, n)[observer]
    ensures forall j :: 0 <= j < n && obs[j].context.observer == observer && Keeps(obs, refractory, j) ==>
              observer in LastKept(obs, refractory, n) && Start(obs, j) <= LastKept(obs, refractory, n)[observer]
  {
    if n > 0 {
      LastKeptIs(obs, refractory, n - 1, observer);
    }
  }

  /** An observation is kept exactly when it is far enough after every earlier kept one of its observer. */
  lemma KeptIffSeparated(obs: seq<Observation>, refractory: int, i: nat)
    requires i < |obs| && refractory >= 0
    ensures Keeps(obs, refractory, i) <==>
              forall j :: 0 <= j < i && SameObserver(obs, i, j) && Keeps(obs, refractory, j) ==>
                Start(obs, i) - Start(obs, j) >= refractory
  {
    LastKeptIs(obs, refractory, i, obs[i].context.observer);
  }

  /** Independent observations of one observer are pairwise at least the refractory time apart. */
  lemma IndependentAreSeparated(obs: seq<Observation>, config: Config, i: nat, j: nat)
    requires i < j < |obs| && config.refractoryMS >= 0 && SameObserver(obs, i, j)
    requires Assigned(obs, config, i).independent && Assigned(obs, config, j).independent
    ensures Start(obs, j) - Start(obs, i) >= config.refractoryMS
  {
    KeptIffSeparated(obs, config.refractoryMS, j);
  }

  // ----- maximality -----

  function Kept(obs: seq<Observation>, refractory: int, observer: string, n: nat): set<nat>
    requires n <= |obs|
  {
    set i: nat | i < n && obs[i].context.observer == observer && Keeps(obs, refractory, i)
  }

  predicate OfObserver(obs: seq<Observation>, i: nat, observer: string)
    requires i < |obs|
  {
    obs[i].context.observer == observer
  }

  /** No earlier observation of the observer starts later than the k-th. */
  ghost predicate LatestSoFar(obs: seq<Observation>, observer: string, k: nat)
    requires k < |obs|
  {
    forall i :: 0 <= i < k && OfObserver(obs, i, observer) ==> Start(obs, i) <= Start(obs, k)
  }

  /** An earlier observation of the observer has the very start of the k-th. */
  ghost predicate RepeatsStart(obs: seq<Observation>, observer: string, k: nat)
    requires k < |obs|
  {
    exists m :: 0 <= m < k && OfObserver(obs, m, observer) && Start(obs, m) == Start(obs, k)
  }

  /** Every start is no earlier than all those before it, or equal to one of them. */
  ghost predicate InOrderButRepeats(obs: seq<Observation>, observer: string) {
    forall k :: 0 <= k < |obs| && OfObserver(obs, k, observer) ==>
      LatestSoFar(obs, observer, k) || RepeatsStart(obs, observer, k)
  }

  /** A choice of observations of one observer that are pairwise far enough apart. */
  ghost predicate Spaced(obs: seq<Observation>, refractory: int, observer: string, choice: set<nat>) {
    && (forall i :: i in choice ==> i < |obs| && obs[i].context.observer == observer)
    && (forall i, j :: i in choice && j in choice && i < j ==>
          Start(obs, j) - Start(obs, i) >= refractory || Start(obs, i) - Start(obs, j) >= refractory)
  }

  /** The latest kept start is no later than some chosen one. */
  ghost predicate LastKeptReached(obs: seq<Observation>, refractory: int, observer: string, n: nat, choice: set<nat>)
    requires n <= |obs| && forall i :: i in choice ==> i < |obs|
  {
    && observer in LastKept(obs, refractory, n)
    && exists i :: i in choice && LastKept(obs, refractory, n)[observer] <= Start(obs, i)
  }

  /** No separated choice among the first n beats the sweep; a tie is reached no earlier. */
  ghost predicate Ahead(obs: seq<Observation>, refractory: int, observer: string, n: nat, choice: set<nat>)
    requires n <= |obs| && forall i :: i in choice ==> i < |obs|
  {
    && |choice| <= |Kept(obs, refractory, observer, n)|
    && (choice != {} && |choice| == |Kept(obs, refractory, observer, n)| ==>
          LastKeptReached(obs, refractory, observer, n, choice))
  }

  /** A spaced choice among the first n observations. */
  ghost predicate SpacedBelow(obs: seq<Observation>, refractory: int, observer: string, n: nat, choice: set<nat>) {
    Spaced(obs, refractory, observer, choice) && forall i :: i in choice ==> i < n
  }

  lemma SpacedWithoutLast(obs: seq<Observation>, refractory: int, observer: string, n: nat, choice: set<nat>)
    requires n > 0 && SpacedBelow(obs, refractory, observer, n, choice)
    ensures SpacedBelow(obs, refractory, observer, n - 1, choice - {n - 1})
  {
  }

  lemma {:induction false} GreedyStaysAhead(obs: seq<Observation>, refractory: int, observer: string, n: nat, choice: set<nat>)
    requires n <= |obs| && refractory > 0 && InOrderButRepeats(obs, observer)
    requires SpacedBelow(obs, refractory, observer, n, choice)
    ensures Ahead(obs, refractory, observer, n, choice)
  {
    if n == 0 {
      assert choice == {};
    } else {
      var k := n - 1;
      SpacedWithoutLast(obs, refractory, observer, n, choice);
      GreedyStaysAhead(obs, refractory, observer, k, choice - {k});
      if k !in choice {
        assert choice - {k} == choice;
        AheadWithout(obs, refractory, observer, k, choice);
      } else if LatestSoFar(obs, observer, k) {
        AheadWith(obs, refractory, observer, k, choice);
      } else {
        var m := RepeatedStart(obs, observer, k);
        var swapped := SwapKeepsSpaced(obs, refractory, observer, k, m, choice);
        GreedyStaysAhead(obs, refractory, observer, k, swapped);
        AheadSwapped(obs, refractory, observer, k, m, choice, swapped);
      }
    }
  }

  lemma RepeatedStart(obs: seq<Observation>, observer: string, k: nat) returns (m: nat)
    requires k < |obs| && InOrderButRepeats(obs, observer) && OfObserver(obs, k, observer) && !LatestSoFar(obs, observer, k)
    ensures m < k && OfObserver(obs, m, observer) && Start(obs, m) == Start(obs, k)
  {
    m :| 0 <= m < k && OfObserver(obs, m, observer) && Start(obs, m) == Start(obs, k);
  }

  /** An observation may be swapped for an earlier one with the same start. */
  lemma SwapKeepsSpaced(obs: seq<Observation>, refractory: int, observer: string, k: nat, m: nat, choice: set<nat>)
      returns (swapped: set<nat>)
    requires m < k < |obs| && refractory > 0 && OfObserver(obs, m, observer) && Start(obs, m) == Start(obs, k)
    requires SpacedBelow(obs, refractory, observer, k + 1, choice) && k in choice
    ensures swapped == choice - {k} + {m} && m !in choice && |swapped| == |choice|
    ensures SpacedBelow(obs, refractory, observer, k, swapped)
  {
    swapped := choice - {k} + {m};
    assert |choice - {k}| == |choice| - 1;
    forall i, j | i in swapped && j in swapped && i < j
      ensures Start(obs, j) - Start(obs, i) >= refractory || Start(obs, i) - Start(obs, j) >= refractory
    {
      var i', j' := if i == m then k else i, if j == m then k else j;
      assert i' in choice && j' in choice && i' != j';
    }
  }

  lemma AheadSwapped(obs: seq<Observation>, refractory: int, observer: string, k: nat, m: nat, choice: set<nat>,
                     swapped: set<nat>)
    requires m < k < |obs| && OfObserver(obs, m, observer) && Start(obs, m) == Start(obs, k)
    requires k in choice && m !in choice && forall i :: i in choice ==> i <= k
    requires swapped == choice - {k} + {m} && |swapped| == |choice| && Ahead(obs, refractory, observer, k, swapped)
    ensures Ahead(obs, refractory, observer, k + 1, choice)
  {
    KeptGrows(obs, refractory, observer, k);
    if |choice| == |Kept(obs, refractory, observer, k + 1)| {
      assert m in swapped;
      ReachedStays(obs, refractory, observer, k, swapped);
      var i :| i in swapped && LastKept(obs, refractory, k + 1)[observer] <= Start(obs, i);
      var i' := if i == m then k else i;
      assert i' in choice && LastKept(obs, refractory, k + 1)[observer] <= Start(obs, i');
    }
  }

  lemma AheadWith(obs: seq<Observation>, refractory: int, observer: string, k: nat, choice: set<nat>)
    requires k < |obs| && refractory > 0 && LatestSoFar(obs, observer, k)
    requires SpacedBelow(obs, refractory, observer, k + 1, choice) && k in choice
    requires Ahead(obs, refractory, observer, k, choice - {k})
    ensures Ahead(obs, refractory, observer, k + 1, choice)
  {
    KeptGrows(obs, refractory, observer, k);
    LastKeptBelow(obs, refractory, observer, k, choice);
    assert |choice| == |choice - {k}| + 1;
    if |choice - {k}| == |Kept(obs, refractory, observer, k)| {
      KeptWhenTight(obs, refractory, observer, k, choice);
    }
  }

  lemma AheadWithout(obs: seq<Observation>, refractory: int, observer: string, k: nat, choice: set<nat>)
    requires k < |obs| && forall i :: i in choice ==> i < |obs|
    requires Ahead(obs, refractory, observer, k, choice)
    ensures Ahead(obs, refractory, observer, k + 1, choice)
  {
    KeptGrows(obs, refractory, observer, k);
    if choice != {} && |choice| == |Kept(obs, refractory, observer, k + 1)| {
      ReachedStays(obs, refractory, observer, k, choice);
    }
  }

  lemma ReachedStays(obs: seq<Observation>, refractory: int, observer: string, k: nat, choice: set<nat>)
    requires k < |obs| && forall i :: i in choice ==> i < |obs|
    requires LastKeptReached(obs, refractory, observer, k, choice)
    requires !(obs[k].context.observer == observer && Keeps(obs, refractory, k))
    ensures LastKeptReached(obs, refractory, observer, k + 1, choice)
  {
    var i :| i in choice && LastKept(obs, refractory, k)[observer] <= Start(obs, i);
    assert LastKept(obs, refractory, k + 1)[observer] == LastKept(obs, refractory, k)[observer];
  }

  lemma KeptWhenTight(obs: seq<Observation>, refractory: int, observer: string, k: nat, choice: set<nat>)
    requires k < |obs| && refractory > 0 && LatestSoFar(obs, observer, k)
    requires SpacedBelow(obs, refractory, observer, k + 1, choice) && k in choice
    requires |choice - {k}| == |Kept(obs, refractory, observer, k)|
    requires choice - {k} != {} ==> LastKeptReached(obs, refractory, observer, k, choice - {k})
    ensures Keeps(obs, refractory, k)
  {
    if choice - {k} == {} {
      if observer in LastKept(obs, refractory, k) {
        SomethingKept(obs, refractory, observer, k);
      }
    } else {
      var i :| i in choice - {k} && LastKept(obs, refractory, k)[observer] <= Start(obs, i);
      assert i < k && OfObserver(obs, i, observer) && Start(obs, i) <= Start(obs, k);
    }
  }

  lemma LastKeptBelow(obs: seq<Observation>, refractory: int, observer: string, k: nat, choice: set<nat>)
    requires k < |obs| && refractory > 0 && LatestSoFar(obs, observer, k) && obs[k].context.observer == observer
    requires k in choice && forall i :: i in choice ==> i < |obs|
    ensures LastKeptReached(obs, refractory, observer, k + 1, choice)
  {
    LastKeptIs(obs, refractory, k, observer);
    assert LastKept(obs, refractory, k + 1)[observer] <= Start(obs, k);
  }

  lemma KeptGrows(obs: seq<Observation>, refractory: int, observer: string, k: nat)
    requires k < |obs|
    ensures |Kept(obs, refractory, observer, k + 1)| == |Kept(obs, refractory, observer, k)|
              + if obs[k].context.observer == observer && Keeps(obs, refractory, k) then 1 else 0
  {
    assert k !in Kept(obs, refractory, observer, k);
    assert Kept(obs, refractory, observer, k + 1) == Kept(obs, refractory, observer, k)
             + if obs[k].context.observer == observer && Keeps(obs, refractory, k) then {k} else {};
  }

  lemma SomethingKept(obs: seq<Observation>, refractory: int, observer: string, n: nat)
    requires n <= |obs| && refractory >= 0 && observer in LastKept(obs, refractory, n)
    ensures Kept(obs, refractory, observer, n) != {}
  {
    LastKeptIs(obs, refractory, n, observer);
    var j :| 0 <= j < n && obs[j].context.observer == observer && Keeps(obs, refractory, j);
    assert j in Kept(obs, refractory, observer, n);
  }

  /** Where starts are in order but for repeats, no choice of separated observations is larger than the kept one. */
  lemma KeptIsMaximum(obs: seq<Observation>, refractory: int, observer: string, choice: set<nat>)
    requires refractory > 0 && InOrderButRepeats(obs, observer)
    requires Spaced(obs, refractory, observer, choice)
    ensures Spaced(obs, refractory, observer, Kept(obs, refractory, observer, |obs|))
    ensures |choice| <= |Kept(obs, refractory, observer, |obs|)|
  {
    GreedyStaysAhead(obs, refractory, observer, |obs|, choice);
    KeptIsSpaced(obs, refractory, observer);
  }

  lemma KeptIsSpaced(obs: seq<Observation>, refractory: int, observer: string)
    requires refractory > 0
    ensures Spaced(obs, refractory, observer, Kept(obs, refractory, observer, |obs|))
  {
    var kept := Kept(obs, refractory, observer, |obs|);
    forall i, j | i in kept && j in kept && i < j ensures Start(obs, j) - Start(obs, i) >= refractory {
      KeptIffSeparated(obs, refractory, j);
    }
  }

  /** The kept observations are as many as any separated choice has, for this refractory time. */
  ghost predicate IsMaximum(obs: seq<Observation>, refractory: int, observer: string) {
    forall choice :: Spaced(obs, refractory, observer, choice) ==> |choice| <= |Kept(obs, refractory, observer, |obs|)|
  }

  /** At a refractory time of one, something kept before k starts no earlier than any given observation before k. */
  lemma KeptCovers(obs: seq<Observation>, observer: string, i: nat, k: nat) returns (m: nat)
    requires i < k <= |obs| && OfObserver(obs, i, observer)
    ensures m < k && OfObserver(obs, m, observer) && Keeps(obs, 1, m) && Start(obs, m) >= Start(obs, i)
  {
    KeptIffSeparated(obs, 1, i);
    if Keeps(obs, 1, i) {
      m := i;
    } else {
      m :| 0 <= m < i && SameObserver(obs, i, m) && Keeps(obs, 1, m) && Start(obs, i) - Start(obs, m) < 1;
    }
  }

  /** An observation that starts before an earlier one and repeats no start could be added to the kept ones. */
  lemma OutOfOrderIsMissed(obs: seq<Observation>, observer: string, i: nat, k: nat, other: nat)
    requires i < k < |obs| && OfObserver(obs, i, observer) && OfObserver(obs, k, observer)
    requires Start(obs, i) > Start(obs, k) && !RepeatsStart(obs, observer, k)
    requires other in Kept(obs, 1, observer, |obs|)
    ensures other != k && Start(obs, other) != Start(obs, k)
  {
    if other < k {
      assert OfObserver(obs, other, observer);
    } else {
      var m := KeptCovers(obs, observer, i, k);
      KeptIffSeparated(obs, 1, other);
      assert SameObserver(obs, other, m);
    }
  }

  lemma NotMaximumOutOfOrder(obs: seq<Observation>, observer: string, i: nat, k: nat)
    requires i < k < |obs| && OfObserver(obs, i, observer) && OfObserver(obs, k, observer)
    requires Start(obs, i) > Start(obs, k) && !RepeatsStart(obs, observer, k)
    ensures !IsMaximum(obs, 1, observer)
  {
    var kept := Kept(obs, 1, observer, |obs|);
    KeptIsSpaced(obs, 1, observer);
    forall other | other in kept ensures other != k && Start(obs, other) != Start(obs, k) {
      OutOfOrderIsMissed(obs, observer, i, k, other);
    }
    assert k !in kept && Spaced(obs, 1, observer, kept + {k}) && |kept + {k}| == |kept| + 1;
  }

  /**
   The sweep keeps as many observations of an observer as can be kept, whatever the refractory time, if and only if each
   start of that observer is no earlier than all before it or equal to one of them.
   */
  lemma KeptIsMaximumExactlyWhen(obs: seq<Observation>, observer: string)
    ensures (forall refractory: int :: refractory > 0 ==> IsMaximum(obs, refractory, observer))
       <==> InOrderButRepeats(obs, observer)
  {
    if InOrderButRepeats(obs, observer) {
      forall refractory: int, choice | refractory > 0 && Spaced(obs, refractory, observer, choice)
        ensures |choice| <= |Kept(obs, refractory, observer, |obs|)|
      {
        KeptIsMaximum(obs, refractory, observer, choice);
      }
    } else {
      var k :| 0 <= k < |obs| && OfObserver(obs, k, observer)
               && !LatestSoFar(obs, observer, k) && !RepeatsStart(obs, observer, k);
      var i :| 0 <= i < k && OfObserver(obs, i, observer) && Start(obs, i) > Start(obs, k);
      NotMaximumOutOfOrder(obs, observer, i, k);
    }
  }

  /** Out of order, the sweep can keep one observation where three are separated. */
  lemma KeptNotMaximumOutOfOrder(a: Observation, b: Observation, c: Observation)
    requires a.context.observer == b.context.observer == c.context.observer
    requires a.context.startedMS == 100 && b.context.startedMS == 0 && c.context.startedMS == 10
    ensures Kept([a, b, c], 10, a.context.observer, 3) == {0}
    ensures Spaced([a, b, c], 10, a.context.observer, {0, 1, 2})
  {
    var obs, o := [a, b, c], a.context.observer;
    assert LastKept(obs, 10, 0) == map[];
    assert LastKept(obs, 10, 1) == map[o := 100];
    assert LastKept(obs, 10, 2) == map[o := 100];
    assert Keeps(obs, 10, 0) && !Keeps(obs, 10, 1) && !Keeps(obs, 10, 2);
  }

  // ----- episodes and encounters -----

  lemma {:induction false} GroupsMonotone(obs: seq<Observation>, config: Config, pair: string, n: nat, n': nat)
    requires n <= n' <= |obs| && pair in Groups(obs, config, n)
    ensures pair in Groups(obs, config, n')
    ensures Groups(obs, config, n)[pair].episode <= Groups(obs, config, n')[pair].episode
    ensures config.episodeGapMS <= config.encounterGapMS ==>
              Groups(obs, config, n')[pair].encounter - Groups(obs, config, n)[pair].encounter
              <= Groups(obs, config, n')[pair].episode - Groups(obs, config, n)[pair].episode
    ensures Groups(obs, config, n)[pair].encounter <= Groups(obs, config, n')[pair].encounter
    decreases n' - n
  {
    if n < n' {
      GroupsMonotone(obs, config, pair, n, n' - 1);
    }
  }

  /** With the larger gap for encounters, one episode never spreads over two encounters. */
  lemma EpisodesRefineEncounters(obs: seq<Observation>, config: Config, i: nat, j: nat)
    requires i <= j < |obs| && PairKey(obs[i]) == PairKey(obs[j])
    requires config.episodeGapMS <= config.encounterGapMS
    ensures GroupAt(obs, config, i).episode <= GroupAt(obs, config, j).episode
    ensures GroupAt(obs, config, i).episode == GroupAt(obs, config, j).episode ==>
              GroupAt(obs, config, i).encounter == GroupAt(obs, config, j).encounter
  {
    GroupsMonotone(obs, config, PairKey(obs[i]), i + 1, j + 1);
  }
}
