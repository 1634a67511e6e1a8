/** Which observations the matching uses, and with which others, in terms of the observations alone. */
module MatchingLaws {
  import opened Grouping
  import opened LogitFit
  import opened Observations
  import opened Sorting
  import opened Strata

  /** Separated from the player's others, not explained by any cue, and of one of the two compared kinds. */
  predicate Comparable(o: Observation) {
    o.independent && o.cueClass == Unexplained && (o.strongHidden || o.control)
  }

  /** Made by the same player on the same server in the same surroundings, posture and population. */
  predicate Alike(o: Observation, o': Observation) {
    var c, c' := o.context, o'.context;
    && c.observer == c'.observer && c.serverID == c'.serverID && c.mapID == c'.mapID && c.areaCell == c'.areaCell
    && c.movementBand == c'.movementBand && c.stanceID == c'.stanceID && c.weaponState == c'.weaponState
    && c.cameraMode == c'.cameraMode && c.populationBand == c'.populationBand && c.samplingPolicy == c'.samplingPolicy
  }

  ghost predicate HasPartners(input: seq<Observation>, o: Observation) {
    && (exists h :: h in input && Comparable(h) && Alike(o, h) && h.strongHidden)
    && (exists c :: c in input && Comparable(c) && Alike(o, c) && c.control)
  }

  ghost predicate AllSeparatorFree(input: seq<Observation>) {
    forall o :: o in input ==> SeparatorFree(o)
  }

  ghost predicate Uses(strata: seq<MatchedStratum>, o: Observation) {
    exists s :: s in strata && o in s.observations
  }

  lemma ComparableIs(o: Observation, o': Observation)
    requires SeparatorFree(o) && SeparatorFree(o')
    ensures Comparable(o) <==> Matchable(o)
    ensures Comparable(o) && Comparable(o') ==> (Alike(o, o') <==> KeyOf(o) == KeyOf(o'))
  {
    KeyIsContext(o, o');
  }

  lemma GroupMember(input: seq<Observation>, o: Observation, x: Observation)
    requires AllSeparatorFree(input) && o in input && Comparable(o)
    ensures x in Group(input, KeyOf(o)) <==> x in input && Comparable(x) && Alike(o, x)
  {
    SelectedMember(input, Matchable, KeyOf, KeyOf(o));
    if x in input {
      ComparableIs(o, x);
    }
  }

  lemma KeptHasPartners(input: seq<Observation>, o: Observation)
    requires AllSeparatorFree(input) && o in input && Comparable(o)
    ensures Kept(Group(input, KeyOf(o))) <==> HasPartners(input, o)
  {
    forall x ensures x in Group(input, KeyOf(o)) <==> x in input && Comparable(x) && Alike(o, x) {
      GroupMember(input, o, x);
    }
    var group := Group(input, KeyOf(o));
    if Kept(group) {
      var h :| h in group && h.strongHidden;
      var c :| c in group && c.control;
      assert h in input && Comparable(h) && Alike(o, h) && h.strongHidden;
      assert c in input && Comparable(c) && Alike(o, c) && c.control;
    }
    if HasPartners(input, o) {
      var h :| h in input && Comparable(h) && Alike(o, h) && h.strongHidden;
      var c :| c in input && Comparable(c) && Alike(o, c) && c.control;
      assert h in group && c in group;
    }
  }

  /** An observation is used exactly when it is comparable and its surroundings show both kinds. */
  lemma UsedExactlyWhen(input: seq<Observation>, strata: seq<MatchedStratum>, o: Observation)
    requires IsMatching(input, strata) && AllSeparatorFree(input) && o in input
    ensures Uses(strata, o) <==> Comparable(o) && HasPartners(input, o)
  {
    UsedObservations(input, strata, o);
    ComparableIs(o, o);
    if Comparable(o) {
      KeptHasPartners(input, o);
    }
    if Uses(strata, o) {
      var s :| s in strata && o in s.observations;
      var i :| 0 <= i < |strata| && strata[i] == s;
    }
  }

  /** A stratum holds every comparable observation of its surroundings as often as the input does, and belongs to their player. */
  lemma StratumHoldsAll(input: seq<Observation>, strata: seq<MatchedStratum>, s: MatchedStratum, o: Observation)
    requires IsMatching(input, strata) && AllSeparatorFree(input) && s in strata && o in s.observations
    ensures s.playerSessionID == o.context.observer
    ensures forall x :: x in s.observations <==> x in input && Comparable(x) && Alike(o, x)
    ensures forall x :: x in s.observations ==> multiset(s.observations)[x] == multiset(input)[x]
    ensures forall i, j :: 0 <= i < j < |s.observations| ==>
              !StringLess(s.observations[j].observationID, s.observations[i].observationID)
  {
    StratumMembers(input, s, o);
    forall x ensures x in s.observations <==> x in input && Comparable(x) && Alike(o, x) {
      StratumMembers(input, s, x);
      GroupMember(input, o, x);
      if x in input {
        ComparableIs(o, x);
      }
    }
    StratumOrder(input, s);
    assert s.observations[0] in s.observations;
    forall x | x in s.observations ensures multiset(s.observations)[x] == multiset(input)[x] {
      StratumMembers(input, s, x);
      CountOfSelected(input, s.contextKey, x);
    }
  }

  lemma StratumOrder(input: seq<Observation>, s: MatchedStratum)
    requires IsStratum(input, s)
    ensures s.observations != [] && s.playerSessionID == s.observations[0].context.observer
    ensures multiset(s.observations) == multiset(Group(input, s.contextKey))
    ensures forall i, j :: 0 <= i < j < |s.observations| ==>
              !StringLess(s.observations[j].observationID, s.observations[i].observationID)
  {
    var group := Group(input, s.contextKey);
    IDOrder();
    SortPermutes(group, IDAtMost);
    SortSorts(group, IDAtMost);
    forall i, j | 0 <= i < j < |s.observations|
      ensures !StringLess(s.observations[j].observationID, s.observations[i].observationID)
    {
      assert IDAtMost(s.observations[i], s.observations[j]);
      StringTrichotomy(s.observations[i].observationID, s.observations[j].observationID);
    }
  }

  lemma {:induction false} CountOfSelected(input: seq<Observation>, key: string, x: Observation)
    requires Matchable(x) && KeyOf(x) == key
    ensures multiset(Group(input, key))[x] == multiset(input)[x]
  {
    if input != [] {
      CountOfSelected(input[1..], key, x);
      assert input == [input[0]] + input[1..];
    }
  }
}
