/** Exact within-player matching of hidden opportunities with neutral controls. */
module Strata {
  import opened Grouping
  import opened LogitFit
  import opened Observations
  import opened Sorting

  const MATCHING_POLICY := "exact-context-v2-neutral-controls"
  const CONTROL_QUALITY := 0.5

  predicate Matchable(o: Observation) {
    o.independent && o.cueClass == Unexplained && (o.strongHidden || o.control)
  }

  function CueClassName(c: CueClass): string {
    match c
    case Known => "KNOWN"
    case Plausible => "PLAUSIBLE"
    case Unexplained => "UNEXPLAINED_IN_CAPTURED_DATA"
  }

  /** The eleven fields of the matched context, as texts. */
  function Fields(o: Observation): seq<string> {
    var c := o.context;
    [c.observer, c.serverID, c.mapID, c.areaCell, c.movementBand, Signed(c.stanceID), c.weaponState, c.cameraMode,
     c.populationBand, CueClassName(o.cueClass), c.samplingPolicy]
  }

  /** The matched context, joined with a vertical bar. */
  function KeyOf(o: Observation): string {
    Joined(Fields(o))
  }

  predicate IDAtMost(a: Observation, b: Observation) {
    StringAtMost(a.observationID, b.observationID)
  }

  function Group(input: seq<Observation>, key: string): seq<Observation> {
    Selected(input, Matchable, KeyOf, key)
  }

  ghost function Keys(input: seq<Observation>): set<string> {
    SelectedKeys(input, Matchable, KeyOf)
  }

  /** A context is kept when it has both a hidden opportunity and a control. */
  predicate Kept(group: seq<Observation>) {
    (exists o :: o in group && o.strongHidden) && (exists o :: o in group && o.control)
  }

  function StratumOf(group: seq<Observation>, key: string): MatchedStratum
    requires group != []
  {
    SortPermutes(group, IDAtMost);
    var items := SortBy(group, IDAtMost);
    MatchedStratum("stratum_" + key, items[0].context.observer, key, items, CONTROL_QUALITY, MATCHING_POLICY)
  }

  /** `strata` lists, by increasing key, one stratum for each kept context and nothing else. */
  ghost predicate IsMatching(input: seq<Observation>, strata: seq<MatchedStratum>) {
    && (forall i, j :: 0 <= i < j < |strata| ==> StringLess(strata[i].contextKey, strata[j].contextKey))
    && (forall s :: s in strata ==> s.contextKey in Keys(input) && Kept(Group(input, s.contextKey)))
    && (forall s :: s in strata ==> IsStratum(input, s))
    && (forall key :: key in Keys(input) && Kept(Group(input, key)) ==> HasKey(strata, key))
  }

  ghost predicate IsStratum(input: seq<Observation>, s: MatchedStratum) {
    Group(input, s.contextKey) != [] && s == StratumOf(Group(input, s.contextKey), s.contextKey)
  }

  ghost predicate HasKey(strata: seq<MatchedStratum>, key: string) {
    exists s :: s in strata && s.contextKey == key
  }

  // ----- the loops of the source -----

  method CountKinds(items: seq<Observation>) returns (hidden: nat, controls: nat)
    ensures hidden > 0 && controls > 0 <==> Kept(items)
  {
    hidden, controls := 0, 0;
    for i := 0 to |items|
      invariant hidden > 0 <==> exists o :: o in items[..i] && o.strongHidden
      invariant controls > 0 <==> exists o :: o in items[..i] && o.control
    {
      assert items[..i + 1] == items[..i] + [items[i]];
      if items[i].strongHidden {
        hidden := hidden + 1;
        assert items[i] in items[..i + 1];
      }
      if items[i].control {
        controls := controls + 1;
        assert items[i] in items[..i + 1];
      }
    }
    assert items[..|items|] == items;
  }

  /** The strata built after visiting the first k keys. */
  ghost predicate Visited(input: seq<Observation>, keys: seq<string>, k: nat, strata: seq<MatchedStratum>)
    requires k <= |keys|
  {
    && (forall i, j :: 0 <= i < j < |strata| ==> StringLess(strata[i].contextKey, strata[j].contextKey))
    && (forall s :: s in strata ==> s.contextKey in keys[..k] && Kept(Group(input, s.contextKey)))
    && (forall s :: s in strata ==> IsStratum(input, s))
    && (forall key :: key in keys[..k] && Kept(Group(input, key)) ==> HasKey(strata, key))
  }

  lemma VisitNext(input: seq<Observation>, keys: seq<string>, k: nat, strata: seq<MatchedStratum>,
                  next: seq<MatchedStratum>)
    requires k < |keys| && Visited(input, keys, k, strata)
    requires StrictlyIncreasing(keys)
    requires if Kept(Group(input, keys[k]))
             then next == strata + [StratumOf(Group(input, keys[k]), keys[k])]
             else next == strata
    ensures Visited(input, keys, k + 1, next)
  {
    assert keys[..k + 1] == keys[..k] + [keys[k]];
    if Kept(Group(input, keys[k])) {
      var stratum := StratumOf(Group(input, keys[k]), keys[k]);
      assert stratum in next && HasKey(next, keys[k]);
      forall key | key in keys[..k] && Kept(Group(input, key)) ensures HasKey(next, key) {
        var s :| s in strata && s.contextKey == key;
        assert s in next;
      }
      forall i | 0 <= i < |strata| ensures StringLess(strata[i].contextKey, keys[k]) {
        assert strata[i] in strata;
      }
    }
  }

  method BuildMatchedStrata(input: seq<Observation>) returns (result: seq<MatchedStratum>)
    ensures IsMatching(input, result)
  {
    var groups := GroupInto(input, Matchable, KeyOf);
    var keys := SortedKeys(groups);
    result := [];
    for k := 0 to |keys|
      invariant Visited(input, keys, k, result)
    {
      var items := groups[keys[k]];
      var hidden, controls := CountKinds(items);
      ghost var before := result;
      if !(hidden == 0 || controls == 0) {
        result := result + [StratumOf(items, keys[k])];
      }
      VisitNext(input, keys, k, before, result);
    }
    assert keys[..|keys|] == keys;
  }

  // ----- what the matching guarantees -----

  lemma StrataAreWellMatched(input: seq<Observation>, strata: seq<MatchedStratum>)
    requires IsMatching(input, strata)
    ensures forall s :: s in strata ==> WellMatched(s.observations)
  {
    forall s | s in strata ensures WellMatched(s.observations) {
      forall i | 0 <= i < |s.observations|
        ensures s.observations[i].strongHidden || s.observations[i].control
      {
        StratumMembers(input, s, s.observations[i]);
      }
    }
  }

  lemma StratumMembers(input: seq<Observation>, s: MatchedStratum, o: Observation)
    requires IsStratum(input, s)
    ensures o in s.observations <==> o in input && Matchable(o) && KeyOf(o) == s.contextKey
  {
    var group := Group(input, s.contextKey);
    SelectedMember(input, Matchable, KeyOf, s.contextKey);
    SortPermutes(group, IDAtMost);
  }

  /** Both observations were made in the same matched context. */
  predicate SameContext(o: Observation, o': Observation) {
    var c, c' := o.context, o'.context;
    && c.observer == c'.observer && c.serverID == c'.serverID && c.mapID == c'.mapID && c.areaCell == c'.areaCell
    && c.movementBand == c'.movementBand && c.stanceID == c'.stanceID && c.weaponState == c'.weaponState
    && c.cameraMode == c'.cameraMode && c.populationBand == c'.populationBand && o.cueClass == o'.cueClass
    && c.samplingPolicy == c'.samplingPolicy
  }

  /** No field of the context but the last contains the separator. */
  predicate SeparatorFree(o: Observation) {
    var c := o.context;
    && NoBar(c.observer) && NoBar(c.serverID) && NoBar(c.mapID) && NoBar(c.areaCell) && NoBar(c.movementBand)
    && NoBar(c.weaponState) && NoBar(c.cameraMode) && NoBar(c.populationBand)
  }

  /** Equal keys mean equal contexts, in all eleven fields. */
  lemma KeyIsContext(o: Observation, o': Observation)
    requires SeparatorFree(o) && SeparatorFree(o')
    ensures KeyOf(o) == KeyOf(o') <==> SameContext(o, o')
  {
    if KeyOf(o) == KeyOf(o') {
      SignedNoBar(o.context.stanceID);
      SignedNoBar(o'.context.stanceID);
      FieldsNoBar(o);
      FieldsNoBar(o');
      JoinedInjective(Fields(o), Fields(o'));
      SameFields(o, o');
    }
  }

  lemma FieldsNoBar(o: Observation)
    requires SeparatorFree(o)
    ensures forall i :: 0 <= i < |Fields(o)| - 1 ==> NoBar(Fields(o)[i])
  {
    SignedNoBar(o.context.stanceID);
  }

  lemma SameFields(o: Observation, o': Observation)
    requires Fields(o) == Fields(o')
    ensures SameContext(o, o')
  {
    var f, f' := Fields(o), Fields(o');
    assert forall i :: 0 <= i < 11 ==> f[i] == f'[i];
    assert f[5] == f'[5] && f[9] == f'[9];
    SignedInjective(o.context.stanceID, o'.context.stanceID);
  }

  /** A stratum is one matched context: exactly the matchable observations that agree with a member in all fields. */
  lemma StratumIsContext(input: seq<Observation>, s: MatchedStratum, o: Observation, o': Observation)
    requires IsStratum(input, s) && o in s.observations && SeparatorFree(o) && SeparatorFree(o')
    ensures o' in s.observations <==> o' in input && Matchable(o') && SameContext(o, o')
  {
    StratumMembers(input, s, o);
    StratumMembers(input, s, o');
    KeyIsContext(o, o');
  }

  /** With separators in its ids a stratum can mix players: "a|b" on server "c" is matched with "a" on server "b|c". */
  lemma MixedStratum(o: Observation, o': Observation, strata: seq<MatchedStratum>) returns (s: MatchedStratum)
    requires o.context.observer == "a|b" && o.context.serverID == "c" && o'.context.observer == "a" && o'.context.serverID == "b|c"
    requires SameContext(o.(context := o.context.(observer := "a", serverID := "b|c")), o')
    requires Matchable(o) && o.strongHidden && Matchable(o') && o'.control
    requires IsMatching([o, o'], strata)
    ensures s in strata && o in s.observations && o' in s.observations
  {
    var input := [o, o'];
    MixedKey(o, o');
    assert o in input && o' in input;
    SelectedMember(input, Matchable, KeyOf, KeyOf(o));
    assert Kept(Group(input, KeyOf(o)));
    UsedObservations(input, strata, o);
    var i :| 0 <= i < |strata| && o in strata[i].observations;
    s := strata[i];
    StratumMembers(input, s, o);
    StratumMembers(input, s, o');
  }

  lemma MixedKey(o: Observation, o': Observation)
    requires o.context.observer == "a|b" && o.context.serverID == "c" && o'.context.observer == "a" && o'.context.serverID == "b|c"
    requires SameContext(o.(context := o.context.(observer := "a", serverID := "b|c")), o')
    ensures KeyOf(o) == KeyOf(o')
  {
    var f, f' := Fields(o), Fields(o');
    assert f[2..] == f'[2..];
    var tail := Joined(f[2..]);
    assert f[1..][1..] == f[2..] && f'[1..][1..] == f'[2..];
    assert Joined(f[1..]) == "c" + "|" + tail && Joined(f'[1..]) == "b|c" + "|" + tail;
    assert KeyOf(o) == "a|b" + "|" + ("c" + "|" + tail) && KeyOf(o') == "a" + "|" + ("b|c" + "|" + tail);
  }

  /** No observation is used twice. */
  lemma AtMostOneStratum(input: seq<Observation>, strata: seq<MatchedStratum>, o: Observation, i: nat, j: nat)
    requires IsMatching(input, strata) && i < j < |strata|
    ensures !(o in strata[i].observations && o in strata[j].observations)
  {
    assert strata[i] in strata && strata[j] in strata;
    StratumMembers(input, strata[i], o);
    StratumMembers(input, strata[j], o);
    StringTrichotomy(strata[i].contextKey, strata[j].contextKey);
  }

  /** Exactly the matchable observations of kept contexts are used. */
  lemma UsedObservations(input: seq<Observation>, strata: seq<MatchedStratum>, o: Observation)
    requires IsMatching(input, strata)
    ensures o in input && Matchable(o) && Kept(Group(input, KeyOf(o))) <==>
              exists i :: 0 <= i < |strata| && o in strata[i].observations
  {
    forall i | 0 <= i < |strata|
      ensures o in strata[i].observations <==> o in input && Matchable(o) && KeyOf(o) == strata[i].contextKey
    {
      assert strata[i] in strata;
      StratumMembers(input, strata[i], o);
    }
    if o in input && Matchable(o) && Kept(Group(input, KeyOf(o))) {
      assert KeyOf(o) in Keys(input) && HasKey(strata, KeyOf(o));
      var s :| s in strata && s.contextKey == KeyOf(o);
      var i :| 0 <= i < |strata| && strata[i] == s;
      assert o in strata[i].observations;
    }
    if i :| 0 <= i < |strata| && o in strata[i].observations {
      assert strata[i] in strata;
    }
  }

  /** The matching is determined by its specification, and the order of the input is immaterial. */
  lemma MatchingUnique(input: seq<Observation>, input': seq<Observation>,
                       strata: seq<MatchedStratum>, strata': seq<MatchedStratum>)
    requires IsMatching(input, strata) && IsMatching(input', strata')
    requires multiset(input) == multiset(input') && NoTies(input, IDAtMost)
    ensures strata == strata'
  {
    var ks := seq(|strata|, i requires 0 <= i < |strata| => strata[i].contextKey);
    var ks' := seq(|strata'|, i requires 0 <= i < |strata'| => strata'[i].contextKey);
    SameElements(input, input');
    forall key ensures key in ks <==> key in ks' {
      SameGroup(input, input', key);
      KeyListed(input, strata, key, ks);
      KeyListed(input', strata', key, ks');
    }
    IncreasingUnique(ks, ks');
    forall i | 0 <= i < |strata| ensures strata[i] == strata'[i] {
      assert ks[i] == ks'[i];
      assert strata[i] in strata && strata'[i] in strata';
      SameGroup(input, input', ks[i]);
    }
  }

  lemma KeyListed(input: seq<Observation>, strata: seq<MatchedStratum>, key: string, ks: seq<string>)
    requires IsMatching(input, strata)
    requires |ks| == |strata| && forall i :: 0 <= i < |ks| ==> ks[i] == strata[i].contextKey
    ensures key in ks <==> key in Keys(input) && Kept(Group(input, key))
  {
    if key in ks {
      var i :| 0 <= i < |ks| && ks[i] == key;
      assert strata[i] in strata;
    }
    if key in Keys(input) && Kept(Group(input, key)) {
      assert HasKey(strata, key);
      var s :| s in strata && s.contextKey == key;
      var i :| 0 <= i < |strata| && strata[i] == s;
      assert ks[i] == key;
    }
  }

  lemma SameGroup(input: seq<Observation>, input': seq<Observation>, key: string)
    requires multiset(input) == multiset(input') && NoTies(input, IDAtMost)
    ensures SortBy(Group(input, key), IDAtMost) == SortBy(Group(input', key), IDAtMost)
    ensures Kept(Group(input, key)) == Kept(Group(input', key))
    ensures key in Keys(input) <==> key in Keys(input')
  {
    SelectedMultiset(input, input', Matchable, KeyOf, key);
    SelectedMember(input, Matchable, KeyOf, key);
    SameElements(input, input');
    SameElements(Group(input, key), Group(input', key));
    IDOrder();
    assert NoTies(Group(input, key), IDAtMost);
    SortOfPermutation(Group(input, key), Group(input', key), IDAtMost);
  }

  lemma IDOrder()
    ensures TotalOrder(IDAtMost)
  {
    forall a, b ensures IDAtMost(a, b) || IDAtMost(b, a) {
      StringTrichotomy(a.observationID, b.observationID);
    }
    forall a, b, c | IDAtMost(a, b) && IDAtMost(b, c) ensures IDAtMost(a, c) {
      StringTransitive(a.observationID, b.observationID, c.observationID);
    }
  }
}
