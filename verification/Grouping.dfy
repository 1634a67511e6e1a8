/** Grouping a sequence by a string key, and listing the keys in order. */
module Grouping {
  import opened Sorting

  function Selected<T>(s: seq<T>, select: T -> bool, keyOf: T -> string, key: string): seq<T> {
    Filter(s, t => select(t) && keyOf(t) == key)
  }

  ghost function SelectedKeys<T>(s: seq<T>, select: T -> bool, keyOf: T -> string): set<string> {
    set t | t in s && select(t) :: keyOf(t)
  }

  lemma SelectedMember<T>(s: seq<T>, select: T -> bool, keyOf: T -> string, key: string)
    ensures forall t :: t in Selected(s, select, keyOf, key) <==> t in s && select(t) && keyOf(t) == key
  {
    FilterMember(s, t => select(t) && keyOf(t) == key);
  }

  lemma SelectedMultiset<T(!new)>(s: seq<T>, s': seq<T>, select: T -> bool, keyOf: T -> string, key: string)
    requires multiset(s) == multiset(s')
    ensures multiset(Selected(s, select, keyOf, key)) == multiset(Selected(s', select, keyOf, key))
  {
    FilterMultiset(s, s', t => select(t) && keyOf(t) == key);
  }

  ghost predicate Grouped<T>(s: seq<T>, select: T -> bool, keyOf: T -> string, groups: map<string, seq<T>>) {
    && groups.Keys == SelectedKeys(s, select, keyOf)
    && forall key :: Selected(s, select, keyOf, key) == if key in groups then groups[key] else []
  }

  lemma SelectedGrows<T>(s: seq<T>, t: T, select: T -> bool, keyOf: T -> string, key: string)
    ensures Selected(s + [t], select, keyOf, key)
         == Selected(s, select, keyOf, key) + if select(t) && keyOf(t) == key then [t] else []
  {
    FilterAppend(s, [t], t => select(t) && keyOf(t) == key);
    assert [t][1..] == [];
  }

  /** The groups once `t` has been looked at. */
  function Grown<T>(groups: map<string, seq<T>>, t: T, select: T -> bool, keyOf: T -> string): map<string, seq<T>> {
    if select(t) then groups[keyOf(t) := (if keyOf(t) in groups then groups[keyOf(t)] else []) + [t]] else groups
  }

  lemma GroupedEmpty<T>(s: seq<T>, select: T -> bool, keyOf: T -> string)
    requires s == []
    ensures Grouped(s, select, keyOf, map[])
  {
  }

  lemma GroupedGrows<T>(s: seq<T>, t: T, select: T -> bool, keyOf: T -> string, groups: map<string, seq<T>>)
    requires Grouped(s, select, keyOf, groups)
    ensures Grouped(s + [t], select, keyOf, Grown(groups, t, select, keyOf))
  {
    var next := Grown(groups, t, select, keyOf);
    forall key ensures Selected(s + [t], select, keyOf, key) == if key in next then next[key] else [] {
      SelectedGrows(s, t, select, keyOf, key);
    }
    assert SelectedKeys(s + [t], select, keyOf) == SelectedKeys(s, select, keyOf) + if select(t) then {keyOf(t)} else {};
  }

  method GroupInto<T>(input: seq<T>, select: T -> bool, keyOf: T -> string) returns (groups: map<string, seq<T>>)
    ensures Grouped(input, select, keyOf, groups)
  {
    groups := map[];
    GroupedEmpty(input[..0], select, keyOf);
    for i := 0 to |input|
      invariant Grouped(input[..i], select, keyOf, groups)
    {
      var t := input[i];
      GroupedGrows(input[..i], t, select, keyOf, groups);
      assert input[..i + 1] == input[..i] + [t];
      if select(t) {
        var key := keyOf(t);
        groups := groups[key := (if key in groups then groups[key] else []) + [t]];
      }
    }
    assert input[..|input|] == input;
  }

  ghost predicate StrictlyIncreasing(keys: seq<string>) {
    forall i, j :: 0 <= i < j < |keys| ==> StringLess(keys[i], keys[j])
  }

  /** The keys of a hash map, first in arbitrary order and then sorted. */
  method SortedKeys<T>(groups: map<string, seq<T>>) returns (keys: seq<string>)
    ensures forall key :: key in keys <==> key in groups
    ensures StrictlyIncreasing(keys)
  {
    var unsorted: seq<string>, rest := [], groups.Keys;
    while rest != {}
      invariant rest <= groups.Keys
      invariant multiset(unsorted) == multiset(groups.Keys - rest)
      decreases rest
    {
      var key :| key in rest;
      unsorted := unsorted + [key];
      assert groups.Keys - (rest - {key}) == (groups.Keys - rest) + {key};
      rest := rest - {key};
    }
    assert groups.Keys - {} == groups.Keys;
    keys := SortBy(unsorted, StringAtMost);
    SortPermutes(unsorted, StringAtMost);
    StringOrder();
    SortSorts(unsorted, StringAtMost);
    DistinctIncreasing(keys, groups.Keys);
  }

  lemma DistinctIncreasing(keys: seq<string>, all: set<string>)
    requires multiset(keys) == multiset(all) && Sorted(keys, StringAtMost)
    ensures forall key :: key in keys <==> key in all
    ensures StrictlyIncreasing(keys)
  {
    forall key ensures key in keys <==> key in all {
      assert key in keys <==> key in multiset(keys);
    }
    forall i, j | 0 <= i < j < |keys| ensures StringLess(keys[i], keys[j]) {
      StringTrichotomy(keys[i], keys[j]);
      if keys[i] == keys[j] {
        Repeated(keys, i, j);
        assert false;
      }
    }
  }

  lemma HeadAbsent(a: seq<string>)
    requires a != [] && StrictlyIncreasing(a)
    ensures forall k :: k in a[1..] <==> k in a && k != a[0]
  {
    StringTrichotomy(a[0], a[0]);
    assert a == [a[0]] + a[1..];
    forall k | k in a[1..] ensures k != a[0] {
      var i :| 1 <= i < |a| && a[i] == k;
      assert StringLess(a[0], a[i]);
    }
  }

  lemma {:induction false} IncreasingUnique(a: seq<string>, b: seq<string>)
    requires StrictlyIncreasing(a)
    requires StrictlyIncreasing(b)
    requires forall k :: k in a <==> k in b
    ensures a == b
  {
    assert a != [] ==> a[0] in a && a[0] in b;
    assert b != [] ==> b[0] in b && b[0] in a;
    if a != [] {
      assert a[0] in b;
      assert b[0] in a;
      var i :| 0 <= i < |a| && a[i] == b[0];
      var j :| 0 <= j < |b| && b[j] == a[0];
      StringTrichotomy(a[0], b[0]);
      assert a[0] == b[0];
      StringTrichotomy(a[0], a[0]);
      HeadAbsent(a);
      HeadAbsent(b);
      IncreasingUnique(a[1..], b[1..]);
    }
  }
}
