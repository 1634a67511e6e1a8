/** The Benjamini-Hochberg adjustment and the step-up rule it stands for. */
module FalseDiscovery {
  import opened Sorting

  datatype Entry = Entry(id: string, raw: real)

  datatype AdjustedPValue = AdjustedPValue(id: string, raw: real, adjusted: real)

  function Clamp(p: real): real {
    if p < 0.0 then 0.0 else if p > 1.0 then 1.0 else p
  }

  predicate EntryLess(a: Entry, b: Entry) {
    if a.raw == b.raw then StringLess(a.id, b.id) else a.raw < b.raw
  }

  predicate EntryAtMost(a: Entry, b: Entry) {
    !EntryLess(b, a)
  }

  lemma EntryOrder()
    ensures TotalOrder(EntryAtMost)
    ensures forall a, b :: EntryAtMost(a, b) && EntryAtMost(b, a) ==> a == b
  {
    forall a, b ensures EntryAtMost(a, b) || EntryAtMost(b, a)
      ensures EntryAtMost(a, b) && EntryAtMost(b, a) ==> a == b
    {
      StringTrichotomy(a.id, b.id);
    }
    forall a, b, c | EntryAtMost(a, b) && EntryAtMost(b, c) ensures EntryAtMost(a, c) {
      if a.raw == b.raw == c.raw {
        StringTransitive(a.id, b.id, c.id);
      }
    }
  }

  /** The entries of the input, each p-value clamped into the unit interval. */
  function Entries(values: map<string, real>): set<Entry> {
    set id | id in values :: Entry(id, Clamp(values[id]))
  }

  function Raws(entries: seq<Entry>): seq<real> {
    seq(|entries|, i requires 0 <= i < |entries| => entries[i].raw)
  }

  /** The p-value at rank i + 1, scaled by the number of hypotheses over its rank. */
  function Scaled(raws: seq<real>, i: nat): real
    requires i < |raws|
  {
    PerRank(raws[i], |raws|, i + 1)
  }

  function PerRank(p: real, hypotheses: nat, rank: nat): real
    requires rank > 0
  {
    p * hypotheses as real / rank as real
  }

  /** What the backward sweep leaves at rank i + 1; one beyond the end. */
  function Adjust(raws: seq<real>, i: nat): real
    requires i <= |raws|
    decreases |raws| - i
  {
    if i == |raws| then 1.0
    else if Scaled(raws, i) > Adjust(raws, i + 1) then Adjust(raws, i + 1)
    else Scaled(raws, i)
  }

  ghost predicate IsAdjustment(values: map<string, real>, result: seq<AdjustedPValue>) {
    exists entries ::
      && multiset(entries) == multiset(Entries(values))
      && Sorted(entries, EntryAtMost)
      && result == Attach(entries)
  }

  function Attach(entries: seq<Entry>): seq<AdjustedPValue> {
    seq(|entries|, i requires 0 <= i < |entries| =>
      AdjustedPValue(entries[i].id, entries[i].raw, Adjust(Raws(entries), i)))
  }

  // ----- the loops of the source -----

  function EntriesOf(values: map<string, real>, done: set<string>): set<Entry> {
    set id | id in done && id in values :: Entry(id, Clamp(values[id]))
  }

  lemma OneMoreEntry(values: map<string, real>, done: set<string>, id: string)
    requires id in values && id !in done
    ensures Entry(id, Clamp(values[id])) !in EntriesOf(values, done)
    ensures EntriesOf(values, done + {id}) == EntriesOf(values, done) + {Entry(id, Clamp(values[id]))}
  {
  }

  method CollectEntries(values: map<string, real>) returns (entries: seq<Entry>)
    ensures multiset(entries) == multiset(Entries(values))
  {
    entries := [];
    var rest := values.Keys;
    ghost var done: set<string> := {};
    while rest != {}
      invariant rest <= values.Keys && done == values.Keys - rest
      invariant multiset(entries) == multiset(EntriesOf(values, done))
      decreases rest
    {
      var id :| id in rest;
      OneMoreEntry(values, done, id);
      entries := entries + [Entry(id, Clamp(values[id]))];
      rest, done := rest - {id}, done + {id};
    }
    assert done == values.Keys;
    assert Entries(values) == EntriesOf(values, done);
  }

  method BenjaminiHochberg(values: map<string, real>) returns (result: array<AdjustedPValue>)
    ensures IsAdjustment(values, result[..])
  {
    var entries := CollectEntries(values);
    SortPermutes(entries, EntryAtMost);
    EntryOrder();
    SortSorts(entries, EntryAtMost);
    var sorted := SortBy(entries, EntryAtMost);
    result := new AdjustedPValue[|sorted|](i requires 0 <= i < |sorted| => AdjustedPValue(sorted[i].id, sorted[i].raw, 0.0));
    AdjustRanks(result, sorted);
  }

  /** The backward sweep, in place. */
  method AdjustRanks(result: array<AdjustedPValue>, ghost sorted: seq<Entry>)
    requires result.Length == |sorted| && forall k :: 0 <= k < |sorted| ==> Matches(result[k], sorted, k)
    modifies result
    ensures result[..] == Attach(sorted)
  {
    ghost var raws := Raws(sorted);
    var previous := 1.0;
    var index := result.Length;
    while index > 0
      invariant 0 <= index <= result.Length && previous == Adjust(raws, index)
      invariant forall k :: 0 <= k < index ==> Matches(result[k], sorted, k)
      invariant forall k :: index <= k < |sorted| ==> result[k] == Attach(sorted)[k]
    {
      index := index - 1;
      assert Matches(result[index], sorted, index);
      previous := AdjustRank(raws, result[index].raw, result.Length, index, previous);
      result[index] := result[index].(adjusted := previous);
    }
  }

  predicate Matches(value: AdjustedPValue, sorted: seq<Entry>, k: nat)
    requires k < |sorted|
  {
    value.id == sorted[k].id && value.raw == sorted[k].raw
  }

  /** The adjusted value at one rank, from the one before it in the sweep. */
  method AdjustRank(ghost raws: seq<real>, raw: real, count: nat, index: nat, previous: real) returns (adjusted: real)
    requires index < |raws| == count && raw == raws[index] && previous == Adjust(raws, index + 1)
    ensures adjusted == Adjust(raws, index)
  {
    adjusted := PerRank(raw, count, index + 1);
    AdjustIs(raws, index, adjusted);
    if adjusted > previous {
      adjusted := previous;
    }
    if adjusted > 1.0 {
      adjusted := 1.0;
    }
  }

  lemma AdjustIs(raws: seq<real>, i: nat, scaled: real)
    requires i < |raws| && scaled == PerRank(raws[i], |raws|, i + 1)
    ensures Adjust(raws, i) == if scaled > Adjust(raws, i + 1) then Adjust(raws, i + 1) else scaled
    ensures Adjust(raws, i) <= 1.0
  {
    AdjustAtMostOne(raws, i);
  }

  lemma {:induction false} AdjustAtMostOne(raws: seq<real>, i: nat)
    requires i <= |raws|
    ensures Adjust(raws, i) <= 1.0
    decreases |raws| - i
  {
    if i < |raws| {
      AdjustAtMostOne(raws, i + 1);
    }
  }

  // ----- what the adjustment means -----

  /** The random order of a hash map has no effect on the result. */
  lemma AdjustmentUnique(values: map<string, real>, r: seq<AdjustedPValue>, r': seq<AdjustedPValue>)
    requires IsAdjustment(values, r) && IsAdjustment(values, r')
    ensures r == r'
  {
    EntryOrder();
    var entries :| multiset(entries) == multiset(Entries(values)) && Sorted(entries, EntryAtMost) && r == Attach(entries);
    var entries' :| multiset(entries') == multiset(Entries(values)) && Sorted(entries', EntryAtMost) && r' == Attach(entries');
    SortedUnique(entries, entries', EntryAtMost);
  }

  /** P-values in increasing order, all in the unit interval. */
  ghost predicate Ranked(raws: seq<real>) {
    && (forall i :: 0 <= i < |raws| ==> 0.0 <= raws[i] <= 1.0)
    && (forall i, j :: 0 <= i < j < |raws| ==> raws[i] <= raws[j])
  }

  lemma AdjustmentIsRanked(values: map<string, real>, r: seq<AdjustedPValue>) returns (entries: seq<Entry>)
    requires IsAdjustment(values, r)
    ensures r == Attach(entries) && Ranked(Raws(entries))
    ensures forall e :: e in entries <==> e.id in values && e.raw == Clamp(values[e.id])
  {
    entries :| multiset(entries) == multiset(Entries(values)) && Sorted(entries, EntryAtMost) && r == Attach(entries);
    forall e ensures e in entries <==> e in Entries(values) {
      assert e in entries <==> e in multiset(entries);
    }
    forall i | 0 <= i < |entries| ensures 0.0 <= entries[i].raw <= 1.0 {
      assert entries[i] in entries;
    }
    forall i, j | 0 <= i < j < |entries| ensures entries[i].raw <= entries[j].raw {
      assert EntryAtMost(entries[i], entries[j]);
    }
  }

  /** The adjusted value is the least of one and the scaled p-values from its rank on. */
  lemma {:induction false} AdjustIsMinimum(raws: seq<real>, i: nat)
    requires i <= |raws|
    ensures Adjust(raws, i) <= 1.0
    ensures forall j :: i <= j < |raws| ==> Adjust(raws, i) <= Scaled(raws, j)
    ensures Adjust(raws, i) == 1.0 || exists j :: i <= j < |raws| && Adjust(raws, i) == Scaled(raws, j)
    decreases |raws| - i
  {
    if i < |raws| {
      AdjustIsMinimum(raws, i + 1);
    }
  }

  lemma {:induction false} AdjustNondecreasing(raws: seq<real>, i: nat, j: nat)
    requires i <= j <= |raws|
    ensures Adjust(raws, i) <= Adjust(raws, j)
    decreases j - i
  {
    if i < j {
      AdjustNondecreasing(raws, i + 1, j);
    }
  }

  lemma QuotientAtMost(a: real, r: real, alpha: real)
    requires r > 0.0
    ensures a / r <= alpha <==> a <= alpha * r
  {
    var q := a / r;
    assert q * r == a;
    SameSign(alpha - q, r);
    assert (alpha - q) * r == alpha * r - q * r;
  }

  lemma SameSign(d: real, r: real)
    requires r > 0.0
    ensures d >= 0.0 <==> d * r >= 0.0
  {
  }

  lemma PerRankAtMost(p: real, m: nat, rank: nat, alpha: real)
    requires rank > 0
    ensures PerRank(p, m, rank) <= alpha <==> StepUp(p, m, rank, alpha)
  {
    QuotientAtMost(p * m as real, rank as real, alpha);
  }

  /** The step-up comparison of one p-value at level alpha. */
  predicate StepUp(p: real, hypotheses: nat, rank: nat, alpha: real) {
    p * hypotheses as real <= alpha * rank as real
  }

  predicate Passes(raws: seq<real>, alpha: real, i: nat)
    requires i < |raws|
  {
    StepUp(raws[i], |raws|, i + 1, alpha)
  }

  /** The step-up rule: the number of hypotheses rejected is the largest passing rank. */
  function Rejected(raws: seq<real>, alpha: real, n: nat): nat
    requires n <= |raws|
  {
    if n == 0 then 0 else if Passes(raws, alpha, n - 1) then n else Rejected(raws, alpha, n - 1)
  }

  lemma {:induction false} RejectedIs(raws: seq<real>, alpha: real, n: nat)
    requires n <= |raws|
    ensures Rejected(raws, alpha, n) <= n
    ensures Rejected(raws, alpha, n) > 0 ==> Passes(raws, alpha, Rejected(raws, alpha, n) - 1)
    ensures forall k :: Rejected(raws, alpha, n) <= k < n ==> !Passes(raws, alpha, k)
  {
    if n > 0 {
      RejectedIs(raws, alpha, n - 1);
    }
  }

  /** At every level, the entries adjusted to at most alpha are exactly the ones the step-up rule rejects. */
  lemma AdjustedMeansRejected(raws: seq<real>, alpha: real, i: nat)
    requires Ranked(raws) && i < |raws|
    ensures Adjust(raws, i) <= alpha <==> i < Rejected(raws, alpha, |raws|)
  {
    if i < Rejected(raws, alpha, |raws|) {
      RejectedAreAdjusted(raws, alpha, i);
    }
    if Adjust(raws, i) <= alpha {
      AdjustedAreRejected(raws, alpha, i);
    }
  }

  lemma RejectedAreAdjusted(raws: seq<real>, alpha: real, i: nat)
    requires i < |raws| && i < Rejected(raws, alpha, |raws|)
    ensures Adjust(raws, i) <= alpha
  {
    RejectedIs(raws, alpha, |raws|);
    PassingBounds(raws, alpha, i, Rejected(raws, alpha, |raws|) - 1);
  }

  lemma PassingBounds(raws: seq<real>, alpha: real, i: nat, k: nat)
    requires i <= k < |raws| && Passes(raws, alpha, k)
    ensures Adjust(raws, i) <= alpha
  {
    AdjustIsMinimum(raws, i);
    PerRankAtMost(raws[k], |raws|, k + 1, alpha);
    assert Adjust(raws, i) <= Scaled(raws, k);
  }

  lemma AdjustedAreRejected(raws: seq<real>, alpha: real, i: nat)
    requires Ranked(raws) && i < |raws| && Adjust(raws, i) <= alpha
    ensures i < Rejected(raws, alpha, |raws|)
  {
    RejectedIs(raws, alpha, |raws|);
    AdjustIsMinimum(raws, i);
    if Adjust(raws, i) == 1.0 {
      LastPasses(raws[|raws| - 1], |raws|, alpha);
      assert Passes(raws, alpha, |raws| - 1);
    } else {
      var j :| i <= j < |raws| && Adjust(raws, i) == Scaled(raws, j);
      PerRankAtMost(raws[j], |raws|, j + 1, alpha);
      assert Passes(raws, alpha, j);
    }
  }

  lemma LastPasses(p: real, m: nat, alpha: real)
    requires p <= 1.0 && alpha >= 1.0
    ensures StepUp(p, m, m, alpha)
  {
    assert (alpha - p) * m as real >= 0.0;
  }

  lemma LargerRankSmaller(p: real, m: nat, rank: nat, rank': nat)
    requires p >= 0.0 && 0 < rank <= rank'
    ensures PerRank(p, m, rank') <= PerRank(p, m, rank)
  {
    var a, r, r' := p * m as real, rank as real, rank' as real;
    var q := a / r;
    assert a >= 0.0 && q * r == a;
    SameSign(q, r);
    assert q * r' - q * r == q * (r' - r);
    QuotientAtMost(a, r', q);
  }

  /** Tied p-values receive the same adjusted value. */
  lemma {:induction false} TiesAgree(raws: seq<real>, i: nat, j: nat)
    requires Ranked(raws) && i <= j < |raws| && raws[i] == raws[j]
    ensures Adjust(raws, i) == Adjust(raws, j)
    decreases j - i
  {
    if i < j {
      assert raws[i] <= raws[i + 1] && (i + 1 == j || raws[i + 1] <= raws[j]);
      TiesAgree(raws, i + 1, j);
      TieStep(raws, i, j);
    }
  }

  lemma TieStep(raws: seq<real>, i: nat, j: nat)
    requires Ranked(raws) && i < j < |raws| && raws[i] == raws[j] && Adjust(raws, i + 1) == Adjust(raws, j)
    ensures Adjust(raws, i) == Adjust(raws, j)
  {
    LargerRankSmaller(raws[i], |raws|, i + 1, j + 1);
    assert Scaled(raws, j) >= Adjust(raws, j);
  }

  /** Adjusting never makes a p-value smaller. */
  lemma {:induction false} AdjustNeverHelps(raws: seq<real>, i: nat)
    requires Ranked(raws) && i < |raws|
    ensures Adjust(raws, i) >= raws[i]
  {
    AdjustIsMinimum(raws, i);
    if Adjust(raws, i) != 1.0 {
      var j :| i <= j < |raws| && Adjust(raws, i) == Scaled(raws, j);
      LargerRankSmaller(raws[j], |raws|, j + 1, |raws|);
      LastRank(raws[j], |raws|);
    }
  }

  lemma LastRank(p: real, m: nat)
    requires m > 0
    ensures PerRank(p, m, m) == p
  {
  }

  // ----- the result in terms of the input -----

  /** A p-value is used as it is; one outside the unit interval counts as the end it lies beyond. */
  predicate Uses(p: real, raw: real) {
    (0.0 <= p <= 1.0 ==> raw == p) && (p < 0.0 ==> raw == 0.0) && (p > 1.0 ==> raw == 1.0)
  }

  predicate Tells(values: map<string, real>, r: AdjustedPValue) {
    r.id in values && Uses(values[r.id], r.raw)
  }

  lemma NoEntryTwice(values: map<string, real>, entries: seq<Entry>, i: nat, j: nat)
    requires multiset(entries) == multiset(Entries(values)) && i < j < |entries|
    ensures entries[i] != entries[j]
  {
    if entries[i] == entries[j] {
      Repeated(entries, i, j);
      assert false;
    }
  }

  /** The least of one and the scaled p-values from rank i + 1 on, in the result's own fields. */
  ghost predicate IsLeastFrom(r: seq<AdjustedPValue>, i: nat)
    requires i < |r|
  {
    && r[i].adjusted <= 1.0
    && (forall j :: i <= j < |r| ==> r[i].adjusted <= PerRank(r[j].raw, |r|, j + 1))
    && (r[i].adjusted == 1.0 || exists j :: i <= j < |r| && r[i].adjusted == PerRank(r[j].raw, |r|, j + 1))
  }

  lemma EntriesTell(values: map<string, real>, entries: seq<Entry>)
    requires multiset(entries) == multiset(Entries(values))
    ensures forall i :: 0 <= i < |entries| ==> entries[i].id in values && entries[i].raw == Clamp(values[entries[i].id])
    ensures forall id :: id in values ==> Entry(id, Clamp(values[id])) in entries
  {
    forall e ensures e in entries <==> e in Entries(values) {
      assert e in entries <==> e in multiset(entries);
    }
    forall i | 0 <= i < |entries| ensures entries[i].id in values && entries[i].raw == Clamp(values[entries[i].id]) {
      assert entries[i] in entries;
    }
  }

  predicate Before(a: AdjustedPValue, b: AdjustedPValue) {
    a.id != b.id && (a.raw < b.raw || (a.raw == b.raw && StringLess(a.id, b.id)))
  }

  lemma EntriesInOrder(values: map<string, real>, entries: seq<Entry>, i: nat, j: nat)
    requires multiset(entries) == multiset(Entries(values)) && Sorted(entries, EntryAtMost) && i < j < |entries|
    ensures Before(Attach(entries)[i], Attach(entries)[j])
  {
    var a, b := entries[i], entries[j];
    EntriesTell(values, entries);
    NoEntryTwice(values, entries, i, j);
    assert EntryAtMost(a, b);
    StringTrichotomy(a.id, b.id);
  }

  lemma EveryInputListed(values: map<string, real>, entries: seq<Entry>, id: string) returns (i: nat)
    requires multiset(entries) == multiset(Entries(values)) && id in values
    ensures i < |entries| && Attach(entries)[i].id == id
  {
    EntriesTell(values, entries);
    i :| 0 <= i < |entries| && entries[i] == Entry(id, Clamp(values[id]));
  }

  lemma RankTells(values: map<string, real>, entries: seq<Entry>, i: nat)
    requires multiset(entries) == multiset(Entries(values)) && i < |entries|
    ensures Tells(values, Attach(entries)[i]) && IsLeastFrom(Attach(entries), i)
  {
    EntriesTell(values, entries);
    LeastFrom(entries, Attach(entries), i);
  }

  predicate Lists(r: seq<AdjustedPValue>, id: string) {
    exists i :: 0 <= i < |r| && r[i].id == id
  }

  /**
   The result lists every hypothesis once, by p-value and then by identifier, with its p-value unchanged when that lies in
   the unit interval, and each adjusted value is the least of one and the scaled p-values from its rank on.
   */
  lemma ResultIsOfInput(values: map<string, real>, r: seq<AdjustedPValue>)
    requires IsAdjustment(values, r)
    ensures forall i :: 0 <= i < |r| ==> Tells(values, r[i]) && IsLeastFrom(r, i)
    ensures forall id :: id in values ==> Lists(r, id)
    ensures forall i, j :: 0 <= i < j < |r| ==> Before(r[i], r[j])
  {
    var entries: seq<Entry> :|
      multiset(entries) == multiset(Entries(values)) && Sorted(entries, EntryAtMost) && r == Attach(entries);
    forall i | 0 <= i < |r| ensures Tells(values, r[i]) && IsLeastFrom(r, i) {
      RankTells(values, entries, i);
    }
    forall id | id in values ensures Lists(r, id) {
      var i := EveryInputListed(values, entries, id);
    }
    forall i, j | 0 <= i < j < |r| ensures Before(r[i], r[j]) {
      EntriesInOrder(values, entries, i, j);
    }
  }

  lemma LeastFrom(entries: seq<Entry>, r: seq<AdjustedPValue>, i: nat)
    requires r == Attach(entries) && i < |r|
    ensures IsLeastFrom(r, i)
  {
    var raws := Raws(entries);
    AdjustIsMinimum(raws, i);
    assert forall j :: i <= j < |r| ==> Scaled(raws, j) == PerRank(r[j].raw, |r|, j + 1);
    if r[i].adjusted != 1.0 {
      var j :| i <= j < |raws| && Adjust(raws, i) == Scaled(raws, j);
      assert r[i].adjusted == PerRank(r[j].raw, |r|, j + 1);
    }
  }
}
