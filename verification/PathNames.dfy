/** Which batches share a file, in the outbox and in the central store alike. */
module PathNames {
  import opened Delivery
  import opened Sorting

  /** An identifier that needs no cleaning. */
  predicate Plain(id: string) {
    id != "" && id != "." && id != ".." && forall i :: 0 <= i < |id| ==> SafeChar(id[i])
  }

  predicate NoSlash(s: string) {
    '/' !in s
  }

  lemma {:induction false} CollapseIsSafe(s: string, inRun: bool)
    ensures forall i :: 0 <= i < |Collapse(s, inRun)| ==> SafeChar(Collapse(s, inRun)[i])
  {
    if s != "" {
      CollapseIsSafe(s[1..], !SafeChar(s[0]));
    }
  }

  lemma {:induction false} CollapseKeepsSafe(s: string, inRun: bool)
    requires forall i :: 0 <= i < |s| ==> SafeChar(s[i])
    ensures Collapse(s, inRun) == s
  {
    if s != "" {
      CollapseKeepsSafe(s[1..], false);
      assert s == [s[0]] + s[1..];
    }
  }

  /** Cleaning leaves plain identifiers alone, and makes every other one plain. */
  lemma SanitiseIsPlain(id: string)
    ensures Plain(Sanitise(id)) && NoSlash(Sanitise(id))
    ensures Plain(id) ==> Sanitise(id) == id
  {
    CollapseIsSafe(id, false);
    if Plain(id) {
      CollapseKeepsSafe(id, false);
    }
  }

  // ----- numbers in names -----

  predicate Digits(s: string) {
    forall i :: 0 <= i < |s| ==> '0' <= s[i] <= '9'
  }

  function Number(s: string): nat
    requires Digits(s)
  {
    if s == "" then 0 else Number(s[..|s| - 1]) * 10 + (s[|s| - 1] as int - '0' as int)
  }

  lemma {:induction false} NumberOfDecimal(n: nat)
    ensures Digits(Decimal(n)) && Number(Decimal(n)) == n
  {
    DecimalHasDigits(n);
    if n >= 10 {
      NumberOfDecimal(n / 10);
      assert Decimal(n)[..|Decimal(n)| - 1] == Decimal(n / 10);
    } else {
      assert Decimal(n)[..0] == "";
    }
  }

  lemma {:induction false} LeadingZero(s: string)
    requires Digits(s)
    ensures Digits("0" + s) && Number("0" + s) == Number(s)
  {
    if s == "" {
      assert ("0" + s)[..0] == "";
    } else {
      LeadingZero(s[..|s| - 1]);
      assert ("0" + s)[..|s|] == "0" + s[..|s| - 1];
    }
  }

  lemma {:induction false} PaddedNumber(s: string, width: nat)
    requires Digits(s)
    ensures Digits(Padded(s, width)) && Number(Padded(s, width)) == Number(s)
    decreases width - |s|
  {
    if |s| < width {
      LeadingZero(s);
      PaddedNumber("0" + s, width);
    }
  }

  lemma SlashSplits(a: string, x: string, b: string, y: string)
    requires NoSlash(a) && NoSlash(b) && a + "/" + x == b + "/" + y
    ensures a == b && x == y
  {
    var s := a + "/" + x;
    assert s[|a|] == '/' && s[|b|] == '/';
    assert forall i :: 0 <= i < |a| ==> s[i] == a[i];
    assert forall i :: 0 <= i < |b| ==> s[i] == b[i];
    assert |a| == |b|;
    assert a == s[..|a|] && b == s[..|b|] && x == s[|a| + 1..] && y == s[|b| + 1..];
  }

  lemma SameEnd(x: string, y: string, end: string)
    requires x + end == y + end
    ensures x == y
  {
    assert x == (x + end)[..|x|] && y == (y + end)[..|y|];
  }

  /** Two batches share a file exactly when their cleaned identifiers and their sequence numbers agree. */
  lemma PathsNameBatches(b: Batch, b': Batch)
    ensures PathOf(b) == PathOf(b') <==>
              && Sanitise(b.envelope.serverID) == Sanitise(b'.envelope.serverID)
              && Sanitise(b.envelope.serverSessionID) == Sanitise(b'.envelope.serverSessionID)
              && b.envelope.batchSequence == b'.envelope.batchSequence
  {
    var e, e' := b.envelope, b'.envelope;
    var s, s', t, t' := Sanitise(e.serverID), Sanitise(e'.serverID), Sanitise(e.serverSessionID), Sanitise(e'.serverSessionID);
    var n, n' := Padded(Decimal(e.batchSequence), 20), Padded(Decimal(e'.batchSequence), 20);
    if PathOf(b) == PathOf(b') {
      SanitiseIsPlain(e.serverID);
      SanitiseIsPlain(e'.serverID);
      SanitiseIsPlain(e.serverSessionID);
      SanitiseIsPlain(e'.serverSessionID);
      PathParts(s, t, n);
      PathParts(s', t', n');
      SlashSplits(s, t + "/" + (n + ".json"), s', t' + "/" + (n' + ".json"));
      SlashSplits(t, n + ".json", t', n' + ".json");
      SameEnd(n, n', ".json");
      NumberOfDecimal(e.batchSequence);
      NumberOfDecimal(e'.batchSequence);
      PaddedNumber(Decimal(e.batchSequence), 20);
      PaddedNumber(Decimal(e'.batchSequence), 20);
    }
  }

  lemma PathParts(s: string, t: string, n: string)
    ensures s + "/" + t + "/" + n + ".json" == s + "/" + (t + "/" + (n + ".json"))
  {
  }

  /** Batches with plain identifiers never share a file unless they carry the same identity. */
  lemma PlainPathsAreDistinct(b: Batch, b': Batch)
    requires Plain(b.envelope.serverID) && Plain(b'.envelope.serverID)
    requires Plain(b.envelope.serverSessionID) && Plain(b'.envelope.serverSessionID)
    ensures PathOf(b) == PathOf(b') <==>
              && b.envelope.serverID == b'.envelope.serverID && b.envelope.serverSessionID == b'.envelope.serverSessionID
              && b.envelope.batchSequence == b'.envelope.batchSequence
  {
    PathsNameBatches(b, b');
    SanitiseIsPlain(b.envelope.serverID);
    SanitiseIsPlain(b'.envelope.serverID);
    SanitiseIsPlain(b.envelope.serverSessionID);
    SanitiseIsPlain(b'.envelope.serverSessionID);
  }
}
