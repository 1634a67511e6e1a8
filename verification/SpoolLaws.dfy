/** Which spool files pass, with which counts, and where each of them ends up. */
module SpoolLaws {
  import opened Delivery
  import opened DeliveryRuns
  import opened Spool
  import T = Telemetry

  /** A blank line, or a valid batch that the outbox stores or already has. */
  predicate Passes(limits: Limits, q: Queue, d: Disk, line: SpoolLine, luck: Luck) {
    line == BlankLine
    || (&& line.BatchLine? && T.Validate(line.batch.envelope) == T.Accepted
        && Delivery.Put(limits, q, d, line.batch, luck.io, luck.now).result in {Stored, AlreadyStored})
  }

  ghost predicate PassesAt(limits: Limits, q: Queue, d: Disk, lines: seq<SpoolLine>, luck: nat -> Luck, k: nat)
    requires k < |lines|
  {
    var p := ImportLines(limits, q, d, lines, luck, k);
    Passes(limits, p.queue, p.disk, lines[k], luck(k))
  }

  /** The first n lines pass exactly when each of them does where the ones before it have left the outbox. */
  lemma {:induction false} PassedExactlyWhen(limits: Limits, q: Queue, d: Disk, lines: seq<SpoolLine>, luck: nat -> Luck, n: nat)
    requires n <= |lines|
    ensures ImportLines(limits, q, d, lines, luck, n).ok <==> forall k :: 0 <= k < n ==> PassesAt(limits, q, d, lines, luck, k)
  {
    if n > 0 {
      PassedExactlyWhen(limits, q, d, lines, luck, n - 1);
      assert ImportLines(limits, q, d, lines, luck, n - 1).ok ==>
          (ImportLines(limits, q, d, lines, luck, n).ok <==> PassesAt(limits, q, d, lines, luck, n - 1));
    }
  }

  /** The places of the batches among the first n lines. */
  function BatchesIn(lines: seq<SpoolLine>, n: nat): set<nat>
    requires n <= |lines|
  {
    set k: nat | k < n && lines[k].BatchLine?
  }

  lemma BatchesGrow(lines: seq<SpoolLine>, n: nat)
    requires n < |lines|
    ensures |BatchesIn(lines, n + 1)| == |BatchesIn(lines, n)| + if lines[n].BatchLine? then 1 else 0
  {
    assert BatchesIn(lines, n + 1) == BatchesIn(lines, n) + if lines[n].BatchLine? then {n} else {};
  }

  predicate ValidLine(limits: Limits, line: SpoolLine) {
    line == BlankLine
    || (line.BatchLine? && T.Validate(line.batch.envelope) == T.Accepted && line.batch.envelope.serverID == limits.serverID)
  }

  /** What a passing line adds to the counts and to the queue. */
  lemma LineCounts(limits: Limits, p: Progress, line: SpoolLine, luck: Luck)
    requires OneLine(limits, p, line, luck).ok
    ensures ValidLine(limits, line)
    ensures var p', one := OneLine(limits, p, line, luck), if line.BatchLine? then 1 else 0;
            && p'.lines == p.lines + one && p'.batches == p.batches + one
            && |p'.queue.items| - p'.batches + p'.duplicates == |p.queue.items| - p.batches + p.duplicates
  {
  }

  /** A passing file counts its batches; those that were not duplicates are the ones that joined the queue. */
  lemma {:induction false} PassedCounts(limits: Limits, q: Queue, d: Disk, lines: seq<SpoolLine>, luck: nat -> Luck, n: nat)
    requires n <= |lines| && ImportLines(limits, q, d, lines, luck, n).ok
    ensures var p := ImportLines(limits, q, d, lines, luck, n);
            && p.lines == p.batches == |BatchesIn(lines, n)|
            && |p.queue.items| == |q.items| + p.batches - p.duplicates
    ensures forall k :: 0 <= k < n ==> ValidLine(limits, lines[k])
  {
    if n > 0 {
      var p, p' := ImportLines(limits, q, d, lines, luck, n - 1), ImportLines(limits, q, d, lines, luck, n);
      assert p.ok;
      PassedCounts(limits, q, d, lines, luck, n - 1);
      ImportGoesOn(limits, q, d, lines, luck, n, p, p');
      LineCounts(limits, p, lines[n - 1], luck(n - 1));
      BatchesGrow(lines, n - 1);
    }
  }

  // ----- a file that nothing stands against -----

  function CountIn(lines: seq<SpoolLine>, n: nat): nat
    requires n <= |lines|
  {
    if n == 0 then 0 else CountIn(lines, n - 1) + if lines[n - 1].BatchLine? then 1 else 0
  }

  function BytesIn(lines: seq<SpoolLine>, n: nat): nat
    requires n <= |lines|
  {
    if n == 0 then 0 else BytesIn(lines, n - 1) + if lines[n - 1].BatchLine? then |lines[n - 1].batch.text| + 1 else 0
  }

  /** Only blank lines and valid batches of this server, each with a path of its own or one that holds this very batch. */
  ghost predicate Clean(limits: Limits, d: Disk, lines: seq<SpoolLine>, n: nat)
    requires n <= |lines|
  {
    && (forall k :: 0 <= k < n ==> CleanLine(limits, d, lines[k]))
    && (forall j, k :: 0 <= j < k < n ==> Together(lines[j], lines[k]))
  }

  predicate CleanLine(limits: Limits, d: Disk, line: SpoolLine) {
    line == BlankLine
    || (&& line.BatchLine? && T.Validate(line.batch.envelope) == T.Accepted && line.batch.envelope.serverID == limits.serverID
        && (PathOf(line.batch) in d.outbox ==> d.outbox[PathOf(line.batch)].data == Line(line.batch, true)))
  }

  predicate Together(a: SpoolLine, b: SpoolLine) {
    a.BatchLine? && b.BatchLine? && PathOf(a.batch) == PathOf(b.batch) ==> a.batch == b.batch
  }

  predicate HasRoom(limits: Limits, q: Queue, lines: seq<SpoolLine>, n: nat)
    requires n <= |lines|
  {
    |q.items| + CountIn(lines, n) <= limits.maxBatches && q.bytes + BytesIn(lines, n) <= limits.maxBytes
  }

  /** What the outbox has after the first n lines of a clean file. */
  ghost predicate CleanSoFar(limits: Limits, q: Queue, d: Disk, lines: seq<SpoolLine>, n: nat, p: Progress)
    requires n <= |lines|
  {
    && p.ok && |p.queue.items| <= |q.items| + CountIn(lines, n) && p.queue.bytes <= q.bytes + BytesIn(lines, n)
    && AllKnown(d, lines, n, p.disk.outbox)
  }

  ghost predicate AllKnown(d: Disk, lines: seq<SpoolLine>, n: nat, outbox: map<string, StoredFile>)
    requires n <= |lines|
  {
    forall path :: path in outbox ==> KnownFile(d, lines, n, path, outbox[path])
  }

  /** A file that was there before, or that one of the lines brought. */
  ghost predicate KnownFile(d: Disk, lines: seq<SpoolLine>, n: nat, path: string, file: StoredFile)
    requires n <= |lines|
  {
    (path in d.outbox && d.outbox[path] == file) || CameFrom(lines, n, path, file.data)
  }

  ghost predicate CameFrom(lines: seq<SpoolLine>, n: nat, path: string, data: Bytes)
    requires n <= |lines|
  {
    exists k :: 0 <= k < n && lines[k].BatchLine? && PathOf(lines[k].batch) == path && data == Line(lines[k].batch, true)
  }

  lemma KnownGrows(d: Disk, lines: seq<SpoolLine>, n: nat, path: string, file: StoredFile)
    requires n < |lines| && KnownFile(d, lines, n, path, file)
    ensures KnownFile(d, lines, n + 1, path, file)
  {
    if CameFrom(lines, n, path, file.data) {
      var k :| 0 <= k < n && lines[k].BatchLine? && PathOf(lines[k].batch) == path && file.data == Line(lines[k].batch, true);
      assert CameFrom(lines, n + 1, path, file.data);
    }
  }

  /** The path of the next line is free or holds its batch already. */
  lemma NoConflict(limits: Limits, d: Disk, lines: seq<SpoolLine>, n: nat, file: StoredFile)
    requires n < |lines| && lines[n].BatchLine? && Clean(limits, d, lines, n + 1)
    requires KnownFile(d, lines, n, PathOf(lines[n].batch), file)
    ensures file.data == Line(lines[n].batch, true)
  {
    var path := PathOf(lines[n].batch);
    assert CleanLine(limits, d, lines[n]);
    if CameFrom(lines, n, path, file.data) {
      var k :| 0 <= k < n && lines[k].BatchLine? && PathOf(lines[k].batch) == path && file.data == Line(lines[k].batch, true);
      assert Together(lines[k], lines[n]);
    }
  }

  lemma AllKnownStays(d: Disk, lines: seq<SpoolLine>, n: nat, outbox: map<string, StoredFile>)
    requires n < |lines| && AllKnown(d, lines, n, outbox)
    ensures AllKnown(d, lines, n + 1, outbox)
  {
    forall path | path in outbox ensures KnownFile(d, lines, n + 1, path, outbox[path]) {
      KnownGrows(d, lines, n, path, outbox[path]);
    }
  }

  lemma AllKnownGrows(d: Disk, lines: seq<SpoolLine>, n: nat, outbox: map<string, StoredFile>, file: StoredFile)
    requires n < |lines| && AllKnown(d, lines, n + 1, outbox) && lines[n].BatchLine? && file.data == Line(lines[n].batch, true)
    ensures AllKnown(d, lines, n + 1, outbox[PathOf(lines[n].batch) := file])
  {
    assert CameFrom(lines, n + 1, PathOf(lines[n].batch), file.data);
  }

  /** With room and no conflict a put succeeds, and adds at most one item of the size of its line. */
  lemma CleanPut(limits: Limits, q: Queue, d: Disk, b: Batch, now: nat)
    requires b.envelope.serverID == limits.serverID
    requires |q.items| < limits.maxBatches && q.bytes + |b.text| + 1 <= limits.maxBytes
    requires PathOf(b) in d.outbox ==> d.outbox[PathOf(b)].data == Line(b, true)
    ensures var e := Delivery.Put(limits, q, d, b, Written, now);
            && e.result in {Stored, AlreadyStored} && |e.queue.items| <= |q.items| + 1 && e.queue.bytes <= q.bytes + |b.text| + 1
            && (e.disk.outbox == d.outbox || e.disk.outbox == d.outbox[PathOf(b) := StoredFile(Line(b, true), now)])
  {
  }

  lemma RoomShrinks(limits: Limits, q: Queue, lines: seq<SpoolLine>, n: nat)
    requires n < |lines| && HasRoom(limits, q, lines, n + 1)
    ensures HasRoom(limits, q, lines, n)
    ensures lines[n].BatchLine? ==>
              && |q.items| + CountIn(lines, n) < limits.maxBatches
              && q.bytes + BytesIn(lines, n) + |lines[n].batch.text| + 1 <= limits.maxBytes
  {
  }

  lemma CleanStep(limits: Limits, q: Queue, d: Disk, lines: seq<SpoolLine>, luck: Luck, n: nat, p: Progress, p': Progress)
    requires n < |lines| && CleanSoFar(limits, q, d, lines, n, p) && p' == OneLine(limits, p, lines[n], luck)
    requires Clean(limits, d, lines, n + 1) && luck.io == Written && HasRoom(limits, q, lines, n + 1)
    ensures CleanSoFar(limits, q, d, lines, n + 1, p')
  {
    var line := lines[n];
    RoomShrinks(limits, q, lines, n);
    AllKnownStays(d, lines, n, p.disk.outbox);
    assert CleanLine(limits, d, line);
    if line.BatchLine? {
      if PathOf(line.batch) in p.disk.outbox {
        NoConflict(limits, d, lines, n, p.disk.outbox[PathOf(line.batch)]);
      }
      CleanPut(limits, p.queue, p.disk, line.batch, luck.now);
      AllKnownGrows(d, lines, n, p.disk.outbox, StoredFile(Line(line.batch, true), luck.now));
    }
  }

  lemma CleanShorter(limits: Limits, d: Disk, lines: seq<SpoolLine>, n: nat)
    requires n < |lines| && Clean(limits, d, lines, n + 1)
    ensures Clean(limits, d, lines, n)
  {
  }

  /** The disk works for the first n lines. */
  ghost predicate Works(luck: nat -> Luck, n: nat) {
    forall k: nat :: k < n ==> luck(k).io == Written
  }

  lemma {:induction false} CleanPrefix(limits: Limits, q: Queue, d: Disk, lines: seq<SpoolLine>, luck: nat -> Luck, n: nat)
    requires n <= |lines| && Clean(limits, d, lines, n) && HasRoom(limits, q, lines, n)
    requires Works(luck, n)
    ensures CleanSoFar(limits, q, d, lines, n, ImportLines(limits, q, d, lines, luck, n))
  {
    if n > 0 {
      RoomShrinks(limits, q, lines, n - 1);
      CleanShorter(limits, d, lines, n - 1);
      CleanPrefix(limits, q, d, lines, luck, n - 1);
      var p, p' := ImportLines(limits, q, d, lines, luck, n - 1), ImportLines(limits, q, d, lines, luck, n);
      ImportGoesOn(limits, q, d, lines, luck, n, p, p');
      CleanStep(limits, q, d, lines, luck(n - 1), n - 1, p, p');
    }
  }

  lemma ImportGoesOn(limits: Limits, q: Queue, d: Disk, lines: seq<SpoolLine>, luck: nat -> Luck, n: nat, p: Progress, p': Progress)
    requires 0 < n <= |lines| && p.ok
    requires p == ImportLines(limits, q, d, lines, luck, n - 1) && p' == ImportLines(limits, q, d, lines, luck, n)
    ensures p' == OneLine(limits, p, lines[n - 1], luck(n - 1))
  {
  }

  /** On a disk that works and with room for all of it, a clean file passes, and then all its batches are stored. */
  lemma CleanFilePasses(limits: Limits, q: Queue, d: Disk, lines: seq<SpoolLine>, luck: nat -> Luck)
    requires Clean(limits, d, lines, |lines|) && HasRoom(limits, q, lines, |lines|)
    requires Works(luck, |lines|)
    ensures var p := ImportLines(limits, q, d, lines, luck, |lines|);
            p.ok && p.lines == |BatchesIn(lines, |lines|)| && LinesStored(p.disk, lines, |lines|)
  {
    CleanPrefix(limits, q, d, lines, luck, |lines|);
    PassedCounts(limits, q, d, lines, luck, |lines|);
    PassedMeansStored(limits, q, d, lines, luck, |lines|);
  }

  // ----- where a file ends up -----

  /** The file is in one place only. */
  predicate OnlyArchived(d: Directory, d': Directory, name: string, lines: seq<SpoolLine>) {
    d'.archived == d.archived + [lines] && name !in d'.files && name !in d'.claimed
  }

  predicate OnlyInPlace(d: Directory, d': Directory, name: string, lines: seq<SpoolLine>) {
    d'.archived == d.archived && name in d'.files && d'.files[name] == lines && name !in d'.claimed
  }

  predicate OnlyClaimed(d: Directory, d': Directory, name: string, lines: seq<SpoolLine>) {
    d'.archived == d.archived && name !in d'.files && name in d'.claimed && d'.claimed[name] == lines
  }

  ghost predicate OthersStay(d: Directory, d': Directory, name: string) {
    && d'.files.Keys - {name} == d.files.Keys - {name} && d'.claimed.Keys - {name} == d.claimed.Keys - {name}
    && (forall n :: n in d.files && n != name ==> n in d'.files && d'.files[n] == d.files[n])
    && (forall n :: n in d.claimed && n != name ==> n in d'.claimed && d'.claimed[n] == d.claimed[n])
  }

  /**
   A claimed file with at least one batch whose lines all pass is archived and counted, if that rename works; any other
   ends the sweep and goes back under its name, or stays claimed if that rename fails too. No other file moves.
   */
  lemma ClaimedEndsUp(limits: Limits, s: Sweep, name: string, luck: nat -> Luck, renames: Renames)
    requires name in s.directory.files && renames.claim == Claimed && s.ok
    ensures var t, lines := SweepOne(limits, s, name, luck, renames), s.directory.files[name];
            var p := ImportLines(limits, s.queue, s.disk, lines, luck, |lines|);
            var good := (forall k :: 0 <= k < |lines| ==> PassesAt(limits, s.queue, s.disk, lines, luck, k))
                        && BatchesIn(lines, |lines|) != {};
            && t.ok == (good && renames.archive) && OthersStay(s.directory, t.directory, name)
            && (good && renames.archive ==>
                  && OnlyArchived(s.directory, t.directory, name, lines) && t.stats.files == s.stats.files + 1
                  && t.stats.batches == s.stats.batches + |BatchesIn(lines, |lines|)|)
            && (!(good && renames.archive) ==> t.stats == s.stats)
            && (!(good && renames.archive) && renames.restore ==> OnlyInPlace(s.directory, t.directory, name, lines))
            && (!(good && renames.archive) && !renames.restore ==> OnlyClaimed(s.directory, t.directory, name, lines))
  {
    var lines := s.directory.files[name];
    var p := ImportLines(limits, s.queue, s.disk, lines, luck, |lines|);
    PassedExactlyWhen(limits, s.queue, s.disk, lines, luck, |lines|);
    if p.ok {
      PassedCounts(limits, s.queue, s.disk, lines, luck, |lines|);
    }
  }

  // ----- a whole sweep -----

  ghost predicate Distinct(names: seq<string>) {
    forall i, j :: 0 <= i < j < |names| ==> names[i] != names[j]
  }

  lemma {:induction false} StillGoing(limits: Limits, s: Sweep, names: seq<string>, ready: string -> bool,
                                      luck: nat -> nat -> Luck, renames: nat -> Renames, k: nat, n: nat)
    requires k <= n <= |names| && SweepNames(limits, s, names, ready, luck, renames, n).ok
    ensures SweepNames(limits, s, names, ready, luck, renames, k).ok
  {
    if !SweepNames(limits, s, names, ready, luck, renames, k).ok {
      StoppedSweep(limits, s, names, ready, luck, renames, k, n);
    }
  }

  /** A sweep does not move a file before it comes to its name. */
  lemma {:induction false} UntilItsTurn(limits: Limits, s: Sweep, names: seq<string>, ready: string -> bool,
                                        luck: nat -> nat -> Luck, renames: nat -> Renames, n: nat, name: string)
    requires n <= |names| && name in s.directory.files && name !in names[..n]
    ensures var d := SweepNames(limits, s, names, ready, luck, renames, n).directory;
            name in d.files && d.files[name] == s.directory.files[name]
  {
    if n > 0 {
      assert names[n - 1] in names[..n] && forall x :: x in names[..n - 1] ==> x in names[..n];
      UntilItsTurn(limits, s, names, ready, luck, renames, n - 1, name);
    }
  }

  /** What is archived stays, and no archived name comes back. */
  lemma {:induction false} AfterItsTurn(limits: Limits, s: Sweep, names: seq<string>, ready: string -> bool,
                                        luck: nat -> nat -> Luck, renames: nat -> Renames, k: nat, n: nat, name: string)
    requires k <= n <= |names| && name !in names[k..n]
    ensures var before, after := SweepNames(limits, s, names, ready, luck, renames, k).directory,
                                 SweepNames(limits, s, names, ready, luck, renames, n).directory;
            before.archived <= after.archived && (name !in before.files ==> name !in after.files)
  {
    if k < n {
      assert names[k..n][n - 1 - k] == names[n - 1] && forall x :: x in names[k..n - 1] ==> x in names[k..n];
      AfterItsTurn(limits, s, names, ready, luck, renames, k, n - 1, name);
    }
  }

  /** A sweep that reaches its end has archived every ready file that it claimed, and left none of them in place. */
  lemma FinishedSweepArchived(limits: Limits, s: Sweep, names: seq<string>, ready: string -> bool,
                              luck: nat -> nat -> Luck, renames: nat -> Renames, k: nat)
    requires Distinct(names) && k < |names| && SweepNames(limits, s, names, ready, luck, renames, |names|).ok
    requires ready(names[k]) && names[k] in s.directory.files && renames(k).claim == Claimed
    ensures var d := SweepNames(limits, s, names, ready, luck, renames, |names|).directory;
            s.directory.files[names[k]] in d.archived && names[k] !in d.files
  {
    var name := names[k];
    StillGoing(limits, s, names, ready, luck, renames, k, |names|);
    StillGoing(limits, s, names, ready, luck, renames, k + 1, |names|);
    UntilItsTurn(limits, s, names, ready, luck, renames, k, name);
    var t := SweepNames(limits, s, names, ready, luck, renames, k);
    var u := SweepNames(limits, s, names, ready, luck, renames, k + 1);
    SweepTurn(limits, s, names, ready, luck, renames, k);
    ClaimedEndsUp(limits, t, name, luck(k), renames(k));
    assert s.directory.files[name] in u.directory.archived;
    AfterItsTurn(limits, s, names, ready, luck, renames, k + 1, |names|, name);
  }

  lemma SweepTurn(limits: Limits, s: Sweep, names: seq<string>, ready: string -> bool,
                  luck: nat -> nat -> Luck, renames: nat -> Renames, k: nat)
    requires k < |names|
    requires var t := SweepNames(limits, s, names, ready, luck, renames, k);
             t.ok && ready(names[k]) && names[k] in t.directory.files
    ensures SweepNames(limits, s, names, ready, luck, renames, k + 1)
         == SweepOne(limits, SweepNames(limits, s, names, ready, luck, renames, k), names[k], luck(k), renames(k))
  {
  }
}
