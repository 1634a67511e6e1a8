/** Importing the emergency spool of the game server into the outbox. */
module Spool {
  import opened Agent
  import opened Delivery
  import opened DeliveryRuns
  import opened Grouping
  import T = Telemetry

  datatype Stats = Stats(files: nat, batches: nat, duplicates: nat)

  /** How far the import of one file came: whether all lines so far passed, and what they did. */
  datatype Progress = Progress(ok: bool, queue: Queue, disk: Disk, lines: nat, batches: nat, duplicates: nat)

  /** How the file system and the clock treat the k-th line. */
  datatype Luck = Luck(io: WriteOutcome, now: nat)

  function OneLine(limits: Limits, p: Progress, line: SpoolLine, luck: Luck): Progress {
    match line
    case BlankLine => p
    case BadLine => p.(ok := false)
    case BatchLine(b) =>
      if !Importable(b) then p.(ok := false)
      else
        var e := Delivery.Put(limits, p.queue, p.disk, b, luck.io, luck.now);
        Progress(Accepted(e.result), e.queue, e.disk, p.lines + 1,
                 p.batches + (if Accepted(e.result) then 1 else 0),
                 p.duplicates + (if e.result == AlreadyStored then 1 else 0))
  }

  function ImportLines(limits: Limits, q: Queue, d: Disk, lines: seq<SpoolLine>, luck: nat -> Luck, n: nat): Progress
    requires n <= |lines|
  {
    if n == 0 then Progress(true, q, d, 0, 0, 0)
    else
      var p := ImportLines(limits, q, d, lines, luck, n - 1);
      if p.ok then OneLine(limits, p, lines[n - 1], luck(n - 1)) else p
  }

  predicate LineStored(d: Disk, line: SpoolLine) {
    line == BlankLine
    || (line.BatchLine? && PathOf(line.batch) in d.outbox && d.outbox[PathOf(line.batch)].data == Line(line.batch, true))
  }

  /** Every batch among the first n lines is in the outbox, byte for byte. */
  ghost predicate LinesStored(d: Disk, lines: seq<SpoolLine>, n: nat)
    requires n <= |lines|
  {
    forall i :: 0 <= i < n ==> LineStored(d, lines[i])
  }

  /** Files only ever appear, with the content they keep. */
  ghost predicate DiskGrows(d: Disk, d': Disk) {
    && (forall p :: p in d.outbox ==> p in d'.outbox && d'.outbox[p] == d.outbox[p])
    && d'.dead == d.dead
  }

  lemma PutGrows(limits: Limits, q: Queue, d: Disk, b: Batch, io: WriteOutcome, now: nat)
    ensures var e := Delivery.Put(limits, q, d, b, io, now);
            && DiskGrows(d, e.disk)
            && (Accepted(e.result) ==> PathOf(b) in e.disk.outbox && e.disk.outbox[PathOf(b)].data == Line(b, true))
  {
  }

  /** A failed line fails the file for good. */
  lemma {:induction false} FailureSticks(limits: Limits, q: Queue, d: Disk, lines: seq<SpoolLine>, luck: nat -> Luck, n: nat, m: nat)
    requires n <= m <= |lines| && !ImportLines(limits, q, d, lines, luck, n).ok
    ensures ImportLines(limits, q, d, lines, luck, m) == ImportLines(limits, q, d, lines, luck, n)
  {
    if n < m {
      FailureSticks(limits, q, d, lines, luck, n, m - 1);
    }
  }

  lemma LinesStayStored(d: Disk, d': Disk, lines: seq<SpoolLine>, n: nat)
    requires n <= |lines| && LinesStored(d, lines, n) && DiskGrows(d, d')
    ensures LinesStored(d', lines, n)
  {
    forall i | 0 <= i < n ensures LineStored(d', lines[i]) {
      assert LineStored(d, lines[i]);
    }
  }

  /** A file passes only if every line is blank or a valid batch that is then on disk. */
  lemma {:induction false} PassedMeansStored(limits: Limits, q: Queue, d: Disk, lines: seq<SpoolLine>, luck: nat -> Luck, n: nat)
    requires n <= |lines|
    ensures DiskGrows(d, ImportLines(limits, q, d, lines, luck, n).disk)
    ensures ImportLines(limits, q, d, lines, luck, n).ok ==> LinesStored(ImportLines(limits, q, d, lines, luck, n).disk, lines, n)
  {
    if n > 0 {
      PassedMeansStored(limits, q, d, lines, luck, n - 1);
      LineMeansStored(limits, q, d, lines, luck, n, ImportLines(limits, q, d, lines, luck, n - 1),
                      ImportLines(limits, q, d, lines, luck, n));
    }
  }

  lemma LineMeansStored(limits: Limits, q: Queue, d: Disk, lines: seq<SpoolLine>, luck: nat -> Luck, n: nat, p: Progress, p': Progress)
    requires 0 < n <= |lines| && p == ImportLines(limits, q, d, lines, luck, n - 1) && p' == ImportLines(limits, q, d, lines, luck, n)
    requires DiskGrows(d, p.disk) && (p.ok ==> LinesStored(p.disk, lines, n - 1))
    ensures DiskGrows(d, p'.disk) && (p'.ok ==> LinesStored(p'.disk, lines, n))
  {
    if p.ok {
      if lines[n - 1].BatchLine? {
        PutGrows(limits, p.queue, p.disk, lines[n - 1].batch, luck(n - 1).io, luck(n - 1).now);
      }
      assert DiskGrows(p.disk, p'.disk);
      LinesStayStored(p.disk, p'.disk, lines, n - 1);
      assert p'.ok ==> LineStored(p'.disk, lines[n - 1]);
    }
  }

  /** Reads a claimed file line by line; the first bad line or failed put stops it. */
  method ImportFile(lines: seq<SpoolLine>, outbox: Outbox, luck: nat -> Luck) returns (ok: bool, batches: nat, duplicates: nat)
    modifies outbox, outbox.fs
    ensures var p := ImportLines(outbox.limits, old(outbox.State()), old(outbox.fs.Files()), lines, luck, |lines|);
            && outbox.State() == p.queue && outbox.fs.Files() == p.disk
            && ok == (p.ok && p.lines > 0) && batches == p.batches && duplicates == p.duplicates
  {
    ghost var q, d := outbox.State(), outbox.fs.Files();
    var lineNumber := 0;
    batches, duplicates := 0, 0;
    for k := 0 to |lines|
      invariant ImportLines(outbox.limits, q, d, lines, luck, k)
             == Progress(true, outbox.State(), outbox.fs.Files(), lineNumber, batches, duplicates)
    {
      match lines[k]
      case BlankLine =>
      case BadLine =>
        FailureSticks(outbox.limits, q, d, lines, luck, k + 1, |lines|);
        return false, batches, duplicates;
      case BatchLine(b) =>
        if !Importable(b) {
          FailureSticks(outbox.limits, q, d, lines, luck, k + 1, |lines|);
          return false, batches, duplicates;
        }
        lineNumber := lineNumber + 1;
        var result := outbox.Put(b, luck(k).io, luck(k).now);
        match result
        case Stored =>
          batches := batches + 1;
        case AlreadyStored =>
          batches := batches + 1;
          duplicates := duplicates + 1;
        case _ =>
          FailureSticks(outbox.limits, q, d, lines, luck, k + 1, |lines|);
          return false, batches, duplicates;
    }
    ok := lineNumber != 0;
  }

  // ----- the directory -----

  datatype ClaimOutcome = Claimed | Gone | Refused

  /** How the renames of one file go: claiming, archiving and, if needed, putting it back. */
  datatype Renames = Renames(claim: ClaimOutcome, archive: bool, restore: bool)

  datatype Directory = Directory(
    files: map<string, seq<SpoolLine>>,
    claimed: map<string, seq<SpoolLine>>,
    archived: seq<seq<SpoolLine>>)

  /** A sweep over a directory so far; it goes on only while `ok`. */
  datatype Sweep = Sweep(ok: bool, directory: Directory, queue: Queue, disk: Disk, stats: Stats)

  /** What becomes of a claimed file after its lines: archived, put back, or left claimed. */
  function Settle(d: Directory, name: string, lines: seq<SpoolLine>, passed: bool, renames: Renames): Directory {
    if passed && renames.archive then d.(claimed := d.claimed - {name}, archived := d.archived + [lines])
    else if renames.restore then d.(claimed := d.claimed - {name}, files := d.files[name := lines])
    else d
  }

  function Claim(d: Directory, name: string): Directory
    requires name in d.files
  {
    d.(files := d.files - {name}, claimed := d.claimed[name := d.files[name]])
  }

  function SweepOne(limits: Limits, s: Sweep, name: string, luck: nat -> Luck, renames: Renames): Sweep
    requires name in s.directory.files
  {
    match renames.claim
    case Gone => s
    case Refused => s.(ok := false)
    case Claimed =>
      var lines := s.directory.files[name];
      var p := ImportLines(limits, s.queue, s.disk, lines, luck, |lines|);
      var passed := p.ok && p.lines > 0;
      Sweep(passed && renames.archive, Settle(Claim(s.directory, name), name, lines, passed, renames), p.queue, p.disk,
            if passed && renames.archive
            then Stats(s.stats.files + 1, s.stats.batches + p.batches, s.stats.duplicates + p.duplicates) else s.stats)
  }

  /** The sweep over the first n names; names that are not ready, or no longer there, are passed over. */
  function SweepNames(limits: Limits, s: Sweep, names: seq<string>, ready: string -> bool,
                      luck: nat -> nat -> Luck, renames: nat -> Renames, n: nat): Sweep
    requires n <= |names|
  {
    if n == 0 then s
    else
      var t := SweepNames(limits, s, names, ready, luck, renames, n - 1);
      if !t.ok || !ready(names[n - 1]) || names[n - 1] !in t.directory.files then t
      else SweepOne(limits, t, names[n - 1], luck(n - 1), renames(n - 1))
  }

  lemma {:induction false} StoppedSweep(limits: Limits, s: Sweep, names: seq<string>, ready: string -> bool,
                                        luck: nat -> nat -> Luck, renames: nat -> Renames, n: nat, m: nat)
    requires n <= m <= |names| && !SweepNames(limits, s, names, ready, luck, renames, n).ok
    ensures SweepNames(limits, s, names, ready, luck, renames, m) == SweepNames(limits, s, names, ready, luck, renames, n)
  {
    if n < m {
      StoppedSweep(limits, s, names, ready, luck, renames, n, m - 1);
    }
  }

  class SpoolDirectory {
    var files: map<string, seq<SpoolLine>>
    var claimed: map<string, seq<SpoolLine>>
    var archived: seq<seq<SpoolLine>>

    constructor (files: map<string, seq<SpoolLine>>)
      ensures this.files == files && claimed == map[] && archived == []
    {
      this.files, claimed, archived := files, map[], [];
    }

    function Now(): Directory
      reads this
    {
      Directory(files, claimed, archived)
    }

    /**
     Imports and archives a file that has been claimed; on any failure it is renamed back, and it is
     left under its claimed name only if that rename fails as well.
     */
    method ImportClaimed(name: string, outbox: Outbox, luck: nat -> Luck, renames: Renames) returns (ok: bool, stats: Stats)
      requires name in claimed && name !in files
      modifies this, outbox, outbox.fs
      ensures var lines := old(claimed[name]);
              var p := ImportLines(outbox.limits, old(outbox.State()), old(outbox.fs.Files()), lines, luck, |lines|);
              && Now() == Settle(old(Now()), name, lines, p.ok && p.lines > 0, renames)
              && outbox.State() == p.queue && outbox.fs.Files() == p.disk
              && ok == (p.ok && p.lines > 0 && renames.archive)
              && stats == if ok then Stats(1, p.batches, p.duplicates) else Stats(0, 0, 0)
    {
      var lines := claimed[name];
      var imported, batches, duplicates := ImportFile(lines, outbox, luck);
      if imported && renames.archive {
        claimed := claimed - {name};
        archived := archived + [lines];
        return true, Stats(1, batches, duplicates);
      }
      if renames.restore {
        claimed := claimed - {name};
        files := files[name := lines];
      }
      return false, Stats(0, 0, 0);
    }

    /** Visits the ready files in name order and stops at the first that fails. */
    method ImportDir(outbox: Outbox, ready: string -> bool, luck: nat -> nat -> Luck, renames: nat -> Renames)
        returns (ok: bool, stats: Stats, ghost names: seq<string>)
      modifies this, outbox, outbox.fs
      ensures StrictlyIncreasing(names) && forall name :: name in names <==> name in old(files)
      ensures Sweep(ok, Now(), outbox.State(), outbox.fs.Files(), stats)
           == SweepNames(outbox.limits, Sweep(true, old(Now()), old(outbox.State()), old(outbox.fs.Files()), Stats(0, 0, 0)),
                         names, ready, luck, renames, |names|)
    {
      var listing := SortedKeys(files);
      names := listing;
      ghost var start := Sweep(true, Now(), outbox.State(), outbox.fs.Files(), Stats(0, 0, 0));
      ok, stats := true, Stats(0, 0, 0);
      for k := 0 to |listing|
        invariant Sweep(true, Now(), outbox.State(), outbox.fs.Files(), stats)
               == SweepNames(outbox.limits, start, names, ready, luck, renames, k)
      {
        var name := listing[k];
        if !ready(name) || name !in files {
          continue;
        }
        ok, stats := ImportOne(name, outbox, luck(k), renames(k), stats);
        if !ok {
          StoppedSweep(outbox.limits, start, names, ready, luck, renames, k + 1, |names|);
          return;
        }
      }
      ok := true;
    }

    method ImportOne(name: string, outbox: Outbox, luck: nat -> Luck, renames: Renames, before: Stats)
        returns (ok: bool, stats: Stats)
      requires name in files
      modifies this, outbox, outbox.fs
      ensures Sweep(ok, Now(), outbox.State(), outbox.fs.Files(), stats)
           == SweepOne(outbox.limits, Sweep(true, old(Now()), old(outbox.State()), old(outbox.fs.Files()), before),
                       name, luck, renames)
    {
      match renames.claim
      case Gone => return true, before;
      case Refused => return false, before;
      case Claimed =>
        claimed := claimed[name := files[name]];
        files := files - {name};
        var one: Stats;
        ok, one := ImportClaimed(name, outbox, luck, renames);
        stats := Stats(before.files + one.files, before.batches + one.batches, before.duplicates + one.duplicates);
    }
  }

  // ----- what a sweep keeps -----

  /** The content is still somewhere: in place, claimed, or archived. */
  ghost predicate Somewhere(d: Directory, name: string, lines: seq<SpoolLine>) {
    (name in d.files && d.files[name] == lines) || (name in d.claimed && d.claimed[name] == lines) || lines in d.archived
  }

  /** Everything archived after the first n is in the outbox, line by line. */
  ghost predicate ArchivedStored(disk: Disk, d: Directory, n: nat) {
    forall i :: n <= i < |d.archived| ==> LinesStored(disk, d.archived[i], |d.archived[i]|)
  }

  ghost predicate SweepOK(start: Sweep, s: Sweep) {
    && DiskGrows(start.disk, s.disk)
    && start.directory.archived <= s.directory.archived
    && |s.directory.archived| - |start.directory.archived| == s.stats.files - start.stats.files
    && ArchivedStored(s.disk, s.directory, |start.directory.archived|)
  }

  lemma SweepOneKeeps(limits: Limits, start: Sweep, s: Sweep, name: string, luck: nat -> Luck, renames: Renames)
    requires name in s.directory.files && SweepOK(start, s)
    ensures SweepOK(start, SweepOne(limits, s, name, luck, renames))
  {
    if renames.claim == Claimed {
      var lines := s.directory.files[name];
      PassedMeansStored(limits, s.queue, s.disk, lines, luck, |lines|);
    }
  }

  /** A sweep archives only what is stored, and counts what it archives. */
  lemma {:induction false} SweepArchivesWhatIsStored(limits: Limits, s: Sweep, names: seq<string>, ready: string -> bool,
                                                     luck: nat -> nat -> Luck, renames: nat -> Renames, n: nat)
    requires n <= |names|
    ensures SweepOK(s, SweepNames(limits, s, names, ready, luck, renames, n))
  {
    if n > 0 {
      SweepArchivesWhatIsStored(limits, s, names, ready, luck, renames, n - 1);
      var t := SweepNames(limits, s, names, ready, luck, renames, n - 1);
      if t.ok && ready(names[n - 1]) && names[n - 1] in t.directory.files {
        SweepOneKeeps(limits, s, t, names[n - 1], luck(n - 1), renames(n - 1));
      }
    }
  }

  /** While every file so far was archived or passed over, nothing is claimed that was not claimed before. */
  lemma {:induction false} SweepLosesNothing(limits: Limits, s: Sweep, names: seq<string>, ready: string -> bool,
                                             luck: nat -> nat -> Luck, renames: nat -> Renames, n: nat,
                                             name: string, lines: seq<SpoolLine>)
    requires n <= |names| && name in s.directory.files && s.directory.files[name] == lines
    ensures var t := SweepNames(limits, s, names, ready, luck, renames, n);
            && Somewhere(t.directory, name, lines)
            && (t.ok ==> (name in t.directory.files && t.directory.files[name] == lines) || lines in t.directory.archived)
  {
    if n > 0 {
      SweepLosesNothing(limits, s, names, ready, luck, renames, n - 1, name, lines);
    }
  }

  /** Among the first n names this one was claimed. */
  ghost predicate Claims(limits: Limits, s: Sweep, names: seq<string>, ready: string -> bool,
                         luck: nat -> nat -> Luck, renames: nat -> Renames, n: nat, name: string)
    requires n <= |names|
  {
    exists k :: 0 <= k < n && ClaimsAt(limits, s, names, ready, luck, renames, k, name)
  }

  ghost predicate ClaimsAt(limits: Limits, s: Sweep, names: seq<string>, ready: string -> bool,
                           luck: nat -> nat -> Luck, renames: nat -> Renames, k: nat, name: string)
    requires k < |names|
  {
    var t := SweepNames(limits, s, names, ready, luck, renames, k);
    t.ok && names[k] == name && ready(name) && name in t.directory.files && renames(k).claim == Claimed
  }

  /**
   A file that an earlier sweep left under its claimed name stays there if and only if no new file of that name is
   claimed; if one is, the old content is replaced.
   */
  lemma {:induction false} StrandedStaysExactlyWhen(
      limits: Limits, s: Sweep, names: seq<string>, ready: string -> bool, luck: nat -> nat -> Luck,
      renames: nat -> Renames, n: nat, name: string, lines: seq<SpoolLine>)
    requires n <= |names| && name in s.directory.claimed && s.directory.claimed[name] == lines
    requires name in s.directory.files ==> s.directory.files[name] != lines
    ensures var d := SweepNames(limits, s, names, ready, luck, renames, n).directory;
            && ((name in d.claimed && d.claimed[name] == lines) <==> !Claims(limits, s, names, ready, luck, renames, n, name))
            && (name in d.files ==> name in s.directory.files && d.files[name] == s.directory.files[name])
  {
    if n > 0 {
      StrandedStaysExactlyWhen(limits, s, names, ready, luck, renames, n - 1, name, lines);
      ClaimsUnfolds(limits, s, names, ready, luck, renames, n, name);
    }
  }

  lemma ClaimsUnfolds(limits: Limits, s: Sweep, names: seq<string>, ready: string -> bool,
                      luck: nat -> nat -> Luck, renames: nat -> Renames, n: nat, name: string)
    requires 0 < n <= |names|
    ensures Claims(limits, s, names, ready, luck, renames, n, name)
       <==> Claims(limits, s, names, ready, luck, renames, n - 1, name)
            || ClaimsAt(limits, s, names, ready, luck, renames, n - 1, name)
  {
    if ClaimsAt(limits, s, names, ready, luck, renames, n - 1, name) {
      assert 0 <= n - 1 < n;
    }
  }
}
