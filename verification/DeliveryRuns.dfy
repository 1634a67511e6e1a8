/**
 Whole runs of the delivery path: local requests, the spool importer, one uploader, the network,
 the central store and crashes, interleaved in any order.
 */
module DeliveryRuns {
  import opened Delivery
  import opened Sorting
  import T = Telemetry

  datatype Upload =
    | Idle
    | Sending(path: string, payload: Bytes)
    | Answered(path: string, payload: Bytes, status: nat)

  datatype SpoolLine = BlankLine | BadLine | BatchLine(batch: Batch)

  datatype Import = NoImport | Importing(name: string, lines: seq<SpoolLine>, next: nat)

  /**
   `enqueued` lists the queue as loaded at the last opening and every item added since; `departed`
   lists what left it. Both, and `acked`, are history: no step depends on them.
   */
  datatype World = World(
    limits: Limits,
    queue: Queue,
    disk: Disk,
    upload: Upload,
    central: map<string, Bytes>,
    spool: map<string, seq<SpoolLine>>,
    importing: Import,
    archive: map<string, seq<SpoolLine>>,
    stranded: map<string, seq<SpoolLine>>,
    acked: set<Batch>,
    enqueued: seq<QueuedFile>,
    departed: seq<QueuedFile>)

  datatype Step =
    | LocalPut(batch: Batch, io: WriteOutcome, now: nat)
    | StartUpload
    | LoseRequest
    | Deliver(authorised: bool, boundServer: string, tooLarge: bool, expectedServer: string, centralIO: WriteOutcome)
    | LoseResponse
    | React(works: bool, stamp: string)
    | OtherDelivery(other: Batch, otherIO: WriteOutcome)
    | Crash(reopened: Queue)
    | SpoolAppears(name: string, lines: seq<SpoolLine>)
    | Claim(name: string)
    | ImportLine(io: WriteOutcome, now: nat)
    | Abandon
    | Archive(archiveName: string)

  // ----- one step -----

  predicate Accepted(r: PutResult) {
    r == Stored || r == AlreadyStored
  }

  /** A put, and the history it leaves. */
  function AfterPut(w: World, b: Batch, io: WriteOutcome, now: nat): World {
    var e := Put(w.limits, w.queue, w.disk, b, io, now);
    w.(queue := e.queue, disk := e.disk,
       acked := if Accepted(e.result) then w.acked + {b} else w.acked,
       enqueued := if e.result == Stored then w.enqueued + [QueuedFile(PathOf(b), Size(Line(b, true)), now)] else w.enqueued)
  }

  /** Moves the answered item out of the queue, or leaves it for a retry. */
  function Reaction(w: World, works: bool, stamp: string): MoveEffect
    requires w.upload.Answered?
  {
    if Success(w.upload.status) then Remove(w.queue, w.disk, w.upload.path, works)
    else if PermanentRejection(w.upload.status) then DeadLetter(w.queue, w.disk, w.upload.path, stamp, works)
    else MoveEffect(false, w.queue, w.disk)
  }

  function AfterReaction(w: World, works: bool, stamp: string): World
    requires w.upload.Answered?
  {
    var e := Reaction(w, works, stamp);
    w.(queue := e.queue, disk := e.disk, upload := Idle,
       departed := if |e.queue.items| < |w.queue.items| then w.departed + w.queue.items[..1] else w.departed)
  }

  predicate Importable(b: Batch) {
    T.Validate(b.envelope) == T.Accepted
  }

  /** Renames the claimed file back; an import that fails ends like this. */
  function Restored(w: World): World
    requires w.importing.Importing?
  {
    w.(spool := w.spool[w.importing.name := w.importing.lines], importing := NoImport)
  }

  function AfterImportLine(w: World, io: WriteOutcome, now: nat): World
    requires w.importing.Importing? && w.importing.next < |w.importing.lines|
  {
    var next := w.importing.(next := w.importing.next + 1);
    match w.importing.lines[w.importing.next]
    case BlankLine => w.(importing := next)
    case BadLine => Restored(w)
    case BatchLine(b) =>
      if !Importable(b) then Restored(w)
      else if Accepted(Put(w.limits, w.queue, w.disk, b, io, now).result) then AfterPut(w, b, io, now).(importing := next)
      else Restored(AfterPut(w, b, io, now))
  }

  predicate HasBatch(lines: seq<SpoolLine>) {
    exists l :: l in lines && l != BlankLine
  }

  /** When a step can happen. Time stamps of dead letters are never repeated. */
  ghost predicate Enabled(w: World, s: Step) {
    match s
    case LocalPut(_, _, _) => true
    case StartUpload =>
      && w.upload == Idle && w.queue.items != [] && w.queue.items[0].path != ""
      && w.queue.items[0].path in w.disk.outbox
    case LoseRequest => w.upload.Sending?
    case Deliver(_, _, _, _, _) => w.upload.Sending?
    case LoseResponse => w.upload.Answered?
    case React(_, stamp) => w.upload.Answered? && DeadName(w.disk, w.upload.path, stamp) !in w.disk.dead
    case OtherDelivery(_, _) => true
    case Crash(reopened) => ScannedFrom(w.disk, reopened)
    case SpoolAppears(_, _) => true
    case Claim(name) => w.importing == NoImport && name in w.spool
    case ImportLine(_, _) => w.importing.Importing? && w.importing.next < |w.importing.lines|
    case Abandon => w.importing.Importing?
    case Archive(archiveName) =>
      w.importing.Importing? && w.importing.next == |w.importing.lines| && HasBatch(w.importing.lines)
      && archiveName !in w.archive
  }

  ghost function Next(w: World, s: Step): World
    requires Enabled(w, s)
  {
    match s
    case LocalPut(b, io, now) => AfterPut(w, b, io, now)
    case StartUpload =>
      var path := w.queue.items[0].path;
      w.(upload := Sending(path, w.disk.outbox[path].data))
    case LoseRequest => w.(upload := Idle)
    case Deliver(authorised, bound, tooLarge, expected, io) =>
      var r := Handle(w.central, Request(authorised, bound, tooLarge, w.upload.payload), expected, io);
      w.(central := r.files, upload := Answered(w.upload.path, w.upload.payload, r.status))
    case LoseResponse => w.(upload := Idle)
    case React(works, stamp) => AfterReaction(w, works, stamp)
    case OtherDelivery(b, io) => w.(central := CentralPut(w.central, b, io).files)
    case Crash(reopened) =>
      w.(queue := reopened, upload := Idle, importing := NoImport, enqueued := reopened.items, departed := [],
         stranded := if w.importing.Importing? then w.stranded[w.importing.name := w.importing.lines] else w.stranded)
    case SpoolAppears(name, lines) => w.(spool := w.spool[name := lines])
    case Claim(name) =>
      w.(spool := map n | n in w.spool && n != name :: w.spool[n], importing := Importing(name, w.spool[name], 0),
         stranded := w.stranded - {name})
    case ImportLine(io, now) => AfterImportLine(w, io, now)
    case Abandon => Restored(w)
    case Archive(archiveName) => w.(archive := w.archive[archiveName := w.importing.lines], importing := NoImport)
  }

  // ----- the invariant -----

  ghost predicate DistinctPaths(items: seq<QueuedFile>) {
    forall i, j :: 0 <= i < j < |items| ==> items[i].path != items[j].path
  }

  predicate HasFile(item: QueuedFile, outbox: map<string, StoredFile>) {
    item.path in outbox && item.size == Size(outbox[item.path].data)
  }

  ghost predicate AllOnDisk(items: seq<QueuedFile>, outbox: map<string, StoredFile>) {
    forall i :: 0 <= i < |items| ==> HasFile(items[i], outbox)
  }

  /** The queue in memory matches itself and the files it stands for. */
  ghost predicate QueueOK(q: Queue, d: Disk) {
    && DistinctPaths(q.items)
    && q.known == Paths(q.items)
    && q.bytes == Total(q.items, |q.items|)
    && AllOnDisk(q.items, d.outbox)
  }

  /** An acknowledged batch is still, byte for byte, in the outbox, in the central store or a dead letter. */
  ghost predicate Held(w: World, b: Batch) {
    || (PathOf(b) in w.disk.outbox && w.disk.outbox[PathOf(b)].data == Line(b, true))
    || (PathOf(b) in w.central && w.central[PathOf(b)] == Line(b, true))
    || InDeadLetters(w.disk.dead, b)
  }

  ghost predicate InDeadLetters(dead: map<string, Bytes>, b: Batch) {
    exists name :: name in dead && dead[name] == Line(b, true)
  }

  ghost predicate AllHeld(w: World) {
    forall b :: b in w.acked ==> Held(w, b)
  }

  ghost predicate CentralOK(central: map<string, Bytes>) {
    forall p :: p in central ==> central[p].Line? && central[p].newline
  }

  /** The uploader works on the head of the queue, and a success it has seen is real. */
  ghost predicate UploadOK(w: World) {
    w.upload == Idle ||
    (&& w.queue.items != [] && w.queue.items[0].path == w.upload.path != ""
     && w.upload.path in w.disk.outbox && w.disk.outbox[w.upload.path].data == w.upload.payload
     && (w.upload.Answered? && Success(w.upload.status) ==>
           w.upload.payload.Line? && Holds(w.central, w.upload.payload.batch)))
  }

  ghost predicate LinesAcked(w: World, lines: seq<SpoolLine>, n: nat)
    requires n <= |lines|
  {
    forall i :: 0 <= i < n ==> lines[i] == BlankLine || (lines[i].BatchLine? && lines[i].batch in w.acked)
  }

  ghost predicate SpoolOK(w: World) {
    && (w.importing.Importing? ==>
          w.importing.next <= |w.importing.lines| && LinesAcked(w, w.importing.lines, w.importing.next))
    && (forall name :: name in w.archive ==> LinesAcked(w, w.archive[name], |w.archive[name]|))
  }

  ghost predicate HistoryOK(w: World) {
    w.enqueued == w.departed + w.queue.items
  }

  ghost predicate Inv(w: World) {
    QueueOK(w.queue, w.disk) && AllHeld(w) && CentralOK(w.central) && UploadOK(w) && SpoolOK(w) && HistoryOK(w)
  }

  /** A fresh start on whatever files the outbox directory holds. */
  ghost predicate Init(w: World) {
    && ScannedFrom(w.disk, w.queue) && w.upload == Idle && w.importing == NoImport
    && w.central == map[] && w.archive == map[] && w.acked == {}
    && w.enqueued == w.queue.items && w.departed == []
  }

  // ----- the queue -----

  lemma {:induction false} TotalPush(items: seq<QueuedFile>, item: QueuedFile, n: nat)
    requires n <= |items|
    ensures Total(items + [item], n) == Total(items, n)
  {
    if n > 0 {
      TotalPush(items, item, n - 1);
    }
  }

  lemma {:induction false} TotalDrop(items: seq<QueuedFile>, rest: seq<QueuedFile>, index: nat, n: nat)
    requires index < n <= |items| && rest == items[..index] + items[index + 1..]
    ensures Total(rest, n - 1) == Total(items, n) - items[index].size
  {
    if n - 1 == index {
      TotalPrefix(items, rest, index);
    } else {
      TotalDrop(items, rest, index, n - 1);
      assert rest[n - 2] == items[n - 1];
    }
  }

  lemma {:induction false} TotalPrefix(a: seq<QueuedFile>, b: seq<QueuedFile>, n: nat)
    requires n <= |a| && n <= |b| && forall i :: 0 <= i < n ==> a[i] == b[i]
    ensures Total(a, n) == Total(b, n)
  {
    if n > 0 {
      TotalPrefix(a, b, n - 1);
    }
  }

  /** A put keeps the queue consistent, never passes a limit, and disturbs no stored file. */
  lemma PutKeepsQueue(limits: Limits, q: Queue, d: Disk, b: Batch, io: WriteOutcome, now: nat)
    requires QueueOK(q, d)
    ensures var e := Put(limits, q, d, b, io, now);
            && QueueOK(e.queue, e.disk)
            && (e.result == Stored ==> |e.queue.items| <= limits.maxBatches && e.queue.bytes <= limits.maxBytes)
            && (forall p :: p in d.outbox ==> p in e.disk.outbox && e.disk.outbox[p] == d.outbox[p])
            && e.disk.dead == d.dead
            && q.items <= e.queue.items
            && (Accepted(e.result) ==> PathOf(b) in e.disk.outbox && e.disk.outbox[PathOf(b)].data == Line(b, true))
  {
    var e := Put(limits, q, d, b, io, now);
    if e.result == Stored {
      var item := QueuedFile(PathOf(b), Size(Line(b, true)), now);
      TotalPush(q.items, item, |q.items|);
      assert Paths(q.items + [item]) == Paths(q.items) + {item.path} by {
        assert (q.items + [item])[|q.items|] == item;
        forall p ensures p in Paths(q.items + [item]) <==> p in Paths(q.items) + {item.path} {
          if p in Paths(q.items) {
            var i :| 0 <= i < |q.items| && q.items[i].path == p;
            assert (q.items + [item])[i].path == p;
          }
        }
      }
    }
  }

  lemma PathsTail(items: seq<QueuedFile>)
    requires items != [] && DistinctPaths(items)
    ensures Paths(items[1..]) == Paths(items) - {items[0].path}
    ensures items[0].path in Paths(items)
  {
    var rest := items[1..];
    forall p ensures p in Paths(rest) <==> p in Paths(items) - {items[0].path} {
      if p in Paths(rest) {
        var i :| 0 <= i < |rest| && rest[i].path == p;
        assert items[i + 1].path == p;
      }
      if p in Paths(items) - {items[0].path} {
        var i :| 0 <= i < |items| && items[i].path == p;
        assert rest[i - 1].path == p;
      }
    }
  }

  function HeadRemoved(q: Queue): Queue
    requires q.items != []
  {
    Queue(q.items[1..], q.known - {q.items[0].path}, q.bytes - q.items[0].size, q.deadLetters)
  }

  lemma HeadIs(q: Queue)
    requires q.items != [] && q.items[0].path in q.known
    ensures IndexOf(q, q.items[0].path) == 0
    ensures RemoveAt(q, 0) == HeadRemoved(q)
  {
    assert q.items[..0] + q.items[1..] == q.items[1..];
  }

  lemma TailIsFine(items: seq<QueuedFile>, outbox: map<string, StoredFile>)
    requires items != [] && DistinctPaths(items) && AllOnDisk(items, outbox)
    ensures DistinctPaths(items[1..]) && AllOnDisk(items[1..], Without(outbox, items[0].path))
  {
    var rest := items[1..];
    forall i | 0 <= i < |rest| ensures HasFile(rest[i], Without(outbox, items[0].path)) {
      assert HasFile(items[i + 1], outbox) && items[i + 1].path != items[0].path;
    }
  }

  lemma TotalTail(items: seq<QueuedFile>)
    requires items != []
    ensures Total(items[1..], |items| - 1) == Total(items, |items|) - items[0].size
  {
    TotalDrop(items, items[1..], 0, |items|);
  }

  /** Taking the head of the queue out, together with its file. */
  lemma DropHead(q: Queue, d: Disk, dead: map<string, Bytes>, q': Queue)
    requires QueueOK(q, d) && q.items != [] && q'.items == q.items[1..]
    requires q'.known == q.known - {q.items[0].path} && q'.bytes == q.bytes - q.items[0].size
    ensures QueueOK(q', Disk(Without(d.outbox, q.items[0].path), dead))
  {
    PathsTail(q.items);
    TailIsFine(q.items, d.outbox);
    TotalTail(q.items);
  }

  /** Scanning rebuilds a consistent queue that holds exactly the outbox files on disk. */
  lemma ScanKeepsQueue(d: Disk, q: Queue)
    requires ScannedFrom(d, q)
    ensures QueueOK(q, d) && Paths(q.items) == d.outbox.Keys
  {
    forall f ensures f in q.items <==> f in FilesOn(d) {
      assert f in q.items <==> f in multiset(q.items);
    }
    forall i, j | 0 <= i < j < |q.items| ensures q.items[i].path != q.items[j].path {
      assert q.items[i] in FilesOn(d) && q.items[j] in FilesOn(d);
      if q.items[i].path == q.items[j].path {
        Repeated(q.items, i, j);
        assert false;
      }
    }
    forall i | 0 <= i < |q.items|
      ensures q.items[i].path in d.outbox && q.items[i].size == Size(d.outbox[q.items[i].path].data)
    {
      assert q.items[i] in FilesOn(d);
    }
    forall p | p in d.outbox ensures p in Paths(q.items) {
      var f := QueuedFile(p, Size(d.outbox[p].data), d.outbox[p].modTime);
      assert f in FilesOn(d) && f in q.items;
      var i :| 0 <= i < |q.items| && q.items[i] == f;
    }
  }

  // ----- each step keeps the invariant -----

  lemma InitHolds(w: World)
    requires Init(w)
    ensures Inv(w)
  {
    ScanKeepsQueue(w.disk, w.queue);
  }

  /** Stored files and central entries that only grow keep every acknowledged batch held. */
  lemma HeldGrows(w: World, w': World, b: Batch)
    requires Held(w, b)
    requires forall p :: p in w.disk.outbox ==> p in w'.disk.outbox && w'.disk.outbox[p] == w.disk.outbox[p]
    requires forall n :: n in w.disk.dead ==> n in w'.disk.dead && w'.disk.dead[n] == w.disk.dead[n]
    requires Grows(w.central, w'.central)
    ensures Held(w', b)
  {
    if InDeadLetters(w.disk.dead, b) {
      var n :| n in w.disk.dead && w.disk.dead[n] == Line(b, true);
      assert w'.disk.dead[n] == Line(b, true);
    }
  }

  lemma PutKeepsInv(w: World, b: Batch, io: WriteOutcome, now: nat)
    requires Inv(w)
    ensures Inv(AfterPut(w, b, io, now))
  {
    var w' := AfterPut(w, b, io, now);
    PutKeepsQueue(w.limits, w.queue, w.disk, b, io, now);
    forall a | a in w'.acked ensures Held(w', a) {
      if a in w.acked {
        HeldGrows(w, w', a);
      }
    }
    assert HistoryOK(w');
  }

  lemma DeliverKeepsInv(w: World, s: Step)
    requires Inv(w) && s.Deliver? && Enabled(w, s)
    ensures Inv(Next(w, s))
  {
    var w' := Next(w, s);
    SuccessMeansStored(w.central, Request(s.authorised, s.boundServer, s.tooLarge, w.upload.payload), s.expectedServer, s.centralIO);
    forall a | a in w'.acked ensures Held(w', a) {
      HeldGrows(w, w', a);
    }
  }

  lemma OtherKeepsInv(w: World, s: Step)
    requires Inv(w) && s.OtherDelivery?
    ensures Inv(Next(w, s))
  {
    var w' := Next(w, s);
    forall a | a in w'.acked ensures Held(w', a) {
      HeldGrows(w, w', a);
    }
  }

  /** Dropping an uploaded file is safe: its batch is in the central store. */
  lemma RemovalKeepsHeld(w: World, w': World, b: Batch)
    requires Inv(w) && w.upload.Answered? && Success(w.upload.status) && Held(w, b)
    requires w'.disk == w.disk.(outbox := Without(w.disk.outbox, w.upload.path)) && w'.central == w.central
    ensures Held(w', b)
  {
    if PathOf(b) in w.disk.outbox && w.disk.outbox[PathOf(b)].data == Line(b, true) && PathOf(b) == w.upload.path {
      assert Holds(w.central, b);
      assert w.central[PathOf(b)].Line? && w.central[PathOf(b)].newline;
    }
  }

  /** A dead letter keeps the content under a name that was free. */
  lemma DeadLetterKeepsHeld(w: World, w': World, b: Batch, name: string)
    requires Inv(w) && w.upload.Answered? && Held(w, b) && name !in w.disk.dead
    requires w'.disk == Disk(Without(w.disk.outbox, w.upload.path), w.disk.dead[name := w.upload.payload])
    requires w'.central == w.central
    ensures Held(w', b)
  {
    if InDeadLetters(w.disk.dead, b) {
      var n :| n in w.disk.dead && w.disk.dead[n] == Line(b, true);
      assert w'.disk.dead[n] == Line(b, true);
    } else if PathOf(b) in w.disk.outbox && w.disk.outbox[PathOf(b)].data == Line(b, true) && PathOf(b) == w.upload.path {
      assert w'.disk.dead[name] == Line(b, true);
    }
  }

  /** The world after an uploaded item was removed, and after one was moved to the dead letters. */
  function AfterRemoval(w: World): World
    requires w.upload.Answered? && w.queue.items != []
  {
    w.(queue := HeadRemoved(w.queue), disk := w.disk.(outbox := Without(w.disk.outbox, w.upload.path)), upload := Idle,
       departed := w.departed + w.queue.items[..1])
  }

  function AfterDeadLetter(w: World, name: string): World
    requires w.upload.Answered? && w.queue.items != []
  {
    w.(queue := HeadRemoved(w.queue).(deadLetters := w.queue.deadLetters + 1),
       disk := Disk(Without(w.disk.outbox, w.upload.path), w.disk.dead[name := w.upload.payload]), upload := Idle,
       departed := w.departed + w.queue.items[..1])
  }

  /** The answer is about the head of the queue, whose file is there. */
  ghost predicate AnswersHead(w: World) {
    && w.upload.Answered? && w.queue.items != [] && w.queue.items[0].path == w.upload.path
    && w.upload.path in w.queue.known && w.upload.path in w.disk.outbox
    && w.disk.outbox[w.upload.path].data == w.upload.payload
  }

  lemma UploadIsHead(w: World)
    requires Inv(w) && w.upload.Answered?
    ensures AnswersHead(w)
  {
    assert w.queue.items[0].path in Paths(w.queue.items);
  }

  lemma ReactionIs(w: World, works: bool, stamp: string)
    requires AnswersHead(w)
    ensures AfterReaction(w, works, stamp)
         == if works && Success(w.upload.status) then AfterRemoval(w)
            else if works && PermanentRejection(w.upload.status) then AfterDeadLetter(w, DeadName(w.disk, w.upload.path, stamp))
            else w.(upload := Idle)
  {
    HeadIs(w.queue);
  }

  lemma SameSpool(w: World, w': World)
    requires SpoolOK(w) && w'.importing == w.importing && w'.archive == w.archive && w.acked <= w'.acked
    ensures SpoolOK(w')
  {
  }

  lemma HeadDeparts(w: World, w': World)
    requires HistoryOK(w) && w.queue.items != [] && w'.enqueued == w.enqueued
    requires w'.departed == w.departed + w.queue.items[..1] && w'.queue.items == w.queue.items[1..]
    ensures HistoryOK(w')
  {
    assert w.queue.items == w.queue.items[..1] + w.queue.items[1..];
  }

  lemma RemovalKeepsQueue(w: World)
    requires Inv(w) && w.upload.Answered?
    ensures QueueOK(AfterRemoval(w).queue, AfterRemoval(w).disk)
  {
    DropHead(w.queue, w.disk, w.disk.dead, AfterRemoval(w).queue);
  }

  lemma RemovalKeepsInv(w: World)
    requires Inv(w) && w.upload.Answered? && Success(w.upload.status)
    ensures Inv(AfterRemoval(w))
  {
    RemovalKeepsAllHeld(w);
    RemovalKeepsQueue(w);
    SameSpool(w, AfterRemoval(w));
    HeadDeparts(w, AfterRemoval(w));
  }

  lemma RemovalKeepsAllHeld(w: World)
    requires Inv(w) && w.upload.Answered? && Success(w.upload.status)
    ensures AllHeld(AfterRemoval(w))
  {
    forall a | a in w.acked ensures Held(AfterRemoval(w), a) {
      RemovalKeepsHeld(w, AfterRemoval(w), a);
    }
  }

  lemma DeadLetterKeepsQueue(w: World, name: string)
    requires Inv(w) && w.upload.Answered?
    ensures QueueOK(AfterDeadLetter(w, name).queue, AfterDeadLetter(w, name).disk)
  {
    DropHead(w.queue, w.disk, w.disk.dead[name := w.upload.payload], AfterDeadLetter(w, name).queue);
  }

  lemma DeadLetterKeepsInv(w: World, name: string)
    requires Inv(w) && w.upload.Answered? && name !in w.disk.dead
    ensures Inv(AfterDeadLetter(w, name))
  {
    var w' := AfterDeadLetter(w, name);
    forall a | a in w'.acked ensures Held(w', a) {
      DeadLetterKeepsHeld(w, w', a, name);
    }
    DeadLetterKeepsQueue(w, name);
    SameSpool(w, w');
    HeadDeparts(w, w');
  }

  lemma ReactKeepsInv(w: World, s: Step)
    requires Inv(w) && s.React? && Enabled(w, s)
    ensures Inv(Next(w, s))
  {
    UploadIsHead(w);
    ReactionIs(w, s.works, s.stamp);
    if s.works && Success(w.upload.status) {
      RemovalKeepsInv(w);
    } else if s.works && PermanentRejection(w.upload.status) {
      DeadLetterKeepsInv(w, DeadName(w.disk, w.upload.path, s.stamp));
    } else {
      var w' := Next(w, s);
      assert w' == w.(upload := Idle);
      forall a | a in w'.acked ensures Held(w', a) {
        HeldGrows(w, w', a);
      }
    }
  }

  lemma CrashKeepsInv(w: World, s: Step)
    requires Inv(w) && s.Crash? && Enabled(w, s)
    ensures Inv(Next(w, s))
  {
    var w' := Next(w, s);
    ScanKeepsQueue(w.disk, s.reopened);
    forall a | a in w'.acked ensures Held(w', a) {
      HeldGrows(w, w', a);
    }
  }

  lemma BatchLineKeepsInv(w: World, b: Batch, io: WriteOutcome, now: nat)
    requires Inv(w) && w.importing.Importing? && w.importing.next < |w.importing.lines|
    requires w.importing.lines[w.importing.next] == BatchLine(b) && Importable(b)
    ensures Inv(AfterImportLine(w, io, now))
  {
    PutKeepsInv(w, b, io, now);
    if Accepted(Put(w.limits, w.queue, w.disk, b, io, now).result) {
      AdvanceKeepsInv(AfterPut(w, b, io, now), w.importing.(next := w.importing.next + 1));
    } else {
      RestoreKeepsInv(AfterPut(w, b, io, now));
    }
  }

  lemma ImportKeepsInv(w: World, s: Step)
    requires Inv(w) && s.ImportLine? && Enabled(w, s)
    ensures Inv(Next(w, s))
  {
    var line := w.importing.lines[w.importing.next];
    if line.BatchLine? && Importable(line.batch) {
      BatchLineKeepsInv(w, line.batch, s.io, s.now);
    } else if line == BlankLine {
      AdvanceKeepsInv(w, w.importing.(next := w.importing.next + 1));
    } else {
      RestoreKeepsInv(w);
    }
  }

  lemma RestoreKeepsInv(w: World)
    requires Inv(w) && w.importing.Importing?
    ensures Inv(Restored(w))
  {
    forall a | a in w.acked ensures Held(Restored(w), a) {
      HeldGrows(w, Restored(w), a);
    }
  }

  lemma AdvanceKeepsInv(w: World, next: Import)
    requires Inv(w) && w.importing.Importing? && w.importing.next < |w.importing.lines|
    requires next == w.importing.(next := w.importing.next + 1)
    requires LinesAcked(w, w.importing.lines, w.importing.next + 1)
    ensures Inv(w.(importing := next))
  {
    forall a | a in w.acked ensures Held(w.(importing := next), a) {
      HeldGrows(w, w.(importing := next), a);
    }
  }

  lemma BookkeepingKeepsInv(w: World, s: Step)
    requires Inv(w) && Enabled(w, s)
    requires s.StartUpload? || s.LoseRequest? || s.LoseResponse? || s.SpoolAppears? || s.Claim? || s.Archive?
    ensures Inv(Next(w, s))
  {
    var w' := Next(w, s);
    forall a | a in w'.acked ensures Held(w', a) {
      HeldGrows(w, w', a);
    }
  }

  /** Every step keeps the invariant. */
  lemma StepKeepsInv(w: World, s: Step)
    requires Inv(w) && Enabled(w, s)
    ensures Inv(Next(w, s))
  {
    match s
    case LocalPut(b, io, now) => PutKeepsInv(w, b, io, now);
    case Deliver(_, _, _, _, _) => DeliverKeepsInv(w, s);
    case React(_, _) => ReactKeepsInv(w, s);
    case OtherDelivery(_, _) => OtherKeepsInv(w, s);
    case Crash(_) => CrashKeepsInv(w, s);
    case ImportLine(_, _) => ImportKeepsInv(w, s);
    case Abandon => RestoreKeepsInv(w);
    case _ => BookkeepingKeepsInv(w, s);
  }

  // ----- whole runs -----

  /** The worlds of a run, each reached from the one before by an enabled step. */
  ghost predicate IsRun(worlds: seq<World>, steps: seq<Step>) {
    && |worlds| == |steps| + 1
    && (forall i :: 0 <= i < |steps| ==> Enabled(worlds[i], steps[i]) && worlds[i + 1] == Next(worlds[i], steps[i]))
  }

  lemma {:induction false} RunKeepsInv(worlds: seq<World>, steps: seq<Step>, i: nat)
    requires IsRun(worlds, steps) && Init(worlds[0]) && i <= |steps|
    ensures Inv(worlds[i])
  {
    if i == 0 {
      InitHolds(worlds[0]);
    } else {
      RunKeepsInv(worlds, steps, i - 1);
      StepKeepsInv(worlds[i - 1], steps[i - 1]);
    }
  }

  /** Central entries and acknowledgements of `w` still stand in `w'`. */
  ghost predicate Later(w: World, w': World) {
    Grows(w.central, w'.central) && w.acked <= w'.acked
  }

  lemma StepIsLater(w: World, s: Step)
    requires Enabled(w, s)
    ensures Later(w, Next(w, s))
  {
    if s.Deliver? {
      SuccessMeansStored(w.central, Request(s.authorised, s.boundServer, s.tooLarge, w.upload.payload), s.expectedServer, s.centralIO);
    }
  }

  lemma {:induction false} LaterChain(worlds: seq<World>, i: nat, j: nat)
    requires i <= j < |worlds| && forall k :: 0 <= k < |worlds| - 1 ==> Later(worlds[k], worlds[k + 1])
    ensures Later(worlds[i], worlds[j])
    decreases j
  {
    if i < j {
      LaterChain(worlds, i, j - 1);
      assert Later(worlds[j - 1], worlds[j - 1 + 1]);
    }
  }

  /** A central entry, once written, never changes again. */
  lemma CentralNeverChanges(worlds: seq<World>, steps: seq<Step>, i: nat, j: nat)
    requires IsRun(worlds, steps) && i <= j <= |steps|
    ensures Grows(worlds[i].central, worlds[j].central) && worlds[i].acked <= worlds[j].acked
  {
    forall k | 0 <= k < |worlds| - 1 ensures Later(worlds[k], worlds[k + 1]) {
      StepIsLater(worlds[k], steps[k]);
    }
    LaterChain(worlds, i, j);
  }

  /** An acknowledgement at any moment still stands at every later one. */
  lemma AcknowledgedIsNeverLost(worlds: seq<World>, steps: seq<Step>, i: nat, j: nat, b: Batch)
    requires IsRun(worlds, steps) && Init(worlds[0]) && i <= j <= |steps| && b in worlds[i].acked
    ensures Held(worlds[j], b)
  {
    CentralNeverChanges(worlds, steps, i, j);
    RunKeepsInv(worlds, steps, j);
  }

  /** A spool file is archived only when every line in it was blank or an acknowledged batch, and none is lost. */
  lemma ArchivedIsAcknowledged(worlds: seq<World>, steps: seq<Step>, j: nat, name: string, k: nat)
    requires IsRun(worlds, steps) && Init(worlds[0]) && j <= |steps|
    requires name in worlds[j].archive && k < |worlds[j].archive[name]|
    ensures var line := worlds[j].archive[name][k];
            line == BlankLine || (line.BatchLine? && line.batch in worlds[j].acked && Held(worlds[j], line.batch))
  {
    RunKeepsInv(worlds, steps, j);
    assert LinesAcked(worlds[j], worlds[j].archive[name], |worlds[j].archive[name]|);
  }

  /** Between openings the queue is first in, first out: what left and what waits is what came in. */
  lemma QueueIsFIFO(worlds: seq<World>, steps: seq<Step>, j: nat)
    requires IsRun(worlds, steps) && Init(worlds[0]) && j <= |steps|
    ensures worlds[j].enqueued == worlds[j].departed + worlds[j].queue.items
  {
    RunKeepsInv(worlds, steps, j);
  }
}
