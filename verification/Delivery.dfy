/**
 The durable delivery path on values: files are a map from path to content, writes are atomic
 renames, and every input or output failure is an explicit outcome.
 */
module Delivery {
  import opened Sorting
  import T = Telemetry

  // ----- batches, paths and file contents -----

  /** A decoded batch together with the text that marshalling it always produces. */
  datatype Batch = Batch(envelope: T.Batch, text: string)

  /** The marshalled text of a batch, with or without the newline after it, or anything else. */
  datatype Bytes = Line(batch: Batch, newline: bool) | Junk(text: string)

  function Size(data: Bytes): nat {
    match data
    case Line(b, newline) => |b.text| + if newline then 1 else 0
    case Junk(text) => |text|
  }

  /** Content without surrounding white space; marshalled text itself has none. */
  function Trimmed(data: Bytes): Bytes {
    match data
    case Line(b, _) => Line(b, false)
    case Junk(text) => Junk(text)
  }

  predicate SafeChar(c: char) {
    'a' <= c <= 'z' || 'A' <= c <= 'Z' || '0' <= c <= '9' || c == '.' || c == '_' || c == '-'
  }

  /** Replaces every run of unsafe characters by one underscore. */
  function Collapse(s: string, inRun: bool): string {
    if s == "" then ""
    else if SafeChar(s[0]) then [s[0]] + Collapse(s[1..], false)
    else (if inRun then "" else "_") + Collapse(s[1..], true)
  }

  function Sanitise(value: string): string {
    var cleaned := Collapse(value, false);
    if cleaned == "" || cleaned == "." || cleaned == ".." then "unknown" else cleaned
  }

  function Padded(digits: string, width: nat): string
    decreases width - |digits|
  {
    if |digits| >= width then digits else Padded("0" + digits, width)
  }

  /** The file of a batch below the root of the outbox, and equally below the root of the central store. */
  function PathOf(b: Batch): string {
    Sanitise(b.envelope.serverID) + "/" + Sanitise(b.envelope.serverSessionID) + "/"
    + Padded(Decimal(b.envelope.batchSequence), 20) + ".json"
  }

  // ----- the outbox -----

  datatype QueuedFile = QueuedFile(path: string, size: nat, modTime: nat)

  datatype StoredFile = StoredFile(data: Bytes, modTime: nat)

  /** The files that survive a crash: queued batches and dead letters. */
  datatype Disk = Disk(outbox: map<string, StoredFile>, dead: map<string, Bytes>)

  /** What the agent keeps in memory. */
  datatype Queue = Queue(items: seq<QueuedFile>, known: set<string>, bytes: int, deadLetters: int)

  datatype Limits = Limits(serverID: string, maxBytes: int, maxBatches: int)

  datatype PutResult = Stored | AlreadyStored | Conflict | Full | WrongServer | Failed

  /** How the file system treats one write: the last two leave the file in place. */
  datatype WriteOutcome = Unreadable | Unwritten | Unsynced | Written

  datatype PutEffect = PutEffect(result: PutResult, queue: Queue, disk: Disk)

  function Enqueue(q: Queue, item: QueuedFile): Queue {
    Queue(q.items + [item], q.known + {item.path}, q.bytes + item.size, q.deadLetters)
  }

  /** One more file of this size stays within both limits. */
  predicate Fits(limits: Limits, q: Queue, size: nat) {
    |q.items| < limits.maxBatches && q.bytes + size <= limits.maxBytes
  }

  function Put(limits: Limits, q: Queue, d: Disk, b: Batch, io: WriteOutcome, now: nat): PutEffect {
    var path, data := PathOf(b), Line(b, true);
    if b.envelope.serverID != limits.serverID then PutEffect(WrongServer, q, d)
    else if io == Unreadable then PutEffect(Failed, q, d)
    else if path in d.outbox then PutEffect(if d.outbox[path].data == data then AlreadyStored else Conflict, q, d)
    else if !Fits(limits, q, Size(data)) then PutEffect(Full, q, d)
    else if io == Unwritten then PutEffect(Failed, q, d)
    else
      var d' := d.(outbox := d.outbox[path := StoredFile(data, now)]);
      if io == Unsynced then PutEffect(Failed, q, d')
      else PutEffect(Stored, Enqueue(q, QueuedFile(path, Size(data), now)), d')
  }

  /** Every readable batch of this server that is not stored yet is turned away as too much. */
  ghost predicate RefusesNew(limits: Limits, q: Queue, d: Disk) {
    forall b: Batch, io: WriteOutcome, now: nat ::
      b.envelope.serverID == limits.serverID && io != Unreadable && PathOf(b) !in d.outbox ==>
        Put(limits, q, d, b, io, now) == PutEffect(Full, q, d)
  }

  function IndexFrom(items: seq<QueuedFile>, path: string, i: nat): int
    requires i <= |items|
    decreases |items| - i
  {
    if i == |items| then -1 else if items[i].path == path then i else IndexFrom(items, path, i + 1)
  }

  function IndexOf(q: Queue, path: string): int {
    if path !in q.known then -1 else IndexFrom(q.items, path, 0)
  }

  lemma {:induction false} IndexFromIs(items: seq<QueuedFile>, path: string, i: nat)
    requires i <= |items|
    ensures var k := IndexFrom(items, path, i);
            && -1 <= k < |items|
            && (k >= 0 ==> i <= k && items[k].path == path && forall j :: i <= j < k ==> items[j].path != path)
            && (k < 0 ==> forall j :: i <= j < |items| ==> items[j].path != path)
    decreases |items| - i
  {
    if i < |items| && items[i].path != path {
      IndexFromIs(items, path, i + 1);
    }
  }

  function RemoveAt(q: Queue, index: nat): Queue
    requires index < |q.items|
  {
    q.(items := q.items[..index] + q.items[index + 1..],
       known := q.known - {q.items[index].path},
       bytes := q.bytes - q.items[index].size)
  }

  function Without(m: map<string, StoredFile>, path: string): map<string, StoredFile> {
    map p | p in m && p != path :: m[p]
  }

  datatype MoveEffect = MoveEffect(ok: bool, queue: Queue, disk: Disk)

  /** Drops an uploaded item and its file; an item that is no longer queued is left alone. */
  function Remove(q: Queue, d: Disk, path: string, works: bool): MoveEffect {
    var index := IndexOf(q, path);
    IndexFromIs(q.items, path, 0);
    if index < 0 then MoveEffect(true, q, d)
    else if !works then MoveEffect(false, q, d)
    else MoveEffect(true, RemoveAt(q, index), d.(outbox := Without(d.outbox, path)))
  }

  /** The name a dead letter gets: its own path, or that path with a time stamp when it is taken. */
  function DeadName(d: Disk, path: string, stamp: string): string {
    if path in d.dead then path + "." + stamp else path
  }

  function DeadLetter(q: Queue, d: Disk, path: string, stamp: string, works: bool): MoveEffect {
    var index := IndexOf(q, path);
    IndexFromIs(q.items, path, 0);
    if index < 0 then MoveEffect(true, q, d)
    else if !works || path !in d.outbox then MoveEffect(false, q, d)
    else MoveEffect(true,
                    RemoveAt(q, index).(deadLetters := q.deadLetters + 1),
                    Disk(Without(d.outbox, path), d.dead[DeadName(d, path, stamp) := d.outbox[path].data]))
  }

  // ----- opening the outbox -----

  predicate FileAtMost(a: QueuedFile, b: QueuedFile) {
    a.modTime < b.modTime || (a.modTime == b.modTime && StringAtMost(a.path, b.path))
  }

  function Total(items: seq<QueuedFile>, n: nat): nat
    requires n <= |items|
  {
    if n == 0 then 0 else Total(items, n - 1) + items[n - 1].size
  }

  function Paths(items: seq<QueuedFile>): set<string> {
    set i | 0 <= i < |items| :: items[i].path
  }

  function FilesOn(d: Disk): set<QueuedFile> {
    set p | p in d.outbox :: QueuedFile(p, Size(d.outbox[p].data), d.outbox[p].modTime)
  }

  /** `q` is the queue that scanning the disk produces. */
  ghost predicate ScannedFrom(d: Disk, q: Queue) {
    && multiset(q.items) == multiset(FilesOn(d))
    && Sorted(q.items, FileAtMost)
    && q.known == Paths(q.items)
    && q.bytes == Total(q.items, |q.items|)
    && q.deadLetters == |d.dead|
  }

  // ----- the central store and the ingest handler -----

  datatype CentralEffect = CentralEffect(result: PutResult, files: map<string, Bytes>)

  /** The write-once store: the first content of a path stays. */
  function CentralPut(files: map<string, Bytes>, b: Batch, io: WriteOutcome): CentralEffect {
    var path := PathOf(b);
    if path in files then
      if io == Unreadable then CentralEffect(Failed, files)
      else CentralEffect(if Trimmed(files[path]) == Line(b, false) then AlreadyStored else Conflict, files)
    else if io == Unreadable || io == Unwritten then CentralEffect(Failed, files)
    else CentralEffect(if io == Unsynced then Failed else Stored, files[path := Line(b, true)])
  }

  /** What the handler knows about a request besides its body. */
  datatype Request = Request(authorised: bool, boundServer: string, tooLarge: bool, body: Bytes)

  datatype Response = Response(status: nat, files: map<string, Bytes>)

  function StatusOf(result: PutResult): nat {
    match result
    case Stored => 202
    case AlreadyStored => 200
    case Conflict => 409
    case Full => 503
    case WrongServer => 500
    case Failed => 500
  }

  /** The status that rejects a request before the store is asked, or zero. */
  function Refusal(r: Request, expectedServer: string): nat {
    if !r.authorised then 401
    else if r.tooLarge then 413
    else if r.body.Junk? then 400
    else if T.Validate(r.body.batch.envelope) != T.Accepted then 422
    else if expectedServer != "" && r.body.batch.envelope.serverID != expectedServer then 403
    else if r.boundServer != "" && r.body.batch.envelope.serverID != r.boundServer then 403
    else 0
  }

  /** A valid batch for this receiver whose credential belongs to another server. */
  predicate ForeignCredential(r: Request, expectedServer: string) {
    && Refusal(r, expectedServer) == 403
    && (expectedServer == "" || r.body.batch.envelope.serverID == expectedServer)
  }

  function Handle(files: map<string, Bytes>, r: Request, expectedServer: string, io: WriteOutcome): Response {
    if Refusal(r, expectedServer) != 0 then Response(Refusal(r, expectedServer), files)
    else
      var e := CentralPut(files, r.body.batch, io);
      Response(StatusOf(e.result), e.files)
  }

  predicate Success(status: nat) {
    200 <= status < 300
  }

  predicate PermanentRejection(status: nat) {
    status == 400 || status == 409 || status == 413 || status == 422
  }

  predicate Holds(files: map<string, Bytes>, b: Batch) {
    PathOf(b) in files && Trimmed(files[PathOf(b)]) == Line(b, false)
  }

  /** Write once: what was there is still there, unchanged. */
  ghost predicate Grows(files: map<string, Bytes>, files': map<string, Bytes>) {
    forall p :: p in files ==> p in files' && files'[p] == files[p]
  }

  /** A success status means that the very batch of the body is in the store. */
  lemma SuccessMeansStored(files: map<string, Bytes>, r: Request, expectedServer: string, io: WriteOutcome)
    ensures Success(Handle(files, r, expectedServer, io).status) ==>
              r.body.Line? && Holds(Handle(files, r, expectedServer, io).files, r.body.batch)
    ensures Grows(files, Handle(files, r, expectedServer, io).files)
    ensures forall p :: p in Handle(files, r, expectedServer, io).files && p !in files ==>
              r.body.Line? && p == PathOf(r.body.batch) && Handle(files, r, expectedServer, io).files[p] == Line(r.body.batch, true)
  {
  }

  /** A batch is refused for good only if it is malformed, invalid, too large or contradicts what is stored. */
  lemma PermanentMeansUnacceptable(files: map<string, Bytes>, r: Request, expectedServer: string, io: WriteOutcome)
    requires PermanentRejection(Handle(files, r, expectedServer, io).status)
    ensures r.tooLarge || r.body.Junk? || T.Validate(r.body.batch.envelope) != T.Accepted
         || (PathOf(r.body.batch) in files && Trimmed(files[PathOf(r.body.batch)]) != Line(r.body.batch, false))
  {
  }
}
