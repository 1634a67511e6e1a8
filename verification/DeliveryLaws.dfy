/** What the handler, the two stores and the uploader answer and do, from the fields of their inputs alone. */
module DeliveryLaws {
  import opened Agent
  import opened Delivery
  import opened DeliveryRuns
  import opened Sorting
  import T = Telemetry

  // ----- the ingest handler -----

  predicate Named(serverID: string, wanted: string) {
    wanted == "" || serverID == wanted
  }

  /** A credential, a body within the limit, and in it a valid batch. */
  predicate Sound(r: Request) {
    r.authorised && !r.tooLarge && r.body.Line? && T.Validate(r.body.batch.envelope) == T.Accepted
  }

  /** The batch also comes from the server that the receiver expects and the credential is bound to. */
  predicate Admissible(r: Request, expectedServer: string) {
    Sound(r) && Named(r.body.batch.envelope.serverID, expectedServer) && Named(r.body.batch.envelope.serverID, r.boundServer)
  }

  /** Only an admissible request is answered with success, and only one changes the store. */
  lemma OnlyAdmissibleIsStored(files: map<string, Bytes>, r: Request, expectedServer: string, io: WriteOutcome)
    ensures var a := Handle(files, r, expectedServer, io);
            200 <= a.status < 300 || a.files != files ==> Admissible(r, expectedServer)
  {
  }

  predicate SameText(content: Bytes, b: Batch) {
    content == Line(b, true) || content == Line(b, false)
  }

  /** Every admissible request gets the answer that its path calls for; a store that works never fails it. */
  lemma AdmissibleIsAnswered(files: map<string, Bytes>, r: Request, expectedServer: string, io: WriteOutcome)
    requires Admissible(r, expectedServer)
    ensures var b, a := r.body.batch, Handle(files, r, expectedServer, io);
            var path := PathOf(b);
            && (path !in files && io == Written ==> a == Response(202, files[path := Line(b, true)]))
            && (path !in files && io == Unsynced ==> a == Response(500, files[path := Line(b, true)]))
            && (path !in files && (io == Unwritten || io == Unreadable) ==> a == Response(500, files))
            && (path in files && io == Unreadable ==> a == Response(500, files))
            && (path in files && io != Unreadable && SameText(files[path], b) ==> a == Response(200, files))
            && (path in files && io != Unreadable && !SameText(files[path], b) ==> a == Response(409, files))
  {
  }

  /** The first that is wrong decides: credential, size, form, validity, server. */
  lemma RefusalsInOrder(files: map<string, Bytes>, r: Request, expectedServer: string, io: WriteOutcome)
    ensures var status := Handle(files, r, expectedServer, io).status;
            && (status == 401 <==> !r.authorised)
            && (status == 413 <==> r.authorised && r.tooLarge)
            && (status == 400 <==> r.authorised && !r.tooLarge && r.body.Junk?)
            && (status == 422 <==> r.authorised && !r.tooLarge && r.body.Line? && T.Validate(r.body.batch.envelope) != T.Accepted)
            && (status == 403 <==> Sound(r) && !Admissible(r, expectedServer))
  {
  }

  /** The 403 that also counts as a failed credential: the receiver's own server, but bound to another one. */
  lemma ForeignIsBoundElsewhere(r: Request, expectedServer: string)
    ensures ForeignCredential(r, expectedServer) <==>
              && Sound(r) && Named(r.body.batch.envelope.serverID, expectedServer)
              && r.boundServer != "" && r.boundServer != r.body.batch.envelope.serverID
  {
  }

  // ----- the outbox -----

  /** A put is stored exactly when nothing stands against it, and then it is the last item and a new file. */
  lemma PutStores(limits: Limits, q: Queue, d: Disk, b: Batch, io: WriteOutcome, now: nat)
    ensures var e, path := Put(limits, q, d, b, io, now), PathOf(b);
            var size := |b.text| + 1;
            && (e.result == Stored <==>
                  && b.envelope.serverID == limits.serverID && io == Written && path !in d.outbox
                  && |q.items| < limits.maxBatches && q.bytes + size <= limits.maxBytes)
            && (e.result == Stored ==>
                  && e.queue.items == q.items + [QueuedFile(path, size, now)]
                  && e.queue.bytes == q.bytes + size && e.queue.known == q.known + {path}
                  && e.queue.deadLetters == q.deadLetters
                  && e.disk == Disk(d.outbox[path := StoredFile(Line(b, true), now)], d.dead))
            && (e.result != Stored ==> e.queue == q)
  {
  }

  /** What else a put can answer, and when. */
  lemma PutRefuses(limits: Limits, q: Queue, d: Disk, b: Batch, io: WriteOutcome, now: nat)
    ensures var e, path := Put(limits, q, d, b, io, now), PathOf(b);
            var mine, room := b.envelope.serverID == limits.serverID && io != Unreadable,
                              |q.items| < limits.maxBatches && q.bytes + |b.text| + 1 <= limits.maxBytes;
            && (e.result == WrongServer <==> b.envelope.serverID != limits.serverID)
            && (e.result == AlreadyStored <==> mine && path in d.outbox && d.outbox[path].data == Line(b, true))
            && (e.result == Conflict <==> mine && path in d.outbox && d.outbox[path].data != Line(b, true))
            && (e.result == Full <==> mine && path !in d.outbox && !room)
            && (e.result != Stored && e.disk != d ==> e.result == Failed && mine && io == Unsynced && path !in d.outbox && room)
            && (e.disk != d ==> e.disk == Disk(d.outbox[path := StoredFile(Line(b, true), now)], d.dead))
  {
  }

  // ----- the uploader -----

  /** The queue without its first item. */
  predicate HeadGone(q: Queue, q': Queue)
    requires q.items != []
  {
    && q'.items == q.items[1..] && q'.known == q.known - {q.items[0].path} && q'.bytes == q.bytes - q.items[0].size
  }

  ghost predicate FileGone(outbox: map<string, StoredFile>, outbox': map<string, StoredFile>, path: string) {
    && path !in outbox' && (forall p :: p in outbox' ==> p in outbox && outbox'[p] == outbox[p])
    && forall p :: p in outbox && p != path ==> p in outbox'
  }

  lemma HeadIndex(q: Queue, d: Disk)
    requires QueueOK(q, d) && q.items != []
    ensures IndexOf(q, q.items[0].path) == 0
    ensures RemoveAt(q, 0).items == q.items[1..]
  {
    assert q.items[0].path in Paths(q.items);
  }

  /**
   With the head of the queue on disk and an answer: success removes it, the four permanent rejections move it to the
   dead letters, both only if the file system works, and any other answer leaves everything for a retry.
   */
  lemma AnswersDecide(q: Queue, d: Disk, status: nat, works: bool, stamp: string)
    requires QueueOK(q, d) && q.items != [] && q.items[0].path != ""
    ensures var path, e := q.items[0].path, Attempt(q, d, Answer(status), works, stamp);
            var name := if path in d.dead then path + "." + stamp else path;
            && path in d.outbox
            && (200 <= status < 300 && works ==>
                  e.ok && HeadGone(q, e.queue) && e.queue.deadLetters == q.deadLetters
                  && FileGone(d.outbox, e.disk.outbox, path) && e.disk.dead == d.dead)
            && (status in {400, 409, 413, 422} && works ==>
                  e.ok && HeadGone(q, e.queue) && e.queue.deadLetters == q.deadLetters + 1
                  && FileGone(d.outbox, e.disk.outbox, path) && e.disk.dead == d.dead[name := d.outbox[path].data])
            && (!works || !(200 <= status < 300 || status in {400, 409, 413, 422}) ==> e == MoveEffect(false, q, d))
  {
    HeadIndex(q, d);
    assert HasFile(q.items[0], d.outbox);
  }

  /** Without an answer, or without a first item that can be read, an attempt does nothing. */
  lemma NoAnswerKeeps(q: Queue, d: Disk, net: Network, works: bool, stamp: string)
    requires net.NoAnswer? || q.items == [] || q.items[0].path == "" || q.items[0].path !in d.outbox
    ensures Attempt(q, d, net, works, stamp) == MoveEffect(false, q, d)
  {
  }

  /** Taking out an item at any place closes the gap and deletes its file, and only those. */
  lemma RemovalTakesItem(q: Queue, d: Disk, k: nat)
    requires QueueOK(q, d) && k < |q.items|
    ensures var path, item := q.items[k].path, q.items[k];
            var e := Remove(q, d, path, true);
            && e.ok && e.queue.items == q.items[..k] + q.items[k + 1..] && e.queue.bytes == q.bytes - item.size
            && e.queue.known == q.known - {path} && e.queue.deadLetters == q.deadLetters
            && FileGone(d.outbox, e.disk.outbox, path) && e.disk.dead == d.dead
  {
    assert q.items[k].path in Paths(q.items);
    IndexFromIs(q.items, q.items[k].path, 0);
  }

  /** A reopened outbox has every file once, oldest first and by path among equally old ones. */
  lemma ReopenedIsOldestFirst(d: Disk, q: Queue)
    requires ScannedFrom(d, q)
    ensures forall i, j :: 0 <= i < j < |q.items| ==>
              || q.items[i].modTime < q.items[j].modTime
              || (q.items[i].modTime == q.items[j].modTime && StringLess(q.items[i].path, q.items[j].path))
    ensures forall i :: 0 <= i < |q.items| ==>
              && q.items[i].path in d.outbox && q.items[i].size == Size(d.outbox[q.items[i].path].data)
              && q.items[i].modTime == d.outbox[q.items[i].path].modTime
    ensures forall path :: path in d.outbox ==> exists i :: 0 <= i < |q.items| && q.items[i].path == path
    ensures q.deadLetters == |d.dead|
  {
    forall item ensures item in q.items <==> item in FilesOn(d) {
      assert item in q.items <==> item in multiset(q.items);
    }
    forall i | 0 <= i < |q.items|
      ensures q.items[i].path in d.outbox && q.items[i] == FileAt(d, q.items[i].path)
    {
      assert q.items[i] in q.items;
    }
    forall path | path in d.outbox ensures exists i :: 0 <= i < |q.items| && q.items[i].path == path {
      assert FileAt(d, path) in q.items;
    }
    forall i, j | 0 <= i < j < |q.items|
      ensures q.items[i].modTime < q.items[j].modTime
              || (q.items[i].modTime == q.items[j].modTime && StringLess(q.items[i].path, q.items[j].path))
    {
      OncePerFile(d, q, i, j);
      assert FileAtMost(q.items[i], q.items[j]);
      StringTrichotomy(q.items[i].path, q.items[j].path);
    }
  }

  function FileAt(d: Disk, path: string): QueuedFile
    requires path in d.outbox
  {
    QueuedFile(path, Size(d.outbox[path].data), d.outbox[path].modTime)
  }

  lemma OncePerFile(d: Disk, q: Queue, i: nat, j: nat)
    requires multiset(q.items) == multiset(FilesOn(d)) && i < j < |q.items|
    requires q.items[i].path in d.outbox && q.items[i] == FileAt(d, q.items[i].path)
    requires q.items[j].path in d.outbox && q.items[j] == FileAt(d, q.items[j].path)
    ensures q.items[i].path != q.items[j].path
  {
    if q.items[i].path == q.items[j].path {
      Repeated(q.items, i, j);
      assert false;
    }
  }

  // ----- whole runs -----

  /** This step stored the batch: an admissible upload, or another agent's delivery. */
  ghost predicate Brings(w: World, s: Step, b: Batch) {
    || (s.OtherDelivery? && s.other == b)
    || (&& s.Deliver? && w.upload.Sending? && w.upload.payload.Line? && w.upload.payload.batch == b
        && Admissible(Request(s.authorised, s.boundServer, s.tooLarge, w.upload.payload), s.expectedServer))
  }

  lemma StepBrings(w: World, s: Step, path: string) returns (b: Batch)
    requires Enabled(w, s) && path in Next(w, s).central && path !in w.central
    ensures PathOf(b) == path && Next(w, s).central[path] == Line(b, true) && Brings(w, s, b)
  {
    if s.Deliver? {
      var r := Request(s.authorised, s.boundServer, s.tooLarge, w.upload.payload);
      SuccessMeansStored(w.central, r, s.expectedServer, s.centralIO);
      OnlyAdmissibleIsStored(w.central, r, s.expectedServer, s.centralIO);
      b := r.body.batch;
    } else {
      b := s.other;
    }
  }

  /** Whatever the central store holds was brought by one step of the run, and no upload brought it without admission. */
  lemma {:induction false} StoredWasAdmitted(worlds: seq<World>, steps: seq<Step>, j: nat, path: string)
      returns (k: nat, b: Batch)
    requires IsRun(worlds, steps) && Init(worlds[0]) && j <= |steps| && path in worlds[j].central
    ensures k < j && PathOf(b) == path && worlds[j].central[path] == Line(b, true) && Brings(worlds[k], steps[k], b)
  {
    if path in worlds[j - 1].central {
      k, b := StoredWasAdmitted(worlds, steps, j - 1, path);
      CentralNeverChanges(worlds, steps, j - 1, j);
    } else {
      k := j - 1;
      b := StepBrings(worlds[k], steps[k], path);
    }
  }

  /** The head of the queue, ready to be sent, is this batch. */
  predicate Heads(w: World, b: Batch) {
    && w.queue.items != [] && w.queue.items[0].path in w.disk.outbox
    && w.disk.outbox[w.queue.items[0].path].data == Line(b, true)
  }

  /** The three steps of one upload over a network that loses nothing, to a store and from a disk that work. */
  ghost predicate Uploads(s: seq<Step>, b: Batch) {
    && |s| == 3 && s[0].StartUpload? && s[1].Deliver? && s[2].React?
    && s[1].centralIO == Written && s[2].works
    && Admissible(Request(s[1].authorised, s[1].boundServer, s[1].tooLarge, Line(b, true)), s[1].expectedServer)
  }

  lemma DeliveredHolds(files: map<string, Bytes>, r: Request, expectedServer: string)
    requires Admissible(r, expectedServer)
    requires PathOf(r.body.batch) in files ==> SameText(files[PathOf(r.body.batch)], r.body.batch)
    ensures var a := Handle(files, r, expectedServer, Written); 200 <= a.status < 300 && Holds(a.files, r.body.batch)
  {
    AdmissibleIsAnswered(files, r, expectedServer, Written);
  }

  /**
   One undisturbed upload of an admissible head delivers it: the batch leaves the queue, and is in the central store,
   unless that already held another one under its name.
   */
  lemma HeadGetsThrough(worlds: seq<World>, steps: seq<Step>, b: Batch)
    requires IsRun(worlds, steps) && Inv(worlds[0]) && Uploads(steps, b) && Heads(worlds[0], b)
    requires PathOf(b) in worlds[0].central ==> SameText(worlds[0].central[PathOf(b)], b)
    ensures worlds[3].queue.items == worlds[0].queue.items[1..]
    ensures worlds[3].departed == worlds[0].departed + [worlds[0].queue.items[0]]
    ensures Holds(worlds[3].central, b) && worlds[3].disk.dead == worlds[0].disk.dead
    ensures worlds[0].queue.items[0].path !in worlds[3].disk.outbox
  {
    var w := worlds[1];
    assert worlds[0 + 1] == Next(worlds[0], steps[0]);
    assert worlds[1 + 1] == Next(worlds[1], steps[1]);
    assert worlds[2 + 1] == Next(worlds[2], steps[2]);
    DeliveredHolds(w.central, Request(steps[1].authorised, steps[1].boundServer, steps[1].tooLarge, Line(b, true)),
                   steps[1].expectedServer);
    HeadIndex(w.queue, w.disk);
    assert w.queue.items[..1] == [w.queue.items[0]];
  }
}
