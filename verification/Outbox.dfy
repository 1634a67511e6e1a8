/** The agent's outbox and its uploader as objects over a file system. */
module Agent {
  import opened Delivery
  import opened Sorting

  /** The files that outlive the agent process. */
  class FileSystem {
    var outbox: map<string, StoredFile>
    var dead: map<string, Bytes>

    constructor (outbox: map<string, StoredFile>, dead: map<string, Bytes>)
      ensures Files() == Disk(outbox, dead)
    {
      this.outbox, this.dead := outbox, dead;
    }

    function Files(): Disk
      reads this
    {
      Disk(outbox, dead)
    }
  }

  class Outbox {
    const fs: FileSystem
    const limits: Limits
    var items: seq<QueuedFile>
    var known: set<string>
    var bytes: int
    var deadLetters: int
    var wake: bool

    function State(): Queue
      reads this
    {
      Queue(items, known, bytes, deadLetters)
    }

    /** Scans the directory; the order of the walk is immaterial because the files are sorted afterwards. */
    constructor Open(fs: FileSystem, limits: Limits)
      ensures this.fs == fs && this.limits == limits && !wake
      ensures ScannedFrom(fs.Files(), State())
    {
      this.fs, this.limits := fs, limits;
      items, known, bytes, deadLetters, wake := [], {}, 0, |fs.dead|, false;
      new;
      Scan();
    }

    method Scan()
      requires items == [] && known == {} && bytes == 0 && deadLetters == |fs.dead|
      modifies this`items, this`known, this`bytes
      ensures ScannedFrom(fs.Files(), State())
    {
      var sorted := SortedFiles(fs);
      items, known, bytes := LoadFiles(sorted);
    }

    method Put(batch: Batch, io: WriteOutcome, now: nat) returns (r: PutResult)
      modifies this, fs
      ensures var e := Delivery.Put(limits, old(State()), old(fs.Files()), batch, io, now);
              r == e.result && State() == e.queue && fs.Files() == e.disk
      ensures wake == (old(wake) || r == Stored)
    {
      if batch.envelope.serverID != limits.serverID {
        return WrongServer;
      }
      var data := Line(batch, true);
      var path := PathOf(batch);
      if io == Unreadable {
        return Failed;
      }
      if path in fs.outbox {
        if fs.outbox[path].data == data {
          return AlreadyStored;
        }
        return Conflict;
      }
      if |items| >= limits.maxBatches || bytes + Size(data) > limits.maxBytes {
        return Full;
      }
      if io == Unwritten {
        return Failed;
      }
      fs.outbox := fs.outbox[path := StoredFile(data, now)];
      if io == Unsynced {
        return Failed;
      }
      var item := QueuedFile(path, Size(data), now);
      items := items + [item];
      known := known + {path};
      bytes := bytes + item.size;
      wake := true;
      return Stored;
    }

    method Peek() returns (found: bool, path: string)
      ensures found <==> items != []
      ensures found ==> path == items[0].path
    {
      if |items| == 0 {
        return false, "";
      }
      return true, items[0].path;
    }

    method Read(path: string) returns (ok: bool, data: Bytes)
      ensures ok <==> path != "" && path in fs.outbox
      ensures ok ==> data == fs.outbox[path].data
    {
      if path == "" || path !in fs.outbox {
        return false, Junk("");
      }
      return true, fs.outbox[path].data;
    }

    method FindIndex(path: string) returns (index: int)
      ensures index == IndexOf(State(), path)
    {
      if path !in known {
        return -1;
      }
      for i := 0 to |items|
        invariant IndexFrom(items, path, i) == IndexFrom(items, path, 0)
      {
        if items[i].path == path {
          return i;
        }
      }
      return -1;
    }

    method RemoveItem(index: nat)
      requires index < |items|
      modifies this`items, this`known, this`bytes
      ensures State() == RemoveAt(old(State()), index)
    {
      var item := items[index];
      bytes := bytes - item.size;
      known := known - {item.path};
      items := items[..index] + items[index + 1..];
    }

    method Remove(path: string, works: bool) returns (ok: bool)
      modifies this, fs
      ensures var e := Delivery.Remove(old(State()), old(fs.Files()), path, works);
              ok == e.ok && State() == e.queue && fs.Files() == e.disk
    {
      IndexFromIs(items, path, 0);
      var index := FindIndex(path);
      if index < 0 {
        return true;
      }
      if !works {
        return false;
      }
      fs.outbox := map p | p in fs.outbox && p != path :: fs.outbox[p];
      RemoveItem(index);
      return true;
    }

    method DeadLetter(path: string, stamp: string, works: bool) returns (ok: bool)
      modifies this, fs
      ensures var e := Delivery.DeadLetter(old(State()), old(fs.Files()), path, stamp, works);
              ok == e.ok && State() == e.queue && fs.Files() == e.disk
    {
      IndexFromIs(items, path, 0);
      var index := FindIndex(path);
      if index < 0 {
        return true;
      }
      var destination := path;
      if destination in fs.dead {
        destination := destination + "." + stamp;
      }
      if !works || path !in fs.outbox {
        return false;
      }
      fs.dead := fs.dead[destination := fs.outbox[path].data];
      fs.outbox := map p | p in fs.outbox && p != path :: fs.outbox[p];
      RemoveItem(index);
      deadLetters := deadLetters + 1;
      return true;
    }

    /** Full means that no further file fits, however small, and that every new batch will be refused. */
    method AtCapacity() returns (full: bool)
      ensures full <==> forall size: nat :: size > 0 ==> !Fits(limits, State(), size)
      ensures full ==> RefusesNew(limits, State(), fs.Files())
    {
      full := |items| >= limits.maxBatches || bytes >= limits.maxBytes;
      assert !full ==> Fits(limits, State(), 1);
    }
  }

  lemma PathsPush(items: seq<QueuedFile>, item: QueuedFile)
    ensures Paths(items + [item]) == Paths(items) + {item.path}
  {
    forall p ensures p in Paths(items + [item]) <==> p in Paths(items) + {item.path} {
      if p in Paths(items) {
        var i :| 0 <= i < |items| && items[i].path == p;
        assert (items + [item])[i].path == p;
      }
      if p == item.path {
        assert (items + [item])[|items|].path == p;
      }
    }
  }

  lemma FileOrder()
    ensures TotalOrder(FileAtMost)
  {
    forall a, b ensures FileAtMost(a, b) || FileAtMost(b, a) {
      StringTrichotomy(a.path, b.path);
    }
    forall a, b, c | FileAtMost(a, b) && FileAtMost(b, c) ensures FileAtMost(a, c) {
      if a.modTime == b.modTime == c.modTime {
        StringTransitive(a.path, b.path, c.path);
      }
    }
  }

  method LoadFiles(files: seq<QueuedFile>) returns (items: seq<QueuedFile>, known: set<string>, bytes: int)
    ensures items == files && known == Paths(files) && bytes == Total(files, |files|)
  {
    items, known, bytes := [], {}, 0;
    for i := 0 to |files|
      invariant items == files[..i] && known == Paths(items) && bytes == Total(files, i)
    {
      PathsPush(items, files[i]);
      items := items + [files[i]];
      known := known + {files[i].path};
      bytes := bytes + files[i].size;
    }
  }

  method SortedFiles(fs: FileSystem) returns (sorted: seq<QueuedFile>)
    ensures multiset(sorted) == multiset(FilesOn(fs.Files())) && Sorted(sorted, FileAtMost)
  {
    var files := ListFiles(fs);
    SortPermutes(files, FileAtMost);
    FileOrder();
    SortSorts(files, FileAtMost);
    sorted := SortBy(files, FileAtMost);
  }

  method ListFiles(fs: FileSystem) returns (files: seq<QueuedFile>)
    ensures multiset(files) == multiset(FilesOn(fs.Files()))
  {
    files := [];
    var rest := fs.outbox.Keys;
    ghost var done: set<string> := {};
    while rest != {}
      invariant rest <= fs.outbox.Keys && done == fs.outbox.Keys - rest
      invariant multiset(files) == multiset(Listed(fs.outbox, done))
      decreases rest
    {
      var path :| path in rest;
      var f := fs.outbox[path];
      ListedGrows(fs.outbox, done, path);
      files := files + [QueuedFile(path, Size(f.data), f.modTime)];
      rest, done := rest - {path}, done + {path};
    }
    assert done == fs.outbox.Keys;
    assert Listed(fs.outbox, done) == FilesOn(fs.Files());
  }

  ghost function Listed(outbox: map<string, StoredFile>, done: set<string>): set<QueuedFile>
    requires done <= outbox.Keys
  {
    set p | p in done :: QueuedFile(p, Size(outbox[p].data), outbox[p].modTime)
  }

  lemma ListedGrows(outbox: map<string, StoredFile>, done: set<string>, path: string)
    requires done <= outbox.Keys && path in outbox && path !in done
    ensures var f := QueuedFile(path, Size(outbox[path].data), outbox[path].modTime);
            f !in Listed(outbox, done) && Listed(outbox, done + {path}) == Listed(outbox, done) + {f}
  {
  }

  /** How the file system treats opening: both directories can be made, and the walk over them succeeds. */
  datatype OpenOutcome = Opens(makesDirectories: bool, scans: bool)

  /** Opens the outbox, refusing missing names, limits that are not positive, and directories it cannot make or read. */
  method OpenOutbox(fs: FileSystem, dataDir: string, serverID: string, maxBytes: int, maxBatches: int, io: OpenOutcome)
      returns (outbox: Outbox?)
    ensures outbox == null <==>
              dataDir == "" || serverID == "" || maxBytes <= 0 || maxBatches <= 0 || !io.makesDirectories || !io.scans
    ensures outbox != null ==> fresh(outbox) && outbox.fs == fs && outbox.limits == Limits(serverID, maxBytes, maxBatches)
                               && ScannedFrom(fs.Files(), outbox.State())
  {
    if dataDir == "" || serverID == "" {
      return null;
    }
    if maxBytes <= 0 || maxBatches <= 0 {
      return null;
    }
    if !io.makesDirectories || !io.scans {
      return null;
    }
    outbox := new Outbox.Open(fs, Limits(serverID, maxBytes, maxBatches));
  }

  // ----- the uploader -----

  /** What the network makes of one request: nothing comes back, or the answer of the central handler. */
  datatype Network = NoAnswer | Answer(status: nat)

  class Uploader {
    const outbox: Outbox
    var uploadedBatches: nat
    var uploadFailures: nat

    constructor (outbox: Outbox)
      ensures this.outbox == outbox && uploadedBatches == 0 && uploadFailures == 0
    {
      this.outbox := outbox;
      uploadedBatches, uploadFailures := 0, 0;
    }

    /**
     One attempt at the head of the queue. The queue and the files change only after an answer:
     a success removes the item, a permanent rejection moves it to the dead letters, and anything
     else leaves everything for a retry.
     */
    method UploadNext(net: Network, works: bool, stamp: string) returns (processed: bool, failed: bool)
      modifies this, outbox, outbox.fs
      ensures var q, d := old(outbox.State()), old(outbox.fs.Files());
              var e := Attempt(q, d, net, works, stamp);
              && outbox.State() == e.queue && outbox.fs.Files() == e.disk
              && processed == (q.items != [] && Answers(q, d, net) && e.ok)
              && failed == (q.items != [] && !processed)
      ensures uploadedBatches == old(uploadedBatches) + if processed && Success(net.status) then 1 else 0
      ensures uploadFailures == old(uploadFailures) + if failed || (processed && !Success(net.status)) then 1 else 0
    {
      processed, failed := Try(net, works, stamp);
      if failed {
        uploadFailures := uploadFailures + 1;
      }
    }

    method Try(net: Network, works: bool, stamp: string) returns (processed: bool, failed: bool)
      modifies this, outbox, outbox.fs
      ensures var q, d := old(outbox.State()), old(outbox.fs.Files());
              var e := Attempt(q, d, net, works, stamp);
              && outbox.State() == e.queue && outbox.fs.Files() == e.disk
              && processed == (q.items != [] && Answers(q, d, net) && e.ok)
              && failed == (q.items != [] && !processed)
      ensures uploadedBatches == old(uploadedBatches) + if processed && Success(net.status) then 1 else 0
      ensures uploadFailures == old(uploadFailures) + if processed && !Success(net.status) then 1 else 0
    {
      var found, path := outbox.Peek();
      if !found {
        return false, false;
      }
      var readable, payload := outbox.Read(path);
      if !readable {
        return false, true;
      }
      if net.NoAnswer? {
        return false, true;
      }
      if 200 <= net.status < 300 {
        var ok := outbox.Remove(path, works);
        if !ok {
          return false, true;
        }
        uploadedBatches := uploadedBatches + 1;
        return true, false;
      }
      if PermanentRejection(net.status) {
        var ok := outbox.DeadLetter(path, stamp, works);
        if !ok {
          return false, true;
        }
        uploadFailures := uploadFailures + 1;
        return true, false;
      }
      return false, true;
    }
  }

  /** The head of the queue was sent and some answer came back. */
  predicate Answers(q: Queue, d: Disk, net: Network) {
    q.items != [] && q.items[0].path != "" && q.items[0].path in d.outbox && net.Answer?
  }

  function Attempt(q: Queue, d: Disk, net: Network, works: bool, stamp: string): MoveEffect {
    if !Answers(q, d, net) then MoveEffect(false, q, d)
    else if Success(net.status) then Remove(q, d, q.items[0].path, works)
    else if PermanentRejection(net.status) then DeadLetter(q, d, q.items[0].path, stamp, works)
    else MoveEffect(false, q, d)
  }
}
