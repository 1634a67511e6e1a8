/** The central write-once store and the ingest handler in front of it. */
module Ingest {
  import opened Delivery
  import T = Telemetry

  class RawStore {
    var files: map<string, Bytes>

    constructor ()
      ensures files == map[]
    {
      files := map[];
    }

    method Put(batch: Batch, io: WriteOutcome) returns (r: PutResult)
      modifies this
      ensures CentralEffect(r, files) == CentralPut(old(files), batch, io)
    {
      var path := PathOf(batch);
      if path in files {
        if io == Unreadable {
          return Failed;
        }
        if Trimmed(files[path]) == Line(batch, false) {
          return AlreadyStored;
        }
        return Conflict;
      }
      if io == Unreadable || io == Unwritten {
        return Failed;
      }
      files := files[path := Line(batch, true)];
      if io == Unsynced {
        return Failed;
      }
      return Stored;
    }
  }

  class IngestServer {
    const store: RawStore
    const expectedServerID: string
    var requests: nat
    var accepted: nat
    var duplicates: nat
    var rejected: nat
    var storageFailures: nat
    var authFailures: nat
    var decodeFailures: nat
    var validationFailures: nat

    /** Every request so far was counted under exactly one outcome, and every named failure is a rejection. */
    predicate Balanced()
      reads this
    {
      && requests == accepted + duplicates + rejected + storageFailures
      && authFailures + decodeFailures + validationFailures <= rejected
    }

    constructor (store: RawStore, expectedServerID: string)
      ensures this.store == store && this.expectedServerID == expectedServerID && Balanced() && requests == 0
    {
      this.store, this.expectedServerID := store, expectedServerID;
      requests, accepted, duplicates, rejected, storageFailures := 0, 0, 0, 0, 0;
      authFailures, decodeFailures, validationFailures := 0, 0, 0;
    }

    /** Screens the request, calls the store and maps its result to a status. */
    method HandleBatch(r: Request, io: WriteOutcome) returns (status: nat)
      requires Balanced()
      modifies this, store
      ensures Response(status, store.files) == Handle(old(store.files), r, expectedServerID, io)
      ensures 200 <= status < 300 || store.files != old(store.files) ==>
                && r.authorised && !r.tooLarge && r.body.Line? && T.Validate(r.body.batch.envelope) == T.Accepted
                && expectedServerID in {"", r.body.batch.envelope.serverID}
                && r.boundServer in {"", r.body.batch.envelope.serverID}
      ensures status == 401 <==> !r.authorised
      ensures Balanced() && requests == old(requests) + 1
      ensures accepted == old(accepted) + if status == 202 then 1 else 0
      ensures duplicates == old(duplicates) + if status == 200 then 1 else 0
      ensures storageFailures == old(storageFailures) + if status >= 500 then 1 else 0
      ensures rejected == old(rejected) + if 400 <= status < 500 then 1 else 0
      ensures authFailures == old(authFailures) + if status == 401 || ForeignCredential(r, expectedServerID) then 1 else 0
      ensures decodeFailures == old(decodeFailures) + if status == 400 || status == 413 then 1 else 0
      ensures validationFailures == old(validationFailures) + if status == 422 then 1 else 0
    {
      requests := requests + 1;
      status := Screen(r);
      if status == 0 {
        status := StoreBatch(r.body.batch, io);
      }
    }

    /** Credential, size, form, validity and server: the first that fails decides. */
    method Screen(r: Request) returns (status: nat)
      modifies this`rejected, this`authFailures, this`decodeFailures, this`validationFailures
      ensures status == Refusal(r, expectedServerID)
      ensures rejected == old(rejected) + if status != 0 then 1 else 0
      ensures authFailures == old(authFailures) + if status == 401 || ForeignCredential(r, expectedServerID) then 1 else 0
      ensures decodeFailures == old(decodeFailures) + if status == 400 || status == 413 then 1 else 0
      ensures validationFailures == old(validationFailures) + if status == 422 then 1 else 0
    {
      if !r.authorised {
        rejected, authFailures := rejected + 1, authFailures + 1;
        return 401;
      }
      if r.tooLarge {
        rejected, decodeFailures := rejected + 1, decodeFailures + 1;
        return 413;
      }
      if r.body.Junk? {
        rejected, decodeFailures := rejected + 1, decodeFailures + 1;
        return 400;
      }
      var batch := r.body.batch;
      if T.Validate(batch.envelope) != T.Accepted {
        rejected, validationFailures := rejected + 1, validationFailures + 1;
        return 422;
      }
      if expectedServerID != "" && batch.envelope.serverID != expectedServerID {
        rejected := rejected + 1;
        return 403;
      }
      if r.boundServer != "" && batch.envelope.serverID != r.boundServer {
        rejected, authFailures := rejected + 1, authFailures + 1;
        return 403;
      }
      return 0;
    }

    method StoreBatch(batch: Batch, io: WriteOutcome) returns (status: nat)
      modifies this`accepted, this`duplicates, this`rejected, this`storageFailures, store
      ensures var e := CentralPut(old(store.files), batch, io); status == StatusOf(e.result) && store.files == e.files
      ensures accepted == old(accepted) + if status == 202 then 1 else 0
      ensures duplicates == old(duplicates) + if status == 200 then 1 else 0
      ensures rejected == old(rejected) + if status == 409 then 1 else 0
      ensures storageFailures == old(storageFailures) + if status >= 500 then 1 else 0
    {
      var result := store.Put(batch, io);
      match result
      case AlreadyStored =>
        duplicates := duplicates + 1;
        return 200;
      case Conflict =>
        rejected := rejected + 1;
        return 409;
      case Full =>
        storageFailures := storageFailures + 1;
        return 503;
      case Stored =>
        accepted := accepted + 1;
        return 202;
      case WrongServer =>
        storageFailures := storageFailures + 1;
        return 500;
      case Failed =>
        storageFailures := storageFailures + 1;
        return 500;
    }
  }
}
