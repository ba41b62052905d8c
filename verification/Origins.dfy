/** What a document keeps of the upload that made it, and what that tells apart. */
module Origins {
  import opened Records
  import opened Services
  import opened Protocol
  import opened Transactions
  import opened Ledger
  import opened Documents
  import opened Structure
  import opened Safety
  import opened StorageKeys

  /** A fingerprint tells requests apart by exactly metadata, content and filename. */
  lemma FingerprintTellsApart(request: Request, other: Request)
    ensures FingerprintOf(request) == FingerprintOf(other)
            <==> && request.metadata == other.metadata
                 && request.content == other.content
                 && request.filename == other.filename
  {}

  /** The columns of a document that its upload's request decides. */
  predicate FromRequest(doc: Document, request: Request) {
    && doc.owner == request.owner
    && doc.filename == request.filename
    && doc.mime == request.mime
    && doc.size == |request.content|
    && doc.sha256 == Sha256(request.content)
    && doc.idempotencyKey == request.idempotencyKey
    && doc.fingerprint == FingerprintOf(request)
    && doc.revision >= 1
    && (doc.revision == 1 ==> doc.metadata == request.metadata)
  }

  /** Every document shows the request of the upload it is named after. */
  ghost predicate Sourced(s: World) {
    forall id | id in s.db.docs :: id in s.uploads && FromRequest(s.db.docs[id], s.uploads[id].request)
  }

  lemma OriginLasts(db: Db, txn: Transaction, id: Id, request: Request)
    requires Fits(db, txn) && id in db.docs && FromRequest(db.docs[id], request)
    ensures FromRequest(DocLeft(db, txn, id), request)
  {}

  lemma SourceKept(s: World, step: Step)
    requires Structured(s) && Sourced(s)
    ensures Sourced(Apply(s, step))
  {
    var after := Apply(s, step);
    StepCommits(s, step);
    InsertedIsUploaded(s, step);
    forall id | id in after.db.docs
      ensures id in after.uploads && FromRequest(after.db.docs[id], after.uploads[id].request)
    {
      DocAfter(s.db, TransactionOf(s, step), id);
      UploadsPersist(s, step, id);
      if id in s.db.docs {
        OriginLasts(s.db, TransactionOf(s, step), id, s.uploads[id].request);
      }
    }
  }

  lemma {:induction false} RunIsSourced(s: World, steps: seq<Step>)
    requires Structured(s) && Sourced(s)
    ensures Sourced(Exec(s, steps))
    decreases |steps|
  {
    if steps != [] {
      SourceKept(s, steps[0]);
      StructureKept(s, steps[0]);
      RunIsSourced(Apply(s, steps[0]), steps[1..]);
    }
  }

  /** A request under a document's owner and key is that document's upload again, or
      in conflict with it, by metadata, content and filename alone. */
  lemma ReplayByRequest(s: World, id: Id, request: Request)
    requires KeysUnique(s.db) && Sourced(s) && id in s.db.docs
    requires var made := s.uploads[id].request;
             && request.owner == made.owner
             && request.idempotencyKey == made.idempotencyKey
             && request.idempotencyKey.Some?
    ensures var made := s.uploads[id].request;
            var same := request.metadata == made.metadata && request.content == made.content
                        && request.filename == made.filename;
            ReplayOf(s.db, request) == if same then Existing(id) else Conflicting
  {
    ReplayIsFound(s.db, request, id);
    FingerprintTellsApart(request, s.uploads[id].request);
  }

  /** A key that no living document's upload used is unused. */
  lemma UnusedByRequest(s: World, request: Request)
    requires Sourced(s)
    ensures ReplayOf(s.db, request).Unused? <==>
              forall id | id in s.db.docs ::
                id in s.uploads && !(&& request.idempotencyKey.Some?
                                     && s.uploads[id].request.owner == request.owner
                                     && s.uploads[id].request.idempotencyKey == request.idempotencyKey)
  {
    if ReplayOf(s.db, request).Unused? {
      forall id | id in s.db.docs
        ensures !(&& request.idempotencyKey.Some?
                  && s.uploads[id].request.owner == request.owner
                  && s.uploads[id].request.idempotencyKey == request.idempotencyKey)
      {
        UnusedKeyIsFree(s.db, request, id);
      }
    }
  }
}
