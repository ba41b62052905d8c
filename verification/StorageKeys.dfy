/** Who a storage key belongs to: every object, cleanup job and document traces
    back to one upload.  Nothing here needs the upload grace period. */
module StorageKeys {
  import opened Records
  import opened Jobs
  import opened Services
  import opened Protocol
  import opened Transactions
  import opened Ledger
  import opened Documents
  import opened Structure
  import opened Safety

  /** A cleanup job for the object of a document. */
  predicate Cleans(db: Db, job: Id, document: Id) {
    job in db.jobs && db.jobs[job].kind.DeleteObject? && db.jobs[job].document == document
  }

  /** A cleanup job that still answers for its object. */
  predicate Answers(db: Db, job: Id, document: Id) {
    Cleans(db, job, document) && db.jobs[job].state != JobState.Succeeded
  }

  /** Every stored object, cleanup job and document uses its upload's key. */
  ghost predicate Keyed(s: World) {
    && (forall key | key in s.objects :: key.document in s.uploads && s.uploads[key.document].key == key)
    && (forall job, id | Cleans(s.db, job, id) :: id in s.uploads && s.db.jobs[job].kind.key == s.uploads[id].key)
    && (forall id | id in s.db.docs ::
          && id in s.uploads
          && s.db.docs[id].storageKey == s.uploads[id].key
          && s.db.docs[id].size == |s.uploads[id].request.content|
          && s.db.docs[id].sha256 == Sha256(s.uploads[id].request.content))
  }

  /** Before its intent an upload's key is unused; after, only the intent cleans it. */
  ghost predicate Sole(s: World, id: Id)
    requires id in s.uploads
  {
    match s.uploads[id].progress
    case Begun => (forall job :: !Cleans(s.db, job, id)) && s.uploads[id].key !in s.objects
    case Intended(intent, _) => forall job | Cleans(s.db, job, id) :: job == intent
    case Stored(intent, _) => forall job | Cleans(s.db, job, id) :: job == intent
    case _ => true
  }

  ghost predicate Traced(s: World) {
    Keyed(s) && forall id | id in s.uploads :: Sole(s, id)
  }

  /** Only an upload's store writes an object, only a cleanup worker removes one. */
  lemma ObjectsFrom(s: World, step: Step, key: StorageKey)
    ensures var after := Apply(s, step).objects;
            && (key in after && !(key in s.objects && after[key] == s.objects[key]) ==>
                  && step.Store?
                  && At(s, step.upload, false)
                  && key == s.uploads[step.upload].key
                  && after[key] == s.uploads[step.upload].request.content)
            && (key in s.objects && key !in after ==>
                  && step.Erase?
                  && step.worker in s.workers
                  && s.workers[step.worker].phase.Claimed?
                  && s.workers[step.worker].claim.kind == DeleteObject(key))
  {}

  /** Uploads are never forgotten, and keep their request and key. */
  lemma UploadsPersist(s: World, step: Step, id: Id)
    requires Structured(s) && id in s.uploads
    ensures var after := Apply(s, step).uploads;
            && id in after
            && after[id].request == s.uploads[id].request
            && after[id].key == s.uploads[id].key
  {
    if UploadOf(s, step) != Some(id) {
      OtherUploads(s, step, id);
    }
  }

  lemma MoveKeepsKind(db: Db, row: Job, move: Move)
    requires CanMove(db, row, move)
    ensures var moved := Moved(db, row, move);
            && moved.kind == row.kind
            && moved.document == row.document
            && (row.state == JobState.Succeeded ==> moved.state == JobState.Succeeded)
  {}

  lemma OldCleaner(s: World, step: Step, job: Id, id: Id)
    requires Structured(s) && job in s.db.jobs
    ensures Cleans(Apply(s, step).db, job, id) <==> Cleans(s.db, job, id)
    ensures Answers(Apply(s, step).db, job, id) ==> Answers(s.db, job, id)
  {
    RowStep(s, step, job);
    MoveKeepsKind(s.db, s.db.jobs[job], MoveOn(TransactionOf(s, step), job));
  }

  /** A new cleanup is declared for an upload or left by a removed document. */
  ghost predicate NewCleaner(s: World, step: Step, job: Id, id: Id) {
    && job == s.db.nextId
    && job !in s.db.jobs
    && (|| (TransactionOf(s, step).Declared? && TransactionOf(s, step).document == id)
        || (TransactionOf(s, step).Removed? && TransactionOf(s, step).document == id && id in s.db.docs))
  }

  lemma CleansFrom(s: World, step: Step, job: Id, id: Id)
    requires Structured(s) && Cleans(Apply(s, step).db, job, id)
    ensures Cleans(s.db, job, id) || NewCleaner(s, step, job, id)
  {
    if job in s.db.jobs {
      OldCleaner(s, step, job, id);
    } else {
      StepCommits(s, step);
      RowAfter(s.db, TransactionOf(s, step), job);
    }
  }

  lemma InsertedIsUploaded(s: World, step: Step)
    ensures var txn := TransactionOf(s, step);
            txn.Inserted? ==>
              && step.CommitUpload?
              && step.upload == txn.document
              && At(s, txn.document, true)
              && txn.key == s.uploads[txn.document].key
              && txn.request == s.uploads[txn.document].request
              && txn.intent == s.uploads[txn.document].progress.intent
  {}

  lemma DeclaredIsUploaded(s: World, step: Step)
    ensures var txn := TransactionOf(s, step);
            txn.Declared? ==>
              && step.DeclareIntent?
              && step.upload == txn.document
              && txn.document in s.uploads
              && s.uploads[txn.document].progress.Begun?
              && txn.key == s.uploads[txn.document].key
  {}

  /** Where the key of a cleanup job comes from. */
  lemma CleanerAfter(db: Db, txn: Transaction, job: Id, id: Id)
    requires Fits(db, txn) && RowsOk(db) && Cleans(Committed(db, txn), job, id)
    ensures var key := Committed(db, txn).jobs[job].kind.key;
            || (Cleans(db, job, id) && key == db.jobs[job].kind.key)
            || (txn.Declared? && txn.document == id && key == txn.key)
            || (txn.Removed? && txn.document == id && id in db.docs && key == db.docs[id].storageKey)
  {
    RowAfter(db, txn, job);
    if job in db.jobs {
      MoveKeepsKind(db, db.jobs[job], MoveOn(txn, job));
    }
  }

  lemma CleanerKeyed(s: World, step: Step, job: Id, id: Id)
    requires Structured(s) && Keyed(s) && Cleans(Apply(s, step).db, job, id)
    ensures id in s.uploads && Apply(s, step).db.jobs[job].kind.key == s.uploads[id].key
  {
    StepCommits(s, step);
    CleanerAfter(s.db, TransactionOf(s, step), job, id);
    DeclaredIsUploaded(s, step);
  }

  /** A document keeps its file's columns, from the request that made it. */
  lemma FileColumnsAfter(db: Db, txn: Transaction, id: Id)
    requires Fits(db, txn) && id in Committed(db, txn).docs
    ensures var doc := Committed(db, txn).docs[id];
            if id in db.docs then
              && doc.storageKey == db.docs[id].storageKey
              && doc.size == db.docs[id].size
              && doc.sha256 == db.docs[id].sha256
            else
              && txn.Inserted?
              && txn.document == id
              && doc.storageKey == txn.key
              && doc.size == |txn.request.content|
              && doc.sha256 == Sha256(txn.request.content)
  {
    DocAfter(db, txn, id);
  }

  lemma DocumentKeyed(s: World, step: Step, id: Id)
    requires Structured(s) && Keyed(s) && id in Apply(s, step).db.docs
    ensures id in s.uploads
    ensures Apply(s, step).db.docs[id].storageKey == s.uploads[id].key
    ensures Apply(s, step).db.docs[id].size == |s.uploads[id].request.content|
    ensures Apply(s, step).db.docs[id].sha256 == Sha256(s.uploads[id].request.content)
  {
    StepCommits(s, step);
    FileColumnsAfter(s.db, TransactionOf(s, step), id);
    InsertedIsUploaded(s, step);
  }

  lemma KeyedKept(s: World, step: Step)
    requires Structured(s) && Keyed(s)
    ensures Keyed(Apply(s, step))
  {
    var after := Apply(s, step);
    forall key | key in after.objects ensures key.document in after.uploads && after.uploads[key.document].key == key {
      ObjectsFrom(s, step, key);
      UploadsPersist(s, step, key.document);
    }
    forall job, id | Cleans(after.db, job, id)
      ensures id in after.uploads && after.db.jobs[job].kind.key == after.uploads[id].key
    {
      CleanerKeyed(s, step, job, id);
      UploadsPersist(s, step, id);
    }
    forall id | id in after.db.docs
      ensures id in after.uploads && after.db.docs[id].storageKey == after.uploads[id].key
      ensures after.db.docs[id].size == |after.uploads[id].request.content|
      ensures after.db.docs[id].sha256 == Sha256(after.uploads[id].request.content)
    {
      DocumentKeyed(s, step, id);
      UploadsPersist(s, step, id);
    }
  }

  lemma CleanersStay(s: World, step: Step, id: Id, job: Id)
    requires Structured(s) && Keyed(s) && id in s.uploads && UploadOf(s, step) != Some(id)
    requires Open(s.uploads[id].progress)
    requires Cleans(Apply(s, step).db, job, id)
    ensures Cleans(s.db, job, id)
  {
    CleansFrom(s, step, job, id);
    DeclaredIsUploaded(s, step);
  }

  lemma OthersStaySole(s: World, step: Step, id: Id)
    requires Structured(s) && Traced(s) && id in s.uploads && UploadOf(s, step) != Some(id)
    ensures id in Apply(s, step).uploads && Sole(Apply(s, step), id)
  {
    OtherUploads(s, step, id);
    assert Sole(s, id);
    if Open(s.uploads[id].progress) {
      forall job | Cleans(Apply(s, step).db, job, id) ensures Cleans(s.db, job, id) {
        CleanersStay(s, step, id, job);
      }
      ObjectsFrom(s, step, s.uploads[id].key);
    }
  }

  lemma BegunIsSole(s: World, request: Request)
    requires Structured(s) && Keyed(s) && s.db.nextId in AfterBegin(s, request).uploads
    ensures Sole(AfterBegin(s, request), s.db.nextId)
  {}

  lemma OwnStaysSole(s: World, step: Step)
    requires Structured(s) && Traced(s) && UploadOf(s, step).Some? && !step.Begin?
    requires UploadOf(s, step).value in Apply(s, step).uploads
    ensures Sole(Apply(s, step), UploadOf(s, step).value)
  {
    var id := UploadOf(s, step).value;
    assert id in s.uploads && Sole(s, id);
    forall job | Cleans(Apply(s, step).db, job, id) ensures Cleans(s.db, job, id) || NewCleaner(s, step, job, id) {
      CleansFrom(s, step, job, id);
    }
  }

  /** Every step keeps the keys traced. */
  lemma TracedKept(s: World, step: Step)
    requires Structured(s) && Traced(s)
    ensures Traced(Apply(s, step))
  {
    KeyedKept(s, step);
    forall id | id in Apply(s, step).uploads ensures Sole(Apply(s, step), id) {
      if UploadOf(s, step) != Some(id) {
        OtherUploads(s, step, id);
        OthersStaySole(s, step, id);
      } else if step.Begin? {
        BegunIsSole(s, step.request);
      } else {
        OwnStaysSole(s, step);
      }
    }
  }

  /** Every state of every run has its keys traced, within the grace or not. */
  lemma {:induction false} RunIsTraced(s: World, steps: seq<Step>)
    requires Structured(s) && Traced(s)
    ensures Traced(Exec(s, steps))
    decreases |steps|
  {
    if steps != [] {
      StructureKept(s, steps[0]);
      TracedKept(s, steps[0]);
      RunIsTraced(Apply(s, steps[0]), steps[1..]);
    }
  }
}
