/** The structural invariant of the whole system, kept by every step. */
module Structure {
  import opened Records
  import opened Services
  import opened Protocol
  import opened Transactions
  import opened Ledger

  /** A worker's claim names a row of its kind that has been claimed. */
  ghost predicate WorkerOk(db: Db, token: Id, worker: Worker) {
    && token < db.nextId
    && worker.claim.runToken == Some(token)
    && worker.claim.leaseUntil.Some?
    && worker.job in db.jobs
    && db.jobs[worker.job].kind == worker.claim.kind
    && db.jobs[worker.job].document == worker.claim.document
    && db.jobs[worker.job].runToken.Some?
  }

  ghost predicate WorkersOk(s: World) {
    forall token | token in s.workers :: WorkerOk(s.db, token, s.workers[token])
  }

  ghost predicate Structured(s: World) {
    RowsOk(s.db) && DocsOk(s.db) && UploadsFit(s) && WorkersOk(s)
  }

  lemma WorkerStays(db: Db, txn: Transaction, token: Id, worker: Worker)
    requires Fits(db, txn) && RowsOk(db) && WorkerOk(db, token, worker)
    ensures WorkerOk(Committed(db, txn), token, worker)
  {
    RowAfter(db, txn, worker.job);
  }

  lemma BornStays(db: Db, txn: Transaction, id: Id)
    requires Fits(db, txn) && Born(db.audit, id)
    ensures Born(Committed(db, txn).audit, id)
  {
    var i :| 0 <= i < |db.audit| && db.audit[i].document == id && db.audit[i].action == Created;
    assert |db.audit| <= |Committed(db, txn).audit| && Committed(db, txn).audit[i] == db.audit[i];
  }

  lemma UploadStays(db: Db, txn: Transaction, id: Id, upload: Upload)
    requires Fits(db, txn) && RowsOk(db) && UploadFits(db, id, upload)
    requires !(txn.Inserted? && txn.document == id)
    ensures UploadFits(Committed(db, txn), id, upload)
  {
    if !upload.progress.Begun? && !upload.progress.Closed? {
      RowAfter(db, txn, upload.progress.intent);
      if Born(db.audit, id) {
        BornStays(db, txn, id);
      }
    }
  }

  /** The upload a step works on. */
  ghost function UploadOf(s: World, step: Step): Option<Id> {
    match step
    case Begin(_) => Some(s.db.nextId)
    case DeclareIntent(upload) => Some(upload)
    case Store(upload, _, _) => Some(upload)
    case CommitUpload(upload, _) => Some(upload)
    case Abort(upload) => Some(upload)
    case ExpediteIntent(upload) => Some(upload)
    case _ => None
  }

  /** Uploads other than the step's own keep their progress. */
  lemma OtherUploads(s: World, step: Step, id: Id)
    requires UploadOf(s, step) != Some(id)
    ensures id in Apply(s, step).uploads <==> id in s.uploads
    ensures id in s.uploads ==> Apply(s, step).uploads[id] == s.uploads[id]
  {}

  ghost predicate OwnFits(s: World, step: Step) {
    UploadOf(s, step).Some? && UploadOf(s, step).value in Apply(s, step).uploads ==>
      UploadFits(Apply(s, step).db, UploadOf(s, step).value, Apply(s, step).uploads[UploadOf(s, step).value])
  }

  lemma BeginFits(s: World, request: Request)
    requires Structured(s)
    ensures OwnFits(s, Begin(request))
  {}

  lemma DeclareFits(s: World, upload: Id)
    requires Structured(s)
    ensures OwnFits(s, DeclareIntent(upload))
  {}

  lemma StoreFits(s: World, upload: Id, effective: bool, confirmed: bool)
    requires Structured(s)
    ensures OwnFits(s, Store(upload, effective, confirmed))
  {}

  /** A commit makes the document whose intent it withdraws. */
  lemma WinningCommitFits(s: World, upload: Id, acknowledged: bool)
    requires Structured(s) && At(s, upload, true) && ReplayOf(s.db, s.uploads[upload].request).Unused?
    ensures OwnFits(s, CommitUpload(upload, acknowledged))
  {
    var audit := Apply(s, CommitUpload(upload, acknowledged)).db.audit;
    assert audit[|audit| - 1].document == upload && audit[|audit| - 1].action == Created;
  }

  lemma LosingCommitFits(s: World, upload: Id, acknowledged: bool)
    requires Structured(s)
    requires At(s, upload, true) ==> !ReplayOf(s.db, s.uploads[upload].request).Unused?
    ensures OwnFits(s, CommitUpload(upload, acknowledged))
  {}

  lemma CommitFits(s: World, upload: Id, acknowledged: bool)
    requires Structured(s)
    ensures OwnFits(s, CommitUpload(upload, acknowledged))
  {
    if At(s, upload, true) && ReplayOf(s.db, s.uploads[upload].request).Unused? {
      WinningCommitFits(s, upload, acknowledged);
    } else {
      LosingCommitFits(s, upload, acknowledged);
    }
  }

  lemma AbortFits(s: World, upload: Id)
    requires Structured(s)
    ensures OwnFits(s, Abort(upload))
  {}

  lemma ExpediteFits(s: World, upload: Id)
    requires Structured(s)
    ensures OwnFits(s, ExpediteIntent(upload))
  {}

  lemma OwnUpload(s: World, step: Step)
    requires Structured(s)
    ensures OwnFits(s, step)
  {
    match step
    case Begin(request) => BeginFits(s, request);
    case DeclareIntent(upload) => DeclareFits(s, upload);
    case Store(upload, effective, confirmed) => StoreFits(s, upload, effective, confirmed);
    case CommitUpload(upload, acknowledged) => CommitFits(s, upload, acknowledged);
    case Abort(upload) => AbortFits(s, upload);
    case ExpediteIntent(upload) => ExpediteFits(s, upload);
    case _ =>
  }

  /** Whether a step is a delivery that wins a claim. */
  ghost predicate Wins(s: World, step: Step) {
    step.Deliver? && TransactionOf(s, step) == Moves(step.job, Take)
  }

  /** Workers keep their claims; a winning delivery starts one, under its token. */
  lemma WorkersFrom(s: World, step: Step, token: Id)
    requires UploadsFit(s)
    ensures var after := Apply(s, step);
            && (token in s.workers && !(Wins(s, step) && token == s.db.nextId) ==>
                  && token in after.workers
                  && after.workers[token].job == s.workers[token].job
                  && after.workers[token].claim == s.workers[token].claim)
            && (token !in s.workers && token in after.workers ==> Wins(s, step) && token == s.db.nextId)
            && (Wins(s, step) ==>
                  && s.db.nextId in after.workers
                  && after.workers[s.db.nextId]
                     == Worker(step.job, Moved(s.db, s.db.jobs[step.job], Take), Claimed, false))
  {
    StepCommits(s, step);
  }

  lemma WorkerKept(s: World, step: Step, token: Id)
    requires Structured(s) && token in Apply(s, step).workers
    ensures WorkerOk(Apply(s, step).db, token, Apply(s, step).workers[token])
  {
    StepCommits(s, step);
    WorkersFrom(s, step, token);
    if Wins(s, step) && token == s.db.nextId {
      RowAfter(s.db, Moves(step.job, Take), step.job);
    } else {
      WorkerStays(s.db, TransactionOf(s, step), token, s.workers[token]);
    }
  }

  lemma InsertedIsOwn(s: World, step: Step)
    ensures TransactionOf(s, step).Inserted? ==> UploadOf(s, step) == Some(TransactionOf(s, step).document)
  {}

  lemma OtherUploadKept(s: World, step: Step, id: Id)
    requires Structured(s) && id in s.uploads && UploadOf(s, step) != Some(id)
    ensures UploadFits(Apply(s, step).db, id, s.uploads[id])
  {
    StepCommits(s, step);
    InsertedIsOwn(s, step);
    UploadStays(s.db, TransactionOf(s, step), id, s.uploads[id]);
  }

  lemma UploadKept(s: World, step: Step, id: Id)
    requires Structured(s) && id in Apply(s, step).uploads
    ensures UploadFits(Apply(s, step).db, id, Apply(s, step).uploads[id])
  {
    if UploadOf(s, step) == Some(id) {
      OwnUpload(s, step);
    } else {
      OtherUploads(s, step, id);
      OtherUploadKept(s, step, id);
    }
  }

  /** Every step keeps the structure. */
  lemma StructureKept(s: World, step: Step)
    requires Structured(s)
    ensures Structured(Apply(s, step))
  {
    var after := Apply(s, step);
    StepCommits(s, step);
    RowsKept(s.db, TransactionOf(s, step));
    DocsKept(s.db, TransactionOf(s, step));
    forall token | token in after.workers ensures WorkerOk(after.db, token, after.workers[token]) {
      WorkerKept(s, step, token);
    }
    forall id | id in after.uploads ensures UploadFits(after.db, id, after.uploads[id]) {
      UploadKept(s, step, id);
    }
  }

  /** A step moves every row by its transaction's move. */
  lemma RowStep(s: World, step: Step, id: Id)
    requires Structured(s) && id in s.db.jobs
    ensures var move := MoveOn(TransactionOf(s, step), id);
            && id in Apply(s, step).db.jobs
            && CanMove(s.db, s.db.jobs[id], move)
            && Apply(s, step).db.jobs[id] == Moved(s.db, s.db.jobs[id], move)
            && s.db.now <= Apply(s, step).db.now
  {
    StepCommits(s, step);
    RowAfter(s.db, TransactionOf(s, step), id);
  }
}
