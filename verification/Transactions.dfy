/** The steps of the system as the few kinds of transaction they commit.  What
    every transaction keeps is proved once per kind, whatever process ran it. */
module Transactions {
  import opened Records
  import opened Jobs
  import opened Services
  import opened Protocol

  /** The moves of one job row. */
  datatype Move =
    | Stay
    | Take                                      // claimed by a worker
    | Miss                                      // claimed, but its document is gone
    | Return(outcome: Outcome, jitter: int)     // finished by the worker that holds it
    | Lose(jitter: int)                         // recovered from an expired lease
    | Send                                      // stamped by the dispatcher
    | Revive                                    // rearmed by the operator
    | Hurry                                     // an intent made due at once
    | Withdraw                                  // an intent cancelled by its upload's commit
  {
    /** The moves that write a new run token. */
    predicate Renews() {
      Take? || Miss? || Lose?
    }
  }

  function Moved(db: Db, row: Job, move: Move): Job {
    match move
    case Stay => row
    case Take => Leased(row, db.now, db.nextId)
    case Miss => Leased(row, db.now, db.nextId).(state := JobState.Succeeded, leaseUntil := None)
    case Return(outcome, jitter) => Ended(row, outcome, db.now, jitter)
    case Lose(jitter) => Ended(row.(runToken := Some(db.nextId)), LOST, db.now, jitter)
    case Send => row.(dispatchedAt := Some(db.now))
    case Revive => row.(state := JobState.Pending, attempts := 0, errorCode := NoError,
                        dispatchedAt := None, availableAt := db.now)
    case Hurry => row.(availableAt := db.now)
    case Withdraw => row.(state := JobState.Succeeded)
  }

  /** When a row can make a move. */
  predicate CanMove(db: Db, row: Job, move: Move) {
    match move
    case Take =>
      && row.state == JobState.Pending
      && row.availableAt <= db.now
      && (row.kind.Ocr? ==> row.document in db.docs)
    case Miss =>
      && row.state == JobState.Pending
      && row.availableAt <= db.now
      && row.kind.Ocr?
      && row.document !in db.docs
    case Return(_, _) => row.state == JobState.Running
    case Lose(_) => row.state == JobState.Running && row.leaseUntil.Some? && row.leaseUntil.value <= db.now
    case Send => row.state == JobState.Pending
    case Revive => row.state == JobState.Failed && row.kind.DeleteObject?
    case Hurry => row.kind.DeleteObject?
    case Withdraw => row.kind.DeleteObject?
    case Stay => true
  }

  datatype Transaction =
    | Nothing
    | Pass(elapsed: nat)
    | Draw                                                    // identifiers for an upload
    | Stamped(ids: set<Id>)
    | Moves(job: Id, move: Move)                              // one row, and its document's status
    | Declared(document: Id, key: StorageKey)                 // a cleanup intent
    | Inserted(document: Id, request: Request, key: StorageKey, intent: Id)
    | Edited(document: Id, caller: Id, data: Metadata)
    | Removed(document: Id, caller: Id)
    | Reopened(document: Id, caller: Id)

  /** Whether a move is reported to the row's document. */
  predicate Marks(db: Db, row: Job, move: Move) {
    row.kind.Ocr? && row.document in db.docs && (move.Take? || move.Return? || move.Lose?)
  }

  function OutcomeFor(move: Move): Outcome {
    if move.Return? then move.outcome else Done
  }

  function ErrorFor(row: Job, move: Move): ErrorCode {
    if move.Take? then NoError else row.errorCode
  }

  function MoveRow(db: Db, id: Id, move: Move): Db
    requires id in db.jobs
  {
    var row := Moved(db, db.jobs[id], move);
    var moved := db.(jobs := db.jobs[id := row], nextId := if move.Renews() then db.nextId + 1 else db.nextId);
    if Marks(db, db.jobs[id], move)
    then Transition(moved, DocumentStatus(row.state), id, row, ErrorFor(row, move), OutcomeFor(move))
    else moved
  }

  function Edit(db: Db, id: Id, caller: Id, data: Metadata): Db
    requires id in db.docs
  {
    var doc := db.docs[id];
    db.(docs := db.docs[id := Saved(doc.(metadata := doc.metadata + data, revision := doc.revision + 1))],
        audit := db.audit + [Event(id, doc.owner, Actor.User(caller),
                                   MetadataUpdated(Changed(doc.metadata, data), doc.revision + 1))])
  }

  function Remove(db: Db, id: Id, caller: Id): Db
    requires id in db.docs
  {
    var doc := db.docs[id];
    Enqueue(db.(docs := db.docs - {id},
                audit := db.audit + [Event(id, doc.owner, Actor.User(caller), Deleted)]),
            CleanupJob(id, doc.storageKey, db.now))
  }

  function Reopen(db: Db, id: Id, caller: Id): Db
    requires id in db.docs
  {
    var doc := db.docs[id];
    Enqueue(db.(docs := db.docs[id := Saved(doc.(status := Status.Pending, attempts := 0, errorCode := NoError,
                                                 revision := doc.revision + 1))],
                audit := db.audit + [Event(id, doc.owner, Actor.User(caller), ReprocessRequested)]),
            OcrJob(id, db.now))
  }

  /** When a transaction can be committed. */
  ghost predicate Fits(db: Db, txn: Transaction) {
    match txn
    case Stamped(ids) => forall id | id in ids :: id in db.jobs && db.jobs[id].state == JobState.Pending
    case Moves(job, move) => job in db.jobs && CanMove(db, db.jobs[job], move) && !move.Withdraw?
    case Declared(document, key) => key.document == document && document < db.nextId
    case Inserted(document, request, key, intent) =>
      && document !in db.docs
      && document < db.nextId
      && key.document == document
      && intent in db.jobs
      && db.jobs[intent].kind.DeleteObject?
      && db.jobs[intent].document == document
      && ReplayOf(db, request).Unused?
    case Edited(document, _, data) =>
      document in db.docs && Changed(db.docs[document].metadata, data) != {}
    case Removed(document, _) => document in db.docs
    case Reopened(document, _) => document in db.docs && db.docs[document].status == Status.Failed
    case _ => true
  }

  ghost function Committed(db: Db, txn: Transaction): Db
    requires Fits(db, txn)
  {
    match txn
    case Nothing => db
    case Pass(elapsed) => db.(now := db.now + elapsed)
    case Draw => db.(nextId := db.nextId + 2)
    case Stamped(ids) => Stamp(db, ids)
    case Moves(job, move) => MoveRow(db, job, move)
    case Declared(document, key) => Intend(db, document, key)
    case Inserted(document, request, key, intent) => Cancel(Insert(db, document, request, key), intent)
    case Edited(document, caller, data) => Edit(db, document, caller, data)
    case Removed(document, caller) => Remove(db, document, caller)
    case Reopened(document, caller) => Reopen(db, document, caller)
  }

  ghost function TransactionOf(s: World, step: Step): Transaction {
    match step
    case Tick(elapsed) => Pass(elapsed)
    case Deliver(job) =>
      if !Claimable(s.db, job) then Nothing
      else if s.db.jobs[job].kind.Ocr? && s.db.jobs[job].document !in s.db.docs then Moves(job, Miss)
      else Moves(job, Take)
    case End(worker, failure, jitter) =>
      if worker !in s.workers then Nothing
      else
        var w := s.workers[worker];
        var outcome := OutcomeOf(w, failure);
        if outcome.Some? && Holds(s.db, w.job, w.claim.runToken)
        then Moves(w.job, Return(outcome.value, jitter))
        else Nothing
    case RecoverLease(job, jitter) => if Expired(s.db, job) then Moves(job, Lose(jitter)) else Nothing
    case Dispatch(jobs) =>
      if forall job | job in jobs :: Dispatchable(s.db, job) then Stamped(jobs) else Nothing
    case RearmCleanup(job) => if Rearmable(s.db, job) then Moves(job, Revive) else Nothing
    case Begin(request) => if ReplayOf(s.db, request).Unused? then Draw else Nothing
    case DeclareIntent(upload) =>
      if upload in s.uploads && s.uploads[upload].progress.Begun?
      then Declared(upload, s.uploads[upload].key)
      else Nothing
    case CommitUpload(upload, _) =>
      if !At(s, upload, true) then Nothing
      else
        var u := s.uploads[upload];
        (match ReplayOf(s.db, u.request)
         case Existing(_) => Moves(u.progress.intent, Hurry)
         case Conflicting => Nothing
         case Unused => Inserted(upload, u.request, u.key, u.progress.intent))
    case ExpediteIntent(upload) =>
      if upload in s.uploads && s.uploads[upload].progress.Abandoned?
      then Moves(s.uploads[upload].progress.intent, Hurry)
      else Nothing
    case PatchDocument(document, caller, header, data) =>
      if && Gate(s.db, document, caller, header) == Success
         && Changed(s.db.docs[document].metadata, data) != {}
      then Edited(document, caller.id, data)
      else Nothing
    case DeleteDocument(document, caller, header) =>
      if Gate(s.db, document, caller, header) == Success then Removed(document, caller.id) else Nothing
    case ReprocessDocument(document, caller, header) =>
      if && Gate(s.db, document, caller, header) == Success
         && s.db.docs[document].status == Status.Failed
      then Reopened(document, caller.id)
      else Nothing
    case _ => Nothing
  }

  /** A document that has been made, living or not. */
  predicate Born(audit: seq<Event>, id: Id) {
    exists i | 0 <= i < |audit| :: audit[i].document == id && audit[i].action == Created
  }

  /** What an upload must look like for its steps to be transactions: its intent is
      there, and pending until it is claimed, or its document was made. */
  ghost predicate UploadFits(db: Db, id: Id, upload: Upload) {
    && id < db.nextId
    && upload.key.document == id
    && (upload.progress.Begun? || upload.progress.Intended? || upload.progress.Stored? ==> id !in db.docs)
    && (upload.progress.Stored? || upload.progress.Intended? || upload.progress.Abandoned? ==>
          && upload.progress.intent in db.jobs
          && db.jobs[upload.progress.intent].kind == DeleteObject(upload.key)
          && db.jobs[upload.progress.intent].document == id
          && (db.jobs[upload.progress.intent].runToken.None? ==>
                db.jobs[upload.progress.intent].state == JobState.Pending || Born(db.audit, id)))
  }

  ghost predicate UploadsFit(s: World) {
    forall id | id in s.uploads :: UploadFits(s.db, id, s.uploads[id])
  }

  lemma ClaimIsMove(db: Db, job: Id)
    requires Claimable(db, job)
    ensures
      var missing := db.jobs[job].kind.Ocr? && db.jobs[job].document !in db.docs;
      Claim(db, job).0 == MoveRow(db, job, if missing then Miss else Take)
  {}

  lemma FinishIsMove(db: Db, job: Id, token: Option<Id>, outcome: Outcome, jitter: int)
    requires Holds(db, job, token)
    ensures Finish(db, job, token, outcome, jitter).0 == MoveRow(db, job, Return(outcome, jitter))
  {}

  lemma RecoverIsMove(db: Db, job: Id, jitter: nat)
    requires Expired(db, job)
    ensures Recover(db, job, jitter) == MoveRow(db, job, Lose(jitter))
  {
    var fenced := Fenced(db, job);
    assert Holds(fenced, job, Some(db.nextId));
    var row := Moved(db, db.jobs[job], Lose(jitter));
    assert fenced.jobs[job := row] == db.jobs[job := row];
  }

  lemma PatchIsEdit(db: Db, id: Id, caller: Caller, header: Option<string>, data: Metadata)
    requires Gate(db, id, caller, header) == Success && Changed(db.docs[id].metadata, data) != {}
    ensures Patch(db, id, caller, header, data).0 == Edit(db, id, caller.id, data)
  {}

  lemma DeleteIsRemove(db: Db, id: Id, caller: Caller, header: Option<string>)
    requires Gate(db, id, caller, header) == Success
    ensures Delete(db, id, caller, header).0 == Remove(db, id, caller.id)
  {}

  lemma ReprocessIsReopen(db: Db, id: Id, caller: Caller, header: Option<string>)
    requires Gate(db, id, caller, header) == Success && db.docs[id].status == Status.Failed
    ensures Reprocess(db, id, caller, header).0 == Reopen(db, id, caller.id)
  {}

  ghost predicate Commits(s: World, step: Step) {
    Fits(s.db, TransactionOf(s, step)) && Apply(s, step).db == Committed(s.db, TransactionOf(s, step))
  }

  lemma WorkerStepCommits(s: World, step: Step)
    requires step.Deliver? || step.End?
    ensures Commits(s, step)
  {
    match step
    case Deliver(job) =>
      if Claimable(s.db, job) {
        ClaimIsMove(s.db, job);
      }
    case End(worker, failure, jitter) =>
      if worker in s.workers && OutcomeOf(s.workers[worker], failure).Some? {
        var w := s.workers[worker];
        if Holds(s.db, w.job, w.claim.runToken) {
          FinishIsMove(s.db, w.job, w.claim.runToken, OutcomeOf(w, failure).value, jitter);
        }
      }
  }

  lemma LedgerStepCommits(s: World, step: Step)
    requires UploadsFit(s)
    requires step.Dispatch? || step.RearmCleanup? || step.ExpediteIntent?
    ensures Commits(s, step)
  {}

  lemma RecoverStepCommits(s: World, job: Id, jitter: nat)
    ensures Commits(s, RecoverLease(job, jitter))
  {
    if Expired(s.db, job) {
      RecoverIsMove(s.db, job, jitter);
    }
  }

  lemma UploadStepCommits(s: World, step: Step)
    requires UploadsFit(s)
    requires step.DeclareIntent? || step.CommitUpload? || step.Begin?
    ensures Commits(s, step)
  {}

  lemma PatchStepCommits(s: World, document: Id, caller: Caller, header: Option<string>, data: Metadata)
    ensures Commits(s, PatchDocument(document, caller, header, data))
  {
    if Gate(s.db, document, caller, header) == Success && Changed(s.db.docs[document].metadata, data) != {} {
      PatchIsEdit(s.db, document, caller, header, data);
    }
  }

  lemma DeleteStepCommits(s: World, document: Id, caller: Caller, header: Option<string>)
    ensures Commits(s, DeleteDocument(document, caller, header))
  {
    if Gate(s.db, document, caller, header) == Success {
      DeleteIsRemove(s.db, document, caller, header);
    }
  }

  lemma ReprocessStepCommits(s: World, document: Id, caller: Caller, header: Option<string>)
    ensures Commits(s, ReprocessDocument(document, caller, header))
  {
    if Gate(s.db, document, caller, header) == Success && s.db.docs[document].status == Status.Failed {
      ReprocessIsReopen(s.db, document, caller, header);
    }
  }

  lemma QuietStepCommits(s: World, step: Step)
    requires step.Tick? || step.ReadRow? || step.Fetch? || step.Extract? || step.Erase? || step.Store? || step.Abort?
    ensures Commits(s, step)
  {}

  /** Every step commits the transaction of its kind, and nothing else. */
  lemma StepCommits(s: World, step: Step)
    requires UploadsFit(s)
    ensures Commits(s, step)
  {
    if step.Deliver? || step.End? {
      WorkerStepCommits(s, step);
    } else if step.RecoverLease? {
      RecoverStepCommits(s, step.job, step.jitter);
    } else if step.Dispatch? || step.RearmCleanup? || step.ExpediteIntent? {
      LedgerStepCommits(s, step);
    } else if step.DeclareIntent? || step.CommitUpload? || step.Begin? {
      UploadStepCommits(s, step);
    } else if step.PatchDocument? {
      PatchStepCommits(s, step.document, step.caller, step.header, step.data);
    } else if step.DeleteDocument? {
      DeleteStepCommits(s, step.document, step.caller, step.header);
    } else if step.ReprocessDocument? {
      ReprocessStepCommits(s, step.document, step.caller, step.header);
    } else {
      QuietStepCommits(s, step);
    }
  }
}
