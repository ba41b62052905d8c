/** What every transaction keeps true of the job rows, and how it moves each. */
module Ledger {
  import opened Records
  import opened Jobs
  import opened Services
  import opened Transactions

  ghost predicate RowOk(row: Job, nextId: Id) {
    && row.attempts <= row.maxAttempts
    && row.maxAttempts == (if row.kind.Ocr? then OCR_ATTEMPTS else CLEANUP_ATTEMPTS)
    && (row.state == JobState.Pending ==> row.attempts < row.maxAttempts)
    && (row.state == JobState.Running ==>
          row.attempts >= 1 && row.leaseUntil.Some? && row.runToken.Some?)
    && (row.runToken.Some? ==> row.runToken.value < nextId)
    && row.document < nextId
    && (row.kind.DeleteObject? ==> row.kind.key.document == row.document)
  }

  /** Rows are well formed and no two of them carry the same token. */
  ghost predicate RowsOk(db: Db) {
    && (forall id | id in db.jobs :: id < db.nextId && RowOk(db.jobs[id], db.nextId))
    && (forall id, other | id in db.jobs && other in db.jobs ::
          db.jobs[id].runToken.Some? && db.jobs[id].runToken == db.jobs[other].runToken ==> id == other)
  }

  /** The move a transaction makes on a row. */
  function MoveOn(txn: Transaction, id: Id): Move {
    match txn
    case Moves(job, move) => if job == id then move else Stay
    case Stamped(ids) => if id in ids then Send else Stay
    case Inserted(_, _, _, intent) => if id == intent then Withdraw else Stay
    case _ => Stay
  }

  /** The job a transaction adds, under the next identifier. */
  function JobAdded(db: Db, txn: Transaction): Option<Job> {
    match txn
    case Declared(document, key) => Some(CleanupJob(document, key, db.now + UPLOAD_GRACE))
    case Inserted(document, _, _, _) => Some(OcrJob(document, db.now))
    case Removed(document, _) =>
      if document in db.docs then Some(CleanupJob(document, db.docs[document].storageKey, db.now)) else None
    case Reopened(document, _) => Some(OcrJob(document, db.now))
    case _ => None
  }

  /** A transaction moves every row by its move and adds at most one. */
  lemma RowAfter(db: Db, txn: Transaction, id: Id)
    requires Fits(db, txn) && db.nextId !in db.jobs
    ensures var after := Committed(db, txn);
            && db.nextId <= after.nextId && db.now <= after.now
            && (id in db.jobs ==>
                  && id in after.jobs
                  && CanMove(db, db.jobs[id], MoveOn(txn, id))
                  && after.jobs[id] == Moved(db, db.jobs[id], MoveOn(txn, id))
                  && (MoveOn(txn, id).Renews() ==> after.nextId == db.nextId + 1))
            && (id !in db.jobs && id in after.jobs ==>
                  && id == db.nextId < after.nextId
                  && JobAdded(db, txn) == Some(after.jobs[id]))
  {}

  lemma MovedRowOk(db: Db, row: Job, move: Move, nextId: Id)
    requires RowOk(row, db.nextId) && CanMove(db, row, move)
    requires db.nextId <= nextId && (move.Renews() ==> db.nextId < nextId)
    ensures RowOk(Moved(db, row, move), nextId)
  {}

  ghost predicate DocsOk(db: Db) {
    forall id | id in db.docs :: id < db.nextId && db.docs[id].storageKey.document == id
  }

  lemma TokensStayUnique(db: Db, txn: Transaction, id: Id, other: Id)
    requires Fits(db, txn) && RowsOk(db)
    requires id in Committed(db, txn).jobs && other in Committed(db, txn).jobs
    requires Committed(db, txn).jobs[id].runToken.Some?
    requires Committed(db, txn).jobs[id].runToken == Committed(db, txn).jobs[other].runToken
    ensures id == other
  {
    RowAfter(db, txn, id);
    RowAfter(db, txn, other);
  }

  lemma RowsKept(db: Db, txn: Transaction)
    requires Fits(db, txn) && RowsOk(db) && DocsOk(db)
    ensures RowsOk(Committed(db, txn))
  {
    var after := Committed(db, txn);
    forall id | id in after.jobs
      ensures id < after.nextId && RowOk(after.jobs[id], after.nextId)
    {
      RowAfter(db, txn, id);
      if id in db.jobs {
        MovedRowOk(db, db.jobs[id], MoveOn(txn, id), after.nextId);
      }
    }
    forall id, other | && id in after.jobs && other in after.jobs
                       && after.jobs[id].runToken.Some? && after.jobs[id].runToken == after.jobs[other].runToken
      ensures id == other
    {
      TokensStayUnique(db, txn, id, other);
    }
  }

  lemma DocsKept(db: Db, txn: Transaction)
    requires Fits(db, txn) && DocsOk(db) && db.nextId !in db.jobs
    ensures DocsOk(Committed(db, txn))
  {}
}
