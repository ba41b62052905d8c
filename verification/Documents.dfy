/** How a transaction moves a document row, and what it tells the audit log. */
module Documents {
  import opened Records
  import opened Jobs
  import opened Services
  import opened Transactions
  import opened Ledger

  /** Whether an OCR job belongs to a document. */
  predicate Reports(db: Db, job: Id, document: Id) {
    job in db.jobs && db.jobs[job].kind.Ocr? && db.jobs[job].document == document
  }

  function MarkedBy(db: Db, doc: Document, row: Job, move: Move): Document {
    var moved := Moved(db, row, move);
    Marked(doc, DocumentStatus(moved.state), moved.attempts, ErrorFor(moved, move), OutcomeFor(move), db.now)
  }

  /** The row a transaction leaves of a document it does not remove. */
  function DocLeft(db: Db, txn: Transaction, id: Id): Document
    requires id in db.docs
  {
    var doc := db.docs[id];
    match txn
    case Moves(job, move) =>
      if Reports(db, job, id) && Marks(db, db.jobs[job], move)
      then MarkedBy(db, doc, db.jobs[job], move)
      else doc
    case Edited(document, _, data) =>
      if document == id
      then Saved(doc.(metadata := doc.metadata + data, revision := doc.revision + 1))
      else doc
    case Reopened(document, _) =>
      if document == id
      then Saved(doc.(status := Status.Pending, attempts := 0, errorCode := NoError, revision := doc.revision + 1))
      else doc
    case _ => doc
  }

  lemma DocAfter(db: Db, txn: Transaction, id: Id)
    requires Fits(db, txn)
    ensures var after := Committed(db, txn);
            && (id in db.docs ==>
                  && (id in after.docs <==> !(txn.Removed? && txn.document == id))
                  && (id in after.docs ==> after.docs[id] == DocLeft(db, txn, id)))
            && (id !in db.docs && id in after.docs ==>
                  && txn.Inserted?
                  && txn.document == id
                  && after.docs[id] == NewDocument(txn.request, txn.key))
            && (txn.Inserted? && txn.document == id ==> id in after.docs)
  {}

  /** The event a transaction appends to the audit log, if any. */
  function EventAdded(db: Db, txn: Transaction): Option<Event> {
    match txn
    case Moves(job, move) =>
      if job in db.jobs && Marks(db, db.jobs[job], move) then
        var row := db.jobs[job];
        var moved := Moved(db, row, move);
        var doc := db.docs[row.document];
        Some(Event(row.document, doc.owner, System,
                   StatusChanged(doc.status, DocumentStatus(moved.state), moved.attempts,
                                 ErrorFor(moved, move), job)))
      else None
    case Inserted(document, request, _, _) =>
      Some(Event(document, request.owner, Actor.User(request.owner), Created))
    case Edited(document, caller, data) =>
      if document in db.docs then
        var doc := db.docs[document];
        Some(Event(document, doc.owner, Actor.User(caller),
                   MetadataUpdated(Changed(doc.metadata, data), doc.revision + 1)))
      else None
    case Removed(document, caller) =>
      if document in db.docs
      then Some(Event(document, db.docs[document].owner, Actor.User(caller), Deleted))
      else None
    case Reopened(document, caller) =>
      if document in db.docs
      then Some(Event(document, db.docs[document].owner, Actor.User(caller), ReprocessRequested))
      else None
    case _ => None
  }

  lemma AuditAfter(db: Db, txn: Transaction)
    requires Fits(db, txn)
    ensures Committed(db, txn).audit
            == match EventAdded(db, txn) case None => db.audit case Some(event) => db.audit + [event]
  {}
}
