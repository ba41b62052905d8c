/** A document that is pending or processing has exactly one live OCR job, in
    the same state and at the same attempt; any other document has none. */
module Agreement {
  import opened Records
  import opened Jobs
  import opened Transactions
  import opened Ledger
  import opened Documents

  /** A live OCR job of a document. */
  predicate WorksOn(db: Db, job: Id, document: Id) {
    Reports(db, job, document) && db.jobs[job].Live()
  }

  predicate Active(status: Status) {
    status == Status.Pending || status == Status.Processing
  }

  ghost predicate Matched(db: Db) {
    forall job, document | document in db.docs && WorksOn(db, job, document) ::
      && db.docs[document].status == DocumentStatus(db.jobs[job].state)
      && db.docs[document].attempts == db.jobs[job].attempts
  }

  ghost predicate Single(db: Db) {
    forall job, other, document | document in db.docs && WorksOn(db, job, document) && WorksOn(db, other, document) ::
      job == other
  }

  ghost predicate Served(db: Db) {
    forall document | document in db.docs && Active(db.docs[document].status) ::
      exists job :: WorksOn(db, job, document)
  }

  ghost predicate Agree(db: Db) {
    Matched(db) && Single(db) && Served(db)
  }

  /** An insertion must bring a document no OCR job belongs to. */
  ghost predicate Brings(db: Db, txn: Transaction) {
    txn.Inserted? ==> forall job :: !Reports(db, job, txn.document)
  }

  /** A row and a document that were there before still match. */
  lemma StillMatched(db: Db, txn: Transaction, job: Id, document: Id)
    requires Fits(db, txn) && Agree(db)
    requires document in db.docs && Reports(db, job, document)
    requires Moved(db, db.jobs[job], MoveOn(txn, job)).Live()
    requires CanMove(db, db.jobs[job], MoveOn(txn, job))
    ensures var row := Moved(db, db.jobs[job], MoveOn(txn, job));
            var doc := DocLeft(db, txn, document);
            && doc.status == DocumentStatus(row.state)
            && doc.attempts == row.attempts
  {
    if txn.Moves? && txn.job != job && Reports(db, txn.job, document) && Marks(db, db.jobs[txn.job], txn.move) {
      assert WorksOn(db, txn.job, document) && WorksOn(db, job, document);
    }
  }

  /** Neither a new row's document nor a new document has a live job already. */
  lemma NewlyMatched(db: Db, txn: Transaction, job: Id, document: Id)
    requires Fits(db, txn) && RowsOk(db) && Agree(db) && Brings(db, txn)
    requires document in Committed(db, txn).docs && WorksOn(Committed(db, txn), job, document)
    requires job !in db.jobs || document !in db.docs
    ensures var after := Committed(db, txn);
            && job == db.nextId
            && after.docs[document].status == Status.Pending
            && after.docs[document].attempts == 0
            && after.jobs[job].state == JobState.Pending
            && after.jobs[job].attempts == 0
            && (forall other :: document in db.docs ==> !WorksOn(db, other, document))
  {
    RowAfter(db, txn, job);
    DocAfter(db, txn, document);
    if document !in db.docs {
      assert !Reports(db, job, document);
    }
  }

  lemma MatchedAfter(db: Db, txn: Transaction, job: Id, document: Id)
    requires Fits(db, txn) && RowsOk(db) && Agree(db) && Brings(db, txn)
    requires document in Committed(db, txn).docs && WorksOn(Committed(db, txn), job, document)
    ensures var after := Committed(db, txn);
            && after.docs[document].status == DocumentStatus(after.jobs[job].state)
            && after.docs[document].attempts == after.jobs[job].attempts
  {
    if job in db.jobs && document in db.docs {
      RowAfter(db, txn, job);
      DocAfter(db, txn, document);
      StillMatched(db, txn, job, document);
    } else {
      NewlyMatched(db, txn, job, document);
    }
  }

  /** A row and a document that were there before are still its only worker. */
  lemma StillAtWork(db: Db, txn: Transaction, job: Id, document: Id)
    requires Fits(db, txn) && RowsOk(db) && Agree(db)
    requires document in db.docs && document in Committed(db, txn).docs
    requires job in db.jobs && WorksOn(Committed(db, txn), job, document)
    ensures WorksOn(db, job, document)
  {
    RowAfter(db, txn, job);
  }

  /** A live job of a document is its new one, or its old one. */
  lemma Placed(db: Db, txn: Transaction, job: Id, document: Id)
    requires Fits(db, txn) && RowsOk(db) && Agree(db) && Brings(db, txn)
    requires document in Committed(db, txn).docs && WorksOn(Committed(db, txn), job, document)
    ensures || (document in db.docs && WorksOn(db, job, document))
            || (job == db.nextId && (document in db.docs ==> forall other :: !WorksOn(db, other, document)))
  {
    if job in db.jobs && document in db.docs {
      StillAtWork(db, txn, job, document);
    } else {
      NewlyMatched(db, txn, job, document);
    }
  }

  lemma SingleAfter(db: Db, txn: Transaction, job: Id, other: Id, document: Id)
    requires Fits(db, txn) && RowsOk(db) && Agree(db) && Brings(db, txn)
    requires document in Committed(db, txn).docs
    requires WorksOn(Committed(db, txn), job, document) && WorksOn(Committed(db, txn), other, document)
    ensures job == other
  {
    Placed(db, txn, job, document);
    Placed(db, txn, other, document);
  }

  /** A job that is not moved out of its live states still serves its document. */
  lemma StillServed(db: Db, txn: Transaction, job: Id, document: Id)
    requires Fits(db, txn) && RowsOk(db) && Agree(db)
    requires document in db.docs && WorksOn(db, job, document)
    requires txn.Moves? && txn.job == job && Marks(db, db.jobs[job], txn.move) ==>
               Active(DocLeft(db, txn, document).status)
    ensures WorksOn(Committed(db, txn), job, document)
  {
    RowAfter(db, txn, job);
  }

  lemma ServedAfter(db: Db, txn: Transaction, document: Id)
    requires Fits(db, txn) && RowsOk(db) && Agree(db) && Brings(db, txn)
    requires document in Committed(db, txn).docs && Active(Committed(db, txn).docs[document].status)
    ensures exists job :: WorksOn(Committed(db, txn), job, document)
  {
    DocAfter(db, txn, document);
    if (txn.Inserted? || txn.Reopened?) && txn.document == document {
      assert WorksOn(Committed(db, txn), db.nextId, document);
    } else if txn.Moves? && Reports(db, txn.job, document) && Marks(db, db.jobs[txn.job], txn.move) {
      StillServed(db, txn, txn.job, document);
    } else {
      var job :| WorksOn(db, job, document);
      StillServed(db, txn, job, document);
    }
  }

  /** Every transaction keeps documents and OCR jobs in agreement. */
  lemma AgreementKept(db: Db, txn: Transaction)
    requires Fits(db, txn) && RowsOk(db) && Agree(db) && Brings(db, txn)
    ensures Agree(Committed(db, txn))
  {
    var after := Committed(db, txn);
    forall job, document | document in after.docs && WorksOn(after, job, document)
      ensures after.docs[document].status == DocumentStatus(after.jobs[job].state)
      ensures after.docs[document].attempts == after.jobs[job].attempts
    {
      MatchedAfter(db, txn, job, document);
    }
    forall job, other, document |
      document in after.docs && WorksOn(after, job, document) && WorksOn(after, other, document)
      ensures job == other
    {
      SingleAfter(db, txn, job, other, document);
    }
    forall document | document in after.docs && Active(after.docs[document].status)
      ensures exists job :: WorksOn(after, job, document)
    {
      ServedAfter(db, txn, document);
    }
  }
}
