/** Where a document's text comes from, and that its search text follows it. */
module Results {
  import opened Records
  import opened Jobs
  import opened Protocol
  import opened Transactions
  import opened Ledger
  import opened Documents
  import opened Structure
  import opened Agreement

  /** The text extracted from bytes of the recorded size, hash and type. */
  predicate Provenance(doc: Document, text: Text) {
    text.TextOf? && |text.content| == doc.size && Sha256(text.content) == doc.sha256 && text.mime == doc.mime
  }

  predicate ResultOk(doc: Document) {
    && (doc.processedAt.Some? <==> doc.status == Status.Succeeded)
    && (doc.status == Status.Succeeded || doc.status == Status.Processing ==> doc.errorCode == NoError)
    && (if doc.status == Status.Succeeded then Provenance(doc, doc.text) else doc.text == NoText)
  }

  predicate Coherent(doc: Document) {
    doc.search == Normalised(doc.metadata, doc.text)
  }

  ghost predicate ResultsOk(db: Db) {
    forall id | id in db.docs :: ResultOk(db.docs[id]) && Coherent(db.docs[id])
  }

  /** A result returned to a living document was extracted from its bytes. */
  ghost predicate Earned(db: Db, txn: Transaction) {
    txn.Moves? && txn.move.Return? && txn.job in db.jobs && db.jobs[txn.job].kind.Ocr?
    && db.jobs[txn.job].document in db.docs ==>
      match txn.move.outcome
      case Done => false
      case Extracted(text) => Provenance(db.docs[db.jobs[txn.job].document], text)
      case Failing(_) => true
  }

  /** A marked document had no result yet, and gets one only from a success. */
  lemma MarkedResult(db: Db, job: Id, move: Move, id: Id)
    requires job in db.jobs && CanMove(db, db.jobs[job], move) && Marks(db, db.jobs[job], move)
    requires id in db.docs && Reports(db, job, id) && ResultOk(db.docs[id]) && db.docs[id].status != Status.Succeeded
    requires Earned(db, Moves(job, move))
    ensures ResultOk(MarkedBy(db, db.docs[id], db.jobs[job], move))
    ensures Coherent(MarkedBy(db, db.docs[id], db.jobs[job], move))
  {}

  /** Other transactions leave a document's result as it was. */
  lemma UnmarkedResult(db: Db, txn: Transaction, id: Id)
    requires Fits(db, txn) && id in db.docs && ResultOk(db.docs[id]) && Coherent(db.docs[id])
    requires txn.Moves? ==> !(Reports(db, txn.job, id) && Marks(db, db.jobs[txn.job], txn.move))
    ensures ResultOk(DocLeft(db, txn, id)) && Coherent(DocLeft(db, txn, id))
  {}

  lemma ResultAfter(db: Db, txn: Transaction, id: Id)
    requires Fits(db, txn) && RowsOk(db) && Agree(db) && ResultsOk(db) && Earned(db, txn)
    requires id in Committed(db, txn).docs
    ensures ResultOk(Committed(db, txn).docs[id]) && Coherent(Committed(db, txn).docs[id])
  {
    DocAfter(db, txn, id);
    if id in db.docs {
      if txn.Moves? && Reports(db, txn.job, id) && Marks(db, db.jobs[txn.job], txn.move) {
        assert WorksOn(db, txn.job, id);
        MarkedResult(db, txn.job, txn.move, id);
      } else {
        UnmarkedResult(db, txn, id);
      }
    }
  }

  /** The phases of a worker, in terms of the document it works for. */
  ghost predicate PhaseOk(db: Db, w: Worker) {
    match w.phase
    case Claimed => true
    case Missing => w.claim.kind.Ocr? && w.claim.document !in db.docs
    case Opened(seen) =>
      w.claim.kind.Ocr? && (w.claim.document in db.docs ==>
        var doc := db.docs[w.claim.document];
        seen.size == doc.size && seen.sha256 == doc.sha256 && seen.mime == doc.mime)
    case Verified(content, mime) =>
      w.claim.kind.Ocr? && (w.claim.document in db.docs ==>
        Provenance(db.docs[w.claim.document], TextOf(content, mime)))
    case Read(text) =>
      w.claim.kind.Ocr? && (w.claim.document in db.docs ==> Provenance(db.docs[w.claim.document], text))
    case Erased => w.claim.kind.DeleteObject?
  }

  ghost predicate PhasesOk(s: World) {
    forall token | token in s.workers :: PhaseOk(s.db, s.workers[token])
  }

  /** A document a worker saw missing never comes back: no insertion brings a
      document that an OCR job belongs to. */
  lemma PhaseStays(db: Db, txn: Transaction, token: Id, w: Worker)
    requires Fits(db, txn) && Brings(db, txn) && WorkerOk(db, token, w) && PhaseOk(db, w)
    ensures PhaseOk(Committed(db, txn), w)
  {
    DocAfter(db, txn, w.claim.document);
    assert w.claim.kind.Ocr? ==> Reports(db, w.job, w.claim.document);
  }

  ghost predicate AdvancesWell(s: World, step: Step, token: Id)
    requires token in s.workers
  {
    token in Apply(s, step).workers ==> PhaseOk(s.db, Apply(s, step).workers[token])
  }

  lemma ReadingAdvances(s: World, step: Step, token: Id)
    requires PhasesOk(s) && token in s.workers && (step.ReadRow? || step.Fetch?)
    ensures AdvancesWell(s, step, token)
  {}

  lemma WorkingAdvances(s: World, step: Step, token: Id)
    requires PhasesOk(s) && token in s.workers && (step.Extract? || step.Erase?)
    ensures AdvancesWell(s, step, token)
  {}

  lemma OthersAdvance(s: World, step: Step, token: Id)
    requires PhasesOk(s) && token in s.workers
    requires !(step.ReadRow? || step.Fetch? || step.Extract? || step.Erase?)
    ensures AdvancesWell(s, step, token)
  {}

  /** The phase a step moves a worker to is right for the rows it read. */
  lemma PhaseAdvances(s: World, step: Step, token: Id)
    requires PhasesOk(s) && token in s.workers
    ensures AdvancesWell(s, step, token)
  {
    if step.ReadRow? || step.Fetch? {
      ReadingAdvances(s, step, token);
    } else if step.Extract? || step.Erase? {
      WorkingAdvances(s, step, token);
    } else {
      OthersAdvance(s, step, token);
    }
  }

  lemma PhaseKept(s: World, step: Step, token: Id)
    requires Structured(s) && PhasesOk(s) && Brings(s.db, TransactionOf(s, step))
    requires token in Apply(s, step).workers
    ensures PhaseOk(Apply(s, step).db, Apply(s, step).workers[token])
  {
    StepCommits(s, step);
    WorkersFrom(s, step, token);
    if token in s.workers {
      PhaseAdvances(s, step, token);
      PhaseStays(s.db, TransactionOf(s, step), token, Apply(s, step).workers[token]);
    }
  }

  lemma EndEarns(s: World, worker: Id, failure: Option<Failure>, jitter: nat)
    requires Structured(s) && PhasesOk(s)
    ensures Earned(s.db, TransactionOf(s, End(worker, failure, jitter)))
  {
    if worker in s.workers {
      assert PhaseOk(s.db, s.workers[worker]) && WorkerOk(s.db, worker, s.workers[worker]);
    }
  }

  lemma OnlyEndsReturn(s: World, step: Step)
    requires !step.End?
    ensures TransactionOf(s, step).Moves? ==> !TransactionOf(s, step).move.Return?
  {}

  lemma StepEarns(s: World, step: Step)
    requires Structured(s) && PhasesOk(s)
    ensures Earned(s.db, TransactionOf(s, step))
  {
    if step.End? {
      EndEarns(s, step.worker, step.failure, step.jitter);
    } else {
      OnlyEndsReturn(s, step);
    }
  }
}
