/** What a document keeps from one state of a run to any later one. */
module Histories {
  import opened Records
  import opened Revisions
  import opened Jobs
  import opened Services
  import opened Protocol
  import opened Transactions
  import opened Ledger
  import opened Documents
  import opened Structure
  import opened Agreement
  import opened Safety

  /** The columns no transaction ever writes again. */
  predicate SameFile(doc: Document, later: Document) {
    && later.owner == doc.owner
    && later.storageKey == doc.storageKey
    && later.filename == doc.filename
    && later.mime == doc.mime
    && later.size == doc.size
    && later.sha256 == doc.sha256
    && later.idempotencyKey == doc.idempotencyKey
    && later.fingerprint == doc.fingerprint
  }

  /** The revision counts the edits, and a result once committed stays. */
  predicate Evolves(doc: Document, later: Document) {
    && SameFile(doc, later)
    && doc.revision <= later.revision
    && (later.revision == doc.revision ==> later.metadata == doc.metadata)
    && (doc.status == Status.Succeeded ==>
          && later.status == Status.Succeeded
          && later.text == doc.text
          && later.processedAt == doc.processedAt
          && later.attempts == doc.attempts
          && later.errorCode == doc.errorCode)
  }

  lemma TransactionEvolves(db: Db, txn: Transaction, id: Id)
    requires Fits(db, txn) && Agree(db) && id in db.docs
    ensures Evolves(db.docs[id], DocLeft(db, txn, id))
  {
    if txn.Moves? && Reports(db, txn.job, id) && Marks(db, db.jobs[txn.job], txn.move) {
      assert WorksOn(db, txn.job, id);
    }
  }

  lemma StepEvolves(s: World, step: Step, id: Id)
    requires Structured(s) && Agree(s.db) && id in s.db.docs && id in Apply(s, step).db.docs
    ensures Evolves(s.db.docs[id], Apply(s, step).db.docs[id])
  {
    StepCommits(s, step);
    DocAfter(s.db, TransactionOf(s, step), id);
    TransactionEvolves(s.db, TransactionOf(s, step), id);
  }

  /** An identifier whose document is gone, or was never committed. */
  ghost predicate Retired(s: World, id: Id) {
    && id < s.db.nextId
    && id !in s.db.docs
    && (id in s.uploads ==> !Open(s.uploads[id].progress))
  }

  lemma ClosedStays(s: World, step: Step, id: Id)
    requires Structured(s) && id < s.db.nextId && (id in s.uploads ==> !Open(s.uploads[id].progress))
    ensures id in Apply(s, step).uploads ==> !Open(Apply(s, step).uploads[id].progress)
  {
    if id in Apply(s, step).uploads && Open(Apply(s, step).uploads[id].progress) {
      OnlyBeginOpens(s, step, id);
    }
  }

  lemma GoneStays(db: Db, txn: Transaction, id: Id)
    requires Fits(db, txn) && RowsOk(db) && id < db.nextId && id !in db.docs
    requires !(txn.Inserted? && txn.document == id)
    ensures id < Committed(db, txn).nextId && id !in Committed(db, txn).docs
  {
    DocAfter(db, txn, id);
    RowAfter(db, txn, 0);
  }

  lemma InsertedWasOpen(s: World, step: Step)
    ensures var txn := TransactionOf(s, step);
            txn.Inserted? ==> txn.document in s.uploads && Open(s.uploads[txn.document].progress)
  {}

  lemma RetiredStays(s: World, step: Step, id: Id)
    requires Structured(s) && Retired(s, id)
    ensures Retired(Apply(s, step), id)
  {
    StepCommits(s, step);
    ClosedStays(s, step, id);
    InsertedWasOpen(s, step);
    GoneStays(s.db, TransactionOf(s, step), id);
  }

  lemma RemovalRetires(s: World, step: Step, id: Id)
    requires Structured(s) && id in s.db.docs && id !in Apply(s, step).db.docs
    ensures Retired(Apply(s, step), id)
  {
    StepCommits(s, step);
    RowAfter(s.db, TransactionOf(s, step), 0);
    if id in Apply(s, step).uploads && Open(Apply(s, step).uploads[id].progress) {
      OnlyBeginOpens(s, step, id);
    }
  }

  /** A removed document never comes back. */
  lemma {:induction false} RetiredForever(s: World, steps: seq<Step>, id: Id)
    requires Safe(s) && Retired(s, id)
    ensures Retired(Exec(s, steps), id)
    decreases |steps|
  {
    if steps != [] {
      RetiredStays(s, steps[0], id);
      SafetyKept(s, steps[0]);
      RetiredForever(Apply(s, steps[0]), steps[1..], id);
    }
  }

  /** Between any two states of a run that both have a document, it evolves. */
  lemma {:induction false} RunEvolves(s: World, steps: seq<Step>, id: Id)
    requires Safe(s) && id in s.db.docs && id in Exec(s, steps).db.docs
    ensures Evolves(s.db.docs[id], Exec(s, steps).db.docs[id])
    decreases |steps|
  {
    if steps != [] {
      var after := Apply(s, steps[0]);
      SafetyKept(s, steps[0]);
      if id in after.db.docs {
        StepEvolves(s, steps[0], id);
        RunEvolves(after, steps[1..], id);
      } else {
        RemovalRetires(s, steps[0], id);
        RetiredForever(after, steps[1..], id);
      }
    }
  }

  lemma OnlyEditsChangeMetadata(db: Db, txn: Transaction, id: Id)
    requires id in db.docs && DocLeft(db, txn, id).metadata != db.docs[id].metadata
    ensures txn.Edited? && txn.document == id
  {}

  lemma EditedByPatch(s: World, step: Step)
    requires TransactionOf(s, step).Edited?
    ensures step.PatchDocument? && step.document == TransactionOf(s, step).document
    ensures step.data == TransactionOf(s, step).data
    ensures Gate(s.db, step.document, step.caller, step.header) == Success
  {}

  /** A patch whose caller may see the document and names its current revision. */
  predicate Replaces(doc: Document, after: Document, db: Db, step: Step, id: Id) {
    && step.PatchDocument?
    && step.document == id
    && Visible(db, id, step.caller)
    && step.header == Some(Tag(doc.revision))
    && after.revision == doc.revision + 1
    && after.metadata == doc.metadata + step.data
  }

  /** Metadata changes only by a patch that the caller may make and that names
      the revision it replaces. */
  lemma OnlyNamedRevisionsAreReplaced(s: World, step: Step, id: Id)
    requires Structured(s) && id in s.db.docs && id in Apply(s, step).db.docs
    ensures Apply(s, step).db.docs[id].metadata != s.db.docs[id].metadata ==>
              Replaces(s.db.docs[id], Apply(s, step).db.docs[id], s.db, step, id)
  {
    StepCommits(s, step);
    DocAfter(s.db, TransactionOf(s, step), id);
    if Apply(s, step).db.docs[id].metadata != s.db.docs[id].metadata {
      OnlyEditsChangeMetadata(s.db, TransactionOf(s, step), id);
      EditedByPatch(s, step);
    }
  }

  /** The status automaton; `manual` marks the one edge only a reprocess takes. */
  predicate Edge(from: Status, to: Status, manual: bool) {
    || to == from
    || (from == Status.Pending && to == Status.Processing)
    || (from == Status.Processing && (to == Status.Pending || to == Status.Succeeded || to == Status.Failed))
    || (manual && from == Status.Failed && to == Status.Pending)
  }

  lemma TransactionFollowsAutomaton(db: Db, txn: Transaction, id: Id)
    requires Fits(db, txn) && Agree(db) && id in db.docs
    ensures Edge(db.docs[id].status, DocLeft(db, txn, id).status, txn.Reopened? && txn.document == id)
  {
    if txn.Moves? && Reports(db, txn.job, id) && Marks(db, db.jobs[txn.job], txn.move) {
      assert WorksOn(db, txn.job, id);
    }
  }

  lemma OnlyReprocessReopens(s: World, step: Step, id: Id)
    requires TransactionOf(s, step).Reopened? && TransactionOf(s, step).document == id
    ensures step.ReprocessDocument? && step.document == id
  {}

  /** Every step moves every document along the automaton, or not at all. */
  lemma StepFollowsAutomaton(s: World, step: Step, id: Id)
    requires Structured(s) && Agree(s.db) && id in s.db.docs && id in Apply(s, step).db.docs
    ensures Edge(s.db.docs[id].status, Apply(s, step).db.docs[id].status,
                 step.ReprocessDocument? && step.document == id)
  {
    StepCommits(s, step);
    var txn := TransactionOf(s, step);
    DocAfter(s.db, txn, id);
    TransactionFollowsAutomaton(s.db, txn, id);
    if txn.Reopened? && txn.document == id {
      OnlyReprocessReopens(s, step, id);
    }
  }

  /** A delivery that wins no claim shows nowhere: no document, event, object,
      worker or upload changes. */
  lemma LosingDeliveryIsStutter(s: World, job: Id)
    requires !Wins(s, Deliver(job))
    ensures var after := Apply(s, Deliver(job));
            && after.db.docs == s.db.docs
            && after.db.audit == s.db.audit
            && after.objects == s.objects
            && after.workers == s.workers
            && after.uploads == s.uploads
  {}
}
