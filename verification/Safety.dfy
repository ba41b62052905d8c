/** Every reachable state, under any interleaving, is safe.  Nothing here needs
    the upload grace period. */
module Safety {
  import opened Records
  import opened Jobs
  import opened Services
  import opened Protocol
  import opened Transactions
  import opened Ledger
  import opened Documents
  import opened Structure
  import opened Audit
  import opened Agreement
  import opened Results

  predicate SameKey(doc: Document, other: Document) {
    doc.owner == other.owner && doc.idempotencyKey.Some? && doc.idempotencyKey == other.idempotencyKey
  }

  /** No two documents answer to one owner's idempotency key. */
  ghost predicate KeysUnique(db: Db) {
    forall id, other | id in db.docs && other in db.docs ::
      SameKey(db.docs[id], db.docs[other]) ==> id == other
  }

  lemma UnusedKeyIsFree(db: Db, request: Request, id: Id)
    requires ReplayOf(db, request).Unused?
    ensures !Names(db, request, id)
  {}

  lemma KeysKept(db: Db, txn: Transaction)
    requires Fits(db, txn) && KeysUnique(db)
    ensures KeysUnique(Committed(db, txn))
  {
    var after := Committed(db, txn);
    forall id, other | id in after.docs && other in after.docs && SameKey(after.docs[id], after.docs[other])
      ensures id == other
    {
      DocAfter(db, txn, id);
      DocAfter(db, txn, other);
      if txn.Inserted? {
        UnusedKeyIsFree(db, txn.request, other);
        UnusedKeyIsFree(db, txn.request, id);
      }
    }
  }

  /** The replay check finds the one document under a request's key. */
  lemma ReplayIsFound(db: Db, request: Request, id: Id)
    requires KeysUnique(db) && Names(db, request, id)
    ensures forall other | Names(db, request, other) :: other == id
    ensures ReplayOf(db, request)
            == if db.docs[id].fingerprint == FingerprintOf(request) then Existing(id) else Conflicting
  {
    forall other | Names(db, request, other) ensures other == id {
      assert SameKey(db.docs[other], db.docs[id]);
    }
  }

  /** Still before its commit. */
  predicate Open(progress: Progress) {
    progress.Begun? || progress.Intended? || progress.Stored?
  }

  /** The document of an open upload has no history and no OCR job. */
  ghost predicate Unheard(db: Db, id: Id) {
    Fold(db.audit, id) == Unborn && forall job :: !Reports(db, job, id)
  }

  ghost predicate OpenUnheard(s: World) {
    forall id | id in s.uploads && Open(s.uploads[id].progress) :: Unheard(s.db, id)
  }

  lemma UnreportedStays(db: Db, txn: Transaction, id: Id, job: Id)
    requires Fits(db, txn) && RowsOk(db) && id !in db.docs && !Reports(db, job, id)
    requires !(txn.Inserted? && txn.document == id)
    ensures !Reports(Committed(db, txn), job, id)
  {
    RowAfter(db, txn, job);
  }

  lemma UntoldStays(db: Db, txn: Transaction, id: Id)
    requires Fits(db, txn) && id !in db.docs && Fold(db.audit, id) == Unborn
    requires !(txn.Inserted? && txn.document == id)
    ensures Fold(Committed(db, txn).audit, id) == Unborn
  {
    AuditAfter(db, txn);
    if EventAdded(db, txn).Some? {
      FoldAppends(db.audit, EventAdded(db, txn).value, id);
    }
  }

  lemma UnheardStays(db: Db, txn: Transaction, id: Id)
    requires Fits(db, txn) && RowsOk(db) && Unheard(db, id) && id !in db.docs
    requires !(txn.Inserted? && txn.document == id)
    ensures Unheard(Committed(db, txn), id)
  {
    UntoldStays(db, txn, id);
    forall job ensures !Reports(Committed(db, txn), job, id) {
      UnreportedStays(db, txn, id, job);
    }
  }

  lemma FreshUnheard(db: Db, id: Id)
    requires RowsOk(db) && Faithful(db) && id >= db.nextId
    ensures Unheard(db, id)
  {
    assert FaithfulTo(db, id);
  }

  /** The commit that inserts a document closes its upload. */
  lemma OpenNotInserted(s: World, step: Step, id: Id)
    requires id in Apply(s, step).uploads && Open(Apply(s, step).uploads[id].progress)
    ensures !(TransactionOf(s, step).Inserted? && TransactionOf(s, step).document == id)
  {}

  lemma OnlyBeginOpens(s: World, step: Step, id: Id)
    requires Structured(s)
    requires id in Apply(s, step).uploads && Open(Apply(s, step).uploads[id].progress)
    requires !(id in s.uploads && Open(s.uploads[id].progress))
    ensures id == s.db.nextId && TransactionOf(s, step).Draw?
  {}

  lemma OpenUploadKept(s: World, step: Step, id: Id)
    requires Structured(s) && Faithful(s.db) && OpenUnheard(s)
    requires id in Apply(s, step).uploads && Open(Apply(s, step).uploads[id].progress)
    ensures Unheard(Apply(s, step).db, id)
  {
    StepCommits(s, step);
    if id in s.uploads && Open(s.uploads[id].progress) {
      OpenNotInserted(s, step, id);
      UnheardStays(s.db, TransactionOf(s, step), id);
    } else {
      OnlyBeginOpens(s, step, id);
      FreshUnheard(s.db, id);
      UnheardStays(s.db, TransactionOf(s, step), id);
    }
  }

  /** The safety invariant. */
  ghost predicate Safe(s: World) {
    && Structured(s)
    && Faithful(s.db)
    && Agree(s.db)
    && ResultsOk(s.db)
    && KeysUnique(s.db)
    && OpenUnheard(s)
    && PhasesOk(s)
  }

  lemma StepBrings(s: World, step: Step)
    requires Structured(s) && OpenUnheard(s)
    ensures Brings(s.db, TransactionOf(s, step))
    ensures var txn := TransactionOf(s, step);
            txn.Inserted? ==> Fold(s.db.audit, txn.document) == Unborn
  {
    var txn := TransactionOf(s, step);
    if txn.Inserted? {
      assert Unheard(s.db, txn.document);
    }
  }

  /** Every step keeps the state safe. */
  lemma SafetyKept(s: World, step: Step)
    requires Safe(s)
    ensures Safe(Apply(s, step))
  {
    var txn := TransactionOf(s, step);
    var after := Apply(s, step);
    StepCommits(s, step);
    StepBrings(s, step);
    StepEarns(s, step);
    StructureKept(s, step);
    AgreementKept(s.db, txn);
    KeysKept(s.db, txn);
    forall document: Id ensures FaithfulTo(after.db, document) {
      assert FaithfulTo(s.db, document);
      StoryContinues(s.db, txn, document);
    }
    forall id | id in after.db.docs ensures ResultOk(after.db.docs[id]) && Coherent(after.db.docs[id]) {
      ResultAfter(s.db, txn, id);
    }
    forall id | id in after.uploads && Open(after.uploads[id].progress) ensures Unheard(after.db, id) {
      OpenUploadKept(s, step, id);
    }
    forall token | token in after.workers ensures PhaseOk(after.db, after.workers[token]) {
      PhaseKept(s, step, token);
    }
  }

  /** Every state of every run is safe. */
  lemma {:induction false} RunIsSafe(s: World, steps: seq<Step>)
    requires Safe(s)
    ensures Safe(Exec(s, steps))
    decreases |steps|
  {
    if steps != [] {
      SafetyKept(s, steps[0]);
      RunIsSafe(Apply(s, steps[0]), steps[1..]);
    }
  }

  lemma InitialIsSafe(now: Time)
    ensures Safe(Initial(now))
  {}
}
