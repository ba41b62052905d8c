/** The audit log read back: folding a document's events rebuilds its row. */
module Audit {
  import opened Records
  import opened Jobs
  import opened Transactions
  import opened Ledger
  import opened Documents

  /** What the events about one document say of it so far.  `Garbled` is what
      no reader should ever see: an event that contradicts the ones before. */
  datatype Story =
    | Unborn
    | Alive(status: Status, attempts: nat, errorCode: ErrorCode, revision: nat)
    | Gone
    | Garbled

  function Told(story: Story, action: Action): Story {
    match action
    case Created => if story.Unborn? then Alive(Status.Pending, 0, NoError, 1) else Garbled
    case MetadataUpdated(fields, revision) =>
      if story.Alive? && fields != {} && revision == story.revision + 1
      then story.(revision := revision)
      else Garbled
    case ReprocessRequested =>
      if story.Alive? && story.status == Status.Failed
      then Alive(Status.Pending, 0, NoError, story.revision + 1)
      else Garbled
    case Deleted => if story.Alive? then Gone else Garbled
    case StatusChanged(previous, status, attempt, errorCode, _) =>
      if story.Alive? && previous == story.status
      then Alive(status, attempt, errorCode, story.revision)
      else Garbled
  }

  function Fold(audit: seq<Event>, document: Id): Story {
    if audit == [] then Unborn
    else
      var story := Fold(audit[..|audit| - 1], document);
      var event := audit[|audit| - 1];
      if event.document == document then Told(story, event.action) else story
  }

  function StoryOf(doc: Document): Story {
    Alive(doc.status, doc.attempts, doc.errorCode, doc.revision)
  }

  ghost predicate FaithfulTo(db: Db, document: Id) {
    var story := Fold(db.audit, document);
    && (document in db.docs ==> story == StoryOf(db.docs[document]))
    && (document !in db.docs ==> story == Unborn || story == Gone)
    && (document >= db.nextId ==> story == Unborn)
  }

  /** The log tells the true story of every identifier. */
  ghost predicate Faithful(db: Db) {
    forall document: Id :: FaithfulTo(db, document)
  }

  lemma FoldAppends(audit: seq<Event>, event: Event, document: Id)
    ensures Fold(audit + [event], document)
            == if event.document == document then Told(Fold(audit, document), event.action) else Fold(audit, document)
  {
    assert (audit + [event])[..|audit|] == audit;
  }

  /** A transaction's event tells of a living document what the transaction does to it. */
  lemma LivingStory(db: Db, txn: Transaction, document: Id)
    requires Fits(db, txn) && DocsOk(db) && document in db.docs
    ensures var told := EventAdded(db, txn);
            var story := if told.Some? && told.value.document == document
                         then Told(StoryOf(db.docs[document]), told.value.action)
                         else StoryOf(db.docs[document]);
            if txn.Removed? && txn.document == document then story == Gone
            else story == StoryOf(DocLeft(db, txn, document))
  {}

  lemma FreshIsOther(db: Db, txn: Transaction, document: Id)
    requires Fits(db, txn) && RowsOk(db) && DocsOk(db) && document !in db.docs
    requires !(txn.Inserted? && txn.document == document)
    ensures EventAdded(db, txn).Some? ==> EventAdded(db, txn).value.document != document
    ensures db.nextId <= Committed(db, txn).nextId
  {
    RowAfter(db, txn, 0);
  }

  lemma StoryContinues(db: Db, txn: Transaction, document: Id)
    requires Fits(db, txn) && RowsOk(db) && DocsOk(db) && FaithfulTo(db, document)
    requires txn.Inserted? && txn.document == document ==> Fold(db.audit, document) == Unborn
    ensures FaithfulTo(Committed(db, txn), document)
  {
    DocAfter(db, txn, document);
    AuditAfter(db, txn);
    if document in db.docs {
      LivingStory(db, txn, document);
    } else if !(txn.Inserted? && txn.document == document) {
      FreshIsOther(db, txn, document);
    }
    match EventAdded(db, txn)
    case None =>
    case Some(event) => FoldAppends(db.audit, event, document);
  }

  /** How often the log counts a revision of a document. */
  function RevisionCount(audit: seq<Event>, document: Id): nat {
    if audit == [] then 0
    else
      var event := audit[|audit| - 1];
      RevisionCount(audit[..|audit| - 1], document)
      + if event.document == document && (event.action.MetadataUpdated? || event.action.ReprocessRequested?)
        then 1 else 0
  }

  lemma {:induction false} NothingBeforeBirth(audit: seq<Event>, document: Id)
    requires Fold(audit, document) == Unborn
    ensures RevisionCount(audit, document) == 0
    ensures forall i | 0 <= i < |audit| :: audit[i].document != document
    decreases |audit|
  {
    if audit != [] {
      NothingBeforeBirth(audit[..|audit| - 1], document);
    }
  }

  /** A document's revision is one more than the revisions its log counts. */
  lemma {:induction false} RevisionsAreCounted(audit: seq<Event>, document: Id)
    requires Fold(audit, document).Alive?
    ensures Fold(audit, document).revision == 1 + RevisionCount(audit, document)
    decreases |audit|
  {
    var before := audit[..|audit| - 1];
    var event := audit[|audit| - 1];
    if event.document != document || !event.action.Created? {
      RevisionsAreCounted(before, document);
    } else {
      NothingBeforeBirth(before, document);
    }
  }

  predicate IsLastDeletion(audit: seq<Event>, document: Id, last: nat)
    requires last < |audit|
  {
    && audit[last].document == document
    && audit[last].action == Deleted
    && (forall i | last < i < |audit| :: audit[i].document != document)
    && (forall i | 0 <= i < last :: audit[i].document == document ==> audit[i].action != Deleted)
  }

  /** The last event about a document is its deletion, and the only one. */
  predicate EndsInDeletion(audit: seq<Event>, document: Id) {
    exists last | 0 <= last < |audit| :: IsLastDeletion(audit, document, last)
  }

  lemma {:induction false} NoDeletionWhileAlive(audit: seq<Event>, document: Id)
    requires Fold(audit, document).Alive?
    ensures forall i | 0 <= i < |audit| :: audit[i].document == document ==> audit[i].action != Deleted
    decreases |audit|
  {
    var end := |audit| - 1;
    var before := audit[..end];
    if Fold(before, document).Alive? {
      NoDeletionWhileAlive(before, document);
    } else {
      NothingBeforeBirth(before, document);
    }
    forall i | 0 <= i < |audit| && audit[i].document == document ensures audit[i].action != Deleted {
      if i < end {
        assert audit[i] == before[i];
      }
    }
  }

  lemma {:induction false} DeletionIsLast(audit: seq<Event>, document: Id)
    requires Fold(audit, document) == Gone
    ensures EndsInDeletion(audit, document)
    decreases |audit|
  {
    var end := |audit| - 1;
    var before := audit[..end];
    if audit[end].document != document {
      DeletionIsLast(before, document);
      var last :| 0 <= last < end && IsLastDeletion(before, document, last);
      assert forall i | 0 <= i < end :: audit[i] == before[i];
      assert IsLastDeletion(audit, document, last);
    } else {
      NoDeletionWhileAlive(before, document);
      assert forall i | 0 <= i < end :: audit[i] == before[i];
      assert IsLastDeletion(audit, document, end);
    }
  }
}
