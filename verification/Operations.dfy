/** What each operation does to the columns of its rows, in any reachable state. */
module Operations {
  import opened Records
  import opened Backoff
  import opened Revisions
  import opened Jobs
  import opened Services
  import opened Protocol
  import opened Transactions
  import opened Ledger
  import opened Documents
  import opened Structure
  import opened Agreement
  import opened Results
  import opened Safety

  /** A delivery starts an attempt exactly if the job is pending and due: a worker
      under a new token, and its document processing.  An OCR job without a document
      ends at once instead. */
  lemma DeliveryClaimsIffDue(s: World, job: Id)
    requires Safe(s)
    ensures var after := Apply(s, Deliver(job));
            var token := s.db.nextId;
            if && job in s.db.jobs
               && s.db.jobs[job].state == JobState.Pending
               && s.db.jobs[job].availableAt <= s.db.now
            then
              && job in after.db.jobs
              && token !in s.workers
              && var row, claimed := s.db.jobs[job], after.db.jobs[job];
                 if row.kind.Ocr? && row.document !in s.db.docs then
                   && claimed == row.(state := JobState.Succeeded, attempts := row.attempts + 1,
                                      runToken := Some(token), leaseUntil := None)
                   && after.workers == s.workers
                   && after.db.docs == s.db.docs
                 else
                   && claimed == row.(state := JobState.Running, attempts := row.attempts + 1,
                                      runToken := Some(token), leaseUntil := Some(s.db.now + 240 * SECOND))
                   && token in after.workers
                   && after.workers[token] == Worker(job, claimed, Claimed, false)
                   && (row.kind.Ocr? ==>
                         && row.document in after.db.docs
                         && after.db.docs[row.document].status == Status.Processing
                         && after.db.docs[row.document].attempts == claimed.attempts)
            else after == s
  {
    assert s.db.nextId in s.workers ==> WorkerOk(s.db, s.db.nextId, s.workers[s.db.nextId]);
  }

  /** How an attempt ends, by what its worker reports: done without a failure;
      with one, tried again exactly if the failure may pass and attempts are left. */
  function EndState(row: Job, failure: Option<Failure>): JobState {
    match failure
    case None => JobState.Succeeded
    case Some(f) =>
      if f.retryable && row.attempts < row.maxAttempts then JobState.Pending else JobState.Failed
  }

  function CodeOf(failure: Option<Failure>): ErrorCode {
    if failure.Some? then failure.value.code else NoError
  }

  /** What a finish leaves in the row: its state, the failure's code, no lease, and
      nothing that would keep a retry from being sent when its delay has passed. */
  predicate RowEnded(row: Job, ended: Job, failure: Option<Failure>, now: Time, jitter: nat) {
    ended == row.(state := EndState(row, failure), errorCode := CodeOf(failure),
                  availableAt := if failure.Some? then now + Delay(row.attempts) + jitter else row.availableAt,
                  leaseUntil := None, dispatchedAt := None)
  }

  /** What it leaves in the document: the state, the code, and the text the worker
      read and the time it came, if it reports none. */
  predicate DocEnded(doc: Document, ended: Document, row: Job, w: Worker, failure: Option<Failure>, now: Time) {
    && ended.status == (match EndState(row, failure)
                        case Succeeded => Status.Succeeded
                        case Failed => Status.Failed
                        case _ => Status.Pending)
    && ended.errorCode == CodeOf(failure)
    && ended.attempts == row.attempts
    && ended == doc.(status := ended.status, attempts := ended.attempts, errorCode := ended.errorCode,
                     text := ended.text, processedAt := ended.processedAt, search := ended.search)
    && if failure.None?
       then w.phase.Read? && ended.text == w.phase.text && ended.processedAt == Some(now)
       else ended.text == doc.text && ended.processedAt == doc.processedAt
  }

  lemma RowFinishes(db: Db, w: Worker, failure: Option<Failure>, jitter: nat)
    requires Holds(db, w.job, w.claim.runToken) && OutcomeOf(w, failure).Some?
    ensures var after := Finish(db, w.job, w.claim.runToken, OutcomeOf(w, failure).value, jitter).0;
            w.job in after.jobs && RowEnded(db.jobs[w.job], after.jobs[w.job], failure, db.now, jitter)
  {}

  lemma DocFinishes(db: Db, w: Worker, failure: Option<Failure>, jitter: nat)
    requires Holds(db, w.job, w.claim.runToken) && OutcomeOf(w, failure).Some?
    requires db.jobs[w.job].kind.Ocr? && db.jobs[w.job].document in db.docs
    requires failure.None? ==> w.phase.Read?
    ensures var row := db.jobs[w.job];
            var after := Finish(db, w.job, w.claim.runToken, OutcomeOf(w, failure).value, jitter).0;
            && row.document in after.docs
            && DocEnded(db.docs[row.document], after.docs[row.document], row, w, failure, db.now)
  {}

  lemma EndFinishes(s: World, worker: Id, failure: Option<Failure>, jitter: nat)
    requires worker in s.workers && OutcomeOf(s.workers[worker], failure).Some?
    ensures var w := s.workers[worker];
            Apply(s, End(worker, failure, jitter)).db
            == Finish(s.db, w.job, w.claim.runToken, OutcomeOf(w, failure).value, jitter).0
  {}

  /** A finish takes effect exactly if the row still runs under the worker's token,
      and then row and document end as the worker reports. */
  lemma FinishIsDecided(s: World, worker: Id, failure: Option<Failure>, jitter: nat)
    requires Safe(s) && worker in s.workers && OutcomeOf(s.workers[worker], failure).Some?
    ensures var w := s.workers[worker];
            var after := Apply(s, End(worker, failure, jitter));
            && w.job in s.db.jobs
            && var row := s.db.jobs[w.job];
               if row.state == JobState.Running && row.runToken == Some(worker) then
                 && w.job in after.db.jobs
                 && RowEnded(row, after.db.jobs[w.job], failure, s.db.now, jitter)
                 && (row.kind.Ocr? && row.document in s.db.docs ==>
                       && row.document in after.db.docs
                       && DocEnded(s.db.docs[row.document], after.db.docs[row.document], row, w, failure, s.db.now))
               else after.db == s.db
  {
    var w := s.workers[worker];
    assert WorkerOk(s.db, worker, w) && PhaseOk(s.db, w);
    EndFinishes(s, worker, failure, jitter);
    if Holds(s.db, w.job, w.claim.runToken) {
      RowFinishes(s.db, w, failure, jitter);
      if s.db.jobs[w.job].kind.Ocr? && s.db.jobs[w.job].document in s.db.docs {
        DocFinishes(s.db, w, failure, jitter);
      }
    }
  }

  lemma RowIsRecovered(db: Db, job: Id, jitter: nat)
    ensures var after := Recover(db, job, jitter);
            if && job in db.jobs
               && db.jobs[job].state == JobState.Running
               && db.jobs[job].leaseUntil.Some?
               && db.jobs[job].leaseUntil.value <= db.now
            then
              && job in after.jobs
              && after.jobs == db.jobs[job := after.jobs[job]]
              && RowEnded(db.jobs[job].(runToken := Some(db.nextId)), after.jobs[job],
                          Some(Failure(WorkerLost, true)), db.now, jitter)
            else after == db
  {}

  lemma DocIsRecovered(db: Db, job: Id, w: Worker, jitter: nat)
    requires Expired(db, job) && db.jobs[job].kind.Ocr? && db.jobs[job].document in db.docs
    ensures var row := db.jobs[job];
            var after := Recover(db, job, jitter);
            && row.document in after.docs
            && DocEnded(db.docs[row.document], after.docs[row.document], row, w,
                        Some(Failure(WorkerLost, true)), db.now)
  {}

  /** A recovery takes effect exactly if the row's lease has run out: row and document
      then end as for a worker that reports, under a new token, that it was lost. */
  lemma RecoveryIsDecided(s: World, job: Id, w: Worker, jitter: nat)
    ensures var after := Apply(s, RecoverLease(job, jitter)).db;
            if && job in s.db.jobs
               && s.db.jobs[job].state == JobState.Running
               && s.db.jobs[job].leaseUntil.Some?
               && s.db.jobs[job].leaseUntil.value <= s.db.now
            then
              && job in after.jobs
              && var row, lost := s.db.jobs[job], Some(Failure(WorkerLost, true));
                 && RowEnded(row.(runToken := Some(s.db.nextId)), after.jobs[job], lost, s.db.now, jitter)
                 && (row.kind.Ocr? && row.document in s.db.docs ==>
                       && row.document in after.docs
                       && DocEnded(s.db.docs[row.document], after.docs[row.document], row, w, lost, s.db.now))
            else after == s.db
  {
    RowIsRecovered(s.db, job, jitter);
    if Expired(s.db, job) && s.db.jobs[job].kind.Ocr? && s.db.jobs[job].document in s.db.docs {
      DocIsRecovered(s.db, job, w, jitter);
    }
  }

  /** A rearm takes exactly a failed cleanup, and leaves it claimable and sendable at
      once, with all its attempts, its token kept. */
  lemma RearmIsDecided(s: World, job: Id)
    requires Safe(s)
    ensures var after := Apply(s, RearmCleanup(job));
            if job in s.db.jobs && s.db.jobs[job].kind.DeleteObject? && s.db.jobs[job].state == JobState.Failed then
              && job in after.db.jobs
              && var row := s.db.jobs[job];
                 row.maxAttempts == 8
                 && after.db.jobs[job]
                    == row.(state := JobState.Pending, availableAt := s.db.now, dispatchedAt := None,
                            attempts := 0, errorCode := NoError)
            else after == s
  {}

  /** The tag of a revision: its decimal digits, without a leading zero, in quotes. */
  lemma {:induction false} DecimalIsDigits(n: nat)
    ensures |Decimal(n)| >= 1
    ensures forall c | c in Decimal(n) :: '0' <= c <= '9'
    ensures n > 0 ==> Decimal(n)[0] != '0'
  {
    if n >= 10 {
      DecimalIsDigits(n / 10);
    }
  }

  lemma TagIsQuotedDecimal(revision: nat)
    ensures var tag := Tag(revision);
            && |tag| >= 3
            && tag[0] == '"' && tag[|tag| - 1] == '"'
            && (forall i | 0 < i < |tag| - 1 :: '0' <= tag[i] <= '9')
            && Parsed(tag[1..|tag| - 1]) == revision
            && (revision > 0 ==> tag[1] != '0')
  {
    DecimalIsDigits(revision);
    DecimalRoundTrip(revision);
    assert Tag(revision)[1..|Tag(revision)| - 1] == Decimal(revision);
    forall i | 0 < i < |Tag(revision)| - 1 ensures '0' <= Tag(revision)[i] <= '9' {
      assert Tag(revision)[i] == Decimal(revision)[i - 1];
      assert Decimal(revision)[i - 1] in Decimal(revision);
    }
  }

  /** How a caller is answered before anything is written: whether there is such a
      document for them is decided first, then the header, then its tag. */
  function Refusal(db: Db, id: Id, caller: Caller, header: Option<string>): Option<Response> {
    if id !in db.docs || (!caller.staff && db.docs[id].owner != caller.id) then Some(NotFound)
    else if header.None? then Some(PreconditionRequired)
    else if header.value != Tag(db.docs[id].revision) then Some(PreconditionFailed)
    else None
  }

  /** A patch not refused merges the fields given, and nothing else; the revision
      rises exactly if a value changed. */
  lemma PatchIsDecided(db: Db, id: Id, caller: Caller, header: Option<string>, data: Metadata)
    ensures var (after, response) := Patch(db, id, caller, header, data);
            var refusal := Refusal(db, id, caller, header);
            if refusal.Some? then response == refusal.value && after == db
            else
              && response == Success
              && id in after.docs
              && var doc, patched := db.docs[id], after.docs[id];
                 && patched.metadata == doc.metadata + data
                 && patched.revision == doc.revision + (if doc.metadata + data == doc.metadata then 0 else 1)
                 && patched
                    == doc.(metadata := patched.metadata, revision := patched.revision, search := patched.search)
                 && after.docs == db.docs[id := patched]
                 && after.jobs == db.jobs
  {
    if Refusal(db, id, caller, header).None? {
      var doc := db.docs[id];
      if Changed(doc.metadata, data) == {} {
        forall field | field in data ensures field in doc.metadata && doc.metadata[field] == data[field] {
          assert field !in Changed(doc.metadata, data);
        }
        assert doc.metadata + data == doc.metadata;
      } else {
        var field :| field in Changed(doc.metadata, data);
        assert field in doc.metadata + data && (doc.metadata + data)[field] == data[field];
      }
    }
  }

  /** A deletion not refused removes the document, and leaves a cleanup of its object,
      of eight attempts, due at once. */
  lemma DeleteIsDecided(db: Db, id: Id, caller: Caller, header: Option<string>)
    requires RowsOk(db)
    ensures var (after, response) := Delete(db, id, caller, header);
            var refusal := Refusal(db, id, caller, header);
            if refusal.Some? then response == refusal.value && after == db
            else
              && response == Success
              && after.docs == db.docs - {id}
              && var job := db.nextId;
                 && job !in db.jobs
                 && job in after.jobs
                 && after.jobs[job]
                    == Job(DeleteObject(db.docs[id].storageKey), id, JobState.Pending, 0, 8, db.now,
                           None, None, None, NoError)
                 && after.jobs - {job} == db.jobs
  {}

  /** A reprocess not refused resets exactly a failed document, and leaves an OCR job
      for it, of three attempts, due at once; any other document is in conflict. */
  lemma ReprocessIsDecided(db: Db, id: Id, caller: Caller, header: Option<string>)
    requires RowsOk(db) && ResultsOk(db)
    ensures var (after, response) := Reprocess(db, id, caller, header);
            var refusal := Refusal(db, id, caller, header);
            if refusal.Some? then response == refusal.value && after == db
            else if db.docs[id].status != Status.Failed then response == Conflict && after == db
            else
              && response == Success
              && var doc, job := db.docs[id], db.nextId;
                 && after.docs == db.docs[id := doc.(status := Status.Pending, attempts := 0, errorCode := NoError,
                                                     revision := doc.revision + 1)]
                 && job !in db.jobs
                 && job in after.jobs
                 && after.jobs[job] == Job(Ocr, id, JobState.Pending, 0, 3, db.now, None, None, None, NoError)
                 && after.jobs - {job} == db.jobs
  {
    if id in db.docs {
      assert Coherent(db.docs[id]);
    }
  }

  /** An intent is a cleanup of the upload's key, of eight attempts, that nothing
      claims or sends for an hour. */
  lemma IntentWaitsAnHour(s: World, upload: Id)
    requires Safe(s) && upload in s.uploads && s.uploads[upload].progress.Begun?
    ensures var after := Apply(s, DeclareIntent(upload));
            var job := s.db.nextId;
            && job !in s.db.jobs
            && job in after.db.jobs
            && after.db.jobs[job]
               == Job(DeleteObject(s.uploads[upload].key), upload, JobState.Pending, 0, 8, s.db.now + 3600 * SECOND,
                      None, None, None, NoError)
            && upload in after.uploads
            && after.uploads[upload].progress == Intended(job, s.db.now + 3600 * SECOND)
  {}

  /** A commit that creates its document shows the request in it, and leaves an OCR
      job for it, of three attempts, due at once. */
  lemma CommitStartsWork(s: World, upload: Id, acknowledged: bool)
    requires Safe(s) && At(s, upload, true) && ReplayOf(s.db, s.uploads[upload].request).Unused?
    ensures var after := Apply(s, CommitUpload(upload, acknowledged));
            var request := s.uploads[upload].request;
            && upload in after.db.docs
            && (var doc := after.db.docs[upload];
                && doc.metadata == request.metadata
                && doc.filename == request.filename
                && doc.mime == request.mime
                && doc.owner == request.owner
                && doc.status == Status.Pending
                && doc.revision == 1
                && doc.storageKey == s.uploads[upload].key)
            && var job := s.db.nextId;
               && job !in s.db.jobs
               && job in after.db.jobs
               && after.db.jobs[job]
                  == Job(Ocr, upload, JobState.Pending, 0, 3, s.db.now, None, None, None, NoError)
  {
    assert UploadFits(s.db, upload, s.uploads[upload]);
  }

  /** What a commit does about the upload's intent: done if the document is made, due
      at once if it was there, and left as it is in a conflict. */
  lemma CommitSettlesIntent(s: World, upload: Id, acknowledged: bool)
    requires Safe(s) && At(s, upload, true)
    ensures var after := Apply(s, CommitUpload(upload, acknowledged));
            var intent := s.uploads[upload].progress.intent;
            && intent in s.db.jobs
            && intent in after.db.jobs
            && after.db.jobs[intent]
               == match ReplayOf(s.db, s.uploads[upload].request)
                  case Unused => s.db.jobs[intent].(state := JobState.Succeeded)
                  case Existing(_) => s.db.jobs[intent].(availableAt := s.db.now)
                  case Conflicting => s.db.jobs[intent]
  {
    assert UploadFits(s.db, upload, s.uploads[upload]);
  }

  /** The last update of an upload that failed makes its intent due, and no more. */
  lemma ExpediteIsDecided(s: World, upload: Id)
    requires Safe(s) && upload in s.uploads && s.uploads[upload].progress.Abandoned?
    ensures var after := Apply(s, ExpediteIntent(upload));
            var intent := s.uploads[upload].progress.intent;
            && intent in s.db.jobs
            && after.db == s.db.(jobs := s.db.jobs[intent := s.db.jobs[intent].(availableAt := s.db.now)])
  {
    assert UploadFits(s.db, upload, s.uploads[upload]);
  }

  /** Who an event must name. */
  ghost function ActorOf(s: World, step: Step): Actor {
    match step
    case PatchDocument(_, caller, _, _) => Actor.User(caller.id)
    case DeleteDocument(_, caller, _) => Actor.User(caller.id)
    case ReprocessDocument(_, caller, _) => Actor.User(caller.id)
    case CommitUpload(upload, _) => if upload in s.uploads then Actor.User(s.uploads[upload].request.owner) else System
    case _ => System
  }

  /** A document's row before and after, if there is one. */
  function RowOf(db: Db, id: Id): Option<Document> {
    if id in db.docs then Some(db.docs[id]) else None
  }

  ghost function ActorFor(txn: Transaction): Actor {
    match txn
    case Inserted(_, request, _, _) => Actor.User(request.owner)
    case Edited(_, caller, _) => Actor.User(caller)
    case Removed(_, caller) => Actor.User(caller)
    case Reopened(_, caller) => Actor.User(caller)
    case _ => System
  }

  lemma ActorsAgree(s: World, step: Step)
    ensures var txn := TransactionOf(s, step);
            txn.Inserted? || txn.Edited? || txn.Removed? || txn.Reopened? || txn.Moves? ==>
              (EventAdded(s.db, txn).Some? ==> ActorFor(txn) == ActorOf(s, step))
  {}

  lemma NoEventNoChange(db: Db, txn: Transaction)
    requires Fits(db, txn) && EventAdded(db, txn).None?
    ensures Committed(db, txn).docs == db.docs
  {}

  /** What a transaction's event says is what its document went through. */
  ghost predicate Tells(db: Db, after: Db, event: Event) {
    var before, later := RowOf(db, event.document), RowOf(after, event.document);
    && before != later
    && (before.Some? ==> event.owner == before.value.owner)
    && (later.Some? ==> event.owner == later.value.owner)
    && match event.action
       case Created => before.None? && later.Some?
       case Deleted => before.Some? && later.None?
       case MetadataUpdated(fields, revision) =>
         && before.Some? && later.Some?
         && revision == later.value.revision
         && fields == set field | field in later.value.metadata
                                  && (field !in before.value.metadata
                                      || before.value.metadata[field] != later.value.metadata[field])
       case ReprocessRequested => before.Some? && later.Some? && later.value.revision == before.value.revision + 1
       case StatusChanged(previous, status, attempt, errorCode, job) =>
         && before.Some? && later.Some?
         && previous == before.value.status
         && status == later.value.status
         && attempt == later.value.attempts
         && errorCode == later.value.errorCode
         && Reports(db, job, event.document)
  }

  lemma EventTells(db: Db, txn: Transaction)
    requires Fits(db, txn) && Agree(db) && EventAdded(db, txn).Some?
    ensures Tells(db, Committed(db, txn), EventAdded(db, txn).value)
    ensures EventAdded(db, txn).value.actor == ActorFor(txn)
    ensures forall id | id != EventAdded(db, txn).value.document :: RowOf(Committed(db, txn), id) == RowOf(db, id)
  {
    var id := EventAdded(db, txn).value.document;
    DocAfter(db, txn, id);
    forall other | other != id ensures RowOf(Committed(db, txn), other) == RowOf(db, other) {
      DocAfter(db, txn, other);
    }
    if txn.Moves? {
      assert WorksOn(db, txn.job, id);
    }
  }

  /** Every change of a document is audited, by exactly one event, which tells it and
      names its owner and who did it; a step that changes no document adds none. */
  lemma ChangesAreAudited(s: World, step: Step)
    requires Safe(s)
    ensures var after := Apply(s, step);
            if after.db.docs == s.db.docs then after.db.audit == s.db.audit
            else
              && |after.db.audit| == |s.db.audit| + 1
              && var event := after.db.audit[|s.db.audit|];
                 && after.db.audit == s.db.audit + [event]
                 && event.actor == ActorOf(s, step)
                 && Tells(s.db, after.db, event)
                 && forall id | id != event.document :: RowOf(after.db, id) == RowOf(s.db, id)
  {
    var txn := TransactionOf(s, step);
    StepCommits(s, step);
    AuditAfter(s.db, txn);
    if EventAdded(s.db, txn).None? {
      NoEventNoChange(s.db, txn);
    } else {
      EventTells(s.db, txn);
      ActorsAgree(s, step);
    }
  }
}
