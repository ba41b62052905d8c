/** Object safety and key custody, in every run that keeps the upload grace. */
module Custody {
  import opened Records
  import opened Jobs
  import opened Services
  import opened Protocol
  import opened Transactions
  import opened Ledger
  import opened Documents
  import opened Structure
  import opened Results
  import opened Safety
  import opened StorageKeys
  import opened Fencing

  /** An intent nobody has touched since it was declared. */
  predicate Resting(row: Job, due: Time) {
    row.state == JobState.Pending && row.runToken.None? && row.availableAt == due
  }

  ghost predicate Shields(s: World, intent: Id, due: Time) {
    intent in s.db.jobs && (s.db.now < due ==> Resting(s.db.jobs[intent], due))
  }

  ghost predicate Holding(s: World, id: Id)
    requires id in s.uploads
  {
    s.uploads[id].key in s.objects && s.objects[s.uploads[id].key] == s.uploads[id].request.content
  }

  /** Until its due time an open upload's object is out of any cleanup's reach. */
  ghost predicate Sheltered(s: World, id: Id)
    requires id in s.uploads
  {
    match s.uploads[id].progress
    case Intended(intent, due) => Shields(s, intent, due)
    case Stored(intent, due) => Shields(s, intent, due) && (s.db.now < due ==> Holding(s, id))
    case _ => true
  }

  /** An upload that may no longer store or commit. */
  predicate PastGrace(progress: Progress, now: Time) {
    match progress
    case Begun => false
    case Intended(_, due) => due <= now
    case Stored(_, due) => due <= now
    case _ => true
  }

  /** A worker whose deletion was confirmed and which may yet end its job as done. */
  predicate Closing(s: World, token: Id) {
    && Busy(s, token)
    && s.workers[token].phase.Erased?
    && Holds(s.db, s.workers[token].job, s.workers[token].claim.runToken)
  }

  /** A cleanup worker's object belongs to no document, nor to an upload within
      its grace; it is gone before the worker can end its job as done. */
  ghost predicate Harmless(s: World, token: Id)
    requires token in s.workers
  {
    var w := s.workers[token];
    w.claim.kind.DeleteObject? ==>
      && w.claim.document !in s.db.docs
      && w.claim.document in s.uploads
      && w.claim.kind.key == s.uploads[w.claim.document].key
      && PastGrace(s.uploads[w.claim.document].progress, s.db.now)
      && (Closing(s, token) ==> w.claim.kind.key !in s.objects)
  }

  /** Once the store confirmed a deletion, the object is gone. */
  ghost predicate Cleared(s: World) {
    forall token | token in s.workers && s.workers[token].claim.kind.DeleteObject? && s.workers[token].phase.Erased? ::
      s.workers[token].claim.kind.key !in s.objects
  }

  /** A document's object is stored, intact, and no cleanup answers for it. */
  ghost predicate Kept(s: World, id: Id) {
    id in s.uploads && Holding(s, id) && forall job :: !Answers(s.db, job, id)
  }

  /** A stored object without a document has a cleanup that answers for it. */
  ghost predicate Owed(s: World, key: StorageKey) {
    key.document in s.db.docs || exists job :: Answers(s.db, job, key.document)
  }

  ghost predicate OneCleaner(db: Db) {
    forall job, other, id | Answers(db, job, id) && Answers(db, other, id) :: job == other
  }

  ghost predicate InCustody(s: World) {
    && Traced(s)
    && (forall id | id in s.uploads :: Sheltered(s, id))
    && (forall token | token in s.workers :: Harmless(s, token))
    && (forall id | id in s.db.docs :: Kept(s, id))
    && (forall key | key in s.objects :: Owed(s, key))
    && OneCleaner(s.db)
  }

  /** An intent belongs to one upload. */
  lemma IntentsDiffer(s: World, id: Id, other: Id)
    requires UploadsFit(s) && id in s.uploads && other in s.uploads
    requires !s.uploads[id].progress.Begun? && !s.uploads[id].progress.Closed?
    requires !s.uploads[other].progress.Begun? && !s.uploads[other].progress.Closed?
    ensures s.uploads[id].progress.intent == s.uploads[other].progress.intent ==> id == other
  {
    assert UploadFits(s.db, id, s.uploads[id]) && UploadFits(s.db, other, s.uploads[other]);
  }

  lemma HurriedByUpload(s: World, step: Step, job: Id)
    requires MoveOn(TransactionOf(s, step), job).Hurry?
    ensures step.CommitUpload? || step.ExpediteIntent?
    ensures step.upload in s.uploads
    ensures var progress := s.uploads[step.upload].progress;
            (progress.Stored? || progress.Abandoned?) && progress.intent == job
  {}

  lemma WithdrawnByUpload(s: World, step: Step, job: Id)
    requires MoveOn(TransactionOf(s, step), job).Withdraw?
    ensures step.CommitUpload? && At(s, step.upload, true) && s.uploads[step.upload].progress.intent == job
  {}

  /** Only an upload's own steps hurry or withdraw its intent. */
  lemma IntentUntouched(s: World, step: Step, id: Id)
    requires Structured(s) && id in s.uploads && UploadOf(s, step) != Some(id)
    requires s.uploads[id].progress.Intended? || s.uploads[id].progress.Stored?
    ensures var move := MoveOn(TransactionOf(s, step), s.uploads[id].progress.intent);
            !move.Hurry? && !move.Withdraw?
  {
    var intent := s.uploads[id].progress.intent;
    assert UploadFits(s.db, id, s.uploads[id]);
    if MoveOn(TransactionOf(s, step), intent).Hurry? {
      HurriedByUpload(s, step, intent);
      IntentsDiffer(s, id, step.upload);
    } else if MoveOn(TransactionOf(s, step), intent).Withdraw? {
      WithdrawnByUpload(s, step, intent);
      IntentsDiffer(s, id, step.upload);
    }
  }

  lemma RestingStays(s: World, step: Step, id: Id)
    requires Structured(s) && id in s.uploads && UploadOf(s, step) != Some(id)
    requires s.uploads[id].progress.Intended? || s.uploads[id].progress.Stored?
    requires var u := s.uploads[id]; Resting(s.db.jobs[u.progress.intent], u.progress.due)
    requires Apply(s, step).db.now < s.uploads[id].progress.due
    ensures s.uploads[id].progress.intent in Apply(s, step).db.jobs
    ensures Resting(Apply(s, step).db.jobs[s.uploads[id].progress.intent], s.uploads[id].progress.due)
  {
    RowStep(s, step, s.uploads[id].progress.intent);
    IntentUntouched(s, step, id);
  }

  /** An object that no erasure of the step names stays as it is. */
  lemma ObjectStays(s: World, step: Step, id: Id)
    requires Structured(s) && id in s.uploads && Holding(s, id)
    requires step.Erase? && step.worker in s.workers ==>
               s.workers[step.worker].claim.kind != DeleteObject(s.uploads[id].key)
    ensures s.uploads[id].key in Apply(s, step).objects
    ensures Apply(s, step).objects[s.uploads[id].key] == s.uploads[id].request.content
  {
    ObjectsFrom(s, step, s.uploads[id].key);
    assert UploadFits(s.db, id, s.uploads[id]);
    assert step.Store? && step.upload in s.uploads ==> UploadFits(s.db, step.upload, s.uploads[step.upload]);
  }

  /** A claimed cleanup's key names its document. */
  lemma ClaimedKey(s: World, token: Id, id: Id)
    requires Structured(s) && token in s.workers && id in s.uploads
    requires s.workers[token].claim.kind == DeleteObject(s.uploads[id].key)
    ensures s.workers[token].claim.document == id
  {
    assert WorkerOk(s.db, token, s.workers[token]) && UploadFits(s.db, id, s.uploads[id]);
  }

  /** No cleanup worker is after the object of a document, or of an upload within its grace. */
  lemma ErasersSpare(s: World, id: Id, token: Id)
    requires Structured(s) && InCustody(s) && id in s.uploads && token in s.workers
    requires id in s.db.docs || !PastGrace(s.uploads[id].progress, s.db.now)
    ensures s.workers[token].claim.kind != DeleteObject(s.uploads[id].key)
  {
    assert Harmless(s, token);
    if s.workers[token].claim.kind == DeleteObject(s.uploads[id].key) {
      ClaimedKey(s, token, id);
    }
  }

  lemma OthersKeepShelter(s: World, step: Step, id: Id)
    requires Structured(s) && InCustody(s) && id in s.uploads && UploadOf(s, step) != Some(id)
    ensures id in Apply(s, step).uploads && Sheltered(Apply(s, step), id)
  {
    var after := Apply(s, step);
    OtherUploads(s, step, id);
    var u := s.uploads[id];
    assert Sheltered(s, id);
    if Open(u.progress) && !u.progress.Begun? {
      RowStep(s, step, u.progress.intent);
      if after.db.now < u.progress.due {
        RestingStays(s, step, id);
        if step.Erase? && step.worker in s.workers {
          ErasersSpare(s, id, step.worker);
        }
        if u.progress.Stored? {
          ObjectStays(s, step, id);
        }
      }
    }
  }

  lemma BeginShelters(s: World, request: Request)
    requires Structured(s) && Keyed(s) && s.db.nextId !in s.uploads
    requires s.db.nextId in AfterBegin(s, request).uploads
    ensures Sheltered(AfterBegin(s, request), s.db.nextId)
  {}

  lemma DeclareShelters(s: World, upload: Id)
    requires Structured(s) && upload in s.uploads && Sheltered(s, upload)
    ensures upload in AfterDeclareIntent(s, upload).uploads && Sheltered(AfterDeclareIntent(s, upload), upload)
  {}

  lemma StoreShelters(s: World, upload: Id, effective: bool, confirmed: bool)
    requires Structured(s) && upload in s.uploads && Sheltered(s, upload)
    ensures var after := AfterStore(s, upload, effective, confirmed);
            upload in after.uploads && Sheltered(after, upload)
  {}

  lemma ClosingShelters(s: World, step: Step)
    requires Structured(s) && (step.CommitUpload? || step.Abort? || step.ExpediteIntent?)
    requires step.upload in s.uploads && Sheltered(s, step.upload)
    ensures step.upload in Apply(s, step).uploads && Sheltered(Apply(s, step), step.upload)
  {
    if Apply(s, step).uploads[step.upload].progress == s.uploads[step.upload].progress {
      assert Apply(s, step) == s;
    }
  }

  lemma ShelterKept(s: World, step: Step, id: Id)
    requires Structured(s) && InCustody(s) && id in Apply(s, step).uploads
    ensures Sheltered(Apply(s, step), id)
  {
    if UploadOf(s, step) != Some(id) {
      OtherUploads(s, step, id);
      OthersKeepShelter(s, step, id);
    } else {
      match step
      case Begin(request) => BeginShelters(s, request);
      case DeclareIntent(upload) => DeclareShelters(s, upload);
      case Store(upload, effective, confirmed) => StoreShelters(s, upload, effective, confirmed);
      case _ => ClosingShelters(s, step);
    }
  }

  /** A claim on a cleanup comes too late for its object to be wanted. */
  lemma ClaimedCleanupIsHarmless(s: World, step: Step)
    requires Structured(s) && InCustody(s) && Wins(s, step) && s.db.jobs[step.job].kind.DeleteObject?
    ensures var id := s.db.jobs[step.job].document;
            && id !in s.db.docs
            && id in s.uploads
            && s.db.jobs[step.job].kind.key == s.uploads[id].key
            && PastGrace(s.uploads[id].progress, s.db.now)
  {
    var id := s.db.jobs[step.job].document;
    assert Answers(s.db, step.job, id) && Cleans(s.db, step.job, id);
    assert id in s.uploads;
    assert Sheltered(s, id);
    assert id in s.db.docs ==> Kept(s, id);
  }

  /** An upload past its grace gets no document and stores no object. */
  lemma LateStaysUnwritten(s: World, step: Step, id: Id)
    requires Structured(s) && InGrace(s, step) && id in s.uploads
    requires id !in s.db.docs && PastGrace(s.uploads[id].progress, s.db.now)
    ensures id !in Apply(s, step).db.docs
    ensures s.db.now <= Apply(s, step).db.now
    ensures s.uploads[id].key in Apply(s, step).objects ==> s.uploads[id].key in s.objects
  {
    StepCommits(s, step);
    DocAfter(s.db, TransactionOf(s, step), id);
    RowAfter(s.db, TransactionOf(s, step), 0);
    InsertedIsUploaded(s, step);
    ObjectsFrom(s, step, s.uploads[id].key);
  }

  lemma LateUploadStaysLate(s: World, step: Step)
    requires UploadOf(s, step).Some? && UploadOf(s, step).value in s.uploads && s.db.nextId !in s.uploads
    requires var u := s.uploads[UploadOf(s, step).value];
             !u.progress.Begun?
    ensures var id := UploadOf(s, step).value;
            && id in Apply(s, step).uploads
            && var u, v := s.uploads[id], Apply(s, step).uploads[id];
               match v.progress
               case Begun => false
               case Intended(_, due) => u.progress.Intended? && u.progress.due == due
               case Stored(_, due) => (u.progress.Stored? || u.progress.Intended?) && u.progress.due == due
               case _ => true
  {}

  lemma LateStaysLate(s: World, step: Step, id: Id)
    requires Structured(s) && id in s.uploads && PastGrace(s.uploads[id].progress, s.db.now)
    ensures id in Apply(s, step).uploads
    ensures Apply(s, step).uploads[id].key == s.uploads[id].key
    ensures PastGrace(Apply(s, step).uploads[id].progress, s.db.now)
  {
    UploadsPersist(s, step, id);
    if UploadOf(s, step) != Some(id) {
      OtherUploads(s, step, id);
    } else {
      LateUploadStaysLate(s, step);
    }
  }

  /** A worker stays harmless: within its grace no upload stores or commits
      what a cleanup has been claimed for. */
  lemma HarmlessStays(s: World, step: Step, token: Id)
    requires Structured(s) && InCustody(s) && InGrace(s, step)
    requires token in s.workers && s.workers[token].claim.kind.DeleteObject?
    ensures var id := s.workers[token].claim.document;
            var after := Apply(s, step);
            && id !in after.db.docs
            && id in after.uploads
            && after.uploads[id].key == s.uploads[id].key
            && s.db.now <= after.db.now
            && PastGrace(after.uploads[id].progress, s.db.now)
            && (s.uploads[id].key in after.objects ==> s.uploads[id].key in s.objects)
  {
    assert Harmless(s, token);
    var id := s.workers[token].claim.document;
    LateStaysUnwritten(s, step, id);
    LateStaysLate(s, step, id);
  }

  /** A new confirmation comes with the object's removal. */
  lemma ConfirmedIsGone(s: World, step: Step, token: Id)
    requires token in s.workers && token in Apply(s, step).workers
    requires s.workers[token].claim.kind.DeleteObject? && !s.workers[token].phase.Erased?
    requires Apply(s, step).workers[token].phase.Erased?
    ensures s.workers[token].claim.kind.key !in Apply(s, step).objects
  {}

  lemma ReturnsForGood(s: World, step: Step, token: Id)
    requires token in s.workers && token < s.db.nextId && s.workers[token].returned
    ensures token in Apply(s, step).workers && Apply(s, step).workers[token].returned
  {}

  /** A worker that can end its job could before: a lost row is not won back. */
  lemma ClosingWasClosing(s: World, step: Step, token: Id)
    requires Structured(s) && token in s.workers && s.workers[token].phase.Erased?
    requires Closing(Apply(s, step), token)
    ensures Closing(s, token)
  {
    StepCommits(s, step);
    WorkersFrom(s, step, token);
    TransactionKeepsRelease(s.db, TransactionOf(s, step), s.workers[token].job, token);
    if s.workers[token].returned {
      ReturnsForGood(s, step, token);
    }
  }

  /** The object of a worker that can end its job as done stays gone. */
  lemma ClosingIsGone(s: World, step: Step, token: Id)
    requires Structured(s) && InCustody(s) && InGrace(s, step) && token in s.workers
    requires s.workers[token].claim.kind.DeleteObject? && Closing(Apply(s, step), token)
    ensures s.workers[token].claim.kind.key !in Apply(s, step).objects
  {
    assert Harmless(s, token);
    HarmlessStays(s, step, token);
    if s.workers[token].phase.Erased? {
      ClosingWasClosing(s, step, token);
    } else {
      ConfirmedIsGone(s, step, token);
    }
  }

  lemma DeliverTouchesNoUpload(s: World, step: Step)
    requires step.Deliver?
    ensures Apply(s, step).uploads == s.uploads && Apply(s, step).db.docs.Keys == s.db.docs.Keys
    ensures Apply(s, step).db.now == s.db.now
  {}

  lemma HarmlessKept(s: World, step: Step, token: Id)
    requires Structured(s) && InCustody(s) && InGrace(s, step) && token in Apply(s, step).workers
    ensures Harmless(Apply(s, step), token)
  {
    WorkersFrom(s, step, token);
    if token in s.workers {
      if s.workers[token].claim.kind.DeleteObject? {
        assert Harmless(s, token);
        HarmlessStays(s, step, token);
        if Closing(Apply(s, step), token) {
          ClosingIsGone(s, step, token);
        }
      }
    } else if s.db.jobs[step.job].kind.DeleteObject? {
      ClaimedCleanupIsHarmless(s, step);
      DeliverTouchesNoUpload(s, step);
    }
  }

  /** A cleanup job that answers after a step answered before, or is new. */
  lemma AnswersFrom(s: World, step: Step, job: Id, id: Id)
    requires Structured(s) && Keyed(s) && Answers(Apply(s, step).db, job, id)
    ensures Answers(s.db, job, id)
            || (job == s.db.nextId && id in s.uploads && s.uploads[id].progress.Begun? && step == DeclareIntent(id))
            || (job == s.db.nextId && id in s.db.docs && id !in Apply(s, step).db.docs)
  {
    CleansFrom(s, step, job, id);
    DeclaredIsUploaded(s, step);
    if job in s.db.jobs {
      OldCleaner(s, step, job, id);
    } else {
      StepCommits(s, step);
      DocAfter(s.db, TransactionOf(s, step), id);
    }
  }

  lemma UnansweredStays(s: World, step: Step, id: Id, job: Id)
    requires Structured(s) && InCustody(s)
    requires id in s.db.docs && id in Apply(s, step).db.docs
    ensures !Answers(Apply(s, step).db, job, id)
  {
    assert Kept(s, id);
    if Answers(Apply(s, step).db, job, id) {
      AnswersFrom(s, step, job, id);
    }
  }

  /** A stored object of a document stays stored: no worker's erasure names it. */
  lemma HoldingStays(s: World, step: Step, id: Id)
    requires Structured(s) && InCustody(s) && id in s.db.docs
    ensures id in Apply(s, step).uploads && Holding(Apply(s, step), id)
  {
    assert Kept(s, id);
    UploadsPersist(s, step, id);
    if step.Erase? && step.worker in s.workers {
      ErasersSpare(s, id, step.worker);
    }
    ObjectStays(s, step, id);
  }

  /** A commit withdraws the only cleanup there is. */
  lemma InsertedSilences(s: World, step: Step, id: Id, job: Id)
    requires Structured(s) && InCustody(s)
    requires TransactionOf(s, step).Inserted? && TransactionOf(s, step).document == id
    ensures !Answers(Apply(s, step).db, job, id)
  {
    InsertedIsUploaded(s, step);
    assert Sole(s, id) && UploadFits(s.db, id, s.uploads[id]);
    if Answers(Apply(s, step).db, job, id) {
      AnswersFrom(s, step, job, id);
      RowStep(s, step, job);
    }
  }

  /** A commit within its grace finds the object stored and its intent resting. */
  lemma InsertedIsKept(s: World, step: Step, id: Id)
    requires Structured(s) && InCustody(s) && InGrace(s, step)
    requires TransactionOf(s, step).Inserted? && TransactionOf(s, step).document == id
    ensures Kept(Apply(s, step), id)
  {
    InsertedIsUploaded(s, step);
    UploadsPersist(s, step, id);
    assert Sheltered(s, id);
    ObjectStays(s, step, id);
    forall job ensures !Answers(Apply(s, step).db, job, id) {
      InsertedSilences(s, step, id, job);
    }
  }

  lemma KeptKept(s: World, step: Step, id: Id)
    requires Structured(s) && InCustody(s) && InGrace(s, step) && id in Apply(s, step).db.docs
    ensures Kept(Apply(s, step), id)
  {
    StepCommits(s, step);
    DocAfter(s.db, TransactionOf(s, step), id);
    if id in s.db.docs {
      HoldingStays(s, step, id);
      forall job ensures !Answers(Apply(s, step).db, job, id) {
        UnansweredStays(s, step, id, job);
      }
    } else {
      InsertedIsKept(s, step, id);
    }
  }

  /** A cleanup ends well only after its object is gone. */
  lemma DoneMeansGone(s: World, step: Step, job: Id, id: Id)
    requires Structured(s) && InCustody(s) && PhasesOk(s) && Answers(s.db, job, id)
    requires step.End? && MoveOn(TransactionOf(s, step), job).Return?
    requires !MoveOn(TransactionOf(s, step), job).outcome.Failing?
    ensures id in s.uploads && s.uploads[id].key !in s.objects
  {
    assert Harmless(s, step.worker) && PhaseOk(s.db, s.workers[step.worker]);
  }

  lemma OnlyEndReturns(s: World, step: Step, job: Id)
    requires MoveOn(TransactionOf(s, step), job).Return?
    ensures step.End?
  {}

  lemma WithdrawnHasDocument(s: World, step: Step, job: Id, id: Id)
    requires Structured(s) && Cleans(s.db, job, id) && MoveOn(TransactionOf(s, step), job).Withdraw?
    ensures id in Apply(s, step).db.docs
  {
    StepCommits(s, step);
    InsertedIsUploaded(s, step);
  }

  lemma StillAnswers(s: World, step: Step, job: Id, id: Id)
    requires Structured(s) && Answers(s.db, job, id)
    requires var move := MoveOn(TransactionOf(s, step), job);
             !move.Withdraw? && (move.Return? ==> move.outcome.Failing?)
    ensures Answers(Apply(s, step).db, job, id)
  {
    RowStep(s, step, job);
  }

  /** A cleanup stops answering only when its object is gone or has its document. */
  lemma AnswerLeaves(s: World, step: Step, job: Id, id: Id)
    requires Structured(s) && InCustody(s) && PhasesOk(s) && Answers(s.db, job, id)
    ensures || Answers(Apply(s, step).db, job, id)
            || (id in s.uploads && s.uploads[id].key !in s.objects && step.End?)
            || id in Apply(s, step).db.docs
  {
    var move := MoveOn(TransactionOf(s, step), job);
    if move.Withdraw? {
      WithdrawnHasDocument(s, step, job, id);
    } else if move.Return? && !move.outcome.Failing? {
      OnlyEndReturns(s, step, job);
      DoneMeansGone(s, step, job, id);
    } else {
      StillAnswers(s, step, job, id);
    }
  }

  lemma OldObjectOwed(s: World, step: Step, key: StorageKey)
    requires Structured(s) && InCustody(s) && PhasesOk(s)
    requires key in s.objects && key in Apply(s, step).objects
    ensures Owed(Apply(s, step), key)
  {
    var id := key.document;
    assert Owed(s, key);
    StepCommits(s, step);
    if id in s.db.docs {
      DocAfter(s.db, TransactionOf(s, step), id);
      if id !in Apply(s, step).db.docs {
        assert Answers(Apply(s, step).db, s.db.nextId, id);
      }
    } else {
      var job :| Answers(s.db, job, id);
      AnswerLeaves(s, step, job, id);
    }
  }

  lemma NewObjectOwed(s: World, step: Step, key: StorageKey)
    requires Structured(s) && InCustody(s) && InGrace(s, step)
    requires key !in s.objects && key in Apply(s, step).objects
    ensures Owed(Apply(s, step), key)
  {
    ObjectsFrom(s, step, key);
    assert Sheltered(s, step.upload);
    RowStep(s, step, s.uploads[step.upload].progress.intent);
    assert Answers(Apply(s, step).db, s.uploads[step.upload].progress.intent, key.document);
  }

  lemma OneCleanerKept(s: World, step: Step, job: Id, other: Id, id: Id)
    requires Structured(s) && InCustody(s)
    requires Answers(Apply(s, step).db, job, id) && Answers(Apply(s, step).db, other, id)
    ensures job == other
  {
    AnswersFrom(s, step, job, id);
    AnswersFrom(s, step, other, id);
    assert id in s.uploads ==> Sheltered(s, id);
    assert id in s.db.docs ==> Kept(s, id);
  }

  /** Every step within the grace keeps custody. */
  lemma CustodyKept(s: World, step: Step)
    requires Structured(s) && InCustody(s) && PhasesOk(s) && InGrace(s, step)
    ensures InCustody(Apply(s, step))
  {
    var after := Apply(s, step);
    TracedKept(s, step);
    forall id | id in after.uploads ensures Sheltered(after, id) {
      ShelterKept(s, step, id);
    }
    forall token | token in after.workers ensures Harmless(after, token) {
      HarmlessKept(s, step, token);
    }
    forall id | id in after.db.docs ensures Kept(after, id) {
      KeptKept(s, step, id);
    }
    forall key | key in after.objects ensures Owed(after, key) {
      if key in s.objects {
        OldObjectOwed(s, step, key);
      } else {
        NewObjectOwed(s, step, key);
      }
    }
    forall job, other, id | Answers(after.db, job, id) && Answers(after.db, other, id) ensures job == other {
      OneCleanerKept(s, step, job, other, id);
    }
  }

  /** Every step within the grace keeps confirmed deletions true. */
  lemma ClearedKept(s: World, step: Step)
    requires Structured(s) && InCustody(s) && PhasesOk(s) && InGrace(s, step) && Cleared(s)
    ensures Cleared(Apply(s, step))
  {
    var after := Apply(s, step);
    forall token |
      token in after.workers && after.workers[token].claim.kind.DeleteObject? && after.workers[token].phase.Erased?
      ensures after.workers[token].claim.kind.key !in after.objects
    {
      WorkersFrom(s, step, token);
      if token in s.workers {
        assert Harmless(s, token);
        HarmlessStays(s, step, token);
        if !s.workers[token].phase.Erased? {
          ConfirmedIsGone(s, step, token);
        }
      }
    }
  }

  /** Every state of every run within the grace is in custody. */
  lemma {:induction false} RunKeepsCustody(s: World, steps: seq<Step>)
    requires Safe(s) && InCustody(s) && Graceful(s, steps)
    ensures Safe(Exec(s, steps)) && InCustody(Exec(s, steps))
    ensures Cleared(s) ==> Cleared(Exec(s, steps))
    decreases |steps|
  {
    if steps != [] {
      SafetyKept(s, steps[0]);
      CustodyKept(s, steps[0]);
      if Cleared(s) {
        ClearedKept(s, steps[0]);
      }
      RunKeepsCustody(Apply(s, steps[0]), steps[1..]);
    }
  }
}
