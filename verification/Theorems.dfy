/** The claims of the system, about every state of every run that starts empty. */
module Theorems {
  import opened Records
  import opened Backoff
  import opened Jobs
  import opened Services
  import opened Protocol
  import opened Transactions
  import opened Structure
  import opened Audit
  import opened Documents
  import opened Agreement
  import opened Results
  import opened Safety
  import opened StorageKeys
  import opened Custody
  import opened LateCommits
  import opened Intents
  import opened LosingUploads
  import opened Leases
  import opened Fencing
  import opened Attempts
  import opened Deadlines
  import opened Histories
  import opened Origins

  ghost function Reached(now: Time, steps: seq<Step>): World {
    Exec(Initial(now), steps)
  }

  lemma ReachedIsSafe(now: Time, steps: seq<Step>)
    ensures Safe(Reached(now, steps))
  {
    InitialIsSafe(now);
    RunIsSafe(Initial(now), steps);
  }

  lemma ReachedInCustody(now: Time, steps: seq<Step>)
    requires Graceful(Initial(now), steps)
    ensures Safe(Reached(now, steps)) && InCustody(Reached(now, steps))
  {
    InitialIsSafe(now);
    RunKeepsCustody(Initial(now), steps);
  }

  /** Object safety: a document's object is always stored, with the recorded
      size and hash, however late cleanup workers issue their deletions. */
  lemma ObjectSafety(now: Time, steps: seq<Step>, id: Id)
    requires Graceful(Initial(now), steps) && id in Reached(now, steps).db.docs
    ensures var s := Reached(now, steps);
            var doc := s.db.docs[id];
            && doc.storageKey in s.objects
            && |s.objects[doc.storageKey]| == doc.size
            && Sha256(s.objects[doc.storageKey]) == doc.sha256
  {
    ReachedInCustody(now, steps);
    assert Kept(Reached(now, steps), id);
  }

  /** Without the grace: in any state of any run, an upload's commit creates a
      document that never loses its object exactly when the object is there and no
      cleanup worker is between its claim and a confirmed erasure. */
  lemma LateCommitIsSafeIffUndisputed(now: Time, steps: seq<Step>, id: Id, acknowledged: bool)
    requires Ready(Reached(now, steps), id)
    ensures var s := Reached(now, steps);
            NeverLost(Apply(s, CommitUpload(id, acknowledged)), id, s.uploads[id].key) <==> Undisputed(s, id)
  {
    ReachedIsSafe(now, steps);
    RunIsTraced(Initial(now), steps);
    CommitIsSafeIffUndisputed(Reached(now, steps), id, acknowledged);
  }

  /** With only the stores within the grace, the guard that the commit does not
      read decides: the document never loses its object exactly when no worker has
      ever claimed the intent, however late the commit. */
  lemma CommitIsSafeIffIntentUnclaimed(now: Time, steps: seq<Step>, id: Id, acknowledged: bool)
    requires StoresInGrace(Initial(now), steps) && Ready(Reached(now, steps), id)
    ensures var s := Reached(now, steps);
            var intent := s.uploads[id].progress.intent;
            && intent in s.db.jobs
            && (NeverLost(Apply(s, CommitUpload(id, acknowledged)), id, s.uploads[id].key)
                <==> s.db.jobs[intent].runToken.None?)
  {
    InitialIsSafe(now);
    ReachedIsSafe(now, steps);
    RunIsWatched(Initial(now), steps);
    UnclaimedIffUndisputed(Reached(now, steps), id);
    CommitIsSafeIffUndisputed(Reached(now, steps), id, acknowledged);
  }

  datatype Custodian = OfDocument(id: Id) | OfCleanup(job: Id)

  /** Whoever answers for a stored object: its document, or an unfinished cleanup. */
  function Custodians(s: World, key: StorageKey): set<Custodian> {
    (set id | id in s.db.docs && s.db.docs[id].storageKey == key :: OfDocument(id))
    + (set job | && job in s.db.jobs
                 && s.db.jobs[job].kind == DeleteObject(key)
                 && s.db.jobs[job].state != JobState.Succeeded :: OfCleanup(job))
  }

  lemma CustodianOf(s: World, key: StorageKey)
    requires Structured(s) && InCustody(s) && key in s.objects
    ensures exists custodian :: Custodians(s, key) == {custodian}
  {
    var id := key.document;
    assert Owed(s, key);
    forall job |
      && job in s.db.jobs
      && s.db.jobs[job].kind == DeleteObject(key)
      && s.db.jobs[job].state != JobState.Succeeded
      ensures Answers(s.db, job, id)
    {}
    if id in s.db.docs {
      assert Kept(s, id);
      assert Custodians(s, key) == {OfDocument(id)};
    } else {
      var job :| Answers(s.db, job, id);
      assert Cleans(s.db, job, id);
      assert Custodians(s, key) == {OfCleanup(job)};
    }
  }

  /** Key custody: every stored object has exactly one custodian. */
  lemma OneCustodian(now: Time, steps: seq<Step>, key: StorageKey)
    requires Graceful(Initial(now), steps) && key in Reached(now, steps).objects
    ensures exists custodian :: Custodians(Reached(now, steps), key) == {custodian}
  {
    ReachedInCustody(now, steps);
    CustodianOf(Reached(now, steps), key);
  }

  /** The live OCR jobs of a document. */
  function LiveJobs(db: Db, id: Id): set<Id> {
    set job | job in db.jobs && WorksOn(db, job, id)
  }

  lemma AgreementUnfolds(db: Db, id: Id)
    requires Agree(db) && id in db.docs
    ensures if Active(db.docs[id].status) then
              exists job ::
                && LiveJobs(db, id) == {job}
                && DocumentStatus(db.jobs[job].state) == db.docs[id].status
                && db.jobs[job].attempts == db.docs[id].attempts
            else LiveJobs(db, id) == {}
  {
    if Active(db.docs[id].status) {
      assert Served(db);
      var job: Id :| WorksOn(db, job, id);
      assert LiveJobs(db, id) == {job};
    } else {
      assert forall job :: !WorksOn(db, job, id);
    }
  }

  /** Document and job agree. */
  lemma DocumentAndJobAgree(now: Time, steps: seq<Step>, id: Id)
    requires id in Reached(now, steps).db.docs
    ensures var db := Reached(now, steps).db;
            var doc := db.docs[id];
            if Active(doc.status) then
              exists job ::
                && LiveJobs(db, id) == {job}
                && DocumentStatus(db.jobs[job].state) == doc.status
                && db.jobs[job].attempts == doc.attempts
            else LiveJobs(db, id) == {}
  {
    ReachedIsSafe(now, steps);
    AgreementUnfolds(Reached(now, steps).db, id);
  }

  /** Fencing: a claim token takes effect in at most one finish of a run. */
  lemma TokensTakeEffectOnce(now: Time, steps: seq<Step>, token: Id)
    ensures Effects(Initial(now), steps, token) <= 1
  {
    InitialIsSafe(now);
    OneEffectPerToken(Initial(now), steps, token);
  }

  /** A finish that takes effect fences every later finish of its worker. */
  lemma EffectiveFinishFences(now: Time, steps: seq<Step>, step: Step, later: seq<Step>)
    requires step.End? && Effective(Reached(now, steps), step, step.worker)
    ensures Effects(Apply(Reached(now, steps), step), later, step.worker) == 0
  {
    ReachedIsSafe(now, steps);
    EffectiveSpends(Reached(now, steps), step, step.worker);
    StructureKept(Reached(now, steps), step);
    SpentHasNoEffect(Apply(Reached(now, steps), step), later, step.worker);
  }

  /** A recovery fences the worker it takes the row from. */
  lemma RecoveryFences(now: Time, steps: seq<Step>, job: Id, jitter: nat, token: Id, later: seq<Step>)
    requires Expired(Reached(now, steps).db, job)
    requires Reached(now, steps).db.jobs[job].runToken == Some(token)
    ensures Effects(Apply(Reached(now, steps), RecoverLease(job, jitter)), later, token) == 0
  {
    ReachedIsSafe(now, steps);
    RecoverySpends(Reached(now, steps), job, jitter, token);
    StructureKept(Reached(now, steps), RecoverLease(job, jitter));
    SpentHasNoEffect(Apply(Reached(now, steps), RecoverLease(job, jitter)), later, token);
  }

  /** One result, with provenance: text and processing time are there exactly
      when a document succeeded, with no error left in it, and the text was
      extracted from bytes of the recorded size and hash.  The stored characters,
      whatever the engine extracts, are not empty only then. */
  lemma ResultsHaveProvenance(now: Time, steps: seq<Step>, id: Id, extract: (Bytes, string) -> string)
    requires id in Reached(now, steps).db.docs
    ensures var doc := Reached(now, steps).db.docs[id];
            && (doc.processedAt.Some? <==> doc.status == Status.Succeeded)
            && (doc.text != NoText <==> doc.status == Status.Succeeded)
            && (doc.status == Status.Succeeded ==> doc.errorCode == NoError)
            && (Characters(doc.text, extract) != "" ==> doc.status == Status.Succeeded)
            && (doc.status == Status.Succeeded ==>
                  exists content ::
                    && doc.text == TextOf(content, doc.mime)
                    && |content| == doc.size
                    && Sha256(content) == doc.sha256
                    && Characters(doc.text, extract) == extract(content, doc.mime))
  {
    ReachedIsSafe(now, steps);
    var doc := Reached(now, steps).db.docs[id];
    assert ResultOk(doc);
    if doc.status == Status.Succeeded {
      assert doc.text == TextOf(doc.text.content, doc.mime);
    }
  }

  /** Between two states of a run: the file columns stay, revisions do not fall,
      equal revisions show equal metadata, and a committed result is final. */
  lemma DocumentsEvolve(now: Time, steps: seq<Step>, more: seq<Step>, id: Id)
    requires id in Reached(now, steps).db.docs && id in Reached(now, steps + more).db.docs
    ensures Evolves(Reached(now, steps).db.docs[id], Reached(now, steps + more).db.docs[id])
  {
    ReachedIsSafe(now, steps);
    ExecAppends(Initial(now), steps, more);
    RunEvolves(Reached(now, steps), more, id);
  }

  /** No lost update: metadata changes only by a patch of a caller who may see the
      document and named the revision it replaces. */
  lemma NoUpdateIsLost(now: Time, steps: seq<Step>, step: Step, id: Id)
    requires id in Reached(now, steps).db.docs && id in Apply(Reached(now, steps), step).db.docs
    ensures var db, after := Reached(now, steps).db, Apply(Reached(now, steps), step).db;
            after.docs[id].metadata != db.docs[id].metadata ==> Replaces(db.docs[id], after.docs[id], db, step, id)
  {
    ReachedIsSafe(now, steps);
    OnlyNamedRevisionsAreReplaced(Reached(now, steps), step, id);
  }

  /** A document that is gone never comes back. */
  lemma RemovedDocumentsStayRemoved(now: Time, steps: seq<Step>, step: Step, later: seq<Step>, id: Id)
    requires id in Reached(now, steps).db.docs && id !in Apply(Reached(now, steps), step).db.docs
    ensures id !in Exec(Apply(Reached(now, steps), step), later).db.docs
  {
    ReachedIsSafe(now, steps);
    RemovalRetires(Reached(now, steps), step, id);
    SafetyKept(Reached(now, steps), step);
    RetiredForever(Apply(Reached(now, steps), step), later, id);
  }

  /** Faithful audit: folding a document's events rebuilds its status, attempts,
      error code and revision, every previous status being the one before; the
      revision counts the edits; a removed document's log ends in its deletion. */
  lemma AuditIsFaithful(now: Time, steps: seq<Step>, id: Id)
    ensures var db := Reached(now, steps).db;
            && (id in db.docs ==>
                  && Fold(db.audit, id) == StoryOf(db.docs[id])
                  && db.docs[id].revision == 1 + RevisionCount(db.audit, id))
            && (id !in db.docs ==> Fold(db.audit, id) == Unborn || Fold(db.audit, id) == Gone)
  {
    ReachedIsSafe(now, steps);
    var db := Reached(now, steps).db;
    assert FaithfulTo(db, id);
    if id in db.docs {
      RevisionsAreCounted(db.audit, id);
    }
  }

  /** A living document's log holds no deletion; that of one that is gone ends
      with its only deletion. */
  lemma DeletionIsUniqueAndLast(now: Time, steps: seq<Step>, id: Id)
    ensures var db := Reached(now, steps).db;
            if id in db.docs then forall event | event in db.audit && event.document == id :: event.action != Deleted
            else (forall event | event in db.audit :: event.document != id) || EndsInDeletion(db.audit, id)
  {
    ReachedIsSafe(now, steps);
    var db := Reached(now, steps).db;
    assert FaithfulTo(db, id);
    if id in db.docs {
      NoDeletionWhileAlive(db.audit, id);
    } else if Fold(db.audit, id) == Unborn {
      NothingBeforeBirth(db.audit, id);
    } else {
      DeletionIsLast(db.audit, id);
    }
  }

  lemma ReachedIsSourced(now: Time, steps: seq<Step>)
    ensures Sourced(Reached(now, steps))
  {
    InitialIsSafe(now);
    RunIsSourced(Initial(now), steps);
  }

  /** Every document shows the upload it is named after: its owner, file, key and
      content, and until its first revision is superseded its metadata. */
  lemma DocumentsShowTheirUpload(now: Time, steps: seq<Step>, id: Id)
    requires id in Reached(now, steps).db.docs
    ensures id in Reached(now, steps).uploads
    ensures var doc := Reached(now, steps).db.docs[id];
            var request := Reached(now, steps).uploads[id].request;
            && doc.owner == request.owner
            && doc.filename == request.filename
            && doc.mime == request.mime
            && doc.size == |request.content|
            && doc.sha256 == Sha256(request.content)
            && doc.idempotencyKey == request.idempotencyKey
            && (doc.revision <= 1 ==> doc.metadata == request.metadata)
  {
    ReachedIsSourced(now, steps);
  }

  /** Idempotent upload: a request's owner and key name at most one document, and the
      replay check finds it exactly if the request repeats the metadata, the bytes
      and the filename of the upload that made it. */
  lemma ReplayFindsTheDocument(now: Time, steps: seq<Step>, request: Request, id: Id)
    requires Names(Reached(now, steps).db, request, id)
    ensures id in Reached(now, steps).uploads
    ensures var s := Reached(now, steps);
            var made := s.uploads[id].request;
            && made.owner == request.owner
            && made.idempotencyKey == request.idempotencyKey
            && (forall other | Names(s.db, request, other) :: other == id)
            && ReplayOf(s.db, request)
               == if && request.metadata == made.metadata
                     && request.content == made.content
                     && request.filename == made.filename
                  then Existing(id) else Conflicting
  {
    ReachedIsSafe(now, steps);
    ReachedIsSourced(now, steps);
    ReplayByRequest(Reached(now, steps), id, request);
    ReplayIsFound(Reached(now, steps).db, request, id);
  }

  /** A key is free for a request exactly if it has none, or no upload of its owner
      with that key made a document that still lives. */
  lemma KeysAreFreeUntilUsed(now: Time, steps: seq<Step>, request: Request)
    ensures var s := Reached(now, steps);
            ReplayOf(s.db, request).Unused? <==>
              forall id | id in s.db.docs ::
                id in s.uploads && !(&& request.idempotencyKey.Some?
                                     && s.uploads[id].request.owner == request.owner
                                     && s.uploads[id].request.idempotencyKey == request.idempotencyKey)
  {
    ReachedIsSourced(now, steps);
    UnusedByRequest(Reached(now, steps), request);
  }

  /** An upload that finds its key taken makes no document, then or later. */
  lemma LosingUploadMakesNothing(now: Time, steps: seq<Step>, id: Id, acknowledged: bool, later: seq<Step>)
    requires At(Reached(now, steps), id, true)
    requires !ReplayOf(Reached(now, steps).db, Reached(now, steps).uploads[id].request).Unused?
    ensures var s := Reached(now, steps);
            var committed := Apply(s, CommitUpload(id, acknowledged));
            && committed.db.docs == s.db.docs
            && committed.db.audit == s.db.audit
            && id !in Exec(committed, later).db.docs
  {
    ReachedIsSafe(now, steps);
    var s := Reached(now, steps);
    LosingCommitMakesNothing(s, id, acknowledged);
    assert UploadFits(s.db, id, s.uploads[id]);
    SafetyKept(s, CommitUpload(id, acknowledged));
    RetiredForever(Apply(s, CommitUpload(id, acknowledged)), later, id);
  }

  lemma {:induction false} KeyIsKept(s: World, steps: seq<Step>, id: Id)
    requires Structured(s) && id in s.uploads
    ensures id in Exec(s, steps).uploads && Exec(s, steps).uploads[id].key == s.uploads[id].key
    decreases |steps|
  {
    if steps != [] {
      StructureKept(s, steps[0]);
      UploadsPersist(s, steps[0], id);
      KeyIsKept(Apply(s, steps[0]), steps[1..], id);
    }
  }

  /** Whatever happens between its commit and its last update, the update leaves
      the cleanup of its object claimable at once, unless it has been claimed. */
  lemma LosingUploadIsCleanedUp(now: Time, steps: seq<Step>, id: Id, acknowledged: bool, between: seq<Step>)
    requires Graceful(Initial(now), steps) && At(Reached(now, steps), id, true)
    requires InGrace(Reached(now, steps), CommitUpload(id, acknowledged))
    requires !ReplayOf(Reached(now, steps).db, Reached(now, steps).uploads[id].request).Unused?
    ensures var s := Reached(now, steps);
            var intent := s.uploads[id].progress.intent;
            var settled := Apply(Exec(Apply(s, CommitUpload(id, acknowledged)), between), ExpediteIntent(id));
            && intent in settled.db.jobs
            && settled.db.jobs[intent].kind == DeleteObject(s.uploads[id].key)
            && (Claimable(settled.db, intent) || settled.db.jobs[intent].runToken.Some?)
  {
    ReachedInCustody(now, steps);
    var s := Reached(now, steps);
    var intent := s.uploads[id].progress.intent;
    LosingCommit(s, id, acknowledged);
    LosingCommitMakesNothing(s, id, acknowledged);
    var committed := Apply(s, CommitUpload(id, acknowledged));
    StructureKept(s, CommitUpload(id, acknowledged));
    UploadsPersist(s, CommitUpload(id, acknowledged), id);
    LostForever(committed, between, id, intent);
    KeyIsKept(committed, between, id);
    ExpediteSettles(Exec(committed, between), id, intent);
  }

  /** Search coherence: the index is the normalised join of the row's current
      metadata and text. */
  lemma SearchIsCoherent(now: Time, steps: seq<Step>, id: Id)
    requires id in Reached(now, steps).db.docs
    ensures var doc := Reached(now, steps).db.docs[id];
            doc.search == Normalised(doc.metadata, doc.text)
  {
    ReachedIsSafe(now, steps);
  }

  /** Bounded attempts. */
  lemma AttemptsAreBounded(now: Time, steps: seq<Step>, job: Id)
    requires job in Reached(now, steps).db.jobs
    ensures var row := Reached(now, steps).db.jobs[job];
            && row.maxAttempts == (if row.kind.Ocr? then 3 else 8)
            && row.attempts <= row.maxAttempts
            && (row.state == JobState.Pending ==> row.attempts < row.maxAttempts)
  {
    ReachedIsSafe(now, steps);
  }

  /** Between rearms a job changes state at most twice per attempt it is allowed,
      and once more only if its upload's commit cancels it after it failed.  A new
      or rearmed job passes the bound exactly if it had used up its attempts then. */
  lemma StateChangesAreCounted(now: Time, steps: seq<Step>, more: seq<Step>, id: Id)
    requires id in Reached(now, steps).db.jobs && NeverRearmed(more, id)
    ensures var s := Reached(now, steps);
            && ShiftCount(s, more, id) <= 2 * s.db.jobs[id].maxAttempts + OverruleCount(s, more, id)
            && OverruleCount(s, more, id) <= 1
            && (s.db.jobs[id].state == JobState.Pending && s.db.jobs[id].attempts == 0 ==>
                  (ShiftCount(s, more, id) > 2 * s.db.jobs[id].maxAttempts <==> SomeExhausts(s, more, id)))
  {
    ReachedIsSafe(now, steps);
    if Reached(now, steps).db.jobs[id].state == JobState.Pending && Reached(now, steps).db.jobs[id].attempts == 0 {
      RunTallies(Reached(now, steps), more, id, 0);
    }
    StateChangesAreBounded(Reached(now, steps), more, id);
    OverruledOnce(Reached(now, steps), more, id);
  }

  /** What an upload could read before its commit: the commit takes its intent past
      the bound exactly when the intent's row is failed with its attempts used up. */
  lemma CommitPassesTheBoundIffExhausted(
    now: Time, steps: seq<Step>, more: seq<Step>, intent: Id, upload: Id, acknowledged: bool)
    requires intent in Reached(now, steps).db.jobs && NeverRearmed(more, intent)
    requires var row := Reached(now, steps).db.jobs[intent]; row.state == JobState.Pending && row.attempts == 0
    requires Ready(Exec(Reached(now, steps), more), upload)
    requires Exec(Reached(now, steps), more).uploads[upload].progress.intent == intent
    ensures var s, commit := Reached(now, steps), CommitUpload(upload, acknowledged);
            && intent in Exec(s, more).db.jobs
            && var row := Exec(s, more).db.jobs[intent];
               ShiftCount(s, more, intent) <= 2 * row.maxAttempts < ShiftCount(s, more + [commit], intent)
               <==> row.state == JobState.Failed && row.attempts == row.maxAttempts
  {
    ReachedIsSafe(now, steps);
    RunIsSafe(Reached(now, steps), more);
    ReadyWithdraws(Exec(Reached(now, steps), more), upload, acknowledged);
    MaximumIsFixed(Reached(now, steps), more, intent);
    CommitPasses(Reached(now, steps), more, CommitUpload(upload, acknowledged), intent);
  }

  /** OCR jobs in every run, and all jobs in runs within the grace, never exceed
      twice their attempts. */
  lemma StateChangesAreBoundedInGrace(now: Time, steps: seq<Step>, more: seq<Step>, id: Id)
    requires id in Reached(now, steps).db.jobs && NeverRearmed(more, id)
    requires Reached(now, steps).db.jobs[id].kind.Ocr? || Graceful(Initial(now), steps + more)
    ensures var s := Reached(now, steps);
            ShiftCount(s, more, id) <= 2 * s.db.jobs[id].maxAttempts
  {
    ReachedIsSafe(now, steps);
    ExecAppends(Initial(now), steps, more);
    if !Reached(now, steps).db.jobs[id].kind.Ocr? {
      ReachedInCustody(now, steps);
    }
    StateChangesAreBounded(Reached(now, steps), more, id);
    RunOverrulesNothing(Reached(now, steps), more, id);
  }

  /** Timed termination: a job of n attempts, delivered within D of being due and
      recovered within R of its lease's end, and neither rearmed nor expedited after
      it fell due, is over n rounds and n - 1 delays after it is first due. */
  lemma JobsAreOverInTime(now: Time, steps: seq<Step>, more: seq<Step>, id: Id, D: nat, R: nat)
    requires ServedOnTime(Reached(now, steps), more, id, D, R)
    ensures var row := Reached(now, steps).db.jobs[id];
            row.state == JobState.Pending && row.attempts == 0 ==>
              && row.maxAttempts > 0
              && id in Exec(Reached(now, steps), more).db.jobs
              && (Exec(Reached(now, steps), more).db.now > FirstDate(row, D, R) ==>
                    !Exec(Reached(now, steps), more).db.jobs[id].Live())
  {
    ReachedIsSafe(now, steps);
    var row := Reached(now, steps).db.jobs[id];
    if row.state == JobState.Pending && row.attempts == 0 {
      NewJobIsOverInTime(Reached(now, steps), more, id, D, R);
    }
  }

  /** Retries are spaced: an attempt that ends in a retry is not followed by the
      next before its delay has passed, whoever delivers the job. */
  lemma RetriesWaitForTheirDelay(now: Time, steps: seq<Step>, step: Step, more: seq<Step>, id: Id)
    requires Possible(step) && id in Reached(now, steps).db.jobs
    requires var row := Reached(now, steps).db.jobs[id]; row.kind.Ocr? && row.state == JobState.Running
    ensures var s := Reached(now, steps);
            var after := Apply(s, step);
            && id in after.db.jobs
            && (after.db.jobs[id].state == JobState.Pending ==>
                  && id in Exec(after, more).db.jobs
                  && (Exec(after, more).db.jobs[id].attempts > s.db.jobs[id].attempts ==>
                        s.db.now + Delay(s.db.jobs[id].attempts) <= Exec(after, more).db.now))
  {
    ReachedIsSafe(now, steps);
    var s := Reached(now, steps);
    RetryWaits(s, step, id);
    StructureKept(s, step);
    if Apply(s, step).db.jobs[id].state == JobState.Pending {
      RunWaits(Apply(s, step), more, id, s.db.jobs[id].attempts, s.db.now + Delay(s.db.jobs[id].attempts));
    }
  }

  /** Broker refinement: along every run, each document moves as the status
      automaton allows, and leaves failed only by a reprocess of its own. */
  lemma RunsFollowTheAutomaton(now: Time, steps: seq<Step>, step: Step, id: Id)
    requires id in Reached(now, steps).db.docs && id in Apply(Reached(now, steps), step).db.docs
    ensures Edge(Reached(now, steps).db.docs[id].status,
                 Apply(Reached(now, steps), step).db.docs[id].status,
                 step.ReprocessDocument? && step.document == id)
  {
    ReachedIsSafe(now, steps);
    StepFollowsAutomaton(Reached(now, steps), step, id);
  }

  /** Live workers are never fenced: the first finish of a worker within 180 seconds
      of its claim takes effect, whatever dispatchers recover meanwhile.  Only a
      worker that claimed the intent of an upload still before its commit needs the
      run to keep the grace. */
  lemma LiveWorkersAreNotFenced(now: Time, steps: seq<Step>, i: int, step: Step)
    requires step.End? && ClaimsAt(Initial(now), steps, i, step.worker)
    ensures step.worker in Reached(now, steps).workers
    ensures var w := Reached(now, steps).workers[step.worker];
            && !w.returned
            && OutcomeOf(w, step.failure).Some?
            && (|| w.claim.kind.Ocr?
                || ClaimsApart(Initial(now), steps, i, step.worker)
                || Graceful(Initial(now), steps))
            && Reached(now, steps).db.now <= Reached(now, steps[..i]).db.now + 180 * SECOND ==>
              Effective(Reached(now, steps), step, step.worker)
  {
    InitialIsSafe(now);
    ReachedIsSafe(now, steps);
    ClaimedWorker(Initial(now), steps, i, step.worker);
    var w := Reached(now, steps).workers[step.worker];
    if w.claim.kind.Ocr? || Graceful(Initial(now), steps) {
      RunGuards(Initial(now), steps, w.claim.kind.DeleteObject?);
    } else if ClaimsApart(Initial(now), steps, i, step.worker) {
      ClaimedApartIsGuarded(Initial(now), steps, i, step.worker);
    }
    if && Guarded(Reached(now, steps), step.worker)
       && !w.returned
       && OutcomeOf(w, step.failure).Some?
       && Reached(now, steps).db.now <= Reached(now, steps[..i]).db.now + 180 * SECOND
    {
      TimelyFinishIsEffective(Reached(now, steps), step);
    }
  }

  /** Every worker won its claim at some step, so the law above is about all of them. */
  lemma WorkersWonTheirClaims(now: Time, steps: seq<Step>, token: Id)
    requires token in Reached(now, steps).workers
    ensures exists i :: ClaimsAt(Initial(now), steps, i, token)
  {
    InitialIsSafe(now);
    WorkersClaimed(Initial(now), steps, token);
  }

  /** A lease lasts 240 seconds from the clock of its claim: as long as the worker
      holds its row, a recovery leaves the row alone before that, and takes it from
      then on. */
  lemma LeasesLastFromTheClaim(now: Time, steps: seq<Step>, i: int, token: Id, jitter: nat)
    requires ClaimsAt(Initial(now), steps, i, token)
    requires Holds(Reached(now, steps).db, steps[i].job, Some(token))
    ensures var s, job := Reached(now, steps), steps[i].job;
            var recovered := Apply(s, RecoverLease(job, jitter));
            if s.db.now < Reached(now, steps[..i]).db.now + 240 * SECOND then recovered == s
            else !Holds(recovered.db, job, Some(token)) && Spent(recovered.db, token)
  {
    InitialIsSafe(now);
    ReachedIsSafe(now, steps);
    ClaimedWorker(Initial(now), steps, i, token);
    if Reached(now, steps).db.now >= Reached(now, steps[..i]).db.now + 240 * SECOND {
      RecoverySpends(Reached(now, steps), steps[i].job, jitter, token);
    }
  }

  ghost predicate PastDateFrom(now: Time, steps: seq<Step>, i: nat, job: Id, D: nat, R: nat)
    requires i <= |steps|
  {
    && ServedOnTime(Reached(now, steps[..i]), steps[i..], job, D, R)
    && var row := Reached(now, steps[..i]).db.jobs[job];
       && row.state == JobState.Pending
       && row.attempts == 0
       && row.maxAttempts > 0
       && Reached(now, steps).db.now > FirstDate(row, D, R)
  }

  /** A job that was new at some point of a run, has been served on time since, and is
      past its date. */
  ghost predicate PastDate(now: Time, steps: seq<Step>, job: Id, D: nat, R: nat) {
    exists i :: 0 <= i <= |steps| && PastDateFrom(now, steps, i, job, D, R)
  }

  lemma PastDateIsOver(now: Time, steps: seq<Step>, job: Id, D: nat, R: nat)
    requires PastDate(now, steps, job, D, R)
    ensures job in Reached(now, steps).db.jobs && !Reached(now, steps).db.jobs[job].Live()
  {
    var i :| 0 <= i <= |steps| && PastDateFrom(now, steps, i, job, D, R);
    assert steps == steps[..i] + steps[i..];
    ExecAppends(Initial(now), steps[..i], steps[i..]);
    JobsAreOverInTime(now, steps[..i], steps[i..], job, D, R);
  }

  /** Once its OCR jobs are past their dates, a document is neither pending nor
      processing: it succeeded or failed. */
  lemma DocumentsSettle(now: Time, steps: seq<Step>, id: Id, D: nat, R: nat)
    requires id in Reached(now, steps).db.docs
    requires forall job | Reports(Reached(now, steps).db, job, id) :: PastDate(now, steps, job, D, R)
    ensures !Active(Reached(now, steps).db.docs[id].status)
  {
    DocumentAndJobAgree(now, steps, id);
    var db := Reached(now, steps).db;
    if Active(db.docs[id].status) {
      var job :| LiveJobs(db, id) == {job};
      assert job in LiveJobs(db, id);
      PastDateIsOver(now, steps, job, D, R);
    }
  }

  /** Once the cleanup jobs of its key are past their dates, an object has its
      document, or is left to the operator: its one custodian is a failed cleanup. */
  lemma ObjectsSettle(now: Time, steps: seq<Step>, key: StorageKey, D: nat, R: nat)
    requires Graceful(Initial(now), steps) && key in Reached(now, steps).objects
    requires var jobs := Reached(now, steps).db.jobs;
             forall job | job in jobs && jobs[job].kind == DeleteObject(key) :: PastDate(now, steps, job, D, R)
    ensures var s := Reached(now, steps);
            || (exists id ::
                  && Custodians(s, key) == {OfDocument(id)}
                  && id in s.db.docs
                  && s.db.docs[id].storageKey == key)
            || (exists job ::
                  && Custodians(s, key) == {OfCleanup(job)}
                  && job in s.db.jobs
                  && s.db.jobs[job].kind == DeleteObject(key)
                  && s.db.jobs[job].state == JobState.Failed)
  {
    OneCustodian(now, steps, key);
    var s := Reached(now, steps);
    var custodian :| Custodians(s, key) == {custodian};
    assert custodian in Custodians(s, key);
    match custodian
    case OfDocument(id) => assert Custodians(s, key) == {OfDocument(id)};
    case OfCleanup(job) =>
      PastDateIsOver(now, steps, job, D, R);
      assert Custodians(s, key) == {OfCleanup(job)};
  }
}
