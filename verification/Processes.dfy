/** The processes themselves: a worker running one job and a request uploading
    one document, written as the source writes them, with every other process
    acting freely between any two of their steps. */
module Processes {
  import opened Records
  import opened Jobs
  import opened Services
  import opened Protocol
  import opened Transactions
  import opened Structure
  import opened Safety
  import opened Results
  import opened Store
  import opened Integrity
  import Extraction
  import opened Operations
  import opened Fencing
  import opened Interference
  import opened Passes
  import opened Histories
  import Dispatching
  import Recovery

  /** What may strike a worker: its time limit, or an error it does not expect. */
  datatype Strike = TimeLimit | Unforeseen

  /** How the handlers of run_job report a strike. */
  function Reported(strike: Strike): Failure {
    match strike
    case TimeLimit => Failure(OcrTimeout, true)
    case Unforeseen => Failure(UnexpectedError, true)
  }

  /** A strike may pass: a time limit counts as a timeout, the rest as unexpected. */
  lemma StrikesMayPass(strike: Strike)
    ensures Reported(strike).retryable
    ensures Reported(strike).code == if strike == TimeLimit then OcrTimeout else UnexpectedError
  {}

  /** What the world outside holds for one run of a job: whether a deletion takes
      effect and is confirmed; what the store answers a reader, what the engine finds
      in the content, and what strikes it; whether the first finish raises, and had
      committed, and what it raises. */
  datatype Fate = Fate(
    effective: bool, confirmed: bool,
    parts: seq<Chunk>, file: Extraction.File, struck: Option<Strike>,
    raises: bool, committed: bool, raised: Strike)

  /** What the world outside holds for one upload: whether the store keeps the object
      and confirms it, whether the closing transaction commits and says so, whether
      the last update succeeds. */
  datatype UploadFate = UploadFate(
    effective: bool, saved: bool, committed: bool, acknowledged: bool, expedites: bool)

  const STORAGE_DOWN: Failure := Failure(StorageUnavailable, true)
  const CORRUPT: Failure := Failure(IntegrityError, false)

  /** What run_job comes to: no claim won, an exception out of its last finish,
      or the answer of its last finish. */
  datatype Answer = Skipped | Raised | Replied(reply: Reply)

  /** A worker of the given job, which it claimed as the given row. */
  predicate Owns(s: World, token: Id, job: Id, claim: Job) {
    && token < s.db.nextId
    && token in s.workers
    && s.workers[token].job == job
    && s.workers[token].claim == claim
  }

  predicate AtWork(s: World, token: Id, job: Id, claim: Job) {
    Owns(s, token, job, claim) && !s.workers[token].returned
  }

  /** A document shows as succeeded, with text from its own bytes, or is gone. */
  predicate Shown(db: Db, id: Id) {
    id in db.docs ==> db.docs[id].status == Status.Succeeded && Provenance(db.docs[id], db.docs[id].text)
  }

  /** How a call of finish leaves its worker: returned, its row no longer running
      under its token, and its document shown as succeeded if that is the answer. */
  predicate Returned(s: World, token: Id, job: Id, claim: Job, reply: Reply) {
    && Owns(s, token, job, claim)
    && s.workers[token].returned
    && !Holds(s.db, job, claim.runToken)
    && (reply == Became(JobState.Succeeded) && claim.kind.Ocr? ==> Shown(s.db, claim.document))
  }

  /** How a finish that does not raise leaves the worker's row and document, and what
      it answers. */
  ghost predicate Settled(s: World, after: Db, worker: Id, failure: Option<Failure>, reply: Reply) {
    && worker in s.workers
    && s.workers[worker].job in s.db.jobs
    && var w := s.workers[worker];
       var row := s.db.jobs[w.job];
       if row.state == JobState.Running && row.runToken == Some(worker) then
         && reply == Became(EndState(row, failure))
         && w.job in after.jobs
         && (exists jitter: nat :: jitter <= 2 * SECOND && RowEnded(row, after.jobs[w.job], failure, s.db.now, jitter))
         && (row.kind.Ocr? && row.document in s.db.docs ==>
               && row.document in after.docs
               && DocEnded(s.db.docs[row.document], after.docs[row.document], row, w, failure, s.db.now))
       else reply == Stale && after == s.db
  }

  lemma ReplyIsDecided(s: World, worker: Id, failure: Option<Failure>, jitter: nat)
    requires Safe(s) && worker in s.workers && OutcomeOf(s.workers[worker], failure).Some?
    ensures var w := s.workers[worker];
            var reply := Finish(s.db, w.job, w.claim.runToken, OutcomeOf(w, failure).value, jitter).1;
            && w.job in s.db.jobs
            && var row := s.db.jobs[w.job];
               reply == if row.state == JobState.Running && row.runToken == Some(worker)
                        then Became(EndState(row, failure)) else Stale
  {
    assert WorkerOk(s.db, worker, s.workers[worker]);
  }

  lemma EndSettles(s: World, worker: Id, failure: Option<Failure>, jitter: nat)
    requires Safe(s) && worker in s.workers && OutcomeOf(s.workers[worker], failure).Some? && jitter <= JITTER_LIMIT
    ensures var w := s.workers[worker];
            var reply := Finish(s.db, w.job, w.claim.runToken, OutcomeOf(w, failure).value, jitter).1;
            Settled(s, Apply(s, End(worker, failure, jitter)).db, worker, failure, reply)
  {
    FinishIsDecided(s, worker, failure, jitter);
    ReplyIsDecided(s, worker, failure, jitter);
  }

  /** The columns a worker checks its object against are those of the row. */
  predicate SeesFile(db: Db, id: Id, seen: Document) {
    id in db.docs ==>
      var doc := db.docs[id];
      seen.size == doc.size && seen.sha256 == doc.sha256 && seen.mime == doc.mime
  }

  /** How the work on a document ends, by the row its worker saw. */
  ghost predicate WorkedOn(
    w: Worker, seen: Document, failure: Option<Failure>, fate: Fate, maxUpload: nat, limits: Extraction.Limits)
  {
    match Judged(maxUpload, fate.parts, seen.size, seen.sha256)
    case Corrupt => failure == Some(Failure(IntegrityError, false)) && w.phase == Opened(seen)
    case Unavailable => failure == Some(Failure(StorageUnavailable, true)) && w.phase == Opened(seen)
    case Intact(content) =>
      if fate.struck.Some? then failure == Some(Reported(fate.struck.value)) && w.phase == Verified(content, seen.mime)
      else if Extraction.Accepted(limits, fate.file) then failure == None && w.phase == Read(TextOf(content, seen.mime))
      else
        && failure.Some?
        && Extraction.Refuses(limits, fate.file, failure.value)
        && w.phase == Verified(content, seen.mime)
  }

  /** How the work of an attempt ends, by what the world outside held for it: a
      cleanup fails exactly if its deletion is not confirmed; an OCR job has nothing
      to do if its document is gone, and else ends by the object, the engine, and
      what struck it, with the text of exactly the bytes it read. */
  ghost predicate Worked(
    db: Db, w: Worker, failure: Option<Failure>, fate: Fate, maxUpload: nat, limits: Extraction.Limits)
  {
    if w.claim.kind.DeleteObject? then
      && failure == (if fate.confirmed then None else Some(Failure(StorageUnavailable, true)))
      && (w.phase.Erased? <==> fate.confirmed)
    else
      || (w.phase.Missing? && w.claim.document !in db.docs && failure.None?)
      || exists seen :: SeesFile(db, w.claim.document, seen) && WorkedOn(w, seen, failure, fate, maxUpload, limits)
  }

  /** What a worker saw of its document is what the row still shows. */
  lemma SeenIsShown(
    s: World, token: Id, seen: Document, failure: Option<Failure>,
    fate: Fate, maxUpload: nat, limits: Extraction.Limits)
    requires Safe(s) && token in s.workers && WorkedOn(s.workers[token], seen, failure, fate, maxUpload, limits)
    ensures SeesFile(s.db, s.workers[token].claim.document, seen)
  {
    assert PhaseOk(s.db, s.workers[token]);
  }

  /** Whether the world outside lets the work of a job succeed, by its document's row:
      the deletion is confirmed, or the document is gone, or the object is what the
      row records, nothing strikes, and the engine's limits accept the file. */
  predicate Allows(db: Db, w: Worker, fate: Fate, maxUpload: nat, limits: Extraction.Limits) {
    if w.claim.kind.DeleteObject? then fate.confirmed
    else w.claim.document in db.docs ==>
      && Judged(maxUpload, fate.parts, db.docs[w.claim.document].size, db.docs[w.claim.document].sha256).Intact?
      && fate.struck.None?
      && Extraction.Accepted(limits, fate.file)
  }

  lemma WorkIsDecided(
    s: World, worker: Id, failure: Option<Failure>, fate: Fate, maxUpload: nat, limits: Extraction.Limits)
    requires worker in s.workers && Worked(s.db, s.workers[worker], failure, fate, maxUpload, limits)
    requires var claim := s.workers[worker].claim; claim.kind.Ocr? ==> claim.document in s.db.docs
    ensures failure.None? <==> Allows(s.db, s.workers[worker], fate, maxUpload, limits)
    ensures var w := s.workers[worker];
            failure.None? && w.claim.kind.Ocr? ==>
              var doc := s.db.docs[w.claim.document];
              w.phase == Read(TextOf(Judged(maxUpload, fate.parts, doc.size, doc.sha256).content, doc.mime))
  {
    var w := s.workers[worker];
    if w.claim.kind.Ocr? {
      var seen :| SeesFile(s.db, w.claim.document, seen) && WorkedOn(w, seen, failure, fate, maxUpload, limits);
    }
  }

  /** A worker still holding its row that finishes as its work ended: the job
      succeeds exactly if the world outside allowed it, and a document then shows the
      text of exactly the bytes it is recorded with. */
  lemma WorkIsSettled(
    s: World, after: Db, worker: Id, failure: Option<Failure>, reply: Reply,
    fate: Fate, maxUpload: nat, limits: Extraction.Limits)
    requires Safe(s) && worker in s.workers && Holds(s.db, s.workers[worker].job, Some(worker))
    requires Worked(s.db, s.workers[worker], failure, fate, maxUpload, limits)
    requires Settled(s, after, worker, failure, reply)
    requires var claim := s.workers[worker].claim; claim.kind.Ocr? ==> claim.document in s.db.docs
    ensures var w := s.workers[worker];
            var allowed := Allows(s.db, w, fate, maxUpload, limits);
            && (reply == Became(JobState.Succeeded) <==> allowed)
            && w.job in after.jobs
            && (after.jobs[w.job].state == JobState.Succeeded <==> allowed)
            && (!allowed ==> failure.Some? && after.jobs[w.job].errorCode == failure.value.code)
            && (w.claim.kind.Ocr? ==>
                  && w.claim.document in after.docs
                  && (after.docs[w.claim.document].status == Status.Succeeded <==> allowed)
                  && (allowed ==>
                        var doc := s.db.docs[w.claim.document];
                        after.docs[w.claim.document].text
                        == TextOf(Judged(maxUpload, fate.parts, doc.size, doc.sha256).content, doc.mime)))
  {
    assert WorkerOk(s.db, worker, s.workers[worker]);
    WorkIsDecided(s, worker, failure, fate, maxUpload, limits);
  }

  lemma FinishReleases(s: World, token: Id, failure: Option<Failure>, jitter: nat)
    requires Safe(s) && token in s.workers && OutcomeOf(s.workers[token], failure).Some?
    ensures var w := s.workers[token];
            var (after, reply) := Finish(s.db, w.job, w.claim.runToken, OutcomeOf(w, failure).value, jitter);
            && after.nextId == s.db.nextId
            && !Holds(after, w.job, w.claim.runToken)
            && (reply == Became(JobState.Succeeded) && w.claim.kind.Ocr? && w.claim.document in after.docs ==>
                  after.docs[w.claim.document].status == Status.Succeeded)
  {
    assert WorkerOk(s.db, token, s.workers[token]);
  }

  lemma EndReturns(s: World, token: Id, failure: Option<Failure>, jitter: nat)
    requires token in s.workers && OutcomeOf(s.workers[token], failure).Some?
    ensures var w := s.workers[token];
            var after := Apply(s, End(token, failure, jitter));
            && after.db == Finish(s.db, w.job, w.claim.runToken, OutcomeOf(w, failure).value, jitter).0
            && token in after.workers
            && after.workers[token] == w.(returned := true)
  {}

  lemma EndReleases(s: World, token: Id, failure: Option<Failure>, jitter: nat)
    requires Safe(s) && token in s.workers && OutcomeOf(s.workers[token], failure).Some?
    requires token < s.db.nextId
    ensures var w := s.workers[token];
            var reply := Finish(s.db, w.job, w.claim.runToken, OutcomeOf(w, failure).value, jitter).1;
            Returned(Apply(s, End(token, failure, jitter)), token, w.job, w.claim, reply)
  {
    var w := s.workers[token];
    var after := Apply(s, End(token, failure, jitter)).db;
    SafetyKept(s, End(token, failure, jitter));
    EndReturns(s, token, failure, jitter);
    FinishReleases(s, token, failure, jitter);
    assert w.claim.document in after.docs ==> ResultOk(after.docs[w.claim.document]);
  }

  /** How create_document answers: a new document, the one already there, a
      conflict, or a failure. */
  datatype Answered = Made(id: Id) | Found(id: Id) | Conflicted | Broken

  /** An upload of the given request under the given identifier. */
  predicate Uploads(s: World, id: Id, request: Request) {
    && id < s.db.nextId
    && id in s.uploads
    && s.uploads[id].request == request
    && s.uploads[id].key == StorageKey(request.owner, id, id + 1)
  }

  predicate UploadOver(s: World, id: Id, request: Request) {
    Uploads(s, id, request) && !Open(s.uploads[id].progress)
  }

  predicate Matches(db: Db, request: Request, id: Id) {
    Names(db, request, id) && db.docs[id].fingerprint == FingerprintOf(request)
  }

  predicate Due(db: Db, job: Id, key: StorageKey)
    requires job in db.jobs
  {
    && db.jobs[job].kind == DeleteObject(key)
    && db.jobs[job].availableAt <= db.now
    && (db.jobs[job].state == JobState.Pending || db.jobs[job].runToken.Some? || Born(db.audit, key.document))
  }

  /** A cleanup job for the key, due and still pending unless it has been claimed, or
      unless the upload's document was made after all. */
  predicate CleanupDue(db: Db, key: StorageKey) {
    exists job :: job in db.jobs && Due(db, job, key)
  }

  lemma ReplayMatches(db: Db, request: Request)
    ensures ReplayOf(db, request).Existing? ==> Matches(db, request, ReplayOf(db, request).document)
  {}

  lemma ExpediteMakesDue(s: World, id: Id, request: Request)
    requires Structured(s) && Uploads(s, id, request) && s.uploads[id].progress.Abandoned?
    ensures UploadOver(Apply(s, ExpediteIntent(id)), id, request)
    ensures CleanupDue(Apply(s, ExpediteIntent(id)).db, StorageKey(request.owner, id, id + 1))
    ensures Apply(s, ExpediteIntent(id)).db.docs == s.db.docs
  {
    assert UploadFits(s.db, id, s.uploads[id]);
    var intent := s.uploads[id].progress.intent;
    var after := Apply(s, ExpediteIntent(id)).db;
    assert intent in after.jobs && Due(after, intent, s.uploads[id].key);
  }

  /** A document as its upload makes it, with an OCR job waiting for it. */
  ghost predicate NewlyMade(db: Db, id: Id, request: Request) {
    && id in db.docs
    && db.docs[id] == NewDocument(request, StorageKey(request.owner, id, id + 1))
    && exists job :: job in db.jobs && db.jobs[job] == OcrJob(id, db.now)
  }

  function AnswerOf(replay: Replay, id: Id, acknowledged: bool): Answered {
    if replay.Conflicting? then Conflicted
    else if !acknowledged then Broken
    else if replay.Unused? then Made(id)
    else Found(replay.document)
  }

  /** What an answer says: the new document or the matching one is there, or the
      upload is left for cleanup. */
  ghost predicate Honoured(s: World, id: Id, request: Request, answer: Answered) {
    && UploadOver(s, id, request)
    && match answer
       case Made(made) => made == id && NewlyMade(s.db, id, request)
       case Found(found) => Matches(s.db, request, found)
       case Conflicted => s.uploads[id].progress.Abandoned? && id !in s.db.docs
       case Broken => s.uploads[id].progress.Abandoned?
  }

  /** How the closing transaction of an upload is answered: as broken if it does not
      commit; as in conflict, or with the document found, if the key is taken; and
      with the document made if it is not, unless the success is lost. */
  ghost predicate ClosedAs(db: Db, id: Id, request: Request, fate: UploadFate, answer: Answered) {
    if !fate.committed then answer == Broken
    else
      match ReplayOf(db, request)
      case Conflicting => answer == Conflicted
      case Existing(found) => answer == if fate.acknowledged then Found(found) else Broken
      case Unused => answer == if fate.acknowledged then Made(id) else Broken
  }

  lemma CommitIsHonoured(s: World, id: Id, request: Request, acknowledged: bool)
    requires Structured(s) && Uploads(s, id, request) && At(s, id, true)
    ensures Honoured(Apply(s, CommitUpload(id, acknowledged)), id, request,
                     AnswerOf(ReplayOf(s.db, request), id, acknowledged))
  {
    ReplayMatches(s.db, request);
    assert UploadFits(s.db, id, s.uploads[id]);
    var after := Apply(s, CommitUpload(id, acknowledged)).db;
    assert ReplayOf(s.db, request).Unused? ==>
        s.db.nextId in after.jobs && after.jobs[s.db.nextId] == OcrJob(id, after.now);
  }

  lemma DeliverStarts(s: World, job: Id)
    requires UploadsFit(s) && Claim(s.db, job).1.Some?
    ensures var claim := Claim(s.db, job).1.value;
            var after := Apply(s, Step.Deliver(job));
            && claim.runToken == Some(s.db.nextId)
            && AtWork(after, s.db.nextId, job, claim)
            && after.workers[s.db.nextId].phase.Claimed?
  {}

  lemma StoredIsReady(s: World, upload: Id)
    requires Safe(s)
    ensures KeysUnique(s.db)
    ensures At(s, upload, true) ==> s.uploads[upload].progress.intent in s.db.jobs
  {
    if At(s, upload, true) {
      assert UploadFits(s.db, upload, s.uploads[upload]);
    }
  }

  /** The closing transaction and what its process notes of it are one step. */
  lemma CommitIsStep(s: World, after: World, upload: Id, acknowledged: bool, db: Db, replay: Replay)
    requires At(s, upload, true)
    requires var u := s.uploads[upload]; (db, replay) == Commit(s.db, upload, u.request, u.key, u.progress.intent)
    requires var u := s.uploads[upload];
             var progress := if acknowledged && !replay.Conflicting? then Closed else Abandoned(u.progress.intent);
             after == Progressed(s, upload, progress).(db := db)
    ensures after == Apply(s, CommitUpload(upload, acknowledged))
    ensures replay == ReplayOf(s.db, s.uploads[upload].request)
  {}

  /** An upload that is over without a document never gets one. */
  lemma StaysUnmade(s: World, run: seq<Step>, id: Id)
    requires Safe(s) && id < s.db.nextId && id in s.uploads && !Open(s.uploads[id].progress)
    ensures id !in s.db.docs ==> id !in Exec(s, run).db.docs
  {
    if id !in s.db.docs {
      RetiredForever(s, run, id);
    }
  }

  class System {
    const database: Database
    const maxUpload: nat
    const limits: Extraction.Limits
    var objects: map<StorageKey, Bytes>
    var workers: map<Id, Worker>
    var uploads: map<Id, Upload>

    ghost function View(): World
      reads this, database
    {
      World(database.View(), objects, workers, uploads)
    }

    ghost predicate Valid()
      reads this, database
    {
      Safe(View())
    }

    /** A run of the protocol led here, and left the state valid. */
    ghost predicate Ran(start: World, run: seq<Step>)
      reads this, database
    {
      Valid() && View() == Exec(start, run) && forall step | step in run :: Possible(step)
    }

    constructor (now: Time, maxUpload: nat, limits: Extraction.Limits)
      ensures Valid() && View() == Initial(now) && fresh(database)
      ensures this.maxUpload == maxUpload && this.limits == limits
    {
      this.limits := limits;
      database := new Database(now);
      this.maxUpload := maxUpload;
      objects, workers, uploads := map[], map[], map[];
      new;
      InitialIsSafe(now);
    }

    method Tick(elapsed: nat)
      modifies database
      ensures View() == Apply(old(View()), Step.Tick(elapsed))
    {
      database.clock := database.clock + elapsed;
    }

    method Deliver(job: Id) returns (claim: Option<Job>)
      modifies this`workers, database
      ensures View() == Apply(old(View()), Step.Deliver(job))
      ensures claim == Jobs.Claim(old(database.View()), job).1
    {
      var token := database.nextId;
      claim := database.Claim(job);
      if claim.Some? {
        workers := workers[token := Worker(job, claim.value, Claimed, false)];
      }
    }

    method Advance(worker: Id, phase: Phase)
      requires worker in workers
      modifies this`workers
      ensures View() == Reach(old(View()), worker, phase)
    {
      workers := workers[worker := workers[worker].(phase := phase)];
    }

    method ReadRow(worker: Id)
      modifies this`workers
      ensures View() == Apply(old(View()), Step.ReadRow(worker))
    {
      if && worker in workers
         && !workers[worker].returned
         && workers[worker].claim.kind.Ocr?
         && workers[worker].phase.Claimed?
      {
        var document := workers[worker].claim.document;
        Advance(worker, if document in database.documents then Opened(database.documents[document]) else Missing);
      }
    }

    method Fetch(worker: Id, content: Bytes)
      modifies this`workers
      ensures View() == Apply(old(View()), Step.Fetch(worker, content))
    {
      if worker in workers && !workers[worker].returned && workers[worker].phase.Opened? {
        var document := workers[worker].phase.document;
        if |content| == document.size && Sha256(content) == document.sha256 {
          Advance(worker, Verified(content, document.mime));
        }
      }
    }

    method Extract(worker: Id)
      modifies this`workers
      ensures View() == Apply(old(View()), Step.Extract(worker))
    {
      if worker in workers && !workers[worker].returned && workers[worker].phase.Verified? {
        Advance(worker, Read(TextOf(workers[worker].phase.content, workers[worker].phase.mime)));
      }
    }

    method Erase(worker: Id, effective: bool, confirmed: bool)
      modifies this`workers, this`objects
      ensures View() == Apply(old(View()), Step.Erase(worker, effective, confirmed))
    {
      if worker in workers && workers[worker].claim.kind.DeleteObject? && workers[worker].phase.Claimed? {
        if effective || confirmed {
          objects := objects - {workers[worker].claim.kind.key};
        }
        if confirmed && !workers[worker].returned {
          Advance(worker, Erased);
        }
      }
    }

    method End(worker: Id, failure: Option<Failure>, jitter: nat) returns (reply: Reply)
      requires worker in workers ==> workers[worker].job in database.jobs
      modifies this`workers, database
      ensures View() == Apply(old(View()), Step.End(worker, failure, jitter))
      ensures old(worker in workers && OutcomeOf(workers[worker], failure).Some?) ==>
                var w := old(workers[worker]);
                var outcome := OutcomeOf(w, failure).value;
                reply == Jobs.Finish(old(database.View()), w.job, w.claim.runToken, outcome, jitter).1
    {
      reply := Stale;
      if worker in workers {
        var w := workers[worker];
        var outcome := OutcomeOf(w, failure);
        if outcome.Some? {
          reply := database.Finish(w.job, w.claim.runToken, outcome.value, jitter);
          workers := workers[worker := w.(returned := true)];
        }
      }
    }

    method RecoverLease(job: Id, jitter: nat)
      modifies database
      ensures View() == Apply(old(View()), Step.RecoverLease(job, jitter))
    {
      if database.StillExpired(job) {
        database.RecoverOne(job, jitter);
      }
    }

    method Dispatch(jobs: set<Id>)
      modifies database
      ensures View() == Apply(old(View()), Step.Dispatch(jobs))
    {
      database.StampJobs(jobs);
    }

    method RearmCleanup(job: Id)
      modifies database
      ensures View() == Apply(old(View()), Step.RearmCleanup(job))
    {
      var _ := database.RetryCleanup(job);
    }

    /** The first idempotency check, then an identifier and a storage key. */
    method Begin(request: Request) returns (replay: Replay, id: Id)
      requires Valid()
      modifies this`uploads, database
      ensures View() == Apply(old(View()), Step.Begin(request))
      ensures replay == ReplayOf(old(database.View()), request) && id == old(database.nextId)
    {
      id := database.nextId;
      replay := database.Replay(request);
      if replay.Unused? {
        var _ := database.Fresh();
        var nonce := database.Fresh();
        uploads := uploads[id := Upload(request, StorageKey(request.owner, id, nonce), Begun)];
      }
    }

    method Progress(upload: Id, progress: Progress)
      requires upload in uploads
      modifies this`uploads
      ensures View() == Progressed(old(View()), upload, progress)
    {
      uploads := uploads[upload := uploads[upload].(progress := progress)];
    }

    method DeclareIntent(upload: Id)
      modifies this`uploads, database
      ensures View() == Apply(old(View()), Step.DeclareIntent(upload))
    {
      if upload in uploads && uploads[upload].progress.Begun? {
        var intent := database.DeclareIntent(upload, uploads[upload].key);
        Progress(upload, Intended(intent, database.clock + UPLOAD_GRACE));
      }
    }

    method Store(upload: Id, effective: bool, confirmed: bool)
      modifies this`uploads, this`objects
      ensures View() == Apply(old(View()), Step.Store(upload, effective, confirmed))
    {
      if upload in uploads && uploads[upload].progress.Intended? {
        var u := uploads[upload];
        if effective || confirmed {
          objects := objects[u.key := u.request.content];
        }
        Progress(upload, if confirmed then Stored(u.progress.intent, u.progress.due) else Abandoned(u.progress.intent));
      }
    }

    method CommitUpload(upload: Id, acknowledged: bool) returns (replay: Replay)
      requires Valid()
      modifies this`uploads, database
      ensures View() == Apply(old(View()), Step.CommitUpload(upload, acknowledged))
      ensures old(At(View(), upload, true)) ==> replay == ReplayOf(old(database.View()), old(uploads[upload].request))
    {
      replay := Unused;
      ghost var start := View();
      StoredIsReady(start, upload);
      if upload in uploads && uploads[upload].progress.Stored? {
        var u := uploads[upload];
        replay := database.CommitUpload(upload, u.request, u.key, u.progress.intent);
        ghost var db := database.View();
        Progress(upload, if acknowledged && !replay.Conflicting? then Closed else Abandoned(u.progress.intent));
        CommitIsStep(start, View(), upload, acknowledged, db, replay);
      }
    }

    method Abort(upload: Id)
      modifies this`uploads
      ensures View() == Apply(old(View()), Step.Abort(upload))
    {
      if upload in uploads && (uploads[upload].progress.Intended? || uploads[upload].progress.Stored?) {
        Progress(upload, Abandoned(uploads[upload].progress.intent));
      }
    }

    method ExpediteIntent(upload: Id)
      modifies this`uploads, database
      ensures View() == Apply(old(View()), Step.ExpediteIntent(upload))
    {
      if upload in uploads && uploads[upload].progress.Abandoned? {
        database.Expedite(uploads[upload].progress.intent);
        Progress(upload, Closed);
      }
    }

    method PatchDocument(id: Id, caller: Caller, header: Option<string>, data: Metadata) returns (response: Response)
      modifies database
      ensures View() == Apply(old(View()), Step.PatchDocument(id, caller, header, data))
      ensures response == Patch(old(database.View()), id, caller, header, data).1
    {
      response := database.UpdateDocument(id, caller, header, data);
    }

    method DeleteDocument(id: Id, caller: Caller, header: Option<string>) returns (response: Response)
      modifies database
      ensures View() == Apply(old(View()), Step.DeleteDocument(id, caller, header))
      ensures response == Delete(old(database.View()), id, caller, header).1
    {
      response := database.DeleteDocument(id, caller, header);
    }

    method ReprocessDocument(id: Id, caller: Caller, header: Option<string>) returns (response: Response)
      modifies database
      ensures View() == Apply(old(View()), Step.ReprocessDocument(id, caller, header))
      ensures response == Reprocess(old(database.View()), id, caller, header).1
    {
      response := database.ReprocessDocument(id, caller, header);
    }

    /** Any step of any process. */
    method Perform(step: Step)
      requires Valid()
      modifies this, database
      ensures Valid() && View() == Apply(old(View()), step)
    {
      SafetyKept(View(), step);
      match step {
        case Tick(elapsed) => Tick(elapsed);
        case Deliver(job) => var _ := Deliver(job);
        case ReadRow(worker) => ReadRow(worker);
        case Fetch(worker, content) => Fetch(worker, content);
        case Extract(worker) => Extract(worker);
        case Erase(worker, effective, confirmed) => Erase(worker, effective, confirmed);
        case End(worker, failure, jitter) =>
          assert worker in workers ==> WorkerOk(database.View(), worker, workers[worker]);
          var _ := End(worker, failure, jitter);
        case RecoverLease(job, jitter) => RecoverLease(job, jitter);
        case Dispatch(jobs) => Dispatch(jobs);
        case RearmCleanup(job) => RearmCleanup(job);
        case Begin(request) => var _, _ := Begin(request);
        case DeclareIntent(upload) => DeclareIntent(upload);
        case Store(upload, effective, confirmed) => Store(upload, effective, confirmed);
        case CommitUpload(upload, acknowledged) => var _ := CommitUpload(upload, acknowledged);
        case Abort(upload) => Abort(upload);
        case ExpediteIntent(upload) => ExpediteIntent(upload);
        case PatchDocument(document, caller, header, data) => var _ := PatchDocument(document, caller, header, data);
        case DeleteDocument(document, caller, header) => var _ := DeleteDocument(document, caller, header);
        case ReprocessDocument(document, caller, header) => var _ := ReprocessDocument(document, caller, header);
      }
    }

    /** Any run of the other processes, between two steps of one's own. */
    method Interfere(mine: Option<Id>) returns (others: seq<Step>)
      requires Valid()
      modifies this, database
      ensures Ran(old(View()), others)
      ensures mine.Some? ==> forall step | step in others :: !TakenBy(step, mine.value)
    {
      others := [];
      var wanted: seq<Step> := *;
      ghost var start := View();
      for i := 0 to |wanted|
        invariant Ran(start, others)
        invariant mine.Some? ==> forall step | step in others :: !TakenBy(step, mine.value)
      {
        var step := wanted[i];
        if Possible(step) && (mine.None? || !TakenBy(step, mine.value)) {
          OneStepMore(start, others, step);
          Perform(step);
          others := others + [step];
        }
      }
    }

    /** Take one's own step, and let the other processes act until the next. */
    method Do(mine: Id, step: Step) returns (ghost run: seq<Step>)
      requires Valid() && mine < database.nextId && Possible(step)
      modifies this, database
      ensures Ran(old(View()), run)
      ensures mine < database.nextId && LeftAlone(Apply(old(View()), step), View(), mine)
    {
      ghost var start := View();
      OneStepMore(start, [], step);
      StepMoves(start, step);
      Perform(step);
      ghost var others := Interfere(Some(mine));
      OthersRun(Apply(start, step), others, mine);
      RunsOn(start, [step], others);
      run := [step] + others;
    }

    /** A cleanup worker's deletion, confirmed or failed. */
    method EraseObject(token: Id, job: Id, claim: Job, fate: Fate)
      returns (failure: Option<Failure>, ghost run: seq<Step>)
      requires Valid() && AtWork(View(), token, job, claim)
      requires claim.kind.DeleteObject? && workers[token].phase.Claimed?
      modifies this, database
      ensures Ran(old(View()), run) && AtWork(View(), token, job, claim)
      ensures Worked(database.View(), workers[token], failure, fate, maxUpload, limits)
      ensures OutcomeOf(workers[token], failure).Some?
    {
      run := Do(token, Step.Erase(token, fate.effective, fate.confirmed));
      failure := if fate.confirmed then None else Some(STORAGE_DOWN);
    }

    method SeeRow(token: Id, job: Id, claim: Job) returns (document: Option<Document>, ghost run: seq<Step>)
      requires Valid() && AtWork(View(), token, job, claim)
      requires claim.kind.Ocr? && workers[token].phase.Claimed?
      modifies this, database
      ensures Ran(old(View()), run) && AtWork(View(), token, job, claim)
      ensures document.Some? <==> claim.document in old(database.documents)
      ensures workers[token].phase == if document.Some? then Opened(document.value) else Missing
    {
      run := Do(token, Step.ReadRow(token));
      document := if workers[token].phase.Missing? then None else Some(workers[token].phase.document);
    }

    method TakeContent(token: Id, job: Id, claim: Job, content: Bytes) returns (ghost run: seq<Step>)
      requires Valid() && AtWork(View(), token, job, claim) && workers[token].phase.Opened?
      requires var document := workers[token].phase.document;
               |content| == document.size && Sha256(content) == document.sha256
      modifies this, database
      ensures Ran(old(View()), run) && AtWork(View(), token, job, claim)
      ensures workers[token].phase == Verified(content, old(workers[token].phase.document).mime)
    {
      run := Do(token, Step.Fetch(token, content));
    }

    method TakeText(token: Id, job: Id, claim: Job) returns (ghost run: seq<Step>)
      requires Valid() && AtWork(View(), token, job, claim) && workers[token].phase.Verified?
      modifies this, database
      ensures Ran(old(View()), run) && AtWork(View(), token, job, claim)
      ensures var before := old(workers[token].phase);
              workers[token].phase == Read(TextOf(before.content, before.mime))
    {
      run := Do(token, Step.Extract(token));
    }

    /** Read and check the stored object.  Only the row's content passes; other
        content is damage for good, a fault may pass. */
    method ReadObject(token: Id, job: Id, claim: Job, document: Document, fate: Fate)
      returns (failure: Option<Failure>, ghost run: seq<Step>)
      requires Valid() && AtWork(View(), token, job, claim) && workers[token].phase == Opened(document)
      modifies this, database
      ensures Ran(old(View()), run) && AtWork(View(), token, job, claim)
      ensures match Judged(maxUpload, fate.parts, document.size, document.sha256)
              case Intact(content) => failure == None && workers[token].phase == Verified(content, document.mime)
              case Corrupt =>
                failure == Some(Failure(IntegrityError, false)) && workers[token].phase == Opened(document)
              case Unavailable =>
                failure == Some(Failure(StorageUnavailable, true)) && workers[token].phase == Opened(document)
    {
      var original := ReadOriginal(maxUpload, fate.parts, document.size, document.sha256);
      match original {
        case Corrupt => failure, run := Some(CORRUPT), [];
        case Unavailable => failure, run := Some(STORAGE_DOWN), [];
        case Intact(content) =>
          failure := None;
          run := TakeContent(token, job, claim, content);
      }
    }

    /** Extract the text, unless extraction refuses the file or something strikes it. */
    method ExtractText(token: Id, job: Id, claim: Job, fate: Fate)
      returns (failure: Option<Failure>, ghost run: seq<Step>)
      requires Valid() && AtWork(View(), token, job, claim) && workers[token].phase.Verified?
      modifies this, database
      ensures Ran(old(View()), run) && AtWork(View(), token, job, claim)
      ensures OutcomeOf(workers[token], failure).Some?
      ensures if fate.struck.Some? then failure == Some(Reported(fate.struck.value))
              else if Extraction.Accepted(limits, fate.file) then
                && failure == None
                && var before := old(workers[token].phase);
                   workers[token].phase == Read(TextOf(before.content, before.mime))
              else
                && failure.Some?
                && Extraction.Refuses(limits, fate.file, failure.value)
      ensures failure.Some? ==> workers[token].phase == old(workers[token].phase)
    {
      run := [];
      if fate.struck.Some? {
        return Some(Reported(fate.struck.value)), run;
      }
      var extraction := Extraction.Extract(limits, fate.file);
      match extraction {
        case Refused(reason) => failure := Some(reason);
        case Complete(_, _) =>
          failure := None;
          run := TakeText(token, job, claim);
      }
    }

    method ReadText(token: Id, job: Id, claim: Job, document: Document, fate: Fate)
      returns (failure: Option<Failure>, ghost run: seq<Step>)
      requires Valid() && AtWork(View(), token, job, claim) && workers[token].phase == Opened(document)
      modifies this, database
      ensures Ran(old(View()), run) && AtWork(View(), token, job, claim)
      ensures WorkedOn(workers[token], document, failure, fate, maxUpload, limits)
      ensures SeesFile(database.View(), claim.document, document)
      ensures OutcomeOf(workers[token], failure).Some?
    {
      ghost var start := View();
      failure, run := ReadObject(token, job, claim, document, fate);
      if failure.None? {
        ghost var more;
        failure, more := ExtractText(token, job, claim, fate);
        RunsOn(start, run, more);
        run := run + more;
      }
      SeenIsShown(View(), token, document, failure, fate, maxUpload, limits);
    }

    /** An OCR worker's reading of the row, the object and the text in it. */
    method ReadDocument(token: Id, job: Id, claim: Job, fate: Fate)
      returns (failure: Option<Failure>, ghost run: seq<Step>)
      requires Valid() && AtWork(View(), token, job, claim)
      requires claim.kind.Ocr? && workers[token].phase.Claimed?
      modifies this, database
      ensures Ran(old(View()), run) && AtWork(View(), token, job, claim)
      ensures Worked(database.View(), workers[token], failure, fate, maxUpload, limits)
      ensures OutcomeOf(workers[token], failure).Some?
    {
      ghost var start := View();
      var document;
      document, run := SeeRow(token, job, claim);
      failure := None;
      if document.Some? {
        ghost var more;
        failure, more := ReadText(token, job, claim, document.value, fate);
        RunsOn(start, run, more);
        run := run + more;
      } else {
        assert PhaseOk(database.View(), workers[token]);
      }
    }

    /** One call of finish. */
    method Return(token: Id, job: Id, claim: Job, failure: Option<Failure>) returns (reply: Reply, ghost run: seq<Step>)
      requires Valid() && Owns(View(), token, job, claim) && OutcomeOf(workers[token], failure).Some?
      modifies this, database
      ensures Ran(old(View()), run) && Returned(View(), token, job, claim, reply)
      ensures Settled(old(View()), database.View(), token, failure, reply)
    {
      ghost var start := View();
      var jitter: nat :| jitter <= JITTER_LIMIT;
      run := [Step.End(token, failure, jitter)];
      OneStepMore(start, [], run[0]);
      EndReleases(start, token, failure, jitter);
      EndSettles(start, token, failure, jitter);
      assert WorkerOk(database.View(), token, workers[token]);
      reply := End(token, failure, jitter);
    }

    /** A call of finish that raises, having committed or not; then the others act. */
    method ReturnInVain(token: Id, job: Id, claim: Job, failure: Option<Failure>, committed: bool)
      returns (ghost run: seq<Step>)
      requires Valid() && Owns(View(), token, job, claim) && OutcomeOf(workers[token], failure).Some?
      modifies this, database
      ensures Ran(old(View()), run) && Owns(View(), token, job, claim)
      ensures committed ==> !Holds(database.View(), job, claim.runToken)
    {
      ghost var start := View();
      run := [];
      if committed {
        var _, once := Return(token, job, claim, failure);
        run := once;
      }
      ghost var middle := View();
      ghost var others := Interfere(Some(token));
      OthersRun(middle, others, token);
      assert WorkerOk(middle.db, token, middle.workers[token]);
      RunKeepsRelease(middle, others, job, token);
      RunsOn(start, run, others);
      run := run + others;
    }

    /** The end of run_job: finish, which settles the row as the work ended; if it
        raises, and there was no failure to report, the exception handler's finish,
        in a later state: the row is free there if the first had committed. */
    method Conclude(token: Id, job: Id, claim: Job, failure: Option<Failure>, fate: Fate)
      returns (answer: Answer, ghost last: World, ghost run: seq<Step>)
      requires Valid() && AtWork(View(), token, job, claim) && OutcomeOf(workers[token], failure).Some?
      modifies this, database
      ensures Ran(old(View()), run) && Owns(View(), token, job, claim)
      ensures answer.Replied? ==> Returned(View(), token, job, claim, answer.reply)
      ensures if fate.raises && failure.Some? then answer.Raised? else answer.Replied?
      ensures OnTheWay(old(View()), run, last)
      ensures if fate.raises then fate.committed ==> !Holds(last.db, job, claim.runToken) else last == old(View())
      ensures answer.Replied? ==>
                var report := if fate.raises then Some(Reported(fate.raised)) else failure;
                Settled(last, database.View(), token, report, answer.reply)
    {
      ghost var start := View();
      last := start;
      var reply;
      if !fate.raises {
        reply, run := Return(token, job, claim, failure);
        EndsOnTheWay(start, [], run);
        return Replied(reply), last, run;
      }
      run := ReturnInVain(token, job, claim, failure, fate.committed);
      last := View();
      EndsOnTheWay(start, run, []);
      if failure.Some? {
        return Raised, last, run;
      }
      ghost var more;
      reply, more := Return(token, job, claim, Some(Reported(fate.raised)));
      RunsOn(start, run, more);
      EndsOnTheWay(start, run, more);
      answer, run := Replied(reply), run + more;
    }

    /** The claim of run_job; then the others act. */
    method Start(job: Id) returns (claim: Option<Job>, ghost run: seq<Step>)
      requires Valid()
      modifies this, database
      ensures Ran(old(View()), run) && claim == Jobs.Claim(old(database.View()), job).1
      ensures claim.None? ==> workers == old(workers)
      ensures claim.Some? ==>
                && claim.value.runToken == Some(old(database.nextId))
                && AtWork(View(), old(database.nextId), job, claim.value)
                && workers[old(database.nextId)].phase.Claimed?
    {
      ghost var start := View();
      var token := database.nextId;
      run := [Step.Deliver(job)];
      OneStepMore(start, [], run[0]);
      claim := Deliver(job);
      if claim.Some? {
        DeliverStarts(start, job);
        ghost var middle := View();
        ghost var others := Interfere(Some(token));
        OthersRun(middle, others, token);
        RunsOn(start, run, others);
        run := run + others;
      }
    }

    /** run_job, with every other process acting between any two of its steps: a
        run of the protocol, up to and after its finish.  The work ends as the world
        outside decides, and a finish that does not raise settles the row by that;
        after any answer the worker is done with its row. */
    method RunJob(job: Id, fate: Fate)
      returns (answer: Answer, ghost failure: Option<Failure>, ghost worked: World, ghost last: World,
               ghost run: seq<Step>)
      requires Valid()
      modifies this, database
      ensures Ran(old(View()), run)
      ensures match Jobs.Claim(old(database.View()), job).1
              case None => answer.Skipped? && workers == old(workers)
              case Some(claim) =>
                var token := old(database.nextId);
                && claim.runToken == Some(token)
                && OnTheWay(old(View()), run, worked)
                && OnTheWay(old(View()), run, last)
                && AtWork(worked, token, job, claim)
                && Worked(worked.db, worked.workers[token], failure, fate, maxUpload, limits)
                && Owns(View(), token, job, claim)
                && (if fate.raises && failure.Some? then answer.Raised? else answer.Replied?)
                && (answer.Replied? ==> Returned(View(), token, job, claim, answer.reply))
                && (if fate.raises then fate.committed ==> !Holds(last.db, job, claim.runToken) else last == worked)
                && (answer.Replied? ==>
                      var report := if fate.raises then Some(Reported(fate.raised)) else failure;
                      Settled(last, database.View(), token, report, answer.reply))
    {
      ghost var start := View();
      var token := database.nextId;
      var claimed;
      claimed, run := Start(job);
      failure, worked, last := None, View(), View();
      if claimed.None? {
        answer := Skipped;
        return;
      }
      var claim := claimed.value;
      var ending;
      ghost var more;
      if claim.kind.DeleteObject? {
        ending, more := EraseObject(token, job, claim, fate);
      } else {
        ending, more := ReadDocument(token, job, claim, fate);
      }
      RunsOn(start, run, more);
      run, failure, worked := run + more, ending, View();
      answer, last, more := Conclude(token, job, claim, ending, fate);
      RunsOn(start, run, more);
      EndsOnTheWay(start, run, more);
      StillOnTheWay(start, run, more, last);
      run := run + more;
    }

    /** The first idempotency check; an upload that passes lets the others act. */
    method BeginUpload(request: Request) returns (replay: Replay, id: Id, ghost run: seq<Step>)
      requires Valid()
      modifies this, database
      ensures Ran(old(View()), run) && id == old(database.nextId)
      ensures replay == ReplayOf(old(database.View()), request)
      ensures !replay.Unused? ==> View() == old(View())
      ensures replay.Existing? ==> Matches(database.View(), request, replay.document)
      ensures replay.Unused? ==> Uploads(View(), id, request) && uploads[id].progress.Begun?
    {
      ghost var start := View();
      run := [Step.Begin(request)];
      OneStepMore(start, [], run[0]);
      ReplayMatches(start.db, request);
      replay, id := Begin(request);
      if replay.Unused? {
        ghost var middle := View();
        ghost var others := Interfere(Some(id));
        OthersRun(middle, others, id);
        RunsOn(start, run, others);
        run := run + others;
      }
    }

    method Declare(id: Id, request: Request) returns (ghost run: seq<Step>)
      requires Valid() && Uploads(View(), id, request) && uploads[id].progress.Begun?
      modifies this, database
      ensures Ran(old(View()), run) && Uploads(View(), id, request) && uploads[id].progress.Intended?
    {
      run := Do(id, Step.DeclareIntent(id));
    }

    /** Store the object; the store may keep it and still fail. */
    method Save(id: Id, request: Request, fate: UploadFate) returns (ghost run: seq<Step>)
      requires Valid() && Uploads(View(), id, request) && uploads[id].progress.Intended?
      modifies this, database
      ensures Ran(old(View()), run) && Uploads(View(), id, request)
      ensures if fate.saved then uploads[id].progress.Stored? else uploads[id].progress.Abandoned?
    {
      run := Do(id, Step.Store(id, fate.effective, fate.saved));
    }

    method RollBack(id: Id, request: Request) returns (ghost run: seq<Step>)
      requires Valid() && Uploads(View(), id, request) && uploads[id].progress.Stored?
      modifies this, database
      ensures Ran(old(View()), run) && Uploads(View(), id, request) && uploads[id].progress.Abandoned?
    {
      run := Do(id, Step.Abort(id));
    }

    /** The closing transaction, and what its caller sees of it; it may be rolled
        back, and its success may be lost. */
    method Close(id: Id, request: Request, fate: UploadFate) returns (answer: Answered, ghost run: seq<Step>)
      requires Valid() && Uploads(View(), id, request) && uploads[id].progress.Stored?
      modifies this, database
      ensures Ran(old(View()), run) && Honoured(View(), id, request, answer)
      ensures ClosedAs(old(database.View()), id, request, fate, answer)
    {
      ghost var start := View();
      if fate.committed {
        run := [Step.CommitUpload(id, fate.acknowledged)];
        OneStepMore(start, [], run[0]);
        CommitIsHonoured(start, id, request, fate.acknowledged);
        var replay := CommitUpload(id, fate.acknowledged);
        answer := AnswerOf(replay, id, fate.acknowledged);
      } else {
        run := RollBack(id, request);
        answer := Broken;
      }
    }

    method AwaitOthers(id: Id, request: Request) returns (ghost run: seq<Step>)
      requires Valid() && Uploads(View(), id, request) && uploads[id].progress.Abandoned?
      modifies this, database
      ensures Ran(old(View()), run) && Uploads(View(), id, request) && uploads[id].progress.Abandoned?
      ensures old(id !in database.documents) ==> id !in database.documents
    {
      ghost var start := View();
      run := Interfere(Some(id));
      OthersRun(start, run, id);
      StaysUnmade(start, run, id);
    }

    /** What an upload that failed does about its intent: after the others acted,
        make it due, unless that fails too. */
    method GiveUp(id: Id, request: Request, fate: UploadFate) returns (ghost run: seq<Step>)
      requires Valid() && Uploads(View(), id, request) && uploads[id].progress.Abandoned?
      modifies this, database
      ensures Ran(old(View()), run) && UploadOver(View(), id, request)
      ensures old(id !in database.documents) ==> id !in database.documents
      ensures fate.expedites ==> CleanupDue(database.View(), StorageKey(request.owner, id, id + 1))
    {
      ghost var start := View();
      run := AwaitOthers(id, request);
      if fate.expedites {
        ghost var middle := View();
        OneStepMore(start, run, Step.ExpediteIntent(id));
        ExpediteMakesDue(middle, id, request);
        ExpediteIntent(id);
        run := run + [Step.ExpediteIntent(id)];
      }
    }

    /** Store the object, and if that succeeds, the closing transaction. */
    method Submit(id: Id, request: Request, fate: UploadFate)
      returns (answer: Answered, ghost closing: World, ghost run: seq<Step>)
      requires Valid() && Uploads(View(), id, request) && uploads[id].progress.Intended?
      modifies this, database
      ensures Ran(old(View()), run) && OnTheWay(old(View()), run, closing)
      ensures Honoured(View(), id, request, answer)
      ensures if fate.saved then ClosedAs(closing.db, id, request, fate, answer) else answer.Broken?
    {
      ghost var start := View();
      run := Save(id, request, fate);
      answer, closing := Broken, View();
      EndsOnTheWay(start, run, []);
      if fate.saved {
        ghost var more;
        answer, more := Close(id, request, fate);
        RunsOn(start, run, more);
        EndsOnTheWay(start, run, more);
        run := run + more;
      }
    }

    /** create_document past its first check. */
    method FinishUpload(id: Id, request: Request, fate: UploadFate)
      returns (answer: Answered, ghost closing: World, ghost run: seq<Step>)
      requires Valid() && Uploads(View(), id, request) && uploads[id].progress.Begun?
      modifies this, database
      ensures Ran(old(View()), run) && UploadOver(View(), id, request)
      ensures OnTheWay(old(View()), run, closing)
      ensures if fate.saved then ClosedAs(closing.db, id, request, fate, answer) else answer.Broken?
      ensures answer.Made? || answer.Found? ==> Honoured(View(), id, request, answer)
      ensures answer.Conflicted? ==> id !in database.documents
      ensures (answer.Conflicted? || answer.Broken?) && fate.expedites ==>
                CleanupDue(database.View(), StorageKey(request.owner, id, id + 1))
    {
      ghost var start, more := View(), [];
      run := Declare(id, request);
      answer, closing, more := Submit(id, request, fate);
      RunsOn(start, run, more);
      StillOnTheWay(start, run, more, closing);
      run := run + more;
      if answer.Conflicted? || answer.Broken? {
        more := GiveUp(id, request, fate);
        RunsOn(start, run, more);
        StillOnTheWay(start, run, more, closing);
        run := run + more;
      }
    }

    /** create_document, with every other process acting between any two of its
        steps: a run of the protocol that ends as its answer says, the answer being
        decided by what the check finds at the start or in the closing transaction,
        and by what the world outside holds for the upload. */
    method CreateDocument(request: Request, fate: UploadFate)
      returns (answer: Answered, ghost closing: World, ghost run: seq<Step>)
      requires Valid()
      modifies this, database
      ensures Ran(old(View()), run)
      ensures match ReplayOf(old(database.View()), request)
              case Existing(document) => answer == Found(document) && View() == old(View())
              case Conflicting => answer == Conflicted && View() == old(View())
              case Unused =>
                var id := old(database.nextId);
                && UploadOver(View(), id, request)
                && OnTheWay(old(View()), run, closing)
                && (if fate.saved then ClosedAs(closing.db, id, request, fate, answer) else answer.Broken?)
                && ((answer.Conflicted? || answer.Broken?) && fate.expedites ==>
                      CleanupDue(database.View(), StorageKey(request.owner, id, id + 1)))
      ensures answer.Made? ==> answer.id == old(database.nextId) && NewlyMade(database.View(), answer.id, request)
      ensures answer.Found? ==> Matches(database.View(), request, answer.id)
      ensures answer.Conflicted? ==> old(database.nextId) !in database.documents
    {
      ghost var start := View();
      var replay, id;
      replay, id, run := BeginUpload(request);
      closing := View();
      match replay {
        case Existing(document) => answer := Found(document);
        case Conflicting => answer := Conflicted;
        case Unused =>
          ghost var more;
          answer, closing, more := FinishUpload(id, request, fate);
          RunsOn(start, run, more);
          StillOnTheWay(start, run, more, closing);
          run := run + more;
      }
    }

    /** Recover one candidate, if it still needs it once the others have acted. */
    method RecoverNext(job: Id, locked: set<Id>) returns (done: bool, ghost run: seq<Step>, ghost head: seq<Step>)
      requires Valid()
      modifies this, database
      ensures Ran(old(View()), run)
      ensures done ==> job !in locked && |run| == |head| + 1 && RecoveredAfter(old(View()), run, job, head)
      ensures job !in locked ==> !Expired(database.View(), job)
    {
      ghost var start := View();
      run := Interfere(None);
      head := run;
      done := job !in locked && database.StillExpired(job);
      if done {
        var jitter: nat :| jitter <= JITTER_LIMIT;
        ghost var step := Step.RecoverLease(job, jitter);
        OneStepMore(start, run, step);
        RecoveryIsLast(start, run, job, jitter);
        RecoverLease(job, jitter);
        run := run + [step];
      }
    }

    /** The recovery pass, with the others acting before each of its transactions:
        the count is exact, each candidate recovered once, when it was expired, or
        skipped; and no unlocked candidate runs any longer as it did when read. */
    method RecoverAll(limit: nat, locked: set<Id>)
      returns (count: nat, ghost candidates: seq<Id>, ghost recovered: map<Id, seq<Step>>, ghost run: seq<Step>)
      requires Valid()
      modifies this, database
      ensures Recovery.Candidates(old(database.View()), candidates, limit)
      ensures Passed(old(View()), View(), run, recovered, candidates, locked)
      ensures count == |recovered| <= limit
    {
      ghost var start := View();
      var rows := database.ExpiredRows(limit);
      count, recovered, run := 0, map[], [];
      PassStarts(start, locked);
      for i := 0 to |rows|
        invariant count == |recovered| <= i
        invariant Passed(start, View(), run, recovered, rows[..i], locked)
      {
        ghost var before := View();
        var done;
        ghost var own, head;
        done, own, head := RecoverNext(rows[i], locked);
        NextCandidate(start.db, rows, limit, i);
        PassGoesOn(start, before, View(), run, own, recovered, rows[..i], rows[i], locked, done, head);
        if done {
          recovered := recovered[rows[i] := run + head];
          count := count + 1;
        }
        run := run + own;
      }
      candidates := rows;
      assert rows[..|rows|] == rows;
    }

    /** A recovery pass, and what the others do after it. */
    method Recoveries(limit: nat, locked: set<Id>) returns (ghost run: seq<Step>)
      requires Valid()
      modifies this, database
      ensures Ran(old(View()), run)
      ensures |Recovery.ExpiredIds(old(database.View()))| <= limit ==>
                forall job | Expired(old(database.View()), job) && job !in locked ::
                  !Holds(database.View(), job, old(database.View()).jobs[job].runToken)
    {
      ghost var start := View();
      var _, candidates, _, recoveries := RecoverAll(limit, locked);
      ghost var more := Interfere(None);
      RunsOn(start, recoveries, more);
      ReleaseLasts(start, recoveries, more, candidates, locked);
      run := recoveries + more;
      if |Recovery.ExpiredIds(start.db)| <= limit {
        Recovery.AllFree(start.db, candidates, limit);
        assert forall job | Expired(start.db, job) :: job in Recovery.ExpiredIds(start.db);
      }
    }

    /** dispatch_once, with every other process acting between any two of its
        transactions: a recovery pass, after which no row that had expired runs as
        it did, if the limit allows and nobody holds it locked; then a stamp on the
        first due rows; then these handed to the broker, up to the first failure. */
    method DispatchOnce(limit: nat, locked: set<Id>, confirms: nat, keeps: bool)
      returns (published: nat, ghost due: World, ghost chosen: seq<Id>, ghost run: seq<Step>, ghost bag: multiset<Id>)
      requires Valid()
      modifies this, database
      ensures Valid() && due == Exec(old(View()), run) && forall step | step in run :: Possible(step)
      ensures |Recovery.ExpiredIds(old(database.View()))| <= limit ==>
                forall job | Expired(old(database.View()), job) && job !in locked ::
                  !Holds(due.db, job, old(database.View()).jobs[job].runToken)
      ensures chosen == Dispatching.First(due.db, Dispatching.Due(due.db, locked), limit)
      ensures View() == Apply(due, Step.Dispatch(Dispatching.Members(chosen)))
      ensures published == if confirms < |chosen| then confirms else |chosen|
      ensures database.broker == bag + multiset(Dispatching.Reached(chosen, published, keeps))
    {
      run := Recoveries(limit, locked);
      due, bag := View(), database.broker;
      ghost var first := Dispatching.First(due.db, Dispatching.Due(due.db, locked), limit);
      SafetyKept(due, Step.Dispatch(Dispatching.Members(first)));
      Dispatching.FirstIsSelection(due.db, Dispatching.Due(due.db, locked), limit);
      published, chosen := database.Send(limit, locked, confirms, keeps);
    }
  }
}
