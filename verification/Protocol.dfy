/** The whole system: one database, the object store, the workers in flight and
    the uploads in flight, moved by steps of any process in any order.

    A database transaction is one step; each storage call, each crash and each
    tick of the clock is its own.  A process that crashes simply takes no
    further step.  The broker may deliver any job at any time, any number of
    times, which covers lost, late, reordered and duplicated messages. */
module Protocol {
  import opened Records
  import opened Jobs
  import opened Services

  /** Where a worker is between its claim and its finish. */
  datatype Phase =
    | Claimed
    | Missing                               // found no document row
    | Opened(document: Document)            // read the row it will check the bytes against
    | Verified(content: Bytes, mime: string)
    | Read(text: Text)
    | Erased                                // storage confirmed the deletion

  /** A worker holds the row as it claimed it; `returned` once it called finish. */
  datatype Worker = Worker(job: Id, claim: Job, phase: Phase, returned: bool)

  /** Where an upload is. `due` is when its intent may first be claimed. */
  datatype Progress =
    | Begun
    | Intended(intent: Id, due: Time)
    | Stored(intent: Id, due: Time)
    | Abandoned(intent: Id)
    | Closed

  datatype Upload = Upload(request: Request, key: StorageKey, progress: Progress)

  /** Workers are named by their claim token, uploads by their document id. */
  datatype World = World(
    db: Db,
    objects: map<StorageKey, Bytes>,
    workers: map<Id, Worker>,
    uploads: map<Id, Upload>)

  datatype Step =
    | Tick(elapsed: nat)
    | Deliver(job: Id)
    | ReadRow(worker: Id)
    | Fetch(worker: Id, content: Bytes)
    | Extract(worker: Id)
    | Erase(worker: Id, effective: bool, confirmed: bool)
    | End(worker: Id, failure: Option<Failure>, jitter: nat)
    | RecoverLease(job: Id, jitter: nat)
    | Dispatch(jobs: set<Id>)
    | RearmCleanup(job: Id)
    | Begin(request: Request)
    | DeclareIntent(upload: Id)
    | Store(upload: Id, effective: bool, confirmed: bool)
    | CommitUpload(upload: Id, acknowledged: bool)
    | Abort(upload: Id)
    | ExpediteIntent(upload: Id)
    | PatchDocument(document: Id, caller: Caller, header: Option<string>, data: Metadata)
    | DeleteDocument(document: Id, caller: Caller, header: Option<string>)
    | ReprocessDocument(document: Id, caller: Caller, header: Option<string>)

  function Initial(now: Time): World {
    World(Db(now, map[], map[], [], 0), map[], map[], map[])
  }

  function AfterDeliver(s: World, job: Id): World {
    var (db, claim) := Claim(s.db, job);
    match claim
    case None => s.(db := db)
    case Some(row) =>
      s.(db := db, workers := s.workers[s.db.nextId := Worker(job, row, Claimed, false)])
  }

  predicate Busy(s: World, worker: Id) {
    worker in s.workers && !s.workers[worker].returned
  }

  function Reach(s: World, worker: Id, phase: Phase): World
    requires worker in s.workers
  {
    s.(workers := s.workers[worker := s.workers[worker].(phase := phase)])
  }

  function AfterReadRow(s: World, worker: Id): World {
    if Busy(s, worker) && s.workers[worker].claim.kind.Ocr? && s.workers[worker].phase.Claimed? then
      var document := s.workers[worker].claim.document;
      Reach(s, worker, if document in s.db.docs then Opened(s.db.docs[document]) else Missing)
    else s
  }

  /** Read the stored object, whatever the store returns.  Bytes that do not
      match the row's size and hash end the attempt instead. */
  function AfterFetch(s: World, worker: Id, content: Bytes): World {
    if Busy(s, worker) && s.workers[worker].phase.Opened? then
      var document := s.workers[worker].phase.document;
      if |content| == document.size && Sha256(content) == document.sha256
      then Reach(s, worker, Verified(content, document.mime))
      else s
    else s
  }

  function AfterExtract(s: World, worker: Id): World {
    if Busy(s, worker) && s.workers[worker].phase.Verified? then
      Reach(s, worker, Read(TextOf(s.workers[worker].phase.content, s.workers[worker].phase.mime)))
    else s
  }

  /** A storage deletion may take effect without being confirmed, and even after
      its worker gave up on it, but is not confirmed without taking effect.
      Missing keys are deleted in vain. */
  function AfterErase(s: World, worker: Id, effective: bool, confirmed: bool): World {
    if worker in s.workers && s.workers[worker].claim.kind.DeleteObject? && s.workers[worker].phase.Claimed? then
      var erased := if effective || confirmed then s.objects - {s.workers[worker].claim.kind.key} else s.objects;
      (if confirmed && Busy(s, worker) then Reach(s, worker, Erased) else s).(objects := erased)
    else s
  }

  /** How a worker may call finish: with any failure at any time, even after
      an earlier call, and without one only at the end of its work. */
  function OutcomeOf(worker: Worker, failure: Option<Failure>): Option<Outcome> {
    if failure.Some? then Some(Failing(failure.value))
    else if worker.returned then None
    else
      match worker.phase
      case Missing => Some(Done)
      case Erased => Some(Done)
      case Read(text) => Some(Extracted(text))
      case _ => None
  }

  function AfterEnd(s: World, worker: Id, failure: Option<Failure>, jitter: nat): World {
    if worker !in s.workers then s
    else
      var w := s.workers[worker];
      match OutcomeOf(w, failure)
      case None => s
      case Some(outcome) =>
        s.(db := Finish(s.db, w.job, w.claim.runToken, outcome, jitter).0,
           workers := s.workers[worker := w.(returned := true)])
  }

  function AfterDispatch(s: World, jobs: set<Id>): World {
    if forall job | job in jobs :: Dispatchable(s.db, job) then s.(db := Stamp(s.db, jobs)) else s
  }

  /** The first idempotency check, then an identifier and a storage key. */
  ghost function AfterBegin(s: World, request: Request): World {
    if ReplayOf(s.db, request).Unused? then
      var id := s.db.nextId;
      s.(db := s.db.(nextId := id + 2),
         uploads := s.uploads[id := Upload(request, StorageKey(request.owner, id, id + 1), Begun)])
    else s
  }

  predicate At(s: World, upload: Id, stored: bool) {
    && upload in s.uploads
    && (if stored then s.uploads[upload].progress.Stored? else s.uploads[upload].progress.Intended?)
  }

  function Progressed(s: World, upload: Id, progress: Progress): World
    requires upload in s.uploads
  {
    s.(uploads := s.uploads[upload := s.uploads[upload].(progress := progress)])
  }

  function AfterDeclareIntent(s: World, upload: Id): World {
    if upload in s.uploads && s.uploads[upload].progress.Begun? then
      Progressed(s, upload, Intended(s.db.nextId, s.db.now + UPLOAD_GRACE))
      .(db := Intend(s.db, upload, s.uploads[upload].key))
    else s
  }

  /** A store may keep the object and still fail the call. */
  function AfterStore(s: World, upload: Id, effective: bool, confirmed: bool): World {
    if At(s, upload, false) then
      var u := s.uploads[upload];
      var intent := u.progress.intent;
      Progressed(s, upload, if confirmed then Stored(intent, u.progress.due) else Abandoned(intent))
      .(objects := if effective || confirmed then s.objects[u.key := u.request.content] else s.objects)
    else s
  }

  /** The closing transaction; a conflict rolls it back, and a commit may take
      effect although the process that asked for it sees a failure. */
  ghost function AfterCommitUpload(s: World, upload: Id, acknowledged: bool): World {
    if At(s, upload, true) then
      var u := s.uploads[upload];
      var (db, replay) := Commit(s.db, upload, u.request, u.key, u.progress.intent);
      Progressed(s, upload, if acknowledged && !replay.Conflicting? then Closed else Abandoned(u.progress.intent))
      .(db := db)
    else s
  }

  /** Any exception after the intent was committed. */
  function AfterAbort(s: World, upload: Id): World {
    if At(s, upload, false) || At(s, upload, true)
    then Progressed(s, upload, Abandoned(s.uploads[upload].progress.intent))
    else s
  }

  function AfterExpediteIntent(s: World, upload: Id): World {
    if upload in s.uploads && s.uploads[upload].progress.Abandoned? then
      Progressed(s, upload, Closed).(db := Expedite(s.db, s.uploads[upload].progress.intent))
    else s
  }

  /** The effect of a step; a step that is not possible changes nothing. */
  ghost function Apply(s: World, step: Step): World {
    match step
    case Tick(elapsed) => s.(db := s.db.(now := s.db.now + elapsed))
    case Deliver(job) => AfterDeliver(s, job)
    case ReadRow(worker) => AfterReadRow(s, worker)
    case Fetch(worker, content) => AfterFetch(s, worker, content)
    case Extract(worker) => AfterExtract(s, worker)
    case Erase(worker, effective, confirmed) => AfterErase(s, worker, effective, confirmed)
    case End(worker, failure, jitter) => AfterEnd(s, worker, failure, jitter)
    case RecoverLease(job, jitter) => s.(db := Recover(s.db, job, jitter))
    case Dispatch(jobs) => AfterDispatch(s, jobs)
    case RearmCleanup(job) => s.(db := Rearm(s.db, job))
    case Begin(request) => AfterBegin(s, request)
    case DeclareIntent(upload) => AfterDeclareIntent(s, upload)
    case Store(upload, effective, confirmed) => AfterStore(s, upload, effective, confirmed)
    case CommitUpload(upload, acknowledged) => AfterCommitUpload(s, upload, acknowledged)
    case Abort(upload) => AfterAbort(s, upload)
    case ExpediteIntent(upload) => AfterExpediteIntent(s, upload)
    case PatchDocument(document, caller, header, data) => s.(db := Patch(s.db, document, caller, header, data).0)
    case DeleteDocument(document, caller, header) => s.(db := Delete(s.db, document, caller, header).0)
    case ReprocessDocument(document, caller, header) => s.(db := Reprocess(s.db, document, caller, header).0)
  }

  /** Jitter is drawn from its range in every step of a run. */
  predicate Possible(step: Step) {
    match step
    case End(_, _, jitter) => jitter <= JITTER_LIMIT
    case RecoverLease(_, jitter) => jitter <= JITTER_LIMIT
    case _ => true
  }

  ghost function Exec(s: World, steps: seq<Step>): World
    decreases |steps|
  {
    if steps == [] then s else Exec(Apply(s, steps[0]), steps[1..])
  }

  /** The documented grace assumption: an upload's store and its commit happen
      before its intent falls due. */
  predicate InGrace(s: World, step: Step) {
    match step
    case Store(upload, _, _) => At(s, upload, false) ==> s.db.now < s.uploads[upload].progress.due
    case CommitUpload(upload, _) => At(s, upload, true) ==> s.db.now < s.uploads[upload].progress.due
    case _ => true
  }

  ghost predicate Graceful(s: World, steps: seq<Step>)
    decreases |steps|
  {
    steps == [] || (InGrace(s, steps[0]) && Graceful(Apply(s, steps[0]), steps[1..]))
  }

  lemma {:induction false} ExecAppends(s: World, first: seq<Step>, rest: seq<Step>)
    ensures Exec(s, first + rest) == Exec(Exec(s, first), rest)
    ensures Graceful(s, first + rest) <==> Graceful(s, first) && Graceful(Exec(s, first), rest)
    decreases |first|
  {
    if first == [] {
      assert first + rest == rest;
    } else {
      assert (first + rest)[1..] == first[1..] + rest;
      ExecAppends(Apply(s, first[0]), first[1..], rest);
    }
  }
}
