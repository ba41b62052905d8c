/** The transactions of the document use cases, each as a function on the database. */
module Services {
  import opened Records
  import opened Revisions

  /** An authenticated user; staff see every document, others their own. */
  datatype Caller = Caller(id: Id, staff: bool)

  datatype Response = NotFound | PreconditionRequired | PreconditionFailed | Conflict | Success

  /** A validated upload: what the serializer hands to the service. */
  datatype Request = Request(
    owner: Id, metadata: Metadata, filename: string, mime: string, content: Bytes,
    idempotencyKey: Option<string>)

  function FingerprintOf(request: Request): Fingerprint {
    Fingerprint(request.metadata, Sha256(request.content), request.filename)
  }

  /** What the idempotency check finds under a request's owner and key. */
  datatype Replay = Unused | Existing(document: Id) | Conflicting

  predicate Names(db: Db, request: Request, id: Id) {
    && id in db.docs
    && request.idempotencyKey.Some?
    && db.docs[id].owner == request.owner
    && db.docs[id].idempotencyKey == request.idempotencyKey
  }

  ghost function ReplayOf(db: Db, request: Request): Replay {
    if id :| Names(db, request, id) then
      if db.docs[id].fingerprint != FingerprintOf(request) then Conflicting else Existing(id)
    else
      Unused
  }

  function CleanupJob(document: Id, key: StorageKey, due: Time): Job {
    Job(DeleteObject(key), document, JobState.Pending, 0, CLEANUP_ATTEMPTS, due, None, None, None, NoError)
  }

  function OcrJob(document: Id, now: Time): Job {
    Job(Ocr, document, JobState.Pending, 0, OCR_ATTEMPTS, now, None, None, None, NoError)
  }

  /** Add a job under the next identifier. */
  function Enqueue(db: Db, job: Job): Db {
    db.(jobs := db.jobs[db.nextId := job], nextId := db.nextId + 1)
  }

  /** Commit the cleanup intent that closes the gap between store and database. */
  function Intend(db: Db, document: Id, key: StorageKey): Db {
    Enqueue(db, CleanupJob(document, key, db.now + UPLOAD_GRACE))
  }

  function NewDocument(request: Request, key: StorageKey): Document {
    Saved(Document(
            request.owner, key, request.filename, request.mime, |request.content|, Sha256(request.content),
            request.metadata, 1, Status.Pending, 0, NoError, NoText, None,
            request.idempotencyKey, FingerprintOf(request), Normalised(map[], NoText)))
  }

  /** Make an intent due at once; no other column of its row is written. */
  function Expedite(db: Db, intent: Id): Db {
    if intent !in db.jobs then db
    else db.(jobs := db.jobs[intent := db.jobs[intent].(availableAt := db.now)])
  }

  /** Mark an intent done, whatever its row says by now; no other column is written. */
  function Cancel(db: Db, intent: Id): Db {
    if intent !in db.jobs then db
    else db.(jobs := db.jobs[intent := db.jobs[intent].(state := JobState.Succeeded)])
  }

  function Insert(db: Db, id: Id, request: Request, key: StorageKey): Db {
    Enqueue(db.(docs := db.docs[id := NewDocument(request, key)],
                audit := db.audit + [Event(id, request.owner, Actor.User(request.owner), Created)]),
            OcrJob(id, db.now))
  }

  /** The upload's closing transaction, under the owner's row lock: replay an
      existing document, refuse a conflicting one, or create this one. */
  ghost function Commit(db: Db, id: Id, request: Request, key: StorageKey, intent: Id): (Db, Replay) {
    var replay := ReplayOf(db, request);
    match replay
    case Existing(_) => (Expedite(db, intent), replay)
    case Conflicting => (db, replay)
    case Unused => (Cancel(Insert(db, id, request, key), intent), replay)
  }

  predicate Visible(db: Db, id: Id, caller: Caller) {
    id in db.docs && (caller.staff || db.docs[id].owner == caller.id)
  }

  /** How the revision check answers a caller, before anything is written. */
  function Gate(db: Db, id: Id, caller: Caller, header: Option<string>): Response {
    if !Visible(db, id, caller) then NotFound
    else
      match CheckRevision(db.docs[id].revision, header)
      case Required => PreconditionRequired
      case Mismatched => PreconditionFailed
      case Accepted => Success
  }

  function Changed(metadata: Metadata, data: Metadata): set<Field> {
    set field | field in data && (field !in metadata || metadata[field] != data[field])
  }

  function Log(db: Db, id: Id, owner: Id, caller: Caller, action: Action): Db {
    db.(audit := db.audit + [Event(id, owner, Actor.User(caller.id), action)])
  }

  function Patch(db: Db, id: Id, caller: Caller, header: Option<string>, data: Metadata): (Db, Response) {
    var gate := Gate(db, id, caller, header);
    if gate != Success then (db, gate)
    else
      var doc := db.docs[id];
      var changed := Changed(doc.metadata, data);
      if changed == {} then (db, Success)
      else
        var patched := Saved(doc.(metadata := doc.metadata + data, revision := doc.revision + 1));
        (Log(db.(docs := db.docs[id := patched]), id, doc.owner, caller,
             MetadataUpdated(changed, patched.revision)),
         Success)
  }

  function Delete(db: Db, id: Id, caller: Caller, header: Option<string>): (Db, Response) {
    var gate := Gate(db, id, caller, header);
    if gate != Success then (db, gate)
    else
      var doc := db.docs[id];
      var logged := Log(db, id, doc.owner, caller, Deleted);
      var queued := Enqueue(logged, CleanupJob(id, doc.storageKey, db.now));
      (queued.(docs := queued.docs - {id}), Success)
  }

  function Reprocess(db: Db, id: Id, caller: Caller, header: Option<string>): (Db, Response) {
    var gate := Gate(db, id, caller, header);
    if gate != Success then (db, gate)
    else if db.docs[id].status != Status.Failed then (db, Conflict)
    else
      var doc := db.docs[id];
      var reset := Saved(doc.(status := Status.Pending, attempts := 0, errorCode := NoError,
                              revision := doc.revision + 1));
      (Enqueue(Log(db.(docs := db.docs[id := reset]), id, doc.owner, caller, ReprocessRequested),
               OcrJob(id, db.now)),
       Success)
  }
}
