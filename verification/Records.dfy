/** The rows of the job ledger, the document table and the audit log, and the
    settings the protocol reads.  Times are integers in microseconds, the
    resolution of the timestamps the source stores. */
module Records {

  datatype Option<+T> = None | Some(value: T)

  type Id = nat
  type Time = int

  const SECOND: int := 1_000_000
  const JOB_LEASE: int := 240 * SECOND
  const JOB_REDISPATCH: int := 30 * SECOND
  const UPLOAD_GRACE: int := 3600 * SECOND
  const TASK_TIME_LIMIT: int := 180 * SECOND
  const JITTER_LIMIT: int := 2 * SECOND
  const OCR_ATTEMPTS: nat := 3
  const CLEANUP_ATTEMPTS: nat := 8

  newtype Byte = b: int | 0 <= b < 256
  type Bytes = seq<Byte>

  /** The five fields a client may patch, each with its value as JSON text. */
  datatype Field = Title | Description | DocumentType | Tags | Extra
  type Metadata = map<Field, string>

  /** No result yet, or what was extracted from bytes of a type. */
  datatype Text = NoText | TextOf(content: Bytes, mime: string)

  /** The hash, the text normalisation and the fingerprint are free constructors:
      equal inputs, and only they, give equal outputs. */
  datatype Digest = Sha256(content: Bytes)
  datatype SearchText = Normalised(metadata: Metadata, text: Text)
  datatype Fingerprint = Fingerprint(metadata: Metadata, sha256: Digest, filename: string)

  /** The characters a row stores, given what the engine makes of bytes of a type:
      none before a result, and perhaps none after. */
  function Characters(text: Text, extract: (Bytes, string) -> string): string {
    match text
    case NoText => ""
    case TextOf(content, mime) => extract(content, mime)
  }

  /** A storage key spells out its owner and document and a random suffix. */
  datatype StorageKey = StorageKey(owner: Id, document: Id, nonce: Id)

  datatype Status = Pending | Processing | Succeeded | Failed
  datatype JobState = Pending | Running | Succeeded | Failed

  datatype ErrorCode =
    | NoError | InvalidDocument | PageLimit | PixelLimit | TextLimit | OcrTimeout
    | OcrEngineUnavailable | StorageUnavailable | IntegrityError | WorkerLost | UnexpectedError

  datatype Failure = Failure(code: ErrorCode, retryable: bool)

  datatype Kind = Ocr | DeleteObject(key: StorageKey)

  datatype Job = Job(
    kind: Kind,
    document: Id,
    state: JobState,
    attempts: nat,
    maxAttempts: nat,
    availableAt: Time,
    dispatchedAt: Option<Time>,
    leaseUntil: Option<Time>,
    runToken: Option<Id>,
    errorCode: ErrorCode)
  {
    /** Still owed work: pending or running. */
    predicate Live() {
      state == JobState.Pending || state == JobState.Running
    }
  }

  datatype Document = Document(
    owner: Id,
    storageKey: StorageKey,
    filename: string,
    mime: string,
    size: nat,
    sha256: Digest,
    metadata: Metadata,
    revision: nat,
    status: Status,
    attempts: nat,
    errorCode: ErrorCode,
    text: Text,
    processedAt: Option<Time>,
    idempotencyKey: Option<string>,
    fingerprint: Fingerprint,
    search: SearchText)

  datatype Actor = User(id: Id) | System

  datatype Action =
    | Created
    | MetadataUpdated(fields: set<Field>, revision: nat)
    | ReprocessRequested
    | Deleted
    | StatusChanged(previous: Status, status: Status, attempt: nat, errorCode: ErrorCode, job: Id)

  datatype Event = Event(document: Id, owner: Id, actor: Actor, action: Action)

  /** What the database holds.  `nextId` is the next identifier never handed out. */
  datatype Db = Db(
    now: Time,
    jobs: map<Id, Job>,
    docs: map<Id, Document>,
    audit: seq<Event>,
    nextId: Id)

  /** What Document.save stores: the row with its search text rebuilt. */
  function Saved(doc: Document): Document {
    doc.(search := Normalised(doc.metadata, doc.text))
  }
}
