/** The transactions of the job ledger, each as a function on the database:
    claim, finish, lease recovery, the dispatch stamp and the operator's rearm. */
module Jobs {
  import opened Records
  import opened Backoff

  /** How a worker ends its attempt: without a result, with one, or failing. */
  datatype Outcome = Done | Extracted(text: Text) | Failing(failure: Failure)

  datatype Reply = Stale | Became(state: JobState)

  /** A document row with a job's new status written into it. */
  function Marked(doc: Document, status: Status, attempts: nat, error: ErrorCode, outcome: Outcome, now: Time)
    : Document
  {
    var marked := doc.(status := status, attempts := attempts, errorCode := error);
    Saved(if outcome.Extracted? then marked.(text := outcome.text, processedAt := Some(now)) else marked)
  }

  /** Write a job's new status into its document and append the audit event. */
  function Transition(db: Db, status: Status, id: Id, job: Job, error: ErrorCode, outcome: Outcome): Db
    requires job.document in db.docs
  {
    var doc := db.docs[job.document];
    db.(docs := db.docs[job.document := Marked(doc, status, job.attempts, error, outcome, db.now)],
        audit := db.audit + [Event(job.document, doc.owner, System,
                                   StatusChanged(doc.status, status, job.attempts, error, id))])
  }

  function Leased(row: Job, now: Time, token: Id): Job {
    row.(state := JobState.Running, attempts := row.attempts + 1,
         runToken := Some(token), leaseUntil := Some(now + JOB_LEASE))
  }

  predicate Claimable(db: Db, id: Id) {
    id in db.jobs && db.jobs[id].state == JobState.Pending && db.jobs[id].availableAt <= db.now
  }

  function Claim(db: Db, id: Id): (Db, Option<Job>) {
    if !Claimable(db, id) then (db, None)
    else
      var row := Leased(db.jobs[id], db.now, db.nextId);
      var taken := db.(jobs := db.jobs[id := row], nextId := db.nextId + 1);
      if row.kind.DeleteObject? then (taken, Some(row))
      else if row.document !in db.docs then
        (taken.(jobs := db.jobs[id := row.(state := JobState.Succeeded, leaseUntil := None)]), None)
      else
        (Transition(taken, Status.Processing, id, row, NoError, Done), Some(row))
  }

  function Ended(row: Job, outcome: Outcome, now: Time, jitter: int): Job {
    var released := row.(leaseUntil := None, dispatchedAt := None);
    match outcome
    case Failing(failure) =>
      released.(
        state := if failure.retryable && row.attempts < row.maxAttempts then JobState.Pending else JobState.Failed,
        errorCode := failure.code,
        availableAt := now + Delay(row.attempts) + jitter)
    case _ => released.(state := JobState.Succeeded, errorCode := NoError)
  }

  function DocumentStatus(state: JobState): Status {
    match state
    case Pending => Status.Pending
    case Running => Status.Processing
    case Succeeded => Status.Succeeded
    case Failed => Status.Failed
  }

  predicate Holds(db: Db, id: Id, token: Option<Id>) {
    id in db.jobs && db.jobs[id].runToken == token && db.jobs[id].state == JobState.Running
  }

  function Finish(db: Db, id: Id, token: Option<Id>, outcome: Outcome, jitter: int): (Db, Reply) {
    if !Holds(db, id, token) then (db, Stale)
    else
      var row := Ended(db.jobs[id], outcome, db.now, jitter);
      var ended := db.(jobs := db.jobs[id := row]);
      (if row.kind.Ocr? && row.document in db.docs then
         Transition(ended, DocumentStatus(row.state), id, row, row.errorCode, outcome)
       else ended,
       Became(row.state))
  }

  predicate Expired(db: Db, id: Id) {
    && id in db.jobs
    && db.jobs[id].state == JobState.Running
    && db.jobs[id].leaseUntil.Some?
    && db.jobs[id].leaseUntil.value <= db.now
  }

  const LOST: Outcome := Failing(Failure(WorkerLost, true))

  function Fenced(db: Db, id: Id): Db
    requires id in db.jobs
  {
    db.(jobs := db.jobs[id := db.jobs[id].(runToken := Some(db.nextId))], nextId := db.nextId + 1)
  }

  /** One turn of the recovery loop: a new token fences the old worker, then
      the attempt ends as a lost worker's. */
  function Recover(db: Db, id: Id, jitter: int): Db {
    if !Expired(db, id) then db
    else Finish(Fenced(db, id), id, Some(db.nextId), LOST, jitter).0
  }

  /** Pending, due, and never sent or sent at least the redispatch interval ago. */
  predicate Dispatchable(db: Db, id: Id) {
    && Claimable(db, id)
    && (db.jobs[id].dispatchedAt.None? || db.jobs[id].dispatchedAt.value <= db.now - JOB_REDISPATCH)
  }

  function Stamp(db: Db, ids: set<Id>): Db {
    db.(jobs := map id | id in db.jobs ::
      if id in ids then db.jobs[id].(dispatchedAt := Some(db.now)) else db.jobs[id])
  }

  predicate Rearmable(db: Db, id: Id) {
    id in db.jobs && db.jobs[id].kind.DeleteObject? && db.jobs[id].state == JobState.Failed
  }

  /** The operator's command; the old run token stays in the row. */
  function Rearm(db: Db, id: Id): Db {
    if !Rearmable(db, id) then db
    else db.(jobs := db.jobs[id := db.jobs[id].(state := JobState.Pending, attempts := 0,
                                                 errorCode := NoError, dispatchedAt := None,
                                                 availableAt := db.now)])
  }
}
