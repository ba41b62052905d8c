/** Timed termination: with deliveries and recoveries on time, a job is over by
    a date that can be computed when it first falls due. */
module Deadlines {
  import opened Records
  import opened Backoff
  import opened Jobs
  import opened Protocol
  import opened Transactions
  import opened Ledger
  import opened Structure

  /** Longest time from due to the end of one attempt: delivered within D,
      leased, and recovered within R of the lease's end. */
  function Round(D: nat, R: nat): int {
    D + JOB_LEASE + R
  }

  /** Longest time from the end of an attempt that may be retried to the end of the job. */
  function Rest(attempts: nat, limit: nat, D: nat, R: nat): int
    decreases limit - attempts
  {
    if attempts >= limit then 0
    else Delay(attempts) + JITTER_LIMIT + Round(D, R) + Rest(attempts + 1, limit, D, R)
  }

  /** The date by which a live job is over. */
  function Latest(row: Job, D: nat, R: nat): int {
    if row.state == JobState.Running && row.leaseUntil.Some?
    then row.leaseUntil.value + R + Rest(row.attempts, row.maxAttempts, D, R)
    else row.availableAt + Round(D, R) + Rest(row.attempts + 1, row.maxAttempts, D, R)
  }

  /** The job's next delivery or recovery is not overdue. */
  predicate OnTime(row: Job, now: Time, D: nat, R: nat) {
    && (row.state == JobState.Pending ==> now <= row.availableAt + D)
    && (row.state == JobState.Running && row.leaseUntil.Some? ==> now <= row.leaseUntil.value + R)
  }

  /** A move that does not set the job's date anew: not a rearm, nor making due
      again what already was. */
  predicate Undisturbing(row: Job, now: Time, move: Move) {
    !move.Revive? && (move.Hurry? && row.state == JobState.Pending ==> now <= row.availableAt)
  }

  predicate Jittered(move: Move) {
    match move
    case Return(_, jitter) => 0 <= jitter <= JITTER_LIMIT
    case Lose(jitter) => 0 <= jitter <= JITTER_LIMIT
    case _ => true
  }

  lemma MoveKeepsDate(db: Db, row: Job, move: Move, D: nat, R: nat)
    requires RowOk(row, db.nextId) && CanMove(db, row, move) && Undisturbing(row, db.now, move) && Jittered(move)
    requires OnTime(row, db.now, D, R)
    ensures !row.Live() ==> !Moved(db, row, move).Live()
    ensures Moved(db, row, move).Live() ==> Latest(Moved(db, row, move), D, R) <= Latest(row, D, R)
  {}

  /** A run in which the job is served on time, and neither rearmed nor expedited
      after it fell due.  It may be expedited before, and cancelled. */
  ghost predicate ServedOnTime(s: World, steps: seq<Step>, id: Id, D: nat, R: nat)
    decreases |steps|
  {
    && id in s.db.jobs
    && OnTime(s.db.jobs[id], s.db.now, D, R)
    && (steps != [] ==>
          && Possible(steps[0])
          && Undisturbing(s.db.jobs[id], s.db.now, MoveOn(TransactionOf(s, steps[0]), id))
          && ServedOnTime(Apply(s, steps[0]), steps[1..], id, D, R))
  }

  lemma {:induction false} RestIsNonnegative(attempts: nat, limit: nat, D: nat, R: nat)
    ensures Rest(attempts, limit, D, R) >= 0
    decreases limit - attempts
  {
    if attempts < limit {
      DelayIsBounded(attempts);
      RestIsNonnegative(attempts + 1, limit, D, R);
    }
  }

  /** A job still live at the end of such a run has not passed its date. */
  lemma {:induction false} LiveJobIsNotLate(s: World, steps: seq<Step>, id: Id, D: nat, R: nat)
    requires Structured(s) && ServedOnTime(s, steps, id, D, R)
    ensures id in Exec(s, steps).db.jobs
    ensures Exec(s, steps).db.jobs[id].Live() ==>
              && s.db.jobs[id].Live()
              && Exec(s, steps).db.now <= Latest(s.db.jobs[id], D, R)
    decreases |steps|
  {
    if steps == [] {
      RestIsNonnegative(s.db.jobs[id].attempts, s.db.jobs[id].maxAttempts, D, R);
      RestIsNonnegative(s.db.jobs[id].attempts + 1, s.db.jobs[id].maxAttempts, D, R);
    } else {
      RowStep(s, steps[0], id);
      StructureKept(s, steps[0]);
      MoveKeepsDate(s.db, s.db.jobs[id], MoveOn(TransactionOf(s, steps[0]), id), D, R);
      LiveJobIsNotLate(Apply(s, steps[0]), steps[1..], id, D, R);
    }
  }

  /** The budget in closed form: a round per attempt left, and the delays between. */
  lemma {:induction false} RestClosedForm(attempts: nat, limit: nat, D: nat, R: nat)
    requires 1 <= attempts <= limit
    ensures Rest(attempts, limit, D, R)
            == (limit - attempts) * (JITTER_LIMIT + Round(D, R)) + TotalDelay(limit - 1) - TotalDelay(attempts - 1)
    decreases limit - attempts
  {
    if attempts < limit {
      RestClosedForm(attempts + 1, limit, D, R);
      assert (limit - attempts) * (JITTER_LIMIT + Round(D, R))
          == (limit - (attempts + 1)) * (JITTER_LIMIT + Round(D, R)) + (JITTER_LIMIT + Round(D, R));
    }
  }

  /** The date of a job not yet tried: n rounds and n - 1 delays after it is due. */
  function FirstDate(row: Job, D: nat, R: nat): int
    requires row.maxAttempts > 0
  {
    var n := row.maxAttempts;
    row.availableAt + n * Round(D, R) + TotalDelay(n - 1) + (n - 1) * JITTER_LIMIT
  }

  lemma FirstDateIsLatest(row: Job, D: nat, R: nat)
    requires row.maxAttempts > 0 && row.state == JobState.Pending && row.attempts == 0
    ensures Latest(row, D, R) == FirstDate(row, D, R)
  {
    var n := row.maxAttempts;
    RestClosedForm(1, n, D, R);
    assert (n - 1) * (JITTER_LIMIT + Round(D, R)) == (n - 1) * JITTER_LIMIT + (n - 1) * Round(D, R);
  }

  /** A new job is over by its first date. */
  lemma NewJobIsOverInTime(s: World, steps: seq<Step>, id: Id, D: nat, R: nat)
    requires Structured(s) && ServedOnTime(s, steps, id, D, R)
    requires s.db.jobs[id].state == JobState.Pending && s.db.jobs[id].attempts == 0
    ensures s.db.jobs[id].maxAttempts > 0 && id in Exec(s, steps).db.jobs
    ensures Exec(s, steps).db.now > FirstDate(s.db.jobs[id], D, R) ==> !Exec(s, steps).db.jobs[id].Live()
  {
    LiveJobIsNotLate(s, steps, id, D, R);
    FirstDateIsLatest(s.db.jobs[id], D, R);
  }

  /** An OCR job not tried again before the given time. */
  ghost predicate Waits(db: Db, id: Id, attempts: nat, until: Time) {
    && id in db.jobs
    && var row := db.jobs[id];
       && row.kind.Ocr?
       && row.attempts >= attempts
       && (row.attempts > attempts ==> until <= db.now)
       && (row.attempts == attempts ==> row.state == JobState.Pending && until <= row.availableAt)
  }

  lemma MoveWaits(db: Db, id: Id, move: Move, now: Time, attempts: nat, until: Time)
    requires Waits(db, id, attempts, until) && CanMove(db, db.jobs[id], move) && db.now <= now
    ensures var moved := Moved(db, db.jobs[id], move);
            && moved.kind.Ocr?
            && moved.attempts >= attempts
            && (moved.attempts > attempts ==> until <= now)
            && (moved.attempts == attempts ==> moved.state == JobState.Pending && until <= moved.availableAt)
  {}

  lemma {:induction false} RunWaits(s: World, steps: seq<Step>, id: Id, attempts: nat, until: Time)
    requires Structured(s) && Waits(s.db, id, attempts, until)
    ensures Waits(Exec(s, steps).db, id, attempts, until)
    decreases |steps|
  {
    if steps != [] {
      RowStep(s, steps[0], id);
      StructureKept(s, steps[0]);
      MoveWaits(s.db, id, MoveOn(TransactionOf(s, steps[0]), id), Apply(s, steps[0]).db.now, attempts, until);
      RunWaits(Apply(s, steps[0]), steps[1..], id, attempts, until);
    }
  }

  lemma JitterIsDrawn(s: World, step: Step, id: Id)
    requires Possible(step)
    ensures Jittered(MoveOn(TransactionOf(s, step), id))
  {}

  lemma RetryMove(db: Db, row: Job, move: Move)
    requires CanMove(db, row, move) && row.kind.Ocr? && row.state == JobState.Running && Jittered(move)
    requires Moved(db, row, move).state == JobState.Pending
    ensures var moved := Moved(db, row, move);
            moved.kind.Ocr? && moved.attempts == row.attempts && moved.availableAt >= db.now + Delay(row.attempts)
  {}

  /** A step that puts a running job back to pending makes it wait for its delay. */
  lemma RetryWaits(s: World, step: Step, id: Id)
    requires Structured(s) && id in s.db.jobs && s.db.jobs[id].kind.Ocr? && s.db.jobs[id].state == JobState.Running
    requires Possible(step)
    ensures id in Apply(s, step).db.jobs
    ensures Apply(s, step).db.jobs[id].state == JobState.Pending ==>
              Waits(Apply(s, step).db, id, s.db.jobs[id].attempts, s.db.now + Delay(s.db.jobs[id].attempts))
  {
    RowStep(s, step, id);
    var move := MoveOn(TransactionOf(s, step), id);
    JitterIsDrawn(s, step, id);
    if Apply(s, step).db.jobs[id].state == JobState.Pending {
      RetryMove(s.db, s.db.jobs[id], move);
    }
  }
}
