/** Why a job is tried again: every attempt but the last ended in a failure that may
    pass, or in a lost lease. */
module Retries {
  import opened Records
  import opened Jobs
  import opened Protocol
  import opened Transactions
  import opened Ledger
  import opened Structure
  import opened Attempts

  /** A step that ends an attempt in a failure that may pass, or loses its lease, and
      so puts the job back to pending. */
  ghost predicate Transient(s: World, step: Step, id: Id) {
    && id in s.db.jobs
    && s.db.jobs[id].state == JobState.Running
    && id in Apply(s, step).db.jobs
    && Apply(s, step).db.jobs[id].state == JobState.Pending
    && match step
       case End(worker, failure, _) =>
         && worker in s.workers
         && s.workers[worker].job == id
         && s.db.jobs[id].runToken == Some(worker)
         && failure.Some?
         && failure.value.retryable
       case RecoverLease(job, _) => job == id
       case _ => false
  }

  ghost function TransientCount(s: World, steps: seq<Step>, id: Id): nat
    decreases |steps|
  {
    if steps == [] then 0
    else (if Transient(s, steps[0], id) then 1 else 0) + TransientCount(Apply(s, steps[0]), steps[1..], id)
  }

  /** How a row's attempts and its transient endings compare since it was new. */
  predicate Tried(row: Job, transients: int) {
    match row.state
    case Pending => row.attempts == transients
    case Running => row.attempts == transients + 1
    case Failed => row.attempts == transients + 1
    case Succeeded => transients <= row.attempts <= transients + 1
  }

  lemma MoveTried(db: Db, row: Job, move: Move, transients: int)
    requires CanMove(db, row, move) && !move.Revive? && Tried(row, transients)
    ensures var moved := Moved(db, row, move);
            Tried(moved, transients
                         + if row.state == JobState.Running && moved.state == JobState.Pending then 1 else 0)
  {}

  lemma BackToPending(db: Db, row: Job, move: Move)
    requires CanMove(db, row, move) && row.state == JobState.Running && Moved(db, row, move).state == JobState.Pending
    ensures move.Lose? || (move.Return? && move.outcome.Failing? && move.outcome.failure.retryable)
  {}

  lemma ReturnedByEnd(s: World, step: Step, id: Id)
    requires WorkersOk(s) && MoveOn(TransactionOf(s, step), id).Return?
    ensures step.End? && step.worker in s.workers
    ensures s.workers[step.worker].job == id && id in s.db.jobs && s.db.jobs[id].runToken == Some(step.worker)
    ensures var outcome := MoveOn(TransactionOf(s, step), id).outcome;
            outcome.Failing? ==> step.failure == Some(outcome.failure)
  {
    if step.End? && step.worker in s.workers {
      assert WorkerOk(s.db, step.worker, s.workers[step.worker]);
    }
  }

  lemma LostByRecovery(s: World, step: Step, id: Id)
    requires MoveOn(TransactionOf(s, step), id).Lose?
    ensures step.RecoverLease? && step.job == id
  {}

  /** Only a finish or a recovery puts a running job back. */
  lemma ReturnsTransiently(s: World, step: Step, id: Id)
    requires Structured(s) && id in s.db.jobs && s.db.jobs[id].state == JobState.Running
    requires var move := MoveOn(TransactionOf(s, step), id);
             && CanMove(s.db, s.db.jobs[id], move)
             && Moved(s.db, s.db.jobs[id], move).state == JobState.Pending
    requires id in Apply(s, step).db.jobs && Apply(s, step).db.jobs[id].state == JobState.Pending
    ensures Transient(s, step, id)
  {
    var move := MoveOn(TransactionOf(s, step), id);
    BackToPending(s.db, s.db.jobs[id], move);
    if move.Lose? {
      LostByRecovery(s, step, id);
    } else {
      ReturnedByEnd(s, step, id);
    }
  }

  lemma StepTried(s: World, step: Step, id: Id, transients: int)
    requires Structured(s) && id in s.db.jobs && step != RearmCleanup(id) && Tried(s.db.jobs[id], transients)
    ensures id in Apply(s, step).db.jobs
    ensures Tried(Apply(s, step).db.jobs[id], transients + if Transient(s, step, id) then 1 else 0)
  {
    RowStep(s, step, id);
    OnlyRearmRevives(s, step, id);
    MoveTried(s.db, s.db.jobs[id], MoveOn(TransactionOf(s, step), id), transients);
    if s.db.jobs[id].state == JobState.Running && Apply(s, step).db.jobs[id].state == JobState.Pending {
      ReturnsTransiently(s, step, id);
    }
  }

  lemma {:induction false} RunTried(s: World, steps: seq<Step>, id: Id, transients: int)
    requires Structured(s) && id in s.db.jobs && NeverRearmed(steps, id) && Tried(s.db.jobs[id], transients)
    ensures id in Exec(s, steps).db.jobs
    ensures Tried(Exec(s, steps).db.jobs[id], transients + TransientCount(s, steps, id))
    decreases |steps|
  {
    if steps != [] {
      StepTried(s, steps[0], id, transients);
      StructureKept(s, steps[0]);
      RunTried(Apply(s, steps[0]), steps[1..], id, transients + if Transient(s, steps[0], id) then 1 else 0);
    }
  }

  /** Of a job that was new and not rearmed since, every attempt but the last ended
      in a failure that may pass or a lost lease; of a pending one, every attempt. */
  lemma AttemptsBeforeTheLastWereTransient(s: World, steps: seq<Step>, id: Id)
    requires Structured(s) && id in s.db.jobs && NeverRearmed(steps, id)
    requires s.db.jobs[id].state == JobState.Pending && s.db.jobs[id].attempts == 0
    ensures id in Exec(s, steps).db.jobs
    ensures var row := Exec(s, steps).db.jobs[id];
            var transients := TransientCount(s, steps, id);
            && row.attempts - 1 <= transients <= row.attempts
            && (row.state == JobState.Pending ==> transients == row.attempts)
  {
    RunTried(s, steps, id, 0);
  }
}
