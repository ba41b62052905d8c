/** Which rows a dispatch round sends, by their columns, and that a message that
    came to nothing is sent again. */
module Redelivery {
  import opened Records
  import opened Jobs
  import opened Protocol
  import opened Transactions
  import opened Ledger
  import opened Structure
  import opened Dispatching

  /** Pending, due, and not sent within the last thirty seconds. */
  predicate Sendable(row: Job, now: Time) {
    && row.state == JobState.Pending
    && row.availableAt <= now
    && (row.dispatchedAt.None? || row.dispatchedAt.value + 30 * SECOND <= now)
  }

  function AllSendable(db: Db): set<Id> {
    set id | id in db.jobs && Sendable(db.jobs[id], db.now)
  }

  lemma DueIsSendable(db: Db, locked: set<Id>)
    ensures Due(db, locked) == AllSendable(db) - locked
  {}

  /** With no row locked and a sufficient limit, a round selects exactly the rows
      that are pending, due and not sent within thirty seconds, each once. */
  lemma RoundSelectsExactly(db: Db, limit: nat)
    requires |AllSendable(db)| <= limit
    ensures var chosen := First(db, Due(db, {}), limit);
            && |chosen| == |AllSendable(db)|
            && forall id :: id in chosen <==> id in db.jobs && Sendable(db.jobs[id], db.now)
  {
    DueIsSendable(db, {});
    FirstIsSelection(db, Due(db, {}), limit);
    var chosen := First(db, Due(db, {}), limit);
    SameSize(chosen, AllSendable(db));
    forall id ensures id in chosen <==> id in db.jobs && Sendable(db.jobs[id], db.now) {
      assert id in chosen <==> id in Members(chosen);
    }
  }

  predicate Earlier(db: Db, id: Id, other: Id) {
    && id in db.jobs
    && other in db.jobs
    && var due, otherDue := db.jobs[id].availableAt, db.jobs[other].availableAt;
       due < otherDue || (due == otherDue && id < other)
  }

  /** A round serves the rows nobody else holds in the order they fell due, ties by
      identifier, as many as its limit, and none left out is earlier than one served. */
  lemma RoundServesInOrder(db: Db, locked: set<Id>, limit: nat)
    ensures var due := AllSendable(db) - locked;
            var chosen := First(db, Due(db, locked), limit);
            && |chosen| == (if |due| < limit then |due| else limit)
            && (forall id | id in chosen :: id in due)
            && (forall i, j | 0 <= i < j < |chosen| :: Earlier(db, chosen[i], chosen[j]))
            && (forall i, id | 0 <= i < |chosen| && id in due && id !in chosen :: Earlier(db, chosen[i], id))
  {
    DueIsSendable(db, locked);
    FirstIsSelection(db, Due(db, locked), limit);
    assert forall id | id in First(db, Due(db, locked), limit) :: id in Members(First(db, Due(db, locked), limit));
  }

  /** A run through which a job stays pending, and is not sent. */
  ghost predicate LeftWaiting(s: World, steps: seq<Step>, job: Id)
    decreases |steps|
  {
    && job in s.db.jobs
    && s.db.jobs[job].state == JobState.Pending
    && (steps != [] ==>
          && !MoveOn(TransactionOf(s, steps[0]), job).Send?
          && LeftWaiting(Apply(s, steps[0]), steps[1..], job))
  }

  /** A row sent at the given time, and due by then. */
  predicate SentAt(row: Job, sent: Time, now: Time) {
    row.state == JobState.Pending && row.dispatchedAt == Some(sent) && row.availableAt <= now
  }

  lemma MoveLeavesSent(db: Db, row: Job, move: Move, sent: Time, now: Time)
    requires CanMove(db, row, move) && SentAt(row, sent, db.now) && !move.Send? && db.now <= now
    requires Moved(db, row, move).state == JobState.Pending
    ensures SentAt(Moved(db, row, move), sent, now)
  {}

  lemma {:induction false} WaitingStaysSent(s: World, steps: seq<Step>, job: Id, sent: Time)
    requires Structured(s) && LeftWaiting(s, steps, job) && SentAt(s.db.jobs[job], sent, s.db.now)
    ensures job in Exec(s, steps).db.jobs && SentAt(Exec(s, steps).db.jobs[job], sent, Exec(s, steps).db.now)
    decreases |steps|
  {
    if steps != [] {
      RowStep(s, steps[0], job);
      StructureKept(s, steps[0]);
      MoveLeavesSent(s.db, s.db.jobs[job], MoveOn(TransactionOf(s, steps[0]), job), sent, Apply(s, steps[0]).db.now);
      WaitingStaysSent(Apply(s, steps[0]), steps[1..], job, sent);
    }
  }

  lemma DispatchSends(s: World, jobs: set<Id>, job: Id)
    requires job in jobs && forall id | id in jobs :: Dispatchable(s.db, id)
    ensures job in Apply(s, Dispatch(jobs)).db.jobs
    ensures SentAt(Apply(s, Dispatch(jobs)).db.jobs[job], s.db.now, Apply(s, Dispatch(jobs)).db.now)
  {}

  /** A job that was sent, and since then neither claimed nor withdrawn nor sent again,
      is selected by a sufficient round exactly if thirty seconds have passed: a lost
      message delays a job, and no more. */
  lemma SentAgainAfterThirtySeconds(s: World, jobs: set<Id>, job: Id, steps: seq<Step>, limit: nat)
    requires Structured(s) && job in jobs && forall id | id in jobs :: Dispatchable(s.db, id)
    requires LeftWaiting(Apply(s, Dispatch(jobs)), steps, job)
    requires |AllSendable(Exec(Apply(s, Dispatch(jobs)), steps).db)| <= limit
    ensures var db := Exec(Apply(s, Dispatch(jobs)), steps).db;
            job in First(db, Due(db, {}), limit) <==> s.db.now + 30 * SECOND <= db.now
  {
    DispatchSends(s, jobs, job);
    StructureKept(s, Dispatch(jobs));
    WaitingStaysSent(Apply(s, Dispatch(jobs)), steps, job, s.db.now);
    RoundSelectsExactly(Exec(Apply(s, Dispatch(jobs)), steps).db, limit);
  }
}
