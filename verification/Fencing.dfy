/** Fencing: a claim token takes effect in at most one finish of any run. */
module Fencing {
  import opened Records
  import opened Jobs
  import opened Protocol
  import opened Transactions
  import opened Ledger
  import opened Structure
  import opened Safety

  /** No row runs under the token, and none will: it has been handed out. */
  ghost predicate Spent(db: Db, token: Id) {
    token < db.nextId && forall id :: !Holds(db, id, Some(token))
  }

  /** Whether a step is a finish that takes effect, under the given token. */
  ghost predicate Effective(s: World, step: Step, token: Id) {
    && step.End?
    && step.worker == token
    && token in s.workers
    && OutcomeOf(s.workers[token], step.failure).Some?
    && Holds(s.db, s.workers[token].job, s.workers[token].claim.runToken)
  }

  lemma TransactionKeepsSpent(db: Db, txn: Transaction, token: Id)
    requires Fits(db, txn) && RowsOk(db) && Spent(db, token)
    ensures Spent(Committed(db, txn), token)
  {
    RowAfter(db, txn, 0);
    forall id ensures !Holds(Committed(db, txn), id, Some(token)) {
      RowAfter(db, txn, id);
      assert !Holds(db, id, Some(token));
    }
  }

  lemma SpentStays(s: World, step: Step, token: Id)
    requires Structured(s) && Spent(s.db, token)
    ensures Spent(Apply(s, step).db, token)
  {
    StepCommits(s, step);
    TransactionKeepsSpent(s.db, TransactionOf(s, step), token);
  }

  lemma EffectiveSpends(s: World, step: Step, token: Id)
    requires Structured(s) && Effective(s, step, token)
    ensures Spent(Apply(s, step).db, token)
  {
    StepCommits(s, step);
    var txn := TransactionOf(s, step);
    var job := s.workers[token].job;
    forall id ensures !Holds(Apply(s, step).db, id, Some(token)) {
      RowAfter(s.db, txn, id);
      if Holds(s.db, id, Some(token)) {
        assert id == job;
      }
    }
  }

  /** Recovering a row spends the token it ran under. */
  lemma RecoverySpends(s: World, job: Id, jitter: nat, token: Id)
    requires Structured(s) && Expired(s.db, job) && s.db.jobs[job].runToken == Some(token)
    ensures Spent(Apply(s, RecoverLease(job, jitter)).db, token)
  {
    var step := RecoverLease(job, jitter);
    StepCommits(s, step);
    forall id ensures !Holds(Apply(s, step).db, id, Some(token)) {
      RowAfter(s.db, Moves(job, Lose(jitter)), id);
    }
  }

  /** How many finishes of a run take effect under a token. */
  ghost function Effects(s: World, steps: seq<Step>, token: Id): nat
    decreases |steps|
  {
    if steps == [] then 0
    else (if Effective(s, steps[0], token) then 1 else 0) + Effects(Apply(s, steps[0]), steps[1..], token)
  }

  lemma {:induction false} SpentHasNoEffect(s: World, steps: seq<Step>, token: Id)
    requires Structured(s) && Spent(s.db, token)
    ensures Effects(s, steps, token) == 0
    decreases |steps|
  {
    if steps != [] {
      assert Effective(s, steps[0], token) ==> s.workers[token].claim.runToken == Some(token);
      StructureKept(s, steps[0]);
      SpentStays(s, steps[0], token);
      SpentHasNoEffect(Apply(s, steps[0]), steps[1..], token);
    }
  }

  /** A token takes effect at most once, whatever is recovered, retried,
      finished again or rearmed in between. */
  lemma {:induction false} OneEffectPerToken(s: World, steps: seq<Step>, token: Id)
    requires Structured(s)
    ensures Effects(s, steps, token) <= 1
    decreases |steps|
  {
    if steps != [] {
      StructureKept(s, steps[0]);
      if Effective(s, steps[0], token) {
        EffectiveSpends(s, steps[0], token);
        SpentHasNoEffect(Apply(s, steps[0]), steps[1..], token);
      } else {
        OneEffectPerToken(Apply(s, steps[0]), steps[1..], token);
      }
    }
  }

  /** A finish that is not effective answers stale and leaves the database alone. */
  lemma OtherFinishesChangeNothing(s: World, step: Step)
    requires step.End? && !Effective(s, step, step.worker)
    ensures Apply(s, step).db == s.db
    ensures step.worker in s.workers ==>
              forall outcome, jitter ::
                OutcomeOf(s.workers[step.worker], step.failure) == Some(outcome) ==>
                  var w := s.workers[step.worker];
                  Finish(s.db, w.job, w.claim.runToken, outcome, jitter).1 == Stale
  {}

  /** A row that no longer runs under the token, and will not again. */
  predicate Released(db: Db, job: Id, token: Id) {
    token < db.nextId && !Holds(db, job, Some(token))
  }

  /** A row that runs under the token only past its lease. */
  predicate Overdue(db: Db, job: Id, token: Id) {
    token < db.nextId && (Holds(db, job, Some(token)) ==> Expired(db, job))
  }

  lemma TransactionKeepsRelease(db: Db, txn: Transaction, job: Id, token: Id)
    requires Fits(db, txn) && RowsOk(db) && token < db.nextId
    ensures Released(db, job, token) ==> Released(Committed(db, txn), job, token)
    ensures Overdue(db, job, token) ==> Overdue(Committed(db, txn), job, token)
  {
    RowAfter(db, txn, job);
  }

  lemma {:induction false} RunKeepsRelease(s: World, steps: seq<Step>, job: Id, token: Id)
    requires Safe(s) && token < s.db.nextId
    ensures Released(s.db, job, token) ==> Released(Exec(s, steps).db, job, token)
    ensures Overdue(s.db, job, token) ==> Overdue(Exec(s, steps).db, job, token)
    decreases |steps|
  {
    if steps != [] {
      StepCommits(s, steps[0]);
      TransactionKeepsRelease(s.db, TransactionOf(s, steps[0]), job, token);
      RowAfter(s.db, TransactionOf(s, steps[0]), 0);
      SafetyKept(s, steps[0]);
      RunKeepsRelease(Apply(s, steps[0]), steps[1..], job, token);
    }
  }
}
