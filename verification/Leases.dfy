/** Live workers are never fenced: the lease outlasts the task time limit. */
module Leases {
  import opened Records
  import opened Jobs
  import opened Protocol
  import opened Transactions
  import opened Ledger
  import opened Structure
  import opened Safety
  import opened StorageKeys
  import opened Custody
  import opened Fencing
  import opened Attempts

  /** While its claimed lease runs, a worker that has not returned holds its row. */
  ghost predicate Guarded(s: World, token: Id) {
    token in s.workers && s.workers[token].claim.leaseUntil.Some? ==>
      var w := s.workers[token];
      !w.returned && s.db.now < w.claim.leaseUntil.value ==>
        && Holds(s.db, w.job, Some(token))
        && s.db.jobs[w.job].leaseUntil == w.claim.leaseUntil
  }

  ghost predicate AllGuarded(s: World, cleanups: bool) {
    forall token | token in s.workers && (cleanups || s.workers[token].claim.kind.Ocr?) :: Guarded(s, token)
  }

  /** A worker has returned once its end called finish, and only then. */
  lemma ReturnsByEnd(s: World, step: Step, token: Id)
    requires token in s.workers && token < s.db.nextId
    ensures token in Apply(s, step).workers
    ensures Apply(s, step).workers[token].returned
            <==> s.workers[token].returned
                 || (step.End? && step.worker == token && OutcomeOf(s.workers[token], step.failure).Some?)
  {}

  /** Only the worker that holds a row returns it. */
  lemma ReturnedByHolder(s: World, step: Step, token: Id)
    requires WorkersOk(s) && token in s.workers && Holds(s.db, s.workers[token].job, Some(token))
    requires MoveOn(TransactionOf(s, step), s.workers[token].job).Return?
    ensures step.End? && step.worker == token && OutcomeOf(s.workers[token], step.failure).Some?
  {}

  predicate Declared(progress: Progress, job: Id) {
    (progress.Intended? || progress.Stored?) && progress.intent == job
  }

  /** A job that is the intent of an upload still before its commit. */
  ghost predicate OpenIntent(s: World, job: Id) {
    exists upload :: upload in s.uploads && Declared(s.uploads[upload].progress, job)
  }

  lemma OwnIntentStays(s: World, step: Step, upload: Id, job: Id)
    requires Structured(s) && job in s.db.jobs && UploadOf(s, step) == Some(upload)
    requires upload in Apply(s, step).uploads && Declared(Apply(s, step).uploads[upload].progress, job)
    ensures upload in s.uploads && Declared(s.uploads[upload].progress, job)
  {}

  /** A job that is no open upload's intent never becomes one. */
  lemma ApartStays(s: World, step: Step, job: Id)
    requires Structured(s) && job in s.db.jobs && !OpenIntent(s, job)
    ensures !OpenIntent(Apply(s, step), job)
  {
    var after := Apply(s, step);
    forall upload | upload in after.uploads ensures !Declared(after.uploads[upload].progress, job) {
      if UploadOf(s, step) != Some(upload) {
        OtherUploads(s, step, upload);
      } else if Declared(after.uploads[upload].progress, job) {
        OwnIntentStays(s, step, upload, job);
      }
    }
  }

  /** A row that a worker holds is withdrawn only outside the grace, and only if it
      is an open upload's intent. */
  lemma HeldIsNotWithdrawn(s: World, step: Step, token: Id)
    requires Structured(s) && token in s.workers && Holds(s.db, s.workers[token].job, Some(token))
    requires || s.workers[token].claim.kind.Ocr?
             || !OpenIntent(s, s.workers[token].job)
             || (InCustody(s) && InGrace(s, step))
    ensures !MoveOn(TransactionOf(s, step), s.workers[token].job).Withdraw?
  {
    var job := s.workers[token].job;
    if MoveOn(TransactionOf(s, step), job).Withdraw? {
      OnlyCommitsWithdraw(s, step, job);
      InsertedIsUploaded(s, step);
      if s.workers[token].claim.kind.Ocr? {
        OcrIsNotWithdrawn(s, step, job);
      } else if OpenIntent(s, job) {
        TimelyCommitFindsRest(s, step);
      }
    }
  }

  lemma GuardStays(s: World, step: Step, token: Id)
    requires Structured(s) && token in s.workers && Guarded(s, token)
    requires || s.workers[token].claim.kind.Ocr?
             || !OpenIntent(s, s.workers[token].job)
             || (InCustody(s) && InGrace(s, step))
    ensures Guarded(Apply(s, step), token)
  {
    var w := s.workers[token];
    WorkersFrom(s, step, token);
    ReturnsByEnd(s, step, token);
    RowStep(s, step, w.job);
    if !w.returned && s.db.now < w.claim.leaseUntil.value {
      HeldIsNotWithdrawn(s, step, token);
      if MoveOn(TransactionOf(s, step), w.job).Return? {
        ReturnedByHolder(s, step, token);
      }
    }
  }

  lemma ClaimGuards(s: World, step: Step)
    requires Structured(s) && Wins(s, step)
    ensures Guarded(Apply(s, step), s.db.nextId)
  {
    WorkersFrom(s, step, s.db.nextId);
    RowStep(s, step, step.job);
    DeliverTouchesNoUpload(s, step);
  }

  lemma GuardsKept(s: World, step: Step, cleanups: bool)
    requires Structured(s) && AllGuarded(s, cleanups)
    requires cleanups ==> InCustody(s) && InGrace(s, step)
    ensures AllGuarded(Apply(s, step), cleanups)
  {
    var after := Apply(s, step);
    forall token | token in after.workers && (cleanups || after.workers[token].claim.kind.Ocr?)
      ensures Guarded(after, token)
    {
      WorkersFrom(s, step, token);
      if token in s.workers {
        GuardStays(s, step, token);
      } else {
        ClaimGuards(s, step);
      }
    }
  }

  /** OCR workers are guarded in every run, cleanup workers in every run within
      the upload grace. */
  lemma {:induction false} RunGuards(s: World, steps: seq<Step>, cleanups: bool)
    requires Safe(s) && AllGuarded(s, cleanups)
    requires cleanups ==> InCustody(s) && Graceful(s, steps)
    ensures AllGuarded(Exec(s, steps), cleanups)
    decreases |steps|
  {
    if steps != [] {
      GuardsKept(s, steps[0], cleanups);
      SafetyKept(s, steps[0]);
      if cleanups {
        CustodyKept(s, steps[0]);
      }
      RunGuards(Apply(s, steps[0]), steps[1..], cleanups);
    }
  }

  /** A worker whose row was no open upload's intent is guarded in every run. */
  lemma {:induction false} RunGuardsApart(s: World, steps: seq<Step>, token: Id)
    requires Safe(s) && token in s.workers && Guarded(s, token) && !OpenIntent(s, s.workers[token].job)
    ensures token in Exec(s, steps).workers && Guarded(Exec(s, steps), token)
    decreases |steps|
  {
    if steps != [] {
      WorkersFrom(s, steps[0], token);
      GuardStays(s, steps[0], token);
      ApartStays(s, steps[0], s.workers[token].job);
      SafetyKept(s, steps[0]);
      RunGuardsApart(Apply(s, steps[0]), steps[1..], token);
    }
  }

  /** A run taken apart at one of its steps. */
  lemma RunSplits(s: World, steps: seq<Step>, i: int)
    requires Safe(s) && 0 <= i < |steps|
    ensures Safe(Exec(s, steps[..i])) && Safe(Apply(Exec(s, steps[..i]), steps[i]))
    ensures Exec(s, steps) == Exec(Apply(Exec(s, steps[..i]), steps[i]), steps[i + 1..])
  {
    RunIsSafe(s, steps[..i]);
    assert steps == steps[..i] + steps[i..] && steps[i..][1..] == steps[i + 1..];
    ExecAppends(s, steps[..i], steps[i..]);
    SafetyKept(Exec(s, steps[..i]), steps[i]);
  }

  /** A step of a run at which a worker claimed a row that was no open upload's intent. */
  ghost predicate ClaimsApart(s: World, steps: seq<Step>, i: int, token: Id) {
    && 0 <= i < |steps|
    && var earlier := Exec(s, steps[..i]);
       Wins(earlier, steps[i]) && earlier.db.nextId == token && !OpenIntent(earlier, steps[i].job)
  }

  lemma ClaimedApartIsGuarded(s: World, steps: seq<Step>, i: int, token: Id)
    requires Safe(s) && ClaimsApart(s, steps, i, token)
    ensures Guarded(Exec(s, steps), token)
  {
    var before := Exec(s, steps[..i]);
    var claimed := Apply(before, steps[i]);
    RunSplits(s, steps, i);
    WorkersFrom(before, steps[i], token);
    ClaimGuards(before, steps[i]);
    ApartStays(before, steps[i], steps[i].job);
    RunGuardsApart(claimed, steps[i + 1..], token);
  }

  /** The first finish of a worker within its time limit takes effect. */
  lemma TimelyFinishIsEffective(s: World, step: Step)
    requires Structured(s) && step.End? && step.worker in s.workers && Guarded(s, step.worker)
    requires var w := s.workers[step.worker];
             && !w.returned
             && OutcomeOf(w, step.failure).Some?
             && s.db.now <= w.claim.leaseUntil.value - JOB_LEASE + TASK_TIME_LIMIT
    ensures Effective(s, step, step.worker)
  {}

  /** The step of a run at which a worker won its claim. */
  ghost predicate ClaimsAt(s: World, steps: seq<Step>, i: int, token: Id) {
    0 <= i < |steps| && var earlier := Exec(s, steps[..i]); Wins(earlier, steps[i]) && earlier.db.nextId == token
  }

  /** A row that runs under the token only on the given lease. */
  predicate LeasedUntil(db: Db, job: Id, token: Id, until: Time) {
    token < db.nextId && (Holds(db, job, Some(token)) ==> db.jobs[job].leaseUntil == Some(until))
  }

  lemma TransactionKeepsLease(db: Db, txn: Transaction, job: Id, token: Id, until: Time)
    requires Fits(db, txn) && RowsOk(db) && LeasedUntil(db, job, token, until)
    ensures LeasedUntil(Committed(db, txn), job, token, until)
  {
    RowAfter(db, txn, job);
  }

  /** A worker of a job, whose row runs under its token only on the claimed lease. */
  predicate Tenant(s: World, token: Id, job: Id, until: Time) {
    && token in s.workers
    && s.workers[token].job == job
    && s.workers[token].claim.leaseUntil == Some(until)
    && LeasedUntil(s.db, job, token, until)
  }

  lemma {:induction false} TenantStays(s: World, steps: seq<Step>, token: Id, job: Id, until: Time)
    requires Safe(s) && Tenant(s, token, job, until)
    ensures Tenant(Exec(s, steps), token, job, until)
    decreases |steps|
  {
    if steps != [] {
      StepCommits(s, steps[0]);
      TransactionKeepsLease(s.db, TransactionOf(s, steps[0]), job, token, until);
      WorkersFrom(s, steps[0], token);
      SafetyKept(s, steps[0]);
      TenantStays(Apply(s, steps[0]), steps[1..], token, job, until);
    }
  }

  /** A claim takes its lease from the clock it is won at. */
  lemma ClaimLeases(s: World, step: Step)
    requires Structured(s) && Wins(s, step)
    ensures Tenant(Apply(s, step), s.db.nextId, step.job, s.db.now + 240 * SECOND)
  {
    WorkersFrom(s, step, s.db.nextId);
    RowStep(s, step, step.job);
    StepCommits(s, step);
  }

  lemma ClaimantStays(before: World, step: Step, rest: seq<Step>)
    requires Safe(before) && Wins(before, step)
    ensures Tenant(Exec(Apply(before, step), rest), before.db.nextId, step.job, before.db.now + 240 * SECOND)
  {
    ClaimLeases(before, step);
    SafetyKept(before, step);
    TenantStays(Apply(before, step), rest, before.db.nextId, step.job, before.db.now + 240 * SECOND);
  }

  /** What the claim at a step of a run leaves of its worker at the end of the run. */
  lemma ClaimedWorker(s: World, steps: seq<Step>, i: int, token: Id)
    requires Safe(s) && ClaimsAt(s, steps, i, token)
    ensures Tenant(Exec(s, steps), token, steps[i].job, Exec(s, steps[..i]).db.now + 240 * SECOND)
  {
    RunSplits(s, steps, i);
    ClaimantStays(Exec(s, steps[..i]), steps[i], steps[i + 1..]);
  }

  /** Every worker of a run won its claim at some step of it. */
  lemma {:induction false} WorkersClaimed(s: World, steps: seq<Step>, token: Id)
    requires Safe(s) && token !in s.workers && token in Exec(s, steps).workers
    ensures exists i :: ClaimsAt(s, steps, i, token)
    decreases |steps|
  {
    var last := |steps| - 1;
    var before := Exec(s, steps[..last]);
    assert steps == steps[..last] + [steps[last]];
    RunIsSafe(s, steps[..last]);
    ExecAppends(s, steps[..last], [steps[last]]);
    assert Exec(before, [steps[last]]) == Exec(Apply(before, steps[last]), []);
    if token in before.workers {
      WorkersClaimed(s, steps[..last], token);
      var i :| ClaimsAt(s, steps[..last], i, token);
      assert steps[..last][..i] == steps[..i];
      assert ClaimsAt(s, steps, i, token);
    } else {
      WorkersFrom(before, steps[last], token);
      assert ClaimsAt(s, steps, last, token);
    }
  }
}
