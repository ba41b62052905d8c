/** Attempts are bounded: between rearms a job's measure falls at every change
    of its state, but for one: the cancellation of a cleanup that had failed. */
module Attempts {
  import opened Records
  import opened Protocol
  import opened Transactions
  import opened Ledger
  import opened Structure
  import opened Safety
  import opened StorageKeys
  import opened Custody

  function Measure(row: Job): int {
    if !row.Live() then 0
    else 2 * (row.maxAttempts - row.attempts) + if row.state == JobState.Running then 1 else 0
  }

  /** Whether a move cancels a cleanup that has already failed. */
  predicate Overruled(row: Job, move: Move) {
    row.state == JobState.Failed && move.Withdraw?
  }

  /** Every move but a rearm lowers the measure when it changes the state, unless
      it overrules a failure. */
  lemma MoveLowersMeasure(db: Db, row: Job, move: Move)
    requires RowOk(row, db.nextId) && CanMove(db, row, move) && !move.Revive?
    ensures var moved := Moved(db, row, move);
            && moved.maxAttempts == row.maxAttempts
            && 0 <= Measure(row) <= 2 * row.maxAttempts
            && (moved.state != row.state && !Overruled(row, move) ==> Measure(moved) < Measure(row))
            && Measure(moved) <= Measure(row)
  {}

  /** Whether a step changes the state of a job. */
  ghost predicate Shifts(s: World, step: Step, id: Id) {
    && id in s.db.jobs
    && id in Apply(s, step).db.jobs
    && Apply(s, step).db.jobs[id].state != s.db.jobs[id].state
  }

  ghost function ShiftCount(s: World, steps: seq<Step>, id: Id): nat
    decreases |steps|
  {
    if steps == [] then 0
    else (if Shifts(s, steps[0], id) then 1 else 0) + ShiftCount(Apply(s, steps[0]), steps[1..], id)
  }

  /** Whether a step is the commit of an upload whose intent has failed. */
  ghost predicate Overrules(s: World, step: Step, id: Id) {
    id in s.db.jobs && Overruled(s.db.jobs[id], MoveOn(TransactionOf(s, step), id))
  }

  ghost function OverruleCount(s: World, steps: seq<Step>, id: Id): nat
    decreases |steps|
  {
    if steps == [] then 0
    else (if Overrules(s, steps[0], id) then 1 else 0) + OverruleCount(Apply(s, steps[0]), steps[1..], id)
  }

  /** The operator leaves a job alone throughout a run. */
  predicate NeverRearmed(steps: seq<Step>, id: Id) {
    forall i | 0 <= i < |steps| :: steps[i] != RearmCleanup(id)
  }

  lemma OnlyRearmRevives(s: World, step: Step, id: Id)
    requires step != RearmCleanup(id)
    ensures !MoveOn(TransactionOf(s, step), id).Revive?
  {}

  lemma StepLowersMeasure(s: World, step: Step, id: Id)
    requires Structured(s) && id in s.db.jobs && step != RearmCleanup(id)
    ensures id in Apply(s, step).db.jobs
    ensures Apply(s, step).db.jobs[id].maxAttempts == s.db.jobs[id].maxAttempts
    ensures Measure(Apply(s, step).db.jobs[id]) + (if Shifts(s, step, id) then 1 else 0)
            <= Measure(s.db.jobs[id]) + if Overrules(s, step, id) then 1 else 0
  {
    RowStep(s, step, id);
    OnlyRearmRevives(s, step, id);
    MoveLowersMeasure(s.db, s.db.jobs[id], MoveOn(TransactionOf(s, step), id));
  }

  /** A succeeded job stays succeeded. */
  lemma SuccessIsFinal(s: World, step: Step, id: Id)
    requires Structured(s) && id in s.db.jobs
    ensures id in Apply(s, step).db.jobs
    ensures s.db.jobs[id].state == JobState.Succeeded || Overrules(s, step, id) ==>
              Apply(s, step).db.jobs[id].state == JobState.Succeeded
  {
    RowStep(s, step, id);
    MoveKeepsKind(s.db, s.db.jobs[id], MoveOn(TransactionOf(s, step), id));
  }

  /** A failure is overruled at most once, rearmed or not. */
  lemma {:induction false} OverruledOnce(s: World, steps: seq<Step>, id: Id)
    requires Structured(s) && id in s.db.jobs
    ensures OverruleCount(s, steps, id) <= if s.db.jobs[id].state == JobState.Succeeded then 0 else 1
    decreases |steps|
  {
    if steps != [] {
      SuccessIsFinal(s, steps[0], id);
      StructureKept(s, steps[0]);
      OverruledOnce(Apply(s, steps[0]), steps[1..], id);
    }
  }

  /** Between rearms a job changes state at most twice per attempt left, and once
      more only if the run cancels it after it failed. */
  lemma {:induction false} StateChangesAreBounded(s: World, steps: seq<Step>, id: Id)
    requires Structured(s) && id in s.db.jobs && NeverRearmed(steps, id)
    ensures id in Exec(s, steps).db.jobs
    ensures ShiftCount(s, steps, id) + Measure(Exec(s, steps).db.jobs[id])
            <= Measure(s.db.jobs[id]) + OverruleCount(s, steps, id)
    ensures 0 <= Measure(Exec(s, steps).db.jobs[id]) && Measure(s.db.jobs[id]) <= 2 * s.db.jobs[id].maxAttempts
    decreases |steps|
  {
    MoveLowersMeasure(s.db, s.db.jobs[id], Stay);
    if steps != [] {
      StepLowersMeasure(s, steps[0], id);
      StructureKept(s, steps[0]);
      StateChangesAreBounded(Apply(s, steps[0]), steps[1..], id);
    }
  }

  lemma TimelyCommitFindsRest(s: World, step: Step)
    requires Structured(s) && InCustody(s) && InGrace(s, step)
    ensures var txn := TransactionOf(s, step);
            txn.Inserted? ==> txn.intent in s.db.jobs && s.db.jobs[txn.intent].state == JobState.Pending
  {
    InsertedIsUploaded(s, step);
    if TransactionOf(s, step).Inserted? {
      assert Sheltered(s, step.upload);
    }
  }

  lemma OnlyCommitsWithdraw(s: World, step: Step, id: Id)
    requires MoveOn(TransactionOf(s, step), id).Withdraw?
    ensures TransactionOf(s, step).Inserted? && TransactionOf(s, step).intent == id
  {}

  lemma OcrIsNotWithdrawn(s: World, step: Step, id: Id)
    requires Structured(s) && id in s.db.jobs && s.db.jobs[id].kind.Ocr?
    ensures !MoveOn(TransactionOf(s, step), id).Withdraw?
  {
    RowStep(s, step, id);
  }

  /** OCR jobs are never cancelled, and within the grace no intent that failed is. */
  lemma NothingOverruled(s: World, step: Step, id: Id)
    requires Structured(s) && id in s.db.jobs
    requires s.db.jobs[id].kind.Ocr? || (InCustody(s) && InGrace(s, step))
    ensures !Overrules(s, step, id)
  {
    if Overrules(s, step, id) {
      OnlyCommitsWithdraw(s, step, id);
    }
    if s.db.jobs[id].kind.Ocr? {
      OcrIsNotWithdrawn(s, step, id);
    } else {
      TimelyCommitFindsRest(s, step);
    }
  }

  lemma {:induction false} RunOverrulesNothing(s: World, steps: seq<Step>, id: Id)
    requires Safe(s) && id in s.db.jobs
    requires s.db.jobs[id].kind.Ocr? || (InCustody(s) && Graceful(s, steps))
    ensures OverruleCount(s, steps, id) == 0
    decreases |steps|
  {
    if steps != [] {
      NothingOverruled(s, steps[0], id);
      SafetyKept(s, steps[0]);
      RowStep(s, steps[0], id);
      MoveKeepsKind(s.db, s.db.jobs[id], MoveOn(TransactionOf(s, steps[0]), id));
      if !s.db.jobs[id].kind.Ocr? {
        CustodyKept(s, steps[0]);
      }
      RunOverrulesNothing(Apply(s, steps[0]), steps[1..], id);
    }
  }

  lemma {:induction false} ShiftCountAppends(s: World, steps: seq<Step>, more: seq<Step>, id: Id)
    ensures ShiftCount(s, steps + more, id) == ShiftCount(s, steps, id) + ShiftCount(Exec(s, steps), more, id)
    decreases |steps|
  {
    if steps == [] {
      assert steps + more == more;
    } else {
      assert (steps + more)[1..] == steps[1..] + more;
      ShiftCountAppends(Apply(s, steps[0]), steps[1..], more, id);
    }
  }

  /** How often a job has changed state since it was new, until it succeeds. */
  predicate Tallied(row: Job, changes: int) {
    changes == 2 * row.attempts - if row.state == JobState.Running then 1 else 0
  }

  /** Whether a move cancels a cleanup that failed with its attempts used up. */
  predicate Exhausted(row: Job, move: Move) {
    Overruled(row, move) && row.attempts == row.maxAttempts
  }

  lemma MoveTallies(db: Db, row: Job, move: Move, changes: int)
    requires RowOk(row, db.nextId) && CanMove(db, row, move) && !move.Revive?
    requires row.state != JobState.Succeeded && Tallied(row, changes)
    ensures var moved := Moved(db, row, move);
            var after := changes + if moved.state != row.state then 1 else 0;
            && moved.maxAttempts == row.maxAttempts
            && (if moved.state != JobState.Succeeded then Tallied(moved, after) && !Overruled(row, move)
                else after > 2 * row.maxAttempts <==> Exhausted(row, move))
  {}

  lemma TallyIsBounded(row: Job, nextId: Id, changes: int)
    requires RowOk(row, nextId) && Tallied(row, changes)
    ensures changes <= 2 * row.maxAttempts
  {}

  ghost predicate Exhausts(s: World, step: Step, id: Id) {
    id in s.db.jobs && Exhausted(s.db.jobs[id], MoveOn(TransactionOf(s, step), id))
  }

  /** Some commit of a run cancels the job after it failed with its attempts used up. */
  ghost predicate SomeExhausts(s: World, steps: seq<Step>, id: Id)
    decreases |steps|
  {
    steps != [] && (Exhausts(s, steps[0], id) || SomeExhausts(Apply(s, steps[0]), steps[1..], id))
  }

  /** A job that succeeded changes no more. */
  lemma {:induction false} SuccessChangesNoMore(s: World, steps: seq<Step>, id: Id)
    requires Structured(s) && id in s.db.jobs && s.db.jobs[id].state == JobState.Succeeded
    ensures ShiftCount(s, steps, id) == 0 && !SomeExhausts(s, steps, id)
    ensures id in Exec(s, steps).db.jobs && Exec(s, steps).db.jobs[id].state == JobState.Succeeded
    decreases |steps|
  {
    if steps != [] {
      SuccessIsFinal(s, steps[0], id);
      StructureKept(s, steps[0]);
      SuccessChangesNoMore(Apply(s, steps[0]), steps[1..], id);
    }
  }

  lemma StepTallies(s: World, step: Step, id: Id, changes: int)
    requires Structured(s) && id in s.db.jobs && step != RearmCleanup(id)
    requires s.db.jobs[id].state != JobState.Succeeded && Tallied(s.db.jobs[id], changes)
    ensures id in Apply(s, step).db.jobs
    ensures var row := Apply(s, step).db.jobs[id];
            var after := changes + if Shifts(s, step, id) then 1 else 0;
            && row.maxAttempts == s.db.jobs[id].maxAttempts
            && (if row.state != JobState.Succeeded then Tallied(row, after) && !Exhausts(s, step, id)
                else after > 2 * row.maxAttempts <==> Exhausts(s, step, id))
  {
    RowStep(s, step, id);
    OnlyRearmRevives(s, step, id);
    MoveTallies(s.db, s.db.jobs[id], MoveOn(TransactionOf(s, step), id), changes);
  }

  lemma {:induction false} MaximumIsFixed(s: World, steps: seq<Step>, id: Id)
    requires Structured(s) && id in s.db.jobs && NeverRearmed(steps, id)
    ensures id in Exec(s, steps).db.jobs
    ensures Exec(s, steps).db.jobs[id].maxAttempts == s.db.jobs[id].maxAttempts
    decreases |steps|
  {
    if steps != [] {
      StepLowersMeasure(s, steps[0], id);
      StructureKept(s, steps[0]);
      MaximumIsFixed(Apply(s, steps[0]), steps[1..], id);
    }
  }

  /** Changes counted on from a tally exceed twice the attempts exactly if some
      step exhausts the job; without one the tally goes on until it succeeds. */
  lemma {:induction false} RunTallies(s: World, steps: seq<Step>, id: Id, changes: int)
    requires Structured(s) && id in s.db.jobs && NeverRearmed(steps, id)
    requires s.db.jobs[id].state != JobState.Succeeded && Tallied(s.db.jobs[id], changes)
    ensures id in Exec(s, steps).db.jobs
    ensures Exec(s, steps).db.jobs[id].maxAttempts == s.db.jobs[id].maxAttempts
    ensures changes + ShiftCount(s, steps, id) > 2 * s.db.jobs[id].maxAttempts <==> SomeExhausts(s, steps, id)
    ensures Exec(s, steps).db.jobs[id].state != JobState.Succeeded ==>
              Tallied(Exec(s, steps).db.jobs[id], changes + ShiftCount(s, steps, id))
    decreases |steps|
  {
    if steps == [] {
      TallyIsBounded(s.db.jobs[id], s.db.nextId, changes);
    } else {
      var after := Apply(s, steps[0]);
      StepTallies(s, steps[0], id, changes);
      StructureKept(s, steps[0]);
      if after.db.jobs[id].state == JobState.Succeeded {
        SuccessChangesNoMore(after, steps[1..], id);
        MaximumIsFixed(after, steps[1..], id);
      } else {
        RunTallies(after, steps[1..], id, changes + if Shifts(s, steps[0], id) then 1 else 0);
      }
    }
  }

  /** The commit that overwrites a new job's row passes twice its attempts exactly
      when that row is failed with its attempts used up. */
  lemma CommitPasses(s: World, steps: seq<Step>, step: Step, id: Id)
    requires Structured(s) && id in s.db.jobs && NeverRearmed(steps, id) && step != RearmCleanup(id)
    requires s.db.jobs[id].state == JobState.Pending && s.db.jobs[id].attempts == 0
    requires Structured(Exec(s, steps))
    requires MoveOn(TransactionOf(Exec(s, steps), step), id).Withdraw?
    ensures id in Exec(s, steps).db.jobs
    ensures ShiftCount(s, steps, id) <= 2 * s.db.jobs[id].maxAttempts < ShiftCount(s, steps + [step], id)
            <==> var row := Exec(s, steps).db.jobs[id];
                 row.state == JobState.Failed && row.attempts == row.maxAttempts
  {
    RunTallies(s, steps, id, 0);
    var middle := Exec(s, steps);
    ShiftCountAppends(s, steps, [step], id);
    assert ShiftCount(middle, [step], id)
        == (if Shifts(middle, step, id) then 1 else 0) + ShiftCount(Apply(middle, step), [], id);
    if middle.db.jobs[id].state == JobState.Succeeded {
      SuccessIsFinal(middle, step, id);
    } else {
      TallyIsBounded(middle.db.jobs[id], middle.db.nextId, ShiftCount(s, steps, id));
      StepTallies(middle, step, id, ShiftCount(s, steps, id));
      RowStep(middle, step, id);
    }
  }
}
