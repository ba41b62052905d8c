/** What the other processes may do between two steps of one's own. */
module Interference {
  import opened Records
  import opened Protocol
  import opened Transactions
  import opened Ledger
  import opened Structure
  import opened Safety

  /** Whether a step is taken by the given worker or upload. */
  predicate TakenBy(step: Step, id: Id) {
    match step
    case ReadRow(worker) => worker == id
    case Fetch(worker, _) => worker == id
    case Extract(worker) => worker == id
    case Erase(worker, _, _) => worker == id
    case End(worker, _, _) => worker == id
    case DeclareIntent(upload) => upload == id
    case Store(upload, _, _) => upload == id
    case CommitUpload(upload, _) => upload == id
    case Abort(upload) => upload == id
    case ExpediteIntent(upload) => upload == id
    case _ => false
  }

  predicate LeftAlone(s: World, after: World, id: Id) {
    && (id in s.workers ==> id in after.workers && after.workers[id] == s.workers[id])
    && (id in s.uploads ==> id in after.uploads && after.uploads[id] == s.uploads[id])
  }

  lemma OtherWorkersStay(s: World, step: Step, id: Id)
    requires id < s.db.nextId && !TakenBy(step, id) && id in s.workers
    ensures id in Apply(s, step).workers && Apply(s, step).workers[id] == s.workers[id]
  {}

  /** Other processes' steps do not touch a process's own memory. */
  lemma OthersLeaveAlone(s: World, step: Step, id: Id)
    requires id < s.db.nextId && !TakenBy(step, id)
    ensures LeftAlone(s, Apply(s, step), id)
  {
    if id in s.workers {
      OtherWorkersStay(s, step, id);
    }
    OtherUploads(s, step, id);
  }

  /** Time and identifiers only go forward. */
  lemma StepMoves(s: World, step: Step)
    requires Structured(s)
    ensures s.db.now <= Apply(s, step).db.now && s.db.nextId <= Apply(s, step).db.nextId
  {
    StepCommits(s, step);
    RowAfter(s.db, TransactionOf(s, step), 0);
  }

  /** A run of other processes' steps leaves a process's memory alone. */
  lemma {:induction false} OthersRun(s: World, steps: seq<Step>, id: Id)
    requires Safe(s) && id < s.db.nextId && forall step | step in steps :: !TakenBy(step, id)
    ensures Safe(Exec(s, steps)) && LeftAlone(s, Exec(s, steps), id)
    ensures s.db.now <= Exec(s, steps).db.now && id < Exec(s, steps).db.nextId
    decreases |steps|
  {
    if steps != [] {
      OthersLeaveAlone(s, steps[0], id);
      SafetyKept(s, steps[0]);
      StepMoves(s, steps[0]);
      OthersRun(Apply(s, steps[0]), steps[1..], id);
    }
  }

  /** A run taken one step further. */
  lemma OneStepMore(s: World, steps: seq<Step>, step: Step)
    requires Safe(Exec(s, steps))
    ensures Exec(s, steps + [step]) == Apply(Exec(s, steps), step)
    ensures Safe(Exec(s, steps + [step]))
  {
    ExecAppends(s, steps, [step]);
    var middle := Exec(s, steps);
    assert Exec(middle, [step]) == Exec(Apply(middle, step), []);
    SafetyKept(middle, step);
  }

  /** One run after another. */
  lemma RunsOn(s: World, run: seq<Step>, more: seq<Step>)
    ensures Exec(s, run + more) == Exec(Exec(s, run), more)
  {
    ExecAppends(s, run, more);
  }

  /** A state that a run passes through. */
  ghost predicate OnTheWay(s: World, run: seq<Step>, middle: World) {
    exists head :: head <= run && middle == Exec(s, head)
  }

  lemma EndsOnTheWay(s: World, run: seq<Step>, more: seq<Step>)
    ensures OnTheWay(s, run + more, s)
    ensures OnTheWay(s, run + more, Exec(s, run))
  {
    assert [] <= run + more && Exec(s, []) == s;
    assert run <= run + more;
  }

  lemma StillOnTheWay(s: World, run: seq<Step>, more: seq<Step>, middle: World)
    requires OnTheWay(s, run, middle) || OnTheWay(Exec(s, run), more, middle)
    ensures OnTheWay(s, run + more, middle)
  {
    if OnTheWay(s, run, middle) {
      var head :| head <= run && middle == Exec(s, head);
      assert head <= run + more;
    } else {
      var head :| head <= more && middle == Exec(Exec(s, run), head);
      RunsOn(s, run, head);
      assert run + head <= run + more;
    }
  }
}
