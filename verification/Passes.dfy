/** What a pass of lease recovery comes to while other processes act between its
    transactions. */
module Passes {
  import opened Records
  import opened Jobs
  import opened Protocol
  import opened Structure
  import opened Safety
  import opened Fencing
  import opened Interference
  import Recovery

  /** A run that recovers a job's lease right after the given head, at a time when
      the lease had expired. */
  ghost predicate RecoveredAfter(s: World, run: seq<Step>, job: Id, head: seq<Step>) {
    && Expired(Exec(s, head).db, job)
    && exists jitter, tail :: run == head + [RecoverLease(job, jitter)] + tail
  }

  lemma RecoveryIsLast(s: World, head: seq<Step>, job: Id, jitter: nat)
    requires Safe(Exec(s, head)) && Expired(Exec(s, head).db, job)
    ensures RecoveredAfter(s, head + [RecoverLease(job, jitter)], job, head)
    ensures !Expired(Apply(Exec(s, head), RecoverLease(job, jitter)).db, job)
  {
    assert head + [RecoverLease(job, jitter)] == head + [RecoverLease(job, jitter)] + [];
  }

  lemma RecoveryRemains(s: World, run: seq<Step>, more: seq<Step>, job: Id, head: seq<Step>)
    requires RecoveredAfter(s, run, job, head)
    ensures RecoveredAfter(s, run + more, job, head)
  {
    var jitter, tail :| run == head + [RecoverLease(job, jitter)] + tail;
    assert run + more == head + [RecoverLease(job, jitter)] + (tail + more);
  }

  lemma RecoveryLater(s: World, run: seq<Step>, more: seq<Step>, job: Id, head: seq<Step>)
    requires RecoveredAfter(Exec(s, run), more, job, head)
    ensures RecoveredAfter(s, run + more, job, run + head)
  {
    var jitter, tail :| more == head + [RecoverLease(job, jitter)] + tail;
    assert run + more == (run + head) + [RecoverLease(job, jitter)] + tail;
    RunsOn(s, run, head);
  }

  /** Unlocked rows, each with the run before its recovery. */
  ghost predicate AllRecovered(
    s: World, run: seq<Step>, recovered: map<Id, seq<Step>>, rows: seq<Id>, locked: set<Id>)
  {
    forall job | job in recovered :: job in rows && job !in locked && RecoveredAfter(s, run, job, recovered[job])
  }

  lemma AllStayRecovered(
    s: World, run: seq<Step>, more: seq<Step>, recovered: map<Id, seq<Step>>, rows: seq<Id>, job: Id, locked: set<Id>)
    requires AllRecovered(s, run, recovered, rows, locked)
    ensures AllRecovered(s, run + more, recovered, rows + [job], locked)
  {
    forall other | other in recovered ensures RecoveredAfter(s, run + more, other, recovered[other]) {
      RecoveryRemains(s, run, more, other, recovered[other]);
    }
  }

  lemma OneMoreRecovered(
    s: World, run: seq<Step>, recovered: map<Id, seq<Step>>, rows: seq<Id>, job: Id, locked: set<Id>, head: seq<Step>)
    requires AllRecovered(s, run, recovered, rows, locked)
    requires job in rows && job !in locked && RecoveredAfter(s, run, job, head)
    ensures AllRecovered(s, run, recovered[job := head], rows, locked)
  {}

  predicate ReleasedSince(before: Db, after: Db, job: Id) {
    job in before.jobs && !Holds(after, job, before.jobs[job].runToken)
  }

  /** No unlocked row runs under the token it had before. */
  ghost predicate AllReleased(before: Db, after: Db, rows: seq<Id>, locked: set<Id>) {
    forall job | job in rows && job !in locked :: ReleasedSince(before, after, job)
  }

  lemma {:induction false} IdsGrow(s: World, run: seq<Step>)
    requires Structured(s)
    ensures s.db.nextId <= Exec(s, run).db.nextId
    decreases |run|
  {
    if run != [] {
      StepMoves(s, run[0]);
      StructureKept(s, run[0]);
      IdsGrow(Apply(s, run[0]), run[1..]);
    }
  }

  /** A release lasts, and an expired row that is not expired any more is released. */
  lemma ReleaseOf(s: World, run: seq<Step>, more: seq<Step>, job: Id)
    requires Safe(s) && Expired(s.db, job)
    requires ReleasedSince(s.db, Exec(s, run).db, job) || !Expired(Exec(s, run + more).db, job)
    ensures ReleasedSince(s.db, Exec(s, run + more).db, job)
  {
    var token := s.db.jobs[job].runToken.value;
    RunsOn(s, run, more);
    RunIsSafe(s, run);
    RunKeepsRelease(s, run, job, token);
    RunKeepsRelease(s, run + more, job, token);
    IdsGrow(s, run);
    RunKeepsRelease(Exec(s, run), more, job, token);
  }

  lemma ReleaseLasts(s: World, run: seq<Step>, more: seq<Step>, rows: seq<Id>, locked: set<Id>)
    requires Safe(s) && forall job | job in rows :: Expired(s.db, job)
    requires AllReleased(s.db, Exec(s, run).db, rows, locked)
    ensures AllReleased(s.db, Exec(s, run + more).db, rows, locked)
  {
    forall job | job in rows && job !in locked ensures ReleasedSince(s.db, Exec(s, run + more).db, job) {
      ReleaseOf(s, run, more, job);
    }
  }

  /** How far a pass has come: a run of the protocol that recovered some of the
      rows, each once, and left none of them running as it did. */
  ghost predicate Passed(
    start: World, now: World, run: seq<Step>, recovered: map<Id, seq<Step>>, rows: seq<Id>, locked: set<Id>)
  {
    && Safe(now)
    && now == Exec(start, run)
    && (forall step | step in run :: Possible(step))
    && (forall job | job in rows :: Expired(start.db, job))
    && AllRecovered(start, run, recovered, rows, locked)
    && AllReleased(start.db, now.db, rows, locked)
  }

  lemma PassStarts(start: World, locked: set<Id>)
    requires Safe(start)
    ensures Passed(start, start, [], map[], [], locked)
  {}

  lemma NextCandidate(db: Db, rows: seq<Id>, limit: nat, i: nat)
    requires Recovery.Candidates(db, rows, limit) && i < |rows|
    ensures rows[i] !in rows[..i] && Expired(db, rows[i])
    ensures rows[..i + 1] == rows[..i] + [rows[i]]
  {}

  /** The pass with one more row recovered, or skipped. */
  lemma PassGoesOn(
    start: World, before: World, after: World, run: seq<Step>, own: seq<Step>, recovered: map<Id, seq<Step>>,
    rows: seq<Id>, job: Id, locked: set<Id>, done: bool, head: seq<Step>)
    requires Safe(start) && Passed(start, before, run, recovered, rows, locked)
    requires job !in rows && Expired(start.db, job)
    requires Safe(after) && after == Exec(before, own) && forall step | step in own :: Possible(step)
    requires done ==> job !in locked && RecoveredAfter(before, own, job, head)
    requires job !in locked ==> !Expired(after.db, job)
    ensures job !in recovered
    ensures var more := if done then recovered[job := run + head] else recovered;
            Passed(start, after, run + own, more, rows + [job], locked)
  {
    RunsOn(start, run, own);
    AllStayRecovered(start, run, own, recovered, rows, job, locked);
    if done {
      RecoveryLater(start, run, own, job, head);
      OneMoreRecovered(start, run + own, recovered, rows + [job], job, locked, run + head);
    }
    ReleaseLasts(start, run, own, rows, locked);
    if job !in locked {
      ReleaseOf(start, run, own, job);
    }
  }
}
