/** What a pass of lease recovery does to the rows, one transaction at a time. */
module Recovery {
  import opened Records
  import opened Backoff
  import opened Jobs
  import opened Transactions
  import opened Documents

  function ExpiredIds(db: Db): set<Id> {
    set id | id in db.jobs && Expired(db, id)
  }

  /** A row ended as a lost worker's, under a new token, some time in between. */
  predicate Lost(before: Db, after: Db, row: Job, now: Job) {
    && now.kind == row.kind
    && now.document == row.document
    && now.attempts == row.attempts
    && now.maxAttempts == row.maxAttempts
    && now.state == (if row.attempts < row.maxAttempts then JobState.Pending else JobState.Failed)
    && now.errorCode == WorkerLost
    && now.leaseUntil == None
    && now.dispatchedAt == None
    && now.runToken.Some?
    && before.nextId <= now.runToken.value < after.nextId
    && before.now + Delay(row.attempts) <= now.availableAt <= after.now + Delay(row.attempts) + JITTER_LIMIT
  }

  /** Some expired rows were recovered, and nothing else happened: the rows and
      the documents of other jobs are as they were. */
  ghost predicate Recovers(before: Db, after: Db, recovered: set<Id>) {
    && before.now <= after.now
    && before.nextId <= after.nextId
    && recovered <= before.jobs.Keys == after.jobs.Keys
    && after.docs.Keys == before.docs.Keys
    && (forall id | id in before.jobs ::
          if id in recovered then Lost(before, after, before.jobs[id], after.jobs[id])
          else after.jobs[id] == before.jobs[id])
    && (forall document | document in before.docs && after.docs[document] != before.docs[document] ::
          exists id :: id in recovered && Reports(before, id, document))
  }

  /** The finish inside a recovery is never stale: the new token is already the
      row's, and the attempt counts as one that may be retried. */
  lemma RecoveryIsNeverStale(db: Db, id: Id, jitter: nat)
    requires Expired(db, id)
    ensures Finish(Fenced(db, id), id, Some(db.nextId), LOST, jitter).1
            == Became(if db.jobs[id].attempts < db.jobs[id].maxAttempts then JobState.Pending else JobState.Failed)
  {}

  lemma RecoversOneMore(before: Db, middle: Db, recovered: set<Id>, id: Id, jitter: nat)
    requires Recovers(before, middle, recovered) && id !in recovered
    requires Expired(middle, id) && jitter <= JITTER_LIMIT
    ensures Recovers(before, Recover(middle, id, jitter), recovered + {id})
  {
    RecoverIsMove(middle, id, jitter);
    var after := Recover(middle, id, jitter);
    forall document | document in before.docs && after.docs[document] != before.docs[document]
      ensures exists job :: job in recovered + {id} && Reports(before, job, document)
    {
      if middle.docs[document] == before.docs[document] {
        assert id in recovered + {id} && Reports(before, id, document);
      } else {
        var job :| job in recovered && Reports(before, job, document);
        assert job in recovered + {id};
      }
    }
  }

  /** The identifiers of a sequence that nobody holds locked. */
  function Free(ids: seq<Id>, locked: set<Id>): set<Id> {
    set id | id in ids && id !in locked
  }

  lemma OneMore(ids: seq<Id>, i: nat, locked: set<Id>)
    requires i < |ids| && forall j, k | 0 <= j < k < |ids| :: ids[j] != ids[k]
    ensures ids[i] !in Free(ids[..i], locked)
    ensures Free(ids[..i + 1], locked) == Free(ids[..i], locked) + if ids[i] in locked then {} else {ids[i]}
  {
    assert ids[..i + 1] == ids[..i] + [ids[i]];
  }

  /** A candidate not yet recovered stays expired. */
  lemma StillExpired(before: Db, after: Db, recovered: set<Id>, id: Id)
    requires Recovers(before, after, recovered) && Expired(before, id) && id !in recovered
    ensures Expired(after, id)
  {}

  /** Expired rows, each once: as many as the limit allows. */
  ghost predicate Candidates(db: Db, ids: seq<Id>, limit: nat) {
    && (forall id | id in ids :: Expired(db, id))
    && (forall i, j | 0 <= i < j < |ids| :: ids[i] != ids[j])
    && |ids| <= limit
    && (|ids| < limit ==> forall id | id in ExpiredIds(db) :: id in ids)
  }

  lemma {:induction false} Distinct(ids: seq<Id>)
    requires forall i, j | 0 <= i < j < |ids| :: ids[i] != ids[j]
    ensures |Free(ids, {})| == |ids|
    decreases |ids|
  {
    if ids != [] {
      var front := ids[..|ids| - 1];
      Distinct(front);
      assert Free(ids, {}) == Free(front, {}) + {ids[|ids| - 1]};
    }
  }

  lemma {:induction false} SubsetOfSameSize(part: set<Id>, whole: set<Id>)
    requires part <= whole && |whole| <= |part|
    ensures part == whole
    decreases part
  {
    if part != {} {
      var id :| id in part;
      SubsetOfSameSize(part - {id}, whole - {id});
    }
  }

  /** With a limit no smaller than the number of expired rows, all are candidates. */
  lemma AllFree(db: Db, ids: seq<Id>, limit: nat)
    requires Candidates(db, ids, limit)
    ensures Free(ids, {}) <= ExpiredIds(db)
    ensures |ExpiredIds(db)| <= limit ==> Free(ids, {}) == ExpiredIds(db)
  {
    if |ExpiredIds(db)| <= limit && |ids| == limit {
      Distinct(ids);
      SubsetOfSameSize(Free(ids, {}), ExpiredIds(db));
    }
  }
}
