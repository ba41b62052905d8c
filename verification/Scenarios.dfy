/** What goes wrong without the grace assumption, run by run: an upload that
    commits late can lose its document's object, and can cancel a cleanup that had
    failed for good. */
module Scenarios {
  import opened Records
  import opened Services
  import opened Protocol
  import opened Backoff
  import opened Attempts

  /** Some run from here has a document whose object is gone. */
  ghost predicate CanLose(s: World, id: Id) {
    exists steps :: var end := Exec(s, steps); id in end.db.docs && end.db.docs[id].storageKey !in end.objects
  }

  lemma LosesEarlier(s: World, step: Step, id: Id)
    requires CanLose(Apply(s, step), id)
    ensures CanLose(s, id)
  {
    var steps :|
      var end := Exec(Apply(s, step), steps); id in end.db.docs && end.db.docs[id].storageKey !in end.objects;
    assert ([step] + steps)[1..] == steps;
    assert Exec(s, [step] + steps) == Exec(Apply(s, step), steps);
  }

  function FirstKey(request: Request): StorageKey {
    StorageKey(request.owner, 0, 1)
  }

  /** The state after a first upload has stored its object, at a later time. */
  function StoredState(declared: Time, now: Time, request: Request): World {
    World(Db(now, map[2 := CleanupJob(0, FirstKey(request), declared + UPLOAD_GRACE)], map[], [], 3),
          map[FirstKey(request) := request.content],
          map[],
          map[0 := Upload(request, FirstKey(request), Stored(2, declared + UPLOAD_GRACE))])
  }

  lemma FirstUploadStores(now: Time, request: Request)
    ensures Apply(Apply(Apply(Initial(now), Begin(request)), DeclareIntent(0)), Store(0, true, true))
            == StoredState(now, now, request)
  {
    var begun := Apply(Initial(now), Begin(request));
    var declared := Apply(begun, DeclareIntent(0));
    assert declared.db.jobs == map[2 := CleanupJob(0, FirstKey(request), now + UPLOAD_GRACE)];
  }

  lemma CommitAndErase(s: World, request: Request)
    requires At(s, 0, true) && s.uploads[0].request == request && s.uploads[0].key == FirstKey(request)
    requires s.db.docs == map[]
    requires 3 in s.workers && !s.workers[3].returned && s.workers[3].phase.Claimed?
    requires s.workers[3].claim.kind == DeleteObject(FirstKey(request))
    ensures CanLose(s, 0)
  {
    var committed := Apply(s, CommitUpload(0, true));
    assert ReplayOf(s.db, request).Unused?;
    var erased := Apply(committed, Erase(3, true, true));
    assert Exec(erased, []) == erased;
    LosesEarlier(committed, Erase(3, true, true), 0);
    LosesEarlier(s, CommitUpload(0, true), 0);
  }

  lemma LateClaimAndCommit(declared: Time, request: Request)
    ensures CanLose(StoredState(declared, declared + UPLOAD_GRACE, request), 0)
  {
    var stored := StoredState(declared, declared + UPLOAD_GRACE, request);
    var claimed := Apply(stored, Deliver(2));
    assert 3 in claimed.workers && claimed.workers[3].claim.kind == DeleteObject(FirstKey(request));
    CommitAndErase(claimed, request);
    LosesEarlier(stored, Deliver(2), 0);
  }

  lemma LateCommitLosesObject(now: Time, request: Request)
    ensures exists steps ::
              var end := Exec(Initial(now), steps);
              0 in end.db.docs && end.db.docs[0].storageKey !in end.objects
  {
    FirstUploadStores(now, request);
    LateClaimAndCommit(now, request);
    assert Apply(StoredState(now, now, request), Tick(UPLOAD_GRACE)) == StoredState(now, now + UPLOAD_GRACE, request);
    LosesEarlier(StoredState(now, now, request), Tick(UPLOAD_GRACE), 0);
    var begun := Apply(Initial(now), Begin(request));
    LosesEarlier(Apply(begun, DeclareIntent(0)), Store(0, true, true), 0);
    LosesEarlier(begun, DeclareIntent(0), 0);
    LosesEarlier(Initial(now), Begin(request), 0);
  }

  ghost predicate ShiftsIn(s: World, steps: seq<Step>, id: Id, times: nat) {
    && NeverRearmed(steps, id)
    && ShiftCount(s, steps, id) == times
    && id in Exec(s, steps).db.jobs
    && Exec(s, steps).db.jobs[id].maxAttempts == CLEANUP_ATTEMPTS
  }

  /** Some run from here, without a rearm, changes the state of a cleanup job, of
      eight attempts in all, this often. */
  ghost predicate CanShift(s: World, id: Id, times: nat) {
    exists steps :: ShiftsIn(s, steps, id, times)
  }

  lemma ShiftsEarlier(s: World, step: Step, id: Id, times: nat)
    requires CanShift(Apply(s, step), id, times) && step != RearmCleanup(id)
    ensures CanShift(s, id, times + if Shifts(s, step, id) then 1 else 0)
  {
    var steps :| ShiftsIn(Apply(s, step), steps, id, times);
    assert ([step] + steps)[1..] == steps;
    assert ShiftsIn(s, [step] + steps, id, times + if Shifts(s, step, id) then 1 else 0);
  }

  const STORE_DOWN: Option<Failure> := Some(Failure(StorageUnavailable, true))

  /** A stored upload whose due intent, job 2, has been tried this often. */
  ghost predicate Tried(s: World, request: Request, attempts: nat) {
    && s.db.nextId > 2
    && s.db.docs == map[]
    && At(s, 0, true)
    && s.uploads[0].request == request
    && s.uploads[0].progress.intent == 2
    && 2 in s.db.jobs
    && var row := s.db.jobs[2];
       && row.kind == DeleteObject(FirstKey(request))
       && row.attempts == attempts <= row.maxAttempts == CLEANUP_ATTEMPTS
       && row.availableAt <= s.db.now
       && row.state == if attempts < row.maxAttempts then JobState.Pending else JobState.Failed
  }

  /** One attempt that fails, and the wait for the next. */
  lemma TriedOnceMore(s: World, request: Request, attempts: nat)
    requires Tried(s, request, attempts) && attempts < CLEANUP_ATTEMPTS
    ensures var claimed := Apply(s, Deliver(2));
            var failed := Apply(claimed, End(s.db.nextId, STORE_DOWN, 0));
            var later := Apply(failed, Tick(600 * SECOND));
            && Shifts(s, Deliver(2), 2)
            && Shifts(claimed, End(s.db.nextId, STORE_DOWN, 0), 2)
            && !Shifts(failed, Tick(600 * SECOND), 2)
            && Tried(later, request, attempts + 1)
  {
    DelayIsBounded(attempts + 1);
    var claimed := Apply(s, Deliver(2));
    assert claimed.workers[s.db.nextId].claim.runToken == Some(s.db.nextId);
    assert claimed.db.jobs[2].attempts == attempts + 1;
    var failed := Apply(claimed, End(s.db.nextId, STORE_DOWN, 0));
    assert failed.db.jobs[2].availableAt == s.db.now + Delay(attempts + 1);
  }

  /** A late commit then cancels the cleanup that has failed for good. */
  lemma {:induction false} TriedShifts(s: World, request: Request, attempts: nat)
    requires Tried(s, request, attempts)
    ensures CanShift(s, 2, 2 * (CLEANUP_ATTEMPTS - attempts) + 1)
    decreases CLEANUP_ATTEMPTS - attempts
  {
    if attempts == CLEANUP_ATTEMPTS {
      assert ReplayOf(s.db, request).Unused?;
      var committed := Apply(s, CommitUpload(0, true));
      assert committed.db.jobs[2].state == JobState.Succeeded;
      assert ShiftsIn(committed, [], 2, 0);
      ShiftsEarlier(s, CommitUpload(0, true), 2, 0);
    } else {
      var claimed := Apply(s, Deliver(2));
      var failed := Apply(claimed, End(s.db.nextId, STORE_DOWN, 0));
      TriedOnceMore(s, request, attempts);
      var left := 2 * (CLEANUP_ATTEMPTS - (attempts + 1)) + 1;
      TriedShifts(Apply(failed, Tick(600 * SECOND)), request, attempts + 1);
      ShiftsEarlier(failed, Tick(600 * SECOND), 2, left);
      ShiftsEarlier(claimed, End(s.db.nextId, STORE_DOWN, 0), 2, left);
      ShiftsEarlier(s, Deliver(2), 2, left + 1);
    }
  }

  lemma FirstUploadShiftsNothing(now: Time, request: Request)
    ensures var begun := Apply(Initial(now), Begin(request));
            var declared := Apply(begun, DeclareIntent(0));
            && !Shifts(Initial(now), Begin(request), 2)
            && !Shifts(begun, DeclareIntent(0), 2)
            && !Shifts(declared, Store(0, true, true), 2)
            && !Shifts(StoredState(now, now, request), Tick(UPLOAD_GRACE), 2)
  {
    FirstUploadStores(now, request);
  }

  lemma DueIsTried(now: Time, request: Request)
    ensures Tried(Apply(StoredState(now, now, request), Tick(UPLOAD_GRACE)), request, 0)
  {}

  lemma StoredShifts(now: Time, request: Request)
    ensures CanShift(StoredState(now, now, request), 2, 2 * CLEANUP_ATTEMPTS + 1)
  {
    var stored := StoredState(now, now, request);
    FirstUploadShiftsNothing(now, request);
    DueIsTried(now, request);
    TriedShifts(Apply(stored, Tick(UPLOAD_GRACE)), request, 0);
    ShiftsEarlier(stored, Tick(UPLOAD_GRACE), 2, 2 * CLEANUP_ATTEMPTS + 1);
  }

  /** A cleanup job of eight attempts can change state seventeen times without a
      rearm: an upload stores in time, its intent fails for good, and it commits. */
  lemma SeventeenChanges(now: Time, request: Request)
    ensures CanShift(Initial(now), 2, 2 * CLEANUP_ATTEMPTS + 1)
  {
    var begun := Apply(Initial(now), Begin(request));
    var declared := Apply(begun, DeclareIntent(0));
    FirstUploadStores(now, request);
    FirstUploadShiftsNothing(now, request);
    StoredShifts(now, request);
    ShiftsEarlier(declared, Store(0, true, true), 2, 2 * CLEANUP_ATTEMPTS + 1);
    ShiftsEarlier(begun, DeclareIntent(0), 2, 2 * CLEANUP_ATTEMPTS + 1);
    ShiftsEarlier(Initial(now), Begin(request), 2, 2 * CLEANUP_ATTEMPTS + 1);
  }
}
