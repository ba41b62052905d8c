/** A store that takes effect only after the call that asked for it failed: exactly
    when it can leave an object nobody answers for. */
module Orphans {
  import opened Records
  import opened Services
  import opened Protocol
  import opened Transactions
  import opened Ledger
  import opened Structure
  import opened Safety
  import opened StorageKeys
  import opened Custody
  import opened Scenarios
  import opened Theorems

  /** The upload's object lands in the store. */
  function Landed(s: World, id: Id): World
    requires id in s.uploads
  {
    s.(objects := s.objects[s.uploads[id].key := s.uploads[id].request.content])
  }

  /** The upload's document or an unfinished cleanup row of its key. */
  ghost predicate Expected(db: Db, id: Id) {
    id in db.docs || exists job :: Answers(db, job, id)
  }

  lemma LandedIsExpectedOrOrphan(s: World, id: Id)
    requires Structured(s) && InCustody(s) && id in s.uploads
    ensures var custodians := Custodians(Landed(s, id), s.uploads[id].key);
            if Expected(s.db, id) then exists custodian :: custodians == {custodian} else custodians == {}
  {
    var key := s.uploads[id].key;
    assert UploadFits(s.db, id, s.uploads[id]);
    var custodians := Custodians(Landed(s, id), key);
    forall job ensures OfCleanup(job) in custodians <==> Answers(s.db, job, id) {
      assert Cleans(s.db, job, id) ==> s.db.jobs[job].kind.key == key;
    }
    forall other ensures OfDocument(other) in custodians <==> other == id && id in s.db.docs {
      assert other in s.db.docs ==> s.db.docs[other].storageKey.document == other;
    }
    if id in s.db.docs {
      assert Kept(s, id);
      assert custodians == {OfDocument(id)};
    } else if job :| Answers(s.db, job, id) {
      assert custodians == {OfCleanup(job)};
    }
  }

  /** Whatever happens within the grace, the object has exactly one custodian for
      as long as it is stored. */
  ghost predicate KeptForever(s: World, key: StorageKey) {
    forall steps | Graceful(s, steps) && key in Exec(s, steps).objects ::
      exists custodian :: Custodians(Exec(s, steps), key) == {custodian}
  }

  /** A worker that has been told the key's object is gone, and may end its job on that. */
  predicate Misled(s: World, token: Id, key: StorageKey) {
    Closing(s, token) && s.workers[token].claim.kind == DeleteObject(key)
  }

  /** What is there to receive the object: its document, or an unfinished cleanup
      that no worker is about to end. */
  ghost predicate Received(s: World, id: Id)
    requires id in s.uploads
  {
    Expected(s.db, id) && forall token :: !Misled(s, token, s.uploads[id].key)
  }

  lemma LandingKeepsSafe(s: World, id: Id)
    requires Safe(s) && id in s.uploads
    ensures Safe(Landed(s, id))
  {}

  lemma LandingKeepsTraced(s: World, id: Id)
    requires Structured(s) && Traced(s) && id in s.uploads && !Open(s.uploads[id].progress)
    ensures Traced(Landed(s, id))
  {
    var after := Landed(s, id);
    assert UploadFits(s.db, id, s.uploads[id]);
    forall other | other in after.uploads ensures Sole(after, other) {
      assert Sole(s, other) && UploadFits(s.db, other, s.uploads[other]);
    }
  }

  lemma LandingShelters(s: World, id: Id)
    requires Structured(s) && InCustody(s) && id in s.uploads && !Open(s.uploads[id].progress)
    ensures forall other | other in Landed(s, id).uploads :: Sheltered(Landed(s, id), other)
  {
    forall other | other in s.uploads ensures Sheltered(Landed(s, id), other) {
      assert Sheltered(s, other) && UploadFits(s.db, other, s.uploads[other]) && UploadFits(s.db, id, s.uploads[id]);
    }
  }

  /** An object that is received is in custody. */
  lemma ReceivedIsInCustody(s: World, id: Id)
    requires Safe(s) && InCustody(s) && id in s.uploads && !Open(s.uploads[id].progress) && Received(s, id)
    ensures InCustody(Landed(s, id))
  {
    var after := Landed(s, id);
    LandingKeepsTraced(s, id);
    assert UploadFits(s.db, id, s.uploads[id]);
    LandingShelters(s, id);
    forall token | token in after.workers ensures Harmless(after, token) {
      assert Harmless(s, token) && !Misled(s, token, s.uploads[id].key);
      assert Closing(after, token) <==> Closing(s, token);
    }
    forall other | other in after.db.docs ensures Kept(after, other) {
      assert Kept(s, other) && UploadFits(s.db, other, s.uploads[other]);
    }
    forall key | key in after.objects ensures Owed(after, key) {
      assert key in s.objects ==> Owed(s, key);
    }
  }

  lemma ReceivedIsKept(s: World, id: Id)
    requires Safe(s) && InCustody(s) && id in s.uploads && !Open(s.uploads[id].progress) && Received(s, id)
    ensures KeptForever(Landed(s, id), s.uploads[id].key)
  {
    var key := s.uploads[id].key;
    LandingKeepsSafe(s, id);
    ReceivedIsInCustody(s, id);
    forall steps | Graceful(Landed(s, id), steps) && key in Exec(Landed(s, id), steps).objects
      ensures exists custodian :: Custodians(Exec(Landed(s, id), steps), key) == {custodian}
    {
      RunKeepsCustody(Landed(s, id), steps);
      CustodianOf(Exec(Landed(s, id), steps), key);
    }
  }

  lemma EndSucceeds(s: World, token: Id)
    requires Structured(s) && Closing(s, token) && s.workers[token].claim.kind.DeleteObject?
    ensures var job := s.workers[token].job;
            var ended := Apply(s, End(token, None, 0));
            && ended.objects == s.objects
            && ended.db.docs == s.db.docs
            && job in s.db.jobs
            && ended.db.jobs == s.db.jobs[job := ended.db.jobs[job]]
            && ended.db.jobs[job].state == JobState.Succeeded
  {
    assert WorkerOk(s.db, token, s.workers[token]);
  }

  /** One finish of a misled worker leaves nobody to answer for the object. */
  lemma MisledLeaves(s: World, id: Id, token: Id)
    requires Safe(s) && InCustody(s) && id in s.uploads && Misled(s, token, s.uploads[id].key)
    ensures var ended := Apply(Landed(s, id), End(token, None, 0));
            && s.uploads[id].key in ended.objects
            && Custodians(ended, s.uploads[id].key) == {}
  {
    var key := s.uploads[id].key;
    var job := s.workers[token].job;
    assert Harmless(s, token) && WorkerOk(s.db, token, s.workers[token]) && UploadFits(s.db, id, s.uploads[id]);
    assert Answers(s.db, job, id);
    EndSucceeds(Landed(s, id), token);
    var ended := Apply(Landed(s, id), End(token, None, 0));
    forall other ensures OfCleanup(other) !in Custodians(ended, key) {
      if && other in s.db.jobs
         && s.db.jobs[other].kind == DeleteObject(key)
         && s.db.jobs[other].state != JobState.Succeeded
      {
        assert RowOk(s.db.jobs[other], s.db.nextId);
        assert Answers(s.db, other, id);
      }
    }
    forall other ensures OfDocument(other) !in Custodians(ended, key) {
      assert other in s.db.docs ==> s.db.docs[other].storageKey.document == other;
    }
  }

  lemma UnreceivedIsOrphaned(s: World, id: Id)
    requires Safe(s) && InCustody(s) && id in s.uploads && !Received(s, id)
    ensures !KeptForever(Landed(s, id), s.uploads[id].key)
  {
    var key := s.uploads[id].key;
    if !Expected(s.db, id) {
      LandedIsExpectedOrOrphan(s, id);
      assert Graceful(Landed(s, id), []) && Exec(Landed(s, id), []) == Landed(s, id);
    } else {
      var token :| Misled(s, token, key);
      MisledLeaves(s, id, token);
      var steps := [End(token, None, 0)];
      assert steps[1..] == [];
      assert Exec(Landed(s, id), steps) == Apply(Landed(s, id), steps[0]);
      assert Graceful(Landed(s, id), steps);
    }
  }

  /** In every run within the grace, an object that lands after its upload gave up
      keeps exactly one custodian in every later run, as long as it is stored, if and
      only if its document or an unfinished cleanup is there to receive it, and no
      worker is about to end that cleanup on a deletion confirmed before. */
  lemma LateStoreIsKeptIffReceived(now: Time, steps: seq<Step>, id: Id)
    requires Graceful(Initial(now), steps) && id in Reached(now, steps).uploads
    requires !Open(Reached(now, steps).uploads[id].progress)
    ensures var s := Reached(now, steps);
            KeptForever(Landed(s, id), s.uploads[id].key) <==> Received(s, id)
  {
    ReachedInCustody(now, steps);
    if Received(Reached(now, steps), id) {
      ReceivedIsKept(Reached(now, steps), id);
    } else {
      UnreceivedIsOrphaned(Reached(now, steps), id);
    }
  }

  /** What the rows alone tell: with a document, or a cleanup row pending or failed,
      the object is kept; with neither, nor a running one, it is an orphan. */
  lemma RowsTellUnlessRunning(now: Time, steps: seq<Step>, id: Id)
    requires Graceful(Initial(now), steps) && id in Reached(now, steps).uploads
    requires !Open(Reached(now, steps).uploads[id].progress)
    ensures var s := Reached(now, steps);
            (forall job | Cleans(s.db, job, id) :: s.db.jobs[job].state != JobState.Running) ==>
              (KeptForever(Landed(s, id), s.uploads[id].key) <==> Expected(s.db, id))
  {
    ReachedInCustody(now, steps);
    LateStoreIsKeptIffReceived(now, steps, id);
    var s := Reached(now, steps);
    forall token ensures Misled(s, token, s.uploads[id].key) ==> Cleans(s.db, s.workers[token].job, id) {
      if Misled(s, token, s.uploads[id].key) {
        assert Harmless(s, token) && WorkerOk(s.db, token, s.workers[token]);
        assert UploadFits(s.db, id, s.uploads[id]);
      }
    }
  }

  /** Ends a run can come to with an upload that is over: its cleanup running, and
      its object received if it lands or not; or its cleanup ended as done. */
  datatype Ending = Cleaning(received: bool) | Cleaned

  ghost predicate EndsIn(s: World, id: Id, ending: Ending) {
    && id in s.uploads
    && !Open(s.uploads[id].progress)
    && match ending
       case Cleaning(received) =>
         && (exists job :: Answers(s.db, job, id) && s.db.jobs[job].state == JobState.Running)
         && (Received(s, id) <==> received)
       case Cleaned => !Expected(s.db, id)
  }

  /** Some run within the grace from here comes to the ending. */
  ghost predicate CanEnd(s: World, id: Id, ending: Ending) {
    exists steps :: Graceful(s, steps) && EndsIn(Exec(s, steps), id, ending)
  }

  lemma EndsEarlier(s: World, step: Step, id: Id, ending: Ending)
    requires CanEnd(Apply(s, step), id, ending) && InGrace(s, step)
    ensures CanEnd(s, id, ending)
  {
    var steps :| Graceful(Apply(s, step), steps) && EndsIn(Exec(Apply(s, step), steps), id, ending);
    assert ([step] + steps)[1..] == steps;
    assert Graceful(s, [step] + steps) && EndsIn(Exec(s, [step] + steps), id, ending);
  }

  lemma EndsHere(s: World, id: Id, ending: Ending)
    requires EndsIn(s, id, ending)
    ensures CanEnd(s, id, ending)
  {
    assert Graceful(s, []) && EndsIn(Exec(s, []), id, ending);
  }

  function FailedState(now: Time, request: Request): World {
    World(Db(now, map[2 := CleanupJob(0, FirstKey(request), now)], map[], [], 3),
          map[], map[], map[0 := Upload(request, FirstKey(request), Closed)])
  }

  lemma FirstUploadFails(now: Time, request: Request)
    ensures var declared := Apply(Apply(Initial(now), Begin(request)), DeclareIntent(0));
            && InGrace(declared, Store(0, false, false))
            && Apply(Apply(declared, Store(0, false, false)), ExpediteIntent(0)) == FailedState(now, request)
  {
    var declared := Apply(Apply(Initial(now), Begin(request)), DeclareIntent(0));
    assert declared.db.jobs == map[2 := CleanupJob(0, FirstKey(request), now + UPLOAD_GRACE)];
    var failed := Apply(Apply(declared, Store(0, false, false)), ExpediteIntent(0));
    assert failed.db.jobs == map[2 := CleanupJob(0, FirstKey(request), now)];
  }

  /** The expedited cleanup, claimed: it would receive the object. */
  lemma ClaimedReceives(now: Time, request: Request)
    ensures CanEnd(FailedState(now, request), 0, Cleaning(true))
  {
    var claimed := Apply(FailedState(now, request), Deliver(2));
    assert claimed.workers.Keys == {3} && claimed.workers[3].phase == Claimed;
    assert Answers(claimed.db, 2, 0) && claimed.db.jobs[2].state == JobState.Running;
    EndsHere(claimed, 0, Cleaning(true));
    EndsEarlier(FailedState(now, request), Deliver(2), 0, Cleaning(true));
  }

  /** The same cleanup, its deletion confirmed: it would not. */
  lemma ErasedDoesNotReceive(now: Time, request: Request)
    ensures CanEnd(FailedState(now, request), 0, Cleaning(false))
  {
    var claimed := Apply(FailedState(now, request), Deliver(2));
    assert claimed.workers[3].claim.runToken == Some(3);
    var erased := Apply(claimed, Erase(3, false, true));
    assert Misled(erased, 3, FirstKey(request));
    assert Answers(erased.db, 2, 0) && erased.db.jobs[2].state == JobState.Running;
    EndsHere(erased, 0, Cleaning(false));
    EndsEarlier(claimed, Erase(3, false, true), 0, Cleaning(false));
    EndsEarlier(FailedState(now, request), Deliver(2), 0, Cleaning(false));
  }

  /** The same cleanup, ended as done. */
  lemma DoneIsCleaned(now: Time, request: Request)
    ensures CanEnd(FailedState(now, request), 0, Cleaned)
  {
    var claimed := Apply(FailedState(now, request), Deliver(2));
    assert claimed.workers[3].claim.runToken == Some(3);
    var erased := Apply(claimed, Erase(3, false, true));
    assert erased.workers[3].phase == Erased;
    var ended := Apply(erased, End(3, None, 0));
    assert ended.db.jobs.Keys == {2} && ended.db.jobs[2].state == JobState.Succeeded;
    EndsHere(ended, 0, Cleaned);
    EndsEarlier(erased, End(3, None, 0), 0, Cleaned);
    EndsEarlier(claimed, Erase(3, false, true), 0, Cleaned);
    EndsEarlier(FailedState(now, request), Deliver(2), 0, Cleaned);
  }

  /** Each ending is reached from the empty database: the store fails, and its
      intent is expedited. */
  lemma AllEndingsReached(now: Time, request: Request, ending: Ending)
    ensures CanEnd(Initial(now), 0, ending)
  {
    FirstUploadFails(now, request);
    match ending {
      case Cleaning(received) =>
        if received {
          ClaimedReceives(now, request);
        } else {
          ErasedDoesNotReceive(now, request);
        }
      case Cleaned => DoneIsCleaned(now, request);
    }
    var begun := Apply(Initial(now), Begin(request));
    var declared := Apply(begun, DeclareIntent(0));
    EndsEarlier(Apply(declared, Store(0, false, false)), ExpediteIntent(0), 0, ending);
    EndsEarlier(declared, Store(0, false, false), 0, ending);
    EndsEarlier(begun, DeclareIntent(0), 0, ending);
    EndsEarlier(Initial(now), Begin(request), 0, ending);
  }

  /** A running row tells nothing: for every request there are runs within the grace,
      ending with the cleanup running, after which a landing object is kept and is not. */
  lemma RunningRowTellsNothing(now: Time, request: Request, kept: bool)
    ensures exists steps ::
              && Graceful(Initial(now), steps)
              && EndsIn(Reached(now, steps), 0, Cleaning(kept))
              && var s := Reached(now, steps);
                 (KeptForever(Landed(s, 0), s.uploads[0].key) <==> kept)
  {
    AllEndingsReached(now, request, Cleaning(kept));
    var steps :| Graceful(Initial(now), steps) && EndsIn(Exec(Initial(now), steps), 0, Cleaning(kept));
    LateStoreIsKeptIffReceived(now, steps, 0);
  }

  /** For every request there is a run within the grace after which a landing object
      has no custodian from the start. */
  lemma LateStoreLeavesOrphan(now: Time, request: Request)
    ensures exists steps ::
              && Graceful(Initial(now), steps)
              && 0 in Reached(now, steps).uploads
              && Custodians(Landed(Reached(now, steps), 0), Reached(now, steps).uploads[0].key) == {}
  {
    AllEndingsReached(now, request, Cleaned);
    var steps :| Graceful(Initial(now), steps) && EndsIn(Exec(Initial(now), steps), 0, Cleaned);
    ReachedInCustody(now, steps);
    LandedIsExpectedOrOrphan(Reached(now, steps), 0);
  }
}
