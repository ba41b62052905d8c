/** What an intent's row tells the upload about to commit: as long as stores are
    within the grace, an intent no worker ever claimed vouches for the object, and
    one that was claimed does not, however late the commit. */
module Intents {
  import opened Records
  import opened Protocol
  import opened Transactions
  import opened Ledger
  import opened Structure
  import opened Results
  import opened Safety
  import opened StorageKeys
  import opened Custody
  import opened LateCommits

  /** The part of the grace assumption that concerns stores. */
  predicate StoreInGrace(s: World, step: Step) {
    step.Store? && At(s, step.upload, false) ==> s.db.now < s.uploads[step.upload].progress.due
  }

  ghost predicate StoresInGrace(s: World, steps: seq<Step>)
    decreases |steps|
  {
    steps == [] || (StoreInGrace(s, steps[0]) && StoresInGrace(Apply(s, steps[0]), steps[1..]))
  }

  /** A cleanup worker that may still erase the object, or has been told it did. */
  predicate Erasing(s: World, token: Id, key: StorageKey) {
    && token in s.workers
    && s.workers[token].claim.kind == DeleteObject(key)
    && (s.workers[token].phase.Claimed? || (s.workers[token].phase.Erased? && key !in s.objects))
  }

  /** The row of an unclaimed intent vouches for the stored object. */
  ghost predicate Vouches(s: World, intent: Id, key: StorageKey) {
    intent in s.db.jobs &&
    if s.db.jobs[intent].runToken.None? then key in s.objects else exists token :: Erasing(s, token, key)
  }

  ghost predicate Watched(s: World, id: Id)
    requires id in s.uploads
  {
    match s.uploads[id].progress
    case Intended(intent, due) => Shields(s, intent, due)
    case Stored(intent, _) => Vouches(s, intent, s.uploads[id].key)
    case _ => true
  }

  ghost predicate AllWatched(s: World) {
    Traced(s) && forall id | id in s.uploads :: Watched(s, id)
  }

  /** Only workers of the upload's own intent are after its object. */
  lemma ErasersClaimedTheIntent(s: World, id: Id, token: Id)
    requires Structured(s) && Traced(s) && At(s, id, true)
    requires token in s.workers && s.workers[token].claim.kind == DeleteObject(s.uploads[id].key)
    ensures s.uploads[id].progress.intent in s.db.jobs
    ensures s.db.jobs[s.uploads[id].progress.intent].runToken.Some?
  {
    assert WorkerOk(s.db, token, s.workers[token]);
    assert UploadFits(s.db, id, s.uploads[id]);
    assert Cleans(s.db, s.workers[token].job, id);
    assert Sole(s, id);
  }

  lemma EraserPhase(s: World, step: Step, token: Id)
    requires token in s.workers && token < s.db.nextId && s.workers[token].claim.kind.DeleteObject?
    requires s.workers[token].phase.Claimed? || s.workers[token].phase.Erased?
    ensures token in Apply(s, step).workers
    ensures var phase, after := s.workers[token].phase, Apply(s, step).workers[token].phase;
            && (phase.Erased? ==> after.Erased?)
            && (phase.Claimed? ==>
                  after.Claimed? || (after.Erased? && s.workers[token].claim.kind.key !in Apply(s, step).objects))
  {}

  lemma ErasingStays(s: World, step: Step, id: Id, token: Id)
    requires Structured(s) && PhasesOk(s) && At(s, id, true) && Erasing(s, token, s.uploads[id].key)
    ensures Erasing(Apply(s, step), token, s.uploads[id].key)
  {
    WorkersFrom(s, step, token);
    ObjectsFrom(s, step, s.uploads[id].key);
    EraserPhase(s, step, token);
    assert step.Store? && At(s, step.upload, false) ==> UploadFits(s.db, step.upload, s.uploads[step.upload]);
  }

  /** A move that writes a row's first token is a claim. */
  lemma FirstTokenIsClaim(db: Db, row: Job, move: Move)
    requires RowOk(row, db.nextId) && CanMove(db, row, move) && row.kind.DeleteObject?
    ensures row.runToken.Some? ==> Moved(db, row, move).runToken.Some?
    ensures row.runToken.None? && Moved(db, row, move).runToken.Some? ==> move.Take?
  {}

  lemma TakenByDelivery(s: World, step: Step, job: Id)
    requires MoveOn(TransactionOf(s, step), job).Take?
    ensures Wins(s, step) && step.job == job
  {}

  lemma ClaimErases(s: World, step: Step, key: StorageKey)
    requires UploadsFit(s) && Wins(s, step) && s.db.jobs[step.job].kind == DeleteObject(key)
    ensures Erasing(Apply(s, step), s.db.nextId, key)
  {
    WorkersFrom(s, step, s.db.nextId);
  }

  lemma UnclaimedStaysStored(s: World, step: Step, id: Id)
    requires Structured(s) && Traced(s) && At(s, id, true)
    requires s.uploads[id].progress.intent in s.db.jobs && s.db.jobs[s.uploads[id].progress.intent].runToken.None?
    requires s.uploads[id].key in s.objects
    ensures s.uploads[id].key in Apply(s, step).objects
  {
    ObjectsFrom(s, step, s.uploads[id].key);
    if s.uploads[id].key !in Apply(s, step).objects {
      ErasersClaimedTheIntent(s, id, step.worker);
    }
  }

  /** An upload that has stored and takes no step stays vouched for, or not. */
  lemma VouchesStays(s: World, step: Step, id: Id)
    requires Structured(s) && Traced(s) && PhasesOk(s) && At(s, id, true)
    requires Vouches(s, s.uploads[id].progress.intent, s.uploads[id].key)
    ensures Vouches(Apply(s, step), s.uploads[id].progress.intent, s.uploads[id].key)
  {
    var u := s.uploads[id];
    var intent := u.progress.intent;
    assert UploadFits(s.db, id, u);
    RowStep(s, step, intent);
    FirstTokenIsClaim(s.db, s.db.jobs[intent], MoveOn(TransactionOf(s, step), intent));
    if s.db.jobs[intent].runToken.Some? {
      var token :| Erasing(s, token, u.key);
      ErasingStays(s, step, id, token);
    } else if Apply(s, step).db.jobs[intent].runToken.Some? {
      TakenByDelivery(s, step, intent);
      ClaimErases(s, step, u.key);
    } else {
      UnclaimedStaysStored(s, step, id);
    }
  }

  /** A store within its grace finds its intent unclaimed. */
  lemma StoreVouches(s: World, id: Id, effective: bool, confirmed: bool)
    requires At(s, id, false) && Watched(s, id) && StoreInGrace(s, Store(id, effective, confirmed))
    ensures id in AfterStore(s, id, effective, confirmed).uploads
    ensures Watched(AfterStore(s, id, effective, confirmed), id)
  {}

  /** What an upload's other steps leave of it. */
  lemma OwnProgress(s: World, step: Step, id: Id)
    requires Structured(s) && UploadOf(s, step) == Some(id) && id in Apply(s, step).uploads
    requires !(step.DeclareIntent? && id in s.uploads && s.uploads[id].progress.Begun?)
    requires !(step.Store? && At(s, id, false))
    ensures var progress := Apply(s, step).uploads[id].progress;
            (progress.Intended? || progress.Stored?) ==> id in s.uploads && Apply(s, step) == s
  {}

  lemma OwnStepIsWatched(s: World, step: Step, id: Id)
    requires Structured(s) && AllWatched(s) && PhasesOk(s) && StoreInGrace(s, step)
    requires UploadOf(s, step) == Some(id) && id in Apply(s, step).uploads
    ensures Watched(Apply(s, step), id)
  {
    if step.Store? && At(s, id, false) {
      StoreVouches(s, id, step.effective, step.confirmed);
    } else if step.DeclareIntent? && id in s.uploads && s.uploads[id].progress.Begun? {
      DeclareShelters(s, id);
    } else {
      OwnProgress(s, step, id);
    }
  }

  lemma OtherStepIsWatched(s: World, step: Step, id: Id)
    requires Structured(s) && AllWatched(s) && PhasesOk(s)
    requires UploadOf(s, step) != Some(id) && id in s.uploads
    ensures id in Apply(s, step).uploads && Watched(Apply(s, step), id)
  {
    OtherUploads(s, step, id);
    assert Watched(s, id);
    var u := s.uploads[id];
    if u.progress.Stored? {
      VouchesStays(s, step, id);
    } else if u.progress.Intended? {
      RowStep(s, step, u.progress.intent);
      if Apply(s, step).db.now < u.progress.due {
        RestingStays(s, step, id);
      }
    }
  }

  lemma WatchKept(s: World, step: Step)
    requires Structured(s) && AllWatched(s) && PhasesOk(s) && StoreInGrace(s, step)
    ensures AllWatched(Apply(s, step))
  {
    TracedKept(s, step);
    forall id | id in Apply(s, step).uploads ensures Watched(Apply(s, step), id) {
      if UploadOf(s, step) == Some(id) {
        OwnStepIsWatched(s, step, id);
      } else {
        OtherUploads(s, step, id);
        OtherStepIsWatched(s, step, id);
      }
    }
  }

  lemma {:induction false} RunIsWatched(s: World, steps: seq<Step>)
    requires Safe(s) && AllWatched(s) && StoresInGrace(s, steps)
    ensures AllWatched(Exec(s, steps))
    decreases |steps|
  {
    if steps != [] {
      WatchKept(s, steps[0]);
      SafetyKept(s, steps[0]);
      RunIsWatched(Apply(s, steps[0]), steps[1..]);
    }
  }

  /** The intent's row decides whether the commit is disputed. */
  lemma UnclaimedIffUndisputed(s: World, id: Id)
    requires Structured(s) && AllWatched(s) && At(s, id, true)
    ensures s.uploads[id].progress.intent in s.db.jobs
    ensures Undisputed(s, id) <==> s.db.jobs[s.uploads[id].progress.intent].runToken.None?
  {
    assert Watched(s, id);
    var key := s.uploads[id].key;
    if s.db.jobs[s.uploads[id].progress.intent].runToken.None? {
      forall token ensures !Threatens(s, token, key) {
        if Threatens(s, token, key) {
          ErasersClaimedTheIntent(s, id, token);
        }
      }
    } else {
      var token :| Erasing(s, token, key);
      assert s.workers[token].phase.Claimed? ==> Threatens(s, token, key);
    }
  }
}
