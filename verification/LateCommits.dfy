/** What becomes of an upload that commits outside its grace period: exactly
    when the object of the document it creates can still be lost. */
module LateCommits {
  import opened Records
  import opened Services
  import opened Protocol
  import opened Transactions
  import opened Ledger
  import opened Documents
  import opened Structure
  import opened Safety
  import opened StorageKeys
  import opened Histories

  /** A cleanup worker whose deletion of the object is yet to be confirmed: even
      one that gave up may have left a request behind. */
  predicate Threatens(s: World, token: Id, key: StorageKey) {
    token in s.workers && s.workers[token].phase.Claimed? && s.workers[token].claim.kind == DeleteObject(key)
  }

  /** A document whose object is stored and which nothing is going to erase. */
  ghost predicate Settled(s: World, id: Id) {
    && id in s.db.docs
    && id in s.uploads
    && !Open(s.uploads[id].progress)
    && s.uploads[id].key in s.objects
    && (forall job :: !Answers(s.db, job, id))
    && (forall token :: !Threatens(s, token, s.uploads[id].key))
  }

  lemma OtherStepsKeepWorkers(s: World, step: Step, token: Id)
    requires UploadsFit(s) && !(Wins(s, step) && token == s.db.nextId)
    requires token in s.workers ==> !(step.ReadRow? || step.Fetch? || step.Extract? || step.Erase? || step.End?)
    ensures token in Apply(s, step).workers <==> token in s.workers
    ensures token in s.workers ==> Apply(s, step).workers[token] == s.workers[token]
  {
    WorkersFrom(s, step, token);
  }

  lemma ThreatPasses(s: World, step: Step, token: Id, key: StorageKey)
    requires token in s.workers && token < s.db.nextId && !Threatens(s, token, key)
    requires step.ReadRow? || step.Fetch? || step.Extract? || step.Erase? || step.End?
    ensures !Threatens(Apply(s, step), token, key)
  {}

  /** A worker does not turn into a threat. */
  lemma OldThreat(s: World, step: Step, token: Id, key: StorageKey)
    requires UploadsFit(s) && !(Wins(s, step) && token == s.db.nextId)
    requires token in s.workers ==> token < s.db.nextId
    requires !Threatens(s, token, key)
    ensures !Threatens(Apply(s, step), token, key)
  {
    if token in s.workers && (step.ReadRow? || step.Fetch? || step.Extract? || step.Erase? || step.End?) {
      ThreatPasses(s, step, token, key);
    } else {
      OtherStepsKeepWorkers(s, step, token);
    }
  }

  lemma NoNewThreat(s: World, step: Step, id: Id, token: Id)
    requires Structured(s) && Traced(s) && Settled(s, id)
    ensures !Threatens(Apply(s, step), token, s.uploads[id].key)
  {
    assert !Threatens(s, token, s.uploads[id].key);
    if Wins(s, step) && token == s.db.nextId {
      WorkersFrom(s, step, token);
      assert !Answers(s.db, step.job, id);
    } else {
      OldThreat(s, step, token, s.uploads[id].key);
    }
  }

  lemma NoNewCleanup(s: World, step: Step, id: Id, job: Id)
    requires Structured(s) && Traced(s) && Settled(s, id) && id in Apply(s, step).db.docs
    ensures !Answers(Apply(s, step).db, job, id)
  {
    if job in s.db.jobs {
      OldCleaner(s, step, job, id);
      assert !Answers(s.db, job, id);
    } else {
      StepCommits(s, step);
      DocAfter(s.db, TransactionOf(s, step), id);
      DeclaredIsUploaded(s, step);
      RowAfter(s.db, TransactionOf(s, step), job);
    }
  }

  lemma SettledStays(s: World, step: Step, id: Id)
    requires Structured(s) && Traced(s) && Settled(s, id) && id in Apply(s, step).db.docs
    ensures Settled(Apply(s, step), id)
  {
    var after := Apply(s, step);
    UploadsPersist(s, step, id);
    ObjectsFrom(s, step, s.uploads[id].key);
    assert step.Erase? ==> !Threatens(s, step.worker, s.uploads[id].key);
    if Open(after.uploads[id].progress) {
      OnlyBeginOpens(s, step, id);
    }
    forall job ensures !Answers(after.db, job, id) {
      NoNewCleanup(s, step, id, job);
    }
    forall token ensures !Threatens(after, token, after.uploads[id].key) {
      NoNewThreat(s, step, id, token);
    }
  }

  /** A settled document keeps its object as long as it lives, in every run. */
  lemma {:induction false} SettledForLife(s: World, steps: seq<Step>, id: Id)
    requires Safe(s) && Traced(s) && Settled(s, id) && id in Exec(s, steps).db.docs
    ensures Settled(Exec(s, steps), id) && Exec(s, steps).uploads[id].key == s.uploads[id].key
    decreases |steps|
  {
    if steps != [] {
      var after := Apply(s, steps[0]);
      SafetyKept(s, steps[0]);
      TracedKept(s, steps[0]);
      UploadsPersist(s, steps[0], id);
      if id in after.db.docs {
        SettledStays(s, steps[0], id);
        SettledForLife(after, steps[1..], id);
      } else {
        RemovalRetires(s, steps[0], id);
        RetiredForever(after, steps[1..], id);
      }
    }
  }

  /** The condition a commit would have to check: the object is there, and no
      cleanup worker is between its claim and a confirmed erasure. */
  ghost predicate Undisputed(s: World, id: Id)
    requires id in s.uploads
  {
    s.uploads[id].key in s.objects && forall token :: !Threatens(s, token, s.uploads[id].key)
  }

  /** An upload about to create its document. */
  ghost predicate Ready(s: World, id: Id) {
    At(s, id, true) && ReplayOf(s.db, s.uploads[id].request).Unused?
  }

  lemma ReadyWithdraws(s: World, id: Id, acknowledged: bool)
    requires Ready(s, id)
    ensures MoveOn(TransactionOf(s, CommitUpload(id, acknowledged)), s.uploads[id].progress.intent).Withdraw?
  {}

  lemma CommitCreates(s: World, id: Id, acknowledged: bool)
    requires Ready(s, id)
    ensures var after := Apply(s, CommitUpload(id, acknowledged));
            && id in after.db.docs
            && after.objects == s.objects
            && after.workers == s.workers
            && id in after.uploads
            && after.uploads[id].key == s.uploads[id].key
            && !Open(after.uploads[id].progress)
  {}

  lemma CommitSilencesCleanups(s: World, id: Id, acknowledged: bool, job: Id)
    requires Structured(s) && Traced(s) && Ready(s, id)
    ensures !Answers(Apply(s, CommitUpload(id, acknowledged)).db, job, id)
  {
    assert Sole(s, id);
    if job in s.db.jobs {
      RowStep(s, CommitUpload(id, acknowledged), job);
      OldCleaner(s, CommitUpload(id, acknowledged), job, id);
    } else {
      StepCommits(s, CommitUpload(id, acknowledged));
      RowAfter(s.db, TransactionOf(s, CommitUpload(id, acknowledged)), job);
    }
  }

  lemma SameDispute(s: World, after: World, id: Id)
    requires id in s.uploads && id in after.uploads && after.uploads[id].key == s.uploads[id].key
    requires after.objects == s.objects && after.workers == s.workers
    ensures Undisputed(after, id) <==> Undisputed(s, id)
  {
    forall token ensures Threatens(after, token, s.uploads[id].key) <==> Threatens(s, token, s.uploads[id].key) {}
  }

  lemma Settles(s: World, after: World, id: Id)
    requires id in s.uploads && id in after.uploads && after.uploads[id].key == s.uploads[id].key
    requires after.objects == s.objects && after.workers == s.workers
    requires id in after.db.docs && !Open(after.uploads[id].progress) && Undisputed(s, id)
    requires forall job :: !Answers(after.db, job, id)
    ensures Settled(after, id)
  {
    SameDispute(s, after, id);
  }

  lemma CommitSettles(s: World, id: Id, acknowledged: bool)
    requires Structured(s) && Traced(s) && Ready(s, id) && Undisputed(s, id)
    ensures Settled(Apply(s, CommitUpload(id, acknowledged)), id)
  {
    CommitCreates(s, id, acknowledged);
    forall job ensures !Answers(Apply(s, CommitUpload(id, acknowledged)).db, job, id) {
      CommitSilencesCleanups(s, id, acknowledged, job);
    }
    Settles(s, Apply(s, CommitUpload(id, acknowledged)), id);
  }

  /** No run from here has the document without its object. */
  ghost predicate NeverLost(s: World, id: Id, key: StorageKey) {
    forall steps :: id in Exec(s, steps).db.docs ==> key in Exec(s, steps).objects
  }

  lemma SettledIsNeverLost(s: World, id: Id)
    requires Safe(s) && Traced(s) && Settled(s, id)
    ensures NeverLost(s, id, s.uploads[id].key)
  {
    forall steps | id in Exec(s, steps).db.docs ensures s.uploads[id].key in Exec(s, steps).objects {
      SettledForLife(s, steps, id);
    }
  }

  lemma EraseLoses(s: World, id: Id, token: Id)
    requires id in s.db.docs && id in s.uploads && Threatens(s, token, s.uploads[id].key)
    ensures exists steps :: id in Exec(s, steps).db.docs && s.uploads[id].key !in Exec(s, steps).objects
  {
    var steps := [Erase(token, true, true)];
    assert steps[1..] == [];
    assert Exec(s, steps) == Apply(s, steps[0]);
  }

  lemma DisputedIsLost(s: World, id: Id)
    requires id in s.db.docs && id in s.uploads && !Undisputed(s, id)
    ensures !NeverLost(s, id, s.uploads[id].key)
  {
    if s.uploads[id].key !in s.objects {
      assert Exec(s, []) == s;
    } else {
      var token :| Threatens(s, token, s.uploads[id].key);
      EraseLoses(s, id, token);
    }
  }

  /** Whether the upload is late or not, the document it creates keeps its
      object in every run exactly when the commit was undisputed. */
  lemma CommitIsSafeIffUndisputed(s: World, id: Id, acknowledged: bool)
    requires Safe(s) && Traced(s) && Ready(s, id)
    ensures NeverLost(Apply(s, CommitUpload(id, acknowledged)), id, s.uploads[id].key) <==> Undisputed(s, id)
  {
    CommitCreates(s, id, acknowledged);
    if Undisputed(s, id) {
      CommitSettles(s, id, acknowledged);
      SafetyKept(s, CommitUpload(id, acknowledged));
      TracedKept(s, CommitUpload(id, acknowledged));
      SettledIsNeverLost(Apply(s, CommitUpload(id, acknowledged)), id);
    } else {
      SameDispute(s, Apply(s, CommitUpload(id, acknowledged)), id);
      DisputedIsLost(Apply(s, CommitUpload(id, acknowledged)), id);
    }
  }
}
