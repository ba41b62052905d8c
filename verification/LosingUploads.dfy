/** What becomes of an upload that finds its document already made: it makes none,
    and its own object is left to a cleanup with no wait. */
module LosingUploads {
  import opened Records
  import opened Jobs
  import opened Services
  import opened Protocol
  import opened Transactions
  import opened Ledger
  import opened Structure
  import opened Safety
  import opened StorageKeys
  import opened Custody
  import opened Attempts

  /** An upload that is over, whose intent is unclaimed only as a pending job with
      no wait left, but for the update the upload still owes it. */
  predicate Lost(s: World, id: Id, intent: Id) {
    && id in s.uploads
    && !Open(s.uploads[id].progress)
    && intent in s.db.jobs
    && var row := s.db.jobs[intent];
       && row.kind == DeleteObject(s.uploads[id].key)
       && row.document == id
       && (row.runToken.None? ==>
             && row.state == JobState.Pending
             && (row.availableAt <= s.db.now || s.uploads[id].progress == Abandoned(intent)))
  }

  /** No commit withdraws the intent of an upload that is over. */
  lemma LostIsNotWithdrawn(s: World, step: Step, id: Id, intent: Id)
    requires Structured(s) && Lost(s, id, intent)
    ensures !MoveOn(TransactionOf(s, step), intent).Withdraw?
  {
    if MoveOn(TransactionOf(s, step), intent).Withdraw? {
      OnlyCommitsWithdraw(s, step, intent);
      InsertedIsUploaded(s, step);
    }
  }

  lemma MoveKeepsUnclaimed(db: Db, row: Job, move: Move, now: Time)
    requires CanMove(db, row, move) && db.now <= now && !move.Withdraw?
    requires row.runToken.None? ==> row.state == JobState.Pending
    ensures var moved := Moved(db, row, move);
            moved.runToken.None? ==>
              && row.runToken.None?
              && moved.state == JobState.Pending
              && (row.availableAt <= db.now ==> moved.availableAt <= now)
  {}

  /** What an upload that is over may still do: make its intent due. */
  lemma OverUploadStays(s: World, step: Step, id: Id, intent: Id)
    requires Structured(s) && Lost(s, id, intent)
    ensures id in Apply(s, step).uploads
    ensures Apply(s, step).uploads[id].key == s.uploads[id].key
    ensures !Open(Apply(s, step).uploads[id].progress)
    ensures s.uploads[id].progress == Abandoned(intent) ==>
              || Apply(s, step).uploads[id].progress == Abandoned(intent)
              || (var db := Apply(s, step).db; intent in db.jobs && db.jobs[intent].availableAt == db.now)
  {
    if UploadOf(s, step) != Some(id) {
      OtherUploads(s, step, id);
    }
  }

  lemma LostStays(s: World, step: Step, id: Id, intent: Id)
    requires Structured(s) && Lost(s, id, intent)
    ensures Lost(Apply(s, step), id, intent)
  {
    RowStep(s, step, intent);
    LostIsNotWithdrawn(s, step, id, intent);
    OverUploadStays(s, step, id, intent);
    var move := MoveOn(TransactionOf(s, step), intent);
    MoveKeepsKind(s.db, s.db.jobs[intent], move);
    MoveKeepsUnclaimed(s.db, s.db.jobs[intent], move, Apply(s, step).db.now);
  }

  lemma {:induction false} LostForever(s: World, steps: seq<Step>, id: Id, intent: Id)
    requires Structured(s) && Lost(s, id, intent)
    ensures Structured(Exec(s, steps)) && Lost(Exec(s, steps), id, intent)
    decreases |steps|
  {
    if steps != [] {
      LostStays(s, steps[0], id, intent);
      StructureKept(s, steps[0]);
      LostForever(Apply(s, steps[0]), steps[1..], id, intent);
    }
  }

  /** A losing commit expedites its intent, or leaves that to its upload. */
  lemma LosingCommitLeaves(s: World, id: Id, acknowledged: bool)
    requires At(s, id, true) && !ReplayOf(s.db, s.uploads[id].request).Unused?
    requires s.uploads[id].progress.intent in s.db.jobs
    ensures var intent := s.uploads[id].progress.intent;
            var after := AfterCommitUpload(s, id, acknowledged);
            && id in after.uploads
            && after.uploads[id].key == s.uploads[id].key
            && !Open(after.uploads[id].progress)
            && intent in after.db.jobs
            && after.db.jobs[intent] == s.db.jobs[intent].(availableAt := after.db.jobs[intent].availableAt)
            && (after.db.jobs[intent].availableAt <= after.db.now || after.uploads[id].progress == Abandoned(intent))
  {}

  /** A losing commit within its grace. */
  lemma LosingCommit(s: World, id: Id, acknowledged: bool)
    requires Structured(s) && InCustody(s) && At(s, id, true) && s.db.now < s.uploads[id].progress.due
    requires !ReplayOf(s.db, s.uploads[id].request).Unused?
    ensures Lost(AfterCommitUpload(s, id, acknowledged), id, s.uploads[id].progress.intent)
  {
    assert Sheltered(s, id);
    assert UploadFits(s.db, id, s.uploads[id]);
    LosingCommitLeaves(s, id, acknowledged);
  }

  /** The update the upload owes leaves its intent claimable, unless it has been claimed. */
  lemma ExpediteSettles(s: World, id: Id, intent: Id)
    requires Lost(s, id, intent)
    ensures var settled := Apply(s, ExpediteIntent(id));
            && intent in settled.db.jobs
            && settled.db.jobs[intent].kind == s.db.jobs[intent].kind
            && (Claimable(settled.db, intent) || settled.db.jobs[intent].runToken.Some?)
  {}

  /** A losing commit changes no document and writes no event. */
  lemma LosingCommitMakesNothing(s: World, id: Id, acknowledged: bool)
    requires At(s, id, true) && !ReplayOf(s.db, s.uploads[id].request).Unused?
    ensures var committed := AfterCommitUpload(s, id, acknowledged);
            && committed.db.docs == s.db.docs
            && committed.db.audit == s.db.audit
            && committed.db.nextId == s.db.nextId
            && id in committed.uploads
            && !Open(committed.uploads[id].progress)
  {}
}
