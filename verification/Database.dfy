/** The same transactions as the source runs them: methods that read rows,
    assign their columns one by one and save them. */
module Store {
  import opened Records
  import opened Backoff
  import opened Revisions
  import Jobs
  import Services
  import Safety
  import Recovery
  import Dispatching

  class Database {
    var clock: Time
    var jobs: map<Id, Job>
    var documents: map<Id, Document>
    var auditLog: seq<Event>
    var nextId: Id
    var broker: multiset<Id>

    ghost function View(): Db
      reads this
    {
      Db(clock, jobs, documents, auditLog, nextId)
    }

    constructor (now: Time)
      ensures View() == Db(now, map[], map[], [], 0) && broker == multiset{}
    {
      clock, jobs, documents, auditLog, nextId, broker := now, map[], map[], [], 0, multiset{};
    }

    /** A new UUID. */
    method Fresh() returns (id: Id)
      modifies this`nextId
      ensures id == old(nextId) && nextId == id + 1
    {
      id := nextId;
      nextId := nextId + 1;
    }

    method Audit(document: Id, owner: Id, actor: Actor, action: Action)
      modifies this`auditLog
      ensures auditLog == old(auditLog) + [Event(document, owner, actor, action)]
    {
      auditLog := auditLog + [Event(document, owner, actor, action)];
    }

    /** Document.save: rebuild the search text, loading the extracted text first
        if the instance was read without it. */
    method Save(id: Id, instance: Document, deferred: bool)
      requires deferred ==> id in documents
      modifies this`documents
      ensures var text := if deferred then old(documents)[id].text else instance.text;
              documents == old(documents)[id := Saved(instance.(text := text))]
    {
      var row := instance;
      if deferred {
        row := row.(text := documents[id].text);
      }
      row := row.(search := Normalised(row.metadata, row.text));
      documents := documents[id := row];
    }

    method Transition(id: Id, job: Job, status: Status, error: ErrorCode, outcome: Jobs.Outcome)
      requires job.document in documents
      modifies this`documents, this`auditLog
      ensures View() == Jobs.Transition(old(View()), status, id, job, error, outcome)
    {
      var document := documents[job.document];
      var previous := document.status;
      document := document.(status := status);
      document := document.(attempts := job.attempts);
      document := document.(errorCode := error);
      match outcome {
        case Extracted(text) =>
          document := document.(text := text);
          document := document.(processedAt := Some(clock));
        case _ =>
      }
      Save(job.document, document, false);
      Audit(job.document, document.owner, System, StatusChanged(previous, status, job.attempts, error, id));
    }

    method Claim(id: Id) returns (claim: Option<Job>)
      modifies this`jobs, this`documents, this`auditLog, this`nextId
      ensures (View(), claim) == Jobs.Claim(old(View()), id)
    {
      if id !in jobs || jobs[id].state != JobState.Pending || jobs[id].availableAt > clock {
        return None;
      }
      var job := jobs[id];
      job := job.(state := JobState.Running);
      job := job.(attempts := job.attempts + 1);
      var token := Fresh();
      job := job.(runToken := Some(token));
      job := job.(leaseUntil := Some(clock + JOB_LEASE));
      jobs := jobs[id := job];
      if job.kind.Ocr? {
        if job.document !in documents {
          ghost var claimed := jobs;
          job := job.(state := JobState.Succeeded);
          job := job.(leaseUntil := None);
          jobs := jobs[id := job];
          assert claimed[id := job] == old(jobs)[id := job];
          return None;
        }
        Transition(id, job, Status.Processing, NoError, Jobs.Done);
      }
      claim := Some(job);
    }

    method Finish(id: Id, token: Option<Id>, outcome: Jobs.Outcome, jitter: nat) returns (reply: Jobs.Reply)
      requires id in jobs
      modifies this`jobs, this`documents, this`auditLog
      ensures (View(), reply) == Jobs.Finish(old(View()), id, token, outcome, jitter)
    {
      var current := jobs[id];
      if current.runToken != token || current.state != JobState.Running {
        return Jobs.Stale;
      }
      current := current.(leaseUntil := None);
      current := current.(dispatchedAt := None);
      match outcome {
        case Failing(failure) =>
          var retry := failure.retryable && current.attempts < current.maxAttempts;
          current := current.(state := if retry then JobState.Pending else JobState.Failed);
          current := current.(errorCode := failure.code);
          current := current.(availableAt := clock + Delay(current.attempts) + jitter);
        case _ =>
          current := current.(state := JobState.Succeeded);
          current := current.(errorCode := NoError);
      }
      jobs := jobs[id := current];
      if current.kind.Ocr? && current.document in documents {
        Transition(id, current, Jobs.DocumentStatus(current.state), current.errorCode, outcome);
      }
      reply := Jobs.Became(current.state);
    }

    /** The operator's command: rearm one failed cleanup job. */
    method RetryCleanup(id: Id) returns (rearmed: bool)
      modifies this`jobs
      ensures View() == Jobs.Rearm(old(View()), id)
      ensures rearmed <==> Jobs.Rearmable(old(View()), id)
    {
      if id !in jobs || !jobs[id].kind.DeleteObject? || jobs[id].state != JobState.Failed {
        return false;
      }
      var job := jobs[id];
      job := job.(state := JobState.Pending);
      job := job.(attempts := 0);
      job := job.(errorCode := NoError);
      job := job.(dispatchedAt := None);
      job := job.(availableAt := clock);
      jobs := jobs[id := job];
      rearmed := true;
    }

    /** The idempotency check: look for the owner's document under the key. */
    method Replay(request: Services.Request) returns (replay: Services.Replay)
      requires Safety.KeysUnique(View())
      ensures replay == Services.ReplayOf(View(), request)
    {
      if request.idempotencyKey.None? {
        return Services.Unused;
      }
      var left := documents.Keys;
      while left != {}
        invariant left <= documents.Keys
        invariant forall id | id in documents && id !in left :: !Services.Names(View(), request, id)
        decreases left
      {
        var id :| id in left;
        left := left - {id};
        if documents[id].owner == request.owner && documents[id].idempotencyKey == request.idempotencyKey {
          Safety.ReplayIsFound(View(), request, id);
          return
            if documents[id].fingerprint != Services.FingerprintOf(request) then Services.Conflicting
            else Services.Existing(id);
        }
      }
      replay := Services.Unused;
    }

    /** Insert a job row with its defaults. */
    method CreateJob(kind: Kind, document: Id, maxAttempts: nat, availableAt: Time) returns (id: Id)
      modifies this`jobs, this`nextId
      ensures id == old(nextId)
      ensures View()
              == Services.Enqueue(old(View()), Job(kind, document, JobState.Pending, 0, maxAttempts, availableAt,
                                                   None, None, None, NoError))
    {
      id := Fresh();
      jobs := jobs[id := Job(kind, document, JobState.Pending, 0, maxAttempts, availableAt, None, None, None, NoError)];
    }

    method DeclareIntent(document: Id, key: StorageKey) returns (intent: Id)
      modifies this`jobs, this`nextId
      ensures intent == old(nextId)
      ensures View() == Services.Intend(old(View()), document, key)
    {
      intent := CreateJob(DeleteObject(key), document, CLEANUP_ATTEMPTS, clock + UPLOAD_GRACE);
    }

    method Expedite(intent: Id)
      modifies this`jobs
      ensures View() == Services.Expedite(old(View()), intent)
    {
      if intent in jobs {
        jobs := jobs[intent := jobs[intent].(availableAt := clock)];
      }
    }

    /** The transaction that ends an upload, run under its owner's row lock. */
    method CommitUpload(id: Id, request: Services.Request, key: StorageKey, intent: Id)
      returns (replay: Services.Replay)
      requires Safety.KeysUnique(View()) && intent in jobs
      modifies this`jobs, this`documents, this`auditLog, this`nextId
      ensures (View(), replay) == Services.Commit(old(View()), id, request, key, intent)
    {
      replay := Replay(request);
      match replay {
        case Existing(_) => Expedite(intent);
        case Conflicting =>
        case Unused =>
          var document := Document(
            request.owner, key, request.filename, request.mime, |request.content|, Sha256(request.content),
            request.metadata, 1, Status.Pending, 0, NoError, NoText, None,
            request.idempotencyKey, Services.FingerprintOf(request), Normalised(map[], NoText));
          Save(id, document, false);
          Audit(id, request.owner, Actor.User(request.owner), Created);
          var _ := CreateJob(Ocr, id, OCR_ATTEMPTS, clock);
          jobs := jobs[intent := jobs[intent].(state := JobState.Succeeded)];
      }
    }

    /** Answer a caller's precondition before anything is written. */
    method CheckRevision(id: Id, caller: Services.Caller, header: Option<string>) returns (gate: Services.Response)
      ensures gate == Services.Gate(View(), id, caller, header)
    {
      if id !in documents || !(caller.staff || documents[id].owner == caller.id) {
        return Services.NotFound;
      }
      match header {
        case None => gate := Services.PreconditionRequired;
        case Some(tag) =>
          gate := if tag != Tag(documents[id].revision) then Services.PreconditionFailed else Services.Success;
      }
    }

    method ChangedFields(metadata: Metadata, data: Metadata) returns (changed: set<Field>)
      ensures changed == Services.Changed(metadata, data)
    {
      changed := {};
      var left := data.Keys;
      while left != {}
        invariant left <= data.Keys
        invariant changed == set field | field in Services.Changed(metadata, data) && field !in left
        decreases left
      {
        var field :| field in left;
        left := left - {field};
        if field !in metadata || metadata[field] != data[field] {
          changed := changed + {field};
        }
      }
    }

    /** Set the changed fields one by one; the others already have their values. */
    method SetFields(metadata: Metadata, data: Metadata, changed: set<Field>) returns (merged: Metadata)
      requires changed == Services.Changed(metadata, data)
      ensures merged == metadata + data
    {
      merged := metadata;
      var left := changed;
      while left != {}
        invariant left <= changed
        invariant merged == metadata + map field | field in changed && field !in left :: data[field]
        decreases left
      {
        var field :| field in left;
        left := left - {field};
        merged := merged[field := data[field]];
      }
    }

    /** Patch the metadata.  The view reads the row without its extracted text. */
    method UpdateDocument(id: Id, caller: Services.Caller, header: Option<string>, data: Metadata)
      returns (response: Services.Response)
      modifies this`documents, this`auditLog
      ensures (View(), response) == Services.Patch(old(View()), id, caller, header, data)
    {
      response := CheckRevision(id, caller, header);
      if response != Services.Success {
        return;
      }
      var document := documents[id].(text := NoText);
      var changed := ChangedFields(document.metadata, data);
      if changed != {} {
        var metadata := SetFields(document.metadata, data, changed);
        document := document.(metadata := metadata);
        document := document.(revision := document.revision + 1);
        Save(id, document, true);
        Audit(id, document.owner, Actor.User(caller.id), MetadataUpdated(changed, document.revision));
      }
    }

    method DeleteDocument(id: Id, caller: Services.Caller, header: Option<string>)
      returns (response: Services.Response)
      modifies this`jobs, this`documents, this`auditLog, this`nextId
      ensures (View(), response) == Services.Delete(old(View()), id, caller, header)
    {
      response := CheckRevision(id, caller, header);
      if response != Services.Success {
        return;
      }
      var document := documents[id];
      Audit(id, document.owner, Actor.User(caller.id), Deleted);
      var _ := CreateJob(DeleteObject(document.storageKey), id, CLEANUP_ATTEMPTS, clock);
      documents := documents - {id};
    }

    method ReprocessDocument(id: Id, caller: Services.Caller, header: Option<string>)
      returns (response: Services.Response)
      modifies this`jobs, this`documents, this`auditLog, this`nextId
      ensures (View(), response) == Services.Reprocess(old(View()), id, caller, header)
    {
      response := CheckRevision(id, caller, header);
      if response != Services.Success {
        return;
      }
      var document := documents[id].(text := NoText);
      if document.status != Status.Failed {
        return Services.Conflict;
      }
      document := document.(status := Status.Pending);
      document := document.(attempts := 0);
      document := document.(errorCode := NoError);
      document := document.(revision := document.revision + 1);
      Save(id, document, true);
      Audit(id, document.owner, Actor.User(caller.id), ReprocessRequested);
      var _ := CreateJob(Ocr, id, OCR_ATTEMPTS, clock);
    }

    /** Time passes between one transaction and the next. */
    method Pause()
      modifies this`clock
      ensures old(clock) <= clock
    {
      var elapsed :| elapsed >= 0;
      clock := clock + elapsed;
    }

    /** One recovery transaction; the row is locked by then. */
    method RecoverOne(id: Id, jitter: nat)
      requires Jobs.Expired(View(), id)
      modifies this`jobs, this`documents, this`auditLog, this`nextId
      ensures View() == Jobs.Recover(old(View()), id, jitter)
    {
      var token := Fresh();
      jobs := jobs[id := jobs[id].(runToken := Some(token))];
      var reply := Finish(id, Some(token), Jobs.LOST, jitter);
      assert reply != Jobs.Stale;
    }

    /** Read at most `limit` expired rows, in no particular order. */
    method ExpiredRows(limit: nat) returns (candidates: seq<Id>)
      ensures Recovery.Candidates(View(), candidates, limit)
    {
      candidates := [];
      var left := jobs.Keys;
      while left != {} && |candidates| < limit
        invariant left <= jobs.Keys
        invariant forall id | id in candidates :: id in Recovery.ExpiredIds(View()) && id !in left
        invariant forall i, j | 0 <= i < j < |candidates| :: candidates[i] != candidates[j]
        invariant |candidates| <= limit
        invariant forall id | id in Recovery.ExpiredIds(View()) :: id in candidates || id in left
        decreases left
      {
        var id :| id in left;
        left := left - {id};
        if jobs[id].state == JobState.Running && jobs[id].leaseUntil.Some? && jobs[id].leaseUntil.value <= clock {
          candidates := candidates + [id];
        }
      }
    }

    /** The recovery transaction's own look at its row. */
    predicate StillExpired(id: Id)
      reads this
      ensures StillExpired(id) <==> Jobs.Expired(View(), id)
    {
      && id in jobs
      && jobs[id].state == JobState.Running
      && jobs[id].leaseUntil.Some?
      && jobs[id].leaseUntil.value <= clock
    }

    /** Recover one candidate of a pass, unless another transaction holds its row.
        Time may have passed since the candidates were read. */
    method RecoverCandidate(id: Id, locked: set<Id>, ghost start: Db, ghost recovered: set<Id>) returns (done: bool)
      requires Recovery.Recovers(start, View(), recovered) && id !in recovered && Jobs.Expired(start, id)
      modifies this`clock, this`jobs, this`documents, this`auditLog, this`nextId
      ensures done <==> id !in locked
      ensures Recovery.Recovers(start, View(), if done then recovered + {id} else recovered)
    {
      Pause();
      Recovery.StillExpired(start, View(), recovered, id);
      done := id !in locked && StillExpired(id);
      if done {
        var jitter: nat :| jitter <= JITTER_LIMIT;
        Recovery.RecoversOneMore(start, View(), recovered, id, jitter);
        RecoverOne(id, jitter);
      }
    }

    /** Recover expired leases: each candidate once, in a transaction of its own. */
    method RecoverExpired(limit: nat, locked: set<Id>) returns (count: nat, ghost recovered: set<Id>)
      modifies this`clock, this`jobs, this`documents, this`auditLog, this`nextId
      ensures count == |recovered| <= limit
      ensures Recovery.Recovers(old(View()), View(), recovered)
      ensures recovered <= Recovery.ExpiredIds(old(View())) - locked
      ensures locked == {} && |Recovery.ExpiredIds(old(View()))| <= limit ==>
                recovered == Recovery.ExpiredIds(old(View()))
    {
      ghost var start := View();
      var candidates := ExpiredRows(limit);
      count, recovered := 0, {};
      for i := 0 to |candidates|
        invariant count == |recovered| <= i
        invariant recovered == Recovery.Free(candidates[..i], locked)
        invariant Recovery.Recovers(start, View(), recovered)
      {
        Recovery.OneMore(candidates, i, locked);
        var done := RecoverCandidate(candidates[i], locked, start, recovered);
        if done {
          recovered := recovered + {candidates[i]};
          count := count + 1;
        }
      }
      Recovery.AllFree(start, candidates, limit);
      assert candidates[..|candidates|] == candidates;
    }

    /** The dispatchable rows nobody else holds. */
    method DueRows(locked: set<Id>) returns (due: set<Id>)
      ensures due == Dispatching.Due(View(), locked)
    {
      var cutoff := clock - JOB_REDISPATCH;
      due := set id | && id in jobs
                      && (jobs[id].dispatchedAt.None? || jobs[id].dispatchedAt.value <= cutoff)
                      && jobs[id].state == JobState.Pending
                      && jobs[id].availableAt <= clock
                      && id !in locked;
    }

    /** The row of a set that falls due first, by identifier among equals. */
    method Foremost(ids: set<Id>) returns (first: Id)
      requires ids != {} && ids <= jobs.Keys
      ensures Dispatching.Foremost(View(), ids, first)
    {
      first :| first in ids;
      var left := ids - {first};
      assert ids - left == {first};
      while left != {}
        invariant left <= ids && Dispatching.Foremost(View(), ids - left, first)
        decreases left
      {
        var id :| id in left;
        var better := || jobs[id].availableAt < jobs[first].availableAt
                      || (jobs[id].availableAt == jobs[first].availableAt && id < first);
        Dispatching.OneMoreSeen(View(), ids - left, first, id);
        assert ids - (left - {id}) == ids - left + {id};
        left := left - {id};
        first := if better then id else first;
      }
    }

    /** The first due rows in dispatch order, at most as many as the limit. */
    method SelectDue(limit: nat, locked: set<Id>) returns (chosen: seq<Id>)
      ensures chosen == Dispatching.First(View(), Dispatching.Due(View(), locked), limit)
    {
      var left := DueRows(locked);
      ghost var all := left;
      chosen := [];
      while |chosen| < limit && left != {}
        invariant |chosen| <= limit && left <= jobs.Keys && all <= jobs.Keys
        invariant Dispatching.First(View(), all, limit)
                  == chosen + Dispatching.First(View(), left, limit - |chosen|)
        decreases left
      {
        var id := Foremost(left);
        Dispatching.ForemostIsUnique(View(), View(), left, id, Dispatching.Head(View(), left));
        chosen := chosen + [id];
        left := left - {id};
      }
    }

    /** Stamp the given rows, unless one of them is not to be dispatched. */
    method StampJobs(ids: set<Id>)
      modifies this`jobs
      ensures View()
              == if forall id | id in ids :: Jobs.Dispatchable(old(View()), id) then Jobs.Stamp(old(View()), ids)
                 else old(View())
    {
      var cutoff := clock - JOB_REDISPATCH;
      if forall id | id in ids ::
           && id in jobs
           && (jobs[id].dispatchedAt.None? || jobs[id].dispatchedAt.value <= cutoff)
           && jobs[id].state == JobState.Pending
           && jobs[id].availableAt <= clock
      {
        jobs := map id | id in jobs ::
          if id in ids then jobs[id].(dispatchedAt := Some(clock)) else jobs[id];
      }
    }

    /** Stamp the selected rows before anything is published. */
    method StampDue(limit: nat, locked: set<Id>) returns (chosen: seq<Id>)
      modifies this`jobs
      ensures chosen == Dispatching.First(old(View()), Dispatching.Due(old(View()), locked), limit)
      ensures View() == Jobs.Stamp(old(View()), Dispatching.Members(chosen))
    {
      chosen := SelectDue(limit, locked);
      jobs := map id | id in jobs ::
        if id in chosen then jobs[id].(dispatchedAt := Some(clock)) else jobs[id];
    }

    /** Hand one message to the broker, which may keep it and still fail the call. */
    method Publish(id: Id, kept: bool, confirmed: bool)
      modifies this`broker
      ensures broker == if kept || confirmed then old(broker) + multiset{id} else old(broker)
    {
      if kept || confirmed {
        broker := broker + multiset{id};
      }
    }

    /** Publish in order, giving up at the first failure.  The broker confirms so many
        messages at most, and may or may not keep the one it then fails. */
    method PublishAll(chosen: seq<Id>, confirms: nat, keeps: bool) returns (published: nat)
      modifies this`broker
      ensures published == if confirms < |chosen| then confirms else |chosen|
      ensures broker == old(broker) + multiset(Dispatching.Reached(chosen, published, keeps))
    {
      published := 0;
      while published < |chosen|
        invariant published <= |chosen| && published <= confirms
        invariant broker == old(broker) + multiset(chosen[..published])
      {
        assert chosen[..published + 1] == chosen[..published] + [chosen[published]];
        var confirmed := published < confirms;
        Publish(chosen[published], keeps, confirmed);
        if !confirmed {
          break;
        }
        published := published + 1;
      }
    }

    /** Stamp the due rows in one transaction, then publish them. */
    method Send(limit: nat, locked: set<Id>, confirms: nat, keeps: bool) returns (published: nat, ghost chosen: seq<Id>)
      modifies this`jobs, this`broker
      ensures chosen == Dispatching.First(old(View()), Dispatching.Due(old(View()), locked), limit)
      ensures View() == Jobs.Stamp(old(View()), Dispatching.Members(chosen))
      ensures published == if confirms < |chosen| then confirms else |chosen|
      ensures broker == old(broker) + multiset(Dispatching.Reached(chosen, published, keeps))
    {
      var sent := StampDue(limit, locked);
      chosen := sent;
      published := PublishAll(sent, confirms, keeps);
    }
  }
}
