# The durable job protocol, modelled and proved

The document service keeps its work in a database: uploads, OCR and storage
cleanup are rows of a job ledger, moved by API requests, workers, a dispatcher
and an operator that share nothing but those rows. The object store and the
broker sit outside every transaction, and any process may stop between two of
its steps. This project models that system as one state machine and proves what
every run of it keeps.

## How the model is built

- **Rows** (`Records`): jobs, documents, audit events, and the settings the
  protocol reads. Times are integers in microseconds. Identifiers, run tokens
  and the random part of storage keys are fresh counters.
- **Transactions** (`Jobs`, `Services`, `Revisions`, `Backoff`): each
  `transaction.atomic` block as a function on the database.
- **Code** (`Store`): a class whose methods read rows, assign their columns one
  by one and save them, each proved equal to its transaction.
- **System** (`Protocol`): the database, the stored objects, the workers in
  flight with the rows they claimed, and the uploads in flight. A transaction, a
  storage call, a publication and a tick of the clock are one step each; a crash
  is a process taking no further step. Any job may be delivered at any time, any
  number of times, so lost, late, reordered and duplicated messages are all
  included. A storage deletion may take effect after its worker gave up on it.
- **Processes** (`Processes`): `run_job`, `create_document` and `dispatch_once`
  as sequential methods, with arbitrary steps of all other processes
  (`Interference`) between any two of their own. What the world outside holds for a
  call (what the store answers, what the engine finds, which call raises) is an
  input, so a contract decides the outcome from it. Each method is proved to be a
  run of the state machine, so the theorems about runs are about the code.
- **Invariants**: every step commits one of ten kinds of transaction
  (`Transactions`), so most properties are proved once per kind (`Ledger`,
  `Documents`, `Agreement`, `Audit`) and then for all steps (`Structure`,
  `Results`, `Safety`, `StorageKeys`, `Custody`, `Leases`, `Histories`,
  `LateCommits`, `Intents`, `LosingUploads`, `Fencing`, `Attempts`, `Deadlines`,
  `Passes`, `Orphans`).
- **Operations**: what one call does, in columns and constants, without naming the
  transaction it is (`Operations`); what a document keeps of its upload
  (`Origins`), why a job is tried again (`Retries`) and when it is sent again
  (`Redelivery`).
- **Theorems**: statements about every state reached from the empty database.
- **Loops beside the protocol**: dispatch rounds (`Dispatching`), lease recovery
  (`Recovery`), the size and hash checks (`Integrity`), the PDF text budget
  (`Extraction`), and the owner's row lock inside the upload's transaction
  (`OwnerLock`).

## Assumptions, as step guards

- **Grace** (`Protocol.InGrace`, `Protocol.Graceful`): an upload stores its
  object and commits before its intent's one-hour due time (ARCHITECTURE.md:72-78).
  Object safety, key custody, the due cleanup of a losing upload, the guard of
  workers that claimed the intent of an upload still before its commit, the plain
  bound on a cleanup's state changes and the custody of an object that lands late
  need it, and `Theorems.CommitIsSafeIffIntentUnclaimed` its half about stores
  (`Intents.StoresInGrace`); nothing else does.
- **No renaming**: storage keeps the random key it is given.
- **The clock never goes back**: a tick has a natural number of microseconds.
- **Jitter** is any value from 0 to 2 seconds (`Protocol.Possible`).
- SHA-256, the request fingerprint and text normalisation are free constructors:
  equal inputs, and only they, give equal outputs. An extracted text is known by
  the bytes it was extracted from; what the engine finds in them may be nothing.

## What the proofs found

- **A late commit can lose its object.** The upload's closing transaction marks
  its intent done without reading it again (documents/services.py:107-108). If
  the intent fell due and a worker claimed it first, the commit still creates the
  document and the worker then deletes its object: `Scenarios.LateCommitLosesObject`
  gives the run. The commit could have told from the row it overwrites: as long
  as stores keep the grace, however late the commit, the document is safe if and
  only if the intent has no run token (`Theorems.CommitIsSafeIffIntentUnclaimed`).
  Without any grace the exact condition is in other processes' memory: the object
  is stored and no cleanup worker is between its claim and a confirmed deletion
  (`Theorems.LateCommitIsSafeIffUndisputed`).
- **A late commit can also cancel a cleanup that had failed for good.** A job of
  eight attempts then changes state seventeen times, not sixteen:
  `Scenarios.SeventeenChanges`. `Theorems.StateChangesAreCounted` shows that a new
  or rearmed job passes twice its attempts exactly if a commit cancels it after it
  failed with its attempts used up, and
  `Theorems.CommitPassesTheBoundIffExhausted` that the row the commit overwrites
  tells;
  `Theorems.StateChangesAreBoundedInGrace` gives the plain bound for OCR jobs in
  every run and for all jobs within the grace.
- **A store that lands late can leave an orphan.** A store whose call failed is
  cleaned up at once, and may still take effect later. Exactly when the object
  keeps one custodian in every later run is `Orphans.LateStoreIsKeptIffReceived`:
  its document, or an unfinished cleanup, must be there to receive it, and no
  worker may be between a confirmed deletion and the finish that reports it. So
  the gap begins with the confirmed deletion, not with the end of the cleanup. The
  rows tell all but in one case (`Orphans.RowsTellUnlessRunning`): a cleanup that
  is pending or failed keeps the object, one that succeeded does not, and one that
  is running may do either (`Orphans.RunningRowTellsNothing`).
- **The text limit of PDFs is two characters short.** Each page is charged its
  text and a two-character separator, the last page too (documents/ocr.py:102), so
  a PDF is accepted only up to the limit less two, while an image is held to the
  limit the documentation gives (docs/ASSUMPTIONS.md:12):
  `Extraction.SameTextTwoLimits`. The final length check (documents/ocr.py:136) is
  never what refuses a PDF: `Extraction.Extract` accepts it whenever its pages pass.
- **The owner's lock carries idempotency.** With it, the second check is still
  true at the commit in every interleaving of statements; without it, two uploads
  collide: `OwnerLock.CommitIsAtomic`, `OwnerLock.UnlockedRunsCollide`.
- **A lower upload limit condemns stored files.** The worker checks its own
  configured limit again, so an unmodified object above it is reported corrupt:
  `Integrity.AcceptedUploadVerifiesIffUnmodified`.

## Model

| member | source | states |
|---|---|---|
| Theorems.ObjectSafety | documents/services.py:72-108 | In every run within the grace, a document's object is stored with the recorded size and hash, however late or often cleanup workers delete |
| Theorems.OneCustodian | documents/services.py:68-118 | In every run within the grace, each stored object has exactly one custodian: its document, or one cleanup job not yet succeeded |
| Theorems.LateCommitIsSafeIffUndisputed | documents/services.py:107-108 | In any state of any run, with no assumption on time, a commit creates a document that can never lose its object if and only if the object is there and no cleanup worker, by its own memory, is between its claim and a confirmed deletion |
| Theorems.CommitIsSafeIffIntentUnclaimed | documents/services.py:107-108 | If only the stores keep the grace, a commit, however late, creates a document that can never lose its object if and only if the row of its intent has no run token: the guard the commit could read and does not |
| Theorems.DocumentAndJobAgree | documents/jobs.py:30-99 | A pending or processing document has exactly one live OCR job, in the same state and at the same attempt; any other document has none |
| Theorems.TokensTakeEffectOnce | documents/jobs.py:77-79 | A claim token takes effect in at most one finish of a run, across recoveries, repeated finishes and rearms |
| Theorems.EffectiveFinishFences | documents/jobs.py:160-173 | After a finish takes effect no later finish of the same worker does |
| Theorems.RecoveryFences | documents/jobs.py:192-195 | After a lease is recovered no later finish under its old token takes effect |
| Theorems.ResultsHaveProvenance | documents/jobs.py:135-160 | A result and its processing time are there exactly when a document succeeded, no error is left in it, and it is extracted from bytes of the recorded size and hash; for every extraction function the stored characters are what it makes of those bytes, and are not empty before |
| Theorems.DocumentsEvolve | documents/services.py:123-167 | Between any two states of a run: file columns stay, revisions do not fall, equal revisions show equal metadata, and a committed result never changes |
| Theorems.NoUpdateIsLost | documents/services.py:123-139 | Metadata changes only by a patch whose caller may see the document and named its current revision, which it raises by one |
| Theorems.RemovedDocumentsStayRemoved | documents/services.py:142-152 | A removed document is absent from every later state |
| Theorems.AuditIsFaithful | documents/services.py:18-27 | Folding a document's events, each consistent with the ones before, gives its status, attempts, error code and revision; the revision is one more than the edits and reprocesses |
| Theorems.DeletionIsUniqueAndLast | documents/services.py:144-152 | A living document has no deletion event; one that is gone has exactly one, and it is the last |
| Theorems.ReplayFindsTheDocument | documents/services.py:42-63 | In every run, the living document under a request's owner and key is the only one, and the check answers with it if and only if the request repeats the metadata, the bytes and the filename of the upload that made it; otherwise with a conflict |
| Theorems.KeysAreFreeUntilUsed | documents/services.py:42-46 | In every run, the check finds a key free if and only if the request has none, or no upload of its owner with that key made a document that still lives |
| Theorems.DocumentsShowTheirUpload | documents/services.py:93-104 | In every run, a document shows the owner, filename, type, size, hash and key of the upload it is named after, and its metadata until its first edit or reprocess |
| Origins.FingerprintTellsApart | documents/services.py:52-63 | Two requests have one fingerprint if and only if their metadata, bytes and filenames are equal |
| Theorems.LosingUploadMakesNothing | documents/services.py:88-92 | In every run, an upload that finds its key taken changes no document, writes no event, and never gets a document later |
| Theorems.LosingUploadIsCleanedUp | documents/services.py:88-118 | If it committed within the grace, then whatever happens before its last update, that update leaves the cleanup of its object claimable at once, unless it has been claimed already |
| Theorems.SearchIsCoherent | documents/models.py:71-86 | In every state the search text is the normalised join of the row's current metadata and text |
| Theorems.AttemptsAreBounded | documents/jobs.py:57-63 | No job exceeds its attempts, three for OCR and eight for a cleanup, and a pending job has one left |
| Theorems.StateChangesAreCounted | documents/jobs.py:82-90 | Without a rearm a job changes state at most twice its maximum of attempts, plus once if the run cancels it after it failed, which happens at most once; a new or rearmed job exceeds twice its maximum if and only if some commit cancels it after it failed with its attempts used up |
| Theorems.CommitPassesTheBoundIffExhausted | documents/services.py:107-108 | The commit that cancels an intent takes its changes past twice its maximum of attempts if and only if the row it overwrites is failed with its attempts used up |
| Theorems.StateChangesAreBoundedInGrace | documents/jobs.py:82-90 | Without a rearm an OCR job in any run, and any job in a run within the grace, changes state at most twice its maximum of attempts |
| Theorems.JobsAreOverInTime | documents/jobs.py:178-196 | A new job of n attempts, delivered within D of being due, recovered within R of its lease's end, and neither rearmed nor expedited after it fell due, is over n(D + 240 s + R), the first n - 1 delays and 2(n - 1) seconds of jitter after it is due; it may be cancelled, or expedited before it is due |
| Theorems.RetriesWaitForTheirDelay | documents/jobs.py:82-86 | After an OCR attempt that ends in a retry, the next does not begin before its delay has passed, whoever delivers the job and however often |
| Theorems.RunsFollowTheAutomaton | ARCHITECTURE.md:98-106 | Every step moves every document's status along the documented automaton, leaving failed only by its own reprocess |
| Theorems.LiveWorkersAreNotFenced | config/settings/base.py:165-175 | Counted from the clock of the delivery that won the claim, the first finish of a worker within 180 seconds takes effect, whatever is recovered meanwhile: in every run for OCR workers and for cleanup workers whose row was no open upload's intent when claimed, and within the grace for the others |
| Theorems.WorkersWonTheirClaims | documents/jobs.py:53-72 | Every worker of every run won its claim at some step of it |
| Theorems.LeasesLastFromTheClaim | documents/jobs.py:57-63 | While a worker holds its row, a recovery changes nothing before 240 seconds have passed since its claim, and fences it for good from then on |
| Theorems.DocumentsSettle | documents/jobs.py:178-196 | A document whose OCR jobs are past their dates is neither pending nor processing |
| Theorems.ObjectsSettle | documents/services.py:68-118 | Within the grace, an object whose cleanup jobs are past their dates has its document as its one custodian, or one failed cleanup left to the operator |
| Scenarios.LateCommitLosesObject | documents/services.py:107-108 | For every request there is a run outside the grace that ends with its document alive and its object gone |
| Scenarios.SeventeenChanges | documents/services.py:107-108 | For every request there is a run without a rearm in which a cleanup job of eight attempts changes state seventeen times, the last by a late commit that cancels it after it failed |
| LateCommits.SettledForLife | documents/jobs.py:128-133 | A document whose object is stored and which no cleanup can reach keeps it in every run for as long as it lives |
| Transactions.StepCommits | documents/views.py:156-177 | Every step of every process commits one transaction of its kind and writes nothing else |
| Safety.SafetyKept | documents/jobs.py:53-110 | Every step keeps structure, agreement, faithful audit, results, unique keys and worker phases |
| Custody.RunKeepsCustody | documents/services.py:68-118 | Every run within the grace keeps every object in custody: intents rest until due, claimed cleanups are harmless, documents keep their objects |
| Custody.ClaimedCleanupIsHarmless | documents/jobs.py:55-63 | When a cleanup is claimed, its object belongs to no document and to no upload within its grace |
| Agreement.AgreementKept | documents/jobs.py:30-50 | Every transaction keeps documents and OCR jobs in agreement |
| Fencing.OtherFinishesChangeNothing | documents/jobs.py:77-79 | A finish that does not hold its row answers stale and changes nothing in the database |
| Operations.DeliveryClaimsIffDue | documents/jobs.py:53-72 | A delivery starts an attempt if and only if the job is pending and due: one more attempt, a fresh token, a worker, its document processing; without its document an OCR job succeeds at once |
| Operations.FinishIsDecided | documents/jobs.py:75-110 | A finish takes effect if and only if the row still runs under the worker's token. Then a failure leaves it pending if it is retryable and attempts are left, failed if not, with that failure's code in the row and the living document, the stamp cleared and the next try after the delay; and no failure leaves it succeeded with the text the worker read |
| Operations.RecoveryIsDecided | documents/jobs.py:178-197 | A recovery takes effect if and only if the row's lease has run out; row and living document then end as for a worker that reports, under a new token, the retryable failure of a lost worker |
| Operations.RearmIsDecided | documents/management/commands/retry_cleanup.py:16-31 | Exactly a failed cleanup is rearmed: pending, due and unsent, no attempt of its eight used, no error, its token kept |
| Operations.PatchIsDecided | documents/services.py:123-139 | Who may not see the document, names no revision or not the current one is refused in that order; otherwise the given fields override the old, the revision rises exactly if a value changed, and nothing else changes but the search text |
| Operations.DeleteIsDecided | documents/services.py:142-152 | A deletion not refused removes the document and leaves a cleanup of its key, of eight attempts, due at once |
| Operations.ReprocessIsDecided | documents/services.py:155-167 | A reprocess not refused is a conflict unless the document failed; then the document is pending, unattempted and one revision on, with an OCR job of three attempts due at once |
| Operations.TagIsQuotedDecimal | documents/services.py:30-34 | The tag of a revision is its decimal digits without a leading zero, in quotes |
| Operations.IntentWaitsAnHour | documents/services.py:68-79 | An intent is a cleanup of the upload's own key, of eight attempts, due in 3600 seconds |
| Operations.CommitStartsWork | documents/services.py:93-106 | A commit on a free key makes a document with the request's columns, pending at revision one, and an OCR job for it of three attempts due at once |
| Operations.CommitSettlesIntent | documents/services.py:88-108 | A commit marks its intent done if it makes the document, makes it due if the document was there, and leaves it in a conflict, changing no other column of it |
| Operations.ExpediteIsDecided | documents/services.py:110-116 | The last update of an upload that failed makes its intent due at once and changes nothing else in the database |
| Operations.ChangesAreAudited | documents/services.py:18-27 | A step that changes a document appends exactly one event, which names its owner and who acted and tells what changed from the rows before and after; a step that changes none appends none |
| Retries.AttemptsBeforeTheLastWereTransient | documents/jobs.py:82-86 | In any run without a rearm, every attempt of a job but the last ended in a retryable failure or a lost lease, and every attempt if the job is pending |
| Attempts.StateChangesAreBounded | documents/jobs.py:82-90 | From any state, the changes of a job's state and the measure left (twice the attempts left, plus one while running) are at most the measure at the start, plus one for each cancellation of a failed cleanup |
| Backoff.DelayIsBounded | documents/jobs.py:26-27 | Delays double from five seconds for seven attempts and are ten minutes from the eighth |
| Backoff.TotalDelayClosedForm | documents/jobs.py:26-27 | The first n delays add up to 5(2^n - 1) seconds for n up to 7, and 635 + 600(n - 7) beyond |
| Deadlines.LiveJobIsNotLate | documents/jobs.py:178-196 | From any moment, a job delivered within D of being due, recovered within R of its lease's end, and neither rearmed nor expedited after it fell due, is not alive past a date computable at that moment |
| Deadlines.RestClosedForm | documents/jobs.py:82-86 | The time left after an attempt is one round and one delay with jitter for each attempt left |
| Revisions.AcceptedNamesOneRevision | documents/services.py:30-34 | A header is accepted for exactly one revision, the one its single strong tag spells (section 13.1.1 of RFC 9110); no header asks for one (section 3 of RFC 6585) |
| Histories.LosingDeliveryIsStutter | documents/jobs.py:113-116 | A delivery that wins no claim changes no document, event, object, worker or upload |
| Recovery.RecoveryIsNeverStale | documents/jobs.py:192-195 | The finish inside a recovery is not stale and answers pending or failed by the attempts left |
| Store.Database.Save | documents/models.py:71-86 | Saving stores the row with its search text rebuilt from the current text, even if the instance was read without it |
| Store.Database.Transition | documents/jobs.py:30-50 | The document takes the job's status and attempts, and a result if there is one, and the event records the status before |
| Store.Database.Claim | documents/jobs.py:53-72 | A pending due job becomes running under a fresh token and lease, marks its document, or ends at once if the document is gone; any other job is left alone |
| Store.Database.Finish | documents/jobs.py:75-110 | Only the holder of a running row ends it: succeeded, retried after the backoff, or failed, and its document with it |
| Store.Database.RetryCleanup | documents/management/commands/retry_cleanup.py:16-31 | Exactly a failed cleanup job is rearmed, its token kept; otherwise nothing changes |
| Audit.StoryContinues | documents/services.py:18-27 | The event a transaction appends, if any, continues its document's story to the row the transaction leaves, and no other document's |
| Store.Database.Replay | documents/services.py:42-46 | The search finds the one document under the owner's key, compares fingerprints, and otherwise reports the key unused |
| Ledger.RowsKept | documents/models.py:100-115 | Every transaction keeps job rows well formed, those it inserts included, and no two with one run token |
| Store.Database.DeclareIntent | documents/services.py:72-79 | A cleanup job for the key, of eight attempts, due in one hour |
| Processes.ExpediteMakesDue | documents/services.py:110-118 | The last update of an upload that failed leaves it over, documents as they were, and a cleanup of its key with no wait left: pending, or claimed already, unless the upload's document was made after all |
| Store.Database.CommitUpload | documents/services.py:85-108 | A matching document expedites the intent, a conflicting one changes nothing, none inserts document, event and OCR job and marks the intent done |
| Store.Database.CheckRevision | documents/services.py:30-39 | Unseen document, missing header, other tag and current tag are told apart before anything is written |
| Store.Database.ChangedFields | documents/services.py:125-125 | Exactly the fields whose given value differs |
| Store.Database.SetFields | documents/services.py:126-128 | Setting the changed fields one by one gives the old fields overridden by the new |
| Store.Database.UpdateDocument | documents/services.py:123-139 | A patch through an instance without its text keeps the text in the row and the index; unchanged fields write nothing |
| Store.Database.DeleteDocument | documents/services.py:142-152 | The event, the cleanup of the stored key and the removal of the row together |
| Store.Database.ReprocessDocument | documents/services.py:155-167 | Only a failed document is reset to pending under a new revision with a new OCR job |
| Store.Database.RecoverOne | documents/jobs.py:184-195 | An expired row is fenced by a new token and ended as a lost worker's |
| Store.Database.ExpiredRows | documents/jobs.py:180-183 | Distinct expired rows, as many as there are or as the limit allows |
| Dispatching.StampSettles | documents/jobs.py:204-206 | A stamp takes exactly its rows out of the due ones of the next thirty seconds |
| Store.Database.RecoverExpired | documents/jobs.py:178-197 | When only time passes between the transactions of a pass: the count is exact and within the limit, each recovered row ended as a lost worker's, all other rows and documents are untouched, and with limit and locks permitting all expired rows are recovered |
| Store.Database.SelectDue | documents/jobs.py:207-212 | The first due rows by due time and identifier |
| Store.Database.StampDue | documents/jobs.py:207-213 | Those rows and no others are stamped |
| Store.Database.PublishAll | documents/jobs.py:214-233 | The messages published are those before the first failure, and the broker gains exactly them, and the failed one if it kept it |
| Store.Database.Send | documents/jobs.py:204-233 | The selection is stamped before any of it is published, and the broker gains the messages up to the first failure |
| Dispatching.FirstIsSelection | documents/jobs.py:210-211 | A selection is in order, without repetition, as long as the limit allows, and leaves out nothing that comes before it |
| Dispatching.RoundsActAsOne | documents/jobs.py:204-213 | With no row locked and nothing newly due, rounds within one redispatch interval stamp together what one round with all their limits would: no job twice, none out of turn |
| Dispatching.EnoughRoundsSendAll | documents/jobs.py:204-213 | With no row locked and nothing newly due, rounds whose limits add up to the due jobs stamp them all, each once |
| Redelivery.RoundSelectsExactly | documents/jobs.py:204-213 | With no row locked and a sufficient limit, a round selects exactly the rows that are pending, due, and unsent or sent at least 30 seconds ago |
| Redelivery.RoundServesInOrder | documents/jobs.py:207-212 | A round takes the sendable rows nobody else holds by due time, ties by identifier, as many as its limit, and leaves out none that is earlier than one it takes |
| Redelivery.SentAgainAfterThirtySeconds | documents/jobs.py:204-213 | A job sent at some step, and neither claimed, withdrawn nor sent again in the run since, is selected by a sufficient round if and only if 30 seconds have passed since |
| Processes.System.RunJob | documents/jobs.py:113-175 | Under any interference run_job is a run of the protocol. The work ends as the object, the engine, the deletion and what strikes decide; the finish that answers settles row and document by that, or by what the first finish raised; it is skipped exactly if no claim is won, and raises exactly if the finish of a failure does |
| Processes.WorkIsSettled | documents/jobs.py:128-173 | If the worker still holds its row and finishes as its work ended, the job succeeds if and only if the deletion was confirmed, or the object is what the living document's row records, nothing struck and the engine's limits accept the file, and the document then shows the text of the recorded bytes; otherwise the row has that failure's code |
| Processes.StrikesMayPass | documents/jobs.py:166-173 | A soft time limit is reported as a timeout and any other exception as unexpected, both retryable |
| Processes.System.Start | documents/jobs.py:113-116 | A worker starts exactly if its claim wins, under the token the claim wrote |
| Processes.System.EraseObject | documents/jobs.py:128-133 | A confirmed deletion ends the work without a failure, and one that is not confirmed is a retryable storage failure |
| Processes.System.ReadObject | documents/jobs.py:142-158 | By what the store answers: only content of the row's size and hash passes on, other content is an integrity failure for good, a fault a retryable one |
| Processes.System.ReadDocument | documents/jobs.py:135-159 | The reading of row, object and text is a run of the protocol that ends ready for finish: with nothing to do if the document is gone, with the object's failure, what struck, the engine's refusal, or the text of the bytes read |
| Processes.System.ExtractText | documents/jobs.py:159-173 | What strikes is the failure; else an accepted file gives the text of the verified bytes, and any other the engine's reason for refusing it |
| Processes.System.Conclude | documents/jobs.py:160-173 | A finish that does not raise settles the row by how the work ended; one that raises, committed or not, is followed by the handler's finish if there was no failure to report, which settles the row by what was raised, or finds it released if the first had committed |
| Processes.System.CreateDocument | documents/services.py:49-120 | Under any interference create_document is a run of the protocol. Its answer is decided by the check at the start, else by whether the store confirms and by the check in the closing transaction; it names the new document with its OCR job or the matching one, a conflict leaves no document of its own, and a failed upload that reached its last update has its cleanup due and pending or claimed, unless its document was made after all |
| Processes.System.Close | documents/services.py:85-110 | The answer of the closing transaction is decided by whether it commits, by what its check finds and by whether its success is seen; it leaves what the answer says, and after a conflict no document of the upload |
| Processes.System.GiveUp | documents/services.py:110-120 | An upload that failed is over; if the last update succeeds its cleanup is due and pending or claimed, unless its document was made after all |
| Processes.System.RecoverNext | documents/jobs.py:183-196 | Under any interference a candidate is recovered only if it is still expired and not locked then, and an unlocked one is not expired afterwards |
| Processes.System.RecoverAll | documents/jobs.py:178-197 | Under any interference the count is exact and within the limit, each recovered row was an unlocked candidate, recovered once at a step where it was expired, and no unlocked candidate runs any longer as it did when read |
| Processes.System.DispatchOnce | documents/jobs.py:200-233 | Under any interference dispatch_once is a run of the protocol: a recovery pass, after which, limit and locks permitting, no row that had expired runs as it did; then a stamp on the first due rows; then these handed to the broker up to its first failure |
| OwnerLock.LockedRunsAreOrderly | documents/services.py:85-88 | With the owner's lock, in every interleaving of statements and deletions, no two documents share an owner and key, and a check that found the key free still holds |
| OwnerLock.AtOnceIsCommit | documents/services.py:85-108 | The closing transaction, seen through owner, key and fingerprint, inserts its entry exactly if the key is free |
| OwnerLock.CommitIsAtomic | documents/services.py:85-108 | In every interleaving under the lock, a commit has the effect on the documents of the whole closing transaction taken at that moment, which would find the key unused |
| OwnerLock.CheckIsReplay | documents/services.py:88-92 | A check under the lock passes exactly if the closing transaction would find the key unused, and otherwise ends without changing a document, as it would |
| OwnerLock.UnlockedRunsCollide | documents/services.py:86-88 | Without the lock two uploads can create documents under one key |
| Integrity.ValidateFile | documents/serializers.py:139-153 | The chunked loop accepts exactly the content of the declared size within the limit, with its size and hash |
| Integrity.ReadOriginal | documents/jobs.py:140-158 | The worker's loop tells an intact object from a corrupt and an unreadable one by the row's size and hash |
| Integrity.AcceptedUploadVerifiesIffUnmodified | documents/jobs.py:142-158 | An accepted upload read back completely passes the worker's check if and only if its bytes are unmodified and within the limit the worker is configured with, for any two chunkings |
| Integrity.IntactIsTheUpload | documents/jobs.py:157-158 | Whatever passes the check is the accepted content |
| Integrity.BrokenReadIsUnavailable | documents/jobs.py:142-156 | A read that breaks off after any chunks is unavailable storage, unless it had passed the limit; an empty chunk ends the read whatever follows |
| Integrity.AcceptedIffAsDeclared | documents/serializers.py:139-153 | An upload is accepted if and only if its content has the declared size within the limit, and too large if and only if either size is above it |
| Extraction.ExtractPdf | documents/ocr.py:64-111 | A PDF yields its pages' texts joined in order and one method per page if every page passes, and otherwise the failure of the first that does not |
| Extraction.UsedIsJoinedLength | documents/ocr.py:102-111 | The budget used is the length of the joined text plus two |
| Extraction.AdmittedIff | documents/ocr.py:70-104 | A PDF is accepted if and only if it has 1 to the limit of pages, each readable with its layer within what is left, and its joined text is two short of the limit |
| Extraction.PageInPlace | documents/ocr.py:100-111 | A page's text stands in the joined text exactly where the pages before it end |
| Extraction.PagesAreParted | documents/ocr.py:111-111 | Exactly a blank line stands between the text of a page and the next |
| Extraction.ReadingExplained | documents/ocr.py:46-98 | A page is read from its text layer unless that is blank, else from its image if page and image are within the pixel limit, and each way it fails has its own code; only a timeout is retryable |
| Extraction.PictureExplained | documents/ocr.py:46-133 | An image is read if header and upright pixels are within the pixel limit, its format is supported and it loads, and each way it fails has its own code |
| Extraction.StopExplained | documents/ocr.py:73-104 | The loop stops at a page exactly if it cannot be loaded or read, or its layer, or its text and separator, exceed what is left |
| Extraction.PixelsCover | documents/ocr.py:88-93 | A page's length in pixels is at least its scaled length and less than two above it |
| Extraction.OnlyTimeoutsMayPass | documents/ocr.py:46-149 | A refusal is retryable if and only if the engine ran out of time |
| Extraction.Extract | documents/ocr.py:114-149 | Exactly the accepted files are extracted, to a text within the limit and free of NUL, with a method for each page |
| Extraction.PurgedIsClean | documents/ocr.py:138-139 | Removing NUL keeps every other character as often as it was, and a text without NUL |
| Extraction.PurgedInOrder | documents/ocr.py:138-139 | What is kept stays in order |
| Extraction.SameTextTwoLimits | documents/ocr.py:102-136 | A text is accepted from the layer of a one-page PDF up to two characters short of the limit, and from an image up to the limit |
| Orphans.LateStoreIsKeptIffReceived | documents/services.py:80-84 | In every run within the grace, an object that lands after its upload gave up has exactly one custodian in every later run for as long as it is stored, if and only if its document or an unfinished cleanup is there and no worker may yet report as done a deletion confirmed before |
| Orphans.RowsTellUnlessRunning | documents/services.py:110-118 | With no cleanup row of the key running, it is kept forever if and only if there is its document or a cleanup row pending or failed |
| Orphans.RunningRowTellsNothing | documents/jobs.py:128-133 | For every request there are runs within the grace that end with the cleanup running, after which a landing object is kept forever, and after which it is not |
| Orphans.LateStoreLeavesOrphan | documents/services.py:113-116 | For every request there is a run within the grace after which a landing object has no custodian from the start: its expedited cleanup has ended |

## Left out

- HTTP, serializers other than the chunk loop, authentication, throttling, error bodies, health checks and the generated API description: they hold no state of the protocol.
- Broker and Celery internals: a delivery may happen at any time, so redelivery, expiry and acknowledgement add nothing.
- PostgreSQL: row locks appear as atomic transactions, `skip_locked` as a set of locked rows, and the text search vector, its ranking and its index not at all.
- Storage renaming a key (documents/services.py:82-84): a documented exception (ARCHITECTURE.md:72-78).
- A store of an object that takes effect only after the call that asked for it failed is no step of a run: the store keeps the object at the call or not at all. `Orphans` says exactly when such a landing is safe in all later runs.
- Two cleanup rows that would race over a renamed key, incomplete multipart uploads and restored backups: documented as operational.
- Error messages, request identifiers, processing details, creation and update times: written beside the modelled columns and never read by the protocol.
- Decoding and recognition (PDFium, Pillow, Tesseract) and temporary files: what they find in a page or an image is given.
- JSON text encoding, Unicode normalisation, and tag, metadata and filename validation: the modelled fields hold validated values.
- Fairness of dispatch when workers are stuck: the source does not promise it.
- Integrity.AcceptedUploadVerifiesIffUnmodified: takes SHA-256 to be free of collisions.
- Processes.System.RunJob: a soft time limit or an unexpected error strikes before extraction, or out of the finish that reports success; while the object is read or deleted it is caught as a storage failure, as the source does, and a worker that is struck elsewhere shows to others as one that stopped.
- Theorems.LosingUploadIsCleanedUp: is about the expediting update; an update that fails leaves the intent to its one-hour due time.
- Store.Database.RecoverExpired: only time passes between its transactions; `Processes.System.RecoverAll` is the same loop with all other processes acting.
- Theorems.JobsAreOverInTime: a rearm, and an expedite of a job already due, set a new date, so the bound then starts anew.
- Dispatching.RoundsActAsOne: rows locked by others, and jobs falling due between the rounds, may come before those a round selects; each single round is exact with locks too (`Store.Database.StampDue`).
