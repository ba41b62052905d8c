/** Why the transaction that ends an upload may be taken as one step: inside it,
    the lock on the owner's row keeps what the second idempotency check saw true
    until the commit.  Transactions of all owners interleave statement by
    statement, and see only what has been committed; documents may be deleted
    meanwhile, which takes no such lock. */
module OwnerLock {
  import opened Records
  import Services

  /** What the idempotency check reads of a document, or is asked about. */
  datatype Entry = Entry(owner: Id, key: Option<string>, fingerprint: Fingerprint)

  /** How far a transaction is: begun, holding the lock, past a check that found
      nothing, or done. */
  datatype Stage = Started | Locked | Checked | Over

  /** A transaction, named by the document it would create. */
  datatype Attempt = Attempt(entry: Entry, stage: Stage)

  /** The committed documents, the transactions, and who holds each owner's lock. */
  datatype State = State(docs: map<Id, Entry>, attempts: map<Id, Attempt>, locks: map<Id, Id>)

  datatype Statement =
    | Start(id: Id, entry: Entry)
    | Lock(id: Id)
    | Check(id: Id)
    | Commit(id: Id)
    | RollBack(id: Id)
    | Delete(id: Id)      // of a document, by another transaction, without this lock

  const EMPTY: State := State(map[], map[], map[])

  predicate SameKey(entry: Entry, other: Entry) {
    entry.owner == other.owner && entry.key.Some? && entry.key == other.key
  }

  predicate Taken(docs: map<Id, Entry>, entry: Entry) {
    exists id :: id in docs && SameKey(docs[id], entry)
  }

  predicate In(s: State, id: Id, stage: Stage) {
    id in s.attempts && s.attempts[id].stage == stage
  }

  function Reach(s: State, id: Id, stage: Stage): State
    requires id in s.attempts
  {
    s.(attempts := s.attempts[id := s.attempts[id].(stage := stage)])
  }

  /** Whether a transaction holds its owner's lock. */
  predicate Owns(s: State, id: Id) {
    id in s.attempts && s.attempts[id].entry.owner in s.locks && s.locks[s.attempts[id].entry.owner] == id
  }

  /** The end of a transaction frees its lock. */
  function Done(s: State, id: Id): State
    requires id in s.attempts
  {
    Reach(if Owns(s, id) then s.(locks := s.locks - {s.attempts[id].entry.owner}) else s, id, Over)
  }

  /** One statement of one transaction; one that has to wait changes nothing.
      Without locking, nobody waits. */
  function Next(s: State, statement: Statement, locking: bool): State {
    var id := statement.id;
    match statement
    case Start(_, entry) =>
      if id in s.attempts || id in s.docs then s else s.(attempts := s.attempts[id := Attempt(entry, Started)])
    case Lock(_) =>
      if !In(s, id, Started) then s
      else if !locking then Reach(s, id, Locked)
      else if s.attempts[id].entry.owner in s.locks then s
      else Reach(s, id, Locked).(locks := s.locks[s.attempts[id].entry.owner := id])
    case Check(_) =>
      if !In(s, id, Locked) then s
      else if Taken(s.docs, s.attempts[id].entry) then Done(s, id)
      else Reach(s, id, Checked)
    case Commit(_) =>
      if !In(s, id, Checked) then s else Done(s, id).(docs := s.docs[id := s.attempts[id].entry])
    case RollBack(_) =>
      if id in s.attempts then Done(s, id) else s
    case Delete(_) => s.(docs := s.docs - {id})
  }

  function Exec(s: State, statements: seq<Statement>, locking: bool): State
    decreases |statements|
  {
    if statements == [] then s else Exec(Next(s, statements[0], locking), statements[1..], locking)
  }

  ghost predicate KeysUnique(docs: map<Id, Entry>) {
    forall id, other | id in docs && other in docs && SameKey(docs[id], docs[other]) :: id == other
  }

  /** A transaction past its lock holds it; one past its check found its key free,
      and it still is; one not yet over has no document. */
  predicate InOrder(s: State, id: Id) {
    id in s.attempts ==>
      && (s.attempts[id].stage == Locked || s.attempts[id].stage == Checked ==> Owns(s, id))
      && (s.attempts[id].stage == Checked ==> !Taken(s.docs, s.attempts[id].entry))
  }

  ghost predicate Orderly(s: State) {
    KeysUnique(s.docs) && forall id :: InOrder(s, id)
  }

  /** What others commit under their own locks does not take one's key. */
  lemma AttemptStaysInOrder(s: State, statement: Statement, id: Id)
    requires InOrder(s, id) && InOrder(s, statement.id)
    ensures InOrder(Next(s, statement, true), id)
  {}

  lemma OrderKept(s: State, statement: Statement)
    requires Orderly(s)
    ensures Orderly(Next(s, statement, true))
  {
    var after := Next(s, statement, true);
    forall id ensures InOrder(after, id) {
      assert InOrder(s, id) && InOrder(s, statement.id);
      AttemptStaysInOrder(s, statement, id);
    }
    assert KeysUnique(after.docs) by {
      assert InOrder(s, statement.id);
    }
  }

  /** With the lock, in every interleaving, no two documents share a key, and a
      check that found the key free is as good at the commit as it was when made. */
  lemma {:induction false} LockedRunsAreOrderly(s: State, statements: seq<Statement>)
    requires Orderly(s)
    ensures Orderly(Exec(s, statements, true))
    decreases |statements|
  {
    if statements != [] {
      OrderKept(s, statements[0]);
      LockedRunsAreOrderly(Next(s, statements[0], true), statements[1..]);
    }
  }

  /** What the whole transaction would do as one step. */
  function AtOnce(docs: map<Id, Entry>, id: Id, entry: Entry): map<Id, Entry> {
    if Taken(docs, entry) then docs else docs[id := entry]
  }

  function EntryOf(doc: Document): Entry {
    Entry(doc.owner, doc.idempotencyKey, doc.fingerprint)
  }

  function Entries(docs: map<Id, Document>): map<Id, Entry> {
    map id | id in docs :: EntryOf(docs[id])
  }

  function Asked(request: Services.Request): Entry {
    Entry(request.owner, request.idempotencyKey, Services.FingerprintOf(request))
  }

  lemma NamesIffSameKey(db: Db, request: Services.Request, id: Id)
    ensures Services.Names(db, request, id)
            <==> id in Entries(db.docs) && SameKey(Entries(db.docs)[id], Asked(request))
  {}

  lemma TakenIffNotUnused(db: Db, request: Services.Request)
    ensures Taken(Entries(db.docs), Asked(request)) <==> !Services.ReplayOf(db, request).Unused?
  {
    forall id: Id
      ensures Services.Names(db, request, id)
              <==> id in Entries(db.docs) && SameKey(Entries(db.docs)[id], Asked(request))
    {
      NamesIffSameKey(db, request, id);
    }
    assert Taken(Entries(db.docs), Asked(request)) <==> exists id :: Services.Names(db, request, id);
  }

  /** One step here is the upload's closing transaction, seen by the check. */
  lemma AtOnceIsCommit(db: Db, id: Id, request: Services.Request, key: StorageKey, intent: Id)
    ensures Entries(Services.Commit(db, id, request, key, intent).0.docs)
            == AtOnce(Entries(db.docs), id, Asked(request))
  {
    TakenIffNotUnused(db, request);
  }

  /** Every commit, in every interleaving, has the effect of the upload's whole
      closing transaction run at that moment. */
  lemma CommitIsAtomic(
    statements: seq<Statement>, id: Id, db: Db, request: Services.Request, key: StorageKey, intent: Id)
    requires In(Exec(EMPTY, statements, true), id, Checked)
    requires Entries(db.docs) == Exec(EMPTY, statements, true).docs
    requires Asked(request) == Exec(EMPTY, statements, true).attempts[id].entry
    ensures Entries(Services.Commit(db, id, request, key, intent).0.docs)
            == Next(Exec(EMPTY, statements, true), Commit(id), true).docs
    ensures Services.ReplayOf(db, request).Unused?
  {
    LockedRunsAreOrderly(EMPTY, statements);
    assert InOrder(Exec(EMPTY, statements, true), id);
    AtOnceIsCommit(db, id, request, key, intent);
    TakenIffNotUnused(db, request);
  }

  /** A check that finds the key taken is the transaction's replay at that moment. */
  lemma CheckIsReplay(
    statements: seq<Statement>, id: Id, db: Db, request: Services.Request, key: StorageKey, intent: Id)
    requires In(Exec(EMPTY, statements, true), id, Locked)
    requires Entries(db.docs) == Exec(EMPTY, statements, true).docs
    requires Asked(request) == Exec(EMPTY, statements, true).attempts[id].entry
    ensures var s := Exec(EMPTY, statements, true);
            var after := Next(s, Check(id), true);
            && In(after, id, if Services.ReplayOf(db, request).Unused? then Checked else Over)
            && (In(after, id, Over) ==>
                  after.docs == s.docs == Entries(Services.Commit(db, id, request, key, intent).0.docs))
  {
    TakenIffNotUnused(db, request);
  }

  function Both(entry: Entry, stage: Stage): State {
    State(map[], map[0 := Attempt(entry, stage), 1 := Attempt(entry, stage)], map[])
  }

  lemma BothStart(entry: Entry)
    ensures Next(Next(EMPTY, Start(0, entry), false), Start(1, entry), false) == Both(entry, Started)
  {}

  lemma BothLock(entry: Entry)
    ensures Next(Next(Both(entry, Started), Lock(0), false), Lock(1), false) == Both(entry, Locked)
  {}

  lemma BothCheck(entry: Entry)
    ensures Next(Next(Both(entry, Locked), Check(0), false), Check(1), false) == Both(entry, Checked)
  {}

  lemma BothCommit(entry: Entry)
    requires entry.key.Some?
    ensures !KeysUnique(Next(Next(Both(entry, Checked), Commit(0), false), Commit(1), false).docs)
  {
    var docs := Next(Next(Both(entry, Checked), Commit(0), false), Commit(1), false).docs;
    assert 0 in docs && 1 in docs && docs[0] == docs[1] == entry;
    assert SameKey(docs[0], docs[1]);
  }

  lemma Twice(s: State, run: seq<Statement>)
    requires |run| >= 2
    ensures Exec(s, run, false) == Exec(Next(Next(s, run[0], false), run[1], false), run[2..], false)
  {
    assert run[1..][1..] == run[2..];
  }

  /** Without the lock two uploads under one key can both pass the check. */
  lemma UnlockedRunsCollide(owner: Id, key: string, fingerprint: Fingerprint)
    ensures exists statements :: !KeysUnique(Exec(EMPTY, statements, false).docs)
  {
    var entry := Entry(owner, Some(key), fingerprint);
    var run := [Start(0, entry), Start(1, entry), Lock(0), Lock(1), Check(0), Check(1), Commit(0), Commit(1)];
    assert Exec(EMPTY, run, false) == Exec(Both(entry, Started), run[2..], false) by {
      Twice(EMPTY, run);
      BothStart(entry);
    }
    assert Exec(Both(entry, Started), run[2..], false) == Exec(Both(entry, Locked), run[4..], false) by {
      Twice(Both(entry, Started), run[2..]);
      BothLock(entry);
      assert run[2..][2..] == run[4..];
    }
    assert Exec(Both(entry, Locked), run[4..], false) == Exec(Both(entry, Checked), run[6..], false) by {
      Twice(Both(entry, Locked), run[4..]);
      BothCheck(entry);
      assert run[4..][2..] == run[6..];
    }
    Twice(Both(entry, Checked), run[6..]);
    BothCommit(entry);
  }
}
