/** Dispatch rounds: which jobs a round stamps, and what several rounds within
    one redispatch interval stamp together. */
module Dispatching {
  import opened Records
  import opened Jobs

  /** The jobs a round may stamp: dispatchable rows nobody else holds locked. */
  function Due(db: Db, locked: set<Id>): set<Id> {
    set id | id in db.jobs && Dispatchable(db, id) && id !in locked
  }

  /** Earlier due time first, then smaller identifier. */
  predicate Before(db: Db, id: Id, other: Id)
    requires id in db.jobs && other in db.jobs
  {
    || db.jobs[id].availableAt < db.jobs[other].availableAt
    || (db.jobs[id].availableAt == db.jobs[other].availableAt && id < other)
  }

  predicate Foremost(db: Db, ids: set<Id>, id: Id)
    requires ids <= db.jobs.Keys
  {
    id in ids && forall other | other in ids && other != id :: Before(db, id, other)
  }

  /** The foremost of a set with one more member. */
  lemma OneMoreSeen(db: Db, ids: set<Id>, first: Id, id: Id)
    requires ids <= db.jobs.Keys && Foremost(db, ids, first) && id in db.jobs
    ensures Foremost(db, ids + {id}, if Before(db, id, first) then id else first)
  {}

  lemma {:induction false} ForemostExists(db: Db, ids: set<Id>)
    requires ids <= db.jobs.Keys && ids != {}
    ensures exists id :: Foremost(db, ids, id)
    decreases ids
  {
    var any :| any in ids;
    if ids == {any} {
      assert Foremost(db, ids, any);
    } else {
      ForemostExists(db, ids - {any});
      var best :| Foremost(db, ids - {any}, best);
      OneMoreSeen(db, ids - {any}, best, any);
      assert ids - {any} + {any} == ids;
    }
  }

  ghost function Head(db: Db, ids: set<Id>): (id: Id)
    requires ids <= db.jobs.Keys && ids != {}
    ensures Foremost(db, ids, id)
  {
    ForemostExists(db, ids);
    var id :| Foremost(db, ids, id);
    id
  }

  /** The first jobs of a set, at most as many as the limit, in order. */
  ghost function First(db: Db, ids: set<Id>, limit: nat): (chosen: seq<Id>)
    requires ids <= db.jobs.Keys
    decreases limit
  {
    if limit == 0 || ids == {} then []
    else [Head(db, ids)] + First(db, ids - {Head(db, ids)}, limit - 1)
  }

  function Members(ids: seq<Id>): set<Id> {
    set id | id in ids
  }

  /** What makes a selection the right one: in order, without repetition, as
      many as the limit allows, and nothing left out comes before it. */
  lemma {:induction false} FirstIsSelection(db: Db, ids: set<Id>, limit: nat)
    requires ids <= db.jobs.Keys
    ensures var chosen := First(db, ids, limit);
            && |chosen| == (if |ids| < limit then |ids| else limit)
            && Members(chosen) <= ids
            && (forall i, j | 0 <= i < j < |chosen| ::
                  chosen[i] in ids && chosen[j] in ids && Before(db, chosen[i], chosen[j]))
            && (forall i, id | 0 <= i < |chosen| && id in ids && id !in chosen ::
                  chosen[i] in ids && Before(db, chosen[i], id))
    decreases limit
  {
    if limit != 0 && ids != {} {
      var head := Head(db, ids);
      FirstIsSelection(db, ids - {head}, limit - 1);
      var rest := First(db, ids - {head}, limit - 1);
      assert forall i | 0 <= i < |rest| :: rest[i] in Members(rest);
    }
  }

  /** Taking the first of a set in two goes. */
  lemma {:induction false} FirstSplits(db: Db, ids: set<Id>, one: nat, two: nat)
    requires ids <= db.jobs.Keys
    ensures First(db, ids, one + two)
            == First(db, ids, one) + First(db, ids - Members(First(db, ids, one)), two)
    decreases one
  {
    if one == 0 || ids == {} {
      assert ids - Members([]) == ids;
    } else {
      var head := Head(db, ids);
      var rest := First(db, ids - {head}, one - 1);
      FirstSplits(db, ids - {head}, one - 1, two);
      assert Members([head] + rest) == {head} + Members(rest);
      assert ids - Members([head] + rest) == (ids - {head}) - Members(rest);
    }
  }

  lemma ForemostIsUnique(db: Db, other: Db, ids: set<Id>, id: Id, same: Id)
    requires ids <= db.jobs.Keys && ids <= other.jobs.Keys
    requires forall id | id in ids :: other.jobs[id].availableAt == db.jobs[id].availableAt
    requires Foremost(db, ids, id) && Foremost(other, ids, same)
    ensures id == same
  {}

  /** Order depends on due times only. */
  lemma {:induction false} FirstIgnoresStamps(db: Db, other: Db, ids: set<Id>, limit: nat)
    requires ids <= db.jobs.Keys && ids <= other.jobs.Keys
    requires forall id | id in ids :: other.jobs[id].availableAt == db.jobs[id].availableAt
    ensures First(other, ids, limit) == First(db, ids, limit)
    decreases limit
  {
    if limit != 0 && ids != {} {
      var head := Head(db, ids);
      var same := Head(other, ids);
      ForemostIsUnique(db, other, ids, head, same);
      FirstIgnoresStamps(db, other, ids - {head}, limit - 1);
    }
  }

  function Later(db: Db, pause: nat): Db {
    db.(now := db.now + pause)
  }

  /** One dispatch transaction, some time after the last. */
  ghost function Round(db: Db, pause: nat, limit: nat): Db {
    var due := Later(db, pause);
    Stamp(due, Members(First(due, Due(due, {}), limit)))
  }

  /** The jobs a series of rounds stamps, in the order it stamps them. */
  ghost function Sent(db: Db, pauses: seq<nat>, limit: nat): seq<Id>
    decreases |pauses|
  {
    if pauses == [] then []
    else
      var due := Later(db, pauses[0]);
      First(due, Due(due, {}), limit) + Sent(Round(db, pauses[0], limit), pauses[1..], limit)
  }

  function Sum(pauses: seq<nat>): nat {
    if pauses == [] then 0 else pauses[0] + Sum(pauses[1..])
  }

  /** Nothing falls due by itself within the given time. */
  ghost predicate Quiet(db: Db, span: nat) {
    forall pause: nat | pause <= span :: Due(Later(db, pause), {}) == Due(db, {})
  }

  /** A stamp takes a job out of the rounds of the next interval, and no other. */
  lemma StampSettles(db: Db, pause: nat, limit: nat, later: nat)
    requires pause + later < JOB_REDISPATCH
    requires Due(Later(db, pause), {}) == Due(db, {}) == Due(Later(db, pause + later), {})
    ensures Due(Later(Round(db, pause, limit), later), {})
            == Due(db, {}) - Members(First(Later(db, pause), Due(db, {}), limit))
  {
    FirstIsSelection(Later(db, pause), Due(db, {}), limit);
    forall id ensures id in Due(Later(Round(db, pause, limit), later), {})
                      <==> id in Due(Later(db, pause + later), {})
                           && id !in Members(First(Later(db, pause), Due(db, {}), limit))
    {}
  }

  lemma RoundLeaves(db: Db, pause: nat, limit: nat, span: nat)
    requires pause <= span < JOB_REDISPATCH && Quiet(db, span)
    ensures var chosen := First(db, Due(db, {}), limit);
            var after := Round(db, pause, limit);
            && First(Later(db, pause), Due(Later(db, pause), {}), limit) == chosen
            && Due(after, {}) == Due(db, {}) - Members(chosen)
            && Quiet(after, span - pause)
            && (forall id | id in Due(db, {}) ::
                  id in after.jobs && after.jobs[id].availableAt == db.jobs[id].availableAt)
  {
    var after := Round(db, pause, limit);
    FirstIgnoresStamps(db, Later(db, pause), Due(db, {}), limit);
    forall later: nat | later <= span - pause
      ensures Due(Later(after, later), {}) == Due(db, {}) - Members(First(db, Due(db, {}), limit))
    {
      StampSettles(db, pause, limit, later);
    }
    assert Later(after, 0) == after;
  }

  /** The limits of some rounds, added up. */
  function Capacity(limit: nat, rounds: nat): nat {
    if rounds == 0 then 0 else limit + Capacity(limit, rounds - 1)
  }

  lemma {:induction false} CapacityIsProduct(limit: nat, rounds: nat)
    ensures Capacity(limit, rounds) == limit * rounds
  {
    if rounds > 0 {
      CapacityIsProduct(limit, rounds - 1);
    }
  }

  lemma RestAfterRound(db: Db, pause: nat, limit: nat, span: nat, cap: nat)
    requires pause <= span < JOB_REDISPATCH && Quiet(db, span)
    ensures var after := Round(db, pause, limit);
            First(db, Due(db, {}), limit + cap) == First(db, Due(db, {}), limit) + First(after, Due(after, {}), cap)
  {
    var left := Due(db, {}) - Members(First(db, Due(db, {}), limit));
    RoundLeaves(db, pause, limit, span);
    FirstIgnoresStamps(db, Round(db, pause, limit), left, cap);
    FirstSplits(db, Due(db, {}), limit, cap);
  }

  lemma FirstRound(db: Db, pauses: seq<nat>, limit: nat)
    requires pauses != [] && Sum(pauses) < JOB_REDISPATCH && Quiet(db, Sum(pauses))
    ensures var after := Round(db, pauses[0], limit);
            && Sent(db, pauses, limit) == First(db, Due(db, {}), limit) + Sent(after, pauses[1..], limit)
            && Sum(pauses[1..]) < JOB_REDISPATCH
            && Quiet(after, Sum(pauses[1..]))
  {
    RoundLeaves(db, pauses[0], limit, Sum(pauses));
  }

  /** Rounds within one redispatch interval stamp, between them, exactly what one
      round with all their limits together would have stamped first: no job
      twice, none out of turn, and all of them once the limits suffice. */
  lemma {:induction false} RoundsActAsOne(db: Db, pauses: seq<nat>, limit: nat)
    requires Sum(pauses) < JOB_REDISPATCH && Quiet(db, Sum(pauses))
    ensures Sent(db, pauses, limit) == First(db, Due(db, {}), Capacity(limit, |pauses|))
    decreases |pauses|
  {
    if pauses != [] {
      FirstRound(db, pauses, limit);
      RoundsActAsOne(Round(db, pauses[0], limit), pauses[1..], limit);
      RestAfterRound(db, pauses[0], limit, Sum(pauses), Capacity(limit, |pauses| - 1));
    }
  }

  lemma {:induction false} SameSize(ids: seq<Id>, all: set<Id>)
    requires Members(ids) <= all && |ids| == |all|
    requires forall i, j | 0 <= i < j < |ids| :: ids[i] != ids[j]
    ensures Members(ids) == all
    decreases |ids|
  {
    if ids != [] {
      var last := ids[|ids| - 1];
      var front := ids[..|ids| - 1];
      assert last in Members(ids);
      assert Members(front) <= all - {last} by {
        forall id | id in Members(front) ensures id in all - {last} {
          assert id in Members(ids);
        }
      }
      SameSize(front, all - {last});
      assert Members(ids) == Members(front) + {last};
    }
  }

  /** Enough rounds stamp every due job, each once. */
  lemma EnoughRoundsSendAll(db: Db, pauses: seq<nat>, limit: nat)
    requires Sum(pauses) < JOB_REDISPATCH && Quiet(db, Sum(pauses))
    requires |Due(db, {})| <= limit * |pauses|
    ensures Members(Sent(db, pauses, limit)) == Due(db, {})
    ensures |Sent(db, pauses, limit)| == |Due(db, {})|
  {
    CapacityIsProduct(limit, |pauses|);
    RoundsActAsOne(db, pauses, limit);
    FirstIsSelection(db, Due(db, {}), Capacity(limit, |pauses|));
    SameSize(Sent(db, pauses, limit), Due(db, {}));
  }

  /** The messages of a selection that reach the broker: those it confirmed, and the
      one it failed if it kept it. */
  function Reached(chosen: seq<Id>, published: nat, keeps: bool): seq<Id>
    requires published <= |chosen|
  {
    if keeps && published < |chosen| then chosen[..published + 1] else chosen[..published]
  }
}
