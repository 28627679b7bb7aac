/** Promotion fills the ready queue. */
module StorePromotion {
  import opened Prelude
  import opened Sorting
  import opened StoreModel
  import opened StoreSteps
  import opened StoreInvariant
  import opened StorePrimitives

  // ---------- Which candidates are chosen ----------

  ghost predicate Distinct(ids: seq<CandidateID>) {
    forall i, j | 0 <= i < j < |ids| :: ids[i] != ids[j]
  }

  ghost predicate Apart(a: seq<CandidateID>, b: seq<CandidateID>) {
    forall id | id in a :: id !in b
  }

  // A choice holds at most n candidates of the two lists, as many as there are, and none twice.
  lemma {:induction false} InterleaveChooses(staged: seq<CandidateID>, delayed: seq<CandidateID>, prefer: bool, n: nat)
    requires Ascending(staged) && Ascending(delayed) && Apart(staged, delayed)
    ensures var ids := Interleave(staged, delayed, prefer, n).ids;
            && |ids| == (if n < |staged| + |delayed| then n else |staged| + |delayed|)
            && Distinct(ids)
            && forall id | id in ids :: id in staged || id in delayed
    decreases n
  {
    if n == 0 || (staged == [] && delayed == []) {
    } else if (prefer && delayed != []) || staged == [] {
      InterleaveChooses(staged, delayed[1..], !prefer, n - 1);
      assert delayed[0] !in delayed[1..] && delayed[0] !in staged;
    } else {
      InterleaveChooses(staged[1..], delayed, !prefer, n - 1);
      assert staged[0] !in staged[1..] && staged[0] !in delayed;
    }
  }

  // The candidates of both lists, each list in its own order.
  predicate Woven(chosen: seq<CandidateID>, staged: seq<CandidateID>, delayed: seq<CandidateID>)
    decreases |chosen|
  {
    if chosen == [] then staged == [] && delayed == []
    else
      || (staged != [] && staged[0] == chosen[0] && Woven(chosen[1..], staged[1..], delayed))
      || (delayed != [] && delayed[0] == chosen[0] && Woven(chosen[1..], staged, delayed[1..]))
  }

  // The first i of one list and the first j of the other; while both lists last, they are taken in
  // turn, beginning with the preferred one.
  ghost predicate Fronts(chosen: seq<CandidateID>, staged: seq<CandidateID>, delayed: seq<CandidateID>, prefer: bool, n: nat, i: nat, j: nat) {
    && i <= |staged| && j <= |delayed| && Woven(chosen, staged[..i], delayed[..j])
    && (i < |staged| || j < |delayed| ==> i + j == n)
    && (i < |staged| && j < |delayed| ==> if prefer then i <= j <= i + 1 else j <= i <= j + 1)
  }

  lemma FrontsNone(staged: seq<CandidateID>, delayed: seq<CandidateID>, prefer: bool, n: nat)
    requires n == 0 || (staged == [] && delayed == [])
    ensures Fronts(Interleave(staged, delayed, prefer, n).ids, staged, delayed, prefer, n, 0, 0)
  {
  }

  lemma FrontsDelayed(rest: seq<CandidateID>, staged: seq<CandidateID>, delayed: seq<CandidateID>, prefer: bool, n: nat, i: nat, j: nat)
    requires delayed != [] && (prefer || staged == []) && n > 0 && Fronts(rest, staged, delayed[1..], !prefer, n - 1, i, j)
    ensures Fronts([delayed[0]] + rest, staged, delayed, prefer, n, i, j + 1)
  {
    assert delayed[..j + 1][1..] == delayed[1..][..j];
    assert ([delayed[0]] + rest)[1..] == rest;
  }

  lemma FrontsStaged(rest: seq<CandidateID>, staged: seq<CandidateID>, delayed: seq<CandidateID>, prefer: bool, n: nat, i: nat, j: nat)
    requires staged != [] && (!prefer || delayed == []) && n > 0 && Fronts(rest, staged[1..], delayed, !prefer, n - 1, i, j)
    ensures Fronts([staged[0]] + rest, staged, delayed, prefer, n, i + 1, j)
  {
    assert staged[..i + 1][1..] == staged[1..][..i];
    assert ([staged[0]] + rest)[1..] == rest;
  }

  lemma {:induction false} InterleaveTakesFronts(staged: seq<CandidateID>, delayed: seq<CandidateID>, prefer: bool, n: nat)
    returns (i: nat, j: nat)
    ensures Fronts(Interleave(staged, delayed, prefer, n).ids, staged, delayed, prefer, n, i, j)
    decreases n
  {
    if n == 0 || (staged == [] && delayed == []) {
      i, j := 0, 0;
      FrontsNone(staged, delayed, prefer, n);
    } else if (prefer && delayed != []) || staged == [] {
      var later;
      i, later := InterleaveTakesFronts(staged, delayed[1..], !prefer, n - 1);
      FrontsDelayed(Interleave(staged, delayed[1..], !prefer, n - 1).ids, staged, delayed, prefer, n, i, later);
      j := later + 1;
    } else {
      var later;
      later, j := InterleaveTakesFronts(staged[1..], delayed, !prefer, n - 1);
      FrontsStaged(Interleave(staged[1..], delayed, !prefer, n - 1).ids, staged, delayed, prefer, n, later, j);
      i := later + 1;
    }
  }

  // ---------- Queueing them ----------

  predicate Waiting(m: map<CandidateID, Record>, id: CandidateID) {
    id in m && (m[id].status == Staged || m[id].status == Delayed)
  }

  predicate PromotedRecord(a: Record, b: Record) {
    b == a || ((a.status == Staged || a.status == Delayed) && b == Record(Ready, UNSET, a.candidate))
  }

  // Only waiting candidates change, and only to Ready.
  ghost predicate Promotes(db: Database, db': Database) {
    && db'.candidates.Keys == db.candidates.Keys
    && (forall id {:trigger db'.candidates[id]} | id in db.candidates :: PromotedRecord(db.candidates[id], db'.candidates[id]))
    && db' == db.(candidates := db'.candidates, pending := db'.pending, order := db'.order, orderSequence := db'.orderSequence,
                  preferDelayed := db'.preferDelayed)
  }

  ghost predicate AllWaiting(m: map<CandidateID, Record>, ids: seq<CandidateID>) {
    forall id | id in ids :: Waiting(m, id)
  }

  // One candidate queued; the others still wait.
  lemma EnqueueOne(c: Config, db: Database, ids: seq<CandidateID>) returns (next: Database)
    requires Core(c, db) && Distinct(ids) && AllWaiting(db.candidates, ids) && ids != [] && EnqueueAll(db, ids).Ok?
    ensures Core(c, next) && AllWaiting(next.candidates, ids[1..]) && EnqueueAll(db, ids) == EnqueueAll(next, ids[1..])
  {
    assert Waiting(db.candidates, ids[0]);
    EnqueueKeeps(c, db, ids[0]);
    next := Enqueue(db, ids[0]);
    forall id | id in ids[1..] ensures Waiting(next.candidates, id) {
      assert Waiting(db.candidates, id);
    }
  }

  lemma {:induction false} EnqueueAllKeeps(c: Config, db: Database, ids: seq<CandidateID>, r: Result<Database, Error>)
    requires Core(c, db) && Distinct(ids) && AllWaiting(db.candidates, ids)
    requires r == EnqueueAll(db, ids) && r.Ok?
    ensures Core(c, r.value)
    decreases |ids|
  {
    if ids != [] {
      var next := EnqueueOne(c, db, ids);
      EnqueueAllKeeps(c, next, ids[1..], r);
    }
  }

  lemma PromotesTransitive(a: Database, b: Database, d: Database)
    requires Promotes(a, b) && Promotes(b, d)
    ensures Promotes(a, d)
  {
    forall id {:trigger d.candidates[id]} | id in a.candidates ensures PromotedRecord(a.candidates[id], d.candidates[id]) {
      assert PromotedRecord(a.candidates[id], b.candidates[id]);
    }
  }

  lemma {:induction false} EnqueueAllPromotes(db: Database, ids: seq<CandidateID>)
    requires Distinct(ids) && (forall id | id in ids :: Waiting(db.candidates, id) && id !in db.pending)
    requires EnqueueAll(db, ids).Ok?
    ensures Promotes(db, EnqueueAll(db, ids).value)
    ensures |EnqueueAll(db, ids).value.pending| == |db.pending| + |ids|
    decreases |ids|
  {
    if ids != [] {
      assert Waiting(db.candidates, ids[0]);
      var next := Enqueue(db, ids[0]);
      forall id | id in ids[1..] ensures Waiting(next.candidates, id) && id !in next.pending {
        assert Waiting(db.candidates, id);
      }
      EnqueueAllPromotes(next, ids[1..]);
      PromotesTransitive(db, next, EnqueueAll(next, ids[1..]).value);
    }
  }

  // ---------- Promotion as a whole ----------

  lemma ChosenWaiting(c: Config, db: Database, now: Time)
    requires |db.pending| <= c.maxPending
    ensures var ids := Chosen(c, db, now).ids;
            Distinct(ids) && |ids| <= c.maxPending - |db.pending| && forall id | id in ids :: Waiting(db.candidates, id)
  {
    InterleaveChooses(Sorted(StagedIds(db.candidates)), Sorted(DueIds(db.candidates, now)), db.preferDelayed, c.maxPending - |db.pending|);
  }

  lemma PromoteCases(c: Config, db: Database, now: Time)
    requires Promote(c, db, now).Ok?
    ensures |db.pending| <= c.maxPending
    ensures var db' := Promote(c, db, now).value;
            || db' == db
            || (&& EnqueueAll(db, Chosen(c, db, now).ids).Ok?
                && db' == EnqueueAll(db, Chosen(c, db, now).ids).value.(preferDelayed := Chosen(c, db, now).preferDelayed))
  {
  }

  lemma TurnKeeps(c: Config, db: Database, turn: bool)
    requires Core(c, db)
    ensures Core(c, db.(preferDelayed := turn))
  {
    SameBlocks(c, db, db.(preferDelayed := turn));
    SameTombstones(db, db.(preferDelayed := turn));
  }

  lemma SameTombstones(db: Database, db': Database)
    requires Tombstones(db) && db'.candidates == db.candidates && db'.tombstones == db.tombstones
    requires db'.tombstoneSequence == db.tombstoneSequence && db'.blocks == db.blocks
    ensures Tombstones(db')
  {
    forall id | IsAcknowledged(db'.candidates, id)
      ensures Buried(db'.tombstones, id) || Retained(db', db'.candidates[id].candidate)
    {
      assert IsAcknowledged(db.candidates, id);
    }
  }

  lemma WaitingNotPending(db: Database, id: CandidateID)
    requires Queue(db) && Waiting(db.candidates, id)
    ensures id !in db.pending
  {
  }

  lemma PromoteKeeps(c: Config, db: Database, now: Time)
    requires Core(c, db) && Promote(c, db, now).Ok?
    ensures Core(c, Promote(c, db, now).value)
    ensures Promotes(db, Promote(c, db, now).value)
    ensures |Promote(c, db, now).value.pending| <= c.maxPending
  {
    PromoteCases(c, db, now);
    var choice := Chosen(c, db, now);
    if Promote(c, db, now).value != db {
      ChosenWaiting(c, db, now);
      forall id | id in choice.ids ensures Waiting(db.candidates, id) && id !in db.pending {
        WaitingNotPending(db, id);
      }
      EnqueueAllKeeps(c, db, choice.ids, EnqueueAll(db, choice.ids));
      EnqueueAllPromotes(db, choice.ids);
      TurnKeeps(c, EnqueueAll(db, choice.ids).value, choice.preferDelayed);
    }
  }

  // Promotion leaves every count but the queue's own alone.
  lemma PromotesSets(db: Database, db': Database)
    requires Promotes(db, db')
    ensures Unfinished(db'.candidates) == Unfinished(db.candidates)
    ensures ObservedIds(db'.candidates) == ObservedIds(db.candidates)
    ensures forall id :: IsAcknowledged(db'.candidates, id) <==> IsAcknowledged(db.candidates, id)
  {
    forall id | id in db.candidates ensures PromotedRecord(db.candidates[id], db'.candidates[id]) {
    }
  }
}
