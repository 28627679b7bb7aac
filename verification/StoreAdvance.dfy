/** Advancing the checkpoint over acknowledged blocks and trimming what lies far behind it. */
module StoreAdvance {
  import opened Prelude
  import opened Sorting
  import opened StoreModel
  import opened StoreSteps
  import opened StoreInvariant
  import opened StorePrimitives

  // Blocks disappear only when fully acknowledged, together with their members.
  ghost predicate BlocksOnlyDrop(db: Database, db': Database) {
    && (forall n {:trigger n in db'.blocks} | n in db'.blocks :: n in db.blocks && db'.blocks[n] == db.blocks[n])
    && (forall n {:trigger n in db.blocks} | n in db.blocks && n !in db'.blocks :: AllAcknowledged(db, db.blocks[n]))
  }

  ghost predicate CandidatesOnlyDrop(db: Database, db': Database) {
    && (forall id {:trigger id in db'.candidates} | id in db'.candidates :: id in db.candidates && db'.candidates[id] == db.candidates[id])
    && (forall id {:trigger id in db.candidates} | id in db.candidates && id !in db'.candidates ::
          db.candidates[id].status == Acknowledged && BlockStored(db, db.candidates[id].candidate))
  }

  predicate CheckpointGrows(db: Database, db': Database) {
    db.checkpoint.Some? ==> db'.checkpoint.Some? && db.checkpoint.value.number <= db'.checkpoint.value.number
  }

  ghost predicate Advances(db: Database, db': Database) {
    && BlocksOnlyDrop(db, db') && CandidatesOnlyDrop(db, db') && CheckpointGrows(db, db')
    && |db'.tombstones| <= |db.tombstones|
    && (db'.checkpoint.None? ==> db'.baseline == db.baseline)
    && (db.baseline.Some? ==> db'.baseline.Some? && db.baseline.value <= db'.baseline.value)
    && db'.cursor == db.cursor && db'.pending == db.pending && db'.order == db.order && db'.orderSequence == db.orderSequence
    && db'.tombstoneSequence == db.tombstoneSequence && db'.preferDelayed == db.preferDelayed
  }

  lemma AdvancesRefl(db: Database)
    ensures Advances(db, db)
  {
  }

  lemma AdvancesTransitive(a: Database, b: Database, d: Database)
    requires Advances(a, b) && Advances(b, d)
    ensures Advances(a, d)
  {
    forall n | n in a.blocks && n !in d.blocks ensures AllAcknowledged(a, a.blocks[n]) {
      if n in b.blocks {
        assert AllAcknowledged(b, b.blocks[n]);
        forall id | id in a.blocks[n].members ensures IsAcknowledged(a.candidates, id) {
          assert IsAcknowledged(b.candidates, id);
        }
      }
    }
    forall id | id in a.candidates && id !in d.candidates
      ensures a.candidates[id].status == Acknowledged && BlockStored(a, a.candidates[id].candidate)
    {
      if id in b.candidates {
        assert BlockStored(b, b.candidates[id].candidate);
      }
    }
  }

  lemma {:induction false} FilterSize(t: map<Uint64, CandidateID>, ids: set<CandidateID>)
    ensures |WithoutTombstonesOf(t, ids)| <= |t|
    decreases |t|
  {
    if t != map[] {
      var k :| k in t;
      MapRemoveSize(t, k);
      FilterSize(t - {k}, ids);
      var rest := WithoutTombstonesOf(t - {k}, ids);
      if t[k] in ids {
        assert WithoutTombstonesOf(t, ids) == rest;
      } else {
        assert WithoutTombstonesOf(t, ids) == rest[k := t[k]];
      }
    }
  }

  lemma DropAdvances(c: Config, db: Database, n: Uint64)
    requires Core(c, db) && Droppable(db, n)
    ensures Advances(db, DropBlock(db, n))
  {
    var db' := DropBlock(db, n);
    FilterSize(db.tombstones, MemberSet(db.blocks[n]));
    forall id | id in db.candidates && id !in db'.candidates
      ensures db.candidates[id].status == Acknowledged && BlockStored(db, db.candidates[id].candidate)
    {
      assert IsAcknowledged(db.candidates, id) && MemberOk(db, db.blocks[n], id);
    }
  }

  lemma DroppableNext(c: Config, db: Database, n: Uint64)
    requires Core(c, db) && db.baseline == Some(n) && db.checkpoint.Some? && n < db.checkpoint.value.number
    ensures Droppable(db, n) && ProgressOf(db, db.blocks[n]) == Complete
  {
    assert n in db.blocks;
    StoredProgress(db, n);
  }

  lemma DropUntilUnfolds(db: Database, n: Uint64, until: Uint64)
    requires n < until && n in db.blocks && ProgressOf(db, db.blocks[n]) == Complete
    ensures DropUntil(db, n, until) == DropUntil(DropBlock(db, n), n + 1, until)
  {
  }

  ghost predicate DroppedTo(c: Config, db: Database, until: Uint64, r: Result<Database, Error>) {
    r.Ok? && Core(c, r.value) && Advances(db, r.value) && r.value.baseline == Some(until) && r.value.checkpoint == db.checkpoint
  }

  lemma DropOne(c: Config, db: Database, n: Uint64, until: Uint64) returns (next: Database)
    requires Core(c, db) && db.baseline == Some(n) && db.checkpoint.Some? && n < until <= db.checkpoint.value.number
    ensures DroppedTo(c, db, n + 1, Ok(next)) && DropUntil(db, n, until) == DropUntil(next, n + 1, until)
  {
    DroppableNext(c, db, n);
    DropKeeps(c, db, n);
    DropAdvances(c, db, n);
    DropUntilUnfolds(db, n, until);
    next := DropBlock(db, n);
  }

  lemma DroppedFurther(c: Config, db: Database, next: Database, until: Uint64, r: Result<Database, Error>)
    requires Advances(db, next) && next.checkpoint == db.checkpoint && DroppedTo(c, next, until, r)
    ensures DroppedTo(c, db, until, r)
  {
    AdvancesTransitive(db, next, r.value);
  }

  lemma DroppedNone(c: Config, db: Database, n: Uint64)
    requires Core(c, db) && db.baseline == Some(n)
    ensures DroppedTo(c, db, n, DropUntil(db, n, n))
  {
    AdvancesRefl(db);
    assert DropUntil(db, n, n) == Ok(db);
  }

  lemma {:induction false} DropUntilKeeps(c: Config, db: Database, n: Uint64, until: Uint64, r: Result<Database, Error>)
    requires Core(c, db) && db.baseline == Some(n) && n <= until && db.checkpoint.Some? && until <= db.checkpoint.value.number
    requires r == DropUntil(db, n, until)
    ensures DroppedTo(c, db, until, r)
    decreases until - n
  {
    if n == until {
      DroppedNone(c, db, n);
    } else {
      var next := DropOne(c, db, n, until);
      DropUntilKeeps(c, next, n + 1, until, r);
      DroppedFurther(c, db, next, until, r);
    }
  }

  // Not too many blocks are kept behind the checkpoint.
  predicate Trimmed(db: Database) {
    db.baseline.Some? && db.checkpoint.Some? ==> db.checkpoint.value.number - db.baseline.value + 1 <= CANONICAL_BLOCK_LIMIT
  }

  lemma TrimCases(db: Database, n: Uint64)
    requires db.baseline.Some? && db.baseline.value <= n
    ensures Trim(db, n) ==
            if n - db.baseline.value + 1 <= CANONICAL_BLOCK_LIMIT then Ok(db)
            else DropUntil(db, db.baseline.value, n - CANONICAL_BLOCK_LIMIT + 1)
  {
  }

  ghost predicate TrimmedTo(c: Config, db: Database, r: Result<Database, Error>) {
    && r.Ok? && Core(c, r.value) && Advances(db, r.value) && Trimmed(r.value)
    && r.value.checkpoint == db.checkpoint && r.value.baseline.Some?
  }

  lemma CheckpointStored(c: Config, db: Database)
    requires Chain(c, db) && CheckpointSound(db) && db.checkpoint.Some?
    ensures db.baseline.Some? && db.baseline.value <= db.checkpoint.value.number
  {
    assert db.checkpoint.value.number in db.blocks;
  }

  lemma TrimFar(c: Config, db: Database, n: Uint64)
    requires Core(c, db) && db.checkpoint.Some? && db.baseline.Some? && db.checkpoint.value.number == n
    requires n - db.baseline.value + 1 > CANONICAL_BLOCK_LIMIT
    ensures TrimmedTo(c, db, DropUntil(db, db.baseline.value, n - CANONICAL_BLOCK_LIMIT + 1))
  {
    var until := n - CANONICAL_BLOCK_LIMIT + 1;
    var r := DropUntil(db, db.baseline.value, until);
    DropUntilKeeps(c, db, db.baseline.value, until, r);
    FarEnough(c, db, until, r);
  }

  lemma FarEnough(c: Config, db: Database, until: Uint64, r: Result<Database, Error>)
    requires DroppedTo(c, db, until, r) && db.checkpoint.Some? && until == db.checkpoint.value.number - CANONICAL_BLOCK_LIMIT + 1
    ensures TrimmedTo(c, db, r)
  {
  }

  lemma TrimKeeps(c: Config, db: Database)
    requires Core(c, db) && db.checkpoint.Some?
    ensures TrimmedTo(c, db, Trim(db, db.checkpoint.value.number))
  {
    var n := db.checkpoint.value.number;
    CheckpointStored(c, db);
    TrimCases(db, n);
    if n - db.baseline.value + 1 > CANONICAL_BLOCK_LIMIT {
      TrimFar(c, db, n);
    } else {
      AdvancesRefl(db);
      assert TrimmedTo(c, db, Ok(db));
    }
  }

  predicate AtNext(db: Database, next: Uint64) {
    db.baseline.Some? && (if db.checkpoint.Some? then next == db.checkpoint.value.number + 1 else next == db.baseline.value)
  }

  lemma SetCheckpointAdvances(c: Config, db: Database, next: Uint64)
    requires AtNext(db, next) && next in db.blocks && ValidBlock(c, next, db.blocks[next])
    ensures Advances(db, db.(checkpoint := Some(db.blocks[next].checkpoint)))
  {
  }

  // One more block is covered, and old ones are dropped.
  lemma AdvanceOnce(c: Config, db: Database, next: Uint64)
    requires Core(c, db) && AtNext(db, next) && next in db.blocks && AllAcknowledged(db, db.blocks[next])
    ensures var covered := db.(checkpoint := Some(db.blocks[next].checkpoint));
            var trimmed := Trim(covered, next);
            && trimmed.Ok? && Core(c, trimmed.value) && Advances(db, trimmed.value) && Trimmed(trimmed.value)
            && trimmed.value.checkpoint == covered.checkpoint && covered.checkpoint.value.number == next && trimmed.value.baseline.Some?
  {
    var covered := db.(checkpoint := Some(db.blocks[next].checkpoint));
    assert ValidBlock(c, next, db.blocks[next]);
    SetCheckpointKeeps(c, db, next);
    SetCheckpointAdvances(c, db, next);
    TrimKeeps(c, covered);
    AdvancesTransitive(db, covered, Trim(covered, next).value);
  }

  // Where advancing stops.
  lemma AdvanceStops(c: Config, db: Database, next: Uint64)
    requires MembersStored(db) && AtNext(db, next) && (next in db.blocks ==> !AllAcknowledged(db, db.blocks[next]))
    ensures AdvanceFrom(db, next) == Ok(db) && CheckpointMaximal(db)
  {
    if next in db.blocks {
      StoredProgress(db, next);
    }
  }

  lemma AdvanceGoesOn(db: Database, next: Uint64)
    requires MembersStored(db) && next in db.blocks && AllAcknowledged(db, db.blocks[next])
    ensures var trimmed := Trim(db.(checkpoint := Some(db.blocks[next].checkpoint)), next);
            AdvanceFrom(db, next) == if trimmed.Err? || next == MAX_UINT64 then trimmed else AdvanceFrom(trimmed.value, next + 1)
  {
    StoredProgress(db, next);
  }

  ghost predicate Advanced(c: Config, db: Database, r: Result<Database, Error>) {
    r.Ok? && Core(c, r.value) && Advances(db, r.value) && Trimmed(r.value) && CheckpointMaximal(r.value)
  }

  lemma {:induction false} AdvanceFromKeeps(c: Config, db: Database, next: Uint64)
    requires Core(c, db) && AtNext(db, next) && Trimmed(db)
    ensures Advanced(c, db, AdvanceFrom(db, next))
    decreases MAX_UINT64 - next
  {
    if next in db.blocks && AllAcknowledged(db, db.blocks[next]) {
      AdvanceOnce(c, db, next);
      AdvanceGoesOn(db, next);
      var trimmed := Trim(db.(checkpoint := Some(db.blocks[next].checkpoint)), next).value;
      if next < MAX_UINT64 {
        AdvanceFromKeeps(c, trimmed, next + 1);
        AdvancesTransitive(db, trimmed, AdvanceFrom(trimmed, next + 1).value);
      }
    } else {
      AdvanceStops(c, db, next);
      AdvancesRefl(db);
    }
  }

  lemma AdvanceCases(db: Database)
    requires Advance(db).Ok?
    ensures db.baseline.Some? ==> exists next :: AtNext(db, next) && Advance(db) == AdvanceFrom(db, next)
    ensures db.baseline.None? ==> Advance(db) == Ok(db)
  {
    if db.baseline.Some? {
      var next := if db.checkpoint.None? then db.baseline.value else db.checkpoint.value.number + 1;
      assert AtNext(db, next) && Advance(db) == AdvanceFrom(db, next);
    }
  }

  lemma AdvanceKeeps(c: Config, db: Database)
    requires Core(c, db) && Trimmed(db) && Advance(db).Ok?
    ensures Advanced(c, db, Advance(db))
  {
    AdvanceCases(db);
    if db.baseline.Some? {
      var next :| AtNext(db, next) && Advance(db) == AdvanceFrom(db, next);
      AdvanceFromKeeps(c, db, next);
    } else {
      AdvancesRefl(db);
      assert Advanced(c, db, Ok(db));
    }
  }
}
