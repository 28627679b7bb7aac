/** Where passing validation is not enough, and what acknowledging does not promise. */
module StoreLimits {
  import opened Prelude
  import opened Sorting
  import opened StoreModel
  import opened StoreSteps
  import opened StoreInvariant
  import opened StorePrimitives
  import opened StoreAdvance
  import opened StoreFlows
  import opened StoreTransactions
  import opened StoreCommit
  import opened StoreRuns

  // ---------- Validation alone is not kept by MarkRemoved ----------

  predicate IsObserved(db: Database, id: CandidateID) { id in db.candidates && db.candidates[id].status == Observed }

  // Blocks never read as far as an observed candidate.
  lemma {:induction false} ProgressWithout(db: Database, id: CandidateID, block: Block, k: nat)
    requires IsObserved(db, id) && k <= |block.members| && ProgressFrom(db, block, k) != Broken
    ensures ProgressFrom(Discard(db, {id}), block, k) == ProgressFrom(db, block, k)
    decreases |block.members| - k
  {
    if k < |block.members| && db.candidates[block.members[k]].status == Acknowledged {
      ProgressWithout(db, id, block, k + 1);
    }
  }

  lemma {:induction false} ExpectedWithout(db: Database, id: CandidateID, n: Uint64)
    requires IsObserved(db, id) && BlocksReadable(db)
    ensures ExpectedFrom(Discard(db, {id}), n) == ExpectedFrom(db, n)
    decreases MAX_UINT64 - n
  {
    if n in db.blocks {
      ProgressWithout(db, id, db.blocks[n], 0);
      if n < MAX_UINT64 {
        ExpectedWithout(db, id, n + 1);
      }
    }
  }

  lemma ReadableWithout(db: Database, id: CandidateID)
    requires IsObserved(db, id) && BlocksReadable(db)
    ensures BlocksReadable(Discard(db, {id}))
  {
    forall n | n in db.blocks ensures ProgressOf(Discard(db, {id}), db.blocks[n]) != Broken {
      ProgressWithout(db, id, db.blocks[n], 0);
    }
  }

  predicate StopsAt(db: Database, n: Uint64) { n !in db.blocks || ProgressOf(db, db.blocks[n]) != Complete }

  lemma {:induction false} ExpectedEnds(c: Config, db: Database, n: Uint64)
    requires BlockRows(c, db)
    ensures ExpectedFrom(db, n).None? ==> StopsAt(db, n)
    ensures ExpectedFrom(db, n).Some? ==>
              ExpectedFrom(db, n).value.number == MAX_UINT64 || StopsAt(db, ExpectedFrom(db, n).value.number + 1)
    decreases MAX_UINT64 - n
  {
    if n in db.blocks && n < MAX_UINT64 {
      assert ValidBlock(c, n, db.blocks[n]);
      ExpectedEnds(c, db, n + 1);
    } else if n in db.blocks {
      assert ValidBlock(c, n, db.blocks[n]);
    }
  }

  lemma StoppedAdvance(db: Database, next: Uint64)
    requires StopsAt(db, next) && BlocksReadable(db)
    ensures AdvanceFrom(db, next) == Ok(db)
  {
    if next in db.blocks {
      assert ProgressOf(db, db.blocks[next]) == Incomplete;
    }
  }

  // A checkpoint that is where validation expects it does not move.
  lemma AdvanceStuck(c: Config, db: Database)
    requires BlockRows(c, db) && BlocksReadable(db) && Advance(db).Ok?
    requires db.baseline.Some? ==> db.checkpoint == ExpectedFrom(db, db.baseline.value)
    ensures Advance(db) == Ok(db)
  {
    AdvanceCases(db);
    if db.baseline.Some? {
      ExpectedEnds(c, db, db.baseline.value);
      var next :| AtNext(db, next) && Advance(db) == AdvanceFrom(db, next);
      assert StopsAt(db, next);
      StoppedAdvance(db, next);
    }
  }

  lemma DiscardedIsRemoved(db: Database, id: CandidateID)
    requires Queue(db) && TombstoneRows(db) && IsObserved(db, id) && id !in db.incidents
    ensures Removed(db, Discard(db, {id}), {id}) && Discard(db, {id}).pending == db.pending
    ensures WithoutTombstonesOf(db.tombstones, {id}) == db.tombstones
  {
    assert id !in db.pending;
    assert db.pending - {id} == db.pending && db.incidents - {id} == db.incidents;
  }

  lemma DiscardedRows(c: Config, db: Database, id: CandidateID)
    requires Rows(c, db.candidates) && Index(db) && Queue(db) && Tombstones(db) && Counts(c, db)
    requires IsObserved(db, id) && id !in db.incidents
    ensures var db' := Discard(db, {id});
            Rows(c, db'.candidates) && Index(db') && Queue(db') && Tombstones(db') && Counts(c, db')
  {
    var db' := Discard(db, {id});
    DiscardedIsRemoved(db, id);
    RemovedRows(c, db, db', {id});
    RemovedTombstones(db, db', {id});
    FewerCounts(db, db');
  }

  lemma DiscardedChain(c: Config, db: Database, id: CandidateID)
    requires IncidentRows(c, db) && ResolvedHaveIncidents(db) && Chain(c, db) && MembershipFull(db) && BlocksReadable(db) && WindowOk(db)
    requires db.baseline.Some? ==> db.checkpoint == ExpectedFrom(db, db.baseline.value)
    requires IsObserved(db, id) && id !in db.incidents
    ensures var db' := Discard(db, {id});
            && IncidentRows(c, db') && ResolvedHaveIncidents(db') && Chain(c, db') && MembershipFull(db') && BlocksReadable(db')
            && (db'.baseline.Some? ==> db'.checkpoint == ExpectedFrom(db', db'.baseline.value)) && WindowOk(db')
  {
    var db' := Discard(db, {id});
    forall n: Uint64 ensures LinkedAt(db', n) {
      assert LinkedAt(db, n);
    }
    ReadableWithout(db, id);
    if db.baseline.Some? {
      ExpectedWithout(db, id, db.baseline.value);
    }
  }

  lemma DiscardReadable(c: Config, db: Database, id: CandidateID)
    requires Validates(c, db) && IsObserved(db, id)
    ensures var db' := Discard(db, {id});
            BlockRows(c, db') && BlocksReadable(db') && (db'.baseline.Some? ==> db'.checkpoint == ExpectedFrom(db', db'.baseline.value))
  {
    ReadableWithout(db, id);
    if db.baseline.Some? {
      ExpectedWithout(db, id, db.baseline.value);
    }
  }

  // MarkRemoved takes a validated database to a validated one exactly when the observation it
  // removes has no incident; validation does not look for such incidents.
  lemma MarkRemovedValidatesIff(c: Config, db: Database, id: CandidateID)
    requires Validates(c, db) && IsObserved(db, id) && DoMarkRemoved(c, db, id).result.Ok?
    ensures Validates(c, DoMarkRemoved(c, db, id).after) <==> id !in db.incidents
  {
    var db' := Discard(db, {id});
    DiscardReadable(c, db, id);
    AdvanceStuck(c, db');
    assert DoMarkRemoved(c, db, id).after == db';
    if id !in db.incidents {
      DiscardedRows(c, db, id);
      DiscardedChain(c, db, id);
    } else {
      assert id in db'.incidents && id !in db'.candidates;
    }
  }

  // Such a database: one observed candidate that already has an incident.
  const ODD_CONFIG := Config(1, 1, 1, (x: Candidate) => 7, (id: CandidateID) => 9)
  const ODD_CANDIDATE := Candidate(7, 1, 1, Native, 0, 0, 0, 0)
  const ODD_DATABASE := EMPTY_DATABASE.(candidates := map[7 := Record(Observed, UNSET, ODD_CANDIDATE)],
                                        incidents := map[7 := Incident(9, 7, 1, SECOND)])

  lemma OddCounts()
    ensures Counts(ODD_CONFIG, ODD_DATABASE)
  {
    assert Unfinished(ODD_DATABASE.candidates) == {};
    assert ObservedIds(ODD_DATABASE.candidates) == {7};
  }

  lemma RemovalBreaksValidation()
    ensures Validates(ODD_CONFIG, ODD_DATABASE)
    ensures !Validates(ODD_CONFIG, DoMarkRemoved(ODD_CONFIG, ODD_DATABASE, 7).after)
  {
    OddCounts();
    assert Validates(ODD_CONFIG, ODD_DATABASE);
    MarkRemovedValidatesIff(ODD_CONFIG, ODD_DATABASE, 7);
  }

  // ---------- Fast tokens as members ----------

  // Reading the block from its k-th member on comes across this candidate.
  predicate ReadsFrom(db: Database, block: Block, k: nat, id: CandidateID)
    requires k <= |block.members|
    decreases |block.members| - k
  {
    k < |block.members| && (block.members[k] == id || (IsAcknowledged(db.candidates, block.members[k]) && ReadsFrom(db, block, k + 1, id)))
  }

  ghost predicate ReadBySome(db: Database, id: CandidateID) {
    exists n :: n in db.blocks && ReadsFrom(db, db.blocks[n], 0, id)
  }

  lemma {:induction false} ProgressForgets(db: Database, rest: Database, id: CandidateID, block: Block, k: nat)
    requires rest.candidates == db.candidates - {id} && k <= |block.members| && ProgressFrom(db, block, k) != Broken
    ensures ProgressFrom(rest, block, k) == Broken <==> ReadsFrom(db, block, k, id)
    decreases |block.members| - k
  {
    if k < |block.members| && IsAcknowledged(db.candidates, block.members[k]) {
      ProgressForgets(db, rest, id, block, k + 1);
    }
  }

  lemma ForgottenReadableIff(db: Database, rest: Database, id: CandidateID)
    requires rest.candidates == db.candidates - {id} && rest.blocks == db.blocks && BlocksReadable(db)
    ensures BlocksReadable(rest) <==> !ReadBySome(db, id)
  {
    forall n | n in db.blocks ensures ProgressOf(rest, rest.blocks[n]) == Broken <==> ReadsFrom(db, db.blocks[n], 0, id) {
      ProgressForgets(db, rest, id, db.blocks[n], 0);
    }
  }

  // A block that reads as far as a candidate is the candidate's own block.
  lemma {:induction false} ReadIsOwn(db: Database, block: Block, k: nat, id: CandidateID)
    requires k <= |block.members| && ProgressFrom(db, block, k) != Broken && ReadsFrom(db, block, k, id)
    ensures id in db.candidates && db.candidates[id].candidate.number == block.checkpoint.number
    decreases |block.members| - k
  {
    if block.members[k] != id {
      ReadIsOwn(db, block, k + 1, id);
    }
  }

  lemma EvictOne(db: Database, k: Uint64, id: CandidateID)
    requires |db.tombstones| == TOMBSTONE_LIMIT + 1 && OldestTombstone(db) == k && k in db.tombstones && db.tombstones[k] == id && Unbury(db, id).Ok?
    ensures Evict(db) == Ok(Unbury(db, id).value.(tombstones := db.tombstones - {k}))
  {
    MapRemoveSize(db.tombstones, k);
  }

  // Evicting the oldest tombstone keeps the stored blocks readable if and only if its candidate is
  // indexed, or no block reads as far as it. A FastToken has no index entry, so eviction does not
  // see that a stored block needs it.
  lemma EvictReadableIff(c: Config, db: Database, k: Uint64, id: CandidateID)
    requires BlockRows(c, db) && BlocksReadable(db) && |db.tombstones| == TOMBSTONE_LIMIT + 1
    requires k in db.tombstones && OldestTombstone(db) == k && db.tombstones[k] == id && Unbury(db, id).Ok?
    ensures Evict(db).Ok?
    ensures BlocksReadable(Evict(db).value) <==> KeyOf(db.candidates[id].candidate).Some? || !ReadBySome(db, id)
  {
    var after := Unbury(db, id).value.(tombstones := db.tombstones - {k});
    EvictOne(db, k, id);
    forall n | n in db.blocks && ReadsFrom(db, db.blocks[n], 0, id) ensures n == db.candidates[id].candidate.number {
      assert ValidBlock(c, n, db.blocks[n]);
      ReadIsOwn(db, db.blocks[n], 0, id);
    }
    if BlockStored(db, db.candidates[id].candidate) {
      assert forall n | n in db.blocks :: ProgressOf(after, after.blocks[n]) == ProgressOf(db, db.blocks[n]) by {
        forall n | n in db.blocks ensures ProgressOf(after, after.blocks[n]) == ProgressOf(db, db.blocks[n]) {
          SameProgress(db, after, db.blocks[n], 0);
        }
      }
    } else {
      ForgottenReadableIff(db, after, id);
    }
  }

  lemma {:induction false} SameProgress(db: Database, db': Database, block: Block, k: nat)
    requires db'.candidates == db.candidates && k <= |block.members|
    ensures ProgressFrom(db', block, k) == ProgressFrom(db, block, k)
    decreases |block.members| - k
  {
    if k < |block.members| {
      SameProgress(db, db', block, k + 1);
    }
  }

  // ---------- Acknowledged before its block ----------

  // A member of a new block is to be handled again exactly when the store does not hold it as
  // acknowledged at the time of the commit, whether it was never seen or has been forgotten.
  lemma CommitBringsBack(c: Config, db: Database, block: Canonical, now: Time, id: CandidateID)
    requires Inv(c, db) && NoFastTokens(block) && DoCommit(c, db, block, now).result.Ok?
    requires block.checkpoint.number !in db.blocks && id in Ids(block.candidates)
    ensures id in DoReplay(DoCommit(c, db, block, now).after) <==> !IsAcknowledged(db.candidates, id)
  {
    var db' := DoCommit(c, db, block, now).after;
    CommitNew(c, db, block, now);
    NewStored(c, db, db', block, id);
    ReplayIff(db, db', id);
  }

  lemma ReplayIff(db: Database, db': Database, id: CandidateID)
    requires Flows(db, db', None) && (IsUnfinished(db'.candidates, id) || IsAcknowledged(db'.candidates, id))
    ensures id in DoReplay(db') <==> !IsAcknowledged(db.candidates, id)
  {
  }

  lemma CommitNew(c: Config, db: Database, block: Canonical, now: Time)
    requires Inv(c, db) && NoFastTokens(block) && DoCommit(c, db, block, now).result.Ok? && block.checkpoint.number !in db.blocks
    ensures Committed(c, db, DoCommit(c, db, block, now).after, block)
  {
    var promoted := CommitCases(c, db, block, now);
    var mid, staged := StageBlockCases(c, db, block);
    var db' := DoCommit(c, db, block, now).after;
    CommitResult(c, db, block, now);
    NewBlockCommitted(c, db, block, mid, staged, Promote(c, AddBlock(staged, block), now).value, db', now);
  }

  lemma CommitResult(c: Config, db: Database, block: Canonical, now: Time)
    requires DoCommit(c, db, block, now).result.Ok? && block.checkpoint.number !in db.blocks
    ensures ValidCanonical(c, block) && CursorError(db, block).None? && StageBlock(c, db, block).Ok?
    ensures Promote(c, StageBlock(c, db, block).value, now).Ok?
    ensures Advance(Promote(c, StageBlock(c, db, block).value, now).value) == Ok(DoCommit(c, db, block, now).after)
  {
  }
}
