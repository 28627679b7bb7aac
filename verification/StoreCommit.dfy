/** Committing a canonical block: stage its members, store it, promote and advance. */
module StoreCommit {
  import opened Prelude
  import opened Sorting
  import opened StoreModel
  import opened StoreSteps
  import opened StoreInvariant
  import opened StorePrimitives
  import opened StorePromotion
  import opened StoreAdvance
  import opened StoreFlows
  import opened StoreTransactions

  // Candidates that can be members: none of them is kept out of the block index.
  predicate NoFastTokens(block: Canonical) {
    forall i | 0 <= i < |block.candidates| :: block.candidates[i].kind != FastToken
  }

  // ---------- Staging the members ----------

  predicate AtHeight(c: Config, at: Checkpoint, candidate: Candidate) {
    ValidCandidate(c, candidate) && candidate.number == at.number && candidate.hash == at.hash && candidate.kind != FastToken && at.hash != 0
  }

  ghost predicate AllAtHeight(c: Config, at: Checkpoint, candidates: seq<Candidate>) {
    forall i | 0 <= i < |candidates| :: AtHeight(c, at, candidates[i])
  }

  lemma StageOneKeeps(c: Config, db: Database, at: Checkpoint, candidate: Candidate)
    requires Core(c, db) && AtHeight(c, at, candidate) && at.number !in db.blocks
    ensures Core(c, StageOne(db, candidate))
  {
    if candidate.id !in db.candidates {
      AddKeeps(c, db, Staged, candidate);
    } else if db.candidates[candidate.id].status == Observed {
      UpgradeKeeps(c, db, candidate);
    }
  }

  lemma {:induction false} StageAllKeeps(c: Config, db: Database, at: Checkpoint, candidates: seq<Candidate>)
    requires Core(c, db) && AllAtHeight(c, at, candidates) && at.number !in db.blocks
    ensures Core(c, StageAll(db, candidates))
    decreases |candidates|
  {
    if candidates != [] {
      StageOneKeeps(c, db, at, candidates[0]);
      StageAllKeeps(c, StageOne(db, candidates[0]), at, candidates[1..]);
    }
  }

  // What staging does to each record.
  ghost predicate Stages(db: Database, db': Database, ids: set<CandidateID>, at: Checkpoint) {
    && db' == db.(candidates := db'.candidates, index := db'.index)
    && db.candidates.Keys + ids == db'.candidates.Keys
    && (forall id {:trigger id in db'.candidates} | id in db'.candidates && id in db.candidates ::
          && SameIdentity(db.candidates[id].candidate, db'.candidates[id].candidate)
          && (db'.candidates[id].status == db.candidates[id].status || (id in ids && db.candidates[id].status == Observed && db'.candidates[id].status == Staged))
          && (id in ids ==> db'.candidates[id].status != Observed))
    && (forall id {:trigger id in db'.candidates} | id in db'.candidates && id !in db.candidates ::
          db'.candidates[id].status == Staged && db'.candidates[id].candidate.number == at.number && db'.candidates[id].candidate.hash == at.hash
          && db'.candidates[id].candidate.kind != FastToken)
    && (forall k {:trigger k in db'.index} | k in db'.index && k !in db.index :: k.number == at.number && k.hash == at.hash && k.id in ids)
  }

  lemma AddStages(c: Config, db: Database, at: Checkpoint, candidate: Candidate)
    requires AtHeight(c, at, candidate) && candidate.id !in db.candidates
    ensures Stages(db, AddCandidate(db, Staged, candidate), {candidate.id}, at)
  {
  }

  lemma UpgradeStages(c: Config, db: Database, at: Checkpoint, candidate: Candidate)
    requires Rows(c, db.candidates) && candidate.id in db.candidates && db.candidates[candidate.id].status == Observed
    ensures Stages(db, Upgrade(db, candidate), {candidate.id}, at)
  {
    var db' := Upgrade(db, candidate);
    assert db'.candidates.Keys == db.candidates.Keys;
  }

  lemma KeepStages(c: Config, db: Database, at: Checkpoint, id: CandidateID)
    requires id in db.candidates && db.candidates[id].status != Observed
    ensures Stages(db, db, {id}, at)
  {
    assert db.candidates.Keys + {id} == db.candidates.Keys;
  }

  lemma StageOneStages(c: Config, db: Database, at: Checkpoint, candidate: Candidate)
    requires Rows(c, db.candidates) && AtHeight(c, at, candidate)
    ensures Stages(db, StageOne(db, candidate), {candidate.id}, at)
  {
    if candidate.id !in db.candidates {
      AddStages(c, db, at, candidate);
    } else if db.candidates[candidate.id].status == Observed {
      UpgradeStages(c, db, at, candidate);
    } else {
      KeepStages(c, db, at, candidate.id);
    }
  }

  lemma StagesCompose(a: Database, b: Database, d: Database, x: set<CandidateID>, y: set<CandidateID>, at: Checkpoint)
    requires Stages(a, b, x, at) && Stages(b, d, y, at) && x !! y
    ensures Stages(a, d, x + y, at)
  {
    forall id | id in d.candidates && id in a.candidates
      ensures && SameIdentity(a.candidates[id].candidate, d.candidates[id].candidate)
              && (d.candidates[id].status == a.candidates[id].status || (id in x + y && a.candidates[id].status == Observed && d.candidates[id].status == Staged))
              && (id in x + y ==> d.candidates[id].status != Observed)
    {
      assert id in b.candidates;
    }
    forall id | id in d.candidates && id !in a.candidates
      ensures d.candidates[id].status == Staged && d.candidates[id].candidate.number == at.number && d.candidates[id].candidate.hash == at.hash
              && d.candidates[id].candidate.kind != FastToken
    {
      assert id in b.candidates ==> SameIdentity(b.candidates[id].candidate, d.candidates[id].candidate);
    }
  }

  lemma IdsHead(candidates: seq<Candidate>)
    requires candidates != [] && DistinctIds(candidates)
    ensures Ids(candidates) == {candidates[0].id} + Ids(candidates[1..]) && candidates[0].id !in Ids(candidates[1..])
    ensures DistinctIds(candidates[1..])
  {
    var rest := candidates[1..];
    forall x ensures x in Ids(candidates) <==> x == candidates[0].id || x in Ids(rest) {
      if x in Ids(candidates) && x != candidates[0].id {
        var i :| 0 <= i < |candidates| && candidates[i].id == x;
        assert rest[i - 1].id == x;
      }
      if x in Ids(rest) {
        var i :| 0 <= i < |rest| && rest[i].id == x;
        assert candidates[i + 1].id == x;
      }
    }
  }

  lemma StagesNothing(db: Database, at: Checkpoint)
    ensures Stages(db, db, {}, at)
  {
  }

  lemma {:induction false} StageAllStages(c: Config, db: Database, at: Checkpoint, candidates: seq<Candidate>)
    requires Core(c, db) && AllAtHeight(c, at, candidates) && DistinctIds(candidates) && at.number !in db.blocks
    ensures Stages(db, StageAll(db, candidates), Ids(candidates), at)
    decreases |candidates|
  {
    if candidates == [] {
      assert Ids(candidates) == {};
      StagesNothing(db, at);
    } else {
      var next := StageOne(db, candidates[0]);
      StageOneKeeps(c, db, at, candidates[0]);
      StageOneStages(c, db, at, candidates[0]);
      IdsHead(candidates);
      StageAllStages(c, next, at, candidates[1..]);
      StagesCompose(db, next, StageAll(next, candidates[1..]), {candidates[0].id}, Ids(candidates[1..]), at);
    }
  }

  // ---------- Before the block is stored ----------

  lemma ReconcileKeeps(c: Config, db: Database, number: Uint64, wanted: set<CandidateID>)
    requires Core(c, db) && Reconcile(db, number, wanted).Ok?
    ensures AllObserved(db, Strangers(db, number, wanted))
    ensures Reconcile(db, number, wanted) == Ok(Discard(db, Strangers(db, number, wanted)))
  {
  }

  // After reconciling, only wanted candidates are indexed at the height.
  lemma ReconciledIndex(c: Config, db: Database, number: Uint64, wanted: set<CandidateID>, k: Key)
    requires Core(c, db) && AllObserved(db, Strangers(db, number, wanted))
    requires k in Discard(db, Strangers(db, number, wanted)).index && k.number == number
    ensures k.id in wanted && k in db.index
  {
  }

  // The members are in place.
  lemma StagedMember(c: Config, mid: Database, staged: Database, block: Canonical, id: CandidateID)
    requires ValidCanonical(c, block) && NoFastTokens(block) && Consistent(c, mid, block.candidates)
    requires Stages(mid, staged, Ids(block.candidates), block.checkpoint) && Rows(c, staged.candidates) && id in Ids(block.candidates)
    ensures MemberOk(staged, Requested(block), id) && KeyOf(staged.candidates[id].candidate).Some?
  {
    var i :| 0 <= i < |block.candidates| && block.candidates[i].id == id;
    assert ValidRecord(c, id, staged.candidates[id]);
    if id in mid.candidates {
      assert SameIdentity(mid.candidates[id].candidate, block.candidates[i]);
    }
  }

  lemma StagedIndex(c: Config, db: Database, staged: Database, block: Canonical, k: Key)
    requires Core(c, db) && ValidCanonical(c, block)
    requires var strangers := Strangers(db, block.checkpoint.number, Ids(block.candidates));
             && AllObserved(db, strangers) && Consistent(c, Discard(db, strangers), block.candidates)
             && Stages(Discard(db, strangers), staged, Ids(block.candidates), block.checkpoint)
    requires k in staged.index && k.number == block.checkpoint.number
    ensures k.hash == block.checkpoint.hash && k.id in Ids(block.candidates)
  {
    var mid := Discard(db, Strangers(db, block.checkpoint.number, Ids(block.candidates)));
    if k in mid.index {
      ReconciledIndex(c, db, block.checkpoint.number, Ids(block.candidates), k);
      var i :| 0 <= i < |block.candidates| && block.candidates[i].id == k.id;
      assert KeyOf(db.candidates[k.id].candidate) == Some(k);
      assert k.id in mid.candidates && SameIdentity(mid.candidates[k.id].candidate, block.candidates[i]);
    }
  }

  // Everything StageBlock checks and does, spelled out.
  ghost predicate Staging(c: Config, db: Database, block: Canonical, mid: Database, staged: Database) {
    && ValidCanonical(c, block) && block.checkpoint.number !in db.blocks && CursorError(db, block).None?
    && AllObserved(db, Strangers(db, block.checkpoint.number, Ids(block.candidates)))
    && mid == Discard(db, Strangers(db, block.checkpoint.number, Ids(block.candidates)))
    && WindowError(mid, block.checkpoint.number).None? && Consistent(c, mid, block.candidates)
    && RoomFor(c, mid, |Additional(mid, block.candidates)|)
    && staged == StageAll(mid, block.candidates)
  }

  lemma StagedReady(c: Config, db: Database, block: Canonical, mid: Database, staged: Database)
    requires Core(c, db) && NoFastTokens(block) && Staging(c, db, block, mid, staged)
    ensures Core(c, staged) && Stages(mid, staged, Ids(block.candidates), block.checkpoint) && ReadyToCommit(c, staged, block)
  {
    DiscardKeeps(c, db, Strangers(db, block.checkpoint.number, Ids(block.candidates)));
    StageAllKeeps(c, mid, block.checkpoint, block.candidates);
    StageAllStages(c, mid, block.checkpoint, block.candidates);
    StagedReadyToCommit(c, db, block, mid, staged);
  }

  lemma StagedReadyToCommit(c: Config, db: Database, block: Canonical, mid: Database, staged: Database)
    requires Core(c, db) && Core(c, staged) && NoFastTokens(block) && Staging(c, db, block, mid, staged)
    requires Stages(mid, staged, Ids(block.candidates), block.checkpoint)
    ensures ReadyToCommit(c, staged, block)
  {
    forall id | id in Ids(block.candidates)
      ensures MemberOk(staged, Requested(block), id) && KeyOf(staged.candidates[id].candidate).Some?
    {
      StagedMember(c, mid, staged, block, id);
    }
    forall k | k in staged.index && k.number == block.checkpoint.number
      ensures k.hash == block.checkpoint.hash && k.id in Ids(block.candidates)
    {
      StagedIndex(c, db, staged, block, k);
    }
  }

  // ---------- Storing the block ----------

  lemma StagedCounts(c: Config, db: Database, block: Canonical, mid: Database, staged: Database)
    requires Staging(c, db, block, mid, staged) && Stages(mid, staged, Ids(block.candidates), block.checkpoint)
    requires |ObservedIds(db.candidates)| <= c.maxPending
    ensures |Unfinished(staged.candidates)| <= c.Capacity() && |ObservedIds(staged.candidates)| <= c.maxPending
  {
    var more := Additional(mid, block.candidates);
    forall id | id in Unfinished(staged.candidates) ensures id in Unfinished(mid.candidates) + more {
      AdditionalHas(mid, staged, block, id);
    }
    SubsetSize(Unfinished(staged.candidates), Unfinished(mid.candidates) + more);
    UnionSize(Unfinished(mid.candidates), more);
    SubsetSize(ObservedIds(staged.candidates), ObservedIds(db.candidates));
  }

  lemma AdditionalHas(mid: Database, staged: Database, block: Canonical, id: CandidateID)
    requires Stages(mid, staged, Ids(block.candidates), block.checkpoint) && id in Unfinished(staged.candidates)
    ensures id in Unfinished(mid.candidates) || id in Additional(mid, block.candidates)
  {
    if id in Ids(block.candidates) {
      var i :| 0 <= i < |block.candidates| && block.candidates[i].id == id;
    }
  }

  lemma UnionSize<T>(a: set<T>, b: set<T>)
    ensures |a + b| <= |a| + |b|
  {
    assert |a + b| == |a| + |b| - |a * b|;
  }

  lemma StoredWindow(c: Config, db: Database, block: Canonical, mid: Database, staged: Database)
    requires Heights(db) && WindowOk(db) && Staging(c, db, block, mid, staged) && Stages(mid, staged, Ids(block.candidates), block.checkpoint)
    ensures WindowOk(AddBlock(staged, block))
  {
  }

  lemma StoredLagging(c: Config, db: Database, block: Canonical, mid: Database, staged: Database)
    requires Inv(c, db) && NoFastTokens(block) && Staging(c, db, block, mid, staged)
    ensures Lagging(c, AddBlock(staged, block))
  {
    StagedReady(c, db, block, mid, staged);
    AddBlockKeeps(c, staged, block);
    StagedCounts(c, db, block, mid, staged);
    StoredWindow(c, db, block, mid, staged);
  }

  // ---------- What a commit does to the rest ----------

  lemma StagesFlow(db: Database, gone: set<CandidateID>, mid: Database, staged: Database, ids: set<CandidateID>, at: Checkpoint)
    requires AllObserved(db, gone) && mid == Discard(db, gone) && gone !! ids && Stages(mid, staged, ids, at)
    requires db.cursor.Some? ==> db.cursor.value.number < at.number
    ensures Flows(db, staged, None)
  {
    assert db.candidates.Keys - gone == mid.candidates.Keys;
    forall id: CandidateID | IsUnfinished(db.candidates, id) ensures IsUnfinished(staged.candidates, id) {
      assert id in mid.candidates && id in staged.candidates;
    }
    forall id | id in staged.candidates && id !in db.candidates ensures !AlreadyScanned(db, staged.candidates[id].candidate) {
      assert id !in mid.candidates;
    }
    forall id | id in staged.candidates && id in db.candidates
      ensures SameIdentity(db.candidates[id].candidate, staged.candidates[id].candidate)
      ensures IsAcknowledged(db.candidates, id) ==> IsAcknowledged(staged.candidates, id)
    {
      assert id in mid.candidates;
    }
  }

  lemma AddBlockFlows(db: Database, staged: Database, block: Canonical)
    requires Flows(db, staged, None) && (db.cursor.Some? ==> db.cursor.value.number < block.checkpoint.number)
    ensures Flows(db, AddBlock(staged, block), None)
  {
  }

  lemma StagedFlows(c: Config, db: Database, block: Canonical, mid: Database, staged: Database)
    requires Staging(c, db, block, mid, staged) && Stages(mid, staged, Ids(block.candidates), block.checkpoint)
    ensures Flows(db, AddBlock(staged, block), None)
  {
    StagesFlow(db, Strangers(db, block.checkpoint.number, Ids(block.candidates)), mid, staged, Ids(block.candidates), block.checkpoint);
    AddBlockFlows(db, staged, block);
  }

  ghost predicate CommitBlocks(db: Database, db': Database, block: Canonical) {
    && (forall n {:trigger n in db'.blocks} | n in db'.blocks ::
          if n in db.blocks then db'.blocks[n] == db.blocks[n] else n == block.checkpoint.number && db'.blocks[n] == Requested(block))
    && (forall n {:trigger n in db.blocks} | n in db.blocks && n !in db'.blocks ::
          forall id | id in db.blocks[n].members :: IsAcknowledged(db.candidates, id))
  }

  // What committing a new block guarantees.
  ghost predicate Committed(c: Config, db: Database, db': Database, block: Canonical) {
    && Inv(c, db') && Flows(db, db', None) && CommitBlocks(db, db', block)
    && ValidCanonical(c, block) && block.checkpoint.number !in db.blocks && CursorError(db, block).None?
    && db'.cursor == Some(block.checkpoint)
    && (forall id | id in Ids(block.candidates) && id in db'.candidates :: db'.candidates[id].status != Observed)
  }

  lemma PromoteLagging(c: Config, db: Database, now: Time)
    requires Lagging(c, db) && Promote(c, db, now).Ok?
    ensures var db' := Promote(c, db, now).value;
            Lagging(c, db') && Promotes(db, db') && |db'.pending| <= c.maxPending && Settling(db, db')
  {
    var db' := Promote(c, db, now).value;
    PromoteKeeps(c, db, now);
    PromotesSets(db, db');
    PromotionSettles(db, db');
  }

  // Promotion and advance after the block is stored.
  lemma StoredFinishes(c: Config, stored: Database, promoted: Database, after: Database, now: Time)
    requires Lagging(c, stored) && Promote(c, stored, now) == Ok(promoted) && Advance(promoted) == Ok(after)
    ensures Inv(c, after) && Settling(stored, after) && Promotes(stored, promoted) && Advances(promoted, after)
  {
    PromoteLagging(c, stored, now);
    AdvanceAlmost(c, promoted);
    SettlingOn(stored, promoted, after);
  }

  lemma FinishedBlocks(c: Config, db: Database, block: Canonical, mid: Database, staged: Database, promoted: Database, after: Database)
    requires Staging(c, db, block, mid, staged) && Stages(mid, staged, Ids(block.candidates), block.checkpoint)
    requires Promotes(AddBlock(staged, block), promoted) && Advances(promoted, after)
    requires Inv(c, after)
    ensures CommitBlocks(db, after, block) && after.cursor == Some(block.checkpoint)
  {
    var stored := AddBlock(staged, block);
    PromotesSets(stored, promoted);
    assert block.checkpoint.number in after.blocks;
    forall n | n in db.blocks && n !in after.blocks
      ensures forall id | id in db.blocks[n].members :: IsAcknowledged(db.candidates, id)
    {
      assert AllAcknowledged(promoted, promoted.blocks[n]);
      forall id | id in db.blocks[n].members ensures IsAcknowledged(db.candidates, id) {
        assert IsAcknowledged(promoted.candidates, id);
        assert IsAcknowledged(staged.candidates, id);
      }
    }
  }

  lemma FinishedMembers(mid: Database, staged: Database, after: Database, block: Canonical, id: CandidateID)
    requires Stages(mid, staged, Ids(block.candidates), block.checkpoint) && Settling(AddBlock(staged, block), after)
    requires id in Ids(block.candidates) && id in after.candidates
    ensures after.candidates[id].status != Observed
  {
    assert id in staged.candidates && staged.candidates[id].status != Observed;
    assert IsUnfinished(AddBlock(staged, block).candidates, id) || IsAcknowledged(AddBlock(staged, block).candidates, id);
  }

  lemma NewBlockCommitted(c: Config, db: Database, block: Canonical, mid: Database, staged: Database, promoted: Database, after: Database, now: Time)
    requires Inv(c, db) && NoFastTokens(block) && Staging(c, db, block, mid, staged)
    requires Promote(c, AddBlock(staged, block), now) == Ok(promoted) && Advance(promoted) == Ok(after)
    ensures Committed(c, db, after, block)
  {
    StoredLagging(c, db, block, mid, staged);
    StagedReady(c, db, block, mid, staged);
    StoredFinishes(c, AddBlock(staged, block), promoted, after, now);
    StagedFlows(c, db, block, mid, staged);
    FlowsOn(db, AddBlock(staged, block), after, None);
    FinishedBlocks(c, db, block, mid, staged, promoted, after);
    forall id | id in Ids(block.candidates) && id in after.candidates ensures after.candidates[id].status != Observed {
      FinishedMembers(mid, staged, after, block, id);
    }
  }

  lemma StageBlockCases(c: Config, db: Database, block: Canonical) returns (mid: Database, staged: Database)
    requires Core(c, db) && ValidCanonical(c, block) && block.checkpoint.number !in db.blocks && CursorError(db, block).None?
    requires StageBlock(c, db, block).Ok?
    ensures Staging(c, db, block, mid, staged) && StageBlock(c, db, block) == Ok(AddBlock(staged, block))
  {
    mid := Discard(db, Strangers(db, block.checkpoint.number, Ids(block.candidates)));
    staged := StageAll(mid, block.candidates);
    ReconcileKeeps(c, db, block.checkpoint.number, Ids(block.candidates));
  }

  // A commit changes nothing, or stages the block, promotes and advances.
  lemma CommitCases(c: Config, db: Database, block: Canonical, now: Time) returns (promoted: Database)
    ensures var db' := DoCommit(c, db, block, now).after;
            || db' == db
            || (&& ValidCanonical(c, block) && block.checkpoint.number !in db.blocks && CursorError(db, block).None?
                && StageBlock(c, db, block).Ok? && Promote(c, StageBlock(c, db, block).value, now) == Ok(promoted)
                && Advance(promoted) == Ok(db') && DoCommit(c, db, block, now).result.Ok?)
  {
    promoted := db;
    if StageBlock(c, db, block).Ok? && Promote(c, StageBlock(c, db, block).value, now).Ok? {
      promoted := Promote(c, StageBlock(c, db, block).value, now).value;
    }
  }

  lemma CommitSound(c: Config, db: Database, block: Canonical, now: Time)
    requires Inv(c, db) && NoFastTokens(block)
    ensures var db' := DoCommit(c, db, block, now).after;
            Sound(c, db, db', None) || Committed(c, db, db', block)
  {
    var promoted := CommitCases(c, db, block, now);
    var db' := DoCommit(c, db, block, now).after;
    if db' == db {
      SoundRefl(c, db);
    } else {
      var mid, staged := StageBlockCases(c, db, block);
      NewBlockCommitted(c, db, block, mid, staged, promoted, db', now);
    }
  }
}
