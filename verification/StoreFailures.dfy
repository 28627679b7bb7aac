/** The store calls its own database corrupt only when a counter or the block height has run out. */
module StoreFailures {
  import opened Prelude
  import opened Sorting
  import opened StoreModel
  import opened StoreSteps
  import opened StoreInvariant
  import opened StorePrimitives
  import opened StorePromotion
  import opened StoreAdvance
  import opened StoreFlows
  import opened StoreTransactions
  import opened StoreCommit
  import opened StoreRuns
  import opened StoreWitness

  // There are numbers left for a full queue, a tombstone and a block.
  predicate Roomy(c: Config, db: Database) {
    && db.orderSequence + c.maxPending <= MAX_UINT64 && db.tombstoneSequence < MAX_UINT64
    && (db.cursor.Some? ==> db.cursor.value.number < MAX_UINT64)
  }

  // ---------- Promotion and advance ----------

  ghost predicate OrderBelow(db: Database) {
    forall k {:trigger k in db.order} | k in db.order :: k <= db.orderSequence
  }

  lemma {:induction false} EnqueueAllIff(db: Database, ids: seq<CandidateID>)
    requires OrderBelow(db) && forall id | id in ids :: id in db.candidates
    ensures EnqueueAll(db, ids).Ok? <==> db.orderSequence + |ids| <= MAX_UINT64
    decreases |ids|
  {
    if ids != [] && db.orderSequence < MAX_UINT64 {
      assert ids[0] in db.candidates;
      EnqueueAllIff(Enqueue(db, ids[0]), ids[1..]);
    }
  }

  lemma NoneWaitsTwice(db: Database, now: Time)
    requires Queue(db)
    ensures forall id | id in StagedIds(db.candidates) + DueIds(db.candidates, now) :: id !in db.pending
  {
    forall id | id in StagedIds(db.candidates) + DueIds(db.candidates, now) ensures id !in db.pending {
      WaitingNotPending(db, id);
    }
  }

  lemma ChoosesNothing(c: Config, db: Database, now: Time)
    requires |db.pending| == c.maxPending ||
             (|db.pending| < c.maxPending && StagedIds(db.candidates) + DueIds(db.candidates, now) == {})
    ensures Chosen(c, db, now).ids == []
  {
    if StagedIds(db.candidates) + DueIds(db.candidates, now) == {} {
      assert StagedIds(db.candidates) == {} && DueIds(db.candidates, now) == {};
      assert Sorted({}) == [];
    }
  }

  lemma PromoteIdle(c: Config, db: Database, now: Time)
    requires Queue(db) && |db.pending| <= c.maxPending
    requires |db.pending| == c.maxPending || StagedIds(db.candidates) + DueIds(db.candidates, now) == {}
    ensures Promote(c, db, now).Ok? && Chosen(c, db, now).ids == []
  {
    NoneWaitsTwice(db, now);
    ChoosesNothing(c, db, now);
  }

  lemma QueueReads(c: Config, db: Database)
    requires Queue(db) && |db.pending| <= c.maxPending
    ensures QueueReadable(c, db)
  {
  }

  lemma PromoteBusy(c: Config, db: Database, now: Time, queued: Result<Database, Error>)
    requires QueueReadable(c, db) && |db.pending| < c.maxPending && queued == EnqueueAll(db, Chosen(c, db, now).ids)
    requires var waiting := StagedIds(db.candidates) + DueIds(db.candidates, now);
             waiting != {} && forall id | id in waiting :: id !in db.pending
    ensures Promote(c, db, now).Ok? <==> queued.Ok?
  {
  }

  lemma ChosenStored(c: Config, db: Database, now: Time)
    requires |db.pending| <= c.maxPending
    ensures forall id | id in Chosen(c, db, now).ids :: id in db.candidates
  {
    ChosenWaiting(c, db, now);
    forall id | id in Chosen(c, db, now).ids ensures id in db.candidates {
      assert Waiting(db.candidates, id);
    }
  }

  // Promotion fails exactly when it would need more queue numbers than there are.
  lemma PromoteOkIff(c: Config, db: Database, now: Time)
    requires Queue(db) && |db.pending| <= c.maxPending
    ensures Promote(c, db, now).Ok? <==> db.orderSequence + |Chosen(c, db, now).ids| <= MAX_UINT64
  {
    if |db.pending| == c.maxPending || StagedIds(db.candidates) + DueIds(db.candidates, now) == {} {
      PromoteIdle(c, db, now);
    } else {
      ChosenStored(c, db, now);
      EnqueueAllIff(db, Chosen(c, db, now).ids);
      QueueReads(c, db);
      NoneWaitsTwice(db, now);
      PromoteBusy(c, db, now, EnqueueAll(db, Chosen(c, db, now).ids));
    }
  }

  lemma PromoteOk(c: Config, db: Database, now: Time)
    requires Queue(db) && |db.pending| <= c.maxPending && db.orderSequence + c.maxPending <= MAX_UINT64
    ensures Promote(c, db, now).Ok?
  {
    ChosenWaiting(c, db, now);
    PromoteOkIff(c, db, now);
  }

  lemma AdvanceIs(db: Database)
    requires db.baseline.Some? && (db.checkpoint.Some? ==> db.checkpoint.value.number < MAX_UINT64)
    ensures AtNext(db, NextHeight(db)) && Advance(db) == AdvanceFrom(db, NextHeight(db))
  {
  }

  // Advancing fails exactly when the checkpoint is at the last height.
  lemma AdvanceOkIff(c: Config, db: Database)
    requires Core(c, db) && Trimmed(db)
    ensures Advance(db).Ok? <==> !(db.checkpoint.Some? && db.checkpoint.value.number == MAX_UINT64)
  {
    if db.checkpoint.Some? {
      CheckpointStored(c, db);
    }
    if db.baseline.Some? && (db.checkpoint.Some? ==> db.checkpoint.value.number < MAX_UINT64) {
      AdvanceIs(db);
      AdvanceFromKeeps(c, db, NextHeight(db));
    }
  }

  lemma CheckpointBelowCursor(c: Config, db: Database)
    requires Heights(db) && CheckpointSound(db) && db.checkpoint.Some?
    ensures db.cursor.Some? && db.checkpoint.value.number <= db.cursor.value.number
  {
    assert db.checkpoint.value.number in db.blocks;
  }

  lemma AdvanceOk(c: Config, db: Database)
    requires Lagging(c, db) && (db.checkpoint.Some? ==> db.checkpoint.value.number < MAX_UINT64)
    ensures Advance(db).Ok?
  {
    WindowTrimmed(c, db);
    AdvanceOkIff(c, db);
  }

  // ---------- One operation ----------

  lemma SameRecord(c: Config, db: Database, candidate: Candidate)
    requires Digests(c) && Rows(c, db.candidates) && ValidCandidate(c, candidate) && candidate.id in db.candidates
    ensures ValidRecord(c, candidate.id, db.candidates[candidate.id]) && SameIdentity(db.candidates[candidate.id].candidate, candidate)
  {
    assert ValidRecord(c, candidate.id, db.candidates[candidate.id]);
    SameIdSameBlock(c, db.candidates[candidate.id].candidate, candidate);
  }

  lemma PutClean(c: Config, db: Database, candidate: Candidate, now: Time)
    requires Digests(c) && Inv(c, db) && Roomy(c, db)
    ensures DoPut(c, db, candidate, now).result != Err(Corrupt)
  {
    if ValidCandidate(c, candidate) && candidate.id in db.candidates {
      SameRecord(c, db, candidate);
      if db.candidates[candidate.id].status == Observed && RoomFor(c, db, 1) {
        UpgradedAlmost(c, db, candidate);
        PromoteOk(c, Upgrade(db, candidate), now);
      }
    } else if ValidCandidate(c, candidate) && !AlreadyScanned(db, candidate) && RoomFor(c, db, 1) {
      StagedAlmost(c, db, candidate);
      PromoteOk(c, AddCandidate(db, Staged, candidate), now);
    }
  }

  lemma PutObservedClean(c: Config, db: Database, candidate: Candidate)
    requires Digests(c) && Inv(c, db)
    ensures DoPutObserved(c, db, candidate).result != Err(Corrupt)
  {
    if ValidCandidate(c, candidate) && candidate.id in db.candidates {
      SameRecord(c, db, candidate);
    }
  }

  lemma MarkRemovedClean(c: Config, db: Database, id: CandidateID)
    requires Inv(c, db) && Roomy(c, db)
    ensures DoMarkRemoved(c, db, id).result != Err(Corrupt)
  {
    if IsStored(db, id) && db.candidates[id].status == Observed {
      DiscardLagging(c, db, {id});
      if db.checkpoint.Some? {
        CheckpointBelowCursor(c, db);
      }
      AdvanceOk(c, Discard(db, {id}));
    }
  }

  predicate IsStored(db: Database, id: CandidateID) { id in db.candidates }

  lemma EntriesReadable(c: Config, db: Database)
    requires Queue(db) && Rows(c, db.candidates)
    ensures forall k | k in db.order :: EntryReadable(c, db, k)
  {
    forall k | k in db.order ensures EntryReadable(c, db, k) {
      var id := db.order[k];
      assert db.pending[id] == k && IsReady(db.candidates, id);
    }
  }

  lemma NextClean(c: Config, db: Database, now: Time)
    requires Inv(c, db) && Roomy(c, db)
    ensures DoNext(c, db, now).result != Err(Corrupt)
  {
    PromoteOk(c, db, now);
    PromoteKeeps(c, db, now);
    EntriesReadable(c, Promote(c, db, now).value);
  }

  lemma PutIncidentClean(c: Config, db: Database, incident: Incident)
    requires Inv(c, db)
    ensures DoPutIncident(c, db, incident).result != Err(Corrupt)
  {
    if incident.candidate in db.candidates {
      assert ValidRecord(c, incident.candidate, db.candidates[incident.candidate]);
    }
  }

  lemma ResolveClean(c: Config, db: Database, id: CandidateID, incident: IncidentID)
    requires Inv(c, db)
    ensures ResolveError(c, db, id, incident) != Some(Corrupt)
    ensures IsReady(db.candidates, id) ==> Queued(db, id)
  {
    if id in db.incidents {
      assert id in db.candidates && db.incidents[id].candidate == id && db.incidents[id].network == c.network;
      assert ValidRecord(c, id, db.candidates[id]);
    }
    if IsReady(db.candidates, id) {
      assert db.pending[id] in db.order;
    }
  }

  lemma NackClean(c: Config, db: Database, id: CandidateID, incident: IncidentID, retryAt: Time, now: Time)
    requires Inv(c, db) && Roomy(c, db)
    ensures DoNack(c, db, id, incident, retryAt, now).result != Err(Corrupt)
  {
    ResolveClean(c, db, id, incident);
    if retryAt != UNSET && ResolveError(c, db, id, incident).None? && db.candidates[id].status == Ready {
      NackAlmost(c, db, id, retryAt);
      MapRemoveSize(db.pending, id);
      PromoteOk(c, Dequeue(db, id, Record(Delayed, retryAt, db.candidates[id].candidate)), now);
    }
  }

  lemma SettleIs(c: Config, buried: Database, evicted: Database, advanced: Database, now: Time)
    requires Evict(buried) == Ok(evicted) && Advance(evicted) == Ok(advanced) && Promote(c, advanced, now).Ok?
    ensures Settle(c, buried, now).Ok?
  {
  }

  lemma AckAdvancesOk(c: Config, db: Database, id: CandidateID) returns (evicted: Database, advanced: Database)
    requires Inv(c, db) && Roomy(c, db) && Acknowledgeable(db, id)
    ensures Evict(Acknowledge(db, id)) == Ok(evicted) && Advance(evicted) == Ok(advanced)
    ensures Queue(advanced) && |advanced.pending| < c.maxPending && advanced.orderSequence == db.orderSequence
  {
    AckLagging(c, db, id);
    evicted := Evict(Acknowledge(db, id)).value;
    if db.checkpoint.Some? {
      CheckpointBelowCursor(c, db);
    }
    AdvanceOk(c, evicted);
    AdvanceAlmost(c, evicted);
    advanced := Advance(evicted).value;
    MapRemoveSize(db.pending, id);
  }

  lemma SettleOk(c: Config, db: Database, id: CandidateID, now: Time)
    requires Inv(c, db) && Roomy(c, db) && Acknowledgeable(db, id)
    ensures Settle(c, Acknowledge(db, id), now).Ok?
  {
    var evicted, advanced := AckAdvancesOk(c, db, id);
    PromoteOk(c, advanced, now);
    SettleIs(c, Acknowledge(db, id), evicted, advanced, now);
  }

  lemma AckClean(c: Config, db: Database, id: CandidateID, incident: IncidentID, now: Time)
    requires Inv(c, db) && Roomy(c, db)
    ensures DoAck(c, db, id, incident, now).result != Err(Corrupt)
  {
    ResolveClean(c, db, id, incident);
    if ResolveError(c, db, id, incident).None? && db.candidates[id].status == Ready {
      AcknowledgeTombstones(db, id);
      SettleOk(c, db, id, now);
      AckIs(c, db, id, incident, now, Settle(c, Acknowledge(db, id), now).value);
    }
  }

  // ---------- Committing a block ----------

  lemma RecommittedClean(c: Config, db: Database, block: Canonical)
    requires Digests(c) && Inv(c, db) && ValidCanonical(c, block)
    requires block.checkpoint.number in db.blocks && db.blocks[block.checkpoint.number] == Requested(block)
    ensures Recommitted(c, db, block)
  {
    forall i | 0 <= i < |block.candidates| ensures
      var id := block.candidates[i].id;
      && id in db.candidates && ValidRecord(c, id, db.candidates[id])
      && SameIdentity(db.candidates[id].candidate, block.candidates[i]) && db.candidates[id].status != Observed
    {
      var id := block.candidates[i].id;
      assert id in Ids(block.candidates);
      assert id in db.blocks[block.checkpoint.number].members;
      assert MemberOk(db, db.blocks[block.checkpoint.number], id);
      SameRecord(c, db, block.candidates[i]);
    }
  }

  lemma ReconcileClean(c: Config, db: Database, number: Uint64, wanted: set<CandidateID>)
    requires Index(db) && Rows(c, db.candidates)
    ensures Reconcile(db, number, wanted) != Err(Corrupt)
  {
    forall k | k in db.index ensures
      k.id in db.candidates && db.candidates[k.id].candidate.id == k.id && db.candidates[k.id].candidate.number == k.number
    {
      assert ValidRecord(c, k.id, db.candidates[k.id]);
    }
  }

  lemma WindowClean(c: Config, db: Database, mid: Database, block: Canonical)
    requires Heights(db) && CheckpointSound(db) && CursorError(db, block).None?
    requires mid.cursor == db.cursor && mid.checkpoint == db.checkpoint && mid.baseline == db.baseline
    ensures WindowError(mid, block.checkpoint.number) != Some(Corrupt)
  {
    if db.checkpoint.Some? {
      CheckpointBelowCursor(c, db);
    }
  }

  lemma ConsistentClean(c: Config, mid: Database, block: Canonical)
    requires Digests(c) && Rows(c, mid.candidates) && ValidCanonical(c, block)
    ensures Consistent(c, mid, block.candidates)
  {
    forall i | 0 <= i < |block.candidates| && block.candidates[i].id in mid.candidates ensures
      && ValidRecord(c, block.candidates[i].id, mid.candidates[block.candidates[i].id])
      && SameIdentity(mid.candidates[block.candidates[i].id].candidate, block.candidates[i])
    {
      SameRecord(c, mid, block.candidates[i]);
    }
  }

  lemma StageBlockClean(c: Config, db: Database, block: Canonical)
    requires Digests(c) && Inv(c, db) && ValidCanonical(c, block) && CursorError(db, block).None?
    ensures StageBlock(c, db, block) != Err(Corrupt)
  {
    var wanted := Ids(block.candidates);
    ReconcileClean(c, db, block.checkpoint.number, wanted);
    var reconciled := Reconcile(db, block.checkpoint.number, wanted);
    if reconciled.Ok? {
      WindowClean(c, db, reconciled.value, block);
      ConsistentClean(c, reconciled.value, block);
    }
  }

  // The queue is as it was before the block was staged.
  lemma StagedQueue(c: Config, db: Database, block: Canonical, mid: Database, staged: Database)
    requires Inv(c, db) && NoFastTokens(block) && Staging(c, db, block, mid, staged)
    ensures var stored := AddBlock(staged, block);
            stored.pending == db.pending && stored.orderSequence == db.orderSequence && stored.checkpoint == db.checkpoint
  {
    StagedReady(c, db, block, mid, staged);
    DiscardIsRemoved(c, db, Strangers(db, block.checkpoint.number, Ids(block.candidates)));
    DiscardLagging(c, db, Strangers(db, block.checkpoint.number, Ids(block.candidates)));
  }

  lemma CommitFinishes(c: Config, db: Database, block: Canonical, stored: Database, now: Time)
    requires Inv(c, db) && Roomy(c, db) && Lagging(c, stored)
    requires stored.pending == db.pending && stored.orderSequence == db.orderSequence && stored.checkpoint == db.checkpoint
    ensures Promote(c, stored, now).Ok? && Advance(Promote(c, stored, now).value).Ok?
  {
    PromoteOk(c, stored, now);
    PromoteLagging(c, stored, now);
    if db.checkpoint.Some? {
      CheckpointBelowCursor(c, db);
    }
    AdvanceOk(c, Promote(c, stored, now).value);
  }

  lemma NewBlockClean(c: Config, db: Database, block: Canonical, now: Time)
    requires Digests(c) && Inv(c, db) && Roomy(c, db) && NoFastTokens(block)
    requires ValidCanonical(c, block) && block.checkpoint.number !in db.blocks && CursorError(db, block).None?
    ensures var staged := StageBlock(c, db, block);
            && staged != Err(Corrupt)
            && (staged.Ok? ==> Promote(c, staged.value, now).Ok? && Advance(Promote(c, staged.value, now).value).Ok?)
  {
    StageBlockClean(c, db, block);
    if StageBlock(c, db, block).Ok? {
      var mid, staged := StageBlockCases(c, db, block);
      StoredLagging(c, db, block, mid, staged);
      StagedQueue(c, db, block, mid, staged);
      CommitFinishes(c, db, block, AddBlock(staged, block), now);
    }
  }

  lemma CursorClean(c: Config, db: Database, block: Canonical)
    requires Inv(c, db) && Roomy(c, db)
    ensures CursorError(db, block) != Some(Corrupt)
  {
  }

  lemma CommitClean(c: Config, db: Database, block: Canonical, now: Time)
    requires Digests(c) && Inv(c, db) && Roomy(c, db) && NoFastTokens(block)
    ensures DoCommit(c, db, block, now).result != Err(Corrupt)
  {
    CursorClean(c, db, block);
    if ValidCanonical(c, block) && block.checkpoint.number in db.blocks {
      if db.blocks[block.checkpoint.number] == Requested(block) {
        RecommittedClean(c, db, block);
      }
    } else if ValidCanonical(c, block) && CursorError(db, block).None? {
      NewBlockClean(c, db, block, now);
    }
  }

  // ---------- Every operation of every run ----------

  ghost predicate AnswersCorrupt(c: Config, db: Database, command: Command) {
    match command
    case Offer(candidate, now) => DoPut(c, db, candidate, now).result == Err(Corrupt)
    case Observe(candidate) => DoPutObserved(c, db, candidate).result == Err(Corrupt)
    case MarkRemoved(id) => DoMarkRemoved(c, db, id).result == Err(Corrupt)
    case Take(now) => DoNext(c, db, now).result == Err(Corrupt)
    case PutIncident(incident) => DoPutIncident(c, db, incident).result == Err(Corrupt)
    case Ack(id, incident, now) => DoAck(c, db, id, incident, now).result == Err(Corrupt)
    case Nack(id, incident, retryAt, now) => DoNack(c, db, id, incident, retryAt, now).result == Err(Corrupt)
    case Commit(block, now) => DoCommit(c, db, block, now).result == Err(Corrupt)
  }

  lemma StepClean(c: Config, db: Database, command: Command)
    requires Digests(c) && Inv(c, db) && Roomy(c, db) && NoFast(command)
    ensures !AnswersCorrupt(c, db, command)
  {
    match command
    case Offer(candidate, now) => PutClean(c, db, candidate, now);
    case Observe(candidate) => PutObservedClean(c, db, candidate);
    case MarkRemoved(id) => MarkRemovedClean(c, db, id);
    case Take(now) => NextClean(c, db, now);
    case PutIncident(incident) => PutIncidentClean(c, db, incident);
    case Ack(id, incident, now) => AckClean(c, db, id, incident, now);
    case Nack(id, incident, retryAt, now) => NackClean(c, db, id, incident, retryAt, now);
    case Commit(block, now) => CommitClean(c, db, block, now);
  }

  /** No operation of any run answers that the database is corrupt, as long as there are numbers left
      for a full queue, a tombstone and a block. */
  lemma NeverCorrupt(c: Config, commands: seq<Command>, command: Command)
    requires Digests(c) && AllNoFast(commands) && NoFast(command) && Roomy(c, Run(c, commands))
    ensures !AnswersCorrupt(c, Run(c, commands), command)
  {
    RunInv(c, commands);
    StepClean(c, Run(c, commands), command);
  }

  // ---------- The last number ----------

  const LAST_BUT_ONE := EMPTY_DATABASE.(orderSequence := MAX_UINT64 - 1)

  // One successful Put writes the last queue number, and the database is not accepted any more.
  lemma LastNumberIsWritten()
    ensures Validates(SETUP, LAST_BUT_ONE) && DoPut(SETUP, LAST_BUT_ONE, Plain(1), SECOND).result.Ok?
    ensures !Validates(SETUP, DoPut(SETUP, LAST_BUT_ONE, Plain(1), SECOND).after)
  {
    assert Inv(SETUP, LAST_BUT_ONE);
    InvValidates(SETUP, LAST_BUT_ONE);
    Offers(SETUP, LAST_BUT_ONE, Plain(1), SECOND);
    PromotesOne(SETUP, LAST_BUT_ONE, Plain(1), SECOND);
    assert Unfinished(LAST_BUT_ONE.candidates) == {};
  }
}
