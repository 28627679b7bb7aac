/** What each operation of the store answers, and what its answer means for the database. */
module StoreAnswers {
  import opened Prelude
  import opened Sorting
  import opened StoreModel
  import opened StoreSteps
  import opened StoreInvariant
  import opened StorePrimitives
  import opened StorePromotion
  import opened StoreAdvance
  import opened StoreFlows
  import opened StoreTransactions
  import opened StoreCommit
  import opened StoreRuns
  import opened StoreFailures
  import StoreWitness
  import opened StoreQueue

  // ---------- Put ----------

  predicate JournalHasRoom(c: Config, db: Database) { |Unfinished(db.candidates)| < c.Capacity() }

  // The candidate is not stored yet, or merely observed, and not covered by the scan.
  predicate Welcome(db: Database, x: Candidate) {
    if x.id in db.candidates then db.candidates[x.id].status == Observed else !AlreadyScanned(db, x)
  }

  // Put answers by what is stored: acknowledged or scanned and gone, unfinished, or welcome, which
  // needs room in the journal.
  lemma PutResult(c: Config, db: Database, x: Candidate, now: Time)
    requires Digests(c) && Inv(c, db) && db.orderSequence + c.maxPending <= MAX_UINT64
    ensures var result := DoPut(c, db, x, now).result;
            && (result == Err(InvalidInput) <==> !ValidCandidate(c, x))
            && (ValidCandidate(c, x) ==>
                  && (result == Err(JournalFull) <==> Welcome(db, x) && !JournalHasRoom(c, db))
                  && (result == Ok(Inserted) <==> Welcome(db, x) && JournalHasRoom(c, db) && x.id !in db.candidates)
                  && (result == Ok(AlreadyPending) <==>
                        IsUnfinished(db.candidates, x.id) || (x.id in db.candidates && Welcome(db, x) && JournalHasRoom(c, db)))
                  && (result == Ok(AlreadyAcknowledged) <==>
                        IsAcknowledged(db.candidates, x.id) || (x.id !in db.candidates && !Welcome(db, x))))
  {
    if ValidCandidate(c, x) && x.id in db.candidates {
      SameRecord(c, db, x);
      if db.candidates[x.id].status == Observed && RoomFor(c, db, 1) {
        UpgradedAlmost(c, db, x);
        PromoteOk(c, Upgrade(db, x), now);
      }
    } else if ValidCandidate(c, x) && !AlreadyScanned(db, x) && RoomFor(c, db, 1) {
      StagedAlmost(c, db, x);
      PromoteOk(c, AddCandidate(db, Staged, x), now);
    }
  }

  // A welcome candidate that is accepted is stored as it was offered, to be handled: ready, or
  // staged behind a full queue.
  ghost predicate Accepted(c: Config, db: Database, x: Candidate) {
    && x.id in db.candidates && db.candidates[x.id].candidate == x
    && (IsReady(db.candidates, x.id) || (db.candidates[x.id].status == Staged && |db.pending| == c.maxPending))
  }

  lemma PutStores(c: Config, db: Database, x: Candidate, now: Time)
    requires Inv(c, db) && Welcome(db, x) && DoPut(c, db, x, now).result.Ok?
    ensures Accepted(c, DoPut(c, db, x, now).after, x)
  {
    PutWorks(c, db, x, now);
    if x.id in db.candidates {
      UpgradedAlmost(c, db, x);
      UpgradedIs(db, x);
      StagedOrReady(c, Upgrade(db, x), x, now);
    } else {
      StagedAlmost(c, db, x);
      StagedOrReady(c, AddCandidate(db, Staged, x), x, now);
    }
  }

  lemma UpgradedIs(db: Database, x: Candidate)
    requires x.id in db.candidates && SameIdentity(db.candidates[x.id].candidate, x)
    ensures Upgrade(db, x).candidates[x.id] == StagedRecord(x)
  {
  }

  lemma PutWorks(c: Config, db: Database, x: Candidate, now: Time)
    requires Welcome(db, x) && DoPut(c, db, x, now).result.Ok?
    ensures ValidCandidate(c, x) && RoomFor(c, db, 1)
    ensures x.id in db.candidates ==>
              SameIdentity(db.candidates[x.id].candidate, x) && Promote(c, Upgrade(db, x), now) == Ok(DoPut(c, db, x, now).after)
    ensures x.id !in db.candidates ==> Promote(c, AddCandidate(db, Staged, x), now) == Ok(DoPut(c, db, x, now).after)
  {
  }

  lemma StagedOrReady(c: Config, mid: Database, x: Candidate, now: Time)
    requires Queue(mid) && x.id in mid.candidates && mid.candidates[x.id] == StagedRecord(x) && Promote(c, mid, now).Ok?
    ensures Accepted(c, Promote(c, mid, now).value, x)
  {
    var db' := Promote(c, mid, now).value;
    PromotePromotes(c, mid, now);
    assert RecordKept(mid, db', x.id) ==> Eligible(db'.candidates[x.id], now);
    PromotedSame(c, mid, now, x.id);
  }

  lemma PromotedSame(c: Config, mid: Database, now: Time, id: CandidateID)
    requires Queue(mid) && Promote(c, mid, now).Ok? && id in mid.candidates
    ensures var db' := Promote(c, mid, now).value;
            id in db'.candidates && db'.candidates[id].candidate == mid.candidates[id].candidate
  {
    PromoteCases(c, mid, now);
    if Promote(c, mid, now).value != mid {
      ChosenWaiting(c, mid, now);
      var ids := Chosen(c, mid, now).ids;
      forall other | other in ids ensures Waiting(mid.candidates, other) && other !in mid.pending {
        WaitingNotPending(mid, other);
      }
      EnqueueAllPromotes(mid, ids);
      assert PromotedRecord(mid.candidates[id], EnqueueAll(mid, ids).value.candidates[id]);
    }
  }

  // ---------- PutObserved and MarkRemoved ----------

  lemma PutObservedAnswers(c: Config, db: Database, x: Candidate)
    requires Digests(c) && Inv(c, db)
    ensures var o := DoPutObserved(c, db, x);
            && (o.result == Err(InvalidInput) <==> !ValidCandidate(c, x))
            && (ValidCandidate(c, x) ==>
                  var isNew := x.id !in db.candidates && !AlreadyScanned(db, x);
                  && (o.result == Ok(Inserted) <==> isNew && |ObservedIds(db.candidates)| < c.maxPending)
                  && (o.result == Err(Saturated) <==> isNew && |ObservedIds(db.candidates)| >= c.maxPending)
                  && (o.result == Ok(AlreadyAcknowledged) <==> IsAcknowledged(db.candidates, x.id) || (x.id !in db.candidates && AlreadyScanned(db, x)))
                  && (o.result == Ok(AlreadyPending) <==> x.id in db.candidates && !IsAcknowledged(db.candidates, x.id)))
            && (o.result == Ok(Inserted) ==> o.after.candidates == db.candidates[x.id := Record(Observed, UNSET, x)])
            && (o.result != Ok(Inserted) ==> o.after == db)
  {
    if ValidCandidate(c, x) && x.id in db.candidates {
      SameRecord(c, db, x);
    }
  }

  // Only an observation can be removed; then it is gone, and everything else that is not acknowledged
  // is as it was.
  lemma MarkRemovedAnswers(c: Config, db: Database, id: CandidateID)
    requires Inv(c, db) && (db.checkpoint.Some? ==> db.checkpoint.value.number < MAX_UINT64)
    ensures var o := DoMarkRemoved(c, db, id);
            && (o.result.Ok? <==> id in db.candidates && db.candidates[id].status == Observed)
            && (o.result.Ok? || (o.result == Err(Conflict) && o.after == db))
            && (o.result.Ok? ==> id !in o.after.candidates)
            && (forall other | other in db.candidates && other != id && !IsAcknowledged(db.candidates, other) :: RecordKept(db, o.after, other))
  {
    if id in db.candidates && db.candidates[id].status == Observed {
      DiscardLagging(c, db, {id});
      AdvanceOk(c, Discard(db, {id}));
      AdvanceAlmost(c, Discard(db, {id}));
      RemovedIs(db, id, Advance(Discard(db, {id})).value);
    } else if id in db.candidates {
      assert ValidRecord(c, id, db.candidates[id]);
    }
  }

  lemma RemovedIs(db: Database, id: CandidateID, db': Database)
    requires Advances(Discard(db, {id}), db')
    ensures id !in db'.candidates
    ensures forall other | other in db.candidates && other != id && !IsAcknowledged(db.candidates, other) :: RecordKept(db, db', other)
  {
    forall other | other in db.candidates && other != id && !IsAcknowledged(db.candidates, other) ensures RecordKept(db, db', other) {
      assert other in Discard(db, {id}).candidates;
    }
  }

  // ---------- Incidents and acknowledgements ----------

  predicate HandedOut(db: Database, id: CandidateID) {
    id in db.candidates && db.candidates[id].status != Observed && db.candidates[id].status != Staged
  }

  // An incident is taken for a candidate that was handed out and has no other one; the first one stays.
  lemma PutIncidentAnswers(c: Config, db: Database, incident: Incident)
    requires Inv(c, db)
    ensures var o, id := DoPutIncident(c, db, incident), incident.candidate;
            var wellFormed := ValidIncident(c, incident) && incident.network == c.network;
            && (o.result == Err(InvalidInput) <==> !wellFormed)
            && (o.result.Ok? <==> wellFormed && HandedOut(db, id))
            && (o.result.Ok? || o.result == Err(InvalidInput) || o.result == Err(Conflict))
            && (o.result.Ok? ==> id in o.after.incidents && o.after.incidents[id].id == incident.id)
            && (forall other | other in db.incidents :: other in o.after.incidents && o.after.incidents[other] == db.incidents[other])
            && o.after.candidates == db.candidates
  {
    if incident.candidate in db.candidates {
      assert ValidRecord(c, incident.candidate, db.candidates[incident.candidate]);
    }
    if incident.candidate in db.incidents {
      assert ValidIncident(c, db.incidents[incident.candidate]) && db.incidents[incident.candidate].candidate == incident.candidate;
    }
  }

  // Off the queue, and acknowledged or forgotten.
  predicate Done(db: Database, id: CandidateID) { id !in db.pending && (id !in db.candidates || IsAcknowledged(db.candidates, id)) }

  lemma AdvancedDone(db: Database, id: CandidateID, evicted: Database, advanced: Database)
    requires Acknowledgeable(db, id) && OnlyForgets(Acknowledge(db, id), evicted) && Advances(evicted, advanced)
    ensures Done(advanced, id)
  {
    assert IsAcknowledged(Acknowledge(db, id).candidates, id) && id !in Acknowledge(db, id).pending;
  }

  lemma PromotedDone(c: Config, db: Database, now: Time, id: CandidateID)
    requires Queue(db) && Promote(c, db, now).Ok? && Done(db, id)
    ensures Done(Promote(c, db, now).value, id)
  {
    var db' := Promote(c, db, now).value;
    PromoteCases(c, db, now);
    if db' != db {
      var ids := Chosen(c, db, now).ids;
      ChosenWaiting(c, db, now);
      assert id !in ids;
      EnqueuedDone(db, ids, id);
    }
  }

  lemma {:induction false} EnqueuedDone(db: Database, ids: seq<CandidateID>, id: CandidateID)
    requires Done(db, id) && id !in ids && EnqueueAll(db, ids).Ok?
    ensures Done(EnqueueAll(db, ids).value, id)
    decreases |ids|
  {
    if ids != [] {
      EnqueuedDone(Enqueue(db, ids[0]), ids[1..], id);
    }
  }

  lemma AckFinal(c: Config, db: Database, id: CandidateID, now: Time, after: Database)
    requires Inv(c, db) && Acknowledgeable(db, id) && Settle(c, Acknowledge(db, id), now) == Ok(after)
    ensures Done(after, id)
  {
    var evicted, advanced := SettleCases(c, Acknowledge(db, id), now);
    AckAdvances(c, db, id, evicted, advanced);
    SettledQueue(c, db, id, evicted, advanced);
    AdvancedDone(db, id, evicted, advanced);
    PromotedDone(c, advanced, now, id);
  }

  // An acknowledgement is accepted exactly for the candidate's own incident and a candidate that is
  // ready or acknowledged already; afterwards it is done.
  lemma AckAnswers(c: Config, db: Database, id: CandidateID, incident: IncidentID, now: Time)
    requires Inv(c, db) && Roomy(c, db)
    ensures var o := DoAck(c, db, id, incident, now);
            && (o.result.Ok? <==> id in db.incidents && db.incidents[id].id == incident && (IsReady(db.candidates, id) || IsAcknowledged(db.candidates, id)))
            && (o.result.Ok? || (o.result == Err(Conflict) && o.after == db))
            && (o.result.Ok? ==> Done(o.after, id))
  {
    ResolveClean(c, db, id, incident);
    if ResolveError(c, db, id, incident).None? && db.candidates[id].status == Ready {
      AckReady(c, db, id, incident, now);
    } else {
      AckOthers(c, db, id, incident, now);
    }
  }

  lemma AckReady(c: Config, db: Database, id: CandidateID, incident: IncidentID, now: Time)
    requires Inv(c, db) && Roomy(c, db) && ResolveError(c, db, id, incident).None? && IsReady(db.candidates, id) && Queued(db, id)
    ensures var o := DoAck(c, db, id, incident, now); o.result.Ok? && Done(o.after, id)
  {
    AcknowledgeTombstones(db, id);
    SettleOk(c, db, id, now);
    var after := Settle(c, Acknowledge(db, id), now).value;
    AckFinal(c, db, id, now, after);
    StoreWitness.AckIs(c, db, id, incident, now, after);
  }

  lemma AckOthers(c: Config, db: Database, id: CandidateID, incident: IncidentID, now: Time)
    requires Inv(c, db) && ResolveError(c, db, id, incident) != Some(Corrupt)
    requires !(ResolveError(c, db, id, incident).None? && db.candidates[id].status == Ready)
    ensures var o := DoAck(c, db, id, incident, now);
            && (o.result.Ok? <==> id in db.incidents && db.incidents[id].id == incident && IsAcknowledged(db.candidates, id))
            && (o.result.Ok? || (o.result == Err(Conflict) && o.after == db))
            && (o.result.Ok? ==> Done(o.after, id))
            && !(id in db.incidents && db.incidents[id].id == incident && IsReady(db.candidates, id))
  {
  }

  // The store remembers the acknowledgement, unless the tombstones are full or a block of the
  // candidate may take it along.
  lemma AckRemembers(c: Config, db: Database, id: CandidateID, incident: IncidentID, now: Time)
    requires Inv(c, db) && IsReady(db.candidates, id) && DoAck(c, db, id, incident, now).result.Ok?
    requires |db.tombstones| < TOMBSTONE_LIMIT && !BlockStored(db, db.candidates[id].candidate)
    ensures IsAcknowledged(DoAck(c, db, id, incident, now).after.candidates, id)
  {
    AckCases(c, db, id, incident, now);
    var evicted, advanced := SettleCases(c, Acknowledge(db, id), now);
    AckAdvances(c, db, id, evicted, advanced);
    SettledQueue(c, db, id, evicted, advanced);
    NothingEvicted(db, id);
    RememberedIs(db, id, advanced);
    PromotedSame(c, advanced, now, id);
    PromotePromotes(c, advanced, now);
    assert RecordKept(advanced, Promote(c, advanced, now).value, id);
  }

  lemma NothingEvicted(db: Database, id: CandidateID)
    requires Acknowledgeable(db, id) && |db.tombstones| < TOMBSTONE_LIMIT
    ensures Evict(Acknowledge(db, id)) == Ok(Acknowledge(db, id))
  {
    assert |db.tombstones[db.tombstoneSequence + 1 := id]| <= |db.tombstones| + 1 by {
      assert db.tombstones[db.tombstoneSequence + 1 := id].Keys == db.tombstones.Keys + {db.tombstoneSequence + 1};
    }
  }

  lemma RememberedIs(db: Database, id: CandidateID, advanced: Database)
    requires Acknowledgeable(db, id) && Advances(Acknowledge(db, id), advanced) && !BlockStored(db, db.candidates[id].candidate)
    ensures IsAcknowledged(advanced.candidates, id)
  {
    assert IsAcknowledged(Acknowledge(db, id).candidates, id);
  }

  // ---------- Commit ----------

  // The block continues the scan.
  predicate Continues(db: Database, block: Canonical) {
    db.cursor.Some? ==> block.checkpoint.number == db.cursor.value.number + 1 && block.parent == db.cursor.value.hash
  }

  // A candidate of this height that is not in the block has already gone further than an observation.
  ghost predicate Contradicts(db: Database, block: Canonical) {
    exists id {:trigger db.candidates[id]} | id in db.candidates ::
      && KeyOf(db.candidates[id].candidate).Some? && db.candidates[id].candidate.number == block.checkpoint.number
      && id !in Ids(block.candidates) && db.candidates[id].status != Observed
  }

  // Too many blocks would be unconfirmed, or too many candidates unfinished.
  predicate WindowFull(db: Database, block: Canonical) {
    db.cursor.Some? && db.baseline.Some? &&
      if db.checkpoint.Some? then block.checkpoint.number - db.checkpoint.value.number > UNCONFIRMED_BLOCK_LIMIT
      else block.checkpoint.number - db.baseline.value + 1 > UNCONFIRMED_BLOCK_LIMIT
  }

  predicate JournalTooSmall(c: Config, db: Database, block: Canonical) {
    |Unfinished(db.candidates)| + |Additional(db, block.candidates)| > c.Capacity()
  }

  lemma ReconcileIff(c: Config, db: Database, block: Canonical)
    requires Index(db) && Rows(c, db.candidates)
    ensures var wanted := Ids(block.candidates);
            && (Reconcile(db, block.checkpoint.number, wanted) == Err(Conflict) <==> Contradicts(db, block))
            && (Reconcile(db, block.checkpoint.number, wanted).Ok? <==> !Contradicts(db, block))
  {
    var number, wanted := block.checkpoint.number, Ids(block.candidates);
    ReconcileClean(c, db, number, wanted);
    if Contradicts(db, block) {
      var id :| id in db.candidates && KeyOf(db.candidates[id].candidate).Some? && db.candidates[id].candidate.number == number
                && id !in wanted && db.candidates[id].status != Observed;
      assert ValidRecord(c, id, db.candidates[id]);
      assert KeyOf(db.candidates[id].candidate).value in db.index;
      assert id in Strangers(db, number, wanted);
    }
    if id :| id in Strangers(db, number, wanted) && id in db.candidates && db.candidates[id].status != Observed {
      var k :| k in db.index && k.number == number && k.id !in wanted && k.id == id;
      assert KeyOf(db.candidates[k.id].candidate) == Some(k);
    }
  }

  lemma DiscardedCounts(db: Database, ids: set<CandidateID>, candidates: seq<Candidate>)
    requires AllObserved(db, ids) && ids !! Ids(candidates)
    ensures Unfinished(Discard(db, ids).candidates) == Unfinished(db.candidates)
    ensures Additional(Discard(db, ids), candidates) == Additional(db, candidates)
  {
    forall i | 0 <= i < |candidates| ensures candidates[i].id !in ids {
      assert candidates[i].id in Ids(candidates);
    }
  }

  lemma StrangersUnwanted(db: Database, number: Uint64, wanted: set<CandidateID>)
    ensures Strangers(db, number, wanted) !! wanted
  {
  }

  lemma WindowIff(c: Config, db: Database, mid: Database, block: Canonical)
    requires Heights(db) && CheckpointSound(db) && CursorError(db, block).None?
    requires mid.cursor == db.cursor && mid.checkpoint == db.checkpoint && mid.baseline == db.baseline
    ensures WindowError(mid, block.checkpoint.number) == if WindowFull(db, block) then Some(JournalFull) else None
  {
    if db.checkpoint.Some? {
      CheckpointBelowCursor(c, db);
    }
  }

  lemma StageAnswers(c: Config, db: Database, block: Canonical)
    requires Digests(c) && Inv(c, db) && ValidCanonical(c, block) && CursorError(db, block).None?
    ensures var staged := StageBlock(c, db, block);
            && (staged == Err(Conflict) <==> Contradicts(db, block))
            && (staged == Err(JournalFull) <==> !Contradicts(db, block) && (WindowFull(db, block) || JournalTooSmall(c, db, block)))
            && (staged.Ok? <==> !Contradicts(db, block) && !WindowFull(db, block) && !JournalTooSmall(c, db, block))
  {
    var number, wanted := block.checkpoint.number, Ids(block.candidates);
    ReconcileIff(c, db, block);
    if !Contradicts(db, block) {
      ReconcileKeeps(c, db, number, wanted);
      var mid := Discard(db, Strangers(db, number, wanted));
      StrangersUnwanted(db, number, wanted);
      DiscardedCounts(db, Strangers(db, number, wanted), block.candidates);
      WindowIff(c, db, mid, block);
      ConsistentClean(c, mid, block);
    }
  }

  lemma CursorIff(c: Config, db: Database, block: Canonical)
    requires Inv(c, db) && Roomy(c, db)
    ensures CursorError(db, block) == if Continues(db, block) then None else Some(Conflict)
  {
  }

  // A new block is refused as a conflict exactly if it does not continue the scan or contradicts what
  // was handed out, for lack of room exactly if window or journal are full, and stored otherwise.
  lemma CommitNewAnswers(c: Config, db: Database, block: Canonical, now: Time)
    requires Digests(c) && Inv(c, db) && Roomy(c, db) && NoFastTokens(block)
    requires ValidCanonical(c, block) && block.checkpoint.number !in db.blocks
    ensures var result := DoCommit(c, db, block, now).result;
            var full := WindowFull(db, block) || JournalTooSmall(c, db, block);
            && (result == Err(Conflict) <==> !Continues(db, block) || Contradicts(db, block))
            && (result == Err(JournalFull) <==> Continues(db, block) && !Contradicts(db, block) && full)
            && (result.Ok? <==> Continues(db, block) && !Contradicts(db, block) && !full)
  {
    CursorIff(c, db, block);
    if Continues(db, block) {
      StageAnswers(c, db, block);
      NewBlockClean(c, db, block, now);
    }
    CommitByParts(c, db, block, now);
  }

  lemma CommitByParts(c: Config, db: Database, block: Canonical, now: Time)
    requires ValidCanonical(c, block) && block.checkpoint.number !in db.blocks
    requires CursorError(db, block).None? && StageBlock(c, db, block).Ok? ==>
               Promote(c, StageBlock(c, db, block).value, now).Ok? && Advance(Promote(c, StageBlock(c, db, block).value, now).value).Ok?
    ensures var result := DoCommit(c, db, block, now).result;
            if CursorError(db, block).Some? then result == Err(CursorError(db, block).value)
            else if StageBlock(c, db, block).Err? then result == Err(StageBlock(c, db, block).error)
            else result.Ok?
  {
  }

  // A block that is stored already is accepted again exactly if it is the same one: hash, parent and
  // the set of its candidates.
  lemma CommitAgainAnswers(c: Config, db: Database, block: Canonical, now: Time)
    requires Digests(c) && Inv(c, db) && ValidCanonical(c, block) && block.checkpoint.number in db.blocks
    ensures var o, stored := DoCommit(c, db, block, now), db.blocks[block.checkpoint.number];
            && (o.result.Ok? <==> stored.checkpoint == block.checkpoint && stored.parent == block.parent && MemberSet(stored) == Ids(block.candidates))
            && (o.result.Ok? || o.result == Err(Conflict)) && o.after == db
  {
    var stored := db.blocks[block.checkpoint.number];
    assert ValidBlock(c, block.checkpoint.number, stored);
    if MemberSet(stored) == Ids(block.candidates) {
      SortedIs(stored.members, Ids(block.candidates));
    }
    if stored == Requested(block) {
      assert MemberSet(stored) == Ids(block.candidates);
      RecommittedClean(c, db, block);
    }
  }

  // ---------- What is kept ----------

  // The newest tombstones are kept, as many as fit, and only what went with an older one is forgotten.
  ghost predicate KeepsNewest(db: Database, db': Database) {
    && |db'.tombstones| == (if |db.tombstones| <= TOMBSTONE_LIMIT then |db.tombstones| else TOMBSTONE_LIMIT)
    && (forall k | k in db'.tombstones :: k in db.tombstones && db'.tombstones[k] == db.tombstones[k])
    && (forall gone, k | gone in db.tombstones && gone !in db'.tombstones && k in db'.tombstones :: gone < k)
    && (forall id | id in db.candidates && id !in db'.candidates ::
          exists gone :: gone in db.tombstones && gone !in db'.tombstones && db.tombstones[gone] == id)
  }

  lemma EvictedOldest(db: Database, k: Uint64, next: Database, db': Database)
    requires k in db.tombstones && IsLeast(db.tombstones.Keys, k) && |db.tombstones| > TOMBSTONE_LIMIT
    requires Unbury(db, db.tombstones[k]).Ok? && next == Unbury(db, db.tombstones[k]).value.(tombstones := db.tombstones - {k})
    requires KeepsNewest(next, db')
    ensures KeepsNewest(db, db')
  {
    MapRemoveSize(db.tombstones, k);
    forall id | id in db.candidates && id !in db'.candidates
      ensures exists gone :: gone in db.tombstones && gone !in db'.tombstones && db.tombstones[gone] == id
    {
      if id in next.candidates {
        var gone :| gone in next.tombstones && gone !in db'.tombstones && next.tombstones[gone] == id;
        assert gone in db.tombstones && db.tombstones[gone] == id;
      } else {
        assert k in db.tombstones && k !in db'.tombstones && db.tombstones[k] == id;
      }
    }
  }

  lemma {:induction false} EvictKeepsNewest(db: Database)
    requires Evict(db).Ok?
    ensures KeepsNewest(db, Evict(db).value)
    decreases |db.tombstones|
  {
    if |db.tombstones| > TOMBSTONE_LIMIT {
      var k := OldestTombstone(db);
      var next := Unbury(db, db.tombstones[k]).value.(tombstones := db.tombstones - {k});
      MapRemoveSize(db.tombstones, k);
      assert Evict(db) == Evict(next);
      EvictKeepsNewest(next);
      EvictedOldest(db, k, next, Evict(db).value);
    }
  }

  // The stored heights are those from the baseline to the cursor, so the baseline says what was dropped.
  ghost predicate StartsAt(db: Database, r: Result<Database, Error>, from: int) {
    && r.Ok? && db.baseline.Some? && r.value.baseline == Some(if db.baseline.value < from then from else db.baseline.value)
    && forall m: Uint64 :: m in r.value.blocks <==> m in db.blocks && m >= from
  }

  lemma StartsFrom(db: Database, db': Database, from: int)
    requires Heights(db) && Heights(db') && db'.cursor == db.cursor && db.baseline.Some?
    requires db'.baseline == Some(if db.baseline.value < from then from else db.baseline.value)
    ensures StartsAt(db, Ok(db'), from)
  {
  }

  lemma DroppedStarts(c: Config, db: Database, until: Uint64, r: Result<Database, Error>)
    requires Core(c, db) && db.baseline.Some? && db.baseline.value < until && DroppedTo(c, db, until, r)
    ensures StartsAt(db, r, until)
  {
    StartsFrom(db, r.value, until);
  }

  lemma TrimmedFar(c: Config, db: Database, n: Uint64)
    requires Core(c, db) && db.checkpoint.Some? && n == db.checkpoint.value.number && db.baseline.Some?
    requires n - db.baseline.value + 1 > CANONICAL_BLOCK_LIMIT
    ensures StartsAt(db, DropUntil(db, db.baseline.value, n - CANONICAL_BLOCK_LIMIT + 1), n - CANONICAL_BLOCK_LIMIT + 1)
  {
    var until := n - CANONICAL_BLOCK_LIMIT + 1;
    var r := DropUntil(db, db.baseline.value, until);
    DropUntilKeeps(c, db, db.baseline.value, until, r);
    DroppedStarts(c, db, until, r);
  }

  // Trimming behind the checkpoint drops exactly the blocks that are too far behind it.
  lemma TrimIsExact(c: Config, db: Database, n: Uint64)
    requires Core(c, db) && db.checkpoint.Some? && n == db.checkpoint.value.number
    ensures StartsAt(db, Trim(db, n), n - CANONICAL_BLOCK_LIMIT + 1)
  {
    CheckpointStored(c, db);
    TrimCases(db, n);
    if n - db.baseline.value + 1 > CANONICAL_BLOCK_LIMIT {
      TrimmedFar(c, db, n);
    } else {
      StartsFrom(db, db, n - CANONICAL_BLOCK_LIMIT + 1);
    }
  }
}
