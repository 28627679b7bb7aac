/** Every transaction of the handoff store keeps the invariant. */
module StoreTransactions {
  import opened Prelude
  import opened Sorting
  import opened StoreModel
  import opened StoreSteps
  import opened StoreInvariant
  import opened StorePrimitives
  import opened StorePromotion
  import opened StoreAdvance
  import opened StoreFlows

  // A block leaves the store only when every member is acknowledged.
  ghost predicate BlocksStep(db: Database, db': Database, acked: Option<CandidateID>) {
    && (forall n {:trigger n in db'.blocks} | n in db'.blocks :: n in db.blocks && db'.blocks[n] == db.blocks[n])
    && (forall n {:trigger n in db.blocks} | n in db.blocks && n !in db'.blocks ::
          forall id | id in db.blocks[n].members :: IsAcknowledged(db.candidates, id) || acked == Some(id))
  }

  // What every transaction other than a commit guarantees.
  ghost predicate Sound(c: Config, db: Database, db': Database, acked: Option<CandidateID>) {
    Inv(c, db') && Flows(db, db', acked) && BlocksStep(db, db', acked) && db'.cursor == db.cursor
  }

  lemma SoundRefl(c: Config, db: Database)
    requires Inv(c, db)
    ensures Sound(c, db, db, None)
  {
    FlowsRefl(db);
  }

  // ---------- Promotion at the end of a transaction ----------

  // Everything but the queue's size, which promotion looks after.
  ghost predicate AlmostInv(c: Config, db: Database) {
    && Core(c, db) && |Unfinished(db.candidates)| <= c.Capacity() && |ObservedIds(db.candidates)| <= c.maxPending
    && |db.tombstones| <= TOMBSTONE_LIMIT && CheckpointMaximal(db) && WindowOk(db)
  }

  lemma PromoteInv(c: Config, db: Database, now: Time)
    requires AlmostInv(c, db) && Promote(c, db, now).Ok?
    ensures Inv(c, Promote(c, db, now).value) && Settling(db, Promote(c, db, now).value)
    ensures Promote(c, db, now).value.blocks == db.blocks
  {
    var db' := Promote(c, db, now).value;
    PromoteKeeps(c, db, now);
    PromotesSets(db, db');
    PromotionSettles(db, db');
    StillMaximal(db, db');
  }

  lemma PromoteSound(c: Config, db: Database, mid: Database, now: Time)
    requires AlmostInv(c, mid) && Flows(db, mid, None) && mid.blocks == db.blocks && mid.cursor == db.cursor && Promote(c, mid, now).Ok?
    ensures Sound(c, db, Promote(c, mid, now).value, None)
  {
    PromoteInv(c, mid, now);
    FlowsOn(db, mid, Promote(c, mid, now).value, None);
  }

  // ---------- Put and PutObserved ----------

  lemma NotScannedNotStored(c: Config, db: Database, candidate: Candidate)
    requires Heights(db) && !AlreadyScanned(db, candidate)
    ensures KeyOf(candidate).Some? ==> candidate.number !in db.blocks
  {
  }

  lemma StagedAlmost(c: Config, db: Database, candidate: Candidate)
    requires Inv(c, db) && ValidCandidate(c, candidate) && candidate.id !in db.candidates && !AlreadyScanned(db, candidate) && RoomFor(c, db, 1)
    ensures AlmostInv(c, AddCandidate(db, Staged, candidate))
  {
    NotScannedNotStored(c, db, candidate);
    AddKeeps(c, db, Staged, candidate);
    StageCounts(db, candidate);
    StillMaximal(db, AddCandidate(db, Staged, candidate));
  }

  lemma UpgradedAlmost(c: Config, db: Database, candidate: Candidate)
    requires Inv(c, db) && candidate.id in db.candidates && db.candidates[candidate.id].status == Observed && RoomFor(c, db, 1)
    ensures AlmostInv(c, Upgrade(db, candidate))
  {
    UpgradeKeeps(c, db, candidate);
    UpgradeCounts(db, candidate);
    StillMaximal(db, Upgrade(db, candidate));
  }

  lemma PutCases(c: Config, db: Database, candidate: Candidate, now: Time)
    ensures var outcome := DoPut(c, db, candidate, now);
            || outcome.after == db
            || (&& ValidCandidate(c, candidate) && RoomFor(c, db, 1)
                && (|| (&& candidate.id in db.candidates && db.candidates[candidate.id].status == Observed
                        && Promote(c, Upgrade(db, candidate), now) == Ok(outcome.after))
                    || (&& candidate.id !in db.candidates && !AlreadyScanned(db, candidate)
                        && Promote(c, AddCandidate(db, Staged, candidate), now) == Ok(outcome.after))))
  {
  }

  lemma UpgradeSound(c: Config, db: Database, candidate: Candidate, now: Time)
    requires Inv(c, db) && candidate.id in db.candidates && db.candidates[candidate.id].status == Observed && RoomFor(c, db, 1)
    requires Promote(c, Upgrade(db, candidate), now).Ok?
    ensures Sound(c, db, Promote(c, Upgrade(db, candidate), now).value, None)
  {
    UpgradedAlmost(c, db, candidate);
    UpgradeFlows(c, db, candidate);
    PromoteSound(c, db, Upgrade(db, candidate), now);
  }

  lemma StageSound(c: Config, db: Database, candidate: Candidate, now: Time)
    requires Inv(c, db) && ValidCandidate(c, candidate) && candidate.id !in db.candidates && !AlreadyScanned(db, candidate) && RoomFor(c, db, 1)
    requires Promote(c, AddCandidate(db, Staged, candidate), now).Ok?
    ensures Sound(c, db, Promote(c, AddCandidate(db, Staged, candidate), now).value, None)
  {
    StagedAlmost(c, db, candidate);
    AddFlows(db, Staged, candidate);
    PromoteSound(c, db, AddCandidate(db, Staged, candidate), now);
  }

  lemma PutSound(c: Config, db: Database, candidate: Candidate, now: Time)
    requires Inv(c, db)
    ensures Sound(c, db, DoPut(c, db, candidate, now).after, None)
  {
    PutCases(c, db, candidate, now);
    if DoPut(c, db, candidate, now).after == db {
      SoundRefl(c, db);
    } else if candidate.id in db.candidates {
      UpgradeSound(c, db, candidate, now);
    } else {
      StageSound(c, db, candidate, now);
    }
  }

  lemma ObservedInv(c: Config, db: Database, candidate: Candidate)
    requires Inv(c, db) && ValidCandidate(c, candidate) && candidate.id !in db.candidates && !AlreadyScanned(db, candidate)
    requires |ObservedIds(db.candidates)| < c.maxPending
    ensures Inv(c, AddCandidate(db, Observed, candidate))
  {
    NotScannedNotStored(c, db, candidate);
    AddKeeps(c, db, Observed, candidate);
    ObserveCounts(db, candidate);
    StillMaximal(db, AddCandidate(db, Observed, candidate));
  }

  lemma PutObservedSound(c: Config, db: Database, candidate: Candidate)
    requires Inv(c, db)
    ensures Sound(c, db, DoPutObserved(c, db, candidate).after, None)
  {
    if DoPutObserved(c, db, candidate).after == db {
      SoundRefl(c, db);
    } else {
      ObservedInv(c, db, candidate);
      AddFlows(db, Observed, candidate);
    }
  }

  // ---------- Next and PutIncident ----------

  lemma InvAlmost(c: Config, db: Database)
    requires Inv(c, db)
    ensures AlmostInv(c, db)
  {
  }

  lemma NextSound(c: Config, db: Database, now: Time)
    requires Inv(c, db)
    ensures Sound(c, db, DoNext(c, db, now).after, None)
  {
    if DoNext(c, db, now).after == db {
      SoundRefl(c, db);
    } else {
      FlowsRefl(db);
      InvAlmost(c, db);
      PromoteSound(c, db, db, now);
    }
  }

  lemma PutIncidentInv(c: Config, db: Database, incident: Incident)
    requires Inv(c, db) && ValidIncident(c, incident) && incident.network == c.network && incident.candidate in db.candidates
    requires db.candidates[incident.candidate].status != Observed && db.candidates[incident.candidate].status != Staged
    ensures Inv(c, db.(incidents := db.incidents[incident.candidate := incident]))
  {
    var db' := db.(incidents := db.incidents[incident.candidate := incident]);
    SameBlocks(c, db, db');
    SameTombstones(db, db');
    StillMaximal(db, db');
    PutIncidentRows(c, db, incident);
  }

  lemma PutIncidentRows(c: Config, db: Database, incident: Incident)
    requires IncidentRows(c, db) && ResolvedHaveIncidents(db) && IncidentsHandedOut(db) && Queue(db) && Index(db)
    requires ValidIncident(c, incident) && incident.network == c.network && incident.candidate in db.candidates
    requires db.candidates[incident.candidate].status != Observed && db.candidates[incident.candidate].status != Staged
    ensures var db' := db.(incidents := db.incidents[incident.candidate := incident]);
            IncidentRows(c, db') && ResolvedHaveIncidents(db') && IncidentsHandedOut(db') && Queue(db') && Index(db')
  {
  }

  lemma PutIncidentCases(c: Config, db: Database, incident: Incident)
    ensures var db' := DoPutIncident(c, db, incident).after;
            || db' == db
            || (&& ValidIncident(c, incident) && incident.network == c.network && incident.candidate in db.candidates
                && db.candidates[incident.candidate].status != Observed && db.candidates[incident.candidate].status != Staged
                && db' == db.(incidents := db.incidents[incident.candidate := incident]))
  {
  }

  lemma IncidentsFlow(db: Database, incidents: map<CandidateID, Incident>)
    ensures Flows(db, db.(incidents := incidents), None)
  {
  }

  lemma PutIncidentSound(c: Config, db: Database, incident: Incident)
    requires Inv(c, db)
    ensures Sound(c, db, DoPutIncident(c, db, incident).after, None)
  {
    PutIncidentCases(c, db, incident);
    if DoPutIncident(c, db, incident).after == db {
      SoundRefl(c, db);
    } else {
      PutIncidentInv(c, db, incident);
      IncidentsFlow(db, db.incidents[incident.candidate := incident]);
    }
  }

  // ---------- Advancing inside a transaction ----------

  lemma AdvanceWindow(c: Config, db: Database, db': Database)
    requires Advances(db, db') && WindowOk(db) && Trimmed(db') && Heights(db) && Chain(c, db') && CheckpointSound(db')
    ensures WindowOk(db')
  {
    if db'.checkpoint.Some? {
      CheckpointStored(c, db');
    }
  }

  // Before advancing: the checkpoint may lag behind.
  ghost predicate Lagging(c: Config, db: Database) {
    && Core(c, db) && |Unfinished(db.candidates)| <= c.Capacity() && |ObservedIds(db.candidates)| <= c.maxPending
    && |db.tombstones| <= TOMBSTONE_LIMIT && WindowOk(db)
  }

  lemma WindowTrimmed(c: Config, db: Database)
    requires Heights(db) && WindowOk(db)
    ensures Trimmed(db)
  {
  }

  lemma AdvanceAlmost(c: Config, db: Database)
    requires Lagging(c, db) && Advance(db).Ok?
    ensures AlmostInv(c, Advance(db).value) && Advances(db, Advance(db).value) && Settling(db, Advance(db).value)
  {
    WindowTrimmed(c, db);
    AdvanceKeeps(c, db);
    var db' := Advance(db).value;
    AdvanceWindow(c, db, db');
    AdvanceSettles(db, db');
    FewerCounts(db, db');
  }

  // ---------- MarkRemoved ----------

  lemma DiscardLagging(c: Config, db: Database, ids: set<CandidateID>)
    requires Inv(c, db) && AllObserved(db, ids)
    ensures Lagging(c, Discard(db, ids)) && Discard(db, ids).pending == db.pending
  {
    DiscardKeeps(c, db, ids);
    DiscardIsRemoved(c, db, ids);
    FewerCounts(db, Discard(db, ids));
  }

  // What the advance drops was acknowledged before the transaction, or by it.
  lemma DropStep(db: Database, mid: Database, after: Database, acked: Option<CandidateID>)
    requires Advances(mid, after) && mid.blocks == db.blocks
    requires forall id: CandidateID | IsAcknowledged(mid.candidates, id) :: IsAcknowledged(db.candidates, id) || acked == Some(id)
    ensures BlocksStep(db, after, acked)
  {
    forall n | n in db.blocks && n !in after.blocks
      ensures forall id | id in db.blocks[n].members :: IsAcknowledged(db.candidates, id) || acked == Some(id)
    {
      assert AllAcknowledged(mid, mid.blocks[n]);
    }
  }

  lemma MarkRemovedCases(c: Config, db: Database, id: CandidateID)
    ensures var db' := DoMarkRemoved(c, db, id).after;
            || db' == db
            || (id in db.candidates && db.candidates[id].status == Observed && Advance(Discard(db, {id})) == Ok(db'))
  {
  }

  lemma MarkRemovedSound(c: Config, db: Database, id: CandidateID)
    requires Inv(c, db)
    ensures Sound(c, db, DoMarkRemoved(c, db, id).after, None)
  {
    MarkRemovedCases(c, db, id);
    var db' := DoMarkRemoved(c, db, id).after;
    if db' == db {
      SoundRefl(c, db);
    } else {
      var mid := Discard(db, {id});
      DiscardLagging(c, db, {id});
      DiscardFlows(c, db, {id});
      AdvanceAlmost(c, mid);
      FlowsOn(db, mid, db', None);
      DropStep(db, mid, db', None);
    }
  }

  // ---------- Ack and Nack ----------

  lemma NackAlmost(c: Config, db: Database, id: CandidateID, retryAt: Time)
    requires Inv(c, db) && IsReady(db.candidates, id) && id in db.pending && id in db.incidents && retryAt != UNSET
    ensures AlmostInv(c, Dequeue(db, id, Record(Delayed, retryAt, db.candidates[id].candidate)))
  {
    PostponeKeeps(c, db, id, retryAt);
    NackFrame(db, id, Record(Delayed, retryAt, db.candidates[id].candidate));
  }

  lemma NackFrame(db: Database, id: CandidateID, record: Record)
    requires IsReady(db.candidates, id) && id in db.pending && record.status == Delayed && CheckpointMaximal(db)
    ensures var db' := Dequeue(db, id, record);
            && |Unfinished(db'.candidates)| <= |Unfinished(db.candidates)| && |ObservedIds(db'.candidates)| <= |ObservedIds(db.candidates)|
            && CheckpointMaximal(db')
  {
    var db' := Dequeue(db, id, record);
    FewerCounts(db, db');
    StillMaximal(db, db');
  }

  lemma NackCases(c: Config, db: Database, id: CandidateID, incident: IncidentID, retryAt: Time, now: Time)
    ensures var db' := DoNack(c, db, id, incident, retryAt, now).after;
            || db' == db
            || (&& IsReady(db.candidates, id) && id in db.pending && id in db.incidents && retryAt != UNSET
                && Promote(c, Dequeue(db, id, Record(Delayed, retryAt, db.candidates[id].candidate)), now) == Ok(db'))
  {
  }

  lemma NackSound(c: Config, db: Database, id: CandidateID, incident: IncidentID, retryAt: Time, now: Time)
    requires Inv(c, db)
    ensures Sound(c, db, DoNack(c, db, id, incident, retryAt, now).after, None)
  {
    NackCases(c, db, id, incident, retryAt, now);
    if DoNack(c, db, id, incident, retryAt, now).after == db {
      SoundRefl(c, db);
    } else {
      NackAlmost(c, db, id, retryAt);
      PostponeFlows(db, id, retryAt);
      PromoteSound(c, db, Dequeue(db, id, Record(Delayed, retryAt, db.candidates[id].candidate)), now);
    }
  }

  predicate Acknowledgeable(db: Database, id: CandidateID) {
    IsReady(db.candidates, id) && id in db.pending && id in db.incidents && db.tombstoneSequence < MAX_UINT64
  }

  lemma AckCounts(db: Database, mid: Database, evicted: Database, id: CandidateID)
    requires Acknowledgeable(db, id) && mid == Acknowledge(db, id) && OnlyForgets(mid, evicted)
    ensures |Unfinished(evicted.candidates)| <= |Unfinished(db.candidates)|
    ensures |ObservedIds(evicted.candidates)| <= |ObservedIds(db.candidates)|
  {
    FewerCounts(db, mid);
    FewerCounts(mid, evicted);
  }

  lemma AckLagging(c: Config, db: Database, id: CandidateID)
    requires Inv(c, db) && Acknowledgeable(db, id)
    ensures Evict(Acknowledge(db, id)).Ok?
    ensures Lagging(c, Evict(Acknowledge(db, id)).value) && OnlyForgets(Acknowledge(db, id), Evict(Acknowledge(db, id)).value)
  {
    var mid := Acknowledge(db, id);
    AcknowledgeKeeps(c, db, id);
    EvictKeeps(c, mid);
    EvictFrame(mid);
    AckCounts(db, mid, Evict(mid).value, id);
  }

  lemma AckFlows(db: Database, id: CandidateID, evicted: Database, advanced: Database)
    requires Acknowledgeable(db, id) && OnlyForgets(Acknowledge(db, id), evicted) && Advances(evicted, advanced)
    ensures Flows(db, advanced, Some(id))
  {
    AcknowledgeFlows(db, id);
    EvictionSettles(Acknowledge(db, id), evicted);
    FlowsOn(db, Acknowledge(db, id), evicted, Some(id));
    AdvanceSettles(evicted, advanced);
    FlowsOn(db, evicted, advanced, Some(id));
  }

  lemma AckBlocks(db: Database, id: CandidateID, evicted: Database, advanced: Database)
    requires Acknowledgeable(db, id) && OnlyForgets(Acknowledge(db, id), evicted) && Advances(evicted, advanced)
    ensures BlocksStep(db, advanced, Some(id)) && advanced.cursor == db.cursor
  {
    forall other: CandidateID | IsAcknowledged(evicted.candidates, other)
      ensures IsAcknowledged(db.candidates, other) || other == id
    {
      assert evicted.candidates[other] == Acknowledge(db, id).candidates[other];
    }
    DropStep(db, evicted, advanced, Some(id));
  }

  // The part of an acknowledgement before promotion.
  lemma AckAdvances(c: Config, db: Database, id: CandidateID, evicted: Database, advanced: Database)
    requires Inv(c, db) && Acknowledgeable(db, id)
    requires Evict(Acknowledge(db, id)) == Ok(evicted) && Advance(evicted) == Ok(advanced)
    ensures AlmostInv(c, advanced) && Flows(db, advanced, Some(id)) && BlocksStep(db, advanced, Some(id)) && advanced.cursor == db.cursor
  {
    AckLagging(c, db, id);
    AdvanceAlmost(c, evicted);
    AckFlows(db, id, evicted, advanced);
    AckBlocks(db, id, evicted, advanced);
  }

  lemma AckCases(c: Config, db: Database, id: CandidateID, incident: IncidentID, now: Time)
    ensures var outcome := DoAck(c, db, id, incident, now);
            || (outcome.after == db && (outcome.result.Ok? ==> IsAcknowledged(db.candidates, id)))
            || (outcome.result.Ok? && Acknowledgeable(db, id) && Settle(c, Acknowledge(db, id), now) == Ok(outcome.after))
  {
  }

  lemma SettleCases(c: Config, buried: Database, now: Time) returns (evicted: Database, advanced: Database)
    requires Settle(c, buried, now).Ok?
    ensures Evict(buried) == Ok(evicted) && Advance(evicted) == Ok(advanced) && Promote(c, advanced, now) == Settle(c, buried, now)
  {
    evicted := Evict(buried).value;
    advanced := Advance(evicted).value;
  }

  lemma BlocksStepSame(db: Database, mid: Database, after: Database, acked: Option<CandidateID>)
    requires BlocksStep(db, mid, acked) && after.blocks == mid.blocks
    ensures BlocksStep(db, after, acked)
  {
  }

  lemma SoundWeaken(c: Config, db: Database, id: CandidateID)
    requires Inv(c, db) && IsAcknowledged(db.candidates, id)
    ensures Sound(c, db, db, Some(id))
  {
    FlowsRefl(db);
  }

  lemma AckSound(c: Config, db: Database, id: CandidateID, incident: IncidentID, now: Time)
    requires Inv(c, db)
    ensures var outcome := DoAck(c, db, id, incident, now);
            Sound(c, db, outcome.after, if outcome.result.Ok? then Some(id) else None)
  {
    AckCases(c, db, id, incident, now);
    var outcome := DoAck(c, db, id, incident, now);
    if outcome.after == db && (outcome.result.Ok? ==> IsAcknowledged(db.candidates, id)) {
      SoundRefl(c, db);
      if outcome.result.Ok? {
        SoundWeaken(c, db, id);
      }
    } else {
      var evicted, advanced := SettleCases(c, Acknowledge(db, id), now);
      AckAdvances(c, db, id, evicted, advanced);
      PromoteInv(c, advanced, now);
      FlowsOn(db, advanced, outcome.after, Some(id));
      BlocksStepSame(db, advanced, outcome.after, Some(id));
    }
  }
}
