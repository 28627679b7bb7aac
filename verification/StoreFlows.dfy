/** How candidates move through the store: what a step may do to a record it did not create. */
module StoreFlows {
  import opened Prelude
  import opened Sorting
  import opened StoreModel
  import opened StoreSteps
  import opened StoreInvariant
  import opened StorePrimitives
  import opened StorePromotion
  import opened StoreAdvance

  predicate IsUnfinished(m: map<CandidateID, Record>, id: CandidateID) { id in m && m[id].status.Unfinished() }

  // Unfinished candidates stay, unless this is the one being acknowledged.
  ghost predicate UnfinishedStay(db: Database, db': Database, acked: Option<CandidateID>) {
    forall id: CandidateID {:trigger IsUnfinished(db.candidates, id)} | IsUnfinished(db.candidates, id) && acked != Some(id) ::
      IsUnfinished(db'.candidates, id)
  }

  // Acknowledged candidates are at most forgotten.
  ghost predicate AcknowledgedStay(db: Database, db': Database, acked: Option<CandidateID>) {
    forall id {:trigger id in db'.candidates} | id in db'.candidates && (IsAcknowledged(db.candidates, id) || acked == Some(id)) ::
      IsAcknowledged(db'.candidates, id)
  }

  // Nothing enters from a height that was already scanned.
  ghost predicate NewcomersUnscanned(db: Database, db': Database) {
    forall id {:trigger id in db'.candidates} | id in db'.candidates && id !in db.candidates ::
      !AlreadyScanned(db, db'.candidates[id].candidate)
  }

  predicate CursorGrows(db: Database, db': Database) {
    db.cursor.Some? ==> db'.cursor.Some? && db.cursor.value.number <= db'.cursor.value.number
  }

  ghost predicate IdentityKept(db: Database, db': Database) {
    forall id {:trigger id in db'.candidates} | id in db'.candidates && id in db.candidates ::
      SameIdentity(db.candidates[id].candidate, db'.candidates[id].candidate)
  }

  // Only the candidate being acknowledged becomes acknowledged.
  ghost predicate AckedOnly(db: Database, db': Database, acked: Option<CandidateID>) {
    forall id: CandidateID {:trigger IsAcknowledged(db'.candidates, id)} | IsAcknowledged(db'.candidates, id) ::
      IsAcknowledged(db.candidates, id) || acked == Some(id)
  }

  ghost predicate Flows(db: Database, db': Database, acked: Option<CandidateID>) {
    && AckedOnly(db, db', acked)
    && UnfinishedStay(db, db', acked) && AcknowledgedStay(db, db', acked) && NewcomersUnscanned(db, db')
    && IdentityKept(db, db') && CursorGrows(db, db') && CheckpointGrows(db, db')
  }

  // The later part of a transaction never brings in candidates.
  ghost predicate Settling(db: Database, db': Database) {
    && AckedOnly(db, db', None)
    && UnfinishedStay(db, db', None) && AcknowledgedStay(db, db', None) && IdentityKept(db, db')
    && db'.candidates.Keys <= db.candidates.Keys
    && db'.cursor == db.cursor && CheckpointGrows(db, db')
  }

  lemma FlowsOn(a: Database, b: Database, d: Database, acked: Option<CandidateID>)
    requires Flows(a, b, acked) && Settling(b, d)
    ensures Flows(a, d, acked)
  {
    forall id: CandidateID | IsUnfinished(a.candidates, id) && acked != Some(id) ensures IsUnfinished(d.candidates, id) {
      assert IsUnfinished(b.candidates, id);
    }
    forall id | id in d.candidates
      ensures id in b.candidates && SameIdentity(b.candidates[id].candidate, d.candidates[id].candidate)
    {
    }
  }

  lemma SettlingOn(a: Database, b: Database, d: Database)
    requires Settling(a, b) && Settling(b, d)
    ensures Settling(a, d)
  {
    forall id | IsUnfinished(a.candidates, id) ensures IsUnfinished(d.candidates, id) {
      assert IsUnfinished(b.candidates, id);
    }
    forall id | id in d.candidates
      ensures id in b.candidates && SameIdentity(b.candidates[id].candidate, d.candidates[id].candidate)
    {
    }
  }

  lemma FlowsRefl(db: Database)
    ensures Flows(db, db, None)
  {
  }

  lemma PromotionSettles(db: Database, db': Database)
    requires Promotes(db, db')
    ensures Settling(db, db')
  {
    forall id | id in db'.candidates ensures id in db.candidates && PromotedRecord(db.candidates[id], db'.candidates[id]) {
    }
  }

  lemma AdvanceSettles(db: Database, db': Database)
    requires Advances(db, db')
    ensures Settling(db, db')
  {
  }

  lemma EvictionSettles(db: Database, db': Database)
    requires OnlyForgets(db, db')
    ensures Settling(db, db')
  {
  }

  lemma AddFlows(db: Database, status: Status, candidate: Candidate)
    requires candidate.id !in db.candidates && !AlreadyScanned(db, candidate) && status != Acknowledged
    ensures Flows(db, AddCandidate(db, status, candidate), None)
  {
  }

  lemma UpgradeFlows(c: Config, db: Database, candidate: Candidate)
    requires Rows(c, db.candidates) && candidate.id in db.candidates && db.candidates[candidate.id].status == Observed
    ensures Flows(db, Upgrade(db, candidate), None)
  {
  }

  lemma PostponeFlows(db: Database, id: CandidateID, retryAt: Time)
    requires IsReady(db.candidates, id) && id in db.pending
    ensures Flows(db, Dequeue(db, id, Record(Delayed, retryAt, db.candidates[id].candidate)), None)
  {
  }

  lemma AcknowledgeFlows(db: Database, id: CandidateID)
    requires IsReady(db.candidates, id) && id in db.pending && db.tombstoneSequence < MAX_UINT64
    ensures Flows(db, Acknowledge(db, id), Some(id))
  {
  }

  lemma DiscardFlows(c: Config, db: Database, ids: set<CandidateID>)
    requires AllObserved(db, ids)
    ensures Flows(db, Discard(db, ids), None)
  {
  }

  // ---------- Counting ----------

  lemma {:induction false} SubsetSize<T>(a: set<T>, b: set<T>)
    requires a <= b
    ensures |a| <= |b|
  {
    if a != {} {
      var x :| x in a;
      SubsetSize(a - {x}, b - {x});
    }
  }

  lemma StageCounts(db: Database, candidate: Candidate)
    requires candidate.id !in db.candidates
    ensures var m := AddCandidate(db, Staged, candidate).candidates;
            |Unfinished(m)| <= |Unfinished(db.candidates)| + 1 && |ObservedIds(m)| <= |ObservedIds(db.candidates)|
  {
    var m := AddCandidate(db, Staged, candidate).candidates;
    SubsetSize(Unfinished(m), Unfinished(db.candidates) + {candidate.id});
    SubsetSize(ObservedIds(m), ObservedIds(db.candidates));
  }

  lemma ObserveCounts(db: Database, candidate: Candidate)
    requires candidate.id !in db.candidates
    ensures var m := AddCandidate(db, Observed, candidate).candidates;
            |Unfinished(m)| <= |Unfinished(db.candidates)| && |ObservedIds(m)| <= |ObservedIds(db.candidates)| + 1
  {
    var m := AddCandidate(db, Observed, candidate).candidates;
    SubsetSize(Unfinished(m), Unfinished(db.candidates));
    SubsetSize(ObservedIds(m), ObservedIds(db.candidates) + {candidate.id});
  }

  lemma UpgradeCounts(db: Database, candidate: Candidate)
    requires candidate.id in db.candidates && db.candidates[candidate.id].status == Observed
    ensures var m := Upgrade(db, candidate).candidates;
            |Unfinished(m)| <= |Unfinished(db.candidates)| + 1 && |ObservedIds(m)| <= |ObservedIds(db.candidates)|
  {
    var m := Upgrade(db, candidate).candidates;
    SubsetSize(Unfinished(m), Unfinished(db.candidates) + {candidate.id});
    SubsetSize(ObservedIds(m), ObservedIds(db.candidates));
  }

  // Nothing unfinished or observed appears.
  lemma FewerCounts(db: Database, db': Database)
    requires forall id | id in db'.candidates :: id in db.candidates && (db'.candidates[id].status == db.candidates[id].status ||
                                                 (db.candidates[id].status == Ready && db'.candidates[id].status != Observed))
    ensures |Unfinished(db'.candidates)| <= |Unfinished(db.candidates)|
    ensures |ObservedIds(db'.candidates)| <= |ObservedIds(db.candidates)|
  {
    SubsetSize(Unfinished(db'.candidates), Unfinished(db.candidates));
    SubsetSize(ObservedIds(db'.candidates), ObservedIds(db.candidates));
  }

  // ---------- A checkpoint that stays where it is ----------

  lemma StillMaximal(db: Database, db': Database)
    requires CheckpointMaximal(db) && db'.baseline == db.baseline && db'.checkpoint == db.checkpoint && db'.blocks == db.blocks
    requires forall id | IsAcknowledged(db'.candidates, id) :: IsAcknowledged(db.candidates, id)
    ensures CheckpointMaximal(db')
  {
  }
}
