/** Each elementary change to the handoff database keeps its records and indexes consistent. */
module StorePrimitives {
  import opened Prelude
  import opened Sorting
  import opened StoreModel
  import opened StoreSteps
  import opened StoreInvariant

  // ---------- One record changes its status ----------

  // db' differs from db in one candidate record, and possibly in the ready queue.
  ghost predicate Restatused(db: Database, db': Database, id: CandidateID) {
    && id in db.candidates && id in db'.candidates
    && db'.candidates == db.candidates[id := db'.candidates[id]]
    && SameIdentity(db.candidates[id].candidate, db'.candidates[id].candidate)
    && db' == db.(candidates := db'.candidates, pending := db'.pending, order := db'.order, orderSequence := db'.orderSequence)
  }

  lemma RestatusedRows(c: Config, db: Database, db': Database, id: CandidateID)
    requires Rows(c, db.candidates) && Index(db) && Restatused(db, db', id)
    requires db'.candidates[id].status == Delayed <==> db'.candidates[id].retryAt != UNSET
    ensures Rows(c, db'.candidates) && Index(db')
  {
    var a, b := db.candidates[id].candidate, db'.candidates[id].candidate;
    assert KeyOf(a) == KeyOf(b);
    assert ValidRecord(c, id, db.candidates[id]);
    assert a.(id := 0, detail := 0) == b.(id := 0, detail := 0);
  }

  lemma RestatusedIncidents(c: Config, db: Database, db': Database, id: CandidateID)
    requires IncidentRows(c, db) && ResolvedHaveIncidents(db) && IncidentsHandedOut(db) && Restatused(db, db', id)
    requires match db'.candidates[id].status
             case Observed => id !in db.incidents
             case Staged => id !in db.incidents
             case Ready => true
             case Delayed => id in db.incidents
             case Acknowledged => id in db.incidents
    ensures IncidentRows(c, db') && ResolvedHaveIncidents(db') && IncidentsHandedOut(db')
  {
  }

  lemma RestatusedMembers(c: Config, db: Database, db': Database, id: CandidateID)
    requires Chain(c, db) && Members(db) && CheckpointSound(db) && Restatused(db, db', id)
    requires db'.candidates[id].status != Observed
    requires db.candidates[id].status == Acknowledged ==> db'.candidates[id].status == Acknowledged
    ensures Chain(c, db') && Members(db') && CheckpointSound(db')
  {
    assert KeyOf(db.candidates[id].candidate).Some? == KeyOf(db'.candidates[id].candidate).Some?;
    forall n {:trigger db'.blocks[n]} | db'.checkpoint.Some? && n in db'.blocks && n <= db'.checkpoint.value.number
      ensures AllAcknowledged(db', db'.blocks[n])
    {
      assert AllAcknowledged(db, db.blocks[n]);
    }
    forall n: Uint64 ensures LinkedAt(db', n) {
      assert LinkedAt(db, n);
    }
  }

  lemma RestatusedTombstones(db: Database, db': Database, id: CandidateID)
    requires Tombstones(db) && Restatused(db, db', id)
    requires db.candidates[id].status != Acknowledged && db'.candidates[id].status != Acknowledged
    ensures Tombstones(db')
  {
    forall other | IsAcknowledged(db'.candidates, other)
      ensures Buried(db'.tombstones, other) || Retained(db', db'.candidates[other].candidate)
    {
      assert IsAcknowledged(db.candidates, other);
    }
  }

  // ---------- A new candidate ----------

  lemma AddRows(c: Config, db: Database, status: Status, candidate: Candidate)
    requires Rows(c, db.candidates) && Index(db) && Queue(db)
    requires ValidCandidate(c, candidate) && candidate.id !in db.candidates && (status == Observed || status == Staged)
    ensures var db' := AddCandidate(db, status, candidate);
            Rows(c, db'.candidates) && Index(db') && Queue(db')
  {
    var db' := AddCandidate(db, status, candidate);
    forall id | IsReady(db'.candidates, id) ensures id in db'.pending {
      assert IsReady(db.candidates, id);
    }
  }

  lemma AddIncidents(c: Config, db: Database, status: Status, candidate: Candidate)
    requires IncidentRows(c, db) && ResolvedHaveIncidents(db) && IncidentsHandedOut(db) && Tombstones(db)
    requires candidate.id !in db.candidates && (status == Observed || status == Staged)
    ensures var db' := AddCandidate(db, status, candidate);
            IncidentRows(c, db') && ResolvedHaveIncidents(db') && IncidentsHandedOut(db') && Tombstones(db')
  {
    var db' := AddCandidate(db, status, candidate);
    forall id | IsAcknowledged(db'.candidates, id)
      ensures Buried(db'.tombstones, id) || Retained(db', db'.candidates[id].candidate)
    {
      assert IsAcknowledged(db.candidates, id);
    }
  }

  lemma AddMembers(c: Config, db: Database, status: Status, candidate: Candidate)
    requires Chain(c, db) && Members(db) && CheckpointSound(db)
    requires candidate.id !in db.candidates && (KeyOf(candidate).Some? ==> candidate.number !in db.blocks)
    ensures var db' := AddCandidate(db, status, candidate);
            Chain(c, db') && Members(db') && CheckpointSound(db')
  {
    var db' := AddCandidate(db, status, candidate);
    forall n {:trigger db'.blocks[n]} | db'.checkpoint.Some? && n in db'.blocks && n <= db'.checkpoint.value.number
      ensures AllAcknowledged(db', db'.blocks[n])
    {
      assert AllAcknowledged(db, db.blocks[n]);
    }
    forall n: Uint64 ensures LinkedAt(db', n) {
      assert LinkedAt(db, n);
    }
  }

  lemma AddKeeps(c: Config, db: Database, status: Status, candidate: Candidate)
    requires Core(c, db) && ValidCandidate(c, candidate) && candidate.id !in db.candidates
    requires (status == Observed || status == Staged) && (KeyOf(candidate).Some? ==> candidate.number !in db.blocks)
    ensures Core(c, AddCandidate(db, status, candidate))
  {
    AddRows(c, db, status, candidate);
    AddIncidents(c, db, status, candidate);
    AddMembers(c, db, status, candidate);
  }

  lemma UpgradeKeeps(c: Config, db: Database, candidate: Candidate)
    requires Core(c, db) && candidate.id in db.candidates && db.candidates[candidate.id].status == Observed
    ensures Core(c, Upgrade(db, candidate))
  {
    var db' := Upgrade(db, candidate);
    var id := candidate.id;
    assert id !in db.incidents && id !in db.pending;
    RestatusedRows(c, db, db', id);
    RestatusedIncidents(c, db, db', id);
    RestatusedMembers(c, db, db', id);
    RestatusedTombstones(db, db', id);
    UpgradeQueue(db, candidate);
  }

  lemma UpgradeQueue(db: Database, candidate: Candidate)
    requires Queue(db) && candidate.id in db.candidates && db.candidates[candidate.id].status == Observed
    ensures Queue(Upgrade(db, candidate))
  {
    var db' := Upgrade(db, candidate);
    forall id | IsReady(db'.candidates, id) ensures id in db'.pending {
      assert IsReady(db.candidates, id);
    }
  }

  // ---------- The ready queue ----------

  lemma EnqueueQueue(db: Database, id: CandidateID)
    requires Queue(db) && id in db.candidates && db.candidates[id].status != Ready && db.orderSequence < MAX_UINT64
    ensures Queue(Enqueue(db, id)) && id !in db.pending && db.orderSequence + 1 !in db.order
  {
    var db' := Enqueue(db, id);
    assert !IsReady(db.candidates, id);
    forall other | IsReady(db'.candidates, other) ensures other in db'.pending {
      assert other != id ==> IsReady(db.candidates, other);
    }
  }

  lemma EnqueueKeeps(c: Config, db: Database, id: CandidateID)
    requires Core(c, db) && id in db.candidates && db.orderSequence < MAX_UINT64
    requires db.candidates[id].status == Staged || db.candidates[id].status == Delayed
    ensures Core(c, Enqueue(db, id))
  {
    var db' := Enqueue(db, id);
    EnqueueQueue(db, id);
    RestatusedRows(c, db, db', id);
    RestatusedIncidents(c, db, db', id);
    RestatusedMembers(c, db, db', id);
    RestatusedTombstones(db, db', id);
  }

  lemma DequeueQueue(db: Database, id: CandidateID, record: Record)
    requires Queue(db) && id in db.candidates && id in db.pending && record.status != Ready
    ensures Queue(Dequeue(db, id, record))
  {
    var db' := Dequeue(db, id, record);
    forall other | IsReady(db'.candidates, other) ensures other in db'.pending {
      assert IsReady(db.candidates, other);
    }
  }

  lemma PostponeKeeps(c: Config, db: Database, id: CandidateID, retryAt: Time)
    requires Core(c, db) && IsReady(db.candidates, id) && id in db.pending && id in db.incidents && retryAt != UNSET
    ensures Core(c, Dequeue(db, id, Record(Delayed, retryAt, db.candidates[id].candidate)))
  {
    var record := Record(Delayed, retryAt, db.candidates[id].candidate);
    var db' := Dequeue(db, id, record);
    DequeueQueue(db, id, record);
    RestatusedRows(c, db, db', id);
    RestatusedIncidents(c, db, db', id);
    RestatusedMembers(c, db, db', id);
    RestatusedTombstones(db, db', id);
  }

  // ---------- Acknowledging ----------

  function Acknowledge(db: Database, id: CandidateID): Database
    requires id in db.candidates && id in db.pending && db.tombstoneSequence < MAX_UINT64
  {
    Bury(Dequeue(db, id, Record(Acknowledged, UNSET, db.candidates[id].candidate)), id)
  }

  lemma AcknowledgeTombstones(db: Database, id: CandidateID)
    requires Tombstones(db) && IsReady(db.candidates, id) && id in db.pending && db.tombstoneSequence < MAX_UINT64
    ensures Tombstones(Acknowledge(db, id)) && db.tombstoneSequence + 1 !in db.tombstones
  {
    var db' := Acknowledge(db, id);
    var k := db.tombstoneSequence + 1;
    assert db'.tombstones[k] == id;
    forall other | IsAcknowledged(db'.candidates, other)
      ensures Buried(db'.tombstones, other) || Retained(db', db'.candidates[other].candidate)
    {
      if other == id {
        assert k in db'.tombstones;
      } else {
        assert IsAcknowledged(db.candidates, other);
        if j :| j in db.tombstones && db.tombstones[j] == other {
          assert j in db'.tombstones && db'.tombstones[j] == other;
        }
      }
    }
  }

  lemma AcknowledgeKeeps(c: Config, db: Database, id: CandidateID)
    requires Core(c, db) && IsReady(db.candidates, id) && id in db.pending && id in db.incidents && db.tombstoneSequence < MAX_UINT64
    ensures Core(c, Acknowledge(db, id))
  {
    var record := Record(Acknowledged, UNSET, db.candidates[id].candidate);
    var db' := Dequeue(db, id, record);
    DequeueQueue(db, id, record);
    RestatusedRows(c, db, db', id);
    RestatusedIncidents(c, db, db', id);
    RestatusedMembers(c, db, db', id);
    AcknowledgeTombstones(db, id);
    BuryKeeps(c, db', id);
  }

  // Burying touches nothing but the tombstones.
  lemma BuryKeeps(c: Config, db: Database, id: CandidateID)
    requires db.tombstoneSequence < MAX_UINT64
    requires Queue(db) && Index(db) && IncidentRows(c, db) && ResolvedHaveIncidents(db) && IncidentsHandedOut(db)
    requires Chain(c, db) && Members(db) && CheckpointSound(db)
    ensures var db' := Bury(db, id);
            && Queue(db') && Index(db') && IncidentRows(c, db') && ResolvedHaveIncidents(db') && IncidentsHandedOut(db')
            && Chain(c, db') && Members(db') && CheckpointSound(db')
  {
    SameBlocks(c, db, Bury(db, id));
  }

  // Everything about blocks depends on the candidates, the index, the blocks and the markers only.
  lemma SameBlocks(c: Config, db: Database, db': Database)
    requires Chain(c, db) && Members(db) && CheckpointSound(db)
    requires db'.candidates == db.candidates && db'.index == db.index && db'.blocks == db.blocks
    requires db'.baseline == db.baseline && db'.cursor == db.cursor && db'.checkpoint == db.checkpoint
    ensures Chain(c, db') && Members(db') && CheckpointSound(db')
  {
    forall n: Uint64 ensures LinkedAt(db', n) {
      assert LinkedAt(db, n);
    }
    forall n {:trigger db'.blocks[n]} | db'.checkpoint.Some? && n in db'.blocks && n <= db'.checkpoint.value.number
      ensures AllAcknowledged(db', db'.blocks[n])
    {
      assert AllAcknowledged(db, db.blocks[n]);
    }
  }

  // ---------- Removing candidates ----------

  // The candidates of ids go, with their index entries and incidents; nothing else changes.
  ghost predicate Removed(db: Database, db': Database, ids: set<CandidateID>) {
    && db'.candidates == db.candidates - ids
    && db'.index == db.index - KeysOf(db, ids)
    && db'.incidents == db.incidents - ids
    && db'.pending == db.pending && db'.order == db.order && db'.orderSequence == db.orderSequence
  }

  lemma RemovedRows(c: Config, db: Database, db': Database, ids: set<CandidateID>)
    requires Rows(c, db.candidates) && Index(db) && Queue(db) && Removed(db, db', ids)
    requires forall id | id in ids :: !IsReady(db.candidates, id)
    ensures Rows(c, db'.candidates) && Index(db') && Queue(db')
  {
    forall k | k in db'.index ensures k.id in db'.candidates && KeyOf(db'.candidates[k.id].candidate) == Some(k) {
      assert k in db.index;
    }
    forall id {:trigger db'.candidates[id]} | id in db'.candidates && KeyOf(db'.candidates[id].candidate).Some?
      ensures KeyOf(db'.candidates[id].candidate).value in db'.index
    {
      assert ValidRecord(c, id, db.candidates[id]);
    }
    forall id | IsReady(db'.candidates, id) ensures id in db'.pending {
      assert IsReady(db.candidates, id);
    }
  }

  lemma RemovedIncidents(c: Config, db: Database, db': Database, ids: set<CandidateID>)
    requires IncidentRows(c, db) && ResolvedHaveIncidents(db) && IncidentsHandedOut(db) && Removed(db, db', ids)
    ensures IncidentRows(c, db') && ResolvedHaveIncidents(db') && IncidentsHandedOut(db')
  {
  }

  // None of the removed candidates is a member of a block that stays.
  lemma RemovedMembers(c: Config, db: Database, db': Database, ids: set<CandidateID>)
    requires Chain(c, db) && Members(db) && CheckpointSound(db) && Removed(db, db', ids)
    requires db'.blocks == db.blocks && db'.baseline == db.baseline && db'.cursor == db.cursor && db'.checkpoint == db.checkpoint
    requires forall n, id {:trigger id in db.blocks[n].members} | n in db.blocks && id in db.blocks[n].members :: id !in ids
    ensures Chain(c, db') && Members(db') && CheckpointSound(db')
  {
    forall n: Uint64 ensures LinkedAt(db', n) {
      assert LinkedAt(db, n);
    }
    forall n {:trigger db'.blocks[n]} | db'.checkpoint.Some? && n in db'.blocks && n <= db'.checkpoint.value.number
      ensures AllAcknowledged(db', db'.blocks[n])
    {
      assert AllAcknowledged(db, db.blocks[n]);
    }
  }

  lemma RemovedTombstones(db: Database, db': Database, ids: set<CandidateID>)
    requires Tombstones(db) && Removed(db, db', ids) && db'.tombstoneSequence == db.tombstoneSequence
    requires db'.tombstones == WithoutTombstonesOf(db.tombstones, ids)
    requires forall id | IsAcknowledged(db.candidates, id) && id !in ids && Retained(db, db.candidates[id].candidate) ::
               Retained(db', db.candidates[id].candidate)
    ensures Tombstones(db')
  {
    forall id | IsAcknowledged(db'.candidates, id)
      ensures Buried(db'.tombstones, id) || Retained(db', db'.candidates[id].candidate)
    {
      assert IsAcknowledged(db.candidates, id);
      if k :| k in db.tombstones && db.tombstones[k] == id {
        assert k in db'.tombstones && db'.tombstones[k] == id;
      }
    }
    forall k {:trigger db'.tombstones[k]} | k in db'.tombstones
      ensures 0 < k <= db'.tombstoneSequence && IsAcknowledged(db'.candidates, db'.tombstones[k])
    {
      assert IsAcknowledged(db.candidates, db.tombstones[k]);
    }
  }

  ghost predicate AllObserved(db: Database, ids: set<CandidateID>) {
    forall id | id in ids :: id in db.candidates && db.candidates[id].status == Observed
  }

  lemma DiscardIsRemoved(c: Config, db: Database, ids: set<CandidateID>)
    requires Core(c, db) && AllObserved(db, ids)
    ensures Removed(db, Discard(db, ids), ids)
    ensures WithoutTombstonesOf(db.tombstones, ids) == db.tombstones
  {
    assert db.incidents - ids == db.incidents;
    assert db.pending - ids == db.pending;
  }

  lemma DiscardKeeps(c: Config, db: Database, ids: set<CandidateID>)
    requires Core(c, db) && AllObserved(db, ids)
    ensures Core(c, Discard(db, ids))
  {
    var db' := Discard(db, ids);
    DiscardIsRemoved(c, db, ids);
    RemovedRows(c, db, db', ids);
    RemovedIncidents(c, db, db', ids);
    RemovedMembers(c, db, db', ids);
    RemovedTombstones(db, db', ids);
  }

  // ---------- Evicting the oldest tombstone ----------

  lemma EvictedStays(db: Database, k: Uint64)
    requires Tombstones(db) && k in db.tombstones && Retained(db, db.candidates[db.tombstones[k]].candidate)
    requires db.candidates[db.tombstones[k]].candidate.id == db.tombstones[k]
    ensures Tombstones(db.(tombstones := db.tombstones - {k}))
  {
    var db' := db.(tombstones := db.tombstones - {k});
    forall id | IsAcknowledged(db'.candidates, id)
      ensures Buried(db'.tombstones, id) || Retained(db', db'.candidates[id].candidate)
    {
      assert IsAcknowledged(db.candidates, id);
      if j :| j in db.tombstones && db.tombstones[j] == id {
        assert j != k ==> j in db'.tombstones && db'.tombstones[j] == id;
      }
    }
  }

  lemma OnlyTombstone(db: Database, k: Uint64)
    requires TombstonesDistinct(db.tombstones) && k in db.tombstones
    ensures WithoutTombstonesOf(db.tombstones, {db.tombstones[k]}) == db.tombstones - {k}
  {
  }

  // An acknowledged candidate is forgotten only when no stored block has it as a member.
  lemma NotMember(c: Config, db: Database, id: CandidateID)
    requires BlockRows(c, db) && MembersStored(db) && id in db.candidates && !BlockStored(db, db.candidates[id].candidate)
    ensures forall n {:trigger db.blocks[n]} | n in db.blocks :: id !in db.blocks[n].members
  {
  }

  lemma ForgetKeeps(c: Config, db: Database, k: Uint64)
    requires Core(c, db) && k in db.tombstones
    requires !BlockStored(db, db.candidates[db.tombstones[k]].candidate)
    ensures Core(c, Forget(db, {db.tombstones[k]}).(tombstones := db.tombstones - {k}))
  {
    var id := db.tombstones[k];
    var db' := Forget(db, {id}).(tombstones := db.tombstones - {k});
    assert IsAcknowledged(db.candidates, id);
    OnlyTombstone(db, k);
    NotMember(c, db, id);
    RemovedRows(c, db, db', {id});
    RemovedIncidents(c, db, db', {id});
    RemovedMembers(c, db, db', {id});
    RemovedTombstones(db, db', {id});
  }

  // A stored block of the candidate's height has the candidate as a member.
  lemma StoredIsRetained(c: Config, db: Database, id: CandidateID)
    requires Rows(c, db.candidates) && Index(db) && MembershipFull(db) && id in db.candidates
    ensures BlockStored(db, db.candidates[id].candidate) ==> Retained(db, db.candidates[id].candidate)
  {
    assert ValidRecord(c, id, db.candidates[id]);
    if BlockStored(db, db.candidates[id].candidate) {
      assert KeyOf(db.candidates[id].candidate).value in db.index;
    }
  }

  lemma UnburyKeeps(c: Config, db: Database, k: Uint64)
    requires Core(c, db) && k in db.tombstones
    ensures Unbury(db, db.tombstones[k]).Ok?
    ensures Core(c, Unbury(db, db.tombstones[k]).value.(tombstones := db.tombstones - {k}))
  {
    var id := db.tombstones[k];
    assert IsAcknowledged(db.candidates, id);
    assert ValidRecord(c, id, db.candidates[id]);
    StoredIsRetained(c, db, id);
    if BlockStored(db, db.candidates[id].candidate) {
      EvictedStays(db, k);
      SameBlocks(c, db, db.(tombstones := db.tombstones - {k}));
    } else {
      ForgetKeeps(c, db, k);
    }
  }

  // What eviction leaves alone.
  ghost predicate OnlyForgets(db: Database, db': Database) {
    && db'.blocks == db.blocks && db'.baseline == db.baseline && db'.cursor == db.cursor && db'.checkpoint == db.checkpoint
    && db'.pending == db.pending && db'.order == db.order && db'.orderSequence == db.orderSequence
    && db'.tombstoneSequence == db.tombstoneSequence && db'.preferDelayed == db.preferDelayed
    && (forall id | id in db'.candidates :: id in db.candidates && db'.candidates[id] == db.candidates[id])
    && (forall id | id in db.candidates && id !in db'.candidates ::
          db.candidates[id].status == Acknowledged && !BlockStored(db, db.candidates[id].candidate))
  }

  lemma ForgetsTransitive(a: Database, b: Database, d: Database)
    requires OnlyForgets(a, b) && OnlyForgets(b, d)
    ensures OnlyForgets(a, d)
  {
    forall id | id in a.candidates && id !in d.candidates
      ensures a.candidates[id].status == Acknowledged && !BlockStored(a, a.candidates[id].candidate)
    {
      if id in b.candidates {
        assert b.candidates[id] == a.candidates[id];
      }
    }
  }

  lemma UnburyFrame(db: Database, k: Uint64)
    requires k in db.tombstones && Unbury(db, db.tombstones[k]).Ok?
    ensures OnlyForgets(db, Unbury(db, db.tombstones[k]).value.(tombstones := db.tombstones - {k}))
  {
  }

  lemma {:induction false} EvictKeeps(c: Config, db: Database)
    requires Core(c, db)
    ensures Evict(db).Ok? && Core(c, Evict(db).value) && |Evict(db).value.tombstones| <= TOMBSTONE_LIMIT
    decreases |db.tombstones|
  {
    if |db.tombstones| > TOMBSTONE_LIMIT {
      var k := OldestTombstone(db);
      UnburyKeeps(c, db, k);
      var next := Unbury(db, db.tombstones[k]).value.(tombstones := db.tombstones - {k});
      MapRemoveSize(db.tombstones, k);
      EvictKeeps(c, next);
      assert Evict(db) == Evict(next);
    }
  }

  lemma {:induction false} EvictFrame(db: Database)
    requires Evict(db).Ok?
    ensures OnlyForgets(db, Evict(db).value)
    decreases |db.tombstones|
  {
    if |db.tombstones| > TOMBSTONE_LIMIT {
      var k := OldestTombstone(db);
      var next := Unbury(db, db.tombstones[k]).value.(tombstones := db.tombstones - {k});
      UnburyFrame(db, k);
      MapRemoveSize(db.tombstones, k);
      EvictFrame(next);
      ForgetsTransitive(db, next, Evict(next).value);
    }
  }

  // ---------- Blocks ----------

  // What has to hold of the candidates of a height before their block is stored.
  ghost predicate ReadyToCommit(c: Config, db: Database, block: Canonical) {
    && ValidCanonical(c, block)
    && block.checkpoint.number !in db.blocks
    && CursorError(db, block).None?
    && (forall id | id in Ids(block.candidates) ::
          MemberOk(db, Requested(block), id) && KeyOf(db.candidates[id].candidate).Some?)
    && (forall k | k in db.index && k.number == block.checkpoint.number :: k.hash == block.checkpoint.hash && k.id in Ids(block.candidates))
  }

  lemma {:induction false} IdsCount(candidates: seq<Candidate>)
    ensures |Ids(candidates)| <= |candidates|
    decreases |candidates|
  {
    if candidates != [] {
      var n := |candidates| - 1;
      IdsCount(candidates[..n]);
      assert Ids(candidates) == Ids(candidates[..n]) + {candidates[n].id};
    }
  }

  lemma {:induction false} AscendingCount(ids: seq<nat>, s: set<nat>)
    requires Lists(ids, s)
    ensures |ids| == |s|
    decreases |ids|
  {
    if ids == [] {
      assert s == {};
    } else {
      assert ids[0] in s;
      Behead(ids, s);
      AscendingCount(ids[1..], s - {ids[0]});
    }
  }

  lemma RequestedValid(c: Config, block: Canonical)
    requires ValidCanonical(c, block)
    ensures ValidBlock(c, block.checkpoint.number, Requested(block))
    ensures forall id :: id in Requested(block).members <==> id in Ids(block.candidates)
  {
    IdsCount(block.candidates);
    AscendingCount(Sorted(Ids(block.candidates)), Ids(block.candidates));
  }

  lemma AddBlockChain(c: Config, db: Database, block: Canonical)
    requires Chain(c, db) && ReadyToCommit(c, db, block)
    ensures Chain(c, AddBlock(db, block))
  {
    RequestedValid(c, block);
    var db' := AddBlock(db, block);
    forall n: Uint64 ensures LinkedAt(db', n) {
      assert LinkedAt(db, n);
    }
  }

  lemma AddBlockMembers(c: Config, db: Database, block: Canonical)
    requires Chain(c, db) && Members(db) && CheckpointSound(db) && ReadyToCommit(c, db, block)
    ensures var db' := AddBlock(db, block);
            Members(db') && CheckpointSound(db')
  {
    RequestedValid(c, block);
    var db' := AddBlock(db, block);
    forall n, id {:trigger id in db'.blocks[n].members} | n in db'.blocks && id in db'.blocks[n].members
      ensures MemberOk(db', db'.blocks[n], id) && KeyOf(db'.candidates[id].candidate).Some?
    {
      if n != block.checkpoint.number {
        assert id in db.blocks[n].members;
        assert MemberOk(db, db.blocks[n], id);
      }
    }
    forall n {:trigger db'.blocks[n]} | db'.checkpoint.Some? && n in db'.blocks && n <= db'.checkpoint.value.number
      ensures AllAcknowledged(db', db'.blocks[n])
    {
      assert AllAcknowledged(db, db.blocks[n]);
    }
  }

  lemma AddBlockTombstones(db: Database, block: Canonical)
    requires Tombstones(db) && block.checkpoint.number !in db.blocks
    ensures Tombstones(AddBlock(db, block))
  {
    var db' := AddBlock(db, block);
    forall id | IsAcknowledged(db'.candidates, id)
      ensures Buried(db'.tombstones, id) || Retained(db', db'.candidates[id].candidate)
    {
      assert IsAcknowledged(db.candidates, id);
    }
  }

  lemma AddBlockKeeps(c: Config, db: Database, block: Canonical)
    requires Core(c, db) && ReadyToCommit(c, db, block)
    ensures Core(c, AddBlock(db, block))
  {
    AddBlockChain(c, db, block);
    AddBlockMembers(c, db, block);
    AddBlockTombstones(db, block);
  }

  // ---------- Moving the checkpoint ----------

  lemma SetCheckpointKeeps(c: Config, db: Database, n: Uint64)
    requires Core(c, db) && n in db.blocks && AllAcknowledged(db, db.blocks[n])
    requires if db.checkpoint.Some? then n == db.checkpoint.value.number + 1 else db.baseline == Some(n)
    ensures Core(c, db.(checkpoint := Some(db.blocks[n].checkpoint)))
  {
    var db' := db.(checkpoint := Some(db.blocks[n].checkpoint));
    forall m: Uint64 ensures LinkedAt(db', m) {
      assert LinkedAt(db, m);
    }
    forall m {:trigger db'.blocks[m]} | m in db'.blocks && m <= n ensures AllAcknowledged(db', db'.blocks[m]) {
      if m < n {
        assert AllAcknowledged(db, db.blocks[m]);
      }
    }
  }

  // ---------- Dropping the oldest block ----------

  ghost predicate Droppable(db: Database, n: Uint64) {
    && n in db.blocks && db.baseline == Some(n) && AllAcknowledged(db, db.blocks[n])
    && db.checkpoint.Some? && n < db.checkpoint.value.number
  }

  // Members of different blocks are different candidates.
  lemma OtherMembers(c: Config, db: Database, n: Uint64, m: Uint64, id: CandidateID)
    requires BlockRows(c, db) && MembersStored(db) && n in db.blocks && m in db.blocks && n != m
    requires id in db.blocks[n].members
    ensures id !in db.blocks[m].members
  {
  }

  lemma DropChain(c: Config, db: Database, n: Uint64)
    requires Chain(c, db) && CheckpointSound(db) && Droppable(db, n)
    ensures Chain(c, DropBlock(db, n))
  {
    var db' := DropBlock(db, n);
    forall m: Uint64 ensures LinkedAt(db', m) {
      assert LinkedAt(db, m);
    }
  }

  lemma DropMembers(c: Config, db: Database, n: Uint64)
    requires Rows(c, db.candidates) && Index(db) && Chain(c, db) && Members(db) && Droppable(db, n)
    ensures Members(DropBlock(db, n))
  {
    var db' := DropBlock(db, n);
    forall m, id {:trigger id in db'.blocks[m].members} | m in db'.blocks && id in db'.blocks[m].members
      ensures MemberOk(db', db'.blocks[m], id) && KeyOf(db'.candidates[id].candidate).Some?
    {
      assert id in db.blocks[m].members;
      OtherMembers(c, db, m, n, id);
    }
  }

  lemma DropCheckpoint(c: Config, db: Database, n: Uint64)
    requires Chain(c, db) && MembersStored(db) && CheckpointSound(db) && Droppable(db, n)
    ensures CheckpointSound(DropBlock(db, n))
  {
    var db' := DropBlock(db, n);
    forall m {:trigger db'.blocks[m]} | m in db'.blocks && m <= db'.checkpoint.value.number ensures AllAcknowledged(db', db'.blocks[m]) {
      assert AllAcknowledged(db, db.blocks[m]);
      forall id | id in db.blocks[m].members ensures IsAcknowledged(db'.candidates, id) {
        OtherMembers(c, db, m, n, id);
        assert IsAcknowledged(db.candidates, id);
      }
    }
  }

  lemma DropRetained(c: Config, db: Database, n: Uint64, id: CandidateID)
    requires Rows(c, db.candidates) && Droppable(db, n) && IsAcknowledged(db.candidates, id)
    requires id !in db.blocks[n].members && Retained(db, db.candidates[id].candidate)
    ensures Retained(DropBlock(db, n), db.candidates[id].candidate)
  {
    assert ValidRecord(c, id, db.candidates[id]);
  }

  lemma DropKeeps(c: Config, db: Database, n: Uint64)
    requires Core(c, db) && Droppable(db, n)
    ensures Core(c, DropBlock(db, n))
  {
    var db' := DropBlock(db, n);
    var ids := MemberSet(db.blocks[n]);
    forall id | id in ids ensures !IsReady(db.candidates, id) {
      assert IsAcknowledged(db.candidates, id);
    }
    RemovedRows(c, db, db', ids);
    RemovedIncidents(c, db, db', ids);
    forall id | IsAcknowledged(db.candidates, id) && id !in ids && Retained(db, db.candidates[id].candidate)
      ensures Retained(db', db.candidates[id].candidate)
    {
      DropRetained(c, db, n, id);
    }
    RemovedTombstones(db, db', ids);
    DropChain(c, db, n);
    DropMembers(c, db, n);
    DropCheckpoint(c, db, n);
  }
}
