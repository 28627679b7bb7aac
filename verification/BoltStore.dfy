/** The handoff store as an object: each method is one bolt transaction on a private copy. */
module BoltStoreModule {
  import opened Prelude
  import opened Sorting
  import opened StoreModel
  import opened StoreSteps
  import opened StoreInvariant
  import opened StorePrimitives
  import opened StoreAdvance
  import opened StorePromotion
  import opened StoreTransactions
  import opened StoreCommit

  // ---------- Promotion ----------

  method Alternate(staged: seq<CandidateID>, delayed: seq<CandidateID>, preferDelayed: bool, n: nat) returns (choice: Choice)
    ensures choice == Interleave(staged, delayed, preferDelayed, n)
  {
    var ids: seq<CandidateID>, prefer := [], preferDelayed;
    var i, j := 0, 0;
    while |ids| < n && (i < |staged| || j < |delayed|)
      invariant 0 <= i <= |staged| && 0 <= j <= |delayed| && |ids| <= n
      invariant var rest := Interleave(staged[i..], delayed[j..], prefer, n - |ids|);
                Interleave(staged, delayed, preferDelayed, n) == Choice(ids + rest.ids, rest.preferDelayed)
      decreases n - |ids|
    {
      if (prefer && j < |delayed|) || i >= |staged| {
        assert delayed[j..][1..] == delayed[j + 1..];
        ids := ids + [delayed[j]];
        j := j + 1;
      } else {
        assert staged[i..][1..] == staged[i + 1..];
        ids := ids + [staged[i]];
        i := i + 1;
      }
      prefer := !prefer;
    }
    choice := Choice(ids, prefer);
  }

  method PutInOrder(tx: Database, ids: seq<CandidateID>) returns (r: Result<Database, Error>)
    ensures r == EnqueueAll(tx, ids)
  {
    var db, k := tx, 0;
    while k < |ids|
      invariant 0 <= k <= |ids|
      invariant EnqueueAll(tx, ids) == EnqueueAll(db, ids[k..])
    {
      assert ids[k..][1..] == ids[k + 1..];
      if ids[k] !in db.candidates || db.orderSequence == MAX_UINT64 || db.orderSequence + 1 in db.order {
        return Err(Corrupt);
      }
      db := Enqueue(db, ids[k]);
      k := k + 1;
    }
    return Ok(db);
  }

  method PromoteCandidates(c: Config, tx: Database, now: Time) returns (r: Result<Database, Error>)
    ensures r == Promote(c, tx, now)
  {
    if !QueueReadable(c, tx) {
      return Err(Corrupt);
    }
    if |tx.pending| == c.maxPending {
      return Ok(tx);
    }
    var stagedIds, dueIds := StagedIds(tx.candidates), DueIds(tx.candidates, now);
    if exists id | id in stagedIds + dueIds :: id in tx.pending {
      return Err(Corrupt);
    }
    if stagedIds + dueIds == {} {
      return Ok(tx);
    }
    var staged := Sort(stagedIds);
    var delayed := Sort(dueIds);
    var choice := Alternate(staged, delayed, tx.preferDelayed, c.maxPending - |tx.pending|);
    var queued := PutInOrder(tx, choice.ids);
    if queued.Err? {
      return queued;
    }
    return Ok(queued.value.(preferDelayed := choice.preferDelayed));
  }

  // ---------- Checkpoint ----------

  method BlockComplete(tx: Database, block: Block) returns (progress: Progress)
    ensures progress == ProgressOf(tx, block)
  {
    var k := 0;
    while k < |block.members|
      invariant 0 <= k <= |block.members|
      invariant ProgressOf(tx, block) == ProgressFrom(tx, block, k)
    {
      if !MemberOk(tx, block, block.members[k]) {
        return Broken;
      }
      if tx.candidates[block.members[k]].status != Acknowledged {
        return Incomplete;
      }
      k := k + 1;
    }
    return Complete;
  }

  lemma ForgetMore(db: Database, ids: set<CandidateID>, id: CandidateID)
    requires id !in ids
    ensures Forget(Forget(db, ids), {id}) == Forget(db, ids + {id})
    ensures WithoutTombstonesOf(WithoutTombstonesOf(db.tombstones, ids), {id}) == WithoutTombstonesOf(db.tombstones, ids + {id})
  {
    assert db.candidates - ids - {id} == db.candidates - (ids + {id});
    assert db.incidents - ids - {id} == db.incidents - (ids + {id});
    assert db.index - KeysOf(db, ids) - KeysOf(Forget(db, ids), {id}) == db.index - KeysOf(db, ids + {id});
  }

  function Erase(db: Database, ids: set<CandidateID>): Database {
    Forget(db, ids).(tombstones := WithoutTombstonesOf(db.tombstones, ids))
  }

  lemma EraseNone(db: Database)
    ensures Erase(db, {}) == db
  {
    assert db.candidates - {} == db.candidates && db.incidents - {} == db.incidents;
    assert KeysOf(db, {}) == {};
  }

  lemma EraseMore(db: Database, ids: set<CandidateID>, id: CandidateID)
    requires id !in ids
    ensures Erase(Erase(db, ids), {id}) == Erase(db, ids + {id})
  {
    ForgetMore(db, ids, id);
  }

  lemma ElementsNext(ids: seq<CandidateID>, k: nat)
    requires Ascending(ids) && k < |ids|
    ensures ids[k] !in Elements(ids[..k]) && Elements(ids[..k + 1]) == Elements(ids[..k]) + {ids[k]}
  {
    assert ids[..k + 1] == ids[..k] + [ids[k]];
  }

  // deleteCompletedBlockCandidates
  method DeleteMembers(tx: Database, members: seq<CandidateID>) returns (db: Database)
    requires Ascending(members)
    ensures db == Erase(tx, Elements(members))
  {
    db := tx;
    var k := 0;
    EraseNone(tx);
    assert Elements(members[..0]) == {};
    while k < |members|
      invariant 0 <= k <= |members|
      invariant db == Erase(tx, Elements(members[..k]))
    {
      ElementsNext(members, k);
      EraseMore(tx, Elements(members[..k]), members[k]);
      db := Erase(db, {members[k]});
      k := k + 1;
    }
    assert members[..k] == members;
  }

  // What a block's progress depends on.
  lemma {:induction false} ProgressFrame(a: Database, b: Database, block: Block, k: nat)
    requires a.candidates == b.candidates && k <= |block.members|
    ensures ProgressFrom(a, block, k) == ProgressFrom(b, block, k)
    decreases |block.members| - k
  {
    if k < |block.members| {
      ProgressFrame(a, b, block, k + 1);
    }
  }

  // trimCanonicalBlocks: the baseline is written once, at the end.
  method TrimCanonicalBlocks(c: Config, tx: Database, checkpoint: Uint64) returns (r: Result<Database, Error>)
    requires BlockRows(c, tx)
    ensures r == Trim(tx, checkpoint)
  {
    if tx.baseline.None? || checkpoint < tx.baseline.value {
      return Err(Corrupt);
    }
    if checkpoint - tx.baseline.value + 1 <= CANONICAL_BLOCK_LIMIT {
      return Ok(tx);
    }
    var until := checkpoint - CANONICAL_BLOCK_LIMIT + 1;
    var db, number := tx, tx.baseline.value;
    while number < until
      invariant tx.baseline.value <= number <= until && BlockRows(c, db) && db.baseline == tx.baseline
      invariant Trim(tx, checkpoint) == DropUntil(db.(baseline := Some(number)), number, until)
    {
      if number !in db.blocks {
        return Err(Corrupt);
      }
      var progress := BlockComplete(db, db.blocks[number]);
      ProgressFrame(db, db.(baseline := Some(number)), db.blocks[number], 0);
      if progress != Complete {
        return Err(Corrupt);
      }
      assert ValidBlock(c, number, db.blocks[number]);
      var erased := DeleteMembers(db, db.blocks[number].members);
      TrimStep(db, number, erased);
      db := erased.(blocks := db.blocks - {number});
      number := number + 1;
    }
    return Ok(db.(baseline := Some(until)));
  }

  lemma TrimStep(db: Database, number: Uint64, erased: Database)
    requires number in db.blocks && number < MAX_UINT64 && erased == Erase(db, Elements(db.blocks[number].members))
    ensures DropBlock(db.(baseline := Some(number)), number) == erased.(blocks := db.blocks - {number}, baseline := Some(number + 1))
  {
    assert MemberSet(db.blocks[number]) == Elements(db.blocks[number].members);
    assert KeysOf(db.(baseline := Some(number)), Elements(db.blocks[number].members)) == KeysOf(db, Elements(db.blocks[number].members));
  }

  lemma {:induction false} DropUntilRows(c: Config, db: Database, n: Uint64, until: Uint64)
    requires BlockRows(c, db) && DropUntil(db, n, until).Ok?
    ensures BlockRows(c, DropUntil(db, n, until).value)
    decreases until - n
  {
    if n < until {
      DropUntilRows(c, DropBlock(db, n), n + 1, until);
    }
  }

  lemma TrimRows(c: Config, db: Database, checkpoint: Uint64)
    requires BlockRows(c, db) && Trim(db, checkpoint).Ok?
    ensures BlockRows(c, Trim(db, checkpoint).value)
  {
    if checkpoint - db.baseline.value + 1 > CANONICAL_BLOCK_LIMIT {
      DropUntilRows(c, db, db.baseline.value, checkpoint - CANONICAL_BLOCK_LIMIT + 1);
    }
  }

  method AdvanceCheckpoint(c: Config, tx: Database) returns (r: Result<Database, Error>)
    requires BlockRows(c, tx)
    ensures r == Advance(tx)
  {
    if tx.baseline.None? {
      return Ok(tx);
    }
    var next: Uint64 := tx.baseline.value;
    if tx.checkpoint.Some? {
      if tx.checkpoint.value.number == MAX_UINT64 {
        return Err(Corrupt);
      }
      next := tx.checkpoint.value.number + 1;
    }
    var db := tx;
    while true
      invariant BlockRows(c, db)
      invariant Advance(tx) == AdvanceFrom(db, next)
      decreases MAX_UINT64 - next
    {
      if next !in db.blocks {
        return Ok(db);
      }
      var progress := BlockComplete(db, db.blocks[next]);
      if progress == Broken {
        return Err(Corrupt);
      }
      if progress == Incomplete {
        return Ok(db);
      }
      var covered := db.(checkpoint := Some(db.blocks[next].checkpoint));
      var trimmed := TrimCanonicalBlocks(c, covered, next);
      if trimmed.Err? || next == MAX_UINT64 {
        return trimmed;
      }
      TrimRows(c, covered, next);
      db := trimmed.value;
      next := next + 1;
    }
  }

  // ---------- Tombstones ----------

  method AddTombstone(tx: Database, id: CandidateID) returns (r: Result<Database, Error>)
    ensures r == if tx.tombstoneSequence == MAX_UINT64 || tx.tombstoneSequence + 1 in tx.tombstones then Err(Corrupt) else Evict(Bury(tx, id))
  {
    if tx.tombstoneSequence == MAX_UINT64 || tx.tombstoneSequence + 1 in tx.tombstones {
      return Err(Corrupt);
    }
    var db := Bury(tx, id);
    while |db.tombstones| > TOMBSTONE_LIMIT
      invariant Evict(Bury(tx, id)) == Evict(db)
      decreases |db.tombstones|
    {
      var k := First(db.tombstones.Keys);
      var rest := DeleteAcknowledged(db, db.tombstones[k]);
      if rest.Err? {
        return rest;
      }
      MapRemoveSize(db.tombstones, k);
      db := rest.value.(tombstones := db.tombstones - {k});
    }
    return Ok(db);
  }

  // deleteAcknowledgedCandidate, with its search through the members of the candidate's block.
  method DeleteAcknowledged(db: Database, id: CandidateID) returns (r: Result<Database, Error>)
    ensures r == Unbury(db, id)
  {
    if id !in db.candidates || db.candidates[id].status != Acknowledged || db.candidates[id].candidate.id != id {
      return Err(Corrupt);
    }
    var candidate := db.candidates[id].candidate;
    if BlockStored(db, candidate) {
      var block := db.blocks[candidate.number];
      if block.checkpoint.hash != candidate.hash {
        return Err(Corrupt);
      }
      var found, k := false, 0;
      while k < |block.members| && !found
        invariant 0 <= k <= |block.members|
        invariant found <==> id in block.members[..k]
      {
        assert block.members[..k + 1] == block.members[..k] + [block.members[k]];
        found := block.members[k] == id;
        k := k + 1;
      }
      assert !found ==> block.members[..k] == block.members;
      if !found {
        return Err(Corrupt);
      }
      return Ok(db);
    }
    return Ok(Forget(db, {id}));
  }

  // ---------- Canonical blocks ----------

  method StageMembers(tx: Database, candidates: seq<Candidate>) returns (db: Database)
    ensures db == StageAll(tx, candidates)
  {
    db := tx;
    var k := 0;
    while k < |candidates|
      invariant 0 <= k <= |candidates|
      invariant StageAll(tx, candidates) == StageAll(db, candidates[k..])
    {
      assert candidates[k..][1..] == candidates[k + 1..];
      db := StageOne(db, candidates[k]);
      k := k + 1;
    }
  }

  lemma DiscardMore(db: Database, ids: set<CandidateID>, id: CandidateID)
    requires id !in ids
    ensures Discard(Discard(db, ids), {id}) == Discard(db, ids + {id})
  {
    assert db.candidates - ids - {id} == db.candidates - (ids + {id});
    assert db.pending - ids - {id} == db.pending - (ids + {id});
    assert db.index - KeysOf(db, ids) - KeysOf(Discard(db, ids), {id}) == db.index - KeysOf(db, ids + {id});
  }

  lemma DiscardNone(db: Database)
    ensures Discard(db, {}) == db
  {
    assert db.candidates - {} == db.candidates && db.pending - {} == db.pending;
    assert KeysOf(db, {}) == {};
  }

  // The observations among ids go; anything further along is a conflict.
  method DiscardObserved(tx: Database, ids: set<CandidateID>) returns (r: Option<Database>)
    requires forall id | id in ids :: id in tx.candidates
    ensures r == if exists id | id in ids :: tx.candidates[id].status != Observed then None else Some(Discard(tx, ids))
  {
    var rest, db := ids, tx;
    ghost var gone: set<CandidateID> := {};
    DiscardNone(tx);
    while rest != {}
      invariant gone !! rest && gone + rest == ids && db == Discard(tx, gone)
      invariant forall id | id in gone :: tx.candidates[id].status == Observed
      decreases |rest|
    {
      var id := Choose(rest);
      if tx.candidates[id].status != Observed {
        return None;
      }
      DiscardMore(tx, gone, id);
      db := Discard(db, {id});
      rest, gone := rest - {id}, gone + {id};
    }
    assert gone == ids;
    return Some(db);
  }

  // reconcileBlockObservations, on a database whose index entries lead to their candidates.
  method ReconcileObservations(c: Config, tx: Database, number: Uint64, wanted: set<CandidateID>) returns (r: Result<Database, Error>)
    requires Rows(c, tx.candidates) && IndexRows(tx)
    ensures r == Reconcile(tx, number, wanted)
  {
    var strangers := Strangers(tx, number, wanted);
    forall id | id in strangers ensures id in tx.candidates {
      StrangerIndexed(tx, number, wanted, id);
    }
    var kept := DiscardObserved(tx, strangers);
    ReconcileCases(c, tx, number, wanted);
    if kept.None? {
      return Err(Conflict);
    }
    return Ok(kept.value);
  }

  lemma StrangerIndexed(db: Database, number: Uint64, wanted: set<CandidateID>, id: CandidateID)
    requires IndexRows(db) && id in Strangers(db, number, wanted)
    ensures id in db.candidates
  {
  }

  predicate AllReadable(db: Database, number: Uint64) {
    forall k | k in db.index && k.number == number ::
      k.id in db.candidates && db.candidates[k.id].candidate.id == k.id && db.candidates[k.id].candidate.number == number
  }

  lemma IndexReadable(c: Config, db: Database, number: Uint64)
    requires Rows(c, db.candidates) && IndexRows(db)
    ensures AllReadable(db, number)
  {
  }

  lemma ReconcileCases(c: Config, db: Database, number: Uint64, wanted: set<CandidateID>)
    requires Rows(c, db.candidates) && IndexRows(db)
    ensures var strangers := Strangers(db, number, wanted);
            Reconcile(db, number, wanted) ==
            if exists id | id in strangers :: id in db.candidates && db.candidates[id].status != Observed then Err(Conflict)
            else Ok(Discard(db, strangers))
  {
    IndexReadable(c, db, number);
  }

  // ---------- The store ----------

  // After an acknowledged candidate has left the queue: tombstone, checkpoint, promotion.
  method SettleAcknowledged(c: Config, tx: Database, id: CandidateID, now: Time) returns (r: Result<Database, Error>)
    requires BlockRows(c, tx)
    ensures r == if tx.tombstoneSequence == MAX_UINT64 || tx.tombstoneSequence + 1 in tx.tombstones then Err(Corrupt)
                 else Settle(c, Bury(tx, id), now)
  {
    var buried := AddTombstone(tx, id);
    if buried.Err? {
      return buried;
    }
    EvictRows(c, Bury(tx, id));
    var advanced := AdvanceCheckpoint(c, buried.value);
    if advanced.Err? {
      return advanced;
    }
    r := PromoteCandidates(c, advanced.value, now);
  }

  method AckIn(c: Config, tx: Database, id: CandidateID, incident: IncidentID, now: Time) returns (r: Result<(), Error>, after: Database)
    requires BlockRows(c, tx)
    ensures Outcome(r, after) == DoAck(c, tx, id, incident, now)
  {
    var error := ResolveError(c, tx, id, incident);
    if error.Some? {
      return Err(error.value), tx;
    }
    if tx.candidates[id].status == Acknowledged {
      return Ok(()), tx;
    }
    if tx.candidates[id].status != Ready {
      return Err(Conflict), tx;
    }
    if !Queued(tx, id) {
      return Err(Corrupt), tx;
    }
    var settled := SettleAcknowledged(c, Dequeue(tx, id, Record(Acknowledged, UNSET, tx.candidates[id].candidate)), id, now);
    if settled.Err? {
      return Err(settled.error), tx;
    }
    return Ok(()), settled.value;
  }

  class BoltStore {
    const config: Config
    var db: Database

    ghost predicate Valid()
      reads this
    {
      Inv(config, db)
    }

    constructor (config: Config)
      ensures Valid() && this.config == config && db == EMPTY_DATABASE
    {
      this.config := config;
      db := EMPTY_DATABASE;
    }

    method Put(candidate: Candidate, now: Time) returns (r: Result<StoreSteps.Put, Error>)
      requires Valid()
      modifies this
      ensures Valid() && Outcome(r, db) == DoPut(config, old(db), candidate, now)
    {
      PutSound(config, db, candidate, now);
      if !ValidCandidate(config, candidate) {
        return Err(InvalidInput);
      }
      var tx := db;
      if candidate.id in db.candidates {
        var record := db.candidates[candidate.id];
        if !SameIdentity(record.candidate, candidate) {
          return Err(Corrupt);
        }
        if record.status == Acknowledged {
          return Ok(AlreadyAcknowledged);
        }
        if record.status != Observed {
          return Ok(AlreadyPending);
        }
        if !RoomFor(config, db, 1) {
          return Err(JournalFull);
        }
        tx := Upgrade(tx, candidate);
        r := Ok(AlreadyPending);
      } else {
        if AlreadyScanned(db, candidate) {
          return Ok(AlreadyAcknowledged);
        }
        if !RoomFor(config, db, 1) {
          return Err(JournalFull);
        }
        tx := AddCandidate(tx, Staged, candidate);
        r := Ok(Inserted);
      }
      var promoted := PromoteCandidates(config, tx, now);
      if promoted.Err? {
        return Err(promoted.error);
      }
      db := promoted.value;
    }

    method PutObserved(candidate: Candidate) returns (r: Result<StoreSteps.Put, Error>)
      requires Valid()
      modifies this
      ensures Valid() && Outcome(r, db) == DoPutObserved(config, old(db), candidate)
    {
      PutObservedSound(config, db, candidate);
      if !ValidCandidate(config, candidate) {
        return Err(InvalidInput);
      }
      if candidate.id in db.candidates {
        var record := db.candidates[candidate.id];
        if !SameIdentity(record.candidate, candidate) {
          return Err(Corrupt);
        }
        return Ok(if record.status == Acknowledged then AlreadyAcknowledged else AlreadyPending);
      }
      if AlreadyScanned(db, candidate) {
        return Ok(AlreadyAcknowledged);
      }
      if |ObservedIds(db.candidates)| >= config.maxPending {
        return Err(Saturated);
      }
      db := AddCandidate(db, Observed, candidate);
      return Ok(Inserted);
    }

    method MarkRemoved(id: CandidateID) returns (r: Result<(), Error>)
      requires Valid()
      modifies this
      ensures Valid() && Outcome(r, db) == DoMarkRemoved(config, old(db), id)
    {
      MarkRemovedSound(config, db, id);
      if id !in db.candidates {
        return Err(Conflict);
      }
      if !ValidRecord(config, id, db.candidates[id]) {
        return Err(Corrupt);
      }
      if db.candidates[id].status != Observed {
        return Err(Conflict);
      }
      var advanced := AdvanceCheckpoint(config, Discard(db, {id}));
      if advanced.Err? {
        return Err(advanced.error);
      }
      db := advanced.value;
      return Ok(());
    }

    // One round; the caller waits and calls again when nothing is ready.
    method Next(now: Time) returns (r: Result<Option<Candidate>, Error>)
      requires Valid()
      modifies this
      ensures Valid() && Outcome(r, db) == DoNext(config, old(db), now)
    {
      NextSound(config, db, now);
      var promoted := PromoteCandidates(config, db, now);
      if promoted.Err? {
        return Err(promoted.error);
      }
      var tx := promoted.value;
      if exists k | k in tx.order :: !EntryReadable(config, tx, k) {
        return Err(Corrupt);
      }
      db := tx;
      if tx.order == map[] {
        return Ok(None);
      }
      var k := First(tx.order.Keys);
      return Ok(Some(tx.candidates[tx.order[k]].candidate));
    }

    method PutIncident(incident: Incident) returns (r: Result<(), Error>)
      requires Valid()
      modifies this
      ensures Valid() && Outcome(r, db) == DoPutIncident(config, old(db), incident)
    {
      PutIncidentSound(config, db, incident);
      if !ValidIncident(config, incident) || incident.network != config.network {
        return Err(InvalidInput);
      }
      var id := incident.candidate;
      if id !in db.candidates {
        return Err(Conflict);
      }
      if !ValidRecord(config, id, db.candidates[id]) {
        return Err(Corrupt);
      }
      if db.candidates[id].status == Observed || db.candidates[id].status == Staged {
        return Err(Conflict);
      }
      if id !in db.incidents {
        db := db.(incidents := db.incidents[id := incident]);
        return Ok(());
      }
      if db.incidents[id].id != incident.id {
        return Err(Conflict);
      }
      return Ok(());
    }

    method Ack(id: CandidateID, incident: IncidentID, now: Time) returns (r: Result<(), Error>)
      requires Valid()
      modifies this
      ensures Valid() && Outcome(r, db) == DoAck(config, old(db), id, incident, now)
    {
      AckSound(config, db, id, incident, now);
      r, db := AckIn(config, db, id, incident, now);
    }

    method Nack(id: CandidateID, incident: IncidentID, retryAt: Time, now: Time) returns (r: Result<(), Error>)
      requires Valid()
      modifies this
      ensures Valid() && Outcome(r, db) == DoNack(config, old(db), id, incident, retryAt, now)
    {
      NackSound(config, db, id, incident, retryAt, now);
      if retryAt == UNSET {
        return Err(InvalidInput);
      }
      var error := ResolveError(config, db, id, incident);
      if error.Some? {
        return Err(error.value);
      }
      if db.candidates[id].status != Ready {
        return Err(Conflict);
      }
      if !Queued(db, id) {
        return Err(Corrupt);
      }
      var promoted := PromoteCandidates(config, Dequeue(db, id, Record(Delayed, retryAt, db.candidates[id].candidate)), now);
      if promoted.Err? {
        return Err(promoted.error);
      }
      db := promoted.value;
      return Ok(());
    }

    method CommitCanonicalBlock(block: Canonical, now: Time) returns (r: Result<(), Error>)
      requires Valid()
      modifies this
      ensures NoFastTokens(block) ==> Valid()
      ensures Outcome(r, db) == DoCommit(config, old(db), block, now)
    {
      if NoFastTokens(block) {
        CommitSound(config, db, block, now);
      }
      if !ValidCanonical(config, block) {
        return Err(InvalidInput);
      }
      var members := Sort(Ids(block.candidates));
      var requested := Block(block.checkpoint, block.parent, members);
      if block.checkpoint.number in db.blocks {
        if db.blocks[block.checkpoint.number] != requested {
          return Err(Conflict);
        }
        if !Recommitted(config, db, block) {
          return Err(Corrupt);
        }
        return Ok(());
      }
      var error := CursorError(db, block);
      if error.Some? {
        return Err(error.value);
      }
      var staged := Stage(block, requested);
      if staged.Err? {
        return Err(staged.error);
      }
      var promoted := PromoteCandidates(config, staged.value, now);
      if promoted.Err? {
        return Err(promoted.error);
      }
      StagedRows(config, db, block, now);
      var advanced := AdvanceCheckpoint(config, promoted.value);
      if advanced.Err? {
        return Err(advanced.error);
      }
      db := advanced.value;
      return Ok(());
    }

    // The part of the transaction before promotion.
    method Stage(block: Canonical, requested: Block) returns (r: Result<Database, Error>)
      requires Valid() && requested == Requested(block)
      ensures r == StageBlock(config, db, block)
    {
      var number, wanted := block.checkpoint.number, Ids(block.candidates);
      var reconciled := ReconcileObservations(config, db, number, wanted);
      if reconciled.Err? {
        return reconciled;
      }
      var tx := reconciled.value;
      var error := WindowError(tx, number);
      if error.Some? {
        return Err(error.value);
      }
      if !Consistent(config, tx, block.candidates) {
        return Err(Corrupt);
      }
      if !RoomFor(config, tx, |Additional(tx, block.candidates)|) {
        return Err(JournalFull);
      }
      tx := StageMembers(tx, block.candidates);
      return Ok(tx.(blocks := tx.blocks[number := requested],
                    baseline := if tx.cursor.None? then Some(number) else tx.baseline,
                    cursor := Some(block.checkpoint)));
    }
  }

  lemma {:induction false} EnqueueAllBlocks(db: Database, ids: seq<CandidateID>)
    requires EnqueueAll(db, ids).Ok?
    ensures EnqueueAll(db, ids).value.blocks == db.blocks
    decreases |ids|
  {
    if ids != [] {
      EnqueueAllBlocks(Enqueue(db, ids[0]), ids[1..]);
    }
  }

  lemma PromoteBlocks(c: Config, db: Database, now: Time)
    requires Promote(c, db, now).Ok?
    ensures Promote(c, db, now).value.blocks == db.blocks
  {
    PromoteCases(c, db, now);
    if Promote(c, db, now).value != db {
      EnqueueAllBlocks(db, Chosen(c, db, now).ids);
    }
  }

  lemma {:induction false} StageAllBlocks(db: Database, candidates: seq<Candidate>)
    ensures StageAll(db, candidates).blocks == db.blocks
    decreases |candidates|
  {
    if candidates != [] {
      StageAllBlocks(StageOne(db, candidates[0]), candidates[1..]);
    }
  }

  lemma StageBlockRows(c: Config, db: Database, block: Canonical)
    requires BlockRows(c, db) && ValidCanonical(c, block) && StageBlock(c, db, block).Ok?
    ensures BlockRows(c, StageBlock(c, db, block).value)
  {
    RequestedValid(c, block);
    var mid := Reconcile(db, block.checkpoint.number, Ids(block.candidates)).value;
    StageAllBlocks(mid, block.candidates);
  }

  lemma StagedRows(c: Config, db: Database, block: Canonical, now: Time)
    requires BlockRows(c, db) && ValidCanonical(c, block) && StageBlock(c, db, block).Ok?
    requires Promote(c, StageBlock(c, db, block).value, now).Ok?
    ensures BlockRows(c, Promote(c, StageBlock(c, db, block).value, now).value)
  {
    StageBlockRows(c, db, block);
    PromoteBlocks(c, StageBlock(c, db, block).value, now);
  }

  lemma {:induction false} EvictRows(c: Config, db: Database)
    requires BlockRows(c, db) && Evict(db).Ok?
    ensures BlockRows(c, Evict(db).value)
  {
    EvictFrame(db);
  }
}
