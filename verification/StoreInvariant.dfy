/** What validateDatabase accepts, and the stronger statement every reachable database satisfies. */
module StoreInvariant {
  import opened Prelude
  import opened Sorting
  import opened StoreModel

  // ---------- Rows and indexes ----------

  ghost predicate Rows(c: Config, m: map<CandidateID, Record>) {
    forall id {:trigger m[id]} | id in m :: ValidRecord(c, id, m[id])
  }

  predicate IsReady(m: map<CandidateID, Record>, id: CandidateID) { id in m && m[id].status == Ready }

  ghost predicate PendingRows(db: Database) {
    forall id {:trigger db.pending[id]} | id in db.pending ::
      IsReady(db.candidates, id) && db.pending[id] in db.order && db.order[db.pending[id]] == id
  }

  ghost predicate OrderRows(db: Database) {
    forall k {:trigger db.order[k]} | k in db.order ::
      0 < k <= db.orderSequence && db.order[k] in db.pending && db.pending[db.order[k]] == k
  }

  ghost predicate ReadyRows(db: Database) {
    forall id {:trigger IsReady(db.candidates, id)} | IsReady(db.candidates, id) :: id in db.pending
  }

  ghost predicate Queue(db: Database) { PendingRows(db) && OrderRows(db) && ReadyRows(db) }

  ghost predicate IndexRows(db: Database) {
    forall k {:trigger k in db.index} | k in db.index ::
      k.id in db.candidates && KeyOf(db.candidates[k.id].candidate) == Some(k)
  }

  ghost predicate Indexed(db: Database) {
    forall id {:trigger db.candidates[id]} | id in db.candidates ::
      KeyOf(db.candidates[id].candidate).Some? ==> KeyOf(db.candidates[id].candidate).value in db.index
  }

  ghost predicate Index(db: Database) { IndexRows(db) && Indexed(db) }

  // ---------- Incidents ----------

  ghost predicate IncidentRows(c: Config, db: Database) {
    forall id {:trigger db.incidents[id]} | id in db.incidents ::
      && ValidIncident(c, db.incidents[id]) && db.incidents[id].candidate == id && db.incidents[id].network == c.network
      && id in db.candidates
  }

  ghost predicate ResolvedHaveIncidents(db: Database) {
    forall id {:trigger db.candidates[id]} | id in db.candidates && (db.candidates[id].status == Delayed || db.candidates[id].status == Acknowledged) ::
      id in db.incidents
  }

  // Stronger than what is validated: incidents belong to candidates that were handed out.
  ghost predicate IncidentsHandedOut(db: Database) {
    forall id {:trigger db.incidents[id]} | id in db.incidents && id in db.candidates ::
      db.candidates[id].status != Observed && db.candidates[id].status != Staged
  }

  // ---------- Tombstones ----------

  predicate IsAcknowledged(m: map<CandidateID, Record>, id: CandidateID) { id in m && m[id].status == Acknowledged }

  ghost predicate TombstoneRows(db: Database) {
    forall k {:trigger db.tombstones[k]} | k in db.tombstones ::
      0 < k <= db.tombstoneSequence && IsAcknowledged(db.candidates, db.tombstones[k])
  }

  ghost predicate TombstonesDistinct(t: map<Uint64, CandidateID>) {
    forall j, k {:trigger t[j], t[k]} | j in t && k in t :: t[j] == t[k] ==> j == k
  }

  ghost predicate Buried(t: map<Uint64, CandidateID>, id: CandidateID) {
    exists k :: k in t && t[k] == id
  }

  // retainedCanonicalMember
  predicate Retained(db: Database, candidate: Candidate) {
    && BlockStored(db, candidate)
    && db.blocks[candidate.number].checkpoint.hash == candidate.hash
    && candidate.id in db.blocks[candidate.number].members
  }

  ghost predicate AcknowledgedKept(db: Database) {
    forall id {:trigger IsAcknowledged(db.candidates, id)} | IsAcknowledged(db.candidates, id) ::
      Buried(db.tombstones, id) || Retained(db, db.candidates[id].candidate)
  }

  ghost predicate Tombstones(db: Database) {
    TombstoneRows(db) && TombstonesDistinct(db.tombstones) && AcknowledgedKept(db)
  }

  // ---------- Blocks ----------

  // Exactly the heights from the baseline to the cursor are stored.
  ghost predicate Heights(db: Database) {
    if db.baseline.None? || db.cursor.None?
    then db.baseline.None? && db.cursor.None? && db.checkpoint.None? && db.blocks == map[]
    else
      && db.baseline.value <= db.cursor.value.number
      && (forall n: Uint64 {:trigger n in db.blocks} :: n in db.blocks <==> db.baseline.value <= n <= db.cursor.value.number)
      && db.blocks[db.cursor.value.number].checkpoint == db.cursor.value
  }

  ghost predicate BlockRows(c: Config, db: Database) {
    forall n {:trigger db.blocks[n]} | n in db.blocks :: ValidBlock(c, n, db.blocks[n])
  }

  predicate LinkedAt(db: Database, n: Uint64) {
    n in db.blocks && n > 0 && n - 1 in db.blocks ==> db.blocks[n].parent == db.blocks[n - 1].checkpoint.hash
  }

  ghost predicate Linked(db: Database) {
    forall n: Uint64 {:trigger LinkedAt(db, n)} :: LinkedAt(db, n)
  }

  ghost predicate Chain(c: Config, db: Database) { Heights(db) && BlockRows(c, db) && Linked(db) }

  // Every indexed candidate of a stored height is a member of that block ...
  ghost predicate MembershipFull(db: Database) {
    forall k {:trigger k in db.index} | k in db.index && k.number in db.blocks ::
      k.hash == db.blocks[k.number].checkpoint.hash && k.id in db.blocks[k.number].members
  }

  // ... and, stronger than what is validated, every member is an indexed candidate of its block.
  ghost predicate MembersStored(db: Database) {
    forall n, id {:trigger id in db.blocks[n].members} | n in db.blocks && id in db.blocks[n].members ::
      MemberOk(db, db.blocks[n], id) && KeyOf(db.candidates[id].candidate).Some?
  }

  ghost predicate Members(db: Database) { MembershipFull(db) && MembersStored(db) }

  // ---------- Checkpoint ----------

  predicate AllAcknowledged(db: Database, block: Block) {
    forall id | id in block.members :: IsAcknowledged(db.candidates, id)
  }

  // The checkpoint is a stored block and everything up to it is acknowledged.
  ghost predicate CheckpointSound(db: Database) {
    db.checkpoint.Some? ==>
      && db.checkpoint.value.number in db.blocks
      && db.blocks[db.checkpoint.value.number].checkpoint == db.checkpoint.value
      && forall n {:trigger db.blocks[n]} | n in db.blocks && n <= db.checkpoint.value.number :: AllAcknowledged(db, db.blocks[n])
  }

  // The first height the checkpoint does not cover.
  function NextHeight(db: Database): Uint64
    requires db.baseline.Some? && (db.checkpoint.Some? ==> db.checkpoint.value.number < MAX_UINT64)
  {
    if db.checkpoint.Some? then db.checkpoint.value.number + 1 else db.baseline.value
  }

  // It cannot be moved further: the next block, if there is one, has an unfinished member.
  ghost predicate CheckpointMaximal(db: Database) {
    db.baseline.Some? && (db.checkpoint.Some? ==> db.checkpoint.value.number < MAX_UINT64) && NextHeight(db) in db.blocks ==>
      !AllAcknowledged(db, db.blocks[NextHeight(db)])
  }

  ghost predicate WindowOk(db: Database) {
    db.baseline.Some? && db.cursor.Some? ==>
      if db.checkpoint.Some?
      then && db.checkpoint.value.number - db.baseline.value + 1 <= CANONICAL_BLOCK_LIMIT
           && db.cursor.value.number - db.checkpoint.value.number <= UNCONFIRMED_BLOCK_LIMIT
      else db.cursor.value.number - db.baseline.value + 1 <= UNCONFIRMED_BLOCK_LIMIT
  }

  // ---------- Counts ----------

  ghost predicate Counts(c: Config, db: Database) {
    && |db.pending| <= c.maxPending
    && |Unfinished(db.candidates)| <= c.Capacity()
    && |ObservedIds(db.candidates)| <= c.maxPending
  }

  // ---------- validateDatabase ----------

  // The checkpoint the validation loop expects: the end of the longest complete run of blocks.
  function ExpectedFrom(db: Database, number: Uint64): Option<Checkpoint>
    decreases MAX_UINT64 - number
  {
    if number !in db.blocks || ProgressOf(db, db.blocks[number]) != Complete then None
    else if number == MAX_UINT64 then Some(db.blocks[number].checkpoint)
    else
      var further := ExpectedFrom(db, number + 1);
      if further.Some? then further else Some(db.blocks[number].checkpoint)
  }

  ghost predicate BlocksReadable(db: Database) {
    forall n {:trigger db.blocks[n]} | n in db.blocks :: ProgressOf(db, db.blocks[n]) != Broken
  }

  ghost predicate Validates(c: Config, db: Database) {
    && Rows(c, db.candidates) && Queue(db) && Index(db) && Counts(c, db) && Tombstones(db)
    && |db.tombstones| <= TOMBSTONE_LIMIT
    && db.orderSequence != MAX_UINT64 && db.tombstoneSequence != MAX_UINT64
    && IncidentRows(c, db) && ResolvedHaveIncidents(db)
    && Chain(c, db) && MembershipFull(db) && BlocksReadable(db)
    && (db.baseline.Some? ==> db.checkpoint == ExpectedFrom(db, db.baseline.value))
    && WindowOk(db)
  }

  // ---------- The invariant ----------

  // Everything about single records and blocks; holds between the parts of a transaction too.
  ghost predicate Core(c: Config, db: Database) {
    && Rows(c, db.candidates) && Queue(db) && Index(db)
    && IncidentRows(c, db) && ResolvedHaveIncidents(db) && IncidentsHandedOut(db)
    && Tombstones(db) && Chain(c, db) && Members(db) && CheckpointSound(db)
  }

  ghost predicate Inv(c: Config, db: Database) {
    && Core(c, db) && Counts(c, db) && |db.tombstones| <= TOMBSTONE_LIMIT
    && CheckpointMaximal(db) && WindowOk(db)
  }

  // ---------- The invariant implies validation ----------

  lemma {:induction false} ProgressMeaning(db: Database, block: Block, k: nat)
    requires k <= |block.members| && forall id | id in block.members :: MemberOk(db, block, id)
    ensures ProgressFrom(db, block, k) != Broken
    ensures ProgressFrom(db, block, k) == Complete <==> forall j | k <= j < |block.members| :: IsAcknowledged(db.candidates, block.members[j])
    decreases |block.members| - k
  {
    if k < |block.members| {
      assert MemberOk(db, block, block.members[k]);
      ProgressMeaning(db, block, k + 1);
    }
  }

  lemma StoredProgress(db: Database, n: Uint64)
    requires MembersStored(db) && n in db.blocks
    ensures ProgressOf(db, db.blocks[n]) != Broken
    ensures ProgressOf(db, db.blocks[n]) == Complete <==> AllAcknowledged(db, db.blocks[n])
  {
    forall id | id in db.blocks[n].members ensures MemberOk(db, db.blocks[n], id) {
    }
    ProgressMeaning(db, db.blocks[n], 0);
  }

  // From a height the checkpoint covers, the loop ends at the checkpoint; from the next one, nowhere.
  lemma {:induction false} ExpectedIsCheckpoint(c: Config, db: Database, n: Uint64)
    requires Chain(c, db) && MembersStored(db) && CheckpointSound(db) && CheckpointMaximal(db) && n in db.blocks
    requires db.checkpoint.Some? ==> n <= db.checkpoint.value.number
    requires db.checkpoint.None? ==> n == db.baseline.value
    ensures ExpectedFrom(db, n) == db.checkpoint
    decreases MAX_UINT64 - n
  {
    StoredProgress(db, n);
    if db.checkpoint.Some? {
      assert AllAcknowledged(db, db.blocks[n]);
      if n < db.checkpoint.value.number {
        ExpectedIsCheckpoint(c, db, n + 1);
      } else if n < MAX_UINT64 && n + 1 in db.blocks {
        StoredProgress(db, n + 1);
      }
    }
  }

  lemma InvBlocksReadable(c: Config, db: Database)
    requires MembersStored(db)
    ensures BlocksReadable(db)
  {
    forall n | n in db.blocks ensures ProgressOf(db, db.blocks[n]) != Broken {
      StoredProgress(db, n);
    }
  }

  // A database with the invariant passes validation exactly while both counters can still grow.
  lemma InvValidates(c: Config, db: Database)
    requires Inv(c, db)
    ensures Validates(c, db) <==> db.orderSequence != MAX_UINT64 && db.tombstoneSequence != MAX_UINT64
  {
    InvBlocksReadable(c, db);
    if db.baseline.Some? {
      assert db.baseline.value in db.blocks;
      ExpectedIsCheckpoint(c, db, db.baseline.value);
    }
  }

  // ---------- What validation leaves open ----------

  ghost predicate AllUpTo(db: Database, n: Uint64, k: Uint64) {
    forall m {:trigger db.blocks[m]} | m in db.blocks && n <= m <= k :: AllAcknowledged(db, db.blocks[m])
  }

  // Checkpoint e ends the run of acknowledged blocks that starts at height n.
  ghost predicate Covers(db: Database, n: Uint64, e: Checkpoint) {
    && n <= e.number && e.number in db.blocks && db.blocks[e.number].checkpoint == e
    && AllUpTo(db, n, e.number)
    && (e.number < MAX_UINT64 && e.number + 1 in db.blocks ==> !AllAcknowledged(db, db.blocks[e.number + 1]))
  }

  lemma CoversMore(db: Database, n: Uint64, e: Checkpoint)
    requires n < MAX_UINT64 && Covers(db, n + 1, e) && n in db.blocks && AllAcknowledged(db, db.blocks[n])
    ensures Covers(db, n, e)
  {
    forall m | m in db.blocks && n <= m <= e.number ensures AllAcknowledged(db, db.blocks[m]) {
      assert m == n || n + 1 <= m;
    }
  }

  lemma {:induction false} ExpectedCovers(c: Config, db: Database, n: Uint64)
    requires BlockRows(c, db) && MembersStored(db) && n in db.blocks
    ensures ExpectedFrom(db, n).None? ==> !AllAcknowledged(db, db.blocks[n])
    ensures ExpectedFrom(db, n).Some? ==> Covers(db, n, ExpectedFrom(db, n).value)
    decreases MAX_UINT64 - n
  {
    StoredProgress(db, n);
    assert ValidBlock(c, n, db.blocks[n]);
    if AllAcknowledged(db, db.blocks[n]) && n < MAX_UINT64 && n + 1 in db.blocks {
      ExpectedCovers(c, db, n + 1);
      if ExpectedFrom(db, n + 1).Some? {
        CoversMore(db, n, ExpectedFrom(db, n + 1).value);
      }
    }
  }

  lemma ExpectedIsExact(c: Config, db: Database)
    requires Chain(c, db) && MembersStored(db) && (db.baseline.Some? ==> db.checkpoint == ExpectedFrom(db, db.baseline.value))
    ensures CheckpointSound(db) && CheckpointMaximal(db)
  {
    if db.baseline.Some? {
      assert db.baseline.value in db.blocks;
      ExpectedCovers(c, db, db.baseline.value);
    }
  }

  // Validation and the invariant differ in exactly two points: incidents of candidates that were
  // not handed out, and block members that are not stored as indexed candidates.
  lemma InvIsValidatedIff(c: Config, db: Database)
    ensures Inv(c, db) && db.orderSequence != MAX_UINT64 && db.tombstoneSequence != MAX_UINT64 <==>
            Validates(c, db) && IncidentsHandedOut(db) && MembersStored(db)
  {
    if Inv(c, db) {
      InvValidates(c, db);
    } else if Validates(c, db) && IncidentsHandedOut(db) && MembersStored(db) {
      ExpectedIsExact(c, db);
    }
  }
}
