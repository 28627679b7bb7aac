/** The durable handoff database: candidates, their indexes, canonical blocks and tombstones. */
module StoreModel {
  import opened Prelude
  import opened Sorting

  const TOMBSTONE_LIMIT: nat := 128
  const CANONICAL_BLOCK_LIMIT: nat := 256
  const UNCONFIRMED_BLOCK_LIMIT: nat := 256

  // rest stands for the token, transaction hash, log index and observation; detail for the
  // symbol, decimals and generation, which may be refreshed.
  datatype Candidate = Candidate(
    id: CandidateID, network: NetworkID, source: Address, kind: Kind, number: Uint64, hash: Hash, rest: nat, detail: nat)

  datatype Status = Observed | Staged | Ready | Delayed | Acknowledged
  {
    predicate Unfinished() { this == Staged || this == Ready || this == Delayed }
  }

  datatype Record = Record(status: Status, retryAt: Time, candidate: Candidate)

  datatype Incident = Incident(id: IncidentID, candidate: CandidateID, network: NetworkID, createdAt: Time)

  datatype Checkpoint = Checkpoint(number: Uint64, hash: Hash)

  datatype Block = Block(checkpoint: Checkpoint, parent: Hash, members: seq<CandidateID>)

  datatype Key = Key(number: Uint64, hash: Hash, id: CandidateID)

  // The SHA-256 derivations of candidate and incident identifiers are parameters.
  datatype Config = Config(
    network: NetworkID, source: Address, maxPending: nat,
    idOf: Candidate -> CandidateID, incidentOf: CandidateID -> IncidentID)
  {
    // deriveJournalCapacity
    function Capacity(): nat {
      if maxPending * 128 < 100_000 then 100_000
      else if maxPending * 128 > 100_000_000 then 100_000_000
      else maxPending * 128
    }
  }

  datatype Database = Database(
    candidates: map<CandidateID, Record>,
    pending: map<CandidateID, Uint64>, order: map<Uint64, CandidateID>, orderSequence: Uint64,
    index: set<Key>,
    incidents: map<CandidateID, Incident>,
    blocks: map<Uint64, Block>,
    tombstones: map<Uint64, CandidateID>, tombstoneSequence: Uint64,
    baseline: Option<Uint64>, cursor: Option<Checkpoint>, checkpoint: Option<Checkpoint>,
    preferDelayed: bool)

  const EMPTY_DATABASE := Database(map[], map[], map[], 0, {}, map[], map[], map[], 0, None, None, None, false)

  datatype Error = InvalidInput | Conflict | Corrupt | JournalFull | Saturated

  // ---------- Records ----------

  predicate ValidCandidate(c: Config, candidate: Candidate) {
    && candidate.network == c.network && candidate.source == c.source
    && candidate.id == c.idOf(candidate.(id := 0, detail := 0))
    && (candidate.kind == FastToken ==> candidate.hash != 0)
    && (candidate.kind == Claim ==> candidate.number == 0 && candidate.hash == 0)
  }

  // sameCandidateIdentity
  predicate SameIdentity(a: Candidate, b: Candidate) { a.(detail := 0) == b.(detail := 0) }

  predicate ValidRecord(c: Config, id: CandidateID, record: Record) {
    && record.candidate.id == id && ValidCandidate(c, record.candidate)
    && (record.status == Delayed <==> record.retryAt != UNSET)
  }

  predicate ValidIncident(c: Config, incident: Incident) {
    && incident.network > 0 && incident.id == c.incidentOf(incident.candidate) && incident.createdAt != UNSET
  }

  predicate ValidBlock(c: Config, number: Uint64, block: Block) {
    && block.checkpoint.number == number && block.checkpoint.hash != 0
    && |block.members| <= c.Capacity()
    && (number == 0 <==> block.parent == 0)
    && Ascending(block.members)
  }

  // candidateBlockIndexKey
  function KeyOf(candidate: Candidate): Option<Key> {
    if candidate.hash == 0 || candidate.kind == FastToken then None
    else Some(Key(candidate.number, candidate.hash, candidate.id))
  }

  function StagedRecord(candidate: Candidate): Record { Record(Staged, UNSET, candidate) }

  // ---------- Counting ----------

  function Unfinished(m: map<CandidateID, Record>): set<CandidateID> {
    set id | id in m && m[id].status.Unfinished()
  }

  function ObservedIds(m: map<CandidateID, Record>): set<CandidateID> {
    set id | id in m && m[id].status == Observed
  }

  // ---------- Blocks ----------

  datatype Progress = Complete | Incomplete | Broken

  predicate MemberOk(db: Database, block: Block, id: CandidateID) {
    && id in db.candidates && db.candidates[id].candidate.id == id
    && db.candidates[id].candidate.number == block.checkpoint.number
    && db.candidates[id].candidate.hash == block.checkpoint.hash
    && db.candidates[id].status != Observed
  }

  // blockComplete: members in order, up to the first that is not acknowledged.
  function ProgressFrom(db: Database, block: Block, k: nat): Progress
    requires k <= |block.members|
    decreases |block.members| - k
  {
    if k == |block.members| then Complete
    else if !MemberOk(db, block, block.members[k]) then Broken
    else if db.candidates[block.members[k]].status != Acknowledged then Incomplete
    else ProgressFrom(db, block, k + 1)
  }

  function ProgressOf(db: Database, block: Block): Progress { ProgressFrom(db, block, 0) }

  // ---------- Promotion ----------

  // readyCount
  predicate QueueReadable(c: Config, db: Database) {
    && |db.pending| <= c.maxPending
    && forall id | id in db.pending :: db.pending[id] in db.order && db.order[db.pending[id]] == id
  }

  function StagedIds(m: map<CandidateID, Record>): set<CandidateID> {
    set id | id in m && m[id].status == Staged
  }

  function DueIds(m: map<CandidateID, Record>, now: Time): set<CandidateID> {
    set id | id in m && m[id].status == Delayed && m[id].retryAt <= now
  }

  datatype Choice = Choice(ids: seq<CandidateID>, preferDelayed: bool)

  // Up to n candidates, alternating between newly staged and due delayed ones.
  function Interleave(staged: seq<CandidateID>, delayed: seq<CandidateID>, preferDelayed: bool, n: nat): Choice
    decreases n
  {
    if n == 0 || (staged == [] && delayed == []) then Choice([], preferDelayed)
    else if (preferDelayed && delayed != []) || staged == [] then
      var rest := Interleave(staged, delayed[1..], !preferDelayed, n - 1);
      Choice([delayed[0]] + rest.ids, rest.preferDelayed)
    else
      var rest := Interleave(staged[1..], delayed, !preferDelayed, n - 1);
      Choice([staged[0]] + rest.ids, rest.preferDelayed)
  }

  function Enqueue(db: Database, id: CandidateID): Database
    requires id in db.candidates && db.orderSequence < MAX_UINT64
  {
    var k := db.orderSequence + 1;
    db.(candidates := db.candidates[id := Record(Ready, UNSET, db.candidates[id].candidate)],
        order := db.order[k := id], orderSequence := k, pending := db.pending[id := k])
  }

  // A sequence number that wraps around or is taken stops the transaction.
  function EnqueueAll(db: Database, ids: seq<CandidateID>): Result<Database, Error>
    decreases |ids|
  {
    if ids == [] then Ok(db)
    else if ids[0] !in db.candidates || db.orderSequence == MAX_UINT64 || db.orderSequence + 1 in db.order then Err(Corrupt)
    else EnqueueAll(Enqueue(db, ids[0]), ids[1..])
  }

  ghost function Chosen(c: Config, db: Database, now: Time): Choice
    requires |db.pending| <= c.maxPending
  {
    Interleave(Sorted(StagedIds(db.candidates)), Sorted(DueIds(db.candidates, now)), db.preferDelayed, c.maxPending - |db.pending|)
  }

  // promoteCandidates
  ghost function Promote(c: Config, db: Database, now: Time): Result<Database, Error> {
    if !QueueReadable(c, db) then Err(Corrupt)
    else if |db.pending| == c.maxPending then Ok(db)
    else
      var staged, delayed := StagedIds(db.candidates), DueIds(db.candidates, now);
      if exists id | id in staged + delayed :: id in db.pending then Err(Corrupt)
      else if staged + delayed == {} then Ok(db)
      else
        var choice := Chosen(c, db, now);
        var queued := EnqueueAll(db, choice.ids);
        if queued.Err? then queued else Ok(queued.value.(preferDelayed := choice.preferDelayed))
  }

  // ---------- Forgetting candidates ----------

  function KeysOf(db: Database, ids: set<CandidateID>): set<Key> {
    set k | k in db.index && k.id in ids && k.id in db.candidates && KeyOf(db.candidates[k.id].candidate) == Some(k)
  }

  // Observations that turned out not to be canonical.
  function Discard(db: Database, ids: set<CandidateID>): Database {
    db.(candidates := db.candidates - ids, index := db.index - KeysOf(db, ids), pending := db.pending - ids)
  }

  // Acknowledged candidates nobody has to remember any more.
  function Forget(db: Database, ids: set<CandidateID>): Database {
    db.(candidates := db.candidates - ids, index := db.index - KeysOf(db, ids), incidents := db.incidents - ids)
  }

  // ---------- Checkpoint ----------

  function MemberSet(block: Block): set<CandidateID> { set id | id in block.members }

  function WithoutTombstonesOf(t: map<Uint64, CandidateID>, ids: set<CandidateID>): map<Uint64, CandidateID> {
    map k | k in t && t[k] !in ids :: t[k]
  }

  // One round of trimCanonicalBlocks: the oldest block and its members.
  function DropBlock(db: Database, number: Uint64): Database
    requires number in db.blocks && number < MAX_UINT64
  {
    var ids := MemberSet(db.blocks[number]);
    Forget(db, ids).(tombstones := WithoutTombstonesOf(db.tombstones, ids), blocks := db.blocks - {number}, baseline := Some(number + 1))
  }

  function DropUntil(db: Database, number: Uint64, until: Uint64): Result<Database, Error>
    decreases until - number
  {
    if number >= until then Ok(db)
    else if number !in db.blocks || ProgressOf(db, db.blocks[number]) != Complete then Err(Corrupt)
    else DropUntil(DropBlock(db, number), number + 1, until)
  }

  function Trim(db: Database, checkpoint: Uint64): Result<Database, Error> {
    if db.baseline.None? || checkpoint < db.baseline.value then Err(Corrupt)
    else if checkpoint - db.baseline.value + 1 <= CANONICAL_BLOCK_LIMIT then Ok(db)
    else DropUntil(db, db.baseline.value, checkpoint - CANONICAL_BLOCK_LIMIT + 1)
  }

  function AdvanceFrom(db: Database, next: Uint64): Result<Database, Error>
    decreases MAX_UINT64 - next
  {
    if next !in db.blocks then Ok(db)
    else
      match ProgressOf(db, db.blocks[next])
      case Broken => Err(Corrupt)
      case Incomplete => Ok(db)
      case Complete =>
        var trimmed := Trim(db.(checkpoint := Some(db.blocks[next].checkpoint)), next);
        if trimmed.Err? || next == MAX_UINT64 then trimmed else AdvanceFrom(trimmed.value, next + 1)
  }

  // advanceCheckpoint
  function Advance(db: Database): Result<Database, Error> {
    if db.baseline.None? then Ok(db)
    else if db.checkpoint.None? then AdvanceFrom(db, db.baseline.value)
    else if db.checkpoint.value.number == MAX_UINT64 then Err(Corrupt)
    else AdvanceFrom(db, db.checkpoint.value.number + 1)
  }

  // ---------- Tombstones ----------

  function Bury(db: Database, id: CandidateID): Database
    requires db.tombstoneSequence < MAX_UINT64
  {
    var k := db.tombstoneSequence + 1;
    db.(tombstones := db.tombstones[k := id], tombstoneSequence := k)
  }

  // retainedCanonicalMember, as far as eviction looks at it: the candidate's block is stored.
  predicate BlockStored(db: Database, candidate: Candidate) {
    KeyOf(candidate).Some? && candidate.number in db.blocks
  }

  // deleteAcknowledgedCandidate
  function Unbury(db: Database, id: CandidateID): Result<Database, Error> {
    if id !in db.candidates || db.candidates[id].status != Acknowledged || db.candidates[id].candidate.id != id then Err(Corrupt)
    else if BlockStored(db, db.candidates[id].candidate) then
      var block := db.blocks[db.candidates[id].candidate.number];
      if block.checkpoint.hash != db.candidates[id].candidate.hash || id !in block.members then Err(Corrupt) else Ok(db)
    else Ok(Forget(db, {id}))
  }

  ghost function OldestTombstone(db: Database): Uint64
    requires db.tombstones != map[]
  {
    Least(db.tombstones.Keys)
  }

  ghost function Evict(db: Database): Result<Database, Error>
    decreases |db.tombstones|
  {
    if |db.tombstones| <= TOMBSTONE_LIMIT then Ok(db)
    else
      var k := OldestTombstone(db);
      var rest := Unbury(db, db.tombstones[k]);
      if rest.Err? then rest else Evict(rest.value.(tombstones := db.tombstones - {k}))
  }
}
