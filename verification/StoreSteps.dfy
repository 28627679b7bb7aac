/** The transactions of the handoff store: each takes effect as a whole or not at all. */
module StoreSteps {
  import opened Prelude
  import opened Sorting
  import opened StoreModel

  datatype Put = Inserted | AlreadyPending | AlreadyAcknowledged

  datatype Outcome<+T> = Outcome(result: Result<T, Error>, after: Database)

  // Commit the new contents, or roll back.
  function Finish<T>(before: Database, after: Result<Database, Error>, value: T): Outcome<T> {
    if after.Ok? then Outcome(Ok(value), after.value) else Outcome(Err(after.error), before)
  }

  // ---------- Putting candidates ----------

  function AddCandidate(db: Database, status: Status, candidate: Candidate): Database {
    db.(candidates := db.candidates[candidate.id := Record(status, UNSET, candidate)],
        index := if KeyOf(candidate).Some? then db.index + {KeyOf(candidate).value} else db.index)
  }

  // An observation that became certain keeps its identity and takes the newer details.
  function Upgrade(db: Database, candidate: Candidate): Database
    requires candidate.id in db.candidates
  {
    db.(candidates := db.candidates[candidate.id :=
          StagedRecord(db.candidates[candidate.id].candidate.(detail := candidate.detail))])
  }

  // candidateAlreadyScanned
  predicate AlreadyScanned(db: Database, candidate: Candidate) {
    candidate.hash != 0 && db.cursor.Some? && candidate.number <= db.cursor.value.number
  }

  // reserveJournal
  predicate RoomFor(c: Config, db: Database, additional: nat) {
    |Unfinished(db.candidates)| + additional <= c.Capacity()
  }

  ghost function DoPut(c: Config, db: Database, candidate: Candidate, now: Time): Outcome<Put> {
    if !ValidCandidate(c, candidate) then Outcome(Err(InvalidInput), db)
    else if candidate.id in db.candidates then
      var record := db.candidates[candidate.id];
      if !SameIdentity(record.candidate, candidate) then Outcome(Err(Corrupt), db)
      else if record.status == Acknowledged then Outcome(Ok(AlreadyAcknowledged), db)
      else if record.status != Observed then Outcome(Ok(AlreadyPending), db)
      else if !RoomFor(c, db, 1) then Outcome(Err(JournalFull), db)
      else Finish(db, Promote(c, Upgrade(db, candidate), now), AlreadyPending)
    else if AlreadyScanned(db, candidate) then Outcome(Ok(AlreadyAcknowledged), db)
    else if !RoomFor(c, db, 1) then Outcome(Err(JournalFull), db)
    else Finish(db, Promote(c, AddCandidate(db, Staged, candidate), now), Inserted)
  }

  function DoPutObserved(c: Config, db: Database, candidate: Candidate): Outcome<Put> {
    if !ValidCandidate(c, candidate) then Outcome(Err(InvalidInput), db)
    else if candidate.id in db.candidates then
      var record := db.candidates[candidate.id];
      if !SameIdentity(record.candidate, candidate) then Outcome(Err(Corrupt), db)
      else if record.status == Acknowledged then Outcome(Ok(AlreadyAcknowledged), db)
      else Outcome(Ok(AlreadyPending), db)
    else if AlreadyScanned(db, candidate) then Outcome(Ok(AlreadyAcknowledged), db)
    else if |ObservedIds(db.candidates)| >= c.maxPending then Outcome(Err(Saturated), db)
    else Outcome(Ok(Inserted), AddCandidate(db, Observed, candidate))
  }

  function DoMarkRemoved(c: Config, db: Database, id: CandidateID): Outcome<()> {
    if id !in db.candidates then Outcome(Err(Conflict), db)
    else if !ValidRecord(c, id, db.candidates[id]) then Outcome(Err(Corrupt), db)
    else if db.candidates[id].status != Observed then Outcome(Err(Conflict), db)
    else Finish(db, Advance(Discard(db, {id})), ())
  }

  // ---------- Handing candidates out ----------

  predicate EntryReadable(c: Config, db: Database, k: Uint64)
    requires k in db.order
  {
    var id := db.order[k];
    && id in db.pending && db.pending[id] == k
    && id in db.candidates && ValidRecord(c, id, db.candidates[id]) && db.candidates[id].status == Ready
  }

  // One round of Next: promote, then take the first candidate in ready order.
  ghost function DoNext(c: Config, db: Database, now: Time): Outcome<Option<Candidate>> {
    var promoted := Promote(c, db, now);
    if promoted.Err? then Outcome(Err(promoted.error), db)
    else
      var after := promoted.value;
      if exists k | k in after.order :: !EntryReadable(c, after, k) then Outcome(Err(Corrupt), db)
      else if after.order == map[] then Outcome(Ok(None), after)
      else Outcome(Ok(Some(after.candidates[after.order[Least(after.order.Keys)]].candidate)), after)
  }

  function DoPutIncident(c: Config, db: Database, incident: Incident): Outcome<()> {
    if !ValidIncident(c, incident) || incident.network != c.network then Outcome(Err(InvalidInput), db)
    else if incident.candidate !in db.candidates then Outcome(Err(Conflict), db)
    else if !ValidRecord(c, incident.candidate, db.candidates[incident.candidate]) then Outcome(Err(Corrupt), db)
    else if var status := db.candidates[incident.candidate].status; status == Observed || status == Staged then Outcome(Err(Conflict), db)
    else if incident.candidate !in db.incidents
    then Outcome(Ok(()), db.(incidents := db.incidents[incident.candidate := incident]))
    else if db.incidents[incident.candidate].id != incident.id then Outcome(Err(Conflict), db)
    else Outcome(Ok(()), db)
  }

  // ---------- Ack and Nack ----------

  function Dequeue(db: Database, id: CandidateID, record: Record): Database
    requires id in db.pending
  {
    db.(candidates := db.candidates[id := record], order := db.order - {db.pending[id]}, pending := db.pending - {id})
  }

  // What resolve checks before it touches anything; None means go on.
  function ResolveError(c: Config, db: Database, id: CandidateID, incident: IncidentID): Option<Error> {
    if id !in db.incidents then Some(Conflict)
    else if db.incidents[id].candidate != id || db.incidents[id].network != c.network then Some(Corrupt)
    else if db.incidents[id].id != incident then Some(Conflict)
    else if id !in db.candidates || !ValidRecord(c, id, db.candidates[id]) then Some(Corrupt)
    else None
  }

  predicate Queued(db: Database, id: CandidateID) {
    id in db.pending && db.pending[id] in db.order && db.order[db.pending[id]] == id
  }

  ghost function DoAck(c: Config, db: Database, id: CandidateID, incident: IncidentID, now: Time): Outcome<()> {
    if ResolveError(c, db, id, incident).Some? then Outcome(Err(ResolveError(c, db, id, incident).value), db)
    else if db.candidates[id].status == Acknowledged then Outcome(Ok(()), db)
    else if db.candidates[id].status != Ready then Outcome(Err(Conflict), db)
    else if !Queued(db, id) || db.tombstoneSequence == MAX_UINT64 || db.tombstoneSequence + 1 in db.tombstones then Outcome(Err(Corrupt), db)
    else Finish(db, Settle(c, Bury(Dequeue(db, id, Record(Acknowledged, UNSET, db.candidates[id].candidate)), id), now), ())
  }

  // After the tombstone: evict, advance, promote.
  ghost function Settle(c: Config, buried: Database, now: Time): Result<Database, Error> {
    var evicted := Evict(buried);
    if evicted.Err? then evicted
    else
      var advanced := Advance(evicted.value);
      if advanced.Err? then advanced else Promote(c, advanced.value, now)
  }

  ghost function DoNack(c: Config, db: Database, id: CandidateID, incident: IncidentID, retryAt: Time, now: Time): Outcome<()> {
    if retryAt == UNSET then Outcome(Err(InvalidInput), db)
    else if ResolveError(c, db, id, incident).Some? then Outcome(Err(ResolveError(c, db, id, incident).value), db)
    else if db.candidates[id].status != Ready then Outcome(Err(Conflict), db)
    else if !Queued(db, id) then Outcome(Err(Corrupt), db)
    else Finish(db, Promote(c, Dequeue(db, id, Record(Delayed, retryAt, db.candidates[id].candidate)), now), ())
  }

  // ---------- Canonical blocks ----------

  datatype Canonical = Canonical(checkpoint: Checkpoint, parent: Hash, candidates: seq<Candidate>)

  function Ids(candidates: seq<Candidate>): set<CandidateID> { set i | 0 <= i < |candidates| :: candidates[i].id }

  predicate DistinctIds(candidates: seq<Candidate>) {
    forall i, j | 0 <= i < j < |candidates| :: candidates[i].id != candidates[j].id
  }

  predicate ValidCanonical(c: Config, block: Canonical) {
    && block.checkpoint.hash != 0 && |block.candidates| <= c.Capacity()
    && (forall i | 0 <= i < |block.candidates| ::
          && ValidCandidate(c, block.candidates[i])
          && block.candidates[i].number == block.checkpoint.number && block.candidates[i].hash == block.checkpoint.hash)
    && DistinctIds(block.candidates)
    && (block.checkpoint.number == 0 <==> block.parent == 0)
  }

  ghost function Requested(block: Canonical): Block {
    Block(block.checkpoint, block.parent, Sorted(Ids(block.candidates)))
  }

  // validateCommittedCandidates
  predicate Recommitted(c: Config, db: Database, block: Canonical) {
    forall i | 0 <= i < |block.candidates| ::
      var id := block.candidates[i].id;
      && id in db.candidates && ValidRecord(c, id, db.candidates[id])
      && SameIdentity(db.candidates[id].candidate, block.candidates[i]) && db.candidates[id].status != Observed
  }

  // The indexed candidates of a height that the block does not contain.
  function Strangers(db: Database, number: Uint64, wanted: set<CandidateID>): set<CandidateID> {
    set k | k in db.index && k.number == number && k.id !in wanted :: k.id
  }

  // reconcileBlockObservations
  function Reconcile(db: Database, number: Uint64, wanted: set<CandidateID>): Result<Database, Error> {
    if exists k | k in db.index :: k.number == number &&
         !(k.id in db.candidates && db.candidates[k.id].candidate.id == k.id && db.candidates[k.id].candidate.number == number)
    then Err(Corrupt)
    else if exists id | id in Strangers(db, number, wanted) :: id in db.candidates && db.candidates[id].status != Observed
    then Err(Conflict)
    else Ok(Discard(db, Strangers(db, number, wanted)))
  }

  // reserveUnconfirmedBlock
  function WindowError(db: Database, number: Uint64): Option<Error> {
    if db.cursor.None? then None
    else if db.checkpoint.Some? then
      if number <= db.checkpoint.value.number then Some(Corrupt)
      else if number - db.checkpoint.value.number > UNCONFIRMED_BLOCK_LIMIT then Some(JournalFull)
      else None
    else if db.baseline.None? || number < db.baseline.value then Some(Corrupt)
    else if number - db.baseline.value + 1 > UNCONFIRMED_BLOCK_LIMIT then Some(JournalFull)
    else None
  }

  // additionalJournalEntries
  function Additional(db: Database, candidates: seq<Candidate>): set<CandidateID> {
    set i | 0 <= i < |candidates| && (candidates[i].id !in db.candidates || db.candidates[candidates[i].id].status == Observed)
      :: candidates[i].id
  }

  predicate Consistent(c: Config, db: Database, candidates: seq<Candidate>) {
    forall i | 0 <= i < |candidates| && candidates[i].id in db.candidates ::
      ValidRecord(c, candidates[i].id, db.candidates[candidates[i].id]) && SameIdentity(db.candidates[candidates[i].id].candidate, candidates[i])
  }

  function StageOne(db: Database, candidate: Candidate): Database {
    if candidate.id !in db.candidates then AddCandidate(db, Staged, candidate)
    else if db.candidates[candidate.id].status == Observed then Upgrade(db, candidate)
    else db
  }

  function StageAll(db: Database, candidates: seq<Candidate>): Database
    decreases |candidates|
  {
    if candidates == [] then db else StageAll(StageOne(db, candidates[0]), candidates[1..])
  }

  ghost function AddBlock(db: Database, block: Canonical): Database {
    db.(blocks := db.blocks[block.checkpoint.number := Requested(block)],
        baseline := if db.cursor.None? then Some(block.checkpoint.number) else db.baseline,
        cursor := Some(block.checkpoint))
  }

  // The scan must continue where it stopped.
  function CursorError(db: Database, block: Canonical): Option<Error> {
    if db.cursor.None? then if db.baseline.Some? then Some(Corrupt) else None
    else if db.cursor.value.number == MAX_UINT64 then Some(Corrupt)
    else if block.checkpoint.number != db.cursor.value.number + 1 || block.parent != db.cursor.value.hash then Some(Conflict)
    else None
  }

  ghost function StageBlock(c: Config, db: Database, block: Canonical): Result<Database, Error> {
    var reconciled := Reconcile(db, block.checkpoint.number, Ids(block.candidates));
    if reconciled.Err? then reconciled
    else if WindowError(reconciled.value, block.checkpoint.number).Some?
    then Err(WindowError(reconciled.value, block.checkpoint.number).value)
    else if !Consistent(c, reconciled.value, block.candidates) then Err(Corrupt)
    else if !RoomFor(c, reconciled.value, |Additional(reconciled.value, block.candidates)|) then Err(JournalFull)
    else Ok(AddBlock(StageAll(reconciled.value, block.candidates), block))
  }

  ghost function DoCommit(c: Config, db: Database, block: Canonical, now: Time): Outcome<()> {
    if !ValidCanonical(c, block) then Outcome(Err(InvalidInput), db)
    else if block.checkpoint.number in db.blocks then
      if db.blocks[block.checkpoint.number] != Requested(block) then Outcome(Err(Conflict), db)
      else if !Recommitted(c, db, block) then Outcome(Err(Corrupt), db)
      else Outcome(Ok(()), db)
    else if CursorError(db, block).Some? then Outcome(Err(CursorError(db, block).value), db)
    else
      var staged := StageBlock(c, db, block);
      if staged.Err? then Outcome(Err(staged.error), db)
      else
        var promoted := Promote(c, staged.value, now);
        if promoted.Err? then Outcome(Err(promoted.error), db)
        else Finish(db, Advance(promoted.value), ())
  }

  // Replay: everything still to be handled.
  function DoReplay(db: Database): set<CandidateID> { Unfinished(db.candidates) }
}
