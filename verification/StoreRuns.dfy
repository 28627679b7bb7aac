/** Every run of the handoff store: validity, the chain, the checkpoint and the fate of candidates. */
module StoreRuns {
  import opened Prelude
  import opened Sorting
  import opened StoreModel
  import opened StoreSteps
  import opened StoreInvariant
  import opened StorePrimitives
  import opened StoreFlows
  import opened StoreTransactions
  import opened StoreCommit
  import opened StoreAdvance

  datatype Command =
    | Offer(candidate: Candidate, now: Time)
    | Observe(candidate: Candidate)
    | MarkRemoved(id: CandidateID)
    | Take(now: Time)
    | PutIncident(entry: Incident)
    | Ack(id: CandidateID, incident: IncidentID, now: Time)
    | Nack(id: CandidateID, incident: IncidentID, retryAt: Time, now: Time)
    | Commit(block: Canonical, now: Time)

  ghost function After(c: Config, db: Database, command: Command): Database {
    match command
    case Offer(candidate, now) => DoPut(c, db, candidate, now).after
    case Observe(candidate) => DoPutObserved(c, db, candidate).after
    case MarkRemoved(id) => DoMarkRemoved(c, db, id).after
    case Take(now) => DoNext(c, db, now).after
    case PutIncident(incident) => DoPutIncident(c, db, incident).after
    case Ack(id, incident, now) => DoAck(c, db, id, incident, now).after
    case Nack(id, incident, retryAt, now) => DoNack(c, db, id, incident, retryAt, now).after
    case Commit(block, now) => DoCommit(c, db, block, now).after
  }

  // The candidate a command acknowledges.
  ghost function Acked(c: Config, db: Database, command: Command): Option<CandidateID> {
    if command.Ack? && DoAck(c, db, command.id, command.incident, command.now).result.Ok? then Some(command.id) else None
  }

  predicate NoFast(command: Command) { command.Commit? ==> NoFastTokens(command.block) }

  lemma StepSound(c: Config, db: Database, command: Command)
    requires Inv(c, db) && NoFast(command)
    ensures Stepped(c, db, After(c, db, command), Acked(c, db, command), command)
  {
    match command
    case Offer(candidate, now) => PutSound(c, db, candidate, now);
    case Observe(candidate) => PutObservedSound(c, db, candidate);
    case MarkRemoved(id) => MarkRemovedSound(c, db, id);
    case Take(now) => NextSound(c, db, now);
    case PutIncident(incident) => PutIncidentSound(c, db, incident);
    case Ack(id, incident, now) => AckSound(c, db, id, incident, now);
    case Nack(id, incident, retryAt, now) => NackSound(c, db, id, incident, retryAt, now);
    case Commit(block, now) => CommitSound(c, db, block, now);
  }

  // ---------- Validity ----------

  ghost function Run(c: Config, commands: seq<Command>): Database
    decreases |commands|
  {
    if commands == [] then EMPTY_DATABASE else After(c, Run(c, commands[..|commands| - 1]), commands[|commands| - 1])
  }

  predicate AllNoFast(commands: seq<Command>) {
    forall i | 0 <= i < |commands| :: NoFast(commands[i])
  }

  lemma EmptyInv(c: Config)
    ensures Inv(c, EMPTY_DATABASE)
  {
  }

  lemma {:induction false} RunInv(c: Config, commands: seq<Command>)
    requires AllNoFast(commands)
    ensures Inv(c, Run(c, commands))
    decreases |commands|
  {
    if commands == [] {
      EmptyInv(c);
    } else {
      RunInv(c, commands[..|commands| - 1]);
      StepSound(c, Run(c, commands[..|commands| - 1]), commands[|commands| - 1]);
    }
  }

  // Every reachable database passes validateDatabase, as long as neither sequence counter has
  // reached its last value.
  lemma ReachableValidates(c: Config, commands: seq<Command>)
    requires AllNoFast(commands)
    ensures var db := Run(c, commands);
            Validates(c, db) <==> db.orderSequence != MAX_UINT64 && db.tombstoneSequence != MAX_UINT64
  {
    RunInv(c, commands);
    InvValidates(c, Run(c, commands));
  }

  // Every operation takes a validated database to a validated one, unless it uses up the last
  // number of a sequence counter; the two conditions validation leaves open are kept with it.
  lemma ValidatedStep(c: Config, db: Database, command: Command)
    requires Validates(c, db) && IncidentsHandedOut(db) && MembersStored(db) && NoFast(command)
    ensures var db' := After(c, db, command);
            && (Validates(c, db') <==> db'.orderSequence != MAX_UINT64 && db'.tombstoneSequence != MAX_UINT64)
            && IncidentsHandedOut(db') && MembersStored(db')
  {
    InvIsValidatedIff(c, db);
    StepSound(c, db, command);
    InvValidates(c, After(c, db, command));
  }

  // ---------- Histories ----------

  // What an observer of the whole run knows: the blocks committed, in order, and which of their
  // members have been acknowledged since.
  datatype History = History(db: Database, committed: seq<Canonical>, done: set<CandidateID>)

  const START := History(EMPTY_DATABASE, [], {})

  predicate IsMember(committed: seq<Canonical>, id: CandidateID) {
    exists k | 0 <= k < |committed| :: id in Ids(committed[k].candidates)
  }

  function AckedMembers(db: Database, committed: seq<Canonical>): set<CandidateID> {
    set id | id in db.candidates && db.candidates[id].status == Acknowledged && IsMember(committed, id)
  }

  function AckedNow(committed: seq<Canonical>, acked: Option<CandidateID>): set<CandidateID> {
    if acked.Some? && IsMember(committed, acked.value) then {acked.value} else {}
  }

  // A commit that put a new block into the store.
  predicate Extends(db: Database, db': Database, command: Command) {
    command.Commit? && command.block.checkpoint.number !in db.blocks && command.block.checkpoint.number in db'.blocks
  }

  ghost function Observe1(c: Config, h: History, command: Command): History {
    Extended(h, After(c, h.db, command), Acked(c, h.db, command), command)
  }

  ghost function Witness(c: Config, h: History, commands: seq<Command>): History
    decreases |commands|
  {
    if commands == [] then h else Observe1(c, Witness(c, h, commands[..|commands| - 1]), commands[|commands| - 1])
  }

  // ---------- The chain ----------

  // Committed blocks follow each other in height and by parent hash.
  ghost predicate Contiguous(committed: seq<Canonical>) {
    forall k | 0 < k < |committed| ::
      && committed[k].checkpoint.number == committed[k - 1].checkpoint.number + 1
      && committed[k].parent == committed[k - 1].checkpoint.hash
  }

  // The store holds the last of them, up to the cursor.
  ghost predicate StoresTail(db: Database, committed: seq<Canonical>) {
    && (db.cursor.None? <==> committed == [])
    && (committed != [] ==> db.cursor == Some(committed[|committed| - 1].checkpoint))
    && (forall n {:trigger n in db.blocks} | n in db.blocks :: StoredFrom(committed, n, db.blocks[n]))
  }

  ghost predicate StoredFrom(committed: seq<Canonical>, n: Uint64, block: Block) {
    exists k | 0 <= k < |committed| :: committed[k].checkpoint.number == n && block == Requested(committed[k])
  }

  // ---------- The fate of members ----------

  ghost predicate Tracked(c: Config, db: Database, done: set<CandidateID>, x: Candidate) {
    && ValidCandidate(c, x) && x.hash != 0 && db.cursor.Some? && x.number <= db.cursor.value.number
    && (x.id in done ==> x.id !in db.candidates || IsAcknowledged(db.candidates, x.id))
    && (x.id !in done ==> IsUnfinished(db.candidates, x.id))
  }

  ghost predicate BlockTracked(c: Config, db: Database, done: set<CandidateID>, block: Canonical) {
    forall i {:trigger block.candidates[i]} | 0 <= i < |block.candidates| :: Tracked(c, db, done, block.candidates[i])
  }

  ghost predicate AllTracked(c: Config, h: History) {
    forall k {:trigger h.committed[k]} | 0 <= k < |h.committed| :: BlockTracked(c, h.db, h.done, h.committed[k])
  }

  ghost predicate AckedDone(h: History) {
    AckedMembers(h.db, h.committed) <= h.done && forall id | id in h.done :: IsMember(h.committed, id)
  }

  // A committed block that is no longer stored is done.
  ghost predicate DroppedDone(h: History) {
    forall k {:trigger h.committed[k]} | 0 <= k < |h.committed| && h.committed[k].checkpoint.number !in h.db.blocks ::
      Ids(h.committed[k].candidates) <= h.done
  }

  ghost predicate HistoryInv(c: Config, h: History) {
    && Inv(c, h.db) && Contiguous(h.committed) && StoresTail(h.db, h.committed)
    && AllTracked(c, h) && AckedDone(h) && DroppedDone(h)
  }

  // Candidate identifiers are collision-free digests of everything but the refreshable details.
  ghost predicate Digests(c: Config) {
    forall x, y :: c.idOf(x) == c.idOf(y) ==> x == y
  }

  lemma SameIdSameBlock(c: Config, x: Candidate, y: Candidate)
    requires Digests(c) && ValidCandidate(c, x) && ValidCandidate(c, y) && x.id == y.id
    ensures SameIdentity(x, y)
  {
    assert x.(id := 0, detail := 0) == y.(id := 0, detail := 0);
  }

  // A candidate from a scanned height that is gone or acknowledged never comes back.
  lemma StaysGone(c: Config, db: Database, db': Database, acked: Option<CandidateID>, x: Candidate)
    requires Digests(c) && Inv(c, db') && Flows(db, db', acked)
    requires ValidCandidate(c, x) && AlreadyScanned(db, x) && (x.id !in db.candidates || IsAcknowledged(db.candidates, x.id))
    ensures x.id !in db'.candidates || IsAcknowledged(db'.candidates, x.id)
  {
    if x.id in db'.candidates && x.id !in db.candidates {
      assert ValidRecord(c, x.id, db'.candidates[x.id]);
      SameIdSameBlock(c, x, db'.candidates[x.id].candidate);
    }
  }

  lemma StaysTracked(c: Config, db: Database, db': Database, acked: Option<CandidateID>, done: set<CandidateID>, done': set<CandidateID>, x: Candidate)
    requires Digests(c) && Inv(c, db') && Flows(db, db', acked) && Tracked(c, db, done, x) && done <= done'
    requires acked == Some(x.id) ==> x.id in done'
    requires x.id in done' && x.id !in done && acked != Some(x.id) ==> IsAcknowledged(db'.candidates, x.id)
    ensures Tracked(c, db', done', x)
  {
    if x.id in done {
      StaysGone(c, db, db', acked, x);
    } else if acked != Some(x.id) {
      assert IsUnfinished(db'.candidates, x.id);
    }
  }

  // ---------- One step of a history ----------

  lemma {:induction false} HeightOf(committed: seq<Canonical>, k: nat)
    requires Contiguous(committed) && k < |committed|
    ensures committed[k].checkpoint.number == committed[0].checkpoint.number + k
  {
    if k > 0 {
      HeightOf(committed, k - 1);
    }
  }

  lemma SameHeight(committed: seq<Canonical>, j: nat, k: nat)
    requires Contiguous(committed) && j < |committed| && k < |committed|
    requires committed[j].checkpoint.number == committed[k].checkpoint.number
    ensures j == k
  {
    HeightOf(committed, j);
    HeightOf(committed, k);
  }

  lemma MemberOf(committed: seq<Canonical>, k: nat, i: nat)
    requires k < |committed| && i < |committed[k].candidates|
    ensures committed[k].candidates[i].id in Ids(committed[k].candidates) && IsMember(committed, committed[k].candidates[i].id)
  {
  }

  function NowDone(db': Database, committed': seq<Canonical>, done: set<CandidateID>, acked: Option<CandidateID>): set<CandidateID> {
    done + AckedMembers(db', committed') + AckedNow(committed', acked)
  }

  // Members of blocks that were already committed stay tracked.
  lemma OldTracked(c: Config, db: Database, db': Database, acked: Option<CandidateID>, done: set<CandidateID>, committed': seq<Canonical>, x: Candidate)
    requires Digests(c) && Inv(c, db') && Flows(db, db', acked) && Tracked(c, db, done, x) && IsMember(committed', x.id)
    ensures Tracked(c, db', NowDone(db', committed', done, acked), x)
  {
    DoneMeans(db', committed', done, acked, x.id);
    StaysTracked(c, db, db', acked, done, NowDone(db', committed', done, acked), x);
  }

  lemma DoneMeans(db': Database, committed': seq<Canonical>, done: set<CandidateID>, acked: Option<CandidateID>, id: CandidateID)
    requires IsMember(committed', id)
    ensures id in NowDone(db', committed', done, acked) <==> id in done || IsAcknowledged(db'.candidates, id) || acked == Some(id)
  {
  }

  lemma StepKeepsTracked(c: Config, h: History, h': History, acked: Option<CandidateID>, k: nat)
    requires Digests(c) && AllTracked(c, h) && Inv(c, h'.db) && Flows(h.db, h'.db, acked) && h.committed <= h'.committed && k < |h.committed|
    requires h'.done == NowDone(h'.db, h'.committed, h.done, acked)
    ensures BlockTracked(c, h'.db, h'.done, h'.committed[k])
  {
    var block := h.committed[k];
    assert h'.committed[k] == block && BlockTracked(c, h.db, h.done, block);
    forall i {:trigger block.candidates[i]} | 0 <= i < |block.candidates| ensures Tracked(c, h'.db, h'.done, block.candidates[i]) {
      MemberOf(h'.committed, k, i);
      OldTracked(c, h.db, h'.db, acked, h.done, h'.committed, block.candidates[i]);
    }
  }

  lemma StillMember(committed: seq<Canonical>, committed': seq<Canonical>, id: CandidateID)
    requires committed <= committed' && IsMember(committed, id)
    ensures IsMember(committed', id)
  {
    var k :| 0 <= k < |committed| && id in Ids(committed[k].candidates);
    assert id in Ids(committed'[k].candidates);
  }

  lemma AckedDoneStep(h: History, h': History, acked: Option<CandidateID>)
    requires AckedDone(h) && h.committed <= h'.committed
    requires h'.done == NowDone(h'.db, h'.committed, h.done, acked)
    ensures AckedDone(h')
  {
    forall id | id in h'.done ensures IsMember(h'.committed, id) {
      if id in h.done {
        StillMember(h.committed, h'.committed, id);
      }
    }
  }

  // A block dropped in this step was stored before it, with exactly its candidates as members.
  lemma DroppedNow(c: Config, h: History, done: set<CandidateID>, acked: Option<CandidateID>, k: nat)
    requires Contiguous(h.committed) && StoresTail(h.db, h.committed) && AckedDone(h) && k < |h.committed|
    requires h.committed[k].checkpoint.number in h.db.blocks && h.done <= done
    requires forall id | id in h.db.blocks[h.committed[k].checkpoint.number].members :: IsAcknowledged(h.db.candidates, id) || acked == Some(id)
    requires forall id | id in Ids(h.committed[k].candidates) && acked == Some(id) :: id in done
    ensures Ids(h.committed[k].candidates) <= done
  {
    var n := h.committed[k].checkpoint.number;
    var j :| 0 <= j < |h.committed| && h.committed[j].checkpoint.number == n && h.db.blocks[n] == Requested(h.committed[j]);
    SameHeight(h.committed, j, k);
    forall id | id in Ids(h.committed[k].candidates) ensures id in done {
      assert id in h.db.blocks[n].members;
      if IsAcknowledged(h.db.candidates, id) {
        assert id in AckedMembers(h.db, h.committed);
      }
    }
  }

  lemma QuietStep(c: Config, h: History, h': History, acked: Option<CandidateID>)
    requires Digests(c) && HistoryInv(c, h) && Sound(c, h.db, h'.db, acked)
    requires h'.committed == h.committed && h'.done == NowDone(h'.db, h'.committed, h.done, acked)
    ensures HistoryInv(c, h')
  {
    forall k {:trigger h'.committed[k]} | 0 <= k < |h'.committed| ensures BlockTracked(c, h'.db, h'.done, h'.committed[k]) {
      StepKeepsTracked(c, h, h', acked, k);
    }
    AckedDoneStep(h, h', acked);
    forall k | 0 <= k < |h'.committed| && h'.committed[k].checkpoint.number !in h'.db.blocks
      ensures Ids(h'.committed[k].candidates) <= h'.done
    {
      if h.committed[k].checkpoint.number in h.db.blocks {
        forall id | id in Ids(h.committed[k].candidates) && acked == Some(id) ensures id in h'.done {
          assert IsMember(h'.committed, id);
        }
        DroppedNow(c, h, h'.done, acked, k);
      }
    }
  }

  // The members of the new block: unfinished, or acknowledged already.
  lemma NewTracked(c: Config, h: History, h': History, block: Canonical)
    requires Digests(c) && HistoryInv(c, h) && Committed(c, h.db, h'.db, block)
    requires h'.committed == h.committed + [block] && h'.done == NowDone(h'.db, h'.committed, h.done, None)
    ensures BlockTracked(c, h'.db, h'.done, block)
  {
    forall i {:trigger block.candidates[i]} | 0 <= i < |block.candidates| ensures Tracked(c, h'.db, h'.done, block.candidates[i]) {
      var x := block.candidates[i];
      NewNotDone(c, h, block, x);
      MemberOf(h'.committed, |h.committed|, i);
      DoneMeans(h'.db, h'.committed, h.done, None, x.id);
      NewStored(c, h.db, h'.db, block, x.id);
    }
  }

  lemma NewNotDone(c: Config, h: History, block: Canonical, x: Candidate)
    requires Digests(c) && AllTracked(c, h) && AckedDone(h) && ValidCandidate(c, x) && x.number == block.checkpoint.number
    requires h.db.cursor.Some? ==> h.db.cursor.value.number < block.checkpoint.number
    ensures x.id !in h.done
  {
    if x.id in h.done {
      var k :| 0 <= k < |h.committed| && x.id in Ids(h.committed[k].candidates);
      var i :| 0 <= i < |h.committed[k].candidates| && h.committed[k].candidates[i].id == x.id;
      assert BlockTracked(c, h.db, h.done, h.committed[k]);
      SameIdSameBlock(c, x, h.committed[k].candidates[i]);
    }
  }

  lemma NewStored(c: Config, db: Database, db': Database, block: Canonical, id: CandidateID)
    requires Committed(c, db, db', block) && id in Ids(block.candidates)
    ensures IsUnfinished(db'.candidates, id) || IsAcknowledged(db'.candidates, id)
  {
    RequestedValid(c, block);
    var n := block.checkpoint.number;
    CursorStored(c, db', block.checkpoint);
    MemberStored(db', n, id);
  }

  lemma CursorStored(c: Config, db: Database, at: Checkpoint)
    requires Heights(db) && db.cursor == Some(at)
    ensures at.number in db.blocks
  {
  }

  lemma MemberStored(db: Database, n: Uint64, id: CandidateID)
    requires MembersStored(db) && n in db.blocks && id in db.blocks[n].members
    ensures id in db.candidates && db.candidates[id].status != Observed
  {
    assert MemberOk(db, db.blocks[n], id);
  }

  lemma StillStoredFrom(committed: seq<Canonical>, block: Canonical, n: Uint64, b: Block)
    ensures StoredFrom(committed, n, b) ==> StoredFrom(committed + [block], n, b)
    ensures StoredFrom(committed + [block], block.checkpoint.number, Requested(block))
  {
    var committed' := committed + [block];
    if StoredFrom(committed, n, b) {
      var k :| 0 <= k < |committed| && committed[k].checkpoint.number == n && b == Requested(committed[k]);
      assert committed'[k] == committed[k];
    }
    assert committed'[|committed|] == block;
  }

  lemma CommitTail(db: Database, db': Database, committed: seq<Canonical>, block: Canonical)
    requires StoresTail(db, committed) && CommitBlocks(db, db', block) && db'.cursor == Some(block.checkpoint)
    ensures StoresTail(db', committed + [block])
  {
    forall n | n in db'.blocks ensures StoredFrom(committed + [block], n, db'.blocks[n]) {
      if n in db.blocks {
        StillStoredFrom(committed, block, n, db.blocks[n]);
      } else {
        StillStoredFrom(committed, block, n, Requested(block));
      }
    }
  }

  lemma CommitContiguous(db: Database, committed: seq<Canonical>, block: Canonical)
    requires Contiguous(committed) && StoresTail(db, committed) && CursorError(db, block).None?
    ensures Contiguous(committed + [block])
  {
  }

  lemma CommitTracked(c: Config, h: History, h': History, block: Canonical)
    requires Digests(c) && AllTracked(c, h) && Inv(c, h'.db) && Flows(h.db, h'.db, None) && BlockTracked(c, h'.db, h'.done, block)
    requires h'.committed == h.committed + [block] && h'.done == NowDone(h'.db, h'.committed, h.done, None)
    ensures AllTracked(c, h')
  {
    assert h'.committed[|h.committed|] == block && h.committed <= h'.committed;
    forall k {:trigger h'.committed[k]} | 0 <= k < |h'.committed| ensures BlockTracked(c, h'.db, h'.done, h'.committed[k]) {
      if k < |h.committed| {
        StepKeepsTracked(c, h, h', None, k);
      }
    }
  }

  lemma CommitDropped(c: Config, h: History, h': History, block: Canonical)
    requires Contiguous(h.committed) && StoresTail(h.db, h.committed) && AckedDone(h) && DroppedDone(h)
    requires CommitBlocks(h.db, h'.db, block) && block.checkpoint.number in h'.db.blocks
    requires h'.committed == h.committed + [block] && h.done <= h'.done
    ensures DroppedDone(h')
  {
    forall k {:trigger h'.committed[k]} | 0 <= k < |h'.committed| && h'.committed[k].checkpoint.number !in h'.db.blocks
      ensures Ids(h'.committed[k].candidates) <= h'.done
    {
      assert k < |h.committed| && h'.committed[k] == h.committed[k];
      if h.committed[k].checkpoint.number in h.db.blocks {
        DroppedNow(c, h, h'.done, None, k);
      }
    }
  }

  lemma CommitStep(c: Config, h: History, h': History, block: Canonical)
    requires Digests(c) && HistoryInv(c, h) && Committed(c, h.db, h'.db, block) && h'.committed == h.committed + [block]
    requires h'.done == NowDone(h'.db, h'.committed, h.done, None)
    ensures HistoryInv(c, h')
  {
    CommitContiguous(h.db, h.committed, block);
    CommitTail(h.db, h'.db, h.committed, block);
    NewTracked(c, h, h', block);
    CommitTracked(c, h, h', block);
    AckedDoneStep(h, h', None);
    CursorStored(c, h'.db, block.checkpoint);
    CommitDropped(c, h, h', block);
  }

  // The next history, given the next database.
  ghost function Extended(h: History, db': Database, acked: Option<CandidateID>, command: Command): History {
    var committed := if Extends(h.db, db', command) then h.committed + [command.block] else h.committed;
    History(db', committed, NowDone(db', committed, h.done, acked))
  }

  ghost predicate Stepped(c: Config, db: Database, db': Database, acked: Option<CandidateID>, command: Command) {
    Sound(c, db, db', acked) || (command.Commit? && acked.None? && Committed(c, db, db', command.block))
  }

  lemma ExtendedInv(c: Config, h: History, db': Database, acked: Option<CandidateID>, command: Command)
    requires Digests(c) && HistoryInv(c, h) && Stepped(c, h.db, db', acked, command)
    ensures HistoryInv(c, Extended(h, db', acked, command))
  {
    var h' := Extended(h, db', acked, command);
    if Sound(c, h.db, db', acked) {
      assert !Extends(h.db, db', command);
      QuietStep(c, h, h', acked);
    } else {
      CursorStored(c, db', command.block.checkpoint);
      CommitStep(c, h, h', command.block);
    }
  }

  lemma ExtendedGrows(c: Config, h: History, db': Database, acked: Option<CandidateID>, command: Command)
    requires Stepped(c, h.db, db', acked, command)
    ensures h.done <= Extended(h, db', acked, command).done && h.committed <= Extended(h, db', acked, command).committed
    ensures CheckpointGrows(h.db, db')
  {
  }

  lemma HistoryStep(c: Config, h: History, command: Command)
    requires Digests(c) && HistoryInv(c, h) && NoFast(command)
    ensures var h' := Observe1(c, h, command);
            HistoryInv(c, h') && h.done <= h'.done && h.committed <= h'.committed && CheckpointGrows(h.db, h'.db)
  {
    StepSound(c, h.db, command);
    var db', acked := After(c, h.db, command), Acked(c, h.db, command);
    ExtendedInv(c, h, db', acked, command);
    ExtendedGrows(c, h, db', acked, command);
  }

  lemma StartInv(c: Config)
    ensures HistoryInv(c, START)
  {
    EmptyInv(c);
  }

  lemma {:induction false} HistoryRun(c: Config, h: History, commands: seq<Command>)
    requires Digests(c) && HistoryInv(c, h) && AllNoFast(commands)
    ensures HistoryInv(c, Witness(c, h, commands)) && h.done <= Witness(c, h, commands).done && h.committed <= Witness(c, h, commands).committed
    ensures CheckpointGrows(h.db, Witness(c, h, commands).db)
    decreases |commands|
  {
    if commands != [] {
      var before := Witness(c, h, commands[..|commands| - 1]);
      HistoryRun(c, h, commands[..|commands| - 1]);
      HistoryStep(c, before, commands[|commands| - 1]);
    }
  }

  // ---------- Theorems ----------

  // Committed blocks form one chain by height and hash; the store keeps its end, and a block it no
  // longer keeps has had every member acknowledged.
  lemma ChainUnbroken(c: Config, commands: seq<Command>, k: nat)
    requires Digests(c) && AllNoFast(commands) && k < |Witness(c, START, commands).committed|
    ensures var h := Witness(c, START, commands);
            && Contiguous(h.committed)
            && (h.committed[k].checkpoint.number !in h.db.blocks ==> Ids(h.committed[k].candidates) <= h.done)
            && (h.committed[k].checkpoint.number in h.db.blocks ==>
                  h.db.blocks[h.committed[k].checkpoint.number] == Requested(h.committed[k]))
  {
    StartInv(c);
    HistoryRun(c, START, commands);
    StoredAsCommitted(c, Witness(c, START, commands), k);
  }

  lemma StoredAsCommitted(c: Config, h: History, k: nat)
    requires Contiguous(h.committed) && StoresTail(h.db, h.committed) && k < |h.committed|
    ensures var n := h.committed[k].checkpoint.number;
            n in h.db.blocks ==> h.db.blocks[n] == Requested(h.committed[k])
  {
    var n := h.committed[k].checkpoint.number;
    if n in h.db.blocks {
      var j :| 0 <= j < |h.committed| && h.committed[j].checkpoint.number == n && h.db.blocks[n] == Requested(h.committed[j]);
      SameHeight(h.committed, j, k);
    }
  }

  // The checkpoint is the last block of the longest acknowledged prefix of what is stored, and it
  // never moves back.
  lemma CheckpointExact(c: Config, commands: seq<Command>, more: seq<Command>, n: Uint64)
    requires Digests(c) && AllNoFast(commands) && AllNoFast(more)
    ensures var h := Witness(c, START, commands);
            && CheckpointGrows(h.db, Witness(c, h, more).db)
            && (n in h.db.blocks && h.db.checkpoint.Some? && n <= h.db.checkpoint.value.number ==> AllAcknowledged(h.db, h.db.blocks[n]))
            && CheckpointMaximal(h.db)
  {
    StartInv(c);
    HistoryRun(c, START, commands);
    HistoryRun(c, Witness(c, START, commands), more);
  }

  // Next hands out only candidates that are ready.
  lemma NextIsReady(c: Config, db: Database, now: Time)
    ensures var outcome := DoNext(c, db, now);
            outcome.result.Ok? && outcome.result.value.Some? ==>
              && IsReady(outcome.after.candidates, outcome.result.value.value.id)
  {
    var outcome := DoNext(c, db, now);
    if outcome.result.Ok? && outcome.result.value.Some? {
      assert EntryReadable(c, outcome.after, Least(outcome.after.order.Keys));
    }
  }

  // A member of a committed block is in Replay until it is acknowledged; afterwards Put answers that
  // it was acknowledged, and no call of Next, at any later point, returns it.
  lemma MemberHandledOnce(c: Config, commands: seq<Command>, more: seq<Command>, now: Time, k: nat, i: nat)
    requires Digests(c) && AllNoFast(commands) && AllNoFast(more)
    requires k < |Witness(c, START, commands).committed| && i < |Witness(c, START, commands).committed[k].candidates|
    ensures var h := Witness(c, START, commands);
            var x := h.committed[k].candidates[i];
            var later := Witness(c, h, more);
            && (x.id !in h.done ==> x.id in DoReplay(h.db))
            && (x.id in h.done ==>
                  && x.id !in DoReplay(later.db)
                  && DoPut(c, later.db, x, now).result == Ok(AlreadyAcknowledged)
                  && NotReturned(DoNext(c, later.db, now).result, x.id))
  {
    StartInv(c);
    HistoryRun(c, START, commands);
    var h := Witness(c, START, commands);
    HistoryRun(c, h, more);
    var later := Witness(c, h, more);
    var x := h.committed[k].candidates[i];
    assert later.committed[k] == h.committed[k];
    assert BlockTracked(c, h.db, h.done, h.committed[k]) && BlockTracked(c, later.db, later.done, h.committed[k]);
    if x.id in h.done {
      GoneForGood(c, later, x, now);
    }
  }

  predicate NotReturned(result: Result<Option<Candidate>, Error>, id: CandidateID) {
    result.Ok? && result.value.Some? ==> result.value.value.id != id
  }

  lemma PutAnswers(c: Config, db: Database, x: Candidate, now: Time)
    requires Digests(c) && Rows(c, db.candidates) && ValidCandidate(c, x) && AlreadyScanned(db, x)
    requires x.id !in db.candidates || IsAcknowledged(db.candidates, x.id)
    ensures DoPut(c, db, x, now).result == Ok(AlreadyAcknowledged)
  {
    if x.id in db.candidates {
      assert ValidRecord(c, x.id, db.candidates[x.id]);
      SameIdSameBlock(c, db.candidates[x.id].candidate, x);
    }
  }

  lemma NextSkips(c: Config, db: Database, x: Candidate, now: Time)
    requires Digests(c) && Inv(c, db) && ValidCandidate(c, x) && AlreadyScanned(db, x)
    requires x.id !in db.candidates || IsAcknowledged(db.candidates, x.id)
    ensures NotReturned(DoNext(c, db, now).result, x.id)
  {
    NextSound(c, db, now);
    StaysGone(c, db, DoNext(c, db, now).after, None, x);
    NextIsReady(c, db, now);
  }

  lemma GoneForGood(c: Config, h: History, x: Candidate, now: Time)
    requires Digests(c) && HistoryInv(c, h) && Tracked(c, h.db, h.done, x) && x.id in h.done
    ensures x.id !in DoReplay(h.db)
    ensures DoPut(c, h.db, x, now).result == Ok(AlreadyAcknowledged)
    ensures NotReturned(DoNext(c, h.db, now).result, x.id)
  {
    PutAnswers(c, h.db, x, now);
    NextSkips(c, h.db, x, now);
  }
}
