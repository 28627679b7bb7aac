/** Runs in which the store forgets an acknowledged candidate that it would still have needed. */
module StoreWitness {
  import opened Prelude
  import opened Sorting
  import opened StoreModel
  import opened StoreSteps
  import opened StoreInvariant
  import opened StorePrimitives
  import opened StoreFlows
  import opened StoreRuns
  import opened StoreLimits

  // ---------- Handling one candidate while nothing else is going on ----------

  ghost predicate Quiet(db: Database) {
    && db.pending == map[] && db.order == map[]
    && forall id {:trigger db.candidates[id]} | id in db.candidates :: db.candidates[id].status == Acknowledged
  }

  // Advancing the checkpoint changes nothing, whatever the candidates are.
  predicate AtEnd(db: Database) {
    || db.baseline.None?
    || (db.checkpoint.Some? && db.checkpoint.value.number < MAX_UINT64 && db.checkpoint.value.number + 1 !in db.blocks)
  }

  function Offered(db: Database, x: Candidate): Database
    requires db.orderSequence < MAX_UINT64
  {
    var k := db.orderSequence + 1;
    db.(candidates := db.candidates[x.id := Record(Ready, UNSET, x)],
        index := if KeyOf(x).Some? then db.index + {KeyOf(x).value} else db.index,
        pending := map[x.id := k], order := map[k := x.id], orderSequence := k, preferDelayed := !db.preferDelayed)
  }

  function EntryOf(c: Config, id: CandidateID): Incident { Incident(c.incidentOf(id), id, c.network, SECOND) }

  function Filed(c: Config, db: Database, x: Candidate): Database
    requires db.orderSequence < MAX_UINT64
  {
    Offered(db, x).(incidents := db.incidents[x.id := EntryOf(c, x.id)])
  }

  function Handled(c: Config, db: Database, x: Candidate): Database
    requires db.orderSequence < MAX_UINT64 && db.tombstoneSequence < MAX_UINT64
  {
    Filed(c, db, x).(
      candidates := db.candidates[x.id := Record(Acknowledged, UNSET, x)], pending := map[], order := map[],
      tombstones := db.tombstones[db.tombstoneSequence + 1 := x.id], tombstoneSequence := db.tombstoneSequence + 1)
  }

  lemma SortedOne(id: CandidateID)
    ensures Sorted({id}) == [id] && Sorted({}) == []
  {
    SortedIs([id], {id});
    SortedIs([], {});
  }

  lemma ChoosesOne(id: CandidateID, prefer: bool, n: nat)
    requires n > 0
    ensures Interleave([id], [], prefer, n) == Choice([id], !prefer)
  {
    assert [id][1..] == [];
    assert Interleave([], [], !prefer, n - 1) == Choice([], !prefer);
  }

  lemma QueuesOne(db: Database, id: CandidateID)
    requires id in db.candidates && db.orderSequence < MAX_UINT64 && db.orderSequence + 1 !in db.order
    ensures EnqueueAll(db, [id]) == Ok(Enqueue(db, id))
  {
    assert [id][1..] == [];
    assert EnqueueAll(Enqueue(db, id), []) == Ok(Enqueue(db, id));
  }

  lemma OfferedIs(db: Database, x: Candidate)
    requires db.pending == map[] && db.order == map[] && db.orderSequence < MAX_UINT64
    ensures Enqueue(AddCandidate(db, Staged, x), x.id).(preferDelayed := !db.preferDelayed) == Offered(db, x)
  {
    assert db.candidates[x.id := StagedRecord(x)][x.id := Record(Ready, UNSET, x)] == db.candidates[x.id := Record(Ready, UNSET, x)];
  }

  lemma PromotesOnly(c: Config, db: Database, id: CandidateID, now: Time)
    requires db.pending == map[] && StagedIds(db.candidates) == {id} && DueIds(db.candidates, now) == {} && id in db.candidates
    requires db.orderSequence < MAX_UINT64 && db.orderSequence + 1 !in db.order && c.maxPending > 0
    ensures Promote(c, db, now) == Ok(Enqueue(db, id).(preferDelayed := !db.preferDelayed))
  {
    SortedOne(id);
    ChoosesOne(id, db.preferDelayed, c.maxPending);
    assert Chosen(c, db, now) == Choice([id], !db.preferDelayed);
    QueuesOne(db, id);
    assert {id} + {} == {id};
  }

  lemma AddedStaged(db: Database, x: Candidate, now: Time)
    requires Quiet(db) && x.id !in db.candidates
    ensures var added := AddCandidate(db, Staged, x);
            StagedIds(added.candidates) == {x.id} && DueIds(added.candidates, now) == {}
  {
  }

  // A new candidate in a quiet store is ready at once.
  lemma PromotesOne(c: Config, db: Database, x: Candidate, now: Time)
    requires Quiet(db) && x.id !in db.candidates && db.orderSequence < MAX_UINT64 && c.maxPending > 0
    ensures Promote(c, AddCandidate(db, Staged, x), now) == Ok(Offered(db, x))
  {
    AddedStaged(db, x, now);
    PromotesOnly(c, AddCandidate(db, Staged, x), x.id, now);
    OfferedIs(db, x);
  }

  lemma Offers(c: Config, db: Database, x: Candidate, now: Time)
    requires Quiet(db) && x.id !in db.candidates && db.orderSequence < MAX_UINT64 && c.maxPending > 0
    requires ValidCandidate(c, x) && !AlreadyScanned(db, x)
    ensures DoPut(c, db, x, now).after == Offered(db, x)
  {
    assert Unfinished(db.candidates) == {};
    PromotesOne(c, db, x, now);
  }

  lemma Files(c: Config, db: Database, x: Candidate)
    requires x.id !in db.incidents && ValidCandidate(c, x) && c.network > 0 && db.orderSequence < MAX_UINT64
    ensures DoPutIncident(c, Offered(db, x), EntryOf(c, x.id)).after == Filed(c, db, x)
  {
  }

  // Nothing is waiting, so nothing is promoted.
  lemma PromotesNone(c: Config, db: Database, now: Time)
    requires Quiet(db)
    ensures Promote(c, db, now) == Ok(db)
  {
    assert StagedIds(db.candidates) == {};
    assert DueIds(db.candidates, now) == {};
  }

  lemma AdvancesNone(db: Database)
    requires AtEnd(db)
    ensures Advance(db) == Ok(db)
  {
  }

  lemma HandledIs(c: Config, db: Database, x: Candidate)
    requires db.orderSequence < MAX_UINT64 && db.tombstoneSequence < MAX_UINT64
    ensures x.id in Filed(c, db, x).pending && Acknowledge(Filed(c, db, x), x.id) == Handled(c, db, x)
  {
    var acknowledged := Acknowledge(Filed(c, db, x), x.id);
    assert acknowledged.candidates == db.candidates[x.id := Record(Acknowledged, UNSET, x)];
    assert acknowledged.order == map[] && acknowledged.pending == map[];
  }

  predicate Closable(c: Config, db: Database, id: CandidateID, incident: IncidentID) {
    && ResolveError(c, db, id, incident).None? && IsReady(db.candidates, id) && Queued(db, id)
    && db.tombstoneSequence < MAX_UINT64 && db.tombstoneSequence + 1 !in db.tombstones
  }

  lemma AckIs(c: Config, db: Database, id: CandidateID, incident: IncidentID, now: Time, after: Database)
    requires Closable(c, db, id, incident) && Settle(c, Acknowledge(db, id), now) == Ok(after)
    ensures DoAck(c, db, id, incident, now) == Outcome(Ok(()), after)
  {
  }

  lemma FiledIsClosable(c: Config, db: Database, x: Candidate)
    requires db.orderSequence < MAX_UINT64 && ValidCandidate(c, x)
    requires db.tombstoneSequence < MAX_UINT64 && db.tombstoneSequence + 1 !in db.tombstones
    ensures Closable(c, Filed(c, db, x), x.id, c.incidentOf(x.id))
  {
  }

  lemma Acks(c: Config, db: Database, x: Candidate, now: Time, after: Database)
    requires db.orderSequence < MAX_UINT64 && db.tombstoneSequence < MAX_UINT64
    requires db.tombstoneSequence + 1 !in db.tombstones && ValidCandidate(c, x)
    requires Settle(c, Handled(c, db, x), now) == Ok(after)
    ensures DoAck(c, Filed(c, db, x), x.id, c.incidentOf(x.id), now).after == after
  {
    FiledIsClosable(c, db, x);
    HandledIs(c, db, x);
    AckIs(c, Filed(c, db, x), x.id, c.incidentOf(x.id), now, after);
  }

  // The candidate is acknowledged for good, as long as nothing has to be evicted.
  lemma Settles(c: Config, db: Database, now: Time)
    requires Quiet(db) && AtEnd(db) && |db.tombstones| <= TOMBSTONE_LIMIT
    ensures Settle(c, db, now) == Ok(db)
  {
    AdvancesNone(db);
    PromotesNone(c, db, now);
  }

  // A run that continues another one and leads to this database.
  ghost predicate Path(c: Config, start: seq<Command>, commands: seq<Command>, db: Database) {
    Run(c, commands) == db && start <= commands && (AllNoFast(start) ==> AllNoFast(commands))
  }

  lemma PathOn(c: Config, start: seq<Command>, commands: seq<Command>, command: Command, here: Database, there: Database)
    requires Path(c, start, commands, here) && After(c, here, command) == there && NoFast(command)
    ensures Path(c, start, commands + [command], there)
  {
    assert (commands + [command])[..|commands + [command]| - 1] == commands;
  }

  // The candidate is new and can be offered.
  ghost predicate Fresh(c: Config, db: Database, x: Candidate) {
    && Quiet(db) && x.id !in db.candidates && x.id !in db.incidents && ValidCandidate(c, x) && !AlreadyScanned(db, x)
    && c.network > 0 && c.maxPending > 0 && db.orderSequence < MAX_UINT64
    && db.tombstoneSequence < MAX_UINT64 && db.tombstoneSequence + 1 !in db.tombstones
  }

  function Closing(c: Config, x: Candidate): Command { Ack(x.id, c.incidentOf(x.id), SECOND) }

  lemma AfterOffer(c: Config, db: Database, x: Candidate, after: Database)
    requires DoPut(c, db, x, SECOND).after == after
    ensures After(c, db, Offer(x, SECOND)) == after
  {
  }

  lemma AfterPutIncident(c: Config, db: Database, incident: Incident, after: Database)
    requires DoPutIncident(c, db, incident).after == after
    ensures After(c, db, PutIncident(incident)) == after
  {
  }

  lemma Opens(c: Config, start: seq<Command>, commands: seq<Command>, db: Database, x: Candidate) returns (more: seq<Command>)
    requires Path(c, start, commands, db) && Fresh(c, db, x)
    ensures Path(c, start, more, Filed(c, db, x))
  {
    Offers(c, db, x, SECOND);
    AfterOffer(c, db, x, Offered(db, x));
    PathOn(c, start, commands, Offer(x, SECOND), db, Offered(db, x));
    more := FilesOn(c, start, commands + [Offer(x, SECOND)], db, x);
  }

  lemma FilesOn(c: Config, start: seq<Command>, commands: seq<Command>, db: Database, x: Candidate) returns (more: seq<Command>)
    requires x.id !in db.incidents && ValidCandidate(c, x) && c.network > 0 && db.orderSequence < MAX_UINT64
    requires Path(c, start, commands, Offered(db, x))
    ensures Path(c, start, more, Filed(c, db, x))
  {
    Files(c, db, x);
    AfterPutIncident(c, Offered(db, x), EntryOf(c, x.id), Filed(c, db, x));
    PathOn(c, start, commands, PutIncident(EntryOf(c, x.id)), Offered(db, x), Filed(c, db, x));
    more := commands + [PutIncident(EntryOf(c, x.id))];
  }

  lemma HandledQuiet(c: Config, db: Database, x: Candidate)
    requires Fresh(c, db, x)
    ensures Quiet(Handled(c, db, x))
    ensures |Handled(c, db, x).tombstones| == |db.tombstones| + 1
  {
    assert Handled(c, db, x).tombstones.Keys == db.tombstones.Keys + {db.tombstoneSequence + 1};
  }

  lemma AfterAck(c: Config, db: Database, x: Candidate, after: Database)
    requires DoAck(c, db, x.id, c.incidentOf(x.id), SECOND).after == after
    ensures After(c, db, Closing(c, x)) == after
  {
  }

  lemma Closes(c: Config, db: Database, x: Candidate)
    requires Fresh(c, db, x) && AtEnd(db) && |db.tombstones| < TOMBSTONE_LIMIT
    ensures DoAck(c, Filed(c, db, x), x.id, c.incidentOf(x.id), SECOND).after == Handled(c, db, x)
  {
    HandledQuiet(c, db, x);
    Settles(c, Handled(c, db, x), SECOND);
    Acks(c, db, x, SECOND, Handled(c, db, x));
  }

  lemma Handles(c: Config, start: seq<Command>, commands: seq<Command>, db: Database, x: Candidate) returns (more: seq<Command>)
    requires Path(c, start, commands, db) && Fresh(c, db, x) && AtEnd(db) && |db.tombstones| < TOMBSTONE_LIMIT
    ensures Path(c, start, more, Handled(c, db, x))
  {
    var opened' := Opens(c, start, commands, db, x);
    Closes(c, db, x);
    AfterAck(c, Filed(c, db, x), x, Handled(c, db, x));
    PathOn(c, start, opened', Closing(c, x), Filed(c, db, x), Handled(c, db, x));
    more := opened' + [Closing(c, x)];
  }

  // ---------- As many more as there are tombstones ----------

  const SETUP := Config(1, 1, 1, (x: Candidate) => x.rest, (id: CandidateID) => id + 1)

  // A candidate of no block.
  function Plain(n: CandidateID): Candidate { Candidate(n, 1, 1, Native, 0, 0, n, 0) }

  // One candidate, acknowledged.
  ghost predicate One(db: Database, x: Candidate) {
    && x.id == 1 && db.candidates == map[1 := Record(Acknowledged, UNSET, x)] && db.incidents == map[1 := EntryOf(SETUP, 1)]
    && db.pending == map[] && db.order == map[] && db.orderSequence == 1
    && db.tombstones == map[1 := 1] && db.tombstoneSequence == 1 && AtEnd(db)
    && db.index == if KeyOf(x).Some? then {KeyOf(x).value} else {}
  }

  function PlainRecords(n: nat): (m: map<CandidateID, Record>)
    ensures forall id {:trigger id in m} :: id in m <==> 2 <= id <= n
    ensures forall id {:trigger m[id]} | id in m :: m[id] == Record(Acknowledged, UNSET, Plain(id))
  {
    if n < 2 then map[] else PlainRecords(n - 1)[n := Record(Acknowledged, UNSET, Plain(n))]
  }

  function PlainEntries(n: nat): (m: map<CandidateID, Incident>)
    ensures forall id {:trigger id in m} :: id in m <==> 2 <= id <= n
    ensures forall id {:trigger m[id]} | id in m :: m[id] == EntryOf(SETUP, id)
  {
    if n < 2 then map[] else PlainEntries(n - 1)[n := EntryOf(SETUP, n)]
  }

  function Buried(n: Uint64): (m: map<Uint64, CandidateID>)
    ensures |m| == n
    ensures forall k: Uint64 {:trigger k in m} :: k in m <==> 1 <= k <= n
    ensures forall k {:trigger m[k]} | k in m :: m[k] == k
  {
    if n == 0 then map[] else Buried(n - 1)[n := n]
  }

  lemma JoinPut<K, V>(a: map<K, V>, b: map<K, V>, k: K, v: V)
    ensures a + b[k := v] == (a + b)[k := v]
  {
  }

  // The preference changes side each time one is handed out.
  function Turned(prefer: bool, n: Uint64): bool { if n <= 1 then prefer else !Turned(prefer, n - 1) }

  // The candidates up to n have been acknowledged, in order.
  function UpTo(db: Database, n: Uint64): Database {
    db.(candidates := db.candidates + PlainRecords(n), incidents := db.incidents + PlainEntries(n), orderSequence := n,
        tombstones := Buried(n), tombstoneSequence := n,
        preferDelayed := Turned(db.preferDelayed, n))
  }

  lemma PlainOne(n: Uint64)
    requires n == 1
    ensures PlainRecords(n) == map[] && PlainEntries(n) == map[] && Buried(n) == map[1 := 1]
  {
  }

  lemma JoinEmpty<K, V>(m: map<K, V>)
    ensures m + map[] == m
  {
  }

  lemma UpToOne(db: Database, x: Candidate, n: Uint64)
    requires One(db, x) && n == 1
    ensures UpTo(db, n) == db
  {
    PlainOne(n);
    JoinEmpty(db.candidates);
    JoinEmpty(db.incidents);
  }

  lemma UpToMore(db: Database, x: Candidate, n: Uint64)
    requires One(db, x) && 1 <= n < MAX_UINT64
    ensures Handled(SETUP, UpTo(db, n), Plain(n + 1)) == UpTo(db, n + 1)
  {
    JoinPut(db.candidates, PlainRecords(n), n + 1, Record(Acknowledged, UNSET, Plain(n + 1)));
    JoinPut(db.incidents, PlainEntries(n), n + 1, EntryOf(SETUP, n + 1));
  }

  lemma UpToQuiet(db: Database, x: Candidate, n: Uint64)
    requires One(db, x) && n >= 1
    ensures Quiet(UpTo(db, n)) && AtEnd(UpTo(db, n))
  {
  }

  lemma PlainFresh(db: Database, n: Uint64)
    requires Quiet(db) && db.orderSequence == n && db.tombstoneSequence == n && n < MAX_UINT64
    requires n + 1 !in db.candidates && n + 1 !in db.incidents && n + 1 !in db.tombstones
    ensures Fresh(SETUP, db, Plain(n + 1))
  {
  }

  lemma UpToFresh(db: Database, x: Candidate, n: Uint64)
    requires One(db, x) && 1 <= n < MAX_UINT64
    ensures Fresh(SETUP, UpTo(db, n), Plain(n + 1)) && AtEnd(UpTo(db, n))
  {
    UpToQuiet(db, x, n);
    PlainFresh(UpTo(db, n), n);
  }

  // Each of these databases comes from the one before by handling one more candidate.
  ghost predicate Step(d: Uint64 -> Database, k: Uint64) {
    && k < MAX_UINT64 && Fresh(SETUP, d(k), Plain(k + 1)) && AtEnd(d(k)) && |d(k).tombstones| < TOMBSTONE_LIMIT
    && d(k + 1) == Handled(SETUP, d(k), Plain(k + 1))
  }

  lemma StepsOn(start: seq<Command>, before: seq<Command>, d: Uint64 -> Database, k: Uint64) returns (all: seq<Command>)
    requires k < MAX_UINT64 && Step(d, k) && Path(SETUP, start, before, d(k))
    ensures Path(SETUP, start, all, d(k + 1))
  {
    all := Handles(SETUP, start, before, d(k), Plain(k + 1));
  }

  lemma {:induction false} Reaches(start: seq<Command>, d: Uint64 -> Database, n: Uint64) returns (all: seq<Command>)
    requires n >= 1 && Path(SETUP, start, start, d(1)) && forall k {:trigger Step(d, k)} | 1 <= k < n :: Step(d, k)
    ensures Path(SETUP, start, all, d(n))
    decreases n
  {
    if n == 1 {
      all := start;
    } else {
      var before := Reaches(start, d, n - 1);
      assert Step(d, n - 1);
      all := StepsOn(start, before, d, n - 1);
    }
  }

  lemma UpToStep(db: Database, x: Candidate, d: Uint64 -> Database, k: Uint64)
    requires One(db, x) && 1 <= k < TOMBSTONE_LIMIT && d(k) == UpTo(db, k) && d(k + 1) == UpTo(db, k + 1)
    ensures Step(d, k)
  {
    UpToFresh(db, x, k);
    UpToMore(db, x, k);
  }

  lemma UpToSteps(db: Database, x: Candidate, d: Uint64 -> Database, n: Uint64)
    requires One(db, x) && n <= TOMBSTONE_LIMIT && forall k {:trigger d(k)} :: d(k) == UpTo(db, k)
    ensures forall k {:trigger Step(d, k)} | 1 <= k < n :: Step(d, k)
  {
    forall k: Uint64 | 1 <= k < n ensures Step(d, k) {
      assert d(k) == UpTo(db, k) && d(k + 1) == UpTo(db, k + 1);
      UpToStep(db, x, d, k);
    }
  }

  lemma Ladder(db: Database, x: Candidate, first: Uint64, n: Uint64) returns (d: Uint64 -> Database)
    requires One(db, x) && first == 1 <= n <= TOMBSTONE_LIMIT
    ensures d(first) == db && d(n) == UpTo(db, n) && forall k {:trigger Step(d, k)} | 1 <= k < n :: Step(d, k)
  {
    d := (k: Uint64) => UpTo(db, k);
    UpToOne(db, x, first);
    UpToSteps(db, x, d, n);
  }

  lemma ReachesUpTo(start: seq<Command>, db: Database, x: Candidate, n: Uint64) returns (all: seq<Command>)
    requires Run(SETUP, start) == db && One(db, x) && 1 <= n <= TOMBSTONE_LIMIT
    ensures Path(SETUP, start, all, UpTo(db, n))
  {
    var d := Ladder(db, x, 1, n);
    all := Reaches(start, d, n);
  }

  // ---------- The first one is forgotten ----------

  function Forgotten(db: Database, n: Uint64): Database {
    UpTo(db, n).(candidates := PlainRecords(n), index := {}, incidents := PlainEntries(n), tombstones := Buried(n) - {1})
  }

  lemma FirstIsOldest(db: Database, n: Uint64)
    requires n >= 1
    ensures UpTo(db, n).tombstones != map[] && OldestTombstone(UpTo(db, n)) == 1
  {
    assert 1 in Buried(n);
    assert IsLeast(Buried(n).Keys, 1);
  }

  lemma WithoutFirst<V>(v: V, m: map<CandidateID, V>)
    requires 1 !in m
    ensures (map[1 := v] + m) - {1} == m
  {
  }

  lemma ForgetsFirst(db: Database, x: Candidate, n: Uint64)
    requires One(db, x) && n >= 1
    ensures Forget(UpTo(db, n), {1}) == UpTo(db, n).(candidates := PlainRecords(n), index := {}, incidents := PlainEntries(n))
  {
    WithoutFirst(Record(Acknowledged, UNSET, x), PlainRecords(n));
    WithoutFirst(EntryOf(SETUP, 1), PlainEntries(n));
    var all := UpTo(db, n);
    assert all.candidates[1] == Record(Acknowledged, UNSET, x);
    assert all.index - KeysOf(all, {1}) == {};
  }

  lemma Evicts(db: Database, x: Candidate, n: Uint64)
    requires One(db, x) && !BlockStored(db, x) && n == TOMBSTONE_LIMIT + 1
    ensures Evict(UpTo(db, n)) == Ok(Forgotten(db, n))
  {
    FirstIsOldest(db, n);
    ForgetsFirst(db, x, n);
    assert Unbury(UpTo(db, n), 1) == Ok(Forget(UpTo(db, n), {1}));
    EvictOne(UpTo(db, n), 1, 1);
  }

  lemma PlainQuiet(db: Database, n: nat)
    requires db.pending == map[] && db.order == map[] && db.candidates == PlainRecords(n)
    ensures Quiet(db)
  {
  }

  lemma ForgottenIs(db: Database, n: Uint64)
    ensures var after := Forgotten(db, n);
            && after.candidates == PlainRecords(n) && after.pending == db.pending && after.order == db.order
            && after.baseline == db.baseline && after.checkpoint == db.checkpoint && after.blocks == db.blocks
  {
  }

  lemma ForgottenQuiet(db: Database, after: Database, n: Uint64)
    requires db.pending == map[] && db.order == map[] && AtEnd(db) && after == Forgotten(db, n)
    ensures Quiet(after) && AtEnd(after)
  {
    ForgottenIs(db, n);
    PlainQuiet(after, n);
  }

  lemma SettlesLast(db: Database, x: Candidate, n: Uint64)
    requires One(db, x) && !BlockStored(db, x) && n == TOMBSTONE_LIMIT + 1
    ensures Settle(SETUP, UpTo(db, n), SECOND) == Ok(Forgotten(db, n))
  {
    Evicts(db, x, n);
    ForgottenQuiet(db, Forgotten(db, n), n);
    AdvancesNone(Forgotten(db, n));
    PromotesNone(SETUP, Forgotten(db, n), SECOND);
  }

  // The next candidate has been handed out, before its acknowledgement.
  function Final(db: Database, n: Uint64): Database
    requires n >= 2
  {
    Filed(SETUP, UpTo(db, n - 1), Plain(n))
  }

  lemma ClosesLast(db: Database, x: Candidate, n: Uint64)
    requires One(db, x) && !BlockStored(db, x) && n == TOMBSTONE_LIMIT + 1
    ensures DoAck(SETUP, Final(db, n), n, n + 1, SECOND).after == Forgotten(db, n)
  {
    UpToFresh(db, x, n - 1);
    UpToMore(db, x, n - 1);
    SettlesLast(db, x, n);
    Acks(SETUP, UpTo(db, n - 1), Plain(n), SECOND, Forgotten(db, n));
  }

  lemma Finals(start: seq<Command>, db: Database, x: Candidate, n: Uint64) returns (all: seq<Command>)
    requires Run(SETUP, start) == db && One(db, x) && n == TOMBSTONE_LIMIT + 1
    ensures Path(SETUP, start, all, Final(db, n))
  {
    var before := ReachesUpTo(start, db, x, n - 1);
    UpToFresh(db, x, n - 1);
    all := Opens(SETUP, start, before, UpTo(db, n - 1), Plain(n));
  }

  // After one more acknowledgement than there are tombstones, the first candidate is forgotten.
  lemma Forgets(start: seq<Command>, db: Database, x: Candidate, n: Uint64) returns (all: seq<Command>)
    requires Run(SETUP, start) == db && One(db, x) && !BlockStored(db, x) && n == TOMBSTONE_LIMIT + 1
    ensures Path(SETUP, start, all, Forgotten(db, n))
  {
    var before := Finals(start, db, x, n);
    ClosesLast(db, x, n);
    AfterAck(SETUP, Final(db, n), Plain(n), Forgotten(db, n));
    PathOn(SETUP, start, before, Closing(SETUP, Plain(n)), Final(db, n), Forgotten(db, n));
    all := before + [Closing(SETUP, Plain(n))];
  }

  // ---------- Committing a block with one candidate ----------

  function WithBlock(db: Database, block: Canonical, x: Candidate): Database {
    db.(blocks := map[block.checkpoint.number := Block(block.checkpoint, block.parent, [x.id])],
        baseline := Some(block.checkpoint.number), cursor := Some(block.checkpoint))
  }

  // No block yet, and no candidate of any block.
  ghost predicate Blockless(db: Database) {
    Quiet(db) && db.blocks == map[] && db.baseline.None? && db.cursor.None? && db.checkpoint.None? && db.index == {}
  }

  ghost predicate Single(c: Config, db: Database, block: Canonical, x: Candidate) {
    && block.candidates == [x] && ValidCanonical(c, block) && x.id !in db.candidates && Blockless(db)
    && db.orderSequence < MAX_UINT64 && c.maxPending > 0
  }

  lemma RequestedOne(block: Canonical, x: Candidate)
    requires block.candidates == [x]
    ensures Ids(block.candidates) == {x.id} && Requested(block) == Block(block.checkpoint, block.parent, [x.id])
  {
    assert block.candidates[0] == x;
    assert Ids(block.candidates) == {x.id};
    SortedOne(x.id);
  }

  lemma ReconcilesNone(db: Database, n: Uint64, wanted: set<CandidateID>)
    requires db.index == {}
    ensures Reconcile(db, n, wanted) == Ok(db)
  {
    assert Strangers(db, n, wanted) == {};
    assert db.candidates - {} == db.candidates && db.pending - {} == db.pending && db.index - KeysOf(db, {}) == db.index;
    assert Discard(db, {}) == db;
  }

  lemma StagesOne(c: Config, db: Database, block: Canonical, x: Candidate)
    requires Single(c, db, block, x)
    ensures StageBlock(c, db, block) == Ok(AddCandidate(WithBlock(db, block, x), Staged, x))
  {
    RequestedOne(block, x);
    ReconcilesNone(db, block.checkpoint.number, {x.id});
    assert Unfinished(db.candidates) == {};
    assert Additional(db, [x]) == {x.id};
    assert [x][1..] == [];
    assert StageAll(db, [x]) == AddCandidate(db, Staged, x);
    assert map[][block.checkpoint.number := Requested(block)] == map[block.checkpoint.number := Requested(block)];
  }

  lemma MemberReady(c: Config, db: Database, block: Canonical, x: Candidate)
    requires Single(c, db, block, x)
    ensures Advance(Offered(WithBlock(db, block, x), x)) == Ok(Offered(WithBlock(db, block, x), x))
  {
    var after := Offered(WithBlock(db, block, x), x);
    assert ValidCandidate(c, block.candidates[0]) && block.candidates[0] == x;
    assert ProgressOf(after, after.blocks[block.checkpoint.number]) == Incomplete;
  }

  lemma CommitIs(c: Config, db: Database, block: Canonical, staged: Database, after: Database)
    requires ValidCanonical(c, block) && block.checkpoint.number !in db.blocks && CursorError(db, block).None?
    requires StageBlock(c, db, block) == Ok(staged) && Promote(c, staged, SECOND) == Ok(after) && Advance(after) == Ok(after)
    ensures DoCommit(c, db, block, SECOND) == Outcome(Ok(()), after)
  {
  }

  lemma CommitsOne(c: Config, db: Database, block: Canonical, x: Candidate)
    requires Single(c, db, block, x)
    ensures DoCommit(c, db, block, SECOND) == Outcome(Ok(()), Offered(WithBlock(db, block, x), x))
  {
    StagesOne(c, db, block, x);
    PromotesOne(c, WithBlock(db, block, x), x, SECOND);
    MemberReady(c, db, block, x);
    CommitIs(c, db, block, AddCandidate(WithBlock(db, block, x), Staged, x), Offered(WithBlock(db, block, x), x));
  }

  // ---------- Acknowledged, forgotten, committed, handed out again ----------

  const MEMBER := Candidate(1, 1, 1, Token, 5, 9, 1, 0)
  const MEMBER_BLOCK := Canonical(Checkpoint(5, 9), 8, [MEMBER])

  lemma FirstHandled() returns (start: seq<Command>)
    ensures Run(SETUP, start) == Handled(SETUP, EMPTY_DATABASE, MEMBER) && AllNoFast(start)
    ensures One(Handled(SETUP, EMPTY_DATABASE, MEMBER), MEMBER)
  {
    assert Path(SETUP, [], [], EMPTY_DATABASE);
    start := Handles(SETUP, [], [], EMPTY_DATABASE, MEMBER);
    assert map[][1 := Record(Acknowledged, UNSET, MEMBER)] == map[1 := Record(Acknowledged, UNSET, MEMBER)];
  }

  lemma BlocksUntouched(db: Database, n: Uint64)
    requires n >= 1 && db.blocks == map[] && db.baseline.None? && db.cursor.None? && db.checkpoint.None?
    ensures var after := Forgotten(db, n);
            && after.blocks == map[] && after.baseline.None? && after.cursor.None? && after.checkpoint.None? && after.index == {}
            && 1 !in after.candidates && after.orderSequence == n
  {
  }

  lemma TakesMember(db: Database)
    requires Blockless(db) && 1 !in db.candidates && db.orderSequence < MAX_UINT64
    ensures Single(SETUP, db, MEMBER_BLOCK, MEMBER)
  {
  }

  lemma ForgottenTakesMember(db: Database, n: Uint64)
    requires One(db, MEMBER) && 1 <= n < MAX_UINT64
    requires db.blocks == map[] && db.baseline.None? && db.cursor.None? && db.checkpoint.None?
    ensures Single(SETUP, Forgotten(db, n), MEMBER_BLOCK, MEMBER)
  {
    ForgottenQuiet(db, Forgotten(db, n), n);
    BlocksUntouched(db, n);
    TakesMember(Forgotten(db, n));
  }

  lemma OfferedReplays(db: Database, x: Candidate)
    requires db.orderSequence < MAX_UINT64
    ensures x.id in DoReplay(Offered(db, x))
  {
  }

  lemma AfterCommit(c: Config, db: Database, block: Canonical, after: Database)
    requires DoCommit(c, db, block, SECOND).after == after
    ensures After(c, db, Commit(block, SECOND)) == after
  {
  }

  lemma CommitsMember(start: seq<Command>, commands: seq<Command>, db: Database, block: Canonical, x: Candidate)
    requires Path(SETUP, start, commands, db) && Single(SETUP, db, block, x) && NoFast(Commit(block, SECOND))
    ensures Path(SETUP, start, commands + [Commit(block, SECOND)], Offered(WithBlock(db, block, x), x))
  {
    CommitsOne(SETUP, db, block, x);
    AfterCommit(SETUP, db, block, Offered(WithBlock(db, block, x), x));
    PathOn(SETUP, start, commands, Commit(block, SECOND), db, Offered(WithBlock(db, block, x), x));
  }

  lemma HandledIsAcknowledged(c: Config, db: Database, x: Candidate)
    requires db.orderSequence < MAX_UINT64 && db.tombstoneSequence < MAX_UINT64
    ensures IsAcknowledged(Handled(c, db, x).candidates, x.id)
  {
  }

  lemma MemberForgotten() returns (start: seq<Command>, all: seq<Command>, after: Database)
    ensures AllNoFast(start) && IsAcknowledged(Run(SETUP, start).candidates, MEMBER.id)
    ensures Path(SETUP, start, all, after) && Single(SETUP, after, MEMBER_BLOCK, MEMBER)
  {
    start := FirstHandled();
    var db := Handled(SETUP, EMPTY_DATABASE, MEMBER);
    HandledIsAcknowledged(SETUP, EMPTY_DATABASE, MEMBER);
    var n: Uint64 := TOMBSTONE_LIMIT + 1;
    all := Forgets(start, db, MEMBER, n);
    after := Forgotten(db, n);
    ForgottenTakesMember(db, n);
  }

  /** A run that acknowledges a candidate, and after which the same candidate is handed out to be handled again. */
  lemma AcknowledgedComesBack() returns (commands: seq<Command>, k: nat)
    ensures AllNoFast(commands) && k <= |commands|
    ensures IsAcknowledged(Run(SETUP, commands[..k]).candidates, MEMBER.id)
    ensures MEMBER.id in DoReplay(Run(SETUP, commands))
  {
    var start, all, after := MemberForgotten();
    CommitsMember(start, all, after, MEMBER_BLOCK, MEMBER);
    commands, k := all + [Commit(MEMBER_BLOCK, SECOND)], |start|;
    assert commands[..k] == start;
    OfferedReplays(WithBlock(after, MEMBER_BLOCK, MEMBER), MEMBER);
  }

  // ---------- A block whose member is forgotten ----------

  const FAST := Candidate(1, 1, 1, FastToken, 1, 9, 1, 0)
  const FAST_CHECKPOINT := Checkpoint(1, 9)
  const FAST_BLOCK := Canonical(FAST_CHECKPOINT, 8, [FAST])

  lemma FastCompletes(db: Database)
    requires db.blocks == map[1 := Block(FAST_CHECKPOINT, 8, [1])] && db.baseline == Some(1) && db.checkpoint.None?
    requires 1 in db.candidates && db.candidates[1] == Record(Acknowledged, UNSET, FAST)
    ensures Advance(db) == Ok(db.(checkpoint := Some(FAST_CHECKPOINT)))
  {
    var after := db.(checkpoint := Some(FAST_CHECKPOINT));
    assert ProgressFrom(db, db.blocks[1], 1) == Complete;
    assert ProgressOf(db, db.blocks[1]) == Complete;
    assert Trim(after, 1) == Ok(after);
    assert AdvanceFrom(after, 2) == Ok(after);
  }

  lemma FastSettles(db: Database)
    requires Quiet(db) && |db.tombstones| <= TOMBSTONE_LIMIT
    requires db.blocks == map[1 := Block(FAST_CHECKPOINT, 8, [1])] && db.baseline == Some(1) && db.checkpoint.None?
    requires 1 in db.candidates && db.candidates[1] == Record(Acknowledged, UNSET, FAST)
    ensures Settle(SETUP, db, SECOND) == Ok(db.(checkpoint := Some(FAST_CHECKPOINT)))
  {
    FastCompletes(db);
    PromotesNone(SETUP, db.(checkpoint := Some(FAST_CHECKPOINT)), SECOND);
  }

  // A database whose only block has the fast token as its only member.
  function FastBlock(): Database { WithBlock(EMPTY_DATABASE, FAST_BLOCK, FAST) }

  function FastHandled(): Database { Handled(SETUP, FastBlock(), FAST).(checkpoint := Some(FAST_CHECKPOINT)) }

  lemma RunOn(c: Config, commands: seq<Command>, command: Command, here: Database, there: Database)
    requires Run(c, commands) == here && After(c, here, command) == there
    ensures Run(c, commands + [command]) == there
  {
    assert (commands + [command])[..|commands + [command]| - 1] == commands;
  }

  lemma FastFiled() returns (start: seq<Command>)
    ensures Run(SETUP, start) == Filed(SETUP, FastBlock(), FAST)
  {
    CommitsOne(SETUP, EMPTY_DATABASE, FAST_BLOCK, FAST);
    AfterCommit(SETUP, EMPTY_DATABASE, FAST_BLOCK, Offered(FastBlock(), FAST));
    assert Run(SETUP, []) == EMPTY_DATABASE;
    RunOn(SETUP, [], Commit(FAST_BLOCK, SECOND), EMPTY_DATABASE, Offered(FastBlock(), FAST));
    Files(SETUP, FastBlock(), FAST);
    start := [] + [Commit(FAST_BLOCK, SECOND)] + [PutIncident(EntryOf(SETUP, 1))];
    RunOn(SETUP, [] + [Commit(FAST_BLOCK, SECOND)], PutIncident(EntryOf(SETUP, 1)), Offered(FastBlock(), FAST), Filed(SETUP, FastBlock(), FAST));
  }

  lemma FastAcks()
    ensures DoAck(SETUP, Filed(SETUP, FastBlock(), FAST), 1, 2, SECOND).after == FastHandled()
  {
    FastSettles(Handled(SETUP, FastBlock(), FAST));
    Acks(SETUP, FastBlock(), FAST, SECOND, FastHandled());
  }

  lemma FastStarts() returns (start: seq<Command>)
    ensures Run(SETUP, start) == FastHandled()
  {
    var before := FastFiled();
    FastAcks();
    AfterAck(SETUP, Filed(SETUP, FastBlock(), FAST), FAST, FastHandled());
    RunOn(SETUP, before, Closing(SETUP, FAST), Filed(SETUP, FastBlock(), FAST), FastHandled());
    start := before + [Closing(SETUP, FAST)];
  }

  lemma FastIsOne()
    ensures One(FastHandled(), FAST) && OneBlock(FastHandled()) && !BlockStored(FastHandled(), FAST)
  {
    assert map[][1 := Record(Acknowledged, UNSET, FAST)] == map[1 := Record(Acknowledged, UNSET, FAST)];
  }

  // What the store holds when the last candidate has been handed out: everything but that one is acknowledged.
  ghost predicate Records(m: map<CandidateID, Record>, n: Uint64) {
    && (forall id {:trigger id in m} :: id in m <==> 1 <= id <= n)
    && forall id {:trigger m[id]} | id in m ::
         m[id] == Record(if id == n then Ready else Acknowledged, UNSET, if id == 1 then FAST else Plain(id))
  }

  ghost predicate Entries(m: map<CandidateID, Incident>, n: Uint64) {
    && (forall id {:trigger id in m} :: id in m <==> 1 <= id <= n)
    && forall id {:trigger m[id]} | id in m :: m[id] == EntryOf(SETUP, id)
  }

  predicate OneBlock(db: Database) {
    && db.blocks == map[1 := Block(FAST_CHECKPOINT, 8, [1])] && db.baseline == Some(1)
    && db.cursor == Some(FAST_CHECKPOINT) && db.checkpoint == Some(FAST_CHECKPOINT) && db.index == {}
  }

  ghost predicate Shape(db: Database, n: Uint64) {
    && 2 <= n < MAX_UINT64 && Records(db.candidates, n) && Entries(db.incidents, n) && OneBlock(db)
    && db.pending == map[n := n] && db.order == map[n := n] && db.orderSequence == n
    && db.tombstones == Buried(n - 1) && db.tombstoneSequence == n - 1
  }

  lemma AreRecords(m: map<CandidateID, Record>, n: Uint64)
    requires n >= 2 && m == (map[1 := Record(Acknowledged, UNSET, FAST)] + PlainRecords(n - 1))[n := Record(Ready, UNSET, Plain(n))]
    ensures Records(m, n)
  {
  }

  lemma AreEntries(m: map<CandidateID, Incident>, n: Uint64)
    requires n >= 2 && m == (map[1 := EntryOf(SETUP, 1)] + PlainEntries(n - 1))[n := EntryOf(SETUP, n)]
    ensures Entries(m, n)
  {
  }

  lemma FinalIs(db: Database, n: Uint64, before: Database)
    requires 2 <= n < MAX_UINT64 && before == UpTo(db, n - 1)
    ensures var after := Final(db, n);
            && after.pending == map[n := n] && after.order == map[n := n] && after.orderSequence == n
            && after == before.(candidates := before.candidates[n := Record(Ready, UNSET, Plain(n))],
                                incidents := before.incidents[n := EntryOf(SETUP, n)], pending := after.pending, order := after.order,
                                orderSequence := n, preferDelayed := after.preferDelayed)
  {
  }

  lemma FinalShape(db: Database, n: Uint64)
    requires One(db, FAST) && 2 <= n < MAX_UINT64 && OneBlock(db)
    ensures Shape(Final(db, n), n)
  {
    var before := UpTo(db, n - 1);
    FinalIs(db, n, before);
    AreRecords(Final(db, n).candidates, n);
    AreEntries(Final(db, n).incidents, n);
  }

  lemma ShapeRows(db: Database, n: Uint64)
    requires Shape(db, n)
    ensures Rows(SETUP, db.candidates) && Queue(db) && Index(db)
  {
  }

  lemma ShapeIncidents(db: Database, n: Uint64)
    requires Shape(db, n)
    ensures IncidentRows(SETUP, db) && ResolvedHaveIncidents(db) && IncidentsHandedOut(db)
  {
  }

  lemma ShapeCounts(db: Database, n: Uint64)
    requires Shape(db, n)
    ensures Counts(SETUP, db)
  {
    assert Unfinished(db.candidates) == {n};
    assert ObservedIds(db.candidates) == {};
  }

  lemma ShapeTombstones(db: Database, n: Uint64)
    requires Shape(db, n)
    ensures Tombstones(db)
  {
    forall id | IsAcknowledged(db.candidates, id) ensures StoreInvariant.Buried(db.tombstones, id) {
      assert id in db.candidates && id != n;
      assert id in Buried(n - 1);
    }
  }

  lemma FastProgress(db: Database)
    requires 1 in db.candidates && db.candidates[1] == Record(Acknowledged, UNSET, FAST)
    ensures ProgressOf(db, Block(FAST_CHECKPOINT, 8, [1])) == Complete
  {
    assert ProgressFrom(db, Block(FAST_CHECKPOINT, 8, [1]), 1) == Complete;
  }

  lemma ShapeBlocks(db: Database, n: Uint64)
    requires Shape(db, n)
    ensures Chain(SETUP, db) && MembershipFull(db) && BlocksReadable(db) && WindowOk(db)
    ensures db.checkpoint == ExpectedFrom(db, db.baseline.value)
  {
    FastProgress(db);
    assert ExpectedFrom(db, 2).None?;
  }

  lemma ShapeValidates(db: Database, n: Uint64)
    requires Shape(db, n) && n <= TOMBSTONE_LIMIT + 1
    ensures Validates(SETUP, db) && IncidentsHandedOut(db)
  {
    ShapeRows(db, n);
    ShapeIncidents(db, n);
    ShapeCounts(db, n);
    ShapeTombstones(db, n);
    ShapeBlocks(db, n);
  }

  lemma ForgottenUnreadable(db: Database, n: Uint64)
    requires n >= 1 && OneBlock(db)
    ensures !BlocksReadable(Forgotten(db, n))
  {
    var after := Forgotten(db, n);
    assert 1 !in after.candidates;
    assert ProgressOf(after, after.blocks[1]) == Broken;
  }

  lemma Breaks(db: Database, n: Uint64)
    requires One(db, FAST) && OneBlock(db) && !BlockStored(db, FAST) && n == TOMBSTONE_LIMIT + 1
    ensures Shape(Final(db, n), n) && !BlocksReadable(Forgotten(db, n))
    ensures After(SETUP, Final(db, n), Closing(SETUP, Plain(n))) == Forgotten(db, n)
  {
    FinalShape(db, n);
    ForgottenUnreadable(db, n);
    ClosesLast(db, FAST, n);
    AfterAck(SETUP, Final(db, n), Plain(n), Forgotten(db, n));
  }

  lemma FastEnds(n: Uint64) returns (commands: seq<Command>, before: Database, after: Database)
    requires n == TOMBSTONE_LIMIT + 1
    ensures Run(SETUP, commands) == before && Shape(before, n) && !BlocksReadable(after)
    ensures After(SETUP, before, Closing(SETUP, Plain(n))) == after
  {
    var db := FastHandled();
    before, after := Final(db, n), Forgotten(db, n);
    FastIsOne();
    Breaks(db, n);
    var start := FastStarts();
    commands := Finals(start, db, FAST, n);
  }

  /** A run whose database passes validation and has incidents only for what was handed out, and an
      acknowledgement after which it no longer does: the member of a stored block is gone. */
  lemma FastMemberForgotten() returns (commands: seq<Command>, last: Command)
    ensures Validates(SETUP, Run(SETUP, commands)) && IncidentsHandedOut(Run(SETUP, commands)) && NoFast(last)
    ensures !BlocksReadable(Run(SETUP, commands + [last])) && !Validates(SETUP, Run(SETUP, commands + [last]))
  {
    var n: Uint64 := TOMBSTONE_LIMIT + 1;
    var before: Database, after: Database;
    commands, before, after := FastEnds(n);
    last := Closing(SETUP, Plain(n));
    ShapeValidates(before, n);
    RunOn(SETUP, commands, last, before, after);
  }
}
