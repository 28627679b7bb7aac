/** Every run of the budget ledger: limits, permanence of charges, and the overrun latch. */
module BudgetRuns {
  import opened Prelude
  import opened BudgetModel
  import opened BudgetSteps

  // ---------- Runs ----------

  // Each command carries the clock reading it happens to see; readings may go backwards.
  datatype Command =
    | DoReserve(request: Request, clock: Time)
    | DoExpose(id: ReservationID, txHash: Hash)
    | DoCommit(charge: Charge, clock: Time)
    | DoRelease(id: ReservationID)
    | DoCheck(id: ReservationID, balance: Wei)

  ghost function Step(c: Config, s: Ledger, command: Command): Outcome {
    match command
    case DoReserve(request, clock) => Reserve(c, s, request, clock)
    case DoExpose(id, txHash) => MarkExposed(c, s, id, txHash)
    case DoCommit(charge, clock) => CommitFinalized(c, s, charge, clock)
    case DoRelease(id) => ReleaseProvenUnused(c, s, id)
    case DoCheck(id, balance) => CheckSponsorCapacity(c, s, id, balance)
  }

  // What an outside auditor writes down: the amount of every charge the ledger accepts, as it was
  // submitted, once for each reservation.
  datatype Entry = Entry(reservation: ReservationID, network: NetworkID, at: Time, actual: Wei)

  datatype Run = Run(ledger: Ledger, log: seq<Entry>)

  predicate HasEntry(log: seq<Entry>, id: ReservationID) { exists k | 0 <= k < |log| :: log[k].reservation == id }

  function Logged(run: Run, command: Command, result: Result<Reservation, Error>): seq<Entry> {
    if command.DoCommit? && result.Ok? && !HasEntry(run.log, command.charge.reservation) then
      run.log + [Entry(command.charge.reservation, result.value.request.network,
                       CommitTime(run.ledger, command.charge, command.clock), command.charge.actual)]
    else run.log
  }

  ghost function Advance(c: Config, run: Run, command: Command): Run {
    var o := Step(c, run.ledger, command);
    Run(o.after, Logged(run, command, o.result))
  }

  ghost function Continue(c: Config, run: Run, commands: seq<Command>): Run
    decreases |commands|
  {
    if commands == [] then run
    else Advance(c, Continue(c, run, commands[..|commands| - 1]), commands[|commands| - 1])
  }

  // A run from a freshly initialised ledger.
  ghost function After(c: Config, commands: seq<Command>): Run {
    Continue(c, Run(INITIAL, []), commands)
  }

  function LogSum(log: seq<Entry>, scope: Scope, from: Time, to: Time): nat {
    if log == [] then 0
    else
      var e := log[|log| - 1];
      LogSum(log[..|log| - 1], scope, from, to) +
      (if InScope(scope, e.network) && from <= e.at <= to then e.actual else 0)
  }

  function LogTotal(log: seq<Entry>, scope: Scope): nat {
    if log == [] then 0
    else
      var e := log[|log| - 1];
      LogTotal(log[..|log| - 1], scope) + (if InScope(scope, e.network) then e.actual else 0)
  }

  // ---------- What one step can do ----------

  // A step that changes nothing but the last time seen.
  ghost predicate Idle(s: Ledger, s': Ledger) {
    s' == s.(lastSeen := s'.lastSeen) && s.lastSeen <= s'.lastSeen
  }

  predicate Edge(from: State, to: State) {
    match from
    case Held => to != Committed
    case Exposed => to == Committed
    case Committed => false
    case Released => to == Held
  }

  // One record moves along an edge of the state machine.
  ghost predicate Moves(c: Config, r: Reservation, r': Reservation, now: Time) {
    && Edge(r.state, r'.state)
    && ValidReservation(c, r')
    && r'.id == r.id
    && r'.maximum == r.maximum
    && r'.request.attempt == r.request.attempt
    && r'.request.network == r.request.network
    && (if r.state == Held == r'.state then r'.updatedAt == r.updatedAt else r'.updatedAt == now)
    && (r.state == Exposed ==> r'.txHash == r.txHash)
  }

  ghost predicate Affordable(c: Config, m: map<ReservationID, Reservation>, network: NetworkID, maximum: Wei, now: Time) {
    && network in c.policy.networks
    && UsageOf(m, Global, now).Admits(c.policy.global, maximum)
    && UsageOf(m, Net(network), now).Admits(c.policy.networks[network].limits, maximum)
  }

  ghost predicate Replaces(c: Config, s: Ledger, s': Ledger, id: ReservationID) {
    && id in s.reservations
    && id in s'.reservations
    && s.lastSeen <= s'.lastSeen
    && s' == s.(reservations := s.reservations[id := s'.reservations[id]], lastSeen := s'.lastSeen)
    && Moves(c, s.reservations[id], s'.reservations[id], s'.lastSeen)
    && (s.reservations[id].state == Released ==>
          Affordable(c, s.reservations, s.reservations[id].request.network, s.reservations[id].maximum, s'.lastSeen))
  }

  // A new reservation, in the place of a purged one when the file is full.
  ghost predicate Inserts(c: Config, s: Ledger, s': Ledger, id: ReservationID, room: Ledger) {
    && id in s'.reservations
    && id !in room.reservations
    && var r := s'.reservations[id];
    && s.lastSeen <= s'.lastSeen
    && r.request.attempt !in s.attempts
    && IsRoom(c, s, room)
    && s' == Ledger(room.reservations[id := r], room.attempts[r.request.attempt := id], s'.lastSeen)
    && ValidReservation(c, r) && r.id == id && r.state == Held && r.updatedAt == s'.lastSeen
    && Affordable(c, s.reservations, r.request.network, r.maximum, s'.lastSeen)
  }

  // What collectUsage cannot see: no record is dated after the last time seen.
  ghost predicate TimesOk(s: Ledger) {
    ValidTime(s.lastSeen) && forall id | id in s.reservations :: s.reservations[id].updatedAt <= s.lastSeen
  }

  ghost predicate Structured(c: Config, s: Ledger) {
    && AllValid(c, s.reservations)
    && Filed(s)
    && Indexed(s)
    && |s.attempts| == |s.reservations| <= c.maxRecords
    && TimesOk(s)
  }

  ghost predicate Effect(c: Config, s: Ledger, s': Ledger) {
    || Idle(s, s')
    || (exists id :: Replaces(c, s, s', id))
    || (exists id, room :: Inserts(c, s, s', id, room))
  }

  lemma ReviveMoves(c: Config, r: Reservation, request: Request, now: Time)
    requires ValidReservation(c, r) && r.state == Released && ValidTime(now)
    requires ValidRequest(c, request) && SameRequest(r.request, request)
    ensures Moves(c, r, Revived(r, request, now), now)
    ensures MaximumOf(c, request) == r.maximum
  {
  }

  lemma ReviveEffect(c: Config, s: Ledger, request: Request, now: Time)
    requires Structured(c, s) && s.lastSeen <= now
    requires ValidRequest(c, request) && request.attempt in s.attempts
    requires var existing := s.reservations[s.attempts[request.attempt]];
             existing.state == Released && SameRequest(existing.request, request)
    requires BudgetError(c, s.reservations, request, now).None?
    ensures var existing := s.reservations[s.attempts[request.attempt]];
            Effect(c, s, s.(reservations := s.reservations[existing.id := Revived(existing, request, now)], lastSeen := now))
  {
    var existing := s.reservations[s.attempts[request.attempt]];
    var s' := s.(reservations := s.reservations[existing.id := Revived(existing, request, now)], lastSeen := now);
    ReviveMoves(c, existing, request, now);
    assert Replaces(c, s, s', existing.id);
  }

  lemma ReserveExistingStores(c: Config, s: Ledger, request: Request, now: Time)
    requires s.lastSeen <= now && ValidRequest(c, request)
    requires request.attempt in s.attempts && s.attempts[request.attempt] in s.reservations
    ensures var s' := ReserveExisting(c, s, request, now).after;
            var existing := s.reservations[s.attempts[request.attempt]];
            || Idle(s, s')
            || (&& SameRequest(existing.request, request) && existing.state == Released
                && BudgetError(c, s.reservations, request, now).None?
                && s' == s.(reservations := s.reservations[existing.id := Revived(existing, request, now)], lastSeen := now))
  {
  }

  lemma ReserveExistingEffect(c: Config, s: Ledger, request: Request, now: Time)
    requires Structured(c, s) && s.lastSeen <= now
    requires ValidRequest(c, request) && request.attempt in s.attempts
    ensures Effect(c, s, ReserveExisting(c, s, request, now).after)
  {
    var existing := s.reservations[s.attempts[request.attempt]];
    ReserveExistingStores(c, s, request, now);
    if Idle(s, ReserveExisting(c, s, request, now).after) {
    } else {
      ReviveEffect(c, s, request, now);
    }
  }

  lemma NewReservationValid(c: Config, request: Request, now: Time)
    requires c.Valid() && ValidRequest(c, request) && ValidTime(now)
    requires MaximumOf(c, request) <= c.policy.global.perTransaction
    requires MaximumOf(c, request) <= c.policy.networks[request.network].limits.perTransaction
    ensures ValidReservation(c, NewReservation(c, request, now))
  {
  }

  // The ledger a new reservation is written into.
  ghost predicate IsRoom(c: Config, s: Ledger, room: Ledger) {
    if |s.reservations| < c.maxRecords then room == s
    else exists gone :: IsOldestReleased(s.reservations, gone) && room == Purged(s, gone)
  }

  lemma ReserveNewStores(c: Config, s: Ledger, request: Request, now: Time) returns (room: Ledger)
    requires ValidRequest(c, request)
    ensures var s' := ReserveNew(c, s, request, now).after;
            || s' == s
            || (&& IsRoom(c, s, room)
                && BudgetError(c, s.reservations, request, now).None?
                && var r := NewReservation(c, request, now);
                && r.id !in room.reservations
                && s' == Ledger(room.reservations[r.id := r], room.attempts[request.attempt := r.id], now))
  {
    var full := |s.reservations| >= c.maxRecords;
    room := if full && HasOldest(s.reservations) then Purged(s, OldestReleased(s.reservations)) else s;
  }

  lemma InsertEffect(c: Config, s: Ledger, room: Ledger, request: Request, now: Time)
    requires c.Valid() && ValidTime(now) && s.lastSeen <= now && IsRoom(c, s, room)
    requires ValidRequest(c, request) && request.attempt !in s.attempts
    requires BudgetError(c, s.reservations, request, now).None?
    requires c.idOf(request.attempt) !in room.reservations
    ensures var r := NewReservation(c, request, now);
            Effect(c, s, Ledger(room.reservations[r.id := r], room.attempts[request.attempt := r.id], now))
  {
    NewReservationValid(c, request, now);
    var r := NewReservation(c, request, now);
    var s' := Ledger(room.reservations[r.id := r], room.attempts[request.attempt := r.id], now);
    assert s'.reservations[r.id] == r;
    assert Inserts(c, s, s', r.id, room);
  }

  lemma ReserveNewEffect(c: Config, s: Ledger, request: Request, now: Time)
    requires c.Valid() && Structured(c, s) && s.lastSeen <= now
    requires ValidRequest(c, request) && request.attempt !in s.attempts
    ensures Effect(c, s, ReserveNew(c, s, request, now).after)
  {
    var room := ReserveNewStores(c, s, request, now);
    if ReserveNew(c, s, request, now).after == s {
      assert Idle(s, s);
    } else {
      InsertEffect(c, s, room, request, now);
    }
  }

  lemma ReserveIs(c: Config, s: Ledger, request: Request, clock: Time)
    ensures var s', now := Reserve(c, s, request, clock).after, Clamp(s.lastSeen, clock);
            || s' == s
            || (&& ValidRequest(c, request)
                && if request.attempt in s.attempts
                   then s.attempts[request.attempt] in s.reservations && s' == ReserveExisting(c, s, request, now).after
                   else s' == ReserveNew(c, s, request, now).after)
  {
  }

  lemma ReserveEffect(c: Config, s: Ledger, request: Request, clock: Time)
    requires c.Valid() && Structured(c, s)
    ensures Effect(c, s, Reserve(c, s, request, clock).after)
  {
    var s', now := Reserve(c, s, request, clock).after, Clamp(s.lastSeen, clock);
    ReserveIs(c, s, request, clock);
    if s' == s {
      assert Idle(s, s');
    } else if request.attempt in s.attempts {
      ReserveExistingEffect(c, s, request, now);
    } else {
      ReserveNewEffect(c, s, request, now);
    }
  }

  lemma StoredEffect(c: Config, s: Ledger, r: Reservation, updated: Result<Reservation, Error>, now: Time)
    requires Structured(c, s) && r.id in s.reservations && s.reservations[r.id] == r && s.lastSeen <= now
    requires updated.Ok? && updated.value != r && ValidReservation(c, updated.value) ==> Moves(c, r, updated.value, now)
    requires r.state != Released || updated.Err? || updated.value == r
    ensures Effect(c, s, Stored(c, s, r, updated, now).after)
  {
    var s' := Stored(c, s, r, updated, now).after;
    if !Idle(s, s') {
      assert Replaces(c, s, s', r.id);
    }
  }

  // Each transition either leaves the ledger alone or stores what its update function returns.
  lemma ExposeStores(c: Config, s: Ledger, id: ReservationID, txHash: Hash)
    ensures var s' := MarkExposed(c, s, id, txHash).after;
            || s' == s
            || (&& id in s.reservations
                && s' == Stored(c, s, s.reservations[id], Expose(s.reservations[id], txHash, s.lastSeen), s.lastSeen).after)
  {
  }

  lemma ExposeMoves(c: Config, s: Ledger, id: ReservationID, txHash: Hash)
    requires Structured(c, s) && id in s.reservations
    ensures Effect(c, s, Stored(c, s, s.reservations[id], Expose(s.reservations[id], txHash, s.lastSeen), s.lastSeen).after)
  {
    StoredEffect(c, s, s.reservations[id], Expose(s.reservations[id], txHash, s.lastSeen), s.lastSeen);
  }

  lemma ExposeEffect(c: Config, s: Ledger, id: ReservationID, txHash: Hash)
    requires Structured(c, s)
    ensures Effect(c, s, MarkExposed(c, s, id, txHash).after)
  {
    ExposeStores(c, s, id, txHash);
    if id in s.reservations {
      ExposeMoves(c, s, id, txHash);
    }
  }

  function CommitTime(s: Ledger, charge: Charge, clock: Time): Time {
    if charge.observedAt == UNSET then s.lastSeen else Clamp(s.lastSeen, clock)
  }

  lemma CommitStores(c: Config, s: Ledger, charge: Charge, clock: Time)
    ensures var s' := CommitFinalized(c, s, charge, clock).after;
            || s' == s
            || (&& charge.reservation in s.reservations
                && var r := s.reservations[charge.reservation];
                && var now := CommitTime(s, charge, clock);
                && r.request.network in c.policy.networks
                && s' == Stored(c, s, r, Commit(c, r, charge, now), now).after)
  {
  }

  lemma CommitMoves(c: Config, s: Ledger, charge: Charge, now: Time)
    requires Structured(c, s) && charge.reservation in s.reservations && s.lastSeen <= now
    ensures var r := s.reservations[charge.reservation];
            Effect(c, s, Stored(c, s, r, Commit(c, r, charge, now), now).after)
  {
    var r := s.reservations[charge.reservation];
    StoredEffect(c, s, r, Commit(c, r, charge, now), now);
  }

  lemma CommitEffect(c: Config, s: Ledger, charge: Charge, clock: Time)
    requires Structured(c, s)
    ensures Effect(c, s, CommitFinalized(c, s, charge, clock).after)
  {
    CommitStores(c, s, charge, clock);
    if charge.reservation in s.reservations {
      CommitMoves(c, s, charge, CommitTime(s, charge, clock));
    }
  }

  lemma ReleaseStores(c: Config, s: Ledger, id: ReservationID)
    ensures var s' := ReleaseProvenUnused(c, s, id).after;
            || s' == s
            || (&& id in s.reservations
                && s' == Stored(c, s, s.reservations[id], Release(s.reservations[id], s.lastSeen), s.lastSeen).after)
  {
  }

  lemma ReleaseMoves(c: Config, s: Ledger, id: ReservationID)
    requires Structured(c, s) && id in s.reservations
    ensures Effect(c, s, Stored(c, s, s.reservations[id], Release(s.reservations[id], s.lastSeen), s.lastSeen).after)
  {
    StoredEffect(c, s, s.reservations[id], Release(s.reservations[id], s.lastSeen), s.lastSeen);
  }

  lemma ReleaseEffect(c: Config, s: Ledger, id: ReservationID)
    requires Structured(c, s)
    ensures Effect(c, s, ReleaseProvenUnused(c, s, id).after)
  {
    ReleaseStores(c, s, id);
    if id in s.reservations {
      ReleaseMoves(c, s, id);
    }
  }

  lemma CheckStores(c: Config, s: Ledger, id: ReservationID, balance: Wei)
    ensures var s' := CheckSponsorCapacity(c, s, id, balance).after;
            || s' == s
            || (&& balance != 0 && id in s.reservations && s.reservations[id].id == id
                && s' == Recorded(s, s.reservations[id], balance).after)
  {
  }

  lemma RefreshMoves(c: Config, r: Reservation, balance: Wei, now: Time)
    requires ValidReservation(c, r) && r.state == Held && balance != 0
    ensures Moves(c, r, Refreshed(r, balance), now)
  {
  }

  lemma RefreshEffect(c: Config, s: Ledger, id: ReservationID, balance: Wei)
    requires Structured(c, s) && id in s.reservations && balance != 0
    ensures Effect(c, s, Recorded(s, s.reservations[id], balance).after)
  {
    var s' := Recorded(s, s.reservations[id], balance).after;
    if s.reservations[id].state == Held {
      RefreshMoves(c, s.reservations[id], balance, s.lastSeen);
      assert Replaces(c, s, s', id);
    } else {
      assert Idle(s, s');
    }
  }

  lemma CheckEffect(c: Config, s: Ledger, id: ReservationID, balance: Wei)
    requires Structured(c, s)
    ensures Effect(c, s, CheckSponsorCapacity(c, s, id, balance).after)
  {
    CheckStores(c, s, id, balance);
    if CheckSponsorCapacity(c, s, id, balance).after == s {
      assert Idle(s, s);
    } else {
      RefreshEffect(c, s, id, balance);
    }
  }

  ghost predicate AllEffects(c: Config, s: Ledger) {
    && (forall request, clock {:trigger Reserve(c, s, request, clock)} :: Effect(c, s, Reserve(c, s, request, clock).after))
    && (forall id, txHash {:trigger MarkExposed(c, s, id, txHash)} :: Effect(c, s, MarkExposed(c, s, id, txHash).after))
    && (forall charge, clock {:trigger CommitFinalized(c, s, charge, clock)} :: Effect(c, s, CommitFinalized(c, s, charge, clock).after))
    && (forall id {:trigger ReleaseProvenUnused(c, s, id)} :: Effect(c, s, ReleaseProvenUnused(c, s, id).after))
    && (forall id, balance {:trigger CheckSponsorCapacity(c, s, id, balance)} :: Effect(c, s, CheckSponsorCapacity(c, s, id, balance).after))
  }

  lemma OperationEffects(c: Config, s: Ledger)
    requires c.Valid() && Structured(c, s)
    ensures AllEffects(c, s)
  {
    forall request, clock ensures Effect(c, s, Reserve(c, s, request, clock).after) {
      ReserveEffect(c, s, request, clock);
    }
    forall id, txHash ensures Effect(c, s, MarkExposed(c, s, id, txHash).after) {
      ExposeEffect(c, s, id, txHash);
    }
    forall charge, clock ensures Effect(c, s, CommitFinalized(c, s, charge, clock).after) {
      CommitEffect(c, s, charge, clock);
    }
    forall id ensures Effect(c, s, ReleaseProvenUnused(c, s, id).after) {
      ReleaseEffect(c, s, id);
    }
    forall id, balance ensures Effect(c, s, CheckSponsorCapacity(c, s, id, balance).after) {
      CheckEffect(c, s, id, balance);
    }
  }

  lemma StepOf(c: Config, s: Ledger, command: Command)
    requires AllEffects(c, s)
    ensures Effect(c, s, Step(c, s, command).after)
  {
  }

  lemma StepEffect(c: Config, s: Ledger, command: Command)
    requires c.Valid() && Structured(c, s)
    ensures Effect(c, s, Step(c, s, command).after)
  {
    OperationEffects(c, s);
    StepOf(c, s, command);
  }
}
