/** What holds after every run of the budget ledger. */
module BudgetTheorems {
  import opened Prelude
  import opened BudgetModel
  import opened BudgetSteps
  import opened BudgetRuns
  import opened BudgetAnswers

  // ---------- Structure: records and index stay in bijection ----------

  lemma ReplaceIndexed(s: Ledger, id: ReservationID, r: Reservation, now: Time)
    requires Filed(s) && Indexed(s) && id in s.reservations
    requires r.id == id && r.request.attempt == s.reservations[id].request.attempt
    ensures var s' := s.(reservations := s.reservations[id := r], lastSeen := now);
            Filed(s') && Indexed(s') && |s'.reservations| == |s.reservations|
  {
  }

  lemma RemoveIndexed(s: Ledger, gone: ReservationID)
    requires Filed(s) && Indexed(s) && gone in s.reservations
    ensures Filed(Purged(s, gone)) && Indexed(Purged(s, gone))
  {
  }

  lemma RemoveCounts(s: Ledger, gone: ReservationID)
    requires Filed(s) && gone in s.reservations
    ensures |Purged(s, gone).reservations| == |s.reservations| - 1
    ensures |Purged(s, gone).attempts| == |s.attempts| - 1
  {
    MapRemoveSize(s.reservations, gone);
    MapRemoveSize(s.attempts, s.reservations[gone].request.attempt);
  }

  lemma AddFiled(s: Ledger, r: Reservation, now: Time)
    requires Filed(s) && r.id !in s.reservations && r.request.attempt !in s.attempts
    ensures Filed(Ledger(s.reservations[r.id := r], s.attempts[r.request.attempt := r.id], now))
  {
  }

  lemma AddIndexed(s: Ledger, r: Reservation, now: Time)
    requires Indexed(s) && r.id !in s.reservations && r.request.attempt !in s.attempts && r.request.attempt.Valid()
    ensures Indexed(Ledger(s.reservations[r.id := r], s.attempts[r.request.attempt := r.id], now))
  {
  }

  lemma PutValid(c: Config, m: map<ReservationID, Reservation>, id: ReservationID, r: Reservation)
    requires AllValid(c, m) && ValidReservation(c, r)
    ensures AllValid(c, m[id := r])
  {
  }

  lemma PutTimes(s: Ledger, id: ReservationID, r: Reservation, now: Time)
    requires TimesOk(s) && r.updatedAt <= now && s.lastSeen <= now
    ensures TimesOk(s.(reservations := s.reservations[id := r], lastSeen := now))
  {
  }

  lemma PutStructured(c: Config, s: Ledger, id: ReservationID, r: Reservation, now: Time)
    requires Structured(c, s) && id in s.reservations && ValidReservation(c, r) && r.id == id
    requires r.request.attempt == s.reservations[id].request.attempt
    requires r.updatedAt <= now && s.lastSeen <= now
    ensures Structured(c, s.(reservations := s.reservations[id := r], lastSeen := now))
  {
    ReplaceIndexed(s, id, r, now);
    PutValid(c, s.reservations, id, r);
    PutTimes(s, id, r, now);
  }

  lemma ReplaceStructured(c: Config, s: Ledger, s': Ledger, id: ReservationID)
    requires Structured(c, s) && Replaces(c, s, s', id)
    ensures Structured(c, s')
  {
    PutStructured(c, s, id, s'.reservations[id], s'.lastSeen);
  }

  lemma PurgeStructured(c: Config, s: Ledger, gone: ReservationID)
    requires Structured(c, s) && gone in s.reservations
    ensures Structured(c, Purged(s, gone)) && |Purged(s, gone).reservations| == |s.reservations| - 1
  {
    RemoveIndexed(s, gone);
    RemoveCounts(s, gone);
  }

  lemma RoomStructured(c: Config, s: Ledger, room: Ledger)
    requires c.Valid() && Structured(c, s) && IsRoom(c, s, room)
    ensures Structured(c, room) && |room.reservations| < c.maxRecords
    ensures forall a | a in room.attempts :: a in s.attempts
    ensures room.lastSeen == s.lastSeen
  {
    if |s.reservations| >= c.maxRecords {
      var gone :| IsOldestReleased(s.reservations, gone) && room == Purged(s, gone);
      PurgeStructured(c, s, gone);
    }
  }

  lemma AddStructured(c: Config, s: Ledger, r: Reservation, now: Time)
    requires Structured(c, s) && |s.reservations| < c.maxRecords && ValidReservation(c, r)
    requires r.id !in s.reservations && r.request.attempt !in s.attempts
    requires r.updatedAt <= now && s.lastSeen <= now
    ensures Structured(c, Ledger(s.reservations[r.id := r], s.attempts[r.request.attempt := r.id], now))
  {
    AddFiled(s, r, now);
    AddIndexed(s, r, now);
    PutValid(c, s.reservations, r.id, r);
  }

  lemma InsertStructured(c: Config, s: Ledger, s': Ledger, id: ReservationID, room: Ledger)
    requires c.Valid() && Structured(c, s) && Inserts(c, s, s', id, room)
    ensures Structured(c, s')
  {
    RoomStructured(c, s, room);
    AddStructured(c, room, s'.reservations[id], s'.lastSeen);
  }

  lemma EffectStructured(c: Config, s: Ledger, s': Ledger)
    requires c.Valid() && Structured(c, s) && Effect(c, s, s')
    ensures Structured(c, s')
  {
    if Idle(s, s') {
    } else if id :| Replaces(c, s, s', id) {
      ReplaceStructured(c, s, s', id);
    } else {
      var id, room :| Inserts(c, s, s', id, room);
      InsertStructured(c, s, s', id, room);
    }
  }

  // ---------- Limits under a bounded policy ----------

  predicate Known(c: Config, scope: Scope) {
    scope == Global || scope.network in c.policy.networks
  }

  function LimitsOf(c: Config, scope: Scope): Limits
    requires Known(c, scope)
  {
    if scope == Global then c.policy.global else c.policy.networks[scope.network].limits
  }

  // Committed charges of the window plus everything still reserved stay below each limit.
  ghost predicate WithinAt(limits: Limits, m: map<ReservationID, Reservation>, scope: Scope, now: Time) {
    var reserved := Sum(Reserved(scope), m);
    && Sum(SpentSince(scope, now - HOUR), m) + reserved <= limits.perHour
    && Sum(SpentSince(scope, now - DAY), m) + reserved <= limits.perDay
    && Sum(SpentSince(scope, UNSET), m) + reserved <= limits.cumulative
  }

  lemma LaterWithin(limits: Limits, m: map<ReservationID, Reservation>, scope: Scope, now: Time, later: Time)
    requires WithinAt(limits, m, scope, now) && now <= later
    ensures WithinAt(limits, m, scope, later)
  {
    SumMonotone(SpentSince(scope, later - HOUR), SpentSince(scope, now - HOUR), m);
    SumMonotone(SpentSince(scope, later - DAY), SpentSince(scope, now - DAY), m);
  }

  // What a move may do to the sums of its scope: only a revival adds to them, and a
  // committed charge replaces a reservation at least as large.
  predicate Cheapens(r: Reservation, r': Reservation, now: Time) {
    && Edge(r.state, r'.state)
    && r'.maximum == r.maximum
    && r'.request.network == r.request.network
    && (r'.state == Committed ==> r'.actual <= r.maximum)
  }

  ghost predicate HasRoomFor(limits: Limits, m: map<ReservationID, Reservation>, scope: Scope, now: Time, maximum: nat) {
    UsageOf(m, scope, now).Admits(limits, maximum)
  }

  lemma ReplaceWithin(limits: Limits, m: map<ReservationID, Reservation>, scope: Scope, now: Time, id: ReservationID, r: Reservation)
    requires id in m && Cheapens(m[id], r, now) && WithinAt(limits, m, scope, now)
    requires m[id].state == Released && InScope(scope, r.request.network) ==> HasRoomFor(limits, m, scope, now, r.maximum)
    ensures WithinAt(limits, m[id := r], scope, now)
  {
    SumPut(Reserved(scope), m, id, r);
    SumPut(SpentSince(scope, now - HOUR), m, id, r);
    SumPut(SpentSince(scope, now - DAY), m, id, r);
    SumPut(SpentSince(scope, UNSET), m, id, r);
  }

  lemma InsertWithin(limits: Limits, m: map<ReservationID, Reservation>, scope: Scope, now: Time, id: ReservationID, r: Reservation)
    requires id !in m && r.state == Held && WithinAt(limits, m, scope, now)
    requires InScope(scope, r.request.network) ==> HasRoomFor(limits, m, scope, now, r.maximum)
    ensures WithinAt(limits, m[id := r], scope, now)
  {
    SumPut(Reserved(scope), m, id, r);
    SumPut(SpentSince(scope, now - HOUR), m, id, r);
    SumPut(SpentSince(scope, now - DAY), m, id, r);
    SumPut(SpentSince(scope, UNSET), m, id, r);
  }

  // Purging a released record changes no sum.
  lemma RoomWithin(c: Config, s: Ledger, room: Ledger, limits: Limits, scope: Scope, now: Time, maximum: nat)
    requires IsRoom(c, s, room)
    requires !Overrun(s.reservations, scope)
    ensures WithinAt(limits, s.reservations, scope, now) ==> WithinAt(limits, room.reservations, scope, now)
    ensures HasRoomFor(limits, s.reservations, scope, now, maximum) ==> HasRoomFor(limits, room.reservations, scope, now, maximum)
  {
    RoomSums(c, s, room, Reserved(scope));
    RoomSums(c, s, room, SpentSince(scope, now - HOUR));
    RoomSums(c, s, room, SpentSince(scope, now - DAY));
    RoomSums(c, s, room, SpentSince(scope, UNSET));
  }

  lemma BoundedMove(c: Config, s: Ledger, s': Ledger, id: ReservationID, scope: Scope)
    requires c.policy.Bounded() && Known(c, scope) && Replaces(c, s, s', id)
    ensures Cheapens(s.reservations[id], s'.reservations[id], s'.lastSeen)
    ensures s.reservations[id].state == Released && InScope(scope, s.reservations[id].request.network) ==>
              HasRoomFor(LimitsOf(c, scope), s.reservations, scope, s'.lastSeen, s.reservations[id].maximum)
  {
  }

  lemma NoOverrun(c: Config, m: map<ReservationID, Reservation>, scope: Scope)
    requires c.policy.Bounded() && AllValid(c, m)
    ensures !Overrun(m, scope)
  {
  }

  lemma EffectWithin(c: Config, s: Ledger, s': Ledger, scope: Scope)
    requires c.policy.Bounded() && Known(c, scope) && AllValid(c, s.reservations) && Effect(c, s, s')
    requires WithinAt(LimitsOf(c, scope), s.reservations, scope, s.lastSeen)
    ensures WithinAt(LimitsOf(c, scope), s'.reservations, scope, s'.lastSeen)
  {
    var limits, now := LimitsOf(c, scope), s'.lastSeen;
    LaterWithin(limits, s.reservations, scope, s.lastSeen, now);
    if Idle(s, s') {
    } else if id :| Replaces(c, s, s', id) {
      BoundedMove(c, s, s', id, scope);
      ReplaceWithin(limits, s.reservations, scope, now, id, s'.reservations[id]);
    } else {
      var id, room :| Inserts(c, s, s', id, room);
      NoOverrun(c, s.reservations, scope);
      RoomWithin(c, s, room, limits, scope, now, s'.reservations[id].maximum);
      InsertWithin(limits, room.reservations, scope, now, id, s'.reservations[id]);
    }
  }

  // ---------- The log of charges agrees with the records ----------

  ghost predicate NewlyCommitted(s: Ledger, s': Ledger, id: ReservationID) {
    && id in s.reservations && s.reservations[id].state != Committed
    && id in s'.reservations && s'.reservations[id].state == Committed
  }

  // Only a step that commits a charge moves any sum of charges, and by exactly that charge.
  lemma ReplaceSpent(c: Config, s: Ledger, s': Ledger, id: ReservationID, q: Measure)
    requires Replaces(c, s, s', id) && (q.SpentSince? || q.SpentWithin?)
    ensures Sum(q, s'.reservations) == Sum(q, s.reservations) + Weight(q, s'.reservations[id])
    ensures NewlyCommitted(s, s', id) || Weight(q, s'.reservations[id]) == 0
    ensures forall other | NewlyCommitted(s, s', other) :: other == id
  {
    SumPut(q, s.reservations, id, s'.reservations[id]);
  }

  lemma InsertSpent(c: Config, s: Ledger, s': Ledger, id: ReservationID, room: Ledger, q: Measure)
    requires Inserts(c, s, s', id, room) && (q.SpentSince? || q.SpentWithin?)
    ensures Sum(q, s'.reservations) == Sum(q, s.reservations)
    ensures forall other :: !NewlyCommitted(s, s', other)
  {
    RoomSums(c, s, room, q);
    SumPut(q, room.reservations, id, s'.reservations[id]);
  }

  lemma EffectSpent(c: Config, s: Ledger, s': Ledger, q: Measure)
    requires Effect(c, s, s') && (q.SpentSince? || q.SpentWithin?)
    ensures (forall id :: !NewlyCommitted(s, s', id)) ==> Sum(q, s'.reservations) == Sum(q, s.reservations)
    ensures forall id | NewlyCommitted(s, s', id) ::
              Sum(q, s'.reservations) == Sum(q, s.reservations) + Weight(q, s'.reservations[id])
  {
    if Idle(s, s') {
    } else if id :| Replaces(c, s, s', id) {
      ReplaceSpent(c, s, s', id, q);
    } else {
      var id, room :| Inserts(c, s, s', id, room);
      InsertSpent(c, s, s', id, room, q);
    }
  }

  predicate IsCommitted(s: Ledger, id: ReservationID) { id in s.reservations && s.reservations[id].state == Committed }

  // An entry is what the ledger has recorded for its reservation.
  predicate TrueEntry(s: Ledger, e: Entry) {
    && IsCommitted(s, e.reservation)
    && var r := s.reservations[e.reservation];
    && r.actual == e.actual && r.updatedAt == e.at && r.request.network == e.network
  }

  ghost predicate AllEntered(run: Run) {
    && (forall k | 0 <= k < |run.log| :: TrueEntry(run.ledger, run.log[k]))
    && (forall id {:trigger IsCommitted(run.ledger, id)} | IsCommitted(run.ledger, id) :: HasEntry(run.log, id))
    && (forall j, k | 0 <= j < k < |run.log| :: run.log[j].reservation != run.log[k].reservation)
  }

  ghost predicate LogAgrees(run: Run) {
    && AllEntered(run)
    && (forall scope, from, to :: LogSum(run.log, scope, from, to) == Sum(SpentWithin(scope, from, to), run.ledger.reservations))
    && (forall scope :: LogTotal(run.log, scope) == Sum(SpentSince(scope, UNSET), run.ledger.reservations))
  }

  lemma LogSumAppend(log: seq<Entry>, e: Entry, scope: Scope, from: Time, to: Time)
    ensures LogSum(log + [e], scope, from, to) ==
            LogSum(log, scope, from, to) + (if InScope(scope, e.network) && from <= e.at <= to then e.actual else 0)
    ensures LogTotal(log + [e], scope) == LogTotal(log, scope) + (if InScope(scope, e.network) then e.actual else 0)
  {
    assert (log + [e])[..|log|] == log;
  }

  // ---------- Which step commits ----------

  lemma ExistingCommitsNone(c: Config, s: Ledger, s': Ledger, request: Request, now: Time, id: ReservationID)
    requires Filed(s) && ValidRequest(c, request) && request.attempt in s.attempts && s.attempts[request.attempt] in s.reservations
    requires s.lastSeen <= now && s' == ReserveExisting(c, s, request, now).after
    ensures !NewlyCommitted(s, s', id)
  {
    ReserveExistingStores(c, s, request, now);
  }

  lemma NewCommitsNone(c: Config, s: Ledger, s': Ledger, request: Request, now: Time, id: ReservationID)
    requires ValidRequest(c, request) && s' == ReserveNew(c, s, request, now).after
    ensures !NewlyCommitted(s, s', id)
  {
    var room := ReserveNewStores(c, s, request, now);
  }

  lemma ReserveCommitsNone(c: Config, s: Ledger, request: Request, clock: Time, id: ReservationID)
    requires Filed(s)
    ensures !NewlyCommitted(s, Reserve(c, s, request, clock).after, id)
  {
    var s', now := Reserve(c, s, request, clock).after, Clamp(s.lastSeen, clock);
    ReserveIs(c, s, request, clock);
    if s' != s {
      if request.attempt in s.attempts {
        ExistingCommitsNone(c, s, s', request, now, id);
      } else {
        NewCommitsNone(c, s, s', request, now, id);
      }
    }
  }

  lemma StoredCommitsNone(c: Config, s: Ledger, r: Reservation, updated: Result<Reservation, Error>, now: Time, id: ReservationID)
    requires r.id in s.reservations && s.reservations[r.id] == r && (updated.Ok? ==> updated.value.state != Committed || updated.value == r)
    ensures !NewlyCommitted(s, Stored(c, s, r, updated, now).after, id)
  {
  }

  lemma ExposeCommitsNone(c: Config, s: Ledger, id: ReservationID, txHash: Hash, other: ReservationID)
    requires Filed(s)
    ensures !NewlyCommitted(s, MarkExposed(c, s, id, txHash).after, other)
  {
    ExposeStores(c, s, id, txHash);
    if id in s.reservations {
      StoredCommitsNone(c, s, s.reservations[id], Expose(s.reservations[id], txHash, s.lastSeen), s.lastSeen, other);
    }
  }

  lemma ReleaseCommitsNone(c: Config, s: Ledger, id: ReservationID, other: ReservationID)
    requires Filed(s)
    ensures !NewlyCommitted(s, ReleaseProvenUnused(c, s, id).after, other)
  {
    ReleaseStores(c, s, id);
    if id in s.reservations {
      StoredCommitsNone(c, s, s.reservations[id], Release(s.reservations[id], s.lastSeen), s.lastSeen, other);
    }
  }

  lemma CheckCommitsNone(c: Config, s: Ledger, id: ReservationID, balance: Wei, other: ReservationID)
    ensures !NewlyCommitted(s, CheckSponsorCapacity(c, s, id, balance).after, other)
  {
    CheckStores(c, s, id, balance);
  }

  lemma RefusedChargeChangesNothing(c: Config, s: Ledger, charge: Charge, clock: Time)
    requires CommitFinalized(c, s, charge, clock).result.Err?
    ensures CommitFinalized(c, s, charge, clock).after == s
  {
    if CommitFinalized(c, s, charge, clock).after != s {
      CommitWorks(c, s, charge, clock);
      CommitIs(c, s, charge, clock);
      var r, now := s.reservations[charge.reservation], CommitTime(s, charge, clock);
      StoredRefused(c, s, r, Commit(c, r, charge, now), now);
    }
  }

  lemma StoredRefused(c: Config, s: Ledger, r: Reservation, updated: Result<Reservation, Error>, now: Time)
    ensures Stored(c, s, r, updated, now).result.Err? ==> Stored(c, s, r, updated, now).after == s
  {
  }

  lemma CommitWorks(c: Config, s: Ledger, charge: Charge, clock: Time)
    requires CommitFinalized(c, s, charge, clock).after != s
    ensures ValidCharge(charge, clock) && Acceptable(c, s, CommitTime(s, charge, clock)) && charge.reservation in s.reservations
  {
  }

  lemma OthersCommitNone(c: Config, s: Ledger, command: Command, id: ReservationID)
    requires Filed(s) && Indexed(s) && !command.DoCommit?
    ensures !NewlyCommitted(s, Step(c, s, command).after, id)
  {
    match command
    case DoReserve(request, clock) => ReserveCommitsNone(c, s, request, clock, id);
    case DoExpose(id', txHash) => ExposeCommitsNone(c, s, id', txHash, id);
    case DoRelease(id') => ReleaseCommitsNone(c, s, id', id);
    case DoCheck(id', balance) => CheckCommitsNone(c, s, id', balance, id);
  }

  // The accepted charge of a reservation that had none.
  predicate NewCharge(s: Ledger, command: Command, result: Result<Reservation, Error>) {
    command.DoCommit? && result.Ok? && !IsCommitted(s, command.charge.reservation)
  }

  lemma CommitsOnlyByCharge(c: Config, s: Ledger, command: Command, id: ReservationID)
    requires Structured(c, s)
    ensures var o := Step(c, s, command);
            NewlyCommitted(s, o.after, id) <==> NewCharge(s, command, o.result) && id == command.charge.reservation
  {
    if !command.DoCommit? {
      OthersCommitNone(c, s, command, id);
    } else if CommitFinalized(c, s, command.charge, command.clock).result.Ok? {
      CommitRecords(c, s, command.charge, command.clock);
    } else {
      RefusedChargeChangesNothing(c, s, command.charge, command.clock);
    }
  }

  lemma LoggedIff(run: Run, command: Command, result: Result<Reservation, Error>)
    requires AllEntered(run)
    ensures NewCharge(run.ledger, command, result) ==>
              Logged(run, command, result) ==
              run.log + [Entry(command.charge.reservation, result.value.request.network,
                               CommitTime(run.ledger, command.charge, command.clock), command.charge.actual)]
    ensures !NewCharge(run.ledger, command, result) ==> Logged(run, command, result) == run.log
  {
    if command.DoCommit? && HasEntry(run.log, command.charge.reservation) {
      var k :| 0 <= k < |run.log| && run.log[k].reservation == command.charge.reservation;
      assert TrueEntry(run.ledger, run.log[k]);
    }
  }

  lemma LoggedCharge(c: Config, run: Run, command: Command) returns (id: ReservationID, e: Entry)
    requires Structured(c, run.ledger) && AllEntered(run) && NewCharge(run.ledger, command, Step(c, run.ledger, command).result)
    ensures var run' := Advance(c, run, command);
            NewlyCommitted(run.ledger, run'.ledger, id) && run'.log == run.log + [e] && e.reservation == id && TrueEntry(run'.ledger, e)
  {
    var o := Step(c, run.ledger, command);
    id := command.charge.reservation;
    e := Entry(id, o.result.value.request.network, CommitTime(run.ledger, command.charge, command.clock), command.charge.actual);
    CommitRecords(c, run.ledger, command.charge, command.clock);
    CommitsOnlyByCharge(c, run.ledger, command, id);
    LoggedIff(run, command, o.result);
  }

  lemma CommittedStays(c: Config, s: Ledger, s': Ledger, id: ReservationID)
    requires Effect(c, s, s') && IsCommitted(s, id)
    ensures IsCommitted(s', id) && s'.reservations[id] == s.reservations[id]
  {
    EffectKeepsBound(c, s, s', id, s.reservations[id].txHash);
  }

  lemma CommittedBefore(c: Config, s: Ledger, s': Ledger, id: ReservationID)
    requires Effect(c, s, s') && IsCommitted(s', id)
    ensures IsCommitted(s, id) || NewlyCommitted(s, s', id)
  {
  }

  lemma LogEntered(run: Run, run': Run)
    requires AllEntered(run) && run'.log == run.log
    requires forall id {:trigger IsCommitted(run.ledger, id)} | IsCommitted(run.ledger, id) ::
               IsCommitted(run'.ledger, id) && run'.ledger.reservations[id] == run.ledger.reservations[id]
    requires forall id {:trigger IsCommitted(run'.ledger, id)} | IsCommitted(run'.ledger, id) :: IsCommitted(run.ledger, id)
    ensures AllEntered(run')
  {
    forall k | 0 <= k < |run'.log| ensures TrueEntry(run'.ledger, run'.log[k]) {
      assert TrueEntry(run.ledger, run.log[k]);
    }
  }

  lemma LogEnters(run: Run, run': Run, e: Entry)
    requires AllEntered(run) && run'.log == run.log + [e] && TrueEntry(run'.ledger, e) && !IsCommitted(run.ledger, e.reservation)
    requires forall id {:trigger IsCommitted(run.ledger, id)} | IsCommitted(run.ledger, id) ::
               IsCommitted(run'.ledger, id) && run'.ledger.reservations[id] == run.ledger.reservations[id]
    requires forall id {:trigger IsCommitted(run'.ledger, id)} | IsCommitted(run'.ledger, id) ::
               IsCommitted(run.ledger, id) || id == e.reservation
    ensures AllEntered(run')
  {
    forall k | 0 <= k < |run.log| ensures TrueEntry(run'.ledger, run.log[k]) && run.log[k].reservation != e.reservation {
      assert TrueEntry(run.ledger, run.log[k]);
    }
    forall id {:trigger IsCommitted(run'.ledger, id)} | IsCommitted(run'.ledger, id) ensures HasEntry(run'.log, id) {
      if id == e.reservation {
        assert run'.log[|run.log|].reservation == id;
      } else {
        var k :| 0 <= k < |run.log| && run.log[k].reservation == id;
        assert run'.log[k].reservation == id;
      }
    }
  }

  lemma EnteredStep(c: Config, run: Run, command: Command)
    requires c.Valid() && Structured(c, run.ledger) && AllEntered(run)
    ensures AllEntered(Advance(c, run, command))
  {
    var run' := Advance(c, run, command);
    StepEffect(c, run.ledger, command);
    forall id {:trigger IsCommitted(run.ledger, id)} | IsCommitted(run.ledger, id)
      ensures IsCommitted(run'.ledger, id) && run'.ledger.reservations[id] == run.ledger.reservations[id]
    {
      CommittedStays(c, run.ledger, run'.ledger, id);
    }
    forall id {:trigger IsCommitted(run'.ledger, id)} | IsCommitted(run'.ledger, id)
      ensures IsCommitted(run.ledger, id) || (NewCharge(run.ledger, command, Step(c, run.ledger, command).result) && id == command.charge.reservation)
    {
      CommittedBefore(c, run.ledger, run'.ledger, id);
      CommitsOnlyByCharge(c, run.ledger, command, id);
    }
    if NewCharge(run.ledger, command, Step(c, run.ledger, command).result) {
      var id, e := LoggedCharge(c, run, command);
      LogEnters(run, run', e);
    } else {
      LoggedIff(run, command, Step(c, run.ledger, command).result);
      LogEntered(run, run');
    }
  }

  lemma NoCharge(c: Config, run: Run, command: Command, q: Measure)
    requires c.Valid() && Structured(c, run.ledger) && AllEntered(run) && (q.SpentSince? || q.SpentWithin?)
    requires !NewCharge(run.ledger, command, Step(c, run.ledger, command).result)
    ensures var run' := Advance(c, run, command);
            run'.log == run.log && Sum(q, run'.ledger.reservations) == Sum(q, run.ledger.reservations)
  {
    var s' := Step(c, run.ledger, command).after;
    StepEffect(c, run.ledger, command);
    LoggedIff(run, command, Step(c, run.ledger, command).result);
    forall id ensures !NewlyCommitted(run.ledger, s', id) {
      CommitsOnlyByCharge(c, run.ledger, command, id);
    }
    EffectSpent(c, run.ledger, s', q);
  }

  lemma SpentBy(c: Config, s: Ledger, s': Ledger, q: Measure, id: ReservationID)
    requires Effect(c, s, s') && NewlyCommitted(s, s', id) && (q.SpentSince? || q.SpentWithin?)
    ensures Sum(q, s'.reservations) == Sum(q, s.reservations) + Weight(q, s'.reservations[id])
  {
    EffectSpent(c, s, s', q);
  }

  lemma EntryAdds(s: Ledger, log: seq<Entry>, e: Entry, scope: Scope, from: Time, to: Time)
    requires TrueEntry(s, e)
    ensures LogSum(log + [e], scope, from, to) ==
            LogSum(log, scope, from, to) + Weight(SpentWithin(scope, from, to), s.reservations[e.reservation])
  {
    LogSumAppend(log, e, scope, from, to);
  }

  lemma ChargeSums(c: Config, s: Ledger, s': Ledger, log: seq<Entry>, e: Entry, scope: Scope, from: Time, to: Time)
    requires Effect(c, s, s') && NewlyCommitted(s, s', e.reservation) && TrueEntry(s', e)
    requires LogSum(log, scope, from, to) == Sum(SpentWithin(scope, from, to), s.reservations)
    ensures LogSum(log + [e], scope, from, to) == Sum(SpentWithin(scope, from, to), s'.reservations)
  {
    SpentBy(c, s, s', SpentWithin(scope, from, to), e.reservation);
    EntryAdds(s', log, e, scope, from, to);
  }

  lemma LogSumStep(c: Config, run: Run, command: Command, scope: Scope, from: Time, to: Time)
    requires c.Valid() && Structured(c, run.ledger) && AllEntered(run)
    requires LogSum(run.log, scope, from, to) == Sum(SpentWithin(scope, from, to), run.ledger.reservations)
    ensures var run' := Advance(c, run, command);
            LogSum(run'.log, scope, from, to) == Sum(SpentWithin(scope, from, to), run'.ledger.reservations)
  {
    if NewCharge(run.ledger, command, Step(c, run.ledger, command).result) {
      var id, e := LoggedCharge(c, run, command);
      StepEffect(c, run.ledger, command);
      ChargeSums(c, run.ledger, Advance(c, run, command).ledger, run.log, e, scope, from, to);
    } else {
      NoCharge(c, run, command, SpentWithin(scope, from, to));
    }
  }

  lemma CommittedValid(c: Config, s: Ledger, s': Ledger, id: ReservationID)
    requires Effect(c, s, s') && NewlyCommitted(s, s', id)
    ensures ValidReservation(c, s'.reservations[id]) && s'.reservations[id].updatedAt == s'.lastSeen
  {
  }

  lemma ChargeTotals(c: Config, s: Ledger, s': Ledger, log: seq<Entry>, e: Entry, scope: Scope)
    requires Effect(c, s, s') && NewlyCommitted(s, s', e.reservation) && TrueEntry(s', e)
    requires LogTotal(log, scope) == Sum(SpentSince(scope, UNSET), s.reservations)
    ensures LogTotal(log + [e], scope) == Sum(SpentSince(scope, UNSET), s'.reservations)
  {
    EffectSpent(c, s, s', SpentSince(scope, UNSET));
    CommittedValid(c, s, s', e.reservation);
    LogSumAppend(log, e, scope, UNSET, UNSET);
  }

  lemma LogTotalStep(c: Config, run: Run, command: Command, scope: Scope)
    requires c.Valid() && Structured(c, run.ledger) && AllEntered(run)
    requires LogTotal(run.log, scope) == Sum(SpentSince(scope, UNSET), run.ledger.reservations)
    ensures var run' := Advance(c, run, command);
            LogTotal(run'.log, scope) == Sum(SpentSince(scope, UNSET), run'.ledger.reservations)
  {
    if NewCharge(run.ledger, command, Step(c, run.ledger, command).result) {
      var id, e := LoggedCharge(c, run, command);
      StepEffect(c, run.ledger, command);
      ChargeTotals(c, run.ledger, Advance(c, run, command).ledger, run.log, e, scope);
    } else {
      NoCharge(c, run, command, SpentSince(scope, UNSET));
    }
  }

  // ---------- Rolling windows ----------

  ghost predicate WindowAt(limits: Limits, m: map<ReservationID, Reservation>, scope: Scope, t: Time) {
    && Sum(SpentWithin(scope, t - HOUR, t), m) <= limits.perHour
    && Sum(SpentWithin(scope, t - DAY, t), m) <= limits.perDay
  }

  // Windows ending before the new charge do not see it; later ones lie inside the window
  // the limits were checked for.
  lemma WindowStep(c: Config, s: Ledger, s': Ledger, limits: Limits, scope: Scope, t: Time)
    requires Effect(c, s, s') && WindowAt(limits, s.reservations, scope, t)
    requires WithinAt(limits, s'.reservations, scope, s'.lastSeen)
    ensures WindowAt(limits, s'.reservations, scope, t)
  {
    EffectSpent(c, s, s', SpentWithin(scope, t - HOUR, t));
    EffectSpent(c, s, s', SpentWithin(scope, t - DAY, t));
    if id :| NewlyCommitted(s, s', id) {
      CommittedValid(c, s, s', id);
      if s'.lastSeen <= t {
        SumMonotone(SpentWithin(scope, t - HOUR, t), SpentSince(scope, s'.lastSeen - HOUR), s'.reservations);
        SumMonotone(SpentWithin(scope, t - DAY, t), SpentSince(scope, s'.lastSeen - DAY), s'.reservations);
      }
    }
  }

  // ---------- The invariant of every run ----------

  ghost predicate Limited(c: Config, s: Ledger) {
    forall scope | Known(c, scope) ::
      && WithinAt(LimitsOf(c, scope), s.reservations, scope, s.lastSeen)
      && forall t :: WindowAt(LimitsOf(c, scope), s.reservations, scope, t)
  }

  ghost predicate Inv(c: Config, run: Run) {
    Structured(c, run.ledger) && LogAgrees(run) && (c.policy.Bounded() ==> Limited(c, run.ledger))
  }

  lemma LimitedStep(c: Config, s: Ledger, s': Ledger)
    requires c.policy.Bounded() && AllValid(c, s.reservations) && Effect(c, s, s') && Limited(c, s)
    ensures Limited(c, s')
  {
    forall scope | Known(c, scope)
      ensures WithinAt(LimitsOf(c, scope), s'.reservations, scope, s'.lastSeen)
      ensures forall t :: WindowAt(LimitsOf(c, scope), s'.reservations, scope, t)
    {
      EffectWithin(c, s, s', scope);
      forall t ensures WindowAt(LimitsOf(c, scope), s'.reservations, scope, t) {
        WindowStep(c, s, s', LimitsOf(c, scope), scope, t);
      }
    }
  }

  lemma LogStep(c: Config, run: Run, command: Command)
    requires c.Valid() && Structured(c, run.ledger) && LogAgrees(run)
    ensures LogAgrees(Advance(c, run, command))
  {
    var run' := Advance(c, run, command);
    EnteredStep(c, run, command);
    forall scope, from, to ensures LogSum(run'.log, scope, from, to) == Sum(SpentWithin(scope, from, to), run'.ledger.reservations) {
      LogSumStep(c, run, command, scope, from, to);
    }
    forall scope ensures LogTotal(run'.log, scope) == Sum(SpentSince(scope, UNSET), run'.ledger.reservations) {
      LogTotalStep(c, run, command, scope);
    }
  }

  lemma InvStep(c: Config, run: Run, command: Command)
    requires c.Valid() && Inv(c, run)
    ensures Inv(c, Advance(c, run, command))
  {
    StepEffect(c, run.ledger, command);
    EffectStructured(c, run.ledger, Step(c, run.ledger, command).after);
    LogStep(c, run, command);
    if c.policy.Bounded() {
      LimitedStep(c, run.ledger, Step(c, run.ledger, command).after);
    }
  }

  lemma InvInitial(c: Config)
    requires c.Valid()
    ensures Inv(c, Run(INITIAL, []))
  {
    assert forall q: Measure :: Sum(q, map[]) == 0;
  }

  lemma {:induction false} InvRun(c: Config, run: Run, commands: seq<Command>)
    requires c.Valid() && Inv(c, run)
    ensures Inv(c, Continue(c, run, commands))
    decreases |commands|
  {
    if commands != [] {
      InvRun(c, run, commands[..|commands| - 1]);
      InvStep(c, Continue(c, run, commands[..|commands| - 1]), commands[|commands| - 1]);
    }
  }

  // ---------- Theorems ----------

  // Under a policy without overruns, whatever the clock did: the charges accepted in every hour and
  // in every day stay within their limits, and all of them plus all open reservations stay within
  // the cumulative limit, for the whole ledger and for each network.
  lemma RollingLimitsHold(c: Config, commands: seq<Command>, scope: Scope, t: Time)
    requires c.Valid() && c.policy.Bounded() && Known(c, scope)
    ensures var run := After(c, commands);
            && LogSum(run.log, scope, t - HOUR, t) <= LimitsOf(c, scope).perHour
            && LogSum(run.log, scope, t - DAY, t) <= LimitsOf(c, scope).perDay
            && LogTotal(run.log, scope) + Sum(Reserved(scope), run.ledger.reservations) <= LimitsOf(c, scope).cumulative
  {
    InvInitial(c);
    InvRun(c, Run(INITIAL, []), commands);
    var run := After(c, commands);
    assert WindowAt(LimitsOf(c, scope), run.ledger.reservations, scope, t);
  }

  lemma WithinScope(c: Config, m: map<ReservationID, Reservation>, scope: Scope, now: Time)
    requires Known(c, scope) && WithinAt(LimitsOf(c, scope), m, scope, now)
    ensures UsageOf(m, scope, now).Within(LimitsOf(c, scope)) && UsageOf(m, scope, now).Fits()
  {
  }

  lemma LimitedAcceptable(c: Config, s: Ledger, now: Time)
    requires Structured(c, s) && Limited(c, s) && s.lastSeen <= now
    ensures Acceptable(c, s, now)
  {
    forall scope | Known(c, scope) ensures UsageOf(s.reservations, scope, now).Within(LimitsOf(c, scope)) && UsageOf(s.reservations, scope, now).Fits() {
      LaterWithin(LimitsOf(c, scope), s.reservations, scope, s.lastSeen, now);
      WithinScope(c, s.reservations, scope, now);
    }
    forall n | n in c.policy.networks ensures UsageOf(s.reservations, Net(n), now).Within(c.policy.networks[n].limits) {
      assert Known(c, Net(n));
    }
  }

  // collectUsage accepts every reachable ledger at every later time.
  lemma ReachableAccepted(c: Config, commands: seq<Command>, now: Time)
    requires c.Valid() && c.policy.Bounded() && After(c, commands).ledger.lastSeen <= now
    ensures Acceptable(c, After(c, commands).ledger, now)
  {
    InvInitial(c);
    InvRun(c, Run(INITIAL, []), commands);
    LimitedAcceptable(c, After(c, commands).ledger, now);
  }

  // ---------- No operation ever finds the ledger corrupt ----------

  lemma ReserveNewSound(c: Config, s: Ledger, request: Request, now: Time)
    requires c.Valid() && Structured(c, s) && ValidRequest(c, request) && request.attempt !in s.attempts
    ensures ReserveNew(c, s, request, now).result != Err(Corrupt)
  {
    FreshId(c, s, request.attempt);
    FreshIsClean(c, s, request, now);
  }

  lemma FreshIsClean(c: Config, s: Ledger, request: Request, now: Time)
    requires ValidRequest(c, request) && c.idOf(request.attempt) !in s.reservations
    ensures ReserveNew(c, s, request, now).result != Err(Corrupt)
  {
    if HasOldest(s.reservations) {
      FreshInRoom(c, s, request.attempt);
    }
    NoErrorIsCorrupt(c, s.reservations, request, now);
  }

  lemma NoErrorIsCorrupt(c: Config, m: map<ReservationID, Reservation>, request: Request, now: Time)
    requires ValidRequest(c, request)
    ensures BudgetError(c, m, request, now) != Some(Corrupt)
  {
  }

  lemma FreshInRoom(c: Config, s: Ledger, attempt: Attempt)
    requires HasOldest(s.reservations) && c.idOf(attempt) !in s.reservations
    ensures c.idOf(attempt) !in Purged(s, OldestReleased(s.reservations)).reservations
  {
  }

  lemma RequestErrorNotCorrupt(c: Config, request: Request)
    requires !ValidRequest(c, request)
    ensures RequestError(c, request) != Corrupt
  {
  }

  // Reserve is one of: a rejected request, a rejected ledger, or the work on an accepted one.
  lemma ReserveCases(c: Config, s: Ledger, request: Request, clock: Time)
    requires Acceptable(c, s, Clamp(s.lastSeen, clock))
    ensures var outcome := Reserve(c, s, request, clock);
            var now := Clamp(s.lastSeen, clock);
            || outcome.result == Err(InvalidRequest)
            || (!ValidRequest(c, request) && outcome.result == Err(RequestError(c, request)))
            || (&& ValidRequest(c, request)
                && if request.attempt in s.attempts then outcome == ReserveExisting(c, s, request, now)
                   else outcome == ReserveNew(c, s, request, now))
  {
  }

  lemma ReserveExistingSound(c: Config, s: Ledger, request: Request, now: Time)
    requires ValidRequest(c, request) && request.attempt in s.attempts && s.attempts[request.attempt] in s.reservations
    ensures ReserveExisting(c, s, request, now).result != Err(Corrupt)
  {
  }

  lemma ReserveSound(c: Config, s: Ledger, request: Request, clock: Time)
    requires c.Valid() && Structured(c, s) && Acceptable(c, s, Clamp(s.lastSeen, clock))
    ensures Reserve(c, s, request, clock).result != Err(Corrupt)
  {
    ReserveCases(c, s, request, clock);
    if !ValidRequest(c, request) {
      RequestErrorNotCorrupt(c, request);
    } else if request.attempt in s.attempts {
      ReserveExistingSound(c, s, request, Clamp(s.lastSeen, clock));
    } else {
      ReserveNewSound(c, s, request, Clamp(s.lastSeen, clock));
    }
  }

  lemma ExposeSound(c: Config, s: Ledger, id: ReservationID, txHash: Hash)
    requires Structured(c, s) && id in s.reservations && txHash != 0
    ensures Stored(c, s, s.reservations[id], Expose(s.reservations[id], txHash, s.lastSeen), s.lastSeen).result != Err(Corrupt)
  {
  }

  lemma CommitSound(c: Config, s: Ledger, charge: Charge, now: Time)
    requires Structured(c, s) && charge.reservation in s.reservations && s.lastSeen <= now && charge.actual != 0
    ensures var r := s.reservations[charge.reservation];
            Stored(c, s, r, Commit(c, r, charge, now), now).result != Err(Corrupt)
  {
    CommitValid(c, s.reservations[charge.reservation], charge, now);
  }

  lemma ReleaseSound(c: Config, s: Ledger, id: ReservationID)
    requires Structured(c, s) && id in s.reservations
    ensures Stored(c, s, s.reservations[id], Release(s.reservations[id], s.lastSeen), s.lastSeen).result != Err(Corrupt)
  {
  }

  lemma MarkExposedSound(c: Config, s: Ledger, id: ReservationID, txHash: Hash)
    requires Structured(c, s) && Acceptable(c, s, s.lastSeen)
    ensures MarkExposed(c, s, id, txHash).result != Err(Corrupt)
  {
    if id in s.reservations && txHash != 0 {
      ExposeSound(c, s, id, txHash);
    }
  }

  lemma UnfiledCharge(c: Config, s: Ledger, charge: Charge, clock: Time)
    requires Acceptable(c, s, CommitTime(s, charge, clock)) && charge.reservation !in s.reservations
    ensures CommitFinalized(c, s, charge, clock).result != Err(Corrupt)
  {
  }

  lemma FiledCharge(c: Config, s: Ledger, charge: Charge, clock: Time, r: Reservation)
    requires Acceptable(c, s, CommitTime(s, charge, clock)) && charge.reservation in s.reservations
    requires r == s.reservations[charge.reservation] && r.request.network in c.policy.networks
    ensures var now, o := CommitTime(s, charge, clock), CommitFinalized(c, s, charge, clock);
            o.result == Err(InvalidRequest) || (charge.actual != 0 && o == Stored(c, s, r, Commit(c, r, charge, now), now))
  {
  }

  lemma CommitFinalizedSound(c: Config, s: Ledger, charge: Charge, clock: Time)
    requires Structured(c, s) && Acceptable(c, s, CommitTime(s, charge, clock))
    ensures CommitFinalized(c, s, charge, clock).result != Err(Corrupt)
  {
    if charge.reservation in s.reservations {
      FiledCharge(c, s, charge, clock, s.reservations[charge.reservation]);
      if charge.actual != 0 {
        CommitSound(c, s, charge, CommitTime(s, charge, clock));
      }
    } else {
      UnfiledCharge(c, s, charge, clock);
    }
  }

  lemma ReleaseProvenUnusedSound(c: Config, s: Ledger, id: ReservationID)
    requires Structured(c, s) && Acceptable(c, s, s.lastSeen)
    ensures ReleaseProvenUnused(c, s, id).result != Err(Corrupt)
  {
    if id in s.reservations {
      ReleaseSound(c, s, id);
    }
  }

  lemma SponsorErrorNotCorrupt(c: Config, s: Ledger, r: Reservation, balance: Wei)
    requires r.request.network in c.policy.networks
    ensures SponsorError(c, s, r, balance) != Some(Corrupt) && Recorded(s, r, balance).result.Ok?
  {
  }

  lemma CheckSound(c: Config, s: Ledger, id: ReservationID, balance: Wei)
    requires Acceptable(c, s, s.lastSeen)
    ensures CheckSponsorCapacity(c, s, id, balance).result != Err(Corrupt)
  {
    if id in s.reservations {
      assert ValidReservation(c, s.reservations[id]) && s.reservations[id].id == id;
      SponsorErrorNotCorrupt(c, s, s.reservations[id], balance);
    }
  }

  lemma ReserveClean(c: Config, s: Ledger, request: Request, clock: Time)
    requires c.Valid() && Structured(c, s) && Limited(c, s)
    ensures Reserve(c, s, request, clock).result != Err(Corrupt)
  {
    LimitedAcceptable(c, s, Clamp(s.lastSeen, clock));
    ReserveSound(c, s, request, clock);
  }

  lemma MarkExposedClean(c: Config, s: Ledger, id: ReservationID, txHash: Hash)
    requires c.Valid() && Structured(c, s) && Limited(c, s)
    ensures MarkExposed(c, s, id, txHash).result != Err(Corrupt)
  {
    LimitedAcceptable(c, s, s.lastSeen);
    MarkExposedSound(c, s, id, txHash);
  }

  lemma CommitFinalizedClean(c: Config, s: Ledger, charge: Charge, clock: Time)
    requires c.Valid() && Structured(c, s) && Limited(c, s)
    ensures CommitFinalized(c, s, charge, clock).result != Err(Corrupt)
  {
    LimitedAcceptable(c, s, CommitTime(s, charge, clock));
    CommitFinalizedSound(c, s, charge, clock);
  }

  lemma ReleaseClean(c: Config, s: Ledger, id: ReservationID)
    requires c.Valid() && Structured(c, s) && Limited(c, s)
    ensures ReleaseProvenUnused(c, s, id).result != Err(Corrupt)
  {
    LimitedAcceptable(c, s, s.lastSeen);
    ReleaseProvenUnusedSound(c, s, id);
  }

  lemma CheckClean(c: Config, s: Ledger, id: ReservationID, balance: Wei)
    requires c.Valid() && Structured(c, s) && Limited(c, s)
    ensures CheckSponsorCapacity(c, s, id, balance).result != Err(Corrupt)
  {
    LimitedAcceptable(c, s, s.lastSeen);
    CheckSound(c, s, id, balance);
  }

  // No operation answers Corrupt, one by one.
  ghost predicate AllClean(c: Config, s: Ledger) {
    && (forall request, clock {:trigger Reserve(c, s, request, clock)} :: Reserve(c, s, request, clock).result != Err(Corrupt))
    && (forall id, txHash {:trigger MarkExposed(c, s, id, txHash)} :: MarkExposed(c, s, id, txHash).result != Err(Corrupt))
    && (forall charge, clock {:trigger CommitFinalized(c, s, charge, clock)} :: CommitFinalized(c, s, charge, clock).result != Err(Corrupt))
    && (forall id {:trigger ReleaseProvenUnused(c, s, id)} :: ReleaseProvenUnused(c, s, id).result != Err(Corrupt))
    && (forall id, balance {:trigger CheckSponsorCapacity(c, s, id, balance)} ::
          CheckSponsorCapacity(c, s, id, balance).result != Err(Corrupt))
  }

  lemma OperationsClean(c: Config, s: Ledger)
    requires c.Valid() && Structured(c, s) && Limited(c, s)
    ensures AllClean(c, s)
  {
    forall request, clock ensures Reserve(c, s, request, clock).result != Err(Corrupt) {
      ReserveClean(c, s, request, clock);
    }
    forall id, txHash ensures MarkExposed(c, s, id, txHash).result != Err(Corrupt) {
      MarkExposedClean(c, s, id, txHash);
    }
    forall charge, clock ensures CommitFinalized(c, s, charge, clock).result != Err(Corrupt) {
      CommitFinalizedClean(c, s, charge, clock);
    }
    forall id ensures ReleaseProvenUnused(c, s, id).result != Err(Corrupt) {
      ReleaseClean(c, s, id);
    }
    forall id, balance ensures CheckSponsorCapacity(c, s, id, balance).result != Err(Corrupt) {
      CheckClean(c, s, id, balance);
    }
  }

  lemma StepClean(c: Config, s: Ledger, command: Command)
    requires AllClean(c, s)
    ensures Step(c, s, command).result != Err(Corrupt)
  {
  }

  lemma NeverCorrupt(c: Config, commands: seq<Command>, command: Command)
    requires c.Valid() && c.policy.Bounded()
    ensures Step(c, After(c, commands).ledger, command).result != Err(Corrupt)
  {
    InvInitial(c);
    InvRun(c, Run(INITIAL, []), commands);
    OperationsClean(c, After(c, commands).ledger);
    StepClean(c, After(c, commands).ledger, command);
  }

  // ---------- Exposed hashes and committed charges are permanent ----------

  // The reservation is bound to this transaction for good.
  ghost predicate Bound(s: Ledger, id: ReservationID, txHash: Hash) {
    && id in s.reservations
    && (s.reservations[id].state == Exposed || s.reservations[id].state == Committed)
    && s.reservations[id].txHash == txHash
  }

  lemma EffectKeepsBound(c: Config, s: Ledger, s': Ledger, id: ReservationID, txHash: Hash)
    requires Effect(c, s, s') && Bound(s, id, txHash)
    ensures Bound(s', id, txHash) && s'.reservations[id].maximum == s.reservations[id].maximum
    ensures s'.reservations[id].request.network == s.reservations[id].request.network
    ensures s.reservations[id].state == Committed ==> s'.reservations[id] == s.reservations[id]
  {
    if other, room :| Inserts(c, s, s', other, room) {
      RoomKeeps(c, s, room, id);
    }
  }

  lemma RoomKeeps(c: Config, s: Ledger, room: Ledger, id: ReservationID)
    requires IsRoom(c, s, room) && id in s.reservations && s.reservations[id].state != Released
    ensures id in room.reservations && room.reservations[id] == s.reservations[id]
  {
  }

  // Whatever policy and clock: once exposed under a hash, always exposed or committed under
  // that hash, and once committed never changed or purged.
  lemma {:induction false} HashFrozen(c: Config, run: Run, commands: seq<Command>, id: ReservationID, txHash: Hash)
    requires c.Valid() && Inv(c, run) && Bound(run.ledger, id, txHash)
    ensures var later := Continue(c, run, commands).ledger;
            && Bound(later, id, txHash)
            && later.reservations[id].maximum == run.ledger.reservations[id].maximum
            && (run.ledger.reservations[id].state == Committed ==> later.reservations[id] == run.ledger.reservations[id])
    decreases |commands|
  {
    if commands != [] {
      var before := commands[..|commands| - 1];
      HashFrozen(c, run, before, id, txHash);
      InvRun(c, run, before);
      var mid := Continue(c, run, before);
      StepEffect(c, mid.ledger, commands[|commands| - 1]);
      EffectKeepsBound(c, mid.ledger, Step(c, mid.ledger, commands[|commands| - 1]).after, id, txHash);
    }
  }

  // ---------- The overrun latch ----------

  lemma OverrunKept(c: Config, s: Ledger, s': Ledger)
    requires Structured(c, s) && Effect(c, s, s') && Overrun(s.reservations, Global)
    ensures Overrun(s'.reservations, Global)
  {
    var id :| id in s.reservations && s.reservations[id].Overran();
    EffectKeepsBound(c, s, s', id, s.reservations[id].txHash);
    assert s'.reservations[id].Overran() && InScope(Global, s'.reservations[id].request.network);
  }

  lemma LatchReplace(c: Config, s: Ledger, s': Ledger, id: ReservationID, scope: Scope)
    requires Replaces(c, s, s', id) && Overrun(s.reservations, Global)
    ensures Sum(Reserved(scope), s'.reservations) <= Sum(Reserved(scope), s.reservations)
  {
    SumPut(Reserved(scope), s.reservations, id, s'.reservations[id]);
  }

  lemma LatchedInsertsNothing(c: Config, s: Ledger, s': Ledger)
    requires Overrun(s.reservations, Global)
    ensures !exists id, room :: Inserts(c, s, s', id, room)
  {
  }

  lemma LatchStep(c: Config, s: Ledger, s': Ledger, scope: Scope)
    requires Effect(c, s, s') && Overrun(s.reservations, Global)
    ensures Sum(Reserved(scope), s'.reservations) <= Sum(Reserved(scope), s.reservations)
  {
    LatchedInsertsNothing(c, s, s');
    if !Idle(s, s') {
      var id :| Replaces(c, s, s', id);
      LatchReplace(c, s, s', id, scope);
    }
  }

  lemma LatchedCheckFails(c: Config, s: Ledger, id: ReservationID, balance: Wei)
    requires Overrun(s.reservations, Global)
    ensures CheckSponsorCapacity(c, s, id, balance).result.Err?
  {
  }

  lemma {:induction false} LatchHolds(c: Config, run: Run, commands: seq<Command>, scope: Scope, id: ReservationID, balance: Wei)
    requires c.Valid() && Inv(c, run) && Overrun(run.ledger.reservations, Global)
    ensures var later := Continue(c, run, commands).ledger;
            && Overrun(later.reservations, Global)
            && Sum(Reserved(scope), later.reservations) <= Sum(Reserved(scope), run.ledger.reservations)
            && CheckSponsorCapacity(c, later, id, balance).result.Err?
    decreases |commands|
  {
    if commands != [] {
      var before := commands[..|commands| - 1];
      LatchHolds(c, run, before, scope, id, balance);
      InvRun(c, run, before);
      var mid := Continue(c, run, before).ledger;
      var s' := Step(c, mid, commands[|commands| - 1]).after;
      StepEffect(c, mid, commands[|commands| - 1]);
      OverrunKept(c, mid, s');
      LatchStep(c, mid, s', scope);
    }
    LatchedCheckFails(c, Continue(c, run, commands).ledger, id, balance);
  }

  ghost predicate EnteredAs(log: seq<Entry>, id: ReservationID, actual: Wei) {
    && (exists k | 0 <= k < |log| :: log[k].reservation == id && log[k].actual == actual)
    && (forall k | 0 <= k < |log| && log[k].reservation == id :: log[k].actual == actual)
    && (forall j, k | 0 <= j < k < |log| :: log[j].reservation != log[k].reservation)
  }

  lemma EnteredOnce(run: Run, id: ReservationID, actual: Wei)
    requires AllEntered(run) && IsCommitted(run.ledger, id) && run.ledger.reservations[id].actual == actual
    ensures EnteredAs(run.log, id, actual)
  {
    forall k | 0 <= k < |run.log| && run.log[k].reservation == id ensures run.log[k].actual == actual {
      assert TrueEntry(run.ledger, run.log[k]);
    }
    var k :| 0 <= k < |run.log| && run.log[k].reservation == id;
  }

  // The reservation after an accepted charge.
  lemma ChargedAs(c: Config, run: Run, charge: Charge, clock: Time)
    requires c.Valid() && Inv(c, run) && CommitFinalized(c, run.ledger, charge, clock).result.Ok?
    ensures var run' := Advance(c, run, DoCommit(charge, clock));
            && Inv(c, run') && charge.reservation in run.ledger.reservations && IsCommitted(run'.ledger, charge.reservation)
            && var r := run'.ledger.reservations[charge.reservation];
            && r.actual == charge.actual && r.maximum == run.ledger.reservations[charge.reservation].maximum
  {
    CommitStep(c, run, charge, clock);
    CommitRecords(c, run.ledger, charge, clock);
    InvStep(c, run, DoCommit(charge, clock));
  }

  lemma CommitStep(c: Config, run: Run, charge: Charge, clock: Time)
    ensures Advance(c, run, DoCommit(charge, clock)).ledger == CommitFinalized(c, run.ledger, charge, clock).after
  {
  }

  // In every run, a charge the ledger accepts is in the log with the amount submitted, as the only
  // entry of its reservation, whatever else was submitted for that reservation before.
  lemma ChargesAreLogged(c: Config, commands: seq<Command>, charge: Charge, clock: Time)
    requires c.Valid() && CommitFinalized(c, After(c, commands).ledger, charge, clock).result.Ok?
    ensures EnteredAs(Advance(c, After(c, commands), DoCommit(charge, clock)).log, charge.reservation, charge.actual)
  {
    InvInitial(c);
    InvRun(c, Run(INITIAL, []), commands);
    ChargedAs(c, After(c, commands), charge, clock);
    EnteredOnce(Advance(c, After(c, commands), DoCommit(charge, clock)), charge.reservation, charge.actual);
  }

  lemma OverranIs(m: map<ReservationID, Reservation>, id: ReservationID)
    requires id in m && m[id].Overran()
    ensures Overrun(m, Global)
  {
    assert InScope(Global, m[id].request.network);
  }

  // Once an accepted charge has exceeded its reservation, open reservations never grow again in any
  // scope and no further sponsor check succeeds.
  lemma OverrunLatches(c: Config, commands: seq<Command>, charge: Charge, clock: Time, more: seq<Command>,
                       scope: Scope, id: ReservationID, balance: Wei)
    requires c.Valid() && CommitFinalized(c, After(c, commands).ledger, charge, clock).result.Ok?
    requires charge.reservation in After(c, commands).ledger.reservations
    requires charge.actual > After(c, commands).ledger.reservations[charge.reservation].maximum
    ensures var run := Advance(c, After(c, commands), DoCommit(charge, clock));
            var later := Continue(c, run, more).ledger;
            && Sum(Reserved(scope), later.reservations) <= Sum(Reserved(scope), run.ledger.reservations)
            && CheckSponsorCapacity(c, later, id, balance).result.Err?
  {
    var run := Advance(c, After(c, commands), DoCommit(charge, clock));
    InvInitial(c);
    InvRun(c, Run(INITIAL, []), commands);
    ChargedAs(c, After(c, commands), charge, clock);
    OverranIs(run.ledger.reservations, charge.reservation);
    LatchHolds(c, run, more, scope, id, balance);
  }

  // ---------- What a granted reservation is ----------

  lemma ExistingGrants(c: Config, s: Ledger, request: Request, now: Time)
    requires ValidRequest(c, request) && Filed(s) && request.attempt in s.attempts && s.attempts[request.attempt] in s.reservations
    requires ReserveExisting(c, s, request, now).result.Ok?
    ensures Granted(ReserveExisting(c, s, request, now), request)
  {
  }

  lemma NewGrants(c: Config, s: Ledger, request: Request, now: Time)
    requires ValidRequest(c, request) && ReserveNew(c, s, request, now).result.Ok?
    ensures Granted(ReserveNew(c, s, request, now), request)
  {
  }

  // It is found under its attempt, for the network and the quote that were asked for.
  predicate Granted(o: Outcome, request: Request)
    requires o.result.Ok?
  {
    && request.attempt in o.after.attempts && o.after.attempts[request.attempt] in o.after.reservations
    && o.after.reservations[o.after.attempts[request.attempt]] == o.result.value
    && o.result.value.request.quote == request.quote && o.result.value.request.network == request.network
  }

  lemma ReserveGrants(c: Config, s: Ledger, request: Request, clock: Time)
    requires Reserve(c, s, request, clock).result.Ok?
    ensures Granted(Reserve(c, s, request, clock), request)
  {
    var now := Clamp(s.lastSeen, clock);
    if request.attempt in s.attempts {
      ExistingGrants(c, s, request, now);
    } else {
      NewGrants(c, s, request, now);
    }
  }
}
