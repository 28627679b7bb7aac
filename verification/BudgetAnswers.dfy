/** What each operation of the ledger answers, in terms of sums, balances and charges. */
module BudgetAnswers {
  import opened Prelude
  import opened BudgetModel
  import opened BudgetSteps
  import opened BudgetRuns

  // ---------- Reserve ----------

  // The attempt has no reservation, or a released one made for the same request.
  predicate Startable(s: Ledger, request: Request) {
    request.attempt in s.attempts ==>
      && s.attempts[request.attempt] in s.reservations
      && var r := s.reservations[s.attempts[request.attempt]];
      && r.state == Released && SameRequest(r.request, request)
  }

  predicate AnyReleased(m: map<ReservationID, Reservation>) { exists id | id in m :: m[id].state == Released }

  predicate HasRoom(c: Config, s: Ledger, request: Request) {
    request.attempt in s.attempts || |s.reservations| < c.maxRecords || AnyReleased(s.reservations)
  }

  // A limit of the scope would be passed, or its latch is closed.
  ghost predicate Exceeds(limits: Limits, m: map<ReservationID, Reservation>, scope: Scope, now: Time, asked: nat) {
    var reserved := Sum(Reserved(scope), m);
    || Overrun(m, scope)
    || asked > limits.perTransaction
    || Sum(SpentSince(scope, now - HOUR), m) + reserved + asked > limits.perHour
    || Sum(SpentSince(scope, now - DAY), m) + reserved + asked > limits.perDay
    || Sum(SpentSince(scope, UNSET), m) + reserved + asked > limits.cumulative
  }

  ghost predicate ExceedsAny(c: Config, m: map<ReservationID, Reservation>, network: NetworkID, now: Time, asked: nat)
    requires network in c.policy.networks
  {
    Exceeds(c.policy.global, m, Global, now, asked) || Exceeds(c.policy.networks[network].limits, m, Net(network), now, asked)
  }

  // What the sponsor must keep: the emergency reserve and everything open.
  ghost function Kept(c: Config, m: map<ReservationID, Reservation>, network: NetworkID, sponsor: Address): nat
    requires network in c.policy.networks
  {
    c.policy.networks[network].emergencySponsorReserve + Sum(SponsorReserved(network, sponsor), m)
  }

  lemma {:induction false} OldestAmong(m: map<ReservationID, Reservation>, ids: set<ReservationID>) returns (oldest: ReservationID)
    requires ids != {} && forall id | id in ids :: id in m && m[id].id == id
    ensures oldest in ids && forall id | id in ids :: Older(m[oldest], m[id])
    decreases |ids|
  {
    var id :| id in ids;
    oldest := id;
    if ids != {id} {
      assert ids - {id} != {};
      var rest := OldestAmong(m, ids - {id});
      oldest := if Older(m[id], m[rest]) then id else rest;
    }
  }

  // There is an oldest released record exactly if there is a released one.
  lemma OldestExists(m: map<ReservationID, Reservation>)
    requires forall id | id in m :: m[id].id == id
    ensures HasOldest(m) <==> AnyReleased(m)
  {
    var released := set id | id in m && m[id].state == Released;
    if AnyReleased(m) {
      var some :| some in m && m[some].state == Released;
      assert some in released;
      var oldest := OldestAmong(m, released);
      assert IsOldestReleased(m, oldest);
    }
  }

  // The three checks together.
  lemma ChecksMean(c: Config, m: map<ReservationID, Reservation>, request: Request, now: Time)
    requires ValidRequest(c, request)
    ensures var exceeds := ExceedsAny(c, m, request.network, now, MaximumOf(c, request));
            BudgetError(c, m, request, now) ==
            if exceeds then Some(BudgetExceeded)
            else if Kept(c, m, request.network, request.sponsor) + MaximumOf(c, request) > request.sponsorBalance then Some(SponsorReserve)
            else None
  {
  }

  lemma StartedExisting(c: Config, s: Ledger, request: Request, now: Time)
    requires ValidRequest(c, request) && Startable(s, request) && request.attempt in s.attempts
    ensures var error, o := BudgetError(c, s.reservations, request, now), ReserveExisting(c, s, request, now);
            if error.Some? then o.result == Err(error.value) else o.result.Ok?
  {
  }

  lemma StartedNew(c: Config, s: Ledger, request: Request, now: Time)
    requires ValidRequest(c, request) && c.idOf(request.attempt) !in s.reservations
    requires |s.reservations| < c.maxRecords || HasOldest(s.reservations)
    ensures var error, o := BudgetError(c, s.reservations, request, now), ReserveNew(c, s, request, now);
            if error.Some? then o.result == Err(error.value) else o.result.Ok?
  {
  }

  lemma FreshId(c: Config, s: Ledger, attempt: Attempt)
    requires c.Valid() && AllValid(c, s.reservations) && Filed(s) && attempt !in s.attempts
    ensures c.idOf(attempt) !in s.reservations
  {
    var id := c.idOf(attempt);
    assert id in s.reservations ==> c.idOf(s.reservations[id].request.attempt) == id;
  }

  // On an accepted ledger with room, a valid request is refused for the budget exactly when a limit
  // would be passed, for the sponsor exactly when emergency reserve, open reservations and the new
  // maximum together exceed the balance, and granted otherwise.
  lemma ReserveAnswers(c: Config, s: Ledger, request: Request, clock: Time)
    requires c.Valid() && ValidRequest(c, request) && ClockOk(request.observedAt, clock)
    requires Acceptable(c, s, Clamp(s.lastSeen, clock)) && Startable(s, request) && HasRoom(c, s, request)
    ensures var now, result := Clamp(s.lastSeen, clock), Reserve(c, s, request, clock).result;
            var maximum := request.quote.Maximum(c.policy.networks[request.network].transactionOverhead).value;
            var exceeds := ExceedsAny(c, s.reservations, request.network, now, maximum);
            var short := Kept(c, s.reservations, request.network, request.sponsor) + maximum > request.sponsorBalance;
            && (result == Err(BudgetExceeded) <==> exceeds)
            && (result == Err(SponsorReserve) <==> !exceeds && short)
            && (result.Ok? <==> !exceeds && !short)
  {
    var now := Clamp(s.lastSeen, clock);
    ChecksMean(c, s.reservations, request, now);
    if request.attempt in s.attempts {
      StartedExisting(c, s, request, now);
    } else {
      FreshId(c, s, request.attempt);
      OldestExists(s.reservations);
      StartedNew(c, s, request, now);
    }
  }

  lemma ExistingAnswers(c: Config, s: Ledger, request: Request, now: Time)
    requires ValidRequest(c, request) && request.attempt in s.attempts && s.attempts[request.attempt] in s.reservations
    ensures var r, o := s.reservations[s.attempts[request.attempt]], ReserveExisting(c, s, request, now);
            && (o.result == Err(StateConflict) <==> !SameRequest(r.request, request)) && o.result != Err(Capacity)
            && (SameRequest(r.request, request) && r.state != Released ==> o.result == Ok(r) && o.after.reservations == s.reservations)
  {
    ChecksMean(c, s.reservations, request, now);
  }

  lemma NewAnswers(c: Config, s: Ledger, request: Request, now: Time)
    requires ValidRequest(c, request)
    ensures ReserveNew(c, s, request, now).result == Err(Capacity) <==> |s.reservations| >= c.maxRecords && !HasOldest(s.reservations)
  {
    ChecksMean(c, s.reservations, request, now);
  }

  // The other answers: a full file, an attempt asked for something else, and a repeated request,
  // which gets the reservation it already has.
  lemma ReserveOtherwise(c: Config, s: Ledger, request: Request, clock: Time)
    requires ValidRequest(c, request) && ClockOk(request.observedAt, clock) && Acceptable(c, s, Clamp(s.lastSeen, clock))
    ensures var o := Reserve(c, s, request, clock);
            && (o.result == Err(Capacity) <==> !HasRoom(c, s, request))
            && (request.attempt in s.attempts ==>
                  var r := s.reservations[s.attempts[request.attempt]];
                  && (o.result == Err(StateConflict) <==> !SameRequest(r.request, request))
                  && (SameRequest(r.request, request) && r.state != Released ==> o.result == Ok(r) && o.after.reservations == s.reservations))
  {
    var now := Clamp(s.lastSeen, clock);
    if request.attempt in s.attempts {
      ExistingAnswers(c, s, request, now);
    } else {
      OldestExists(s.reservations);
      NewAnswers(c, s, request, now);
    }
  }

  // Stored under the attempt, held for the whole maximum of the request, dated now.
  predicate Granted(c: Config, o: Outcome, request: Request, now: Time)
    requires ValidRequest(c, request)
  {
    var id := c.idOf(request.attempt);
    var maximum := request.quote.Maximum(c.policy.networks[request.network].transactionOverhead).value;
    && o.result == Ok(Reservation(id, request, maximum, Held, 0, 0, now, UNSET, now))
    && id in o.after.reservations && o.after.reservations[id] == o.result.value
    && request.attempt in o.after.attempts && o.after.attempts[request.attempt] == id && o.after.lastSeen == now
  }

  lemma RevivedIs(c: Config, s: Ledger, request: Request, now: Time, r: Reservation)
    requires ValidRequest(c, request) && request.attempt in s.attempts && s.attempts[request.attempt] in s.reservations
    requires r == s.reservations[s.attempts[request.attempt]] && r.state == Released && SameRequest(r.request, request)
    requires ValidReservation(c, r) && r.id == s.attempts[request.attempt] && r.request.attempt == request.attempt
    ensures var o := ReserveExisting(c, s, request, now); o.result.Ok? ==> Granted(c, o, request, now)
  {
  }

  lemma NewIs(c: Config, s: Ledger, request: Request, now: Time)
    requires ValidRequest(c, request)
    ensures var o := ReserveNew(c, s, request, now); o.result.Ok? ==> Granted(c, o, request, now)
  {
  }

  // What is granted anew: a reservation taken up again is like a new one.
  lemma GrantIs(c: Config, s: Ledger, request: Request, clock: Time, o: Outcome)
    requires ValidRequest(c, request) && ClockOk(request.observedAt, clock) && Acceptable(c, s, Clamp(s.lastSeen, clock))
    requires Startable(s, request) && o == Reserve(c, s, request, clock) && o.result.Ok?
    ensures Granted(c, o, request, Clamp(s.lastSeen, clock))
  {
    var now := Clamp(s.lastSeen, clock);
    if request.attempt in s.attempts {
      var r := s.reservations[s.attempts[request.attempt]];
      RevivedIs(c, s, request, now, r);
    } else {
      NewIs(c, s, request, now);
    }
  }

  // ---------- The emergency reserve ----------

  lemma RoomSums(c: Config, s: Ledger, room: Ledger, q: Measure)
    requires IsRoom(c, s, room)
    ensures Sum(q, room.reservations) == Sum(q, s.reservations)
  {
    if |s.reservations| >= c.maxRecords {
      var gone :| IsOldestReleased(s.reservations, gone) && room == Purged(s, gone);
      SumRemove(q, s.reservations, gone);
    }
  }

  lemma RevivedKeeps(c: Config, s: Ledger, request: Request, now: Time)
    requires AllValid(c, s.reservations) && Filed(s) && ValidRequest(c, request) && Startable(s, request) && request.attempt in s.attempts
    requires ReserveExisting(c, s, request, now).result.Ok?
    ensures Kept(c, ReserveExisting(c, s, request, now).after.reservations, request.network, request.sponsor) <= request.sponsorBalance
  {
    var existing := s.reservations[s.attempts[request.attempt]];
    ChecksMean(c, s.reservations, request, now);
    SumPut(SponsorReserved(request.network, request.sponsor), s.reservations, existing.id, Revived(existing, request, now));
  }

  lemma NewKeeps(c: Config, s: Ledger, request: Request, now: Time)
    requires ValidRequest(c, request) && ReserveNew(c, s, request, now).result.Ok? && c.idOf(request.attempt) !in s.reservations
    ensures Kept(c, ReserveNew(c, s, request, now).after.reservations, request.network, request.sponsor) <= request.sponsorBalance
  {
    var q, r := SponsorReserved(request.network, request.sponsor), NewReservation(c, request, now);
    var room := ReserveNewStores(c, s, request, now);
    ChecksMean(c, s.reservations, request, now);
    if ReserveNew(c, s, request, now).after != s {
      RoomSums(c, s, room, q);
      SumPut(q, room.reservations, r.id, r);
    }
  }

  // Whenever a reservation is granted that was not open before, the balance the request reports
  // covers the emergency reserve and everything then open.
  lemma GrantKeepsReserve(c: Config, s: Ledger, request: Request, clock: Time)
    requires c.Valid() && Startable(s, request) && Reserve(c, s, request, clock).result.Ok?
    ensures request.network in c.policy.networks
    ensures c.policy.networks[request.network].emergencySponsorReserve
            + Sum(SponsorReserved(request.network, request.sponsor), Reserve(c, s, request, clock).after.reservations)
            <= request.sponsorBalance
  {
    var now := Clamp(s.lastSeen, clock);
    if request.attempt in s.attempts {
      RevivedKeeps(c, s, request, now);
    } else {
      FreshId(c, s, request.attempt);
      NewKeeps(c, s, request, now);
    }
  }

  // ---------- CheckSponsorCapacity ----------

  lemma SponsorCheckMeans(c: Config, s: Ledger, r: Reservation, balance: Wei)
    requires r.request.network in c.policy.networks
    ensures SponsorError(c, s, r, balance) ==
            if Overrun(s.reservations, Global) then Some(BudgetExceeded)
            else if Kept(c, s.reservations, r.request.network, r.request.sponsor) > balance then Some(SponsorReserve)
            else None
  {
  }

  // On an accepted ledger an open reservation passes exactly if no charge ever ran over and the
  // balance covers the emergency reserve and everything open.
  lemma CheckAnswers(c: Config, s: Ledger, id: ReservationID, balance: Wei)
    requires Acceptable(c, s, s.lastSeen) && balance != 0 && id in s.reservations && s.reservations[id].Open()
    ensures var r, result := s.reservations[id], CheckSponsorCapacity(c, s, id, balance).result;
            var short := Kept(c, s.reservations, r.request.network, r.request.sponsor) > balance;
            && (result == Err(BudgetExceeded) <==> Overrun(s.reservations, Global))
            && (result == Err(SponsorReserve) <==> !Overrun(s.reservations, Global) && short)
            && (result.Ok? <==> !Overrun(s.reservations, Global) && !short)
  {
    assert ValidReservation(c, s.reservations[id]) && s.reservations[id].id == id;
    SponsorCheckMeans(c, s, s.reservations[id], balance);
  }

  lemma RecordedSums(s: Ledger, r: Reservation, balance: Wei, q: Measure)
    requires r.id in s.reservations && s.reservations[r.id] == r
    ensures Sum(q, Recorded(s, r, balance).after.reservations) == Sum(q, s.reservations)
  {
    SumPut(q, s.reservations, r.id, Refreshed(r, balance));
  }

  lemma CheckKeepsReserve(c: Config, s: Ledger, id: ReservationID, balance: Wei)
    requires CheckSponsorCapacity(c, s, id, balance).result.Ok?
    ensures id in s.reservations && s.reservations[id].request.network in c.policy.networks
    ensures var r, after := s.reservations[id], CheckSponsorCapacity(c, s, id, balance).after;
            c.policy.networks[r.request.network].emergencySponsorReserve
            + Sum(SponsorReserved(r.request.network, r.request.sponsor), after.reservations) <= balance
  {
    var r := s.reservations[id];
    CheckAnswers(c, s, id, balance);
    RecordedSums(s, r, balance, SponsorReserved(r.request.network, r.request.sponsor));
  }

  // ---------- MarkExposed and ReleaseProvenUnused ----------

  // Everything but this record, and its identity, stays as it was.
  ghost predicate OnlyRecord(s: Ledger, s': Ledger, id: ReservationID) {
    && s'.attempts == s.attempts && s'.reservations.Keys == s.reservations.Keys && id in s.reservations
    && forall other {:trigger s'.reservations[other]} | other in s.reservations && other != id :: s'.reservations[other] == s.reservations[other]
  }

  lemma StoredIs(c: Config, s: Ledger, r: Reservation, updated: Result<Reservation, Error>, now: Time)
    requires r.id in s.reservations && s.reservations[r.id] == r && (updated.Ok? ==> ValidReservation(c, updated.value))
    ensures var o := Stored(c, s, r, updated, now);
            && o.result == updated && OnlyRecord(s, o.after, r.id)
            && o.after.reservations[r.id] == if updated.Ok? then updated.value else r
  {
  }

  lemma ExposeValid(c: Config, r: Reservation, txHash: Hash, now: Time)
    requires ValidReservation(c, r) && r.updatedAt <= now && txHash != 0
    ensures Expose(r, txHash, now).Ok? ==> ValidReservation(c, Expose(r, txHash, now).value)
  {
  }

  lemma ReleaseValid(c: Config, r: Reservation, now: Time)
    requires ValidReservation(c, r) && r.updatedAt <= now
    ensures Release(r, now).Ok? ==> ValidReservation(c, Release(r, now).value)
  {
  }

  // A held reservation is exposed for the hash; one already bound to a hash takes that hash only.
  lemma MarkExposedAnswers(c: Config, s: Ledger, id: ReservationID, txHash: Hash)
    requires TimesOk(s) && Acceptable(c, s, s.lastSeen) && id in s.reservations && txHash != 0
    ensures var r, o := s.reservations[id], MarkExposed(c, s, id, txHash);
            && (o.result.Ok? <==> r.state == Held || (r.state != Released && r.txHash == txHash))
            && (o.result.Ok? || o.result == Err(StateConflict))
            && OnlyRecord(s, o.after, id)
            && o.after.reservations[id] ==
               if r.state == Held then r.(state := Exposed, txHash := txHash, exposedAt := s.lastSeen, updatedAt := s.lastSeen) else r
  {
    var r := s.reservations[id];
    assert ValidReservation(c, r) && r.id == id;
    ExposeValid(c, r, txHash, s.lastSeen);
    StoredIs(c, s, r, Expose(r, txHash, s.lastSeen), s.lastSeen);
  }

  lemma ReleaseAnswers(c: Config, s: Ledger, id: ReservationID)
    requires TimesOk(s) && Acceptable(c, s, s.lastSeen) && id in s.reservations
    ensures var r, o := s.reservations[id], ReleaseProvenUnused(c, s, id);
            && (o.result.Ok? <==> r.state == Held || r.state == Released)
            && (o.result.Ok? || o.result == Err(StateConflict))
            && OnlyRecord(s, o.after, id)
            && o.after.reservations[id] == if r.state == Held then r.(state := Released, updatedAt := s.lastSeen) else r
  {
    var r := s.reservations[id];
    assert ValidReservation(c, r) && r.id == id;
    ReleaseValid(c, r, s.lastSeen);
    StoredIs(c, s, r, Release(r, s.lastSeen), s.lastSeen);
  }

  // ---------- CommitFinalized ----------

  predicate ValidCharge(charge: Charge, clock: Time) {
    && charge.reservation != 0 && charge.txHash != 0 && charge.actual != 0
    && (charge.observedAt == UNSET || ClockOk(charge.observedAt, clock))
  }

  // The charge is for the transaction the reservation is exposed for, and the network takes it.
  predicate Chargeable(c: Config, r: Reservation, charge: Charge)
    requires r.request.network in c.policy.networks
  {
    && r.state == Exposed && r.txHash == charge.txHash
    && (charge.actual <= r.maximum || c.policy.networks[r.request.network].allowFeeOverrun)
  }

  predicate ChargedAlready(r: Reservation, charge: Charge) {
    r.state == Committed && r.txHash == charge.txHash && r.actual == charge.actual
  }

  lemma CommitValid(c: Config, r: Reservation, charge: Charge, now: Time)
    requires ValidReservation(c, r) && r.updatedAt <= now && charge.actual != 0
    ensures Commit(c, r, charge, now).Ok? ==> ValidReservation(c, Commit(c, r, charge, now).value)
    ensures Commit(c, r, charge, now) != Err(Corrupt)
  {
  }

  lemma CommitMeans(c: Config, r: Reservation, charge: Charge, now: Time)
    requires r.request.network in c.policy.networks
    ensures var updated := Commit(c, r, charge, now);
            && (updated.Ok? <==> Chargeable(c, r, charge) || ChargedAlready(r, charge)) && (updated.Ok? || updated.error == StateConflict)
            && (updated.Ok? ==>
                  var r' := updated.value;
                  && r'.state == Committed && r'.actual == charge.actual && r'.txHash == charge.txHash
                  && r'.request == r.request && r'.maximum == r.maximum
                  && (r.state == Committed ==> r' == r) && (r.state != Committed ==> r'.updatedAt == now))
  {
  }

  lemma CommitIs(c: Config, s: Ledger, charge: Charge, clock: Time)
    requires ValidCharge(charge, clock) && Acceptable(c, s, CommitTime(s, charge, clock)) && charge.reservation in s.reservations
    ensures var r, now := s.reservations[charge.reservation], CommitTime(s, charge, clock);
            && r.request.network in c.policy.networks && r.id == charge.reservation && ValidReservation(c, r)
            && CommitFinalized(c, s, charge, clock) == Stored(c, s, r, Commit(c, r, charge, now), now)
  {
    assert ValidReservation(c, s.reservations[charge.reservation]);
  }

  lemma CommitGuards(c: Config, s: Ledger, charge: Charge, clock: Time)
    requires CommitFinalized(c, s, charge, clock).result.Ok?
    ensures ValidCharge(charge, clock) && Acceptable(c, s, CommitTime(s, charge, clock)) && charge.reservation in s.reservations
  {
  }

  // A charge is accepted exactly for an exposed reservation of its transaction, within the
  // reservation unless the network takes overruns, or as a repetition of what is recorded.
  lemma CommitAnswers(c: Config, s: Ledger, charge: Charge, clock: Time)
    requires TimesOk(s) && ValidCharge(charge, clock) && Acceptable(c, s, CommitTime(s, charge, clock))
    requires charge.reservation in s.reservations
    ensures var r, result := s.reservations[charge.reservation], CommitFinalized(c, s, charge, clock).result;
            && r.request.network in c.policy.networks
            && (result.Ok? <==> Chargeable(c, r, charge) || ChargedAlready(r, charge))
            && (result.Ok? || result == Err(StateConflict))
  {
    var r, now := s.reservations[charge.reservation], CommitTime(s, charge, clock);
    CommitIs(c, s, charge, clock);
    CommitMeans(c, r, charge, now);
    CommitValid(c, r, charge, now);
    StoredIs(c, s, r, Commit(c, r, charge, now), now);
  }

  // What is recorded is the charge: its amount, its transaction and the time it was accepted at. A
  // repetition changes no record.
  ghost predicate Records(s: Ledger, s': Ledger, charge: Charge, now: Time) {
    && OnlyRecord(s, s', charge.reservation)
    && var r, r' := s.reservations[charge.reservation], s'.reservations[charge.reservation];
    && r'.state == Committed && r'.actual == charge.actual && r'.txHash == charge.txHash
    && r'.request == r.request && r'.maximum == r.maximum
    && (r.state == Committed ==> r' == r) && (r.state != Committed ==> r'.updatedAt == now)
  }

  lemma CommitRecords(c: Config, s: Ledger, charge: Charge, clock: Time)
    requires TimesOk(s) && CommitFinalized(c, s, charge, clock).result.Ok?
    ensures Records(s, CommitFinalized(c, s, charge, clock).after, charge, CommitTime(s, charge, clock))
    ensures CommitFinalized(c, s, charge, clock).result.value == CommitFinalized(c, s, charge, clock).after.reservations[charge.reservation]
  {
    CommitGuards(c, s, charge, clock);
    var r, now := s.reservations[charge.reservation], CommitTime(s, charge, clock);
    CommitIs(c, s, charge, clock);
    CommitMeans(c, r, charge, now);
    CommitValid(c, r, charge, now);
    StoredIs(c, s, r, Commit(c, r, charge, now), now);
  }
}
