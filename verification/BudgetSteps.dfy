/** The transactions of the budget ledger as functions from its contents to its contents. */
module BudgetSteps {
  import opened Prelude
  import opened BudgetModel

  const MAXIMUM_OBSERVED_SKEW: Time := 2 * MINUTE

  // ---------- What collectUsage accepts ----------

  ghost predicate AllValid(c: Config, m: map<ReservationID, Reservation>) {
    forall id | id in m :: ValidReservation(c, m[id])
  }

  // Every record is filed under its own id and found through its attempt ...
  ghost predicate Filed(s: Ledger) {
    forall id {:trigger s.reservations[id]} | id in s.reservations ::
      var r := s.reservations[id];
      r.id == id && r.request.attempt in s.attempts && s.attempts[r.request.attempt] == id
  }

  // ... and every index entry leads to the record of that attempt.
  ghost predicate Indexed(s: Ledger) {
    forall a {:trigger s.attempts[a]} | a in s.attempts ::
      && s.attempts[a] in s.reservations
      && s.reservations[s.attempts[a]].request.attempt == a
      && a.Valid()
  }

  ghost predicate WithinLimits(c: Config, m: map<ReservationID, Reservation>, now: Time) {
    && UsageOf(m, Global, now).Within(c.policy.global)
    && forall n | n in c.policy.networks :: UsageOf(m, Net(n), now).Within(c.policy.networks[n].limits)
  }

  // Exactly the contents collectUsage does not reject as corrupt at time now.
  ghost predicate Acceptable(c: Config, s: Ledger, now: Time) {
    && AllValid(c, s.reservations)
    && Filed(s)
    && Indexed(s)
    && |s.attempts| == |s.reservations| <= c.maxRecords
    && UsageOf(s.reservations, Global, now).Fits()
    && WithinLimits(c, s.reservations, now)
  }

  // ---------- Clock ----------

  predicate WithinSkew(observed: Time, local: Time) {
    -MAXIMUM_OBSERVED_SKEW <= observed - local <= MAXIMUM_OBSERVED_SKEW
  }

  // effectiveNow: the clock never runs backwards.
  function Clamp(lastSeen: Time, observed: Time): Time {
    if observed > lastSeen then observed else lastSeen
  }

  // A chain timestamp is optional; when present it must be close to the local clock.
  predicate ClockOk(observed: Time, clock: Time) {
    ValidTime(clock) && (observed == UNSET || (ValidTime(observed) && WithinSkew(observed, clock)))
  }

  // ---------- Purging ----------

  predicate Older(a: Reservation, b: Reservation) {
    a.updatedAt < b.updatedAt || (a.updatedAt == b.updatedAt && a.id <= b.id)
  }

  ghost predicate IsOldestReleased(m: map<ReservationID, Reservation>, id: ReservationID) {
    && id in m
    && m[id].state == Released
    && forall other | other in m && m[other].state == Released :: Older(m[id], m[other])
  }

  ghost function Purged(s: Ledger, id: ReservationID): Ledger
    requires id in s.reservations
  {
    s.(reservations := s.reservations - {id}, attempts := s.attempts - {s.reservations[id].request.attempt})
  }

  ghost predicate HasOldest(m: map<ReservationID, Reservation>) {
    exists id :: IsOldestReleased(m, id)
  }

  ghost function OldestReleased(m: map<ReservationID, Reservation>): (id: ReservationID)
    requires HasOldest(m)
    ensures IsOldestReleased(m, id)
  {
    var id :| IsOldestReleased(m, id);
    id
  }

  // ---------- Outcomes ----------

  datatype Outcome = Outcome(result: Result<Reservation, Error>, after: Ledger)

  function RequestError(c: Config, request: Request): Error
    requires !ValidRequest(c, request)
  {
    if && request.network in c.policy.networks && request.sponsor != 0
       && request.sponsor == c.policy.networks[request.network].sponsor && request.candidate != 0
       && request.attempt.Valid() && request.quote.gasLimit != 0 && request.quote.maxFeePerGas != 0
       && request.sponsorBalance != 0
    then request.quote.Maximum(c.policy.networks[request.network].transactionOverhead).error
    else InvalidRequest
  }

  function MaximumOf(c: Config, request: Request): Wei
    requires ValidRequest(c, request)
  {
    request.quote.Maximum(c.policy.networks[request.network].transactionOverhead).value
  }

  // The three checks a new or revived reservation must pass.
  ghost function BudgetError(c: Config, m: map<ReservationID, Reservation>, request: Request, now: Time): Option<Error>
    requires ValidRequest(c, request)
  {
    var network := c.policy.networks[request.network];
    var maximum := MaximumOf(c, request);
    if !UsageOf(m, Global, now).Admits(c.policy.global, maximum) then Some(BudgetExceeded)
    else if !UsageOf(m, Net(request.network), now).Admits(network.limits, maximum) then Some(BudgetExceeded)
    else if !SponsorHasCapacity(request.sponsorBalance, network.emergencySponsorReserve,
                                Sum(SponsorReserved(request.network, request.sponsor), m), maximum)
    then Some(SponsorReserve)
    else None
  }

  function NewReservation(c: Config, request: Request, now: Time): Reservation
    requires ValidRequest(c, request)
  {
    Reservation(c.idOf(request.attempt), request, MaximumOf(c, request), Held, 0, 0, now, UNSET, now)
  }

  function Revived(r: Reservation, request: Request, now: Time): Reservation {
    r.(request := request, state := Held, txHash := 0, actual := 0, createdAt := now, exposedAt := UNSET, updatedAt := now)
  }

  ghost function ReserveExisting(c: Config, s: Ledger, request: Request, now: Time): Outcome
    requires ValidRequest(c, request)
    requires request.attempt in s.attempts && s.attempts[request.attempt] in s.reservations
  {
    var existing := s.reservations[s.attempts[request.attempt]];
    if !SameRequest(existing.request, request) then Outcome(Err(StateConflict), s)
    else if existing.state != Released then Outcome(Ok(existing), s.(lastSeen := now))
    else
      var error := BudgetError(c, s.reservations, request, now);
      if error.Some? then Outcome(Err(error.value), s)
      else
        var r := Revived(existing, request, now);
        Outcome(Ok(r), s.(reservations := s.reservations[existing.id := r], lastSeen := now))
  }

  ghost function ReserveNew(c: Config, s: Ledger, request: Request, now: Time): Outcome
    requires ValidRequest(c, request)
  {
    var full := |s.reservations| >= c.maxRecords;
    if full && !HasOldest(s.reservations) then Outcome(Err(Capacity), s)
    else
      var room := if full then Purged(s, OldestReleased(s.reservations)) else s;
      var error := BudgetError(c, s.reservations, request, now);
      if error.Some? then Outcome(Err(error.value), s)
      else
        var r := NewReservation(c, request, now);
        if r.id in room.reservations then Outcome(Err(Corrupt), s)
        else
          Outcome(Ok(r), Ledger(room.reservations[r.id := r], room.attempts[request.attempt := r.id], now))
  }

  ghost function Reserve(c: Config, s: Ledger, request: Request, clock: Time): Outcome {
    if !ValidRequest(c, request) then Outcome(Err(RequestError(c, request)), s)
    else if !ClockOk(request.observedAt, clock) then Outcome(Err(InvalidRequest), s)
    else
      var now := Clamp(s.lastSeen, clock);
      if !Acceptable(c, s, now) then Outcome(Err(Corrupt), s)
      else if request.attempt in s.attempts then ReserveExisting(c, s, request, now)
      else ReserveNew(c, s, request, now)
  }

  // ---------- Transitions of one reservation ----------

  function Expose(r: Reservation, txHash: Hash, now: Time): Result<Reservation, Error> {
    match r.state
    case Held => Ok(r.(state := Exposed, txHash := txHash, exposedAt := now, updatedAt := now))
    case Exposed => if r.txHash != txHash then Err(StateConflict) else Ok(r)
    case Committed => if r.txHash != txHash then Err(StateConflict) else Ok(r)
    case Released => Err(StateConflict)
  }

  datatype Charge = Charge(reservation: ReservationID, txHash: Hash, actual: Wei, observedAt: Time)

  function Commit(c: Config, r: Reservation, charge: Charge, now: Time): Result<Reservation, Error>
    requires r.request.network in c.policy.networks
  {
    match r.state
    case Exposed =>
      if r.txHash != charge.txHash || (charge.actual > r.maximum && !c.policy.networks[r.request.network].allowFeeOverrun)
      then Err(StateConflict)
      else Ok(r.(state := Committed, actual := charge.actual, updatedAt := now))
    case Committed => if r.txHash != charge.txHash || r.actual != charge.actual then Err(StateConflict) else Ok(r)
    case _ => Err(StateConflict)
  }

  function Release(r: Reservation, now: Time): Result<Reservation, Error> {
    match r.state
    case Held => Ok(r.(state := Released, updatedAt := now))
    case Released => Ok(r)
    case _ => Err(StateConflict)
  }

  // transition: store the updated record, or fail and change nothing.
  function Stored(c: Config, s: Ledger, r: Reservation, updated: Result<Reservation, Error>, now: Time): Outcome {
    if updated.Err? then Outcome(updated, s)
    else if updated.value == r then Outcome(updated, s.(lastSeen := now))
    else if !ValidReservation(c, updated.value) then Outcome(Err(Corrupt), s)
    else Outcome(updated, s.(reservations := s.reservations[r.id := updated.value], lastSeen := now))
  }

  ghost function MarkExposed(c: Config, s: Ledger, id: ReservationID, txHash: Hash): Outcome {
    if id == 0 || txHash == 0 then Outcome(Err(InvalidRequest), s)
    else if !Acceptable(c, s, s.lastSeen) then Outcome(Err(Corrupt), s)
    else if id !in s.reservations then Outcome(Err(StateConflict), s)
    else Stored(c, s, s.reservations[id], Expose(s.reservations[id], txHash, s.lastSeen), s.lastSeen)
  }

  ghost function CommitFinalized(c: Config, s: Ledger, charge: Charge, clock: Time): Outcome {
    if charge.reservation == 0 || charge.txHash == 0 || charge.actual == 0 then Outcome(Err(InvalidRequest), s)
    else if charge.observedAt != UNSET && !ClockOk(charge.observedAt, clock) then Outcome(Err(InvalidRequest), s)
    else
      var now := if charge.observedAt == UNSET then s.lastSeen else Clamp(s.lastSeen, clock);
      if !Acceptable(c, s, now) then Outcome(Err(Corrupt), s)
      else if charge.reservation !in s.reservations then Outcome(Err(StateConflict), s)
      else
        var r := s.reservations[charge.reservation];
        Stored(c, s, r, Commit(c, r, charge, now), now)
  }

  ghost function ReleaseProvenUnused(c: Config, s: Ledger, id: ReservationID): Outcome {
    if id == 0 then Outcome(Err(InvalidRequest), s)
    else if !Acceptable(c, s, s.lastSeen) then Outcome(Err(Corrupt), s)
    else if id !in s.reservations then Outcome(Err(StateConflict), s)
    else Stored(c, s, s.reservations[id], Release(s.reservations[id], s.lastSeen), s.lastSeen)
  }

  function Refreshed(r: Reservation, balance: Wei): Reservation {
    r.(request := r.request.(sponsorBalance := balance))
  }

  ghost function SponsorError(c: Config, s: Ledger, r: Reservation, balance: Wei): Option<Error>
    requires r.request.network in c.policy.networks
  {
    if UsageOf(s.reservations, Global, s.lastSeen).feeOverrun then Some(BudgetExceeded)
    else if !SponsorHasCapacity(balance, c.policy.networks[r.request.network].emergencySponsorReserve,
                                Sum(SponsorReserved(r.request.network, r.request.sponsor), s.reservations), 0)
    then Some(SponsorReserve)
    else None
  }

  // The balance reading is refreshed while the reservation is only held.
  function Recorded(s: Ledger, r: Reservation, balance: Wei): Outcome {
    if r.state == Held
    then Outcome(Ok(Refreshed(r, balance)), s.(reservations := s.reservations[r.id := Refreshed(r, balance)]))
    else Outcome(Ok(r), s)
  }

  ghost function CheckSponsorCapacity(c: Config, s: Ledger, id: ReservationID, balance: Wei): Outcome {
    if id == 0 || balance == 0 then Outcome(Err(InvalidRequest), s)
    else if id !in s.reservations then Outcome(Err(StateConflict), s)
    else if s.reservations[id].id != id || !ValidReservation(c, s.reservations[id]) then Outcome(Err(Corrupt), s)
    else if !s.reservations[id].Open() then Outcome(Err(StateConflict), s)
    else if !Acceptable(c, s, s.lastSeen) then Outcome(Err(Corrupt), s)
    else
      var error := SponsorError(c, s, s.reservations[id], balance);
      if error.Some? then Outcome(Err(error.value), s) else Recorded(s, s.reservations[id], balance)
  }
}
