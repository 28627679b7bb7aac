/** The ledger as the object the daemon calls: its loops and its in-place updates. */
module BudgetLedgerModule {
  import opened Prelude
  import opened BudgetModel
  import S = BudgetSteps

  // aggregateUsage: running totals of one pass over the records. Absent entries are zero.
  datatype Usage = Usage(
    global: ScopeUsage, networks: map<NetworkID, ScopeUsage>, sponsors: map<(NetworkID, Address), nat>)
  {
    function Network(n: NetworkID): ScopeUsage {
      if n in networks then networks[n] else NO_USAGE
    }

    function Sponsor(n: NetworkID, sponsor: Address): nat {
      if (n, sponsor) in sponsors then sponsors[(n, sponsor)] else 0
    }

    // One iteration: the record is added to its three totals.
    function Plus(r: Reservation, now: Time): Usage {
      var n := r.request.network;
      var key := (n, r.request.sponsor);
      Usage(
        Add(global, r, now),
        networks[n := Add(Network(n), r, now)],
        if r.Open() then sponsors[key := Sponsor(n, r.request.sponsor) + r.maximum] else sponsors)
    }
  }

  const EMPTY := Usage(NO_USAGE, map[], map[])

  function Add(u: ScopeUsage, r: Reservation, now: Time): ScopeUsage {
    match r.state
    case Released => u
    case Committed =>
      ScopeUsage(
        u.feeOverrun || r.actual > r.maximum,
        u.reserved,
        u.hourSpent + (if r.updatedAt >= now - HOUR then r.actual else 0),
        u.daySpent + (if r.updatedAt >= now - DAY then r.actual else 0),
        u.allSpent + r.actual)
    case _ => u.(reserved := u.reserved + r.maximum)
  }

  // The totals describe exactly these records.
  ghost predicate Agrees(u: Usage, m: map<ReservationID, Reservation>, now: Time) {
    && u.global == UsageOf(m, Global, now)
    && (forall n :: u.Network(n) == UsageOf(m, Net(n), now))
    && (forall n, sponsor :: u.Sponsor(n, sponsor) == Sum(SponsorReserved(n, sponsor), m))
  }

  lemma OverrunPut(m: map<ReservationID, Reservation>, id: ReservationID, r: Reservation, scope: Scope)
    requires id !in m
    ensures Overrun(m[id := r], scope) == (Overrun(m, scope) || (r.Overran() && InScope(scope, r.request.network)))
  {
    var m' := m[id := r];
    if other :| other in m && m[other].Overran() && InScope(scope, m[other].request.network) {
      assert m'[other].Overran();
    }
    if r.Overran() {
      assert m'[id].Overran();
    }
  }

  lemma UsagePut(m: map<ReservationID, Reservation>, id: ReservationID, r: Reservation, scope: Scope, now: Time)
    requires id !in m && r.updatedAt >= UNSET
    ensures UsageOf(m[id := r], scope, now) ==
            if InScope(scope, r.request.network) then Add(UsageOf(m, scope, now), r, now) else UsageOf(m, scope, now)
  {
    OverrunPut(m, id, r, scope);
    SumPut(Reserved(scope), m, id, r);
    SumPut(SpentSince(scope, now - HOUR), m, id, r);
    SumPut(SpentSince(scope, now - DAY), m, id, r);
    SumPut(SpentSince(scope, UNSET), m, id, r);
  }

  lemma AgreesPut(u: Usage, m: map<ReservationID, Reservation>, id: ReservationID, r: Reservation, now: Time)
    requires Agrees(u, m, now) && id !in m && r.updatedAt >= UNSET
    ensures Agrees(u.Plus(r, now), m[id := r], now)
  {
    UsagePut(m, id, r, Global, now);
    forall n ensures u.Plus(r, now).Network(n) == UsageOf(m[id := r], Net(n), now) {
      UsagePut(m, id, r, Net(n), now);
    }
    forall n, sponsor ensures u.Plus(r, now).Sponsor(n, sponsor) == Sum(SponsorReserved(n, sponsor), m[id := r]) {
      SumPut(SponsorReserved(n, sponsor), m, id, r);
    }
  }

  lemma AgreesEmpty(now: Time)
    ensures Agrees(EMPTY, map[], now)
  {
  }

  // A partial total that overflows is part of a full total that overflows.
  lemma FitsPart(part: map<ReservationID, Reservation>, m: map<ReservationID, Reservation>, scope: Scope, now: Time)
    requires forall id | id in part :: id in m && m[id] == part[id]
    requires UsageOf(m, Global, now).Fits()
    ensures UsageOf(part, scope, now).Fits()
  {
    SumMonotone(Reserved(scope), Reserved(Global), part);
    SumMonotone(SpentSince(scope, now - HOUR), SpentSince(Global, now - HOUR), part);
    SumMonotone(SpentSince(scope, now - DAY), SpentSince(Global, now - DAY), part);
    SumMonotone(SpentSince(scope, UNSET), SpentSince(Global, UNSET), part);
    SumSubmap(Reserved(Global), part, m);
    SumSubmap(SpentSince(Global, now - HOUR), part, m);
    SumSubmap(SpentSince(Global, now - DAY), part, m);
    SumSubmap(SpentSince(Global, UNSET), part, m);
  }

  lemma FitsPartSponsor(part: map<ReservationID, Reservation>, m: map<ReservationID, Reservation>, n: NetworkID, sponsor: Address, now: Time)
    requires forall id | id in part :: id in m && m[id] == part[id]
    requires UsageOf(m, Global, now).Fits()
    ensures Sum(SponsorReserved(n, sponsor), part) <= MAX_UINT256
  {
    SumMonotone(SponsorReserved(n, sponsor), Reserved(Global), part);
    SumSubmap(Reserved(Global), part, m);
  }

  predicate RecordOk(c: Config, attempts: map<Attempt, ReservationID>, id: ReservationID, r: Reservation) {
    r.id == id && ValidReservation(c, r) && r.request.attempt in attempts && attempts[r.request.attempt] == id
  }

  // Everything outside rest has been checked and is in the totals.
  ghost predicate Totalled(c: Config, s: Ledger, rest: set<ReservationID>, usage: Usage, now: Time) {
    var done := s.reservations - rest;
    && rest <= s.reservations.Keys
    && (forall id | id in done :: RecordOk(c, s.attempts, id, done[id]))
    && Agrees(usage, done, now)
    && usage.global.Fits()
  }

  ghost predicate TotalsOk(c: Config, s: Ledger, now: Time) {
    S.AllValid(c, s.reservations) && S.Filed(s) && UsageOf(s.reservations, Global, now).Fits()
  }

  lemma TotalledStart(c: Config, s: Ledger, now: Time)
    ensures Totalled(c, s, s.reservations.Keys, EMPTY, now)
  {
    assert s.reservations - s.reservations.Keys == map[];
    AgreesEmpty(now);
  }

  lemma TotalledStep(c: Config, s: Ledger, rest: set<ReservationID>, usage: Usage, now: Time, id: ReservationID)
    requires Totalled(c, s, rest, usage, now) && id in rest && RecordOk(c, s.attempts, id, s.reservations[id])
    ensures var usage' := usage.Plus(s.reservations[id], now);
            && Agrees(usage', s.reservations - (rest - {id}), now)
            && (usage'.global.Fits() ==> Totalled(c, s, rest - {id}, usage', now))
  {
    AgreesPut(usage, s.reservations - rest, id, s.reservations[id], now);
    assert s.reservations - (rest - {id}) == (s.reservations - rest)[id := s.reservations[id]];
  }

  lemma TotalledOverflow(c: Config, s: Ledger, rest: set<ReservationID>, usage: Usage, now: Time, n: NetworkID, sponsor: Address)
    requires Agrees(usage, s.reservations - rest, now)
    requires !usage.global.Fits() || !usage.Network(n).Fits() || usage.Sponsor(n, sponsor) > MAX_UINT256
    ensures !TotalsOk(c, s, now)
  {
    if UsageOf(s.reservations, Global, now).Fits() {
      FitsPart(s.reservations - rest, s.reservations, Global, now);
      FitsPart(s.reservations - rest, s.reservations, Net(n), now);
      FitsPartSponsor(s.reservations - rest, s.reservations, n, sponsor, now);
    }
  }

  lemma TotalledReject(c: Config, s: Ledger, now: Time, id: ReservationID)
    requires id in s.reservations && !RecordOk(c, s.attempts, id, s.reservations[id])
    ensures !TotalsOk(c, s, now)
  {
  }

  lemma TotalledAll(c: Config, s: Ledger, usage: Usage, now: Time)
    requires Totalled(c, s, {}, usage, now)
    ensures TotalsOk(c, s, now) && Agrees(usage, s.reservations, now)
  {
    assert s.reservations - {} == s.reservations;
  }

  lemma AgreesWithin(c: Config, usage: Usage, m: map<ReservationID, Reservation>, now: Time)
    requires Agrees(usage, m, now)
    ensures S.WithinLimits(c, m, now) <==>
            && usage.global.Within(c.policy.global)
            && forall n | n in c.policy.networks :: usage.Network(n).Within(c.policy.networks[n].limits)
  {
  }

  lemma OldestUnique(s: Ledger, a: ReservationID, b: ReservationID)
    requires S.Filed(s) && S.IsOldestReleased(s.reservations, a) && S.IsOldestReleased(s.reservations, b)
    ensures a == b
  {
    assert s.reservations[a].id == a && s.reservations[b].id == b;
  }

  class BudgetLedger {
    const config: Config
    var reservations: map<ReservationID, Reservation>
    var attempts: map<Attempt, ReservationID>
    var lastSeen: Time

    ghost function Contents(): Ledger
      reads this
    {
      Ledger(reservations, attempts, lastSeen)
    }

    constructor (config: Config)
      ensures this.config == config && Contents() == INITIAL
    {
      this.config := config;
      reservations, attempts, lastSeen := map[], map[], SECOND;
    }

    // First pass of collectUsage: validate and add up every record.
    method TotalRecords(now: Time) returns (r: Result<Usage, Error>)
      ensures r.Ok? <==> TotalsOk(config, Contents(), now)
      ensures r.Ok? ==> Agrees(r.value, reservations, now)
    {
      var usage := EMPTY;
      var rest := reservations.Keys;
      TotalledStart(config, Contents(), now);
      while rest != {}
        invariant Totalled(config, Contents(), rest, usage, now)
        decreases |rest|
      {
        var id :| id in rest;
        var record := reservations[id];
        if !RecordOk(config, attempts, id, record) {
          TotalledReject(config, Contents(), now, id);
          return Err(Corrupt);
        }
        TotalledStep(config, Contents(), rest, usage, now, id);
        usage := usage.Plus(record, now);
        rest := rest - {id};
        var n, sponsor := record.request.network, record.request.sponsor;
        if !usage.global.Fits() || !usage.Network(n).Fits() || usage.Sponsor(n, sponsor) > MAX_UINT256 {
          TotalledOverflow(config, Contents(), rest, usage, now, n, sponsor);
          return Err(Corrupt);
        }
      }
      TotalledAll(config, Contents(), usage, now);
      r := Ok(usage);
    }

    // Second pass: every index entry leads back to its record.
    method CheckIndex() returns (ok: bool)
      ensures ok <==> S.Indexed(Contents())
    {
      var rest := attempts.Keys;
      while rest != {}
        invariant rest <= attempts.Keys
        invariant forall a | a in attempts && a !in rest ::
                    attempts[a] in reservations && reservations[attempts[a]].request.attempt == a && a.Valid()
        decreases |rest|
      {
        var a :| a in rest;
        rest := rest - {a};
        if !a.Valid() || attempts[a] !in reservations || reservations[attempts[a]].request.attempt != a {
          return false;
        }
      }
      return true;
    }

    // Last pass: every network within its own limits.
    method CheckNetworks(usage: Usage) returns (ok: bool)
      ensures ok <==> forall n | n in config.policy.networks :: usage.Network(n).Within(config.policy.networks[n].limits)
    {
      var rest := config.policy.networks.Keys;
      while rest != {}
        invariant rest <= config.policy.networks.Keys
        invariant forall n | n in config.policy.networks && n !in rest ::
                    usage.Network(n).Within(config.policy.networks[n].limits)
        decreases |rest|
      {
        var n := Choose(rest);
        rest := rest - {n};
        if !usage.Network(n).Within(config.policy.networks[n].limits) {
          return false;
        }
      }
      return true;
    }

    method CollectUsage(now: Time) returns (r: Result<Usage, Error>)
      ensures r.Ok? <==> S.Acceptable(config, Contents(), now)
      ensures r.Ok? ==> Agrees(r.value, reservations, now)
      ensures r.Err? ==> r.error == Corrupt
    {
      r := Err(Corrupt);
      var totals := TotalRecords(now);
      if totals.Err? { return; }
      var usage := totals.value;
      var indexed := CheckIndex();
      if !indexed || |attempts| != |reservations| || |reservations| > config.maxRecords { return; }
      var within := CheckNetworks(usage);
      if !usage.global.Within(config.policy.global) || !within {
        AgreesWithin(config, usage, reservations, now);
        return;
      }
      AgreesWithin(config, usage, reservations, now);
      r := Ok(usage);
    }

    // The loop of purgeOldestReleased: the released record with the least update time, then id.
    method FindOldestReleased() returns (found: Option<ReservationID>)
      requires S.Filed(Contents())
      ensures found.Some? ==> S.IsOldestReleased(reservations, found.value)
      ensures found.None? ==> !S.HasOldest(reservations)
    {
      found := None;
      var rest := reservations.Keys;
      while rest != {}
        invariant rest <= reservations.Keys
        invariant found.Some? ==> found.value in reservations && reservations[found.value].state == Released
        invariant forall id | id in reservations && id !in rest && reservations[id].state == Released ::
                    found.Some? && S.Older(reservations[found.value], reservations[id])
        decreases |rest|
      {
        var id :| id in rest;
        rest := rest - {id};
        var record := reservations[id];
        if record.state == Released && (found.None? || S.Older(record, reservations[found.value])) {
          found := Some(id);
        }
      }
    }

    // checkScopeBudget for both scopes, then the sponsor's balance.
    method CheckBudget(usage: Usage, request: Request, now: Time) returns (error: Option<Error>)
      requires ValidRequest(config, request) && Agrees(usage, reservations, now)
      ensures error == S.BudgetError(config, reservations, request, now)
    {
      var network := config.policy.networks[request.network];
      var maximum := S.MaximumOf(config, request);
      if !usage.global.Admits(config.policy.global, maximum) { return Some(BudgetExceeded); }
      if !usage.Network(request.network).Admits(network.limits, maximum) { return Some(BudgetExceeded); }
      if !SponsorHasCapacity(request.sponsorBalance, network.emergencySponsorReserve,
                             usage.Sponsor(request.network, request.sponsor), maximum) {
        return Some(SponsorReserve);
      }
      return None;
    }

    method ReserveExisting(usage: Usage, request: Request, now: Time) returns (r: Result<Reservation, Error>)
      requires ValidRequest(config, request) && Agrees(usage, reservations, now)
      requires request.attempt in attempts && attempts[request.attempt] in reservations
      modifies this
      ensures S.Outcome(r, Contents()) == S.ReserveExisting(config, old(Contents()), request, now)
    {
      var existing := reservations[attempts[request.attempt]];
      if !SameRequest(existing.request, request) { return Err(StateConflict); }
      if existing.state == Released {
        var error := CheckBudget(usage, request, now);
        if error.Some? { return Err(error.value); }
        existing := S.Revived(existing, request, now);
        reservations := reservations[existing.id := existing];
      }
      lastSeen := now;
      r := Ok(existing);
    }

    method ReserveNew(usage: Usage, request: Request, now: Time) returns (r: Result<Reservation, Error>)
      requires ValidRequest(config, request) && Agrees(usage, reservations, now) && S.Filed(Contents())
      modifies this
      ensures S.Outcome(r, Contents()) == S.ReserveNew(config, old(Contents()), request, now)
    {
      var records, index := reservations, attempts;
      if |records| >= config.maxRecords {
        var oldest := FindOldestReleased();
        if oldest.None? { return Err(Capacity); }
        OldestUnique(Contents(), oldest.value, S.OldestReleased(reservations));
        index := index - {records[oldest.value].request.attempt};
        records := records - {oldest.value};
      }
      var error := CheckBudget(usage, request, now);
      if error.Some? { return Err(error.value); }
      var created := S.NewReservation(config, request, now);
      if created.id in records { return Err(Corrupt); }
      reservations := records[created.id := created];
      attempts := index[request.attempt := created.id];
      lastSeen := now;
      r := Ok(created);
    }

    method Reserve(request: Request, clock: Time) returns (r: Result<Reservation, Error>)
      modifies this
      ensures S.Outcome(r, Contents()) == S.Reserve(config, old(Contents()), request, clock)
    {
      if !ValidRequest(config, request) { return Err(S.RequestError(config, request)); }
      if !S.ClockOk(request.observedAt, clock) { return Err(InvalidRequest); }
      var now := S.Clamp(lastSeen, clock);
      var collected := CollectUsage(now);
      if collected.Err? { return Err(Corrupt); }
      if request.attempt in attempts {
        r := ReserveExisting(collected.value, request, now);
      } else {
        r := ReserveNew(collected.value, request, now);
      }
    }

    // The end of transition: keep, reject or store the updated record.
    method Store(before: Reservation, updated: Result<Reservation, Error>, now: Time) returns (r: Result<Reservation, Error>)
      modifies this
      ensures S.Outcome(r, Contents()) == S.Stored(config, old(Contents()), before, updated, now)
    {
      if updated.Err? { return updated; }
      if updated.value == before {
        lastSeen := now;
        return updated;
      }
      if !ValidReservation(config, updated.value) { return Err(Corrupt); }
      reservations := reservations[before.id := updated.value];
      lastSeen := now;
      r := updated;
    }

    method MarkExposed(id: ReservationID, txHash: Hash) returns (r: Result<Reservation, Error>)
      modifies this
      ensures S.Outcome(r, Contents()) == S.MarkExposed(config, old(Contents()), id, txHash)
    {
      if id == 0 || txHash == 0 { return Err(InvalidRequest); }
      var collected := CollectUsage(lastSeen);
      if collected.Err? { return Err(Corrupt); }
      if id !in reservations { return Err(StateConflict); }
      r := Store(reservations[id], S.Expose(reservations[id], txHash, lastSeen), lastSeen);
    }

    method CommitFinalized(charge: S.Charge, clock: Time) returns (r: Result<Reservation, Error>)
      modifies this
      ensures S.Outcome(r, Contents()) == S.CommitFinalized(config, old(Contents()), charge, clock)
    {
      if charge.reservation == 0 || charge.txHash == 0 || charge.actual == 0 { return Err(InvalidRequest); }
      var now := lastSeen;
      if charge.observedAt != UNSET {
        if !S.ClockOk(charge.observedAt, clock) { return Err(InvalidRequest); }
        now := S.Clamp(lastSeen, clock);
      }
      var collected := CollectUsage(now);
      if collected.Err? { return Err(Corrupt); }
      if charge.reservation !in reservations { return Err(StateConflict); }
      var before := reservations[charge.reservation];
      r := Store(before, S.Commit(config, before, charge, now), now);
    }

    method ReleaseProvenUnused(id: ReservationID) returns (r: Result<Reservation, Error>)
      modifies this
      ensures S.Outcome(r, Contents()) == S.ReleaseProvenUnused(config, old(Contents()), id)
    {
      if id == 0 { return Err(InvalidRequest); }
      var collected := CollectUsage(lastSeen);
      if collected.Err? { return Err(Corrupt); }
      if id !in reservations { return Err(StateConflict); }
      r := Store(reservations[id], S.Release(reservations[id], lastSeen), lastSeen);
    }

    method CheckSponsorCapacity(id: ReservationID, balance: Wei) returns (r: Result<Reservation, Error>)
      modifies this
      ensures S.Outcome(r, Contents()) == S.CheckSponsorCapacity(config, old(Contents()), id, balance)
    {
      if id == 0 || balance == 0 { return Err(InvalidRequest); }
      if id !in reservations { return Err(StateConflict); }
      var record := reservations[id];
      if record.id != id || !ValidReservation(config, record) { return Err(Corrupt); }
      if !record.Open() { return Err(StateConflict); }
      var collected := CollectUsage(lastSeen);
      if collected.Err? { return Err(Corrupt); }
      var usage := collected.value;
      if usage.global.feeOverrun { return Err(BudgetExceeded); }
      var n := record.request.network;
      if !SponsorHasCapacity(balance, config.policy.networks[n].emergencySponsorReserve, usage.Sponsor(n, record.request.sponsor), 0) {
        return Err(SponsorReserve);
      }
      if record.state == Held {
        record := S.Refreshed(record, balance);
        reservations := reservations[id := record];
      }
      r := Ok(record);
    }
  }
}
