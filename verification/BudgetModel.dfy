/** Reservations, limits and the sums the budget ledger keeps under control. */
module BudgetModel {
  import opened Prelude

  datatype Limits = Limits(perTransaction: Wei, perHour: Wei, perDay: Wei, cumulative: Wei)
  {
    // validateLimits
    predicate Valid() {
      0 < perTransaction <= perHour <= perDay <= cumulative
    }
  }

  datatype NetworkPolicy = NetworkPolicy(
    sponsor: Address, limits: Limits, transactionOverhead: Wei, emergencySponsorReserve: Wei, allowFeeOverrun: bool)

  datatype Policy = Policy(global: Limits, networks: map<NetworkID, NetworkPolicy>)
  {
    predicate Valid() {
      && global.Valid()
      && networks != map[]
      && forall n | n in networks ::
           && n > 0
           && networks[n].sponsor != 0
           && networks[n].emergencySponsorReserve != 0
           && networks[n].limits.Valid()
    }

    // No network records charges above its reservations.
    predicate Bounded() {
      forall n | n in networks :: !networks[n].allowFeeOverrun
    }
  }

  datatype Error =
    | InvalidRequest | ArithmeticOverflow | BudgetExceeded | SponsorReserve | StateConflict | Capacity | Corrupt

  datatype CostQuote = CostQuote(gasLimit: Uint64, maxFeePerGas: Wei, maximumCost: Wei)
  {
    // uint256 arithmetic: every intermediate value is range-checked.
    function Maximum(overhead: Wei): (r: Result<Wei, Error>)
      ensures r.Ok? ==> gasLimit * maxFeePerGas + overhead <= r.value && r.value > 0
      ensures r.Ok? && maximumCost == 0 ==> r.value == gasLimit * maxFeePerGas + overhead
      ensures r.Ok? && maximumCost != 0 ==> r.value == maximumCost
      ensures r.Ok? <==>
              && gasLimit > 0 && maxFeePerGas > 0
              && gasLimit * maxFeePerGas + overhead <= (if maximumCost == 0 then MAX_UINT256 else maximumCost)
    {
      if gasLimit == 0 || maxFeePerGas == 0 then Err(InvalidRequest)
      else
        assert gasLimit * maxFeePerGas > 0;
        var product: nat := gasLimit * maxFeePerGas;
        if product > MAX_UINT256 then Err(ArithmeticOverflow)
        else if product + overhead > MAX_UINT256 || product + overhead == 0 then Err(ArithmeticOverflow)
        else if maximumCost != 0 then
          if maximumCost < product + overhead then Err(InvalidRequest) else Ok(maximumCost)
        else Ok(product + overhead)
    }
  }

  datatype Attempt = Attempt(incident: IncidentID, number: nat)
  {
    predicate Valid() { incident != 0 && number > 0 }
  }

  type ReservationID = nat

  datatype Request = Request(
    network: NetworkID, sponsor: Address, candidate: CandidateID, attempt: Attempt,
    quote: CostQuote, sponsorBalance: Wei, observedAt: Time)

  // sameReservationRequest: everything but the balance reading and its time.
  predicate SameRequest(left: Request, right: Request) {
    left.(sponsorBalance := 0, observedAt := UNSET) == right.(sponsorBalance := 0, observedAt := UNSET)
  }

  datatype State = Held | Exposed | Committed | Released

  datatype Reservation = Reservation(
    id: ReservationID, request: Request, maximum: Wei, state: State, txHash: Hash, actual: Wei,
    createdAt: Time, exposedAt: Time, updatedAt: Time)
  {
    predicate Open() { state == Held || state == Exposed }
    predicate Overran() { state == Committed && actual > maximum }
  }

  // The configuration a ledger is opened with. idOf stands for the SHA-256 derivation of
  // reservation identifiers: any function that never collides and never returns the zero id.
  datatype Config = Config(policy: Policy, maxRecords: nat, idOf: Attempt -> ReservationID)
  {
    ghost predicate Valid() {
      && policy.Valid()
      && maxRecords > 0
      && (forall a: Attempt :: idOf(a) != 0)
      && (forall a: Attempt, b: Attempt :: idOf(a) == idOf(b) ==> a == b)
    }
  }

  // validPersistentTime
  predicate ValidTime(t: Time) { t > 0 }

  predicate ValidRequest(c: Config, request: Request) {
    && request.network in c.policy.networks
    && request.sponsor != 0
    && request.sponsor == c.policy.networks[request.network].sponsor
    && request.candidate != 0
    && request.attempt.Valid()
    && request.quote.gasLimit != 0
    && request.quote.maxFeePerGas != 0
    && request.sponsorBalance != 0
    && request.quote.Maximum(c.policy.networks[request.network].transactionOverhead).Ok?
  }

  predicate ValidReservation(c: Config, r: Reservation) {
    && r.id != 0
    && r.id == c.idOf(r.request.attempt)
    && ValidRequest(c, r.request)
    && ValidTime(r.createdAt)
    && ValidTime(r.updatedAt)
    && r.createdAt <= r.updatedAt
    && var network := c.policy.networks[r.request.network];
    && r.request.quote.Maximum(network.transactionOverhead) == Ok(r.maximum)
    && r.maximum <= c.policy.global.perTransaction
    && r.maximum <= network.limits.perTransaction
    && match r.state
       case Held => r.txHash == 0 && r.actual == 0 && r.exposedAt == UNSET
       case Exposed => r.txHash != 0 && r.actual == 0 && ValidTime(r.exposedAt) && r.createdAt <= r.exposedAt <= r.updatedAt
       case Committed =>
         && r.txHash != 0 && r.actual != 0
         && (r.actual > r.maximum ==> network.allowFeeOverrun)
         && ValidTime(r.exposedAt) && r.createdAt <= r.exposedAt <= r.updatedAt
       case Released => r.txHash == 0 && r.actual == 0 && r.exposedAt == UNSET
  }

  // The durable contents of the ledger file.
  datatype Ledger = Ledger(
    reservations: map<ReservationID, Reservation>, attempts: map<Attempt, ReservationID>, lastSeen: Time)

  // A freshly initialised ledger has seen one second past the epoch.
  const INITIAL: Ledger := Ledger(map[], map[], SECOND)

  // ---------- What is summed ----------

  datatype Scope = Global | Net(network: NetworkID)

  predicate InScope(scope: Scope, network: NetworkID) {
    scope == Global || scope == Net(network)
  }

  datatype Measure =
    | Reserved(scope: Scope)
    | SpentSince(scope: Scope, from: Time)
    | SpentWithin(scope: Scope, from: Time, to: Time)
    | SponsorReserved(network: NetworkID, sponsor: Address)

  function Weight(q: Measure, r: Reservation): nat {
    match q
    case Reserved(scope) => if r.Open() && InScope(scope, r.request.network) then r.maximum else 0
    case SpentSince(scope, from) =>
      if r.state == Committed && InScope(scope, r.request.network) && from <= r.updatedAt then r.actual else 0
    case SpentWithin(scope, from, to) =>
      if r.state == Committed && InScope(scope, r.request.network) && from <= r.updatedAt <= to then r.actual else 0
    case SponsorReserved(network, sponsor) =>
      if r.Open() && r.request.network == network && r.request.sponsor == sponsor then r.maximum else 0
  }

  ghost function Sum(q: Measure, m: map<ReservationID, Reservation>): nat
    decreases |m|
  {
    if m == map[] then 0
    else
      var id :| id in m;
      Weight(q, m[id]) + Sum(q, m - {id})
  }

  lemma {:induction false} SumRemove(q: Measure, m: map<ReservationID, Reservation>, id: ReservationID)
    requires id in m
    ensures Sum(q, m) == Weight(q, m[id]) + Sum(q, m - {id})
    decreases |m|
  {
    var first :| first in m && Sum(q, m) == Weight(q, m[first]) + Sum(q, m - {first});
    if first != id {
      SumRemove(q, m - {first}, id);
      SumRemove(q, m - {id}, first);
      assert m - {first} - {id} == m - {id} - {first};
    }
  }

  lemma SumPut(q: Measure, m: map<ReservationID, Reservation>, id: ReservationID, r: Reservation)
    ensures Sum(q, m[id := r]) == Weight(q, r) + Sum(q, m - {id})
    ensures id !in m ==> Sum(q, m[id := r]) == Weight(q, r) + Sum(q, m)
    ensures id in m ==> Sum(q, m[id := r]) + Weight(q, m[id]) == Weight(q, r) + Sum(q, m)
  {
    SumRemove(q, m[id := r], id);
    assert m[id := r] - {id} == m - {id};
    if id in m {
      SumRemove(q, m, id);
    } else {
      assert m - {id} == m;
    }
  }

  // One measure dominates another record by record, hence in total.
  lemma {:induction false} SumMonotone(small: Measure, large: Measure, m: map<ReservationID, Reservation>)
    requires forall id | id in m :: Weight(small, m[id]) <= Weight(large, m[id])
    ensures Sum(small, m) <= Sum(large, m)
    decreases |m|
  {
    if m != map[] {
      var id :| id in m;
      SumRemove(small, m, id);
      SumRemove(large, m, id);
      SumMonotone(small, large, m - {id});
    }
  }

  lemma SumSubmap(q: Measure, part: map<ReservationID, Reservation>, m: map<ReservationID, Reservation>)
    requires forall id | id in part :: id in m && m[id] == part[id]
    ensures Sum(q, part) <= Sum(q, m)
    decreases |part|
  {
    if part != map[] {
      var id :| id in part;
      SumRemove(q, part, id);
      SumRemove(q, m, id);
      SumSubmap(q, part - {id}, m - {id});
    }
  }

  // ---------- Usage of one scope ----------

  // scopeUsage: the running totals collectUsage keeps for one scope.
  datatype ScopeUsage = ScopeUsage(feeOverrun: bool, reserved: nat, hourSpent: nat, daySpent: nat, allSpent: nat)
  {
    predicate Fits() {
      reserved <= MAX_UINT256 && hourSpent <= MAX_UINT256 && daySpent <= MAX_UINT256 && allSpent <= MAX_UINT256
    }

    // scopeWithinLimits
    predicate Within(limits: Limits) {
      feeOverrun ||
      (&& FitsExisting(limits.perHour, hourSpent, reserved)
       && FitsExisting(limits.perDay, daySpent, reserved)
       && FitsExisting(limits.cumulative, allSpent, reserved))
    }

    // checkScopeBudget
    predicate Admits(limits: Limits, maximum: nat) {
      && !feeOverrun
      && maximum <= limits.perTransaction
      && HasCapacity(limits.perHour, hourSpent, reserved, maximum)
      && HasCapacity(limits.perDay, daySpent, reserved, maximum)
      && HasCapacity(limits.cumulative, allSpent, reserved, maximum)
    }
  }

  const NO_USAGE := ScopeUsage(false, 0, 0, 0, 0)

  predicate FitsExisting(limit: nat, spent: nat, reserved: nat): (r: bool)
    ensures r <==> spent + reserved <= limit
  {
    spent <= limit && reserved <= limit - spent
  }

  predicate HasCapacity(limit: nat, spent: nat, reserved: nat, requested: nat): (r: bool)
    ensures r <==> spent + reserved + requested <= limit
  {
    spent <= limit && reserved <= limit - spent && requested <= limit - spent - reserved
  }

  predicate SponsorHasCapacity(balance: nat, emergency: nat, reserved: nat, requested: nat): (r: bool)
    ensures r <==> emergency + reserved + requested <= balance
  {
    emergency <= balance && reserved <= balance - emergency && requested <= balance - emergency - reserved
  }

  ghost predicate Overrun(m: map<ReservationID, Reservation>, scope: Scope) {
    exists id :: id in m && m[id].Overran() && InScope(scope, m[id].request.network)
  }

  ghost function UsageOf(m: map<ReservationID, Reservation>, scope: Scope, now: Time): ScopeUsage {
    ScopeUsage(
      Overrun(m, scope),
      Sum(Reserved(scope), m),
      Sum(SpentSince(scope, now - HOUR), m),
      Sum(SpentSince(scope, now - DAY), m),
      Sum(SpentSince(scope, UNSET), m))
  }
}
