/**
 * Exactly when a sponsor nonce can be signed again: a refresh that clears the block over a nonce the
 * floor has not passed can be followed by a second signature, any other refresh cannot. And one run in
 * which it happens: a floor write fails, the incident expires, the clock goes back before its deadline.
 */
module SigningRepeat {
  import opened Prelude
  import opened RescueState
  import opened RescueStore
  import opened SigningModel
  import opened SigningTheorems
  import B = BudgetModel
  import L = BudgetSteps
  import R = BudgetRuns
  import T = BudgetTheorems
  import F = Fees

  // ---------- Signing one more incident ----------

  // An incident that is new to the store, with the readings its signature would be made from.
  datatype Fresh = Fresh(incident: Incident, block: Snapshot, prices: Prices, balance: Wei, clock: Time)

  function PreparedWith(f: Fresh, nonce: Uint64): Incident {
    PreparedRecord(f.incident, f.block, nonce, 0, f.incident.updatedAt)
  }

  // The store would take the incident.
  predicate Storable(p: Params, disk: Store, f: Fresh) {
    && RescueStore.Acceptable(p.store, f.incident) && f.incident.status == Pending && !f.incident.policy.latestState
    && f.incident.id !in disk.incidents && f.block.hash != 0
  }

  predicate Priced(p: Params, f: Fresh) {
    && OperationOf(p, PreparedWith(f, 0)).Some?
    && QuoteOf(p, OperationOf(p, PreparedWith(f, 0)).value, f.prices).Some?
  }

  // The ledger would fund it.
  ghost predicate Fundable(p: Params, ledger: B.Ledger, f: Fresh) {
    && Priced(p, f)
    && var granted := L.Reserve(p.ledger, ledger, RequestFor(p, f), f.clock).result;
    && granted.Ok? && granted.value.Open()
  }

  ghost predicate Startable(p: Params, s: State, f: Fresh) {
    Storable(p, s.disk, f) && Fundable(p, s.books.ledger, f)
  }

  function QuoteFor(p: Params, f: Fresh): B.CostQuote
    requires Priced(p, f)
  {
    QuoteOf(p, OperationOf(p, PreparedWith(f, 0)).value, f.prices).value
  }

  function RequestFor(p: Params, f: Fresh): B.Request
    requires Priced(p, f)
  {
    RequestOf(p, PreparedWith(f, 0), QuoteFor(p, f), f.balance, UNSET)
  }

  function TxFor(p: Params, f: Fresh, nonce: Uint64, hash: Hash): Transaction
    requires Priced(p, f)
  {
    Transaction(hash, nonce, 0, QuoteFor(p, f).gasLimit, QuoteFor(p, f).maxFeePerGas,
                F.ValueOf(OperationOf(p, PreparedWith(f, 0)).value), 1)
  }

  predicate AtRest(s: State, nonce: Uint64) {
    s.phase == Idle && s.running && !s.latest && !s.blocked && s.floor <= nonce < MAX_UINT64
  }

  predicate NewHash(s: State, hash: Hash) {
    hash != 0 && forall k | 0 <= k < |s.history| :: s.history[k].transaction.hash != hash
  }

  function SignEvents(p: Params, f: Fresh, nonce: Uint64, hash: Hash): seq<Event>
    requires Priced(p, f)
  {
    [Put(f.incident)] + [Prepare(f.incident.id, f.block, nonce, 0, f.incident.updatedAt)] + [CheckNonce(nonce)]
    + [Fund(f.prices, f.balance, UNSET, f.clock)] + [Sign(f.prices, TxFor(p, f, nonce, hash), f.incident.updatedAt)]
  }

  function AfterPreparing(s: State, f: Fresh, nonce: Uint64): State {
    s.(disk := s.disk.(incidents := s.disk.incidents[f.incident.id := PreparedWith(f, nonce)]), floor := nonce,
       phase := Checking(f.incident.id), clock := f.incident.updatedAt)
  }

  function SignedWith(p: Params, f: Fresh, nonce: Uint64, hash: Hash): Incident
    requires Priced(p, f)
  {
    SignedRecord(PreparedWith(f, nonce), TxFor(p, f, nonce, hash), f.incident.updatedAt)
  }

  function AfterSigning(p: Params, s: State, books: R.Run, f: Fresh, nonce: Uint64, hash: Hash): State
    requires Priced(p, f)
  {
    s.(disk := s.disk.(incidents := s.disk.incidents[f.incident.id := SignedWith(p, f, nonce, hash)]), books := books, floor := nonce,
       phase := Written(f.incident.id), clock := f.incident.updatedAt, blocked := true,
       history := s.history + [Signature(B.Attempt(f.incident.id, 1), TxFor(p, f, nonce, hash))])
  }

  lemma SameOperationOf(p: Params, f: Fresh, nonce: Uint64)
    ensures OperationOf(p, PreparedWith(f, nonce)) == OperationOf(p, PreparedWith(f, 0))
  {
  }

  lemma PreparedIsValid(p: Params, disk: Store, f: Fresh, nonce: Uint64)
    requires Storable(p, disk, f)
    ensures RescueStore.Acceptable(p.store, PreparedWith(f, nonce)) && ValidTransition(f.incident, PreparedWith(f, nonce))
  {
  }

  lemma SignedIsValid(p: Params, disk: Store, f: Fresh, nonce: Uint64, hash: Hash)
    requires Storable(p, disk, f) && Priced(p, f) && hash != 0
    ensures RescueStore.Acceptable(p.store, SignedWith(p, f, nonce, hash))
    ensures ValidTransition(PreparedWith(f, nonce), SignedWith(p, f, nonce, hash))
  {
    PreparedIsValid(p, disk, f, nonce);
  }

  function AfterPut(s: State, f: Fresh): State {
    s.(disk := s.disk.(incidents := s.disk.incidents[f.incident.id := f.incident]))
  }

  lemma Puts(p: Params, s: State, f: Fresh)
    requires s.phase == Idle && Storable(p, s.disk, f)
    ensures SigningModel.DoPut(p, s, f.incident) == AfterPut(s, f)
  {
  }

  // The store takes a valid record over the one it has.
  lemma Taken(p: Params, s: State, i: Incident, next: Incident, phase: Phase, now: Time)
    requires i.id in s.disk.incidents && s.disk.incidents[i.id] == i && next.id == i.id && next.status != i.status
    requires RescueStore.Acceptable(p.store, next) && ValidTransition(i, next)
    ensures Save(p, s, next, phase, now) ==
            s.(disk := s.disk.(incidents := s.disk.incidents[i.id := next]), phase := phase, clock := now)
  {
  }

  lemma PrepareTaken(p: Params, s: State, f: Fresh, nonce: Uint64)
    requires Storable(p, s.disk, f)
    ensures Save(p, AfterPut(s, f).(floor := nonce), PreparedWith(f, nonce), Checking(f.incident.id), f.incident.updatedAt) ==
            AfterPreparing(s, f, nonce)
  {
    PreparedIsValid(p, s.disk, f, nonce);
    Taken(p, AfterPut(s, f).(floor := nonce), f.incident, PreparedWith(f, nonce), Checking(f.incident.id), f.incident.updatedAt);
    var m := AfterPut(s, f).disk.incidents;
    assert m[f.incident.id := PreparedWith(f, nonce)] == s.disk.incidents[f.incident.id := PreparedWith(f, nonce)];
  }

  lemma PrepareGuards(p: Params, s: State, f: Fresh, nonce: Uint64)
    requires AtRest(s, nonce) && Storable(p, s.disk, f)
    ensures DoPrepare(p, AfterPut(s, f), f.incident.id, f.block, nonce, 0, f.incident.updatedAt) ==
            Save(p, AfterPut(s, f).(floor := nonce), PreparedWith(f, nonce), Checking(f.incident.id), f.incident.updatedAt)
  {
    assert Retriable(f.incident, f.incident.updatedAt);
  }

  lemma Checks(s: State, f: Fresh, nonce: Uint64)
    requires nonce < MAX_UINT64
    ensures DoCheckNonce(AfterPreparing(s, f, nonce), nonce) == AfterPreparing(s, f, nonce).(phase := Ready(f.incident.id))
  {
  }

  ghost function Reserved(p: Params, books: R.Run, f: Fresh): R.Run
    requires Priced(p, f)
  {
    R.Advance(p.ledger, books, R.DoReserve(RequestFor(p, f), f.clock))
  }

  lemma FundWith(p: Params, s: State, i: Incident, op: F.Operation, quote: B.CostQuote, prices: Prices, balance: Wei, clock: Time, books: R.Run)
    requires s.phase.Ready? && s.phase.id in s.disk.incidents && s.disk.incidents[s.phase.id] == i && i.status == Prepared
    requires OperationOf(p, i) == Some(op) && QuoteOf(p, op, prices) == Some(quote)
    requires books == R.Advance(p.ledger, s.books, R.DoReserve(RequestOf(p, i, quote, balance, UNSET), clock))
    ensures DoFund(p, s, prices, balance, UNSET, clock) == s.(books := books)
  {
  }

  lemma SameRequest(p: Params, f: Fresh, nonce: Uint64)
    requires Priced(p, f)
    ensures RequestOf(p, PreparedWith(f, nonce), QuoteFor(p, f), f.balance, UNSET) == RequestFor(p, f)
  {
  }

  lemma Asks(p: Params, s: State, f: Fresh, nonce: Uint64)
    requires Priced(p, f)
    ensures DoFund(p, AfterChecking(s, f, nonce), f.prices, f.balance, UNSET, f.clock) ==
            AfterChecking(s, f, nonce).(books := Reserved(p, s.books, f))
  {
    SameOperationOf(p, f, nonce);
    SameRequest(p, f, nonce);
    FundWith(p, AfterChecking(s, f, nonce), PreparedWith(f, nonce), OperationOf(p, PreparedWith(f, 0)).value, QuoteFor(p, f),
             f.prices, f.balance, f.clock, Reserved(p, s.books, f));
  }

  lemma GrantFunds(p: Params, ledger: B.Ledger, i: Incident, op: F.Operation, quote: B.CostQuote, prices: Prices, tx: Transaction)
    requires OperationOf(p, i) == Some(op) && QuoteOf(p, op, prices) == Some(quote)
    requires AttemptOf(i) in ledger.attempts && ledger.attempts[AttemptOf(i)] in ledger.reservations
    requires var r := ledger.reservations[ledger.attempts[AttemptOf(i)]];
             r.Open() && r.request.quote == quote && r.request.network == p.store.network
    requires tx.gas == quote.gasLimit && tx.feeCap == quote.maxFeePerGas && tx.value == F.ValueOf(op)
    ensures Funded(p, ledger, i, prices, tx)
  {
  }

  lemma ReservedLedger(p: Params, books: R.Run, f: Fresh)
    requires Priced(p, f)
    ensures Reserved(p, books, f).ledger == L.Reserve(p.ledger, books.ledger, RequestFor(p, f), f.clock).after
  {
  }

  lemma Gets(p: Params, books: R.Run, f: Fresh, nonce: Uint64, hash: Hash)
    requires Fundable(p, books.ledger, f)
    ensures Funded(p, Reserved(p, books, f).ledger, PreparedWith(f, nonce), f.prices, TxFor(p, f, nonce, hash))
  {
    SameOperationOf(p, f, nonce);
    T.ReserveGrants(p.ledger, books.ledger, RequestFor(p, f), f.clock);
    ReservedLedger(p, books, f);
    GrantFunds(p, Reserved(p, books, f).ledger, PreparedWith(f, nonce), OperationOf(p, PreparedWith(f, 0)).value, QuoteFor(p, f),
               f.prices, TxFor(p, f, nonce, hash));
  }

  lemma Reserves(p: Params, s: State, f: Fresh, nonce: Uint64, hash: Hash)
    requires Fundable(p, s.books.ledger, f)
    ensures Funds(p, s, Reserved(p, s.books, f), f, nonce, hash)
  {
    Asks(p, s, f, nonce);
    Gets(p, s.books, f, nonce, hash);
  }

  lemma SignTaken(p: Params, s: State, f: Fresh, nonce: Uint64, hash: Hash)
    requires Storable(p, s.disk, f) && Priced(p, f) && hash != 0
    ensures Save(p, AfterPreparing(s, f, nonce), SignedWith(p, f, nonce, hash), Written(f.incident.id), f.incident.updatedAt) ==
            AfterPreparing(s, f, nonce).(disk := s.disk.(incidents := s.disk.incidents[f.incident.id := SignedWith(p, f, nonce, hash)]),
                                         phase := Written(f.incident.id))
  {
    SignedIsValid(p, s.disk, f, nonce, hash);
    Taken(p, AfterPreparing(s, f, nonce), PreparedWith(f, nonce), SignedWith(p, f, nonce, hash), Written(f.incident.id), f.incident.updatedAt);
    var m := AfterPreparing(s, f, nonce).disk.incidents;
    assert m[f.incident.id := SignedWith(p, f, nonce, hash)] == s.disk.incidents[f.incident.id := SignedWith(p, f, nonce, hash)];
  }

  lemma Signs(p: Params, s: State, books: R.Run, f: Fresh, nonce: Uint64, hash: Hash)
    requires Storable(p, s.disk, f) && Priced(p, f) && NewHash(s, hash)
    requires Funded(p, books.ledger, PreparedWith(f, nonce), f.prices, TxFor(p, f, nonce, hash))
    ensures DoSign(p, AfterChecking(s, f, nonce).(books := books), f.prices, TxFor(p, f, nonce, hash), f.incident.updatedAt) ==
            AfterSigning(p, s, books, f, nonce, hash)
  {
    SignTaken(p, s.(books := books), f, nonce, hash);
  }

  lemma OneMore(p: Params, s: State, events: seq<Event>, event: Event, here: State, there: State)
    requires Onward(p, s, events) == here && Next(p, here, event) == there
    ensures Onward(p, s, events + [event]) == there
  {
    assert (events + [event])[..|events + [event]| - 1] == events;
  }

  lemma OneMoreBoth(p: Params, a: State, x: seq<Event>, b: State, y: seq<Event>, last: Event)
    requires Onward(p, a, x) == Onward(p, b, y)
    ensures Onward(p, a, x + [last]) == Onward(p, b, y + [last])
  {
    var here := Onward(p, a, x);
    OneMore(p, a, x, last, here, Next(p, here, last));
    OneMore(p, b, y, last, here, Next(p, here, last));
  }

  lemma {:induction false} Join(p: Params, s: State, events: seq<Event>, mid: State, more: seq<Event>)
    requires mid == Onward(p, s, events)
    ensures Onward(p, mid, more) == Onward(p, s, events + more)
    decreases |more|
  {
    if more == [] {
      assert events + more == events;
    } else {
      var before, last := more[..|more| - 1], more[|more| - 1];
      Join(p, s, events, mid, before);
      OneMoreBoth(p, mid, before, s, events + before, last);
      assert more == before + [last] && events + more == events + before + [last];
    }
  }

  // Two parts of a run, one after the other.
  lemma Chained(p: Params, s: State, events: seq<Event>, here: State, more: seq<Event>, there: State)
    requires Onward(p, s, events) == here && Onward(p, here, more) == there
    ensures Onward(p, s, events + more) == there
  {
    Join(p, s, events, here, more);
  }

  lemma Alone(p: Params, s: State, event: Event, there: State)
    requires Next(p, s, event) == there
    ensures Onward(p, s, [event]) == there
  {
    OneMore(p, s, [], event, s, there);
    assert [] + [event] == [event];
  }

  lemma PutStep(p: Params, s: State, f: Fresh)
    requires s.running && s.phase == Idle && Storable(p, s.disk, f)
    ensures Onward(p, s, [Put(f.incident)]) == AfterPut(s, f)
  {
    Puts(p, s, f);
    Alone(p, s, Put(f.incident), AfterPut(s, f));
  }

  lemma PrepareStep(p: Params, s: State, f: Fresh, nonce: Uint64)
    requires AtRest(s, nonce) && Storable(p, s.disk, f)
    ensures Onward(p, AfterPut(s, f), [Prepare(f.incident.id, f.block, nonce, 0, f.incident.updatedAt)]) == AfterPreparing(s, f, nonce)
  {
    PrepareGuards(p, s, f, nonce);
    PrepareTaken(p, s, f, nonce);
    Alone(p, AfterPut(s, f), Prepare(f.incident.id, f.block, nonce, 0, f.incident.updatedAt), AfterPreparing(s, f, nonce));
  }

  function AfterChecking(s: State, f: Fresh, nonce: Uint64): State { AfterPreparing(s, f, nonce).(phase := Ready(f.incident.id)) }

  lemma CheckStep(p: Params, s: State, f: Fresh, nonce: Uint64)
    requires nonce < MAX_UINT64
    ensures Onward(p, AfterPreparing(s, f, nonce), [CheckNonce(nonce)]) == AfterChecking(s, f, nonce)
  {
    Checks(s, f, nonce);
    Alone(p, AfterPreparing(s, f, nonce), CheckNonce(nonce), AfterChecking(s, f, nonce));
  }

  lemma FundIs(p: Params, s: State, f: Fresh, next: State)
    requires DoFund(p, s, f.prices, f.balance, UNSET, f.clock) == next
    ensures Next(p, s, Fund(f.prices, f.balance, UNSET, f.clock)) == next
  {
  }

  lemma FundStep(p: Params, s: State, books: R.Run, f: Fresh, nonce: Uint64)
    requires DoFund(p, AfterChecking(s, f, nonce), f.prices, f.balance, UNSET, f.clock) == AfterChecking(s, f, nonce).(books := books)
    ensures Onward(p, AfterChecking(s, f, nonce), [Fund(f.prices, f.balance, UNSET, f.clock)]) == AfterChecking(s, f, nonce).(books := books)
  {
    FundIs(p, AfterChecking(s, f, nonce), f, AfterChecking(s, f, nonce).(books := books));
    Alone(p, AfterChecking(s, f, nonce), Fund(f.prices, f.balance, UNSET, f.clock), AfterChecking(s, f, nonce).(books := books));
  }

  lemma SignStep(p: Params, s: State, books: R.Run, f: Fresh, nonce: Uint64, hash: Hash)
    requires Storable(p, s.disk, f) && Priced(p, f) && NewHash(s, hash)
    requires Funded(p, books.ledger, PreparedWith(f, nonce), f.prices, TxFor(p, f, nonce, hash))
    ensures Onward(p, AfterChecking(s, f, nonce).(books := books), [Sign(f.prices, TxFor(p, f, nonce, hash), f.incident.updatedAt)]) ==
            AfterSigning(p, s, books, f, nonce, hash)
  {
    Signs(p, s, books, f, nonce, hash);
    Alone(p, AfterChecking(s, f, nonce).(books := books), Sign(f.prices, TxFor(p, f, nonce, hash), f.incident.updatedAt),
          AfterSigning(p, s, books, f, nonce, hash));
  }

  // The ledger grants what is asked for, and that funds the signature.
  ghost predicate Funds(p: Params, s: State, books: R.Run, f: Fresh, nonce: Uint64, hash: Hash)
    requires Priced(p, f)
  {
    && DoFund(p, AfterChecking(s, f, nonce), f.prices, f.balance, UNSET, f.clock) == AfterChecking(s, f, nonce).(books := books)
    && Funded(p, books.ledger, PreparedWith(f, nonce), f.prices, TxFor(p, f, nonce, hash))
  }

  lemma Prepares(p: Params, s: State, f: Fresh, nonce: Uint64)
    requires AtRest(s, nonce) && Storable(p, s.disk, f)
    ensures Onward(p, s, [Put(f.incident)] + [Prepare(f.incident.id, f.block, nonce, 0, f.incident.updatedAt)]) == AfterPreparing(s, f, nonce)
  {
    PutStep(p, s, f);
    PrepareStep(p, s, f, nonce);
    Chained(p, s, [Put(f.incident)], AfterPut(s, f), [Prepare(f.incident.id, f.block, nonce, 0, f.incident.updatedAt)], AfterPreparing(s, f, nonce));
  }

  lemma Readies(p: Params, s: State, f: Fresh, nonce: Uint64)
    requires AtRest(s, nonce) && Storable(p, s.disk, f)
    ensures Onward(p, s, [Put(f.incident)] + [Prepare(f.incident.id, f.block, nonce, 0, f.incident.updatedAt)] + [CheckNonce(nonce)]) ==
            AfterChecking(s, f, nonce)
  {
    Prepares(p, s, f, nonce);
    CheckStep(p, s, f, nonce);
    Chained(p, s, [Put(f.incident)] + [Prepare(f.incident.id, f.block, nonce, 0, f.incident.updatedAt)], AfterPreparing(s, f, nonce),
            [CheckNonce(nonce)], AfterChecking(s, f, nonce));
  }

  lemma TwoMore(p: Params, s: State, events: seq<Event>, here: State, a: Event, mid: State, b: Event, there: State)
    requires Onward(p, s, events) == here && Onward(p, here, [a]) == mid && Onward(p, mid, [b]) == there
    ensures Onward(p, s, events + [a] + [b]) == there
  {
    Chained(p, s, events, here, [a], mid);
    Chained(p, s, events + [a], mid, [b], there);
  }

  // From a state at rest the five steps lead to the signature, with any nonce from the floor on.
  lemma SignsNext(p: Params, s: State, books: R.Run, f: Fresh, nonce: Uint64, hash: Hash)
    requires AtRest(s, nonce) && Storable(p, s.disk, f) && NewHash(s, hash)
    requires Priced(p, f) && Funds(p, s, books, f, nonce, hash)
    ensures Onward(p, s, SignEvents(p, f, nonce, hash)) == AfterSigning(p, s, books, f, nonce, hash)
  {
    Readies(p, s, f, nonce);
    FundStep(p, s, books, f, nonce);
    SignStep(p, s, books, f, nonce, hash);
    TwoMore(p, s, [Put(f.incident)] + [Prepare(f.incident.id, f.block, nonce, 0, f.incident.updatedAt)] + [CheckNonce(nonce)],
            AfterChecking(s, f, nonce), Fund(f.prices, f.balance, UNSET, f.clock), AfterChecking(s, f, nonce).(books := books),
            Sign(f.prices, TxFor(p, f, nonce, hash), f.incident.updatedAt), AfterSigning(p, s, books, f, nonce, hash));
  }

  // ---------- Exactly when a nonce can repeat ----------

  ghost predicate Repeats(history: seq<Signature>) {
    exists j, k | 0 <= j < k < |history| :: history[j].transaction.nonce == history[k].transaction.nonce
  }

  // Some continuation in which no later refresh clears the block too early signs a nonce again.
  ghost predicate CanRepeat(p: Params, s: State) {
    exists more :: CalmFrom(p, s, more) && Repeats(Onward(p, s, more).history)
  }

  lemma {:induction false} FreshHash(history: seq<Signature>) returns (hash: Hash)
    ensures hash != 0 && forall k | 0 <= k < |history| :: history[k].transaction.hash < hash
  {
    if history == [] {
      return 1;
    }
    var rest := FreshHash(history[..|history| - 1]);
    var last := history[|history| - 1].transaction.hash;
    return rest + last + 1;
  }

  lemma RepeatsAt(history: seq<Signature>, j: nat, k: nat)
    requires j < k < |history| && history[j].transaction.nonce == history[k].transaction.nonce
    ensures Repeats(history)
  {
  }

  lemma NoRefreshIsCalm(p: Params, s: State, events: seq<Event>)
    requires forall k | 0 <= k < |events| :: !events[k].Refresh?
    ensures CalmFrom(p, s, events)
  {
  }

  // The nonce of a stored signed incident is in the history.
  lemma StoredIsRecorded(p: Params, s: State, id: IncidentID) returns (k: nat)
    requires SigningTheorems.Inv(p, s) && Loose(s.disk, id)
    ensures k < |s.history| && s.history[k].transaction.nonce == s.disk.incidents[id].sponsorNonce < MAX_UINT64
  {
    k :| 0 <= k < |s.history| && Describes(s.history[k], s.disk.incidents[id]);
  }

  lemma LeaveStep(p: Params, s: State)
    requires Outside(s.phase)
    ensures Onward(p, s, [Leave]) == s.(phase := Idle)
  {
    Alone(p, s, Leave, s.(phase := Idle));
  }

  // One more signature, from outside an operation.
  lemma SignsOneMore(p: Params, s: State, books: R.Run, f: Fresh, nonce: Uint64, hash: Hash)
    requires Outside(s.phase) && Storable(p, s.disk, f) && Priced(p, f) && NewHash(s, hash) && AtRest(s.(phase := Idle), nonce)
    requires Funds(p, s.(phase := Idle), books, f, nonce, hash)
    ensures Onward(p, s, [Leave] + SignEvents(p, f, nonce, hash)) == AfterSigning(p, s.(phase := Idle), books, f, nonce, hash)
  {
    LeaveStep(p, s);
    SignsNext(p, s.(phase := Idle), books, f, nonce, hash);
    Chained(p, s, [Leave], s.(phase := Idle), SignEvents(p, f, nonce, hash), AfterSigning(p, s.(phase := Idle), books, f, nonce, hash));
  }

  lemma LeadsToRepeat(p: Params, s: State, more: seq<Event>, there: State, j: nat, k: nat)
    requires Onward(p, s, more) == there && forall i | 0 <= i < |more| :: !more[i].Refresh?
    requires j < k < |there.history| && there.history[j].transaction.nonce == there.history[k].transaction.nonce
    ensures CanRepeat(p, s)
  {
    NoRefreshIsCalm(p, s, more);
    RepeatsAt(there.history, j, k);
  }

  lemma SignedTwice(p: Params, s: State, books: R.Run, f: Fresh, j: nat, hash: Hash, there: State)
    requires Priced(p, f) && j < |s.history| && there == AfterSigning(p, s, books, f, s.history[j].transaction.nonce, hash)
    ensures |there.history| == |s.history| + 1 && there.history[j] == s.history[j]
    ensures there.history[|s.history|].transaction.nonce == s.history[j].transaction.nonce
  {
  }

  lemma NoneRefreshes(p: Params, f: Fresh, nonce: Uint64, hash: Hash)
    requires Priced(p, f)
    ensures forall i | 0 <= i < |[Leave] + SignEvents(p, f, nonce, hash)| :: !([Leave] + SignEvents(p, f, nonce, hash))[i].Refresh?
  {
  }

  lemma RepeatsAfter(p: Params, s: State, books: R.Run, f: Fresh, j: nat, hash: Hash)
    requires Outside(s.phase) && Storable(p, s.disk, f) && Priced(p, f) && NewHash(s, hash)
    requires j < |s.history| && AtRest(s.(phase := Idle), s.history[j].transaction.nonce)
    requires Funds(p, s.(phase := Idle), books, f, s.history[j].transaction.nonce, hash)
    ensures CanRepeat(p, s)
  {
    var nonce := s.history[j].transaction.nonce;
    var there := AfterSigning(p, s.(phase := Idle), books, f, nonce, hash);
    SignsOneMore(p, s, books, f, nonce, hash);
    SignedTwice(p, s.(phase := Idle), books, f, j, hash, there);
    NoneRefreshes(p, f, nonce, hash);
    LeadsToRepeat(p, s, [Leave] + SignEvents(p, f, nonce, hash), there, j, |s.history|);
  }

  lemma RiskyRepeats(p: Params, s: State, now: Time, f: Fresh)
    requires SigningTheorems.Inv(p, s) && Risky(s, now) && Startable(p, s, f)
    ensures CanRepeat(p, DoRefresh(s, now))
  {
    var id :| Reusable(s.disk, s.floor, id);
    var j := StoredIsRecorded(p, s, id);
    var hash := FreshHash(s.history);
    Reserves(p, DoRefresh(s, now).(phase := Idle), f, s.history[j].transaction.nonce, hash);
    RepeatsAfter(p, DoRefresh(s, now), Reserved(p, s.books, f), f, j, hash);
  }

  lemma SafeNeverRepeats(p: Params, s: State, now: Time)
    requires SigningTheorems.Inv(p, s) && !Risky(s, now)
    ensures !CanRepeat(p, DoRefresh(s, now))
  {
    RefreshKeeps(p, s, now);
    forall more | CalmFrom(p, DoRefresh(s, now), more) ensures !Repeats(Onward(p, DoRefresh(s, now), more).history) {
      CalmKeeps(p, DoRefresh(s, now), more);
    }
  }

  lemma RefreshIs(p: Params, s: State, now: Time)
    ensures Next(p, s, Refresh(now)) == DoRefresh(s, now)
  {
  }

  lemma RepeatIffRisky(p: Params, s: State, now: Time, f: Fresh, refreshed: State)
    requires SigningTheorems.Inv(p, s) && Startable(p, s, f) && refreshed == DoRefresh(s, now)
    ensures CanRepeat(p, refreshed) <==> Risky(s, now)
  {
    if Risky(s, now) {
      RiskyRepeats(p, s, now, f);
    } else {
      SafeNeverRepeats(p, s, now);
    }
  }

  // After any run without a risky refresh, the next refresh makes it possible to sign a nonce again
  // if and only if it is risky, provided there is something left to sign.
  lemma RepeatPossibleIff(p: Params, latest: bool, events: seq<Event>, now: Time, f: Fresh)
    requires CalmRun(p, latest, events) && Startable(p, After(p, latest, events), f)
    ensures var s := After(p, latest, events);
            CanRepeat(p, Next(p, s, Refresh(now))) <==> Risky(s, now)
  {
    RunKeeps(p, latest, events);
    RefreshIs(p, After(p, latest, events), now);
    RepeatIffRisky(p, After(p, latest, events), now, f, Next(p, After(p, latest, events), Refresh(now)));
  }
}
