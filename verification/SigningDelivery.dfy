/** From a state at rest, whatever the ledger funds is signed, sent and brought to an end. */
module SigningDelivery {
  import opened Prelude
  import opened RescueState
  import opened RescueStore
  import opened SigningModel
  import opened SigningRepeat
  import B = BudgetModel
  import L = BudgetSteps
  import R = BudgetRuns
  import A = BudgetAnswers
  import S = SigningSends
  import F = Fees
  import U = RescueUpdates

  // ---------- What the ledger grants can be sent ----------

  lemma GrantNew(c: B.Config, s: B.Ledger, request: B.Request, clock: Time)
    requires request.attempt !in s.attempts && L.Reserve(c, s, request, clock).result.Ok?
    ensures B.ValidRequest(c, request) && L.ClockOk(request.observedAt, clock)
    ensures var now := L.Clamp(s.lastSeen, clock);
            L.Acceptable(c, s, now) && L.Reserve(c, s, request, clock) == L.ReserveNew(c, s, request, now)
  {
  }

  lemma NewKeepsLatch(c: B.Config, s: B.Ledger, request: B.Request, now: Time)
    requires B.ValidRequest(c, request) && L.ReserveNew(c, s, request, now).result.Ok?
    ensures !B.Overrun(L.ReserveNew(c, s, request, now).after.reservations, B.Global)
  {
    A.ChecksMean(c, s.reservations, request, now);
    assert !B.Overrun(s.reservations, B.Global);
    var m := L.ReserveNew(c, s, request, now).after.reservations;
    forall id | id in m && m[id].Overran() ensures false {
      assert id in s.reservations && s.reservations[id] == m[id];
      assert B.InScope(B.Global, m[id].request.network);
    }
  }

  // The balance that was enough for the reservation is enough to send.
  lemma GrantSendable(c: B.Config, s: B.Ledger, request: B.Request, clock: Time, txHash: Hash)
    requires c.Valid() && request.attempt !in s.attempts && L.Reserve(c, s, request, clock).result.Ok?
    ensures var o, id := L.Reserve(c, s, request, clock), c.idOf(request.attempt);
            && request.attempt in o.after.attempts && o.after.attempts[request.attempt] == id && id in o.after.reservations
            && S.Sendable(c, o.after, o.after.reservations[id], txHash, request.sponsorBalance)
  {
    var o, now := L.Reserve(c, s, request, clock), L.Clamp(s.lastSeen, clock);
    GrantNew(c, s, request, clock);
    A.GrantIs(c, s, request, clock, o);
    A.GrantKeepsReserve(c, s, request, clock);
    NewKeepsLatch(c, s, request, now);
  }

  // ---------- The signed record ----------

  lemma QuotedAs(p: Params, op: F.Operation, prices: Prices)
    requires QuoteOf(p, op, prices).Some?
    ensures QuoteOf(p, op, prices).value.gasLimit == if op.ClaimCall? then op.gasLimit else p.fees.GasLimit(F.AssetOf(op))
  {
  }

  lemma SignedChecks(p: Params, f: Fresh, nonce: Uint64, hash: Hash)
    requires Priced(p, f) && QuoteFor(p, f).maxFeePerGas > 0
    ensures PayloadChecks(p, SignedWith(p, f, nonce, hash))
  {
    SameOperationOf(p, f, nonce);
    QuotedAs(p, OperationOf(p, PreparedWith(f, 0)).value, f.prices);
    assert OperationOf(p, SignedWith(p, f, nonce, hash)) == OperationOf(p, PreparedWith(f, nonce));
  }

  // ---------- Signing and sending ----------

  // The incident is new to store and ledger, and the ledger would grant it.
  ghost predicate Affordable(p: Params, s: State, f: Fresh) {
    && Storable(p, s.disk, f) && Priced(p, f) && B.Attempt(f.incident.id, 1) !in s.books.ledger.attempts
    && L.Reserve(p.ledger, s.books.ledger, RequestFor(p, f), f.clock).result.Ok?
  }

  lemma AffordableFunds(p: Params, s: State, f: Fresh)
    requires Affordable(p, s, f)
    ensures Fundable(p, s.books.ledger, f) && QuoteFor(p, f).maxFeePerGas > 0
  {
    var request := RequestFor(p, f);
    GrantNew(p.ledger, s.books.ledger, request, f.clock);
    A.GrantIs(p.ledger, s.books.ledger, request, f.clock, L.Reserve(p.ledger, s.books.ledger, request, f.clock));
  }

  function Due(p: Params, s: State, books: R.Run, f: Fresh, nonce: Uint64, hash: Hash): State
    requires Priced(p, f) && nonce < MAX_UINT64
  {
    RaiseBoth(AfterSigning(p, s, books, f, nonce, hash), nonce, Sending(f.incident.id))
  }

  lemma FloorStep(p: Params, s: State, books: R.Run, f: Fresh, nonce: Uint64, hash: Hash)
    requires Priced(p, f) && nonce < MAX_UINT64
    ensures Onward(p, AfterSigning(p, s, books, f, nonce, hash), [WriteFloor(true)]) == Due(p, s, books, f, nonce, hash)
  {
    Alone(p, AfterSigning(p, s, books, f, nonce, hash), WriteFloor(true), Due(p, s, books, f, nonce, hash));
  }

  // The signature, and then the floor write.
  lemma SignsAndRaises(p: Params, s: State, f: Fresh, nonce: Uint64, hash: Hash)
    requires AtRest(s, nonce) && Affordable(p, s, f) && NewHash(s, hash)
    ensures Onward(p, s, SignEvents(p, f, nonce, hash) + [WriteFloor(true)]) == Due(p, s, Reserved(p, s.books, f), f, nonce, hash)
  {
    var books := Reserved(p, s.books, f);
    AffordableFunds(p, s, f);
    Reserves(p, s, f, nonce, hash);
    SignsNext(p, s, books, f, nonce, hash);
    FloorStep(p, s, books, f, nonce, hash);
    Chained(p, s, SignEvents(p, f, nonce, hash), AfterSigning(p, s, books, f, nonce, hash), [WriteFloor(true)], Due(p, s, books, f, nonce, hash));
  }

  lemma DueIsReady(p: Params, s: State, books: R.Run, f: Fresh, nonce: Uint64, hash: Hash)
    requires Priced(p, f) && nonce < MAX_UINT64 && QuoteFor(p, f).maxFeePerGas > 0 && f.incident.attempts == 0
    ensures var due := Due(p, s, books, f, nonce, hash);
            && S.ReadyToSend(p, due) && due.phase.id == f.incident.id && due.books == books
            && due.disk.incidents[f.incident.id] == SignedWith(p, f, nonce, hash) && due.sent == s.sent && due.sends == s.sends
            && AttemptOf(SignedWith(p, f, nonce, hash)) == B.Attempt(f.incident.id, 1)
  {
    SignedChecks(p, f, nonce, hash);
  }

  lemma DueLeaves(p: Params, s: State, f: Fresh, i: Incident)
    requires p.ledger.Valid() && Affordable(p, s, f) && AttemptOf(i) == B.Attempt(f.incident.id, 1)
    ensures S.Leaves(p, Reserved(p, s.books, f).ledger, i, f.balance)
    ensures AttemptOf(i) in Reserved(p, s.books, f).ledger.attempts
  {
    ReservedLedger(p, s.books, f);
    AttemptIs(p, s.disk, f);
    GrantSendable(p.ledger, s.books.ledger, RequestFor(p, f), f.clock, i.txHash);
  }

  lemma AttemptIs(p: Params, disk: Store, f: Fresh)
    requires Storable(p, disk, f) && Priced(p, f)
    ensures f.incident.attempts == 0 && RequestFor(p, f).attempt == B.Attempt(f.incident.id, 1) && RequestFor(p, f).sponsorBalance == f.balance
  {
  }

  // In every run with a bounded policy: from a state at rest, a new incident the ledger grants is
  // signed with any nonce from the floor on, and handed to the network with the balance it was granted on.
  lemma GrantedIsSent(p: Params, latest: bool, events: seq<Event>, f: Fresh, nonce: Uint64, hash: Hash)
    requires p.ledger.Valid() && p.ledger.policy.Bounded()
    requires var s := After(p, latest, events); AtRest(s, nonce) && Affordable(p, s, f) && NewHash(s, hash)
    ensures var s := After(p, latest, events);
            var s' := After(p, latest, events + (SignEvents(p, f, nonce, hash) + [WriteFloor(true)]) + [Send(f.balance, UNSET, f.clock)]);
            s'.sends == s.sends + 1 && s'.sent == s.sent + {Signature(B.Attempt(f.incident.id, 1), TxFor(p, f, nonce, hash))}
  {
    var s := After(p, latest, events);
    var books := Reserved(p, s.books, f);
    var due := Due(p, s, books, f, nonce, hash);
    var i := SignedWith(p, f, nonce, hash);
    var more := SignEvents(p, f, nonce, hash) + [WriteFloor(true)];
    SignsAndRaises(p, s, f, nonce, hash);
    Chained(p, Start(latest), events, s, more, due);
    AffordableFunds(p, s, f);
    AttemptIs(p, s.disk, f);
    DueIsReady(p, s, books, f, nonce, hash);
    DueLeaves(p, s, f, i);
    S.SendAnswers(p, latest, events + more, f.balance, UNSET, f.clock);
    OneMore(p, Start(latest), events + more, Send(f.balance, UNSET, f.clock), due, Next(p, due, Send(f.balance, UNSET, f.clock)));
  }

  // ---------- To the end ----------

  function WithRecord(s: State, next: Incident, now: Time): State {
    s.(disk := s.disk.(incidents := s.disk.incidents[next.id := next]), phase := Idle, clock := now)
  }

  lemma SavedAs(p: Params, s: State, i: Incident, next: Incident, now: Time)
    requires i.id in s.disk.incidents && s.disk.incidents[i.id] == i && next.id == i.id && U.Takes(p.store, s.disk, next)
    ensures Save(p, s, next, Idle, now) == WithRecord(s, next, now)
  {
    if next == i {
      assert s.disk.incidents[i.id := next] == s.disk.incidents;
    }
  }

  // The incident waits in Sending for the answer to a send that went out.
  ghost predicate SentSigned(p: Params, s: State, i: Incident) {
    && U.Stored(p.store, s.disk, i) && i.status == Signed && i.signed.Some? && i.signed.value.hash == i.txHash
    && s.phase == Sending(i.id) && WasSent(s, i)
  }

  lemma BroadcastStep(p: Params, s: State, i: Incident, now: Time)
    requires SentSigned(p, s, i) && U.BeforeDeadline(i, now)
    ensures Onward(p, s, [MarkBroadcast(i.id, now)]) == WithRecord(s, BroadcastRecord(i, now), now)
    ensures RescueStore.Inv(p.store, WithRecord(s, BroadcastRecord(i, now), now).disk)
  {
    U.BroadcastTaken(p.store, s.disk, i, now);
    SavedAs(p, s, i, BroadcastRecord(i, now), now);
    RescueStore.StepInv(p.store, s.disk, DoUpdate(BroadcastRecord(i, now)));
    Alone(p, s, MarkBroadcast(i.id, now), WithRecord(s, BroadcastRecord(i, now), now));
  }

  function WithMined(s: State, hash: Hash): State { s.(mined := s.mined + {hash}) }

  lemma MineStep(p: Params, s: State, i: Incident)
    requires i.signed.Some? && i.signed.value.hash == i.txHash && WasSent(s, i)
    ensures Onward(p, s, [Mine(i.txHash)]) == WithMined(s, i.txHash)
  {
    assert Signature(AttemptOf(i), i.signed.value) in s.sent;
    Alone(p, s, Mine(i.txHash), WithMined(s, i.txHash));
  }

  lemma FinishStep(p: Params, s: State, i: Incident, status: Status, code: string, now: Time)
    requires U.Stored(p.store, s.disk, i) && i.status == Broadcast && s.phase == Idle && i.txHash in s.mined
    requires status.Terminal() && status != Exhausted && U.Fitting(i, status) && U.Short(code) && i.updatedAt <= now
    ensures Onward(p, s, [Finish(i.id, status, code, now)]) == WithRecord(s, TerminalRecord(i, status, code, now), now)
  {
    U.OutcomeTaken(p.store, s.disk, i, status, code, now);
    SavedAs(p, s, i, TerminalRecord(i, status, code, now), now);
    Alone(p, s, Finish(i.id, status, code, now), WithRecord(s, TerminalRecord(i, status, code, now), now));
  }

  // What was sent and is confirmed before the deadline can be mined and ends with the outcome its
  // receipt shows, whenever that is read.
  lemma SentIsFinished(p: Params, s: State, i: Incident, now: Time, status: Status, code: string, later: Time)
    requires SentSigned(p, s, i) && U.BeforeDeadline(i, now) && now <= later
    requires status.Terminal() && status != Exhausted && U.Fitting(i, status) && U.Short(code)
    ensures var s' := Onward(p, s, [MarkBroadcast(i.id, now)] + [Mine(i.txHash)] + [Finish(i.id, status, code, later)]);
            && s'.phase == Idle && i.txHash in s'.mined && i.id in s'.disk.incidents
            && s'.disk.incidents[i.id] == TerminalRecord(BroadcastRecord(i, now), status, code, later)
  {
    var b := BroadcastRecord(i, now);
    var told := WithRecord(s, b, now);
    var mined := WithMined(told, i.txHash);
    BroadcastStep(p, s, i, now);
    MineStep(p, told, b);
    FinishStep(p, mined, b, status, code, later);
    TwoMore(p, s, [MarkBroadcast(i.id, now)], told, Mine(i.txHash), mined, Finish(i.id, status, code, later),
            WithRecord(mined, TerminalRecord(b, status, code, later), later));
  }
}
