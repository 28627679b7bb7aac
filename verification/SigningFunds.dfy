/** Whatever is sent costs at most what is reserved for it, so that limits on reservations limit costs. */
module SigningFunds {
  import opened Prelude
  import opened BudgetModel
  import opened BudgetSteps
  import opened BudgetRuns
  import opened BudgetTheorems
  import opened RescueState
  import opened SigningExposure
  import RescueStore
  import T = SigningTheorems
  import M = SigningModel
  import F = Fees

  // The most a transaction can cost: all its gas at its fee cap, the overhead and its value.
  function CostOf(p: M.Params, tx: Transaction): nat { tx.gas * tx.feeCap + p.fees.overhead + tx.value }

  predicate Covers(p: M.Params, r: Reservation, tx: Transaction) {
    r.request.network == p.store.network && CostOf(p, tx) <= r.maximum
  }

  // The reservation of the attempt, if there is one, covers the transaction.
  predicate CoveredBy(p: M.Params, ledger: Ledger, i: Incident) {
    i.signed.Some? && M.AttemptOf(i) in ledger.attempts ==>
      && ledger.attempts[M.AttemptOf(i)] in ledger.reservations
      && Covers(p, ledger.reservations[ledger.attempts[M.AttemptOf(i)]], i.signed.value)
  }

  // The cap the operation had when it was signed, and has when its reservation is restored.
  predicate Capped(p: M.Params, i: Incident) {
    && i.signed.Some? && M.OperationOf(p, i).Some?
    && 0 < F.CapOf(p.fees, M.OperationOf(p, i).value) && CostOf(p, i.signed.value) <= F.CapOf(p.fees, M.OperationOf(p, i).value)
  }

  predicate Backed(p: M.Params, ledger: Ledger, history: seq<M.Signature>, i: Incident) {
    Capped(p, i) && M.Signature(M.AttemptOf(i), i.signed.value) in history && CoveredBy(p, ledger, i)
  }

  ghost predicate AllBacked(p: M.Params, disk: RescueStore.Store, ledger: Ledger, history: seq<M.Signature>) {
    forall id {:trigger disk.incidents[id]} | id in disk.incidents && disk.incidents[id].status.InFlight() ::
      Backed(p, ledger, history, disk.incidents[id])
  }

  ghost predicate SentCovered(p: M.Params, ledger: Ledger, history: seq<M.Signature>, sent: set<M.Signature>) {
    forall g | g in sent ::
      g in history && ReservationOf(p, g) in ledger.reservations && Covers(p, ledger.reservations[ReservationOf(p, g)], g.transaction)
  }

  ghost predicate Solvent(p: M.Params, s: M.State) {
    && RescueStore.Inv(p.store, s.disk)
    && AllExposed(p, s.books, s.sent)
    && AllBacked(p, s.disk, s.books.ledger, s.history)
    && SentCovered(p, s.books.ledger, s.history, s.sent)
    && T.NoCollision(s.history)
  }

  // ---------- Ledger steps ----------

  lemma ExposeAdds(c: Config, s: Ledger, id: ReservationID, txHash: Hash)
    ensures MarkExposed(c, s, id, txHash).after.attempts == s.attempts
  {
    ExposeStores(c, s, id, txHash);
  }

  lemma StoredAdds(c: Config, s: Ledger, s': Ledger, r: Reservation, updated: Result<Reservation, Error>, now: Time)
    requires s' == Stored(c, s, r, updated, now).after
    ensures s'.attempts == s.attempts
  {
  }

  lemma CommitAdds(c: Config, s: Ledger, charge: Charge, clock: Time)
    ensures CommitFinalized(c, s, charge, clock).after.attempts == s.attempts
  {
    var s' := CommitFinalized(c, s, charge, clock).after;
    CommitStores(c, s, charge, clock);
    if s' != s {
      var r, now := s.reservations[charge.reservation], CommitTime(s, charge, clock);
      StoredAdds(c, s, s', r, Commit(c, r, charge, now), now);
    }
  }

  lemma ReleaseAdds(c: Config, s: Ledger, id: ReservationID)
    ensures ReleaseProvenUnused(c, s, id).after.attempts == s.attempts
  {
    ReleaseStores(c, s, id);
  }

  lemma CheckAdds(c: Config, s: Ledger, id: ReservationID, balance: Wei)
    ensures CheckSponsorCapacity(c, s, id, balance).after.attempts == s.attempts
  {
    CheckStores(c, s, id, balance);
  }

  lemma TransitionAdds(c: Config, s: Ledger, command: Command)
    requires !command.DoReserve?
    ensures Step(c, s, command).after.attempts == s.attempts
  {
    match command
    case DoExpose(id, txHash) => ExposeAdds(c, s, id, txHash);
    case DoCommit(charge, clock) => CommitAdds(c, s, charge, clock);
    case DoRelease(id) => ReleaseAdds(c, s, id);
    case DoCheck(id, balance) => CheckAdds(c, s, id, balance);
  }

  lemma ExistingAdds(c: Config, s: Ledger, request: Request, now: Time)
    requires s.lastSeen <= now && ValidRequest(c, request)
    requires request.attempt in s.attempts && s.attempts[request.attempt] in s.reservations
    ensures ReserveExisting(c, s, request, now).after.attempts == s.attempts
  {
    ReserveExistingStores(c, s, request, now);
  }

  lemma RoomAdds(c: Config, s: Ledger, room: Ledger, a: Attempt)
    requires IsRoom(c, s, room) && a in room.attempts
    ensures a in s.attempts && room.attempts[a] == s.attempts[a]
  {
  }

  lemma NewAdds(c: Config, s: Ledger, request: Request, now: Time, a: Attempt)
    requires ValidRequest(c, request) && a in ReserveNew(c, s, request, now).after.attempts
    ensures a in s.attempts || a == request.attempt
  {
    var room := ReserveNewStores(c, s, request, now);
    if ReserveNew(c, s, request, now).after != s && a != request.attempt {
      RoomAdds(c, s, room, a);
    }
  }

  // Only a reservation adds an attempt, its own.
  lemma NoNewAttempts(c: Config, s: Ledger, command: Command, a: Attempt)
    requires Structured(c, s) && a in Step(c, s, command).after.attempts
    ensures a in s.attempts || (command.DoReserve? && a == command.request.attempt)
  {
    if command.DoReserve? {
      ReserveAdds(c, s, command.request, command.clock, a);
    } else {
      TransitionAdds(c, s, command);
    }
  }

  lemma ReserveAdds(c: Config, s: Ledger, request: Request, clock: Time, a: Attempt)
    requires Indexed(s) && a in Reserve(c, s, request, clock).after.attempts
    ensures a in s.attempts || a == request.attempt
  {
    var now := Clamp(s.lastSeen, clock);
    if Reserve(c, s, request, clock).after != s {
      if request.attempt in s.attempts {
        ExistingAdds(c, s, request, now);
      } else {
        NewAdds(c, s, request, now, a);
      }
    }
  }

  // A reservation that stays under its attempt keeps its network and its maximum.
  ghost predicate SameUnder(s: Ledger, s': Ledger, a: Attempt)
    requires a in s.attempts && s.attempts[a] in s.reservations && a in s'.attempts
  {
    && s'.attempts[a] in s'.reservations
    && s'.reservations[s'.attempts[a]].maximum == s.reservations[s.attempts[a]].maximum
    && s'.reservations[s'.attempts[a]].request.network == s.reservations[s.attempts[a]].request.network
  }

  lemma ReplaceSame(c: Config, s: Ledger, s': Ledger, id: ReservationID, a: Attempt)
    requires Indexed(s) && Replaces(c, s, s', id) && a in s.attempts && a in s'.attempts
    ensures SameUnder(s, s', a)
  {
  }

  lemma InsertSame(c: Config, s: Ledger, s': Ledger, id: ReservationID, room: Ledger, a: Attempt)
    requires Indexed(s) && Inserts(c, s, s', id, room) && a in s.attempts && a in s'.attempts
    ensures SameUnder(s, s', a)
  {
    assert s.reservations[s.attempts[a]].request.attempt == a;
    RoomAdds(c, s, room, a);
    RoomStays(c, s, room, a);
  }

  lemma RoomStays(c: Config, s: Ledger, room: Ledger, a: Attempt)
    requires Indexed(s) && IsRoom(c, s, room) && a in room.attempts && a in s.attempts
    ensures s.attempts[a] in room.reservations && room.reservations[s.attempts[a]] == s.reservations[s.attempts[a]]
  {
    assert s.reservations[s.attempts[a]].request.attempt == a;
  }

  lemma EffectKeepsCover(p: M.Params, c: Config, s: Ledger, s': Ledger, i: Incident)
    requires Indexed(s) && Effect(c, s, s') && CoveredBy(p, s, i)
    requires i.signed.Some? && M.AttemptOf(i) in s'.attempts ==> M.AttemptOf(i) in s.attempts
    ensures CoveredBy(p, s', i)
  {
    var a := M.AttemptOf(i);
    if i.signed.Some? && a in s'.attempts {
      if id :| Replaces(c, s, s', id) {
        ReplaceSame(c, s, s', id, a);
      } else if id, room :| Inserts(c, s, s', id, room) {
        InsertSame(c, s, s', id, room, a);
      }
    }
  }

  lemma LedgerSolvent(p: M.Params, s: M.State, books: Run)
    requires Solvent(p, s) && AllExposed(p, books, s.sent) && Effect(p.ledger, s.books.ledger, books.ledger)
    requires forall id {:trigger s.disk.incidents[id]} | id in s.disk.incidents && s.disk.incidents[id].status.InFlight() ::
               M.AttemptOf(s.disk.incidents[id]) in books.ledger.attempts ==>
                 M.AttemptOf(s.disk.incidents[id]) in s.books.ledger.attempts || CoveredBy(p, books.ledger, s.disk.incidents[id])
    ensures Solvent(p, s.(books := books))
  {
    forall id {:trigger s.disk.incidents[id]} | id in s.disk.incidents && s.disk.incidents[id].status.InFlight()
      ensures Backed(p, books.ledger, s.history, s.disk.incidents[id])
    {
      var i := s.disk.incidents[id];
      if M.AttemptOf(i) in books.ledger.attempts && M.AttemptOf(i) !in s.books.ledger.attempts {
      } else {
        EffectKeepsCover(p, p.ledger, s.books.ledger, books.ledger, i);
      }
    }
    forall g | g in s.sent ensures Covers(p, books.ledger.reservations[ReservationOf(p, g)], g.transaction) {
      EffectKeepsBound(p.ledger, s.books.ledger, books.ledger, ReservationOf(p, g), g.transaction.hash);
    }
  }

  lemma AdvanceSolvent(p: M.Params, s: M.State, command: Command)
    requires p.ledger.Valid() && Solvent(p, s)
    requires command.DoReserve? ==> command.request.attempt.incident !in M.InFlight(s.disk.incidents)
    ensures Solvent(p, s.(books := Advance(p.ledger, s.books, command)))
  {
    var books := Advance(p.ledger, s.books, command);
    AdvanceKeeps(p, s.books, s.sent, command);
    StepEffect(p.ledger, s.books.ledger, command);
    forall id {:trigger s.disk.incidents[id]} | id in s.disk.incidents && s.disk.incidents[id].status.InFlight()
      ensures M.AttemptOf(s.disk.incidents[id]) in books.ledger.attempts ==> M.AttemptOf(s.disk.incidents[id]) in s.books.ledger.attempts
    {
      if M.AttemptOf(s.disk.incidents[id]) in books.ledger.attempts {
        NoNewAttempts(p.ledger, s.books.ledger, command, M.AttemptOf(s.disk.incidents[id]));
      }
    }
    LedgerSolvent(p, s, books);
  }

  // ---------- Incident writes ----------

  // What an incident costs does not change while it is in flight.
  predicate SamePayload(i: Incident, next: Incident) {
    && next.id == i.id && next.attempts == i.attempts && next.signed == i.signed && next.kind == i.kind && next.asset == i.asset
    && next.trusted == i.trusted && next.candidate == i.candidate && next.sourceBefore == i.sourceBefore
  }

  // An incident in flight was in flight before, with the same transaction.
  ghost predicate NoneLaunched(disk: RescueStore.Store, disk': RescueStore.Store) {
    forall id {:trigger disk'.incidents[id]} | id in disk'.incidents && disk'.incidents[id].status.InFlight() ::
      && id in disk.incidents && disk.incidents[id].status.InFlight() && SamePayload(disk.incidents[id], disk'.incidents[id])
  }

  // A step that neither signs, nor sends, nor touches the ledger.
  ghost predicate Still(p: M.Params, s: M.State, s': M.State) {
    && RescueStore.Inv(p.store, s'.disk) && NoneLaunched(s.disk, s'.disk)
    && s'.books == s.books && s'.sent == s.sent && s'.history == s.history
  }

  lemma StillSolvent(p: M.Params, s: M.State, s': M.State)
    requires Solvent(p, s) && Still(p, s, s')
    ensures Solvent(p, s')
  {
    forall id {:trigger s'.disk.incidents[id]} | id in s'.disk.incidents && s'.disk.incidents[id].status.InFlight()
      ensures Backed(p, s'.books.ledger, s'.history, s'.disk.incidents[id])
    {
      SameIsBacked(p, s.books.ledger, s.history, s.disk.incidents[id], s'.disk.incidents[id]);
    }
  }

  lemma SameIsBacked(p: M.Params, ledger: Ledger, history: seq<M.Signature>, i: Incident, next: Incident)
    requires Backed(p, ledger, history, i) && SamePayload(i, next)
    ensures Backed(p, ledger, history, next)
  {
  }

  lemma UpdateKeepsPayload(ids: Ids, i: Incident, next: Incident)
    requires Valid(ids, next) && ValidTransition(i, next) && next.status.InFlight() && next.status != Signed
    ensures i.status.InFlight() && SamePayload(i, next)
  {
  }

  lemma SaveStill(p: M.Params, s: M.State, next: Incident, phase: M.Phase, now: Time)
    requires RescueStore.Inv(p.store, s.disk) && (next.status != Signed || next.signed.None?)
    ensures Still(p, s, M.Save(p, s, next, phase, now))
  {
    var s' := M.Save(p, s, next, phase, now);
    T.SaveCases(p, s, next, phase, now);
    if s'.disk != s.disk {
      SaveLaunchesNone(p, s, s', next);
    }
  }

  lemma SaveLaunchesNone(p: M.Params, s: M.State, s': M.State, next: Incident)
    requires T.Replaced(s.disk, s'.disk, next) && ValidTransition(s.disk.incidents[next.id], next) && Valid(p.store.ids, next)
    requires next.status != Signed || next.signed.None?
    ensures NoneLaunched(s.disk, s'.disk)
  {
    if next.status.InFlight() {
      HashMeansSigned(p.store.ids, next);
      UpdateKeepsPayload(p.store.ids, s.disk.incidents[next.id], next);
    }
  }

  // ---------- Signing ----------

  lemma QuoteCovers(p: M.Params, op: F.Operation, prices: M.Prices)
    requires M.QuoteOf(p, op, prices).Some?
    ensures var q := M.QuoteOf(p, op, prices).value;
            && q.gasLimit * q.maxFeePerGas + p.fees.overhead + F.ValueOf(op) <= q.maximumCost && q.maximumCost > 0
            && q.maximumCost == F.CapOf(p.fees, op)
  {
    var fees := F.BuildFeeQuote(p.fees, F.AssetOf(op), Some(prices.base), Some(prices.suggested)).value;
    F.QuoteFormula(p.fees, F.AssetOf(op), prices.base, prices.suggested);
    F.QuotePositive(p.fees, fees);
    F.SigningCovers(p.fees, op, fees);
  }

  // The open reservation a transaction is signed against covers it.
  lemma FundedIsCovered(p: M.Params, ledger: Ledger, i: Incident, prices: M.Prices, tx: Transaction, now: Time)
    requires AllValid(p.ledger, ledger.reservations) && M.Funded(p, ledger, i, prices, tx)
    ensures var next := M.SignedRecord(i, tx, now);
            Capped(p, next) && CoveredBy(p, ledger, next)
  {
    QuoteCovers(p, M.OperationOf(p, i).value, prices);
    assert ValidReservation(p.ledger, ledger.reservations[ledger.attempts[M.AttemptOf(i)]]);
  }

  lemma SignSolvent(p: M.Params, s: M.State, prices: M.Prices, tx: Transaction, now: Time)
    requires Solvent(p, s)
    ensures Solvent(p, M.DoSign(p, s, prices, tx, now))
  {
    var s' := M.DoSign(p, s, prices, tx, now);
    T.SignCases(p, s, prices, tx, now);
    if s'.history == s.history {
      StillSolvent(p, s, s');
    } else {
      var i := s.disk.incidents[s.phase.id];
      T.SignFunded(p, s, prices, tx, now);
      FundedIsCovered(p, s.books.ledger, i, prices, tx, now);
      SignedSolvent(p, s, s', i, tx, now);
    }
  }

  lemma SignedBacked(p: M.Params, s: M.State, disk: RescueStore.Store, next: Incident)
    requires AllBacked(p, s.disk, s.books.ledger, s.history) && T.Replaced(s.disk, disk, next)
    requires Capped(p, next) && CoveredBy(p, s.books.ledger, next)
    ensures AllBacked(p, disk, s.books.ledger, s.history + [M.Signature(M.AttemptOf(next), next.signed.value)])
  {
    var history := s.history + [M.Signature(M.AttemptOf(next), next.signed.value)];
    assert history[|s.history|] in history;
    forall id {:trigger disk.incidents[id]} | id in disk.incidents && disk.incidents[id].status.InFlight()
      ensures Backed(p, s.books.ledger, history, disk.incidents[id])
    {
      if id != next.id {
        assert Backed(p, s.books.ledger, s.history, s.disk.incidents[id]);
      }
    }
  }

  lemma SignedSolvent(p: M.Params, s: M.State, s': M.State, i: Incident, tx: Transaction, now: Time)
    requires Solvent(p, s) && RescueStore.Inv(p.store, s'.disk)
    requires T.Replaced(s.disk, s'.disk, M.SignedRecord(i, tx, now)) && M.SignerAnswers(s, i, tx)
    requires Capped(p, M.SignedRecord(i, tx, now)) && CoveredBy(p, s.books.ledger, M.SignedRecord(i, tx, now))
    requires s'.books == s.books && s'.sent == s.sent && s'.history == s.history + [M.Signature(M.AttemptOf(i), tx)]
    ensures Solvent(p, s')
  {
    SignedBacked(p, s, s'.disk, M.SignedRecord(i, tx, now));
    NoCollisionMore(s, i, tx);
    assert forall g | g in s.sent :: g in s.history ==> g in s'.history;
  }

  lemma NoCollisionMore(s: M.State, i: Incident, tx: Transaction)
    requires T.NoCollision(s.history) && M.SignerAnswers(s, i, tx)
    ensures T.NoCollision(s.history + [M.Signature(M.AttemptOf(i), tx)])
  {
  }

  // ---------- Sending ----------

  lemma RestoredCovers(p: M.Params, i: Incident, r: Reservation)
    requires M.PayloadChecks(p, i) && Capped(p, i) && ValidReservation(p.ledger, r)
    requires r.request.quote == M.RestoredQuote(p, i) && r.request.network == p.store.network
    ensures Covers(p, r, i.signed.value)
  {
  }

  // A restored reservation is made for the cap, so it covers the transaction, the value of a claim included.
  lemma RestoredIsCovered(p: M.Params, books: Run, i: Incident, balance: Wei, observedAt: Time, clock: Time)
    requires p.ledger.Valid() && BudgetTheorems.Inv(p.ledger, books) && M.PayloadChecks(p, i) && Capped(p, i) && M.AttemptOf(i) !in books.ledger.attempts
    ensures CoveredBy(p, M.Restored(p, books, i, balance, observedAt, clock).ledger, i)
  {
    var request := M.RequestOf(p, i, M.RestoredQuote(p, i), balance, observedAt);
    var after := M.Restored(p, books, i, balance, observedAt, clock);
    InvStep(p.ledger, books, DoReserve(request, clock));
    if Reserve(p.ledger, books.ledger, request, clock).result.Ok? {
      ReserveGrants(p.ledger, books.ledger, request, clock);
      RestoredCovers(p, i, after.ledger.reservations[after.ledger.attempts[M.AttemptOf(i)]]);
    } else {
      RefusedChangesNothing(p.ledger, books.ledger, request, clock);
    }
  }

  lemma RefusedExisting(c: Config, s: Ledger, request: Request, now: Time)
    requires ValidRequest(c, request) && request.attempt in s.attempts && s.attempts[request.attempt] in s.reservations
    requires ReserveExisting(c, s, request, now).result.Err?
    ensures ReserveExisting(c, s, request, now).after == s
  {
  }

  lemma RefusedNew(c: Config, s: Ledger, request: Request, now: Time)
    requires ValidRequest(c, request) && ReserveNew(c, s, request, now).result.Err?
    ensures ReserveNew(c, s, request, now).after == s
  {
  }

  lemma RefusedChangesNothing(c: Config, s: Ledger, request: Request, clock: Time)
    requires Reserve(c, s, request, clock).result.Err?
    ensures Reserve(c, s, request, clock).after == s
  {
    var now := Clamp(s.lastSeen, clock);
    if ValidRequest(c, request) && Acceptable(c, s, now) {
      if request.attempt !in s.attempts {
        if ReserveNew(c, s, request, now).result.Err? {
          RefusedNew(c, s, request, now);
        }
      } else if ReserveExisting(c, s, request, now).result.Err? {
        RefusedExisting(c, s, request, now);
      }
    }
  }

  lemma RestoreSolvent(p: M.Params, s: M.State, id: IncidentID, balance: Wei, observedAt: Time, clock: Time)
    requires p.ledger.Valid() && Solvent(p, s) && id in M.InFlight(s.disk.incidents) && M.PayloadChecks(p, s.disk.incidents[id])
    ensures Solvent(p, s.(books := M.Restored(p, s.books, s.disk.incidents[id], balance, observedAt, clock)))
  {
    var i := s.disk.incidents[id];
    var books := M.Restored(p, s.books, i, balance, observedAt, clock);
    assert Backed(p, s.books.ledger, s.history, i);
    if M.AttemptOf(i) !in s.books.ledger.attempts {
      var command := DoReserve(M.RequestOf(p, i, M.RestoredQuote(p, i), balance, observedAt), clock);
      RestoreKeeps(p, s, i, balance, observedAt, clock);
      StepEffect(p.ledger, s.books.ledger, command);
      RestoredIsCovered(p, s.books, i, balance, observedAt, clock);
      RestoreAddsOne(p, s, id, books, command);
      LedgerSolvent(p, s, books);
    } else {
      assert s.(books := books) == s;
    }
  }

  lemma RestoreAddsOne(p: M.Params, s: M.State, id: IncidentID, books: Run, command: Command)
    requires RescueStore.Inv(p.store, s.disk) && Structured(p.ledger, s.books.ledger) && id in s.disk.incidents
    requires command.DoReserve? && command.request.attempt == M.AttemptOf(s.disk.incidents[id])
    requires books.ledger == Step(p.ledger, s.books.ledger, command).after && CoveredBy(p, books.ledger, s.disk.incidents[id])
    ensures forall other {:trigger s.disk.incidents[other]} | other in s.disk.incidents && s.disk.incidents[other].status.InFlight() ::
              M.AttemptOf(s.disk.incidents[other]) in books.ledger.attempts ==>
                M.AttemptOf(s.disk.incidents[other]) in s.books.ledger.attempts || CoveredBy(p, books.ledger, s.disk.incidents[other])
  {
    forall other {:trigger s.disk.incidents[other]} | other in s.disk.incidents && M.AttemptOf(s.disk.incidents[other]) in books.ledger.attempts
      ensures M.AttemptOf(s.disk.incidents[other]) in s.books.ledger.attempts || other == id
    {
      NoNewAttempts(p.ledger, s.books.ledger, command, M.AttemptOf(s.disk.incidents[other]));
    }
  }

  lemma CheckAndExpose(p: M.Params, s: M.State, checked: Run, rid: ReservationID, balance: Wei, txHash: Hash)
    requires p.ledger.Valid() && Solvent(p, s) && checked == Advance(p.ledger, s.books, DoCheck(rid, balance))
    ensures Solvent(p, s.(books := checked))
    ensures Solvent(p, s.(books := Advance(p.ledger, checked, DoExpose(rid, txHash))))
  {
    AdvanceSolvent(p, s, DoCheck(rid, balance));
    var t := s.(books := checked);
    AdvanceSolvent(p, t, DoExpose(rid, txHash));
    assert t.(books := Advance(p.ledger, checked, DoExpose(rid, txHash))) == s.(books := Advance(p.ledger, checked, DoExpose(rid, txHash)));
  }

  lemma ExposeSolvent(p: M.Params, s: M.State, s': M.State, id: IncidentID, balance: Wei)
    requires p.ledger.Valid() && Solvent(p, s) && id in M.InFlight(s.disk.incidents) && M.PayloadChecks(p, s.disk.incidents[id])
    requires M.AttemptOf(s.disk.incidents[id]) in s.books.ledger.attempts && s' == M.ExposeAndSend(p, s, s.disk.incidents[id], balance)
    ensures Solvent(p, s')
  {
    var i := s.disk.incidents[id];
    var checked := SendShape(p, s, i, balance);
    CheckAndExpose(p, s, checked, s.books.ledger.attempts[M.AttemptOf(i)], balance, i.txHash);
    SendKeepsExposed(p, s, i, balance);
    ShapeSolvent(p, s, s', i, checked, Advance(p.ledger, checked, DoExpose(s.books.ledger.attempts[M.AttemptOf(i)], i.txHash)));
  }

  lemma ShapeSolvent(p: M.Params, s: M.State, s': M.State, i: Incident, checked: Run, exposed: Run)
    requires p.ledger.Valid() && Solvent(p, s.(books := checked)) && Solvent(p, s.(books := exposed)) && i.signed.Some?
    requires i.id in s.disk.incidents && s.disk.incidents[i.id] == i && i.status.InFlight() && AllExposed(p, s'.books, s'.sent)
    requires s' == s.(books := checked) || s' == s.(books := exposed) || s' == M.Handed(s, exposed, i)
    ensures Solvent(p, s')
  {
    if s' == M.Handed(s, exposed, i) {
      HandedFrom(s, exposed, i);
      SentSolvent(p, s.(books := exposed), s', i);
    }
  }

  lemma HandedFrom(s: M.State, books: Run, i: Incident)
    requires i.signed.Some?
    ensures M.Handed(s.(books := books), books, i) == M.Handed(s, books, i)
  {
  }

  // The signature handed to the network is covered like its incident.
  lemma SentSolvent(p: M.Params, s: M.State, s': M.State, i: Incident)
    requires p.ledger.Valid() && Solvent(p, s) && i.id in s.disk.incidents && s.disk.incidents[i.id] == i && i.status.InFlight()
    requires i.signed.Some? && s' == M.Handed(s, s.books, i)
    requires AllExposed(p, s'.books, s'.sent)
    ensures Solvent(p, s')
  {
    var g := M.Signature(M.AttemptOf(i), i.signed.value);
    var ledger := s.books.ledger;
    assert Backed(p, ledger, s.history, i);
    assert SigningExposure.Exposed(p, ledger, g);
    BoundAttempt(p, ledger, g);
    assert ledger.attempts[ledger.reservations[ReservationOf(p, g)].request.attempt] == ReservationOf(p, g);
  }

  lemma SendSolvent(p: M.Params, s: M.State, balance: Wei, observedAt: Time, clock: Time)
    requires p.ledger.Valid() && Solvent(p, s)
    ensures Solvent(p, M.DoSend(p, s, balance, observedAt, clock))
  {
    if s.phase.Sending? && s.phase.id in M.InFlight(s.disk.incidents) && M.PayloadChecks(p, s.disk.incidents[s.phase.id]) {
      var i := s.disk.incidents[s.phase.id];
      var restored := s.(books := M.Restored(p, s.books, i, balance, observedAt, clock));
      RestoreSolvent(p, s, s.phase.id, balance, observedAt, clock);
      if M.AttemptOf(i) in restored.books.ledger.attempts {
        ExposeSolvent(p, restored, M.ExposeAndSend(p, restored, i, balance), s.phase.id, balance);
      }
    }
  }

  // ---------- Every step ----------

  lemma PrepareStill(p: M.Params, s: M.State, id: IncidentID, b: M.Snapshot, pending: Uint64, sourceNonce: Uint64, now: Time)
    requires RescueStore.Inv(p.store, s.disk)
    ensures Still(p, s, M.DoPrepare(p, s, id, b, pending, sourceNonce, now))
  {
    if M.DoPrepare(p, s, id, b, pending, sourceNonce, now) != s {
      var i := s.disk.incidents[id];
      var raised := s.(floor := M.Raised(s.floor, pending));
      SaveStill(p, raised, M.PreparedRecord(i, b, raised.floor, if i.policy.latestState then 0 else sourceNonce, now),
                if i.policy.latestState then M.Ready(id) else M.Checking(id), now);
    }
  }

  lemma PreparationStill(p: M.Params, s: M.State, id: IncidentID, b: M.Snapshot, code: string, now: Time)
    requires RescueStore.Inv(p.store, s.disk)
    ensures Still(p, s, M.DoPrepareRefused(p, s, id, b, now))
    ensures Still(p, s, M.DoPreparationFails(p, s, id, b, code, now))
  {
    if id in s.disk.incidents {
      SaveStill(p, s, M.PreparedRecord(s.disk.incidents[id], b, 0, 0, now), M.Idle, now);
      SaveStill(p, s, M.PreparationFailedRecord(s.disk.incidents[id], b, code, now), M.Idle, now);
    }
  }

  lemma FailStill(p: M.Params, s: M.State, id: IncidentID, code: string, now: Time)
    requires RescueStore.Inv(p.store, s.disk)
    ensures Still(p, s, M.DoFailBeforeSigned(p, s, id, code, now))
  {
    if id in s.disk.incidents {
      SaveStill(p, s, M.RetryableRecord(s.disk.incidents[id], code, now), M.Idle, now);
    }
  }

  lemma GiveUpStill(p: M.Params, s: M.State, id: IncidentID, status: Status, code: string, now: Time)
    requires RescueStore.Inv(p.store, s.disk)
    ensures Still(p, s, M.DoClose(p, s, id, status, code, now))
    ensures Still(p, s, M.DoFinish(p, s, id, status, code, now))
  {
    if id in s.disk.incidents {
      SaveStill(p, s, M.TerminalRecord(s.disk.incidents[id], status, code, now), M.Idle, now);
    }
  }

  lemma PutLaunchesNone(c: RescueStore.Config, disk: RescueStore.Store, i: Incident)
    ensures NoneLaunched(disk, RescueStore.Put(c, disk, i).after)
  {
  }

  lemma PutAcceptable(c: RescueStore.Config, disk: RescueStore.Store, i: Incident)
    requires RescueStore.Inv(c, disk)
    ensures RescueStore.Inv(c, RescueStore.Put(c, disk, i).after)
  {
  }

  lemma PutStill(p: M.Params, s: M.State, i: Incident)
    requires RescueStore.Inv(p.store, s.disk)
    ensures Still(p, s, M.DoPut(p, s, i))
  {
    PutLaunchesNone(p.store, s.disk, i);
    PutAcceptable(p.store, s.disk, i);
  }

  lemma MarkStill(p: M.Params, s: M.State, id: IncidentID, code: string, now: Time)
    requires RescueStore.Inv(p.store, s.disk)
    ensures Still(p, s, M.DoMarkBroadcast(p, s, id, now))
    ensures Still(p, s, M.DoMarkAmbiguous(p, s, id, code, now))
  {
    if id in s.disk.incidents {
      SaveStill(p, s, M.BroadcastRecord(s.disk.incidents[id], now), M.Idle, now);
      if id in M.InFlight(s.disk.incidents) {
        SaveStill(p, s, M.AmbiguousRecord(s.disk.incidents[id], code, now), M.Idle, now);
      }
    }
  }

  lemma ReceiveStill(p: M.Params, s: M.State, id: IncidentID, now: Time)
    requires RescueStore.Inv(p.store, s.disk)
    ensures Still(p, s, M.DoMarkReceived(p, s, id, now))
    ensures Still(p, s, M.DoExpire(p, s, id, now))
  {
    if id in s.disk.incidents {
      SaveStill(p, s, s.disk.incidents[id].(status := Ambiguous, lastCode := M.CODE_BROADCAST, updatedAt := now), M.Idle, now);
      SaveStill(p, s, M.ExpiredRecord(s.disk.incidents[id]), M.Idle, now);
    }
  }

  lemma UnsigningStill(p: M.Params, s: M.State, event: M.Event)
    requires RescueStore.Inv(p.store, s.disk) && M.Unsigning(event)
    ensures Still(p, s, M.NextUnsigned(p, s, event))
  {
    match event
    case Put(i) => PutStill(p, s, i);
    case Prepare(id, b, pending, sourceNonce, now) => PrepareStill(p, s, id, b, pending, sourceNonce, now);
    case PrepareRefused(id, b, now) => PreparationStill(p, s, id, b, "", now);
    case PreparationFails(id, b, code, now) => PreparationStill(p, s, id, b, code, now);
    case Resume(id) => assert M.NextUnsigned(p, s, event).disk == s.disk;
    case CheckNonce(pending) => assert M.NextUnsigned(p, s, event).disk == s.disk;
    case FailBeforeSigned(id, code, now) => FailStill(p, s, id, code, now);
    case Close(id, status, code, now) => GiveUpStill(p, s, id, status, code, now);
  }

  lemma ReconciledStill(p: M.Params, s: M.State, event: M.Event)
    requires RescueStore.Inv(p.store, s.disk) && M.Reconciling(event)
    ensures Still(p, s, M.NextReconciled(p, s, event))
  {
    match event
    case MarkBroadcast(id, now) => MarkStill(p, s, id, "", now);
    case MarkAmbiguous(id, code, now) => MarkStill(p, s, id, code, now);
    case MarkReceived(id, now) => ReceiveStill(p, s, id, now);
    case Expire(id, now) => ReceiveStill(p, s, id, now);
    case Finish(id, status, code, now) => GiveUpStill(p, s, id, status, code, now);
  }

  lemma SameIncidentsStill(p: M.Params, s: M.State, s': M.State)
    requires RescueStore.Inv(p.store, s.disk) && s'.disk.incidents == s.disk.incidents
    requires s'.books == s.books && s'.sent == s.sent && s'.history == s.history
    ensures Still(p, s, s')
  {
  }

  lemma RaiseStill(p: M.Params, s: M.State, s': M.State, id: IncidentID, ok: bool)
    requires RescueStore.Inv(p.store, s.disk)
    requires s' == M.DoWriteFloor(s, ok) || s' == M.DoEnsureFloor(s, id, ok) || s' == M.DoRecoverRaise(s, id, ok)
    ensures Still(p, s, s')
  {
    SameIncidentsStill(p, s, s');
  }

  lemma PersistedSolvent(p: M.Params, s: M.State, s': M.State, event: M.Event)
    requires p.ledger.Valid() && Solvent(p, s) && M.Persisting(event) && s' == M.NextPersisted(p, s, event)
    ensures Solvent(p, s')
  {
    match event
    case Sign(prices, tx, now) => SignSolvent(p, s, prices, tx, now);
    case WriteFloor(ok) => RaiseStill(p, s, s', 0, ok); StillSolvent(p, s, s');
    case EnsureFloor(id, ok) => RaiseStill(p, s, s', id, ok); StillSolvent(p, s, s');
    case RecoverRaise(id, ok) => RaiseStill(p, s, s', id, ok); StillSolvent(p, s, s');
    case Send(balance, observedAt, clock) => SendSolvent(p, s, balance, observedAt, clock);
  }

  lemma BudgetSolvent(p: M.Params, s: M.State, s': M.State, command: Command)
    requires p.ledger.Valid() && Solvent(p, s)
    requires s' == s || s' == s.(books := Advance(p.ledger, s.books, command))
    requires command.DoReserve? && s' != s ==> command.request.attempt.incident !in M.InFlight(s.disk.incidents)
    ensures Solvent(p, s')
  {
    if s' != s {
      AdvanceSolvent(p, s, command);
    }
  }

  predicate Asks(s: M.State, command: Command) {
    && s.phase.Ready? && s.phase.id in s.disk.incidents && s.disk.incidents[s.phase.id].status == Prepared
    && command.DoReserve? && command.request.attempt.incident == s.disk.incidents[s.phase.id].id
  }

  lemma FundAsks(p: M.Params, s: M.State, s': M.State, prices: M.Prices, balance: Wei, observedAt: Time, clock: Time) returns (command: Command)
    requires s' == M.DoFund(p, s, prices, balance, observedAt, clock)
    ensures s' == s || (Asks(s, command) && s' == s.(books := Advance(p.ledger, s.books, command)))
  {
    command := DoRelease(0);
    if s' != s {
      var i := s.disk.incidents[s.phase.id];
      var quote := M.QuoteOf(p, M.OperationOf(p, i).value, prices).value;
      command := DoReserve(M.RequestOf(p, i, quote, balance, observedAt), clock);
    }
  }

  lemma AsksForPrepared(p: M.Params, s: M.State, command: Command)
    requires RescueStore.Inv(p.store, s.disk) && Asks(s, command)
    ensures command.request.attempt.incident !in M.InFlight(s.disk.incidents)
  {
  }

  lemma FundShape(p: M.Params, s: M.State, s': M.State, prices: M.Prices, balance: Wei, observedAt: Time, clock: Time) returns (command: Command)
    requires RescueStore.Inv(p.store, s.disk) && s' == M.DoFund(p, s, prices, balance, observedAt, clock)
    ensures s' == s || s' == s.(books := Advance(p.ledger, s.books, command))
    ensures command.DoReserve? && s' != s ==> command.request.attempt.incident !in M.InFlight(s.disk.incidents)
  {
    command := FundAsks(p, s, s', prices, balance, observedAt, clock);
    if s' != s {
      AsksForPrepared(p, s, command);
    }
  }

  lemma BudgetStep(p: M.Params, s: M.State, s': M.State, command: Command)
    requires s' == M.DoBudget(p, s, command)
    ensures s' == s || s' == s.(books := Advance(p.ledger, s.books, command))
    ensures command.DoReserve? && s' != s ==> command.request.attempt.incident !in M.InFlight(s.disk.incidents)
  {
  }

  lemma QuietSolvent(p: M.Params, s: M.State, s': M.State, event: M.Event)
    requires p.ledger.Valid() && Solvent(p, s) && M.Quiet(event) && s' == M.NextQuiet(p, s, event)
    ensures Solvent(p, s')
  {
    if event.Budget? {
      BudgetStep(p, s, s', event.command);
      BudgetSolvent(p, s, s', event.command);
    } else if event.Fund? {
      var command := FundShape(p, s, s', event.prices, event.balance, event.observedAt, event.clock);
      BudgetSolvent(p, s, s', command);
    } else {
      IdleStill(p, s, s', event);
      StillSolvent(p, s, s');
    }
  }

  lemma PruneLaunchesNone(c: RescueStore.Config, disk: RescueStore.Store, retain: int)
    requires RescueStore.Inv(c, disk)
    ensures RescueStore.Inv(c, RescueStore.Prune(disk, retain)) && NoneLaunched(disk, RescueStore.Prune(disk, retain))
  {
  }

  lemma PruneStill(p: M.Params, s: M.State, retain: int)
    requires RescueStore.Inv(p.store, s.disk)
    ensures Still(p, s, M.DoPrune(s, retain))
  {
    PruneLaunchesNone(p.store, s.disk, retain);
  }

  lemma QuietSame(p: M.Params, s: M.State, s': M.State, event: M.Event)
    requires M.Quiet(event) && !event.Budget? && !event.Fund? && !event.Prune? && s' == M.NextQuiet(p, s, event)
    ensures s'.disk.incidents == s.disk.incidents && s'.books == s.books && s'.sent == s.sent && s'.history == s.history
  {
  }

  lemma IdleStill(p: M.Params, s: M.State, s': M.State, event: M.Event)
    requires RescueStore.Inv(p.store, s.disk) && M.Quiet(event) && !event.Budget? && !event.Fund? && s' == M.NextQuiet(p, s, event)
    ensures Still(p, s, s')
  {
    if event.Prune? {
      PruneStill(p, s, event.retain);
    } else {
      QuietSame(p, s, s', event);
      SameIncidentsStill(p, s, s');
    }
  }

  lemma StepSolvent(p: M.Params, s: M.State, event: M.Event)
    requires p.ledger.Valid() && Solvent(p, s)
    ensures Solvent(p, M.Next(p, s, event))
  {
    if M.Unsigning(event) {
      UnsigningStill(p, s, event);
      StillSolvent(p, s, M.NextUnsigned(p, s, event));
    } else if M.Persisting(event) {
      PersistedSolvent(p, s, M.NextPersisted(p, s, event), event);
    } else if M.Reconciling(event) {
      ReconciledStill(p, s, event);
      StillSolvent(p, s, M.NextReconciled(p, s, event));
    } else {
      QuietSolvent(p, s, M.NextQuiet(p, s, event), event);
    }
  }

  lemma {:induction false} RunSolvent(p: M.Params, latest: bool, events: seq<M.Event>)
    requires p.ledger.Valid()
    ensures Solvent(p, M.After(p, latest, events))
    decreases |events|
  {
    if events == [] {
      InvInitial(p.ledger);
    } else {
      RunSolvent(p, latest, events[..|events| - 1]);
      StepSolvent(p, M.After(p, latest, events[..|events| - 1]), events[|events| - 1]);
    }
  }

  // ---------- What is in flight ----------

  // At every point of every run, what was sent so far costs at most what is reserved for it.
  lemma SentIsCovered(p: M.Params, latest: bool, events: seq<M.Event>, g: M.Signature)
    requires p.ledger.Valid() && g in M.After(p, latest, events).sent
    ensures var ledger := M.After(p, latest, events).books.ledger;
            && Bound(ledger, ReservationOf(p, g), g.transaction.hash)
            && g.transaction.gas * g.transaction.feeCap + p.fees.overhead + g.transaction.value <= ledger.reservations[ReservationOf(p, g)].maximum
  {
    RunSolvent(p, latest, events);
    assert SigningExposure.Exposed(p, M.After(p, latest, events).books.ledger, g);
  }

  // The transactions in the network's hands that are not yet charged.
  ghost function Uncharged(p: M.Params, s: M.State): set<M.Signature> {
    set g | g in s.sent && ReservationOf(p, g) in s.books.ledger.reservations
            && s.books.ledger.reservations[ReservationOf(p, g)].state == BudgetModel.Exposed
  }

  ghost function TotalCost(p: M.Params, sent: set<M.Signature>): nat
    decreases |sent|
  {
    if sent == {} then 0
    else
      var g :| g in sent;
      CostOf(p, g.transaction) + TotalCost(p, sent - {g})
  }

  ghost predicate OneEach(p: M.Params, sent: set<M.Signature>) {
    forall g, h | g in sent && h in sent && ReservationOf(p, g) == ReservationOf(p, h) :: g == h
  }

  ghost predicate OpenCover(p: M.Params, m: map<ReservationID, Reservation>, sent: set<M.Signature>) {
    forall g {:trigger ReservationOf(p, g)} | g in sent ::
      && ReservationOf(p, g) in m && m[ReservationOf(p, g)].Open() && Covers(p, m[ReservationOf(p, g)], g.transaction)
  }

  // Distinct transactions have distinct reservations, so costs add up to at most what is reserved.
  lemma {:induction false} TotalCostBelow(p: M.Params, m: map<ReservationID, Reservation>, scope: Scope, sent: set<M.Signature>)
    requires InScope(scope, p.store.network) && OneEach(p, sent) && OpenCover(p, m, sent)
    ensures TotalCost(p, sent) <= Sum(Reserved(scope), m)
    decreases |sent|
  {
    if sent != {} {
      var g :| g in sent && TotalCost(p, sent) == CostOf(p, g.transaction) + TotalCost(p, sent - {g});
      var rid := ReservationOf(p, g);
      SumRemove(Reserved(scope), m, rid);
      forall h {:trigger ReservationOf(p, h)} | h in sent - {g} ensures ReservationOf(p, h) in m - {rid} {
      }
      TotalCostBelow(p, m - {rid}, scope, sent - {g});
    }
  }

  lemma SentOneEach(p: M.Params, s: M.State)
    requires p.ledger.Valid() && Solvent(p, s)
    ensures OneEach(p, s.sent)
  {
    forall g, h | g in s.sent && h in s.sent && ReservationOf(p, g) == ReservationOf(p, h) ensures g == h {
      assert SigningExposure.Exposed(p, s.books.ledger, g) && SigningExposure.Exposed(p, s.books.ledger, h);
      assert g in s.history && h in s.history;
    }
  }

  // With a bounded policy, the worst case of everything in flight plus everything charged so far
  // stays within the cumulative limits.
  lemma InFlightWithinLimits(p: M.Params, latest: bool, events: seq<M.Event>, scope: Scope)
    requires p.ledger.Valid() && p.ledger.policy.Bounded() && Known(p.ledger, scope) && InScope(scope, p.store.network)
    ensures var s := M.After(p, latest, events);
            LogTotal(s.books.log, scope) + TotalCost(p, Uncharged(p, s)) <= LimitsOf(p.ledger, scope).cumulative
  {
    var s := M.After(p, latest, events);
    RunSolvent(p, latest, events);
    SentOneEach(p, s);
    TotalCostBelow(p, s.books.ledger.reservations, scope, Uncharged(p, s));
    LimitsHold(p, s.books, scope);
  }

  lemma LimitsHold(p: M.Params, books: Run, scope: Scope)
    requires p.ledger.policy.Bounded() && Known(p.ledger, scope) && BudgetTheorems.Inv(p.ledger, books)
    ensures LogTotal(books.log, scope) + Sum(Reserved(scope), books.ledger.reservations) <= LimitsOf(p.ledger, scope).cumulative
  {
  }
}
