/** When a transaction is handed to the network, and what the sponsor's balance covers at that moment. */
module SigningSends {
  import opened Prelude
  import opened BudgetModel
  import opened BudgetSteps
  import opened BudgetRuns
  import opened BudgetAnswers
  import opened BudgetTheorems
  import opened RescueState
  import opened SigningExposure
  import opened SigningFunds
  import RescueStore
  import M = SigningModel

  // ---------- What leaves ----------

  // The reservation is open, free or taken by this very transaction, no charge ever ran over, and the
  // balance covers the emergency reserve and everything open.
  ghost predicate Sendable(c: Config, s: Ledger, r: Reservation, txHash: Hash, balance: Wei) {
    && r.Open() && (r.state == Held || r.txHash == txHash) && balance != 0 && !Overrun(s.reservations, Global)
    && r.request.network in c.policy.networks && Kept(c, s.reservations, r.request.network, r.request.sponsor) <= balance
  }

  // Both ledgers show every scope the same usage.
  ghost predicate SameUsage(m: map<ReservationID, Reservation>, m': map<ReservationID, Reservation>, now: Time) {
    forall scope {:trigger UsageOf(m', scope, now)} :: UsageOf(m', scope, now) == UsageOf(m, scope, now)
  }

  lemma SameWithin(c: Config, m: map<ReservationID, Reservation>, m': map<ReservationID, Reservation>, now: Time)
    requires WithinLimits(c, m, now) && UsageOf(m, Global, now).Fits() && SameUsage(m, m', now)
    ensures WithinLimits(c, m', now) && UsageOf(m', Global, now).Fits()
  {
    forall n | n in c.policy.networks ensures UsageOf(m', Net(n), now).Within(c.policy.networks[n].limits) {
      assert UsageOf(m', Net(n), now) == UsageOf(m, Net(n), now);
    }
  }

  lemma RecordedAcceptable(c: Config, s: Ledger, id: ReservationID, balance: Wei)
    requires Acceptable(c, s, s.lastSeen) && id in s.reservations && balance != 0
    ensures Acceptable(c, Recorded(s, s.reservations[id], balance).after, s.lastSeen)
  {
    var r := s.reservations[id];
    var s' := Recorded(s, r, balance).after;
    assert ValidReservation(c, r) && r.id == id;
    forall scope ensures UsageOf(s'.reservations, scope, s.lastSeen) == UsageOf(s.reservations, scope, s.lastSeen) {
      RecordedUsage(s, r, balance, scope, s.lastSeen);
    }
    RecordedFiled(c, s, r, balance, s');
    SameWithin(c, s.reservations, s'.reservations, s.lastSeen);
  }

  lemma RecordedUsage(s: Ledger, r: Reservation, balance: Wei, scope: Scope, now: Time)
    requires r.id in s.reservations && s.reservations[r.id] == r
    ensures UsageOf(Recorded(s, r, balance).after.reservations, scope, now) == UsageOf(s.reservations, scope, now)
  {
    var m, m' := s.reservations, Recorded(s, r, balance).after.reservations;
    RecordedSums(s, r, balance, Reserved(scope));
    RecordedSums(s, r, balance, SpentSince(scope, now - HOUR));
    RecordedSums(s, r, balance, SpentSince(scope, now - DAY));
    RecordedSums(s, r, balance, SpentSince(scope, UNSET));
    if id :| id in m && m[id].Overran() && InScope(scope, m[id].request.network) {
      assert m'[id] == m[id];
    }
    if id :| id in m' && m'[id].Overran() && InScope(scope, m'[id].request.network) {
      assert m[id] == m'[id];
    }
  }

  lemma RecordedFiled(c: Config, s: Ledger, r: Reservation, balance: Wei, s': Ledger)
    requires AllValid(c, s.reservations) && Filed(s) && Indexed(s) && r.id in s.reservations && s.reservations[r.id] == r && balance != 0
    requires s' == Recorded(s, r, balance).after
    ensures AllValid(c, s'.reservations) && Filed(s') && Indexed(s') && |s'.reservations| == |s.reservations| && s'.attempts == s.attempts
  {
    if r.state == Held {
      RefreshMoves(c, r, balance, s.lastSeen);
      ReplaceIndexed(s, r.id, Refreshed(r, balance), s.lastSeen);
      PutValid(c, s.reservations, r.id, Refreshed(r, balance));
      assert s' == s.(reservations := s.reservations[r.id := Refreshed(r, balance)], lastSeen := s.lastSeen);
    }
  }

  lemma CheckPasses(c: Config, s: Ledger, id: ReservationID, balance: Wei)
    requires CheckSponsorCapacity(c, s, id, balance).result.Ok?
    ensures id in s.reservations && s.reservations[id].id == id && s.reservations[id].Open() && balance != 0
    ensures CheckSponsorCapacity(c, s, id, balance).after == Recorded(s, s.reservations[id], balance).after
  {
  }

  lemma RecordedTimes(s: Ledger, r: Reservation, balance: Wei)
    requires TimesOk(s) && r.id in s.reservations && s.reservations[r.id] == r
    ensures var s' := Recorded(s, r, balance).after;
            && TimesOk(s') && s'.lastSeen == s.lastSeen && r.id in s'.reservations
            && s'.reservations[r.id].state == r.state && s'.reservations[r.id].txHash == r.txHash
  {
  }

  // The check leaves a ledger on which the reservation can be exposed under the same conditions.
  lemma CheckedIs(c: Config, s: Ledger, id: ReservationID, balance: Wei)
    requires Acceptable(c, s, s.lastSeen) && TimesOk(s) && CheckSponsorCapacity(c, s, id, balance).result.Ok?
    ensures var s' := CheckSponsorCapacity(c, s, id, balance).after;
            && id in s.reservations && id in s'.reservations && Acceptable(c, s', s'.lastSeen) && TimesOk(s') && balance != 0
            && s.reservations[id].Open()
            && s'.reservations[id].state == s.reservations[id].state && s'.reservations[id].txHash == s.reservations[id].txHash
  {
    CheckPasses(c, s, id, balance);
    RecordedAcceptable(c, s, id, balance);
    RecordedTimes(s, s.reservations[id], balance);
  }

  lemma PassesIff(c: Config, s: Ledger, id: ReservationID, txHash: Hash, balance: Wei)
    requires Acceptable(c, s, s.lastSeen) && TimesOk(s) && id in s.reservations && txHash != 0
    ensures var checked := CheckSponsorCapacity(c, s, id, balance);
            checked.result.Ok? && MarkExposed(c, checked.after, id, txHash).result.Ok? <==>
            Sendable(c, s, s.reservations[id], txHash, balance)
  {
    var checked := CheckSponsorCapacity(c, s, id, balance);
    assert ValidReservation(c, s.reservations[id]);
    if balance != 0 && s.reservations[id].Open() {
      CheckAnswers(c, s, id, balance);
    }
    if checked.result.Ok? {
      CheckedIs(c, s, id, balance);
      MarkExposedAnswers(c, checked.after, id, txHash);
    }
  }

  // Handing over happens exactly when both the check and the exposure succeed.
  lemma HandsOver(p: M.Params, s: M.State, i: Incident, balance: Wei)
    requires i.signed.Some? && M.AttemptOf(i) in s.books.ledger.attempts
    ensures var rid, s' := s.books.ledger.attempts[M.AttemptOf(i)], M.ExposeAndSend(p, s, i, balance);
            var checked := CheckSponsorCapacity(p.ledger, s.books.ledger, rid, balance);
            if checked.result.Ok? && MarkExposed(p.ledger, checked.after, rid, i.txHash).result.Ok?
            then s'.sends == s.sends + 1 && s'.sent == s.sent + {M.Signature(M.AttemptOf(i), i.signed.value)}
            else s'.sends == s.sends && s'.sent == s.sent
  {
    CheckAdvance(p.ledger, s.books, s.books.ledger.attempts[M.AttemptOf(i)], balance);
  }

  lemma CheckAdvance(c: Config, run: Run, id: ReservationID, balance: Wei)
    ensures Advance(c, run, DoCheck(id, balance)).ledger == CheckSponsorCapacity(c, run.ledger, id, balance).after
  {
  }

  ghost predicate Leaves(p: M.Params, ledger: Ledger, i: Incident, balance: Wei) {
    && M.AttemptOf(i) in ledger.attempts && ledger.attempts[M.AttemptOf(i)] in ledger.reservations
    && Sendable(p.ledger, ledger, ledger.reservations[ledger.attempts[M.AttemptOf(i)]], i.txHash, balance)
  }

  lemma HandsOverIff(p: M.Params, s: M.State, i: Incident, balance: Wei)
    requires i.signed.Some? && M.AttemptOf(i) in s.books.ledger.attempts && i.txHash != 0
    requires Acceptable(p.ledger, s.books.ledger, s.books.ledger.lastSeen) && TimesOk(s.books.ledger)
    ensures var s' := M.ExposeAndSend(p, s, i, balance);
            if Leaves(p, s.books.ledger, i, balance)
            then s'.sends == s.sends + 1 && s'.sent == s.sent + {M.Signature(M.AttemptOf(i), i.signed.value)}
            else s'.sends == s.sends && s'.sent == s.sent
  {
    PassesIff(p.ledger, s.books.ledger, s.books.ledger.attempts[M.AttemptOf(i)], i.txHash, balance);
    HandsOver(p, s, i, balance);
  }

  // ---------- In every run ----------

  ghost predicate ReadyToSend(p: M.Params, s: M.State) {
    s.phase.Sending? && s.phase.id in M.InFlight(s.disk.incidents) && M.PayloadChecks(p, s.disk.incidents[s.phase.id])
  }

  // The reservation the transaction would be sent under, restored from it if it is gone.
  ghost function Before(p: M.Params, s: M.State, balance: Wei, observedAt: Time, clock: Time): Run
    requires ReadyToSend(p, s)
  {
    M.Restored(p, s.books, s.disk.incidents[s.phase.id], balance, observedAt, clock)
  }

  lemma SendIs(p: M.Params, s: M.State, balance: Wei, observedAt: Time, clock: Time)
    ensures var s' := M.DoSend(p, s, balance, observedAt, clock);
            if !ReadyToSend(p, s) then s' == s
            else
              var i, restored := s.disk.incidents[s.phase.id], s.(books := Before(p, s, balance, observedAt, clock));
              s' == if M.AttemptOf(i) in restored.books.ledger.attempts then M.ExposeAndSend(p, restored, i, balance) else restored
  {
  }

  lemma InvAcceptable(c: Config, run: Run)
    requires c.policy.Bounded() && BudgetTheorems.Inv(c, run)
    ensures Acceptable(c, run.ledger, run.ledger.lastSeen) && TimesOk(run.ledger)
  {
    LimitedAcceptable(c, run.ledger, run.ledger.lastSeen);
  }

  lemma FlightHasHash(p: M.Params, s: M.State, id: IncidentID)
    requires RescueStore.Inv(p.store, s.disk) && id in M.InFlight(s.disk.incidents)
    ensures s.disk.incidents[id].txHash != 0
  {
    HashMeansSigned(p.store.ids, s.disk.incidents[id]);
  }

  lemma SendsIff(p: M.Params, s: M.State, balance: Wei, observedAt: Time, clock: Time)
    requires p.ledger.Valid() && p.ledger.policy.Bounded() && Solvent(p, s) && ReadyToSend(p, s)
    ensures var s', i := M.DoSend(p, s, balance, observedAt, clock), s.disk.incidents[s.phase.id];
            if Leaves(p, Before(p, s, balance, observedAt, clock).ledger, i, balance)
            then s'.sends == s.sends + 1 && s'.sent == s.sent + {M.Signature(M.AttemptOf(i), i.signed.value)}
            else s'.sends == s.sends && s'.sent == s.sent
  {
    var i, books := s.disk.incidents[s.phase.id], Before(p, s, balance, observedAt, clock);
    SendIs(p, s, balance, observedAt, clock);
    RestoreSolvent(p, s, s.phase.id, balance, observedAt, clock);
    InvAcceptable(p.ledger, books);
    FlightHasHash(p, s, s.phase.id);
    if M.AttemptOf(i) in books.ledger.attempts {
      HandsOverIff(p, s.(books := books), i, balance);
    }
  }

  // In every run with a bounded policy, a transaction that is due to be sent is handed to the network
  // exactly when its reservation is open and free or its own, no charge ran over, and the balance
  // covers the emergency reserve and everything open.
  lemma SendAnswers(p: M.Params, latest: bool, events: seq<M.Event>, balance: Wei, observedAt: Time, clock: Time)
    requires p.ledger.Valid() && p.ledger.policy.Bounded() && ReadyToSend(p, M.After(p, latest, events))
    ensures var s := M.After(p, latest, events);
            var s', i := M.Next(p, s, M.Send(balance, observedAt, clock)), s.disk.incidents[s.phase.id];
            if Leaves(p, Before(p, s, balance, observedAt, clock).ledger, i, balance)
            then s'.sends == s.sends + 1 && s'.sent == s.sent + {M.Signature(M.AttemptOf(i), i.signed.value)}
            else s'.sends == s.sends && s'.sent == s.sent
  {
    RunSolvent(p, latest, events);
    SendsIff(p, M.After(p, latest, events), balance, observedAt, clock);
    SendNext(p, M.After(p, latest, events), balance, observedAt, clock);
  }

  lemma SendNext(p: M.Params, s: M.State, balance: Wei, observedAt: Time, clock: Time)
    ensures M.Next(p, s, M.Send(balance, observedAt, clock)) == M.DoSend(p, s, balance, observedAt, clock)
  {
  }

  // ---------- The sponsor's balance at every send ----------

  ghost predicate ReserveKept(p: M.Params, ledger: Ledger, balance: Wei) {
    && p.store.network in p.ledger.policy.networks
    && var network := p.ledger.policy.networks[p.store.network];
    && network.emergencySponsorReserve + Sum(SponsorReserved(p.store.network, network.sponsor), ledger.reservations) <= balance
  }

  lemma OnlyRecordPut(s: Ledger, s': Ledger, id: ReservationID)
    requires OnlyRecord(s, s', id)
    ensures s'.reservations == s.reservations[id := s'.reservations[id]]
  {
  }

  lemma ExposedGuards(c: Config, s: Ledger, id: ReservationID, txHash: Hash)
    requires MarkExposed(c, s, id, txHash).result.Ok?
    ensures Acceptable(c, s, s.lastSeen) && id in s.reservations && txHash != 0
  {
  }

  lemma ExposureSums(c: Config, s: Ledger, id: ReservationID, txHash: Hash, q: Measure)
    requires TimesOk(s) && q.SponsorReserved? && MarkExposed(c, s, id, txHash).result.Ok?
    ensures Sum(q, MarkExposed(c, s, id, txHash).after.reservations) == Sum(q, s.reservations)
  {
    var s' := MarkExposed(c, s, id, txHash).after;
    ExposedGuards(c, s, id, txHash);
    MarkExposedAnswers(c, s, id, txHash);
    SameOpenSums(s, s', id, q);
  }

  lemma SameOpenSums(s: Ledger, s': Ledger, id: ReservationID, q: Measure)
    requires OnlyRecord(s, s', id) && q.SponsorReserved?
    requires var r, r' := s.reservations[id], s'.reservations[id];
             r'.Open() == r.Open() && r'.maximum == r.maximum && r'.request == r.request
    ensures Sum(q, s'.reservations) == Sum(q, s.reservations)
  {
    OnlyRecordPut(s, s', id);
    SumPut(q, s.reservations, id, s'.reservations[id]);
  }

  // What the check found still holds after the exposure.
  lemma ExposedKeepsReserve(c: Config, s: Ledger, id: ReservationID, txHash: Hash, balance: Wei)
    requires TimesOk(s) && Acceptable(c, s, s.lastSeen) && CheckSponsorCapacity(c, s, id, balance).result.Ok?
    requires MarkExposed(c, CheckSponsorCapacity(c, s, id, balance).after, id, txHash).result.Ok?
    ensures var s' := MarkExposed(c, CheckSponsorCapacity(c, s, id, balance).after, id, txHash).after;
            && id in s.reservations && s.reservations[id].request.network in c.policy.networks
            && var r := s.reservations[id];
            && Kept(c, s'.reservations, r.request.network, r.request.sponsor) <= balance
  {
    CheckKeepsReserve(c, s, id, balance);
    CheckedIs(c, s, id, balance);
    var r := s.reservations[id];
    ExposureSums(c, CheckSponsorCapacity(c, s, id, balance).after, id, txHash, SponsorReserved(r.request.network, r.request.sponsor));
  }

  lemma CheckGuards(c: Config, s: Ledger, id: ReservationID, balance: Wei)
    requires CheckSponsorCapacity(c, s, id, balance).result.Ok?
    ensures Acceptable(c, s, s.lastSeen)
  {
  }

  lemma ExposeAdvance(c: Config, run: Run, id: ReservationID, txHash: Hash)
    ensures Advance(c, run, DoExpose(id, txHash)).ledger == MarkExposed(c, run.ledger, id, txHash).after
  {
  }

  lemma HandedLedger(p: M.Params, s: M.State, i: Incident, balance: Wei)
    requires i.signed.Some? && M.AttemptOf(i) in s.books.ledger.attempts && M.ExposeAndSend(p, s, i, balance).sends != s.sends
    ensures var rid, ledger := s.books.ledger.attempts[M.AttemptOf(i)], s.books.ledger;
            var checked := CheckSponsorCapacity(p.ledger, ledger, rid, balance);
            && checked.result.Ok? && MarkExposed(p.ledger, checked.after, rid, i.txHash).result.Ok?
            && M.ExposeAndSend(p, s, i, balance).books.ledger == MarkExposed(p.ledger, checked.after, rid, i.txHash).after
  {
    HandsOver(p, s, i, balance);
    var rid := s.books.ledger.attempts[M.AttemptOf(i)];
    CheckAdvance(p.ledger, s.books, rid, balance);
    ExposeAdvance(p.ledger, Advance(p.ledger, s.books, DoCheck(rid, balance)), rid, i.txHash);
  }

  lemma HandedKeepsReserve(p: M.Params, s: M.State, i: Incident, balance: Wei)
    requires p.ledger.Valid() && BudgetTheorems.Inv(p.ledger, s.books) && CoveredBy(p, s.books.ledger, i)
    requires i.signed.Some? && M.AttemptOf(i) in s.books.ledger.attempts && M.ExposeAndSend(p, s, i, balance).sends != s.sends
    ensures ReserveKept(p, M.ExposeAndSend(p, s, i, balance).books.ledger, balance)
  {
    var ledger := s.books.ledger;
    var rid := ledger.attempts[M.AttemptOf(i)];
    HandedLedger(p, s, i, balance);
    CheckGuards(p.ledger, ledger, rid, balance);
    ExposedKeepsReserve(p.ledger, ledger, rid, i.txHash, balance);
    assert ValidReservation(p.ledger, ledger.reservations[rid]);
  }

  lemma SendKeepsReserve(p: M.Params, s: M.State, balance: Wei, observedAt: Time, clock: Time)
    requires p.ledger.Valid() && Solvent(p, s) && M.DoSend(p, s, balance, observedAt, clock).sends != s.sends
    ensures ReserveKept(p, M.DoSend(p, s, balance, observedAt, clock).books.ledger, balance)
  {
    SendIs(p, s, balance, observedAt, clock);
    var i, restored := s.disk.incidents[s.phase.id], s.(books := Before(p, s, balance, observedAt, clock));
    RestoreSolvent(p, s, s.phase.id, balance, observedAt, clock);
    assert Backed(p, restored.books.ledger, restored.history, i);
    HandedKeepsReserve(p, restored, i, balance);
  }

  lemma FundSends(p: M.Params, s: M.State, prices: M.Prices, balance: Wei, observedAt: Time, clock: Time)
    ensures M.DoFund(p, s, prices, balance, observedAt, clock).sends == s.sends
  {
  }

  lemma QuietSends(p: M.Params, s: M.State, event: M.Event)
    requires M.Quiet(event)
    ensures M.NextQuiet(p, s, event).sends == s.sends
  {
    if event.Budget? {
      BudgetShape(p, s, event.command);
    } else if event.Fund? {
      FundSends(p, s, event.prices, event.balance, event.observedAt, event.clock);
    } else {
      QuietStep(p, s, event);
    }
  }

  lemma OthersSendNothing(p: M.Params, s: M.State, event: M.Event)
    requires !event.Send?
    ensures M.Next(p, s, event).sends == s.sends
  {
    if M.Unsigning(event) {
      UnsignedStep(p, s, event);
    } else if M.Persisting(event) {
      PersistedStep(p, s, event);
    } else if M.Reconciling(event) {
      ReconciledStep(p, s, event);
    } else {
      QuietSends(p, s, event);
    }
  }

  // At every step of every run that hands a transaction to the network, the balance just read covers
  // the emergency reserve and every reservation then open, the transaction's own included.
  lemma EverySendKeepsReserve(p: M.Params, latest: bool, events: seq<M.Event>, event: M.Event)
    requires p.ledger.Valid() && M.Next(p, M.After(p, latest, events), event).sends != M.After(p, latest, events).sends
    ensures event.Send? && ReserveKept(p, M.Next(p, M.After(p, latest, events), event).books.ledger, event.balance)
  {
    var s := M.After(p, latest, events);
    if event.Send? {
      RunSolvent(p, latest, events);
      SendNext(p, s, event.balance, event.observedAt, event.clock);
      SendKeepsReserve(p, s, event.balance, event.observedAt, event.clock);
    } else {
      OthersSendNothing(p, s, event);
    }
  }
}
