/** Whatever was sent stands in the ledger as exposed, under its own hash, for good. */
module SigningExposure {
  import opened Prelude
  import opened BudgetModel
  import opened BudgetSteps
  import opened BudgetRuns
  import opened BudgetTheorems
  import opened RescueState
  import M = SigningModel

  function ReservationOf(p: M.Params, g: M.Signature): ReservationID { p.ledger.idOf(g.attempt) }

  ghost predicate Exposed(p: M.Params, ledger: Ledger, g: M.Signature) {
    Bound(ledger, ReservationOf(p, g), g.transaction.hash)
  }

  ghost predicate AllExposed(p: M.Params, books: Run, sent: set<M.Signature>) {
    BudgetTheorems.Inv(p.ledger, books) && forall g | g in sent :: Exposed(p, books.ledger, g)
  }

  lemma AdvanceKeeps(p: M.Params, books: Run, sent: set<M.Signature>, command: Command)
    requires p.ledger.Valid() && AllExposed(p, books, sent)
    ensures AllExposed(p, Advance(p.ledger, books, command), sent)
  {
    var before, after := books.ledger, Advance(p.ledger, books, command).ledger;
    InvStep(p.ledger, books, command);
    StepEffect(p.ledger, before, command);
    forall g | g in sent ensures Exposed(p, after, g) {
      EffectKeepsBound(p.ledger, before, after, ReservationOf(p, g), g.transaction.hash);
    }
  }

  lemma ExposeBinds(c: Config, s: Ledger, id: ReservationID, txHash: Hash, now: Time)
    requires id in s.reservations && s.reservations[id].id == id
    ensures var outcome := Stored(c, s, s.reservations[id], Expose(s.reservations[id], txHash, now), now);
            outcome.result.Ok? ==> Bound(outcome.after, id, txHash)
  {
  }

  lemma MarkExposedCases(c: Config, s: Ledger, id: ReservationID, txHash: Hash)
    requires MarkExposed(c, s, id, txHash).result.Ok?
    ensures id in s.reservations
    ensures MarkExposed(c, s, id, txHash) ==
            Stored(c, s, s.reservations[id], Expose(s.reservations[id], txHash, s.lastSeen), s.lastSeen)
  {
  }

  // A successful MarkExposed binds the reservation to the hash.
  lemma MarkExposedBinds(c: Config, s: Ledger, id: ReservationID, txHash: Hash)
    requires Filed(s) && MarkExposed(c, s, id, txHash).result.Ok?
    ensures Bound(MarkExposed(c, s, id, txHash).after, id, txHash)
  {
    MarkExposedCases(c, s, id, txHash);
    ExposeBinds(c, s, id, txHash, s.lastSeen);
  }

  lemma AttemptFound(c: Config, s: Ledger, attempt: Attempt)
    requires Structured(c, s) && attempt in s.attempts
    ensures s.attempts[attempt] == c.idOf(attempt)
  {
    assert ValidReservation(c, s.reservations[s.attempts[attempt]]);
  }

  // What sending does to the books: at most a sponsor check and an exposure, and nothing leaves
  // unless the exposure succeeded.
  lemma SendShape(p: M.Params, s: M.State, i: Incident, balance: Wei) returns (checked: Run)
    requires i.signed.Some? && M.AttemptOf(i) in s.books.ledger.attempts
    ensures var s' := M.ExposeAndSend(p, s, i, balance);
            var rid := s.books.ledger.attempts[M.AttemptOf(i)];
            && checked == Advance(p.ledger, s.books, DoCheck(rid, balance))
            && (|| s' == s.(books := checked)
                || s' == s.(books := Advance(p.ledger, checked, DoExpose(rid, i.txHash)))
                || (&& s' == M.Handed(s, Advance(p.ledger, checked, DoExpose(rid, i.txHash)), i)
                    && MarkExposed(p.ledger, checked.ledger, rid, i.txHash).result.Ok?))
  {
    checked := Advance(p.ledger, s.books, DoCheck(s.books.ledger.attempts[M.AttemptOf(i)], balance));
  }

  lemma SendKeepsExposed(p: M.Params, s: M.State, i: Incident, balance: Wei)
    requires p.ledger.Valid() && AllExposed(p, s.books, s.sent) && i.signed.Some? && i.signed.value.hash == i.txHash
    requires M.AttemptOf(i) in s.books.ledger.attempts
    ensures var s' := M.ExposeAndSend(p, s, i, balance);
            AllExposed(p, s'.books, s'.sent) && s.sent <= s'.sent
  {
    var g := M.Signature(M.AttemptOf(i), i.signed.value);
    var rid := s.books.ledger.attempts[g.attempt];
    var checked := SendShape(p, s, i, balance);
    AttemptFound(p.ledger, s.books.ledger, g.attempt);
    AdvanceKeeps(p, s.books, s.sent, DoCheck(rid, balance));
    ExposureKeeps(p, checked, s.sent, rid, g);
  }

  lemma SendStep(p: M.Params, s: M.State, balance: Wei, observedAt: Time, clock: Time)
    requires p.ledger.Valid() && AllExposed(p, s.books, s.sent)
    ensures var s' := M.DoSend(p, s, balance, observedAt, clock);
            AllExposed(p, s'.books, s'.sent) && s.sent <= s'.sent
  {
    if s.phase.Sending? && s.phase.id in M.InFlight(s.disk.incidents) && M.PayloadChecks(p, s.disk.incidents[s.phase.id]) {
      var i := s.disk.incidents[s.phase.id];
      var books := M.Restored(p, s.books, i, balance, observedAt, clock);
      RestoreKeeps(p, s, i, balance, observedAt, clock);
      if M.AttemptOf(i) in books.ledger.attempts {
        SendKeepsExposed(p, s.(books := books), i, balance);
      }
    }
  }

  lemma RestoreKeeps(p: M.Params, s: M.State, i: Incident, balance: Wei, observedAt: Time, clock: Time)
    requires p.ledger.Valid() && AllExposed(p, s.books, s.sent) && M.PayloadChecks(p, i)
    ensures AllExposed(p, M.Restored(p, s.books, i, balance, observedAt, clock), s.sent)
  {
    AdvanceKeeps(p, s.books, s.sent, DoReserve(M.RequestOf(p, i, M.RestoredQuote(p, i), balance, observedAt), clock));
  }

  lemma BudgetShape(p: M.Params, s: M.State, command: Command)
    ensures M.DoBudget(p, s, command) == s || M.DoBudget(p, s, command) == s.(books := Advance(p.ledger, s.books, command))
  {
  }

  lemma BudgetKeeps(p: M.Params, s: M.State, s': M.State, command: Command)
    requires p.ledger.Valid() && AllExposed(p, s.books, s.sent)
    requires s' == s || s' == s.(books := Advance(p.ledger, s.books, command))
    ensures AllExposed(p, s'.books, s'.sent) && s'.sent == s.sent
  {
    if s' != s {
      AdvanceKeeps(p, s.books, s.sent, command);
    }
  }

  lemma FundKeeps(p: M.Params, s: M.State, prices: M.Prices, balance: Wei, observedAt: Time, clock: Time)
    requires p.ledger.Valid() && AllExposed(p, s.books, s.sent)
    ensures var s' := M.DoFund(p, s, prices, balance, observedAt, clock);
            AllExposed(p, s'.books, s'.sent) && s'.sent == s.sent
  {
    if M.DoFund(p, s, prices, balance, observedAt, clock) != s {
      var i := s.disk.incidents[s.phase.id];
      var quote := M.QuoteOf(p, M.OperationOf(p, i).value, prices).value;
      AdvanceKeeps(p, s.books, s.sent, DoReserve(M.RequestOf(p, i, quote, balance, observedAt), clock));
    }
  }

  lemma ExposureKeeps(p: M.Params, books: Run, sent: set<M.Signature>, rid: ReservationID, g: M.Signature)
    requires p.ledger.Valid() && AllExposed(p, books, sent) && rid == ReservationOf(p, g)
    ensures var after := Advance(p.ledger, books, DoExpose(rid, g.transaction.hash));
            && AllExposed(p, after, sent)
            && (MarkExposed(p.ledger, books.ledger, rid, g.transaction.hash).result.Ok? ==> AllExposed(p, after, sent + {g}))
  {
    AdvanceKeeps(p, books, sent, DoExpose(rid, g.transaction.hash));
    if MarkExposed(p.ledger, books.ledger, rid, g.transaction.hash).result.Ok? {
      MarkExposedBinds(p.ledger, books.ledger, rid, g.transaction.hash);
    }
  }

  ghost predicate SameBooks(s: M.State, s': M.State) {
    s'.books == s.books && s'.sent == s.sent && s'.sends == s.sends
  }

  lemma UnsignedStep(p: M.Params, s: M.State, event: M.Event)
    requires M.Unsigning(event)
    ensures SameBooks(s, M.NextUnsigned(p, s, event))
  {
  }

  lemma ReconciledStep(p: M.Params, s: M.State, event: M.Event)
    requires M.Reconciling(event)
    ensures SameBooks(s, M.NextReconciled(p, s, event))
  {
  }

  lemma PersistedStep(p: M.Params, s: M.State, event: M.Event)
    requires M.Persisting(event) && !event.Send?
    ensures SameBooks(s, M.NextPersisted(p, s, event))
  {
  }

  lemma QuietStep(p: M.Params, s: M.State, event: M.Event)
    requires M.Quiet(event) && !event.Budget? && !event.Fund?
    ensures SameBooks(s, M.NextQuiet(p, s, event))
  {
  }

  lemma PersistedKeeps(p: M.Params, s: M.State, event: M.Event)
    requires p.ledger.Valid() && AllExposed(p, s.books, s.sent) && M.Persisting(event)
    ensures var s' := M.NextPersisted(p, s, event);
            AllExposed(p, s'.books, s'.sent) && s.sent <= s'.sent
  {
    if event.Send? {
      SendStep(p, s, event.balance, event.observedAt, event.clock);
    } else {
      PersistedStep(p, s, event);
    }
  }

  lemma QuietKeeps(p: M.Params, s: M.State, event: M.Event)
    requires p.ledger.Valid() && AllExposed(p, s.books, s.sent) && M.Quiet(event)
    ensures var s' := M.NextQuiet(p, s, event);
            AllExposed(p, s'.books, s'.sent) && s.sent <= s'.sent
  {
    if event.Budget? {
      BudgetShape(p, s, event.command);
      BudgetKeeps(p, s, M.NextQuiet(p, s, event), event.command);
    } else if event.Fund? {
      FundKeeps(p, s, event.prices, event.balance, event.observedAt, event.clock);
    } else {
      QuietStep(p, s, event);
    }
  }

  lemma StepKeepsExposed(p: M.Params, s: M.State, event: M.Event)
    requires p.ledger.Valid() && AllExposed(p, s.books, s.sent)
    ensures AllExposed(p, M.Next(p, s, event).books, M.Next(p, s, event).sent) && s.sent <= M.Next(p, s, event).sent
  {
    if M.Unsigning(event) {
      UnsignedStep(p, s, event);
    } else if M.Persisting(event) {
      PersistedKeeps(p, s, event);
    } else if M.Reconciling(event) {
      ReconciledStep(p, s, event);
    } else {
      QuietKeeps(p, s, event);
    }
  }

  lemma {:induction false} RunExposed(p: M.Params, latest: bool, events: seq<M.Event>)
    requires p.ledger.Valid()
    ensures AllExposed(p, M.After(p, latest, events).books, M.After(p, latest, events).sent)
    decreases |events|
  {
    if events == [] {
      InvInitial(p.ledger);
    } else {
      RunExposed(p, latest, events[..|events| - 1]);
      StepKeepsExposed(p, M.After(p, latest, events[..|events| - 1]), events[|events| - 1]);
    }
  }

  lemma {:induction false} SentStays(p: M.Params, latest: bool, events: seq<M.Event>, n: nat)
    requires p.ledger.Valid() && n <= |events|
    ensures M.After(p, latest, events[..n]).sent <= M.After(p, latest, events).sent
    decreases |events|
  {
    if n < |events| {
      var before := events[..|events| - 1];
      SentStays(p, latest, before, n);
      assert before[..n] == events[..n];
      RunExposed(p, latest, before);
      StepKeepsExposed(p, M.After(p, latest, before), events[|events| - 1]);
    } else {
      assert events[..n] == events;
    }
  }

  lemma BoundAttempt(p: M.Params, ledger: Ledger, g: M.Signature)
    requires p.ledger.Valid() && Structured(p.ledger, ledger) && Exposed(p, ledger, g)
    ensures ledger.reservations[ReservationOf(p, g)].request.attempt == g.attempt
  {
    assert ValidReservation(p.ledger, ledger.reservations[ReservationOf(p, g)]);
  }

  // A transaction sent at any point of a run is, at that point and at every later one, the one
  // its attempt's reservation is exposed or committed for; no attempt sends two transactions.
  lemma SentIsExposed(p: M.Params, latest: bool, events: seq<M.Event>, n: nat, g: M.Signature, other: M.Signature)
    requires p.ledger.Valid() && n <= |events| && g in M.After(p, latest, events[..n]).sent
    ensures var ledger := M.After(p, latest, events).books.ledger;
            && Bound(ledger, ReservationOf(p, g), g.transaction.hash)
            && ledger.reservations[ReservationOf(p, g)].request.attempt == g.attempt
    ensures other in M.After(p, latest, events).sent && other.attempt == g.attempt ==> other.transaction.hash == g.transaction.hash
  {
    SentStays(p, latest, events, n);
    RunExposed(p, latest, events);
    BoundAttempt(p, M.After(p, latest, events).books.ledger, g);
  }
}
