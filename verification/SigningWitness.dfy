/** One run in which a sponsor nonce is signed twice: a floor write fails and the clock goes back. */
module SigningWitness {
  import opened Prelude
  import opened RescueState
  import opened RescueStore
  import opened SigningModel
  import opened SigningTheorems
  import opened SigningRepeat
  import H = RescueHistory
  import B = BudgetModel
  import L = BudgetSteps
  import R = BudgetRuns
  import F = Fees

  // ---------- A small configuration ----------

  const LIMITS := B.Limits(10, 100, 100, 100)
  const LEDGER := B.Config(B.Policy(LIMITS, map[1 := B.NetworkPolicy(1, LIMITS, 0, 1, false)]), 10, (a: B.Attempt) => a.incident)
  const FEES := F.FeePolicy(1, 10, 1, 1, 1, 1, 0, 10, 10, false, false)
  const SETUP := Params(H.SETUP, LEDGER, 1, FEES, 0, map[], map[])
  const PRICES := Prices(1, 2)
  const QUOTE := B.CostQuote(1, 3, 10)

  function Case(id: IncidentID): Fresh { Fresh(H.NewIncident(id), Snapshot(1, 1, 10, 10), PRICES, 100, SECOND) }

  function RequestFrom(id: IncidentID): B.Request { B.Request(1, 1, id, B.Attempt(id, 1), QUOTE, 100, UNSET) }

  lemma FeesAre()
    ensures F.BuildFeeQuote(FEES, F.NativeAsset, Some(1), Some(2)) == Ok(F.FeeQuote(1, 3, 1, 3))
  {
    F.QuoteFormula(FEES, F.NativeAsset, 1, 2);
  }

  lemma QuoteIs(id: IncidentID)
    ensures Priced(SETUP, Case(id)) && QuoteFor(SETUP, Case(id)) == QUOTE && RequestFor(SETUP, Case(id)) == RequestFrom(id)
    ensures OperationOf(SETUP, PreparedWith(Case(id), 0)) == Some(F.Native(10, 0))
  {
    FeesAre();
    assert OperationOf(SETUP, PreparedWith(Case(id), 0)) == Some(F.Native(10, 0));
    assert F.SigningQuote(FEES, F.Native(10, 0), F.FeeQuote(1, 3, 1, 3)) == Ok(QUOTE);
  }

  lemma CaseIsStorable(disk: Store, id: IncidentID)
    requires id > 0 && id !in disk.incidents
    ensures Storable(SETUP, disk, Case(id))
  {
  }

  // ---------- The ledger grants both reservations ----------

  function Held(id: IncidentID): B.Reservation {
    B.Reservation(id, RequestFrom(id), 10, B.Held, 0, 0, SECOND, UNSET, SECOND)
  }

  const ONE_HELD := B.Ledger(map[1 := Held(1)], map[B.Attempt(1, 1) := 1], SECOND)

  lemma RequestIsValid(id: IncidentID)
    requires id > 0
    ensures B.ValidRequest(LEDGER, RequestFrom(id)) && L.MaximumOf(LEDGER, RequestFrom(id)) == 10
    ensures B.ValidReservation(LEDGER, Held(id))
  {
  }

  lemma SumOne(q: B.Measure)
    ensures B.Sum(q, map[]) == 0 && B.Sum(q, map[1 := Held(1)]) == B.Weight(q, Held(1))
  {
    B.SumPut(q, map[], 1, Held(1));
    assert map[][1 := Held(1)] == map[1 := Held(1)];
  }

  // At most ten reserved, nothing spent.
  lemma UsageIs(m: map<B.ReservationID, B.Reservation>, scope: B.Scope, now: Time)
    requires m == map[] || m == map[1 := Held(1)]
    ensures var usage := B.UsageOf(m, scope, now);
            !usage.feeOverrun && usage.reserved <= 10 && usage.hourSpent == usage.daySpent == usage.allSpent == 0
    ensures B.Sum(B.SponsorReserved(1, 1), m) <= 10
  {
    SumOne(B.Reserved(scope));
    SumOne(B.SpentSince(scope, now - HOUR));
    SumOne(B.SpentSince(scope, now - DAY));
    SumOne(B.SpentSince(scope, UNSET));
    SumOne(B.SponsorReserved(1, 1));
  }

  lemma NoBudgetError(m: map<B.ReservationID, B.Reservation>, id: IncidentID)
    requires id > 0 && (m == map[] || m == map[1 := Held(1)])
    ensures B.ValidRequest(LEDGER, RequestFrom(id)) && L.BudgetError(LEDGER, m, RequestFrom(id), SECOND).None?
  {
    RequestIsValid(id);
    UsageIs(m, B.Global, SECOND);
    UsageIs(m, B.Net(1), SECOND);
  }

  lemma EmptyAcceptable()
    ensures L.Acceptable(LEDGER, B.INITIAL, SECOND)
  {
    UsageIs(map[], B.Global, SECOND);
    UsageIs(map[], B.Net(1), SECOND);
  }

  lemma OneHeldAcceptable()
    ensures L.Acceptable(LEDGER, ONE_HELD, SECOND)
  {
    RequestIsValid(1);
    UsageIs(map[1 := Held(1)], B.Global, SECOND);
    UsageIs(map[1 := Held(1)], B.Net(1), SECOND);
    assert |map[1 := Held(1)]| == 1 && |map[B.Attempt(1, 1) := 1]| == 1;
  }

  lemma GrantsNew(c: B.Config, s: B.Ledger, request: B.Request, clock: Time)
    requires B.ValidRequest(c, request) && L.ClockOk(request.observedAt, clock) && s.lastSeen == clock
    requires L.Acceptable(c, s, clock) && request.attempt !in s.attempts && |s.reservations| < c.maxRecords
    requires L.BudgetError(c, s.reservations, request, clock).None? && c.idOf(request.attempt) !in s.reservations
    ensures var r := L.NewReservation(c, request, clock);
            L.Reserve(c, s, request, clock) ==
            L.Outcome(Ok(r), B.Ledger(s.reservations[r.id := r], s.attempts[request.attempt := r.id], clock))
  {
  }

  lemma FirstGranted()
    ensures L.Reserve(LEDGER, B.INITIAL, RequestFrom(1), SECOND) == L.Outcome(Ok(Held(1)), ONE_HELD)
  {
    RequestIsValid(1);
    EmptyAcceptable();
    NoBudgetError(map[], 1);
    GrantsNew(LEDGER, B.INITIAL, RequestFrom(1), SECOND);
  }

  lemma SecondGranted()
    ensures L.Reserve(LEDGER, ONE_HELD, RequestFrom(2), SECOND).result == Ok(Held(2))
  {
    RequestIsValid(2);
    OneHeldAcceptable();
    NoBudgetError(ONE_HELD.reservations, 2);
    GrantsNew(LEDGER, ONE_HELD, RequestFrom(2), SECOND);
  }

  lemma FundableBoth()
    ensures Fundable(SETUP, B.INITIAL, Case(1)) && Fundable(SETUP, ONE_HELD, Case(2))
    ensures Reserved(SETUP, R.Run(B.INITIAL, []), Case(1)).ledger == ONE_HELD
  {
    QuoteIs(1);
    QuoteIs(2);
    FirstGranted();
    SecondGranted();
  }

  // ---------- The run ----------

  const RUNNING := Start(false).(running := true)
  const DEADLINE: Time := SECOND + HOUR
  const BOOKS := R.Run(ONE_HELD, [])

  function SignedOne(): Incident { SignedRecord(PreparedWith(Case(1), 0), Transaction(1, 0, 0, 1, 3, 0, 1), SECOND) }

  // The first incident is signed.
  const SIGNED := RUNNING.(disk := Store(map[1 := SignedOne()], 0), books := BOOKS, phase := Written(1), clock := SECOND, blocked := true,
                           history := [Signature(B.Attempt(1, 1), Transaction(1, 0, 0, 1, 3, 0, 1))])

  // The floor write fails and the incident expires.
  const EXPIRED := SIGNED.(disk := Store(map[1 := ExpiredRecord(SignedOne())], 0), phase := Idle, clock := DEADLINE)

  lemma ExpiredIsValid()
    ensures RescueStore.Acceptable(SETUP.store, ExpiredRecord(SignedOne())) && ValidTransition(SignedOne(), ExpiredRecord(SignedOne()))
  {
  }

  lemma Expires()
    ensures DoExpire(SETUP, SIGNED.(phase := Idle), 1, DEADLINE) == EXPIRED
  {
    ExpiredIsValid();
    Taken(SETUP, SIGNED.(phase := Idle), SignedOne(), ExpiredRecord(SignedOne()), Idle, DEADLINE);
    assert map[1 := SignedOne()][1 := ExpiredRecord(SignedOne())] == map[1 := ExpiredRecord(SignedOne())];
  }

  lemma FirstBooks()
    ensures Reserved(SETUP, R.Run(B.INITIAL, []), Case(1)) == BOOKS
  {
    QuoteIs(1);
    FirstGranted();
  }

  lemma FirstState()
    ensures Priced(SETUP, Case(1)) && AfterSigning(SETUP, RUNNING, BOOKS, Case(1), 0, 1) == SIGNED
  {
    QuoteIs(1);
    assert TxFor(SETUP, Case(1), 0, 1) == Transaction(1, 0, 0, 1, 3, 0, 1);
    assert map[][1 := SignedOne()] == map[1 := SignedOne()];
  }

  lemma FirstSigned(events: seq<Event>)
    requires Onward(SETUP, Start(false), events) == RUNNING
    ensures Priced(SETUP, Case(1)) && Onward(SETUP, Start(false), events + SignEvents(SETUP, Case(1), 0, 1)) == SIGNED
  {
    FundableBoth();
    FirstBooks();
    FirstState();
    CaseIsStorable(RUNNING.disk, 1);
    Reserves(SETUP, RUNNING, Case(1), 0, 1);
    SignsNext(SETUP, RUNNING, BOOKS, Case(1), 0, 1);
    Chained(SETUP, Start(false), events, RUNNING, SignEvents(SETUP, Case(1), 0, 1), SIGNED);
  }

  lemma WriteFails(p: Params, s: State, events: seq<Event>, here: State)
    requires Onward(p, s, events) == here && here.phase.Written?
    ensures Onward(p, s, events + [WriteFloor(false)]) == here.(phase := if here.phase.id in here.disk.incidents then Idle else here.phase)
  {
    OneMore(p, s, events, WriteFloor(false), here, here.(phase := if here.phase.id in here.disk.incidents then Idle else here.phase));
  }

  lemma ExpireIs(p: Params, s: State, events: seq<Event>, here: State, id: IncidentID, now: Time, there: State)
    requires Onward(p, s, events) == here && DoExpire(p, here, id, now) == there
    ensures Onward(p, s, events + [Expire(id, now)]) == there
  {
    OneMore(p, s, events, Expire(id, now), here, there);
  }

  lemma Fails(events: seq<Event>)
    requires Onward(SETUP, Start(false), events) == SIGNED
    ensures Onward(SETUP, Start(false), events + [WriteFloor(false)] + [Expire(1, DEADLINE)]) == EXPIRED
  {
    WriteFails(SETUP, Start(false), events, SIGNED);
    Expires();
    ExpireIs(SETUP, Start(false), events + [WriteFloor(false)], SIGNED.(phase := Idle), 1, DEADLINE, EXPIRED);
  }

  lemma Recovers()
    ensures Onward(SETUP, Start(false), [Recovered]) == RUNNING
  {
    OneMore(SETUP, Start(false), [], Recovered, Start(false), RUNNING);
    assert [] + [Recovered] == [Recovered];
  }

  // The run up to the clock reading.
  lemma Reaching()
    ensures Priced(SETUP, Case(1))
    ensures After(SETUP, false, [Recovered] + SignEvents(SETUP, Case(1), 0, 1) + [WriteFloor(false)] + [Expire(1, DEADLINE)]) == EXPIRED
  {
    Recovers();
    FirstSigned([Recovered]);
    Fails([Recovered] + SignEvents(SETUP, Case(1), 0, 1));
  }

  lemma NoRefreshes(events: seq<Event>)
    requires Priced(SETUP, Case(1))
    requires events == [Recovered] + SignEvents(SETUP, Case(1), 0, 1) + [WriteFloor(false)] + [Expire(1, DEADLINE)]
    ensures forall k | 0 <= k < |events| :: !events[k].Refresh?
  {
  }

  lemma Expiring() returns (events: seq<Event>)
    ensures After(SETUP, false, events) == EXPIRED && CalmRun(SETUP, false, events)
  {
    Reaching();
    events := [Recovered] + SignEvents(SETUP, Case(1), 0, 1) + [WriteFloor(false)] + [Expire(1, DEADLINE)];
    NoRefreshes(events);
    NoRefreshIsCalm(SETUP, Start(false), events);
  }

  // The clock is read again, before the deadline.
  lemma ClockBack()
    ensures Risky(EXPIRED, SECOND)
  {
    assert !BlockedAt(EXPIRED.disk.incidents, SECOND);
    assert Reusable(EXPIRED.disk, EXPIRED.floor, 1);
  }

  lemma SecondIsStartable()
    ensures Startable(SETUP, EXPIRED, Case(2))
  {
    FundableBoth();
    CaseIsStorable(EXPIRED.disk, 2);
  }

  lemma RiskyRun(p: Params, events: seq<Event>, s: State, now: Time, f: Fresh)
    requires After(p, false, events) == s && CalmRun(p, false, events) && Risky(s, now) && Startable(p, s, f)
    ensures exists all :: Repeats(After(p, false, all).history)
  {
    RepeatPossibleIff(p, false, events, now, f);
    RepeatInRun(p, events, Refresh(now));
  }

  lemma NonceRepeats()
    ensures exists events :: Repeats(After(SETUP, false, events).history)
  {
    var events := Expiring();
    ClockBack();
    SecondIsStartable();
    RiskyRun(SETUP, events, EXPIRED, SECOND, Case(2));
  }

  lemma RepeatInRun(p: Params, events: seq<Event>, event: Event)
    requires CanRepeat(p, Next(p, After(p, false, events), event))
    ensures exists all :: Repeats(After(p, false, all).history)
  {
    var there := Next(p, After(p, false, events), event);
    var more :| CalmFrom(p, there, more) && Repeats(Onward(p, there, more).history);
    OneMore(p, Start(false), events, event, After(p, false, events), there);
    Join(p, Start(false), events + [event], there, more);
    assert Repeats(After(p, false, events + [event] + more).history);
  }
}
