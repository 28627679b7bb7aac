/**
 * Retry times are exact, failed writes included, except when every unknown token that leaves the window
 * first has had a write rolled back after its last admission; and a run in which that happens.
 */
module AdmissionRetry {
  import opened Prelude
  import opened AdmissionModel
  import opened AdmissionTheorems

  // A recount of the last admission of each unknown token.
  function TrueLatest(records: seq<Record>): map<TokenID, Time> {
    if records == [] then map[]
    else
      var last := records[|records| - 1];
      var before := TrueLatest(records[..|records| - 1]);
      if last.request.unknown then before[last.request.TokenKey() := last.admittedAt] else before
  }

  ghost function Recounted(s: Controller): Controller {
    s.(latest := TrueLatest(s.records))
  }

  lemma {:induction false} TrueLatestExact(lastNow: Time, records: seq<Record>)
    requires Sorted(records)
    ensures LatestExact(Controller(lastNow, records, TrueLatest(records)))
  {
    if records == [] {
      assert UnknownKeys([]) == {};
    } else {
      var front, last := records[..|records| - 1], records[|records| - 1];
      TrueLatestExact(lastNow, front);
      assert records == front + [last];
      UnknownKeysPush(front, last);
      TrueLatestPush(Controller(lastNow, front, TrueLatest(front)), Controller(lastNow, records, TrueLatest(records)), last);
    }
  }

  lemma TrueLatestPush(s: Controller, s': Controller, last: Record)
    requires LatestExact(s) && s'.records == s.records + [last] && Sorted(s'.records)
    requires s'.latest == if last.request.unknown then s.latest[last.request.TokenKey() := last.admittedAt] else s.latest
    requires UnknownKeys(s'.records) == UnknownKeys(s.records) + (if last.request.unknown then {last.request.TokenKey()} else {})
    ensures LatestExact(s')
  {
    PushBounds(s, s', last);
    forall k | k in s'.latest ensures exists i :: LastAt(s'.records, i, k, s'.latest[k]) {
      if last.request.unknown && k == last.request.TokenKey() {
        assert LastAt(s'.records, |s.records|, k, s'.latest[k]);
      } else {
        var i :| LastAt(s.records, i, k, s.latest[k]);
        assert LastAt(s'.records, i, k, s'.latest[k]);
      }
    }
  }

  lemma PushBounds(s: Controller, s': Controller, last: Record)
    requires LatestBounds(s) && s'.records == s.records + [last] && Sorted(s'.records)
    requires s'.latest == if last.request.unknown then s.latest[last.request.TokenKey() := last.admittedAt] else s.latest
    requires UnknownKeys(s'.records) == UnknownKeys(s.records) + (if last.request.unknown then {last.request.TokenKey()} else {})
    ensures LatestBounds(s')
  {
    assert s'.latest.Keys == UnknownKeys(s'.records);
    forall i | 0 <= i < |s'.records| && s'.records[i].request.unknown
      ensures s'.records[i].request.TokenKey() in s'.latest
      ensures s'.records[i].admittedAt <= s'.latest[s'.records[i].request.TokenKey()]
    {
      UnknownKeysMember(s'.records, i);
      if i < |s.records| {
        assert s'.records[i] == s.records[i] && s'.records[|s.records|] == last;
      }
    }
  }

  lemma RecountBelow(c: Config, s: Controller, k: TokenID)
    requires Current(c, s) && LatestBounds(s) && k in s.latest
    ensures k in TrueLatest(s.records)
    ensures s.lastNow < TrueLatest(s.records)[k] + c.window && TrueLatest(s.records)[k] <= s.latest[k]
  {
    TrueLatestExact(s.lastNow, s.records);
    assert k in UnknownKeys(s.records);
    var i :| LastAt(s.records, i, k, TrueLatest(s.records)[k]);
  }

  lemma RecountKeys(s: Controller)
    requires Sorted(s.records) && LatestBounds(s)
    ensures TrueLatest(s.records).Keys == s.latest.Keys
  {
    TrueLatestExact(s.lastNow, s.records);
  }

  // The kept map never promises a retry before the recount does.
  lemma KeptIsNeverEarlier(c: Config, s: Controller)
    requires Current(c, s) && LatestBounds(s) && s.latest != map[]
    ensures EarliestUnknown(TrueLatest(s.records), c.window) <= EarliestUnknown(s.latest, c.window)
    ensures s.lastNow < EarliestUnknown(TrueLatest(s.records), c.window)
  {
    var recount := TrueLatest(s.records);
    RecountKeys(s);
    var k0 :| k0 in s.latest;
    assert k0 in recount;
    EarliestIs(s.latest, c.window);
    EarliestIs(recount, c.window);
    var k :| k in s.latest && EarliestUnknown(s.latest, c.window) == s.latest[k] + c.window;
    RecountBelow(c, s, k);
    var m :| m in recount && EarliestUnknown(recount, c.window) == recount[m] + c.window;
    RecountBelow(c, s, m);
  }

  // The true end of an unknown-token denial, after any run.
  lemma UnknownEnds(c: Config, s: Controller, request: Request, later: Time)
    requires c.Valid() && Current(c, s) && s.lastNow <= later
    requires |UnknownKeys(s.records)| <= c.unknownLimit && UnknownBlocked(c, s, request)
    ensures UnknownBlocked(c, Aged(c, s, later), request) <==> later < EarliestUnknown(TrueLatest(s.records), c.window)
  {
    TrueLatestExact(s.lastNow, s.records);
    UnknownExact(c, Recounted(s), request, later);
    assert Aged(c, Recounted(s), later).records == Aged(c, s, later).records;
  }

  // ---------- Rolled-back writes ----------

  // A write for a listed unknown token that failed and was taken back.
  datatype Slip = Slip(token: TokenID, at: Time)

  ghost predicate Slips(c: Config, s: Controller, call: Call) {
    var aged, asked := Aged(c, s, Clamp(s.lastNow, call.clock)), call.request.(observedAt := UNSET);
    && SkewOk(call.request.observedAt, call.clock) && call.stored1 && !call.stored2 && asked.Valid()
    && !Tracked(aged.records, asked.AttemptKey()) && Verdict(c, aged, asked).reason == Allowed
    && asked.unknown && asked.TokenKey() in UnknownKeys(aged.records)
  }

  ghost function SlipsOf(c: Config, calls: seq<Call>): set<Slip>
    decreases |calls|
  {
    if calls == [] then {}
    else
      var before, last := calls[..|calls| - 1], calls[|calls| - 1];
      SlipsOf(c, before) + NewSlip(c, After(c, before).controller, last)
  }

  ghost function NewSlip(c: Config, s: Controller, call: Call): set<Slip> {
    if Slips(c, s, call) then {Slip(call.request.TokenKey(), Clamp(s.lastNow, call.clock))} else {}
  }

  // No write of this token was taken back after its last listed admission.
  ghost predicate Untouched(records: seq<Record>, slips: set<Slip>, k: TokenID)
    requires k in TrueLatest(records)
  {
    forall slip | slip in slips && slip.token == k :: slip.at <= TrueLatest(records)[k]
  }

  // The kept map is the recount, except where a write was taken back later.
  ghost predicate Explained(s: Controller, slips: set<Slip>) {
    && (forall slip | slip in slips :: slip.at <= s.lastNow && (slip.token in s.latest ==> slip.at <= s.latest[slip.token]))
    && (forall k | k in s.latest && k in TrueLatest(s.records) ::
          s.latest[k] == TrueLatest(s.records)[k] || Slip(k, s.latest[k]) in slips)
  }

  lemma KeptIsRecountIff(c: Config, s: Controller, slips: set<Slip>, k: TokenID)
    requires Current(c, s) && LatestBounds(s) && Explained(s, slips) && k in s.latest
    ensures k in TrueLatest(s.records) && (s.latest[k] == TrueLatest(s.records)[k] <==> Untouched(s.records, slips, k))
  {
    RecountBelow(c, s, k);
  }

  lemma ExactUnique(lastNow: Time, records: seq<Record>, a: map<TokenID, Time>, b: map<TokenID, Time>)
    requires LatestExact(Controller(lastNow, records, a)) && LatestExact(Controller(lastNow, records, b))
    ensures a == b
  {
    forall k | k in a ensures a[k] == b[k] {
      var i :| LastAt(records, i, k, a[k]);
      var j :| LastAt(records, j, k, b[k]);
    }
  }

  lemma AgedExact(c: Config, s: Controller, now: Time)
    requires Current(c, s) && LatestExact(s) && s.lastNow <= now
    ensures LatestExact(Aged(c, s, now))
  {
    var aged := Aged(c, s, now);
    var k := LiveSplit(s.records, c.window, now);
    AgedLatest(c, s, now);
    forall key | key in aged.latest
      ensures exists i :: LastAt(aged.records, i, key, aged.latest[key])
    {
      LiveUnknownIsLater(c, s, now, key);
      var i :| LastAt(s.records, i, key, s.latest[key]);
      assert LastAt(aged.records, i - k, key, aged.latest[key]);
    }
  }

  // Ageing does not change the last admission of a token that is still listed.
  lemma RecountAges(c: Config, s: Controller, now: Time)
    requires Current(c, s) && s.lastNow <= now
    ensures TrueLatest(Aged(c, s, now).records) == Aged(c, Recounted(s), now).latest
  {
    TrueLatestExact(s.lastNow, s.records);
    AgedExact(c, Recounted(s), now);
    AgedCurrent(c, s, now);
    TrueLatestExact(now, Aged(c, s, now).records);
    ExactUnique(now, Aged(c, s, now).records, TrueLatest(Aged(c, s, now).records), Aged(c, Recounted(s), now).latest);
  }

  lemma AgedExplained(c: Config, s: Controller, slips: set<Slip>, now: Time)
    requires Current(c, s) && Explained(s, slips) && s.lastNow <= now
    ensures Explained(Aged(c, s, now), slips)
  {
    RecountAges(c, s, now);
  }

  lemma PushedExplained(s: Controller, slips: set<Slip>, request: Request)
    requires Explained(s, slips)
    ensures Explained(Pushed(s, request), slips)
  {
    assert (s.records + [Record(request, s.lastNow)])[..|s.records|] == s.records;
  }

  lemma RolledBackExplained(s: Controller, slips: set<Slip>, request: Request)
    requires Explained(s, slips)
    ensures Explained(RolledBack(s, request),
                      slips + (if request.unknown && request.TokenKey() in UnknownKeys(s.records) then {Slip(request.TokenKey(), s.lastNow)} else {}))
  {
  }

  // What a call does to the controller, and whether it slips.
  lemma CallCases(c: Config, s: Controller, call: Call)
    ensures var s', asked := Step(c, s, call).after, call.request.(observedAt := UNSET);
            var aged := Aged(c, s, Clamp(s.lastNow, call.clock));
            || (s' == s && NewSlip(c, s, call) == {})
            || (s' == aged && NewSlip(c, s, call) == {})
            || (s' == Pushed(aged, asked) && NewSlip(c, s, call) == {})
            || (&& s' == RolledBack(aged, asked)
                && NewSlip(c, s, call) ==
                   if asked.unknown && asked.TokenKey() in UnknownKeys(aged.records) then {Slip(asked.TokenKey(), aged.lastNow)} else {})
  {
  }

  lemma StepExplained(c: Config, s: Controller, slips: set<Slip>, call: Call)
    requires Current(c, s) && Explained(s, slips)
    ensures Explained(Step(c, s, call).after, slips + NewSlip(c, s, call))
  {
    var now, asked := Clamp(s.lastNow, call.clock), call.request.(observedAt := UNSET);
    CallCases(c, s, call);
    AgedExplained(c, s, slips, now);
    PushedExplained(Aged(c, s, now), slips, asked);
    RolledBackExplained(Aged(c, s, now), slips, asked);
    assert slips + {} == slips;
  }

  lemma {:induction false} RunExplained(c: Config, calls: seq<Call>)
    requires c.Valid()
    ensures Inv(c, After(c, calls)) && Explained(After(c, calls).controller, SlipsOf(c, calls))
    decreases |calls|
  {
    InvInitial(c);
    InvRun(c, Run(INITIAL, []), calls);
    if calls != [] {
      var before := calls[..|calls| - 1];
      RunExplained(c, before);
      StepExplained(c, After(c, before).controller, SlipsOf(c, before), calls[|calls| - 1]);
    }
  }

  // ---------- When the retry time is exact ----------

  // The unknown token whose last listed admission is earliest.
  ghost predicate LeavesFirst(records: seq<Record>, k: TokenID) {
    k in TrueLatest(records) && forall j | j in TrueLatest(records) :: TrueLatest(records)[k] <= TrueLatest(records)[j]
  }

  // Some token that leaves first has had no write taken back since.
  ghost predicate FirstIsUntouched(records: seq<Record>, slips: set<Slip>) {
    exists k :: LeavesFirst(records, k) && Untouched(records, slips, k)
  }

  lemma EarliestAgreesIff(c: Config, s: Controller, slips: set<Slip>)
    requires Current(c, s) && LatestBounds(s) && Explained(s, slips) && s.latest != map[]
    ensures EarliestUnknown(s.latest, c.window) == EarliestUnknown(TrueLatest(s.records), c.window) <==> FirstIsUntouched(s.records, slips)
  {
    var recount := TrueLatest(s.records);
    RecountKeys(s);
    var k0 :| k0 in s.latest;
    assert k0 in recount;
    EarliestIs(s.latest, c.window);
    EarliestIs(recount, c.window);
    forall k | k in s.latest ensures recount[k] <= s.latest[k] && (s.latest[k] == recount[k] <==> Untouched(s.records, slips, k)) {
      RecountBelow(c, s, k);
      KeptIsRecountIff(c, s, slips, k);
    }
    if EarliestUnknown(s.latest, c.window) == EarliestUnknown(recount, c.window) {
      var k :| k in s.latest && EarliestUnknown(s.latest, c.window) == s.latest[k] + c.window;
      assert LeavesFirst(s.records, k) && Untouched(s.records, slips, k);
    }
  }

  // After any run, the retry time of an unknown-token denial is exact if and only if some unknown
  // token that leaves the window first has had no write taken back since its last admission.
  lemma UnknownRetryExactIff(c: Config, calls: seq<Call>, request: Request)
    requires c.Valid() && UnknownBlocked(c, After(c, calls).controller, request)
    ensures var s := After(c, calls).controller;
            (forall later | s.lastNow <= later ::
               UnknownBlocked(c, Aged(c, s, later), request) <==> later < EarliestUnknown(s.latest, c.window)) <==>
            FirstIsUntouched(s.records, SlipsOf(c, calls))
  {
    RunExplained(c, calls);
    UnknownExactness(c, After(c, calls), SlipsOf(c, calls), request);
  }

  lemma UnknownExactness(c: Config, run: Run, slips: set<Slip>, request: Request)
    requires c.Valid() && Inv(c, run) && Explained(run.controller, slips) && UnknownBlocked(c, run.controller, request)
    ensures var s := run.controller;
            (forall later | s.lastNow <= later ::
               UnknownBlocked(c, Aged(c, s, later), request) <==> later < EarliestUnknown(s.latest, c.window)) <==>
            FirstIsUntouched(s.records, slips)
  {
    var s := run.controller;
    var retryAt, end := EarliestUnknown(s.latest, c.window), EarliestUnknown(TrueLatest(s.records), c.window);
    assert WindowOk(c, run.history, s.lastNow);
    RememberedUnknown(c, run);
    NotEmpty(c, s, request);
    KeptIsNeverEarlier(c, s);
    forall later | s.lastNow <= later ensures UnknownBlocked(c, Aged(c, s, later), request) <==> later < end {
      UnknownEnds(c, s, request, later);
    }
    assert UnknownBlocked(c, Aged(c, s, end), request) <==> end < end;
    EarliestAgreesIff(c, s, slips);
  }

  // After any run, let a request be denied by a limit, and let any calls follow that admit nothing.
  // Then the same request, at any clock reading, is denied for the same reason exactly when the
  // (clamped) time is before the retry time it was told; for the limit on unknown tokens, provided
  // a token that leaves first was untouched when it was told.
  lemma RetryAtIsExact(c: Config, calls: seq<Call>, first: Call, between: seq<Call>, again: Call)
    requires c.Valid() && again.stored1 && SkewOk(again.request.observedAt, again.clock)
    requires again.request.(observedAt := UNSET) == first.request.(observedAt := UNSET)
    requires IsLimit(Step(c, After(c, calls).controller, first).decision.reason)
    requires Step(c, After(c, calls).controller, first).decision.reason == UnknownTokenRateLimited ==>
               FirstIsUntouched(After(c, calls + [first]).controller.records, SlipsOf(c, calls + [first]))
    requires Continue(c, After(c, calls + [first]), between).history == After(c, calls + [first]).history
    ensures var denial := Step(c, After(c, calls).controller, first).decision;
            var s := Continue(c, After(c, calls + [first]), between).controller;
            Step(c, s, again).decision.reason == denial.reason <==> Clamp(s.lastNow, again.clock) < denial.retryAt
  {
    var run, denied, asked := After(c, calls), After(c, calls + [first]), first.request.(observedAt := UNSET);
    assert (calls + [first])[..|calls|] == calls;
    assert denied == Advance(c, run, first);
    RunExplained(c, calls + [first]);
    DeniedState(c, run.controller, first);
    RetryAfterDenial(c, denied, SlipsOf(c, calls + [first]), asked, between, again);
  }

  lemma RetryAfterDenial(c: Config, denied: Run, slips: set<Slip>, asked: Request, between: seq<Call>, again: Call)
    requires c.Valid() && Inv(c, denied) && Explained(denied.controller, slips) && asked.Valid() && again.stored1
    requires again.request.(observedAt := UNSET) == asked && SkewOk(again.request.observedAt, again.clock)
    requires !Tracked(denied.controller.records, asked.AttemptKey()) && IsLimit(Verdict(c, denied.controller, asked).reason)
    requires Verdict(c, denied.controller, asked).reason == UnknownTokenRateLimited ==> FirstIsUntouched(denied.controller.records, slips)
    requires Continue(c, denied, between).history == denied.history
    ensures var denial := Verdict(c, denied.controller, asked);
            var s := Continue(c, denied, between).controller;
            Step(c, s, again).decision.reason == denial.reason <==> Clamp(s.lastNow, again.clock) < denial.retryAt
  {
    AskedAgain(c, denied, Verdict(c, denied.controller, asked).reason, asked, between, again);
    var later := Clamp(Continue(c, denied, between).controller.lastNow, again.clock);
    if Verdict(c, denied.controller, asked).reason == UnknownTokenRateLimited {
      UnknownExactness(c, denied, slips, asked);
    }
    DenialLastsUntilRetry(c, denied, asked, later);
  }

  lemma NotEmpty(c: Config, s: Controller, request: Request)
    requires c.Valid() && LatestBounds(s) && UnknownBlocked(c, s, request)
    ensures s.latest != map[]
  {
    assert s.latest.Keys == UnknownKeys(s.records);
  }

  // Even then the caller is never told to come back too early.
  lemma UnknownRetryNeverTooEarly(c: Config, run: Run, request: Request, later: Time)
    requires c.Valid() && Inv(c, run) && UnknownBlocked(c, run.controller, request)
    requires run.controller.lastNow <= later && EarliestUnknown(run.controller.latest, c.window) <= later
    ensures !UnknownBlocked(c, Aged(c, run.controller, later), request)
  {
    var s := run.controller;
    assert WindowOk(c, run.history, s.lastNow);
    RememberedUnknown(c, run);
    NotEmpty(c, s, request);
    KeptIsNeverEarlier(c, s);
    UnknownEnds(c, s, request, later);
  }

  // ---------- A run in which it is not exact ----------

  const SMALL := Config(100, 100, 10, 10, 10, 1, 10)

  function Ask(attempt: nat, token: Address): Request {
    Request(1, 1, attempt, token, 1, 1, true, UNSET)
  }

  // One admission of token 7 at time 10, one more at 50 whose write fails.
  const FAILED_WRITE := [Call(Ask(1, 7), 10, true, true), Call(Ask(2, 7), 50, true, false)]

  lemma FirstAdmission()
    ensures Step(SMALL, INITIAL, FAILED_WRITE[0]).after ==
            Controller(10, [Record(Ask(1, 7), 10)], map[(1, 7) := 10])
  {
    var aged := Aged(SMALL, INITIAL, 10);
    assert aged == Controller(10, [], map[]);
    assert UnknownKeys([]) == {};
  }

  lemma SecondWriteFails()
    ensures Step(SMALL, Controller(10, [Record(Ask(1, 7), 10)], map[(1, 7) := 10]), FAILED_WRITE[1]).after ==
            Controller(50, [Record(Ask(1, 7), 10)], map[(1, 7) := 50])
  {
    var records := [Record(Ask(1, 7), 10)];
    var s := Controller(10, records, map[(1, 7) := 10]);
    LiveIsSuffix(records, 100, 50, 0);
    UnknownKeysMember(records, 0);
    assert Aged(SMALL, s, 50) == Controller(50, records, map[(1, 7) := 10]);
    assert Count(ByToken((1, 7)), records) <= 1 && Count(ByEvent((1, 1)), records) <= 1 by {
      CountInCount(ByToken((1, 7)), records, 0, 0);
      CountInCount(ByEvent((1, 1)), records, 0, 0);
    }
    CountInCount(AnyRecord, records, -50, 50);
  }

  // A request for another unknown token at time 60 is told to retry at 150, although the
  // limit stops applying at 110.
  lemma FailedWriteMakesRetryLate()
    ensures var s := After(SMALL, FAILED_WRITE).controller;
            && Verdict(SMALL, Aged(SMALL, s, 60), Ask(3, 8)) == Decision(UnknownTokenRateLimited, 150)
            && !UnknownBlocked(SMALL, Aged(SMALL, s, 110), Ask(3, 8))
  {
    FirstAdmission();
    SecondWriteFails();
    var start := Run(INITIAL, []);
    assert FAILED_WRITE[..1] == [FAILED_WRITE[0]] && FAILED_WRITE[..1][..0] == [];
    assert Continue(SMALL, start, []) == start;
    assert Continue(SMALL, start, FAILED_WRITE[..1]).controller == Step(SMALL, INITIAL, FAILED_WRITE[0]).after;
    var records := [Record(Ask(1, 7), 10)];
    var s := After(SMALL, FAILED_WRITE).controller;
    assert s == Controller(50, records, map[(1, 7) := 50]);
    LateVerdict(s);
    LiveNone(records, 100, 110);
    assert UnknownKeys([]) == {};
  }

  lemma LateCounts(records: seq<Record>)
    requires records == [Record(Ask(1, 7), 10)]
    ensures Count(ByToken((1, 8)), records) <= 1 && Count(ByEvent((1, 1)), records) <= 1 && CountIn(AnyRecord, records, -40, 60) <= 1
    ensures UnknownKeys(records) == {(1, 7)}
  {
    CountInCount(ByToken((1, 8)), records, 0, 0);
    CountInCount(ByEvent((1, 1)), records, 0, 0);
    CountInCount(AnyRecord, records, -40, 60);
    UnknownKeysMember(records, 0);
  }

  lemma LateEarliest(latest: map<TokenID, Time>)
    requires latest == map[(1, 7) := 50]
    ensures EarliestUnknown(latest, 100) == 150
  {
    assert latest[(1, 7)] == 50;
    assert IsEarliest(latest, 100, 150);
    EarliestIs(latest, 100);
  }

  lemma LateVerdict(s: Controller)
    requires s == Controller(50, [Record(Ask(1, 7), 10)], map[(1, 7) := 50])
    ensures Verdict(SMALL, Aged(SMALL, s, 60), Ask(3, 8)) == Decision(UnknownTokenRateLimited, 150)
  {
    LiveIsSuffix(s.records, 100, 60, 0);
    LateCounts(s.records);
    LateEarliest(s.latest);
    assert Aged(SMALL, s, 60) == Controller(60, s.records, s.latest);
  }
}
