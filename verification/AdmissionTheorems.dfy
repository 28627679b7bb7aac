/** Limits over the whole admission history, and the exactness of retry times. */
module AdmissionTheorems {
  import opened Prelude
  import opened AdmissionModel

  // ---------- Counting lemmas ----------

  lemma {:induction false} CountInConcat(sel: Selector, a: seq<Record>, b: seq<Record>, after: Time, upTo: Time)
    ensures CountIn(sel, a + b, after, upTo) == CountIn(sel, a, after, upTo) + CountIn(sel, b, after, upTo)
    decreases |b|
  {
    if b == [] {
      assert a + b == a;
    } else {
      CountInConcat(sel, a, b[..|b| - 1], after, upTo);
      assert (a + b)[..|a + b| - 1] == a + b[..|b| - 1];
    }
  }

  lemma {:induction false} CountConcat(sel: Selector, a: seq<Record>, b: seq<Record>)
    ensures Count(sel, a + b) == Count(sel, a) + Count(sel, b)
    decreases |b|
  {
    if b == [] {
      assert a + b == a;
    } else {
      CountConcat(sel, a, b[..|b| - 1]);
      assert (a + b)[..|a + b| - 1] == a + b[..|b| - 1];
    }
  }

  lemma {:induction false} CountInOutside(sel: Selector, records: seq<Record>, after: Time, upTo: Time)
    requires forall i | 0 <= i < |records| :: records[i].admittedAt <= after || upTo < records[i].admittedAt
    ensures CountIn(sel, records, after, upTo) == 0
  {
    if records != [] {
      CountInOutside(sel, records[..|records| - 1], after, upTo);
    }
  }

  lemma {:induction false} CountInNarrow(sel: Selector, records: seq<Record>, after: Time, upTo: Time, after': Time, upTo': Time)
    requires after <= after' && forall i | 0 <= i < |records| :: records[i].admittedAt <= upTo
    ensures CountIn(sel, records, after', upTo') <= CountIn(sel, records, after, upTo)
  {
    if records != [] {
      CountInNarrow(sel, records[..|records| - 1], after, upTo, after', upTo');
    }
  }

  lemma {:induction false} CountInCount(sel: Selector, records: seq<Record>, after: Time, upTo: Time)
    ensures CountIn(sel, records, after, upTo) <= Count(sel, records) <= |records|
  {
    if records != [] {
      CountInCount(sel, records[..|records| - 1], after, upTo);
    }
  }

  lemma {:induction false} CountInAll(sel: Selector, records: seq<Record>, after: Time, upTo: Time)
    requires forall i | 0 <= i < |records| :: after < records[i].admittedAt <= upTo
    ensures CountIn(sel, records, after, upTo) == Count(sel, records)
  {
    if records != [] {
      CountInAll(sel, records[..|records| - 1], after, upTo);
    }
  }

  lemma {:induction false} CountAny(records: seq<Record>)
    ensures Count(AnyRecord, records) == |records|
  {
    if records != [] {
      CountAny(records[..|records| - 1]);
    }
  }

  // ---------- The live records are a suffix of a sorted list ----------

  ghost predicate IsLiveSuffix(records: seq<Record>, window: Time, now: Time, k: nat) {
    && k <= |records|
    && (forall i | 0 <= i < k :: records[i].admittedAt + window <= now)
    && (forall i | k <= i < |records| :: records[i].admittedAt + window > now)
  }

  lemma {:induction false} LiveNone(records: seq<Record>, window: Time, now: Time)
    requires forall i | 0 <= i < |records| :: records[i].admittedAt + window <= now
    ensures Live(records, window, now) == []
  {
    if records != [] {
      LiveNone(records[..|records| - 1], window, now);
    }
  }

  lemma {:induction false} LiveIsSuffix(records: seq<Record>, window: Time, now: Time, k: nat)
    requires IsLiveSuffix(records, window, now, k)
    ensures Live(records, window, now) == records[k..]
  {
    if records != [] {
      if k == |records| {
        LiveNone(records, window, now);
      } else {
        LiveIsSuffix(records[..|records| - 1], window, now, k);
      }
    }
  }

  lemma {:induction false} LiveSplit(records: seq<Record>, window: Time, now: Time) returns (k: nat)
    requires Sorted(records)
    ensures IsLiveSuffix(records, window, now, k) && Live(records, window, now) == records[k..]
  {
    k := 0;
    while k < |records| && records[k].admittedAt + window <= now
      invariant 0 <= k <= |records|
      invariant forall i | 0 <= i < k :: records[i].admittedAt + window <= now
    {
      k := k + 1;
    }
    LiveIsSuffix(records, window, now, k);
  }

  lemma LiveTwice(records: seq<Record>, window: Time, now: Time, later: Time)
    requires Sorted(records) && now <= later
    ensures Live(Live(records, window, now), window, later) == Live(records, window, later)
  {
    var k := LiveSplit(records, window, now);
    var m := LiveSplit(records[k..], window, later);
    assert IsLiveSuffix(records, window, later, k + m) by {
      forall i | k <= i < |records| ensures records[i] == records[k..][i - k] {
      }
    }
    LiveIsSuffix(records, window, later, k + m);
  }

  // ---------- Runs ----------

  datatype Call = Call(request: Request, clock: Time, stored1: bool, stored2: bool)

  // The state of the controller beside the list of everything it ever allowed.
  datatype Run = Run(controller: Controller, history: seq<Record>)

  ghost function Step(c: Config, s: Controller, call: Call): Outcome {
    Admit(c, s, call.request, call.clock, call.stored1, call.stored2)
  }

  function Asked(call: Call): Request { call.request.(observedAt := UNSET) }

  predicate InWindow(c: Config, history: seq<Record>, asked: Request, now: Time) {
    exists i | 0 <= i < |history| :: history[i].request == asked && now - c.window < history[i].admittedAt
  }

  // What an outside auditor writes down: every request that is answered Allowed, except one that was
  // written down before and whose window is not over.
  function Audited(c: Config, history: seq<Record>, asked: Request, now: Time, reason: Reason): seq<Record> {
    if reason == Allowed && !InWindow(c, history, asked, now) then history + [Record(asked, now)] else history
  }

  ghost function Advance(c: Config, run: Run, call: Call): Run {
    var o := Step(c, run.controller, call);
    Run(o.after, Audited(c, run.history, Asked(call), Clamp(run.controller.lastNow, call.clock), o.decision.reason))
  }

  ghost function Continue(c: Config, run: Run, calls: seq<Call>): Run
    decreases |calls|
  {
    if calls == [] then run
    else Advance(c, Continue(c, run, calls[..|calls| - 1]), calls[|calls| - 1])
  }

  ghost function After(c: Config, calls: seq<Call>): Run {
    Continue(c, Run(INITIAL, []), calls)
  }

  // ---------- What one call can do ----------

  ghost predicate Ages(c: Config, s: Controller, s': Controller) {
    s.lastNow <= s'.lastNow && s' == Aged(c, s, s'.lastNow)
  }

  ghost predicate Fails(c: Config, s: Controller, s': Controller, request: Request) {
    s.lastNow <= s'.lastNow && s' == RolledBack(Aged(c, s, s'.lastNow), request)
  }

  ghost predicate Admits(c: Config, s: Controller, s': Controller, request: Request) {
    var aged := Aged(c, s, s'.lastNow);
    && s.lastNow <= s'.lastNow
    && s' == Pushed(aged, request)
    && Verdict(c, aged, request).reason == Allowed
    && !Tracked(aged.records, request.AttemptKey())
  }

  // The request is allowed because it is listed, or it is listed because it is allowed; otherwise
  // the call leaves no record.
  ghost predicate Answered(c: Config, s: Controller, o: Outcome, asked: Request, now: Time) {
    if o.decision.reason == Allowed
    then (Ages(c, s, o.after) && Listed(o.after.records, asked) && o.after.lastNow == now) || (Admits(c, s, o.after, asked) && o.after.lastNow == now)
    else o.after == s || Ages(c, s, o.after) || Fails(c, s, o.after, asked)
  }

  ghost predicate Listed(records: seq<Record>, asked: Request) { exists i :: 0 <= i < |records| && records[i].request == asked }

  lemma EvaluateAnswered(c: Config, s: Controller, now: Time, asked: Request, stored1: bool, stored2: bool)
    requires s.lastNow <= now
    ensures Answered(c, s, Evaluate(c, Aged(c, s, now), asked, stored1, stored2), asked, now)
  {
    var aged := Aged(c, s, now);
    if Tracked(aged.records, asked.AttemptKey()) && TrackedRequest(aged.records, asked.AttemptKey()) == asked {
      assert Listed(aged.records, asked);
    }
  }

  lemma StepAnswered(c: Config, s: Controller, call: Call)
    ensures Answered(c, s, Step(c, s, call), Asked(call), Clamp(s.lastNow, call.clock))
  {
    if SkewOk(call.request.observedAt, call.clock) {
      EvaluateAnswered(c, s, Clamp(s.lastNow, call.clock), Asked(call), call.stored1, call.stored2);
    }
  }

  // ---------- The invariant of every run ----------

  // The list is sorted by admission time and holds exactly what the window still covers.
  ghost predicate Current(c: Config, s: Controller) {
    && Sorted(s.records)
    && forall i | 0 <= i < |s.records| :: s.lastNow - c.window < s.records[i].admittedAt <= s.lastNow
  }

  // The list is the end of the history; everything before it has left the window.
  ghost predicate Remembers(c: Config, run: Run) {
    var n := |run.history| - |run.controller.records|;
    && n >= 0
    && run.history[n..] == run.controller.records
    && forall i | 0 <= i < n :: run.history[i].admittedAt <= run.controller.lastNow - c.window
  }

  // Every half-open window over the whole history respects every limit.
  ghost predicate WindowOk(c: Config, history: seq<Record>, t: Time) {
    && CountIn(AnyRecord, history, t - c.rateWindow, t) <= c.rateLimit
    && (forall token :: CountIn(ByToken(token), history, t - c.window, t) <= c.tokenLimit)
    && (forall event :: CountIn(ByEvent(event), history, t - c.window, t) <= c.eventLimit)
    && |UnknownIn(history, t - c.window, t)| <= c.unknownLimit
  }

  ghost predicate DistinctAttempts(records: seq<Record>) {
    forall i, j | 0 <= i < j < |records| :: records[i].request.AttemptKey() != records[j].request.AttemptKey()
  }

  // latest knows the right tokens and never too early a time.
  ghost predicate LatestBounds(s: Controller) {
    && s.latest.Keys == UnknownKeys(s.records)
    && forall i | 0 <= i < |s.records| && s.records[i].request.unknown ::
         s.records[i].request.TokenKey() in s.latest && s.records[i].admittedAt <= s.latest[s.records[i].request.TokenKey()]
  }

  ghost predicate Inv(c: Config, run: Run) {
    && Current(c, run.controller)
    && Remembers(c, run)
    && (forall t :: WindowOk(c, run.history, t))
    && |run.controller.records| <= c.capacity
    && DistinctAttempts(run.controller.records)
    && LatestBounds(run.controller)
  }

  // ---------- Ageing ----------

  lemma AgedCurrent(c: Config, s: Controller, now: Time)
    requires Current(c, s) && s.lastNow <= now
    ensures Current(c, Aged(c, s, now))
  {
    var k := LiveSplit(s.records, c.window, now);
  }

  lemma AgedRemembers(c: Config, run: Run, now: Time)
    requires Current(c, run.controller) && Remembers(c, run) && run.controller.lastNow <= now
    ensures Remembers(c, Run(Aged(c, run.controller, now), run.history))
  {
    var k := LiveSplit(run.controller.records, c.window, now);
    TailOf(run.history, run.controller.records, |run.history| - |run.controller.records|, k, now - c.window);
  }

  lemma TailOf(history: seq<Record>, records: seq<Record>, n: nat, k: nat, until: Time)
    requires n <= |history| && history[n..] == records && k <= |records|
    requires forall i | 0 <= i < n :: history[i].admittedAt <= until
    requires forall i | 0 <= i < k :: records[i].admittedAt <= until
    ensures n + k <= |history| && history[n + k..] == records[k..]
    ensures forall i | 0 <= i < n + k :: history[i].admittedAt <= until
  {
    assert history[n + k..] == history[n..][k..];
    forall i | 0 <= i < n + k ensures history[i].admittedAt <= until {
      if n <= i {
        assert history[n..][i - n] == history[i];
      }
    }
  }

  lemma UnknownKeysMember(records: seq<Record>, i: nat)
    requires i < |records| && records[i].request.unknown
    ensures records[i].request.TokenKey() in UnknownKeys(records)
  {
  }

  lemma UnknownKeysSuffix(records: seq<Record>, k: nat)
    requires k <= |records|
    ensures UnknownKeys(records[k..]) <= UnknownKeys(records)
  {
    forall key | key in UnknownKeys(records[k..]) ensures key in UnknownKeys(records) {
      var i :| 0 <= i < |records[k..]| && records[k..][i].request.unknown && records[k..][i].request.TokenKey() == key;
      UnknownKeysMember(records, i + k);
    }
  }

  lemma AgedLatest(c: Config, s: Controller, now: Time)
    requires Current(c, s) && LatestBounds(s) && s.lastNow <= now
    ensures LatestBounds(Aged(c, s, now))
  {
    var k := LiveSplit(s.records, c.window, now);
    var aged := Aged(c, s, now);
    UnknownKeysSuffix(s.records, k);
    assert aged.latest.Keys == UnknownKeys(aged.records);
    forall i | 0 <= i < |aged.records| && aged.records[i].request.unknown
      ensures aged.records[i].request.TokenKey() in aged.latest
      ensures aged.records[i].admittedAt <= aged.latest[aged.records[i].request.TokenKey()]
    {
      UnknownKeysMember(aged.records, i);
      assert aged.records[i] == s.records[i + k];
    }
  }

  lemma AgedInv(c: Config, run: Run, now: Time)
    requires Inv(c, run) && run.controller.lastNow <= now
    ensures Inv(c, Run(Aged(c, run.controller, now), run.history))
  {
    AgedCurrent(c, run.controller, now);
    AgedRemembers(c, run, now);
    AgedLatest(c, run.controller, now);
    var k := LiveSplit(run.controller.records, c.window, now);
  }

  // ---------- Rolling back ----------

  lemma RolledBackBounds(c: Config, s: Controller, request: Request)
    requires Current(c, s) && LatestBounds(s)
    ensures LatestBounds(RolledBack(s, request))
  {
    var s' := RolledBack(s, request);
    assert s'.latest.Keys == s.latest.Keys;
  }

  lemma RolledBackKeeps(s: Controller, request: Request)
    ensures RolledBack(s, request).records == s.records && RolledBack(s, request).lastNow == s.lastNow
  {
  }

  lemma RolledBackInv(c: Config, run: Run, request: Request)
    requires Inv(c, run)
    ensures Inv(c, Run(RolledBack(run.controller, request), run.history))
  {
    RolledBackKeeps(run.controller, request);
    RolledBackBounds(c, run.controller, request);
  }

  // ---------- Admitting ----------

  lemma PushedLatest(c: Config, s: Controller, request: Request)
    requires Current(c, s) && LatestBounds(s)
    ensures LatestBounds(Pushed(s, request))
  {
    var s' := Pushed(s, request);
    UnknownKeysPush(s.records, Record(request, s.lastNow));
    assert s'.latest.Keys == UnknownKeys(s'.records);
  }

  lemma UnknownKeysPush(records: seq<Record>, r: Record)
    ensures UnknownKeys(records + [r]) == UnknownKeys(records) + (if r.request.unknown then {r.request.TokenKey()} else {})
  {
    var all := records + [r];
    forall key | key in UnknownKeys(records) ensures key in UnknownKeys(all) {
      var i :| 0 <= i < |records| && records[i].request.unknown && records[i].request.TokenKey() == key;
      assert all[i] == records[i];
      UnknownKeysMember(all, i);
    }
    if r.request.unknown {
      assert all[|records|] == r;
      UnknownKeysMember(all, |records|);
    }
  }

  // What the window (t - span, t] can hold once a record is admitted at now <= t: at most the
  // matching records the controller still remembers.
  lemma WindowCount(c: Config, run: Run, sel: Selector, span: Time, t: Time)
    requires Current(c, run.controller) && Remembers(c, run)
    requires run.controller.lastNow <= t && span <= c.window
    ensures var now := run.controller.lastNow;
            CountIn(sel, run.history, t - span, t) <= CountIn(sel, run.controller.records, now - span, now)
  {
    var s, h := run.controller, run.history;
    var n := |h| - |s.records|;
    assert h == h[..n] + s.records;
    CountInConcat(sel, h[..n], s.records, t - span, t);
    CountInOutside(sel, h[..n], t - span, t);
    CountInNarrow(sel, s.records, s.lastNow - span, s.lastNow, t - span, t);
  }

  lemma WindowUnknown(c: Config, run: Run, t: Time)
    requires Current(c, run.controller) && Remembers(c, run) && run.controller.lastNow <= t
    ensures UnknownIn(run.history, t - c.window, t) <= UnknownKeys(run.controller.records)
  {
    var s, h := run.controller, run.history;
    var n := |h| - |s.records|;
    forall key | key in UnknownIn(h, t - c.window, t) ensures key in UnknownKeys(s.records) {
      var i :| 0 <= i < |h| && h[i].request.unknown && t - c.window < h[i].admittedAt <= t && h[i].request.TokenKey() == key;
      StillListed(c, run, t, i);
      UnknownKeysMember(s.records, i - n);
    }
  }

  // A record a later window covers is still in the list.
  lemma StillListed(c: Config, run: Run, t: Time, i: nat)
    requires Remembers(c, run) && run.controller.lastNow <= t && i < |run.history| && t - c.window < run.history[i].admittedAt
    ensures var n := |run.history| - |run.controller.records|;
            n <= i && run.history[i] == run.controller.records[i - n]
  {
  }

  lemma SubsetSize<T>(a: set<T>, b: set<T>)
    requires a <= b
    ensures |a| <= |b|
  {
    if a != {} {
      var x :| x in a;
      SubsetSize(a - {x}, b - {x});
    }
  }

  // What an allowing verdict has checked.
  ghost predicate HasRoom(c: Config, s: Controller, request: Request) {
    && CountIn(AnyRecord, s.records, s.lastNow - c.rateWindow, s.lastNow) < c.rateLimit
    && Count(ByToken(request.TokenKey()), s.records) < c.tokenLimit
    && Count(ByEvent(request.EventKey()), s.records) < c.eventLimit
    && Count(AnyRecord, s.records) < c.capacity
  }

  ghost predicate HasUnknownRoom(c: Config, s: Controller, request: Request) {
    request.unknown ==> request.TokenKey() in UnknownKeys(s.records) || |UnknownKeys(s.records)| < c.unknownLimit
  }

  lemma AllowedMeansRoom(c: Config, s: Controller, request: Request)
    ensures Verdict(c, s, request).reason == Allowed <==> HasRoom(c, s, request) && HasUnknownRoom(c, s, request)
  {
  }

  lemma PushedRate(c: Config, run: Run, request: Request, t: Time)
    requires c.Valid() && Current(c, run.controller) && Remembers(c, run) && WindowOk(c, run.history, t)
    requires HasRoom(c, run.controller, request)
    ensures CountIn(AnyRecord, run.history + [Record(request, run.controller.lastNow)], t - c.rateWindow, t) <= c.rateLimit
  {
    PushedCount(c, run, request, AnyRecord, c.rateWindow, t);
  }

  lemma PushedToken(c: Config, run: Run, request: Request, token: TokenID, t: Time)
    requires Current(c, run.controller) && Remembers(c, run) && WindowOk(c, run.history, t)
    requires HasRoom(c, run.controller, request)
    ensures CountIn(ByToken(token), run.history + [Record(request, run.controller.lastNow)], t - c.window, t) <= c.tokenLimit
  {
    var s := run.controller;
    PushedCount(c, run, request, ByToken(token), c.window, t);
    CountInCount(ByToken(token), s.records, s.lastNow - c.window, s.lastNow);
  }

  lemma PushedEvent(c: Config, run: Run, request: Request, event: EventID, t: Time)
    requires Current(c, run.controller) && Remembers(c, run) && WindowOk(c, run.history, t)
    requires HasRoom(c, run.controller, request)
    ensures CountIn(ByEvent(event), run.history + [Record(request, run.controller.lastNow)], t - c.window, t) <= c.eventLimit
  {
    var s := run.controller;
    PushedCount(c, run, request, ByEvent(event), c.window, t);
    CountInCount(ByEvent(event), s.records, s.lastNow - c.window, s.lastNow);
  }

  // Room at the time of admission is room in every window ending at or after it.
  lemma PushedWindow(c: Config, run: Run, request: Request, t: Time)
    requires c.Valid() && Current(c, run.controller) && Remembers(c, run)
    requires WindowOk(c, run.history, t) && WindowOk(c, run.history, run.controller.lastNow)
    requires HasRoom(c, run.controller, request) && HasUnknownRoom(c, run.controller, request)
    ensures WindowOk(c, run.history + [Record(request, run.controller.lastNow)], t)
  {
    var h' := run.history + [Record(request, run.controller.lastNow)];
    PushedRate(c, run, request, t);
    forall token ensures CountIn(ByToken(token), h', t - c.window, t) <= c.tokenLimit {
      PushedToken(c, run, request, token, t);
    }
    forall event ensures CountIn(ByEvent(event), h', t - c.window, t) <= c.eventLimit {
      PushedEvent(c, run, request, event, t);
    }
    UnknownBetween(c, run, t);
    PushedUnknown(c, run.history, run.controller, request, t,
                  UnknownIn(run.history, run.controller.lastNow - c.window, run.controller.lastNow));
  }

  lemma PushedCount(c: Config, run: Run, request: Request, sel: Selector, span: Time, t: Time)
    requires Current(c, run.controller) && Remembers(c, run) && span <= c.window
    ensures var now := run.controller.lastNow;
            var before := CountIn(sel, run.history, t - span, t);
            var total := CountIn(sel, run.history + [Record(request, now)], t - span, t);
            || total == before
            || (&& sel.Matches(Record(request, now))
                && total <= CountIn(sel, run.controller.records, now - span, now) + 1)
  {
    var now := run.controller.lastNow;
    var r := Record(request, now);
    assert (run.history + [r])[..|run.history|] == run.history;
    if now <= t {
      WindowCount(c, run, sel, span, t);
    }
  }

  lemma UnknownInPush(history: seq<Record>, r: Record, after: Time, upTo: Time)
    ensures UnknownIn(history + [r], after, upTo) ==
            UnknownIn(history, after, upTo) +
            (if r.request.unknown && after < r.admittedAt <= upTo then {r.request.TokenKey()} else {})
  {
    var all := history + [r];
    forall key | key in UnknownIn(history, after, upTo) ensures key in UnknownIn(all, after, upTo) {
      var i :| 0 <= i < |history| && history[i].request.unknown && after < history[i].admittedAt <= upTo && history[i].request.TokenKey() == key;
      assert all[i] == history[i];
    }
    if r.request.unknown && after < r.admittedAt <= upTo {
      assert all[|history|] == r;
    }
  }

  lemma KeysAreWindow(c: Config, run: Run)
    requires Current(c, run.controller) && Remembers(c, run)
    ensures var now := run.controller.lastNow; UnknownKeys(run.controller.records) <= UnknownIn(run.history, now - c.window, now)
  {
    var s, h := run.controller, run.history;
    var n := |h| - |s.records|;
    forall key | key in UnknownKeys(s.records) ensures key in UnknownIn(h, s.lastNow - c.window, s.lastNow) {
      var i :| 0 <= i < |s.records| && s.records[i].request.unknown && s.records[i].request.TokenKey() == key;
      assert h[i + n] == s.records[i];
    }
  }

  // The remembered unknown tokens lie between those of a later window and those of the present one.
  lemma UnknownBetween(c: Config, run: Run, t: Time)
    requires Current(c, run.controller) && Remembers(c, run)
    ensures run.controller.lastNow <= t ==> UnknownIn(run.history, t - c.window, t) <= UnknownKeys(run.controller.records)
    ensures UnknownKeys(run.controller.records) <= UnknownIn(run.history, run.controller.lastNow - c.window, run.controller.lastNow)
  {
    KeysAreWindow(c, run);
    if run.controller.lastNow <= t {
      WindowUnknown(c, run, t);
    }
  }

  lemma PushedUnknown(c: Config, history: seq<Record>, s: Controller, request: Request, t: Time, current: set<TokenID>)
    requires s.lastNow <= t ==> UnknownIn(history, t - c.window, t) <= UnknownKeys(s.records)
    requires UnknownKeys(s.records) <= current && |current| <= c.unknownLimit
    requires |UnknownIn(history, t - c.window, t)| <= c.unknownLimit && HasUnknownRoom(c, s, request)
    ensures |UnknownIn(history + [Record(request, s.lastNow)], t - c.window, t)| <= c.unknownLimit
  {
    var before := UnknownIn(history, t - c.window, t);
    UnknownInPush(history, Record(request, s.lastNow), t - c.window, t);
    if request.unknown && s.lastNow <= t {
      AddKey(before, UnknownKeys(s.records), current, request.TokenKey(), c.unknownLimit);
    }
  }

  lemma AddKey(before: set<TokenID>, keys: set<TokenID>, current: set<TokenID>, key: TokenID, limit: nat)
    requires before <= keys <= current && |current| <= limit
    requires key in keys || |keys| < limit
    ensures |before + {key}| <= limit
  {
    SubsetSize(keys, current);
    if key in keys {
      SubsetSize(before + {key}, keys);
    } else {
      SubsetSize(before, keys);
    }
  }

  lemma PushedRemembers(c: Config, run: Run, request: Request)
    requires c.Valid() && Current(c, run.controller) && Remembers(c, run)
    ensures var s' := Pushed(run.controller, request);
            Current(c, s') && Remembers(c, Run(s', run.history + [Record(request, run.controller.lastNow)]))
  {
    var s, h, r := run.controller, run.history, Record(request, run.controller.lastNow);
    var n := |h| - |s.records|;
    assert (h + [r])[n..] == h[n..] + [r];
  }

  lemma PushedInv(c: Config, run: Run, request: Request)
    requires c.Valid() && Inv(c, run)
    requires Verdict(c, run.controller, request).reason == Allowed
    requires !Tracked(run.controller.records, request.AttemptKey())
    ensures Inv(c, Run(Pushed(run.controller, request), run.history + [Record(request, run.controller.lastNow)]))
  {
    AllowedMeansRoom(c, run.controller, request);
    CountAny(run.controller.records);
    PushedRemembers(c, run, request);
    PushedLatest(c, run.controller, request);
    forall t ensures WindowOk(c, run.history + [Record(request, run.controller.lastNow)], t) {
      PushedWindow(c, run, request, t);
    }
  }

  // ---------- Every run keeps the invariant ----------

  // What is listed is in the history and within its window, and the other way round.
  lemma ListedInWindow(c: Config, run: Run, asked: Request)
    requires Current(c, run.controller) && Remembers(c, run)
    ensures Listed(run.controller.records, asked) <==> InWindow(c, run.history, asked, run.controller.lastNow)
  {
    var s, h := run.controller, run.history;
    var n := |h| - |s.records|;
    if i :| 0 <= i < |s.records| && s.records[i].request == asked {
      assert h[n..][i] == s.records[i] && h[n + i] == h[n..][i];
    }
    if i :| 0 <= i < |h| && h[i].request == asked && s.lastNow - c.window < h[i].admittedAt {
      StillListed(c, run, s.lastNow, i);
      assert s.records[i - n].request == asked;
    }
  }

  lemma UntrackedNotListed(records: seq<Record>, asked: Request)
    requires !Tracked(records, asked.AttemptKey())
    ensures !Listed(records, asked)
  {
  }

  // The auditor's list is what the controller has pushed.
  lemma AuditedIs(c: Config, run: Run, call: Call)
    requires Inv(c, run)
    ensures var s, o, asked := run.controller, Step(c, run.controller, call), Asked(call);
            if o.decision.reason == Allowed && Admits(c, s, o.after, asked)
            then Advance(c, run, call).history == run.history + [Record(asked, o.after.lastNow)]
            else Advance(c, run, call).history == run.history
  {
    var s, o, asked := run.controller, Step(c, run.controller, call), Asked(call);
    StepAnswered(c, s, call);
    if o.decision.reason == Allowed {
      AgedInv(c, run, o.after.lastNow);
      var aged := Run(Aged(c, s, o.after.lastNow), run.history);
      ListedInWindow(c, aged, asked);
      if Admits(c, s, o.after, asked) {
        UntrackedNotListed(aged.controller.records, asked);
      }
    }
  }

  lemma InvStep(c: Config, run: Run, call: Call)
    requires c.Valid() && Inv(c, run)
    ensures Inv(c, Advance(c, run, call))
  {
    var s, o, asked := run.controller, Step(c, run.controller, call), Asked(call);
    StepAnswered(c, s, call);
    AuditedIs(c, run, call);
    if o.after != s {
      AgedInv(c, run, o.after.lastNow);
      var aged := Run(Aged(c, s, o.after.lastNow), run.history);
      if o.decision.reason == Allowed && Admits(c, s, o.after, asked) {
        PushedInv(c, aged, asked);
      } else if Fails(c, s, o.after, asked) {
        RolledBackInv(c, aged, asked);
      }
    }
  }

  lemma InvInitial(c: Config)
    requires c.Valid()
    ensures Inv(c, Run(INITIAL, []))
  {
    forall t ensures WindowOk(c, [], t) {
      assert UnknownIn([], t - c.window, t) == {};
    }
    assert UnknownKeys([]) == {};
  }

  lemma {:induction false} InvRun(c: Config, run: Run, calls: seq<Call>)
    requires c.Valid() && Inv(c, run)
    ensures Inv(c, Continue(c, run, calls))
    decreases |calls|
  {
    if calls != [] {
      InvRun(c, run, calls[..|calls| - 1]);
      InvStep(c, Continue(c, run, calls[..|calls| - 1]), calls[|calls| - 1]);
    }
  }

  // Whatever the clock and the disk do, among the requests answered Allowed there are at most
  // RateLimit in every rate window and, in every window, at most the token limit for each token, the
  // source event limit for each event and MaxNewUnknownTokens distinct unknown tokens.
  lemma HistoryWithinLimits(c: Config, calls: seq<Call>, t: Time)
    requires c.Valid()
    ensures WindowOk(c, After(c, calls).history, t)
  {
    InvInitial(c);
    InvRun(c, Run(INITIAL, []), calls);
  }

  // ---------- Retry times are exact ----------

  lemma {:induction false} CountInSame(sel: Selector, records: seq<Record>, after: Time, upTo: Time, after': Time, upTo': Time)
    requires after <= after' && forall i | 0 <= i < |records| :: records[i].admittedAt <= upTo && records[i].admittedAt <= upTo'
    requires forall i | 0 <= i < |records| && sel.Matches(records[i]) && after < records[i].admittedAt :: after' < records[i].admittedAt
    ensures CountIn(sel, records, after', upTo') == CountIn(sel, records, after, upTo)
  {
    if records != [] {
      CountInSame(sel, records[..|records| - 1], after, upTo, after', upTo');
    }
  }

  lemma {:induction false} CountInLess(sel: Selector, records: seq<Record>, after: Time, upTo: Time, after': Time, upTo': Time, f: nat)
    requires after <= after' && forall i | 0 <= i < |records| :: records[i].admittedAt <= upTo
    requires f < |records| && sel.Matches(records[f]) && after < records[f].admittedAt <= after'
    ensures CountIn(sel, records, after', upTo') < CountIn(sel, records, after, upTo)
  {
    if f == |records| - 1 {
      CountInNarrow(sel, records[..|records| - 1], after, upTo, after', upTo');
    } else {
      CountInLess(sel, records[..|records| - 1], after, upTo, after', upTo', f);
    }
  }

  // Where FirstExpiry finds its record.
  lemma {:induction false} FirstMatch(sel: Selector, records: seq<Record>, after: Time, upTo: Time, span: Time) returns (f: nat)
    requires CountIn(sel, records, after, upTo) > 0
    ensures f < |records| && sel.Matches(records[f]) && after < records[f].admittedAt
    ensures FirstExpiry(sel, records, after, span) == records[f].admittedAt + span
    ensures forall i | 0 <= i < f :: !(sel.Matches(records[i]) && after < records[i].admittedAt)
    decreases |records|
  {
    if sel.Matches(records[0]) && after < records[0].admittedAt {
      f := 0;
    } else {
      CountInConcat(sel, records[..1], records[1..], after, upTo);
      assert records == records[..1] + records[1..];
      CountInOne(sel, records[0], after, upTo);
      f := FirstMatch(sel, records[1..], after, upTo, span);
      f := f + 1;
    }
  }

  lemma CountInOne(sel: Selector, r: Record, after: Time, upTo: Time)
    ensures CountIn(sel, [r], after, upTo) == if sel.Matches(r) && after < r.admittedAt <= upTo then 1 else 0
  {
    assert [r][..0] == [];
  }

  // The count in the moving window drops exactly when the first matching record leaves it.
  lemma FirstExpiryExact(sel: Selector, records: seq<Record>, now: Time, later: Time, span: Time)
    requires Sorted(records) && now <= later && forall i | 0 <= i < |records| :: records[i].admittedAt <= now
    requires CountIn(sel, records, now - span, now) > 0
    ensures CountIn(sel, records, later - span, later) <= CountIn(sel, records, now - span, now)
    ensures CountIn(sel, records, later - span, later) == CountIn(sel, records, now - span, now) <==>
            later < FirstExpiry(sel, records, now - span, span)
  {
    var f := FirstMatch(sel, records, now - span, now, span);
    if later - span < records[f].admittedAt {
      CountInSame(sel, records, now - span, now, later - span, later);
    } else {
      CountInLess(sel, records, now - span, now, later - span, later, f);
    }
  }

  lemma CountInDropPrefix(sel: Selector, records: seq<Record>, k: nat, after: Time, upTo: Time)
    requires k <= |records| && forall i | 0 <= i < k :: records[i].admittedAt <= after
    ensures CountIn(sel, records[k..], after, upTo) == CountIn(sel, records, after, upTo)
  {
    CountInConcat(sel, records[..k], records[k..], after, upTo);
    CountInOutside(sel, records[..k], after, upTo);
    assert records == records[..k] + records[k..];
  }

  // Counting what is still live is counting in the moved window.
  lemma AgedCountIn(c: Config, s: Controller, sel: Selector, span: Time, later: Time)
    requires Current(c, s) && s.lastNow <= later && span <= c.window
    ensures CountIn(sel, Aged(c, s, later).records, later - span, later) == CountIn(sel, s.records, later - span, later)
  {
    var k := LiveSplit(s.records, c.window, later);
    CountInDropPrefix(sel, s.records, k, later - span, later);
  }

  lemma AgedCount(c: Config, s: Controller, sel: Selector, later: Time)
    requires c.Valid() && Current(c, s) && s.lastNow <= later
    ensures Count(sel, Aged(c, s, later).records) == CountIn(sel, s.records, later - c.window, later)
    ensures Count(sel, s.records) == CountIn(sel, s.records, s.lastNow - c.window, s.lastNow)
  {
    AgedCountIn(c, s, sel, c.window, later);
    AgedCurrent(c, s, later);
    CountInAll(sel, Aged(c, s, later).records, later - c.window, later);
    CountInAll(sel, s.records, s.lastNow - c.window, s.lastNow);
  }

  lemma RateExact(c: Config, s: Controller, later: Time)
    requires c.Valid() && Current(c, s) && s.lastNow <= later
    requires CountIn(AnyRecord, s.records, s.lastNow - c.rateWindow, s.lastNow) <= c.rateLimit
    ensures RateBlocked(c, Aged(c, s, later)) ==> RateBlocked(c, s)
    ensures RateBlocked(c, s) ==>
              (RateBlocked(c, Aged(c, s, later)) <==>
               later < FirstExpiry(AnyRecord, s.records, s.lastNow - c.rateWindow, c.rateWindow))
  {
    AgedCountIn(c, s, AnyRecord, c.rateWindow, later);
    CountInNarrow(AnyRecord, s.records, s.lastNow - c.rateWindow, s.lastNow, later - c.rateWindow, later);
    if RateBlocked(c, s) {
      FirstExpiryExact(AnyRecord, s.records, s.lastNow, later, c.rateWindow);
    }
  }

  lemma CountExact(c: Config, s: Controller, sel: Selector, limit: nat, later: Time)
    requires c.Valid() && Current(c, s) && s.lastNow <= later && 0 < limit
    requires Count(sel, s.records) <= limit
    ensures CountBlocked(Aged(c, s, later), sel, limit) ==> CountBlocked(s, sel, limit)
    ensures CountBlocked(s, sel, limit) ==>
              (CountBlocked(Aged(c, s, later), sel, limit) <==> later < Expiry(c, s, sel))
  {
    AgedCount(c, s, sel, later);
    CountInNarrow(sel, s.records, s.lastNow - c.window, s.lastNow, later - c.window, later);
    if CountBlocked(s, sel, limit) {
      FirstExpiryExact(sel, s.records, s.lastNow, later, c.window);
    }
  }

  // The record at i is an admission of this unknown token at this time.
  ghost predicate LastAt(records: seq<Record>, i: int, k: TokenID, t: Time) {
    0 <= i < |records| && records[i].request.unknown && records[i].request.TokenKey() == k && records[i].admittedAt == t
  }

  // latest is the time of the last listed admission of each unknown token.
  ghost predicate LatestExact(s: Controller) {
    && LatestBounds(s)
    && forall k | k in s.latest ::
         exists i :: LastAt(s.records, i, k, s.latest[k])
  }

  lemma LiveUnknownIsLater(c: Config, s: Controller, later: Time, key: TokenID)
    requires Current(c, s) && LatestBounds(s) && s.lastNow <= later
    requires key in UnknownKeys(Aged(c, s, later).records)
    ensures key in s.latest && later < s.latest[key] + c.window
  {
    var k := LiveSplit(s.records, c.window, later);
    var live := s.records[k..];
    var i :| 0 <= i < |live| && live[i].request.unknown && live[i].request.TokenKey() == key;
    assert live[i] == s.records[i + k];
  }

  lemma LaterUnknownIsLive(c: Config, s: Controller, later: Time, key: TokenID)
    requires Current(c, s) && LatestExact(s) && s.lastNow <= later
    requires key in s.latest && later < s.latest[key] + c.window
    ensures key in UnknownKeys(Aged(c, s, later).records)
  {
    var k := LiveSplit(s.records, c.window, later);
    var i :| LastAt(s.records, i, key, s.latest[key]);
    assert s.records[k..][i - k] == s.records[i];
    UnknownKeysMember(s.records[k..], i - k);
  }

  // An unknown token stays counted exactly until its last admission leaves the window.
  lemma AgedUnknownKeys(c: Config, s: Controller, later: Time, key: TokenID)
    requires Current(c, s) && LatestExact(s) && s.lastNow <= later
    ensures key in UnknownKeys(Aged(c, s, later).records) <==> key in s.latest && later < s.latest[key] + c.window
  {
    if key in UnknownKeys(Aged(c, s, later).records) {
      LiveUnknownIsLater(c, s, later, key);
    } else if key in s.latest && later < s.latest[key] + c.window {
      LaterUnknownIsLive(c, s, later, key);
    }
  }

  lemma {:induction false} EarliestExists(latest: map<TokenID, Time>, window: Time) returns (t: Time)
    requires latest != map[]
    ensures IsEarliest(latest, window, t)
    decreases |latest|
  {
    var k :| k in latest;
    var rest := latest - {k};
    MapRemoveSize(latest, k);
    if rest == map[] {
      t := latest[k] + window;
    } else {
      var m := EarliestExists(rest, window);
      t := if m < latest[k] + window then m else latest[k] + window;
      var j :| j in rest && m == rest[j] + window;
      assert j in latest && latest[j] == rest[j];
    }
    assert forall j | j in latest :: j == k || j in rest;
  }

  lemma EarliestIs(latest: map<TokenID, Time>, window: Time)
    requires latest != map[]
    ensures IsEarliest(latest, window, EarliestUnknown(latest, window))
  {
    var t := EarliestExists(latest, window);
  }

  lemma LiveKeysExact(latest: map<TokenID, Time>, live: set<TokenID>, window: Time, later: Time, t: Time, limit: nat)
    requires IsEarliest(latest, window, t) && |latest.Keys| == limit
    requires forall key :: key in live <==> key in latest && later < latest[key] + window
    ensures |live| >= limit <==> later < t
  {
    if later < t {
      assert live == latest.Keys;
    } else {
      var k :| k in latest && t == latest[k] + window;
      SubsetSize(live, latest.Keys - {k});
    }
  }

  lemma UnknownExact(c: Config, s: Controller, request: Request, later: Time)
    requires c.Valid() && Current(c, s) && LatestExact(s) && s.lastNow <= later
    requires |UnknownKeys(s.records)| <= c.unknownLimit
    requires UnknownBlocked(c, s, request)
    ensures UnknownBlocked(c, Aged(c, s, later), request) <==> later < EarliestUnknown(s.latest, c.window)
  {
    var live := UnknownKeys(Aged(c, s, later).records);
    forall key ensures key in live <==> key in s.latest && later < s.latest[key] + c.window {
      AgedUnknownKeys(c, s, later, key);
    }
    EarliestIs(s.latest, c.window);
    LiveKeysExact(s.latest, live, c.window, later, EarliestUnknown(s.latest, c.window), c.unknownLimit);
  }

  lemma UnknownOnlyUnblocks(c: Config, s: Controller, request: Request, later: Time)
    requires Current(c, s) && s.lastNow <= later && |UnknownKeys(s.records)| <= c.unknownLimit
    requires UnknownBlocked(c, Aged(c, s, later), request)
    ensures UnknownBlocked(c, s, request)
  {
    var k := LiveSplit(s.records, c.window, later);
    var live, keys := UnknownKeys(s.records[k..]), UnknownKeys(s.records);
    UnknownKeysSuffix(s.records, k);
    SubsetSize(live, keys - {request.TokenKey()});
  }

  // What the controller remembers is what the current window of the history holds.
  lemma RememberedCount(c: Config, run: Run, sel: Selector, span: Time)
    requires Current(c, run.controller) && Remembers(c, run) && span <= c.window
    ensures var now := run.controller.lastNow;
            CountIn(sel, run.controller.records, now - span, now) == CountIn(sel, run.history, now - span, now)
  {
    var n := |run.history| - |run.controller.records|;
    CountInDropPrefix(sel, run.history, n, run.controller.lastNow - span, run.controller.lastNow);
  }

  lemma RememberedCounts(c: Config, run: Run, token: TokenID, event: EventID)
    requires c.Valid() && Inv(c, run)
    ensures Count(ByToken(token), run.controller.records) <= c.tokenLimit
    ensures Count(ByEvent(event), run.controller.records) <= c.eventLimit
  {
    var s := run.controller;
    assert WindowOk(c, run.history, s.lastNow);
    RememberedCount(c, run, ByToken(token), c.window);
    RememberedCount(c, run, ByEvent(event), c.window);
    AgedCount(c, s, ByToken(token), s.lastNow);
    AgedCount(c, s, ByEvent(event), s.lastNow);
  }

  lemma RememberedRate(c: Config, run: Run)
    requires c.Valid() && Inv(c, run)
    ensures var s := run.controller; CountIn(AnyRecord, s.records, s.lastNow - c.rateWindow, s.lastNow) <= c.rateLimit
    ensures Count(AnyRecord, run.controller.records) <= c.capacity
  {
    assert WindowOk(c, run.history, run.controller.lastNow);
    RememberedCount(c, run, AnyRecord, c.rateWindow);
    CountAny(run.controller.records);
  }

  lemma RememberedUnknown(c: Config, run: Run)
    requires Current(c, run.controller) && Remembers(c, run) && WindowOk(c, run.history, run.controller.lastNow)
    ensures |UnknownKeys(run.controller.records)| <= c.unknownLimit
  {
    var now := run.controller.lastNow;
    KeysAreWindow(c, run);
    SubsetSize(UnknownKeys(run.controller.records), UnknownIn(run.history, now - c.window, now));
  }

  // Each counting limit, once reached, stays reached exactly until its own retry time; the limit on
  // unknown tokens is at most lifted.
  lemma LimitsAge(c: Config, run: Run, request: Request, later: Time)
    requires c.Valid() && Inv(c, run) && run.controller.lastNow <= later
    ensures var s, s' := run.controller, Aged(c, run.controller, later);
            var token, event := ByToken(request.TokenKey()), ByEvent(request.EventKey());
            && (RateBlocked(c, s') <==>
                RateBlocked(c, s) && later < FirstExpiry(AnyRecord, s.records, s.lastNow - c.rateWindow, c.rateWindow))
            && (CountBlocked(s', token, c.tokenLimit) <==> CountBlocked(s, token, c.tokenLimit) && later < Expiry(c, s, token))
            && (CountBlocked(s', event, c.eventLimit) <==> CountBlocked(s, event, c.eventLimit) && later < Expiry(c, s, event))
            && (CountBlocked(s', AnyRecord, c.capacity) <==> CountBlocked(s, AnyRecord, c.capacity) && later < Expiry(c, s, AnyRecord))
            && (UnknownBlocked(c, s', request) ==> UnknownBlocked(c, s, request))
  {
    var s := run.controller;
    RememberedRate(c, run);
    RememberedCounts(c, run, request.TokenKey(), request.EventKey());
    assert WindowOk(c, run.history, s.lastNow);
    RememberedUnknown(c, run);
    RateExact(c, s, later);
    CountExact(c, s, ByToken(request.TokenKey()), c.tokenLimit, later);
    CountExact(c, s, ByEvent(request.EventKey()), c.eventLimit, later);
    CountExact(c, s, AnyRecord, c.capacity, later);
    if UnknownBlocked(c, Aged(c, s, later), request) {
      UnknownOnlyUnblocks(c, s, request, later);
    }
  }

  // While only time passes, a denial lasts exactly until its retry time; for the limit on unknown
  // tokens this needs that its own retry time is right.
  lemma DenialLastsUntilRetry(c: Config, run: Run, request: Request, later: Time)
    requires c.Valid() && Inv(c, run) && run.controller.lastNow <= later
    requires var denied := Verdict(c, run.controller, request);
             && denied.reason != Allowed
             && (denied.reason == UnknownTokenRateLimited ==>
                   (UnknownBlocked(c, Aged(c, run.controller, later), request) <==> later < denied.retryAt))
    ensures var denied := Verdict(c, run.controller, request);
            Verdict(c, Aged(c, run.controller, later), request).reason == denied.reason <==> later < denied.retryAt
  {
    LimitsAge(c, run, request, later);
  }

  // ---------- Calls that admit nothing ----------

  // The reason of a verdict depends on the list and the time only.
  lemma SameReason(c: Config, s: Controller, t: Controller, request: Request)
    requires s.records == t.records && s.lastNow == t.lastNow
    ensures Verdict(c, s, request).reason == Verdict(c, t, request).reason
  {
  }

  // The list only lost what has expired.
  ghost predicate Aging(c: Config, s: Controller, s': Controller) {
    s.lastNow <= s'.lastNow && s'.records == Aged(c, s, s'.lastNow).records
  }

  // A stretch of calls that admits nothing, whether writes fail or not, only lets time pass.
  lemma {:induction false} IdleRun(c: Config, run: Run, calls: seq<Call>)
    requires c.Valid() && Inv(c, run) && Continue(c, run, calls).history == run.history
    ensures Aging(c, run.controller, Continue(c, run, calls).controller)
    decreases |calls|
  {
    if calls == [] {
      AgedNow(c, run.controller);
    } else {
      var before := calls[..|calls| - 1];
      var mid := Continue(c, run, before);
      InvRun(c, run, before);
      HistoryGrows(c, run, before);
      HistoryGrows(c, mid, [calls[|calls| - 1]]);
      IdleRun(c, run, before);
      IdleStep(c, mid, calls[|calls| - 1]);
      LiveTwice(run.controller.records, c.window, mid.controller.lastNow, Continue(c, run, calls).controller.lastNow);
    }
  }

  lemma AgedNow(c: Config, s: Controller)
    requires Current(c, s) && LatestBounds(s)
    ensures Aged(c, s, s.lastNow) == s
  {
    LiveIsSuffix(s.records, c.window, s.lastNow, 0);
  }

  lemma {:induction false} HistoryGrows(c: Config, run: Run, calls: seq<Call>)
    ensures run.history <= Continue(c, run, calls).history
    decreases |calls|
  {
    if calls != [] {
      HistoryGrows(c, run, calls[..|calls| - 1]);
    }
  }

  lemma IdleStep(c: Config, run: Run, call: Call)
    requires Inv(c, run) && Advance(c, run, call).history == run.history
    ensures Aging(c, run.controller, Advance(c, run, call).controller)
  {
    var s, s' := run.controller, Step(c, run.controller, call).after;
    StepAnswered(c, s, call);
    AuditedIs(c, run, call);
    AgedNow(c, s);
    if s' != s {
      RolledBackKeeps(Aged(c, s, s'.lastNow), Asked(call));
    }
  }

  // ---------- A request that is denied, and asked again ----------

  predicate IsLimit(reason: Reason) {
    || reason == GlobalRateLimited || reason == TokenAttemptsLimited || reason == SourceEventLimited
    || reason == UnknownTokenRateLimited || reason == CapacityLimited
  }

  lemma DeniedState(c: Config, s: Controller, call: Call)
    requires IsLimit(Step(c, s, call).decision.reason)
    ensures var aged := Aged(c, s, Clamp(s.lastNow, call.clock));
            var asked := call.request.(observedAt := UNSET);
            && Step(c, s, call) == Outcome(Verdict(c, aged, asked), aged)
            && !Tracked(aged.records, asked.AttemptKey()) && asked.Valid()
  {
  }

  lemma TrackedAges(c: Config, s: Controller, key: AttemptID, later: Time)
    requires Current(c, s) && !Tracked(s.records, key)
    ensures !Tracked(Aged(c, s, later).records, key)
  {
    var k := LiveSplit(s.records, c.window, later);
    var live := s.records[k..];
    assert forall i | 0 <= i < |live| :: live[i] == s.records[i + k];
  }

  lemma RepeatedVerdict(c: Config, s: Controller, call: Call, reason: Reason)
    requires SkewOk(call.request.observedAt, call.clock) && call.stored1 && IsLimit(reason)
    requires var asked := call.request.(observedAt := UNSET); asked.Valid()
    requires !Tracked(Aged(c, s, Clamp(s.lastNow, call.clock)).records, call.request.AttemptKey())
    ensures Step(c, s, call).decision.reason == reason <==>
            Verdict(c, Aged(c, s, Clamp(s.lastNow, call.clock)), call.request.(observedAt := UNSET)).reason == reason
  {
  }

  // The same request, after calls that admit nothing, is denied for the same reason exactly as if
  // only time had passed.
  lemma AskedAgain(c: Config, denied: Run, reason: Reason, asked: Request, between: seq<Call>, again: Call)
    requires c.Valid() && Inv(c, denied) && asked.Valid() && again.stored1 && IsLimit(reason)
    requires again.request.(observedAt := UNSET) == asked && SkewOk(again.request.observedAt, again.clock)
    requires !Tracked(denied.controller.records, asked.AttemptKey())
    requires Continue(c, denied, between).history == denied.history
    ensures var s := Continue(c, denied, between).controller;
            var later := Clamp(s.lastNow, again.clock);
            && denied.controller.lastNow <= later
            && (Step(c, s, again).decision.reason == reason <==> Verdict(c, Aged(c, denied.controller, later), asked).reason == reason)
  {
    IdleRun(c, denied, between);
    var s := Continue(c, denied, between).controller;
    var later := Clamp(s.lastNow, again.clock);
    LiveTwice(denied.controller.records, c.window, s.lastNow, later);
    TrackedAges(c, denied.controller, asked.AttemptKey(), later);
    RepeatedVerdict(c, s, again, reason);
    SameReason(c, Aged(c, s, later), Aged(c, denied.controller, later), asked);
  }
}
