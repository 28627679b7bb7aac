/** Every answer of the admission controller, in terms of the request and of what was allowed before. */
module AdmissionAnswers {
  import opened Prelude
  import opened AdmissionModel
  import opened AdmissionTheorems

  // The call gets as far as looking at the request.
  predicate Considered(call: Call) { SkewOk(call.request.observedAt, call.clock) && call.stored1 }

  // A listed record has the attempt's key and another request.
  ghost predicate Conflicts(records: seq<Record>, asked: Request) {
    exists i :: 0 <= i < |records| && records[i].request.AttemptKey() == asked.AttemptKey() && records[i].request != asked
  }

  ghost predicate ListedValid(records: seq<Record>) { forall i | 0 <= i < |records| :: records[i].request.Valid() && records[i].request.observedAt == UNSET }

  // ---------- Listed requests are valid ----------

  lemma AgedValid(c: Config, s: Controller, now: Time)
    requires Current(c, s) && ListedValid(s.records)
    ensures ListedValid(Aged(c, s, now).records)
  {
    var k := LiveSplit(s.records, c.window, now);
  }

  lemma StepValid(c: Config, s: Controller, call: Call)
    requires Current(c, s) && ListedValid(s.records)
    ensures ListedValid(Step(c, s, call).after.records)
  {
    AgedValid(c, s, Clamp(s.lastNow, call.clock));
    RolledBackKeeps(Aged(c, s, Clamp(s.lastNow, call.clock)), Asked(call));
  }

  lemma {:induction false} RunValid(c: Config, calls: seq<Call>)
    requires c.Valid()
    ensures ListedValid(After(c, calls).controller.records) && Inv(c, After(c, calls))
    decreases |calls|
  {
    if calls == [] {
      InvInitial(c);
    } else {
      var before := calls[..|calls| - 1];
      RunValid(c, before);
      InvStep(c, After(c, before), calls[|calls| - 1]);
      StepValid(c, After(c, before).controller, calls[|calls| - 1]);
    }
  }

  // ---------- Listed, conflicting or new ----------

  // With one record for each attempt: the attempt is listed with this request or with another one.
  lemma TrackedIs(records: seq<Record>, asked: Request)
    requires DistinctAttempts(records)
    ensures Listed(records, asked) <==> Tracked(records, asked.AttemptKey()) && TrackedRequest(records, asked.AttemptKey()) == asked
    ensures Conflicts(records, asked) <==> Tracked(records, asked.AttemptKey()) && TrackedRequest(records, asked.AttemptKey()) != asked
    ensures !Tracked(records, asked.AttemptKey()) <==> !Listed(records, asked) && !Conflicts(records, asked)
  {
    if Tracked(records, asked.AttemptKey()) {
      var r := TrackedRequest(records, asked.AttemptKey());
      var i :| 0 <= i < |records| && records[i].request == r && r.AttemptKey() == asked.AttemptKey();
      forall j | 0 <= j < |records| && records[j].request.AttemptKey() == asked.AttemptKey() ensures j == i {
      }
    }
  }

  lemma PushedLists(s: Controller, asked: Request)
    ensures Listed(Pushed(s, asked).records, asked)
  {
    assert Pushed(s, asked).records[|s.records|].request == asked;
  }

  lemma EvaluateAnswers(c: Config, aged: Controller, asked: Request, stored2: bool)
    requires DistinctAttempts(aged.records) && ListedValid(aged.records)
    ensures var o := Evaluate(c, aged, asked, true, stored2);
            && (o.decision.reason == Allowed <==> Listed(o.after.records, asked))
            && (o.decision.reason == AttemptIdentityConflict <==> asked.Valid() && Conflicts(aged.records, asked))
            && (o.decision.reason == InvalidRequest <==> !asked.Valid())
            && (o.decision.reason == PersistenceFailed <==>
                  asked.Valid() && !Tracked(aged.records, asked.AttemptKey()) && Verdict(c, aged, asked).reason == Allowed && !stored2)
  {
    TrackedIs(aged.records, asked);
    PushedLists(aged, asked);
    RolledBackKeeps(aged, asked);
    VerdictReasons(c, aged, asked);
  }

  lemma VerdictReasons(c: Config, s: Controller, asked: Request)
    ensures var reason := Verdict(c, s, asked).reason; reason == Allowed || IsLimit(reason)
  {
  }

  // After any run: a call that is considered is allowed exactly if its request is listed afterwards,
  // and a conflict exactly if the attempt is listed with another request.
  lemma AllowedIffListed(c: Config, calls: seq<Call>, call: Call)
    requires c.Valid()
    ensures var s := After(c, calls).controller;
            var o, aged := Step(c, s, call), Aged(c, s, Clamp(s.lastNow, call.clock));
            && (o.decision.reason == Allowed <==> Considered(call) && Listed(o.after.records, Asked(call)))
            && (o.decision.reason == AttemptIdentityConflict <==> Considered(call) && Asked(call).Valid() && Conflicts(aged.records, Asked(call)))
            && (o.decision.reason == InvalidRequest <==>
                  !SkewOk(call.request.observedAt, call.clock) || (Considered(call) && !Asked(call).Valid()))
  {
    var s := After(c, calls).controller;
    RunValid(c, calls);
    AgedInv(c, After(c, calls), Clamp(s.lastNow, call.clock));
    AgedValid(c, s, Clamp(s.lastNow, call.clock));
    if Considered(call) {
      EvaluateAnswers(c, Aged(c, s, Clamp(s.lastNow, call.clock)), Asked(call), call.stored2);
    }
  }

  // ---------- New attempts: the answer from the history ----------

  // What was allowed in the windows that end now.
  ghost function Allows(history: seq<Record>, sel: Selector, span: Time, now: Time): nat { CountIn(sel, history, now - span, now) }

  ghost predicate NewUnknown(c: Config, history: seq<Record>, asked: Request, now: Time) {
    asked.unknown && asked.TokenKey() !in UnknownIn(history, now - c.window, now)
  }

  // The limits in the order they are checked.
  ghost function Expected(c: Config, history: seq<Record>, asked: Request, now: Time): Reason {
    if Allows(history, AnyRecord, c.rateWindow, now) >= c.rateLimit then GlobalRateLimited
    else if Allows(history, ByToken(asked.TokenKey()), c.window, now) >= c.tokenLimit then TokenAttemptsLimited
    else if Allows(history, ByEvent(asked.EventKey()), c.window, now) >= c.eventLimit then SourceEventLimited
    else if NewUnknown(c, history, asked, now) && |UnknownIn(history, now - c.window, now)| >= c.unknownLimit then UnknownTokenRateLimited
    else if Allows(history, AnyRecord, c.window, now) >= c.capacity then CapacityLimited
    else Allowed
  }

  lemma CountIsWindow(c: Config, run: Run, sel: Selector)
    requires c.Valid() && Current(c, run.controller) && Remembers(c, run)
    ensures Count(sel, run.controller.records) == Allows(run.history, sel, c.window, run.controller.lastNow)
  {
    RememberedCount(c, run, sel, c.window);
    CountInAll(sel, run.controller.records, run.controller.lastNow - c.window, run.controller.lastNow);
  }

  lemma KeysAreUnknown(c: Config, run: Run)
    requires Current(c, run.controller) && Remembers(c, run)
    ensures UnknownKeys(run.controller.records) == UnknownIn(run.history, run.controller.lastNow - c.window, run.controller.lastNow)
  {
    KeysAreWindow(c, run);
    WindowUnknown(c, run, run.controller.lastNow);
  }

  lemma VerdictIsExpected(c: Config, run: Run, asked: Request)
    requires c.Valid() && Current(c, run.controller) && Remembers(c, run)
    ensures Verdict(c, run.controller, asked).reason == Expected(c, run.history, asked, run.controller.lastNow)
  {
    RememberedCount(c, run, AnyRecord, c.rateWindow);
    CountIsWindow(c, run, ByToken(asked.TokenKey()));
    CountIsWindow(c, run, ByEvent(asked.EventKey()));
    CountIsWindow(c, run, AnyRecord);
    KeysAreUnknown(c, run);
  }

  // After any run: a valid request whose attempt is not listed is answered by what was allowed in the
  // windows that end now, limit by limit; it is allowed exactly if every limit has room and its own
  // record is written.
  lemma AnsweredByHistory(c: Config, calls: seq<Call>, call: Call)
    requires c.Valid() && Considered(call) && Asked(call).Valid()
    requires var s := After(c, calls).controller;
             !Tracked(Aged(c, s, Clamp(s.lastNow, call.clock)).records, Asked(call).AttemptKey())
    ensures var run := After(c, calls);
            var expected := Expected(c, run.history, Asked(call), Clamp(run.controller.lastNow, call.clock));
            Step(c, run.controller, call).decision.reason ==
            if expected == Allowed && !call.stored2 then PersistenceFailed else expected
  {
    var run := After(c, calls);
    var now := Clamp(run.controller.lastNow, call.clock);
    RunValid(c, calls);
    AgedInv(c, run, now);
    VerdictIsExpected(c, Run(Aged(c, run.controller, now), run.history), Asked(call));
  }
}
