/** The admission controller stated as a plain recount over the list of recent admissions. */
module AdmissionModel {
  import opened Prelude

  datatype Config = Config(
    window: Time, rateWindow: Time, rateLimit: nat, tokenLimit: nat, eventLimit: nat, unknownLimit: nat, capacity: nat)
  {
    // NewAdmissionController, after an unset rate window has been replaced by the window.
    predicate Valid() {
      && 0 < rateWindow <= window
      && rateLimit > 0 && tokenLimit > 0 && eventLimit > 0 && unknownLimit > 0 && capacity > 0
    }
  }

  datatype Request = Request(
    network: NetworkID, incident: IncidentID, attempt: nat, token: Address, parent: IncidentID,
    sourceEvent: CandidateID, unknown: bool, observedAt: Time)
  {
    predicate Valid() {
      && network > 0 && incident != 0 && attempt > 0 && parent != 0 && sourceEvent != 0
      && (unknown ==> token != 0)
    }

    function AttemptKey(): (NetworkID, IncidentID, nat) { (network, incident, attempt) }
    function TokenKey(): (NetworkID, Address) { (network, token) }
    function EventKey(): (NetworkID, CandidateID) { (network, sourceEvent) }
  }

  type AttemptID = (NetworkID, IncidentID, nat)
  type TokenID = (NetworkID, Address)
  type EventID = (NetworkID, CandidateID)

  datatype Record = Record(request: Request, admittedAt: Time)

  // ---------- Counting ----------

  datatype Selector =
    | AnyRecord
    | ByAttempt(attempt: AttemptID)
    | ByToken(token: TokenID)
    | ByEvent(event: EventID)
    | ByUnknown(token: TokenID)
  {
    predicate Matches(r: Record) {
      match this
      case AnyRecord => true
      case ByAttempt(attempt) => r.request.AttemptKey() == attempt
      case ByToken(token) => r.request.TokenKey() == token
      case ByEvent(event) => r.request.EventKey() == event
      case ByUnknown(token) => r.request.unknown && r.request.TokenKey() == token
    }
  }

  // How many records of the list a selector matches among those admitted in (after, upTo].
  function CountIn(sel: Selector, records: seq<Record>, after: Time, upTo: Time): nat {
    if records == [] then 0
    else
      var last := records[|records| - 1];
      CountIn(sel, records[..|records| - 1], after, upTo) +
      (if sel.Matches(last) && after < last.admittedAt <= upTo then 1 else 0)
  }

  function Count(sel: Selector, records: seq<Record>): nat {
    if records == [] then 0
    else
      Count(sel, records[..|records| - 1]) + (if sel.Matches(records[|records| - 1]) then 1 else 0)
  }

  ghost function UnknownIn(records: seq<Record>, after: Time, upTo: Time): set<TokenID> {
    set i | 0 <= i < |records| && records[i].request.unknown && after < records[i].admittedAt <= upTo :: records[i].request.TokenKey()
  }

  ghost function UnknownKeys(records: seq<Record>): set<TokenID> {
    set i | 0 <= i < |records| && records[i].request.unknown :: records[i].request.TokenKey()
  }

  ghost predicate Sorted(records: seq<Record>) {
    forall i, j | 0 <= i < j < |records| :: records[i].admittedAt <= records[j].admittedAt
  }

  // The records the window still covers at time now.
  function Live(records: seq<Record>, window: Time, now: Time): seq<Record> {
    if records == [] then []
    else
      var rest := Live(records[..|records| - 1], window, now);
      var last := records[|records| - 1];
      if last.admittedAt + window <= now then rest else rest + [last]
  }

  // ---------- The controller ----------

  // latest is kept for unknown tokens only; it decides nothing but one retry time.
  datatype Controller = Controller(lastNow: Time, records: seq<Record>, latest: map<TokenID, Time>)

  const INITIAL := Controller(UNSET, [], map[])

  datatype Reason =
    | Allowed | GlobalRateLimited | TokenAttemptsLimited | SourceEventLimited | UnknownTokenRateLimited
    | CapacityLimited | InvalidRequest | AttemptIdentityConflict | PersistenceFailed

  datatype Decision = Decision(reason: Reason, retryAt: Time)

  const MAXIMUM_OBSERVED_SKEW: Time := 2 * MINUTE

  predicate SkewOk(observed: Time, clock: Time) {
    observed == UNSET || -MAXIMUM_OBSERVED_SKEW <= observed - clock <= MAXIMUM_OBSERVED_SKEW
  }

  function Clamp(lastNow: Time, clock: Time): Time {
    if clock < lastNow then lastNow else clock
  }

  // Time passes and nothing else: expired records and their bookkeeping disappear.
  ghost function Aged(c: Config, s: Controller, now: Time): Controller {
    var live := Live(s.records, c.window, now);
    Controller(now, live, map k | k in s.latest && k in UnknownKeys(live) :: s.latest[k])
  }

  // The admission time of the first record a selector matches, plus the given span.
  function FirstExpiry(sel: Selector, records: seq<Record>, after: Time, span: Time): Time {
    if records == [] then UNSET
    else if sel.Matches(records[0]) && after < records[0].admittedAt then records[0].admittedAt + span
    else FirstExpiry(sel, records[1..], after, span)
  }

  ghost predicate IsEarliest(latest: map<TokenID, Time>, window: Time, t: Time) {
    && (exists k :: k in latest && t == latest[k] + window)
    && (forall k | k in latest :: t <= latest[k] + window)
  }

  ghost function EarliestUnknown(latest: map<TokenID, Time>, window: Time): Time {
    if t :| IsEarliest(latest, window, t) then t else UNSET
  }

  // rateCount has reached RateLimit.
  predicate RateBlocked(c: Config, s: Controller) {
    CountIn(AnyRecord, s.records, s.lastNow - c.rateWindow, s.lastNow) >= c.rateLimit
  }

  // tokens, events and the list itself have reached their limits.
  predicate CountBlocked(s: Controller, sel: Selector, limit: nat) {
    Count(sel, s.records) >= limit
  }

  ghost predicate UnknownBlocked(c: Config, s: Controller, request: Request) {
    request.unknown && request.TokenKey() !in UnknownKeys(s.records) && |UnknownKeys(s.records)| >= c.unknownLimit
  }

  function Expiry(c: Config, s: Controller, sel: Selector): Time {
    FirstExpiry(sel, s.records, s.lastNow - c.window, c.window)
  }

  // The verdict on a new, valid attempt, in the order the limits are checked.
  ghost function Verdict(c: Config, s: Controller, request: Request): Decision {
    if RateBlocked(c, s) then
      Decision(GlobalRateLimited, FirstExpiry(AnyRecord, s.records, s.lastNow - c.rateWindow, c.rateWindow))
    else CountVerdict(c, s, request)
  }

  ghost function CountVerdict(c: Config, s: Controller, request: Request): Decision {
    var token, event := ByToken(request.TokenKey()), ByEvent(request.EventKey());
    if CountBlocked(s, token, c.tokenLimit) then Decision(TokenAttemptsLimited, Expiry(c, s, token))
    else if CountBlocked(s, event, c.eventLimit) then Decision(SourceEventLimited, Expiry(c, s, event))
    else LastVerdict(c, s, request)
  }

  ghost function LastVerdict(c: Config, s: Controller, request: Request): Decision {
    if UnknownBlocked(c, s, request) then Decision(UnknownTokenRateLimited, EarliestUnknown(s.latest, c.window))
    else if CountBlocked(s, AnyRecord, c.capacity) then Decision(CapacityLimited, Expiry(c, s, AnyRecord))
    else Decision(Allowed, UNSET)
  }

  ghost predicate Tracked(records: seq<Record>, key: AttemptID) {
    exists i :: 0 <= i < |records| && records[i].request.AttemptKey() == key
  }

  ghost function TrackedRequest(records: seq<Record>, key: AttemptID): (r: Request)
    requires Tracked(records, key)
    ensures exists i :: 0 <= i < |records| && records[i].request == r && r.AttemptKey() == key
  {
    var i :| 0 <= i < |records| && records[i].request.AttemptKey() == key;
    records[i].request
  }

  function Pushed(s: Controller, request: Request): Controller {
    Controller(s.lastNow, s.records + [Record(request, s.lastNow)],
               if request.unknown then s.latest[request.TokenKey() := s.lastNow] else s.latest)
  }

  // A failed write takes the record back. The recomputation of latest still sees it.
  ghost function RolledBack(s: Controller, request: Request): Controller {
    if request.unknown && request.TokenKey() in UnknownKeys(s.records)
    then s.(latest := s.latest[request.TokenKey() := s.lastNow])
    else s
  }

  datatype Outcome = Outcome(decision: Decision, after: Controller)

  // stored1 and stored2 say whether the two writes of the record list succeed.
  ghost function Admit(c: Config, s: Controller, request: Request, clock: Time, stored1: bool, stored2: bool): Outcome {
    if !SkewOk(request.observedAt, clock) then Outcome(Decision(InvalidRequest, UNSET), s)
    else Evaluate(c, Aged(c, s, Clamp(s.lastNow, clock)), request.(observedAt := UNSET), stored1, stored2)
  }

  ghost function Evaluate(c: Config, aged: Controller, asked: Request, stored1: bool, stored2: bool): Outcome {
    if !stored1 then Outcome(Decision(PersistenceFailed, UNSET), aged)
    else if !asked.Valid() then Outcome(Decision(InvalidRequest, UNSET), aged)
    else if Tracked(aged.records, asked.AttemptKey()) then
      if TrackedRequest(aged.records, asked.AttemptKey()) == asked then Outcome(Decision(Allowed, UNSET), aged)
      else Outcome(Decision(AttemptIdentityConflict, UNSET), aged)
    else
      var verdict := Verdict(c, aged, asked);
      if verdict.reason != Allowed then Outcome(verdict, aged)
      else if stored2 then Outcome(verdict, Pushed(aged, asked))
      else Outcome(Decision(PersistenceFailed, UNSET), RolledBack(aged, asked))
  }
}
