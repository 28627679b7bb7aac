/** The admission controller as an object: a list and five maps updated step by step. */
module Admission {
  import opened Prelude
  import opened M = AdmissionModel
  import T = AdmissionTheorems

  // ---------- The incremental maps agree with a recount of the list ----------

  // attempts leads from every attempt in the list to its record, and holds nothing else.
  ghost predicate AttemptsAgree(attempts: map<AttemptID, Record>, records: seq<Record>) {
    && (forall i {:trigger records[i].request.AttemptKey()} | 0 <= i < |records| ::
          records[i].request.AttemptKey() in attempts && attempts[records[i].request.AttemptKey()] == records[i])
    && (forall key {:trigger attempts[key]} | key in attempts :: attempts[key] in records && attempts[key].request.AttemptKey() == key)
  }

  // A counter map holds exactly the positive counts.
  ghost predicate TokensAgree(tokens: map<TokenID, nat>, records: seq<Record>) {
    forall k {:trigger Count(ByToken(k), records)} ::
      (k in tokens <==> Count(ByToken(k), records) > 0) && (k in tokens ==> tokens[k] == Count(ByToken(k), records))
  }

  ghost predicate EventsAgree(events: map<EventID, nat>, records: seq<Record>) {
    forall k {:trigger Count(ByEvent(k), records)} ::
      (k in events <==> Count(ByEvent(k), records) > 0) && (k in events ==> events[k] == Count(ByEvent(k), records))
  }

  ghost predicate UnknownAgree(unknown: map<TokenID, nat>, records: seq<Record>) {
    forall k {:trigger Count(ByUnknown(k), records)} ::
      (k in unknown <==> Count(ByUnknown(k), records) > 0) && (k in unknown ==> unknown[k] == Count(ByUnknown(k), records))
  }

  function Lookup<K>(counts: map<K, nat>, key: K): nat {
    if key in counts then counts[key] else 0
  }

  // decrementAdmissionCount
  function Decremented<K>(counts: map<K, nat>, key: K): map<K, nat> {
    if Lookup(counts, key) <= 1 then counts - {key} else counts[key := counts[key] - 1]
  }

  function Incremented<K>(counts: map<K, nat>, key: K): map<K, nat> {
    counts[key := Lookup(counts, key) + 1]
  }

  // The count of one more or one fewer record.
  lemma CountPush(sel: Selector, records: seq<Record>, r: Record)
    ensures Count(sel, records + [r]) == Count(sel, records) + (if sel.Matches(r) then 1 else 0)
  {
    assert (records + [r])[..|records|] == records;
  }

  lemma CountPop(sel: Selector, records: seq<Record>)
    requires records != []
    ensures Count(sel, records) == Count(sel, records[1..]) + (if sel.Matches(records[0]) then 1 else 0)
  {
    T.CountConcat(sel, records[..1], records[1..]);
    assert records == records[..1] + records[1..];
    assert records[..1] == [] + [records[0]];
    CountPush(sel, [], records[0]);
  }

  lemma TokensPush(tokens: map<TokenID, nat>, records: seq<Record>, r: Record)
    requires TokensAgree(tokens, records)
    ensures TokensAgree(Incremented(tokens, r.request.TokenKey()), records + [r])
  {
    forall k ensures Count(ByToken(k), records + [r]) == Count(ByToken(k), records) + (if r.request.TokenKey() == k then 1 else 0) {
      CountPush(ByToken(k), records, r);
    }
  }

  lemma EventsPush(events: map<EventID, nat>, records: seq<Record>, r: Record)
    requires EventsAgree(events, records)
    ensures EventsAgree(Incremented(events, r.request.EventKey()), records + [r])
  {
    forall k ensures Count(ByEvent(k), records + [r]) == Count(ByEvent(k), records) + (if r.request.EventKey() == k then 1 else 0) {
      CountPush(ByEvent(k), records, r);
    }
  }

  lemma UnknownPush(unknown: map<TokenID, nat>, records: seq<Record>, r: Record)
    requires UnknownAgree(unknown, records)
    ensures UnknownAgree(if r.request.unknown then Incremented(unknown, r.request.TokenKey()) else unknown, records + [r])
  {
    forall k ensures Count(ByUnknown(k), records + [r]) ==
                     Count(ByUnknown(k), records) + (if r.request.unknown && r.request.TokenKey() == k then 1 else 0) {
      CountPush(ByUnknown(k), records, r);
    }
  }

  // Removing one record from the list, wherever it stands, takes one from its counters.
  ghost predicate Removes(records: seq<Record>, rest: seq<Record>, r: Record) {
    forall sel: Selector :: Count(sel, records) == Count(sel, rest) + (if sel.Matches(r) then 1 else 0)
  }

  lemma RemovesFirst(records: seq<Record>)
    requires records != []
    ensures Removes(records, records[1..], records[0])
  {
    forall sel: Selector ensures Count(sel, records) == Count(sel, records[1..]) + (if sel.Matches(records[0]) then 1 else 0) {
      CountPop(sel, records);
    }
  }

  lemma RemovesLast(records: seq<Record>, r: Record)
    ensures Removes(records + [r], records, r)
  {
    forall sel: Selector ensures Count(sel, records + [r]) == Count(sel, records) + (if sel.Matches(r) then 1 else 0) {
      CountPush(sel, records, r);
    }
  }

  lemma TokensRemove(tokens: map<TokenID, nat>, records: seq<Record>, rest: seq<Record>, r: Record)
    requires TokensAgree(tokens, records) && Removes(records, rest, r)
    ensures TokensAgree(Decremented(tokens, r.request.TokenKey()), rest)
  {
    forall k ensures Count(ByToken(k), records) == Count(ByToken(k), rest) + (if r.request.TokenKey() == k then 1 else 0) {
    }
  }

  lemma EventsRemove(events: map<EventID, nat>, records: seq<Record>, rest: seq<Record>, r: Record)
    requires EventsAgree(events, records) && Removes(records, rest, r)
    ensures EventsAgree(Decremented(events, r.request.EventKey()), rest)
  {
    forall k ensures Count(ByEvent(k), records) == Count(ByEvent(k), rest) + (if r.request.EventKey() == k then 1 else 0) {
    }
  }

  lemma UnknownRemove(unknown: map<TokenID, nat>, records: seq<Record>, rest: seq<Record>, r: Record)
    requires UnknownAgree(unknown, records) && Removes(records, rest, r)
    ensures UnknownAgree(if r.request.unknown then Decremented(unknown, r.request.TokenKey()) else unknown, rest)
  {
    forall k ensures Count(ByUnknown(k), records) ==
                     Count(ByUnknown(k), rest) + (if r.request.unknown && r.request.TokenKey() == k then 1 else 0) {
    }
  }

  lemma AttemptsPush(attempts: map<AttemptID, Record>, records: seq<Record>, r: Record)
    requires AttemptsAgree(attempts, records) && r.request.AttemptKey() !in attempts
    ensures AttemptsAgree(attempts[r.request.AttemptKey() := r], records + [r])
  {
  }

  lemma AttemptsPop(attempts: map<AttemptID, Record>, records: seq<Record>)
    requires AttemptsAgree(attempts, records) && T.DistinctAttempts(records) && records != []
    ensures AttemptsAgree(attempts - {records[0].request.AttemptKey()}, records[1..])
  {
    var rest, key := records[1..], records[0].request.AttemptKey();
    forall other | other in attempts && other != key ensures attempts[other] in rest {
      var i :| 0 <= i < |records| && records[i] == attempts[other];
      assert rest[i - 1] == records[i];
    }
    forall i | 0 <= i < |rest| ensures rest[i].request.AttemptKey() != key {
      assert rest[i] == records[i + 1];
    }
  }

  // Membership in the unknown set is a positive count.
  lemma {:induction false} UnknownIsCounted(records: seq<Record>, k: TokenID)
    ensures k in UnknownKeys(records) <==> Count(ByUnknown(k), records) > 0
  {
    if records == [] {
      assert UnknownKeys([]) == {};
    } else {
      var front, last := records[..|records| - 1], records[|records| - 1];
      UnknownIsCounted(front, k);
      assert records == front + [last];
      T.UnknownKeysPush(front, last);
    }
  }

  lemma UnknownSize(unknown: map<TokenID, nat>, records: seq<Record>)
    requires UnknownAgree(unknown, records)
    ensures unknown.Keys == UnknownKeys(records) && |unknown| == |UnknownKeys(records)|
  {
    forall k ensures k in unknown <==> k in UnknownKeys(records) {
      UnknownIsCounted(records, k);
    }
    assert unknown.Keys == UnknownKeys(records);
  }

  // ---------- The last admission of an unknown token ----------

  // recomputeLatest: the latest admission of the token in the list, from the front.
  function MaxUnknown(records: seq<Record>, key: TokenID): Time {
    if records == [] then UNSET
    else
      var max := MaxUnknown(records[..|records| - 1], key);
      var last := records[|records| - 1];
      if ByUnknown(key).Matches(last) && last.admittedAt > max then last.admittedAt else max
  }

  lemma {:induction false} MaxUnknownBound(records: seq<Record>, key: TokenID, v: Time)
    requires UNSET <= v
    requires forall i | 0 <= i < |records| && ByUnknown(key).Matches(records[i]) :: records[i].admittedAt <= v
    ensures MaxUnknown(records, key) <= v
  {
    if records != [] {
      MaxUnknownBound(records[..|records| - 1], key, v);
    }
  }

  lemma {:induction false} MaxUnknownReaches(records: seq<Record>, key: TokenID, i: nat)
    requires i < |records| && ByUnknown(key).Matches(records[i])
    ensures MaxUnknown(records, key) >= records[i].admittedAt
  {
    if i < |records| - 1 {
      MaxUnknownReaches(records[..|records| - 1], key, i);
    }
  }

  // What remove does to latest, while the record is still in the list.
  ghost function LatestAfter(latest: map<TokenID, Time>, remains: bool, records: seq<Record>, r: Record): map<TokenID, Time> {
    var key := r.request.TokenKey();
    if !r.request.unknown then latest
    else if !remains then latest - {key}
    else if key in latest && latest[key] == r.admittedAt then latest[key := MaxUnknown(records, key)]
    else latest
  }

  ghost function Restricted(latest: map<TokenID, Time>, keys: set<TokenID>): map<TokenID, Time> {
    map k | k in latest && k in keys :: latest[k]
  }

  lemma PopMax(c: Config, s: Controller, key: TokenID)
    requires T.Current(c, s) && T.LatestBounds(s) && s.records != []
    requires ByUnknown(key).Matches(s.records[0]) && key in s.latest && s.latest[key] == s.records[0].admittedAt >= UNSET
    ensures MaxUnknown(s.records, key) == s.latest[key]
  {
    MaxUnknownBound(s.records, key, s.latest[key]);
    MaxUnknownReaches(s.records, key, 0);
  }

  lemma RestrictAll(latest: map<TokenID, Time>, keys: set<TokenID>)
    requires latest.Keys <= keys
    ensures Restricted(latest, keys) == latest
  {
  }

  lemma RestrictOne(latest: map<TokenID, Time>, keys: set<TokenID>, key: TokenID)
    requires latest.Keys == keys + {key} && key !in keys
    ensures Restricted(latest, keys) == latest - {key}
  {
  }

  // Pruning the oldest record never changes the latest admission of a token that stays.
  lemma PopLatest(c: Config, s: Controller)
    requires T.Current(c, s) && T.LatestBounds(s) && s.records != []
    requires forall k | k in s.latest :: s.latest[k] >= UNSET
    ensures var key := s.records[0].request.TokenKey();
            LatestAfter(s.latest, key in UnknownKeys(s.records[1..]), s.records, s.records[0]) ==
            Restricted(s.latest, UnknownKeys(s.records[1..]))
  {
    var first, keys := s.records[0], UnknownKeys(s.records[1..]);
    var key := first.request.TokenKey();
    PopKeys(s.records);
    if !first.request.unknown {
      RestrictAll(s.latest, keys);
    } else if key !in keys {
      RestrictOne(s.latest, keys, key);
    } else {
      RestrictAll(s.latest, keys);
      if s.latest[key] == first.admittedAt {
        PopMax(c, s, key);
      }
    }
  }

  lemma PopKeys(records: seq<Record>)
    requires records != []
    ensures UnknownKeys(records) ==
            UnknownKeys(records[1..]) + (if records[0].request.unknown then {records[0].request.TokenKey()} else {})
  {
    T.UnknownKeysSuffix(records, 1);
    forall k | k in UnknownKeys(records)
      ensures k in UnknownKeys(records[1..]) || (records[0].request.unknown && k == records[0].request.TokenKey())
    {
      var i :| 0 <= i < |records| && records[i].request.unknown && records[i].request.TokenKey() == k;
      if i > 0 {
        assert records[1..][i - 1] == records[i];
        T.UnknownKeysMember(records[1..], i - 1);
      }
    }
    if records[0].request.unknown {
      T.UnknownKeysMember(records, 0);
    }
  }

  // Taking back a record that was just pushed leaves its time behind when the token stays.
  lemma RollbackLatest(c: Config, s: Controller, request: Request)
    requires c.Valid() && T.Current(c, s) && T.LatestBounds(s) && s.lastNow >= UNSET
    ensures var pushed := Pushed(s, request);
            LatestAfter(pushed.latest, request.TokenKey() in UnknownKeys(s.records), pushed.records, Record(request, s.lastNow)) ==
            RolledBack(s, request).latest
  {
    var pushed, key := Pushed(s, request), request.TokenKey();
    if request.unknown {
      if key in UnknownKeys(s.records) {
        assert pushed.records[|s.records|] == Record(request, s.lastNow);
        MaxUnknownBound(pushed.records, key, s.lastNow);
        MaxUnknownReaches(pushed.records, key, |s.records|);
      } else {
        assert key !in s.latest;
      }
    }
  }

  lemma RestrictTwice(latest: map<TokenID, Time>, records: seq<Record>)
    requires records != []
    ensures Restricted(Restricted(latest, UnknownKeys(records)), UnknownKeys(records[1..])) ==
            Restricted(latest, UnknownKeys(records[1..]))
  {
    PopKeys(records);
  }

  ghost predicate TimesOk(latest: map<TokenID, Time>) {
    forall k | k in latest :: latest[k] >= UNSET
  }

  lemma PopOrdered(c: Config, s: Controller)
    requires T.Current(c, s) && T.DistinctAttempts(s.records) && T.LatestBounds(s) && s.records != []
    ensures var s' := Controller(s.lastNow, s.records[1..], Restricted(s.latest, UnknownKeys(s.records[1..])));
            T.Current(c, s') && T.DistinctAttempts(s'.records) && T.LatestBounds(s')
  {
    var rest := s.records[1..];
    var s' := Controller(s.lastNow, rest, Restricted(s.latest, UnknownKeys(rest)));
    PopKeys(s.records);
    assert s'.latest.Keys == UnknownKeys(rest);
    forall i | 0 <= i < |rest| && rest[i].request.unknown
      ensures rest[i].request.TokenKey() in s'.latest && rest[i].admittedAt <= s'.latest[rest[i].request.TokenKey()]
    {
      T.UnknownKeysMember(rest, i);
      assert rest[i] == s.records[i + 1];
    }
  }

  lemma ExpiredPrefix(c: Config, s: Controller, now: Time, k: nat)
    requires T.Current(c, s) && T.LatestBounds(s) && s.lastNow <= now && k <= |s.records|
    requires forall i | 0 <= i < k :: s.records[i].admittedAt + c.window <= now
    requires k < |s.records| ==> s.records[k].admittedAt + c.window > now
    ensures Aged(c, s, now) == Controller(now, s.records[k..], Restricted(s.latest, UnknownKeys(s.records[k..])))
    ensures T.Current(c, Aged(c, s, now)) && T.LatestBounds(Aged(c, s, now))
  {
    T.LiveIsSuffix(s.records, c.window, now, k);
    T.AgedCurrent(c, s, now);
    T.AgedLatest(c, s, now);
  }

  lemma EarliestUnique(latest: map<TokenID, Time>, window: Time, t: Time)
    requires IsEarliest(latest, window, t)
    ensures EarliestUnknown(latest, window) == t
  {
  }

  lemma PushOrdered(c: Config, s: Controller, request: Request)
    requires c.Valid() && T.Current(c, s) && T.LatestBounds(s)
    ensures T.Current(c, Pushed(s, request)) && T.LatestBounds(Pushed(s, request))
  {
    T.PushedLatest(c, s, request);
  }

  lemma RollbackOrdered(c: Config, s: Controller, request: Request)
    requires T.Current(c, s) && T.LatestBounds(s)
    ensures T.Current(c, RolledBack(s, request)) && T.LatestBounds(RolledBack(s, request))
  {
    var s' := RolledBack(s, request);
    assert s'.latest.Keys == UnknownKeys(s'.records);
  }

  lemma DistinctUnpush(records: seq<Record>, r: Record)
    requires T.DistinctAttempts(records + [r])
    ensures T.DistinctAttempts(records)
    ensures forall i | 0 <= i < |records| :: records[i].request.AttemptKey() != r.request.AttemptKey()
  {
    var all := records + [r];
    assert all[|records|] == r;
    assert forall i | 0 <= i < |records| :: all[i] == records[i];
  }

  lemma AttemptsUnpush(attempts: map<AttemptID, Record>, records: seq<Record>, r: Record)
    requires AttemptsAgree(attempts, records + [r]) && T.DistinctAttempts(records + [r])
    ensures AttemptsAgree(attempts - {r.request.AttemptKey()}, records)
  {
    var all, key := records + [r], r.request.AttemptKey();
    DistinctUnpush(records, r);
    forall i | 0 <= i < |records|
      ensures records[i].request.AttemptKey() in attempts && attempts[records[i].request.AttemptKey()] == records[i]
    {
      assert all[i] == records[i];
    }
    forall other | other in attempts && other != key ensures attempts[other] in records {
      var i :| 0 <= i < |all| && all[i] == attempts[other];
      assert i < |records|;
      assert all[i] == records[i];
    }
  }

  lemma TrackedIsIndexed(attempts: map<AttemptID, Record>, records: seq<Record>, key: AttemptID)
    requires AttemptsAgree(attempts, records)
    ensures Tracked(records, key) <==> key in attempts
    ensures key in attempts ==> TrackedRequest(records, key) == attempts[key].request
  {
    if key in attempts {
      var i :| 0 <= i < |records| && records[i] == attempts[key];
      assert Tracked(records, key);
    }
  }

  // ---------- The counters as one value ----------

  datatype Books = Books(
    attempts: map<AttemptID, Record>, tokens: map<TokenID, nat>, events: map<EventID, nat>, unknown: map<TokenID, nat>)

  // The maps equal a recount over the list.
  ghost predicate Agrees(b: Books, records: seq<Record>) {
    && AttemptsAgree(b.attempts, records)
    && TokensAgree(b.tokens, records)
    && EventsAgree(b.events, records)
    && UnknownAgree(b.unknown, records)
  }

  ghost predicate Ordered(c: Config, s: Controller) {
    && c.Valid()
    && T.Current(c, s)
    && T.DistinctAttempts(s.records)
    && T.LatestBounds(s)
    && s.lastNow >= UNSET
    && TimesOk(s.latest)
  }

  function Entered(b: Books, r: Record): Books {
    Books(
      b.attempts[r.request.AttemptKey() := r],
      Incremented(b.tokens, r.request.TokenKey()),
      Incremented(b.events, r.request.EventKey()),
      if r.request.unknown then Incremented(b.unknown, r.request.TokenKey()) else b.unknown)
  }

  function Struck(b: Books, r: Record): Books {
    Books(
      b.attempts - {r.request.AttemptKey()},
      Decremented(b.tokens, r.request.TokenKey()),
      Decremented(b.events, r.request.EventKey()),
      if r.request.unknown then Decremented(b.unknown, r.request.TokenKey()) else b.unknown)
  }

  ghost function Popped(s: Controller): Controller
    requires s.records != []
  {
    Controller(s.lastNow, s.records[1..], Restricted(s.latest, UnknownKeys(s.records[1..])))
  }

  lemma PopAgrees(b: Books, records: seq<Record>)
    requires Agrees(b, records) && T.DistinctAttempts(records) && records != []
    ensures Agrees(Struck(b, records[0]), records[1..])
  {
    RemovesFirst(records);
    TokensRemove(b.tokens, records, records[1..], records[0]);
    EventsRemove(b.events, records, records[1..], records[0]);
    UnknownRemove(b.unknown, records, records[1..], records[0]);
    AttemptsPop(b.attempts, records);
  }

  lemma PushAgrees(b: Books, records: seq<Record>, r: Record)
    requires Agrees(b, records) && r.request.AttemptKey() !in b.attempts
    ensures Agrees(Entered(b, r), records + [r])
  {
    AttemptsPush(b.attempts, records, r);
    TokensPush(b.tokens, records, r);
    EventsPush(b.events, records, r);
    UnknownPush(b.unknown, records, r);
  }

  lemma UnpushAgrees(b: Books, records: seq<Record>, r: Record)
    requires Agrees(b, records + [r]) && T.DistinctAttempts(records + [r])
    ensures Agrees(Struck(b, r), records)
  {
    RemovesLast(records, r);
    TokensRemove(b.tokens, records + [r], records, r);
    EventsRemove(b.events, records + [r], records, r);
    UnknownRemove(b.unknown, records + [r], records, r);
    AttemptsUnpush(b.attempts, records, r);
  }

  lemma PoppedOrdered(c: Config, s: Controller)
    requires Ordered(c, s) && s.records != []
    ensures Ordered(c, Popped(s))
  {
    PopOrdered(c, s);
  }

  lemma DistinctPush(b: Books, records: seq<Record>, r: Record)
    requires T.DistinctAttempts(records) && AttemptsAgree(b.attempts, records) && r.request.AttemptKey() !in b.attempts
    ensures T.DistinctAttempts(records + [r])
  {
  }

  lemma PushedOrdered(c: Config, s: Controller, b: Books, request: Request)
    requires Ordered(c, s) && AttemptsAgree(b.attempts, s.records) && request.AttemptKey() !in b.attempts
    ensures Ordered(c, Pushed(s, request))
  {
    PushOrdered(c, s, request);
    DistinctPush(b, s.records, Record(request, s.lastNow));
  }

  lemma RolledBackOrdered(c: Config, s: Controller, request: Request)
    requires Ordered(c, s)
    ensures Ordered(c, RolledBack(s, request))
  {
    RollbackOrdered(c, s, request);
  }

  // What striking the first record does to latest.
  lemma PoppedLatest(c: Config, s: Controller, b: Books)
    requires Ordered(c, s) && Agrees(b, s.records) && s.records != []
    ensures LatestAfter(s.latest, s.records[0].request.TokenKey() in Struck(b, s.records[0]).unknown, s.records, s.records[0]) ==
            Popped(s).latest
  {
    PopAgrees(b, s.records);
    UnknownSize(Struck(b, s.records[0]).unknown, s.records[1..]);
    PopLatest(c, s);
  }

  lemma RolledBackLatest(c: Config, s: Controller, b: Books, request: Request)
    requires Ordered(c, s) && UnknownAgree(b.unknown, s.records)
    ensures var pushed := Pushed(s, request);
            LatestAfter(pushed.latest, request.TokenKey() in b.unknown, pushed.records, Record(request, s.lastNow)) ==
            RolledBack(s, request).latest
  {
    UnknownSize(b.unknown, s.records);
    RollbackLatest(c, s, request);
  }

  // k records have been popped, all of them expired.
  ghost predicate PopsTo(c: Config, start: Controller, s: Controller, now: Time, k: nat) {
    && k <= |start.records|
    && (forall i | 0 <= i < k :: start.records[i].admittedAt + c.window <= now)
    && s == Controller(start.lastNow, start.records[k..], Restricted(start.latest, UnknownKeys(start.records[k..])))
  }

  lemma PopsOn(c: Config, start: Controller, s: Controller, now: Time, k: nat)
    requires PopsTo(c, start, s, now, k) && s.records != [] && s.records[0].admittedAt + c.window <= now
    ensures PopsTo(c, start, Popped(s), now, k + 1)
  {
    RestrictTwice(start.latest, s.records);
    assert s.records[1..] == start.records[k + 1..];
  }

  lemma PopsDone(c: Config, start: Controller, s: Controller, now: Time, k: nat)
    requires Ordered(c, start) && Ordered(c, s) && start.lastNow <= now && PopsTo(c, start, s, now, k)
    requires s.records != [] ==> s.records[0].admittedAt + c.window > now
    ensures s.(lastNow := now) == Aged(c, start, now) && Ordered(c, s.(lastNow := now))
  {
    ExpiredPrefix(c, start, now, k);
  }

  class AdmissionController {
    const config: Config
    var lastNow: Time
    var records: seq<Record>
    var attempts: map<AttemptID, Record>
    var tokens: map<TokenID, nat>
    var events: map<EventID, nat>
    var unknown: map<TokenID, nat>
    var latest: map<TokenID, Time>

    ghost function Abs(): Controller
      reads this
    {
      Controller(lastNow, records, latest)
    }

    ghost function Counters(): Books
      reads this
    {
      Books(attempts, tokens, events, unknown)
    }

    // The maps equal a recount over the list, and the list is sorted and current.
    ghost predicate Valid()
      reads this
    {
      Agrees(Counters(), records) && Ordered(config, Abs())
    }

    constructor (config: Config)
      requires config.Valid()
      ensures Valid() && this.config == config && Abs() == INITIAL
    {
      this.config := config;
      lastNow, records := UNSET, [];
      attempts, tokens, events, unknown, latest := map[], map[], map[], map[], map[];
      new;
      assert UnknownKeys([]) == {};
    }

    method RecomputeLatest(key: TokenID)
      modifies this`latest
      ensures latest == old(latest)[key := MaxUnknown(records, key)]
    {
      var max := UNSET;
      for i := 0 to |records|
        invariant max == MaxUnknown(records[..i], key)
      {
        assert records[..i + 1][..i] == records[..i];
        if ByUnknown(key).Matches(records[i]) && records[i].admittedAt > max {
          max := records[i].admittedAt;
        }
      }
      assert records[..|records|] == records;
      latest := latest[key := max];
    }

    // The bookkeeping of remove; the caller then unlinks the record.
    method Forget(record: Record)
      requires record.request.unknown ==> record.request.TokenKey() in latest
      modifies this`attempts, this`tokens, this`events, this`unknown, this`latest
      ensures Counters() == Struck(old(Counters()), record)
      ensures latest == LatestAfter(old(latest), record.request.TokenKey() in unknown, records, record)
    {
      attempts := attempts - {record.request.AttemptKey()};
      tokens := Decremented(tokens, record.request.TokenKey());
      events := Decremented(events, record.request.EventKey());
      if record.request.unknown {
        var key := record.request.TokenKey();
        unknown := Decremented(unknown, key);
        if key !in unknown {
          latest := latest - {key};
        } else if latest[key] == record.admittedAt {
          RecomputeLatest(key);
        }
      }
    }

    method RemoveFirst()
      requires Valid() && records != []
      modifies this
      ensures Valid() && Abs() == Popped(old(Abs()))
    {
      ghost var before, counters := Abs(), Counters();
      var first := records[0];
      PopAgrees(counters, records);
      PoppedLatest(config, before, counters);
      PoppedOrdered(config, before);
      Forget(first);
      records := records[1..];
      assert Counters() == Struck(counters, first) && Abs() == Popped(before);
    }

    // prune: expired records leave from the front until the first live one.
    method Expire(now: Time)
      requires Valid() && lastNow <= now
      modifies this
      ensures Valid() && Abs() == Aged(config, old(Abs()), now)
    {
      ghost var k := 0;
      ghost var before := Abs();
      RestrictAll(latest, UnknownKeys(records));
      while records != [] && records[0].admittedAt + config.window <= now
        invariant Valid() && PopsTo(config, before, Abs(), now, k)
        decreases |records|
      {
        PopsOn(config, before, Abs(), now, k);
        RemoveFirst();
        k := k + 1;
      }
      PopsDone(config, before, Abs(), now, k);
      lastNow := now;
    }

    method RateCount(now: Time) returns (count: nat)
      requires T.Current(config, Abs()) && now == lastNow
      ensures count == CountIn(AnyRecord, records, now - config.rateWindow, now)
    {
      var cutoff := now - config.rateWindow;
      var i := |records|;
      count := 0;
      while i > 0 && records[i - 1].admittedAt > cutoff
        invariant 0 <= i <= |records| && count == |records| - i
        invariant forall j | i <= j < |records| :: records[j].admittedAt > cutoff
      {
        i := i - 1;
        count := count + 1;
      }
      T.CountInDropPrefix(AnyRecord, records, i, cutoff, now);
      T.CountInAll(AnyRecord, records[i..], cutoff, now);
      T.CountAny(records[i..]);
    }

    // The shared shape of rateRetryAt, tokenRetryAt, sourceEventRetryAt and firstExpiry.
    method FirstExpiryOf(sel: Selector, after: Time, span: Time) returns (t: Time)
      ensures t == FirstExpiry(sel, records, after, span)
    {
      for i := 0 to |records|
        invariant FirstExpiry(sel, records, after, span) == FirstExpiry(sel, records[i..], after, span)
      {
        if sel.Matches(records[i]) && after < records[i].admittedAt {
          return records[i].admittedAt + span;
        }
      }
      return UNSET;
    }

    method UnknownRetryAt() returns (t: Time)
      requires config.Valid() && latest != map[] && TimesOk(latest)
      ensures IsEarliest(latest, config.window, t)
    {
      t := UNSET;
      var rest := latest.Keys;
      while rest != {}
        invariant rest <= latest.Keys
        invariant rest == latest.Keys ==> t == UNSET
        invariant rest != latest.Keys ==> t != UNSET && exists k :: k in latest && t == latest[k] + config.window
        invariant forall k | k in latest && k !in rest :: t <= latest[k] + config.window
        decreases |rest|
      {
        var k :| k in rest;
        rest := rest - {k};
        var expires := latest[k] + config.window;
        if t == UNSET || expires < t {
          t := expires;
        }
      }
    }

    // The three counter lookups that stand for a recount.
    method CountersFor(request: Request) returns (token: nat, event: nat, unknownBlocked: bool)
      requires Agrees(Counters(), records)
      ensures token == Count(ByToken(request.TokenKey()), records)
      ensures event == Count(ByEvent(request.EventKey()), records)
      ensures unknownBlocked == UnknownBlocked(config, Abs(), request)
    {
      token := Lookup(tokens, request.TokenKey());
      event := Lookup(events, request.EventKey());
      UnknownSize(unknown, records);
      unknownBlocked := request.unknown && request.TokenKey() !in unknown && |unknown| >= config.unknownLimit;
    }

    // The limits in the order they are checked.
    method Judge(request: Request) returns (d: Decision)
      requires Valid()
      ensures d == Verdict(config, Abs(), request)
    {
      var rate := RateCount(lastNow);
      if rate >= config.rateLimit {
        var t := FirstExpiryOf(AnyRecord, lastNow - config.rateWindow, config.rateWindow);
        return Decision(GlobalRateLimited, t);
      }
      d := JudgeCounts(request);
    }

    // The limits per token and per source event.
    method JudgeCounts(request: Request) returns (d: Decision)
      requires Valid()
      ensures d == CountVerdict(config, Abs(), request)
    {
      var token, event, unknownBlocked := CountersFor(request);
      if token >= config.tokenLimit {
        var t := FirstExpiryOf(ByToken(request.TokenKey()), lastNow - config.window, config.window);
        return Decision(TokenAttemptsLimited, t);
      }
      if event >= config.eventLimit {
        var t := FirstExpiryOf(ByEvent(request.EventKey()), lastNow - config.window, config.window);
        return Decision(SourceEventLimited, t);
      }
      d := JudgeLast(request, unknownBlocked);
    }

    // The limits checked last: new unknown tokens, and the length of the list.
    method JudgeLast(request: Request, unknownBlocked: bool) returns (d: Decision)
      requires Valid() && unknownBlocked == UnknownBlocked(config, Abs(), request)
      ensures d == LastVerdict(config, Abs(), request)
    {
      if unknownBlocked {
        var t := UnknownRetryAt();
        EarliestUnique(latest, config.window, t);
        return Decision(UnknownTokenRateLimited, t);
      }
      T.CountAny(records);
      if |records| >= config.capacity {
        var t := FirstExpiryOf(AnyRecord, lastNow - config.window, config.window);
        return Decision(CapacityLimited, t);
      }
      return Decision(Allowed, UNSET);
    }

    // The bookkeeping of a new record.
    method Enter(record: Record)
      modifies this`attempts, this`tokens, this`events, this`unknown, this`latest
      ensures Counters() == Entered(old(Counters()), record)
      ensures latest == if record.request.unknown then old(latest)[record.request.TokenKey() := record.admittedAt] else old(latest)
    {
      attempts := attempts[record.request.AttemptKey() := record];
      tokens := Incremented(tokens, record.request.TokenKey());
      events := Incremented(events, record.request.EventKey());
      if record.request.unknown {
        unknown := Incremented(unknown, record.request.TokenKey());
        latest := latest[record.request.TokenKey() := record.admittedAt];
      }
    }

    method Push(request: Request)
      requires Valid() && request.AttemptKey() !in attempts
      modifies this
      ensures Valid() && Abs() == Pushed(old(Abs()), request)
    {
      var record := Record(request, lastNow);
      ghost var counters, before := Counters(), Abs();
      PushAgrees(counters, records, record);
      PushedOrdered(config, before, counters, request);
      Enter(record);
      records := records + [record];
      assert Counters() == Entered(counters, record) && Abs() == Pushed(before, request);
    }

    // A failed write after Push: remove takes the record back out.
    method Rollback(request: Request, ghost before: Controller)
      requires Valid() && before.lastNow == lastNow && Abs() == Pushed(before, request) && Ordered(config, before)
      modifies this
      ensures Valid() && Abs() == RolledBack(before, request)
    {
      var record := Record(request, lastNow);
      ghost var counters := Counters();
      UnpushAgrees(counters, before.records, record);
      RolledBackLatest(config, before, Struck(counters, record), request);
      RolledBackOrdered(config, before, request);
      Forget(record);
      records := records[..|records| - 1];
      assert records == before.records;
      assert Counters() == Struck(counters, record) && Abs() == RolledBack(before, request);
    }

    method Admit(request: Request, clock: Time, stored1: bool, stored2: bool) returns (d: Decision)
      requires Valid()
      modifies this
      ensures Valid() && Outcome(d, Abs()) == M.Admit(config, old(Abs()), request, clock, stored1, stored2)
    {
      if !SkewOk(request.observedAt, clock) { return Decision(InvalidRequest, UNSET); }
      var asked := request.(observedAt := UNSET);
      Expire(Clamp(lastNow, clock));
      if !stored1 { return Decision(PersistenceFailed, UNSET); }
      if !asked.Valid() { return Decision(InvalidRequest, UNSET); }
      TrackedIsIndexed(attempts, records, asked.AttemptKey());
      if asked.AttemptKey() in attempts {
        if attempts[asked.AttemptKey()].request != asked { return Decision(AttemptIdentityConflict, UNSET); }
        return Decision(Allowed, UNSET);
      }
      d := Judge(asked);
      if d.reason != Allowed { return; }
      ghost var aged := Abs();
      Push(asked);
      if !stored2 {
        Rollback(asked, aged);
        d := Decision(PersistenceFailed, UNSET);
      }
    }
  }
}
