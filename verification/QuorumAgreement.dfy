/** Normalizing provider responses and requiring that all of them report the same logs. */
module QuorumAgreement {
  import opened Prelude
  import opened QuorumLogs

  // ---------- The order of logs ----------

  // bytes.Compare(s, t) < 0
  predicate LexLess(s: seq<Byte>, t: seq<Byte>) {
    t != [] && (s == [] || s[0] < t[0] || (s[0] == t[0] && LexLess(s[1..], t[1..])))
  }

  lemma {:induction false} LexTotal(s: seq<Byte>, t: seq<Byte>)
    ensures s == t || LexLess(s, t) || LexLess(t, s)
    decreases |s|
  {
    if s != [] && t != [] && s[0] == t[0] {
      LexTotal(s[1..], t[1..]);
      assert s == [s[0]] + s[1..] && t == [t[0]] + t[1..];
    }
  }

  lemma {:induction false} LexStrict(s: seq<Byte>, t: seq<Byte>)
    requires LexLess(s, t)
    ensures s != t && !LexLess(t, s)
    decreases |s|
  {
    if s != [] && s[0] == t[0] {
      LexStrict(s[1..], t[1..]);
    }
  }

  lemma {:induction false} LexTransitive(s: seq<Byte>, t: seq<Byte>, u: seq<Byte>)
    requires LexLess(s, t) && LexLess(t, u)
    ensures LexLess(s, u)
    decreases |s|
  {
    if s != [] && s[0] == t[0] && t[0] == u[0] {
      LexTransitive(s[1..], t[1..], u[1..]);
    }
  }

  predicate Less(a: Log, b: Log)
    requires Sized(a) && Sized(b)
  {
    if a.number != b.number then a.number < b.number
    else if a.txIndex != b.txIndex then a.txIndex < b.txIndex
    else if a.index != b.index then a.index < b.index
    else LexLess(Encode(a), Encode(b))
  }

  // Strict and total: the sorted form of a set of logs is unique.
  lemma LessTotal(a: Log, b: Log)
    requires Sized(a) && Sized(b)
    ensures a == b || Less(a, b) || Less(b, a)
  {
    LexTotal(Encode(a), Encode(b));
    if Encode(a) == Encode(b) {
      EncodeInjective(a, b);
    }
  }

  lemma LessStrict(a: Log, b: Log)
    requires Sized(a) && Sized(b) && Less(a, b)
    ensures a != b && !Less(b, a)
  {
    if a.number == b.number && a.txIndex == b.txIndex && a.index == b.index {
      LexStrict(Encode(a), Encode(b));
    }
  }

  lemma LessTransitive(a: Log, b: Log, d: Log)
    requires Sized(a) && Sized(b) && Sized(d) && Less(a, b) && Less(b, d)
    ensures Less(a, d)
  {
    if a.number == b.number == d.number && a.txIndex == b.txIndex == d.txIndex && a.index == b.index == d.index {
      LexTransitive(Encode(a), Encode(b), Encode(d));
    }
  }

  // ---------- Sorted forms ----------

  predicate AllSized(s: seq<Log>) { forall i {:trigger s[i]} | 0 <= i < |s| :: Sized(s[i]) }

  ghost predicate Ordered(s: seq<Log>) {
    AllSized(s) && forall i, j | 0 <= i < j < |s| :: Less(s[i], s[j])
  }

  ghost predicate SameLogs(s: seq<Log>, t: seq<Log>) {
    forall x :: x in s <==> x in t
  }

  lemma HeadIsLeast(s: seq<Log>, x: Log)
    requires Ordered(s) && x in s
    ensures x == s[0] || (Sized(x) && Less(s[0], x))
  {
    var i :| 0 <= i < |s| && s[i] == x;
  }

  lemma SameHead(a: seq<Log>, b: seq<Log>)
    requires Ordered(a) && Ordered(b) && SameLogs(a, b) && a != [] && b != []
    ensures a[0] == b[0]
  {
    assert a[0] in a && b[0] in b;
    HeadIsLeast(a, b[0]);
    HeadIsLeast(b, a[0]);
    if a[0] != b[0] {
      LessStrict(a[0], b[0]);
    }
  }

  lemma TailSame(a: seq<Log>, b: seq<Log>)
    requires Ordered(a) && Ordered(b) && SameLogs(a, b) && a != [] && b != [] && a[0] == b[0]
    ensures SameLogs(a[1..], b[1..])
  {
    forall x ensures x in a[1..] ==> x in b[1..] {
      TailHas(a, b, x);
    }
    forall x ensures x in b[1..] ==> x in a[1..] {
      TailHas(b, a, x);
    }
  }

  lemma TailHas(a: seq<Log>, b: seq<Log>, x: Log)
    requires Ordered(a) && a != [] && b != [] && a[0] == b[0] && (x in a ==> x in b)
    ensures x in a[1..] ==> x in b[1..]
  {
    if x in a[1..] {
      var i :| 0 < i < |a| && a[i] == x;
      LessStrict(a[0], a[i]);
      var j :| 0 <= j < |b| && b[j] == x;
      assert j > 0 && b[1..][j - 1] == x;
    }
  }

  lemma SameEmpty(a: seq<Log>, b: seq<Log>)
    requires SameLogs(a, b)
    ensures a == [] <==> b == []
  {
    assert a != [] ==> a[0] in b;
    assert b != [] ==> b[0] in a;
  }

  lemma {:induction false} SortedUnique(a: seq<Log>, b: seq<Log>)
    requires Ordered(a) && Ordered(b) && SameLogs(a, b)
    ensures a == b
    decreases |a|
  {
    SameEmpty(a, b);
    if a != [] {
      SameHead(a, b);
      TailSame(a, b);
      SortedUnique(a[1..], b[1..]);
      assert a == [a[0]] + a[1..] && b == [b[0]] + b[1..];
    }
  }

  function Encodings(s: seq<Log>): (e: seq<seq<Byte>>)
    requires AllSized(s)
    ensures |e| == |s| && forall i {:trigger e[i]} | 0 <= i < |s| :: e[i] == Encode(s[i])
  {
    if s == [] then [] else [Encode(s[0])] + Encodings(s[1..])
  }

  lemma EncodingsInjective(a: seq<Log>, b: seq<Log>)
    requires AllSized(a) && AllSized(b) && Encodings(a) == Encodings(b)
    ensures a == b
  {
    assert |a| == |Encodings(a)| == |b|;
    forall i | 0 <= i < |a| ensures a[i] == b[i] {
      assert Encodings(a)[i] == Encodings(b)[i];
      EncodeInjective(a[i], b[i]);
    }
  }

  // Earlier on the chain: by block, then by transaction, then by position in it.
  predicate Before(a: Log, b: Log) {
    a.number < b.number || (a.number == b.number && (a.txIndex < b.txIndex || (a.txIndex == b.txIndex && a.index < b.index)))
  }

  // What is agreed on is in the order of the chain.
  lemma OrderedIsChronological(s: seq<Log>, i: nat, j: nat)
    requires Ordered(s) && i < j < |s|
    ensures !Before(s[j], s[i]) && s[i] != s[j]
    ensures Before(s[i], s[j]) || (s[i].number == s[j].number && s[i].txIndex == s[j].txIndex && s[i].index == s[j].index)
  {
    assert Less(s[i], s[j]);
    LessStrict(s[i], s[j]);
  }

  // The sorted, duplicate-free form of a response.
  ghost predicate IsNormalForm(form: seq<Log>, logs: seq<Log>) {
    Ordered(form) && SameLogs(form, logs)
  }

  // Two normalized responses have equal encodings exactly when the responses contain the same
  // set of logs, in whatever order and however often repeated.
  lemma EncodingsAgreeIff(a: seq<Log>, x: seq<Log>, b: seq<Log>, y: seq<Log>)
    requires IsNormalForm(a, x) && IsNormalForm(b, y)
    ensures Encodings(a) == Encodings(b) <==> SameLogs(x, y)
  {
    if Encodings(a) == Encodings(b) {
      EncodingsInjective(a, b);
      assert forall z :: z in x <==> z in a;
    }
    if SameLogs(x, y) {
      forall z ensures z in a <==> z in b {
        assert z in a <==> z in x;
      }
      SortedUnique(a, b);
    }
  }

  // ---------- normalizeLogs ----------

  ghost predicate Unambiguous(logs: seq<Log>) {
    forall i, j | 0 <= i < |logs| && 0 <= j < |logs| :: IdentityOf(logs[i]) == IdentityOf(logs[j]) ==> logs[i] == logs[j]
  }

  // A response is usable: within bounds, every log valid, repeated logs exact copies.
  ghost predicate Usable(response: Option<seq<Log>>, anchor: Anchor) {
    && response.Some? && |response.value| <= MAX_LOGS_PER_RESPONSE
    && (forall i | 0 <= i < |response.value| :: ValidLog(response.value[i], anchor))
    && Unambiguous(response.value)
  }

  method Insert(s: seq<Log>, log: Log) returns (r: seq<Log>)
    requires Ordered(s) && Sized(log) && log !in s
    ensures Ordered(r)
    ensures forall x :: x in r <==> x in s || x == log
  {
    var k := |s|;
    while k > 0 && Less(log, s[k - 1])
      invariant 0 <= k <= |s|
      invariant forall i | k <= i < |s| :: Less(log, s[i])
    {
      k := k - 1;
    }
    BelowAll(s, log, k);
    r := s[..k] + [log] + s[k..];
  }

  lemma BelowAll(s: seq<Log>, log: Log, k: nat)
    requires Ordered(s) && Sized(log) && log !in s && k <= |s| && (k > 0 ==> !Less(log, s[k - 1]))
    ensures forall i | 0 <= i < k :: Less(s[i], log)
  {
    if k > 0 {
      LessTotal(s[k - 1], log);
      assert s[k - 1] in s;
      forall i | 0 <= i < k ensures Less(s[i], log) {
        if i < k - 1 {
          LessTransitive(s[i], s[k - 1], log);
        }
      }
    }
  }

  // ---------- What the loop over a response has established after k logs ----------

  predicate Filed(seen: map<Identity, seq<Byte>>, log: Log) {
    Sized(log) && IdentityOf(log) in seen && seen[IdentityOf(log)] == Encode(log)
  }

  ghost predicate AllFiled(logs: seq<Log>, k: nat, seen: map<Identity, seq<Byte>>)
    requires k <= |logs|
  {
    forall i {:trigger Filed(seen, logs[i])} | 0 <= i < k :: Filed(seen, logs[i])
  }

  ghost predicate Occurs(logs: seq<Log>, k: nat, d: Identity)
    requires k <= |logs|
  {
    exists i {:trigger logs[i]} | 0 <= i < k :: IdentityOf(logs[i]) == d
  }

  ghost predicate SeenOnly(logs: seq<Log>, k: nat, seen: map<Identity, seq<Byte>>)
    requires k <= |logs|
  {
    forall d {:trigger d in seen} | d in seen :: Occurs(logs, k, d)
  }

  ghost predicate Has(logs: seq<Log>, k: nat, kept: seq<Log>)
    requires k <= |logs|
  {
    forall x :: x in kept <==> x in logs[..k]
  }

  lemma PrefixGrows(logs: seq<Log>, k: nat)
    requires k < |logs|
    ensures logs[..k + 1] == logs[..k] + [logs[k]]
  {
  }

  // A repeated identity with another encoding makes the response ambiguous; with the same one it
  // is an exact copy.
  lemma Repeated(logs: seq<Log>, k: nat, seen: map<Identity, seq<Byte>>)
    requires k < |logs| && AllFiled(logs, k, seen) && SeenOnly(logs, k, seen) && Sized(logs[k]) && IdentityOf(logs[k]) in seen
    ensures seen[IdentityOf(logs[k])] != Encode(logs[k]) ==> !Unambiguous(logs)
    ensures seen[IdentityOf(logs[k])] == Encode(logs[k]) ==> logs[k] in logs[..k]
  {
    assert Occurs(logs, k, IdentityOf(logs[k]));
    var i :| 0 <= i < k && IdentityOf(logs[i]) == IdentityOf(logs[k]);
    assert Filed(seen, logs[i]) && logs[..k][i] == logs[i];
    if seen[IdentityOf(logs[k])] == Encode(logs[k]) {
      EncodeInjective(logs[i], logs[k]);
    }
  }

  lemma NotRepeated(logs: seq<Log>, k: nat, seen: map<Identity, seq<Byte>>)
    requires k < |logs| && AllFiled(logs, k, seen) && IdentityOf(logs[k]) !in seen
    ensures logs[k] !in logs[..k]
  {
    forall i | 0 <= i < k ensures logs[i] != logs[k] {
      assert Filed(seen, logs[i]);
    }
  }

  lemma FileOne(logs: seq<Log>, k: nat, seen: map<Identity, seq<Byte>>)
    requires k < |logs| && AllFiled(logs, k, seen) && Sized(logs[k]) && IdentityOf(logs[k]) !in seen
    ensures AllFiled(logs, k + 1, seen[IdentityOf(logs[k]) := Encode(logs[k])])
  {
    var seen' := seen[IdentityOf(logs[k]) := Encode(logs[k])];
    forall i {:trigger Filed(seen', logs[i])} | 0 <= i < k + 1 ensures Filed(seen', logs[i]) {
      if i < k {
        assert Filed(seen, logs[i]);
      }
    }
  }

  lemma StillSeen(logs: seq<Log>, k: nat, seen: map<Identity, seq<Byte>>, encoded: seq<Byte>)
    requires k < |logs| && SeenOnly(logs, k, seen)
    ensures SeenOnly(logs, k + 1, seen[IdentityOf(logs[k]) := encoded]) && SeenOnly(logs, k + 1, seen)
  {
    var seen' := seen[IdentityOf(logs[k]) := encoded];
    forall d | d in seen' ensures Occurs(logs, k + 1, d) {
      if d in seen {
        assert Occurs(logs, k, d);
        var i :| 0 <= i < k && IdentityOf(logs[i]) == d;
      }
    }
  }

  lemma KeepOne(logs: seq<Log>, k: nat, kept: seq<Log>)
    requires k < |logs| && Has(logs, k, kept) && Distinct(kept)
    ensures logs[k] in logs[..k] ==> Has(logs, k + 1, kept)
    ensures logs[k] !in logs[..k] ==> Has(logs, k + 1, kept + [logs[k]]) && Distinct(kept + [logs[k]])
  {
    PrefixGrows(logs, k);
    if logs[k] !in logs[..k] {
      assert logs[k] !in kept;
    }
  }

  lemma FiledUnambiguous(logs: seq<Log>, seen: map<Identity, seq<Byte>>)
    requires AllFiled(logs, |logs|, seen)
    ensures Unambiguous(logs)
  {
    forall i, j | 0 <= i < |logs| && 0 <= j < |logs| && IdentityOf(logs[i]) == IdentityOf(logs[j]) ensures logs[i] == logs[j] {
      assert Filed(seen, logs[i]) && Filed(seen, logs[j]);
      EncodeInjective(logs[i], logs[j]);
    }
  }

  ghost predicate PrefixValid(logs: seq<Log>, k: nat, anchor: Anchor)
    requires k <= |logs|
  {
    forall i {:trigger logs[i]} | 0 <= i < k :: ValidLog(logs[i], anchor)
  }

  // The first loop: validate, and keep one copy of each log.
  method Deduplicate(logs: seq<Log>, anchor: Anchor) returns (r: Result<seq<Log>, Error>)
    ensures r.Ok? <==> PrefixValid(logs, |logs|, anchor) && Unambiguous(logs)
    ensures r.Ok? ==> Distinct(r.value) && SameLogs(r.value, logs)
    ensures r.Err? ==> r.error == Malformed
  {
    var kept: seq<Log>, seen: map<Identity, seq<Byte>>, k := [], map[], 0;
    while k < |logs|
      invariant 0 <= k <= |logs| && PrefixValid(logs, k, anchor)
      invariant AllFiled(logs, k, seen) && SeenOnly(logs, k, seen) && Has(logs, k, kept) && Distinct(kept)
    {
      if !ValidLog(logs[k], anchor) {
        return Err(Malformed);
      }
      KeepOne(logs, k, kept);
      var identity, encoded := IdentityOf(logs[k]), Encode(logs[k]);
      StillSeen(logs, k, seen, encoded);
      if identity in seen {
        Repeated(logs, k, seen);
        if seen[identity] != encoded {
          return Err(Malformed);
        }
      } else {
        NotRepeated(logs, k, seen);
        FileOne(logs, k, seen);
        seen := seen[identity := encoded];
        kept := kept + [logs[k]];
      }
      k := k + 1;
    }
    assert logs[..k] == logs;
    FiledUnambiguous(logs, seen);
    return Ok(kept);
  }

  ghost predicate Distinct(s: seq<Log>) {
    forall i, j | 0 <= i < j < |s| :: s[i] != s[j]
  }

  method SortLogs(logs: seq<Log>) returns (sorted: seq<Log>)
    requires AllSized(logs) && Distinct(logs)
    ensures IsNormalForm(sorted, logs)
  {
    sorted := [];
    var k := 0;
    while k < |logs|
      invariant 0 <= k <= |logs| && Ordered(sorted) && Has(logs, k, sorted)
    {
      PrefixGrows(logs, k);
      assert logs[k] !in logs[..k];
      sorted := Insert(sorted, logs[k]);
      k := k + 1;
    }
    assert logs[..k] == logs;
  }

  method NormalizeLogs(response: Option<seq<Log>>, anchor: Anchor) returns (r: Result<seq<Log>, Error>)
    ensures r.Ok? <==> Usable(response, anchor)
    ensures r.Ok? ==> IsNormalForm(r.value, response.value)
    ensures r.Err? ==> r.error == Malformed
  {
    if response.None? || |response.value| > MAX_LOGS_PER_RESPONSE {
      return Err(Malformed);
    }
    var kept := Deduplicate(response.value, anchor);
    if kept.Err? {
      return kept;
    }
    KeptSized(response.value, anchor, kept.value);
    var sorted := SortLogs(kept.value);
    return Ok(sorted);
  }

  lemma KeptSized(logs: seq<Log>, anchor: Anchor, kept: seq<Log>)
    requires PrefixValid(logs, |logs|, anchor) && SameLogs(kept, logs)
    ensures AllSized(kept)
  {
    forall i {:trigger kept[i]} | 0 <= i < |kept| ensures Sized(kept[i]) {
      assert kept[i] in logs;
    }
  }

  // equalEncoding
  method EqualEncoding(left: seq<seq<Byte>>, right: seq<seq<Byte>>) returns (equal: bool)
    ensures equal <==> left == right
  {
    if |left| != |right| {
      return false;
    }
    var k := 0;
    while k < |left|
      invariant 0 <= k <= |left| && left[..k] == right[..k]
    {
      if left[k] != right[k] {
        return false;
      }
      k := k + 1;
    }
    return true;
  }

  ghost predicate AllUsable(responses: seq<Option<seq<Log>>>, k: nat, anchor: Anchor)
    requires k <= |responses|
  {
    forall i {:trigger responses[i]} | 0 <= i < k :: Usable(responses[i], anchor)
  }

  // Whatever answered, answered the same set of logs.
  ghost predicate AllSame(responses: seq<Option<seq<Log>>>) {
    forall i, j | 0 <= i < |responses| && 0 <= j < |responses| && responses[i].Some? && responses[j].Some? ::
      SameLogs(responses[i].value, responses[j].value)
  }

  lemma NormalFormsSame(agreed: seq<Log>, responses: seq<Option<seq<Log>>>, anchor: Anchor)
    requires AllUsable(responses, |responses|, anchor) && forall i | 0 <= i < |responses| :: IsNormalForm(agreed, responses[i].value)
    ensures AllSame(responses)
  {
  }

  // FilterLogs after the responses are in: the agreed form describes every one of them.
  method Agree(responses: seq<Option<seq<Log>>>, anchor: Anchor) returns (r: Result<seq<Log>, Error>)
    ensures r.Ok? ==> AllUsable(responses, |responses|, anchor) && forall i | 0 <= i < |responses| :: IsNormalForm(r.value, responses[i].value)
    ensures r.Err? && r.error == Mismatch ==> exists i, j | 0 <= i < |responses| && 0 <= j < |responses| ::
              Usable(responses[i], anchor) && Usable(responses[j], anchor) && !SameLogs(responses[i].value, responses[j].value)
    ensures r.Err? && r.error == Malformed ==> exists i | 0 <= i < |responses| :: !Usable(responses[i], anchor)
    ensures r.Ok? <==> AllUsable(responses, |responses|, anchor) && AllSame(responses)
  {
    var agreed: seq<Log> := [];
    var k := 0;
    while k < |responses|
      invariant 0 <= k <= |responses| && AllUsable(responses, k, anchor) && Ordered(agreed)
      invariant forall i | 0 <= i < k :: IsNormalForm(agreed, responses[i].value)
    {
      var normalized := NormalizeLogs(responses[k], anchor);
      if normalized.Err? {
        return normalized;
      }
      if k == 0 {
        agreed := normalized.value;
      } else {
        var equal := EqualEncoding(Encodings(agreed), Encodings(normalized.value));
        EncodingsAgreeIff(agreed, responses[0].value, normalized.value, responses[k].value);
        if !equal {
          return Err(Mismatch);
        }
        EncodingsInjective(agreed, normalized.value);
      }
      k := k + 1;
    }
    NormalFormsSame(agreed, responses, anchor);
    return Ok(agreed);
  }
}
