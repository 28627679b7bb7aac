/** Exactly when the store takes each record the coordinator proposes. */
module RescueUpdates {
  import opened Prelude
  import opened RescueState
  import opened RescueStore
  import opened SigningModel

  // The store takes the record over the one it has.
  predicate Takes(c: Config, s: Store, next: Incident) { RescueStore.Update(c, s, next).result.Ok? }

  ghost predicate Stored(c: Config, s: Store, i: Incident) { RescueStore.Inv(c, s) && i.id in s.incidents && s.incidents[i.id] == i }

  predicate Short(code: string) { |code| <= MAX_ERROR_CODE_BYTES }

  // A new attempt: after the retry time, while attempts are left, on a known block.
  lemma PreparedTaken(c: Config, s: Store, i: Incident, b: Snapshot, nonce: Uint64, sourceNonce: Uint64, now: Time)
    requires Stored(c, s, i)
    ensures Takes(c, s, PreparedRecord(i, b, nonce, sourceNonce, now)) <==> Retriable(i, now) && b.hash != 0 && i.updatedAt <= now
  {
    assert Acceptable(c, i);
  }

  lemma PreparationFailedTaken(c: Config, s: Store, i: Incident, b: Snapshot, code: string, now: Time)
    requires Stored(c, s, i)
    ensures Takes(c, s, PreparationFailedRecord(i, b, code, now)) <==>
            Retriable(i, now) && b.hash != 0 && i.updatedAt <= now && code != "" && Short(code)
  {
    assert Acceptable(c, i);
  }

  // A prepared attempt that is given up for now.
  lemma RetryableTaken(c: Config, s: Store, i: Incident, code: string, now: Time)
    requires Stored(c, s, i) && i.status == Prepared
    ensures Takes(c, s, RetryableRecord(i, code, now)) <==> i.updatedAt <= now && code != "" && Short(code)
  {
    assert Acceptable(c, i);
  }

  // A signed transaction: the one that was prepared.
  lemma SignedTaken(c: Config, s: Store, i: Incident, tx: Transaction, now: Time)
    requires Stored(c, s, i) && i.status == Prepared
    ensures Takes(c, s, SignedRecord(i, tx, now)) <==> i.updatedAt <= now && tx.hash != 0 && tx.nonce == i.sponsorNonce && tx.dataLength > 0
  {
    assert Acceptable(c, i);
  }

  predicate BeforeDeadline(i: Incident, now: Time) { i.updatedAt <= now < i.reconcileUntil }

  // A broadcast: before the deadline only, and not twice with different times.
  lemma BroadcastTaken(c: Config, s: Store, i: Incident, now: Time)
    requires Stored(c, s, i) && i.status.InFlight()
    ensures Takes(c, s, BroadcastRecord(i, now)) <==>
            if i.status == Broadcast then now == i.updatedAt && i.lastCode == "" else BeforeDeadline(i, now)
  {
    assert Acceptable(c, i);
  }

  lemma ReceivedTaken(c: Config, s: Store, i: Incident, now: Time)
    requires Stored(c, s, i) && i.status == Signed
    ensures Takes(c, s, i.(status := Ambiguous, lastCode := CODE_BROADCAST, updatedAt := now)) <==> BeforeDeadline(i, now)
  {
    assert Acceptable(c, i);
  }

  // The end of the reconciliation time can always be recorded.
  lemma ExpiredTaken(c: Config, s: Store, i: Incident)
    requires Stored(c, s, i) && i.status.InFlight()
    ensures Takes(c, s, ExpiredRecord(i))
  {
    assert Acceptable(c, i);
  }

  // Doubt: always after the deadline, before it with a clock that has not gone back.
  lemma AmbiguousTaken(c: Config, s: Store, i: Incident, code: string, now: Time)
    requires Stored(c, s, i) && i.status.InFlight() && code != "" && Short(code)
    ensures Takes(c, s, AmbiguousRecord(i, code, now)) <==> i.updatedAt <= now
  {
    assert Acceptable(c, i);
    ExpiredTaken(c, s, i);
  }

  predicate Fitting(i: Incident, status: Status) {
    && (status == TrustedSuccess ==> i.trusted && i.kind != Token && i.kind != Claim)
    && (status == TokenReported ==> i.kind == Token || i.kind == Claim)
  }

  // An outcome from a receipt: not straight from Signed, and never Exhausted.
  lemma OutcomeTaken(c: Config, s: Store, i: Incident, status: Status, code: string, now: Time)
    requires Stored(c, s, i) && i.status.InFlight() && status.Terminal()
    ensures Takes(c, s, TerminalRecord(i, status, code, now)) <==>
            i.status != Signed && status != Exhausted && Fitting(i, status) && i.updatedAt <= now && Short(code)
  {
    assert Acceptable(c, i);
  }

  // An end without a transaction: from a prepared attempt, or one whose retry time has come.
  lemma ClosedTaken(c: Config, s: Store, i: Incident, status: Status, code: string, now: Time)
    requires Stored(c, s, i) && Unsigned(i) && status.Terminal()
    ensures Takes(c, s, TerminalRecord(i, status, code, now)) <==>
            && (status == Exhausted || status == Failed) && i.updatedAt <= now && Short(code)
            && (i.status == Prepared || (i.status == Retryable && i.retryAt <= now))
  {
    assert Acceptable(c, i);
  }
}
