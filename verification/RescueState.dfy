/** One rescue operation as the store keeps it: what is well formed, and what may follow what. */
module RescueState {
  import opened Prelude

  const MAX_ERROR_CODE_BYTES: nat := 128
  const MAX_INT64: int := 0x7fff_ffff_ffff_ffff

  datatype Status =
    | Pending | Prepared | Signed | Broadcast | Retryable | Ambiguous
    | Exhausted | Failed | TrustedSuccess | TokenReported | LostRace
  {
    predicate Terminal() {
      this == Exhausted || this == Failed || this == TrustedSuccess || this == TokenReported || this == LostRace
    }

    predicate ReceiptTerminal() { Terminal() && this != Exhausted }

    // statusNeedsReceipt
    predicate InFlight() { this == Signed || this == Broadcast || this == Ambiguous }
  }

  datatype Policy = Policy(latestState: bool, maxAttempts: nat, retryDelay: Time, finalityTimeout: Time)

  // A signed transaction: the fields its encoding determines. Equal bytes are equal records.
  datatype Transaction = Transaction(
    hash: Hash, nonce: Uint64, authorizationNonce: Uint64, gas: Uint64, feeCap: Wei, value: Wei, dataLength: nat)

  datatype Incident = Incident(
    id: IncidentID, parent: IncidentID, candidate: CandidateID, network: NetworkID, kind: Kind, asset: Address,
    generation: nat, trusted: bool, policy: Policy,
    status: Status, attempts: nat, sponsorNonce: Uint64, sourceNonce: Uint64, txHash: Hash,
    signed: Option<Transaction>, snapshotNumber: Uint64, snapshotHash: Hash, sourceBefore: Wei, destinationBefore: Wei,
    retryAt: Time, reconcileUntil: Time, lastCode: string, createdAt: Time, updatedAt: Time)

  // The SHA-256 derivations of incident identifiers.
  datatype Ids = Ids(assetIncident: (CandidateID, Kind, Address) -> IncidentID, parentIncident: CandidateID -> IncidentID)

  // Time.Sub: the difference, clamped to the range of a 64-bit duration.
  function Sub(a: Time, b: Time): int {
    if a - b > MAX_INT64 then MAX_INT64 else if a - b < -MAX_INT64 - 1 then -MAX_INT64 - 1 else a - b
  }

  // validRescueTime
  predicate ValidTime(t: Time) { t >= SECOND }

  predicate ValidSigned(i: Incident) {
    && i.signed.Some?
    && i.txHash != 0
    && i.signed.value.hash == i.txHash
    && i.signed.value.nonce == i.sponsorNonce
    && i.signed.value.authorizationNonce == i.sourceNonce
    && i.signed.value.dataLength > 0
  }

  predicate ValidTerminalSigned(i: Incident) {
    if i.txHash == 0 then i.signed.None? && i.reconcileUntil == UNSET
    else if i.signed.None? then i.reconcileUntil == UNSET
    else ValidSigned(i)
  }

  predicate NoSigned(i: Incident) {
    i.txHash == 0 && i.signed.None? && i.reconcileUntil == UNSET
  }

  predicate ValidIdentity(ids: Ids, i: Incident) {
    && i.network > 0 && i.candidate != 0 && i.generation != 0
    && i.id == ids.assetIncident(i.candidate, i.kind, i.asset)
    && i.parent == ids.parentIncident(i.candidate)
    && match i.kind
       case Native => i.asset == 0
       case Token => i.asset != 0
       case Claim => i.asset != 0
       case _ => false
  }

  predicate ValidPolicy(p: Policy) {
    0 < p.maxAttempts <= MAX_CONFIGURED_BOUND && 0 < p.retryDelay <= MAX_INT64 && 0 < p.finalityTimeout <= MAX_INT64
  }

  // The fields each status allows.
  predicate ValidStatusFields(i: Incident) {
    if i.status == Pending then
      && i.attempts == 0 && i.sponsorNonce == 0 && i.sourceNonce == 0 && i.txHash == 0 && i.signed.None?
      && i.snapshotNumber == 0 && i.snapshotHash == 0 && i.sourceBefore == 0 && i.destinationBefore == 0
      && i.retryAt == UNSET && i.reconcileUntil == UNSET && i.lastCode == ""
    else
      && i.attempts != 0 && i.snapshotHash != 0
      && (match i.status
          case Pending => true
          case Prepared => NoSigned(i) && i.retryAt == UNSET
          case Exhausted => NoSigned(i) && i.retryAt == UNSET
          case Retryable =>
            && NoSigned(i) && i.lastCode != "" && i.retryAt != UNSET
            && i.updatedAt <= i.retryAt && Sub(i.retryAt, i.updatedAt) >= i.policy.retryDelay
          case Signed => ValidSigned(i) && i.retryAt == UNSET && i.reconcileUntil != UNSET && i.updatedAt < i.reconcileUntil
          case Broadcast => ValidSigned(i) && i.retryAt == UNSET && i.reconcileUntil != UNSET && i.updatedAt < i.reconcileUntil
          case Ambiguous =>
            && ValidSigned(i) && i.lastCode != "" && i.reconcileUntil != UNSET && i.updatedAt < i.reconcileUntil
            && (i.retryAt != UNSET ==> i.updatedAt <= i.retryAt <= i.reconcileUntil)
          case Failed => i.retryAt == UNSET && ValidTerminalSigned(i)
          case _ => i.txHash != 0 && i.retryAt == UNSET && ValidTerminalSigned(i))
      && (i.status == TrustedSuccess ==> i.trusted && i.kind != Token && i.kind != Claim)
      && (i.status == TokenReported ==> i.kind == Token || i.kind == Claim)
  }

  // validateRescueIncident
  predicate Valid(ids: Ids, i: Incident) {
    && ValidIdentity(ids, i)
    && ValidPolicy(i.policy)
    && i.attempts <= i.policy.maxAttempts
    && |i.lastCode| <= MAX_ERROR_CODE_BYTES
    && ValidTime(i.createdAt) && ValidTime(i.updatedAt) && i.createdAt <= i.updatedAt
    && (i.retryAt != UNSET ==> ValidTime(i.retryAt))
    && (i.reconcileUntil != UNSET ==> ValidTime(i.reconcileUntil))
    && ValidStatusFields(i)
  }

  predicate SameIdentity(a: Incident, b: Incident) {
    && a.id == b.id && a.parent == b.parent && a.candidate == b.candidate && a.network == b.network && a.kind == b.kind
    && a.asset == b.asset && a.generation == b.generation && a.trusted == b.trusted && a.policy == b.policy
  }

  predicate SamePreparation(a: Incident, b: Incident) {
    && a.sponsorNonce == b.sponsorNonce && a.sourceNonce == b.sourceNonce
    && a.snapshotNumber == b.snapshotNumber && a.snapshotHash == b.snapshotHash
    && a.sourceBefore == b.sourceBefore && a.destinationBefore == b.destinationBefore
  }

  predicate SameSigned(a: Incident, b: Incident) {
    a.attempts == b.attempts && SamePreparation(a, b) && a.txHash == b.txHash && a.signed == b.signed
  }

  predicate ReceiptTransition(current: Incident, next: Incident) {
    && next.attempts == current.attempts && SamePreparation(current, next) && next.txHash == current.txHash
    && (if next.signed.None? then next.reconcileUntil == UNSET
        else next.signed == current.signed && (next.reconcileUntil == UNSET || next.reconcileUntil == current.reconcileUntil))
  }

  // validRescueTransition
  predicate ValidTransition(current: Incident, next: Incident) {
    && SameIdentity(current, next)
    && current.createdAt == next.createdAt
    && current.updatedAt <= next.updatedAt
    && match current.status
       case Pending => (next.status == Prepared || next.status == Retryable) && next.attempts == 1
       case Prepared =>
         // The source nonce is read again immediately before signing.
         && var prepared := if next.status == Signed then current.(sourceNonce := next.sourceNonce) else current;
         && next.attempts == current.attempts && SamePreparation(prepared, next)
         && (|| (next.status == Signed && Sub(next.reconcileUntil, next.updatedAt) >= next.policy.finalityTimeout)
             || next.status == Retryable || next.status == Exhausted
             || (next.status == Failed && next.txHash == 0))
       case Signed =>
         && (next.status == Broadcast || next.status == Ambiguous)
         && SameSigned(current, next) && next.reconcileUntil == current.reconcileUntil
       case Broadcast =>
         if next.status == Ambiguous then SameSigned(current, next) && next.reconcileUntil == current.reconcileUntil
         else next.status.ReceiptTerminal() && ReceiptTransition(current, next)
       case Retryable =>
         && current.retryAt != UNSET && current.retryAt <= next.updatedAt
         && (match next.status
             case Prepared => next.attempts == current.attempts + 1
             case Retryable => next.attempts == current.attempts + 1
             case Exhausted => next.attempts == current.attempts && SamePreparation(current, next)
             case Failed => next.attempts == current.attempts && next.txHash == 0 && SamePreparation(current, next)
             case _ => false)
       case Ambiguous =>
         (match next.status
          case Broadcast => SameSigned(current, next) && next.reconcileUntil == current.reconcileUntil
          case Ambiguous =>
            && SameSigned(current, next) && current.reconcileUntil <= next.reconcileUntil
            && Sub(next.reconcileUntil, current.reconcileUntil) <= current.policy.finalityTimeout
          case _ => next.status.ReceiptTerminal() && ReceiptTransition(current, next))
       case _ => false
  }

  // ---------- What one accepted update keeps ----------

  // incidentHasSignedTransaction
  predicate HasSigned(i: Incident) {
    i.txHash != 0 && i.status != Pending && i.status != Prepared
  }

  predicate SameOperation(a: Incident, b: Incident) {
    && b.attempts == a.attempts
    && b.txHash == a.txHash
    && b.sponsorNonce == a.sponsorNonce
    && b.sourceNonce == a.sourceNonce
    && (a.signed.Some? && b.signed.Some? ==> a.signed == b.signed)
    && (a.signed.None? ==> b.signed.None?)
  }

  lemma SignedIsPermanent(ids: Ids, current: Incident, next: Incident)
    requires Valid(ids, current) && Valid(ids, next) && ValidTransition(current, next) && current.txHash != 0
    ensures SameOperation(current, next) && HasSigned(current) && HasSigned(next)
  {
  }

  lemma HashMeansSigned(ids: Ids, i: Incident)
    requires Valid(ids, i)
    ensures i.txHash != 0 <==> HasSigned(i)
    ensures i.status.InFlight() ==> HasSigned(i) && ValidSigned(i)
  {
  }

  lemma TerminalAbsorbs(current: Incident, next: Incident)
    requires current.status.Terminal()
    ensures !ValidTransition(current, next)
  {
  }

  // ---------- How long an unsigned incident can go on ----------

  predicate Unsigned(i: Incident) {
    i.status == Pending || i.status == Prepared || i.status == Retryable
  }

  // Prepared attempt k comes before its failure, which comes before attempt k + 1.
  function Progress(i: Incident): nat {
    match i.status
    case Pending => 0
    case Prepared => if i.attempts == 0 then 0 else 2 * i.attempts - 1
    case _ => 2 * i.attempts
  }

  lemma UpdateProgresses(ids: Ids, current: Incident, next: Incident)
    requires Valid(ids, current) && Valid(ids, next) && ValidTransition(current, next) && Unsigned(current)
    ensures Unsigned(next) ==> Progress(current) < Progress(next) <= 2 * next.policy.maxAttempts
    ensures !Unsigned(next) ==> next.status == Signed || next.status.Terminal()
  {
  }

  // A chain of accepted updates of one stored incident.
  ghost predicate Chain(ids: Ids, versions: seq<Incident>) {
    && (forall i {:trigger versions[i]} | 0 <= i < |versions| :: Valid(ids, versions[i]))
    && (forall i {:trigger Follows(versions, i)} | 0 < i < |versions| :: Follows(versions, i))
  }

  predicate Follows(versions: seq<Incident>, i: nat)
    requires 0 < i < |versions|
  {
    ValidTransition(versions[i - 1], versions[i])
  }

  lemma {:induction false} ChainProgress(ids: Ids, versions: seq<Incident>, n: nat)
    requires Chain(ids, versions) && n < |versions| && versions[0].status == Pending
    requires forall i | 0 <= i <= n :: Unsigned(versions[i])
    ensures n <= Progress(versions[n]) <= 2 * versions[0].policy.maxAttempts
    ensures versions[n].policy == versions[0].policy
  {
    if n > 0 {
      ChainProgress(ids, versions, n - 1);
      assert Follows(versions, n);
      UpdateProgresses(ids, versions[n - 1], versions[n]);
    }
  }

  // From Pending at most 2 * MaxAttempts + 1 changing updates are accepted until the incident is
  // signed or terminal, and attempts never exceed MaxAttempts.
  lemma UpdatesAreBounded(ids: Ids, versions: seq<Incident>, n: nat)
    requires Chain(ids, versions) && 0 < n < |versions| && versions[0].status == Pending
    requires forall i | 0 <= i < n :: Unsigned(versions[i])
    ensures n <= 2 * versions[0].policy.maxAttempts + 1 && versions[n].attempts <= versions[0].policy.maxAttempts
  {
    ChainProgress(ids, versions, n - 1);
    ChainIdentity(ids, versions, n);
  }

  lemma {:induction false} ChainIdentity(ids: Ids, versions: seq<Incident>, n: nat)
    requires Chain(ids, versions) && n < |versions|
    ensures SameIdentity(versions[0], versions[n]) && versions[n].createdAt == versions[0].createdAt
  {
    if n > 0 {
      ChainIdentity(ids, versions, n - 1);
      assert Follows(versions, n);
    }
  }

  // A record is never older than its attempt allows; a failed attempt schedules the next one late enough.
  predicate OnTime(i: Incident) {
    && (i.attempts > 0 ==> i.createdAt + (i.attempts - 1) * i.policy.retryDelay <= i.updatedAt)
    && (i.status == Retryable ==> i.createdAt + i.attempts * i.policy.retryDelay <= i.retryAt)
  }

  lemma RetryGap(i: Incident)
    requires ValidPolicy(i.policy) && Sub(i.retryAt, i.updatedAt) >= i.policy.retryDelay
    ensures i.updatedAt + i.policy.retryDelay <= i.retryAt
  {
  }

  lemma Product(k: nat, d: Time)
    ensures (k + 1) * d == k * d + d
  {
  }

  lemma UpdateOnTime(ids: Ids, current: Incident, next: Incident)
    requires Valid(ids, current) && Valid(ids, next) && ValidTransition(current, next) && OnTime(current)
    ensures OnTime(next)
  {
    var d := next.policy.retryDelay;
    if next.attempts > 0 {
      Product(next.attempts - 1, d);
    }
    if next.status == Retryable {
      RetryGap(next);
    }
  }

  // Attempt k is never recorded earlier than (k - 1) * RetryDelay after creation.
  lemma {:induction false} AttemptsKeepTheirDistance(ids: Ids, versions: seq<Incident>, n: nat)
    requires Chain(ids, versions) && n < |versions| && versions[0].status == Pending
    ensures OnTime(versions[n])
  {
    if n > 0 {
      AttemptsKeepTheirDistance(ids, versions, n - 1);
      assert Follows(versions, n);
      UpdateOnTime(ids, versions[n - 1], versions[n]);
    }
  }
}
