/**
 * The signing protocol of one coordinator, one durable write per step: allocate a sponsor nonce,
 * prepare, sign, persist, raise the nonce floor, expose, send, reconcile, crash and recover.
 */
module SigningModel {
  import opened Prelude
  import opened RescueState
  import opened RescueStore
  import B = BudgetModel
  import R = BudgetRuns
  import L = BudgetSteps
  import F = Fees

  const CODE_BROADCAST := "rescue_broadcast_failed"
  const CODE_RECEIPT_TIMEOUT := "rescue_receipt_timeout"
  const CODE_SIGNED_PAYLOAD_INVALID := "rescue_signed_payload_invalid"
  const CODE_SIGNER_MISMATCH := "rescue_signer_mismatch"
  const CODE_CONTEXT_CANCELED := "rescue_context_canceled"
  const CODE_LEASE_LOST := "rescue_lease_lost"
  const MAX_UNFINALIZED_OPERATIONS := 16

  datatype TokenValue = TokenValue(minimumBalance: Wei, maximumCost: Wei)

  datatype ClaimPlan = ClaimPlan(token: Address, gasLimit: Uint64, value: Wei, maximumCost: Wei)

  // What the coordinator is configured with. A claim candidate is a digest of its plan, so the plan
  // of a candidate never changes.
  datatype Params = Params(
    store: RescueStore.Config, ledger: B.Config, sponsor: Address, fees: F.FeePolicy, nativeMinimum: Wei,
    tokens: map<Address, TokenValue>, claims: map<CandidateID, ClaimPlan>)

  // Where the single operation under the operation mutex has got to.
  datatype Phase =
    | Idle
    | Checking(id: IncidentID) // prepared, before the sponsor nonce is read again
    | Ready(id: IncidentID)    // prepared with the current sponsor nonce
    | Written(id: IncidentID)  // Signed is durable, the floor is not yet raised
    | Sending(id: IncidentID)  // the floor is durable and in memory

  const NO_TRANSACTION := Transaction(0, 0, 0, 0, 0, 0, 0)

  // A signature handed out, and the attempt it was made for.
  datatype Signature = Signature(attempt: B.Attempt, transaction: Transaction)

  datatype State = State(
    disk: Store, books: R.Run,                          // durable
    floor: Uint64, blocked: bool, running: bool,        // the coordinator's memory
    latest: bool, phase: Phase,
    clock: Time,                                        // its last clock reading
    history: seq<Signature>,                            // every transaction ever recorded as signed
    sent: set<Signature>, sends: nat,                   // what was handed to the network, and how often
    mined: set<Hash>)                                   // what the network has included

  function Start(latest: bool): State {
    State(EMPTY, R.Run(B.INITIAL, []), 0, false, false, latest, Idle, 0, [], {}, 0, {})
  }

  datatype Snapshot = Snapshot(number: Uint64, hash: Hash, source: Wei, destination: Wei)

  // ---------- Guards ----------

  // nonceBlockingCode
  predicate BlockingCode(code: string) {
    || code == CODE_BROADCAST || code == CODE_LEASE_LOST || code == CODE_SIGNER_MISMATCH
    || code == CODE_CONTEXT_CANCELED || code == CODE_SIGNED_PAYLOAD_INVALID
  }

  predicate Blocks(i: Incident, now: Time) {
    i.status == Signed || (i.status == Ambiguous && (i.reconcileUntil <= now || BlockingCode(i.lastCode)))
  }

  // refreshNonceBlock
  predicate BlockedAt(m: map<IncidentID, Incident>, now: Time) {
    exists id | id in m :: Blocks(m[id], now)
  }

  function InFlight(m: map<IncidentID, Incident>): set<IncidentID> {
    set id | id in m && m[id].status.InFlight()
  }

  // The highest allocated nonce; among equals, the incident listed first.
  predicate IsHighest(m: map<IncidentID, Incident>, id: IncidentID) {
    && id in InFlight(m)
    && forall other | other in InFlight(m) ::
         m[other].sponsorNonce < m[id].sponsorNonce || (m[other].sponsorNonce == m[id].sponsorNonce && id <= other)
  }

  // checkFastInFlight
  predicate FastClear(m: map<IncidentID, Incident>, asset: Address, mined: set<Hash>) {
    && (forall id | id in InFlight(m) :: m[id].asset != asset)
    && |InFlight(m)| < MAX_UNFINALIZED_OPERATIONS
    && (InFlight(m) == {} || exists id | id in m :: IsHighest(m, id) && m[id].txHash in mined)
  }

  // What resumeIncident and prefetchAttempt demand before a nonce may be used.
  predicate MaySign(s: State, i: Incident) {
    && s.running && s.phase == Idle
    && (s.latest || !s.blocked)
    && (s.latest || i.policy.latestState ==> FastClear(s.disk.incidents, i.asset, s.mined))
  }

  // sponsorNonce: the floor after a reading of the pending nonce.
  function Raised(floor: Uint64, pending: Uint64): Uint64 {
    if pending > floor then pending else floor
  }

  predicate NonceRead(floor: Uint64, pending: Uint64) {
    pending != MAX_UINT64 && Raised(floor, pending) != MAX_UINT64
  }

  // ---------- What an operation costs ----------

  // claimFor, trustedTokenValues and nativeMinimum.
  function OperationOf(p: Params, i: Incident): Option<F.Operation> {
    match i.kind
    case Native => Some(F.Native(i.sourceBefore, p.nativeMinimum))
    case Token =>
      if !i.trusted then Some(F.UnknownToken)
      else if i.asset in p.tokens then
        Some(F.TrustedToken(i.sourceBefore, p.tokens[i.asset].minimumBalance, p.tokens[i.asset].maximumCost))
      else None
    case Claim =>
      if i.candidate in p.claims && p.claims[i.candidate].token == i.asset then
        Some(F.ClaimCall(p.claims[i.candidate].gasLimit, p.claims[i.candidate].value, p.claims[i.candidate].maximumCost))
      else None
    case _ => None
  }

  // The base fee and the gas price the network suggests.
  datatype Prices = Prices(base: int, suggested: int)

  // The quote the signing path asks a reservation for.
  function QuoteOf(p: Params, op: F.Operation, prices: Prices): Option<B.CostQuote> {
    var fees := F.BuildFeeQuote(p.fees, F.AssetOf(op), Some(prices.base), Some(prices.suggested));
    if fees.Err? then None
    else
      var quote := F.SigningQuote(p.fees, op, fees.value);
      if quote.Err? then None else Some(quote.value)
  }

  function AttemptOf(i: Incident): B.Attempt { B.Attempt(i.id, i.attempts) }

  function RequestOf(p: Params, i: Incident, quote: B.CostQuote, balance: Wei, observedAt: Time): B.Request {
    B.Request(p.store.network, p.sponsor, i.candidate, AttemptOf(i), quote, balance, observedAt)
  }

  // The transaction is the one its open reservation was quoted for.
  predicate Funded(p: Params, ledger: B.Ledger, i: Incident, prices: Prices, tx: Transaction) {
    && OperationOf(p, i).Some? && QuoteOf(p, OperationOf(p, i).value, prices).Some?
    && AttemptOf(i) in ledger.attempts && ledger.attempts[AttemptOf(i)] in ledger.reservations
    && var r, quote := ledger.reservations[ledger.attempts[AttemptOf(i)]], QuoteOf(p, OperationOf(p, i).value, prices).value;
    && r.Open() && r.request.quote == quote && r.request.network == p.store.network
    && tx.gas == quote.gasLimit && tx.feeCap == quote.maxFeePerGas && tx.value == F.ValueOf(OperationOf(p, i).value)
  }

  // ---------- Records the coordinator writes ----------

  function PreparedRecord(i: Incident, b: Snapshot, sponsorNonce: Uint64, sourceNonce: Uint64, now: Time): Incident {
    i.(attempts := i.attempts + 1, status := Prepared, sponsorNonce := sponsorNonce, sourceNonce := sourceNonce, txHash := 0,
       signed := None, snapshotNumber := b.number, snapshotHash := b.hash, sourceBefore := b.source,
       destinationBefore := b.destination, retryAt := UNSET, reconcileUntil := UNSET, lastCode := "", updatedAt := now)
  }

  function PreparationFailedRecord(i: Incident, b: Snapshot, code: string, now: Time): Incident {
    PreparedRecord(i, b, 0, 0, now).(status := Retryable, lastCode := code, retryAt := now + i.policy.retryDelay)
  }

  function RetryableRecord(i: Incident, code: string, now: Time): Incident {
    i.(status := Retryable, lastCode := code, txHash := 0, signed := None, reconcileUntil := UNSET,
       retryAt := now + i.policy.retryDelay, updatedAt := now)
  }

  function SignedRecord(i: Incident, tx: Transaction, now: Time): Incident {
    i.(status := Signed, sourceNonce := tx.authorizationNonce, txHash := tx.hash, signed := Some(tx),
       reconcileUntil := now + i.policy.finalityTimeout, retryAt := UNSET, lastCode := "", updatedAt := now)
  }

  function BroadcastRecord(i: Incident, now: Time): Incident {
    i.(status := Broadcast, lastCode := "", retryAt := UNSET, updatedAt := now)
  }

  function ExpiredRecord(i: Incident): Incident {
    if i.status == Ambiguous && i.lastCode == CODE_RECEIPT_TIMEOUT && i.retryAt == UNSET then i
    else
      i.(status := Ambiguous, lastCode := CODE_RECEIPT_TIMEOUT, retryAt := UNSET,
         updatedAt := if i.reconcileUntil - 1 < i.updatedAt then i.updatedAt else i.reconcileUntil - 1)
  }

  // persistAmbiguousCode
  function AmbiguousRecord(i: Incident, code: string, now: Time): Incident {
    if i.reconcileUntil <= now then ExpiredRecord(i)
    else
      var retryAt := now + i.policy.retryDelay;
      i.(status := Ambiguous, lastCode := if BlockingCode(i.lastCode) && !BlockingCode(code) then i.lastCode else code,
         retryAt := if retryAt > i.reconcileUntil then i.reconcileUntil else retryAt, updatedAt := now)
  }

  function TerminalRecord(i: Incident, status: Status, code: string, now: Time): Incident {
    i.(status := status, signed := None, retryAt := UNSET, reconcileUntil := UNSET, lastCode := code, updatedAt := now)
  }

  predicate Outside(phase: Phase) { phase == Idle || phase.Sending? }

  // ---------- Steps ----------

  datatype Event =
    // the coordinator, under the operation mutex
    | Put(incident: Incident)
    | ReadNonce(pending: Uint64)
    | Prepare(id: IncidentID, block: Snapshot, pending: Uint64, sourceNonce: Uint64, now: Time)
    | PrepareRefused(id: IncidentID, block: Snapshot, now: Time)
    | PreparationFails(id: IncidentID, block: Snapshot, code: string, now: Time)
    | Resume(id: IncidentID)
    | CheckNonce(pending: Uint64)
    | Fund(prices: Prices, balance: Wei, observedAt: Time, clock: Time)
    | Sign(prices: Prices, tx: Transaction, now: Time)
    | FailBeforeSigned(id: IncidentID, code: string, now: Time)
    | Close(id: IncidentID, status: Status, code: string, now: Time)
    | Leave
    | WriteFloor(ok: bool)
    | EnsureFloor(id: IncidentID, ok: bool)
    | Send(balance: Wei, observedAt: Time, clock: Time)
    | MarkBroadcast(id: IncidentID, now: Time)
    | MarkAmbiguous(id: IncidentID, code: string, now: Time)
    | MarkReceived(id: IncidentID, now: Time)
    | Expire(id: IncidentID, now: Time)
    | Finish(id: IncidentID, status: Status, code: string, now: Time)
    | Refresh(now: Time)
    | RefreshFails
    | Prune(retain: int)
    // everybody else
    | Budget(command: R.Command)
    | Mine(hash: Hash)
    // the process
    | Crash(latest: bool)
    | RecoverFloor
    | RecoverRaise(id: IncidentID, ok: bool)
    | Recovered

  // An incident write: accepted by the store, or refused and the operation ends.
  function Save(p: Params, s: State, next: Incident, phase: Phase, now: Time): State {
    var outcome := RescueStore.Update(p.store, s.disk, next);
    if outcome.result.Ok? then s.(disk := outcome.after, phase := phase, clock := now)
    else s.(phase := Idle, clock := now)
  }

  // RaiseNonceFloor on disk, and then in memory.
  function RaiseBoth(s: State, nonce: Uint64, phase: Phase): State
    requires nonce < MAX_UINT64
  {
    s.(disk := RescueStore.RaiseNonceFloor(s.disk, nonce + 1), floor := Raised(s.floor, nonce + 1), phase := phase)
  }

  predicate Retriable(i: Incident, now: Time) {
    && (i.status == Pending || i.status == Retryable)
    && i.attempts < i.policy.maxAttempts
    && (i.retryAt == UNSET || i.retryAt <= now)
  }

  function DoPut(p: Params, s: State, i: Incident): State {
    if s.phase != Idle then s else s.(disk := RescueStore.Put(p.store, s.disk, i).after)
  }

  function DoReadNonce(s: State, pending: Uint64): State {
    if s.phase != Idle || !NonceRead(s.floor, pending) then s else s.(floor := Raised(s.floor, pending))
  }

  function DoPrepare(p: Params, s: State, id: IncidentID, b: Snapshot, pending: Uint64, sourceNonce: Uint64, now: Time): State {
    if id !in s.disk.incidents || !MaySign(s, s.disk.incidents[id]) || !Retriable(s.disk.incidents[id], now)
       || !NonceRead(s.floor, pending) then s
    else
      var i := s.disk.incidents[id];
      var floor := Raised(s.floor, pending);
      Save(p, s.(floor := floor), PreparedRecord(i, b, floor, if i.policy.latestState then 0 else sourceNonce, now),
           if i.policy.latestState then Ready(id) else Checking(id), now)
  }

  function DoPrepareRefused(p: Params, s: State, id: IncidentID, b: Snapshot, now: Time): State {
    if id !in s.disk.incidents || !MaySign(s, s.disk.incidents[id]) || !Retriable(s.disk.incidents[id], now) then s
    else Save(p, s, PreparedRecord(s.disk.incidents[id], b, 0, 0, now), Idle, now)
  }

  function DoPreparationFails(p: Params, s: State, id: IncidentID, b: Snapshot, code: string, now: Time): State {
    if s.phase != Idle || id !in s.disk.incidents || !Retriable(s.disk.incidents[id], now) then s
    else Save(p, s, PreparationFailedRecord(s.disk.incidents[id], b, code, now), Idle, now)
  }

  // A Prepared incident found in the store: only non-latest policies may go on with it.
  function DoResume(s: State, id: IncidentID): State {
    if id !in s.disk.incidents || s.disk.incidents[id].status != Prepared || s.disk.incidents[id].policy.latestState
       || !MaySign(s, s.disk.incidents[id]) then s
    else s.(phase := Checking(id))
  }

  function DoCheckNonce(s: State, pending: Uint64): State {
    if !s.phase.Checking? || !NonceRead(s.floor, pending) || s.phase.id !in s.disk.incidents
       || s.disk.incidents[s.phase.id].status != Prepared then s
    else
      var floor := Raised(s.floor, pending);
      s.(floor := floor, phase := if s.disk.incidents[s.phase.id].sponsorNonce == floor then Ready(s.phase.id) else s.phase)
  }

  // The signer signs exactly what was prepared; no two different transactions share a hash.
  predicate SignerAnswers(s: State, i: Incident, tx: Transaction) {
    && tx.nonce == i.sponsorNonce
    && forall k | 0 <= k < |s.history| :: s.history[k].transaction.hash == tx.hash ==> s.history[k].transaction == tx
  }

  // The worst case is reserved before anything is signed.
  ghost function DoFund(p: Params, s: State, prices: Prices, balance: Wei, observedAt: Time, clock: Time): State {
    if !s.phase.Ready? || s.phase.id !in s.disk.incidents || s.disk.incidents[s.phase.id].status != Prepared
       || OperationOf(p, s.disk.incidents[s.phase.id]).None? then s
    else
      var i := s.disk.incidents[s.phase.id];
      var quote := QuoteOf(p, OperationOf(p, i).value, prices);
      if quote.None? then s
      else s.(books := R.Advance(p.ledger, s.books, R.DoReserve(RequestOf(p, i, quote.value, balance, observedAt), clock)))
  }

  function DoSign(p: Params, s: State, prices: Prices, tx: Transaction, now: Time): State {
    if !s.phase.Ready? || s.phase.id !in s.disk.incidents || s.disk.incidents[s.phase.id].status != Prepared
       || !SignerAnswers(s, s.disk.incidents[s.phase.id], tx)
       || !Funded(p, s.books.ledger, s.disk.incidents[s.phase.id], prices, tx) then s
    else
      var i := s.disk.incidents[s.phase.id];
      var s' := Save(p, s, SignedRecord(i, tx, now), Written(s.phase.id), now);
      if s'.phase == Idle then s'
      else s'.(blocked := true, history := s.history + [Signature(B.Attempt(i.id, i.attempts), tx)])
  }

  function DoFailBeforeSigned(p: Params, s: State, id: IncidentID, code: string, now: Time): State {
    if (s.phase != Idle && s.phase != Ready(id) && s.phase != Checking(id)) || id !in s.disk.incidents
       || s.disk.incidents[id].status != Prepared then s
    else Save(p, s, RetryableRecord(s.disk.incidents[id], code, now), Idle, now)
  }

  function DoClose(p: Params, s: State, id: IncidentID, status: Status, code: string, now: Time): State {
    if s.phase != Idle || id !in s.disk.incidents || !Unsigned(s.disk.incidents[id]) then s
    else Save(p, s, TerminalRecord(s.disk.incidents[id], status, code, now), Idle, now)
  }

  // The operation ends with an error and writes nothing more.
  function DoLeave(s: State): State {
    if s.phase.Written? then s else s.(phase := Idle)
  }

  function DoWriteFloor(s: State, ok: bool): State {
    if !s.phase.Written? || s.phase.id !in s.disk.incidents then s
    else if !ok || s.disk.incidents[s.phase.id].sponsorNonce == MAX_UINT64 then s.(phase := Idle)
    else RaiseBoth(s, s.disk.incidents[s.phase.id].sponsorNonce, Sending(s.phase.id))
  }

  function DoEnsureFloor(s: State, id: IncidentID, ok: bool): State {
    if s.phase != Idle || id !in InFlight(s.disk.incidents) || !ok
       || s.disk.incidents[id].sponsorNonce == MAX_UINT64 then s
    else RaiseBoth(s, s.disk.incidents[id].sponsorNonce, Sending(id))
  }

  // validatePersistedTransaction, as far as the record and the configuration decide it.
  predicate PayloadChecks(p: Params, i: Incident) {
    && i.signed.Some? && i.signed.value.hash == i.txHash && i.signed.value.nonce == i.sponsorNonce
    && OperationOf(p, i).Some?
    && var op := OperationOf(p, i).value;
    && i.signed.value.value == F.ValueOf(op) && i.signed.value.feeCap > 0
    && i.signed.value.gas == if op.ClaimCall? then op.gasLimit else p.fees.GasLimit(F.AssetOf(op))
  }

  function RestoredQuote(p: Params, i: Incident): B.CostQuote
    requires PayloadChecks(p, i)
  {
    B.CostQuote(i.signed.value.gas, i.signed.value.feeCap, F.CapOf(p.fees, OperationOf(p, i).value))
  }

  // ensureReservation: a reservation that is gone is made again from the signed transaction.
  ghost function Restored(p: Params, books: R.Run, i: Incident, balance: Wei, observedAt: Time, clock: Time): R.Run
    requires PayloadChecks(p, i)
  {
    if AttemptOf(i) in books.ledger.attempts then books
    else R.Advance(p.ledger, books, R.DoReserve(RequestOf(p, i, RestoredQuote(p, i), balance, observedAt), clock))
  }

  // The rest of sendPersisted: check the sponsor's balance, expose the reservation, send.
  ghost function ExposeAndSend(p: Params, s: State, i: Incident, balance: Wei): State
    requires i.signed.Some? && AttemptOf(i) in s.books.ledger.attempts
  {
    var rid := s.books.ledger.attempts[AttemptOf(i)];
    var checked := R.Advance(p.ledger, s.books, R.DoCheck(rid, balance));
    if L.CheckSponsorCapacity(p.ledger, s.books.ledger, rid, balance).result.Err? then s.(books := checked)
    else
      var exposed := R.Advance(p.ledger, checked, R.DoExpose(rid, i.txHash));
      if L.MarkExposed(p.ledger, checked.ledger, rid, i.txHash).result.Err? then s.(books := exposed)
      else Handed(s, exposed, i)
  }

  function Handed(s: State, books: R.Run, i: Incident): State
    requires i.signed.Some?
  {
    s.(books := books, sent := s.sent + {Signature(AttemptOf(i), i.signed.value)}, sends := s.sends + 1)
  }

  // sendPersisted: the transaction leaves only after its reservation is exposed under its hash.
  ghost function DoSend(p: Params, s: State, balance: Wei, observedAt: Time, clock: Time): State {
    if !s.phase.Sending? || s.phase.id !in InFlight(s.disk.incidents) || !PayloadChecks(p, s.disk.incidents[s.phase.id]) then s
    else
      var i := s.disk.incidents[s.phase.id];
      var restored := s.(books := Restored(p, s.books, i, balance, observedAt, clock));
      if AttemptOf(i) in restored.books.ledger.attempts then ExposeAndSend(p, restored, i, balance) else restored
  }

  predicate WasSent(s: State, i: Incident) {
    i.signed.Some? && Signature(AttemptOf(i), i.signed.value) in s.sent
  }

  // After a send, or on a mined receipt.
  function DoMarkBroadcast(p: Params, s: State, id: IncidentID, now: Time): State {
    if id !in InFlight(s.disk.incidents) then s
    else if (s.phase == Sending(id) && WasSent(s, s.disk.incidents[id])) || (s.phase == Idle && s.disk.incidents[id].txHash in s.mined)
    then Save(p, s, BroadcastRecord(s.disk.incidents[id], now), Idle, now)
    else s
  }

  // After the floor was ensured, on a mined receipt, on a broadcast that went unconfirmed, or
  // because the stored payload does not check.
  function DoMarkAmbiguous(p: Params, s: State, id: IncidentID, code: string, now: Time): State {
    if id !in InFlight(s.disk.incidents) then s
    else if || s.phase == Sending(id)
            || (s.phase == Idle &&
                (|| s.disk.incidents[id].txHash in s.mined || s.disk.incidents[id].status == Broadcast
                 || code == CODE_SIGNED_PAYLOAD_INVALID || code == CODE_SIGNER_MISMATCH))
    then Save(p, s, AmbiguousRecord(s.disk.incidents[id], code, now), Idle, now)
    else s
  }

  // A receipt for a transaction still recorded as only signed.
  function DoMarkReceived(p: Params, s: State, id: IncidentID, now: Time): State {
    if s.phase != Idle || id !in s.disk.incidents || s.disk.incidents[id].status != Signed
       || s.disk.incidents[id].txHash !in s.mined then s
    else Save(p, s, s.disk.incidents[id].(status := Ambiguous, lastCode := CODE_BROADCAST, updatedAt := now), Idle, now)
  }

  function DoExpire(p: Params, s: State, id: IncidentID, now: Time): State {
    if s.phase != Idle || id !in InFlight(s.disk.incidents) || now < s.disk.incidents[id].reconcileUntil then s
    else Save(p, s, ExpiredRecord(s.disk.incidents[id]), Idle, now)
  }

  function DoFinish(p: Params, s: State, id: IncidentID, status: Status, code: string, now: Time): State {
    if !Outside(s.phase) || id !in InFlight(s.disk.incidents) || s.disk.incidents[id].txHash !in s.mined then s
    else Save(p, s, TerminalRecord(s.disk.incidents[id], status, code, now), Idle, now)
  }

  function DoRecoverRaise(s: State, id: IncidentID, ok: bool): State {
    if s.phase != Idle || id !in s.disk.incidents || !HasSigned(s.disk.incidents[id]) || !ok
       || s.disk.incidents[id].sponsorNonce == MAX_UINT64 then s
    else RaiseBoth(s, s.disk.incidents[id].sponsorNonce, Idle)
  }

  // The recovery loop has gone over every stored incident.
  predicate RecoveryDone(s: State) {
    && s.disk.nonceFloor <= s.floor
    && forall id | id in s.disk.incidents :: HasSigned(s.disk.incidents[id]) ==> s.disk.incidents[id].sponsorNonce < s.disk.nonceFloor
  }

  function DoRecovered(s: State): State {
    if s.phase == Idle && RecoveryDone(s) then s.(running := true) else s
  }

  function DoRefresh(s: State, now: Time): State {
    if !Outside(s.phase) then s else s.(blocked := BlockedAt(s.disk.incidents, now), clock := now)
  }

  function DoRefreshFails(s: State): State {
    if !Outside(s.phase) then s else s.(blocked := true)
  }

  // Other coordinators share the ledger; they make reservations for incidents of their own.
  ghost function DoBudget(p: Params, s: State, command: R.Command): State {
    if command.DoReserve? && command.request.attempt.incident in s.disk.incidents then s
    else s.(books := R.Advance(p.ledger, s.books, command))
  }

  // Memory is lost; the next process may run in the other mode.
  function DoCrash(s: State, latest: bool): State {
    s.(floor := 0, blocked := false, running := false, latest := latest, phase := Idle)
  }

  function DoRecoverFloor(s: State): State {
    if s.phase != Idle then s else s.(floor := Raised(s.floor, s.disk.nonceFloor))
  }

  function DoPrune(s: State, retain: int): State {
    if !Outside(s.phase) then s else s.(disk := RescueStore.Prune(s.disk, retain))
  }

  // Only a transaction that was sent can be included in a block.
  function DoMine(s: State, hash: Hash): State {
    if exists g | g in s.sent :: g.transaction.hash == hash then s.(mined := s.mined + {hash}) else s
  }

  // Steps before anything is signed.
  predicate Unsigning(event: Event) {
    || event.Put? || event.Prepare? || event.PrepareRefused? || event.PreparationFails? || event.Resume? || event.CheckNonce?
    || event.FailBeforeSigned? || event.Close?
  }

  function NextUnsigned(p: Params, s: State, event: Event): State
    requires Unsigning(event)
  {
    match event
    case Put(i) => DoPut(p, s, i)
    case Prepare(id, b, pending, sourceNonce, now) => DoPrepare(p, s, id, b, pending, sourceNonce, now)
    case PrepareRefused(id, b, now) => DoPrepareRefused(p, s, id, b, now)
    case PreparationFails(id, b, code, now) => DoPreparationFails(p, s, id, b, code, now)
    case Resume(id) => DoResume(s, id)
    case CheckNonce(pending) => DoCheckNonce(s, pending)
    case FailBeforeSigned(id, code, now) => DoFailBeforeSigned(p, s, id, code, now)
    case Close(id, status, code, now) => DoClose(p, s, id, status, code, now)
  }

  // Signing, raising the floor and sending.
  predicate Persisting(event: Event) {
    event.Sign? || event.WriteFloor? || event.EnsureFloor? || event.Send? || event.RecoverRaise?
  }

  ghost function NextPersisted(p: Params, s: State, event: Event): State
    requires Persisting(event)
  {
    match event
    case Sign(prices, tx, now) => DoSign(p, s, prices, tx, now)
    case WriteFloor(ok) => DoWriteFloor(s, ok)
    case EnsureFloor(id, ok) => DoEnsureFloor(s, id, ok)
    case Send(balance, observedAt, clock) => DoSend(p, s, balance, observedAt, clock)
    case RecoverRaise(id, ok) => DoRecoverRaise(s, id, ok)
  }

  // What becomes of a signed incident.
  predicate Reconciling(event: Event) {
    event.MarkBroadcast? || event.MarkAmbiguous? || event.MarkReceived? || event.Expire? || event.Finish?
  }

  function NextReconciled(p: Params, s: State, event: Event): State
    requires Reconciling(event)
  {
    match event
    case MarkBroadcast(id, now) => DoMarkBroadcast(p, s, id, now)
    case MarkAmbiguous(id, code, now) => DoMarkAmbiguous(p, s, id, code, now)
    case MarkReceived(id, now) => DoMarkReceived(p, s, id, now)
    case Expire(id, now) => DoExpire(p, s, id, now)
    case Finish(id, status, code, now) => DoFinish(p, s, id, status, code, now)
  }

  // Steps that write no incident record.
  predicate Quiet(event: Event) {
    !Unsigning(event) && !Persisting(event) && !Reconciling(event)
  }

  ghost function NextQuiet(p: Params, s: State, event: Event): State
    requires Quiet(event)
  {
    match event
    case ReadNonce(pending) => DoReadNonce(s, pending)
    case Leave => DoLeave(s)
    case Refresh(now) => DoRefresh(s, now)
    case RefreshFails => DoRefreshFails(s)
    case Prune(retain) => DoPrune(s, retain)
    case Fund(prices, balance, observedAt, clock) => DoFund(p, s, prices, balance, observedAt, clock)
    case Budget(command) => DoBudget(p, s, command)
    case Mine(hash) => DoMine(s, hash)
    case Crash(latest) => DoCrash(s, latest)
    case RecoverFloor => DoRecoverFloor(s)
    case Recovered => DoRecovered(s)
  }

  ghost function Next(p: Params, s: State, event: Event): State {
    if Unsigning(event) then NextUnsigned(p, s, event)
    else if Persisting(event) then NextPersisted(p, s, event)
    else if Reconciling(event) then NextReconciled(p, s, event)
    else NextQuiet(p, s, event)
  }

  ghost function Onward(p: Params, s: State, events: seq<Event>): State
    decreases |events|
  {
    if events == [] then s else Next(p, Onward(p, s, events[..|events| - 1]), events[|events| - 1])
  }

  ghost function After(p: Params, latest: bool, events: seq<Event>): State {
    Onward(p, Start(latest), events)
  }
}
