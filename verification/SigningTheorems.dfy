/**
 * No sponsor nonce is ever recorded as signed twice, through crashes, failed writes and restarts,
 * unless a refresh clears the nonce block too early.
 */
module SigningTheorems {
  import opened Prelude
  import opened RescueState
  import opened RescueStore
  import opened SigningModel
  import B = BudgetModel
  import R = BudgetRuns

  // ---------- What every reachable state keeps ----------

  predicate Carries(i: Incident, nonce: Uint64) {
    i.status.InFlight() && i.sponsorNonce == nonce
  }

  // A nonce that can no longer be handed out: below the durable floor, or carried by a stored
  // incident that recovery will raise the floor for.
  ghost predicate Covered(disk: Store, nonce: Uint64) {
    nonce < disk.nonceFloor || exists id | id in disk.incidents :: Carries(disk.incidents[id], nonce)
  }

  ghost predicate AllCovered(disk: Store, history: seq<Signature>) {
    forall k {:trigger history[k]} | 0 <= k < |history| :: Covered(disk, history[k].transaction.nonce)
  }

  predicate Describes(g: Signature, i: Incident) {
    && g.attempt == AttemptOf(i) && g.transaction.hash == i.txHash && g.transaction.nonce == i.sponsorNonce
    && (i.signed.Some? ==> i.signed.value == g.transaction)
  }

  // Every signed incident in the store was signed by this protocol.
  ghost predicate Recorded(history: seq<Signature>, i: Incident) {
    exists k | 0 <= k < |history| :: Describes(history[k], i)
  }

  ghost predicate AllRecorded(disk: Store, history: seq<Signature>) {
    forall id | id in disk.incidents && HasSigned(disk.incidents[id]) :: Recorded(history, disk.incidents[id])
  }

  // Signed, but the floor write that follows has not happened.
  predicate Loose(disk: Store, id: IncidentID) {
    id in disk.incidents && HasSigned(disk.incidents[id]) && disk.nonceFloor <= disk.incidents[id].sponsorNonce
  }

  // Its nonce could still be handed out: the floor in memory has not passed it either.
  ghost predicate Reusable(disk: Store, floor: Uint64, id: IncidentID) {
    Loose(disk, id) && floor <= disk.incidents[id].sponsorNonce
  }

  ghost predicate NoneReusable(disk: Store, floor: Uint64) {
    forall id :: !Reusable(disk, floor, id)
  }

  ghost predicate LooseUnsent(s: State) {
    forall id | Loose(s.disk, id) :: s.disk.incidents[id].status.InFlight() && !WasSent(s, s.disk.incidents[id])
  }

  ghost predicate LooseBlocks(s: State) {
    s.running && !s.latest && !s.blocked ==> NoneReusable(s.disk, s.floor)
  }

  ghost predicate SentSigned(s: State) {
    && (forall g | g in s.sent :: g in s.history)
    && (forall h | h in s.mined :: exists g | g in s.sent :: g.transaction.hash == h)
  }

  ghost predicate NoCollision(history: seq<Signature>) {
    forall j, k | 0 <= j < |history| && 0 <= k < |history| ::
      history[j].transaction.hash == history[k].transaction.hash ==> history[j].transaction == history[k].transaction
  }

  ghost predicate Increasing(history: seq<Signature>) {
    forall j, k | 0 <= j < k < |history| :: history[j].transaction.nonce < history[k].transaction.nonce
  }

  // Every recorded nonce has a successor.
  ghost predicate Succeeded(history: seq<Signature>) {
    forall k {:trigger history[k]} | 0 <= k < |history| :: history[k].transaction.nonce < MAX_UINT64
  }

  ghost predicate AllBelow(history: seq<Signature>, floor: Uint64) {
    forall k {:trigger history[k]} | 0 <= k < |history| :: history[k].transaction.nonce < floor
  }

  ghost predicate PhaseOk(s: State) {
    match s.phase
    case Idle => true
    case Checking(id) => s.running && AllBelow(s.history, s.floor)
    case Ready(id) =>
      && s.running && AllBelow(s.history, s.floor) && s.floor != MAX_UINT64
      && id in s.disk.incidents && s.disk.incidents[id].status == Prepared
      && s.disk.incidents[id].sponsorNonce == s.floor
    case Written(id) => true
    case Sending(id) => id in s.disk.incidents ==> !Loose(s.disk, id)
  }

  ghost predicate Inv(p: Params, s: State) {
    && RescueStore.Inv(p.store, s.disk)
    && AllCovered(s.disk, s.history)
    && AllRecorded(s.disk, s.history)
    && LooseUnsent(s)
    && LooseBlocks(s)
    && SentSigned(s)
    && NoCollision(s.history)
    && Increasing(s.history) && Succeeded(s.history)
    && (s.running ==> s.disk.nonceFloor <= s.floor)
    && PhaseOk(s)
  }

  // ---------- The guard before a nonce is used ----------

  lemma NotLooseBelow(p: Params, s: State, id: IncidentID)
    requires RescueStore.Inv(p.store, s.disk) && id in InFlight(s.disk.incidents) && !Loose(s.disk, id)
    ensures s.disk.incidents[id].sponsorNonce < s.disk.nonceFloor
  {
    HashMeansSigned(p.store.ids, s.disk.incidents[id]);
  }

  // A transaction the network has a receipt for was sent, so its floor had been raised.
  lemma MinedIsNotLoose(p: Params, s: State, id: IncidentID)
    requires Inv(p, s) && id in InFlight(s.disk.incidents) && s.disk.incidents[id].txHash in s.mined
    ensures !Loose(s.disk, id)
  {
    var i := s.disk.incidents[id];
    HashMeansSigned(p.store.ids, i);
    var g :| g in s.sent && g.transaction.hash == i.txHash;
    assert g in s.history;
    var j :| 0 <= j < |s.history| && s.history[j] == g;
    var k :| 0 <= k < |s.history| && Describes(s.history[k], i);
    SameNonceSameEntry(s.history, j, k);
    assert WasSent(s, i);
  }

  lemma SameNonceSameEntry(history: seq<Signature>, j: nat, k: nat)
    requires NoCollision(history) && Increasing(history) && j < |history| && k < |history|
    requires history[j].transaction.hash == history[k].transaction.hash
    ensures j == k
  {
    assert history[j].transaction == history[k].transaction;
  }

  lemma InFlightBelow(p: Params, s: State, i: Incident, id: IncidentID)
    requires Inv(p, s) && MaySign(s, i) && id in InFlight(s.disk.incidents)
    ensures s.disk.incidents[id].sponsorNonce < s.floor
  {
    if s.latest || i.policy.latestState {
      var high :| high in s.disk.incidents && IsHighest(s.disk.incidents, high) && s.disk.incidents[high].txHash in s.mined;
      MinedIsNotLoose(p, s, high);
      NotLooseBelow(p, s, high);
    } else if Loose(s.disk, id) {
      assert !Reusable(s.disk, s.floor, id);
    } else {
      NotLooseBelow(p, s, id);
    }
  }

  // Whoever may sign sees every nonce used so far below the floor.
  lemma GuardClears(p: Params, s: State, i: Incident)
    requires Inv(p, s) && MaySign(s, i)
    ensures AllBelow(s.history, s.floor)
  {
    forall k {:trigger s.history[k]} | 0 <= k < |s.history| ensures s.history[k].transaction.nonce < s.floor {
      var nonce := s.history[k].transaction.nonce;
      assert Covered(s.disk, nonce);
      if s.disk.nonceFloor <= nonce {
        var id :| id in s.disk.incidents && Carries(s.disk.incidents[id], nonce);
        InFlightBelow(p, s, i, id);
      }
    }
  }

  // ---------- Replacing one incident ----------

  predicate Replaced(disk: Store, disk': Store, next: Incident) {
    && next.id in disk.incidents && disk' == disk.(incidents := disk.incidents[next.id := next])
  }

  lemma CoveredReplace(disk: Store, disk': Store, next: Incident, nonce: Uint64)
    requires Covered(disk, nonce) && Replaced(disk, disk', next)
    requires var i := disk.incidents[next.id];
             i.status.InFlight() ==> i.sponsorNonce < disk.nonceFloor || Carries(next, i.sponsorNonce)
    ensures Covered(disk', nonce)
  {
    if nonce >= disk.nonceFloor {
      var id :| id in disk.incidents && Carries(disk.incidents[id], nonce);
      assert Carries(disk'.incidents[id], nonce);
    }
  }

  lemma ReplaceKeeps(p: Params, s: State, s': State, next: Incident)
    requires Inv(p, s) && Replaced(s.disk, s'.disk, next) && RescueStore.Inv(p.store, s'.disk)
    requires s'.history == s.history && s'.sent == s.sent && s'.mined == s.mined
    requires s'.running == s.running && s'.latest == s.latest && s'.blocked == s.blocked && s'.floor == s.floor
    requires var i := s.disk.incidents[next.id];
             i.status.InFlight() ==> i.sponsorNonce < s.disk.nonceFloor || Carries(next, i.sponsorNonce)
    requires HasSigned(next) ==> Recorded(s.history, next)
    requires Loose(s'.disk, next.id) ==> StaysLoose(s, s', next)
    ensures AllCovered(s'.disk, s'.history) && AllRecorded(s'.disk, s'.history)
    ensures LooseUnsent(s') && LooseBlocks(s') && SentSigned(s')
  {
    forall k {:trigger s'.history[k]} | 0 <= k < |s'.history| ensures Covered(s'.disk, s'.history[k].transaction.nonce) {
      assert Covered(s.disk, s.history[k].transaction.nonce);
      CoveredReplace(s.disk, s'.disk, next, s.history[k].transaction.nonce);
    }
    LooseReplace(s, s', next);
  }

  lemma LooseReplace(s: State, s': State, next: Incident)
    requires Replaced(s.disk, s'.disk, next) && LooseUnsent(s) && LooseBlocks(s)
    requires s'.sent == s.sent && s'.running == s.running && s'.latest == s.latest && s'.blocked == s.blocked && s'.floor == s.floor
    requires Loose(s'.disk, next.id) ==> StaysLoose(s, s', next)
    ensures LooseUnsent(s') && LooseBlocks(s')
  {
    forall id | Loose(s'.disk, id)
      ensures Loose(s.disk, id) && s'.disk.incidents[id].status.InFlight() && !WasSent(s', s'.disk.incidents[id])
      ensures s'.disk.incidents[id].sponsorNonce == s.disk.incidents[id].sponsorNonce
    {
      if id != next.id {
        assert Loose(s.disk, id);
      }
    }
    forall id | Reusable(s'.disk, s'.floor, id) ensures Reusable(s.disk, s.floor, id) {
      assert Loose(s'.disk, id);
    }
  }

  predicate StaysLoose(s: State, s': State, next: Incident)
    requires next.id in s.disk.incidents
  {
    && Loose(s.disk, next.id) && next.status.InFlight() && !WasSent(s', next)
    && next.sponsorNonce == s.disk.incidents[next.id].sponsorNonce
  }

  // ---------- Incident writes ----------

  // The store takes the record or leaves the table alone.
  lemma SaveCases(p: Params, s: State, next: Incident, phase: Phase, now: Time)
    requires RescueStore.Inv(p.store, s.disk)
    ensures var s' := Save(p, s, next, phase, now);
            || s' == s.(phase := Idle, clock := now)
            || (s' == s.(phase := phase, clock := now) && next.id in s.disk.incidents && s.disk.incidents[next.id] == next)
            || (&& Replaced(s.disk, s'.disk, next) && RescueStore.Inv(p.store, s'.disk)
                && ValidTransition(s.disk.incidents[next.id], next)
                && Valid(p.store.ids, s.disk.incidents[next.id]) && Valid(p.store.ids, next)
                && s' == s.(disk := s'.disk, phase := phase, clock := now))
  {
    StepInv(p.store, s.disk, DoUpdate(next));
  }

  // The phases an unsigned write may lead to.
  ghost predicate PreparesFor(s: State, next: Incident, phase: Phase) {
    match phase
    case Idle => true
    case Checking(id) => s.running && AllBelow(s.history, s.floor)
    case Ready(id) => s.running && AllBelow(s.history, s.floor) && s.floor != MAX_UINT64 && id == next.id && next.status == Prepared && next.sponsorNonce == s.floor
    case _ => false
  }

  // A write that neither starts from nor ends in a signed incident.
  lemma SaveUnsigned(p: Params, s: State, next: Incident, phase: Phase, now: Time)
    requires Inv(p, s) && next.id in s.disk.incidents && next.txHash == 0 && Unsigned(s.disk.incidents[next.id])
    requires PreparesFor(s, next, phase)
    ensures Inv(p, Save(p, s, next, phase, now))
  {
    var s' := Save(p, s, next, phase, now);
    SaveCases(p, s, next, phase, now);
    SavePhase(p, s, next, phase, now);
    if s'.disk == s.disk {
      MemoryKeeps(p, s, s');
    } else {
      ReplaceKeeps(p, s, s', next);
    }
  }

  lemma SavePhase(p: Params, s: State, next: Incident, phase: Phase, now: Time)
    requires RescueStore.Inv(p.store, s.disk) && PreparesFor(s, next, phase)
    ensures PhaseOk(Save(p, s, next, phase, now))
  {
    SaveCases(p, s, next, phase, now);
  }

  lemma StillRecorded(history: seq<Signature>, i: Incident, next: Incident)
    requires Recorded(history, i) && SameOperation(i, next) && next.id == i.id
    ensures Recorded(history, next)
  {
    var k :| 0 <= k < |history| && Describes(history[k], i);
    assert Describes(history[k], next);
  }

  lemma SignedUpdate(p: Params, s: State, i: Incident, next: Incident)
    requires Valid(p.store.ids, i) && Valid(p.store.ids, next) && ValidTransition(i, next) && i.status.InFlight()
    requires HasSigned(i) ==> Recorded(s.history, i)
    ensures Recorded(s.history, next) && next.sponsorNonce == i.sponsorNonce && next.id == i.id && HasSigned(i)
    ensures WasSent(s, next) ==> WasSent(s, i)
  {
    HashMeansSigned(p.store.ids, i);
    SignedIsPermanent(p.store.ids, i, next);
    StillRecorded(s.history, i, next);
  }

  // A write that keeps a signed incident in flight, or ends it once its floor has been raised.
  lemma SaveSigned(p: Params, s: State, next: Incident, now: Time)
    requires Inv(p, s) && next.id in InFlight(s.disk.incidents)
    requires !Loose(s.disk, next.id) || next.status.InFlight()
    ensures Inv(p, Save(p, s, next, Idle, now))
  {
    var s' := Save(p, s, next, Idle, now);
    SaveCases(p, s, next, Idle, now);
    if s'.disk != s.disk {
      SignedUpdate(p, s, s.disk.incidents[next.id], next);
      ReplaceKeeps(p, s, s', next);
    }
  }

  // ---------- Signing ----------

  lemma SignedAppend(s: State, disk: Store, next: Incident, g: Signature)
    requires Replaced(s.disk, disk, next) && !s.disk.incidents[next.id].status.InFlight()
    requires AllCovered(s.disk, s.history) && AllRecorded(s.disk, s.history)
    requires next.status.InFlight() && Describes(g, next)
    ensures AllCovered(disk, s.history + [g]) && AllRecorded(disk, s.history + [g])
  {
    var history := s.history + [g];
    forall k {:trigger history[k]} | 0 <= k < |history| ensures Covered(disk, history[k].transaction.nonce) {
      if k < |s.history| {
        assert Covered(s.disk, s.history[k].transaction.nonce);
        CoveredReplace(s.disk, disk, next, s.history[k].transaction.nonce);
      } else {
        assert Carries(disk.incidents[next.id], g.transaction.nonce);
      }
    }
    forall id | id in disk.incidents && HasSigned(disk.incidents[id]) ensures Recorded(history, disk.incidents[id]) {
      if id == next.id {
        assert Describes(history[|s.history|], next);
      } else {
        var k :| 0 <= k < |s.history| && Describes(s.history[k], s.disk.incidents[id]);
        assert Describes(history[k], disk.incidents[id]);
      }
    }
  }

  lemma HistoryAppend(s: State, g: Signature)
    requires NoCollision(s.history) && Increasing(s.history) && AllBelow(s.history, g.transaction.nonce) && g.transaction.nonce < MAX_UINT64
    requires forall k | 0 <= k < |s.history| :: s.history[k].transaction.hash == g.transaction.hash ==> s.history[k].transaction == g.transaction
    ensures NoCollision(s.history + [g]) && Increasing(s.history + [g]) && Succeeded(s.history + [g])
  {
  }

  // The new signature is loose, not sent, and blocks every further use of a nonce.
  lemma SignedLoose(s: State, s': State, next: Incident)
    requires Replaced(s.disk, s'.disk, next) && LooseUnsent(s) && SentSigned(s) && AllBelow(s.history, next.sponsorNonce)
    requires s'.sent == s.sent && s'.blocked && next.status.InFlight() && next.signed.Some? && next.signed.value.nonce == next.sponsorNonce
    ensures LooseUnsent(s') && LooseBlocks(s')
  {
    assert !WasSent(s', next);
    forall id | Loose(s'.disk, id) ensures s'.disk.incidents[id].status.InFlight() && !WasSent(s', s'.disk.incidents[id]) {
      if id != next.id {
        assert Loose(s.disk, id);
      }
    }
  }

  lemma StoredId(p: Params, s: State, id: IncidentID)
    requires RescueStore.Inv(p.store, s.disk) && id in s.disk.incidents
    ensures s.disk.incidents[id].id == id && Valid(p.store.ids, s.disk.incidents[id])
  {
  }

  // Nothing is signed, or exactly the prepared record becomes Signed and everything is blocked.
  // Nothing happens, the write is refused, or the signed record replaces the prepared one.
  ghost predicate SignOutcome(s: State, s': State, tx: Transaction, now: Time) {
    || s' == s || (s.phase.Ready? && s' == s.(phase := Idle, clock := now))
    || (&& s.phase.Ready? && s.phase.id in s.disk.incidents && s.disk.incidents[s.phase.id].status == Prepared
        && var i := s.disk.incidents[s.phase.id];
        && i.id == s.phase.id && SignerAnswers(s, i, tx)
        && Replaced(s.disk, s'.disk, SignedRecord(i, tx, now))
        && s' == s.(disk := s'.disk, phase := Written(i.id), clock := now, blocked := true,
                    history := s.history + [Signature(AttemptOf(i), tx)]))
  }

  lemma SignCases(p: Params, s: State, prices: Prices, tx: Transaction, now: Time)
    requires RescueStore.Inv(p.store, s.disk)
    ensures SignOutcome(s, DoSign(p, s, prices, tx, now), tx, now)
    ensures RescueStore.Inv(p.store, DoSign(p, s, prices, tx, now).disk)
  {
    if DoSign(p, s, prices, tx, now) != s {
      StoredId(p, s, s.phase.id);
      SaveCases(p, s, SignedRecord(s.disk.incidents[s.phase.id], tx, now), Written(s.phase.id), now);
    }
  }

  lemma SignFunded(p: Params, s: State, prices: Prices, tx: Transaction, now: Time)
    requires DoSign(p, s, prices, tx, now).history != s.history
    ensures s.phase.Ready? && s.phase.id in s.disk.incidents && Funded(p, s.books.ledger, s.disk.incidents[s.phase.id], prices, tx)
  {
  }

  lemma SignKeeps(p: Params, s: State, prices: Prices, tx: Transaction, now: Time)
    requires Inv(p, s)
    ensures Inv(p, DoSign(p, s, prices, tx, now))
  {
    SignCases(p, s, prices, tx, now);
    OutcomeKeeps(p, s, DoSign(p, s, prices, tx, now), tx, now);
  }

  lemma OutcomeKeeps(p: Params, s: State, s': State, tx: Transaction, now: Time)
    requires Inv(p, s) && SignOutcome(s, s', tx, now) && RescueStore.Inv(p.store, s'.disk)
    ensures Inv(p, s')
  {
    if s'.history == s.history {
      MemoryKeeps(p, s, s');
    } else {
      var i := s.disk.incidents[s.phase.id];
      var next, g := SignedRecord(i, tx, now), Signature(AttemptOf(i), tx);
      SignedAppend(s, s'.disk, next, g);
      HistoryAppend(s, g);
      SignedLoose(s, s', next);
      assert SentSigned(s');
    }
  }

  // ---------- Steps that leave the incidents alone ----------

  // Raising the durable floor only covers more.
  ghost predicate FloorRaised(disk: Store, disk': Store) {
    disk' == disk.(nonceFloor := disk'.nonceFloor) && disk.nonceFloor <= disk'.nonceFloor
  }

  lemma FloorKeeps(s: State, s': State)
    requires AllCovered(s.disk, s.history) && AllRecorded(s.disk, s.history) && LooseUnsent(s)
    requires FloorRaised(s.disk, s'.disk) && s'.history == s.history && s'.sent == s.sent
    ensures AllCovered(s'.disk, s'.history) && AllRecorded(s'.disk, s'.history) && LooseUnsent(s')
    ensures forall floor: Uint64 | NoneReusable(s.disk, floor) :: NoneReusable(s'.disk, floor)
  {
    forall k {:trigger s'.history[k]} | 0 <= k < |s'.history| ensures Covered(s'.disk, s'.history[k].transaction.nonce) {
      assert Covered(s.disk, s.history[k].transaction.nonce);
    }
    forall id | Loose(s'.disk, id)
      ensures Loose(s.disk, id) && s'.disk.incidents[id].status.InFlight() && !WasSent(s', s'.disk.incidents[id])
    {
      assert Loose(s.disk, id);
    }
    forall floor: Uint64 | NoneReusable(s.disk, floor) ensures NoneReusable(s'.disk, floor) {
      forall id ensures !Reusable(s'.disk, floor, id) {
        assert !Reusable(s.disk, floor, id);
      }
    }
  }

  lemma StillNoneReusable(disk: Store, floor: Uint64, floor': Uint64)
    requires NoneReusable(disk, floor) && floor <= floor'
    ensures NoneReusable(disk, floor')
  {
    forall id ensures !Reusable(disk, floor', id) {
      assert !Reusable(disk, floor, id);
    }
  }

  lemma RaiseKeeps(p: Params, s: State, nonce: Uint64, phase: Phase)
    requires Inv(p, s) && nonce < MAX_UINT64
    requires phase == Idle || (phase.Sending? && phase.id in s.disk.incidents && s.disk.incidents[phase.id].sponsorNonce == nonce)
    ensures Inv(p, RaiseBoth(s, nonce, phase))
  {
    var s' := RaiseBoth(s, nonce, phase);
    FloorKeeps(s, s');
    if NoneReusable(s.disk, s.floor) {
      StillNoneReusable(s.disk, s.floor, s'.floor);
    }
  }

  // Memory, clock, balance and network steps.
  lemma MemoryKeeps(p: Params, s: State, s': State)
    requires Inv(p, s) && s'.disk == s.disk && s'.history == s.history && s'.sent == s.sent && s'.mined == s.mined
    requires s'.running ==> s.running && s.floor <= s'.floor && s'.latest == s.latest && (s.blocked ==> s'.blocked)
    requires PhaseOk(s')
    ensures Inv(p, s')
  {
    FloorKeeps(s, s');
    if s'.running && NoneReusable(s.disk, s.floor) {
      StillNoneReusable(s.disk, s.floor, s'.floor);
    }
  }

  lemma RecoveredKeeps(p: Params, s: State)
    requires Inv(p, s)
    ensures Inv(p, DoRecovered(s))
  {
    FloorKeeps(s, DoRecovered(s));
  }

  // ---------- Steps that add or drop incidents ----------

  lemma PutKeeps(p: Params, s: State, i: Incident)
    requires Inv(p, s)
    ensures Inv(p, SigningModel.DoPut(p, s, i))
  {
    var s' := SigningModel.DoPut(p, s, i);
    StepInv(p.store, s.disk, RescueStore.DoPut(i));
    if s'.disk != s.disk {
      forall k {:trigger s'.history[k]} | 0 <= k < |s'.history| ensures Covered(s'.disk, s'.history[k].transaction.nonce) {
        PutCovers(s.disk, s'.disk, i, s.history[k].transaction.nonce);
      }
      PutLoose(s, s', i);
    }
  }

  lemma PutCovers(disk: Store, disk': Store, i: Incident, nonce: Uint64)
    requires Covered(disk, nonce) && i.id !in disk.incidents && disk' == disk.(incidents := disk.incidents[i.id := i])
    ensures Covered(disk', nonce)
  {
    if nonce >= disk.nonceFloor {
      var id :| id in disk.incidents && Carries(disk.incidents[id], nonce);
      assert Carries(disk'.incidents[id], nonce);
    }
  }

  lemma PutLoose(s: State, s': State, i: Incident)
    requires i.id !in s.disk.incidents && i.status == Pending && s' == s.(disk := s.disk.(incidents := s.disk.incidents[i.id := i]))
    requires LooseUnsent(s) && LooseBlocks(s)
    ensures LooseUnsent(s') && LooseBlocks(s')
  {
    forall id | Loose(s'.disk, id) ensures Loose(s.disk, id) && s'.disk.incidents[id] == s.disk.incidents[id] {
    }
    forall id | Reusable(s'.disk, s'.floor, id) ensures Reusable(s.disk, s.floor, id) {
      assert Loose(s'.disk, id);
    }
  }

  lemma PruneCovers(disk: Store, retain: int, nonce: Uint64)
    requires Covered(disk, nonce)
    ensures Covered(RescueStore.Prune(disk, retain), nonce)
  {
    if nonce >= disk.nonceFloor {
      var id :| id in disk.incidents && Carries(disk.incidents[id], nonce);
      assert Carries(RescueStore.Prune(disk, retain).incidents[id], nonce);
    }
  }

  lemma PruneKeeps(p: Params, s: State, retain: int)
    requires Inv(p, s)
    ensures Inv(p, SigningModel.DoPrune(s, retain))
  {
    var s' := SigningModel.DoPrune(s, retain);
    if s' == s {
      return;
    }
    StepInv(p.store, s.disk, RescueStore.DoPrune(retain));
    forall k {:trigger s'.history[k]} | 0 <= k < |s'.history| ensures Covered(s'.disk, s'.history[k].transaction.nonce) {
      PruneCovers(s.disk, retain, s.history[k].transaction.nonce);
    }
    forall id | id in s'.disk.incidents ensures id in s.disk.incidents && s'.disk.incidents[id] == s.disk.incidents[id] {
    }
    forall id | Loose(s'.disk, id) ensures Loose(s.disk, id) {
    }
    forall id | Reusable(s'.disk, s'.floor, id) ensures Reusable(s.disk, s.floor, id) {
      assert Loose(s'.disk, id);
    }
  }

  // ---------- Sending ----------

  lemma ExposeCases(p: Params, s: State, i: Incident, balance: Wei)
    requires i.signed.Some? && AttemptOf(i) in s.books.ledger.attempts
    ensures var s' := ExposeAndSend(p, s, i, balance);
            s' == s.(books := s'.books) || s' == Handed(s, s'.books, i)
  {
  }

  lemma SendCases(p: Params, s: State, balance: Wei, observedAt: Time, clock: Time)
    ensures var s' := DoSend(p, s, balance, observedAt, clock);
            || s' == s.(books := s'.books)
            || (&& s.phase.Sending? && s.phase.id in InFlight(s.disk.incidents)
                && var i := s.disk.incidents[s.phase.id];
                && i.signed.Some?
                && s' == Handed(s, s'.books, i))
  {
    if s.phase.Sending? && s.phase.id in InFlight(s.disk.incidents) && PayloadChecks(p, s.disk.incidents[s.phase.id]) {
      var i := s.disk.incidents[s.phase.id];
      var restored := s.(books := Restored(p, s.books, i, balance, observedAt, clock));
      if AttemptOf(i) in restored.books.ledger.attempts {
        ExposeCases(p, restored, i, balance);
      }
    }
  }

  lemma SendKeeps(p: Params, s: State, s': State)
    requires Inv(p, s) && s.phase.Sending? && s.phase.id in InFlight(s.disk.incidents)
    requires var i := s.disk.incidents[s.phase.id];
             && i.signed.Some?
             && s' == Handed(s, s'.books, i)
    ensures Inv(p, s')
  {
    var i := s.disk.incidents[s.phase.id];
    StoredId(p, s, s.phase.id);
    HashMeansSigned(p.store.ids, i);
    SentAppend(s, s', i);
  }

  lemma SentAppend(s: State, s': State, i: Incident)
    requires s.phase.Sending? && s.phase.id in s.disk.incidents && s.disk.incidents[s.phase.id] == i && i.signed.Some?
    requires !Loose(s.disk, s.phase.id) && Recorded(s.history, i) && SentSigned(s) && LooseUnsent(s)
    requires s'.disk == s.disk && s'.history == s.history && s'.mined == s.mined
    requires s'.sent == s.sent + {Signature(AttemptOf(i), i.signed.value)}
    requires forall id | id in s.disk.incidents :: s.disk.incidents[id].id == id
    ensures SentSigned(s') && LooseUnsent(s')
  {
    var k :| 0 <= k < |s.history| && Describes(s.history[k], i);
    assert Signature(AttemptOf(i), i.signed.value) == s.history[k];
  }

  // ---------- Every step ----------

  lemma PrepareKeeps(p: Params, s: State, id: IncidentID, b: Snapshot, pending: Uint64, sourceNonce: Uint64, now: Time)
    requires Inv(p, s)
    ensures Inv(p, DoPrepare(p, s, id, b, pending, sourceNonce, now))
  {
    if DoPrepare(p, s, id, b, pending, sourceNonce, now) != s {
      var i := s.disk.incidents[id];
      var raised := s.(floor := Raised(s.floor, pending));
      StoredId(p, s, id);
      GuardClears(p, s, i);
      MemoryKeeps(p, s, raised);
      SaveUnsigned(p, raised, PreparedRecord(i, b, raised.floor, if i.policy.latestState then 0 else sourceNonce, now),
                   if i.policy.latestState then Ready(id) else Checking(id), now);
    }
  }

  lemma PreparationKeeps(p: Params, s: State, id: IncidentID, b: Snapshot, code: string, now: Time)
    requires Inv(p, s)
    ensures Inv(p, DoPrepareRefused(p, s, id, b, now))
    ensures Inv(p, DoPreparationFails(p, s, id, b, code, now))
  {
    if id in s.disk.incidents && Retriable(s.disk.incidents[id], now) {
      StoredId(p, s, id);
      SaveUnsigned(p, s, PreparedRecord(s.disk.incidents[id], b, 0, 0, now), Idle, now);
      SaveUnsigned(p, s, PreparationFailedRecord(s.disk.incidents[id], b, code, now), Idle, now);
    }
  }

  lemma UnsignedHasNoHash(p: Params, s: State, id: IncidentID)
    requires RescueStore.Inv(p.store, s.disk) && id in s.disk.incidents && Unsigned(s.disk.incidents[id])
    ensures s.disk.incidents[id].txHash == 0
  {
  }

  lemma GiveUpKeeps(p: Params, s: State, id: IncidentID, status: Status, code: string, now: Time)
    requires Inv(p, s)
    ensures Inv(p, DoFailBeforeSigned(p, s, id, code, now))
    ensures Inv(p, DoClose(p, s, id, status, code, now))
  {
    if id in s.disk.incidents && Unsigned(s.disk.incidents[id]) {
      StoredId(p, s, id);
      UnsignedHasNoHash(p, s, id);
      SaveUnsigned(p, s, RetryableRecord(s.disk.incidents[id], code, now), Idle, now);
      SaveUnsigned(p, s, TerminalRecord(s.disk.incidents[id], status, code, now), Idle, now);
    }
  }

  lemma ResumeKeeps(p: Params, s: State, id: IncidentID, pending: Uint64)
    requires Inv(p, s)
    ensures Inv(p, DoResume(s, id))
    ensures Inv(p, DoCheckNonce(s, pending))
  {
    if DoResume(s, id) != s {
      GuardClears(p, s, s.disk.incidents[id]);
      MemoryKeeps(p, s, DoResume(s, id));
    }
    if DoCheckNonce(s, pending) != s {
      MemoryKeeps(p, s, DoCheckNonce(s, pending));
    }
  }

  lemma WriteFloorKeeps(p: Params, s: State, ok: bool)
    requires Inv(p, s)
    ensures Inv(p, DoWriteFloor(s, ok))
  {
    if s.phase.Written? && s.phase.id in s.disk.incidents {
      if ok && s.disk.incidents[s.phase.id].sponsorNonce != MAX_UINT64 {
        RaiseKeeps(p, s, s.disk.incidents[s.phase.id].sponsorNonce, Sending(s.phase.id));
      } else {
        MemoryKeeps(p, s, s.(phase := Idle));
      }
    }
  }

  lemma EnsureFloorKeeps(p: Params, s: State, id: IncidentID, ok: bool)
    requires Inv(p, s)
    ensures Inv(p, DoEnsureFloor(s, id, ok))
    ensures Inv(p, DoRecoverRaise(s, id, ok))
  {
    if id in s.disk.incidents && s.disk.incidents[id].sponsorNonce != MAX_UINT64 {
      RaiseKeeps(p, s, s.disk.incidents[id].sponsorNonce, Sending(id));
      RaiseKeeps(p, s, s.disk.incidents[id].sponsorNonce, Idle);
    }
  }

  lemma ConfirmKeeps(p: Params, s: State, id: IncidentID, now: Time)
    requires Inv(p, s)
    ensures Inv(p, DoMarkBroadcast(p, s, id, now))
    ensures Inv(p, DoMarkReceived(p, s, id, now))
  {
    if id in InFlight(s.disk.incidents) {
      var i := s.disk.incidents[id];
      StoredId(p, s, id);
      SaveSigned(p, s, BroadcastRecord(i, now), now);
      SaveSigned(p, s, i.(status := Ambiguous, lastCode := CODE_BROADCAST, updatedAt := now), now);
    }
  }

  lemma DoubtKeeps(p: Params, s: State, id: IncidentID, code: string, now: Time)
    requires Inv(p, s)
    ensures Inv(p, DoMarkAmbiguous(p, s, id, code, now))
    ensures Inv(p, DoExpire(p, s, id, now))
  {
    if id in InFlight(s.disk.incidents) {
      var i := s.disk.incidents[id];
      StoredId(p, s, id);
      SaveSigned(p, s, AmbiguousRecord(i, code, now), now);
      SaveSigned(p, s, ExpiredRecord(i), now);
    }
  }

  lemma FinishKeeps(p: Params, s: State, id: IncidentID, status: Status, code: string, now: Time)
    requires Inv(p, s)
    ensures Inv(p, DoFinish(p, s, id, status, code, now))
  {
    if DoFinish(p, s, id, status, code, now) != s {
      StoredId(p, s, id);
      MinedIsNotLoose(p, s, id);
      SaveSigned(p, s, TerminalRecord(s.disk.incidents[id], status, code, now), now);
    }
  }

  lemma MineKeeps(p: Params, s: State, hash: Hash)
    requires Inv(p, s)
    ensures Inv(p, DoMine(s, hash))
  {
    FloorKeeps(s, DoMine(s, hash));
  }

  // The one step that needs a condition: a refresh that clears the block over a nonce that can
  // still be handed out.
  ghost predicate Risky(s: State, now: Time) {
    && Outside(s.phase) && s.running && !s.latest && !BlockedAt(s.disk.incidents, now)
    && !NoneReusable(s.disk, s.floor)
  }

  ghost predicate Calm(s: State, event: Event) { event.Refresh? ==> !Risky(s, event.now) }

  lemma UnsigningKeeps(p: Params, s: State, event: Event)
    requires Inv(p, s) && Unsigning(event)
    ensures Inv(p, NextUnsigned(p, s, event))
  {
    match event
    case Put(i) => PutKeeps(p, s, i);
    case Prepare(id, b, pending, sourceNonce, now) => PrepareKeeps(p, s, id, b, pending, sourceNonce, now);
    case PrepareRefused(id, b, now) => PreparationKeeps(p, s, id, b, "", now);
    case PreparationFails(id, b, code, now) => PreparationKeeps(p, s, id, b, code, now);
    case Resume(id) => ResumeKeeps(p, s, id, 0);
    case CheckNonce(pending) => ResumeKeeps(p, s, 0, pending);
    case FailBeforeSigned(id, code, now) => GiveUpKeeps(p, s, id, Failed, code, now);
    case Close(id, status, code, now) => GiveUpKeeps(p, s, id, status, code, now);
  }

  lemma ReconcilingKeeps(p: Params, s: State, event: Event)
    requires Inv(p, s) && Reconciling(event)
    ensures Inv(p, NextReconciled(p, s, event))
  {
    match event
    case MarkBroadcast(id, now) => ConfirmKeeps(p, s, id, now);
    case MarkAmbiguous(id, code, now) => DoubtKeeps(p, s, id, code, now);
    case MarkReceived(id, now) => ConfirmKeeps(p, s, id, now);
    case Expire(id, now) => DoubtKeeps(p, s, id, "", now);
    case Finish(id, status, code, now) => FinishKeeps(p, s, id, status, code, now);
  }

  lemma SendStepKeeps(p: Params, s: State, balance: Wei, observedAt: Time, clock: Time)
    requires Inv(p, s)
    ensures Inv(p, DoSend(p, s, balance, observedAt, clock))
  {
    var s' := DoSend(p, s, balance, observedAt, clock);
    SendCases(p, s, balance, observedAt, clock);
    if s' == s.(books := s'.books) {
      MemoryKeeps(p, s, s');
    } else {
      SendKeeps(p, s, s');
    }
  }

  lemma PersistingKeeps(p: Params, s: State, event: Event)
    requires Inv(p, s) && Persisting(event)
    ensures Inv(p, NextPersisted(p, s, event))
  {
    match event
    case Sign(prices, tx, now) => SignKeeps(p, s, prices, tx, now);
    case WriteFloor(ok) => WriteFloorKeeps(p, s, ok);
    case EnsureFloor(id, ok) => EnsureFloorKeeps(p, s, id, ok);
    case RecoverRaise(id, ok) => EnsureFloorKeeps(p, s, id, ok);
    case Send(balance, observedAt, clock) => SendStepKeeps(p, s, balance, observedAt, clock);
  }

  lemma IdleKeeps(p: Params, s: State, pending: Uint64)
    requires Inv(p, s)
    ensures Inv(p, DoReadNonce(s, pending)) && Inv(p, DoLeave(s)) && Inv(p, DoRefreshFails(s))
  {
    MemoryKeeps(p, s, DoReadNonce(s, pending));
    MemoryKeeps(p, s, DoLeave(s));
    MemoryKeeps(p, s, DoRefreshFails(s));
  }

  lemma CrashKeeps(p: Params, s: State, latest: bool)
    requires Inv(p, s)
    ensures Inv(p, DoCrash(s, latest)) && Inv(p, DoRecoverFloor(s))
  {
    MemoryKeeps(p, s, DoCrash(s, latest));
    MemoryKeeps(p, s, DoRecoverFloor(s));
  }

  lemma BooksKeep(p: Params, s: State, books: R.Run)
    requires Inv(p, s)
    ensures Inv(p, s.(books := books))
  {
    MemoryKeeps(p, s, s.(books := books));
  }

  lemma LedgerKeeps(p: Params, s: State, event: Event)
    requires Inv(p, s) && (event.Budget? || event.Fund?)
    ensures Inv(p, NextQuiet(p, s, event))
  {
    BooksKeep(p, s, NextQuiet(p, s, event).books);
    assert NextQuiet(p, s, event) == s.(books := NextQuiet(p, s, event).books);
  }

  lemma QuietKeeps(p: Params, s: State, event: Event)
    requires Inv(p, s) && Quiet(event) && Calm(s, event)
    ensures Inv(p, NextQuiet(p, s, event))
  {
    match event
    case ReadNonce(pending) => IdleKeeps(p, s, pending);
    case Refresh(now) => RefreshKeeps(p, s, now);
    case Prune(retain) => PruneKeeps(p, s, retain);
    case Budget(command) => LedgerKeeps(p, s, event);
    case Fund(prices, balance, observedAt, clock) => LedgerKeeps(p, s, event);
    case Mine(hash) => MineKeeps(p, s, hash);
    case Crash(latest) => CrashKeeps(p, s, latest);
    case Recovered => RecoveredKeeps(p, s);
    case Leave => IdleKeeps(p, s, 0);
    case RefreshFails => IdleKeeps(p, s, 0);
    case RecoverFloor => CrashKeeps(p, s, false);
  }

  lemma StepKeeps(p: Params, s: State, event: Event)
    requires Inv(p, s) && Calm(s, event)
    ensures Inv(p, Next(p, s, event))
  {
    if Unsigning(event) {
      UnsigningKeeps(p, s, event);
    } else if Persisting(event) {
      PersistingKeeps(p, s, event);
    } else if Reconciling(event) {
      ReconcilingKeeps(p, s, event);
    } else {
      QuietKeeps(p, s, event);
    }
  }

  lemma RefreshKeeps(p: Params, s: State, now: Time)
    requires Inv(p, s) && Calm(s, Refresh(now))
    ensures Inv(p, DoRefresh(s, now))
  {
    FloorKeeps(s, DoRefresh(s, now));
  }

  // ---------- Whole runs ----------

  ghost predicate CalmFrom(p: Params, s: State, events: seq<Event>) {
    forall k {:trigger events[..k]} | 0 <= k < |events| :: Calm(Onward(p, s, events[..k]), events[k])
  }

  ghost predicate CalmRun(p: Params, latest: bool, events: seq<Event>) { CalmFrom(p, Start(latest), events) }

  lemma CalmPrefix(p: Params, s: State, events: seq<Event>)
    requires CalmFrom(p, s, events) && events != []
    ensures CalmFrom(p, s, events[..|events| - 1])
    ensures Calm(Onward(p, s, events[..|events| - 1]), events[|events| - 1])
  {
    var before := events[..|events| - 1];
    forall k {:trigger before[..k]} | 0 <= k < |before| ensures Calm(Onward(p, s, before[..k]), before[k]) {
      assert before[..k] == events[..k] && before[k] == events[k];
    }
  }

  lemma {:induction false} CalmKeeps(p: Params, s: State, events: seq<Event>)
    requires Inv(p, s) && CalmFrom(p, s, events)
    ensures Inv(p, Onward(p, s, events))
    decreases |events|
  {
    if events != [] {
      CalmPrefix(p, s, events);
      CalmKeeps(p, s, events[..|events| - 1]);
      StepKeeps(p, Onward(p, s, events[..|events| - 1]), events[|events| - 1]);
    }
  }

  lemma RunKeeps(p: Params, latest: bool, events: seq<Event>)
    requires CalmRun(p, latest, events)
    ensures Inv(p, After(p, latest, events))
  {
    CalmKeeps(p, Start(latest), events);
  }

  predicate SameNonce(m: map<IncidentID, Incident>, a: IncidentID, b: IncidentID) {
    a in m && b in m && HasSigned(m[a]) && HasSigned(m[b]) && m[a].sponsorNonce == m[b].sponsorNonce
  }

  // The nonces of all transactions ever recorded as signed are strictly increasing, so no two stored signed
  // incidents share one.
  lemma NoncesNeverRepeat(p: Params, latest: bool, events: seq<Event>, a: IncidentID, b: IncidentID)
    requires CalmRun(p, latest, events)
    ensures var s := After(p, latest, events);
            && Increasing(s.history)
            && (SameNonce(s.disk.incidents, a, b) ==> a == b)
  {
    RunKeeps(p, latest, events);
    var s := After(p, latest, events);
    if SameNonce(s.disk.incidents, a, b) {
      var j :| 0 <= j < |s.history| && Describes(s.history[j], s.disk.incidents[a]);
      var k :| 0 <= k < |s.history| && Describes(s.history[k], s.disk.incidents[b]);
      StoredId(p, s, a);
      StoredId(p, s, b);
      assert j == k;
    }
  }
}
