/**
 * Runs in which no refresh clears the nonce block too early: in latest-state mode, with a clock that
 * does not run backwards, or when no floor write fails.
 */
module SigningClock {
  import opened Prelude
  import opened RescueState
  import opened RescueStore
  import opened SigningModel
  import opened SigningTheorems

  // ---------- A clock that does not run backwards ----------

  function Reading(event: Event): Option<Time> {
    match event
    case Prepare(_, _, _, _, now) => Some(now)
    case PrepareRefused(_, _, now) => Some(now)
    case PreparationFails(_, _, _, now) => Some(now)
    case Sign(_, _, now) => Some(now)
    case FailBeforeSigned(_, _, now) => Some(now)
    case Close(_, _, _, now) => Some(now)
    case MarkBroadcast(_, now) => Some(now)
    case MarkAmbiguous(_, _, now) => Some(now)
    case MarkReceived(_, now) => Some(now)
    case Expire(_, now) => Some(now)
    case Finish(_, _, _, now) => Some(now)
    case Refresh(now) => Some(now)
    case _ => None
  }

  predicate Timely(s: State, event: Event) {
    Reading(event).Some? ==> s.clock <= Reading(event).value
  }

  // Every loose incident blocks at the present time.
  ghost predicate Guarded(s: State) {
    forall id | Loose(s.disk, id) :: Blocks(s.disk.incidents[id], s.clock)
  }

  lemma GuardedIsCalm(s: State, event: Event)
    requires Guarded(s) && Timely(s, event)
    ensures Calm(s, event)
  {
    if event.Refresh? {
      forall id | Reusable(s.disk, s.floor, id) ensures BlockedAt(s.disk.incidents, event.now) {
        assert Blocks(s.disk.incidents[id], event.now);
      }
    }
  }

  // The incident a step writes, if it writes one.
  ghost predicate Writes(s: State, s': State, id: IncidentID) {
    && id in s.disk.incidents && id in s'.disk.incidents
    && s'.disk == s.disk.(incidents := s.disk.incidents[id := s'.disk.incidents[id]])
  }

  lemma WriteGuarded(s: State, s': State, id: IncidentID)
    requires Guarded(s) && s.clock <= s'.clock && Writes(s, s', id)
    requires Loose(s'.disk, id) ==> Blocks(s'.disk.incidents[id], s'.clock)
    ensures Guarded(s')
  {
    forall other | Loose(s'.disk, other) ensures Blocks(s'.disk.incidents[other], s'.clock) {
      if other != id {
        assert Loose(s.disk, other);
      }
    }
  }

  // Steps that write no incident can only shrink the set of loose ones.
  lemma NoWriteGuarded(s: State, s': State)
    requires Guarded(s) && s.clock <= s'.clock && s.disk.nonceFloor <= s'.disk.nonceFloor
    requires forall id | id in s'.disk.incidents && HasSigned(s'.disk.incidents[id]) ::
               id in s.disk.incidents && s'.disk.incidents[id] == s.disk.incidents[id]
    ensures Guarded(s')
  {
    forall id | Loose(s'.disk, id) ensures Blocks(s'.disk.incidents[id], s'.clock) {
      assert Loose(s.disk, id);
    }
  }

  lemma SaveGuarded(p: Params, s: State, next: Incident, phase: Phase, now: Time)
    requires RescueStore.Inv(p.store, s.disk) && Guarded(s) && s.clock <= now
    requires HasSigned(next) && s.disk.nonceFloor <= next.sponsorNonce ==> Blocks(next, now)
    ensures Guarded(Save(p, s, next, phase, now))
  {
    var s' := Save(p, s, next, phase, now);
    SaveCases(p, s, next, phase, now);
    if s'.disk != s.disk {
      WriteGuarded(s, s', next.id);
    } else {
      NoWriteGuarded(s, s');
    }
  }

  lemma NotLoose(p: Params, s: State, id: IncidentID)
    requires SigningTheorems.Inv(p, s) && id in InFlight(s.disk.incidents)
    requires s.phase == Sending(id) || s.disk.incidents[id].txHash in s.mined
    ensures s.disk.incidents[id].sponsorNonce < s.disk.nonceFloor
  {
    if s.disk.incidents[id].txHash in s.mined {
      MinedIsNotLoose(p, s, id);
    }
    NotLooseBelow(p, s, id);
  }

  lemma ConfirmGuarded(p: Params, s: State, id: IncidentID, now: Time)
    requires SigningTheorems.Inv(p, s) && Guarded(s) && s.clock <= now
    ensures Guarded(DoMarkBroadcast(p, s, id, now))
    ensures Guarded(DoMarkReceived(p, s, id, now))
  {
    if id in InFlight(s.disk.incidents) && (s.phase == Sending(id) || s.disk.incidents[id].txHash in s.mined) {
      NotLoose(p, s, id);
      SaveGuarded(p, s, BroadcastRecord(s.disk.incidents[id], now), Idle, now);
      SaveGuarded(p, s, s.disk.incidents[id].(status := Ambiguous, lastCode := CODE_BROADCAST, updatedAt := now), Idle, now);
    }
  }

  lemma AmbiguousBlocks(i: Incident, code: string, now: Time)
    requires i.reconcileUntil <= now || BlockingCode(code)
    requires i.status == Signed || Blocks(i, now)
    ensures Blocks(AmbiguousRecord(i, code, now), now)
  {
  }

  lemma DoubtGuarded(p: Params, s: State, id: IncidentID, code: string, now: Time)
    requires SigningTheorems.Inv(p, s) && Guarded(s) && s.clock <= now
    ensures Guarded(DoMarkAmbiguous(p, s, id, code, now))
  {
    if DoMarkAmbiguous(p, s, id, code, now) != s {
      var i := s.disk.incidents[id];
      StoredId(p, s, id);
      if s.phase == Sending(id) || i.txHash in s.mined {
        NotLoose(p, s, id);
      } else if Loose(s.disk, id) {
        AmbiguousBlocks(i, code, now);
      } else {
        NotLooseBelow(p, s, id);
      }
      SaveGuarded(p, s, AmbiguousRecord(i, code, now), Idle, now);
    }
  }

  lemma EndGuarded(p: Params, s: State, id: IncidentID, status: Status, code: string, now: Time)
    requires SigningTheorems.Inv(p, s) && Guarded(s) && s.clock <= now
    ensures Guarded(DoExpire(p, s, id, now))
    ensures Guarded(DoFinish(p, s, id, status, code, now))
  {
    if id in InFlight(s.disk.incidents) {
      var i := s.disk.incidents[id];
      if i.reconcileUntil <= now {
        SaveGuarded(p, s, ExpiredRecord(i), Idle, now);
      }
      if i.txHash in s.mined {
        NotLoose(p, s, id);
        SaveGuarded(p, s, TerminalRecord(i, status, code, now), Idle, now);
      }
    }
  }

  lemma ReconcilingGuarded(p: Params, s: State, event: Event)
    requires SigningTheorems.Inv(p, s) && Guarded(s) && Timely(s, event) && Reconciling(event)
    ensures Guarded(NextReconciled(p, s, event))
  {
    match event
    case MarkBroadcast(id, now) => ConfirmGuarded(p, s, id, now);
    case MarkAmbiguous(id, code, now) => DoubtGuarded(p, s, id, code, now);
    case MarkReceived(id, now) => ConfirmGuarded(p, s, id, now);
    case Expire(id, now) => EndGuarded(p, s, id, Failed, "", now);
    case Finish(id, status, code, now) => EndGuarded(p, s, id, status, code, now);
  }

  lemma SignGuarded(p: Params, s: State, prices: Prices, tx: Transaction, now: Time)
    requires RescueStore.Inv(p.store, s.disk) && Guarded(s) && s.clock <= now
    ensures Guarded(DoSign(p, s, prices, tx, now))
  {
    var s' := DoSign(p, s, prices, tx, now);
    SignCases(p, s, prices, tx, now);
    if s'.disk == s.disk {
      NoWriteGuarded(s, s');
    } else {
      WriteGuarded(s, s', s.phase.id);
    }
  }

  lemma PreparingGuarded(p: Params, s: State, id: IncidentID, b: Snapshot, pending: Uint64, sourceNonce: Uint64, code: string, now: Time)
    requires SigningTheorems.Inv(p, s) && Guarded(s) && s.clock <= now
    ensures Guarded(DoPrepare(p, s, id, b, pending, sourceNonce, now))
    ensures Guarded(DoPrepareRefused(p, s, id, b, now))
    ensures Guarded(DoPreparationFails(p, s, id, b, code, now))
  {
    if id in s.disk.incidents {
      var i := s.disk.incidents[id];
      if DoPrepare(p, s, id, b, pending, sourceNonce, now) != s {
        var raised := s.(floor := Raised(s.floor, pending));
        MemoryKeeps(p, s, raised);
        SaveGuarded(p, raised, PreparedRecord(i, b, raised.floor, if i.policy.latestState then 0 else sourceNonce, now),
                    if i.policy.latestState then Ready(id) else Checking(id), now);
      }
      SaveGuarded(p, s, PreparedRecord(i, b, 0, 0, now), Idle, now);
      SaveGuarded(p, s, PreparationFailedRecord(i, b, code, now), Idle, now);
    }
  }

  lemma GiveUpGuarded(p: Params, s: State, id: IncidentID, status: Status, code: string, now: Time)
    requires SigningTheorems.Inv(p, s) && Guarded(s) && s.clock <= now
    ensures Guarded(DoFailBeforeSigned(p, s, id, code, now))
    ensures Guarded(DoClose(p, s, id, status, code, now))
  {
    if id in s.disk.incidents && Unsigned(s.disk.incidents[id]) {
      UnsignedHasNoHash(p, s, id);
      SaveGuarded(p, s, RetryableRecord(s.disk.incidents[id], code, now), Idle, now);
      SaveGuarded(p, s, TerminalRecord(s.disk.incidents[id], status, code, now), Idle, now);
    }
  }

  lemma PutGuarded(p: Params, s: State, i: Incident)
    requires Guarded(s)
    ensures Guarded(SigningModel.DoPut(p, s, i))
  {
    NoWriteGuarded(s, SigningModel.DoPut(p, s, i));
  }

  lemma UnsigningGuarded(p: Params, s: State, event: Event)
    requires SigningTheorems.Inv(p, s) && Guarded(s) && Timely(s, event) && Unsigning(event)
    ensures Guarded(NextUnsigned(p, s, event))
  {
    match event
    case Put(i) => PutGuarded(p, s, i);
    case Prepare(id, b, pending, sourceNonce, now) => PreparingGuarded(p, s, id, b, pending, sourceNonce, "", now);
    case PrepareRefused(id, b, now) => PreparingGuarded(p, s, id, b, 0, 0, "", now);
    case PreparationFails(id, b, code, now) => PreparingGuarded(p, s, id, b, 0, 0, code, now);
    case Resume(id) => assert NextUnsigned(p, s, event).disk == s.disk;
    case CheckNonce(pending) => assert NextUnsigned(p, s, event).disk == s.disk;
    case FailBeforeSigned(id, code, now) => GiveUpGuarded(p, s, id, Failed, code, now);
    case Close(id, status, code, now) => GiveUpGuarded(p, s, id, status, code, now);
  }

  lemma RaisedGuarded(s: State, nonce: Uint64, phase: Phase)
    requires Guarded(s) && nonce < MAX_UINT64
    ensures Guarded(RaiseBoth(s, nonce, phase))
  {
    NoWriteGuarded(s, RaiseBoth(s, nonce, phase));
  }

  lemma FloorGuarded(s: State, id: IncidentID, ok: bool)
    requires Guarded(s)
    ensures Guarded(DoWriteFloor(s, ok)) && Guarded(DoEnsureFloor(s, id, ok)) && Guarded(DoRecoverRaise(s, id, ok))
  {
    if s.phase.Written? && s.phase.id in s.disk.incidents && s.disk.incidents[s.phase.id].sponsorNonce < MAX_UINT64 {
      RaisedGuarded(s, s.disk.incidents[s.phase.id].sponsorNonce, Sending(s.phase.id));
    }
    if id in s.disk.incidents && s.disk.incidents[id].sponsorNonce < MAX_UINT64 {
      RaisedGuarded(s, s.disk.incidents[id].sponsorNonce, Sending(id));
      RaisedGuarded(s, s.disk.incidents[id].sponsorNonce, Idle);
    }
  }

  lemma SendGuarded(p: Params, s: State, balance: Wei, observedAt: Time, clock: Time)
    requires Guarded(s)
    ensures Guarded(DoSend(p, s, balance, observedAt, clock))
  {
    SendCases(p, s, balance, observedAt, clock);
    assert DoSend(p, s, balance, observedAt, clock).disk == s.disk && DoSend(p, s, balance, observedAt, clock).clock == s.clock;
  }

  lemma PersistingGuarded(p: Params, s: State, event: Event)
    requires SigningTheorems.Inv(p, s) && Guarded(s) && Timely(s, event) && Persisting(event)
    ensures Guarded(NextPersisted(p, s, event))
  {
    match event
    case Sign(prices, tx, now) => SignGuarded(p, s, prices, tx, now);
    case WriteFloor(ok) => FloorGuarded(s, 0, ok);
    case EnsureFloor(id, ok) => FloorGuarded(s, id, ok);
    case RecoverRaise(id, ok) => FloorGuarded(s, id, ok);
    case Send(balance, observedAt, clock) => SendGuarded(p, s, balance, observedAt, clock);
  }

  lemma QuietGuarded(p: Params, s: State, event: Event)
    requires Guarded(s) && Timely(s, event) && Quiet(event)
    ensures Guarded(NextQuiet(p, s, event))
  {
    NoWriteGuarded(s, NextQuiet(p, s, event));
  }

  lemma StepGuarded(p: Params, s: State, event: Event)
    requires SigningTheorems.Inv(p, s) && Guarded(s) && Timely(s, event)
    ensures Guarded(Next(p, s, event))
  {
    if Unsigning(event) {
      UnsigningGuarded(p, s, event);
    } else if Persisting(event) {
      PersistingGuarded(p, s, event);
    } else if Reconciling(event) {
      ReconcilingGuarded(p, s, event);
    } else {
      QuietGuarded(p, s, event);
    }
  }

  ghost predicate TimelyRun(p: Params, latest: bool, events: seq<Event>) {
    forall k {:trigger events[..k]} | 0 <= k < |events| :: Timely(After(p, latest, events[..k]), events[k])
  }

  lemma CalmExtend(p: Params, latest: bool, events: seq<Event>)
    requires events != [] && CalmRun(p, latest, events[..|events| - 1])
    requires Calm(After(p, latest, events[..|events| - 1]), events[|events| - 1])
    ensures CalmRun(p, latest, events)
  {
    var before := events[..|events| - 1];
    forall k {:trigger events[..k]} | 0 <= k < |events| ensures Calm(Onward(p, Start(latest), events[..k]), events[k]) {
      if k < |before| {
        assert before[..k] == events[..k] && before[k] == events[k];
      }
    }
  }

  lemma TimelyPrefix(p: Params, latest: bool, events: seq<Event>)
    requires TimelyRun(p, latest, events) && events != []
    ensures TimelyRun(p, latest, events[..|events| - 1])
    ensures Timely(After(p, latest, events[..|events| - 1]), events[|events| - 1])
  {
    var before := events[..|events| - 1];
    forall k {:trigger before[..k]} | 0 <= k < |before| ensures Timely(After(p, latest, before[..k]), before[k]) {
      assert before[..k] == events[..k] && before[k] == events[k];
    }
  }

  // With readings that never go back, no refresh clears the block too early.
  lemma {:induction false} TimelyRunIsCalm(p: Params, latest: bool, events: seq<Event>)
    requires TimelyRun(p, latest, events)
    ensures CalmRun(p, latest, events) && Guarded(After(p, latest, events))
    decreases |events|
  {
    if events != [] {
      var before, last := events[..|events| - 1], events[|events| - 1];
      TimelyPrefix(p, latest, events);
      TimelyRunIsCalm(p, latest, before);
      RunKeeps(p, latest, before);
      GuardedIsCalm(After(p, latest, before), last);
      StepGuarded(p, After(p, latest, before), last);
      CalmExtend(p, latest, events);
    }
  }

  // ---------- Latest-state mode ----------

  predicate LatestOnly(events: seq<Event>) {
    forall k | 0 <= k < |events| :: events[k].Crash? ==> events[k].latest
  }

  lemma {:induction false} LatestRunIsCalm(p: Params, events: seq<Event>)
    requires LatestOnly(events)
    ensures CalmRun(p, true, events) && After(p, true, events).latest
    decreases |events|
  {
    if events != [] {
      var before, last := events[..|events| - 1], events[|events| - 1];
      LatestRunIsCalm(p, before);
      StepMode(p, After(p, true, before), last);
      CalmExtend(p, true, events);
    }
  }

  lemma UnsignedMode(p: Params, s: State, event: Event)
    requires Unsigning(event)
    ensures NextUnsigned(p, s, event).latest == s.latest
  {
  }

  lemma PersistedMode(p: Params, s: State, event: Event)
    requires Persisting(event)
    ensures NextPersisted(p, s, event).latest == s.latest
  {
    match event
    case Sign(prices, tx, now) => SignMode(p, s, prices, tx, now);
    case Send(balance, observedAt, clock) => SendMode(p, s, balance, observedAt, clock);
    case _ =>
  }

  lemma SignMode(p: Params, s: State, prices: Prices, tx: Transaction, now: Time)
    ensures DoSign(p, s, prices, tx, now).latest == s.latest
  {
  }

  lemma SendMode(p: Params, s: State, balance: Wei, observedAt: Time, clock: Time)
    ensures DoSend(p, s, balance, observedAt, clock).latest == s.latest
  {
  }

  lemma ReconciledMode(p: Params, s: State, event: Event)
    requires Reconciling(event)
    ensures NextReconciled(p, s, event).latest == s.latest
  {
  }

  lemma QuietMode(p: Params, s: State, event: Event)
    requires Quiet(event)
    ensures NextQuiet(p, s, event).latest == if event.Crash? then event.latest else s.latest
  {
  }

  lemma StepMode(p: Params, s: State, event: Event)
    ensures Next(p, s, event).latest == if event.Crash? then event.latest else s.latest
  {
    if Unsigning(event) {
      UnsignedMode(p, s, event);
    } else if Quiet(event) {
      QuietMode(p, s, event);
    } else if Persisting(event) {
      PersistedMode(p, s, event);
    } else {
      ReconciledMode(p, s, event);
    }
  }

  // ---------- Floor writes that succeed ----------

  predicate FloorsWritten(events: seq<Event>) {
    forall k | 0 <= k < |events| :: events[k] != WriteFloor(false)
  }

  // Loose incidents exist only between the two writes, or until recovery after a crash there.
  ghost predicate InTransit(s: State) {
    s.running ==> forall id | Loose(s.disk, id) :: s.phase == Written(id) && s.disk.incidents[id].sponsorNonce != MAX_UINT64
  }

  // A step that signs nothing: no incident becomes loose, and the two writes are not separated.
  ghost predicate NoNewLoose(disk: Store, disk': Store) {
    forall id {:trigger Loose(disk', id)} | Loose(disk', id) ::
      Loose(disk, id) && disk'.incidents[id].sponsorNonce == disk.incidents[id].sponsorNonce
  }

  ghost predicate Settles(s: State, s': State) {
    && NoNewLoose(s.disk, s'.disk)
    && (s.phase.Written? ==> s'.phase == s.phase)
    && (s'.running ==> s.running)
  }

  lemma SettledTransit(s: State, s': State)
    requires InTransit(s) && Settles(s, s')
    ensures InTransit(s')
  {
  }

  // Writing a record that keeps the hash and nonce of the stored one, or has no hash.
  lemma SaveSettles(p: Params, s: State, next: Incident, now: Time)
    requires RescueStore.Inv(p.store, s.disk) && !s.phase.Written? && next.id in s.disk.incidents
    requires next.txHash == 0 || (next.txHash == s.disk.incidents[next.id].txHash && next.sponsorNonce == s.disk.incidents[next.id].sponsorNonce)
    ensures Settles(s, Save(p, s, next, Idle, now))
  {
    HashMeansSigned(p.store.ids, s.disk.incidents[next.id]);
    SaveCases(p, s, next, Idle, now);
  }

  lemma PrepareSettles(p: Params, s: State, id: IncidentID, b: Snapshot, pending: Uint64, sourceNonce: Uint64, now: Time)
    requires RescueStore.Inv(p.store, s.disk)
    ensures Settles(s, DoPrepare(p, s, id, b, pending, sourceNonce, now))
  {
    var s' := DoPrepare(p, s, id, b, pending, sourceNonce, now);
    if s' != s {
      var i := s.disk.incidents[id];
      var raised := s.(floor := Raised(s.floor, pending));
      SaveCases(p, raised, PreparedRecord(i, b, raised.floor, if i.policy.latestState then 0 else sourceNonce, now),
                if i.policy.latestState then Ready(id) else Checking(id), now);
    }
  }

  lemma PreparationSettles(p: Params, s: State, id: IncidentID, b: Snapshot, code: string, now: Time)
    requires RescueStore.Inv(p.store, s.disk)
    ensures Settles(s, DoPrepareRefused(p, s, id, b, now)) && Settles(s, DoPreparationFails(p, s, id, b, code, now))
  {
    if id in s.disk.incidents && !s.phase.Written? {
      var i := s.disk.incidents[id];
      StoredId(p, s, id);
      SaveSettles(p, s, PreparedRecord(i, b, 0, 0, now), now);
      SaveSettles(p, s, PreparationFailedRecord(i, b, code, now), now);
    }
  }

  lemma GiveUpSettles(p: Params, s: State, id: IncidentID, status: Status, code: string, now: Time)
    requires RescueStore.Inv(p.store, s.disk)
    ensures Settles(s, DoFailBeforeSigned(p, s, id, code, now)) && Settles(s, DoClose(p, s, id, status, code, now))
  {
    if id in s.disk.incidents && !s.phase.Written? {
      var i := s.disk.incidents[id];
      StoredId(p, s, id);
      SaveSettles(p, s, RetryableRecord(i, code, now), now);
      SaveSettles(p, s, TerminalRecord(i, status, code, now), now);
    }
  }

  lemma PutSettles(p: Params, s: State, i: Incident)
    ensures Settles(s, SigningModel.DoPut(p, s, i))
  {
    assert NoNewLoose(s.disk, SigningModel.DoPut(p, s, i).disk);
  }

  lemma ResumeSettles(s: State, id: IncidentID, pending: Uint64)
    ensures Settles(s, DoResume(s, id)) && Settles(s, DoCheckNonce(s, pending))
  {
    assert NoNewLoose(s.disk, s.disk);
  }

  lemma UnsigningSettles(p: Params, s: State, event: Event)
    requires RescueStore.Inv(p.store, s.disk) && Unsigning(event)
    ensures Settles(s, NextUnsigned(p, s, event))
  {
    match event
    case Put(i) => PutSettles(p, s, i);
    case Prepare(id, b, pending, sourceNonce, now) => PrepareSettles(p, s, id, b, pending, sourceNonce, now);
    case PrepareRefused(id, b, now) => PreparationSettles(p, s, id, b, "", now);
    case PreparationFails(id, b, code, now) => PreparationSettles(p, s, id, b, code, now);
    case Resume(id) => ResumeSettles(s, id, 0);
    case CheckNonce(pending) => ResumeSettles(s, 0, pending);
    case FailBeforeSigned(id, code, now) => GiveUpSettles(p, s, id, Failed, code, now);
    case Close(id, status, code, now) => GiveUpSettles(p, s, id, status, code, now);
  }

  lemma MarkSettles(p: Params, s: State, id: IncidentID, code: string, now: Time)
    requires RescueStore.Inv(p.store, s.disk)
    ensures Settles(s, DoMarkBroadcast(p, s, id, now))
    ensures Settles(s, DoMarkAmbiguous(p, s, id, code, now))
  {
    if id in s.disk.incidents && !s.phase.Written? {
      var i := s.disk.incidents[id];
      StoredId(p, s, id);
      SaveSettles(p, s, BroadcastRecord(i, now), now);
      SaveSettles(p, s, AmbiguousRecord(i, code, now), now);
    }
  }

  lemma ReceiveSettles(p: Params, s: State, id: IncidentID, now: Time)
    requires RescueStore.Inv(p.store, s.disk)
    ensures Settles(s, DoMarkReceived(p, s, id, now))
    ensures Settles(s, DoExpire(p, s, id, now))
  {
    if id in s.disk.incidents && !s.phase.Written? {
      var i := s.disk.incidents[id];
      StoredId(p, s, id);
      SaveSettles(p, s, i.(status := Ambiguous, lastCode := CODE_BROADCAST, updatedAt := now), now);
      SaveSettles(p, s, ExpiredRecord(i), now);
    }
  }

  lemma FinishSettles(p: Params, s: State, id: IncidentID, status: Status, code: string, now: Time)
    requires RescueStore.Inv(p.store, s.disk)
    ensures Settles(s, DoFinish(p, s, id, status, code, now))
  {
    if id in s.disk.incidents && !s.phase.Written? {
      StoredId(p, s, id);
      SaveSettles(p, s, TerminalRecord(s.disk.incidents[id], status, code, now), now);
    }
  }

  lemma ReconcilingSettles(p: Params, s: State, event: Event)
    requires RescueStore.Inv(p.store, s.disk) && Reconciling(event)
    ensures Settles(s, NextReconciled(p, s, event))
  {
    match event
    case MarkBroadcast(id, now) => MarkSettles(p, s, id, "", now);
    case MarkAmbiguous(id, code, now) => MarkSettles(p, s, id, code, now);
    case MarkReceived(id, now) => ReceiveSettles(p, s, id, now);
    case Expire(id, now) => ReceiveSettles(p, s, id, now);
    case Finish(id, status, code, now) => FinishSettles(p, s, id, status, code, now);
  }

  lemma RaiseSettles(s: State, id: IncidentID, ok: bool)
    ensures Settles(s, DoEnsureFloor(s, id, ok))
    ensures Settles(s, DoRecoverRaise(s, id, ok))
  {
    assert NoNewLoose(s.disk, DoEnsureFloor(s, id, ok).disk);
    assert NoNewLoose(s.disk, DoRecoverRaise(s, id, ok).disk);
  }

  lemma PruneSettles(s: State, retain: int)
    ensures Settles(s, SigningModel.DoPrune(s, retain))
  {
    assert NoNewLoose(s.disk, SigningModel.DoPrune(s, retain).disk);
  }

  lemma MemorySettles(s: State, pending: Uint64, now: Time, hash: Hash)
    ensures Settles(s, DoReadNonce(s, pending)) && Settles(s, DoLeave(s)) && Settles(s, DoRecoverFloor(s))
    ensures Settles(s, DoRefresh(s, now)) && Settles(s, DoRefreshFails(s)) && Settles(s, DoMine(s, hash))
  {
    assert NoNewLoose(s.disk, s.disk);
  }

  lemma QuietSettles(p: Params, s: State, event: Event)
    requires Quiet(event) && !event.Crash? && !event.Recovered?
    ensures Settles(s, NextQuiet(p, s, event))
  {
    match event
    case Prune(retain) => PruneSettles(s, retain);
    case ReadNonce(pending) => MemorySettles(s, pending, 0, 0);
    case Refresh(now) => MemorySettles(s, 0, now, 0);
    case Mine(hash) => MemorySettles(s, 0, 0, hash);
    case Budget(command) => assert NoNewLoose(s.disk, s.disk);
    case Fund(prices, balance, observedAt, clock) => assert NoNewLoose(s.disk, s.disk);
    case Leave => MemorySettles(s, 0, 0, 0);
    case RefreshFails => MemorySettles(s, 0, 0, 0);
    case RecoverFloor => MemorySettles(s, 0, 0, 0);
  }

  lemma SendSettles(p: Params, s: State, balance: Wei, observedAt: Time, clock: Time)
    ensures Settles(s, DoSend(p, s, balance, observedAt, clock))
  {
    SendCases(p, s, balance, observedAt, clock);
  }

  lemma SignTransit(p: Params, s: State, prices: Prices, tx: Transaction, now: Time)
    requires RescueStore.Inv(p.store, s.disk) && PhaseOk(s) && InTransit(s)
    ensures InTransit(DoSign(p, s, prices, tx, now))
  {
    SignCases(p, s, prices, tx, now);
    OutcomeTransit(s, DoSign(p, s, prices, tx, now), tx, now);
  }

  lemma OutcomeTransit(s: State, s': State, tx: Transaction, now: Time)
    requires PhaseOk(s) && InTransit(s) && SignOutcome(s, s', tx, now)
    ensures InTransit(s')
  {
    if s'.history != s.history {
      var i := s.disk.incidents[s.phase.id];
      forall id | Loose(s'.disk, id) ensures id == i.id {
        if id != i.id {
          assert Loose(s.disk, id);
        }
      }
    }
  }

  lemma WriteFloorTransit(s: State)
    requires InTransit(s)
    ensures InTransit(DoWriteFloor(s, true))
  {
    var s' := DoWriteFloor(s, true);
    forall id | Loose(s'.disk, id) ensures Loose(s.disk, id) {
    }
  }

  lemma RecoveredTransit(s: State)
    requires InTransit(s)
    ensures InTransit(DoRecovered(s))
  {
  }

  lemma PersistingTransit(p: Params, s: State, event: Event)
    requires SigningTheorems.Inv(p, s) && InTransit(s) && Persisting(event) && event != WriteFloor(false)
    ensures InTransit(NextPersisted(p, s, event))
  {
    match event
    case Sign(prices, tx, now) => SignTransit(p, s, prices, tx, now);
    case WriteFloor(ok) => WriteFloorTransit(s);
    case Send(balance, observedAt, clock) => SendSettles(p, s, balance, observedAt, clock); SettledTransit(s, DoSend(p, s, balance, observedAt, clock));
    case EnsureFloor(id, ok) => RaiseSettles(s, id, ok); SettledTransit(s, DoEnsureFloor(s, id, ok));
    case RecoverRaise(id, ok) => RaiseSettles(s, id, ok); SettledTransit(s, DoRecoverRaise(s, id, ok));
  }

  lemma QuietTransit(p: Params, s: State, event: Event)
    requires InTransit(s) && Quiet(event)
    ensures InTransit(NextQuiet(p, s, event))
  {
    if event.Recovered? {
      RecoveredTransit(s);
    } else if !event.Crash? {
      QuietSettles(p, s, event);
      SettledTransit(s, NextQuiet(p, s, event));
    }
  }

  lemma StepTransit(p: Params, s: State, event: Event)
    requires SigningTheorems.Inv(p, s) && InTransit(s) && event != WriteFloor(false)
    ensures InTransit(Next(p, s, event))
  {
    if Unsigning(event) {
      UnsigningSettles(p, s, event);
      SettledTransit(s, NextUnsigned(p, s, event));
    } else if Persisting(event) {
      PersistingTransit(p, s, event);
    } else if Reconciling(event) {
      ReconcilingSettles(p, s, event);
      SettledTransit(s, NextReconciled(p, s, event));
    } else {
      QuietTransit(p, s, event);
    }
  }

  // When no floor write fails, the clock may do what it likes.
  lemma {:induction false} FloorsWrittenIsCalm(p: Params, latest: bool, events: seq<Event>)
    requires FloorsWritten(events)
    ensures CalmRun(p, latest, events) && InTransit(After(p, latest, events))
    decreases |events|
  {
    if events != [] {
      var before, last := events[..|events| - 1], events[|events| - 1];
      FloorsWrittenIsCalm(p, latest, before);
      RunKeeps(p, latest, before);
      StepTransit(p, After(p, latest, before), last);
      CalmExtend(p, latest, events);
    }
  }

  // With a clock that does not run backwards, or floor writes that succeed, or in latest-state mode:
  // every nonce is recorded as signed at most once.
  lemma NoncesDistinct(p: Params, latest: bool, events: seq<Event>, a: IncidentID, b: IncidentID)
    requires TimelyRun(p, latest, events) || FloorsWritten(events) || (latest && LatestOnly(events))
    ensures var s := After(p, latest, events);
            && Increasing(s.history)
            && (SameNonce(s.disk.incidents, a, b) ==> a == b)
  {
    if TimelyRun(p, latest, events) {
      TimelyRunIsCalm(p, latest, events);
    } else if FloorsWritten(events) {
      FloorsWrittenIsCalm(p, latest, events);
    } else {
      LatestRunIsCalm(p, events);
    }
    NoncesNeverRepeat(p, latest, events, a, b);
  }
}
