/** A rejected candidate waits until its retry time and is then queued again. */
module StoreDelay {
  import opened Prelude
  import opened Sorting
  import opened StoreModel
  import opened StoreSteps
  import opened StoreInvariant
  import opened StorePrimitives
  import opened StorePromotion
  import opened StoreAdvance
  import opened StoreFlows
  import opened StoreTransactions
  import opened StoreCommit
  import opened StoreRuns
  import opened StoreQueue
  import StoreFailures

  predicate DelayedUntil(db: Database, id: CandidateID, retryAt: Time) {
    id in db.candidates && db.candidates[id].status == Delayed && db.candidates[id].retryAt == retryAt
  }

  // ---------- Nack ----------

  // An accepted rejection with a retry time still to come delays exactly this candidate until then
  // and takes it off the queue.
  lemma NackDelays(c: Config, db: Database, id: CandidateID, incident: IncidentID, retryAt: Time, now: Time)
    requires Inv(c, db) && DoNack(c, db, id, incident, retryAt, now).result.Ok? && now < retryAt
    ensures var db' := DoNack(c, db, id, incident, retryAt, now).after;
            && id in db.candidates && id in db'.candidates
            && db'.candidates[id] == Record(Delayed, retryAt, db.candidates[id].candidate)
            && id !in db'.pending && (forall k | k in db'.order :: db'.order[k] != id)
  {
    NackWorks(c, db, id, incident, retryAt, now);
    NackAlmost(c, db, id, retryAt);
    var mid := Dequeue(db, id, Record(Delayed, retryAt, db.candidates[id].candidate));
    PromotePromotes(c, mid, now);
    PromoteKeeps(c, mid, now);
    assert RecordKept(mid, Promote(c, mid, now).value, id);
    NotQueued(Promote(c, mid, now).value, id);
  }

  lemma NotQueued(db: Database, id: CandidateID)
    requires Queue(db) && id in db.candidates && db.candidates[id].status != Ready
    ensures id !in db.pending && (forall k | k in db.order :: db.order[k] != id)
  {
  }

  // Under the invariant it is accepted exactly for a ready candidate and its own incident, as long as
  // there are queue numbers left for what it lets in.
  lemma NackAnswers(c: Config, db: Database, id: CandidateID, incident: IncidentID, retryAt: Time, now: Time)
    requires Inv(c, db) && db.orderSequence + c.maxPending <= MAX_UINT64
    ensures var result := DoNack(c, db, id, incident, retryAt, now).result;
            && (result.Ok? <==> retryAt != UNSET && IsReady(db.candidates, id) && id in db.incidents && db.incidents[id].id == incident)
            && (result == Err(InvalidInput) <==> retryAt == UNSET) && (result.Ok? || result == Err(InvalidInput) || result == Err(Conflict))
  {
    StoreFailures.ResolveClean(c, db, id, incident);
    if retryAt != UNSET && ResolveError(c, db, id, incident).None? && db.candidates[id].status == Ready {
      NackAlmost(c, db, id, retryAt);
      MapRemoveSize(db.pending, id);
      StoreFailures.PromoteOk(c, Dequeue(db, id, Record(Delayed, retryAt, db.candidates[id].candidate)), now);
    }
  }

  // ---------- The record of a delayed candidate ----------

  lemma PromoteLeaves(c: Config, mid: Database, now: Time, id: CandidateID)
    requires Queue(mid) && Promote(c, mid, now).Ok? && id in mid.candidates && !Eligible(mid.candidates[id], now)
    ensures RecordKept(mid, Promote(c, mid, now).value, id)
  {
    PromotePromotes(c, mid, now);
    assert RecordKept(mid, Promote(c, mid, now).value, id);
  }

  lemma AdvanceLeaves(db: Database, db': Database, id: CandidateID)
    requires Advances(db, db') && id in db.candidates && db.candidates[id].status != Acknowledged
    ensures RecordKept(db, db', id)
  {
  }

  lemma {:induction false} StageAllLeaves(db: Database, candidates: seq<Candidate>, id: CandidateID)
    requires id in db.candidates && db.candidates[id].status != Observed
    ensures RecordKept(db, StageAll(db, candidates), id)
    decreases |candidates|
  {
    if candidates != [] {
      var next := StageOne(db, candidates[0]);
      assert RecordKept(db, next, id);
      StageAllLeaves(next, candidates[1..], id);
    }
  }

  // The clock reading an operation uses.
  function ReadingOf(command: Command): Option<Time> {
    match command
    case Offer(_, now) => Some(now)
    case Take(now) => Some(now)
    case Ack(_, _, now) => Some(now)
    case Nack(_, _, _, now) => Some(now)
    case Commit(_, now) => Some(now)
    case _ => None
  }

  predicate ReadsBefore(command: Command, t: Time) { ReadingOf(command).Some? ==> ReadingOf(command).value < t }

  lemma UpgradeLeaves(c: Config, db: Database, candidate: Candidate, now: Time, id: CandidateID, retryAt: Time)
    requires Inv(c, db) && candidate.id in db.candidates && db.candidates[candidate.id].status == Observed && RoomFor(c, db, 1)
    requires DelayedUntil(db, id, retryAt) && now < retryAt && Promote(c, Upgrade(db, candidate), now).Ok?
    ensures RecordKept(db, Promote(c, Upgrade(db, candidate), now).value, id)
  {
    UpgradedAlmost(c, db, candidate);
    PromoteLeaves(c, Upgrade(db, candidate), now, id);
  }

  lemma StageLeaves(c: Config, db: Database, candidate: Candidate, now: Time, id: CandidateID, retryAt: Time)
    requires Inv(c, db) && ValidCandidate(c, candidate) && candidate.id !in db.candidates && !AlreadyScanned(db, candidate) && RoomFor(c, db, 1)
    requires DelayedUntil(db, id, retryAt) && now < retryAt && Promote(c, AddCandidate(db, Staged, candidate), now).Ok?
    ensures RecordKept(db, Promote(c, AddCandidate(db, Staged, candidate), now).value, id)
  {
    StagedAlmost(c, db, candidate);
    PromoteLeaves(c, AddCandidate(db, Staged, candidate), now, id);
  }

  lemma PutLeaves(c: Config, db: Database, candidate: Candidate, now: Time, id: CandidateID, retryAt: Time)
    requires Inv(c, db) && DelayedUntil(db, id, retryAt) && now < retryAt
    ensures RecordKept(db, DoPut(c, db, candidate, now).after, id)
  {
    PutCases(c, db, candidate, now);
    if DoPut(c, db, candidate, now).after != db {
      if candidate.id in db.candidates {
        UpgradeLeaves(c, db, candidate, now, id, retryAt);
      } else {
        StageLeaves(c, db, candidate, now, id, retryAt);
      }
    }
  }

  lemma MarkRemovedLeaves(c: Config, db: Database, other: CandidateID, id: CandidateID, retryAt: Time)
    requires Inv(c, db) && DelayedUntil(db, id, retryAt)
    ensures RecordKept(db, DoMarkRemoved(c, db, other).after, id)
  {
    MarkRemovedCases(c, db, other);
    if DoMarkRemoved(c, db, other).after != db {
      DiscardLagging(c, db, {other});
      AdvanceAlmost(c, Discard(db, {other}));
      AdvanceLeaves(Discard(db, {other}), DoMarkRemoved(c, db, other).after, id);
    }
  }

  lemma NextLeaves(c: Config, db: Database, now: Time, id: CandidateID, retryAt: Time)
    requires Inv(c, db) && DelayedUntil(db, id, retryAt) && now < retryAt
    ensures RecordKept(db, DoNext(c, db, now).after, id)
  {
    if Promote(c, db, now).Ok? {
      PromoteLeaves(c, db, now, id);
    }
  }

  lemma NackLeaves(c: Config, db: Database, other: CandidateID, incident: IncidentID, until: Time, now: Time, id: CandidateID, retryAt: Time)
    requires Inv(c, db) && DelayedUntil(db, id, retryAt) && now < retryAt
    ensures RecordKept(db, DoNack(c, db, other, incident, until, now).after, id)
  {
    NackWorks(c, db, other, incident, until, now);
    if DoNack(c, db, other, incident, until, now).result.Ok? {
      NackAlmost(c, db, other, until);
      PromoteLeaves(c, Dequeue(db, other, Record(Delayed, until, db.candidates[other].candidate)), now, id);
    }
  }

  lemma AckLeaves(c: Config, db: Database, other: CandidateID, incident: IncidentID, now: Time, id: CandidateID, retryAt: Time)
    requires Inv(c, db) && DelayedUntil(db, id, retryAt) && now < retryAt
    ensures RecordKept(db, DoAck(c, db, other, incident, now).after, id)
  {
    var o := DoAck(c, db, other, incident, now);
    AckCases(c, db, other, incident, now);
    if o.after != db {
      var evicted, advanced := SettleCases(c, Acknowledge(db, other), now);
      AckAdvances(c, db, other, evicted, advanced);
      SettledLeaves(c, db, other, evicted, advanced, id, retryAt);
      PromoteLeaves(c, advanced, now, id);
    }
  }

  lemma EvictLeaves(db: Database, other: CandidateID, evicted: Database, id: CandidateID)
    requires Acknowledgeable(db, other) && OnlyForgets(Acknowledge(db, other), evicted)
    requires id in db.candidates && id != other && db.candidates[id].status != Acknowledged
    ensures RecordKept(db, evicted, id)
  {
    assert RecordKept(db, Acknowledge(db, other), id);
  }

  lemma SettledLeaves(c: Config, db: Database, other: CandidateID, evicted: Database, advanced: Database, id: CandidateID, retryAt: Time)
    requires Inv(c, db) && Acknowledgeable(db, other) && Evict(Acknowledge(db, other)) == Ok(evicted) && Advance(evicted) == Ok(advanced)
    requires DelayedUntil(db, id, retryAt)
    ensures RecordKept(db, advanced, id)
  {
    SettledQueue(c, db, other, evicted, advanced);
    EvictLeaves(db, other, evicted, id);
    AdvanceLeaves(evicted, advanced, id);
  }

  lemma CommitLeaves(c: Config, db: Database, block: Canonical, now: Time, id: CandidateID, retryAt: Time)
    requires Inv(c, db) && NoFastTokens(block) && DelayedUntil(db, id, retryAt) && now < retryAt
    ensures RecordKept(db, DoCommit(c, db, block, now).after, id)
  {
    var promoted := CommitCases(c, db, block, now);
    var db' := DoCommit(c, db, block, now).after;
    if db' != db {
      var mid, staged := StageBlockCases(c, db, block);
      assert RecordKept(db, mid, id);
      StageAllLeaves(mid, block.candidates, id);
      StoredLagging(c, db, block, mid, staged);
      PromoteLeaves(c, AddBlock(staged, block), now, id);
      PromoteLagging(c, AddBlock(staged, block), now);
      AdvanceAlmost(c, promoted);
      AdvanceLeaves(promoted, db', id);
    }
  }

  lemma PutObservedLeaves(c: Config, db: Database, candidate: Candidate, id: CandidateID, retryAt: Time)
    requires DelayedUntil(db, id, retryAt)
    ensures RecordKept(db, DoPutObserved(c, db, candidate).after, id)
  {
  }

  lemma PutIncidentLeaves(c: Config, db: Database, incident: Incident, id: CandidateID, retryAt: Time)
    requires DelayedUntil(db, id, retryAt)
    ensures RecordKept(db, DoPutIncident(c, db, incident).after, id)
  {
    PutIncidentCases(c, db, incident);
  }

  // No operation that reads the clock before the retry time touches the record.
  lemma StepLeaves(c: Config, db: Database, command: Command, id: CandidateID, retryAt: Time)
    requires Inv(c, db) && NoFast(command) && DelayedUntil(db, id, retryAt) && ReadsBefore(command, retryAt)
    ensures RecordKept(db, After(c, db, command), id)
  {
    match command
    case Offer(candidate, now) => PutLeaves(c, db, candidate, now, id, retryAt);
    case Observe(candidate) => PutObservedLeaves(c, db, candidate, id, retryAt);
    case MarkRemoved(other) => MarkRemovedLeaves(c, db, other, id, retryAt);
    case Take(now) => NextLeaves(c, db, now, id, retryAt);
    case PutIncident(incident) => PutIncidentLeaves(c, db, incident, id, retryAt);
    case Ack(other, incident, now) => AckLeaves(c, db, other, incident, now, id, retryAt);
    case Nack(other, incident, until, now) => NackLeaves(c, db, other, incident, until, now, id, retryAt);
    case Commit(block, now) => CommitLeaves(c, db, block, now, id, retryAt);
  }

  // ---------- Runs ----------

  // Command k rejects the candidate until then.
  ghost predicate NackedAt(c: Config, commands: seq<Command>, k: nat, id: CandidateID, retryAt: Time) {
    && k < |commands| && commands[k].Nack? && commands[k].id == id && commands[k].retryAt == retryAt && commands[k].now < retryAt
    && id in Resolved(c, Run(c, commands[..k]), commands[k])
  }

  lemma NackStep(c: Config, db: Database, command: Command)
    requires Inv(c, db) && command.Nack? && command.now < command.retryAt && command.id in Resolved(c, db, command)
    ensures DelayedUntil(After(c, db, command), command.id, command.retryAt)
  {
    NackDelays(c, db, command.id, command.incident, command.retryAt, command.now);
  }

  lemma NackedDelays(c: Config, commands: seq<Command>, k: nat, id: CandidateID, retryAt: Time)
    requires AllNoFast(commands) && NackedAt(c, commands, k, id, retryAt)
    ensures DelayedUntil(Run(c, commands[..k + 1]), id, retryAt)
  {
    RunInv(c, commands[..k]);
    RunStep(c, commands, k);
    NackStep(c, Run(c, commands[..k]), commands[k]);
  }

  lemma DelayedOnce(c: Config, commands: seq<Command>, k: nat, id: CandidateID, retryAt: Time)
    requires AllNoFast(commands) && k < |commands| && ReadsBefore(commands[k], retryAt) && DelayedUntil(Run(c, commands[..k]), id, retryAt)
    ensures DelayedUntil(Run(c, commands[..k + 1]), id, retryAt)
  {
    RunInv(c, commands[..k]);
    RunStep(c, commands, k);
    StepLeaves(c, Run(c, commands[..k]), commands[k], id, retryAt);
  }

  lemma {:induction false} DelayedOn(c: Config, commands: seq<Command>, i: nat, k: nat, id: CandidateID, retryAt: Time)
    requires AllNoFast(commands) && i <= k <= |commands| && DelayedUntil(Run(c, commands[..i]), id, retryAt)
    requires forall j | i <= j < k :: ReadsBefore(commands[j], retryAt)
    ensures DelayedUntil(Run(c, commands[..k]), id, retryAt)
    decreases k - i
  {
    if i < k {
      DelayedOn(c, commands, i, k - 1, id, retryAt);
      DelayedOnce(c, commands, k - 1, id, retryAt);
    }
  }

  lemma DelayedInRun(c: Config, commands: seq<Command>, k: nat, id: CandidateID, retryAt: Time)
    requires AllNoFast(commands) && NackedAt(c, commands, k, id, retryAt)
    requires forall j | k < j < |commands| :: ReadsBefore(commands[j], retryAt)
    ensures DelayedUntil(Run(c, commands), id, retryAt)
  {
    NackedDelays(c, commands, k, id, retryAt);
    DelayedOn(c, commands, k + 1, |commands|, id, retryAt);
    assert commands[..|commands|] == commands;
  }

  lemma DelayedNotHandedOut(c: Config, db: Database, now: Time, id: CandidateID, retryAt: Time, n: Uint64)
    requires Inv(c, db) && DelayedUntil(db, id, retryAt) && now < retryAt
    ensures !HandsOut(c, db, now, id, n)
  {
    if DoNext(c, db, now).result.Ok? {
      NextOk(c, db, now);
      NextAnswers(c, db, now);
      NextLeaves(c, db, now, id, retryAt);
    }
  }

  // After an accepted rejection, in every continuation in which no clock reading has reached the
  // retry time, the candidate stays delayed and Next does not hand it out.
  lemma NotBeforeRetry(c: Config, commands: seq<Command>, k: nat, now: Time, id: CandidateID, retryAt: Time, n: Uint64)
    requires AllNoFast(commands) && NackedAt(c, commands, k, id, retryAt) && now < retryAt
    requires forall j | k < j < |commands| :: ReadsBefore(commands[j], retryAt)
    ensures DelayedUntil(Run(c, commands), id, retryAt) && id in DoReplay(Run(c, commands)) && !HandsOut(c, Run(c, commands), now, id, n)
  {
    DelayedInRun(c, commands, k, id, retryAt);
    RunInv(c, commands);
    DelayedNotHandedOut(c, Run(c, commands), now, id, retryAt, n);
  }

  // ... and once Next reads the clock at the retry time or later, the candidate is ready again, unless
  // the queue is full.
  lemma ReadyAfterRetry(c: Config, commands: seq<Command>, k: nat, now: Time, id: CandidateID, retryAt: Time)
    requires AllNoFast(commands) && NackedAt(c, commands, k, id, retryAt) && retryAt <= now
    requires forall j | k < j < |commands| :: ReadsBefore(commands[j], retryAt)
    requires Promote(c, Run(c, commands), now).Ok?
    ensures var after := DoNext(c, Run(c, commands), now).after;
            IsReady(after.candidates, id) || |after.pending| == c.maxPending
  {
    DelayedInRun(c, commands, k, id, retryAt);
    RunInv(c, commands);
    NextWakes(c, Run(c, commands), now, id, retryAt);
  }

  lemma NextWakes(c: Config, db: Database, now: Time, id: CandidateID, retryAt: Time)
    requires Inv(c, db) && DelayedUntil(db, id, retryAt) && retryAt <= now && Promote(c, db, now).Ok?
    ensures var after := DoNext(c, db, now).after;
            IsReady(after.candidates, id) || |after.pending| == c.maxPending
  {
    NextAnswers(c, db, now);
    var after := DoNext(c, db, now).after;
    assert RecordKept(db, after, id) ==> Eligible(after.candidates[id], now);
  }
}
