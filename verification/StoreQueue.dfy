/** The ready queue: which candidate comes next, in which order, and how long a rejected one waits. */
module StoreQueue {
  import opened Prelude
  import opened Sorting
  import opened StoreModel
  import opened StoreSteps
  import opened StoreInvariant
  import opened StorePrimitives
  import opened StorePromotion
  import opened StoreAdvance
  import opened StoreFlows
  import opened StoreTransactions
  import opened StoreCommit
  import opened StoreRuns
  import StoreFailures

  // ---------- What promotion does to the queue ----------

  // Whatever was queued keeps its number, except what is gone; whatever is new comes after everything.
  ghost predicate QueueKept(db: Database, db': Database, gone: set<CandidateID>) {
    && db.orderSequence <= db'.orderSequence
    && (forall id {:trigger id in db.pending} | id in db.pending && id !in gone :: id in db'.pending && db'.pending[id] == db.pending[id])
    && (forall id {:trigger id in db'.pending} | id in db'.pending ::
          (id in db.pending && id !in gone && db'.pending[id] == db.pending[id]) || db.orderSequence < db'.pending[id])
  }

  lemma QueueKeptOn(a: Database, b: Database, d: Database, gone: set<CandidateID>)
    requires QueueKept(a, b, gone) && QueueKept(b, d, {})
    ensures QueueKept(a, d, gone)
  {
  }

  lemma SameQueue(a: Database, b: Database, d: Database, gone: set<CandidateID>)
    requires QueueKept(a, b, gone) && d.pending == b.pending && d.orderSequence == b.orderSequence
    ensures QueueKept(a, d, gone)
  {
  }

  lemma {:induction false} EnqueueAllQueue(db: Database, ids: seq<CandidateID>)
    requires Distinct(ids) && (forall id | id in ids :: id !in db.pending) && EnqueueAll(db, ids).Ok?
    ensures QueueKept(db, EnqueueAll(db, ids).value, {})
    ensures forall id | id in ids :: IsReady(EnqueueAll(db, ids).value.candidates, id)
    ensures forall id | id in db.candidates && id !in ids :: RecordKept(db, EnqueueAll(db, ids).value, id)
    decreases |ids|
  {
    if ids != [] {
      var next := Enqueue(db, ids[0]);
      assert forall id | id in ids[1..] :: id !in next.pending;
      EnqueueAllQueue(next, ids[1..]);
      var after := EnqueueAll(next, ids[1..]).value;
      assert QueueKept(db, next, {});
      QueueKeptOn(db, next, after, {});
      assert RecordKept(next, after, ids[0]);
      forall id | id in db.candidates && id !in ids ensures RecordKept(db, after, id) {
        assert RecordKept(next, after, id);
      }
    }
  }

  predicate RecordKept(db: Database, db': Database, id: CandidateID) {
    id in db.candidates && id in db'.candidates && db'.candidates[id] == db.candidates[id]
  }

  // ---------- Promotion takes as many as fit ----------

  lemma {:induction false} WovenHas(chosen: seq<CandidateID>, staged: seq<CandidateID>, delayed: seq<CandidateID>)
    requires Woven(chosen, staged, delayed)
    ensures |chosen| == |staged| + |delayed|
    ensures forall id | id in staged || id in delayed :: id in chosen
    decreases |chosen|
  {
    if chosen != [] {
      assert chosen == [chosen[0]] + chosen[1..];
      assert staged != [] ==> staged == [staged[0]] + staged[1..];
      assert delayed != [] ==> delayed == [delayed[0]] + delayed[1..];
      if staged != [] && staged[0] == chosen[0] && Woven(chosen[1..], staged[1..], delayed) {
        WovenHas(chosen[1..], staged[1..], delayed);
      } else {
        WovenHas(chosen[1..], staged, delayed[1..]);
      }
    }
  }

  // When fewer are chosen than fit, everything that waits is chosen.
  lemma ChoosesAll(staged: seq<CandidateID>, delayed: seq<CandidateID>, prefer: bool, n: nat)
    ensures var ids := Interleave(staged, delayed, prefer, n).ids;
            |ids| < n ==> forall id | id in staged || id in delayed :: id in ids
  {
    var i, j := InterleaveTakesFronts(staged, delayed, prefer, n);
    var ids := Interleave(staged, delayed, prefer, n).ids;
    WovenHas(ids, staged[..i], delayed[..j]);
    if |ids| < n {
      assert staged[..i] == staged && delayed[..j] == delayed;
    }
  }

  predicate Eligible(r: Record, now: Time) { r.status == Staged || (r.status == Delayed && r.retryAt <= now) }

  ghost predicate NoneWaits(db: Database, now: Time) {
    forall id {:trigger db.candidates[id]} | id in db.candidates :: !Eligible(db.candidates[id], now)
  }

  lemma WaitingListed(db: Database, now: Time, id: CandidateID)
    ensures var staged, due := Sorted(StagedIds(db.candidates)), Sorted(DueIds(db.candidates, now));
            id in staged || id in due <==> id in db.candidates && Eligible(db.candidates[id], now)
  {
    assert id in StagedIds(db.candidates) <==> id in Sorted(StagedIds(db.candidates));
    assert id in DueIds(db.candidates, now) <==> id in Sorted(DueIds(db.candidates, now));
  }

  lemma ChosenEligible(c: Config, db: Database, now: Time)
    requires |db.pending| <= c.maxPending
    ensures var ids := Chosen(c, db, now).ids;
            && (forall id | id in ids :: id in db.candidates && Eligible(db.candidates[id], now))
            && (|ids| < c.maxPending - |db.pending| ==> forall id | id in db.candidates && Eligible(db.candidates[id], now) :: id in ids)
  {
    var staged, due, n := Sorted(StagedIds(db.candidates)), Sorted(DueIds(db.candidates, now)), c.maxPending - |db.pending|;
    var ids := Interleave(staged, due, db.preferDelayed, n).ids;
    InterleaveChooses(staged, due, db.preferDelayed, n);
    ChoosesAll(staged, due, db.preferDelayed, n);
    forall id ensures id in staged || id in due <==> id in db.candidates && Eligible(db.candidates[id], now) {
      WaitingListed(db, now, id);
    }
  }

  // What promotion leaves: numbers of queued candidates, records of those that do not wait, and
  // nobody waiting unless the queue is full.
  ghost predicate Promoted(c: Config, db: Database, db': Database, now: Time) {
    && QueueKept(db, db', {}) && |db'.pending| <= c.maxPending
    && (forall id {:trigger RecordKept(db, db', id)} | id in db.candidates ::
          RecordKept(db, db', id) || (Eligible(db.candidates[id], now) && IsReady(db'.candidates, id)))
    && (|db'.pending| < c.maxPending ==> NoneWaits(db', now))
  }

  lemma PromoteIdle(c: Config, db: Database, now: Time)
    requires |db.pending| <= c.maxPending && (|db.pending| == c.maxPending || StagedIds(db.candidates) + DueIds(db.candidates, now) == {})
    ensures Promoted(c, db, db, now)
  {
    if |db.pending| < c.maxPending {
      forall id | id in db.candidates ensures !Eligible(db.candidates[id], now) {
        assert id !in StagedIds(db.candidates) && id !in DueIds(db.candidates, now);
      }
    }
  }

  lemma PromoteWorks(c: Config, db: Database, now: Time, ids: seq<CandidateID>, queued: Database)
    requires Queue(db) && |db.pending| <= c.maxPending && ids == Chosen(c, db, now).ids && EnqueueAll(db, ids) == Ok(queued)
    ensures Promoted(c, db, queued, now)
  {
    ChosenWaiting(c, db, now);
    ChosenEligible(c, db, now);
    forall id | id in ids ensures Waiting(db.candidates, id) && id !in db.pending {
      WaitingNotPending(db, id);
    }
    EnqueueAllQueue(db, ids);
    EnqueueAllPromotes(db, ids);
    forall id {:trigger RecordKept(db, queued, id)} | id in db.candidates
      ensures RecordKept(db, queued, id) || (Eligible(db.candidates[id], now) && IsReady(queued.candidates, id))
    {
    }
  }

  // The two ways promotion succeeds.
  lemma PromoteShape(c: Config, db: Database, now: Time)
    requires Promote(c, db, now).Ok?
    ensures |db.pending| <= c.maxPending
    ensures var db' := Promote(c, db, now).value;
            || (db' == db && (|db.pending| == c.maxPending || StagedIds(db.candidates) + DueIds(db.candidates, now) == {}))
            || (&& EnqueueAll(db, Chosen(c, db, now).ids).Ok?
                && db' == EnqueueAll(db, Chosen(c, db, now).ids).value.(preferDelayed := Chosen(c, db, now).preferDelayed))
  {
  }

  lemma SamePromoted(c: Config, db: Database, a: Database, b: Database, now: Time)
    requires Promoted(c, db, a, now) && b == a.(preferDelayed := b.preferDelayed)
    ensures Promoted(c, db, b, now)
  {
    assert b.candidates == a.candidates && b.pending == a.pending;
    forall id {:trigger RecordKept(db, b, id)} | id in db.candidates
      ensures RecordKept(db, b, id) || (Eligible(db.candidates[id], now) && IsReady(b.candidates, id))
    {
      assert RecordKept(db, a, id) || (Eligible(db.candidates[id], now) && IsReady(a.candidates, id));
    }
    if |a.pending| < c.maxPending {
      forall id {:trigger b.candidates[id]} | id in b.candidates ensures !Eligible(b.candidates[id], now) {
        assert !Eligible(a.candidates[id], now);
      }
    }
  }

  lemma PromotePromotes(c: Config, db: Database, now: Time)
    requires Queue(db) && Promote(c, db, now).Ok?
    ensures Promoted(c, db, Promote(c, db, now).value, now)
  {
    PromoteShape(c, db, now);
    var db' := Promote(c, db, now).value;
    if db' == db && (|db.pending| == c.maxPending || StagedIds(db.candidates) + DueIds(db.candidates, now) == {}) {
      PromoteIdle(c, db, now);
    } else {
      var ids := Chosen(c, db, now).ids;
      PromoteWorks(c, db, now, ids, EnqueueAll(db, ids).value);
      SamePromoted(c, db, EnqueueAll(db, ids).value, db', now);
    }
  }

  // ---------- Next ----------

  // Next answers with the candidate that has the lowest number in the queue it leaves, and with
  // nothing exactly if nobody is ready then.
  lemma NextAnswers(c: Config, db: Database, now: Time)
    requires Inv(c, db) && Promote(c, db, now).Ok?
    ensures var o := DoNext(c, db, now);
            && o.result.Ok? && Promoted(c, db, o.after, now)
            && (o.result.value.Some? <==> exists id :: IsReady(o.after.candidates, id))
            && (o.result.value.Some? ==>
                  var x := o.result.value.value;
                  && IsReady(o.after.candidates, x.id) && o.after.candidates[x.id].candidate == x && x.id in o.after.pending
                  && forall id | id in o.after.pending :: o.after.pending[x.id] <= o.after.pending[id])
  {
    var after := Promote(c, db, now).value;
    PromotePromotes(c, db, now);
    PromoteKeeps(c, db, now);
    OrderReadable(c, after);
    NextOfQueue(c, db, now, after);
  }

  lemma OrderReadable(c: Config, db: Database)
    requires Queue(db) && Rows(c, db.candidates)
    ensures forall k | k in db.order :: EntryReadable(c, db, k)
  {
    forall k | k in db.order ensures EntryReadable(c, db, k) {
      var id := db.order[k];
      assert db.pending[id] == k && IsReady(db.candidates, id);
      assert ValidRecord(c, id, db.candidates[id]);
    }
  }

  lemma NextOfQueue(c: Config, db: Database, now: Time, after: Database)
    requires Promote(c, db, now) == Ok(after) && Queue(after) && Rows(c, after.candidates)
    requires forall k | k in after.order :: EntryReadable(c, after, k)
    ensures var o := DoNext(c, db, now);
            && o.result.Ok? && o.after == after
            && (o.result.value.Some? <==> exists id :: IsReady(after.candidates, id))
            && (o.result.value.Some? ==>
                  var x := o.result.value.value;
                  && IsReady(after.candidates, x.id) && after.candidates[x.id].candidate == x && x.id in after.pending
                  && forall id | id in after.pending :: after.pending[x.id] <= after.pending[id])
  {
    assert forall id | IsReady(after.candidates, id) :: id in after.pending && after.pending[id] in after.order;
    if after.order != map[] {
      var k := Least(after.order.Keys);
      assert k in after.order && EntryReadable(c, after, k);
      var id := after.order[k];
      assert ValidRecord(c, id, after.candidates[id]);
      forall other | other in after.pending ensures k <= after.pending[other] {
        assert after.pending[other] in after.order.Keys;
      }
    }
  }

  // ---------- What every operation does to the queue ----------

  // The candidate an accepted Ack or Nack takes off the queue.
  ghost function Resolved(c: Config, db: Database, command: Command): set<CandidateID> {
    match command
    case Ack(id, incident, now) => if DoAck(c, db, id, incident, now).result.Ok? then {id} else {}
    case Nack(id, incident, retryAt, now) => if DoNack(c, db, id, incident, retryAt, now).result.Ok? then {id} else {}
    case _ => {}
  }

  lemma PromoteQueue(c: Config, db: Database, mid: Database, now: Time, gone: set<CandidateID>)
    requires Queue(mid) && Promote(c, mid, now).Ok? && QueueKept(db, mid, gone)
    ensures QueueKept(db, Promote(c, mid, now).value, gone)
  {
    PromotePromotes(c, mid, now);
    QueueKeptOn(db, mid, Promote(c, mid, now).value, gone);
  }

  lemma SamePending(c: Config, db: Database, mid: Database, now: Time)
    requires mid.pending == db.pending && mid.orderSequence == db.orderSequence && Queue(mid) && Promote(c, mid, now).Ok?
    ensures QueueKept(db, Promote(c, mid, now).value, {})
  {
    SameQueue(db, db, mid, {});
    PromoteQueue(c, db, mid, now, {});
  }

  lemma UpgradeQueue(c: Config, db: Database, candidate: Candidate, now: Time)
    requires Inv(c, db) && candidate.id in db.candidates && db.candidates[candidate.id].status == Observed && RoomFor(c, db, 1)
    requires Promote(c, Upgrade(db, candidate), now).Ok?
    ensures QueueKept(db, Promote(c, Upgrade(db, candidate), now).value, {})
  {
    UpgradedAlmost(c, db, candidate);
    SamePending(c, db, Upgrade(db, candidate), now);
  }

  lemma StageQueue(c: Config, db: Database, candidate: Candidate, now: Time)
    requires Inv(c, db) && ValidCandidate(c, candidate) && candidate.id !in db.candidates && !AlreadyScanned(db, candidate) && RoomFor(c, db, 1)
    requires Promote(c, AddCandidate(db, Staged, candidate), now).Ok?
    ensures QueueKept(db, Promote(c, AddCandidate(db, Staged, candidate), now).value, {})
  {
    StagedAlmost(c, db, candidate);
    SamePending(c, db, AddCandidate(db, Staged, candidate), now);
  }

  lemma PutQueue(c: Config, db: Database, candidate: Candidate, now: Time)
    requires Inv(c, db)
    ensures QueueKept(db, DoPut(c, db, candidate, now).after, {})
  {
    PutCases(c, db, candidate, now);
    if DoPut(c, db, candidate, now).after != db {
      if candidate.id in db.candidates {
        UpgradeQueue(c, db, candidate, now);
      } else {
        StageQueue(c, db, candidate, now);
      }
    }
  }

  lemma PutObservedQueue(c: Config, db: Database, candidate: Candidate)
    ensures QueueKept(db, DoPutObserved(c, db, candidate).after, {})
  {
    var db' := DoPutObserved(c, db, candidate).after;
    assert db'.pending == db.pending && db'.orderSequence == db.orderSequence;
  }

  lemma PutIncidentQueue(c: Config, db: Database, incident: Incident)
    ensures QueueKept(db, DoPutIncident(c, db, incident).after, {})
  {
    PutIncidentCases(c, db, incident);
  }

  lemma MarkRemovedQueue(c: Config, db: Database, id: CandidateID)
    requires Inv(c, db)
    ensures QueueKept(db, DoMarkRemoved(c, db, id).after, {})
  {
    MarkRemovedCases(c, db, id);
    if DoMarkRemoved(c, db, id).after != db {
      DiscardLagging(c, db, {id});
      AdvanceAlmost(c, Discard(db, {id}));
    }
  }

  lemma NextQueue(c: Config, db: Database, now: Time)
    requires Inv(c, db)
    ensures QueueKept(db, DoNext(c, db, now).after, {})
  {
    if Promote(c, db, now).Ok? {
      PromoteQueue(c, db, db, now, {});
    }
  }

  // An accepted Nack postpones the candidate and promotes.
  lemma NackWorks(c: Config, db: Database, id: CandidateID, incident: IncidentID, retryAt: Time, now: Time)
    ensures var o := DoNack(c, db, id, incident, retryAt, now);
            if o.result.Ok?
            then && IsReady(db.candidates, id) && id in db.pending && id in db.incidents && db.incidents[id].id == incident && retryAt != UNSET
                 && Promote(c, Dequeue(db, id, Record(Delayed, retryAt, db.candidates[id].candidate)), now) == Ok(o.after)
            else o.after == db
  {
  }

  lemma DequeueQueue(db: Database, id: CandidateID, record: Record)
    requires id in db.pending
    ensures QueueKept(db, Dequeue(db, id, record), {id})
  {
  }

  lemma NackQueue(c: Config, db: Database, id: CandidateID, incident: IncidentID, retryAt: Time, now: Time)
    requires Inv(c, db)
    ensures QueueKept(db, DoNack(c, db, id, incident, retryAt, now).after,
                      if DoNack(c, db, id, incident, retryAt, now).result.Ok? then {id} else {})
  {
    NackWorks(c, db, id, incident, retryAt, now);
    if DoNack(c, db, id, incident, retryAt, now).result.Ok? {
      NackAlmost(c, db, id, retryAt);
      DequeueQueue(db, id, Record(Delayed, retryAt, db.candidates[id].candidate));
      PromoteQueue(c, db, Dequeue(db, id, Record(Delayed, retryAt, db.candidates[id].candidate)), now, {id});
    }
  }

  lemma AckQueue(c: Config, db: Database, id: CandidateID, incident: IncidentID, now: Time)
    requires Inv(c, db)
    ensures QueueKept(db, DoAck(c, db, id, incident, now).after, if DoAck(c, db, id, incident, now).result.Ok? then {id} else {})
  {
    var o := DoAck(c, db, id, incident, now);
    AckCases(c, db, id, incident, now);
    if o.after == db && (o.result.Ok? ==> IsAcknowledged(db.candidates, id)) {
      assert o.result.Ok? ==> id !in db.pending;
    } else {
      var evicted, advanced := SettleCases(c, Acknowledge(db, id), now);
      AckAdvances(c, db, id, evicted, advanced);
      SettledQueue(c, db, id, evicted, advanced);
      PromoteQueue(c, db, advanced, now, {id});
    }
  }

  lemma SettledQueue(c: Config, db: Database, id: CandidateID, evicted: Database, advanced: Database)
    requires Inv(c, db) && Acknowledgeable(db, id) && Evict(Acknowledge(db, id)) == Ok(evicted) && Advance(evicted) == Ok(advanced)
    ensures QueueKept(db, advanced, {id}) && Advances(evicted, advanced) && OnlyForgets(Acknowledge(db, id), evicted)
  {
    AckLagging(c, db, id);
    AdvanceAlmost(c, evicted);
    DequeueQueue(db, id, Record(Acknowledged, UNSET, db.candidates[id].candidate));
    SameQueue(db, Dequeue(db, id, Record(Acknowledged, UNSET, db.candidates[id].candidate)), advanced, {id});
  }

  lemma CommitQueue(c: Config, db: Database, block: Canonical, now: Time)
    requires Inv(c, db) && NoFastTokens(block)
    ensures QueueKept(db, DoCommit(c, db, block, now).after, {})
  {
    var promoted := CommitCases(c, db, block, now);
    var db' := DoCommit(c, db, block, now).after;
    if db' != db {
      var mid, staged := StageBlockCases(c, db, block);
      var stored := AddBlock(staged, block);
      StoredLagging(c, db, block, mid, staged);
      StoreFailures.StagedQueue(c, db, block, mid, staged);
      SamePending(c, db, stored, now);
      PromoteLagging(c, stored, now);
      AdvanceAlmost(c, promoted);
      SameQueue(db, promoted, db', {});
    }
  }

  lemma StepQueue(c: Config, db: Database, command: Command)
    requires Inv(c, db) && NoFast(command)
    ensures QueueKept(db, After(c, db, command), Resolved(c, db, command))
  {
    match command
    case Offer(candidate, now) => PutQueue(c, db, candidate, now);
    case Observe(candidate) => PutObservedQueue(c, db, candidate);
    case MarkRemoved(id) => MarkRemovedQueue(c, db, id);
    case Take(now) => NextQueue(c, db, now);
    case PutIncident(incident) => PutIncidentQueue(c, db, incident);
    case Ack(id, incident, now) => AckQueue(c, db, id, incident, now);
    case Nack(id, incident, retryAt, now) => NackQueue(c, db, id, incident, retryAt, now);
    case Commit(block, now) => CommitQueue(c, db, block, now);
  }

  // ---------- First queued, first handed out ----------

  // The entry of a is in the queue under this number, and b is not ahead of it.
  predicate Ahead(db: Database, a: CandidateID, n: Uint64, b: CandidateID) {
    && a in db.pending && db.pending[a] == n && n <= db.orderSequence
    && (b in db.pending ==> n < db.pending[b])
  }

  lemma AheadStep(db: Database, db': Database, gone: set<CandidateID>, a: CandidateID, n: Uint64, b: CandidateID)
    requires Ahead(db, a, n, b) && QueueKept(db, db', gone) && a !in gone
    ensures Ahead(db', a, n, b)
  {
  }

  // Command k takes this candidate off the queue.
  ghost predicate ResolvedAt(c: Config, commands: seq<Command>, k: nat, id: CandidateID) {
    k < |commands| && id in Resolved(c, Run(c, commands[..k]), commands[k])
  }

  lemma RunStep(c: Config, commands: seq<Command>, k: nat)
    requires k < |commands|
    ensures Run(c, commands[..k + 1]) == After(c, Run(c, commands[..k]), commands[k])
  {
    assert commands[..k + 1][..k] == commands[..k];
  }

  lemma AheadOnce(c: Config, commands: seq<Command>, k: nat, a: CandidateID, n: Uint64, b: CandidateID)
    requires AllNoFast(commands) && k < |commands| && Ahead(Run(c, commands[..k]), a, n, b) && !ResolvedAt(c, commands, k, a)
    ensures Ahead(Run(c, commands[..k + 1]), a, n, b)
  {
    var db := Run(c, commands[..k]);
    RunInv(c, commands[..k]);
    StepQueue(c, db, commands[k]);
    RunStep(c, commands, k);
    AheadStep(db, After(c, db, commands[k]), Resolved(c, db, commands[k]), a, n, b);
  }

  lemma {:induction false} AheadUntilResolved(c: Config, commands: seq<Command>, i: nat, k: nat, a: CandidateID, n: Uint64, b: CandidateID)
    requires AllNoFast(commands) && i <= k <= |commands| && Ahead(Run(c, commands[..i]), a, n, b)
    requires forall j {:trigger ResolvedAt(c, commands, j, a)} | i <= j < k :: !ResolvedAt(c, commands, j, a)
    ensures Ahead(Run(c, commands[..k]), a, n, b)
    decreases k - i
  {
    if i < k {
      AheadUntilResolved(c, commands, i, k - 1, a, n, b);
      AheadOnce(c, commands, k - 1, a, n, b);
    }
  }

  // Next hands out this candidate, under this queue number.
  ghost predicate HandsOut(c: Config, db: Database, now: Time, id: CandidateID, n: Uint64) {
    var o := DoNext(c, db, now);
    o.result.Ok? && o.result.value.Some? && o.result.value.value.id == id && id in o.after.pending && o.after.pending[id] == n
  }

  lemma NextOk(c: Config, db: Database, now: Time)
    requires DoNext(c, db, now).result.Ok?
    ensures Promote(c, db, now).Ok?
  {
  }

  lemma HandsOutFront(c: Config, db: Database, now: Time, a: CandidateID, n: Uint64, b: CandidateID, m: Uint64)
    requires Inv(c, db) && Ahead(db, a, n, b) && a != b
    ensures !HandsOut(c, db, now, b, m)
  {
    if DoNext(c, db, now).result.Ok? {
      NextOk(c, db, now);
      NextAnswers(c, db, now);
      NextQueue(c, db, now);
      AheadStep(db, DoNext(c, db, now).after, {}, a, n, b);
    }
  }

  // In every run: while an entry is ahead of a candidate and neither acknowledged nor rejected, Next
  // does not hand out that candidate.
  lemma QueuedEarlierComesFirst(c: Config, commands: seq<Command>, i: nat, now: Time, a: CandidateID, n: Uint64, b: CandidateID, m: Uint64)
    requires AllNoFast(commands) && i <= |commands| && Ahead(Run(c, commands[..i]), a, n, b) && a != b
    requires HandsOut(c, Run(c, commands), now, b, m)
    ensures exists k :: i <= k < |commands| && ResolvedAt(c, commands, k, a)
  {
    if forall k {:trigger ResolvedAt(c, commands, k, a)} | i <= k < |commands| :: !ResolvedAt(c, commands, k, a) {
      AheadUntilResolved(c, commands, i, |commands|, a, n, b);
      assert commands[..|commands|] == commands;
      RunInv(c, commands);
      HandsOutFront(c, Run(c, commands), now, a, n, b, m);
    }
  }

  // ---------- A consumer that answers for what it was handed ----------

  // Every acknowledgement or rejection is for an entry that Next has handed out.
  ghost predicate Disciplined(c: Config, commands: seq<Command>) {
    forall k: nat, id {:trigger ResolvedAt(c, commands, k, id)} | ResolvedAt(c, commands, k, id) :: HandedBefore(c, commands, k, id)
  }

  ghost predicate HandedBefore(c: Config, commands: seq<Command>, k: nat, id: CandidateID)
    requires k < |commands|
  {
    var db := Run(c, commands[..k]);
    id in db.pending ==> exists j: nat :: j < k && HandedAt(c, commands, j, id, db.pending[id])
  }

  ghost predicate HandedAt(c: Config, commands: seq<Command>, j: nat, id: CandidateID, n: Uint64) {
    j < |commands| && commands[j].Take? && HandsOut(c, Run(c, commands[..j]), commands[j].now, id, n)
  }

  lemma {:induction false} FirstResolved(c: Config, commands: seq<Command>, i: nat, k: nat, a: CandidateID) returns (first: nat)
    requires i <= k < |commands| && ResolvedAt(c, commands, k, a)
    ensures i <= first <= k && ResolvedAt(c, commands, first, a)
    ensures forall j {:trigger ResolvedAt(c, commands, j, a)} | i <= j < first :: !ResolvedAt(c, commands, j, a)
    decreases k - i
  {
    if j :| i <= j < k && ResolvedAt(c, commands, j, a) {
      first := FirstResolved(c, commands, i, j, a);
    } else {
      first := k;
    }
  }

  lemma HandedIfResolved(c: Config, commands: seq<Command>, k: nat, a: CandidateID, n: Uint64, b: CandidateID)
    requires Disciplined(c, commands) && ResolvedAt(c, commands, k, a) && Ahead(Run(c, commands[..k]), a, n, b)
    ensures exists j: nat :: j < k && HandedAt(c, commands, j, a, n)
  {
    assert HandedBefore(c, commands, k, a);
  }

  // With such a consumer the queue is first in, first out: before a candidate is handed out, every
  // entry that was ahead of it has been handed out.
  lemma HandedOutInOrder(c: Config, commands: seq<Command>, i: nat, now: Time, a: CandidateID, n: Uint64, b: CandidateID, m: Uint64)
    requires AllNoFast(commands) && Disciplined(c, commands) && i <= |commands| && Ahead(Run(c, commands[..i]), a, n, b) && a != b
    requires HandsOut(c, Run(c, commands), now, b, m)
    ensures exists j: nat :: HandedAt(c, commands, j, a, n)
  {
    QueuedEarlierComesFirst(c, commands, i, now, a, n, b, m);
    var k :| i <= k < |commands| && ResolvedAt(c, commands, k, a);
    var first := FirstResolved(c, commands, i, k, a);
    AheadUntilResolved(c, commands, i, first, a, n, b);
    HandedIfResolved(c, commands, first, a, n, b);
  }
}
