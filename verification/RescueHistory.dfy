/** The life of one incident in a run of the store, and how it ends when finished incidents are pruned. */
module RescueHistory {
  import opened Prelude
  import opened RescueState
  import opened RescueStore

  // ---------- The versions of one incident ----------

  // Every record the store has held for the incident since it was last stored, in order.
  function Versions(c: Config, s: Store, commands: seq<Command>, id: IncidentID): seq<Incident>
    decreases |commands|
  {
    if commands == [] then if id in s.incidents then [s.incidents[id]] else []
    else Recorded(Versions(c, s, commands[..|commands| - 1], id), Continue(c, s, commands), id)
  }

  function Recorded(before: seq<Incident>, s: Store, id: IncidentID): seq<Incident> {
    if id !in s.incidents then []
    else if before != [] && before[|before| - 1] == s.incidents[id] then before
    else before + [s.incidents[id]]
  }

  ghost predicate Tells(s: Store, versions: seq<Incident>, id: IncidentID) {
    if id in s.incidents then versions != [] && versions[|versions| - 1] == s.incidents[id] else versions == []
  }

  lemma ChainMore(ids: Ids, versions: seq<Incident>, next: Incident)
    requires Chain(ids, versions) && Valid(ids, next) && (versions != [] ==> ValidTransition(versions[|versions| - 1], next))
    ensures Chain(ids, versions + [next])
  {
    forall i {:trigger Follows(versions + [next], i)} | 0 < i < |versions + [next]| ensures Follows(versions + [next], i) {
      if i < |versions| {
        assert Follows(versions, i);
      }
    }
  }

  lemma RecordedChain(c: Config, s: Store, s': Store, versions: seq<Incident>, command: Command, id: IncidentID)
    requires Inv(c, s) && s' == Step(c, s, command) && Tells(s, versions, id)
    requires Chain(c.ids, versions) && (versions != [] ==> versions[0].status == Pending)
    ensures var next := Recorded(versions, s', id);
            Tells(s', next, id) && Chain(c.ids, next) && (next != [] ==> next[0].status == Pending)
  {
    StepInv(c, s, command);
    if id in s'.incidents && Recorded(versions, s', id) != versions {
      if id in s.incidents {
        StepOnIncident(c, s, command, id);
      } else {
        StepStores(c, s, command, id);
      }
      ChainMore(c.ids, versions, s'.incidents[id]);
    }
  }

  // Only a pending incident enters the store.
  lemma StepStores(c: Config, s: Store, command: Command, id: IncidentID)
    requires Inv(c, s) && id !in s.incidents && id in Step(c, s, command).incidents
    ensures Step(c, s, command).incidents[id].status == Pending
  {
  }

  lemma {:induction false} VersionsChain(c: Config, commands: seq<Command>, id: IncidentID)
    ensures var versions := Versions(c, EMPTY, commands, id);
            && Tells(Continue(c, EMPTY, commands), versions, id) && Chain(c.ids, versions)
            && (versions != [] ==> versions[0].status == Pending)
    decreases |commands|
  {
    if commands != [] {
      var before := commands[..|commands| - 1];
      VersionsChain(c, before, id);
      RunInv(c, EMPTY, before);
      RecordedChain(c, Continue(c, EMPTY, before), Continue(c, EMPTY, commands), Versions(c, EMPTY, before, id),
                    commands[|commands| - 1], id);
    }
  }

  lemma ToldIsBounded(ids: Ids, s: Store, versions: seq<Incident>, id: IncidentID, n: nat)
    requires id in s.incidents && Tells(s, versions, id) && Chain(ids, versions) && versions[0].status == Pending
    ensures 0 < n < |versions| && (forall k | 0 <= k < n :: Unsigned(versions[k])) ==>
              n <= 2 * s.incidents[id].policy.maxAttempts + 1 && versions[n].attempts <= s.incidents[id].policy.maxAttempts
  {
    BoundedAt(ids, versions, n);
  }

  // In every run of the store, whatever is stored went through at most 2 * MaxAttempts + 1 changing
  // updates until it was signed or terminal, with at most MaxAttempts attempts.
  lemma StoredUpdatesAreBounded(c: Config, commands: seq<Command>, id: IncidentID, n: nat)
    requires id in Continue(c, EMPTY, commands).incidents
    ensures var versions, i := Versions(c, EMPTY, commands, id), Continue(c, EMPTY, commands).incidents[id];
            0 < n < |versions| && (forall k | 0 <= k < n :: Unsigned(versions[k])) ==>
              n <= 2 * i.policy.maxAttempts + 1 && versions[n].attempts <= i.policy.maxAttempts
  {
    VersionsChain(c, commands, id);
    ToldIsBounded(c.ids, Continue(c, EMPTY, commands), Versions(c, EMPTY, commands, id), id, n);
  }

  lemma BoundedAt(ids: Ids, versions: seq<Incident>, n: nat)
    requires Chain(ids, versions) && versions != [] && versions[0].status == Pending
    ensures var i := versions[|versions| - 1];
            0 < n < |versions| && (forall k | 0 <= k < n :: Unsigned(versions[k])) ==>
              n <= 2 * i.policy.maxAttempts + 1 && versions[n].attempts <= i.policy.maxAttempts
  {
    ChainIdentity(ids, versions, |versions| - 1);
    if 0 < n < |versions| && forall k | 0 <= k < n :: Unsigned(versions[k]) {
      UpdatesAreBounded(ids, versions, n);
    }
  }

  // In every run of the store, attempt k of what is stored is never recorded earlier than
  // (k - 1) * RetryDelay after its creation.
  lemma StoredAttemptsKeepTheirDistance(c: Config, commands: seq<Command>, id: IncidentID)
    requires id in Continue(c, EMPTY, commands).incidents
    ensures var i := Continue(c, EMPTY, commands).incidents[id];
            i.attempts > 0 ==> i.createdAt + (i.attempts - 1) * i.policy.retryDelay <= i.updatedAt
  {
    VersionsChain(c, commands, id);
    var versions := Versions(c, EMPTY, commands, id);
    AttemptsKeepTheirDistance(c.ids, versions, |versions| - 1);
  }

  // ---------- A store in which pruning forgets a signature ----------

  const IDS := Ids((candidate, kind, asset) => candidate, candidate => candidate)
  const SETUP := Config(1, IDS)

  function NewIncident(id: IncidentID): Incident {
    Incident(id, id, id, 1, Native, 0, 1, true, Policy(false, 1, 1, HOUR), Pending, 0, 0, 0, 0, None, 0, 0, 0, 0,
             UNSET, UNSET, "", SECOND, SECOND)
  }

  function Done(id: IncidentID): Incident {
    NewIncident(id).(status := LostRace, attempts := 1, txHash := id, snapshotHash := 1)
  }

  // Incident 1 is finished, and so are as many newer ones as the daemon retains.
  function Finished(n: nat): map<IncidentID, Incident> { map id: IncidentID | 0 < id <= n :: Done(id) }

  lemma FinishedValid(n: nat)
    ensures Inv(SETUP, Store(Finished(n), 0)) && Acceptable(SETUP, NewIncident(1))
  {
  }

  lemma {:induction false} NewerFinished(n: nat, k: nat)
    requires 0 < k <= n
    ensures |Newer(Finished(n), k)| == n - k
    decreases n - k
  {
    if k < n {
      NewerFinished(n, k + 1);
      assert Newer(Finished(n), k) == Newer(Finished(n), k + 1) + {k + 1};
    } else {
      assert Newer(Finished(n), k) == {};
    }
  }

  // With 1024 newer finished incidents the daemon's pruning forgets that incident 1 was signed.
  lemma RetainedForgets()
    ensures Inv(SETUP, Store(Finished(RETAINED + 1), 0)) && Finished(RETAINED + 1)[1].txHash != 0
    ensures Continue(SETUP, Store(Finished(RETAINED + 1), 0), [DoPrune(RETAINED), DoPut(NewIncident(1))]).incidents[1].txHash == 0
  {
    FinishedValid(RETAINED + 1);
    NewerFinished(RETAINED + 1, 1);
    PrunedIncidentStartsOver(SETUP, Store(Finished(RETAINED + 1), 0), NewIncident(1), RETAINED);
  }
}
