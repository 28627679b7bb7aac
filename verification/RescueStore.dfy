/** The durable table of rescue incidents and the sponsor nonce floor. */
module RescueStore {
  import opened Prelude
  import opened RescueState

  datatype Config = Config(network: NetworkID, ids: Ids)

  datatype Error = InvalidInput | Conflict

  datatype Store = Store(incidents: map<IncidentID, Incident>, nonceFloor: Uint64)

  const EMPTY := Store(map[], 0)

  datatype Outcome = Outcome(result: Result<Incident, Error>, after: Store)

  predicate Acceptable(c: Config, i: Incident) {
    Valid(c.ids, i) && i.network == c.network
  }

  function Put(c: Config, s: Store, i: Incident): Outcome {
    if !Acceptable(c, i) || i.status != Pending then Outcome(Err(InvalidInput), s)
    else if i.id !in s.incidents then Outcome(Ok(i), s.(incidents := s.incidents[i.id := i]))
    else if !SameIdentity(s.incidents[i.id], i) then Outcome(Err(Conflict), s)
    else Outcome(Ok(s.incidents[i.id]), s)
  }

  function Update(c: Config, s: Store, i: Incident): Outcome {
    if !Acceptable(c, i) then Outcome(Err(InvalidInput), s)
    else if i.id !in s.incidents then Outcome(Err(Conflict), s)
    else if s.incidents[i.id] == i then Outcome(Ok(i), s)
    else if !ValidTransition(s.incidents[i.id], i) then Outcome(Err(Conflict), s)
    else Outcome(Ok(i), s.(incidents := s.incidents[i.id := i]))
  }

  function RaiseNonceFloor(s: Store, floor: Uint64): Store {
    if floor <= s.nonceFloor then s else s.(nonceFloor := floor)
  }

  // ---------- Pruning ----------

  // What the daemon keeps of the finished incidents.
  const RETAINED: nat := 1024

  predicate Prunable(i: Incident) { i.status.Terminal() && i.kind != Claim }

  predicate Before(m: map<IncidentID, Incident>, a: IncidentID, b: IncidentID)
    requires a in m && b in m
  {
    m[a].updatedAt < m[b].updatedAt || (m[a].updatedAt == m[b].updatedAt && a < b)
  }

  function Newer(m: map<IncidentID, Incident>, id: IncidentID): set<IncidentID>
    requires id in m
  {
    set other | other in m && Prunable(m[other]) && Before(m, id, other)
  }

  // What pruning keeps: everything it must not touch, and the newest finished operations.
  predicate Kept(m: map<IncidentID, Incident>, retain: nat, id: IncidentID)
    requires id in m
  {
    !Prunable(m[id]) || |Newer(m, id)| < retain
  }

  function Pruned(m: map<IncidentID, Incident>, retain: nat): map<IncidentID, Incident> {
    map id | id in m && Kept(m, retain, id) :: m[id]
  }

  function Prune(s: Store, retain: int): Store {
    if retain < 0 || retain > MAX_CONFIGURED_BOUND then s else s.(incidents := Pruned(s.incidents, retain))
  }

  // ---------- Runs ----------

  datatype Command =
    | DoPut(incident: Incident)
    | DoUpdate(incident: Incident)
    | DoRaise(floor: Uint64)
    | DoPrune(retain: int)

  function Step(c: Config, s: Store, command: Command): Store {
    match command
    case DoPut(i) => Put(c, s, i).after
    case DoUpdate(i) => Update(c, s, i).after
    case DoRaise(floor) => RaiseNonceFloor(s, floor)
    case DoPrune(retain) => Prune(s, retain)
  }

  function Continue(c: Config, s: Store, commands: seq<Command>): Store
    decreases |commands|
  {
    if commands == [] then s else Step(c, Continue(c, s, commands[..|commands| - 1]), commands[|commands| - 1])
  }

  ghost predicate Inv(c: Config, s: Store) {
    forall id | id in s.incidents :: s.incidents[id].id == id && Acceptable(c, s.incidents[id])
  }

  lemma StepInv(c: Config, s: Store, command: Command)
    requires Inv(c, s)
    ensures Inv(c, Step(c, s, command))
    ensures s.nonceFloor <= Step(c, s, command).nonceFloor
  {
  }

  lemma {:induction false} RunInv(c: Config, s: Store, commands: seq<Command>)
    requires Inv(c, s)
    ensures Inv(c, Continue(c, s, commands))
    ensures s.nonceFloor <= Continue(c, s, commands).nonceFloor
    decreases |commands|
  {
    if commands != [] {
      RunInv(c, s, commands[..|commands| - 1]);
      StepInv(c, Continue(c, s, commands[..|commands| - 1]), commands[|commands| - 1]);
    }
  }

  // One step on one incident: untouched, replaced along a valid transition, or pruned.
  lemma StepOnIncident(c: Config, s: Store, command: Command, id: IncidentID)
    requires Inv(c, s) && id in s.incidents
    ensures var s' := Step(c, s, command);
            if id in s'.incidents
            then s'.incidents[id] == s.incidents[id] || ValidTransition(s.incidents[id], s'.incidents[id])
            else Prunable(s.incidents[id])
  {
  }

  // A signed operation: the same hash, nonces and (while kept) bytes, in every later state in
  // which the incident has stayed in the table.
  ghost predicate Remains(c: Config, s: Store, commands: seq<Command>, id: IncidentID)
    decreases |commands|
  {
    && id in Continue(c, s, commands).incidents
    && (commands != [] ==> Remains(c, s, commands[..|commands| - 1], id))
  }

  lemma {:induction false} SignedOnceWhileStored(c: Config, s: Store, commands: seq<Command>, id: IncidentID)
    requires Inv(c, s) && id in s.incidents && Remains(c, s, commands, id) && s.incidents[id].txHash != 0
    ensures SameOperation(s.incidents[id], Continue(c, s, commands).incidents[id])
    ensures s.incidents[id].status.Terminal() ==> Continue(c, s, commands).incidents[id] == s.incidents[id]
    decreases |commands|
  {
    if commands != [] {
      var before, last := commands[..|commands| - 1], commands[|commands| - 1];
      SignedOnceWhileStored(c, s, before, id);
      RunInv(c, s, before);
      var mid := Continue(c, s, before);
      StepInv(c, mid, last);
      StepOnIncident(c, mid, last, id);
      var next := Step(c, mid, last).incidents[id];
      if next != mid.incidents[id] {
        SignedIsPermanent(c.ids, mid.incidents[id], next);
        if s.incidents[id].status.Terminal() {
          TerminalAbsorbs(mid.incidents[id], next);
        }
      }
    }
  }

  // Claims are never pruned.
  lemma {:induction false} ClaimRemains(c: Config, s: Store, commands: seq<Command>, id: IncidentID)
    requires Inv(c, s) && id in s.incidents && s.incidents[id].kind == Claim
    ensures Remains(c, s, commands, id) && Continue(c, s, commands).incidents[id].kind == Claim
    decreases |commands|
  {
    if commands != [] {
      var before := commands[..|commands| - 1];
      ClaimRemains(c, s, before, id);
      RunInv(c, s, before);
      StepOnIncident(c, Continue(c, s, before), commands[|commands| - 1], id);
    }
  }

  // Over the whole lifetime of the store a claim signs at most one transaction.
  lemma ClaimSignsOnce(c: Config, first: seq<Command>, later: seq<Command>, id: IncidentID)
    requires id in Continue(c, EMPTY, first).incidents
    requires Continue(c, EMPTY, first).incidents[id].kind == Claim && Continue(c, EMPTY, first).incidents[id].txHash != 0
    ensures var s := Continue(c, EMPTY, first);
            var s' := Continue(c, s, later);
            id in s'.incidents && SameOperation(s.incidents[id], s'.incidents[id])
  {
    RunInv(c, EMPTY, first);
    var s := Continue(c, EMPTY, first);
    ClaimRemains(c, s, later, id);
    SignedOnceWhileStored(c, s, later, id);
  }

  // For any other kind the guarantee ends with pruning: a finished incident with enough newer ones
  // is pruned, can be stored afresh, without its hash, and signed again.
  lemma PrunedIncidentStartsOver(c: Config, s: Store, i: Incident, retain: nat)
    requires Inv(c, s) && i.id in s.incidents && Acceptable(c, i) && i.status == Pending && retain <= MAX_CONFIGURED_BOUND
    ensures Continue(c, s, [DoPrune(retain), DoPut(i)]).incidents[i.id].txHash == 0 <==>
            (Prunable(s.incidents[i.id]) && |Newer(s.incidents, i.id)| >= retain) || s.incidents[i.id].txHash == 0
  {
    var commands := [DoPrune(retain), DoPut(i)];
    assert commands[..1] == [DoPrune(retain)] && commands[..1][..0] == [];
    assert Continue(c, s, commands[..1]) == Prune(s, retain);
  }
}
