/** The rescue bucket updated in place, one committed transaction per call. */
module RescueTableModule {
  import opened Prelude
  import Sorting
  import opened RescueState
  import opened RescueStore

  // The ids of the finished, prunable incidents, oldest first.
  ghost predicate Ordered(m: map<IncidentID, Incident>, ids: seq<IncidentID>) {
    && (forall i | 0 <= i < |ids| :: ids[i] in m)
    && (forall i, j | 0 <= i < j < |ids| :: Before(m, ids[i], ids[j]))
  }

  ghost predicate Lists(m: map<IncidentID, Incident>, ids: seq<IncidentID>) {
    Ordered(m, ids) && forall id | id in m :: id in ids <==> Prunable(m[id])
  }

  lemma NewerIsLater(m: map<IncidentID, Incident>, ids: seq<IncidentID>, k: nat, id: IncidentID)
    requires Lists(m, ids) && k < |ids|
    ensures id in Newer(m, ids[k]) <==> id in ids[k + 1..]
  {
    if id in ids {
      var j :| 0 <= j < |ids| && ids[j] == id;
      assert j > k ==> ids[k + 1..][j - k - 1] == id;
    }
  }

  lemma {:induction false} DistinctCount(m: map<IncidentID, Incident>, ids: seq<IncidentID>)
    requires Ordered(m, ids)
    ensures |Sorting.Elements(ids)| == |ids|
  {
    if ids != [] {
      DistinctCount(m, ids[1..]);
      assert ids[0] !in Sorting.Elements(ids[1..]);
      assert Sorting.Elements(ids) == Sorting.Elements(ids[1..]) + {ids[0]};
    }
  }

  lemma NewerCount(m: map<IncidentID, Incident>, ids: seq<IncidentID>, k: nat)
    requires Lists(m, ids) && k < |ids|
    ensures |Newer(m, ids[k])| == |ids| - k - 1
  {
    var later := ids[k + 1..];
    DistinctCount(m, later);
    forall id ensures id in Newer(m, ids[k]) <==> id in later {
      NewerIsLater(m, ids, k, id);
    }
    assert Newer(m, ids[k]) == Sorting.Elements(later);
  }

  lemma KeptIsTail(m: map<IncidentID, Incident>, ids: seq<IncidentID>, retain: nat, k: nat)
    requires Lists(m, ids) && k < |ids|
    ensures Kept(m, retain, ids[k]) <==> k >= |ids| - retain
  {
    NewerCount(m, ids, k);
  }

  lemma DeletedPrefix(m: map<IncidentID, Incident>, ids: seq<IncidentID>, retain: nat, n: nat)
    requires Lists(m, ids) && n == (if |ids| <= retain then 0 else |ids| - retain)
    ensures (map id | id in m && id !in ids[..n] :: m[id]) == Pruned(m, retain)
  {
    forall id | id in m ensures id !in ids[..n] <==> Kept(m, retain, id) {
      if id in ids {
        var k :| 0 <= k < |ids| && ids[k] == id;
        KeptIsTail(m, ids, retain, k);
        assert k < n ==> ids[..n][k] == id;
      }
    }
  }

  class RescueTable {
    const config: Config
    var incidents: map<IncidentID, Incident>
    var nonceFloor: Uint64

    ghost function Contents(): Store
      reads this
    {
      Store(incidents, nonceFloor)
    }

    constructor (config: Config)
      ensures this.config == config && Contents() == EMPTY
    {
      this.config := config;
      incidents := map[];
      nonceFloor := 0;
    }

    method Put(incident: Incident) returns (r: Result<Incident, Error>)
      modifies this
      ensures Outcome(r, Contents()) == RescueStore.Put(config, old(Contents()), incident)
    {
      if !Acceptable(config, incident) || incident.status != Pending {
        return Err(InvalidInput);
      }
      if incident.id !in incidents {
        incidents := incidents[incident.id := incident];
        return Ok(incident);
      }
      if !SameIdentity(incidents[incident.id], incident) {
        return Err(Conflict);
      }
      return Ok(incidents[incident.id]);
    }

    method Update(incident: Incident) returns (r: Result<Incident, Error>)
      modifies this
      ensures Outcome(r, Contents()) == RescueStore.Update(config, old(Contents()), incident)
    {
      if !Acceptable(config, incident) {
        return Err(InvalidInput);
      }
      if incident.id !in incidents {
        return Err(Conflict);
      }
      var current := incidents[incident.id];
      if current == incident {
        return Ok(incident);
      }
      if !ValidTransition(current, incident) {
        return Err(Conflict);
      }
      incidents := incidents[incident.id := incident];
      return Ok(incident);
    }

    method RaiseNonceFloor(floor: Uint64)
      modifies this
      ensures Contents() == RescueStore.RaiseNonceFloor(old(Contents()), floor)
    {
      if floor <= nonceFloor {
        return;
      }
      nonceFloor := floor;
    }

    method Insert(ids: seq<IncidentID>, id: IncidentID) returns (r: seq<IncidentID>)
      requires Ordered(incidents, ids) && id in incidents && id !in ids
      ensures Ordered(incidents, r)
      ensures forall x :: x in r <==> x in ids || x == id
    {
      var k := |ids|;
      while k > 0 && Before(incidents, id, ids[k - 1])
        invariant 0 <= k <= |ids|
        invariant forall i | k <= i < |ids| :: Before(incidents, id, ids[i])
      {
        k := k - 1;
      }
      r := ids[..k] + [id] + ids[k..];
    }

    method FinishedOldestFirst() returns (ids: seq<IncidentID>)
      ensures Lists(incidents, ids)
    {
      ids := [];
      var rest := incidents.Keys;
      while rest != {}
        invariant rest <= incidents.Keys && Ordered(incidents, ids)
        invariant forall id :: id in ids <==> id in incidents.Keys - rest && Prunable(incidents[id])
        decreases |rest|
      {
        var id := Choose(rest);
        rest := rest - {id};
        if Prunable(incidents[id]) {
          ids := Insert(ids, id);
        }
      }
    }

    // RescueIncidents: every stored incident, by ascending id.
    method List() returns (ids: seq<IncidentID>)
      ensures Sorting.Lists(ids, incidents.Keys)
    {
      ids := Sorting.Sort(incidents.Keys);
    }

    method Prune(retain: int)
      modifies this
      ensures Contents() == RescueStore.Prune(old(Contents()), retain)
    {
      if retain < 0 || retain > MAX_CONFIGURED_BOUND {
        return;
      }
      var ids := FinishedOldestFirst();
      var n := if |ids| <= retain then 0 else |ids| - retain;
      ghost var before := incidents;
      var k := 0;
      while k < n
        invariant 0 <= k <= n && nonceFloor == old(nonceFloor)
        invariant incidents == map id | id in before && id !in ids[..k] :: before[id]
      {
        incidents := incidents - {ids[k]};
        assert ids[..k + 1] == ids[..k] + [ids[k]];
        k := k + 1;
      }
      DeletedPrefix(before, ids, retain, n);
    }
  }
}
