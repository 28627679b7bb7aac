/** The coordinator's nonce state in memory, and the loops over stored incidents that maintain it. */
module CoordinatorModule {
  import opened Prelude
  import Sorting
  import opened RescueState
  import opened RescueStore
  import opened RescueTableModule
  import opened SigningModel

  // ---------- What the recovery loop establishes ----------

  ghost predicate AllFloored(m: map<IncidentID, Incident>, floor: Uint64) {
    forall id | id in m && HasSigned(m[id]) :: m[id].sponsorNonce < floor
  }

  // Every signed nonce has a successor that the store will take as the floor.
  ghost predicate AllFloorable(m: map<IncidentID, Incident>, refused: set<IncidentID>) {
    forall id | id in m && HasSigned(m[id]) :: Floorable(m[id], id, refused)
  }

  predicate Floorable(i: Incident, id: IncidentID, refused: set<IncidentID>) {
    i.sponsorNonce != MAX_UINT64 && id !in refused
  }

  ghost predicate Listed(m: map<IncidentID, Incident>, ids: seq<IncidentID>, k: nat, floor: Uint64, refused: set<IncidentID>)
    requires k <= |ids|
  {
    forall j {:trigger ids[j]} | 0 <= j < k ::
      ids[j] in m && (HasSigned(m[ids[j]]) ==> m[ids[j]].sponsorNonce < floor && Floorable(m[ids[j]], ids[j], refused))
  }

  lemma ListedAll(m: map<IncidentID, Incident>, ids: seq<IncidentID>, floor: Uint64, refused: set<IncidentID>)
    requires Sorting.Lists(ids, m.Keys) && Listed(m, ids, |ids|, floor, refused)
    ensures AllFloored(m, floor) && AllFloorable(m, refused)
  {
    forall id | id in m && HasSigned(m[id]) ensures m[id].sponsorNonce < floor && Floorable(m[id], id, refused) {
      assert id in ids;
    }
  }

  // A floor that is what it was before or one above a stored signed nonce.
  ghost predicate Explained(m: map<IncidentID, Incident>, before: Uint64, floor: Uint64) {
    floor == before || exists id | id in m :: HasSigned(m[id]) && floor == m[id].sponsorNonce + 1
  }

  // ---------- What the in-flight loop establishes ----------

  ghost function InFlightIn(m: map<IncidentID, Incident>, ids: seq<IncidentID>): set<IncidentID> {
    set id | id in InFlight(m) && id in ids
  }

  ghost predicate OtherAssets(m: map<IncidentID, Incident>, ids: seq<IncidentID>, asset: Address) {
    forall id | id in InFlightIn(m, ids) :: m[id].asset != asset
  }

  predicate Higher(m: map<IncidentID, Incident>, high: IncidentID, id: IncidentID)
    requires high in m && id in m
  {
    m[id].sponsorNonce < m[high].sponsorNonce || (m[id].sponsorNonce == m[high].sponsorNonce && high <= id)
  }

  // The highest of the in-flight incidents listed so far.
  ghost predicate HighestOf(m: map<IncidentID, Incident>, ids: seq<IncidentID>, high: Option<IncidentID>) {
    if high.None? then InFlightIn(m, ids) == {}
    else high.value in InFlightIn(m, ids) && forall id | id in InFlightIn(m, ids) :: Higher(m, high.value, id)
  }

  lemma CountNext(m: map<IncidentID, Incident>, ids: seq<IncidentID>, k: nat)
    requires Sorting.Lists(ids, m.Keys) && k < |ids|
    ensures var more := InFlightIn(m, ids[..k + 1]);
            var seen := InFlightIn(m, ids[..k]);
            if ids[k] in InFlight(m) then more == seen + {ids[k]} && |more| == |seen| + 1 else more == seen
  {
    assert ids[..k + 1] == ids[..k] + [ids[k]];
    assert ids[k] !in ids[..k];
  }

  lemma HighestNext(m: map<IncidentID, Incident>, ids: seq<IncidentID>, k: nat, high: Option<IncidentID>)
    requires Sorting.Lists(ids, m.Keys) && k < |ids| && ids[k] in m && HighestOf(m, ids[..k], high)
    ensures ids[k] !in InFlight(m) ==> HighestOf(m, ids[..k + 1], high)
    ensures ids[k] in InFlight(m) ==>
              HighestOf(m, ids[..k + 1], if high.None? || m[ids[k]].sponsorNonce > m[high.value].sponsorNonce then Some(ids[k]) else high)
  {
    CountNext(m, ids, k);
    assert high.Some? ==> high.value in ids[..k] && high.value < ids[k];
  }

  lemma FastSummary(m: map<IncidentID, Incident>, ids: seq<IncidentID>, asset: Address, mined: set<Hash>, high: Option<IncidentID>)
    requires Sorting.Lists(ids, m.Keys) && HighestOf(m, ids, high) && OtherAssets(m, ids, asset)
    ensures InFlightIn(m, ids) == InFlight(m)
    ensures FastClear(m, asset, mined) <==>
            |InFlight(m)| < MAX_UNFINALIZED_OPERATIONS && (high.Some? ==> m[high.value].txHash in mined)
  {
    assert InFlightIn(m, ids) == InFlight(m);
    if high.Some? {
      assert IsHighest(m, high.value);
    }
  }

  class Coordinator {
    const table: RescueTable
    var nonceFloor: Uint64
    var nonceBlocked: bool

    constructor (table: RescueTable)
      ensures this.table == table && nonceFloor == 0 && !nonceBlocked
    {
      this.table := table;
      nonceFloor, nonceBlocked := 0, false;
    }

    method RaiseNonceFloor(floor: Uint64)
      modifies this
      ensures nonceFloor == SigningModel.Raised(old(nonceFloor), floor) && nonceBlocked == old(nonceBlocked)
    {
      if floor > nonceFloor {
        nonceFloor := floor;
      }
    }

    // The nonce handed out is the floor: at least the pending nonce and above every floor so far.
    method SponsorNonce(pending: Uint64) returns (nonce: Option<Uint64>)
      modifies this
      ensures nonce.Some? <==> NonceRead(old(nonceFloor), pending)
      ensures nonce.Some? ==> nonce.value == nonceFloor && pending <= nonceFloor < MAX_UINT64
      ensures old(nonceFloor) <= nonceFloor && (nonceFloor == old(nonceFloor) || nonceFloor == pending)
      ensures nonceBlocked == old(nonceBlocked)
    {
      if pending == MAX_UINT64 {
        return None;
      }
      RaiseNonceFloor(pending);
      if nonceFloor == MAX_UINT64 {
        return None;
      }
      return Some(nonceFloor);
    }

    // The floor in memory follows only a write that succeeded.
    method EnsureDurableNonceFloor(nonce: Uint64, written: bool) returns (ok: bool)
      modifies this, table
      ensures ok <==> nonce != MAX_UINT64 && written
      ensures ok ==> nonce < nonceFloor && nonce < table.nonceFloor
      ensures ok ==> nonceFloor == SigningModel.Raised(old(nonceFloor), nonce + 1)
      ensures ok ==> table.Contents() == RescueStore.RaiseNonceFloor(old(table.Contents()), nonce + 1)
      ensures !ok ==> nonceFloor == old(nonceFloor) && table.Contents() == old(table.Contents())
      ensures nonceBlocked == old(nonceBlocked)
    {
      if nonce == MAX_UINT64 {
        return false;
      }
      if !written {
        return false;
      }
      table.RaiseNonceFloor(nonce + 1);
      RaiseNonceFloor(nonce + 1);
      return true;
    }

    // refreshNonceBlock; a listing that fails blocks.
    method RefreshNonceBlock(now: Time, listed: bool) returns (ok: bool)
      modifies this
      ensures ok == listed
      ensures nonceBlocked <==> !listed || BlockedAt(table.incidents, now)
      ensures nonceFloor == old(nonceFloor)
    {
      if !listed {
        nonceBlocked := true;
        return false;
      }
      var m := table.incidents;
      var ids := table.List();
      var k, blocked := 0, false;
      while k < |ids| && !blocked
        invariant 0 <= k <= |ids|
        invariant blocked ==> BlockedAt(m, now)
        invariant !blocked ==> forall j | 0 <= j < k :: !Blocks(m[ids[j]], now)
      {
        assert ids[k] in ids;
        var incident := m[ids[k]];
        if incident.status == Signed {
          blocked := true;
        } else if incident.status == Ambiguous && (incident.reconcileUntil <= now || BlockingCode(incident.lastCode)) {
          blocked := true;
        }
        k := k + 1;
      }
      nonceBlocked := blocked;
      return true;
    }

    // The floor part of recoverPersisted; the write for an incident in refused fails.
    method RecoverFloors(refused: set<IncidentID>) returns (ok: bool)
      modifies this, table
      ensures table.incidents == old(table.incidents)
      ensures ok <==> AllFloorable(table.incidents, refused)
      ensures ok ==> AllFloored(table.incidents, table.nonceFloor)
      ensures old(table.nonceFloor) <= table.nonceFloor <= nonceFloor && old(nonceFloor) <= nonceFloor
      ensures Explained(table.incidents, old(table.nonceFloor), table.nonceFloor)
    {
      var m := table.incidents;
      RaiseNonceFloor(table.nonceFloor);
      var ids := table.List();
      var k := 0;
      while k < |ids|
        invariant 0 <= k <= |ids| && table.incidents == m
        invariant Listed(m, ids, k, table.nonceFloor, refused)
        invariant old(table.nonceFloor) <= table.nonceFloor <= nonceFloor && old(nonceFloor) <= nonceFloor
        invariant Explained(m, old(table.nonceFloor), table.nonceFloor)
      {
        assert ids[k] in ids;
        if HasSigned(m[ids[k]]) {
          var raised := EnsureDurableNonceFloor(m[ids[k]].sponsorNonce, ids[k] !in refused);
          if !raised {
            return false;
          }
        }
        k := k + 1;
      }
      ListedAll(m, ids, table.nonceFloor, refused);
      return true;
    }

    // checkFastInFlight; a receipt is found for exactly the mined hashes.
    method CheckFastInFlight(asset: Address, mined: set<Hash>) returns (ok: bool)
      ensures ok <==> FastClear(table.incidents, asset, mined)
    {
      var m := table.incidents;
      var ids := table.List();
      var k, count, high := 0, 0, None;
      while k < |ids|
        invariant 0 <= k <= |ids|
        invariant OtherAssets(m, ids[..k], asset)
        invariant count == |InFlightIn(m, ids[..k])|
        invariant HighestOf(m, ids[..k], high)
      {
        assert ids[k] in ids;
        assert ids[..k + 1] == ids[..k] + [ids[k]];
        CountNext(m, ids, k);
        HighestNext(m, ids, k, high);
        if m[ids[k]].status.InFlight() {
          if m[ids[k]].asset == asset {
            return false;
          }
          count := count + 1;
          if high.None? || m[ids[k]].sponsorNonce > m[high.value].sponsorNonce {
            high := Some(ids[k]);
          }
        }
        k := k + 1;
      }
      assert ids[..k] == ids;
      FastSummary(m, ids, asset, mined, high);
      if count >= MAX_UNFINALIZED_OPERATIONS {
        return false;
      }
      if high.None? {
        return true;
      }
      return m[high.value].txHash in mined;
    }
  }
}
