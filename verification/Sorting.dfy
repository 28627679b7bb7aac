/** Sets of identifiers listed in ascending order, as a key-ordered bucket lists them. */
module Sorting {

  predicate Ascending(s: seq<nat>) {
    forall i, j | 0 <= i < j < |s| :: s[i] < s[j]
  }

  function Elements(s: seq<nat>): set<nat> { set x | x in s }

  ghost predicate Lists(ids: seq<nat>, s: set<nat>) {
    Ascending(ids) && forall x :: x in ids <==> x in s
  }

  predicate IsLeast(s: set<nat>, x: nat) {
    x in s && forall y | y in s :: x <= y
  }

  lemma {:induction false} LeastExists(s: set<nat>)
    requires s != {}
    ensures exists x :: IsLeast(s, x)
    decreases |s|
  {
    var x :| x in s;
    var rest := s - {x};
    if rest == {} {
      assert s == {x};
      assert IsLeast(s, x);
    } else {
      LeastExists(rest);
      var z :| IsLeast(rest, z);
      assert s == rest + {x};
      assert if x < z then IsLeast(s, x) else IsLeast(s, z);
    }
  }

  ghost function Least(s: set<nat>): (x: nat)
    requires s != {}
    ensures IsLeast(s, x)
  {
    LeastExists(s);
    var x :| IsLeast(s, x);
    x
  }

  ghost function Sorted(s: set<nat>): (ids: seq<nat>)
    ensures Lists(ids, s)
    decreases |s|
  {
    if s == {} then [] else [Least(s)] + Sorted(s - {Least(s)})
  }

  // A set has one ascending listing.
  lemma {:induction false} ListingUnique(a: seq<nat>, b: seq<nat>, s: set<nat>)
    requires Lists(a, s) && Lists(b, s)
    ensures a == b
    decreases |a|
  {
    assert b != [] ==> b[0] in b && b[0] in s && b[0] in a;
    if a != [] {
      assert a[0] in b && (forall x | x in s :: a[0] <= x);
      assert b[0] in a;
      assert b[0] == a[0];
      Behead(a, s);
      Behead(b, s);
      ListingUnique(a[1..], b[1..], s - {a[0]});
    }
  }

  lemma Behead(a: seq<nat>, s: set<nat>)
    requires Lists(a, s) && a != []
    ensures Lists(a[1..], s - {a[0]})
  {
    forall x ensures x in a[1..] <==> x in s - {a[0]} {
      if x in a && x != a[0] {
        var i :| 0 <= i < |a| && a[i] == x;
        assert a[1..][i - 1] == x;
      }
    }
  }

  lemma SortedIs(ids: seq<nat>, s: set<nat>)
    requires Lists(ids, s)
    ensures ids == Sorted(s)
  {
    ListingUnique(ids, Sorted(s), s);
  }

  method Insert(ids: seq<nat>, id: nat) returns (r: seq<nat>)
    requires Ascending(ids) && id !in ids
    ensures Ascending(r)
    ensures forall x :: x in r <==> x in ids || x == id
  {
    var k := |ids|;
    while k > 0 && id < ids[k - 1]
      invariant 0 <= k <= |ids|
      invariant forall i | k <= i < |ids| :: id < ids[i]
    {
      k := k - 1;
    }
    r := ids[..k] + [id] + ids[k..];
  }

  method Sort(s: set<nat>) returns (ids: seq<nat>)
    ensures ids == Sorted(s)
  {
    ids := [];
    var rest := s;
    while rest != {}
      invariant rest <= s && Ascending(ids)
      invariant forall x :: x in ids <==> x in s - rest
      decreases |rest|
    {
      var x :| x in rest;
      rest := rest - {x};
      ids := Insert(ids, x);
    }
    SortedIs(ids, s);
  }

  // The first key of a bucket.
  method First(s: set<nat>) returns (least: nat)
    requires s != {}
    ensures least == Least(s)
  {
    var ids := Sort(s);
    least := ids[0];
  }
}
