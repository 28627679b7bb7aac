/** The fast watcher's cache of recent blocks, walked back from each new head until it connects. */
module FastWatcherModule {
  import opened Prelude

  datatype Entry = Entry(blockHash: Hash, number: Uint64, index: nat, removed: bool, transfer: bool)

  datatype Ref = Ref(number: Uint64, hash: Hash, parent: Hash)

  // What a block hash determines: its parent and its transfer logs.
  datatype World = World(parentOf: Hash -> Hash, logsOf: Hash -> seq<Entry>)

  datatype Error = ReadFailed | BranchChanged | InvalidLog | PutFailed | InvalidHead

  // The answers given during one scan: headers by height, and which reads and puts succeed.
  datatype Answers = Answers(header: Uint64 -> Option<Ref>, logsRead: Hash -> bool, put: Entry -> bool)

  type Cache = map<Uint64, Hash>

  // A header carries its own hash, which is never the zero hash, and the hash of its parent.
  ghost predicate Honest(w: World, a: Answers, head: Ref) {
    && head.parent == w.parentOf(head.hash)
    && forall n: Uint64 :: a.header(n).Some? ==> a.header(n).value.hash != 0 && a.header(n).value.parent == w.parentOf(a.header(n).value.hash)
  }

  // ---------- Runs of blocks ----------

  ghost predicate Gapless(seen: Cache) {
    forall a, b, n: Uint64 {:trigger a in seen, b in seen, n in seen} | a in seen && b in seen && a <= n <= b :: n in seen
  }

  predicate LinkedAt(w: World, seen: Cache, n: Uint64) {
    n in seen && n > 0 && n - 1 in seen ==> w.parentOf(seen[n]) == seen[n - 1]
  }

  ghost predicate Linked(w: World, seen: Cache) {
    forall n: Uint64 {:trigger LinkedAt(w, seen, n)} :: LinkedAt(w, seen, n)
  }

  // Contiguous heights, each block the parent of the next.
  ghost predicate IsRun(w: World, seen: Cache) { Gapless(seen) && Linked(w, seen) }

  function Ancestor(w: World, hash: Hash, k: nat): Hash {
    if k == 0 then hash else w.parentOf(Ancestor(w, hash, k - 1))
  }

  predicate Known(seen: Cache, n: Uint64, hash: Hash) { n in seen && seen[n] == hash }

  // The oldest height a scan looks at.
  function FirstHeight(lookback: Uint64, head: Uint64): Uint64 {
    if lookback > 0 && head >= lookback - 1 then head - lookback + 1 else 0
  }

  // Where the branch of the head meets the cache.
  function MeetsAt(w: World, seen: Cache, head: Ref, n: Uint64, first: Uint64): Option<Uint64>
    requires first <= n <= head.number
    decreases n
  {
    if Known(seen, n, Ancestor(w, head.hash, head.number - n)) then Some(n)
    else if n == first then None
    else MeetsAt(w, seen, head, n - 1, first)
  }

  // The cache with the head's branch written over the heights above floor.
  function Overlaid(w: World, seen: Cache, head: Ref, floor: int): Cache {
    map n: Uint64 | (floor < n <= head.number) || n in seen ::
      if floor < n <= head.number then Ancestor(w, head.hash, head.number - n) else seen[n]
  }

  function Window(seen: Cache, first: Uint64, last: Uint64): Cache {
    map n | n in seen && first <= n <= last :: seen[n]
  }

  function FloorOf(joint: Option<Uint64>, first: Uint64): int {
    if joint.Some? then joint.value else first - 1
  }

  // The cache after a successful scan.
  function Scanned(w: World, seen: Cache, head: Ref, first: Uint64): Cache
    requires first <= head.number
  {
    if Known(seen, head.number, head.hash) then seen
    else Window(Overlaid(w, seen, head, FloorOf(MeetsAt(w, seen, head, head.number, first), first)), first, head.number)
  }

  lemma {:induction false} MeetsWithin(w: World, seen: Cache, head: Ref, n: Uint64, first: Uint64)
    requires first <= n <= head.number
    ensures var j := MeetsAt(w, seen, head, n, first);
            j.Some? ==> first <= j.value <= n && Known(seen, j.value, Ancestor(w, head.hash, head.number - j.value))
    decreases n
  {
    if !Known(seen, n, Ancestor(w, head.hash, head.number - n)) && n > first {
      MeetsWithin(w, seen, head, n - 1, first);
    }
  }

  lemma ScannedHead(w: World, seen: Cache, head: Ref, first: Uint64)
    requires first <= head.number
    ensures Known(Scanned(w, seen, head, first), head.number, head.hash)
  {
    MeetsWithin(w, seen, head, head.number, first);
  }

  // ---------- When the cache is a run after a scan ----------

  // The part of the old cache that the walk from a new head keeps.
  ghost predicate KeptIsRun(w: World, seen: Cache, head: Ref, first: Uint64)
    requires first <= head.number
  {
    var joint := MeetsAt(w, seen, head, head.number, first);
    joint.Some? ==> IsRun(w, Window(seen, first, joint.value))
  }

  lemma OverlayLinked(w: World, seen: Cache, head: Ref, first: Uint64, floor: int)
    requires first <= head.number && first - 1 <= floor < head.number
    requires floor >= first ==> Known(seen, floor, Ancestor(w, head.hash, head.number - floor)) && Linked(w, Window(seen, first, floor))
    ensures Linked(w, Window(Overlaid(w, seen, head, floor), first, head.number))
  {
    var after := Window(Overlaid(w, seen, head, floor), first, head.number);
    forall n: Uint64 ensures LinkedAt(w, after, n) {
      if n in after && n > 0 && n - 1 in after {
        if n > floor + 1 {
          assert after[n - 1] == Ancestor(w, head.hash, head.number - n + 1);
        } else if n <= floor {
          assert LinkedAt(w, Window(seen, first, floor), n);
        }
      }
    }
  }

  lemma OverlayGapless(w: World, seen: Cache, head: Ref, first: Uint64, floor: int)
    requires first <= head.number && first - 1 <= floor < head.number
    requires floor >= first ==> floor in seen && Gapless(Window(seen, first, floor))
    ensures Gapless(Window(Overlaid(w, seen, head, floor), first, head.number))
  {
    var after := Window(Overlaid(w, seen, head, floor), first, head.number);
    forall a, b, n: Uint64 | a in after && b in after && a <= n <= b ensures n in after {
      if n <= floor {
        var kept := Window(seen, first, floor);
        var top: Uint64 := floor;
        assert a in kept && top in kept && n in kept;
      }
    }
  }

  // A window of a run is a run.
  lemma WindowIsRun(w: World, seen: Cache, first: Uint64, last: Uint64)
    requires IsRun(w, seen)
    ensures IsRun(w, Window(seen, first, last))
  {
    var part := Window(seen, first, last);
    forall n: Uint64 ensures LinkedAt(w, part, n) {
      assert LinkedAt(w, seen, n);
    }
  }

  lemma KeptWindow(w: World, seen: Cache, head: Ref, first: Uint64, joint: Uint64)
    requires first <= joint < head.number
    ensures Window(Window(Overlaid(w, seen, head, joint), first, head.number), first, joint) == Window(seen, first, joint)
  {
  }

  // After a successful scan of a new head the cache is a contiguous, hash-linked run, exactly when
  // the part of the old cache below the meeting point was one.
  lemma ScannedIsRunIff(w: World, seen: Cache, head: Ref, first: Uint64)
    requires first <= head.number && !Known(seen, head.number, head.hash)
    ensures IsRun(w, Scanned(w, seen, head, first)) <==> KeptIsRun(w, seen, head, first)
  {
    MeetsWithin(w, seen, head, head.number, first);
    var joint := MeetsAt(w, seen, head, head.number, first);
    var floor := FloorOf(joint, first);
    if joint.Some? {
      KeptWindow(w, seen, head, first, joint.value);
      if IsRun(w, Scanned(w, seen, head, first)) {
        WindowIsRun(w, Scanned(w, seen, head, first), first, joint.value);
      }
    }
    if KeptIsRun(w, seen, head, first) {
      OverlayLinked(w, seen, head, first, floor);
      OverlayGapless(w, seen, head, first, floor);
    }
  }

  // In particular: a run stays a run, whatever reorganization or regression of the head happened.
  lemma RunStaysRun(w: World, seen: Cache, head: Ref, first: Uint64)
    requires first <= head.number && IsRun(w, seen)
    ensures IsRun(w, Scanned(w, seen, head, first))
  {
    if !Known(seen, head.number, head.hash) {
      var joint := MeetsAt(w, seen, head, head.number, first);
      if joint.Some? {
        WindowIsRun(w, seen, first, joint.value);
      }
      ScannedIsRunIff(w, seen, head, first);
    }
  }

  // ---------- What one scan leaves ----------

  predicate Belongs(e: Entry, n: Uint64, hash: Hash) { e.transfer && !e.removed && e.blockHash == hash && e.number == n }

  predicate AllPut(logs: seq<Entry>, n: Uint64, hash: Hash, put: Entry -> bool) {
    forall e | e in logs :: Belongs(e, n, hash) && put(e)
  }

  // The header read at height n is on the branch of the head.
  predicate Served(w: World, a: Answers, head: Ref, n: Uint64)
    requires n <= head.number
  {
    n == head.number || (a.header(n).Some? && a.header(n).value.hash == Ancestor(w, head.hash, head.number - n))
  }

  // The logs of that block are read and queued.
  predicate Delivered(w: World, a: Answers, head: Ref, n: Uint64)
    requires n <= head.number
  {
    var hash := Ancestor(w, head.hash, head.number - n);
    a.logsRead(hash) && AllPut(w.logsOf(hash), n, hash, a.put)
  }

  ghost predicate DoneAbove(w: World, a: Answers, head: Ref, floor: int) {
    forall n: Uint64 | floor < n <= head.number :: Served(w, a, head, n) && Delivered(w, a, head, n)
  }

  // Everything goes well down to where the branch meets the cache, or to the end of the window.
  ghost predicate Undisturbed(w: World, a: Answers, head: Ref, first: Uint64, joint: Option<Uint64>) {
    && DoneAbove(w, a, head, FloorOf(joint, first))
    && (joint.Some? && joint.value <= head.number ==> Served(w, a, head, joint.value))
  }

  // The highest height, from n down, at which something fails.
  function FailsAt(w: World, a: Answers, head: Ref, n: Uint64, first: Uint64): int
    requires first <= n <= head.number
    decreases n
  {
    if !Served(w, a, head, n) || !Delivered(w, a, head, n) then n
    else if n == first then first - 1
    else FailsAt(w, a, head, n - 1, first)
  }

  ghost predicate Succeeds(w: World, a: Answers, seen: Cache, head: Ref, first: Uint64)
    requires first <= head.number
  {
    && head.hash != 0
    && (Known(seen, head.number, head.hash) || Undisturbed(w, a, head, first, MeetsAt(w, seen, head, head.number, first)))
  }

  // The cache after a scan: complete, or with the branch written over it down to the failure.
  ghost function AfterScan(w: World, a: Answers, seen: Cache, head: Ref, first: Uint64): Cache
    requires first <= head.number
  {
    if head.hash == 0 then seen
    else if Succeeds(w, a, seen, head, first) then Scanned(w, seen, head, first)
    else Overlaid(w, seen, head, FailsAt(w, a, head, head.number, first))
  }

  // ---------- When a scan leaves a run ----------

  // What is left below the failure continues downwards, and what is left above the head upwards.
  ghost predicate Joins(w: World, seen: Cache, head: Ref, floor: int)
    requires floor < head.number
  {
    && ((exists n :: n in seen && n <= floor) ==> 0 <= floor && Known(seen, floor, Ancestor(w, head.hash, head.number - floor)))
    && ((exists n :: n in seen && n > head.number) ==>
          head.number < MAX_UINT64 && head.number + 1 in seen && w.parentOf(seen[head.number + 1]) == head.hash)
  }

  lemma JoinedAt(w: World, seen: Cache, head: Ref, floor: int, n: Uint64)
    requires -1 <= floor < head.number && LinkedAt(w, seen, n) && Joins(w, seen, head, floor)
    ensures LinkedAt(w, Overlaid(w, seen, head, floor), n)
  {
    if floor + 1 < n <= head.number {
      assert w.parentOf(Ancestor(w, head.hash, head.number - n)) == Ancestor(w, head.hash, head.number - n + 1);
    }
  }

  lemma JoinedLinked(w: World, seen: Cache, head: Ref, floor: int)
    requires -1 <= floor < head.number && IsRun(w, seen) && Joins(w, seen, head, floor)
    ensures Linked(w, Overlaid(w, seen, head, floor))
  {
    forall n: Uint64 ensures LinkedAt(w, Overlaid(w, seen, head, floor), n) {
      assert LinkedAt(w, seen, n);
      JoinedAt(w, seen, head, floor, n);
    }
  }

  lemma JoinedGapless(w: World, seen: Cache, head: Ref, floor: int)
    requires -1 <= floor < head.number && Gapless(seen) && Joins(w, seen, head, floor)
    ensures Gapless(Overlaid(w, seen, head, floor))
  {
    var after := Overlaid(w, seen, head, floor);
    forall a, b, n: Uint64 | a in after && b in after && a <= n <= b ensures n in after {
      if n <= floor {
        var top: Uint64 := floor;
        assert a in seen && top in seen;
      } else if n > head.number {
        var bottom: Uint64 := head.number + 1;
        assert b in seen && bottom in seen;
      }
    }
  }

  lemma JoinsBelow(w: World, seen: Cache, head: Ref, floor: int, n: Uint64, after: Cache, low: Uint64)
    requires -1 <= floor < head.number && after == Overlaid(w, seen, head, floor) && n in seen && n <= floor && low == floor + 1
    requires Gapless(after) && LinkedAt(w, after, low)
    ensures 0 <= floor && Known(seen, floor, Ancestor(w, head.hash, head.number - floor))
  {
    var below: Uint64 := floor;
    assert n in after && low in after && below in after;
  }

  lemma JoinsAbove(w: World, seen: Cache, head: Ref, floor: int, n: Uint64, after: Cache, above: Uint64)
    requires -1 <= floor < head.number && after == Overlaid(w, seen, head, floor) && n in seen && n > head.number && above == head.number + 1
    requires Gapless(after) && LinkedAt(w, after, above)
    ensures above in seen && w.parentOf(seen[above]) == head.hash
  {
    var top: Uint64 := head.number;
    assert n in after && top in after && above in after;
    assert after[top] == Ancestor(w, head.hash, 0) && after[above] == seen[above];
  }

  lemma RunJoins(w: World, seen: Cache, head: Ref, floor: int)
    requires -1 <= floor < head.number && IsRun(w, Overlaid(w, seen, head, floor))
    ensures Joins(w, seen, head, floor)
  {
    var after := Overlaid(w, seen, head, floor);
    if n :| n in seen && n <= floor {
      assert LinkedAt(w, after, floor + 1);
      JoinsBelow(w, seen, head, floor, n, after, floor + 1);
    }
    if n :| n in seen && n > head.number {
      assert LinkedAt(w, after, head.number + 1);
      JoinsAbove(w, seen, head, floor, n, after, head.number + 1);
    }
  }

  // From a run, one scan leaves a run exactly when it succeeds, stops before it has written
  // anything, or what it has written joins what is left on both sides.
  lemma ScanLeavesRunIff(w: World, a: Answers, seen: Cache, head: Ref, first: Uint64)
    requires first <= head.number && IsRun(w, seen)
    ensures IsRun(w, AfterScan(w, a, seen, head, first)) <==> Harmless(w, a, seen, head, first)
  {
    if Succeeds(w, a, seen, head, first) {
      RunStaysRun(w, seen, head, first);
    } else if head.hash != 0 {
      var floor := FailsAt(w, a, head, head.number, first);
      FailsWithin(w, a, head, head.number, first);
      if floor == head.number {
        OverlayNothing(w, seen, head);
      } else if Joins(w, seen, head, floor) {
        JoinedLinked(w, seen, head, floor);
        JoinedGapless(w, seen, head, floor);
      } else if IsRun(w, Overlaid(w, seen, head, floor)) {
        RunJoins(w, seen, head, floor);
      }
    }
  }

  ghost predicate Harmless(w: World, a: Answers, seen: Cache, head: Ref, first: Uint64)
    requires first <= head.number
  {
    var floor := FailsAt(w, a, head, head.number, first);
    head.hash == 0 || Succeeds(w, a, seen, head, first) || floor >= head.number || Joins(w, seen, head, floor)
  }

  lemma {:induction false} FailsWithin(w: World, a: Answers, head: Ref, n: Uint64, first: Uint64)
    requires first <= n <= head.number
    ensures first - 1 <= FailsAt(w, a, head, n, first) <= n
    decreases n
  {
    if n > first {
      FailsWithin(w, a, head, n - 1, first);
    }
  }

  // ---------- A sequence of scans ----------

  datatype Attempt = Attempt(head: Ref, answers: Answers)

  ghost function AfterScans(w: World, lookback: Uint64, scans: seq<Attempt>): Cache
    decreases |scans|
  {
    if scans == [] then map[]
    else
      var last := scans[|scans| - 1];
      AfterScan(w, last.answers, AfterScans(w, lookback, scans[..|scans| - 1]), last.head, FirstHeight(lookback, last.head.number))
  }

  ghost predicate AllHarmless(w: World, lookback: Uint64, scans: seq<Attempt>)
    decreases |scans|
  {
    scans != [] ==>
      var last := scans[|scans| - 1];
      && AllHarmless(w, lookback, scans[..|scans| - 1])
      && Harmless(w, last.answers, AfterScans(w, lookback, scans[..|scans| - 1]), last.head, FirstHeight(lookback, last.head.number))
  }

  // As long as no scan fails harmfully, the cache is a run; after a scan that succeeds it contains
  // the head.
  lemma {:induction false} ScansKeepRun(w: World, lookback: Uint64, scans: seq<Attempt>)
    requires AllHarmless(w, lookback, scans)
    ensures IsRun(w, AfterScans(w, lookback, scans))
    decreases |scans|
  {
    if scans != [] {
      var last := scans[|scans| - 1];
      var before := AfterScans(w, lookback, scans[..|scans| - 1]);
      ScansKeepRun(w, lookback, scans[..|scans| - 1]);
      ScanLeavesRunIff(w, last.answers, before, last.head, FirstHeight(lookback, last.head.number));
    }
  }

  lemma SuccessKnowsHead(w: World, a: Answers, seen: Cache, head: Ref, first: Uint64)
    requires first <= head.number && Succeeds(w, a, seen, head, first)
    ensures Known(AfterScan(w, a, seen, head, first), head.number, head.hash)
  {
    ScannedHead(w, seen, head, first);
  }

  // ---------- A failed scan that does harm ----------

  // Two branches: ..., 13, 14 and ..., 24, 25, at the heights 3, 4 and 4, 5.
  const TWO_BRANCHES := World(hash => if hash > 0 then hash - 1 else 0, hash => [])
  const GOOD_SCAN := Attempt(Ref(4, 14, 13), Answers((n: Uint64) => Some(Ref(n, n + 10, n + 9)), hash => true, e => true))
  const BAD_SCAN := Attempt(Ref(5, 25, 24), Answers((n: Uint64) => None, hash => true, e => true))

  lemma GoodScan()
    ensures Succeeds(TWO_BRANCHES, GOOD_SCAN.answers, map[], GOOD_SCAN.head, 3)
    ensures AfterScan(TWO_BRANCHES, GOOD_SCAN.answers, map[], GOOD_SCAN.head, 3) == map[3 := 13, 4 := 14]
  {
    assert Ancestor(TWO_BRANCHES, 14, 0) == 14 && Ancestor(TWO_BRANCHES, 14, 1) == 13;
    assert MeetsAt(TWO_BRANCHES, map[], GOOD_SCAN.head, 3, 3) == None;
    assert MeetsAt(TWO_BRANCHES, map[], GOOD_SCAN.head, 4, 3) == None;
    forall n: Uint64 | 2 < n <= 4
      ensures Served(TWO_BRANCHES, GOOD_SCAN.answers, GOOD_SCAN.head, n) && Delivered(TWO_BRANCHES, GOOD_SCAN.answers, GOOD_SCAN.head, n)
    {
      assert n == 3 || n == 4;
    }
  }

  // The header of height 4 is not answered.
  lemma BadScan()
    ensures var seen: Cache := map[3 := 13, 4 := 14];
            && !Succeeds(TWO_BRANCHES, BAD_SCAN.answers, seen, BAD_SCAN.head, 4)
            && AfterScan(TWO_BRANCHES, BAD_SCAN.answers, seen, BAD_SCAN.head, 4) == map[3 := 13, 4 := 14, 5 := 25]
  {
    var seen: Cache := map[3 := 13, 4 := 14];
    assert Ancestor(TWO_BRANCHES, 25, 0) == 25 && Ancestor(TWO_BRANCHES, 25, 1) == 24;
    assert MeetsAt(TWO_BRANCHES, seen, BAD_SCAN.head, 4, 4) == None;
    assert MeetsAt(TWO_BRANCHES, seen, BAD_SCAN.head, 5, 4) == None;
    assert !Served(TWO_BRANCHES, BAD_SCAN.answers, BAD_SCAN.head, 4);
    assert FailsAt(TWO_BRANCHES, BAD_SCAN.answers, BAD_SCAN.head, 4, 4) == 4;
    assert FailsAt(TWO_BRANCHES, BAD_SCAN.answers, BAD_SCAN.head, 5, 4) == 4;
    assert !Undisturbed(TWO_BRANCHES, BAD_SCAN.answers, BAD_SCAN.head, 4, None);
  }

  // With a window of two blocks: a scan succeeds, the next one fails part-way, and the third finds
  // the head known and succeeds, over a cache in which the two branches stand next to each other.
  lemma FailedScanLeavesTwoBranches()
    ensures Honest(TWO_BRANCHES, GOOD_SCAN.answers, GOOD_SCAN.head) && Honest(TWO_BRANCHES, BAD_SCAN.answers, BAD_SCAN.head)
    ensures var two, three := [GOOD_SCAN, BAD_SCAN], [GOOD_SCAN, BAD_SCAN, BAD_SCAN];
            && IsRun(TWO_BRANCHES, AfterScans(TWO_BRANCHES, 2, [GOOD_SCAN]))
            && !Succeeds(TWO_BRANCHES, BAD_SCAN.answers, AfterScans(TWO_BRANCHES, 2, [GOOD_SCAN]), BAD_SCAN.head, 4)
            && Succeeds(TWO_BRANCHES, BAD_SCAN.answers, AfterScans(TWO_BRANCHES, 2, two), BAD_SCAN.head, 4)
            && !IsRun(TWO_BRANCHES, AfterScans(TWO_BRANCHES, 2, three))
  {
    var one, two, three := [GOOD_SCAN], [GOOD_SCAN, BAD_SCAN], [GOOD_SCAN, BAD_SCAN, BAD_SCAN];
    GoodScan();
    BadScan();
    assert one[..0] == [] && two[..1] == one && three[..2] == two;
    var left: Cache := map[3 := 13, 4 := 14, 5 := 25];
    assert AfterScans(TWO_BRANCHES, 2, one) == map[3 := 13, 4 := 14];
    assert AfterScans(TWO_BRANCHES, 2, two) == left;
    assert AfterScans(TWO_BRANCHES, 2, three) == left;
    assert !LinkedAt(TWO_BRANCHES, left, 5);
  }

  // ---------- The watcher ----------

  ghost predicate BlockQueued(w: World, hash: Hash, queue: set<Entry>) {
    forall e | e in w.logsOf(hash) :: e in queue
  }

  ghost predicate AllQueued(w: World, seen: Cache, queue: set<Entry>) {
    forall n {:trigger seen[n]} | n in seen :: BlockQueued(w, seen[n], queue)
  }

  lemma QueuedMore(w: World, seen: Cache, queue: set<Entry>, queue': set<Entry>, n: Uint64, hash: Hash)
    requires AllQueued(w, seen, queue) && queue <= queue'
    ensures AllQueued(w, seen, queue')
    ensures BlockQueued(w, hash, queue') ==> AllQueued(w, seen[n := hash], queue')
  {
    forall k {:trigger seen[k]} | k in seen ensures BlockQueued(w, seen[k], queue') {
      assert BlockQueued(w, seen[k], queue);
    }
  }

  // An entry of a block on the branch of the head.
  ghost predicate OnBranch(w: World, head: Ref, e: Entry) {
    exists k: nat :: e in w.logsOf(Ancestor(w, head.hash, k))
  }

  ghost predicate OnlyBranch(w: World, head: Ref, before: set<Entry>, after: set<Entry>) {
    before <= after && forall e | e in after && e !in before :: OnBranch(w, head, e)
  }

  lemma BranchMore(w: World, head: Ref, before: set<Entry>, mid: set<Entry>, after: set<Entry>, k: nat)
    requires OnlyBranch(w, head, before, mid) && mid <= after
    requires forall e | e in after :: e in mid || e in w.logsOf(Ancestor(w, head.hash, k))
    ensures OnlyBranch(w, head, before, after)
  {
  }

  class FastWatcher {
    const lookback: Uint64
    var seen: Cache
    var queue: set<Entry>

    constructor (lookback: Uint64)
      ensures this.lookback == lookback && seen == map[] && queue == {}
    {
      this.lookback := lookback;
      seen, queue := map[], {};
    }

    // The logs of one block, put one by one.
    method PutLogs(logs: seq<Entry>, n: Uint64, hash: Hash, put: Entry -> bool) returns (error: Option<Error>)
      modifies this`queue
      ensures old(queue) <= queue && forall e | e in queue :: e in old(queue) || e in logs
      ensures error.None? <==> AllPut(logs, n, hash, put)
      ensures error.None? ==> forall e | e in logs :: e in queue
    {
      var k := 0;
      while k < |logs|
        invariant 0 <= k <= |logs| && old(queue) <= queue
        invariant forall e | e in queue :: e in old(queue) || e in logs
        invariant forall i | 0 <= i < k :: logs[i] in queue && Belongs(logs[i], n, hash) && put(logs[i])
      {
        if !Belongs(logs[k], n, hash) {
          return Some(InvalidLog);
        }
        if !put(logs[k]) {
          return Some(PutFailed);
        }
        queue := queue + {logs[k]};
        k := k + 1;
      }
      return None;
    }

    // scanFast. A failed scan leaves what it has written down to the failure; every cached block has
    // its logs in the queue in any case, and nothing else is queued.
    method Scan(w: World, answers: Answers, head: Ref) returns (error: Option<Error>)
      requires Honest(w, answers, head) && AllQueued(w, seen, queue)
      modifies this
      ensures AllQueued(w, seen, queue) && OnlyBranch(w, head, old(queue), queue)
      ensures error.None? <==> Succeeds(w, answers, old(seen), head, FirstHeight(lookback, head.number))
      ensures seen == AfterScan(w, answers, old(seen), head, FirstHeight(lookback, head.number))
    {
      if head.hash == 0 {
        return Some(InvalidHead);
      }
      if Known(seen, head.number, head.hash) {
        return None;
      }
      var first := FirstHeight(lookback, head.number);
      error := Walk(w, answers, head, first);
      if error.None? {
        seen := map n | n in seen && first <= n <= head.number :: seen[n];
      }
    }

    // The header of the next block, which has to be the parent of the block before.
    static method ReadHeader(ghost w: World, answers: Answers, head: Ref, n: Uint64, expected: Hash) returns (r: Result<Ref, Error>)
      requires Honest(w, answers, head) && n <= head.number && expected == Ancestor(w, head.hash, head.number - n)
      ensures r.Ok? <==> Served(w, answers, head, n)
      ensures r.Ok? ==> r.value.hash == expected && r.value.parent == w.parentOf(expected)
    {
      var block := head;
      if n != head.number {
        var reply := answers.header(n);
        if reply.None? {
          return Err(ReadFailed);
        }
        block := reply.value;
      }
      if block.hash != expected {
        return Err(BranchChanged);
      }
      return Ok(block);
    }

    // Read and queue the logs of a block, then remember it.
    method Visit(w: World, answers: Answers, head: Ref, n: Uint64, hash: Hash) returns (error: Option<Error>)
      requires n <= head.number && hash == Ancestor(w, head.hash, head.number - n) && AllQueued(w, seen, queue)
      modifies this
      ensures AllQueued(w, seen, queue) && OnlyBranch(w, head, old(queue), queue)
      ensures error.None? <==> Delivered(w, answers, head, n)
      ensures seen == if error.None? then old(seen)[n := hash] else old(seen)
    {
      if !answers.logsRead(hash) {
        return Some(ReadFailed);
      }
      error := PutLogs(w.logsOf(hash), n, hash, answers.put);
      QueuedMore(w, seen, old(queue), queue, n, hash);
      BranchMore(w, head, old(queue), old(queue), queue, head.number - n);
      if error.None? {
        seen := seen[n := hash];
      }
    }

    // Back from the head, block by block, until the cache is met or the window ends.
    method Walk(w: World, answers: Answers, head: Ref, first: Uint64) returns (error: Option<Error>)
      requires Honest(w, answers, head) && AllQueued(w, seen, queue) && first <= head.number
      modifies this
      ensures AllQueued(w, seen, queue) && OnlyBranch(w, head, old(queue), queue)
      ensures if error.None? then Walked(w, answers, old(seen), head, first, seen) else Stopped(w, answers, old(seen), head, first, seen)
    {
      OverlayNothing(w, seen, head);
      var number, expected := head.number, head.hash;
      while true
        invariant Walking(w, answers, old(seen), head, first, number, expected, seen)
        invariant AllQueued(w, seen, queue) && OnlyBranch(w, head, old(queue), queue)
        decreases number
      {
        WalkStops(w, answers, old(seen), head, first, number, expected, seen);
        var block := ReadHeader(w, answers, head, number, expected);
        if block.Err? {
          return Some(block.error);
        }
        if Known(seen, number, expected) {
          return None;
        }
        ghost var queued := queue;
        WalkGoesOn(w, answers, old(seen), head, first, number, expected, seen);
        error := Visit(w, answers, head, number, expected);
        BranchChain(w, head, old(queue), queued, queue);
        if error.Some? {
          return;
        }
        if number == first {
          return None;
        }
        number, expected := number - 1, block.value.parent;
      }
    }
  }

  // ---------- The walk ----------

  // All blocks above n are done.
  ghost predicate Walking(w: World, a: Answers, before: Cache, head: Ref, first: Uint64, n: Uint64, expected: Hash, seen: Cache) {
    && first <= n <= head.number && expected == Ancestor(w, head.hash, head.number - n)
    && seen == Overlaid(w, before, head, n)
    && MeetsAt(w, before, head, head.number, first) == MeetsAt(w, before, head, n, first)
    && DoneAbove(w, a, head, n) && FailsAt(w, a, head, head.number, first) == FailsAt(w, a, head, n, first)
  }

  ghost predicate Walked(w: World, a: Answers, before: Cache, head: Ref, first: Uint64, seen: Cache)
    requires first <= head.number
  {
    var joint := MeetsAt(w, before, head, head.number, first);
    Undisturbed(w, a, head, first, joint) && seen == Overlaid(w, before, head, FloorOf(joint, first))
  }

  ghost predicate Stopped(w: World, a: Answers, before: Cache, head: Ref, first: Uint64, seen: Cache)
    requires first <= head.number
  {
    && !Undisturbed(w, a, head, first, MeetsAt(w, before, head, head.number, first))
    && seen == Overlaid(w, before, head, FailsAt(w, a, head, head.number, first))
  }

  lemma WalkStops(w: World, a: Answers, before: Cache, head: Ref, first: Uint64, n: Uint64, expected: Hash, seen: Cache)
    requires Walking(w, a, before, head, first, n, expected, seen)
    ensures !Served(w, a, head, n) ==> Stopped(w, a, before, head, first, seen)
    ensures Served(w, a, head, n) && Known(seen, n, expected) ==> Walked(w, a, before, head, first, seen)
  {
    MeetsWithin(w, before, head, n, first);
    NeedsBlock(w, a, head, first, MeetsAt(w, before, head, n, first), n);
  }

  lemma WalkGoesOn(w: World, a: Answers, before: Cache, head: Ref, first: Uint64, n: Uint64, expected: Hash, seen: Cache)
    requires Walking(w, a, before, head, first, n, expected, seen) && Served(w, a, head, n) && !Known(seen, n, expected)
    ensures !Delivered(w, a, head, n) ==> Stopped(w, a, before, head, first, seen)
    ensures Delivered(w, a, head, n) && n == first ==> Walked(w, a, before, head, first, seen[n := expected])
    ensures Delivered(w, a, head, n) && n > first ==>
              Walking(w, a, before, head, first, n - 1, w.parentOf(expected), seen[n := expected])
  {
    MeetsWithin(w, before, head, n, first);
    MeetsLower(w, before, head, n, first);
    NeedsBlock(w, a, head, first, MeetsAt(w, before, head, n, first), n);
    OverlayOneMore(w, before, head, n);
  }

  // A scan that reaches height n needs its header, and its logs unless the cache is met there.
  lemma NeedsBlock(w: World, a: Answers, head: Ref, first: Uint64, joint: Option<Uint64>, n: Uint64)
    requires first <= n <= head.number && (joint.Some? ==> joint.value <= n)
    ensures !Served(w, a, head, n) ==> !Undisturbed(w, a, head, first, joint)
    ensures FloorOf(joint, first) < n && !Delivered(w, a, head, n) ==> !Undisturbed(w, a, head, first, joint)
  {
  }

  lemma BranchChain(w: World, head: Ref, before: set<Entry>, mid: set<Entry>, after: set<Entry>)
    requires OnlyBranch(w, head, before, mid) && OnlyBranch(w, head, mid, after)
    ensures OnlyBranch(w, head, before, after)
  {
  }

  // Where the cache is not met at n, it is met lower or not at all.
  lemma MeetsLower(w: World, seen: Cache, head: Ref, n: Uint64, first: Uint64)
    requires first <= n <= head.number && !Known(seen, n, Ancestor(w, head.hash, head.number - n))
    ensures FloorOf(MeetsAt(w, seen, head, n, first), first) < n
  {
    if n > first {
      MeetsWithin(w, seen, head, n - 1, first);
    }
  }

  lemma OverlayNothing(w: World, seen: Cache, head: Ref)
    ensures Overlaid(w, seen, head, head.number) == seen
  {
  }

  lemma OverlayOneMore(w: World, seen: Cache, head: Ref, n: Uint64)
    requires n <= head.number
    ensures Overlaid(w, seen, head, n - 1) == Overlaid(w, seen, head, n)[n := Ancestor(w, head.hash, head.number - n)]
  {
  }
}
