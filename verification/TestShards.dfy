/**
 The sharded test run of scripts/backend_coverage.py.

 The exit status of every process is an answer of the environment, already in the
 shell's form; the processes that were started are recorded in order.
 */
module TestShards {
  import opened Text

  // ---- shards -----------------------------------------------------------------------

  function Flat<T>(parts: seq<seq<T>>): seq<T> { if parts == [] then [] else parts[0] + Flat(parts[1..]) }

  function Min(a: int, b: int): int { if a < b then a else b }

  function Rest<T>(items: seq<T>, start: nat): seq<T> { items[Min(start, |items|)..] }

  lemma NextShard<T>(items: seq<T>, start: nat, size: int)
    requires size >= 1 && start < |items|
    ensures Shards(Rest(items, start), size)
            == [items[start..Min(start + size, |items|)]] + Shards(Rest(items, start + size), size)
  {
    var rest, stop := items[start..], Min(start + size, |items|);
    assert rest[..Min(size, |rest|)] == items[start..stop];
    assert rest[Min(size, |rest|)..] == items[stop..];
  }

  method Partition<T>(items: seq<T>, size: int) returns (shards: seq<seq<T>>)
    requires size >= 1
    ensures shards == Shards(items, size)
  {
    shards := [];
    var start := 0;
    assert Rest(items, 0) == items;
    while start < |items|
      invariant 0 <= start
      invariant Shards(items, size) == shards + Shards(Rest(items, start), size)
      decreases |items| - start
    {
      NextShard(items, start, size);
      shards := shards + [items[start..Min(start + size, |items|)]];
      start := start + size;
    }
  }

  function Shards<T>(items: seq<T>, size: int): seq<seq<T>>
    requires size >= 1
    decreases |items|
  {
    if items == [] then []
    else [items[..Min(size, |items|)]] + Shards(items[Min(size, |items|)..], size)
  }

  // Shards lose, add and reorder nothing; none is empty or too long, and all but the
  // last are full.
  lemma {:induction false} ShardsCover<T>(items: seq<T>, size: int)
    requires size >= 1
    ensures Flat(Shards(items, size)) == items
    ensures forall k | 0 <= k < |Shards(items, size)| :: 1 <= |Shards(items, size)[k]| <= size
    ensures forall k | 0 <= k < |Shards(items, size)| - 1 :: |Shards(items, size)[k]| == size
    decreases |items|
  {
    if items != [] {
      var cut := Min(size, |items|);
      ShardsCover(items[cut..], size);
      assert items == items[..cut] + items[cut..];
    }
  }

  lemma {:induction false} FlatConcat<T>(a: seq<seq<T>>, b: seq<seq<T>>)
    ensures Flat(a + b) == Flat(a) + Flat(b)
  {
    if a == [] {
      assert a + b == b;
    } else {
      FlatConcat(a[1..], b);
      assert (a + b)[1..] == a[1..] + b;
      assert Flat(a + b) == a[0] + (Flat(a[1..]) + Flat(b));
    }
  }

  // ---- collected identifiers -----------------------------------------------------------

  predicate HasPrefix(s: string, prefix: string) { |prefix| <= |s| && s[..|prefix|] == prefix }

  predicate HasColons(s: string) { exists i | 0 <= i < |s| - 1 :: s[i] == ':' && s[i + 1] == ':' }

  predicate Belongs(id: string, root: string) { HasPrefix(id, root + "/") && HasColons(id) }

  // The first root that a line belongs to, or the number of roots.
  function RootOf(id: string, roots: seq<string>): (r: nat)
    ensures r <= |roots|
    ensures r < |roots| ==> Belongs(id, roots[r])
    ensures forall k | 0 <= k < r :: !Belongs(id, roots[k])
  {
    if roots == [] then 0
    else if Belongs(id, roots[0]) then 0
    else 1 + RootOf(id, roots[1..])
  }

  // The identifiers of one root, in the order they were collected.
  function Suite(lines: seq<string>, roots: seq<string>, root: nat): seq<string> {
    if lines == [] then []
    else
      var front, id := Suite(lines[..|lines| - 1], roots, root), Strip(lines[|lines| - 1]);
      if RootOf(id, roots) == root then front + [id] else front
  }

  // Each line lands in the suite of the first root it belongs to, and in no other.
  method ParseCollected(lines: seq<string>, roots: seq<string>) returns (suites: seq<seq<string>>)
    ensures |suites| == |roots|
    ensures forall r | 0 <= r < |roots| :: suites[r] == Suite(lines, roots, r)
  {
    suites := seq(|roots|, _ => []);
    for i := 0 to |lines|
      invariant |suites| == |roots|
      invariant forall r | 0 <= r < |roots| :: suites[r] == Suite(lines[..i], roots, r)
    {
      assert lines[..i + 1][..i] == lines[..i];
      var id := Strip(lines[i]);
      ghost var before := suites;
      var r := 0;
      while r < |roots| && !Belongs(id, roots[r])
        invariant 0 <= r <= |roots| && forall k | 0 <= k < r :: !Belongs(id, roots[k])
      {
        r := r + 1;
      }
      assert r == RootOf(id, roots);
      if r < |roots| { suites := suites[r := suites[r] + [id]]; }
    }
    assert lines[..|lines|] == lines;
  }

  // Every line that belongs to some root is collected exactly once.
  lemma {:induction false} SuitesCount(lines: seq<string>, roots: seq<string>)
    ensures |Flat(AllSuites(lines, roots))| == |Collected(lines, roots)|
    ensures multiset(Flat(AllSuites(lines, roots))) == multiset(Collected(lines, roots))
  {
    if lines == [] {
      EmptySuites(roots, 0);
    } else {
      var front, id := lines[..|lines| - 1], Strip(lines[|lines| - 1]);
      SuitesCount(front, roots);
      var r := RootOf(id, roots);
      if r < |roots| {
        assert AllSuites(lines, roots) == AllSuites(front, roots)[r := AllSuites(front, roots)[r] + [id]];
        FlatUpdate(AllSuites(front, roots), r, id);
      } else {
        assert AllSuites(lines, roots) == AllSuites(front, roots);
      }
    }
  }

  function AllSuites(lines: seq<string>, roots: seq<string>): (suites: seq<seq<string>>)
    ensures |suites| == |roots|
  {
    seq(|roots|, r requires 0 <= r < |roots| => Suite(lines, roots, r))
  }

  // The trimmed lines that belong to some root.
  function Collected(lines: seq<string>, roots: seq<string>): seq<string> {
    if lines == [] then []
    else
      var front, id := Collected(lines[..|lines| - 1], roots), Strip(lines[|lines| - 1]);
      if exists r | 0 <= r < |roots| :: Belongs(id, roots[r]) then front + [id] else front
  }

  lemma {:induction false} EmptySuites(roots: seq<string>, from: nat)
    requires from <= |roots|
    ensures Flat(AllSuites([], roots)[from..]) == []
    decreases |roots| - from
  {
    if from < |roots| {
      EmptySuites(roots, from + 1);
      assert AllSuites([], roots)[from..][1..] == AllSuites([], roots)[from + 1..];
    }
    if from == 0 { assert AllSuites([], roots)[0..] == AllSuites([], roots); }
  }

  lemma {:induction false} FlatUpdate<T>(parts: seq<seq<T>>, r: nat, x: T)
    requires r < |parts|
    ensures |Flat(parts[r := parts[r] + [x]])| == |Flat(parts)| + 1
    ensures multiset(Flat(parts[r := parts[r] + [x]])) == multiset(Flat(parts)) + multiset{x}
    decreases |parts|
  {
    var updated := parts[r := parts[r] + [x]];
    if r > 0 {
      FlatUpdate(parts[1..], r - 1, x);
      assert updated[1..] == parts[1..][r - 1 := parts[r] + [x]];
    } else {
      assert updated[1..] == parts[1..];
    }
  }

  // ---- the run ---------------------------------------------------------------------------

  // The roots that count as unit tests come first, the integration root last.
  datatype World = World(
    roots: seq<string>, collectExit: int, lines: seq<string>, eraseExit: int,
    exit: nat -> int, reportExit: int, xmlExit: int)

  const INTEGRATION_BATCH := 25

  function UnitIds(w: World): seq<string>
    requires w.roots != []
  {
    Flat(AllSuites(w.lines, w.roots)[..|w.roots| - 1])
  }

  function IntegrationIds(w: World): seq<string>
    requires w.roots != []
  {
    AllSuites(w.lines, w.roots)[|w.roots| - 1]
  }

  function Planned(w: World, size: int): seq<seq<string>>
    requires w.roots != [] && size >= 1
  {
    Shards(UnitIds(w), size) + Shards(IntegrationIds(w), INTEGRATION_BATCH)
  }

  predicate HasRepeats(ids: seq<string>) { |ids| != |Range(ids)| }

  predicate Usable(w: World) {
    && (forall r | 0 <= r < |w.roots| :: Suite(w.lines, w.roots, r) != [])
    && !HasRepeats(Flat(AllSuites(w.lines, w.roots)))
  }

  // Runs shards one by one until one fails.
  method RunShards(w: World, shards: seq<seq<string>>, started: seq<seq<string>>)
    returns (status: int, started': seq<seq<string>>)
    ensures status == 0 <==> forall k | |started| <= k < |started| + |shards| :: w.exit(k) == 0
    ensures started <= started' <= started + shards
    ensures status == 0 ==> started' == started + shards
    ensures status != 0 ==> StoppedAt(w, started + shards, |started|, status, started')
  {
    status, started' := 0, started;
    for i := 0 to |shards|
      invariant started' == started + shards[..i]
      invariant forall k | |started| <= k < |started| + i :: w.exit(k) == 0
    {
      status := w.exit(|started'|);
      started' := started' + [shards[i]];
      assert started' == started + shards[..i + 1];
      if status != 0 {
        assert w.exit(|started| + i) != 0;
        assert started' == (started + shards)[..|started'|];
        return;
      }
    }
    assert shards[..|shards|] == shards;
  }

  // The process started last is the first, from this one on, that failed; its status is
  // the result.
  ghost predicate StoppedAt(w: World, shards: seq<seq<string>>, first: nat, status: int, started: seq<seq<string>>) {
    && first < |started| <= |shards| && started == shards[..|started|]
    && status == w.exit(|started| - 1) && forall k | first <= k < |started| - 1 :: w.exit(k) == 0
  }

  // The unit shards first, then the integration batches.
  method RunTests(w: World, size: int, suites: seq<seq<string>>) returns (status: int, started: seq<seq<string>>)
    requires w.roots != [] && size >= 1 && suites == AllSuites(w.lines, w.roots)
    ensures status == 0 <==> forall k | 0 <= k < |Planned(w, size)| :: w.exit(k) == 0
    ensures status == 0 ==> started == Planned(w, size)
    ensures status != 0 ==> StoppedAt(w, Planned(w, size), 0, status, started)
  {
    var unit := Partition(Flat(suites[..|w.roots| - 1]), size);
    status, started := RunShards(w, unit, []);
    if status != 0 {
      assert started == Planned(w, size)[..|started|];
      return;
    }
    var integration := Partition(suites[|w.roots| - 1], INTEGRATION_BATCH);
    status, started := RunShards(w, integration, started);
  }

  // Succeeds exactly when collection is usable and every process succeeds; only then
  // has everything been started, and every collected test went to exactly one process.
  method RunAll(w: World, size: int) returns (status: int, started: seq<seq<string>>)
    requires w.roots != []
    ensures status == 0 <==>
            && size >= 1 && w.collectExit == 0 && Usable(w) && w.eraseExit == 0
            && (forall k | 0 <= k < |Planned(w, size)| :: w.exit(k) == 0)
            && w.reportExit == 0 && w.xmlExit == 0
    ensures size < 1 ==> status == 2 && started == []
    ensures size >= 1 && w.collectExit != 0 ==> status == w.collectExit && started == []
    ensures size >= 1 && w.collectExit == 0 && !Usable(w) ==> status == 2 && started == []
    ensures size >= 1 && w.collectExit == 0 && Usable(w) && w.eraseExit != 0 ==> status == w.eraseExit && started == []
    ensures size >= 1 && w.collectExit == 0 && Usable(w) && w.eraseExit == 0 ==>
              if exists k | 0 <= k < |Planned(w, size)| :: w.exit(k) != 0 then
                StoppedAt(w, Planned(w, size), 0, status, started)
              else
                && started == Planned(w, size)
                && status == if w.reportExit != 0 then w.reportExit else w.xmlExit
    ensures status == 0 ==> forall id | id in Collected(w.lines, w.roots) :: multiset(Flat(started))[id] == 1
    ensures status == 0 ==> forall id | id in Flat(started) :: id in Collected(w.lines, w.roots)
  {
    started := [];
    if size < 1 { return 2, []; }
    if w.collectExit != 0 { return w.collectExit, []; }
    var suites := ParseCollected(w.lines, w.roots);
    assert suites == AllSuites(w.lines, w.roots);
    if exists r | 0 <= r < |suites| :: suites[r] == [] { return 2, []; }
    if HasRepeats(Flat(suites)) { return 2, []; }
    if w.eraseExit != 0 { return w.eraseExit, []; }
    status, started := RunTests(w, size, suites);
    if status != 0 { return; }
    if w.reportExit != 0 { return w.reportExit, started; }
    if w.xmlExit != 0 { return w.xmlExit, started; }
    PlanCoversCollection(w, size);
  }

  lemma PlannedIsCollected(w: World, size: int)
    requires w.roots != [] && size >= 1
    ensures Flat(Planned(w, size)) == Flat(AllSuites(w.lines, w.roots))
  {
    var suites, last := AllSuites(w.lines, w.roots), |w.roots| - 1;
    ShardsCover(UnitIds(w), size);
    ShardsCover(IntegrationIds(w), INTEGRATION_BATCH);
    FlatConcat(Shards(UnitIds(w), size), Shards(IntegrationIds(w), INTEGRATION_BATCH));
    assert suites == suites[..last] + [suites[last]];
    FlatConcat(suites[..last], [suites[last]]);
    FlatOfOne(suites[last]);
  }

  lemma FlatOfOne<T>(part: seq<T>)
    ensures Flat([part]) == part
  {
    assert [part][1..] == [];
  }

  // No part is empty or longer than the size, and only the last may be shorter.
  predicate Sharded<T>(parts: seq<seq<T>>, size: int) {
    && (forall k | 0 <= k < |parts| :: 1 <= |parts[k]| <= size)
    && (forall k | 0 <= k < |parts| - 1 :: |parts[k]| == size)
  }

  // The plan: the tests of all roots but the last, in order, in shards of the given size,
  // and then those of the last root, alone, in batches of 25.
  lemma PlanShape(w: World, size: int) returns (unit: seq<seq<string>>, integration: seq<seq<string>>)
    requires w.roots != [] && size >= 1
    ensures Planned(w, size) == unit + integration
    ensures Flat(unit) == Flat(AllSuites(w.lines, w.roots)[..|w.roots| - 1]) && Sharded(unit, size)
    ensures Flat(integration) == Suite(w.lines, w.roots, |w.roots| - 1) && Sharded(integration, 25)
  {
    unit, integration := Shards(UnitIds(w), size), Shards(IntegrationIds(w), INTEGRATION_BATCH);
    ShardsCover(UnitIds(w), size);
    ShardsCover(IntegrationIds(w), INTEGRATION_BATCH);
  }

  // The identifier starts with this root and with no earlier one, and has two colons.
  ghost predicate Rooted(id: string, roots: seq<string>, root: nat)
    requires root < |roots|
  {
    && roots[root] + "/" <= id && (exists c :: 0 <= c < |id| - 1 && id[c] == ':' && id[c + 1] == ':')
    && forall k | 0 <= k < root :: !(roots[k] + "/" <= id)
  }

  lemma RootOfLine(id: string, roots: seq<string>, root: nat)
    requires root < |roots|
    ensures RootOf(id, roots) == root <==> Rooted(id, roots, root)
  {
    forall k | 0 <= k < |roots| ensures Belongs(id, roots[k]) <==> roots[k] + "/" <= id && HasColons(id) {
      var prefix := roots[k] + "/";
      assert HasPrefix(id, prefix) <==> prefix <= id;
    }
  }

  ghost predicate Trimmed(lines: seq<string>, id: string) { exists i :: 0 <= i < |lines| && Strip(lines[i]) == id }

  lemma TrimmedLast(lines: seq<string>, id: string)
    requires lines != []
    ensures Trimmed(lines, id) <==> Trimmed(lines[..|lines| - 1], id) || Strip(lines[|lines| - 1]) == id
  {
    var n := |lines| - 1;
    assert forall i | 0 <= i < n :: lines[..n][i] == lines[i];
  }

  // A suite holds the trimmed lines that are rooted there.
  lemma {:induction false} SuiteHolds(lines: seq<string>, roots: seq<string>, root: nat, id: string)
    requires root < |roots|
    ensures id in Suite(lines, roots, root) <==> Trimmed(lines, id) && Rooted(id, roots, root)
  {
    if lines != [] {
      SuiteHolds(lines[..|lines| - 1], roots, root, id);
      TrimmedLast(lines, id);
      RootOfLine(id, roots, root);
    }
  }

  // What is planned gives every collected test to exactly one process: the planned
  // shards together hold each collected identifier as often as it was collected, and
  // a usable collection holds none twice.
  lemma PlanCoversCollection(w: World, size: int)
    requires w.roots != [] && size >= 1 && Usable(w)
    ensures multiset(Flat(Planned(w, size))) == multiset(Collected(w.lines, w.roots))
    ensures forall id | id in Collected(w.lines, w.roots) :: multiset(Flat(Planned(w, size)))[id] == 1
    ensures forall id | id in Flat(Planned(w, size)) :: id in Collected(w.lines, w.roots)
  {
    PlannedIsCollected(w, size);
    SuitesCount(w.lines, w.roots);
    CountedOnce(Flat(AllSuites(w.lines, w.roots)));
    forall id | id in Collected(w.lines, w.roots) ensures multiset(Flat(Planned(w, size)))[id] == 1 {
      assert id in multiset(Collected(w.lines, w.roots));
    }
    forall id | id in Flat(Planned(w, size)) ensures id in Collected(w.lines, w.roots) {
      assert id in multiset(Flat(Planned(w, size)));
    }
  }

  function Range(ids: seq<string>): set<string> { set id | id in ids }

  lemma RangeOfLast(ids: seq<string>)
    requires ids != []
    ensures Range(ids) == Range(ids[..|ids| - 1]) + {ids[|ids| - 1]}
  {
    assert ids == ids[..|ids| - 1] + [ids[|ids| - 1]];
  }

  // A list as long as its set of elements holds each of them once.
  lemma {:induction false} CountedOnce(ids: seq<string>)
    requires !HasRepeats(ids)
    ensures forall id | id in ids :: multiset(ids)[id] == 1
  {
    if ids != [] {
      var front, last := ids[..|ids| - 1], ids[|ids| - 1];
      assert ids == front + [last];
      RangeOfLast(ids);
      RangeNotLonger(front);
      CountedOnce(front);
    }
  }

  lemma {:induction false} RangeNotLonger(ids: seq<string>)
    ensures |Range(ids)| <= |ids|
  {
    if ids != [] {
      RangeNotLonger(ids[..|ids| - 1]);
      RangeOfLast(ids);
    }
  }
}
