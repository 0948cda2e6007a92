/**
 What every run of the staging protocol keeps.
 */
module StagingSafety {
  import opened Wrappers
  import opened CommitGraph
  import opened CiEvidence
  import opened Staging

  // ---- the merge loop ---------------------------------------------------------

  // A merge commit has exactly the ancestors of its two parents, and itself.
  lemma MergeCommitAncestry(graph: Graph, head: Commit, other: Commit)
    requires WellFormed(graph) && head < |graph| && other < |graph|
    ensures WellFormed(graph + [{head, other}])
    ensures forall c: Commit | c < |graph| ::
              Precedes(graph + [{head, other}], c, |graph|) <==> Precedes(graph, c, head) || Precedes(graph, c, other)
  {
    var later := graph + [{head, other}];
    PrecedesStable(graph, later);
    forall c: Commit | c < |graph|
      ensures Precedes(later, c, |graph|) <==> Precedes(graph, c, head) || Precedes(graph, c, other)
    {
      assert later[|graph|] == {head, other};
      assert Ancestor(later, c, |graph|) <==> Ancestor(later, c, head) || Ancestor(later, c, other);
    }
  }

  // A completed merge loop holds exactly the history of its start and of all its
  // sources: nothing is missing, and no older commit is smuggled in.
  lemma {:induction false} MergeHoldsExactly(graph: Graph, head: Commit, sources: seq<Source>,
                                             conflicts: string -> bool)
    requires WellFormed(graph) && head < |graph|
    requires forall s | s in sources :: s.sha < |graph|
    ensures var merge := MergeAll(graph, head, sources, conflicts);
      merge.Merged? ==> forall c: Commit | c < |graph| ::
          Precedes(merge.graph, c, merge.head)
          <==> Precedes(graph, c, head) || exists s | s in sources :: Precedes(graph, c, s.sha)
    decreases |sources|
  {
    if sources != [] {
      var source, rest := sources[0], sources[1..];
      assert sources == [source] + rest;
      var merge := MergeAll(graph, head, sources, conflicts);
      if Precedes(graph, source.sha, head) {
        MergeHoldsExactly(graph, head, rest, conflicts);
        forall c: Commit | Precedes(graph, c, source.sha) ensures Precedes(graph, c, head) {
          PrecedesTransitive(graph, c, source.sha, head);
        }
      } else if !conflicts(source.branch) {
        var later := graph + [{head, source.sha}];
        MergeCommitAncestry(graph, head, source.sha);
        MergeHoldsExactly(later, |graph|, rest, conflicts);
        PrecedesStable(graph, later);
        if merge.Merged? {
          forall c: Commit | c < |graph|
            ensures Precedes(merge.graph, c, merge.head)
                    <==> Precedes(graph, c, head) || exists s | s in sources :: Precedes(graph, c, s.sha)
          {
            assert forall s | s in rest :: Precedes(later, c, s.sha) <==> Precedes(graph, c, s.sha);
          }
        }
      }
    }
  }

  lemma MergeContainsAll(graph: Graph, head: Commit, sources: seq<Source>, conflicts: string -> bool)
    requires WellFormed(graph) && head < |graph|
    requires forall s | s in sources :: s.sha < |graph|
    ensures var merge := MergeAll(graph, head, sources, conflicts);
      merge.Merged? ==>
        && Precedes(merge.graph, head, merge.head)
        && forall s | s in sources :: Precedes(merge.graph, s.sha, merge.head)
  {
    MergeHoldsExactly(graph, head, sources, conflicts);
  }

  // By its turn the k-th source is in the history of the start or of an earlier source.
  ghost predicate Contained(graph: Graph, head: Commit, sources: seq<Source>, k: nat)
    requires WellFormed(graph) && k < |sources|
  {
    Precedes(graph, sources[k].sha, head) || exists j | 0 <= j < k :: Precedes(graph, sources[k].sha, sources[j].sha)
  }

  lemma ContainedAfterFirst(graph: Graph, head: Commit, sources: seq<Source>, k: nat)
    requires WellFormed(graph) && head < |graph| && 0 < k < |sources|
    requires forall s | s in sources :: s.sha < |graph|
    ensures Precedes(graph, sources[0].sha, head) ==>
              (Contained(graph, head, sources, k) <==> Contained(graph, head, sources[1..], k - 1))
    ensures !Precedes(graph, sources[0].sha, head) ==>
              var later := graph + [{head, sources[0].sha}];
              WellFormed(later)
              && (Contained(graph, head, sources, k) <==> Contained(later, |graph|, sources[1..], k - 1))
  {
    var first, c := sources[0].sha, sources[k].sha;
    assert forall j | 0 <= j < k - 1 :: sources[1..][j] == sources[j + 1];
    assert forall j | 0 < j < k :: sources[j] == sources[1..][j - 1];
    assert sources[1..][k - 1] == sources[k];
    if Precedes(graph, first, head) {
      if Precedes(graph, c, first) { PrecedesTransitive(graph, c, first, head); }
    } else {
      MergeCommitAncestry(graph, head, first);
      PrecedesStable(graph, graph + [{head, first}]);
    }
  }

  // The loop stops exactly when some source conflicts at its turn, and it names the
  // first that does.
  lemma {:induction false} MergeStopsIff(graph: Graph, head: Commit, sources: seq<Source>, conflicts: string -> bool)
    requires WellFormed(graph) && head < |graph|
    requires forall s | s in sources :: s.sha < |graph|
    ensures var merge := MergeAll(graph, head, sources, conflicts);
      && ((forall k | 0 <= k < |sources| :: !Clashes(graph, head, sources, conflicts, k)) ==> merge.Merged?)
      && (forall k | 0 <= k < |sources| && Clashes(graph, head, sources, conflicts, k)
                     && forall j | 0 <= j < k :: !Clashes(graph, head, sources, conflicts, j) ::
            merge.Stopped? && merge.at == sources[k])
    decreases |sources|
  {
    if sources != [] {
      var first, rest := sources[0], sources[1..];
      assert sources == [first] + rest;
      var contained := Precedes(graph, first.sha, head);
      if contained || !conflicts(first.branch) {
        var next, at := if contained then graph else graph + [{head, first.sha}], if contained then head else |graph|;
        MergeStopsIff(next, at, rest, conflicts);
        forall k | 0 < k < |sources|
          ensures Clashes(graph, head, sources, conflicts, k) <==> Clashes(next, at, rest, conflicts, k - 1)
        {
          ContainedAfterFirst(graph, head, sources, k);
        }
        assert !Clashes(graph, head, sources, conflicts, 0);
        LeastShifts(graph, head, sources, next, at, conflicts);
      } else {
        assert Clashes(graph, head, sources, conflicts, 0);
      }
    }
  }

  ghost predicate Clashes(graph: Graph, head: Commit, sources: seq<Source>, conflicts: string -> bool, k: nat)
    requires WellFormed(graph) && k < |sources|
  {
    !Contained(graph, head, sources, k) && conflicts(sources[k].branch)
  }

  lemma LeastShifts(graph: Graph, head: Commit, sources: seq<Source>, next: Graph, at: Commit,
                    conflicts: string -> bool)
    requires WellFormed(graph) && WellFormed(next) && sources != []
    requires !Clashes(graph, head, sources, conflicts, 0)
    requires forall k | 0 < k < |sources| ::
               Clashes(graph, head, sources, conflicts, k) <==> Clashes(next, at, sources[1..], conflicts, k - 1)
    ensures (forall k | 0 <= k < |sources| :: !Clashes(graph, head, sources, conflicts, k)) ==>
              forall k | 0 <= k < |sources| - 1 :: !Clashes(next, at, sources[1..], conflicts, k)
    ensures forall k | 0 <= k < |sources| && Clashes(graph, head, sources, conflicts, k)
                       && forall j | 0 <= j < k :: !Clashes(graph, head, sources, conflicts, j) ::
              k > 0 && Clashes(next, at, sources[1..], conflicts, k - 1) && sources[1..][k - 1] == sources[k]
              && forall j | 0 <= j < k - 1 :: !Clashes(next, at, sources[1..], conflicts, j)
  {
    forall j | 0 <= j < |sources| - 1
      ensures Clashes(next, at, sources[1..], conflicts, j) <==> Clashes(graph, head, sources, conflicts, j + 1)
    {
      assert j + 1 - 1 == j;
    }
  }

  // Each new commit merges one source onto the head before it.
  ghost predicate Merges(graph: Graph, head: Commit, later: Graph, c: Commit, source: Source) {
    |graph| <= c < |later| && later[c] == {if c == |graph| then head else c - 1, source.sha}
  }

  // The commit merges some source that was not contained.
  ghost predicate IsBoundary(graph: Graph, head: Commit, sources: seq<Source>, later: Graph, c: Commit)
    requires WellFormed(graph)
  {
    exists k | 0 <= k < |sources| && !Contained(graph, head, sources, k) :: Merges(graph, head, later, c, sources[k])
  }

  // The loop after its first source: the graph and head it goes on with.
  lemma AfterFirst(graph: Graph, head: Commit, sources: seq<Source>, conflicts: string -> bool)
      returns (next: Graph, at: Commit)
    requires WellFormed(graph) && head < |graph| && sources != []
    requires forall s | s in sources :: s.sha < |graph|
    requires MergeAll(graph, head, sources, conflicts).Merged?
    ensures WellFormed(next) && Grows(graph, next) && at < |next| && forall s | s in sources[1..] :: s.sha < |next|
    ensures MergeAll(graph, head, sources, conflicts) == MergeAll(next, at, sources[1..], conflicts)
    ensures if Precedes(graph, sources[0].sha, head) then next == graph && at == head
            else next == graph + [{head, sources[0].sha}] && at == |graph|
    ensures Grows(next, MergeAll(graph, head, sources, conflicts).graph)
  {
    if Precedes(graph, sources[0].sha, head) {
      next, at := graph, head;
    } else {
      next, at := graph + [{head, sources[0].sha}], |graph|;
    }
  }

  lemma {:induction false} MergeHead(graph: Graph, head: Commit, sources: seq<Source>, conflicts: string -> bool)
    requires WellFormed(graph) && head < |graph| && forall s | s in sources :: s.sha < |graph|
    requires MergeAll(graph, head, sources, conflicts).Merged?
    ensures var merge := MergeAll(graph, head, sources, conflicts);
      merge.head == if |merge.graph| == |graph| then head else |merge.graph| - 1
    decreases |sources|
  {
    if sources != [] {
      var next, at := AfterFirst(graph, head, sources, conflicts);
      MergeHead(next, at, sources[1..], conflicts);
    }
  }

  // Every source that is not contained gets its commit.
  lemma {:induction false} SourceGetsCommit(graph: Graph, head: Commit, sources: seq<Source>,
                                            conflicts: string -> bool, k: nat)
      returns (c: Commit)
    requires WellFormed(graph) && head < |graph| && forall s | s in sources :: s.sha < |graph|
    requires MergeAll(graph, head, sources, conflicts).Merged?
    requires k < |sources| && !Contained(graph, head, sources, k)
    ensures Merges(graph, head, MergeAll(graph, head, sources, conflicts).graph, c, sources[k])
    decreases |sources|
  {
    var next, at := AfterFirst(graph, head, sources, conflicts);
    if k == 0 {
      c := |graph|;
      assert next[c] == MergeAll(graph, head, sources, conflicts).graph[c];
    } else {
      ContainedAfterFirst(graph, head, sources, k);
      c := SourceGetsCommit(next, at, sources[1..], conflicts, k - 1);
    }
  }

  // And there is no other new commit.
  lemma {:induction false} CommitMergesSource(graph: Graph, head: Commit, sources: seq<Source>,
                                              conflicts: string -> bool, c: Commit)
      returns (k: nat)
    requires WellFormed(graph) && head < |graph| && forall s | s in sources :: s.sha < |graph|
    requires MergeAll(graph, head, sources, conflicts).Merged?
    requires |graph| <= c < |MergeAll(graph, head, sources, conflicts).graph|
    ensures k < |sources| && !Contained(graph, head, sources, k)
    ensures Merges(graph, head, MergeAll(graph, head, sources, conflicts).graph, c, sources[k])
    decreases |sources|
  {
    var next, at := AfterFirst(graph, head, sources, conflicts);
    if c < |next| {
      k := 0;
      assert next[c] == MergeAll(graph, head, sources, conflicts).graph[c];
    } else {
      var j := CommitMergesSource(next, at, sources[1..], conflicts, c);
      k := j + 1;
      ContainedAfterFirst(graph, head, sources, k);
    }
  }

  // A completed loop makes one commit for each source that is not contained, in a row on
  // top of the start, and no other.
  lemma MergeBoundaries(graph: Graph, head: Commit, sources: seq<Source>, conflicts: string -> bool)
    requires WellFormed(graph) && head < |graph| && forall s | s in sources :: s.sha < |graph|
    requires MergeAll(graph, head, sources, conflicts).Merged?
    ensures var merge := MergeAll(graph, head, sources, conflicts);
      && merge.head == (if |merge.graph| == |graph| then head else |merge.graph| - 1)
      && (forall k | 0 <= k < |sources| && !Contained(graph, head, sources, k) ::
            exists c :: Merges(graph, head, merge.graph, c, sources[k]))
      && (forall c: Commit :: |graph| <= c < |merge.graph| ==> IsBoundary(graph, head, sources, merge.graph, c))
  {
    var merge := MergeAll(graph, head, sources, conflicts);
    MergeHead(graph, head, sources, conflicts);
    forall k | 0 <= k < |sources| && !Contained(graph, head, sources, k)
      ensures exists c :: Merges(graph, head, merge.graph, c, sources[k])
    {
      var c := SourceGetsCommit(graph, head, sources, conflicts, k);
    }
    forall c: Commit ensures |graph| <= c < |merge.graph| ==> IsBoundary(graph, head, sources, merge.graph, c) {
      if |graph| <= c < |merge.graph| { var k := CommitMergesSource(graph, head, sources, conflicts, c); }
    }
  }

  // A source that the start already contains gets no merge commit: integrating
  // without it builds the same graph, head and conflict.
  lemma {:induction false} ContainedSourceIsSkipped(graph: Graph, head: Commit, front: seq<Source>, source: Source,
                                                    rest: seq<Source>, conflicts: string -> bool)
    requires WellFormed(graph) && head < |graph| && Precedes(graph, source.sha, head)
    requires forall s | s in front + [source] + rest :: s.sha < |graph|
    ensures MergeAll(graph, head, front + [source] + rest, conflicts) == MergeAll(graph, head, front + rest, conflicts)
    decreases |front|
  {
    var all, kept := front + [source] + rest, front + rest;
    if front == [] {
      assert all[0] == source && all[1..] == rest && kept == rest;
    } else {
      var first, others := front[0], front[1..];
      assert all[0] == kept[0] == first && all[1..] == others + [source] + rest && kept[1..] == others + rest;
      assert first in all && forall s | s in others + [source] + rest :: s in all;
      if Precedes(graph, first.sha, head) {
        ContainedSourceIsSkipped(graph, head, others, source, rest, conflicts);
      } else if !conflicts(first.branch) {
        MergeCommitAncestry(graph, head, first.sha);
        ContainedSourceIsSkipped(graph + [{head, first.sha}], |graph|, others, source, rest, conflicts);
      }
    }
  }

  // Nothing is merged exactly when every source is already contained.
  lemma {:induction false} NothingMergedIff(graph: Graph, head: Commit, sources: seq<Source>, conflicts: string -> bool)
    requires WellFormed(graph) && head < |graph|
    requires forall s | s in sources :: s.sha < |graph|
    ensures MergeAll(graph, head, sources, conflicts) == Merged(graph, head)
            <==> forall s | s in sources :: Precedes(graph, s.sha, head)
    decreases |sources|
  {
    if sources != [] {
      var first, rest := sources[0], sources[1..];
      assert sources == [first] + rest;
      if Precedes(graph, first.sha, head) {
        NothingMergedIff(graph, head, rest, conflicts);
      } else {
        assert first in sources;
        assert MergeAll(graph, head, sources, conflicts) != Merged(graph, head);
      }
    }
  }

  // ---- the invariant ----------------------------------------------------------

  // A recorded marker passes all of reconcile's own checks and was pushed.
  ghost predicate MarkerSound(r: Repo, marker: Marker)
    requires WellFormed(r.graph)
  {
    && MarkerAcceptable(r.graph, marker)
    && r.remoteStaging.Some? && Precedes(r.graph, marker.staging, r.remoteStaging.value)
  }

  // A green receipt names a pushed commit that contains all its sources.
  ghost predicate GreenSound(r: Repo, attempt: Attempt)
    requires WellFormed(r.graph)
  {
    && attempt.staging.Some? && r.localStaging.Some? && r.remoteStaging.Some?
    && Precedes(r.graph, attempt.staging.value, r.remoteStaging.value)
    && forall s | s in attempt.sources :: Precedes(r.graph, s.sha, attempt.staging.value)
  }

  ghost predicate Inv(r: Repo) {
    && InRange(r)
    && Precedes(r.graph, r.localMaster, r.remoteMaster)
    && Precedes(r.graph, r.trackingMaster, r.remoteMaster)
    && (r.remoteStaging.Some? ==> Precedes(r.graph, r.remoteMaster, r.remoteStaging.value))
    && (r.trackingStaging.Some? ==>
          r.remoteStaging.Some? && Precedes(r.graph, r.trackingStaging.value, r.remoteStaging.value))
    && (r.localStaging.Some? ==>
          if r.remoteStaging.Some? then Precedes(r.graph, r.localStaging.value, r.remoteStaging.value)
          else r.localStaging.value == r.remoteMaster)
    && (r.degraded.Some? ==> MarkerSound(r, r.degraded.value))
    && (forall i | 0 <= i < |r.attempts| && r.attempts[i].state.GreenAttempt? :: GreenSound(r, r.attempts[i]))
    && (forall c | c in r.receipts :: Precedes(r.graph, c, r.remoteMaster))
  }

  // Before the first bootstrap: one synchronized master and nothing else.
  ghost predicate Fresh(r: Repo) {
    && InRange(r) && r.localMaster == r.trackingMaster == r.remoteMaster
    && r.localStaging == r.trackingStaging == r.remoteStaging == None
    && !r.checkout && r.degraded.None? && r.attempts == [] && r.receipts == map[]
  }

  // The remote refs only move to descendants and nothing recorded is lost.
  ghost predicate Advances(r: Repo, later: Repo)
    requires InRange(later)
  {
    && Grows(r.graph, later.graph)
    && Precedes(later.graph, r.remoteMaster, later.remoteMaster)
    && (r.remoteStaging.Some? ==>
          later.remoteStaging.Some? && Precedes(later.graph, r.remoteStaging.value, later.remoteStaging.value))
    && r.attempts <= later.attempts
    && r.receipts.Keys <= later.receipts.Keys
  }

  lemma FreshIsSound(r: Repo)
    requires Fresh(r)
    ensures Inv(r)
  {
  }

  lemma AdvancesTransitive(a: Repo, b: Repo, c: Repo)
    requires Inv(a) && Inv(b) && Inv(c) && Advances(a, b) && Advances(b, c)
    ensures Advances(a, c)
  {
    PrecedesStable(b.graph, c.graph);
    PrecedesTransitive(c.graph, a.remoteMaster, b.remoteMaster, c.remoteMaster);
    if a.remoteStaging.Some? {
      PrecedesTransitive(c.graph, a.remoteStaging.value, b.remoteStaging.value, c.remoteStaging.value);
    }
  }

  // Adding commits to the store keeps the invariant.
  lemma GrowthKeepsInv(r: Repo, graph: Graph)
    requires Inv(r) && WellFormed(graph) && Grows(r.graph, graph)
    ensures Inv(r.(graph := graph)) && Advances(r, r.(graph := graph))
  {
    PrecedesStable(r.graph, graph);
  }

  // Moving remote staging forward, with the tracking ref anywhere behind it and
  // local staging likewise, keeps the invariant.
  lemma StagingForwardKeepsInv(r: Repo, later: Repo)
    requires Inv(r)
    requires later == r.(localStaging := later.localStaging, trackingStaging := later.trackingStaging,
                         remoteStaging := later.remoteStaging, checkout := later.checkout)
    requires later.localStaging.Some? && later.remoteStaging.Some?
    requires later.localStaging.value < |r.graph|
    requires Precedes(r.graph, later.localStaging.value, later.remoteStaging.value)
    requires later.trackingStaging.Some? ==> Precedes(r.graph, later.trackingStaging.value, later.remoteStaging.value)
    requires Precedes(r.graph, (if r.remoteStaging.Some? then r.remoteStaging.value else r.remoteMaster),
                      later.remoteStaging.value)
    ensures Inv(later) && Advances(r, later)
  {
    var g, tip := r.graph, later.remoteStaging.value;
    if r.remoteStaging.Some? {
      var was := r.remoteStaging.value;
      PrecedesTransitive(g, r.remoteMaster, was, tip);
      if r.degraded.Some? { PrecedesTransitive(g, r.degraded.value.staging, was, tip); }
      forall i | 0 <= i < |r.attempts| && r.attempts[i].state.GreenAttempt?
        ensures GreenSound(later, r.attempts[i])
      {
        PrecedesTransitive(g, r.attempts[i].staging.value, was, tip);
      }
    }
  }

  lemma ReadyFacts(r: Repo, place: Place, clean: bool)
    requires Inv(r)
    ensures var (r0, ready) := RootReady(r, place, clean);
      && Inv(r0) && Advances(r, r0)
      && r0 == r.(trackingMaster := r0.trackingMaster)
      && (ready ==> r0.localMaster == r0.trackingMaster == r0.remoteMaster && MayCoordinate(r, place, clean))
  {
  }

  lemma EnsureFacts(r: Repo, remediate: bool, clean: bool)
    requires Inv(r)
    ensures var (r1, found) := EnsureStaging(r, remediate, clean);
      && Inv(r1) && Advances(r, r1)
      && r1 == r.(trackingStaging := r1.trackingStaging)
      && (found.Some? ==> found == r1.localStaging == r1.trackingStaging == r1.remoteStaging && r1.checkout)
      && (found.Some? && !remediate ==> r.degraded.None?)
  {
  }

  // ---- one lemma per command ---------------------------------------------------

  lemma BootstrapKeeps(r: Repo, call: BootstrapCall)
    requires Inv(r)
    ensures Inv(Bootstrap(r, call).0) && Advances(r, Bootstrap(r, call).0)
  {
    ReadyFacts(r, call.place, call.rootClean);
    var (r0, ready) := RootReady(r, call.place, call.rootClean);
    var current := Head(r0, call.place);
    var later := Bootstrap(r, call).0;
    if later != r0 {
      assert current == Some(call.confirm);
      if later.remoteStaging.Some? {
        StagingForwardKeepsInv(r0, later);
        AdvancesTransitive(r, r0, later);
      }
    }
  }

  lemma FrozenFacts(r: Repo, start: Commit, call: IntegrateCall)
    requires Inv(r) && SourcesReady(r, start, call) && NamesAcceptable(call.branches)
    ensures var sources := Frozen(r, call.branches);
      && sources != [] && DistinctNames(sources)
      && (forall i | 0 <= i < |sources| :: IsWorkBranch(sources[i].branch))
      && (forall s | s in sources :: s.sha < |r.graph|)
  {
    forall i | 0 <= i < |call.branches| ensures call.branches[i] in r.work {
      assert SourceReady(r, start, call.branches[i], call.remediate, call.checks(call.branches[i]));
    }
  }

  // Recording a sound attempt, and a sound marker or none, keeps the invariant.
  lemma RecordKeeps(r: Repo, degraded: Option<Marker>, attempt: Attempt)
    requires Inv(r)
    requires degraded.Some? ==> MarkerSound(r, degraded.value)
    requires attempt.state.GreenAttempt? ==> GreenSound(r, attempt)
    ensures var later := r.(degraded := degraded, attempts := r.attempts + [attempt]);
      Inv(later) && Advances(r, later)
  {
    var later := r.(degraded := degraded, attempts := r.attempts + [attempt]);
    forall i | 0 <= i < |later.attempts| && later.attempts[i].state.GreenAttempt?
      ensures GreenSound(later, later.attempts[i])
    {
      if i < |r.attempts| { assert GreenSound(r, r.attempts[i]); }
    }
  }

  // What publishing does to everything but the recorded attempts and marker.
  ghost predicate StagingPlaced(r: Repo, start: Commit, head: Commit, moved: Repo) {
    && moved == r.(localStaging := moved.localStaging, trackingStaging := moved.trackingStaging,
                   remoteStaging := moved.remoteStaging)
    && moved.localStaging in {Some(start), Some(head)}
    && moved.trackingStaging in {Some(start), Some(head)}
    && (moved.remoteStaging == Some(head)
        || moved.remoteStaging == moved.localStaging == moved.trackingStaging == Some(start))
  }

  lemma PlacedKeeps(r: Repo, start: Commit, head: Commit, moved: Repo)
    requires Inv(r) && r.localStaging == r.trackingStaging == r.remoteStaging == Some(start)
    requires Precedes(r.graph, start, head) && StagingPlaced(r, start, head, moved)
    ensures Inv(moved) && Advances(r, moved)
  {
    assert Precedes(r.graph, head, head) && Precedes(r.graph, start, start);
    StagingForwardKeepsInv(r, moved);
  }

  // What publishing leaves: the staging refs placed, and one record of how it ended.
  ghost predicate Published(before: Repo, start: Commit, head: Commit, sources: seq<Source>, later: Repo,
                            outcome: IntegrateOutcome)
  {
    var moved := before.(localStaging := later.localStaging, trackingStaging := later.trackingStaging,
                         remoteStaging := later.remoteStaging);
    && StagingPlaced(before, start, head, moved)
    && match outcome
       case PushFailed =>
         later == moved.(attempts := moved.attempts + [Attempt(PushFailedAttempt, None, Some(start), sources)])
       case Degraded =>
         && moved.remoteStaging == Some(head)
         && later == moved.(degraded := Some(Marker(head, start, sources)),
                            attempts := moved.attempts + [Attempt(DegradedAttempt, Some(head), None, sources)])
       case Unsettled => later == moved
       case Green =>
         && moved.localStaging == moved.trackingStaging == moved.remoteStaging == Some(head)
         && later == moved.(degraded := None,
                            attempts := moved.attempts + [Attempt(GreenAttempt, Some(head), Some(start), sources)])
       case _ => false
  }

  lemma PushFailureShape(r: Repo, start: Commit, head: Commit, sources: seq<Source>, call: IntegrateCall)
    requires r.localStaging == Some(head) && r.trackingStaging == r.remoteStaging == Some(start)
    requires !call.push.Accepted?
    ensures var (later, outcome) := Publish(r, start, head, sources, call);
      Published(r.(localStaging := Some(start)), start, head, sources, later, outcome)
  {
  }

  // How publishing ends, as a placement of the staging refs and one record.
  lemma PublishShape(r: Repo, start: Commit, head: Commit, sources: seq<Source>, call: IntegrateCall)
    requires r.localStaging == Some(head) && r.trackingStaging == r.remoteStaging == Some(start)
    ensures var (later, outcome) := Publish(r, start, head, sources, call);
      Published(r.(localStaging := Some(start)), start, head, sources, later, outcome)
  {
    if !call.push.Accepted? { PushFailureShape(r, start, head, sources, call); }
  }

  lemma PublishKeeps(r: Repo, start: Commit, head: Commit, sources: seq<Source>, call: IntegrateCall)
    requires Inv(r.(localStaging := Some(start)))
    requires r.localStaging == Some(head) && r.trackingStaging == r.remoteStaging == Some(start)
    requires MarkerAcceptable(r.graph, Marker(head, start, sources))
    ensures var later := Publish(r, start, head, sources, call).0;
      Inv(later) && Advances(r.(localStaging := Some(start)), later)
  {
    var before := r.(localStaging := Some(start));
    var (later, outcome) := Publish(r, start, head, sources, call);
    var moved := before.(localStaging := later.localStaging, trackingStaging := later.trackingStaging,
                         remoteStaging := later.remoteStaging);
    PublishShape(r, start, head, sources, call);
    PlacedKeeps(before, start, head, moved);
    assert forall s | s in sources :: Precedes(moved.graph, s.sha, head);
    assert Precedes(moved.graph, head, head);
    match outcome
    case PushFailed => RecordKeeps(moved, moved.degraded, Attempt(PushFailedAttempt, None, Some(start), sources));
      AdvancesTransitive(before, moved, later);
    case Degraded => RecordKeeps(moved, Some(Marker(head, start, sources)),
                                 Attempt(DegradedAttempt, Some(head), None, sources));
      AdvancesTransitive(before, moved, later);
    case Green => RecordKeeps(moved, None, Attempt(GreenAttempt, Some(head), Some(start), sources));
      AdvancesTransitive(before, moved, later);
    case _ =>
  }

  lemma MergeAndPublishKeeps(r: Repo, start: Commit, call: IntegrateCall)
    requires Inv(r) && NamesAcceptable(call.branches) && start < |r.graph| && SourcesReady(r, start, call)
    requires r.localStaging == r.trackingStaging == r.remoteStaging == Some(start)
    ensures Inv(MergeAndPublish(r, start, call).0) && Advances(r, MergeAndPublish(r, start, call).0)
  {
    FrozenFacts(r, start, call);
    var sources := Frozen(r, call.branches);
    var merge := MergeAll(r.graph, start, sources, call.conflicts);
    MergeContainsAll(r.graph, start, sources, call.conflicts);
    GrowthKeepsInv(r, merge.graph);
    var grown := r.(graph := merge.graph);
    if merge.Merged? {
      var merged := grown.(localStaging := Some(merge.head));
      assert merged.(localStaging := Some(start)) == grown;
      assert MarkerAcceptable(merged.graph, Marker(merge.head, start, sources)) by {
        assert forall i | 0 <= i < |sources| :: sources[i] in sources;
      }
      PublishKeeps(merged, start, merge.head, sources, call);
    } else {
      RecordKeeps(grown, grown.degraded, Attempt(ConflictAttempt, None, Some(start), [merge.at]));
    }
    AdvancesTransitive(r, grown, MergeAndPublish(r, start, call).0);
  }

  lemma IntegrateKeeps(r: Repo, call: IntegrateCall)
    requires Inv(r)
    ensures Inv(Integrate(r, call).0) && Advances(r, Integrate(r, call).0)
  {
    ReadyFacts(r, call.place, call.rootClean);
    var (r0, ready) := RootReady(r, call.place, call.rootClean);
    if ready && NamesAcceptable(call.branches) {
      EnsureFacts(r0, call.remediate, call.stagingClean);
      var (r1, found) := EnsureStaging(r0, call.remediate, call.stagingClean);
      AdvancesTransitive(r, r0, r1);
      if found.Some? && SourcesReady(r1, found.value, call) {
        MergeAndPublishKeeps(r1, found.value, call);
        AdvancesTransitive(r, r1, Integrate(r, call).0);
      }
    }
  }

  lemma ReconcileKeeps(r: Repo, call: ReconcileCall)
    requires Inv(r)
    ensures Inv(Reconcile(r, call).0) && Advances(r, Reconcile(r, call).0)
  {
    var (later, cleared) := Reconcile(r, call);
    if call.place.StagingCheckout? {
      ReadyFacts(r, call.place, call.rootClean);
      var (r0, ready) := RootReady(r, call.place, call.rootClean);
      if ready && r0.degraded.Some? && r0.degraded.value.staging == call.commit {
        EnsureFacts(r0, true, call.stagingClean);
        var (r1, found) := EnsureStaging(r0, true, call.stagingClean);
        AdvancesTransitive(r, r0, r1);
        assert Inv(FetchStaging(r1));
        if cleared {
          var marker := r0.degraded.value;
          assert forall s | s in marker.sources :: Precedes(r.graph, s.sha, marker.staging);
          forall i | 0 <= i < |later.attempts| && later.attempts[i].state.GreenAttempt?
            ensures GreenSound(later, later.attempts[i])
          {
            if i < |r1.attempts| { assert GreenSound(r1, r1.attempts[i]); }
          }
        }
      }
    }
  }

  lemma PromoteKeeps(r: Repo, call: PromoteCall)
    requires Inv(r)
    ensures Inv(Promote(r, call).0) && Advances(r, Promote(r, call).0)
  {
    if call.confirm == call.commit {
      ReadyFacts(r, call.place, call.rootClean);
      var (r0, ready) := RootReady(r, call.place, call.rootClean);
      if ready {
        EnsureFacts(r0, false, call.stagingClean);
        var (r1, found) := EnsureStaging(r0, false, call.stagingClean);
        AdvancesTransitive(r, r0, r1);
        if found == Some(call.commit) && GithubRun("staging", call.commit, true, call.ci).Some? {
          ReadyFacts(r1, call.place, call.rootCleanAgain);
          var (r2, readyAgain) := RootReady(r1, call.place, call.rootCleanAgain);
          AdvancesTransitive(r, r1, r2);
          if readyAgain && Synchronized(r2, call.stagingCleanAgain) == Some(call.commit)
             && Precedes(r2.graph, r2.localMaster, call.commit) {
            ReleaseKeeps(r2, GithubRun("staging", call.commit, true, call.ci).value, call);
            AdvancesTransitive(r, r2, Promote(r, call).0);
          }
        }
      }
    }
  }

  // How a release ends: master moves to the commit from the root checkout or
  // stays, and at most the staging ref of the other checkout is reset.
  lemma ReleaseShape(r: Repo, ci: Selected, call: PromoteCall)
    requires r.localMaster == r.trackingMaster == r.remoteMaster
    requires r.localStaging == r.trackingStaging == r.remoteStaging == Some(call.commit)
    ensures var later := Release(MoveHead(r, call.place, call.commit), r.localMaster, ci, call).0;
      && later.localMaster in {r.localMaster, later.remoteMaster}
      && later.trackingMaster in {r.localMaster, later.remoteMaster}
      && later.remoteMaster in {r.remoteMaster, call.commit}
      && later.localStaging in {Some(r.localMaster), Some(call.commit)}
  {
  }

  ghost predicate ReleasedFrom(r: Repo, later: Repo) {
    later == r.(localMaster := later.localMaster, trackingMaster := later.trackingMaster,
                remoteMaster := later.remoteMaster, localStaging := later.localStaging,
                masterDegraded := later.masterDegraded, receipts := later.receipts)
  }

  lemma MoveHeadFrame(base: Repo, r: Repo, place: Place, commit: Commit)
    requires ReleasedFrom(base, r)
    ensures ReleasedFrom(base, MoveHead(r, place, commit))
  {
  }

  lemma ReleaseFrame(base: Repo, r: Repo, masterStart: Commit, ci: Selected, call: PromoteCall)
    requires ReleasedFrom(base, r)
    ensures ReleasedFrom(base, Release(r, masterStart, ci, call).0)
  {
    if !call.push.Accepted? {
      var pushed := if call.push.Unacknowledged? then r.(remoteMaster := r.localMaster) else r;
      MoveHeadFrame(base, pushed, call.place, masterStart);
    }
  }

  lemma ReleaseReceipts(r: Repo, ci: Selected, call: PromoteCall)
    requires r.localStaging == Some(call.commit)
    ensures var later := Release(MoveHead(r, call.place, call.commit), r.localMaster, ci, call).0;
      || later.receipts == r.receipts
      || (later.receipts.Keys == r.receipts.Keys + {call.commit} && later.remoteMaster == call.commit)
  {
  }

  lemma ReleaseKeeps(r: Repo, ci: Selected, call: PromoteCall)
    requires Inv(r) && r.localMaster == r.trackingMaster == r.remoteMaster
    requires r.localStaging == r.trackingStaging == r.remoteStaging == Some(call.commit)
    requires Precedes(r.graph, r.localMaster, call.commit)
    ensures var later := Release(MoveHead(r, call.place, call.commit), r.localMaster, ci, call).0;
      Inv(later) && Advances(r, later)
  {
    var later := Release(MoveHead(r, call.place, call.commit), r.localMaster, ci, call).0;
    ReleaseShape(r, ci, call);
    MoveHeadFrame(r, r, call.place, call.commit);
    ReleaseFrame(r, MoveHead(r, call.place, call.commit), r.localMaster, ci, call);
    ReleaseReceipts(r, ci, call);
    assert Precedes(r.graph, call.commit, call.commit) && Precedes(r.graph, r.remoteMaster, r.remoteMaster);
    forall c | c in later.receipts ensures Precedes(r.graph, c, later.remoteMaster) {
      if c in r.receipts { PrecedesTransitive(r.graph, c, r.remoteMaster, later.remoteMaster); }
    }
    forall i | 0 <= i < |r.attempts| && r.attempts[i].state.GreenAttempt? ensures GreenSound(later, later.attempts[i]) {
      assert GreenSound(r, r.attempts[i]);
    }
  }

  // ---- every run ------------------------------------------------------------------

  lemma CommittingKeeps(r: Repo, step: Step)
    requires Inv(r) && step.Committing?
    ensures Inv(Apply(r, step)) && Advances(r, Apply(r, step))
  {
    if Apply(r, step) != r { GrowthKeepsInv(r, r.graph + [step.parents]); }
  }

  lemma PullingStagingKeeps(r: Repo)
    requires Inv(r)
    ensures Inv(Apply(r, PullingStaging)) && Advances(r, Apply(r, PullingStaging))
  {
    if Apply(r, PullingStaging) != r { StagingForwardKeepsInv(r, Apply(r, PullingStaging)); }
  }

  // Work branches and the local views of master are free to change.
  lemma WorkKeeps(r: Repo, later: Repo)
    requires Inv(r) && InRange(later)
    requires later == r.(work := later.work, localMaster := later.localMaster, trackingMaster := later.trackingMaster)
    requires Precedes(r.graph, later.localMaster, r.remoteMaster)
             && Precedes(r.graph, later.trackingMaster, r.remoteMaster)
    ensures Inv(later) && Advances(r, later)
  {
  }

  lemma ClosingKeeps(r: Repo, call: CloseCall)
    requires Inv(r)
    ensures Inv(Close(r, call).0) && Advances(r, Close(r, call).0)
  {
    WorkKeeps(r, Close(r, call).0);
  }

  lemma WorkingMovesBranch(r: Repo, step: Step)
    requires InRange(r) && step.Working?
    ensures InRange(Apply(r, step)) && Apply(r, step) == r.(work := Apply(r, step).work)
  {
  }

  lemma WorkingKeeps(r: Repo, step: Step)
    requires Inv(r) && step.Working?
    ensures Inv(Apply(r, step)) && Advances(r, Apply(r, step))
  {
    WorkingMovesBranch(r, step);
    WorkKeeps(r, Apply(r, step));
  }

  lemma PullingMasterKeeps(r: Repo)
    requires Inv(r)
    ensures Inv(Apply(r, PullingMaster)) && Advances(r, Apply(r, PullingMaster))
  {
    assert Precedes(r.graph, r.remoteMaster, r.remoteMaster);
    WorkKeeps(r, Apply(r, PullingMaster));
  }

  lemma OutsideKeeps(r: Repo, step: Step)
    requires Inv(r)
    requires step.Closing? || step.Committing? || step.Working? || step.PullingStaging? || step.PullingMaster?
    ensures Inv(Apply(r, step)) && Advances(r, Apply(r, step))
  {
    match step
    case Closing(call) => ClosingKeeps(r, call);
    case Committing(_) => CommittingKeeps(r, step);
    case Working(_, _) => WorkingKeeps(r, step);
    case PullingStaging => PullingStagingKeeps(r);
    case PullingMaster => PullingMasterKeeps(r);
  }

  lemma StepKeeps(r: Repo, step: Step)
    requires Inv(r)
    ensures Inv(Apply(r, step)) && Advances(r, Apply(r, step))
  {
    match step
    case Bootstrapping(call) => BootstrapKeeps(r, call);
    case Integrating(call) => IntegrateKeeps(r, call);
    case Reconciling(call) => ReconcileKeeps(r, call);
    case Promoting(call) => PromoteKeeps(r, call);
    case _ => OutsideKeeps(r, step);
  }

  ghost function After(r: Repo, steps: seq<Step>): (later: Repo)
    requires Inv(r)
    ensures Inv(later)
    decreases |steps|
  {
    if steps == [] then r
    else StepKeeps(r, steps[0]); After(Apply(r, steps[0]), steps[1..])
  }

  // Safety over whole runs: whatever conflicts, push reports and CI verdicts
  // occur, the remote refs only ever move to descendants, master stays an
  // ancestor of staging, and no attempt or receipt is lost.
  lemma {:induction false} RunsAdvance(r: Repo, steps: seq<Step>)
    requires Inv(r)
    ensures Advances(r, After(r, steps))
    ensures var later := After(r, steps);
      later.remoteStaging.Some? ==> Precedes(later.graph, later.remoteMaster, later.remoteStaging.value)
    decreases |steps|
  {
    if steps == [] {
    } else {
      StepKeeps(r, steps[0]);
      RunsAdvance(Apply(r, steps[0]), steps[1..]);
      AdvancesTransitive(r, Apply(r, steps[0]), After(r, steps));
    }
  }
}
