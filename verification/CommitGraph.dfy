/**
 The commit graph that the staging workflow moves refs over.

 A commit is the position at which it entered the object store, so its parents
 are all older.  Nothing is ever deleted from the store; a reset or an aborted
 merge only moves refs.
 */
module CommitGraph {
  type Commit = nat

  // The set of parents of every commit.
  type Graph = seq<set<Commit>>

  ghost predicate WellFormed(graph: Graph) {
    forall c, p | 0 <= c < |graph| && p in graph[c] :: p < c
  }

  // git merge-base --is-ancestor: reflexive reachability over parents.
  predicate Ancestor(graph: Graph, older: Commit, newer: Commit)
    requires WellFormed(graph) && newer < |graph|
    decreases newer
  {
    older == newer || exists p | p in graph[newer] :: Ancestor(graph, older, p)
  }

  // A walk from a commit to one of its parents, and so on.
  ghost predicate Walk(graph: Graph, walk: seq<Commit>) {
    && walk != [] && (forall i | 0 <= i < |walk| :: walk[i] < |graph|)
    && forall i | 0 <= i < |walk| - 1 :: walk[i + 1] in graph[walk[i]]
  }

  // The ancestors of a commit are what a walk over parents can reach.
  lemma AncestorIffWalk(graph: Graph, older: Commit, newer: Commit)
    requires WellFormed(graph) && newer < |graph|
    ensures Ancestor(graph, older, newer)
            <==> exists walk :: Walk(graph, walk) && walk[0] == newer && walk[|walk| - 1] == older
  {
    if Ancestor(graph, older, newer) { var _ := WalkTo(graph, older, newer); }
    if exists walk :: Walk(graph, walk) && walk[0] == newer && walk[|walk| - 1] == older {
      var walk :| Walk(graph, walk) && walk[0] == newer && walk[|walk| - 1] == older;
      WalkReachesAncestor(graph, walk);
    }
  }

  lemma {:induction false} WalkTo(graph: Graph, older: Commit, newer: Commit) returns (walk: seq<Commit>)
    requires WellFormed(graph) && newer < |graph| && Ancestor(graph, older, newer)
    ensures Walk(graph, walk) && walk[0] == newer && walk[|walk| - 1] == older
    decreases newer
  {
    if older == newer {
      walk := [newer];
    } else {
      var p :| p in graph[newer] && Ancestor(graph, older, p);
      var rest := WalkTo(graph, older, p);
      walk := [newer] + rest;
    }
  }

  lemma {:induction false} WalkReachesAncestor(graph: Graph, walk: seq<Commit>)
    requires WellFormed(graph) && Walk(graph, walk)
    ensures Ancestor(graph, walk[|walk| - 1], walk[0])
    decreases |walk|
  {
    if |walk| > 1 {
      var rest := walk[1..];
      assert forall i | 0 <= i < |rest| :: rest[i] == walk[i + 1];
      WalkReachesAncestor(graph, rest);
      assert walk[1] in graph[walk[0]];
    }
  }

  // The later graph keeps every commit of the earlier one as it was.
  ghost predicate Grows(graph: Graph, later: Graph) { graph <= later }

  lemma {:induction false} AncestorIsOlder(graph: Graph, older: Commit, newer: Commit)
    requires WellFormed(graph) && newer < |graph| && Ancestor(graph, older, newer)
    ensures older <= newer
    decreases newer
  {
    if older != newer {
      var p :| p in graph[newer] && Ancestor(graph, older, p);
      AncestorIsOlder(graph, older, p);
    }
  }

  lemma {:induction false} AncestorTransitive(graph: Graph, a: Commit, b: Commit, c: Commit)
    requires WellFormed(graph) && b < |graph| && c < |graph|
    requires Ancestor(graph, a, b) && Ancestor(graph, b, c)
    ensures Ancestor(graph, a, c)
    decreases c
  {
    if b != c {
      var p :| p in graph[c] && Ancestor(graph, b, p);
      AncestorTransitive(graph, a, b, p);
    }
  }

  // New commits never change the ancestry of commits that were already there.
  lemma {:induction false} AncestorStable(graph: Graph, later: Graph, older: Commit, newer: Commit)
    requires WellFormed(graph) && WellFormed(later) && Grows(graph, later) && newer < |graph|
    ensures Ancestor(graph, older, newer) <==> Ancestor(later, older, newer)
    decreases newer
  {
    assert graph[newer] == later[newer];
    forall p | p in graph[newer] ensures Ancestor(graph, older, p) <==> Ancestor(later, older, p) {
      AncestorStable(graph, later, older, p);
    }
  }

  // Only its ancestors are what a commit and one of them have in common at best,
  // so "merge-base(start, tip) is start" says exactly that start is an ancestor of tip.
  ghost predicate BestCommon(graph: Graph, a: Commit, b: Commit, base: Commit)
    requires WellFormed(graph) && a < |graph| && b < |graph|
  {
    && Ancestor(graph, base, a) && Ancestor(graph, base, b)
    && forall other | 0 <= other < |graph| && Ancestor(graph, other, a) && Ancestor(graph, other, b)
                      && Ancestor(graph, base, other) :: other == base
  }

  lemma MergeBaseIsStart(graph: Graph, start: Commit, tip: Commit, base: Commit)
    requires WellFormed(graph) && start < |graph| && tip < |graph|
    requires BestCommon(graph, start, tip, base)
    ensures base == start <==> Ancestor(graph, start, tip)
  {
    if Ancestor(graph, start, tip) {
      assert Ancestor(graph, start, start);
    }
  }

  // `older` and `newer` are both stored, and `older` is an ancestor of `newer`.
  predicate Precedes(graph: Graph, older: Commit, newer: Commit)
    requires WellFormed(graph)
  {
    older < |graph| && newer < |graph| && Ancestor(graph, older, newer)
  }

  lemma PrecedesTransitive(graph: Graph, a: Commit, b: Commit, c: Commit)
    requires WellFormed(graph) && Precedes(graph, a, b) && Precedes(graph, b, c)
    ensures Precedes(graph, a, c)
  {
    AncestorTransitive(graph, a, b, c);
  }

  lemma PrecedesAntisymmetric(graph: Graph, a: Commit, b: Commit)
    requires WellFormed(graph) && Precedes(graph, a, b) && Precedes(graph, b, a)
    ensures a == b
  {
    AncestorIsOlder(graph, a, b);
    AncestorIsOlder(graph, b, a);
  }

  lemma PrecedesStable(graph: Graph, later: Graph)
    requires WellFormed(graph) && WellFormed(later) && Grows(graph, later)
    ensures forall a: Commit, b: Commit | b < |graph| :: Precedes(graph, a, b) <==> Precedes(later, a, b)
  {
    forall a: Commit, b: Commit | b < |graph|
      ensures Precedes(graph, a, b) <==> Precedes(later, a, b)
    {
      AncestorStable(graph, later, a, b);
      if Ancestor(graph, a, b) { AncestorIsOlder(graph, a, b); }
    }
  }
}
