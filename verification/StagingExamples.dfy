/**
 Repositories in which the exceptions of the staging protocol happen.
 */
module StagingExamples {
  import opened Wrappers
  import opened CommitGraph
  import opened CiEvidence
  import opened Staging
  import opened StagingSafety
  import opened StagingTheorems
  import opened StagingClose
  import opened StagingMarkers

  // Master and staging at the first commit, and one branch with a commit on top.
  const SAMPLE_GRAPH: Graph := [{}, {0}]

  lemma SampleGraphShape()
    ensures WellFormed(SAMPLE_GRAPH) && |SAMPLE_GRAPH| == 2
    ensures Precedes(SAMPLE_GRAPH, 0, 0) && Precedes(SAMPLE_GRAPH, 1, 1) && Precedes(SAMPLE_GRAPH, 0, 1)
    ensures !Precedes(SAMPLE_GRAPH, 1, 0)
  {
    var g := SAMPLE_GRAPH;
    assert g[1] == {0} && Ancestor(g, 0, 0) && Ancestor(g, 0, 1) && !Ancestor(g, 1, 0);
  }

  // All product jobs passed, and the job that a gate or a branch needs besides.
  function SampleJobs(required: seq<string>): seq<Job> {
    [Passed(PRODUCTS[0]), Passed(PRODUCTS[1]), Passed(PRODUCTS[2])]
    + seq(|required|, i requires 0 <= i < |required| => Passed(required[i]))
  }

  ghost predicate DistinctFrom(required: seq<string>) {
    && (forall i, j | 0 <= i < j < |required| :: required[i] != required[j])
    && (forall i, k | 0 <= i < |required| && 0 <= k < |PRODUCTS| :: required[i] != PRODUCTS[k])
  }

  lemma ProductNamesDiffer()
    ensures forall i, j | 0 <= i < j < |PRODUCTS| :: PRODUCTS[i] != PRODUCTS[j]
  {
    assert PRODUCTS[0][0] != PRODUCTS[1][0] && PRODUCTS[0][0] != PRODUCTS[2][0] && PRODUCTS[1][0] != PRODUCTS[2][0];
  }

  lemma SampleJobsPass(required: seq<string>)
    requires DistinctFrom(required)
    ensures ProductsAll(SampleJobs(required), "success")
    ensures forall i | 0 <= i < |required| :: Sole(SampleJobs(required), Passed(required[i]))
  {
    forall k | 0 <= k < |PRODUCTS| ensures Sole(SampleJobs(required), Passed(PRODUCTS[k])) {
      SampleProductPasses(required, k);
    }
    forall i | 0 <= i < |required| ensures Sole(SampleJobs(required), Passed(required[i])) {
      SampleRequiredPasses(required, i);
    }
  }

  lemma SampleProductPasses(required: seq<string>, k: nat)
    requires DistinctFrom(required) && k < |PRODUCTS|
    ensures Sole(SampleJobs(required), Passed(PRODUCTS[k]))
  {
    ProductNamesDiffer();
    assert SampleJobs(required)[k] == Passed(PRODUCTS[k]);
  }

  lemma SampleRequiredPasses(required: seq<string>, i: nat)
    requires DistinctFrom(required) && i < |required|
    ensures Sole(SampleJobs(required), Passed(required[i]))
  {
    assert SampleJobs(required)[3 + i] == Passed(required[i]);
  }

  lemma GateIsDistinct()
    ensures DistinctFrom([GATE])
  {
    assert |GATE| == 27 && |PRODUCTS[0]| == 13 && |PRODUCTS[1]| == 19 && |PRODUCTS[2]| == 22;
  }

  lemma BranchJobsAreDistinct()
    ensures DistinctFrom([SCOPE, DECLARED])
  {
    assert |SCOPE| == 29 && |DECLARED| == 21 && |PRODUCTS[0]| == 13 && |PRODUCTS[1]| == 19 && |PRODUCTS[2]| == 22;
  }

  function SampleRun(branch: string, sha: Commit): CiRun {
    CiRun(7, sha, branch, "push", CI_WORKFLOW, 3, "completed", "success")
  }

  lemma SampleGatePasses(sha: Commit)
    ensures GithubRun("staging", sha, true, Observed(SampleRun("staging", sha), SampleJobs([GATE]))).Some?
  {
    GateIsDistinct();
    SampleJobsPass([GATE]);
    var jobs := SampleJobs([GATE]);
    assert [GATE][0] == GATE;
    assert |SCOPE| == 29 && |GATE| == 27 && |PRODUCTS[0]| == 13 && |PRODUCTS[1]| == 19 && |PRODUCTS[2]| == 22;
    assert Absent(jobs, SCOPE);
    assert FullGate(jobs);
  }

  lemma SampleBranchPasses(sha: Commit)
    ensures GithubRun("feat/a", sha, false, Observed(SampleRun("feat/a", sha), SampleJobs([SCOPE, DECLARED]))).Some?
  {
    BranchJobsAreDistinct();
    SampleJobsPass([SCOPE, DECLARED]);
    assert [SCOPE, DECLARED][0] == SCOPE && [SCOPE, DECLARED][1] == DECLARED;
  }

  // ---- a promotion that uncovers a green branch ---------------------------------------

  const SOURCE := Source("feat/a", 1)

  // Staging holds the branch, with a green receipt; master does not.
  const INTEGRATED := Repo(
    SAMPLE_GRAPH, 0, 0, 0, Some(1), Some(1), Some(1), true, map["feat/a" := WorkBranch(1, Some(1))],
    None, None, [Attempt(GreenAttempt, Some(1), Some(0), [SOURCE])], map[])

  lemma IntegratedIsSound()
    ensures Inv(INTEGRATED) && Covered(INTEGRATED) && HasGreenReceipt(INTEGRATED, SOURCE)
  {
    SampleGraphShape();
    assert GreenSound(INTEGRATED, INTEGRATED.attempts[0]);
    assert Covers(INTEGRATED.attempts[0], SOURCE);
  }

  // A green branch is no longer closable after a promotion from the staging checkout
  // whose push is declined.
  lemma CarelessPromotionUncovers() returns (call: PromoteCall)
    ensures Inv(INTEGRATED) && Covered(INTEGRATED) && HasGreenReceipt(INTEGRATED, SOURCE)
    ensures Uncovers(INTEGRATED, Promoting(call))
    ensures WellFormed(Promote(INTEGRATED, call).0.graph) && !MergedIntoStaging(Promote(INTEGRATED, call).0, 1)
  {
    call := PromoteCall(StagingCheckout, 1, 1, true, true, Observed(SampleRun("staging", 1), SampleJobs([GATE])),
                        true, true, Declined, Unavailable);
    SampleGraphShape();
    IntegratedIsSound();
    SampleGatePasses(1);
    assert INTEGRATED.attempts[0].state.GreenAttempt?;
    PromotionKeepsAttempts(INTEGRATED, call);
    PromotionPlacesStaging(INTEGRATED, call);
  }

  // The same promotion one commit further, when master already has the branch: the
  // reset drops the commit of another green receipt, and the branch stays closable.
  const TWO_COMMITS: Graph := [{}, {0}, {1}]

  const OTHER := Source("feat/b", 2)

  const HALF_PROMOTED := Repo(
    TWO_COMMITS, 1, 1, 1, Some(2), Some(2), Some(2), true,
    map["feat/a" := WorkBranch(1, Some(1)), "feat/b" := WorkBranch(2, Some(2))], None, None,
    [Attempt(GreenAttempt, Some(1), Some(0), [SOURCE]), Attempt(GreenAttempt, Some(2), Some(1), [OTHER])], map[])

  lemma TwoCommitsShape()
    ensures WellFormed(TWO_COMMITS) && |TWO_COMMITS| == 3
    ensures Precedes(TWO_COMMITS, 1, 1) && Precedes(TWO_COMMITS, 2, 2) && Precedes(TWO_COMMITS, 1, 2)
    ensures !Precedes(TWO_COMMITS, 2, 1)
  {
    var g := TWO_COMMITS;
    assert g[1] == {0} && g[2] == {1} && Ancestor(g, 1, 1) && Ancestor(g, 1, 2);
    if Ancestor(g, 2, 1) { AncestorIsOlder(g, 2, 1); }
  }

  lemma HalfPromotedIsSound()
    ensures Inv(HALF_PROMOTED) && Covered(HALF_PROMOTED)
    ensures Closable(HALF_PROMOTED, SOURCE) && Closable(HALF_PROMOTED, OTHER)
  {
    TwoCommitsShape();
    assert Covers(HALF_PROMOTED.attempts[0], SOURCE) && Covers(HALF_PROMOTED.attempts[1], OTHER);
    assert GreenSound(HALF_PROMOTED, HALF_PROMOTED.attempts[0]);
    assert GreenSound(HALF_PROMOTED, HALF_PROMOTED.attempts[1]);
  }

  function HalfPromotion(): PromoteCall {
    PromoteCall(StagingCheckout, 2, 2, true, true, Observed(SampleRun("staging", 2), SampleJobs([GATE])),
                true, true, Declined, Unavailable)
  }

  lemma HalfPromotedResets()
    ensures Inv(HALF_PROMOTED) && ResetsStaging(HALF_PROMOTED, HalfPromotion())
  {
    TwoCommitsShape();
    HalfPromotedIsSound();
    SampleGatePasses(2);
  }

  lemma HalfPromotedDrops(commit: Commit)
    requires commit == 1 || commit == 2
    ensures Inv(HALF_PROMOTED) && (Drops(HALF_PROMOTED, Promoting(HalfPromotion()), commit) <==> commit == 2)
  {
    TwoCommitsShape();
    HalfPromotedResets();
  }

  lemma ClosableUnlessDropped(r: Repo, step: Step, source: Source)
    requires Inv(r) && Closable(r, source)
    ensures Inv(Apply(r, step))
    ensures Closable(Apply(r, step), source) <==> !Drops(r, step, source.sha)
  {
    StepKeepsMergedIff(r, step, source.sha);
    ReceiptStays(r, step, source);
  }

  lemma DroppedReceiptUncovers(r: Repo, step: Step, i: nat)
    requires Inv(r) && i < |r.attempts| && r.attempts[i].state.GreenAttempt? && r.attempts[i].staging.Some?
    requires Drops(r, step, r.attempts[i].staging.value)
    ensures Uncovers(r, step)
  {
  }

  lemma ResetDropsOneBranchOnly()
    ensures Inv(HALF_PROMOTED) && Closable(HALF_PROMOTED, SOURCE) && Closable(HALF_PROMOTED, OTHER)
    ensures var step := Promoting(HalfPromotion());
      && Uncovers(HALF_PROMOTED, step) && Inv(Apply(HALF_PROMOTED, step))
      && Closable(Apply(HALF_PROMOTED, step), SOURCE) && !Closable(Apply(HALF_PROMOTED, step), OTHER)
  {
    HalfPromotedIsSound();
    HalfPromotedDrops(SOURCE.sha);
    HalfPromotedDrops(OTHER.sha);
    ClosableUnlessDropped(HALF_PROMOTED, Promoting(HalfPromotion()), SOURCE);
    ClosableUnlessDropped(HALF_PROMOTED, Promoting(HalfPromotion()), OTHER);
    DroppedReceiptUncovers(HALF_PROMOTED, Promoting(HalfPromotion()), 1);
  }

  // ---- integrations that are neither undone nor done ------------------------------------

  // The branch is pushed and staging is still behind it.
  const PENDING := Repo(
    SAMPLE_GRAPH, 0, 0, 0, Some(0), Some(0), Some(0), true, map["feat/a" := WorkBranch(1, Some(1))],
    None, None, [], map[])

  lemma PendingIsSound()
    ensures Inv(PENDING)
  {
    SampleGraphShape();
  }

  function Integrating(push: Push, clean: bool): IntegrateCall {
    IntegrateCall(RootMaster, true, ["feat/a"], false, true,
                  _ => SourceCheck(true, true, Observed(SampleRun("feat/a", 1), SampleJobs([SCOPE, DECLARED]))),
                  _ => false, push, Unavailable, true, clean)
  }

  lemma FeatureIsWorkBranch()
    ensures IsWorkBranch("feat/a")
  {
    assert WORK_PREFIXES[0] == "feat/" && "feat/" <= "feat/a";
  }

  lemma IntegratingStarts(push: Push, clean: bool)
    ensures Inv(PENDING) && MergeStarted(PENDING, Integrating(push, clean))
    ensures FrozenSources(PENDING, Integrating(push, clean)) == [SOURCE]
  {
    var call := Integrating(push, clean);
    PendingIsSound();
    SampleBranchPasses(1);
    FeatureIsWorkBranch();
    assert SourceReady(PENDING, 0, "feat/a", false, call.checks("feat/a"));
    assert SourcesReady(PENDING, 0, call);
    assert FrozenSources(PENDING, call) == Frozen(PENDING, call.branches);
  }

  lemma IntegratingMerges(push: Push, clean: bool)
    ensures Inv(PENDING) && MergeStarted(PENDING, Integrating(push, clean))
    ensures MergeResult(PENDING, Integrating(push, clean)) == Merged([{}, {0}, {0, 1}], 2)
  {
    var call := Integrating(push, clean);
    IntegratingStarts(push, clean);
    SampleGraphShape();
    OneMerge(SAMPLE_GRAPH, 0, SOURCE, call.conflicts);
    assert SAMPLE_GRAPH + [{0, 1}] == [{}, {0}, {0, 1}];
  }

  lemma OneMerge(graph: Graph, head: Commit, source: Source, conflicts: string -> bool)
    requires WellFormed(graph) && head < |graph| && source.sha < |graph|
    requires !Precedes(graph, source.sha, head) && !conflicts(source.branch)
    ensures MergeAll(graph, head, [source], conflicts) == Merged(graph + [{head, source.sha}], |graph|)
  {
    assert [source][1..] == [];
  }

  // The push reached the host, but the command saw a failure and reset staging: the
  // remote holds a merged commit that is neither green nor named by a marker.
  lemma UnacknowledgedPushSplits()
    ensures var later := Integrate(PENDING, Integrating(Unacknowledged, true)).0;
      later.localStaging == Some(0) && later.remoteStaging == Some(2) && later.degraded.None?
  {
    var call := Integrating(Unacknowledged, true);
    IntegratingMerges(Unacknowledged, true);
    IntegrateShape(PENDING, call);
    var merge := MergeResult(PENDING, call);
    PublishOutcomes(FetchStaging(FetchMaster(PENDING)).(graph := merge.graph, localStaging := Some(merge.head)),
                    0, merge.head, FrozenSources(PENDING, call), call);
  }

  // The watch failed and the handler found the checkout dirty: staging is reset
  // behind the pushed commit, which the marker names.
  lemma DirtyFailureSplits()
    ensures var later := Integrate(PENDING, Integrating(Accepted, false)).0;
      later.localStaging == Some(0) && later.remoteStaging == Some(2)
      && later.degraded == Some(Marker(2, 0, [SOURCE]))
  {
    var call := Integrating(Accepted, false);
    IntegratingMerges(Accepted, false);
    IntegratingStarts(Accepted, false);
    IntegrateShape(PENDING, call);
    var merge := MergeResult(PENDING, call);
    PublishOutcomes(FetchStaging(FetchMaster(PENDING)).(graph := merge.graph, localStaging := Some(merge.head)),
                    0, merge.head, FrozenSources(PENDING, call), call);
  }

  // ---- a marker that no reconciliation can clear ---------------------------------------------

  // Staging is degraded at the first commit, and the remediation is pushed.
  const DEGRADED := PENDING.(degraded := Some(Marker(0, 0, [Source("feat/x", 0)])))

  function Remediating(): IntegrateCall { Integrating(Unacknowledged, true).(remediate := true) }

  lemma DegradedIsSound()
    ensures Inv(DEGRADED) && !Stranded(DEGRADED)
  {
    SampleGraphShape();
    PendingIsSound();
    assert WORK_PREFIXES[0] == "feat/" && "feat/" <= "feat/x";
    assert MarkerAcceptable(SAMPLE_GRAPH, DEGRADED.degraded.value);
  }

  lemma RemediatingMerges()
    ensures Inv(DEGRADED) && MergeStarted(DEGRADED, Remediating())
    ensures MergeResult(DEGRADED, Remediating()) == Merged([{}, {0}, {0, 1}], 2)
  {
    var call := Remediating();
    DegradedIsSound();
    SampleGraphShape();
    SampleBranchPasses(1);
    FeatureIsWorkBranch();
    assert SourceReady(DEGRADED, 0, "feat/a", true, call.checks("feat/a"));
    assert SourcesReady(DEGRADED, 0, call);
    assert FrozenSources(DEGRADED, call) == Frozen(DEGRADED, call.branches) == [SOURCE];
    OneMerge(SAMPLE_GRAPH, 0, SOURCE, call.conflicts);
    assert SAMPLE_GRAPH + [{0, 1}] == [{}, {0}, {0, 1}];
  }

  // The remediation's push reached the host without being acknowledged: the old marker
  // stays, remote staging is past the commit it names, and from then on no run without
  // another settled integration clears it.
  lemma RemediationStrandsMarker(rest: seq<Step>)
    ensures Inv(DEGRADED) && Inv(Integrate(DEGRADED, Remediating()).0)
    ensures var later := Integrate(DEGRADED, Remediating()).0;
      && later.degraded == DEGRADED.degraded && Stranded(later)
      && (NeverSettles(later, rest) ==> After(later, rest).degraded == DEGRADED.degraded)
  {
    RemediatingMerges();
    var step := Step.Integrating(Remediating());
    assert Strands(DEGRADED, step);
    StepKeeps(DEGRADED, step);
    StrandsIff(DEGRADED, step);
    StepMarks(DEGRADED, step);
    StrandedUntilSettled(Integrate(DEGRADED, Remediating()).0, rest);
  }
}
