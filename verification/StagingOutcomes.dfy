/**
 When each command of the staging protocol ends in which way, and what exactly it then
 leaves, in terms of the repository and the answers only.
 */
module StagingOutcomes {
  import opened Wrappers
  import opened CommitGraph
  import opened CiEvidence
  import opened Staging
  import opened StagingSafety
  import opened StagingTheorems

  // ---- bootstrap ---------------------------------------------------------------------------

  // From a coordinating checkout with a synchronized, healthy master, at the confirmed
  // commit, with every staging ref that exists there as well.
  predicate MayBootstrap(r: Repo, call: BootstrapCall) {
    && call.rootClean && (call.place.RootMaster? || (call.place.StagingCheckout? && r.checkout))
    && r.localMaster == r.remoteMaster && r.masterDegraded.None?
    && (if call.place.StagingCheckout? then r.localStaging == Some(call.confirm) else r.localMaster == call.confirm)
    && (r.localStaging.Some? ==> r.localStaging.value == call.confirm)
    && (r.remoteStaging.Some? ==> r.remoteStaging.value == call.confirm)
  }

  // Bootstrap succeeds exactly when it may start, the branch is on the host or its push
  // is accepted, and the staging checkout is clean; then all staging refs stand at the
  // confirmed commit and the checkout exists.
  lemma BootstrapIff(r: Repo, call: BootstrapCall)
    requires Inv(r)
    ensures var (later, ok) := Bootstrap(r, call);
      var at, present := Some(call.confirm), r.remoteStaging.Some? || call.push.Accepted?;
      && (ok <==> MayBootstrap(r, call) && present && call.stagingClean)
      && (!MayBootstrap(r, call) ==> OnlyFetched(r, later))
      && (MayBootstrap(r, call) ==>
            later == r.(trackingMaster := r.remoteMaster, localStaging := at,
                        trackingStaging := if present then at else r.trackingStaging,
                        remoteStaging := if present || call.push.Unacknowledged? then at else r.remoteStaging,
                        checkout := r.checkout || present))
  {
  }

  // ---- integrate ---------------------------------------------------------------------------

  // One named branch is frozen: it is in a clean worktree at the commit the host has, its
  // plan is closed, its exact CI passed and, for a remediation, it contains the start.
  ghost predicate Freezable(r: Repo, start: Commit, branch: string, remediate: bool, check: SourceCheck)
    requires InRange(r)
  {
    && branch in r.work && check.clean && check.closed
    && r.work[branch].remote.Some? && r.work[branch].remote.value == r.work[branch].local
    && (remediate ==> Precedes(r.graph, start, r.work[branch].local))
    && GithubRun(branch, r.work[branch].local, false, check.ci).Some?
  }

  predicate HasWorkPrefix(branch: string) {
    exists prefix | prefix in WORK_PREFIXES :: prefix <= branch
  }

  ghost predicate MayIntegrate(r: Repo, call: IntegrateCall)
    requires Inv(r)
  {
    && call.rootClean && (call.place.RootMaster? || (call.place.StagingCheckout? && r.checkout))
    && r.localMaster == r.remoteMaster
    && call.branches != [] && (forall i, j | 0 <= i < j < |call.branches| :: call.branches[i] != call.branches[j])
    && (forall i | 0 <= i < |call.branches| :: HasWorkPrefix(call.branches[i]))
    && r.checkout && call.stagingClean && r.localStaging == r.remoteStaging
    && (r.degraded.Some? ==> call.remediate)
    && (forall i | 0 <= i < |call.branches| ::
          Freezable(r, r.localStaging.value, call.branches[i], call.remediate, call.checks(call.branches[i])))
  }

  lemma IntegrateStartsIff(r: Repo, call: IntegrateCall)
    requires Inv(r)
    ensures MergeStarted(r, call) <==> MayIntegrate(r, call)
    ensures Integrate(r, call).1.IntegrateRefused? <==> !MayIntegrate(r, call)
    ensures !MayIntegrate(r, call) ==> OnlyFetched(r, Integrate(r, call).0)
  {
    StartsIff(r, call);
    IntegrateShape(r, call);
    if MergeStarted(r, call) && MergeResult(r, call).Merged? {
      PublishOutcomes(FetchStaging(FetchMaster(r)).(graph := MergeResult(r, call).graph,
                                                    localStaging := Some(MergeResult(r, call).head)),
                      r.localStaging.value, MergeResult(r, call).head, FrozenSources(r, call), call);
    }
  }

  lemma PrefixIndex(branch: string)
    ensures IsWorkBranch(branch) <==> HasWorkPrefix(branch)
  {
    forall k | 0 <= k < |WORK_PREFIXES| && WORK_PREFIXES[k] <= branch ensures HasWorkPrefix(branch) {
      assert WORK_PREFIXES[k] in WORK_PREFIXES;
    }
    if HasWorkPrefix(branch) {
      var prefix :| prefix in WORK_PREFIXES && prefix <= branch;
      var k :| 0 <= k < |WORK_PREFIXES| && WORK_PREFIXES[k] == prefix;
    }
  }

  lemma StartsIff(r: Repo, call: IntegrateCall)
    requires Inv(r)
    ensures MergeStarted(r, call) <==> MayIntegrate(r, call)
  {
    forall i | 0 <= i < |call.branches|
      ensures IsWorkBranch(call.branches[i]) <==> HasWorkPrefix(call.branches[i])
    {
      PrefixIndex(call.branches[i]);
    }
    if r.localStaging.Some? {
      forall i | 0 <= i < |call.branches|
        ensures SourceReady(r, r.localStaging.value, call.branches[i], call.remediate, call.checks(call.branches[i]))
                <==> Freezable(r, r.localStaging.value, call.branches[i], call.remediate, call.checks(call.branches[i]))
      {
      }
    }
  }

  // The five endings of an integration that started, each with its exact condition and
  // the whole repository it leaves.
  lemma IntegrateEndings(r: Repo, call: IntegrateCall)
    requires Inv(r) && MayIntegrate(r, call)
    ensures MergeStarted(r, call)
    ensures var (later, outcome) := Integrate(r, call);
      var start, merge, sources := r.localStaging, MergeResult(r, call), FrozenSources(r, call);
      var fetched := r.(trackingMaster := r.remoteMaster, trackingStaging := r.remoteStaging, graph := merge.graph);
      if merge.Stopped? then
        && outcome.Conflicted?
        && later == fetched.(attempts := r.attempts + [Attempt(ConflictAttempt, None, start, [merge.at])])
      else
        var head := Some(merge.head);
        var green := GithubRun("staging", merge.head, true, call.ci).Some?;
        var pushed := fetched.(trackingStaging := head, remoteStaging := head,
                               localStaging := if call.cleanOnFailure then head else start);
        if !call.push.Accepted? then
          && outcome.PushFailed?
          && later == fetched.(remoteStaging := if call.push.Unacknowledged? then head else start,
                               attempts := r.attempts + [Attempt(PushFailedAttempt, None, start, sources)])
        else if !green then
          && outcome.Degraded?
          && later == pushed.(degraded := Some(Marker(merge.head, start.value, sources)),
                              attempts := r.attempts + [Attempt(DegradedAttempt, head, None, sources)])
        else if !call.cleanAfterCi then outcome.Unsettled? && later == pushed
        else
          && outcome.Green?
          && later == fetched.(localStaging := head, trackingStaging := head, remoteStaging := head, degraded := None,
                               attempts := r.attempts + [Attempt(GreenAttempt, head, start, sources)])
  {
    StartsIff(r, call);
    IntegrateShape(r, call);
    var merge := MergeResult(r, call);
    if merge.Merged? {
      PublishEndings(FetchStaging(FetchMaster(r)).(graph := merge.graph), r.localStaging.value, merge.head,
                     FrozenSources(r, call), call);
    }
  }

  lemma PublishEndings(r: Repo, start: Commit, head: Commit, sources: seq<Source>, call: IntegrateCall)
    requires r.localStaging == r.trackingStaging == r.remoteStaging == Some(start)
    ensures var (later, outcome) := Publish(r.(localStaging := Some(head)), start, head, sources, call);
      var at := Some(head);
      var pushed := r.(trackingStaging := at, remoteStaging := at,
                       localStaging := if call.cleanOnFailure then at else Some(start));
      if !call.push.Accepted? then
        && outcome.PushFailed?
        && later == r.(remoteStaging := if call.push.Unacknowledged? then at else Some(start),
                       attempts := r.attempts + [Attempt(PushFailedAttempt, None, Some(start), sources)])
      else if GithubRun("staging", head, true, call.ci).None? then
        && outcome.Degraded?
        && later == pushed.(degraded := Some(Marker(head, start, sources)),
                            attempts := r.attempts + [Attempt(DegradedAttempt, at, None, sources)])
      else if !call.cleanAfterCi then outcome.Unsettled? && later == pushed
      else
        && outcome.Green?
        && later == r.(localStaging := at, trackingStaging := at, remoteStaging := at, degraded := None,
                       attempts := r.attempts + [Attempt(GreenAttempt, at, Some(start), sources)])
  {
    var merged := r.(localStaging := Some(head));
    assert merged.(localStaging := Some(start)) == r;
    PublishShape(merged, start, head, sources, call);
    PublishOutcomes(merged, start, head, sources, call);
  }

  // ---- reconcile ---------------------------------------------------------------------------

  // The recorded marker names the commit, has sources on distinct work branches, and its
  // start and sources are in the history of the commit.
  ghost predicate Reconcilable(r: Repo, commit: Commit)
    requires InRange(r)
  {
    && r.degraded.Some? && r.degraded.value.staging == commit && r.degraded.value.sources != []
    && (forall i | 0 <= i < |r.degraded.value.sources| ::
          HasWorkPrefix(r.degraded.value.sources[i].branch)
          && Precedes(r.graph, r.degraded.value.sources[i].sha, commit))
    && (forall i, j | 0 <= i < j < |r.degraded.value.sources| ::
          r.degraded.value.sources[i].branch != r.degraded.value.sources[j].branch)
    && Precedes(r.graph, r.degraded.value.start, commit)
  }

  // Over any repository, whatever was written to its marker: reconcile clears it exactly
  // from the clean, synchronized staging checkout with a synchronized master, on a marker
  // that is good for the commit, when the exact gate is green under a positive run id.
  lemma ReconcileIff(r: Repo, call: ReconcileCall)
    requires InRange(r)
    ensures var (later, cleared) := Reconcile(r, call);
      && (cleared <==>
            && call.place.StagingCheckout? && r.checkout && call.rootClean && r.localMaster == r.remoteMaster
            && r.localStaging == r.remoteStaging == Some(call.commit) && call.stagingClean && call.cleanAfterCi
            && Reconcilable(r, call.commit)
            && GithubRun("staging", call.commit, true, call.ci).Some? && call.ci.run.runId > 0)
      && (!cleared ==> OnlyFetched(r, later))
      && (cleared ==>
            later == r.(trackingMaster := r.remoteMaster, trackingStaging := r.remoteStaging, degraded := None,
                        attempts := r.attempts + [Attempt(GreenAttempt, Some(call.commit), Some(r.degraded.value.start),
                                                          r.degraded.value.sources)]))
  {
    if r.degraded.Some? && r.degraded.value.staging == call.commit { GoodMarker(r, call.commit); }
  }

  lemma GoodMarker(r: Repo, commit: Commit)
    requires InRange(r) && r.degraded.Some? && r.degraded.value.staging == commit
    ensures MarkerAcceptable(r.graph, r.degraded.value) <==> Reconcilable(r, commit)
  {
    var sources := r.degraded.value.sources;
    forall i | 0 <= i < |sources| ensures IsWorkBranch(sources[i].branch) <==> HasWorkPrefix(sources[i].branch) {
      PrefixIndex(sources[i].branch);
    }
  }

  // ---- promote -----------------------------------------------------------------------------

  // From a coordinating checkout that is clean at both checks, with a synchronized
  // master, and the confirmed commit as the clean, synchronized, unmarked staging commit
  // with full-gate evidence.
  ghost predicate MayPromote(r: Repo, call: PromoteCall)
    requires Inv(r)
  {
    && call.confirm == call.commit
    && call.rootClean && call.rootCleanAgain
    && (call.place.RootMaster? || (call.place.StagingCheckout? && r.checkout))
    && r.localMaster == r.remoteMaster
    && r.checkout && call.stagingClean && call.stagingCleanAgain
    && r.localStaging == Some(call.commit) && r.remoteStaging == Some(call.commit) && r.degraded.None?
    && GithubRun("staging", call.commit, true, call.ci).Some?
  }

  // The release check found the exact run on master, under a positive run id.
  ghost predicate ReleaseChecked(call: PromoteCall) {
    GithubRun("master", call.commit, true, call.masterCi).Some? && call.masterCi.run.runId > 0
  }

  // The master that the push sends: the commit from the root checkout; the old master
  // from the staging checkout, where the merge moved staging.
  function Sent(r: Repo, call: PromoteCall): Commit { if call.place.RootMaster? then call.commit else r.localMaster }

  // The receipt of the two runs that were found.
  ghost function ReceiptOf(call: PromoteCall): Receipt
    requires GithubRun("staging", call.commit, true, call.ci).Some? && ReleaseChecked(call)
  {
    PromotionReceipt(call.commit, GithubRun("staging", call.commit, true, call.ci).value,
                     GithubRun("master", call.commit, true, call.masterCi).value)
  }

  // The endings of a promotion, each with its exact condition and the whole repository
  // it leaves: only a failed release check marks master as degraded, and it marks it
  // with the commit that the push has made remote master.
  lemma PromoteEndings(r: Repo, call: PromoteCall)
    requires Inv(r)
    ensures var (later, outcome) := Promote(r, call);
      var fetched := r.(trackingMaster := r.remoteMaster, trackingStaging := r.remoteStaging);
      var sent := Sent(r, call);
      var released := fetched.(localMaster := sent, trackingMaster := sent, remoteMaster := sent);
      if !MayPromote(r, call) then outcome.PromoteRefused? && OnlyFetched(r, later)
      else if !call.push.Accepted? then
        && outcome.MasterPushFailed?
        && later == fetched.(remoteMaster := if call.push.Unacknowledged? then sent else r.remoteMaster,
                             localStaging := if call.place.StagingCheckout? then Some(r.localMaster)
                                             else r.localStaging)
      else if !ReleaseChecked(call) then
        && outcome.ReleaseDegraded? && later == released.(masterDegraded := Some(call.commit))
      else if sent != call.commit then outcome.ReleaseUnsettled? && later == released
      else
        && outcome.Promoted?
        && later == released.(masterDegraded := None, receipts := r.receipts[call.commit := ReceiptOf(call)])
  {
    StartsPromotion(r, call);
    PromoteShape(r, call);
    if MayPromote(r, call) {
      ReleaseEndings(FetchStaging(FetchMaster(r)), GithubRun("staging", call.commit, true, call.ci).value, call);
    }
  }

  lemma StartsPromotion(r: Repo, call: PromoteCall)
    requires Inv(r)
    ensures ReleaseStarted(r, call) <==> MayPromote(r, call)
  {
  }

  lemma MasterRunChecked(call: PromoteCall)
    ensures var masterCi := GithubRun("master", call.commit, true, call.masterCi);
      ReleaseChecked(call) <==>
      masterCi.Some? && PromotionEvidence(masterCi.value, "master", call.commit, MASTER_MODE, [PROVENANCE])
  {
  }

  lemma ReleaseEndings(r: Repo, ci: Selected, call: PromoteCall)
    requires r.localMaster == r.trackingMaster == r.remoteMaster && r.localStaging == Some(call.commit)
    requires !call.place.Elsewhere?
    ensures var (later, outcome) := Release(MoveHead(r, call.place, call.commit), r.localMaster, ci, call);
      var sent := Sent(r, call);
      var released := r.(localMaster := sent, trackingMaster := sent, remoteMaster := sent);
      if !call.push.Accepted? then
        && outcome.MasterPushFailed?
        && later == r.(remoteMaster := if call.push.Unacknowledged? then sent else r.remoteMaster,
                       localStaging := if call.place.StagingCheckout? then Some(r.localMaster) else r.localStaging)
      else if !ReleaseChecked(call) then
        outcome.ReleaseDegraded? && later == released.(masterDegraded := Some(call.commit))
      else if sent != call.commit then outcome.ReleaseUnsettled? && later == released
      else
        && outcome.Promoted?
        && later == released.(masterDegraded := None,
                              receipts := r.receipts[call.commit := PromotionReceipt(call.commit, ci,
                                                     GithubRun("master", call.commit, true, call.masterCi).value)])
  {
    MasterRunChecked(call);
    var moved := MoveHead(r, call.place, call.commit);
    assert moved.localMaster == Sent(r, call);
  }

  // ---- close -------------------------------------------------------------------------------

  // Some recorded attempt is green and lists this branch at the commit its worktree has,
  // and local staging contains the commit.
  ghost predicate Integrated(r: Repo, branch: string)
    requires InRange(r) && branch in r.work
  {
    && (exists i | 0 <= i < |r.attempts| ::
          r.attempts[i].state == GreenAttempt
          && exists k | 0 <= k < |r.attempts[i].sources| ::
               r.attempts[i].sources[k] == Source(branch, r.work[branch].local))
    && r.localStaging.Some? && Ancestor(r.graph, r.work[branch].local, r.localStaging.value)
  }

  // Close removes the worktree exactly when the branch has one that is clean, authorized
  // and stopped, and is integrated; otherwise it fails and changes nothing.  Having
  // removed it, it succeeds exactly when the upstream of the branch or, without one,
  // HEAD contains the commit.
  lemma CloseIff(r: Repo, call: CloseCall)
    requires InRange(r)
    ensures var (later, closed) := Close(r, call);
      if call.branch in r.work && call.clean && call.planAuthorized && call.stopped && Integrated(r, call.branch) then
        && later == r.(work := map b | b in r.work && b != call.branch :: r.work[b])
        && (closed <==>
            var base := if call.upstream.Some? then call.upstream.value else call.head;
            r.work[call.branch].local < |r.graph| && base < |r.graph|
            && Ancestor(r.graph, r.work[call.branch].local, base))
      else (later, closed) == (r, false)
  {
    if call.branch in r.work {
      CoveredBySource(r, call.branch);
      assert r.work - {call.branch} == map b | b in r.work && b != call.branch :: r.work[b];
    }
  }

  lemma CoveredBySource(r: Repo, branch: string)
    requires InRange(r) && branch in r.work
    ensures Integrated(r, branch) <==>
            HasGreenReceipt(r, Source(branch, r.work[branch].local)) && MergedIntoStaging(r, r.work[branch].local)
  {
    var source := Source(branch, r.work[branch].local);
    forall i | 0 <= i < |r.attempts|
      ensures Covers(r.attempts[i], source) <==>
              r.attempts[i].state == GreenAttempt
              && exists k | 0 <= k < |r.attempts[i].sources| :: r.attempts[i].sources[k] == source
    {
    }
  }
}
