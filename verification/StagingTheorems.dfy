/**
 The promises of the staging protocol, one command at a time and over runs.
 */
module StagingTheorems {
  import opened Wrappers
  import opened CommitGraph
  import opened CiEvidence
  import opened Staging
  import opened StagingSafety

  // Equal up to what a fetch may refresh.
  ghost predicate OnlyFetched(r: Repo, later: Repo) {
    later == r.(trackingMaster := later.trackingMaster, trackingStaging := later.trackingStaging)
  }

  // ---- integrate: all or nothing --------------------------------------------------

  // The integration got as far as merging.
  ghost predicate MergeStarted(r: Repo, call: IntegrateCall)
    requires Inv(r)
  {
    && MayCoordinate(r, call.place, call.rootClean) && r.localMaster == r.remoteMaster
    && NamesAcceptable(call.branches)
    && r.checkout && call.stagingClean && r.localStaging == r.remoteStaging
    && (r.degraded.Some? ==> call.remediate)
    && SourcesReady(r, r.localStaging.value, call)
  }

  ghost function FrozenSources(r: Repo, call: IntegrateCall): (sources: seq<Source>)
    requires Inv(r) && MergeStarted(r, call)
    ensures forall s | s in sources :: s.sha < |r.graph|
  {
    FrozenFacts(r, r.localStaging.value, call);
    assert forall i | 0 <= i < |call.branches| ::
        SourceReady(r, r.localStaging.value, call.branches[i], call.remediate, call.checks(call.branches[i]));
    Frozen(r, call.branches)
  }

  ghost function MergeResult(r: Repo, call: IntegrateCall): Merge
    requires Inv(r) && MergeStarted(r, call)
  {
    MergeAll(r.graph, r.localStaging.value, FrozenSources(r, call), call.conflicts)
  }

  ghost predicate StagingAt(r: Repo, later: Repo, commit: Commit) {
    later.localStaging == later.remoteStaging == Some(commit)
  }

  lemma SourcesReadyFetched(r: Repo, fetched: Repo, start: Commit, call: IntegrateCall)
    requires Inv(r) && Inv(fetched) && OnlyFetched(r, fetched)
    ensures SourcesReady(r, start, call) <==> SourcesReady(fetched, start, call)
  {
    forall i | 0 <= i < |call.branches|
      ensures SourceReady(r, start, call.branches[i], call.remediate, call.checks(call.branches[i]))
              <==> SourceReady(fetched, start, call.branches[i], call.remediate, call.checks(call.branches[i]))
    {
    }
  }

  // An integration that never merged changed nothing; a conflict restores the
  // start; otherwise the whole merged head is published or given up.
  lemma IntegrateShape(r: Repo, call: IntegrateCall)
    requires Inv(r)
    ensures var (later, outcome) := Integrate(r, call);
      if !MergeStarted(r, call) then outcome.IntegrateRefused? && OnlyFetched(r, later)
      else
        var merge := MergeResult(r, call);
        var fetched := FetchStaging(FetchMaster(r));
        if merge.Stopped? then
          && outcome.Conflicted?
          && later == fetched.(graph := merge.graph,
                               attempts := r.attempts + [Attempt(ConflictAttempt, None, r.localStaging, [merge.at])])
        else
          (later, outcome) == Publish(fetched.(graph := merge.graph, localStaging := Some(merge.head)),
                                      r.localStaging.value, merge.head, FrozenSources(r, call), call)
  {
    ReadyFacts(r, call.place, call.rootClean);
    var (r0, ready) := RootReady(r, call.place, call.rootClean);
    if ready && NamesAcceptable(call.branches) {
      EnsureFacts(r0, call.remediate, call.stagingClean);
      var (r1, found) := EnsureStaging(r0, call.remediate, call.stagingClean);
      if found.Some? {
        SourcesReadyFetched(r, r1, found.value, call);
        if SourcesReady(r, found.value, call) {
          assert r1 == FetchStaging(FetchMaster(r));
          assert MergeStarted(r, call);
          assert Frozen(r1, call.branches) == FrozenSources(r, call);
        }
      }
    }
  }

  // Every integration leaves staging either where it started, with the remote
  // untouched, or at one pushed commit that is green or named by the marker,
  // except in the two cases the caller can see coming: the push went through
  // without being acknowledged, or a failure found the checkout dirty and reset
  // it behind the pushed commit.
  lemma IntegrateAllOrNothing(r: Repo, call: IntegrateCall)
    requires Inv(r) && MergeStarted(r, call)
    ensures var later := Integrate(r, call).0;
      var start, merge := r.localStaging.value, MergeResult(r, call);
      ((StagingAt(r, later, start) && later.degraded == r.degraded)
       || (merge.Merged? && StagingAt(r, later, merge.head)
           && ((later.degraded.Some? && later.degraded.value.staging == merge.head)
               || GithubRun("staging", merge.head, true, call.ci).Some?)))
      <==> (merge.Stopped? || merge.head == start || call.push.Declined?
            || (call.push.Accepted?
                && (call.cleanOnFailure
                    || (call.cleanAfterCi && GithubRun("staging", merge.head, true, call.ci).Some?))))
  {
    IntegrateShape(r, call);
    var merge := MergeResult(r, call);
    if merge.Merged? {
      var merged := FetchStaging(FetchMaster(r)).(graph := merge.graph, localStaging := Some(merge.head));
      PublishOutcomes(merged, r.localStaging.value, merge.head, FrozenSources(r, call), call);
    }
  }

  // The four ways publishing ends, with the answers that lead to each.
  lemma PublishOutcomes(r: Repo, start: Commit, head: Commit, sources: seq<Source>, call: IntegrateCall)
    requires r.localStaging == Some(head) && r.trackingStaging == r.remoteStaging == Some(start)
    ensures var (later, outcome) := Publish(r, start, head, sources, call);
      && (outcome.PushFailed? <==> !call.push.Accepted?)
      && (outcome.PushFailed? ==>
            && later.localStaging == Some(start) && later.degraded == r.degraded
            && later.remoteStaging == Some(if call.push.Unacknowledged? then head else start))
      && (call.push.Accepted? ==> later.remoteStaging == Some(head))
      && (outcome.Degraded? <==> call.push.Accepted? && GithubRun("staging", head, true, call.ci).None?)
      && (outcome.Unsettled? <==>
            call.push.Accepted? && !call.cleanAfterCi && GithubRun("staging", head, true, call.ci).Some?)
      && (outcome.Degraded? ==>
            && GithubRun("staging", head, true, call.ci).None? && later.degraded == Some(Marker(head, start, sources))
            && later.localStaging == Some(if call.cleanOnFailure then head else start))
      && (outcome.Unsettled? ==>
            && FullGate(call.ci.jobs) && later.degraded == r.degraded && !call.cleanAfterCi
            && later.localStaging == Some(if call.cleanOnFailure then head else start))
      && (outcome.Green? <==>
            call.push.Accepted? && call.cleanAfterCi && GithubRun("staging", head, true, call.ci).Some?)
      && (outcome.Green? ==>
            && FullGate(call.ci.jobs) && later.degraded.None? && later.localStaging == Some(head)
            && later.attempts == r.attempts + [Attempt(GreenAttempt, Some(head), Some(start), sources)])
      && outcome in {PushFailed, Degraded, Unsettled, Green}
  {
  }

  lemma SourcesAreBranches(r: Repo, call: IntegrateCall, c: Commit)
    requires Inv(r) && MergeStarted(r, call)
    ensures (exists s | s in FrozenSources(r, call) :: Precedes(r.graph, c, s.sha)) <==>
            exists i | 0 <= i < |call.branches| ::
              call.branches[i] in r.work && Precedes(r.graph, c, r.work[call.branches[i]].local)
  {
    var sources := FrozenSources(r, call);
    forall i | 0 <= i < |call.branches| ensures sources[i] == Source(call.branches[i], r.work[call.branches[i]].local) {
      assert SourceReady(r, r.localStaging.value, call.branches[i], call.remediate, call.checks(call.branches[i]));
    }
    assert forall s | s in sources :: exists i | 0 <= i < |call.branches| :: s == sources[i];
    assert forall i | 0 <= i < |call.branches| :: sources[i] in sources;
  }

  lemma IntegrationKeepsMergedGraph(r: Repo, call: IntegrateCall)
    requires Inv(r) && MergeStarted(r, call)
    ensures Integrate(r, call).0.graph == MergeResult(r, call).graph
  {
    IntegrateShape(r, call);
    var merge := MergeResult(r, call);
    if merge.Merged? {
      PublishShape(FetchStaging(FetchMaster(r)).(graph := merge.graph, localStaging := Some(merge.head)),
                   r.localStaging.value, merge.head, FrozenSources(r, call), call);
    }
  }

  // What a published head contains: exactly the history of the start and of all
  // named sources, each frozen at its checked commit.
  lemma PublishedHistory(r: Repo, call: IntegrateCall, c: Commit)
    requires Inv(r) && MergeStarted(r, call) && MergeResult(r, call).Merged? && c < |r.graph|
    ensures var later := Integrate(r, call).0;
      var head := MergeResult(r, call).head;
      && WellFormed(later.graph) && |r.graph| <= |later.graph| && head < |later.graph|
      && (Precedes(later.graph, c, head)
          <==> Precedes(r.graph, c, r.localStaging.value)
               || exists i | 0 <= i < |call.branches| ::
                    call.branches[i] in r.work && Precedes(r.graph, c, r.work[call.branches[i]].local))
  {
    IntegrationKeepsMergedGraph(r, call);
    MergeHoldsExactly(r.graph, r.localStaging.value, FrozenSources(r, call), call.conflicts);
    SourcesAreBranches(r, call, c);
  }

  // ---- reconcile: recovery is complete and safe --------------------------------------

  // Reconciliation never moves a ref.  It clears the marker exactly when the
  // marker names the current synchronized staging commit and hosted CI shows the
  // full gate on it under a positive run id: no check on the recorded start and
  // sources can get in the way, whatever run led here.
  lemma ReconcileExact(r: Repo, call: ReconcileCall)
    requires Inv(r)
    ensures var (later, cleared) := Reconcile(r, call);
      var ci := GithubRun("staging", call.commit, true, call.ci);
      && (cleared <==>
            && call.place.StagingCheckout? && r.checkout && call.rootClean && r.localMaster == r.remoteMaster
            && r.degraded.Some? && r.degraded.value.staging == call.commit
            && r.localStaging == r.remoteStaging == Some(call.commit)
            && call.stagingClean && call.cleanAfterCi
            && ci.Some? && ci.value.run.runId > 0)
      && (!cleared ==> OnlyFetched(r, later))
      && (cleared ==>
            && OnlyFetched(r, later.(degraded := r.degraded, attempts := r.attempts))
            && later.degraded.None? && FullGate(call.ci.jobs)
            && later.attempts == r.attempts + [Attempt(GreenAttempt, Some(call.commit), Some(r.degraded.value.start),
                                                       r.degraded.value.sources)])
  {
    if call.place.StagingCheckout? {
      ReadyFacts(r, call.place, call.rootClean);
      var (r0, ready) := RootReady(r, call.place, call.rootClean);
      if ready && r0.degraded.Some? && r0.degraded.value.staging == call.commit {
        EnsureFacts(r0, true, call.stagingClean);
      }
    }
  }

  // A failed watch leaves the marker, and remote staging where the marker says.
  lemma DegradedShape(r: Repo, call: IntegrateCall)
    requires Inv(r) && Integrate(r, call).1.Degraded?
    ensures MergeStarted(r, call) && MergeResult(r, call).Merged?
    ensures var failed, head := Integrate(r, call).0, MergeResult(r, call).head;
      && failed.checkout && failed.localMaster == r.localMaster && failed.remoteMaster == r.remoteMaster
      && failed.remoteStaging == Some(head) && failed.degraded.Some? && failed.degraded.value.staging == head
      && failed.localStaging == (if call.cleanOnFailure then Some(head) else r.localStaging)
  {
    IntegrateShape(r, call);
    var merge := MergeResult(r, call);
    var merged := FetchStaging(FetchMaster(r)).(graph := merge.graph, localStaging := Some(merge.head));
    PublishOutcomes(merged, r.localStaging.value, merge.head, FrozenSources(r, call), call);
    PublishShape(merged, r.localStaging.value, merge.head, FrozenSources(r, call), call);
  }

  // The call that recovers from the marker of a repository, once CI answers.
  function Recovery(r: Repo, ci: Answer): ReconcileCall
    requires r.degraded.Some?
  {
    ReconcileCall(StagingCheckout, true, r.degraded.value.staging, true, ci, true)
  }

  // A failed watch is always recoverable: once local staging is pulled, the marker an
  // integration just wrote is cleared as soon as exact CI turns green, whether or not
  // the failure had reset a dirty checkout, and even after any further run that
  // leaves both staging refs and the marker alone.
  lemma DegradedIsRecoverable(r: Repo, call: IntegrateCall, steps: seq<Step>, ci: Answer)
    requires Inv(r) && Integrate(r, call).1.Degraded? && Inv(Integrate(r, call).0)
    requires Inv(Apply(Integrate(r, call).0, PullingStaging))
    requires var pulled := Apply(Integrate(r, call).0, PullingStaging);
      var later := After(pulled, steps);
      && later.degraded == pulled.degraded && later.checkout && later.localMaster == later.remoteMaster
      && later.localStaging == pulled.localStaging && later.remoteStaging == pulled.remoteStaging
    requires var marker := Integrate(r, call).0.degraded;
      && marker.Some? && GithubRun("staging", marker.value.staging, true, ci).Some? && ci.run.runId > 0
    ensures var later := After(Apply(Integrate(r, call).0, PullingStaging), steps);
      later.degraded.Some? && Reconcile(later, Recovery(later, ci)).1
  {
    var failed := Integrate(r, call).0;
    DegradedShape(r, call);
    PulledStagesMarker(r, call);
    var later := After(Apply(failed, PullingStaging), steps);
    ReconcileExact(later, Recovery(later, ci));
  }

  lemma PulledStagesMarker(r: Repo, call: IntegrateCall)
    requires Inv(r) && Integrate(r, call).1.Degraded? && Inv(Integrate(r, call).0)
    ensures var failed := Integrate(r, call).0;
      var pulled := Apply(failed, PullingStaging);
      && pulled.degraded == failed.degraded && failed.degraded.Some?
      && pulled.localStaging == pulled.remoteStaging == Some(failed.degraded.value.staging)
  {
    DegradedShape(r, call);
    StartPrecedesMerge(r, call);
    IntegrationKeepsMergedGraph(r, call);
    var merge := MergeResult(r, call);
    assert Precedes(merge.graph, merge.head, merge.head);
    PullReachesRemote(Integrate(r, call).0);
  }

  lemma StartPrecedesMerge(r: Repo, call: IntegrateCall)
    requires Inv(r) && MergeStarted(r, call) && MergeResult(r, call).Merged?
    ensures var merge := MergeResult(r, call);
      && WellFormed(merge.graph) && merge.head < |merge.graph|
      && Precedes(merge.graph, r.localStaging.value, merge.head)
  {
    MergeContainsAll(r.graph, r.localStaging.value, FrozenSources(r, call), call.conflicts);
  }

  lemma PullReachesRemote(r: Repo)
    requires InRange(r) && r.localStaging.Some? && r.remoteStaging.Some?
    requires Precedes(r.graph, r.localStaging.value, r.remoteStaging.value)
    ensures var pulled := Apply(r, PullingStaging);
      pulled.degraded == r.degraded && pulled.localStaging == pulled.remoteStaging == r.remoteStaging
  {
  }

  // ---- promote: what a new master value means -------------------------------------------

  lemma IntegrateFrame(r: Repo, call: IntegrateCall)
    requires Inv(r)
    ensures var later := Integrate(r, call).0;
      later.remoteMaster == r.remoteMaster && later.receipts == r.receipts
  {
    IntegrateShape(r, call);
    if MergeStarted(r, call) {
      var merge := MergeResult(r, call);
      if merge.Merged? {
        PublishShape(FetchStaging(FetchMaster(r)).(graph := merge.graph, localStaging := Some(merge.head)),
                     r.localStaging.value, merge.head, FrozenSources(r, call), call);
      }
    }
  }

  lemma BootstrapReleasesNothing(r: Repo, call: BootstrapCall)
    ensures Bootstrap(r, call).0.remoteMaster == r.remoteMaster && Bootstrap(r, call).0.receipts == r.receipts
  {
  }

  lemma OutsideReleasesNothing(r: Repo, step: Step)
    requires Inv(r)
    requires step.Closing? || step.Committing? || step.Working? || step.PullingStaging? || step.PullingMaster?
    ensures Apply(r, step).remoteMaster == r.remoteMaster && Apply(r, step).receipts == r.receipts
  {
    if step.Working? { WorkingMovesBranch(r, step); }
  }

  // Only a promotion touches remote master or the receipts.
  lemma OnlyPromotionReleases(r: Repo, step: Step)
    requires Inv(r) && !step.Promoting?
    ensures Apply(r, step).remoteMaster == r.remoteMaster && Apply(r, step).receipts == r.receipts
  {
    if step.Integrating? {
      IntegrateFrame(r, step.integrate);
    } else if step.Reconciling? {
      ReconcileExact(r, step.reconcile);
    } else if step.Bootstrapping? {
      BootstrapReleasesNothing(r, step.bootstrap);
    } else {
      OutsideReleasesNothing(r, step);
    }
  }

  // Remote master moves in one way only: a promotion from the root checkout, to
  // the commit that local and remote staging both stand at, with no degraded
  // marker, on full-gate evidence for exactly that commit.
  lemma MasterMovesOnlyWhenQualified(r: Repo, step: Step)
    requires Inv(r) && Apply(r, step).remoteMaster != r.remoteMaster
    ensures step.Promoting?
    ensures var call := step.promote;
      && call.place.RootMaster? && call.commit == call.confirm == Apply(r, step).remoteMaster
      && r.localStaging == r.remoteStaging == Some(call.commit) && r.degraded.None?
      && r.localMaster == r.remoteMaster && Precedes(r.graph, r.remoteMaster, call.commit)
      && call.ci.Observed? && FullGate(call.ci.jobs)
      && call.ci.run.headSha == call.commit && call.ci.run.headBranch == "staging"
      && call.ci.run.event == "push" && call.ci.run.conclusion == "success"
  {
    if step.Promoting? {
      PromoteShape(r, step.promote);
      if ReleaseStarted(r, step.promote) {
        ReleaseShape(FetchStaging(FetchMaster(r)),
                     GithubRun("staging", step.promote.commit, true, step.promote.ci).value,
                     step.promote);
      }
    } else {
      OnlyPromotionReleases(r, step);
      assert false;
    }
  }

  ghost predicate ReleaseStarted(r: Repo, call: PromoteCall)
    requires Inv(r)
  {
    && call.confirm == call.commit
    && MayCoordinate(r, call.place, call.rootClean && call.rootCleanAgain) && r.localMaster == r.remoteMaster
    && r.checkout && r.localStaging == r.remoteStaging == Some(call.commit)
    && call.stagingClean && call.stagingCleanAgain && r.degraded.None?
    && GithubRun("staging", call.commit, true, call.ci).Some?
  }

  lemma PromoteShape(r: Repo, call: PromoteCall)
    requires Inv(r)
    ensures var (later, outcome) := Promote(r, call);
      if !ReleaseStarted(r, call) then outcome.PromoteRefused? && OnlyFetched(r, later)
      else
        var fetched := FetchStaging(FetchMaster(r));
        && Precedes(r.graph, r.localMaster, call.commit)
        && (later, outcome) == Release(MoveHead(fetched, call.place, call.commit), r.localMaster,
                                       GithubRun("staging", call.commit, true, call.ci).value, call)
  {
    if call.confirm == call.commit {
      ReadyFacts(r, call.place, call.rootClean);
      var (r0, ready) := RootReady(r, call.place, call.rootClean);
      if ready {
        EnsureFacts(r0, false, call.stagingClean);
        var (r1, found) := EnsureStaging(r0, false, call.stagingClean);
        if found == Some(call.commit) && GithubRun("staging", call.commit, true, call.ci).Some? {
          ReadyFacts(r1, call.place, call.rootCleanAgain);
          assert FetchMaster(r1) == FetchStaging(FetchMaster(r));
        }
      }
    }
  }

  // A promotion completes exactly when it may start, its push is accepted, the
  // release check on the same commit is green under a positive run id, and it
  // ran from the root checkout; from the staging checkout it pushes the old
  // master, so it completes only when there is nothing left to promote.
  lemma PromotedIff(r: Repo, call: PromoteCall)
    requires Inv(r)
    ensures var (later, outcome) := Promote(r, call);
      var masterCi := GithubRun("master", call.commit, true, call.masterCi);
      && (outcome.Promoted? <==>
            && ReleaseStarted(r, call) && call.push.Accepted?
            && masterCi.Some? && masterCi.value.run.runId > 0
            && (call.place.RootMaster? || r.remoteMaster == call.commit))
      && (outcome.Promoted? ==>
            && later.localMaster == later.trackingMaster == later.remoteMaster == call.commit
            && later.localStaging == r.localStaging && later.masterDegraded.None?
            && call.commit in later.receipts)
      && (outcome.ReleaseDegraded? ==> later.masterDegraded == Some(call.commit))
  {
    PromoteShape(r, call);
  }

  // While the marker stands, nothing is promoted and only a remediation integrates.
  lemma DegradedBlocks(r: Repo, promote: PromoteCall, integrate: IntegrateCall)
    requires Inv(r) && r.degraded.Some?
    ensures Promote(r, promote).1.PromoteRefused? && OnlyFetched(r, Promote(r, promote).0)
    ensures !integrate.remediate ==>
            Integrate(r, integrate).1.IntegrateRefused? && OnlyFetched(r, Integrate(r, integrate).0)
  {
    PromoteShape(r, promote);
    IntegrateShape(r, integrate);
  }

  // A promotion moves local staging in one case: run from the staging checkout,
  // its master push fails, and the undo resets the staging branch to the old
  // master instead of resetting master.
  lemma PromotionResetsStagingIff(r: Repo, call: PromoteCall)
    requires Inv(r)
    ensures Promote(r, call).0.localStaging != r.localStaging
            <==> call.place.StagingCheckout? && Promote(r, call).1.MasterPushFailed? && r.localMaster != call.commit
  {
    PromoteShape(r, call);
  }

  // The marker of a degraded master stops a bootstrap and nothing else: integrations
  // and promotions do the same with and without it, and an integration leaves it.
  lemma MasterMarkerStopsBootstrap(r: Repo, call: BootstrapCall)
    requires r.masterDegraded.Some?
    ensures !Bootstrap(r, call).1 && OnlyFetched(r, Bootstrap(r, call).0)
  {
  }

  lemma MarkedIsSound(r: Repo, marker: Option<Commit>)
    requires Inv(r)
    ensures Inv(r.(masterDegraded := marker))
  {
    var other := r.(masterDegraded := marker);
    forall i | 0 <= i < |r.attempts| && r.attempts[i].state.GreenAttempt? ensures GreenSound(other, r.attempts[i]) {
      assert GreenSound(r, r.attempts[i]);
    }
  }

  lemma MasterMarkerIgnoredByIntegrate(r: Repo, call: IntegrateCall, marker: Option<Commit>)
    requires Inv(r)
    ensures Inv(r.(masterDegraded := marker))
    ensures var (later, outcome) := Integrate(r, call);
      Integrate(r.(masterDegraded := marker), call) == (later.(masterDegraded := marker), outcome)
  {
    var other := r.(masterDegraded := marker);
    MarkedIsSound(r, marker);
    SameStart(r, other, call);
    IntegrateShape(r, call);
    IntegrateShape(other, call);
    if !MergeStarted(r, call) {
      IntegrateRefusal(r, call);
      IntegrateRefusal(other, call);
      CheckedIgnoresMaster(r, call.place, call.rootClean, NamesAcceptable(call.branches), call.remediate,
                           call.stagingClean, marker);
    } else if MergeResult(r, call).Merged? {
      var merge, start := MergeResult(r, call), r.localStaging.value;
      PublishIgnoresMaster(FetchStaging(FetchMaster(r)).(graph := merge.graph, localStaging := Some(merge.head)), start,
                           merge.head, FrozenSources(r, call), call, marker);
    }
  }

  // The repository after the checks that precede a merge or a release: fetched as far
  // as the checks got.
  function Checked(r: Repo, place: Place, clean: bool, named: bool, remediate: bool, stagingClean: bool): Repo {
    var (r0, ready) := RootReady(r, place, clean);
    if !ready || !named then r0 else EnsureStaging(r0, remediate, stagingClean).0
  }

  lemma CheckedIgnoresMaster(r: Repo, place: Place, clean: bool, named: bool, remediate: bool, stagingClean: bool,
                             marker: Option<Commit>)
    ensures Checked(r.(masterDegraded := marker), place, clean, named, remediate, stagingClean)
            == Checked(r, place, clean, named, remediate, stagingClean).(masterDegraded := marker)
  {
    ReadyIgnoresMaster(r, place, clean, marker);
    EnsureIgnoresMaster(RootReady(r, place, clean).0, remediate, stagingClean, marker);
  }

  lemma ReadyIgnoresMaster(r: Repo, place: Place, clean: bool, marker: Option<Commit>)
    ensures var (r0, ready) := RootReady(r, place, clean);
      RootReady(r.(masterDegraded := marker), place, clean) == (r0.(masterDegraded := marker), ready)
  {
  }

  lemma EnsureIgnoresMaster(r: Repo, remediate: bool, clean: bool, marker: Option<Commit>)
    ensures EnsureStaging(r.(masterDegraded := marker), remediate, clean).0
            == EnsureStaging(r, remediate, clean).0.(masterDegraded := marker)
  {
  }

  lemma IntegrateRefusal(r: Repo, call: IntegrateCall)
    requires Inv(r) && !MergeStarted(r, call)
    ensures Integrate(r, call).0
            == Checked(r, call.place, call.rootClean, NamesAcceptable(call.branches), call.remediate, call.stagingClean)
  {
    ReadyFacts(r, call.place, call.rootClean);
    var (r0, ready) := RootReady(r, call.place, call.rootClean);
    if ready && NamesAcceptable(call.branches) {
      EnsureFacts(r0, call.remediate, call.stagingClean);
      var (r1, found) := EnsureStaging(r0, call.remediate, call.stagingClean);
      if found.Some? {
        SourcesReadyFetched(r, r1, found.value, call);
      }
    }
  }

  lemma PromoteRefusal(r: Repo, call: PromoteCall)
    requires Inv(r) && !ReleaseStarted(r, call) && call.confirm == call.commit
    ensures Promote(r, call).0 == Checked(r, call.place, call.rootClean, true, false, call.stagingClean)
  {
    ReadyFacts(r, call.place, call.rootClean);
    var (r0, ready) := RootReady(r, call.place, call.rootClean);
    if ready {
      EnsureFacts(r0, false, call.stagingClean);
      var (r1, found) := EnsureStaging(r0, false, call.stagingClean);
      if found == Some(call.commit) && GithubRun("staging", call.commit, true, call.ci).Some? {
        ReadyFacts(r1, call.place, call.rootCleanAgain);
      }
    }
  }

  lemma SameSources(r: Repo, other: Repo, start: Commit, call: IntegrateCall)
    requires Inv(r) && Inv(other) && other == r.(masterDegraded := other.masterDegraded)
    ensures SourcesReady(r, start, call) <==> SourcesReady(other, start, call)
  {
    forall i | 0 <= i < |call.branches|
      ensures SourceReady(r, start, call.branches[i], call.remediate, call.checks(call.branches[i]))
              <==> SourceReady(other, start, call.branches[i], call.remediate, call.checks(call.branches[i]))
    {
    }
  }

  lemma SameStart(r: Repo, other: Repo, call: IntegrateCall)
    requires Inv(r) && Inv(other) && other == r.(masterDegraded := other.masterDegraded)
    ensures MergeStarted(r, call) <==> MergeStarted(other, call)
    ensures MergeStarted(r, call) ==>
              FrozenSources(r, call) == FrozenSources(other, call) && MergeResult(r, call) == MergeResult(other, call)
  {
    if r.localStaging.Some? { SameSources(r, other, r.localStaging.value, call); }
  }

  lemma PublishIgnoresMaster(r: Repo, start: Commit, head: Commit, sources: seq<Source>, call: IntegrateCall,
                             marker: Option<Commit>)
    ensures var (later, outcome) := Publish(r, start, head, sources, call);
      Publish(r.(masterDegraded := marker), start, head, sources, call) == (later.(masterDegraded := marker), outcome)
  {
    if !call.push.Accepted? {
      PushFailureIgnoresMaster(r, start, head, sources, call, marker);
    } else if GithubRun("staging", head, true, call.ci).None? {
      DegradedIgnoresMaster(r, start, head, sources, call, marker);
    }
  }

  lemma PushFailureIgnoresMaster(r: Repo, start: Commit, head: Commit, sources: seq<Source>, call: IntegrateCall,
                                 marker: Option<Commit>)
    requires !call.push.Accepted?
    ensures var (later, outcome) := Publish(r, start, head, sources, call);
      Publish(r.(masterDegraded := marker), start, head, sources, call) == (later.(masterDegraded := marker), outcome)
  {
  }

  lemma DegradedIgnoresMaster(r: Repo, start: Commit, head: Commit, sources: seq<Source>, call: IntegrateCall,
                              marker: Option<Commit>)
    requires call.push.Accepted? && GithubRun("staging", head, true, call.ci).None?
    ensures var (later, outcome) := Publish(r, start, head, sources, call);
      Publish(r.(masterDegraded := marker), start, head, sources, call) == (later.(masterDegraded := marker), outcome)
  {
  }

  // A promotion writes the marker itself when its release check fails, and removes it
  // when it completes; otherwise it leaves the marker, and everything else is the same.
  lemma MasterMarkerIgnoredByPromote(r: Repo, call: PromoteCall, marker: Option<Commit>)
    requires Inv(r) && Inv(r.(masterDegraded := marker))
    ensures var (later, outcome) := Promote(r, call);
      Promote(r.(masterDegraded := marker), call)
      == (if outcome.ReleaseDegraded? || outcome.Promoted? then later else later.(masterDegraded := marker), outcome)
  {
    PromoteShape(r, call);
    PromoteShape(r.(masterDegraded := marker), call);
    if ReleaseStarted(r, call) {
      var ci := GithubRun("staging", call.commit, true, call.ci).value;
      ReleaseIgnoresMaster(MoveHead(FetchStaging(FetchMaster(r)), call.place, call.commit), r.localMaster, ci, call,
                           marker);
    } else if call.confirm == call.commit {
      PromoteRefusal(r, call);
      PromoteRefusal(r.(masterDegraded := marker), call);
      CheckedIgnoresMaster(r, call.place, call.rootClean, true, false, call.stagingClean, marker);
    }
  }

  lemma ReleaseIgnoresMaster(r: Repo, start: Commit, ci: Selected, call: PromoteCall, marker: Option<Commit>)
    ensures var (later, outcome) := Release(r, start, ci, call);
      Release(r.(masterDegraded := marker), start, ci, call)
      == (if outcome.ReleaseDegraded? || outcome.Promoted? then later else later.(masterDegraded := marker), outcome)
  {
  }

  // ---- every receipt of a run ----------------------------------------------------------

  ghost predicate ReceiptsReadable(r: Repo) {
    forall c | c in r.receipts ::
      r.receipts[c].candidate == c
      && (ReceiptHasCiQualification(r.receipts[c], c) <==> r.receipts[c].staging.runId > 0)
  }

  lemma StepKeepsReceipts(r: Repo, step: Step)
    requires Inv(r) && ReceiptsReadable(r)
    ensures ReceiptsReadable(Apply(r, step))
  {
    if step.Promoting? {
      PromoteKeepsReceipts(r, step.promote);
    } else {
      OnlyPromotionReleases(r, step);
    }
  }

  lemma PromotionAddsReceipt(r: Repo, call: PromoteCall)
    requires Inv(r)
    ensures var (later, outcome) := Promote(r, call);
      if outcome.Promoted?
      then
        var ci := GithubRun("staging", call.commit, true, call.ci);
        var masterCi := GithubRun("master", call.commit, true, call.masterCi);
        && ci.Some? && masterCi.Some?
        && PromotionEvidence(masterCi.value, "master", call.commit, MASTER_MODE, [PROVENANCE])
        && later.receipts == r.receipts[call.commit := PromotionReceipt(call.commit, ci.value, masterCi.value)]
      else later.receipts == r.receipts
  {
    PromoteShape(r, call);
  }

  lemma PromoteKeepsReceipts(r: Repo, call: PromoteCall)
    requires Inv(r) && ReceiptsReadable(r)
    ensures ReceiptsReadable(Promote(r, call).0)
  {
    PromotionAddsReceipt(r, call);
    if Promote(r, call).1.Promoted? { PromotionReceiptQualifies(call.commit, call.ci, call.masterCi); }
  }

  // In every run, each promotion receipt passes the deployment checker for its
  // commit exactly when the staging run it records has a positive id.
  lemma {:induction false} RunKeepsReceipts(r: Repo, steps: seq<Step>)
    requires Inv(r) && ReceiptsReadable(r)
    ensures ReceiptsReadable(After(r, steps))
    decreases |steps|
  {
    if steps != [] {
      StepKeeps(r, steps[0]);
      StepKeepsReceipts(r, steps[0]);
      RunKeepsReceipts(Apply(r, steps[0]), steps[1..]);
    }
  }
}
