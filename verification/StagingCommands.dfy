/**
 The commands of scripts/staging.py and `close` of scripts/worktree.py as they
 run: refs are moved, the marker is written and removed, and attempts are
 appended one statement at a time, with the source and merge loops.  Every
 command is proved to leave exactly the repository that its specification in
 `Staging` describes.
 */
module StagingCommands {
  import opened Wrappers
  import opened CommitGraph
  import opened CiEvidence
  import opened S = Staging
  import opened StagingSafety

  // The merge loop after its first k sources: what is left to merge from here gives
  // the result of the whole.
  ghost predicate Merging(before: Graph, merge: Merge, sources: seq<Source>, conflicts: string -> bool, k: nat,
                          g: Graph, head: Commit)
  {
    && k <= |sources| && WellFormed(g) && Grows(before, g) && head < |g| && (forall s | s in sources :: s.sha < |g|)
    && merge == MergeAll(g, head, sources[k..], conflicts)
  }

  // One turn of the merge loop.
  lemma MergeTurn(before: Graph, merge: Merge, sources: seq<Source>, conflicts: string -> bool, k: nat,
                  g: Graph, head: Commit)
    requires k < |sources| && Merging(before, merge, sources, conflicts, k, g, head)
    ensures var source := sources[k];
      if Precedes(g, source.sha, head) then Merging(before, merge, sources, conflicts, k + 1, g, head)
      else if conflicts(source.branch) then merge == Stopped(g, source)
      else Merging(before, merge, sources, conflicts, k + 1, g + [{head, source.sha}], |g|)
  {
    assert sources[k..][0] == sources[k] && sources[k..][1..] == sources[k + 1..];
  }

  lemma MergeEnds(before: Graph, merge: Merge, sources: seq<Source>, conflicts: string -> bool, g: Graph, head: Commit)
    requires Merging(before, merge, sources, conflicts, |sources|, g, head)
    ensures merge == Merged(g, head)
  {
  }

  // New commits, and staging at any of them, keep every ref in range.
  lemma GrownStaysInRange(r: Repo, g: Graph, head: Commit)
    requires InRange(r) && WellFormed(g) && Grows(r.graph, g) && head < |g|
    ensures InRange(r.(graph := g, localStaging := Some(head)))
  {
  }

  class Coordinator {
    var graph: Graph
    var localMaster: Commit
    var trackingMaster: Commit
    var remoteMaster: Commit
    var localStaging: Option<Commit>
    var trackingStaging: Option<Commit>
    var remoteStaging: Option<Commit>
    var checkout: bool
    var work: map<string, WorkBranch>
    var degraded: Option<Marker>
    var masterDegraded: Option<Commit>
    var attempts: seq<Attempt>
    var receipts: map<Commit, Receipt>

    function Model(): Repo
      reads this
    {
      Repo(graph, localMaster, trackingMaster, remoteMaster, localStaging, trackingStaging, remoteStaging,
           checkout, work, degraded, masterDegraded, attempts, receipts)
    }

    // A repository with one synchronized master commit and no staging branch.
    constructor ()
      ensures Fresh(Model())
    {
      graph := [{}];
      localMaster, trackingMaster, remoteMaster := 0, 0, 0;
      localStaging, trackingStaging, remoteStaging := None, None, None;
      checkout, work := false, map[];
      degraded, masterDegraded := None, None;
      attempts, receipts := [], map[];
    }

    method RootMasterReady(place: Place, clean: bool) returns (ready: bool)
      modifies this`trackingMaster
      ensures (Model(), ready) == RootReady(old(Model()), place, clean)
    {
      if !clean || place.Elsewhere? || (place.StagingCheckout? && !checkout) {
        return false;
      }
      trackingMaster := remoteMaster;
      ready := localMaster == trackingMaster;
    }

    method StagingSynchronized(clean: bool) returns (commit: Option<Commit>)
      ensures commit == Synchronized(Model(), clean)
    {
      if !clean || localStaging.None? || localStaging != trackingStaging {
        return None;
      }
      commit := localStaging;
    }

    method RequireStaging(remediate: bool, clean: bool) returns (commit: Option<Commit>)
      modifies this`trackingStaging
      ensures (Model(), commit) == EnsureStaging(old(Model()), remediate, clean)
    {
      if !checkout || remoteStaging.None? {
        return None;
      }
      trackingStaging := remoteStaging;
      commit := StagingSynchronized(clean);
      if commit.None? || (degraded.Some? && !remediate) {
        return None;
      }
    }

    method Bootstrap(call: BootstrapCall) returns (ok: bool)
      modifies this
      ensures (Model(), ok) == S.Bootstrap(old(Model()), call)
    {
      var ready := RootMasterReady(call.place, call.rootClean);
      if !ready || masterDegraded.Some? {
        return false;
      }
      var current := if call.place.StagingCheckout? then localStaging else Some(localMaster);
      if current != Some(call.confirm) {
        return false;
      }
      if (localStaging.Some? && localStaging != current) || (remoteStaging.Some? && remoteStaging != current) {
        return false;
      }
      if localStaging.None? {
        localStaging := current;
      }
      if remoteStaging.None? {
        if call.push.Declined? {
          return false;
        }
        remoteStaging := current;
        if call.push.Unacknowledged? {
          return false;
        }
        trackingStaging := current;
      }
      checkout := true;
      trackingStaging := remoteStaging;
      var commit := StagingSynchronized(call.stagingClean);
      ok := commit.Some?;
    }

    // The first loop of an integration: freeze every named branch at its checked
    // commit, or give up at the first one that is not ready.
    method FreezeSources(call: IntegrateCall, start: Commit) returns (sources: Option<seq<Source>>)
      requires InRange(Model())
      ensures sources.Some? <==> SourcesReady(Model(), start, call)
      ensures sources.Some? ==>
                (forall i | 0 <= i < |call.branches| :: call.branches[i] in work)
                && sources.value == Frozen(Model(), call.branches)
    {
      var frozen: seq<Source> := [];
      for k := 0 to |call.branches|
        invariant |frozen| == k
        invariant forall i | 0 <= i < k ::
            SourceReady(Model(), start, call.branches[i], call.remediate, call.checks(call.branches[i]))
        invariant forall i | 0 <= i < k :: frozen[i] == Source(call.branches[i], work[call.branches[i]].local)
      {
        var branch := call.branches[k];
        var check := call.checks(branch);
        if branch !in work || work[branch].remote.None? {
          return None;
        }
        var sha := work[branch].local;
        if !check.clean || work[branch].remote != Some(sha) || !check.closed {
          return None;
        }
        if call.remediate && !Precedes(graph, start, sha) {
          return None;
        }
        var ci := InspectRun(branch, sha, false, check.ci);
        if ci.None? {
          return None;
        }
        frozen := frozen + [Source(branch, sha)];
      }
      sources := Some(frozen);
    }

    // The second loop: merge the sources one after the other into local staging.
    // On a conflict the checkout is reset and the offending source is returned.
    method MergeSources(start: Commit, sources: seq<Source>, conflicts: string -> bool)
      returns (stopped: Option<Source>)
      requires InRange(Model()) && localStaging == Some(start)
      requires forall s | s in sources :: s.sha < |graph|
      modifies this`graph, this`localStaging
      ensures InRange(Model())
      ensures match MergeAll(old(graph), start, sources, conflicts)
              case Merged(g, head) => stopped.None? && graph == g && localStaging == Some(head)
              case Stopped(g, at) => stopped == Some(at) && graph == g && localStaging == Some(start)
    {
      var head: Commit := start;
      ghost var r, merge := Model(), MergeAll(graph, start, sources, conflicts);
      assert sources[0..] == sources;
      for k := 0 to |sources|
        invariant Merging(r.graph, merge, sources, conflicts, k, graph, head)
        invariant localStaging == Some(head)
      {
        MergeTurn(r.graph, merge, sources, conflicts, k, graph, head);
        var source := sources[k];
        if !Precedes(graph, source.sha, head) {
          if conflicts(source.branch) {
            localStaging := Some(start);
            GrownStaysInRange(r, graph, start);
            return Some(source);
          }
          var next := |graph|;
          graph := graph + [{head, source.sha}];
          head := next;
          localStaging := Some(head);
        }
      }
      MergeEnds(r.graph, merge, sources, conflicts, graph, head);
      GrownStaysInRange(r, graph, head);
      stopped := None;
    }

    method Integrate(call: IntegrateCall) returns (outcome: IntegrateOutcome)
      requires InRange(Model())
      modifies this
      ensures (Model(), outcome) == S.Integrate(old(Model()), call)
    {
      var ready := RootMasterReady(call.place, call.rootClean);
      if !ready || !NamesAcceptable(call.branches) {
        return IntegrateRefused;
      }
      var found := RequireStaging(call.remediate, call.stagingClean);
      if found.None? {
        return IntegrateRefused;
      }
      var start := found.value;
      var frozen := FreezeSources(call, start);
      if frozen.None? {
        return IntegrateRefused;
      }
      outcome := MergeAndPublish(start, frozen.value, call);
    }

    method MergeAndPublish(start: Commit, sources: seq<Source>, call: IntegrateCall) returns (outcome: IntegrateOutcome)
      requires InRange(Model()) && localStaging == Some(start) && SourcesReady(Model(), start, call)
      requires sources == Frozen(Model(), call.branches)
      modifies this
      ensures (Model(), outcome) == S.MergeAndPublish(old(Model()), start, call)
    {
      var stopped := MergeSources(start, sources, call.conflicts);
      if stopped.Some? {
        attempts := attempts + [Attempt(ConflictAttempt, None, Some(start), [stopped.value])];
        return Conflicted;
      }
      outcome := PublishMerged(start, sources, call);
    }

    method PublishMerged(start: Commit, sources: seq<Source>, call: IntegrateCall) returns (outcome: IntegrateOutcome)
      requires localStaging.Some?
      modifies this
      ensures (Model(), outcome) == Publish(old(Model()), start, old(localStaging.value), sources, call)
    {
      var head := localStaging.value;
      if !call.push.Accepted? {
        if call.push.Unacknowledged? {
          remoteStaging := Some(head);
        }
        if trackingStaging == Some(start) {
          localStaging := Some(start);
        }
        attempts := attempts + [Attempt(PushFailedAttempt, None, Some(start), sources)];
        return PushFailed;
      }
      remoteStaging, trackingStaging := Some(head), Some(head);
      var ci := InspectRun("staging", head, true, call.ci);
      if ci.None? {
        degraded := Some(Marker(head, start, sources));
        attempts := attempts + [Attempt(DegradedAttempt, Some(head), None, sources)];
        if !call.cleanOnFailure {
          localStaging := Some(start);
        }
        return Degraded;
      }
      trackingStaging := remoteStaging;
      var commit := StagingSynchronized(call.cleanAfterCi);
      if commit != Some(head) {
        if !call.cleanOnFailure {
          localStaging := Some(start);
        }
        return Unsettled;
      }
      degraded := None;
      attempts := attempts + [Attempt(GreenAttempt, Some(head), Some(start), sources)];
      outcome := Green;
    }

    // The loops of a reconciliation over the recorded sources: names first, then
    // the ancestry of the start and of every source.
    method CheckMarker(marker: Marker) returns (acceptable: bool)
      requires WellFormed(graph)
      ensures acceptable <==> MarkerAcceptable(graph, marker)
    {
      if marker.sources == [] {
        return false;
      }
      var names: set<string> := {};
      var ancestors := [marker.start];
      for k := 0 to |marker.sources|
        invariant |ancestors| == k + 1 && ancestors[0] == marker.start
        invariant forall i | 0 <= i < k :: ancestors[i + 1] == marker.sources[i].sha
        invariant forall i | 0 <= i < k :: IsWorkBranch(marker.sources[i].branch)
        invariant names == set i | 0 <= i < k :: marker.sources[i].branch
        invariant forall i, j | 0 <= i < j < k :: marker.sources[i].branch != marker.sources[j].branch
      {
        var source := marker.sources[k];
        if !IsWorkBranch(source.branch) || source.branch in names {
          return false;
        }
        names := names + {source.branch};
        ancestors := ancestors + [source.sha];
      }
      for k := 0 to |ancestors|
        invariant forall i | 0 <= i < k :: Precedes(graph, ancestors[i], marker.staging)
      {
        if !Precedes(graph, ancestors[k], marker.staging) {
          assert k > 0 ==> ancestors[k] == marker.sources[k - 1].sha;
          return false;
        }
      }
      assert forall i | 0 <= i < |marker.sources| :: ancestors[i + 1] == marker.sources[i].sha;
      acceptable := true;
    }

    // The exact CI of a staging commit, checked as promotion evidence too.
    method ExactGreen(commit: Commit, answer: Answer) returns (green: bool)
      ensures var ci := GithubRun("staging", commit, true, answer);
        green <==> ci.Some?
                   && PromotionEvidence(ci.value, "staging", commit, ci.value.profile.mode, ci.value.profile.verified)
    {
      var ci := InspectRun("staging", commit, true, answer);
      green := ci.Some?
               && PromotionEvidence(ci.value, "staging", commit, ci.value.profile.mode, ci.value.profile.verified);
    }

    method Reconcile(call: ReconcileCall) returns (cleared: bool)
      requires InRange(Model())
      modifies this
      ensures (Model(), cleared) == S.Reconcile(old(Model()), call)
    {
      if !call.place.StagingCheckout? {
        return false;
      }
      var ready := RootMasterReady(call.place, call.rootClean);
      if !ready || degraded.None? || degraded.value.staging != call.commit {
        return false;
      }
      var marker := degraded.value;
      var found := RequireStaging(true, call.stagingClean);
      if found != Some(call.commit) {
        return false;
      }
      var acceptable := CheckMarker(marker);
      if !acceptable {
        return false;
      }
      var green := ExactGreen(call.commit, call.ci);
      if !green {
        return false;
      }
      trackingStaging := remoteStaging;
      var commit := StagingSynchronized(call.cleanAfterCi);
      if commit != Some(call.commit) || degraded != Some(marker) {
        return false;
      }
      attempts := attempts + [Attempt(GreenAttempt, Some(call.commit), Some(marker.start), marker.sources)];
      degraded := None;
      cleared := true;
    }

    method Promote(call: PromoteCall) returns (outcome: PromoteOutcome)
      requires InRange(Model())
      modifies this
      ensures (Model(), outcome) == S.Promote(old(Model()), call)
    {
      if call.confirm != call.commit {
        return PromoteRefused;
      }
      var ready := RootMasterReady(call.place, call.rootClean);
      if !ready {
        return PromoteRefused;
      }
      var masterStart := localMaster;
      var found := RequireStaging(false, call.stagingClean);
      if found != Some(call.commit) {
        return PromoteRefused;
      }
      var ci := InspectRun("staging", call.commit, true, call.ci);
      if ci.None? {
        return PromoteRefused;
      }
      ready := RootMasterReady(call.place, call.rootCleanAgain);
      var commit := StagingSynchronized(call.stagingCleanAgain);
      if !ready || commit != Some(call.commit) || !Precedes(graph, localMaster, call.commit) {
        return PromoteRefused;
      }
      if call.place.StagingCheckout? {
        localStaging := Some(call.commit);
      } else {
        localMaster := call.commit;
      }
      outcome := ReleaseMaster(masterStart, ci.value, call);
    }

    method ReleaseMaster(masterStart: Commit, ci: Selected, call: PromoteCall) returns (outcome: PromoteOutcome)
      modifies this
      ensures (Model(), outcome) == Release(old(Model()), masterStart, ci, call)
    {
      if !call.push.Accepted? {
        if call.push.Unacknowledged? {
          remoteMaster := localMaster;
        }
        if trackingMaster == masterStart {
          if call.place.StagingCheckout? {
            localStaging := Some(masterStart);
          } else {
            localMaster := masterStart;
          }
        }
        return MasterPushFailed;
      }
      remoteMaster, trackingMaster := localMaster, localMaster;
      var masterCi := InspectRun("master", call.commit, true, call.masterCi);
      if masterCi.None?
         || !PromotionEvidence(masterCi.value, "master", call.commit, MASTER_MODE, [PROVENANCE]) {
        masterDegraded := Some(call.commit);
        return ReleaseDegraded;
      }
      trackingMaster := remoteMaster;
      var head := if call.place.StagingCheckout? then localStaging else Some(localMaster);
      if head != Some(call.commit) || trackingMaster != call.commit {
        return ReleaseUnsettled;
      }
      masterDegraded := None;
      receipts := receipts[call.commit := PromotionReceipt(call.commit, ci, masterCi.value)];
      outcome := Promoted;
    }

    // Looks for a green receipt in any order of the recorded files; a hit ends the loop.
    method FindGreenReceipt(source: Source) returns (green: bool)
      ensures green <==> HasGreenReceipt(Model(), source)
    {
      green := false;
      for k := 0 to |attempts|
        invariant !green
        invariant forall i | 0 <= i < k :: !Covers(attempts[i], source)
      {
        if attempts[k].state.GreenAttempt? && source in attempts[k].sources {
          assert Covers(attempts[k], source);
          green := true;
          break;
        }
      }
    }

    method Close(call: CloseCall) returns (closed: bool)
      requires InRange(Model())
      modifies this`work
      ensures (Model(), closed) == S.Close(old(Model()), call)
    {
      if call.branch !in work || !call.clean || !call.planAuthorized {
        return false;
      }
      var sha := work[call.branch].local;
      var green := FindGreenReceipt(Source(call.branch, sha));
      if !green {
        return false;
      }
      if localStaging.None? || !Precedes(graph, sha, localStaging.value) || !call.stopped {
        return false;
      }
      work := work - {call.branch};
      closed := Precedes(graph, sha, if call.upstream.Some? then call.upstream.value else call.head);
    }
  }
}
