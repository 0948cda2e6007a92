/**
 What becomes of the degraded staging marker once remote staging has moved on.
 */
module StagingMarkers {
  import opened Wrappers
  import opened CommitGraph
  import opened CiEvidence
  import opened Staging
  import opened StagingSafety
  import opened StagingTheorems
  import opened StagingClose

  // The marker names a commit that remote staging no longer stands at.
  predicate Stranded(r: Repo) { r.degraded.Some? && r.remoteStaging != Some(r.degraded.value.staging) }

  // A remediation whose push went through, but which neither turned green nor was
  // recorded as degraded.
  ghost predicate Strands(r: Repo, step: Step)
    requires Inv(r)
  {
    && step.Integrating? && MergeStarted(r, step.integrate) && MergeResult(r, step.integrate).Merged?
    && var call, head := step.integrate, MergeResult(r, step.integrate).head;
    && Some(head) != r.localStaging
    && (call.push.Unacknowledged?
        || (call.push.Accepted? && !call.cleanAfterCi && GithubRun("staging", head, true, call.ci).Some?))
  }

  // An integration that watched its CI to an end: green, or recorded as degraded.
  ghost predicate Settles(r: Repo, step: Step)
    requires Inv(r)
  {
    && step.Integrating? && MergeStarted(r, step.integrate) && MergeResult(r, step.integrate).Merged?
    && var call, head := step.integrate, MergeResult(r, step.integrate).head;
    && call.push.Accepted? && (call.cleanAfterCi || GithubRun("staging", head, true, call.ci).None?)
  }

  // ---- the marker and remote staging after one step ------------------------------------------

  // What a started integration leaves of the two.
  lemma MergeMarks(r: Repo, call: IntegrateCall)
    requires Inv(r) && MergeStarted(r, call)
    ensures var (later, merge) := (Integrate(r, call).0, MergeResult(r, call));
      if merge.Stopped? || call.push.Declined? then
        later.degraded == r.degraded && later.remoteStaging == r.remoteStaging
      else
        && later.remoteStaging == Some(merge.head)
        && (if !Settles(r, Integrating(call)) then later.degraded == r.degraded
            else later.degraded.Some? ==> later.degraded.value.staging == merge.head)
  {
    IntegrateShape(r, call);
    var merge := MergeResult(r, call);
    if merge.Merged? {
      PublishOutcomes(FetchStaging(FetchMaster(r)).(graph := merge.graph, localStaging := Some(merge.head)),
                      r.localStaging.value, merge.head, FrozenSources(r, call), call);
    }
  }

  lemma PromotionKeepsMarker(r: Repo, call: PromoteCall)
    requires Inv(r)
    ensures Promote(r, call).0.degraded == r.degraded && Promote(r, call).0.remoteStaging == r.remoteStaging
  {
    PromoteShape(r, call);
    if ReleaseStarted(r, call) {
      var ready := FetchStaging(FetchMaster(r));
      MoveHeadFrame(ready, ready, call.place, call.commit);
      ReleaseFrame(ready, MoveHead(ready, call.place, call.commit), r.localMaster,
                   GithubRun("staging", call.commit, true, call.ci).value, call);
    }
  }

  lemma OutsideKeepsMarker(r: Repo, step: Step)
    requires Inv(r)
    requires step.Closing? || step.Committing? || step.Working? || step.PullingStaging? || step.PullingMaster?
    ensures Apply(r, step).degraded == r.degraded && Apply(r, step).remoteStaging == r.remoteStaging
  {
    if step.Working? { WorkingMovesBranch(r, step); }
  }

  // Only a settled integration and a reconciliation change the marker, and only an
  // integration or the first bootstrap moves remote staging.
  lemma StepMarks(r: Repo, step: Step)
    requires Inv(r)
    ensures var later := Apply(r, step);
      && (!Settles(r, step) ==>
            later.degraded == r.degraded || (step.Reconciling? && !Stranded(r) && later.degraded.None?))
      && (!(step.Integrating? && MergeStarted(r, step.integrate)) && r.remoteStaging.Some? ==>
            later.remoteStaging == r.remoteStaging)
  {
    if step.Integrating? {
      if MergeStarted(r, step.integrate) {
        MergeMarks(r, step.integrate);
      } else {
        IntegrateShape(r, step.integrate);
      }
    } else if step.Reconciling? {
      ReconcileExact(r, step.reconcile);
    } else if step.Bootstrapping? {
      BootstrapFrame(r, step.bootstrap);
    } else if step.Promoting? {
      PromotionKeepsMarker(r, step.promote);
    } else {
      OutsideKeepsMarker(r, step);
    }
  }

  // ---- which steps strand a marker -----------------------------------------------------------

  // A marker that names the current staging commit is stranded by exactly these
  // remediations.
  lemma StrandsIff(r: Repo, step: Step)
    requires Inv(r) && r.degraded.Some? && !Stranded(r)
    ensures Stranded(Apply(r, step)) <==> Strands(r, step)
  {
    if step.Integrating? && MergeStarted(r, step.integrate) {
      MergeMarks(r, step.integrate);
    } else {
      StepMarks(r, step);
    }
  }

  // No other state but one with such a marker can turn into one with a stranded marker.
  lemma StrandedComesFromMarker(r: Repo, step: Step)
    requires Inv(r) && r.degraded.None?
    ensures !Stranded(Apply(r, step))
  {
    if step.Integrating? && MergeStarted(r, step.integrate) {
      MergeMarks(r, step.integrate);
    } else {
      StepMarks(r, step);
    }
  }

  // ---- no reconciliation ever clears it ------------------------------------------------------

  // A stranded marker stays, stranded, exactly until an integration settles; no
  // reconciliation clears it, whatever commit it names and whatever CI shows.
  lemma StrandedStaysIff(r: Repo, step: Step)
    requires Inv(r) && Stranded(r)
    ensures Inv(Apply(r, step))
    ensures Apply(r, step).degraded == r.degraded <==> !Settles(r, step)
    ensures !Settles(r, step) ==> Stranded(Apply(r, step))
    ensures step.Reconciling? ==> !Reconcile(r, step.reconcile).1
  {
    StepKeeps(r, step);
    StepMarks(r, step);
    if step.Reconciling? { ReconcileExact(r, step.reconcile); }
    if step.Integrating? && MergeStarted(r, step.integrate) {
      MergeMarks(r, step.integrate);
      if MergeResult(r, step.integrate).Merged? { HeadIsNotBehind(r, step.integrate, r.degraded.value.staging); }
    }
  }

  // A merged head is no commit that remote staging had already left behind.
  lemma HeadIsNotBehind(r: Repo, call: IntegrateCall, commit: Commit)
    requires Inv(r) && MergeStarted(r, call) && MergeResult(r, call).Merged?
    requires Precedes(r.graph, commit, r.remoteStaging.value) && Some(commit) != r.remoteStaging
    ensures MergeResult(r, call).head != commit
  {
    var merge, start := MergeResult(r, call), r.remoteStaging.value;
    StartPrecedesMerge(r, call);
    PrecedesStable(r.graph, merge.graph);
    if merge.head == commit { PrecedesAntisymmetric(merge.graph, commit, start); }
  }

  // ---- over whole runs -----------------------------------------------------------------------

  ghost predicate NeverSettles(r: Repo, steps: seq<Step>)
    requires Inv(r)
    decreases |steps|
  {
    steps == []
    || (!Settles(r, steps[0]) && (StepKeeps(r, steps[0]); NeverSettles(Apply(r, steps[0]), steps[1..])))
  }

  // Remote staging has reached the commit, and a marker names nothing older.
  ghost predicate Past(r: Repo, commit: Commit)
    requires InRange(r)
  {
    && r.remoteStaging.Some? && Precedes(r.graph, commit, r.remoteStaging.value)
    && (r.degraded.Some? ==> Precedes(r.graph, commit, r.degraded.value.staging))
  }

  lemma StepStaysPast(r: Repo, step: Step, commit: Commit)
    requires Inv(r) && Past(r, commit)
    ensures Inv(Apply(r, step)) && Past(Apply(r, step), commit)
  {
    StepKeeps(r, step);
    StepMarks(r, step);
    var later := Apply(r, step);
    PrecedesStable(r.graph, later.graph);
    PrecedesTransitive(later.graph, commit, r.remoteStaging.value, later.remoteStaging.value);
    if step.Integrating? && MergeStarted(r, step.integrate) { MergeMarks(r, step.integrate); }
  }

  lemma {:induction false} RunStaysPast(r: Repo, steps: seq<Step>, commit: Commit)
    requires Inv(r) && Past(r, commit)
    ensures Past(After(r, steps), commit)
    decreases |steps|
  {
    if steps != [] {
      StepStaysPast(r, steps[0], commit);
      RunStaysPast(Apply(r, steps[0]), steps[1..], commit);
    }
  }

  // Once an integration has settled, remote staging and any marker are past what was
  // stranded.
  lemma SettledIsPast(r: Repo, step: Step)
    requires Inv(r) && Stranded(r) && Settles(r, step)
    ensures Inv(Apply(r, step)) && Past(Apply(r, step), MergeResult(r, step.integrate).head)
  {
    StepKeeps(r, step);
    MergeMarks(r, step.integrate);
    var later := Apply(r, step);
    assert Precedes(later.graph, later.remoteStaging.value, later.remoteStaging.value);
  }

  // A stranded marker is still there after a run exactly when no integration of the
  // run settled: reconciliations never help, and it never comes back.
  lemma {:induction false} StrandedUntilSettled(r: Repo, steps: seq<Step>)
    requires Inv(r) && Stranded(r)
    ensures After(r, steps).degraded == r.degraded <==> NeverSettles(r, steps)
    decreases |steps|
  {
    if steps != [] {
      var next := Apply(r, steps[0]);
      StrandedStaysIff(r, steps[0]);
      if !Settles(r, steps[0]) {
        StrandedUntilSettled(next, steps[1..]);
      } else {
        SettledForGood(r, steps[0], steps[1..]);
      }
    }
  }

  lemma SettledForGood(r: Repo, step: Step, rest: seq<Step>)
    requires Inv(r) && Stranded(r) && Settles(r, step) && Inv(Apply(r, step))
    ensures After(Apply(r, step), rest).degraded != r.degraded
  {
    var next := Apply(r, step);
    SettledIsPast(r, step);
    RunStaysPast(next, rest, MergeResult(r, step.integrate).head);
    RunsAdvance(next, rest);
    NeverBackTo(r, next, After(next, rest), step.integrate);
  }

  lemma NeverBackTo(r: Repo, next: Repo, later: Repo, call: IntegrateCall)
    requires Inv(r) && Stranded(r) && Settles(r, Integrating(call)) && next == Integrate(r, call).0
    requires Inv(next) && Inv(later) && Grows(next.graph, later.graph) && Past(later, MergeResult(r, call).head)
    ensures later.degraded != r.degraded
  {
    var merge, was := MergeResult(r, call), r.degraded.value.staging;
    HeadIsNotBehind(r, call, was);
    if later.degraded == r.degraded {
      IntegrationKeepsMergedGraph(r, call);
      StartPrecedesMerge(r, call);
      PrecedesStable(r.graph, later.graph);
      PrecedesStable(merge.graph, later.graph);
      PrecedesTransitive(later.graph, was, r.remoteStaging.value, merge.head);
      PrecedesAntisymmetric(later.graph, was, merge.head);
    }
  }
}
