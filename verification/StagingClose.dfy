/**
 How long a branch that staging has integrated stays closable.
 */
module StagingClose {
  import opened Wrappers
  import opened CommitGraph
  import opened CiEvidence
  import opened Staging
  import opened StagingSafety
  import opened StagingTheorems

  // ---- where steps leave local staging ---------------------------------------------------

  // Local staging stays or moves along the graph, and what is recorded as green is
  // where it then stands.
  ghost predicate MovedForward(r: Repo, later: Repo)
    requires WellFormed(later.graph)
  {
    && Grows(r.graph, later.graph)
    && (r.localStaging.Some? ==>
          later.localStaging.Some? && Precedes(later.graph, r.localStaging.value, later.localStaging.value))
    && |r.attempts| <= |later.attempts| <= |r.attempts| + 1 && later.attempts[..|r.attempts|] == r.attempts
    && (|later.attempts| > |r.attempts| && later.attempts[|r.attempts|].state.GreenAttempt? ==>
          later.localStaging.Some? && later.attempts[|r.attempts|].staging == later.localStaging)
  }

  lemma StandsStill(r: Repo, later: Repo)
    requires InRange(r) && WellFormed(later.graph) && Grows(r.graph, later.graph)
    requires later.attempts == r.attempts && later.localStaging == r.localStaging
    ensures MovedForward(r, later)
  {
    if r.localStaging.Some? { assert Precedes(later.graph, r.localStaging.value, r.localStaging.value); }
  }

  lemma MergeMovesForward(r: Repo, call: IntegrateCall)
    requires Inv(r) && MergeStarted(r, call)
    ensures WellFormed(Integrate(r, call).0.graph) && MovedForward(r, Integrate(r, call).0)
  {
    IntegrateShape(r, call);
    var merge, start := MergeResult(r, call), r.localStaging.value;
    MergeContainsAll(r.graph, start, FrozenSources(r, call), call.conflicts);
    assert Precedes(merge.graph, start, start);
    if merge.Merged? {
      PublishShape(FetchStaging(FetchMaster(r)).(graph := merge.graph, localStaging := Some(merge.head)),
                   start, merge.head, FrozenSources(r, call), call);
    }
  }

  lemma IntegrateMovesForward(r: Repo, call: IntegrateCall)
    requires Inv(r) && WellFormed(Integrate(r, call).0.graph)
    ensures MovedForward(r, Integrate(r, call).0)
  {
    if MergeStarted(r, call) {
      MergeMovesForward(r, call);
    } else {
      IntegrateShape(r, call);
      StandsStill(r, Integrate(r, call).0);
    }
  }

  lemma BootstrapFrame(r: Repo, call: BootstrapCall)
    ensures var later := Bootstrap(r, call).0;
      && later.attempts == r.attempts && later.graph == r.graph && later.degraded == r.degraded
      && (r.localStaging.Some? ==> later.localStaging == r.localStaging)
      && (r.remoteStaging.Some? ==> later.remoteStaging == r.remoteStaging)
  {
  }

  lemma BootstrapMovesForward(r: Repo, call: BootstrapCall)
    requires Inv(r) && WellFormed(Bootstrap(r, call).0.graph)
    ensures MovedForward(r, Bootstrap(r, call).0)
  {
    BootstrapFrame(r, call);
    if r.localStaging.Some? { assert Precedes(r.graph, r.localStaging.value, r.localStaging.value); }
  }

  lemma ReconcileMovesForward(r: Repo, call: ReconcileCall)
    requires Inv(r) && WellFormed(Reconcile(r, call).0.graph)
    ensures MovedForward(r, Reconcile(r, call).0)
  {
    ReconcileExact(r, call);
    if r.localStaging.Some? { assert Precedes(r.graph, r.localStaging.value, r.localStaging.value); }
  }

  lemma PullingMovesForward(r: Repo)
    requires Inv(r) && WellFormed(Apply(r, PullingStaging).graph)
    ensures MovedForward(r, Apply(r, PullingStaging))
  {
    if r.localStaging.Some? { assert Precedes(r.graph, r.localStaging.value, r.localStaging.value); }
  }

  lemma CommittingFrame(r: Repo, step: Step)
    requires Inv(r) && step.Committing?
    ensures Apply(r, step).attempts == r.attempts && Apply(r, step).localStaging == r.localStaging
  {
  }

  lemma WorkFrame(r: Repo, step: Step)
    requires Inv(r) && (step.Closing? || step.Working? || step.PullingMaster?)
    ensures Apply(r, step).attempts == r.attempts && Apply(r, step).localStaging == r.localStaging
  {
    if step.Working? { WorkingMovesBranch(r, step); }
  }

  // Every step but a promotion moves local staging forward.
  lemma StepMovesForward(r: Repo, step: Step)
    requires Inv(r) && !step.Promoting?
    ensures Inv(Apply(r, step)) && MovedForward(r, Apply(r, step))
  {
    StepKeeps(r, step);
    if step.Bootstrapping? {
      BootstrapMovesForward(r, step.bootstrap);
    } else if step.Integrating? {
      IntegrateMovesForward(r, step.integrate);
    } else if step.Reconciling? {
      ReconcileMovesForward(r, step.reconcile);
    } else if step.PullingStaging? {
      PullingMovesForward(r);
    } else {
      if step.Committing? { CommittingFrame(r, step); } else { WorkFrame(r, step); }
      StandsStill(r, Apply(r, step));
    }
  }

  lemma PromotionKeepsAttempts(r: Repo, call: PromoteCall)
    requires Inv(r)
    ensures Promote(r, call).0.attempts == r.attempts && Promote(r, call).0.graph == r.graph
  {
    PromoteShape(r, call);
    if ReleaseStarted(r, call) {
      var ready := FetchStaging(FetchMaster(r));
      MoveHeadFrame(ready, ready, call.place, call.commit);
      ReleaseFrame(ready, MoveHead(ready, call.place, call.commit), r.localMaster,
                   GithubRun("staging", call.commit, true, call.ci).value, call);
    }
  }

  // A promotion from the staging checkout that started its release and whose push
  // did not succeed resets staging to the old master.
  ghost predicate ResetsStaging(r: Repo, call: PromoteCall)
    requires Inv(r)
  {
    call.place.StagingCheckout? && ReleaseStarted(r, call) && !call.push.Accepted?
  }

  lemma PromotionPlacesStaging(r: Repo, call: PromoteCall)
    requires Inv(r)
    ensures Promote(r, call).0.localStaging == if ResetsStaging(r, call) then Some(r.localMaster) else r.localStaging
  {
    PromoteShape(r, call);
  }

  // ---- one commit -----------------------------------------------------------------------

  // The step resets staging to a master that does not contain the commit.
  ghost predicate Drops(r: Repo, step: Step, commit: Commit)
    requires Inv(r)
  {
    step.Promoting? && ResetsStaging(r, step.promote) && !Precedes(r.graph, commit, r.localMaster)
  }

  // A commit that staging contains stays contained exactly when the step does not
  // drop it.
  lemma StepKeepsMergedIff(r: Repo, step: Step, commit: Commit)
    requires Inv(r) && MergedIntoStaging(r, commit)
    ensures Inv(Apply(r, step))
    ensures MergedIntoStaging(Apply(r, step), commit) <==> !Drops(r, step, commit)
  {
    StepKeeps(r, step);
    var later := Apply(r, step);
    if step.Promoting? {
      PromotionKeepsAttempts(r, step.promote);
      PromotionPlacesStaging(r, step.promote);
    } else {
      StepMovesForward(r, step);
      PrecedesStable(r.graph, later.graph);
      PrecedesTransitive(later.graph, commit, r.localStaging.value, later.localStaging.value);
    }
  }

  ghost predicate NeverDrops(r: Repo, steps: seq<Step>, commit: Commit)
    requires Inv(r)
    decreases |steps|
  {
    steps == []
    || (!Drops(r, steps[0], commit) && (StepKeeps(r, steps[0]); NeverDrops(Apply(r, steps[0]), steps[1..], commit)))
  }

  // Both checks that `close` makes on what was integrated: a green receipt covers
  // the branch at this commit, and staging contains it.
  ghost predicate Closable(r: Repo, source: Source)
    requires WellFormed(r.graph)
  {
    HasGreenReceipt(r, source) && MergedIntoStaging(r, source.sha)
  }

  ghost predicate StaysClosable(r: Repo, steps: seq<Step>, source: Source)
    requires Inv(r)
    decreases |steps|
  {
    Closable(r, source)
    && (steps == [] || (StepKeeps(r, steps[0]); StaysClosable(Apply(r, steps[0]), steps[1..], source)))
  }

  lemma ReceiptStays(r: Repo, step: Step, source: Source)
    requires Inv(r) && HasGreenReceipt(r, source)
    ensures HasGreenReceipt(Apply(r, step), source)
  {
    StepKeeps(r, step);
    var i :| 0 <= i < |r.attempts| && Covers(r.attempts[i], source);
    assert Apply(r, step).attempts[i] == r.attempts[i];
  }

  // A closable branch stays closable throughout a run exactly when no step of the run
  // drops its own commit: resets that drop other commits do not matter.
  lemma {:induction false} GreenBranchStaysClosable(r: Repo, steps: seq<Step>, source: Source)
    requires Inv(r) && Closable(r, source)
    ensures StaysClosable(r, steps, source) <==> NeverDrops(r, steps, source.sha)
    ensures NeverDrops(r, steps, source.sha) ==> Closable(After(r, steps), source)
    decreases |steps|
  {
    if steps != [] {
      StepKeeps(r, steps[0]);
      StepKeepsMergedIff(r, steps[0], source.sha);
      ReceiptStays(r, steps[0], source);
      if !Drops(r, steps[0], source.sha) { GreenBranchStaysClosable(Apply(r, steps[0]), steps[1..], source); }
    }
  }

  // What `close` needs besides: a clean, authorized, stopped worktree with the branch
  // still at the commit.
  predicate ReadyToClose(r: Repo, call: CloseCall, source: Source) {
    && call.branch == source.branch && call.clean && call.planAuthorized && call.stopped
    && source.branch in r.work && r.work[source.branch].local == source.sha
  }

  // After a run that never drops the commit, `close` removes the worktree, and
  // succeeds exactly when the branch may also be deleted: its upstream, or without
  // one HEAD where `close` is run, contains the commit.
  lemma CloseSucceeds(r: Repo, steps: seq<Step>, source: Source, call: CloseCall)
    requires Inv(r) && Closable(r, source) && NeverDrops(r, steps, source.sha)
    requires ReadyToClose(After(r, steps), call, source)
    ensures var (later, closed) := Close(After(r, steps), call);
      && source.branch !in later.work
      && (closed <==> MayDelete(later.graph, source.sha, call.upstream, call.head))
  {
    GreenBranchStaysClosable(r, steps, source);
  }

  // Directly after a step that drops the commit, `close` refuses and changes nothing.
  lemma CloseFailsOnceDropped(r: Repo, step: Step, source: Source, call: CloseCall)
    requires Inv(r) && Closable(r, source) && Drops(r, step, source.sha)
    requires Inv(Apply(r, step)) && ReadyToClose(Apply(r, step), call, source)
    ensures Close(Apply(r, step), call) == (Apply(r, step), false)
  {
    StepKeepsMergedIff(r, step, source.sha);
  }

  // ---- all green receipts -----------------------------------------------------------------

  // Local staging contains every commit that a green receipt names.
  ghost predicate Covered(r: Repo)
    requires WellFormed(r.graph)
  {
    forall i | 0 <= i < |r.attempts| && r.attempts[i].state.GreenAttempt? ::
      r.attempts[i].staging.Some? && MergedIntoStaging(r, r.attempts[i].staging.value)
  }

  lemma FreshIsCovered(r: Repo)
    requires Fresh(r)
    ensures Inv(r) && Covered(r)
  {
    FreshIsSound(r);
  }

  lemma CoveredForward(r: Repo, later: Repo)
    requires Inv(r) && Inv(later) && Covered(r) && MovedForward(r, later)
    ensures Covered(later)
  {
    var n := |r.attempts|;
    PrecedesStable(r.graph, later.graph);
    forall i | 0 <= i < |later.attempts| && later.attempts[i].state.GreenAttempt?
      ensures later.attempts[i].staging.Some? && MergedIntoStaging(later, later.attempts[i].staging.value)
    {
      if i < n {
        assert later.attempts[i] == later.attempts[..n][i] == r.attempts[i];
        PrecedesTransitive(later.graph, r.attempts[i].staging.value, r.localStaging.value, later.localStaging.value);
      }
    }
  }

  // The step drops a commit that a green receipt names.
  ghost predicate Uncovers(r: Repo, step: Step)
    requires Inv(r)
  {
    exists i | 0 <= i < |r.attempts| && r.attempts[i].state.GreenAttempt? ::
      r.attempts[i].staging.Some? && Drops(r, step, r.attempts[i].staging.value)
  }

  // One step keeps every green receipt covered exactly when it drops no commit that
  // one of them names.
  lemma StepCoversIff(r: Repo, step: Step)
    requires Inv(r) && Covered(r)
    ensures Inv(Apply(r, step))
    ensures Covered(Apply(r, step)) <==> !Uncovers(r, step)
  {
    StepKeeps(r, step);
    if step.Promoting? {
      PromotionKeepsAttempts(r, step.promote);
      forall i | 0 <= i < |r.attempts| && r.attempts[i].state.GreenAttempt?
        ensures MergedIntoStaging(Apply(r, step), r.attempts[i].staging.value)
                <==> !Drops(r, step, r.attempts[i].staging.value)
      {
        StepKeepsMergedIff(r, step, r.attempts[i].staging.value);
      }
    } else {
      StepMovesForward(r, step);
      CoveredForward(r, Apply(r, step));
    }
  }

  // No step of the run drops a commit that a green receipt names.
  ghost predicate NeverUncovers(r: Repo, steps: seq<Step>)
    requires Inv(r)
    decreases |steps|
  {
    steps == []
    || (!Uncovers(r, steps[0]) && (StepKeeps(r, steps[0]); NeverUncovers(Apply(r, steps[0]), steps[1..])))
  }

  ghost predicate StaysCovered(r: Repo, steps: seq<Step>)
    requires Inv(r)
    decreases |steps|
  {
    Covered(r) && (steps == [] || (StepKeeps(r, steps[0]); StaysCovered(Apply(r, steps[0]), steps[1..])))
  }

  // A run that starts covered, as from a fresh repository, stays covered throughout
  // exactly when no step of it drops a commit that a green receipt names.
  lemma {:induction false} RunCoversIff(r: Repo, steps: seq<Step>)
    requires Inv(r) && Covered(r)
    ensures StaysCovered(r, steps) <==> NeverUncovers(r, steps)
    decreases |steps|
  {
    if steps != [] {
      StepKeeps(r, steps[0]);
      StepCoversIff(r, steps[0]);
      if !Uncovers(r, steps[0]) { RunCoversIff(Apply(r, steps[0]), steps[1..]); }
    }
  }

  // As long as a repository is covered, every branch with a green receipt is closable.
  lemma CoveredIsClosable(r: Repo, source: Source)
    requires Inv(r) && Covered(r) && HasGreenReceipt(r, source)
    ensures Closable(r, source)
  {
    var i :| 0 <= i < |r.attempts| && Covers(r.attempts[i], source);
    assert GreenSound(r, r.attempts[i]);
    PrecedesTransitive(r.graph, source.sha, r.attempts[i].staging.value, r.localStaging.value);
  }
}
