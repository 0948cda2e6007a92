/**
 The persistent staging protocol of scripts/staging.py, with `close` of
 scripts/worktree.py.

 `Repo` is everything the protocol reads and writes: the commit graph, the local,
 tracking and remote refs of master and staging, the work branches, the two
 degraded markers, the recorded attempts and the promotion receipts.  Each
 command is a function from a repository and one call to the repository it
 leaves.  A call carries every answer the outside world gives while the command
 runs: whether the checkouts are clean, which merges conflict, what each push
 reports and what hosted CI shows.
 */
module Staging {
  import opened Wrappers
  import opened CommitGraph
  import opened CiEvidence

  // ---- state --------------------------------------------------------------

  datatype Source = Source(branch: string, sha: Commit)

  datatype Marker = Marker(staging: Commit, start: Commit, sources: seq<Source>)

  datatype AttemptState = ConflictAttempt | PushFailedAttempt | DegradedAttempt | GreenAttempt

  datatype Attempt = Attempt(state: AttemptState, staging: Option<Commit>, start: Option<Commit>, sources: seq<Source>)

  // A work branch checked out in its own worktree, and its branch at the host.
  datatype WorkBranch = WorkBranch(local: Commit, remote: Option<Commit>)

  datatype Repo = Repo(
    graph: Graph,
    localMaster: Commit, trackingMaster: Commit, remoteMaster: Commit,
    localStaging: Option<Commit>, trackingStaging: Option<Commit>, remoteStaging: Option<Commit>,
    checkout: bool, // the staging worktree exists
    work: map<string, WorkBranch>,
    degraded: Option<Marker>, masterDegraded: Option<Commit>,
    attempts: seq<Attempt>, receipts: map<Commit, Receipt>)

  // The checkout a command is run from.
  datatype Place = RootMaster | StagingCheckout | Elsewhere

  // What a push reports.  An unacknowledged push moved the remote ref, but the
  // command saw a failure.
  datatype Push = Accepted | Declined | Unacknowledged

  predicate Stored(graph: Graph, commit: Option<Commit>) { commit.Some? ==> commit.value < |graph| }

  ghost predicate InRange(r: Repo) {
    && WellFormed(r.graph)
    && r.localMaster < |r.graph| && r.trackingMaster < |r.graph| && r.remoteMaster < |r.graph|
    && Stored(r.graph, r.localStaging) && Stored(r.graph, r.trackingStaging) && Stored(r.graph, r.remoteStaging)
    && (r.checkout ==> r.localStaging.Some?)
    && (forall b | b in r.work :: r.work[b].local < |r.graph| && Stored(r.graph, r.work[b].remote))
  }

  // ---- shared checks --------------------------------------------------------

  function FetchMaster(r: Repo): Repo { r.(trackingMaster := r.remoteMaster) }

  function FetchStaging(r: Repo): Repo { r.(trackingStaging := r.remoteStaging) }

  // root_master_ready: the checkout is a coordinator, it is clean, and local
  // master equals the freshly fetched remote one.
  predicate MayCoordinate(r: Repo, place: Place, clean: bool) {
    clean && (place.RootMaster? || (place.StagingCheckout? && r.checkout))
  }

  function RootReady(r: Repo, place: Place, clean: bool): (Repo, bool) {
    if !MayCoordinate(r, place, clean) then (r, false)
    else var r1 := FetchMaster(r); (r1, r1.localMaster == r1.trackingMaster)
  }

  // synchronized: the staging checkout is clean and equals the tracking ref.
  function Synchronized(r: Repo, clean: bool): Option<Commit> {
    if clean && r.localStaging.Some? && r.localStaging == r.trackingStaging then r.localStaging else None
  }

  // ensure_staging
  function EnsureStaging(r: Repo, remediate: bool, clean: bool): (Repo, Option<Commit>) {
    if !r.checkout || r.remoteStaging.None? then (r, None)
    else
      var r1 := FetchStaging(r);
      (r1, if r1.degraded.Some? && !remediate then None else Synchronized(r1, clean))
  }

  // ---- bootstrap --------------------------------------------------------------

  datatype BootstrapCall = BootstrapCall(
    place: Place, rootClean: bool, confirm: Commit, push: Push, stagingClean: bool)

  function Head(r: Repo, place: Place): Option<Commit> {
    if place.StagingCheckout? then r.localStaging else Some(r.localMaster)
  }

  function Bootstrap(r: Repo, call: BootstrapCall): (Repo, bool) {
    var (r0, ready) := RootReady(r, call.place, call.rootClean);
    var current := Head(r0, call.place);
    if !ready || r0.masterDegraded.Some? || current != Some(call.confirm)
       || (r0.localStaging.Some? && r0.localStaging != current)
       || (r0.remoteStaging.Some? && r0.remoteStaging != current) then (r0, false)
    else
      var r1 := r0.(localStaging := current);
      if r1.remoteStaging.None? && call.push.Declined? then (r1, false)
      else if r1.remoteStaging.None? && call.push.Unacknowledged? then (r1.(remoteStaging := current), false)
      else
        var r2 := FetchStaging(r1.(remoteStaging := current, checkout := true));
        (r2, Synchronized(r2, call.stagingClean).Some?)
  }

  // ---- integrate ----------------------------------------------------------------

  // What the outside world says about one named source branch.
  datatype SourceCheck = SourceCheck(clean: bool, closed: bool, ci: Answer)

  datatype IntegrateCall = IntegrateCall(
    place: Place, rootClean: bool, branches: seq<string>, remediate: bool, stagingClean: bool,
    checks: string -> SourceCheck, conflicts: string -> bool, push: Push, ci: Answer,
    cleanAfterCi: bool, cleanOnFailure: bool)

  datatype IntegrateOutcome = IntegrateRefused | Conflicted | PushFailed | Degraded | Unsettled | Green

  predicate NamesAcceptable(branches: seq<string>) {
    && branches != []
    && (forall i, j | 0 <= i < j < |branches| :: branches[i] != branches[j])
    && (forall i | 0 <= i < |branches| :: IsWorkBranch(branches[i]))
  }

  ghost predicate SourceReady(r: Repo, start: Commit, branch: string, remediate: bool, check: SourceCheck)
    requires InRange(r)
  {
    && branch in r.work && r.work[branch].remote == Some(r.work[branch].local)
    && check.clean && check.closed
    && (remediate ==> Precedes(r.graph, start, r.work[branch].local))
    && GithubRun(branch, r.work[branch].local, false, check.ci).Some?
  }

  ghost predicate SourcesReady(r: Repo, start: Commit, call: IntegrateCall)
    requires InRange(r)
  {
    forall i | 0 <= i < |call.branches| ::
      SourceReady(r, start, call.branches[i], call.remediate, call.checks(call.branches[i]))
  }

  // The named branches with the commits they are frozen at.
  function Frozen(r: Repo, branches: seq<string>): (sources: seq<Source>)
    requires forall i | 0 <= i < |branches| :: branches[i] in r.work
    ensures |sources| == |branches|
    ensures forall i | 0 <= i < |branches| :: sources[i] == Source(branches[i], r.work[branches[i]].local)
  {
    seq(|branches|, i requires 0 <= i < |branches| => Source(branches[i], r.work[branches[i]].local))
  }

  datatype Merge = Merged(graph: Graph, head: Commit) | Stopped(graph: Graph, at: Source)

  // The merge loop.  A source that is already contained leaves the head alone;
  // otherwise the merge either conflicts or adds one commit with two parents.
  function MergeAll(graph: Graph, head: Commit, sources: seq<Source>, conflicts: string -> bool): (merge: Merge)
    requires WellFormed(graph) && head < |graph|
    requires forall s | s in sources :: s.sha < |graph|
    ensures WellFormed(merge.graph) && Grows(graph, merge.graph)
    ensures merge.Merged? ==> merge.head < |merge.graph|
    ensures merge.Stopped? ==> merge.at in sources
    decreases |sources|
  {
    if sources == [] then Merged(graph, head)
    else
      var source := sources[0];
      if Precedes(graph, source.sha, head) then MergeAll(graph, head, sources[1..], conflicts)
      else if conflicts(source.branch) then Stopped(graph, source)
      else MergeAll(graph + [{head, source.sha}], |graph|, sources[1..], conflicts)
  }

  ghost function Integrate(r: Repo, call: IntegrateCall): (Repo, IntegrateOutcome)
    requires InRange(r)
  {
    var (r0, ready) := RootReady(r, call.place, call.rootClean);
    if !ready || !NamesAcceptable(call.branches) then (r0, IntegrateRefused)
    else
      var (r1, found) := EnsureStaging(r0, call.remediate, call.stagingClean);
      if found.None? || !SourcesReady(r1, found.value, call) then (r1, IntegrateRefused)
      else MergeAndPublish(r1, found.value, call)
  }

  // Merge the frozen sources onto the start, all of them or none.
  ghost function MergeAndPublish(r: Repo, start: Commit, call: IntegrateCall): (Repo, IntegrateOutcome)
    requires InRange(r) && start < |r.graph| && SourcesReady(r, start, call)
  {
    var sources := Frozen(r, call.branches);
    match MergeAll(r.graph, start, sources, call.conflicts)
    case Stopped(graph, at) =>
      (r.(graph := graph, attempts := r.attempts + [Attempt(ConflictAttempt, None, Some(start), [at])]), Conflicted)
    case Merged(graph, head) =>
      Publish(r.(graph := graph, localStaging := Some(head)), start, head, sources, call)
  }

  // The failure handler resets a dirty staging checkout to where it started.
  function AfterFailure(r: Repo, start: Commit, clean: bool): Repo {
    if clean then r else r.(localStaging := Some(start))
  }

  // Push the merged head, wait for its exact CI, and record the outcome.
  ghost function Publish(r: Repo, start: Commit, head: Commit, sources: seq<Source>, call: IntegrateCall)
    : (Repo, IntegrateOutcome)
  {
    if !call.push.Accepted? then
      var pushed := if call.push.Unacknowledged? then r.(remoteStaging := Some(head)) else r;
      var restored := if pushed.trackingStaging == Some(start) then pushed.(localStaging := Some(start)) else pushed;
      (restored.(attempts := restored.attempts + [Attempt(PushFailedAttempt, None, Some(start), sources)]),
       PushFailed)
    else
      var pushed := r.(remoteStaging := Some(head), trackingStaging := Some(head));
      if GithubRun("staging", head, true, call.ci).None? then
        (AfterFailure(pushed.(degraded := Some(Marker(head, start, sources)),
                              attempts := pushed.attempts + [Attempt(DegradedAttempt, Some(head), None, sources)]),
                      start, call.cleanOnFailure),
         Degraded)
      else
        var fetched := FetchStaging(pushed);
        if Synchronized(fetched, call.cleanAfterCi) != Some(head) then
          (AfterFailure(fetched, start, call.cleanOnFailure), Unsettled)
        else
          (fetched.(degraded := None,
                    attempts := fetched.attempts + [Attempt(GreenAttempt, Some(head), Some(start), sources)]),
           Green)
  }

  // ---- reconcile ------------------------------------------------------------------

  datatype ReconcileCall = ReconcileCall(
    place: Place, rootClean: bool, commit: Commit, stagingClean: bool, ci: Answer, cleanAfterCi: bool)

  predicate DistinctNames(sources: seq<Source>) {
    forall i, j | 0 <= i < j < |sources| :: sources[i].branch != sources[j].branch
  }

  // Every check that reconcile makes on the recorded marker.
  predicate MarkerAcceptable(graph: Graph, marker: Marker)
    requires WellFormed(graph)
  {
    && marker.sources != []
    && (forall i | 0 <= i < |marker.sources| :: IsWorkBranch(marker.sources[i].branch))
    && DistinctNames(marker.sources)
    && Precedes(graph, marker.start, marker.staging)
    && (forall i | 0 <= i < |marker.sources| :: Precedes(graph, marker.sources[i].sha, marker.staging))
  }

  ghost function Reconcile(r: Repo, call: ReconcileCall): (Repo, bool)
    requires InRange(r)
  {
    if !call.place.StagingCheckout? then (r, false)
    else
      var (r0, ready) := RootReady(r, call.place, call.rootClean);
      if !ready || r0.degraded.None? || r0.degraded.value.staging != call.commit then (r0, false)
      else
        var marker := r0.degraded.value;
        var (r1, found) := EnsureStaging(r0, true, call.stagingClean);
        if found != Some(call.commit) || !MarkerAcceptable(r1.graph, marker) then (r1, false)
        else
          var ci := GithubRun("staging", call.commit, true, call.ci);
          if ci.None?
             || !PromotionEvidence(ci.value, "staging", call.commit, ci.value.profile.mode, ci.value.profile.verified)
          then (r1, false)
          else
            var r2 := FetchStaging(r1);
            if Synchronized(r2, call.cleanAfterCi) != Some(call.commit) then (r2, false)
            else
              (r2.(degraded := None,
                   attempts := r2.attempts
                               + [Attempt(GreenAttempt, Some(call.commit), Some(marker.start), marker.sources)]),
               true)
  }

  // ---- promote -----------------------------------------------------------------------

  datatype PromoteCall = PromoteCall(
    place: Place, commit: Commit, confirm: Commit, rootClean: bool, stagingClean: bool, ci: Answer,
    rootCleanAgain: bool, stagingCleanAgain: bool, push: Push, masterCi: Answer)

  datatype PromoteOutcome = PromoteRefused | MasterPushFailed | ReleaseDegraded | ReleaseUnsettled | Promoted

  // `git reset --hard` and `git merge` act on whatever branch the checkout has.
  function MoveHead(r: Repo, place: Place, commit: Commit): Repo {
    if place.StagingCheckout? then r.(localStaging := Some(commit)) else r.(localMaster := commit)
  }

  ghost function Promote(r: Repo, call: PromoteCall): (Repo, PromoteOutcome)
    requires InRange(r)
  {
    if call.confirm != call.commit then (r, PromoteRefused)
    else
      var (r0, ready) := RootReady(r, call.place, call.rootClean);
      if !ready then (r0, PromoteRefused)
      else
        var masterStart := r0.localMaster;
        var (r1, found) := EnsureStaging(r0, false, call.stagingClean);
        var ci := GithubRun("staging", call.commit, true, call.ci);
        if found != Some(call.commit) || ci.None? then (r1, PromoteRefused)
        else
          var (r2, readyAgain) := RootReady(r1, call.place, call.rootCleanAgain);
          if !readyAgain || Synchronized(r2, call.stagingCleanAgain) != Some(call.commit)
             || !Precedes(r2.graph, r2.localMaster, call.commit) then (r2, PromoteRefused)
          else
            Release(MoveHead(r2, call.place, call.commit), masterStart, ci.value, call)
  }

  // Push local master and check the release run on it.
  ghost function Release(r: Repo, masterStart: Commit, ci: Selected, call: PromoteCall): (Repo, PromoteOutcome) {
    if !call.push.Accepted? then
      var pushed := if call.push.Unacknowledged? then r.(remoteMaster := r.localMaster) else r;
      (if pushed.trackingMaster == masterStart then MoveHead(pushed, call.place, masterStart) else pushed,
       MasterPushFailed)
    else
      var pushed := r.(remoteMaster := r.localMaster, trackingMaster := r.localMaster);
      var masterCi := GithubRun("master", call.commit, true, call.masterCi);
      if masterCi.None?
         || !PromotionEvidence(masterCi.value, "master", call.commit, MASTER_MODE, [PROVENANCE]) then
        (pushed.(masterDegraded := Some(call.commit)), ReleaseDegraded)
      else
        var fetched := FetchMaster(pushed);
        if Head(fetched, call.place) != Some(call.commit) || fetched.trackingMaster != call.commit then
          (fetched, ReleaseUnsettled)
        else
          (fetched.(masterDegraded := None,
                    receipts := fetched.receipts[call.commit := PromotionReceipt(call.commit, ci, masterCi.value)]),
           Promoted)
  }

  // ---- scripts/worktree.py: close -------------------------------------------------------

  // With the upstream of the branch, if it has one, and HEAD of the checkout that
  // the command is run from.
  datatype CloseCall = CloseCall(
    branch: string, clean: bool, planAuthorized: bool, stopped: bool, upstream: Option<Commit>, head: Commit)

  predicate Covers(attempt: Attempt, source: Source) {
    attempt.state.GreenAttempt? && source in attempt.sources
  }

  predicate HasGreenReceipt(r: Repo, source: Source) {
    exists i | 0 <= i < |r.attempts| :: Covers(r.attempts[i], source)
  }

  predicate MergedIntoStaging(r: Repo, commit: Commit)
    requires WellFormed(r.graph)
  {
    r.localStaging.Some? && Precedes(r.graph, commit, r.localStaging.value)
  }

  // git branch -d: the commit is in the upstream of its branch or, without one, in HEAD.
  predicate MayDelete(graph: Graph, commit: Commit, upstream: Option<Commit>, head: Commit)
    requires WellFormed(graph)
  {
    Precedes(graph, commit, if upstream.Some? then upstream.value else head)
  }

  // The worktree is removed before the branch, and stays removed when the branch is
  // then not deleted.
  function Close(r: Repo, call: CloseCall): (Repo, bool)
    requires InRange(r)
  {
    if call.branch in r.work && call.clean && call.planAuthorized && call.stopped
       && HasGreenReceipt(r, Source(call.branch, r.work[call.branch].local))
       && MergedIntoStaging(r, r.work[call.branch].local)
    then (r.(work := r.work - {call.branch}),
          MayDelete(r.graph, r.work[call.branch].local, call.upstream, call.head))
    else (r, false)
  }

  // ---- runs -------------------------------------------------------------------------------

  // One command, or one change made outside the protocol: somebody commits,
  // moves or drops a work branch, or fast-forwards a local ref to the remote one.
  datatype Step =
    | Bootstrapping(bootstrap: BootstrapCall)
    | Integrating(integrate: IntegrateCall)
    | Reconciling(reconcile: ReconcileCall)
    | Promoting(promote: PromoteCall)
    | Closing(close: CloseCall)
    | Committing(parents: set<Commit>)
    | Working(branch: string, to: Option<WorkBranch>)
    | PullingStaging
    | PullingMaster

  ghost function Apply(r: Repo, step: Step): Repo
    requires InRange(r)
  {
    match step
    case Bootstrapping(call) => Bootstrap(r, call).0
    case Integrating(call) => Integrate(r, call).0
    case Reconciling(call) => Reconcile(r, call).0
    case Promoting(call) => Promote(r, call).0
    case Closing(call) => Close(r, call).0
    case Committing(parents) =>
      if forall p | p in parents :: p < |r.graph| then r.(graph := r.graph + [parents]) else r
    case Working(branch, to) =>
      if to.None? then r.(work := r.work - {branch})
      else if to.value.local < |r.graph| && Stored(r.graph, to.value.remote)
      then r.(work := r.work[branch := to.value]) else r
    case PullingStaging =>
      if r.localStaging.Some? && r.remoteStaging.Some?
         && Precedes(r.graph, r.localStaging.value, r.remoteStaging.value)
      then FetchStaging(r).(localStaging := r.remoteStaging) else r
    case PullingMaster =>
      if Precedes(r.graph, r.localMaster, r.remoteMaster)
      then FetchMaster(r).(localMaster := r.remoteMaster) else r
  }
}
