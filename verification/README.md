# Verified models of the staging workflow and the runtime's state machines

A Dafny project about eight parts of the charting platform that keep state across
commands, processes or messages. Each part is modelled as the code does it, branch
by branch, and what the code is for is proved over every input, every run or every
interleaving. `dafny verify dfyconfig.toml` checks all of it.

| part | files |
|---|---|
| staging, promotion and close, as commands on a commit graph | `CommitGraph`, `Staging`, `StagingSafety`, `StagingTheorems`, `StagingOutcomes`, `StagingClose`, `StagingMarkers`, `StagingExamples`, `StagingCommands` |
| the four checkers of CI evidence | `CiEvidence` |
| the strategy invocation session, its two drivers and `main` | `StrategySession` |
| the port allocator shared by worktrees | `RuntimeAllocator` |
| the session claim protocol | `SessionClaims` |
| verification and replay of stored pages | `StoredPages` |
| quota preflight, planned operation counts and live reservations | `QuotaPreflight`, `QuotaLive`, `CaseOperations` |
| live evidence of provider runs | `LiveLedger`, `LiveEvidence` |
| the usage-receipt ledger | `UsageRows`, `UsageLedger` |
| the tagged wire values and the custom-metric codec | `WireValue`, `MetricCodec`, `MetricRules` |
| the sharded backend test run | `TestShards` |
| shared: `Option`, strings | `Wrappers`, `Text` |

The shape is the same everywhere. Code that changes things step by step is a class
or a method with loops (`Coordinator`, `StrategyInvocationSession`,
`SharedRegistry`, `ClaimFiles`, `Ledger`, the checks of the live evidence). Where
several commands share a state, each method is proved equal to a specification
function on values, and the laws are proved about that function, over runs where the
law is about runs. Beside the laws stands an exact account of when an operation does
what, over every state and in terms of the fields and answers themselves: the lemmas
named `...Iff`, `...Endings` and `...Exactly`, and `AnswersAreDue`, `CallerRecord` and
`PlanShape`. Everything the outside world decides (merge conflicts, what a push reports,
hosted CI, Git, Docker, bindable ports, plans, baselines, digests, exit statuses) is an
argument of the step that meets it, so every theorem holds for all of its answers.

## What the proofs found

- An integration is all-or-nothing except in two cases, and `IntegrateAllOrNothing`
  gives the exact condition: the push reached the host without being acknowledged, or
  a failure after the push found the staging checkout dirty and reset it behind the
  pushed commit. `UnacknowledgedPushSplits` and `DirtyFailureSplits` are such runs.
- `promote` may run from the persistent staging checkout, but `git merge --ff-only`
  and the undo `git reset --hard` then act on the staging branch. Such a promotion can
  only complete when master already is the commit (`PromotedIff`); if its push fails,
  the undo resets staging to the old master (`PromotionResetsStagingIff`). A branch
  that is closable stays so throughout a run exactly when no such reset drops the
  branch's own commit (`StepKeepsMergedIff`, `GreenBranchStaysClosable`):
  `CarelessPromotionUncovers` is a run that loses a branch, and in
  `ResetDropsOneBranchOnly` the reset loses one branch and leaves another.
- A remediation of degraded staging whose push is not acknowledged, or whose green
  watch ends on a checkout that is not synchronized, moves staging past the commit that
  the old marker names. From then on no reconciliation can clear that marker, and it
  stays exactly until another integration settles (`StrandsIff`, `StrandedUntilSettled`,
  `RemediationStrandsMarker`).
- `close` removes the worktree before it deletes the branch, so it can fail with the
  worktree gone: the deletion succeeds exactly when the branch's upstream contains the
  commit or, without an upstream, HEAD where `close` is run (`CloseSucceeds`).
- `promote` never checks the id of the staging run it records. The deployment checker
  does, so a receipt is readable exactly when that id is positive
  (`PromotionReceiptQualifies`, `RunKeepsReceipts`).
- docs/agent-orchestration.md says that a degraded master blocks new integration until
  it is repaired. The code consults that marker in `bootstrap` only: integrations and
  promotions end the same way, in the same repository, with and without it
  (`MasterMarkerIgnoredByIntegrate`, `MasterMarkerIgnoredByPromote`). It also says that
  each source keeps a non-fast-forward merge boundary; a source that staging already
  contains gets none (`ContainedSourceIsSkipped`, `NothingMergedIff`).
- The two strategy drivers differ on a request that is out of order after a context
  that did not succeed. `main` nevertheless ends alike on both paths, and only because
  it decodes the whole stream once before running it (`ExitsAgree`,
  `VerificationPassMattersIff`).
- The preflight plans every operation under one made-up identity, so a symbol pool
  costs one symbol however many operations charge it, and is admitted as soon as one is
  left (`SymbolPoolCostsOne`, `SymbolPoolAdmittedIff`). The live runs reserve under
  symbols of their own, and the coordinator charges each new one: an admitted plan is
  served in every order and under all symbols exactly when the pool has a unit for each
  planned unit (`ServedIff`, `AdmittedIsServedIff`), and `AdmittedRunIsDenied` is one
  that is admitted and then denied. Every other pool is counted in units, because the
  planner gives an identity to symbol specs only (`RuleCountsOneWay`); the planning
  loop would miscount a pool of both kinds, exactly when a plain cost precedes an
  identified one (`MixedPoolTotalIff`).
- The full-matrix table equals the count of selecting every case exactly when no case
  that sends something is listed twice (`FullMatrixIsSelectingAllIff`).
- A verified scan is not always readable: the offset-indexed reader returns every page
  exactly when each page before the last that has no rows and names no later offset
  equals the page after it (`ReaderReturnsEveryPageIff`, `EmptyContinuationIsHidden`).
- Of the four duplicate checks of the live ledger one never finds a fault on its own, as
  a repeated operation receipt has a repeated identity (`ScanReservation`). Another, on
  the operations of a case, finds one only where they are a list instead of an object
  (`ScanCaseOperations`, `OnlyListsRepeat`); and such a list stops the aggregation when
  its provider is asked for (`ProviderLiveEvidence`).
- A receipt that is not UTF-8 stops a merge of usage receipts with the earlier sources
  already merged; repeating the merge with readable files makes it good
  (`MergeReceipts`, `StoppedMergeResumes`).
- The wire format accepts a `set` that holds a `frozenset`, and cannot read it back: a
  sent value returns exactly when no set occurs inside an element of a set, and decodes
  to nothing otherwise (`RoundTrip`, `NestedSetIsLost`). Metric values are not affected,
  because they are frozen first and freezing leaves no set.
- A duration can be part of a valid invocation, but it has no wire form, at whatever
  depth it occurs: a valid invocation can be sent exactly when no duration occurs among
  its parameters (`EncodeFailsIff`, `InvocationIsSentIff`).

## Model

| member | source | states |
|---|---|---|
| `CommitGraph.AncestorTransitive` | scripts/staging.py:875-888 | ancestry as `git merge-base --is-ancestor` decides it is transitive |
| `CommitGraph.AncestorIffWalk` | scripts/staging.py:875-888 | the ancestors of a commit are exactly what a walk over parents reaches |
| `CommitGraph.MergeBaseIsStart` | scripts/staging.py:722-728 | the merge base of staging and a remediation branch is the start exactly when the start is an ancestor of the branch |
| `CiEvidence.MatchingSole` | scripts/staging.py:572-581 | filtering the job list by name finds one entry exactly when the list holds exactly one |
| `CiEvidence.ProductConclusions` | scripts/staging.py:596-603 | fails exactly when some product job is not listed once as completed |
| `CiEvidence.SelectStagingProfile` | scripts/staging.py:583-624 | the staging branch of `github_run` accepts exactly the lists that pass the reference gate, with the recorded profile |
| `CiEvidence.BranchCiMode` | scripts/staging.py:99-125 | a work branch needs the scope and declared jobs once each and uniformly passed or skipped product jobs |
| `CiEvidence.BranchIntegrableIff` | scripts/staging.py:99-125 | over the matching jobs: exactly which lists make a work branch integrable, and what is recorded as not run |
| `CiEvidence.InspectRun` | scripts/staging.py:299-646 | the run found is used only if it is the successful push run of the CI workflow for exactly this branch and commit, with the right jobs |
| `CiEvidence.GithubRunIff` | scripts/staging.py:299-646 | a run is used exactly under these conditions on its identity, its conclusion and the matching jobs |
| `CiEvidence.RequireTrustedRun` | scripts/verify-master-promotion.py:14-69 | accepts exactly the trusted staging runs that pass the reference gate |
| `CiEvidence.TrustedMeansFullGate` | scripts/verify-master-promotion.py:14-69 | what the promotion checker trusts is a trusted staging run that passes the reference gate |
| `CiEvidence.StagingQualifiesIffFullGate` | scripts/verify-prior-qualification.py:23-69 | on a staging run, prior qualification accepts exactly the same lists |
| `CiEvidence.MasterReplayIsFullGate` | scripts/verify-prior-qualification.py:70-94 | a master replay qualifies exactly the gate lists whose product suites all passed |
| `CiEvidence.FullBranchModeIffQualifies` | scripts/verify-prior-qualification.py:95-104 | a work branch read as the full suite is a qualified parent, and conversely up to the scope job |
| `CiEvidence.ProfileIsOrderFree` | scripts/staging.py:99-125 | reordering the job list changes neither verdict nor recorded profile |
| `CiEvidence.StagingCheckersAgree` | scripts/verify-prior-qualification.py:23-69 | for one trusted staging run the integrator, the promotion checker and prior qualification accept the same job lists, in any order |
| `CiEvidence.PromotionReceiptQualifies` | scripts/rpi.py:153-214 | a promotion receipt passes the deployment checker exactly when the staging run id is positive |
| `CiEvidence.QualifiedReceiptIff` | scripts/rpi.py:153-214 | exactly which receipts the deployment checker accepts without a replay on the host, field by field |
| `StagingSafety.MergeHoldsExactly` | scripts/staging.py:731-766 | a completed merge loop holds exactly the history of its start and of all its sources |
| `StagingSafety.MergeStopsIff` | scripts/staging.py:731-766 | the loop stops exactly when a source not yet contained conflicts at its turn, at the first such source |
| `StagingSafety.MergeBoundaries` | scripts/staging.py:731-766 | a completed loop makes one merge commit for each source not contained, in a row on the start, and no other |
| `StagingSafety.ContainedSourceIsSkipped` | scripts/staging.py:731-737 | an integration with a source that is already contained builds the same graph, head and conflict as without it |
| `StagingSafety.NothingMergedIff` | scripts/staging.py:731-766 | the merge loop adds no commit exactly when every source is already contained |
| `StagingSafety.BootstrapKeeps` | scripts/staging.py:662-690 | bootstrap keeps the invariant and only moves remote refs forward |
| `StagingSafety.IntegrateKeeps` | scripts/staging.py:708-835 | integrate keeps the invariant: master behind staging, markers and green receipts sound, nothing recorded is lost |
| `StagingSafety.ReconcileKeeps` | scripts/staging.py:838-916 | reconcile keeps the invariant |
| `StagingSafety.PromoteKeeps` | scripts/staging.py:919-1017 | promote keeps the invariant from either checkout and with any push report |
| `StagingSafety.OutsideKeeps` | scripts/worktree.py:737-783 | closing, committing, moving work branches and pulling keep the invariant |
| `StagingSafety.PublishShape` | scripts/staging.py:767-835 | how publishing ends: where the staging refs stand and the one record that is added |
| `StagingSafety.RunsAdvance` | scripts/staging.py:662-1017 | over every run both remote refs move only to descendants, master stays an ancestor of staging, no attempt or receipt is lost |
| `StagingTheorems.IntegrateShape` | scripts/staging.py:708-835 | an integration that never merged changed nothing but fetched refs; a conflict restores the start; otherwise the merged head is published |
| `StagingTheorems.IntegrateAllOrNothing` | scripts/staging.py:708-835 | ends at the start with the remote untouched, or at a pushed commit that the marker names or whose own staging run is green, exactly outside two cases |
| `StagingExamples.UnacknowledgedPushSplits` | scripts/staging.py:767-786 | a sound repository and an unacknowledged push that leave the remote at a commit neither green nor marked |
| `StagingExamples.DirtyFailureSplits` | scripts/staging.py:787-835 | a sound repository and a failed watch on a dirty checkout that leave local staging behind the marked commit |
| `StagingTheorems.PublishOutcomes` | scripts/staging.py:767-835 | the four endings of publishing and the answers that lead to each |
| `StagingTheorems.PublishedHistory` | scripts/staging.py:717-786 | a merged head contains exactly the history of the start and of every frozen source |
| `StagingTheorems.ReconcileExact` | scripts/staging.py:838-916 | reconcile moves no ref and clears the marker exactly when it names the current synchronized commit and exact CI is green |
| `StagingTheorems.DegradedIsRecoverable` | scripts/staging.py:787-916 | after any failed watch, dirty checkout included, the marker is cleared once staging is pulled and CI turns green, after any run that leaves staging and the marker alone |
| `StagingTheorems.MasterMovesOnlyWhenQualified` | scripts/staging.py:919-976 | a new remote master was the synchronized staging commit with full-gate evidence and no marker |
| `StagingTheorems.PromoteShape` | scripts/staging.py:919-941 | a promotion that does not start changes only fetched refs; one that starts has master behind the commit |
| `StagingTheorems.PromotedIff` | scripts/staging.py:919-1017 | exactly when a promotion completes, and the refs, marker and receipt it leaves |
| `StagingTheorems.DegradedBlocks` | scripts/staging.py:693-705 | under a degraded marker nothing is promoted and only a remediation integrates |
| `StagingTheorems.PromotionResetsStagingIff` | scripts/staging.py:938-945 | a promotion moves local staging only from the staging checkout with a failed push |
| `StagingTheorems.MasterMarkerStopsBootstrap` | scripts/staging.py:195-208 | a degraded master stops bootstrap |
| `StagingTheorems.MasterMarkerIgnoredByIntegrate` | scripts/staging.py:708-835 | with and without the master marker an integration ends alike and leaves the same repository, marker included |
| `StagingTheorems.MasterMarkerIgnoredByPromote` | scripts/staging.py:919-1017 | with and without the master marker a promotion ends alike and leaves the same repository, but for the marker |
| `StagingTheorems.RunKeepsReceipts` | scripts/staging.py:977-1017 | in every run a promotion receipt is readable exactly when its staging run id is positive |
| `StagingOutcomes.BootstrapIff` | scripts/staging.py:662-690 | exactly when bootstrap succeeds, and the whole repository it leaves in every case |
| `StagingOutcomes.IntegrateStartsIff` | scripts/staging.py:708-730 | an integration is refused, changing only fetched refs, exactly unless checkout, master, staging, marker and every named branch are ready |
| `StagingOutcomes.IntegrateEndings` | scripts/staging.py:731-835 | the endings of a started integration, each with its exact condition and the whole repository left |
| `StagingOutcomes.ReconcileIff` | scripts/staging.py:838-916 | over any repository and marker: exactly when reconcile clears the marker, and what it leaves |
| `StagingOutcomes.PromoteEndings` | scripts/staging.py:919-1017 | the endings of a promotion, each with its exact condition and the whole repository left; only a failed release check marks master, with the pushed commit |
| `StagingOutcomes.CloseIff` | scripts/worktree.py:737-783 | over any repository: close removes the worktree exactly if it is clean, authorized, stopped and covered by a green attempt within staging; otherwise nothing changes |
| `StagingClose.StepKeepsMergedIff` | scripts/staging.py:662-1017 | a commit within staging stays there after a step exactly when the step is not a promotion that resets staging to a master without it |
| `StagingClose.StepCoversIff` | scripts/staging.py:662-1017 | a step leaves a green receipt ahead of staging exactly when it drops a commit that a green receipt names |
| `StagingClose.RunCoversIff` | scripts/staging.py:662-1017 | every green receipt stays within staging throughout a run exactly when no step drops a commit that one of them names |
| `StagingClose.FreshIsCovered` | scripts/staging.py:662-690 | in a repository before its first bootstrap every green receipt is within staging |
| `StagingClose.CoveredIsClosable` | scripts/worktree.py:750-773 | while every green receipt is within staging, every branch it covers is closable |
| `StagingClose.GreenBranchStaysClosable` | scripts/worktree.py:750-773 | a closable branch stays closable throughout a run exactly when no step of the run drops its own commit |
| `StagingClose.CloseSucceeds` | scripts/worktree.py:737-783 | after such a run close removes the clean, authorized, stopped worktree, and succeeds exactly when the branch may be deleted |
| `StagingClose.CloseFailsOnceDropped` | scripts/worktree.py:772-773 | directly after a step that drops the commit, close refuses and changes nothing |
| `StagingExamples.CarelessPromotionUncovers` | scripts/staging.py:938-945 | the run in which a promotion from the staging checkout makes a green branch unclosable |
| `StagingExamples.ResetDropsOneBranchOnly` | scripts/staging.py:938-945 | a reset that makes one green branch unclosable and leaves another closable |
| `StagingMarkers.StepMarks` | scripts/staging.py:662-1017 | only a settled integration and a reconciliation change the staging marker |
| `StagingMarkers.StrandsIff` | scripts/staging.py:767-835 | exactly which remediations leave a marker that names a commit staging has moved past |
| `StagingMarkers.StrandedComesFromMarker` | scripts/staging.py:767-835 | without a marker no step leads to such a one |
| `StagingMarkers.StrandedStaysIff` | scripts/staging.py:838-916 | a stranded marker stays after a step exactly when no integration settles in it; no reconciliation clears it |
| `StagingMarkers.StrandedUntilSettled` | scripts/staging.py:767-916 | a stranded marker is there after a run exactly when no integration of the run settled, and never comes back |
| `StagingExamples.RemediationStrandsMarker` | scripts/staging.py:770-786 | a degraded repository and a remediation that strands its marker |
| `StagingCommands.Coordinator.Bootstrap` | scripts/staging.py:662-690 | the command on fields equals its specification |
| `StagingCommands.Coordinator.MergeSources` | scripts/staging.py:731-766 | the merge loop equals the recursive merge; a conflict restores the start |
| `StagingCommands.Coordinator.Integrate` | scripts/staging.py:708-835 | the command on fields equals its specification |
| `StagingCommands.Coordinator.PublishMerged` | scripts/staging.py:767-835 | push, watch and record equal the specification |
| `StagingCommands.Coordinator.CheckMarker` | scripts/staging.py:857-888 | the loops over names and ancestry accept exactly the acceptable markers |
| `StagingCommands.Coordinator.Reconcile` | scripts/staging.py:838-916 | the command on fields equals its specification |
| `StagingCommands.Coordinator.Promote` | scripts/staging.py:919-1017 | the command on fields equals its specification |
| `StagingCommands.Coordinator.FindGreenReceipt` | scripts/worktree.py:751-769 | the receipt scan finds a green receipt exactly when one covers the branch at this commit |
| `StagingCommands.Coordinator.Close` | scripts/worktree.py:737-783 | the command on fields equals its specification, with the worktree gone when the branch cannot be deleted |
| `StrategySession.RejectedLeaveNoTrace` | backend/strategy_runtime/runner.py:348-436 | deleting any REJECTED contexts changes no other answer and not the session |
| `StrategySession.FailureIsFinal` | backend/strategy_runtime/runner.py:348-448 | after one FAILED answer all later ones are FAILED with its digest and the handler never runs again |
| `StrategySession.SucceededAreOrdered` | backend/strategy_runtime/runner.py:348-436 | SUCCEEDED contexts have increasing keys, one parameters digest and one seed |
| `StrategySession.InstanceIsKept` | backend/strategy_runtime/runner.py:262-268 | after any contexts the instance is what the handler makes, one on top of the other, of the contexts that were not refused up to the first failure |
| `StrategySession.AnswersAreDue` | backend/strategy_runtime/runner.py:348-448 | every answer exactly: the first failing check against all handled contexts, or what the handler gives at the kept instance, or the earlier failure |
| `StrategySession.UnreadyAnswers` | backend/strategy_runtime/runner.py:355-376 | a session without a strategy answers everything alike and stays as it is |
| `StrategySession.DriversAgree` | backend/strategy_runtime/runner.py:515-603 | on a chronological list both drivers give the same answers, all but the last SUCCEEDED |
| `StrategySession.DriversNeverReportDisorder` | backend/strategy_runtime/runner.py:515-603 | `context_not_monotonic` never arises through a driver |
| `StrategySession.DriversOnDisorder` | backend/strategy_runtime/runner.py:515-603 | on disorder at k the batch invokes nothing, the stream yields the answers to the first k and raises exactly if all succeeded |
| `StrategySession.ExitsAgree` | backend/strategy_runtime/runner.py:684-778 | both paths of main end alike; status 0 exactly when every context of a non-empty ordered request succeeded, and all answers are published |
| `StrategySession.StatusesMean` | backend/strategy_runtime/runner.py:684-778 | what each exit status means and which answers are published with it |
| `StrategySession.VerificationPassMattersIff` | backend/strategy_runtime/runner.py:722-745 | without the first decoding pass the two paths would differ on exactly these requests |
| `StrategySession.StrategyInvocationSession.InvokeNext` | backend/strategy_runtime/runner.py:348-448 | the method on fields equals the specification of one invocation |
| `StrategySession.RunStrategyEvents` | backend/strategy_runtime/runner.py:515-558 | the batch driver equals its specification |
| `StrategySession.RunStrategyEventStream` | backend/strategy_runtime/runner.py:561-603 | the stream driver equals its specification |
| `RuntimeAllocator.SearchIsFirstFit` | scripts/worktree-runtime.py:234-249 | the search returns the least usable port and fails only if none up to 65535 is |
| `RuntimeAllocator.AllocationIsFirstFit` | scripts/worktree-runtime.py:216-266 | a new allocation is first-fit against every surviving port; a call fails only when a key has no usable port |
| `RuntimeAllocator.AllocateKeepsDisjoint` | scripts/worktree-runtime.py:216-266 | one call keeps the integer ports of allocations disjoint, whatever an older registry holds |
| `RuntimeAllocator.AllocationsStayDisjoint` | scripts/worktree-runtime.py:382-398 | after any sequence of calls ports are disjoint between and distinct within allocations, one environment file each |
| `RuntimeAllocator.EmptyIsSound` | scripts/worktree-runtime.py:216-266 | an empty registry is sound, so runs may start from it |
| `RuntimeAllocator.ReclaimedIff` | scripts/worktree-runtime.py:179-199 | another worktree's call removes an allocation exactly when Git no longer lists it and Docker proves it stopped |
| `RuntimeAllocator.CallerRecord` | scripts/worktree-runtime.py:216-266 | the record a completed call leaves for its worktree, reused or new, field by field; a failed call changes nothing |
| `RuntimeAllocator.LastsIff` | scripts/worktree-runtime.py:179-199 | an allocation lasts through calls for others exactly until one completes, does not see its path listed and is told its named projects are stopped |
| `RuntimeAllocator.MadeLastsIff` | scripts/worktree-runtime.py:179-266 | the same for an allocation from the call that made it, with the projects given there |
| `RuntimeAllocator.AllocationIsStable` | scripts/worktree-runtime.py:179-249 | a complete allocation keeps its ports through any number of calls while Git lists it or Docker does not prove it stopped |
| `RuntimeAllocator.KeptIff` | scripts/worktree-runtime.py:179-233 | one call keeps a complete allocation exactly when it fails, is of the same worktree, or is for another id and does not find it stale |
| `RuntimeAllocator.ReclaimStaleAllocations` | scripts/worktree-runtime.py:179-199 | the loop leaves exactly the reclaimed registry |
| `RuntimeAllocator.FindManagedPorts` | scripts/worktree-runtime.py:136-147 | the loop collects every numeric port of every other allocation |
| `RuntimeAllocator.ChoosePorts` | scripts/worktree-runtime.py:234-251 | the nested search loops equal the assignment |
| `RuntimeAllocator.SharedRegistry.EnsureWorktree` | scripts/worktree-runtime.py:382-398 | the locked call on fields equals its specification |
| `RuntimeAllocator.SharedRegistry.RemoveUnregistered` | scripts/worktree-runtime.py:202-213 | keeps exactly the files of registered ids |
| `SessionClaims.SectionKeeps` | scripts/agent-session.py:1045-1488 | every locked section keeps holders, audit and chain sound |
| `SessionClaims.SchedulesKeep` | scripts/agent-session.py:1045-1488 | so does every interleaving; the audit chains from each holder back to a start without gaps |
| `SessionClaims.EmptyStoreIsSound` | scripts/agent-session.py:1045-1062 | an empty claim store meets the invariant, so schedules may start from it |
| `SessionClaims.HolderChanges` | scripts/agent-session.py:1045-1488 | a holder changes only absent-to-fresh, old-to-fresh by a takeover naming old, or holder-to-absent by its own finish |
| `SessionClaims.StartClaims` | scripts/agent-session.py:1045-1062 | a start claims exactly a worktree without holder, and changes no other |
| `SessionClaims.TakeOverDisplaces` | scripts/agent-session.py:1458-1488 | a takeover replaces exactly the holder it names, with one audit entry, and changes no other |
| `SessionClaims.FinishReleases` | scripts/agent-session.py:1446-1448 | a finish releases the worktree exactly if its session holds it, retires the session and lets anyone start |
| `SessionClaims.ChecksOnly` | scripts/agent-session.py:1352-1365 | the checking sections pass exactly for the holder and leave all claims alone |
| `SessionClaims.HeldIff` | scripts/agent-session.py:1045-1488 | a holder keeps its worktree through an interleaving exactly when no takeover names it and it does not finish |
| `SessionClaims.UndisturbedFinish` | scripts/agent-session.py:1368-1448 | a finish that nothing disturbs completes, and the worktree can be claimed again |
| `SessionClaims.AuditIsExact` | scripts/agent-session.py:1458-1488 | the audit grows exactly when a holder is displaced |
| `SessionClaims.RetiredForGood` | scripts/agent-session.py:311-319 | a displaced or finished session never passes a later check nor unlinks a later claim |
| `SessionClaims.TakeoverRetires` | scripts/agent-session.py:1452-1488 | a takeover retires the session it names |
| `SessionClaims.ClaimFiles.StartSession` | scripts/agent-session.py:1045-1062 | the section on the claim file equals its specification |
| `SessionClaims.ClaimFiles.WriteCheckpoint` | scripts/agent-session.py:1352-1365 | the section on the claim file equals its specification |
| `SessionClaims.ClaimFiles.UnlinkClaim` | scripts/agent-session.py:1446-1448 | the section on the claim file equals its specification |
| `SessionClaims.ClaimFiles.TakeOverClaim` | scripts/agent-session.py:1458-1488 | the section on the claim file equals its specification |
| `StoredPages.ScanRows` | scripts/replay-stored-universe-run.py:96-111 | a page's rows pass exactly when symbols are present and keys are new and distinct |
| `StoredPages.VerifiedPages` | scripts/replay-stored-universe-run.py:36-151 | accepts exactly the verified scans, and returns their pages and date |
| `StoredPages.PageExtend` | scripts/replay-stored-universe-run.py:54-111 | the checks of one page against what is remembered are exactly what keeps the longer scan consistent |
| `StoredPages.OffsetsArePrefixSums` | scripts/replay-stored-universe-run.py:57-151 | without next offsets each offset is the sum of the earlier row counts |
| `StoredPages.ReaderReturnsEveryPageIff` | scripts/replay-stored-universe-run.py:235-274 | the offset-indexed reader returns each page of a consistent scan exactly when every stalled page equals its successor |
| `StoredPages.EmptyContinuationIsHidden` | scripts/replay-stored-universe-run.py:235-274 | a verified scan whose reader loses a page |
| `QuotaPreflight.Charge` | scripts/run-live-provider-probes.py:2085-2110 | one spec updates totals and identities as the planned totals say |
| `QuotaPreflight.PlanOperations` | scripts/run-live-provider-probes.py:2042-2110 | the planning loops give the planned entries and totals, and report exactly the operations that cannot count |
| `Text.SortedAscends` | scripts/run-live-provider-probes.py:2046-2046 | the operations are planned in ascending order |
| `QuotaPreflight.ReportPools` | scripts/run-live-provider-probes.py:2112-2190 | reports exactly what is due for the entries, each shortfall once, for the first entry of its pool; nothing exactly when every charged pool is admitted |
| `QuotaPreflight.Preflight` | scripts/run-live-provider-probes.py:1987-2190 | reports exactly the operations that cannot count and the pools that are not covered; nothing exactly for an admitted request |
| `QuotaPreflight.UnverifiedPoolIff` | scripts/run-live-provider-probes.py:2157-2180 | the three cases in which a pool without a verified baseline gets no blocker |
| `QuotaPreflight.AdmittedIff` | scripts/run-live-provider-probes.py:2042-2190 | admission in terms of the plans: every operation runs, and every metered spec has a reviewed dimension and a baseline that covers its total |
| `QuotaPreflight.RuleCountsOneWay` | backend/app/services/provider_quota_coordinator.py:2331-2392 | by the rule of the planner every pool is counted one way and no spec gives units back |
| `QuotaPreflight.AdmissionIsSound` | scripts/run-live-provider-probes.py:2042-2190 | on plans that follow the planner's rule, no prefix of any order of the planned runs overdraws a pool with a verified baseline |
| `QuotaPreflight.ConsumptionWithinTotal` | scripts/run-live-provider-probes.py:2042-2110 | no schedule within the plan consumes more than a pool's planned total |
| `QuotaPreflight.MixedPoolTotalIff` | scripts/run-live-provider-probes.py:2085-2110 | the total of a symbol pool is its identities plus its plain units exactly when no plain cost precedes an identified spec, and less otherwise |
| `QuotaPreflight.SymbolPoolCostsOne` | scripts/run-live-provider-probes.py:2046-2110 | a charged symbol pool is planned for exactly one symbol |
| `QuotaPreflight.SymbolPoolAdmittedIff` | scripts/run-live-provider-probes.py:2046-2189 | a charged symbol pool with a verified baseline is admitted exactly when one symbol remains |
| `QuotaLive.ServedIff` | backend/app/services/provider_quota_coordinator.py:1688-1797 | a series of live runs is reserved without denial exactly when the first run of each new symbol fits, and takes just that |
| `QuotaLive.SymbolsServedIff` | backend/app/services/provider_quota_coordinator.py:1688-1797 | where a symbol costs one unit: exactly when the new distinct symbols are at most the units left |
| `QuotaLive.EveryScheduleServedIff` | backend/app/services/provider_quota_coordinator.py:1688-1797 | every way to run a plan, under any symbols, is served from a fresh window exactly when the pool has a unit for each planned unit |
| `QuotaLive.AdmittedIsServedIff` | scripts/run-live-provider-probes.py:2046-2189 | an admitted symbol pool has one unit for certain and serves every schedule exactly when it has a unit for each planned unit |
| `QuotaLive.AdmittedRunIsDenied` | scripts/run-live-provider-probes.py:2046-2189 | a plan that passes the preflight and whose second run is denied |
| `QuotaPreflight.AdmissionIsDownwardClosed` | scripts/run-live-provider-probes.py:2042-2189 | on plans that follow the planner's rule, every sub-request of an admitted request is admitted |
| `CaseOperations.SelectionsAdd` | scripts/run-live-provider-probes.py:3622-3642 | planned counts add up over disjoint selections |
| `CaseOperations.OneCaseCounts` | scripts/run-live-provider-probes.py:3622-3642 | one case counts what its table says |
| `CaseOperations.FullMatrixIsSelectingAllIff` | scripts/run-live-provider-probes.py:1128-1143 | the full-matrix table is the count of selecting all cases exactly when no sending case is listed twice |
| `CaseOperations.TabulateFullMatrix` | scripts/run-live-provider-probes.py:1128-1143 | the loops over the manifest compute the full-matrix counts |
| `CaseOperations.SelectedMultipliers` | scripts/run-live-provider-probes.py:3622-3642 | the tabulating loops compute the counts, and stop exactly on an invalid count |
| `CaseOperations.SelectionAdmissionIsDownwardClosed` | scripts/run-live-provider-probes.py:3622-3642 | on plans that follow the planner's rule, any sub-selection of an admitted selection is admitted |
| `LiveLedger.ScanReservation` | scripts/run-live-provider-probes.py:4273-4283 | a receipt is a fault exactly when its identity was seen; the second check follows the first |
| `LiveLedger.ScanReservations` | scripts/run-live-provider-probes.py:4257-4283 | a reservation list passes exactly when every entry is complete and every identity new |
| `LiveLedger.ScanCaseOperations` | scripts/run-live-provider-probes.py:4296-4304 | the operations of a case seen for the first time add a fault exactly when a name is repeated |
| `LiveLedger.OnlyListsRepeat` | scripts/run-live-provider-probes.py:4296-4304 | only a list of operations can repeat a name |
| `LiveLedger.ScanCases` | scripts/run-live-provider-probes.py:4284-4304 | case receipts pass exactly when well formed, new and without a repeated operation |
| `LiveLedger.ScanLedger` | scripts/run-live-provider-probes.py:4235-4309 | returns the rows of the run and scope; no fault exactly for a readable, well-formed ledger without repeated receipts |
| `LiveLedger.SelectedOfConcat` | scripts/run-live-provider-probes.py:4235-4255 | rows are selected line by line |
| `LiveLedger.SelectedOfOne` | scripts/run-live-provider-probes.py:4235-4255 | a line gives its row exactly if it is of the run and of the scope asked for |
| `LiveLedger.CleanIgnoresOrder` | scripts/run-live-provider-probes.py:4235-4309 | permuting the lines changes neither the selected rows nor whether they are clean |
| `LiveEvidence.AddOperations` | scripts/run-live-provider-probes.py:4331-4351 | operation totals grow by what the row's members hold, other keys stay |
| `LiveEvidence.AddCases` | scripts/run-live-provider-probes.py:4352-4385 | case requests and observed statuses and dispositions grow by what the row holds; a list of operations stops it |
| `LiveEvidence.AddRows` | scripts/run-live-provider-probes.py:4311-4385 | the aggregation holds, for every provider asked for, the sums over all its rows, unless one of them stops it |
| `LiveEvidence.MeasuredRequests` | scripts/run-live-provider-probes.py:4434-4463 | requests are counted exactly when some receipt of the case has any |
| `LiveEvidence.CheckDenial` | scripts/run-live-provider-probes.py:4479-4508 | reports exactly the missing denial disposition and status of one operation |
| `LiveEvidence.CheckCase` | scripts/run-live-provider-probes.py:4413-4509 | reports exactly the findings that hold about one manifest case |
| `LiveEvidence.CheckOperations` | scripts/run-live-provider-probes.py:4512-4532 | reports exactly the required operations without requests, bytes or with failures |
| `LiveEvidence.CheckDispositions` | scripts/run-live-provider-probes.py:4539-4558 | reports exactly the unresolved dispositions in scope |
| `LiveEvidence.ProviderLiveEvidence` | scripts/run-live-provider-probes.py:4204-4613 | lists exactly the findings that hold; complete exactly when there is none and the ledger is clean; no evidence exactly when a row of a provider asked for stops the aggregation |
| `LiveEvidence.CaseCoveredIff` | scripts/run-live-provider-probes.py:4413-4509 | a case has no finding exactly when one JUnit case matched and passed, requests were measured (or none, where none may be) and denials observed |
| `LiveEvidence.NothingMissingIff` | scripts/run-live-provider-probes.py:4387-4558 | nothing is missing exactly when all cases, required operations and dispositions are covered |
| `LiveEvidence.ProvedIff` | scripts/run-live-provider-probes.py:4512-4532 | an operation is proved exactly when some receipt has requests, some has bytes and none a failure |
| `LiveEvidence.SettledIff` | scripts/run-live-provider-probes.py:4413-4509 | a case is covered exactly when settled by the JUnit results and receipts themselves |
| `LiveEvidence.EvidenceIff` | scripts/run-live-provider-probes.py:4387-4558 | nothing is missing exactly when every chosen case is settled, every owed operation reported, every disposition in scope covered |
| `LiveEvidence.VerdictIgnoresOrder` | scripts/run-live-provider-probes.py:4228-4613 | permuting ledger lines changes neither findings nor verdict, nor whether there is one |
| `UsageRows.HeaderReadsBack` | scripts/merge-provider-live-usage.py:70-89 | an accepted header is accepted again as itself |
| `UsageRows.UsageReadsBack` | scripts/merge-provider-live-usage.py:92-118 | an accepted operation breakdown is accepted again as itself |
| `UsageRows.NormalisedIsFixed` | scripts/merge-provider-live-usage.py:121-180 | a normalised row written and read again normalises to itself |
| `UsageRows.NormaliseIff` | scripts/merge-provider-live-usage.py:121-180 | exactly which documents are rows, and which row each is, member by member |
| `UsageRows.DecimalReadsBack` | scripts/merge-provider-live-usage.py:58-67 | a decimal text is read as its number |
| `UsageRows.SumOfParts` | scripts/merge-provider-live-usage.py:157-162 | the breakdown adds up over its operations |
| `UsageRows.SameKeyIff` | scripts/merge-provider-live-usage.py:183-193 | two rows share a key exactly when equal or of one run, scope and provider |
| `UsageLedger.BookIsFaithful` | scripts/merge-provider-live-usage.py:121-193 | the receipts' reading and writing meet what the merge is proved for |
| `UsageLedger.ReadReceipt` | scripts/merge-provider-live-usage.py:196-214 | of a source that is text or cannot be opened, every non-blank line is a row or rejected; one that cannot be opened counts one |
| `UsageLedger.Ledger.Append` | scripts/merge-provider-live-usage.py:250-256 | appends exactly the rows with new keys, in order, and counts the rest |
| `UsageLedger.Ledger.MergeReceipts` | scripts/merge-provider-live-usage.py:217-267 | refuses itself as a source; otherwise accepted, duplicates and rejected add up to all source lines, unless a file that is not text stops it with the sources before merged |
| `UsageLedger.GrownIsOneMerge` | scripts/merge-provider-live-usage.py:217-267 | dividing the sources over merges makes no difference to the ledger |
| `UsageLedger.LedgerIsSound` | scripts/merge-provider-live-usage.py:217-267 | a ledger grown by merges has distinct keys, reads back, and holds exactly the first row of each key |
| `UsageLedger.MergedKeys` | scripts/merge-provider-live-usage.py:217-267 | a merge adds exactly the keys of the valid source rows |
| `UsageLedger.KeysIgnoreOrder` | scripts/merge-provider-live-usage.py:217-267 | the key set does not depend on the order or repetition of sources |
| `UsageLedger.MergeAgainAddsNothing` | scripts/merge-provider-live-usage.py:217-267 | merging the same sources again accepts nothing, whatever was merged between |
| `UsageLedger.StoppedMergeResumes` | scripts/merge-provider-live-usage.py:196-267 | repeating a stopped merge with readable files leaves what one complete merge would have left |
| `WireValue.EncodeFailsIff` | backend/strategy_runtime/protocol.py:127-159 | encoding fails exactly on values that hold, at any depth, a duration, a number that is not finite or an instant without time zone |
| `WireValue.RoundTrip` | backend/strategy_runtime/protocol.py:127-211 | a value with a wire form decodes to itself exactly when no set occurs inside an element of a set, and to nothing otherwise |
| `WireValue.NestedSetIsLost` | backend/strategy_runtime/protocol.py:155-205 | the set of the empty frozenset is encoded and cannot be decoded |
| `WireValue.DecodedIsSendable` | backend/strategy_runtime/protocol.py:162-211 | whatever is decoded has a wire form and returns from it |
| `WireValue.ReencodedIff` | backend/strategy_runtime/protocol.py:127-211 | an accepted payload is encoded again as itself exactly when it is canonical |
| `WireValue.FreezeIsFrozen` | backend/app/strategy_lab_v2/canonical.py:143-168 | freezing any value leaves no set or list in it |
| `WireValue.FreezeKeepsWireForm` | backend/app/strategy_lab_v2/canonical.py:143-168 | freezing changes nothing about whether a value can be sent |
| `WireValue.FreezeFixesIff` | backend/app/strategy_lab_v2/canonical.py:150-168 | freezing leaves alone exactly the frozen values |
| `WireValue.OnlyDurationsFail` | backend/strategy_runtime/protocol.py:127-159 | of the values that canonical JSON takes exactly those holding a duration have no wire form |
| `MetricCodec.DefinitionRoundTrip` | backend/strategy_runtime/custom_metric_protocol.py:41-69 | a valid definition reads back |
| `MetricRules.DefinitionAcceptedIff` | backend/strategy_runtime/custom_metric_protocol.py:41-69 | a written definition is accepted exactly under the rules for its parts |
| `MetricCodec.InvocationIsSentIff` | backend/strategy_runtime/custom_metric_protocol.py:86-95 | a valid invocation can be sent exactly when no duration occurs among its parameters, at any depth |
| `MetricRules.InvocationSentExactly` | backend/strategy_runtime/custom_metric_protocol.py:86-95 | exactly which invocations can be sent, part by part |
| `MetricCodec.InvocationRoundTrip` | backend/strategy_runtime/custom_metric_protocol.py:86-157 | a sent invocation reads back as itself |
| `MetricCodec.DecodedInvocationIsValid` | backend/strategy_runtime/custom_metric_protocol.py:140-157 | an accepted invocation is valid and can be sent |
| `MetricCodec.ReadReferencesInTurn` | backend/strategy_runtime/custom_metric_protocol.py:244-249 | the append loop reads the whole list or refuses it |
| `MetricCodec.MetricIsSentIff` | backend/strategy_runtime/custom_metric_protocol.py:184-209 | a valid metric can be sent exactly when no duration occurs among the parameters of its calculation |
| `MetricRules.MetricSentExactly` | backend/strategy_runtime/custom_metric_protocol.py:184-209 | exactly which metrics can be sent, part by part |
| `MetricCodec.MetricRoundTrip` | backend/strategy_runtime/custom_metric_protocol.py:184-264 | a sent metric reads back as itself |
| `MetricCodec.DecodedMetricIsValid` | backend/strategy_runtime/custom_metric_protocol.py:212-264 | an accepted metric is valid and can be sent |
| `MetricCodec.OutcomeIsSentIff` | backend/strategy_runtime/custom_metric_protocol.py:267-284 | a valid result can be sent exactly when its metric can |
| `MetricRules.OutcomeSentExactly` | backend/strategy_runtime/custom_metric_protocol.py:267-284 | exactly which results can be sent, part by part |
| `MetricCodec.OutcomeRoundTrip` | backend/strategy_runtime/custom_metric_protocol.py:267-323 | a sent result reads back as itself |
| `MetricCodec.DecodedOutcomeIsValid` | backend/strategy_runtime/custom_metric_protocol.py:287-323 | an accepted result is valid, carries its own fingerprint and can be sent |
| `MetricCodec.BatchRoundTrip` | backend/strategy_runtime/custom_metric_protocol.py:98-181 | every batch that can be sent reads back |
| `MetricCodec.AcceptedBatch` | backend/strategy_runtime/custom_metric_protocol.py:160-181 | an accepted batch is not empty, has distinct fingerprints and its own digest, and re-encodes to a payload with the same values |
| `MetricCodec.InvocationBatchIsSentIff` | backend/strategy_runtime/custom_metric_protocol.py:98-118 | a batch of valid invocations can be sent exactly when it is not empty, no two share a fingerprint and no duration occurs among their parameters |
| `MetricCodec.InvocationBatches` | backend/strategy_runtime/custom_metric_protocol.py:98-181 | round trip and converse for invocation batches |
| `MetricCodec.OutcomeBatchIsSentIff` | backend/strategy_runtime/custom_metric_protocol.py:326-346 | likewise for a batch of valid results |
| `MetricCodec.OutcomeBatches` | backend/strategy_runtime/custom_metric_protocol.py:326-377 | round trip and converse for result batches |
| `TestShards.Partition` | scripts/backend_coverage.py:33-36 | the slicing loop gives the shards |
| `TestShards.ShardsCover` | scripts/backend_coverage.py:33-36 | shards concatenate to the input, are non-empty, at most `size` long, and all but the last full |
| `TestShards.ParseCollected` | scripts/backend_coverage.py:56-64 | each line goes to the suite of the first root it belongs to |
| `TestShards.SuitesCount` | scripts/backend_coverage.py:56-64 | the suites together hold each collected line once |
| `TestShards.SuiteHolds` | scripts/backend_coverage.py:56-64 | a suite holds exactly the trimmed lines that start with its root, no earlier one, and have two colons |
| `TestShards.RunShards` | scripts/backend_coverage.py:209-231 | stops at the first failing process, with its status; success means all were started |
| `TestShards.RunAll` | scripts/backend_coverage.py:132-231 | the exit status in every case and what was started; 0 exactly when collection is usable and every process succeeds, and then every collected test went to exactly one process |
| `TestShards.PlanShape` | scripts/backend_coverage.py:188-231 | the tests of all roots but the last in full shards of the given size, then those of the last alone in batches of 25 |
| `TestShards.PlanCoversCollection` | scripts/backend_coverage.py:188-231 | the planned shards give every collected test to exactly one process |

## Left out

- Staging: commit ids are positions in the commit graph, so `full_sha`, refs to missing commits and rewritten history are not modelled; nor are interrupts in the middle of a command and pushes to staging by other writers.
- Staging: polling, retries and attempts of `github_run` are one answer; its first page of runs and the choice among reruns are part of that answer.
- Staging: the plan and closure checks of a workstream are one boolean each; receipts are an append-only list, so two receipts written in the same second under one file name are not told apart.
- Staging: `.ai` files that exist but cannot be parsed, and `status`, which only prints.
- Staging: a branch that `close` could not delete is no longer in a worktree and so no longer a work branch of the model; that `git worktree remove` itself fails is not modelled.
- CiEvidence.RequireTrustedRun: the verdict is a boolean; the text of each refusal is not modelled.
- Strategy session: loading, validating and sandboxing the source, the manifest comparison and the validation of intents are answers; the result and error digests are arbitrary functions.
- Strategy session: the single-event request form of `main`, whose only session call is one invocation.
- Allocator: slugs, paths and ids are strings the caller computes; links to shared environment files and the contents of the generated file are not modelled.
- Session claims: `session.json` is written outside the lock by `start` and `finish`, so only the claim file and the audit carry the property; session ids are taken to be unique.
- Stored pages: the database queries before and the reconciliation after the page check; all refusals are one.
- Quota reservations: one window of one pool; settling, rolling windows that expire between runs, and concurrency leases are not modelled.
- Quota preflight: what the reservation planner answers, the contract and the baselines are inputs, tied by the planner's rule only; a numeric field is an integer.
- Live evidence: the static tables and the matching of names are inputs; a counter that is not an integer, and a member other than the operations of a case that is a list where an object is expected, make the script stop and are not modelled.
- LiveEvidence.VerdictIgnoresOrder: states the findings and the verdict; which of several ledger faults is reported last does depend on the order.
- Usage ledger: white space (with the separators 0x1c to 0x1f), digits and letter case are ASCII; a timestamp so close to the ends of the calendar that its UTC form does not exist stops the script and is not modelled; nor is a ledger that is not UTF-8 or whose last line lacks its line end.
- Wire values: sets compare by structure, where Python also identifies `1`, `True` and `Decimal(1)`; the text layer (16 MiB limit, duplicate fields, non-finite constants) is before the tree.
- Freezing: mappings made from dataclasses and values made from enumerations are frozen before they enter the model.
- Metric codec: which strings are digests and entry points is an input, and so is the order of evidence references; digests are arbitrary functions, so two different batches may share one.
- Test shards: timeouts and signals are exit statuses already in the shell's form; what coverage measures is not modelled.
- scripts/validate-workstream.py, scripts/validation_profile.py, scripts/ci-change-scope.py and similar field-by-field checks: they would add only easy members.
