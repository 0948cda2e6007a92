/**
 The evidence checkers of the staging workflow.

 Four scripts decide, each with its own code, whether a hosted CI run qualifies
 a staging commit: scripts/staging.py when it integrates, reconciles or
 promotes, scripts/verify-master-promotion.py on the promoted commit,
 scripts/verify-prior-qualification.py on a parent commit, and scripts/rpi.py on
 the receipt that a promotion leaves behind.  `FullGate` is one declarative
 reference for all of them.

 A job or run field that the hosting service left out is read as the empty
 string; no checker compares a field with the empty string.
 */
module CiEvidence {
  import opened Wrappers
  import opened CommitGraph

  const GATE := "Exhaustive Integration Gate"
  const SCOPE := "Changed-path validation scope"
  const DECLARED := "Branch-declared Tests"
  const PROVENANCE := "Master Release Provenance"
  const PRODUCTS := ["Backend Tests", "Frontend Unit Tests", "E2E Tests (Playwright)"]

  const SINGLE_GATE_MODE := "full_staging_single_gate_v1"
  const LEGACY_MODE := "full_staging_integration"
  const MASTER_MODE := "exact_staging_evidence_reuse_with_master_release_checks"
  const FULL_BRANCH_MODE := "full_branch_suites"
  const SCOPED_BRANCH_MODE := "scoped_guards_with_exact_prior_full_qualification"
  const CI_WORKFLOW := ".github/workflows/ci.yml"

  const WORK_PREFIXES := ["feat/", "fix/", "chore/", "docs/", "test/"]

  datatype Job = Job(name: string, status: string, conclusion: string)

  datatype CiRun = CiRun(
    runId: int, headSha: Commit, headBranch: string, event: string,
    workflowPath: string, workflowId: int, status: string, conclusion: string)

  predicate IsWorkBranch(branch: string) {
    exists k | 0 <= k < |WORK_PREFIXES| :: WORK_PREFIXES[k] <= branch
  }

  // ---- reference definition ---------------------------------------------

  // `job` is in the list and no other entry carries its name.
  ghost predicate Sole(jobs: seq<Job>, job: Job) {
    exists i | 0 <= i < |jobs| ::
      jobs[i] == job && forall j | 0 <= j < |jobs| && jobs[j].name == job.name :: j == i
  }

  function Passed(name: string): Job { Job(name, "completed", "success") }

  function Skipped(name: string): Job { Job(name, "completed", "skipped") }

  ghost predicate Absent(jobs: seq<Job>, name: string) {
    forall j | 0 <= j < |jobs| :: jobs[j].name != name
  }

  ghost predicate ProductsAll(jobs: seq<Job>, conclusion: string) {
    forall k | 0 <= k < |PRODUCTS| :: Sole(jobs, Job(PRODUCTS[k], "completed", conclusion))
  }

  // The exhaustive gate passed once, and either every standalone product suite
  // passed (with an optional passed scope job) or every one was skipped and the
  // scope job passed.
  ghost predicate FullGate(jobs: seq<Job>) {
    && Sole(jobs, Passed(GATE))
    && ((ProductsAll(jobs, "success") && (Absent(jobs, SCOPE) || Sole(jobs, Passed(SCOPE))))
        || (ProductsAll(jobs, "skipped") && Sole(jobs, Passed(SCOPE))))
  }

  // ---- list filtering ------------------------------------------------------

  function Matching(jobs: seq<Job>, name: string): (matches: seq<Job>)
    ensures forall m | m in matches :: m.name == name && m in jobs
    ensures forall job | job in jobs && job.name == name :: job in matches
  {
    if jobs == [] then []
    else (if jobs[0].name == name then [jobs[0]] else []) + Matching(jobs[1..], name)
  }

  predicate SoleCompleted(jobs: seq<Job>, name: string) {
    var matches := Matching(jobs, name);
    |matches| == 1 && matches[0].status == "completed"
  }

  predicate SoleConclusion(jobs: seq<Job>, name: string, conclusion: string) {
    var matches := Matching(jobs, name);
    |matches| == 1 && matches[0].status == "completed" && matches[0].conclusion == conclusion
  }

  lemma SoleCons(jobs: seq<Job>, job: Job)
    requires jobs != []
    ensures Absent(jobs, job.name) <==> jobs[0].name != job.name && Absent(jobs[1..], job.name)
    ensures Sole(jobs, job) <==> if jobs[0].name == job.name then jobs[0] == job && Absent(jobs[1..], job.name)
                                 else Sole(jobs[1..], job)
  {
    var rest := jobs[1..];
    assert forall j | 0 < j < |jobs| :: jobs[j] == rest[j - 1];
    assert forall j | 0 <= j < |rest| :: rest[j] == jobs[j + 1];
    if Sole(jobs, job) && jobs[0].name != job.name {
      var i :| 0 <= i < |jobs| && jobs[i] == job
               && forall j | 0 <= j < |jobs| && jobs[j].name == job.name :: j == i;
      assert rest[i - 1] == job;
    }
    if Sole(rest, job) && jobs[0].name != job.name {
      var i :| 0 <= i < |rest| && rest[i] == job
               && forall j | 0 <= j < |rest| && rest[j].name == job.name :: j == i;
      assert jobs[i + 1] == job;
    }
  }

  // Filtering finds exactly one entry when the list holds exactly one.
  lemma {:induction false} MatchingSole(jobs: seq<Job>, job: Job)
    ensures Matching(jobs, job.name) == [job] <==> Sole(jobs, job)
    ensures Matching(jobs, job.name) == [] <==> Absent(jobs, job.name)
  {
    if jobs != [] {
      MatchingSole(jobs[1..], job);
      SoleCons(jobs, job);
      assert Matching(jobs, job.name)
          == (if jobs[0].name == job.name then [jobs[0]] else []) + Matching(jobs[1..], job.name);
      if Matching(jobs, job.name) == [job] && jobs[0].name == job.name {
        assert |Matching(jobs[1..], job.name)| == 0;
      }
    }
  }

  lemma SoleConclusionMeansSole(jobs: seq<Job>, name: string, conclusion: string)
    ensures SoleConclusion(jobs, name, conclusion) <==> Sole(jobs, Job(name, "completed", conclusion))
    ensures Matching(jobs, name) == [] <==> Absent(jobs, name)
  {
    MatchingSole(jobs, Job(name, "completed", conclusion));
    var matches := Matching(jobs, name);
    if |matches| == 1 {
      assert matches[0] in matches;
      assert matches == [matches[0]];
    }
  }

  // ---- scripts/staging.py: github_run on an exhaustive staging run -----------

  datatype Profile = Profile(mode: string, verified: seq<string>, unexecuted: seq<string>)

  // The names recorded for each accepted shape of a staging run.
  ghost function StagingProfile(jobs: seq<Job>): Option<Profile> {
    if !FullGate(jobs) then None
    else if ProductsAll(jobs, "success") then
      Some(Profile(LEGACY_MODE,
                   (if Absent(jobs, SCOPE) then [] else [SCOPE]) + PRODUCTS + [GATE], []))
    else
      Some(Profile(SINGLE_GATE_MODE, [SCOPE, GATE], PRODUCTS))
  }

  // The conclusions of the three product jobs, or None when one of them is not
  // listed exactly once as completed.
  method ProductConclusions(jobs: seq<Job>) returns (results: Option<seq<string>>)
    ensures results.None? <==> exists k | 0 <= k < |PRODUCTS| :: !SoleCompleted(jobs, PRODUCTS[k])
    ensures results.Some? ==> |results.value| == |PRODUCTS| && forall k | 0 <= k < |PRODUCTS| ::
        Matching(jobs, PRODUCTS[k])[0].conclusion == results.value[k]
  {
    var found: seq<string> := [];
    for k := 0 to |PRODUCTS|
      invariant |found| == k
      invariant forall i | 0 <= i < k :: SoleCompleted(jobs, PRODUCTS[i])
      invariant forall i | 0 <= i < k :: Matching(jobs, PRODUCTS[i])[0].conclusion == found[i]
    {
      if !SoleCompleted(jobs, PRODUCTS[k]) {
        return None;
      }
      found := found + [Matching(jobs, PRODUCTS[k])[0].conclusion];
    }
    results := Some(found);
  }

  lemma ProductConclusionsMeanAll(jobs: seq<Job>, results: seq<string>, conclusion: string)
    requires |results| == |PRODUCTS|
    requires forall k | 0 <= k < |PRODUCTS| ::
               SoleCompleted(jobs, PRODUCTS[k]) && Matching(jobs, PRODUCTS[k])[0].conclusion == results[k]
    ensures (forall k | 0 <= k < |results| :: results[k] == conclusion) <==> ProductsAll(jobs, conclusion)
  {
    forall k | 0 <= k < |PRODUCTS|
      ensures Sole(jobs, Job(PRODUCTS[k], "completed", conclusion)) <==> results[k] == conclusion
    {
      SoleConclusionMeansSole(jobs, PRODUCTS[k], conclusion);
    }
  }

  lemma ProductsAllIsCompleted(jobs: seq<Job>, conclusion: string)
    requires ProductsAll(jobs, conclusion)
    ensures forall k | 0 <= k < |PRODUCTS| :: SoleCompleted(jobs, PRODUCTS[k])
  {
    forall k | 0 <= k < |PRODUCTS| ensures SoleCompleted(jobs, PRODUCTS[k]) {
      SoleConclusionMeansSole(jobs, PRODUCTS[k], conclusion);
    }
  }

  // The product suites cannot be all passed and all skipped at once.
  lemma OneProductShape(jobs: seq<Job>)
    ensures !(ProductsAll(jobs, "success") && ProductsAll(jobs, "skipped"))
  {
    SoleConclusionMeansSole(jobs, PRODUCTS[0], "success");
    SoleConclusionMeansSole(jobs, PRODUCTS[0], "skipped");
  }

  // Selects the profile of a completed exhaustive staging run; None stands for
  // every way the script gives up.
  method SelectStagingProfile(jobs: seq<Job>) returns (profile: Option<Profile>)
    ensures profile == StagingProfile(jobs)
  {
    SoleConclusionMeansSole(jobs, GATE, "success");
    SoleConclusionMeansSole(jobs, SCOPE, "success");
    if ProductsAll(jobs, "success") { ProductsAllIsCompleted(jobs, "success"); }
    if ProductsAll(jobs, "skipped") { ProductsAllIsCompleted(jobs, "skipped"); }
    OneProductShape(jobs);
    if !SoleConclusion(jobs, GATE, "success") {
      return None;
    }
    var scope := Matching(jobs, SCOPE);
    if |scope| > 1 || (|scope| == 1 && (scope[0].status != "completed" || scope[0].conclusion != "success")) {
      return None;
    }
    var results := ProductConclusions(jobs);
    if results.None? {
      return None;
    }
    ProductConclusionsMeanAll(jobs, results.value, "success");
    ProductConclusionsMeanAll(jobs, results.value, "skipped");
    if forall k | 0 <= k < |results.value| :: results.value[k] == "success" {
      return Some(Profile(LEGACY_MODE, (if scope == [] then [] else [SCOPE]) + PRODUCTS + [GATE], []));
    }
    if forall k | 0 <= k < |results.value| :: results.value[k] == "skipped" {
      if scope == [] {
        return None;
      }
      return Some(Profile(SINGLE_GATE_MODE, [SCOPE, GATE], PRODUCTS));
    }
    return None;
  }

  // ---- scripts/staging.py: branch_ci_mode --------------------------------------

  ghost function BranchMode(jobs: seq<Job>): Option<Profile> {
    if !Sole(jobs, Passed(SCOPE)) || !Sole(jobs, Passed(DECLARED)) then None
    else if ProductsAll(jobs, "success") then
      Some(Profile(FULL_BRANCH_MODE, [SCOPE, DECLARED] + PRODUCTS, []))
    else if ProductsAll(jobs, "skipped") then
      Some(Profile(SCOPED_BRANCH_MODE, [SCOPE, DECLARED] + PRODUCTS, PRODUCTS))
    else None
  }

  method BranchCiMode(jobs: seq<Job>) returns (profile: Option<Profile>)
    ensures profile == BranchMode(jobs)
  {
    SoleConclusionMeansSole(jobs, SCOPE, "success");
    SoleConclusionMeansSole(jobs, DECLARED, "success");
    if ProductsAll(jobs, "success") { ProductsAllIsCompleted(jobs, "success"); }
    if ProductsAll(jobs, "skipped") { ProductsAllIsCompleted(jobs, "skipped"); }
    for k := 0 to 2
      invariant k >= 1 ==> SoleConclusion(jobs, SCOPE, "success")
      invariant k >= 2 ==> SoleConclusion(jobs, DECLARED, "success")
    {
      if !SoleConclusion(jobs, [SCOPE, DECLARED][k], "success") {
        return None;
      }
    }
    var results := ProductConclusions(jobs);
    if results.None? {
      return None;
    }
    ProductConclusionsMeanAll(jobs, results.value, "success");
    ProductConclusionsMeanAll(jobs, results.value, "skipped");
    if forall k | 0 <= k < |results.value| :: results.value[k] == "success" {
      return Some(Profile(FULL_BRANCH_MODE, [SCOPE, DECLARED] + PRODUCTS, []));
    }
    if forall k | 0 <= k < |results.value| :: results.value[k] == "skipped" {
      return Some(Profile(SCOPED_BRANCH_MODE, [SCOPE, DECLARED] + PRODUCTS, PRODUCTS));
    }
    return None;
  }

  // Every suite is listed once, completed with this conclusion.
  predicate SuitesEnd(jobs: seq<Job>, conclusion: string) {
    forall k | 0 <= k < |PRODUCTS| :: Matching(jobs, PRODUCTS[k]) == [Job(PRODUCTS[k], "completed", conclusion)]
  }

  lemma SoleMatch(jobs: seq<Job>, name: string, conclusion: string)
    ensures Matching(jobs, name) == [Job(name, "completed", conclusion)]
            <==> Sole(jobs, Job(name, "completed", conclusion))
  {
    var matches := Matching(jobs, name);
    SoleConclusionMeansSole(jobs, name, conclusion);
    if |matches| == 1 { assert matches[0] in matches; }
  }

  lemma SuitesEndMeansAll(jobs: seq<Job>, conclusion: string)
    ensures SuitesEnd(jobs, conclusion) <==> ProductsAll(jobs, conclusion)
  {
    forall k | 0 <= k < |PRODUCTS|
      ensures Matching(jobs, PRODUCTS[k]) == [Job(PRODUCTS[k], "completed", conclusion)]
              <==> Sole(jobs, Job(PRODUCTS[k], "completed", conclusion))
    {
      SoleMatch(jobs, PRODUCTS[k], conclusion);
    }
  }

  // The scope job and the declared tests are listed once and passed, and the suites all
  // passed or were all skipped.
  predicate BranchPassed(jobs: seq<Job>) {
    && Matching(jobs, SCOPE) == [Passed(SCOPE)] && Matching(jobs, DECLARED) == [Passed(DECLARED)]
    && (SuitesEnd(jobs, "success") || SuitesEnd(jobs, "skipped"))
  }

  // A work branch is integrable on exactly these lists; suites that were skipped are
  // recorded as not run.
  lemma BranchIntegrableIff(jobs: seq<Job>)
    ensures BranchMode(jobs).Some? <==> BranchPassed(jobs)
    ensures BranchMode(jobs).Some? ==>
              var suites := Matching(jobs, PRODUCTS[0])[0].conclusion;
              && BranchMode(jobs).value.mode == (if suites == "success" then FULL_BRANCH_MODE else SCOPED_BRANCH_MODE)
              && BranchMode(jobs).value.unexecuted == (if suites == "success" then [] else PRODUCTS)
  {
    SoleMatch(jobs, SCOPE, "success");
    SoleMatch(jobs, DECLARED, "success");
    SuitesEndMeansAll(jobs, "success");
    SuitesEndMeansAll(jobs, "skipped");
  }

  // ---- scripts/verify-master-promotion.py: require_trusted_run -----------------

  predicate TrustedIdentity(run: CiRun, sha: Commit, workflowId: int) {
    && run.headSha == sha && run.event == "push"
    && run.status == "completed" && run.conclusion == "success" && run.workflowId == workflowId
  }

  // The conclusions of the jobs of these names, when each is listed once as completed.
  ghost predicate Concluded(jobs: seq<Job>, names: seq<string>, conclusion: string) {
    forall k | 0 <= k < |names| :: SoleConclusion(jobs, names[k], conclusion)
  }

  // What the verifier lets pass: the run is trusted, the gate passed, and either the
  // product jobs passed with nothing wrong in the scope job, or they were skipped and
  // the scope job passed.
  ghost predicate TrustedStagingRun(run: CiRun, jobs: seq<Job>, sha: Commit, workflowId: int) {
    && TrustedIdentity(run, sha, workflowId) && run.headBranch == "staging"
    && SoleConclusion(jobs, GATE, "success")
    && ((Concluded(jobs, PRODUCTS, "success")
         && (Matching(jobs, SCOPE) == [] || SoleConclusion(jobs, SCOPE, "success")))
        || (Concluded(jobs, PRODUCTS, "skipped") && SoleConclusion(jobs, SCOPE, "success")))
  }

  lemma TrustedMeansFullGate(run: CiRun, jobs: seq<Job>, sha: Commit, workflowId: int)
    ensures TrustedStagingRun(run, jobs, sha, workflowId)
            <==> TrustedIdentity(run, sha, workflowId) && run.headBranch == "staging" && FullGate(jobs)
  {
    SoleConclusionMeansSole(jobs, GATE, "success");
    SoleConclusionMeansSole(jobs, SCOPE, "success");
    forall k | 0 <= k < |PRODUCTS|
      ensures SoleConclusion(jobs, PRODUCTS[k], "success") <==> Sole(jobs, Job(PRODUCTS[k], "completed", "success"))
      ensures SoleConclusion(jobs, PRODUCTS[k], "skipped") <==> Sole(jobs, Job(PRODUCTS[k], "completed", "skipped"))
    {
      SoleConclusionMeansSole(jobs, PRODUCTS[k], "success");
      SoleConclusionMeansSole(jobs, PRODUCTS[k], "skipped");
    }
  }

  method RequireTrustedRun(run: CiRun, jobs: seq<Job>, sha: Commit, workflowId: int) returns (trusted: bool)
    ensures trusted <==> TrustedStagingRun(run, jobs, sha, workflowId)
  {
    TrustedMeansFullGate(run, jobs, sha, workflowId);
    SoleConclusionMeansSole(jobs, GATE, "success");
    SoleConclusionMeansSole(jobs, SCOPE, "success");
    if ProductsAll(jobs, "success") { ProductsAllIsCompleted(jobs, "success"); }
    if ProductsAll(jobs, "skipped") { ProductsAllIsCompleted(jobs, "skipped"); }
    OneProductShape(jobs);
    if !TrustedIdentity(run, sha, workflowId) || run.headBranch != "staging" {
      return false;
    }
    if !SoleConclusion(jobs, GATE, "success") {
      return false;
    }
    var results := ProductConclusions(jobs);
    if results.None? {
      return false;
    }
    ProductConclusionsMeanAll(jobs, results.value, "success");
    ProductConclusionsMeanAll(jobs, results.value, "skipped");
    if forall k | 0 <= k < |results.value| :: results.value[k] == "success" {
      var scope := Matching(jobs, SCOPE);
      return !(|scope| > 1
               || (|scope| == 1 && (scope[0].status != "completed" || scope[0].conclusion != "success")));
    }
    if forall k | 0 <= k < |results.value| :: results.value[k] == "skipped" {
      return SoleConclusion(jobs, SCOPE, "success");
    }
    return false;
  }

  // ---- scripts/verify-prior-qualification.py: qualifies -------------------------

  predicate ScopeAcceptable(jobs: seq<Job>) {
    var scope := Matching(jobs, SCOPE);
    !(|scope| > 1 || (scope != [] && (scope[0].status != "completed" || scope[0].conclusion != "success")))
  }

  predicate Qualifies(run: CiRun, jobs: seq<Job>, sha: Commit, workflowId: int) {
    if !TrustedIdentity(run, sha, workflowId)
       || (run.headBranch !in {"staging", "master"} && !IsWorkBranch(run.headBranch)) then false
    else if run.headBranch == "staging" then
      if !EachListedOnce(jobs, PRODUCTS + [GATE]) then false
      else if !SoleConclusion(jobs, GATE, "success") then false
      else if !ScopeAcceptable(jobs) then false
      else
        var legacyFull := forall k | 0 <= k < |PRODUCTS| :: SoleConclusion(jobs, PRODUCTS[k], "success");
        var singleGateFull := Matching(jobs, SCOPE) != []
                              && forall k | 0 <= k < |PRODUCTS| :: SoleConclusion(jobs, PRODUCTS[k], "skipped");
        legacyFull || singleGateFull
    else if run.headBranch == "master" then
      && EachSucceeded(jobs, PRODUCTS + [GATE])
      && ScopeAcceptable(jobs)
    else
      EachSucceeded(jobs, PRODUCTS + [DECLARED])
  }

  predicate EachListedOnce(jobs: seq<Job>, names: seq<string>) {
    forall k | 0 <= k < |names| :: |Matching(jobs, names[k])| == 1
  }

  predicate EachSucceeded(jobs: seq<Job>, names: seq<string>) {
    forall k | 0 <= k < |names| :: SoleConclusion(jobs, names[k], "success")
  }

  // The product jobs and one more succeeded, judged by the name filter.
  lemma SuitesSucceeded(jobs: seq<Job>, last: string)
    ensures EachSucceeded(jobs, PRODUCTS + [last]) <==> ProductsAll(jobs, "success") && Sole(jobs, Passed(last))
  {
    var names := PRODUCTS + [last];
    assert names[3] == last && forall k | 0 <= k < 3 :: names[k] == PRODUCTS[k];
    SoleConclusionMeansSole(jobs, last, "success");
    ProductsByFilter(jobs, "success");
    if EachSucceeded(jobs, names) {
      assert SoleConclusion(jobs, names[3], "success");
      forall k | 0 <= k < |PRODUCTS| ensures SoleConclusion(jobs, PRODUCTS[k], "success") {
        assert SoleConclusion(jobs, names[k], "success");
      }
    }
  }

  lemma SuitesListedOnce(jobs: seq<Job>, conclusion: string)
    requires ProductsAll(jobs, conclusion) && Sole(jobs, Passed(GATE))
    ensures EachListedOnce(jobs, PRODUCTS + [GATE])
  {
    ProductsByFilter(jobs, conclusion);
    SoleConclusionMeansSole(jobs, GATE, "success");
  }

  lemma ProductsByFilter(jobs: seq<Job>, conclusion: string)
    ensures (forall k | 0 <= k < |PRODUCTS| :: SoleConclusion(jobs, PRODUCTS[k], conclusion))
            <==> ProductsAll(jobs, conclusion)
  {
    forall k | 0 <= k < |PRODUCTS|
      ensures SoleConclusion(jobs, PRODUCTS[k], conclusion)
              <==> Sole(jobs, Job(PRODUCTS[k], "completed", conclusion))
    {
      SoleConclusionMeansSole(jobs, PRODUCTS[k], conclusion);
    }
  }

  lemma ScopeByFilter(jobs: seq<Job>)
    ensures ScopeAcceptable(jobs) <==> Absent(jobs, SCOPE) || Sole(jobs, Passed(SCOPE))
  {
    SoleConclusionMeansSole(jobs, SCOPE, "success");
  }

  // On a trusted staging run, the prior-qualification checker accepts exactly
  // the job lists that pass the reference gate.
  lemma StagingQualifiesIffFullGate(run: CiRun, jobs: seq<Job>, sha: Commit, workflowId: int)
    requires run.headBranch == "staging"
    ensures Qualifies(run, jobs, sha, workflowId) <==> TrustedIdentity(run, sha, workflowId) && FullGate(jobs)
  {
    SoleConclusionMeansSole(jobs, GATE, "success");
    SoleConclusionMeansSole(jobs, SCOPE, "success");
    ScopeByFilter(jobs);
    ProductsByFilter(jobs, "success");
    ProductsByFilter(jobs, "skipped");
    if FullGate(jobs) { SuitesListedOnce(jobs, if ProductsAll(jobs, "success") then "success" else "skipped"); }
  }

  // A work branch whose exact CI run is read as the full suite by the integrator
  // is a qualified parent, and the converse holds up to the scope job, which only
  // the integrator insists on.
  lemma FullBranchModeIffQualifies(run: CiRun, jobs: seq<Job>, sha: Commit, workflowId: int)
    requires TrustedIdentity(run, sha, workflowId)
    requires IsWorkBranch(run.headBranch) && run.headBranch !in {"staging", "master"}
    ensures (BranchMode(jobs).Some? && BranchMode(jobs).value.mode == FULL_BRANCH_MODE)
            <==> Qualifies(run, jobs, sha, workflowId) && Sole(jobs, Passed(SCOPE))
  {
    SuitesSucceeded(jobs, DECLARED);
  }

  // A full replay on master qualifies only lists that the staging checkers accept.
  lemma MasterReplayIsFullGate(run: CiRun, jobs: seq<Job>, sha: Commit, workflowId: int)
    requires run.headBranch == "master"
    ensures Qualifies(run, jobs, sha, workflowId)
            <==> TrustedIdentity(run, sha, workflowId) && FullGate(jobs) && ProductsAll(jobs, "success")
  {
    ScopeByFilter(jobs);
    SuitesSucceeded(jobs, GATE);
    OneProductShape(jobs);
  }

  // ---- verdicts do not depend on the order of the job list --------------------------

  lemma {:induction false} MatchingCounts(jobs: seq<Job>, name: string, job: Job)
    ensures multiset(Matching(jobs, name))[job] == if job.name == name then multiset(jobs)[job] else 0
  {
    if jobs == [] {
    } else {
      MatchingCounts(jobs[1..], name, job);
      assert jobs == [jobs[0]] + jobs[1..];
    }
  }

  lemma SoleIsOrderFree(jobs: seq<Job>, other: seq<Job>, job: Job)
    requires multiset(jobs) == multiset(other)
    ensures Sole(jobs, job) <==> Sole(other, job)
    ensures Absent(jobs, job.name) <==> Absent(other, job.name)
  {
    forall j ensures multiset(Matching(jobs, job.name))[j] == multiset(Matching(other, job.name))[j] {
      MatchingCounts(jobs, job.name, j);
      MatchingCounts(other, job.name, j);
    }
    var a, b := Matching(jobs, job.name), Matching(other, job.name);
    assert multiset(a) == multiset(b);
    assert |a| == |multiset(a)| == |multiset(b)| == |b|;
    if |a| == 1 {
      assert a == [a[0]] && b == [b[0]];
      assert b[0] in multiset(b);
      assert b[0] in multiset(a);
      assert b[0] in a;
    }
    MatchingSole(jobs, job);
    MatchingSole(other, job);
  }

  // Reordering the job list changes neither the verdict nor the recorded profile.
  lemma ProfileIsOrderFree(jobs: seq<Job>, other: seq<Job>)
    requires multiset(jobs) == multiset(other)
    ensures StagingProfile(jobs) == StagingProfile(other)
    ensures BranchMode(jobs) == BranchMode(other)
  {
    SoleIsOrderFree(jobs, other, Passed(GATE));
    SoleIsOrderFree(jobs, other, Passed(SCOPE));
    SoleIsOrderFree(jobs, other, Passed(DECLARED));
    forall k | 0 <= k < |PRODUCTS|
      ensures Sole(jobs, Passed(PRODUCTS[k])) <==> Sole(other, Passed(PRODUCTS[k]))
      ensures Sole(jobs, Skipped(PRODUCTS[k])) <==> Sole(other, Skipped(PRODUCTS[k]))
    {
      SoleIsOrderFree(jobs, other, Passed(PRODUCTS[k]));
      SoleIsOrderFree(jobs, other, Skipped(PRODUCTS[k]));
    }
    assert ProductsAll(jobs, "success") <==> ProductsAll(other, "success") by {
      assert forall k | 0 <= k < |PRODUCTS| :: Passed(PRODUCTS[k]) == Job(PRODUCTS[k], "completed", "success");
    }
    assert ProductsAll(jobs, "skipped") <==> ProductsAll(other, "skipped") by {
      assert forall k | 0 <= k < |PRODUCTS| :: Skipped(PRODUCTS[k]) == Job(PRODUCTS[k], "completed", "skipped");
    }
  }

  // ---- promotion evidence and receipts -----------------------------------------------

  // What github_run hands back for an accepted run.
  datatype Selected = Selected(run: CiRun, profile: Profile)

  // A hosted answer: nothing usable, or one run with its jobs.
  datatype Answer = Unavailable | Observed(run: CiRun, jobs: seq<Job>)

  // github_run without its polling: the run found for this branch and commit
  // must be a successful completed push run of the CI workflow with the right jobs.
  ghost function GithubRun(branch: string, commit: Commit, exhaustive: bool, answer: Answer): Option<Selected> {
    if answer.Unavailable? then None
    else
      var run := answer.run;
      if run.headSha != commit || run.headBranch != branch || run.event != "push"
         || run.workflowPath != CI_WORKFLOW
         || run.status != "completed" || run.conclusion != "success" then None
      else
        match JobsProfile(branch, exhaustive, answer.jobs)
        case None => None
        case Some(p) => Some(Selected(run, p))
  }

  ghost function JobsProfile(branch: string, exhaustive: bool, jobs: seq<Job>): Option<Profile> {
    if !exhaustive then BranchMode(jobs)
    else if branch == "staging" then StagingProfile(jobs)
    else if Sole(jobs, Passed(PROVENANCE)) then Some(Profile(MASTER_MODE, [PROVENANCE], PRODUCTS + [GATE]))
    else None
  }

  method InspectRun(branch: string, commit: Commit, exhaustive: bool, answer: Answer)
    returns (selected: Option<Selected>)
    ensures selected == GithubRun(branch, commit, exhaustive, answer)
  {
    if answer.Unavailable? {
      return None;
    }
    var run := answer.run;
    if run.headSha != commit || run.headBranch != branch || run.event != "push"
       || run.workflowPath != CI_WORKFLOW
       || run.status != "completed" || run.conclusion != "success" {
      return None;
    }
    var profile: Option<Profile>;
    if exhaustive && branch == "staging" {
      profile := SelectStagingProfile(answer.jobs);
    } else if exhaustive {
      SoleConclusionMeansSole(answer.jobs, PROVENANCE, "success");
      profile := if SoleConclusion(answer.jobs, PROVENANCE, "success")
                 then Some(Profile(MASTER_MODE, [PROVENANCE], PRODUCTS + [GATE])) else None;
    } else {
      profile := BranchCiMode(answer.jobs);
    }
    selected := if profile.None? then None else Some(Selected(run, profile.value));
  }

  // A run is used exactly when it is the completed, successful push run of the CI
  // workflow for this branch at this commit, and its jobs are those the branch needs.
  lemma GithubRunIff(branch: string, commit: Commit, exhaustive: bool, answer: Answer)
    ensures GithubRun(branch, commit, exhaustive, answer).Some? <==>
            && answer.Observed?
            && answer.run.headBranch == branch && answer.run.headSha == commit && answer.run.event == "push"
            && answer.run.workflowPath == CI_WORKFLOW
            && answer.run.status == "completed" && answer.run.conclusion == "success"
            && JobsPassed(branch, exhaustive, answer.jobs)
    ensures GithubRun(branch, commit, exhaustive, answer).Some? ==>
              GithubRun(branch, commit, exhaustive, answer).value.run == answer.run
  {
    if answer.Observed? { JobsPassedIff(branch, exhaustive, answer.jobs); }
  }

  predicate JobsPassed(branch: string, exhaustive: bool, jobs: seq<Job>) {
    if !exhaustive then BranchPassed(jobs)
    else if branch == "staging" then GatePassed(jobs)
    else Matching(jobs, PROVENANCE) == [Passed(PROVENANCE)]
  }

  lemma JobsPassedIff(branch: string, exhaustive: bool, jobs: seq<Job>)
    ensures JobsProfile(branch, exhaustive, jobs).Some? <==> JobsPassed(branch, exhaustive, jobs)
  {
    BranchIntegrableIff(jobs);
    GateByFilter(jobs);
    SoleMatch(jobs, PROVENANCE, "success");
  }

  // The gate is listed once and passed, and the suites passed, the scope job with them
  // if it is listed, or were all skipped with the scope job passed.
  predicate GatePassed(jobs: seq<Job>) {
    && Matching(jobs, GATE) == [Passed(GATE)]
    && ((SuitesEnd(jobs, "success") && Matching(jobs, SCOPE) in {[], [Passed(SCOPE)]})
        || (SuitesEnd(jobs, "skipped") && Matching(jobs, SCOPE) == [Passed(SCOPE)]))
  }

  lemma GateByFilter(jobs: seq<Job>)
    ensures FullGate(jobs) <==> GatePassed(jobs)
  {
    SoleMatch(jobs, GATE, "success");
    SoleMatch(jobs, SCOPE, "success");
    SoleConclusionMeansSole(jobs, SCOPE, "success");
    SuitesEndMeansAll(jobs, "success");
    SuitesEndMeansAll(jobs, "skipped");
  }

  function NameSet(names: seq<string>): set<string> { set name | name in names }

  // require_promotion_evidence: trusted identity, a positive run id, and the
  // expected mode and job names.
  predicate PromotionEvidence(ci: Selected, branch: string, commit: Commit, mode: string, required: seq<string>) {
    && ci.run.headSha == commit && ci.run.headBranch == branch && ci.run.event == "push"
    && ci.run.workflowPath == CI_WORKFLOW && ci.run.runId > 0
    && ci.profile.mode == mode && NameSet(ci.profile.verified) == NameSet(required)
  }

  datatype CiRecord = CiRecord(
    sha: Commit, workflowPath: string, event: string, runId: int, requiredJob: string,
    profile: Option<string>, verified: seq<string>, unexecuted: seq<string>, conclusion: string)

  datatype Receipt = Receipt(
    githubReplay: string, schema: int, candidate: Commit, mode: string,
    staging: CiRecord, master: CiRecord, replayNote: string)

  const REUSE_MODE := "same_sha_staging_evidence_reuse"
  const REUSE_NOTE := "not_run; exact staging product qualification reused"

  // The receipt that a promotion writes.
  function PromotionReceipt(commit: Commit, ci: Selected, masterCi: Selected): Receipt {
    Receipt("", 2, commit, REUSE_MODE,
            CiRecord(ci.run.headSha, ci.run.workflowPath, ci.run.event, ci.run.runId, GATE,
                     Some(ci.profile.mode), ci.profile.verified, ci.profile.unexecuted, "success"),
            CiRecord(masterCi.run.headSha, masterCi.run.workflowPath, masterCi.run.event, masterCi.run.runId,
                     PROVENANCE, None, masterCi.profile.verified, [], "success"),
            REUSE_NOTE)
  }

  predicate RecordIdentity(record: CiRecord, commit: Commit, requiredJob: string) {
    && record.sha == commit && record.workflowPath == CI_WORKFLOW && record.event == "push"
    && record.runId > 0 && record.requiredJob == requiredJob && record.conclusion == "success"
  }

  // scripts/rpi.py: receipt_has_ci_qualification.
  predicate ReceiptHasCiQualification(data: Receipt, commit: Commit) {
    if data.githubReplay == "pass" then true
    else
      var recorded := NameSet(data.staging.verified);
      var legacy := NameSet(PRODUCTS + [GATE]);
      var jobsMatch :=
        if data.staging.profile in {None, Some(LEGACY_MODE)} then recorded in {legacy, legacy + {SCOPE}}
        else if data.staging.profile == Some(SINGLE_GATE_MODE) then
          recorded == {SCOPE, GATE} && NameSet(data.staging.unexecuted) == NameSet(PRODUCTS)
        else false;
      && data.schema == 2 && data.mode == REUSE_MODE
      && RecordIdentity(data.staging, commit, GATE) && jobsMatch
      && RecordIdentity(data.master, commit, PROVENANCE)
      && NameSet(data.master.verified) in {{PROVENANCE}, {PROVENANCE, GATE}}
      && data.replayNote == REUSE_NOTE
  }

  // A promotion receipt passes the deployment checker exactly when the staging
  // run id is positive; the promotion itself already refused a master run
  // without a positive id, but never looks at the staging one.
  lemma PromotionReceiptQualifies(commit: Commit, answer: Answer, masterAnswer: Answer)
    requires GithubRun("staging", commit, true, answer).Some?
    requires GithubRun("master", commit, true, masterAnswer).Some?
    requires PromotionEvidence(GithubRun("master", commit, true, masterAnswer).value, "master", commit,
                               MASTER_MODE, [PROVENANCE])
    ensures ReceiptHasCiQualification(
              PromotionReceipt(commit, GithubRun("staging", commit, true, answer).value,
                               GithubRun("master", commit, true, masterAnswer).value), commit)
            <==> answer.run.runId > 0
  {
    var ci := GithubRun("staging", commit, true, answer).value;
    var masterCi := GithubRun("master", commit, true, masterAnswer).value;
    var legacy := NameSet(PRODUCTS + [GATE]);
    assert NameSet([SCOPE, GATE]) == {SCOPE, GATE};
    assert NameSet([PROVENANCE]) == {PROVENANCE};
    assert [SCOPE] + PRODUCTS + [GATE] == [SCOPE] + (PRODUCTS + [GATE]);
    assert NameSet([SCOPE] + PRODUCTS + [GATE]) == legacy + {SCOPE};
    assert [] + PRODUCTS + [GATE] == PRODUCTS + [GATE];
    assert ci.run == answer.run;
  }

  // What the deployment checker has seen of a receipt it accepts without a replay on
  // the host.
  lemma QualifiedReceiptIff(data: Receipt, commit: Commit)
    requires data.githubReplay != "pass"
    ensures ReceiptHasCiQualification(data, commit) <==>
            && data.schema == 2 && data.mode == REUSE_MODE && data.replayNote == REUSE_NOTE
            && data.staging.sha == data.master.sha == commit
            && data.staging.workflowPath == data.master.workflowPath == CI_WORKFLOW
            && data.staging.event == data.master.event == "push"
            && data.staging.conclusion == data.master.conclusion == "success"
            && data.staging.runId > 0 && data.master.runId > 0
            && data.staging.requiredJob == GATE && data.master.requiredJob == PROVENANCE
            && (forall name :: name in data.master.verified ==> name in {PROVENANCE, GATE})
            && PROVENANCE in data.master.verified
            && (forall name :: name in data.staging.verified ==> name in PRODUCTS + [SCOPE, GATE])
            && GATE in data.staging.verified
            && (if data.staging.profile == Some(SINGLE_GATE_MODE) then
                  && SCOPE in data.staging.verified
                  && (forall k | 0 <= k < |PRODUCTS| :: PRODUCTS[k] !in data.staging.verified)
                  && (forall name :: name in data.staging.unexecuted <==> name in PRODUCTS)
                else
                  && data.staging.profile in {None, Some(LEGACY_MODE)}
                  && (forall k | 0 <= k < |PRODUCTS| :: PRODUCTS[k] in data.staging.verified))
  {
    NamesDiffer();
    var staging, master, unexecuted := data.staging.verified, data.master.verified, data.staging.unexecuted;
    MasterNames(master);
    LegacyNames(staging);
    GateNames(staging);
    assert NameSet(unexecuted) == NameSet(PRODUCTS) <==> forall name :: name in unexecuted <==> name in PRODUCTS by {
      if NameSet(unexecuted) == NameSet(PRODUCTS) {
        forall name ensures name in unexecuted <==> name in PRODUCTS {
          assert name in NameSet(unexecuted) <==> name in NameSet(PRODUCTS);
        }
      }
    }
  }

  lemma NamesDiffer()
    ensures SCOPE !in PRODUCTS && GATE !in PRODUCTS && SCOPE != GATE && LEGACY_MODE != SINGLE_GATE_MODE
  {
    assert |SCOPE| == 29 && |GATE| == 27 && |PRODUCTS[0]| == 13 && |PRODUCTS[1]| == 19 && |PRODUCTS[2]| == 22;
  }

  lemma MasterNames(names: seq<string>)
    ensures NameSet(names) in {{PROVENANCE}, {PROVENANCE, GATE}} <==>
            PROVENANCE in names && forall name :: name in names ==> name in {PROVENANCE, GATE}
  {
    assert forall name :: name in NameSet(names) <==> name in names;
    if PROVENANCE in names && forall name :: name in names ==> name in {PROVENANCE, GATE} {
      assert NameSet(names) == if GATE in names then {PROVENANCE, GATE} else {PROVENANCE};
    }
  }

  lemma LegacyNames(names: seq<string>)
    ensures var legacy := NameSet(PRODUCTS + [GATE]);
      NameSet(names) in {legacy, legacy + {SCOPE}} <==>
      && GATE in names && (forall k | 0 <= k < |PRODUCTS| :: PRODUCTS[k] in names)
      && forall name :: name in names ==> name in PRODUCTS + [SCOPE, GATE]
  {
    var legacy := NameSet(PRODUCTS + [GATE]);
    assert forall name :: name in NameSet(names) <==> name in names;
    assert forall name :: name in legacy <==> name in PRODUCTS || name == GATE;
    assert forall k | 0 <= k < |PRODUCTS| :: PRODUCTS[k] in PRODUCTS;
    assert forall name :: name in PRODUCTS + [SCOPE, GATE] <==> name in PRODUCTS || name in {SCOPE, GATE};
    if GATE in names && (forall k | 0 <= k < |PRODUCTS| :: PRODUCTS[k] in names)
       && forall name :: name in names ==> name in PRODUCTS + [SCOPE, GATE] {
      assert NameSet(names) == if SCOPE in names then legacy + {SCOPE} else legacy;
    }
  }

  lemma GateNames(names: seq<string>)
    ensures NameSet(names) == {SCOPE, GATE} <==>
            && SCOPE in names && GATE in names && (forall k | 0 <= k < |PRODUCTS| :: PRODUCTS[k] !in names)
            && forall name :: name in names ==> name in PRODUCTS + [SCOPE, GATE]
  {
    NamesDiffer();
    assert forall name :: name in NameSet(names) <==> name in names;
    assert forall k | 0 <= k < |PRODUCTS| :: PRODUCTS[k] in PRODUCTS;
    assert forall name :: name in PRODUCTS + [SCOPE, GATE] <==> name in PRODUCTS || name in {SCOPE, GATE};
  }

  // The staging checkers agree: for one trusted staging run, the integrator, the
  // master-promotion verifier and the prior-qualification checker accept exactly the
  // same job lists, whatever their order.
  lemma StagingCheckersAgree(run: CiRun, jobs: seq<Job>, other: seq<Job>, sha: Commit, workflowId: int)
    requires TrustedIdentity(run, sha, workflowId) && run.headBranch == "staging" && run.workflowPath == CI_WORKFLOW
    requires multiset(jobs) == multiset(other)
    ensures GithubRun("staging", sha, true, Observed(run, jobs)).Some? <==> FullGate(jobs)
    ensures TrustedStagingRun(run, other, sha, workflowId) <==> FullGate(jobs)
    ensures Qualifies(run, other, sha, workflowId) <==> FullGate(jobs)
  {
    TrustedMeansFullGate(run, other, sha, workflowId);
    ProfileIsOrderFree(jobs, other);
    StagingQualifiesIffFullGate(run, other, sha, workflowId);
  }
}
