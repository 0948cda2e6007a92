/**
 The verdict of `_provider_live_evidence` in scripts/run-live-provider-probes.py: the
 selected rows are added up per provider, operation and case, and compared with the
 manifest and the JUnit results.

 The nested dictionaries of the script are kept flat, keyed by their path.  The
 static tables and the matching of names are part of the manifest.
 */
module LiveEvidence {
  import opened LiveLedger
  import opened Text
  import opened Wrappers

  datatype Case = Case(path: string, name: string)

  datatype Junit = Junit(moduleName: string, name: string, outcome: string)

  datatype Manifest = Manifest(
    cases: string -> seq<Case>, required: string -> set<string>,
    noRequest: set<(string, Case)>, denials: map<(string, Case), map<string, string>>,
    dispositions: map<string, map<string, string>>, covered: string -> bool,
    junitMatches: (Junit, Case, string) -> bool, caseIdMatches: (string, Case, string) -> bool,
    isAccountUsage: Case -> bool)

  datatype Options = Options(
    providers: set<string>, accountUsageOnly: bool,
    selected: Option<map<string, set<string>>>, override: Option<map<string, set<string>>>)

  // ---- what the rows add up to ----------------------------------------------------------

  datatype Field = Requests | Bytes | Failures

  function AtLeastZero(n: int): nat { if n > 0 then n else 0 }

  function Amount(usage: Usage, field: Field): nat {
    match field
    case Requests => AtLeastZero(usage.requests)
    case Bytes => AtLeastZero(usage.bytes)
    case Failures => AtLeastZero(usage.failures)
  }

  function MemberAmount(member: (string, Option<Usage>), operation: string, field: Field): int {
    if member.0 == operation && member.1.Some? then Amount(member.1.value, field) else 0
  }

  function MembersAmount(members: seq<(string, Option<Usage>)>, operation: string, field: Field): int {
    Sum(members, member => MemberAmount(member, operation, field))
  }

  function RowAmount(row: Row, provider: string, operation: string, field: Field): int {
    if row.provider == provider then MembersAmount(row.operations, operation, field) else 0
  }

  function Total(rows: seq<Row>, provider: string, operation: string, field: Field): int {
    Sum(rows, row => RowAmount(row, provider, operation, field))
  }

  function MemberRequests(member: (string, Option<CaseRow>), id: string): int {
    if member.0 == id && member.1.Some? then AtLeastZero(member.1.value.requests) else 0
  }

  function MembersRequests(members: seq<(string, Option<CaseRow>)>, id: string): int {
    Sum(members, member => MemberRequests(member, id))
  }

  function RowRequests(row: Row, provider: string, id: string): int {
    if row.provider == provider then MembersRequests(row.cases, id) else 0
  }

  function CaseTotal(rows: seq<Row>, provider: string, id: string): int {
    Sum(rows, row => RowRequests(row, provider, id))
  }

  ghost predicate ProviderSeen(rows: seq<Row>, provider: string) {
    exists row :: row in rows && row.provider == provider
  }

  // One observation of an operation within a case: an HTTP status or a disposition.
  datatype Mark = Status(text: string) | Disposition(text: string)

  predicate UsageMarks(usage: Usage, mark: Mark) {
    match mark case Status(text) => text in usage.statuses case Disposition(text) => text in usage.dispositions
  }

  predicate OperationMarks(members: seq<(string, Option<Usage>)>, operation: string, mark: Mark) {
    exists i ::
      0 <= i < |members| && members[i].0 == operation && members[i].1.Some? && UsageMarks(members[i].1.value, mark)
  }

  predicate CasesMark(members: seq<(string, Option<CaseRow>)>, id: string, operation: string, mark: Mark) {
    exists i :: 0 <= i < |members| && members[i].0 == id && members[i].1.Some?
                && OperationMarks(UsagesOf(members[i].1.value.operations), operation, mark)
  }

  ghost predicate Marked(rows: seq<Row>, provider: string, id: string, operation: string, mark: Mark) {
    exists row :: row in rows && row.provider == provider && CasesMark(row.cases, id, operation, mark)
  }

  // ---- adding up ---------------------------------------------------------------------------

  datatype Totals = Totals(requests: nat, bytes: nat, failures: nat)

  datatype Tally = Tally(
    providers: set<string>, operations: map<(string, string), Totals>, cases: map<(string, string), nat>,
    marks: set<(string, string, string, Mark)>)

  function AmountAt(operations: map<(string, string), Totals>, key: (string, string), field: Field): nat {
    if key !in operations then 0
    else match field
      case Requests => operations[key].requests
      case Bytes => operations[key].bytes
      case Failures => operations[key].failures
  }

  function RequestsAt(cases: map<(string, string), nat>, key: (string, string)): nat {
    if key in cases then cases[key] else 0
  }

  ghost predicate Tracks(providers: set<string>, tally: Tally, rows: seq<Row>) {
    && tally.providers <= providers
    && forall p | p in providers :: ProviderTracked(p, tally, rows)
  }

  ghost predicate ProviderTracked(p: string, tally: Tally, rows: seq<Row>) {
    && (p in tally.providers <==> ProviderSeen(rows, p))
    && (forall operation, field ::
        AmountAt(tally.operations, (p, operation), field) == Total(rows, p, operation, field))
    && (forall id :: RequestsAt(tally.cases, (p, id)) == CaseTotal(rows, p, id))
    && (forall id, operation, mark :: (p, id, operation, mark) in tally.marks <==> Marked(rows, p, id, operation, mark))
  }

  lemma SumSnoc<T>(items: seq<T>, x: T, f: T -> int)
    ensures Sum(items + [x], f) == Sum(items, f) + f(x)
  {
    assert (items + [x])[..|items|] == items;
  }

  method AddOperations(provider: string, members: seq<(string, Option<Usage>)>, before: map<(string, string), Totals>)
    returns (operations: map<(string, string), Totals>)
    ensures forall operation, field :: AmountAt(operations, (provider, operation), field)
              == AmountAt(before, (provider, operation), field) + MembersAmount(members, operation, field)
    ensures forall key: (string, string), field | key.0 != provider ::
            AmountAt(operations, key, field) == AmountAt(before, key, field)
  {
    operations := before;
    for i := 0 to |members|
      invariant forall operation, field :: AmountAt(operations, (provider, operation), field)
                  == AmountAt(before, (provider, operation), field) + MembersAmount(members[..i], operation, field)
      invariant forall key: (string, string), field | key.0 != provider ::
                AmountAt(operations, key, field) == AmountAt(before, key, field)
    {
      assert members[..i + 1] == members[..i] + [members[i]];
      forall operation, field
        ensures MembersAmount(members[..i + 1], operation, field)
                == MembersAmount(members[..i], operation, field) + MemberAmount(members[i], operation, field)
      {
        SumSnoc(members[..i], members[i], member => MemberAmount(member, operation, field));
      }
      if members[i].1.Some? {
        var key, usage := (provider, members[i].0), members[i].1.value;
        var was := if key in operations then operations[key] else Totals(0, 0, 0);
        operations := operations[key := Totals(was.requests + AtLeastZero(usage.requests),
                                               was.bytes + AtLeastZero(usage.bytes),
                                               was.failures + AtLeastZero(usage.failures))];
      }
    }
    assert members[..|members|] == members;
  }

  // The marks that one case adds.
  ghost predicate CaseMarks(provider: string, id: string, members: seq<(string, Option<Usage>)>,
                            marks: set<(string, string, string, Mark)>, k: (string, string, string, Mark)) {
    k in marks || (k.0 == provider && k.1 == id && OperationMarks(members, k.2, k.3))
  }

  method AddCaseOperations(provider: string, id: string, members: seq<(string, Option<Usage>)>,
                           before: set<(string, string, string, Mark)>)
    returns (marks: set<(string, string, string, Mark)>)
    ensures forall k :: k in marks <==> CaseMarks(provider, id, members, before, k)
  {
    marks := before;
    for i := 0 to |members|
      invariant forall k :: k in marks <==> CaseMarks(provider, id, members[..i], before, k)
    {
      ghost var was := marks;
      assert members[..i + 1] == members[..i] + [members[i]];
      var operation := members[i].0;
      if members[i].1.Some? {
        var usage := members[i].1.value;
        marks := marks + (set s | s in usage.statuses :: (provider, id, operation, Status(s)));
        marks := marks + (set d | d in usage.dispositions :: (provider, id, operation, Disposition(d)));
      }
      forall k ensures k in marks <==> CaseMarks(provider, id, members[..i + 1], before, k) {
        OperationMarksSnoc(members[..i], members[i], k.2, k.3);
      }
    }
    assert members[..|members|] == members;
  }

  lemma OperationMarksSnoc(members: seq<(string, Option<Usage>)>, member: (string, Option<Usage>), operation: string,
                           mark: Mark)
    ensures OperationMarks(members + [member], operation, mark) <==>
            OperationMarks(members, operation, mark)
            || (member.0 == operation && member.1.Some? && UsageMarks(member.1.value, mark))
  {
    var all := members + [member];
    assert all[|members|] == member;
    assert forall i | 0 <= i < |members| :: all[i] == members[i];
  }

  lemma CasesMarkSnoc(members: seq<(string, Option<CaseRow>)>, member: (string, Option<CaseRow>), id: string,
                      operation: string, mark: Mark)
    ensures CasesMark(members + [member], id, operation, mark) <==>
            CasesMark(members, id, operation, mark)
            || (member.0 == id && member.1.Some?
                && OperationMarks(UsagesOf(member.1.value.operations), operation, mark))
  {
    var all := members + [member];
    assert all[|members|] == member;
    assert forall i | 0 <= i < |members| :: all[i] == members[i];
  }

  ghost predicate RowMarks(provider: string, members: seq<(string, Option<CaseRow>)>,
                           marks: set<(string, string, string, Mark)>, k: (string, string, string, Mark)) {
    k in marks || (k.0 == provider && CasesMark(members, k.1, k.2, k.3))
  }

  // The aggregation asks a list of operations for its members, which stops the script.
  predicate ListsOperations(c: Option<CaseRow>) {
    c.Some? && c.value.operations.Names? && c.value.operations.names != []
  }

  predicate Stops(row: Row) { exists i | 0 <= i < |row.cases| :: ListsOperations(row.cases[i].1) }

  method AddCases(provider: string, members: seq<(string, Option<CaseRow>)>,
                  before: map<(string, string), nat>, marked: set<(string, string, string, Mark)>)
    returns (ok: bool, cases: map<(string, string), nat>, marks: set<(string, string, string, Mark)>)
    ensures ok <==> forall i | 0 <= i < |members| :: !ListsOperations(members[i].1)
    ensures ok ==> forall id ::
              RequestsAt(cases, (provider, id)) == RequestsAt(before, (provider, id)) + MembersRequests(members, id)
    ensures ok ==>
              forall key: (string, string) | key.0 != provider :: RequestsAt(cases, key) == RequestsAt(before, key)
    ensures ok ==> forall k :: k in marks <==> RowMarks(provider, members, marked, k)
  {
    ok, cases, marks := true, before, marked;
    for i := 0 to |members|
      invariant ok && forall k | 0 <= k < i :: !ListsOperations(members[k].1)
      invariant forall id ::
                RequestsAt(cases, (provider, id)) == RequestsAt(before, (provider, id))
                    + MembersRequests(members[..i], id)
      invariant forall key: (string, string) | key.0 != provider :: RequestsAt(cases, key) == RequestsAt(before, key)
      invariant forall k :: k in marks <==> RowMarks(provider, members[..i], marked, k)
    {
      ghost var was := marks;
      assert members[..i + 1] == members[..i] + [members[i]];
      forall id
        ensures MembersRequests(members[..i + 1], id)
                == MembersRequests(members[..i], id) + MemberRequests(members[i], id)
      {
        SumSnoc(members[..i], members[i], member => MemberRequests(member, id));
      }
      if members[i].1.Some? {
        var key := (provider, members[i].0);
        cases := cases[key := (if key in cases then cases[key] else 0) + AtLeastZero(members[i].1.value.requests)];
        if ListsOperations(members[i].1) { return false, cases, marks; }
        marks := AddCaseOperations(provider, members[i].0, UsagesOf(members[i].1.value.operations), marks);
      }
      forall k ensures k in marks <==> RowMarks(provider, members[..i + 1], marked, k) {
        CasesMarkSnoc(members[..i], members[i], k.1, k.2, k.3);
      }
    }
    assert members[..|members|] == members;
  }

  // The tally after a row: what the row holds is added, under its own provider only.
  ghost predicate RowAdded(row: Row, before: Tally, tally: Tally) {
    && tally.providers == before.providers + {row.provider}
    && (forall p, operation, field ::
          AmountAt(tally.operations, (p, operation), field)
          == AmountAt(before.operations, (p, operation), field) + RowAmount(row, p, operation, field))
    && (forall p, id ::
          RequestsAt(tally.cases, (p, id)) == RequestsAt(before.cases, (p, id)) + RowRequests(row, p, id))
    && (forall k :: k in tally.marks <==> RowMarks(row.provider, row.cases, before.marks, k))
  }

  method AddRow(row: Row, before: Tally) returns (ok: bool, tally: Tally)
    ensures ok <==> !Stops(row)
    ensures ok ==> RowAdded(row, before, tally)
  {
    var operations := AddOperations(row.provider, row.operations, before.operations);
    var cases, marks;
    ok, cases, marks := AddCases(row.provider, row.cases, before.cases, before.marks);
    tally := Tally(before.providers + {row.provider}, operations, cases, marks);
  }

  lemma ProviderTrackedFurther(p: string, before: Tally, rows: seq<Row>, row: Row, tally: Tally)
    requires ProviderTracked(p, before, rows) && RowAdded(row, before, tally)
    ensures ProviderTracked(p, tally, rows + [row])
  {
    forall operation, field
      ensures Total(rows + [row], p, operation, field)
              == Total(rows, p, operation, field) + RowAmount(row, p, operation, field)
    {
      SumSnoc(rows, row, r => RowAmount(r, p, operation, field));
    }
    forall id ensures CaseTotal(rows + [row], p, id) == CaseTotal(rows, p, id) + RowRequests(row, p, id) {
      SumSnoc(rows, row, r => RowRequests(r, p, id));
    }
    forall id, operation, mark
      ensures Marked(rows + [row], p, id, operation, mark) <==>
              Marked(rows, p, id, operation, mark) || (row.provider == p && CasesMark(row.cases, id, operation, mark))
    {
      assert row in rows + [row];
    }
    assert ProviderSeen(rows + [row], p) <==> ProviderSeen(rows, p) || row.provider == p by {
      assert row in rows + [row];
    }
  }

  // Rows of other providers add nothing to this one.
  lemma ProviderUntouched(p: string, tally: Tally, rows: seq<Row>, row: Row)
    requires ProviderTracked(p, tally, rows) && row.provider != p
    ensures ProviderTracked(p, tally, rows + [row])
  {
    forall operation, field ensures Total(rows + [row], p, operation, field) == Total(rows, p, operation, field) {
      SumSnoc(rows, row, r => RowAmount(r, p, operation, field));
    }
    forall id ensures CaseTotal(rows + [row], p, id) == CaseTotal(rows, p, id) {
      SumSnoc(rows, row, r => RowRequests(r, p, id));
    }
  }

  lemma TracksFurther(providers: set<string>, before: Tally, rows: seq<Row>, row: Row, tally: Tally)
    requires Tracks(providers, before, rows) && row.provider in providers
    requires RowAdded(row, before, tally)
    ensures Tracks(providers, tally, rows + [row])
  {
    forall p | p in providers ensures ProviderTracked(p, tally, rows + [row]) {
      ProviderTrackedFurther(p, before, rows, row, tally);
    }
  }

  lemma TracksOthers(providers: set<string>, tally: Tally, rows: seq<Row>, row: Row)
    requires Tracks(providers, tally, rows) && row.provider !in providers
    ensures Tracks(providers, tally, rows + [row])
  {
    forall p | p in providers ensures ProviderTracked(p, tally, rows + [row]) {
      ProviderUntouched(p, tally, rows, row);
    }
  }

  ghost predicate Interrupted(providers: set<string>, rows: seq<Row>) {
    exists row :: row in rows && row.provider in providers && Stops(row)
  }

  lemma TracksNothing(providers: set<string>)
    ensures Tracks(providers, Tally({}, map[], map[], {}), []) && !Interrupted(providers, [])
  {
  }

  lemma InterruptedFurther(providers: set<string>, rows: seq<Row>, row: Row)
    ensures Interrupted(providers, rows + [row]) <==>
            Interrupted(providers, rows) || (row.provider in providers && Stops(row))
  {
    assert row in rows + [row];
    assert forall x :: x in rows ==> x in rows + [row];
  }

  lemma InterruptedByPrefix(providers: set<string>, rows: seq<Row>, k: nat)
    requires k <= |rows| && Interrupted(providers, rows[..k])
    ensures Interrupted(providers, rows)
  {
  }

  // Adds up the rows of the given providers, unless one of them stops it.
  method AddRows(providers: set<string>, rows: seq<Row>) returns (result: Option<Tally>)
    ensures result.None? <==> Interrupted(providers, rows)
    ensures result.Some? ==> Tracks(providers, result.value, rows)
  {
    var tally := Tally({}, map[], map[], {});
    TracksNothing(providers);
    for i := 0 to |rows|
      invariant !Interrupted(providers, rows[..i]) && Tracks(providers, tally, rows[..i])
    {
      assert rows[..i + 1] == rows[..i] + [rows[i]];
      InterruptedFurther(providers, rows[..i], rows[i]);
      if rows[i].provider in providers {
        var ok, grown := AddRow(rows[i], tally);
        if !ok {
          InterruptedByPrefix(providers, rows, i + 1);
          return None;
        }
        TracksFurther(providers, tally, rows[..i], rows[i], grown);
        tally := grown;
      } else {
        TracksOthers(providers, tally, rows[..i], rows[i]);
      }
    }
    assert rows[..|rows|] == rows;
    result := Some(tally);
  }

  // ---- what is missing -----------------------------------------------------------------------

  datatype Setting = Setting(manifest: Manifest, options: Options, junit: seq<Junit>)

  datatype Finding =
    | Ambiguous(provider: string, c: Case) | NotPassed(provider: string, c: Case)
    | UnexpectedRequest(provider: string, c: Case) | NoEvidence(provider: string, c: Case)
    | NoDenialDisposition(provider: string, c: Case, operation: string)
    | NoDenialStatus(provider: string, c: Case, operation: string)
    | OperationLacks(provider: string, operation: string)
    | Unresolved(provider: string, operation: string)

  predicate IsChosen(x: Setting, p: string, c: Case) {
    && (x.options.selected.Some? ==> p in x.options.selected.value && c.name in x.options.selected.value[p])
    && (x.options.accountUsageOnly ==> x.manifest.isAccountUsage(c))
  }

  predicate IsCase(x: Setting, p: string, c: Case) {
    p in x.options.providers && c in x.manifest.cases(p) && IsChosen(x, p, c)
  }

  function OverrideOf(x: Setting, p: string): set<string>
    requires x.options.override.Some?
  {
    if p in x.options.override.value then x.options.override.value[p] else {}
  }

  function RequiredOf(x: Setting, p: string): set<string> {
    if x.options.accountUsageOnly then {"fetch_account_usage"}
    else if x.options.override.Some? then OverrideOf(x, p)
    else x.manifest.required(p)
  }

  function Matching(x: Setting, p: string, c: Case, results: seq<Junit>): (matches: seq<Junit>)
    ensures forall m | m in matches :: m in results && x.manifest.junitMatches(m, c, p)
  {
    if results == [] then []
    else
      var front, last := Matching(x, p, c, results[..|results| - 1]), results[|results| - 1];
      if x.manifest.junitMatches(last, c, p) then front + [last] else front
  }

  predicate PassedOnce(matches: seq<Junit>) { |matches| == 1 && matches[0].outcome == "passed" }

  ghost predicate Measured(x: Setting, rows: seq<Row>, p: string, c: Case) {
    exists id :: x.manifest.caseIdMatches(id, c, p) && CaseTotal(rows, p, id) > 0
  }

  ghost predicate Observed(x: Setting, rows: seq<Row>, p: string, c: Case, operation: string, mark: Mark) {
    exists id :: x.manifest.caseIdMatches(id, c, p) && Marked(rows, p, id, operation, mark)
  }

  function DenialsOf(x: Setting, p: string, c: Case): map<string, string> {
    if (p, c) in x.manifest.denials then x.manifest.denials[(p, c)] else map[]
  }

  ghost predicate Proved(rows: seq<Row>, p: string, operation: string) {
    Total(rows, p, operation, Requests) > 0 && Total(rows, p, operation, Bytes) > 0
    && Total(rows, p, operation, Failures) == 0
  }

  const DENIED := Disposition("expected_entitlement_denial")

  predicate IsUnresolved(x: Setting, p: string, operation: string) {
    && p in x.options.providers && p in x.manifest.dispositions && !x.options.accountUsageOnly
    && operation in x.manifest.dispositions[p]
    && (x.options.override.Some? ==> operation in OverrideOf(x, p))
    && !x.manifest.covered(x.manifest.dispositions[p][operation])
  }

  predicate AboutCase(f: Finding) { !f.OperationLacks? && !f.Unresolved? }

  // When a finding about one case is due.
  ghost predicate CaseHolds(x: Setting, rows: seq<Row>, f: Finding)
    requires AboutCase(f)
  {
    match f
    case Ambiguous(p, c) => |Matching(x, p, c, x.junit)| > 1
    case NotPassed(p, c) => !PassedOnce(Matching(x, p, c, x.junit))
    case UnexpectedRequest(p, c) => (p, c) in x.manifest.noRequest && Measured(x, rows, p, c)
    case NoEvidence(p, c) => (p, c) !in x.manifest.noRequest && !Measured(x, rows, p, c)
    case NoDenialDisposition(p, c, operation) =>
      ProviderSeen(rows, p) && operation in DenialsOf(x, p, c) && !Observed(x, rows, p, c, operation, DENIED)
    case NoDenialStatus(p, c, operation) =>
      ProviderSeen(rows, p) && operation in DenialsOf(x, p, c)
      && !Observed(x, rows, p, c, operation, Status(DenialsOf(x, p, c)[operation]))
  }

  ghost predicate Holds(x: Setting, rows: seq<Row>, f: Finding) {
    match f
    case OperationLacks(p, operation) =>
      p in x.options.providers && operation in RequiredOf(x, p) && !Proved(rows, p, operation)
    case Unresolved(p, operation) => IsUnresolved(x, p, operation)
    case _ => IsCase(x, f.provider, f.c) && CaseHolds(x, rows, f)
  }

  // ---- finding it -----------------------------------------------------------------------------

  method FindMatches(x: Setting, p: string, c: Case) returns (matches: seq<Junit>)
    ensures matches == Matching(x, p, c, x.junit)
  {
    matches := [];
    for i := 0 to |x.junit|
      invariant matches == Matching(x, p, c, x.junit[..i])
    {
      assert x.junit[..i + 1][..i] == x.junit[..i];
      if x.manifest.junitMatches(x.junit[i], c, p) { matches := matches + [x.junit[i]]; }
    }
    assert x.junit[..|x.junit|] == x.junit;
  }

  // The requests of every case receipt that belongs to the manifest case.
  method MeasuredRequests(x: Setting, tally: Tally, p: string, c: Case, ghost rows: seq<Row>) returns (requests: nat)
    requires ProviderTracked(p, tally, rows)
    ensures requests > 0 <==> Measured(x, rows, p, c)
  {
    requests := 0;
    var left := tally.cases.Keys;
    while left != {}
      invariant left <= tally.cases.Keys
      invariant requests > 0 <==>
        exists key ::
          key in tally.cases.Keys - left && key.0 == p && x.manifest.caseIdMatches(key.1, c, p) && tally.cases[key] > 0
      decreases |left|
    {
      var key :| key in left;
      left := left - {key};
      if key.0 == p && x.manifest.caseIdMatches(key.1, c, p) { requests := requests + tally.cases[key]; }
    }
    if requests > 0 {
      var key :| key in tally.cases.Keys && key.0 == p && x.manifest.caseIdMatches(key.1, c, p) && tally.cases[key] > 0;
      assert RequestsAt(tally.cases, (p, key.1)) == CaseTotal(rows, p, key.1);
    } else {
      forall id | x.manifest.caseIdMatches(id, c, p) ensures CaseTotal(rows, p, id) <= 0 {
        assert RequestsAt(tally.cases, (p, id)) == CaseTotal(rows, p, id);
      }
    }
  }

  method IsObserved(x: Setting, tally: Tally, p: string, c: Case, operation: string, mark: Mark, ghost rows: seq<Row>)
    returns (observed: bool)
    requires ProviderTracked(p, tally, rows)
    ensures observed <==> Observed(x, rows, p, c, operation, mark)
  {
    observed := exists k | k in tally.marks ::
        k.0 == p && x.manifest.caseIdMatches(k.1, c, p) && k.2 == operation && k.3 == mark;
    if observed {
      var k :| k in tally.marks && k.0 == p && x.manifest.caseIdMatches(k.1, c, p) && k.2 == operation && k.3 == mark;
      assert (p, k.1, operation, mark) in tally.marks;
    } else {
      forall id | x.manifest.caseIdMatches(id, c, p) ensures !Marked(rows, p, id, operation, mark) {
        assert (p, id, operation, mark) !in tally.marks;
      }
    }
  }

  // The findings about one case.
  ghost predicate IsFindingOf(x: Setting, rows: seq<Row>, p: string, c: Case, f: Finding) {
    AboutCase(f) && f.provider == p && f.c == c && CaseHolds(x, rows, f)
  }

  predicate IsDenialFinding(f: Finding) { f.NoDenialDisposition? || f.NoDenialStatus? }

  method CheckDenial(x: Setting, tally: Tally, p: string, c: Case, operation: string, ghost rows: seq<Row>)
    returns (missing: seq<Finding>)
    requires ProviderTracked(p, tally, rows) && p in tally.providers && operation in DenialsOf(x, p, c)
    ensures forall f ::
              f in missing <==> IsDenialFinding(f) && IsFindingOf(x, rows, p, c, f) && f.operation == operation
  {
    missing := [];
    var denied := IsObserved(x, tally, p, c, operation, DENIED, rows);
    var status := IsObserved(x, tally, p, c, operation, Status(DenialsOf(x, p, c)[operation]), rows);
    if !denied { missing := missing + [NoDenialDisposition(p, c, operation)]; }
    if !status { missing := missing + [NoDenialStatus(p, c, operation)]; }
  }

  method CheckDenials(x: Setting, tally: Tally, p: string, c: Case, ghost rows: seq<Row>)
    returns (missing: seq<Finding>)
    requires ProviderTracked(p, tally, rows) && p in tally.providers
    ensures forall f :: f in missing <==> IsDenialFinding(f) && IsFindingOf(x, rows, p, c, f)
  {
    missing := [];
    var names := Sorted(DenialsOf(x, p, c).Keys);
    for i := 0 to |names|
      invariant forall f ::
                  f in missing <==> IsDenialFinding(f) && IsFindingOf(x, rows, p, c, f) && f.operation in names[..i]
    {
      assert names[..i + 1] == names[..i] + [names[i]];
      assert names[i] in names;
      var found := CheckDenial(x, tally, p, c, names[i], rows);
      missing := missing + found;
    }
    assert names[..|names|] == names;
  }

  predicate IsOutcomeFinding(f: Finding) { f.Ambiguous? || f.NotPassed? }

  method CheckOutcome(x: Setting, p: string, c: Case, ghost rows: seq<Row>) returns (missing: seq<Finding>)
    ensures forall f :: f in missing <==> IsOutcomeFinding(f) && IsFindingOf(x, rows, p, c, f)
  {
    missing := [];
    var matches := FindMatches(x, p, c);
    if |matches| > 1 { missing := missing + [Ambiguous(p, c)]; }
    if |matches| != 1 || matches[0].outcome != "passed" { missing := missing + [NotPassed(p, c)]; }
  }

  predicate IsRequestFinding(f: Finding) { f.UnexpectedRequest? || f.NoEvidence? }

  method CheckRequests(x: Setting, tally: Tally, p: string, c: Case, ghost rows: seq<Row>)
    returns (missing: seq<Finding>)
    requires ProviderTracked(p, tally, rows)
    ensures forall f :: f in missing <==> IsRequestFinding(f) && IsFindingOf(x, rows, p, c, f)
  {
    missing := [];
    var requests := MeasuredRequests(x, tally, p, c, rows);
    if (p, c) in x.manifest.noRequest {
      if requests > 0 { missing := [UnexpectedRequest(p, c)]; }
    } else if requests == 0 {
      missing := [NoEvidence(p, c)];
    }
  }

  method CheckCase(x: Setting, tally: Tally, p: string, c: Case, ghost rows: seq<Row>) returns (missing: seq<Finding>)
    requires ProviderTracked(p, tally, rows)
    ensures forall f :: f in missing <==> IsFindingOf(x, rows, p, c, f)
  {
    var outcome := CheckOutcome(x, p, c, rows);
    var requests := CheckRequests(x, tally, p, c, rows);
    missing := outcome + requests;
    if DenialsOf(x, p, c) != map[] && p in tally.providers {
      var denials := CheckDenials(x, tally, p, c, rows);
      missing := missing + denials;
    }
  }

  method CheckOperations(x: Setting, tally: Tally, p: string, ghost rows: seq<Row>) returns (missing: seq<Finding>)
    requires p in x.options.providers && ProviderTracked(p, tally, rows)
    ensures forall f :: f in missing <==> f.OperationLacks? && f.provider == p && Holds(x, rows, f)
  {
    missing := [];
    var names := Sorted(RequiredOf(x, p));
    for i := 0 to |names|
      invariant forall f :: f in missing <==>
                  f.OperationLacks? && f.provider == p && f.operation in names[..i] && !Proved(rows, p, f.operation)
    {
      assert names[..i + 1] == names[..i] + [names[i]];
      assert names[i] in names;
      var key := (p, names[i]);
      assert AmountAt(tally.operations, key, Requests) == Total(rows, p, names[i], Requests);
      assert AmountAt(tally.operations, key, Bytes) == Total(rows, p, names[i], Bytes);
      assert AmountAt(tally.operations, key, Failures) == Total(rows, p, names[i], Failures);
      if !(AmountAt(tally.operations, key, Requests) > 0 && AmountAt(tally.operations, key, Bytes) > 0
           && AmountAt(tally.operations, key, Failures) == 0) {
        missing := missing + [OperationLacks(p, names[i])];
      }
    }
    assert names[..|names|] == names;
  }

  method CheckCases(x: Setting, tally: Tally, p: string, ghost rows: seq<Row>) returns (missing: seq<Finding>)
    requires p in x.options.providers && ProviderTracked(p, tally, rows)
    ensures forall f :: f in missing <==> AboutCase(f) && f.provider == p && Holds(x, rows, f)
  {
    missing := [];
    var cases := x.manifest.cases(p);
    for i := 0 to |cases|
      invariant forall f :: f in missing <==>
                  AboutCase(f) && f.c in cases[..i] && IsChosen(x, p, f.c) && IsFindingOf(x, rows, p, f.c, f)
    {
      assert cases[..i + 1] == cases[..i] + [cases[i]];
      if IsChosen(x, p, cases[i]) {
        var found := CheckCase(x, tally, p, cases[i], rows);
        missing := missing + found;
      }
    }
    assert cases[..|cases|] == cases;
  }

  method CheckDispositions(x: Setting) returns (missing: seq<Finding>)
    ensures forall f :: f in missing <==> f.Unresolved? && IsUnresolved(x, f.provider, f.operation)
  {
    missing := [];
    var providers := Sorted(x.options.providers * x.manifest.dispositions.Keys);
    for i := 0 to |providers|
      invariant forall f :: f in missing <==>
                  f.Unresolved? && f.provider in providers[..i] && IsUnresolved(x, f.provider, f.operation)
    {
      assert providers[..i + 1] == providers[..i] + [providers[i]];
      assert providers[i] in providers;
      var found := ProviderDispositions(x, providers[i]);
      missing := missing + found;
    }
    assert providers[..|providers|] == providers;
  }

  method ProviderDispositions(x: Setting, p: string) returns (missing: seq<Finding>)
    requires p in x.options.providers && p in x.manifest.dispositions
    ensures forall f :: f in missing <==> f.Unresolved? && f.provider == p && IsUnresolved(x, p, f.operation)
  {
    missing := [];
    if x.options.accountUsageOnly { return; }
    var dispositions := x.manifest.dispositions[p];
    var names := Sorted(dispositions.Keys);
    for i := 0 to |names|
      invariant forall f :: f in missing <==>
                  f.Unresolved? && f.provider == p && f.operation in names[..i] && IsUnresolved(x, p, f.operation)
    {
      assert names[..i + 1] == names[..i] + [names[i]];
      assert names[i] in names;
      if x.options.override.Some? && names[i] !in OverrideOf(x, p) { continue; }
      if !x.manifest.covered(dispositions[names[i]]) { missing := missing + [Unresolved(p, names[i])]; }
    }
    assert names[..|names|] == names;
  }

  method FindMissing(x: Setting, tally: Tally, ghost rows: seq<Row>) returns (missing: seq<Finding>)
    requires Tracks(x.options.providers, tally, rows)
    ensures forall f :: f in missing <==> Holds(x, rows, f)
  {
    missing := [];
    var providers := Sorted(x.options.providers);
    for i := 0 to |providers|
      invariant forall f :: f in missing <==> !f.Unresolved? && f.provider in providers[..i] && Holds(x, rows, f)
    {
      assert providers[..i + 1] == providers[..i] + [providers[i]];
      assert providers[i] in providers;
      var cases := CheckCases(x, tally, providers[i], rows);
      var operations := CheckOperations(x, tally, providers[i], rows);
      missing := missing + cases + operations;
    }
    assert providers[..|providers|] == providers;
    var unresolved := CheckDispositions(x);
    missing := missing + unresolved;
  }

  datatype Evidence = Evidence(missing: seq<Finding>, fault: Option<Fault>, complete: bool)

  ghost predicate LedgerIsClean(q: Query, ledger: Ledger) { ledger.Ledger? && !ledger.broken && Clean(q, ledger.lines) }

  function RowsOf(q: Query, ledger: Ledger): seq<Row> { if ledger.Missing? then [] else Selected(q, ledger.lines) }

  // The whole evidence: exactly the findings that hold, and complete when there is
  // none and the ledger is clean.  There is none at all when a row of a provider that
  // is asked for lists the operations of a case.
  method ProviderLiveEvidence(x: Setting, q: Query, ledger: Ledger) returns (evidence: Option<Evidence>)
    ensures evidence.None? <==> Interrupted(x.options.providers, RowsOf(q, ledger))
    ensures evidence.Some? ==> forall f :: f in evidence.value.missing <==> Holds(x, RowsOf(q, ledger), f)
    ensures evidence.Some? ==>
              (evidence.value.complete <==>
               LedgerIsClean(q, ledger) && forall f :: !Holds(x, RowsOf(q, ledger), f))
  {
    var rows, fault := ScanLedger(q, ledger);
    var tally := AddRows(x.options.providers, rows);
    if tally.None? { return None; }
    var missing := FindMissing(x, tally.value, rows);
    if missing == [] {
      assert forall f :: f !in missing;
    } else {
      assert missing[0] in missing;
    }
    evidence := Some(Evidence(missing, fault, missing == [] && fault.None?));
  }

  // ---- what a complete verdict means ---------------------------------------------------------------

  ghost predicate CaseCovered(x: Setting, rows: seq<Row>, p: string, c: Case) {
    && PassedOnce(Matching(x, p, c, x.junit))
    && (if (p, c) in x.manifest.noRequest
        then forall id | x.manifest.caseIdMatches(id, c, p) :: CaseTotal(rows, p, id) == 0
        else Measured(x, rows, p, c))
    && (ProviderSeen(rows, p) ==>
          forall operation | operation in DenialsOf(x, p, c) ::
            Observed(x, rows, p, c, operation, DENIED)
            && Observed(x, rows, p, c, operation, Status(DenialsOf(x, p, c)[operation])))
  }

  lemma TotalsAreNotNegative(rows: seq<Row>, p: string, id: string)
    ensures CaseTotal(rows, p, id) >= 0
  {
    forall row: Row ensures RowRequests(row, p, id) >= 0 {
      SumOfNonNegative(row.cases, member => MemberRequests(member, id));
    }
    SumOfNonNegative(rows, row => RowRequests(row, p, id));
  }

  lemma CoveredHasNoFinding(x: Setting, rows: seq<Row>, p: string, c: Case, f: Finding)
    requires CaseCovered(x, rows, p, c)
    ensures !IsFindingOf(x, rows, p, c, f)
  {
    RequestIsMeasured(x, rows, p, c);
  }

  lemma MissingDenialIsFound(x: Setting, rows: seq<Row>, p: string, c: Case, operation: string)
    requires ProviderSeen(rows, p) && operation in DenialsOf(x, p, c)
    requires !(Observed(x, rows, p, c, operation, DENIED)
               && Observed(x, rows, p, c, operation, Status(DenialsOf(x, p, c)[operation])))
    ensures exists f :: IsFindingOf(x, rows, p, c, f)
  {
    assert IsFindingOf(x, rows, p, c, NoDenialDisposition(p, c, operation))
           || IsFindingOf(x, rows, p, c, NoDenialStatus(p, c, operation));
  }

  lemma RequestIsMeasured(x: Setting, rows: seq<Row>, p: string, c: Case)
    ensures (forall id | x.manifest.caseIdMatches(id, c, p) :: CaseTotal(rows, p, id) == 0)
            <==> !Measured(x, rows, p, c)
  {
    forall id ensures CaseTotal(rows, p, id) >= 0 { TotalsAreNotNegative(rows, p, id); }
  }

  // A case has no finding exactly when it is covered.
  lemma CaseCoveredIff(x: Setting, rows: seq<Row>, p: string, c: Case)
    ensures CaseCovered(x, rows, p, c) <==> forall f :: !IsFindingOf(x, rows, p, c, f)
  {
    RequestIsMeasured(x, rows, p, c);
    if CaseCovered(x, rows, p, c) {
      forall f ensures !IsFindingOf(x, rows, p, c, f) { CoveredHasNoFinding(x, rows, p, c, f); }
    } else if !PassedOnce(Matching(x, p, c, x.junit)) {
      assert IsFindingOf(x, rows, p, c, NotPassed(p, c));
    } else if (p, c) in x.manifest.noRequest && Measured(x, rows, p, c) {
      assert IsFindingOf(x, rows, p, c, UnexpectedRequest(p, c));
    } else if (p, c) !in x.manifest.noRequest && !Measured(x, rows, p, c) {
      assert IsFindingOf(x, rows, p, c, NoEvidence(p, c));
    } else {
      var operation :| operation in DenialsOf(x, p, c)
        && !(Observed(x, rows, p, c, operation, DENIED)
             && Observed(x, rows, p, c, operation, Status(DenialsOf(x, p, c)[operation])));
      MissingDenialIsFound(x, rows, p, c, operation);
    }
  }

  // ---- what the totals say about the rows ---------------------------------------------------

  function RawAmount(usage: Usage, field: Field): int {
    match field case Requests => usage.requests case Bytes => usage.bytes case Failures => usage.failures
  }

  // Some row of the provider reports a positive amount for the operation.
  ghost predicate Reports(rows: seq<Row>, p: string, operation: string, field: Field) {
    exists row :: row in rows && row.provider == p && RowReports(row, operation, field)
  }

  ghost predicate RowReports(row: Row, operation: string, field: Field) {
    exists i :: 0 <= i < |row.operations| && row.operations[i].0 == operation && row.operations[i].1.Some?
                && RawAmount(row.operations[i].1.value, field) > 0
  }

  lemma TotalPositiveIff(rows: seq<Row>, p: string, operation: string, field: Field)
    ensures Total(rows, p, operation, field) >= 0
    ensures Total(rows, p, operation, field) > 0 <==> Reports(rows, p, operation, field)
  {
    forall row: Row
      ensures RowAmount(row, p, operation, field) >= 0
      ensures RowAmount(row, p, operation, field) > 0 <==> row.provider == p && RowReports(row, operation, field)
    {
      SumOfNonNegative(row.operations, member => MemberAmount(member, operation, field));
    }
    SumOfNonNegative(rows, row => RowAmount(row, p, operation, field));
    SomeIndex(rows, row => RowAmount(row, p, operation, field) > 0);
  }

  lemma SomeIndex<T(!new)>(items: seq<T>, holds: T -> bool)
    ensures (exists i :: 0 <= i < |items| && holds(items[i])) <==> exists x :: x in items && holds(x)
  {
  }

  // An operation is proved exactly when its provider reports requests and bytes for it,
  // and no failure.
  lemma ProvedIff(rows: seq<Row>, p: string, operation: string)
    ensures Proved(rows, p, operation) <==>
            Reports(rows, p, operation, Requests) && Reports(rows, p, operation, Bytes)
            && !Reports(rows, p, operation, Failures)
  {
    TotalPositiveIff(rows, p, operation, Requests);
    TotalPositiveIff(rows, p, operation, Bytes);
    TotalPositiveIff(rows, p, operation, Failures);
  }

  ghost predicate RowRequested(row: Row, id: string) {
    exists i :: 0 <= i < |row.cases| && row.cases[i].0 == id && row.cases[i].1.Some?
                && row.cases[i].1.value.requests > 0
  }

  // Requests are counted for a case id exactly when some row of the provider has a
  // receipt for it with requests.
  lemma CaseTotalPositiveIff(rows: seq<Row>, p: string, id: string)
    ensures CaseTotal(rows, p, id) >= 0
    ensures CaseTotal(rows, p, id) > 0 <==>
            exists row :: row in rows && row.provider == p && RowRequested(row, id)
  {
    forall row: Row
      ensures RowRequests(row, p, id) >= 0
      ensures RowRequests(row, p, id) > 0 <==> row.provider == p && RowRequested(row, id)
    {
      SumOfNonNegative(row.cases, member => MemberRequests(member, id));
    }
    SumOfNonNegative(rows, row => RowRequests(row, p, id));
    SomeIndex(rows, row => RowRequests(row, p, id) > 0);
  }

  // Nothing is missing exactly when every manifest case is covered, every required
  // operation has requests and bytes and no failure, and every disposition is settled.
  lemma NothingMissingIff(x: Setting, rows: seq<Row>)
    ensures (forall f :: !Holds(x, rows, f)) <==>
            && (forall p, c | IsCase(x, p, c) :: CaseCovered(x, rows, p, c))
            && (forall p, operation | p in x.options.providers && operation in RequiredOf(x, p) ::
                Proved(rows, p, operation))
            && (forall p, operation :: !IsUnresolved(x, p, operation))
  {
    forall p, c ensures CaseCovered(x, rows, p, c) <==> forall f :: !IsFindingOf(x, rows, p, c, f) {
      CaseCoveredIff(x, rows, p, c);
    }
    if forall f :: !Holds(x, rows, f) {
      forall p, c | IsCase(x, p, c) ensures CaseCovered(x, rows, p, c) {
        forall f ensures !IsFindingOf(x, rows, p, c, f) { assert !Holds(x, rows, f); }
      }
      forall p, operation | p in x.options.providers && operation in RequiredOf(x, p)
        ensures Proved(rows, p, operation)
      {
        assert !Holds(x, rows, OperationLacks(p, operation));
      }
      forall p, operation ensures !IsUnresolved(x, p, operation) {
        assert !Holds(x, rows, Unresolved(p, operation));
      }
    } else {
      var f :| Holds(x, rows, f);
      if AboutCase(f) { assert IsFindingOf(x, rows, f.provider, f.c, f); }
    }
  }

  // ---- the verdict in terms of the receipts ------------------------------------------------------

  // Exactly one JUnit result is that of the case, and it passed.
  ghost predicate OnePassed(x: Setting, p: string, c: Case) {
    exists i | 0 <= i < |x.junit| :: IsOnlyPass(x, p, c, i)
  }

  predicate IsOnlyPass(x: Setting, p: string, c: Case, i: nat)
    requires i < |x.junit|
  {
    && x.manifest.junitMatches(x.junit[i], c, p) && x.junit[i].outcome == "passed"
    && forall j | 0 <= j < |x.junit| && j != i :: !x.manifest.junitMatches(x.junit[j], c, p)
  }

  lemma {:induction false} NoneMatches(x: Setting, p: string, c: Case, results: seq<Junit>)
    ensures Matching(x, p, c, results) == []
            <==> forall i | 0 <= i < |results| :: !x.manifest.junitMatches(results[i], c, p)
    decreases |results|
  {
    if results != [] { NoneMatches(x, p, c, results[..|results| - 1]); }
  }

  lemma {:induction false} OneMatches(x: Setting, p: string, c: Case, results: seq<Junit>)
    ensures PassedOnce(Matching(x, p, c, results)) <==>
            exists i | 0 <= i < |results| :: IsOnlyPass(x.(junit := results), p, c, i)
    decreases |results|
  {
    if results != [] {
      var n := |results| - 1;
      var front, last := results[..n], results[n];
      OneMatches(x, p, c, front);
      NoneMatches(x, p, c, front);
      assert forall i | 0 <= i < n :: front[i] == results[i];
      if x.manifest.junitMatches(last, c, p) {
        if forall i | 0 <= i < n :: !x.manifest.junitMatches(front[i], c, p) {
          assert Matching(x, p, c, results) == [last];
          assert last.outcome == "passed" ==> IsOnlyPass(x.(junit := results), p, c, n);
        } else {
          var i :| 0 <= i < n && x.manifest.junitMatches(front[i], c, p);
          assert |Matching(x, p, c, results)| > 1;
        }
      } else {
        forall i | 0 <= i < n
          ensures IsOnlyPass(x.(junit := results), p, c, i) <==> IsOnlyPass(x.(junit := front), p, c, i)
        {
          assert IsOnlyPass(x.(junit := front), p, c, i) ==>
            forall j | 0 <= j < |results| && j != i :: !x.manifest.junitMatches(results[j], c, p);
        }
      }
    }
  }

  // Some row of the provider has a receipt with requests for the case.
  ghost predicate CaseRequested(x: Setting, rows: seq<Row>, p: string, c: Case) {
    exists id, row :: x.manifest.caseIdMatches(id, c, p) && row in rows && row.provider == p && RowRequested(row, id)
  }

  lemma MeasuredIff(x: Setting, rows: seq<Row>, p: string, c: Case)
    ensures Measured(x, rows, p, c) <==> CaseRequested(x, rows, p, c)
  {
    forall id ensures CaseTotal(rows, p, id) > 0 <==>
                      exists row :: row in rows && row.provider == p && RowRequested(row, id) {
      CaseTotalPositiveIff(rows, p, id);
    }
  }

  // Some receipt for the case notes this status or disposition for the operation.
  ghost predicate Noted(x: Setting, rows: seq<Row>, p: string, c: Case, operation: string, mark: Mark) {
    exists id, row ::
      x.manifest.caseIdMatches(id, c, p) && row in rows && row.provider == p && RowNotes(row, id, operation, mark)
  }

  ghost predicate RowNotes(row: Row, id: string, operation: string, mark: Mark) {
    exists i, j ::
      && 0 <= i < |row.cases| && row.cases[i].0 == id && row.cases[i].1.Some?
      && 0 <= j < |UsagesOf(row.cases[i].1.value.operations)|
      && var member := UsagesOf(row.cases[i].1.value.operations)[j];
      && member.0 == operation && member.1.Some?
      && match mark
         case Status(text) => text in member.1.value.statuses
         case Disposition(text) => text in member.1.value.dispositions
  }

  lemma RowNotesIff(row: Row, id: string, operation: string, mark: Mark)
    ensures CasesMark(row.cases, id, operation, mark) <==> RowNotes(row, id, operation, mark)
  {
    if RowNotes(row, id, operation, mark) {
      var i, j :|
        && 0 <= i < |row.cases| && row.cases[i].0 == id && row.cases[i].1.Some?
        && 0 <= j < |UsagesOf(row.cases[i].1.value.operations)|
        && var member := UsagesOf(row.cases[i].1.value.operations)[j];
        && member.0 == operation && member.1.Some? && UsageMarks(member.1.value, mark);
      assert OperationMarks(UsagesOf(row.cases[i].1.value.operations), operation, mark);
    }
    if CasesMark(row.cases, id, operation, mark) {
      var i :| 0 <= i < |row.cases| && row.cases[i].0 == id && row.cases[i].1.Some?
               && OperationMarks(UsagesOf(row.cases[i].1.value.operations), operation, mark);
      var members := UsagesOf(row.cases[i].1.value.operations);
      var j :| 0 <= j < |members| && members[j].0 == operation && members[j].1.Some?
               && UsageMarks(members[j].1.value, mark);
    }
  }

  lemma NotedIff(x: Setting, rows: seq<Row>, p: string, c: Case, operation: string, mark: Mark)
    ensures Observed(x, rows, p, c, operation, mark) <==> Noted(x, rows, p, c, operation, mark)
  {
    forall row: Row, id ensures CasesMark(row.cases, id, operation, mark) <==> RowNotes(row, id, operation, mark) {
      RowNotesIff(row, id, operation, mark);
    }
  }

  // A manifest case is settled: it passed once; it made requests exactly where it may;
  // and, if the provider was seen at all, each denial it expects was noted with its status.
  ghost predicate Settled(x: Setting, rows: seq<Row>, p: string, c: Case) {
    && OnePassed(x, p, c)
    && (CaseRequested(x, rows, p, c) <==> (p, c) !in x.manifest.noRequest)
    && ((p, c) in x.manifest.denials && (exists row :: row in rows && row.provider == p) ==>
          forall operation | operation in x.manifest.denials[(p, c)] ::
            Noted(x, rows, p, c, operation, Disposition("expected_entitlement_denial"))
            && Noted(x, rows, p, c, operation, Status(x.manifest.denials[(p, c)][operation])))
  }

  lemma SettledIff(x: Setting, rows: seq<Row>, p: string, c: Case)
    ensures CaseCovered(x, rows, p, c) <==> Settled(x, rows, p, c)
  {
    OneMatches(x, p, c, x.junit);
    assert x.(junit := x.junit) == x;
    RequestIsMeasured(x, rows, p, c);
    MeasuredIff(x, rows, p, c);
    forall operation, mark
      ensures Observed(x, rows, p, c, operation, mark) <==> Noted(x, rows, p, c, operation, mark)
    {
      NotedIff(x, rows, p, c, operation, mark);
    }
  }

  // The operations whose success a provider owes: account usage only, or the override, or
  // the manifest.
  predicate Owes(x: Setting, p: string, operation: string) {
    && p in x.options.providers
    && if x.options.accountUsageOnly then operation == "fetch_account_usage"
       else if x.options.override.None? then operation in x.manifest.required(p)
       else p in x.options.override.value && operation in x.options.override.value[p]
  }

  // The disposition that a provider has for an operation in scope.
  predicate Disposes(x: Setting, p: string, operation: string) {
    && p in x.options.providers && !x.options.accountUsageOnly
    && p in x.manifest.dispositions && operation in x.manifest.dispositions[p]
    && (x.options.override.None? || (p in x.options.override.value && operation in x.options.override.value[p]))
  }

  // Nothing is missing exactly when, for the providers asked for, every chosen case is
  // settled, every owed operation is reported with requests and bytes and no failure, and
  // every disposition in scope counts as covered.
  lemma EvidenceIff(x: Setting, rows: seq<Row>)
    ensures (forall f :: !Holds(x, rows, f)) <==>
            && (forall p, c | p in x.options.providers && c in x.manifest.cases(p)
                              && (x.options.selected.None?
                                  || (p in x.options.selected.value && c.name in x.options.selected.value[p]))
                              && (x.manifest.isAccountUsage(c) || !x.options.accountUsageOnly) ::
                  Settled(x, rows, p, c))
            && (forall p, operation | Owes(x, p, operation) ::
                  Reports(rows, p, operation, Requests) && Reports(rows, p, operation, Bytes)
                  && !Reports(rows, p, operation, Failures))
            && (forall p, operation | Disposes(x, p, operation) ::
                  x.manifest.covered(x.manifest.dispositions[p][operation]))
  {
    NothingMissingIff(x, rows);
    CasesSettled(x, rows);
    OperationsOwed(x, rows);
    DispositionsCovered(x);
  }

  lemma CasesSettled(x: Setting, rows: seq<Row>)
    ensures (forall p, c | IsCase(x, p, c) :: CaseCovered(x, rows, p, c)) <==>
            forall p, c | p in x.options.providers && c in x.manifest.cases(p)
                          && (x.options.selected.None?
                              || (p in x.options.selected.value && c.name in x.options.selected.value[p]))
                          && (x.manifest.isAccountUsage(c) || !x.options.accountUsageOnly) ::
              Settled(x, rows, p, c)
  {
    forall p, c ensures CaseCovered(x, rows, p, c) <==> Settled(x, rows, p, c) { SettledIff(x, rows, p, c); }
  }

  lemma OperationsOwed(x: Setting, rows: seq<Row>)
    ensures (forall p, operation | p in x.options.providers && operation in RequiredOf(x, p) ::
               Proved(rows, p, operation)) <==>
            forall p, operation | Owes(x, p, operation) ::
              Reports(rows, p, operation, Requests) && Reports(rows, p, operation, Bytes)
              && !Reports(rows, p, operation, Failures)
  {
    forall p, operation
      ensures Owes(x, p, operation) <==> p in x.options.providers && operation in RequiredOf(x, p)
      ensures Proved(rows, p, operation) <==>
              Reports(rows, p, operation, Requests) && Reports(rows, p, operation, Bytes)
              && !Reports(rows, p, operation, Failures)
    {
      ProvedIff(rows, p, operation);
    }
  }

  lemma DispositionsCovered(x: Setting)
    ensures (forall p, operation :: !IsUnresolved(x, p, operation)) <==>
            forall p, operation | Disposes(x, p, operation) ::
              x.manifest.covered(x.manifest.dispositions[p][operation])
  {
    forall p, operation
      ensures IsUnresolved(x, p, operation) <==>
              Disposes(x, p, operation) && !x.manifest.covered(x.manifest.dispositions[p][operation])
    {
    }
  }

  // ---- the order of the ledger ------------------------------------------------------------------------

  lemma TotalsIgnoreOrder(a: seq<Row>, b: seq<Row>)
    requires multiset(a) == multiset(b)
    ensures forall p, operation, field :: Total(a, p, operation, field) == Total(b, p, operation, field)
    ensures forall p, id :: CaseTotal(a, p, id) == CaseTotal(b, p, id)
    ensures forall p :: ProviderSeen(a, p) <==> ProviderSeen(b, p)
    ensures forall p, id, operation, mark :: Marked(a, p, id, operation, mark) <==> Marked(b, p, id, operation, mark)
  {
    forall p, operation, field ensures Total(a, p, operation, field) == Total(b, p, operation, field) {
      SumIgnoresOrder(a, b, row => RowAmount(row, p, operation, field));
    }
    forall p, id ensures CaseTotal(a, p, id) == CaseTotal(b, p, id) {
      SumIgnoresOrder(a, b, row => RowRequests(row, p, id));
    }
    SameMembers(a, b);
  }

  lemma SameMembers<T>(a: seq<T>, b: seq<T>)
    requires multiset(a) == multiset(b)
    ensures forall x :: x in a <==> x in b
  {
    forall x ensures x in a <==> x in b { assert x in multiset(a) <==> x in multiset(b); }
  }

  // Permuting the lines of the ledger changes neither the findings nor the verdict.
  lemma VerdictIgnoresOrder(x: Setting, q: Query, a: Ledger, b: Ledger)
    requires a.Ledger? && b.Ledger? && a.broken == b.broken && multiset(a.lines) == multiset(b.lines)
    ensures forall f :: Holds(x, RowsOf(q, a), f) <==> Holds(x, RowsOf(q, b), f)
    ensures LedgerIsClean(q, a) <==> LedgerIsClean(q, b)
    ensures forall providers :: Interrupted(providers, RowsOf(q, a)) <==> Interrupted(providers, RowsOf(q, b))
  {
    CleanIgnoresOrder(q, a.lines, b.lines);
    TotalsIgnoreOrder(RowsOf(q, a), RowsOf(q, b));
    SameMembers(RowsOf(q, a), RowsOf(q, b));
  }
}
