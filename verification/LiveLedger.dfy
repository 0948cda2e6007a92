/**
 The usage-ledger half of `_provider_live_evidence` in
 scripts/run-live-provider-probes.py: the rows of one run are selected, checked for
 duplicate receipts and added up per provider, operation and case.

 Members of a JSON object are kept in document order; a member that should be an
 object and is not is None.
 */
module LiveLedger {
  import opened Wrappers

  datatype Usage = Usage(requests: int, bytes: int, failures: int, dispositions: set<string>, statuses: set<string>)

  // The operations of a case: an object, or a list (or a text), which has names only.
  datatype CaseOperations = Members(members: seq<(string, Option<Usage>)>) | Names(names: seq<string>)

  datatype CaseRow = CaseRow(requests: int, operations: CaseOperations)

  function NamesOf(operations: CaseOperations): (names: seq<string>) {
    if operations.Names? then operations.names
    else seq(|operations.members|, i requires 0 <= i < |operations.members| => operations.members[i].0)
  }

  function UsagesOf(operations: CaseOperations): seq<(string, Option<Usage>)> {
    if operations.Names? then [] else operations.members
  }

  // An entry of the reservations list, trimmed; empty when a part is missing.
  datatype Reservation = Reservation(id: string, operation: string)

  datatype Reservations = NoReservations | NotAList | Listed(entries: seq<Option<Reservation>>)

  datatype Row = Row(
    provider: string, reservations: Reservations,
    operations: seq<(string, Option<Usage>)>, cases: seq<(string, Option<CaseRow>)>)

  datatype Line = Blank | Malformed | NotAnObject | RowLine(runId: string, scope: string, row: Row)

  // The ledger may be missing, or stop being readable after some lines.
  datatype Ledger = Missing | Ledger(lines: seq<Line>, broken: bool)

  datatype Query = Query(runId: string, scope: string, providers: set<string>)

  // ---- sums over rows, in any order ---------------------------------------------------

  function Sum<T>(items: seq<T>, f: T -> int): int {
    if items == [] then 0 else Sum(items[..|items| - 1], f) + f(items[|items| - 1])
  }

  lemma {:induction false} SumConcat<T>(a: seq<T>, b: seq<T>, f: T -> int)
    ensures Sum(a + b, f) == Sum(a, f) + Sum(b, f)
    decreases |b|
  {
    if b == [] {
      assert a + b == a;
    } else {
      SumConcat(a, b[..|b| - 1], f);
      assert (a + b)[..|a + b| - 1] == a + b[..|b| - 1];
    }
  }

  function Without<T>(items: seq<T>, i: nat): seq<T>
    requires i < |items|
  {
    items[..i] + items[i + 1..]
  }

  lemma WithoutOne<T>(items: seq<T>, i: nat)
    requires i < |items|
    ensures multiset(Without(items, i)) == multiset(items) - multiset{items[i]}
  {
    assert items == items[..i] + [items[i]] + items[i + 1..];
  }

  lemma SumWithout<T>(items: seq<T>, i: nat, f: T -> int)
    requires i < |items|
    ensures Sum(items, f) == Sum(Without(items, i), f) + f(items[i])
  {
    var x := items[i];
    assert items == items[..i] + ([x] + items[i + 1..]);
    SumOfThree(items[..i], x, items[i + 1..], f);
  }

  lemma SumOfThree<T>(before: seq<T>, x: T, after: seq<T>, f: T -> int)
    ensures Sum(before + ([x] + after), f) == Sum(before + after, f) + f(x)
  {
    SumConcat(before, [x] + after, f);
    SumConcat([x], after, f);
    SumConcat(before, after, f);
    SumOfOne(x, f);
  }

  lemma SumOfOne<T>(x: T, f: T -> int)
    ensures Sum([x], f) == f(x)
  {
    assert [x][..0] == [];
  }

  lemma {:induction false} SumIgnoresOrder<T>(a: seq<T>, b: seq<T>, f: T -> int)
    requires multiset(a) == multiset(b)
    ensures Sum(a, f) == Sum(b, f)
    decreases |a|
  {
    if a == [] {
      assert |multiset(b)| == 0;
    } else {
      assert a[0] in multiset(b);
      var i :| 0 <= i < |b| && b[i] == a[0];
      WithoutOne(a, 0);
      WithoutOne(b, i);
      SumIgnoresOrder(Without(a, 0), Without(b, i), f);
      SumWithout(a, 0, f);
      SumWithout(b, i, f);
    }
  }

  lemma {:induction false} SumOfNonNegative<T>(items: seq<T>, f: T -> int)
    requires forall x :: f(x) >= 0
    ensures Sum(items, f) >= 0
    ensures Sum(items, f) > 0 <==> exists i :: 0 <= i < |items| && f(items[i]) > 0
  {
    if items != [] { SumOfNonNegative(items[..|items| - 1], f); }
  }

  // ---- lists gathered from rows --------------------------------------------------------

  function Flat<S, T>(rows: seq<S>, keys: S -> seq<T>): seq<T> {
    if rows == [] then [] else Flat(rows[..|rows| - 1], keys) + keys(rows[|rows| - 1])
  }

  ghost predicate NoDuplicates<T(!new)>(s: seq<T>) { forall x :: multiset(s)[x] <= 1 }

  lemma {:induction false} FlatCounts<S, T>(rows: seq<S>, keys: S -> seq<T>, x: T)
    ensures multiset(Flat(rows, keys))[x] == Sum(rows, row => multiset(keys(row))[x])
  {
    if rows != [] {
      FlatCounts(rows[..|rows| - 1], keys, x);
    }
  }

  lemma FlatIgnoresOrder<S, T(!new)>(a: seq<S>, b: seq<S>, keys: S -> seq<T>)
    requires multiset(a) == multiset(b)
    ensures multiset(Flat(a, keys)) == multiset(Flat(b, keys))
    ensures NoDuplicates(Flat(a, keys)) <==> NoDuplicates(Flat(b, keys))
  {
    forall x ensures multiset(Flat(a, keys))[x] == multiset(Flat(b, keys))[x] {
      FlatCounts(a, keys, x);
      FlatCounts(b, keys, x);
      SumIgnoresOrder(a, b, row => multiset(keys(row))[x]);
    }
  }

  lemma NoDuplicatesOfConcat<T(!new)>(a: seq<T>, b: seq<T>)
    ensures NoDuplicates(a + b) <==> NoDuplicates(a) && NoDuplicates(b) && forall x | x in a :: x !in b
  {
    assert multiset(a + b) == multiset(a) + multiset(b);
    if NoDuplicates(a + b) {
      forall x ensures multiset(a)[x] <= 1 && multiset(b)[x] <= 1 && !(x in a && x in b) {
        assert multiset(a + b)[x] == multiset(a)[x] + multiset(b)[x];
        assert multiset(a + b)[x] <= 1;
      }
    } else {
      var x :| multiset(a + b)[x] > 1;
      assert multiset(a + b)[x] == multiset(a)[x] + multiset(b)[x];
      assert (x in a && x in b) || multiset(a)[x] > 1 || multiset(b)[x] > 1;
    }
  }

  lemma NoDuplicatesOfOne<T(!new)>(x: T)
    ensures NoDuplicates([x])
  {
  }

  // ---- the receipts of the selected rows ------------------------------------------------

  predicate IsSelected(q: Query, line: Line) {
    line.RowLine? && line.runId == q.runId && (q.scope == "" || line.scope == q.scope)
  }

  // The rows of this run and, when a scope is expected, of that scope.
  function Selected(q: Query, lines: seq<Line>): seq<Row> {
    if lines == [] then []
    else
      var front, last := Selected(q, lines[..|lines| - 1]), lines[|lines| - 1];
      if IsSelected(q, last) then front + [last.row] else front
  }

  predicate IsComplete(entry: Option<Reservation>) {
    entry.Some? && entry.value.id != "" && entry.value.operation != ""
  }

  predicate AllComplete(entries: seq<Option<Reservation>>) { forall i | 0 <= i < |entries| :: IsComplete(entries[i]) }

  // The part of a row that may not be repeated: reservations, cases and the
  // operations of each case.
  function ReservationIds(entries: seq<Option<Reservation>>): seq<string> {
    if entries == [] then []
    else
      var front, last := ReservationIds(entries[..|entries| - 1]), entries[|entries| - 1];
      if IsComplete(last) then front + [last.value.id] else front
  }

  function RowIds(row: Row): seq<string> {
    if row.reservations.Listed? then ReservationIds(row.reservations.entries) else []
  }

  function CaseKeys(provider: string, cases: seq<(string, Option<CaseRow>)>): seq<(string, string)> {
    seq(|cases|, i requires 0 <= i < |cases| => (provider, cases[i].0))
  }

  function RowCaseKeys(row: Row): seq<(string, string)> { CaseKeys(row.provider, row.cases) }

  predicate WellFormed(row: Row) {
    && !row.reservations.NotAList?
    && (row.reservations.Listed? ==> AllComplete(row.reservations.entries))
    && AllCasesFormed(row.cases)
  }

  predicate AllCasesFormed(cases: seq<(string, Option<CaseRow>)>) {
    forall i | 0 <= i < |cases| :: WellFormedCase(cases[i].1)
  }

  predicate WellFormedCase(c: Option<CaseRow>) { c.Some? && EachOnce(NamesOf(c.value.operations)) }

  predicate EachOnce(names: seq<string>) { forall i, j | 0 <= i < j < |names| :: names[i] != names[j] }

  // No malformed line or receipt, no reservation, no case and no operation of a case
  // received twice.
  ghost predicate Clean(q: Query, lines: seq<Line>) {
    && (forall i | 0 <= i < |lines| :: !lines[i].Malformed?)
    && CleanRows(Selected(q, lines))
  }

  ghost predicate CleanRows(rows: seq<Row>) {
    && (forall i | 0 <= i < |rows| :: WellFormed(rows[i]))
    && NoDuplicates(Flat(rows, RowIds))
    && NoDuplicates(Flat(rows, RowCaseKeys))
  }

  // The order of the lines does not matter.
  lemma CleanIgnoresOrder(q: Query, a: seq<Line>, b: seq<Line>)
    requires multiset(a) == multiset(b)
    ensures multiset(Selected(q, a)) == multiset(Selected(q, b))
    ensures Clean(q, a) <==> Clean(q, b)
  {
    SelectedIgnoresOrder(q, a, b);
    var x, y := Selected(q, a), Selected(q, b);
    FlatIgnoresOrder(x, y, RowIds);
    FlatIgnoresOrder(x, y, RowCaseKeys);
    forall i | 0 <= i < |a| ensures a[i] in b { assert a[i] in multiset(b); }
    forall i | 0 <= i < |b| ensures b[i] in a { assert b[i] in multiset(a); }
    forall i | 0 <= i < |x| ensures x[i] in y { assert x[i] in multiset(y); }
    forall i | 0 <= i < |y| ensures y[i] in x { assert y[i] in multiset(x); }
  }

  // The selected rows are those of the run, and of the scope if one is asked for, line by
  // line.
  lemma {:induction false} SelectedOfConcat(q: Query, a: seq<Line>, b: seq<Line>)
    ensures Selected(q, a + b) == Selected(q, a) + Selected(q, b)
    decreases |b|
  {
    if b == [] {
      assert a + b == a;
    } else {
      SelectedOfConcat(q, a, b[..|b| - 1]);
      assert (a + b)[..|a + b| - 1] == a + b[..|b| - 1];
    }
  }

  lemma SelectedOfOne(q: Query, line: Line)
    ensures Selected(q, [line])
            == match line
               case RowLine(runId, scope, row) =>
                 if runId == q.runId && (q.scope == "" || q.scope == scope) then [row] else []
               case _ => []
  {
    assert [line][..0] == [];
  }

  function LineRows(q: Query, line: Line): seq<Row> { if IsSelected(q, line) then [line.row] else [] }

  lemma {:induction false} SelectedIsFlat(q: Query, lines: seq<Line>)
    ensures Selected(q, lines) == Flat(lines, line => LineRows(q, line))
  {
    if lines != [] { SelectedIsFlat(q, lines[..|lines| - 1]); }
  }

  lemma SelectedIgnoresOrder(q: Query, a: seq<Line>, b: seq<Line>)
    requires multiset(a) == multiset(b)
    ensures multiset(Selected(q, a)) == multiset(Selected(q, b))
  {
    SelectedIsFlat(q, a);
    SelectedIsFlat(q, b);
    FlatIgnoresOrder(a, b, line => LineRows(q, line));
  }

  // ---- reading the ledger -----------------------------------------------------------------

  datatype Fault =
    | MalformedJson | MalformedReservations | MalformedReservation | IncompleteReservation
    | RepeatedReservation | RepeatedOperation | RepeatedCase | MalformedCase | RepeatedCaseOperation
    | LedgerMissing | LedgerUnreadable

  function Range<T(==)>(s: seq<T>): set<T> { set x | x in s }

  // What a list of receipts does to what was seen before.
  ghost predicate Extends<T(!new)>(before: set<T>, receipts: seq<T>, after: set<T>) {
    NoDuplicates(receipts) && before !! Range(receipts) && after == before + Range(receipts)
  }

  ghost predicate CanExtend<T(!new)>(before: set<T>, receipts: seq<T>) {
    Extends(before, receipts, before + Range(receipts))
  }

  lemma ExtendByOne<T(!new)>(before: set<T>, receipts: seq<T>, x: T)
    ensures CanExtend(before, receipts + [x]) <==> CanExtend(before, receipts) && x !in before + Range(receipts)
    ensures Range(receipts + [x]) == Range(receipts) + {x}
  {
    NoDuplicatesOfConcat(receipts, [x]);
    NoDuplicatesOfOne(x);
    assert x in receipts + [x];
    assert forall y | y in receipts :: y in receipts + [x];
  }

  // The second of each pair of checks never fires first: a repeated receipt of an
  // operation has a repeated identity.
  ghost predicate OperationsHaveIds(operations: set<(string, string, string)>, ids: set<string>) {
    forall k | k in operations :: k.2 in ids
  }

  method ScanReservation(provider: string, reservation: Reservation, ids: set<string>,
                         operations: set<(string, string, string)>, fault: Option<Fault>)
    returns (ids': set<string>, operations': set<(string, string, string)>, fault': Option<Fault>)
    requires OperationsHaveIds(operations, ids)
    ensures OperationsHaveIds(operations', ids') && ids' == ids + {reservation.id}
    ensures fault'.None? <==> fault.None? && reservation.id !in ids
  {
    fault' := fault;
    var key := (provider, reservation.operation, reservation.id);
    if reservation.id in ids { fault' := Some(RepeatedReservation); }
    if key in operations { fault' := Some(RepeatedOperation); }
    ids', operations' := ids + {reservation.id}, operations + {key};
  }

  // Where scanning a list leaves the identities seen, if no fault was found.
  ghost predicate IdsScanned(before: set<string>, clear: bool, entries: seq<Option<Reservation>>, ids: set<string>,
                             fault: Option<Fault>)
  {
    && (fault.None? <==> clear && AllComplete(entries) && CanExtend(before, ReservationIds(entries)))
    && (fault.None? ==> ids == before + Range(ReservationIds(entries)))
  }

  lemma IdsScannedFurther(before: set<string>, clear: bool, entries: seq<Option<Reservation>>, ids: set<string>,
                          fault: Option<Fault>,
                          entry: Option<Reservation>, ids': set<string>, fault': Option<Fault>)
    requires IdsScanned(before, clear, entries, ids, fault)
    requires fault'.None? <==> fault.None? && IsComplete(entry) && entry.value.id !in ids
    requires IsComplete(entry) ==> ids' == ids + {entry.value.id}
    ensures IdsScanned(before, clear, entries + [entry], ids', fault')
  {
    assert (entries + [entry])[..|entries|] == entries;
    assert AllComplete(entries + [entry]) <==> AllComplete(entries) && IsComplete(entry) by {
      assert (entries + [entry])[|entries|] == entry;
      assert forall i | 0 <= i < |entries| :: (entries + [entry])[i] == entries[i];
    }
    if IsComplete(entry) { ExtendByOne(before, ReservationIds(entries), entry.value.id); }
  }

  method ScanReservations(provider: string, entries: seq<Option<Reservation>>, ids: set<string>,
                          operations: set<(string, string, string)>, fault: Option<Fault>)
    returns (ids': set<string>, operations': set<(string, string, string)>, fault': Option<Fault>)
    requires OperationsHaveIds(operations, ids)
    ensures OperationsHaveIds(operations', ids')
    ensures IdsScanned(ids, fault.None?, entries, ids', fault')
  {
    ids', operations', fault' := ids, operations, fault;
    for i := 0 to |entries|
      invariant OperationsHaveIds(operations', ids')
      invariant IdsScanned(ids, fault.None?, entries[..i], ids', fault')
    {
      assert entries[..i + 1] == entries[..i] + [entries[i]];
      ghost var seen, found := ids', fault';
      if entries[i].None? {
        fault' := Some(MalformedReservation);
      } else if entries[i].value.id == "" || entries[i].value.operation == "" {
        fault' := Some(IncompleteReservation);
      } else {
        ids', operations', fault' := ScanReservation(provider, entries[i].value, ids', operations', fault');
      }
      IdsScannedFurther(ids, fault.None?, entries[..i], seen, found, entries[i], ids', fault');
    }
    assert entries[..|entries|] == entries;
  }

  // An object has each member once, so only a list can repeat an operation.
  lemma OnlyListsRepeat(operations: CaseOperations)
    requires operations.Members? ==>
               forall i, j | 0 <= i < j < |operations.members| :: operations.members[i].0 != operations.members[j].0
    ensures !EachOnce(NamesOf(operations)) ==> operations.Names?
  {
  }

  ghost predicate OperationsHaveCases(operations: set<(string, string, string)>, cases: set<(string, string)>) {
    forall k | k in operations :: (k.0, k.1) in cases
  }

  // The operations of one case that was not seen before.
  method ScanCaseOperations(key: (string, string), names: seq<string>,
                            operations: set<(string, string, string)>, fault: Option<Fault>)
    returns (operations': set<(string, string, string)>, fault': Option<Fault>)
    requires fault.None? ==> forall k | k in operations :: (k.0, k.1) != key
    ensures forall k | k in operations' :: k in operations || (k.0, k.1) == key
    ensures fault'.None? <==> fault.None? && EachOnce(names)
  {
    operations', fault' := operations, fault;
    for i := 0 to |names|
      invariant forall k :: k in operations' <==>
                  k in operations || ((k.0, k.1) == key && exists m | 0 <= m < i :: names[m] == k.2)
      invariant fault'.None? <==> fault.None? && EachOnce(names[..i])
    {
      var operation := (key.0, key.1, names[i]);
      assert names[..i + 1] == names[..i] + [names[i]];
      OnceMore(names[..i], names[i]);
      if operation in operations' { fault' := Some(RepeatedCaseOperation); }
      operations' := operations' + {operation};
    }
    assert names[..|names|] == names;
  }

  lemma OnceMore(names: seq<string>, name: string)
    ensures EachOnce(names + [name]) <==> EachOnce(names) && name !in names
  {
    var all := names + [name];
    assert all[|names|] == name && forall i | 0 <= i < |names| :: all[i] == names[i];
    if name in names {
      var i :| 0 <= i < |names| && names[i] == name;
      assert all[i] == all[|names|];
    }
    if !EachOnce(names) {
      var i, j :| 0 <= i < j < |names| && names[i] == names[j];
      assert all[i] == all[j];
    }
  }

  // Where scanning the cases of a row leaves the keys seen, if no fault was found.
  ghost predicate CasesScanned(before: set<(string, string)>, clear: bool, provider: string,
                               members: seq<(string, Option<CaseRow>)>, cases: set<(string, string)>,
                               fault: Option<Fault>)
  {
    && (fault.None? <==>
          clear && AllCasesFormed(members) && CanExtend(before, CaseKeys(provider, members)))
    && (fault.None? ==> cases == before + Range(CaseKeys(provider, members)))
  }

  lemma CasesScannedFurther(before: set<(string, string)>, clear: bool, provider: string,
                            members: seq<(string, Option<CaseRow>)>, cases: set<(string, string)>,
                            fault: Option<Fault>, member: (string, Option<CaseRow>), fault': Option<Fault>)
    requires CasesScanned(before, clear, provider, members, cases, fault)
    requires fault'.None? <==> fault.None? && (provider, member.0) !in cases && WellFormedCase(member.1)
    ensures CasesScanned(before, clear, provider, members + [member], cases + {(provider, member.0)}, fault')
  {
    var all, key := members + [member], (provider, member.0);
    assert all[|members|] == member && forall i | 0 <= i < |members| :: all[i] == members[i];
    assert CaseKeys(provider, all) == CaseKeys(provider, members) + [key];
    ExtendByOne(before, CaseKeys(provider, members), key);
  }

  method ScanCases(provider: string, members: seq<(string, Option<CaseRow>)>, cases: set<(string, string)>,
                   operations: set<(string, string, string)>, fault: Option<Fault>)
    returns (cases': set<(string, string)>, operations': set<(string, string, string)>, fault': Option<Fault>)
    requires OperationsHaveCases(operations, cases)
    ensures OperationsHaveCases(operations', cases')
    ensures CasesScanned(cases, fault.None?, provider, members, cases', fault')
  {
    cases', operations', fault' := cases, operations, fault;
    for i := 0 to |members|
      invariant OperationsHaveCases(operations', cases')
      invariant CasesScanned(cases, fault.None?, provider, members[..i], cases', fault')
    {
      assert members[..i + 1] == members[..i] + [members[i]];
      ghost var seen, found := cases', fault';
      var key := (provider, members[i].0);
      if key in cases' { fault' := Some(RepeatedCase); }
      cases' := cases' + {key};
      if members[i].1.None? {
        fault' := Some(MalformedCase);
      } else {
        operations', fault' := ScanCaseOperations(key, NamesOf(members[i].1.value.operations), operations', fault');
      }
      CasesScannedFurther(cases, fault.None?, provider, members[..i], seen, found, members[i], fault');
    }
    assert members[..|members|] == members;
  }

  lemma FlatSnoc<S, T>(rows: seq<S>, row: S, keys: S -> seq<T>)
    ensures Flat(rows + [row], keys) == Flat(rows, keys) + keys(row)
  {
    assert (rows + [row])[..|rows|] == rows;
  }

  lemma ExtendFlat<S, T(!new)>(rows: seq<S>, row: S, keys: S -> seq<T>)
    ensures NoDuplicates(Flat(rows + [row], keys)) <==>
            NoDuplicates(Flat(rows, keys)) && CanExtend(Range(Flat(rows, keys)), keys(row))
    ensures Range(Flat(rows + [row], keys)) == Range(Flat(rows, keys)) + Range(keys(row))
  {
    FlatSnoc(rows, row, keys);
    var a, b := Flat(rows, keys), keys(row);
    NoDuplicatesOfConcat(a, b);
    if Range(a) !! Range(b) {
      assert forall x | x in a :: x in Range(a) && x !in Range(b);
    } else {
      var x :| x in Range(a) && x in Range(b);
      assert x in a && x in b;
    }
  }

  lemma CleanBySteps(rows: seq<Row>, row: Row)
    ensures CleanRows(rows + [row]) <==>
            CleanRows(rows) && WellFormed(row)
            && CanExtend(Range(Flat(rows, RowIds)), RowIds(row))
            && CanExtend(Range(Flat(rows, RowCaseKeys)), RowCaseKeys(row))
  {
    ExtendFlat(rows, row, RowIds);
    ExtendFlat(rows, row, RowCaseKeys);
    AllWellFormed(rows, row);
  }

  lemma AllWellFormed(rows: seq<Row>, row: Row)
    ensures (forall i | 0 <= i < |rows + [row]| :: WellFormed((rows + [row])[i])) <==>
            (forall i | 0 <= i < |rows| :: WellFormed(rows[i])) && WellFormed(row)
  {
    var all := rows + [row];
    assert all[|rows|] == row;
    assert forall i | 0 <= i < |rows| :: all[i] == rows[i];
  }

  datatype Seen = Seen(
    ids: set<string>, reservations: set<(string, string, string)>,
    cases: set<(string, string)>, operations: set<(string, string, string)>)

  ghost predicate SeenIsSound(seen: Seen) {
    OperationsHaveIds(seen.reservations, seen.ids) && OperationsHaveCases(seen.operations, seen.cases)
  }

  ghost predicate SeenIn(seen: Seen, rows: seq<Row>) {
    seen.ids == Range(Flat(rows, RowIds)) && seen.cases == Range(Flat(rows, RowCaseKeys))
  }

  method ScanRow(row: Row, seen: Seen, fault: Option<Fault>, ghost rows: seq<Row>)
    returns (seen': Seen, fault': Option<Fault>)
    requires SeenIsSound(seen) && (fault.None? ==> SeenIn(seen, rows))
    ensures SeenIsSound(seen') && (fault'.None? ==> SeenIn(seen', rows + [row]))
    ensures fault'.None? <==>
            fault.None? && WellFormed(row)
            && CanExtend(Range(Flat(rows, RowIds)), RowIds(row))
            && CanExtend(Range(Flat(rows, RowCaseKeys)), RowCaseKeys(row))
  {
    ExtendFlat(rows, row, RowIds);
    ExtendFlat(rows, row, RowCaseKeys);
    var ids, reservations, cases, operations := seen.ids, seen.reservations, seen.cases, seen.operations;
    fault' := fault;
    match row.reservations {
      case NoReservations =>
      case NotAList => fault' := Some(MalformedReservations);
      case Listed(entries) =>
        ids, reservations, fault' := ScanReservations(row.provider, entries, ids, reservations, fault');
    }
    cases, operations, fault' := ScanCases(row.provider, row.cases, cases, operations, fault');
    seen' := Seen(ids, reservations, cases, operations);
  }

  // How far the ledger was read.
  ghost predicate Scanned(q: Query, lines: seq<Line>, rows: seq<Row>, seen: Seen, fault: Option<Fault>) {
    && rows == Selected(q, lines)
    && SeenIsSound(seen) && (fault.None? ==> SeenIn(seen, rows))
    && (fault.None? <==> Clean(q, lines))
  }

  lemma CleanWithLine(q: Query, lines: seq<Line>, line: Line)
    ensures Selected(q, lines + [line])
            == if IsSelected(q, line) then Selected(q, lines) + [line.row] else Selected(q, lines)
    ensures Clean(q, lines + [line]) <==>
            (forall k | 0 <= k < |lines| :: !lines[k].Malformed?) && !line.Malformed?
            && CleanRows(Selected(q, lines + [line]))
  {
    var all := lines + [line];
    assert all[..|lines|] == lines && all[|lines|] == line;
    assert forall k | 0 <= k < |lines| :: all[k] == lines[k];
  }

  method ScanLine(q: Query, line: Line, rows: seq<Row>, seen: Seen, fault: Option<Fault>, ghost lines: seq<Line>)
    returns (rows': seq<Row>, seen': Seen, fault': Option<Fault>)
    requires Scanned(q, lines, rows, seen, fault)
    ensures Scanned(q, lines + [line], rows', seen', fault')
  {
    rows', seen', fault' := rows, seen, fault;
    CleanWithLine(q, lines, line);
    match line {
      case Malformed => fault' := Some(MalformedJson);
      case Blank =>
      case NotAnObject =>
      case RowLine(runId, scope, row) =>
        if runId == q.runId && (q.scope == "" || scope == q.scope) {
          CleanBySteps(rows, row);
          seen', fault' := ScanRow(row, seen, fault, rows);
          rows' := rows + [row];
        }
    }
  }

  // Selects the rows of the run; the last fault found is reported.
  method ScanLedger(q: Query, ledger: Ledger) returns (rows: seq<Row>, fault: Option<Fault>)
    ensures rows == if ledger.Missing? then [] else Selected(q, ledger.lines)
    ensures fault.None? <==> ledger.Ledger? && !ledger.broken && Clean(q, ledger.lines)
  {
    rows, fault := [], None;
    if ledger.Missing? { return [], Some(LedgerMissing); }
    var lines, seen := ledger.lines, Seen({}, {}, {}, {});
    for i := 0 to |lines|
      invariant Scanned(q, lines[..i], rows, seen, fault)
    {
      assert lines[..i + 1] == lines[..i] + [lines[i]];
      rows, seen, fault := ScanLine(q, lines[i], rows, seen, fault, lines[..i]);
    }
    assert lines[..|lines|] == lines;
    if ledger.broken { fault := Some(LedgerUnreadable); }
  }
}
