/**
 Planned operation counts of live cases, scripts/run-live-provider-probes.py, for
 one provider, and what they mean for quota admission.

 The manifest tables are inputs: which operations a case sends, and how often.
 */
module CaseOperations {
  import opened Wrappers
  import opened QuotaPreflight

  // The operations of a case, and the reviewed count of each (once by default).
  datatype Tables = Tables(operations: string -> set<string>, counts: (string, string) -> int)

  function CountIn(t: Tables, name: string, op: string): int {
    if op in t.operations(name) then t.counts(name, op) else 0
  }

  // How often a selection of cases runs an operation.
  ghost function Selected(t: Tables, cases: set<string>, op: string): int
    decreases |cases|
  {
    if cases == {} then 0
    else var name :| name in cases; CountIn(t, name, op) + Selected(t, cases - {name}, op)
  }

  // The same count over the manifest list, as the full matrix is tabulated.
  function FullMatrix(t: Tables, names: seq<string>, op: string): int {
    if names == [] then 0
    else FullMatrix(t, names[..|names| - 1], op) + CountIn(t, names[|names| - 1], op)
  }

  lemma {:induction false} SelectedSplit(t: Tables, cases: set<string>, name: string, op: string)
    requires name in cases
    ensures Selected(t, cases, op) == CountIn(t, name, op) + Selected(t, cases - {name}, op)
    decreases |cases|
  {
    var first :| first in cases && Selected(t, cases, op) == CountIn(t, first, op) + Selected(t, cases - {first}, op);
    if first != name {
      SelectedSplit(t, cases - {first}, name, op);
      SelectedSplit(t, cases - {name}, first, op);
      assert cases - {first} - {name} == cases - {name} - {first};
    }
  }

  // Planned counts add up over disjoint selections.
  lemma {:induction false} SelectionsAdd(t: Tables, a: set<string>, b: set<string>, op: string)
    requires a !! b
    ensures Selected(t, a + b, op) == Selected(t, a, op) + Selected(t, b, op)
    decreases |a|
  {
    if a == {} {
      assert a + b == b;
    } else {
      var name :| name in a;
      SelectedSplit(t, a, name, op);
      SelectedSplit(t, a + b, name, op);
      assert a + b - {name} == (a - {name}) + b;
      SelectionsAdd(t, a - {name}, b, op);
    }
  }

  // One case counts what its table says, and nothing of an operation it does not send.
  lemma OneCaseCounts(t: Tables, name: string, op: string)
    ensures Selected(t, {name}, op) == if op in t.operations(name) then t.counts(name, op) else 0
    ensures Selected(t, {}, op) == 0
  {
    SelectedSplit(t, {name}, name, op);
    assert {name} - {name} == {};
  }

  // Every count of a listed operation is a positive integer.
  ghost predicate ValidCounts(t: Tables, cases: set<string>) {
    forall name, op | name in cases && op in t.operations(name) :: t.counts(name, op) >= 1
  }

  ghost function OperationsOf(t: Tables, cases: set<string>): set<string> {
    set name, op | name in cases && op in t.operations(name) :: op
  }

  lemma {:induction false} SelectedIsPositive(t: Tables, cases: set<string>, op: string)
    requires ValidCounts(t, cases)
    ensures Selected(t, cases, op) >= 0
    ensures Selected(t, cases, op) >= 1 <==> op in OperationsOf(t, cases)
    decreases |cases|
  {
    if cases != {} {
      var name :| name in cases;
      SelectedSplit(t, cases, name, op);
      SelectedIsPositive(t, cases - {name}, op);
      assert op in t.operations(name) ==> t.counts(name, op) >= 1;
      assert OperationsOf(t, cases) == t.operations(name) + OperationsOf(t, cases - {name});
    }
  }

  function Names(names: seq<string>): set<string> { set name | name in names }

  // A case that the list holds twice, and that sends something.
  ghost predicate RepeatedSender(t: Tables, names: seq<string>, name: string) {
    t.operations(name) != {} && exists i, j | 0 <= i < j < |names| :: names[i] == name == names[j]
  }

  lemma RepeatedInFront(t: Tables, names: seq<string>, name: string)
    requires names != []
    ensures var front, last := names[..|names| - 1], names[|names| - 1];
      RepeatedSender(t, names, name)
      <==> RepeatedSender(t, front, name) || (t.operations(name) != {} && name == last && name in front)
  {
    var front, last := names[..|names| - 1], names[|names| - 1];
    if RepeatedSender(t, names, name) {
      var i, j :| 0 <= i < j < |names| && names[i] == name == names[j];
      assert front[i] == name;
      assert j < |front| ==> front[j] == name;
    }
    if RepeatedSender(t, front, name) {
      var i, j :| 0 <= i < j < |front| && front[i] == name == front[j];
      assert names[i] == name == names[j];
    }
    if name == last && name in front {
      var i :| 0 <= i < |front| && front[i] == name;
      assert names[i] == name == names[|names| - 1];
    }
  }

  // The table never counts less than the selection, and counts an operation more
  // often exactly when a case that sends it is listed twice.
  lemma {:induction false} MatrixAgainstSelection(t: Tables, names: seq<string>, op: string)
    requires ValidCounts(t, Names(names))
    ensures FullMatrix(t, names, op) >= Selected(t, Names(names), op)
    ensures FullMatrix(t, names, op) > Selected(t, Names(names), op)
            <==> exists name | name in names && op in t.operations(name) :: RepeatedSender(t, names, name)
    decreases |names|
  {
    if names == [] {
      assert Names(names) == {};
    } else {
      var front, last := names[..|names| - 1], names[|names| - 1];
      assert Names(names) == Names(front) + {last};
      MatrixAgainstSelection(t, front, op);
      forall name ensures RepeatedSender(t, names, name)
          <==> RepeatedSender(t, front, name) || (t.operations(name) != {} && name == last && name in front)
      {
        RepeatedInFront(t, names, name);
      }
      assert op in t.operations(last) ==> t.counts(last, op) >= 1;
      if last in front {
        assert Names(names) == Names(front);
        if op in t.operations(last) { assert RepeatedSender(t, names, last); }
      } else {
        SelectedSplit(t, Names(names), last, op);
        assert Names(names) - {last} == Names(front);
        assert !RepeatedSender(t, front, last) by {
          assert forall i | 0 <= i < |front| :: front[i] in front;
        }
      }
    }
  }

  // The full-matrix table equals the count of selecting every case exactly when
  // no case that sends anything is listed twice.
  lemma FullMatrixIsSelectingAllIff(t: Tables, names: seq<string>)
    requires ValidCounts(t, Names(names))
    ensures (forall op :: FullMatrix(t, names, op) == Selected(t, Names(names), op))
            <==> (forall name | name in names :: !RepeatedSender(t, names, name))
  {
    if forall name | name in names :: !RepeatedSender(t, names, name) {
      forall op ensures FullMatrix(t, names, op) == Selected(t, Names(names), op) {
        MatrixAgainstSelection(t, names, op);
      }
    } else {
      var name :| name in names && RepeatedSender(t, names, name);
      var op :| op in t.operations(name);
      MatrixAgainstSelection(t, names, op);
      assert FullMatrix(t, names, op) != Selected(t, Names(names), op);
    }
  }

  // ---- the code --------------------------------------------------------------------

  function CountOf(totals: map<string, int>, op: string): int { if op in totals then totals[op] else 0 }

  // selected_case_operation_multipliers: the counts are accumulated case by case,
  // operation by operation; an invalid count stops the tabulation.
  method SelectedMultipliers(t: Tables, cases: set<string>) returns (totals: Option<map<string, int>>)
    ensures totals.Some? <==> ValidCounts(t, cases)
    ensures totals.Some? ==> totals.value.Keys == OperationsOf(t, cases)
    ensures totals.Some? ==> forall op :: CountOf(totals.value, op) == Selected(t, cases, op)
  {
    var counted: map<string, int> := map[];
    var pending := cases;
    ghost var taken: set<string> := {};
    while pending != {}
      invariant pending + taken == cases && pending !! taken
      invariant ValidCounts(t, taken) && counted.Keys == OperationsOf(t, taken)
      invariant forall op :: CountOf(counted, op) == Selected(t, taken, op)
      decreases pending
    {
      var name :| name in pending;
      var valid;
      valid, counted := CountCase(t, name, counted, taken);
      if !valid {
        return None;
      }
      pending := pending - {name};
      taken := taken + {name};
    }
    assert taken == cases;
    totals := Some(counted);
  }

  method CountCase(t: Tables, name: string, before: map<string, int>, ghost taken: set<string>)
    returns (valid: bool, counted: map<string, int>)
    requires name !in taken && ValidCounts(t, taken) && before.Keys == OperationsOf(t, taken)
    requires forall op :: CountOf(before, op) == Selected(t, taken, op)
    ensures valid <==> forall op | op in t.operations(name) :: t.counts(name, op) >= 1
    ensures valid ==> counted.Keys == OperationsOf(t, taken + {name})
    ensures valid ==> forall op :: CountOf(counted, op) == Selected(t, taken + {name}, op)
  {
    counted := before;
    var operations := t.operations(name);
    var pending := operations;
    while pending != {}
      invariant pending <= operations
      invariant forall op | op in operations - pending :: t.counts(name, op) >= 1
      invariant counted.Keys == before.Keys + (operations - pending)
      invariant forall op ::
                  var added := if op in operations - pending then t.counts(name, op) else 0;
                  CountOf(counted, op) == CountOf(before, op) + added
      decreases pending
    {
      var op :| op in pending;
      pending := pending - {op};
      var count := t.counts(name, op);
      if count < 1 {
        return false, before;
      }
      counted := counted[op := CountOf(counted, op) + count];
    }
    valid := true;
    forall op ensures CountOf(counted, op) == Selected(t, taken + {name}, op) {
      SelectedSplit(t, taken + {name}, name, op);
      assert taken + {name} - {name} == taken;
    }
  }

  // _full_matrix_operation_multipliers: the manifest list is tabulated case by case.
  method TabulateFullMatrix(t: Tables, names: seq<string>) returns (totals: map<string, int>)
    ensures forall op :: CountOf(totals, op) == FullMatrix(t, names, op)
  {
    totals := map[];
    for i := 0 to |names|
      invariant forall op :: CountOf(totals, op) == FullMatrix(t, names[..i], op)
    {
      assert names[..i + 1][..i] == names[..i];
      totals := TabulateCase(t, names[i], totals);
    }
    assert names[..|names|] == names;
  }

  method TabulateCase(t: Tables, name: string, before: map<string, int>) returns (totals: map<string, int>)
    ensures forall op :: CountOf(totals, op) == CountOf(before, op) + CountIn(t, name, op)
  {
    totals := before;
    var operations := t.operations(name);
    var pending := operations;
    while pending != {}
      invariant pending <= operations
      invariant forall op ::
          CountOf(totals, op) == CountOf(before, op) + (if op in pending then 0 else CountIn(t, name, op))
      decreases pending
    {
      var op :| op in pending;
      pending := pending - {op};
      totals := totals[op := CountOf(totals, op) + t.counts(name, op)];
    }
  }

  // ---- admission of selections ----------------------------------------------------------

  // The preflight request of a selection: its operations, planned as often as its
  // cases run them.
  ghost function RequestFor(t: Tables, provider: string, plan: string -> Plan, cases: set<string>): Request
    requires ValidCounts(t, cases)
  {
    var ops := OperationsOf(t, cases);
    Request(provider, ops, plan, map op | op in ops :: Selected(t, cases, op))
  }

  // Any sub-selection of an admitted selection is admitted.
  lemma SelectionAdmissionIsDownwardClosed(t: Tables, provider: string, plan: string -> Plan, c: Contract,
                                           fewer: set<string>, more: set<string>)
    requires fewer <= more && ValidCounts(t, more) && ValidCounts(t, fewer)
    requires Admitted(RequestFor(t, provider, plan, more), c) && PlannedByRule(RequestFor(t, provider, plan, more))
    ensures Admitted(RequestFor(t, provider, plan, fewer), c)
  {
    var small, large := RequestFor(t, provider, plan, fewer), RequestFor(t, provider, plan, more);
    forall op | op in small.operations ensures 1 <= Multiplier(small, op) <= Multiplier(large, op) {
      SelectedIsPositive(t, fewer, op);
      SelectedIsPositive(t, more - fewer, op);
      SelectionsAdd(t, fewer, more - fewer, op);
      assert fewer + (more - fewer) == more;
    }
    AdmissionIsDownwardClosed(small, large, c);
  }
}
