/**
 Reserving a symbol pool live, as backend/app/services/provider_quota_coordinator.py
 does it: every run reserves under a symbol of its own, a symbol that was reserved
 before costs nothing, and a new one costs what the operation's spec says.

 The preflight plans all operations under one symbol (see `SymbolPoolCostsOne`), so
 what it admits and what the reservations take are two different counts.
 */
module QuotaLive {
  import opened Wrappers
  import opened Text
  import opened QuotaPreflight

  // One run of an operation, and its symbol as the coordinator normalises it.
  datatype Run = Run(operation: string, symbol: string)

  // The symbols reserved in the window so far and the units that are left.
  datatype Pool = Pool(symbols: set<string>, left: int)

  predicate ChargesPool(q: Request, op: string, key: PoolKey) {
    exists i | 0 <= i < |SpecsOf(q, op)| :: !SpecsOf(q, op)[i].releaseOnly && SpecsOf(q, op)[i].key == key
  }

  function CostOf(q: Request, run: Run, key: PoolKey): int { UnitsIn(SpecsOf(q, run.operation), key) }

  // One reservation, denied when the units do not suffice.
  function Reserve(q: Request, pool: Pool, run: Run, key: PoolKey): Option<Pool> {
    if !ChargesPool(q, run.operation, key) || run.symbol in pool.symbols then Some(pool)
    else if pool.left < CostOf(q, run, key) then None
    else Some(Pool(pool.symbols + {run.symbol}, pool.left - CostOf(q, run, key)))
  }

  // A series of runs, up to the first denial.
  function ReserveAll(q: Request, pool: Pool, runs: seq<Run>, key: PoolKey): Option<Pool>
    decreases |runs|
  {
    if runs == [] then Some(pool)
    else
      var next := Reserve(q, pool, runs[0], key);
      if next.None? then None else ReserveAll(q, next.value, runs[1..], key)
  }

  // ---- what a series of runs costs ------------------------------------------------------------

  // The run charges the pool under a symbol that was not reserved before.
  predicate IsNew(q: Request, seen: set<string>, run: Run, key: PoolKey) {
    ChargesPool(q, run.operation, key) && run.symbol !in seen
  }

  // The cost of the first run of each new symbol.
  function Cost(q: Request, seen: set<string>, runs: seq<Run>, key: PoolKey): int
    decreases |runs|
  {
    if runs == [] then 0
    else if IsNew(q, seen, runs[0], key) then
      CostOf(q, runs[0], key) + Cost(q, seen + {runs[0].symbol}, runs[1..], key)
    else Cost(q, seen, runs[1..], key)
  }

  // The new symbols of the runs.
  function Symbols(q: Request, seen: set<string>, runs: seq<Run>, key: PoolKey): set<string> {
    set run | run in runs && IsNew(q, seen, run, key) :: run.symbol
  }

  lemma CostsAreNonNegative(q: Request, run: Run, key: PoolKey)
    requires PlannedByRule(q) && run.operation in q.operations
    ensures CostOf(q, run, key) >= 0
    ensures ChargesPool(q, run.operation, key) ==> CostOf(q, run, key) >= 1
    ensures !ChargesPool(q, run.operation, key) ==> CostOf(q, run, key) == 0
  {
    UnitsByRule(SpecsOf(q, run.operation), key);
  }

  lemma {:induction false} UnitsByRule(specs: seq<Spec>, key: PoolKey)
    requires forall i | 0 <= i < |specs| :: specs[i].units >= 1
    ensures UnitsIn(specs, key) >= 0
    ensures UnitsIn(specs, key) >= 1 <==> exists i | 0 <= i < |specs| :: !specs[i].releaseOnly && specs[i].key == key
  {
    if specs != [] { UnitsByRule(specs[..|specs| - 1], key); }
  }

  ghost predicate RunsPlanned(q: Request, runs: seq<Run>) { forall run | run in runs :: run.operation in q.operations }

  lemma SymbolsStep(q: Request, seen: set<string>, runs: seq<Run>, key: PoolKey)
    requires runs != []
    ensures var run, rest := runs[0], runs[1..];
      Symbols(q, seen, runs, key)
      == if IsNew(q, seen, run, key) then {run.symbol} + Symbols(q, seen + {run.symbol}, rest, key)
         else Symbols(q, seen, rest, key)
  {
    assert runs == [runs[0]] + runs[1..];
  }

  // A series of runs is served exactly when the first runs of its new symbols cost no
  // more than is left; then it takes just that from the pool.
  lemma {:induction false} ServedIff(q: Request, pool: Pool, runs: seq<Run>, key: PoolKey)
    requires PlannedByRule(q) && RunsPlanned(q, runs) && pool.left >= 0
    ensures var cost := Cost(q, pool.symbols, runs, key);
      && cost >= 0
      && ReserveAll(q, pool, runs, key)
         == if cost <= pool.left then Some(Pool(pool.symbols + Symbols(q, pool.symbols, runs, key), pool.left - cost))
            else None
    decreases |runs|
  {
    if runs == [] {
      assert pool.symbols + Symbols(q, pool.symbols, runs, key) == pool.symbols;
    } else {
      var run, rest := runs[0], runs[1..];
      CostsAreNonNegative(q, run, key);
      SymbolsStep(q, pool.symbols, runs, key);
      var next := Reserve(q, pool, run, key);
      if next.Some? {
        ServedIff(q, next.value, rest, key);
        assert next.value.symbols + Symbols(q, next.value.symbols, rest, key)
            == pool.symbols + Symbols(q, pool.symbols, runs, key);
      } else {
        CostIsNonNegative(q, pool.symbols + {run.symbol}, rest, key);
      }
    }
  }

  lemma {:induction false} CostIsNonNegative(q: Request, seen: set<string>, runs: seq<Run>, key: PoolKey)
    requires PlannedByRule(q) && RunsPlanned(q, runs)
    ensures Cost(q, seen, runs, key) >= 0
    decreases |runs|
  {
    if runs != [] {
      CostsAreNonNegative(q, runs[0], key);
      CostIsNonNegative(q, if IsNew(q, seen, runs[0], key) then seen + {runs[0].symbol} else seen, runs[1..], key);
    }
  }

  // Where a symbol costs one unit, that is the number of distinct new symbols.
  lemma {:induction false} UnitCostCountsSymbols(q: Request, seen: set<string>, runs: seq<Run>, key: PoolKey)
    requires forall run | run in runs && ChargesPool(q, run.operation, key) :: CostOf(q, run, key) == 1
    ensures Cost(q, seen, runs, key) == |Symbols(q, seen, runs, key)|
    decreases |runs|
  {
    if runs == [] {
      assert Symbols(q, seen, runs, key) == {};
    } else {
      SymbolsStep(q, seen, runs, key);
      UnitCostCountsSymbols(q, if IsNew(q, seen, runs[0], key) then seen + {runs[0].symbol} else seen, runs[1..], key);
    }
  }

  lemma SymbolsServedIff(q: Request, pool: Pool, runs: seq<Run>, key: PoolKey)
    requires PlannedByRule(q) && RunsPlanned(q, runs) && pool.left >= 0
    requires forall run | run in runs && ChargesPool(q, run.operation, key) :: CostOf(q, run, key) == 1
    ensures ReserveAll(q, pool, runs, key).Some? <==> |Symbols(q, pool.symbols, runs, key)| <= pool.left
  {
    ServedIff(q, pool, runs, key);
    UnitCostCountsSymbols(q, pool.symbols, runs, key);
  }

  // ---- every way to run the plan ----------------------------------------------------------------

  function Operations(runs: seq<Run>): (ops: seq<string>)
    ensures |ops| == |runs| && forall i | 0 <= i < |runs| :: ops[i] == runs[i].operation
  {
    seq(|runs|, i requires 0 <= i < |runs| => runs[i].operation)
  }

  // Runs cost at most the units of their operations.
  lemma {:induction false} CostWithinUnits(q: Request, seen: set<string>, runs: seq<Run>, key: PoolKey)
    requires PlannedByRule(q) && RunsPlanned(q, runs)
    ensures Cost(q, seen, runs, key) <= UnitsUsed(q, Operations(runs), key)
    decreases |runs|
  {
    if runs != [] {
      CostsAreNonNegative(q, runs[0], key);
      assert Operations(runs)[1..] == Operations(runs[1..]);
      CostWithinUnits(q, if IsNew(q, seen, runs[0], key) then seen + {runs[0].symbol} else seen, runs[1..], key);
    }
  }

  // The operations with a symbol of its own for each run.
  function Symbol(n: nat): string { seq(n, _ => 'A') }

  function AllDifferent(ops: seq<string>, from: nat): (runs: seq<Run>)
    ensures |runs| == |ops|
    ensures forall i | 0 <= i < |ops| :: runs[i].operation == ops[i]
  {
    if ops == [] then [] else [Run(ops[0], Symbol(from))] + AllDifferent(ops[1..], from + 1)
  }

  // Runs under different symbols cost all the units of their operations.
  lemma {:induction false} DifferentSymbolsCostAll(q: Request, seen: set<string>, ops: seq<string>, from: nat,
                                                   key: PoolKey)
    requires PlannedByRule(q) && (forall op | op in ops :: op in q.operations) && forall s | s in seen :: |s| < from
    ensures Cost(q, seen, AllDifferent(ops, from), key) == UnitsUsed(q, ops, key)
    decreases |ops|
  {
    if ops != [] {
      var run, rest := Run(ops[0], Symbol(from)), AllDifferent(ops[1..], from + 1);
      CostsAreNonNegative(q, run, key);
      assert run.symbol !in seen;
      CostOfFirst(q, seen, run, rest, key);
      DifferentSymbolsCostAll(q, seen + {run.symbol}, ops[1..], from + 1, key);
      if !ChargesPool(q, run.operation, key) { DifferentSymbolsCostAll(q, seen, ops[1..], from + 1, key); }
    }
  }

  lemma CostOfFirst(q: Request, seen: set<string>, run: Run, rest: seq<Run>, key: PoolKey)
    requires run.symbol !in seen
    ensures Cost(q, seen, [run] + rest, key)
            == if ChargesPool(q, run.operation, key) then
                 CostOf(q, run, key) + Cost(q, seen + {run.symbol}, rest, key)
               else Cost(q, seen, rest, key)
  {
    assert ([run] + rest)[0] == run && ([run] + rest)[1..] == rest;
  }

  // Every way to run the plan is served from a fresh window, whatever symbols the runs
  // turn out to have, exactly when the pool has a unit for each planned unit.
  lemma EveryScheduleServedIff(q: Request, left: nat, key: PoolKey)
    requires PlannedByRule(q) && forall op | op in q.operations :: Counts(q, op)
    ensures (forall runs: seq<Run> | WithinPlan(q, Operations(runs)) :: ReserveAll(q, Pool({}, left), runs, key).Some?)
            <==> Sum(PlannedEntries(q), key) <= left
  {
    RuleCountsOneWay(q, key);
    if Sum(PlannedEntries(q), key) <= left {
      forall runs: seq<Run> | WithinPlan(q, Operations(runs))
        ensures ReserveAll(q, Pool({}, left), runs, key).Some?
      {
        ScheduleWithinSum(q, runs, key);
        ServedIff(q, Pool({}, left), runs, key);
      }
    } else {
      var runs := CostliestRuns(q, key);
      ServedIff(q, Pool({}, left), runs, key);
    }
  }

  lemma ScheduleWithinSum(q: Request, runs: seq<Run>, key: PoolKey)
    requires PlannedByRule(q) && (forall op | op in q.operations :: Counts(q, op)) && WithinPlan(q, Operations(runs))
    ensures RunsPlanned(q, runs) && Cost(q, {}, runs, key) <= Sum(PlannedEntries(q), key)
  {
    var ops := Operations(runs);
    forall run | run in runs ensures run.operation in q.operations {
      var i :| 0 <= i < |runs| && runs[i] == run;
      assert ops[i] in ops;
    }
    CostWithinUnits(q, {}, runs, key);
    RuleCountsOneWay(q, key);
    PlannedAreChargeable(q);
    UsedWithinSum(q, Sorted(q.operations), ops, key);
  }

  // The whole plan under symbols that are all different.
  lemma CostliestRuns(q: Request, key: PoolKey) returns (runs: seq<Run>)
    requires PlannedByRule(q) && forall op | op in q.operations :: Counts(q, op)
    ensures WithinPlan(q, Operations(runs)) && RunsPlanned(q, runs)
    ensures Cost(q, {}, runs, key) == Sum(PlannedEntries(q), key)
  {
    var all := Sorted(q.operations);
    forall i | 0 <= i < |all| ensures Counts(q, all[i]) { assert all[i] in all; }
    SortedDistinct(q.operations);
    FullScheduleCounts(q, all);
    FullScheduleUses(q, all, key);
    var ops := FullSchedule(q, all);
    runs := AllDifferent(ops, 0);
    assert Operations(runs) == ops;
    DifferentSymbolsCostAll(q, {}, ops, 0, key);
  }

  // ---- what the preflight admits ------------------------------------------------------------------

  // An admitted symbol pool has one unit for certain, and is safe exactly when it has
  // a unit for each planned unit: in between lie the plans that pass the preflight and
  // can be denied while they run.
  lemma AdmittedIsServedIff(q: Request, c: Contract, key: PoolKey, id: string)
    requires PlannedByRule(q) && OneIdentity(q, id) && SymbolPool(key) && Admitted(q, c)
    requires exists e | e in PlannedEntries(q) :: Charges(e, key)
    requires BaselineOf(q, c, key).Baseline? && BaselineOf(q, c, key).status.VerifiedBaseline?
    ensures var left := BaselineOf(q, c, key).remaining;
      && left >= 1
      && ((forall runs: seq<Run> | WithinPlan(q, Operations(runs)) ::
             ReserveAll(q, Pool({}, left), runs, key).Some?)
          <==> Sum(PlannedEntries(q), key) <= left)
  {
    ChargedIsAdmitted(q, c, key);
    SymbolPoolAdmittedIff(q, c, key, id);
    EveryScheduleServedIff(q, BaselineOf(q, c, key).remaining, key);
  }

  // ---- a plan that is admitted and denied ---------------------------------------------------------

  const SYMBOLS := PoolKey("account", "group", "symbols per month", "", 0, "monthly", "symbols")

  // One operation that runs twice, with one symbol left.
  const TWICE := Request(
    "provider", {"bars"}, _ => Planned([Spec(SYMBOLS, false, "LIVE-PREFLIGHT", 1)]), map["bars" := 2])

  const ONE_LEFT := Contract(
    map[SYMBOLS.dimension := Dimension("", "", false)], (_, _) => Baseline(VerifiedBaseline, 1), false, {})

  lemma TwiceIsPlanned()
    ensures PlannedEntries(TWICE) == [Entry("bars", Spec(SYMBOLS, false, "LIVE-PREFLIGHT", 1), 2)]
    ensures PlannedByRule(TWICE) && OneIdentity(TWICE, "LIVE-PREFLIGHT") && SymbolPool(SYMBOLS)
  {
    assert Sorted({"bars"}) == ["bars"];
    assert Lower("symbols") == "symbols";
    assert Entries(TWICE, ["bars"]) == Entries(TWICE, []) + EntriesOf(TWICE, "bars");
  }

  lemma TwiceIsAdmitted()
    ensures Admitted(TWICE, ONE_LEFT)
  {
    TwiceIsPlanned();
    var e := PlannedEntries(TWICE)[0];
    assert e in PlannedEntries(TWICE) && Charges(e, SYMBOLS);
    SymbolPoolAdmittedIff(TWICE, ONE_LEFT, SYMBOLS, "LIVE-PREFLIGHT");
  }

  // The plan passes the preflight, and its second run is denied.
  lemma AdmittedRunIsDenied()
    ensures Admitted(TWICE, ONE_LEFT) && WithinPlan(TWICE, ["bars", "bars"])
    ensures ReserveAll(TWICE, Pool({}, 1), [Run("bars", "AAPL"), Run("bars", "MSFT")], SYMBOLS).None?
  {
    TwiceIsPlanned();
    TwiceIsAdmitted();
    var runs := [Run("bars", "AAPL"), Run("bars", "MSFT")];
    BarsCostOne();
    assert runs[1..] == [Run("bars", "MSFT")] && runs[1..][1..] == [];
    assert Reserve(TWICE, Pool({}, 1), runs[0], SYMBOLS) == Some(Pool({"AAPL"}, 0));
  }

  lemma BarsCostOne()
    ensures ChargesPool(TWICE, "bars", SYMBOLS) && UnitsIn(SpecsOf(TWICE, "bars"), SYMBOLS) == 1
  {
    var specs := SpecsOf(TWICE, "bars");
    assert specs == [Spec(SYMBOLS, false, "LIVE-PREFLIGHT", 1)] && specs[..0] == [];
    assert !specs[0].releaseOnly && specs[0].key == SYMBOLS;
  }
}
