/**
 The live-matrix quota preflight of scripts/run-live-provider-probes.py, for one
 provider.

 The reservation planner, the reviewed quota contract and the account baselines
 are inputs: the planner answers with the metered specs of one operation or with
 an error, and a baseline answers for one quota group and dimension.  The loops are
 proved for any specs; admission means what it should for specs that follow the
 planner's rule.
 */
module QuotaPreflight {
  import opened Wrappers
  import opened Text

  datatype PoolKey = PoolKey(
    account: string, group: string, dimension: string, windowStart: string, windowSeconds: int,
    reset: string, unit: string)

  datatype Spec = Spec(key: PoolKey, releaseOnly: bool, identity: string, units: int)

  datatype Plan = Unplannable | Planned(specs: seq<Spec>)

  datatype Dimension = Dimension(baselineMode: string, scope: string, applicationUsageOnly: bool)

  datatype Status = VerifiedBaseline | Initializable(exclusiveReset: bool) | UnknownBaseline | OtherStatus

  datatype Baseline = BaselineError | Baseline(status: Status, remaining: int)

  datatype Contract = Contract(
    dimensions: map<string, Dimension>,
    baseline: (string, string) -> Baseline,
    bootstrap: bool, reconciled: set<string>)

  // What the provider is asked for: its name, the operations, their planned specs
  // and how often each runs (once unless told otherwise).
  datatype Request = Request(
    provider: string, operations: set<string>, plan: string -> Plan, multipliers: map<string, int>)

  function Multiplier(q: Request, op: string): int {
    if op in q.multipliers then q.multipliers[op] else 1
  }

  // An operation that contributes to the plan.
  predicate Counts(q: Request, op: string) { q.plan(op).Planned? && Multiplier(q, op) >= 1 }

  const SYMBOL_UNITS := {"symbol", "symbols", "unique_symbol", "unique_symbols"}

  // Symbol units are recognised in any case.
  predicate SymbolPool(key: PoolKey) { Lower(key.unit) in SYMBOL_UNITS }

  // ---- planned totals --------------------------------------------------------------

  datatype Entry = Entry(operation: string, spec: Spec, multiplier: int)

  predicate Charges(e: Entry, key: PoolKey) { !e.spec.releaseOnly && e.spec.key == key }

  function EntriesOf(q: Request, op: string): (entries: seq<Entry>)
    ensures forall e | e in entries :: e.operation == op && e.multiplier == Multiplier(q, op)
  {
    if !Counts(q, op) then []
    else
      var specs := q.plan(op).specs;
      seq(|specs|, i requires 0 <= i < |specs| => Entry(op, specs[i], Multiplier(q, op)))
  }

  function Entries(q: Request, ops: seq<string>): seq<Entry> {
    if ops == [] then [] else Entries(q, ops[..|ops| - 1]) + EntriesOf(q, ops[|ops| - 1])
  }

  function Identities(entries: seq<Entry>, key: PoolKey): set<string> {
    set e | e in entries && Charges(e, key) && e.spec.identity != "" :: e.spec.identity
  }

  // The running total of a pool as the planning loop leaves it: in a symbol pool
  // an identified spec sets it to the number of identities so far, any other spec
  // adds its units once per run.
  function PlannedTotal(entries: seq<Entry>, key: PoolKey): int {
    if entries == [] then 0
    else
      var e := entries[|entries| - 1];
      var before := PlannedTotal(entries[..|entries| - 1], key);
      if !Charges(e, key) then before
      else if SymbolPool(key) && e.spec.identity != "" then |Identities(entries, key)|
      else before + e.spec.units * e.multiplier
  }

  function PlannedEntries(q: Request): seq<Entry> { Entries(q, Sorted(q.operations)) }

  // ---- admission --------------------------------------------------------------------

  function BaselineOf(q: Request, c: Contract, key: PoolKey): Baseline {
    c.baseline(if key.group != "" then key.group else q.provider, key.dimension)
  }

  // A pool without a verified baseline may still be waived.
  predicate Waived(c: Contract, key: PoolKey, status: Status)
    requires key.dimension in c.dimensions
  {
    var d := c.dimensions[key.dimension];
    || (status.Initializable?
        && ((d.baselineMode == "local_zero" && (d.scope == "deployment" || d.applicationUsageOnly))
            || status.exclusiveReset))
    || (status.UnknownBaseline? && c.bootstrap && key.dimension in c.reconciled)
  }

  predicate PoolAdmitted(q: Request, c: Contract, key: PoolKey, total: int) {
    && key.dimension in c.dimensions
    && var baseline := BaselineOf(q, c, key);
       && baseline.Baseline?
       && (if baseline.status.VerifiedBaseline? then baseline.remaining >= total
           else Waived(c, key, baseline.status))
  }

  // No blocker: every operation can be planned a positive number of times and
  // every pool charged by the plan is admitted for its planned total.
  ghost predicate Admitted(q: Request, c: Contract) {
    && (forall op | op in q.operations :: Counts(q, op))
    && forall e | e in PlannedEntries(q) :: EntryAdmitted(q, c, PlannedEntries(q), e)
  }

  ghost predicate EntryAdmitted(q: Request, c: Contract, entries: seq<Entry>, e: Entry) {
    e.spec.releaseOnly || PoolAdmitted(q, c, e.spec.key, PlannedTotal(entries, e.spec.key))
  }

  // ---- the code -----------------------------------------------------------------------

  datatype Blocker =
    | PlanFailed(operation: string)
    | InvalidMultiplier(operation: string)
    | MissingDimension(operation: string, dimension: string)
    | BaselineUnavailable(operation: string, dimension: string)
    | BaselineNotVerified(operation: string, dimension: string)
    | Shortfall(operation: string, key: PoolKey, required: int)

  lemma PlannedTotalStep(entries: seq<Entry>, e: Entry, key: PoolKey)
    ensures Identities(entries + [e], key)
            == Identities(entries, key) + (if Charges(e, key) && e.spec.identity != "" then {e.spec.identity} else {})
    ensures PlannedTotal(entries + [e], key)
            == if !Charges(e, key) then PlannedTotal(entries, key)
               else if SymbolPool(key) && e.spec.identity != "" then |Identities(entries + [e], key)|
               else PlannedTotal(entries, key) + e.spec.units * e.multiplier
  {
    assert (entries + [e])[..|entries|] == entries;
  }

  // Identities are tracked in symbol pools only.
  ghost predicate Tracks(entries: seq<Entry>, totals: map<PoolKey, int>, identities: map<PoolKey, set<string>>) {
    forall key ::
      && TotalIn(totals, key) == PlannedTotal(entries, key)
      && (SymbolPool(key) ==> KnownIn(identities, key) == Identities(entries, key))
  }

  function TotalIn(totals: map<PoolKey, int>, key: PoolKey): int { if key in totals then totals[key] else 0 }

  function KnownIn(identities: map<PoolKey, set<string>>, key: PoolKey): set<string> {
    if key in identities then identities[key] else {}
  }

  // The totals and identity sets are grown in place, one spec at a time.
  method Charge(ghost entries: seq<Entry>, totals: map<PoolKey, int>, identities: map<PoolKey, set<string>>, e: Entry)
    returns (totals': map<PoolKey, int>, identities': map<PoolKey, set<string>>)
    requires Tracks(entries, totals, identities)
    ensures Tracks(entries + [e], totals', identities')
  {
    totals', identities' := totals, identities;
    var key := e.spec.key;
    if e.spec.releaseOnly {
    } else if SymbolPool(key) && e.spec.identity != "" {
      var known := KnownIn(identities, key) + {e.spec.identity};
      identities' := identities[key := known];
      totals' := totals[key := |known|];
    } else {
      totals' := totals[key := TotalIn(totals, key) + e.spec.units * e.multiplier];
    }
    forall k
      ensures TotalIn(totals', k) == PlannedTotal(entries + [e], k)
      ensures SymbolPool(k) ==> KnownIn(identities', k) == Identities(entries + [e], k)
    {
      PlannedTotalStep(entries, e, k);
      assert TotalIn(totals, k) == PlannedTotal(entries, k);
      assert SymbolPool(k) ==> KnownIn(identities, k) == Identities(entries, k);
    }
  }

  method ChargeOperation(q: Request, op: string, ghost before: seq<Entry>,
                         totals: map<PoolKey, int>, identities: map<PoolKey, set<string>>)
    returns (added: seq<Entry>, totals': map<PoolKey, int>, identities': map<PoolKey, set<string>>)
    requires Counts(q, op) && Tracks(before, totals, identities)
    ensures added == EntriesOf(q, op) && Tracks(before + added, totals', identities')
  {
    var specs := q.plan(op).specs;
    added, totals', identities' := [], totals, identities;
    assert before + [] == before;
    for i := 0 to |specs|
      invariant added == EntriesOf(q, op)[..i]
      invariant Tracks(before + added, totals', identities')
    {
      var e := Entry(op, specs[i], Multiplier(q, op));
      totals', identities' := Charge(before + added, totals', identities', e);
      assert before + added + [e] == before + (added + [e]);
      added := added + [e];
    }
  }

  lemma EntriesStep(q: Request, ops: seq<string>, k: nat)
    requires k < |ops|
    ensures Entries(q, ops[..k + 1]) == Entries(q, ops[..k]) + EntriesOf(q, ops[k])
  {
    assert ops[..k + 1][..k] == ops[..k] && ops[..k + 1][k] == ops[k];
  }

  ghost predicate PlanBlocked(q: Request, ops: seq<string>, k: nat, b: Blocker)
    requires k <= |ops|
  {
    exists i | 0 <= i < k :: PlanBlocker(q, ops[i]) == Some(b)
  }

  // The report on the first k operations.
  ghost predicate PlanReported(q: Request, ops: seq<string>, k: nat, blockers: seq<Blocker>) {
    k <= |ops| && forall b :: b in blockers <==> PlanBlocked(q, ops, k, b)
  }

  lemma PlanReportStep(q: Request, ops: seq<string>, k: nat, blockers: seq<Blocker>)
    requires k < |ops| && PlanReported(q, ops, k, blockers)
    ensures var due := PlanBlocker(q, ops[k]);
      PlanReported(q, ops, k + 1, if due.None? then blockers else blockers + [due.value])
  {
    forall b ensures PlanBlocked(q, ops, k + 1, b) <==>
                     PlanBlocked(q, ops, k, b) || PlanBlocker(q, ops[k]) == Some(b) {
    }
  }

  lemma PlanReportMeans(q: Request, ops: seq<string>, blockers: seq<Blocker>)
    requires PlanReported(q, ops, |ops|, blockers)
    ensures blockers == [] <==> forall i | 0 <= i < |ops| :: Counts(q, ops[i])
  {
    if blockers == [] {
      forall i | 0 <= i < |ops| ensures Counts(q, ops[i]) {
        if !Counts(q, ops[i]) { assert PlanBlocked(q, ops, |ops|, PlanBlocker(q, ops[i]).value); }
      }
    } else {
      assert PlanBlocked(q, ops, |ops|, blockers[0]);
    }
  }

  method PlanList(q: Request, ops: seq<string>)
    returns (entries: seq<Entry>, totals: map<PoolKey, int>, blockers: seq<Blocker>)
    ensures entries == Entries(q, ops)
    ensures forall key :: TotalIn(totals, key) == PlannedTotal(entries, key)
    ensures blockers == [] <==> forall i | 0 <= i < |ops| :: Counts(q, ops[i])
    ensures forall b :: b in blockers <==> PlanBlocked(q, ops, |ops|, b)
  {
    entries, totals, blockers := [], map[], [];
    var identities: map<PoolKey, set<string>> := map[];
    for k := 0 to |ops|
      invariant entries == Entries(q, ops[..k])
      invariant Tracks(entries, totals, identities)
      invariant PlanReported(q, ops, k, blockers)
    {
      var op := ops[k];
      EntriesStep(q, ops, k);
      if q.plan(op).Unplannable? {
        PlanReportStep(q, ops, k, blockers);
        blockers := blockers + [PlanFailed(op)];
      } else if Multiplier(q, op) < 1 {
        PlanReportStep(q, ops, k, blockers);
        blockers := blockers + [InvalidMultiplier(op)];
      } else {
        var added;
        added, totals, identities := ChargeOperation(q, op, entries, totals, identities);
        entries := entries + added;
        PlanReportStep(q, ops, k, blockers);
      }
    }
    assert ops[..|ops|] == ops;
    PlanReportMeans(q, ops, blockers);
  }

  method PlanOperations(q: Request) returns (entries: seq<Entry>, totals: map<PoolKey, int>, blockers: seq<Blocker>)
    ensures entries == PlannedEntries(q)
    ensures forall key :: TotalIn(totals, key) == PlannedTotal(entries, key)
    ensures blockers == [] <==> forall op | op in q.operations :: Counts(q, op)
    ensures forall b :: b in blockers <==> exists op | op in q.operations :: PlanBlocker(q, op) == Some(b)
    ensures forall b | b in blockers :: !b.Shortfall?
  {
    entries, totals, blockers := PlanList(q, Sorted(q.operations));
    assert forall op | op in q.operations :: op in Sorted(q.operations);
    assert forall i | 0 <= i < |Sorted(q.operations)| :: Sorted(q.operations)[i] in q.operations;
    forall b ensures PlanBlocked(q, Sorted(q.operations), |q.operations|, b)
                     <==> exists op | op in q.operations :: PlanBlocker(q, op) == Some(b) {
      if exists op | op in q.operations :: PlanBlocker(q, op) == Some(b) {
        var op :| op in q.operations && PlanBlocker(q, op) == Some(b);
        var i :| 0 <= i < |Sorted(q.operations)| && Sorted(q.operations)[i] == op;
      }
    }
  }

  // What one operation that cannot count adds to the report.
  function PlanBlocker(q: Request, op: string): Option<Blocker> {
    if q.plan(op).Unplannable? then Some(PlanFailed(op))
    else if Multiplier(q, op) < 1 then Some(InvalidMultiplier(op))
    else None
  }

  // What one charged entry adds to the report, if anything.
  function PoolBlocker(q: Request, c: Contract, op: string, key: PoolKey, total: int): (blocker: Option<Blocker>)
    ensures blocker.None? <==> PoolAdmitted(q, c, key, total)
    ensures blocker.Some? && blocker.value.Shortfall? ==>
              blocker.value == Shortfall(op, key, total) && BaselineOf(q, c, key).Baseline?
              && BaselineOf(q, c, key).remaining < total
  {
    if key.dimension !in c.dimensions then Some(MissingDimension(op, key.dimension))
    else
      var baseline := BaselineOf(q, c, key);
      if baseline.BaselineError? then Some(BaselineUnavailable(op, key.dimension))
      else if !baseline.status.VerifiedBaseline? then
        if Waived(c, key, baseline.status) then None else Some(BaselineNotVerified(op, key.dimension))
      else if baseline.remaining < total then Some(Shortfall(op, key, total))
      else None
  }

  ghost predicate ShortfallsOnce(blockers: seq<Blocker>) {
    forall i, j | 0 <= i < j < |blockers| && blockers[i].Shortfall? && blockers[j].Shortfall? ::
      blockers[i].key != blockers[j].key
  }

  // A reported shortfall is real: it names the planned total, which does not fit.
  ghost predicate TrueShortfall(q: Request, c: Contract, entries: seq<Entry>, b: Blocker) {
    b.Shortfall? ==>
      && b.required == PlannedTotal(entries, b.key)
      && BaselineOf(q, c, b.key).Baseline? && BaselineOf(q, c, b.key).remaining < b.required
  }

  // What is due for one entry, by the planned total of its pool.
  ghost function DueFor(q: Request, c: Contract, entries: seq<Entry>, e: Entry): Option<Blocker> {
    if e.spec.releaseOnly then None
    else PoolBlocker(q, c, e.operation, e.spec.key, PlannedTotal(entries, e.spec.key))
  }

  // The blocker is due for one of the first k entries; a shortfall is reported for the
  // first entry that charges its pool.
  ghost predicate DueAmong(q: Request, c: Contract, entries: seq<Entry>, k: nat, b: Blocker)
    requires k <= |entries|
  {
    exists i | 0 <= i < k ::
      && DueFor(q, c, entries, entries[i]) == Some(b)
      && (b.Shortfall? ==> forall j | 0 <= j < i :: !Charges(entries[j], b.key))
  }

  ghost predicate ShortAmong(q: Request, c: Contract, entries: seq<Entry>, k: nat, key: PoolKey)
    requires k <= |entries|
  {
    exists i | 0 <= i < k ::
      Charges(entries[i], key) && DueFor(q, c, entries, entries[i]).Some?
      && DueFor(q, c, entries, entries[i]).value.Shortfall?
  }

  // Whether a pool falls short depends on the pool only.
  lemma ShortIsOfPool(q: Request, c: Contract, entries: seq<Entry>, k: nat, i: nat, key: PoolKey)
    requires k <= |entries| && i < |entries| && Charges(entries[i], key)
    requires DueFor(q, c, entries, entries[i]).Some? && DueFor(q, c, entries, entries[i]).value.Shortfall?
    ensures ShortAmong(q, c, entries, k, key) <==> exists j | 0 <= j < k :: Charges(entries[j], key)
  {
    forall j | 0 <= j < k && Charges(entries[j], key) ensures ShortAmong(q, c, entries, k, key) {
      assert DueFor(q, c, entries, entries[j]).Some? && DueFor(q, c, entries, entries[j]).value.Shortfall?;
    }
  }

  lemma DueStep(q: Request, c: Contract, entries: seq<Entry>, k: nat, b: Blocker)
    requires k < |entries|
    ensures var due := DueFor(q, c, entries, entries[k]);
      DueAmong(q, c, entries, k + 1, b) <==>
      DueAmong(q, c, entries, k, b)
      || (due == Some(b) && (b.Shortfall? ==> !ShortAmong(q, c, entries, k, b.key)))
  {
    var due := DueFor(q, c, entries, entries[k]);
    if due == Some(b) && b.Shortfall? { ShortIsOfPool(q, c, entries, k, k, b.key); }
  }

  lemma ShortStep(q: Request, c: Contract, entries: seq<Entry>, k: nat, key: PoolKey)
    requires k < |entries|
    ensures var due := DueFor(q, c, entries, entries[k]);
      ShortAmong(q, c, entries, k + 1, key) <==>
      ShortAmong(q, c, entries, k, key) || (due.Some? && due.value.Shortfall? && key == entries[k].spec.key)
  {
    var e := entries[k];
    if !e.spec.releaseOnly && key == e.spec.key { assert Charges(e, key); }
  }

  // The report after the first k entries, and the pools in it that fall short.
  ghost predicate Reported(q: Request, c: Contract, entries: seq<Entry>, k: nat, blockers: seq<Blocker>,
                           short: set<PoolKey>)
  {
    && k <= |entries| && ShortfallsOnce(blockers)
    && (forall b :: b in blockers <==> DueAmong(q, c, entries, k, b))
    && (forall key :: key in short <==> ShortAmong(q, c, entries, k, key))
  }

  lemma OneMoreOnce(blockers: seq<Blocker>, b: Blocker)
    requires ShortfallsOnce(blockers)
    requires b.Shortfall? ==> forall x | x in blockers && x.Shortfall? :: x.key != b.key
    ensures ShortfallsOnce(blockers + [b])
  {
    var all := blockers + [b];
    assert all[|blockers|] == b && forall i | 0 <= i < |blockers| :: all[i] == blockers[i] && blockers[i] in blockers;
  }

  lemma DueShortIsShort(q: Request, c: Contract, entries: seq<Entry>, k: nat, b: Blocker)
    requires k <= |entries| && DueAmong(q, c, entries, k, b) && b.Shortfall?
    ensures ShortAmong(q, c, entries, k, b.key)
  {
    var i :| 0 <= i < k && DueFor(q, c, entries, entries[i]) == Some(b);
    assert Charges(entries[i], b.key);
  }

  lemma SilentStep(q: Request, c: Contract, entries: seq<Entry>, k: nat, blockers: seq<Blocker>, short: set<PoolKey>)
    requires Reported(q, c, entries, k, blockers, short) && k < |entries|
    requires var due := DueFor(q, c, entries, entries[k]);
      due.None? || (due.value.Shortfall? && entries[k].spec.key in short)
    ensures Reported(q, c, entries, k + 1, blockers, short)
  {
    forall b ensures b in blockers <==> DueAmong(q, c, entries, k + 1, b) { DueStep(q, c, entries, k, b); }
    forall key ensures key in short <==> ShortAmong(q, c, entries, k + 1, key) { ShortStep(q, c, entries, k, key); }
  }

  lemma ReportStep(q: Request, c: Contract, entries: seq<Entry>, k: nat, blockers: seq<Blocker>, short: set<PoolKey>)
    requires Reported(q, c, entries, k, blockers, short) && k < |entries|
    requires var due := DueFor(q, c, entries, entries[k]);
      due.Some? && (due.value.Shortfall? ==> entries[k].spec.key !in short)
    ensures var due := DueFor(q, c, entries, entries[k]).value;
      Reported(q, c, entries, k + 1, blockers + [due],
               if due.Shortfall? then short + {entries[k].spec.key} else short)
  {
    var due := DueFor(q, c, entries, entries[k]).value;
    forall b ensures b in blockers + [due] <==> DueAmong(q, c, entries, k + 1, b) { DueStep(q, c, entries, k, b); }
    var grown := if due.Shortfall? then short + {entries[k].spec.key} else short;
    forall key ensures key in grown <==> ShortAmong(q, c, entries, k + 1, key) {
      ShortStep(q, c, entries, k, key);
    }
    forall x | x in blockers && x.Shortfall? ensures due.Shortfall? ==> x.key != due.key {
      DueShortIsShort(q, c, entries, k, x);
    }
    OneMoreOnce(blockers, due);
  }

  // What a complete report says.
  lemma ReportMeans(q: Request, c: Contract, entries: seq<Entry>, blockers: seq<Blocker>, short: set<PoolKey>)
    requires Reported(q, c, entries, |entries|, blockers, short)
    ensures blockers == [] <==> forall e | e in entries :: EntryAdmitted(q, c, entries, e)
    ensures forall b | b in blockers :: TrueShortfall(q, c, entries, b)
  {
    if blockers == [] {
      forall e | e in entries ensures EntryAdmitted(q, c, entries, e) {
        var i :| 0 <= i < |entries| && entries[i] == e;
        if DueFor(q, c, entries, e).Some? { SomethingIsDue(q, c, entries, i); }
      }
    } else {
      var b := blockers[0];
      assert DueAmong(q, c, entries, |entries|, b);
      var i :| 0 <= i < |entries| && DueFor(q, c, entries, entries[i]) == Some(b);
      assert !EntryAdmitted(q, c, entries, entries[i]);
    }
    forall b | b in blockers ensures TrueShortfall(q, c, entries, b) {
      var i :| 0 <= i < |entries| && DueFor(q, c, entries, entries[i]) == Some(b);
    }
  }

  // If anything is due for an entry, something is due among all.
  lemma {:induction false} SomethingIsDue(q: Request, c: Contract, entries: seq<Entry>, i: nat)
    requires i < |entries| && DueFor(q, c, entries, entries[i]).Some?
    ensures exists b :: DueAmong(q, c, entries, |entries|, b)
    decreases i
  {
    var due := DueFor(q, c, entries, entries[i]).value;
    if due.Shortfall? && exists j | 0 <= j < i :: Charges(entries[j], due.key) {
      var j :| 0 <= j < i && Charges(entries[j], due.key);
      SomethingIsDue(q, c, entries, j);
    } else {
      assert DueAmong(q, c, entries, |entries|, due);
    }
  }

  // The reporting loop over all charged entries.
  method ReportPools(q: Request, c: Contract, entries: seq<Entry>, totals: map<PoolKey, int>)
    returns (blockers: seq<Blocker>)
    requires forall key :: TotalIn(totals, key) == PlannedTotal(entries, key)
    ensures blockers == [] <==> forall e | e in entries :: EntryAdmitted(q, c, entries, e)
    ensures forall b :: b in blockers <==> DueAmong(q, c, entries, |entries|, b)
    ensures ShortfallsOnce(blockers)
    ensures forall b | b in blockers :: TrueShortfall(q, c, entries, b)
  {
    blockers := [];
    var reported: set<PoolKey> := {};
    for k := 0 to |entries|
      invariant Reported(q, c, entries, k, blockers, reported)
    {
      var e := entries[k];
      var key := e.spec.key;
      var blocker := if e.spec.releaseOnly then None else PoolBlocker(q, c, e.operation, key, TotalIn(totals, key));
      assert blocker == DueFor(q, c, entries, e);
      if blocker.Some? && !(blocker.value.Shortfall? && key in reported) {
        ReportStep(q, c, entries, k, blockers, reported);
        blockers := blockers + [blocker.value];
        if blocker.value.Shortfall? {
          reported := reported + {key};
        }
      } else {
        SilentStep(q, c, entries, k, blockers, reported);
      }
    }
    ReportMeans(q, c, entries, blockers, reported);
  }

  // The whole preflight.  It reports nothing exactly for an admitted request, and
  // each overcommitted pool once, with the total that does not fit.
  method Preflight(q: Request, c: Contract) returns (blockers: seq<Blocker>)
    ensures blockers == [] <==> Admitted(q, c)
    ensures forall b :: b in blockers <==>
              (exists op | op in q.operations :: PlanBlocker(q, op) == Some(b))
              || DueAmong(q, c, PlannedEntries(q), |PlannedEntries(q)|, b)
    ensures ShortfallsOnce(blockers)
    ensures forall b | b in blockers :: TrueShortfall(q, c, PlannedEntries(q), b)
  {
    var entries, totals, found := PlanOperations(q);
    var pools := ReportPools(q, c, entries, totals);
    blockers := found + pools;
    OnlyPoolsFallShort(q, found, pools);
  }

  lemma OnlyPoolsFallShort(q: Request, found: seq<Blocker>, pools: seq<Blocker>)
    requires forall b | b in found :: !b.Shortfall?
    requires ShortfallsOnce(pools)
    ensures ShortfallsOnce(found + pools)
  {
    var all := found + pools;
    assert forall i | 0 <= i < |found| :: all[i] == found[i] && found[i] in found;
    assert forall i | |found| <= i < |all| :: all[i] == pools[i - |found|];
  }

  // A pool with a baseline that is not verified gets no blocker in exactly three cases: it
  // is initialized locally when first reserved, for a deployment or for application usage
  // only; it is initialized by an exclusive account reset; or it is unknown, and the
  // provider is being bootstrapped with this dimension reconciled by account usage.
  lemma UnverifiedPoolIff(q: Request, c: Contract, op: string, key: PoolKey, total: int)
    requires key.dimension in c.dimensions && BaselineOf(q, c, key).Baseline?
    requires !BaselineOf(q, c, key).status.VerifiedBaseline?
    ensures var status, d := BaselineOf(q, c, key).status, c.dimensions[key.dimension];
      PoolBlocker(q, c, op, key, total)
      == if (status == Initializable(false) || status == Initializable(true))
            && d.baselineMode == "local_zero" && (d.scope == "deployment" || d.applicationUsageOnly) then None
         else if status == Initializable(true) then None
         else if status == UnknownBaseline && c.bootstrap && key.dimension in c.reconciled then None
         else Some(BaselineNotVerified(op, key.dimension))
  {
  }

  // Whether the pool of one metered spec is covered: its dimension is reviewed and its
  // baseline is known, with the planned total left, or one that needs no headroom yet.
  predicate Covered(q: Request, c: Contract, key: PoolKey, total: int) {
    && key.dimension in c.dimensions
    && match c.baseline(if key.group == "" then q.provider else key.group, key.dimension)
       case BaselineError => false
       case Baseline(status, remaining) =>
         match status
         case VerifiedBaseline => total <= remaining
         case Initializable(exclusiveReset) =>
           exclusiveReset
           || (c.dimensions[key.dimension].baselineMode == "local_zero"
               && (c.dimensions[key.dimension].scope == "deployment"
                   || c.dimensions[key.dimension].applicationUsageOnly))
         case UnknownBaseline => c.bootstrap && key.dimension in c.reconciled
         case OtherStatus => false
  }

  // Admission, in terms of the plans: every operation is planned and runs at least once,
  // and every spec of every plan that is more than a lease has a covered pool.
  lemma AdmittedIff(q: Request, c: Contract)
    ensures Admitted(q, c) <==>
            forall op | op in q.operations ::
              && q.plan(op).Planned? && (op in q.multipliers ==> q.multipliers[op] >= 1)
              && forall i | 0 <= i < |q.plan(op).specs| && !q.plan(op).specs[i].releaseOnly ::
                   Covered(q, c, q.plan(op).specs[i].key,
                           PlannedTotal(PlannedEntries(q), q.plan(op).specs[i].key))
  {
    forall e ensures EntryAdmitted(q, c, PlannedEntries(q), e) <==>
                     e.spec.releaseOnly || Covered(q, c, e.spec.key, PlannedTotal(PlannedEntries(q), e.spec.key)) {
    }
    if forall op | op in q.operations :: Counts(q, op) {
      forall op, i | op in q.operations && 0 <= i < |q.plan(op).specs|
        ensures Entry(op, q.plan(op).specs[i], Multiplier(q, op)) in PlannedEntries(q)
      {
        EntryOf(q, Sorted(q.operations), op, i);
      }
      forall e | e in PlannedEntries(q)
        ensures e.operation in q.operations
                && exists i | 0 <= i < |q.plan(e.operation).specs| :: q.plan(e.operation).specs[i] == e.spec
      {
        EntryOrigin(q, Sorted(q.operations), e);
      }
    }
  }

  // ---- what the live run may consume ---------------------------------------------------

  // The specs of one run of an operation.
  function SpecsOf(q: Request, op: string): seq<Spec> {
    if Counts(q, op) then q.plan(op).specs else []
  }

  function UnitsIn(specs: seq<Spec>, key: PoolKey): int {
    if specs == [] then 0
    else UnitsIn(specs[..|specs| - 1], key)
         + var s := specs[|specs| - 1]; (if !s.releaseOnly && s.key == key then s.units else 0)
  }

  // The units that a schedule of operation runs takes from a pool.
  function UnitsUsed(q: Request, schedule: seq<string>, key: PoolKey): int {
    if schedule == [] then 0
    else UnitsIn(SpecsOf(q, schedule[0]), key) + UnitsUsed(q, schedule[1..], key)
  }

  // The distinct identities that a schedule touches in a pool.
  function IdentitiesUsed(q: Request, schedule: seq<string>, key: PoolKey): set<string> {
    set i, j | 0 <= i < |schedule| && 0 <= j < |SpecsOf(q, schedule[i])|
               && !SpecsOf(q, schedule[i])[j].releaseOnly && SpecsOf(q, schedule[i])[j].key == key
               && SpecsOf(q, schedule[i])[j].identity != "" :: SpecsOf(q, schedule[i])[j].identity
  }

  // Every spec that charges the pool carries an identity.
  ghost predicate ByIdentity(q: Request, key: PoolKey) {
    && SymbolPool(key)
    && forall e | e in PlannedEntries(q) && Charges(e, key) :: e.spec.identity != ""
  }

  // No spec that charges the pool is counted by identity.
  ghost predicate ByUnits(q: Request, key: PoolKey) {
    SymbolPool(key) ==> forall e | e in PlannedEntries(q) && Charges(e, key) :: e.spec.identity == ""
  }

  // What a schedule takes from a pool, counted the way the pool is metered.
  ghost function Consumption(q: Request, schedule: seq<string>, key: PoolKey): int {
    if ByIdentity(q, key) then |IdentitiesUsed(q, schedule, key)| else UnitsUsed(q, schedule, key)
  }

  ghost predicate NonNegative(q: Request) {
    forall e | e in PlannedEntries(q) :: e.spec.units >= 0
  }

  // The rule of the reservation planner: a spec charges at least one unit, and it
  // carries an identity exactly when its unit is a symbol unit.
  predicate FollowsRule(spec: Spec) { spec.units >= 1 && (SymbolPool(spec.key) <==> spec.identity != "") }

  ghost predicate PlannedByRule(q: Request) {
    forall op | op in q.operations && q.plan(op).Planned? ::
      forall i | 0 <= i < |q.plan(op).specs| :: FollowsRule(q.plan(op).specs[i])
  }

  lemma EntriesFollowRule(q: Request)
    requires PlannedByRule(q)
    ensures forall e | e in PlannedEntries(q) :: FollowsRule(e.spec)
  {
    forall e | e in PlannedEntries(q) ensures FollowsRule(e.spec) {
      EntryOrigin(q, Sorted(q.operations), e);
    }
  }

  // So every pool is counted one way, and nothing gives units back.
  lemma RuleCountsOneWay(q: Request, key: PoolKey)
    requires PlannedByRule(q)
    ensures NonNegative(q) && (if SymbolPool(key) then ByIdentity(q, key) else ByUnits(q, key))
  {
    EntriesFollowRule(q);
  }

  // A schedule runs planned operations only, each at most as often as planned.
  ghost predicate WithinPlan(q: Request, schedule: seq<string>) {
    forall op | op in schedule :: op in q.operations && multiset(schedule)[op] <= Multiplier(q, op)
  }

  // ---- sums ---------------------------------------------------------------------------------

  function Sum(entries: seq<Entry>, key: PoolKey): int {
    if entries == [] then 0
    else Sum(entries[..|entries| - 1], key)
         + var e := entries[|entries| - 1]; (if Charges(e, key) then e.spec.units * e.multiplier else 0)
  }

  lemma {:induction false} SumAppend(a: seq<Entry>, b: seq<Entry>, key: PoolKey)
    ensures Sum(a + b, key) == Sum(a, key) + Sum(b, key)
    decreases |b|
  {
    if b == [] {
      assert a + b == a;
    } else {
      assert (a + b)[..|a + b| - 1] == a + b[..|b| - 1];
      SumAppend(a, b[..|b| - 1], key);
    }
  }

  lemma {:induction false} SumOfOperation(q: Request, op: string, key: PoolKey, n: nat)
    requires Counts(q, op) && n <= |q.plan(op).specs|
    ensures Sum(EntriesOf(q, op)[..n], key) == UnitsIn(q.plan(op).specs[..n], key) * Multiplier(q, op)
    decreases n
  {
    if n > 0 {
      SumOfOperation(q, op, key, n - 1);
      var entries, specs := EntriesOf(q, op)[..n], q.plan(op).specs[..n];
      assert entries[..n - 1] == EntriesOf(q, op)[..n - 1] && specs[..n - 1] == q.plan(op).specs[..n - 1];
      var s := specs[n - 1];
      assert entries[n - 1] == Entry(op, s, Multiplier(q, op));
      var u := if !s.releaseOnly && s.key == key then s.units else 0;
      assert UnitsIn(specs, key) == UnitsIn(specs[..n - 1], key) + u;
      assert (UnitsIn(specs[..n - 1], key) + u) * Multiplier(q, op)
          == UnitsIn(specs[..n - 1], key) * Multiplier(q, op) + u * Multiplier(q, op);
    }
  }

  lemma {:induction false} UnitTotals(entries: seq<Entry>, key: PoolKey)
    requires SymbolPool(key) ==> forall e | e in entries && Charges(e, key) :: e.spec.identity == ""
    ensures PlannedTotal(entries, key) == Sum(entries, key)
  {
    if entries != [] {
      UnitTotals(entries[..|entries| - 1], key);
    }
  }

  lemma {:induction false} IdentityTotals(entries: seq<Entry>, key: PoolKey)
    requires SymbolPool(key) && forall e | e in entries && Charges(e, key) :: e.spec.identity != ""
    ensures PlannedTotal(entries, key) == |Identities(entries, key)|
  {
    if entries != [] {
      var front, e := entries[..|entries| - 1], entries[|entries| - 1];
      IdentityTotals(front, key);
      assert entries == front + [e];
      PlannedTotalStep(front, e, key);
    }
  }

  lemma SumSplit(q: Request, ops: seq<string>, key: PoolKey)
    requires ops != [] && Counts(q, ops[|ops| - 1])
    ensures var front, op := ops[..|ops| - 1], ops[|ops| - 1];
      Sum(Entries(q, ops), key) == Sum(Entries(q, front), key) + UnitsIn(SpecsOf(q, op), key) * Multiplier(q, op)
  {
    var front, op := ops[..|ops| - 1], ops[|ops| - 1];
    var n := |q.plan(op).specs|;
    SumAppend(Entries(q, front), EntriesOf(q, op), key);
    SumOfOperation(q, op, key, n);
    assert EntriesOf(q, op)[..n] == EntriesOf(q, op);
    assert q.plan(op).specs[..n] == q.plan(op).specs;
  }

  // ---- schedules -----------------------------------------------------------------------------

  function Without(schedule: seq<string>, op: string): (rest: seq<string>)
    ensures multiset(rest) == multiset(schedule)[op := 0]
    ensures forall o | o in rest :: o in schedule && o != op
  {
    if schedule == [] then []
    else
      assert schedule == [schedule[0]] + schedule[1..];
      (if schedule[0] == op then [] else [schedule[0]]) + Without(schedule[1..], op)
  }

  lemma WithoutStep(schedule: seq<string>, op: string)
    requires schedule != []
    ensures schedule[0] == op ==>
              Without(schedule, op) == Without(schedule[1..], op)
              && multiset(schedule)[op] == multiset(schedule[1..])[op] + 1
    ensures schedule[0] != op ==>
              Without(schedule, op) == [schedule[0]] + Without(schedule[1..], op)
              && multiset(schedule)[op] == multiset(schedule[1..])[op]
  {
    assert schedule == [schedule[0]] + schedule[1..];
  }

  lemma UsedStep(q: Request, op: string, rest: seq<string>, key: PoolKey)
    ensures UnitsUsed(q, [op] + rest, key) == UnitsIn(SpecsOf(q, op), key) + UnitsUsed(q, rest, key)
  {
    assert ([op] + rest)[1..] == rest;
  }

  lemma {:induction false} UsedWithout(q: Request, schedule: seq<string>, op: string, key: PoolKey)
    ensures UnitsUsed(q, schedule, key)
            == UnitsUsed(q, Without(schedule, op), key) + UnitsIn(SpecsOf(q, op), key) * multiset(schedule)[op]
  {
    if schedule != [] {
      UsedWithout(q, schedule[1..], op, key);
      WithoutStep(schedule, op);
      UsedStep(q, schedule[0], schedule[1..], key);
      assert schedule == [schedule[0]] + schedule[1..];
      if schedule[0] == op {
        OneMore(UnitsIn(SpecsOf(q, op), key), multiset(schedule[1..])[op]);
      } else {
        UsedStep(q, schedule[0], Without(schedule[1..], op), key);
      }
    }
  }

  // The operation counts and none of its specs has negative units.
  ghost predicate Chargeable(q: Request, op: string) {
    Counts(q, op) && forall j | 0 <= j < |q.plan(op).specs| :: q.plan(op).specs[j].units >= 0
  }

  lemma {:induction false} UnitsAreNonNegative(specs: seq<Spec>, key: PoolKey)
    requires forall j | 0 <= j < |specs| :: specs[j].units >= 0
    ensures UnitsIn(specs, key) >= 0
  {
    if specs != [] {
      UnitsAreNonNegative(specs[..|specs| - 1], key);
    }
  }

  // Every spec of a listed operation is an entry.
  lemma {:induction false} EntryOf(q: Request, ops: seq<string>, op: string, i: nat)
    requires op in ops && Counts(q, op) && i < |q.plan(op).specs|
    ensures Entry(op, q.plan(op).specs[i], Multiplier(q, op)) in Entries(q, ops)
  {
    var last := ops[|ops| - 1];
    if op == last {
      assert EntriesOf(q, op)[i] == Entry(op, q.plan(op).specs[i], Multiplier(q, op));
    } else {
      EntryOf(q, ops[..|ops| - 1], op, i);
    }
  }

  lemma ScheduleWithout(q: Request, ops: seq<string>, schedule: seq<string>)
    requires ops != [] && forall op | op in schedule :: op in ops && multiset(schedule)[op] <= Multiplier(q, op)
    ensures var front, rest := ops[..|ops| - 1], Without(schedule, ops[|ops| - 1]);
      forall o | o in rest :: o in front && multiset(rest)[o] <= Multiplier(q, o)
  {
  }

  // A schedule within the plan uses at most the summed units of the plan.
  lemma {:induction false} UsedWithinSum(q: Request, ops: seq<string>, schedule: seq<string>, key: PoolKey)
    requires forall i | 0 <= i < |ops| :: Chargeable(q, ops[i])
    requires forall op | op in schedule :: op in ops && multiset(schedule)[op] <= Multiplier(q, op)
    ensures UnitsUsed(q, schedule, key) <= Sum(Entries(q, ops), key)
    decreases |ops|
  {
    if ops == [] {
    } else {
      var front, op := ops[..|ops| - 1], ops[|ops| - 1];
      ScheduleWithout(q, ops, schedule);
      UsedWithinSum(q, front, Without(schedule, op), key);
      UsedWithout(q, schedule, op, key);
      SumSplit(q, ops, key);
      assert Chargeable(q, op);
      UnitsAreNonNegative(q.plan(op).specs, key);
      assert multiset(schedule)[op] <= Multiplier(q, op) by {
        if multiset(schedule)[op] > 0 { assert op in schedule; }
      }
      MultiplyMonotone(UnitsIn(SpecsOf(q, op), key), multiset(schedule)[op], Multiplier(q, op));
    }
  }

  lemma OneMore(u: int, m: int)
    ensures u * (m + 1) == u * m + u
  {
  }

  lemma MultiplyMonotone(u: int, m: int, n: int)
    requires u >= 0 && m <= n
    ensures u * m <= u * n
  {
    assert u * n - u * m == u * (n - m);
  }

  lemma IdentitiesWithinPlan(q: Request, schedule: seq<string>, key: PoolKey)
    requires forall op | op in schedule :: op in q.operations
    ensures IdentitiesUsed(q, schedule, key) <= Identities(PlannedEntries(q), key)
  {
    forall id | id in IdentitiesUsed(q, schedule, key) ensures id in Identities(PlannedEntries(q), key) {
      var i, j :| 0 <= i < |schedule| && 0 <= j < |SpecsOf(q, schedule[i])|
                  && !SpecsOf(q, schedule[i])[j].releaseOnly && SpecsOf(q, schedule[i])[j].key == key
                  && SpecsOf(q, schedule[i])[j].identity != "" && SpecsOf(q, schedule[i])[j].identity == id;
      EntryOf(q, Sorted(q.operations), schedule[i], j);
    }
  }

  lemma {:induction false} Subsets<T>(a: set<T>, b: set<T>)
    requires a <= b
    ensures |a| <= |b|
    decreases |a|
  {
    if a != {} {
      var x :| x in a;
      Subsets(a - {x}, b - {x});
    }
  }

  lemma PlannedAreChargeable(q: Request)
    requires (forall op | op in q.operations :: Counts(q, op)) && NonNegative(q)
    ensures forall i | 0 <= i < |Sorted(q.operations)| :: Chargeable(q, Sorted(q.operations)[i])
  {
    var ops := Sorted(q.operations);
    forall i | 0 <= i < |ops| ensures Chargeable(q, ops[i]) {
      assert ops[i] in ops;
      forall j | 0 <= j < |q.plan(ops[i]).specs| ensures q.plan(ops[i]).specs[j].units >= 0 {
        EntryOf(q, ops, ops[i], j);
      }
    }
  }

  // A schedule within the plan never consumes more than a pool's planned total.
  lemma ConsumptionWithinTotal(q: Request, schedule: seq<string>, key: PoolKey)
    requires (forall op | op in q.operations :: Counts(q, op)) && NonNegative(q) && WithinPlan(q, schedule)
    requires ByIdentity(q, key) || ByUnits(q, key)
    ensures Consumption(q, schedule, key) <= PlannedTotal(PlannedEntries(q), key)
  {
    if ByIdentity(q, key) {
      IdentityTotals(PlannedEntries(q), key);
      IdentitiesWithinPlan(q, schedule, key);
      Subsets(IdentitiesUsed(q, schedule, key), Identities(PlannedEntries(q), key));
    } else {
      UnitTotals(PlannedEntries(q), key);
      PlannedAreChargeable(q);
      UsedWithinSum(q, Sorted(q.operations), schedule, key);
    }
  }

  lemma PrefixWithinPlan(q: Request, schedule: seq<string>, n: nat)
    requires WithinPlan(q, schedule) && n <= |schedule|
    ensures WithinPlan(q, schedule[..n])
  {
    forall op | op in schedule[..n] ensures op in q.operations && multiset(schedule[..n])[op] <= Multiplier(q, op) {
      assert schedule == schedule[..n] + schedule[n..];
      assert multiset(schedule)[op] == multiset(schedule[..n])[op] + multiset(schedule[n..])[op];
    }
  }

  lemma ChargedIsAdmitted(q: Request, c: Contract, key: PoolKey)
    requires Admitted(q, c) && exists e | e in PlannedEntries(q) :: Charges(e, key)
    ensures PoolAdmitted(q, c, key, PlannedTotal(PlannedEntries(q), key))
  {
    var e :| e in PlannedEntries(q) && Charges(e, key);
    assert EntryAdmitted(q, c, PlannedEntries(q), e);
  }

  // Admission is sound for every schedule: whatever order the planned runs take,
  // after any number of them no pool with a verified baseline is overdrawn.
  lemma AdmissionIsSound(q: Request, c: Contract, schedule: seq<string>, n: nat, key: PoolKey)
    requires Admitted(q, c) && PlannedByRule(q) && WithinPlan(q, schedule) && n <= |schedule|
    requires exists e | e in PlannedEntries(q) :: Charges(e, key)
    requires BaselineOf(q, c, key).Baseline? && BaselineOf(q, c, key).status.VerifiedBaseline?
    ensures Consumption(q, schedule[..n], key) <= BaselineOf(q, c, key).remaining
  {
    PrefixWithinPlan(q, schedule, n);
    ChargedIsAdmitted(q, c, key);
    RuleCountsOneWay(q, key);
    ConsumptionWithinTotal(q, schedule[..n], key);
  }

  // ---- what a symbol pool is admitted for ---------------------------------------------------

  // Every identified spec carries the same identity, as the preflight plans all
  // operations under one name.
  ghost predicate OneIdentity(q: Request, id: string) {
    forall e | e in PlannedEntries(q) && e.spec.identity != "" :: e.spec.identity == id
  }

  // A symbol pool is planned for a single identity, however many operations charge
  // it and however often they run.
  lemma SymbolPoolCostsOne(q: Request, key: PoolKey, id: string)
    requires PlannedByRule(q) && OneIdentity(q, id) && SymbolPool(key)
    requires exists e | e in PlannedEntries(q) :: Charges(e, key)
    ensures PlannedTotal(PlannedEntries(q), key) == 1
  {
    RuleCountsOneWay(q, key);
    IdentityTotals(PlannedEntries(q), key);
    var e :| e in PlannedEntries(q) && Charges(e, key);
    assert Identities(PlannedEntries(q), key) == {e.spec.identity};
  }

  // So a symbol pool with a verified baseline is admitted exactly when one symbol is
  // left, although the live operations then reserve under symbols of their own.
  lemma SymbolPoolAdmittedIff(q: Request, c: Contract, key: PoolKey, id: string)
    requires PlannedByRule(q) && OneIdentity(q, id) && SymbolPool(key)
    requires exists e | e in PlannedEntries(q) :: Charges(e, key)
    requires key.dimension in c.dimensions
    requires BaselineOf(q, c, key).Baseline? && BaselineOf(q, c, key).status.VerifiedBaseline?
    ensures PoolAdmitted(q, c, key, PlannedTotal(PlannedEntries(q), key)) <==> BaselineOf(q, c, key).remaining >= 1
  {
    SymbolPoolCostsOne(q, key, id);
  }

  // ---- the planning loop on specs of both kinds ----------------------------------------------

  predicate Identified(e: Entry, key: PoolKey) { Charges(e, key) && e.spec.identity != "" }

  predicate Plain(e: Entry, key: PoolKey) { Charges(e, key) && e.spec.identity == "" }

  function PlainUnits(entries: seq<Entry>, key: PoolKey): int {
    if entries == [] then 0
    else
      var e := entries[|entries| - 1];
      PlainUnits(entries[..|entries| - 1], key) + (if Plain(e, key) then e.spec.units * e.multiplier else 0)
  }

  // A plain spec that costs something comes before an identified one.
  ghost predicate Overwritten(entries: seq<Entry>, key: PoolKey) {
    exists i, j :: 0 <= i < j < |entries| && Plain(entries[i], key) && entries[i].spec.units * entries[i].multiplier > 0
                   && Identified(entries[j], key)
  }

  ghost predicate CostsSomething(entries: seq<Entry>, key: PoolKey) {
    exists i :: 0 <= i < |entries| && Plain(entries[i], key) && entries[i].spec.units * entries[i].multiplier > 0
  }

  lemma {:induction false} PlainUnitsAreNonNegative(entries: seq<Entry>, key: PoolKey)
    requires forall e | e in entries :: e.spec.units * e.multiplier >= 0
    ensures PlainUnits(entries, key) >= 0
    ensures PlainUnits(entries, key) > 0 <==> CostsSomething(entries, key)
  {
    if entries != [] {
      var front, e := entries[..|entries| - 1], entries[|entries| - 1];
      PlainUnitsAreNonNegative(front, key);
      assert CostsSomething(entries, key) <==>
             CostsSomething(front, key) || (Plain(e, key) && e.spec.units * e.multiplier > 0);
    }
  }

  lemma OverwrittenStep(front: seq<Entry>, e: Entry, key: PoolKey)
    ensures Overwritten(front + [e], key)
            <==> Overwritten(front, key) || (CostsSomething(front, key) && Identified(e, key))
  {
    var all := front + [e];
    assert all[|front|] == e && forall i | 0 <= i < |front| :: all[i] == front[i];
    if Overwritten(front, key) {
      var i, j :| 0 <= i < j < |front| && Plain(front[i], key) && front[i].spec.units * front[i].multiplier > 0
                  && Identified(front[j], key);
      assert Plain(all[i], key) && Identified(all[j], key);
    }
    if CostsSomething(front, key) && Identified(e, key) {
      var i :| 0 <= i < |front| && Plain(front[i], key) && front[i].spec.units * front[i].multiplier > 0;
      assert Plain(all[i], key) && Identified(all[|front|], key);
    }
  }

  // The loop would take specs of both kinds for one symbol pool, though the planner
  // never makes them.  Its total is then the number of identities plus the plain
  // units exactly when no plain cost precedes an identified spec; otherwise it is
  // less.
  lemma {:induction false} MixedPoolTotalIff(entries: seq<Entry>, key: PoolKey)
    requires SymbolPool(key) && forall e | e in entries :: e.spec.units * e.multiplier >= 0
    ensures PlannedTotal(entries, key) <= |Identities(entries, key)| + PlainUnits(entries, key)
    ensures PlannedTotal(entries, key) == |Identities(entries, key)| + PlainUnits(entries, key)
            <==> !Overwritten(entries, key)
  {
    if entries == [] {
      assert Identities(entries, key) == {};
    } else {
      var front, e := entries[..|entries| - 1], entries[|entries| - 1];
      assert entries == front + [e];
      MixedPoolTotalIff(front, key);
      PlannedTotalStep(front, e, key);
      OverwrittenStep(front, e, key);
      PlainUnitsAreNonNegative(front, key);
    }
  }

  // ---- sub-selections ------------------------------------------------------------------------

  // The schedule that runs each listed operation as often as planned.
  ghost function Repeat(op: string, n: nat): (runs: seq<string>)
    ensures |runs| == n && forall i | 0 <= i < n :: runs[i] == op
    ensures multiset(runs)[op] == n
  {
    if n == 0 then [] else [op] + Repeat(op, n - 1)
  }

  ghost function FullSchedule(q: Request, ops: seq<string>): seq<string>
    requires forall i | 0 <= i < |ops| :: Counts(q, ops[i])
  {
    if ops == [] then []
    else
      var op := ops[|ops| - 1];
      assert Counts(q, op);
      FullSchedule(q, ops[..|ops| - 1]) + Repeat(op, Multiplier(q, op))
  }

  lemma {:induction false} UsedAppend(q: Request, a: seq<string>, b: seq<string>, key: PoolKey)
    ensures UnitsUsed(q, a + b, key) == UnitsUsed(q, a, key) + UnitsUsed(q, b, key)
  {
    if a == [] {
      assert a + b == b;
    } else {
      assert (a + b)[1..] == a[1..] + b;
      UsedAppend(q, a[1..], b, key);
    }
  }

  lemma {:induction false} UsedRepeat(q: Request, op: string, n: nat, key: PoolKey)
    ensures UnitsUsed(q, Repeat(op, n), key) == UnitsIn(SpecsOf(q, op), key) * n
  {
    if n > 0 {
      UsedRepeat(q, op, n - 1, key);
      assert Repeat(op, n)[1..] == Repeat(op, n - 1);
      OneMore(UnitsIn(SpecsOf(q, op), key), n - 1);
    }
  }

  lemma {:induction false} FullScheduleUses(q: Request, ops: seq<string>, key: PoolKey)
    requires forall i | 0 <= i < |ops| :: Counts(q, ops[i])
    ensures UnitsUsed(q, FullSchedule(q, ops), key) == Sum(Entries(q, ops), key)
  {
    if ops != [] {
      var front, op := ops[..|ops| - 1], ops[|ops| - 1];
      FullScheduleUses(q, front, key);
      UsedAppend(q, FullSchedule(q, front), Repeat(op, Multiplier(q, op)), key);
      UsedRepeat(q, op, Multiplier(q, op), key);
      SumSplit(q, ops, key);
    }
  }

  lemma {:induction false} FullScheduleCounts(q: Request, ops: seq<string>)
    requires forall i | 0 <= i < |ops| :: Counts(q, ops[i])
    requires forall i, j | 0 <= i < j < |ops| :: ops[i] != ops[j]
    ensures forall op | op in FullSchedule(q, ops) :: op in ops
    ensures forall op | op in ops :: multiset(FullSchedule(q, ops))[op] == Multiplier(q, op)
  {
    if ops != [] {
      var front, op := ops[..|ops| - 1], ops[|ops| - 1];
      FullScheduleCounts(q, front);
      var runs := Repeat(op, Multiplier(q, op));
      assert op !in FullSchedule(q, front) by { assert op !in front; }
      assert multiset(FullSchedule(q, front))[op] == 0;
      forall o | o in front ensures multiset(runs)[o] == 0 {
        assert o !in runs;
      }
    }
  }

  // The smaller request asks for some of the operations, each at most as often,
  // with the same plans.
  ghost predicate SubRequest(small: Request, large: Request) {
    && small.provider == large.provider && small.operations <= large.operations
    && forall op | op in small.operations ::
         small.plan(op) == large.plan(op) && 1 <= Multiplier(small, op) <= Multiplier(large, op)
  }

  lemma {:induction false} EntryOrigin(q: Request, ops: seq<string>, e: Entry)
    requires e in Entries(q, ops)
    ensures e.operation in ops && Counts(q, e.operation) && e.spec in q.plan(e.operation).specs
    ensures e.multiplier == Multiplier(q, e.operation)
  {
    var last := ops[|ops| - 1];
    if e in EntriesOf(q, last) {
      var i :| 0 <= i < |EntriesOf(q, last)| && EntriesOf(q, last)[i] == e;
      assert e.spec == q.plan(last).specs[i];
    } else {
      EntryOrigin(q, ops[..|ops| - 1], e);
    }
  }

  // Each entry of the smaller plan is, but for its multiplier, one of the larger.
  lemma SubEntries(small: Request, large: Request, e: Entry)
    requires SubRequest(small, large) && (forall op | op in large.operations :: Counts(large, op))
    requires e in PlannedEntries(small)
    ensures e.(multiplier := Multiplier(large, e.operation)) in PlannedEntries(large)
  {
    EntryOrigin(small, Sorted(small.operations), e);
    var i :| 0 <= i < |small.plan(e.operation).specs| && small.plan(e.operation).specs[i] == e.spec;
    EntryOf(large, Sorted(large.operations), e.operation, i);
  }

  lemma {:induction false} SameUnitsUsed(small: Request, large: Request, schedule: seq<string>, key: PoolKey)
    requires SubRequest(small, large) && (forall op | op in large.operations :: Counts(large, op))
    requires forall op | op in schedule :: op in small.operations
    ensures UnitsUsed(small, schedule, key) == UnitsUsed(large, schedule, key)
  {
    if schedule != [] {
      assert schedule[0] in schedule && Counts(small, schedule[0]) && Counts(large, schedule[0]);
      SameUnitsUsed(small, large, schedule[1..], key);
    }
  }

  // Running the whole smaller plan uses no more units than the larger one sums to.
  lemma UnitsShrink(small: Request, large: Request, ops: seq<string>, all: seq<string>, key: PoolKey)
    requires SubRequest(small, large) && (forall op | op in large.operations :: Counts(large, op))
    requires forall op :: op in ops <==> op in small.operations
    requires forall op :: op in all <==> op in large.operations
    requires forall i, j | 0 <= i < j < |ops| :: ops[i] != ops[j]
    requires forall i | 0 <= i < |all| :: Chargeable(large, all[i])
    ensures Sum(Entries(small, ops), key) <= Sum(Entries(large, all), key)
  {
    forall i | 0 <= i < |ops| ensures Counts(small, ops[i]) {
      assert ops[i] in ops;
    }
    FullScheduleUses(small, ops, key);
    FullScheduleCounts(small, ops);
    var schedule := FullSchedule(small, ops);
    forall op | op in schedule ensures op in all && multiset(schedule)[op] <= Multiplier(large, op) {
      assert op in ops;
    }
    SameUnitsUsed(small, large, schedule, key);
    UsedWithinSum(large, all, schedule, key);
  }

  // A pool's planned total never grows when the request shrinks.
  lemma IdentityTotalShrinks(small: Request, large: Request, key: PoolKey)
    requires SubRequest(small, large) && (forall op | op in large.operations :: Counts(large, op))
    requires ByIdentity(large, key)
    ensures PlannedTotal(PlannedEntries(small), key) <= PlannedTotal(PlannedEntries(large), key)
  {
    var fewer, more := PlannedEntries(small), PlannedEntries(large);
    forall e | e in fewer ensures e.(multiplier := Multiplier(large, e.operation)) in more {
      SubEntries(small, large, e);
    }
    IdentityTotals(more, key);
    forall e | e in fewer && Charges(e, key) ensures e.spec.identity != "" {
      assert Charges(e.(multiplier := Multiplier(large, e.operation)), key);
    }
    IdentityTotals(fewer, key);
    forall id | id in Identities(fewer, key) ensures id in Identities(more, key) {
      var e :| e in fewer && Charges(e, key) && e.spec.identity != "" && e.spec.identity == id;
      assert Charges(e.(multiplier := Multiplier(large, e.operation)), key);
    }
    Subsets(Identities(fewer, key), Identities(more, key));
  }

  lemma UnitTotalShrinks(small: Request, large: Request, key: PoolKey)
    requires SubRequest(small, large) && (forall op | op in large.operations :: Counts(large, op)) && NonNegative(large)
    requires ByUnits(large, key)
    ensures PlannedTotal(PlannedEntries(small), key) <= PlannedTotal(PlannedEntries(large), key)
  {
    var fewer, more := PlannedEntries(small), PlannedEntries(large);
    UnitTotals(more, key);
    if SymbolPool(key) {
      forall e | e in fewer && Charges(e, key) ensures e.spec.identity == "" {
        SubEntries(small, large, e);
        assert Charges(e.(multiplier := Multiplier(large, e.operation)), key);
      }
    }
    UnitTotals(fewer, key);
    PlannedAreChargeable(large);
    SortedDistinct(small.operations);
    UnitsShrink(small, large, Sorted(small.operations), Sorted(large.operations), key);
  }

  // Admission is downward closed: with contract, bootstrap and baselines fixed,
  // every sub-request of an admitted request is admitted.
  lemma AdmissionIsDownwardClosed(small: Request, large: Request, c: Contract)
    requires SubRequest(small, large) && Admitted(large, c) && PlannedByRule(large)
    ensures Admitted(small, c)
  {
    forall e | e in PlannedEntries(small) ensures EntryAdmitted(small, c, PlannedEntries(small), e) {
      if !e.spec.releaseOnly {
        SubEntries(small, large, e);
        var e' := e.(multiplier := Multiplier(large, e.operation));
        assert EntryAdmitted(large, c, PlannedEntries(large), e');
        RuleCountsOneWay(large, e.spec.key);
        if ByIdentity(large, e.spec.key) {
          IdentityTotalShrinks(small, large, e.spec.key);
        } else {
          UnitTotalShrinks(small, large, e.spec.key);
        }
      }
    }
  }
}
