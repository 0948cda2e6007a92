/**
 The port and resource allocator of scripts/worktree-runtime.py.

 One registry file is shared by all worktrees and changed under one lock.  Every
 call sees its own surroundings: which worktrees Git lists, what Docker answers
 (running, stopped, or no answer) and which ports can be bound.  Paths are
 compared as resolved strings, and a worktree id is whatever the caller computes
 from its branch and path.
 */
module RuntimeAllocator {
  import opened Wrappers

  const PORT_KEYS := [
    "DEV_POSTGRES_HOST_PORT", "DEV_REDIS_HOST_PORT", "DEV_BACKEND_PORT", "VITE_PORT",
    "POSTGRES_HOST_PORT", "REDIS_HOST_PORT", "BACKEND_HOST_PORT", "FRONTEND_HOST_PORT"]

  const PORT_BASES := [15432, 16379, 18000, 19000, 25432, 26379, 28000, 28080]

  const LAST_PORT := 65535

  // A registry written by an older version may hold anything under a port name.
  datatype PortValue = Number(value: int) | Other

  datatype Allocation = Allocation(
    worktree: string, branch: string, id: string, ports: map<string, PortValue>,
    projects: map<string, string>, builder: Option<string>)

  type Registry = map<string, Allocation>

  datatype Call = Call(
    path: string, branch: string, id: string,
    projects: map<string, string>, builder: string,
    active: set<string>,
    docker: set<string> -> Option<bool>,
    bindable: (string, int) -> bool)

  // ---- reclamation ------------------------------------------------------------

  function ProjectNames(item: Allocation): set<string> {
    set p | p in item.projects && item.projects[p] != "" :: item.projects[p]
  }

  // running_managed_projects: no projects, no answer.
  function Running(call: Call, projects: set<string>): Option<bool> {
    if projects == {} then None else call.docker(projects)
  }

  predicate Stale(call: Call, item: Allocation) {
    item.worktree !in call.active && Running(call, ProjectNames(item)) == Some(false)
  }

  function Reclaimed(data: Registry, call: Call): Registry {
    map id | id in data && (id == call.id || !Stale(call, data[id])) :: data[id]
  }

  // ---- search -------------------------------------------------------------------

  // Every numeric port of every other allocation.
  function ManagedPorts(data: Registry, id: string): set<int> {
    set k, p | k in data && k != id && p in data[k].ports && data[k].ports[p].Number? :: data[k].ports[p].value
  }

  predicate Usable(call: Call, key: string, used: set<int>, port: int) {
    port !in used && call.bindable(key, port)
  }

  function Search(call: Call, key: string, used: set<int>, candidate: int): Option<int>
    decreases LAST_PORT + 1 - candidate
  {
    if candidate > LAST_PORT then None
    else if Usable(call, key, used, candidate) then Some(candidate)
    else Search(call, key, used, candidate + 1)
  }

  // The least usable port from `base` up, within the port range.
  ghost predicate FirstFit(call: Call, key: string, used: set<int>, base: int, port: int) {
    && base <= port <= LAST_PORT && Usable(call, key, used, port)
    && forall q | base <= q < port :: !Usable(call, key, used, q)
  }

  lemma {:induction false} SearchIsFirstFit(call: Call, key: string, used: set<int>, base: int)
    ensures Search(call, key, used, base).Some? ==> FirstFit(call, key, used, base, Search(call, key, used, base).value)
    ensures Search(call, key, used, base).None?
            <==> forall q | base <= q <= LAST_PORT :: !Usable(call, key, used, q)
    decreases LAST_PORT + 1 - base
  {
    if base <= LAST_PORT && !Usable(call, key, used, base) {
      SearchIsFirstFit(call, key, used, base + 1);
    }
  }

  // The ports for the keys from index k on, given those chosen before.
  function Assign(call: Call, keys: seq<string>, bases: seq<int>, used: set<int>, chosen: map<string, PortValue>,
                  k: nat)
    : Option<map<string, PortValue>>
    requires k <= |keys| == |bases|
    decreases |keys| - k
  {
    if k == |keys| then Some(chosen)
    else
      match Search(call, keys[k], used, bases[k])
      case None => None
      case Some(port) => Assign(call, keys, bases, used + {port}, chosen[keys[k] := Number(port)], k + 1)
  }

  // ---- allocate and ensure ---------------------------------------------------------

  predicate Complete(item: Allocation) { forall k | 0 <= k < |PORT_KEYS| :: PORT_KEYS[k] in item.ports }

  predicate Reusable(data: Registry, call: Call) {
    call.id in data && data[call.id].worktree == call.path && Complete(data[call.id])
  }

  function Allocate(data: Registry, call: Call): Option<Registry> {
    var kept := Reclaimed(data, call);
    if Reusable(kept, call) then
      var existing := kept[call.id];
      var builder := if existing.builder.None? then Some(call.builder) else existing.builder;
      Some(kept[call.id := existing.(branch := call.branch, builder := builder)])
    else
      var others := kept - {call.id};
      match Assign(call, PORT_KEYS, PORT_BASES, ManagedPorts(others, call.id), map[], 0)
      case None => None
      case Some(ports) =>
        Some(others[call.id := Allocation(call.path, call.branch, call.id, ports, call.projects, Some(call.builder))])
  }

  // The registry on disk and the generated environment files beside it.
  datatype Runtime = Runtime(allocations: Registry, envFiles: set<string>)

  function RegisteredIds(data: Registry): set<string> { set k | k in data :: data[k].id }

  // A call that finds no port leaves the disk as it was: the registry is written
  // only when the locked section ends normally.
  function Ensure(state: Runtime, call: Call): (Runtime, bool) {
    match Allocate(state.allocations, call)
    case None => (state, false)
    case Some(data) => (Runtime(data, state.envFiles * RegisteredIds(data) + {call.id}), true)
  }

  function EnsureAll(state: Runtime, calls: seq<Call>): Runtime
    decreases |calls|
  {
    if calls == [] then state else EnsureAll(Ensure(state, calls[0]).0, calls[1..])
  }

  // ---- what a fresh assignment looks like --------------------------------------------

  ghost predicate DistinctKeys(keys: seq<string>) {
    forall i, j | 0 <= i < j < |keys| :: keys[i] != keys[j]
  }

  // The ports already given to the first k keys.
  ghost function Taken(keys: seq<string>, ports: map<string, PortValue>, k: nat): set<int>
    requires k <= |keys|
  {
    set j | 0 <= j < k && keys[j] in ports && ports[keys[j]].Number? :: ports[keys[j]].value
  }

  ghost predicate FreshUpTo(call: Call, keys: seq<string>, bases: seq<int>, used: set<int>,
                            ports: map<string, PortValue>, n: nat)
    requires n <= |keys| == |bases|
  {
    forall k | 0 <= k < n ::
      && keys[k] in ports && ports[keys[k]].Number?
      && FirstFit(call, keys[k], used + Taken(keys, ports, k), bases[k], ports[keys[k]].value)
  }

  ghost predicate NamesAmong(keys: seq<string>, ports: map<string, PortValue>, n: nat)
    requires n <= |keys|
  {
    forall p | p in ports :: exists j | 0 <= j < n :: keys[j] == p
  }

  // Some key finds no usable port at all, once the earlier ones have theirs.
  ghost predicate Exhausted(call: Call, keys: seq<string>, bases: seq<int>, used: set<int>)
    requires |keys| == |bases|
  {
    exists n: nat, ports | n < |keys| && FreshUpTo(call, keys, bases, used, ports, n) ::
      forall q | bases[n] <= q <= LAST_PORT :: !Usable(call, keys[n], used + Taken(keys, ports, n), q)
  }

  lemma TakenGrows(keys: seq<string>, ports: map<string, PortValue>, k: nat, port: int)
    requires k < |keys| && DistinctKeys(keys)
    ensures var more := ports[keys[k] := Number(port)];
      && Taken(keys, more, k + 1) == Taken(keys, ports, k) + {port}
      && forall j | 0 <= j <= k :: Taken(keys, more, j) == Taken(keys, ports, j)
  {
    var more := ports[keys[k] := Number(port)];
    assert more[keys[k]] == Number(port);
    assert forall j | 0 <= j < k :: keys[j] != keys[k];
  }

  lemma FreshGrows(call: Call, keys: seq<string>, bases: seq<int>, used: set<int>, ports: map<string, PortValue>,
                   k: nat, port: int)
    requires k < |keys| == |bases| && DistinctKeys(keys)
    requires FreshUpTo(call, keys, bases, used, ports, k)
    requires FirstFit(call, keys[k], used + Taken(keys, ports, k), bases[k], port)
    ensures FreshUpTo(call, keys, bases, used, ports[keys[k] := Number(port)], k + 1)
  {
    TakenGrows(keys, ports, k, port);
    var more := ports[keys[k] := Number(port)];
    forall j | 0 <= j < k + 1
      ensures keys[j] in more && more[keys[j]].Number?
      ensures FirstFit(call, keys[j], used + Taken(keys, more, j), bases[j], more[keys[j]].value)
    {
      if j < k { assert keys[j] != keys[k]; }
    }
  }

  // Every assigned port is the least usable one at or above its base that no other
  // allocation and no earlier key holds; assignment fails only where, for some
  // key, no port up to 65535 is usable.
  lemma {:induction false} AssignIsFirstFit(call: Call, keys: seq<string>, bases: seq<int>, used: set<int>,
                                            chosen: map<string, PortValue>, held: set<int>, k: nat)
    requires Partial(call, keys, bases, used, chosen, held, k)
    ensures Assigned(call, keys, bases, used, Assign(call, keys, bases, held, chosen, k))
    decreases |keys| - k
  {
    if k == |keys| {
      AllFit(call, keys, bases, used, chosen, held);
    } else {
      AssignStep(call, keys, bases, held, chosen, k);
      match Search(call, keys[k], held, bases[k])
      case None => NothingFits(call, keys, bases, used, chosen, held, k);
      case Some(port) =>
        OneMoreFits(call, keys, bases, used, chosen, held, k, port);
        AssignIsFirstFit(call, keys, bases, used, chosen[keys[k] := Number(port)], held + {port}, k + 1);
    }
  }

  lemma AssignStep(call: Call, keys: seq<string>, bases: seq<int>, held: set<int>, chosen: map<string, PortValue>,
                   k: nat)
    requires k < |keys| == |bases|
    ensures Assign(call, keys, bases, held, chosen, k)
            == match Search(call, keys[k], held, bases[k])
               case None => None
               case Some(port) => Assign(call, keys, bases, held + {port}, chosen[keys[k] := Number(port)], k + 1)
  {
  }

  lemma AllFit(call: Call, keys: seq<string>, bases: seq<int>, used: set<int>, ports: map<string, PortValue>,
               held: set<int>)
    requires Partial(call, keys, bases, used, ports, held, |keys|)
    ensures Assigned(call, keys, bases, used, Assign(call, keys, bases, held, ports, |keys|))
  {
  }

  // The first k keys have their ports, and these are held with the used ones.
  ghost predicate Partial(call: Call, keys: seq<string>, bases: seq<int>, used: set<int>,
                          chosen: map<string, PortValue>, held: set<int>, k: nat)
  {
    && k <= |keys| == |bases| && DistinctKeys(keys) && held == used + Taken(keys, chosen, k)
    && FreshUpTo(call, keys, bases, used, chosen, k) && NamesAmong(keys, chosen, k)
  }

  lemma NothingChosen(call: Call, keys: seq<string>, bases: seq<int>, used: set<int>)
    requires |keys| == |bases| && DistinctKeys(keys)
    ensures Partial(call, keys, bases, used, map[], used, 0)
  {
    assert used + Taken(keys, map[], 0) == used;
  }

  // What an assignment for all keys gives.
  ghost predicate Assigned(call: Call, keys: seq<string>, bases: seq<int>, used: set<int>,
                           result: Option<map<string, PortValue>>)
    requires |keys| == |bases|
  {
    match result
    case Some(ports) => FreshUpTo(call, keys, bases, used, ports, |keys|) && NamesAmong(keys, ports, |keys|)
    case None => Exhausted(call, keys, bases, used)
  }

  lemma OneMoreFits(call: Call, keys: seq<string>, bases: seq<int>, used: set<int>, ports: map<string, PortValue>,
                    held: set<int>, k: nat, port: int)
    requires k < |keys| && Partial(call, keys, bases, used, ports, held, k)
    requires Search(call, keys[k], held, bases[k]) == Some(port)
    ensures Partial(call, keys, bases, used, ports[keys[k] := Number(port)], held + {port}, k + 1)
  {
    SearchIsFirstFit(call, keys[k], held, bases[k]);
    FreshGrows(call, keys, bases, used, ports, k, port);
    TakenGrows(keys, ports, k, port);
    NamesGrow(keys, ports, k, port);
  }

  lemma NamesGrow(keys: seq<string>, ports: map<string, PortValue>, k: nat, port: int)
    requires k < |keys| && NamesAmong(keys, ports, k)
    ensures NamesAmong(keys, ports[keys[k] := Number(port)], k + 1)
  {
    forall p | p in ports && p != keys[k] ensures exists j | 0 <= j < k + 1 :: keys[j] == p {
      var j :| 0 <= j < k && keys[j] == p;
    }
  }

  lemma NothingFits(call: Call, keys: seq<string>, bases: seq<int>, used: set<int>, ports: map<string, PortValue>,
                    held: set<int>, k: nat)
    requires k < |keys| && Partial(call, keys, bases, used, ports, held, k)
    requires Search(call, keys[k], held, bases[k]).None?
    ensures Assigned(call, keys, bases, used, None)
  {
    SearchIsFirstFit(call, keys[k], held, bases[k]);
  }

  // ---- every sequence of calls ------------------------------------------------------------

  // A numeric port of one allocation, by name.
  ghost predicate Holds(item: Allocation, name: string, port: int) {
    name in item.ports && item.ports[name] == Number(port)
  }

  ghost predicate Disjoint(data: Registry) {
    forall a, b, p, q, port | a in data && b in data && a != b && Holds(data[a], p, port) :: !Holds(data[b], q, port)
  }

  ghost predicate DistinctPorts(item: Allocation) {
    forall p, q, port | Holds(item, p, port) && Holds(item, q, port) :: p == q
  }

  // What the allocator maintains from an empty registry on.
  ghost predicate Sound(state: Runtime) {
    && Disjoint(state.allocations)
    && (forall k | k in state.allocations ::
          state.allocations[k].id == k && Complete(state.allocations[k]) && DistinctPorts(state.allocations[k]))
    && state.envFiles == state.allocations.Keys
  }

  lemma FreshIsDistinct(call: Call, keys: seq<string>, bases: seq<int>, used: set<int>, item: Allocation)
    requires |keys| == |bases|
    requires FreshUpTo(call, keys, bases, used, item.ports, |keys|) && NamesAmong(keys, item.ports, |keys|)
    ensures DistinctPorts(item) && forall p, port | Holds(item, p, port) :: port !in used
  {
    var ports := item.ports;
    forall i, j | 0 <= i < j < |keys| ensures ports[keys[i]].value != ports[keys[j]].value {
      assert ports[keys[i]].value in Taken(keys, ports, j);
    }
    forall p, q, port | Holds(item, p, port) && Holds(item, q, port) ensures p == q {
      var i :| 0 <= i < |keys| && keys[i] == p;
      var j :| 0 <= j < |keys| && keys[j] == q;
    }
  }

  lemma PortKeysDiffer()
    ensures DistinctKeys(PORT_KEYS)
  {
  }

  // What a completed call changes, one allocation at a time.
  lemma AllocateShape(data: Registry, call: Call)
    requires Allocate(data, call).Some?
    ensures var later := Allocate(data, call).value;
      && call.id in later
      && (forall k | k in later && k != call.id :: k in data && later[k] == data[k])
      && (if Reusable(data, call) then
            later[call.id].ports == data[call.id].ports && later[call.id].id == data[call.id].id
          else
            && later[call.id].id == call.id && later[call.id].worktree == call.path
            && Complete(later[call.id]) && DistinctPorts(later[call.id])
            && forall k, p, q, port | k in later && k != call.id && Holds(later[call.id], p, port) ::
                 !Holds(later[k], q, port))
  {
    var kept := Reclaimed(data, call);
    var later := Allocate(data, call).value;
    if !Reusable(kept, call) {
      var others := kept - {call.id};
      var used := ManagedPorts(others, call.id);
      var ports := Assign(call, PORT_KEYS, PORT_BASES, used, map[], 0).value;
      PortKeysDiffer();
      NothingChosen(call, PORT_KEYS, PORT_BASES, used);
      AssignIsFirstFit(call, PORT_KEYS, PORT_BASES, used, map[], used, 0);
      assert later[call.id].ports == ports;
      FreshIsDistinct(call, PORT_KEYS, PORT_BASES, used, later[call.id]);
      forall k, q, port | k in others && Holds(later[k], q, port) ensures port in used {
        assert others[k].ports[q].value == port;
      }
    }
  }

  // A new allocation is first-fit against every numeric port that survives
  // reclamation, and a call fails only when some key has no usable port left.
  lemma AllocationIsFirstFit(data: Registry, call: Call)
    requires !Reusable(data, call)
    ensures var used := ManagedPorts(Reclaimed(data, call), call.id);
      match Allocate(data, call)
      case Some(later) => FreshUpTo(call, PORT_KEYS, PORT_BASES, used, later[call.id].ports, |PORT_KEYS|)
      case None => Exhausted(call, PORT_KEYS, PORT_BASES, used)
  {
    var kept := Reclaimed(data, call);
    var others := kept - {call.id};
    var used := ManagedPorts(others, call.id);
    assert used == ManagedPorts(kept, call.id) by {
      assert forall k | k in kept && k != call.id :: k in others && others[k] == kept[k];
    }
    PortKeysDiffer();
    NothingChosen(call, PORT_KEYS, PORT_BASES, used);
    AssignIsFirstFit(call, PORT_KEYS, PORT_BASES, used, map[], used, 0);
  }

  // One call keeps ports disjoint, whatever an older registry may hold.
  lemma AllocateKeepsDisjoint(data: Registry, call: Call)
    requires Disjoint(data) && Allocate(data, call).Some?
    ensures Disjoint(Allocate(data, call).value)
  {
    AllocateShape(data, call);
    var later := Allocate(data, call).value;
    forall a, b, p, q, port | a in later && b in later && a != b && Holds(later[a], p, port)
      ensures !Holds(later[b], q, port)
    {
      if Holds(later[b], q, port) {
        if Reusable(data, call) || (a != call.id && b != call.id) {
          assert Holds(data[a], p, port) && Holds(data[b], q, port);
        }
      }
    }
  }

  lemma EnsureKeepsSound(state: Runtime, call: Call)
    requires Sound(state)
    ensures Sound(Ensure(state, call).0)
  {
    if Allocate(state.allocations, call).Some? {
      AllocateShape(state.allocations, call);
      AllocateKeepsDisjoint(state.allocations, call);
      var data := Allocate(state.allocations, call).value;
      if Reusable(state.allocations, call) {
        var before, after := state.allocations[call.id], data[call.id];
        assert forall p, port :: Holds(after, p, port) <==> Holds(before, p, port);
        assert Complete(after) && DistinctPorts(after);
      }
      forall k | k in data
        ensures data[k].id == k && Complete(data[k]) && DistinctPorts(data[k])
      {
      }
      assert RegisteredIds(data) == data.Keys by {
        forall k | k in data ensures k in RegisteredIds(data) { assert data[k].id == k; }
      }
    }
  }

  // Whatever calls are made and whatever Git, Docker and the ports answer, the
  // integer ports of different allocations never meet, the ports inside each
  // allocation are distinct, and there is exactly one environment file for each
  // registered allocation.
  lemma {:induction false} AllocationsStayDisjoint(state: Runtime, calls: seq<Call>)
    requires Sound(state)
    ensures Sound(EnsureAll(state, calls))
    decreases |calls|
  {
    if calls != [] {
      EnsureKeepsSound(state, calls[0]);
      AllocationsStayDisjoint(Ensure(state, calls[0]).0, calls[1..]);
    }
  }

  lemma EmptyIsSound()
    ensures Sound(Runtime(map[], {}))
  {
  }

  // ---- what a call records, keeps and removes ------------------------------------------------

  // The names that a record of projects holds.
  function Named(projects: map<string, string>): set<string> {
    set p | p in projects && projects[p] != "" :: projects[p]
  }

  // Git does not list the path, and Docker, asked for the named projects, answers that
  // none of them runs.  No named projects, no proof.
  predicate ProvedStopped(call: Call, path: string, projects: map<string, string>) {
    && path !in call.active
    && Named(projects) != {} && call.docker(Named(projects)) == Some(false)
  }

  // Another worktree's call removes an allocation exactly when it completes, Git
  // no longer lists the worktree and Docker proves its projects stopped.
  lemma ReclaimedIff(state: Runtime, call: Call, id: string)
    requires id in state.allocations && id != call.id
    ensures var (later, completed) := Ensure(state, call);
      var item := state.allocations[id];
      && (id !in later.allocations <==> completed && ProvedStopped(call, item.worktree, item.projects))
      && (id in later.allocations ==> later.allocations[id] == item)
  {
    assert Named(state.allocations[id].projects) == ProjectNames(state.allocations[id]);
  }

  // What a completed call leaves for its own worktree: the record it had, under the new
  // branch and with a builder if it had none, or a new one with the projects and the
  // builder of the call.  A call that does not complete leaves everything as it was.
  lemma CallerRecord(state: Runtime, call: Call)
    ensures var (later, completed) := Ensure(state, call);
      if !completed then later == state
      else
        && call.id in later.allocations && call.id in later.envFiles
        && var item := later.allocations[call.id];
        && item.worktree == call.path && item.branch == call.branch
        && if call.id in state.allocations && state.allocations[call.id].worktree == call.path
              && forall k | 0 <= k < |PORT_KEYS| :: PORT_KEYS[k] in state.allocations[call.id].ports then
             var was := state.allocations[call.id];
             && item.id == was.id && item.ports == was.ports && item.projects == was.projects
             && item.builder == (if was.builder.Some? then was.builder else Some(call.builder))
           else
             && item.id == call.id && item.projects == call.projects && item.builder == Some(call.builder)
             && (forall p :: p in item.ports <==> p in PORT_KEYS)
  {
    if Ensure(state, call).1 && !Reusable(state.allocations, call) { NewRecordNamesPorts(state.allocations, call); }
  }

  lemma NewRecordNamesPorts(data: Registry, call: Call)
    requires !Reusable(data, call) && Allocate(data, call).Some?
    ensures forall p :: p in Allocate(data, call).value[call.id].ports <==> p in PORT_KEYS
  {
    var others := Reclaimed(data, call) - {call.id};
    var used := ManagedPorts(others, call.id);
    PortKeysDiffer();
    NothingChosen(call, PORT_KEYS, PORT_BASES, used);
    AssignIsFirstFit(call, PORT_KEYS, PORT_BASES, used, map[], used, 0);
    var ports := Allocate(data, call).value[call.id].ports;
    assert ports == Assign(call, PORT_KEYS, PORT_BASES, used, map[], 0).value;
    AllNamed(call, PORT_KEYS, PORT_BASES, used, ports);
  }

  lemma AllNamed(call: Call, keys: seq<string>, bases: seq<int>, used: set<int>, ports: map<string, PortValue>)
    requires |keys| == |bases|
    requires FreshUpTo(call, keys, bases, used, ports, |keys|) && NamesAmong(keys, ports, |keys|)
    ensures forall p :: p in ports <==> p in keys
  {
    forall p ensures p in ports <==> p in keys {
      if p in keys { var k :| 0 <= k < |keys| && keys[k] == p; }
    }
  }

  // Some call of the series completes and proves the allocation stopped.
  ghost predicate SomeoneReclaims(state: Runtime, calls: seq<Call>, path: string, projects: map<string, string>)
    decreases |calls|
  {
    calls != []
    && var (next, completed) := Ensure(state, calls[0]);
       (completed && ProvedStopped(calls[0], path, projects)) || SomeoneReclaims(next, calls[1..], path, projects)
  }

  // Through any calls for other worktrees an allocation stays, unchanged, exactly until
  // the first that completes and proves it stopped.
  lemma {:induction false} LastsIff(state: Runtime, calls: seq<Call>, id: string)
    requires id in state.allocations && forall i | 0 <= i < |calls| :: calls[i].id != id
    ensures var item, later := state.allocations[id], EnsureAll(state, calls);
      && (id in later.allocations <==> !SomeoneReclaims(state, calls, item.worktree, item.projects))
      && (id in later.allocations ==> later.allocations[id] == item)
    decreases |calls|
  {
    if calls != [] {
      var (next, completed) := Ensure(state, calls[0]);
      ReclaimedIff(state, calls[0], id);
      assert forall i | 0 <= i < |calls| - 1 :: calls[1..][i] == calls[i + 1];
      if id in next.allocations {
        LastsIff(next, calls[1..], id);
      } else {
        NotBroughtBack(next, calls[1..], id);
      }
    }
  }

  lemma {:induction false} NotBroughtBack(state: Runtime, calls: seq<Call>, id: string)
    requires id !in state.allocations && forall i | 0 <= i < |calls| :: calls[i].id != id
    ensures id !in EnsureAll(state, calls).allocations
    decreases |calls|
  {
    if calls != [] {
      assert forall i | 0 <= i < |calls| - 1 :: calls[1..][i] == calls[i + 1];
      OthersAppearNot(state, calls[0], id);
      NotBroughtBack(Ensure(state, calls[0]).0, calls[1..], id);
    }
  }

  lemma OthersAppearNot(state: Runtime, call: Call, id: string)
    requires id !in state.allocations && id != call.id
    ensures id !in Ensure(state, call).0.allocations
  {
  }

  // An allocation that a call makes is removed by the first later call for another
  // worktree that completes, does not see the path listed, and is told that the projects
  // given when it was made are stopped; until then it stays.
  lemma MadeLastsIff(state: Runtime, made: Call, calls: seq<Call>)
    requires Ensure(state, made).1 && !Reusable(state.allocations, made)
    requires forall i | 0 <= i < |calls| :: calls[i].id != made.id
    ensures var first := Ensure(state, made).0;
      made.id in EnsureAll(first, calls).allocations <==> !SomeoneReclaims(first, calls, made.path, made.projects)
  {
    CallerRecord(state, made);
    LastsIff(Ensure(state, made).0, calls, made.id);
  }

  // The call neither proves the worktree's allocation stopped nor takes its id for
  // another path.
  ghost predicate Respects(call: Call, id: string, item: Allocation) {
    if call.id == id then call.path == item.worktree else !ProvedStopped(call, item.worktree, item.projects)
  }

  // A complete allocation keeps its ports through any number of calls, its own
  // included, as long as Git lists the worktree or Docker does not prove it
  // stopped.
  lemma {:induction false} AllocationIsStable(state: Runtime, calls: seq<Call>, id: string)
    requires id in state.allocations && Complete(state.allocations[id])
    requires forall i | 0 <= i < |calls| :: Respects(calls[i], id, state.allocations[id])
    ensures var later := EnsureAll(state, calls);
      && id in later.allocations
      && later.allocations[id].ports == state.allocations[id].ports
      && later.allocations[id].worktree == state.allocations[id].worktree
    decreases |calls|
  {
    if calls != [] {
      var next := Ensure(state, calls[0]).0;
      if calls[0].id != id {
        ReclaimedIff(state, calls[0], id);
      }
      var item, item' := state.allocations[id], next.allocations[id];
      assert item'.projects == item.projects && item'.worktree == item.worktree && item'.ports == item.ports;
      forall i | 0 <= i < |calls[1..]| ensures Respects(calls[1..][i], id, item') {
        assert calls[1..][i] == calls[i + 1];
      }
      AllocationIsStable(next, calls[1..], id);
    }
  }

  // The worktree that holds an id keeps it, with its ports.
  predicate Keeps(later: Registry, id: string, item: Allocation) {
    id in later && later[id].worktree == item.worktree && later[id].ports == item.ports
  }

  // And no condition weaker than that will do: one call keeps a complete allocation
  // exactly when it fails, or is a call of the same worktree, or is a call for another
  // id that does not prove the allocation stopped.
  lemma KeptIff(state: Runtime, call: Call, id: string)
    requires id in state.allocations && Complete(state.allocations[id])
    ensures var (later, completed) := Ensure(state, call);
      Keeps(later.allocations, id, state.allocations[id])
      <==> !completed || Respects(call, id, state.allocations[id])
  {
    if call.id != id { ReclaimedIff(state, call, id); }
  }

  // ---- the code --------------------------------------------------------------------------------

  method ReclaimStaleAllocations(data: Registry, call: Call) returns (kept: Registry)
    ensures kept == Reclaimed(data, call)
  {
    kept := data;
    var pending := data.Keys;
    while pending != {}
      invariant pending <= data.Keys
      invariant kept == map id | id in data && (id in pending || id == call.id || !Stale(call, data[id])) :: data[id]
      decreases pending
    {
      var id :| id in pending;
      pending := pending - {id};
      if id != call.id && data[id].worktree !in call.active {
        var running := Running(call, ProjectNames(data[id]));
        if running == Some(false) {
          kept := kept - {id};
        }
      }
    }
  }

  method FindManagedPorts(data: Registry, id: string) returns (used: set<int>)
    ensures used == ManagedPorts(data, id)
  {
    used := {};
    var pending := data.Keys;
    while pending != {}
      invariant pending <= data.Keys
      invariant used == set k, p | k in data && k !in pending && k != id && p in data[k].ports
                                   && data[k].ports[p].Number? :: data[k].ports[p].value
      decreases pending
    {
      var k :| k in pending;
      pending := pending - {k};
      if k != id {
        var ports := data[k].ports;
        used := used + set p | p in ports && ports[p].Number? :: ports[p].value;
      }
    }
  }

  // The search loops of `allocate`: for each key, step to the next candidate until
  // it is neither used nor bound.
  method ChoosePorts(call: Call, keys: seq<string>, bases: seq<int>, managed: set<int>)
    returns (ports: Option<map<string, PortValue>>)
    requires |keys| == |bases|
    ensures ports == Assign(call, keys, bases, managed, map[], 0)
  {
    var used := managed;
    var chosen: map<string, PortValue> := map[];
    for k := 0 to |keys|
      invariant Assign(call, keys, bases, managed, map[], 0) == Assign(call, keys, bases, used, chosen, k)
    {
      var candidate := bases[k];
      while candidate <= LAST_PORT && (candidate in used || !call.bindable(keys[k], candidate))
        invariant Search(call, keys[k], used, bases[k]) == Search(call, keys[k], used, candidate)
        decreases LAST_PORT + 1 - candidate
      {
        candidate := candidate + 1;
      }
      if candidate > LAST_PORT {
        return None;
      }
      chosen := chosen[keys[k] := Number(candidate)];
      used := used + {candidate};
    }
    ports := Some(chosen);
  }

  class SharedRegistry {
    var allocations: Registry
    var envFiles: set<string>

    function State(): Runtime
      reads this
    {
      Runtime(allocations, envFiles)
    }

    constructor ()
      ensures State() == Runtime(map[], {}) && Sound(State())
    {
      allocations, envFiles := map[], {};
    }

    method EnsureWorktree(call: Call) returns (ok: bool)
      modifies this
      ensures (State(), ok) == Ensure(old(State()), call)
    {
      var data := ReclaimStaleAllocations(allocations, call);
      if call.id in data && data[call.id].worktree == call.path
         && forall k | 0 <= k < |PORT_KEYS| :: PORT_KEYS[k] in data[call.id].ports {
        var existing := data[call.id].(branch := call.branch);
        if existing.builder.None? {
          existing := existing.(builder := Some(call.builder));
        }
        data := data[call.id := existing];
      } else {
        data := data - {call.id};
        var used := FindManagedPorts(data, call.id);
        var ports := ChoosePorts(call, PORT_KEYS, PORT_BASES, used);
        if ports.None? {
          return false;
        }
        data := data[call.id := Allocation(call.path, call.branch, call.id, ports.value, call.projects,
                                           Some(call.builder))];
      }
      RemoveUnregistered(data);
      allocations := data;
      envFiles := envFiles + {call.id};
      ok := true;
    }

    method RemoveUnregistered(data: Registry)
      modifies this`envFiles
      ensures envFiles == old(envFiles) * RegisteredIds(data)
    {
      var ids := RegisteredIds(data);
      var pending := envFiles;
      while pending != {}
        invariant pending <= old(envFiles)
        invariant envFiles == set f | f in old(envFiles) && (f in pending || f in ids)
        decreases pending
      {
        var f :| f in pending;
        pending := pending - {f};
        if f !in ids {
          envFiles := envFiles - {f};
        }
      }
    }
  }
}
