/** PlanCapacity as the source runs it: one mutable run, from the inventory to the finished plan. */
module PlannerRun {
  import opened Model
  import opened NodeBudget
  import opened Ledgers
  import opened PoolPlanner
  import opened DriveCoreCounts
  import opened Planner
  import opened PlanRuns
  import FreshFds
  import CP = ComputePlanner
  import CR = ComputeRuns
  import Pool = PoolRuns

  // ----- the order of the pools -----

  method NodesUsed(existing: seq<ExistingContainer>, p: PoolKind) returns (used: set<string>)
    ensures used == FreshFds.PoolNodeUsed(existing, p)
  {
    used := {};
    for i := 0 to |existing|
      invariant used == FreshFds.PoolNodeUsed(existing[..i], p)
    {
      assert existing[..i + 1] == existing[..i] + [existing[i]];
      if existing[i].caps.Of(p) > 0 && existing[i].node != "" { used := used + {existing[i].node}; }
    }
    assert existing[..|existing|] == existing;
  }

  method CountPoolCapableNodes(run: PlanRun, p: PoolKind) returns (count: nat)
    ensures count == |CapableNodes(run.Place(), p)|
  {
    var used := NodesUsed(run.existing, p);
    var capable: set<string> := {};
    var left := run.states.Keys;
    while left != {}
      invariant left <= run.states.Keys
      invariant forall n :: n in capable <==> n in run.states.Keys - left && n in CapableNodes(run.Place(), p)
      decreases left
    {
      var n :| n in left;
      left := left - {n};
      var nc := run.states[n].nc;
      if nc.drives.Of(p) > 0 && (nc.ineligibleReason == "" || n in used) { capable := capable + {n}; }
    }
    assert capable == CapableNodes(run.Place(), p);
    count := |capable|;
  }

  method ChooseFirst(run: PlanRun, raw: Caps) returns (first: PoolKind)
    ensures first == FirstPool(run.Place(), raw)
  {
    hide CapableNodes;
    first := TLC;
    if raw.tlc > 0 && raw.qlc > 0 {
      var qlc := CountPoolCapableNodes(run, QLC);
      var tlc := CountPoolCapableNodes(run, TLC);
      if qlc < tlc { first := QLC; }
    }
  }

  method PlanBothPools(run: PlanRun, raw: Caps, minFd: int, targets: Caps) returns (notes: Notes)
    requires run.Valid() && UniqueNames(run.existing) && run.Value() == Opening(run.Place().inv)
    modifies run, run.states.Values
    ensures PoolState(run.Value(), notes) == PlanPools(run.Place(), raw, minFd, targets)
  {
    hide PlanPool, FirstPool;
    var first := ChooseFirst(run, raw);
    var second := first.Other();
    notes := Pool.PlanPool(run, NO_NOTES, first, raw.Of(first), minFd, targets.Of(first));
    notes := Pool.PlanPool(run, notes, second, raw.Of(second), minFd, targets.Of(second));
  }

  // ----- emission -----

  predicate Pins(caps: Caps, cores: int, driveCores: int, cons: Constraints) {
    var pin := PinCores(caps, driveCores, cons); pin.Pinned? && pin.cores == cores
  }

  ghost predicate CoresRecorded(growth: map<string, Caps>, names: seq<string>, cores: map<string, int>, driveCores: int,
      cons: Constraints)
    requires forall i :: 0 <= i < |names| ==> names[i] in growth
  {
    forall i :: 0 <= i < |names| ==> names[i] in cores && Pins(growth[names[i]], cores[names[i]], driveCores, cons)
  }

  lemma {:induction false} GrowStops(growth: map<string, Caps>, names: seq<string>, i: nat, driveCores: int,
      cons: Constraints)
    requires i <= |names| && (forall j :: 0 <= j < |names| ==> names[j] in growth)
    requires !EmitGrow(growth, names[..i], driveCores, cons).ok
    ensures EmitGrow(growth, names, driveCores, cons) == EmitGrow(growth, names[..i], driveCores, cons)
  {
    if i < |names| {
      assert names[..|names| - 1][..i] == names[..i];
      GrowStops(growth, names[..|names| - 1], i, driveCores, cons);
    } else {
      assert names[..i] == names;
    }
  }

  /** Growth records by name, each with its pinned core count. */
  method EmitGrowth(growth: map<string, Caps>, names: seq<string>, driveCores: int, cons: Constraints)
    returns (list: seq<ContainerGrowth>, newCores: map<string, int>, ok: bool)
    requires forall i :: 0 <= i < |names| ==> names[i] in growth
    ensures GrowList(list, ok) == EmitGrow(growth, names, driveCores, cons)
    ensures ok ==> CoresRecorded(growth, names, newCores, driveCores, cons)
  {
    hide PinCores;
    list, newCores, ok := [], map[], true;
    for i := 0 to |names|
      invariant GrowList(list, true) == EmitGrow(growth, names[..i], driveCores, cons)
      invariant CoresRecorded(growth, names[..i], newCores, driveCores, cons)
    {
      assert names[..i + 1][..i] == names[..i];
      var pin := PinCores(growth[names[i]], driveCores, cons);
      if pin.TooManyCores? {
        GrowStops(growth, names, i + 1, driveCores, cons);
        return list, newCores, false;
      }
      newCores := newCores[names[i] := pin.cores];
      list := list + [ContainerGrowth(names[i], growth[names[i]], pin.cores)];
    }
    assert names[..|names|] == names;
  }

  lemma CreateNext(s: Site, l: Ledger, nodes: seq<string>, i: nat, driveCores: int)
    requires Tracks(s, l) && i < |nodes| && forall j :: 0 <= j < |nodes| ==> nodes[j] in l.created
    requires EmitCreate(s, l, nodes[..i], driveCores).failure.None?
    ensures var prior, node := EmitCreate(s, l, nodes[..i], driveCores), nodes[i];
      var n := l.created[node];
      EmitCreate(s, l, nodes[..i + 1], driveCores) ==
        match PinCores(n.caps, driveCores, s.cons)
        case TooManyCores => prior.(failure := Some(Report(ClusterWide, DriveCores, 0)))
        case Pinned(cores, derived) =>
          var entry := NewContainer(node, n.fd, n.caps, cores);
          if node !in s.inv then prior.(list := prior.list + [entry])
          else if !CanReserve(s.inv[node], prior.budgets[node], cores - derived, s.cons) then
            prior.(failure := Some(Report(ClusterWide, Cores, 0)))
          else
            prior.(list := prior.list + [entry],
                   budgets := prior.budgets[node := Reserve(s.inv[node], prior.budgets[node], cores - derived, s.cons)])
  {
    assert nodes[..i + 1][..i] == nodes[..i];
  }

  lemma {:induction false} CreateStops(s: Site, l: Ledger, nodes: seq<string>, i: nat, driveCores: int)
    requires Tracks(s, l) && i <= |nodes| && (forall j :: 0 <= j < |nodes| ==> nodes[j] in l.created)
    requires EmitCreate(s, l, nodes[..i], driveCores).failure.Some?
    ensures EmitCreate(s, l, nodes, driveCores) == EmitCreate(s, l, nodes[..i], driveCores)
  {
    if i < |nodes| {
      assert nodes[..|nodes| - 1][..i] == nodes[..i];
      CreateStops(s, l, nodes[..|nodes| - 1], i, driveCores);
    } else {
      assert nodes[..i] == nodes;
    }
  }

  method ReserveOn(run: PlanRun, node: string, cores: int) returns (ok: bool)
    requires run.Valid() && node in run.states
    modifies run.states[node]
    ensures ok == CanReserve(run.states[node].nc, old(run.Value()).budgets[node], cores, run.cons)
    ensures run.Value() == if !ok then old(run.Value()) else
      old(run.Value()).(budgets :=
        old(run.Value()).budgets[node := Reserve(run.states[node].nc, old(run.Value()).budgets[node], cores, run.cons)])
  {
    hide CanReserve, Reserve;
    ghost var b := run.Value().budgets;
    ok := run.states[node].ReserveCores(cores, run.cons);
    run.SetOne(b, node);
    assert !ok ==> run.Value().budgets == b;
  }

  /** New containers by node; a pinned surplus over the derived cores is charged to the node. */
  method EmitCreates(run: PlanRun, nodes: seq<string>, driveCores: int)
    returns (list: seq<NewContainer>, failure: Option<Report>)
    requires run.Valid() && forall i :: 0 <= i < |nodes| ==> nodes[i] in run.newByNode
    modifies run.states.Values
    ensures CreateList(list, run.Value().budgets, failure) ==
      EmitCreate(run.Place(), old(run.Value()), nodes, driveCores)
    ensures run.Value() == old(run.Value()).(budgets := run.Value().budgets)
  {
    hide PinCores, CanReserve, Reserve, EmitCreate;
    ghost var s, l := run.Place(), run.Value();
    list, failure := [], None;
    NoCreates(s, l, nodes, driveCores);
    for i := 0 to |nodes|
      invariant CreateList(list, run.Value().budgets, None) == EmitCreate(s, l, nodes[..i], driveCores)
      invariant run.Value() == l.(budgets := run.Value().budgets)
    {
      CreateNext(s, l, nodes, i, driveCores);
      var n := run.newByNode[nodes[i]];
      var pin := PinCores(n.caps, driveCores, run.cons);
      if pin.TooManyCores? {
        CreateStops(s, l, nodes, i + 1, driveCores);
        return list, Some(Report(ClusterWide, DriveCores, 0));
      }
      if nodes[i] in run.states {
        var ok := ReserveOn(run, nodes[i], pin.cores - pin.derived);
        if !ok {
          CreateStops(s, l, nodes, i + 1, driveCores);
          return list, Some(Report(ClusterWide, Cores, 0));
        }
      }
      list := list + [NewContainer(nodes[i], n.fd, n.caps, pin.cores)];
    }
    assert nodes[..|nodes|] == nodes;
  }

  lemma NoCreates(s: Site, l: Ledger, nodes: seq<string>, driveCores: int)
    requires Tracks(s, l) && forall j :: 0 <= j < |nodes| ==> nodes[j] in l.created
    ensures EmitCreate(s, l, nodes[..0], driveCores) == CreateList([], l.budgets, None)
  {
  }

  method CountDriveFds(run: PlanRun) returns (count: nat)
    ensures count == |DistinctDriveFds(run.Place(), run.Value())|
  {
    var existing, created := run.existing, run.newByNode;
    var held: set<string> := {};
    for i := 0 to |existing|
      invariant held == set c | c in existing[..i] && c.fdValue != "" :: c.fdValue
    {
      assert existing[..i + 1] == existing[..i] + [existing[i]];
      if existing[i].fdValue != "" { held := held + {existing[i].fdValue}; }
    }
    assert existing[..|existing|] == existing;
    var started: set<string> := {};
    var left := created.Keys;
    while left != {}
      invariant left <= created.Keys
      invariant started == set n | n in created && n !in left && created[n].fd != "" :: created[n].fd
      decreases left
    {
      var n :| n in left;
      left := left - {n};
      if created[n].fd != "" { started := started + {created[n].fd}; }
    }
    assert held + started == DistinctDriveFds(run.Place(), run.Value());
    count := |held + started|;
  }

  // ----- core totals -----

  /** totalTlcDriveCores and totalQlcDriveCores over the existing containers. */
  method ExistingTotals(run: PlanRun, newCores: map<string, int>, driveCores: int) returns (tlc: int, qlc: int)
    requires forall name :: name in run.growth ==>
      name in newCores && Pins(run.growth[name], newCores[name], driveCores, run.cons)
    ensures tlc == ExistingTlcCores(run.existing, run.Value(), driveCores, run.cons)
    ensures qlc == ExistingQlcCores(run.existing, run.Value(), driveCores, run.cons)
  {
    hide PinCores, TlcCores, QlcCores;
    ghost var l := run.Value();
    var existing := run.existing;
    tlc, qlc := 0, 0;
    for i := 0 to |existing|
      invariant tlc == ExistingTlcCores(existing[..i], l, driveCores, run.cons)
      invariant qlc == ExistingQlcCores(existing[..i], l, driveCores, run.cons)
    {
      assert existing[..i + 1][..i] == existing[..i];
      var c := existing[i];
      var caps := if c.name in run.growth then run.growth[c.name] else c.caps;
      var cores := if c.name in run.growth then newCores[c.name] else c.numCores;
      tlc, qlc := tlc + TlcCores(caps, cores, run.cons), qlc + QlcCores(caps, cores, run.cons);
    }
    assert existing[..|existing|] == existing;
  }

  method NewTotals(create: seq<NewContainer>, cons: Constraints) returns (tlc: int, qlc: int)
    ensures tlc == NewTlcCores(create, cons) && qlc == NewQlcCores(create, cons)
  {
    hide TlcCores, QlcCores;
    tlc, qlc := 0, 0;
    for i := 0 to |create|
      invariant tlc == NewTlcCores(create[..i], cons) && qlc == NewQlcCores(create[..i], cons)
    {
      assert create[..i + 1][..i] == create[..i];
      tlc := tlc + TlcCores(create[i].caps, create[i].numCores, cons);
      qlc := qlc + QlcCores(create[i].caps, create[i].numCores, cons);
    }
    assert create[..|create|] == create;
  }

  // ----- the plan -----

  datatype Emitted = Emitted(grow: seq<ContainerGrowth>, create: seq<NewContainer>, newCores: map<string, int>,
    failure: Option<Report>)

  method EmitAll(run: PlanRun, driveCores: int) returns (e: Emitted)
    requires run.Valid()
    modifies run.states.Values
    ensures Emission(e.grow, e.create, run.Value().budgets, e.failure) ==
      Emit(run.Place(), old(run.Value()), driveCores)
    ensures run.Value() == old(run.Value()).(budgets := run.Value().budgets)
    ensures e.failure.None? ==>
      forall name :: name in run.growth ==>
        name in e.newCores && Pins(run.growth[name], e.newCores[name], driveCores, run.cons)
  {
    hide EmitGrow, EmitCreate, CP.SortedNames, CR.Ascending, PinCores;
    ghost var s, l := run.Place(), run.Value();
    var names := CR.SortNames(run.growth.Keys);
    assert names == Recorded(l.growth.Keys);
    var grow, newCores, ok := EmitGrowth(run.growth, names, driveCores, run.cons);
    if !ok { return Emitted(grow, [], newCores, Some(Report(ClusterWide, DriveCores, 0))); }
    forall name | name in run.growth
      ensures name in newCores && Pins(run.growth[name], newCores[name], driveCores, run.cons) {
      assert name in names;
    }
    var nodes := CR.SortNames(run.newByNode.Keys);
    assert nodes == Recorded(l.created.Keys);
    var create, failure := EmitCreates(run, nodes, driveCores);
    return Emitted(grow, create, newCores, failure);
  }

  /** The rest of the plan once the drive core totals are known. */
  lemma Sized(input: Input, st: PoolState, e: Emission, tlc: int, qlc: int)
    requires Tracks(input.Place(), st.ledger) && e.budgets.Keys == input.Place().inv.Keys
    requires tlc == ExistingTlcCores(input.drives, st.ledger, input.desired.driveCores, input.cons) +
      NewTlcCores(e.create, input.cons)
    requires qlc == ExistingQlcCores(input.drives, st.ledger, input.desired.driveCores, input.cons) +
      NewQlcCores(e.create, input.cons)
    ensures var required := RequiredComputeCores(tlc, qlc, false, input.cons);
      var plan := CapacityPlan(e.grow, e.create, tlc, qlc, required, 0, 0, [], st.notes);
      WithCompute(input, st, e) ==
      if st.notes.infeasible.Some? then plan else
        match ComputeOf(input, e.budgets, required)
        case Failed(report) => plan.(notes := st.notes.(infeasible := Some(report)))
        case Placed(_, layout, count, cores) =>
          plan.(computeContainers := count, computeCores := cores, layout := layout)
  {
    hide ComputeOf, RequiredComputeCores, ExistingTlcCores, ExistingQlcCores, NewTlcCores, NewQlcCores, InventoryMap;
  }

  /** Totals, required compute cores and the compute stage. */
  method SizeAndFinish(run: PlanRun, input: Input, notes: Notes, e: Emitted, ghost l: Ledger)
    returns (plan: CapacityPlan)
    requires run.Valid() && run.Place() == input.Place() && run.Value() == l.(budgets := run.Value().budgets)
    requires Tracks(input.Place(), l)
    requires forall name :: name in run.growth ==>
      name in e.newCores && Pins(run.growth[name], e.newCores[name], input.desired.driveCores, run.cons)
    modifies run.states.Values
    ensures plan == WithCompute(input, PoolState(l, notes),
      Emission(e.grow, e.create, old(run.Value()).budgets, e.failure))
  {
    hide Pins, CP.PlanCompute, RequiredComputeCores, ExistingTlcCores, ExistingQlcCores, NewTlcCores, NewQlcCores,
      InventoryMap, WithCompute;
    var oldTlc, oldQlc := ExistingTotals(run, e.newCores, input.desired.driveCores);
    SameTotals(run.existing, run.Value(), l, input.desired.driveCores, run.cons);
    var newTlc, newQlc := NewTotals(e.create, run.cons);
    var tlc, qlc := oldTlc + newTlc, oldQlc + newQlc;
    var required := RequiredComputeCores(tlc, qlc, false, run.cons);
    plan := CapacityPlan(e.grow, e.create, tlc, qlc, required, 0, 0, [], notes);
    Sized(input, PoolState(l, notes), Emission(e.grow, e.create, run.Value().budgets, e.failure), tlc, qlc);
    if notes.infeasible.Some? { return; }
    if input.computeNodes.None? {
      plan := plan.(notes := notes.(infeasible := Some(Report(ComputeStage, Unclassified, 0))));
      return;
    }
    var r := CR.PlanCompute(run, input.desired, input.scheme.MinFdNum(), input.compute,
      input.computeNodes.value, required);
    match r {
      case Unplaced(report) => plan := plan.(notes := notes.(infeasible := Some(report)));
      case Settled(layout, count, cores) =>
        plan := plan.(computeContainers := count, computeCores := cores, layout := layout);
    }
  }

  /** Core totals do not depend on the node budgets. */
  lemma {:induction false} SameTotals(existing: seq<ExistingContainer>, l: Ledger, l': Ledger, driveCores: int,
      cons: Constraints)
    requires l.growth == l'.growth
    ensures ExistingTlcCores(existing, l, driveCores, cons) == ExistingTlcCores(existing, l', driveCores, cons)
    ensures ExistingQlcCores(existing, l, driveCores, cons) == ExistingQlcCores(existing, l', driveCores, cons)
  {
    if existing != [] { SameTotals(existing[..|existing| - 1], l, l', driveCores, cons); }
  }

  /** From placed pools to the plan: emit, check an explicit container count, then size compute. */
  method Complete(run: PlanRun, input: Input, notes: Notes) returns (plan: CapacityPlan)
    requires run.Valid() && run.Place() == input.Place()
    modifies run.states.Values
    ensures plan == Completed(input, PoolState(old(run.Value()), notes))
  {
    hide Emit, WithCompute, DistinctDriveFds, Pins, InventoryMap;
    ghost var l := run.Value();
    var e := EmitAll(run, input.desired.driveCores);
    var partial := EMPTY_PLAN.(grow := e.grow, create := e.create, notes := notes);
    if e.failure.Some? { return partial.(notes := notes.(infeasible := e.failure)); }
    if notes.infeasible.None? && input.desired.driveContainers > 0 {
      var got := CountDriveFds(run);
      SameFds(run.Place(), run.Value(), l);
      if got != input.desired.driveContainers {
        return partial.(notes := notes.(infeasible := Some(Report(ClusterWide, DriveContainers, 0))));
      }
    }
    plan := SizeAndFinish(run, input, notes, e, l);
  }

  lemma SameFds(s: Site, l: Ledger, l': Ledger)
    requires l.created == l'.created
    ensures DistinctDriveFds(s, l) == DistinctDriveFds(s, l')
  {
  }

  /** The whole planner, step by step on mutable state, computes exactly the plan the theorems are about. */
  method PlanCapacity(input: Input) returns (plan: CapacityPlan)
    requires UniqueNames(input.drives)
    ensures plan == Planner.PlanCapacity(input)
  {
    hide Emit, WithCompute, DistinctDriveFds, PlanPools, InventoryMap, Completed;
    if !ProtectionOk(input.scheme, input.cons) { return Rejection(Report(ClusterWide, Protection, 0)); }
    var minFd := input.scheme.MinFdNum();
    var targets := NO_CAPS;
    if input.desired.driveContainers > 0 {
      var split := SplitDriveContainers(input.desired, minFd);
      if split.None? { return Rejection(Report(ClusterWide, DriveContainers, 0)); }
      targets := split.value;
    }
    var run := new PlanRun(input.inventory, input.drives, input.cons);
    var notes := PlanBothPools(run, input.desired.raw, minFd, targets);
    plan := Complete(run, input, notes);
  }
}
