/** Whole-plan theorems for auto mode. */
module FleetTheorems {
  import opened Arith
  import opened Model
  import opened NodeBudget
  import opened Ledgers
  import opened Placement
  import opened Ordering
  import opened PoolDecision
  import opened PoolPlanner
  import opened DriveCoreCounts
  import opened Planner
  import opened EmissionFacts
  import opened PlanTheorems
  import opened AutoMode
  import opened AutoTheorems
  import opened JointFit
  import Cpu
  import HugepageSizing
  import CP = ComputePlanner
  import CG = ComputeGuarantees
  import LC = LaidComputes

  // ----- created containers with their pinned cores -----

  /** Reservations touch only the nodes emitted so far, each by its own surplus. */
  lemma {:induction false} EmitLocal(s: Site, l: Ledger, nodes: seq<string>, driveCores: int, n: string)
    requires Tracks(s, l) && (forall i :: 0 <= i < |nodes| ==> nodes[i] in l.created) && Distinct(nodes) && n in s.inv
    requires EmitCreate(s, l, nodes, driveCores).failure.None?
    ensures var b := EmitCreate(s, l, nodes, driveCores).budgets;
      && (n !in nodes ==> b[n] == l.budgets[n])
      && (n in nodes ==>
           var pin := PinCores(l.created[n].caps, driveCores, s.cons);
           pin.Pinned? && b[n] == Reserve(s.inv[n], l.budgets[n], pin.cores - pin.derived, s.cons))
  {
    hide PinCores, Reserve, CanReserve;
    if nodes != [] {
      var init, last := nodes[..|nodes| - 1], nodes[|nodes| - 1];
      assert nodes == init + [last] && last !in init;
      EmitLocal(s, l, init, driveCores, n);
      if n != last { assert n in nodes <==> n in init; }
    }
  }

  lemma DerivedIsCharged(caps: Caps, cons: Constraints)
    requires caps.tlc >= 0 && caps.qlc >= 0 && (caps.tlc > 0 || caps.qlc > 0)
    requires (caps.tlc > 0 ==> cons.capacityPerCore.tlc > 0) && (caps.qlc > 0 ==> cons.capacityPerCore.qlc > 0)
    ensures RequiredDriveCores(caps, cons) == ChargedCores(caps, cons)
  {
    if caps.tlc > 0 { CeilDivCovers(caps.tlc, cons.capacityPerCore.tlc); }
    if caps.qlc > 0 { CeilDivCovers(caps.qlc, cons.capacityPerCore.qlc); }
  }

  /** Reserving a surplus keeps derived plus surplus cores covered. */
  lemma ReserveCovers(nc: NodeCapacity, b: Budget, derived: int, extra: int, cons: Constraints)
    requires extra >= 0 && Covers(nc, b, derived, cons)
    ensures Covers(nc, Reserve(nc, b, extra, cons), derived + extra, cons)
  {
    var m := Cpu.ModelFor(cons.cpuPolicy, Topo(nc));
    var hp := HugepageSizing.DriveHugepagesPerCore(cons);
    assert m.perCore * (derived + extra) == m.perCore * derived + m.perCore * extra;
    assert (derived + extra) * hp == derived * hp + extra * hp;
    assert (derived + extra) * cons.memoryPerCore == derived * cons.memoryPerCore + extra * cons.memoryPerCore;
    hide Cpu.ModelFor;
  }

  lemma PinDerived(caps: Caps, driveCores: int, cons: Constraints)
    requires PinCores(caps, driveCores, cons).Pinned?
    ensures PinCores(caps, driveCores, cons).derived == RequiredDriveCores(caps, cons)
  {
  }

  /** The k-th emitted container is eligible, on a drive-free node, and covered with its pinned cores. */
  ghost predicate WellPlaced(s: Site, b: map<string, Budget>, n: NewContainer)
    requires b.Keys == s.inv.Keys
  {
    && n.node in s.inv && s.inv[n.node].ineligibleReason == "" && HostOn(s.existing, n.node).None?
    && (n.caps.tlc > 0 || n.caps.qlc > 0)
    && Covers(s.inv[n.node], b[n.node], n.numCores, s.cons)
  }

  lemma PinnedCovered(s: Site, l: Ledger, driveCores: int, node: string)
    requires Tracks(s, l) && node in l.created && PaidNode(s, l, node)
    requires PinCores(l.created[node].caps, driveCores, s.cons).Pinned?
    ensures var pin := PinCores(l.created[node].caps, driveCores, s.cons);
      Covers(s.inv[node], Reserve(s.inv[node], l.budgets[node], pin.cores - pin.derived, s.cons), pin.cores, s.cons)
  {
    hide Covers, HostOn, Reserve, PinCores, RequiredDriveCores, ChargedCores;
    var caps := l.created[node].caps;
    var pin := PinCores(caps, driveCores, s.cons);
    PinnedEnough(caps, driveCores, s.cons);
    PinDerived(caps, driveCores, s.cons);
    DerivedIsCharged(caps, s.cons);
    ReserveCovers(s.inv[node], l.budgets[node], pin.derived, pin.cores - pin.derived, s.cons);
  }

  /** A list cut short is the complete list of the nodes before the cut. */
  lemma {:induction false} CutList(s: Site, l: Ledger, nodes: seq<string>, driveCores: int) returns (j: nat)
    requires Tracks(s, l) && forall i :: 0 <= i < |nodes| ==> nodes[i] in l.created
    ensures j <= |nodes|
    ensures var r, cut := EmitCreate(s, l, nodes, driveCores), EmitCreate(s, l, nodes[..j], driveCores);
      cut.failure.None? && r.list == cut.list && r.budgets == cut.budgets
  {
    hide PinCores, CanReserve, Reserve;
    if EmitCreate(s, l, nodes, driveCores).failure.None? {
      j := |nodes|;
      assert nodes[..j] == nodes;
    } else {
      var init := nodes[..|nodes| - 1];
      j := CutList(s, l, init, driveCores);
      if EmitCreate(s, l, init, driveCores).failure.None? {
        j := |init|;
      } else {
        assert init[..j] == nodes[..j];
      }
    }
  }

  lemma EmittedWellPlaced(s: Site, l: Ledger, driveCores: int, k: nat)
    requires Tracks(s, l) && Paid(s, l) && k < |Emit(s, l, driveCores).create|
    ensures WellPlaced(s, Emit(s, l, driveCores).budgets, Emit(s, l, driveCores).create[k])
  {
    hide Covers, HostOn, Reserve, PinCores, EmitCreate, EmitGrow, ChargedCores;
    var nodes := Recorded(l.created.Keys);
    RecordedFacts(l.created.Keys);
    var j := CutList(s, l, nodes, driveCores);
    var cut := nodes[..j];
    CreateEntries(s, l, cut, driveCores);
    var node := cut[k];
    assert node in cut;
    assert PaidNode(s, l, node);
    EmitLocal(s, l, cut, driveCores, node);
    PinnedCovered(s, l, driveCores, node);
  }

  /** Any plan's list of new containers is the emitted one, or empty. */
  lemma CreateIsEmitted(input: Input)
    ensures PlanCapacity(input).create == [] || PlanCapacity(input).create == EmissionOf(input).create
  {
    hide PlanPools, Emit, ComputeOf, DriveCoreCounts.RequiredComputeCores, DistinctDriveFds, ProtectionOk,
      SplitDriveContainers;
  }

  /**
   * In auto mode every new container of any plan, feasible or not, sits on an eligible drive-free node and is paid for
   * in full, pinned cores included.
   */
  lemma CreatedCovered(input: Input, k: nat)
    requires AutoSite(input.Place()) && PricedConstraints(input.cons)
    requires k < |PlanCapacity(input).create|
    ensures WellPlaced(input.Place(), EmissionOf(input).budgets, PlanCapacity(input).create[k])
  {
    hide PlanCapacity, PlanPools, Paid, WellPlaced, Emit, AutoSite;
    CreateIsEmitted(input);
    var s := input.Place();
    PoolsPaid(s, input.desired.raw, input.scheme.MinFdNum(), TargetsOf(input));
    EmittedWellPlaced(s, PoolsOf(input).ledger, input.desired.driveCores, k);
  }

  // ----- compute beside drives -----

  lemma AfterSolvent(s: Site, b: CP.Budgets, desired: DesiredCapacity, minFds: int, compute: seq<ExistingCompute>,
      eligible: set<string>, t: int, i: nat)
    requires CP.On(s, b) && eligible <= s.inv.Keys
    requires CP.PlanCompute(s, b, desired, minFds, compute, eligible, t).Placed?
    requires i < |CP.PlanCompute(s, b, desired, minFds, compute, eligible, t).layout|
    requires CP.On(s, CP.PlanCompute(s, b, desired, minFds, compute, eligible, t).budgets)
    requires LC.NewlyPlaced(s, b, desired.raw, compute, eligible,
      CP.PlanCompute(s, b, desired, minFds, compute, eligible, t), i)
    requires CG.Solvent(CP.PlanCompute(s, b, desired, minFds, compute, eligible, t).budgets)
    ensures var spec := CP.PlanCompute(s, b, desired, minFds, compute, eligible, t).layout[i];
      && spec.node in s.inv && CpuCost(s.inv[spec.node], s.cons.cpuPolicy, spec.numCores, true) <= b[spec.node].cores
      && spec.hugepages <= b[spec.node].hugepages
  {
    hide CP.PlanCompute, CpuCost, CP.Pinned, LC.Residents, HugepageSizing.ComputeHugepages;
  }

  /** A new compute's node ends with exactly its cost less than the drives left, and not overdrawn. */
  lemma NewComputeFits(s: Site, b: CP.Budgets, desired: DesiredCapacity, minFds: int, compute: seq<ExistingCompute>,
      eligible: set<string>, t: int, i: nat)
    requires CP.On(s, b) && eligible <= s.inv.Keys && CG.Solvent(b)
    requires CP.PlanCompute(s, b, desired, minFds, compute, eligible, t).Placed?
    requires i < |CP.PlanCompute(s, b, desired, minFds, compute, eligible, t).layout|
    requires var spec := CP.PlanCompute(s, b, desired, minFds, compute, eligible, t).layout[i];
      spec.node in s.inv && spec.node !in CP.Pinned(s, compute)
    ensures var spec := CP.PlanCompute(s, b, desired, minFds, compute, eligible, t).layout[i];
      && CpuCost(s.inv[spec.node], s.cons.cpuPolicy, spec.numCores, true) <= b[spec.node].cores
      && spec.hugepages <= b[spec.node].hugepages
  {
    hide CP.PlanCompute, CG.Solvent, CP.Pinned, LC.Residents;
    if i < LC.Residents(s, compute) { LC.KeptPinned(s, b, desired, minFds, compute, eligible, t, i); }
    LC.NewExact(s, b, desired, minFds, compute, eligible, t, i);
    CG.ComputeKeepsSolvent(s, b, desired, minFds, compute, eligible, t);
    AfterSolvent(s, b, desired, minFds, compute, eligible, t, i);
  }

  /**
   * Joint fit: in auto mode a created drive container and any new compute placed on the same node together
   * stay within the CPU and hugepages the inventory reported for it.
   */
  lemma DriveAndComputeFit(input: Input, k: nat, i: nat)
    requires PlanCapacity(input).Feasible() && AutoSite(input.Place())
    requires PricedConstraints(input.cons) && SolventInventory(input)
    requires k < |PlanCapacity(input).create| && i < |PlanCapacity(input).layout|
    requires PlanCapacity(input).layout[i].node == PlanCapacity(input).create[k].node
    requires PlanCapacity(input).create[k].node !in CP.Pinned(input.Place(), input.compute)
    ensures var drive, comp := PlanCapacity(input).create[k], PlanCapacity(input).layout[i];
      var nc := input.Place().inv;
      && drive.node in nc
      && CpuCost(nc[drive.node], input.cons.cpuPolicy, drive.numCores, true)
         + CpuCost(nc[drive.node], input.cons.cpuPolicy, comp.numCores, true) <= nc[drive.node].allocatableCpu
      && drive.numCores * HugepageSizing.DriveHugepagesPerCore(input.cons) + comp.hugepages <= nc[drive.node].hugepages
  {
    hide PlanCapacity, PlanPools, Emit, CP.PlanCompute, CpuCost, AutoSite, Applied, Emitted, HostOn, SolventInventory,
      ExistingTlcCores, ExistingQlcCores, NewTlcCores, NewQlcCores, AllNonNegative, CP.Pinned, CoreSum, CG.SpecCores;
    CreatedCovered(input, k);
    FeasibleShape(input);
    var s, plan, e := input.Place(), PlanCapacity(input), EmissionOf(input);
    AutoOneNode(s);
    RunSolvent(input);
    assert CG.Solvent(e.budgets);
    NewComputeFits(s, e.budgets, input.desired, input.scheme.MinFdNum(), input.compute,
      CP.EligibleNodes(s, input.computeNodes.value), plan.requiredComputeCores, i);
  }
}
