/** End-to-end theorems about PlanCapacity: coverage, convergence, the core floor and solvency. */
module PlanTheorems {
  import opened Model
  import opened NodeBudget
  import opened Ledgers
  import opened Placement
  import opened Deadband
  import opened PoolDecision
  import opened PoolPlanner
  import opened DriveCoreCounts
  import opened Planner
  import opened EmissionFacts
  import PR = PlanRuns
  import CP = ComputePlanner
  import FdSpread
  import Ordering
  import CG = ComputeGuarantees

  ghost function TargetsOf(input: Input): Caps {
    var t := Targets(input.desired, input.scheme.MinFdNum());
    if t.Some? then t.value else NO_CAPS
  }

  ghost function PoolsOf(input: Input): (st: PoolState)
    ensures Tracks(input.Place(), st.ledger)
  {
    Pools(input, TargetsOf(input))
  }

  ghost function EmissionOf(input: Input): (e: Emission)
    ensures e.budgets.Keys == input.Place().inv.Keys
  {
    Emit(input.Place(), PoolsOf(input).ledger, input.desired.driveCores)
  }

  /** How a feasible plan came about: both pools feasible, every record emitted, compute placed. */
  lemma FeasibleShape(input: Input)
    requires PlanCapacity(input).Feasible()
    ensures var plan, st, e := PlanCapacity(input), PoolsOf(input), EmissionOf(input);
      && st.notes.infeasible.None? && e.failure.None?
      && Emitted(input.Place(), st.ledger, input.desired.driveCores, plan.grow, plan.create)
      && plan.totalTlcDriveCores ==
           ExistingTlcCores(input.drives, st.ledger, input.desired.driveCores, input.cons) +
             NewTlcCores(plan.create, input.cons)
      && plan.totalQlcDriveCores ==
           ExistingQlcCores(input.drives, st.ledger, input.desired.driveCores, input.cons) +
             NewQlcCores(plan.create, input.cons)
      && plan.requiredComputeCores ==
        RequiredComputeCores(plan.totalTlcDriveCores, plan.totalQlcDriveCores, false, input.cons)
      && ComputeOf(input, e.budgets, plan.requiredComputeCores).Placed?
      && plan.layout == ComputeOf(input, e.budgets, plan.requiredComputeCores).layout
      && plan.computeContainers == ComputeOf(input, e.budgets, plan.requiredComputeCores).count
      && plan.computeCores == ComputeOf(input, e.budgets, plan.requiredComputeCores).cores
  {
    hide PlanPools, Emit, ComputeOf, RequiredComputeCores, DistinctDriveFds, ProtectionOk, SplitDriveContainers;
  }

  // ----- coverage -----

  /** Failure domains in which some container carries the pool. */
  function FdsCarrying(drives: seq<ExistingContainer>, p: PoolKind): set<string> {
    set c | c in drives && c.caps.Of(p) > 0 && c.fdValue != "" :: c.fdValue
  }

  lemma {:induction false} GrownMember(drives: seq<ExistingContainer>, grow: seq<ContainerGrowth>, x: ExistingContainer)
    ensures x in GrownAll(drives, grow) <==> exists c :: c in drives && GrownContainer(c, grow) == x
  {
    if drives != [] {
      var init, last := drives[..|drives| - 1], drives[|drives| - 1];
      GrownMember(init, grow, x);
      assert drives == init + [last];
      if x in GrownAll(init, grow) {
        var c :| c in init && GrownContainer(c, grow) == x;
        assert c in drives;
      }
    }
  }

  lemma {:induction false} LaunchedMember(create: seq<NewContainer>, naming: string -> string, x: ExistingContainer)
    ensures x in LaunchedAll(create, naming) <==> exists n :: n in create && Launched(n, naming) == x
  {
    if create != [] {
      var init, last := create[..|create| - 1], create[|create| - 1];
      LaunchedMember(init, naming, x);
      assert create == init + [last];
      if x in LaunchedAll(init, naming) {
        var n :| n in init && Launched(n, naming) == x;
        assert n in create;
      }
    }
  }

  lemma GrownCarries(s: Site, l: Ledger, driveCores: int, plan: CapacityPlan, c: ExistingContainer, p: PoolKind)
    requires Tracks(s, l) && Emitted(s, l, driveCores, plan.grow, plan.create)
    requires c in s.existing && FinalCap(l, c, p) > 0 && c.fdValue != ""
    ensures exists x :: x in GrownAll(s.existing, plan.grow) && x.caps.Of(p) > 0 && x.fdValue == c.fdValue
  {
    hide Emitted, FinalCores;
    GrownIs(s, l, driveCores, plan.grow, plan.create, c);
    GrownMember(s.existing, plan.grow, GrownContainer(c, plan.grow));
  }

  lemma LaunchedCarries(s: Site, l: Ledger, driveCores: int, plan: CapacityPlan, naming: string -> string, n: string,
      p: PoolKind)
    requires Tracks(s, l) && Emitted(s, l, driveCores, plan.grow, plan.create)
    requires n in l.created && l.created[n].caps.Of(p) > 0
    ensures exists x :: x in LaunchedAll(plan.create, naming) && x.caps.Of(p) > 0 && x.fdValue == l.created[n].fd
  {
    hide Emitted, PinCores;
    CreateListed(s, l, driveCores, plan.grow, plan.create);
    var nodes := Recorded(l.created.Keys);
    assert n in nodes;
    var i :| 0 <= i < |nodes| && nodes[i] == n;
    assert plan.create[i] in plan.create;
    LaunchedMember(plan.create, naming, Launched(plan.create[i], naming));
  }

  /** The failure domains the ledger says carry a pool do carry it once the plan is applied. */
  lemma CarryingApplied(s: Site, l: Ledger, driveCores: int, plan: CapacityPlan, naming: string -> string, p: PoolKind)
    requires Tracks(s, l) && Emitted(s, l, driveCores, plan.grow, plan.create)
    ensures CarryingFds(s, l, p) <= FdsCarrying(Applied(s.existing, plan, naming), p)
  {
    hide Emitted, GrownAll, LaunchedAll;
    forall fd | fd in CarryingFds(s, l, p) ensures fd in FdsCarrying(Applied(s.existing, plan, naming), p) {
      if c :| c in s.existing && FinalCap(l, c, p) > 0 && c.fdValue == fd && fd != "" {
        GrownCarries(s, l, driveCores, plan, c, p);
      } else {
        var n :| n in l.created && l.created[n].caps.Of(p) > 0 && l.created[n].fd == fd && fd != "";
        LaunchedCarries(s, l, driveCores, plan, naming, n, p);
      }
    }
  }

  /**
   * Coverage: once a feasible plan is applied no active pool is short of its target, and a pool that was
   * short spans at least stripeWidth + redundancyLevel + hotSpare failure domains.
   */
  lemma Coverage(input: Input, naming: string -> string, p: PoolKind)
    requires PlanCapacity(input).Feasible() && input.desired.raw.Of(p) > 0
    requires UniqueNames(input.drives) && NonNegativeDrives(input.drives)
    ensures var after := Applied(input.drives, PlanCapacity(input), naming);
      && !CapacityShort(PoolCurrent(after, p), input.desired.raw.Of(p), input.cons)
      && PoolCurrent(after, p) >= CoverTarget(input.desired.raw.Of(p), input.cons)
      && (CapacityShort(PoolCurrent(input.drives, p), input.desired.raw.Of(p), input.cons) ==>
           |FdsCarrying(after, p)| >=
             input.scheme.stripeWidth + input.scheme.redundancyLevel + input.scheme.hotSpare)
  {
    FeasibleShape(input);
    var s, plan, st := input.Place(), PlanCapacity(input), PoolsOf(input);
    hide PlanCapacity, Emitted;
    PoolsCovered(s, input.desired.raw, input.scheme.MinFdNum(), TargetsOf(input), p);
    AppliedTotals(s, st.ledger, input.desired.driveCores, plan, naming, p);
    CarryingApplied(s, st.ledger, input.desired.driveCores, plan, naming, p);
    hide PlanPools, PoolTotal, CarryingFds, Applied, FdsCarrying;
    FdSpread.SubsetSize(CarryingFds(s, st.ledger, p), FdsCarrying(Applied(input.drives, plan, naming), p));
    CoverTargetIsBoundary(PoolCurrent(Applied(input.drives, plan, naming), p), input.desired.raw.Of(p), input.cons);
  }

  // ----- convergence -----

  /** A pool that is not short is left alone, whatever the inventory and the pins. */
  lemma QuietPool(s: Site, st: PoolState, p: PoolKind, desired: int, minFd: int, targetFds: int)
    requires Tracks(s, st.ledger)
    requires desired > 0 ==> !CapacityShort(PoolCurrent(s.existing, p), desired, s.cons)
    ensures PlanPool(s, st, p, desired, minFd, targetFds).ledger == st.ledger
  {
    CoverTargetIsBoundary(PoolCurrent(s.existing, p), desired, s.cons);
    hide FreshDecision, ExplicitDecision, IncreaseDecision, Realized;
  }

  lemma QuietPools(s: Site, raw: Caps, minFd: int, t: Caps)
    requires forall p :: raw.Of(p) > 0 ==> !CapacityShort(PoolCurrent(s.existing, p), raw.Of(p), s.cons)
    ensures PlanPools(s, raw, minFd, t).ledger == Opening(s.inv)
  {
    hide PlanPool, FirstPool, CapacityShort, PoolCurrent;
    var a := FirstPool(s, raw);
    var st0 := PoolState(Opening(s.inv), NO_NOTES);
    QuietPool(s, st0, a, raw.Of(a), minFd, t.Of(a));
    var st1 := PlanPool(s, st0, a, raw.Of(a), minFd, t.Of(a));
    QuietPool(s, st1, a.Other(), raw.Of(a.Other()), minFd, t.Of(a.Other()));
  }

  /** If no active pool is short the plan grows and creates nothing. */
  lemma NothingToDo(input: Input)
    requires forall p :: input.desired.raw.Of(p) > 0 ==>
      !CapacityShort(PoolCurrent(input.drives, p), input.desired.raw.Of(p), input.cons)
    ensures PlanCapacity(input).grow == [] && PlanCapacity(input).create == []
  {
    hide PlanPools, Emit, ComputeOf, RequiredComputeCores, DistinctDriveFds, ProtectionOk, SplitDriveContainers,
      CapacityShort, PoolCurrent, PR.InventoryMap;
    var s := input.Place();
    QuietPools(s, input.desired.raw, input.scheme.MinFdNum(), TargetsOf(input));
    EmptyEmission(s, PoolsOf(input).ledger, input.desired.driveCores);
  }

  lemma EmptyEmission(s: Site, l: Ledger, driveCores: int)
    requires Tracks(s, l) && l.growth == map[] && l.created == map[]
    ensures Emit(s, l, driveCores).grow == [] && Emit(s, l, driveCores).create == []
  {
    RecordedFacts(l.growth.Keys);
    RecordedFacts(l.created.Keys);
    Ordering.NoElems(Recorded(l.growth.Keys));
    Ordering.NoElems(Recorded(l.created.Keys));
  }

  /**
   * Convergence: carrying out a feasible plan and planning again for the same target, on any inventory and
   * with any pins, yields no drive growth and no new drive container.
   */
  lemma Convergence(first: Input, second: Input, naming: string -> string)
    requires PlanCapacity(first).Feasible()
    requires UniqueNames(first.drives) && NonNegativeDrives(first.drives)
    requires second.desired.raw == first.desired.raw && second.cons.deadbandFraction == first.cons.deadbandFraction
    requires second.drives == Applied(first.drives, PlanCapacity(first), naming)
    ensures PlanCapacity(second).grow == [] && PlanCapacity(second).create == []
  {
    hide PlanCapacity, Applied, CoverTarget, PoolCurrent, FdsCarrying, NonNegativeDrives, UniqueNames;
    forall p | second.desired.raw.Of(p) > 0
      ensures !CapacityShort(PoolCurrent(second.drives, p), second.desired.raw.Of(p), second.cons)
    {
      Coverage(first, naming, p);
    }
    NothingToDo(second);
  }

  // ----- the core floor -----

  lemma FinalCoresPositive(s: Site, l: Ledger, driveCores: int, grow: seq<ContainerGrowth>, create: seq<NewContainer>,
      c: ExistingContainer)
    requires Tracks(s, l) && Emitted(s, l, driveCores, grow, create) && c.numCores >= 1
    ensures FinalCores(l, c, driveCores, s.cons) >= 1
  {
    GrownIs(s, l, driveCores, grow, create, c);
    if c.name in l.growth { PinnedEnough(l.growth[c.name], driveCores, s.cons); }
  }

  lemma NewCoresPositive(s: Site, l: Ledger, driveCores: int, grow: seq<ContainerGrowth>, create: seq<NewContainer>)
    requires Tracks(s, l) && Emitted(s, l, driveCores, grow, create)
    ensures forall i :: 0 <= i < |create| ==> create[i].numCores >= 1
  {
    CreateListed(s, l, driveCores, grow, create);
    var nodes := Recorded(l.created.Keys);
    hide Emitted, PinCores;
    forall i | 0 <= i < |create| ensures create[i].numCores >= 1 {
      PinnedEnough(l.created[nodes[i]].caps, driveCores, s.cons);
    }
  }

  lemma CoresApplied(s: Site, l: Ledger, driveCores: int, plan: CapacityPlan, naming: string -> string)
    requires Tracks(s, l) && Emitted(s, l, driveCores, plan.grow, plan.create)
    requires forall c :: c in s.existing ==> c.numCores >= 1
    requires plan.totalTlcDriveCores ==
      ExistingTlcCores(s.existing, l, driveCores, s.cons) + NewTlcCores(plan.create, s.cons)
    requires plan.totalQlcDriveCores ==
      ExistingQlcCores(s.existing, l, driveCores, s.cons) + NewQlcCores(plan.create, s.cons)
    ensures var after := Applied(s.existing, plan, naming);
      && plan.totalTlcDriveCores == TlcSum(after, s.cons) >= 0
      && plan.totalQlcDriveCores == QlcSum(after, s.cons) >= 0
      && plan.totalTlcDriveCores + plan.totalQlcDriveCores == CoreSum(after)
  {
    hide Emitted, TlcSum, QlcSum, CoreSum, FinalCores, Applied, ExistingTlcCores, ExistingQlcCores, NewTlcCores,
      NewQlcCores, ExistingCores, NewCores, PoolCurrent, PoolTotal;
    forall c | c in s.existing ensures FinalCores(l, c, driveCores, s.cons) >= 1 {
      FinalCoresPositive(s, l, driveCores, plan.grow, plan.create, c);
    }
    NewCoresPositive(s, l, driveCores, plan.grow, plan.create);
    ExistingAttribution(s.existing, l, driveCores, s.cons);
    NewAttribution(plan.create, s.cons);
    AppliedTotals(s, l, driveCores, plan, naming, TLC);
    AppliedShares(s, l, driveCores, plan, naming);
  }

  /** A feasible plan's drive cores are those of the applied containers, in all and pool by pool. */
  lemma DriveCoresApplied(input: Input, naming: string -> string)
    requires PlanCapacity(input).Feasible()
    requires forall c :: c in input.drives ==> c.numCores >= 1
    ensures var plan := PlanCapacity(input);
      var after := Applied(input.drives, plan, naming);
      && plan.totalTlcDriveCores == TlcSum(after, input.cons) >= 0
      && plan.totalQlcDriveCores == QlcSum(after, input.cons) >= 0
      && plan.totalTlcDriveCores + plan.totalQlcDriveCores == CoreSum(after)
  {
    FeasibleShape(input);
    hide PlanCapacity, Emitted, PoolsOf, RequiredComputeCores, TlcSum, QlcSum, CoreSum, ComputeOf, Applied,
      ExistingTlcCores, ExistingQlcCores, NewTlcCores, NewQlcCores;
    CoresApplied(input.Place(), PoolsOf(input).ledger, input.desired.driveCores, PlanCapacity(input), naming);
  }

  /**
   * The end-to-end core floor: the compute layout supplies the required cores, those are the fewest that meet the
   * configured ratios to the drive cores of the two pools and the drive cores themselves, and the drive cores are
   * exactly the cores of the applied containers. Two negative compute pins are the only way to miss it, and they do
   * exactly when the pins do not serve.
   */
  lemma CoreFloor(input: Input, naming: string -> string)
    requires PlanCapacity(input).Feasible()
    requires forall c :: c in input.drives ==> c.numCores >= 1
    ensures var plan := PlanCapacity(input);
      && (CP.PinsUsable(input.desired) ==> CG.SpecCores(plan.layout) >= plan.requiredComputeCores)
      && (CG.NonNegativeComputes(input.compute) && input.cons.computeDpdkPerCore >= 0 ==>
           (CG.SpecCores(plan.layout) >= plan.requiredComputeCores <==>
             CG.PinsServe(input.Place(), input.desired, input.scheme.MinFdNum(), input.compute,
               plan.requiredComputeCores)))
      && LeastCompute(plan.requiredComputeCores, plan.totalTlcDriveCores, plan.totalQlcDriveCores,
           input.cons.computeToTlcRatio, input.cons.computeToQlcRatio)
      && plan.totalTlcDriveCores + plan.totalQlcDriveCores == CoreSum(Applied(input.drives, plan, naming))
      && plan.totalTlcDriveCores == TlcSum(Applied(input.drives, plan, naming), input.cons)
      && plan.totalQlcDriveCores == QlcSum(Applied(input.drives, plan, naming), input.cons)
  {
    DriveCoresApplied(input, naming);
    FeasibleShape(input);
    var s, plan, e := input.Place(), PlanCapacity(input), EmissionOf(input);
    hide PlanCapacity, Emitted, PlanPools, Emit, LeastCompute, RequiredComputeCores, TlcSum, QlcSum, CoreSum, Applied,
      CP.PlanCompute, CG.PinsServe, CG.NonNegativeComputes;
    RequiredExact(plan.totalTlcDriveCores, plan.totalQlcDriveCores, false, input.cons);
    var nodes := input.computeNodes.value;
    CG.LayoutSuppliesCores(s, e.budgets, input.desired, input.scheme.MinFdNum(), input.compute,
      CP.EligibleNodes(s, nodes), plan.requiredComputeCores);
  }

  /** Unless both compute pins are negative, the layout meets the configured ratios to the applied drive cores. */
  lemma RatioMet(input: Input, naming: string -> string)
    requires PlanCapacity(input).Feasible() && CP.PinsUsable(input.desired)
    requires forall c :: c in input.drives ==> c.numCores >= 1
    ensures var plan := PlanCapacity(input);
      var after := Applied(input.drives, plan, naming);
      MeetsDemand(CG.SpecCores(plan.layout), TlcSum(after, input.cons), QlcSum(after, input.cons),
        input.cons.computeToTlcRatio, input.cons.computeToQlcRatio)
  {
    hide PlanCapacity, Applied, TlcSum, QlcSum, CoreSum, CG.SpecCores, CG.PinsServe;
    CoreFloor(input, naming);
  }

  /** A feasible plan's compute layout spans enough failure domains. */
  lemma ComputeSpans(input: Input)
    requires PlanCapacity(input).Feasible()
    ensures |CG.LayoutFds(input.Place(), PlanCapacity(input).layout)| >= input.scheme.MinFdNum()
  {
    FeasibleShape(input);
    var s, plan, e := input.Place(), PlanCapacity(input), EmissionOf(input);
    hide PlanCapacity, Emitted, PlanPools, Emit, CP.PlanCompute, CG.LayoutFds, Applied;
    CG.LayoutSpans(s, e.budgets, input.desired, input.scheme.MinFdNum(), input.compute,
      CP.EligibleNodes(s, input.computeNodes.value), plan.requiredComputeCores);
  }

  // ----- solvency -----

  ghost predicate SolventInventory(input: Input) {
    forall n :: n in input.Place().inv ==> NonNegative(InitialBudget(input.Place().inv[n]))
  }

  /** Planning pools, feasible or not, never overdraws a node. */
  lemma PoolsSolvent(input: Input, targets: Caps)
    requires SolventInventory(input) && PricedConstraints(input.cons) && UniqueNames(input.drives)
    ensures AllNonNegative(Pools(input, targets).ledger)
  {
    var s, raw, minFd := input.Place(), input.desired.raw, input.scheme.MinFdNum();
    var a := FirstPool(s, raw);
    var st0 := PoolState(Opening(s.inv), NO_NOTES);
    PlanPoolKeeps(s, st0, a, raw.Of(a), minFd, targets.Of(a));
    var st1 := PlanPool(s, st0, a, raw.Of(a), minFd, targets.Of(a));
    PlanPoolKeeps(s, st1, a.Other(), raw.Of(a.Other()), minFd, targets.Of(a.Other()));
    hide PlanPool;
  }

  /** The budgets the compute stage leaves, placed or not, for a set of compute nodes and a core requirement. */
  ghost function AfterCompute(input: Input, nodes: map<string, bool>, required: int): CP.Budgets {
    CP.BudgetsAfter(input.Place(), EmissionOf(input).budgets, input.desired, input.scheme.MinFdNum(), input.compute,
      CP.EligibleNodes(input.Place(), nodes), required)
  }

  /**
   * Resource safety over the whole run: after both pools with their rollbacks, after reserving pinned core
   * surpluses and after the compute stage, however it ends, no tracked budget of any node is negative.
   */
  lemma RunSolvent(input: Input)
    requires SolventInventory(input) && PricedConstraints(input.cons) && UniqueNames(input.drives)
    ensures AllNonNegative(PoolsOf(input).ledger)
    ensures forall n :: n in input.Place().inv ==> NonNegative(EmissionOf(input).budgets[n])
    ensures forall required :: ComputeOf(input, EmissionOf(input).budgets, required).Placed? ==>
      CG.Solvent(ComputeOf(input, EmissionOf(input).budgets, required).budgets)
    ensures forall nodes, required :: CG.Solvent(AfterCompute(input, nodes, required))
  {
    PoolsSolvent(input, TargetsOf(input));
    var s, l, e := input.Place(), PoolsOf(input).ledger, EmissionOf(input);
    EmitSolvent(s, l, input.desired.driveCores);
    hide Pools, Emit, CP.PlanCompute;
    forall required | ComputeOf(input, e.budgets, required).Placed?
      ensures CG.Solvent(ComputeOf(input, e.budgets, required).budgets)
    {
      CG.ComputeKeepsSolvent(s, e.budgets, input.desired, input.scheme.MinFdNum(), input.compute,
        CP.EligibleNodes(s, input.computeNodes.value), required);
    }
    forall nodes, required ensures CG.Solvent(AfterCompute(input, nodes, required)) {
      CG.StageKeepsSolvent(s, e.budgets, input.desired, input.scheme.MinFdNum(), input.compute,
        CP.EligibleNodes(s, nodes), required);
    }
  }

  lemma EmitSolvent(s: Site, l: Ledger, driveCores: int)
    requires Tracks(s, l) && PricedConstraints(s.cons) && AllNonNegative(l)
    ensures forall n :: n in s.inv ==> NonNegative(Emit(s, l, driveCores).budgets[n])
  {
    hide EmitGrow, EmitCreate;
    CreateNonNegative(s, l, Recorded(l.created.Keys), driveCores);
  }
}
