/** What planning charges for drive containers, and when that pays for the cores the plan emits. */
module GrownCores {
  import opened Arith
  import opened Model
  import opened NodeBudget
  import opened Ledgers
  import opened Placement
  import opened FdRecords
  import opened PoolDecision
  import opened PoolPlanner
  import opened DriveCoreCounts
  import opened Planner
  import opened PlanTheorems
  import opened AdvisoryTheorems
  import opened EmissionFacts
  import opened GrowRecords
  import Cpu
  import HugepageSizing
  import Seating
  import PR = PlanRuns
  import CP = ComputePlanner

  /** Cores that placement charges for growing a container. */
  function GrowthCharge(from: Caps, to: Caps, cons: Constraints): int {
    CoresFor(TLC, to.tlc - from.tlc, cons) + CoresFor(QLC, to.qlc - from.qlc, cons)
  }

  /** The node's inventory less exactly the price of k drive cores. */
  predicate Spent(nc: NodeCapacity, b: Budget, k: int, cons: Constraints) {
    && b.cores == nc.allocatableCpu - CpuCost(nc, cons.cpuPolicy, k, false)
    && b.hugepages == nc.hugepages - k * (cons.hugepagesPerCore + cons.driveDpdkPerCore)
    && b.memory == nc.memory - k * cons.memoryPerCore
  }

  lemma SpentMore(nc: NodeCapacity, b: Budget, p: PoolKind, g: int, k: int, cons: Constraints)
    requires Spent(nc, b, k, cons)
    ensures Spent(nc, Charge(nc, b, p, g, cons, false), k + CoresFor(p, g, cons), cons)
  {
    var n, m := CoresFor(p, g, cons), Cpu.ModelFor(cons.cpuPolicy, Topo(nc));
    var hp := HugepageSizing.DriveHugepagesPerCore(cons);
    assert m.perCore * (k + n) == m.perCore * k + m.perCore * n;
    assert (k + n) * hp == k * hp + n * hp;
    assert (k + n) * cons.memoryPerCore == k * cons.memoryPerCore + n * cons.memoryPerCore;
    hide Cpu.ModelFor, CoresFor;
  }

  /** Two pools in either order: the gains are the record's, and the charges add up. */
  lemma TwoGains(from: Caps, a: PoolKind, ga: int, gb: int, cons: Constraints)
    ensures GrowthCharge(from, from.Plus(a, ga).Plus(a.Other(), gb), cons) ==
      CoresFor(a, ga, cons) + CoresFor(a.Other(), gb, cons)
  {
  }

  lemma SpentTwice(s: Site, l1: Ledger, l2: Ledger, c: ExistingContainer, a: PoolKind, ta: bool, ga: int, tb: bool,
      gb: int)
    requires Tracks(s, Opening(s.inv)) && Tracks(s, l1) && Tracks(s, l2) && c.node in s.inv
    requires HostOn(s.existing, c.node) == Some(c)
    requires Effect(s, Opening(s.inv), l1, a, c.node, ta, ga) && Effect(s, l1, l2, a.Other(), c.node, tb, gb)
    ensures Spent(s.inv[c.node], l2.budgets[c.node], GrowthCharge(c.caps, GrowthOf(l2, c), s.cons), s.cons)
  {
    var nc, l0 := s.inv[c.node], Opening(s.inv);
    assert Spent(nc, l0.budgets[c.node], 0, s.cons);
    SpentMore(nc, l0.budgets[c.node], a, ga, 0, s.cons);
    SpentMore(nc, l1.budgets[c.node], a.Other(), gb, CoresFor(a, ga, s.cons), s.cons);
    TwoGains(c.caps, a, ga, gb, s.cons);
    FreeOfCharge(nc, l0.budgets[c.node], a, s.cons);
    FreeOfCharge(nc, l1.budgets[c.node], a.Other(), s.cons);
    hide Spent, Charge, CoresFor, GrowthCharge, HostOn;
  }

  lemma FreeOfCharge(nc: NodeCapacity, b: Budget, p: PoolKind, cons: Constraints)
    ensures Charge(nc, b, p, 0, cons, false) == b
  {
  }

  /** After both pools the node of a container has lost exactly the price of the container's growth. */
  lemma PoolsSpend(input: Input, c: ExistingContainer)
    requires UniqueNames(input.drives) && NonNegativeDrives(input.drives)
    requires c.node in input.Place().inv && HostOn(input.drives, c.node) == Some(c)
    ensures var s, l := input.Place(), PoolsOf(input).ledger;
      Spent(s.inv[c.node], l.budgets[c.node], GrowthCharge(c.caps, GrowthOf(l, c), s.cons), s.cons)
  {
    var s, n := input.Place(), c.node;
    hide PlanPool, Touched, FdCompleted, FirstPool, PoolsOf, Effect, GrowthOf, PR.InventoryMap, Gained, Spent,
      GrowthCharge, LedgerAfter, StateBefore, Opening, HostOn;
    var a := FirstPool(s, input.desired.raw);
    Ledgers3(input);
    InputEffect(input, a, n);
    InputEffect(input, a.Other(), n);
    SpentTwice(s, LedgerAfter(input, a), PoolsOf(input).ledger, c, a, Touched(input, a, n), Gained(input, a, n),
      Touched(input, a.Other(), n), Gained(input, a.Other(), n));
  }

  // ----- emission leaves these nodes alone -----

  lemma {:induction false} ReservesElsewhere(s: Site, l: Ledger, nodes: seq<string>, driveCores: int, n: string)
    requires Tracks(s, l) && (forall i :: 0 <= i < |nodes| ==> nodes[i] in l.created) && n in s.inv && n !in nodes
    ensures EmitCreate(s, l, nodes, driveCores).budgets[n] == l.budgets[n]
  {
    hide PinCores, Reserve, CanReserve;
    if nodes != [] { ReservesElsewhere(s, l, nodes[..|nodes| - 1], driveCores, n); }
  }

  lemma EmitElsewhere(s: Site, l: Ledger, driveCores: int, n: string)
    requires Tracks(s, l) && n in s.inv && n !in l.created
    ensures Emit(s, l, driveCores).budgets[n] == l.budgets[n]
  {
    hide EmitGrow, EmitCreate;
    RecordedFacts(l.created.Keys);
    ReservesElsewhere(s, l, Recorded(l.created.Keys), driveCores, n);
  }

  /**
   * When drives are emitted, on any site, the node of the container its growth goes to has lost exactly the price of
   * that growth: nothing is reserved for pinned cores.
   */
  lemma GrowthSpends(input: Input, c: ExistingContainer)
    requires UniqueNames(input.drives) && NonNegativeDrives(input.drives)
    requires c.node in input.Place().inv && HostOn(input.drives, c.node) == Some(c)
    ensures var s, l := input.Place(), PoolsOf(input).ledger;
      Spent(s.inv[c.node], EmissionOf(input).budgets[c.node], GrowthCharge(c.caps, GrowthOf(l, c), s.cons), s.cons)
  {
    var s, l := input.Place(), PoolsOf(input).ledger;
    hide PlanPools, Emit, Spent, GrowthCharge, HostOn, PR.InventoryMap;
    PoolsSpend(input, c);
    Seating.PoolsSeated(s, input.desired.raw, input.scheme.MinFdNum(), TargetsOf(input));
    assert c.node in l.created ==> Seating.Seat(s, c.node);
    EmitElsewhere(s, l, input.desired.driveCores, c.node);
  }

  // ----- when the emitted cores are paid for -----

  /** The cores a growth entry adds are within the CPU its node has lost. */
  predicate CoresPaid(nc: NodeCapacity, left: Budget, c: ExistingContainer, g: ContainerGrowth, cons: Constraints) {
    CpuCost(nc, cons.cpuPolicy, g.newCores - c.numCores, false) <= nc.allocatableCpu - left.cores
  }

  lemma PaidExactly(nc: NodeCapacity, left: Budget, c: ExistingContainer, g: ContainerGrowth, k: int,
      cons: Constraints)
    requires Spent(nc, left, k, cons)
    ensures CoresPaid(nc, left, c, g, cons) <==> g.newCores <= c.numCores + k
  {
    var m := Cpu.ModelFor(cons.cpuPolicy, Topo(nc));
    Cpu.ModelShape(cons.cpuPolicy, Topo(nc));
    hide Cpu.ModelFor;
    if g.newCores <= c.numCores + k {
      MulMono(g.newCores - c.numCores, k, m.perCore);
    } else {
      MulMono(k + 1, g.newCores - c.numCores, m.perCore);
    }
  }

  /** With derived cores the charge suffices, if the container had the cores its capacity needs. */
  lemma DerivedPaid(numCores: int, from: Caps, to: Caps, cons: Constraints)
    requires 0 <= from.tlc <= to.tlc && 0 <= from.qlc <= to.qlc && numCores >= RequiredDriveCores(from, cons)
    ensures RequiredDriveCores(to, cons) <= numCores + GrowthCharge(from, to, cons)
  {
    if cons.capacityPerCore.tlc > 0 {
      CeilDivSubadditive(from.tlc, to.tlc - from.tlc, cons.capacityPerCore.tlc);
    }
    if cons.capacityPerCore.qlc > 0 {
      CeilDivSubadditive(from.qlc, to.qlc - from.qlc, cons.capacityPerCore.qlc);
    }
  }

  /** A listed container gets the pinned cores or the derived ones, enough for its capacity and within the limit. */
  predicate RightCores(cores: int, caps: Caps, driveCores: int, cons: Constraints) {
    && cores == (if driveCores > 0 then driveCores else RequiredDriveCores(caps, cons))
    && cores >= RequiredDriveCores(caps, cons) && (cons.maxCoresPerContainer > 0 ==> cores <= cons.maxCoresPerContainer)
  }

  lemma {:induction false} GrowPinned(growth: map<string, Caps>, names: seq<string>, driveCores: int,
      cons: Constraints, k: nat)
    requires (forall i :: 0 <= i < |names| ==> names[i] in growth)
    requires k < |EmitGrow(growth, names, driveCores, cons).list|
    ensures var g := EmitGrow(growth, names, driveCores, cons).list[k];
      RightCores(g.newCores, g.caps, driveCores, cons)
  {
    var init := names[..|names| - 1];
    if k < |EmitGrow(growth, init, driveCores, cons).list| {
      GrowPinned(growth, init, driveCores, cons, k);
    } else {
      PinExact(growth[names[|names| - 1]], driveCores, cons);
    }
    hide RequiredDriveCores, PinCores;
  }

  /** A grown container gets the pinned cores or the derived ones, never beyond the limit. */
  lemma EntryCores(input: Input, k: nat)
    requires k < |PlanCapacity(input).grow|
    ensures var g := PlanCapacity(input).grow[k];
      RightCores(g.newCores, g.caps, input.desired.driveCores, input.cons)
  {
    hide PlanPools, EmitGrow, EmitCreate, ComputeOf, RequiredComputeCores, DistinctDriveFds, ProtectionOk,
      SplitDriveContainers, PR.InventoryMap, CP.SortedNames, RequiredDriveCores;
    var l := PoolsOf(input).ledger;
    GrowPinned(l.growth, Recorded(l.growth.Keys), input.desired.driveCores, input.cons, k);
  }

  /**
   * In every plan, on any site, the cores a growth entry adds are paid for exactly when they are within the charge of
   * its growth. Derived cores always are, if the container had the cores its capacity needs; pinned ones are exactly
   * when the pin exceeds the container's cores by no more than that charge.
   */
  lemma GrownCoresPaid(input: Input, k: nat)
    requires UniqueNames(input.drives) && NonNegativeDrives(input.drives) && k < |PlanCapacity(input).grow|
    ensures var s, g := input.Place(), PlanCapacity(input).grow[k];
      exists c :: c in input.drives && c.name == g.name && c.node in s.inv &&
        var paid := CoresPaid(s.inv[c.node], EmissionOf(input).budgets[c.node], c, g, s.cons);
        && (input.desired.driveCores > 0 ==>
             (paid <==> input.desired.driveCores <= c.numCores + GrowthCharge(c.caps, g.caps, s.cons)))
        && (input.desired.driveCores <= 0 && c.numCores >= RequiredDriveCores(c.caps, s.cons) ==> paid)
  {
    var s, l, g := input.Place(), PoolsOf(input).ledger, PlanCapacity(input).grow[k];
    EntryCores(input, k);
    PlanGrow(input, k);
    hide PlanCapacity, PlanPools, Spent, CoresPaid, GrowthCharge, RequiredDriveCores, PR.InventoryMap, EmissionOf,
      HostOn;
    PoolsKeepFloor(s, input.desired.raw, input.scheme.MinFdNum(), TargetsOf(input));
    var c :| c in s.existing && c.name == g.name && c.node in s.inv && HostOn(s.existing, c.node) == Some(c);
    GrowthSpends(input, c);
    assert GrowthOf(l, c) == g.caps && FinalCap(l, c, TLC) >= c.caps.tlc && FinalCap(l, c, QLC) >= c.caps.qlc;
    PaidExactly(s.inv[c.node], EmissionOf(input).budgets[c.node], c, g, GrowthCharge(c.caps, g.caps, s.cons), s.cons);
    if input.desired.driveCores <= 0 && c.numCores >= RequiredDriveCores(c.caps, s.cons) {
      DerivedPaid(c.numCores, c.caps, g.caps, s.cons);
    }
  }

  // ----- new containers on any site -----

  /** The node's inventory less exactly the price of k drive cores and, if `base`, of a container's base. */
  predicate SpentNew(nc: NodeCapacity, b: Budget, k: int, base: bool, cons: Constraints) {
    && b.cores == nc.allocatableCpu - CpuCost(nc, cons.cpuPolicy, k, base)
    && b.hugepages == nc.hugepages - k * (cons.hugepagesPerCore + cons.driveDpdkPerCore)
    && b.memory == nc.memory - k * cons.memoryPerCore - if base then cons.memoryBase else 0
  }

  lemma Distributes(a: int, x: int, y: int)
    ensures a * (x + y) == a * x + a * y && (x + y) * a == x * a + y * a
  {
  }

  lemma SpentNewMore(nc: NodeCapacity, b: Budget, p: PoolKind, g: int, k: int, base: bool, more: bool,
      cons: Constraints)
    requires SpentNew(nc, b, k, base, cons) && !(base && more)
    ensures SpentNew(nc, Charge(nc, b, p, g, cons, more), k + CoresFor(p, g, cons), base || more, cons)
  {
    assert HugepageSizing.DriveHugepagesPerCore(cons) == cons.hugepagesPerCore + cons.driveDpdkPerCore;
    hide Cpu.ModelFor, CoresFor, HugepageSizing.DriveHugepagesPerCore;
    var n := CoresFor(p, g, cons);
    Distributes(Cpu.ModelFor(cons.cpuPolicy, Topo(nc)).perCore, k, n);
    Distributes(HugepageSizing.DriveHugepagesPerCore(cons), k, n);
    Distributes(cons.memoryPerCore, k, n);
  }

  lemma SpentNewTwice(s: Site, l1: Ledger, l2: Ledger, n: string, a: PoolKind, ta: bool, ga: int, tb: bool, gb: int)
    requires Tracks(s, Opening(s.inv)) && Tracks(s, l1) && Tracks(s, l2) && n in s.inv && HostOn(s.existing, n).None?
    requires Effect(s, Opening(s.inv), l1, a, n, ta, ga) && Effect(s, l1, l2, a.Other(), n, tb, gb) && (ga > 0 ==> ta)
    requires ga >= 0 && gb >= 0
    ensures SpentNew(s.inv[n], l2.budgets[n], CoresFor(a, ga, s.cons) + CoresFor(a.Other(), gb, s.cons),
      ga > 0 || (gb > 0 && !ta), s.cons)
  {
    var nc, l0 := s.inv[n], Opening(s.inv);
    assert SpentNew(nc, l0.budgets[n], 0, false, s.cons) && l0.created == map[];
    SpentNewMore(nc, l0.budgets[n], a, ga, 0, false, true, s.cons);
    assert SpentNew(nc, l1.budgets[n], CoresFor(a, ga, s.cons), ga > 0, s.cons) && (n in l1.created <==> ta) by {
      hide Charge, HostOn, SpentNew;
    }
    hide Opening;
    if gb > 0 {
      SpentNewMore(nc, l1.budgets[n], a.Other(), gb, CoresFor(a, ga, s.cons), ga > 0, !ta, s.cons);
    }
    hide Charge, HostOn, SpentNew;
  }

  /**
   * On any site, when pools are planned the node of a new container has lost exactly the cores of what it gained. Its
   * base is paid exactly when the pool planned first fills it, or the second does and the first left no record there.
   */
  lemma CreatedSpends(input: Input, n: string)
    requires UniqueNames(input.drives) && NonNegativeDrives(input.drives)
    requires n in input.Place().inv && HostOn(input.drives, n).None?
    ensures var s, l := input.Place(), PoolsOf(input).ledger;
      var a := FirstPool(s, input.desired.raw);
      SpentNew(s.inv[n], l.budgets[n], CoresFor(a, Gained(input, a, n), s.cons) +
          CoresFor(a.Other(), Gained(input, a.Other(), n), s.cons),
        Gained(input, a, n) > 0 || (Gained(input, a.Other(), n) > 0 && !Touched(input, a, n)), s.cons)
  {
    var s := input.Place();
    hide PlanPool, Touched, FdCompleted, FirstPool, PoolsOf, Effect, PR.InventoryMap, Gained, LedgerAfter, StateBefore,
      Opening, HostOn, SpentNew, CoresFor;
    var a := FirstPool(s, input.desired.raw);
    Ledgers3(input);
    InputEffect(input, a, n);
    InputEffect(input, a.Other(), n);
    SpentNewTwice(s, LedgerAfter(input, a), PoolsOf(input).ledger, n, a, Touched(input, a, n), Gained(input, a, n),
      Touched(input, a.Other(), n), Gained(input, a.Other(), n));
  }

  // ----- empty new containers -----

  lemma {:induction false} HostOnNode(existing: seq<ExistingContainer>, n: string)
    requires HostOn(existing, n).Some?
    ensures HostOn(existing, n).value.node == n
  {
    if existing != [] && HostOn(existing[..|existing| - 1], n).Some? { HostOnNode(existing[..|existing| - 1], n); }
  }

  /**
   * Without a per-core memory price, planning the pools overdraws a node's memory exactly when it fills a new container
   * there, pays its base, and the base exceeds the memory of the node.
   */
  lemma UnpricedMemoryExact(input: Input, n: string)
    requires UniqueNames(input.drives) && NonNegativeDrives(input.drives) && input.cons.memoryPerCore == 0
    requires n in input.Place().inv && input.Place().inv[n].memory >= 0
    ensures var s := input.Place(); var a := FirstPool(s, input.desired.raw);
      PoolsOf(input).ledger.budgets[n].memory < 0 <==>
        && HostOn(input.drives, n).None? && input.cons.memoryBase > s.inv[n].memory
        && (Gained(input, a, n) > 0 || (Gained(input, a.Other(), n) > 0 && !Touched(input, a, n)))
  {
    hide PoolsOf, Touched, Gained, FirstPool, PR.InventoryMap, CoresFor, HugepageSizing.DriveHugepagesPerCore;
    if HostOn(input.drives, n).Some? {
      HostOnNode(input.drives, n);
      PoolsSpend(input, HostOn(input.drives, n).value);
    } else {
      CreatedSpends(input, n);
    }
  }

  lemma UnpaidTwice(s: Site, l1: Ledger, l2: Ledger, n: string, a: PoolKind, ta: bool, tb: bool)
    requires Tracks(s, Opening(s.inv)) && Tracks(s, l1) && Tracks(s, l2) && n in s.inv
    requires Effect(s, Opening(s.inv), l1, a, n, ta, 0) && Effect(s, l1, l2, a.Other(), n, tb, 0)
    ensures l2.budgets[n] == InitialBudget(s.inv[n])
  {
    hide HostOn, Charge;
  }

  lemma {:induction false} CreatePinned(s: Site, l: Ledger, nodes: seq<string>, driveCores: int, k: nat)
    requires Tracks(s, l) && (forall i :: 0 <= i < |nodes| ==> nodes[i] in l.created)
    requires k < |EmitCreate(s, l, nodes, driveCores).list|
    ensures var x := EmitCreate(s, l, nodes, driveCores).list[k];
      x.numCores >= 1 && RightCores(x.numCores, x.caps, driveCores, s.cons)
  {
    var init := nodes[..|nodes| - 1];
    if k < |EmitCreate(s, l, init, driveCores).list| {
      CreatePinned(s, l, init, driveCores, k);
    } else {
      var caps := l.created[nodes[|nodes| - 1]].caps;
      PinExact(caps, driveCores, s.cons);
      if PinCores(caps, driveCores, s.cons).Pinned? { PinnedEnough(caps, driveCores, s.cons); }
    }
    hide PinCores, CanReserve, Reserve, RequiredDriveCores;
  }

  /** So does a new container, and at least one. */
  lemma CreateCores(input: Input, k: nat)
    requires k < |PlanCapacity(input).create|
    ensures var x := PlanCapacity(input).create[k];
      x.numCores >= 1 && RightCores(x.numCores, x.caps, input.desired.driveCores, input.cons)
  {
    hide PlanPools, EmitGrow, EmitCreate, ComputeOf, RequiredComputeCores, DistinctDriveFds, ProtectionOk,
      SplitDriveContainers, PR.InventoryMap, CP.SortedNames;
    var s, l := input.Place(), PoolsOf(input).ledger;
    CreatePinned(s, l, Recorded(l.created.Keys), input.desired.driveCores, k);
  }

  /** A listed empty container has a core or more, and when pools are planned its node has paid for none. */
  lemma EmptyCreateUnpaid(input: Input, k: nat)
    requires UniqueNames(input.drives) && NonNegativeDrives(input.drives)
    requires k < |PlanCapacity(input).create| && PlanCapacity(input).create[k].caps == NO_CAPS
    ensures var s, x := input.Place(), PlanCapacity(input).create[k];
      x.node in s.inv && x.numCores >= 1 && PoolsOf(input).ledger.budgets[x.node] == InitialBudget(s.inv[x.node])
  {
    var s, n := input.Place(), PlanCapacity(input).create[k].node;
    CreateCores(input, k);
    EmptyCreateExact(input, k);
    hide PlanCapacity, PlanPool, Touched, FdCompleted, FirstPool, PoolsOf, Effect, PR.InventoryMap, Gained, LedgerAfter,
      StateBefore, Opening, AllRolledBack;
    var a := FirstPool(s, input.desired.raw);
    Ledgers3(input);
    InputEffect(input, a, n);
    InputEffect(input, a.Other(), n);
    assert Gained(input, a, n) == 0 && Gained(input, a.Other(), n) == 0;
    UnpaidTwice(s, LedgerAfter(input, a), PoolsOf(input).ledger, n, a, Touched(input, a, n),
      Touched(input, a.Other(), n));
  }
}
