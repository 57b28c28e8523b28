/** Plans with a pinned count: one lists growth that changes nothing, one grows cores nobody paid for. */
module RecordWitness {
  import opened Arith
  import opened Model
  import opened NodeBudget
  import opened Ledgers
  import opened Placement
  import opened PoolDecision
  import opened PoolPlanner
  import opened Planner
  import opened EmissionFacts
  import opened PlanTheorems
  import opened AdvisoryTheorems
  import opened AutoMode
  import opened AutoFigures
  import opened AutoTheorems
  import opened GrowRecords
  import opened GrownCores
  import opened PinnedRecords
  import opened WitnessSites
  import PR = PlanRuns
  import DriveCoreCounts

  const FULL := ExistingContainer("x", "a", "a", Caps(500, 0), 1, false)
  const TIGHT := ExistingContainer("y", "b", "b", Caps(100, 0), 1, false)

  /** The node of container y, with `free` GiB and `cpu` CPUs left. */
  function Middle(free: int, cpu: int): NodeCapacity { Node("b", "b", free).(allocatableCpu := cpu) }

  /** Three failure domains pinned for 1500 GiB: container x has its share, y lacks 400 GiB, node c starts afresh. */
  function Trio(free: int, cpu: int, driveCores: int): Input {
    Input(
      DesiredCapacity(Caps(1500, 0), 0, 0, 3, driveCores), ProtectionScheme(2, 1, 0), [FULL, TIGHT], [],
      [Node("a", "a", 0), Middle(free, cpu), Node("c", "c", 1000)], None, CONS)
  }

  function Here(free: int, cpu: int): Site {
    Site(map["a" := Node("a", "a", 0), "b" := Middle(free, cpu), "c" := Node("c", "c", 1000)], [FULL, TIGHT], CONS)
  }

  lemma PlaceIs(free: int, cpu: int, driveCores: int)
    ensures Trio(free, cpu, driveCores).Place() == Here(free, cpu)
  {
    Letters();
    var inv := Trio(free, cpu, driveCores).inventory;
    assert inv[..2][..1] == inv[..1] && inv[..1][..0] == [] && inv[..3] == inv;
    assert PR.InventoryMap(inv[..1]) == map["a" := Node("a", "a", 0)];
    assert PR.InventoryMap(inv[..2]) == map["a" := Node("a", "a", 0), "b" := Middle(free, cpu)];
  }

  lemma HereIsAuto(free: int, cpu: int)
    ensures AutoSite(Here(free, cpu))
  {
    Letters();
    assert "x" != "y" by { assert "x"[0] == 'x' && "y"[0] == 'y'; }
  }

  lemma HereFigures(free: int, cpu: int)
    ensures var e := Here(free, cpu).existing; PoolCurrent(e, TLC) == 600 && Bearers(e, TLC) == ["a", "b"]
  {
    var e := Here(free, cpu).existing;
    assert e[..1] == [FULL] && e[..1][..0] == [];
    assert PoolCurrent(e[..1], TLC) == 500 && Bearers(e[..1], TLC) == ["a"];
  }

  lemma PinIsPlaced(free: int, cpu: int)
    ensures PinPlaces(Here(free, cpu), TLC, 1500, 3)
  {
    var s := Here(free, cpu);
    HereFigures(free, cpu);
    HereIsAuto(free, cpu);
    AutoIsDrives(s);
    FdListsAre(s, s.existing, TLC);
    hide PoolCurrent, Bearers, PoolFds, AutoSite, AutoDrives, FirstGap;
    assert GoDiv(900, 1) == 900;
  }

  lemma MiddleRoom(free: int, cpu: int)
    requires 0 <= free <= 500 && cpu >= 1
    ensures Headroom(Middle(free, cpu), InitialBudget(Middle(free, cpu)), TLC, CONS, false) == free
  {
    DataCoresFitExact(Middle(free, cpu), cpu, Manual, 0, false, 1);
  }

  lemma TargetsAre(free: int, cpu: int, driveCores: int)
    ensures TargetsOf(Trio(free, cpu, driveCores)) == Caps(3, 0)
    ensures FirstPool(Trio(free, cpu, driveCores).Place(), Caps(1500, 0)) == TLC
  {
    hide PR.InventoryMap;
  }

  /** Container y is touched, and gains what it lacks exactly when its node has room for it; x lacks nothing. */
  lemma TlcRecords(free: int, cpu: int, driveCores: int)
    requires 0 < free <= 500 && cpu >= 1
    ensures var input := Trio(free, cpu, driveCores);
      && "a" in input.Place().inv && "b" in input.Place().inv
      && !Touched(input, TLC, "a") && Gained(input, TLC, "a") == 0
      && Touched(input, TLC, "b") && Gained(input, TLC, "b") == if free < 400 then 0 else 400
  {
    var input := Trio(free, cpu, driveCores);
    PlaceIs(free, cpu, driveCores);
    HereIsAuto(free, cpu);
    PinIsPlaced(free, cpu);
    MiddleRoom(free, cpu);
    TargetsAre(free, cpu, driveCores);
    assert input.drives[0] == FULL && input.drives[1] == TIGHT;
    assert CeilDiv(1500, 3) == 500;
    hide PinPlaces, HeadroomBinding, AutoSite, PR.InventoryMap, Touched, Gained, FdCompleted, StateBefore, TargetsOf,
      RoomAt, FirstPool;
    FirstRoom(input, "b");
    PinnedRecord(input, TLC, FULL);
    PinnedRecord(input, TLC, TIGHT);
  }

  lemma QlcUntouched(free: int, cpu: int, driveCores: int, n: string)
    requires n in Trio(free, cpu, driveCores).Place().inv
    ensures !Touched(Trio(free, cpu, driveCores), QLC, n) && Gained(Trio(free, cpu, driveCores), QLC, n) == 0
  {
    hide FreshDecision, ExplicitDecision, IncreaseDecision, StateBefore, PR.InventoryMap;
    assert DecisionFor(Trio(free, cpu, driveCores), QLC) == Keep;
  }

  lemma {:induction false} AllEmitted(growth: map<string, Caps>, names: seq<string>, driveCores: int,
      cons: Constraints)
    requires forall i :: 0 <= i < |names| ==>
      names[i] in growth && DriveCoreCounts.PinCores(growth[names[i]], driveCores, cons).Pinned?
    ensures EmitGrow(growth, names, driveCores, cons).ok
  {
    hide DriveCoreCounts.PinCores;
    if names != [] { AllEmitted(growth, names[..|names| - 1], driveCores, cons); }
  }

  ghost predicate Lists(grow: seq<ContainerGrowth>, name: string, caps: Caps) {
    exists k :: 0 <= k < |grow| && grow[k].name == name && grow[k].caps == caps
  }

  /** If every record of a checked plan can be pinned, each is listed with its capacity and pinned cores. */
  lemma ListsRecord(input: Input, name: string)
    requires Checked(input) && name in PoolsOf(input).ledger.growth
    requires forall k :: k in PoolsOf(input).ledger.growth ==>
      DriveCoreCounts.PinCores(PoolsOf(input).ledger.growth[k], input.desired.driveCores, input.cons).Pinned?
    ensures Lists(PlanCapacity(input).grow, name, PoolsOf(input).ledger.growth[name])
  {
    hide PR.InventoryMap, PlanPools, EmitGrow, EmitCreate, ComputeOf, DistinctDriveFds, ProtectionOk,
      SplitDriveContainers, DriveCoreCounts.RequiredComputeCores, DriveCoreCounts.PinCores;
    var l, d, cons := PoolsOf(input).ledger, input.desired.driveCores, input.cons;
    var names := Recorded(l.growth.Keys);
    RecordedFacts(l.growth.Keys);
    AllEmitted(l.growth, names, d, cons);
    GrowLookup(l.growth, names, d, cons, name);
    var list := EmitGrow(l.growth, names, d, cons).list;
    assert PlanCapacity(input).grow == list;
    var k :| 0 <= k < |names| && names[k] == name;
    GrowListed(l.growth, names, d, cons, k);
  }

  /** A record of container y alone. */
  lemma OnlyTight(s: Site, l: Ledger, caps: Caps)
    requires s.existing == [FULL, TIGHT] && Named(s, l) && FULL.name !in l.growth && TIGHT.name in l.growth
    requires GrowthOf(l, TIGHT) == caps
    ensures l.growth == map[TIGHT.name := caps]
  {
    forall k | k in l.growth ensures k == TIGHT.name {
      var c :| c in s.existing && c.name == k;
      assert c == FULL || c == TIGHT;
    }
  }

  /** The only record is that of container y: 100 GiB as before, or 500 when its node has the room. */
  lemma TightIsRecorded(free: int, cpu: int, driveCores: int)
    requires 0 < free <= 500 && cpu >= 1
    ensures PoolsOf(Trio(free, cpu, driveCores)).ledger.growth ==
      map[TIGHT.name := Caps(if free < 400 then 100 else 500, 0)]
  {
    var input := Trio(free, cpu, driveCores);
    PlaceIs(free, cpu, driveCores);
    HereIsAuto(free, cpu);
    TlcRecords(free, cpu, driveCores);
    QlcUntouched(free, cpu, driveCores, "a");
    QlcUntouched(free, cpu, driveCores, "b");
    assert input.drives == [FULL, TIGHT] && input.drives[0] == FULL && input.drives[1] == TIGHT;
    AutoOneNode(input.Place());
    WellFormedNonNegative(input.Place());
    HostIs(input.drives, FULL);
    HostIs(input.drives, TIGHT);
    hide Touched, AutoSite, PR.InventoryMap, PlanPools, Gained, Named, Middle, Here, HostOn;
    NodeRecord(input, "a");
    NodeRecord(input, "b");
    PoolsKeepFloor(input.Place(), input.desired.raw, input.scheme.MinFdNum(), TargetsOf(input));
    OnlyTight(input.Place(), PoolsOf(input).ledger, Caps(if free < 400 then 100 else 500, 0));
  }

  /** With 50 GiB left on its node, the plan lists growth of container y to the 100 GiB it already holds. */
  lemma ZeroChangeListed()
    ensures Lists(PlanCapacity(Trio(50, 64, 0)).grow, TIGHT.name, TIGHT.caps)
  {
    TightIsRecorded(50, 64, 0);
    assert Checked(Trio(50, 64, 0));
    hide PlanCapacity, PoolsOf, PR.InventoryMap;
    ListsRecord(Trio(50, 64, 0), TIGHT.name);
  }

  /**
   * Pinned to eight cores, container y grows from one core to eight on a node with two CPUs: the plan lists it, and its
   * growth has paid for a single core.
   */
  lemma GrownCoresUnpaid()
    ensures var input := Trio(500, 2, 8);
      "b" in input.Place().inv && input.Place().inv["b"].allocatableCpu == 2 &&
      exists k :: 0 <= k < |PlanCapacity(input).grow| &&
        var g := PlanCapacity(input).grow[k];
        && g.name == TIGHT.name && g.newCores == 8 && TIGHT.numCores == 1
        && !CoresPaid(input.Place().inv["b"], EmissionOf(input).budgets["b"], TIGHT, g, CONS)
  {
    var input := Trio(500, 2, 8);
    TightIsRecorded(500, 2, 8);
    PlaceIs(500, 2, 8);
    HereIsAuto(500, 2);
    assert Checked(input) && input.drives[1] == TIGHT;
    assert GrowthCharge(TIGHT.caps, Caps(500, 0), CONS) == 1;
    hide PlanCapacity, PoolsOf, PR.InventoryMap, AutoSite, EmissionOf, Spent, CoresPaid, GrowthCharge;
    ListsRecord(input, TIGHT.name);
    var grow := PlanCapacity(input).grow;
    var k :| 0 <= k < |grow| && grow[k].name == TIGHT.name && grow[k].caps == Caps(500, 0);
    EntryCores(input, k);
    GrowthSpends(input, TIGHT);
    PaidExactly(Middle(500, 2), EmissionOf(input).budgets["b"], TIGHT, grow[k], 1, CONS);
  }
}
