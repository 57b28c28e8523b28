/** Pinned compute counts: one below the floor, and two negative ones that break the core floor of a whole plan. */
module FloorWitness {
  import opened Arith
  import opened Model
  import opened Ledgers
  import opened PoolPlanner
  import opened DriveCoreCounts
  import opened Planner
  import opened PlanTheorems
  import opened WitnessSites
  import opened PlanWitness
  import opened AdvisoryWitness
  import opened HugepageWitness
  import CP = ComputePlanner
  import CG = ComputeGuarantees
  import CL = ComputeLayout
  import HugepageSizing
  import FdSpread
  import Placement
  import PR = PlanRuns

  /** One pinned container: derived as it is, under a floor of three and with the planner's own hugepage function. */
  lemma CountBelowFloor(tlc: int)
    ensures var s, desired := Greenfield(tlc), DesiredCapacity(Caps(3000, 0), 1, 1, 0, 0);
      && CP.On(s, Opening(s.inv).budgets) && TRIO <= s.inv.Keys
      && CP.DerivedLayout(s, Opening(s.inv).budgets, desired, 3, [], TRIO, 1) == CL.Layout(1, 1)
  {
    var s, desired := Greenfield(tlc), DesiredCapacity(Caps(3000, 0), 1, 1, 0, 0);
    var b := Opening(s.inv).budgets;
    assert CP.On(s, b) && TRIO <= s.inv.Keys;
    var hp := CP.HugepagesFor(desired.raw, s.cons)(1, 1);
    assert hp == HugepageSizing.ComputeHugepages(desired.raw, 1, 1, CONS) == 3000;
    forall n | n in TRIO ensures CP.Hosts(s, b, n, 1, hp) { TrioHosts(tlc, n, 1, hp); }
    TrioSize();
    hide CP.Hosts, CL.Fitting, CP.CoreHeadrooms, CP.HugepageHeadrooms, CP.ComputeNodes, Opening, Three, CL.TopNMin,
      CP.HugepagesFor, HugepageSizing.ComputeHugepages;
    FitsEverywhere(s, b, TRIO, 1, hp);
    var nodes := CP.ComputeNodes(s, TRIO);
    var hs, hps := CP.CoreHeadrooms(s, b, [], nodes), CP.HugepageHeadrooms(s, b, [], nodes);
    FitsNarrow(hs, Some(hps), 1, hp);
    CL.TopNMinCounts(hs, 1, 1, 0);
  }

  // ----- two negative pins -----

  /** The greenfield input with one-core computes in place and pins -1 and -3, whose product is the required three. */
  const NEGATIVE := GREEN.(
    desired := DesiredCapacity(Caps(1000, 0), -1, -3, 0, 0),
    compute := [ExistingCompute("u", "a", 1, 3000, false), ExistingCompute("v", "b", 1, 3000, false),
                ExistingCompute("w", "c", 1, 3000, false)])

  lemma NegativeDerived(s: Site, b: CP.Budgets, desired: DesiredCapacity, minFds: int, compute: seq<ExistingCompute>,
      eligible: set<string>, t: int)
    requires CP.On(s, b) && eligible <= s.inv.Keys && !CP.PinsUsable(desired)
    requires desired.computeContainers * desired.computeCores >= t
    ensures CP.DerivedLayout(s, b, desired, minFds, compute, eligible, t) ==
      CL.Layout(desired.computeContainers, desired.computeCores)
  {
    hide CL.TopNMin, CL.Fitting, CP.CoreHeadrooms, CP.HugepageHeadrooms, CP.ComputeNodes;
    CL.NoneTopped(CP.CoreHeadrooms(s, b, compute, CP.ComputeNodes(s, eligible)), desired.computeContainers,
      s.cons.maxCoresPerContainer);
  }

  /** Two negative pins are placed as soon as their product suffices and the existing computes span enough. */
  lemma NegativePlaced(s: Site, b: CP.Budgets, desired: DesiredCapacity, minFds: int, compute: seq<ExistingCompute>,
      eligible: set<string>, t: int)
    requires CP.On(s, b) && eligible <= s.inv.Keys && !CP.PinsUsable(desired)
    requires desired.computeContainers * desired.computeCores >= t
    requires |CG.FdsOf(s, CP.Pinned(s, compute))| >= minFds
    ensures CP.PlanCompute(s, b, desired, minFds, compute, eligible, t).Placed?
  {
    NegativeDerived(s, b, desired, minFds, compute, eligible, t);
    var count, cores := desired.computeContainers, desired.computeCores;
    hide CP.DerivedLayout, CP.LayOut, CP.LaidCores, CP.CoveredFds, HugepageSizing.ComputeHugepages, CP.Pinned,
      CP.PlanCompute, CG.FdsOf;
    CG.LaidFds(s, b, compute, cores, HugepageSizing.ComputeHugepages(desired.raw, count, cores, s.cons));
    NoneAdded(s, b, desired, minFds, compute, eligible, t, count, cores);
  }

  lemma OneOnEach(s: Site, e: seq<ExistingCompute>)
    requires |e| == 3 && e[0].node == "a" && e[1].node == "b" && e[2].node == "c" && TRIO <= s.inv.Keys
    ensures CP.Pinned(s, e) == TRIO
  {
    Letters();
    assert e[0] in e && e[1] in e && e[2] in e;
  }

  lemma AllResized(s: Site, e: seq<ExistingCompute>, cores: int)
    requires |e| == 3 && s.cons.allowInPlaceGrowth
    requires forall i :: 0 <= i < 3 ==> CP.Resident(s, e[i]) && !e[i].unscheduled
    ensures CG.KeptCores(s, e, cores) == 3 * cores
  {
    assert e[..2][..1] == e[..1] && e[..1][..0] == [] && e[..3] == e;
    assert CG.KeptCores(s, e[..1], cores) == cores && CG.KeptCores(s, e[..2], cores) == 2 * cores;
  }

  /** What the plan of NEGATIVE depends on. */
  ghost predicate IsNegative(input: Input) {
    && input.Place() == Greenfield(2000) && input.desired == DesiredCapacity(Caps(1000, 0), -1, -3, 0, 0)
    && input.scheme == GREEN.scheme && input.drives == [] && input.cons == CONS
    && input.computeNodes.Some? && CP.EligibleNodes(Greenfield(2000), input.computeNodes.value) == TRIO
    && CP.Pinned(Greenfield(2000), input.compute) == TRIO && CG.NonNegativeComputes(input.compute)
    && CG.KeptCores(Greenfield(2000), input.compute, -3) == -9
  }

  lemma NegativeIs()
    ensures IsNegative(NEGATIVE)
  {
    Letters();
    AdvisoryWitness.PlaceIs();
    assert NEGATIVE.Place() == GREEN.Place();
    hide PR.InventoryMap, CP.EligibleNodes;
    OneOnEach(Greenfield(2000), NEGATIVE.compute);
    AllResized(Greenfield(2000), NEGATIVE.compute, -3);
  }

  lemma OwnFds(s: Site)
    requires forall n :: n in TRIO ==> n in s.inv && s.inv[n].fdValue == n
    ensures CG.FdsOf(s, TRIO) == TRIO
  {
    forall f | f in TRIO ensures f in CG.FdsOf(s, TRIO) { assert s.inv[f].fdValue == f; }
  }

  lemma GreenNode(n: string)
    requires n in TRIO
    ensures n in Greenfield(2000).inv && Greenfield(2000).inv[n].fdValue == n
  {
    Letters();
  }

  lemma TrioFds()
    ensures |CG.FdsOf(Greenfield(2000), TRIO)| == 3 && TRIO <= Greenfield(2000).inv.Keys
  {
    hide Greenfield, CG.FdsOf;
    TrioSize();
    forall n | n in TRIO ensures n in Greenfield(2000).inv && Greenfield(2000).inv[n].fdValue == n { GreenNode(n); }
    OwnFds(Greenfield(2000));
  }

  lemma NegativeCompute(input: Input, b: CP.Budgets)
    requires IsNegative(input) && b.Keys == Greenfield(2000).inv.Keys
    ensures ComputeOf(input, b, 3).Placed?
  {
    TrioFds();
    hide CP.PlanCompute, PR.InventoryMap, CP.EligibleNodes, CP.Pinned, CG.FdsOf, CG.KeptCores, Greenfield,
      CG.NonNegativeComputes;
    NegativePlaced(Greenfield(2000), b, input.desired, 3, input.compute, TRIO, 3);
  }

  lemma SamePools(input: Input)
    requires IsNegative(input)
    ensures Pools(input, NO_CAPS) == Pools(GREEN, NO_CAPS)
  {
    AdvisoryWitness.PlaceIs();
    hide PlanPools, PR.InventoryMap, Greenfield, CP.Pinned, CP.EligibleNodes, CG.KeptCores, CG.NonNegativeComputes;
  }

  /** The ledger of the greenfield pools and what is emitted from it. */
  lemma GreenEmission() returns (l: Ledger)
    ensures Tracks(Greenfield(2000), l) && Tracks(GREEN.Place(), l) && Pools(GREEN, NO_CAPS) == PoolState(l, NO_NOTES)
    ensures var e := Emit(Greenfield(2000), l, 0);
      && e.failure.None? && e.budgets.Keys == Greenfield(2000).inv.Keys
      && NewTlcCores(e.create, CONS) == 3 && NewQlcCores(e.create, CONS) == 0
  {
    assert Greenfield(2000).cons == CONS;
    hide IsPlaced, Pools, Emit, NewTlcCores, NewQlcCores, PR.InventoryMap, Opening, Greenfield;
    l := GreenPools();
    FieldEmission(Greenfield(2000), Opening(Greenfield(2000).inv), l);
  }

  lemma SchemeIs(input: Input)
    requires IsNegative(input)
    ensures ProtectionOk(input.scheme, input.cons) && Targets(input.desired, input.scheme.MinFdNum()) == Some(NO_CAPS)
    ensures input.Place() == Greenfield(2000) && input.drives == [] && input.cons == CONS
    ensures input.desired.driveContainers == input.desired.driveCores == 0
  {
    hide PR.InventoryMap, Greenfield, CP.Pinned, CP.EligibleNodes, CG.KeptCores, CG.NonNegativeComputes;
  }

  lemma NegativeFeasible(input: Input)
    requires IsNegative(input)
    ensures PlanCapacity(input).Feasible() && PlanCapacity(input).requiredComputeCores == 3
  {
    hide IsNegative, Pools, Emit, ComputeOf, NewTlcCores, NewQlcCores, ExistingTlcCores, ExistingQlcCores,
      RequiredComputeCores, ProtectionOk, PlanCapacity, PR.InventoryMap, Greenfield, Targets, DistinctDriveFds;
    SchemeIs(input);
    SamePools(input);
    var l := GreenEmission();
    RequiredIs(l);
    NegativeCompute(input, Emit(Greenfield(2000), l, 0).budgets);
    FeasibleFrom(input, NO_CAPS, PoolState(l, NO_NOTES), 3);
  }

  lemma NegativeFloor(input: Input, naming: string -> string)
    requires IsNegative(input)
    ensures var plan := PlanCapacity(input);
      plan.Feasible() && plan.requiredComputeCores == 3 && CG.SpecCores(plan.layout) < 3
  {
    NegativeFeasible(input);
    TrioFds();
    hide PlanCapacity, Applied, CG.KeptCores, CP.Pinned, CG.FdsOf, PR.InventoryMap, CG.SpecCores, CoreSum, Greenfield,
      CG.NonNegativeComputes, CP.EligibleNodes;
    CoreFloor(input, naming);
  }

  /** The plan is feasible, and its compute layout misses the three cores required. */
  lemma NegativePinsFail(naming: string -> string)
    ensures var plan := PlanCapacity(NEGATIVE);
      plan.Feasible() && plan.requiredComputeCores == 3 && CG.SpecCores(plan.layout) < 3
  {
    NegativeIs();
    hide IsNegative, PlanCapacity, CG.SpecCores;
    NegativeFloor(NEGATIVE, naming);
  }

  // ----- the guard of new computes, for lack of CPU -----

  /** Three nodes with hugepages to spare; node c has a single CPU. */
  const SCARCE := Site(Three(0)["c" := Node("c", "c", 0).(allocatableCpu := 1)], [], CONS)

  const REFUSED := DesiredCapacity(Caps(3000, 0), -1, -3, 0, 0)

  /** What matters of that site and its budgets. */
  ghost predicate IsScarce(s: Site, b: CP.Budgets) {
    && CP.On(s, b) && s.cons == CONS && TRIO <= s.inv.Keys && b["c"].cores == 1
    && forall n :: n in TRIO ==> s.inv[n].fdValue == n && b[n].cores >= 1 && b[n].hugepages >= 0
  }

  lemma ScarceIs()
    ensures IsScarce(SCARCE, Opening(SCARCE.inv).budgets)
  {
    Letters();
  }

  lemma AllFree(s: Site, b: CP.Budgets, hp: int)
    requires IsScarce(s, b) && hp <= 0
    ensures CG.FreeNodes(s, b, CP.Pinned(s, []), TRIO, -3, hp) == TRIO
  {
    assert CP.Pinned(s, []) == {};
    forall n | n in TRIO ensures CP.Hosts(s, b, n, -3, hp) {}
  }

  lemma ScarceSetting(s: Site, b: CP.Budgets)
    requires IsScarce(s, b)
    ensures CG.DerivedLayoutFound(s, b, REFUSED, 3, [], TRIO, 3)
    ensures var x := CG.SettingOf(s, b, REFUSED, 3, [], TRIO, 3);
      x.first == 0 && x.covered == {} && x.free == TRIO && CG.FdsOf(s, TRIO) == TRIO
  {
    var hp := HugepageSizing.ComputeHugepages(REFUSED.raw, -1, -3, CONS);
    CG.NegativeHugepages(REFUSED.raw, -1, -3, CONS);
    AllFree(s, b, hp);
    OwnFds(s);
    hide CP.DerivedLayout, CG.FreeNodes, CG.FdsOf, CP.Pinned, HugepageSizing.ComputeHugepages;
    NegativeDerived(s, b, REFUSED, 3, [], TRIO, 3);
  }

  lemma OnSite(s: Site, b: CP.Budgets)
    requires IsScarce(s, b)
    ensures CP.On(s, b) && TRIO <= s.inv.Keys
  {
  }

  lemma ScarceSized(s: Site, b: CP.Budgets)
    requires IsScarce(s, b)
    ensures CP.Size(s, b, REFUSED, 3, [], TRIO, 3).Sized?
  {
    TrioSize();
    assert {} + TRIO == TRIO;
    hide IsScarce, CG.SettingOf, CP.Size, CG.FdsOf, CG.DerivedLayoutFound;
    assert CP.On(s, b) by { OnSite(s, b); }
    ScarceSetting(s, b);
    CG.SpanExact(s, b, REFUSED, 3, [], TRIO, 3);
  }

  /** Three failure domains cannot be spanned without node c. */
  lemma SpanNeedsC(s: Site, order: seq<string>, n: nat) returns (i: nat)
    requires n <= |order| && FdSpread.Resolved(CP.FdMap(s), order) && |FdSpread.SpanAt({}, CP.FdMap(s), order, n)| >= 3
    requires forall x :: x in order ==> x in TRIO && x in s.inv && s.inv[x].fdValue == x
    ensures i < n && order[i] == "c"
  {
    TrioSize();
    var span := FdSpread.SpanAt({}, CP.FdMap(s), order, n);
    assert span <= TRIO;
    FdSpread.SubsetSize(span, TRIO);
    AdvisoryWitness.SameSize(span, TRIO);
    assert "c" in span;
    i :| 0 <= i < n && CP.FdMap(s)[order[i]] == "c";
    assert order[i] in order;
  }

  lemma OneCpuShort(s: Site, b: CP.Budgets, share: nat, total: int)
    requires IsScarce(s, b) && share >= 1
    ensures "c" in s.inv && !CG.ShareFits(s, b, REFUSED.raw, "c", share, total)
  {
    hide HugepageSizing.ComputeHugepages;
  }

  /** The plan that was sized adds its computes to nothing, and among the nodes it chose is node c. */
  lemma ScarcePlan(s: Site, b: CP.Budgets) returns (i: nat)
    requires IsScarce(s, b) && CP.Size(s, b, REFUSED, 3, [], TRIO, 3).Sized?
    ensures var p := CP.Size(s, b, REFUSED, 3, [], TRIO, 3).plan;
      p.lay == CP.LayState(b, []) && i < p.nNew <= |p.order| && p.order[i] == "c"
  {
    var p := CP.Size(s, b, REFUSED, 3, [], TRIO, 3).plan;
    CP.SizedOrder(s, b, REFUSED, 3, [], TRIO, 3);
    hide CP.Size, CP.Hosts, CP.Pinned, CP.DerivedLayout, HugepageSizing.ComputeHugepages, FdSpread.SpanAt, CP.FdMap;
    CG.SizedParts(s, b, REFUSED, 3, [], TRIO, 3);
    i := SpanNeedsC(s, p.order, p.nNew);
  }

  lemma ShareOne(split: nat, n: nat, i: nat)
    requires split >= n > 0
    ensures Placement.Share(split, n, i) >= 1
  {
    DivAdjoint(1, split, n);
  }

  lemma GuardReport(s: Site, b: CP.Budgets, desired: DesiredCapacity, minFds: int, eligible: set<string>, t: int)
    requires CP.On(s, b) && eligible <= s.inv.Keys && CP.Size(s, b, desired, minFds, [], eligible, t).Sized?
    requires !CP.PlanCompute(s, b, desired, minFds, [], eligible, t).Placed?
    ensures CP.PlanCompute(s, b, desired, minFds, [], eligible, t) == CP.Failed(Report(ComputeStage, Hugepages, 0))
  {
    CP.SizedOrder(s, b, desired, minFds, [], eligible, t);
    hide CP.Size, CP.PlaceNew, CP.Resized, FdSpread.Resolved;
  }

  lemma ChoosesTooSmall(s: Site, b: CP.Budgets, p: CP.Plan, i: nat)
    requires IsScarce(s, b) && CP.Placeable(s, p) && p.lay == CP.LayState(b, []) && i < p.nNew <= |p.order|
    requires p.order[i] == "c"
    ensures !CG.NewSharesFit(s, REFUSED.raw, p)
  {
    hide IsScarce, CG.ShareFits, Placement.Share, FdSpread.Resolved;
    ShareOne(Max(p.shortfall, p.nNew), p.nNew, i);
    OneCpuShort(s, b, Placement.Share(Max(p.shortfall, p.nNew), p.nNew, i), p.nNew);
  }

  lemma ScarceRefused(s: Site, b: CP.Budgets)
    requires IsScarce(s, b)
    ensures CP.On(s, b) && TRIO <= s.inv.Keys
    ensures CP.PlanCompute(s, b, REFUSED, 3, [], TRIO, 3) == CP.Failed(Report(ComputeStage, Hugepages, 0))
  {
    OnSite(s, b);
    hide IsScarce, CP.Size, CP.PlanCompute, CG.NewHugepagesFit, CG.NewSharesFit, CP.Placeable;
    ScarceSized(s, b);
    var i := ScarcePlan(s, b);
    CG.NewComputeGuardExact(s, b, REFUSED, 3, [], TRIO, 3);
    ChoosesTooSmall(s, b, CP.Size(s, b, REFUSED, 3, [], TRIO, 3).plan, i);
    GuardReport(s, b, REFUSED, 3, TRIO, 3);
  }

  /** Pins -1 and -3: the guard of new computes fires although only CPU is short. */
  lemma GuardFiresForCpu()
    ensures var b := Opening(SCARCE.inv).budgets;
      && CP.On(SCARCE, b) && TRIO <= SCARCE.inv.Keys
      && CP.PlanCompute(SCARCE, b, REFUSED, 3, [], TRIO, 3) == CP.Failed(Report(ComputeStage, Hugepages, 0))
  {
    ScarceIs();
    hide CP.PlanCompute, Opening;
    ScarceRefused(SCARCE, Opening(SCARCE.inv).budgets);
  }
}
