/** A uniform increase over a failure domain of two uneven hosts, after which the next plan advises a shrink. */
module ShrinkWitness {
  import opened Arith
  import opened Model
  import opened NodeBudget
  import opened Ledgers
  import opened Placement
  import opened FdRecords
  import opened FreshFds
  import opened PoolDecision
  import opened PoolPlanner
  import opened DriveCoreCounts
  import opened Planner
  import opened EmissionFacts
  import opened PlanTheorems
  import opened AdvisoryTheorems
  import opened GrowRecords
  import opened GrownCores
  import opened SiteTheorems
  import opened WitnessSites
  import opened PlanWitness
  import opened FdWitness
  import Ordering
  import AdvisoryWitness
  import FdSpread
  import RecordWitness
  import Seating
  import PR = PlanRuns
  import CP = ComputePlanner
  import HugepageSizing

  // ----- what the pool gains -----

  const THREE := [PAIR, Lone("b"), Lone("c")]

  lemma PairLack(s: Site, level: nat)
    requires level % 2 == 0
    ensures GroupLack(s, TLC, level, PAIR) ==
      Max(0, level / 2 - NodeCur(s, "a", TLC)) + Max(0, level / 2 - NodeCur(s, "d", TLC))
  {
    hide NodeCur;
    assert Share(level, 2, 0) == level / 2 && Share(level, 2, 1) == level / 2;
    assert HostsLack(s, TLC, PAIR.nodes, level, 0) == 0;
    assert HostsLack(s, TLC, PAIR.nodes, level, 1) == Max(0, level / 2 - NodeCur(s, "a", TLC));
  }

  lemma LoneLack(s: Site, n: string, level: nat)
    ensures GroupLack(s, TLC, level, Lone(n)) == Max(0, level - NodeCur(s, n, TLC))
  {
    hide NodeCur;
    assert Share(level, 1, 0) == level;
    assert HostsLack(s, TLC, [n], level, 0) == 0;
  }

  lemma LoneComplete(s: Site, l: Ledger, n: string, c: ExistingContainer, level: nat)
    requires Tracks(s, l) && n in s.inv && HostOn(s.existing, n) == Some(c) && level - c.caps.tlc <= RoomOf(s, l, n)
    ensures OnSite(s, Lone(n)) && Complete(s, l, TLC, level, Lone(n))
  {
    var g := Lone(n);
    ShareAt(level, g, 0);
    assert Share(level, 1, 0) == level;
    hide HeadroomBinding, HostOn, ShareOf;
  }

  lemma GainIs(s: Site, l: Ledger)
    requires Tracks(s, l) && AllOnSite(s, THREE)
    requires Complete(s, l, TLC, 1452, THREE[0]) && Complete(s, l, TLC, 1452, THREE[1])
    requires Complete(s, l, TLC, 1452, THREE[2])
    requires GroupLack(s, TLC, 1452, THREE[0]) == 716
    requires GroupLack(s, TLC, 1452, THREE[1]) == GroupLack(s, TLC, 1452, THREE[2]) == 242
    ensures LevelGain(s, l, TLC, 1452, THREE) == 1200
  {
    hide Complete, GroupLack, OnSite;
    assert THREE[..2][..1] == THREE[..1] && THREE[..1][..0] == [] && THREE[..3] == THREE;
    assert LevelGain(s, l, TLC, 1452, THREE[..1]) == 716 && LevelGain(s, l, TLC, 1452, THREE[..2]) == 958;
  }

  // ----- the input -----

  /** What matters of the site: two uneven hosts in failure domain a, the other two failure domains alone. */
  ghost predicate Stocked(s: Site) {
    var e := s.existing;
    && s.cons == CONS && s.inv.Keys == HOSTS && |e| == 4 && UniqueNames(e) && NonNegativeDrives(e)
    && HostOn(e, "a") == Some(e[0]) && HostOn(e, "d") == Some(e[1]) && HostOn(e, "b") == Some(e[2])
    && HostOn(e, "c") == Some(e[3])
    && e[0].caps == Caps(1200, 0) && e[1].caps == Caps(10, 0) && e[2].caps == e[3].caps == Caps(1210, 0)
    && e[0].fdValue == "a" && e[2].fdValue == "b" && e[3].fdValue == "c" && e[0].numCores == 2
    && (forall n :: n in TRIO ==> s.inv[n].fdValue == n)
    && forall n :: n in HOSTS ==>
      s.inv[n].allocatableCpu == 64 && s.inv[n].hugepages == 1_000_000 && !s.inv[n].isHt && !s.inv[n].fullPcpusOnly
  }

  /** What matters of the input: 4356 GiB at 2+1 over that site, with three three-core computes. */
  ghost predicate Loaded(input: Input) {
    var s := input.Place(); var l := Opening(s.inv);
    && Stocked(s) && input.cons == CONS && input.scheme == ProtectionScheme(2, 1, 0)
    && input.desired == DesiredCapacity(Caps(4356, 0), 3, 3, 0, 0) && input.compute == []
    && input.computeNodes.Some? && CP.EligibleNodes(s, input.computeNodes.value) == TRIO
    && StateBefore(input, TLC).ledger == l && Grows(s, l, 1452) && DecisionFor(input, QLC) == Keep
    && DecisionFor(input, TLC) == DecidePool(s, l, TLC, 4356, 3, 0)
    && RoomOf(s, l, "a") == 1000 && RoomOf(s, l, "d") == 900 && RoomOf(s, l, "b") == RoomOf(s, l, "c") == 1000
  }

  lemma StockedIs()
    ensures Stocked(Uneven(1200, 10, 1000, 900))
  {
    Letters();
    HostsAre(1200, 10);
    Fields(1200, 10);
    assert Drives(1200, 10)[0].numCores == 2;
    hide HostOn, Drives, UniqueNames, NonNegativeDrives, Nodes;
    assert Nodes(1000, 900).Keys == HOSTS by { KeysAre(); }
    forall n | n in HOSTS ensures n in Nodes(1000, 900) &&
      Nodes(1000, 900)[n] == Node(n, if n == "d" then "a" else n, FreeAt(n, 1000, 900)) { NodeIs(1000, 900, n); }
  }

  lemma KeysAre()
    ensures Nodes(1000, 900).Keys == HOSTS
  {
    Letters();
  }

  lemma LoadedIs()
    ensures Loaded(Asked(1200, 10, 1000, 900, 1452))
  {
    hide Stocked, Grows, Opening, RoomOf, DecidePool, DecisionFor, StateBefore, PR.InventoryMap, Nodes, Drives,
      CP.EligibleNodes;
    PlanGrows(1200, 10, 1000, 900, 1452);
    StockedIs();
    RoomsAre(1200, 10, 1000, 900, "a");
    RoomsAre(1200, 10, 1000, 900, "b");
    RoomsAre(1200, 10, 1000, 900, "c");
    RoomsAre(1200, 10, 1000, 900, "d");
    Letters();
    KeysAre();
    EligibleAre(Uneven(1200, 10, 1000, 900));
  }

  lemma EligibleAre(s: Site)
    requires s.inv.Keys == HOSTS
    ensures CP.EligibleNodes(s, map["a" := true, "b" := true, "c" := true]) == TRIO
  {
    Letters();
  }

  // ----- records and totals -----

  lemma StockedHosts(s: Site)
    requires Stocked(s)
    ensures OnSite(s, PAIR) && "a" in s.inv && "b" in s.inv && "c" in s.inv && "d" in s.inv
    ensures NodeCur(s, "a", TLC) == 1200 && NodeCur(s, "d", TLC) == 10
    ensures NodeCur(s, "b", TLC) == NodeCur(s, "c", TLC) == 1210
    ensures var e := s.existing;
      && |e| == 4 && HostOn(e, "a") == Some(e[0]) && HostOn(e, "d") == Some(e[1]) && HostOn(e, "b") == Some(e[2])
      && HostOn(e, "c") == Some(e[3]) && e[0].caps.tlc == 1200 && e[1].caps.tlc == 10
      && e[2].caps.tlc == e[3].caps.tlc == 1210
  {
    Letters();
    hide HostOn;
  }

  lemma AllComplete(s: Site, l: Ledger)
    requires Stocked(s) && Tracks(s, l) && RoomOf(s, l, "a") == 1000 && RoomOf(s, l, "d") == 900
    requires RoomOf(s, l, "b") == RoomOf(s, l, "c") == 1000
    ensures AllOnSite(s, THREE) && Complete(s, l, TLC, 1452, THREE[0]) && Complete(s, l, TLC, 1452, THREE[1])
    ensures Complete(s, l, TLC, 1452, THREE[2]) && LevelGain(s, l, TLC, 1452, THREE) == 1200
  {
    var e := s.existing;
    hide Complete, RoomOf, TriedAt, GroupLack, LevelGain, OnSite;
    StockedHosts(s);
    hide Stocked, HostOn, NodeCur;
    PairFigures(s, l, 1452, e[0], e[1]);
    LoneComplete(s, l, "b", e[2], 1452);
    LoneComplete(s, l, "c", e[3], 1452);
    PairLack(s, 1452);
    LoneLack(s, "b", 1452);
    LoneLack(s, "c", 1452);
    assert THREE[0] == PAIR && THREE[1].nodes == ["b"] && THREE[2].nodes == ["c"];
    GainIs(s, l);
  }

  lemma LoadedGain(input: Input)
    requires Loaded(input)
    ensures DecisionFor(input, TLC).Place? && GainOf(input, TLC) == 1200
  {
    var s := input.Place();
    hide Stocked, Opening, RoomOf, DecidePool, DecisionFor, StateBefore, PR.InventoryMap, CP.EligibleNodes, Complete,
      LevelGain;
    AllComplete(s, Opening(s.inv));
  }

  /** Whether host n is touched, and what it gains. */
  lemma LoadedNode(input: Input, g: FdGroup, n: string)
    requires Loaded(input) && g in THREE && n in g.nodes && n in input.Place().inv
    ensures var s := input.Place(); var l := Opening(s.inv);
      && OnSite(s, g) && Gained(input, TLC, n) == TriedAt(s, l, TLC, 1452, g, n)
      && (Touched(input, TLC, n) <==> TriedAt(s, l, TLC, 1452, g, n) > 0)
      && !Touched(input, QLC, n) && Gained(input, QLC, n) == 0
  {
    var s := input.Place();
    var l, d := Opening(s.inv), DecisionFor(input, TLC);
    hide Stocked, Opening, RoomOf, StateBefore, PR.InventoryMap, CP.EligibleNodes, Complete, TriedAt, PoolGain, Touches;
    AllComplete(s, l);
    DecisionDisjoint(s, l, TLC, 4356, 3, 0);
    hide DecidePool, DecisionFor;
    var i :| 0 <= i < |THREE| && THREE[i] == g;
    assert ChosenFd(s, d, g, n);
    hide ChosenFd;
    ChosenIs(s, l, TLC, d, g, n);
    QlcLeft(input, n);
  }

  lemma QlcLeft(input: Input, n: string)
    requires n in input.Place().inv && DecisionFor(input, QLC) == Keep
    ensures !Touched(input, QLC, n) && Gained(input, QLC, n) == 0
  {
    hide StateBefore, DecisionFor, PR.InventoryMap;
  }

  lemma LoneTried(s: Site, l: Ledger, n: string, c: ExistingContainer, level: nat)
    requires Tracks(s, l) && n in s.inv && HostOn(s.existing, n) == Some(c)
    ensures TriedAt(s, l, TLC, level, Lone(n), n) ==
      Max(0, Min(level - c.caps.tlc, RoomOf(s, l, n)))
  {
    ShareAt(level, Lone(n), 0);
    assert Share(level, 1, 0) == level;
    hide HeadroomBinding, HostOn, ShareOf;
  }

  lemma RecordOn(input: Input, g: FdGroup, n: string, c: ExistingContainer, add: int)
    requires Loaded(input) && g in THREE && n in g.nodes && n in input.Place().inv
    requires HostOn(input.drives, n) == Some(c)
    requires TriedAt(input.Place(), Opening(input.Place().inv), TLC, 1452, g, n) == add
    ensures var l := PoolsOf(input).ledger;
      (c.name in l.growth <==> add > 0) && GrowthOf(l, c) == Caps(c.caps.tlc + add, c.caps.qlc)
  {
    LoadedNode(input, g, n);
    assert UniqueNames(input.drives) && NonNegativeDrives(input.drives);
    hide Loaded, Opening, PR.InventoryMap, TriedAt, Touched, Gained, PoolsOf, HostOn;
    NodeRecord(input, n);
  }

  lemma HostsOf(s: Site)
    requires Stocked(s)
    ensures PAIR in THREE && THREE[1] in THREE && THREE[2] in THREE && "a" in PAIR.nodes && "d" in PAIR.nodes
    ensures "b" in THREE[1].nodes && "c" in THREE[2].nodes && HOSTS == s.inv.Keys
  {
    assert PAIR.nodes[0] == "a" && PAIR.nodes[1] == "d" && THREE[0] == PAIR;
  }

  /** The growth records of the plan: every container but the first is raised. */
  lemma LoadedRecords(input: Input)
    requires Loaded(input)
    ensures var l, e := PoolsOf(input).ledger, input.drives;
      && |e| == 4 && e[0].name !in l.growth && e[0].numCores == 2
      && e[1].name in l.growth && l.growth[e[1].name] == Caps(726, 0)
      && e[2].name in l.growth && l.growth[e[2].name] == Caps(1452, 0)
      && e[3].name in l.growth && l.growth[e[3].name] == Caps(1452, 0)
  {
    var s := input.Place();
    var l0, e := Opening(s.inv), input.drives;
    assert s.existing == e;
    HostsOf(s);
    StockedHosts(s);
    PairFigures(s, l0, 1452, e[0], e[1]);
    LoneTried(s, l0, "b", e[2], 1452);
    LoneTried(s, l0, "c", e[3], 1452);
    hide Opening, RoomOf, StateBefore, PR.InventoryMap, CP.EligibleNodes, TriedAt, DecidePool, DecisionFor, PoolsOf,
      HostOn, Grows, Complete;
    RecordOn(input, PAIR, "a", e[0], 0);
    RecordOn(input, PAIR, "d", e[1], 716);
    RecordOn(input, THREE[1], "b", e[2], 242);
    RecordOn(input, THREE[2], "c", e[3], 242);
  }

  lemma NoSeat(s: Site, n: string)
    requires Stocked(s)
    ensures !Seating.Seat(s, n)
  {
    hide HostOn;
  }

  lemma NoneCreated(input: Input)
    requires Loaded(input)
    ensures PoolsOf(input).ledger.created == map[]
  {
    var s := input.Place();
    hide Stocked, Opening, RoomOf, StateBefore, PR.InventoryMap, CP.EligibleNodes, DecidePool, DecisionFor, Grows,
      PlanPools, Seating.Seat;
    Seating.PoolsSeated(s, input.desired.raw, input.scheme.MinFdNum(), TargetsOf(input));
    forall n ensures n !in PoolsOf(input).ledger.created { NoSeat(s, n); }
  }

  // ----- the plan is feasible -----

  /** The pool spans three failure domains when containers that carry it do. */
  lemma TrioCarries(s: Site, l: Ledger, c: ExistingContainer, d: ExistingContainer, e: ExistingContainer)
    requires c in s.existing && d in s.existing && e in s.existing
    requires c.fdValue == "a" && d.fdValue == "b" && e.fdValue == "c"
    requires FinalCap(l, c, TLC) > 0 && FinalCap(l, d, TLC) > 0 && FinalCap(l, e, TLC) > 0
    ensures |CarryingFds(s, l, TLC)| >= 3
  {
    Letters();
    assert "a" in CarryingFds(s, l, TLC) && "b" in CarryingFds(s, l, TLC) && "c" in CarryingFds(s, l, TLC);
    hide CarryingFds;
    TrioSize();
    FdSpread.SubsetSize(TRIO, CarryingFds(s, l, TLC));
  }

  lemma CoversTarget(s: Site, l: Ledger)
    requires Stocked(s) && Tracks(s, l) && PoolTotal(s, l, TLC) == 4830
    requires forall c :: c in s.existing ==> FinalCap(l, c, TLC) >= c.caps.tlc
    ensures Feasibility(s, l, TLC, 4356, 3, false) == None
  {
    var e := s.existing;
    assert e[0] in e && e[2] in e && e[3] in e;
    forall c | c in e ensures FinalCap(l, c, TLC) >= 0 { assert c.caps.tlc >= 0; }
    CountedWithinTotal(e, l, TLC, false);
    hide CarryingFds, CountedSum, HostOn, FinalCap;
    TrioCarries(s, l, e[0], e[2], e[3]);
  }

  /** Growing the pool leaves no note behind, since the predicted total is the target. */
  lemma CleanGrowth(s: Site, l: Ledger)
    requires Grows(s, l, 1452) && AllOnSite(s, THREE)
    requires Feasibility(s, PlaceUniform(s, l, TLC, 1452, THREE), TLC, 4356, 3, false) == None
    ensures PlanPool(s, PoolState(l, NO_NOTES), TLC, 4356, 3, 0) ==
      PoolState(PlaceUniform(s, l, TLC, 1452, THREE), NO_NOTES)
  {
    hide DecidePool, PlaceUniform, Feasibility, AllOnSite;
  }

  lemma LoadedPools(input: Input)
    requires Loaded(input)
    ensures PoolsOf(input).notes == NO_NOTES && Pools(input, NO_CAPS) == PoolsOf(input)
  {
    var s := input.Place();
    var l := Opening(s.inv);
    assert TargetsOf(input) == NO_CAPS && input.scheme.MinFdNum() == 3;
    AllComplete(s, l);
    OpeningUnplanned(s, TLC);
    UnplannedTotal(s, l, TLC);
    var l' := PlaceUniform(s, l, TLC, 1452, THREE);
    StockedCurrent(s);
    hide RoomOf, StateBefore, PR.InventoryMap, CP.EligibleNodes, DecisionFor, HostOn, PlanPools, Complete, LevelGain,
      PlaceUniform, PoolTotal, Opening, Unplanned, PoolCurrent, PlanPool, Feasibility;
    DecisionDisjoint(s, l, TLC, 4356, 3, 0);
    UniformTotal(s, l, TLC, 1452, THREE);
    PlaceUniformKeeps(s, l, TLC, 1452, THREE);
    UnplannedFloor(s, l, l');
    hide DecidePool;
    CoversTarget(s, l');
    CleanGrowth(s, l);
    AdvisoryWitness.OnePool(s, Caps(4356, 0), 3, 0, PoolState(l', NO_NOTES));
  }

  lemma UnplannedFloor(s: Site, l: Ledger, l': Ledger)
    requires Unplanned(s, l, TLC) && Extends(s, TLC, l, l')
    ensures forall c :: c in s.existing ==> FinalCap(l', c, TLC) >= c.caps.tlc
  {
  }

  lemma StockedCurrent(s: Site)
    requires Stocked(s)
    ensures PoolCurrent(s.existing, TLC) == 3630
  {
    var e := s.existing;
    Prefixes(e);
    hide HostOn;
    assert PoolCurrent(e[..1], TLC) == 1200 && PoolCurrent(e[..2], TLC) == 1210 && PoolCurrent(e[..3], TLC) == 2420;
  }

  lemma NoCreates(s: Site, l: Ledger)
    requires Tracks(s, l) && l.created == map[] && s.cons.maxCoresPerContainer <= 0
    ensures var e := Emit(s, l, 0); e.failure.None? && e.create == [] && e.budgets == l.budgets
  {
    RecordedFacts(l.created.Keys);
    Ordering.NoElems(Recorded(l.created.Keys));
    RecordedFacts(l.growth.Keys);
    hide EmitGrow, CP.SortedNames;
    RecordWitness.AllEmitted(l.growth, Recorded(l.growth.Keys), 0, s.cons);
  }

  /** Two, one, two and two cores. */
  lemma SevenCores(e: seq<ExistingContainer>, l: Ledger)
    requires |e| == 4 && e[0].name !in l.growth && e[0].numCores == 2
    requires e[1].name in l.growth && l.growth[e[1].name] == Caps(726, 0)
    requires e[2].name in l.growth && l.growth[e[2].name] == Caps(1452, 0)
    requires e[3].name in l.growth && l.growth[e[3].name] == Caps(1452, 0)
    ensures RequiredComputeCores(ExistingTlcCores(e, l, 0, CONS), ExistingQlcCores(e, l, 0, CONS), false, CONS) == 7
  {
    Prefixes(e);
    assert PinCores(Caps(726, 0), 0, CONS) == Pinned(1, 1) && PinCores(Caps(1452, 0), 0, CONS) == Pinned(2, 2);
    hide PinCores, ExistingTlcCores, ExistingQlcCores;
    assert ExistingCores(e[..1], l, 0, CONS) == 2 && ExistingCores(e[..2], l, 0, CONS) == 3;
    assert ExistingCores(e[..3], l, 0, CONS) == 5 && ExistingCores(e, l, 0, CONS) == 7;
    forall c | c in e ensures FinalCores(l, c, 0, CONS) >= 1 {
      var i :| 0 <= i < 4 && e[i] == c;
    }
    ExistingAttribution(e, l, 0, CONS);
    var tlc, qlc := ExistingTlcCores(e, l, 0, CONS), ExistingQlcCores(e, l, 0, CONS);
    assert CONS.computeToTlcRatio * tlc as real + CONS.computeToQlcRatio * qlc as real == 0.0;
  }

  lemma StillHosts(nc: NodeCapacity, b: Budget, k: int, cons: Constraints)
    requires nc.allocatableCpu == 64 && nc.hugepages == 1_000_000 && !nc.isHt && !nc.fullPcpusOnly
    requires LikeCons(cons) && Spent(nc, b, k, cons) && 0 <= k <= 2
    ensures b.cores >= CpuCost(nc, cons.cpuPolicy, 3, true) && b.hugepages >= 9000
  {
  }

  /** A host whose container was grown by at most two cores can still host a three-core compute. */
  lemma HostedStill(input: Input, n: string, c: ExistingContainer, to: Caps)
    requires UniqueNames(input.drives) && NonNegativeDrives(input.drives) && LikeCons(input.cons)
    requires n in input.Place().inv && HostOn(input.drives, n) == Some(c) && c.node == n
    requires var nc := input.Place().inv[n];
      nc.allocatableCpu == 64 && nc.hugepages == 1_000_000 && !nc.isHt && !nc.fullPcpusOnly
    requires GrowthOf(PoolsOf(input).ledger, c) == to && 0 <= GrowthCharge(c.caps, to, input.cons) <= 2
    ensures var s, b := input.Place(), PoolsOf(input).ledger.budgets; CP.On(s, b) && CP.Hosts(s, b, n, 3, 9000)
  {
    hide PR.InventoryMap, PoolsOf, HostOn, Spent, GrowthCharge;
    PoolsSpend(input, c);
    StillHosts(input.Place().inv[n], PoolsOf(input).ledger.budgets[n], GrowthCharge(c.caps, to, input.cons),
      input.cons);
  }

  lemma ChargeIs(from: Caps, to: Caps, cons: Constraints)
    requires cons.capacityPerCore == Caps(1000, 1000) && from.tlc <= to.tlc <= from.tlc + 1000 && from.qlc == to.qlc
    ensures 0 <= GrowthCharge(from, to, cons) <= 2
  {
    CeilDivAdjoint(to.tlc - from.tlc, 1000, 1);
  }

  lemma StockedNode(s: Site, n: string)
    requires Stocked(s) && n in TRIO
    ensures n in s.inv && s.inv[n].fdValue == n && s.cons == CONS && |s.existing| == 4
    ensures s.inv[n].allocatableCpu == 64 && s.inv[n].hugepages == 1_000_000 && !s.inv[n].isHt
    ensures !s.inv[n].fullPcpusOnly && UniqueNames(s.existing) && NonNegativeDrives(s.existing)
    ensures var e := s.existing; var c := if n == "a" then e[0] else if n == "b" then e[2] else e[3];
      HostOn(e, n) == Some(c) && c.caps == if n == "a" then Caps(1200, 0) else Caps(1210, 0)
  {
    hide HostOn;
  }

  lemma LoadedSite(input: Input)
    requires Loaded(input)
    ensures Stocked(input.Place()) && input.Place().existing == input.drives && input.cons == CONS
  {
    hide Stocked, Opening, RoomOf, StateBefore, PR.InventoryMap, CP.EligibleNodes, DecidePool, DecisionFor, Grows;
  }

  lemma LoadedHost(input: Input, n: string)
    requires Loaded(input) && n in TRIO
    ensures var s, b := input.Place(), PoolsOf(input).ledger.budgets;
      CP.On(s, b) && n in s.inv && s.inv[n].fdValue == n && CP.Hosts(s, b, n, 3, 9000)
  {
    var s, e := input.Place(), input.drives;
    hide Loaded, Stocked, PR.InventoryMap, PoolsOf, HostOn, GrowthCharge, CP.Hosts;
    LoadedSite(input);
    LoadedRecords(input);
    StockedNode(s, n);
    ChargeIs(Caps(1200, 0), Caps(1200, 0), CONS);
    ChargeIs(Caps(1210, 0), Caps(1452, 0), CONS);
    if n == "a" {
      HostedStill(input, n, e[0], Caps(1200, 0));
    } else if n == "b" {
      HostedStill(input, n, e[2], Caps(1452, 0));
    } else {
      HostedStill(input, n, e[3], Caps(1452, 0));
    }
  }

  lemma NineThousand()
    ensures HugepageSizing.ComputeHugepages(Caps(4356, 0), 3, 3, CONS) == 9000
  {
  }

  lemma LoadedCompute(input: Input)
    requires Loaded(input)
    ensures PoolsOf(input).ledger.budgets.Keys == input.Place().inv.Keys
    ensures ComputeOf(input, PoolsOf(input).ledger.budgets, 7).Placed?
  {
    var s, b := input.Place(), PoolsOf(input).ledger.budgets;
    hide Opening, RoomOf, StateBefore, PR.InventoryMap, CP.EligibleNodes, DecidePool, DecisionFor, PoolsOf, Grows,
      CP.Hosts, CP.PlanCompute, HugepageSizing.ComputeHugepages, HostOn;
    assert s.cons == CONS;
    hide Stocked;
    NineThousand();
    forall n | n in TRIO ensures n in s.inv && s.inv[n].fdValue == n && CP.Hosts(s, b, n, 3, 9000) {
      LoadedHost(input, n);
    }
    AdvisoryWitness.FieldCompute(s, b, input.desired, 9000, 7);
  }

  lemma LoadedFeasible(input: Input)
    requires Loaded(input)
    ensures PlanCapacity(input).Feasible()
  {
    var s, l := input.Place(), PoolsOf(input).ledger;
    assert ProtectionOk(input.scheme, input.cons) && Targets(input.desired, input.scheme.MinFdNum()) == Some(NO_CAPS);
    assert s.cons.maxCoresPerContainer <= 0;
    assert NewTlcCores([], CONS) == NewQlcCores([], CONS) == 0;
    hide Stocked, Opening, RoomOf, StateBefore, PR.InventoryMap, CP.EligibleNodes, DecidePool, DecisionFor, PoolsOf,
      Grows, Emit, ComputeOf, ExistingTlcCores, ExistingQlcCores, NewTlcCores, NewQlcCores, RequiredComputeCores, Pools,
      Completed, PlanCapacity, ProtectionOk, Targets;
    LoadedPools(input);
    LoadedRecords(input);
    NoneCreated(input);
    NoCreates(s, l);
    SevenCores(input.drives, l);
    LoadedCompute(input);
    AdvisoryWitness.FeasibleFrom(input, NO_CAPS, PoolsOf(input), 7);
  }

  lemma LoadedShrinks(input: Input, naming: string -> string)
    requires Loaded(input)
    ensures PlanCapacity(input).Feasible() && DecisionFor(input, TLC).Place?
    ensures DecisionFor(input, TLC).route.IncreaseRoute?
    ensures TLC in PlanCapacity(input.(drives := Applied(input.drives, PlanCapacity(input), naming))).notes.shrink
  {
    var second := input.(drives := Applied(input.drives, PlanCapacity(input), naming));
    LoadedFeasible(input);
    LoadedGain(input);
    StockedCurrent(input.Place());
    TenPercent(4356);
    assert Checked(second) by { hide PlanCapacity, Applied; }
    assert DecisionFor(input, TLC).route.IncreaseRoute?;
    assert UniqueNames(input.drives) && NonNegativeDrives(input.drives);
    hide PlanCapacity, Applied, DecisionFor, GainOf, PR.InventoryMap, Loaded, Checked, PoolCurrent;
    NextShrinkExact(input, second, naming, TLC);
  }

  /**
   * 4356 GiB over three failure domains of 1210: the plan grows each to 1452 and is feasible. One host of failure
   * domain a already holds more than its half, so the pool ends at 4830, and the next plan advises a shrink.
   */
  lemma IncreaseAdvisesShrink(naming: string -> string)
    ensures var input := Asked(1200, 10, 1000, 900, 1452);
      && PlanCapacity(input).Feasible() && DecisionFor(input, TLC).Place?
      && DecisionFor(input, TLC).route.IncreaseRoute?
      && TLC in PlanCapacity(input.(drives := Applied(input.drives, PlanCapacity(input), naming))).notes.shrink
  {
    LoadedIs();
    hide Loaded, PlanCapacity, Applied, DecisionFor, Asked;
    LoadedShrinks(Asked(1200, 10, 1000, 900, 1452), naming);
  }
}
