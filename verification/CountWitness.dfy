/** A feasible plan with a pinned count whose only short pool is carried by fewer failure domains than its target. */
module CountWitness {
  import opened Arith
  import opened Model
  import opened NodeBudget
  import opened Ledgers
  import opened Placement
  import opened FdRecords
  import opened Ordering
  import opened FreshFds
  import opened Deadband
  import opened PoolDecision
  import opened PoolPlanner
  import opened DriveCoreCounts
  import opened Planner
  import opened PlanTheorems
  import opened AdvisoryTheorems
  import opened AutoMode
  import opened GrowRecords
  import opened GrownCores
  import opened PinnedRecords
  import opened PinnedCounts
  import opened WitnessSites
  import opened PlanWitness
  import opened FdWitness
  import FrozenWitness
  import ShrinkWitness
  import EmptyWitness
  import AdvisoryWitness
  import FdSpread
  import Seating
  import PR = PlanRuns
  import CP = ComputePlanner
  import HugepageSizing

  const CONS4 := FrozenWitness.FROZEN

  const NEW := FrozenWitness.NEW

  const KNOWN := {"a", "b", "c", "e"}

  const CHOSEN := [Lone("a"), Lone("b"), NEW]

  /** Nodes a and b hold 1500 GiB of TLC each, node c holds QLC only, node e is empty. */
  const DRIVES := [Drive("p", "a", "a", 1500, 2), Drive("q", "b", "b", 1500, 2),
    ExistingContainer("r", "c", "c", Caps(0, 500), 1, false)]

  const INV := map["a" := Node("a", "a", 0), "b" := Node("b", "b", 0), "c" := Node("c", "c", 0),
    "e" := Node("e", "e", 2000)]

  const HERE := Site(INV, DRIVES, CONS4)

  function FreeOn(n: string): int { if n == "e" then 2000 else 0 }

  /** What matters of the site. */
  ghost predicate Mixed(s: Site) {
    var e := s.existing;
    && s.cons == CONS4 && s.inv.Keys == KNOWN && |e| == 3 && AutoSite(s) && NonNegativeDrives(e) && UniqueNames(e)
    && HostOn(e, "a") == Some(e[0]) && HostOn(e, "b") == Some(e[1]) && HostOn(e, "c") == Some(e[2])
    && HostOn(e, "e").None? && e[0].caps == e[1].caps == Caps(1500, 0) && e[2].caps == Caps(0, 500)
    && e[0].fdValue == "a" && e[1].fdValue == "b" && e[2].fdValue == "c"
    && e[0].numCores == e[1].numCores == 2 && e[2].numCores == 1 && AllDriveNodes(e) == TRIO
    && forall n :: n in KNOWN ==> s.inv[n] == Node(n, n, FreeOn(n))
  }

  /** Its figures for TLC. */
  ghost predicate Figures2(s: Site) {
    var e := s.existing;
    && PoolCurrent(e, TLC) == 3000 && PoolFds(e, TLC) == ["a", "b"]
    && FdCap(e, "a", TLC) == FdCap(e, "b", TLC) == 1500
    && BearingNodes(s, e, TLC) == map["a" := "a", "b" := "b"] && BearingFds(s, e, TLC) == ["a", "b"]
  }

  lemma InvAt(n: string)
    ensures n in INV <==> n in KNOWN
    ensures n in KNOWN ==> INV[n] == Node(n, n, FreeOn(n))
  {
    Letters();
  }

  lemma Cuts(e: seq<ExistingContainer>)
    requires |e| == 3
    ensures e[..3] == e && e[..3][..2] == e[..2] && e[..2][..1] == e[..1] && e[..1][..0] == []
  {
  }

  lemma Held()
    ensures var e := DRIVES;
      && HostOn(e, "a") == Some(e[0]) && HostOn(e, "b") == Some(e[1]) && HostOn(e, "c") == Some(e[2])
      && HostOn(e, "e").None? && AllDriveNodes(e) == TRIO && UniqueNames(e) && OnePerNode(e)
  {
    Letters();
    MoreLetters();
    var e := DRIVES;
    Cuts(e);
    assert e[0] in e && e[1] in e && e[2] in e;
    assert HostOn(e[..1], "a") == HostOn(e[..2], "a") == Some(e[0]) && HostOn(e[..2], "b") == Some(e[1]);
    assert HostOn(e[..1], "e").None? && HostOn(e[..2], "e").None?;
  }

  lemma AutoHere()
    ensures AutoSite(HERE)
  {
    Letters();
    Held();
    hide HostOn, AllDriveNodes;
    forall n ensures n in INV ==> INV[n].fdValue == n { InvAt(n); }
    InvAt("a");
    InvAt("b");
    InvAt("c");
    hide Node;
    forall c | c in DRIVES ensures WellFormedDrive(HERE, c) && c.fdValue == c.node {
      assert c == DRIVES[0] || c == DRIVES[1] || c == DRIVES[2];
    }
  }

  lemma MixedIs()
    ensures Mixed(HERE)
  {
    AutoHere();
    Held();
    hide HostOn, AllDriveNodes, AutoSite;
    forall n ensures (n in INV <==> n in KNOWN) && (n in KNOWN ==> INV[n] == Node(n, n, FreeOn(n))) { InvAt(n); }
  }

  lemma FiguresAre2(s: Site)
    requires Mixed(s)
    ensures Figures2(s)
  {
    Letters();
    var e := s.existing;
    Cuts(e);
    assert e[0].node == "a" && e[1].node == "b" && e[2].node == "c";
    assert Bears(s, e[0], TLC) && Bears(s, e[1], TLC) && !Bears(s, e[2], TLC);
    hide HostOn, AllDriveNodes, AutoSite, Bears;
    assert PoolCurrent(e[..1], TLC) == 1500 && PoolCurrent(e[..2], TLC) == 3000;
    assert PoolFds(e[..1], TLC) == ["a"] && PoolFds(e[..2], TLC) == ["a", "b"];
    assert FdCap(e[..1], "a", TLC) == 1500 && FdCap(e[..2], "a", TLC) == 1500;
    assert FdCap(e[..1], "b", TLC) == 0 && FdCap(e[..2], "b", TLC) == 1500;
    assert BearingNodes(s, e[..1], TLC) == map["a" := "a"] && BearingFds(s, e[..1], TLC) == ["a"];
    assert BearingNodes(s, e[..2], TLC) == map["a" := "a", "b" := "b"] && BearingFds(s, e[..2], TLC) == ["a", "b"];
  }

  // ----- the decision -----

  ghost predicate Roomy(s: Site, l: Ledger) {
    && Tracks(s, l) && "a" in s.inv && "b" in s.inv && "e" in s.inv
    && RoomOf(s, l, "a") == 0 && RoomOf(s, l, "b") == 0 && l.created == map[]
    && Headroom(s.inv["e"], l.budgets["e"], TLC, s.cons, true) == 2000
  }

  lemma NodeAt(s: Site, n: string)
    requires Mixed(s) && n in KNOWN
    ensures n in s.inv && s.inv[n] == Node(n, n, FreeOn(n)) && s.cons == CONS4
  {
    hide HostOn, AllDriveNodes, AutoSite;
  }

  lemma RoomyIs(s: Site)
    requires Mixed(s)
    ensures Roomy(s, Opening(s.inv))
  {
    assert Opening(s.inv).created == map[];
    Letters();
    hide Mixed, HeadroomBinding, Opening;
    NodeAt(s, "a");
    NodeAt(s, "b");
    NodeAt(s, "e");
    OpeningAt(s, "a");
    OpeningAt(s, "b");
    OpeningAt(s, "e");
    NodeRoom("a", "a", 0, CONS4, false);
    NodeRoom("b", "b", 0, CONS4, false);
    NodeRoom("e", "e", 2000, CONS4, true);
  }

  lemma CandidatesAre(s: Site, l: Ledger)
    requires Mixed(s) && Roomy(s, l)
    ensures Candidates(s, l, TLC) == {"e"}
  {
    Letters();
    hide HostOn, HeadroomBinding, AllDriveNodes, RoomOf, AutoSite;
    forall n | n in s.inv ensures IsCandidate(s, l, TLC, n) <==> n == "e" { assert n in KNOWN; }
    hide IsCandidate;
  }

  lemma FreshIs(s: Site, l: Ledger)
    requires Mixed(s) && Roomy(s, l)
    ensures FreshGroups(s, l, TLC) == [NEW]
  {
    CandidatesAre(s, l);
    hide Mixed, HeadroomBinding, Candidates, RoomOf, FreshGroups, Ranking;
    NodeAt(s, "e");
    assert Ranks(s, l, TLC)["e"] == 2000;
    RankedOne(Ranks(s, l, TLC), "e");
    FrozenWitness.FreshFrom(s, l);
  }

  lemma GroupsAre(s: Site, l: Ledger)
    requires Figures2(s) && Roomy(s, l)
    ensures ExistingGroups(s, l, TLC) == [Lone("a"), Lone("b")]
  {
    Letters();
    hide PoolCurrent, PoolFds, FdCap, BearingNodes, BearingFds, RoomOf, HeadroomBinding, ExistingGroup;
    LoneGroup(s, l, "a");
    LoneGroup(s, l, "b");
  }

  lemma PinIs(s: Site)
    requires s.cons == CONS4 && Figures2(s)
    ensures PinPlaces(s, TLC, 4000, 4) && ExactNewFds(s.existing, TLC, 4, 1000, CONS4) == Some(2)
    ensures CeilDiv(4000, 4) == 1000 && Extra(s, TLC, 4000, 4) == 2
  {
    var fds := ["a", "b"];
    assert Band(4000, CONS4) == 0;
    hide PoolCurrent, PoolFds, FdCap, BearingNodes, BearingFds;
    assert fds[1..] == ["b"] && fds[1..][1..] == [];
    assert FirstGap(s.existing, ["b"], TLC, 1000) == 0;
    assert GoDiv(1000, 2) == 500;
  }

  lemma TakenIs()
    ensures TakeFresh([NEW], 2, 1000) == [NEW] && CountAtLeast([NEW], 1000) == 1
  {
    var gs := [NEW];
    assert gs[..0] == [];
    TakeFreshExact(gs, 2, 1000);
    assert AtLeast(gs[..0], 1000) == [];
    assert CountAtLeast(gs, 1000) == 1;
    hide TakeFresh, CountAtLeast;
    assert TakeFresh(gs, 2, 1000)[0] in TakeFresh(gs, 2, 1000);
  }

  lemma PlaceFrom(s: Site, l: Ledger)
    requires Tracks(s, l) && s.cons == CONS4 && PoolCurrent(s.existing, TLC) == 3000 && PinPlaces(s, TLC, 4000, 4)
    requires ExactNewFds(s.existing, TLC, 4, 1000, CONS4) == Some(2) && CeilDiv(4000, 4) == 1000
    requires ExistingGroups(s, l, TLC) == [Lone("a"), Lone("b")] && FreshGroups(s, l, TLC) == [NEW]
    ensures DecidePool(s, l, TLC, 4000, 3, 4) == Place(1000, CHOSEN, ExplicitRoute)
  {
    hide PoolCurrent, DecidePool, ExistingGroups, FreshGroups, PinPlaces, ExactNewFds, TakeFresh, ExplicitDecision;
    TakenIs();
    PinDecision(s, l, TLC, 4000, 3, 4);
    ExplicitChosen(s, l, TLC, 4000, 4);
    FrozenWitness.ExplicitPlace(s, l);
  }

  /** The pin asks for two more failure domains, and there is one candidate. */
  lemma DecisionIs(s: Site, l: Ledger)
    requires Mixed(s) && Figures2(s) && Roomy(s, l)
    ensures PinPlaces(s, TLC, 4000, 4) && DecidePool(s, l, TLC, 4000, 3, 4) == Place(1000, CHOSEN, ExplicitRoute)
    ensures !Enough(s, l, TLC, 4000, 4)
  {
    assert Tracks(s, l) && PoolCurrent(s.existing, TLC) == 3000;
    NodeAt(s, "e");
    hide Mixed, Roomy, Figures2, PoolCurrent, DecidePool, ExistingGroups, FreshGroups, PinPlaces, ExactNewFds, Extra,
      CountAtLeast, TakenNodes, TakeFresh;
    FreshIs(s, l);
    GroupsAre(s, l);
    PinIs(s);
    TakenIs();
    PlaceFrom(s, l);
  }

  // ----- the input -----

  /** 4000 GiB of TLC pinned to four failure domains at 2+1, with three two-core computes. */
  const INPUT := Input(
    DesiredCapacity(Caps(4000, 0), 3, 2, 4, 0), ProtectionScheme(2, 1, 0), DRIVES, [],
    [Node("a", "a", 0), Node("b", "b", 0), Node("c", "c", 0), Node("e", "e", 2000)],
    Some(map["a" := true, "b" := true, "c" := true]), CONS4)

  lemma PlaceIs()
    ensures INPUT.Place() == HERE
  {
    Letters();
    var inv := INPUT.inventory;
    assert inv[..3][..2] == inv[..2] && inv[..2][..1] == inv[..1] && inv[..1][..0] == [] && inv[..4] == inv;
    assert PR.InventoryMap(inv[..1]) == map["a" := inv[0]];
    assert PR.InventoryMap(inv[..2]) == map["a" := inv[0], "b" := inv[1]];
    assert PR.InventoryMap(inv[..3]) == map["a" := inv[0], "b" := inv[1], "c" := inv[2]];
  }

  /** What matters of the input. */
  ghost predicate Pinned4(input: Input) {
    var s := input.Place(); var l := Opening(s.inv);
    && Mixed(s) && Figures2(s) && Roomy(s, l) && input.cons == CONS4 && input.scheme == ProtectionScheme(2, 1, 0)
    && input.desired == DesiredCapacity(Caps(4000, 0), 3, 2, 4, 0) && input.compute == []
    && input.computeNodes.Some? && CP.EligibleNodes(s, input.computeNodes.value) == TRIO
    && StateBefore(input, TLC).ledger == l && DecisionFor(input, TLC) == DecidePool(s, l, TLC, 4000, 3, 4)
    && DecisionFor(input, TLC) == Place(1000, CHOSEN, ExplicitRoute) && DecisionFor(input, QLC) == Keep
    && TargetsOf(input) == Caps(4, 0)
  }

  lemma EligibleAre(s: Site)
    requires s.inv.Keys == KNOWN
    ensures CP.EligibleNodes(s, map["a" := true, "b" := true, "c" := true]) == TRIO
  {
    Letters();
  }

  lemma Pinned4From(input: Input)
    requires Mixed(input.Place()) && Figures2(input.Place()) && input.cons == CONS4 && input.compute == []
    requires input.scheme == ProtectionScheme(2, 1, 0) && input.desired == DesiredCapacity(Caps(4000, 0), 3, 2, 4, 0)
    requires input.computeNodes == Some(map["a" := true, "b" := true, "c" := true])
    ensures Pinned4(input)
  {
    var s := input.Place();
    assert s.inv.Keys == KNOWN;
    hide Mixed, Figures2, Roomy, Opening, DecidePool, DecisionFor, StateBefore, PR.InventoryMap, CP.EligibleNodes,
      PinPlaces, FirstPool, Enough, TargetsOf;
    RoomyIs(s);
    DecisionIs(s, Opening(s.inv));
    EligibleAre(s);
    EmptyWitness.FirstIsTlc(input, 4000);
  }

  lemma InputFields()
    ensures INPUT.cons == CONS4 && INPUT.scheme == ProtectionScheme(2, 1, 0) && INPUT.compute == []
    ensures INPUT.desired == DesiredCapacity(Caps(4000, 0), 3, 2, 4, 0)
    ensures INPUT.computeNodes == Some(map["a" := true, "b" := true, "c" := true])
  {
  }

  lemma Pinned4Is()
    ensures Pinned4(INPUT)
  {
    PlaceIs();
    hide Mixed, Figures2, PR.InventoryMap, Pinned4;
    MixedIs();
    FiguresAre2(HERE);
    InputFields();
    Pinned4From(INPUT);
  }

  lemma InputIs(input: Input)
    requires Pinned4(input)
    ensures var s := input.Place(); var l := Opening(s.inv);
      && Mixed(s) && Figures2(s) && Roomy(s, l) && input.cons == CONS4 && s.existing == input.drives && AutoSite(s)
      && s.cons == CONS4 && input.desired == DesiredCapacity(Caps(4000, 0), 3, 2, 4, 0) && s.inv.Keys == KNOWN
      && input.scheme == ProtectionScheme(2, 1, 0) && StateBefore(input, TLC).ledger == l
      && TargetsOf(input) == Caps(4, 0)
  {
    hide HostOn, Figures2, Roomy, Opening, PR.InventoryMap, DecidePool, DecisionFor, StateBefore, CP.EligibleNodes,
      AutoSite, TargetsOf;
  }

  // ----- what every host gets -----

  lemma Hosts(s: Site)
    requires Mixed(s)
    ensures |s.existing| == 3 && UniqueNames(s.existing) && NonNegativeDrives(s.existing)
    ensures var e := s.existing;
      && HostOn(e, "a") == Some(e[0]) && HostOn(e, "b") == Some(e[1]) && HostOn(e, "c") == Some(e[2])
      && HostOn(e, "e").None? && e[0].caps == e[1].caps == Caps(1500, 0) && e[2].caps == Caps(0, 500)
      && e[0].node == "a" && e[1].node == "b" && e[2].node == "c"
      && e[0].numCores == e[1].numCores == 2 && e[2].numCores == 1
    ensures NodeCur(s, "a", TLC) == NodeCur(s, "b", TLC) == 1500 && NodeCur(s, "c", TLC) == NodeCur(s, "e", TLC) == 0
  {
    hide HostOn, AllDriveNodes, AutoSite;
  }

  /** The chosen failure domains are completed, and only node e adds anything. */
  ghost predicate AllHold(s: Site, l: Ledger) {
    && Tracks(s, l) && "a" in s.inv && "b" in s.inv && "e" in s.inv && AllOnSite(s, CHOSEN)
    && (forall g :: g in CHOSEN ==> OnSite(s, g) && Complete(s, l, TLC, 1000, g))
    && TriedAt(s, l, TLC, 1000, Lone("a"), "a") == 0 && TriedAt(s, l, TLC, 1000, Lone("b"), "b") == 0
    && TriedAt(s, l, TLC, 1000, NEW, "e") == 1000
    && GroupLack(s, TLC, 1000, Lone("a")) == 0 && GroupLack(s, TLC, 1000, Lone("b")) == 0
    && GroupLack(s, TLC, 1000, NEW) == 1000
  }

  lemma AllHoldIs(s: Site, l: Ledger)
    requires Mixed(s) && Roomy(s, l)
    ensures AllHold(s, l)
  {
    var e := s.existing;
    NodeAt(s, "e");
    hide Mixed, Complete, TriedAt, GroupLack, OnSite, HostOn, NodeCur, HeadroomBinding, RoomOf;
    Hosts(s);
    ShrinkWitness.LoneComplete(s, l, "a", e[0], 1000);
    ShrinkWitness.LoneComplete(s, l, "b", e[1], 1000);
    ShrinkWitness.LoneTried(s, l, "a", e[0], 1000);
    ShrinkWitness.LoneTried(s, l, "b", e[1], 1000);
    ShrinkWitness.LoneLack(s, "a", 1000);
    ShrinkWitness.LoneLack(s, "b", 1000);
    FrozenWitness.NewHost(s, l);
    assert forall g :: g in CHOSEN ==> g == Lone("a") || g == Lone("b") || g == NEW;
  }

  lemma GainIs(s: Site, l: Ledger)
    requires AllHold(s, l)
    ensures LevelGain(s, l, TLC, 1000, CHOSEN) == 1000
  {
    hide Complete, GroupLack, OnSite, TriedAt;
    var g := CHOSEN;
    assert g[..2][..1] == g[..1] && g[..1][..0] == [] && g[..3] == g;
    assert g[0] == Lone("a") && g[1] == Lone("b") && g[2] == NEW;
    assert g[0] in g && g[1] in g && g[2] in g;
    assert LevelGain(s, l, TLC, 1000, g[..1]) == 0 && LevelGain(s, l, TLC, 1000, g[..2]) == 0;
  }

  lemma OnSites(s: Site, l: Ledger)
    requires AllHold(s, l)
    ensures AllOnSite(s, CHOSEN)
  {
    hide Complete, TriedAt, GroupLack, OnSite;
  }

  lemma TakenNodesAre(s: Site, l: Ledger)
    requires Mixed(s) && Figures2(s) && Roomy(s, l)
    ensures PinPlaces(s, TLC, 4000, 4) && TakenNodes(s, l, TLC, 4000, 4) == ["e"] && CeilDiv(4000, 4) == 1000
  {
    NodeAt(s, "e");
    hide Mixed, Roomy, Figures2, FreshGroups, PinPlaces, ExactNewFds, Extra, TakeFresh;
    FreshIs(s, l);
    PinIs(s);
    TakenIs();
  }

  lemma DecisionsAre(input: Input)
    requires Pinned4(input)
    ensures DecisionFor(input, QLC) == Keep && input.scheme.MinFdNum() == 3
    ensures DecisionFor(input, TLC) == DecidePool(input.Place(), Opening(input.Place().inv), TLC, 4000, 3, 4)
  {
    hide Mixed, Figures2, Roomy, Opening, PR.InventoryMap, StateBefore, DecisionFor, DecidePool, TargetsOf,
      CP.EligibleNodes;
  }

  lemma OutsideGain(input: Input, n: string)
    requires Pinned4(input) && (n == "c" || n == "e")
    ensures n in input.Place().inv
    ensures Gained(input, TLC, n) == (if n == "e" then 1000 else 0) && (Touched(input, TLC, n) <==> n == "e")
    ensures !Touched(input, QLC, n) && Gained(input, QLC, n) == 0
  {
    hide Pinned4, Mixed, Figures2, Roomy, Opening, PR.InventoryMap, StateBefore, DecisionFor, HostOn, NodeCur, AutoSite,
      PoolGain, Touches, DecidePool, TakenNodes, PinPlaces, Unplanned, TargetsOf;
    var s := input.Place();
    var l := Opening(s.inv);
    Letters();
    InputIs(input);
    DecisionsAre(input);
    assert n in KNOWN;
    Hosts(s);
    OpeningUnplanned(s, TLC);
    ShrinkWitness.QlcLeft(input, n);
    TakenNodesAre(s, l);
    TakenGain(s, l, TLC, 4000, 3, 4, n);
  }

  lemma HeldKept(input: Input, n: string, c: ExistingContainer)
    requires Pinned4(input) && (n == "a" || n == "b") && n in input.Place().inv && HostOn(input.drives, n) == Some(c)
    requires c.caps == Caps(1500, 0) && c.node == n && c in input.drives
    ensures !Touched(input, TLC, n) && Gained(input, TLC, n) == 0 && !Touched(input, QLC, n)
    ensures Gained(input, QLC, n) == 0
  {
    InputIs(input);
    assert DecisionFor(input, QLC) == Keep && CeilDiv(4000, 4) == 1000;
    hide Pinned4, Mixed, Figures2, Roomy, Opening, PR.InventoryMap, StateBefore, DecisionFor, HostOn, AutoSite, Touched,
      Gained, FdCompleted, PinPlaces, RoomAt, TargetsOf;
    ShrinkWitness.QlcLeft(input, n);
    PinnedRecord(input, TLC, c);
  }

  /** Nothing is grown; node e gets a container of 1000 GiB. */
  lemma Records(input: Input)
    requires Pinned4(input)
    ensures var l, e := PoolsOf(input).ledger, input.drives;
      && |e| == 3 && e[0].name !in l.growth && e[1].name !in l.growth && e[2].name !in l.growth
      && "e" in l.created && l.created["e"].caps == Caps(1000, 0)
  {
    var s, e := input.Place(), input.drives;
    InputIs(input);
    Hosts(s);
    assert e[0] in e && e[1] in e && "a" in KNOWN && "b" in KNOWN && "c" in KNOWN && "e" in KNOWN;
    hide Pinned4, Mixed, Figures2, Roomy, Opening, PR.InventoryMap, PoolsOf, HostOn, NodeCur, AutoSite, Touched, Gained,
      StateBefore, TargetsOf;
    HeldKept(input, "a", e[0]);
    HeldKept(input, "b", e[1]);
    OutsideGain(input, "c");
    OutsideGain(input, "e");
    NodeRecord(input, "a");
    NodeRecord(input, "b");
    NodeRecord(input, "c");
    NodeRecord(input, "e");
    Letters();
  }

  lemma OnlySeat(s: Site, n: string)
    requires Mixed(s) && Seating.Seat(s, n)
    ensures n == "e" && s.inv[n].fdValue == "e"
  {
    Hosts(s);
    assert n in KNOWN;
    NodeAt(s, n);
    hide Mixed, HostOn, NodeCur;
  }

  lemma OnlyNew(s: Site, l: Ledger)
    requires Mixed(s) && Seating.Seated(s, l) && "e" in l.created && l.created["e"].caps == Caps(1000, 0)
    ensures l.created == map["e" := Created("e", Caps(1000, 0))]
  {
    hide Mixed, Seating.Seat;
    forall n | n in l.created ensures n == "e" && l.created[n].fd == "e" { OnlySeat(s, n); }
  }

  lemma CreatedIs(input: Input)
    requires Pinned4(input)
    ensures PoolsOf(input).ledger.created == map["e" := Created("e", Caps(1000, 0))]
  {
    var s := input.Place();
    assert Mixed(s);
    hide Pinned4, Mixed, PR.InventoryMap, PlanPools, Seating.Seated;
    SeatedPools(input);
    Records(input);
    OnlyNew(s, PoolsOf(input).ledger);
  }

  // ----- the plan is feasible -----

  lemma CarriedByThree(s: Site, l: Ledger)
    requires Mixed(s) && FinalCap(l, s.existing[0], TLC) > 0 && FinalCap(l, s.existing[1], TLC) > 0
    requires "e" in l.created && l.created["e"] == Created("e", Caps(1000, 0))
    ensures |CarryingFds(s, l, TLC)| >= 3
  {
    var e := s.existing;
    Letters();
    hide HostOn, AllDriveNodes, AutoSite, FinalCap;
    assert e[0] in e && e[1] in e;
    assert "a" in CarryingFds(s, l, TLC) && "b" in CarryingFds(s, l, TLC) && "e" in CarryingFds(s, l, TLC);
    hide CarryingFds, Mixed;
    assert |{"a", "b", "e"}| == 3;
    FdSpread.SubsetSize({"a", "b", "e"}, CarryingFds(s, l, TLC));
  }

  lemma CoversTarget(s: Site, l: Ledger)
    requires Mixed(s) && Tracks(s, l) && PoolTotal(s, l, TLC) == 4000 && |CarryingFds(s, l, TLC)| >= 3
    requires forall c :: c in s.existing ==> FinalCap(l, c, TLC) >= c.caps.tlc
    ensures Feasibility(s, l, TLC, 4000, 3, false) == None
  {
    var e := s.existing;
    assert CoverTarget(4000, CONS4) == 4000;
    hide CarryingFds, CountedSum, HostOn, FinalCap, AllDriveNodes, AutoSite;
    forall c | c in e ensures FinalCap(l, c, TLC) >= 0 { assert c.caps.tlc >= 0; }
    CountedWithinTotal(e, l, TLC, false);
  }

  lemma PlacedFacts(s: Site, l: Ledger)
    requires Mixed(s) && Figures2(s) && l == Opening(s.inv) && AllHold(s, l) && NodesDisjoint(CHOSEN)
    ensures var l' := PlaceUniform(s, l, TLC, 1000, CHOSEN);
      && Tracks(s, l') && PoolTotal(s, l', TLC) == 4000
      && forall c :: c in s.existing ==> FinalCap(l', c, TLC) >= c.caps.tlc
  {
    OpeningUnplanned(s, TLC);
    UnplannedTotal(s, l, TLC);
    Hosts(s);
    assert PoolCurrent(s.existing, TLC) == 3000;
    hide Mixed, Figures2, HostOn, LevelGain, PlaceUniform, PoolTotal, Opening, Unplanned, PoolCurrent, Complete,
      TriedAt, GroupLack, OnSite, NodeCur;
    GainIs(s, l);
    UniformTotal(s, l, TLC, 1000, CHOSEN);
    PlaceUniformKeeps(s, l, TLC, 1000, CHOSEN);
    ShrinkWitness.UnplannedFloor(s, l, PlaceUniform(s, l, TLC, 1000, CHOSEN));
  }

  lemma PlanPoolIs(s: Site, l: Ledger)
    requires Tracks(s, l) && DecidePool(s, l, TLC, 4000, 3, 4) == Place(1000, CHOSEN, ExplicitRoute)
    requires AllOnSite(s, CHOSEN)
    ensures PlanPool(s, PoolState(l, NO_NOTES), TLC, 4000, 3, 4).ledger == PlaceUniform(s, l, TLC, 1000, CHOSEN)
  {
    hide DecidePool, PlaceUniform, Feasibility, AllOnSite;
  }

  /** The ledger after the pool is the one the plan ends with, since QLC is left alone. */
  lemma OnlyTlc(input: Input)
    requires Pinned4(input)
    ensures var s := input.Place(); var l := Opening(s.inv);
      && AllHold(s, l) && NodesDisjoint(CHOSEN)
      && PoolsOf(input) == PlanPool(s, PoolState(l, NO_NOTES), TLC, 4000, 3, 4)
      && PoolsOf(input).ledger == PlaceUniform(s, l, TLC, 1000, CHOSEN)
  {
    var s := input.Place();
    var l := Opening(s.inv);
    assert DecidePool(s, l, TLC, 4000, 3, 4) == Place(1000, CHOSEN, ExplicitRoute) && input.scheme.MinFdNum() == 3;
    assert Tracks(s, l) && Mixed(s) && Roomy(s, l) && input.desired.raw == Caps(4000, 0);
    assert TargetsOf(input) == Caps(4, 0);
    DecisionDisjoint(s, l, TLC, 4000, 3, 4);
    hide Pinned4, Mixed, Roomy, Opening, PR.InventoryMap, DecidePool, NodesDisjoint, PlaceUniform, PlanPools, PlanPool,
      TargetsOf, AllHold;
    AllHoldIs(s, l);
    OnSites(s, l);
    PlanPoolIs(s, l);
    AdvisoryWitness.OnePool(s, Caps(4000, 0), 3, 4, PlanPool(s, PoolState(l, NO_NOTES), TLC, 4000, 3, 4));
  }

  lemma PoolsAre(input: Input)
    requires Pinned4(input)
    ensures PoolsOf(input).notes == NO_NOTES && Pools(input, Caps(4, 0)) == PoolsOf(input)
    ensures ProtectionOk(input.scheme, input.cons)
    ensures Targets(input.desired, input.scheme.MinFdNum()) == Some(Caps(4, 0))
  {
    var s := input.Place();
    var l := Opening(s.inv);
    assert DecidePool(s, l, TLC, 4000, 3, 4) == Place(1000, CHOSEN, ExplicitRoute);
    EmptyWitness.FirstIsTlc(input, 4000);
    InputIs(input);
    assert ProtectionOk(input.scheme, input.cons) && |s.existing| == 3;
    assert s.existing[0].caps.tlc == 1500 && s.existing[1].caps.tlc == 1500;
    hide Pinned4, Mixed, Figures2, Roomy, StateBefore, PR.InventoryMap, CP.EligibleNodes, DecisionFor, PlanPools,
      PlaceUniform, Opening, PlanPool, Feasibility, DecidePool, NodesDisjoint, AllHold, PoolTotal, AutoSite,
      CarryingFds, FinalCap;
    OnlyTlc(input);
    CreatedIs(input);
    PlacedFacts(s, l);
    CarriedByThree(s, PoolsOf(input).ledger);
    CoversTarget(s, PoolsOf(input).ledger);
    assert AllOnSite(s, CHOSEN) by { OnSites(s, l); }
    EmptyWitness.CleanPin(s, l, 4000, 4, 1000, CHOSEN);
  }

  lemma FiveInPlace(e: seq<ExistingContainer>, l: Ledger)
    requires |e| == 3 && e[0].name !in l.growth && e[1].name !in l.growth && e[2].name !in l.growth
    requires e[0].numCores == e[1].numCores == 2 && e[2].numCores == 1
    ensures ExistingTlcCores(e, l, 0, CONS4) + ExistingQlcCores(e, l, 0, CONS4) == 5
    ensures ExistingTlcCores(e, l, 0, CONS4) >= 0 && ExistingQlcCores(e, l, 0, CONS4) >= 0
  {
    Cuts(e);
    hide PinCores, ExistingTlcCores, ExistingQlcCores;
    assert ExistingCores(e[..1], l, 0, CONS4) == 2 && ExistingCores(e[..2], l, 0, CONS4) == 4;
    assert ExistingCores(e, l, 0, CONS4) == 5;
    assert FinalCores(l, e[0], 0, CONS4) == FinalCores(l, e[1], 0, CONS4) == 2 && FinalCores(l, e[2], 0, CONS4) == 1;
    hide FinalCores, ExistingCores;
    assert forall c :: c in e ==> FinalCores(l, c, 0, CONS4) >= 1;
    ExistingAttribution(e, l, 0, CONS4);
  }

  lemma Six(tlc: int, qlc: int)
    requires tlc >= 0 && qlc >= 0 && tlc + qlc == 6
    ensures RequiredComputeCores(tlc, qlc, false, CONS4) == 6
  {
    assert CONS4.computeToTlcRatio * tlc as real + CONS4.computeToQlcRatio * qlc as real == 0.0;
  }

  /** Two, two and one cores in place, and one new. */
  lemma SixCores(s: Site, l: Ledger)
    requires Tracks(s, l) && s.cons == CONS4 && |s.existing| == 3
    requires l.created == map["e" := Created("e", Caps(1000, 0))]
    requires var e := s.existing;
      && e[0].numCores == e[1].numCores == 2 && e[2].numCores == 1
      && e[0].name !in l.growth && e[1].name !in l.growth && e[2].name !in l.growth
    ensures var r := Emit(s, l, 0);
      && r.failure.None? && r.budgets == l.budgets
      && RequiredComputeCores(ExistingTlcCores(s.existing, l, 0, CONS4) + NewTlcCores(r.create, CONS4),
        ExistingQlcCores(s.existing, l, 0, CONS4) + NewQlcCores(r.create, CONS4), false, CONS4) == 6
  {
    hide EmitGrow, EmitCreate, CP.SortedNames, ExistingTlcCores, ExistingQlcCores, NewTlcCores, NewQlcCores,
      RequiredComputeCores;
    EmptyWitness.EmitsAll(s, l);
    FrozenWitness.NewCore(s, l);
    FiveInPlace(s.existing, l);
    var create := Emit(s, l, 0).create;
    Six(ExistingTlcCores(s.existing, l, 0, CONS4) + NewTlcCores(create, CONS4),
      ExistingQlcCores(s.existing, l, 0, CONS4) + NewQlcCores(create, CONS4));
  }

  lemma HeldFds(s: Site)
    requires Mixed(s)
    ensures (set c | c in s.existing && c.fdValue != "" :: c.fdValue) == TRIO
  {
    var e := s.existing;
    hide HostOn, AllDriveNodes, AutoSite, UniqueNames;
    Letters();
    assert e[0] in e && e[1] in e && e[2] in e;
    forall c | c in e ensures c.fdValue in TRIO { var i :| 0 <= i < 3 && e[i] == c; }
  }

  lemma FourFds(s: Site, l: Ledger)
    requires Mixed(s) && l.created == map["e" := Created("e", Caps(1000, 0))]
    ensures |DistinctDriveFds(s, l)| == 4
  {
    hide Mixed;
    HeldFds(s);
    Letters();
    TrioSize();
    FrozenWitness.NewFds(l);
    assert |TRIO + {"e"}| == |TRIO| + 1;
  }

  lemma KeptHost(input: Input, n: string) returns (c: ExistingContainer)
    requires Pinned4(input) && n in TRIO
    ensures n in input.Place().inv && input.Place().inv[n] == Node(n, n, 0)
    ensures HostOn(input.drives, n) == Some(c) && c.node == n && GrowthOf(PoolsOf(input).ledger, c) == c.caps
  {
    var s, e := input.Place(), input.drives;
    Letters();
    assert n in KNOWN && FreeOn(n) == 0;
    hide Pinned4, Mixed, Figures2, Roomy, PR.InventoryMap, PoolsOf, HostOn, NodeCur, Opening, AutoSite, StateBefore,
      TargetsOf;
    InputIs(input);
    Hosts(s);
    NodeAt(s, n);
    Records(input);
    c := if n == "a" then e[0] else if n == "b" then e[1] else e[2];
  }

  lemma HostsCompute(input: Input, n: string)
    requires Pinned4(input) && n in TRIO
    ensures var s, b := input.Place(), PoolsOf(input).ledger.budgets;
      CP.On(s, b) && n in s.inv && s.inv[n].fdValue == n && CP.Hosts(s, b, n, 2, 6000)
  {
    assert LikeCons(CONS4);
    hide Pinned4, Mixed, Figures2, Roomy, PR.InventoryMap, PoolsOf, HostOn, GrowthCharge, CP.Hosts, NodeCur, Opening,
      LikeCons, AutoSite, StateBefore, TargetsOf;
    InputIs(input);
    Hosts(input.Place());
    var c := KeptHost(input, n);
    ShrinkWitness.ChargeIs(c.caps, c.caps, CONS4);
    ShrinkWitness.HostedStill(input, n, c, c.caps);
    EmptyWitness.SmallerHosts(input.Place(), PoolsOf(input).ledger.budgets, n);
  }

  lemma SixThousand()
    ensures HugepageSizing.ComputeHugepages(Caps(4000, 0), 3, 2, CONS4) == 6000
  {
  }

  lemma ComputeIs(input: Input)
    requires Pinned4(input)
    ensures PoolsOf(input).ledger.budgets.Keys == input.Place().inv.Keys
    ensures ComputeOf(input, PoolsOf(input).ledger.budgets, 6).Placed?
  {
    var s, b := input.Place(), PoolsOf(input).ledger.budgets;
    InputIs(input);
    hide Mixed, Figures2, Roomy, Opening, StateBefore, PR.InventoryMap, CP.EligibleNodes, DecidePool, DecisionFor,
      PoolsOf, CP.Hosts, CP.PlanCompute, HugepageSizing.ComputeHugepages, HostOn, AutoSite, TargetsOf;
    SixThousand();
    forall n | n in TRIO ensures n in s.inv && s.inv[n].fdValue == n && CP.Hosts(s, b, n, 2, 6000) {
      HostsCompute(input, n);
    }
    AdvisoryWitness.FieldCompute(s, b, input.desired, 6000, 6);
  }

  lemma Pinned4Feasible(input: Input)
    requires Pinned4(input)
    ensures PlanCapacity(input).Feasible()
  {
    var s, l := input.Place(), PoolsOf(input).ledger;
    hide Pinned4, PR.InventoryMap, PoolsOf, Emit, ComputeOf, ExistingTlcCores, ExistingQlcCores, NewTlcCores,
      NewQlcCores, RequiredComputeCores, Pools, PlanCapacity, ProtectionOk, Targets, DistinctDriveFds, Mixed, Figures2,
      Roomy, Opening, HostOn, NodeCur, AutoSite, StateBefore, TargetsOf;
    InputIs(input);
    Hosts(s);
    PoolsAre(input);
    Records(input);
    CreatedIs(input);
    SixCores(s, l);
    FourFds(s, l);
    ComputeIs(input);
    AdvisoryWitness.FeasibleFrom(input, Caps(4, 0), PoolsOf(input), 6);
  }

  lemma ShortOfTlc(s: Site)
    requires Mixed(s) && s.cons == CONS4 && s.inv.Keys == KNOWN
    ensures CapacityShort(PoolCurrent(s.existing, TLC), 4000, s.cons) && "" !in s.inv
  {
    Letters();
    var e := s.existing;
    Cuts(e);
    assert PoolCurrent(e[..1], TLC) == 1500 && PoolCurrent(e[..2], TLC) == 3000 && PoolCurrent(e, TLC) == 3000;
    assert "" !in KNOWN && CapacityShort(3000, 4000, CONS4);
  }

  lemma Pinned4Misses(input: Input)
    requires Pinned4(input)
    ensures TargetsOf(input).tlc == 4 && |CarryingFds(input.Place(), PoolsOf(input).ledger, TLC)| < 4
    ensures AutoSite(input.Place()) && Short(input, TLC)
  {
    hide Pinned4, Mixed, Figures2, Roomy, Opening, PR.InventoryMap, PoolsOf, StateBefore, AutoSite, PinPlaces, Enough,
      CarryingFds, TargetsOf, PoolCurrent, DecidePool, CapacityShort;
    InputIs(input);
    ShortOfTlc(input.Place());
    DecisionIs(input.Place(), Opening(input.Place().inv));
    PinnedCarriers(input, TLC);
  }

  /** The plan is feasible, TLC was short and has a target of four, and fewer failure domains carry it in the end. */
  lemma TargetMissed()
    ensures AutoSite(INPUT.Place()) && PlanCapacity(INPUT).Feasible() && Short(INPUT, TLC)
    ensures TargetsOf(INPUT).tlc == 4 && |CarryingFds(INPUT.Place(), PoolsOf(INPUT).ledger, TLC)| < 4
  {
    Pinned4Is();
    hide Pinned4, PlanCapacity, AutoSite, Short, PoolsOf, CarryingFds, TargetsOf;
    Pinned4Feasible(INPUT);
    Pinned4Misses(INPUT);
  }
}
