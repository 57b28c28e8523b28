/** A feasible plan that grows an existing container although in-place growth is off. */
module FrozenWitness {
  import opened Arith
  import opened Model
  import opened NodeBudget
  import opened Ledgers
  import opened Placement
  import opened FdRecords
  import opened Ordering
  import opened FreshFds
  import opened Deadband
  import opened PoolDecision
  import opened PoolPlanner
  import opened DriveCoreCounts
  import opened Planner
  import opened EmissionFacts
  import opened PlanTheorems
  import opened AdvisoryTheorems
  import opened AutoMode
  import opened GrowRecords
  import opened GrownCores
  import opened PinnedRecords
  import opened WitnessSites
  import opened PlanWitness
  import opened FdWitness
  import opened RecordWitness
  import ShrinkWitness
  import EmptyWitness
  import AdvisoryWitness
  import Seating
  import PR = PlanRuns
  import CP = ComputePlanner
  import HugepageSizing

  const FROZEN := CONS.(allowInPlaceGrowth := false)

  const NAMES := {"a", "b", "c", "d", "e"}

  const INV := map["a" := Node("a", "a", 1000), "b" := Node("b", "b", 1000), "c" := Node("c", "c", 1000),
    "d" := Node("d", "a", 900), "e" := Node("e", "e", 2000)]

  /** Failure domain a holds 900 GiB on host a and 100 on host d, the others 1000 each; node e is empty. */
  const HERE := Site(INV, Drives(900, 100), FROZEN)

  const NEW := Lone("e").(headroom := 2000)

  const CHOSEN := [PAIR, Lone("b"), Lone("c"), NEW]

  function FdAt(n: string): string { if n == "d" then "a" else n }

  function FreeOn(n: string): int { if n == "d" then 900 else if n == "e" then 2000 else 1000 }

  /** What matters of the site. */
  ghost predicate Mixed(s: Site) {
    var e := s.existing;
    && s.cons == FROZEN && s.inv.Keys == NAMES && |e| == 4 && WellFormed(s) && NonNegativeDrives(e)
    && HostOn(e, "a") == Some(e[0]) && HostOn(e, "d") == Some(e[1]) && HostOn(e, "b") == Some(e[2])
    && HostOn(e, "c") == Some(e[3]) && HostOn(e, "e").None?
    && e[0].caps == Caps(900, 0) && e[1].caps == Caps(100, 0) && e[2].caps == e[3].caps == Caps(1000, 0)
    && e[0].fdValue == e[1].fdValue == "a" && e[2].fdValue == "b" && e[3].fdValue == "c"
    && e[0].numCores == e[2].numCores == e[3].numCores == 2 && AllDriveNodes(e) == HOSTS
    && forall n :: n in NAMES ==> s.inv[n] == Node(n, FdAt(n), FreeOn(n))
  }

  /** Its figures for TLC. */
  ghost predicate Figures4(s: Site) {
    var e := s.existing;
    && PoolCurrent(e, TLC) == 3000 && PoolFds(e, TLC) == ["a", "b", "c"]
    && FdCap(e, "a", TLC) == FdCap(e, "b", TLC) == FdCap(e, "c", TLC) == 1000
    && BearingNodes(s, e, TLC) == map["a" := "a", "d" := "a", "b" := "b", "c" := "c"]
    && BearingFds(s, e, TLC) == ["a", "b", "c"]
  }

  lemma InvAt(n: string)
    ensures n in INV <==> n in NAMES
    ensures n in NAMES ==> INV[n] == Node(n, FdAt(n), FreeOn(n))
  {
    Letters();
  }

  lemma NodesHeld()
    ensures AllDriveNodes(Drives(900, 100)) == HOSTS && HostOn(Drives(900, 100), "e").None?
    ensures OnePerNode(Drives(900, 100))
  {
    Letters();
    var e := Drives(900, 100);
    Prefixes(e);
    assert e[0] in e && e[1] in e && e[2] in e && e[3] in e;
    assert HostOn(e[..1], "e").None? && HostOn(e[..2], "e").None? && HostOn(e[..3], "e").None?;
  }

  lemma WellFormedHere()
    ensures forall c :: c in HERE.existing ==> WellFormedDrive(HERE, c)
    ensures forall i :: 0 <= i < 4 ==> Placed(HERE, HERE.existing[i])
  {
    Letters();
    Prefixes(HERE.existing);
  }

  lemma MixedIs()
    ensures Mixed(HERE)
  {
    var e := Drives(900, 100);
    assert e[0].numCores == e[2].numCores == e[3].numCores == 2;
    WellFormedHere();
    hide HostOn, Drives, AllDriveNodes, WellFormedDrive, Placed;
    Fields(900, 100);
    HostsAre(900, 100);
    NodesHeld();
    forall n ensures (n in INV <==> n in NAMES) && (n in NAMES ==> INV[n] == Node(n, FdAt(n), FreeOn(n))) { InvAt(n); }
  }

  lemma FiguresAre4()
    ensures Figures4(HERE)
  {
    WellFormedHere();
    hide Drives, PoolCurrent, PoolFds, FdCap, BearingNodes, BearingFds, WellFormedDrive, Placed;
    Currents(900, 100);
    Fds(900, 100);
    FdCaps(900, 100, "a");
    FdCaps(900, 100, "b");
    FdCaps(900, 100, "c");
    BearingAre(HERE, 900, 100);
  }

  // ----- rooms and the decision -----

  ghost predicate Roomy(s: Site, l: Ledger) {
    && Tracks(s, l) && NAMES <= s.inv.Keys && (forall n :: n in HOSTS ==> n in s.inv && RoomOf(s, l, n) == FreeOn(n))
    && Headroom(s.inv["e"], l.budgets["e"], TLC, s.cons, true) == 2000 && l.created == map[]
  }

  lemma MixedKeys(s: Site)
    requires Mixed(s)
    ensures s.inv.Keys == NAMES && HOSTS <= NAMES && "e" in NAMES && s.cons == FROZEN
  {
    hide HostOn, AllDriveNodes, WellFormedDrive, UniqueNames, OnePerNode;
  }

  lemma MixedNode(s: Site, n: string)
    requires Mixed(s) && n in NAMES
    ensures n in s.inv && s.inv[n] == Node(n, FdAt(n), FreeOn(n)) && s.cons == FROZEN
  {
    hide HostOn, AllDriveNodes, WellFormedDrive;
  }

  lemma RoomAtHost(s: Site, n: string)
    requires Mixed(s) && n in HOSTS
    ensures var l := Opening(s.inv); Tracks(s, l) && n in s.inv && RoomOf(s, l, n) == FreeOn(n)
  {
    assert HOSTS <= NAMES;
    hide Mixed, HeadroomBinding, Opening;
    MixedNode(s, n);
    OpeningAt(s, n);
    NodeRoom(n, FdAt(n), FreeOn(n), FROZEN, false);
  }

  lemma RoomyIs(s: Site)
    requires Mixed(s)
    ensures Roomy(s, Opening(s.inv))
  {
    assert Opening(s.inv).created == map[];
    hide Mixed, HeadroomBinding, Opening, RoomOf;
    assert FdAt("e") == "e" && FreeOn("e") == 2000 by { Letters(); }
    MixedKeys(s);
    MixedNode(s, "e");
    OpeningAt(s, "e");
    NodeRoom("e", "e", 2000, FROZEN, true);
    forall n | n in HOSTS ensures n in s.inv && RoomOf(s, Opening(s.inv), n) == FreeOn(n) { RoomAtHost(s, n); }
  }

  lemma RoomsAt(s: Site, l: Ledger)
    requires Roomy(s, l)
    ensures Tracks(s, l) && NAMES <= s.inv.Keys && "a" in s.inv && "b" in s.inv && "c" in s.inv && "d" in s.inv
    ensures "e" in s.inv && RoomOf(s, l, "a") == 1000 && RoomOf(s, l, "d") == 900
    ensures RoomOf(s, l, "b") == RoomOf(s, l, "c") == 1000 && l.created == map[]
    ensures Headroom(s.inv["e"], l.budgets["e"], TLC, s.cons, true) == 2000
  {
    Letters();
    hide HeadroomBinding, RoomOf;
    assert "a" in HOSTS && "b" in HOSTS && "c" in HOSTS && "d" in HOSTS && "e" in NAMES;
  }

  lemma CandidatesAre(s: Site, l: Ledger)
    requires Mixed(s) && Roomy(s, l)
    ensures Candidates(s, l, TLC) == {"e"}
  {
    Letters();
    hide HostOn, HeadroomBinding, AllDriveNodes, RoomOf;
    forall n | n in s.inv ensures IsCandidate(s, l, TLC, n) <==> n == "e" { assert n in NAMES; }
    hide IsCandidate;
    assert "e" in s.inv;
  }

  lemma OneGroup(key: map<string, string>, rank: map<string, int>)
    requires "e" in key && key["e"] == "e" && "e" in rank
    ensures FirstSeen(key, ["e"]) == ["e"] && Members(key, ["e"], "e") == ["e"] && SumRank(rank, ["e"]) == rank["e"]
  {
    var xs := ["e"];
    assert xs[..0] == [];
    assert FirstSeen(key, xs[..0]) == [];
  }

  lemma FreshFrom(s: Site, l: Ledger)
    requires Tracks(s, l) && CandidateOrder(s, l, TLC) == ["e"] && "e" in s.inv && s.inv["e"] == Node("e", "e", 2000)
    requires Ranks(s, l, TLC)["e"] == 2000
    ensures FreshGroups(s, l, TLC) == [NEW]
  {
    OneGroup(FdOf(s), Ranks(s, l, TLC));
    hide Ranks, CandidateOrder, FirstSeen, Members, SumRank;
    assert !AnyDeleting(s, ["e"]);
  }

  lemma FreshIs(s: Site, l: Ledger)
    requires Mixed(s) && Roomy(s, l)
    ensures FreshGroups(s, l, TLC) == [NEW]
  {
    CandidatesAre(s, l);
    hide Mixed, HeadroomBinding, Candidates, RoomOf, FreshGroups, Ranking;
    assert "e" in NAMES && FdAt("e") == "e" && FreeOn("e") == 2000 by { Letters(); }
    MixedNode(s, "e");
    assert Ranks(s, l, TLC)["e"] == 2000;
    RankedOne(Ranks(s, l, TLC), "e");
    FreshFrom(s, l);
  }

  lemma PinIs(s: Site)
    requires s.cons == FROZEN && Figures4(s)
    ensures PinPlaces(s, TLC, 4000, 4) && ExactNewFds(s.existing, TLC, 4, 1000, FROZEN) == Some(1)
    ensures CeilDiv(4000, 4) == 1000
  {
    var fds := ["a", "b", "c"];
    assert Band(4000, FROZEN) == 0;
    hide PoolCurrent, PoolFds, FdCap, BearingNodes, BearingFds;
    assert fds[1..] == ["b", "c"] && fds[1..][1..] == ["c"] && fds[1..][1..][1..] == [];
    assert FirstGap(s.existing, ["c"], TLC, 1000) == 0 && FirstGap(s.existing, ["b", "c"], TLC, 1000) == 0;
    assert GoDiv(1000, 1) == 1000;
  }

  lemma TakenIs()
    ensures TakeFresh([NEW], 1, 1000) == [NEW]
  {
    var gs := [NEW];
    assert gs[..0] == [];
    TakeFreshExact(gs, 1, 1000);
    assert AtLeast(gs[..0], 1000) == [];
    assert CountAtLeast(gs, 1000) == 1;
    hide TakeFresh, CountAtLeast;
    assert TakeFresh(gs, 1, 1000)[0] in TakeFresh(gs, 1, 1000);
  }

  lemma GroupsAre(s: Site, l: Ledger)
    requires Figures4(s) && Roomy(s, l)
    ensures ExistingGroups(s, l, TLC) == [PAIR, Lone("b"), Lone("c")]
  {
    Letters();
    assert "a" in HOSTS && "d" in HOSTS;
    hide PoolCurrent, PoolFds, FdCap, BearingNodes, BearingFds, RoomOf, HeadroomBinding, ExistingGroups;
    GroupsFrom(s, l);
  }

  lemma ExplicitPlace(s: Site, l: Ledger)
    requires Tracks(s, l) && ExplicitDecision(s, l, TLC, 4000, 4).Place?
    ensures ExplicitDecision(s, l, TLC, 4000, 4).route == ExplicitRoute
  {
    hide ExistingGroups, TakeFresh, FreshGroups, FrozenGap, ExactNewFds, PoolCurrent;
  }

  lemma PlaceFrom(s: Site, l: Ledger)
    requires Tracks(s, l) && s.cons == FROZEN && PoolCurrent(s.existing, TLC) == 3000 && PinPlaces(s, TLC, 4000, 4)
    requires ExactNewFds(s.existing, TLC, 4, 1000, FROZEN) == Some(1) && CeilDiv(4000, 4) == 1000
    requires ExistingGroups(s, l, TLC) == [PAIR, Lone("b"), Lone("c")] && FreshGroups(s, l, TLC) == [NEW]
    ensures DecidePool(s, l, TLC, 4000, 3, 4) == Place(1000, CHOSEN, ExplicitRoute)
  {
    hide PoolCurrent, DecidePool, ExistingGroups, FreshGroups, PinPlaces, ExactNewFds, TakeFresh, ExplicitDecision;
    TakenIs();
    PinDecision(s, l, TLC, 4000, 3, 4);
    ExplicitChosen(s, l, TLC, 4000, 4);
    ExplicitPlace(s, l);
  }

  /** The pin adds node e; all existing failure domains are chosen too, at their even share of the level. */
  lemma DecisionIs(s: Site, l: Ledger)
    requires Mixed(s) && Figures4(s) && Roomy(s, l)
    ensures PinPlaces(s, TLC, 4000, 4) && DecidePool(s, l, TLC, 4000, 3, 4) == Place(1000, CHOSEN, ExplicitRoute)
  {
    assert Tracks(s, l) && PoolCurrent(s.existing, TLC) == 3000;
    MixedKeys(s);
    hide Mixed, Roomy, Figures4, PoolCurrent, DecidePool, ExistingGroups, FreshGroups, PinPlaces, ExactNewFds;
    FreshIs(s, l);
    GroupsAre(s, l);
    PinIs(s);
    PlaceFrom(s, l);
  }

  // ----- the input -----

  /** 4000 GiB pinned to four failure domains at 2+1, growth off, with three three-core computes. */
  const INPUT := Input(
    DesiredCapacity(Caps(4000, 0), 3, 3, 4, 0), ProtectionScheme(2, 1, 0), Drives(900, 100), [],
    [Node("a", "a", 1000), Node("b", "b", 1000), Node("c", "c", 1000), Node("d", "a", 900), Node("e", "e", 2000)],
    Some(map["a" := true, "b" := true, "c" := true]), FROZEN)

  lemma PlaceIs()
    ensures INPUT.Place() == HERE
  {
    Letters();
    var inv := INPUT.inventory;
    assert inv[..4][..3] == inv[..3] && inv[..3][..2] == inv[..2] && inv[..2][..1] == inv[..1] && inv[..1][..0] == [];
    assert inv[..5] == inv;
    assert PR.InventoryMap(inv[..1]) == map["a" := inv[0]];
    assert PR.InventoryMap(inv[..2]) == map["a" := inv[0], "b" := inv[1]];
    assert PR.InventoryMap(inv[..3]) == map["a" := inv[0], "b" := inv[1], "c" := inv[2]];
    assert PR.InventoryMap(inv[..4]) == map["a" := inv[0], "b" := inv[1], "c" := inv[2], "d" := inv[3]];
  }

  /** What matters of the input. */
  ghost predicate Pinned4(input: Input) {
    var s := input.Place(); var l := Opening(s.inv);
    && Mixed(s) && Figures4(s) && Roomy(s, l) && input.cons == FROZEN && input.scheme == ProtectionScheme(2, 1, 0)
    && input.desired == DesiredCapacity(Caps(4000, 0), 3, 3, 4, 0) && input.compute == []
    && input.computeNodes.Some? && CP.EligibleNodes(s, input.computeNodes.value) == TRIO
    && StateBefore(input, TLC).ledger == l && DecisionFor(input, TLC) == DecidePool(s, l, TLC, 4000, 3, 4)
    && DecisionFor(input, TLC) == Place(1000, CHOSEN, ExplicitRoute) && DecisionFor(input, QLC) == Keep
  }

  lemma EligibleAre(s: Site)
    requires s.inv.Keys == NAMES
    ensures CP.EligibleNodes(s, map["a" := true, "b" := true, "c" := true]) == TRIO
  {
    Letters();
  }

  lemma InputFields()
    ensures INPUT.cons == FROZEN && INPUT.scheme == ProtectionScheme(2, 1, 0) && INPUT.compute == []
    ensures INPUT.desired == DesiredCapacity(Caps(4000, 0), 3, 3, 4, 0)
    ensures INPUT.computeNodes == Some(map["a" := true, "b" := true, "c" := true])
  {
  }

  lemma Pinned4From(input: Input)
    requires Mixed(input.Place()) && Figures4(input.Place()) && input.cons == FROZEN && input.compute == []
    requires input.scheme == ProtectionScheme(2, 1, 0) && input.desired == DesiredCapacity(Caps(4000, 0), 3, 3, 4, 0)
    requires input.computeNodes == Some(map["a" := true, "b" := true, "c" := true])
    ensures Pinned4(input)
  {
    var s := input.Place();
    assert s.inv.Keys == NAMES;
    hide Mixed, Figures4, Roomy, Opening, DecidePool, DecisionFor, StateBefore, PR.InventoryMap, CP.EligibleNodes,
      PinPlaces, FirstPool;
    RoomyIs(s);
    DecisionIs(s, Opening(s.inv));
    EligibleAre(s);
    EmptyWitness.FirstIsTlc(input, 4000);
  }

  lemma Pinned4Is()
    ensures Pinned4(INPUT)
  {
    PlaceIs();
    hide Mixed, Figures4, PR.InventoryMap, Pinned4;
    MixedIs();
    FiguresAre4();
    InputFields();
    Pinned4From(INPUT);
  }

  // ----- what every host gets -----

  lemma MixedHosts(s: Site)
    requires Mixed(s)
    ensures NAMES == s.inv.Keys && NAMES == HOSTS + {"e"} && |s.existing| == 4 && UniqueNames(s.existing)
    ensures var e := s.existing;
      && HostOn(e, "a") == Some(e[0]) && HostOn(e, "d") == Some(e[1]) && HostOn(e, "b") == Some(e[2])
      && HostOn(e, "c") == Some(e[3]) && HostOn(e, "e").None? && NonNegativeDrives(e)
      && e[0].caps == Caps(900, 0) && e[1].caps == Caps(100, 0) && e[2].caps == e[3].caps == Caps(1000, 0)
    ensures NodeCur(s, "a", TLC) == 900 && NodeCur(s, "d", TLC) == 100 && NodeCur(s, "e", TLC) == 0
    ensures NodeCur(s, "b", TLC) == NodeCur(s, "c", TLC) == 1000 && s.cons == FROZEN
    ensures s.existing[0].numCores == s.existing[2].numCores == s.existing[3].numCores == 2
  {
    Letters();
    hide HostOn, AllDriveNodes, WellFormedDrive;
  }

  lemma NewHost(s: Site, l: Ledger)
    requires Tracks(s, l) && "e" in s.inv && HostOn(s.existing, "e").None? && l.created == map[] && s.cons == FROZEN
    requires Headroom(s.inv["e"], l.budgets["e"], TLC, s.cons, true) == 2000 && NodeCur(s, "e", TLC) == 0
    ensures OnSite(s, NEW) && Complete(s, l, TLC, 1000, NEW) && TriedAt(s, l, TLC, 1000, NEW, "e") == 1000
    ensures GroupLack(s, TLC, 1000, NEW) == 1000
  {
    ShareAt(1000, NEW, 0);
    assert Share(1000, 1, 0) == 1000;
    assert HostsLack(s, TLC, ["e"], 1000, 0) == 0;
    hide HeadroomBinding, HostOn, ShareOf, NodeCur;
    assert MinAdd(s, l, TLC, "e") == 384;
    assert forall n :: n in NEW.nodes ==> n == "e";
  }

  /** Every chosen failure domain is completed; host d adds 400 GiB, node e 1000, the other hosts nothing. */
  ghost predicate AllHold(s: Site, l: Ledger) {
    && Tracks(s, l) && NAMES <= s.inv.Keys && AllOnSite(s, CHOSEN)
    && (forall g :: g in CHOSEN ==> OnSite(s, g) && Complete(s, l, TLC, 1000, g))
    && TriedAt(s, l, TLC, 1000, PAIR, "a") == 0 && TriedAt(s, l, TLC, 1000, PAIR, "d") == 400
    && TriedAt(s, l, TLC, 1000, Lone("b"), "b") == 0 && TriedAt(s, l, TLC, 1000, Lone("c"), "c") == 0
    && TriedAt(s, l, TLC, 1000, NEW, "e") == 1000
    && GroupLack(s, TLC, 1000, PAIR) == 400 && GroupLack(s, TLC, 1000, Lone("b")) == 0
    && GroupLack(s, TLC, 1000, Lone("c")) == 0 && GroupLack(s, TLC, 1000, NEW) == 1000
  }

  lemma PairOnSite(s: Site)
    requires "a" in s.inv && "d" in s.inv
    ensures OnSite(s, PAIR)
  {
    Letters();
  }

  lemma AllHoldIs(s: Site, l: Ledger)
    requires Mixed(s) && Roomy(s, l)
    ensures AllHold(s, l)
  {
    var e := s.existing;
    hide Mixed, Roomy, Complete, TriedAt, GroupLack, OnSite, HostOn, NodeCur, HeadroomBinding, RoomOf;
    MixedHosts(s);
    RoomsAt(s, l);
    PairOnSite(s);
    PairFigures(s, l, 1000, e[0], e[1]);
    ShrinkWitness.PairLack(s, 1000);
    ShrinkWitness.LoneComplete(s, l, "b", e[2], 1000);
    ShrinkWitness.LoneComplete(s, l, "c", e[3], 1000);
    ShrinkWitness.LoneTried(s, l, "b", e[2], 1000);
    ShrinkWitness.LoneTried(s, l, "c", e[3], 1000);
    ShrinkWitness.LoneLack(s, "b", 1000);
    ShrinkWitness.LoneLack(s, "c", 1000);
    NewHost(s, l);
    assert forall g :: g in CHOSEN ==> g == PAIR || g == Lone("b") || g == Lone("c") || g == NEW;
  }

  lemma GainIs(s: Site, l: Ledger)
    requires AllHold(s, l)
    ensures LevelGain(s, l, TLC, 1000, CHOSEN) == 1400
  {
    hide Complete, GroupLack, OnSite, TriedAt;
    var g := CHOSEN;
    assert g[..3][..2] == g[..2] && g[..2][..1] == g[..1] && g[..1][..0] == [] && g[..4] == g;
    assert g[0] == PAIR && g[1] == Lone("b") && g[2] == Lone("c") && g[3] == NEW;
    assert g[0] in g && g[1] in g && g[2] in g && g[3] in g;
    assert LevelGain(s, l, TLC, 1000, g[..1]) == 400 && LevelGain(s, l, TLC, 1000, g[..2]) == 400;
    assert LevelGain(s, l, TLC, 1000, g[..3]) == 400;
  }

  // ----- records -----

  lemma InputIs(input: Input)
    requires Pinned4(input)
    ensures var s := input.Place(); var l := Opening(s.inv);
      && Mixed(s) && Figures4(s) && Roomy(s, l) && input.cons == FROZEN && s.existing == input.drives
      && s.cons == FROZEN && AllHold(s, l) && input.desired == DesiredCapacity(Caps(4000, 0), 3, 3, 4, 0)
      && input.scheme == ProtectionScheme(2, 1, 0)
  {
    hide Mixed, Figures4, Roomy, Opening, PR.InventoryMap, DecidePool, DecisionFor, StateBefore, CP.EligibleNodes,
      AllHold;
    AllHoldIs(input.Place(), Opening(input.Place().inv));
  }

  /** Whether a host is touched, and what it gains. */
  lemma HostGains(input: Input, g: FdGroup, n: string)
    requires Pinned4(input) && g in CHOSEN && n in g.nodes && n in input.Place().inv
    ensures var s := input.Place(); var l := Opening(s.inv);
      && Gained(input, TLC, n) == TriedAt(s, l, TLC, 1000, g, n)
      && (Touched(input, TLC, n) <==> TriedAt(s, l, TLC, 1000, g, n) > 0)
      && !Touched(input, QLC, n) && Gained(input, QLC, n) == 0
  {
    var s := input.Place();
    var l, d := Opening(s.inv), DecisionFor(input, TLC);
    InputIs(input);
    DecisionDisjoint(s, l, TLC, 4000, 3, 4);
    hide Mixed, Figures4, Roomy, Opening, StateBefore, PR.InventoryMap, CP.EligibleNodes, TriedAt, Complete, PoolGain,
      Touches, DecidePool, DecisionFor, NodesDisjoint, GroupLack, OnSite;
    var i :| 0 <= i < |CHOSEN| && CHOSEN[i] == g;
    assert ChosenFd(s, d, g, n);
    hide ChosenFd;
    ChosenIs(s, l, TLC, d, g, n);
    ShrinkWitness.QlcLeft(input, n);
  }

  lemma RecordAt(input: Input, g: FdGroup, n: string, add: int)
    requires Pinned4(input) && g in CHOSEN && n in g.nodes && n in input.Place().inv
    requires TriedAt(input.Place(), Opening(input.Place().inv), TLC, 1000, g, n) == add
    ensures Holds(input.Place(), PoolsOf(input).ledger, n, add > 0, add, 0)
  {
    InputIs(input);
    HostGains(input, g, n);
    MixedHosts(input.Place());
    hide Pinned4, Mixed, Figures4, Roomy, Opening, PR.InventoryMap, TriedAt, Touched, Gained, PoolsOf, HostOn, AllHold,
      NodeCur;
    NodeRecord(input, n);
  }

  lemma ChosenMembers()
    ensures PAIR in CHOSEN && Lone("b") in CHOSEN && Lone("c") in CHOSEN && NEW in CHOSEN
    ensures "a" in PAIR.nodes && "d" in PAIR.nodes && "b" in Lone("b").nodes && "c" in Lone("c").nodes
    ensures "e" in NEW.nodes
  {
    assert CHOSEN[0] == PAIR && CHOSEN[1] == Lone("b") && CHOSEN[2] == Lone("c") && CHOSEN[3] == NEW;
    assert PAIR.nodes[0] == "a" && PAIR.nodes[1] == "d";
  }

  /** Only the container on host d is grown, to its even share; node e gets a container of 1000 GiB. */
  lemma Records(input: Input)
    requires Pinned4(input) && |input.drives| == 4
    ensures var l, e := PoolsOf(input).ledger, input.drives;
      && e[0].name !in l.growth && e[2].name !in l.growth && e[3].name !in l.growth
      && e[1].name in l.growth && l.growth[e[1].name] == Caps(500, 0)
      && "e" in l.created && l.created["e"].caps == Caps(1000, 0)
  {
    InputIs(input);
    MixedHosts(input.Place());
    ChosenMembers();
    hide Pinned4, Mixed, Figures4, Roomy, Opening, PR.InventoryMap, TriedAt, PoolsOf, HostOn, Complete, GroupLack,
      OnSite, NodeCur;
    RecordAt(input, PAIR, "a", 0);
    RecordAt(input, PAIR, "d", 400);
    RecordAt(input, Lone("b"), "b", 0);
    RecordAt(input, Lone("c"), "c", 0);
    RecordAt(input, NEW, "e", 1000);
  }

  lemma OnlySeat(s: Site, n: string)
    requires Mixed(s) && Seating.Seat(s, n)
    ensures n == "e" && s.inv[n].fdValue == "e"
  {
    MixedHosts(s);
    MixedNode(s, n);
    hide Mixed, HostOn, NodeCur;
  }

  lemma OnlyNew(s: Site, l: Ledger)
    requires Mixed(s) && Seating.Seated(s, l) && "e" in l.created && l.created["e"].caps == Caps(1000, 0)
    ensures l.created == map["e" := Created("e", Caps(1000, 0))]
  {
    hide Mixed, Seating.Seat;
    forall n | n in l.created ensures n == "e" && l.created[n].fd == "e" { OnlySeat(s, n); }
  }

  lemma CreatedIs(input: Input)
    requires Pinned4(input)
    ensures PoolsOf(input).ledger.created == map["e" := Created("e", Caps(1000, 0))]
  {
    var s := input.Place();
    InputIs(input);
    MixedHosts(s);
    hide Pinned4, Mixed, Figures4, Roomy, PR.InventoryMap, PlanPools, Seating.Seated, AllHold, HostOn, NodeCur, Opening;
    Seating.PoolsSeated(s, input.desired.raw, input.scheme.MinFdNum(), TargetsOf(input));
    Records(input);
    OnlyNew(s, PoolsOf(input).ledger);
  }

  // ----- the plan is feasible -----

  lemma CoversTarget(s: Site, l: Ledger)
    requires Mixed(s) && Tracks(s, l) && PoolTotal(s, l, TLC) == 4400
    requires forall c :: c in s.existing ==> FinalCap(l, c, TLC) >= c.caps.tlc
    ensures Feasibility(s, l, TLC, 4000, 3, false) == None
  {
    var e := s.existing;
    assert CoverTarget(4000, FROZEN) == 4000;
    hide CarryingFds, CountedSum, HostOn, FinalCap, AllDriveNodes, WellFormedDrive;
    assert e[0] in e && e[2] in e && e[3] in e;
    forall c | c in e ensures FinalCap(l, c, TLC) >= 0 { assert c.caps.tlc >= 0; }
    ShrinkWitness.TrioCarries(s, l, e[0], e[2], e[3]);
    CountedWithinTotal(e, l, TLC, false);
  }

  lemma PlacedFacts(s: Site, l: Ledger)
    requires Mixed(s) && Figures4(s) && l == Opening(s.inv) && AllHold(s, l) && NodesDisjoint(CHOSEN)
    ensures Feasibility(s, PlaceUniform(s, l, TLC, 1000, CHOSEN), TLC, 4000, 3, false) == None
  {
    OpeningUnplanned(s, TLC);
    UnplannedTotal(s, l, TLC);
    MixedHosts(s);
    assert PoolCurrent(s.existing, TLC) == 3000;
    hide Mixed, Figures4, HostOn, LevelGain, PlaceUniform, PoolTotal, Opening, Unplanned, PoolCurrent, Feasibility,
      Complete, TriedAt, GroupLack, OnSite, NodeCur;
    GainIs(s, l);
    UniformTotal(s, l, TLC, 1000, CHOSEN);
    PlaceUniformKeeps(s, l, TLC, 1000, CHOSEN);
    ShrinkWitness.UnplannedFloor(s, l, PlaceUniform(s, l, TLC, 1000, CHOSEN));
    CoversTarget(s, PlaceUniform(s, l, TLC, 1000, CHOSEN));
  }

  lemma PoolsAre(input: Input)
    requires Pinned4(input)
    ensures PoolsOf(input).notes == NO_NOTES && Pools(input, Caps(4, 0)) == PoolsOf(input)
    ensures ProtectionOk(input.scheme, input.cons)
    ensures Targets(input.desired, input.scheme.MinFdNum()) == Some(Caps(4, 0))
  {
    var s := input.Place();
    var l := Opening(s.inv);
    EmptyWitness.FirstIsTlc(input, 4000);
    assert ProtectionOk(input.scheme, input.cons);
    InputIs(input);
    assert Tracks(s, l);
    DecisionDisjoint(s, l, TLC, 4000, 3, 4);
    hide Mixed, Figures4, Roomy, StateBefore, PR.InventoryMap, CP.EligibleNodes, DecisionFor, PlanPools, PlaceUniform,
      Opening, PlanPool, Feasibility, DecidePool, NodesDisjoint, Complete, TriedAt, GroupLack, OnSite;
    PlacedFacts(s, l);
    EmptyWitness.CleanPin(s, l, 4000, 4, 1000, CHOSEN);
    AdvisoryWitness.OnePool(s, Caps(4000, 0), 3, 4, PoolState(PlaceUniform(s, l, TLC, 1000, CHOSEN), NO_NOTES));
  }

  lemma OneRecorded(l: Ledger)
    requires l.created == map["e" := Created("e", Caps(1000, 0))]
    ensures Recorded(l.created.Keys) == ["e"]
  {
    var nodes := Recorded(l.created.Keys);
    RecordedFacts(l.created.Keys);
    DistinctCount(nodes);
    hide CP.SortedNames;
    assert Elems(nodes) == {"e"};
    assert nodes[0] in Elems(nodes);
  }

  lemma NewCore(s: Site, l: Ledger)
    requires Tracks(s, l) && s.cons == FROZEN && l.created == map["e" := Created("e", Caps(1000, 0))]
    ensures var create := EmitCreate(s, l, Recorded(l.created.Keys), 0).list;
      && NewTlcCores(create, FROZEN) + NewQlcCores(create, FROZEN) == 1
      && NewTlcCores(create, FROZEN) >= 0 && NewQlcCores(create, FROZEN) >= 0
  {
    assert PinCores(Caps(1000, 0), 0, FROZEN) == DriveCoreCounts.Pinned(1, 1);
    hide EmitCreate, PinCores, NewTlcCores, NewQlcCores, CP.SortedNames;
    OneRecorded(l);
    AdvisoryWitness.PlainCreate(s, l, ["e"]);
    CreateEntries(s, l, ["e"], 0);
    var create := EmitCreate(s, l, ["e"], 0).list;
    NewAttribution(create, FROZEN);
    assert create[..0] == [] && NewCores(create[..0]) == 0;
  }

  lemma SevenInPlace(e: seq<ExistingContainer>, l: Ledger)
    requires |e| == 4 && e[0].name !in l.growth && e[2].name !in l.growth && e[3].name !in l.growth
    requires e[1].name in l.growth && l.growth[e[1].name] == Caps(500, 0)
    requires e[0].numCores == e[2].numCores == e[3].numCores == 2
    ensures ExistingTlcCores(e, l, 0, FROZEN) + ExistingQlcCores(e, l, 0, FROZEN) == 7
    ensures ExistingTlcCores(e, l, 0, FROZEN) >= 0 && ExistingQlcCores(e, l, 0, FROZEN) >= 0
  {
    Prefixes(e);
    assert PinCores(Caps(500, 0), 0, FROZEN) == DriveCoreCounts.Pinned(1, 1);
    hide PinCores, ExistingTlcCores, ExistingQlcCores;
    assert ExistingCores(e[..1], l, 0, FROZEN) == 2 && ExistingCores(e[..2], l, 0, FROZEN) == 3;
    assert ExistingCores(e[..3], l, 0, FROZEN) == 5 && ExistingCores(e, l, 0, FROZEN) == 7;
    forall c | c in e ensures FinalCores(l, c, 0, FROZEN) >= 1 { var i :| 0 <= i < 4 && e[i] == c; }
    ExistingAttribution(e, l, 0, FROZEN);
  }

  lemma Eight(tlc: int, qlc: int)
    requires tlc >= 0 && qlc >= 0 && tlc + qlc == 8
    ensures RequiredComputeCores(tlc, qlc, false, FROZEN) == 8
  {
    assert FROZEN.computeToTlcRatio * tlc as real + FROZEN.computeToQlcRatio * qlc as real == 0.0;
  }

  /** Two, one, two and two cores in place, and one new. */
  lemma EightCores(s: Site, l: Ledger)
    requires Tracks(s, l) && s.cons == FROZEN && |s.existing| == 4
    requires l.created == map["e" := Created("e", Caps(1000, 0))]
    requires var e := s.existing;
      && e[0].numCores == e[2].numCores == e[3].numCores == 2
      && e[0].name !in l.growth && e[2].name !in l.growth && e[3].name !in l.growth
      && e[1].name in l.growth && l.growth[e[1].name] == Caps(500, 0)
    ensures var r := Emit(s, l, 0);
      && r.failure.None? && r.budgets == l.budgets
      && RequiredComputeCores(ExistingTlcCores(s.existing, l, 0, FROZEN) + NewTlcCores(r.create, FROZEN),
        ExistingQlcCores(s.existing, l, 0, FROZEN) + NewQlcCores(r.create, FROZEN), false, FROZEN) == 8
  {
    hide EmitGrow, EmitCreate, CP.SortedNames, ExistingTlcCores, ExistingQlcCores, NewTlcCores, NewQlcCores,
      RequiredComputeCores;
    EmptyWitness.EmitsAll(s, l);
    NewCore(s, l);
    SevenInPlace(s.existing, l);
    var create := Emit(s, l, 0).create;
    Eight(ExistingTlcCores(s.existing, l, 0, FROZEN) + NewTlcCores(create, FROZEN),
      ExistingQlcCores(s.existing, l, 0, FROZEN) + NewQlcCores(create, FROZEN));
  }

  lemma NewFds(l: Ledger)
    requires l.created == map["e" := Created("e", Caps(1000, 0))]
    ensures (set n | n in l.created && l.created[n].fd != "" :: l.created[n].fd) == {"e"}
  {
    Letters();
    assert "e" in l.created && l.created["e"].fd == "e";
  }

  lemma HeldFds(s: Site)
    requires Mixed(s)
    ensures (set c | c in s.existing && c.fdValue != "" :: c.fdValue) == TRIO
  {
    var e := s.existing;
    hide HostOn, AllDriveNodes, WellFormedDrive, UniqueNames, OnePerNode;
    Letters();
    assert e[0] in e && e[2] in e && e[3] in e;
    forall c | c in e ensures c.fdValue in TRIO { var i :| 0 <= i < 4 && e[i] == c; }
  }

  lemma FourFds(s: Site, l: Ledger)
    requires Mixed(s) && l.created == map["e" := Created("e", Caps(1000, 0))]
    ensures |DistinctDriveFds(s, l)| == 4
  {
    hide Mixed;
    HeldFds(s);
    Letters();
    TrioSize();
    NewFds(l);
    assert |TRIO + {"e"}| == |TRIO| + 1;
  }

  lemma NodeAt(s: Site, n: string)
    requires Mixed(s) && n in TRIO
    ensures n in s.inv && s.inv[n] == Node(n, n, 1000)
    ensures var e := s.existing; var c := if n == "a" then e[0] else if n == "b" then e[2] else e[3];
      HostOn(e, n) == Some(c) && c.node == n
  {
    Letters();
    hide AllDriveNodes, WellFormedDrive;
    assert n in NAMES;
  }

  /** The container on a compute node is left as it is. */
  lemma KeptHost(input: Input, n: string) returns (c: ExistingContainer)
    requires Pinned4(input) && n in TRIO
    ensures n in input.Place().inv && input.Place().inv[n] == Node(n, n, 1000)
    ensures HostOn(input.drives, n) == Some(c) && c.node == n && GrowthOf(PoolsOf(input).ledger, c) == c.caps
  {
    var s, e := input.Place(), input.drives;
    hide Pinned4, Mixed, Figures4, Roomy, PR.InventoryMap, PoolsOf, HostOn, AllHold, NodeCur, Opening;
    InputIs(input);
    MixedHosts(s);
    NodeAt(s, n);
    Records(input);
    c := if n == "a" then e[0] else if n == "b" then e[2] else e[3];
  }

  lemma HostsCompute(input: Input, n: string)
    requires Pinned4(input) && n in TRIO
    ensures var s, b := input.Place(), PoolsOf(input).ledger.budgets;
      CP.On(s, b) && n in s.inv && s.inv[n].fdValue == n && CP.Hosts(s, b, n, 3, 9000)
  {
    assert LikeCons(FROZEN);
    hide Pinned4, Mixed, Figures4, Roomy, PR.InventoryMap, PoolsOf, HostOn, GrowthCharge, CP.Hosts, AllHold, NodeCur,
      Opening, LikeCons;
    InputIs(input);
    MixedHosts(input.Place());
    var c := KeptHost(input, n);
    ShrinkWitness.ChargeIs(c.caps, c.caps, FROZEN);
    ShrinkWitness.HostedStill(input, n, c, c.caps);
  }

  lemma NineThousand()
    ensures HugepageSizing.ComputeHugepages(Caps(4000, 0), 3, 3, FROZEN) == 9000
  {
  }

  lemma ComputeIs(input: Input)
    requires Pinned4(input)
    ensures PoolsOf(input).ledger.budgets.Keys == input.Place().inv.Keys
    ensures ComputeOf(input, PoolsOf(input).ledger.budgets, 8).Placed?
  {
    var s, b := input.Place(), PoolsOf(input).ledger.budgets;
    InputIs(input);
    hide Mixed, Figures4, Roomy, Opening, StateBefore, PR.InventoryMap, CP.EligibleNodes, DecidePool, DecisionFor,
      PoolsOf, CP.Hosts, CP.PlanCompute, HugepageSizing.ComputeHugepages, HostOn, AllHold;
    NineThousand();
    forall n | n in TRIO ensures n in s.inv && s.inv[n].fdValue == n && CP.Hosts(s, b, n, 3, 9000) {
      HostsCompute(input, n);
    }
    AdvisoryWitness.FieldCompute(s, b, input.desired, 9000, 8);
  }

  lemma Pinned4Feasible(input: Input)
    requires Pinned4(input)
    ensures PlanCapacity(input).Feasible()
  {
    var s, l := input.Place(), PoolsOf(input).ledger;
    hide Pinned4, PR.InventoryMap, PoolsOf, Emit, ComputeOf, ExistingTlcCores, ExistingQlcCores, NewTlcCores,
      NewQlcCores, RequiredComputeCores, Pools, PlanCapacity, ProtectionOk, Targets, DistinctDriveFds, Mixed, Figures4,
      Roomy, AllHold, Opening, HostOn, NodeCur;
    InputIs(input);
    MixedHosts(s);
    PoolsAre(input);
    Records(input);
    CreatedIs(input);
    EightCores(s, l);
    FourFds(s, l);
    ComputeIs(input);
    AdvisoryWitness.FeasibleFrom(input, Caps(4, 0), PoolsOf(input), 8);
  }

  lemma Pinned4Lists(input: Input)
    requires Pinned4(input) && |input.drives| == 4
    ensures Lists(PlanCapacity(input).grow, input.drives[1].name, Caps(500, 0))
  {
    hide Pinned4, PR.InventoryMap, PoolsOf, PlanCapacity, ProtectionOk, Targets, Mixed, Figures4, Roomy, AllHold,
      Opening, Lists;
    InputIs(input);
    PoolsAre(input);
    Records(input);
    assert input.cons.maxCoresPerContainer <= 0 && input.desired.driveCores == 0;
    ListsRecord(input, input.drives[1].name);
  }

  /** With in-place growth off, the plan is feasible and grows the container on host d from 100 to 500 GiB. */
  lemma FrozenGrown()
    ensures !INPUT.cons.allowInPlaceGrowth && INPUT.drives[1] == Drive("q", "d", "a", 100, 1)
    ensures PlanCapacity(INPUT).Feasible() && Lists(PlanCapacity(INPUT).grow, "q", Caps(500, 0))
  {
    Pinned4Is();
    assert INPUT.drives[1] == Drive("q", "d", "a", 100, 1);
    hide Pinned4, PlanCapacity, Lists;
    Pinned4Feasible(INPUT);
    Pinned4Lists(INPUT);
  }
}
