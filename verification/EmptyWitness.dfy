/** A feasible plan that creates empty drive containers, in a failure domain of two uneven hosts. */
module EmptyWitness {
  import opened Arith
  import opened Model
  import opened NodeBudget
  import opened Ledgers
  import opened Placement
  import opened FdRecords
  import opened Ordering
  import opened FreshFds
  import opened Deadband
  import opened PoolDecision
  import opened PoolPlanner
  import opened DriveCoreCounts
  import opened Planner
  import opened EmissionFacts
  import opened PlanTheorems
  import opened AdvisoryTheorems
  import opened GrowRecords
  import opened GrownCores
  import opened PinnedRecords
  import opened WitnessSites
  import opened PlanWitness
  import FdWitness
  import ShrinkWitness
  import AdvisoryWitness
  import RecordWitness
  import Seating
  import PR = PlanRuns
  import CP = ComputePlanner
  import Cpu
  import HugepageSizing

  const SOFT := CONS.(deadbandFraction := 0.3)

  const DRIVES := [Drive("p", "a", "a", 700, 1), Drive("q", "b", "b", 700, 1), Drive("r", "c", "c", 700, 1)]

  const INV := map["a" := Node("a", "a", 1000), "b" := Node("b", "b", 1000), "c" := Node("c", "c", 1000),
    "d" := Node("d", "x", 1000), "e" := Node("e", "x", 390)]

  const HERE := Site(INV, DRIVES, SOFT)

  const NAMES := {"a", "b", "c", "d", "e"}

  /** The pair of hosts without drives: 1390 GiB together, but only 390 on the second. */
  const SPARE := Pair("d", "e").(headroom := 1390)

  lemma Xs()
    ensures "x" != "" && "x" != "a" && "x" != "b" && "x" != "c" && "p" != "q" && "p" != "r" && "q" != "r"
  {
    assert "x"[0] == 'x' && "a"[0] == 'a' && "b"[0] == 'b' && "c"[0] == 'c';
    assert "p"[0] == 'p' && "q"[0] == 'q' && "r"[0] == 'r';
  }

  lemma InvAt(n: string)
    ensures n in INV <==> n in NAMES
    ensures n in TRIO ==> INV[n] == Node(n, n, 1000)
    ensures INV["d"] == Node("d", "x", 1000) && INV["e"] == Node("e", "x", 390)
  {
    Letters();
  }

  /** What matters of the site. */
  ghost predicate Sparse(s: Site) {
    var e := s.existing;
    && s.cons == SOFT && (forall n :: n in s.inv <==> n in NAMES) && |e| == 3 && UniqueNames(e) && NonNegativeDrives(e)
    && HostOn(e, "a") == Some(e[0]) && HostOn(e, "b") == Some(e[1]) && HostOn(e, "c") == Some(e[2])
    && HostOn(e, "d").None? && HostOn(e, "e").None?
    && (forall i :: 0 <= i < 3 ==> e[i].caps == Caps(700, 0) && e[i].numCores == 1)
    && e[0].fdValue == "a" && e[1].fdValue == "b" && e[2].fdValue == "c"
    && (forall n :: n in TRIO ==> s.inv[n] == Node(n, n, 1000))
    && s.inv["d"] == Node("d", "x", 1000) && s.inv["e"] == Node("e", "x", 390)
  }

  lemma SparseIs()
    ensures Sparse(HERE)
  {
    Letters();
    Xs();
    var e := DRIVES;
    assert e[..2][..1] == e[..1] && e[..1][..0] == [] && e[..3] == e;
    assert HostOn(e[..1], "a") == HostOn(e[..2], "a") == Some(e[0]) && HostOn(e[..2], "b") == Some(e[1]);
    assert HostOn(e[..1], "d").None? && HostOn(e[..2], "d").None?;
    assert HostOn(e[..1], "e").None? && HostOn(e[..2], "e").None?;
    hide HostOn;
    forall n ensures (n in INV <==> n in NAMES) && (n in TRIO ==> INV[n] == Node(n, n, 1000)) { InvAt(n); }
    InvAt("d");
  }

  // ----- rooms -----

  /** The opening budgets give each node the drives it reports. */
  ghost predicate Roomy(s: Site, l: Ledger) {
    && Tracks(s, l) && NAMES <= s.inv.Keys && (forall n :: n in TRIO ==> FdWitness.RoomOf(s, l, n) == 1000)
    && Headroom(s.inv["d"], l.budgets["d"], TLC, s.cons, true) == 1000
    && Headroom(s.inv["e"], l.budgets["e"], TLC, s.cons, true) == 390
  }

  lemma RoomyIs(s: Site)
    requires Sparse(s)
    ensures Roomy(s, Opening(s.inv))
  {
    var l := Opening(s.inv);
    assert Tracks(s, l) && forall n :: n in s.inv ==> l.budgets[n] == InitialBudget(s.inv[n]);
    assert NAMES <= s.inv.Keys && TRIO <= NAMES;
    hide HostOn, HeadroomBinding, Opening;
    NodeRoom("d", "x", 1000, SOFT, true);
    NodeRoom("e", "x", 390, SOFT, true);
    forall n | n in TRIO ensures n in s.inv && FdWitness.RoomOf(s, l, n) == 1000 { NodeRoom(n, n, 1000, SOFT, false); }
  }

  // ----- the fresh failure domain -----

  lemma Used(s: Site)
    requires Sparse(s)
    ensures forall n :: n in PoolNodeUsed(s.existing, TLC) <==> n in TRIO
  {
    var e := s.existing;
    assert e[0] in e && e[1] in e && e[2] in e;
    assert e[0].node == "a" && e[1].node == "b" && e[2].node == "c";
    Letters();
    hide HostOn;
  }

  lemma CandidatesAre(s: Site, l: Ledger)
    requires Sparse(s) && Roomy(s, l)
    ensures Candidates(s, l, TLC) == {"d", "e"}
  {
    Letters();
    Used(s);
    hide HostOn, HeadroomBinding, PoolNodeUsed;
    forall n ensures IsCandidate(s, l, TLC, n) <==> n == "d" || n == "e" {}
    CandidatesSet(s, l);
  }

  lemma CandidatesSet(s: Site, l: Ledger)
    requires Tracks(s, l) && forall n :: IsCandidate(s, l, TLC, n) <==> n == "d" || n == "e"
    ensures Candidates(s, l, TLC) == {"d", "e"}
  {
    CandidateOnSite(s, l, TLC, "d");
    CandidateOnSite(s, l, TLC, "e");
    hide IsCandidate;
  }

  lemma OrderIs(s: Site, l: Ledger)
    requires Tracks(s, l) && Candidates(s, l, TLC) == {"d", "e"} && "d" in s.inv && "e" in s.inv
    requires Ranks(s, l, TLC)["d"] > Ranks(s, l, TLC)["e"]
    ensures CandidateOrder(s, l, TLC) == ["d", "e"]
  {
    hide Candidates, HeadroomBinding;
    FdWitness.RankedPair(Ranks(s, l, TLC), "d", "e");
  }

  lemma FreshFrom(s: Site, l: Ledger)
    requires Tracks(s, l) && CandidateOrder(s, l, TLC) == ["d", "e"] && "d" in s.inv && "e" in s.inv
    requires s.inv["d"].fdValue == s.inv["e"].fdValue == "x" && Ranks(s, l, TLC)["d"] == 1000
    requires Ranks(s, l, TLC)["e"] == 390 && !s.inv["d"].hasDeletingDrive && !s.inv["e"].hasDeletingDrive
    ensures FreshGroups(s, l, TLC) == [SPARE]
  {
    var rank, key := Ranks(s, l, TLC), FdOf(s);
    assert key["d"] == "x" && key["e"] == "x";
    hide Ranks, CandidateOrder, FirstSeen, Members, SumRank;
    SeenPair(key);
    MembersPair(key);
    RankPair(rank);
    assert !AnyDeleting(s, ["d", "e"]);
  }

  lemma FreshIs(s: Site, l: Ledger)
    requires Sparse(s) && Roomy(s, l)
    ensures FreshGroups(s, l, TLC) == [SPARE]
  {
    CandidatesAre(s, l);
    assert "d" in s.inv && "e" in s.inv;
    hide HostOn, HeadroomBinding, Candidates;
    assert Ranks(s, l, TLC)["d"] == 1000 && Ranks(s, l, TLC)["e"] == 390;
    hide Ranks, CandidateOrder, FreshGroups;
    OrderIs(s, l);
    FreshFrom(s, l);
  }

  lemma SeenPair(key: map<string, string>)
    requires "d" in key && "e" in key && key["d"] == key["e"] == "x"
    ensures FirstSeen(key, ["d", "e"]) == ["x"]
  {
    var xs := ["d", "e"];
    assert xs[..1] == ["d"] && xs[..1][..0] == [];
    assert FirstSeen(key, xs[..1]) == ["x"];
  }

  lemma MembersPair(key: map<string, string>)
    requires "d" in key && "e" in key && key["d"] == key["e"] == "x"
    ensures Members(key, ["d", "e"], "x") == ["d", "e"]
  {
    var xs := ["d", "e"];
    assert xs[..1] == ["d"] && xs[..1][..0] == [];
    assert Members(key, xs[..1], "x") == ["d"];
  }

  lemma RankPair(rank: map<string, int>)
    requires "d" in rank && "e" in rank && rank["d"] == 1000 && rank["e"] == 390
    ensures SumRank(rank, ["d", "e"]) == 1390
  {
    var xs := ["d", "e"];
    assert xs[..1] == ["d"] && xs[..1][..0] == [];
    assert SumRank(rank, xs[..1]) == 1000;
  }

  // ----- the decision -----

  const CHOSEN := [Lone("a"), Lone("b"), Lone("c"), SPARE]

  lemma FiguresAre(s: Site)
    requires Sparse(s)
    ensures PoolCurrent(s.existing, TLC) == 2100 && PoolFds(s.existing, TLC) == ["a", "b", "c"]
  {
    Letters();
    var e := s.existing;
    hide HostOn;
    assert e[..2][..1] == e[..1] && e[..1][..0] == [] && e[..3] == e;
    assert PoolCurrent(e[..1], TLC) == 700 && PoolCurrent(e[..2], TLC) == 1400;
    assert PoolFds(e[..1], TLC) == ["a"] && PoolFds(e[..2], TLC) == ["a", "b"];
  }

  lemma BearingAre(s: Site)
    requires Sparse(s)
    ensures BearingNodes(s, s.existing, TLC) == map["a" := "a", "b" := "b", "c" := "c"]
    ensures BearingFds(s, s.existing, TLC) == ["a", "b", "c"]
  {
    Letters();
    var e := s.existing;
    assert e[0].node == "a" && e[1].node == "b" && e[2].node == "c";
    assert !e[0].unscheduled && !e[1].unscheduled && !e[2].unscheduled;
    hide HostOn;
    assert Bears(s, e[0], TLC) && Bears(s, e[1], TLC) && Bears(s, e[2], TLC);
    hide Bears;
    assert e[..2][..1] == e[..1] && e[..1][..0] == [] && e[..3] == e;
    assert BearingNodes(s, e[..1], TLC) == map["a" := "a"] && BearingFds(s, e[..1], TLC) == ["a"];
    assert BearingNodes(s, e[..2], TLC) == map["a" := "a", "b" := "b"] && BearingFds(s, e[..2], TLC) == ["a", "b"];
  }

  lemma GroupsFrom(s: Site, l: Ledger)
    requires Tracks(s, l) && "a" in s.inv && "b" in s.inv && "c" in s.inv
    requires BearingNodes(s, s.existing, TLC) == map["a" := "a", "b" := "b", "c" := "c"]
    requires BearingFds(s, s.existing, TLC) == ["a", "b", "c"]
    ensures ExistingGroups(s, l, TLC) == [Lone("a"), Lone("b"), Lone("c")]
  {
    hide BearingNodes, BearingFds, ExistingGroup;
    Letters();
    FdWitness.LoneGroup(s, l, "a");
    FdWitness.LoneGroup(s, l, "b");
    FdWitness.LoneGroup(s, l, "c");
  }

  lemma GroupsAre(s: Site, l: Ledger)
    requires Sparse(s) && Tracks(s, l)
    ensures ExistingGroups(s, l, TLC) == [Lone("a"), Lone("b"), Lone("c")]
  {
    BearingAre(s);
    hide HostOn, BearingNodes, BearingFds, ExistingGroups;
    GroupsFrom(s, l);
  }

  lemma BandIs()
    ensures Band(3200, SOFT) == 960 && CoverTarget(3200, SOFT) == 2240 && CapacityShort(2100, 3200, SOFT)
  {
    assert 3200 as real * 0.3 == 960.0;
    assert (-960.0).Floor == -960;
  }

  lemma TakenIs()
    ensures TakeFresh([SPARE], 1, 800) == [SPARE]
  {
    var gs := [SPARE];
    assert gs[..0] == [];
    TakeFreshExact(gs, 1, 800);
    assert AtLeast(gs[..0], 800) == [];
    assert CountAtLeast(gs, 800) == 1;
    hide TakeFresh, CountAtLeast;
    assert TakeFresh(gs, 1, 800)[0] in TakeFresh(gs, 1, 800);
  }

  lemma PinFrom(s: Site)
    requires s.cons == SOFT && PoolCurrent(s.existing, TLC) == 2100 && PoolFds(s.existing, TLC) == ["a", "b", "c"]
    ensures PinPlaces(s, TLC, 3200, 4) && ExactNewFds(s.existing, TLC, 4, 1100, SOFT) == Some(1)
    ensures CeilDiv(3200, 4) == 800
  {
    BandIs();
    hide PoolCurrent, PoolFds, CapacityShort;
    assert GoDiv(1100, 1) == 1100;
  }

  lemma ExplicitFrom(s: Site, l: Ledger)
    requires Tracks(s, l) && s.cons == SOFT && PoolCurrent(s.existing, TLC) == 2100 && PinPlaces(s, TLC, 3200, 4)
    requires ExactNewFds(s.existing, TLC, 4, 1100, SOFT) == Some(1) && CeilDiv(3200, 4) == 800
    requires ExistingGroups(s, l, TLC) == [Lone("a"), Lone("b"), Lone("c")] && FreshGroups(s, l, TLC) == [SPARE]
    ensures ExplicitDecision(s, l, TLC, 3200, 4) == Place(800, CHOSEN, ExplicitRoute)
  {
    TakenIs();
    hide ExistingGroups, FreshGroups, TakeFresh, PoolCurrent, FrozenGap, ExactNewFds, CapacityShort;
  }

  /** The pin asks for one more failure domain, and the pair of hosts is the only candidate. */
  lemma DecisionIs(s: Site, l: Ledger)
    requires Sparse(s) && Roomy(s, l)
    ensures PinPlaces(s, TLC, 3200, 4) && DecidePool(s, l, TLC, 3200, 3, 4) == Place(800, CHOSEN, ExplicitRoute)
  {
    FiguresAre(s);
    GroupsAre(s, l);
    FreshIs(s, l);
    hide HostOn, HeadroomBinding, DecidePool, ExistingGroups, FreshGroups, ExplicitDecision, PoolCurrent, PoolFds,
      PinPlaces, ExactNewFds;
    assert s.cons == SOFT;
    hide Sparse, Roomy;
    PinFrom(s);
    ExplicitFrom(s, l);
    PinDecision(s, l, TLC, 3200, 3, 4);
  }

  // ----- the input -----

  /** 3200 GiB pinned to four failure domains at 2+1, with a wide deadband and three two-core computes. */
  const INPUT := Input(
    DesiredCapacity(Caps(3200, 0), 3, 2, 4, 0), ProtectionScheme(2, 1, 0), DRIVES, [],
    [Node("a", "a", 1000), Node("b", "b", 1000), Node("c", "c", 1000), Node("d", "x", 1000), Node("e", "x", 390)],
    Some(map["a" := true, "b" := true, "c" := true]), SOFT)

  lemma PlaceIs()
    ensures INPUT.Place() == HERE
  {
    Letters();
    var inv := INPUT.inventory;
    assert inv[..4][..3] == inv[..3] && inv[..3][..2] == inv[..2] && inv[..2][..1] == inv[..1] && inv[..1][..0] == [];
    assert inv[..5] == inv;
    assert PR.InventoryMap(inv[..1]) == map["a" := inv[0]];
    assert PR.InventoryMap(inv[..2]) == map["a" := inv[0], "b" := inv[1]];
    assert PR.InventoryMap(inv[..3]) == map["a" := inv[0], "b" := inv[1], "c" := inv[2]];
    assert PR.InventoryMap(inv[..4]) == map["a" := inv[0], "b" := inv[1], "c" := inv[2], "d" := inv[3]];
  }

  /** What matters of the input. */
  ghost predicate Pinned4(input: Input) {
    var s := input.Place(); var l := Opening(s.inv);
    && Sparse(s) && Roomy(s, l) && input.cons == SOFT && input.scheme == ProtectionScheme(2, 1, 0)
    && input.desired == DesiredCapacity(Caps(3200, 0), 3, 2, 4, 0) && input.compute == []
    && input.computeNodes.Some? && CP.EligibleNodes(s, input.computeNodes.value) == TRIO
    && StateBefore(input, TLC).ledger == l && DecisionFor(input, TLC) == DecidePool(s, l, TLC, 3200, 3, 4)
    && DecisionFor(input, TLC) == Place(800, CHOSEN, ExplicitRoute) && DecisionFor(input, QLC) == Keep
  }

  lemma FirstIsTlc(input: Input, desired: int)
    requires input.desired.raw == Caps(desired, 0) && desired > 0 && input.desired.driveContainers == 4
    requires input.scheme == ProtectionScheme(2, 1, 0)
    ensures TargetsOf(input) == Caps(4, 0) && FirstPool(input.Place(), input.desired.raw) == TLC
    ensures Targets(input.desired, input.scheme.MinFdNum()) == Some(Caps(4, 0))
    ensures StateBefore(input, TLC).ledger == Opening(input.Place().inv) && DecisionFor(input, QLC) == Keep
    ensures DecisionFor(input, TLC) == DecidePool(input.Place(), Opening(input.Place().inv), TLC, desired, 3, 4)
  {
    FdWitness.QlcKept(input);
    hide PR.InventoryMap, Opening, DecidePool, PlanPool;
  }

  lemma EligibleAre(s: Site)
    requires Sparse(s)
    ensures CP.EligibleNodes(s, map["a" := true, "b" := true, "c" := true]) == TRIO
  {
    Letters();
    hide HostOn;
  }

  lemma Pinned4Is()
    ensures Pinned4(INPUT)
  {
    var s := HERE;
    PlaceIs();
    SparseIs();
    hide Sparse, Roomy, Opening, DecidePool, DecisionFor, StateBefore, PR.InventoryMap, CP.EligibleNodes, PinPlaces;
    RoomyIs(s);
    DecisionIs(s, Opening(s.inv));
    EligibleAre(s);
    FirstIsTlc(INPUT, 3200);
  }

  // ----- the pair is rolled back, the others completed -----

  lemma PairFails(s: Site, l: Ledger)
    requires Sparse(s) && Roomy(s, l) && l.created == map[]
    ensures OnSite(s, SPARE) && !Complete(s, l, TLC, 800, SPARE)
    ensures TriedAt(s, l, TLC, 800, SPARE, "d") > 0 && TriedAt(s, l, TLC, 800, SPARE, "e") > 0
  {
    Letters();
    assert SPARE.nodes[0] == "d" && SPARE.nodes[1] == "e" && "d" in SPARE.nodes && "e" in SPARE.nodes;
    FdWitness.PairShare(800, SPARE, "d");
    FdWitness.PairShare(800, SPARE, "e");
    assert OnSite(s, SPARE);
    hide HeadroomBinding, HostOn, ShareOf;
    assert MinAdd(s, l, TLC, "d") == 384 && MinAdd(s, l, TLC, "e") == 384;
    assert !HoldsShare(s, l, TLC, "e", 400);
  }

  lemma OthersComplete(s: Site, l: Ledger, n: string)
    requires Sparse(s) && Roomy(s, l) && n in TRIO
    ensures OnSite(s, Lone(n)) && Complete(s, l, TLC, 800, Lone(n)) && GroupLack(s, TLC, 800, Lone(n)) == 100
    ensures TriedAt(s, l, TLC, 800, Lone(n), n) == 100
  {
    var e := s.existing;
    var c := if n == "a" then e[0] else if n == "b" then e[1] else e[2];
    assert HostOn(e, n) == Some(c) && c.caps.tlc == 700 && n in s.inv && FdWitness.RoomOf(s, l, n) == 1000;
    assert NodeCur(s, n, TLC) == 700;
    hide Sparse, Roomy, HostOn, FdWitness.RoomOf, NodeCur, Complete, TriedAt, GroupLack;
    ShrinkWitness.LoneComplete(s, l, n, c, 800);
    ShrinkWitness.LoneLack(s, n, 800);
    ShrinkWitness.LoneTried(s, l, n, c, 800);
  }

  lemma GainIs(s: Site, l: Ledger)
    requires Tracks(s, l) && AllOnSite(s, CHOSEN) && OnSite(s, SPARE) && !Complete(s, l, TLC, 800, SPARE)
    requires forall n :: n in TRIO ==>
      OnSite(s, Lone(n)) && Complete(s, l, TLC, 800, Lone(n)) && GroupLack(s, TLC, 800, Lone(n)) == 100
    ensures LevelGain(s, l, TLC, 800, CHOSEN) == 300
  {
    hide Complete, GroupLack, OnSite;
    var g := CHOSEN;
    assert g[..3][..2] == g[..2] && g[..2][..1] == g[..1] && g[..1][..0] == [] && g[..4] == g;
    assert g[0] == Lone("a") && g[1] == Lone("b") && g[2] == Lone("c") && g[3] == SPARE;
    assert LevelGain(s, l, TLC, 800, g[..1]) == 100 && LevelGain(s, l, TLC, 800, g[..2]) == 200;
    assert LevelGain(s, l, TLC, 800, g[..3]) == 300;
  }

  lemma GainOfInput(input: Input)
    requires Pinned4(input)
    ensures AllOnSite(input.Place(), CHOSEN)
    ensures LevelGain(input.Place(), Opening(input.Place().inv), TLC, 800, CHOSEN) == 300
  {
    var s := input.Place();
    var l := Opening(s.inv);
    PairFails(s, l);
    assert Tracks(s, l);
    ChosenOnSite(s, l, TLC, 3200, 3, 4);
    hide Sparse, Roomy, Opening, DecidePool, DecisionFor, StateBefore, PR.InventoryMap, CP.EligibleNodes, Complete,
      GroupLack, LevelGain, TriedAt, OnSite;
    forall n | n in TRIO
      ensures OnSite(s, Lone(n)) && Complete(s, l, TLC, 800, Lone(n)) && GroupLack(s, TLC, 800, Lone(n)) == 100
    {
      OthersComplete(s, l, n);
    }
    GainIs(s, l);
  }

  // ----- records -----

  /** What the plan does at a host of a chosen group. */
  lemma NodeIs(input: Input, g: FdGroup, n: string)
    requires Pinned4(input) && g in CHOSEN && n in g.nodes && n in input.Place().inv
    ensures var s := input.Place(); var l := Opening(s.inv);
      && OnSite(s, g) && Gained(input, TLC, n) == KeptAt(s, l, TLC, 800, g, n)
      && (Touched(input, TLC, n) <==> TriedAt(s, l, TLC, 800, g, n) > 0)
      && !Touched(input, QLC, n) && Gained(input, QLC, n) == 0
  {
    var s := input.Place();
    var l, d := Opening(s.inv), DecisionFor(input, TLC);
    assert Tracks(s, l);
    ChosenOnSite(s, l, TLC, 3200, 3, 4);
    DecisionDisjoint(s, l, TLC, 3200, 3, 4);
    hide Sparse, Roomy, Opening, StateBefore, PR.InventoryMap, CP.EligibleNodes, TriedAt, KeptAt, PoolGain, Touches,
      DecidePool, DecisionFor, NodesDisjoint;
    var i :| 0 <= i < |CHOSEN| && CHOSEN[i] == g;
    assert ChosenFd(s, d, g, n);
    hide ChosenFd;
    ChosenIs(s, l, TLC, d, g, n);
    ShrinkWitness.QlcLeft(input, n);
  }

  lemma SparseNode(s: Site, n: string)
    requires Sparse(s) && n in TRIO
    ensures n in s.inv && s.inv[n] == Node(n, n, 1000) && |s.existing| == 3 && UniqueNames(s.existing)
    ensures NonNegativeDrives(s.existing)
    ensures var e := s.existing; var c := if n == "a" then e[0] else if n == "b" then e[1] else e[2];
      HostOn(e, n) == Some(c) && c.caps == Caps(700, 0) && c.numCores == 1
    ensures Lone(n) in CHOSEN && n in Lone(n).nodes
  {
    hide HostOn;
    assert CHOSEN[0] == Lone("a") && CHOSEN[1] == Lone("b") && CHOSEN[2] == Lone("c");
  }

  /** Each container in place is grown by the 100 GiB it lacks. */
  lemma GrownTo800(input: Input, n: string)
    requires Pinned4(input) && n in TRIO && |input.drives| == 3
    ensures var e, l := input.drives, PoolsOf(input).ledger;
      var c := if n == "a" then e[0] else if n == "b" then e[1] else e[2];
      c.name in l.growth && l.growth[c.name] == Caps(800, 0)
  {
    var s := input.Place();
    assert Sparse(s) && Roomy(s, Opening(s.inv)) && s.existing == input.drives;
    SparseNode(s, n);
    NodeIs(input, Lone(n), n);
    hide Sparse, Roomy, Pinned4, Opening, PR.InventoryMap, TriedAt, Complete, Touched, Gained, PoolsOf, HostOn,
      GroupLack;
    OthersComplete(s, Opening(s.inv), n);
    NodeRecord(input, n);
  }

  lemma PairNode(s: Site, n: string)
    requires Sparse(s) && (n == "d" || n == "e")
    ensures n in s.inv && s.inv[n].fdValue == "x" && HostOn(s.existing, n).None?
    ensures UniqueNames(s.existing) && NonNegativeDrives(s.existing) && SPARE in CHOSEN && n in SPARE.nodes
  {
    hide HostOn;
    assert CHOSEN[3] == SPARE && SPARE.nodes[0] == "d" && SPARE.nodes[1] == "e";
  }

  /** The pair of hosts keeps a record each, of nothing. */
  lemma PairIsEmpty(input: Input, n: string)
    requires Pinned4(input) && (n == "d" || n == "e")
    ensures var l := PoolsOf(input).ledger; n in l.created && l.created[n].caps == NO_CAPS
  {
    var s := input.Place();
    assert Sparse(s) && Roomy(s, Opening(s.inv)) && s.existing == input.drives && Opening(s.inv).created == map[];
    PairNode(s, n);
    NodeIs(input, SPARE, n);
    hide Sparse, Roomy, Pinned4, Opening, PR.InventoryMap, TriedAt, Complete, Touched, Gained, PoolsOf, HostOn;
    PairFails(s, Opening(s.inv));
    NodeRecord(input, n);
  }

  lemma OnlyPair(s: Site, l: Ledger)
    requires Sparse(s) && Seating.Seated(s, l) && "d" in l.created && "e" in l.created
    requires l.created["d"].caps == l.created["e"].caps == NO_CAPS
    ensures l.created.Keys == {"d", "e"} && l.created["d"] == l.created["e"] == Created("x", NO_CAPS)
  {
    PairNode(s, "d");
    PairNode(s, "e");
    hide Sparse, Seating.Seat;
    forall n | n in l.created ensures n == "d" || n == "e" { SeatsAre(s, n); }
  }

  lemma CreatedAre(input: Input)
    requires Pinned4(input)
    ensures var l := PoolsOf(input).ledger;
      && l.created.Keys == {"d", "e"} && l.created["d"] == l.created["e"] == Created("x", NO_CAPS)
  {
    var s := input.Place();
    assert Sparse(s);
    hide Pinned4, Sparse, PR.InventoryMap, PlanPools, Seating.Seated;
    Seating.PoolsSeated(s, input.desired.raw, input.scheme.MinFdNum(), TargetsOf(input));
    PairIsEmpty(input, "d");
    PairIsEmpty(input, "e");
    OnlyPair(s, PoolsOf(input).ledger);
  }

  lemma SeatsAre(s: Site, n: string)
    requires Sparse(s) && Seating.Seat(s, n)
    ensures n == "d" || n == "e"
  {
    hide HostOn;
  }

  // ----- the plan is feasible -----

  lemma CoversTarget(s: Site, l: Ledger)
    requires Sparse(s) && Tracks(s, l) && PoolTotal(s, l, TLC) == 2400
    requires forall c :: c in s.existing ==> FinalCap(l, c, TLC) >= c.caps.tlc
    ensures Feasibility(s, l, TLC, 3200, 3, false) == None
  {
    var e := s.existing;
    hide CarryingFds, CountedSum, HostOn, CoverTarget, FinalCap;
    assert e[0] in e && e[1] in e && e[2] in e;
    forall c | c in e ensures FinalCap(l, c, TLC) >= 0 { assert c.caps.tlc >= 0; }
    ShrinkWitness.TrioCarries(s, l, e[0], e[1], e[2]);
    CountedWithinTotal(e, l, TLC, false);
    BandIs();
  }

  /** A pinned placement that is judged feasible leaves no notes. */
  lemma CleanPin(s: Site, l: Ledger, desired: int, pin: int, level: nat, chosen: seq<FdGroup>)
    requires Tracks(s, l) && DecidePool(s, l, TLC, desired, 3, pin) == Place(level, chosen, ExplicitRoute)
    requires AllOnSite(s, chosen)
    requires Feasibility(s, PlaceUniform(s, l, TLC, level, chosen), TLC, desired, 3, false) == None
    ensures PlanPool(s, PoolState(l, NO_NOTES), TLC, desired, 3, pin) ==
      PoolState(PlaceUniform(s, l, TLC, level, chosen), NO_NOTES)
  {
    hide DecidePool, PlaceUniform, Feasibility, AllOnSite;
  }

  lemma PlacedFacts(s: Site, l: Ledger)
    requires Sparse(s) && l == Opening(s.inv) && AllOnSite(s, CHOSEN) && NodesDisjoint(CHOSEN)
    requires Tracks(s, l) && LevelGain(s, l, TLC, 800, CHOSEN) == 300
    ensures Feasibility(s, PlaceUniform(s, l, TLC, 800, CHOSEN), TLC, 3200, 3, false) == None
  {
    FiguresAre(s);
    OpeningUnplanned(s, TLC);
    UnplannedTotal(s, l, TLC);
    hide HostOn, LevelGain, PlaceUniform, PoolTotal, Opening, Unplanned, PoolCurrent, Feasibility, PoolFds;
    assert UniqueNames(s.existing) && NonNegativeDrives(s.existing);
    UniformTotal(s, l, TLC, 800, CHOSEN);
    PlaceUniformKeeps(s, l, TLC, 800, CHOSEN);
    ShrinkWitness.UnplannedFloor(s, l, PlaceUniform(s, l, TLC, 800, CHOSEN));
    CoversTarget(s, PlaceUniform(s, l, TLC, 800, CHOSEN));
  }

  lemma PoolsAre(input: Input)
    requires Pinned4(input)
    ensures PoolsOf(input).notes == NO_NOTES && Pools(input, Caps(4, 0)) == PoolsOf(input)
    ensures ProtectionOk(input.scheme, input.cons)
    ensures Targets(input.desired, input.scheme.MinFdNum()) == Some(Caps(4, 0))
  {
    var s := input.Place();
    var l := Opening(s.inv);
    FirstIsTlc(input, 3200);
    assert ProtectionOk(input.scheme, input.cons);
    GainOfInput(input);
    assert Tracks(s, l);
    DecisionDisjoint(s, l, TLC, 3200, 3, 4);
    hide Sparse, Roomy, StateBefore, PR.InventoryMap, CP.EligibleNodes, DecisionFor, PlanPools, LevelGain, PlaceUniform,
      Opening, PlanPool, Feasibility, DecidePool, NodesDisjoint;
    PlacedFacts(s, l);
    CleanPin(s, l, 3200, 4, 800, CHOSEN);
    AdvisoryWitness.OnePool(s, Caps(3200, 0), 3, 4, PoolState(PlaceUniform(s, l, TLC, 800, CHOSEN), NO_NOTES));
  }

  lemma EmitsAll(s: Site, l: Ledger)
    requires Tracks(s, l) && s.cons.maxCoresPerContainer <= 0
    ensures var e := Emit(s, l, 0);
      e.failure.None? && e.budgets == l.budgets && |e.create| == |Recorded(l.created.Keys)|
  {
    hide EmitGrow, EmitCreate, CP.SortedNames;
    RecordWitness.AllEmitted(l.growth, Recorded(l.growth.Keys), 0, s.cons);
    AdvisoryWitness.PlainCreate(s, l, Recorded(l.created.Keys));
  }

  lemma OneCoreEach(s: Site, l: Ledger, nodes: seq<string>)
    requires Tracks(s, l) && s.cons == SOFT && |nodes| == 2
    requires forall i :: 0 <= i < |nodes| ==> nodes[i] in l.created && l.created[nodes[i]].caps == NO_CAPS
    ensures var create := EmitCreate(s, l, nodes, 0).list;
      && NewTlcCores(create, SOFT) + NewQlcCores(create, SOFT) == 2
      && NewTlcCores(create, SOFT) >= 0 && NewQlcCores(create, SOFT) >= 0
  {
    assert PinCores(NO_CAPS, 0, SOFT) == DriveCoreCounts.Pinned(1, 1);
    hide EmitCreate, PinCores, NewTlcCores, NewQlcCores;
    AdvisoryWitness.PlainCreate(s, l, nodes);
    CreateEntries(s, l, nodes, 0);
    var create := EmitCreate(s, l, nodes, 0).list;
    NewAttribution(create, SOFT);
    assert create[..1][..0] == [] && create[..2] == create;
    assert NewCores(create[..1]) == 1;
  }

  lemma ThreeCores(e: seq<ExistingContainer>, l: Ledger)
    requires |e| == 3 && forall i :: 0 <= i < 3 ==> e[i].name in l.growth && l.growth[e[i].name] == Caps(800, 0)
    ensures ExistingTlcCores(e, l, 0, SOFT) + ExistingQlcCores(e, l, 0, SOFT) == 3
    ensures ExistingTlcCores(e, l, 0, SOFT) >= 0 && ExistingQlcCores(e, l, 0, SOFT) >= 0
  {
    assert e[..2][..1] == e[..1] && e[..1][..0] == [] && e[..3] == e;
    assert PinCores(Caps(800, 0), 0, SOFT) == DriveCoreCounts.Pinned(1, 1);
    hide PinCores, ExistingTlcCores, ExistingQlcCores;
    assert FinalCores(l, e[0], 0, SOFT) == FinalCores(l, e[1], 0, SOFT) == FinalCores(l, e[2], 0, SOFT) == 1;
    assert ExistingCores(e[..1], l, 0, SOFT) == 1;
    assert ExistingCores(e[..2], l, 0, SOFT) == 2;
    forall c | c in e ensures FinalCores(l, c, 0, SOFT) >= 1 { var i :| 0 <= i < 3 && e[i] == c; }
    ExistingAttribution(e, l, 0, SOFT);
  }

  lemma FiveRequired(tlc: int, qlc: int)
    requires tlc >= 0 && qlc >= 0 && tlc + qlc == 5
    ensures RequiredComputeCores(tlc, qlc, false, SOFT) == 5
  {
    assert SOFT.computeToTlcRatio * tlc as real + SOFT.computeToQlcRatio * qlc as real == 0.0;
  }

  lemma SmallerHosts(s: Site, b: CP.Budgets, n: string)
    requires CP.On(s, b) && CP.Hosts(s, b, n, 3, 9000)
    ensures CP.Hosts(s, b, n, 2, 6000)
  {
    Cpu.CostMonotone(s.cons.cpuPolicy, Topo(s.inv[n]), 2, 3);
    hide Cpu.ModelFor;
  }

  lemma HostsCompute(input: Input, n: string)
    requires Pinned4(input) && n in TRIO
    ensures var s, b := input.Place(), PoolsOf(input).ledger.budgets;
      CP.On(s, b) && n in s.inv && s.inv[n].fdValue == n && CP.Hosts(s, b, n, 2, 6000)
  {
    var s, e := input.Place(), input.drives;
    assert Sparse(s) && s.existing == e && input.cons == SOFT && LikeCons(SOFT);
    SparseNode(s, n);
    GrownTo800(input, n);
    ShrinkWitness.ChargeIs(Caps(700, 0), Caps(800, 0), SOFT);
    hide Pinned4, Sparse, PR.InventoryMap, PoolsOf, HostOn, GrowthCharge, CP.Hosts;
    ShrinkWitness.HostedStill(input, n, if n == "a" then e[0] else if n == "b" then e[1] else e[2], Caps(800, 0));
    SmallerHosts(s, PoolsOf(input).ledger.budgets, n);
  }

  lemma SixThousand()
    ensures HugepageSizing.ComputeHugepages(Caps(3200, 0), 3, 2, SOFT) == 6000
  {
  }

  lemma ComputeIs(input: Input)
    requires Pinned4(input)
    ensures PoolsOf(input).ledger.budgets.Keys == input.Place().inv.Keys
    ensures ComputeOf(input, PoolsOf(input).ledger.budgets, 5).Placed?
  {
    var s, b := input.Place(), PoolsOf(input).ledger.budgets;
    hide Roomy, Opening, StateBefore, PR.InventoryMap, CP.EligibleNodes, DecidePool, DecisionFor, PoolsOf, CP.Hosts,
      CP.PlanCompute, HugepageSizing.ComputeHugepages, HostOn;
    assert s.cons == SOFT && LikeCons(s.cons);
    hide Sparse;
    SixThousand();
    forall n | n in TRIO ensures n in s.inv && s.inv[n].fdValue == n && CP.Hosts(s, b, n, 2, 6000) {
      HostsCompute(input, n);
    }
    AdvisoryWitness.FieldCompute(s, b, input.desired, 6000, 5);
  }

  lemma ExistingFds(e: seq<ExistingContainer>)
    requires |e| == 3 && e[0].fdValue == "a" && e[1].fdValue == "b" && e[2].fdValue == "c"
    ensures (set c | c in e && c.fdValue != "" :: c.fdValue) == TRIO
  {
    Letters();
    assert e[0] in e && e[1] in e && e[2] in e;
  }

  lemma FourFds(s: Site, l: Ledger)
    requires Sparse(s) && l.created.Keys == {"d", "e"} && l.created["d"] == l.created["e"] == Created("x", NO_CAPS)
    ensures |DistinctDriveFds(s, l)| == 4
  {
    hide HostOn;
    ExistingFds(s.existing);
    hide Sparse;
    Xs();
    TrioSize();
    assert (set n | n in l.created && l.created[n].fd != "" :: l.created[n].fd) == {"x"};
    assert |TRIO + {"x"}| == |TRIO| + 1;
  }

  lemma PairRecorded(l: Ledger)
    requires l.created.Keys == {"d", "e"} && l.created["d"] == l.created["e"] == Created("x", NO_CAPS)
    ensures var nodes := Recorded(l.created.Keys);
      |nodes| == 2 && forall i :: 0 <= i < |nodes| ==> nodes[i] in l.created && l.created[nodes[i]].caps == NO_CAPS
  {
    Letters();
    var nodes := Recorded(l.created.Keys);
    RecordedFacts(l.created.Keys);
    DistinctCount(nodes);
    hide CP.SortedNames;
    assert Elems(nodes) == {"d", "e"};
  }

  lemma FiveCores(s: Site, l: Ledger)
    requires Tracks(s, l) && s.cons == SOFT && |s.existing| == 3
    requires l.created.Keys == {"d", "e"} && l.created["d"] == l.created["e"] == Created("x", NO_CAPS)
    requires forall i :: 0 <= i < 3 ==> s.existing[i].name in l.growth && l.growth[s.existing[i].name] == Caps(800, 0)
    ensures var e := Emit(s, l, 0);
      && e.failure.None? && e.budgets == l.budgets && |e.create| == 2
      && RequiredComputeCores(ExistingTlcCores(s.existing, l, 0, SOFT) + NewTlcCores(e.create, SOFT),
        ExistingQlcCores(s.existing, l, 0, SOFT) + NewQlcCores(e.create, SOFT), false, SOFT) == 5
  {
    var nodes := Recorded(l.created.Keys);
    hide EmitGrow, EmitCreate, CP.SortedNames, ExistingTlcCores, ExistingQlcCores, NewTlcCores, NewQlcCores,
      RequiredComputeCores;
    PairRecorded(l);
    EmitsAll(s, l);
    OneCoreEach(s, l, nodes);
    ThreeCores(s.existing, l);
    var create := EmitCreate(s, l, nodes, 0).list;
    FiveRequired(ExistingTlcCores(s.existing, l, 0, SOFT) + NewTlcCores(create, SOFT),
      ExistingQlcCores(s.existing, l, 0, SOFT) + NewQlcCores(create, SOFT));
  }

  lemma InputIs(input: Input)
    requires Pinned4(input)
    ensures Sparse(input.Place()) && input.Place().cons == SOFT && |input.drives| == 3 && input.cons == SOFT
    ensures input.desired.driveCores == 0 && input.desired.driveContainers == 4
  {
    hide HostOn, Opening, PR.InventoryMap, DecidePool, DecisionFor, StateBefore, CP.EligibleNodes, Roomy;
  }

  lemma AllGrown(input: Input)
    requires Pinned4(input)
    ensures var e, l := input.drives, PoolsOf(input).ledger;
      |e| == 3 && forall i :: 0 <= i < 3 ==> e[i].name in l.growth && l.growth[e[i].name] == Caps(800, 0)
  {
    hide Pinned4, PR.InventoryMap, PoolsOf, Sparse;
    InputIs(input);
    GrownTo800(input, "a");
    GrownTo800(input, "b");
    GrownTo800(input, "c");
    Letters();
  }

  lemma CoresAre(input: Input)
    requires Pinned4(input)
    ensures var l := PoolsOf(input).ledger; var e := Emit(input.Place(), l, 0);
      && e.failure.None? && e.budgets == l.budgets && |e.create| == 2
      && RequiredComputeCores(ExistingTlcCores(input.drives, l, 0, SOFT) + NewTlcCores(e.create, SOFT),
        ExistingQlcCores(input.drives, l, 0, SOFT) + NewQlcCores(e.create, SOFT), false, SOFT) == 5
      && |DistinctDriveFds(input.Place(), l)| == 4
  {
    var s, l := input.Place(), PoolsOf(input).ledger;
    hide Pinned4, PR.InventoryMap, PoolsOf, Emit, ExistingTlcCores, ExistingQlcCores, NewTlcCores, NewQlcCores,
      RequiredComputeCores, DistinctDriveFds, Sparse;
    InputIs(input);
    CreatedAre(input);
    AllGrown(input);
    FiveCores(s, l);
    FourFds(s, l);
  }

  lemma Pinned4Feasible(input: Input)
    requires Pinned4(input)
    ensures PlanCapacity(input).Feasible() && |PlanCapacity(input).create| == 2
  {
    hide Pinned4, PR.InventoryMap, PoolsOf, Emit, ComputeOf, ExistingTlcCores, ExistingQlcCores, NewTlcCores,
      NewQlcCores, RequiredComputeCores, Pools, PlanCapacity, ProtectionOk, Targets, DistinctDriveFds, Sparse;
    InputIs(input);
    PoolsAre(input);
    CoresAre(input);
    ComputeIs(input);
    AdvisoryWitness.FeasibleFrom(input, Caps(4, 0), PoolsOf(input), 5);
    CreatesAre(input);
  }

  lemma CreatesAre(input: Input)
    requires Targets(input.desired, input.scheme.MinFdNum()) == Some(Caps(4, 0)) && PlanCapacity(input).Feasible()
    ensures PlanCapacity(input).create == Emit(input.Place(), PoolsOf(input).ledger, input.desired.driveCores).create
  {
    FeasibleShape(input);
    hide PlanCapacity, Targets, PR.InventoryMap, PlanPools, Emit;
  }

  lemma ListedEmpty(input: Input, k: nat)
    requires Pinned4(input) && k < |PlanCapacity(input).create|
    ensures PlanCapacity(input).create[k].caps == NO_CAPS && PlanCapacity(input).create[k].numCores >= 1
  {
    hide Pinned4, PlanCapacity, PR.InventoryMap, PoolsOf;
    CreatedAre(input);
    Seating.PlanCreate(input, k);
    CreateCores(input, k);
  }

  /** The plan is feasible, meets the pinned count of four and creates two containers of nothing, with a core each. */
  lemma EmptyCreates()
    ensures PlanCapacity(INPUT).Feasible() && |PlanCapacity(INPUT).create| == 2
    ensures forall k :: 0 <= k < 2 ==>
      PlanCapacity(INPUT).create[k].caps == NO_CAPS && PlanCapacity(INPUT).create[k].numCores >= 1
  {
    Pinned4Is();
    hide Pinned4, PlanCapacity;
    Pinned4Feasible(INPUT);
    forall k | 0 <= k < 2
      ensures PlanCapacity(INPUT).create[k].caps == NO_CAPS && PlanCapacity(INPUT).create[k].numCores >= 1
    {
      ListedEmpty(INPUT, k);
    }
  }
}
