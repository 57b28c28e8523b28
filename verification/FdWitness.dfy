/** A failure domain of two uneven hosts among three: growth that is listed but changes nothing, and growth too much. */
module FdWitness {
  import opened Arith
  import opened Model
  import opened NodeBudget
  import opened Ledgers
  import opened Placement
  import opened FdRecords
  import opened Ordering
  import opened FreshFds
  import opened Deadband
  import opened PoolDecision
  import opened PoolPlanner
  import opened Planner
  import opened PlanTheorems
  import opened AdvisoryTheorems
  import opened GrowRecords
  import opened RecordWitness
  import opened WitnessSites
  import PR = PlanRuns
  import UI = UniformIncrease

  /** Failure domain a has hosts a and d; failure domains b and c have one host each and hold as much as both. */
  function Drives(h1: int, h2: int): seq<ExistingContainer> {
    [Drive("p", "a", "a", h1, 2), Drive("q", "d", "a", h2, 1), Drive("r", "b", "b", h1 + h2, 2),
     Drive("s", "c", "c", h1 + h2, 2)]
  }

  const PAIR := Pair("a", "d")

  function Nodes(f1: int, f2: int): map<string, NodeCapacity> {
    map["a" := Node("a", "a", f1), "b" := Node("b", "b", 1000), "c" := Node("c", "c", 1000), "d" := Node("d", "a", f2)]
  }

  function Uneven(h1: int, h2: int, f1: int, f2: int): Site { Site(Nodes(f1, f2), Drives(h1, h2), CONS) }

  lemma MoreLetters()
    ensures "p" != "q" && "p" != "r" && "p" != "s" && "q" != "r" && "q" != "s" && "r" != "s"
  {
    assert "p"[0] == 'p' && "q"[0] == 'q' && "r"[0] == 'r' && "s"[0] == 's';
  }

  /** The four containers, one per node, and what their prefixes are. */
  lemma Prefixes(e: seq<ExistingContainer>)
    requires |e| == 4
    ensures e[..4] == e && e[..4][..3] == e[..3] && e[..3][..2] == e[..2] && e[..2][..1] == e[..1] && e[..1][..0] == []
  {
  }

  // ----- the figures of the increase -----

  lemma Currents(h1: int, h2: int)
    ensures PoolCurrent(Drives(h1, h2), TLC) == 3 * (h1 + h2)
  {
    var e := Drives(h1, h2);
    Prefixes(e);
    assert PoolCurrent(e[..1], TLC) == h1 && PoolCurrent(e[..2], TLC) == h1 + h2;
    assert PoolCurrent(e[..3], TLC) == 2 * (h1 + h2);
  }

  lemma Fds(h1: int, h2: int)
    requires h1 > 0 && h2 > 0
    ensures PoolFds(Drives(h1, h2), TLC) == ["a", "b", "c"]
  {
    Letters();
    var e := Drives(h1, h2);
    Prefixes(e);
    assert PoolFds(e[..1], TLC) == ["a"] && PoolFds(e[..2], TLC) == ["a"] && PoolFds(e[..3], TLC) == ["a", "b"];
  }

  lemma FdCaps(h1: int, h2: int, fd: string)
    requires h1 > 0 && h2 > 0 && fd in ["a", "b", "c"]
    ensures FdCap(Drives(h1, h2), fd, TLC) == h1 + h2
  {
    Letters();
    var e := Drives(h1, h2);
    Prefixes(e);
    assert FdCap(e[..1], fd, TLC) == if fd == "a" then h1 else 0;
    assert FdCap(e[..2], fd, TLC) == if fd == "a" then h1 + h2 else 0;
    assert FdCap(e[..3], fd, TLC) == if fd == "c" then 0 else h1 + h2;
  }

  lemma Extremes(h1: int, h2: int)
    requires h1 > 0 && h2 > 0
    ensures var e := Drives(h1, h2);
      MinFdCap(e, ["a", "b", "c"], TLC) == MaxFdCap(e, ["a", "b", "c"], TLC) == h1 + h2
  {
    var e, fds := Drives(h1, h2), ["a", "b", "c"];
    FdCaps(h1, h2, "a");
    FdCaps(h1, h2, "b");
    FdCaps(h1, h2, "c");
    hide FdCap, Drives;
    assert fds[..2][..1] == fds[..1] && fds[..1][..0] == [] && fds[..3] == fds;
    assert MinFdCap(e, fds[..1], TLC) == MaxFdCap(e, fds[..1], TLC) == h1 + h2;
    assert MinFdCap(e, fds[..2], TLC) == MaxFdCap(e, fds[..2], TLC) == h1 + h2;
  }

  function FreeAt(n: string, f1: int, f2: int): int { if n == "a" then f1 else if n == "d" then f2 else 1000 }

  const HOSTS := {"a", "b", "c", "d"}

  function RoomOf(s: Site, l: Ledger, n: string): int
    requires Tracks(s, l) && n in s.inv
  {
    Headroom(s.inv[n], l.budgets[n], TLC, s.cons, false)
  }

  lemma NodeIs(f1: int, f2: int, n: string)
    requires n in HOSTS
    ensures n in Nodes(f1, f2) && Nodes(f1, f2)[n] == Node(n, if n == "d" then "a" else n, FreeAt(n, f1, f2))
  {
    Letters();
  }

  lemma OpeningAt(s: Site, n: string)
    requires n in s.inv
    ensures Tracks(s, Opening(s.inv)) && Opening(s.inv).budgets[n] == InitialBudget(s.inv[n])
  {
  }

  lemma RoomsAre(h1: int, h2: int, f1: int, f2: int, n: string)
    requires 0 <= f1 <= 10_000 && 0 <= f2 <= 10_000 && n in HOSTS
    ensures var s := Uneven(h1, h2, f1, f2); var l := Opening(s.inv);
      Tracks(s, l) && n in s.inv && RoomOf(s, l, n) == FreeAt(n, f1, f2)
  {
    hide HeadroomBinding, Nodes, Drives, Opening;
    NodeIs(f1, f2, n);
    OpeningAt(Uneven(h1, h2, f1, f2), n);
    NodeRoom(n, if n == "d" then "a" else n, FreeAt(n, f1, f2), CONS, false);
  }

  lemma PlacedFdsFrom(s: Site, e: seq<ExistingContainer>)
    requires |e| == 4 && forall i :: 0 <= i < 4 ==> Placed(s, e[i])
    requires e[0].fdValue == e[1].fdValue == "a" && e[2].fdValue == "b" && e[3].fdValue == "c"
    ensures PlacedFds(s, e) == ["a", "b", "c"]
  {
    Letters();
    Prefixes(e);
    hide Placed;
    assert PlacedFds(s, e[..1]) == ["a"];
    assert PlacedFds(s, e[..2]) == ["a"];
    assert PlacedFds(s, e[..3]) == ["a", "b"];
  }

  lemma AllPlaced(h1: int, h2: int, f1: int, f2: int)
    ensures forall i :: 0 <= i < 4 ==> Placed(Uneven(h1, h2, f1, f2), Drives(h1, h2)[i])
    ensures PlacedFds(Uneven(h1, h2, f1, f2), Drives(h1, h2)) == ["a", "b", "c"]
  {
    Letters();
    var s, e := Uneven(h1, h2, f1, f2), Drives(h1, h2);
    assert Placed(s, e[0]) && Placed(s, e[1]) && Placed(s, e[2]) && Placed(s, e[3]);
    hide Placed, Nodes, PlacedFds;
    PlacedFdsFrom(s, e);
  }

  lemma ReachNext(s: Site, l: Ledger, e: seq<ExistingContainer>, k: nat, fd: string)
    requires Tracks(s, l) && k < |e| && Placed(s, e[k])
    ensures var r, c := FdReach(s, l, e[..k], fd, TLC), e[k];
      FdReach(s, l, e[..k + 1], fd, TLC) == if c.fdValue != fd then r
        else UI.Reach(r.cap + c.caps.tlc, r.ceiling + c.caps.tlc + RoomOf(s, l, c.node))
  {
    assert e[..k + 1][..k] == e[..k];
    hide HeadroomBinding;
  }

  /** One failure domain's reach, from what its hosts hold and have left. */
  lemma FdReaches(s: Site, l: Ledger, e: seq<ExistingContainer>, h1: int, h2: int, fd: string)
    requires Tracks(s, l) && |e| == 4 && fd in ["a", "b", "c"] && forall i :: 0 <= i < 4 ==> Placed(s, e[i])
    requires e[0].fdValue == e[1].fdValue == "a" && e[2].fdValue == "b" && e[3].fdValue == "c"
    requires e[0].caps.tlc == h1 && e[1].caps.tlc == h2 && e[2].caps.tlc == e[3].caps.tlc == h1 + h2
    requires (forall i :: 0 <= i < 4 ==> e[i].node in s.inv)
    requires RoomOf(s, l, e[2].node) == RoomOf(s, l, e[3].node) == 1000
    ensures FdReach(s, l, e, fd, TLC) == UI.Reach(h1 + h2, h1 + h2 +
      if fd == "a" then RoomOf(s, l, e[0].node) + RoomOf(s, l, e[1].node) else 1000)
  {
    Letters();
    assert e[..0] == [] && e[..4] == e;
    assert FdReach(s, l, [], fd, TLC) == UI.Reach(0, 0);
    hide FdReach, RoomOf, Placed;
    ReachNext(s, l, e, 0, fd);
    ReachNext(s, l, e, 1, fd);
    ReachNext(s, l, e, 2, fd);
    ReachNext(s, l, e, 3, fd);
  }

  lemma ReachesFrom(s: Site, l: Ledger, e: seq<ExistingContainer>, h1: int, h2: int)
    requires Tracks(s, l) && s.existing == e && |e| == 4 && PlacedFds(s, e) == ["a", "b", "c"]
    requires forall i :: 0 <= i < 4 ==> Placed(s, e[i]) && e[i].node in s.inv
    requires e[0].fdValue == e[1].fdValue == "a" && e[2].fdValue == "b" && e[3].fdValue == "c"
    requires e[0].caps.tlc == h1 && e[1].caps.tlc == h2 && e[2].caps.tlc == e[3].caps.tlc == h1 + h2
    requires RoomOf(s, l, e[2].node) == RoomOf(s, l, e[3].node) == 1000
    ensures var h := h1 + h2;
      Reaches(s, l, TLC) == [UI.Reach(h, h + RoomOf(s, l, e[0].node) + RoomOf(s, l, e[1].node)), UI.Reach(h, h + 1000),
        UI.Reach(h, h + 1000)]
  {
    Letters();
    FdReaches(s, l, e, h1, h2, "a");
    FdReaches(s, l, e, h1, h2, "b");
    FdReaches(s, l, e, h1, h2, "c");
    hide FdReach, PlacedFds, RoomOf, Placed;
  }

  /** The fields of the four containers. */
  lemma Fields(h1: int, h2: int)
    ensures var e := Drives(h1, h2);
      && |e| == 4 && e[0].node == "a" && e[1].node == "d" && e[2].node == "b" && e[3].node == "c"
      && e[0].fdValue == e[1].fdValue == "a" && e[2].fdValue == "b" && e[3].fdValue == "c"
      && e[0].caps == Caps(h1, 0) && e[1].caps == Caps(h2, 0) && e[2].caps == e[3].caps == Caps(h1 + h2, 0)
  {
  }

  lemma ReachesAre(h1: int, h2: int, f1: int, f2: int)
    requires 0 <= f1 <= 5000 && 0 <= f2 <= 5000
    ensures var s, h := Uneven(h1, h2, f1, f2), h1 + h2;
      && Tracks(s, Opening(s.inv))
      && Reaches(s, Opening(s.inv), TLC) ==
        [UI.Reach(h, h + f1 + f2), UI.Reach(h, h + 1000), UI.Reach(h, h + 1000)]
  {
    var s, e := Uneven(h1, h2, f1, f2), Drives(h1, h2);
    var l := Opening(s.inv);
    hide Drives, Nodes, Opening, Reaches, PlacedFds, RoomOf, Placed;
    Fields(h1, h2);
    AllPlaced(h1, h2, f1, f2);
    Letters();
    RoomsAre(h1, h2, f1, f2, "a");
    RoomsAre(h1, h2, f1, f2, "b");
    RoomsAre(h1, h2, f1, f2, "c");
    RoomsAre(h1, h2, f1, f2, "d");
    ReachesFrom(s, l, e, h1, h2);
  }

  lemma SomeCandidate(s: Site, l: Ledger) returns (n: string)
    requires Tracks(s, l) && FreshGroups(s, l, TLC) != []
    ensures IsCandidate(s, l, TLC, n)
  {
    FreshGroupsAreFresh(s, l, TLC);
    hide IsCandidate, FreshGroups;
    n := FreshGroups(s, l, TLC)[0].nodes[0];
  }

  lemma NoSpare(s: Site, l: Ledger)
    requires Tracks(s, l) && s.cons.allowInPlaceGrowth && forall n :: n in s.inv ==> n in PoolNodeUsed(s.existing, TLC)
    ensures FreshGroups(s, l, TLC) == [] && SpareGroups(s, l, TLC) == []
  {
    if FreshGroups(s, l, TLC) != [] {
      var n := SomeCandidate(s, l);
    }
    hide FreshGroups;
  }

  lemma AllUsed(h1: int, h2: int, f1: int, f2: int)
    requires h1 > 0 && h2 > 0
    ensures var s := Uneven(h1, h2, f1, f2);
      s.cons.allowInPlaceGrowth && forall n :: n in s.inv ==> n in PoolNodeUsed(s.existing, TLC)
  {
    Letters();
    var e := Drives(h1, h2);
    assert e[0] in e && e[1] in e && e[2] in e && e[3] in e;
  }

  /** What the increase starts from. */
  ghost predicate Figures(inc: UI.Increase, h: int, reach: int, desired: int) {
    && inc.desired == desired && inc.minFd == 3 && inc.current == 3 * h && inc.numExisting == 3 && inc.spare == []
    && inc.t0 == inc.tmax == Max(384, h) && inc.overshoot == Overshoot(desired, CONS) && inc.cons == CONS
    && inc.reaches == [UI.Reach(h, h + reach), UI.Reach(h, h + 1000), UI.Reach(h, h + 1000)]
  }

  lemma FiguresAre(h1: int, h2: int, f1: int, f2: int, desired: int)
    requires h1 > 0 && h2 > 0 && 0 <= f1 <= 5000 && 0 <= f2 <= 5000
    ensures var s := Uneven(h1, h2, f1, f2);
      Tracks(s, Opening(s.inv)) && Figures(IncreaseFor(s, Opening(s.inv), TLC, desired, 3), h1 + h2, f1 + f2, desired)
  {
    var s := Uneven(h1, h2, f1, f2);
    var l := Opening(s.inv);
    assert Tracks(s, l);
    Currents(h1, h2);
    Fds(h1, h2);
    Extremes(h1, h2);
    AllUsed(h1, h2, f1, f2);
    ReachesAre(h1, h2, f1, f2);
    hide SpareGroups, PoolCurrent, PoolFds, MinFdCap, MaxFdCap, PoolAverage, Reaches, Nodes, Drives, Opening, Overshoot,
      PoolNodeUsed, FreshGroups;
    NoSpare(s, l);
  }

  // ----- the decision -----

  lemma {:induction false} AllLevel(rs: seq<UI.Reach>, level: int)
    requires forall i :: 0 <= i < |rs| ==> 0 < rs[i].cap < level <= rs[i].ceiling
    ensures UI.ExistingReach(rs, level) == Some(|rs| * level)
  {
    if rs != [] {
      AllLevel(rs[..|rs| - 1], level);
      assert |rs| * level == (|rs| - 1) * level + level;
    }
  }

  /** All three failure domains are grown to a third of the target. */
  lemma DecideIs(inc: UI.Increase, h: int, reach: int, level: int)
    requires Figures(inc, h, reach, 3 * level) && 384 <= h < level <= h + reach && level <= h + 1000
    requires 5 * (level - h) >= h
    ensures UI.Decide(inc) == UI.GrowTo(0, level, 3 * level)
  {
    assert inc.MaxPerFd() == level && UI.KMax(inc) <= 0;
    assert UI.EvenCount(inc).None?;
    AllLevel(inc.reaches, level);
    assert CeilDiv(3 * level, 3) == level;
    TenOrMore(3 * level);
    hide UI.ExistingReach, UI.FirstEven, CountAtLeast;
    assert CountAtLeast([], level) == 0 by { NoneAtLeast(level); }
    assert UI.TryCount(inc, 3) == Some(UI.Level(3, level, 3 * level));
    assert UI.BestLevel(inc, 3, 3).None?;
    assert UI.GrowLevel(inc) == Some(UI.Level(3, level, 3 * level));
    assert (level - h) as real >= 0.2 * h as real;
  }

  lemma NoneAtLeast(level: int)
    ensures CountAtLeast([], level) == 0
  {
  }

  lemma TenOrMore(desired: int)
    requires desired >= 0
    ensures Overshoot(desired, CONS) >= 0
  {
    TenPercent(desired);
  }

  /** The pool is planned by growing all existing failure domains to the level. */
  lemma DecisionIs(s: Site, l: Ledger, h: int, reach: int, level: nat)
    requires Tracks(s, l) && Figures(IncreaseFor(s, l, TLC, 3 * level, 3), h, reach, 3 * level)
    requires FreshGroups(s, l, TLC) == [] && s.cons == CONS
    requires 384 <= h < level <= h + reach && level <= h + 1000 && 5 * (level - h) >= h
    ensures DecidePool(s, l, TLC, 3 * level, 3, 0) == Place(level, ExistingGroups(s, l, TLC), IncreaseRoute(3 * level))
  {
    var inc := IncreaseFor(s, l, TLC, 3 * level, 3);
    DecideIs(inc, h, reach, level);
    assert PoolCurrent(s.existing, TLC) == 3 * h && |PoolFds(s.existing, TLC)| == 3;
    NothingToTake(level);
    NothingTiles(3 * level, PreferNodes(l, TLC));
    hide UI.Decide, ExistingGroups, FreshGroups, SpareGroups, Reaches, PoolFds, PoolCurrent, MinFdCap, MaxFdCap,
      PoolAverage, TakeFresh, SelectUniform, UniformShortfall;
    assert ExistingGroups(s, l, TLC) + [] == ExistingGroups(s, l, TLC);
  }

  lemma NothingToTake(level: int)
    ensures TakeFresh([], 0, level) == []
  {
  }

  lemma NothingTiles(desired: int, prefer: set<string>)
    ensures SelectUniform([], desired, 3, 384, prefer) == NoTiling
  {
  }

  // ----- the chosen failure domains -----

  lemma BearingAre(s: Site, h1: int, h2: int)
    requires h1 > 0 && h2 > 0 && s.existing == Drives(h1, h2) && forall i :: 0 <= i < 4 ==> Placed(s, s.existing[i])
    ensures BearingNodes(s, s.existing, TLC) == map["a" := "a", "d" := "a", "b" := "b", "c" := "c"]
    ensures BearingFds(s, s.existing, TLC) == ["a", "b", "c"]
  {
    Letters();
    var e := Drives(h1, h2);
    Prefixes(e);
    assert Bears(s, e[0], TLC) && Bears(s, e[1], TLC) && Bears(s, e[2], TLC) && Bears(s, e[3], TLC);
    hide Bears, Placed;
    assert BearingNodes(s, e[..1], TLC) == map["a" := "a"];
    assert BearingNodes(s, e[..2], TLC) == map["a" := "a", "d" := "a"];
    assert BearingNodes(s, e[..3], TLC) == map["a" := "a", "d" := "a", "b" := "b"];
    assert BearingFds(s, e[..1], TLC) == ["a"] && BearingFds(s, e[..2], TLC) == ["a"];
    assert BearingFds(s, e[..3], TLC) == ["a", "b"];
  }

  lemma RankedPair(rank: map<string, int>, a: string, b: string)
    requires a in rank && b in rank && rank[a] > rank[b]
    ensures Ranking(rank, {a, b}) == [a, b]
  {
    assert Elems([a, b]) == {a, b};
    RankedUnique(rank, [a, b], Ranking(rank, {a, b}));
  }

  lemma RankedOne(rank: map<string, int>, a: string)
    requires a in rank
    ensures Ranking(rank, {a}) == [a]
  {
    assert Elems([a]) == {a};
    RankedUnique(rank, [a], Ranking(rank, {a}));
  }

  lemma GroupFrom(s: Site, l: Ledger, fd: string, members: set<string>, nodes: seq<string>)
    requires Tracks(s, l) && members <= s.inv.Keys
    requires var m := BearingNodes(s, s.existing, TLC); forall n :: n in members <==> n in m && m[n] == fd
    requires Ranking(GrowRanks(s, l, TLC), members) == nodes
    ensures ExistingGroup(s, l, TLC, fd) == FdGroup(nodes, 0, false, false)
  {
    var m := BearingNodes(s, s.existing, TLC);
    assert (set n | n in m && m[n] == fd) == members;
    hide BearingNodes, GrowRanks, Ranking;
  }

  lemma PairGroup(s: Site, l: Ledger)
    requires Tracks(s, l) && "a" in s.inv && "d" in s.inv && RoomOf(s, l, "a") > RoomOf(s, l, "d")
    requires BearingNodes(s, s.existing, TLC) == map["a" := "a", "d" := "a", "b" := "b", "c" := "c"]
    ensures ExistingGroup(s, l, TLC, "a") == PAIR
  {
    Letters();
    var rank := GrowRanks(s, l, TLC);
    assert rank["a"] == RoomOf(s, l, "a") && rank["d"] == RoomOf(s, l, "d");
    RankedPair(rank, "a", "d");
    hide BearingNodes, GrowRanks, RoomOf, Ranking, ExistingGroup;
    GroupFrom(s, l, "a", {"a", "d"}, ["a", "d"]);
  }

  lemma LoneGroup(s: Site, l: Ledger, n: string)
    requires Tracks(s, l) && n in s.inv
    requires var m := BearingNodes(s, s.existing, TLC); forall x :: x == n <==> x in m && m[x] == n
    ensures ExistingGroup(s, l, TLC, n) == Lone(n)
  {
    RankedOne(GrowRanks(s, l, TLC), n);
    hide BearingNodes, GrowRanks, Ranking, ExistingGroup;
    GroupFrom(s, l, n, {n}, [n]);
  }

  lemma GroupsFrom(s: Site, l: Ledger)
    requires Tracks(s, l) && HOSTS <= s.inv.Keys && RoomOf(s, l, "a") > RoomOf(s, l, "d")
    requires BearingNodes(s, s.existing, TLC) == map["a" := "a", "d" := "a", "b" := "b", "c" := "c"]
    requires BearingFds(s, s.existing, TLC) == ["a", "b", "c"]
    ensures ExistingGroups(s, l, TLC) ==
      [PAIR, Lone("b"), Lone("c")]
  {
    hide BearingNodes, BearingFds, RoomOf, ExistingGroup;
    Letters();
    PairGroup(s, l);
    LoneGroup(s, l, "b");
    LoneGroup(s, l, "c");
  }

  /** The decision at the opening ledger, as a whole. */
  ghost predicate Grows(s: Site, l: Ledger, level: nat) {
    && Tracks(s, l)
    && DecidePool(s, l, TLC, 3 * level, 3, 0) == Place(level,
      [PAIR, Lone("b"), Lone("c")], IncreaseRoute(3 * level))
  }

  lemma UnevenGroups(h1: int, h2: int, f1: int, f2: int)
    requires h1 > 0 && h2 > 0 && 0 <= f2 < f1 <= 5000
    ensures var s := Uneven(h1, h2, f1, f2);
      && Tracks(s, Opening(s.inv)) && HOSTS <= s.inv.Keys
      && ExistingGroups(s, Opening(s.inv), TLC) ==
        [PAIR, Lone("b"), Lone("c")]
  {
    hide Opening, Nodes, Drives, ExistingGroups, BearingNodes, BearingFds, RoomOf, Placed, PlacedFds;
    Fields(h1, h2);
    AllPlaced(h1, h2, f1, f2);
    BearingAre(Uneven(h1, h2, f1, f2), h1, h2);
    RoomsAre(h1, h2, f1, f2, "a");
    RoomsAre(h1, h2, f1, f2, "b");
    RoomsAre(h1, h2, f1, f2, "c");
    RoomsAre(h1, h2, f1, f2, "d");
    Letters();
    GroupsFrom(Uneven(h1, h2, f1, f2), Opening(Uneven(h1, h2, f1, f2).inv));
  }

  lemma UnevenGrows(h1: int, h2: int, f1: int, f2: int, level: nat)
    requires h1 > 0 && h2 > 0 && 0 <= f2 < f1 <= 5000 && 384 <= h1 + h2 < level <= h1 + h2 + Min(1000, f1 + f2)
    requires 5 * (level - h1 - h2) >= h1 + h2
    ensures var s := Uneven(h1, h2, f1, f2); Grows(s, Opening(s.inv), level)
  {
    var s := Uneven(h1, h2, f1, f2);
    hide Opening, Nodes, Drives, DecidePool, ExistingGroups, IncreaseFor, FreshGroups, PoolNodeUsed, Figures;
    UnevenGroups(h1, h2, f1, f2);
    FiguresAre(h1, h2, f1, f2, 3 * level);
    AllUsed(h1, h2, f1, f2);
    NoSpare(s, Opening(s.inv));
    DecisionIs(s, Opening(s.inv), h1 + h2, f1 + f2, level);
  }

  // ----- what the pair of hosts gets -----

  lemma PairShare(level: nat, g: FdGroup, n: string)
    requires level % 2 == 0 && |g.nodes| == 2 && n in g.nodes
    ensures ShareOf(level, g, n) == level / 2
  {
    assert forall i :: 0 <= i < 2 ==> Share(level, 2, i) == level / 2;
  }

  /** Each host of the pair needs half the level. */
  lemma PairFigures(s: Site, l: Ledger, level: nat, p: ExistingContainer, q: ExistingContainer)
    requires Tracks(s, l) && level % 2 == 0 && OnSite(s, PAIR) && "a" in s.inv && "d" in s.inv
    requires HostOn(s.existing, "a") == Some(p) && HostOn(s.existing, "d") == Some(q)
    ensures TriedAt(s, l, TLC, level, PAIR, "a") == Max(0, Min(level / 2 - p.caps.tlc, RoomOf(s, l, "a")))
    ensures TriedAt(s, l, TLC, level, PAIR, "d") == Max(0, Min(level / 2 - q.caps.tlc, RoomOf(s, l, "d")))
    ensures Complete(s, l, TLC, level, PAIR) <==>
      level / 2 - p.caps.tlc <= RoomOf(s, l, "a") && level / 2 - q.caps.tlc <= RoomOf(s, l, "d")
  {
    PairShare(level, PAIR, "a");
    PairShare(level, PAIR, "d");
    hide HeadroomBinding, HostOn, ShareOf;
    assert "a" in PAIR.nodes && "d" in PAIR.nodes && forall n :: n in PAIR.nodes ==> n == "a" || n == "d";
  }

  // ----- growth that is listed and changes nothing, with nothing pinned -----

  /** 3 * level GiB over the three failure domains; nothing pinned. */
  function Asked(h1: int, h2: int, f1: int, f2: int, level: int): Input {
    Input(DesiredCapacity(Caps(3 * level, 0), 3, 3, 0, 0), ProtectionScheme(2, 1, 0), Drives(h1, h2), [],
      [Node("a", "a", f1), Node("b", "b", 1000), Node("c", "c", 1000), Node("d", "a", f2)],
      Some(map["a" := true, "b" := true, "c" := true]), CONS)
  }

  lemma PlaceIs(h1: int, h2: int, f1: int, f2: int, level: int)
    ensures Asked(h1, h2, f1, f2, level).Place() == Uneven(h1, h2, f1, f2)
  {
    Letters();
    var inv := Asked(h1, h2, f1, f2, level).inventory;
    assert inv[..3][..2] == inv[..2] && inv[..2][..1] == inv[..1] && inv[..1][..0] == [] && inv[..4] == inv;
    assert PR.InventoryMap(inv[..1]) == map["a" := Node("a", "a", f1)];
    assert PR.InventoryMap(inv[..2]) == map["a" := Node("a", "a", f1), "b" := Node("b", "b", 1000)];
    assert PR.InventoryMap(inv[..3]) ==
      map["a" := Node("a", "a", f1), "b" := Node("b", "b", 1000), "c" := Node("c", "c", 1000)];
  }

  lemma HostsAre(h1: int, h2: int)
    ensures var e := Drives(h1, h2);
      && HostOn(e, "a") == Some(e[0]) && HostOn(e, "d") == Some(e[1]) && HostOn(e, "b") == Some(e[2])
      && HostOn(e, "c") == Some(e[3]) && UniqueNames(e) && (h1 >= 0 && h2 >= 0 ==> NonNegativeDrives(e))
  {
    Letters();
    MoreLetters();
    var e := Drives(h1, h2);
    Prefixes(e);
    assert HostOn(e[..1], "a") == Some(e[0]) && HostOn(e[..2], "a") == HostOn(e[..3], "a") == Some(e[0]);
    assert HostOn(e[..2], "d") == HostOn(e[..3], "d") == Some(e[1]) && HostOn(e[..3], "b") == Some(e[2]);
  }

  /** The decision for TLC in the plan of such an input. */
  lemma PlanGrows(h1: int, h2: int, f1: int, f2: int, level: nat)
    requires h1 > 0 && h2 > 0 && 0 <= f2 < f1 <= 5000 && 384 <= h1 + h2 < level <= h1 + h2 + Min(1000, f1 + f2)
    requires 5 * (level - h1 - h2) >= h1 + h2
    ensures var input, s := Asked(h1, h2, f1, f2, level), Uneven(h1, h2, f1, f2);
      && input.Place() == s && StateBefore(input, TLC).ledger == Opening(s.inv) && Grows(s, Opening(s.inv), level)
      && DecisionFor(input, TLC) == DecidePool(s, Opening(s.inv), TLC, 3 * level, 3, 0)
      && DecisionFor(input, QLC) == Keep
  {
    var input := Asked(h1, h2, f1, f2, level);
    PlaceIs(h1, h2, f1, f2, level);
    UnevenGrows(h1, h2, f1, f2, level);
    QlcKept(input);
    assert TargetsOf(input) == NO_CAPS && input.scheme.MinFdNum() == 3;
    assert FirstPool(input.Place(), input.desired.raw) == TLC;
    hide DecidePool, PlanPool, PR.InventoryMap, Opening, Nodes, Drives, FirstPool, Grows;
  }

  lemma QlcKept(input: Input)
    requires input.desired.raw.qlc == 0
    ensures DecisionFor(input, QLC) == Keep
  {
    hide FreshDecision, ExplicitDecision, IncreaseDecision, StateBefore, PR.InventoryMap;
  }

  lemma PairChosen(s: Site, l: Ledger, level: nat)
    requires Grows(s, l, level) && HOSTS <= s.inv.Keys
    ensures var d := DecidePool(s, l, TLC, 3 * level, 3, 0);
      OnSite(s, PAIR) && ChosenFd(s, d, PAIR, "a") && ChosenFd(s, d, PAIR, "d") && NodesDisjoint(d.chosen)
  {
    hide DecidePool, NodesDisjoint;
    Letters();
    DecisionDisjoint(s, l, TLC, 3 * level, 3, 0);
    var d := DecidePool(s, l, TLC, 3 * level, 3, 0);
    assert d.chosen[0] == PAIR && PAIR.nodes[0] == "a" && PAIR.nodes[1] == "d";
  }

  /** Host a has room for its half and is raised; host d has none, so the raise is taken back. */
  lemma PairRolledBack(s: Site, l: Ledger, level: nat, p: ExistingContainer, q: ExistingContainer)
    requires Grows(s, l, level) && HOSTS <= s.inv.Keys && level % 2 == 0
    requires HostOn(s.existing, "a") == Some(p) && HostOn(s.existing, "d") == Some(q)
    requires level / 2 > p.caps.tlc && RoomOf(s, l, "a") > 0 && level / 2 - q.caps.tlc > RoomOf(s, l, "d")
    ensures var d := DecidePool(s, l, TLC, 3 * level, 3, 0);
      Touches(s, l, TLC, d, "a") && !Completes(s, l, TLC, d, "a")
  {
    var d := DecidePool(s, l, TLC, 3 * level, 3, 0);
    PairChosen(s, l, level);
    PairFigures(s, l, level, p, q);
    assert d.level == level;
    hide DecidePool, HostOn, RoomOf, ChosenFd, TriedAt, Complete, Touches, Completes, NodesDisjoint;
    ChosenIs(s, l, TLC, d, PAIR, "a");
  }

  lemma QlcNotTouched(input: Input, n: string)
    requires n in input.Place().inv && DecisionFor(input, QLC) == Keep
    ensures !Touched(input, QLC, n)
  {
    hide StateBefore, DecisionFor, PR.InventoryMap;
  }

  lemma RolledBackAt(input: Input, level: nat)
    requires var s := input.Place();
      && HOSTS <= s.inv.Keys && StateBefore(input, TLC).ledger == Opening(s.inv) && Grows(s, Opening(s.inv), level)
      && DecisionFor(input, TLC) == DecidePool(s, Opening(s.inv), TLC, 3 * level, 3, 0) && level % 2 == 0
    requires DecisionFor(input, QLC) == Keep && |input.drives| >= 2
    requires HostOn(input.drives, "a") == Some(input.drives[0]) && HostOn(input.drives, "d") == Some(input.drives[1])
    requires var s, e := input.Place(), input.drives; var l := Opening(s.inv);
      level / 2 > e[0].caps.tlc && RoomOf(s, l, "a") > 0 && level / 2 - e[1].caps.tlc > RoomOf(s, l, "d")
    ensures "a" in input.Place().inv && Touched(input, TLC, "a") && AllRolledBack(input, "a")
  {
    var s := input.Place();
    hide StateBefore, DecisionFor, Grows, HostOn, RoomOf, PR.InventoryMap, Touches, Completes, Opening, DecidePool;
    PairRolledBack(s, Opening(s.inv), level, input.drives[0], input.drives[1]);
    QlcNotTouched(input, "a");
    forall p | Touched(input, p, "a") ensures !FdCompleted(input, p, "a") { assert p == TLC || p == QLC; }
  }

  lemma HalfFull()
    ensures var input := Asked(325, 325, 1000, 0, 800);
      && "a" in input.Place().inv && Touched(input, TLC, "a") && AllRolledBack(input, "a")
      && HostOn(input.drives, "a") == Some(Drive("p", "a", "a", 325, 2))
      && UniqueNames(input.drives) && NonNegativeDrives(input.drives)
  {
    var input := Asked(325, 325, 1000, 0, 800);
    assert Drives(325, 325)[0] == Drive("p", "a", "a", 325, 2);
    hide StateBefore, DecisionFor, Grows, HostOn, RoomOf, PR.InventoryMap, Opening, DecidePool, Drives, Nodes, Touched,
      AllRolledBack;
    PlanGrows(325, 325, 1000, 0, 800);
    HostsAre(325, 325);
    Fields(325, 325);
    RoomsAre(325, 325, 1000, 0, "a");
    RoomsAre(325, 325, 1000, 0, "b");
    RoomsAre(325, 325, 1000, 0, "c");
    RoomsAre(325, 325, 1000, 0, "d");
    Letters();
    RolledBackAt(input, 800);
  }

  /** With nothing pinned, the plan lists growth of the container on host a to the 325 GiB it already holds. */
  lemma UnpinnedZeroChange()
    ensures var input := Asked(325, 325, 1000, 0, 800);
      input.desired.driveContainers == 0 && Lists(PlanCapacity(input).grow, "p", Caps(325, 0))
  {
    var input, c := Asked(325, 325, 1000, 0, 800), Drive("p", "a", "a", 325, 2);
    HalfFull();
    assert Checked(input);
    hide PlanCapacity, PoolsOf, PR.InventoryMap, Touched, AllRolledBack, HostOn, Drives, Lists;
    RecordExact(input, c);
    ListsRecord(input, "p");
  }
}
