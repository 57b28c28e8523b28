/** Concrete sites on which the planner behaves otherwise than its comments say. */
module WitnessSites {
  import opened Arith
  import opened Model
  import opened NodeBudget
  import opened Ledgers
  import opened Placement
  import opened Ordering
  import opened FreshFds
  import opened Deadband
  import opened PoolDecision
  import opened AutoMode
  import UI = UniformIncrease

  const CONS := Constraints(
    Caps(1000, 1000), 384, 4.0, 1000, 0, 1000, 0, 0, 0, Caps(0, 0), 0, 0.0, 0.0, 0.0, true, 0.2, 0.1, 0.0, true, Manual)

  /** CONS, or CONS with cores that cost no memory and containers that do. */
  predicate PlainCons(cons: Constraints) {
    cons == CONS || cons == CONS.(memoryBase := cons.memoryBase, memoryPerCore := 0)
  }

  /** CONS up to the deadband and the growth switch. */
  predicate LikeCons(cons: Constraints) {
    cons == CONS.(deadbandFraction := cons.deadbandFraction, allowInPlaceGrowth := cons.allowInPlaceGrowth)
  }

  /** A node with drives of one kind and resources to spare. */
  function Node(name: string, fd: string, tlc: int): NodeCapacity {
    NodeCapacity(name, Caps(tlc, 0), 64, false, false, 1_000_000, 1_000_000, fd, false, "")
  }

  /** Such a node's headroom is its free drive capacity. */
  lemma NodeRoom(name: string, fd: string, tlc: int, cons: Constraints, includeBase: bool)
    requires 0 <= tlc <= 10_000 && LikeCons(cons)
    ensures Headroom(Node(name, fd, tlc), InitialBudget(Node(name, fd, tlc)), TLC, cons, includeBase) == tlc
  {
  }

  lemma NodeRoomUnpriced(name: string, fd: string, tlc: int, cons: Constraints, includeBase: bool)
    requires 0 <= tlc <= 10_000 && cons == CONS.(memoryBase := cons.memoryBase, memoryPerCore := 0)
    ensures Headroom(Node(name, fd, tlc), InitialBudget(Node(name, fd, tlc)), TLC, cons, includeBase) == tlc
  {
  }

  /** A container of `held` GiB of TLC. */
  function Drive(name: string, node: string, fd: string, held: int, cores: int): ExistingContainer {
    ExistingContainer(name, node, fd, Caps(held, 0), cores, false)
  }

  /** A failure domain in use, of one host or of two. */
  function Lone(n: string): FdGroup { FdGroup([n], 0, false, false) }

  function Pair(n: string, m: string): FdGroup { FdGroup([n, m], 0, false, false) }

  // ----- a uniform increase over one existing and four spare failure domains -----

  function Fleet(free: int, spare: int): map<string, NodeCapacity> {
    map["e" := Node("e", "e", free), "a" := Node("a", "a", spare), "b" := Node("b", "b", spare),
        "c" := Node("c", "c", spare), "d" := Node("d", "d", spare)]
  }

  /** One container of `held` GiB on node e, which has `free` GiB left; four spare nodes. */
  function OneOfFive(held: int, free: int, spare: int): Site {
    Site(Fleet(free, spare), [ExistingContainer("x", "e", "e", Caps(held, 0), 1, false)], CONS)
  }

  lemma Letters()
    ensures "a" != "b" && "a" != "c" && "a" != "d" && "a" != "e" && "b" != "c" && "b" != "d" && "b" != "e"
    ensures "c" != "d" && "c" != "e" && "d" != "e" && "a" != "" && "b" != "" && "c" != "" && "d" != "" && "e" != ""
  {
    assert "a"[0] == 'a' && "b"[0] == 'b' && "c"[0] == 'c' && "d"[0] == 'd' && "e"[0] == 'e';
  }

  lemma FleetIsAuto(held: int, free: int, spare: int)
    requires held > 0 && 0 <= free
    ensures AutoSite(OneOfFive(held, free, spare))
  {
    Letters();
  }

  const SPARES := {"a", "b", "c", "d"}

  lemma SpareIsCandidate(held: int, free: int, spare: int, n: string)
    requires 384 <= spare <= 10_000 && n in SPARES
    ensures var s := OneOfFive(held, free, spare);
      && IsCandidate(s, Opening(s.inv), TLC, n)
      && Headroom(s.inv[n], Opening(s.inv).budgets[n], TLC, CONS, true) == spare
  {
    Letters();
    NodeRoom(n, n, spare, CONS, true);
    var s := OneOfFive(held, free, spare);
    hide HeadroomBinding;
    assert s.inv[n] == Node(n, n, spare);
    assert n !in PoolNodeUsed(s.existing, TLC);
  }

  lemma CandidatesAre(s: Site, l: Ledger, p: PoolKind, nodes: set<string>)
    requires Tracks(s, l) && forall n :: n in nodes <==> IsCandidate(s, l, p, n)
    ensures Candidates(s, l, p) == nodes
  {
    forall n | n in nodes ensures n in Candidates(s, l, p) { CandidateOnSite(s, l, p, n); }
    hide IsCandidate;
  }

  lemma FourSpares()
    ensures |SPARES| == 4
  {
    Letters();
  }

  lemma FleetCandidates(held: int, free: int, spare: int)
    requires held > 0 && 384 <= spare <= 10_000
    ensures var s := OneOfFive(held, free, spare);
      Candidates(s, Opening(s.inv), TLC) == SPARES && |Candidates(s, Opening(s.inv), TLC)| == 4
  {
    var s := OneOfFive(held, free, spare);
    var l := Opening(s.inv);
    assert Tracks(s, l);
    hide IsCandidate, Opening, OneOfFive;
    forall n | n in SPARES ensures IsCandidate(s, l, TLC, n) { SpareIsCandidate(held, free, spare, n); }
    forall n | IsCandidate(s, l, TLC, n) ensures n in SPARES { NotE(held, free, spare, n); }
    CandidatesAre(s, l, TLC, SPARES);
    FourSpares();
  }

  lemma NotE(held: int, free: int, spare: int, n: string)
    requires held > 0 && IsCandidate(OneOfFive(held, free, spare), Opening(OneOfFive(held, free, spare).inv), TLC, n)
    ensures n in SPARES
  {
    var s := OneOfFive(held, free, spare);
    assert s.existing[0] in s.existing;
    assert "e" in PoolNodeUsed(s.existing, TLC);
  }

  // ----- spare groups of a one-node site -----

  /** In auto mode there is one fresh group per candidate, carrying that node's headroom, and they come sorted. */
  lemma FreshSorted(s: Site, l: Ledger, p: PoolKind)
    requires Tracks(s, l) && OneNodeFds(s)
    ensures |FreshGroups(s, l, p)| == |Candidates(s, l, p)| && HeadroomSorted(FreshGroups(s, l, p))
    ensures NoDup(FreshGroups(s, l, p))
    ensures forall g :: g in FreshGroups(s, l, p) ==> SingleCandidate(s, l, p, g)
  {
    var order := CandidateOrder(s, l, p);
    OrderFacts(s, l, p);
    FirstSeenIdentity(FdOf(s), order);
    RankingDistinct(Ranks(s, l, p), Candidates(s, l, p));
    assert |FreshGroups(s, l, p)| == |Candidates(s, l, p)|;
    hide FreshGroups, IsCandidate, CandidateOrder, FirstSeen, Ranks, FreshList, SingleCandidate, HeadroomSorted,
      NoDup;
    OneNodeGroups(s, l, p);
    FreshGroupsAreFresh(s, l, p);
    FreshListNoDup(s, l, p, FreshGroups(s, l, p));
    FreshSingles(s, l, p);
  }

  /** The same of the spare groups. */
  lemma SpareFigures(s: Site, l: Ledger, p: PoolKind)
    requires Tracks(s, l) && OneNodeFds(s)
    ensures |SpareGroups(s, l, p)| == |Candidates(s, l, p)|
    ensures forall g :: g in SpareGroups(s, l, p) ==> SingleCandidate(s, l, p, g)
  {
    hide FreshGroups, IsCandidate, CandidateOrder, FreshList, SingleCandidate, HeadroomSorted, NoDup;
    FreshSorted(s, l, p);
    FreshGroupsAreFresh(s, l, p);
    ColocatedFirstFresh(s, l, p, FreshGroups(s, l, p), PreferNodes(l, p));
    SpareSingles(s, l, p);
  }

  lemma FleetSpare(held: int, free: int, spare: int)
    requires held > 0 && 0 <= free && 384 <= spare <= 10_000
    ensures var s := OneOfFive(held, free, spare); var gs := SpareGroups(s, Opening(s.inv), TLC);
      |gs| == 4 && forall i :: 0 <= i < 4 ==> gs[i].headroom == spare
  {
    var s := OneOfFive(held, free, spare);
    var l := Opening(s.inv);
    assert Tracks(s, l);
    FleetIsAuto(held, free, spare);
    FleetCandidates(held, free, spare);
    SpareFigures(s, l, TLC);
    var gs := SpareGroups(s, l, TLC);
    hide SpareGroups, IsCandidate, Opening, Fleet, HeadroomBinding;
    forall i | 0 <= i < 4 ensures gs[i].headroom == spare {
      assert gs[i] in gs;
      var n := gs[i].nodes[0];
      CandidateOnSite(s, l, TLC, n);
      SpareIsCandidate(held, free, spare, n);
    }
  }

  // ----- the figures of the increase -----

  /** The figures of a single drive container. */
  lemma OneDrive(c: ExistingContainer, p: PoolKind)
    requires c.caps.Of(p) > 0 && c.fdValue != ""
    ensures PoolCurrent([c], p) == c.caps.Of(p) && PoolFds([c], p) == [c.fdValue]
    ensures FdCap([c], c.fdValue, p) == c.caps.Of(p)
  {
    var e := [c];
    assert e[..0] == [];
    assert PoolCurrent(e[..0], p) == FdCap(e[..0], c.fdValue, p) == 0 && PoolFds(e[..0], p) == [];
  }

  lemma OneExtreme(c: ExistingContainer, p: PoolKind)
    requires FdCap([c], c.fdValue, p) == c.caps.Of(p) > 0
    ensures MinFdCap([c], [c.fdValue], p) == MaxFdCap([c], [c.fdValue], p) == c.caps.Of(p)
  {
    hide FdCap;
    var fds := [c.fdValue];
    assert fds[..0] == [];
    assert MinFdCap([c], fds[..0], p) == MaxFdCap([c], fds[..0], p) == 0;
  }

  /** The figures an increase starts from when a single container carries the pool. */
  lemma OneFigures(s: Site, l: Ledger, c: ExistingContainer, p: PoolKind, desired: int, minFd: int)
    requires Tracks(s, l) && s.existing == [c] && Placed(s, c) && c.caps.Of(p) > 0
    ensures var inc, held := IncreaseFor(s, l, p, desired, minFd), c.caps.Of(p);
      && inc.desired == desired && inc.minFd == minFd && inc.current == held && inc.numExisting == 1
      && inc.t0 == inc.tmax == Max(s.cons.minChunk, held) && inc.overshoot == Overshoot(desired, s.cons) &&
        inc.cons == s.cons
      && inc.reaches == [UI.Reach(held, held + Headroom(s.inv[c.node], l.budgets[c.node], p, s.cons, false))]
      && inc.spare == SpareGroups(s, l, p)
  {
    OneDrive(c, p);
    OneExtreme(c, p);
    OneReach(s, l, c, p);
    hide SpareGroups, HeadroomBinding, Overshoot, Reaches, PoolCurrent, PoolFds, FdCap, MinFdCap, MaxFdCap,
      PoolAverage;
  }

  lemma OneReach(s: Site, l: Ledger, c: ExistingContainer, p: PoolKind)
    requires Tracks(s, l) && s.existing == [c] && Placed(s, c)
    ensures Reaches(s, l, p) ==
      [UI.Reach(c.caps.Of(p), c.caps.Of(p) + Headroom(s.inv[c.node], l.budgets[c.node], p, s.cons, false))]
  {
    hide HeadroomBinding;
    var e := s.existing;
    assert e[..0] == [];
    assert PlacedFds(s, e[..0]) == [] && PlacedFds(s, e) == [c.fdValue];
    assert FdReach(s, l, e[..0], c.fdValue, p) == UI.Reach(0, 0);
    assert FdReach(s, l, e, c.fdValue, p) ==
      UI.Reach(c.caps.Of(p), c.caps.Of(p) + Headroom(s.inv[c.node], l.budgets[c.node], p, s.cons, false));
  }

  lemma FleetFigures(held: int, free: int, spare: int, desired: int)
    requires held > 0 && 0 <= free <= 10_000 && 384 <= spare <= 10_000
    ensures var s := OneOfFive(held, free, spare); var inc := IncreaseFor(s, Opening(s.inv), TLC, desired, 5);
      && inc.desired == desired && inc.minFd == 5 && inc.current == held && inc.numExisting == 1
      && inc.t0 == inc.tmax == Max(384, held) && inc.overshoot == Overshoot(desired, CONS) && inc.cons == CONS
      && |inc.reaches| == 1 && inc.reaches[0] == UI.Reach(held, held + free)
      && |inc.spare| == 4 && forall i :: 0 <= i < 4 ==> inc.spare[i].headroom == spare
  {
    var s := OneOfFive(held, free, spare);
    var l, c := Opening(s.inv), s.existing[0];
    assert Tracks(s, l) && Placed(s, c) && s.inv["e"] == Node("e", "e", free) &&
      l.budgets["e"] == InitialBudget(s.inv["e"]) by {
      Letters();
    }
    hide SpareGroups, HeadroomBinding, Overshoot, IncreaseFor, Fleet, Opening;
    FleetSpare(held, free, spare);
    NodeRoom("e", "e", free, CONS, false);
    OneFigures(s, l, c, TLC, desired, 5);
  }

  /**
   * The branch the source calls unreachable runs: one container of 1000 GiB in place, four spare nodes of 1000 GiB,
   * five failure domains required and 4999 GiB asked for.
   */
  lemma DefensiveBranchReached()
    ensures var s := OneOfFive(1000, 0, 1000); var inc := IncreaseFor(s, Opening(s.inv), TLC, 4999, 5);
      UI.WholeChunks(inc) && UI.Decide(inc) == UI.CreateAtT0(4, 1000, 5000)
  {
    FleetFigures(1000, 0, 1000, 4999);
    hide IncreaseFor, UI.Decide, UI.WholeChunks;
    TenPercent(4999);
    UI.DefensiveBranchReached(IncreaseFor(OneOfFive(1000, 0, 1000), Opening(OneOfFive(1000, 0, 1000).inv),
      TLC, 4999, 5));
  }

  lemma TenPercent(desired: int)
    requires desired >= 0
    ensures Overshoot(desired, CONS) == desired / 10
  {
    var x := 0.1 * desired as real;
    assert (desired / 10) as real <= x < (desired / 10 + 1) as real;
  }

  /**
   * With a container of 100 GiB, below the minimum chunk, the branch predicts 1920 GiB but only creates: the pool is
   * left at 1636, although node e has room to be grown to 384, which would meet the target.
   */
  lemma DefensiveBranchShort()
    ensures var s := OneOfFive(100, 500, 384); var inc := IncreaseFor(s, Opening(s.inv), TLC, 1920, 5);
      && UI.Decide(inc) == UI.CreateAtT0(4, 384, 1920) && inc.current + 4 * 384 == 1636 < inc.desired
      && UI.ExistingReach(inc.reaches, 384) == Some(384)
  {
    FleetFigures(100, 500, 384, 1920);
    hide IncreaseFor, UI.Decide, UI.ExistingReach;
    TenPercent(1920);
    UI.DefensiveBranchShort(IncreaseFor(OneOfFive(100, 500, 384), Opening(OneOfFive(100, 500, 384).inv), TLC, 1920, 5));
  }
}
