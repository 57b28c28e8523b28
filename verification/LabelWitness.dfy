/** A site with a two-node failure domain, whose candidate groups are not sorted by headroom. */
module LabelWitness {
  import opened Model
  import opened NodeBudget
  import opened Ledgers
  import opened Placement
  import opened Ordering
  import opened FreshFds
  import opened WitnessSites
  import FreshScan
  import PoolDecision
  import Planner

  const LABELED := Site(
    map["p" := Node("p", "C", 900), "q" := Node("q", "D", 800), "r" := Node("r", "A", 450),
        "s" := Node("s", "B", 440), "t" := Node("t", "B", 440)], [], CONS)

  const START := Opening(LABELED.inv)

  const RANKED := ["p", "q", "r", "s", "t"]

  const GROUPS := [FdGroup(["p"], 900, false, false), FdGroup(["q"], 800, false, false),
                   FdGroup(["r"], 450, false, false), FdGroup(["s", "t"], 880, false, false)]

  function Free(n: string): int {
    if n == "p" then 900 else if n == "q" then 800 else if n == "r" then 450 else 440
  }

  lemma Names()
    ensures "p" != "q" && "p" != "r" && "p" != "s" && "p" != "t" && "q" != "r" && "q" != "s" && "q" != "t"
    ensures "r" != "s" && "r" != "t" && "s" != "t" && "A" != "B" && "A" != "C" && "A" != "D" && "B" != "C"
    ensures "B" != "D" && "C" != "D"
    ensures NameLess("s", "t")
  {
    assert "p"[0] == 'p' && "q"[0] == 'q' && "r"[0] == 'r' && "s"[0] == 's' && "t"[0] == 't';
    assert "A"[0] == 'A' && "B"[0] == 'B' && "C"[0] == 'C' && "D"[0] == 'D';
  }

  lemma RoomIs(n: string)
    requires n in LABELED.inv
    ensures Headroom(LABELED.inv[n], START.budgets[n], TLC, CONS, true) == Free(n)
    ensures IsCandidate(LABELED, START, TLC, n)
  {
    Names();
    var nc := LABELED.inv[n];
    assert nc == Node(n, nc.fdValue, Free(n));
    NodeRoom(n, nc.fdValue, Free(n), CONS, true);
    hide HeadroomBinding;
  }

  lemma NamesAre(n: string)
    ensures n in LABELED.inv <==> n in RANKED
  {
  }

  lemma RankedAre(rank: map<string, int>)
    requires forall n :: n in RANKED ==> n in rank && rank[n] == Free(n)
    ensures Ranked(rank, RANKED)
  {
    Names();
    hide NameLess;
    assert RANKED[0] in RANKED && RANKED[1] in RANKED && RANKED[2] in RANKED && RANKED[3] in RANKED &&
      RANKED[4] in RANKED;
    assert rank["p"] == 900 && rank["q"] == 800 && rank["r"] == 450 && rank["s"] == 440 && rank["t"] == 440;
  }

  lemma OrderIs()
    ensures Tracks(LABELED, START) && CandidateOrder(LABELED, START, TLC) == RANKED
  {
    assert Tracks(LABELED, START);
    hide IsCandidate, HeadroomBinding, Free;
    var rank, cands := Ranks(LABELED, START, TLC), Candidates(LABELED, START, TLC);
    forall n ensures (n in cands <==> n in RANKED) && (n in RANKED ==> n in rank && rank[n] == Free(n)) {
      NamesAre(n);
      if n in LABELED.inv { RoomIs(n); }
    }
    RankedAre(rank);
    hide Ranks, Candidates;
    assert Elems(RANKED) == cands;
    RankedUnique(rank, RANKED, Ranking(rank, cands));
  }

  lemma Prefixes()
    ensures RANKED[..0] == [] && RANKED[..1] == ["p"] && RANKED[..2] == ["p", "q"] && RANKED[..3] == ["p", "q", "r"]
    ensures RANKED[..4] == ["p", "q", "r", "s"] && RANKED[..5] == RANKED
  {
  }

  lemma SeenAre(key: map<string, string>)
    requires (forall n :: n in RANKED ==> n in key) && key["p"] == "C" && key["q"] == "D" && key["r"] == "A"
    requires key["s"] == key["t"] == "B"
    ensures FirstSeen(key, RANKED) == ["C", "D", "A", "B"]
  {
    Names();
    Prefixes();
    var a, b, c, d := RANKED[..1], RANKED[..2], RANKED[..3], RANKED[..4];
    assert a[..0] == [] && b[..1] == a && c[..2] == b && d[..3] == c && RANKED[..4] == d;
    assert FirstSeen(key, a) == ["C"];
    assert FirstSeen(key, b) == ["C", "D"];
    assert FirstSeen(key, c) == ["C", "D", "A"];
    assert FirstSeen(key, d) == ["C", "D", "A", "B"];
  }

  lemma MembersNext(key: map<string, string>, xs: seq<string>, i: nat, fd: string)
    requires i < |xs| && forall n :: n in xs ==> n in key
    ensures Members(key, xs[..i + 1], fd) == Members(key, xs[..i], fd) + if key[xs[i]] == fd then [xs[i]] else []
  {
    assert xs[..i + 1][..i] == xs[..i];
    assert forall j :: 0 <= j < |xs| ==> xs[j] in xs;
  }

  lemma MembersAre(key: map<string, string>, fd: string)
    requires (forall n :: n in RANKED ==> n in key) && key["p"] == "C" && key["q"] == "D" && key["r"] == "A"
    requires key["s"] == key["t"] == "B"
    ensures fd == "C" ==> Members(key, RANKED, fd) == ["p"]
    ensures fd == "D" ==> Members(key, RANKED, fd) == ["q"]
    ensures fd == "A" ==> Members(key, RANKED, fd) == ["r"]
    ensures fd == "B" ==> Members(key, RANKED, fd) == ["s", "t"]
  {
    Names();
    Prefixes();
    assert Members(key, RANKED[..0], fd) == [];
    hide Members, NameLess;
    MembersNext(key, RANKED, 0, fd);
    MembersNext(key, RANKED, 1, fd);
    MembersNext(key, RANKED, 2, fd);
    MembersNext(key, RANKED, 3, fd);
    MembersNext(key, RANKED, 4, fd);
  }

  lemma RankSums(rank: map<string, int>)
    requires forall n :: n in RANKED ==> n in rank && rank[n] == Free(n)
    ensures "p" in rank && "q" in rank && "r" in rank && "s" in rank && "t" in rank
    ensures SumRank(rank, ["p"]) == 900 && SumRank(rank, ["q"]) == 800 && SumRank(rank, ["r"]) == 450
    ensures SumRank(rank, ["s", "t"]) == 880
  {
    Names();
    assert RANKED[0] in RANKED && RANKED[1] in RANKED && RANKED[2] in RANKED && RANKED[3] in RANKED &&
      RANKED[4] in RANKED;
    assert ["p"][..0] == ["q"][..0] == ["r"][..0] == ["s"][..0] == [] && ["s", "t"][..1] == ["s"];
    assert SumRank(rank, []) == 0 && SumRank(rank, ["s"]) == 440;
  }

  lemma NoneDeleting(nodes: seq<string>)
    requires forall i :: 0 <= i < |nodes| ==> nodes[i] in LABELED.inv
    ensures !AnyDeleting(LABELED, nodes)
  {
  }

  lemma GroupFrom(s: Site, rank: map<string, int>, order: seq<string>, fd: string, nodes: seq<string>, sum: int)
    requires rank.Keys == s.inv.Keys && (forall i :: 0 <= i < |order| ==> order[i] in s.inv)
    requires Members(FdOf(s), order, fd) == nodes && (forall i :: 0 <= i < |nodes| ==> nodes[i] in s.inv)
    requires SumRank(rank, nodes) == sum && !AnyDeleting(s, nodes)
    ensures GroupOf(s, rank, order, fd) == FdGroup(nodes, sum, false, false)
  {
    hide Members, SumRank, AnyDeleting;
  }

  lemma AllKnown()
    ensures forall i :: 0 <= i < |RANKED| ==> RANKED[i] in LABELED.inv
  {
  }

  lemma GroupIs(rank: map<string, int>, i: nat)
    requires i < 4 && rank.Keys == LABELED.inv.Keys && forall n :: n in RANKED ==> n in rank && rank[n] == Free(n)
    ensures forall n :: n in RANKED ==> n in LABELED.inv
    ensures GroupOf(LABELED, rank, RANKED, ["C", "D", "A", "B"][i]) == GROUPS[i]
  {
    var key, fd := FdOf(LABELED), ["C", "D", "A", "B"][i];
    KeysAre();
    MembersAre(key, fd);
    RankSums(rank);
    AllKnown();
    hide Members, SumRank, Free, AnyDeleting, GroupOf, FdOf;
    forall n | n in RANKED ensures n in LABELED.inv { NamesAre(n); }
    NoneDeleting(GROUPS[i].nodes);
    GroupFrom(LABELED, rank, RANKED, fd, GROUPS[i].nodes, GROUPS[i].headroom);
  }

  lemma KeysAre()
    ensures var key := FdOf(LABELED);
      (forall n :: n in RANKED ==> n in key) && key["p"] == "C" && key["q"] == "D" && key["r"] == "A" &&
        key["s"] == key["t"] == "B"
  {
    Names();
  }

  lemma RanksAre()
    ensures Tracks(LABELED, START)
    ensures var rank := Ranks(LABELED, START, TLC);
      rank.Keys == LABELED.inv.Keys && forall n :: n in RANKED ==> n in rank && rank[n] == Free(n)
  {
    assert Tracks(LABELED, START);
    hide HeadroomBinding, Free;
    var rank := Ranks(LABELED, START, TLC);
    forall n | n in RANKED ensures n in rank && rank[n] == Free(n) { NamesAre(n); RoomIs(n); }
  }

  lemma Assemble(s: Site, l: Ledger, p: PoolKind, order: seq<string>, rank: map<string, int>, fds: seq<string>,
      groups: seq<FdGroup>)
    requires Tracks(s, l) && order == CandidateOrder(s, l, p) && rank == Ranks(s, l, p)
    requires fds == FirstSeen(FdOf(s), order) && |groups| == |fds|
    requires forall i :: 0 <= i < |fds| ==> groups[i] == GroupOf(s, rank, order, fds[i])
    ensures FreshGroups(s, l, p) == groups
  {
    hide Ranks, FirstSeen, GroupOf, CandidateOrder, FreshGroups;
    FreshScan.IsFreshGroups(s, l, p, groups);
  }

  lemma AllGroups(rank: map<string, int>, fds: seq<string>)
    requires rank.Keys == LABELED.inv.Keys && forall n :: n in RANKED ==> n in rank && rank[n] == Free(n)
    requires fds == ["C", "D", "A", "B"]
    ensures |fds| == |GROUPS| && forall n :: n in RANKED ==> n in LABELED.inv
    ensures forall i :: 0 <= i < |fds| ==> GroupOf(LABELED, rank, RANKED, fds[i]) == GROUPS[i]
  {
    hide GroupOf, Free;
    forall n | n in RANKED ensures n in LABELED.inv { NamesAre(n); }
    forall i | 0 <= i < |fds| ensures GroupOf(LABELED, rank, RANKED, fds[i]) == GROUPS[i] { GroupIs(rank, i); }
  }

  /** The candidate groups, in the order selectUniform scans them: the last one is larger than the third. */
  lemma GroupsAre()
    ensures Tracks(LABELED, START) && FreshGroups(LABELED, START, TLC) == GROUPS
  {
    hide *;
    OrderIs();
    RanksAre();
    KeysAre();
    SeenAre(FdOf(LABELED));
    var rank, fds := Ranks(LABELED, START, TLC), FirstSeen(FdOf(LABELED), RANKED);
    AllGroups(rank, fds);
    Assemble(LABELED, START, TLC, RANKED, rank, fds, GROUPS);
  }

  lemma CountsAre(level: int)
    requires 450 < level <= 800
    ensures CountAtLeast(GROUPS, level) == 3
  {
    var keep := (g: FdGroup) => g.headroom >= level;
    var a, b, c := GROUPS[..1], GROUPS[..2], GROUPS[..3];
    assert a[..0] == [] && b[..1] == a && c[..2] == b && GROUPS[..3] == c;
    assert Select(a, keep) == [GROUPS[0]];
    assert Select(b, keep) == [GROUPS[0], GROUPS[1]];
    assert Select(c, keep) == [GROUPS[0], GROUPS[1]];
    assert Select(GROUPS, keep) == [GROUPS[0], GROUPS[1], GROUPS[3]];
  }

  /**
   * With three failure domains required, 1500 GiB tile over three of them but four are taken, and 2000 GiB tile over
   * three of them but are refused, with a reported shortfall of zero.
   */
  lemma UnsortedCandidates(prefer: set<string>)
    ensures Tracks(LABELED, START)
    ensures var scheme := ProtectionScheme(2, 1, 0);
      Planner.ProtectionOk(scheme, LABELED.cons) && scheme.MinFdNum() == 3
    ensures PoolDecision.FreshDecision(LABELED, START, TLC, 2000, 3, false) ==
      PoolDecision.Reject(Report(DrivePool(TLC), DriveCapacity, 0))
    ensures var gs := FreshGroups(LABELED, START, TLC);
      && !HeadroomSorted(gs)
      && LeastTiling(gs, 1500, 3, 384) == Some(3) && FirstTiling(gs, 1500, 384, 3) == Some(4)
      && LeastTiling(gs, 2000, 3, 384) == Some(3) && SelectUniform(gs, 2000, 3, 384, prefer) == NoTiling
      && UniformShortfall(gs, 2000, 3, 384) == 0
  {
    GroupsAre();
    hide FreshGroups, CountAtLeast;
    var gs := GROUPS;
    assert gs[2].headroom == 450 && gs[3].headroom == 880;
    assert UniformShare(1500, 3, 384) == 500 && UniformShare(1500, 4, 384) == 384;
    assert UniformShare(2000, 3, 384) == 667 && UniformShare(2000, 4, 384) == 500;
    CountsAre(500);
    CountsAre(667);
    assert FirstCanTile(gs, 1500, 384, 3) == Some(3) && FirstCanTile(gs, 2000, 384, 3) == Some(3);
    assert !TilesFirst(gs, 1500, 384, 3) && TilesFirst(gs, 1500, 384, 4);
    assert FirstTiling(gs, 1500, 384, 3) == FirstTiling(gs, 1500, 384, 4) == Some(4);
    assert !TilesFirst(gs, 2000, 384, 3) && !TilesFirst(gs, 2000, 384, 4);
    assert FirstTiling(gs, 2000, 384, 3) == FirstTiling(gs, 2000, 384, 4) == FirstTiling(gs, 2000, 384, 5) == None;
  }
}
