/** The compute stage seen from the site: which nodes count as able, what is derived from them, where new ones go. */
module StageTheorems {
  import opened Arith
  import opened Model
  import opened NodeBudget
  import opened Ledgers
  import opened Ordering
  import opened FdSpread
  import opened ComputePlanner
  import opened ComputeGuarantees
  import opened LaidComputes
  import opened Planner
  import opened PlanTheorems
  import opened EmissionFacts
  import Cpu
  import DriveCoreCounts
  import HugepageSizing
  import CL = ComputeLayout
  import PR = PlanRuns

  // ----- able nodes -----

  /** Compute k is the one on the node. */
  predicate HostsAt(s: Site, compute: seq<ExistingCompute>, n: string, k: nat) {
    k < |compute| && Resident(s, compute[k]) && compute[k].node == n
  }

  lemma {:induction false} ReclaimedNone(s: Site, compute: seq<ExistingCompute>, n: string)
    requires forall i :: 0 <= i < |compute| ==> !(Resident(s, compute[i]) && compute[i].node == n)
    ensures Reclaimed(s, compute, n) == 0
  {
    hide CpuCost;
    if compute != [] { ReclaimedNone(s, compute[..|compute| - 1], n); }
  }

  lemma {:induction false} ReclaimedAlone(s: Site, compute: seq<ExistingCompute>, n: string, k: nat)
    requires OneComputePerNode(s, compute) && HostsAt(s, compute, n, k)
    ensures Reclaimed(s, compute, n) == CpuCost(s.inv[n], s.cons.cpuPolicy, compute[k].numCores, true)
  {
    var init := compute[..|compute| - 1];
    hide CpuCost;
    if k == |init| { ReclaimedNone(s, init, n); } else { ReclaimedAlone(s, init, n, k); }
  }

  /**
   * The node can host a container of that size: within the limit, and with room for it; a node that keeps a compute
   * needs room only for what that compute would add, and its hugepages are not looked at.
   */
  ghost predicate Able(s: Site, b: Budgets, compute: seq<ExistingCompute>, n: string, cores: int, hp: int)
    requires On(s, b) && n in s.inv
  {
    && (s.cons.maxCoresPerContainer > 0 ==> cores <= s.cons.maxCoresPerContainer)
    && (forall k: nat :: HostsAt(s, compute, n, k) ==>
         CpuCost(s.inv[n], s.cons.cpuPolicy, cores - compute[k].numCores, false) <= b[n].cores && hp <= MAX_INT)
    && ((forall k: nat :: !HostsAt(s, compute, n, k)) ==>
         CpuCost(s.inv[n], s.cons.cpuPolicy, cores, true) <= b[n].cores && hp <= b[n].hugepages)
  }

  lemma KeepsCost(nc: NodeCapacity, policy: CpuPolicy, cores: int, kept: int, left: int)
    ensures CpuCost(nc, policy, cores, true) <= left + CpuCost(nc, policy, kept, true) <==>
      CpuCost(nc, policy, cores - kept, false) <= left
  {
    var m := Cpu.ModelFor(policy, Topo(nc));
    assert m.perCore * (cores - kept) == m.perCore * cores - m.perCore * kept;
    hide Cpu.ModelFor;
  }

  /** With one compute per node, the headrooms of the stage say a node fits a container exactly when it is able. */
  lemma NodeFitsExact(s: Site, b: Budgets, compute: seq<ExistingCompute>, n: string, cores: int, hp: int)
    requires On(s, b) && n in s.inv && cores >= 1 && OneComputePerNode(s, compute)
    ensures var room, pages := CoreHeadroom(s, b, compute, n), Some(HugepageHeadroom(s, b, compute, n));
      CL.NodeFits(room, pages, cores, hp, s.cons.maxCoresPerContainer) <==> Able(s, b, compute, n, cores, hp)
  {
    DataCoresFitExact(s.inv[n], b[n].cores, s.cons.cpuPolicy, Reclaimed(s, compute, n), true, cores);
    hide CpuCost, DataCoresCapacity, Reclaimed;
    if k: nat :| HostsAt(s, compute, n, k) {
      ReclaimedAlone(s, compute, n, k);
      KeepsCost(s.inv[n], s.cons.cpuPolicy, cores, compute[k].numCores, b[n].cores);
      assert compute[k] in compute;
      assert n in Pinned(s, compute);
      forall j: nat | HostsAt(s, compute, n, j) ensures j == k {}
    } else {
      forall i | 0 <= i < |compute| ensures !(Resident(s, compute[i]) && compute[i].node == n) {
        assert !HostsAt(s, compute, n, i);
      }
      assert n !in Pinned(s, compute);
      ReclaimedNone(s, compute, n);
    }
  }

  ghost function AbleNodes(s: Site, b: Budgets, compute: seq<ExistingCompute>, eligible: set<string>, cores: int,
      hp: int): set<string>
    requires On(s, b) && eligible <= s.inv.Keys
  {
    set n | n in eligible && Able(s, b, compute, n, cores, hp)
  }

  ghost function Found(nodes: seq<string>, fit: set<string>): set<string> { set n | n in nodes && n in fit }

  lemma FoundMore(nodes: seq<string>, fit: set<string>, last: string)
    requires last !in nodes
    ensures |Found(nodes + [last], fit)| == |Found(nodes, fit)| + if last in fit then 1 else 0
  {
    assert Found(nodes + [last], fit) == Found(nodes, fit) + if last in fit then {last} else {};
  }

  lemma {:induction false} PrefixIsSize(headroom: seq<int>, hps: seq<int>, nodes: seq<string>, fit: set<string>,
      cores: int, hp: int, maxCores: int, k: nat)
    requires |headroom| == |hps| == |nodes| && Distinct(nodes) && k <= |nodes|
    requires forall i :: 0 <= i < |nodes| ==>
      (CL.NodeFits(headroom[i], Some(hps[i]), cores, hp, maxCores) <==> nodes[i] in fit)
    ensures CL.FittingPrefix(headroom, Some(hps), cores, hp, maxCores, k) == |Found(nodes[..k], fit)|
  {
    hide CL.NodeFits;
    if k == 0 {
      assert Found(nodes[..0], fit) == {};
    } else {
      hide Found;
      PrefixIsSize(headroom, hps, nodes, fit, cores, hp, maxCores, k - 1);
      assert nodes[..k] == nodes[..k - 1] + [nodes[k - 1]];
      FoundMore(nodes[..k - 1], fit, nodes[k - 1]);
    }
  }

  /** The nodes counted for a size are as many as there are able ones. */
  lemma FittingIsSize(s: Site, b: Budgets, compute: seq<ExistingCompute>, eligible: set<string>, cores: int, hp: int)
    requires On(s, b) && eligible <= s.inv.Keys && cores >= 1 && OneComputePerNode(s, compute)
    ensures var nodes := ComputeNodes(s, eligible);
      CL.Fitting(CoreHeadrooms(s, b, compute, nodes), Some(HugepageHeadrooms(s, b, compute, nodes)), cores, hp,
        s.cons.maxCoresPerContainer) == |AbleNodes(s, b, compute, eligible, cores, hp)|
  {
    var nodes, able := ComputeNodes(s, eligible), AbleNodes(s, b, compute, eligible, cores, hp);
    SortedNamesFacts(eligible);
    hide Able, CoreHeadroom, HugepageHeadroom, SortedNames, OneComputePerNode, CL.NodeFits, CL.FittingPrefix;
    forall i | 0 <= i < |nodes|
      ensures nodes[i] in able <==> CL.NodeFits(CoreHeadrooms(s, b, compute, nodes)[i],
        Some(HugepageHeadrooms(s, b, compute, nodes)[i]), cores, hp, s.cons.maxCoresPerContainer)
    {
      assert nodes[i] in nodes;
      NodeFitsExact(s, b, compute, nodes[i], cores, hp);
    }
    PrefixIsSize(CoreHeadrooms(s, b, compute, nodes), HugepageHeadrooms(s, b, compute, nodes), nodes, able, cores, hp,
      s.cons.maxCoresPerContainer, |nodes|);
    assert nodes[..|nodes|] == nodes;
    assert Found(nodes, able) == able;
  }

  /** n containers of c cores each find as many able nodes, with the hugepages that count and size ask for. */
  ghost predicate Hostable(s: Site, b: Budgets, raw: Caps, compute: seq<ExistingCompute>, eligible: set<string>, n: int,
      c: int)
    requires On(s, b) && eligible <= s.inv.Keys
  {
    |AbleNodes(s, b, compute, eligible, c, HugepageSizing.ComputeHugepages(raw, n, c, s.cons))| >= n
  }

  lemma SplitIsHostable(s: Site, b: Budgets, raw: Caps, compute: seq<ExistingCompute>, eligible: set<string>, n: int,
      c: int)
    requires On(s, b) && eligible <= s.inv.Keys && c >= 1 && OneComputePerNode(s, compute)
    ensures var nodes := ComputeNodes(s, eligible);
      CL.SplitFits(CoreHeadrooms(s, b, compute, nodes), Some(HugepageHeadrooms(s, b, compute, nodes)), n, c,
        s.cons.maxCoresPerContainer, Some(HugepagesFor(raw, s.cons))) <==>
      Hostable(s, b, raw, compute, eligible, n, c)
  {
    hide CoreHeadrooms, HugepageHeadrooms, ComputeNodes, CL.Fitting, OneComputePerNode, HugepageSizing.ComputeHugepages,
      AbleNodes;
    FittingIsSize(s, b, compute, eligible, c, HugepageSizing.ComputeHugepages(raw, n, c, s.cons));
  }

  /**
   * With nothing pinned the stage aims at the least count, from the floor up, whose fewest cores some nodes can host.
   * It finds none exactly when no count up to the number of compute nodes will do.
   */
  lemma DerivedExact(s: Site, b: Budgets, desired: DesiredCapacity, minFds: int, compute: seq<ExistingCompute>,
      eligible: set<string>, t: int)
    requires On(s, b) && eligible <= s.inv.Keys && OneComputePerNode(s, compute)
    requires desired.computeContainers == 0 && desired.computeCores == 0
    ensures match DerivedLayout(s, b, desired, minFds, compute, eligible, t)
      case Layout(n, c) =>
        && Max(minFds, 1) <= n <= |eligible| && CL.FewestCores(c, n, t)
        && Hostable(s, b, desired.raw, compute, eligible, n, c)
        && forall m, c' :: Max(minFds, 1) <= m < n && CL.FewestCores(c', m, t) ==>
          !Hostable(s, b, desired.raw, compute, eligible, m, c')
      case NoLayout(_) =>
        forall m, c' :: Max(minFds, 1) <= m <= |eligible| && CL.FewestCores(c', m, t) ==>
          !Hostable(s, b, desired.raw, compute, eligible, m, c')
  {
    var nodes := ComputeNodes(s, eligible);
    HeadroomCount(s, b, compute, eligible);
    hide CL.Derive, CL.SplitFits, CoreHeadrooms, HugepageHeadrooms, ComputeNodes, OneComputePerNode, Hostable,
      CL.FewestCores, CL.EvenCores;
    CL.DeriveLeast(t, minFds, s.cons.maxCoresPerContainer, CoreHeadrooms(s, b, compute, nodes),
      Some(HugepageHeadrooms(s, b, compute, nodes)), Some(HugepagesFor(desired.raw, s.cons)));
    forall m, c' | m >= 1 && CL.FewestCores(c', m, t)
      ensures c' == CL.EvenCores(t, m) && CL.SplitFits(CoreHeadrooms(s, b, compute, nodes),
          Some(HugepageHeadrooms(s, b, compute, nodes)), m, c', s.cons.maxCoresPerContainer,
          Some(HugepagesFor(desired.raw, s.cons))) == Hostable(s, b, desired.raw, compute, eligible, m, c')
    {
      CL.EvenCoresLeast(c', m, t);
      assert c' >= 1 by { AtLeastOne(c', m, t); }
      SplitIsHostable(s, b, desired.raw, compute, eligible, m, c');
    }
  }

  lemma AtLeastOne(c: int, n: int, t: int)
    requires CL.FewestCores(c, n, t)
    ensures c >= 1
  {
  }

  lemma DerivedPins(count: int, cores: int, t: int, floor: int, maxCores: int, headroom: seq<int>,
      hps: Option<seq<int>>, hpFor: CL.HugepagesFor)
    requires CL.Derive(count, cores, t, floor, maxCores, headroom, hps, hpFor).Layout?
    ensures var r := CL.Derive(count, cores, t, floor, maxCores, headroom, hps, hpFor);
      (count != 0 ==> r.count == count) && (cores != 0 ==> r.cores == cores)
  {
    hide CL.TopNMin, CL.HugepagesOk;
  }

  lemma PinsSized(s: Site, b: Budgets, desired: DesiredCapacity, minFds: int, compute: seq<ExistingCompute>,
      eligible: set<string>, t: int)
    requires On(s, b) && eligible <= s.inv.Keys && Size(s, b, desired, minFds, compute, eligible, t).Sized?
    ensures var p := Size(s, b, desired, minFds, compute, eligible, t).plan;
      && (desired.computeContainers != 0 ==> p.count == desired.computeContainers)
      && (desired.computeCores != 0 ==> p.cores == desired.computeCores)
  {
    var nodes := ComputeNodes(s, eligible);
    hide CL.Derive, CoreHeadrooms, HugepageHeadrooms, ComputeNodes, LayOut, FreeOrder, Extend, SpanAt;
    DerivedPins(desired.computeContainers, desired.computeCores, t, minFds, s.cons.maxCoresPerContainer,
      CoreHeadrooms(s, b, compute, nodes), Some(HugepageHeadrooms(s, b, compute, nodes)),
      Some(HugepagesFor(desired.raw, s.cons)));
  }

  lemma FinishCoresPin(s: Site, raw: Caps, p: Plan)
    requires Placeable(s, p) && Finish(s, raw, p).Placed?
    ensures Finish(s, raw, p).cores == p.cores
  {
    hide PlaceNew, Resized;
  }

  /** A feasible plan gives computes the cores that were pinned for them. */
  lemma PinnedComputeCores(input: Input)
    requires PlanCapacity(input).Feasible() && input.desired.computeCores != 0
    ensures PlanCapacity(input).computeCores == input.desired.computeCores
  {
    FeasibleShape(input);
    hide PlanCapacity, PoolsOf, EmissionOf, PR.InventoryMap, Size, Emitted, Finish, Placeable,
      DriveCoreCounts.RequiredComputeCores;
    var s, b, t := input.Place(), EmissionOf(input).budgets, PlanCapacity(input).requiredComputeCores;
    var eligible := EligibleNodes(s, input.computeNodes.value);
    SizedOrder(s, b, input.desired, input.scheme.MinFdNum(), input.compute, eligible, t);
    PinsSized(s, b, input.desired, input.scheme.MinFdNum(), input.compute, eligible, t);
    FinishCoresPin(s, input.desired.raw,
      Size(s, b, input.desired, input.scheme.MinFdNum(), input.compute, eligible, t).plan);
  }

  // ----- the order of free nodes -----

  lemma PrefixOf(a: seq<string>, c: seq<string>, m: nat, x: string)
    requires m <= |a| + |c| && x in (a + c)[..m]
    ensures x !in c ==> x in a[..Min(m, |a|)]
    ensures x !in a ==> m >= |a| && x in c[..m - |a|]
  {
    var i :| 0 <= i < m && (a + c)[i] == x;
    assert i < |a| ==> a[..Min(m, |a|)][i] == x;
    assert i >= |a| ==> c[..m - |a|][i - |a|] == x;
  }

  lemma InPrefix(a: seq<string>, c: seq<string>, m: nat, x: string)
    requires m <= |a| + |c|
    ensures x in a[..Min(m, |a|)] ==> x in (a + c)[..m]
    ensures m >= |a| && x in c[..m - |a|] ==> x in (a + c)[..m]
  {
    assert a[..Min(m, |a|)] == (a + c)[..Min(m, |a|)];
    assert m >= |a| ==> (a + c)[..m] == a + c[..m - |a|];
    if x in a[..Min(m, |a|)] { PrefixMember(a + c, Min(m, |a|), m, x); }
  }

  /** Of two free nodes of one failure domain the one with more free cores is picked first, by name on a tie. */
  lemma FitOrderBetter(a: seq<string>, c: seq<string>, rank: map<string, int>, fdOf: map<string, string>,
      covered: set<string>, m: nat, x: string, y: string)
    requires FitSplit(a, c, rank, fdOf, covered) && m <= |FitOrder(a, c, rank, fdOf)|
    requires x in FitOrder(a, c, rank, fdOf)[..m] && (y in a || y in c) && y !in FitOrder(a, c, rank, fdOf)[..m]
    requires x in fdOf && fdOf[x] == fdOf[y]
    ensures x in rank && rank[x] >= rank[y]
  {
    SpreadPermutes(a, rank, fdOf);
    SpreadPermutes(c, rank, fdOf);
    var sa, sc := Spread(a, rank, fdOf), Spread(c, rank, fdOf);
    PrefixMember(sa + sc, m, |sa + sc|, x);
    assert (sa + sc)[..|sa + sc|] == sa + sc;
    hide Spread;
    PrefixOf(sa, sc, m, x);
    InPrefix(sa, sc, m, y);
    AheadTotal(rank, x, y);
    if rank[y] > rank[x] {
      if y in a { BetterFirst(a, rank, fdOf, Min(m, |sa|), x, y); } else { BetterFirst(c, rank, fdOf, m - |sa|, x, y); }
    }
  }

  /** While an uncovered failure domain is untouched, none of its free nodes outranks an uncovered pick. */
  lemma FitOrderSpans(a: seq<string>, c: seq<string>, rank: map<string, int>, fdOf: map<string, string>,
      covered: set<string>, m: nat, x: string, y: string)
    requires FitSplit(a, c, rank, fdOf, covered) && m <= |FitOrder(a, c, rank, fdOf)|
    requires x in FitOrder(a, c, rank, fdOf)[..m] && x in a && y in a
    requires forall z :: z in FitOrder(a, c, rank, fdOf)[..m] && z in fdOf ==> fdOf[z] != fdOf[y]
    ensures rank[x] >= rank[y]
  {
    SpreadPermutes(a, rank, fdOf);
    SpreadPermutes(c, rank, fdOf);
    var sa, sc := Spread(a, rank, fdOf), Spread(c, rank, fdOf);
    hide Spread;
    PrefixOf(sa, sc, m, x);
    forall z | z in sa[..Min(m, |sa|)] ensures z in (sa + sc)[..m] { InPrefix(sa, sc, m, z); }
    UntouchedNotBetter(a, rank, fdOf, Min(m, |sa|), x, y);
  }

  /**
   * New computes go to the free nodes with the most free cores: among nodes of one failure domain, and, as long as some
   * failure domain without a compute is left out, between the new failure domains taken and it.
   */
  lemma FreeOrderPrefers(s: Site, b: Budgets, pinned: set<string>, eligible: set<string>, cores: int, hp: int,
      covered: set<string>, m: nat, x: string, y: string)
    requires On(s, b) && eligible <= s.inv.Keys
    requires m <= |FreeOrder(s, b, pinned, eligible, cores, hp, covered)|
    requires var order := FreeOrder(s, b, pinned, eligible, cores, hp, covered);
      x in order[..m] && y in order && y !in order[..m] && x in s.inv && y in s.inv
    ensures var order := FreeOrder(s, b, pinned, eligible, cores, hp, covered);
      var alone := s.inv[y].fdValue !in covered && s.inv[x].fdValue !in covered &&
        forall z :: z in order[..m] && z in s.inv ==> s.inv[z].fdValue != s.inv[y].fdValue;
      s.inv[x].fdValue == s.inv[y].fdValue || alone ==> b[x].cores >= b[y].cores
  {
    var order := FreeOrder(s, b, pinned, eligible, cores, hp, covered);
    var a := SortedNames(FreeFit(s, b, pinned, eligible, cores, hp, covered, false));
    var c := SortedNames(FreeFit(s, b, pinned, eligible, cores, hp, covered, true));
    FreeSplit(s, b, pinned, eligible, cores, hp, covered);
    hide SortedNames, FreeFit, Hosts;
    assert order == FitOrder(a, c, CoreRank(s, b), FdMap(s));
    PrefixMember(order, m, |order|, x);
    assert order[..|order|] == order;
    hide FreeOrder, FitOrder;
    if s.inv[x].fdValue == s.inv[y].fdValue {
      FitOrderBetter(a, c, CoreRank(s, b), FdMap(s), covered, m, x, y);
    } else if s.inv[y].fdValue !in covered && s.inv[x].fdValue !in covered &&
      forall z :: z in order[..m] && z in s.inv ==> s.inv[z].fdValue != s.inv[y].fdValue {
      FitOrderSpans(a, c, CoreRank(s, b), FdMap(s), covered, m, x, y);
    }
  }

  // ----- where new computes go -----

  /** In every feasible plan a new compute is on a node marked for compute that had none. */
  lemma NewOnComputeNodes(input: Input, i: nat)
    requires PlanCapacity(input).Feasible()
    requires Residents(input.Place(), input.compute) <= i < |PlanCapacity(input).layout|
    ensures var n := PlanCapacity(input).layout[i].node;
      && input.computeNodes.Some? && n in input.computeNodes.value && input.computeNodes.value[n]
      && n in input.Place().inv && forall c :: c in input.compute ==> c.node != n || n == ""
  {
    FeasibleShape(input);
    hide PlanCapacity, PoolsOf, EmissionOf, PR.InventoryMap, PlanCompute, Residents, Emitted,
      DriveCoreCounts.RequiredComputeCores;
    NewExact(input.Place(), EmissionOf(input).budgets, input.desired, input.scheme.MinFdNum(), input.compute,
      EligibleNodes(input.Place(), input.computeNodes.value), PlanCapacity(input).requiredComputeCores, i);
    var s, n := input.Place(), PlanCapacity(input).layout[i].node;
    assert n !in Pinned(s, input.compute);
  }
}
