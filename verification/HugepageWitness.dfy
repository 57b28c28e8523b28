/** A compute stage whose frozen containers leave fewer, larger ones than the sizing reserved for. */
module HugepageWitness {
  import opened Arith
  import opened Model
  import opened NodeBudget
  import opened Ledgers
  import opened WitnessSites
  import CP = ComputePlanner
  import CG = ComputeGuarantees
  import CL = ComputeLayout
  import Cpu
  import HugepageSizing

  const RATIO := CONS.(computeHugepagesRatio := Caps(1024, 0))

  /** Four nodes; node a has 700 MiB of hugepages left. */
  const QUAD := Site(
    map["a" := Node("a", "a", 0).(hugepages := 700), "b" := Node("b", "b", 0), "c" := Node("c", "c", 0),
        "d" := Node("d", "d", 0)], [], RATIO)

  /** One running compute, and two pending ones with three cores between them. */
  const COMPUTE := [ExistingCompute("u", "a", 1, 4000, false), ExistingCompute("v", "b", 1, 4000, true),
    ExistingCompute("w", "c", 2, 8000, true)]

  /** How they are laid out: grown, frozen, frozen. */
  const LAID := [CP.Laid(ComputeSpec("a", 1, 4700), false), CP.Laid(ComputeSpec("b", 1, 4000), true),
    CP.Laid(ComputeSpec("c", 2, 8000), true)]

  const WANTED := DesiredCapacity(Caps(12000, 0), 4, 1, 0, 0)

  lemma {:induction false} GivesBack(s: Site, compute: seq<ExistingCompute>, n: string)
    requires n in s.inv && forall c :: c in compute ==> c.numCores >= 0
    ensures CP.Reclaimed(s, compute, n) >= 0
  {
    if compute != [] {
      var c := compute[|compute| - 1];
      GivesBack(s, compute[..|compute| - 1], n);
      Cpu.ModelShape(s.cons.cpuPolicy, Topo(s.inv[n]));
      MulMono(0, c.numCores, Cpu.ModelFor(s.cons.cpuPolicy, Topo(s.inv[n])).perCore);
      hide Cpu.ModelFor;
    }
  }

  lemma OccupiedNodes()
    ensures CP.Pinned(QUAD, COMPUTE) == {"a", "b", "c"}
  {
    Letters();
    assert COMPUTE[0] in COMPUTE && COMPUTE[1] in COMPUTE && COMPUTE[2] in COMPUTE;
  }

  lemma HugepageFigures()
    ensures HugepageSizing.ComputeHugepages(WANTED.raw, 4, 1, RATIO) == 4700
    ensures HugepageSizing.ComputeHugepages(WANTED.raw, 3, 1, RATIO) == 5700
  {
  }

  lemma FitsOne(b: CP.Budgets, n: string)
    requires b == Opening(QUAD.inv).budgets && n in SPARES
    ensures n in QUAD.inv && CP.On(QUAD, b)
    ensures CL.NodeFits(CP.CoreHeadroom(QUAD, b, COMPUTE, n), Some(CP.HugepageHeadroom(QUAD, b, COMPUTE, n)), 1, 4700,
      0)
  {
    Letters();
    OccupiedNodes();
    GivesBack(QUAD, COMPUTE, n);
    hide CP.Reclaimed, CP.Pinned;
    assert b[n].cores == 64;
    DataCoresFitExact(QUAD.inv[n], 64, Manual, CP.Reclaimed(QUAD, COMPUTE, n), true, 1);
  }

  /** One pinned core on each of the pinned number of nodes is the derived layout, if every node fits it. */
  lemma PinnedLayout(s: Site, b: CP.Budgets, desired: DesiredCapacity, minFds: int, compute: seq<ExistingCompute>,
      eligible: set<string>, t: int, hp: int)
    requires CP.On(s, b) && eligible <= s.inv.Keys && s.cons.maxCoresPerContainer == 0
    requires desired.computeContainers == |eligible| > 0 && desired.computeCores == 1 && t <= |eligible|
    requires hp == HugepageSizing.ComputeHugepages(desired.raw, |eligible|, 1, s.cons)
    requires forall n :: n in eligible ==>
      CL.NodeFits(CP.CoreHeadroom(s, b, compute, n), Some(CP.HugepageHeadroom(s, b, compute, n)), 1, hp, 0)
    ensures CP.DerivedLayout(s, b, desired, minFds, compute, eligible, t) == CL.Layout(|eligible|, 1)
  {
    CG.HeadroomCount(s, b, compute, eligible);
    CP.SortedNamesFacts(eligible);
    var nodes := CP.ComputeNodes(s, eligible);
    var hs, hps := CP.CoreHeadrooms(s, b, compute, nodes), CP.HugepageHeadrooms(s, b, compute, nodes);
    hide CP.CoreHeadroom, CP.HugepageHeadroom, CL.NodeFits, CP.SortedNames, CL.TopNMin, HugepageSizing.ComputeHugepages;
    forall i | 0 <= i < |hs| ensures CL.NodeFits(hs[i], CL.HugepagesAt(Some(hps), i), 1, hp, 0) {
      assert nodes[i] in nodes;
    }
    CL.AllFit(hs, Some(hps), 1, hp, 0, |hs|);
  }

  lemma LayoutIs()
    ensures CP.On(QUAD, Opening(QUAD.inv).budgets) && SPARES <= QUAD.inv.Keys
    ensures CP.DerivedLayout(QUAD, Opening(QUAD.inv).budgets, WANTED, 3, COMPUTE, SPARES, 4) == CL.Layout(4, 1)
  {
    Letters();
    var b := Opening(QUAD.inv).budgets;
    assert CP.On(QUAD, b) && SPARES <= QUAD.inv.Keys;
    FourSpares();
    HugepageFigures();
    hide CP.DerivedLayout, Opening, HugepageSizing.ComputeHugepages, CP.CoreHeadroom, CP.HugepageHeadroom, CL.NodeFits;
    forall n | n in SPARES
      ensures CL.NodeFits(CP.CoreHeadroom(QUAD, b, COMPUTE, n), Some(CP.HugepageHeadroom(QUAD, b, COMPUTE, n)), 1, 4700,
        0)
    {
      FitsOne(b, n);
    }
    PinnedLayout(QUAD, b, WANTED, 3, COMPUTE, SPARES, 4, 4700);
  }

  /** The running compute grows by the 700 MiB its node has; the pending ones keep three cores. */
  lemma LaidIs()
    ensures CP.On(QUAD, Opening(QUAD.inv).budgets)
    ensures CP.LayOut(QUAD, Opening(QUAD.inv).budgets, COMPUTE, 1, 4700).laid == LAID
    ensures Opening(QUAD.inv).budgets["a"].hugepages == 700
    ensures CP.LayOut(QUAD, Opening(QUAD.inv).budgets, COMPUTE, 1, 4700).budgets["a"].hugepages == 0
  {
    Letters();
    var b := Opening(QUAD.inv).budgets;
    assert COMPUTE[..2][..1] == COMPUTE[..1] && COMPUTE[..1][..0] == [] && COMPUTE[..3] == COMPUTE;
    assert b["a"].hugepages == 700;
    assert CP.LayOut(QUAD, b, COMPUTE[..1], 1, 4700).laid == [CP.Laid(ComputeSpec("a", 1, 4700), false)];
    assert CP.LayOut(QUAD, b, COMPUTE[..2], 1, 4700).laid ==
      [CP.Laid(ComputeSpec("a", 1, 4700), false), CP.Laid(ComputeSpec("b", 1, 4000), true)];
  }

  /** If the existing computes span the failure domains, and supply the cores or cores are negative, none is added. */
  lemma NoneAdded(s: Site, b: CP.Budgets, desired: DesiredCapacity, minFds: int, compute: seq<ExistingCompute>,
      eligible: set<string>, t: int, count: int, cores: int)
    requires CP.On(s, b) && eligible <= s.inv.Keys
    requires CP.DerivedLayout(s, b, desired, minFds, compute, eligible, t) == CL.Layout(count, cores)
    requires var laid := CP.LayOut(s, b, compute, cores,
        HugepageSizing.ComputeHugepages(desired.raw, count, cores, s.cons)).laid;
      (CP.LaidCores(laid) >= count * cores || cores < 0) && |CP.CoveredFds(s, laid)| >= minFds
    ensures var lay := CP.LayOut(s, b, compute, cores,
        HugepageSizing.ComputeHugepages(desired.raw, count, cores, s.cons));
      CP.PlanCompute(s, b, desired, minFds, compute, eligible, t) ==
      CP.Placed(lay.budgets, CP.Resized(s, desired.raw, lay.laid, |lay.laid|), |lay.laid|, cores)
  {
    hide CP.DerivedLayout, CP.LayOut, CP.LaidCores, CP.CoveredFds, CP.FreeOrder, HugepageSizing.ComputeHugepages,
      CP.Resized, CP.Pinned;
    var lay := CP.LayOut(s, b, compute, cores, HugepageSizing.ComputeHugepages(desired.raw, count, cores, s.cons));
    var covered := CP.CoveredFds(s, lay.laid);
    assert covered + {} == covered;
    CP.SizedOrder(s, b, desired, minFds, compute, eligible, t);
  }

  lemma LaidFigures()
    ensures |CP.CoveredFds(QUAD, LAID)| == 3 && CP.LaidCores(LAID) == 4
  {
    Letters();
    assert LAID[0] in LAID && LAID[1] in LAID && LAID[2] in LAID;
    assert CP.CoveredFds(QUAD, LAID) == {"a", "b", "c"};
    assert LAID[..2][..1] == LAID[..1] && LAID[..1][..0] == [] && LAID[..3] == LAID;
    assert CP.LaidCores(LAID[..1]) == 1 && CP.LaidCores(LAID[..2]) == 2;
  }

  lemma OutcomeIs(s: Site, b: CP.Budgets, desired: DesiredCapacity, compute: seq<ExistingCompute>,
      eligible: set<string>)
    requires CP.On(s, b) && eligible <= s.inv.Keys
    requires CP.DerivedLayout(s, b, desired, 3, compute, eligible, 4) == CL.Layout(4, 1)
    requires HugepageSizing.ComputeHugepages(desired.raw, 4, 1, s.cons) == 4700
    requires HugepageSizing.ComputeHugepages(desired.raw, 3, 1, s.cons) == 5700
    requires CP.LayOut(s, b, compute, 1, 4700).laid == LAID
    requires |CP.CoveredFds(s, LAID)| == 3 && CP.LaidCores(LAID) == 4
    ensures var r := CP.PlanCompute(s, b, desired, 3, compute, eligible, 4);
      && r.Placed? && r.count == 3 && r.budgets == CP.LayOut(s, b, compute, 1, 4700).budgets
      && |r.layout| == 3 && r.layout[0] == ComputeSpec("a", 1, 5700)
  {
    hide CP.DerivedLayout, CP.LayOut, CP.CoveredFds, CP.PlanCompute, HugepageSizing.ComputeHugepages, CP.Resized,
      CP.LaidCores;
    NoneAdded(s, b, desired, 3, compute, eligible, 4, 4, 1);
    CG.ResizedAt(s, desired.raw, LAID, 3, 0);
  }

  /**
   * Four containers are wanted and three suffice: the running compute on node a, which had 700 MiB left and reserved
   * them all to reach 4700 MiB, is emitted with 5700 MiB.
   */
  lemma EmittedAboveReserved()
    ensures CP.On(QUAD, Opening(QUAD.inv).budgets) && SPARES <= QUAD.inv.Keys
    ensures "a" in Opening(QUAD.inv).budgets && Opening(QUAD.inv).budgets["a"].hugepages == 700
    ensures var r := CP.PlanCompute(QUAD, Opening(QUAD.inv).budgets, WANTED, 3, COMPUTE, SPARES, 4);
      && r.Placed? && r.count == 3 && "a" in r.budgets && r.budgets["a"].hugepages == 0
      && |r.layout| == 3 && r.layout[0] == ComputeSpec("a", 1, 5700)
  {
    var b := Opening(QUAD.inv).budgets;
    LayoutIs();
    LaidIs();
    LaidFigures();
    HugepageFigures();
    hide CP.DerivedLayout, CP.LayOut, CP.CoveredFds, CP.PlanCompute, HugepageSizing.ComputeHugepages, Opening,
      CP.LaidCores;
    OutcomeIs(QUAD, b, WANTED, COMPUTE, SPARES);
  }
}
