/** A greenfield cluster of three nodes, planned from start to end. */
module PlanWitness {
  import opened Model
  import opened NodeBudget
  import opened Ledgers
  import opened WitnessSites
  import CP = ComputePlanner
  import CG = ComputeGuarantees
  import CL = ComputeLayout
  import HugepageSizing

  const TRIO := {"a", "b", "c"}

  function Three(tlc: int): map<string, NodeCapacity> {
    map["a" := Node("a", "a", tlc), "b" := Node("b", "b", tlc), "c" := Node("c", "c", tlc)]
  }

  function Greenfield(tlc: int): Site { Site(Three(tlc), [], CONS) }

  lemma TrioSize()
    ensures |TRIO| == 3
  {
    Letters();
  }

  // ----- compute over nodes that can all host the container -----

  lemma FitsOne(s: Site, b: CP.Budgets, n: string, cores: int, hp: int)
    requires CP.On(s, b) && CP.Hosts(s, b, n, cores, hp) && cores >= 1 && s.cons.maxCoresPerContainer == 0
    ensures CL.NodeFits(CP.CoreHeadroom(s, b, [], n), Some(CP.HugepageHeadroom(s, b, [], n)), cores, hp, 0)
  {
    DataCoresFitExact(s.inv[n], b[n].cores, s.cons.cpuPolicy, 0, true, cores);
    assert CP.Pinned(s, []) == {};
  }

  /** If every eligible node can host the container, all of them count as fitting. */
  lemma FitsEverywhere(s: Site, b: CP.Budgets, eligible: set<string>, cores: int, hp: int)
    requires CP.On(s, b) && eligible <= s.inv.Keys && cores >= 1 && s.cons.maxCoresPerContainer == 0
    requires forall n :: n in eligible ==> CP.Hosts(s, b, n, cores, hp)
    ensures var nodes := CP.ComputeNodes(s, eligible);
      && |CP.CoreHeadrooms(s, b, [], nodes)| == |eligible|
      && CL.Fitting(CP.CoreHeadrooms(s, b, [], nodes), Some(CP.HugepageHeadrooms(s, b, [], nodes)), cores, hp,
        0) == |eligible|
  {
    hide CP.Hosts, CP.CoreHeadroom, CP.HugepageHeadroom, CL.NodeFits, CP.SortedNames;
    CG.HeadroomCount(s, b, [], eligible);
    CP.SortedNamesFacts(eligible);
    var nodes := CP.ComputeNodes(s, eligible);
    var hs, hps := CP.CoreHeadrooms(s, b, [], nodes), CP.HugepageHeadrooms(s, b, [], nodes);
    forall i | 0 <= i < |hs| ensures CL.NodeFits(hs[i], CL.HugepagesAt(Some(hps), i), cores, hp, 0) {
      assert nodes[i] in nodes;
      FitsOne(s, b, nodes[i], cores, hp);
    }
    CL.AllFit(hs, Some(hps), cores, hp, 0, |hs|);
  }

  lemma TrioHosts(tlc: int, n: string, cores: int, hp: int)
    requires n in TRIO && 0 <= cores <= 60 && hp <= 1_000_000
    ensures var s := Greenfield(tlc);
      CP.On(s, Opening(s.inv).budgets) && CP.Hosts(s, Opening(s.inv).budgets, n, cores, hp)
  {
    Letters();
  }

  /**
   * Three nodes with ample cores and hugepages under a floor of five reach the diagnostic marked unexpected, with the
   * hugepage function the planner passes.
   */
  lemma UnexpectedReached(tlc: int)
    ensures var s, desired := Greenfield(tlc), DesiredCapacity(Caps(3000, 0), 0, 0, 0, 0);
      && CP.On(s, Opening(s.inv).budgets) && TRIO <= s.inv.Keys
      && CP.PlanCompute(s, Opening(s.inv).budgets, desired, 5, [], TRIO, 3) ==
        CP.Failed(Report(ComputeStage, Unclassified, 0))
  {
    var s, desired := Greenfield(tlc), DesiredCapacity(Caps(3000, 0), 0, 0, 0, 0);
    var b := Opening(s.inv).budgets;
    assert CP.On(s, b) && TRIO <= s.inv.Keys;
    assert CL.EvenCores(3, 3) == 1;
    var hp := CP.HugepagesFor(desired.raw, s.cons)(3, 1);
    assert hp == HugepageSizing.ComputeHugepages(desired.raw, 3, 1, CONS) == 3000;
    forall n | n in TRIO ensures CP.Hosts(s, b, n, 1, hp) { TrioHosts(tlc, n, 1, hp); }
    TrioSize();
    hide CP.Hosts, CL.Fitting, CP.PlanCompute, CP.CoreHeadrooms, CP.HugepageHeadrooms, CP.ComputeNodes, Opening,
      Three;
    FitsEverywhere(s, b, TRIO, 1, hp);
    CG.UnclassifiedExact(s, b, desired, 5, [], TRIO, 3);
  }
}
