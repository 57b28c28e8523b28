/** planCompute as the source runs it, on the budgets the drive placement left behind. */
module ComputeRuns {
  import opened Arith
  import opened Model
  import opened NodeBudget
  import opened Ledgers
  import opened Ordering
  import opened FdSpread
  import opened ComputePlanner
  import opened ComputeScan
  import opened PlanRuns
  import FreshScan
  import Placement
  import HugepageSizing
  import CL = ComputeLayout

  // ----- names in order -----

  ghost predicate Ascending(xs: seq<string>) { forall i, j :: 0 <= i < j < |xs| ==> NameLess(xs[i], xs[j]) }

  lemma IsSortedNames(names: set<string>, xs: seq<string>)
    requires Ascending(xs) && forall x :: x in xs <==> x in names
    ensures xs == SortedNames(names)
  {
    hide NameLess;
    var rank := NameRank(names);
    assert forall i :: 0 <= i < |xs| ==> xs[i] in xs;
    assert Elems(xs) == names;
    RankedUnique(rank, xs, Ranking(rank, names));
  }

  method SortNames(names: set<string>) returns (xs: seq<string>)
    ensures xs == SortedNames(names) && Ascending(xs) && forall x :: x in xs <==> x in names
  {
    hide NameLess;
    xs := FreshScan.SortNames(names);
    assert forall x :: x in xs <==> x in Elems(xs);
    IsSortedNames(names, xs);
  }

  method CollectEligible(run: PlanRun, computeNodes: map<string, bool>) returns (eligible: set<string>)
    ensures eligible == EligibleNodes(run.Place(), computeNodes)
  {
    eligible := {};
    var left := computeNodes.Keys;
    while left != {}
      invariant left <= computeNodes.Keys
      invariant forall n :: n in eligible <==> n in computeNodes.Keys - left && computeNodes[n] && n in run.states
      decreases left
    {
      var n :| n in left;
      left := left - {n};
      if computeNodes[n] && n in run.states { eligible := eligible + {n}; }
    }
  }

  // ----- headroom per compute node -----

  ghost predicate Footprint(s: Site, compute: seq<ExistingCompute>, cpu: map<string, int>) {
    && (forall n :: n in cpu <==> n in Pinned(s, compute))
    && forall n :: n in s.inv ==> Reclaimed(s, compute, n) == if n in cpu then cpu[n] else 0
  }

  lemma FootprintNext(s: Site, compute: seq<ExistingCompute>, i: nat, cpu: map<string, int>)
    requires i < |compute| && Footprint(s, compute[..i], cpu)
    ensures var c := compute[i];
      if Resident(s, c) then
        Footprint(s, compute[..i + 1],
          cpu[c.node := (if c.node in cpu then cpu[c.node] else 0) +
            CpuCost(s.inv[c.node], s.cons.cpuPolicy, c.numCores, true)])
      else Footprint(s, compute[..i + 1], cpu)
  {
    assert compute[..i + 1] == compute[..i] + [compute[i]];
    assert compute[..i + 1][..i] == compute[..i];
  }

  /** CPU each node gets back for the compute containers it keeps hosting. */
  method Footprints(run: PlanRun, compute: seq<ExistingCompute>) returns (cpu: map<string, int>)
    ensures Footprint(run.Place(), compute, cpu)
  {
    hide Reclaimed, CpuCost;
    ghost var s := run.Place();
    cpu := map[];
    NoFootprint(s);
    for i := 0 to |compute|
      invariant Footprint(s, compute[..i], cpu)
    {
      hide Footprint;
      var c := compute[i];
      FootprintNext(s, compute, i, cpu);
      if c.node != "" && c.node in run.states {
        var was := if c.node in cpu then cpu[c.node] else 0;
        cpu := cpu[c.node := was + CpuCost(run.states[c.node].nc, run.cons.cpuPolicy, c.numCores, true)];
      }
    }
    assert compute[..|compute|] == compute;
  }

  lemma NoFootprint(s: Site)
    ensures Footprint(s, [], map[])
  {
  }

  method Headrooms(run: PlanRun, compute: seq<ExistingCompute>, nodes: seq<string>, cpu: map<string, int>)
    returns (cores: seq<int>, hps: seq<int>)
    requires run.Valid() && Footprint(run.Place(), compute, cpu) && forall i :: 0 <= i < |nodes| ==>
      nodes[i] in run.states
    ensures cores == CoreHeadrooms(run.Place(), run.Value().budgets, compute, nodes)
    ensures hps == HugepageHeadrooms(run.Place(), run.Value().budgets, compute, nodes)
  {
    hide DataCoresCapacity, Reclaimed, Pinned;
    ghost var s, b := run.Place(), run.Value().budgets;
    cores, hps := [], [];
    for i := 0 to |nodes|
      invariant |cores| == |hps| == i
      invariant forall j :: 0 <= j < i ==> cores[j] == CoreHeadroom(s, b, compute, nodes[j])
      invariant forall j :: 0 <= j < i ==> hps[j] == HugepageHeadroom(s, b, compute, nodes[j])
    {
      var ns := run.states[nodes[i]];
      var back := if nodes[i] in cpu then cpu[nodes[i]] else 0;
      cores := cores + [DataCoresCapacity(ns.nc, ns.coresFree, run.cons.cpuPolicy, back, true)];
      hps := hps + [if nodes[i] in cpu then MAX_INT else ns.hugepagesMiB];
    }
  }

  // ----- existing computes -----

  method ChargeCompute(run: PlanRun, node: string, cpu: int, hp: int)
    requires run.Valid() && node in run.states
    modifies run.states[node]
    ensures var b := old(run.Value()).budgets[node];
      run.Value() == old(run.Value()).(budgets :=
        old(run.Value()).budgets[node := b.(cores := b.cores - cpu, hugepages := b.hugepages - hp)])
  {
    ghost var was := run.Value().budgets;
    var ns := run.states[node];
    ns.coresFree := ns.coresFree - cpu;
    ns.hugepagesMiB := ns.hugepagesMiB - hp;
    run.SetOne(was, node);
  }

  /** One existing compute: grown to the target if its node has the delta, else frozen. */
  method LayOutOne(run: PlanRun, c: ExistingCompute, cores: int, hp: int, ghost st: LayState) returns (laid: Laid)
    requires run.Valid() && c.node != "" && c.node in run.states && st.budgets == run.Value().budgets
    modifies run.states[c.node]
    ensures LayOne(run.Place(), st, c, cores, hp) == LayState(run.Value().budgets, st.laid + [laid])
    ensures run.Value() == old(run.Value()).(budgets := run.Value().budgets)
  {
    hide CpuCost;
    var ns := run.states[c.node];
    var coresDelta, hpDelta := cores - c.numCores, hp - c.hugepages;
    var cpuDelta := CpuCost(ns.nc, run.cons.cpuPolicy, coresDelta, false);
    if c.unscheduled || !run.cons.allowInPlaceGrowth
       || (coresDelta > 0 && ns.coresFree < cpuDelta) || (hpDelta > 0 && ns.hugepagesMiB < hpDelta) {
      return Laid(ComputeSpec(c.node, c.numCores, c.hugepages), true);
    }
    ChargeCompute(run, c.node, if coresDelta > 0 then cpuDelta else 0, if hpDelta > 0 then hpDelta else 0);
    return Laid(ComputeSpec(c.node, cores, hp), false);
  }

  method LayOutExistingCompute(run: PlanRun, compute: seq<ExistingCompute>, cores: int, hp: int)
    returns (laid: seq<Laid>, existingCores: int)
    requires run.Valid()
    modifies run.states.Values
    ensures LayState(run.Value().budgets, laid) == LayOut(run.Place(), old(run.Value()).budgets, compute, cores, hp)
    ensures existingCores == LaidCores(laid) && run.Value() == old(run.Value()).(budgets := run.Value().budgets)
  {
    hide LayOne;
    ghost var s, b := run.Place(), run.Value().budgets;
    laid, existingCores := [], 0;
    for i := 0 to |compute|
      invariant LayState(run.Value().budgets, laid) == LayOut(s, b, compute[..i], cores, hp)
      invariant existingCores == LaidCores(laid) && run.Value() == old(run.Value()).(budgets := run.Value().budgets)
    {
      assert compute[..i + 1][..i] == compute[..i];
      var c := compute[i];
      if c.node != "" && c.node in run.states {
        ghost var st := LayState(run.Value().budgets, laid);
        var one := LayOutOne(run, c, cores, hp, st);
        assert (laid + [one])[..|laid|] == laid;
        laid, existingCores := laid + [one], existingCores + one.spec.numCores;
      } else {
        NotLaid(s, LayState(run.Value().budgets, laid), c, cores, hp);
      }
    }
    assert compute[..|compute|] == compute;
  }

  lemma NotLaid(s: Site, st: LayState, c: ExistingCompute, cores: int, hp: int)
    requires On(s, st.budgets) && !Resident(s, c)
    ensures LayOne(s, st, c, cores, hp) == st
  {
  }

  method CollectCovered(run: PlanRun, laid: seq<Laid>) returns (covered: set<string>)
    ensures covered == CoveredFds(run.Place(), laid)
  {
    covered := {};
    for i := 0 to |laid|
      invariant covered == CoveredFds(run.Place(), laid[..i])
    {
      assert laid[..i + 1] == laid[..i] + [laid[i]];
      var n := laid[i].spec.node;
      if n in run.states { covered := covered + {run.states[n].nc.fdValue}; }
    }
    assert laid[..|laid|] == laid;
  }

  // ----- free nodes -----

  /** Free fitting nodes in name order, split by whether their failure domain is covered. */
  method SplitFit(run: PlanRun, nodes: seq<string>, pinned: set<string>, covered: set<string>, cores: int, hp: int,
      ghost eligible: set<string>)
    returns (freshFit: seq<string>, coveredFit: seq<string>)
    requires run.Valid() && eligible <= run.states.Keys && Ascending(nodes) && forall x :: x in nodes <==> x in eligible
    ensures var s, b := run.Place(), run.Value().budgets;
      && freshFit == SortedNames(FreeFit(s, b, pinned, eligible, cores, hp, covered, false))
      && coveredFit == SortedNames(FreeFit(s, b, pinned, eligible, cores, hp, covered, true))
  {
    hide NameLess, CpuCost, SortedNames;
    ghost var s, b := run.Place(), run.Value().budgets;
    freshFit, coveredFit := [], [];
    for i := 0 to |nodes|
      invariant Ascending(freshFit) && Ascending(coveredFit)
      invariant forall x :: x in freshFit <==>
        x in nodes[..i] && x in FreeFit(s, b, pinned, eligible, cores, hp, covered, false)
      invariant forall x :: x in coveredFit <==>
        x in nodes[..i] && x in FreeFit(s, b, pinned, eligible, cores, hp, covered, true)
    {
      var n := nodes[i];
      assert nodes[..i + 1] == nodes[..i] + [n] && n in nodes;
      if n !in pinned {
        var ns := run.states[n];
        if !(ns.coresFree < CpuCost(ns.nc, run.cons.cpuPolicy, cores, true) || ns.hugepagesMiB < hp) {
          if ns.nc.fdValue in covered {
            Append(nodes, i, coveredFit);
            coveredFit := coveredFit + [n];
          } else {
            Append(nodes, i, freshFit);
            freshFit := freshFit + [n];
          }
        }
      }
    }
    assert nodes[..|nodes|] == nodes;
    IsSortedNames(FreeFit(s, b, pinned, eligible, cores, hp, covered, false), freshFit);
    IsSortedNames(FreeFit(s, b, pinned, eligible, cores, hp, covered, true), coveredFit);
  }

  lemma Append(nodes: seq<string>, i: nat, xs: seq<string>)
    requires Ascending(nodes) && i < |nodes| && Ascending(xs) && forall x :: x in xs ==> x in nodes[..i]
    ensures Ascending(xs + [nodes[i]])
  {
    forall j | 0 <= j < |xs| ensures NameLess(xs[j], nodes[i]) {
      assert xs[j] in xs;
      var k :| 0 <= k < i && nodes[..i][k] == xs[j];
    }
  }

  /** orderFitNodesByFreshFD. */
  method OrderFitNodes(run: PlanRun, nodes: seq<string>, pinned: set<string>, covered: set<string>, cores: int, hp: int,
      ghost eligible: set<string>)
    returns (order: seq<string>)
    requires run.Valid() && eligible <= run.states.Keys && Ascending(nodes) && forall x :: x in nodes <==> x in eligible
    ensures order == FreeOrder(run.Place(), run.Value().budgets, pinned, eligible, cores, hp, covered)
  {
    hide SortedNames, Spread, FreeFit, Hosts, Ascending;
    ghost var s, b := run.Place(), run.Value().budgets;
    var freshFit, coveredFit := SplitFit(run, nodes, pinned, covered, cores, hp, eligible);
    FreeSplit(s, b, pinned, eligible, cores, hp, covered);
    var rank := map n | n in run.states :: run.states[n].coresFree;
    var fdOf := map n | n in run.states :: run.states[n].nc.fdValue;
    assert rank == CoreRank(s, b) && fdOf == FdMap(s);
    var first := OrderNodesByFDSpread(freshFit, rank, fdOf);
    var second := OrderNodesByFDSpread(coveredFit, rank, fdOf);
    order := first + second;
  }

  // ----- new computes -----

  lemma PlaceNewNext(s: Site, b: Budgets, raw: Caps, order: seq<string>, split: nat, n: nat, total: int, k: nat)
    requires On(s, b) && 0 < n <= |order| && k < n && forall i :: 0 <= i < |order| ==> order[i] in s.inv
    requires PlaceNew(s, b, raw, order, split, n, total, k).ok
    ensures var st := PlaceNew(s, b, raw, order, split, n, total, k);
      var node, cores := order[k], Placement.Share(split, n, k);
      var hp, cpu := HugepageSizing.ComputeHugepages(raw, total, cores, s.cons),
        CpuCost(s.inv[node], s.cons.cpuPolicy, cores, true);
      var left := st.budgets[node];
      PlaceNew(s, b, raw, order, split, n, total, k + 1) ==
        if left.cores < cpu || left.hugepages < hp then st.(ok := false)
        else NewState(st.budgets[node := left.(cores := left.cores - cpu, hugepages := left.hugepages - hp)],
                      st.specs + [ComputeSpec(node, cores, hp)], true)
  {
  }

  /** Once a node cannot host its share the rest is abandoned. */
  lemma {:induction false} PlaceNewStops(s: Site, b: Budgets, raw: Caps, order: seq<string>, split: nat, n: nat,
      total: int, k: nat, m: nat)
    requires On(s, b) && 0 < n <= |order| && k <= m <= n && forall i :: 0 <= i < |order| ==> order[i] in s.inv
    requires !PlaceNew(s, b, raw, order, split, n, total, k).ok
    ensures PlaceNew(s, b, raw, order, split, n, total, m) == PlaceNew(s, b, raw, order, split, n, total, k)
  {
    if k < m { PlaceNewStops(s, b, raw, order, split, n, total, k, m - 1); }
  }

  method PlaceNewComputes(run: PlanRun, raw: Caps, order: seq<string>, split: nat, n: nat, total: int)
    returns (specs: seq<ComputeSpec>, ok: bool)
    requires run.Valid() && 0 < n <= |order| && forall i :: 0 <= i < |order| ==> order[i] in run.states
    modifies run.states.Values
    ensures NewState(run.Value().budgets, specs, ok) ==
      PlaceNew(run.Place(), old(run.Value()).budgets, raw, order, split, n, total, n)
  {
    hide CpuCost, PlaceNew, HugepageSizing.ComputeHugepages;
    ghost var s, b := run.Place(), run.Value().budgets;
    specs, ok := [], true;
    NoNewYet(s, b, raw, order, split, n, total);
    var base, rem := split / n, split % n;
    for i := 0 to n
      invariant NewState(run.Value().budgets, specs, true) == PlaceNew(s, b, raw, order, split, n, total, i)
    {
      var cores := base;
      if i < rem { cores := cores + 1; }
      PlaceNewNext(s, b, raw, order, split, n, total, i);
      var ns := run.states[order[i]];
      var hp := HugepageSizing.ComputeHugepages(raw, total, cores, run.cons);
      var cpu := CpuCost(ns.nc, run.cons.cpuPolicy, cores, true);
      if ns.coresFree < cpu || ns.hugepagesMiB < hp {
        PlaceNewStops(s, b, raw, order, split, n, total, i + 1, n);
        return specs, false;
      }
      ChargeCompute(run, order[i], cpu, hp);
      specs := specs + [ComputeSpec(order[i], cores, hp)];
    }
  }

  lemma NoNewYet(s: Site, b: Budgets, raw: Caps, order: seq<string>, split: nat, n: nat, total: int)
    requires On(s, b) && 0 < n <= |order| && forall i :: 0 <= i < |order| ==> order[i] in s.inv
    ensures PlaceNew(s, b, raw, order, split, n, total, 0) == NewState(b, [], true)
  {
  }

  method ResizeLaid(run: PlanRun, raw: Caps, laid: seq<Laid>, total: int) returns (specs: seq<ComputeSpec>)
    ensures specs == Resized(run.Place(), raw, laid, total)
  {
    hide HugepageSizing.ComputeHugepages;
    specs := [];
    for i := 0 to |laid|
      invariant specs == Resized(run.Place(), raw, laid[..i], total)
    {
      assert laid[..i + 1][..i] == laid[..i];
      var spec := laid[i].spec;
      if !laid[i].frozen {
        spec := spec.(hugepages := HugepageSizing.ComputeHugepages(raw, total, spec.numCores, run.cons));
      }
      specs := specs + [spec];
    }
    assert laid[..|laid|] == laid;
  }

  // ----- the whole stage -----

  /** deriveComputeLayout fed with the headroom of the eligible nodes. */
  method SizeCompute(run: PlanRun, desired: DesiredCapacity, minFds: int, compute: seq<ExistingCompute>,
      nodes: seq<string>, cpu: map<string, int>, t: int, ghost eligible: set<string>)
    returns (layout: CL.Layout)
    requires run.Valid() && Footprint(run.Place(), compute, cpu) && eligible <= run.states.Keys
    requires nodes == ComputeNodes(run.Place(), eligible)
    ensures layout == DerivedLayout(run.Place(), run.Value().budgets, desired, minFds, compute, eligible, t)
  {
    hide CL.Derive, CoreHeadrooms, HugepageHeadrooms, ComputeNodes, HugepagesFor, Footprint;
    var cores, hps := Headrooms(run, compute, nodes, cpu);
    layout := DeriveComputeLayout(desired.computeContainers, desired.computeCores, t, minFds,
      run.cons.maxCoresPerContainer,
                                  cores, Some(hps), Some(HugepagesFor(desired.raw, run.cons)));
  }

  /** Everything up to the placement of new containers; existing ones are grown on the way. */
  datatype Staged = Halted(report: Report) | Ready(cores: int, laid: seq<Laid>, order: seq<string>,
    shortfall: nat, nNew: nat)

  ghost predicate Stages(b: Budgets, staged: Staged, sizing: Sizing) {
    match sizing
    case NoSizing(report) => staged == Halted(report)
    case Sized(plan) =>
      staged == Ready(plan.cores, plan.lay.laid, plan.order, plan.shortfall, plan.nNew) && b == plan.lay.budgets
  }

  /** The choice of new containers once the existing ones are laid out. */
  ghost function Chosen(s: Site, b: Budgets, minFds: int, pinned: set<string>, laid: seq<Laid>, cores: int, hp: int,
      shortfall: nat, eligible: set<string>): Staged
    requires On(s, b) && eligible <= s.inv.Keys
  {
    var covered := CoveredFds(s, laid);
    var order := FreeOrder(s, b, pinned, eligible, cores, hp, covered);
    var nNew := if shortfall > 0 then CeilDiv(shortfall, cores) else 0;
    if nNew > |order| then Halted(Report(ComputeStage, Cores, 0)) else
      var extended := Extend(covered, FdMap(s), order, nNew, minFds);
      if |SpanAt(covered, FdMap(s), order, extended)| < minFds then Halted(Report(ComputeStage, FailureDomains, 0))
      else Ready(cores, laid, order, shortfall, extended)
  }

  method ChooseNew(run: PlanRun, minFds: int, nodes: seq<string>, pinned: set<string>, laid: seq<Laid>, cores: int,
      hp: int, shortfall: nat, ghost eligible: set<string>)
    returns (staged: Staged)
    requires run.Valid() && eligible <= run.states.Keys && Ascending(nodes) && forall x :: x in nodes <==> x in eligible
    ensures staged == Chosen(run.Place(), run.Value().budgets, minFds, pinned, laid, cores, hp, shortfall, eligible)
  {
    hide FreeOrder, CoveredFds, Extend, SpanAt, Ascending;
    var covered := CollectCovered(run, laid);
    var order := OrderFitNodes(run, nodes, pinned, covered, cores, hp, eligible);
    var nNew := 0;
    if shortfall > 0 { nNew := CeilDiv(shortfall, cores); }
    if nNew > |order| { return Halted(Report(ComputeStage, Cores, 0)); }
    var fdOf := map n | n in run.states :: run.states[n].nc.fdValue;
    assert fdOf == FdMap(run.Place());
    var span;
    nNew, span := ExtendSpan(covered, fdOf, order, nNew, minFds);
    if |span| < minFds { return Halted(Report(ComputeStage, FailureDomains, 0)); }
    return Ready(cores, laid, order, shortfall, nNew);
  }

  lemma SizeByStages(s: Site, b: Budgets, desired: DesiredCapacity, minFds: int, compute: seq<ExistingCompute>,
      eligible: set<string>, t: int)
    requires On(s, b) && eligible <= s.inv.Keys && DerivedLayout(s, b, desired, minFds, compute, eligible, t).Layout?
    ensures var layout := DerivedLayout(s, b, desired, minFds, compute, eligible, t);
      var hp := HugepageSizing.ComputeHugepages(desired.raw, layout.count, layout.cores, s.cons);
      var lay := LayOut(s, b, compute, layout.cores, hp);
      var shortfall: nat := Max(layout.count * layout.cores - LaidCores(lay.laid), 0);
      Stages(lay.budgets, Chosen(s, lay.budgets, minFds, Pinned(s, compute), lay.laid, layout.cores, hp,
        shortfall, eligible),
             Size(s, b, desired, minFds, compute, eligible, t))
  {
    hide DerivedLayout, LayOut, FreeOrder, CoveredFds, Extend, SpanAt, HugepageSizing.ComputeHugepages, LaidCores;
  }

  /** Grow or freeze the existing computes for a derived layout. */
  method StageLayout(run: PlanRun, desired: DesiredCapacity, minFds: int, compute: seq<ExistingCompute>,
      nodes: seq<string>, cpu: map<string, int>, layout: CL.Layout, ghost eligible: set<string>, ghost t: int)
    returns (staged: Staged)
    requires run.Valid() && eligible <= run.states.Keys && Ascending(nodes) && forall x :: x in nodes <==> x in eligible
    requires cpu.Keys == Pinned(run.Place(), compute) && layout.Layout?
    requires layout == DerivedLayout(run.Place(), run.Value().budgets, desired, minFds, compute, eligible, t)
    modifies run.states.Values
    ensures Stages(run.Value().budgets, staged,
      Size(run.Place(), old(run.Value()).budgets, desired, minFds, compute, eligible, t))
    ensures run.Value().budgets ==
      StagedBudgets(run.Place(), old(run.Value()).budgets, desired, minFds, compute, eligible, t)
  {
    hide DerivedLayout, LayOut, Chosen, Size, Ascending, HugepageSizing.ComputeHugepages;
    SizeByStages(run.Place(), run.Value().budgets, desired, minFds, compute, eligible, t);
    var hp := HugepageSizing.ComputeHugepages(desired.raw, layout.count, layout.cores, run.cons);
    var laid, existingCores := LayOutExistingCompute(run, compute, layout.cores, hp);
    var shortfall: nat := Max(layout.count * layout.cores - existingCores, 0);
    staged := ChooseNew(run, minFds, nodes, cpu.Keys, laid, layout.cores, hp, shortfall, eligible);
  }

  method StageCompute(run: PlanRun, desired: DesiredCapacity, minFds: int, compute: seq<ExistingCompute>,
      eligible: set<string>, t: int)
    returns (staged: Staged)
    requires run.Valid() && eligible <= run.states.Keys
    modifies run.states.Values
    ensures Stages(run.Value().budgets, staged,
      Size(run.Place(), old(run.Value()).budgets, desired, minFds, compute, eligible, t))
    ensures run.Value().budgets ==
      StagedBudgets(run.Place(), old(run.Value()).budgets, desired, minFds, compute, eligible, t)
  {
    hide DerivedLayout, LayOut, FreeOrder, CoveredFds, Extend, SpanAt, Ascending, Reclaimed;
    var nodes := SortNames(eligible);
    var cpu := Footprints(run, compute);
    assert cpu.Keys == Pinned(run.Place(), compute);
    var layout := SizeCompute(run, desired, minFds, compute, nodes, cpu, t, eligible);
    if layout.NoLayout? { return Halted(Report(ComputeStage, layout.binding, 0)); }
    hide Size;
    staged := StageLayout(run, desired, minFds, compute, nodes, cpu, layout, eligible, t);
  }

  datatype Result = Unplaced(report: Report) | Settled(layout: seq<ComputeSpec>, count: int, cores: int)

  ghost predicate Settles(b: Budgets, r: Result, o: Outcome) {
    match o
    case Failed(report) => r == Unplaced(report)
    case Placed(budgets, layout, count, cores) => r == Settled(layout, count, cores) && b == budgets
  }

  method FinishCompute(run: PlanRun, raw: Caps, staged: Staged, ghost plan: Plan) returns (r: Result)
    requires run.Valid() && staged.Ready? && Placeable(run.Place(), plan)
    requires Stages(run.Value().budgets, staged, Sized(plan))
    modifies run.states.Values
    ensures Settles(run.Value().budgets, r, Finish(run.Place(), raw, plan))
    ensures run.Value().budgets == FinishedBudgets(run.Place(), raw, plan)
  {
    hide PlaceNew, Resized, Distinct;
    var total := |staged.laid| + staged.nNew;
    var added: seq<ComputeSpec> := [];
    if staged.nNew > 0 {
      var ok;
      added, ok := PlaceNewComputes(run, raw, staged.order, Max(staged.shortfall, staged.nNew), staged.nNew, total);
      if !ok { return Unplaced(Report(ComputeStage, Hugepages, 0)); }
    }
    var kept := ResizeLaid(run, raw, staged.laid, total);
    assert kept + [] == kept;
    return Settled(kept + added, total, staged.cores);
  }

  method PlanCompute(run: PlanRun, desired: DesiredCapacity, minFds: int, compute: seq<ExistingCompute>,
      computeNodes: map<string, bool>, t: int)
    returns (r: Result)
    requires run.Valid()
    modifies run.states.Values
    ensures Settles(run.Value().budgets, r,
      ComputePlanner.PlanCompute(run.Place(), old(run.Value()).budgets, desired, minFds, compute,
        EligibleNodes(run.Place(), computeNodes), t))
    ensures run.Value().budgets ==
      BudgetsAfter(run.Place(), old(run.Value()).budgets, desired, minFds, compute,
        EligibleNodes(run.Place(), computeNodes), t)
  {
    hide Size, Finish, Placeable, StagedBudgets, FinishedBudgets;
    var eligible := CollectEligible(run, computeNodes);
    ghost var s, b := run.Place(), run.Value().budgets;
    var staged := StageCompute(run, desired, minFds, compute, eligible, t);
    if staged.Halted? { return Unplaced(staged.report); }
    SizedOrder(s, b, desired, minFds, compute, eligible, t);
    r := FinishCompute(run, desired.raw, staged, Size(s, b, desired, minFds, compute, eligible, t).plan);
  }
}
