/** What planCompute guarantees: the core floor, solvent budgets, and the guard that never fires. */
module ComputeGuarantees {
  import opened Arith
  import opened Model
  import opened NodeBudget
  import opened Ledgers
  import opened Ordering
  import opened FdSpread
  import opened ComputePlanner
  import Placement
  import Cpu
  import HugepageSizing
  import CL = ComputeLayout

  function SpecCores(specs: seq<ComputeSpec>): int {
    if specs == [] then 0 else SpecCores(specs[..|specs| - 1]) + specs[|specs| - 1].numCores
  }

  lemma {:induction false} SpecCoresConcat(a: seq<ComputeSpec>, b: seq<ComputeSpec>)
    ensures SpecCores(a + b) == SpecCores(a) + SpecCores(b)
  {
    if b == [] {
      assert a + b == a;
    } else {
      assert (a + b)[..|a + b| - 1] == a + b[..|b| - 1];
      SpecCoresConcat(a, b[..|b| - 1]);
    }
  }

  lemma {:induction false} ResizedKeepsCores(s: Site, raw: Caps, laid: seq<Laid>, total: int)
    ensures SpecCores(Resized(s, raw, laid, total)) == LaidCores(laid)
    ensures |Resized(s, raw, laid, total)| == |laid|
    ensures forall i :: 0 <= i < |laid| ==> Resized(s, raw, laid, total)[i].node == laid[i].spec.node
  {
    hide HugepageSizing.ComputeHugepages;
    if laid != [] {
      var init := laid[..|laid| - 1];
      ResizedKeepsCores(s, raw, init, total);
      var r := Resized(s, raw, laid, total);
      assert r[..|r| - 1] == Resized(s, raw, init, total);
    }
  }

  /** While it succeeds, placing new containers hands out exactly the shares so far, one per node. */
  lemma {:induction false} NewSpecs(s: Site, b: Budgets, raw: Caps, order: seq<string>, split: nat, n: nat, total: int,
      k: nat)
    requires On(s, b) && 0 < n <= |order| && k <= n && forall i :: 0 <= i < |order| ==> order[i] in s.inv
    requires PlaceNew(s, b, raw, order, split, n, total, k).ok
    ensures var specs := PlaceNew(s, b, raw, order, split, n, total, k).specs;
      && |specs| == k && SpecCores(specs) == Placement.SumShares(split, n, k)
      && forall i :: 0 <= i < k ==> specs[i].node == order[i] && specs[i].numCores == Placement.Share(split, n, i)
  {
    hide HugepageSizing.ComputeHugepages, CpuCost;
    if k > 0 {
      NewSpecs(s, b, raw, order, split, n, total, k - 1);
      var r := PlaceNew(s, b, raw, order, split, n, total, k);
      assert r.specs[..|r.specs| - 1] == PlaceNew(s, b, raw, order, split, n, total, k - 1).specs;
    }
  }

  /** What sizing fixes for the placement that follows. */
  ghost predicate SizedFor(s: Site, b: Budgets, desired: DesiredCapacity, minFds: int, compute: seq<ExistingCompute>,
      t: int, p: Plan)
    requires On(s, b)
  {
    && Placeable(s, p)
    && p.count >= 1 && p.cores >= 1 && p.count * p.cores >= t
    && p.count * p.cores - LaidCores(p.lay.laid) <= p.shortfall <= p.nNew * p.cores
    && p.hp == HugepageSizing.ComputeHugepages(desired.raw, p.count, p.cores, s.cons)
    && p.lay == LayOut(s, b, compute, p.cores, p.hp)
    && p.covered == CoveredFds(s, p.lay.laid)
    && |SpanAt(p.covered, FdMap(s), p.order, p.nNew)| >= minFds
    && forall i :: 0 <= i < |p.order| ==>
      p.order[i] !in Pinned(s, compute) && Hosts(s, p.lay.budgets, p.order[i], p.cores, p.hp)
  }

  lemma SizedCount(s: Site, b: Budgets, desired: DesiredCapacity, minFds: int, compute: seq<ExistingCompute>,
      eligible: set<string>, t: int)
    requires On(s, b) && eligible <= s.inv.Keys && PinsUsable(desired) && t >= 0
    ensures match DerivedLayout(s, b, desired, minFds, compute, eligible, t)
      case Layout(count, cores) => count >= 1 && cores >= 1 && count * cores >= t
      case NoLayout(_) => true
  {
    hide CL.Derive, ComputeNodes, CoreHeadrooms, HugepageHeadrooms, HugepagesFor;
    var nodes := ComputeNodes(s, eligible);
    CL.DeriveSupplies(desired.computeContainers, desired.computeCores, t, minFds, s.cons.maxCoresPerContainer,
      CoreHeadrooms(s, b, compute, nodes), Some(HugepageHeadrooms(s, b, compute, nodes)),
      Some(HugepagesFor(desired.raw, s.cons)));
  }

  lemma CoveredShortfall(shortfall: nat, cores: int, nNew: nat)
    requires cores >= 1 && nNew >= if shortfall > 0 then CeilDiv(shortfall, cores) else 0
    ensures shortfall <= nNew * cores
  {
    CeilDivAdjoint(shortfall, cores, nNew);
    MulMono(0, nNew, cores);
  }

  lemma SizedNumbers(s: Site, b: Budgets, desired: DesiredCapacity, minFds: int, compute: seq<ExistingCompute>,
      eligible: set<string>, t: int)
    requires On(s, b) && eligible <= s.inv.Keys && PinsUsable(desired) && t >= 0
    requires Size(s, b, desired, minFds, compute, eligible, t).Sized?
    ensures SizedFor(s, b, desired, minFds, compute, t, Size(s, b, desired, minFds, compute, eligible, t).plan)
  {
    hide DerivedLayout, LayOut, HugepageSizing.ComputeHugepages, Hosts, SpanAt, Pinned, FreeOrder, Extend, LaidCores,
      CoveredFds, CeilDiv;
    SizedCount(s, b, desired, minFds, compute, eligible, t);
    SizedOrder(s, b, desired, minFds, compute, eligible, t);
    var p := Size(s, b, desired, minFds, compute, eligible, t).plan;
    CoveredShortfall(p.shortfall, p.cores, p.nNew);
    forall i | 0 <= i < |p.order|
      ensures p.order[i] !in Pinned(s, compute) && Hosts(s, p.lay.budgets, p.order[i], p.cores, p.hp) {
      assert p.order[i] in p.order;
    }
  }

  /** The core floor of the compute stage: the layout supplies at least the required cores. */
  lemma FinishSuppliesCores(s: Site, raw: Caps, p: Plan, t: int)
    requires Placeable(s, p) && p.cores >= 1 && p.count * p.cores >= t
    requires p.count * p.cores - LaidCores(p.lay.laid) <= p.shortfall <= p.nNew * p.cores
    requires Finish(s, raw, p).Placed?
    ensures SpecCores(Finish(s, raw, p).layout) >= t
  {
    hide Finish, LaidCores;
    FinishCores(s, raw, p);
  }

  // ----- the core floor, also with two negative pins -----

  predicate NonNegativeComputes(compute: seq<ExistingCompute>) {
    forall c :: c in compute ==> c.numCores >= 0 && c.hugepages >= 0
  }

  /** Cores of the existing computes when the uniform target is below anything they hold. */
  function KeptCores(s: Site, compute: seq<ExistingCompute>, cores: int): int {
    if compute == [] then 0 else
      var c := compute[|compute| - 1];
      KeptCores(s, compute[..|compute| - 1], cores) +
      if !Resident(s, c) then 0 else if c.unscheduled || !s.cons.allowInPlaceGrowth then c.numCores else cores
  }

  /**
   * The pins lead to enough cores: they are not both negative, or the existing computes span too few failure domains,
   * so that containers are added for the whole shortfall, or what the existing ones keep suffices.
   */
  predicate PinsServe(s: Site, desired: DesiredCapacity, minFds: int, compute: seq<ExistingCompute>, t: int) {
    || PinsUsable(desired) || |FdsOf(s, Pinned(s, compute))| < minFds
    || KeptCores(s, compute, desired.computeCores) >= t
  }

  lemma {:induction false} LaidKept(s: Site, b: Budgets, compute: seq<ExistingCompute>, cores: int, hp: int)
    requires On(s, b) && NonNegativeComputes(compute) && cores <= 0 && hp <= 0
    ensures LaidCores(LayOut(s, b, compute, cores, hp).laid) == KeptCores(s, compute, cores)
  {
    hide CpuCost, GrownBudget;
    if compute != [] {
      var init, c := compute[..|compute| - 1], compute[|compute| - 1];
      assert compute == init + [c];
      LaidKept(s, b, init, cores, hp);
      var st := LayOut(s, b, init, cores, hp);
      if Resident(s, c) {
        var laid := LayOut(s, b, compute, cores, hp).laid;
        assert laid[..|laid| - 1] == st.laid;
      }
    }
  }

  lemma {:induction false} LaidNodes(s: Site, b: Budgets, compute: seq<ExistingCompute>, cores: int, hp: int)
    requires On(s, b)
    ensures forall n :: n in Pinned(s, compute) <==>
      exists x :: x in LayOut(s, b, compute, cores, hp).laid && x.spec.node == n
  {
    hide CpuCost, GrownBudget, Frozen;
    if compute != [] {
      var init, c := compute[..|compute| - 1], compute[|compute| - 1];
      assert compute == init + [c];
      LaidNodes(s, b, init, cores, hp);
      var kept, laid := LayOut(s, b, init, cores, hp).laid, LayOut(s, b, compute, cores, hp).laid;
      assert Pinned(s, compute) == Pinned(s, init) + if Resident(s, c) then {c.node} else {};
      assert laid == if Resident(s, c) then kept + [laid[|kept|]] else kept;
      if Resident(s, c) { assert laid[|kept|].spec.node == c.node && laid[|kept|] in laid; }
    }
  }

  lemma LaidFds(s: Site, b: Budgets, compute: seq<ExistingCompute>, cores: int, hp: int)
    requires On(s, b)
    ensures CoveredFds(s, LayOut(s, b, compute, cores, hp).laid) == FdsOf(s, Pinned(s, compute))
  {
    LaidNodes(s, b, compute, cores, hp);
    hide LayOut;
    var laid := LayOut(s, b, compute, cores, hp).laid;
    forall fd ensures fd in CoveredFds(s, laid) <==> fd in FdsOf(s, Pinned(s, compute)) {
      if fd in FdsOf(s, Pinned(s, compute)) {
        var n :| n in Pinned(s, compute) && n in s.inv && s.inv[n].fdValue == fd;
        var x :| x in laid && x.spec.node == n;
      }
    }
  }

  /** What the finished layout supplies: the existing computes' cores, and the split over the added ones. */
  lemma FinishCores(s: Site, raw: Caps, p: Plan)
    requires Placeable(s, p) && Finish(s, raw, p).Placed?
    ensures SpecCores(Finish(s, raw, p).layout) ==
      LaidCores(p.lay.laid) + if p.nNew > 0 then Max(p.shortfall, p.nNew) else 0
  {
    var total := |p.lay.laid| + p.nNew;
    ResizedKeepsCores(s, raw, p.lay.laid, total);
    if p.nNew > 0 {
      var split := Max(p.shortfall, p.nNew);
      NewSpecs(s, p.lay.budgets, raw, p.order, split, p.nNew, total, p.nNew);
      Placement.SharesExact(split, p.nNew);
      SpecCoresConcat(Resized(s, raw, p.lay.laid, total),
        PlaceNew(s, p.lay.budgets, raw, p.order, split, p.nNew, total, p.nNew).specs);
    }
  }

  /** The parts of a sizing, whatever the pins. */
  lemma SizedParts(s: Site, b: Budgets, desired: DesiredCapacity, minFds: int, compute: seq<ExistingCompute>,
      eligible: set<string>, t: int)
    requires On(s, b) && eligible <= s.inv.Keys && Size(s, b, desired, minFds, compute, eligible, t).Sized?
    ensures var p := Size(s, b, desired, minFds, compute, eligible, t).plan;
      && DerivedLayout(s, b, desired, minFds, compute, eligible, t) == CL.Layout(p.count, p.cores)
      && p.hp == HugepageSizing.ComputeHugepages(desired.raw, p.count, p.cores, s.cons)
      && p.lay == LayOut(s, b, compute, p.cores, p.hp) && p.covered == CoveredFds(s, p.lay.laid)
      && p.shortfall == Max(p.count * p.cores - LaidCores(p.lay.laid), 0)
      && Resolved(FdMap(s), p.order) && p.nNew <= |p.order|
      && |SpanAt(p.covered, FdMap(s), p.order, p.nNew)| >= minFds
      && (p.cores < 0 ==> p.nNew == Extend(p.covered, FdMap(s), p.order, 0, minFds))
  {
    hide DerivedLayout, LayOut, HugepageSizing.ComputeHugepages, Pinned, FreeOrder, LaidCores, CoveredFds, Extend,
      SpanAt;
  }

  lemma ExtendFromNone(covered: set<string>, fdOf: map<string, string>, order: seq<string>, minFds: int)
    requires Resolved(fdOf, order)
    ensures var m := Extend(covered, fdOf, order, 0, minFds);
      |SpanAt(covered, fdOf, order, m)| >= minFds ==> (m > 0 <==> |covered| < minFds)
  {
    assert SpanAt(covered, fdOf, order, 0) == covered;
  }

  /** What sizing fixes under two negative pins. */
  lemma NegativeSizing(s: Site, b: Budgets, desired: DesiredCapacity, minFds: int, compute: seq<ExistingCompute>,
      eligible: set<string>, t: int)
    requires On(s, b) && eligible <= s.inv.Keys && !PinsUsable(desired) && t >= 0
    requires NonNegativeComputes(compute) && s.cons.computeDpdkPerCore >= 0
    requires Size(s, b, desired, minFds, compute, eligible, t).Sized?
    ensures var p := Size(s, b, desired, minFds, compute, eligible, t).plan;
      && LaidCores(p.lay.laid) == KeptCores(s, compute, desired.computeCores)
      && (p.nNew > 0 <==> |FdsOf(s, Pinned(s, compute))| < minFds)
      && p.shortfall + LaidCores(p.lay.laid) >= t
  {
    NegativeLayout(s, b, desired, minFds, compute, eligible, t);
    SizedParts(s, b, desired, minFds, compute, eligible, t);
    var p := Size(s, b, desired, minFds, compute, eligible, t).plan;
    hide Size, DerivedLayout, LayOut, HugepageSizing.ComputeHugepages, Pinned, LaidCores, CoveredFds, FdsOf, KeptCores,
      Extend, SpanAt, Resolved, NonNegativeComputes;
    NegativeHugepages(desired.raw, p.count, p.cores, s.cons);
    LaidKept(s, b, compute, p.cores, p.hp);
    LaidFds(s, b, compute, p.cores, p.hp);
    ExtendFromNone(p.covered, FdMap(s), p.order, minFds);
  }

  lemma NegativeLayout(s: Site, b: Budgets, desired: DesiredCapacity, minFds: int, compute: seq<ExistingCompute>,
      eligible: set<string>, t: int)
    requires On(s, b) && eligible <= s.inv.Keys && !PinsUsable(desired) && t >= 0
    ensures match DerivedLayout(s, b, desired, minFds, compute, eligible, t)
      case Layout(count, cores) =>
        count == desired.computeContainers && cores == desired.computeCores && count * cores >= t
      case NoLayout(_) => true
  {
    hide CL.Derive, ComputeNodes, CoreHeadrooms, HugepageHeadrooms, HugepagesFor;
    var nodes := ComputeNodes(s, eligible);
    CL.DeriveSupplies(desired.computeContainers, desired.computeCores, t, minFds, s.cons.maxCoresPerContainer,
      CoreHeadrooms(s, b, compute, nodes), Some(HugepageHeadrooms(s, b, compute, nodes)),
      Some(HugepagesFor(desired.raw, s.cons)));
  }

  lemma NegativeHugepages(raw: Caps, count: int, cores: int, cons: Constraints)
    requires count < 0 && cores < 0 && cons.computeDpdkPerCore >= 0
    ensures HugepageSizing.ComputeHugepages(raw, count, cores, cons) <= 0
  {
    MulMono(0, -cores, cons.computeDpdkPerCore);
    assert cons.computeDpdkPerCore * cores <= 0;
    hide HugepageSizing.ClusterHugepages;
  }

  lemma NegativeSupplies(s: Site, b: Budgets, desired: DesiredCapacity, minFds: int, compute: seq<ExistingCompute>,
      eligible: set<string>, t: int)
    requires On(s, b) && eligible <= s.inv.Keys && t >= 0 && !PinsUsable(desired)
    requires NonNegativeComputes(compute) && s.cons.computeDpdkPerCore >= 0
    requires PlanCompute(s, b, desired, minFds, compute, eligible, t).Placed?
    ensures SpecCores(PlanCompute(s, b, desired, minFds, compute, eligible, t).layout) >= t <==>
      PinsServe(s, desired, minFds, compute, t)
  {
    hide Size, Finish, KeptCores, Pinned, FdsOf, LaidCores, NonNegativeComputes, Placeable;
    SizedOrder(s, b, desired, minFds, compute, eligible, t);
    NegativeSizing(s, b, desired, minFds, compute, eligible, t);
    FinishCores(s, desired.raw, Size(s, b, desired, minFds, compute, eligible, t).plan);
  }

  lemma UsableSupplies(s: Site, b: Budgets, desired: DesiredCapacity, minFds: int, compute: seq<ExistingCompute>,
      eligible: set<string>, t: int)
    requires On(s, b) && eligible <= s.inv.Keys && t >= 0 && PinsUsable(desired)
    requires PlanCompute(s, b, desired, minFds, compute, eligible, t).Placed?
    ensures SpecCores(PlanCompute(s, b, desired, minFds, compute, eligible, t).layout) >= t
  {
    hide Size, Finish, HugepageSizing.ComputeHugepages, LayOut, SpanAt, LaidCores, Pinned, CoveredFds;
    SizedNumbers(s, b, desired, minFds, compute, eligible, t);
    FinishSuppliesCores(s, desired.raw, Size(s, b, desired, minFds, compute, eligible, t).plan, t);
  }

  /** A placed layout supplies the required cores exactly when the pins serve, as they do unless both are negative. */
  lemma LayoutSuppliesCores(s: Site, b: Budgets, desired: DesiredCapacity, minFds: int, compute: seq<ExistingCompute>,
      eligible: set<string>, t: int)
    requires On(s, b) && eligible <= s.inv.Keys && t >= 0
    requires PlanCompute(s, b, desired, minFds, compute, eligible, t).Placed?
    ensures var cores := SpecCores(PlanCompute(s, b, desired, minFds, compute, eligible, t).layout);
      && (PinsUsable(desired) ==> cores >= t)
      && (NonNegativeComputes(compute) && s.cons.computeDpdkPerCore >= 0 ==>
           (cores >= t <==> PinsServe(s, desired, minFds, compute, t)))
  {
    hide PlanCompute, NonNegativeComputes, KeptCores, Pinned, FdsOf, SpecCores;
    if PinsUsable(desired) {
      UsableSupplies(s, b, desired, minFds, compute, eligible, t);
    } else if NonNegativeComputes(compute) && s.cons.computeDpdkPerCore >= 0 {
      NegativeSupplies(s, b, desired, minFds, compute, eligible, t);
    }
  }

  // ----- budgets stay solvent -----

  predicate Solvent(b: Budgets) { forall n :: n in b ==> b[n].cores >= 0 && b[n].hugepages >= 0 }

  lemma {:induction false} LayOutSolvent(s: Site, b: Budgets, compute: seq<ExistingCompute>, cores: int, hp: int)
    requires On(s, b) && Solvent(b)
    ensures Solvent(LayOut(s, b, compute, cores, hp).budgets)
  {
    hide CpuCost;
    if compute != [] { LayOutSolvent(s, b, compute[..|compute| - 1], cores, hp); }
  }

  lemma {:induction false} PlaceNewSolvent(s: Site, b: Budgets, raw: Caps, order: seq<string>, split: nat, n: nat,
      total: int, k: nat)
    requires On(s, b) && 0 < n <= |order| && k <= n && forall i :: 0 <= i < |order| ==> order[i] in s.inv
    requires Solvent(b)
    ensures Solvent(PlaceNew(s, b, raw, order, split, n, total, k).budgets)
  {
    hide CpuCost, HugepageSizing.ComputeHugepages, Placement.Share;
    if k > 0 { PlaceNewSolvent(s, b, raw, order, split, n, total, k - 1); }
  }

  /** Growing, freezing and placing computes never overdraws a node's CPU or hugepages. */
  lemma ComputeKeepsSolvent(s: Site, b: Budgets, desired: DesiredCapacity, minFds: int, compute: seq<ExistingCompute>,
      eligible: set<string>, t: int)
    requires On(s, b) && eligible <= s.inv.Keys && Solvent(b)
    requires PlanCompute(s, b, desired, minFds, compute, eligible, t).Placed?
    ensures Solvent(PlanCompute(s, b, desired, minFds, compute, eligible, t).budgets)
    ensures On(s, PlanCompute(s, b, desired, minFds, compute, eligible, t).budgets)
  {
    hide Size, LayOut, PlaceNew, Resized, Hosts, Pinned;
    SizedOrder(s, b, desired, minFds, compute, eligible, t);
    SizedLay(s, b, desired, minFds, compute, eligible, t);
    var p := Size(s, b, desired, minFds, compute, eligible, t).plan;
    LayOutSolvent(s, b, compute, p.cores, p.hp);
    if p.nNew > 0 {
      PlaceNewSolvent(s, p.lay.budgets, desired.raw, p.order, Max(p.shortfall, p.nNew), p.nNew, |p.lay.laid| +
        p.nNew, p.nNew);
    }
  }

  /** However the stage ends, no CPU or hugepage budget is negative. */
  lemma StageKeepsSolvent(s: Site, b: Budgets, desired: DesiredCapacity, minFds: int, compute: seq<ExistingCompute>,
      eligible: set<string>, t: int)
    requires On(s, b) && eligible <= s.inv.Keys && Solvent(b)
    ensures Solvent(BudgetsAfter(s, b, desired, minFds, compute, eligible, t))
  {
    hide DerivedLayout, LayOut, PlaceNew, Size, Solvent, HugepageSizing.ComputeHugepages;
    var layout := DerivedLayout(s, b, desired, minFds, compute, eligible, t);
    if layout.Layout? {
      LayOutSolvent(s, b, compute, layout.cores,
        HugepageSizing.ComputeHugepages(desired.raw, layout.count, layout.cores, s.cons));
    }
    if Size(s, b, desired, minFds, compute, eligible, t).Sized? {
      var p := Size(s, b, desired, minFds, compute, eligible, t).plan;
      SizedOrder(s, b, desired, minFds, compute, eligible, t);
      SizedLay(s, b, desired, minFds, compute, eligible, t);
      LayOutSolvent(s, b, compute, p.cores, p.hp);
      if p.nNew > 0 {
        PlaceNewSolvent(s, p.lay.budgets, desired.raw, p.order, Max(p.shortfall, p.nNew), p.nNew, |p.lay.laid| +
          p.nNew, p.nNew);
      }
    }
  }

  lemma SizedLay(s: Site, b: Budgets, desired: DesiredCapacity, minFds: int, compute: seq<ExistingCompute>,
      eligible: set<string>, t: int)
    requires On(s, b) && eligible <= s.inv.Keys
    requires Size(s, b, desired, minFds, compute, eligible, t).Sized?
    ensures var p := Size(s, b, desired, minFds, compute, eligible, t).plan;
      p.lay == LayOut(s, b, compute, p.cores, p.hp)
  {
    hide LayOut, FreeOrder, DerivedLayout;
  }

  // ----- the guard on new containers never fires -----

  /** No existing compute is larger than the uniform target. */
  ghost predicate WithinTarget(s: Site, compute: seq<ExistingCompute>, cores: int) {
    forall c :: c in compute && Resident(s, c) ==> c.numCores <= cores
  }

  lemma LaidOneWithin(s: Site, st: LayState, c: ExistingCompute, cores: int, hp: int)
    requires On(s, st.budgets) && (Resident(s, c) ==> c.numCores <= cores) && LaidCores(st.laid) <= |st.laid| * cores
    ensures var laid := LayOne(s, st, c, cores, hp).laid; LaidCores(laid) <= |laid| * cores
  {
    hide CpuCost, Frozen, GrownBudget, Resident;
    var laid := LayOne(s, st, c, cores, hp).laid;
    if laid != st.laid {
      assert laid[..|laid| - 1] == st.laid;
      assert |laid| * cores == |st.laid| * cores + cores;
    }
  }

  lemma {:induction false} LaidWithin(s: Site, b: Budgets, compute: seq<ExistingCompute>, cores: int, hp: int)
    requires On(s, b) && WithinTarget(s, compute, cores)
    ensures var laid := LayOut(s, b, compute, cores, hp).laid; LaidCores(laid) <= |laid| * cores
  {
    hide LayOne, LaidCores, Resident;
    if compute == [] {
      assert LaidCores([]) == 0 by { NoneLaid(); }
    } else {
      var init := compute[..|compute| - 1];
      assert compute == init + [compute[|compute| - 1]];
      LaidWithin(s, b, init, cores, hp);
      LaidOneWithin(s, LayOut(s, b, init, cores, hp), compute[|compute| - 1], cores, hp);
    }
  }

  lemma NoneLaid()
    ensures LaidCores([]) == 0
  {
  }

  lemma ShareWithin(split: nat, n: nat, i: nat, cores: int)
    requires n > 0 && i < n && split <= n * cores
    ensures Placement.Share(split, n, i) <= cores
  {
    var base, rem := split / n, split % n;
    assert split == base * n + rem;
    if base > cores {
      MulMono(cores + 1, base, n);
      assert (cores + 1) * n == cores * n + n;
    } else if base == cores {
      assert rem == 0;
    }
  }

  /** Nodes later in the order are untouched by the containers placed so far. */
  lemma {:induction false} PlaceNewLocal(s: Site, b: Budgets, raw: Caps, order: seq<string>, split: nat, n: nat,
      total: int, k: nat, m: string)
    requires On(s, b) && 0 < n <= |order| && k <= n && forall i :: 0 <= i < |order| ==> order[i] in s.inv
    requires m in s.inv && m !in order[..k]
    ensures PlaceNew(s, b, raw, order, split, n, total, k).budgets[m] == b[m]
  {
    hide CpuCost, HugepageSizing.ComputeHugepages, Placement.Share;
    if k > 0 {
      assert order[..k] == order[..k - 1] + [order[k - 1]];
      PlaceNewLocal(s, b, raw, order, split, n, total, k - 1, m);
    }
  }

  /** The chosen node has the CPU and the hugepages of its share at the final container count. */
  predicate ShareFits(s: Site, b: Budgets, raw: Caps, node: string, share: nat, total: int)
    requires On(s, b) && node in s.inv
  {
    && CpuCost(s.inv[node], s.cons.cpuPolicy, share, true) <= b[node].cores
    && HugepageSizing.ComputeHugepages(raw, total, share, s.cons) <= b[node].hugepages
  }

  lemma GuardNext(s: Site, b: Budgets, raw: Caps, order: seq<string>, split: nat, n: nat, total: int, k: nat)
    requires On(s, b) && 0 < n <= |order| && k < n && forall i :: 0 <= i < |order| ==> order[i] in s.inv
    requires Distinct(order)
    ensures PlaceNew(s, b, raw, order, split, n, total, k + 1).ok <==>
      && PlaceNew(s, b, raw, order, split, n, total, k).ok
      && ShareFits(s, b, raw, order[k], Placement.Share(split, n, k), total)
  {
    PlaceNewLocal(s, b, raw, order, split, n, total, k, order[k]);
    hide Placement.Share, HugepageSizing.ComputeHugepages, CpuCost;
  }

  lemma NoneRefused(s: Site, b: Budgets, raw: Caps, order: seq<string>, split: nat, n: nat, total: int)
    requires On(s, b) && 0 < n <= |order| && forall i :: 0 <= i < |order| ==> order[i] in s.inv
    ensures PlaceNew(s, b, raw, order, split, n, total, 0).ok
  {
  }

  lemma {:induction false} ResizedAt(s: Site, raw: Caps, laid: seq<Laid>, total: int, i: nat)
    requires i < |laid|
    ensures |Resized(s, raw, laid, total)| == |laid|
    ensures Resized(s, raw, laid, total)[i] ==
      if laid[i].frozen then laid[i].spec
      else laid[i].spec.(hugepages := HugepageSizing.ComputeHugepages(raw, total, laid[i].spec.numCores, s.cons))
  {
    ResizedKeepsCores(s, raw, laid, total);
    ResizedKeepsCores(s, raw, laid[..|laid| - 1], total);
    if i < |laid| - 1 { ResizedAt(s, raw, laid[..|laid| - 1], total, i); }
  }

  /** Every grown compute is laid out at the uniform size. */
  lemma {:induction false} GrownUniform(s: Site, b: Budgets, compute: seq<ExistingCompute>, cores: int, hp: int, i: nat)
    requires On(s, b) && i < |LayOut(s, b, compute, cores, hp).laid| && !LayOut(s, b, compute, cores, hp).laid[i].frozen
    ensures var spec := LayOut(s, b, compute, cores, hp).laid[i].spec; spec.numCores == cores && spec.hugepages == hp
  {
    hide Frozen, GrownBudget;
    if compute != [] {
      var init := compute[..|compute| - 1];
      if i < |LayOut(s, b, init, cores, hp).laid| { GrownUniform(s, b, init, cores, hp, i); }
    }
  }

  /** Going from `count` containers to `total` of the same cores needs no more hugepages for each. */
  predicate CountKeeps(raw: Caps, count: int, total: int, cores: int, cons: Constraints) {
    || 1 <= count <= total
    || HugepageSizing.Uncapped(raw, total, cores, cons) == HugepageSizing.Uncapped(raw, count, cores, cons)
    || 0 < cons.computeMaxHugepages <= HugepageSizing.Uncapped(raw, count, cores, cons)
  }

  lemma FinishGrown(s: Site, raw: Caps, p: Plan, i: nat)
    requires Placeable(s, p) && Finish(s, raw, p).Placed? && raw.tlc >= 0 && raw.qlc >= 0
    requires p.hp == HugepageSizing.ComputeHugepages(raw, p.count, p.cores, s.cons)
    requires i < |p.lay.laid| && !p.lay.laid[i].frozen && p.lay.laid[i].spec.numCores == p.cores
    ensures var r := Finish(s, raw, p);
      && i < |r.layout| && r.layout[i].node == p.lay.laid[i].spec.node
      && (r.layout[i].hugepages <= p.hp <==> CountKeeps(raw, p.count, r.count, p.cores, s.cons))
  {
    hide PlaceNew, Resized, HugepageSizing.ComputeHugepages, HugepageSizing.Uncapped, Resolved, Distinct;
    ResizedAt(s, raw, p.lay.laid, |p.lay.laid| + p.nNew, i);
    HugepageSizing.HugepagesWithin(raw, p.count, |p.lay.laid| + p.nNew, p.cores, s.cons);
  }

  /**
   * In every placed stage a grown compute is emitted within the hugepages reserved for it exactly when the final count
   * is at least the derived one and that is positive, both counts need the same before the cap, or the derived one is
   * at the cap.
   */
  lemma GrownWithinReserved(s: Site, b: Budgets, desired: DesiredCapacity, minFds: int, compute: seq<ExistingCompute>,
      eligible: set<string>, t: int, i: nat)
    requires On(s, b) && eligible <= s.inv.Keys && desired.raw.tlc >= 0 && desired.raw.qlc >= 0
    requires PlanCompute(s, b, desired, minFds, compute, eligible, t).Placed?
    requires var laid := Size(s, b, desired, minFds, compute, eligible, t).plan.lay.laid; i < |laid| && !laid[i].frozen
    ensures var p, r := Size(s, b, desired, minFds, compute, eligible, t).plan,
        PlanCompute(s, b, desired, minFds, compute, eligible, t);
      && i < |r.layout| && r.layout[i].node == p.lay.laid[i].spec.node && p.lay.laid[i].spec.hugepages == p.hp
      && (r.layout[i].hugepages <= p.hp <==> CountKeeps(desired.raw, p.count, r.count, p.cores, s.cons))
  {
    SizedParts(s, b, desired, minFds, compute, eligible, t);
    SizedOrder(s, b, desired, minFds, compute, eligible, t);
    var p := Size(s, b, desired, minFds, compute, eligible, t).plan;
    hide Size, LayOut, Finish, Hosts, Pinned, HugepageSizing.ComputeHugepages, SpanAt, LaidCores, Placeable, CoveredFds,
      DerivedLayout, Extend;
    GrownUniform(s, b, compute, p.cores, p.hp, i);
    FinishGrown(s, desired.raw, p, i);
  }

  /** New containers are placed exactly when each chosen node, on its own budget, has room for its share. */
  lemma {:induction false} GuardExact(s: Site, b: Budgets, raw: Caps, order: seq<string>, split: nat, n: nat,
      total: int, k: nat)
    requires On(s, b) && 0 < n <= |order| && k <= n && forall i :: 0 <= i < |order| ==> order[i] in s.inv
    requires Distinct(order)
    ensures PlaceNew(s, b, raw, order, split, n, total, k).ok <==>
      forall i :: 0 <= i < k ==> ShareFits(s, b, raw, order[i], Placement.Share(split, n, i), total)
  {
    hide PlaceNew, Placement.Share, ShareFits, Distinct;
    if k == 0 {
      NoneRefused(s, b, raw, order, split, n, total);
    } else {
      GuardExact(s, b, raw, order, split, n, total, k - 1);
      GuardNext(s, b, raw, order, split, n, total, k - 1);
    }
  }

  /** Every chosen node has the CPU and the hugepages of its share, at the final container count. */
  predicate NewSharesFit(s: Site, raw: Caps, p: Plan)
    requires Placeable(s, p)
  {
    forall i :: 0 <= i < p.nNew ==>
      ShareFits(s, p.lay.budgets, raw, p.order[i], Placement.Share(Max(p.shortfall, p.nNew), p.nNew, i),
        |p.lay.laid| + p.nNew)
  }

  lemma FinishGuard(s: Site, raw: Caps, p: Plan)
    requires Placeable(s, p)
    ensures Finish(s, raw, p).Placed? <==> NewSharesFit(s, raw, p)
    ensures Finish(s, raw, p).Failed? ==> Finish(s, raw, p).report == Report(ComputeStage, Hugepages, 0)
  {
    hide PlaceNew, Resized, ShareFits, Resolved, Placement.Share, Distinct;
    if p.nNew > 0 {
      GuardExact(s, p.lay.budgets, raw, p.order, Max(p.shortfall, p.nNew), p.nNew, |p.lay.laid| + p.nNew, p.nNew);
    }
  }

  lemma CpuSuffices(s: Site, b: Budgets, n: string, share: nat, cores: int, hp: int)
    requires On(s, b) && Hosts(s, b, n, cores, hp) && share <= cores
    ensures CpuCost(s.inv[n], s.cons.cpuPolicy, share, true) <= b[n].cores
  {
    Cpu.CostMonotone(s.cons.cpuPolicy, Topo(s.inv[n]), share, cores);
    hide Cpu.ModelFor;
  }

  /** When the final count reaches the derived one, every new container fits the node picked for it. */
  lemma HostsHugepages(s: Site, b: Budgets, n: string, cores: int, hp: int)
    requires On(s, b) && Hosts(s, b, n, cores, hp)
    ensures n in s.inv && b[n].hugepages >= hp
  {
  }

  lemma NewAllFit(s: Site, raw: Caps, p: Plan)
    requires Placeable(s, p) && 0 < p.nNew && p.cores >= 1 && 1 <= p.count <= |p.lay.laid| + p.nNew
    requires p.shortfall <= p.nNew * p.cores && raw.tlc >= 0 && raw.qlc >= 0 && s.cons.computeDpdkPerCore >= 0
    requires p.hp == HugepageSizing.ComputeHugepages(raw, p.count, p.cores, s.cons)
    requires forall i :: 0 <= i < |p.order| ==> Hosts(s, p.lay.budgets, p.order[i], p.cores, p.hp)
    ensures Finish(s, raw, p).Placed?
  {
    hide PlaceNew, Resized, Hosts, HugepageSizing.ComputeHugepages, Resolved;
    var total := |p.lay.laid| + p.nNew;
    forall c | 0 <= c <= p.cores ensures HugepageSizing.ComputeHugepages(raw, total, c, s.cons) <= p.hp {
      HugepageSizing.HugepagesShrink(raw, p.count, p.cores, total, c, s.cons);
    }
    MulMono(1, p.cores, p.nNew);
    forall i | 0 <= i < p.nNew
      ensures HugepageSizing.ComputeHugepages(raw, total, Placement.Share(Max(p.shortfall, p.nNew), p.nNew, i),
        s.cons) <= p.lay.budgets[p.order[i]].hugepages
    {
      ShareWithin(Max(p.shortfall, p.nNew), p.nNew, i, p.cores);
      HostsHugepages(s, p.lay.budgets, p.order[i], p.cores, p.hp);
    }
    FinishExact(s, raw, p);
  }

  /** Finishing a well-sized plan whose existing computes are within the target always succeeds. */
  lemma FinishSucceeds(s: Site, b: Budgets, desired: DesiredCapacity, minFds: int, compute: seq<ExistingCompute>,
      t: int, p: Plan)
    requires On(s, b) && SizedFor(s, b, desired, minFds, compute, t, p)
    requires desired.raw.tlc >= 0 && desired.raw.qlc >= 0 && s.cons.computeDpdkPerCore >= 0
    requires WithinTarget(s, compute, p.cores)
    ensures Finish(s, desired.raw, p).Placed?
  {
    hide LayOut, SpanAt, PlaceNew, Resized, Hosts, WithinTarget, HugepageSizing.ComputeHugepages, LaidCores, Pinned,
      Resolved;
    if p.nNew > 0 {
      LaidWithin(s, b, compute, p.cores, p.hp);
      CountGrows(p.count, p.cores, |p.lay.laid|, LaidCores(p.lay.laid), p.nNew, p.shortfall);
      NewAllFit(s, desired.raw, p);
    }
  }

  /** Every chosen node has the hugepages of its share, at the final container count. */
  predicate NewHugepagesFit(s: Site, raw: Caps, p: Plan)
    requires Placeable(s, p)
  {
    forall i :: 0 <= i < p.nNew ==>
      HugepageSizing.ComputeHugepages(raw, |p.lay.laid| + p.nNew,
        Placement.Share(Max(p.shortfall, p.nNew), p.nNew, i), s.cons)
        <= p.lay.budgets[p.order[i]].hugepages
  }

  /** With positive cores every chosen node passed the uniform footprint, so only hugepages can be short. */
  lemma FinishExact(s: Site, raw: Caps, p: Plan)
    requires Placeable(s, p) && p.cores >= 1 && p.shortfall <= p.nNew * p.cores
    requires forall i :: 0 <= i < |p.order| ==> Hosts(s, p.lay.budgets, p.order[i], p.cores, p.hp)
    ensures Finish(s, raw, p).Placed? <==> NewHugepagesFit(s, raw, p)
  {
    hide Finish, Hosts, HugepageSizing.ComputeHugepages, Resolved, Placement.Share, Distinct, CpuCost;
    FinishGuard(s, raw, p);
    if p.nNew > 0 { MulMono(1, p.cores, p.nNew); }
    forall i | 0 <= i < p.nNew
      ensures CpuCost(s.inv[p.order[i]], s.cons.cpuPolicy, Placement.Share(Max(p.shortfall, p.nNew), p.nNew, i), true)
        <= p.lay.budgets[p.order[i]].cores
    {
      ShareWithin(Max(p.shortfall, p.nNew), p.nNew, i, p.cores);
      CpuSuffices(s, p.lay.budgets, p.order[i], Placement.Share(Max(p.shortfall, p.nNew), p.nNew, i), p.cores, p.hp);
    }
  }

  lemma SizedFinish(s: Site, b: Budgets, desired: DesiredCapacity, minFds: int, compute: seq<ExistingCompute>, t: int,
      p: Plan)
    requires On(s, b) && SizedFor(s, b, desired, minFds, compute, t, p)
    ensures Placeable(s, p) && (Finish(s, desired.raw, p).Placed? <==> NewHugepagesFit(s, desired.raw, p))
  {
    hide LayOut, SpanAt, Hosts, HugepageSizing.ComputeHugepages, LaidCores, Pinned, Finish, Placeable,
      NewHugepagesFit;
    FinishExact(s, desired.raw, p);
  }

  /**
   * The guard fires exactly when some chosen node lacks the CPU or the hugepages of its share at the final count.
   * Unless both pins are negative CPU never binds.
   */
  lemma NewComputeGuardExact(s: Site, b: Budgets, desired: DesiredCapacity, minFds: int, compute: seq<ExistingCompute>,
      eligible: set<string>, t: int)
    requires On(s, b) && eligible <= s.inv.Keys && Size(s, b, desired, minFds, compute, eligible, t).Sized?
    ensures var p, r := Size(s, b, desired, minFds, compute, eligible, t).plan,
        PlanCompute(s, b, desired, minFds, compute, eligible, t);
      && Placeable(s, p) && (r.Placed? <==> NewSharesFit(s, desired.raw, p))
      && (r.Failed? ==> r.report == Report(ComputeStage, Hugepages, 0))
      && (PinsUsable(desired) && t >= 0 ==> (r.Placed? <==> NewHugepagesFit(s, desired.raw, p)))
  {
    hide Size, SizedFor, Finish, Placeable, NewHugepagesFit, NewSharesFit;
    SizedOrder(s, b, desired, minFds, compute, eligible, t);
    FinishGuard(s, desired.raw, Size(s, b, desired, minFds, compute, eligible, t).plan);
    if PinsUsable(desired) && t >= 0 {
      SizedNumbers(s, b, desired, minFds, compute, eligible, t);
      SizedFinish(s, b, desired, minFds, compute, t, Size(s, b, desired, minFds, compute, eligible, t).plan);
    }
  }

  // ----- the diagnostic marked unexpected -----

  lemma HeadroomCount(s: Site, b: Budgets, compute: seq<ExistingCompute>, eligible: set<string>)
    requires On(s, b) && eligible <= s.inv.Keys
    ensures var nodes := ComputeNodes(s, eligible);
      && |CoreHeadrooms(s, b, compute, nodes)| == |HugepageHeadrooms(s, b, compute, nodes)| == |eligible|
  {
    RankingDistinct(NameRank(eligible), eligible);
    hide Ranking, CoreHeadroom, HugepageHeadroom;
  }

  /** Every eligible node hosts one container of an even split over all of them, cores and hugepages together. */
  ghost predicate SplitFitsAll(s: Site, b: Budgets, desired: DesiredCapacity, compute: seq<ExistingCompute>,
      eligible: set<string>, t: int)
    requires On(s, b) && eligible <= s.inv.Keys
  {
    var nodes, d := ComputeNodes(s, eligible), |eligible|;
    CL.SplitFits(
      CoreHeadrooms(s, b, compute, nodes), Some(HugepageHeadrooms(s, b, compute, nodes)), d, CL.EvenCores(t, d),
      s.cons.maxCoresPerContainer, Some(HugepagesFor(desired.raw, s.cons)))
  }

  /** With nothing pinned the stage fails unclassified exactly with fewer nodes than the floor and a split that fits. */
  lemma UnclassifiedExact(s: Site, b: Budgets, desired: DesiredCapacity, minFds: int, compute: seq<ExistingCompute>,
      eligible: set<string>, t: int)
    requires On(s, b) && eligible <= s.inv.Keys && desired.computeContainers == 0 && desired.computeCores == 0
    ensures var r := PlanCompute(s, b, desired, minFds, compute, eligible, t);
      r == Failed(Report(ComputeStage, Unclassified, 0)) <==>
        0 < |eligible| < minFds && SplitFitsAll(s, b, desired, compute, eligible, t)
  {
    hide CL.Derive, CL.SplitFits, CoreHeadrooms, HugepageHeadrooms, ComputeNodes, LayOut, Extend, SpanAt, PlaceNew,
      Resized, HugepageSizing.ComputeHugepages, Placeable;
    var nodes := ComputeNodes(s, eligible);
    HeadroomCount(s, b, compute, eligible);
    CL.UnexpectedExact(t, minFds, s.cons.maxCoresPerContainer, CoreHeadrooms(s, b, compute, nodes),
      Some(HugepageHeadrooms(s, b, compute, nodes)), Some(HugepagesFor(desired.raw, s.cons)));
  }

  /**
   * The guard the source calls not expected is dead when the pins are not both negative and no existing compute
   * exceeds the uniform target:
   * the final count is at least the derived one and each new container at most the target, and hugepages
   * only shrink in both directions.
   */
  lemma NewComputeGuardDead(s: Site, b: Budgets, desired: DesiredCapacity, minFds: int, compute: seq<ExistingCompute>,
      eligible: set<string>, t: int)
    requires On(s, b) && eligible <= s.inv.Keys && PinsUsable(desired) && t >= 0
    requires desired.raw.tlc >= 0 && desired.raw.qlc >= 0 && s.cons.computeDpdkPerCore >= 0
    requires Size(s, b, desired, minFds, compute, eligible, t).Sized?
    requires WithinTarget(s, compute, Size(s, b, desired, minFds, compute, eligible, t).plan.cores)
    ensures PlanCompute(s, b, desired, minFds, compute, eligible, t).Placed?
  {
    SizedNumbers(s, b, desired, minFds, compute, eligible, t);
    hide Size, SizedFor, Finish, WithinTarget;
    FinishSucceeds(s, b, desired, minFds, compute, t, Size(s, b, desired, minFds, compute, eligible, t).plan);
  }

  lemma CountGrows(count: int, cores: int, laid: int, laidCores: int, nNew: int, shortfall: int)
    requires cores >= 1 && laidCores <= laid * cores && shortfall <= nNew * cores
    requires count * cores - laidCores <= shortfall
    ensures laid + nNew >= count
  {
    assert count * cores <= (laid + nNew) * cores;
    DivAdjoint(count, (laid + nNew) * cores, cores);
    DivAdjoint(laid + nNew + 1, (laid + nNew) * cores, cores);
    assert (laid + nNew + 1) * cores == (laid + nNew) * cores + cores;
  }

  // ----- failure domains of the layout -----

  ghost function LayoutFds(s: Site, layout: seq<ComputeSpec>): set<string> {
    set i | 0 <= i < |layout| && layout[i].node in s.inv :: s.inv[layout[i].node].fdValue
  }

  /** A finished layout lists the existing computes first, then the picked nodes in order. */
  lemma FinishNodes(s: Site, raw: Caps, p: Plan)
    requires Placeable(s, p) && Finish(s, raw, p).Placed?
    ensures var layout := Finish(s, raw, p).layout;
      && |layout| == |p.lay.laid| + p.nNew
      && (forall i :: 0 <= i < |p.lay.laid| ==> layout[i].node == p.lay.laid[i].spec.node)
      && forall i :: 0 <= i < p.nNew ==> layout[|p.lay.laid| + i].node == p.order[i]
  {
    hide Resized, PlaceNew, Resolved;
    var total := |p.lay.laid| + p.nNew;
    ResizedKeepsCores(s, raw, p.lay.laid, total);
    if p.nNew > 0 { NewSpecs(s, p.lay.budgets, raw, p.order, Max(p.shortfall, p.nNew), p.nNew, total, p.nNew); }
  }

  lemma FinishSpans(s: Site, raw: Caps, p: Plan, minFds: int)
    requires Placeable(s, p) && p.covered == CoveredFds(s, p.lay.laid)
    requires |SpanAt(p.covered, FdMap(s), p.order, p.nNew)| >= minFds
    requires Finish(s, raw, p).Placed?
    ensures |LayoutFds(s, Finish(s, raw, p).layout)| >= minFds
  {
    hide Finish, SpanAt, LayoutFds, CoveredFds, Resolved;
    FinishNodes(s, raw, p);
    var layout := Finish(s, raw, p).layout;
    SpanWithinLayout(s, p.lay.laid, p.order, p.nNew, layout);
    SubsetSize(SpanAt(p.covered, FdMap(s), p.order, p.nNew), LayoutFds(s, layout));
  }

  /** The final layout spans at least the required number of failure domains. */
  lemma LayoutSpans(s: Site, b: Budgets, desired: DesiredCapacity, minFds: int, compute: seq<ExistingCompute>,
      eligible: set<string>, t: int)
    requires On(s, b) && eligible <= s.inv.Keys
    requires PlanCompute(s, b, desired, minFds, compute, eligible, t).Placed?
    ensures |LayoutFds(s, PlanCompute(s, b, desired, minFds, compute, eligible, t).layout)| >= minFds
  {
    SizedSpan(s, b, desired, minFds, compute, eligible, t);
    SizedOrder(s, b, desired, minFds, compute, eligible, t);
    hide Size, Finish, HugepageSizing.ComputeHugepages, LayOut, SpanAt, LayoutFds;
    FinishSpans(s, desired.raw, Size(s, b, desired, minFds, compute, eligible, t).plan, minFds);
  }

  lemma {:induction false} FdsWithinLayout(s: Site, layout: seq<ComputeSpec>)
    ensures |LayoutFds(s, layout)| <= |layout|
  {
    if layout != [] {
      var init, last := layout[..|layout| - 1], layout[|layout| - 1];
      FdsWithinLayout(s, init);
      assert layout == init + [last];
      var extra := if last.node in s.inv then {s.inv[last.node].fdValue} else {};
      assert LayoutFds(s, layout) == LayoutFds(s, init) + extra;
      assert |LayoutFds(s, init) + extra| <= |LayoutFds(s, init)| + |extra|;
    }
  }

  lemma FinishCount(s: Site, raw: Caps, p: Plan)
    requires Placeable(s, p) && Finish(s, raw, p).Placed?
    ensures Finish(s, raw, p).count == |Finish(s, raw, p).layout|
  {
    hide PlaceNew, Resized, Resolved, Distinct;
    var total := |p.lay.laid| + p.nNew;
    ResizedKeepsCores(s, raw, p.lay.laid, total);
    if p.nNew > 0 { NewSpecs(s, p.lay.budgets, raw, p.order, Max(p.shortfall, p.nNew), p.nNew, total, p.nNew); }
  }

  /** Whatever count was derived or pinned, a placed stage ends with at least minFds containers. */
  lemma FinalCountMeetsFloor(s: Site, b: Budgets, desired: DesiredCapacity, minFds: int, compute: seq<ExistingCompute>,
      eligible: set<string>, t: int)
    requires On(s, b) && eligible <= s.inv.Keys
    requires PlanCompute(s, b, desired, minFds, compute, eligible, t).Placed?
    ensures var r := PlanCompute(s, b, desired, minFds, compute, eligible, t); r.count == |r.layout| >= minFds
  {
    SizedOrder(s, b, desired, minFds, compute, eligible, t);
    hide Size, LayoutFds, Finish, Placeable;
    LayoutSpans(s, b, desired, minFds, compute, eligible, t);
    FdsWithinLayout(s, PlanCompute(s, b, desired, minFds, compute, eligible, t).layout);
    FinishCount(s, desired.raw, Size(s, b, desired, minFds, compute, eligible, t).plan);
  }

  lemma SizedSpan(s: Site, b: Budgets, desired: DesiredCapacity, minFds: int, compute: seq<ExistingCompute>,
      eligible: set<string>, t: int)
    requires On(s, b) && eligible <= s.inv.Keys && Size(s, b, desired, minFds, compute, eligible, t).Sized?
    ensures var p := Size(s, b, desired, minFds, compute, eligible, t).plan;
      && Resolved(FdMap(s), p.order) && p.nNew <= |p.order| && p.covered == CoveredFds(s, p.lay.laid)
      && |SpanAt(p.covered, FdMap(s), p.order, p.nNew)| >= minFds
  {
    hide DerivedLayout, LayOut, HugepageSizing.ComputeHugepages, Hosts, SpanAt, FreeOrder, Extend, LaidCores,
      CoveredFds;
  }

  lemma SpanWithinLayout(s: Site, laid: seq<Laid>, order: seq<string>, n: nat, layout: seq<ComputeSpec>)
    requires Resolved(FdMap(s), order) && n <= |order| && |layout| == |laid| + n
    requires forall i :: 0 <= i < |laid| ==> layout[i].node == laid[i].spec.node
    requires forall i :: 0 <= i < n ==> layout[|laid| + i].node == order[i]
    ensures SpanAt(CoveredFds(s, laid), FdMap(s), order, n) <= LayoutFds(s, layout)
  {
    forall fd | fd in CoveredFds(s, laid) ensures fd in LayoutFds(s, layout) {
      var x :| x in laid && x.spec.node in s.inv && s.inv[x.spec.node].fdValue == fd;
      var i :| 0 <= i < |laid| && laid[i] == x;
      assert layout[i].node == x.spec.node;
    }
    forall fd | fd in KeysAt(FdMap(s), order, n) ensures fd in LayoutFds(s, layout) {
      var x :| x in order[..n] && FdMap(s)[x] == fd;
      var i :| 0 <= i < n && order[..n][i] == x;
      assert layout[|laid| + i].node == x;
    }
  }

  // ----- the spanning step, at the planner -----

  /** Nodes that can take a new container: eligible, without compute, and able to host the uniform size. */
  function FreeNodes(s: Site, b: Budgets, pinned: set<string>, eligible: set<string>, cores: int, hp: int): set<string>
    requires On(s, b)
  {
    set n | n in eligible && n !in pinned && Hosts(s, b, n, cores, hp)
  }

  function FdsOf(s: Site, nodes: set<string>): set<string> { set n | n in nodes && n in s.inv :: s.inv[n].fdValue }

  lemma SpanOfAll(s: Site, covered: set<string>, all: seq<string>, free: set<string>)
    requires Resolved(FdMap(s), all) && forall x :: x in all <==> x in free
    ensures Span(covered, FdMap(s), all) == covered + FdsOf(s, free)
  {
    forall f ensures f in KeySet(FdMap(s), all) <==> f in FdsOf(s, free) {
      if f in KeySet(FdMap(s), all) { var x :| x in all && FdMap(s)[x] == f; assert x in free; }
      if f in FdsOf(s, free) { var x :| x in free && x in s.inv && s.inv[x].fdValue == f; assert x in all; }
    }
  }

  /**
   * Extending the free order spans enough exactly when all free nodes would, and no choice of free nodes is shorter.
   */
  lemma OrderSpan(s: Site, b: Budgets, pinned: set<string>, eligible: set<string>, cores: int, hp: int,
      covered: set<string>, n: nat, minFds: int)
    requires On(s, b) && eligible <= s.inv.Keys && n <= |FreeOrder(s, b, pinned, eligible, cores, hp, covered)|
    ensures var order, free :=
      FreeOrder(s, b, pinned, eligible, cores, hp, covered), FreeNodes(s, b, pinned, eligible, cores, hp);
      var m := Extend(covered, FdMap(s), order, n, minFds);
      && |order| == |free|
      && (|SpanAt(covered, FdMap(s), order, m)| < minFds <==> |covered + FdsOf(s, free)| < minFds)
      && forall choice: seq<string> ::
        (forall x :: x in choice ==> x in free) && |covered + FdsOf(s, Elems(choice))| >= minFds ==>
           m == n || |choice| >= m
  {
    hide Hosts, Spread, SortedNames, Extend, SpanAt, Span, FdsOf, KeySet;
    var a := SortedNames(FreeFit(s, b, pinned, eligible, cores, hp, covered, false));
    var c := SortedNames(FreeFit(s, b, pinned, eligible, cores, hp, covered, true));
    var free, order := FreeNodes(s, b, pinned, eligible, cores, hp),
      FreeOrder(s, b, pinned, eligible, cores, hp, covered);
    FreeSplit(s, b, pinned, eligible, cores, hp, covered);
    GreedyOptimal(a, c, CoreRank(s, b), FdMap(s), covered, n, minFds);
    assert forall x :: x in a + c <==> x in a || x in c;
    SpanOfAll(s, covered, a + c, free);
    OrderSize(order, free);
    var m := Extend(covered, FdMap(s), order, n, minFds);
    forall choice: seq<string> | (forall x :: x in choice ==> x in free) &&
      |covered + FdsOf(s, Elems(choice))| >= minFds
      ensures m == n || |choice| >= m
    {
      assert forall i :: 0 <= i < |choice| ==> choice[i] in choice;
      assert FitChoice(a, c, FdMap(s), choice);
      SpanOfAll(s, covered, choice, Elems(choice));
    }
  }

  lemma OrderSize(order: seq<string>, free: set<string>)
    requires Distinct(order) && forall x :: x in order <==> x in free
    ensures |order| == |free|
  {
    DistinctCount(order);
    assert Elems(order) == free;
  }

  /** What the sizing works with once a layout is derived. */
  datatype Setting = Setting(cores: int, hp: int, lay: LayState, covered: set<string>, free: set<string>,
    shortfall: nat, first: nat)

  ghost function SettingOf(s: Site, b: Budgets, desired: DesiredCapacity, minFds: int, compute: seq<ExistingCompute>,
      eligible: set<string>, t: int): Setting
    requires On(s, b) && DerivedLayoutFound(s, b, desired, minFds, compute, eligible, t)
  {
    var layout := DerivedLayout(s, b, desired, minFds, compute, eligible, t);
    var hp := HugepageSizing.ComputeHugepages(desired.raw, layout.count, layout.cores, s.cons);
    var lay := LayOut(s, b, compute, layout.cores, hp);
    var shortfall: nat := Max(layout.count * layout.cores - LaidCores(lay.laid), 0);
    Setting(layout.cores, hp, lay, CoveredFds(s, lay.laid),
      FreeNodes(s, lay.budgets, Pinned(s, compute), eligible, layout.cores, hp),
      shortfall, if shortfall > 0 then CeilDiv(shortfall, layout.cores) else 0)
  }

  ghost predicate DerivedLayoutFound(s: Site, b: Budgets, desired: DesiredCapacity, minFds: int,
      compute: seq<ExistingCompute>, eligible: set<string>, t: int)
    requires On(s, b)
  {
    eligible <= s.inv.Keys && DerivedLayout(s, b, desired, minFds, compute, eligible, t).Layout?
  }

  /**
   * Once a layout is derived the stage reports too few failure domains exactly when the shortfall can be covered but
   * the covered domains and those of all free nodes are too few; otherwise it adds the fewest nodes that span enough.
   */
  lemma SpanExact(s: Site, b: Budgets, desired: DesiredCapacity, minFds: int, compute: seq<ExistingCompute>,
      eligible: set<string>, t: int)
    requires On(s, b) && DerivedLayoutFound(s, b, desired, minFds, compute, eligible, t)
    ensures var x, size :=
      SettingOf(s, b, desired, minFds, compute, eligible, t), Size(s, b, desired, minFds, compute, eligible, t);
      && (size == NoSizing(Report(ComputeStage, FailureDomains, 0)) <==>
           x.first <= |x.free| && |x.covered + FdsOf(s, x.free)| < minFds)
      && (size == NoSizing(Report(ComputeStage, Cores, 0)) <==> x.first > |x.free|)
      && (size.Sized? <==> x.first <= |x.free| && |x.covered + FdsOf(s, x.free)| >= minFds)
      && (size.Sized? ==> size.plan.nNew >= x.first)
      && (size.Sized? ==>
           forall choice: seq<string> ::
             (forall n :: n in choice ==> n in x.free) && |x.covered + FdsOf(s, Elems(choice))| >= minFds ==>
             size.plan.nNew == x.first || |choice| >= size.plan.nNew)
  {
    hide DerivedLayout, LayOut, HugepageSizing.ComputeHugepages, SpanAt, FreeOrder, Extend, LaidCores, CoveredFds,
      FreeNodes, FdsOf;
    var x := SettingOf(s, b, desired, minFds, compute, eligible, t);
    FreeSize(s, x.lay.budgets, Pinned(s, compute), eligible, x.cores, x.hp, x.covered);
    if x.first <= |x.free| {
      OrderSpan(s, x.lay.budgets, Pinned(s, compute), eligible, x.cores, x.hp, x.covered, x.first, minFds);
    }
  }

  lemma FreeSize(s: Site, b: Budgets, pinned: set<string>, eligible: set<string>, cores: int, hp: int,
      covered: set<string>)
    requires On(s, b) && eligible <= s.inv.Keys
    ensures |FreeOrder(s, b, pinned, eligible, cores, hp, covered)| == |FreeNodes(s, b, pinned, eligible, cores, hp)|
  {
    hide FreeOrder, Hosts;
    OrderSize(FreeOrder(s, b, pinned, eligible, cores, hp, covered), FreeNodes(s, b, pinned, eligible, cores, hp));
  }
}
