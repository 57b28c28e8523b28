/** What the compute stage does to each compute: which are grown, where new ones land, and what every node pays. */
module LaidComputes {
  import opened Arith
  import opened Model
  import opened NodeBudget
  import opened Ledgers
  import opened Ordering
  import opened ComputePlanner
  import opened ComputeGuarantees
  import Placement
  import HugepageSizing

  // ----- existing computes -----

  /** The compute is running, growth is on, and the budget covers the CPU and the hugepages it would add. */
  predicate CanGrow(s: Site, left: Budget, c: ExistingCompute, cores: int, hp: int)
    requires Resident(s, c)
  {
    && !c.unscheduled && s.cons.allowInPlaceGrowth
    && (cores > c.numCores ==> CpuCost(s.inv[c.node], s.cons.cpuPolicy, cores - c.numCores, false) <= left.cores)
    && (hp > c.hugepages ==> hp - c.hugepages <= left.hugepages)
  }

  /** The budget of its node once the compute is grown. */
  function AfterGrowth(s: Site, left: Budget, c: ExistingCompute, cores: int, hp: int): Budget
    requires Resident(s, c)
  {
    left.(cores := left.cores -
            if cores > c.numCores then CpuCost(s.inv[c.node], s.cons.cpuPolicy, cores - c.numCores, false) else 0,
          hugepages := left.hugepages - if hp > c.hugepages then hp - c.hugepages else 0)
  }

  /** How many of the computes are on known nodes. */
  function Residents(s: Site, compute: seq<ExistingCompute>): nat {
    if compute == [] then 0
    else Residents(s, compute[..|compute| - 1]) + if Resident(s, compute[|compute| - 1]) then 1 else 0
  }

  lemma {:induction false} LaidCount(s: Site, b: Budgets, compute: seq<ExistingCompute>, cores: int, hp: int)
    requires On(s, b)
    ensures |LayOut(s, b, compute, cores, hp).laid| == Residents(s, compute)
  {
    hide Frozen, GrownBudget, Resident;
    if compute != [] { LaidCount(s, b, compute[..|compute| - 1], cores, hp); }
  }

  /** Later computes are laid out behind earlier ones. */
  lemma {:induction false} LaidPrefix(s: Site, b: Budgets, compute: seq<ExistingCompute>, cores: int, hp: int, k: nat)
    requires On(s, b) && k <= |compute|
    ensures LayOut(s, b, compute[..k], cores, hp).laid <= LayOut(s, b, compute, cores, hp).laid
  {
    hide Frozen, GrownBudget, Resident;
    if k == |compute| {
      assert compute[..k] == compute;
    } else {
      var init := compute[..|compute| - 1];
      assert compute[..k] == init[..k];
      LaidPrefix(s, b, init, cores, hp, k);
    }
  }

  lemma LaidOne(s: Site, st: LayState, c: ExistingCompute, cores: int, hp: int)
    requires On(s, st.budgets) && Resident(s, c)
    ensures var r, grows := LayOne(s, st, c, cores, hp), CanGrow(s, st.budgets[c.node], c, cores, hp);
      && r.laid == st.laid +
        [if grows then Laid(ComputeSpec(c.node, cores, hp), false)
         else Laid(ComputeSpec(c.node, c.numCores, c.hugepages), true)]
      && r.budgets == if grows then
          st.budgets[c.node := AfterGrowth(s, st.budgets[c.node], c, cores, hp)] else st.budgets
  {
    hide CpuCost;
  }

  /**
   * An existing compute ends at the uniform cores and hugepages exactly when it is running, growth is on and its node
   * still has what it adds after the computes before it; otherwise it keeps its size.
   */
  lemma LaidExact(s: Site, b: Budgets, compute: seq<ExistingCompute>, cores: int, hp: int, k: nat)
    requires On(s, b) && k < |compute| && Resident(s, compute[k])
    ensures var c, all := compute[k], LayOut(s, b, compute, cores, hp).laid;
      var i, left := Residents(s, compute[..k]), LayOut(s, b, compute[..k], cores, hp).budgets[c.node];
      && i < |all|
      && all[i] ==
        if CanGrow(s, left, c, cores, hp) then Laid(ComputeSpec(c.node, cores, hp), false)
        else Laid(ComputeSpec(c.node, c.numCores, c.hugepages), true)
  {
    LaidCount(s, b, compute[..k], cores, hp);
    LaidPrefix(s, b, compute, cores, hp, k + 1);
    assert compute[..k + 1][..k] == compute[..k];
    hide CanGrow, LayOne;
    LaidOne(s, LayOut(s, b, compute[..k], cores, hp), compute[k], cores, hp);
  }

  /** No two computes share a known node. */
  ghost predicate OneComputePerNode(s: Site, compute: seq<ExistingCompute>) {
    forall i, j :: 0 <= i < j < |compute| && Resident(s, compute[i]) && Resident(s, compute[j]) ==>
      compute[i].node != compute[j].node
  }

  /** A node without one of these computes keeps its budget. */
  lemma {:induction false} LaidElsewhere(s: Site, b: Budgets, compute: seq<ExistingCompute>, cores: int, hp: int,
      n: string)
    requires On(s, b) && n in s.inv
    requires forall i :: 0 <= i < |compute| && Resident(s, compute[i]) ==> compute[i].node != n
    ensures LayOut(s, b, compute, cores, hp).budgets[n] == b[n]
  {
    hide Frozen, GrownBudget;
    if compute != [] { LaidElsewhere(s, b, compute[..|compute| - 1], cores, hp, n); }
  }

  /** With one compute per node the budget a compute finds is the one the stage starts from, and it alone spends it. */
  lemma {:induction false} LaidAlone(s: Site, b: Budgets, compute: seq<ExistingCompute>, cores: int, hp: int, k: nat)
    requires On(s, b) && OneComputePerNode(s, compute) && k < |compute| && Resident(s, compute[k])
    ensures var c := compute[k];
      && LayOut(s, b, compute[..k], cores, hp).budgets[c.node] == b[c.node]
      && LayOut(s, b, compute, cores, hp).budgets[c.node] ==
        if CanGrow(s, b[c.node], c, cores, hp) then AfterGrowth(s, b[c.node], c, cores, hp) else b[c.node]
  {
    var c, init, last := compute[k], compute[..|compute| - 1], compute[|compute| - 1];
    LaidElsewhere(s, b, compute[..k], cores, hp, c.node);
    hide CanGrow, AfterGrowth;
    if k == |init| {
      LaidOne(s, LayOut(s, b, init, cores, hp), c, cores, hp);
    } else {
      assert init[..k] == compute[..k];
      LaidAlone(s, b, init, cores, hp, k);
      if Resident(s, last) { LaidOne(s, LayOut(s, b, init, cores, hp), last, cores, hp); }
    }
  }

  // ----- the placed stage -----

  /** Where the layout of a placed stage comes from. */
  lemma StageShape(s: Site, b: Budgets, desired: DesiredCapacity, minFds: int, compute: seq<ExistingCompute>,
      eligible: set<string>, t: int)
    requires On(s, b) && eligible <= s.inv.Keys
    requires PlanCompute(s, b, desired, minFds, compute, eligible, t).Placed?
    ensures Size(s, b, desired, minFds, compute, eligible, t).Sized?
    ensures var p, r := Size(s, b, desired, minFds, compute, eligible, t).plan,
        PlanCompute(s, b, desired, minFds, compute, eligible, t);
      && Placeable(s, p) && p.lay == LayOut(s, b, compute, p.cores, p.hp) && r == Finish(s, desired.raw, p)
      && p.hp == HugepageSizing.ComputeHugepages(desired.raw, p.count, p.cores, s.cons) && r.cores == p.cores
      && forall x :: x in p.order <==>
        x in eligible && x !in Pinned(s, compute) && Hosts(s, p.lay.budgets, x, p.cores, p.hp)
  {
    SizedOrder(s, b, desired, minFds, compute, eligible, t);
    hide LayOut, Hosts, PlaceNew, Resized, Pinned, HugepageSizing.ComputeHugepages, Placeable;
    SizedParts(s, b, desired, minFds, compute, eligible, t);
    hide Size;
  }

  lemma FinishKept(s: Site, raw: Caps, p: Plan, i: nat)
    requires Placeable(s, p) && Finish(s, raw, p).Placed? && i < |p.lay.laid|
    ensures var r, x := Finish(s, raw, p), p.lay.laid[i];
      && i < |r.layout|
      && r.layout[i] == if x.frozen then x.spec
        else x.spec.(hugepages := HugepageSizing.ComputeHugepages(raw, r.count, x.spec.numCores, s.cons))
  {
    hide PlaceNew, Resized, HugepageSizing.ComputeHugepages;
    ResizedAt(s, raw, p.lay.laid, |p.lay.laid| + p.nNew, i);
  }

  /**
   * In a placed stage with one compute per node a running compute is emitted with the uniform cores, and the hugepages
   * of the final count, exactly when growth is on and the budget the stage starts from covers what it adds. Any other
   * keeps its size.
   */
  lemma ExistingExact(s: Site, b: Budgets, desired: DesiredCapacity, minFds: int, compute: seq<ExistingCompute>,
      eligible: set<string>, t: int, k: nat)
    requires On(s, b) && eligible <= s.inv.Keys && OneComputePerNode(s, compute)
    requires PlanCompute(s, b, desired, minFds, compute, eligible, t).Placed?
    requires k < |compute| && Resident(s, compute[k])
    ensures var p, r := Size(s, b, desired, minFds, compute, eligible, t).plan,
        PlanCompute(s, b, desired, minFds, compute, eligible, t);
      var c, i := compute[k], Residents(s, compute[..k]);
      && i < |r.layout|
      && r.layout[i] == if CanGrow(s, b[c.node], c, p.cores, p.hp) then
          ComputeSpec(c.node, p.cores, HugepageSizing.ComputeHugepages(desired.raw, r.count, p.cores, s.cons))
        else ComputeSpec(c.node, c.numCores, c.hugepages)
  {
    var p := Size(s, b, desired, minFds, compute, eligible, t).plan;
    hide Size, PlanCompute, LayOut, Hosts, Pinned, HugepageSizing.ComputeHugepages, Placeable, Finish, CanGrow,
      Resident, OneComputePerNode, Residents, AfterGrowth;
    StageShape(s, b, desired, minFds, compute, eligible, t);
    LaidExact(s, b, compute, p.cores, p.hp, k);
    LaidAlone(s, b, compute, p.cores, p.hp, k);
    FinishKept(s, desired.raw, p, Residents(s, compute[..k]));
  }

  // ----- new computes -----

  /** What a new compute of the given size takes from its node. */
  function AfterNew(s: Site, left: Budget, spec: ComputeSpec): Budget
    requires spec.node in s.inv
  {
    left.(cores := left.cores - CpuCost(s.inv[spec.node], s.cons.cpuPolicy, spec.numCores, true),
          hugepages := left.hugepages - spec.hugepages)
  }

  /** The i-th new compute lands on the i-th node with its share, and that node pays for it once. */
  lemma {:induction false} PlacedNew(s: Site, b: Budgets, raw: Caps, order: seq<string>, split: nat, n: nat, total: int,
      k: nat, i: nat)
    requires On(s, b) && 0 < n <= |order| && k <= n && forall j :: 0 <= j < |order| ==> order[j] in s.inv
    requires Distinct(order) && PlaceNew(s, b, raw, order, split, n, total, k).ok && i < k
    ensures var r := PlaceNew(s, b, raw, order, split, n, total, k);
      var share := Placement.Share(split, n, i);
      && |r.specs| == k
      && r.specs[i] ==
        ComputeSpec(order[i], share, HugepageSizing.ComputeHugepages(raw, total, share, s.cons))
      && r.budgets[order[i]] == AfterNew(s, b[order[i]], r.specs[i])
  {
    hide HugepageSizing.ComputeHugepages, CpuCost, Placement.Share;
    NewSpecs(s, b, raw, order, split, n, total, k);
    if i == k - 1 {
      PlaceNewLocal(s, b, raw, order, split, n, total, k - 1, order[i]);
      NewSpecs(s, b, raw, order, split, n, total, k - 1);
    } else {
      PlacedNew(s, b, raw, order, split, n, total, k - 1, i);
      assert order[i] != order[k - 1];
    }
  }

  lemma FinishNew(s: Site, raw: Caps, p: Plan, i: nat)
    requires Placeable(s, p) && Finish(s, raw, p).Placed? && i < p.nNew
    ensures var r := Finish(s, raw, p);
      var share := Placement.Share(Max(p.shortfall, p.nNew), p.nNew, i);
      && |r.layout| == |p.lay.laid| + p.nNew == r.count
      && r.layout[|p.lay.laid| + i] == ComputeSpec(p.order[i], share,
           HugepageSizing.ComputeHugepages(raw, r.count, share, s.cons))
      && r.budgets[p.order[i]] == AfterNew(s, p.lay.budgets[p.order[i]], r.layout[|p.lay.laid| + i])
  {
    var total := |p.lay.laid| + p.nNew;
    ResizedKeepsCores(s, raw, p.lay.laid, total);
    hide PlaceNew, Resized, HugepageSizing.ComputeHugepages, AfterNew, Placement.Share;
    PlacedNew(s, p.lay.budgets, raw, p.order, Max(p.shortfall, p.nNew), p.nNew, total, p.nNew, i);
    NewSpecs(s, p.lay.budgets, raw, p.order, Max(p.shortfall, p.nNew), p.nNew, total, p.nNew);
  }

  lemma FinishLength(s: Site, raw: Caps, p: Plan)
    requires Placeable(s, p) && Finish(s, raw, p).Placed?
    ensures |Finish(s, raw, p).layout| == |p.lay.laid| + p.nNew
  {
    ResizedKeepsCores(s, raw, p.lay.laid, |p.lay.laid| + p.nNew);
    hide PlaceNew, Resized, HugepageSizing.ComputeHugepages;
    if p.nNew > 0 { FinishNew(s, raw, p, 0); }
  }

  lemma FreeElsewhere(s: Site, b: Budgets, compute: seq<ExistingCompute>, cores: int, hp: int, n: string)
    requires On(s, b) && n in s.inv && n !in Pinned(s, compute)
    ensures LayOut(s, b, compute, cores, hp).budgets[n] == b[n]
  {
    forall i | 0 <= i < |compute| && Resident(s, compute[i]) ensures compute[i].node != n {
      assert compute[i] in compute;
    }
    hide LayOut;
    LaidElsewhere(s, b, compute, cores, hp, n);
  }

  lemma ShareAtLeastOne(split: nat, n: nat, i: nat)
    requires split >= n > 0
    ensures Placement.Share(split, n, i) >= 1
  {
    DivAdjoint(1, split, n);
  }

  /**
   * Entry i of the layout is a new compute: on an eligible node without an existing compute, on a node of its own, with
   * the hugepages of the final count, and paid for exactly once from what the stage found there.
   */
  ghost predicate NewlyPlaced(s: Site, b: Budgets, raw: Caps, compute: seq<ExistingCompute>, eligible: set<string>,
      r: Outcome, i: nat)
    requires On(s, b) && r.Placed? && On(s, r.budgets) && eligible <= s.inv.Keys && i < |r.layout|
  {
    var spec := r.layout[i];
    && spec.node in eligible && spec.node !in Pinned(s, compute) && spec.numCores >= 1
    && spec.hugepages == HugepageSizing.ComputeHugepages(raw, r.count, spec.numCores, s.cons)
    && r.budgets[spec.node] == AfterNew(s, b[spec.node], spec)
    && forall j :: Residents(s, compute) <= j < |r.layout| && j != i ==> r.layout[j].node != spec.node
  }

  lemma FinishOn(s: Site, raw: Caps, p: Plan)
    requires Placeable(s, p) && Finish(s, raw, p).Placed?
    ensures On(s, Finish(s, raw, p).budgets)
  {
    hide PlaceNew, Resized;
  }

  lemma FinishPlaces(s: Site, b: Budgets, raw: Caps, compute: seq<ExistingCompute>, eligible: set<string>, p: Plan,
      i: nat)
    requires On(s, b) && Placeable(s, p) && p.lay == LayOut(s, b, compute, p.cores, p.hp) && eligible <= s.inv.Keys
    requires forall x :: x in p.order ==> x in eligible && x !in Pinned(s, compute)
    requires Finish(s, raw, p).Placed? && Residents(s, compute) <= i < |Finish(s, raw, p).layout|
    ensures On(s, Finish(s, raw, p).budgets) && NewlyPlaced(s, b, raw, compute, eligible, Finish(s, raw, p), i)
  {
    var r, base := Finish(s, raw, p), Residents(s, compute);
    hide LayOut, Pinned, HugepageSizing.ComputeHugepages, Finish, AfterNew, Residents, Placement.Share;
    FinishOn(s, raw, p);
    LaidCount(s, b, compute, p.cores, p.hp);
    FinishLength(s, raw, p);
    FinishNew(s, raw, p, i - base);
    assert p.order[i - base] in p.order;
    FreeElsewhere(s, b, compute, p.cores, p.hp, p.order[i - base]);
    ShareAtLeastOne(Max(p.shortfall, p.nNew), p.nNew, i - base);
    forall j | base <= j < |r.layout| && j != i ensures r.layout[j].node != r.layout[i].node {
      FinishNew(s, raw, p, j - base);
    }
  }

  /** In a placed stage everything behind the existing computes is newly placed. */
  lemma NewExact(s: Site, b: Budgets, desired: DesiredCapacity, minFds: int, compute: seq<ExistingCompute>,
      eligible: set<string>, t: int, i: nat)
    requires On(s, b) && eligible <= s.inv.Keys
    requires PlanCompute(s, b, desired, minFds, compute, eligible, t).Placed?
    requires Residents(s, compute) <= i < |PlanCompute(s, b, desired, minFds, compute, eligible, t).layout|
    ensures var r := PlanCompute(s, b, desired, minFds, compute, eligible, t);
      On(s, r.budgets) && NewlyPlaced(s, b, desired.raw, compute, eligible, r, i)
  {
    hide Size, PlanCompute, LayOut, Hosts, Pinned, HugepageSizing.ComputeHugepages, Finish, Residents, Placeable,
      NewlyPlaced;
    StageShape(s, b, desired, minFds, compute, eligible, t);
    FinishPlaces(s, b, desired.raw, compute, eligible, Size(s, b, desired, minFds, compute, eligible, t).plan, i);
  }

  /** The entries before those are the existing computes. */
  lemma {:induction false} LaidPinned(s: Site, b: Budgets, compute: seq<ExistingCompute>, cores: int, hp: int, i: nat)
    requires On(s, b) && i < |LayOut(s, b, compute, cores, hp).laid|
    ensures LayOut(s, b, compute, cores, hp).laid[i].spec.node in Pinned(s, compute)
  {
    hide Frozen, GrownBudget;
    if compute != [] {
      var init, last := compute[..|compute| - 1], compute[|compute| - 1];
      assert last in compute && forall c :: c in init ==> c in compute;
      if i < |LayOut(s, b, init, cores, hp).laid| { LaidPinned(s, b, init, cores, hp, i); }
    }
  }

  lemma KeptPinned(s: Site, b: Budgets, desired: DesiredCapacity, minFds: int, compute: seq<ExistingCompute>,
      eligible: set<string>, t: int, i: nat)
    requires On(s, b) && eligible <= s.inv.Keys
    requires PlanCompute(s, b, desired, minFds, compute, eligible, t).Placed?
    requires i < |PlanCompute(s, b, desired, minFds, compute, eligible, t).layout| && i < Residents(s, compute)
    ensures PlanCompute(s, b, desired, minFds, compute, eligible, t).layout[i].node in Pinned(s, compute)
  {
    var p := Size(s, b, desired, minFds, compute, eligible, t).plan;
    hide Size, PlanCompute, LayOut, Hosts, Pinned, HugepageSizing.ComputeHugepages, Finish, Residents, Placeable;
    StageShape(s, b, desired, minFds, compute, eligible, t);
    LaidCount(s, b, compute, p.cores, p.hp);
    LaidPinned(s, b, compute, p.cores, p.hp, i);
    FinishKept(s, desired.raw, p, i);
  }
}
