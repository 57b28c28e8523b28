/** planCompute: size, grow, freeze and place compute containers on what the drives left over. */
module ComputePlanner {
  import opened Arith
  import opened Model
  import opened NodeBudget
  import opened Ledgers
  import opened Ordering
  import opened FdSpread
  import Placement
  import HugepageSizing
  import CL = ComputeLayout

  type Budgets = map<string, Budget>

  const MAX_INT := 0x7FFF_FFFF_FFFF_FFFF

  ghost predicate On(s: Site, b: Budgets) { b.Keys == s.inv.Keys }

  /** Not both compute pins are negative; two negative ones would pass the sizing with a positive product. */
  predicate PinsUsable(desired: DesiredCapacity) { desired.computeContainers >= 0 || desired.computeCores >= 0 }

  // ----- headroom per compute node -----

  function EligibleNodes(s: Site, computeNodes: map<string, bool>): set<string> {
    set n | n in computeNodes && computeNodes[n] && n in s.inv
  }

  function NameRank(names: set<string>): map<string, int> { map n | n in names :: 0 }

  /** sort.Strings: the names in lexicographic order. */
  ghost function SortedNames(names: set<string>): seq<string> { Ranking(NameRank(names), names) }

  lemma SortedNamesFacts(names: set<string>)
    ensures Distinct(SortedNames(names)) && forall x :: x in SortedNames(names) <==> x in names
  {
    RankingDistinct(NameRank(names), names);
    assert forall x :: x in SortedNames(names) <==> x in Elems(SortedNames(names));
  }

  predicate Resident(s: Site, c: ExistingCompute) { c.node != "" && c.node in s.inv }

  /** CPU the node's existing computes give back, since it keeps hosting them. */
  function Reclaimed(s: Site, compute: seq<ExistingCompute>, node: string): int {
    if compute == [] then 0 else
      var c := compute[|compute| - 1];
      Reclaimed(s, compute[..|compute| - 1], node) +
      if Resident(s, c) && c.node == node then CpuCost(s.inv[node], s.cons.cpuPolicy, c.numCores, true) else 0
  }

  function Pinned(s: Site, compute: seq<ExistingCompute>): set<string> {
    set c | c in compute && Resident(s, c) :: c.node
  }

  function CoreHeadroom(s: Site, b: Budgets, compute: seq<ExistingCompute>, node: string): int
    requires On(s, b) && node in s.inv
  {
    DataCoresCapacity(s.inv[node], b[node].cores, s.cons.cpuPolicy, Reclaimed(s, compute, node), true)
  }

  function HugepageHeadroom(s: Site, b: Budgets, compute: seq<ExistingCompute>, node: string): int
    requires On(s, b) && node in s.inv
  {
    if node in Pinned(s, compute) then MAX_INT else b[node].hugepages
  }

  function HugepagesFor(raw: Caps, cons: Constraints): (int, int) -> int {
    (count: int, cores: int) => HugepageSizing.ComputeHugepages(raw, count, cores, cons)
  }

  ghost function CoreHeadrooms(s: Site, b: Budgets, compute: seq<ExistingCompute>, nodes: seq<string>): seq<int>
    requires On(s, b) && forall i :: 0 <= i < |nodes| ==> nodes[i] in s.inv
  {
    seq(|nodes|, i requires 0 <= i < |nodes| => CoreHeadroom(s, b, compute, nodes[i]))
  }

  ghost function HugepageHeadrooms(s: Site, b: Budgets, compute: seq<ExistingCompute>, nodes: seq<string>): seq<int>
    requires On(s, b) && forall i :: 0 <= i < |nodes| ==> nodes[i] in s.inv
  {
    seq(|nodes|, i requires 0 <= i < |nodes| => HugepageHeadroom(s, b, compute, nodes[i]))
  }

  /** The compute nodes, by name. */
  ghost function ComputeNodes(s: Site, eligible: set<string>): (nodes: seq<string>)
    requires eligible <= s.inv.Keys
    ensures forall i :: 0 <= i < |nodes| ==> nodes[i] in s.inv
  {
    var nodes := SortedNames(eligible);
    SortedNamesFacts(eligible);
    assert forall i :: 0 <= i < |nodes| ==> nodes[i] in nodes;
    nodes
  }

  ghost function DerivedLayout(s: Site, b: Budgets, desired: DesiredCapacity, minFds: int,
      compute: seq<ExistingCompute>, eligible: set<string>, t: int): CL.Layout
    requires On(s, b) && eligible <= s.inv.Keys
  {
    var nodes := ComputeNodes(s, eligible);
    CL.Derive(desired.computeContainers, desired.computeCores, t, minFds, s.cons.maxCoresPerContainer,
      CoreHeadrooms(s, b, compute, nodes), Some(HugepageHeadrooms(s, b, compute, nodes)),
      Some(HugepagesFor(desired.raw, s.cons)))
  }

  // ----- existing computes: grown or frozen -----

  datatype Laid = Laid(spec: ComputeSpec, frozen: bool)

  datatype LayState = LayState(budgets: Budgets, laid: seq<Laid>)

  /** Frozen: pending, growth disabled, or the node lacks the delta to the uniform target. */
  predicate Frozen(s: Site, b: Budgets, c: ExistingCompute, cores: int, hp: int)
    requires On(s, b) && Resident(s, c)
  {
    || c.unscheduled || !s.cons.allowInPlaceGrowth
    || (cores > c.numCores && b[c.node].cores < CpuCost(s.inv[c.node], s.cons.cpuPolicy, cores - c.numCores, false))
    || (hp > c.hugepages && b[c.node].hugepages < hp - c.hugepages)
  }

  function GrownBudget(s: Site, b: Budget, c: ExistingCompute, cores: int, hp: int): Budget
    requires Resident(s, c)
  {
    var cpu := if cores > c.numCores then CpuCost(s.inv[c.node], s.cons.cpuPolicy, cores - c.numCores, false) else 0;
    b.(cores := b.cores - cpu, hugepages := b.hugepages - Max(0, hp - c.hugepages))
  }

  function LayOne(s: Site, st: LayState, c: ExistingCompute, cores: int, hp: int): (r: LayState)
    requires On(s, st.budgets)
    ensures On(s, r.budgets)
  {
    if !Resident(s, c) then st
    else if Frozen(s, st.budgets, c, cores, hp) then
      st.(laid := st.laid + [Laid(ComputeSpec(c.node, c.numCores, c.hugepages), true)])
    else
      LayState(st.budgets[c.node := GrownBudget(s, st.budgets[c.node], c, cores, hp)],
               st.laid + [Laid(ComputeSpec(c.node, cores, hp), false)])
  }

  function LayOut(s: Site, b: Budgets, compute: seq<ExistingCompute>, cores: int, hp: int): (r: LayState)
    requires On(s, b)
    ensures On(s, r.budgets)
  {
    if compute == [] then LayState(b, [])
    else LayOne(s, LayOut(s, b, compute[..|compute| - 1], cores, hp), compute[|compute| - 1], cores, hp)
  }

  function LaidCores(laid: seq<Laid>): int {
    if laid == [] then 0 else LaidCores(laid[..|laid| - 1]) + laid[|laid| - 1].spec.numCores
  }

  // ----- free nodes for new computes -----

  predicate Hosts(s: Site, b: Budgets, n: string, cores: int, hp: int)
    requires On(s, b)
  {
    n in s.inv && b[n].cores >= CpuCost(s.inv[n], s.cons.cpuPolicy, cores, true) && b[n].hugepages >= hp
  }

  function FdMap(s: Site): map<string, string> { map n | n in s.inv :: s.inv[n].fdValue }

  function CoreRank(s: Site, b: Budgets): map<string, int>
    requires On(s, b)
  {
    map n | n in s.inv :: b[n].cores
  }

  function CoveredFds(s: Site, laid: seq<Laid>): set<string> {
    set x | x in laid && x.spec.node in s.inv :: s.inv[x.spec.node].fdValue
  }

  /** Free nodes able to host the uniform container, split by whether their failure domain is covered. */
  function FreeFit(s: Site, b: Budgets, pinned: set<string>, eligible: set<string>, cores: int, hp: int,
      covered: set<string>, inCovered: bool): set<string>
    requires On(s, b) && eligible <= s.inv.Keys
  {
    set n | n in eligible && n !in pinned && Hosts(s, b, n, cores, hp) && (s.inv[n].fdValue in covered) == inCovered
  }

  ghost function FreeOrder(s: Site, b: Budgets, pinned: set<string>, eligible: set<string>, cores: int, hp: int,
      covered: set<string>): (order: seq<string>)
    requires On(s, b) && eligible <= s.inv.Keys
    ensures Resolved(FdMap(s), order) && Distinct(order)
    ensures forall x :: x in order <==> x in eligible && x !in pinned && Hosts(s, b, x, cores, hp)
  {
    var a := SortedNames(FreeFit(s, b, pinned, eligible, cores, hp, covered, false));
    var c := SortedNames(FreeFit(s, b, pinned, eligible, cores, hp, covered, true));
    FreeSplit(s, b, pinned, eligible, cores, hp, covered);
    FitOrderFacts(a, c, CoreRank(s, b), FdMap(s), covered);
    FitOrder(a, c, CoreRank(s, b), FdMap(s))
  }

  lemma FreeSplit(s: Site, b: Budgets, pinned: set<string>, eligible: set<string>, cores: int, hp: int,
      covered: set<string>)
    requires On(s, b) && eligible <= s.inv.Keys
    ensures FitSplit(SortedNames(FreeFit(s, b, pinned, eligible, cores, hp, covered, false)),
                     SortedNames(FreeFit(s, b, pinned, eligible, cores, hp, covered, true)),
                     CoreRank(s, b), FdMap(s), covered)
    ensures forall x :: x in SortedNames(FreeFit(s, b, pinned, eligible, cores, hp, covered, false)) ||
                        x in SortedNames(FreeFit(s, b, pinned, eligible, cores, hp, covered, true))
                   <==> x in eligible && x !in pinned && Hosts(s, b, x, cores, hp)
  {
    hide Hosts, SortedNames;
    var fa, fc := FreeFit(s, b, pinned, eligible, cores, hp, covered, false),
      FreeFit(s, b, pinned, eligible, cores, hp, covered, true);
    SortedNamesFacts(fa);
    SortedNamesFacts(fc);
    var a, c := SortedNames(fa), SortedNames(fc);
    forall i | 0 <= i < |a| ensures a[i] in s.inv { assert a[i] in a; }
    forall i | 0 <= i < |c| ensures c[i] in s.inv { assert c[i] in c; }
  }

  // ----- new computes -----

  datatype NewState = NewState(budgets: Budgets, specs: seq<ComputeSpec>, ok: bool)

  /** The first k of n new containers splitting `split` cores; ok turns false when a node cannot host its share. */
  function PlaceNew(s: Site, b: Budgets, raw: Caps, order: seq<string>, split: nat, n: nat, total: int,
    k: nat): (r: NewState)
    requires On(s, b) && 0 < n <= |order| && k <= n && forall i :: 0 <= i < |order| ==> order[i] in s.inv
    ensures On(s, r.budgets)
  {
    if k == 0 then NewState(b, [], true) else
      var st := PlaceNew(s, b, raw, order, split, n, total, k - 1);
      var node := order[k - 1];
      var cores := Placement.Share(split, n, k - 1);
      var hp := HugepageSizing.ComputeHugepages(raw, total, cores, s.cons);
      var cpu := CpuCost(s.inv[node], s.cons.cpuPolicy, cores, true);
      var left := st.budgets[node];
      if !st.ok then st
      else if left.cores < cpu || left.hugepages < hp then st.(ok := false)
      else NewState(st.budgets[node := left.(cores := left.cores - cpu, hugepages := left.hugepages - hp)],
                    st.specs + [ComputeSpec(node, cores, hp)], true)
  }

  /** Grown containers take the hugepages of the final count; frozen ones keep theirs. */
  function Resized(s: Site, raw: Caps, laid: seq<Laid>, total: int): seq<ComputeSpec> {
    if laid == [] then [] else
      var x := laid[|laid| - 1];
      Resized(s, raw, laid[..|laid| - 1], total) +
      [if x.frozen then x.spec
       else x.spec.(hugepages := HugepageSizing.ComputeHugepages(raw, total, x.spec.numCores, s.cons))]
  }

  // ----- the whole stage -----

  /** Everything decided before new containers are placed. */
  datatype Plan = Plan(
    count: int,
    cores: int,
    hp: int,
    lay: LayState,
    covered: set<string>,
    order: seq<string>,
    shortfall: nat,
    nNew: nat)

  datatype Outcome =
    | Failed(report: Report)
    | Placed(budgets: Budgets, layout: seq<ComputeSpec>, count: int, cores: int)

  datatype Sizing = NoSizing(report: Report) | Sized(plan: Plan)

  ghost function Size(s: Site, b: Budgets, desired: DesiredCapacity, minFds: int, compute: seq<ExistingCompute>,
      eligible: set<string>, t: int): (r: Sizing)
    requires On(s, b) && eligible <= s.inv.Keys
  {
    match DerivedLayout(s, b, desired, minFds, compute, eligible, t)
    case NoLayout(binding) => NoSizing(Report(ComputeStage, binding, 0))
    case Layout(count, cores) =>
      var hp := HugepageSizing.ComputeHugepages(desired.raw, count, cores, s.cons);
      var lay := LayOut(s, b, compute, cores, hp);
      var shortfall: nat := Max(count * cores - LaidCores(lay.laid), 0);
      var covered := CoveredFds(s, lay.laid);
      var order := FreeOrder(s, lay.budgets, Pinned(s, compute), eligible, cores, hp, covered);
      var nNew := if shortfall > 0 then CeilDiv(shortfall, cores) else 0;
      if nNew > |order| then NoSizing(Report(ComputeStage, Cores, 0)) else
        var extended := Extend(covered, FdMap(s), order, nNew, minFds);
        if |SpanAt(covered, FdMap(s), order, extended)| < minFds then NoSizing(Report(ComputeStage, FailureDomains, 0))
        else Sized(Plan(count, cores, hp, lay, covered, order, shortfall, extended))
  }

  ghost predicate Placeable(s: Site, plan: Plan) {
    && On(s, plan.lay.budgets) && plan.nNew <= |plan.order| && Distinct(plan.order) && Resolved(FdMap(s), plan.order)
    && forall i :: 0 <= i < |plan.order| ==> plan.order[i] in s.inv
  }

  /** Place the new containers and re-derive the hugepages of the grown ones. */
  function Finish(s: Site, raw: Caps, plan: Plan): Outcome
    requires Placeable(s, plan)
  {
    var total := |plan.lay.laid| + plan.nNew;
    var kept := Resized(s, raw, plan.lay.laid, total);
    if plan.nNew == 0 then Placed(plan.lay.budgets, kept, total, plan.cores)
    else
      var r := PlaceNew(s, plan.lay.budgets, raw, plan.order, Max(plan.shortfall, plan.nNew), plan.nNew, total,
        plan.nNew);
      if !r.ok then Failed(Report(ComputeStage, Hugepages, 0))
      else Placed(r.budgets, kept + r.specs, total, plan.cores)
  }

  ghost function PlanCompute(s: Site, b: Budgets, desired: DesiredCapacity, minFds: int, compute: seq<ExistingCompute>,
      eligible: set<string>, t: int): Outcome
    requires On(s, b) && eligible <= s.inv.Keys
  {
    match Size(s, b, desired, minFds, compute, eligible, t)
    case NoSizing(report) => Failed(report)
    case Sized(plan) =>
      SizedOrder(s, b, desired, minFds, compute, eligible, t);
      Finish(s, desired.raw, plan)
  }

  lemma SizedOrder(s: Site, b: Budgets, desired: DesiredCapacity, minFds: int, compute: seq<ExistingCompute>,
      eligible: set<string>, t: int)
    requires On(s, b) && eligible <= s.inv.Keys
    requires Size(s, b, desired, minFds, compute, eligible, t).Sized?
    ensures var plan := Size(s, b, desired, minFds, compute, eligible, t).plan;
      && Placeable(s, plan)
      && forall x :: x in plan.order <==>
        x in eligible && x !in Pinned(s, compute) && Hosts(s, plan.lay.budgets, x, plan.cores, plan.hp)
  {
    hide LayOut, Extend, SpanAt;
    var plan := Size(s, b, desired, minFds, compute, eligible, t).plan;
    assert forall i :: 0 <= i < |plan.order| ==> plan.order[i] in FdMap(s);
  }

  // ----- what the stage leaves of the budgets, placed or not -----

  ghost function StagedBudgets(s: Site, b: Budgets, desired: DesiredCapacity, minFds: int,
      compute: seq<ExistingCompute>, eligible: set<string>, t: int): (r: Budgets)
    requires On(s, b) && eligible <= s.inv.Keys
    ensures On(s, r)
  {
    match DerivedLayout(s, b, desired, minFds, compute, eligible, t)
    case NoLayout(_) => b
    case Layout(count, cores) =>
      LayOut(s, b, compute, cores, HugepageSizing.ComputeHugepages(desired.raw, count, cores, s.cons)).budgets
  }

  function FinishedBudgets(s: Site, raw: Caps, plan: Plan): Budgets
    requires Placeable(s, plan)
  {
    if plan.nNew == 0 then plan.lay.budgets
    else PlaceNew(s, plan.lay.budgets, raw, plan.order, Max(plan.shortfall, plan.nNew), plan.nNew,
                  |plan.lay.laid| + plan.nNew, plan.nNew).budgets
  }

  /** The budgets when the stage ends, whether it places everything, fails part way or never starts. */
  ghost function BudgetsAfter(s: Site, b: Budgets, desired: DesiredCapacity, minFds: int, compute: seq<ExistingCompute>,
      eligible: set<string>, t: int): Budgets
    requires On(s, b) && eligible <= s.inv.Keys
  {
    match Size(s, b, desired, minFds, compute, eligible, t)
    case NoSizing(_) => StagedBudgets(s, b, desired, minFds, compute, eligible, t)
    case Sized(plan) =>
      SizedOrder(s, b, desired, minFds, compute, eligible, t);
      FinishedBudgets(s, desired.raw, plan)
  }
}
