/** PlanCapacity: both pools, emitted containers with their cores, then compute. */
module Planner {
  import opened Arith
  import opened Model
  import opened NodeBudget
  import opened Ledgers
  import opened PoolPlanner
  import opened DriveCoreCounts
  import PR = PlanRuns
  import CP = ComputePlanner

  datatype Input = Input(
    desired: DesiredCapacity,
    scheme: ProtectionScheme,
    drives: seq<ExistingContainer>,
    compute: seq<ExistingCompute>,
    inventory: seq<NodeCapacity>,
    computeNodes: Option<map<string, bool>>,
    cons: Constraints)
  {
    function Place(): Site { Site(PR.InventoryMap(inventory), drives, cons) }
  }

  datatype CapacityPlan = CapacityPlan(
    grow: seq<ContainerGrowth>,
    create: seq<NewContainer>,
    totalTlcDriveCores: int,
    totalQlcDriveCores: int,
    requiredComputeCores: int,
    computeContainers: int,
    computeCores: int,
    layout: seq<ComputeSpec>,
    notes: Notes)
  {
    predicate Feasible() { notes.infeasible.None? }
  }

  const EMPTY_PLAN := CapacityPlan([], [], 0, 0, 0, 0, 0, [], NO_NOTES)

  function Rejection(report: Report): CapacityPlan { EMPTY_PLAN.(notes := NO_NOTES.(infeasible := Some(report))) }

  // ----- fail-fast checks -----

  function MinProtectionFloor(allowSingleParity: bool): ProtectionScheme {
    if allowSingleParity then ProtectionScheme(2, 1, 0) else ProtectionScheme(3, 2, 0)
  }

  predicate ProtectionOk(scheme: ProtectionScheme, cons: Constraints) {
    var floor := MinProtectionFloor(cons.allowSingleParity);
    scheme.stripeWidth >= floor.stripeWidth && scheme.redundancyLevel >= floor.redundancyLevel &&
      scheme.hotSpare >= floor.hotSpare
  }

  /** splitDriveContainers: exact per-pool failure-domain counts by raw ratio; None when a share is too small. */
  function SplitDriveContainers(d: DesiredCapacity, minFd: int): Option<Caps> {
    var total := d.driveContainers;
    if total < minFd then None
    else if d.raw.tlc > 0 && d.raw.qlc > 0 then
      var tlc := RoundDiv(total * d.raw.tlc, d.raw.tlc + d.raw.qlc);
      if tlc < minFd || total - tlc < minFd then None else Some(Caps(tlc, total - tlc))
    else if d.raw.tlc > 0 then Some(Caps(total, 0))
    else if d.raw.qlc > 0 then Some(Caps(0, total))
    else Some(NO_CAPS)
  }

  /** The share of the total nearest to the ratio of the raw capacities; a tie goes to TLC. */
  predicate NearestShare(share: int, total: int, raw: Caps) {
    -(raw.tlc + raw.qlc) < 2 * (share * (raw.tlc + raw.qlc) - total * raw.tlc) <= raw.tlc + raw.qlc
  }

  lemma RoundDivNearest(a: int, b: int, r: int)
    requires a >= 0 && b > 0
    ensures r == RoundDiv(a, b) <==> -b < 2 * (r * b - a) <= b
  {
    var x := a + b / 2;
    DivAdjoint(r, x, b);
    DivAdjoint(r + 1, x, b);
    assert (r + 1) * b == r * b + b;
    assert r == x / b <==> r * b <= x < r * b + b;
    assert a == 0 ==> x / b == 0;
  }

  /**
   * An explicit container count goes to the one active pool, or is split by the nearest share. It is rejected exactly
   * when the total, or the share of a pool, is below the protection minimum.
   */
  lemma SplitExact(d: DesiredCapacity, minFd: int, share: int)
    requires d.driveContainers > 0
    requires d.raw.tlc > 0 && d.raw.qlc > 0 ==> NearestShare(share, d.driveContainers, d.raw)
    ensures var total, both := d.driveContainers, d.raw.tlc > 0 && d.raw.qlc > 0;
      SplitDriveContainers(d, minFd) ==
        if total < minFd || (both && (share < minFd || total - share < minFd)) then None
        else if both then Some(Caps(share, total - share))
        else Some(Caps(if d.raw.tlc > 0 then total else 0, if d.raw.qlc > 0 then total else 0))
  {
    if d.raw.tlc > 0 && d.raw.qlc > 0 {
      MulMono(0, d.driveContainers, d.raw.tlc);
      RoundDivNearest(d.driveContainers * d.raw.tlc, d.raw.tlc + d.raw.qlc, share);
    }
  }

  /** With both pools active the two targets add up to the count, each meets the minimum and TLC's is the nearest. */
  lemma TargetsSum(d: DesiredCapacity, minFd: int)
    requires d.driveContainers > 0 && d.raw.tlc > 0 && d.raw.qlc > 0 && Targets(d, minFd).Some?
    ensures var c := Targets(d, minFd).value;
      c.tlc + c.qlc == d.driveContainers && c.tlc >= minFd && c.qlc >= minFd
        && NearestShare(c.tlc, d.driveContainers, d.raw)
  {
    MulMono(0, d.driveContainers, d.raw.tlc);
    RoundDivNearest(d.driveContainers * d.raw.tlc, d.raw.tlc + d.raw.qlc, Targets(d, minFd).value.tlc);
  }

  function Targets(d: DesiredCapacity, minFd: int): Option<Caps> {
    if d.driveContainers > 0 then SplitDriveContainers(d, minFd) else Some(NO_CAPS)
  }

  // ----- emitted containers -----

  datatype GrowList = GrowList(list: seq<ContainerGrowth>, ok: bool)

  function EmitGrow(growth: map<string, Caps>, names: seq<string>, driveCores: int, cons: Constraints): GrowList
    requires forall i :: 0 <= i < |names| ==> names[i] in growth
  {
    if names == [] then GrowList([], true) else
      var prior := EmitGrow(growth, names[..|names| - 1], driveCores, cons);
      var name := names[|names| - 1];
      if !prior.ok then prior else
        match PinCores(growth[name], driveCores, cons)
        case TooManyCores => prior.(ok := false)
        case Pinned(cores, _) => prior.(list := prior.list + [ContainerGrowth(name, growth[name], cores)])
  }

  datatype CreateList = CreateList(list: seq<NewContainer>, budgets: map<string, Budget>, failure: Option<Report>)

  /** New containers with their cores; a pinned surplus over the derived count must still fit the node. */
  function EmitCreate(s: Site, l: Ledger, nodes: seq<string>, driveCores: int): (r: CreateList)
    requires Tracks(s, l) && forall i :: 0 <= i < |nodes| ==> nodes[i] in l.created
    ensures r.budgets.Keys == s.inv.Keys
  {
    if nodes == [] then CreateList([], l.budgets, None) else
      var prior := EmitCreate(s, l, nodes[..|nodes| - 1], driveCores);
      var node := nodes[|nodes| - 1];
      var n := l.created[node];
      if prior.failure.Some? then prior else
        match PinCores(n.caps, driveCores, s.cons)
        case TooManyCores => prior.(failure := Some(Report(ClusterWide, DriveCores, 0)))
        case Pinned(cores, derived) =>
          var entry := NewContainer(node, n.fd, n.caps, cores);
          if node !in s.inv then prior.(list := prior.list + [entry])
          else if !CanReserve(s.inv[node], prior.budgets[node], cores - derived, s.cons) then
            prior.(failure := Some(Report(ClusterWide, Cores, 0)))
          else
            prior.(list := prior.list + [entry],
                   budgets := prior.budgets[node := Reserve(s.inv[node], prior.budgets[node], cores - derived, s.cons)])
  }

  datatype Emission = Emission(grow: seq<ContainerGrowth>, create: seq<NewContainer>, budgets: map<string, Budget>,
    failure: Option<Report>)

  ghost function Emit(s: Site, l: Ledger, driveCores: int): (e: Emission)
    requires Tracks(s, l)
    ensures e.budgets.Keys == s.inv.Keys
  {
    var names, nodes := Recorded(l.growth.Keys), Recorded(l.created.Keys);
    var g := EmitGrow(l.growth, names, driveCores, s.cons);
    if !g.ok then Emission(g.list, [], l.budgets, Some(Report(ClusterWide, DriveCores, 0))) else
      var c := EmitCreate(s, l, nodes, driveCores);
      Emission(g.list, c.list, c.budgets, c.failure)
  }

  /** Record keys in name order. */
  ghost function Recorded(keys: set<string>): (names: seq<string>)
    ensures forall i :: 0 <= i < |names| ==> names[i] in keys
  {
    var names := CP.SortedNames(keys);
    CP.SortedNamesFacts(keys);
    assert forall i :: 0 <= i < |names| ==> names[i] in names;
    names
  }

  /** Distinct failure domains carrying drives in the final state. */
  function DistinctDriveFds(s: Site, l: Ledger): set<string> {
    (set c | c in s.existing && c.fdValue != "" :: c.fdValue) +
    (set n | n in l.created && l.created[n].fd != "" :: l.created[n].fd)
  }

  // ----- the plan -----

  ghost function Pools(input: Input, targets: Caps): (st: PoolState)
    ensures Tracks(input.Place(), st.ledger)
  {
    PlanPools(input.Place(), input.desired.raw, input.scheme.MinFdNum(), targets)
  }

  ghost function ComputeOf(input: Input, budgets: map<string, Budget>, required: int): CP.Outcome
    requires budgets.Keys == input.Place().inv.Keys
  {
    match input.computeNodes
    case None => CP.Failed(Report(ComputeStage, Unclassified, 0))
    case Some(nodes) =>
      CP.PlanCompute(input.Place(), budgets, input.desired, input.scheme.MinFdNum(), input.compute,
        CP.EligibleNodes(input.Place(), nodes), required)
  }

  /** The plan once drives are emitted: totals, the required compute cores and the compute stage. */
  ghost function WithCompute(input: Input, st: PoolState, e: Emission): CapacityPlan
    requires Tracks(input.Place(), st.ledger) && e.budgets.Keys == input.Place().inv.Keys
  {
    var tlc := ExistingTlcCores(input.drives, st.ledger, input.desired.driveCores, input.cons) +
      NewTlcCores(e.create, input.cons);
    var qlc := ExistingQlcCores(input.drives, st.ledger, input.desired.driveCores, input.cons) +
      NewQlcCores(e.create, input.cons);
    var required := RequiredComputeCores(tlc, qlc, false, input.cons);
    var plan := CapacityPlan(e.grow, e.create, tlc, qlc, required, 0, 0, [], st.notes);
    if st.notes.infeasible.Some? then plan else
      match ComputeOf(input, e.budgets, required)
      case Failed(report) => plan.(notes := plan.notes.(infeasible := Some(report)))
      case Placed(_, layout, count, cores) => plan.(computeContainers := count, computeCores := cores, layout := layout)
  }

  /** From placed pools to the plan: emit, check an explicit container count, then size compute. */
  ghost function Completed(input: Input, st: PoolState): CapacityPlan
    requires Tracks(input.Place(), st.ledger)
  {
    var e := Emit(input.Place(), st.ledger, input.desired.driveCores);
    var partial := EMPTY_PLAN.(grow := e.grow, create := e.create, notes := st.notes);
    if e.failure.Some? then partial.(notes := st.notes.(infeasible := e.failure))
    else if st.notes.infeasible.None? && input.desired.driveContainers > 0 &&
            |DistinctDriveFds(input.Place(), st.ledger)| != input.desired.driveContainers then
      partial.(notes := st.notes.(infeasible := Some(Report(ClusterWide, DriveContainers, 0))))
    else WithCompute(input, st, e)
  }

  ghost function PlanWith(input: Input, targets: Caps): CapacityPlan { Completed(input, Pools(input, targets)) }

  ghost function PlanCapacity(input: Input): CapacityPlan {
    if !ProtectionOk(input.scheme, input.cons) then Rejection(Report(ClusterWide, Protection, 0))
    else
      match Targets(input.desired, input.scheme.MinFdNum())
      case None => Rejection(Report(ClusterWide, DriveContainers, 0))
      case Some(targets) => PlanWith(input, targets)
  }

  // ----- applying a plan -----

  function FindGrow(grow: seq<ContainerGrowth>, name: string): Option<ContainerGrowth> {
    if grow == [] then None
    else if grow[|grow| - 1].name == name then Some(grow[|grow| - 1])
    else FindGrow(grow[..|grow| - 1], name)
  }

  /** An existing container after the plan's in-place growth. */
  function GrownContainer(c: ExistingContainer, grow: seq<ContainerGrowth>): ExistingContainer {
    match FindGrow(grow, c.name)
    case None => c
    case Some(g) => c.(caps := g.caps, numCores := g.newCores)
  }

  function GrownAll(drives: seq<ExistingContainer>, grow: seq<ContainerGrowth>): seq<ExistingContainer> {
    if drives == [] then []
    else GrownAll(drives[..|drives| - 1], grow) + [GrownContainer(drives[|drives| - 1], grow)]
  }

  /** A created container as it appears once running; its name is up to the controller. */
  function Launched(n: NewContainer, naming: string -> string): ExistingContainer {
    ExistingContainer(naming(n.node), n.node, n.fdValue, n.caps, n.numCores, false)
  }

  function LaunchedAll(create: seq<NewContainer>, naming: string -> string): seq<ExistingContainer> {
    if create == [] then [] else LaunchedAll(create[..|create| - 1], naming) + [Launched(create[|create| - 1], naming)]
  }

  /** The drive containers once the plan is carried out. */
  function Applied(drives: seq<ExistingContainer>, plan: CapacityPlan,
    naming: string -> string): seq<ExistingContainer> {
    GrownAll(drives, plan.grow) + LaunchedAll(plan.create, naming)
  }

  function CoreSum(drives: seq<ExistingContainer>): int {
    if drives == [] then 0 else CoreSum(drives[..|drives| - 1]) + drives[|drives| - 1].numCores
  }

  /** The cores of the containers that count for TLC, and for QLC. */
  function TlcSum(drives: seq<ExistingContainer>, cons: Constraints): int {
    if drives == [] then 0 else
      var c := drives[|drives| - 1];
      TlcSum(drives[..|drives| - 1], cons) + TlcCores(c.caps, c.numCores, cons)
  }

  function QlcSum(drives: seq<ExistingContainer>, cons: Constraints): int {
    if drives == [] then 0 else
      var c := drives[|drives| - 1];
      QlcSum(drives[..|drives| - 1], cons) + QlcCores(c.caps, c.numCores, cons)
  }

  /**
   * A plan is rejected for its protection exactly when a part of the scheme is below 3+2 without spares, or 2+1 where
   * single parity is allowed; so every feasible plan is protected.
   */
  lemma ProtectionExact(input: Input)
    ensures var single := input.cons.allowSingleParity;
      var weak := input.scheme.stripeWidth < (if single then 2 else 3) ||
        input.scheme.redundancyLevel < (if single then 1 else 2) || input.scheme.hotSpare < 0;
      && (weak ==> PlanCapacity(input) == Rejection(Report(ClusterWide, Protection, 0)))
      && (PlanCapacity(input).Feasible() ==> !weak)
  {
    hide Targets, PlanWith;
  }
}
