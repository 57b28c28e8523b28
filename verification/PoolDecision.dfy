/** planPool: what to place for one pool, before anything is placed. */
module PoolDecision {
  import opened Arith
  import opened Model
  import opened NodeBudget
  import opened Ledgers
  import opened Placement
  import opened Ordering
  import opened FreshFds
  import opened Deadband
  import UI = UniformIncrease

  // ----- figures over the existing containers -----

  /** A scheduled container with a failure domain, on a node the inventory knows. */
  predicate Placed(s: Site, c: ExistingContainer) {
    c.fdValue != "" && !c.unscheduled && c.node != "" && c.node in s.inv
  }

  function AddKey(seen: seq<string>, k: string): seq<string> { if k in seen then seen else seen + [k] }

  /** Failure domains carrying pool p, in first-seen order. */
  function PoolFds(existing: seq<ExistingContainer>, p: PoolKind): seq<string> {
    if existing == [] then [] else
      var c := existing[|existing| - 1];
      var seen := PoolFds(existing[..|existing| - 1], p);
      if c.fdValue != "" && c.caps.Of(p) > 0 then AddKey(seen, c.fdValue) else seen
  }

  /** Pool-p capacity of one failure domain. */
  function FdCap(existing: seq<ExistingContainer>, fd: string, p: PoolKind): int {
    if existing == [] then 0 else
      var c := existing[|existing| - 1];
      FdCap(existing[..|existing| - 1], fd, p) + if c.fdValue == fd && c.caps.Of(p) > 0 then c.caps.Of(p) else 0
  }

  function MinFdCap(existing: seq<ExistingContainer>, fds: seq<string>, p: PoolKind): int {
    if fds == [] then 0 else
      var m, v := MinFdCap(existing, fds[..|fds| - 1], p), FdCap(existing, fds[|fds| - 1], p);
      if m == 0 || v < m then v else m
  }

  function MaxFdCap(existing: seq<ExistingContainer>, fds: seq<string>, p: PoolKind): int {
    if fds == [] then 0 else Max(MaxFdCap(existing, fds[..|fds| - 1], p), FdCap(existing, fds[|fds| - 1], p))
  }

  /** Average capacity of the containers that carry the pool, 0 when none does. */
  function PoolAverage(existing: seq<ExistingContainer>, p: PoolKind): int {
    var n := PoolCount(existing, p);
    if n == 0 then 0 else GoDiv(PoolPositive(existing, p), n)
  }

  function PoolCount(existing: seq<ExistingContainer>, p: PoolKind): nat {
    if existing == [] then 0
    else PoolCount(existing[..|existing| - 1], p) + if existing[|existing| - 1].caps.Of(p) > 0 then 1 else 0
  }

  function PoolPositive(existing: seq<ExistingContainer>, p: PoolKind): int {
    if existing == [] then 0
    else PoolPositive(existing[..|existing| - 1], p) + Max(0, existing[|existing| - 1].caps.Of(p))
  }

  /** Failure domains with a placed container of any pool, in first-seen order. */
  function PlacedFds(s: Site, existing: seq<ExistingContainer>): seq<string> {
    if existing == [] then [] else
      var c := existing[|existing| - 1];
      var seen := PlacedFds(s, existing[..|existing| - 1]);
      if Placed(s, c) then AddKey(seen, c.fdValue) else seen
  }

  function FdReach(s: Site, l: Ledger, existing: seq<ExistingContainer>, fd: string, p: PoolKind): UI.Reach
    requires Tracks(s, l)
  {
    if existing == [] then UI.Reach(0, 0) else
      var c := existing[|existing| - 1];
      var r := FdReach(s, l, existing[..|existing| - 1], fd, p);
      if Placed(s, c) && c.fdValue == fd then
        UI.Reach(r.cap + c.caps.Of(p),
                 r.ceiling + c.caps.Of(p) + Headroom(s.inv[c.node], l.budgets[c.node], p, s.cons, false))
      else r
  }

  function Reaches(s: Site, l: Ledger, p: PoolKind): seq<UI.Reach>
    requires Tracks(s, l)
  {
    var fds := PlacedFds(s, s.existing);
    seq(|fds|, i requires 0 <= i < |fds| => FdReach(s, l, s.existing, fds[i], p))
  }

  ghost function SpareGroups(s: Site, l: Ledger, p: PoolKind): seq<FdGroup>
    requires Tracks(s, l)
  {
    ColocatedFirst(FreshGroups(s, l, p), PreferNodes(l, p))
  }

  ghost function IncreaseFor(s: Site, l: Ledger, p: PoolKind, desired: int, minFd: int): UI.Increase
    requires Tracks(s, l)
  {
    var fds := PoolFds(s.existing, p);
    UI.Increase(
      desired, minFd, PoolCurrent(s.existing, p), |fds|,
      Max(s.cons.minChunk, MinFdCap(s.existing, fds, p)),
      Max(s.cons.minChunk, MaxFdCap(s.existing, fds, p)),
      PoolAverage(s.existing, p),
      Overshoot(desired, s.cons),
      SpareGroups(s, l, p), Reaches(s, l, p), s.cons)
  }

  // ----- existing failure domains as placement targets -----

  predicate Bears(s: Site, c: ExistingContainer, p: PoolKind) { Placed(s, c) && c.caps.Of(p) > 0 }

  /** Nodes bearing the pool, each under the failure domain of its first such container. */
  function BearingNodes(s: Site, existing: seq<ExistingContainer>, p: PoolKind): map<string, string> {
    if existing == [] then map[] else
      var c := existing[|existing| - 1];
      var m := BearingNodes(s, existing[..|existing| - 1], p);
      if Bears(s, c, p) && c.node !in m then m[c.node := c.fdValue] else m
  }

  function BearingFds(s: Site, existing: seq<ExistingContainer>, p: PoolKind): seq<string> {
    if existing == [] then [] else
      var c := existing[|existing| - 1];
      var seen := BearingFds(s, existing[..|existing| - 1], p);
      if Bears(s, c, p) then AddKey(seen, c.fdValue) else seen
  }

  lemma {:induction false} BearingOnSite(s: Site, existing: seq<ExistingContainer>, p: PoolKind)
    ensures BearingNodes(s, existing, p).Keys <= s.inv.Keys
  {
    if existing != [] { BearingOnSite(s, existing[..|existing| - 1], p); }
  }

  function GrowRanks(s: Site, l: Ledger, p: PoolKind): map<string, int>
    requires Tracks(s, l)
  {
    map n | n in s.inv :: Headroom(s.inv[n], l.budgets[n], p, s.cons, false)
  }

  ghost function ExistingGroup(s: Site, l: Ledger, p: PoolKind, fd: string): (g: FdGroup)
    requires Tracks(s, l)
    ensures OnSite(s, g)
  {
    var m := BearingNodes(s, s.existing, p);
    BearingOnSite(s, s.existing, p);
    var members := set n | n in m && m[n] == fd;
    RankingDistinct(GrowRanks(s, l, p), members);
    var nodes := Ranking(GrowRanks(s, l, p), members);
    assert forall i :: 0 <= i < |nodes| ==> nodes[i] in Elems(nodes);
    FdGroup(nodes, 0, false, false)
  }

  ghost function ExistingGroups(s: Site, l: Ledger, p: PoolKind): (gs: seq<FdGroup>)
    requires Tracks(s, l)
    ensures AllOnSite(s, gs)
  {
    var fds := BearingFds(s, s.existing, p);
    seq(|fds|, i requires 0 <= i < |fds| => ExistingGroup(s, l, p, fds[i]))
  }

  // ----- explicit driveContainers -----

  /** resolveExactNewFds: the number of failure domains to add, or None when the pin cannot be met. */
  function ExactNewFds(existing: seq<ExistingContainer>, p: PoolKind, targetFds: int, delta: int,
    cons: Constraints): Option<nat> {
    var extra := targetFds - |PoolFds(existing, p)|;
    if extra < 0 || (delta > 0 && extra == 0) || (extra > 0 && GoDiv(delta, extra) < cons.minChunk) then None
    else Some(extra)
  }

  /** What the first failure domain below the level lacks, 0 when none is below. */
  function FirstGap(existing: seq<ExistingContainer>, fds: seq<string>, p: PoolKind, level: int): int {
    if fds == [] then 0
    else if FdCap(existing, fds[0], p) < level then level - FdCap(existing, fds[0], p)
    else FirstGap(existing, fds[1..], p, level)
  }

  /** The gap of an existing failure domain below the level when none may be grown. */
  function FrozenGap(s: Site, p: PoolKind, level: int): int {
    if s.cons.allowInPlaceGrowth then 0 else FirstGap(s.existing, PoolFds(s.existing, p), p, level)
  }

  // ----- the decision -----

  /** Which existing failure domains a placement leaves out of its coverage, and why it was chosen. */
  datatype Route = FreshRoute(fallback: bool) | IncreaseRoute(predicted: int) | ExplicitRoute

  datatype Decision =
    | Keep
    | Shrink
    | Reject(report: Report)
    | Place(level: nat, chosen: seq<FdGroup>, route: Route)

  ghost function FreshDecision(s: Site, l: Ledger, p: PoolKind, desired: int, minFd: int, fallback: bool): Decision
    requires Tracks(s, l)
  {
    var gs := FreshGroups(s, l, p);
    match SelectUniform(gs, desired, minFd, s.cons.minChunk, PreferNodes(l, p))
    case NoTiling =>
      Reject(Report(DrivePool(p), if |gs| < minFd then FailureDomains else DriveCapacity,
                    UniformShortfall(gs, desired, minFd, s.cons.minChunk)))
    case Tiling(chosen, level) => Place(level, chosen, FreshRoute(fallback))
  }

  ghost function ExplicitDecision(s: Site, l: Ledger, p: PoolKind, desired: int, targetFds: int): Decision
    requires Tracks(s, l)
  {
    var delta := desired - PoolCurrent(s.existing, p);
    var level := CeilDiv(desired, targetFds);
    match ExactNewFds(s.existing, p, targetFds, delta, s.cons)
    case None => Reject(Report(DrivePool(p), DriveContainers, 0))
    case Some(extra) =>
      if FrozenGap(s, p, level) > 0 then Reject(Report(DrivePool(p), DriveContainers, FrozenGap(s, p, level)))
      else Place(level, ExistingGroups(s, l, p) + TakeFresh(FreshGroups(s, l, p), extra, level), ExplicitRoute)
  }

  ghost function IncreaseDecision(s: Site, l: Ledger, p: PoolKind, desired: int, minFd: int): Decision
    requires Tracks(s, l)
  {
    var inc := IncreaseFor(s, l, p, desired, minFd);
    match UI.Decide(inc)
    case CreateEven(k, size) => Place(size, TakeFresh(inc.spare, k, size), IncreaseRoute(inc.current + k * size))
    case CreateAtT0(kFresh, level, total) => Place(level, TakeFresh(inc.spare, kFresh, level), IncreaseRoute(total))
    case GrowTo(kFresh, level, total) =>
      Place(level, ExistingGroups(s, l, p) + TakeFresh(inc.spare, kFresh, level), IncreaseRoute(total))
    case GiveUp(binding) => Reject(Report(DrivePool(p), binding, inc.Delta()))
  }

  /** The even per-FD chunk a delta would add, floored at the minimum chunk. */
  function GrowChunk(delta: int, minFd: int, cons: Constraints): int { Max(cons.minChunk, CeilDiv(delta, minFd)) }

  ghost function DecidePool(s: Site, l: Ledger, p: PoolKind, desired: int, minFd: int, targetFds: int): Decision
    requires Tracks(s, l)
  {
    var current := PoolCurrent(s.existing, p);
    if desired <= 0 then Keep
    else if desired < current then
      if current - desired > OverProvisionCap(desired, s.cons) then Shrink else Keep
    else if !CapacityShort(current, desired, s.cons) then Keep
    else
      var fallback :=
        if targetFds == 0 &&
          UI.DetectImbalance(GrowChunk(desired - current, minFd, s.cons), PoolAverage(s.existing, p), s.cons)
        then FreshDecision(s, l, p, desired, minFd, true) else Keep;
      if fallback.Place? then fallback
      else if targetFds > 0 then ExplicitDecision(s, l, p, desired, targetFds)
      else if |PoolFds(s.existing, p)| > 0 then IncreaseDecision(s, l, p, desired, minFd)
      else FreshDecision(s, l, p, desired, minFd, false)
  }

  // ----- every decision can be carried out -----

  lemma TakeFreshList(s: Site, l: Ledger, p: PoolKind, gs: seq<FdGroup>, k: nat, level: int)
    requires Tracks(s, l) && FreshList(s, l, p, gs)
    ensures FreshList(s, l, p, TakeFresh(gs, k, level))
    ensures |TakeFresh(gs, k, level)| == Min(k, CountAtLeast(gs, level))
    ensures forall g :: g in TakeFresh(gs, k, level) ==> g in gs && g.headroom >= level
  {
    FreshListNoDup(s, l, p, gs);
    TakeFreshExact(gs, k, level);
    SublistFresh(s, l, p, gs, TakeFresh(gs, k, level));
  }

  lemma SpareFresh(s: Site, l: Ledger, p: PoolKind)
    requires Tracks(s, l)
    ensures FreshList(s, l, p, SpareGroups(s, l, p))
  {
    FreshGroupsAreFresh(s, l, p);
    ColocatedFirstFresh(s, l, p, FreshGroups(s, l, p), PreferNodes(l, p));
  }

  lemma PickedFresh(s: Site, l: Ledger, p: PoolKind, n: nat, target: int)
    requires Tracks(s, l)
    ensures FreshList(s, l, p, PickColocated(FreshGroups(s, l, p), n, target, PreferNodes(l, p)))
  {
    var gs := FreshGroups(s, l, p);
    FreshGroupsAreFresh(s, l, p);
    FreshListNoDup(s, l, p, gs);
    PickColocatedExact(gs, n, target, PreferNodes(l, p));
    SublistFresh(s, l, p, gs, PickColocated(gs, n, target, PreferNodes(l, p)));
  }

  lemma FreshOnSite(s: Site, l: Ledger, p: PoolKind, desired: int, minFd: int, fallback: bool)
    requires Tracks(s, l)
    ensures var d := FreshDecision(s, l, p, desired, minFd, fallback); d.Place? ==> FreshList(s, l, p, d.chosen)
  {
    var n := FirstTiling(FreshGroups(s, l, p), desired, s.cons.minChunk, Max(minFd, 1));
    if n.Some? { PickedFresh(s, l, p, n.value, UniformShare(desired, n.value, s.cons.minChunk)); }
  }

  lemma ExplicitOnSite(s: Site, l: Ledger, p: PoolKind, desired: int, targetFds: int)
    requires Tracks(s, l)
    ensures var d := ExplicitDecision(s, l, p, desired, targetFds); d.Place? ==> AllOnSite(s, d.chosen)
  {
    var d := ExplicitDecision(s, l, p, desired, targetFds);
    FreshGroupsAreFresh(s, l, p);
    if d.Place? {
      var extra := ExactNewFds(s.existing, p, targetFds, desired - PoolCurrent(s.existing, p), s.cons).value;
      TakeFreshList(s, l, p, FreshGroups(s, l, p), extra, CeilDiv(desired, targetFds));
    }
  }

  lemma IncreaseOnSite(s: Site, l: Ledger, p: PoolKind, desired: int, minFd: int)
    requires Tracks(s, l)
    ensures var d := IncreaseDecision(s, l, p, desired, minFd); d.Place? ==> AllOnSite(s, d.chosen)
  {
    var inc := IncreaseFor(s, l, p, desired, minFd);
    SpareFresh(s, l, p);
    hide UI.Decide, TakeFresh, SpareGroups, ExistingGroups;
    match UI.Decide(inc) {
      case CreateEven(k, size) => TakeFreshList(s, l, p, inc.spare, k, size);
      case CreateAtT0(kFresh, level, t) => TakeFreshList(s, l, p, inc.spare, kFresh, level);
      case GrowTo(kFresh, level, t) => TakeFreshList(s, l, p, inc.spare, kFresh, level);
      case GiveUp(_) =>
    }
  }

  /** Whatever is decided names only nodes of the inventory, so it can be carried out. */
  lemma ChosenOnSite(s: Site, l: Ledger, p: PoolKind, desired: int, minFd: int, targetFds: int)
    requires Tracks(s, l)
    ensures var d := DecidePool(s, l, p, desired, minFd, targetFds); d.Place? ==> AllOnSite(s, d.chosen)
  {
    FreshOnSite(s, l, p, desired, minFd, true);
    FreshOnSite(s, l, p, desired, minFd, false);
    ExplicitOnSite(s, l, p, desired, targetFds);
    IncreaseOnSite(s, l, p, desired, minFd);
    hide FreshDecision, ExplicitDecision, IncreaseDecision;
  }
}
