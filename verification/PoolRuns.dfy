/** planPool as the source runs it: decide, place in place, then measure what was placed. */
module PoolRuns {
  import opened Arith
  import opened Model
  import opened NodeBudget
  import opened Ledgers
  import opened Placement
  import opened Ordering
  import opened FreshFds
  import opened FreshScan
  import opened Deadband
  import opened PoolDecision
  import opened PoolScan
  import opened PoolPlanner
  import opened PlanRuns
  import Sums
  import UI = UniformIncrease

  // ----- existing failure domains as placement targets -----

  /** Headroom of every node for growing a container it already hosts. */
  method GrowRankTable(run: PlanRun, p: PoolKind) returns (rank: map<string, int>)
    requires run.Valid()
    ensures rank == GrowRanks(run.Place(), run.Value(), p)
  {
    hide HeadroomBinding;
    rank := map[];
    var left := run.states.Keys;
    ghost var s, l := run.Place(), run.Value();
    while left != {}
      invariant left <= run.states.Keys && rank.Keys == run.states.Keys - left
      invariant forall n :: n in rank ==> rank[n] == Headroom(s.inv[n], l.budgets[n], p, s.cons, false)
      decreases left
    {
      var n :| n in left;
      left := left - {n};
      var room, _ := run.states[n].NodeHeadroom(p, run.cons, false);
      rank := rank[n := room];
    }
  }

  ghost function MembersOf(m: map<string, string>, fd: string): set<string> { set n | n in m && m[n] == fd }

  ghost predicate MembersMatch(m: map<string, string>, byFd: map<string, set<string>>) {
    forall fd :: MembersOf(m, fd) == if fd in byFd then byFd[fd] else {}
  }

  lemma MembersAdd(m: map<string, string>, byFd: map<string, set<string>>, node: string, fd: string)
    requires MembersMatch(m, byFd)
    ensures var nodes := if fd in byFd then byFd[fd] else {};
      MembersMatch(if node in m then m else m[node := fd], byFd[fd := if node in m then nodes else nodes + {node}])
  {
    var nodes := if fd in byFd then byFd[fd] else {};
    assert nodes == MembersOf(m, fd);
    if node !in m {
      forall f ensures MembersOf(m[node := fd], f) == MembersOf(m, f) + if f == fd then {node} else {} {}
    }
  }

  /** Each pool-bearing failure domain with its nodes, a node under its first container's domain only. */
  method BearingTable(run: PlanRun, p: PoolKind) returns (fds: seq<string>, byFd: map<string, set<string>>)
    ensures fds == BearingFds(run.Place(), run.existing, p) && forall fd :: fd in byFd <==> fd in fds
    ensures MembersMatch(BearingNodes(run.Place(), run.existing, p), byFd)
  {
    var existing := run.existing;
    ghost var s := run.Place();
    fds, byFd := [], map[];
    var seen: set<string> := {};
    assert MembersMatch(map[], byFd);
    for i := 0 to |existing|
      invariant fds == BearingFds(s, existing[..i], p) && forall fd :: fd in byFd <==> fd in fds
      invariant forall n :: n in seen <==> n in BearingNodes(s, existing[..i], p)
      invariant MembersMatch(BearingNodes(s, existing[..i], p), byFd)
    {
      hide MembersMatch;
      assert existing[..i + 1][..i] == existing[..i];
      var c := existing[i];
      if c.fdValue != "" && !c.unscheduled && c.node != "" && c.node in run.states && c.caps.Of(p) > 0 {
        MembersAdd(BearingNodes(s, existing[..i], p), byFd, c.node, c.fdValue);
        var nodes := if c.fdValue in byFd then byFd[c.fdValue] else {};
        if c.fdValue !in byFd { fds := fds + [c.fdValue]; }
        if c.node !in seen { seen, nodes := seen + {c.node}, nodes + {c.node}; }
        byFd := byFd[c.fdValue := nodes];
      }
    }
    assert existing[..|existing|] == existing;
  }

  lemma IsExistingGroup(s: Site, l: Ledger, p: PoolKind, fd: string, members: set<string>)
    requires Tracks(s, l) && members == MembersOf(BearingNodes(s, s.existing, p), fd)
    ensures members <= GrowRanks(s, l, p).Keys
    ensures ExistingGroup(s, l, p, fd) == FdGroup(Ranking(GrowRanks(s, l, p), members), 0, false, false)
  {
    BearingOnSite(s, s.existing, p);
    hide Ranking, BearingNodes, HeadroomBinding;
  }

  /** Each domain's nodes, most headroom first and then by name. */
  method SortGroups(ghost s: Site, ghost l: Ledger, p: PoolKind, fds: seq<string>, byFd: map<string, set<string>>,
      rank: map<string, int>)
    returns (gs: seq<FdGroup>)
    requires Tracks(s, l) && rank == GrowRanks(s, l, p) && fds == BearingFds(s, s.existing, p)
    requires (forall fd :: fd in byFd <==> fd in fds) && MembersMatch(BearingNodes(s, s.existing, p), byFd)
    ensures gs == ExistingGroups(s, l, p)
  {
    hide GrowRanks, BearingFds, BearingNodes, Ranking, ExistingGroup;
    gs := [];
    for i := 0 to |fds|
      invariant |gs| == i && forall j :: 0 <= j < i ==> gs[j] == ExistingGroup(s, l, p, fds[j])
    {
      assert byFd[fds[i]] == MembersOf(BearingNodes(s, s.existing, p), fds[i]);
      IsExistingGroup(s, l, p, fds[i], byFd[fds[i]]);
      var nodes := SortByRank(rank, byFd[fds[i]]);
      gs := gs + [FdGroup(nodes, 0, false, false)];
    }
  }

  method ExistingFdsAsChosen(run: PlanRun, p: PoolKind) returns (gs: seq<FdGroup>)
    requires run.Valid()
    ensures gs == ExistingGroups(run.Place(), run.Value(), p)
  {
    hide GrowRanks, BearingFds, BearingNodes, ExistingGroups, MembersMatch;
    var fds, byFd := BearingTable(run, p);
    var rank := GrowRankTable(run, p);
    gs := SortGroups(run.Place(), run.Value(), p, fds, byFd, rank);
  }

  // ----- the frozen-domain guard of an explicit count -----

  method FindFrozenGap(run: PlanRun, p: PoolKind, level: int) returns (gap: int)
    ensures gap == FrozenGap(run.Place(), p, level)
  {
    if run.cons.allowInPlaceGrowth { return 0; }
    var fds, perFd := FdTotals(run.existing, p);
    hide PoolFds, FdCap;
    for i := 0 to |fds|
      invariant FirstGap(run.existing, fds, p, level) == FirstGap(run.existing, fds[i..], p, level)
    {
      assert fds[i] in Elems(fds) && fds[i..][0] == fds[i] && fds[i..][1..] == fds[i + 1..];
      if perFd[fds[i]] < level { return level - perFd[fds[i]]; }
    }
    return 0;
  }

  // ----- finalizePoolFeasibility -----

  method SumCreated(run: PlanRun, p: PoolKind) returns (placed: int)
    ensures placed == Sums.Total(PoolView(run.newByNode, p))
  {
    var created := run.newByNode;
    ghost var view := PoolView(created, p);
    var left := created.Keys;
    placed := 0;
    ghost var rest := view;
    while left != {}
      invariant left <= created.Keys && rest == view - (created.Keys - left)
      invariant placed + Sums.Total(rest) == Sums.Total(view)
      decreases left
    {
      var n :| n in left;
      Sums.TotalTake(rest, n);
      left, rest := left - {n}, rest - {n};
      placed := placed + created[n].caps.Of(p);
    }
    assert rest.Keys == {};
  }

  method SumCounted(run: PlanRun, p: PoolKind, freshOnly: bool) returns (placed: int)
    ensures placed == CountedSum(run.existing, run.Value(), p, freshOnly)
  {
    var existing := run.existing;
    placed := 0;
    for i := 0 to |existing|
      invariant placed == CountedSum(existing[..i], run.Value(), p, freshOnly)
    {
      assert existing[..i + 1][..i] == existing[..i];
      var c := existing[i];
      if !(freshOnly && c.caps.Of(p) > 0 && c.fdValue != "") {
        placed := placed + (if c.name in run.growth then run.growth[c.name] else c.caps).Of(p);
      }
    }
    assert existing[..|existing|] == existing;
  }

  /** poolFds: the failure domains that carry the pool once the plan is applied. */
  method CollectFds(run: PlanRun, p: PoolKind) returns (fds: set<string>)
    ensures fds == CarryingFds(run.Place(), run.Value(), p)
  {
    var existing, created := run.existing, run.newByNode;
    ghost var l := run.Value();
    var held: set<string> := {};
    for i := 0 to |existing|
      invariant held == set c | c in existing[..i] && FinalCap(l, c, p) > 0 && c.fdValue != "" :: c.fdValue
    {
      assert existing[..i + 1] == existing[..i] + [existing[i]];
      var c := existing[i];
      var cap := (if c.name in run.growth then run.growth[c.name] else c.caps).Of(p);
      if cap > 0 && c.fdValue != "" { held := held + {c.fdValue}; }
    }
    assert existing[..|existing|] == existing;
    var started: set<string> := {};
    var left := created.Keys;
    while left != {}
      invariant left <= created.Keys
      invariant started == set n | n in created && n !in left && created[n].caps.Of(p) > 0 && created[n].fd != "" ::
        created[n].fd
      decreases left
    {
      var n :| n in left;
      left := left - {n};
      if created[n].caps.Of(p) > 0 && created[n].fd != "" { started := started + {created[n].fd}; }
    }
    fds := held + started;
  }

  method Finalize(run: PlanRun, p: PoolKind, desired: int, minFd: int, freshOnly: bool)
    returns (verdict: Option<Report>)
    ensures verdict == Feasibility(run.Place(), run.Value(), p, desired, minFd, freshOnly)
  {
    hide CountedSum, CarryingFds, PoolView;
    var created := SumCreated(run, p);
    var counted := SumCounted(run, p, freshOnly);
    var shortfall := Max(0, CoverTarget(desired, run.cons) - (counted + created));
    if shortfall > 0 { return Some(Report(DrivePool(p), DriveCapacity, shortfall)); }
    var fds := CollectFds(run, p);
    return if |fds| < minFd then Some(Report(DrivePool(p), FailureDomains, 0)) else None;
  }

  // ----- carrying a decision out -----

  /** Place what was chosen, then judge what the placement actually realized. */
  method Realize(run: PlanRun, notes: Notes, p: PoolKind, desired: int, minFd: int, level: nat, chosen: seq<FdGroup>,
      route: Route)
    returns (after: Notes)
    requires run.Valid() && UniqueNames(run.existing) && AllOnSite(run.Place(), chosen)
    modifies run, run.states.Values
    ensures PoolState(run.Value(), after) ==
      Realized(run.Place(), PoolState(old(run.Value()), notes), p, desired, minFd, level, chosen, route)
  {
    hide Placement.PlaceUniform, Feasibility;
    run.PlaceUniform(p, level, chosen);
    var verdict := Finalize(run, p, desired, minFd, route.FreshRoute?);
    after := notes;
    if verdict.Some? { after := after.(infeasible := verdict); }
    if after.infeasible.None? {
      match route {
        case FreshRoute(fallback) => if fallback { after := after.(abandoned := after.abandoned + [p]); }
        case IncreaseRoute(predicted) =>
          if predicted > desired {
            after := after.(overProvisions := after.overProvisions + [OverProvision(p, predicted - desired)]);
          }
        case ExplicitRoute =>
      }
    }
  }

  /** The state a decision leads to. */
  ghost function Carried(s: Site, st: PoolState, p: PoolKind, desired: int, minFd: int, d: Decision): PoolState
    requires Tracks(s, st.ledger) && (d.Place? ==> AllOnSite(s, d.chosen))
  {
    match d
    case Keep => st
    case Shrink => st.(notes := st.notes.(shrink := st.notes.shrink + [p]))
    case Reject(report) => st.(notes := st.notes.(infeasible := Some(report)))
    case Place(level, chosen, route) => Realized(s, st, p, desired, minFd, level, chosen, route)
  }

  method Carry(run: PlanRun, notes: Notes, p: PoolKind, desired: int, minFd: int, d: Decision) returns (after: Notes)
    requires run.Valid() && UniqueNames(run.existing) && (d.Place? ==> AllOnSite(run.Place(), d.chosen))
    modifies run, run.states.Values
    ensures PoolState(run.Value(), after) ==
      Carried(run.Place(), PoolState(old(run.Value()), notes), p, desired, minFd, d)
  {
    hide Realized;
    match d {
      case Keep => after := notes;
      case Shrink => after := notes.(shrink := notes.shrink + [p]);
      case Reject(report) => after := notes.(infeasible := Some(report));
      case Place(level, chosen, route) => after := Realize(run, notes, p, desired, minFd, level, chosen, route);
    }
  }

  // ----- reaching a decision -----

  method DecideFresh(run: PlanRun, p: PoolKind, desired: int, minFd: int, isFallback: bool) returns (d: Decision)
    requires run.Valid()
    ensures d == FreshDecision(run.Place(), run.Value(), p, desired, minFd, isFallback)
  {
    hide FreshGroups, SelectUniform, FreshExclusion, PreferNodes, UniformShortfall;
    var prefer := PreferredNodes(run, p);
    var exclude := Exclusion(run, p);
    var candidates := OrderFreshFdGroups(run, p, exclude);
    var selection := SelectUniformScan(desired, minFd, candidates, prefer, run.cons.minChunk);
    match selection {
      case Tiling(chosen, level) => return Place(level, chosen, FreshRoute(isFallback));
      case NoTiling =>
        return Reject(Report(DrivePool(p), if |candidates| < minFd then FailureDomains else DriveCapacity,
                             UniformShortfall(candidates, desired, minFd, run.cons.minChunk)));
    }
  }

  method DecideExplicit(run: PlanRun, p: PoolKind, desired: int, targetFds: int) returns (d: Decision)
    requires run.Valid()
    ensures d == ExplicitDecision(run.Place(), run.Value(), p, desired, targetFds)
  {
    hide FreshGroups, TakeFresh, ExistingGroups, FreshExclusion, FrozenGap, ExactNewFds, PoolCurrent;
    var current, _ := PoolSums(run.existing, p);
    var exactNewFds := ExactNewFds(run.existing, p, targetFds, desired - current, run.cons);
    if exactNewFds.None? { return Reject(Report(DrivePool(p), DriveContainers, 0)); }
    var level := CeilDiv(desired, targetFds);
    var gap := FindFrozenGap(run, p, level);
    if gap > 0 { return Reject(Report(DrivePool(p), DriveContainers, gap)); }
    var chosen := ExistingFdsAsChosen(run, p);
    var exclude := Exclusion(run, p);
    var groups := OrderFreshFdGroups(run, p, exclude);
    var added := TakeFreshAtLevel(groups, exactNewFds.value, level);
    return Place(level, chosen + added, ExplicitRoute);
  }

  method DecideByIncrease(run: PlanRun, p: PoolKind, desired: int, minFd: int) returns (d: Decision)
    requires run.Valid()
    ensures d == IncreaseDecision(run.Place(), run.Value(), p, desired, minFd)
  {
    hide IncreaseFor, UI.Decide, TakeFresh, ExistingGroups;
    var inc := Figures(run, p, desired, minFd);
    var outcome := DecideIncrease(inc);
    match outcome {
      case CreateEven(k, size) =>
        var chosen := TakeFreshAtLevel(inc.spare, k, size);
        return Place(size, chosen, IncreaseRoute(inc.current + k * size));
      case CreateAtT0(kFresh, level, total) =>
        var chosen := TakeFreshAtLevel(inc.spare, kFresh, level);
        return Place(level, chosen, IncreaseRoute(total));
      case GrowTo(kFresh, level, total) =>
        var grown := ExistingFdsAsChosen(run, p);
        var added := TakeFreshAtLevel(inc.spare, kFresh, level);
        return Place(level, grown + added, IncreaseRoute(total));
      case GiveUp(binding) => return Reject(Report(DrivePool(p), binding, inc.Delta()));
    }
  }

  method Decide(run: PlanRun, p: PoolKind, desired: int, minFd: int, targetFds: int) returns (d: Decision)
    requires run.Valid()
    ensures d == DecidePool(run.Place(), run.Value(), p, desired, minFd, targetFds)
  {
    hide FreshDecision, ExplicitDecision, IncreaseDecision, PoolCurrent, PoolAverage, PoolFds, FdCap;
    if desired <= 0 { return Keep; }
    var current, average := PoolSums(run.existing, p);
    var delta := desired - current;
    if delta < 0 { return if current - desired > OverProvisionCap(desired, run.cons) then Shrink else Keep; }
    if !CapacityShort(current, desired, run.cons) { return Keep; }
    if targetFds == 0 && UI.DetectImbalance(GrowChunk(delta, minFd, run.cons), average, run.cons) {
      d := DecideFresh(run, p, desired, minFd, true);
      if d.Place? { return; }
    }
    if targetFds > 0 {
      d := DecideExplicit(run, p, desired, targetFds);
      return;
    }
    var fds, _ := FdTotals(run.existing, p);
    if |fds| > 0 {
      d := DecideByIncrease(run, p, desired, minFd);
    } else {
      d := DecideFresh(run, p, desired, minFd, false);
    }
  }

  method PlanPool(run: PlanRun, notes: Notes, p: PoolKind, desired: int, minFd: int, targetFds: int)
    returns (after: Notes)
    requires run.Valid() && UniqueNames(run.existing)
    modifies run, run.states.Values
    ensures PoolState(run.Value(), after) ==
      PoolPlanner.PlanPool(run.Place(), PoolState(old(run.Value()), notes), p, desired, minFd, targetFds)
  {
    hide DecidePool, Realized;
    ChosenOnSite(run.Place(), run.Value(), p, desired, minFd, targetFds);
    var d := Decide(run, p, desired, minFd, targetFds);
    after := Carry(run, notes, p, desired, minFd, d);
  }
}
