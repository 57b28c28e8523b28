/** The nodes a second pool prefers, where the first started a container, and what preferring them means. */
module SharedNodes {
  import opened Model
  import opened NodeBudget
  import opened Ledgers
  import opened Placement
  import opened FreshFds
  import opened PoolDecision
  import opened PoolPlanner
  import opened Planner
  import opened PlanTheorems
  import opened AdvisoryTheorems
  import opened GrowRecords
  import opened Preference
  import Seating
  import PR = PlanRuns

  /** The other pool was planned before p and filled a new container on the node. */
  ghost predicate OtherStarted(input: Input, p: PoolKind, n: string) {
    && FirstPool(input.Place(), input.desired.raw) != p && n in input.Place().inv
    && HostOn(input.drives, n).None? && Gained(input, p.Other(), n) > 0
  }

  lemma SeatedBefore(input: Input, p: PoolKind)
    ensures Seating.Seated(input.Place(), StateBefore(input, p).ledger)
  {
    var s, raw, a := input.Place(), input.desired.raw, FirstPool(input.Place(), input.desired.raw);
    hide PlanPool, FirstPool, Seating.Seated, PR.InventoryMap;
    Seating.NoneSeated(s);
    Seating.PoolSeated(s, PoolState(Opening(s.inv), NO_NOTES), a, raw.Of(a), input.scheme.MinFdNum(),
      TargetsOf(input).Of(a));
  }

  /** The nodes preferred for a pool are exactly those where the other pool, planned first, filled a new container. */
  lemma PreferExact(input: Input, p: PoolKind, n: string)
    requires UniqueNames(input.drives) && NonNegativeDrives(input.drives)
    ensures n in PreferNodes(StateBefore(input, p).ledger, p) <==> OtherStarted(input, p, n)
  {
    var s, a := input.Place(), FirstPool(input.Place(), input.desired.raw);
    hide PlanPool, FirstPool, PR.InventoryMap, HostOn, Touched, FdCompleted, Gained, LedgerAfter, StateBefore, PoolsOf,
      Charge;
    Ledgers3(input);
    SeatedBefore(input, p);
    if p != a && n in s.inv {
      assert a == p.Other();
      InputEffect(input, a, n);
    }
  }

  /** One of the nodes of the failure domain is such a node. */
  ghost predicate Shared(input: Input, p: PoolKind, g: FdGroup) {
    exists n :: n in g.nodes && OtherStarted(input, p, n)
  }

  lemma SharedExact(input: Input, p: PoolKind, g: FdGroup)
    requires UniqueNames(input.drives) && NonNegativeDrives(input.drives)
    ensures IsColocated(g, PreferNodes(StateBefore(input, p).ledger, p)) <==> Shared(input, p, g)
  {
    hide StateBefore, PreferNodes, OtherStarted, PR.InventoryMap;
    forall n ensures n in PreferNodes(StateBefore(input, p).ledger, p) <==> OtherStarted(input, p, n) {
      PreferExact(input, p, n);
    }
    if Shared(input, p, g) {
      var n :| n in g.nodes && OtherStarted(input, p, n);
      var i :| 0 <= i < |g.nodes| && g.nodes[i] == n;
    }
  }

  lemma FreshPicks(s: Site, l: Ledger, p: PoolKind, desired: int, minFd: int, fallback: bool, g: FdGroup, h: FdGroup)
    requires Tracks(s, l) && FreshDecision(s, l, p, desired, minFd, fallback).Place?
    requires var d := FreshDecision(s, l, p, desired, minFd, fallback);
      g in d.chosen && h in FreshGroups(s, l, p) && h.headroom >= d.level && h !in d.chosen
    ensures IsColocated(h, PreferNodes(l, p)) ==> IsColocated(g, PreferNodes(l, p))
  {
    var d, gs, prefer := FreshDecision(s, l, p, desired, minFd, fallback), FreshGroups(s, l, p), PreferNodes(l, p);
    var n := FirstTiling(gs, desired, s.cons.minChunk, Arith.Max(minFd, 1)).value;
    hide FreshGroups, PreferNodes, PickColocated, FirstTiling, IsColocated, UniformShortfall, UniformShare;
    assert d.chosen == PickColocated(gs, n, d.level, prefer);
    PickPrefers(gs, n, d.level, prefer, g, h);
  }

  /** A pool started afresh passes no able failure domain with such a node over for one without. */
  lemma FreshShares(input: Input, p: PoolKind, g: FdGroup, h: FdGroup)
    requires UniqueNames(input.drives) && NonNegativeDrives(input.drives)
    requires DecisionFor(input, p).Place? && DecisionFor(input, p).route.FreshRoute?
    requires g in DecisionFor(input, p).chosen && h in FreshGroups(input.Place(), StateBefore(input, p).ledger, p)
    requires h.headroom >= DecisionFor(input, p).level && h !in DecisionFor(input, p).chosen
    ensures Shared(input, p, h) ==> Shared(input, p, g)
  {
    var s, l, desired, minFd := input.Place(), StateBefore(input, p).ledger, input.desired.raw.Of(p),
      input.scheme.MinFdNum();
    hide StateBefore, PR.InventoryMap, DecidePool, FreshDecision, FreshGroups, PreferNodes, Shared, IsColocated,
      TargetsOf;
    RouteIsFresh(s, l, p, desired, minFd, TargetsOf(input).Of(p));
    FreshPicks(s, l, p, desired, minFd, DecisionFor(input, p).route.fallback, g, h);
    SharedExact(input, p, g);
    SharedExact(input, p, h);
  }

  lemma SpareFlag(s: Site, l: Ledger, p: PoolKind, g: FdGroup)
    requires Tracks(s, l) && g in SpareGroups(s, l, p)
    ensures g.colocated <==> IsColocated(g, PreferNodes(l, p))
  {
    var gs, prefer := FreshGroups(s, l, p), PreferNodes(l, p);
    hide FreshGroups, PreferNodes, Select;
    SelectExact(Flagged(gs, prefer), (g: FdGroup) => g.colocated);
    SelectExact(Flagged(gs, prefer), (g: FdGroup) => !g.colocated);
    assert g in Flagged(gs, prefer);
  }

  /** Nor does an increase, when it adds failure domains. */
  lemma IncreaseShares(input: Input, p: PoolKind, k: nat, level: int, g: FdGroup, h: FdGroup)
    requires UniqueNames(input.drives) && NonNegativeDrives(input.drives)
    requires var spare := IncreaseOf(input, p).spare;
      g in TakeFresh(spare, k, level) && h in spare && h.headroom >= level && h !in TakeFresh(spare, k, level)
    ensures Shared(input, p, h) ==> Shared(input, p, g)
  {
    var s, l, spare := input.Place(), StateBefore(input, p).ledger, IncreaseOf(input, p).spare;
    assert spare == SpareGroups(s, l, p);
    hide StateBefore, PR.InventoryMap, SpareGroups, IncreaseFor, PreferNodes, Shared, IsColocated;
    TakeFreshPrefers(spare, k, level, g, h);
    InTaken(spare, k, level, g);
    SpareFlag(s, l, p, g);
    SpareFlag(s, l, p, h);
    hide TakeFresh, HeadroomSorted;
    SharedExact(input, p, g);
    SharedExact(input, p, h);
  }

  lemma InTaken(gs: seq<FdGroup>, k: nat, level: int, g: FdGroup)
    requires g in TakeFresh(gs, k, level)
    ensures g in gs
  {
    forall c, d ensures forall x :: x in Tier(gs, level, c, d) ==> x in gs {
      SelectExact(gs, (g: FdGroup) => g.headroom >= level && g.colocated == c && g.hasDeleting == d);
    }
    hide Tier;
    assert g in Tiered(gs, level);
  }

  // ----- what the drives of a node pay -----

  /** After both pools a node's free drive capacity is its inventory less what each pool gained there. */
  lemma DrivesSpent(input: Input, n: string, p: PoolKind)
    requires n in input.Place().inv && UniqueNames(input.drives) && NonNegativeDrives(input.drives)
    ensures PoolsOf(input).ledger.budgets[n].drives.Of(p) ==
      input.Place().inv[n].drives.Of(p) - Gained(input, p, n)
  {
    var s, a := input.Place(), FirstPool(input.Place(), input.desired.raw);
    hide PlanPool, FirstPool, PR.InventoryMap, HostOn, Touched, FdCompleted, Gained, LedgerAfter, StateBefore, PoolsOf,
      CoresFor;
    Ledgers3(input);
    InputEffect(input, a, n);
    InputEffect(input, a.Other(), n);
    assert p == a || p == a.Other();
  }
}
