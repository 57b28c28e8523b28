/** Where new drive containers land, in every plan and on every site. */
module Seating {
  import opened Arith
  import opened Model
  import opened NodeBudget
  import opened Ledgers
  import opened Placement
  import opened Ordering
  import opened FreshFds
  import opened PoolDecision
  import opened PoolPlanner
  import opened Planner
  import opened PlanTheorems
  import DriveCoreCounts
  import UI = UniformIncrease
  import PR = PlanRuns
  import CP = ComputePlanner

  /** A node that may start a container: known, eligible and without a scheduled drive container. */
  predicate Seat(s: Site, n: string) {
    n in s.inv && s.inv[n].ineligibleReason == "" && HostOn(s.existing, n).None?
  }

  /** Every new container is on such a node, in that node's failure domain. */
  ghost predicate Seated(s: Site, l: Ledger) {
    forall n :: n in l.created ==> Seat(s, n) && l.created[n].fd == s.inv[n].fdValue
  }

  /** The node hosts drives already, or may start a container in failure domain fd. */
  predicate Takes(s: Site, n: string, fd: string) {
    n in s.inv && (HostOn(s.existing, n).Some? || (s.inv[n].ineligibleReason == "" && s.inv[n].fdValue == fd))
  }

  /** So do all nodes of the group, in the failure domain of the first. */
  ghost predicate Seatable(s: Site, g: FdGroup) {
    g.nodes != [] ==> g.nodes[0] in s.inv && forall n :: n in g.nodes ==> Takes(s, n, s.inv[g.nodes[0]].fdValue)
  }

  lemma HostSeated(s: Site, l: Ledger, p: PoolKind, node: string, fd: string, share: nat)
    requires Tracks(s, l) && Seated(s, l) && Takes(s, node, fd)
    ensures Seated(s, PlaceHost(s, l, p, node, fd, share).ledger)
  {
    HostCases(s, l, p, node, fd, share);
    hide PlaceHost, HostAdd, HostOn, Charge;
  }

  lemma {:induction false} HostsSeated(s: Site, l: Ledger, p: PoolKind, nodes: seq<string>, fd: string, target: nat,
      k: nat)
    requires Tracks(s, l) && k <= |nodes| && (forall i :: 0 <= i < |nodes| ==> nodes[i] in s.inv) && Seated(s, l)
    requires forall i :: 0 <= i < |nodes| ==> Takes(s, nodes[i], fd)
    ensures Seated(s, PlaceHosts(s, l, p, nodes, fd, target, k).ledger)
  {
    hide PlaceHost, Share, Seated, Takes;
    if k > 0 {
      HostsSeated(s, l, p, nodes, fd, target, k - 1);
      HostSeated(s, PlaceHosts(s, l, p, nodes, fd, target, k - 1).ledger, p, nodes[k - 1], fd,
        Share(target, |nodes|, k - 1));
    }
  }

  lemma FdSeated(s: Site, l: Ledger, p: PoolKind, target: nat, g: FdGroup)
    requires Tracks(s, l) && OnSite(s, g) && Seated(s, l) && Seatable(s, g)
    ensures Seated(s, PlaceFd(s, l, p, target, g))
  {
    if g.nodes != [] {
      assert forall i :: 0 <= i < |g.nodes| ==> g.nodes[i] in g.nodes;
      HostsSeated(s, l, p, g.nodes, s.inv[g.nodes[0]].fdValue, target, |g.nodes|);
      hide PlaceHosts, Seat;
    }
  }

  lemma {:induction false} UniformSeated(s: Site, l: Ledger, p: PoolKind, target: nat, chosen: seq<FdGroup>)
    requires Tracks(s, l) && AllOnSite(s, chosen) && Seated(s, l) && forall g :: g in chosen ==> Seatable(s, g)
    ensures Seated(s, PlaceUniform(s, l, p, target, chosen))
  {
    if chosen != [] {
      var init, g := chosen[..|chosen| - 1], chosen[|chosen| - 1];
      assert g in chosen && forall h :: h in init ==> h in chosen;
      UniformSeated(s, l, p, target, init);
      FdSeated(s, PlaceUniform(s, l, p, target, init), p, target, g);
      hide PlaceFd, Seated, Seatable;
    }
  }

  // ----- every decision chooses seatable groups -----

  /** All nodes of the group are of one failure domain. */
  ghost predicate OneFd(s: Site, g: FdGroup) {
    forall n, m :: n in g.nodes && m in g.nodes ==> n in s.inv && m in s.inv && s.inv[n].fdValue == s.inv[m].fdValue
  }

  lemma GroupOneFd(s: Site, l: Ledger, p: PoolKind, i: nat)
    requires Tracks(s, l) && i < |FreshGroups(s, l, p)|
    ensures OneFd(s, FreshGroups(s, l, p)[i])
  {
    GroupFacts(s, l, p, i);
    hide FreshGroups, CandidateOrder, FirstSeen, HeadroomBinding, FreshExclusion;
  }

  lemma FlaggedOneFd(s: Site, gs: seq<FdGroup>, prefer: set<string>, g: FdGroup)
    requires (forall i :: 0 <= i < |gs| ==> OneFd(s, gs[i])) && g in Flagged(gs, prefer)
    ensures OneFd(s, g)
  {
    hide IsColocated;
    var i :| 0 <= i < |gs| && Flagged(gs, prefer)[i] == g;
    assert g.nodes == gs[i].nodes && OneFd(s, gs[i]);
  }

  lemma FreshOneFd(s: Site, l: Ledger, p: PoolKind)
    requires Tracks(s, l)
    ensures forall g :: g in FreshGroups(s, l, p) ==> OneFd(s, g)
    ensures forall g :: g in SpareGroups(s, l, p) ==> OneFd(s, g)
  {
    FreshGroupsAreFresh(s, l, p);
    ColocatedFirstFresh(s, l, p, FreshGroups(s, l, p), PreferNodes(l, p));
    hide FreshGroups, ColocatedFirst, Flagged, FreshList, IsCandidate, OneFd;
    var gs := FreshGroups(s, l, p);
    forall i | 0 <= i < |gs| ensures OneFd(s, gs[i]) { GroupOneFd(s, l, p, i); }
    forall g | g in SpareGroups(s, l, p) ensures OneFd(s, g) { FlaggedOneFd(s, gs, PreferNodes(l, p), g); }
  }

  lemma FreshSeatable(s: Site, l: Ledger, p: PoolKind, gs: seq<FdGroup>)
    requires Tracks(s, l) && FreshList(s, l, p, gs) && forall g :: g in gs ==> OneFd(s, g)
    ensures forall g :: g in gs ==> Seatable(s, g)
  {
    hide HeadroomBinding, FreshExclusion, HostOn;
    forall g, n | g in gs && n in g.nodes
      ensures n in s.inv && s.inv[n].ineligibleReason == "" && g.nodes[0] in s.inv &&
        s.inv[n].fdValue == s.inv[g.nodes[0]].fdValue
    {
      var i :| 0 <= i < |gs| && gs[i] == g;
      assert IsCandidate(s, l, p, n) && g.nodes[0] in g.nodes && OneFd(s, g);
    }
    forall g | g in gs && g.nodes != [] ensures g.nodes[0] in s.inv { assert g.nodes[0] in g.nodes; }
  }

  lemma {:induction false} BearersHosted(s: Site, existing: seq<ExistingContainer>, p: PoolKind, n: string)
    requires n in BearingNodes(s, existing, p)
    ensures n in s.inv && HostOn(existing, n).Some?
  {
    var init := existing[..|existing| - 1];
    if n in BearingNodes(s, init, p) { BearersHosted(s, init, p, n); }
  }

  lemma ExistingSeatable(s: Site, l: Ledger, p: PoolKind)
    requires Tracks(s, l)
    ensures forall g :: g in ExistingGroups(s, l, p) ==> Seatable(s, g)
  {
    hide Ranking, HeadroomBinding, BearingNodes, BearingFds, HostOn;
    BearingOnSite(s, s.existing, p);
    var gs, fds := ExistingGroups(s, l, p), BearingFds(s, s.existing, p);
    forall g, n | g in gs && n in g.nodes ensures n in s.inv && HostOn(s.existing, n).Some? {
      var i :| 0 <= i < |gs| && gs[i] == g;
      assert g == ExistingGroup(s, l, p, fds[i]);
      assert n in Elems(g.nodes);
      BearersHosted(s, s.existing, p, n);
    }
  }

  /** A node bears the pool under the failure domain of a container on it that carries the pool. */
  lemma {:induction false} BearersCarry(s: Site, existing: seq<ExistingContainer>, p: PoolKind, n: string)
    requires n in BearingNodes(s, existing, p)
    ensures exists c ::
      c in existing && c.node == n && c.caps.Of(p) > 0 && c.fdValue == BearingNodes(s, existing, p)[n]
  {
    var init, last := existing[..|existing| - 1], existing[|existing| - 1];
    assert last in existing;
    if n in BearingNodes(s, init, p) {
      BearersCarry(s, init, p, n);
      var c :| c in init && c.node == n && c.caps.Of(p) > 0 && c.fdValue == BearingNodes(s, init, p)[n];
      assert c in existing;
    }
  }

  /** Only nodes that carry the pool join the existing groups; containers of the other pool alone are left out. */
  lemma ExistingCarry(s: Site, l: Ledger, p: PoolKind, g: FdGroup, n: string)
    requires Tracks(s, l) && g in ExistingGroups(s, l, p) && n in g.nodes
    ensures exists c :: c in s.existing && c.node == n && c.caps.Of(p) > 0
  {
    hide Ranking, HeadroomBinding, BearingNodes, BearingFds;
    BearingOnSite(s, s.existing, p);
    var gs, fds := ExistingGroups(s, l, p), BearingFds(s, s.existing, p);
    var i :| 0 <= i < |gs| && gs[i] == g;
    assert g == ExistingGroup(s, l, p, fds[i]);
    assert n in Elems(g.nodes);
    BearersCarry(s, s.existing, p, n);
  }

  lemma DecisionSeatable(s: Site, l: Ledger, p: PoolKind, desired: int, minFd: int, targetFds: int)
    requires Tracks(s, l)
    ensures var d := DecidePool(s, l, p, desired, minFd, targetFds);
      d.Place? ==> forall g :: g in d.chosen ==> Seatable(s, g)
  {
    hide FreshDecision, ExplicitDecision, IncreaseDecision, Seatable, PoolFds, PoolCurrent, PoolAverage;
    FreshDecisionSeatable(s, l, p, desired, minFd, true);
    FreshDecisionSeatable(s, l, p, desired, minFd, false);
    ExplicitSeatable(s, l, p, desired, targetFds);
    IncreaseSeatable(s, l, p, desired, minFd);
  }

  lemma FreshDecisionSeatable(s: Site, l: Ledger, p: PoolKind, desired: int, minFd: int, fallback: bool)
    requires Tracks(s, l)
    ensures var d := FreshDecision(s, l, p, desired, minFd, fallback);
      d.Place? ==> forall g :: g in d.chosen ==> Seatable(s, g)
  {
    hide Seatable, FreshList, FreshGroups, PickColocated, FirstTiling, OneFd;
    FreshOnSite(s, l, p, desired, minFd, fallback);
    FreshOneFd(s, l, p);
    FreshGroupsAreFresh(s, l, p);
    FreshListNoDup(s, l, p, FreshGroups(s, l, p));
    var d := FreshDecision(s, l, p, desired, minFd, fallback);
    if d.Place? {
      PickColocatedExact(FreshGroups(s, l, p), FirstTiling(FreshGroups(s, l, p), desired, s.cons.minChunk,
        Max(minFd, 1)).value, d.level, PreferNodes(l, p));
      FreshSeatable(s, l, p, d.chosen);
    }
  }

  lemma ExplicitSeatable(s: Site, l: Ledger, p: PoolKind, desired: int, targetFds: int)
    requires Tracks(s, l)
    ensures var d := ExplicitDecision(s, l, p, desired, targetFds);
      d.Place? ==> forall g :: g in d.chosen ==> Seatable(s, g)
  {
    hide Seatable, FreshList, FreshGroups, TakeFresh, ExistingGroups, FrozenGap, ExactNewFds;
    var d := ExplicitDecision(s, l, p, desired, targetFds);
    FreshGroupsAreFresh(s, l, p);
    FreshOneFd(s, l, p);
    ExistingSeatable(s, l, p);
    hide OneFd;
    if d.Place? {
      var extra := ExactNewFds(s.existing, p, targetFds, desired - PoolCurrent(s.existing, p), s.cons).value;
      TakeFreshList(s, l, p, FreshGroups(s, l, p), extra, CeilDiv(desired, targetFds));
      FreshSeatable(s, l, p, TakeFresh(FreshGroups(s, l, p), extra, CeilDiv(desired, targetFds)));
    }
  }

  lemma IncreaseSeatable(s: Site, l: Ledger, p: PoolKind, desired: int, minFd: int)
    requires Tracks(s, l)
    ensures var d := IncreaseDecision(s, l, p, desired, minFd);
      d.Place? ==> forall g :: g in d.chosen ==> Seatable(s, g)
  {
    var inc := IncreaseFor(s, l, p, desired, minFd);
    hide UI.Decide, TakeFresh, SpareGroups, ExistingGroups, Seatable, FreshList, Reaches, PoolFds, MinFdCap, MaxFdCap,
      PoolAverage;
    SpareFresh(s, l, p);
    FreshOneFd(s, l, p);
    ExistingSeatable(s, l, p);
    hide OneFd;
    match UI.Decide(inc) {
      case CreateEven(k, size) =>
        TakeFreshList(s, l, p, inc.spare, k, size);
        FreshSeatable(s, l, p, TakeFresh(inc.spare, k, size));
      case CreateAtT0(k, level, t) =>
        TakeFreshList(s, l, p, inc.spare, k, level);
        FreshSeatable(s, l, p, TakeFresh(inc.spare, k, level));
      case GrowTo(k, level, t) =>
        TakeFreshList(s, l, p, inc.spare, k, level);
        FreshSeatable(s, l, p, TakeFresh(inc.spare, k, level));
      case GiveUp(_) =>
    }
  }

  // ----- the plan -----

  lemma PoolSeated(s: Site, st: PoolState, p: PoolKind, desired: int, minFd: int, targetFds: int)
    requires Tracks(s, st.ledger) && Seated(s, st.ledger)
    ensures Seated(s, PlanPool(s, st, p, desired, minFd, targetFds).ledger)
  {
    hide DecidePool, PlaceUniform, Feasibility, Seated, Seatable;
    ChosenOnSite(s, st.ledger, p, desired, minFd, targetFds);
    DecisionSeatable(s, st.ledger, p, desired, minFd, targetFds);
    var d := DecidePool(s, st.ledger, p, desired, minFd, targetFds);
    if d.Place? { UniformSeated(s, st.ledger, p, d.level, d.chosen); }
  }

  lemma NoneSeated(s: Site)
    ensures Seated(s, Opening(s.inv))
  {
  }

  lemma PoolsSeated(s: Site, raw: Caps, minFd: int, targets: Caps)
    ensures Seated(s, PlanPools(s, raw, minFd, targets).ledger)
  {
    hide PlanPool, FirstPool, Seated;
    var a := FirstPool(s, raw);
    var st0 := PoolState(Opening(s.inv), NO_NOTES);
    NoneSeated(s);
    PoolSeated(s, st0, a, raw.Of(a), minFd, targets.Of(a));
    var st1 := PlanPool(s, st0, a, raw.Of(a), minFd, targets.Of(a));
    PoolSeated(s, st1, a.Other(), raw.Of(a.Other()), minFd, targets.Of(a.Other()));
  }

  /** Listed entries are records, whether or not the list was cut short. */
  lemma {:induction false} CreateListedPrefix(s: Site, l: Ledger, nodes: seq<string>, driveCores: int, k: nat)
    requires Tracks(s, l) && (forall i :: 0 <= i < |nodes| ==> nodes[i] in l.created)
    requires k < |EmitCreate(s, l, nodes, driveCores).list|
    ensures var n := EmitCreate(s, l, nodes, driveCores).list[k];
      n.node in l.created && n.fdValue == l.created[n.node].fd && n.caps == l.created[n.node].caps
  {
    var init := nodes[..|nodes| - 1];
    if k < |EmitCreate(s, l, init, driveCores).list| { CreateListedPrefix(s, l, init, driveCores, k); }
    hide DriveCoreCounts.PinCores, CanReserve, Reserve;
  }

  lemma PlanCreate(input: Input, k: nat)
    requires k < |PlanCapacity(input).create|
    ensures var x, l := PlanCapacity(input).create[k], PoolsOf(input).ledger;
      x.node in l.created && x.caps == l.created[x.node].caps && x.fdValue == l.created[x.node].fd
  {
    hide PlanPools, EmitGrow, EmitCreate, ComputeOf, DriveCoreCounts.RequiredComputeCores, DistinctDriveFds,
      ProtectionOk, SplitDriveContainers, PR.InventoryMap, CP.SortedNames;
    var s, l := input.Place(), PoolsOf(input).ledger;
    CreateListedPrefix(s, l, Recorded(l.created.Keys), input.desired.driveCores, k);
  }

  /**
   * In every plan, on every site, each new container lands on an eligible node without a scheduled drive container, in
   * that node's failure domain.
   */
  lemma CreatedSeated(input: Input, k: nat)
    requires k < |PlanCapacity(input).create|
    ensures var s, x := input.Place(), PlanCapacity(input).create[k];
      Seat(s, x.node) && x.fdValue == s.inv[x.node].fdValue
  {
    hide PlanCapacity, PlanPools, HostOn, PR.InventoryMap;
    PlanCreate(input, k);
    PoolsSeated(input.Place(), input.desired.raw, input.scheme.MinFdNum(), TargetsOf(input));
  }
}
