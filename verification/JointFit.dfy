/** Auto mode: created drive containers, and compute placed beside them, fit the node's inventory together. */
module JointFit {
  import opened Arith
  import opened Model
  import opened NodeBudget
  import opened Ledgers
  import opened Placement
  import opened FreshFds
  import opened PoolDecision
  import opened PoolPlanner
  import opened AutoMode
  import opened AutoFigures
  import opened AutoTheorems
  import Cpu
  import HugepageSizing
  import Rollback
  import UI = UniformIncrease

  /** Cores the two pools of a container are charged for. */
  function ChargedCores(caps: Caps, cons: Constraints): int {
    CoresFor(TLC, caps.tlc, cons) + CoresFor(QLC, caps.qlc, cons)
  }

  /** Budget b plus the price of `cores` drive cores in a new container is within the node's inventory. */
  predicate Covers(nc: NodeCapacity, b: Budget, cores: int, cons: Constraints) {
    && b.cores + CpuCost(nc, cons.cpuPolicy, cores, true) <= nc.allocatableCpu
    && b.hugepages + cores * HugepageSizing.DriveHugepagesPerCore(cons) <= nc.hugepages
    && b.memory + cores * cons.memoryPerCore + cons.memoryBase <= nc.memory
  }

  /** A pending container on n is on an eligible node without drives, not empty, and fully paid for. */
  ghost predicate PaidNode(s: Site, l: Ledger, n: string)
    requires Tracks(s, l) && n in l.created
  {
    var caps := l.created[n].caps;
    && n in s.inv && HostOn(s.existing, n).None? && s.inv[n].ineligibleReason == ""
    && caps.tlc >= 0 && caps.qlc >= 0 && (caps.tlc > 0 || caps.qlc > 0)
    && (caps.tlc > 0 ==> s.cons.capacityPerCore.tlc > 0) && (caps.qlc > 0 ==> s.cons.capacityPerCore.qlc > 0)
    && Covers(s.inv[n], l.budgets[n], ChargedCores(caps, s.cons), s.cons)
  }

  /** Every pending container is paid for, and nodes with neither drives nor a pending container are untouched. */
  ghost predicate Paid(s: Site, l: Ledger)
    requires Tracks(s, l)
  {
    && (forall n :: n in l.created ==> PaidNode(s, l, n))
    && forall n :: n in s.inv && n !in l.created && HostOn(s.existing, n).None? ==>
      l.budgets[n] == InitialBudget(s.inv[n])
  }

  lemma CoversMonotone(nc: NodeCapacity, b: Budget, k: int, k': int, cons: Constraints)
    requires PricedConstraints(cons) && k' <= k && Covers(nc, b, k, cons)
    ensures Covers(nc, b, k', cons)
  {
    Cpu.CostMonotone(cons.cpuPolicy, Topo(nc), k', k);
    MulMono(k', k, HugepageSizing.DriveHugepagesPerCore(cons));
    MulMono(k', k, cons.memoryPerCore);
  }

  /** Charging g GiB on top of k paid cores leaves k plus the new cores paid. */
  lemma ChargeCovers(nc: NodeCapacity, b: Budget, p: PoolKind, g: int, cons: Constraints, k: int)
    requires Covers(nc, b, k, cons)
    ensures Covers(nc, Charge(nc, b, p, g, cons, false), k + CoresFor(p, g, cons), cons)
  {
    var n := CoresFor(p, g, cons);
    var m := Cpu.ModelFor(cons.cpuPolicy, Topo(nc));
    var hp := HugepageSizing.DriveHugepagesPerCore(cons);
    assert m.perCore * (k + n) == m.perCore * k + m.perCore * n;
    assert (k + n) * hp == k * hp + n * hp;
    assert (k + n) * cons.memoryPerCore == k * cons.memoryPerCore + n * cons.memoryPerCore;
    hide Cpu.ModelFor;
  }

  lemma FirstChargeCovers(nc: NodeCapacity, p: PoolKind, g: int, cons: Constraints)
    ensures Covers(nc, Charge(nc, InitialBudget(nc), p, g, cons, true), CoresFor(p, g, cons), cons)
  {
    hide Cpu.ModelFor, CoresFor;
  }

  lemma ChargedSplit(caps: Caps, p: PoolKind, add: int, cons: Constraints)
    requires caps.tlc >= 0 && caps.qlc >= 0 && add >= 0 && cons.capacityPerCore.Of(p) > 0
    ensures ChargedCores(caps.Plus(p, add), cons) <= ChargedCores(caps, cons) + CoresFor(p, add, cons)
  {
    CeilDivSubadditive(caps.Of(p), add, cons.capacityPerCore.Of(p));
  }

  /** What is started on a node is paid for by the charge that starts it. */
  lemma StartedCovers(s: Site, l: Ledger, p: PoolKind, n: string, fd: string, add: int)
    requires Tracks(s, l) && Paid(s, l) && PricedConstraints(s.cons) && n in s.inv && HostOn(s.existing, n).None?
    requires add >= 1 && s.cons.capacityPerCore.Of(p) > 0
    ensures Covers(s.inv[n], Started(s, l, p, n, fd, add).budgets[n],
      ChargedCores(CreatedAt(l, n, fd).caps.Plus(p, add), s.cons), s.cons)
  {
    hide Covers, Charge, HostOn;
    var nc, b, caps := s.inv[n], l.budgets[n], CreatedAt(l, n, fd).caps;
    if n in l.created {
      assert PaidNode(s, l, n);
      ChargeCovers(nc, b, p, add, s.cons, ChargedCores(caps, s.cons));
    } else {
      assert b == InitialBudget(nc) && ChargedCores(caps, s.cons) == 0;
      FirstChargeCovers(nc, p, add, s.cons);
    }
    ChargedSplit(caps, p, add, s.cons);
    var b' := Started(s, l, p, n, fd, add).budgets[n];
    CoversMonotone(nc, b', ChargedCores(caps, s.cons) + CoresFor(p, add, s.cons),
      ChargedCores(caps.Plus(p, add), s.cons), s.cons);
  }

  lemma StartedPaid(s: Site, l: Ledger, p: PoolKind, n: string, fd: string, add: int)
    requires Tracks(s, l) && Paid(s, l) && PricedConstraints(s.cons)
    requires n in s.inv && HostOn(s.existing, n).None? && s.inv[n].ineligibleReason == ""
    requires add >= 1 && s.cons.capacityPerCore.Of(p) > 0
    ensures Paid(s, Started(s, l, p, n, fd, add))
  {
    hide Covers, ChargedCores, Charge, HostOn, CoresFor;
    var l' := Started(s, l, p, n, fd, add);
    assert Tracks(s, l');
    StartedCovers(s, l, p, n, fd, add);
    forall m | m in l'.created ensures PaidNode(s, l', m) {
      if m != n { assert PaidNode(s, l, m); }
    }
  }

  lemma GrownPaid(s: Site, l: Ledger, p: PoolKind, c: ExistingContainer, n: string, add: int)
    requires Tracks(s, l) && Paid(s, l) && n in s.inv && HostOn(s.existing, n) == Some(c)
    ensures Paid(s, Grown(s, l, p, c, n, add))
  {
    var l' := Grown(s, l, p, c, n, add);
    assert Tracks(s, l');
    hide Covers, ChargedCores, Charge, HostOn;
    forall m | m in l'.created ensures PaidNode(s, l', m) { assert PaidNode(s, l, m); }
  }

  // ----- one failure domain -----

  /** A node the planner may pick in auto mode: one with drives, or an eligible one with room for the level. */
  ghost predicate Pickable(s: Site, l: Ledger, p: PoolKind, level: nat, n: string)
    requires Tracks(s, l) && n in s.inv
  {
    HostOn(s.existing, n).None? ==>
      s.inv[n].ineligibleReason == "" && level <= Headroom(s.inv[n], l.budgets[n], p, s.cons, n !in l.created)
  }

  lemma PickableKept(s: Site, l: Ledger, l': Ledger, p: PoolKind, level: nat, n: string)
    requires Tracks(s, l) && Tracks(s, l') && n in s.inv && Untouched(s, l, l', n) && Pickable(s, l, p, level, n)
    ensures Pickable(s, l', p, level, n)
  {
    hide HeadroomBinding;
  }

  lemma HeadroomNeedsPool(nc: NodeCapacity, b: Budget, p: PoolKind, cons: Constraints, base: bool, g: int)
    requires 1 <= g <= Headroom(nc, b, p, cons, base)
    ensures cons.capacityPerCore.Of(p) > 0
  {
  }

  /** On a drive-free node the step is all or nothing: the whole level, or no change. */
  lemma FreshStep(s: Site, l: Ledger, p: PoolKind, level: nat, n: string)
    requires Tracks(s, l) && n in s.inv && HostOn(s.existing, n).None? && Pickable(s, l, p, level, n)
    ensures var step := PlaceHost(s, l, p, n, s.inv[n].fdValue, level);
      || step == HostStep(l, 0)
      || (level >= 1 && step == HostStep(Started(s, l, p, n, s.inv[n].fdValue, level), level))
  {
    hide HeadroomBinding;
  }

  lemma SingleFd(s: Site, l: Ledger, p: PoolKind, level: nat, g: FdGroup, n: string)
    requires Tracks(s, l) && n in s.inv && g.nodes == [n] && OnSite(s, g)
    ensures var step := PlaceHost(s, l, p, n, s.inv[n].fdValue, level);
      PlaceFd(s, l, p, level, g) == if step.placed < level then Restored(s, l, step.ledger) else step.ledger
  {
    SingleHost(s, l, p, n, level);
    hide PlaceHost, PlaceHosts;
  }

  lemma FdPaid(s: Site, l: Ledger, p: PoolKind, level: nat, g: FdGroup, n: string)
    requires Tracks(s, l) && Paid(s, l) && PricedConstraints(s.cons) && UniqueNames(s.existing)
    requires n in s.inv && g.nodes == [n] && OnSite(s, g) && Pickable(s, l, p, level, n)
    ensures Paid(s, PlaceFd(s, l, p, level, g))
  {
    SingleFd(s, l, p, level, g, n);
    var fd := s.inv[n].fdValue;
    var step := PlaceHost(s, l, p, n, fd, level);
    if HostOn(s.existing, n).None? {
      FreshStep(s, l, p, level, n);
      hide PlaceHost, PlaceFd, Restored, Paid, HeadroomBinding, Started;
      Rollback.NothingToRestore(s, l);
      if step != HostStep(l, 0) {
        HeadroomNeedsPool(s.inv[n], l.budgets[n], p, s.cons, n !in l.created, level);
        StartedPaid(s, l, p, n, fd, level);
      }
    } else {
      var c := HostOn(s.existing, n).value;
      HostCases(s, l, p, n, fd, level);
      var add := HostAdd(s, l, p, n, level);
      hide PlaceHost, PlaceFd, HostAdd;
      GrownPaid(s, l, p, c, n, add);
      RestoredPaid(s, l, step.ledger);
    }
  }

  lemma RestoredPaid(s: Site, l: Ledger, after: Ledger)
    requires Tracks(s, l) && Paid(s, l) && after.created == l.created
    ensures Tracks(s, Restored(s, l, after)) && Paid(s, Restored(s, l, after))
  {
    var r := Restored(s, l, after);
    assert r.created == l.created;
    hide Covers, ChargedCores, HostOn;
    forall m | m in r.created ensures PaidNode(s, r, m) { assert PaidNode(s, l, m); }
  }

  /** Off the chosen node nothing changes. */
  lemma FdLocal(s: Site, l: Ledger, p: PoolKind, level: nat, g: FdGroup, n: string, m: string)
    requires Tracks(s, l) && n in s.inv && g.nodes == [n] && OnSite(s, g) && UniqueNames(s.existing) && m != n
    requires HostOn(s.existing, m).None?
    ensures Untouched(s, l, PlaceFd(s, l, p, level, g), m)
  {
    SingleFd(s, l, p, level, g, n);
    HostLocal(s, l, p, n, s.inv[n].fdValue, level, m);
    hide PlaceHost, PlaceFd;
  }

  /** Placing over distinct pickable nodes keeps every pending container paid. */
  lemma {:induction false} UniformPaid(s: Site, l: Ledger, p: PoolKind, level: nat, chosen: seq<FdGroup>,
      nodes: seq<string>)
    requires Tracks(s, l) && Paid(s, l) && PricedConstraints(s.cons) && UniqueNames(s.existing)
    requires AllOnSite(s, chosen) && Singletons(s, chosen, nodes)
    requires forall i :: 0 <= i < |nodes| ==> Pickable(s, l, p, level, nodes[i])
    ensures Paid(s, PlaceUniform(s, l, p, level, chosen))
    ensures forall m :: m !in nodes && HostOn(s.existing, m).None? ==>
      Untouched(s, l, PlaceUniform(s, l, p, level, chosen), m)
  {
    if chosen != [] {
      var initC, initN := chosen[..|chosen| - 1], nodes[..|nodes| - 1];
      var g, n := chosen[|chosen| - 1], nodes[|nodes| - 1];
      assert nodes == initN + [n] && n !in initN;
      UniformPaid(s, l, p, level, initC, initN);
      var mid := PlaceUniform(s, l, p, level, initC);
      var l' := PlaceUniform(s, l, p, level, chosen);
      assert l' == PlaceFd(s, mid, p, level, g);
      hide PlaceUniform, PlaceFd, Paid, HeadroomBinding, HostOn;
      if HostOn(s.existing, n).None? { PickableKept(s, l, mid, p, level, n); }
      FdPaid(s, mid, p, level, g, n);
      forall m | m !in nodes && HostOn(s.existing, m).None? ensures Untouched(s, l, l', m) {
        FdLocal(s, mid, p, level, g, n, m);
        UntouchedTransitive(s, l, mid, l', m);
      }
    }
  }

  // ----- every route of a pool picks pickable single nodes -----

  lemma FreshPickable(s: Site, l: Ledger, p: PoolKind, gs: seq<FdGroup>, level: nat)
    requires Tracks(s, l) && AutoSite(s) && FreshList(s, l, p, gs)
    requires forall g :: g in gs ==> SingleCandidate(s, l, p, g) && g.headroom >= level
    ensures Singletons(s, gs, Heads(gs))
    ensures forall i :: 0 <= i < |gs| ==> Pickable(s, l, p, level, Heads(gs)[i])
  {
    hide HeadroomBinding;
    var nodes := Heads(gs);
    forall i | 0 <= i < |gs|
      ensures gs[i].nodes == [nodes[i]] && nodes[i] in s.inv && Pickable(s, l, p, level, nodes[i]) {
      assert gs[i] in gs;
      CandidateOnSite(s, l, p, nodes[i]);
      HeadroomWithoutBase(s.inv[nodes[i]], l.budgets[nodes[i]], p, s.cons);
    }
    forall i, j | 0 <= i < j < |gs| ensures nodes[i] != nodes[j] {
      assert nodes[i] in gs[i].nodes && nodes[j] in gs[j].nodes;
    }
  }

  lemma BearersPickable(s: Site, l: Ledger, p: PoolKind, level: nat)
    requires Tracks(s, l) && AutoSite(s)
    ensures forall n :: n in Bearers(s.existing, p) ==> n in s.inv && Pickable(s, l, p, level, n)
  {
    AutoIsDrives(s);
    BearersFacts(s, s.existing, p);
    forall n | n in Bearers(s.existing, p) ensures n in s.inv && Pickable(s, l, p, level, n) {
      var c :| c in s.existing && c.caps.Of(p) > 0 && c.node == n;
      assert WellFormedDrive(s, c);
      HostIs(s.existing, c);
    }
  }

  lemma WithExisting(s: Site, l: Ledger, p: PoolKind, b: seq<FdGroup>, level: nat) returns (nodes: seq<string>)
    requires Tracks(s, l) && AutoSite(s) && FreshList(s, l, p, b)
    requires forall g :: g in b ==> SingleCandidate(s, l, p, g) && g.headroom >= level
    ensures Singletons(s, ExistingGroups(s, l, p) + b, nodes)
    ensures forall i :: 0 <= i < |nodes| ==> Pickable(s, l, p, level, nodes[i])
  {
    hide IsCandidate, ExistingGroups, Pickable;
    FreshPickable(s, l, p, b, level);
    ExistingSingletons(s, l, p);
    BearersPickable(s, l, p, level);
    HeadsAreCandidates(s, l, p, b);
    var an, bn := Bearers(s.existing, p), Heads(b);
    hide Bearers, AutoSite;
    forall n | n in bn ensures n !in an { if n in an { BearersApart(s, l, p, n); } }
    ConcatSingletons(s, ExistingGroups(s, l, p), an, b, bn);
    nodes := an + bn;
    forall i | 0 <= i < |nodes| ensures Pickable(s, l, p, level, nodes[i]) {
      if i < |an| { assert an[i] in an; }
    }
  }

  lemma FreshDecisionNodes(s: Site, l: Ledger, p: PoolKind, desired: int, minFd: int, fallback: bool)
    returns (nodes: seq<string>)
    requires Tracks(s, l) && AutoSite(s) && FreshDecision(s, l, p, desired, minFd, fallback).Place?
    ensures var d := FreshDecision(s, l, p, desired, minFd, fallback);
      Singletons(s, d.chosen, nodes) && forall i :: 0 <= i < |nodes| ==> Pickable(s, l, p, d.level, nodes[i])
  {
    hide IsCandidate, FreshGroups, Pickable, FirstTiling, PickColocated;
    AutoOneNode(s);
    FreshSingles(s, l, p);
    FreshGroupsAreFresh(s, l, p);
    var gs := FreshGroups(s, l, p);
    FreshListNoDup(s, l, p, gs);
    FreshOnSite(s, l, p, desired, minFd, fallback);
    var n := FirstTiling(gs, desired, s.cons.minChunk, Max(minFd, 1)).value;
    var level := UniformShare(desired, n, s.cons.minChunk);
    PickColocatedExact(gs, n, level, PreferNodes(l, p));
    var chosen := FreshDecision(s, l, p, desired, minFd, fallback).chosen;
    hide AutoSite, UniformShare;
    FreshPickable(s, l, p, chosen, level);
    nodes := Heads(chosen);
  }

  lemma ExplicitDecisionNodes(s: Site, l: Ledger, p: PoolKind, desired: int, targetFds: int)
    returns (nodes: seq<string>)
    requires Tracks(s, l) && AutoSite(s) && ExplicitDecision(s, l, p, desired, targetFds).Place?
    ensures var d := ExplicitDecision(s, l, p, desired, targetFds);
      Singletons(s, d.chosen, nodes) && forall i :: 0 <= i < |nodes| ==> Pickable(s, l, p, d.level, nodes[i])
  {
    hide IsCandidate, FreshGroups, Pickable, ExistingGroups, TakeFresh;
    AutoOneNode(s);
    FreshSingles(s, l, p);
    FreshGroupsAreFresh(s, l, p);
    var extra := ExactNewFds(s.existing, p, targetFds, desired - PoolCurrent(s.existing, p), s.cons).value;
    var level := CeilDiv(desired, targetFds);
    TakeFreshList(s, l, p, FreshGroups(s, l, p), extra, level);
    hide AutoSite, ExactNewFds, FrozenGap;
    nodes := WithExisting(s, l, p, TakeFresh(FreshGroups(s, l, p), extra, level), level);
  }

  lemma SpareNodes(s: Site, l: Ledger, p: PoolKind, k: nat, level: nat)
    requires Tracks(s, l) && AutoSite(s)
    ensures var b := TakeFresh(SpareGroups(s, l, p), k, level);
      FreshList(s, l, p, b) && forall g :: g in b ==> SingleCandidate(s, l, p, g) && g.headroom >= level
  {
    hide IsCandidate, SpareGroups, TakeFresh;
    AutoOneNode(s);
    SpareSingles(s, l, p);
    SpareFresh(s, l, p);
    TakeFreshList(s, l, p, SpareGroups(s, l, p), k, level);
  }

  lemma IncreaseDecisionNodes(s: Site, l: Ledger, p: PoolKind, desired: int, minFd: int) returns (nodes: seq<string>)
    requires Tracks(s, l) && AutoSite(s) && IncreaseDecision(s, l, p, desired, minFd).Place?
    ensures var d := IncreaseDecision(s, l, p, desired, minFd);
      Singletons(s, d.chosen, nodes) && forall i :: 0 <= i < |nodes| ==> Pickable(s, l, p, d.level, nodes[i])
  {
    hide IsCandidate, SpareGroups, Pickable, ExistingGroups, TakeFresh, UI.Decide, AutoSite, Reaches;
    var inc := IncreaseFor(s, l, p, desired, minFd);
    match UI.Decide(inc) {
      case CreateEven(k, size) =>
        SpareNodes(s, l, p, k, size);
        FreshPickable(s, l, p, TakeFresh(inc.spare, k, size), size);
        nodes := Heads(TakeFresh(inc.spare, k, size));
      case CreateAtT0(k, level, total) =>
        SpareNodes(s, l, p, k, level);
        FreshPickable(s, l, p, TakeFresh(inc.spare, k, level), level);
        nodes := Heads(TakeFresh(inc.spare, k, level));
      case GrowTo(k, level, total) =>
        SpareNodes(s, l, p, k, level);
        nodes := WithExisting(s, l, p, TakeFresh(inc.spare, k, level), level);
    }
  }

  lemma DecisionNodes(s: Site, l: Ledger, p: PoolKind, desired: int, minFd: int, targetFds: int)
    returns (nodes: seq<string>)
    requires Tracks(s, l) && AutoSite(s) && DecidePool(s, l, p, desired, minFd, targetFds).Place?
    ensures var d := DecidePool(s, l, p, desired, minFd, targetFds);
      Singletons(s, d.chosen, nodes) && forall i :: 0 <= i < |nodes| ==> Pickable(s, l, p, d.level, nodes[i])
  {
    hide FreshDecision, ExplicitDecision, IncreaseDecision, AutoSite, Pickable;
    var d := DecidePool(s, l, p, desired, minFd, targetFds);
    if d == FreshDecision(s, l, p, desired, minFd, true) {
      nodes := FreshDecisionNodes(s, l, p, desired, minFd, true);
    } else if d == ExplicitDecision(s, l, p, desired, targetFds) {
      nodes := ExplicitDecisionNodes(s, l, p, desired, targetFds);
    } else if d == IncreaseDecision(s, l, p, desired, minFd) {
      nodes := IncreaseDecisionNodes(s, l, p, desired, minFd);
    } else {
      nodes := FreshDecisionNodes(s, l, p, desired, minFd, false);
    }
  }

  // ----- both pools -----

  lemma PoolPaid(s: Site, st: PoolState, p: PoolKind, desired: int, minFd: int, targetFds: int)
    requires Tracks(s, st.ledger) && AutoSite(s) && PricedConstraints(s.cons) && Paid(s, st.ledger)
    ensures Paid(s, PlanPool(s, st, p, desired, minFd, targetFds).ledger)
  {
    hide Paid, DecidePool, PlaceUniform, Feasibility, Pickable;
    var d := DecidePool(s, st.ledger, p, desired, minFd, targetFds);
    if d.Place? {
      AutoOneNode(s);
      ChosenOnSite(s, st.ledger, p, desired, minFd, targetFds);
      var nodes := DecisionNodes(s, st.ledger, p, desired, minFd, targetFds);
      UniformPaid(s, st.ledger, p, d.level, d.chosen, nodes);
    }
  }

  /** After both pools every pending drive container is paid for on its node. */
  lemma PoolsPaid(s: Site, raw: Caps, minFd: int, targets: Caps)
    requires AutoSite(s) && PricedConstraints(s.cons)
    ensures Paid(s, PlanPools(s, raw, minFd, targets).ledger)
  {
    var a := FirstPool(s, raw);
    var st0 := PoolState(Opening(s.inv), NO_NOTES);
    assert Paid(s, st0.ledger);
    hide Paid, PlanPool;
    PoolPaid(s, st0, a, raw.Of(a), minFd, targets.Of(a));
    var st1 := PlanPool(s, st0, a, raw.Of(a), minFd, targets.Of(a));
    PoolPaid(s, st1, a.Other(), raw.Of(a.Other()), minFd, targets.Of(a.Other()));
  }
}
