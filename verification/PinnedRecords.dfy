/** One-node failure domains under a pinned container count: the growth records as figures of the input. */
module PinnedRecords {
  import opened Arith
  import opened Model
  import opened NodeBudget
  import opened Ledgers
  import opened Placement
  import opened FdRecords
  import opened FreshFds
  import opened Deadband
  import opened PoolDecision
  import opened PoolPlanner
  import opened Planner
  import opened PlanTheorems
  import opened AdvisoryTheorems
  import opened AutoMode
  import opened AutoFigures
  import opened AutoTheorems
  import opened GrowRecords
  import JointFit
  import PR = PlanRuns

  /** The pool is short, the pin leaves a possible number of failure domains to add, and none is frozen too low. */
  predicate PinPlaces(s: Site, p: PoolKind, desired: int, targetFds: int) {
    && desired > 0 && CapacityShort(PoolCurrent(s.existing, p), desired, s.cons)
    && ExactNewFds(s.existing, p, targetFds, desired - PoolCurrent(s.existing, p), s.cons).Some?
    && FrozenGap(s, p, CeilDiv(desired, targetFds)) <= 0
  }

  lemma PinDecision(s: Site, l: Ledger, p: PoolKind, desired: int, minFd: int, targetFds: int)
    requires Tracks(s, l) && targetFds > 0
    ensures var d := DecidePool(s, l, p, desired, minFd, targetFds);
      && (d.Place? <==> PinPlaces(s, p, desired, targetFds))
      && (d.Place? ==> d == ExplicitDecision(s, l, p, desired, targetFds) && d.level == CeilDiv(desired, targetFds))
  {
    CoverTargetIsBoundary(PoolCurrent(s.existing, p), desired, s.cons);
    hide ExistingGroups, TakeFresh, FreshGroups, FrozenGap, ExactNewFds, PoolCurrent, PoolFds, FreshDecision;
  }

  /** The existing groups hold exactly the nodes whose container carries the pool. */
  lemma ExistingHosts(s: Site, l: Ledger, p: PoolKind, c: ExistingContainer)
    requires Tracks(s, l) && AutoSite(s) && c in s.existing
    ensures c.caps.Of(p) > 0 <==> exists g :: g in ExistingGroups(s, l, p) && c.node in g.nodes
  {
    AutoIsDrives(s);
    BearersFacts(s, s.existing, p);
    ExistingSingletons(s, l, p);
    var gs, ns := ExistingGroups(s, l, p), Bearers(s.existing, p);
    hide ExistingGroups, Bearers, AutoDrives, AutoSite;
    if c.caps.Of(p) > 0 {
      assert c.node in ns;
      var i :| 0 <= i < |ns| && ns[i] == c.node;
      assert gs[i] in gs && c.node in gs[i].nodes;
    }
    if g :| g in gs && c.node in g.nodes {
      var i :| 0 <= i < |gs| && gs[i] == g;
      assert ns[i] in ns && ns[i] == c.node;
      var e :| e in s.existing && e.caps.Of(p) > 0 && e.node == c.node;
      SameNode(s, c, e);
    }
  }

  lemma TakenRoom(s: Site, l: Ledger, p: PoolKind, k: nat, level: int, g: FdGroup, n: string)
    requires Tracks(s, l) && AutoSite(s) && n in s.inv && g in TakeFresh(FreshGroups(s, l, p), k, level) && n in g.nodes
    ensures level <= Headroom(s.inv[n], l.budgets[n], p, s.cons, false)
  {
    AutoOneNode(s);
    FreshGroupsAreFresh(s, l, p);
    FreshSingles(s, l, p);
    TakeFreshList(s, l, p, FreshGroups(s, l, p), k, level);
    HeadroomWithoutBase(s.inv[n], l.budgets[n], p, s.cons);
    hide TakeFresh, FreshGroups, IsCandidate, HeadroomBinding, AutoSite, FreshList;
  }

  lemma ExplicitChosen(s: Site, l: Ledger, p: PoolKind, desired: int, targetFds: int)
    requires Tracks(s, l) && PinPlaces(s, p, desired, targetFds)
    ensures var extra := ExactNewFds(s.existing, p, targetFds, desired - PoolCurrent(s.existing, p), s.cons);
      && extra.Some? && ExplicitDecision(s, l, p, desired, targetFds).Place?
      && ExplicitDecision(s, l, p, desired, targetFds).chosen == ExistingGroups(s, l, p) +
        TakeFresh(FreshGroups(s, l, p), extra.value, CeilDiv(desired, targetFds))
  {
    hide ExistingGroups, TakeFresh, FreshGroups, FrozenGap, ExactNewFds, PoolCurrent;
  }

  /** Every container of the pool is chosen, and a chosen node without the pool has room for the level. */
  lemma PinChosen(s: Site, l: Ledger, p: PoolKind, desired: int, minFd: int, targetFds: int, c: ExistingContainer)
    requires Tracks(s, l) && AutoSite(s) && targetFds > 0 && c in s.existing && c.node in s.inv
    requires PinPlaces(s, p, desired, targetFds)
    ensures var d := DecidePool(s, l, p, desired, minFd, targetFds);
      && d.Place? && (c.caps.Of(p) > 0 ==> Chosen(d, c.node))
      && (c.caps.Of(p) <= 0 && Chosen(d, c.node) ==>
           d.level <= Headroom(s.inv[c.node], l.budgets[c.node], p, s.cons, false))
  {
    var level := CeilDiv(desired, targetFds);
    var extra := ExactNewFds(s.existing, p, targetFds, desired - PoolCurrent(s.existing, p), s.cons).value;
    var d, gs, added := DecidePool(s, l, p, desired, minFd, targetFds), ExistingGroups(s, l, p),
      TakeFresh(FreshGroups(s, l, p), extra, level);
    ExplicitChosen(s, l, p, desired, targetFds);
    hide ExistingGroups, TakeFresh, FreshGroups, ExactNewFds, PoolCurrent, DecidePool, HeadroomBinding, AutoSite,
      PinPlaces, ExplicitDecision;
    PinDecision(s, l, p, desired, minFd, targetFds);
    ExistingHosts(s, l, p, c);
    if c.caps.Of(p) > 0 {
      var g :| g in gs && c.node in g.nodes;
      assert g in d.chosen;
    } else if g :| g in d.chosen && c.node in g.nodes {
      assert g in added;
      TakenRoom(s, l, p, extra, level, g, c.node);
    }
  }

  lemma SameNode(s: Site, c: ExistingContainer, e: ExistingContainer)
    requires AutoSite(s) && c in s.existing && e in s.existing && c.node == e.node
    ensures c == e
  {
  }

  /** A chosen failure domain is the node alone, with the whole level as its share. */
  lemma AloneChosen(s: Site, l: Ledger, p: PoolKind, desired: int, minFd: int, targetFds: int, g: FdGroup, n: string)
    requires Tracks(s, l) && AutoSite(s) && n in s.inv
    requires ChosenFd(s, DecidePool(s, l, p, desired, minFd, targetFds), g, n)
    ensures g.nodes == [n] && ShareOf(DecidePool(s, l, p, desired, minFd, targetFds).level, g, n) ==
      DecidePool(s, l, p, desired, minFd, targetFds).level
  {
    var d := DecidePool(s, l, p, desired, minFd, targetFds);
    var nodes := JointFit.DecisionNodes(s, l, p, desired, minFd, targetFds);
    hide DecidePool, AutoSite, JointFit.Pickable;
    var i :| 0 <= i < |d.chosen| && d.chosen[i] == g;
    assert g.nodes == [nodes[i]];
    ShareAt(d.level, g, 0);
    assert Share(d.level, 1, 0) == d.level;
  }

  function RoomAt(s: Site, l: Ledger, p: PoolKind, n: string): int
    requires Tracks(s, l) && n in s.inv
  {
    Headroom(s.inv[n], l.budgets[n], p, s.cons, false)
  }

  /** What a chosen one-node failure domain does, by the room at hand and what the container lacks. */
  lemma AloneFigures(s: Site, l: Ledger, p: PoolKind, level: nat, g: FdGroup, c: ExistingContainer)
    requires Tracks(s, l) && OnSite(s, g) && c.node in s.inv && g.nodes == [c.node]
    requires ShareOf(level, g, c.node) == level
    requires HostOn(s.existing, c.node) == Some(c)
    ensures TriedAt(s, l, p, level, g, c.node) == Max(0, Min(level - c.caps.Of(p), RoomAt(s, l, p, c.node)))
    ensures Complete(s, l, p, level, g) <==> level - c.caps.Of(p) <= RoomAt(s, l, p, c.node)
  {
    hide HeadroomBinding, HostOn, ShareOf;
    if HoldsShare(s, l, p, c.node, level) { assert forall n :: n in g.nodes ==> n == c.node; }
  }

  /** The record of a container that the decision chooses. */
  lemma ChosenRecord(s: Site, l: Ledger, p: PoolKind, desired: int, minFd: int, targetFds: int, c: ExistingContainer)
    requires Tracks(s, l) && AutoSite(s) && c in s.existing && c.node in s.inv
    requires HostOn(s.existing, c.node) == Some(c)
    requires Chosen(DecidePool(s, l, p, desired, minFd, targetFds), c.node)
    ensures var d := DecidePool(s, l, p, desired, minFd, targetFds);
      var lack, room := d.level - c.caps.Of(p), RoomAt(s, l, p, c.node);
      && (Touches(s, l, p, d, c.node) <==> lack > 0 && room > 0)
      && (Completes(s, l, p, d, c.node) <==> lack <= room)
      && PoolGain(s, l, p, d, c.node) == if 0 < lack <= room then lack else 0
  {
    var d := DecidePool(s, l, p, desired, minFd, targetFds);
    ChosenOnSite(s, l, p, desired, minFd, targetFds);
    DecisionDisjoint(s, l, p, desired, minFd, targetFds);
    var g :| g in d.chosen && c.node in g.nodes;
    var i :| 0 <= i < |d.chosen| && d.chosen[i] == g;
    assert ChosenFd(s, d, g, c.node);
    AloneChosen(s, l, p, desired, minFd, targetFds, g, c.node);
    AloneFigures(s, l, p, d.level, g, c);
    hide DecidePool, AutoSite, HostOn, TriedAt, Complete, RoomAt, ChosenFd;
    ChosenIs(s, l, p, d, g, c.node);
    hide Touches, Completes, PoolGain;
  }

  lemma NotTouched(s: Site, l: Ledger, p: PoolKind, d: Decision, n: string)
    requires Tracks(s, l) && n in s.inv && !Chosen(d, n)
    ensures !Touches(s, l, p, d, n) && !Completes(s, l, p, d, n) && PoolGain(s, l, p, d, n) == 0
  {
  }

  /**
   * With one-node failure domains and a pinned count, a container of the pool is recorded exactly when the pin is
   * placed, its share of the target exceeds what it holds and its node has room; the record changes nothing exactly
   * when that room is less than what it lacks. A container without the pool is never rolled back.
   */
  lemma PinnedRecord(input: Input, p: PoolKind, c: ExistingContainer)
    requires AutoSite(input.Place()) && c in input.drives && TargetsOf(input).Of(p) > 0
    ensures c.node in input.Place().inv
    ensures var s, desired, fds := input.Place(), input.desired.raw.Of(p), TargetsOf(input).Of(p);
      var lack, room := CeilDiv(desired, fds) - c.caps.Of(p), RoomAt(s, StateBefore(input, p).ledger, p, c.node);
      var placed := PinPlaces(s, p, desired, fds);
      && (c.caps.Of(p) > 0 ==>
           && (Touched(input, p, c.node) <==> placed && lack > 0 && room > 0)
           && Gained(input, p, c.node) == if placed && 0 < lack <= room then lack else 0)
      && (Touched(input, p, c.node) && !FdCompleted(input, p, c.node) <==>
           placed && c.caps.Of(p) > 0 && 0 < room < lack)
  {
    var s, l, desired := input.Place(), StateBefore(input, p).ledger, input.desired.raw.Of(p);
    var minFd, fds, d := input.scheme.MinFdNum(), TargetsOf(input).Of(p), DecisionFor(input, p);
    AutoOneNode(s);
    assert WellFormedDrive(s, c);
    HostIs(s.existing, c);
    PinDecision(s, l, p, desired, minFd, fds);
    hide DecidePool, StateBefore, AutoSite, PR.InventoryMap, PinPlaces, HostOn, Touches, Completes, PoolGain, RoomAt;
    if PinPlaces(s, p, desired, fds) { PinChosen(s, l, p, desired, minFd, fds, c); }
    hide HeadroomBinding;
    if Chosen(d, c.node) {
      ChosenRecord(s, l, p, desired, minFd, fds, c);
      RoomIs(s, l, p, c.node);
    } else {
      NotTouched(s, l, p, d, c.node);
    }
  }

  lemma RoomIs(s: Site, l: Ledger, p: PoolKind, n: string)
    requires Tracks(s, l) && n in s.inv
    ensures RoomAt(s, l, p, n) == Headroom(s.inv[n], l.budgets[n], p, s.cons, false) >= 0
  {
  }

  /** The pool planned first finds each node's room as the inventory reports it. */
  lemma FirstRoom(input: Input, n: string)
    requires n in input.Place().inv
    ensures var s, p := input.Place(), FirstPool(input.Place(), input.desired.raw);
      RoomAt(s, StateBefore(input, p).ledger, p, n) == Headroom(s.inv[n], InitialBudget(s.inv[n]), p, s.cons, false)
  {
    hide PR.InventoryMap, HeadroomBinding, FirstPool;
  }
}
