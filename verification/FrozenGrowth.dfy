/** With in-place growth disabled: which existing drive containers are grown all the same. */
module FrozenGrowth {
  import opened Arith
  import opened Model
  import opened NodeBudget
  import opened Ledgers
  import opened Placement
  import opened FdRecords
  import opened Ordering
  import opened FreshFds
  import opened PoolDecision
  import opened PoolPlanner
  import opened Planner
  import opened PlanTheorems
  import opened AdvisoryTheorems
  import opened AutoMode
  import opened GrowRecords
  import opened PinnedRecords
  import DB = DefensiveBranch
  import Seating
  import PR = PlanRuns
  import UI = UniformIncrease

  // ----- without a pin only nodes without drives are chosen -----

  ghost predicate DriveFree(s: Site, g: FdGroup) {
    forall i :: 0 <= i < |g.nodes| ==> HostOn(s.existing, g.nodes[i]).None?
  }

  lemma FreshListDriveFree(s: Site, l: Ledger, p: PoolKind, gs: seq<FdGroup>)
    requires Tracks(s, l) && WellFormed(s) && !s.cons.allowInPlaceGrowth && FreshList(s, l, p, gs)
    ensures forall g :: g in gs ==> DriveFree(s, g)
  {
    hide IsCandidate, HostOn, NodeCur;
    forall g | g in gs ensures DriveFree(s, g) {
      forall i | 0 <= i < |g.nodes| ensures HostOn(s.existing, g.nodes[i]).None? {
        assert g.nodes[i] in g.nodes;
        CandidateHoldsNothing(s, l, p, g.nodes[i]);
      }
    }
  }

  lemma FreshChosenFree(s: Site, l: Ledger, p: PoolKind, desired: int, minFd: int, fallback: bool)
    requires Tracks(s, l) && WellFormed(s) && !s.cons.allowInPlaceGrowth
    ensures var d := FreshDecision(s, l, p, desired, minFd, fallback);
      d.Place? ==> forall g :: g in d.chosen ==> DriveFree(s, g)
  {
    FreshOnSite(s, l, p, desired, minFd, fallback);
    var d := FreshDecision(s, l, p, desired, minFd, fallback);
    hide FreshDecision, WellFormed;
    if d.Place? { FreshListDriveFree(s, l, p, d.chosen); }
  }

  lemma IncreaseChosenFree(s: Site, l: Ledger, p: PoolKind, desired: int, minFd: int)
    requires Tracks(s, l) && WellFormed(s) && !s.cons.allowInPlaceGrowth
    ensures var d := IncreaseDecision(s, l, p, desired, minFd);
      d.Place? ==> forall g :: g in d.chosen ==> DriveFree(s, g)
  {
    var inc := IncreaseFor(s, l, p, desired, minFd);
    UI.DecideFacts(inc);
    SpareFresh(s, l, p);
    hide UI.Decide, SpareGroups, TakeFresh, ExistingGroups, WellFormed, Reaches;
    match UI.Decide(inc) {
      case CreateEven(k, size) =>
        TakeFreshList(s, l, p, inc.spare, k, size);
        FreshListDriveFree(s, l, p, TakeFresh(inc.spare, k, size));
      case CreateAtT0(k, level, total) =>
        TakeFreshList(s, l, p, inc.spare, k, level);
        FreshListDriveFree(s, l, p, TakeFresh(inc.spare, k, level));
      case GrowTo(k, level, total) =>
      case GiveUp(_) =>
    }
  }

  lemma UnpinnedChosenFree(s: Site, l: Ledger, p: PoolKind, desired: int, minFd: int, targetFds: int)
    requires Tracks(s, l) && WellFormed(s) && !s.cons.allowInPlaceGrowth && targetFds <= 0
    ensures var d := DecidePool(s, l, p, desired, minFd, targetFds);
      d.Place? ==> forall g :: g in d.chosen ==> DriveFree(s, g)
  {
    hide FreshDecision, IncreaseDecision, ExplicitDecision, DriveFree, WellFormed, PoolFds, PoolCurrent, PoolAverage;
    FreshChosenFree(s, l, p, desired, minFd, true);
    FreshChosenFree(s, l, p, desired, minFd, false);
    IncreaseChosenFree(s, l, p, desired, minFd);
  }

  lemma HostNotFree(s: Site, g: FdGroup, n: string)
    requires DriveFree(s, g) && n in g.nodes
    ensures HostOn(s.existing, n).None?
  {
  }

  lemma FreeNotChosen(s: Site, d: Decision, n: string)
    requires d.Place? ==> forall g :: g in d.chosen ==> DriveFree(s, g)
    requires HostOn(s.existing, n).Some?
    ensures forall g :: !ChosenFd(s, d, g, n)
  {
    forall g ensures !ChosenFd(s, d, g, n) {
      if ChosenFd(s, d, g, n) { HostNotFree(s, g, n); }
    }
  }

  // ----- with a pin the existing failure domains are chosen -----

  lemma LastApart(existing: seq<ExistingContainer>)
    requires OnePerNode(existing) && existing != []
    ensures var init := existing[..|existing| - 1];
      OnePerNode(init) && forall e :: e in init ==> e.node != existing[|existing| - 1].node
  {
    var init := existing[..|existing| - 1];
    forall e | e in init ensures e.node != existing[|existing| - 1].node {
      var i :| 0 <= i < |init| && init[i] == e;
      assert existing[i].node != existing[|existing| - 1].node;
    }
  }

  /** A node is listed under the failure domain of its container exactly when that carries the pool. */
  lemma {:induction false} BearingIs(s: Site, existing: seq<ExistingContainer>, p: PoolKind, c: ExistingContainer)
    requires OnePerNode(existing) && c in existing && (forall e :: e in existing ==> WellFormedDrive(s, e))
    ensures var m := BearingNodes(s, existing, p);
      && (c.node in m <==> c.caps.Of(p) > 0) && (c.caps.Of(p) > 0 ==> m[c.node] == c.fdValue)
      && (c.caps.Of(p) > 0 ==> c.fdValue in BearingFds(s, existing, p))
  {
    var init, last := existing[..|existing| - 1], existing[|existing| - 1];
    assert existing == init + [last] && WellFormedDrive(s, last);
    assert Bears(s, last, p) <==> last.caps.Of(p) > 0;
    LastApart(existing);
    hide WellFormedDrive, Bears, OnePerNode;
    if c == last {
      NotBearing(s, init, p, c.node);
    } else {
      BearingIs(s, init, p, c);
    }
  }

  lemma {:induction false} NotBearing(s: Site, existing: seq<ExistingContainer>, p: PoolKind, n: string)
    requires forall e :: e in existing ==> e.node != n
    ensures n !in BearingNodes(s, existing, p)
  {
    if existing != [] { NotBearing(s, existing[..|existing| - 1], p, n); }
  }

  lemma MemberOfOwn(s: Site, l: Ledger, p: PoolKind, c: ExistingContainer)
    requires Tracks(s, l) && WellFormed(s) && c in s.existing && c.caps.Of(p) > 0
    ensures var g := ExistingGroup(s, l, p, c.fdValue); g in ExistingGroups(s, l, p) && c.node in g.nodes
  {
    BearingIs(s, s.existing, p, c);
    BearingOnSite(s, s.existing, p);
    hide BearingNodes, BearingFds, Ranking, HeadroomBinding, WellFormed;
    var fds := BearingFds(s, s.existing, p);
    var i :| 0 <= i < |fds| && fds[i] == c.fdValue;
    assert ExistingGroups(s, l, p)[i] == ExistingGroup(s, l, p, c.fdValue);
    assert c.node in Elems(ExistingGroup(s, l, p, c.fdValue).nodes);
  }

  lemma OnlyInOwn(s: Site, l: Ledger, p: PoolKind, c: ExistingContainer, g: FdGroup)
    requires Tracks(s, l) && WellFormed(s) && c in s.existing && g in ExistingGroups(s, l, p) && c.node in g.nodes
    ensures c.caps.Of(p) > 0 && g == ExistingGroup(s, l, p, c.fdValue)
  {
    BearingIs(s, s.existing, p, c);
    var gs := ExistingGroups(s, l, p);
    var i :| 0 <= i < |gs| && gs[i] == g;
    hide BearingNodes, BearingFds, Ranking, HeadroomBinding, WellFormed, ExistingGroup;
    ExistingOwner(s, l, p, i, c.node);
  }

  /** Under a pin a host is chosen with its own failure domain exactly when its container carries the pool. */
  lemma PinnedChosen(s: Site, l: Ledger, p: PoolKind, desired: int, minFd: int, targetFds: int, c: ExistingContainer)
    requires Tracks(s, l) && WellFormed(s) && !s.cons.allowInPlaceGrowth && targetFds > 0 && c in s.existing
    requires PinPlaces(s, p, desired, targetFds) && HostOn(s.existing, c.node) == Some(c)
    ensures var d := DecidePool(s, l, p, desired, minFd, targetFds);
      && d.Place?
      && (c.caps.Of(p) > 0 ==> ChosenFd(s, d, ExistingGroup(s, l, p, c.fdValue), c.node))
      && forall g :: ChosenFd(s, d, g, c.node) ==> c.caps.Of(p) > 0 && g == ExistingGroup(s, l, p, c.fdValue)
  {
    PinDecision(s, l, p, desired, minFd, targetFds);
    ExplicitChosen(s, l, p, desired, targetFds);
    FreshGroupsAreFresh(s, l, p);
    var d, level := DecidePool(s, l, p, desired, minFd, targetFds), CeilDiv(desired, targetFds);
    var extra := ExactNewFds(s.existing, p, targetFds, desired - PoolCurrent(s.existing, p), s.cons).value;
    hide ExistingGroups, ExistingGroup, TakeFresh, FreshGroups, ExactNewFds, PoolCurrent, DecidePool, WellFormed,
      PinPlaces, ExplicitDecision, HostOn, FreshList;
    var taken := TakeFresh(FreshGroups(s, l, p), extra, level);
    TakeFreshList(s, l, p, FreshGroups(s, l, p), extra, level);
    FreshListDriveFree(s, l, p, taken);
    if c.caps.Of(p) > 0 { MemberOfOwn(s, l, p, c); }
    forall g | ChosenFd(s, d, g, c.node)
      ensures c.caps.Of(p) > 0 && g == ExistingGroup(s, l, p, c.fdValue)
    {
      if g in taken { HostNotFree(s, g, c.node); }
      OnlyInOwn(s, l, p, c, g);
    }
  }

  // ----- the condition -----

  /** The container's even share of what its failure domain should hold. */
  ghost function EvenShare(s: Site, l: Ledger, p: PoolKind, c: ExistingContainer, level: nat): nat
    requires Tracks(s, l) && c.node in ExistingGroup(s, l, p, c.fdValue).nodes
  {
    ShareOf(level, ExistingGroup(s, l, p, c.fdValue), c.node)
  }

  /** A placed pin finds the container below its even share, with room on its node. */
  ghost predicate BelowShare(s: Site, l: Ledger, p: PoolKind, desired: int, targetFds: int, c: ExistingContainer)
    requires Tracks(s, l) && c.node in s.inv
  {
    && targetFds > 0 && PinPlaces(s, p, desired, targetFds) && c.caps.Of(p) > 0
    && c.node in ExistingGroup(s, l, p, c.fdValue).nodes
    && EvenShare(s, l, p, c, CeilDiv(desired, targetFds)) > c.caps.Of(p) && RoomAt(s, l, p, c.node) > 0
  }

  lemma OwnFigures(s: Site, l: Ledger, p: PoolKind, level: nat, c: ExistingContainer)
    requires Tracks(s, l) && c.node in s.inv && c.node in ExistingGroup(s, l, p, c.fdValue).nodes
    requires HostOn(s.existing, c.node) == Some(c)
    ensures TriedAt(s, l, p, level, ExistingGroup(s, l, p, c.fdValue), c.node) > 0 <==>
      EvenShare(s, l, p, c, level) > c.caps.Of(p) && RoomAt(s, l, p, c.node) > 0
  {
    hide HeadroomBinding, HostOn, ShareOf, ExistingGroup;
  }

  lemma PinnedTouches(s: Site, l: Ledger, p: PoolKind, desired: int, minFd: int, targetFds: int, c: ExistingContainer)
    requires Tracks(s, l) && WellFormed(s) && !s.cons.allowInPlaceGrowth && c in s.existing && c.node in s.inv
    requires targetFds > 0 && PinPlaces(s, p, desired, targetFds) && HostOn(s.existing, c.node) == Some(c)
    ensures var d := DecidePool(s, l, p, desired, minFd, targetFds);
      && (Touches(s, l, p, d, c.node) <==> BelowShare(s, l, p, desired, targetFds, c))
      && (BelowShare(s, l, p, desired, targetFds, c) ==>
           (Completes(s, l, p, d, c.node) <==>
             Complete(s, l, p, CeilDiv(desired, targetFds), ExistingGroup(s, l, p, c.fdValue))))
  {
    var d, g, level := DecidePool(s, l, p, desired, minFd, targetFds), ExistingGroup(s, l, p, c.fdValue),
      CeilDiv(desired, targetFds);
    PinDecision(s, l, p, desired, minFd, targetFds);
    DecisionDisjoint(s, l, p, desired, minFd, targetFds);
    PinnedChosen(s, l, p, desired, minFd, targetFds, c);
    hide DecidePool, WellFormed, HostOn, ExistingGroup, PinPlaces, RoomAt, EvenShare, Complete, TriedAt,
      ExplicitDecision, NodesDisjoint;
    if c.caps.Of(p) > 0 {
      ChosenIs(s, l, p, d, g, c.node);
      OwnFigures(s, l, p, level, c);
    }
  }

  /** With growth off a decision leaves a growth record exactly there, and keeps it where every host has room. */
  lemma FrozenTouches(s: Site, l: Ledger, p: PoolKind, desired: int, minFd: int, targetFds: int, c: ExistingContainer)
    requires Tracks(s, l) && WellFormed(s) && !s.cons.allowInPlaceGrowth && c in s.existing && c.node in s.inv
    ensures var d := DecidePool(s, l, p, desired, minFd, targetFds);
      && (Touches(s, l, p, d, c.node) <==> BelowShare(s, l, p, desired, targetFds, c))
      && (BelowShare(s, l, p, desired, targetFds, c) ==>
           (Completes(s, l, p, d, c.node) <==>
             Complete(s, l, p, CeilDiv(desired, targetFds), ExistingGroup(s, l, p, c.fdValue))))
  {
    assert WellFormedDrive(s, c);
    HostIs(s.existing, c);
    var d := DecidePool(s, l, p, desired, minFd, targetFds);
    if targetFds <= 0 {
      UnpinnedChosenFree(s, l, p, desired, minFd, targetFds);
      hide DecidePool, WellFormed, HostOn, ExistingGroup, PinPlaces, TriedAt, DriveFree;
      FreeNotChosen(s, d, c.node);
    } else {
      PinDecision(s, l, p, desired, minFd, targetFds);
      hide DecidePool, WellFormed, HostOn, ExistingGroup, PinPlaces, RoomAt, EvenShare, Complete, ExplicitDecision;
      if PinPlaces(s, p, desired, targetFds) {
        PinnedTouches(s, l, p, desired, minFd, targetFds, c);
      }
    }
  }

  // ----- whole plans -----

  /** In the plan of `input`, pool p finds container c below its even share, with room on its node. */
  ghost predicate Lifts(input: Input, p: PoolKind, c: ExistingContainer)
    requires c.node in input.Place().inv
  {
    BelowShare(input.Place(), StateBefore(input, p).ledger, p, input.desired.raw.Of(p), TargetsOf(input).Of(p), c)
  }

  /** Every host of the container's failure domain has room for its even share. */
  ghost predicate DomainHolds(input: Input, p: PoolKind, c: ExistingContainer) {
    var s, l := input.Place(), StateBefore(input, p).ledger;
    Complete(s, l, p, CeilDiv(input.desired.raw.Of(p), TargetsOf(input).Of(p)), ExistingGroup(s, l, p, c.fdValue))
  }

  lemma LiftsExactly(input: Input, p: PoolKind, c: ExistingContainer)
    requires WellFormed(input.Place()) && !input.cons.allowInPlaceGrowth && c in input.drives
    requires c.node in input.Place().inv
    ensures Touched(input, p, c.node) <==> Lifts(input, p, c)
    ensures Lifts(input, p, c) ==> (FdCompleted(input, p, c.node) <==> DomainHolds(input, p, c))
  {
    hide StateBefore, DecidePool, WellFormed, PR.InventoryMap, BelowShare, Touches, Completes, ExistingGroup, Complete;
    FrozenTouches(input.Place(), StateBefore(input, p).ledger, p, input.desired.raw.Of(p), input.scheme.MinFdNum(),
      TargetsOf(input).Of(p), c);
  }

  /**
   * With in-place growth off, on any site with well-formed drives, a container gets a growth record exactly when a
   * placed pin finds it below its even share with room on its node; it is raised exactly when, in addition, every host
   * of its failure domain has room for its share.
   */
  lemma FrozenGrowthExact(input: Input, c: ExistingContainer)
    requires WellFormed(input.Place()) && !input.cons.allowInPlaceGrowth && c in input.drives
    ensures c.node in input.Place().inv
    ensures var l := PoolsOf(input).ledger;
      && (c.name in l.growth <==> Lifts(input, TLC, c) || Lifts(input, QLC, c))
      && (GrowthOf(l, c) != c.caps <==> exists p :: Lifts(input, p, c) && DomainHolds(input, p, c))
  {
    var s := input.Place();
    assert WellFormedDrive(s, c);
    HostIs(s.existing, c);
    WellFormedNonNegative(s);
    assert UniqueNames(s.existing);
    hide Touched, Lifts, DomainHolds, FdCompleted, WellFormed, HostOn, PoolsOf, PR.InventoryMap;
    RecordExact(input, c);
    forall p ensures Touched(input, p, c.node) <==> Lifts(input, p, c) { LiftsExactly(input, p, c); }
    forall p | Lifts(input, p, c) ensures FdCompleted(input, p, c.node) <==> DomainHolds(input, p, c) {
      LiftsExactly(input, p, c);
    }
  }

  lemma NoLiftUnpinned(input: Input, p: PoolKind, c: ExistingContainer)
    requires input.desired.driveContainers <= 0 && c.node in input.Place().inv
    ensures !Lifts(input, p, c)
  {
    hide StateBefore, PR.InventoryMap;
    assert TargetsOf(input).Of(p) == 0;
  }

  lemma {:induction false} NoGapMeansHeld(existing: seq<ExistingContainer>, fds: seq<string>, p: PoolKind, level: int)
    requires FirstGap(existing, fds, p, level) <= 0
    ensures forall i :: 0 <= i < |fds| ==> FdCap(existing, fds[i], p) >= level
  {
    if fds != [] {
      NoGapMeansHeld(existing, fds[1..], p, level);
      forall i | 0 <= i < |fds| ensures FdCap(existing, fds[i], p) >= level {
        if i > 0 { assert fds[i] == fds[1..][i - 1]; }
      }
    }
  }

  /** No two containers share a failure domain. */
  ghost predicate OneHostFds(existing: seq<ExistingContainer>) {
    forall i, j :: 0 <= i < j < |existing| ==> existing[i].fdValue != existing[j].fdValue
  }

  lemma {:induction false} FdCapNone(existing: seq<ExistingContainer>, fd: string, p: PoolKind)
    requires forall i :: 0 <= i < |existing| ==> existing[i].fdValue != fd
    ensures FdCap(existing, fd, p) == 0
  {
    if existing != [] { FdCapNone(existing[..|existing| - 1], fd, p); }
  }

  lemma {:induction false} FdCapIs(existing: seq<ExistingContainer>, c: ExistingContainer, p: PoolKind)
    requires OneHostFds(existing) && c in existing && c.caps.Of(p) > 0
    ensures FdCap(existing, c.fdValue, p) == c.caps.Of(p)
  {
    var init, last := existing[..|existing| - 1], existing[|existing| - 1];
    var i :| 0 <= i < |existing| && existing[i] == c;
    if i == |init| {
      FdCapNone(init, c.fdValue, p);
    } else {
      assert init[i] == c && existing[i].fdValue != last.fdValue;
      FdCapIs(init, c, p);
    }
  }

  lemma PinnedHeld(s: Site, p: PoolKind, level: nat, c: ExistingContainer)
    requires WellFormed(s) && OneHostFds(s.existing) && !s.cons.allowInPlaceGrowth && FrozenGap(s, p, level) <= 0
    requires c in s.existing && c.caps.Of(p) > 0
    ensures c.caps.Of(p) >= level
  {
    DB.PoolFdsAre(s.existing, p);
    NoGapMeansHeld(s.existing, PoolFds(s.existing, p), p, level);
    assert WellFormedDrive(s, c);
    FdCapIs(s.existing, c, p);
    hide FdCap, PoolFds, FirstGap;
    var i :| 0 <= i < |PoolFds(s.existing, p)| && PoolFds(s.existing, p)[i] == c.fdValue;
  }

  lemma SameFd(existing: seq<ExistingContainer>, c: ExistingContainer, e: ExistingContainer)
    requires OneHostFds(existing) && c in existing && e in existing && c.fdValue == e.fdValue
    ensures c == e
  {
  }

  lemma OnlyMember(s: Site, l: Ledger, p: PoolKind, c: ExistingContainer, n: string)
    requires Tracks(s, l) && WellFormed(s) && OneHostFds(s.existing) && c in s.existing
    requires n in ExistingGroup(s, l, p, c.fdValue).nodes
    ensures n == c.node
  {
    BearingOnSite(s, s.existing, p);
    var m := BearingNodes(s, s.existing, p);
    hide BearingNodes, HeadroomBinding, WellFormed, Ranking;
    assert n in Elems(ExistingGroup(s, l, p, c.fdValue).nodes);
    assert n in m && m[n] == c.fdValue;
    Seating.BearersCarry(s, s.existing, p, n);
    var e :| e in s.existing && e.node == n && e.fdValue == c.fdValue;
    SameFd(s.existing, c, e);
  }

  lemma OwnAlone(s: Site, l: Ledger, p: PoolKind, level: nat, c: ExistingContainer)
    requires Tracks(s, l) && WellFormed(s) && OneHostFds(s.existing) && c in s.existing
    requires c.node in ExistingGroup(s, l, p, c.fdValue).nodes
    ensures EvenShare(s, l, p, c, level) == level
  {
    var g := ExistingGroup(s, l, p, c.fdValue);
    hide ExistingGroup, WellFormed;
    assert |g.nodes| > 1 ==> g.nodes[0] != g.nodes[1];
    forall i | 0 <= i < |g.nodes| ensures g.nodes[i] == c.node { OnlyMember(s, l, p, c, g.nodes[i]); }
    ShareAt(level, g, 0);
    assert Share(level, 1, 0) == level;
  }

  /** With one host per existing failure domain a placed pin finds every container at its share. */
  lemma NoLiftAlone(s: Site, l: Ledger, p: PoolKind, desired: int, targetFds: int, c: ExistingContainer)
    requires Tracks(s, l) && WellFormed(s) && OneHostFds(s.existing) && !s.cons.allowInPlaceGrowth
    requires c in s.existing && c.node in s.inv
    ensures !BelowShare(s, l, p, desired, targetFds, c)
  {
    if BelowShare(s, l, p, desired, targetFds, c) {
      PinnedHeld(s, p, CeilDiv(desired, targetFds), c);
      OwnAlone(s, l, p, CeilDiv(desired, targetFds), c);
    }
  }

  lemma NoLift(input: Input, p: PoolKind, c: ExistingContainer)
    requires WellFormed(input.Place()) && !input.cons.allowInPlaceGrowth && c in input.drives
    requires c.node in input.Place().inv
    requires input.desired.driveContainers > 0 ==> OneHostFds(input.drives)
    ensures !Lifts(input, p, c)
  {
    hide StateBefore, PR.InventoryMap, BelowShare, OneHostFds, WellFormed;
    if input.desired.driveContainers <= 0 {
      NoLiftUnpinned(input, p, c);
    } else {
      NoLiftAlone(input.Place(), StateBefore(input, p).ledger, p, input.desired.raw.Of(p), TargetsOf(input).Of(p),
        c);
    }
  }

  lemma NoRecord(input: Input, c: ExistingContainer)
    requires WellFormed(input.Place()) && !input.cons.allowInPlaceGrowth && c in input.drives
    requires input.desired.driveContainers > 0 ==> OneHostFds(input.drives)
    ensures c.name !in PoolsOf(input).ledger.growth
  {
    hide Lifts, DomainHolds, WellFormed, PoolsOf, PR.InventoryMap;
    FrozenGrowthExact(input, c);
    forall p ensures !Lifts(input, p, c) { NoLift(input, p, c); }
  }

  /** A growth entry comes from the record of a container. */
  lemma SomeRecord(input: Input) returns (c: ExistingContainer)
    requires WellFormed(input.Place()) && PlanCapacity(input).grow != []
    ensures c in input.drives && c.name in PoolsOf(input).ledger.growth
  {
    var s := input.Place();
    hide PlanCapacity, PlanPools, PR.InventoryMap, HostOn;
    PlanGrow(input, 0);
    PoolsKeepFloor(s, input.desired.raw, input.scheme.MinFdNum(), TargetsOf(input));
    c :| c in s.existing && c.name == PlanCapacity(input).grow[0].name;
  }

  /**
   * With in-place growth off and well-formed drives the plan, feasible or not, grows nothing, unless a container count
   * is pinned and two containers share a failure domain.
   */
  lemma GrowthOffGrowsNothing(input: Input)
    requires WellFormed(input.Place()) && !input.cons.allowInPlaceGrowth
    requires input.desired.driveContainers > 0 ==> OneHostFds(input.drives)
    ensures PlanCapacity(input).grow == []
  {
    if PlanCapacity(input).grow != [] {
      var c := SomeRecord(input);
      NoRecord(input, c);
    }
  }
}
