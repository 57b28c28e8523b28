/** What the growth records of a plan say: they never shrink a container, and when one changes nothing. */
module GrowRecords {
  import opened Model
  import opened NodeBudget
  import opened Ledgers
  import opened Placement
  import opened FdRecords
  import opened FreshFds
  import opened PoolDecision
  import opened PoolPlanner
  import opened Planner
  import opened PlanTheorems
  import opened AdvisoryTheorems
  import opened AutoMode
  import opened AutoFigures
  import opened AutoTheorems
  import JointFit
  import Seating
  import UI = UniformIncrease
  import PR = PlanRuns
  import CP = ComputePlanner
  import DriveCoreCounts

  // ----- every record belongs to an existing container -----

  ghost predicate Named(s: Site, l: Ledger) {
    forall k :: k in l.growth ==>
      exists c :: c in s.existing && c.name == k && c.node in s.inv && HostOn(s.existing, c.node) == Some(c)
  }

  lemma HostNamed(s: Site, l: Ledger, p: PoolKind, node: string, fd: string, share: nat)
    requires Tracks(s, l) && node in s.inv && Named(s, l)
    ensures Named(s, PlaceHost(s, l, p, node, fd, share).ledger)
  {
    HostCases(s, l, p, node, fd, share);
    hide PlaceHost, HostAdd, Charge;
    var l' := PlaceHost(s, l, p, node, fd, share).ledger;
    hide HostOn;
    forall k | k in l'.growth
      ensures exists c :: c in s.existing && c.name == k && c.node in s.inv && HostOn(s.existing, c.node) == Some(c)
    {
      if k !in l.growth {
        var c := HostOn(s.existing, node).value;
        assert c.name == k && c.node == node;
      }
    }
  }

  lemma {:induction false} HostsNamed(s: Site, l: Ledger, p: PoolKind, nodes: seq<string>, fd: string, target: nat,
      k: nat)
    requires Tracks(s, l) && k <= |nodes| && (forall i :: 0 <= i < |nodes| ==> nodes[i] in s.inv) && Named(s, l)
    ensures Named(s, PlaceHosts(s, l, p, nodes, fd, target, k).ledger)
  {
    if k > 0 {
      HostsNamed(s, l, p, nodes, fd, target, k - 1);
      var prior := PlaceHosts(s, l, p, nodes, fd, target, k - 1).ledger;
      HostNamed(s, prior, p, nodes[k - 1], fd, Share(target, |nodes|, k - 1));
      hide PlaceHost, Named, Share;
    }
  }

  lemma FdNamed(s: Site, l: Ledger, p: PoolKind, target: nat, g: FdGroup)
    requires Tracks(s, l) && OnSite(s, g) && Named(s, l)
    ensures Named(s, PlaceFd(s, l, p, target, g))
  {
    if g.nodes != [] {
      HostsNamed(s, l, p, g.nodes, s.inv[g.nodes[0]].fdValue, target, |g.nodes|);
      hide PlaceHosts;
    }
  }

  lemma {:induction false} UniformNamed(s: Site, l: Ledger, p: PoolKind, target: nat, chosen: seq<FdGroup>)
    requires Tracks(s, l) && AllOnSite(s, chosen) && Named(s, l)
    ensures Named(s, PlaceUniform(s, l, p, target, chosen))
  {
    if chosen != [] {
      UniformNamed(s, l, p, target, chosen[..|chosen| - 1]);
      FdNamed(s, PlaceUniform(s, l, p, target, chosen[..|chosen| - 1]), p, target, chosen[|chosen| - 1]);
      hide PlaceFd, Named;
    }
  }

  lemma PoolNamed(s: Site, st: PoolState, p: PoolKind, desired: int, minFd: int, targetFds: int)
    requires Tracks(s, st.ledger) && Named(s, st.ledger)
    ensures Named(s, PlanPool(s, st, p, desired, minFd, targetFds).ledger)
  {
    hide DecidePool, PlaceUniform, Feasibility, Named;
    ChosenOnSite(s, st.ledger, p, desired, minFd, targetFds);
    var d := DecidePool(s, st.ledger, p, desired, minFd, targetFds);
    if d.Place? { UniformNamed(s, st.ledger, p, d.level, d.chosen); }
  }

  /** After both pools every record is of an existing container and at least what it holds now, in both pools. */
  lemma PoolsKeepFloor(s: Site, raw: Caps, minFd: int, targets: Caps)
    requires UniqueNames(s.existing)
    ensures var l := PlanPools(s, raw, minFd, targets).ledger;
      Named(s, l) && forall c, p :: c in s.existing ==> FinalCap(l, c, p) >= c.caps.Of(p)
  {
    hide PlanPool, FirstPool, Named;
    var a := FirstPool(s, raw);
    var st0 := PoolState(Opening(s.inv), NO_NOTES);
    OpeningNamed(s);
    PoolNamed(s, st0, a, raw.Of(a), minFd, targets.Of(a));
    PlanPoolKeeps(s, st0, a, raw.Of(a), minFd, targets.Of(a));
    var st1 := PlanPool(s, st0, a, raw.Of(a), minFd, targets.Of(a));
    PoolNamed(s, st1, a.Other(), raw.Of(a.Other()), minFd, targets.Of(a.Other()));
    PlanPoolKeeps(s, st1, a.Other(), raw.Of(a.Other()), minFd, targets.Of(a.Other()));
    var st2 := PlanPool(s, st1, a.Other(), raw.Of(a.Other()), minFd, targets.Of(a.Other()));
    forall c, p | c in s.existing ensures FinalCap(st2.ledger, c, p) >= c.caps.Of(p) {
      FloorKept(s, a, st0.ledger, st1.ledger, st2.ledger, c, p);
    }
  }

  lemma OpeningNamed(s: Site)
    ensures Named(s, Opening(s.inv))
  {
  }

  lemma FloorKept(s: Site, a: PoolKind, l0: Ledger, l1: Ledger, l2: Ledger, c: ExistingContainer, p: PoolKind)
    requires Extends(s, a, l0, l1) && Extends(s, a.Other(), l1, l2) && c in s.existing && l0.growth == map[]
    ensures FinalCap(l2, c, p) >= c.caps.Of(p)
  {
    assert FinalCap(l0, c, p) == c.caps.Of(p);
    assert p == a || p == a.Other();
    assert a.Other().Other() == a;
  }

  // ----- what a plan lists -----

  /** Listed entries carry the record of their name, whether or not the list was cut short. */
  lemma {:induction false} GrowListed(growth: map<string, Caps>, names: seq<string>, driveCores: int, cons: Constraints,
      k: nat)
    requires (forall i :: 0 <= i < |names| ==> names[i] in growth)
    requires k < |EmitGrow(growth, names, driveCores, cons).list|
    ensures var g := EmitGrow(growth, names, driveCores, cons).list[k]; g.name in growth && g.caps == growth[g.name]
  {
    var init := names[..|names| - 1];
    if k < |EmitGrow(growth, init, driveCores, cons).list| { GrowListed(growth, init, driveCores, cons, k); }
    hide DriveCoreCounts.PinCores;
  }

  /** Any plan's growth list is the emitted one, or empty. */
  lemma PlanGrow(input: Input, k: nat)
    requires k < |PlanCapacity(input).grow|
    ensures var g, l := PlanCapacity(input).grow[k], PoolsOf(input).ledger;
      g.name in l.growth && g.caps == l.growth[g.name]
  {
    hide PlanPools, EmitGrow, EmitCreate, ComputeOf, DriveCoreCounts.RequiredComputeCores, DistinctDriveFds,
      ProtectionOk, SplitDriveContainers, PR.InventoryMap, CP.SortedNames;
    var l := PoolsOf(input).ledger;
    GrowListed(l.growth, Recorded(l.growth.Keys), input.desired.driveCores, input.cons, k);
  }

  /** In every plan, feasible or not, each growth entry names an existing container and shrinks neither of its pools. */
  lemma GrowNeverShrinks(input: Input, k: nat)
    requires UniqueNames(input.drives) && k < |PlanCapacity(input).grow|
    ensures var g := PlanCapacity(input).grow[k];
      exists c :: c in input.drives && c.name == g.name && g.caps.tlc >= c.caps.tlc && g.caps.qlc >= c.caps.qlc
  {
    hide PlanCapacity, PlanPools;
    PlanGrow(input, k);
    var s, l, g := input.Place(), PoolsOf(input).ledger, PlanCapacity(input).grow[k];
    PoolsKeepFloor(s, input.desired.raw, input.scheme.MinFdNum(), TargetsOf(input));
    var c :| c in s.existing && c.name == g.name;
    assert FinalCap(l, c, TLC) >= c.caps.tlc && FinalCap(l, c, QLC) >= c.caps.qlc;
  }

  // ----- what a decision does at one node -----

  /** g is a chosen failure domain with host n. */
  ghost predicate ChosenFd(s: Site, d: Decision, g: FdGroup, n: string) {
    d.Place? && g in d.chosen && n in g.nodes && OnSite(s, g)
  }

  /** The failure domain of n is chosen, n lacks part of its share and has some room: a record is made. */
  ghost predicate Touches(s: Site, l: Ledger, p: PoolKind, d: Decision, n: string)
    requires Tracks(s, l) && n in s.inv
  {
    exists g :: ChosenFd(s, d, g, n) && TriedAt(s, l, p, d.level, g, n) > 0
  }

  /** The failure domain of n is chosen and every host of it has room for its share: nothing is rolled back. */
  ghost predicate Completes(s: Site, l: Ledger, p: PoolKind, d: Decision, n: string)
    requires Tracks(s, l)
  {
    exists g :: ChosenFd(s, d, g, n) && Complete(s, l, p, d.level, g)
  }

  /** What the record gains in the end. */
  ghost function PoolGain(s: Site, l: Ledger, p: PoolKind, d: Decision, n: string): int
    requires Tracks(s, l) && n in s.inv
  {
    if exists g :: ChosenFd(s, d, g, n) then
      var g :| ChosenFd(s, d, g, n);
      KeptAt(s, l, p, d.level, g, n)
    else 0
  }

  lemma OneChosen(s: Site, d: Decision, g: FdGroup, h: FdGroup, n: string)
    requires ChosenFd(s, d, g, n) && ChosenFd(s, d, h, n) && NodesDisjoint(d.chosen)
    ensures g == h
  {
    var i :| 0 <= i < |d.chosen| && d.chosen[i] == g;
    var j :| 0 <= j < |d.chosen| && d.chosen[j] == h;
    assert n in d.chosen[i].nodes && n in d.chosen[j].nodes;
  }

  lemma TriedNonNegative(s: Site, l: Ledger, p: PoolKind, level: nat, g: FdGroup, n: string)
    requires Tracks(s, l) && n in s.inv && n in g.nodes
    ensures TriedAt(s, l, p, level, g, n) >= 0
  {
    HostCases(s, l, p, n, "", ShareOf(level, g, n));
  }

  /** The three notions in terms of any chosen failure domain of n, of which there is at most one. */
  lemma ChosenIs(s: Site, l: Ledger, p: PoolKind, d: Decision, g: FdGroup, n: string)
    requires Tracks(s, l) && n in s.inv && ChosenFd(s, d, g, n) && NodesDisjoint(d.chosen)
    ensures Touches(s, l, p, d, n) <==> TriedAt(s, l, p, d.level, g, n) > 0
    ensures Completes(s, l, p, d, n) <==> Complete(s, l, p, d.level, g)
    ensures PoolGain(s, l, p, d, n) == KeptAt(s, l, p, d.level, g, n)
  {
    forall h | ChosenFd(s, d, h, n) ensures h == g { OneChosen(s, d, g, h, n); }
    hide ChosenFd, TriedAt, Complete, KeptAt;
  }

  lemma GainSign(s: Site, l: Ledger, p: PoolKind, d: Decision, n: string)
    requires Tracks(s, l) && n in s.inv && (d.Place? ==> NodesDisjoint(d.chosen))
    ensures PoolGain(s, l, p, d, n) >= 0
    ensures PoolGain(s, l, p, d, n) > 0 <==> Touches(s, l, p, d, n) && Completes(s, l, p, d, n)
  {
    if g :| ChosenFd(s, d, g, n) {
      ChosenIs(s, l, p, d, g, n);
      TriedNonNegative(s, l, p, d.level, g, n);
      hide ChosenFd, TriedAt, Complete, Touches, Completes, PoolGain;
    }
  }

  lemma PoolLedger(s: Site, st: PoolState, p: PoolKind, desired: int, minFd: int, targetFds: int)
    requires Tracks(s, st.ledger)
    ensures var d := DecidePool(s, st.ledger, p, desired, minFd, targetFds);
      && (d.Place? ==> AllOnSite(s, d.chosen) && NodesDisjoint(d.chosen))
      && PlanPool(s, st, p, desired, minFd, targetFds).ledger ==
        if d.Place? then PlaceUniform(s, st.ledger, p, d.level, d.chosen) else st.ledger
  {
    ChosenOnSite(s, st.ledger, p, desired, minFd, targetFds);
    DecisionDisjoint(s, st.ledger, p, desired, minFd, targetFds);
    hide DecidePool, PlaceUniform, Feasibility, AllOnSite, NodesDisjoint;
  }

  lemma NotChosen(s: Site, l: Ledger, p: PoolKind, d: Decision, n: string)
    requires Tracks(s, l) && n in s.inv && d.Place? && AllOnSite(s, d.chosen) && UniqueNames(s.existing)
    requires !exists g :: ChosenFd(s, d, g, n)
    ensures Untouched(s, l, PlaceUniform(s, l, p, d.level, d.chosen), n)
  {
    forall i | 0 <= i < |d.chosen| ensures n !in d.chosen[i].nodes {
      assert OnSite(s, d.chosen[i]) && !ChosenFd(s, d, d.chosen[i], n);
    }
    UniformElsewhere(s, l, p, d.level, d.chosen, n);
  }

  /** Planning one pool changes a node exactly by its chosen failure domain, if any. */
  lemma PoolEffect(s: Site, st: PoolState, p: PoolKind, desired: int, minFd: int, targetFds: int, n: string)
    requires Tracks(s, st.ledger) && n in s.inv && UniqueNames(s.existing) && NonNegativeDrives(s.existing)
    ensures var l, d := st.ledger, DecidePool(s, st.ledger, p, desired, minFd, targetFds);
      && Effect(s, l, PlanPool(s, st, p, desired, minFd, targetFds).ledger, p, n, Touches(s, l, p, d, n),
        PoolGain(s, l, p, d, n))
      && PoolGain(s, l, p, d, n) >= 0
      && (PoolGain(s, l, p, d, n) > 0 <==> Touches(s, l, p, d, n) && Completes(s, l, p, d, n))
  {
    var l, d := st.ledger, DecidePool(s, st.ledger, p, desired, minFd, targetFds);
    PoolLedger(s, st, p, desired, minFd, targetFds);
    GainSign(s, l, p, d, n);
    hide DecidePool, PlaceUniform, PlanPool, Effect, KeptAt, TriedAt, Complete, AllOnSite, NodesDisjoint;
    if g :| ChosenFd(s, d, g, n) {
      var j :| 0 <= j < |d.chosen| && d.chosen[j] == g;
      ChosenIs(s, l, p, d, g, n);
      UniformEffect(s, l, p, d.level, d.chosen, j, n);
    } else {
      if d.Place? { NotChosen(s, l, p, d, n); }
      NoEffect(s, l, PlanPool(s, st, p, desired, minFd, targetFds).ledger, p, n);
    }
  }

  // ----- what a plan does at one node -----

  ghost predicate Touched(input: Input, p: PoolKind, n: string)
    requires n in input.Place().inv
  {
    Touches(input.Place(), StateBefore(input, p).ledger, p, DecisionFor(input, p), n)
  }

  ghost predicate FdCompleted(input: Input, p: PoolKind, n: string) {
    Completes(input.Place(), StateBefore(input, p).ledger, p, DecisionFor(input, p), n)
  }

  ghost function Gained(input: Input, p: PoolKind, n: string): int
    requires n in input.Place().inv
  {
    PoolGain(input.Place(), StateBefore(input, p).ledger, p, DecisionFor(input, p), n)
  }

  ghost function LedgerAfter(input: Input, p: PoolKind): (l: Ledger)
    ensures Tracks(input.Place(), l)
  {
    PlanPool(input.Place(), StateBefore(input, p), p, input.desired.raw.Of(p), input.scheme.MinFdNum(),
      TargetsOf(input).Of(p)).ledger
  }

  lemma InputEffect(input: Input, p: PoolKind, n: string)
    requires n in input.Place().inv && UniqueNames(input.drives) && NonNegativeDrives(input.drives)
    ensures Effect(input.Place(), StateBefore(input, p).ledger, LedgerAfter(input, p), p, n, Touched(input, p, n),
      Gained(input, p, n))
    ensures Gained(input, p, n) >= 0 && (Gained(input, p, n) > 0 <==> Touched(input, p, n) && FdCompleted(input, p, n))
  {
    hide PlanPool, DecidePool, Touches, Completes, PoolGain, StateBefore, PR.InventoryMap, Effect;
    PoolEffect(input.Place(), StateBefore(input, p), p, input.desired.raw.Of(p), input.scheme.MinFdNum(),
      TargetsOf(input).Of(p), n);
  }

  /** The ledger before each pool and after both. */
  lemma Ledgers3(input: Input)
    ensures var s, a := input.Place(), FirstPool(input.Place(), input.desired.raw);
      && StateBefore(input, a).ledger == Opening(s.inv) && LedgerAfter(input, a) == StateBefore(input, a.Other()).ledger
      && LedgerAfter(input, a.Other()) == PoolsOf(input).ledger
  {
    hide PlanPool, FirstPool, PR.InventoryMap;
  }

  /** The records of a node after both pools: whether there is one, and what each pool added to it. */
  predicate Holds(s: Site, l: Ledger, n: string, touched: bool, tlc: int, qlc: int) {
    match HostOn(s.existing, n)
    case Some(c) => (c.name in l.growth <==> touched) && GrowthOf(l, c) == Caps(c.caps.tlc + tlc, c.caps.qlc + qlc)
    case None => (n in l.created <==> touched) && CreatedCaps(l, n) == Caps(tlc, qlc)
  }

  /** Two effects on a node that starts without records. */
  lemma TwoEffects(s: Site, l0: Ledger, l1: Ledger, l2: Ledger, n: string, a: PoolKind, ta: bool, ga: int, tb: bool,
      gb: int)
    requires Tracks(s, l0) && Tracks(s, l1) && Tracks(s, l2) && n in s.inv && l0.growth == map[] && l0.created == map[]
    requires Effect(s, l0, l1, a, n, ta, ga) && Effect(s, l1, l2, a.Other(), n, tb, gb)
    ensures Holds(s, l2, n, ta || tb, if a == TLC then ga else gb, if a == TLC then gb else ga)
  {
    hide HostOn, Charge;
  }

  lemma NodeRecord(input: Input, n: string)
    requires n in input.Place().inv && UniqueNames(input.drives) && NonNegativeDrives(input.drives)
    ensures Holds(input.Place(), PoolsOf(input).ledger, n, Touched(input, TLC, n) || Touched(input, QLC, n),
      Gained(input, TLC, n), Gained(input, QLC, n))
  {
    var s := input.Place();
    var a := FirstPool(s, input.desired.raw);
    Ledgers3(input);
    assert Opening(s.inv).growth == map[] && Opening(s.inv).created == map[];
    hide PlanPool, Touched, Gained, FirstPool, StateBefore, PoolsOf, Effect, PR.InventoryMap, LedgerAfter, Holds,
      Opening, FdCompleted;
    InputEffect(input, a, n);
    InputEffect(input, a.Other(), n);
    TwoEffects(s, StateBefore(input, a).ledger, LedgerAfter(input, a), PoolsOf(input).ledger, n, a,
      Touched(input, a, n), Gained(input, a, n), Touched(input, a.Other(), n), Gained(input, a.Other(), n));
  }

  /** No pool that made a record on n completed the failure domain of n. */
  ghost predicate AllRolledBack(input: Input, n: string)
    requires n in input.Place().inv
  {
    forall p :: Touched(input, p, n) ==> !FdCompleted(input, p, n)
  }

  lemma GainsNothing(input: Input, n: string)
    requires n in input.Place().inv && UniqueNames(input.drives) && NonNegativeDrives(input.drives)
    ensures Gained(input, TLC, n) == 0 && Gained(input, QLC, n) == 0 <==> AllRolledBack(input, n)
    ensures Gained(input, TLC, n) >= 0 && Gained(input, QLC, n) >= 0
  {
    InputEffect(input, TLC, n);
    InputEffect(input, QLC, n);
    hide Touched, FdCompleted, Gained, PR.InventoryMap;
    forall p | Touched(input, p, n) && FdCompleted(input, p, n) ensures p == TLC || p == QLC {}
  }

  /**
   * On any site, the container a node's growth would go to gets a record exactly when some pool touches the node. The
   * record changes nothing exactly when each failure domain so touched has a host without room for its share.
   */
  lemma RecordExact(input: Input, c: ExistingContainer)
    requires UniqueNames(input.drives) && NonNegativeDrives(input.drives)
    requires c.node in input.Place().inv && HostOn(input.drives, c.node) == Some(c)
    ensures var l := PoolsOf(input).ledger;
      && (c.name in l.growth <==> Touched(input, TLC, c.node) || Touched(input, QLC, c.node))
      && (GrowthOf(l, c) == c.caps <==> AllRolledBack(input, c.node))
  {
    hide Touched, Gained, PoolsOf, PR.InventoryMap, HostOn, AllRolledBack;
    NodeRecord(input, c.node);
    GainsNothing(input, c.node);
  }

  /** An emitted entry changes nothing exactly when every failure domain that touched its node was rolled back. */
  lemma ZeroChangeExact(input: Input, k: nat)
    requires UniqueNames(input.drives) && NonNegativeDrives(input.drives) && k < |PlanCapacity(input).grow|
    ensures var g := PlanCapacity(input).grow[k];
      exists c :: c in input.drives && c.name == g.name && c.node in input.Place().inv &&
        (Touched(input, TLC, c.node) || Touched(input, QLC, c.node)) &&
        (g.caps == c.caps <==> AllRolledBack(input, c.node))
  {
    hide PlanCapacity, PlanPools, Touched, AllRolledBack, PR.InventoryMap;
    PlanGrow(input, k);
    var s, l, g := input.Place(), PoolsOf(input).ledger, PlanCapacity(input).grow[k];
    PoolsKeepFloor(s, input.desired.raw, input.scheme.MinFdNum(), TargetsOf(input));
    var c :| c in s.existing && c.name == g.name && c.node in s.inv && HostOn(s.existing, c.node) == Some(c);
    RecordExact(input, c);
    assert GrowthOf(l, c) == g.caps;
  }

  // ----- new containers -----

  /**
   * On any site, a node without drives gets a new container exactly when some pool touches it, of exactly what the
   * pools add there; it is empty exactly when every failure domain so touched was rolled back.
   */
  lemma CreatedExact(input: Input, n: string)
    requires UniqueNames(input.drives) && NonNegativeDrives(input.drives)
    requires n in input.Place().inv && HostOn(input.drives, n).None?
    ensures var l := PoolsOf(input).ledger;
      && (n in l.created <==> Touched(input, TLC, n) || Touched(input, QLC, n))
      && (n in l.created ==> l.created[n].caps == Caps(Gained(input, TLC, n), Gained(input, QLC, n)))
      && (n in l.created ==> (l.created[n].caps == NO_CAPS <==> AllRolledBack(input, n)))
  {
    hide Touched, Gained, PoolsOf, PR.InventoryMap, HostOn, AllRolledBack;
    NodeRecord(input, n);
    GainsNothing(input, n);
  }

  /** A listed new container is empty exactly when no failure domain was completed on its node. */
  lemma EmptyCreateExact(input: Input, k: nat)
    requires UniqueNames(input.drives) && NonNegativeDrives(input.drives) && k < |PlanCapacity(input).create|
    ensures var x := PlanCapacity(input).create[k];
      && x.node in input.Place().inv && x.caps == Caps(Gained(input, TLC, x.node), Gained(input, QLC, x.node))
      && (x.caps == NO_CAPS <==> AllRolledBack(input, x.node))
  {
    hide PlanCapacity, PoolsOf, Touched, Gained, AllRolledBack, PR.InventoryMap, HostOn;
    Seating.PlanCreate(input, k);
    Seating.CreatedSeated(input, k);
    CreatedExact(input, PlanCapacity(input).create[k].node);
  }

  // ----- one-node failure domains without a pinned count: nothing is rolled back -----

  ghost predicate Chosen(d: Decision, n: string) { d.Place? && exists g :: g in d.chosen && n in g.nodes }

  lemma ChosenNode(s: Site, d: Decision, nodes: seq<string>, n: string)
    requires d.Place? && Singletons(s, d.chosen, nodes)
    ensures Chosen(d, n) <==> n in nodes
  {
    if n in nodes {
      var i :| 0 <= i < |nodes| && nodes[i] == n;
      assert d.chosen[i] in d.chosen && n in d.chosen[i].nodes;
    }
    if Chosen(d, n) {
      var g :| g in d.chosen && n in g.nodes;
      var i :| 0 <= i < |d.chosen| && d.chosen[i] == g;
      assert g.nodes == [nodes[i]];
    }
  }

  lemma FreshReaches(s: Site, l: Ledger, p: PoolKind, desired: int, minFd: int, fallback: bool, n: string)
    requires Tracks(s, l) && AutoSite(s) && Unplanned(s, l, p)
    requires Chosen(FreshDecision(s, l, p, desired, minFd, fallback), n)
    ensures n in s.inv && CanReach(s, l, p, n, FreshDecision(s, l, p, desired, minFd, fallback).level)
  {
    var gs, d := FreshGroups(s, l, p), FreshDecision(s, l, p, desired, minFd, fallback);
    AutoOneNode(s);
    FreshSingles(s, l, p);
    FreshGroupsAreFresh(s, l, p);
    OneNodeGroups(s, l, p);
    FreshListNoDup(s, l, p, gs);
    FreshOnSite(s, l, p, desired, minFd, fallback);
    SelectUniformLeast(gs, desired, minFd, s.cons.minChunk, PreferNodes(l, p));
    hide FreshGroups, SelectUniform, AutoSite, Unplanned, IsCandidate, CanReach;
    FreshPicks(s, l, p, d.chosen, d.level);
    ChosenNode(s, d, Heads(d.chosen), n);
    var i :| 0 <= i < |Heads(d.chosen)| && Heads(d.chosen)[i] == n;
  }

  lemma SpareReaches(s: Site, l: Ledger, p: PoolKind, k: nat, level: nat, n: string)
    requires Tracks(s, l) && AutoSite(s) && Unplanned(s, l, p)
    requires k <= CountAtLeast(SpareGroups(s, l, p), level) && level >= s.cons.minChunk
    requires exists g :: g in TakeFresh(SpareGroups(s, l, p), k, level) && n in g.nodes
    ensures n in s.inv && CanReach(s, l, p, n, level)
  {
    SparePicks(s, l, p, k, level);
    hide SpareGroups, TakeFresh, AutoSite, Unplanned, CanReach;
    var gs := TakeFresh(SpareGroups(s, l, p), k, level);
    ChosenNode(s, Place(level, gs, ExplicitRoute), Heads(gs), n);
    var i :| 0 <= i < |Heads(gs)| && Heads(gs)[i] == n;
  }

  lemma ExistingReaches(s: Site, l: Ledger, p: PoolKind, level: nat, n: string)
    requires Tracks(s, l) && AutoSite(s) && UI.ExistingReach(Reaches(s, l, p), level).Some?
    requires exists g :: g in ExistingGroups(s, l, p) && n in g.nodes
    ensures n in s.inv && CanReach(s, l, p, n, level)
  {
    AutoIsDrives(s);
    ExistingSingletons(s, l, p);
    AllGrowFigures(s, l, p, level);
    hide ExistingGroups, AutoSite, AutoDrives, Reaches, Bearers, CanReach, UI.ExistingReach;
    ChosenNode(s, Place(level, ExistingGroups(s, l, p), ExplicitRoute), Bearers(s.existing, p), n);
  }

  lemma IncreaseReaches(s: Site, l: Ledger, p: PoolKind, desired: int, minFd: int, n: string)
    requires Tracks(s, l) && AutoSite(s) && Unplanned(s, l, p) && Chosen(IncreaseDecision(s, l, p, desired, minFd), n)
    ensures n in s.inv && CanReach(s, l, p, n, IncreaseDecision(s, l, p, desired, minFd).level)
  {
    var inc, d := IncreaseFor(s, l, p, desired, minFd), IncreaseDecision(s, l, p, desired, minFd);
    UI.DecideFacts(inc);
    hide UI.Decide, SpareGroups, Reaches, ExistingGroups, TakeFresh, AutoSite, Unplanned, CanReach, CountAtLeast,
      UI.ExistingReach, PoolAverage, MinFdCap, MaxFdCap, PoolFds, PoolCurrent;
    var g :| g in d.chosen && n in g.nodes;
    match UI.Decide(inc) {
      case CreateEven(k, size) => SpareReaches(s, l, p, k, size, n);
      case CreateAtT0(k, level, total) => SpareReaches(s, l, p, k, level, n);
      case GrowTo(k, level, total) =>
        if g in ExistingGroups(s, l, p) { ExistingReaches(s, l, p, level, n); }
          else { SpareReaches(s, l, p, k, level, n); }
    }
  }

  /** With no pinned count every chosen node can reach the level, so nothing is rolled back. */
  lemma DecisionReaches(s: Site, l: Ledger, p: PoolKind, desired: int, minFd: int, n: string)
    requires Tracks(s, l) && AutoSite(s) && Unplanned(s, l, p) && Chosen(DecidePool(s, l, p, desired, minFd, 0), n)
    ensures n in s.inv && CanReach(s, l, p, n, DecidePool(s, l, p, desired, minFd, 0).level)
  {
    hide FreshDecision, IncreaseDecision, ExplicitDecision, AutoSite, Unplanned, CanReach, PoolFds, PoolCurrent,
      PoolAverage;
    var d := DecidePool(s, l, p, desired, minFd, 0);
    if d == FreshDecision(s, l, p, desired, minFd, true) { FreshReaches(s, l, p, desired, minFd, true, n); }
    else if d == FreshDecision(s, l, p, desired, minFd, false) { FreshReaches(s, l, p, desired, minFd, false, n); }
    else { IncreaseReaches(s, l, p, desired, minFd, n); }
  }

  lemma SingleComplete(s: Site, l: Ledger, p: PoolKind, level: nat, g: FdGroup, n: string)
    requires Tracks(s, l) && OnSite(s, g) && g.nodes == [n] && n in s.inv && CanReach(s, l, p, n, level)
    ensures Complete(s, l, p, level, g)
  {
    ShareAt(level, g, 0);
    assert Share(level, 1, 0) == level;
    hide HeadroomBinding, HostOn, ShareOf;
  }

  lemma NeverRolled(input: Input, p: PoolKind, n: string)
    requires AutoSite(input.Place()) && input.desired.driveContainers <= 0 && n in input.Place().inv
    requires Touched(input, p, n)
    ensures FdCompleted(input, p, n)
  {
    var s, l, d := input.Place(), StateBefore(input, p).ledger, DecisionFor(input, p);
    AutoOneNode(s);
    UnplannedBefore(input, p);
    assert TargetsOf(input).Of(p) == 0;
    hide AutoSite, DecidePool, StateBefore, Unplanned, CanReach, PR.InventoryMap, Complete, TriedAt;
    var g :| ChosenFd(s, d, g, n);
    DecisionReaches(s, l, p, input.desired.raw.Of(p), input.scheme.MinFdNum(), n);
    var nodes := JointFit.DecisionNodes(s, l, p, input.desired.raw.Of(p), input.scheme.MinFdNum(), 0);
    var i :| 0 <= i < |d.chosen| && d.chosen[i] == g;
    assert g.nodes == [nodes[i]];
    SingleComplete(s, l, p, d.level, g, n);
  }

  /**
   * With one-node failure domains and no pinned count every growth entry raises its container, as the source says.
   * `FdWitness.UnpinnedZeroChange` shows that several hosts per failure domain are enough to break this.
   */
  lemma UnpinnedGrowthIncreases(input: Input, k: nat)
    requires AutoSite(input.Place()) && input.desired.driveContainers <= 0 && k < |PlanCapacity(input).grow|
    ensures var g := PlanCapacity(input).grow[k];
      exists c :: c in input.drives && c.name == g.name && g.caps != c.caps && g.caps.tlc >= c.caps.tlc &&
        g.caps.qlc >= c.caps.qlc
  {
    AutoOneNode(input.Place());
    WellFormedNonNegative(input.Place());
    hide PlanCapacity, PlanPools, AutoSite, PR.InventoryMap, HostOn;
    PlanGrow(input, k);
    var s, l, g := input.Place(), PoolsOf(input).ledger, PlanCapacity(input).grow[k];
    PoolsKeepFloor(s, input.desired.raw, input.scheme.MinFdNum(), TargetsOf(input));
    var c :| c in s.existing && c.name == g.name && c.node in s.inv && HostOn(s.existing, c.node) == Some(c);
    RecordExact(input, c);
    assert GrowthOf(l, c) == g.caps && FinalCap(l, c, TLC) >= c.caps.tlc && FinalCap(l, c, QLC) >= c.caps.qlc;
    hide Touched, FdCompleted, GrowthOf;
    forall p | Touched(input, p, c.node) ensures FdCompleted(input, p, c.node) { NeverRolled(input, p, c.node); }
  }
}
