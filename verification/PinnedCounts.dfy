/** One-node failure domains under a pinned container count: how many failure domains carry each pool in the end. */
module PinnedCounts {
  import opened Arith
  import opened Model
  import opened NodeBudget
  import opened Ledgers
  import opened Placement
  import opened FdRecords
  import opened Ordering
  import opened FreshFds
  import opened Deadband
  import opened PoolDecision
  import opened PoolPlanner
  import opened Planner
  import opened PlanTheorems
  import opened EmissionFacts
  import opened AdvisoryTheorems
  import opened AutoMode
  import opened AutoFigures
  import opened AutoTheorems
  import opened GrowRecords
  import opened PinnedRecords
  import DriveCoreCounts
  import FdSpread
  import Seating
  import PR = PlanRuns

  // ----- the nodes a pin takes afresh -----

  /** How many failure domains the pin adds, and the candidates taken for them. */
  ghost function Extra(s: Site, p: PoolKind, desired: int, targetFds: int): nat
    requires PinPlaces(s, p, desired, targetFds)
  {
    ExactNewFds(s.existing, p, targetFds, desired - PoolCurrent(s.existing, p), s.cons).value
  }

  ghost function Taken(s: Site, l: Ledger, p: PoolKind, desired: int, targetFds: int): seq<FdGroup>
    requires Tracks(s, l) && PinPlaces(s, p, desired, targetFds)
  {
    TakeFresh(FreshGroups(s, l, p), Extra(s, p, desired, targetFds), CeilDiv(desired, targetFds))
  }

  lemma ExtraIs(s: Site, p: PoolKind, desired: int, targetFds: int)
    requires PinPlaces(s, p, desired, targetFds) && targetFds > 0
    ensures Extra(s, p, desired, targetFds) == targetFds - |PoolFds(s.existing, p)| && CeilDiv(desired, targetFds) > 0
  {
    hide PoolFds, PoolCurrent, FrozenGap;
    CeilDivAdjoint(desired, targetFds, 0);
  }

  lemma TakenFacts(s: Site, l: Ledger, p: PoolKind, desired: int, targetFds: int)
    requires Tracks(s, l) && AutoSite(s) && targetFds > 0 && PinPlaces(s, p, desired, targetFds)
    ensures var gs, level := Taken(s, l, p, desired, targetFds), CeilDiv(desired, targetFds);
      && |gs| == Min(Extra(s, p, desired, targetFds), CountAtLeast(FreshGroups(s, l, p), level))
      && Singletons(s, gs, TakenNodes(s, l, p, desired, targetFds))
      && forall n :: n in TakenNodes(s, l, p, desired, targetFds) ==>
        n in s.inv && NodeCur(s, n, p) == 0 && level <= Headroom(s.inv[n], l.budgets[n], p, s.cons, true)
  {
    var gs, level, extra := Taken(s, l, p, desired, targetFds), CeilDiv(desired, targetFds),
      Extra(s, p, desired, targetFds);
    AutoOneNode(s);
    FreshGroupsAreFresh(s, l, p);
    FreshSingles(s, l, p);
    TakeFreshList(s, l, p, FreshGroups(s, l, p), extra, level);
    hide TakeFresh, FreshGroups, IsCandidate, HeadroomBinding, AutoSite, PinPlaces, ExactNewFds, NodeCur, FreshList,
      Singletons, CountAtLeast;
    forall i | 0 <= i < |gs|
      ensures gs[i].headroom >= level && SingleCandidate(s, l, p, gs[i])
    {
      assert gs[i] in gs;
    }
    SinglesOf(s, l, p, gs, level, TakenNodes(s, l, p, desired, targetFds));
  }

  lemma SinglesOf(s: Site, l: Ledger, p: PoolKind, gs: seq<FdGroup>, level: int, ns: seq<string>)
    requires Tracks(s, l) && WellFormed(s) && FreshList(s, l, p, gs) && |gs| == |ns|
    requires forall i :: 0 <= i < |gs| ==>
      gs[i].headroom >= level && SingleCandidate(s, l, p, gs[i]) && gs[i].nodes[0] == ns[i]
    ensures Singletons(s, gs, ns)
    ensures forall n :: n in ns ==>
      n in s.inv && NodeCur(s, n, p) == 0 && level <= Headroom(s.inv[n], l.budgets[n], p, s.cons, true)
  {
    hide IsCandidate, HeadroomBinding, NodeCur;
    forall i | 0 <= i < |gs|
      ensures gs[i].nodes == [ns[i]] && ns[i] in s.inv && NodeCur(s, ns[i], p) == 0
      ensures level <= Headroom(s.inv[ns[i]], l.budgets[ns[i]], p, s.cons, true)
    {
      assert ns[i] in gs[i].nodes;
      CandidateOnSite(s, l, p, ns[i]);
      CandidateLacks(s, l, p, ns[i]);
    }
    forall i, j | 0 <= i < j < |gs| ensures ns[i] != ns[j] { assert ns[i] in gs[i].nodes && ns[j] in gs[j].nodes; }
  }

  ghost function TakenNodes(s: Site, l: Ledger, p: PoolKind, desired: int, targetFds: int): seq<string>
    requires Tracks(s, l) && PinPlaces(s, p, desired, targetFds)
  {
    var gs := Taken(s, l, p, desired, targetFds);
    seq(|gs|, i requires 0 <= i < |gs| => if gs[i].nodes == [] then "" else gs[i].nodes[0])
  }

  lemma CandidateLacks(s: Site, l: Ledger, p: PoolKind, n: string)
    requires Tracks(s, l) && WellFormed(s) && IsCandidate(s, l, p, n)
    ensures NodeCur(s, n, p) == 0
  {
    hide HeadroomBinding, HostOn;
    forall c | c in s.existing && c.node == n ensures c.caps.Of(p) == 0 { Barred(s, l, p, c); }
  }

  lemma Barred(s: Site, l: Ledger, p: PoolKind, c: ExistingContainer)
    requires Tracks(s, l) && WellFormed(s) && c in s.existing && IsCandidate(s, l, p, c.node)
    ensures c.caps.Of(p) == 0
  {
    assert WellFormedDrive(s, c);
    assert c.caps.Of(p) > 0 ==> c.node in PoolNodeUsed(s.existing, p);
    assert c.caps.Of(p) > 0 ==> c.node in AllDriveNodes(s.existing);
    hide HeadroomBinding;
  }

  // ----- what a node without the pool gains -----

  /** A taken node starts the pool unless the level is below a chunk and the node has no container yet. */
  predicate Starts(s: Site, n: string, level: int) { HostOn(s.existing, n).Some? || level >= s.cons.minChunk }

  lemma FreshTried(s: Site, l: Ledger, p: PoolKind, level: nat, g: FdGroup, n: string)
    requires Tracks(s, l) && Unplanned(s, l, p) && OnSite(s, g) && g.nodes == [n] && n in s.inv && level > 0
    requires NodeCur(s, n, p) == 0 && level <= Headroom(s.inv[n], l.budgets[n], p, s.cons, true)
    requires s.cons.memoryBase >= 0
    ensures TriedAt(s, l, p, level, g, n) == KeptAt(s, l, p, level, g, n) == if Starts(s, n, level) then level else 0
  {
    ShareAt(level, g, 0);
    assert Share(level, 1, 0) == level;
    HeadroomWithoutBase(s.inv[n], l.budgets[n], p, s.cons);
    assert CreatedCap(l, n, p) == 0;
    hide HeadroomBinding, HostOn, ShareOf, Unplanned;
    assert forall m :: m in g.nodes ==> m == n;
  }

  /** What pool p does at a node that does not carry it. */
  lemma TakenGain(s: Site, l: Ledger, p: PoolKind, desired: int, minFd: int, targetFds: int, n: string)
    requires Tracks(s, l) && AutoSite(s) && Unplanned(s, l, p) && targetFds > 0 && PinPlaces(s, p, desired, targetFds)
    requires n in s.inv && NodeCur(s, n, p) == 0
    ensures var d := DecidePool(s, l, p, desired, minFd, targetFds);
      var level := CeilDiv(desired, targetFds);
      var starts := n in TakenNodes(s, l, p, desired, targetFds) && Starts(s, n, level);
      && PoolGain(s, l, p, d, n) == (if starts then level else 0) && (Touches(s, l, p, d, n) <==> starts) && level > 0
  {
    var d, level := DecidePool(s, l, p, desired, minFd, targetFds), CeilDiv(desired, targetFds);
    assert s.cons.memoryBase >= 0;
    ExtraIs(s, p, desired, targetFds);
    TakenFacts(s, l, p, desired, targetFds);
    PinDecision(s, l, p, desired, minFd, targetFds);
    ExplicitChosen(s, l, p, desired, targetFds);
    NotExisting(s, l, p, n);
    hide DecidePool, AutoSite, PinPlaces, ExplicitDecision, ExistingGroups, TakeFresh, FreshGroups, ExactNewFds,
      PoolCurrent, HeadroomBinding, Unplanned, NodeCur, PoolGain, Touches, Completes, PoolFds, CountAtLeast;
    var gs, ns := Taken(s, l, p, desired, targetFds), TakenNodes(s, l, p, desired, targetFds);
    assert d.chosen == ExistingGroups(s, l, p) + gs;
    if n in ns {
      var i :| 0 <= i < |ns| && ns[i] == n;
      assert gs[i] in gs && gs[i].nodes == [n];
      ChosenAt(s, l, p, desired, minFd, targetFds, gs[i], n);
      FreshTried(s, l, p, level, gs[i], n);
    } else {
      forall g | g in gs ensures n !in g.nodes {
        var i :| 0 <= i < |gs| && gs[i] == g;
        assert ns[i] in ns;
      }
      assert !Chosen(d, n);
      NotTouched(s, l, p, d, n);
    }
  }

  lemma NotExisting(s: Site, l: Ledger, p: PoolKind, n: string)
    requires Tracks(s, l) && AutoSite(s) && NodeCur(s, n, p) == 0
    ensures forall g :: g in ExistingGroups(s, l, p) ==> n !in g.nodes
  {
    AutoIsDrives(s);
    BearersFacts(s, s.existing, p);
    ExistingSingletons(s, l, p);
    var gs, ns := ExistingGroups(s, l, p), Bearers(s.existing, p);
    hide ExistingGroups, Bearers, AutoDrives;
    forall g | g in gs ensures n !in g.nodes {
      var i :| 0 <= i < |gs| && gs[i] == g;
      assert ns[i] in ns;
      if n == ns[i] { BearerHolds(s, p, n); }
    }
  }

  lemma BearerHolds(s: Site, p: PoolKind, n: string)
    requires AutoSite(s) && exists c :: c in s.existing && c.caps.Of(p) > 0 && c.node == n
    ensures NodeCur(s, n, p) > 0
  {
    var c :| c in s.existing && c.caps.Of(p) > 0 && c.node == n;
    assert WellFormedDrive(s, c);
    HostIs(s.existing, c);
  }

  lemma ChosenAt(s: Site, l: Ledger, p: PoolKind, desired: int, minFd: int, targetFds: int, g: FdGroup, n: string)
    requires Tracks(s, l) && n in s.inv && DecidePool(s, l, p, desired, minFd, targetFds).Place?
    requires g in DecidePool(s, l, p, desired, minFd, targetFds).chosen && n in g.nodes
    ensures var d := DecidePool(s, l, p, desired, minFd, targetFds);
      && OnSite(s, g) && (Touches(s, l, p, d, n) <==> TriedAt(s, l, p, d.level, g, n) > 0)
      && PoolGain(s, l, p, d, n) == KeptAt(s, l, p, d.level, g, n)
  {
    var d := DecidePool(s, l, p, desired, minFd, targetFds);
    ChosenOnSite(s, l, p, desired, minFd, targetFds);
    DecisionDisjoint(s, l, p, desired, minFd, targetFds);
    hide DecidePool, TriedAt, KeptAt, Touches, PoolGain, NodesDisjoint, OnSite;
    var i :| 0 <= i < |d.chosen| && d.chosen[i] == g;
    assert ChosenFd(s, d, g, n);
    ChosenIs(s, l, p, d, g, n);
  }

  // ----- the failure domains that carry the pool in the end -----

  /** A node carries the pool in the end exactly when its container does now or the plan adds to it. */
  lemma CarriesIff(input: Input, p: PoolKind, n: string)
    requires AutoSite(input.Place()) && "" !in input.Place().inv
    ensures var s := input.Place();
      n in CarryingFds(s, PoolsOf(input).ledger, p) <==> n in s.inv && (NodeCur(s, n, p) > 0 || Gained(input, p, n) > 0)
  {
    var s, l := input.Place(), PoolsOf(input).ledger;
    AutoOneNode(s);
    WellFormedNonNegative(s);
    SeatedPools(input);
    hide PoolsOf, PR.InventoryMap, Gained, Touched;
    if n in s.inv {
      GainsNonNegative(input, n);
      NodeRecord(input, n);
      CarriesAt(s, l, p, n, Gained(input, TLC, n), Gained(input, QLC, n),
        Touched(input, TLC, n) || Touched(input, QLC, n));
    } else {
      NotOnSite(s, l, p, n);
    }
  }

  lemma SeatedPools(input: Input)
    ensures Seating.Seated(input.Place(), PoolsOf(input).ledger)
  {
    hide PlanPools, PR.InventoryMap, Seating.Seated;
    Seating.PoolsSeated(input.Place(), input.desired.raw, input.scheme.MinFdNum(), TargetsOf(input));
  }

  lemma GainsNonNegative(input: Input, n: string)
    requires n in input.Place().inv && UniqueNames(input.drives) && NonNegativeDrives(input.drives)
    ensures Gained(input, TLC, n) >= 0 && Gained(input, QLC, n) >= 0
  {
    hide Gained, Touched, FdCompleted, PR.InventoryMap, LedgerAfter, StateBefore, Effect;
    InputEffect(input, TLC, n);
    InputEffect(input, QLC, n);
  }

  lemma CarriesAt(s: Site, l: Ledger, p: PoolKind, n: string, tlc: int, qlc: int, touched: bool)
    requires AutoSite(s) && Seating.Seated(s, l) && n in s.inv && n != "" && Holds(s, l, n, touched, tlc, qlc)
    requires tlc >= 0 && qlc >= 0
    ensures n in CarryingFds(s, l, p) <==> NodeCur(s, n, p) > 0 || (if p == TLC then tlc else qlc) > 0
  {
    forall c | c in s.existing && c.fdValue == n ensures HostOn(s.existing, n) == Some(c) && c.fdValue != "" {
      assert WellFormedDrive(s, c) && c.node == n;
      HostIs(s.existing, c);
    }
    match HostOn(s.existing, n) {
      case Some(c) =>
        assert c.fdValue == n && c.caps.Of(p) >= 0 by { assert WellFormedDrive(s, c); }
        hide HostOn, AutoSite;
        assert n !in l.created;
      case None =>
        hide HostOn;
        assert s.inv[n].fdValue == n;
        hide AutoSite;
    }
  }

  lemma NotOnSite(s: Site, l: Ledger, p: PoolKind, n: string)
    requires AutoSite(s) && Seating.Seated(s, l) && n !in s.inv
    ensures n !in CarryingFds(s, l, p)
  {
    forall c | c in s.existing ensures c.fdValue != n { assert WellFormedDrive(s, c); }
    hide HostOn;
  }

  // ----- counting -----

  /** The nodes that carry the pool now. */
  ghost function HeldOn(s: Site, p: PoolKind): set<string> { set n | n in s.inv && NodeCur(s, n, p) > 0 }

  /** The taken nodes that start the pool. */
  ghost function StartedOn(s: Site, l: Ledger, p: PoolKind, desired: int, targetFds: int): set<string>
    requires Tracks(s, l) && PinPlaces(s, p, desired, targetFds)
  {
    set n | n in TakenNodes(s, l, p, desired, targetFds) && Starts(s, n, CeilDiv(desired, targetFds))
  }

  lemma HeldCount(s: Site, p: PoolKind)
    requires AutoSite(s)
    ensures |HeldOn(s, p)| == |PoolFds(s.existing, p)|
  {
    AutoIsDrives(s);
    BearersFacts(s, s.existing, p);
    FdListsAre(s, s.existing, p);
    var ns := Bearers(s.existing, p);
    hide Bearers, AutoDrives, PoolFds, HostOn;
    forall n ensures n in ns <==> n in HeldOn(s, p) {
      if n in ns {
        var c :| c in s.existing && c.caps.Of(p) > 0 && c.node == n;
        assert WellFormedDrive(s, c);
        BearerHolds(s, p, n);
      }
    }
    assert Elems(ns) == HeldOn(s, p);
    DistinctCount(ns);
  }

  /** The pin holds: there are candidates enough for the level, and each of those taken starts the pool. */
  ghost predicate Enough(s: Site, l: Ledger, p: PoolKind, desired: int, targetFds: int)
    requires Tracks(s, l) && PinPlaces(s, p, desired, targetFds)
  {
    && CountAtLeast(FreshGroups(s, l, p), CeilDiv(desired, targetFds)) >= Extra(s, p, desired, targetFds)
    && forall n :: n in TakenNodes(s, l, p, desired, targetFds) ==> Starts(s, n, CeilDiv(desired, targetFds))
  }

  lemma CountPart(ns: seq<string>, part: set<string>)
    requires Distinct(ns) && part <= Elems(ns)
    ensures |part| <= |ns| && (|part| == |ns| <==> part == Elems(ns))
  {
    DistinctCount(ns);
    FdSpread.SubsetSize(part, Elems(ns));
    if |part| == |ns| { SameElems(part, Elems(ns)); }
  }

  lemma TakenCount(s: Site, l: Ledger, p: PoolKind, desired: int, targetFds: int)
    requires Tracks(s, l) && AutoSite(s) && targetFds > 0 && PinPlaces(s, p, desired, targetFds)
    ensures var ns := TakenNodes(s, l, p, desired, targetFds);
      && Distinct(ns)
      && |ns| == Min(Extra(s, p, desired, targetFds),
        CountAtLeast(FreshGroups(s, l, p), CeilDiv(desired, targetFds)))
  {
    hide AutoSite, PinPlaces, FreshGroups, NodeCur, HeadroomBinding, CountAtLeast, Taken, Extra;
    TakenFacts(s, l, p, desired, targetFds);
  }

  lemma StartedCount(s: Site, l: Ledger, p: PoolKind, desired: int, targetFds: int)
    requires Tracks(s, l) && AutoSite(s) && targetFds > 0 && PinPlaces(s, p, desired, targetFds)
    ensures var n, extra := |StartedOn(s, l, p, desired, targetFds)|, Extra(s, p, desired, targetFds);
      n <= extra && (n == extra <==> Enough(s, l, p, desired, targetFds))
  {
    hide AutoSite, PinPlaces, FreshGroups, Starts, CountAtLeast, TakenNodes, Extra;
    TakenCount(s, l, p, desired, targetFds);
    CountPart(TakenNodes(s, l, p, desired, targetFds), StartedOn(s, l, p, desired, targetFds));
    AllStarted(s, TakenNodes(s, l, p, desired, targetFds), CeilDiv(desired, targetFds));
  }

  lemma AllStarted(s: Site, ns: seq<string>, level: int)
    ensures (set n | n in ns && Starts(s, n, level)) == Elems(ns) <==> forall n :: n in ns ==> Starts(s, n, level)
  {
    hide Starts;
    if (set n | n in ns && Starts(s, n, level)) == Elems(ns) {
      forall n | n in ns ensures Starts(s, n, level) { assert n in Elems(ns); }
    }
  }

  lemma SameElems(a: set<string>, b: set<string>)
    requires a <= b && |a| == |b|
    ensures a == b
  {
    assert b == a + (b - a) && |b| == |a| + |b - a|;
  }

  /** The failure domains that carry a pinned pool in the end: those of today and those that start it. */
  lemma CarryingIs(input: Input, p: PoolKind)
    requires AutoSite(input.Place()) && "" !in input.Place().inv && TargetsOf(input).Of(p) > 0
    requires PinPlaces(input.Place(), p, input.desired.raw.Of(p), TargetsOf(input).Of(p))
    ensures var s, l := input.Place(), StateBefore(input, p).ledger;
      var started := StartedOn(s, l, p, input.desired.raw.Of(p), TargetsOf(input).Of(p));
      CarryingFds(s, PoolsOf(input).ledger, p) == HeldOn(s, p) + started && HeldOn(s, p) !! started
  {
    var s, l, desired, fds :=
      input.Place(), StateBefore(input, p).ledger, input.desired.raw.Of(p), TargetsOf(input).Of(p);
    AutoOneNode(s);
    UnplannedBefore(input, p);
    TakenFacts(s, l, p, desired, fds);
    hide AutoSite, StateBefore, PoolsOf, PR.InventoryMap, PinPlaces, NodeCur, CarryingFds, Unplanned, DecidePool,
      TakenNodes, Starts, PoolGain, Touches, HeadroomBinding, Taken, Extra, CountAtLeast, FreshGroups, TargetsOf;
    var started := StartedOn(s, l, p, desired, fds);
    forall n ensures n in CarryingFds(s, PoolsOf(input).ledger, p) <==> n in HeldOn(s, p) || n in started {
      CarriesIff(input, p, n);
      if n in s.inv && NodeCur(s, n, p) <= 0 {
        CurNonNegative(s, p, n);
        TakenGain(s, l, p, desired, input.scheme.MinFdNum(), fds, n);
      }
    }
  }

  lemma CurNonNegative(s: Site, p: PoolKind, n: string)
    requires AutoSite(s)
    ensures NodeCur(s, n, p) >= 0
  {
    hide HostOn;
    if HostOn(s.existing, n).Some? { assert WellFormedDrive(s, HostOn(s.existing, n).value); }
  }

  /**
   * With one-node failure domains a pinned pool is never carried by more failure domains than its target, and by
   * exactly that many if and only if there are candidates enough for the level and each one taken starts the pool.
   */
  lemma PinnedCarriers(input: Input, p: PoolKind)
    requires AutoSite(input.Place()) && "" !in input.Place().inv && TargetsOf(input).Of(p) > 0
    requires PinPlaces(input.Place(), p, input.desired.raw.Of(p), TargetsOf(input).Of(p))
    ensures var s, l, desired, fds :=
        input.Place(), StateBefore(input, p).ledger, input.desired.raw.Of(p), TargetsOf(input).Of(p);
      var n := |CarryingFds(s, PoolsOf(input).ledger, p)|;
      n <= fds && (n == fds <==> Enough(s, l, p, desired, fds))
  {
    var s, l, desired, fds :=
      input.Place(), StateBefore(input, p).ledger, input.desired.raw.Of(p), TargetsOf(input).Of(p);
    hide AutoSite, StateBefore, PoolsOf, PR.InventoryMap, PinPlaces, CarryingFds, Enough, StartedOn, HeldOn, Extra,
      PoolFds, TargetsOf;
    CarryingIs(input, p);
    HeldCount(s, p);
    StartedCount(s, l, p, desired, fds);
    ExtraIs(s, p, desired, fds);
  }

  // ----- what the final count check enforces -----

  /** The pool is asked for and short. */
  predicate Short(input: Input, p: PoolKind) {
    input.desired.raw.Of(p) > 0 && CapacityShort(PoolCurrent(input.drives, p), input.desired.raw.Of(p), input.cons)
  }

  /** The pool is neither asked for nor held. */
  ghost predicate Absent(input: Input, p: PoolKind) {
    input.desired.raw.Of(p) <= 0 && forall c :: c in input.drives ==> c.caps.Of(p) <= 0
  }

  lemma FeasibleChecks(input: Input)
    requires PlanCapacity(input).Feasible() && input.desired.driveContainers > 0
    ensures Targets(input.desired, input.scheme.MinFdNum()) == Some(TargetsOf(input)) && input.scheme.MinFdNum() >= 1
    ensures |DistinctDriveFds(input.Place(), PoolsOf(input).ledger)| == input.desired.driveContainers
    ensures PoolsOf(input).notes.infeasible.None?
  {
    hide PlanPools, Emit, ComputeOf, DriveCoreCounts.RequiredComputeCores, DistinctDriveFds, SplitDriveContainers,
      DriveCoreCounts.ExistingTlcCores, DriveCoreCounts.ExistingQlcCores, DriveCoreCounts.NewTlcCores,
      DriveCoreCounts.NewQlcCores, PR.InventoryMap;
  }

  /** The failure domains of the containers. */
  function FdsOf(drives: seq<ExistingContainer>): set<string> { set c | c in drives && c.fdValue != "" :: c.fdValue }

  lemma AppliedFds(s: Site, l: Ledger, driveCores: int, plan: CapacityPlan, naming: string -> string)
    requires Tracks(s, l) && Emitted(s, l, driveCores, plan.grow, plan.create)
    ensures FdsOf(Applied(s.existing, plan, naming)) == DistinctDriveFds(s, l)
  {
    var after := Applied(s.existing, plan, naming);
    hide Emitted, GrownAll, LaunchedAll, DriveCoreCounts.PinCores, GrownContainer;
    CreateListed(s, l, driveCores, plan.grow, plan.create);
    var nodes := Recorded(l.created.Keys);
    forall x | x in after ensures x.fdValue != "" ==> x.fdValue in DistinctDriveFds(s, l) {
      GrownMember(s.existing, plan.grow, x);
      LaunchedMember(plan.create, naming, x);
      if c :| c in s.existing && GrownContainer(c, plan.grow) == x {
        GrownIs(s, l, driveCores, plan.grow, plan.create, c);
      } else {
        var n :| n in plan.create && Launched(n, naming) == x;
        var i :| 0 <= i < |plan.create| && plan.create[i] == n;
        assert nodes[i] in nodes;
      }
    }
    forall c | c in s.existing && c.fdValue != "" ensures c.fdValue in FdsOf(after) {
      GrownIs(s, l, driveCores, plan.grow, plan.create, c);
      GrownMember(s.existing, plan.grow, GrownContainer(c, plan.grow));
      assert GrownContainer(c, plan.grow) in after;
    }
    forall n | n in l.created && l.created[n].fd != "" ensures l.created[n].fd in FdsOf(after) {
      assert n in nodes;
      var i :| 0 <= i < |nodes| && nodes[i] == n;
      LaunchedMember(plan.create, naming, Launched(plan.create[i], naming));
      assert plan.create[i] in plan.create && Launched(plan.create[i], naming) in after;
    }
  }

  /** On any site, once a feasible plan with a pinned count is applied there are exactly that many failure domains. */
  lemma PinnedTotal(input: Input, naming: string -> string)
    requires PlanCapacity(input).Feasible() && input.desired.driveContainers > 0
    ensures |FdsOf(Applied(input.drives, PlanCapacity(input), naming))| == input.desired.driveContainers
  {
    FeasibleShape(input);
    FeasibleChecks(input);
    hide PlanCapacity, PoolsOf, Emitted, Applied, FdsOf, DistinctDriveFds, PR.InventoryMap;
    AppliedFds(input.Place(), PoolsOf(input).ledger, input.desired.driveCores, PlanCapacity(input), naming);
  }

  lemma TargetsAddUp(input: Input, p: PoolKind)
    requires input.desired.driveContainers > 0 && input.scheme.MinFdNum() >= 1
    requires Targets(input.desired, input.scheme.MinFdNum()) == Some(TargetsOf(input))
    ensures input.desired.raw.Of(p) > 0 ==> TargetsOf(input).Of(p) > 0
    ensures input.desired.raw.Of(p) <= 0 ==> TargetsOf(input).Of(p) == 0
    ensures input.desired.raw.Of(p) > 0 ==>
      TargetsOf(input).tlc + TargetsOf(input).qlc == input.desired.driveContainers
  {
    hide RoundDiv;
  }

  /** A short pool of a feasible plan with a pinned count is placed by the pin. */
  lemma PinIsPlaced(input: Input, p: PoolKind)
    requires PlanCapacity(input).Feasible() && input.desired.driveContainers > 0 && Short(input, p)
    ensures TargetsOf(input).Of(p) > 0
    ensures PinPlaces(input.Place(), p, input.desired.raw.Of(p), TargetsOf(input).Of(p))
  {
    var s, l, desired, fds :=
      input.Place(), StateBefore(input, p).ledger, input.desired.raw.Of(p), TargetsOf(input).Of(p);
    FeasibleChecks(input);
    TargetsAddUp(input, p);
    hide PlanCapacity, TargetsOf, StateBefore, PR.InventoryMap, PinPlaces, DecidePool, CapacityShort, PoolCurrent,
      DistinctDriveFds, Targets;
    DecisionWhenShort(s, l, p, desired, input.scheme.MinFdNum(), fds);
    PinDecision(s, l, p, desired, input.scheme.MinFdNum(), fds);
    NotRejected(input, p);
  }

  lemma NotRejected(input: Input, p: PoolKind)
    requires PoolsOf(input).notes.infeasible.None?
    ensures !DecisionFor(input, p).Reject?
  {
    var s, raw, minFd, t := input.Place(), input.desired.raw, input.scheme.MinFdNum(), TargetsOf(input);
    var a := FirstPool(s, raw);
    hide DecidePool, Realized, FirstPool, PR.InventoryMap, TargetsOf;
    var st := PlanPool(s, PoolState(Opening(s.inv), NO_NOTES), a, raw.Of(a), minFd, t.Of(a));
    StaysInfeasible(s, st, a.Other(), raw.Of(a.Other()), minFd, t.Of(a.Other()));
  }

  lemma StaysInfeasible(s: Site, st: PoolState, p: PoolKind, desired: int, minFd: int, targetFds: int)
    requires Tracks(s, st.ledger)
    ensures var st' := PlanPool(s, st, p, desired, minFd, targetFds);
      && (st.notes.infeasible.Some? ==> st'.notes.infeasible.Some?)
      && (DecidePool(s, st.ledger, p, desired, minFd, targetFds).Reject? ==> st'.notes.infeasible.Some?)
  {
    hide DecidePool, PlaceUniform, Feasibility;
  }

  /** A pool that is neither short nor asked for touches nothing. */
  lemma AbsentUntouched(input: Input, p: PoolKind, n: string)
    requires n in input.Place().inv && Absent(input, p)
    ensures !Touched(input, p, n)
  {
    hide FreshDecision, ExplicitDecision, IncreaseDecision, StateBefore, PR.InventoryMap;
    assert DecisionFor(input, p) == Keep;
  }

  /** Every failure domain with drives carries one of the pools. */
  lemma DistinctWithin(input: Input)
    requires AutoSite(input.Place()) && "" !in input.Place().inv && PlanCapacity(input).Feasible()
    requires input.desired.driveContainers > 0 && forall p :: Short(input, p) || Absent(input, p)
    ensures var s, l := input.Place(), PoolsOf(input).ledger;
      DistinctDriveFds(s, l) <= CarryingFds(s, l, TLC) + CarryingFds(s, l, QLC)
  {
    var s, l := input.Place(), PoolsOf(input).ledger;
    SeatedPools(input);
    hide PlanCapacity, PoolsOf, PR.InventoryMap, CarryingFds, Short, Absent, Seating.Seat;
    forall fd | fd in DistinctDriveFds(s, l) ensures fd in CarryingFds(s, l, TLC) || fd in CarryingFds(s, l, QLC) {
      if c :| c in s.existing && c.fdValue == fd {
        HeldCarries(input, c);
      } else {
        var n :| n in l.created && l.created[n].fd == fd;
        CreatedCarries(input, n);
      }
    }
  }

  lemma HeldCarries(input: Input, c: ExistingContainer)
    requires AutoSite(input.Place()) && "" !in input.Place().inv && c in input.drives
    ensures var s, l := input.Place(), PoolsOf(input).ledger;
      c.fdValue in CarryingFds(s, l, TLC) || c.fdValue in CarryingFds(s, l, QLC)
  {
    var s := input.Place();
    assert WellFormedDrive(s, c);
    HostIs(s.existing, c);
    hide PoolsOf, PR.InventoryMap, CarryingFds, HostOn, Gained;
    CarriesIff(input, TLC, c.node);
    CarriesIff(input, QLC, c.node);
  }

  lemma CreatedCarries(input: Input, n: string)
    requires AutoSite(input.Place()) && "" !in input.Place().inv && PlanCapacity(input).Feasible()
    requires input.desired.driveContainers > 0 && forall p :: Short(input, p) || Absent(input, p)
    requires n in PoolsOf(input).ledger.created
    ensures var s, l := input.Place(), PoolsOf(input).ledger;
      l.created[n].fd == n && (n in CarryingFds(s, l, TLC) || n in CarryingFds(s, l, QLC))
  {
    var s := input.Place();
    AutoOneNode(s);
    WellFormedNonNegative(s);
    SeatedPools(input);
    assert s.inv[n].fdValue == n;
    hide PlanCapacity, PoolsOf, PR.InventoryMap, CarryingFds, HostOn, Gained, Touched, AutoSite, Short, Absent;
    NodeRecord(input, n);
    var p :| Touched(input, p, n);
    if Absent(input, p) { AbsentUntouched(input, p, n); }
    TouchedGains(input, p, n);
    CarriesIff(input, p, n);
  }

  lemma TouchedGains(input: Input, p: PoolKind, n: string)
    requires AutoSite(input.Place()) && "" !in input.Place().inv && PlanCapacity(input).Feasible()
    requires input.desired.driveContainers > 0 && Short(input, p)
    requires n in input.Place().inv && HostOn(input.drives, n).None? && Touched(input, p, n)
    ensures Gained(input, p, n) > 0
  {
    var s, l, desired, fds :=
      input.Place(), StateBefore(input, p).ledger, input.desired.raw.Of(p), TargetsOf(input).Of(p);
    AutoOneNode(s);
    UnplannedBefore(input, p);
    assert NodeCur(s, n, p) == 0;
    hide AutoSite, StateBefore, PlanCapacity, PR.InventoryMap, PinPlaces, NodeCur, Unplanned, DecidePool, TakenNodes,
      Starts, PoolGain, Touches, TargetsOf, HostOn;
    PinIsPlaced(input, p);
    TakenGain(s, l, p, desired, input.scheme.MinFdNum(), fds, n);
  }

  lemma AbsentCarries(input: Input, p: PoolKind)
    requires AutoSite(input.Place()) && "" !in input.Place().inv && Absent(input, p)
    ensures CarryingFds(input.Place(), PoolsOf(input).ledger, p) == {}
  {
    var s := input.Place();
    hide PoolsOf, PR.InventoryMap, CarryingFds, AutoSite, Touched;
    forall n ensures n !in CarryingFds(s, PoolsOf(input).ledger, p) {
      CarriesIff(input, p, n);
      if n in s.inv { AbsentGains(input, p, n); }
    }
  }

  lemma AbsentGains(input: Input, p: PoolKind, n: string)
    requires AutoSite(input.Place()) && n in input.Place().inv && Absent(input, p)
    ensures Gained(input, p, n) == 0 && NodeCur(input.Place(), n, p) <= 0
  {
    AutoOneNode(input.Place());
    WellFormedNonNegative(input.Place());
    hide PR.InventoryMap, Touched, Gained, FdCompleted, Effect, LedgerAfter, StateBefore, HostOn;
    AbsentUntouched(input, p, n);
    InputEffect(input, p, n);
  }

  /**
   * With one-node failure domains and a pinned count, if each pool is short or absent, a feasible plan leaves every
   * short pool carried by exactly its target of failure domains.
   */
  lemma PinnedExact(input: Input, p: PoolKind)
    requires AutoSite(input.Place()) && "" !in input.Place().inv && PlanCapacity(input).Feasible()
    requires input.desired.driveContainers > 0 && (forall q :: Short(input, q) || Absent(input, q)) && Short(input, p)
    ensures |CarryingFds(input.Place(), PoolsOf(input).ledger, p)| == TargetsOf(input).Of(p)
  {
    var s, l, q := input.Place(), PoolsOf(input).ledger, p.Other();
    hide PlanCapacity, PoolsOf, PR.InventoryMap, CarryingFds, AutoSite, TargetsOf, DistinctDriveFds, PinPlaces, Enough,
      CapacityShort, PoolCurrent;
    FeasibleChecks(input);
    TargetsAddUp(input, p);
    TargetsAddUp(input, q);
    PinIsPlaced(input, p);
    PinnedCarriers(input, p);
    if Short(input, q) {
      PinIsPlaced(input, q);
      PinnedCarriers(input, q);
    } else {
      AbsentCarries(input, q);
    }
    DistinctWithin(input);
    UnionSize(CarryingFds(s, l, TLC), CarryingFds(s, l, QLC), DistinctDriveFds(s, l));
  }

  lemma UnionSize(a: set<string>, b: set<string>, part: set<string>)
    requires part <= a + b
    ensures |part| <= |a| + |b|
  {
    FdSpread.SubsetSize(part, a + b);
    assert |a + b| + |a * b| == |a| + |b|;
  }
}
