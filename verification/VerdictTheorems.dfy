/** Which pool goes first, what a planned pool is told, and what a feasible plan reports about it. */
module VerdictTheorems {
  import opened Model
  import opened NodeBudget
  import opened Ledgers
  import opened Placement
  import opened Deadband
  import opened PoolDecision
  import opened PoolPlanner
  import opened Planner
  import opened PlanTheorems
  import opened EmissionFacts
  import opened AdvisoryTheorems
  import opened Ordering
  import opened GrownCores
  import opened AutoMode
  import opened AutoTheorems
  import opened RouteTheorems
  import CP = ComputePlanner
  import DB = DefensiveBranch
  import DriveCoreCounts
  import FreshFds
  import PR = PlanRuns
  import Sums
  import UI = UniformIncrease

  // ----- the order of the pools -----

  /** The node has drives of the pool, and is eligible or carries the pool already. */
  ghost predicate Able(s: Site, p: PoolKind, n: string) {
    && n in s.inv && s.inv[n].drives.Of(p) > 0
    && (s.inv[n].ineligibleReason == "" || (n != "" && exists c :: c in s.existing && c.node == n && c.caps.Of(p) > 0))
  }

  /** QLC goes first exactly when both pools are active and fewer nodes can host it than can host TLC. */
  lemma FirstPoolExact(s: Site, raw: Caps, tlc: set<string>, qlc: set<string>)
    requires forall n :: n in tlc <==> Able(s, TLC, n)
    requires forall n :: n in qlc <==> Able(s, QLC, n)
    ensures FirstPool(s, raw) == QLC <==> raw.tlc > 0 && raw.qlc > 0 && |qlc| < |tlc|
  {
    assert tlc == CapableNodes(s, TLC);
    assert qlc == CapableNodes(s, QLC);
  }

  // ----- the verdict on what was placed -----

  /** What the containers that carried the pool in a failure domain hold in the end. */
  function OldHolders(existing: seq<ExistingContainer>, l: Ledger, p: PoolKind): int {
    if existing == [] then 0 else
      var c := existing[|existing| - 1];
      OldHolders(existing[..|existing| - 1], l, p) +
      if c.caps.Of(p) > 0 && c.fdValue != "" then FinalCap(l, c, p) else 0
  }

  lemma {:induction false} CountedIs(existing: seq<ExistingContainer>, l: Ledger, p: PoolKind, freshOnly: bool)
    ensures CountedSum(existing, l, p, freshOnly) ==
      SumFinal(existing, l, p) - if freshOnly then OldHolders(existing, l, p) else 0
  {
    hide FinalCap;
    if existing != [] { CountedIs(existing[..|existing| - 1], l, p, freshOnly); }
  }

  /** k is the least addition to `got` with which the pool is no longer short. */
  ghost predicate Lacks(got: int, desired: int, cons: Constraints, k: int) {
    && k > 0 && !CapacityShort(got + k, desired, cons)
    && forall x :: got <= x < got + k ==> CapacityShort(x, desired, cons)
  }

  /**
   * A pool that was planned is told of missing capacity exactly when what counts is still short, with the least amount
   * that would do; of failure domains exactly when it is not short but too few carry it; of nothing otherwise. Planned
   * afresh, what its old containers hold does not count.
   */
  lemma VerdictExact(s: Site, l: Ledger, p: PoolKind, desired: int, minFd: int, freshOnly: bool)
    ensures var verdict := Feasibility(s, l, p, desired, minFd, freshOnly);
      var got := PoolTotal(s, l, p) - if freshOnly then OldHolders(s.existing, l, p) else 0;
      && (CapacityShort(got, desired, s.cons) ==>
           && verdict.Some? && verdict.value.stage == DrivePool(p) && verdict.value.binding == DriveCapacity
           && Lacks(got, desired, s.cons, verdict.value.shortfall))
      && (!CapacityShort(got, desired, s.cons) ==>
           verdict == if |CarryingFds(s, l, p)| < minFd then Some(Report(DrivePool(p), FailureDomains, 0)) else None)
  {
    CountedIs(s.existing, l, p, freshOnly);
    hide CountedSum, SumFinal, OldHolders, CarryingFds, CoverTarget, CapacityShort, Sums.Total;
    forall x ensures CapacityShort(x, desired, s.cons) <==> x < CoverTarget(desired, s.cons) {
      CoverTargetIsBoundary(x, desired, s.cons);
    }
  }

  // ----- what a feasible plan reports -----

  /** The pool is planned afresh although it has containers. */
  predicate LeftBehind(d: Decision) { d.Place? && d.route.FreshRoute? && d.route.fallback }

  /** The pool is increased beyond its target. */
  predicate Beyond(d: Decision, desired: int) { d.Place? && d.route.IncreaseRoute? && d.route.predicted > desired }

  /** What a pool's decision adds to the notes. */
  predicate Noted(before: Notes, after: Notes, p: PoolKind, d: Decision, desired: int) {
    && after.abandoned == before.abandoned + (if LeftBehind(d) then [p] else [])
    && after.overProvisions == before.overProvisions +
         (if Beyond(d, desired) then [OverProvision(p, d.route.predicted - desired)] else [])
  }

  /** What the notes say about a pool in the end. */
  ghost predicate Told(n: Notes, p: PoolKind, d: Decision, desired: int) {
    && (p in n.abandoned <==> LeftBehind(d))
    && forall x :: OverProvision(p, x) in n.overProvisions <==> Beyond(d, desired) && x == d.route.predicted - desired
  }

  lemma BothTold(n1: Notes, n2: Notes, a: PoolKind, da: Decision, db: Decision, wantA: int, wantB: int)
    requires Noted(NO_NOTES, n1, a, da, wantA) && Noted(n1, n2, a.Other(), db, wantB)
    ensures Told(n2, a, da, wantA) && Told(n2, a.Other(), db, wantB)
  {
  }

  lemma RealizedNotes(s: Site, st: PoolState, p: PoolKind, desired: int, minFd: int, d: Decision)
    requires Tracks(s, st.ledger) && d.Place? && AllOnSite(s, d.chosen)
    requires Realized(s, st, p, desired, minFd, d.level, d.chosen, d.route).notes.infeasible.None?
    ensures var r := Realized(s, st, p, desired, minFd, d.level, d.chosen, d.route);
      && Noted(st.notes, r.notes, p, d, desired) && r.ledger == After(s, st.ledger, p, d)
      && Feasibility(s, r.ledger, p, desired, minFd, d.route.FreshRoute?).None?
  {
    hide PlaceUniform, Feasibility, AllOnSite;
  }

  lemma NothingNoted(before: Notes, after: Notes, p: PoolKind, d: Decision, desired: int)
    requires !d.Place? && after.abandoned == before.abandoned && after.overProvisions == before.overProvisions
    ensures Noted(before, after, p, d, desired)
  {
  }

  lemma PoolNotes(s: Site, st: PoolState, p: PoolKind, desired: int, minFd: int, targetFds: int)
    requires Tracks(s, st.ledger) && PlanPool(s, st, p, desired, minFd, targetFds).notes.infeasible.None?
    ensures var d, st' := DecidePool(s, st.ledger, p, desired, minFd, targetFds),
        PlanPool(s, st, p, desired, minFd, targetFds);
      && Noted(st.notes, st'.notes, p, d, desired)
      && (d.Place? ==>
           && AllOnSite(s, d.chosen) && st'.ledger == After(s, st.ledger, p, d)
           && Feasibility(s, st'.ledger, p, desired, minFd, d.route.FreshRoute?).None?)
  {
    hide DecidePool, PlaceUniform, Feasibility, Realized, AllOnSite, Noted;
    ChosenOnSite(s, st.ledger, p, desired, minFd, targetFds);
    var d := DecidePool(s, st.ledger, p, desired, minFd, targetFds);
    if d.Place? {
      RealizedNotes(s, st, p, desired, minFd, d);
    } else {
      NothingNoted(st.notes, PlanPool(s, st, p, desired, minFd, targetFds).notes, p, d, desired);
    }
  }

  /** In a run where both pools are feasible, what each was decided and told, whichever goes first. */
  lemma RunNotes(input: Input, p: PoolKind)
    requires PoolsOf(input).notes.infeasible.None? && UniqueNames(input.drives)
    ensures var s, d, desired := input.Place(), DecisionFor(input, p), input.desired.raw.Of(p);
      && Told(PoolsOf(input).notes, p, d, desired)
      && (d.Place? ==> Feasibility(s, After(s, StateBefore(input, p).ledger, p, d), p, desired,
           input.scheme.MinFdNum(), d.route.FreshRoute?).None?)
  {
    var s, raw, minFd, t := input.Place(), input.desired.raw, input.scheme.MinFdNum(), TargetsOf(input);
    var a := FirstPool(s, raw);
    var b := a.Other();
    var st0 := PoolState(Opening(s.inv), NO_NOTES);
    var st1 := PlanPool(s, st0, a, raw.Of(a), minFd, t.Of(a));
    hide PlanPool, DecidePool, FirstPool, PR.InventoryMap, TargetsOf, Noted, Told, Feasibility, After, Opening, Extends,
      AllNonNegative, AllOnSite;
    PlanPoolKeeps(s, st1, b, raw.Of(b), minFd, t.Of(b));
    PoolNotes(s, st0, a, raw.Of(a), minFd, t.Of(a));
    PoolNotes(s, st1, b, raw.Of(b), minFd, t.Of(b));
    BothTold(st1.notes, PlanPool(s, st1, b, raw.Of(b), minFd, t.Of(b)).notes, a,
      DecidePool(s, st0.ledger, a, raw.Of(a), minFd, t.Of(a)), DecidePool(s, st1.ledger, b, raw.Of(b), minFd, t.Of(b)),
      raw.Of(a), raw.Of(b));
    assert StateBefore(input, a) == st0 && StateBefore(input, b) == st1;
    assert p == a || p == b;
  }

  /** The notes of a feasible plan about a pool are those of its own decision, whichever pool went first. */
  lemma PlanNotes(input: Input, p: PoolKind)
    requires PlanCapacity(input).Feasible() && UniqueNames(input.drives)
    ensures Told(PlanCapacity(input).notes, p, DecisionFor(input, p), input.desired.raw.Of(p))
  {
    FeasibleNotes(input);
    RunNotes(input, p);
    hide PlanCapacity, Told, DecisionFor;
  }

  lemma FeasibleNotes(input: Input)
    requires PlanCapacity(input).Feasible()
    ensures PlanCapacity(input).notes == PoolsOf(input).notes && PoolsOf(input).notes.infeasible.None?
    ensures ProtectionOk(input.scheme, input.cons)
    ensures Targets(input.desired, input.scheme.MinFdNum()) == Some(TargetsOf(input))
  {
    hide PlanPools, Emit, ComputeOf, DriveCoreCounts.RequiredComputeCores, DistinctDriveFds, SplitDriveContainers,
      DriveCoreCounts.ExistingTlcCores, DriveCoreCounts.ExistingQlcCores, DriveCoreCounts.NewTlcCores,
      DriveCoreCounts.NewQlcCores, PR.InventoryMap, ProtectionOk;
  }

  lemma PinOf(input: Input, p: PoolKind)
    requires ProtectionOk(input.scheme, input.cons) && input.desired.raw.Of(p) > 0
    requires Targets(input.desired, input.scheme.MinFdNum()) == Some(TargetsOf(input))
    ensures TargetsOf(input).Of(p) >= 0
    ensures TargetsOf(input).Of(p) > 0 <==> input.desired.driveContainers > 0
  {
    hide Arith.RoundDiv;
  }

  /**
   * A feasible plan reports that a pool's containers are left behind exactly when the pool is short, no container count
   * is pinned, the missing chunk is out of proportion to what they hold on average, and the candidates the pool finds
   * can hold the whole target evenly.
   */
  lemma AbandonedExact(input: Input, p: PoolKind, chunk: int, average: int)
    requires PlanCapacity(input).Feasible() && UniqueNames(input.drives)
    requires LeastChunk(chunk, input.desired.raw.Of(p) - PoolCurrent(input.drives, p), input.scheme.MinFdNum(),
      input.cons.minChunk)
    requires AverageHeld(input.drives, p, average)
    ensures p in PlanCapacity(input).notes.abandoned <==>
      && input.desired.raw.Of(p) > 0 && input.desired.driveContainers <= 0
      && CapacityShort(PoolCurrent(input.drives, p), input.desired.raw.Of(p), input.cons)
      && OutOfProportion(chunk, average, input.cons)
      && CanStartAfresh(input.Place(), StateBefore(input, p).ledger, p, input.desired.raw.Of(p),
           input.scheme.MinFdNum())
  {
    var s, l, desired, minFd := input.Place(), StateBefore(input, p).ledger, input.desired.raw.Of(p),
      input.scheme.MinFdNum();
    hide PlanCapacity, PlanPools, TargetsOf, StateBefore, PR.InventoryMap, CapacityShort, PoolCurrent, Targets,
      LeastChunk, AverageHeld, CanStartAfresh, OutOfProportion, ProtectionOk, DecidePool, LeftBehind, Beyond;
    FeasibleNotes(input);
    PlanNotes(input, p);
    if desired > 0 {
      PinOf(input, p);
      LeftBehindWhen(s, l, p, desired, minFd, TargetsOf(input).Of(p), chunk, average);
    } else {
      Idle(s, l, p, desired, minFd, TargetsOf(input).Of(p));
    }
  }

  lemma Idle(s: Site, l: Ledger, p: PoolKind, desired: int, minFd: int, targetFds: int)
    requires Tracks(s, l) && desired <= 0
    ensures !LeftBehind(DecidePool(s, l, p, desired, minFd, targetFds))
  {
  }

  lemma LeftBehindWhen(s: Site, l: Ledger, p: PoolKind, desired: int, minFd: int, targetFds: nat, chunk: int,
      average: int)
    requires Tracks(s, l) && desired > 0
    requires LeastChunk(chunk, desired - PoolCurrent(s.existing, p), minFd, s.cons.minChunk)
    requires AverageHeld(s.existing, p, average)
    ensures LeftBehind(DecidePool(s, l, p, desired, minFd, targetFds)) <==>
      && targetFds == 0 && CapacityShort(PoolCurrent(s.existing, p), desired, s.cons)
      && OutOfProportion(chunk, average, s.cons) && CanStartAfresh(s, l, p, desired, minFd)
  {
    DecisionWhenShort(s, l, p, desired, minFd, targetFds);
    if CapacityShort(PoolCurrent(s.existing, p), desired, s.cons) {
      RouteExact(s, l, p, desired, minFd, targetFds, chunk, average);
    }
    FreshIff(s, l, p, desired, minFd, true);
    FreshIff(s, l, p, desired, minFd, false);
    OtherRoutes(s, l, p, desired, minFd, targetFds);
    hide DecidePool, FreshDecision, IncreaseDecision, ExplicitDecision, LeastChunk, AverageHeld, CanStartAfresh,
      PoolFds, PoolCurrent, CapacityShort, OutOfProportion;
  }

  lemma OtherRoutes(s: Site, l: Ledger, p: PoolKind, desired: int, minFd: int, targetFds: int)
    requires Tracks(s, l)
    ensures !LeftBehind(IncreaseDecision(s, l, p, desired, minFd))
    ensures !LeftBehind(ExplicitDecision(s, l, p, desired, targetFds))
  {
    hide FreshFds.FreshGroups, PoolFds, PoolCurrent, FrozenGap, ExactNewFds, ExistingGroups, FreshFds.TakeFresh,
      UI.Decide, IncreaseFor, SpareGroups, Reaches;
  }

  /**
   * With one-node failure domains a feasible plan reports an over-provision of an increased pool by no less than what
   * the pool then has beyond its target. The figure is exact unless the create-new loop finds no count,
   * some count is feasible at level t0 and a failure domain of the pool is below t0.
   */
  lemma OverProvisionExact(input: Input, naming: string -> string, p: PoolKind, x: int)
    requires PlanCapacity(input).Feasible() && AutoSite(input.Place())
    requires DecisionFor(input, p).Place? && DecisionFor(input, p).route.IncreaseRoute?
    ensures var inc := IncreaseOf(input, p);
      var over := PoolCurrent(Applied(input.drives, PlanCapacity(input), naming), p) - input.desired.raw.Of(p);
      var exact := !(UI.EvenCount(inc).None? && UI.T0Count(inc)) || UI.AllAtLeast(inc.reaches, inc.t0);
      && (OverProvision(p, x) in PlanCapacity(input).notes.overProvisions ==> 0 < x && over <= x)
      && (exact ==> (OverProvision(p, x) in PlanCapacity(input).notes.overProvisions <==> 0 < x == over))
      && (!exact && OverProvision(p, x) in PlanCapacity(input).notes.overProvisions ==> over < x)
  {
    var s, l, desired, minFd := input.Place(), StateBefore(input, p).ledger, input.desired.raw.Of(p),
      input.scheme.MinFdNum();
    AutoOneNode(s);
    PlanNotes(input, p);
    AppliedPool(input, naming, p);
    UnplannedBefore(input, p);
    hide PlanCapacity, PlanPools, TargetsOf, StateBefore, PR.InventoryMap, PoolCurrent, Targets, AutoSite, DecidePool,
      IncreaseDecision, IncreaseFor, UI.EvenCount, UI.T0Count, UI.AllAtLeast, PoolTotal, After, Unplanned, Applied,
      NoRollback, AllOnSite;
    RouteIsIncrease(s, l, p, desired, minFd, TargetsOf(input).Of(p));
    DB.IncreaseRealized(s, l, p, desired, minFd);
  }

  /** What the containers of a pool's failure domains hold today. */
  function HeldInFds(existing: seq<ExistingContainer>, p: PoolKind): int {
    if existing == [] then 0 else
      var c := existing[|existing| - 1];
      HeldInFds(existing[..|existing| - 1], p) + if c.caps.Of(p) > 0 && c.fdValue != "" then c.caps.Of(p) else 0
  }

  lemma {:induction false} HoldersKeep(existing: seq<ExistingContainer>, l: Ledger, p: PoolKind)
    requires forall c :: c in existing ==> FinalCap(l, c, p) >= c.caps.Of(p)
    ensures OldHolders(existing, l, p) >= HeldInFds(existing, p)
  {
    hide FinalCap;
    if existing != [] { HoldersKeep(existing[..|existing| - 1], l, p); }
  }

  lemma AfterKeeps(s: Site, l: Ledger, p: PoolKind, d: Decision)
    requires Tracks(s, l) && UniqueNames(s.existing) && Unplanned(s, l, p) && d.Place? && AllOnSite(s, d.chosen)
    ensures forall c :: c in s.existing ==> FinalCap(After(s, l, p, d), c, p) >= c.caps.Of(p)
  {
    PlaceUniformKeeps(s, l, p, d.level, d.chosen);
    hide PlaceUniform;
  }

  lemma FreshVerdict(s: Site, l: Ledger, p: PoolKind, desired: int, minFd: int)
    requires Feasibility(s, l, p, desired, minFd, true).None?
    requires forall c :: c in s.existing ==> FinalCap(l, c, p) >= c.caps.Of(p)
    ensures !CapacityShort(PoolTotal(s, l, p) - HeldInFds(s.existing, p), desired, s.cons)
  {
    hide Feasibility, CapacityShort, CoverTarget, PoolTotal, OldHolders, HeldInFds, FinalCap, Lacks, CarryingFds;
    VerdictExact(s, l, p, desired, minFd, true);
    HoldersKeep(s.existing, l, p);
    CoverTargetIsBoundary(PoolTotal(s, l, p) - OldHolders(s.existing, l, p), desired, s.cons);
    CoverTargetIsBoundary(PoolTotal(s, l, p) - HeldInFds(s.existing, p), desired, s.cons);
  }

  lemma FreshLeft(s: Site, l: Ledger, p: PoolKind, d: Decision, desired: int, minFd: int)
    requires Tracks(s, l) && UniqueNames(s.existing) && Unplanned(s, l, p) && d.Place? && AllOnSite(s, d.chosen)
    requires Feasibility(s, After(s, l, p, d), p, desired, minFd, true).None?
    ensures !CapacityShort(PoolTotal(s, After(s, l, p, d), p) - HeldInFds(s.existing, p), desired, s.cons)
  {
    hide After, Feasibility, CapacityShort, PoolTotal, HeldInFds, FinalCap;
    AfterKeeps(s, l, p, d);
    FreshVerdict(s, After(s, l, p, d), p, desired, minFd);
  }

  /**
   * A pool planned afresh is covered without its old failure domains: once a feasible plan is applied, what the pool
   * holds beyond what they hold today is not short of the target.
   */
  lemma FallbackCovers(input: Input, naming: string -> string, p: PoolKind)
    requires PlanCapacity(input).Feasible() && UniqueNames(input.drives) && NonNegativeDrives(input.drives)
    requires DecisionFor(input, p).Place? && DecisionFor(input, p).route.FreshRoute?
    ensures !CapacityShort(PoolCurrent(Applied(input.drives, PlanCapacity(input), naming), p) -
      HeldInFds(input.drives, p), input.desired.raw.Of(p), input.cons)
  {
    hide PlanCapacity, PlanPools, StateBefore, PR.InventoryMap, PoolCurrent, DecisionFor, CapacityShort, PoolTotal,
      After, Applied, Feasibility, CoverTarget, Told, AllOnSite, OldHolders, HeldInFds, FinalCap, Unplanned, PoolsOf,
      ProtectionOk, Targets, TargetsOf;
    FeasibleNotes(input);
    RunNotes(input, p);
    AppliedPool(input, naming, p);
    UnplannedBefore(input, p);
    FreshLeft(input.Place(), StateBefore(input, p).ledger, p, DecisionFor(input, p), input.desired.raw.Of(p),
      input.scheme.MinFdNum());
  }

  // ----- which reason is reported -----

  /** What a pool itself finds wrong: its decision rejects it, or what was placed does not do. */
  ghost function OwnReport(input: Input, p: PoolKind): Option<Report> {
    match DecisionFor(input, p)
    case Keep => None
    case Shrink => None
    case Reject(report) => Some(report)
    case Place(_, _, route) =>
      Feasibility(input.Place(), After(input.Place(), StateBefore(input, p).ledger, p, DecisionFor(input, p)), p,
        input.desired.raw.Of(p), input.scheme.MinFdNum(), route.FreshRoute?)
  }

  lemma PoolReport(s: Site, st: PoolState, p: PoolKind, desired: int, minFd: int, targetFds: int)
    requires Tracks(s, st.ledger)
    ensures var d, after := DecidePool(s, st.ledger, p, desired, minFd, targetFds),
        PlanPool(s, st, p, desired, minFd, targetFds).notes.infeasible;
      && (d.Place? ==> AllOnSite(s, d.chosen))
      && (d.Keep? || d.Shrink? ==> after == st.notes.infeasible)
      && (d.Reject? ==> after == Some(d.report))
      && (d.Place? ==>
           var own := Feasibility(s, After(s, st.ledger, p, d), p, desired, minFd, d.route.FreshRoute?);
           after == if own.Some? then own else st.notes.infeasible)
  {
    ChosenOnSite(s, st.ledger, p, desired, minFd, targetFds);
    hide DecidePool, PlaceUniform, Feasibility;
  }

  /** Of two pools that fail, the one planned second is reported. */
  lemma PoolsReport(input: Input)
    ensures var a := FirstPool(input.Place(), input.desired.raw);
      PoolsOf(input).notes.infeasible ==
        if OwnReport(input, a.Other()).Some? then OwnReport(input, a.Other()) else OwnReport(input, a)
  {
    var s, raw, minFd, t := input.Place(), input.desired.raw, input.scheme.MinFdNum(), TargetsOf(input);
    var a := FirstPool(s, raw);
    var b := a.Other();
    var st0 := PoolState(Opening(s.inv), NO_NOTES);
    var st1 := PlanPool(s, st0, a, raw.Of(a), minFd, t.Of(a));
    hide PlanPool, DecidePool, FirstPool, PR.InventoryMap, TargetsOf, Feasibility, After, Opening, AllOnSite;
    PoolReport(s, st0, a, raw.Of(a), minFd, t.Of(a));
    PoolReport(s, st1, b, raw.Of(b), minFd, t.Of(b));
    assert StateBefore(input, a) == st0 && StateBefore(input, b) == st1;
  }

  /**
   * The reason a plan reports is the first of these that applies: protection, a count that cannot be split, containers
   * whose cores cannot be pinned or paid for, a pool, the number of failure domains under a pinned count, and compute.
   * Without one the plan is feasible, and only then does it lay out compute.
   */
  lemma ReportOrder(input: Input)
    ensures var plan, st, e := PlanCapacity(input), PoolsOf(input), EmissionOf(input);
      var total := input.desired.driveContainers;
      && (!ProtectionOk(input.scheme, input.cons) ==>
           plan.notes.infeasible == Some(Report(ClusterWide, Protection, 0)))
      && (ProtectionOk(input.scheme, input.cons) ==>
           if Targets(input.desired, input.scheme.MinFdNum()).None? then
             plan.notes.infeasible == Some(Report(ClusterWide, DriveContainers, 0))
           else if e.failure.Some? then plan.notes.infeasible == e.failure
           else if st.notes.infeasible.Some? then plan.notes.infeasible == st.notes.infeasible
           else if total > 0 && |DistinctDriveFds(input.Place(), st.ledger)| != total then
             plan.notes.infeasible == Some(Report(ClusterWide, DriveContainers, 0))
           else
             var r := ComputeOf(input, e.budgets, plan.requiredComputeCores);
             && (plan.Feasible() <==> r.Placed?) && (r.Failed? ==> plan.notes.infeasible == Some(r.report))
             && (input.computeNodes.None? ==>
                  plan.notes.infeasible == Some(Report(ComputeStage, Unclassified, 0))))
      && (!plan.Feasible() ==> plan.layout == [] && plan.computeContainers == 0 && plan.computeCores == 0)
  {
    hide PlanPools, Emit, CP.PlanCompute, DriveCoreCounts.RequiredComputeCores, DistinctDriveFds, SplitDriveContainers,
      DriveCoreCounts.ExistingTlcCores, DriveCoreCounts.ExistingQlcCores, DriveCoreCounts.NewTlcCores,
      DriveCoreCounts.NewQlcCores, PR.InventoryMap, ProtectionOk;
  }

  lemma {:induction false} GrowOk(growth: map<string, Caps>, names: seq<string>, driveCores: int, cons: Constraints)
    requires forall i :: 0 <= i < |names| ==> names[i] in growth
    ensures EmitGrow(growth, names, driveCores, cons).ok <==>
      forall c :: c in names ==> DriveCoreCounts.PinCores(growth[c], driveCores, cons).Pinned?
  {
    hide DriveCoreCounts.PinCores;
    if names != [] {
      var init, last := names[..|names| - 1], names[|names| - 1];
      GrowOk(growth, init, driveCores, cons);
      assert names == init + [last] && last in names;
    }
  }

  /** A node has the CPU, the hugepages and the memory of k more drive cores, where these have a price. */
  predicate Affords(nc: NodeCapacity, b: Budget, k: int, cons: Constraints) {
    k > 0 ==>
      && CpuCost(nc, cons.cpuPolicy, k, false) <= b.cores
      && (cons.hugepagesPerCore + cons.driveDpdkPerCore > 0 ==>
           k * (cons.hugepagesPerCore + cons.driveDpdkPerCore) <= b.hugepages)
      && (cons.memoryPerCore > 0 ==> k * cons.memoryPerCore <= b.memory)
  }

  /** A new container gets its pinned cores, and its node affords what they exceed the derived ones by. */
  predicate Emittable(s: Site, l: Ledger, n: string, driveCores: int)
    requires Tracks(s, l) && n in l.created
  {
    var pin := DriveCoreCounts.PinCores(l.created[n].caps, driveCores, s.cons);
    pin.Pinned? && (n in s.inv ==> Affords(s.inv[n], l.budgets[n], pin.cores - pin.derived, s.cons))
  }

  lemma {:induction false} CreateOk(s: Site, l: Ledger, nodes: seq<string>, driveCores: int)
    requires Tracks(s, l) && (forall i :: 0 <= i < |nodes| ==> nodes[i] in l.created) && Distinct(nodes)
    ensures var f := EmitCreate(s, l, nodes, driveCores).failure;
      && (f.None? <==> forall n :: n in nodes ==> Emittable(s, l, n, driveCores))
      && (f.None? || f == Some(Report(ClusterWide, DriveCores, 0)) || f == Some(Report(ClusterWide, Cores, 0)))
  {
    if nodes != [] {
      var init, last := nodes[..|nodes| - 1], nodes[|nodes| - 1];
      CreateOk(s, l, init, driveCores);
      assert nodes == init + [last] && last in nodes && last !in init;
      if last in s.inv { ReservesElsewhere(s, l, init, driveCores, last); }
    }
    hide DriveCoreCounts.PinCores, CpuCost;
  }

  /**
   * Drives are emitted exactly when every grown container gets its pinned cores and every new one is emittable. If a
   * grown one does not, its cores are reported and nothing new is listed.
   */
  lemma EmissionExact(s: Site, l: Ledger, driveCores: int)
    requires Tracks(s, l)
    ensures var e, grown := Emit(s, l, driveCores),
        forall c :: c in l.growth ==> DriveCoreCounts.PinCores(l.growth[c], driveCores, s.cons).Pinned?;
      && (e.failure.None? <==> grown && forall n :: n in l.created ==> Emittable(s, l, n, driveCores))
      && (!grown ==> e.failure == Some(Report(ClusterWide, DriveCores, 0)) && e.create == [])
      && (e.failure.Some? ==> e.failure.value.binding == DriveCores || e.failure.value.binding == Cores)
  {
    RecordedFacts(l.growth.Keys);
    RecordedFacts(l.created.Keys);
    hide EmitGrow, EmitCreate, Recorded, DriveCoreCounts.PinCores, Emittable, Distinct;
    GrowOk(l.growth, Recorded(l.growth.Keys), driveCores, s.cons);
    CreateOk(s, l, Recorded(l.created.Keys), driveCores);
  }
}
