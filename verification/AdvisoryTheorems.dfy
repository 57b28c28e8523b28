/** When re-planning an applied plan advises a shrink. */
module AdvisoryTheorems {
  import opened Arith
  import opened Model
  import opened NodeBudget
  import opened Ledgers
  import opened Placement
  import opened Deadband
  import opened FreshFds
  import opened PoolDecision
  import opened PoolPlanner
  import opened Planner
  import opened EmissionFacts
  import opened PlanTheorems
  import opened AutoMode
  import opened AutoTheorems
  import UI = UniformIncrease
  import DB = DefensiveBranch
  import DriveCoreCounts
  import PR = PlanRuns

  /** The pool holds more than its target by more than the over-provision cap. */
  predicate OverProvisioned(current: int, desired: int, cons: Constraints) {
    desired > 0 && desired < current && current - desired > OverProvisionCap(desired, cons)
  }

  lemma PoolShrinkExact(s: Site, st: PoolState, p: PoolKind, desired: int, minFd: int, targetFds: int)
    requires Tracks(s, st.ledger)
    ensures PlanPool(s, st, p, desired, minFd, targetFds).notes.shrink
      == st.notes.shrink + if OverProvisioned(PoolCurrent(s.existing, p), desired, s.cons) then [p] else []
  {
    ChosenOnSite(s, st.ledger, p, desired, minFd, targetFds);
    ShrinkDecision(s, st.ledger, p, desired, minFd, targetFds);
    hide DecidePool, PlaceUniform, Feasibility, OverProvisioned;
    assert st.notes.shrink + [] == st.notes.shrink;
  }

  lemma ShrinkDecision(s: Site, l: Ledger, p: PoolKind, desired: int, minFd: int, targetFds: int)
    requires Tracks(s, l)
    ensures DecidePool(s, l, p, desired, minFd, targetFds).Shrink? <==>
      OverProvisioned(PoolCurrent(s.existing, p), desired, s.cons)
  {
    hide SelectUniform, ExistingGroups, TakeFresh, FreshGroups, UI.Decide, ExactNewFds, FrozenGap, PoolFds,
      PoolAverage;
    CoverTargetIsBoundary(PoolCurrent(s.existing, p), desired, s.cons);
  }

  /** A shrink is advised for exactly the over-provisioned pools. */
  lemma ShrinkExact(s: Site, raw: Caps, minFd: int, targets: Caps, p: PoolKind)
    ensures p in PlanPools(s, raw, minFd, targets).notes.shrink
       <==> OverProvisioned(PoolCurrent(s.existing, p), raw.Of(p), s.cons)
  {
    hide PlanPool, OverProvisioned;
    var a := FirstPool(s, raw);
    var st0 := PoolState(Opening(s.inv), NO_NOTES);
    PoolShrinkExact(s, st0, a, raw.Of(a), minFd, targets.Of(a));
    var st1 := PlanPool(s, st0, a, raw.Of(a), minFd, targets.Of(a));
    PoolShrinkExact(s, st1, a.Other(), raw.Of(a.Other()), minFd, targets.Of(a.Other()));
  }

  /** The plan passes the checks made before anything is planned. */
  predicate Checked(input: Input) {
    ProtectionOk(input.scheme, input.cons) && Targets(input.desired, input.scheme.MinFdNum()).Some?
  }

  /** A shrink is advised for a pool exactly when it is over-provisioned, in every plan that passes the first checks. */
  lemma PlanShrink(input: Input, p: PoolKind)
    ensures p in PlanCapacity(input).notes.shrink <==>
      Checked(input) && OverProvisioned(PoolCurrent(input.drives, p), input.desired.raw.Of(p), input.cons)
    ensures PlanCapacity(input).Feasible() ==> Checked(input)
  {
    ShrinkExact(input.Place(), input.desired.raw, input.scheme.MinFdNum(), TargetsOf(input), p);
    hide PlanPools, Emit, ComputeOf, DistinctDriveFds, ProtectionOk, SplitDriveContainers, OverProvisioned;
  }

  // ----- the decision each pool got -----

  /** The state pool p is planned from. */
  ghost function StateBefore(input: Input, p: PoolKind): (st: PoolState)
    ensures Tracks(input.Place(), st.ledger)
  {
    var s := input.Place();
    var a := FirstPool(s, input.desired.raw);
    var st0 := PoolState(Opening(s.inv), NO_NOTES);
    if p == a then st0 else PlanPool(s, st0, a, input.desired.raw.Of(a), input.scheme.MinFdNum(),
      TargetsOf(input).Of(a))
  }

  ghost function DecisionFor(input: Input, p: PoolKind): (d: Decision)
    ensures d.Place? ==> AllOnSite(input.Place(), d.chosen)
  {
    ChosenOnSite(input.Place(), StateBefore(input, p).ledger, p, input.desired.raw.Of(p), input.scheme.MinFdNum(),
      TargetsOf(input).Of(p));
    DecidePool(input.Place(), StateBefore(input, p).ledger, p, input.desired.raw.Of(p), input.scheme.MinFdNum(),
      TargetsOf(input).Of(p))
  }

  lemma UnplannedBefore(input: Input, p: PoolKind)
    requires UniqueNames(input.drives)
    ensures Unplanned(input.Place(), StateBefore(input, p).ledger, p)
  {
    var s := input.Place();
    var a := FirstPool(s, input.desired.raw);
    var st0 := PoolState(Opening(s.inv), NO_NOTES);
    OpeningUnplanned(s, p);
    PlanPoolKeeps(s, st0, a, input.desired.raw.Of(a), input.scheme.MinFdNum(), TargetsOf(input).Of(a));
    hide PlanPool;
    if p != a {
      assert a == p.Other();
      UnplannedKept(s, st0.ledger, StateBefore(input, p).ledger, p);
    }
  }

  /** A pool's final total is the one right after its own placement. */
  lemma TotalAfterOwnPlacement(input: Input, p: PoolKind)
    requires UniqueNames(input.drives) && DecisionFor(input, p).Place?
    ensures PoolTotal(input.Place(), PoolsOf(input).ledger, p)
         == PoolTotal(input.Place(), After(input.Place(), StateBefore(input, p).ledger, p, DecisionFor(input, p)), p)
  {
    var s, raw, minFd, t := input.Place(), input.desired.raw, input.scheme.MinFdNum(), TargetsOf(input);
    var a := FirstPool(s, raw);
    var st := StateBefore(input, p);
    var st' := PlanPool(s, st, p, raw.Of(p), minFd, t.Of(p));
    hide DecidePool, PlaceUniform, Feasibility, PoolTotal;
    assert st'.ledger == After(s, st.ledger, p, DecisionFor(input, p));
    if p == a {
      PlanPoolKeeps(s, st', a.Other(), raw.Of(a.Other()), minFd, t.Of(a.Other()));
      OtherPoolUndisturbed(s, a.Other(), st'.ledger, PoolsOf(input).ledger);
      assert a.Other().Other() == p;
    } else {
      assert PoolsOf(input).ledger == st'.ledger;
    }
  }

  /** Once applied, the pool holds what its own placement left. */
  lemma AppliedPool(input: Input, naming: string -> string, p: PoolKind)
    requires PlanCapacity(input).Feasible() && UniqueNames(input.drives) && DecisionFor(input, p).Place?
    ensures PoolCurrent(Applied(input.drives, PlanCapacity(input), naming), p)
         == PoolTotal(input.Place(), After(input.Place(), StateBefore(input, p).ledger, p, DecisionFor(input, p)), p)
  {
    hide PlanCapacity, PoolTotal, Applied, Emitted, DecisionFor, StateBefore, PlanPools, After,
      DriveCoreCounts.ExistingTlcCores, DriveCoreCounts.ExistingQlcCores, DriveCoreCounts.RequiredComputeCores;
    FeasibleShape(input);
    AppliedTotals(input.Place(), PoolsOf(input).ledger, input.desired.driveCores, PlanCapacity(input), naming, p);
    TotalAfterOwnPlacement(input, p);
  }

  /** The increase pool p got in the plan of `input`. */
  ghost function IncreaseOf(input: Input, p: PoolKind): UI.Increase {
    IncreaseFor(input.Place(), StateBefore(input, p).ledger, p, input.desired.raw.Of(p), input.scheme.MinFdNum())
  }

  lemma OvershootIsCap(s: Site, l: Ledger, p: PoolKind, desired: int, minFd: int)
    requires Tracks(s, l) && desired > 0
    ensures IncreaseFor(s, l, p, desired, minFd).overshoot == OverProvisionCap(desired, s.cons)
  {
    hide Overshoot, Reaches, SpareGroups, PoolFds, MinFdCap, MaxFdCap, PoolAverage, PoolCurrent;
  }

  lemma IncreaseBounds(s: Site, l: Ledger, p: PoolKind, desired: int, minFd: int)
    requires Tracks(s, l) && AutoSite(s) && Unplanned(s, l, p) && desired > 0
    requires IncreaseDecision(s, l, p, desired, minFd).Place?
    ensures var inc, d := IncreaseFor(s, l, p, desired, minFd), IncreaseDecision(s, l, p, desired, minFd);
      && AllOnSite(s, d.chosen)
      && PoolTotal(s, After(s, l, p, d), p) <= desired + OverProvisionCap(desired, s.cons)
      && (!UI.Decide(inc).CreateAtT0? || UI.AllAtLeast(inc.reaches, inc.t0) ==>
        desired <= PoolTotal(s, After(s, l, p, d), p))
  {
    hide PoolTotal, AutoSite, Unplanned, UI.Decide, UI.AllAtLeast, IncreaseDecision, IncreaseFor, NoRollback, After,
      OverProvisionCap, AllOnSite;
    IncreaseExact(s, l, p, desired, minFd);
    OvershootIsCap(s, l, p, desired, minFd);
  }

  /** A placed increase ends within the cap of its target. */
  lemma IncreaseWithinCap(input: Input, p: PoolKind)
    requires AutoSite(input.Place()) && input.desired.raw.Of(p) > 0
    requires DecisionFor(input, p).Place? && DecisionFor(input, p).route.IncreaseRoute?
    ensures var desired, inc := input.desired.raw.Of(p), IncreaseOf(input, p);
      var total := PoolTotal(input.Place(),
        After(input.Place(), StateBefore(input, p).ledger, p, DecisionFor(input, p)), p);
      && total <= desired + OverProvisionCap(desired, input.cons)
      && (!UI.Decide(inc).CreateAtT0? || UI.AllAtLeast(inc.reaches, inc.t0) ==> desired <= total)
  {
    hide PoolTotal, AutoSite, Unplanned, UI.Decide, UI.AllAtLeast, StateBefore, DecidePool, IncreaseDecision, After,
      IncreaseFor, OverProvisionCap, AllOnSite;
    var s, l, desired := input.Place(), StateBefore(input, p).ledger, input.desired.raw.Of(p);
    AutoOneNode(s);
    UnplannedBefore(input, p);
    RouteIsIncrease(s, l, p, desired, input.scheme.MinFdNum(), TargetsOf(input).Of(p));
    IncreaseBounds(s, l, p, desired, input.scheme.MinFdNum());
  }

  lemma IncreaseReachesTarget(input: Input, p: PoolKind)
    requires AutoSite(input.Place()) && DB.WholeChunkFds(input.Place(), p)
    requires DecisionFor(input, p).Place? && DecisionFor(input, p).route.IncreaseRoute?
    ensures input.desired.raw.Of(p) <=
      PoolTotal(input.Place(), After(input.Place(), StateBefore(input, p).ledger, p, DecisionFor(input, p)), p)
  {
    hide PoolTotal, AutoSite, Unplanned, StateBefore, DecidePool, IncreaseDecision, After, IncreaseFor, AllOnSite,
      NoRollback, DB.WholeChunkFds;
    var s, l, desired := input.Place(), StateBefore(input, p).ledger, input.desired.raw.Of(p);
    AutoOneNode(s);
    UnplannedBefore(input, p);
    RouteIsIncrease(s, l, p, desired, input.scheme.MinFdNum(), TargetsOf(input).Of(p));
    DB.WholeChunkIncrease(s, l, p, desired, input.scheme.MinFdNum());
  }

  /**
   * A uniform increase never provokes an advisory of its own: the applied pool exceeds the target by no more
   * than the over-provision cap, so the next plan, on any inventory, advises no shrink for it. It also reaches
   * the target in full, except possibly from the t0 branch over a failure domain below that level.
   */
  lemma IncreaseNeverAdvisesShrink(first: Input, second: Input, naming: string -> string, p: PoolKind)
    requires PlanCapacity(first).Feasible() && AutoSite(first.Place()) && first.desired.raw.Of(p) > 0
    requires DecisionFor(first, p).Place? && DecisionFor(first, p).route.IncreaseRoute?
    requires second.desired.raw == first.desired.raw && second.cons == first.cons
    requires second.drives == Applied(first.drives, PlanCapacity(first), naming)
    ensures var desired, inc := first.desired.raw.Of(p), IncreaseOf(first, p);
      && PoolCurrent(second.drives, p) <= desired + OverProvisionCap(desired, first.cons)
      && (!UI.Decide(inc).CreateAtT0? || UI.AllAtLeast(inc.reaches, inc.t0) ==>
        desired <= PoolCurrent(second.drives, p))
      && (DB.WholeChunkFds(first.Place(), p) ==> desired <= PoolCurrent(second.drives, p))
    ensures p !in PlanCapacity(second).notes.shrink
  {
    hide PlanCapacity, PoolTotal, Applied, AutoSite, UI.Decide, UI.AllAtLeast, IncreaseOf, DecisionFor, StateBefore,
      After, OverProvisionCap;
    AutoOneNode(first.Place());
    AppliedPool(first, naming, p);
    IncreaseWithinCap(first, p);
    if DB.WholeChunkFds(first.Place(), p) { IncreaseReachesTarget(first, p); }
    PlanShrink(second, p);
  }

  lemma RouteIsIncrease(s: Site, l: Ledger, p: PoolKind, desired: int, minFd: int, targetFds: int)
    requires Tracks(s, l)
    requires DecidePool(s, l, p, desired, minFd, targetFds).Place?
    requires DecidePool(s, l, p, desired, minFd, targetFds).route.IncreaseRoute?
    ensures DecidePool(s, l, p, desired, minFd, targetFds) == IncreaseDecision(s, l, p, desired, minFd)
  {
    hide SelectUniform, IncreaseDecision, ExistingGroups, TakeFresh, FreshGroups;
  }

  // ----- fresh placements round up without a cap -----

  /** In auto mode a fresh placement adds exactly its count times its level. */
  lemma FreshExact(s: Site, l: Ledger, p: PoolKind, desired: int, minFd: int, fallback: bool)
    requires Tracks(s, l) && AutoSite(s) && Unplanned(s, l, p)
    requires FreshDecision(s, l, p, desired, minFd, fallback).Place?
    ensures var d := FreshDecision(s, l, p, desired, minFd, fallback);
      && AllOnSite(s, d.chosen)
      && PoolTotal(s, After(s, l, p, d), p) == PoolCurrent(s.existing, p) + |d.chosen| * d.level
      && |d.chosen| * d.level >= desired
  {
    AutoOneNode(s);
    AutoIsDrives(s);
    FreshSingles(s, l, p);
    FreshGroupsAreFresh(s, l, p);
    OneNodeGroups(s, l, p);
    var gs := FreshGroups(s, l, p);
    FreshListNoDup(s, l, p, gs);
    FreshOnSite(s, l, p, desired, minFd, fallback);
    SelectUniformLeast(gs, desired, minFd, s.cons.minChunk, PreferNodes(l, p));
    UnplannedTotal(s, l, p);
    var d := FreshDecision(s, l, p, desired, minFd, fallback);
    hide FreshGroups, SelectUniform, PlaceUniform, PoolTotal, AutoSite, Unplanned, IsCandidate, CanReach;
    FreshPicks(s, l, p, d.chosen, d.level);
    PlaceUniformRealizes(s, l, p, d.level, d.chosen, Heads(d.chosen));
  }

  /**
   * After a fresh placement is applied the next plan advises a shrink exactly when n shares, with n the fewest failure
   * domains that tile the candidates, lift the pool above its target by more than the cap.
   */
  lemma FreshAdvisesShrink(first: Input, second: Input, naming: string -> string, p: PoolKind)
    requires PlanCapacity(first).Feasible() && AutoSite(first.Place())
    requires DecisionFor(first, p).Place? && DecisionFor(first, p).route.FreshRoute?
    requires second.desired.raw == first.desired.raw && second.cons == first.cons
    requires second.drives == Applied(first.drives, PlanCapacity(first), naming)
    ensures var desired, chunk := first.desired.raw.Of(p), first.cons.minChunk;
      var gs := FreshGroups(first.Place(), StateBefore(first, p).ledger, p);
      var n := LeastTiling(gs, desired, first.scheme.MinFdNum(), chunk);
      && n.Some?
      && (p in PlanCapacity(second).notes.shrink <==>
           && Checked(second)
           && PoolCurrent(first.drives, p) + n.value * UniformShare(desired, n.value, chunk)
              > desired + Max(0, OverProvisionCap(desired, first.cons)))
  {
    hide PlanCapacity, PoolTotal, Applied, AutoSite, DecisionFor, StateBefore, After, OverProvisionCap, Checked,
      LeastTiling, UniformShare, FreshGroups, PoolCurrent, PR.InventoryMap;
    AutoOneNode(first.Place());
    FreshFigures(first, p);
    PlanShrink(second, p);
    AppliedPool(first, naming, p);
    FreshTotal(first, p);
  }

  /** A fresh decision takes the fewest failure domains that tile, at their even share, for a positive target. */
  lemma FreshFigures(input: Input, p: PoolKind)
    requires AutoSite(input.Place())
    requires DecisionFor(input, p).Place? && DecisionFor(input, p).route.FreshRoute?
    ensures var d, desired, chunk := DecisionFor(input, p), input.desired.raw.Of(p), input.cons.minChunk;
      var gs := FreshGroups(input.Place(), StateBefore(input, p).ledger, p);
      && LeastTiling(gs, desired, input.scheme.MinFdNum(), chunk) == Some(|d.chosen|)
      && d.level == UniformShare(desired, |d.chosen|, chunk)
      && desired > 0 && |d.chosen| * d.level >= desired && PoolCurrent(input.drives, p) >= 0
  {
    var s, l, desired, minFd :=
      input.Place(), StateBefore(input, p).ledger, input.desired.raw.Of(p), input.scheme.MinFdNum();
    AutoOneNode(s);
    DecidedMeansActive(s, l, p, desired, minFd, TargetsOf(input).Of(p));
    hide AutoSite, StateBefore, DecidePool, FreshDecision, LeastTiling, UniformShare, FreshGroups;
    RouteIsFresh(s, l, p, desired, minFd, TargetsOf(input).Of(p));
    FreshDecisionLeast(s, l, p, desired, minFd, DecisionFor(input, p).route.fallback);
    CurrentNonNegative(s.existing, p);
  }

  lemma DecidedMeansActive(s: Site, l: Ledger, p: PoolKind, desired: int, minFd: int, targetFds: int)
    requires Tracks(s, l) && DecidePool(s, l, p, desired, minFd, targetFds).Place?
    ensures desired > 0
  {
    hide FreshDecision, ExplicitDecision, IncreaseDecision;
  }

  lemma {:induction false} CurrentNonNegative(existing: seq<ExistingContainer>, p: PoolKind)
    requires NonNegativeDrives(existing)
    ensures PoolCurrent(existing, p) >= 0
  {
    if existing != [] {
      assert existing[|existing| - 1] in existing;
      CurrentNonNegative(existing[..|existing| - 1], p);
    }
  }

  lemma FreshDecisionLeast(s: Site, l: Ledger, p: PoolKind, desired: int, minFd: int, fallback: bool)
    requires Tracks(s, l) && AutoSite(s) && FreshDecision(s, l, p, desired, minFd, fallback).Place?
    ensures var d, gs := FreshDecision(s, l, p, desired, minFd, fallback), FreshGroups(s, l, p);
      && LeastTiling(gs, desired, minFd, s.cons.minChunk) == Some(|d.chosen|)
      && d.level == UniformShare(desired, |d.chosen|, s.cons.minChunk) && |d.chosen| * d.level >= desired
    ensures NonNegativeDrives(s.existing)
  {
    hide FreshGroups, SelectUniform, LeastTiling, UniformShare, AutoSite, HeadroomSorted, NoDup, FreshList,
      NonNegativeDrives;
    var gs := FreshGroups(s, l, p);
    AutoOneNode(s);
    AutoIsDrives(s);
    OneNodeGroups(s, l, p);
    FreshGroupsAreFresh(s, l, p);
    FreshListNoDup(s, l, p, gs);
    SelectedLeast(gs, desired, minFd, s.cons.minChunk, PreferNodes(l, p));
  }

  lemma SelectedLeast(gs: seq<FdGroup>, desired: int, minFd: int, minChunk: int, prefer: set<string>)
    requires HeadroomSorted(gs) && NoDup(gs) && SelectUniform(gs, desired, minFd, minChunk, prefer).Tiling?
    ensures var pick := SelectUniform(gs, desired, minFd, minChunk, prefer);
      && LeastTiling(gs, desired, minFd, minChunk) == Some(|pick.chosen|)
      && pick.level == UniformShare(desired, |pick.chosen|, minChunk) && |pick.chosen| * pick.level >= desired
  {
    var n := FirstTiling(gs, desired, minChunk, Max(minFd, 1)).value;
    SelectUniformLeast(gs, desired, minFd, minChunk, prefer);
    PickColocatedExact(gs, n, UniformShare(desired, n, minChunk), prefer);
    SortedCount(gs, n, UniformShare(desired, n, minChunk));
    hide PickColocated, CountAtLeast, UniformShare;
    assert CanTile(gs, desired, minChunk, n);
    var least := LeastTiling(gs, desired, minFd, minChunk);
    assert least.Some? && least.value <= n;
    assert !(least.value < n);
  }

  lemma FreshTotal(input: Input, p: PoolKind)
    requires AutoSite(input.Place())
    requires DecisionFor(input, p).Place? && DecisionFor(input, p).route.FreshRoute?
    ensures var d := DecisionFor(input, p);
      PoolTotal(input.Place(), After(input.Place(), StateBefore(input, p).ledger, p, d), p)
        == PoolCurrent(input.drives, p) + |d.chosen| * d.level
  {
    hide PoolTotal, AutoSite, Unplanned, StateBefore, DecidePool, FreshDecision, PlaceUniform;
    var s, l, desired := input.Place(), StateBefore(input, p).ledger, input.desired.raw.Of(p);
    AutoOneNode(s);
    UnplannedBefore(input, p);
    RouteIsFresh(s, l, p, desired, input.scheme.MinFdNum(), TargetsOf(input).Of(p));
    FreshExact(s, l, p, desired, input.scheme.MinFdNum(), DecisionFor(input, p).route.fallback);
  }

  lemma RouteIsFresh(s: Site, l: Ledger, p: PoolKind, desired: int, minFd: int, targetFds: int)
    requires Tracks(s, l)
    requires DecidePool(s, l, p, desired, minFd, targetFds).Place?
    requires DecidePool(s, l, p, desired, minFd, targetFds).route.FreshRoute?
    ensures DecidePool(s, l, p, desired, minFd, targetFds)
         == FreshDecision(s, l, p, desired, minFd, DecidePool(s, l, p, desired, minFd, targetFds).route.fallback)
  {
    hide SelectUniform, ExistingGroups, TakeFresh, FreshGroups, UI.Decide;
  }
}
