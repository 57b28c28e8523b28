/** What a plan leaves in a pool, on any site and by any route: the completed failure domains decide. */
module SiteTheorems {
  import opened Model
  import opened Ledgers
  import opened Placement
  import opened FdRecords
  import opened PoolDecision
  import opened PoolPlanner
  import opened Planner
  import opened PlanTheorems
  import opened AdvisoryTheorems
  import opened AutoTheorems
  import FreshFds
  import PR = PlanRuns

  /** What the failure domains that a pool's decision completes lacked of the level. */
  ghost function GainOf(input: Input, p: PoolKind): nat
    requires DecisionFor(input, p).Place?
  {
    LevelGain(input.Place(), StateBefore(input, p).ledger, p, DecisionFor(input, p).level, DecisionFor(input, p).chosen)
  }

  lemma ChosenDisjoint(input: Input, p: PoolKind)
    requires DecisionFor(input, p).Place?
    ensures FreshFds.NodesDisjoint(DecisionFor(input, p).chosen)
  {
    hide DecidePool, StateBefore, PR.InventoryMap, FreshFds.NodesDisjoint;
    DecisionDisjoint(input.Place(), StateBefore(input, p).ledger, p, input.desired.raw.Of(p), input.scheme.MinFdNum(),
      TargetsOf(input).Of(p));
  }

  /** A planned pool ends with what it held plus what its completed failure domains lacked. */
  lemma PlacedTotal(input: Input, p: PoolKind)
    requires UniqueNames(input.drives) && NonNegativeDrives(input.drives) && DecisionFor(input, p).Place?
    ensures PoolTotal(input.Place(), PoolsOf(input).ledger, p) == PoolCurrent(input.drives, p) + GainOf(input, p)
  {
    var s, l, d := input.Place(), StateBefore(input, p).ledger, DecisionFor(input, p);
    ChosenDisjoint(input, p);
    hide PoolTotal, PlaceUniform, DecisionFor, StateBefore, PoolsOf, LevelGain, PR.InventoryMap, PoolCurrent, Unplanned,
      FreshFds.NodesDisjoint;
    UnplannedBefore(input, p);
    UnplannedTotal(s, l, p);
    UniformTotal(s, l, p, d.level, d.chosen);
    TotalAfterOwnPlacement(input, p);
  }

  /** Once applied, the next plan for the same target advises a shrink exactly when that gain exceeds it by the cap. */
  lemma NextShrinkExact(first: Input, second: Input, naming: string -> string, p: PoolKind)
    requires PlanCapacity(first).Feasible() && UniqueNames(first.drives) && NonNegativeDrives(first.drives)
    requires DecisionFor(first, p).Place?
    requires second.desired.raw == first.desired.raw && second.cons == first.cons
    requires second.drives == Applied(first.drives, PlanCapacity(first), naming)
    ensures PoolCurrent(second.drives, p) == PoolCurrent(first.drives, p) + GainOf(first, p)
    ensures p in PlanCapacity(second).notes.shrink <==>
      Checked(second) && OverProvisioned(PoolCurrent(first.drives, p) + GainOf(first, p), first.desired.raw.Of(p),
        first.cons)
  {
    hide PlanCapacity, PoolTotal, Applied, DecisionFor, StateBefore, After, Checked, PoolCurrent, PR.InventoryMap,
      GainOf, OverProvisioned, PoolsOf;
    PlanShrink(second, p);
    AppliedPool(first, naming, p);
    TotalAfterOwnPlacement(first, p);
    PlacedTotal(first, p);
  }
}
