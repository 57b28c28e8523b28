/** planPool and the two-pool sequence: place what was decided, then verify what was actually placed. */
module PoolPlanner {
  import opened Arith
  import opened Model
  import opened NodeBudget
  import opened Ledgers
  import opened Placement
  import opened Deadband
  import opened PoolDecision
  import FreshFds
  import Sums

  datatype OverProvision = OverProvision(pool: PoolKind, excess: int)

  /** Findings of a run; a later infeasibility replaces an earlier one. */
  datatype Notes = Notes(
    infeasible: Option<Report>,
    shrink: seq<PoolKind>,
    overProvisions: seq<OverProvision>,
    abandoned: seq<PoolKind>)

  datatype PoolState = PoolState(ledger: Ledger, notes: Notes)

  const NO_NOTES := Notes(None, [], [], [])

  // ----- feasibility of what was placed -----

  /** Existing capacity that counts toward coverage; fresh-only routes leave out the pool's own old containers. */
  function CountedSum(existing: seq<ExistingContainer>, l: Ledger, p: PoolKind, freshOnly: bool): int {
    if existing == [] then 0 else
      var c := existing[|existing| - 1];
      CountedSum(existing[..|existing| - 1], l, p, freshOnly) +
      if freshOnly && c.caps.Of(p) > 0 && c.fdValue != "" then 0 else FinalCap(l, c, p)
  }

  ghost function Shortfall(s: Site, l: Ledger, p: PoolKind, desired: int, freshOnly: bool): int {
    Max(0, CoverTarget(desired, s.cons) - (CountedSum(s.existing, l, p, freshOnly) +
      Sums.Total(PoolView(l.created, p))))
  }

  ghost function Feasibility(s: Site, l: Ledger, p: PoolKind, desired: int, minFd: int,
    freshOnly: bool): Option<Report> {
    var shortfall := Shortfall(s, l, p, desired, freshOnly);
    if shortfall > 0 then Some(Report(DrivePool(p), DriveCapacity, shortfall))
    else if |CarryingFds(s, l, p)| < minFd then Some(Report(DrivePool(p), FailureDomains, 0))
    else None
  }

  ghost function Realized(s: Site, st: PoolState, p: PoolKind, desired: int, minFd: int, level: nat,
      chosen: seq<FdGroup>, route: Route): PoolState
    requires Tracks(s, st.ledger) && AllOnSite(s, chosen)
  {
    var l := PlaceUniform(s, st.ledger, p, level, chosen);
    var verdict := Feasibility(s, l, p, desired, minFd, route.FreshRoute?);
    var infeasible := if verdict.Some? then verdict else st.notes.infeasible;
    var n := st.notes.(infeasible := infeasible);
    PoolState(l,
      if infeasible.Some? then n
      else if route.FreshRoute? && route.fallback then n.(abandoned := n.abandoned + [p])
      else if route.IncreaseRoute? && route.predicted > desired then
        n.(overProvisions := n.overProvisions + [OverProvision(p, route.predicted - desired)])
      else n)
  }

  ghost function PlanPool(s: Site, st: PoolState, p: PoolKind, desired: int, minFd: int,
    targetFds: int): (st': PoolState)
    requires Tracks(s, st.ledger)
    ensures Tracks(s, st'.ledger)
  {
    ChosenOnSite(s, st.ledger, p, desired, minFd, targetFds);
    match DecidePool(s, st.ledger, p, desired, minFd, targetFds)
    case Keep => st
    case Shrink => st.(notes := st.notes.(shrink := st.notes.shrink + [p]))
    case Reject(report) => st.(notes := st.notes.(infeasible := Some(report)))
    case Place(level, chosen, route) => Realized(s, st, p, desired, minFd, level, chosen, route)
  }

  // ----- both pools -----

  /** Nodes that can host the pool; an ineligible one counts only if it already does. */
  function CapableNodes(s: Site, p: PoolKind): set<string> {
    set n | n in s.inv && s.inv[n].drives.Of(p) > 0 &&
            (s.inv[n].ineligibleReason == "" || n in FreshFds.PoolNodeUsed(s.existing, p))
  }

  /** The more constrained pool goes first; a tie keeps TLC first. */
  function FirstPool(s: Site, raw: Caps): PoolKind {
    if raw.tlc > 0 && raw.qlc > 0 && |CapableNodes(s, QLC)| < |CapableNodes(s, TLC)| then QLC else TLC
  }

  ghost function PlanPools(s: Site, raw: Caps, minFd: int, targets: Caps): (st: PoolState)
    ensures Tracks(s, st.ledger)
  {
    var p := FirstPool(s, raw);
    var q := p.Other();
    var st := PlanPool(s, PoolState(Opening(s.inv), NO_NOTES), p, raw.Of(p), minFd, targets.Of(p));
    PlanPool(s, st, q, raw.Of(q), minFd, targets.Of(q))
  }

  // ----- what planning a pool keeps -----

  lemma PlanPoolKeeps(s: Site, st: PoolState, p: PoolKind, desired: int, minFd: int, targetFds: int)
    requires Tracks(s, st.ledger) && UniqueNames(s.existing)
    ensures var st' := PlanPool(s, st, p, desired, minFd, targetFds);
      && Extends(s, p, st.ledger, st'.ledger)
      && (st.notes.infeasible.Some? ==> st'.notes.infeasible.Some?)
      && (PricedConstraints(s.cons) && AllNonNegative(st.ledger) ==> AllNonNegative(st'.ledger))
  {
    ChosenOnSite(s, st.ledger, p, desired, minFd, targetFds);
    var d := DecidePool(s, st.ledger, p, desired, minFd, targetFds);
    hide DecidePool, PlaceUniform, Feasibility;
    if d.Place? { PlaceUniformKeeps(s, st.ledger, p, d.level, d.chosen); }
  }

  /** Pool p has not been planned yet: records hold what containers hold today. */
  ghost predicate Unplanned(s: Site, l: Ledger, p: PoolKind) {
    && (forall c :: c in s.existing ==> FinalCap(l, c, p) == c.caps.Of(p))
    && forall n :: CreatedCap(l, n, p) == 0
  }

  lemma UnplannedKept(s: Site, l: Ledger, l': Ledger, p: PoolKind)
    requires Extends(s, p.Other(), l, l') && Unplanned(s, l, p)
    ensures Unplanned(s, l', p)
  {
    assert p.Other().Other() == p;
    forall n ensures CreatedCap(l', n, p) == 0 { assert CreatedCap(l, n, p) == 0; }
  }

  lemma {:induction false} SumUnplanned(existing: seq<ExistingContainer>, l: Ledger, p: PoolKind)
    requires forall c :: c in existing ==> FinalCap(l, c, p) == c.caps.Of(p)
    ensures SumFinal(existing, l, p) == PoolCurrent(existing, p)
  {
    if existing != [] { SumUnplanned(existing[..|existing| - 1], l, p); }
  }

  lemma UnplannedTotal(s: Site, l: Ledger, p: PoolKind)
    requires Unplanned(s, l, p)
    ensures PoolTotal(s, l, p) == PoolCurrent(s.existing, p)
  {
    SumUnplanned(s.existing, l, p);
    forall n | n in l.created ensures PoolView(l.created, p)[n] == 0 { assert CreatedCap(l, n, p) == 0; }
    Sums.TotalPadded(map[], PoolView(l.created, p));
  }

  lemma {:induction false} CountedWithinTotal(existing: seq<ExistingContainer>, l: Ledger, p: PoolKind, freshOnly: bool)
    requires forall c :: c in existing ==> FinalCap(l, c, p) >= 0
    ensures CountedSum(existing, l, p, freshOnly) <= SumFinal(existing, l, p)
    ensures !freshOnly ==> CountedSum(existing, l, p, freshOnly) == SumFinal(existing, l, p)
  {
    if existing != [] { CountedWithinTotal(existing[..|existing| - 1], l, p, freshOnly); }
  }

  /** A pool that passes its feasibility check is not short and spans enough failure domains. */
  lemma FeasibleMeansCovered(s: Site, l: Ledger, p: PoolKind, desired: int, minFd: int, freshOnly: bool)
    requires Feasibility(s, l, p, desired, minFd, freshOnly).None?
    requires forall c :: c in s.existing ==> FinalCap(l, c, p) >= 0
    ensures !CapacityShort(PoolTotal(s, l, p), desired, s.cons) && |CarryingFds(s, l, p)| >= minFd
  {
    CountedWithinTotal(s.existing, l, p, freshOnly);
    CoverTargetIsBoundary(PoolTotal(s, l, p), desired, s.cons);
  }

  /** The pool's target is met, and if it was short to begin with enough failure domains carry it. */
  ghost predicate Covered(s: Site, l: Ledger, p: PoolKind, desired: int, minFd: int) {
    desired > 0 ==>
      && !CapacityShort(PoolTotal(s, l, p), desired, s.cons)
      && (CapacityShort(PoolCurrent(s.existing, p), desired, s.cons) ==> |CarryingFds(s, l, p)| >= minFd)
  }

  lemma PlanPoolCovers(s: Site, st: PoolState, p: PoolKind, desired: int, minFd: int, targetFds: int)
    requires Tracks(s, st.ledger) && UniqueNames(s.existing) && NonNegativeDrives(s.existing)
    requires Unplanned(s, st.ledger, p)
    requires PlanPool(s, st, p, desired, minFd, targetFds).notes.infeasible.None?
    ensures Covered(s, PlanPool(s, st, p, desired, minFd, targetFds).ledger, p, desired, minFd)
  {
    if desired > 0 {
      ChosenOnSite(s, st.ledger, p, desired, minFd, targetFds);
      PlanPoolKeeps(s, st, p, desired, minFd, targetFds);
      DecisionWhenShort(s, st.ledger, p, desired, minFd, targetFds);
      var d := DecidePool(s, st.ledger, p, desired, minFd, targetFds);
      hide DecidePool, PlaceUniform, Feasibility;
      var l' := PlanPool(s, st, p, desired, minFd, targetFds).ledger;
      if d.Place? {
        FeasibleMeansCovered(s, l', p, desired, minFd, d.route.FreshRoute?);
      } else {
        UnplannedTotal(s, st.ledger, p);
      }
    }
  }

  /** A pool is left alone exactly when it is not short. */
  lemma DecisionWhenShort(s: Site, l: Ledger, p: PoolKind, desired: int, minFd: int, targetFds: int)
    requires Tracks(s, l) && desired > 0
    ensures var d := DecidePool(s, l, p, desired, minFd, targetFds);
      d.Place? || d.Reject? <==> CapacityShort(PoolCurrent(s.existing, p), desired, s.cons)
  {
    CoverTargetIsBoundary(PoolCurrent(s.existing, p), desired, s.cons);
  }

  lemma OpeningUnplanned(s: Site, p: PoolKind)
    ensures Unplanned(s, Opening(s.inv), p)
  {
  }

  /** Coverage: in every feasible outcome both pools meet their targets, the second never undoing the first. */
  lemma PoolsCovered(s: Site, raw: Caps, minFd: int, targets: Caps, p: PoolKind)
    requires UniqueNames(s.existing) && NonNegativeDrives(s.existing)
    requires PlanPools(s, raw, minFd, targets).notes.infeasible.None?
    ensures Covered(s, PlanPools(s, raw, minFd, targets).ledger, p, raw.Of(p), minFd)
  {
    var a := FirstPool(s, raw);
    var b := a.Other();
    var st0 := PoolState(Opening(s.inv), NO_NOTES);
    var st1 := PlanPool(s, st0, a, raw.Of(a), minFd, targets.Of(a));
    OpeningUnplanned(s, a);
    OpeningUnplanned(s, b);
    PlanPoolKeeps(s, st0, a, raw.Of(a), minFd, targets.Of(a));
    PlanPoolKeeps(s, st1, b, raw.Of(b), minFd, targets.Of(b));
    UnplannedKept(s, st0.ledger, st1.ledger, b);
    var st2 := PlanPool(s, st1, b, raw.Of(b), minFd, targets.Of(b));
    PlanPoolCovers(s, st0, a, raw.Of(a), minFd, targets.Of(a));
    PlanPoolCovers(s, st1, b, raw.Of(b), minFd, targets.Of(b));
    OtherPoolUndisturbed(s, b, st1.ledger, st2.ledger);
    hide PlanPool, PoolTotal, CarryingFds;
    assert p == a || p == b;
  }
}
