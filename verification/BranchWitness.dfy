/** The t0 branch in a planned pool: what is really left in it at the two sites. */
module BranchWitness {
  import opened Arith
  import opened Model
  import opened Ledgers
  import opened Placement
  import opened FreshFds
  import opened PoolDecision
  import opened PoolPlanner
  import opened AutoMode
  import opened AutoTheorems
  import opened WitnessSites
  import UI = UniformIncrease

  /** The average of a single container. */
  lemma OneAverage(c: ExistingContainer)
    requires c.caps.tlc > 0
    ensures PoolAverage([c], TLC) == c.caps.tlc && PoolCurrent([c], TLC) == c.caps.tlc
  {
    var e := [c];
    assert e[..0] == [] && PoolCount(e[..0], TLC) == 0 && PoolPositive(e[..0], TLC) == 0;
    assert PoolCurrent(e[..0], TLC) == 0;
  }

  /** With one container large enough against the chunk there is no fallback: the pool is planned by an increase. */
  lemma PlannedByIncrease(s: Site, l: Ledger, c: ExistingContainer, desired: int)
    requires Tracks(s, l) && s.existing == [c] && c.caps.tlc > 0 && c.fdValue != "" && s.cons == CONS
    requires desired > c.caps.tlc && Max(384, CeilDiv(desired - c.caps.tlc, 5)) < 4 * c.caps.tlc
    ensures DecidePool(s, l, TLC, desired, 5, 0) == IncreaseDecision(s, l, TLC, desired, 5)
  {
    OneAverage(c);
    OneDrive(c, TLC);
    hide PoolAverage, PoolCurrent, PoolFds, IncreaseDecision, FreshDecision;
  }

  lemma PlacedLedger(s: Site, l: Ledger, desired: int)
    requires Tracks(s, l) && DecidePool(s, l, TLC, desired, 5, 0) == IncreaseDecision(s, l, TLC, desired, 5)
    requires IncreaseDecision(s, l, TLC, desired, 5).Place?
    ensures var d := IncreaseDecision(s, l, TLC, desired, 5);
      AllOnSite(s, d.chosen) && PlanPool(s, PoolState(l, NO_NOTES), TLC, desired, 5, 0).ledger == After(s, l, TLC, d)
  {
    ChosenOnSite(s, l, TLC, desired, 5, 0);
    hide DecidePool, IncreaseDecision, PlaceUniform, Feasibility;
  }

  /** A pool planned by the t0 branch ends with what it held plus the new failure domains. */
  lemma BranchTotal(s: Site, l: Ledger, desired: int, k: nat, level: nat, total: int)
    requires Tracks(s, l) && AutoSite(s) && Unplanned(s, l, TLC)
    requires DecidePool(s, l, TLC, desired, 5, 0) == IncreaseDecision(s, l, TLC, desired, 5)
    requires UI.Decide(IncreaseFor(s, l, TLC, desired, 5)) == UI.CreateAtT0(k, level, total)
    ensures PoolTotal(s, PlanPool(s, PoolState(l, NO_NOTES), TLC, desired, 5, 0).ledger, TLC) ==
      PoolCurrent(s.existing, TLC) + k * level
  {
    UI.DecideFacts(IncreaseFor(s, l, TLC, desired, 5));
    PlacedLedger(s, l, desired);
    hide UI.Decide, DecidePool, SpareGroups, TakeFresh, AutoSite, Unplanned, PoolTotal, PlanPool, PlaceUniform,
      PoolCurrent, Reaches, PoolFds, MinFdCap, MaxFdCap, PoolAverage, CountAtLeast, NoRollback, AllOnSite;
    PlaceSpare(s, l, TLC, k, level);
  }

  /** The same on a site with one container, from its opening ledger. */
  lemma OnePlanned(s: Site, c: ExistingContainer, desired: int, k: nat, level: nat, total: int)
    requires Tracks(s, Opening(s.inv)) && AutoSite(s) && s.existing == [c] && c.caps.tlc > 0 && c.fdValue != ""
    requires s.cons == CONS && desired > c.caps.tlc && Max(384, CeilDiv(desired - c.caps.tlc, 5)) < 4 * c.caps.tlc
    requires UI.Decide(IncreaseFor(s, Opening(s.inv), TLC, desired, 5)) == UI.CreateAtT0(k, level, total)
    ensures PoolTotal(s, PlanPool(s, PoolState(Opening(s.inv), NO_NOTES), TLC, desired, 5, 0).ledger, TLC) ==
      c.caps.tlc + k * level
  {
    hide Opening, UI.Decide, IncreaseFor, DecidePool, AutoSite, Unplanned, PoolTotal, PlanPool, PoolCurrent,
      PoolAverage, IncreaseDecision;
    OpeningUnplanned(s, TLC);
    OneAverage(c);
    PlannedByIncrease(s, Opening(s.inv), c, desired);
    BranchTotal(s, Opening(s.inv), desired, k, level, total);
  }

  lemma FleetIs(held: int, free: int, spare: int)
    ensures var s := OneOfFive(held, free, spare);
      && Tracks(s, Opening(s.inv)) && s.existing == [ExistingContainer("x", "e", "e", Caps(held, 0), 1, false)]
      && s.cons == CONS && "e" != ""
  {
  }

  /** Planning the pool of `DefensiveBranchReached` leaves 5000 GiB, one more than asked for. */
  lemma BranchReaches()
    ensures var s := OneOfFive(1000, 0, 1000);
      && Tracks(s, Opening(s.inv))
      && PoolTotal(s, PlanPool(s, PoolState(Opening(s.inv), NO_NOTES), TLC, 4999, 5, 0).ledger, TLC) == 5000
  {
    FleetIs(1000, 0, 1000);
    FleetIsAuto(1000, 0, 1000);
    DefensiveBranchReached();
    hide Opening, OneOfFive, UI.Decide, IncreaseFor, AutoSite, PoolTotal, PlanPool, UI.WholeChunks;
    var s := OneOfFive(1000, 0, 1000);
    OnePlanned(s, ExistingContainer("x", "e", "e", Caps(1000, 0), 1, false), 4999, 4, 1000, 5000);
  }

  /** Planning the pool of `DefensiveBranchShort` leaves 1636 of the 1920 GiB asked for. */
  lemma BranchFallsShort()
    ensures var s := OneOfFive(100, 500, 384);
      && Tracks(s, Opening(s.inv))
      && PoolTotal(s, PlanPool(s, PoolState(Opening(s.inv), NO_NOTES), TLC, 1920, 5, 0).ledger, TLC) == 1636
  {
    FleetIs(100, 500, 384);
    FleetIsAuto(100, 500, 384);
    DefensiveBranchShort();
    hide Opening, OneOfFive, UI.Decide, IncreaseFor, AutoSite, PoolTotal, PlanPool, UI.ExistingReach;
    var s := OneOfFive(100, 500, 384);
    OnePlanned(s, ExistingContainer("x", "e", "e", Caps(100, 0), 1, false), 1920, 4, 384, 1920);
  }
}
