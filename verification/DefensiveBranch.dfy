/** The branch of the uniform increase that the source calls unreachable, in terms of the planner's own input. */
module DefensiveBranch {
  import opened Arith
  import opened Model
  import opened Ledgers
  import opened NodeBudget
  import opened Placement
  import opened Ordering
  import opened PoolDecision
  import opened PoolPlanner
  import opened AutoMode
  import opened AutoTheorems
  import UI = UniformIncrease

  /** Every existing container is scheduled on a known node, with a failure domain and some capacity. */
  ghost predicate WellFormedDrives(s: Site, existing: seq<ExistingContainer>) {
    forall c :: c in existing ==> WellFormedDrive(s, c)
  }

  /** Every failure domain of the pool holds at least one whole chunk. */
  ghost predicate WholeChunkFds(s: Site, p: PoolKind) {
    && s.cons.minChunk > 0
    && forall fd :: fd in PoolFds(s.existing, p) ==> FdCap(s.existing, fd, p) >= s.cons.minChunk
  }

  lemma {:induction false} ExtremesBound(existing: seq<ExistingContainer>, fds: seq<string>, p: PoolKind)
    requires forall i :: 0 <= i < |fds| ==> FdCap(existing, fds[i], p) > 0
    ensures forall i :: 0 <= i < |fds| ==>
      0 < MinFdCap(existing, fds, p) <= FdCap(existing, fds[i], p) <= MaxFdCap(existing, fds, p)
    ensures fds == [] ==> MinFdCap(existing, fds, p) == MaxFdCap(existing, fds, p) == 0
    ensures 0 <= MinFdCap(existing, fds, p) <= MaxFdCap(existing, fds, p)
  {
    if fds != [] {
      hide FdCap;
      var init, last := fds[..|fds| - 1], fds[|fds| - 1];
      ExtremesBound(existing, init, p);
      assert init != [] ==>
        MinFdCap(existing, init, p) > 0 by { if init != [] { assert FdCap(existing, init[0], p) > 0; } }
      forall i | 0 <= i < |fds|
        ensures 0 < MinFdCap(existing, fds, p) <= FdCap(existing, fds[i], p) <= MaxFdCap(existing, fds, p)
      {
        if i < |init| { assert fds[i] == init[i]; }
      }
    }
  }

  // ----- the figures of the failure domains, with any number of hosts -----

  lemma {:induction false} PoolFdsAre(existing: seq<ExistingContainer>, p: PoolKind)
    ensures Distinct(PoolFds(existing, p))
    ensures forall fd :: fd in PoolFds(existing, p) <==> fd != "" && FdCap(existing, fd, p) > 0
  {
    if existing != [] {
      var init, c := existing[..|existing| - 1], existing[|existing| - 1];
      PoolFdsAre(init, p);
      forall fd ensures fd in PoolFds(existing, p) <==> fd != "" && FdCap(existing, fd, p) > 0 {
        FdCapNonNegative(init, fd, p);
      }
    }
  }

  lemma {:induction false} PlacedFdsAre(s: Site, existing: seq<ExistingContainer>)
    requires WellFormedDrives(s, existing)
    ensures Distinct(PlacedFds(s, existing))
    ensures forall c :: c in existing ==> c.fdValue in PlacedFds(s, existing)
  {
    if existing != [] {
      var init, c := existing[..|existing| - 1], existing[|existing| - 1];
      assert existing == init + [c] && WellFormedDrive(s, c);
      PlacedFdsAre(s, init);
    }
  }

  /** What a failure domain holds is the same in the reach table and in the per-domain sums. */
  lemma {:induction false} ReachCap(s: Site, l: Ledger, existing: seq<ExistingContainer>, fd: string, p: PoolKind)
    requires Tracks(s, l) && WellFormedDrives(s, existing)
    ensures FdReach(s, l, existing, fd, p).cap == FdCap(existing, fd, p)
  {
    hide HeadroomBinding;
    if existing != [] {
      var c := existing[|existing| - 1];
      assert c in existing && WellFormedDrive(s, c);
      ReachCap(s, l, existing[..|existing| - 1], fd, p);
    }
  }

  function SumFdCaps(existing: seq<ExistingContainer>, fds: seq<string>, p: PoolKind): int {
    if fds == [] then 0 else SumFdCaps(existing, fds[..|fds| - 1], p) + FdCap(existing, fds[|fds| - 1], p)
  }

  /** One more container raises the sum over distinct failure domains by its capacity, if its own is among them. */
  lemma {:induction false} SumNext(existing: seq<ExistingContainer>, c: ExistingContainer, fds: seq<string>,
      p: PoolKind)
    requires Distinct(fds)
    ensures SumFdCaps(existing + [c], fds, p) ==
      SumFdCaps(existing, fds, p) + if c.fdValue in fds then Max(0, c.caps.Of(p)) else 0
  {
    if fds != [] {
      var init, last := fds[..|fds| - 1], fds[|fds| - 1];
      assert fds == init + [last];
      SumNext(existing, c, init, p);
      assert (existing + [c])[..|existing|] == existing;
    }
  }

  lemma {:induction false} SumEmpty(fds: seq<string>, p: PoolKind)
    ensures SumFdCaps([], fds, p) == 0
  {
    if fds != [] { SumEmpty(fds[..|fds| - 1], p); }
  }

  /** Distinct failure domains that include every container's add up to the pool. */
  lemma {:induction false} SumIsCurrent(existing: seq<ExistingContainer>, fds: seq<string>, p: PoolKind)
    requires Distinct(fds) && forall c :: c in existing ==> c.fdValue in fds && c.caps.Of(p) >= 0
    ensures SumFdCaps(existing, fds, p) == PoolCurrent(existing, p)
  {
    if existing == [] {
      SumEmpty(fds, p);
    } else {
      var init, c := existing[..|existing| - 1], existing[|existing| - 1];
      assert existing == init + [c];
      SumIsCurrent(init, fds, p);
      SumNext(init, c, fds, p);
    }
  }

  ghost function Carriers(existing: seq<ExistingContainer>, fds: seq<string>, p: PoolKind): set<string> {
    set fd | fd in fds && FdCap(existing, fd, p) > 0
  }

  lemma CarriersNext(existing: seq<ExistingContainer>, init: seq<string>, last: string, p: PoolKind)
    requires last !in init
    ensures |Carriers(existing, init + [last], p)| ==
      |Carriers(existing, init, p)| + if FdCap(existing, last, p) > 0 then 1 else 0
  {
    hide FdCap;
    var more := if FdCap(existing, last, p) > 0 then {last} else {};
    assert Carriers(existing, init + [last], p) == Carriers(existing, init, p) + more;
  }

  /** The reach table of a list of distinct failure domains: its sum, and how many carry the pool. */
  lemma {:induction false} TableFigures(existing: seq<ExistingContainer>, fds: seq<string>, rs: seq<UI.Reach>,
      p: PoolKind)
    requires |rs| == |fds| && Distinct(fds) && forall i :: 0 <= i < |fds| ==> rs[i].cap == FdCap(existing, fds[i], p)
    ensures UI.CapSum(rs) == SumFdCaps(existing, fds, p) && UI.Carrying(rs) == |Carriers(existing, fds, p)|
  {
    hide FdCap;
    if fds == [] {
      assert Carriers(existing, fds, p) == {};
    } else {
      hide Carriers;
      var init, last := fds[..|fds| - 1], fds[|fds| - 1];
      assert fds == init + [last] && last !in init;
      TableFigures(existing, init, rs[..|rs| - 1], p);
      CarriersNext(existing, init, last, p);
    }
  }

  lemma CarriersAre(s: Site, p: PoolKind)
    requires WellFormedDrives(s, s.existing)
    ensures |Carriers(s.existing, PlacedFds(s, s.existing), p)| == |PoolFds(s.existing, p)|
  {
    var e, fds, pool := s.existing, PlacedFds(s, s.existing), PoolFds(s.existing, p);
    PoolFdsAre(e, p);
    PlacedFdsAre(s, e);
    DistinctCount(pool);
    hide FdCap, PoolFds, PlacedFds;
    forall fd ensures fd in Carriers(e, fds, p) <==> fd in Elems(pool) {
      if FdCap(e, fd, p) > 0 { CarrierPlaced(s, e, fd, p); }
    }
    assert Carriers(e, fds, p) == Elems(pool);
  }

  lemma {:induction false} CarrierPlaced(s: Site, existing: seq<ExistingContainer>, fd: string, p: PoolKind)
    requires WellFormedDrives(s, existing) && FdCap(existing, fd, p) > 0
    ensures fd != "" && fd in PlacedFds(s, existing)
  {
    var init, c := existing[..|existing| - 1], existing[|existing| - 1];
    assert existing == init + [c] && WellFormedDrive(s, c);
    if c.fdValue != fd || c.caps.Of(p) <= 0 { CarrierPlaced(s, init, fd, p); }
  }

  /** A failure domain of the pool holds at least the uniform level t0. */
  lemma HeldAtLeastT0(s: Site, p: PoolKind, fd: string)
    requires WholeChunkFds(s, p) && fd in PoolFds(s.existing, p)
    ensures FdCap(s.existing, fd, p) >= Max(s.cons.minChunk, MinFdCap(s.existing, PoolFds(s.existing, p), p))
  {
    var fds := PoolFds(s.existing, p);
    PoolFdsAre(s.existing, p);
    hide FdCap, PoolFds, MinFdCap, MaxFdCap;
    forall i | 0 <= i < |fds| ensures FdCap(s.existing, fds[i], p) > 0 { assert fds[i] in fds; }
    ExtremesBound(s.existing, fds, p);
    var i :| 0 <= i < |fds| && fds[i] == fd;
  }

  lemma ExtremesOrdered(s: Site, p: PoolKind)
    ensures var fds := PoolFds(s.existing, p);
      0 <= MinFdCap(s.existing, fds, p) <= MaxFdCap(s.existing, fds, p)
  {
    var fds := PoolFds(s.existing, p);
    PoolFdsAre(s.existing, p);
    hide FdCap, PoolFds, MinFdCap, MaxFdCap;
    forall i | 0 <= i < |fds| ensures FdCap(s.existing, fds[i], p) > 0 { assert fds[i] in fds; }
    ExtremesBound(s.existing, fds, p);
  }

  lemma ReachesHeld(s: Site, l: Ledger, p: PoolKind, i: nat)
    requires Tracks(s, l) && WellFormedDrives(s, s.existing) && WholeChunkFds(s, p) && i < |Reaches(s, l, p)|
    ensures var cap := Reaches(s, l, p)[i].cap;
      && i < |PlacedFds(s, s.existing)| && cap == FdCap(s.existing, PlacedFds(s, s.existing)[i], p) >= 0
      && (cap > 0 ==> cap >= Max(s.cons.minChunk, MinFdCap(s.existing, PoolFds(s.existing, p), p)))
  {
    var e, fd := s.existing, PlacedFds(s, s.existing)[i];
    ReachCap(s, l, e, fd, p);
    FdCapNonNegative(e, fd, p);
    PoolFdsAre(e, p);
    hide FdCap, PoolFds, MinFdCap, FdReach, PlacedFds;
    if FdCap(e, fd, p) > 0 {
      CarrierPlaced(s, e, fd, p);
      HeldAtLeastT0(s, p, fd);
    }
  }

  lemma ReachesFigures(s: Site, l: Ledger, p: PoolKind)
    requires Tracks(s, l) && WellFormedDrives(s, s.existing)
    ensures UI.CapSum(Reaches(s, l, p)) == PoolCurrent(s.existing, p)
    ensures UI.Carrying(Reaches(s, l, p)) == |PoolFds(s.existing, p)|
  {
    var e, fds, rs := s.existing, PlacedFds(s, s.existing), Reaches(s, l, p);
    PlacedFdsAre(s, e);
    CarriersAre(s, p);
    forall i | 0 <= i < |fds| ensures rs[i].cap == FdCap(e, fds[i], p) { ReachCap(s, l, e, fds[i], p); }
    forall c | c in e ensures c.caps.Of(p) >= 0 { assert WellFormedDrive(s, c); }
    hide FdCap, FdReach, PlacedFds, PoolFds, PoolCurrent, SumFdCaps, Carriers, Reaches;
    TableFigures(e, fds, rs, p);
    SumIsCurrent(e, fds, p);
  }

  /** The hypotheses of the arithmetic lemmas hold of the figures the planner actually computes. */
  lemma FiguresAreWhole(s: Site, l: Ledger, p: PoolKind, desired: int, minFd: int)
    requires Tracks(s, l) && WellFormedDrives(s, s.existing) && WholeChunkFds(s, p)
    ensures var inc := IncreaseFor(s, l, p, desired, minFd);
      UI.WholeChunks(inc) && inc.numExisting == UI.Carrying(inc.reaches) && inc.current >= 0
  {
    var inc := IncreaseFor(s, l, p, desired, minFd);
    ReachesFigures(s, l, p);
    ExtremesOrdered(s, p);
    hide SpareGroups, Reaches, PoolFds, FdCap, MinFdCap, MaxFdCap, PoolAverage, PlacedFds, PoolCurrent, UI.CapSum,
      UI.Carrying, WellFormedDrives;
    forall i | 0 <= i < |inc.reaches|
      ensures inc.reaches[i].cap >= 0 && (inc.reaches[i].cap > 0 ==> inc.reaches[i].cap >= inc.t0)
    {
      ReachesHeld(s, l, p, i);
    }
    CapSumNonNegative(inc.reaches);
  }

  lemma {:induction false} CapSumNonNegative(rs: seq<UI.Reach>)
    requires UI.NoneNegative(rs)
    ensures UI.CapSum(rs) >= 0
  {
    if rs != [] { CapSumNonNegative(rs[..|rs| - 1]); }
  }

  lemma {:induction false} FdCapNonNegative(existing: seq<ExistingContainer>, fd: string, p: PoolKind)
    ensures FdCap(existing, fd, p) >= 0
  {
    if existing != [] { FdCapNonNegative(existing[..|existing| - 1], fd, p); }
  }

  lemma {:induction false} MinFdCapNonNegative(existing: seq<ExistingContainer>, fds: seq<string>, p: PoolKind)
    ensures MinFdCap(existing, fds, p) >= 0
  {
    if fds != [] {
      MinFdCapNonNegative(existing, fds[..|fds| - 1], p);
      FdCapNonNegative(existing, fds[|fds| - 1], p);
      hide FdCap;
    }
  }

  /**
   * On every site the planner enters that branch exactly when the create-new loop finds no count although
   * some final count is feasible at level t0.
   */
  lemma EnteredExactly(s: Site, l: Ledger, p: PoolKind, desired: int, minFd: int)
    requires Tracks(s, l)
    ensures var inc := IncreaseFor(s, l, p, desired, minFd);
      UI.Decide(inc).CreateAtT0? <==> UI.EvenCount(inc).None? && UI.T0Count(inc)
  {
    MinFdCapNonNegative(s.existing, PoolFds(s.existing, p), p);
    hide SpareGroups, Reaches, PoolFds, MinFdCap, MaxFdCap, PoolAverage, UI.EvenCount, UI.T0Count, UI.Decide;
    UI.DefensiveBranchExact(IncreaseFor(s, l, p, desired, minFd));
  }

  /**
   * In auto mode an increase realizes exactly what it predicts, unless the create-new loop finds no count, some count
   * is feasible at level t0 and an existing failure domain is below t0; it never exceeds the prediction.
   */
  lemma IncreaseRealized(s: Site, l: Ledger, p: PoolKind, desired: int, minFd: int)
    requires Tracks(s, l) && AutoSite(s) && Unplanned(s, l, p)
    requires IncreaseDecision(s, l, p, desired, minFd).Place?
    ensures var inc, d := IncreaseFor(s, l, p, desired, minFd), IncreaseDecision(s, l, p, desired, minFd);
      && AllOnSite(s, d.chosen) && NoRollback(s, l, p, d.level, d.chosen)
      && (PoolTotal(s, After(s, l, p, d), p) == d.route.predicted <==>
           !(UI.EvenCount(inc).None? && UI.T0Count(inc)) || UI.AllAtLeast(inc.reaches, inc.t0))
      && PoolTotal(s, After(s, l, p, d), p) <= d.route.predicted
      && desired <= d.route.predicted <= desired + inc.overshoot
  {
    hide PoolTotal, AutoSite, Unplanned, UI.Decide, UI.EvenCount, UI.T0Count, UI.AllAtLeast, IncreaseDecision,
      IncreaseFor, NoRollback, After, AllOnSite;
    IncreaseExact(s, l, p, desired, minFd);
    EnteredExactly(s, l, p, desired, minFd);
  }

  /**
   * On any site whose failure domains hold whole chunks some count is feasible at t0 exactly when t0 exceeds
   * desired / minFd; with minFd failure domains in place the branch is never entered.
   */
  lemma EnteredWhole(s: Site, l: Ledger, p: PoolKind, desired: int, minFd: int)
    requires Tracks(s, l) && WellFormedDrives(s, s.existing) && WholeChunkFds(s, p)
    requires minFd > 0 && desired > PoolCurrent(s.existing, p)
    ensures var inc := IncreaseFor(s, l, p, desired, minFd);
      && (UI.Decide(inc).CreateAtT0? <==>
           UI.EvenCount(inc).None? && UI.GrowLevel(inc).Some? && inc.t0 > GoDiv(desired, minFd))
      && (minFd <= |PoolFds(s.existing, p)| ==> !UI.Decide(inc).CreateAtT0?)
  {
    FiguresAreWhole(s, l, p, desired, minFd);
    hide SpareGroups, Reaches, PoolFds, MinFdCap, MaxFdCap, PoolAverage, UI.EvenCount, UI.GrowLevel, UI.Decide,
      UI.WholeChunks, WellFormedDrives, WholeChunkFds;
    var inc := IncreaseFor(s, l, p, desired, minFd);
    UI.DefensiveBranchWhole(inc);
    if minFd <= inc.numExisting { UI.DefensiveBranchDead(inc); }
  }

  /**
   * In auto mode with whole chunks every uniform increase is exact: nothing is rolled back, and the pool
   * ends at the predicted total, between the target and the target plus the over-provision cap.
   */
  lemma WholeChunkIncrease(s: Site, l: Ledger, p: PoolKind, desired: int, minFd: int)
    requires Tracks(s, l) && AutoSite(s) && WholeChunkFds(s, p) && Unplanned(s, l, p)
    requires IncreaseDecision(s, l, p, desired, minFd).Place?
    ensures var inc, d := IncreaseFor(s, l, p, desired, minFd), IncreaseDecision(s, l, p, desired, minFd);
      && AllOnSite(s, d.chosen) && NoRollback(s, l, p, d.level, d.chosen)
      && PoolTotal(s, After(s, l, p, d), p) == d.route.predicted
      && desired <= PoolTotal(s, After(s, l, p, d), p) <= desired + inc.overshoot
  {
    FiguresAreWhole(s, l, p, desired, minFd);
    hide PoolTotal, AutoSite, Unplanned, UI.Decide, UI.AllAtLeast, IncreaseDecision, IncreaseFor, NoRollback, After,
      AllOnSite, UI.NoneNegative, UI.CapSum, WholeChunkFds;
    IncreaseExact(s, l, p, desired, minFd);
  }
}
