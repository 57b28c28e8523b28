/** Which way a short pool is planned, from which figures, and what is reported when it cannot be. */
module RouteTheorems {
  import opened Arith
  import opened Model
  import opened Ledgers
  import opened Placement
  import opened FreshFds
  import opened Deadband
  import opened PoolDecision
  import opened GrowthFloor
  import opened PinnedRecords
  import DB = DefensiveBranch
  import HugepageSizing
  import UI = UniformIncrease

  // ----- the figures of an increase -----

  /** The largest failure domain of the pool holds `high`. */
  ghost predicate LargestFd(existing: seq<ExistingContainer>, fds: seq<string>, p: PoolKind, high: int) {
    && (exists i :: 0 <= i < |fds| && FdCap(existing, fds[i], p) == high)
    && forall i :: 0 <= i < |fds| ==> FdCap(existing, fds[i], p) <= high
  }

  lemma {:induction false} MaxIsLargest(existing: seq<ExistingContainer>, fds: seq<string>, p: PoolKind)
    requires fds != [] && forall i :: 0 <= i < |fds| ==> FdCap(existing, fds[i], p) > 0
    ensures LargestFd(existing, fds, p, MaxFdCap(existing, fds, p))
  {
    hide FdCap;
    var init := fds[..|fds| - 1];
    if init != [] {
      MaxIsLargest(existing, init, p);
      var i :| 0 <= i < |init| && FdCap(existing, init[i], p) == MaxFdCap(existing, init, p);
      assert fds[i] == init[i];
    }
    assert FdCap(existing, fds[|fds| - 1], p) <= MaxFdCap(existing, fds, p);
  }

  /** The containers that carry the pool. */
  function Carrying(existing: seq<ExistingContainer>, p: PoolKind): seq<ExistingContainer> {
    if existing == [] then []
    else Carrying(existing[..|existing| - 1], p) +
         if existing[|existing| - 1].caps.Of(p) > 0 then [existing[|existing| - 1]] else []
  }

  lemma {:induction false} CarryingFigures(existing: seq<ExistingContainer>, p: PoolKind)
    ensures PoolCount(existing, p) == |Carrying(existing, p)|
    ensures PoolPositive(existing, p) == PoolCurrent(Carrying(existing, p), p) >= 0
  {
    if existing != [] {
      var init, last := existing[..|existing| - 1], existing[|existing| - 1];
      CarryingFigures(init, p);
      var all := Carrying(existing, p);
      if last.caps.Of(p) > 0 {
        assert all[..|all| - 1] == Carrying(init, p) && all[|all| - 1] == last;
      } else {
        assert all == Carrying(init, p);
      }
    }
  }

  /** The average of the containers that carry the pool, rounded down; zero when there are none. */
  ghost predicate AverageHeld(existing: seq<ExistingContainer>, p: PoolKind, average: int) {
    HugepageSizing.FloorOf(average, PoolCurrent(Carrying(existing, p), p), |Carrying(existing, p)|)
  }

  lemma AverageIs(existing: seq<ExistingContainer>, p: PoolKind, average: int)
    ensures AverageHeld(existing, p, average) <==> average == PoolAverage(existing, p)
  {
    CarryingFigures(existing, p);
    var sum, n := PoolCurrent(Carrying(existing, p), p), |Carrying(existing, p)|;
    hide Carrying, PoolCurrent, PoolCount, PoolPositive;
    if n > 0 {
      DivAdjoint(average, sum, n);
      DivAdjoint(average + 1, sum, n);
    }
  }

  /** What an increase works from: the extremes of the failure domains, floored at a chunk, and the average. */
  lemma IncreaseFigures(s: Site, l: Ledger, p: PoolKind, desired: int, minFd: int)
    requires Tracks(s, l) && PoolFds(s.existing, p) != []
    ensures var inc, e, fds := IncreaseFor(s, l, p, desired, minFd), s.existing, PoolFds(s.existing, p);
      && inc.current == PoolCurrent(e, p) && inc.numExisting == |fds| && inc.desired == desired && inc.minFd == minFd
      && (exists low :: SmallestFd(e, fds, p, low) && inc.t0 == Max(s.cons.minChunk, low))
      && (exists high :: LargestFd(e, fds, p, high) && inc.tmax == Max(s.cons.minChunk, high))
      && AverageHeld(e, p, inc.average) && inc.overshoot == Overshoot(desired, s.cons)
      && inc.spare == SpareGroups(s, l, p) && inc.reaches == Reaches(s, l, p) && inc.cons == s.cons
  {
    var e, fds := s.existing, PoolFds(s.existing, p);
    DB.PoolFdsAre(e, p);
    hide PoolFds, FdCap, SpareGroups, Reaches, PoolCurrent, MinFdCap, MaxFdCap, PoolAverage, AverageHeld, Overshoot;
    forall i | 0 <= i < |fds| ensures FdCap(e, fds[i], p) > 0 { assert fds[i] in fds; }
    MinIsSmallest(e, fds, p);
    MaxIsLargest(e, fds, p);
    AverageIs(e, p, PoolAverage(e, p));
    hide SmallestFd, LargestFd;
  }

  // ----- the route -----

  /** The least chunk of at least minChunk of which minFd cover the delta; minChunk alone without a minimum. */
  ghost predicate LeastChunk(chunk: int, delta: int, minFd: int, minChunk: int) {
    && chunk >= minChunk && chunk >= 0 && (minFd > 0 ==> minFd * chunk >= delta)
    && forall m: nat :: minChunk <= m < chunk ==> minFd > 0 && minFd * m < delta
  }

  lemma LeastChunkIs(chunk: int, delta: int, minFd: int, cons: Constraints)
    ensures LeastChunk(chunk, delta, minFd, cons.minChunk) <==> chunk == GrowChunk(delta, minFd, cons)
  {
    var c: nat := GrowChunk(delta, minFd, cons);
    if minFd > 0 {
      CeilDivAdjoint(delta, minFd, c);
      forall m: nat | cons.minChunk <= m < c ensures minFd * m < delta { CeilDivAdjoint(delta, minFd, m); }
      if chunk >= 0 { CeilDivAdjoint(delta, minFd, chunk); }
    }
    assert minFd * c >= delta || minFd <= 0;
  }

  /** An even chunk of what is missing is out of proportion to what the containers hold on average. */
  predicate OutOfProportion(chunk: int, average: int, cons: Constraints) {
    average > 0 && cons.imbalanceFactor > 0.0 && chunk as real >= average as real * cons.imbalanceFactor
  }

  /** Each of the first n candidates has room for c. */
  predicate FrontHolds(gs: seq<FdGroup>, n: nat, c: int) {
    n <= |gs| && forall i :: 0 <= i < n ==> gs[i].headroom >= c
  }

  lemma ShareIs(c: int, desired: int, n: nat, cons: Constraints)
    requires n >= 1
    ensures LeastChunk(c, desired, n, cons.minChunk) <==> c == UniformShare(desired, n, cons.minChunk)
  {
    LeastChunkIs(c, desired, n, cons);
  }

  lemma TilesIff(gs: seq<FdGroup>, desired: int, n: nat, cons: Constraints)
    requires n >= 1
    ensures TilesFirst(gs, desired, cons.minChunk, n) <==>
      exists c: int :: LeastChunk(c, desired, n, cons.minChunk) && FrontHolds(gs, n, c)
  {
    ShareIs(UniformShare(desired, n, cons.minChunk), desired, n, cons);
    forall c: int | LeastChunk(c, desired, n, cons.minChunk) ensures c == UniformShare(desired, n, cons.minChunk) {
      ShareIs(c, desired, n, cons);
    }
    hide LeastChunk, UniformShare;
    if TilesFirst(gs, desired, cons.minChunk, n) {
      assert FrontHolds(gs, n, UniformShare(desired, n, cons.minChunk));
    }
  }

  /** Some number of candidates of at least minFd, taken from the front, holds the target evenly. */
  ghost predicate CanStartAfresh(s: Site, l: Ledger, p: PoolKind, desired: int, minFd: int)
    requires Tracks(s, l)
  {
    exists n: nat, c: int ::
      && n >= Max(minFd, 1) && LeastChunk(c, desired, n, s.cons.minChunk) && FrontHolds(FreshGroups(s, l, p), n, c)
  }

  lemma FreshIff(s: Site, l: Ledger, p: PoolKind, desired: int, minFd: int, fallback: bool)
    requires Tracks(s, l)
    ensures FreshDecision(s, l, p, desired, minFd, fallback).Place? <==> CanStartAfresh(s, l, p, desired, minFd)
    ensures var d := FreshDecision(s, l, p, desired, minFd, fallback);
      && (d.Place? ==> d.route == FreshRoute(fallback)) && (d.Place? || d.Reject?)
  {
    var gs := FreshGroups(s, l, p);
    hide FreshGroups, PickColocated, UniformShortfall, UniformShare, TilesFirst, LeastChunk;
    forall n: nat | n >= 1
      ensures TilesFirst(gs, desired, s.cons.minChunk, n) <==>
        exists c: int :: LeastChunk(c, desired, n, s.cons.minChunk) && FrontHolds(gs, n, c)
    {
      TilesIff(gs, desired, n, s.cons);
    }
    if n: nat, c: int :| n >= Max(minFd, 1) && LeastChunk(c, desired, n, s.cons.minChunk) && FrontHolds(gs, n, c) {
      assert TilesFirst(gs, desired, s.cons.minChunk, n);
    }
  }

  /** A pool started afresh takes the level that is the least of at least a chunk at which its picks hold the target. */
  lemma FreshLevel(s: Site, l: Ledger, p: PoolKind, desired: int, minFd: int, fallback: bool)
    requires Tracks(s, l) && FreshDecision(s, l, p, desired, minFd, fallback).Place?
    ensures var d := FreshDecision(s, l, p, desired, minFd, fallback);
      |d.chosen| >= Max(minFd, 1) && LeastChunk(d.level, desired, |d.chosen|, s.cons.minChunk)
  {
    var gs := FreshGroups(s, l, p);
    var n := FirstTiling(gs, desired, s.cons.minChunk, Max(minFd, 1)).value;
    hide FreshGroups, UniformShortfall, LeastChunk, PickColocated, CountAtLeast, PreferNodes;
    FreshGroupsAreFresh(s, l, p);
    FreshListNoDup(s, l, p, gs);
    hide FreshList, NoDup;
    FirstsCount(gs, n, UniformShare(desired, n, s.cons.minChunk));
    PickColocatedExact(gs, n, UniformShare(desired, n, s.cons.minChunk), PreferNodes(l, p));
    ShareIs(UniformShare(desired, n, s.cons.minChunk), desired, n, s.cons);
  }

  lemma RouteByFigures(s: Site, l: Ledger, p: PoolKind, desired: int, minFd: int, targetFds: nat)
    requires Tracks(s, l) && desired > 0 && PoolCurrent(s.existing, p) <= desired
    requires CapacityShort(PoolCurrent(s.existing, p), desired, s.cons)
    ensures var d := DecidePool(s, l, p, desired, minFd, targetFds);
      var chunk := GrowChunk(desired - PoolCurrent(s.existing, p), minFd, s.cons);
      var abandon := OutOfProportion(chunk, PoolAverage(s.existing, p), s.cons) &&
        FreshDecision(s, l, p, desired, minFd, true).Place?;
      d == if targetFds > 0 then ExplicitDecision(s, l, p, desired, targetFds)
        else if abandon then FreshDecision(s, l, p, desired, minFd, true)
        else if PoolFds(s.existing, p) != [] then IncreaseDecision(s, l, p, desired, minFd)
        else FreshDecision(s, l, p, desired, minFd, false)
  {
    hide FreshDecision, IncreaseDecision, ExplicitDecision, PoolFds, PoolCurrent, PoolAverage, CapacityShort, GrowChunk;
  }

  /**
   * How a short pool is planned. With a pinned count by the pin. Otherwise afresh, leaving its failure domains behind,
   * exactly when the missing chunk is out of proportion and candidates can hold the target; else by an increase if it
   * has failure domains, and afresh if it has none.
   */
  lemma RouteExact(s: Site, l: Ledger, p: PoolKind, desired: int, minFd: int, targetFds: nat, chunk: int, average: int)
    requires Tracks(s, l) && desired > 0 && CapacityShort(PoolCurrent(s.existing, p), desired, s.cons)
    requires LeastChunk(chunk, desired - PoolCurrent(s.existing, p), minFd, s.cons.minChunk)
    requires AverageHeld(s.existing, p, average)
    ensures var d := DecidePool(s, l, p, desired, minFd, targetFds);
      var abandon := OutOfProportion(chunk, average, s.cons) && CanStartAfresh(s, l, p, desired, minFd);
      d == if targetFds > 0 then ExplicitDecision(s, l, p, desired, targetFds)
        else if abandon then FreshDecision(s, l, p, desired, minFd, true)
        else if PoolFds(s.existing, p) != [] then IncreaseDecision(s, l, p, desired, minFd)
        else FreshDecision(s, l, p, desired, minFd, false)
  {
    hide DecidePool, FreshDecision, IncreaseDecision, ExplicitDecision, LeastChunk, AverageHeld, CanStartAfresh,
      PoolFds, PoolCurrent, PoolAverage, CapacityShort, GrowChunk, OutOfProportion, CoverTarget;
    LeastChunkIs(chunk, desired - PoolCurrent(s.existing, p), minFd, s.cons);
    AverageIs(s.existing, p, average);
    CoverTargetIsBoundary(PoolCurrent(s.existing, p), desired, s.cons);
    FreshIff(s, l, p, desired, minFd, true);
    RouteByFigures(s, l, p, desired, minFd, targetFds);
  }

  // ----- the pin -----

  lemma AddedIff(existing: seq<ExistingContainer>, p: PoolKind, targetFds: int, delta: int, cons: Constraints)
    requires delta > 0
    ensures ExactNewFds(existing, p, targetFds, delta, cons).Some? <==>
      var extra := targetFds - |PoolFds(existing, p)|; extra > 0 && cons.minChunk * extra <= delta
  {
    var extra := targetFds - |PoolFds(existing, p)|;
    if extra > 0 { DivAdjoint(cons.minChunk, delta, extra); }
    hide PoolFds;
  }

  /** The least level at which the target of failure domains covers the pool. */
  ghost predicate LeastShare(level: nat, desired: int, targetFds: int) {
    targetFds * level >= desired && forall m: nat :: m < level ==> targetFds * m < desired
  }

  lemma LeastShareIs(level: nat, desired: int, targetFds: int)
    requires targetFds > 0
    ensures LeastShare(level, desired, targetFds) <==> level == CeilDiv(desired, targetFds)
  {
    var c := CeilDiv(desired, targetFds);
    CeilDivAdjoint(desired, targetFds, c);
    CeilDivAdjoint(desired, targetFds, level);
    forall m: nat | m < c ensures targetFds * m < desired { CeilDivAdjoint(desired, targetFds, m); }
    assert targetFds * c >= desired;
  }

  lemma {:induction false} GapExact(existing: seq<ExistingContainer>, fds: seq<string>, p: PoolKind, level: int)
    ensures FirstGap(existing, fds, p, level) <= 0 <==> forall fd :: fd in fds ==> FdCap(existing, fd, p) >= level
    ensures FirstGap(existing, fds, p, level) > 0 ==>
      exists fd :: fd in fds && FdCap(existing, fd, p) + FirstGap(existing, fds, p, level) == level
  {
    hide FdCap;
    if fds != [] {
      GapExact(existing, fds[1..], p, level);
      assert fds == [fds[0]] + fds[1..];
      assert fds[0] in fds;
      if FdCap(existing, fds[0], p) >= level && FirstGap(existing, fds[1..], p, level) > 0 {
        var fd :| fd in fds[1..] && FdCap(existing, fd, p) + FirstGap(existing, fds[1..], p, level) == level;
        assert fd in fds;
      }
    }
  }

  /**
   * A pin is placed exactly when the pool is short, the target exceeds the failure domains it has, what is missing
   * gives each added one a chunk, and, where growth is off, none of those it has is below the level.
   */
  lemma PinPlacesExact(s: Site, p: PoolKind, desired: int, targetFds: int, level: nat)
    requires targetFds > 0 && LeastShare(level, desired, targetFds)
    ensures var held, delta := |PoolFds(s.existing, p)|, desired - PoolCurrent(s.existing, p);
      PinPlaces(s, p, desired, targetFds) <==>
        && desired > 0 && CapacityShort(PoolCurrent(s.existing, p), desired, s.cons)
        && targetFds > held && s.cons.minChunk * (targetFds - held) <= delta
        && (s.cons.allowInPlaceGrowth ||
            forall fd :: fd in PoolFds(s.existing, p) ==> FdCap(s.existing, fd, p) >= level)
  {
    var delta := desired - PoolCurrent(s.existing, p);
    hide PoolFds, PoolCurrent, FdCap, CapacityShort, FirstGap, ExactNewFds, CoverTarget, LeastShare;
    CoverTargetIsBoundary(PoolCurrent(s.existing, p), desired, s.cons);
    LeastShareIs(level, desired, targetFds);
    if delta > 0 { AddedIff(s.existing, p, targetFds, delta, s.cons); }
    GapExact(s.existing, PoolFds(s.existing, p), p, level);
  }

  // ----- rejections -----

  /**
   * What a rejected pool is told: afresh, failure domains exactly when there are fewer candidates than the minimum and
   * else capacity, with what the last candidate lacks; a pin, always the container count, with what some failure domain
   * lacks where growth is off; an increase, what is missing in all.
   */
  lemma RejectExact(s: Site, l: Ledger, p: PoolKind, desired: int, minFd: int, targetFds: int)
    requires Tracks(s, l)
    ensures forall fallback ::
      var d, gs := FreshDecision(s, l, p, desired, minFd, fallback), FreshGroups(s, l, p);
      d.Reject? ==>
        && d.report.binding == (if |gs| < minFd then FailureDomains else DriveCapacity)
        && d.report.shortfall == (if |gs| < Max(minFd, 1) then 0
             else Max(0, UniformShare(desired, |gs|, s.cons.minChunk) - gs[|gs| - 1].headroom))
    ensures var d := ExplicitDecision(s, l, p, desired, targetFds);
      d.Reject? ==>
        && d.report.binding == DriveContainers
        && (d.report.shortfall != 0 ==>
             exists fd ::
               && fd in PoolFds(s.existing, p)
               && FdCap(s.existing, fd, p) + d.report.shortfall == CeilDiv(desired, targetFds))
    ensures var d := IncreaseDecision(s, l, p, desired, minFd);
      d.Reject? ==>
        && d.report.shortfall == desired - PoolCurrent(s.existing, p)
        && UI.Decide(IncreaseFor(s, l, p, desired, minFd)) == UI.GiveUp(d.report.binding)
  {
    GapExact(s.existing, PoolFds(s.existing, p), p, CeilDiv(desired, targetFds));
    hide FreshGroups, SelectUniform, PoolFds, PoolCurrent, FdCap, FirstGap, ExactNewFds, ExistingGroups, TakeFresh,
      SpareGroups, Reaches, MinFdCap, MaxFdCap, PoolAverage, UI.Decide;
  }
}
