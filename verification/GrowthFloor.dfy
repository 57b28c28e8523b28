/** When a uniform increase grows existing failure domains it grows them by a minimum fraction. */
module GrowthFloor {
  import opened Arith
  import opened Model
  import opened NodeBudget
  import opened Ledgers
  import opened Placement
  import opened FreshFds
  import opened PoolDecision
  import opened Deadband
  import opened PoolPlanner
  import opened Planner
  import opened PlanTheorems
  import opened AdvisoryTheorems
  import opened AutoMode
  import opened AutoTheorems
  import opened GrowRecords
  import opened PinnedRecords
  import DB = DefensiveBranch
  import FrozenGrowth
  import PR = PlanRuns
  import UI = UniformIncrease

  /** No node that carries the pool is a candidate for it. */
  lemma CarrierNotFresh(s: Site, l: Ledger, p: PoolKind, gs: seq<FdGroup>, n: string)
    requires Tracks(s, l) && FreshList(s, l, p, gs) && n in PoolNodeUsed(s.existing, p)
    ensures forall g :: g in gs ==> n !in g.nodes
  {
    hide HeadroomBinding;
    forall g | g in gs ensures n !in g.nodes {
      var i :| 0 <= i < |gs| && gs[i] == g;
      if n in g.nodes { CarrierBarred(s, l, p, n); }
    }
  }

  lemma CarrierBarred(s: Site, l: Ledger, p: PoolKind, n: string)
    requires Tracks(s, l) && n in PoolNodeUsed(s.existing, p)
    ensures !IsCandidate(s, l, p, n)
  {
    var c :| c in s.existing && c.caps.Of(p) > 0 && c.node != "" && c.node == n;
    assert n in AllDriveNodes(s.existing);
    hide HeadroomBinding;
  }

  lemma IncreaseByCases(s: Site, l: Ledger, p: PoolKind, desired: int, minFd: int, g: FdGroup)
    requires Tracks(s, l) && IncreaseDecision(s, l, p, desired, minFd).Place?
    requires g in IncreaseDecision(s, l, p, desired, minFd).chosen
    ensures var inc, level := IncreaseFor(s, l, p, desired, minFd), IncreaseDecision(s, l, p, desired, minFd).level;
      || (exists k: nat :: g in TakeFresh(SpareGroups(s, l, p), k, level))
      || (UI.Decide(inc).GrowTo? && UI.Decide(inc).level == level)
  {
    hide SpareGroups, Reaches, ExistingGroups, TakeFresh, PoolAverage, MinFdCap, MaxFdCap, PoolFds, PoolCurrent,
      UI.Decide;
  }

  /** The new size is at least the fraction above the old one. */
  predicate RaisedBy(base: int, size: int, fraction: real) { size as real >= (1.0 + fraction) * base as real }

  lemma AboveByFraction(level: int, t0: int, f: real)
    requires (level - t0) as real >= f * t0 as real
    ensures RaisedBy(t0, level, f)
  {
    var x := t0 as real;
    assert (1.0 + f) * x == x + f * x;
  }

  lemma GrownFarEnough(inc: UI.Increase)
    requires UI.Decide(inc).GrowTo?
    ensures RaisedBy(inc.t0, UI.Decide(inc).level, inc.cons.minGrowthFraction)
  {
    hide UI.GrowLevel, UI.EvenCount;
    AboveByFraction(UI.Decide(inc).level, inc.t0, inc.cons.minGrowthFraction);
  }

  /**
   * On any site an increase that chooses a node which already carries the pool grows the existing failure domains, and
   * to a level above the smallest of them, floored at a chunk, by at least the minimum growth fraction.
   */
  lemma GrowingLevel(s: Site, l: Ledger, p: PoolKind, desired: int, minFd: int, n: string)
    requires Tracks(s, l) && Chosen(IncreaseDecision(s, l, p, desired, minFd), n) && n in PoolNodeUsed(s.existing, p)
    ensures var t0, level :=
        Max(s.cons.minChunk, MinFdCap(s.existing, PoolFds(s.existing, p), p)),
        IncreaseDecision(s, l, p, desired, minFd).level;
      s.cons.allowInPlaceGrowth && level > t0 && RaisedBy(t0, level, s.cons.minGrowthFraction)
  {
    var inc, d := IncreaseFor(s, l, p, desired, minFd), IncreaseDecision(s, l, p, desired, minFd);
    var g :| g in d.chosen && n in g.nodes;
    IncreaseByCases(s, l, p, desired, minFd, g);
    hide SpareGroups, Reaches, TakeFresh, PoolAverage, MinFdCap, MaxFdCap, PoolFds, PoolCurrent, UI.Decide, FreshList,
      PoolNodeUsed, IncreaseDecision, UI.ExistingReach, CountAtLeast, RaisedBy, Overshoot;
    if k: nat :| g in TakeFresh(SpareGroups(s, l, p), k, d.level) {
      SpareFresh(s, l, p);
      TakeFreshList(s, l, p, SpareGroups(s, l, p), k, d.level);
      CarrierNotFresh(s, l, p, TakeFresh(SpareGroups(s, l, p), k, d.level), n);
    }
    UI.DecideFacts(inc);
    GrownFarEnough(inc);
  }

  /** The smallest failure domain of the pool holds `low`. */
  ghost predicate SmallestFd(existing: seq<ExistingContainer>, fds: seq<string>, p: PoolKind, low: int) {
    && (exists i :: 0 <= i < |fds| && FdCap(existing, fds[i], p) == low)
    && forall i :: 0 <= i < |fds| ==> FdCap(existing, fds[i], p) >= low
  }

  lemma {:induction false} MinIsSmallest(existing: seq<ExistingContainer>, fds: seq<string>, p: PoolKind)
    requires fds != [] && forall i :: 0 <= i < |fds| ==> FdCap(existing, fds[i], p) > 0
    ensures SmallestFd(existing, fds, p, MinFdCap(existing, fds, p))
  {
    hide FdCap;
    var init := fds[..|fds| - 1];
    if init != [] {
      MinIsSmallest(existing, init, p);
      var i :| 0 <= i < |init| && FdCap(existing, init[i], p) == MinFdCap(existing, init, p);
      assert fds[i] == init[i];
    }
    assert FdCap(existing, fds[|fds| - 1], p) >= MinFdCap(existing, fds, p);
  }

  /** The container holds some of the pool, and none that does holds less. */
  ghost predicate HoldsLeast(drives: seq<ExistingContainer>, p: PoolKind, c: ExistingContainer) {
    && c in drives && c.caps.Of(p) > 0
    && forall d :: d in drives && d.caps.Of(p) > 0 ==> d.caps.Of(p) >= c.caps.Of(p)
  }

  lemma {:induction false} SomeCarrier(existing: seq<ExistingContainer>, fd: string, p: PoolKind)
    requires FdCap(existing, fd, p) > 0
    ensures exists c :: c in existing && c.caps.Of(p) > 0 && c.fdValue == fd
  {
    var init, last := existing[..|existing| - 1], existing[|existing| - 1];
    if last.fdValue == fd && last.caps.Of(p) > 0 {
      assert last in existing;
    } else {
      SomeCarrier(init, fd, p);
      var c :| c in init && c.caps.Of(p) > 0 && c.fdValue == fd;
      assert c in existing;
    }
  }

  lemma SmallestHolder(s: Site, p: PoolKind) returns (c: ExistingContainer)
    requires AutoSite(s) && PoolFds(s.existing, p) != []
    ensures HoldsLeast(s.existing, p, c) && c.caps.Of(p) == MinFdCap(s.existing, PoolFds(s.existing, p), p)
  {
    var e, fds := s.existing, PoolFds(s.existing, p);
    DB.PoolFdsAre(e, p);
    OneHost(s);
    hide PoolFds, FdCap, MinFdCap, AutoSite;
    forall d | d in e && d.caps.Of(p) > 0 ensures FdCap(e, d.fdValue, p) == d.caps.Of(p) && d.fdValue in fds {
      FrozenGrowth.FdCapIs(e, d, p);
    }
    forall i | 0 <= i < |fds| ensures FdCap(e, fds[i], p) > 0 { assert fds[i] in fds; }
    MinIsSmallest(e, fds, p);
    var i :| 0 <= i < |fds| && FdCap(e, fds[i], p) == MinFdCap(e, fds, p);
    assert fds[i] in fds;
    SomeCarrier(e, fds[i], p);
    c :| c in e && c.caps.Of(p) > 0 && c.fdValue == fds[i];
    forall d | d in e && d.caps.Of(p) > 0 ensures d.caps.Of(p) >= c.caps.Of(p) {
      var j :| 0 <= j < |fds| && fds[j] == d.fdValue;
    }
  }

  lemma OneHost(s: Site)
    requires AutoSite(s)
    ensures FrozenGrowth.OneHostFds(s.existing) && forall c :: c in s.existing ==> c.fdValue != ""
  {
    var e := s.existing;
    forall i, j | 0 <= i < j < |e| ensures e[i].fdValue != e[j].fdValue {
      assert e[i] in e && e[j] in e && e[i].node != e[j].node;
    }
    forall c | c in e ensures c.fdValue != "" { assert WellFormedDrive(s, c); }
  }

  /** A container that an increase raises is chosen, and ends at the level. */
  lemma RaisedToLevel(input: Input, p: PoolKind, c: ExistingContainer)
    requires AutoSite(input.Place()) && c in input.drives && FinalCap(PoolsOf(input).ledger, c, p) > c.caps.Of(p)
    ensures Chosen(DecisionFor(input, p), c.node)
    ensures FinalCap(PoolsOf(input).ledger, c, p) == DecisionFor(input, p).level
  {
    var s, l, desired := input.Place(), StateBefore(input, p).ledger, input.desired.raw.Of(p);
    var minFd, fds, d := input.scheme.MinFdNum(), TargetsOf(input).Of(p), DecisionFor(input, p);
    assert WellFormedDrive(s, c);
    HostIs(s.existing, c);
    AutoOneNode(s);
    WellFormedNonNegative(s);
    hide AutoSite, DecidePool, StateBefore, PoolsOf, PR.InventoryMap, Touches, PoolGain, HostOn, Completes, RoomAt;
    NodeRecord(input, c.node);
    if Chosen(d, c.node) {
      ChosenRecord(s, l, p, desired, minFd, fds, c);
    } else {
      NotTouched(s, l, p, d, c.node);
    }
  }

  lemma CarriesPool(s: Site, p: PoolKind, c: ExistingContainer)
    requires AutoSite(s) && c in s.existing && c.caps.Of(p) > 0
    ensures c.node in PoolNodeUsed(s.existing, p) && PoolFds(s.existing, p) != []
  {
    assert WellFormedDrive(s, c);
    DB.PoolFdsAre(s.existing, p);
    OneHost(s);
    hide AutoSite, PoolFds, FdCap;
    FrozenGrowth.FdCapIs(s.existing, c, p);
    assert c.fdValue in PoolFds(s.existing, p);
  }

  /**
   * With one-node failure domains a uniform increase that raises a container of the pool raises it to the plan's level,
   * at least the minimum growth fraction above the smallest container of the pool, floored at a chunk.
   */
  lemma GrowthWorthwhile(input: Input, p: PoolKind, c: ExistingContainer)
    requires AutoSite(input.Place()) && c in input.drives && c.caps.Of(p) > 0
    requires DecisionFor(input, p).Place? && DecisionFor(input, p).route.IncreaseRoute?
    requires FinalCap(PoolsOf(input).ledger, c, p) > c.caps.Of(p)
    ensures var to := FinalCap(PoolsOf(input).ledger, c, p);
      && input.cons.allowInPlaceGrowth && to == DecisionFor(input, p).level
      && exists d ::
        && HoldsLeast(input.drives, p, d)
        && RaisedBy(Max(input.cons.minChunk, d.caps.Of(p)), to, input.cons.minGrowthFraction)
  {
    var s, l, desired := input.Place(), StateBefore(input, p).ledger, input.desired.raw.Of(p);
    var minFd, fds := input.scheme.MinFdNum(), TargetsOf(input).Of(p);
    CarriesPool(s, p, c);
    hide AutoSite, DecidePool, IncreaseDecision, StateBefore, PoolsOf, PR.InventoryMap, PoolFds, PoolNodeUsed, MinFdCap,
      Chosen, HoldsLeast, FinalCap, RaisedBy, TargetsOf;
    RaisedToLevel(input, p, c);
    RouteIsIncrease(s, l, p, desired, minFd, fds);
    GrowingLevel(s, l, p, desired, minFd, c.node);
    var least := SmallestHolder(s, p);
  }
}
