/** The figures and searches of one pool's planning, as loops. */
module PoolScan {
  import opened Arith
  import opened Model
  import opened NodeBudget
  import opened Ledgers
  import opened Ordering
  import opened FreshFds
  import opened FreshScan
  import opened Deadband
  import opened PoolDecision
  import opened PlanRuns
  import UI = UniformIncrease

  // ----- figures over the existing containers -----

  /** poolCurrent and poolAvg in one pass. */
  method PoolSums(existing: seq<ExistingContainer>, p: PoolKind) returns (current: int, average: int)
    ensures current == PoolCurrent(existing, p) && average == PoolAverage(existing, p)
  {
    var sum, n: nat := 0, 0;
    current := 0;
    for i := 0 to |existing|
      invariant current == PoolCurrent(existing[..i], p)
      invariant sum == PoolPositive(existing[..i], p) && n == PoolCount(existing[..i], p)
    {
      assert existing[..i + 1][..i] == existing[..i];
      var v := existing[i].caps.Of(p);
      current := current + v;
      if v > 0 { sum, n := sum + v, n + 1; }
    }
    assert existing[..|existing|] == existing;
    average := if n == 0 then 0 else GoDiv(sum, n);
  }

  /** Capacity per failure domain, and the failure domains in first-seen order. */
  method FdTotals(existing: seq<ExistingContainer>, p: PoolKind) returns (fds: seq<string>, perFd: map<string, int>)
    ensures fds == PoolFds(existing, p) && perFd.Keys == Elems(fds)
    ensures forall fd :: fd in perFd ==> perFd[fd] == FdCap(existing, fd, p)
  {
    fds, perFd := [], map[];
    for i := 0 to |existing|
      invariant fds == PoolFds(existing[..i], p) && perFd.Keys == Elems(fds)
      invariant "" !in perFd && forall fd :: fd != "" ==>
        FdCap(existing[..i], fd, p) == if fd in perFd then perFd[fd] else 0
    {
      assert existing[..i + 1][..i] == existing[..i];
      var c := existing[i];
      var v := c.caps.Of(p);
      if c.fdValue != "" && v > 0 {
        var was := if c.fdValue in perFd then perFd[c.fdValue] else 0;
        if c.fdValue !in perFd { fds := fds + [c.fdValue]; }
        perFd := perFd[c.fdValue := was + v];
      }
    }
    assert existing[..|existing|] == existing;
  }

  /** The smallest and largest failure domain of the pool. */
  method Extremes(existing: seq<ExistingContainer>, fds: seq<string>, perFd: map<string, int>, p: PoolKind)
    returns (least: int, most: int)
    requires perFd.Keys == Elems(fds) && forall fd :: fd in perFd ==> perFd[fd] == FdCap(existing, fd, p)
    ensures least == MinFdCap(existing, fds, p) && most == MaxFdCap(existing, fds, p)
  {
    least, most := 0, 0;
    for i := 0 to |fds|
      invariant least == MinFdCap(existing, fds[..i], p) && most == MaxFdCap(existing, fds[..i], p)
    {
      assert fds[..i + 1][..i] == fds[..i] && fds[i] in Elems(fds);
      var v := perFd[fds[i]];
      if least == 0 || v < least { least := v; }
      if v > most { most := v; }
    }
    assert fds[..|fds|] == fds;
  }

  /** What each failure domain holds and could be grown to, over its scheduled containers. */
  method ReachTable(run: PlanRun, p: PoolKind) returns (reaches: seq<UI.Reach>)
    requires run.Valid()
    ensures reaches == Reaches(run.Place(), run.Value(), p)
  {
    hide HeadroomBinding;
    var byFd: map<string, UI.Reach> := map[];
    var fds: seq<string> := [];
    ghost var s, l := run.Place(), run.Value();
    for i := 0 to |run.existing|
      invariant fds == PlacedFds(s, run.existing[..i]) && byFd.Keys == Elems(fds)
      invariant forall fd :: FdReach(s, l, run.existing[..i], fd, p) == if fd in byFd then byFd[fd] else UI.Reach(0, 0)
    {
      assert run.existing[..i + 1][..i] == run.existing[..i];
      var c := run.existing[i];
      if c.fdValue != "" && !c.unscheduled && c.node != "" && c.node in run.states {
        var r := if c.fdValue in byFd then byFd[c.fdValue] else UI.Reach(0, 0);
        if c.fdValue !in byFd { fds := fds + [c.fdValue]; }
        var room, _ := run.states[c.node].NodeHeadroom(p, run.cons, false);
        byFd := byFd[c.fdValue := UI.Reach(r.cap + c.caps.Of(p), r.ceiling + c.caps.Of(p) + room)];
      }
    }
    assert run.existing[..|run.existing|] == run.existing;
    reaches := [];
    for i := 0 to |fds|
      invariant |reaches| == i && forall j :: 0 <= j < i ==> reaches[j] == FdReach(s, l, s.existing, fds[j], p)
    {
      assert fds[i] in Elems(fds);
      reaches := reaches + [byFd[fds[i]]];
    }
  }

  // ----- the searches of the uniform increase -----

  /** The create-new loop: fewest failure domains first. */
  method EvenSearch(inc: UI.Increase) returns (r: Option<nat>)
    ensures r == UI.EvenCount(inc)
  {
    if inc.MaxPerFd() <= 0 { return None; }
    var k: nat, kMax := Max(1, CeilDiv(inc.Delta(), inc.MaxPerFd())), Min(CeilDiv(inc.Delta(), inc.t0), |inc.spare|);
    while k <= kMax
      invariant UI.EvenCount(inc) == UI.FirstEven(inc, k, kMax)
      decreases kMax + 1 - k
    {
      var size := CeilDiv(inc.Delta(), k);
      if size < inc.cons.minChunk { size := inc.cons.minChunk; }
      if size <= inc.MaxPerFd() && !(size > inc.tmax && UI.DetectImbalance(size, inc.average, inc.cons)) {
        var able := FreshCountAtLeast(inc.spare, size);
        if able >= k && inc.current + k * size - inc.desired <= inc.overshoot { return Some(k); }
      }
      k := k + 1;
    }
    return None;
  }

  method ReachAt(rs: seq<UI.Reach>, level: int) returns (r: Option<int>)
    ensures r == UI.ExistingReach(rs, level)
  {
    var sum := 0;
    for i := 0 to |rs|
      invariant UI.ExistingReach(rs[..i], level) == Some(sum)
    {
      assert rs[..i + 1][..i] == rs[..i];
      if rs[i].cap > 0 {
        if rs[i].cap >= level {
          sum := sum + rs[i].cap;
        } else if rs[i].ceiling >= level {
          sum := sum + level;
        } else {
          ReachFails(rs, i + 1, level);
          return None;
        }
      }
    }
    assert rs[..|rs|] == rs;
    return Some(sum);
  }

  /** One failure domain short of the level rules the level out. */
  lemma {:induction false} ReachFails(rs: seq<UI.Reach>, i: nat, level: int)
    requires i <= |rs| && UI.ExistingReach(rs[..i], level).None?
    ensures UI.ExistingReach(rs, level).None?
  {
    if i < |rs| {
      assert rs[..|rs| - 1][..i] == rs[..i];
      ReachFails(rs[..|rs| - 1], i, level);
    } else {
      assert rs[..i] == rs;
    }
  }

  /** The grow-phase loop over the final failure-domain count. */
  method LevelSearch(inc: UI.Increase) returns (best: Option<UI.Level>)
    ensures best == UI.GrowLevel(inc)
  {
    hide UI.ExistingReach, CountAtLeast;
    var lo: nat := Max(0, Max(inc.minFd, inc.numExisting));
    best := None;
    var n := lo;
    while n <= inc.numExisting + |inc.spare|
      invariant n >= lo && (n > lo ==> n <= inc.numExisting + |inc.spare| + 1)
      invariant best == UI.BestLevel(inc, lo, n)
    {
      var level := Max(inc.t0, CeilDiv(inc.desired, n));
      var kFresh := n - inc.numExisting;
      var able := FreshCountAtLeast(inc.spare, level);
      var sum := ReachAt(inc.reaches, level);
      if able >= kFresh && sum.Some? {
        var total := sum.value + kFresh * level;
        if total >= inc.desired && total - inc.desired <= inc.overshoot {
          if best.None? || level < best.value.level || (level == best.value.level && total < best.value.total) {
            best := Some(UI.Level(n, level, total));
          }
        }
      }
      n := n + 1;
    }
  }

  method DecideIncrease(inc: UI.Increase) returns (o: UI.Outcome)
    ensures o == UI.Decide(inc)
  {
    hide UI.EvenCount, UI.GrowLevel;
    var k := EvenSearch(inc);
    if k.Some? { return UI.CreateEven(k.value, UI.EvenSize(inc, k.value)); }
    var best := LevelSearch(inc);
    if best.None? { return UI.GiveUp(DriveCapacity); }
    UI.GrowLevelAboveExisting(inc);
    var kFresh: nat := best.value.n - inc.numExisting;
    if best.value.level == inc.t0 { return UI.CreateAtT0(kFresh, best.value.level, best.value.total); }
    if !inc.cons.allowInPlaceGrowth {
      var able := FreshCountAtLeast(inc.spare, inc.t0);
      return UI.GiveUp(if CeilDiv(inc.Delta(), inc.t0) - able > 0 then FailureDomains else DriveCapacity);
    }
    if (best.value.level - inc.t0) as real < inc.cons.minGrowthFraction * inc.t0 as real {
      return UI.GiveUp(FailureDomains);
    }
    return UI.GrowTo(kFresh, best.value.level, best.value.total);
  }

  method Figures(run: PlanRun, p: PoolKind, desired: int, minFd: int) returns (inc: UI.Increase)
    requires run.Valid()
    ensures inc == IncreaseFor(run.Place(), run.Value(), p, desired, minFd)
  {
    hide PoolFds, FdCap, MinFdCap, MaxFdCap, PoolCurrent, PoolAverage, FreshGroups, ColocatedFirst, Reaches,
      FreshExclusion;
    var fds, perFd := FdTotals(run.existing, p);
    var least, most := Extremes(run.existing, fds, perFd, p);
    var exclude := Exclusion(run, p);
    var groups := OrderFreshFdGroups(run, p, exclude);
    var prefer := PreferredNodes(run, p);
    groups := ColocatedFirstScan(groups, prefer);
    var reaches := ReachTable(run, p);
    var current, average := PoolSums(run.existing, p);
    inc := UI.Increase(desired, minFd, current, |fds|, Max(run.cons.minChunk, least), Max(run.cons.minChunk, most),
                       average, Overshoot(desired, run.cons), groups, reaches, run.cons);
  }
}
