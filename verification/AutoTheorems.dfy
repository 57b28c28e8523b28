/** Auto mode: a uniform increase realizes exactly what it predicted, within the over-provision cap. */
module AutoTheorems {
  import opened Model
  import opened Ledgers
  import opened Placement
  import opened FreshFds
  import opened PoolDecision
  import opened PoolPlanner
  import opened AutoMode
  import opened AutoFigures
  import UI = UniformIncrease

  lemma AutoIsDrives(s: Site)
    requires AutoSite(s)
    ensures AutoDrives(s, s.existing) && NonNegativeDrives(s.existing)
  {
    WellFormedNonNegative(s);
  }

  /** Taking k of at least k spare groups yields k distinct nodes, each lacking and reaching the level. */
  lemma SparePicks(s: Site, l: Ledger, p: PoolKind, k: nat, level: nat)
    requires Tracks(s, l) && AutoSite(s) && Unplanned(s, l, p)
    requires k <= CountAtLeast(SpareGroups(s, l, p), level) && level >= s.cons.minChunk
    ensures var gs := TakeFresh(SpareGroups(s, l, p), k, level);
      && |gs| == k && FreshList(s, l, p, gs)
      && (forall i :: 0 <= i < k ==> gs[i].nodes != [])
      && Singletons(s, gs, Heads(gs))
      && (forall i :: 0 <= i < k ==> CanReach(s, l, p, Heads(gs)[i], level))
      && SumLacking(s, p, Heads(gs), level) == k * level
  {
    hide SpareGroups, TakeFresh, IsCandidate, CanReach, Unplanned, SumLacking, AutoSite, Lacking;
    assert OneNodeFds(s) by { AutoOneNode(s); }
    SpareFresh(s, l, p);
    SpareSingles(s, l, p);
    TakeFreshList(s, l, p, SpareGroups(s, l, p), k, level);
    FreshPicks(s, l, p, TakeFresh(SpareGroups(s, l, p), k, level), level);
  }

  lemma AutoOneNode(s: Site)
    requires AutoSite(s)
    ensures OneNodeFds(s) && UniqueNames(s.existing)
  {
  }

  /** Placing k spare failure domains at a level grows the pool by exactly k * level, with no rollback. */
  lemma PlaceSpare(s: Site, l: Ledger, p: PoolKind, k: nat, level: nat)
    requires Tracks(s, l) && AutoSite(s) && Unplanned(s, l, p)
    requires k <= CountAtLeast(SpareGroups(s, l, p), level) && level >= s.cons.minChunk
    ensures var gs := TakeFresh(SpareGroups(s, l, p), k, level);
      && AllOnSite(s, gs)
      && PoolTotal(s, PlaceUniform(s, l, p, level, gs), p) == PoolCurrent(s.existing, p) + k * level
      && NoRollback(s, l, p, level, gs)
  {
    SparePicks(s, l, p, k, level);
    AutoIsDrives(s);
    AutoOneNode(s);
    UnplannedTotal(s, l, p);
    var gs := TakeFresh(SpareGroups(s, l, p), k, level);
    hide SpareGroups, TakeFresh, PlaceUniform, PoolTotal, CanReach, NoRollback, Unplanned, AutoSite;
    PlaceUniformRealizes(s, l, p, level, gs, Heads(gs));
  }

  // ----- existing and spare together -----

  /** A candidate is never a bearer of the pool. */
  lemma BearersApart(s: Site, l: Ledger, p: PoolKind, n: string)
    requires Tracks(s, l) && AutoSite(s) && n in Bearers(s.existing, p)
    ensures !IsCandidate(s, l, p, n)
  {
    AutoIsDrives(s);
    BearersFacts(s, s.existing, p);
    var c :| c in s.existing && c.caps.Of(p) > 0 && c.node == n;
    assert WellFormedDrive(s, c);
    assert n in PoolNodeUsed(s.existing, p) && n in AllDriveNodes(s.existing);
  }

  lemma ConcatSingletons(s: Site, a: seq<FdGroup>, an: seq<string>, b: seq<FdGroup>, bn: seq<string>)
    requires Singletons(s, a, an) && Singletons(s, b, bn) && forall n :: n in bn ==> n !in an
    ensures Singletons(s, a + b, an + bn)
  {
    forall i, j | 0 <= i < j < |an + bn| ensures (an + bn)[i] != (an + bn)[j] {
      if i < |an| <= j { assert bn[j - |an|] in bn; }
    }
  }

  lemma ExistingSingletons(s: Site, l: Ledger, p: PoolKind)
    requires Tracks(s, l) && AutoSite(s)
    ensures Singletons(s, ExistingGroups(s, l, p), Bearers(s.existing, p))
  {
    AutoIsDrives(s);
    BearersFacts(s, s.existing, p);
    var gs, ns := ExistingGroups(s, l, p), Bearers(s.existing, p);
    FdListsAre(s, s.existing, p);
    assert |gs| == |ns|;
    hide ExistingGroups, Bearers, AutoSite;
    forall i | 0 <= i < |gs| ensures gs[i].nodes == [ns[i]] && ns[i] in s.inv {
      ExistingGroupIs(s, l, p, i);
      assert ns[i] in ns;
      var c :| c in s.existing && c.caps.Of(p) > 0 && c.node == ns[i];
      assert WellFormedDrive(s, c);
    }
  }

  lemma HeadsAreCandidates(s: Site, l: Ledger, p: PoolKind, gs: seq<FdGroup>)
    requires Tracks(s, l) && FreshList(s, l, p, gs)
    ensures forall n :: n in Heads(gs) ==> IsCandidate(s, l, p, n)
  {
    hide IsCandidate;
    forall i | 0 <= i < |gs| ensures IsCandidate(s, l, p, Heads(gs)[i]) { assert gs[i].nodes[0] in gs[i].nodes; }
  }

  lemma AllGrowFigures(s: Site, l: Ledger, p: PoolKind, level: nat)
    requires Tracks(s, l) && AutoDrives(s, s.existing) && UI.ExistingReach(Reaches(s, l, p), level).Some?
    ensures UI.ExistingReach(Reaches(s, l, p), level).value
      == PoolCurrent(s.existing, p) + SumLacking(s, p, Bearers(s.existing, p), level)
    ensures forall n :: n in Bearers(s.existing, p) ==> n in s.inv && CanReach(s, l, p, n, level)
  {
    ReachesLength(s, l, p);
    hide Reaches, Bearers, UI.ExistingReach, SumLacking, CanReach, AutoDrives, PoolCurrent;
    var rs, e := Reaches(s, l, p), s.existing;
    assert rs[..|e|] == rs && e[..|e|] == e;
    GrowFigures(s, l, p, level, |e|);
  }

  /** Growing every bearer to a level and adding k spare failure domains realizes the predicted total. */
  lemma PlaceGrow(s: Site, l: Ledger, p: PoolKind, k: nat, level: nat)
    requires Tracks(s, l) && AutoSite(s) && Unplanned(s, l, p)
    requires k <= CountAtLeast(SpareGroups(s, l, p), level) && level >= s.cons.minChunk
    requires UI.ExistingReach(Reaches(s, l, p), level).Some?
    ensures var gs := ExistingGroups(s, l, p) + TakeFresh(SpareGroups(s, l, p), k, level);
      && AllOnSite(s, gs)
      && PoolTotal(s, PlaceUniform(s, l, p, level, gs), p) ==
        UI.ExistingReach(Reaches(s, l, p), level).value + k * level
      && NoRollback(s, l, p, level, gs)
  {
    SparePicks(s, l, p, k, level);
    ExistingSingletons(s, l, p);
    AutoIsDrives(s);
    AutoOneNode(s);
    UnplannedTotal(s, l, p);
    AllGrowFigures(s, l, p, level);
    var a, b := ExistingGroups(s, l, p), TakeFresh(SpareGroups(s, l, p), k, level);
    var an, bn := Bearers(s.existing, p), Heads(b);
    HeadsAreCandidates(s, l, p, b);
    hide SpareGroups, TakeFresh, ExistingGroups, PlaceUniform, PoolTotal, CanReach, NoRollback, Unplanned,
      IsCandidate, Bearers, Reaches, SumLacking, AutoDrives, UI.ExistingReach;
    forall n | n in bn ensures n !in an { if n in an { BearersApart(s, l, p, n); } }
    ConcatSingletons(s, a, an, b, bn);
    SumLackingConcat(s, p, an, bn, level);
    forall i | 0 <= i < |an + bn| ensures CanReach(s, l, p, (an + bn)[i], level) {
      if i < |an| { assert an[i] in an; }
    }
    PlaceUniformRealizes(s, l, p, level, a + b, an + bn);
  }

  // ----- the theorem -----

  ghost function After(s: Site, l: Ledger, p: PoolKind, d: Decision): (l': Ledger)
    requires Tracks(s, l) && d.Place? && AllOnSite(s, d.chosen)
    ensures Tracks(s, l')
  {
    PlaceUniform(s, l, p, d.level, d.chosen)
  }

  /**
   * In auto mode a uniform increase is exact: nothing is rolled back and the pool ends at the total the
   * search predicted. In the t0 branch this needs every existing failure domain to hold the level already,
   * and it fails in every other case of that branch.
   */
  lemma IncreaseExact(s: Site, l: Ledger, p: PoolKind, desired: int, minFd: int)
    requires Tracks(s, l) && AutoSite(s) && Unplanned(s, l, p)
    requires IncreaseDecision(s, l, p, desired, minFd).Place?
    ensures var inc, d := IncreaseFor(s, l, p, desired, minFd), IncreaseDecision(s, l, p, desired, minFd);
      && AllOnSite(s, d.chosen) && NoRollback(s, l, p, d.level, d.chosen)
      && (PoolTotal(s, After(s, l, p, d), p) == d.route.predicted <==>
           !UI.Decide(inc).CreateAtT0? || UI.AllAtLeast(inc.reaches, inc.t0))
      && PoolTotal(s, After(s, l, p, d), p) <= d.route.predicted
      && desired <= d.route.predicted <= desired + inc.overshoot
  {
    var inc := IncreaseFor(s, l, p, desired, minFd);
    UI.DecideFacts(inc);
    hide UI.Decide, SpareGroups, Reaches, ExistingGroups, TakeFresh, PlaceUniform, PoolTotal, NoRollback, AutoSite,
      Unplanned, CountAtLeast, UI.ExistingReach, UI.AllAtLeast, PoolAverage, MinFdCap, MaxFdCap, PoolFds;
    match UI.Decide(inc) {
      case CreateEven(k, size) =>
        PlaceSpare(s, l, p, k, size);
      case CreateAtT0(k, level, total) =>
        PlaceSpare(s, l, p, k, level);
        T0Realized(s, l, p, desired, minFd);
      case GrowTo(k, level, total) =>
        PlaceGrow(s, l, p, k, level);
    }
  }

  lemma T0Realized(s: Site, l: Ledger, p: PoolKind, desired: int, minFd: int)
    requires Tracks(s, l) && AutoSite(s) && UI.Decide(IncreaseFor(s, l, p, desired, minFd)).CreateAtT0?
    ensures var inc := IncreaseFor(s, l, p, desired, minFd);
      var d := UI.Decide(inc);
      && (inc.current + d.kFresh * d.level == d.total <==> UI.AllAtLeast(inc.reaches, inc.t0))
      && inc.current + d.kFresh * d.level <= d.total
  {
    AutoIsDrives(s);
    ReachFigures(s, l, p, |s.existing|);
    var inc := IncreaseFor(s, l, p, desired, minFd);
    assert inc.reaches[..|s.existing|] == inc.reaches && s.existing[..|s.existing|] == s.existing;
    UI.DefensiveBranchTotal(inc);
  }
}
