/** Auto mode, where every node is its own failure domain: predictions are realized exactly. */
module AutoMode {
  import opened Model
  import opened NodeBudget
  import opened Ledgers
  import opened Placement
  import opened FreshFds
  import opened PoolDecision
  import opened PoolPlanner

  // ----- well-formed existing drives -----

  ghost predicate WellFormedDrive(s: Site, c: ExistingContainer) {
    && !c.unscheduled && c.node != "" && c.node in s.inv && c.fdValue != "" && c.numCores >= 1
    && c.caps.tlc >= 0 && c.caps.qlc >= 0 && (c.caps.tlc > 0 || c.caps.qlc > 0)
  }

  ghost predicate OnePerNode(existing: seq<ExistingContainer>) {
    forall i, j :: 0 <= i < j < |existing| ==> existing[i].node != existing[j].node
  }

  ghost predicate WellFormed(s: Site) {
    && UniqueNames(s.existing) && OnePerNode(s.existing)
    && forall c :: c in s.existing ==> WellFormedDrive(s, c)
  }

  /** Every node its own failure domain, on the inventory side and on the container side. */
  ghost predicate AutoSite(s: Site) {
    && OneNodeFds(s) && WellFormed(s) && s.cons.memoryBase >= 0
    && forall c :: c in s.existing ==> c.fdValue == c.node
  }

  lemma WellFormedNonNegative(s: Site)
    requires WellFormed(s)
    ensures NonNegativeDrives(s.existing)
  {
    forall c | c in s.existing ensures c.caps.tlc >= 0 && c.caps.qlc >= 0 { assert WellFormedDrive(s, c); }
  }

  lemma {:induction false} HostIs(existing: seq<ExistingContainer>, c: ExistingContainer)
    requires OnePerNode(existing) && c in existing && !c.unscheduled && c.node != ""
    ensures HostOn(existing, c.node) == Some(c)
  {
    var init, last := existing[..|existing| - 1], existing[|existing| - 1];
    assert existing == init + [last];
    if c != last {
      assert c in init;
      var i :| 0 <= i < |init| && init[i] == c;
      assert existing[i].node != existing[|existing| - 1].node;
      HostIs(init, c);
    }
  }

  // ----- fresh nodes lack exactly the level and can reach it -----

  /** A candidate node carries nothing of the pool; with growth off it carries nothing at all. */
  lemma CandidateHoldsNothing(s: Site, l: Ledger, p: PoolKind, n: string)
    requires Tracks(s, l) && WellFormed(s) && IsCandidate(s, l, p, n)
    ensures NodeCur(s, n, p) == 0
    ensures !s.cons.allowInPlaceGrowth ==> HostOn(s.existing, n).None?
  {
    match HostOn(s.existing, n)
    case None =>
    case Some(c) => assert WellFormedDrive(s, c);
  }

  lemma CandidateReaches(s: Site, l: Ledger, p: PoolKind, n: string, level: nat)
    requires Tracks(s, l) && WellFormed(s) && s.cons.memoryBase >= 0 && IsCandidate(s, l, p, n)
    requires CreatedCap(l, n, p) == 0
    requires s.cons.minChunk <= level <= Headroom(s.inv[n], l.budgets[n], p, s.cons, true)
    ensures CanReach(s, l, p, n, level) && Lacking(s, p, n, level) == level
  {
    CandidateHoldsNothing(s, l, p, n);
    HeadroomWithoutBase(s.inv[n], l.budgets[n], p, s.cons);
    hide HeadroomBinding, IsCandidate;
  }

  // ----- a run over single-host failure domains -----

  lemma CanReachKept(s: Site, l: Ledger, l': Ledger, p: PoolKind, n: string, level: nat)
    requires Tracks(s, l) && Tracks(s, l') && n in s.inv && Untouched(s, l, l', n) && CanReach(s, l, p, n, level)
    ensures CanReach(s, l', p, n, level)
  {
    hide HeadroomBinding;
  }

  /** Every chosen failure domain reaches the level, so none is rolled back. */
  ghost predicate NoRollback(s: Site, l: Ledger, p: PoolKind, level: nat, chosen: seq<FdGroup>)
    requires Tracks(s, l) && AllOnSite(s, chosen)
  {
    forall k :: 0 <= k < |chosen| && chosen[k].nodes != [] ==>
      PlaceHosts(s, PlaceUniform(s, l, p, level, chosen[..k]), p, chosen[k].nodes, s.inv[chosen[k].nodes[0]].fdValue,
        level, |chosen[k].nodes|).placed >= level
  }

  /** If every single-host failure domain can reach the level, the pool grows by exactly what they lack. */
  lemma {:induction false} PlaceUniformRealizes(s: Site, l: Ledger, p: PoolKind, level: nat, chosen: seq<FdGroup>,
      nodes: seq<string>)
    requires Tracks(s, l) && AllOnSite(s, chosen) && Singletons(s, chosen, nodes)
    requires UniqueNames(s.existing) && NonNegativeDrives(s.existing)
    requires forall i :: 0 <= i < |nodes| ==> CanReach(s, l, p, nodes[i], level)
    ensures var l' := PlaceUniform(s, l, p, level, chosen);
      && PoolTotal(s, l', p) == PoolTotal(s, l, p) + SumLacking(s, p, nodes, level)
      && (forall m :: m !in nodes ==> Untouched(s, l, l', m))
    ensures NoRollback(s, l, p, level, chosen)
  {
    if chosen != [] {
      var initC, initN := chosen[..|chosen| - 1], nodes[..|nodes| - 1];
      var g, n := chosen[|chosen| - 1], nodes[|nodes| - 1];
      assert nodes == initN + [n] && n !in initN;
      PlaceUniformRealizes(s, l, p, level, initC, initN);
      var mid := PlaceUniform(s, l, p, level, initC);
      CanReachKept(s, l, mid, p, n, level);
      PlaceFdRealizes(s, mid, p, level, g, n);
      HostAddLacking(s, mid, p, n, s.inv[n].fdValue, level);
      var l' := PlaceUniform(s, l, p, level, chosen);
      hide PlaceUniform, PoolTotal, CanReach, PlaceHost;
      forall m | m !in nodes ensures Untouched(s, l, l', m) { UntouchedTransitive(s, l, mid, l', m); }
      NoRollbackStep(s, l, p, level, chosen, n);
    }
  }

  lemma NoRollbackStep(s: Site, l: Ledger, p: PoolKind, level: nat, chosen: seq<FdGroup>, n: string)
    requires Tracks(s, l) && AllOnSite(s, chosen) && chosen != []
    requires n in s.inv && chosen[|chosen| - 1].nodes == [n]
    requires AllOnSite(s, chosen[..|chosen| - 1]) && NoRollback(s, l, p, level, chosen[..|chosen| - 1])
    requires PlaceHost(s, PlaceUniform(s, l, p, level, chosen[..|chosen| - 1]), p, n, s.inv[n].fdValue,
      level).placed == level
    ensures NoRollback(s, l, p, level, chosen)
  {
    hide PlaceUniform, PlaceHost;
    var init := chosen[..|chosen| - 1];
    forall k | 0 <= k < |chosen| && chosen[k].nodes != []
      ensures PlaceHosts(s, PlaceUniform(s, l, p, level, chosen[..k]), p, chosen[k].nodes,
        s.inv[chosen[k].nodes[0]].fdValue, level, |chosen[k].nodes|).placed >= level
    {
      if k < |init| {
        assert init[..k] == chosen[..k] && init[k] == chosen[k];
      } else {
        SingleHost(s, PlaceUniform(s, l, p, level, init), p, n, level);
      }
    }
  }

  lemma SingleHost(s: Site, l: Ledger, p: PoolKind, n: string, level: nat)
    requires Tracks(s, l) && n in s.inv
    ensures PlaceHosts(s, l, p, [n], s.inv[n].fdValue, level, 1) == PlaceHost(s, l, p, n, s.inv[n].fdValue, level)
  {
    hide PlaceHost;
    assert Share(level, 1, 0) == level;
    assert PlaceHosts(s, l, p, [n], s.inv[n].fdValue, level, 0) == HostStep(l, 0);
  }

  // ----- fresh groups in auto mode -----

  predicate SingleCandidate(s: Site, l: Ledger, p: PoolKind, g: FdGroup)
    requires Tracks(s, l)
  {
    && |g.nodes| == 1 && IsCandidate(s, l, p, g.nodes[0])
    && g.headroom == Headroom(s.inv[g.nodes[0]], l.budgets[g.nodes[0]], p, s.cons, true)
  }

  lemma FreshSingles(s: Site, l: Ledger, p: PoolKind)
    requires Tracks(s, l) && OneNodeFds(s)
    ensures forall g :: g in FreshGroups(s, l, p) ==> SingleCandidate(s, l, p, g)
  {
    hide FreshGroups, IsCandidate, HeadroomBinding, CandidateOrder, FreshList, OneNodeFds;
    var gs := FreshGroups(s, l, p);
    forall i | 0 <= i < |gs| ensures SingleCandidate(s, l, p, gs[i]) {
      OneNodeGroup(s, l, p, i);
      FreshMember(s, l, p, i, gs[i].nodes[0]);
    }
  }

  lemma FreshMember(s: Site, l: Ledger, p: PoolKind, i: nat, n: string)
    requires Tracks(s, l) && i < |FreshGroups(s, l, p)| && n in FreshGroups(s, l, p)[i].nodes
    ensures IsCandidate(s, l, p, n)
  {
    hide FreshGroups, IsCandidate;
    FreshGroupsAreFresh(s, l, p);
  }

  lemma SpareSingles(s: Site, l: Ledger, p: PoolKind)
    requires Tracks(s, l) && OneNodeFds(s)
    ensures forall g :: g in SpareGroups(s, l, p) ==> SingleCandidate(s, l, p, g)
  {
    hide FreshGroups, IsCandidate, ColocatedFirst, HeadroomBinding, IsColocated;
    var gs := FreshGroups(s, l, p);
    FreshSingles(s, l, p);
    FreshGroupsAreFresh(s, l, p);
    ColocatedFirstFresh(s, l, p, gs, PreferNodes(l, p));
    forall g | g in SpareGroups(s, l, p) ensures SingleCandidate(s, l, p, g) {
      var i :| 0 <= i < |gs| && Flagged(gs, PreferNodes(l, p))[i] == g;
      assert gs[i] in gs;
    }
  }

  function Heads(gs: seq<FdGroup>): seq<string>
    requires forall i :: 0 <= i < |gs| ==> gs[i].nodes != []
  {
    seq(|gs|, i requires 0 <= i < |gs| => gs[i].nodes[0])
  }

  /** Picked fresh groups: distinct single nodes, each lacking exactly the level and able to reach it. */
  lemma FreshPicks(s: Site, l: Ledger, p: PoolKind, gs: seq<FdGroup>, level: nat)
    requires Tracks(s, l) && AutoSite(s) && Unplanned(s, l, p) && FreshList(s, l, p, gs)
    requires forall g :: g in gs ==> SingleCandidate(s, l, p, g) && g.headroom >= level
    requires level >= s.cons.minChunk
    ensures Singletons(s, gs, Heads(gs))
    ensures forall i :: 0 <= i < |gs| ==>
      CanReach(s, l, p, Heads(gs)[i], level) && Lacking(s, p, Heads(gs)[i], level) == level
    ensures SumLacking(s, p, Heads(gs), level) == |gs| * level
  {
    hide HeadroomBinding, IsCandidate, CanReach, Unplanned, NodeCur;
    var nodes := Heads(gs);
    forall i | 0 <= i < |gs|
      ensures gs[i].nodes == [nodes[i]] && nodes[i] in s.inv
      ensures CanReach(s, l, p, nodes[i], level) && Lacking(s, p, nodes[i], level) == level
    {
      assert gs[i] in gs;
      CandidateOnSite(s, l, p, nodes[i]);
      UnplannedAt(s, l, p, nodes[i]);
      CandidateReaches(s, l, p, nodes[i], level);
    }
    forall i, j | 0 <= i < j < |gs| ensures nodes[i] != nodes[j] {
      assert nodes[i] in gs[i].nodes && nodes[j] in gs[j].nodes;
    }
    LackingAll(s, p, nodes, level);
  }

  lemma UnplannedAt(s: Site, l: Ledger, p: PoolKind, n: string)
    requires Unplanned(s, l, p)
    ensures CreatedCap(l, n, p) == 0
  {
  }

  lemma {:induction false} LackingAll(s: Site, p: PoolKind, nodes: seq<string>, level: nat)
    requires forall i :: 0 <= i < |nodes| ==> Lacking(s, p, nodes[i], level) == level
    ensures SumLacking(s, p, nodes, level) == |nodes| * level
  {
    if nodes != [] {
      LackingAll(s, p, nodes[..|nodes| - 1], level);
      assert |nodes| * level == (|nodes| - 1) * level + level;
    }
  }

  lemma {:induction false} SumLackingConcat(s: Site, p: PoolKind, a: seq<string>, b: seq<string>, level: nat)
    ensures SumLacking(s, p, a + b, level) == SumLacking(s, p, a, level) + SumLacking(s, p, b, level)
  {
    if b == [] {
      assert a + b == a;
    } else {
      assert (a + b)[..|a + b| - 1] == a + b[..|b| - 1];
      SumLackingConcat(s, p, a, b[..|b| - 1], level);
    }
  }

  // ----- placing on nodes without drives -----

  lemma StartsFresh(s: Site, l: Ledger, p: PoolKind, level: nat, g: FdGroup, n: string)
    requires Tracks(s, l) && n in s.inv && g.nodes == [n] && OnSite(s, g) && HostOn(s.existing, n).None?
    requires level >= 1 && CanReach(s, l, p, n, level) && UniqueNames(s.existing) && NonNegativeDrives(s.existing)
    ensures PlaceFd(s, l, p, level, g) == Started(s, l, p, n, s.inv[n].fdValue, level)
  {
    PlaceFdRealizes(s, l, p, level, g, n);
    HostCases(s, l, p, n, s.inv[n].fdValue, level);
    assert Lacking(s, p, n, level) == level;
    hide PlaceFd, PlaceHost, HostAdd, HostOn, CanReach, Charge;
  }

  /** What placing the level on one empty node leaves there. */
  ghost predicate Fresh(s: Site, l: Ledger, l': Ledger, p: PoolKind, level: nat, n: string)
    requires Tracks(s, l) && Tracks(s, l') && n in s.inv
  {
    && n in l'.created && l'.created[n] == Created(s.inv[n].fdValue, NO_CAPS.Plus(p, level))
    && l'.budgets[n] == Charge(s.inv[n], l.budgets[n], p, level, s.cons, true)
  }

  /** Exactly the given nodes got a container of the level. */
  ghost predicate CreatedOn(s: Site, l: Ledger, l': Ledger, p: PoolKind, level: nat, nodes: seq<string>)
    requires Tracks(s, l) && Tracks(s, l')
  {
    && l'.growth == l.growth && (forall n :: n in l'.created <==> n in l.created || n in nodes)
    && forall n :: n in nodes ==> n in s.inv && Fresh(s, l, l', p, level, n)
  }

  lemma CreatesNext(s: Site, l: Ledger, mid: Ledger, p: PoolKind, level: nat, nodes: seq<string>, n: string)
    requires Tracks(s, l) && Tracks(s, mid) && CreatedOn(s, l, mid, p, level, nodes) && Untouched(s, l, mid, n)
    requires n in s.inv && n !in nodes && n !in l.created
    ensures Tracks(s, Started(s, mid, p, n, s.inv[n].fdValue, level))
    ensures CreatedOn(s, l, Started(s, mid, p, n, s.inv[n].fdValue, level), p, level, nodes + [n])
  {
    hide Charge, HostOn;
    var l' := Started(s, mid, p, n, s.inv[n].fdValue, level);
    forall m | m in nodes + [n] ensures m in s.inv && Fresh(s, l, l', p, level, m) {
      if m != n { assert m in nodes; }
    }
  }

  /** Placing a level on empty nodes that can reach it creates exactly one container of that size on each. */
  lemma {:induction false} UniformCreates(s: Site, l: Ledger, p: PoolKind, level: nat, chosen: seq<FdGroup>,
      nodes: seq<string>)
    requires Tracks(s, l) && AllOnSite(s, chosen) && Singletons(s, chosen, nodes) && level >= 1
    requires UniqueNames(s.existing) && NonNegativeDrives(s.existing)
    requires forall i :: 0 <= i < |nodes| ==>
      HostOn(s.existing, nodes[i]).None? && nodes[i] !in l.created && CanReach(s, l, p, nodes[i], level)
    ensures CreatedOn(s, l, PlaceUniform(s, l, p, level, chosen), p, level, nodes)
  {
    if chosen == [] {
      assert nodes == [];
    } else {
      hide CreatedOn, CanReach, HostOn, PoolTotal, SumLacking, NoRollback, Untouched;
      var initC, initN := chosen[..|chosen| - 1], nodes[..|nodes| - 1];
      var g, n := chosen[|chosen| - 1], nodes[|nodes| - 1];
      assert nodes == initN + [n] && n !in initN;
      UniformCreates(s, l, p, level, initC, initN);
      PlaceUniformRealizes(s, l, p, level, initC, initN);
      var mid := PlaceUniform(s, l, p, level, initC);
      CanReachKept(s, l, mid, p, n, level);
      StartsFresh(s, mid, p, level, g, n);
      CreatesNext(s, l, mid, p, level, initN, n);
      hide PlaceFd;
    }
  }
}
