/** Auto mode: the per-failure-domain figures are the per-container ones. */
module AutoFigures {
  import opened Arith
  import opened Model
  import opened NodeBudget
  import opened Ledgers
  import opened Placement
  import opened Ordering
  import opened PoolDecision
  import opened AutoMode
  import UI = UniformIncrease

  ghost predicate AutoDrives(s: Site, existing: seq<ExistingContainer>) {
    OnePerNode(existing) && forall c :: c in existing ==> WellFormedDrive(s, c) && c.fdValue == c.node
  }

  /** Nodes of the containers that carry the pool, in order. */
  function Bearers(existing: seq<ExistingContainer>, p: PoolKind): seq<string> {
    if existing == [] then []
    else Bearers(existing[..|existing| - 1], p) +
         if existing[|existing| - 1].caps.Of(p) > 0 then [existing[|existing| - 1].node] else []
  }

  function Nodes(existing: seq<ExistingContainer>): seq<string> {
    if existing == [] then [] else Nodes(existing[..|existing| - 1]) + [existing[|existing| - 1].node]
  }

  lemma {:induction false} BearersFacts(s: Site, existing: seq<ExistingContainer>, p: PoolKind)
    requires AutoDrives(s, existing)
    ensures Distinct(Bearers(existing, p)) && Distinct(Nodes(existing)) && |Nodes(existing)| == |existing|
    ensures forall i :: 0 <= i < |existing| ==> Nodes(existing)[i] == existing[i].node
    ensures forall n :: n in Bearers(existing, p) <==> exists c :: c in existing && c.caps.Of(p) > 0 && c.node == n
  {
    if existing != [] {
      var init, last := existing[..|existing| - 1], existing[|existing| - 1];
      assert existing == init + [last];
      BearersFacts(s, init, p);
      LastIsNew(s, existing, p);
      forall n ensures n in Bearers(existing, p) <==> exists c :: c in existing && c.caps.Of(p) > 0 && c.node == n {
        if n in Bearers(init, p) {
          var c :| c in init && c.caps.Of(p) > 0 && c.node == n;
          assert c in existing;
        }
        if n == last.node && last.caps.Of(p) > 0 { assert last in existing; }
      }
    }
  }

  lemma {:induction false} FdListsAre(s: Site, existing: seq<ExistingContainer>, p: PoolKind)
    requires AutoDrives(s, existing)
    ensures PoolFds(existing, p) == Bearers(existing, p) == BearingFds(s, existing, p)
    ensures PlacedFds(s, existing) == Nodes(existing)
  {
    if existing != [] {
      var init, last := existing[..|existing| - 1], existing[|existing| - 1];
      assert existing == init + [last];
      FdListsAre(s, init, p);
      BearersFacts(s, existing, p);
      BearersFacts(s, init, p);
      assert WellFormedDrive(s, last);
      LastIsNew(s, existing, p);
    }
  }

  lemma LastIsNew(s: Site, existing: seq<ExistingContainer>, p: PoolKind)
    requires AutoDrives(s, existing) && existing != []
    ensures existing[|existing| - 1].node !in Nodes(existing[..|existing| - 1])
    ensures existing[|existing| - 1].node !in Bearers(existing[..|existing| - 1], p)
  {
    var init := existing[..|existing| - 1];
    NodesOf(init);
    BearersWithin(init, p);
    forall i | 0 <= i < |init| ensures Nodes(init)[i] != existing[|existing| - 1].node {
      assert existing[i].node != existing[|existing| - 1].node;
    }
  }

  lemma {:induction false} NodesOf(existing: seq<ExistingContainer>)
    ensures |Nodes(existing)| == |existing| && forall i :: 0 <= i < |existing| ==>
      Nodes(existing)[i] == existing[i].node
  {
    if existing != [] { NodesOf(existing[..|existing| - 1]); }
  }

  lemma {:induction false} BearersWithin(existing: seq<ExistingContainer>, p: PoolKind)
    ensures forall n :: n in Bearers(existing, p) ==> n in Nodes(existing)
  {
    if existing != [] { BearersWithin(existing[..|existing| - 1], p); }
  }

  lemma {:induction false} BearingNodesAre(s: Site, existing: seq<ExistingContainer>, p: PoolKind)
    requires AutoDrives(s, existing)
    ensures BearingNodes(s, existing, p).Keys == Elems(Bearers(existing, p))
    ensures forall n :: n in BearingNodes(s, existing, p) ==> BearingNodes(s, existing, p)[n] == n
  {
    if existing != [] {
      var init, last := existing[..|existing| - 1], existing[|existing| - 1];
      assert existing == init + [last];
      BearingNodesAre(s, init, p);
      assert WellFormedDrive(s, last);
    }
  }

  lemma OneElement(rank: map<string, int>, x: string)
    requires x in rank
    ensures Ranking(rank, {x}) == [x]
  {
    RankingDistinct(rank, {x});
    var xs := Ranking(rank, {x});
    assert xs[0] in Elems(xs);
  }

  lemma ExistingGroupIs(s: Site, l: Ledger, p: PoolKind, i: nat)
    requires Tracks(s, l) && AutoDrives(s, s.existing) && i < |Bearers(s.existing, p)|
    ensures |ExistingGroups(s, l, p)| == |Bearers(s.existing, p)|
    ensures ExistingGroups(s, l, p)[i].nodes == [Bearers(s.existing, p)[i]]
  {
    var n := Bearers(s.existing, p)[i];
    FdListsAre(s, s.existing, p);
    BearingNodesAre(s, s.existing, p);
    BearingOnSite(s, s.existing, p);
    assert n in Elems(Bearers(s.existing, p));
    var m := BearingNodes(s, s.existing, p);
    hide BearingNodes, BearingFds, Bearers, HeadroomBinding;
    assert (set x | x in m && m[x] == n) == {n};
    OneElement(GrowRanks(s, l, p), n);
  }

  // ----- reaches -----

  function OwnReach(s: Site, l: Ledger, c: ExistingContainer, p: PoolKind): UI.Reach
    requires Tracks(s, l) && c.node in s.inv
  {
    UI.Reach(c.caps.Of(p), c.caps.Of(p) + Headroom(s.inv[c.node], l.budgets[c.node], p, s.cons, false))
  }

  lemma {:induction false} FdReachIs(s: Site, l: Ledger, existing: seq<ExistingContainer>, c: ExistingContainer,
      p: PoolKind)
    requires Tracks(s, l) && AutoDrives(s, existing) && WellFormedDrive(s, c)
    ensures c in existing ==> FdReach(s, l, existing, c.node, p) == OwnReach(s, l, c, p)
    ensures (forall d :: d in existing ==> d.node != c.node) ==> FdReach(s, l, existing, c.node, p) == UI.Reach(0, 0)
  {
    hide HeadroomBinding;
    if existing != [] {
      var init, last := existing[..|existing| - 1], existing[|existing| - 1];
      assert existing == init + [last];
      FdReachIs(s, l, init, c, p);
      assert WellFormedDrive(s, last) && last.fdValue == last.node;
      if c in existing {
        if c == last {
          forall d | d in init ensures d.node != c.node {
            var i :| 0 <= i < |init| && init[i] == d;
            assert existing[i].node != existing[|existing| - 1].node;
          }
        } else {
          var i :| 0 <= i < |init| && init[i] == c;
          assert existing[i].node != existing[|existing| - 1].node;
        }
      }
    }
  }

  lemma ReachesAre(s: Site, l: Ledger, p: PoolKind, i: nat)
    requires Tracks(s, l) && AutoDrives(s, s.existing) && i < |s.existing|
    ensures |Reaches(s, l, p)| == |s.existing|
    ensures s.existing[i].node in s.inv && s.existing[i].caps.Of(p) >= 0
    ensures Reaches(s, l, p)[i] == OwnReach(s, l, s.existing[i], p)
  {
    hide HeadroomBinding, PlacedFds, FdReach;
    FdListsAre(s, s.existing, p);
    BearersFacts(s, s.existing, p);
    assert s.existing[i] in s.existing;
    FdReachIs(s, l, s.existing, s.existing[i], p);
  }

  lemma ReachesLength(s: Site, l: Ledger, p: PoolKind)
    requires Tracks(s, l) && AutoDrives(s, s.existing)
    ensures |Reaches(s, l, p)| == |s.existing|
  {
    FdListsAre(s, s.existing, p);
    BearersFacts(s, s.existing, p);
  }

  /** Sums over the first k failure domains are sums over the first k containers. */
  lemma {:induction false} ReachFigures(s: Site, l: Ledger, p: PoolKind, k: nat)
    requires Tracks(s, l) && AutoDrives(s, s.existing) && k <= |s.existing|
    ensures |Reaches(s, l, p)| == |s.existing|
    ensures UI.CapSum(Reaches(s, l, p)[..k]) == PoolCurrent(s.existing[..k], p)
    ensures UI.Carrying(Reaches(s, l, p)[..k]) == |Bearers(s.existing[..k], p)|
    ensures UI.NoneNegative(Reaches(s, l, p)[..k])
  {
    ReachesLength(s, l, p);
    if k > 0 {
      hide HeadroomBinding, Reaches;
      ReachFigures(s, l, p, k - 1);
      ReachesAre(s, l, p, k - 1);
      var rs := Reaches(s, l, p);
      assert rs[..k][..k - 1] == rs[..k - 1] && s.existing[..k][..k - 1] == s.existing[..k - 1];
    }
  }

  /** One container's contribution at a level it can reach. */
  lemma OwnContribution(s: Site, l: Ledger, c: ExistingContainer, p: PoolKind, level: nat)
    requires Tracks(s, l) && AutoDrives(s, s.existing) && c in s.existing && c.node in s.inv
    requires c.caps.Of(p) > 0 && (c.caps.Of(p) >= level || OwnReach(s, l, c, p).ceiling >= level)
    ensures CanReach(s, l, p, c.node, level)
    ensures Max(c.caps.Of(p), level) == c.caps.Of(p) + Lacking(s, p, c.node, level)
  {
    assert WellFormedDrive(s, c);
    HostIs(s.existing, c);
    HeadroomNonNegative(s.inv[c.node], l.budgets[c.node], p, s.cons);
    hide HeadroomBinding, HostOn;
  }

  /** How the running figures change from the first k - 1 containers to the first k. */
  lemma FiguresStep(s: Site, rs: seq<UI.Reach>, e: seq<ExistingContainer>, p: PoolKind, level: nat, k: nat)
    requires 0 < k <= |e| && |rs| == |e|
    requires UI.ExistingReach(rs[..k], level).Some?
    ensures UI.ExistingReach(rs[..k - 1], level).Some?
    ensures var r := rs[k - 1];
      && (r.cap > 0 ==> r.cap >= level || r.ceiling >= level)
      && UI.ExistingReach(rs[..k], level).value == UI.ExistingReach(rs[..k - 1], level).value + if r.cap > 0
        then Max(r.cap, level) else 0
    ensures PoolCurrent(e[..k], p) == PoolCurrent(e[..k - 1], p) + e[k - 1].caps.Of(p)
    ensures Bearers(e[..k], p) == Bearers(e[..k - 1], p) + if e[k - 1].caps.Of(p) > 0 then [e[k - 1].node] else []
    ensures SumLacking(s, p, Bearers(e[..k], p), level) == SumLacking(s, p, Bearers(e[..k - 1], p), level) +
      if e[k - 1].caps.Of(p) > 0 then Lacking(s, p, e[k - 1].node, level) else 0
  {
    assert rs[..k][..k - 1] == rs[..k - 1] && e[..k][..k - 1] == e[..k - 1];
    var after := Bearers(e[..k], p);
    if e[k - 1].caps.Of(p) > 0 {
      assert after[..|after| - 1] == Bearers(e[..k - 1], p) && after[|after| - 1] == e[k - 1].node;
    } else {
      assert after == Bearers(e[..k - 1], p);
    }
  }

  /** A level every existing failure domain reaches: what it adds is what the bearers lack, and each can take it. */
  lemma {:induction false} GrowFigures(s: Site, l: Ledger, p: PoolKind, level: nat, k: nat)
    requires Tracks(s, l) && AutoDrives(s, s.existing) && k <= |s.existing| && |Reaches(s, l, p)| == |s.existing|
    requires UI.ExistingReach(Reaches(s, l, p)[..k], level).Some?
    ensures UI.ExistingReach(Reaches(s, l, p)[..k], level).value
      == PoolCurrent(s.existing[..k], p) + SumLacking(s, p, Bearers(s.existing[..k], p), level)
    ensures forall n :: n in Bearers(s.existing[..k], p) ==> n in s.inv && CanReach(s, l, p, n, level)
  {
    if k > 0 {
      hide Reaches, CanReach, Lacking, SumLacking, AutoDrives, Bearers, PoolCurrent, UI.ExistingReach, Headroom;
      FiguresStep(s, Reaches(s, l, p), s.existing, p, level, k);
      GrowFigures(s, l, p, level, k - 1);
      ReachesAre(s, l, p, k - 1);
      var c := s.existing[k - 1];
      if c.caps.Of(p) > 0 { OwnContribution(s, l, c, p, level); }
    }
  }

  lemma HeadroomNonNegative(nc: NodeCapacity, b: Budget, p: PoolKind, cons: Constraints)
    ensures Headroom(nc, b, p, cons, false) >= 0
  {
  }
}
