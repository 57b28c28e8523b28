/** Candidates and their groups, spelled out: who is one, and what a group's figures are. */
module CandidateGroups {
  import opened Model
  import opened NodeBudget
  import opened Ledgers
  import opened Placement
  import opened Ordering
  import opened FreshFds
  import opened PoolDecision
  import Sums

  /**
   * A node may start a fresh failure domain exactly when it is known and eligible, has room for a chunk with a new
   * container's base, and no container on it carries the pool, or anything at all where growth is off.
   */
  lemma CandidateExact(s: Site, l: Ledger, p: PoolKind, n: string)
    requires Tracks(s, l)
    ensures IsCandidate(s, l, p, n) <==>
      && n in s.inv && s.inv[n].ineligibleReason == ""
      && s.cons.minChunk <= Headroom(s.inv[n], l.budgets[n], p, s.cons, true)
      && forall c :: c in s.existing && c.node == n && n != "" ==>
        c.caps.Of(p) <= 0 && (s.cons.allowInPlaceGrowth || (c.caps.tlc <= 0 && c.caps.qlc <= 0))
  {
    hide HeadroomBinding;
    var e := s.existing;
    assert n in PoolNodeUsed(e, p) <==> exists c :: c in e && c.node == n && n != "" && c.caps.Of(p) > 0;
    assert n in AllDriveNodes(e) <==>
      exists c :: c in e && c.node == n && n != "" && (c.caps.tlc > 0 || c.caps.qlc > 0);
  }

  lemma {:induction false} MembersRanked(rank: map<string, int>, key: map<string, string>, xs: seq<string>, k: string)
    requires (forall i :: 0 <= i < |xs| ==> xs[i] in key) && Ranked(rank, xs)
    ensures Ranked(rank, Members(key, xs, k)) && forall x :: x in Members(key, xs, k) ==> x in xs
  {
    if xs != [] {
      var init, last := xs[..|xs| - 1], xs[|xs| - 1];
      MembersRanked(rank, key, init, k);
      var ms := Members(key, init, k);
      forall i | 0 <= i < |ms| ensures Ahead(rank, ms[i], last) {
        assert ms[i] in ms;
        var j :| 0 <= j < |init| && init[j] == ms[i];
        assert xs[j] == init[j];
      }
    }
  }

  lemma {:induction false} SumIsTotal(rank: map<string, int>, nodes: seq<string>)
    requires Distinct(nodes) && forall i :: 0 <= i < |nodes| ==> nodes[i] in rank
    ensures SumRank(rank, nodes) == Sums.Total(map n | n in nodes :: rank[n])
  {
    var m := map n | n in nodes :: rank[n];
    if nodes == [] {
      assert m.Keys == {};
    } else {
      var init, last := nodes[..|nodes| - 1], nodes[|nodes| - 1];
      assert nodes == init + [last] && last !in init;
      SumIsTotal(rank, init);
      Sums.TotalTake(m, last);
      assert m - {last} == map n | n in init :: rank[n];
    }
  }

  /**
   * A group holds the candidates of one failure domain, most headroom first; its headroom is theirs together, and it is
   * marked as deleting exactly when one of its nodes has a drive being deleted.
   */
  lemma GroupExact(s: Site, l: Ledger, p: PoolKind, i: nat)
    requires Tracks(s, l) && i < |FreshGroups(s, l, p)|
    ensures OnSite(s, FreshGroups(s, l, p)[i]) && FreshGroups(s, l, p)[i].nodes != []
    ensures var g, fd := FreshGroups(s, l, p)[i], s.inv[FreshGroups(s, l, p)[i].nodes[0]].fdValue;
      && (forall n :: n in g.nodes <==> IsCandidate(s, l, p, n) && s.inv[n].fdValue == fd)
      && Ranked(Ranks(s, l, p), g.nodes)
      && g.headroom == Sums.Total(map n | n in g.nodes :: Ranks(s, l, p)[n])
      && (g.hasDeleting <==> exists n :: n in g.nodes && s.inv[n].hasDeletingDrive)
  {
    var order, key, rank := CandidateOrder(s, l, p), FdOf(s), Ranks(s, l, p);
    OrderFacts(s, l, p);
    GroupFacts(s, l, p, i);
    var fd := FirstSeen(key, order)[i];
    var g := FreshGroups(s, l, p)[i];
    assert g == GroupOf(s, rank, order, fd);
    assert Ranked(rank, order);
    assert forall j :: 0 <= j < |g.nodes| ==> g.nodes[j] in g.nodes;
    hide FirstSeen, FreshGroups, Ranks, CandidateOrder, KeySet;
    MembersRanked(rank, key, order, fd);
    SumIsTotal(rank, g.nodes);
    hide IsCandidate, SumRank, Sums.Total, Members, Ranked;
  }

  // ----- the failure domains a pool has -----

  /** The container is running on a known node, in a failure domain, and carries the pool. */
  predicate Carries(s: Site, c: ExistingContainer, p: PoolKind) {
    c.caps.Of(p) > 0 && c.fdValue != "" && !c.unscheduled && c.node != "" && c.node in s.inv
  }

  /** Container i is the first listed on its node that carries the pool, and it is in failure domain fd. */
  ghost predicate FirstBearer(s: Site, existing: seq<ExistingContainer>, p: PoolKind, n: string, fd: string, i: nat) {
    && i < |existing| && Carries(s, existing[i], p) && existing[i].node == n && existing[i].fdValue == fd
    && forall j :: 0 <= j < i ==> !(Carries(s, existing[j], p) && existing[j].node == n)
  }

  lemma {:induction false} BearingExact(s: Site, existing: seq<ExistingContainer>, p: PoolKind, n: string, fd: string)
    ensures n in BearingNodes(s, existing, p) <==>
      exists i :: 0 <= i < |existing| && Carries(s, existing[i], p) && existing[i].node == n
    ensures n in BearingNodes(s, existing, p) && BearingNodes(s, existing, p)[n] == fd <==>
      exists i: nat :: FirstBearer(s, existing, p, n, fd, i)
  {
    if existing != [] {
      var init, last := existing[..|existing| - 1], |existing| - 1;
      BearingExact(s, init, p, n, fd);
      if n in BearingNodes(s, init, p) && BearingNodes(s, init, p)[n] == fd {
        var i: nat :| FirstBearer(s, init, p, n, fd, i);
        assert FirstBearer(s, existing, p, n, fd, i);
      }
      if i: nat :| FirstBearer(s, existing, p, n, fd, i) {
        if i < last { assert FirstBearer(s, init, p, n, fd, i); }
      }
      if n !in BearingNodes(s, init, p) && Carries(s, existing[last], p) && existing[last].node == n &&
        existing[last].fdValue == fd {
        assert FirstBearer(s, existing, p, n, fd, last);
      }
    }
  }

  /**
   * A failure domain the pool has is planned over the nodes whose first container that carries the pool is in it, those
   * with the most room for growth first.
   */
  lemma ExistingGroupExact(s: Site, l: Ledger, p: PoolKind, fd: string)
    requires Tracks(s, l)
    ensures var g := ExistingGroup(s, l, p, fd);
      && (forall n :: n in g.nodes <==> exists i: nat :: FirstBearer(s, s.existing, p, n, fd, i))
      && forall i, j :: 0 <= i < j < |g.nodes| ==> var a, b := g.nodes[i], g.nodes[j];
        Headroom(s.inv[a], l.budgets[a], p, s.cons, false) >= Headroom(s.inv[b], l.budgets[b], p, s.cons, false)
  {
    var g := ExistingGroup(s, l, p, fd);
    forall n ensures n in g.nodes <==> exists i: nat :: FirstBearer(s, s.existing, p, n, fd, i) {
      BearingExact(s, s.existing, p, n, fd);
      assert n in g.nodes <==> n in Elems(g.nodes);
    }
    hide FirstBearer, HeadroomBinding;
    forall i, j | 0 <= i < j < |g.nodes|
      ensures var a, b := g.nodes[i], g.nodes[j];
        Headroom(s.inv[a], l.budgets[a], p, s.cons, false) >= Headroom(s.inv[b], l.budgets[b], p, s.cons, false)
    {
      assert Ahead(GrowRanks(s, l, p), g.nodes[i], g.nodes[j]);
    }
  }
}
