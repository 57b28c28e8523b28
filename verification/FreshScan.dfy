/** The scans over candidate failure domains, as loops. */
module FreshScan {
  import opened Arith
  import opened Model
  import opened NodeBudget
  import opened Ledgers
  import opened Placement
  import opened Ordering
  import opened FreshFds
  import opened PlanRuns

  // ----- which nodes are barred, which preferred -----

  method Exclusion(run: PlanRun, p: PoolKind) returns (used: set<string>)
    ensures used == FreshExclusion(run.Place(), p)
  {
    var existing := run.existing;
    used := {};
    for i := 0 to |existing|
      invariant used == if run.cons.allowInPlaceGrowth then PoolNodeUsed(existing[..i], p)
        else AllDriveNodes(existing[..i])
    {
      assert existing[..i + 1] == existing[..i] + [existing[i]];
      var c := existing[i];
      var bars := if run.cons.allowInPlaceGrowth then c.caps.Of(p) > 0 else c.caps.tlc > 0 || c.caps.qlc > 0;
      if c.node != "" && bars { used := used + {c.node}; }
    }
    assert existing[..|existing|] == existing;
  }

  /** otherPoolPreferNodes: nodes with a pending container of the other pool only. */
  method PreferredNodes(run: PlanRun, p: PoolKind) returns (prefer: set<string>)
    ensures prefer == PreferNodes(run.Value(), p)
  {
    var created := run.newByNode;
    var left := created.Keys;
    prefer := {};
    while left != {}
      invariant left <= created.Keys
      invariant forall n :: n in prefer <==>
        n in created.Keys - left && created[n].caps.Of(p.Other()) > 0 && created[n].caps.Of(p) == 0
      decreases left
    {
      var n :| n in left;
      left := left - {n};
      if created[n].caps.Of(p.Other()) > 0 && created[n].caps.Of(p) == 0 { prefer := prefer + {n}; }
    }
  }

  // ----- orderFreshFdGroups -----

  /** Visit the nodes in any order; keep each node's headroom and the candidates among them. */
  method CollectCandidates(run: PlanRun, p: PoolKind, exclude: set<string>)
    returns (rank: map<string, int>, cands: set<string>)
    requires run.Valid() && exclude == FreshExclusion(run.Place(), p)
    ensures rank == Ranks(run.Place(), run.Value(), p) && cands == Candidates(run.Place(), run.Value(), p)
  {
    hide HeadroomBinding, FreshExclusion;
    rank, cands := map[], {};
    var left := run.states.Keys;
    ghost var s, l := run.Place(), run.Value();
    while left != {}
      invariant left <= run.states.Keys && rank.Keys == run.states.Keys - left
      invariant forall n :: n in rank ==> rank[n] == Headroom(s.inv[n], l.budgets[n], p, s.cons, true)
      invariant forall n :: n in cands <==> n in run.states.Keys - left && IsCandidate(s, l, p, n)
      decreases left
    {
      var n :| n in left;
      left := left - {n};
      var h, _ := run.states[n].NodeHeadroom(p, run.cons, true);
      rank := rank[n := h];
      if n !in exclude && run.states[n].nc.ineligibleReason == "" && h >= run.cons.minChunk {
        cands := cands + {n};
      }
    }
    assert rank == Ranks(s, l, p);
  }

  lemma GroupGrows(s: Site, rank: map<string, int>, order: seq<string>, i: nat, fd: string)
    requires rank.Keys == s.inv.Keys && i < |order| && forall j :: 0 <= j < |order| ==> order[j] in s.inv
    ensures var g, g', n := GroupOf(s, rank, order[..i], fd), GroupOf(s, rank, order[..i + 1], fd), order[i];
      g' == if s.inv[n].fdValue != fd then g
            else FdGroup(g.nodes + [n], g.headroom + rank[n], g.hasDeleting || s.inv[n].hasDeletingDrive, false)
  {
    assert order[..i + 1][..i] == order[..i];
    MembersWithin(FdOf(s), order[..i], fd);
    MembersWithin(FdOf(s), order[..i + 1], fd);
    var ms, ms' := Members(FdOf(s), order[..i], fd), Members(FdOf(s), order[..i + 1], fd);
    if s.inv[order[i]].fdValue == fd {
      assert ms' == ms + [order[i]] && ms'[..|ms'| - 1] == ms;
      if AnyDeleting(s, ms) {
        var j :| 0 <= j < |ms| && s.inv[ms[j]].hasDeletingDrive;
        assert ms'[j] == ms[j];
      }
    } else {
      assert ms' == ms;
    }
  }

  ghost predicate GroupsMatch(s: Site, rank: map<string, int>, order: seq<string>, byFd: map<string, FdGroup>)
    requires rank.Keys == s.inv.Keys && forall j :: 0 <= j < |order| ==> order[j] in s.inv
  {
    forall fd :: fd in byFd ==> byFd[fd] == GroupOf(s, rank, order, fd)
  }

  lemma GroupsMatchNext(s: Site, rank: map<string, int>, order: seq<string>, i: nat, byFd: map<string, FdGroup>,
      g: FdGroup)
    requires rank.Keys == s.inv.Keys && i < |order| && forall j :: 0 <= j < |order| ==> order[j] in s.inv
    requires GroupsMatch(s, rank, order[..i], byFd) && g == GroupOf(s, rank, order[..i], s.inv[order[i]].fdValue)
    ensures var n := order[i];
      var g' := FdGroup(g.nodes + [n], g.headroom + rank[n], g.hasDeleting || s.inv[n].hasDeletingDrive, false);
      GroupsMatch(s, rank, order[..i + 1], byFd[s.inv[n].fdValue := g'])
  {
    hide GroupOf;
    var n := order[i];
    var g' := FdGroup(g.nodes + [n], g.headroom + rank[n], g.hasDeleting || s.inv[n].hasDeletingDrive, false);
    var next := byFd[s.inv[n].fdValue := g'];
    forall fd | fd in next
      ensures next[fd] == GroupOf(s, rank, order[..i + 1], fd) { GroupGrows(s, rank, order, i, fd); }
  }

  lemma UnseenGroupIsEmpty(s: Site, rank: map<string, int>, order: seq<string>, fd: string)
    requires rank.Keys == s.inv.Keys && forall j :: 0 <= j < |order| ==> order[j] in s.inv
    requires Distinct(order) && fd !in FirstSeen(FdOf(s), order)
    ensures GroupOf(s, rank, order, fd) == FdGroup([], 0, false, false)
  {
    FirstSeenKeys(FdOf(s), order);
    MembersExact(FdOf(s), order, fd);
    assert fd !in Elems(FirstSeen(FdOf(s), order));
  }

  /** Group an ordered candidate list by failure domain, first seen first. */
  method GroupByFd(run: PlanRun, rank: map<string, int>, order: seq<string>) returns (groups: seq<FdGroup>)
    requires run.Valid() && rank.Keys == run.states.Keys && Distinct(order) && forall j :: 0 <= j < |order| ==>
      order[j] in run.states
    ensures var s := run.Place(); var fds := FirstSeen(FdOf(s), order);
      |groups| == |fds| && forall i :: 0 <= i < |fds| ==> groups[i] == GroupOf(s, rank, order, fds[i])
  {
    hide FirstSeen, GroupOf;
    ghost var s := run.Place();
    var byFd: map<string, FdGroup> := map[];
    var fds: seq<string> := [];
    NothingSeen(s);
    for i := 0 to |order|
      invariant fds == FirstSeen(FdOf(s), order[..i])
      invariant byFd.Keys == Elems(fds)
      invariant GroupsMatch(s, rank, order[..i], byFd)
    {
      var n := order[i];
      var fd := run.states[n].nc.fdValue;
      SeenNext(s, order, i);
      var g := FdGroup([], 0, false, false);
      if fd in byFd {
        g := byFd[fd];
      } else {
        UnseenGroupIsEmpty(s, rank, order[..i], fd);
        fds := fds + [fd];
      }
      GroupsMatchNext(s, rank, order, i, byFd, g);
      byFd := byFd[fd := FdGroup(g.nodes + [n], g.headroom + rank[n], g.hasDeleting ||
        run.states[n].nc.hasDeletingDrive, false)];
    }
    assert order[..|order|] == order;
    groups := [];
    for i := 0 to |fds|
      invariant |groups| == i && forall j :: 0 <= j < i ==> groups[j] == GroupOf(s, rank, order, fds[j])
    {
      assert fds[i] in Elems(fds);
      groups := groups + [byFd[fds[i]]];
    }
  }

  lemma NothingSeen(s: Site)
    ensures FirstSeen(FdOf(s), []) == []
  {
  }

  lemma SeenNext(s: Site, order: seq<string>, i: nat)
    requires i < |order| && forall j :: 0 <= j < |order| ==> order[j] in s.inv
    ensures var seen, fd := FirstSeen(FdOf(s), order[..i]), s.inv[order[i]].fdValue;
      FirstSeen(FdOf(s), order[..i + 1]) == if fd in seen then seen else seen + [fd]
  {
    assert order[..i + 1][..i] == order[..i];
  }

  lemma IsFreshGroups(s: Site, l: Ledger, p: PoolKind, groups: seq<FdGroup>)
    requires Tracks(s, l)
    requires var order := CandidateOrder(s, l, p); var fds := FirstSeen(FdOf(s), order);
      |groups| == |fds| && forall i :: 0 <= i < |fds| ==> groups[i] == GroupOf(s, Ranks(s, l, p), order, fds[i])
    ensures groups == FreshGroups(s, l, p)
  {
    hide FirstSeen, GroupOf, Ranks, CandidateOrder;
  }

  /** The candidates, most headroom first and then by name. */
  method OrderCandidates(run: PlanRun, p: PoolKind, exclude: set<string>)
    returns (rank: map<string, int>, order: seq<string>)
    requires run.Valid() && exclude == FreshExclusion(run.Place(), p)
    ensures rank == Ranks(run.Place(), run.Value(), p) && order == CandidateOrder(run.Place(), run.Value(), p)
    ensures rank.Keys == run.states.Keys && Distinct(order) && forall j :: 0 <= j < |order| ==> order[j] in run.states
  {
    var cands;
    rank, cands := CollectCandidates(run, p, exclude);
    hide FirstSeen, IsCandidate, FreshExclusion, Ranking;
    order := SortByRank(rank, cands);
    OrderFacts(run.Place(), run.Value(), p);
  }

  method OrderFreshFdGroups(run: PlanRun, p: PoolKind, exclude: set<string>) returns (groups: seq<FdGroup>)
    requires run.Valid() && exclude == FreshExclusion(run.Place(), p)
    ensures groups == FreshGroups(run.Place(), run.Value(), p)
  {
    hide FreshGroups, FirstSeen, GroupOf, Ranks, CandidateOrder, FreshExclusion;
    var rank, order := OrderCandidates(run, p, exclude);
    groups := GroupByFd(run, rank, order);
    IsFreshGroups(run.Place(), run.Value(), p, groups);
  }

  // ----- picks -----

  lemma SelectNext(gs: seq<FdGroup>, keep: FdGroup -> bool, i: nat)
    requires i < |gs|
    ensures Select(gs[..i + 1], keep) == Select(gs[..i], keep) + if keep(gs[i]) then [gs[i]] else []
  {
    assert gs[..i + 1][..i] == gs[..i];
  }

  /** Append the groups that pass `keep`, stopping at k in all. */
  method TakeWhere(gs: seq<FdGroup>, keep: FdGroup -> bool, k: nat, sofar: seq<FdGroup>) returns (out: seq<FdGroup>)
    requires |sofar| <= k
    ensures out == Prefix(sofar + Select(gs, keep), k)
  {
    out := sofar;
    for i := 0 to |gs|
      invariant out == Prefix(sofar + Select(gs[..i], keep), k) && |out| <= k
    {
      SelectNext(gs, keep, i);
      if |out| >= k {
        PrefixFull(sofar, gs, keep, i, k);
        return out;
      }
      if keep(gs[i]) { out := out + [gs[i]]; }
      assert sofar + Select(gs[..i + 1], keep) == (sofar + Select(gs[..i], keep)) + if keep(gs[i]) then [gs[i]] else [];
    }
    assert gs[..|gs|] == gs;
  }

  lemma {:induction false} SelectPrefix(gs: seq<FdGroup>, keep: FdGroup -> bool, i: nat)
    requires i <= |gs|
    ensures Select(gs[..i], keep) <= Select(gs, keep)
  {
    if i < |gs| {
      SelectPrefix(gs[..|gs| - 1], keep, i);
      assert gs[..|gs| - 1][..i] == gs[..i];
    } else {
      assert gs[..i] == gs;
    }
  }

  lemma PrefixFull(sofar: seq<FdGroup>, gs: seq<FdGroup>, keep: FdGroup -> bool, i: nat, k: nat)
    requires i <= |gs| && |Prefix(sofar + Select(gs[..i], keep), k)| >= k
    ensures Prefix(sofar + Select(gs[..i], keep), k) == Prefix(sofar + Select(gs, keep), k)
  {
    SelectPrefix(gs, keep, i);
    var a, b := sofar + Select(gs[..i], keep), sofar + Select(gs, keep);
    assert a <= b;
  }

  lemma PrefixChain(a: seq<FdGroup>, b: seq<FdGroup>, k: nat)
    ensures Prefix(Prefix(a, k) + b, k) == Prefix(a + b, k)
  {
    if k < |a| { assert Prefix(a, k) == a[..k] && (a[..k] + b)[..k] == a[..k] == (a + b)[..k]; }
  }

  method TakeFreshAtLevel(gs: seq<FdGroup>, k: nat, level: int) returns (out: seq<FdGroup>)
    ensures out == TakeFresh(gs, k, level)
  {
    hide Select;
    var a, b, c, d := Tier(gs, level, true, false), Tier(gs, level, true, true), Tier(gs, level, false, false),
      Tier(gs, level, false, true);
    out := TakeWhere(gs, (g: FdGroup) => g.headroom >= level && g.colocated == true && g.hasDeleting == false, k, []);
    assert [] + a == a;
    out := TakeWhere(gs, (g: FdGroup) => g.headroom >= level && g.colocated == true && g.hasDeleting == true, k, out);
    PrefixChain(a, b, k);
    out := TakeWhere(gs, (g: FdGroup) => g.headroom >= level && g.colocated == false && g.hasDeleting == false, k, out);
    PrefixChain(a + b, c, k);
    out := TakeWhere(gs, (g: FdGroup) => g.headroom >= level && g.colocated == false && g.hasDeleting == true, k, out);
    PrefixChain(a + b + c, d, k);
  }

  method PickPreferringColocated(gs: seq<FdGroup>, n: nat, target: int, prefer: set<string>) returns (out: seq<FdGroup>)
    ensures out == PickColocated(gs, n, target, prefer)
  {
    hide Select;
    ghost var a := Select(gs, (g: FdGroup) => g.headroom >= target && IsColocated(g, prefer));
    ghost var b := Select(gs, (g: FdGroup) => g.headroom >= target && !IsColocated(g, prefer));
    out := TakeWhere(gs, (g: FdGroup) => g.headroom >= target && IsColocated(g, prefer), n, []);
    assert [] + a == a;
    out := TakeWhere(gs, (g: FdGroup) => g.headroom >= target && !IsColocated(g, prefer), n, out);
    PrefixChain(a, b, n);
  }

  method FreshCountAtLeast(gs: seq<FdGroup>, level: int) returns (n: nat)
    ensures n == CountAtLeast(gs, level)
  {
    n := 0;
    for i := 0 to |gs|
      invariant n == CountAtLeast(gs[..i], level)
    {
      SelectNext(gs, (g: FdGroup) => g.headroom >= level, i);
      if gs[i].headroom >= level { n := n + 1; }
    }
    assert gs[..|gs|] == gs;
  }

  /** selectUniform: the first n whose leading n candidates all hold the n-way share. */
  method SelectUniformScan(desired: int, minFd: int, gs: seq<FdGroup>, prefer: set<string>, minChunk: int)
    returns (r: Selection)
    ensures r == SelectUniform(gs, desired, minFd, minChunk, prefer)
  {
    hide PickColocated;
    var n: nat := Max(minFd, 1);
    while n <= |gs|
      invariant n >= Max(minFd, 1)
      invariant FirstTiling(gs, desired, minChunk, Max(minFd, 1)) == FirstTiling(gs, desired, minChunk, n)
      decreases |gs| + 1 - n
    {
      var target := UniformShare(desired, n, minChunk);
      var fits := true;
      var i := 0;
      while i < n && fits
        invariant 0 <= i <= n && (fits <==> forall j :: 0 <= j < i ==> gs[j].headroom >= target)
        invariant !fits ==> exists j :: 0 <= j < n && gs[j].headroom < target
        decreases n - i, fits
      {
        if gs[i].headroom < target { fits := false; }
        i := i + 1;
      }
      if fits {
        var chosen := PickPreferringColocated(gs, n, target, prefer);
        return Tiling(chosen, target);
      }
      n := n + 1;
    }
    return NoTiling;
  }

  method ColocatedFirstScan(gs: seq<FdGroup>, prefer: set<string>) returns (out: seq<FdGroup>)
    ensures out == ColocatedFirst(gs, prefer)
  {
    ghost var f := Flagged(gs, prefer);
    var front: seq<FdGroup>, back: seq<FdGroup> := [], [];
    for i := 0 to |gs|
      invariant front == Select(f[..i], (g: FdGroup) => g.colocated)
      invariant back == Select(f[..i], (g: FdGroup) => !g.colocated)
    {
      SelectNext(f, (g: FdGroup) => g.colocated, i);
      SelectNext(f, (g: FdGroup) => !g.colocated, i);
      var g := gs[i].(colocated := IsColocated(gs[i], prefer));
      if g.colocated { front := front + [g]; } else { back := back + [g]; }
    }
    assert f[..|gs|] == f;
    out := front + back;
  }

  // ----- rejected nodes -----

  datatype Rejected = Rejected(node: string, why: Why, free: int)

  datatype Why = AlreadyHosts | Ineligible | Limited(dim: Binding)

  /** Why a node is not a candidate, if it is not. */
  function Rejection(s: Site, l: Ledger, p: PoolKind, n: string): Option<Rejected>
    requires Tracks(s, l) && n in s.inv
  {
    var h := HeadroomBinding(s.inv[n], l.budgets[n], p, s.cons, true);
    if n in FreshExclusion(s, p) then Some(Rejected(n, AlreadyHosts, 0))
    else if s.inv[n].ineligibleReason != "" then Some(Rejected(n, Ineligible, 0))
    else if h.0 >= s.cons.minChunk then None
    else Some(Rejected(n, Limited(h.1), h.0))
  }

  /** The rejections of the named nodes, in that order. */
  function Rejections(s: Site, l: Ledger, p: PoolKind, names: seq<string>): seq<Rejected>
    requires Tracks(s, l) && forall i :: 0 <= i < |names| ==> names[i] in s.inv
  {
    if names == [] then []
    else
      var rest, r := Rejections(s, l, p, names[..|names| - 1]), Rejection(s, l, p, names[|names| - 1]);
      if r.Some? then rest + [r.value] else rest
  }

  /** Rejected nodes and candidates partition the inventory: each node is in exactly one of them, once. */
  lemma {:induction false} RejectionsExact(s: Site, l: Ledger, p: PoolKind, names: seq<string>)
    requires Tracks(s, l) && forall i :: 0 <= i < |names| ==> names[i] in s.inv
    requires forall i, j :: 0 <= i < j < |names| ==> NameLess(names[i], names[j])
    ensures var out := Rejections(s, l, p, names);
      && (forall i :: 0 <= i < |out| ==> out[i].node in names && !IsCandidate(s, l, p, out[i].node))
      && (forall n :: n in names && !IsCandidate(s, l, p, n) ==> exists i :: 0 <= i < |out| && out[i].node == n)
      && (forall i, j :: 0 <= i < j < |out| ==> NameLess(out[i].node, out[j].node))
  {
    hide HeadroomBinding, FreshExclusion, NameLess;
    if names != [] {
      var init, last := names[..|names| - 1], names[|names| - 1];
      RejectionsExact(s, l, p, init);
      assert names == init + [last];
      var rest, r := Rejections(s, l, p, init), Rejection(s, l, p, last);
      if r.Some? {
        forall n | n in names && !IsCandidate(s, l, p, n)
          ensures exists i :: 0 <= i < |rest + [r.value]| && (rest + [r.value])[i].node == n
        {
          if n == last {
            assert (rest + [r.value])[|rest|].node == n;
          } else {
            var i :| 0 <= i < |rest| && rest[i].node == n;
            assert (rest + [r.value])[i].node == n;
          }
        }
      }
    }
  }

  method RejectNode(run: PlanRun, p: PoolKind, exclude: set<string>, n: string) returns (r: Option<Rejected>)
    requires run.Valid() && exclude == FreshExclusion(run.Place(), p) && n in run.states
    ensures r == Rejection(run.Place(), run.Value(), p, n)
  {
    hide HeadroomBinding, FreshExclusion;
    if n in exclude { return Some(Rejected(n, AlreadyHosts, 0)); }
    if run.states[n].nc.ineligibleReason != "" { return Some(Rejected(n, Ineligible, 0)); }
    var h, dim := run.states[n].NodeHeadroom(p, run.cons, true);
    if h >= run.cons.minChunk { return None; }
    return Some(Rejected(n, Limited(dim), h));
  }

  method RejectedNodes(run: PlanRun, p: PoolKind, exclude: set<string>) returns (names: seq<string>, out: seq<Rejected>)
    requires run.Valid() && exclude == FreshExclusion(run.Place(), p)
    ensures Elems(names) == run.states.Keys && forall i, j :: 0 <= i < j < |names| ==> NameLess(names[i], names[j])
    ensures (forall i :: 0 <= i < |names| ==> names[i] in run.states)
    ensures out == Rejections(run.Place(), run.Value(), p, names)
  {
    hide Rejections, FreshExclusion, NameLess;
    names := SortNames(run.states.Keys);
    assert forall i :: 0 <= i < |names| ==> names[i] in Elems(names);
    out := RejectAll(run, p, exclude, names);
  }

  method RejectAll(run: PlanRun, p: PoolKind, exclude: set<string>, names: seq<string>) returns (out: seq<Rejected>)
    requires run.Valid() && exclude == FreshExclusion(run.Place(), p) && forall i :: 0 <= i < |names| ==>
      names[i] in run.states
    ensures out == Rejections(run.Place(), run.Value(), p, names)
  {
    hide Rejection, FreshExclusion;
    ghost var s, l := run.Place(), run.Value();
    out := [];
    for i := 0 to |names|
      invariant out == Rejections(s, l, p, names[..i])
    {
      var r := RejectNode(run, p, exclude, names[i]);
      assert names[..i + 1][..i] == names[..i];
      if r.Some? { out := out + [r.value]; }
    }
    assert names[..|names|] == names;
  }

  method SortNames(names: set<string>) returns (xs: seq<string>)
    ensures Elems(xs) == names && forall i, j :: 0 <= i < j < |xs| ==> NameLess(xs[i], xs[j])
  {
    var zero := map n | n in names :: 0;
    xs := SortByRank(zero, names);
    forall i, j | 0 <= i < j < |xs| ensures NameLess(xs[i], xs[j]) { assert Ahead(zero, xs[i], xs[j]); }
  }
}
