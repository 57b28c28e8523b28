/** Candidate failure domains for new containers: eligibility, order, and how a subset is picked. */
module FreshFds {
  import opened Arith
  import opened Model
  import opened NodeBudget
  import opened Ledgers
  import opened Placement
  import opened Ordering

  // ----- which nodes may start a fresh failure domain -----

  function PoolNodeUsed(existing: seq<ExistingContainer>, p: PoolKind): set<string> {
    set c | c in existing && c.caps.Of(p) > 0 && c.node != "" :: c.node
  }

  function AllDriveNodes(existing: seq<ExistingContainer>): set<string> {
    set c | c in existing && c.node != "" && (c.caps.tlc > 0 || c.caps.qlc > 0) :: c.node
  }

  /** With in-place growth off every occupied node is barred, since none may be converted. */
  function FreshExclusion(s: Site, p: PoolKind): set<string> {
    if s.cons.allowInPlaceGrowth then PoolNodeUsed(s.existing, p) else AllDriveNodes(s.existing)
  }

  function Ranks(s: Site, l: Ledger, p: PoolKind): map<string, int>
    requires Tracks(s, l)
  {
    map n | n in s.inv :: Headroom(s.inv[n], l.budgets[n], p, s.cons, true)
  }

  predicate IsCandidate(s: Site, l: Ledger, p: PoolKind, n: string)
    requires Tracks(s, l)
  {
    && n in s.inv && n !in FreshExclusion(s, p) && s.inv[n].ineligibleReason == ""
    && Headroom(s.inv[n], l.budgets[n], p, s.cons, true) >= s.cons.minChunk
  }

  function Candidates(s: Site, l: Ledger, p: PoolKind): set<string>
    requires Tracks(s, l)
  {
    set n | n in s.inv && IsCandidate(s, l, p, n)
  }

  // ----- grouping candidates by failure domain -----

  function FdOf(s: Site): map<string, string> { map n | n in s.inv :: s.inv[n].fdValue }

  function SumRank(rank: map<string, int>, nodes: seq<string>): int
    requires forall i :: 0 <= i < |nodes| ==> nodes[i] in rank
  {
    if nodes == [] then 0 else SumRank(rank, nodes[..|nodes| - 1]) + rank[nodes[|nodes| - 1]]
  }

  predicate AnyDeleting(s: Site, nodes: seq<string>)
    requires forall i :: 0 <= i < |nodes| ==> nodes[i] in s.inv
  {
    exists i :: 0 <= i < |nodes| && s.inv[nodes[i]].hasDeletingDrive
  }

  /** The group of failure domain fd among the ordered candidates. */
  function GroupOf(s: Site, rank: map<string, int>, order: seq<string>, fd: string): FdGroup
    requires rank.Keys == s.inv.Keys && forall i :: 0 <= i < |order| ==> order[i] in s.inv
  {
    MembersWithin(FdOf(s), order, fd);
    var nodes := Members(FdOf(s), order, fd);
    FdGroup(nodes, SumRank(rank, nodes), AnyDeleting(s, nodes), false)
  }

  lemma {:induction false} MembersWithin(key: map<string, string>, xs: seq<string>, k: string)
    requires forall i :: 0 <= i < |xs| ==> xs[i] in key
    ensures forall i :: 0 <= i < |Members(key, xs, k)| ==> Members(key, xs, k)[i] in key
  {
    if xs != [] { MembersWithin(key, xs[..|xs| - 1], k); }
  }

  ghost function CandidateOrder(s: Site, l: Ledger, p: PoolKind): (order: seq<string>)
    requires Tracks(s, l)
    ensures forall i :: 0 <= i < |order| ==> order[i] in s.inv
  {
    var order := Ranking(Ranks(s, l, p), Candidates(s, l, p));
    assert forall i :: 0 <= i < |order| ==> order[i] in Elems(order);
    order
  }

  /** Fresh failure domains, the one with the best single node first. */
  ghost function FreshGroups(s: Site, l: Ledger, p: PoolKind): seq<FdGroup>
    requires Tracks(s, l)
  {
    var order := CandidateOrder(s, l, p);
    var fds := FirstSeen(FdOf(s), order);
    seq(|fds|, i requires 0 <= i < |fds| => GroupOf(s, Ranks(s, l, p), order, fds[i]))
  }

  /** What is known of any list of fresh groups: on site, non-empty, made of candidates, no node twice. */
  ghost predicate FreshList(s: Site, l: Ledger, p: PoolKind, gs: seq<FdGroup>)
    requires Tracks(s, l)
  {
    && AllOnSite(s, gs)
    && (forall i :: 0 <= i < |gs| ==> gs[i].nodes != [])
    && (forall i, n :: 0 <= i < |gs| && n in gs[i].nodes ==> IsCandidate(s, l, p, n))
    && NodesDisjoint(gs)
  }

  ghost predicate NodesDisjoint(gs: seq<FdGroup>) {
    forall i, j, n :: 0 <= i < j < |gs| && n in gs[i].nodes ==> n !in gs[j].nodes
  }

  lemma OrderFacts(s: Site, l: Ledger, p: PoolKind)
    requires Tracks(s, l)
    ensures Distinct(CandidateOrder(s, l, p))
    ensures forall n :: n in CandidateOrder(s, l, p) <==> IsCandidate(s, l, p, n)
    ensures Distinct(FirstSeen(FdOf(s), CandidateOrder(s, l, p)))
    ensures Elems(FirstSeen(FdOf(s), CandidateOrder(s, l, p))) == KeySet(FdOf(s), CandidateOrder(s, l, p))
    ensures |FreshGroups(s, l, p)| == |FirstSeen(FdOf(s), CandidateOrder(s, l, p))|
  {
    hide IsCandidate, FirstSeen, Ranks;
    var order := CandidateOrder(s, l, p);
    RankingDistinct(Ranks(s, l, p), Candidates(s, l, p));
    FirstSeenKeys(FdOf(s), order);
    forall n ensures n in order <==> IsCandidate(s, l, p, n) {
      assert n in order <==> n in Elems(order);
      if IsCandidate(s, l, p, n) { CandidateOnSite(s, l, p, n); }
    }
  }

  /** The i-th group is exactly the candidates of the i-th failure domain. */
  lemma GroupFacts(s: Site, l: Ledger, p: PoolKind, i: nat)
    requires Tracks(s, l) && i < |FreshGroups(s, l, p)|
    ensures |FreshGroups(s, l, p)| == |FirstSeen(FdOf(s), CandidateOrder(s, l, p))|
    ensures var g, fd := FreshGroups(s, l, p)[i], FirstSeen(FdOf(s), CandidateOrder(s, l, p))[i];
      && OnSite(s, g) && g.nodes != []
      && forall n :: n in g.nodes <==> IsCandidate(s, l, p, n) && s.inv[n].fdValue == fd
  {
    OrderFacts(s, l, p);
    var order, key := CandidateOrder(s, l, p), FdOf(s);
    var fd := FirstSeen(key, order)[i];
    assert fd in Elems(FirstSeen(key, order));
    MembersExact(key, order, fd);
    MembersWithin(key, order, fd);
    hide IsCandidate, FirstSeen, Members, Ranks, KeySet;
    var g := FreshGroups(s, l, p)[i];
    assert g.nodes == Members(key, order, fd);
  }

  lemma FreshGroupsAreFresh(s: Site, l: Ledger, p: PoolKind)
    requires Tracks(s, l)
    ensures FreshList(s, l, p, FreshGroups(s, l, p))
    ensures forall n :: IsCandidate(s, l, p, n) ==>
      exists i :: 0 <= i < |FreshGroups(s, l, p)| && n in FreshGroups(s, l, p)[i].nodes
  {
    OrderFacts(s, l, p);
    hide IsCandidate, FirstSeen, FreshGroups, CandidateOrder, FdOf;
    var gs := FreshGroups(s, l, p);
    forall i | 0 <= i < |gs|
      ensures OnSite(s, gs[i]) && gs[i].nodes != []
      ensures forall n :: n in gs[i].nodes ==> IsCandidate(s, l, p, n)
    {
      GroupFacts(s, l, p, i);
    }
    forall i, j, n | 0 <= i < j < |gs| && n in gs[i].nodes ensures n !in gs[j].nodes {
      GroupFacts(s, l, p, i);
      GroupFacts(s, l, p, j);
    }
    forall n | IsCandidate(s, l, p, n) ensures exists i :: 0 <= i < |gs| && n in gs[i].nodes {
      var i := GroupOfCandidate(s, l, p, n);
    }
  }

  lemma GroupOfCandidate(s: Site, l: Ledger, p: PoolKind, n: string) returns (i: nat)
    requires Tracks(s, l) && IsCandidate(s, l, p, n)
    ensures i < |FreshGroups(s, l, p)| && n in FreshGroups(s, l, p)[i].nodes
  {
    OrderFacts(s, l, p);
    var order, key := CandidateOrder(s, l, p), FdOf(s);
    assert n in order;
    assert key[n] in Elems(FirstSeen(key, order));
    i :| 0 <= i < |FirstSeen(key, order)| && FirstSeen(key, order)[i] == key[n];
    hide FirstSeen, FreshGroups, CandidateOrder;
    GroupFacts(s, l, p, i);
  }

  lemma CandidateOnSite(s: Site, l: Ledger, p: PoolKind, n: string)
    requires Tracks(s, l) && IsCandidate(s, l, p, n)
    ensures n in s.inv && n in Candidates(s, l, p)
  {
  }

  // ----- auto mode: every node its own failure domain -----

  ghost predicate OneNodeFds(s: Site) { forall n :: n in s.inv ==> s.inv[n].fdValue == n }

  lemma {:induction false} FirstSeenIdentity(key: map<string, string>, xs: seq<string>)
    requires forall i :: 0 <= i < |xs| ==> xs[i] in key && key[xs[i]] == xs[i]
    requires Distinct(xs)
    ensures FirstSeen(key, xs) == xs
  {
    if xs != [] {
      var init := xs[..|xs| - 1];
      FirstSeenIdentity(key, init);
      assert xs == init + [xs[|xs| - 1]];
    }
  }

  lemma {:induction false} MembersSingle(key: map<string, string>, xs: seq<string>, x: string)
    requires forall i :: 0 <= i < |xs| ==> xs[i] in key && key[xs[i]] == xs[i]
    requires Distinct(xs)
    ensures Members(key, xs, x) == if x in xs then [x] else []
  {
    if xs != [] {
      var init := xs[..|xs| - 1];
      MembersSingle(key, init, x);
      assert xs == init + [xs[|xs| - 1]];
    }
  }

  /** In auto mode every group is one node carrying its own headroom, and groups come headroom first. */
  lemma OneNodeGroup(s: Site, l: Ledger, p: PoolKind, i: nat)
    requires Tracks(s, l) && OneNodeFds(s) && i < |FreshGroups(s, l, p)|
    ensures |FreshGroups(s, l, p)| == |CandidateOrder(s, l, p)|
    ensures var g, n := FreshGroups(s, l, p)[i], CandidateOrder(s, l, p)[i];
      g.nodes == [n] && g.headroom == Headroom(s.inv[n], l.budgets[n], p, s.cons, true)
  {
    OrderFacts(s, l, p);
    var order, rank := CandidateOrder(s, l, p), Ranks(s, l, p);
    FirstSeenIdentity(FdOf(s), order);
    MembersSingle(FdOf(s), order, order[i]);
    hide IsCandidate, Members, FirstSeen, HeadroomBinding;
    assert SumRank(rank, [order[i]]) == SumRank(rank, []) + rank[order[i]];
  }

  lemma OneNodeGroups(s: Site, l: Ledger, p: PoolKind)
    requires Tracks(s, l) && OneNodeFds(s)
    ensures HeadroomSorted(FreshGroups(s, l, p))
  {
    var gs, order := FreshGroups(s, l, p), CandidateOrder(s, l, p);
    assert Ranked(Ranks(s, l, p), order);
    hide FreshGroups, CandidateOrder, HeadroomBinding;
    forall i, j | 0 <= i < j < |gs| ensures gs[i].headroom >= gs[j].headroom {
      OneNodeGroup(s, l, p, i);
      OneNodeGroup(s, l, p, j);
      assert Ahead(Ranks(s, l, p), order[i], order[j]);
    }
  }

  ghost predicate HeadroomSorted(gs: seq<FdGroup>) {
    forall i, j :: 0 <= i < j < |gs| ==> gs[i].headroom >= gs[j].headroom
  }

  // ----- filtering groups -----

  function Select(gs: seq<FdGroup>, keep: FdGroup -> bool): seq<FdGroup> {
    if gs == [] then []
    else Select(gs[..|gs| - 1], keep) + if keep(gs[|gs| - 1]) then [gs[|gs| - 1]] else []
  }

  ghost predicate NoDup(gs: seq<FdGroup>) { forall i, j :: 0 <= i < j < |gs| ==> gs[i] != gs[j] }

  lemma {:induction false} SelectExact(gs: seq<FdGroup>, keep: FdGroup -> bool)
    ensures forall g :: g in Select(gs, keep) <==> g in gs && keep(g)
    ensures NoDup(gs) ==> NoDup(Select(gs, keep))
    ensures |Select(gs, keep)| <= |gs|
  {
    if gs != [] {
      SelectExact(gs[..|gs| - 1], keep);
      assert gs == gs[..|gs| - 1] + [gs[|gs| - 1]];
    }
  }

  function AtLeast(gs: seq<FdGroup>, level: int): seq<FdGroup> { Select(gs, (g: FdGroup) => g.headroom >= level) }

  function CountAtLeast(gs: seq<FdGroup>, level: int): nat { |AtLeast(gs, level)| }

  lemma {:induction false} CountAntitone(gs: seq<FdGroup>, level: int, level': int)
    requires level <= level'
    ensures CountAtLeast(gs, level') <= CountAtLeast(gs, level) <= |gs|
  {
    if gs != [] { CountAntitone(gs[..|gs| - 1], level, level'); }
  }

  function Prefix(gs: seq<FdGroup>, k: nat): seq<FdGroup> { if k < |gs| then gs[..k] else gs }

  /** Co-location is the primary key, not-deleting the secondary one. */
  function Tier(gs: seq<FdGroup>, level: int, colocated: bool, deleting: bool): seq<FdGroup> {
    Select(gs, (g: FdGroup) => g.headroom >= level && g.colocated == colocated && g.hasDeleting == deleting)
  }

  function Tiered(gs: seq<FdGroup>, level: int): seq<FdGroup> {
    Tier(gs, level, true, false) + Tier(gs, level, true, true) + Tier(gs, level, false, false) +
      Tier(gs, level, false, true)
  }

  function TakeFresh(gs: seq<FdGroup>, k: nat, level: int): seq<FdGroup> { Prefix(Tiered(gs, level), k) }

  lemma {:induction false} TieredCount(gs: seq<FdGroup>, level: int)
    ensures |Tiered(gs, level)| == CountAtLeast(gs, level)
  {
    if gs != [] { TieredCount(gs[..|gs| - 1], level); }
  }

  /** Any reordering by tiers takes groups of the list, none twice, each able to host the level. */
  lemma TakeFreshExact(gs: seq<FdGroup>, k: nat, level: int)
    requires NoDup(gs)
    ensures |TakeFresh(gs, k, level)| == Min(k, CountAtLeast(gs, level))
    ensures NoDup(TakeFresh(gs, k, level))
    ensures forall g :: g in TakeFresh(gs, k, level) ==> g in gs && g.headroom >= level
  {
    TieredCount(gs, level);
    SelectExact(gs, (g: FdGroup) => g.headroom >= level && g.colocated == true && g.hasDeleting == false);
    SelectExact(gs, (g: FdGroup) => g.headroom >= level && g.colocated == true && g.hasDeleting == true);
    SelectExact(gs, (g: FdGroup) => g.headroom >= level && g.colocated == false && g.hasDeleting == false);
    SelectExact(gs, (g: FdGroup) => g.headroom >= level && g.colocated == false && g.hasDeleting == true);
    var a, b, c, d := Tier(gs, level, true, false), Tier(gs, level, true, true), Tier(gs, level, false, false),
      Tier(gs, level, false, true);
    NoDupConcat(a, b);
    NoDupConcat(a + b, c);
    NoDupConcat(a + b + c, d);
  }

  lemma NoDupConcat(a: seq<FdGroup>, b: seq<FdGroup>)
    requires NoDup(a) && NoDup(b) && forall g :: g in a ==> g !in b
    ensures NoDup(a + b)
  {
    forall i, j | 0 <= i < j < |a + b| ensures (a + b)[i] != (a + b)[j] {
      if i < |a| <= j { assert a[i] in a && b[j - |a|] in b; }
    }
  }

  /** Sub-lists of a fresh list are fresh lists. */
  lemma SublistFresh(s: Site, l: Ledger, p: PoolKind, gs: seq<FdGroup>, sub: seq<FdGroup>)
    requires Tracks(s, l) && FreshList(s, l, p, gs) && NoDup(sub) && forall g :: g in sub ==> g in gs
    ensures FreshList(s, l, p, sub)
  {
    hide IsCandidate;
    forall i, j, n | 0 <= i < j < |sub| && n in sub[i].nodes ensures n !in sub[j].nodes {
      assert sub[i] in gs && sub[j] in gs;
      var a :| 0 <= a < |gs| && gs[a] == sub[i];
      var b :| 0 <= b < |gs| && gs[b] == sub[j];
      assert a != b;
    }
    forall i, n | 0 <= i < |sub| && n in sub[i].nodes ensures IsCandidate(s, l, p, n) { assert sub[i] in gs; }
    forall i | 0 <= i < |sub| ensures OnSite(s, sub[i]) && sub[i].nodes != [] { assert sub[i] in gs; }
  }

  lemma FreshListNoDup(s: Site, l: Ledger, p: PoolKind, gs: seq<FdGroup>)
    requires Tracks(s, l) && FreshList(s, l, p, gs)
    ensures NoDup(gs)
  {
    forall i, j | 0 <= i < j < |gs| ensures gs[i] != gs[j] {
      assert gs[i].nodes[0] in gs[i].nodes;
    }
  }

  // ----- co-location -----

  /** Nodes whose pending container carries the other pool but not this one. */
  function PreferNodes(l: Ledger, p: PoolKind): set<string> {
    set n | n in l.created && CreatedCap(l, n, p.Other()) > 0 && CreatedCap(l, n, p) == 0
  }

  predicate IsColocated(g: FdGroup, prefer: set<string>) { exists i :: 0 <= i < |g.nodes| && g.nodes[i] in prefer }

  function Flagged(gs: seq<FdGroup>, prefer: set<string>): seq<FdGroup> {
    seq(|gs|, i requires 0 <= i < |gs| => gs[i].(colocated := IsColocated(gs[i], prefer)))
  }

  /** Groups with a preferred node first, flagged; the order within each part is kept. */
  function ColocatedFirst(gs: seq<FdGroup>, prefer: set<string>): seq<FdGroup> {
    Select(Flagged(gs, prefer), (g: FdGroup) => g.colocated) + Select(Flagged(gs, prefer), (g: FdGroup) => !g.colocated)
  }

  lemma {:induction false} PartitionCount(gs: seq<FdGroup>)
    ensures |Select(gs, (g: FdGroup) => g.colocated)| + |Select(gs, (g: FdGroup) => !g.colocated)| == |gs|
  {
    if gs != [] { PartitionCount(gs[..|gs| - 1]); }
  }

  /** The reordered list is a fresh list with the same groups up to the flag. */
  lemma ColocatedFirstFresh(s: Site, l: Ledger, p: PoolKind, gs: seq<FdGroup>, prefer: set<string>)
    requires Tracks(s, l) && FreshList(s, l, p, gs)
    ensures FreshList(s, l, p, ColocatedFirst(gs, prefer))
    ensures |ColocatedFirst(gs, prefer)| == |gs|
    ensures forall g :: g in ColocatedFirst(gs, prefer) ==> g in Flagged(gs, prefer)
  {
    hide IsCandidate;
    var f := Flagged(gs, prefer);
    assert FreshList(s, l, p, f);
    FreshListNoDup(s, l, p, f);
    SelectExact(f, (g: FdGroup) => g.colocated);
    SelectExact(f, (g: FdGroup) => !g.colocated);
    PartitionCount(f);
    var a, b := Select(f, (g: FdGroup) => g.colocated), Select(f, (g: FdGroup) => !g.colocated);
    NoDupConcat(a, b);
    SublistFresh(s, l, p, f, ColocatedFirst(gs, prefer));
  }

  /** pickPreferringColocated: n groups able to host target, preferred ones first. */
  function PickColocated(gs: seq<FdGroup>, n: nat, target: int, prefer: set<string>): seq<FdGroup> {
    Prefix(Select(gs, (g: FdGroup) => g.headroom >= target && IsColocated(g, prefer)) +
           Select(gs, (g: FdGroup) => g.headroom >= target && !IsColocated(g, prefer)), n)
  }

  lemma {:induction false} PickCount(gs: seq<FdGroup>, target: int, prefer: set<string>)
    ensures |Select(gs, (g: FdGroup) => g.headroom >= target && IsColocated(g, prefer))| +
            |Select(gs, (g: FdGroup) => g.headroom >= target && !IsColocated(g, prefer))| == CountAtLeast(gs, target)
  {
    if gs != [] { PickCount(gs[..|gs| - 1], target, prefer); }
  }

  lemma PickColocatedExact(gs: seq<FdGroup>, n: nat, target: int, prefer: set<string>)
    requires NoDup(gs)
    ensures |PickColocated(gs, n, target, prefer)| == Min(n, CountAtLeast(gs, target))
    ensures NoDup(PickColocated(gs, n, target, prefer))
    ensures forall g :: g in PickColocated(gs, n, target, prefer) ==> g in gs && g.headroom >= target
  {
    PickCount(gs, target, prefer);
    SelectExact(gs, (g: FdGroup) => g.headroom >= target && IsColocated(g, prefer));
    SelectExact(gs, (g: FdGroup) => g.headroom >= target && !IsColocated(g, prefer));
    var a := Select(gs, (g: FdGroup) => g.headroom >= target && IsColocated(g, prefer));
    var b := Select(gs, (g: FdGroup) => g.headroom >= target && !IsColocated(g, prefer));
    NoDupConcat(a, b);
  }

  // ----- selectUniform -----

  function UniformShare(desired: int, n: int, minChunk: int): nat { Max(minChunk, CeilDiv(desired, n)) }

  /** The first n candidates can each hold the share of an n-way split. */
  predicate TilesFirst(gs: seq<FdGroup>, desired: int, minChunk: int, n: nat) {
    n <= |gs| && forall i :: 0 <= i < n ==> gs[i].headroom >= UniformShare(desired, n, minChunk)
  }

  function FirstTiling(gs: seq<FdGroup>, desired: int, minChunk: int, n: nat): (r: Option<nat>)
    ensures r.Some? ==> n <= r.value <= |gs| && TilesFirst(gs, desired, minChunk, r.value)
    ensures forall m :: n <= m < (if r.Some? then r.value else |gs| + 1) ==> !TilesFirst(gs, desired, minChunk, m)
    decreases |gs| + 1 - n
  {
    if n > |gs| then None
    else if TilesFirst(gs, desired, minChunk, n) then Some(n)
    else FirstTiling(gs, desired, minChunk, n + 1)
  }

  datatype Selection = NoTiling | Tiling(chosen: seq<FdGroup>, level: nat)

  function SelectUniform(gs: seq<FdGroup>, desired: int, minFd: int, minChunk: int, prefer: set<string>): Selection {
    match FirstTiling(gs, desired, minChunk, Max(minFd, 1))
    case None => NoTiling
    case Some(n) =>
      var t := UniformShare(desired, n, minChunk);
      Tiling(PickColocated(gs, n, t, prefer), t)
  }

  /** n failure domains of the list, in any order, can hold the share of an n-way split. */
  predicate CanTile(gs: seq<FdGroup>, desired: int, minChunk: int, n: int) {
    CountAtLeast(gs, UniformShare(desired, n, minChunk)) >= n
  }

  lemma {:induction false} SortedCount(gs: seq<FdGroup>, n: nat, level: int)
    requires HeadroomSorted(gs) && n <= |gs|
    ensures CountAtLeast(gs, level) >= n <==> forall i :: 0 <= i < n ==> gs[i].headroom >= level
  {
    if gs != [] {
      var init := gs[..|gs| - 1];
      CountAntitone(init, level, level);
      if n < |gs| {
        SortedCount(init, n, level);
        if CountAtLeast(init, level) < n {
          var i :| 0 <= i < n && gs[i].headroom < level;
        }
      } else {
        SortedCount(init, n - 1, level);
      }
    }
  }

  /**
   * On headroom-sorted candidates selectUniform finds the least n >= minFd for which some n failure domains
   * can hold the n-way share, returns exactly n different ones that do, and gives up only when no n works.
   */
  lemma SelectUniformLeast(gs: seq<FdGroup>, desired: int, minFd: int, minChunk: int, prefer: set<string>)
    requires HeadroomSorted(gs) && NoDup(gs)
    ensures match SelectUniform(gs, desired, minFd, minChunk, prefer)
      case NoTiling => forall n :: Max(minFd, 1) <= n <= |gs| ==> !CanTile(gs, desired, minChunk, n)
      case Tiling(chosen, level) =>
        && Max(minFd, 1) <= |chosen| <= |gs|
        && level == UniformShare(desired, |chosen|, minChunk) && |chosen| * level >= desired
        && (forall n :: Max(minFd, 1) <= n < |chosen| ==> !CanTile(gs, desired, minChunk, n))
        && NoDup(chosen) && forall g :: g in chosen ==> g in gs && g.headroom >= level
  {
    var lo := Max(minFd, 1);
    forall n | lo <= n <= |gs| ensures TilesFirst(gs, desired, minChunk, n) <==> CanTile(gs, desired, minChunk, n) {
      SortedCount(gs, n, UniformShare(desired, n, minChunk));
    }
    match FirstTiling(gs, desired, minChunk, lo)
    case None =>
    case Some(n) =>
      var t := UniformShare(desired, n, minChunk);
      PickColocatedExact(gs, n, t, prefer);
      CeilDivCovers(desired, n);
      MulMono(CeilDiv(desired, n), t, n);
  }

  /** The shortfall uniformInfeasible reports: the smallest share against the last candidate. */
  function UniformShortfall(gs: seq<FdGroup>, desired: int, minFd: int, minChunk: int): int {
    if |gs| < minFd || gs == [] then 0
    else Max(0, UniformShare(desired, |gs|, minChunk) - gs[|gs| - 1].headroom)
  }

  /** A failed selection over enough sorted candidates reports how much the weakest one lacks. */
  lemma ShortfallPositive(gs: seq<FdGroup>, desired: int, minFd: int, minChunk: int, prefer: set<string>)
    requires HeadroomSorted(gs) && |gs| >= Max(minFd, 1)
    requires SelectUniform(gs, desired, minFd, minChunk, prefer) == NoTiling
    ensures UniformShortfall(gs, desired, minFd, minChunk) > 0
  {
    assert !TilesFirst(gs, desired, minChunk, |gs|);
  }

  /** A list whose first n groups hold the share has n groups that do. */
  lemma {:induction false} FirstsCount(gs: seq<FdGroup>, n: nat, level: int)
    requires n <= |gs| && forall i :: 0 <= i < n ==> gs[i].headroom >= level
    ensures CountAtLeast(gs, level) >= n
  {
    if n > 0 { FirstsCount(gs[..|gs| - 1], if n == |gs| then n - 1 else n, level); }
  }

  function FirstCanTile(gs: seq<FdGroup>, desired: int, minChunk: int, n: nat): (r: Option<nat>)
    ensures r.Some? ==> n <= r.value <= |gs| && CanTile(gs, desired, minChunk, r.value)
    ensures forall m :: n <= m <= |gs| && (r.None? || m < r.value) ==> !CanTile(gs, desired, minChunk, m)
    decreases |gs| + 1 - n
  {
    if n > |gs| then None
    else if CanTile(gs, desired, minChunk, n) then Some(n)
    else FirstCanTile(gs, desired, minChunk, n + 1)
  }

  /** The fewest failure domains, at least minFd, over which the target can be spread evenly. */
  function LeastTiling(gs: seq<FdGroup>, desired: int, minFd: int, minChunk: int): Option<nat> {
    FirstCanTile(gs, desired, minChunk, Max(minFd, 1))
  }

  /**
   * On any candidate list selectUniform takes the fewest failure domains that tile exactly when the leading ones of
   * that many hold the share; it never tiles with fewer, and it tiles nothing that cannot be tiled.
   */
  lemma SelectionLeastIff(gs: seq<FdGroup>, desired: int, minFd: int, minChunk: int, prefer: set<string>)
    requires NoDup(gs)
    ensures var pick, least :=
      SelectUniform(gs, desired, minFd, minChunk, prefer), LeastTiling(gs, desired, minFd, minChunk);
      && (least.None? ==> pick == NoTiling)
      && (least.Some? && pick.Tiling? ==> |pick.chosen| >= least.value)
      && (least.Some? ==>
           (pick.Tiling? && |pick.chosen| == least.value <==> TilesFirst(gs, desired, minChunk, least.value)))
  {
    var lo := Max(minFd, 1);
    forall n | lo <= n <= |gs| && TilesFirst(gs, desired, minChunk, n) ensures CanTile(gs, desired, minChunk, n) {
      FirstsCount(gs, n, UniformShare(desired, n, minChunk));
    }
    var first := FirstTiling(gs, desired, minChunk, lo);
    if first.Some? { PickColocatedExact(gs, first.value, UniformShare(desired, first.value, minChunk), prefer); }
    hide PickColocated, CountAtLeast;
  }

  /** A failed selection over enough candidates reports a shortfall exactly when the last one is below the share. */
  lemma ShortfallIff(gs: seq<FdGroup>, desired: int, minFd: int, minChunk: int, prefer: set<string>)
    requires |gs| >= Max(minFd, 1) && SelectUniform(gs, desired, minFd, minChunk, prefer) == NoTiling
    ensures UniformShortfall(gs, desired, minFd, minChunk) > 0
       <==> gs[|gs| - 1].headroom < UniformShare(desired, |gs|, minChunk)
    ensures exists i :: 0 <= i < |gs| && gs[i].headroom < UniformShare(desired, |gs|, minChunk)
  {
    assert !TilesFirst(gs, desired, minChunk, |gs|);
  }
}
