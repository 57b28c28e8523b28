/** The scans of compute sizing and ordering, as loops. */
module ComputeScan {
  import opened Arith
  import opened Model
  import opened Ordering
  import opened FdSpread
  import opened ComputeLayout

  // ----- deriveComputeLayout -----

  method HugepagesFitCheck(headroom: seq<int>, hps: Option<seq<int>>, count: int, cores: int, maxCores: int,
      hpFor: HugepagesFor) returns (ok: bool)
    ensures ok == HugepagesOk(headroom, hps, count, cores, maxCores, hpFor)
  {
    if hpFor.None? { return true; }
    var fit := NodesFitting(headroom, hps, cores, hpFor.value(count, cores), maxCores);
    return fit >= count;
  }

  /** The scan over container counts, fewest first; the headroom is sorted once. */
  method ScanCounts(headroom: seq<int>, hps: Option<seq<int>>, t: int, floor: int, maxCores: int, hpFor: HugepagesFor)
    returns (r: Option<nat>)
    ensures r == FirstCount(headroom, hps, t, maxCores, hpFor, Max(floor, 1))
  {
    hide HugepagesOk;
    var sorted := SortDesc(headroom);
    var n: nat := Max(floor, 1);
    while n <= |headroom|
      invariant n >= 1
      invariant FirstCount(headroom, hps, t, maxCores, hpFor, Max(floor, 1)) ==
        FirstCount(headroom, hps, t, maxCores, hpFor, n)
      decreases |headroom| + 1 - n
    {
      var c := Max(1, CeilDiv(t, n));
      if TopNMinSorted(sorted, n, maxCores) >= c {
        var ok := HugepagesFitCheck(headroom, hps, n, c, maxCores, hpFor);
        if ok { return Some(n); }
      }
      n := n + 1;
    }
    return None;
  }

  method DeriveComputeLayout(specCount: int, specCores: int, t: int, floor: int, maxCores: int,
                             headroom: seq<int>, hps: Option<seq<int>>, hpFor: HugepagesFor) returns (r: Layout)
    ensures r == Derive(specCount, specCores, t, floor, maxCores, headroom, hps, hpFor)
  {
    hide HugepagesOk, FirstCount, TopNMin, Diagnose;
    var d := |headroom|;
    if specCount != 0 {
      if specCount > d { return NoLayout(Unclassified); }
      var cores := specCores;
      if cores == 0 { cores := Max(1, CeilDiv(t, specCount)); }
      var perContainer := TopNMin(headroom, specCount, maxCores);
      if perContainer > 0 && cores > perContainer { return NoLayout(Cores); }
      var ok := HugepagesFitCheck(headroom, hps, specCount, cores, maxCores, hpFor);
      if !ok { return NoLayout(Hugepages); }
      if specCount * cores < t { return NoLayout(Cores); }
      return Layout(specCount, cores);
    }
    if specCores != 0 {
      if specCores <= 0 { return NoLayout(Cores); }
      var count := Max(floor, CeilDiv(t, specCores));
      if count > d { return NoLayout(Cores); }
      var perContainer := TopNMin(headroom, count, maxCores);
      if perContainer <= 0 || specCores > perContainer { return NoLayout(Cores); }
      var ok := HugepagesFitCheck(headroom, hps, count, specCores, maxCores, hpFor);
      if !ok { return NoLayout(Hugepages); }
      return Layout(count, specCores);
    }
    var n := ScanCounts(headroom, hps, t, floor, maxCores, hpFor);
    if n.Some? { return Layout(n.value, EvenCores(t, n.value)); }
    return NoLayout(Diagnose(headroom, hps, t, maxCores, hpFor));
  }

  // ----- orderNodesByFDSpread -----

  lemma {:induction false} RoundsPrefix(groups: seq<seq<string>>, r: nat, k: nat)
    requires r <= k
    ensures Rounds(groups, r) <= Rounds(groups, k)
  {
    if r < k { RoundsPrefix(groups, r, k - 1); }
  }

  /** One member of each group per round, until every node is listed. */
  method RoundRobin(groups: seq<seq<string>>, total: nat) returns (out: seq<string>)
    requires |Rounds(groups, total)| == total
    ensures out == Rounds(groups, total)
  {
    out := [];
    var round: nat := 0;
    while |out| < total
      invariant round <= total && out == Rounds(groups, round)
      decreases total - round
    {
      ghost var before := out;
      for g := 0 to |groups|
        invariant out == before + Round(groups, round, g)
      {
        if round < |groups[g]| { out := out + [groups[g][round]]; }
      }
      round := round + 1;
    }
    RoundsPrefix(groups, round, total);
  }

  /** Nodes by failure domain. */
  method GroupNodes(nodes: seq<string>, fdOf: map<string, string>) returns (byFd: map<string, set<string>>)
    requires Resolved(fdOf, nodes)
    ensures byFd.Keys == KeySet(fdOf, nodes)
    ensures forall fd :: fd in byFd ==> byFd[fd] == MemberSet(nodes, fdOf, fd)
  {
    byFd := map[];
    for i := 0 to |nodes|
      invariant forall fd :: fd in byFd <==> fd in KeySet(fdOf, nodes[..i])
      invariant forall fd :: fd in byFd ==> byFd[fd] == MemberSet(nodes[..i], fdOf, fd)
    {
      var n := nodes[i];
      AddNode(nodes, fdOf, i);
      var was := if fdOf[n] in byFd then byFd[fdOf[n]] else {};
      byFd := byFd[fdOf[n] := was + {n}];
    }
    assert nodes[..|nodes|] == nodes;
  }

  lemma AddNode(nodes: seq<string>, fdOf: map<string, string>, i: nat)
    requires Resolved(fdOf, nodes) && i < |nodes|
    ensures KeySet(fdOf, nodes[..i + 1]) == KeySet(fdOf, nodes[..i]) + {fdOf[nodes[i]]}
    ensures forall fd ::
      MemberSet(nodes[..i + 1], fdOf, fd) ==
        MemberSet(nodes[..i], fdOf, fd) + if fd == fdOf[nodes[i]] then {nodes[i]} else {}
    ensures fdOf[nodes[i]] !in KeySet(fdOf, nodes[..i]) ==> MemberSet(nodes[..i], fdOf, fdOf[nodes[i]]) == {}
  {
    assert nodes[..i + 1] == nodes[..i] + [nodes[i]];
  }

  /** Sort each group, best headroom first. */
  method SortMembers(nodes: seq<string>, rank: map<string, int>, fdOf: map<string, string>, byFd: map<string,
      set<string>>)
    returns (sorted: map<string, seq<string>>, best: map<string, int>)
    requires Knows(nodes, rank, fdOf) && byFd.Keys == KeySet(fdOf, nodes)
    requires forall fd :: fd in byFd ==> byFd[fd] == MemberSet(nodes, fdOf, fd)
    ensures sorted.Keys == byFd.Keys && forall fd :: fd in sorted ==> sorted[fd] == SpreadGroup(nodes, rank, fdOf, fd)
    ensures best == FdRank(nodes, rank, fdOf)
  {
    hide KeySet, MemberSet, Ranking;
    sorted, best := map[], map[];
    var left := byFd.Keys;
    while left != {}
      invariant left <= byFd.Keys
      invariant forall fd :: (fd in sorted <==> fd in byFd && fd !in left) && (fd in best <==> fd in sorted)
      invariant forall fd :: fd in sorted ==>
        sorted[fd] == SpreadGroup(nodes, rank, fdOf, fd) && best[fd] == FdRank(nodes, rank, fdOf)[fd]
      decreases left
    {
      var fd :| fd in left;
      left := left - {fd};
      MembersRanked(nodes, rank, fdOf, fd);
      var g := SortByRank(rank, byFd[fd]);
      assert forall i :: 0 <= i < |g| ==> g[i] in Elems(g);
      sorted, best := sorted[fd := g], best[fd := if g == [] then 0 else rank[g[0]]];
    }
  }

  lemma MembersRanked(nodes: seq<string>, rank: map<string, int>, fdOf: map<string, string>, fd: string)
    requires Knows(nodes, rank, fdOf)
    ensures MemberSet(nodes, fdOf, fd) <= rank.Keys
  {
  }

  method OrderNodesByFDSpread(nodes: seq<string>, rank: map<string, int>, fdOf: map<string, string>)
    returns (out: seq<string>)
    requires Knows(nodes, rank, fdOf)
    ensures out == Spread(nodes, rank, fdOf)
  {
    hide KeySet, MemberSet, Ranking, SpreadGroup, Rounds;
    var byFd := GroupNodes(nodes, fdOf);
    var sorted, best := SortMembers(nodes, rank, fdOf, byFd);
    var fds := SortByRank(best, byFd.Keys);
    var groups: seq<seq<string>> := [];
    for i := 0 to |fds|
      invariant |groups| == i && forall j :: 0 <= j < i ==> groups[j] == SpreadGroup(nodes, rank, fdOf, fds[j])
    {
      assert fds[i] in Elems(fds);
      groups := groups + [sorted[fds[i]]];
    }
    assert groups == SpreadGroups(nodes, rank, fdOf);
    SpreadPermutes(nodes, rank, fdOf);
    out := RoundRobin(groups, |nodes|);
  }

  /** Extend the new containers one node at a time until enough failure domains are spanned. */
  method ExtendSpan(covered: set<string>, fdOf: map<string, string>, order: seq<string>, n: nat, minFds: int)
    returns (m: nat, span: set<string>)
    requires Resolved(fdOf, order) && n <= |order|
    ensures m == Extend(covered, fdOf, order, n, minFds) && span == SpanAt(covered, fdOf, order, m)
  {
    span := covered;
    for i := 0 to n
      invariant span == SpanAt(covered, fdOf, order, i)
    {
      NextPick(covered, fdOf, order, i);
      span := span + {fdOf[order[i]]};
    }
    m := n;
    while m < |order| && |span| < minFds
      invariant n <= m <= |order| && span == SpanAt(covered, fdOf, order, m)
      invariant Extend(covered, fdOf, order, n, minFds) == Extend(covered, fdOf, order, m, minFds)
      decreases |order| - m
    {
      NextPick(covered, fdOf, order, m);
      span := span + {fdOf[order[m]]};
      m := m + 1;
    }
  }

  lemma NextPick(covered: set<string>, fdOf: map<string, string>, order: seq<string>, i: nat)
    requires Resolved(fdOf, order) && i < |order|
    ensures SpanAt(covered, fdOf, order, i + 1) == SpanAt(covered, fdOf, order, i) + {fdOf[order[i]]}
  {
    assert order[..i + 1] == order[..i] + [order[i]];
  }
}
