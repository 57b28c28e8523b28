/** orderNodesByFDSpread and the failure-domain-spanning step of compute placement. */
module FdSpread {
  import opened Arith
  import opened Ordering

  // ----- round robin over groups -----

  /** The r-th members of the first k groups that have one. */
  function Round(groups: seq<seq<string>>, r: nat, k: nat): seq<string>
    requires k <= |groups|
  {
    if k == 0 then []
    else Round(groups, r, k - 1) + if r < |groups[k - 1]| then [groups[k - 1][r]] else []
  }

  /** Rounds 0 to r - 1, one after the other. */
  function Rounds(groups: seq<seq<string>>, r: nat): seq<string> {
    if r == 0 then [] else Rounds(groups, r - 1) + Round(groups, r - 1, |groups|)
  }

  ghost predicate Partition(groups: seq<seq<string>>) {
    && (forall g :: 0 <= g < |groups| ==> Distinct(groups[g]))
    && forall g, h, x :: 0 <= g < h < |groups| && x in groups[g] ==> x !in groups[h]
  }

  lemma {:induction false} RoundMembers(groups: seq<seq<string>>, r: nat, k: nat)
    requires k <= |groups| && Partition(groups)
    ensures forall x :: x in Round(groups, r, k) <==> exists g :: 0 <= g < k && r < |groups[g]| && groups[g][r] == x
    ensures Distinct(Round(groups, r, k))
  {
    if k > 0 {
      RoundMembers(groups, r, k - 1);
      forall g | 0 <= g < k - 1 && r < |groups[g]| && r < |groups[k - 1]| ensures groups[g][r] != groups[k - 1][r] {
        assert groups[g][r] in groups[g] && groups[k - 1][r] in groups[k - 1];
      }
      assert r < |groups[k - 1]| ==> groups[k - 1][r] !in Round(groups, r, k - 1);
    }
  }

  ghost predicate InRounds(groups: seq<seq<string>>, r: nat, x: string) {
    exists g, i :: 0 <= g < |groups| && 0 <= i < |groups[g]| && i < r && groups[g][i] == x
  }

  lemma SamePlace(groups: seq<seq<string>>, g: nat, i: nat, h: nat, j: nat)
    requires Partition(groups) && g < |groups| && i < |groups[g]| && h < |groups| && j < |groups[h]|
    requires groups[g][i] == groups[h][j]
    ensures g == h && i == j
  {
    assert groups[g][i] in groups[g] && groups[h][j] in groups[h];
  }

  lemma {:induction false} RoundsMembers(groups: seq<seq<string>>, r: nat)
    requires Partition(groups)
    ensures forall x :: x in Rounds(groups, r) <==> InRounds(groups, r, x)
    ensures Distinct(Rounds(groups, r))
  {
    if r > 0 {
      RoundsMembers(groups, r - 1);
      RoundMembers(groups, r - 1, |groups|);
      var before, last := Rounds(groups, r - 1), Round(groups, r - 1, |groups|);
      forall x | x in last ensures x !in before {
        var g :| 0 <= g < |groups| && r - 1 < |groups[g]| && groups[g][r - 1] == x;
        if InRounds(groups, r - 1, x) {
          var h, i :| 0 <= h < |groups| && 0 <= i < |groups[h]| && i < r - 1 && groups[h][i] == x;
          SamePlace(groups, g, r - 1, h, i);
        }
      }
      DistinctConcat(before, last);
      forall x ensures x in Rounds(groups, r) <==> InRounds(groups, r, x) {
        if InRounds(groups, r, x) && !InRounds(groups, r - 1, x) {
          var g, i :| 0 <= g < |groups| && 0 <= i < |groups[g]| && i < r && groups[g][i] == x;
          assert i == r - 1;
        }
        if x in last {
          var g :| 0 <= g < |groups| && r - 1 < |groups[g]| && groups[g][r - 1] == x;
        }
      }
    }
  }

  lemma DistinctConcat(a: seq<string>, b: seq<string>)
    requires Distinct(a) && Distinct(b) && forall x :: x in b ==> x !in a
    ensures Distinct(a + b)
  {
    forall i, j | 0 <= i < j < |a + b| ensures (a + b)[i] != (a + b)[j] {
      if i < |a| <= j { assert b[j - |a|] in b; }
    }
  }

  /** Round 0 lists the head of every group, in group order. */
  lemma {:induction false} FirstRound(groups: seq<seq<string>>, k: nat)
    requires k <= |groups| && forall g :: 0 <= g < |groups| ==> groups[g] != []
    ensures |Round(groups, 0, k)| == k && forall g :: 0 <= g < k ==> Round(groups, 0, k)[g] == groups[g][0]
  {
    if k > 0 { FirstRound(groups, k - 1); }
  }

  lemma {:induction false} RoundsStart(groups: seq<seq<string>>, r: nat)
    requires r > 0
    ensures |Rounds(groups, r)| >= |Round(groups, 0, |groups|)|
    ensures Rounds(groups, r)[..|Round(groups, 0, |groups|)|] == Round(groups, 0, |groups|)
  {
    if r == 1 {
      assert Rounds(groups, 0) == [];
    } else {
      RoundsStart(groups, r - 1);
    }
  }

  // ----- the spread order -----

  ghost predicate Knows(nodes: seq<string>, rank: map<string, int>, fdOf: map<string, string>) {
    Distinct(nodes) && forall i :: 0 <= i < |nodes| ==> nodes[i] in rank && nodes[i] in fdOf
  }

  ghost function MemberSet(nodes: seq<string>, fdOf: map<string, string>, fd: string): set<string>
    requires forall i :: 0 <= i < |nodes| ==> nodes[i] in fdOf
  {
    set x | x in nodes && fdOf[x] == fd
  }

  /** Members of one failure domain, best headroom first. */
  ghost function SpreadGroup(nodes: seq<string>, rank: map<string, int>, fdOf: map<string, string>,
    fd: string): seq<string>
    requires Knows(nodes, rank, fdOf)
  {
    Ranking(rank, MemberSet(nodes, fdOf, fd))
  }

  /** Headroom of each failure domain's best member. */
  ghost function FdRank(nodes: seq<string>, rank: map<string, int>, fdOf: map<string, string>): map<string, int>
    requires Knows(nodes, rank, fdOf)
  {
    map fd | fd in KeySet(fdOf, nodes) :: var g := SpreadGroup(nodes, rank, fdOf, fd); if g == [] then 0 else rank[g[0]]
  }

  ghost function SpreadFds(nodes: seq<string>, rank: map<string, int>, fdOf: map<string, string>): seq<string>
    requires Knows(nodes, rank, fdOf)
  {
    Ranking(FdRank(nodes, rank, fdOf), KeySet(fdOf, nodes))
  }

  ghost function SpreadGroups(nodes: seq<string>, rank: map<string, int>, fdOf: map<string, string>): seq<seq<string>>
    requires Knows(nodes, rank, fdOf)
  {
    var fds := SpreadFds(nodes, rank, fdOf);
    seq(|fds|, i requires 0 <= i < |fds| => SpreadGroup(nodes, rank, fdOf, fds[i]))
  }

  ghost function Spread(nodes: seq<string>, rank: map<string, int>, fdOf: map<string, string>): seq<string>
    requires Knows(nodes, rank, fdOf)
  {
    Rounds(SpreadGroups(nodes, rank, fdOf), |nodes|)
  }

  lemma GroupFacts(nodes: seq<string>, rank: map<string, int>, fdOf: map<string, string>, g: nat)
    requires Knows(nodes, rank, fdOf) && g < |SpreadGroups(nodes, rank, fdOf)|
    ensures var fds, group := SpreadFds(nodes, rank, fdOf), SpreadGroups(nodes, rank, fdOf)[g];
      && |fds| == |SpreadGroups(nodes, rank, fdOf)| && Distinct(fds) && Elems(fds) == KeySet(fdOf, nodes)
      && Distinct(group) && group != [] && |group| <= |nodes|
      && forall x :: x in group <==> x in nodes && fdOf[x] == fds[g]
  {
    var fds := SpreadFds(nodes, rank, fdOf);
    var members := MemberSet(nodes, fdOf, fds[g]);
    RankingDistinct(FdRank(nodes, rank, fdOf), KeySet(fdOf, nodes));
    RankingDistinct(rank, members);
    var group := SpreadGroup(nodes, rank, fdOf, fds[g]);
    assert Elems(group) == members;
    assert forall x :: x in group <==> x in Elems(group);
    assert fds[g] in Elems(fds);
    var x :| x in nodes && fdOf[x] == fds[g];
    assert x in group;
    assert members <= Elems(nodes);
    DistinctCount(nodes);
    SubsetSize(members, Elems(nodes));
  }

  lemma {:induction false} SubsetSize(a: set<string>, b: set<string>)
    requires a <= b
    ensures |a| <= |b|
  {
    if a != {} { var x :| x in a; SubsetSize(a - {x}, b - {x}); }
  }

  lemma SpreadPartition(nodes: seq<string>, rank: map<string, int>, fdOf: map<string, string>)
    requires Knows(nodes, rank, fdOf)
    ensures Partition(SpreadGroups(nodes, rank, fdOf))
    ensures forall g :: 0 <= g < |SpreadGroups(nodes, rank, fdOf)| ==> SpreadGroups(nodes, rank, fdOf)[g] != []
  {
    hide SpreadGroups, SpreadFds;
    var groups := SpreadGroups(nodes, rank, fdOf);
    forall g | 0 <= g < |groups| ensures Distinct(groups[g]) && groups[g] != [] { GroupFacts(nodes, rank, fdOf, g); }
    forall g, h, x | 0 <= g < h < |groups| && x in groups[g] ensures x !in groups[h] {
      GroupFacts(nodes, rank, fdOf, g);
      GroupFacts(nodes, rank, fdOf, h);
    }
  }

  /** The spread order is a permutation of its input. */
  lemma SpreadPermutes(nodes: seq<string>, rank: map<string, int>, fdOf: map<string, string>)
    requires Knows(nodes, rank, fdOf)
    ensures var out := Spread(nodes, rank, fdOf);
      Distinct(out) && (forall x :: x in out <==> x in nodes) && |out| == |nodes| && multiset(out) == multiset(nodes)
  {
    var groups, out := SpreadGroups(nodes, rank, fdOf), Spread(nodes, rank, fdOf);
    SpreadPartition(nodes, rank, fdOf);
    RoundsMembers(groups, |nodes|);
    forall x ensures x in out <==> x in nodes {
      SpreadMember(nodes, rank, fdOf, x);
    }
    SameElements(out, nodes);
  }

  lemma SpreadMember(nodes: seq<string>, rank: map<string, int>, fdOf: map<string, string>, x: string)
    requires Knows(nodes, rank, fdOf)
    ensures InRounds(SpreadGroups(nodes, rank, fdOf), |nodes|, x) <==> x in nodes
  {
    var groups, fds := SpreadGroups(nodes, rank, fdOf), SpreadFds(nodes, rank, fdOf);
    assert |groups| == |fds| && Elems(fds) == KeySet(fdOf, nodes);
    hide SpreadGroups, SpreadFds;
    if x in nodes {
      assert fdOf[x] in Elems(fds);
      var g :| 0 <= g < |fds| && fds[g] == fdOf[x];
      GroupFacts(nodes, rank, fdOf, g);
      var i :| 0 <= i < |groups[g]| && groups[g][i] == x;
    }
    if InRounds(groups, |nodes|, x) {
      var g, i :| 0 <= g < |groups| && 0 <= i < |groups[g]| && i < |nodes| && groups[g][i] == x;
      GroupFacts(nodes, rank, fdOf, g);
      assert x in groups[g];
    }
  }

  lemma SameElements(a: seq<string>, b: seq<string>)
    requires Distinct(a) && Distinct(b) && forall x :: x in a <==> x in b
    ensures |a| == |b| && multiset(a) == multiset(b)
  {
    DistinctCount(a);
    DistinctCount(b);
    assert Elems(a) == Elems(b);
    forall x ensures multiset(a)[x] == multiset(b)[x] {
      DistinctMultiset(a, x);
      DistinctMultiset(b, x);
    }
  }

  lemma {:induction false} DistinctMultiset(a: seq<string>, x: string)
    requires Distinct(a)
    ensures multiset(a)[x] == if x in a then 1 else 0
  {
    if a != [] {
      DistinctMultiset(a[..|a| - 1], x);
      assert a == a[..|a| - 1] + [a[|a| - 1]];
    }
  }

  ghost predicate Resolved(fdOf: map<string, string>, picks: seq<string>) {
    forall i :: 0 <= i < |picks| ==> picks[i] in fdOf
  }

  /** Failure domains of the first k picks. */
  function KeysAt(fdOf: map<string, string>, order: seq<string>, k: nat): set<string>
    requires Resolved(fdOf, order) && k <= |order|
  {
    KeySet(fdOf, order[..k])
  }

  lemma PrefixKeys(fdOf: map<string, string>, out: seq<string>, fds: seq<string>, m: nat)
    requires m <= |fds| <= |out| && Resolved(fdOf, out)
    requires forall i :: 0 <= i < m ==> fdOf[out[i]] == fds[i]
    ensures KeysAt(fdOf, out, m) == Elems(fds[..m])
  {
    forall x | x in out[..m] ensures fdOf[x] in Elems(fds[..m]) {
      var i :| 0 <= i < m && out[..m][i] == x;
      assert fds[..m][i] in fds[..m];
    }
    forall f | f in Elems(fds[..m]) ensures f in KeySet(fdOf, out[..m]) {
      var i :| 0 <= i < m && fds[..m][i] == f;
      assert out[..m][i] in out[..m] && fdOf[out[..m][i]] == f;
    }
  }

  lemma KeySetGrows(fdOf: map<string, string>, out: seq<string>, m: nat, k: nat, nodes: seq<string>)
    requires m <= k <= |out| && Resolved(fdOf, out) && Resolved(fdOf, nodes)
    requires forall x :: x in out ==> x in nodes
    ensures KeysAt(fdOf, out, m) <= KeysAt(fdOf, out, k) <= KeySet(fdOf, nodes)
  {
    forall f | f in KeySet(fdOf, out[..m]) ensures f in KeySet(fdOf, out[..k]) {
      var x :| x in out[..m] && fdOf[x] == f;
      PrefixMember(out, m, k, x);
    }
    forall f | f in KeySet(fdOf, out[..k]) ensures f in KeySet(fdOf, nodes) {
      var x :| x in out[..k] && fdOf[x] == f;
      PrefixMember(out, k, |out|, x);
      assert out[..|out|] == out;
    }
  }

  /** The first k picks cover min(k, #FDs) failure domains. */
  lemma SpreadCovers(nodes: seq<string>, rank: map<string, int>, fdOf: map<string, string>, k: nat)
    requires Knows(nodes, rank, fdOf) && k <= |nodes|
    ensures var out := Spread(nodes, rank, fdOf);
      && |out| == |nodes| && Resolved(fdOf, out)
      && |KeysAt(fdOf, out, k)| == Min(k, |KeySet(fdOf, nodes)|)
  {
    hide Spread, SpreadFds;
    var out, fds := Spread(nodes, rank, fdOf), SpreadFds(nodes, rank, fdOf);
    SpreadPermutes(nodes, rank, fdOf);
    forall i | 0 <= i < |out| ensures out[i] in fdOf { assert out[i] in out; }
    if nodes == [] {
      assert out[..k] == [];
    } else {
      HeadsFirst(nodes, rank, fdOf);
      hide KeySet, KeysAt;
      var m := Min(k, |fds|);
      PrefixKeys(fdOf, out, fds, m);
      DistinctCount(fds[..m]);
      DistinctCount(fds);
      KeySetGrows(fdOf, out, m, k, nodes);
      if k > |fds| {
        assert fds[..m] == fds;
        assert KeysAt(fdOf, out, k) == KeySet(fdOf, nodes);
      }
    }
  }

  lemma PrefixMember(out: seq<string>, m: nat, k: nat, x: string)
    requires m <= k <= |out| && x in out[..m]
    ensures x in out[..k]
  {
    var i :| 0 <= i < m && out[..m][i] == x;
    assert out[..k][i] == x;
  }

  /** The output starts with the best node of every failure domain, in failure-domain order. */
  lemma HeadsFirst(nodes: seq<string>, rank: map<string, int>, fdOf: map<string, string>)
    requires Knows(nodes, rank, fdOf) && nodes != []
    ensures var out, fds := Spread(nodes, rank, fdOf), SpreadFds(nodes, rank, fdOf);
      && Distinct(fds) && Elems(fds) == KeySet(fdOf, nodes) && |fds| <= |out|
      && (forall i :: 0 <= i < |fds| ==> out[i] in nodes && fdOf[out[i]] == fds[i])
      && forall i :: 0 <= i < |fds| ==> rank[out[i]] == FdRank(nodes, rank, fdOf)[fds[i]]
  {
    var out, groups, fds := Spread(nodes, rank, fdOf), SpreadGroups(nodes, rank, fdOf), SpreadFds(nodes, rank, fdOf);
    RankingDistinct(FdRank(nodes, rank, fdOf), KeySet(fdOf, nodes));
    SpreadPartition(nodes, rank, fdOf);
    FirstRound(groups, |groups|);
    RoundsStart(groups, |nodes|);
    var first := Round(groups, 0, |groups|);
    assert |first| == |groups| == |fds|;
    hide SpreadFds, Spread, Rounds, Round;
    forall i | 0 <= i < |fds|
      ensures out[i] in nodes && fdOf[out[i]] == fds[i] && rank[out[i]] == FdRank(nodes, rank, fdOf)[fds[i]]
    {
      assert out[i] == out[..|first|][i] == groups[i][0];
      GroupFacts(nodes, rank, fdOf, i);
      assert groups[i][0] in groups[i];
      assert fds[i] in Elems(fds);
      hide SpreadGroup;
    }
  }

  /** A member of a group is listed after the members before it. */
  lemma {:induction false} RoundsInOrder(groups: seq<seq<string>>, r: nat, g: nat, i: nat, j: nat, m: nat)
    requires Partition(groups) && g < |groups| && j < i < |groups[g]| && m <= |Rounds(groups, r)|
    requires groups[g][i] in Rounds(groups, r)[..m]
    ensures groups[g][j] in Rounds(groups, r)[..m]
  {
    if r > 0 {
      var init, out, x := Rounds(groups, r - 1), Rounds(groups, r), groups[g][i];
      if m <= |init| {
        assert out[..m] == init[..m];
        RoundsInOrder(groups, r - 1, g, i, j, m);
      } else {
        RoundsMembers(groups, r);
        RoundsMembers(groups, r - 1);
        PrefixMember(out, m, |out|, x);
        assert out[..|out|] == out;
        var h, k :| 0 <= h < |groups| && 0 <= k < |groups[h]| && k < r && groups[h][k] == x;
        SamePlace(groups, g, i, h, k);
        assert groups[g][j] in init;
        assert out[..|init|] == init;
        PrefixMember(out, |init|, m, groups[g][j]);
      }
    }
  }

  lemma AheadIndex(rank: map<string, int>, xs: seq<string>, i: nat, j: nat)
    requires Ranked(rank, xs) && i < |xs| && j < |xs| && Ahead(rank, xs[j], xs[i])
    ensures j < i
  {
    AheadTotal(rank, xs[i], xs[j]);
  }

  /** Of two nodes of one failure domain the better one is picked first. */
  lemma BetterFirst(nodes: seq<string>, rank: map<string, int>, fdOf: map<string, string>, m: nat, x: string, y: string)
    requires Knows(nodes, rank, fdOf) && m <= |Spread(nodes, rank, fdOf)| && x in nodes && y in nodes
    requires x in Spread(nodes, rank, fdOf)[..m] && fdOf[x] == fdOf[y] && Ahead(rank, y, x)
    ensures y in Spread(nodes, rank, fdOf)[..m]
  {
    var groups, fds := SpreadGroups(nodes, rank, fdOf), SpreadFds(nodes, rank, fdOf);
    assert fdOf[x] in Elems(fds);
    var g :| 0 <= g < |fds| && fds[g] == fdOf[x];
    GroupFacts(nodes, rank, fdOf, g);
    SpreadPartition(nodes, rank, fdOf);
    var i :| 0 <= i < |groups[g]| && groups[g][i] == x;
    var j :| 0 <= j < |groups[g]| && groups[g][j] == y;
    assert Ranked(rank, groups[g]);
    hide SpreadGroups, SpreadFds, Rounds, Partition;
    AheadIndex(rank, groups[g], i, j);
    RoundsInOrder(groups, |nodes|, g, i, j, m);
  }

  /** No member of a failure domain outranks its figure. */
  lemma FdRankBest(nodes: seq<string>, rank: map<string, int>, fdOf: map<string, string>, y: string)
    requires Knows(nodes, rank, fdOf) && y in nodes
    ensures fdOf[y] in KeySet(fdOf, nodes) && FdRank(nodes, rank, fdOf)[fdOf[y]] >= rank[y]
  {
    var group := SpreadGroup(nodes, rank, fdOf, fdOf[y]);
    assert y in Elems(group);
    var i :| 0 <= i < |group| && group[i] == y;
    assert Ranked(rank, group);
    hide SpreadGroup;
    assert i > 0 ==> Ahead(rank, group[0], y);
  }

  lemma HeadNotWorse(nodes: seq<string>, rank: map<string, int>, fdOf: map<string, string>, i: nat, j: nat)
    requires Knows(nodes, rank, fdOf) && nodes != [] && i < j < |SpreadFds(nodes, rank, fdOf)|
    ensures i < |Spread(nodes, rank, fdOf)| && Spread(nodes, rank, fdOf)[i] in nodes
    ensures SpreadFds(nodes, rank, fdOf)[j] in KeySet(fdOf, nodes)
    ensures rank[Spread(nodes, rank, fdOf)[i]] >= FdRank(nodes, rank, fdOf)[SpreadFds(nodes, rank, fdOf)[j]]
  {
    var fds := SpreadFds(nodes, rank, fdOf);
    HeadsFirst(nodes, rank, fdOf);
    assert Ranked(FdRank(nodes, rank, fdOf), fds);
    hide Spread, SpreadFds, FdRank, KeySet;
    assert fds[j] in Elems(fds);
    assert Ahead(FdRank(nodes, rank, fdOf), fds[i], fds[j]);
  }

  /** While a failure domain is untouched, no node of it outranks a pick. */
  lemma UntouchedNotBetter(nodes: seq<string>, rank: map<string, int>, fdOf: map<string, string>, m: nat, x: string,
      y: string)
    requires Knows(nodes, rank, fdOf) && m <= |Spread(nodes, rank, fdOf)| && y in nodes && x in nodes
    requires x in Spread(nodes, rank, fdOf)[..m]
    requires forall z :: z in Spread(nodes, rank, fdOf)[..m] && z in fdOf ==> fdOf[z] != fdOf[y]
    ensures rank[x] >= rank[y]
  {
    var out, fds := Spread(nodes, rank, fdOf), SpreadFds(nodes, rank, fdOf);
    hide Spread, SpreadFds, FdRank;
    HeadsFirst(nodes, rank, fdOf);
    FdRankBest(nodes, rank, fdOf, y);
    hide KeySet, Knows;
    var i := IndexOf(out[..m], x);
    var j := IndexOf(fds, fdOf[y]);
    HeadNotWorse(nodes, rank, fdOf, i, j);
  }

  lemma IndexOf(xs: seq<string>, x: string) returns (i: nat)
    requires x in Elems(xs)
    ensures i < |xs| && xs[i] == x
  {
    i :| 0 <= i < |xs| && xs[i] == x;
  }

  // ----- spanning enough failure domains -----

  function Span(covered: set<string>, fdOf: map<string, string>, picks: seq<string>): set<string>
    requires Resolved(fdOf, picks)
  {
    covered + KeySet(fdOf, picks)
  }

  /** Failure domains spanned by the covered ones and the first m picks. */
  function SpanAt(covered: set<string>, fdOf: map<string, string>, order: seq<string>, m: nat): set<string>
    requires Resolved(fdOf, order) && m <= |order|
  {
    covered + KeysAt(fdOf, order, m)
  }

  /** Free nodes, those of uncovered failure domains first, each part spread. */
  ghost function FitOrder(uncovered: seq<string>, coveredFit: seq<string>, rank: map<string, int>, fdOf: map<string,
      string>): seq<string>
    requires Knows(uncovered, rank, fdOf) && Knows(coveredFit, rank, fdOf)
  {
    Spread(uncovered, rank, fdOf) + Spread(coveredFit, rank, fdOf)
  }

  ghost predicate FitSplit(uncovered: seq<string>, coveredFit: seq<string>, rank: map<string, int>, fdOf: map<string,
      string>, covered: set<string>) {
    && Knows(uncovered, rank, fdOf) && Knows(coveredFit, rank, fdOf)
    && (forall x :: x in uncovered ==> fdOf[x] !in covered && x !in coveredFit)
    && (forall x :: x in coveredFit ==> fdOf[x] in covered)
  }

  lemma FitOrderFacts(uncovered: seq<string>, coveredFit: seq<string>, rank: map<string, int>, fdOf: map<string,
      string>, covered: set<string>)
    requires FitSplit(uncovered, coveredFit, rank, fdOf, covered)
    ensures var order := FitOrder(uncovered, coveredFit, rank, fdOf);
      Distinct(order) && (forall x :: x in order <==> x in uncovered || x in coveredFit) && Resolved(fdOf, order)
  {
    SpreadPermutes(uncovered, rank, fdOf);
    SpreadPermutes(coveredFit, rank, fdOf);
    hide Spread;
    DistinctConcat(Spread(uncovered, rank, fdOf), Spread(coveredFit, rank, fdOf));
    var order := FitOrder(uncovered, coveredFit, rank, fdOf);
    forall i | 0 <= i < |order| ensures order[i] in fdOf { assert order[i] in order; }
  }

  /** Picks after the first part only revisit covered failure domains. */
  lemma SpanOfConcat(covered: set<string>, fdOf: map<string, string>, a: seq<string>, b: seq<string>, k: nat)
    requires Resolved(fdOf, a) && Resolved(fdOf, b) && k <= |a + b|
    requires forall x :: x in b ==> fdOf[x] in covered
    ensures SpanAt(covered, fdOf, a + b, k) == SpanAt(covered, fdOf, a, Min(k, |a|))
  {
    var m := Min(k, |a|);
    forall f | f in KeySet(fdOf, (a + b)[..k]) ensures f in covered || f in KeySet(fdOf, a[..m]) {
      var x :| x in (a + b)[..k] && fdOf[x] == f;
      var i :| 0 <= i < k && (a + b)[..k][i] == x;
      if i < |a| { assert a[..m][i] == x; } else { assert b[i - |a|] == x; }
    }
    forall f | f in KeySet(fdOf, a[..m]) ensures f in KeySet(fdOf, (a + b)[..k]) {
      var x :| x in a[..m] && fdOf[x] == f;
      var i :| 0 <= i < m && a[..m][i] == x;
      assert (a + b)[..k][i] == x;
    }
  }

  /** A prefix of k fit nodes spans the covered failure domains plus min(k, #uncovered FDs). */
  lemma PrefixSpan(uncovered: seq<string>, coveredFit: seq<string>, rank: map<string, int>, fdOf: map<string, string>,
      covered: set<string>, k: nat)
    requires FitSplit(uncovered, coveredFit, rank, fdOf, covered) && k <= |FitOrder(uncovered, coveredFit, rank, fdOf)|
    ensures Resolved(fdOf, FitOrder(uncovered, coveredFit, rank, fdOf))
    ensures |SpanAt(covered, fdOf, FitOrder(uncovered, coveredFit, rank, fdOf), k)| == |covered| +
      Min(k, |KeySet(fdOf, uncovered)|)
  {
    FitOrderFacts(uncovered, coveredFit, rank, fdOf, covered);
    SpreadPermutes(uncovered, rank, fdOf);
    SpreadPermutes(coveredFit, rank, fdOf);
    var a, b := Spread(uncovered, rank, fdOf), Spread(coveredFit, rank, fdOf);
    var m := Min(k, |a|);
    SpreadCovers(uncovered, rank, fdOf, m);
    KeySetSize(fdOf, uncovered);
    hide Spread, SpanAt;
    assert Resolved(fdOf, b) by { forall i | 0 <= i < |b| ensures b[i] in fdOf { assert b[i] in b; } }
    SpanOfConcat(covered, fdOf, a, b, k);
    UncoveredApart(uncovered, a, m, fdOf, covered);
  }

  lemma UncoveredApart(uncovered: seq<string>, a: seq<string>, m: nat, fdOf: map<string, string>, covered: set<string>)
    requires Resolved(fdOf, a) && m <= |a| && forall x :: x in a ==> x in uncovered
    requires forall x :: x in uncovered ==> x in fdOf && fdOf[x] !in covered
    ensures |SpanAt(covered, fdOf, a, m)| == |covered| + |KeysAt(fdOf, a, m)|
  {
    forall x | x in a[..m] ensures fdOf[x] !in covered {
      PrefixMember(a, m, |a|, x);
      assert a[..|a|] == a;
    }
    assert covered !! KeySet(fdOf, a[..m]);
  }

  lemma {:induction false} KeySetSize(fdOf: map<string, string>, xs: seq<string>)
    requires forall i :: 0 <= i < |xs| ==> xs[i] in fdOf
    ensures |KeySet(fdOf, xs)| <= |xs|
  {
    if xs == [] {
      assert KeySet(fdOf, xs) == {};
    } else {
      var init, last := xs[..|xs| - 1], xs[|xs| - 1];
      KeySetSize(fdOf, init);
      assert xs == init + [last];
      assert KeySet(fdOf, xs) == KeySet(fdOf, init) + {fdOf[last]};
      SubsetSize(KeySet(fdOf, xs), KeySet(fdOf, init) + {fdOf[last]});
    }
  }

  /** The extension loop: one more pick at a time until enough failure domains are spanned. */
  function Extend(covered: set<string>, fdOf: map<string, string>, order: seq<string>, n: nat, minFds: int): (m: nat)
    requires Resolved(fdOf, order) && n <= |order|
    ensures n <= m <= |order|
    ensures m < |order| ==> |SpanAt(covered, fdOf, order, m)| >= minFds
    ensures forall j :: n <= j < m ==> |SpanAt(covered, fdOf, order, j)| < minFds
    decreases |order| - n
  {
    if n < |order| && |SpanAt(covered, fdOf, order, n)| < minFds then Extend(covered, fdOf, order, n + 1, minFds) else n
  }

  /** No choice of fit nodes spans more failure domains than a prefix of the same size. */
  lemma ChoiceBounded(uncovered: seq<string>, coveredFit: seq<string>, rank: map<string, int>, fdOf: map<string,
      string>, covered: set<string>, choice: seq<string>)
    requires FitSplit(uncovered, coveredFit, rank, fdOf, covered)
    requires forall x :: x in choice ==> x in uncovered || x in coveredFit
    ensures Resolved(fdOf, choice)
    ensures |Span(covered, fdOf, choice)| <= |covered| + Min(|choice|, |KeySet(fdOf, uncovered)|)
  {
    forall i | 0 <= i < |choice| ensures choice[i] in fdOf { assert choice[i] in choice; }
    KeySetSize(fdOf, choice);
    NewFdsAreUncovered(uncovered, coveredFit, rank, fdOf, covered, choice);
    UnionSize(covered, KeySet(fdOf, choice), KeySet(fdOf, uncovered));
  }

  lemma UnionSize(covered: set<string>, picked: set<string>, uncovered: set<string>)
    requires picked - covered <= uncovered
    ensures |covered + picked| <= |covered| + Min(|picked|, |uncovered|)
  {
    var extra := picked - covered;
    assert covered + picked == covered + extra;
    SubsetSize(extra, picked);
    SubsetSize(extra, uncovered);
  }

  lemma NewFdsAreUncovered(uncovered: seq<string>, coveredFit: seq<string>, rank: map<string, int>, fdOf: map<string,
      string>, covered: set<string>, choice: seq<string>)
    requires FitSplit(uncovered, coveredFit, rank, fdOf, covered)
    requires forall x :: x in choice ==> x in uncovered || x in coveredFit
    requires Resolved(fdOf, choice)
    ensures KeySet(fdOf, choice) - covered <= KeySet(fdOf, uncovered)
  {
    forall f | f in KeySet(fdOf, choice) - covered ensures f in KeySet(fdOf, uncovered) {
      var x :| x in choice && fdOf[x] == f;
      assert x in uncovered;
    }
  }

  ghost predicate FitChoice(uncovered: seq<string>, coveredFit: seq<string>, fdOf: map<string, string>,
      choice: seq<string>) {
    Resolved(fdOf, choice) && forall x :: x in choice ==> x in uncovered || x in coveredFit
  }

  /**
   * The spanning step is greedy-optimal: it fails exactly when all fit nodes together with the covered
   * failure domains span too few, and beyond its starting count it uses as few nodes as any choice could.
   */
  lemma GreedyOptimal(uncovered: seq<string>, coveredFit: seq<string>, rank: map<string, int>, fdOf: map<string,
      string>, covered: set<string>, n: nat, minFds: int)
    requires FitSplit(uncovered, coveredFit, rank, fdOf, covered)
    requires n <= |FitOrder(uncovered, coveredFit, rank, fdOf)|
    ensures Resolved(fdOf, FitOrder(uncovered, coveredFit, rank, fdOf))
    ensures FitChoice(uncovered, coveredFit, fdOf, uncovered + coveredFit)
    ensures var order := FitOrder(uncovered, coveredFit, rank, fdOf);
      var m := Extend(covered, fdOf, order, n, minFds);
      && (|SpanAt(covered, fdOf, order, m)| < minFds <==> |Span(covered, fdOf, uncovered + coveredFit)| < minFds)
      && forall choice :: FitChoice(uncovered, coveredFit, fdOf, choice) && |Span(covered, fdOf, choice)| >= minFds ==>
           m == n || |choice| >= m
  {
    hide FitOrder, Span, SpanAt, KeySet, Knows;
    FitOrderFacts(uncovered, coveredFit, rank, fdOf, covered);
    var order := FitOrder(uncovered, coveredFit, rank, fdOf);
    hide FitSplit;
    var m := Extend(covered, fdOf, order, n, minFds);
    var all := uncovered + coveredFit;
    ChoiceBounded(uncovered, coveredFit, rank, fdOf, covered, all);
    AllPicked(order, all, fdOf, covered);
    PrefixSpan(uncovered, coveredFit, rank, fdOf, covered, m);
    PrefixSpan(uncovered, coveredFit, rank, fdOf, covered, |order|);
    if m > n { PrefixSpan(uncovered, coveredFit, rank, fdOf, covered, m - 1); }
    forall choice | FitChoice(uncovered, coveredFit, fdOf, choice) && |Span(covered, fdOf, choice)| >= minFds
      ensures m == n || |choice| >= m
    {
      ChoiceBounded(uncovered, coveredFit, rank, fdOf, covered, choice);
    }
  }

  lemma AllPicked(order: seq<string>, all: seq<string>, fdOf: map<string, string>, covered: set<string>)
    requires Resolved(fdOf, order) && Resolved(fdOf, all) && forall x :: x in order <==> x in all
    ensures SpanAt(covered, fdOf, order, |order|) == Span(covered, fdOf, all)
  {
    assert order[..|order|] == order;
  }
}
