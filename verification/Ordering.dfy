/** Deterministic orderings: a rank (largest first) with names breaking ties, and first-seen grouping. */
module Ordering {

  // ----- lexicographic order on names -----

  predicate NameLess(a: string, b: string) {
    b != [] && (a == [] || a[0] < b[0] || (a[0] == b[0] && NameLess(a[1..], b[1..])))
  }

  lemma {:induction false} NameTrichotomy(a: string, b: string)
    ensures NameLess(a, b) || a == b || NameLess(b, a)
    ensures !(NameLess(a, b) && NameLess(b, a))
    ensures !NameLess(a, a)
  {
    if a != [] && b != [] && a[0] == b[0] {
      NameTrichotomy(a[1..], b[1..]);
      if a[1..] == b[1..] { assert a == [a[0]] + a[1..] == b; }
    }
    if a != [] { NameTrichotomy(a[1..], a[1..]); }
  }

  lemma {:induction false} NameTransitive(a: string, b: string, c: string)
    requires NameLess(a, b) && NameLess(b, c)
    ensures NameLess(a, c)
  {
    if a != [] && a[0] == b[0] && b[0] == c[0] { NameTransitive(a[1..], b[1..], c[1..]); }
  }

  // ----- ranked sequences -----

  function Elems(xs: seq<string>): set<string> { set x | x in xs }

  ghost predicate Distinct(xs: seq<string>) {
    forall i, j :: 0 <= i < j < |xs| ==> xs[i] != xs[j]
  }

  predicate Ahead(rank: map<string, int>, a: string, b: string)
    requires a in rank && b in rank
  {
    rank[a] > rank[b] || (rank[a] == rank[b] && NameLess(a, b))
  }

  lemma AheadTotal(rank: map<string, int>, a: string, b: string)
    requires a in rank && b in rank
    ensures a == b || Ahead(rank, a, b) || Ahead(rank, b, a)
    ensures !(Ahead(rank, a, b) && Ahead(rank, b, a)) && !Ahead(rank, a, a)
  {
    NameTrichotomy(a, b);
    NameTrichotomy(a, a);
  }

  lemma AheadTransitive(rank: map<string, int>, a: string, b: string, c: string)
    requires a in rank && b in rank && c in rank && Ahead(rank, a, b) && Ahead(rank, b, c)
    ensures Ahead(rank, a, c)
  {
    if rank[a] == rank[b] == rank[c] { NameTransitive(a, b, c); }
  }

  ghost predicate Ranked(rank: map<string, int>, xs: seq<string>) {
    && (forall i :: 0 <= i < |xs| ==> xs[i] in rank)
    && forall i, j :: 0 <= i < j < |xs| ==> Ahead(rank, xs[i], xs[j])
  }

  /** A ranked sequence is determined by its elements, so iteration order cannot influence it. */
  lemma {:induction false} RankedUnique(rank: map<string, int>, xs: seq<string>, ys: seq<string>)
    requires Ranked(rank, xs) && Ranked(rank, ys) && Elems(xs) == Elems(ys)
    ensures xs == ys
  {
    if xs == [] || ys == [] {
      NoElems(xs);
      NoElems(ys);
    } else {
      assert xs[0] in Elems(ys) && ys[0] in Elems(xs);
      if xs[0] != ys[0] {
        var i :| 0 <= i < |ys| && ys[i] == xs[0];
        var j :| 0 <= j < |xs| && xs[j] == ys[0];
        AheadTotal(rank, xs[0], ys[0]);
        assert false;
      }
      forall x ensures x in Elems(xs[1..]) <==> x in Elems(ys[1..]) {
        TailElems(rank, xs, x);
        TailElems(rank, ys, x);
      }
      RankedUnique(rank, xs[1..], ys[1..]);
      assert xs == [xs[0]] + xs[1..] && ys == [ys[0]] + ys[1..];
    }
  }

  lemma NoElems(xs: seq<string>)
    ensures Elems(xs) == {} <==> xs == []
  {
    if xs != [] { assert xs[0] in Elems(xs); }
  }

  lemma TailElems(rank: map<string, int>, xs: seq<string>, x: string)
    requires Ranked(rank, xs) && xs != []
    ensures x in Elems(xs[1..]) <==> x in Elems(xs) && x != xs[0]
  {
    assert xs == [xs[0]] + xs[1..];
    if x in xs[1..] {
      var i :| 0 <= i < |xs[1..]| && xs[1..][i] == x;
      assert Ahead(rank, xs[0], xs[i + 1]);
      AheadTotal(rank, xs[0], x);
    }
  }

  lemma RankedDistinct(rank: map<string, int>, xs: seq<string>)
    requires Ranked(rank, xs)
    ensures Distinct(xs)
  {
    forall i, j | 0 <= i < j < |xs| ensures xs[i] != xs[j] { AheadTotal(rank, xs[i], xs[j]); }
  }

  function Insert(rank: map<string, int>, x: string, xs: seq<string>): seq<string>
    requires x in rank && forall i :: 0 <= i < |xs| ==> xs[i] in rank
  {
    if xs == [] then [x]
    else if Ahead(rank, x, xs[0]) then [x] + xs
    else [xs[0]] + Insert(rank, x, xs[1..])
  }

  lemma {:induction false} InsertElems(rank: map<string, int>, x: string, xs: seq<string>)
    requires x in rank && forall i :: 0 <= i < |xs| ==> xs[i] in rank
    ensures forall y :: y in Insert(rank, x, xs) <==> y == x || y in xs
  {
    if xs != [] {
      InsertElems(rank, x, xs[1..]);
      assert xs == [xs[0]] + xs[1..];
    }
  }

  lemma {:induction false} InsertSorted(rank: map<string, int>, x: string, xs: seq<string>)
    requires x in rank && x !in xs && Ranked(rank, xs)
    ensures Ranked(rank, Insert(rank, x, xs))
  {
    if xs != [] {
      if Ahead(rank, x, xs[0]) {
        forall i | 0 < i < |xs| ensures Ahead(rank, x, xs[i]) { AheadTransitive(rank, x, xs[0], xs[i]); }
      } else {
        var r := Insert(rank, x, xs[1..]);
        InsertSorted(rank, x, xs[1..]);
        InsertElems(rank, x, xs[1..]);
        AheadTotal(rank, x, xs[0]);
        AheadOfAll(rank, xs[0], r);
      }
    }
  }

  lemma AheadOfAll(rank: map<string, int>, x: string, xs: seq<string>)
    requires x in rank && Ranked(rank, xs) && forall y :: y in xs ==> Ahead(rank, x, y)
    ensures Ranked(rank, [x] + xs)
  {
  }

  lemma InsertRanked(rank: map<string, int>, x: string, xs: seq<string>)
    requires x in rank && x !in xs && Ranked(rank, xs)
    ensures Ranked(rank, Insert(rank, x, xs))
    ensures Elems(Insert(rank, x, xs)) == Elems(xs) + {x}
  {
    InsertElems(rank, x, xs);
    InsertSorted(rank, x, xs);
  }

  /** The elements of a set, best rank first. */
  ghost function Ranking(rank: map<string, int>, names: set<string>): (xs: seq<string>)
    requires names <= rank.Keys
    ensures Ranked(rank, xs) && Elems(xs) == names
  {
    if names == {} then [] else
      var x :| x in names;
      var rest := Ranking(rank, names - {x});
      assert x !in rest by { assert x !in Elems(rest); }
      InsertRanked(rank, x, rest);
      Insert(rank, x, rest)
  }

  lemma RankingDistinct(rank: map<string, int>, names: set<string>)
    requires names <= rank.Keys
    ensures Distinct(Ranking(rank, names))
    ensures |Ranking(rank, names)| == |names|
  {
    RankedDistinct(rank, Ranking(rank, names));
    DistinctCount(Ranking(rank, names));
  }

  lemma {:induction false} DistinctCount(xs: seq<string>)
    requires Distinct(xs)
    ensures |Elems(xs)| == |xs|
  {
    if xs != [] {
      var last := xs[|xs| - 1];
      DistinctCount(xs[..|xs| - 1]);
      assert xs == xs[..|xs| - 1] + [last];
      assert Elems(xs) == Elems(xs[..|xs| - 1]) + {last};
    }
  }

  /** Collecting a set in any order and sorting gives the ranking, whatever the collection order was. */
  method SortByRank(rank: map<string, int>, names: set<string>) returns (xs: seq<string>)
    requires names <= rank.Keys
    ensures xs == Ranking(rank, names)
  {
    xs := [];
    var left := names;
    while left != {}
      invariant left <= names && Ranked(rank, xs) && Elems(xs) == names - left
      decreases left
    {
      var x :| x in left;
      assert x !in xs by { assert x !in Elems(xs); }
      InsertRanked(rank, x, xs);
      xs, left := Insert(rank, x, xs), left - {x};
    }
    RankedUnique(rank, xs, Ranking(rank, names));
  }

  // ----- grouping by key, in first-seen order -----

  /** Keys in the order their first member appears. */
  function FirstSeen(key: map<string, string>, xs: seq<string>): seq<string>
    requires forall i :: 0 <= i < |xs| ==> xs[i] in key
  {
    if xs == [] then [] else
      var seen := FirstSeen(key, xs[..|xs| - 1]);
      var k := key[xs[|xs| - 1]];
      if k in seen then seen else seen + [k]
  }

  /** The members of xs carrying key k, in order. */
  function Members(key: map<string, string>, xs: seq<string>, k: string): seq<string>
    requires forall i :: 0 <= i < |xs| ==> xs[i] in key
  {
    if xs == [] then []
    else Members(key, xs[..|xs| - 1], k) + if key[xs[|xs| - 1]] == k then [xs[|xs| - 1]] else []
  }

  function KeySet(key: map<string, string>, xs: seq<string>): set<string>
    requires forall i :: 0 <= i < |xs| ==> xs[i] in key
  {
    set x | x in xs :: key[x]
  }

  lemma {:induction false} FirstSeenKeys(key: map<string, string>, xs: seq<string>)
    requires forall i :: 0 <= i < |xs| ==> xs[i] in key
    ensures Distinct(FirstSeen(key, xs))
    ensures Elems(FirstSeen(key, xs)) == KeySet(key, xs)
  {
    if xs != [] {
      var init, last := xs[..|xs| - 1], xs[|xs| - 1];
      FirstSeenKeys(key, init);
      assert xs == init + [last];
      assert KeySet(key, xs) == KeySet(key, init) + {key[last]};
      assert key[last] in FirstSeen(key, init) <==> key[last] in Elems(FirstSeen(key, init));
    }
  }

  lemma {:induction false} MembersExact(key: map<string, string>, xs: seq<string>, k: string)
    requires forall i :: 0 <= i < |xs| ==> xs[i] in key
    requires Distinct(xs)
    ensures Distinct(Members(key, xs, k))
    ensures forall x :: x in Members(key, xs, k) <==> x in xs && key[x] == k
    ensures k in KeySet(key, xs) <==> Members(key, xs, k) != []
  {
    if xs != [] {
      var init, last := xs[..|xs| - 1], xs[|xs| - 1];
      MembersExact(key, init, k);
      assert xs == init + [last];
      assert KeySet(key, xs) == KeySet(key, init) + {key[last]};
    }
  }
}
