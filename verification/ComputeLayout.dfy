/** deriveComputeLayout: how many compute containers, of how many cores. */
module ComputeLayout {
  import opened Arith
  import opened Model

  /** A node's headroom under the per-container limit (0 disables the limit). */
  function Effective(h: int, maxCores: int): int { if maxCores > 0 && maxCores < h then maxCores else h }

  predicate NodeFits(headroom: int, hugepages: Option<int>, cores: int, hp: int, maxCores: int) {
    Effective(headroom, maxCores) >= cores && (hugepages.None? || hugepages.value >= hp)
  }

  function HugepagesAt(hps: Option<seq<int>>, i: nat): Option<int> {
    if hps.Some? && i < |hps.value| then Some(hps.value[i]) else None
  }

  /** Nodes among the first k that can host one container of the given size. */
  function FittingPrefix(headroom: seq<int>, hps: Option<seq<int>>, cores: int, hp: int, maxCores: int, k: nat): nat
    requires k <= |headroom|
  {
    if k == 0 then 0
    else FittingPrefix(headroom, hps, cores, hp, maxCores, k - 1) +
         if NodeFits(headroom[k - 1], HugepagesAt(hps, k - 1), cores, hp, maxCores) then 1 else 0
  }

  function Fitting(headroom: seq<int>, hps: Option<seq<int>>, cores: int, hp: int, maxCores: int): nat {
    FittingPrefix(headroom, hps, cores, hp, maxCores, |headroom|)
  }

  method NodesFitting(headroom: seq<int>, hps: Option<seq<int>>, cores: int, hp: int, maxCores: int)
    returns (count: nat)
    ensures count == Fitting(headroom, hps, cores, hp, maxCores)
  {
    count := 0;
    for i := 0 to |headroom|
      invariant count == FittingPrefix(headroom, hps, cores, hp, maxCores, i)
    {
      var eff := headroom[i];
      if maxCores > 0 && maxCores < eff { eff := maxCores; }
      if eff >= cores && !(hps.Some? && i < |hps.value| && hps.value[i] < hp) {
        count := count + 1;
      }
    }
  }

  // ----- descending sort and the n-th largest headroom -----

  ghost predicate Descending(xs: seq<int>) { forall i, j :: 0 <= i < j < |xs| ==> xs[i] >= xs[j] }

  function InsertDesc(x: int, xs: seq<int>): seq<int> {
    if xs == [] then [x] else if x >= xs[0] then [x] + xs else [xs[0]] + InsertDesc(x, xs[1..])
  }

  function SortDesc(xs: seq<int>): seq<int> {
    if xs == [] then [] else InsertDesc(xs[|xs| - 1], SortDesc(xs[..|xs| - 1]))
  }

  /** How many entries, under the limit, reach c. */
  function CountReaching(xs: seq<int>, c: int, maxCores: int): nat {
    if xs == [] then 0
    else CountReaching(xs[1..], c, maxCores) + if Effective(xs[0], maxCores) >= c then 1 else 0
  }

  lemma {:induction false} InsertDescFacts(x: int, xs: seq<int>, c: int, maxCores: int)
    requires Descending(xs)
    ensures Descending(InsertDesc(x, xs)) && |InsertDesc(x, xs)| == |xs| + 1
    ensures forall y :: y in InsertDesc(x, xs) <==> y == x || y in xs
    ensures CountReaching(InsertDesc(x, xs), c, maxCores)
      == CountReaching(xs, c, maxCores) + if Effective(x, maxCores) >= c then 1 else 0
  {
    if xs == [] {
    } else if x >= xs[0] {
      assert ([x] + xs)[1..] == xs;
    } else {
      InsertDescFacts(x, xs[1..], c, maxCores);
      var r := InsertDesc(x, xs[1..]);
      assert ([xs[0]] + r)[1..] == r;
      assert xs == [xs[0]] + xs[1..];
      forall i | 0 <= i < |r| ensures xs[0] >= r[i] { assert r[i] in r; }
    }
  }

  /** Sorting keeps the count of nodes that fit any core count. */
  lemma {:induction false} SortDescCounts(xs: seq<int>, c: int, maxCores: int)
    ensures Descending(SortDesc(xs)) && |SortDesc(xs)| == |xs|
    ensures CountReaching(SortDesc(xs), c, maxCores) == FittingPrefix(xs, None, c, 0, maxCores, |xs|)
  {
    if xs != [] {
      var init := xs[..|xs| - 1];
      SortDescCounts(init, c, maxCores);
      InsertDescFacts(xs[|xs| - 1], SortDesc(init), c, maxCores);
      FittingInit(xs, None, c, 0, maxCores, |xs| - 1);
    }
  }

  lemma {:induction false} FittingInit(xs: seq<int>, hps: Option<seq<int>>, c: int, hp: int, maxCores: int, k: nat)
    requires k < |xs|
    ensures FittingPrefix(xs[..|xs| - 1], hps, c, hp, maxCores, k) == FittingPrefix(xs, hps, c, hp, maxCores, k)
  {
    if k > 0 { FittingInit(xs, hps, c, hp, maxCores, k - 1); }
  }

  /** topNMin on a descending list: the n-th largest, under the limit. */
  function TopNMinSorted(sorted: seq<int>, n: int, maxCores: int): int {
    if n <= 0 || n > |sorted| then 0 else Effective(sorted[n - 1], maxCores)
  }

  function TopNMin(headroom: seq<int>, n: int, maxCores: int): int
  {
    SortDescLength(headroom);
    TopNMinSorted(SortDesc(headroom), n, maxCores)
  }

  lemma SortDescLength(xs: seq<int>)
    ensures |SortDesc(xs)| == |xs|
  {
    SortDescCounts(xs, 0, 0);
  }

  lemma {:induction false} NthLargest(sorted: seq<int>, n: nat, c: int, maxCores: int)
    requires Descending(sorted) && 1 <= n <= |sorted|
    ensures Effective(sorted[n - 1], maxCores) >= c <==> CountReaching(sorted, c, maxCores) >= n
  {
    CountBounded(sorted, c, maxCores);
    if n > 1 {
      NthLargest(sorted[1..], n - 1, c, maxCores);
      if Effective(sorted[0], maxCores) < c { NoneReach(sorted, c, maxCores); }
    } else if Effective(sorted[0], maxCores) < c {
      NoneReach(sorted, c, maxCores);
    }
  }

  lemma {:induction false} CountBounded(xs: seq<int>, c: int, maxCores: int)
    ensures CountReaching(xs, c, maxCores) <= |xs|
  {
    if xs != [] { CountBounded(xs[1..], c, maxCores); }
  }

  lemma {:induction false} NoneReach(xs: seq<int>, c: int, maxCores: int)
    requires Descending(xs) && (xs != [] ==> Effective(xs[0], maxCores) < c)
    ensures CountReaching(xs, c, maxCores) == 0
  {
    if xs != [] { NoneReach(xs[1..], c, maxCores); }
  }

  /** The n-th largest capped headroom reaches c exactly when at least n nodes fit c cores. */
  lemma TopNMinCounts(headroom: seq<int>, n: nat, c: int, maxCores: int)
    requires 1 <= n <= |headroom|
    ensures TopNMin(headroom, n, maxCores) >= c <==> Fitting(headroom, None, c, 0, maxCores) >= n
  {
    SortDescCounts(headroom, c, maxCores);
    NthLargest(SortDesc(headroom), n, c, maxCores);
  }

  // ----- the layout -----

  /** hugepagesFor: per-container hugepages for a count and a core count; absent disables the gate. */
  type HugepagesFor = Option<(int, int) -> int>

  datatype Layout = Layout(count: int, cores: int) | NoLayout(binding: Binding)

  /** At least `count` nodes can host `cores` cores together with that split's hugepages. */
  predicate SplitFits(headroom: seq<int>, hps: Option<seq<int>>, count: int, cores: int, maxCores: int,
      hpFor: HugepagesFor) {
    match hpFor
    case None => Fitting(headroom, None, cores, 0, maxCores) >= count
    case Some(f) => Fitting(headroom, hps, cores, f(count, cores), maxCores) >= count
  }

  /** hugepagesFitCheck. */
  predicate HugepagesOk(headroom: seq<int>, hps: Option<seq<int>>, count: int, cores: int, maxCores: int,
      hpFor: HugepagesFor) {
    hpFor.None? || Fitting(headroom, hps, cores, hpFor.value(count, cores), maxCores) >= count
  }

  function EvenCores(t: int, n: int): int { Max(1, CeilDiv(t, n)) }

  /** The scan's test of one count. */
  predicate CountWorks(headroom: seq<int>, hps: Option<seq<int>>, t: int, maxCores: int, hpFor: HugepagesFor, n: nat) {
    TopNMin(headroom, n, maxCores) >= EvenCores(t, n) && HugepagesOk(headroom, hps, n, EvenCores(t, n), maxCores, hpFor)
  }

  function FirstCount(headroom: seq<int>, hps: Option<seq<int>>, t: int, maxCores: int, hpFor: HugepagesFor,
    n: nat): (r: Option<nat>)
    ensures r.Some? ==> n <= r.value <= |headroom| && CountWorks(headroom, hps, t, maxCores, hpFor, r.value)
    ensures forall m :: n <= m <= |headroom| && (r.None? || m < r.value) ==>
      !CountWorks(headroom, hps, t, maxCores, hpFor, m)
    decreases |headroom| + 1 - n
  {
    if n > |headroom| then None
    else if CountWorks(headroom, hps, t, maxCores, hpFor, n) then Some(n)
    else FirstCount(headroom, hps, t, maxCores, hpFor, n + 1)
  }

  function CountAbove(hps: seq<int>, hp: int): nat {
    if hps == [] then 0 else CountAbove(hps[..|hps| - 1], hp) + if hps[|hps| - 1] >= hp then 1 else 0
  }

  /** Why no count worked, diagnosed at n = d; Unclassified is the branch marked unexpected. */
  function Diagnose(headroom: seq<int>, hps: Option<seq<int>>, t: int, maxCores: int, hpFor: HugepagesFor): Binding {
    var d := |headroom|;
    if d == 0 || TopNMin(headroom, d, maxCores) <= 0 then Cores
    else if hpFor.None? then Cores
    else
      var c := EvenCores(t, d);
      var coresFit := TopNMin(headroom, d, maxCores) >= c;
      var hugepagesFit := hps.None? || CountAbove(hps.value, hpFor.value(d, c)) >= d;
      if !coresFit then Cores else if !hugepagesFit then Hugepages else Unclassified
  }

  function Derive(specCount: int, specCores: int, t: int, floor: int, maxCores: int,
                  headroom: seq<int>, hps: Option<seq<int>>, hpFor: HugepagesFor): Layout
  {
    var d := |headroom|;
    if specCount != 0 then
      var cores := if specCores == 0 then EvenCores(t, specCount) else specCores;
      var perContainer := TopNMin(headroom, specCount, maxCores);
      if specCount > d then NoLayout(Unclassified)
      else if perContainer > 0 && cores > perContainer then NoLayout(Cores)
      else if !HugepagesOk(headroom, hps, specCount, cores, maxCores, hpFor) then NoLayout(Hugepages)
      else if specCount * cores < t then NoLayout(Cores)
      else Layout(specCount, cores)
    else if specCores != 0 then
      var count := Max(floor, CeilDiv(t, specCores));
      var perContainer := TopNMin(headroom, count, maxCores);
      if specCores <= 0 || count > d || perContainer <= 0 || specCores > perContainer then NoLayout(Cores)
      else if !HugepagesOk(headroom, hps, count, specCores, maxCores, hpFor) then NoLayout(Hugepages)
      else Layout(count, specCores)
    else
      match FirstCount(headroom, hps, t, maxCores, hpFor, Max(floor, 1))
      case Some(n) => Layout(n, EvenCores(t, n))
      case None => NoLayout(Diagnose(headroom, hps, t, maxCores, hpFor))
  }

  // ----- what Derive guarantees -----

  /** Hugepages only narrow the set of fitting nodes. */
  lemma {:induction false} FittingNarrows(headroom: seq<int>, hps: Option<seq<int>>, cores: int, hp: int, maxCores: int,
      k: nat)
    requires k <= |headroom|
    ensures FittingPrefix(headroom, hps, cores, hp, maxCores, k) <=
      FittingPrefix(headroom, None, cores, 0, maxCores, k) <= k
  {
    if k > 0 { FittingNarrows(headroom, hps, cores, hp, maxCores, k - 1); }
  }

  lemma CountWorksExact(headroom: seq<int>, hps: Option<seq<int>>, t: int, maxCores: int, hpFor: HugepagesFor, n: nat)
    requires 1 <= n <= |headroom|
    ensures CountWorks(headroom, hps, t, maxCores, hpFor, n) <==>
      SplitFits(headroom, hps, n, EvenCores(t, n), maxCores, hpFor)
  {
    TopNMinCounts(headroom, n, EvenCores(t, n), maxCores);
    if hpFor.Some? {
      FittingNarrows(headroom, hps, EvenCores(t, n), hpFor.value(n, EvenCores(t, n)), maxCores, |headroom|);
    }
  }

  /** The fewest cores, at least one, of which n containers supply t. */
  ghost predicate FewestCores(c: int, n: int, t: int) {
    c >= 1 && n * c >= t && forall m: nat :: 1 <= m < c ==> n * m < t
  }

  lemma EvenCoresLeast(c: int, n: int, t: int)
    requires n >= 1
    ensures FewestCores(c, n, t) <==> c == EvenCores(t, n)
  {
    var e := EvenCores(t, n);
    CeilDivAdjoint(t, n, e);
    forall m: nat | 1 <= m < e ensures n * m < t { CeilDivAdjoint(t, n, m); }
    if c >= 1 { CeilDivAdjoint(t, n, c); }
    if e < c { assert n * e >= t; }
  }

  /** The fewest containers of the given cores, at least the floor, that supply t. */
  ghost predicate FewestContainers(n: int, floor: int, cores: int, t: int) {
    n >= floor && n * cores >= Max(t, 0) && forall m: int :: floor <= m < n ==> m * cores < Max(t, 0)
  }

  lemma FewestContainersIs(n: int, floor: int, cores: int, t: int)
    requires cores >= 1
    ensures FewestContainers(n, floor, cores, t) <==> n == Max(floor, CeilDiv(t, cores))
  {
    var f := Max(floor, CeilDiv(t, cores));
    SuppliesExactly(f, cores, t);
    SuppliesExactly(n, cores, t);
    forall m: int | floor <= m < f ensures m * cores < Max(t, 0) { SuppliesExactly(m, cores, t); }
    if f < n { assert f * cores >= Max(t, 0); }
  }

  lemma SuppliesExactly(n: int, cores: int, t: int)
    requires cores >= 1
    ensures n * cores >= Max(t, 0) <==> n >= CeilDiv(t, cores)
  {
    if n >= 0 {
      CeilDivAdjoint(t, cores, n);
      MulMono(0, n, cores);
    } else {
      MulMono(n, -1, cores);
    }
  }

  /**
   * With nothing pinned the derivation is sound, complete and minimal: it returns the least count of at
   * least max(floor, 1) whose even split some nodes can host, cores and hugepages together, and fails
   * exactly when no count does.
   */
  lemma DeriveLeast(t: int, floor: int, maxCores: int, headroom: seq<int>, hps: Option<seq<int>>, hpFor: HugepagesFor)
    ensures match Derive(0, 0, t, floor, maxCores, headroom, hps, hpFor)
      case Layout(n, c) =>
        && Max(floor, 1) <= n <= |headroom| && c == EvenCores(t, n) && FewestCores(c, n, t)
        && SplitFits(headroom, hps, n, c, maxCores, hpFor)
        && forall m :: Max(floor, 1) <= m < n ==> !SplitFits(headroom, hps, m, EvenCores(t, m), maxCores, hpFor)
      case NoLayout(_) =>
        forall m :: Max(floor, 1) <= m <= |headroom| ==> !SplitFits(headroom, hps, m, EvenCores(t, m), maxCores, hpFor)
  {
    var lo := Max(floor, 1);
    forall m | lo <= m <= |headroom|
      ensures CountWorks(headroom, hps, t, maxCores, hpFor, m) <==>
        SplitFits(headroom, hps, m, EvenCores(t, m), maxCores, hpFor)
    {
      CountWorksExact(headroom, hps, t, maxCores, hpFor, m);
    }
    hide CountWorks, SplitFits;
    var r := FirstCount(headroom, hps, t, maxCores, hpFor, lo);
    if r.Some? { EvenCoresLeast(EvenCores(t, r.value), r.value, t); }
  }

  /**
   * With cores pinned and the count derived, the layout is the fewest containers that meet the floor and supply the
   * cores, and it fails exactly when that many nodes cannot host them; each reason is reported in its case.
   */
  lemma DerivePinnedCores(cores: int, t: int, floor: int, maxCores: int, headroom: seq<int>, hps: Option<seq<int>>,
      hpFor: HugepagesFor, n: int)
    requires cores > 0 && FewestContainers(n, floor, cores, t)
    ensures var r, known := Derive(0, cores, t, floor, maxCores, headroom, hps, hpFor), 1 <= n <= |headroom|;
      && (r.Layout? <==> known && SplitFits(headroom, hps, n, cores, maxCores, hpFor))
      && (r.Layout? ==> r == Layout(n, cores))
      && (r == NoLayout(Cores) <==> !known || Fitting(headroom, None, cores, 0, maxCores) < n)
      && (r == NoLayout(Hugepages) <==>
           && known && Fitting(headroom, None, cores, 0, maxCores) >= n
           && !SplitFits(headroom, hps, n, cores, maxCores, hpFor))
  {
    FewestContainersIs(n, floor, cores, t);
    if 1 <= n <= |headroom| {
      TopNMinCounts(headroom, n, cores, maxCores);
      if hpFor.Some? { FittingNarrows(headroom, hps, cores, hpFor.value(n, cores), maxCores, |headroom|); }
    }
    hide FewestContainers, SortDesc;
  }

  /** At least `count` nodes offer the cores, or fewer than `count` have any core to offer. */
  predicate CoresOk(headroom: seq<int>, count: int, cores: int, maxCores: int) {
    || count < 0 || Fitting(headroom, None, 1, 0, maxCores) < count
    || Fitting(headroom, None, cores, 0, maxCores) >= count
  }

  /**
   * With the count pinned, and the cores pinned or the fewest that supply the requirement, the layout is exactly what
   * is asked for, or each reason against it is reported in its case.
   */
  lemma DerivePinnedCount(count: int, specCores: int, t: int, floor: int, maxCores: int, headroom: seq<int>,
      hps: Option<seq<int>>, hpFor: HugepagesFor, cores: int)
    requires count != 0 && (specCores != 0 ==> cores == specCores)
    requires specCores == 0 ==> if count > 0 then FewestCores(cores, count, t) else cores == 1
    ensures var r, known := Derive(count, specCores, t, floor, maxCores, headroom, hps, hpFor), count <= |headroom|;
      var fits, pages :=
        CoresOk(headroom, count, cores, maxCores), HugepagesOk(headroom, hps, count, cores, maxCores, hpFor);
      && (r.Layout? <==> known && fits && pages && count * cores >= t)
      && (r.Layout? ==> r == Layout(count, cores))
      && (r == NoLayout(Unclassified) <==> !known)
      && (r == NoLayout(Hugepages) <==> known && fits && !pages)
      && (r == NoLayout(Cores) <==> known && (!fits || (pages && count * cores < t)))
  {
    if count > 0 { EvenCoresLeast(cores, count, t); }
    if 1 <= count <= |headroom| {
      TopNMinCounts(headroom, count, cores, maxCores);
      TopNMinCounts(headroom, count, 1, maxCores);
    }
    hide FewestCores, SortDesc, HugepagesOk;
  }

  /** With only a negative core count pinned there is no layout. */
  lemma DeriveNegativeCores(cores: int, t: int, floor: int, maxCores: int, headroom: seq<int>, hps: Option<seq<int>>,
      hpFor: HugepagesFor)
    requires cores < 0
    ensures Derive(0, cores, t, floor, maxCores, headroom, hps, hpFor) == NoLayout(Cores)
  {
    hide TopNMin, HugepagesOk;
  }

  lemma {:induction false} AllAbove(hps: seq<int>, hp: int)
    ensures CountAbove(hps, hp) <= |hps|
    ensures CountAbove(hps, hp) == |hps| <==> forall i :: 0 <= i < |hps| ==> hps[i] >= hp
  {
    if hps != [] { AllAbove(hps[..|hps| - 1], hp); }
  }

  lemma {:induction false} AllFit(headroom: seq<int>, hps: Option<seq<int>>, cores: int, hp: int, maxCores: int, k: nat)
    requires k <= |headroom|
    ensures FittingPrefix(headroom, hps, cores, hp, maxCores, k) == k <==>
      forall i :: 0 <= i < k ==> NodeFits(headroom[i], HugepagesAt(hps, i), cores, hp, maxCores)
  {
    FittingNarrows(headroom, hps, cores, hp, maxCores, k);
    if k > 0 {
      FittingNarrows(headroom, hps, cores, hp, maxCores, k - 1);
      AllFit(headroom, hps, cores, hp, maxCores, k - 1);
    }
  }

  /** The branch marked unexpected fires exactly when the floor exceeds the node count and both dimensions fit. */
  lemma UnexpectedExact(t: int, floor: int, maxCores: int, headroom: seq<int>, hps: Option<seq<int>>,
      hpFor: HugepagesFor)
    requires hps.Some? ==> |hps.value| == |headroom|
    ensures Derive(0, 0, t, floor, maxCores, headroom, hps, hpFor) == NoLayout(Unclassified) <==>
      && hpFor.Some? && 0 < |headroom| < floor
      && SplitFits(headroom, hps, |headroom|, EvenCores(t, |headroom|), maxCores, hpFor)
  {
    var d := |headroom|;
    if d > 0 && hpFor.Some? {
      var c := EvenCores(t, d);
      var hp := hpFor.value(d, c);
      TopNMinCounts(headroom, d, c, maxCores);
      AllFit(headroom, None, c, 0, maxCores, d);
      AllFit(headroom, hps, c, hp, maxCores, d);
      FittingNarrows(headroom, hps, c, hp, maxCores, d);
      if hps.Some? { AllAbove(hps.value, hp); }
      CountWorksExact(headroom, hps, t, maxCores, hpFor, d);
      var coresFit := TopNMin(headroom, d, maxCores) >= c;
      var hugepagesFit := hps.None? || CountAbove(hps.value, hp) >= d;
      assert coresFit <==> forall i :: 0 <= i < d ==> NodeFits(headroom[i], HugepagesAt(None, i), c, 0, maxCores);
      if coresFit && hugepagesFit {
        forall i | 0 <= i < d ensures NodeFits(headroom[i], HugepagesAt(hps, i), c, hp, maxCores) {
          assert NodeFits(headroom[i], HugepagesAt(None, i), c, 0, maxCores);
        }
      }
      if Fitting(headroom, hps, c, hp, maxCores) >= d && hps.Some? {
        forall i | 0 <= i < d ensures hps.value[i] >= hp {
          assert NodeFits(headroom[i], HugepagesAt(hps, i), c, hp, maxCores);
        }
      }
    }
  }

  /** With nothing pinned and no layout found, cores are reported exactly when some node lacks the even split's. */
  lemma DiagnosisExact(t: int, floor: int, maxCores: int, headroom: seq<int>, hps: Option<seq<int>>,
      hpFor: HugepagesFor)
    requires hps.Some? ==> |hps.value| == |headroom|
    requires Derive(0, 0, t, floor, maxCores, headroom, hps, hpFor).NoLayout?
    ensures var r, d := Derive(0, 0, t, floor, maxCores, headroom, hps, hpFor), |headroom|;
      var c := EvenCores(t, d);
      && (r == NoLayout(Cores) <==>
           d == 0 || hpFor.None? || exists i :: 0 <= i < d && Effective(headroom[i], maxCores) < c)
      && (r == NoLayout(Hugepages) <==>
           && d > 0 && hpFor.Some? && (forall i :: 0 <= i < d ==> Effective(headroom[i], maxCores) >= c)
           && hps.Some? && exists i :: 0 <= i < d && hps.value[i] < hpFor.value(d, c))
  {
    var d := |headroom|;
    var c := EvenCores(t, d);
    if d > 0 {
      TopNMinCounts(headroom, d, c, maxCores);
      AllFit(headroom, None, c, 0, maxCores, d);
      FittingNarrows(headroom, None, c, 0, maxCores, d);
      assert forall i :: 0 <= i < d ==>
        (NodeFits(headroom[i], HugepagesAt(None, i), c, 0, maxCores) <==> Effective(headroom[i], maxCores) >= c);
      if hps.Some? && hpFor.Some? { AllAbove(hps.value, hpFor.value(d, c)); }
    }
    hide TopNMin, FittingPrefix, CountAbove, CountWorks, NodeFits, Effective;
  }

  /**
   * Every layout multiplies to the required cores, honours pins and meets the floor when its count is derived. It has
   * containers with cores exactly when the two pins are not both negative.
   */
  lemma DeriveSupplies(specCount: int, specCores: int, t: int, floor: int, maxCores: int,
                       headroom: seq<int>, hps: Option<seq<int>>, hpFor: HugepagesFor)
    requires t >= 0
    ensures match Derive(specCount, specCores, t, floor, maxCores, headroom, hps, hpFor)
      case Layout(count, cores) =>
        && count * cores >= t && count <= |headroom|
        && (count >= 1 && cores >= 1 <==> specCount >= 0 || specCores >= 0)
        && (specCount == 0 ==> count >= floor)
        && (specCount != 0 ==> count == specCount)
        && (specCores != 0 ==> cores == specCores)
      case NoLayout(_) => true
  {
    if specCount != 0 {
      if specCount > 0 && specCores < 0 { MulMono(1, specCount, -specCores); }
      if specCount < 0 && specCores > 0 { MulMono(1, specCores, -specCount); }
    } else if specCores > 0 {
      var count := Max(floor, CeilDiv(t, specCores));
      FewestContainersIs(count, floor, specCores, t);
      DerivePinnedCores(specCores, t, floor, maxCores, headroom, hps, hpFor, count);
    } else if specCores == 0 {
      DeriveLeast(t, floor, maxCores, headroom, hps, hpFor);
    }
  }

  /** The count of a layout meets the floor exactly when it is derived, or pinned at the floor or above. */
  lemma CountFloorExact(specCount: int, specCores: int, t: int, floor: int, maxCores: int,
                        headroom: seq<int>, hps: Option<seq<int>>, hpFor: HugepagesFor)
    requires Derive(specCount, specCores, t, floor, maxCores, headroom, hps, hpFor).Layout?
    ensures Derive(specCount, specCores, t, floor, maxCores, headroom, hps, hpFor).count >= floor <==>
      specCount == 0 || specCount >= floor
  {
    hide TopNMin, HugepagesOk, CountWorks;
  }

  // ----- the steady-state skip gate -----

  const UNBOUNDED := 0x4000_0000

  /** ComputeLayoutWouldGrow: the derivation over `curCount` nodes of unbounded headroom asks for more than there is. */
  predicate WouldGrow(specCount: int, specCores: int, t: int, floor: int, maxCores: int, curCount: int, curMin: int,
      curTotal: int) {
    curCount <= 0 ||
    match Derive(specCount, specCores, t, floor, maxCores, seq(curCount, _ => UNBOUNDED), None, None)
    case NoLayout(_) => true
    case Layout(count, cores) =>
      count > curCount || (cores > curMin && (specCores != 0 || curTotal < t))
  }

  /** Skipping a re-plan is safe: the current set covers the requirement, the floor and any pinned core count. */
  lemma SkipIsSafe(specCount: int, specCores: int, t: int, floor: int, maxCores: int, curCount: int, curMin: int,
      curTotal: int)
    requires t >= 0 && curMin >= 0 && curTotal >= curCount * curMin
    requires !WouldGrow(specCount, specCores, t, floor, maxCores, curCount, curMin, curTotal)
    ensures specCount >= 0 || specCores >= 0 ==> curTotal >= t
    ensures specCount == 0 ==> curCount >= floor
    ensures specCount != 0 ==> curCount >= specCount
    ensures specCores != 0 ==> curMin >= specCores
  {
    var headroom := seq(curCount, _ => UNBOUNDED);
    DeriveSupplies(specCount, specCores, t, floor, maxCores, headroom, None, None);
    var layout := Derive(specCount, specCores, t, floor, maxCores, headroom, None, None);
    hide Derive;
    if 0 <= layout.cores <= curMin {
      MulMono(layout.count, curCount, layout.cores);
      MulMono(layout.cores, curMin, curCount);
    }
  }

  /** Two negative pins skip exactly when their product suffices, however few cores are in place. */
  lemma SkipWithNegativePins(specCount: int, specCores: int, t: int, floor: int, maxCores: int, curCount: int,
      curMin: int, curTotal: int)
    requires specCount < 0 && specCores < 0 && curMin >= 0
    ensures WouldGrow(specCount, specCores, t, floor, maxCores, curCount, curMin, curTotal) <==>
      curCount <= 0 || specCount * specCores < t
  {
    hide TopNMin;
    if curCount > 0 {
      var headroom := seq(curCount, _ => UNBOUNDED);
      assert TopNMin(headroom, specCount, maxCores) == 0 by { NoneTopped(headroom, specCount, maxCores); }
    }
  }

  lemma NoneTopped(headroom: seq<int>, n: int, maxCores: int)
    requires n <= 0
    ensures TopNMin(headroom, n, maxCores) == 0
  {
  }

  /** The cores one container may have when headroom is unbounded. */
  function Allowed(maxCores: int): int { if 0 < maxCores < UNBOUNDED then maxCores else UNBOUNDED }

  lemma {:induction false} UniformFitting(n: nat, c: int, maxCores: int, k: nat)
    requires k <= n
    ensures FittingPrefix(seq(n, _ => UNBOUNDED), None, c, 0, maxCores, k) == if Allowed(maxCores) >= c then k else 0
  {
    if k > 0 { UniformFitting(n, c, maxCores, k - 1); }
  }

  lemma SplitAllowed(t: int, maxCores: int, n: nat, m: int)
    requires 1 <= m <= n
    ensures SplitFits(seq(n, _ => UNBOUNDED), None, m, EvenCores(t, m), maxCores, None) <==>
      m * Allowed(maxCores) >= Max(t, 0)
  {
    UniformFitting(n, EvenCores(t, m), maxCores, n);
    CeilDivAdjoint(t, m, Allowed(maxCores));
    MulMono(0, m, Allowed(maxCores));
  }

  lemma DeriveAllowed(t: int, floor: int, maxCores: int, d: nat, n: int)
    requires FewestContainers(n, Max(floor, 1), Allowed(maxCores), t)
    ensures var r := Derive(0, 0, t, floor, maxCores, seq(d, _ => UNBOUNDED), None, None);
      && (r.Layout? <==> n <= d) && (r.Layout? ==> r == Layout(n, EvenCores(t, n)))
  {
    var headroom := seq(d, _ => UNBOUNDED);
    DeriveLeast(t, floor, maxCores, headroom, None, None);
    hide Derive, SplitFits, EvenCores, FewestCores, Allowed;
    forall m | 1 <= m <= d
      ensures SplitFits(headroom, None, m, EvenCores(t, m), maxCores, None) <==> m * Allowed(maxCores) >= Max(t, 0)
    {
      SplitAllowed(t, maxCores, d, m);
    }
    if n <= d { assert SplitFits(headroom, None, n, EvenCores(t, n), maxCores, None); }
  }

  /**
   * With nothing pinned a re-plan is skipped exactly when the computes in place are no fewer than the fewest of the
   * largest allowed size that meet the floor and supply the cores, and either the smallest has the cores of that many
   * or together they have enough.
   */
  lemma SkipExact(t: int, floor: int, maxCores: int, curCount: int, curMin: int, curTotal: int, n: int, c: int)
    requires FewestContainers(n, Max(floor, 1), Allowed(maxCores), t) && FewestCores(c, n, t)
    ensures !WouldGrow(0, 0, t, floor, maxCores, curCount, curMin, curTotal) <==>
      n <= curCount && (c <= curMin || curTotal >= t)
  {
    EvenCoresLeast(c, n, t);
    if curCount > 0 { DeriveAllowed(t, floor, maxCores, curCount, n); }
    hide Derive, FewestCores, EvenCores;
  }

  /**
   * With cores pinned it is skipped exactly when the pin is allowed, no compute in place is below it, and there are as
   * many as the fewest of that size that meet the floor and supply the cores.
   */
  lemma SkipPinnedCores(cores: int, t: int, floor: int, maxCores: int, curCount: int, curMin: int, curTotal: int,
      n: int)
    requires cores > 0 && FewestContainers(n, floor, cores, t)
    ensures !WouldGrow(0, cores, t, floor, maxCores, curCount, curMin, curTotal) <==>
      cores <= Allowed(maxCores) && cores <= curMin && 1 <= n <= curCount
  {
    if curCount > 0 {
      DerivePinnedCores(cores, t, floor, maxCores, seq(curCount, _ => UNBOUNDED), None, None, n);
      UniformFitting(curCount, cores, maxCores, curCount);
    }
    hide Derive, FewestContainers;
  }

  /**
   * With the count pinned it is skipped exactly when there are that many, their size is allowed and supplies the cores,
   * and none in place is below it or, where the size is not pinned, together they have enough.
   */
  lemma SkipPinnedCount(count: int, specCores: int, t: int, floor: int, maxCores: int, curCount: int, curMin: int,
      curTotal: int, cores: int)
    requires count > 0 && if specCores != 0 then cores == specCores else FewestCores(cores, count, t)
    ensures !WouldGrow(count, specCores, t, floor, maxCores, curCount, curMin, curTotal) <==>
      && count <= curCount && cores <= Allowed(maxCores) && count * cores >= t
      && (cores <= curMin || (specCores == 0 && curTotal >= t))
  {
    if curCount > 0 {
      DerivePinnedCount(count, specCores, t, floor, maxCores, seq(curCount, _ => UNBOUNDED), None, None, cores);
      UniformFitting(curCount, cores, maxCores, curCount);
      UniformFitting(curCount, 1, maxCores, curCount);
    }
    hide Derive, FewestCores;
  }
}
