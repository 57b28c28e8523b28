/** Hugepage sizing of compute containers. */
module HugepageSizing {
  import opened Arith
  import opened Model

  function DriveHugepagesPerCore(cons: Constraints): int {
    cons.hugepagesPerCore + cons.driveDpdkPerCore
  }

  /** Cluster-wide hugepages derived from raw capacity, before it is split over containers. */
  function ClusterHugepages(raw: Caps, cons: Constraints): int {
    (if cons.computeHugepagesRatio.tlc > 0 then GoDiv(raw.tlc * 1024, cons.computeHugepagesRatio.tlc) else 0) +
    (if cons.computeHugepagesRatio.qlc > 0 then GoDiv(raw.qlc * 1024, cons.computeHugepagesRatio.qlc) else 0)
  }

  function RoundEven(x: int): int { if x % 2 != 0 then x + 1 else x }

  function Capped(x: int, cap: int): int { if cap > 0 && x > cap then cap else x }

  /** Hugepages of one of `count` containers, before the cap and the DPDK part. */
  function Uncapped(raw: Caps, count: int, cores: int, cons: Constraints): int {
    var share := if count > 0 then GoDiv(ClusterHugepages(raw, cons), count) else 0;
    RoundEven(Max(share + 1700 * cores, 3000 * cores))
  }

  function ComputeHugepages(raw: Caps, count: int, cores: int, cons: Constraints): int {
    Capped(Uncapped(raw, count, cores, cons), cons.computeMaxHugepages) + cons.computeDpdkPerCore * cores
  }

  lemma ClusterHugepagesNonNegative(raw: Caps, cons: Constraints)
    requires raw.tlc >= 0 && raw.qlc >= 0
    ensures ClusterHugepages(raw, cons) >= 0
  {
    if cons.computeHugepagesRatio.tlc > 0 { DivAdjoint(0, raw.tlc * 1024, cons.computeHugepagesRatio.tlc); }
    if cons.computeHugepagesRatio.qlc > 0 { DivAdjoint(0, raw.qlc * 1024, cons.computeHugepagesRatio.qlc); }
  }

  /** More containers and fewer cores per container never need more hugepages per container. */
  lemma HugepagesShrink(raw: Caps, count: int, cores: int, count': int, cores': int, cons: Constraints)
    requires raw.tlc >= 0 && raw.qlc >= 0 && cons.computeDpdkPerCore >= 0
    requires 1 <= count <= count' && cores' <= cores
    ensures ComputeHugepages(raw, count', cores', cons) <= ComputeHugepages(raw, count, cores, cons)
  {
    var total := ClusterHugepages(raw, cons);
    ClusterHugepagesNonNegative(raw, cons);
    var q := total / count';
    DivAdjoint(q, total, count');
    DivAdjoint(0, total, count');
    MulMono(count, count', q);
    DivAdjoint(q, total, count);
    assert total / count' <= total / count;
    MulMono(cores', cores, cons.computeDpdkPerCore);
  }

  lemma UncappedShrinks(raw: Caps, count: int, count': int, cores: int, cons: Constraints)
    requires raw.tlc >= 0 && raw.qlc >= 0 && 1 <= count <= count'
    ensures Uncapped(raw, count', cores, cons) <= Uncapped(raw, count, cores, cons)
  {
    var free := cons.(computeMaxHugepages := 0, computeDpdkPerCore := 0);
    assert ClusterHugepages(raw, free) == ClusterHugepages(raw, cons);
    HugepagesShrink(raw, count, cores, count', cores, free);
    assert free.computeDpdkPerCore * cores == 0;
    hide ClusterHugepages, GoDiv;
  }

  /** A count that is not positive gets no share of the cluster's hugepages. */
  lemma UncappedLeast(raw: Caps, count: int, total: int, cores: int, cons: Constraints)
    requires raw.tlc >= 0 && raw.qlc >= 0 && count < 1 <= total
    ensures Uncapped(raw, count, cores, cons) <= Uncapped(raw, total, cores, cons)
  {
    ClusterHugepagesNonNegative(raw, cons);
    hide ClusterHugepages;
    DivAdjoint(0, ClusterHugepages(raw, cons), total);
  }

  /**
   * Hugepages for one count are within those for another exactly when the other is positive and at most the count, or
   * the figures before the cap agree, or the other already reaches the cap.
   */
  lemma HugepagesWithin(raw: Caps, count: int, total: int, cores: int, cons: Constraints)
    requires raw.tlc >= 0 && raw.qlc >= 0 && total >= 1
    ensures ComputeHugepages(raw, total, cores, cons) <= ComputeHugepages(raw, count, cores, cons) <==>
      || 1 <= count <= total || Uncapped(raw, total, cores, cons) == Uncapped(raw, count, cores, cons)
      || 0 < cons.computeMaxHugepages <= Uncapped(raw, count, cores, cons)
  {
    if count < 1 {
      UncappedLeast(raw, count, total, cores, cons);
    } else if total >= count {
      UncappedShrinks(raw, count, total, cores, cons);
    } else {
      UncappedShrinks(raw, total, count, cores, cons);
    }
    hide Uncapped;
  }

  /** The whole number of times b goes into a; zero for a disabled divisor. */
  predicate FloorOf(k: int, a: int, b: int) { if b <= 0 then k == 0 else k * b <= a < (k + 1) * b }

  lemma FloorOfIs(k: int, a: int, b: int)
    requires b > 0 && a >= 0 && FloorOf(k, a, b)
    ensures k == GoDiv(a, b) >= 0
  {
    DivAdjoint(k, a, b);
    DivAdjoint(k + 1, a, b);
    DivAdjoint(0, a, b);
  }

  /** The least even number that is at least both. */
  predicate LeastEven(u: int, a: int, b: int) { u % 2 == 0 && u >= a && u >= b && (u - 2 < a || u - 2 < b) }

  /**
   * A compute container's hugepages: its share of what the raw capacities ask for by their ratios plus 1700 MiB a core,
   * or 3000 MiB a core if that is more, made even and capped, plus the DPDK part of each core.
   */
  lemma SizingExact(raw: Caps, count: int, cores: int, cons: Constraints, t: int, q: int, share: int, u: int)
    requires raw.tlc >= 0 && raw.qlc >= 0
    requires FloorOf(t, raw.tlc * 1024, cons.computeHugepagesRatio.tlc)
    requires FloorOf(q, raw.qlc * 1024, cons.computeHugepagesRatio.qlc)
    requires FloorOf(share, t + q, count) && LeastEven(u, share + 1700 * cores, 3000 * cores)
    ensures ComputeHugepages(raw, count, cores, cons) ==
      (if cons.computeMaxHugepages > 0 then Min(u, cons.computeMaxHugepages) else u) + cons.computeDpdkPerCore * cores
  {
    if cons.computeHugepagesRatio.tlc > 0 { FloorOfIs(t, raw.tlc * 1024, cons.computeHugepagesRatio.tlc); }
    if cons.computeHugepagesRatio.qlc > 0 { FloorOfIs(q, raw.qlc * 1024, cons.computeHugepagesRatio.qlc); }
    assert ClusterHugepages(raw, cons) == t + q;
    ClusterHugepagesNonNegative(raw, cons);
    if count > 0 { FloorOfIs(share, t + q, count); }
    hide FloorOf, ClusterHugepages, GoDiv;
    EvenIs(u, share + 1700 * cores, 3000 * cores);
  }

  lemma EvenIs(u: int, a: int, b: int)
    requires LeastEven(u, a, b)
    ensures u == RoundEven(Max(a, b))
  {
  }
}
