/** The arithmetic of planPoolUniformIncrease: how many failure domains, and at which level. */
module UniformIncrease {
  import opened Arith
  import opened Model
  import opened Placement
  import opened FreshFds

  /** What one existing failure domain holds of the pool, and the most it could be grown to. */
  datatype Reach = Reach(cap: int, ceiling: int)

  datatype Increase = Increase(
    desired: int,
    minFd: int,
    current: int,
    numExisting: nat,
    t0: int,
    tmax: int,
    average: int,
    overshoot: int,
    spare: seq<FdGroup>,
    reaches: seq<Reach>,
    cons: Constraints)
  {
    function Delta(): int { desired - current }

    /** The most one failure domain may hold. */
    function MaxPerFd(): int { if minFd > 0 then GoDiv(desired, minFd) else 0 }
  }

  predicate DetectImbalance(newPerFd: int, average: int, cons: Constraints) {
    average > 0 && cons.imbalanceFactor > 0.0 && newPerFd as real >= average as real * cons.imbalanceFactor
  }

  // ----- preferred: k new failure domains covering the delta -----

  function EvenSize(inc: Increase, k: nat): nat { Max(CeilDiv(inc.Delta(), k), inc.cons.minChunk) }

  /** k new failure domains of EvenSize pass every guard of the create-new loop. */
  predicate EvenWorks(inc: Increase, k: nat) {
    var size := EvenSize(inc, k);
    && size <= inc.MaxPerFd()
    && !(size > inc.tmax && DetectImbalance(size, inc.average, inc.cons))
    && CountAtLeast(inc.spare, size) >= k
    && inc.current + k * size - inc.desired <= inc.overshoot
  }

  function FirstEven(inc: Increase, k: nat, kMax: int): (r: Option<nat>)
    ensures r.Some? ==> k <= r.value <= kMax && EvenWorks(inc, r.value)
    ensures forall j :: k <= j <= kMax && (r.None? || j < r.value) ==> !EvenWorks(inc, j)
    decreases kMax + 1 - k
  {
    if k > kMax then None
    else if EvenWorks(inc, k) then Some(k)
    else FirstEven(inc, k + 1, kMax)
  }

  function KMin(inc: Increase): nat { Max(1, CeilDiv(inc.Delta(), inc.MaxPerFd())) }

  function KMax(inc: Increase): int { Min(CeilDiv(inc.Delta(), inc.t0), |inc.spare|) }

  function EvenCount(inc: Increase): Option<nat> {
    if inc.MaxPerFd() > 0 then FirstEven(inc, KMin(inc), KMax(inc)) else None
  }

  // ----- otherwise: a final count N at the smallest uniform level -----

  /** Capacity the existing failure domains reach at a level; None when one of them cannot reach it. */
  function ExistingReach(rs: seq<Reach>, level: int): Option<int> {
    if rs == [] then Some(0) else
      var r := rs[|rs| - 1];
      match ExistingReach(rs[..|rs| - 1], level)
      case None => None
      case Some(sum) =>
        if r.cap <= 0 then Some(sum)
        else if r.cap >= level then Some(sum + r.cap)
        else if r.ceiling >= level then Some(sum + level)
        else None
  }

  datatype Level = Level(n: nat, level: nat, total: int)

  predicate Better(a: Level, b: Level) { a.level < b.level || (a.level == b.level && a.total < b.total) }

  function TryCount(inc: Increase, n: nat): Option<Level> {
    var level := Max(inc.t0, CeilDiv(inc.desired, n));
    var kFresh := n - inc.numExisting;
    match ExistingReach(inc.reaches, level)
    case None => None
    case Some(sum) =>
      var total := sum + kFresh * level;
      if CountAtLeast(inc.spare, level) < kFresh || total < inc.desired || total - inc.desired > inc.overshoot then None
      else Some(Level(n, level, total))
  }

  /** The best level among counts lo <= n < hi, the earlier one winning ties. */
  function BestLevel(inc: Increase, lo: nat, hi: nat): (r: Option<Level>)
    ensures r.Some? ==> lo <= r.value.n < hi && TryCount(inc, r.value.n) == r
    ensures forall n :: lo <= n < hi && TryCount(inc, n).Some? ==> r.Some? && !Better(TryCount(inc, n).value, r.value)
    decreases hi
  {
    if hi <= lo then None else
      var before := BestLevel(inc, lo, hi - 1);
      var here := TryCount(inc, hi - 1);
      if here.Some? && (before.None? || Better(here.value, before.value)) then here else before
  }

  function GrowLevel(inc: Increase): Option<Level> {
    BestLevel(inc, Max(0, Max(inc.minFd, inc.numExisting)), inc.numExisting + |inc.spare| + 1)
  }

  // ----- the decision -----

  datatype Outcome =
    | CreateEven(k: nat, size: nat)
    | CreateAtT0(kFresh: nat, level: nat, total: int)
    | GrowTo(kFresh: nat, level: nat, total: int)
    | GiveUp(binding: Binding)

  function Decide(inc: Increase): Outcome {
    match EvenCount(inc)
    case Some(k) => CreateEven(k, EvenSize(inc, k))
    case None =>
      match GrowLevel(inc)
      case None => GiveUp(DriveCapacity)
      case Some(best) =>
        GrowLevelAboveExisting(inc);
        var kFresh := best.n - inc.numExisting;
        if best.level == inc.t0 then CreateAtT0(kFresh, best.level, best.total)
        else if !inc.cons.allowInPlaceGrowth then
          GiveUp(if CeilDiv(inc.Delta(), inc.t0) > CountAtLeast(inc.spare, inc.t0) then FailureDomains
            else DriveCapacity)
        else if (best.level - inc.t0) as real < inc.cons.minGrowthFraction * inc.t0 as real then GiveUp(FailureDomains)
        else GrowTo(kFresh, best.level, best.total)
  }

  lemma GrowLevelAboveExisting(inc: Increase)
    ensures GrowLevel(inc).Some? ==> GrowLevel(inc).value.n >= inc.numExisting
  {
  }

  // ----- what the searches guarantee -----

  /** k new failure domains of EvenSize: what they cover, what they may hold, and that k is not too many. */
  ghost predicate EvenAllowed(inc: Increase, k: nat) {
    var size := EvenSize(inc, k);
    && k >= 1 && k * size >= inc.Delta() && size >= inc.cons.minChunk
    && (forall m: nat :: inc.cons.minChunk <= m < size ==> k * m < inc.Delta())
    && inc.t0 > 0 && (k - 1) * inc.t0 < inc.Delta()
    && inc.minFd > 0 && size * inc.minFd <= inc.desired
    && (size > inc.tmax && inc.average > 0 && inc.cons.imbalanceFactor > 0.0 ==>
         size as real < inc.average as real * inc.cons.imbalanceFactor)
    && CountAtLeast(inc.spare, size) >= k
    && inc.current + k * size <= inc.desired + inc.overshoot
  }

  lemma EvenSizeLeast(inc: Increase, k: nat)
    requires k >= 1 && inc.Delta() > 0
    ensures var size := EvenSize(inc, k);
      && k * size >= inc.Delta() && size >= inc.cons.minChunk
      && forall m: nat :: inc.cons.minChunk <= m < size ==> k * m < inc.Delta()
  {
    var size := EvenSize(inc, k);
    CeilDivAdjoint(inc.Delta(), k, size);
    forall m: nat | inc.cons.minChunk <= m < size ensures k * m < inc.Delta() { CeilDivAdjoint(inc.Delta(), k, m); }
  }

  lemma {:induction false} CountBounded(gs: seq<FdGroup>, level: int)
    ensures CountAtLeast(gs, level) <= |gs|
  {
    if gs != [] { CountBounded(gs[..|gs| - 1], level); }
  }

  lemma EvenWorksExact(inc: Increase, k: nat)
    requires k >= 1 && inc.Delta() > 0 && inc.current >= 0
    ensures EvenAllowed(inc, k) <==> inc.MaxPerFd() > 0 && KMin(inc) <= k <= KMax(inc) && EvenWorks(inc, k)
  {
    var size := EvenSize(inc, k);
    EvenSizeLeast(inc, k);
    CountBounded(inc.spare, size);
    if inc.t0 > 0 { CeilDivAdjoint(inc.Delta(), inc.t0, k - 1); }
    if inc.minFd > 0 {
      DivAdjoint(size, inc.desired, inc.minFd);
      if inc.MaxPerFd() > 0 && size <= inc.MaxPerFd() {
        MulMono(size, inc.MaxPerFd(), k);
        CeilDivAdjoint(inc.Delta(), inc.MaxPerFd(), k);
      }
    }
    hide CountAtLeast;
  }

  /** The create-new loop takes the fewest failure domains that are allowed, and finds none exactly when none are. */
  lemma EvenExact(inc: Increase)
    requires inc.Delta() > 0 && inc.current >= 0
    ensures match EvenCount(inc)
      case Some(k) => EvenAllowed(inc, k) && forall j: nat :: j < k ==> !EvenAllowed(inc, j)
      case None => forall j: nat :: !EvenAllowed(inc, j)
  {
    forall k: nat | k >= 1
      ensures EvenAllowed(inc, k) <==> inc.MaxPerFd() > 0 && KMin(inc) <= k <= KMax(inc) && EvenWorks(inc, k)
    {
      EvenWorksExact(inc, k);
    }
    hide EvenWorks;
  }

  /**
   * The create-new loop takes the fewest failure domains that pass its guards, and they cover the delta within the
   * cap.
   */
  lemma EvenCovers(inc: Increase)
    requires EvenCount(inc).Some?
    ensures var k := EvenCount(inc).value;
      && k >= 1 && EvenWorks(inc, k)
      && (forall j :: KMin(inc) <= j < k ==> !EvenWorks(inc, j))
      && inc.desired <= inc.current + k * EvenSize(inc, k) <= inc.desired + inc.overshoot
  {
    var k := EvenCount(inc).value;
    CeilDivCovers(inc.Delta(), k);
    MulMono(CeilDiv(inc.Delta(), k), EvenSize(inc, k), k);
  }

  /** Every failure domain that carries the pool holds the level or can be grown to it. */
  ghost predicate Reachable(rs: seq<Reach>, level: int) {
    forall i :: 0 <= i < |rs| && rs[i].cap > 0 ==> rs[i].cap >= level || rs[i].ceiling >= level
  }

  /** What the carrying failure domains hold once none is below the level. */
  function RaisedSum(rs: seq<Reach>, level: int): int {
    if rs == [] then 0
    else RaisedSum(rs[..|rs| - 1], level) + if rs[|rs| - 1].cap > 0 then Max(rs[|rs| - 1].cap, level) else 0
  }

  lemma {:induction false} ReachExact(rs: seq<Reach>, level: int)
    ensures ExistingReach(rs, level) == if Reachable(rs, level) then Some(RaisedSum(rs, level)) else None
  {
    if rs != [] {
      var init := rs[..|rs| - 1];
      ReachExact(init, level);
      assert Reachable(rs, level) ==> Reachable(init, level);
    }
  }

  /** The least level of at least t0 at which n failure domains cover the target. */
  ghost predicate LeastLevel(inc: Increase, n: nat, level: nat) {
    && level >= inc.t0 && n * level >= inc.desired && forall m: nat :: inc.t0 <= m < level ==> n * m < inc.desired
  }

  lemma LevelIsLeast(inc: Increase, n: nat, level: nat)
    requires n >= 1
    ensures LeastLevel(inc, n, level) <==> level == Max(inc.t0, CeilDiv(inc.desired, n))
  {
    var least: nat := Max(inc.t0, CeilDiv(inc.desired, n));
    CeilDivAdjoint(inc.desired, n, least);
    forall m: nat | inc.t0 <= m < least ensures n * m < inc.desired { CeilDivAdjoint(inc.desired, n, m); }
    assert n * least >= inc.desired && least >= inc.t0;
    CeilDivAdjoint(inc.desired, n, level);
  }

  /** A final count works exactly when existing and spare failure domains reach its least level within the cap. */
  lemma TryExact(inc: Increase, n: nat, level: nat)
    requires n >= 1 && LeastLevel(inc, n, level)
    ensures var total := RaisedSum(inc.reaches, level) + (n - inc.numExisting) * level;
      TryCount(inc, n) ==
        if && Reachable(inc.reaches, level) && CountAtLeast(inc.spare, level) >= n - inc.numExisting
           && inc.desired <= total <= inc.desired + inc.overshoot
        then Some(Level(n, level, total)) else None
  {
    LevelIsLeast(inc, n, level);
    ReachExact(inc.reaches, level);
    hide CountAtLeast, RaisedSum, Reachable, LeastLevel;
  }

  /** The final counts the grow phase tries. */
  predicate Considered(inc: Increase, n: nat) {
    Max(inc.minFd, inc.numExisting) <= n <= inc.numExisting + |inc.spare|
  }

  /**
   * The grow phase takes the least level any final count reaches, then the least total, then the fewest failure
   * domains; its total is within the cap, and it finds nothing exactly when no count works.
   */
  lemma GrowLevelLeast(inc: Increase)
    ensures match GrowLevel(inc)
      case None => forall n: nat :: Considered(inc, n) ==> TryCount(inc, n).None?
      case Some(best) =>
        && Considered(inc, best.n) && TryCount(inc, best.n) == Some(best)
        && inc.desired <= best.total <= inc.desired + inc.overshoot
        && forall n: nat :: Considered(inc, n) && TryCount(inc, n).Some? ==>
          var other := TryCount(inc, n).value;
          || best.level < other.level || (best.level == other.level && best.total < other.total)
          || (best.level == other.level && best.total == other.total && best.n <= n)
  {
    var lo, hi := Max(0, Max(inc.minFd, inc.numExisting)), inc.numExisting + |inc.spare| + 1;
    BestIsFirst(inc, lo, hi);
    hide TryCount, BestLevel;
    forall n: nat | Considered(inc, n) ensures lo <= n < hi {}
  }

  lemma {:induction false} BestIsFirst(inc: Increase, lo: nat, hi: nat)
    ensures BestLevel(inc, lo, hi).Some? ==>
      forall n :: lo <= n < BestLevel(inc, lo, hi).value.n && TryCount(inc, n).Some? ==>
        Better(BestLevel(inc, lo, hi).value, TryCount(inc, n).value)
    decreases hi
  {
    hide TryCount;
    if hi > lo { BestIsFirst(inc, lo, hi - 1); }
  }

  /** Some considered count works. */
  ghost predicate SomeCountWorks(inc: Increase) { exists n: nat :: Considered(inc, n) && TryCount(inc, n).Some? }

  /** Every considered count that works raises the level above t0. */
  ghost predicate AllAboveT0(inc: Increase) {
    forall n: nat :: Considered(inc, n) && TryCount(inc, n).Some? ==> TryCount(inc, n).value.level > inc.t0
  }

  /** Every considered count that works raises it by at least the minimum growth fraction. */
  ghost predicate AllWorthwhile(inc: Increase) {
    forall n: nat :: Considered(inc, n) && TryCount(inc, n).Some? ==>
      (TryCount(inc, n).value.level - inc.t0) as real >= inc.cons.minGrowthFraction * inc.t0 as real
  }

  /** The spare failure domains that can hold t0 do not cover the delta with t0 each. */
  ghost predicate TooFewSpare(inc: Increase) {
    inc.t0 > 0 && CountAtLeast(inc.spare, inc.t0) * inc.t0 < inc.Delta()
  }

  /**
   * When no even count is found: existing failure domains are grown exactly when growth is on and every working count
   * raises the level far enough, and otherwise each reason to give up is reported exactly in its case.
   */
  lemma DecideExact(inc: Increase)
    requires EvenCount(inc).None?
    ensures Decide(inc).GrowTo? <==>
      SomeCountWorks(inc) && AllAboveT0(inc) && inc.cons.allowInPlaceGrowth && AllWorthwhile(inc)
    ensures Decide(inc) == GiveUp(FailureDomains) <==>
      && SomeCountWorks(inc) && AllAboveT0(inc)
      && if inc.cons.allowInPlaceGrowth then !AllWorthwhile(inc) else TooFewSpare(inc)
    ensures Decide(inc) == GiveUp(DriveCapacity) <==>
      || !SomeCountWorks(inc)
      || (AllAboveT0(inc) && !inc.cons.allowInPlaceGrowth && !TooFewSpare(inc))
    ensures !Decide(inc).CreateEven?
  {
    GrowLevelLeast(inc);
    LevelsAtLeastT0(inc);
    if inc.t0 > 0 { CeilDivAdjoint(inc.Delta(), inc.t0, CountAtLeast(inc.spare, inc.t0)); }
    hide TryCount, GrowLevel, EvenCount, CountAtLeast, Considered;
    if GrowLevel(inc).Some? {
      var best := GrowLevel(inc).value;
      assert Considered(inc, best.n) && TryCount(inc, best.n) == Some(best);
      FractionMonotone(inc, best);
    }
  }

  lemma LevelsAtLeastT0(inc: Increase)
    ensures forall n: nat :: TryCount(inc, n).Some? ==> TryCount(inc, n).value.level >= inc.t0
  {
  }

  /** The least level decides whether all are far enough above t0. */
  lemma FractionMonotone(inc: Increase, best: Level)
    requires Considered(inc, best.n) && TryCount(inc, best.n) == Some(best)
    requires forall n: nat :: Considered(inc, n) && TryCount(inc, n).Some? ==>
      best.level <= TryCount(inc, n).value.level
    ensures AllAboveT0(inc) <==> best.level > inc.t0
    ensures AllWorthwhile(inc) <==> (best.level - inc.t0) as real >= inc.cons.minGrowthFraction * inc.t0 as real
  {
    hide TryCount, Considered;
  }

  /** A minimum growth fraction of zero holds back no growth: any level above t0 is realized. */
  lemma ZeroFractionGrows(inc: Increase)
    requires inc.cons.allowInPlaceGrowth && inc.cons.minGrowthFraction == 0.0
    requires EvenCount(inc).None? && GrowLevel(inc).Some?
    ensures Decide(inc).GrowTo? || Decide(inc).CreateAtT0?
  {
    assert GrowLevel(inc).value.level >= inc.t0;
  }

  /** What each outcome promises the placement that follows. */
  lemma DecideFacts(inc: Increase)
    ensures match Decide(inc)
      case CreateEven(k, size) =>
        && size >= inc.cons.minChunk && CountAtLeast(inc.spare, size) >= k
        && inc.desired <= inc.current + k * size <= inc.desired + inc.overshoot
      case CreateAtT0(k, level, total) =>
        && level == inc.t0 && CountAtLeast(inc.spare, level) >= k && ExistingReach(inc.reaches, level).Some?
        && total == ExistingReach(inc.reaches, level).value + k * level
        && inc.desired <= total <= inc.desired + inc.overshoot
      case GrowTo(k, level, total) =>
        && level > inc.t0 && inc.cons.allowInPlaceGrowth
        && CountAtLeast(inc.spare, level) >= k && ExistingReach(inc.reaches, level).Some?
        && total == ExistingReach(inc.reaches, level).value + k * level
        && inc.desired <= total <= inc.desired + inc.overshoot
      case GiveUp(_) => true
  {
    if EvenCount(inc).Some? { EvenCovers(inc); }
  }

  function CapSum(rs: seq<Reach>): int {
    if rs == [] then 0 else CapSum(rs[..|rs| - 1]) + rs[|rs| - 1].cap
  }

  /** Every failure domain carrying the pool holds at least `level`. */
  ghost predicate AllAtLeast(rs: seq<Reach>, level: int) {
    forall i :: 0 <= i < |rs| && rs[i].cap > 0 ==> rs[i].cap >= level
  }

  ghost predicate NoneNegative(rs: seq<Reach>) { forall i :: 0 <= i < |rs| ==> rs[i].cap >= 0 }

  function Carrying(rs: seq<Reach>): nat {
    if rs == [] then 0 else Carrying(rs[..|rs| - 1]) + if rs[|rs| - 1].cap > 0 then 1 else 0
  }

  /** A level costs nothing exactly when every existing failure domain already holds it. */
  lemma {:induction false} ReachSum(rs: seq<Reach>, level: int)
    requires NoneNegative(rs) && ExistingReach(rs, level).Some?
    ensures ExistingReach(rs, level).value >= CapSum(rs)
    ensures ExistingReach(rs, level).value == CapSum(rs) <==> AllAtLeast(rs, level)
  {
    if rs != [] { ReachSum(rs[..|rs| - 1], level); }
  }

  lemma {:induction false} ReachHeld(rs: seq<Reach>, level: int)
    requires NoneNegative(rs) && AllAtLeast(rs, level)
    ensures ExistingReach(rs, level) == Some(CapSum(rs))
  {
    if rs != [] { ReachHeld(rs[..|rs| - 1], level); }
  }

  /** Existing failure domains all hold a whole chunk, and t0 is the smallest of them. */
  ghost predicate WholeChunks(inc: Increase) {
    && 0 < inc.cons.minChunk <= inc.t0 <= inc.tmax
    && NoneNegative(inc.reaches) && AllAtLeast(inc.reaches, inc.t0) && CapSum(inc.reaches) == inc.current
  }

  /**
   * If t0 is within the per-FD ceiling, a t0-level candidate of the grow phase means the create-new loop
   * had already found a count: its K = ceil(delta / t0) failure domains pass every guard.
   */
  lemma T0CandidateWasPlaced(inc: Increase, n: nat)
    requires WholeChunks(inc) && inc.Delta() > 0 && inc.t0 <= inc.MaxPerFd()
    requires n >= inc.numExisting && n <= inc.numExisting + |inc.spare|
    requires TryCount(inc, n).Some? && TryCount(inc, n).value.level == inc.t0
    ensures EvenCount(inc).Some?
  {
    var kFresh := n - inc.numExisting;
    var k := CeilDiv(inc.Delta(), inc.t0);
    ReachHeld(inc.reaches, inc.t0);
    CeilDivAdjoint(inc.Delta(), inc.t0, kFresh);
    CeilDivCovers(inc.Delta(), inc.t0);
    CeilDivAntitone(inc.Delta(), inc.t0, inc.MaxPerFd());
    assert KMin(inc) <= k <= KMax(inc);
    CeilDivAdjoint(inc.Delta(), k, inc.t0);
    var size := EvenSize(inc, k);
    assert size <= inc.t0;
    CountAntitone(inc.spare, size, inc.t0);
    MulMono(size, inc.t0, k);
    MulMono(k, kFresh, inc.t0);
    assert EvenWorks(inc, k);
  }

  /** Above the ceiling every admissible count has level t0. */
  lemma AboveCeilingLevel(inc: Increase, n: nat)
    requires inc.minFd > 0 && inc.desired >= 0 && n >= inc.minFd && inc.t0 > inc.MaxPerFd()
    ensures Max(inc.t0, CeilDiv(inc.desired, n)) == inc.t0
  {
    CeilDivAntitone(inc.desired, inc.minFd, n);
    DivAdjoint(inc.MaxPerFd() + 1, inc.desired, inc.minFd);
    DivAdjoint(0, inc.desired, inc.minFd);
    CeilDivAdjoint(inc.desired, inc.minFd, inc.MaxPerFd() + 1);
  }

  /** Some admissible count is feasible without raising the level above t0. */
  ghost predicate T0Count(inc: Increase) {
    exists n: nat ::
      && Max(0, Max(inc.minFd, inc.numExisting)) <= n <= inc.numExisting + |inc.spare|
      && CeilDiv(inc.desired, n) <= inc.t0 && TryCount(inc, n).Some?
  }

  /**
   * The branch the source calls unreachable runs exactly when the create-new loop finds no count although
   * some final count is feasible at level t0.
   */
  lemma DefensiveBranchExact(inc: Increase)
    requires inc.t0 >= 0
    ensures Decide(inc).CreateAtT0? <==> EvenCount(inc).None? && T0Count(inc)
  {
    GrowLevelAboveExisting(inc);
  }

  /** With whole chunks a feasible count is at level t0 exactly when t0 exceeds the per-FD ceiling desired / minFd. */
  lemma DefensiveBranchWhole(inc: Increase)
    requires WholeChunks(inc) && inc.minFd > 0 && inc.desired >= 0 && inc.Delta() > 0
    ensures Decide(inc).CreateAtT0? <==>
      EvenCount(inc).None? && GrowLevel(inc).Some? && inc.t0 > GoDiv(inc.desired, inc.minFd)
  {
    if EvenCount(inc).None? && GrowLevel(inc).Some? {
      var best := GrowLevel(inc).value;
      if inc.t0 > inc.MaxPerFd() {
        AboveCeilingLevel(inc, best.n);
      } else if best.level == inc.t0 {
        T0CandidateWasPlaced(inc, best.n);
      }
    }
  }

  /** With minFd existing failure domains of whole chunks the ceiling holds, so the branch is dead. */
  lemma DefensiveBranchDead(inc: Increase)
    requires WholeChunks(inc) && inc.Delta() > 0 && inc.current >= 0
    requires inc.numExisting == Carrying(inc.reaches) && 0 < inc.minFd <= inc.numExisting
    ensures !Decide(inc).CreateAtT0?
  {
    CapSumAtLeast(inc.reaches, inc.t0);
    MulMono(inc.minFd, Carrying(inc.reaches), inc.t0);
    DivAdjoint(inc.t0, inc.desired, inc.minFd);
    DefensiveBranchWhole(inc);
  }

  lemma {:induction false} CapSumAtLeast(rs: seq<Reach>, level: int)
    requires NoneNegative(rs) && AllAtLeast(rs, level)
    ensures CapSum(rs) >= Carrying(rs) * level
  {
    if rs != [] {
      var init := rs[..|rs| - 1];
      CapSumAtLeast(init, level);
      assert (Carrying(init) + 1) * level == Carrying(init) * level + level;
    }
  }

  /**
   * When that branch runs it only creates failure domains, so what it realizes equals the total it
   * predicted exactly when no existing failure domain is below the level.
   */
  lemma DefensiveBranchTotal(inc: Increase)
    requires Decide(inc).CreateAtT0? && CapSum(inc.reaches) == inc.current && NoneNegative(inc.reaches)
    ensures var d := Decide(inc);
      && inc.current + d.kFresh * inc.t0 <= d.total
      && (inc.current + d.kFresh * inc.t0 == d.total <==> AllAtLeast(inc.reaches, inc.t0))
  {
    ReachSum(inc.reaches, inc.t0);
  }

  lemma {:induction false} AllCount(gs: seq<FdGroup>, level: int)
    requires forall i :: 0 <= i < |gs| ==> gs[i].headroom >= level
    ensures CountAtLeast(gs, level) == |gs|
  {
    if gs != [] { AllCount(gs[..|gs| - 1], level); }
  }

  /** One admissible count, reached at level t0 with every spare failure domain. */
  lemma OnlyCount(inc: Increase)
    requires inc.minFd == 5 && inc.numExisting == 1 && |inc.spare| == 4 && |inc.reaches| == 1
    requires KMin(inc) > KMax(inc) && inc.t0 == Max(inc.t0, CeilDiv(inc.desired, 5))
    requires forall i :: 0 <= i < 4 ==> inc.spare[i].headroom >= inc.t0
    requires 0 < inc.reaches[0].cap && inc.reaches[0].ceiling >= inc.t0 > 0
    requires inc.desired <= Max(inc.reaches[0].cap, inc.t0) + 4 * inc.t0 <= inc.desired + inc.overshoot
    ensures Decide(inc) == CreateAtT0(4, inc.t0, Max(inc.reaches[0].cap, inc.t0) + 4 * inc.t0)
  {
    AllCount(inc.spare, inc.t0);
    assert inc.reaches[..0] == [];
    assert ExistingReach(inc.reaches[..0], inc.t0) == Some(0);
    assert ExistingReach(inc.reaches, inc.t0) == Some(Max(inc.reaches[0].cap, inc.t0));
    assert BestLevel(inc, 5, 5) == None;
    assert GrowLevel(inc) == BestLevel(inc, 5, 6) == TryCount(inc, 5);
  }

  /** The branch the source calls unreachable runs: 4999 GiB over five failure domains, one of 1000 GiB in place. */
  lemma DefensiveBranchReached(inc: Increase)
    requires inc.desired == 4999 && inc.minFd == 5 && inc.current == 1000 && inc.numExisting == 1
    requires inc.overshoot == 499
    requires inc.t0 == inc.tmax == 1000 && inc.cons.minChunk == 384 && |inc.reaches| == 1
    requires inc.reaches[0].cap == 1000 <= inc.reaches[0].ceiling
    requires |inc.spare| == 4 && forall i :: 0 <= i < 4 ==> inc.spare[i].headroom == 1000
    ensures WholeChunks(inc) && Decide(inc) == CreateAtT0(4, 1000, 5000)
  {
    assert CapSum(inc.reaches[..0]) == 0;
    OnlyCount(inc);
  }

  /**
   * With an existing failure domain below the minimum chunk the same branch predicts 1920 GiB but places
   * only 4 * 384 next to the 100 already there: the target is missed although growing it would meet it.
   */
  lemma DefensiveBranchShort(inc: Increase)
    requires inc.desired == 1920 && inc.minFd == 5 && inc.current == 100 && inc.numExisting == 1 && inc.overshoot >= 0
    requires inc.t0 == inc.tmax == 384 && inc.cons.minChunk == 384 && |inc.reaches| == 1
    requires inc.reaches[0].cap == 100 && inc.reaches[0].ceiling >= 384
    requires |inc.spare| == 4 && forall i :: 0 <= i < 4 ==> inc.spare[i].headroom >= 384
    ensures Decide(inc) == CreateAtT0(4, 384, 1920) && inc.current + 4 * 384 == 1636 < inc.desired
    ensures ExistingReach(inc.reaches, 384) == Some(384) && 384 + 4 * 384 == inc.desired
  {
    OnlyCount(inc);
    assert ExistingReach(inc.reaches[..0], 384) == Some(0);
  }
}
