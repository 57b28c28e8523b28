/** One node's remaining headroom, and what placing drive capacity on it costs. */
module NodeBudget {
  import opened Arith
  import opened Model
  import Cpu
  import HugepageSizing

  /** What is left on a node: drive GiB per pool, physical CPU, hugepages MiB and memory MiB. */
  datatype Budget = Budget(drives: Caps, cores: int, hugepages: int, memory: int)

  function Topo(nc: NodeCapacity): Cpu.Topology { Cpu.Topology(nc.isHt, nc.fullPcpusOnly) }

  function CpuCost(nc: NodeCapacity, policy: CpuPolicy, dataCores: int, includeBase: bool): int {
    Cpu.ModelFor(policy, Topo(nc)).Cost(dataCores, includeBase)
  }

  /** Data cores that fit in `cores` physical CPUs, `extra` of which a kept container gives back. */
  function DataCoresCapacity(nc: NodeCapacity, cores: int, policy: CpuPolicy, extra: int, includeBase: bool): int {
    var m := Cpu.ModelFor(policy, Topo(nc));
    var avail := cores + extra - if includeBase then m.base else 0;
    if avail < 0 || m.perCore <= 0 then 0 else avail / m.perCore
  }

  function InitialBudget(nc: NodeCapacity): Budget {
    Budget(nc.drives, nc.allocatableCpu, nc.hugepages, nc.memory)
  }

  function CoresFor(p: PoolKind, g: int, cons: Constraints): int { CeilDiv(g, cons.capacityPerCore.Of(p)) }

  /** The tightest dimension so far wins; a later one must be strictly tighter to replace it. */
  function Tighter(h: (int, Binding), cap: int, dim: Binding): (int, Binding) {
    if cap < h.0 then (cap, dim) else h
  }

  /** Largest amount of pool p the node can still host, and the dimension that limits it. */
  function HeadroomBinding(nc: NodeCapacity, b: Budget, p: PoolKind, cons: Constraints,
    includeBase: bool): (int, Binding) {
    var perCap := cons.capacityPerCore.Of(p);
    if perCap <= 0 then (0, PoolDisabled) else
      var h0 := (b.drives.Of(p), DriveCapacity);
      var h1 := Tighter(h0, DataCoresCapacity(nc, b.cores, cons.cpuPolicy, 0, includeBase) * perCap, Cores);
      var hp := HugepageSizing.DriveHugepagesPerCore(cons);
      var h2 := if hp > 0 then Tighter(h1, GoDiv(b.hugepages, hp) * perCap, Hugepages) else h1;
      var mem := b.memory - if includeBase then cons.memoryBase else 0;
      var h3 := if cons.memoryPerCore > 0 then Tighter(h2, GoDiv(mem, cons.memoryPerCore) * perCap, Memory) else h2;
      (Max(0, h3.0), h3.1)
  }

  function Headroom(nc: NodeCapacity, b: Budget, p: PoolKind, cons: Constraints, includeBase: bool): int {
    HeadroomBinding(nc, b, p, cons, includeBase).0
  }

  /** consume: the budget left after placing g GiB of pool p. */
  function Charge(nc: NodeCapacity, b: Budget, p: PoolKind, g: int, cons: Constraints, includeBase: bool): Budget {
    var n := CoresFor(p, g, cons);
    Budget(
      b.drives.Plus(p, -g),
      b.cores - CpuCost(nc, cons.cpuPolicy, n, includeBase),
      b.hugepages - n * HugepageSizing.DriveHugepagesPerCore(cons),
      b.memory - n * cons.memoryPerCore - if includeBase then cons.memoryBase else 0)
  }

  /** unconsume: written out on its own, as in the source, and proved to undo Charge. */
  function Refund(nc: NodeCapacity, b: Budget, p: PoolKind, g: int, cons: Constraints, includeBase: bool): Budget {
    var n := CoresFor(p, g, cons);
    Budget(
      b.drives.Plus(p, g),
      b.cores + CpuCost(nc, cons.cpuPolicy, n, includeBase),
      b.hugepages + n * HugepageSizing.DriveHugepagesPerCore(cons),
      b.memory + n * cons.memoryPerCore + if includeBase then cons.memoryBase else 0)
  }

  predicate CanReserve(nc: NodeCapacity, b: Budget, cores: int, cons: Constraints) {
    var hp := HugepageSizing.DriveHugepagesPerCore(cons);
    cores <= 0 ||
    (&& CpuCost(nc, cons.cpuPolicy, cores, false) <= b.cores
     && (hp > 0 ==> cores * hp <= b.hugepages)
     && (cons.memoryPerCore > 0 ==> cores * cons.memoryPerCore <= b.memory))
  }

  /** reserveCores on success: extra cores beyond what placement charged. */
  function Reserve(nc: NodeCapacity, b: Budget, cores: int, cons: Constraints): Budget {
    if cores <= 0 then b
    else b.(cores := b.cores - CpuCost(nc, cons.cpuPolicy, cores, false),
            hugepages := b.hugepages - cores * HugepageSizing.DriveHugepagesPerCore(cons),
            memory := b.memory - cores * cons.memoryPerCore)
  }

  /** Whether a single dimension can absorb g GiB of pool p. */
  predicate DimensionFits(nc: NodeCapacity, b: Budget, p: PoolKind, g: int, cons: Constraints, includeBase: bool,
      dim: Binding) {
    var n := CoresFor(p, g, cons);
    var hp := HugepageSizing.DriveHugepagesPerCore(cons);
    match dim
    case PoolDisabled => cons.capacityPerCore.Of(p) > 0
    case DriveCapacity => g <= b.drives.Of(p)
    case Cores => CpuCost(nc, cons.cpuPolicy, n, includeBase) <= b.cores
    case Hugepages => hp > 0 ==> n * hp <= b.hugepages
    case Memory =>
      cons.memoryPerCore > 0 ==> n * cons.memoryPerCore + (if includeBase then cons.memoryBase else 0) <= b.memory
    case _ => true
  }

  predicate Fits(nc: NodeCapacity, b: Budget, p: PoolKind, g: int, cons: Constraints, includeBase: bool) {
    && DimensionFits(nc, b, p, g, cons, includeBase, PoolDisabled)
    && DimensionFits(nc, b, p, g, cons, includeBase, DriveCapacity)
    && DimensionFits(nc, b, p, g, cons, includeBase, Cores)
    && DimensionFits(nc, b, p, g, cons, includeBase, Hugepages)
    && DimensionFits(nc, b, p, g, cons, includeBase, Memory)
  }

  /** No tracked dimension is overdrawn. */
  predicate NonNegative(b: Budget) {
    b.drives.tlc >= 0 && b.drives.qlc >= 0 && b.cores >= 0 && b.hugepages >= 0 && b.memory >= 0
  }

  /** Resource coefficients are prices, never refunds, and memory is a priced dimension. */
  predicate PricedConstraints(cons: Constraints) {
    cons.hugepagesPerCore >= 0 && cons.driveDpdkPerCore >= 0 && cons.memoryBase >= 0 && cons.memoryPerCore > 0
  }

  // ----- exactness of the CPU inverse -----

  /** n >= 1 data cores fit exactly when their physical cost is within the CPUs at hand. */
  lemma DataCoresFitExact(nc: NodeCapacity, cores: int, policy: CpuPolicy, extra: int, includeBase: bool, n: int)
    requires n >= 1
    ensures n <= DataCoresCapacity(nc, cores, policy, extra, includeBase)
       <==> CpuCost(nc, policy, n, includeBase) <= cores + extra
  {
    var m := Cpu.ModelFor(policy, Topo(nc));
    Cpu.ModelShape(policy, Topo(nc));
    var avail := cores + extra - if includeBase then m.base else 0;
    if avail < 0 {
      MulMono(1, n, m.perCore);
    } else {
      DivAdjoint(n, avail, m.perCore);
    }
  }

  // ----- headroom is exactly what consume can absorb -----

  /** A resource worth k units per core hosts g GiB within quota q exactly when g is below the converted cap. */
  lemma ConvertedCap(g: int, perCap: int, unit: int, quota: int)
    requires g >= 1 && perCap > 0 && unit > 0
    ensures g <= GoDiv(quota, unit) * perCap <==> CeilDiv(g, perCap) * unit <= quota
  {
    var q := GoDiv(quota, unit);
    CeilDivCovers(g, perCap);
    if quota >= 0 {
      DivAdjoint(0, quota, unit);
      CeilDivAdjoint(g, perCap, q);
      DivAdjoint(CeilDiv(g, perCap), quota, unit);
    } else {
      DivAdjoint(0, -quota, unit);
      MulMono(q, 0, perCap);
      MulMono(1, CeilDiv(g, perCap), unit);
    }
  }

  lemma CoreCap(nc: NodeCapacity, b: Budget, p: PoolKind, g: int, cons: Constraints, includeBase: bool)
    requires g >= 1 && cons.capacityPerCore.Of(p) > 0
    ensures g <= DataCoresCapacity(nc, b.cores, cons.cpuPolicy, 0, includeBase) * cons.capacityPerCore.Of(p)
       <==> DimensionFits(nc, b, p, g, cons, includeBase, Cores)
  {
    var perCap := cons.capacityPerCore.Of(p);
    var fit := DataCoresCapacity(nc, b.cores, cons.cpuPolicy, 0, includeBase);
    var m := Cpu.ModelFor(cons.cpuPolicy, Topo(nc));
    Cpu.ModelShape(cons.cpuPolicy, Topo(nc));
    if b.cores - (if includeBase then m.base else 0) >= 0 {
      DivAdjoint(0, b.cores - if includeBase then m.base else 0, m.perCore);
    }
    CeilDivCovers(g, perCap);
    CeilDivAdjoint(g, perCap, fit);
    DataCoresFitExact(nc, b.cores, cons.cpuPolicy, 0, includeBase, CoresFor(p, g, cons));
  }

  /**
   * The headroom figure is sound and maximal: g GiB are within it exactly when consume leaves every gated
   * dimension covered, and the reported binding dimension is one that really fails beyond it.
   */
  lemma HeadroomExact(nc: NodeCapacity, b: Budget, p: PoolKind, g: int, cons: Constraints, includeBase: bool)
    requires g >= 1
    ensures g <= Headroom(nc, b, p, cons, includeBase) <==> Fits(nc, b, p, g, cons, includeBase)
    ensures g > Headroom(nc, b, p, cons, includeBase)
      ==> !DimensionFits(nc, b, p, g, cons, includeBase, HeadroomBinding(nc, b, p, cons, includeBase).1)
  {
    var perCap := cons.capacityPerCore.Of(p);
    if perCap > 0 {
      CoreCap(nc, b, p, g, cons, includeBase);
      var hp := HugepageSizing.DriveHugepagesPerCore(cons);
      if hp > 0 { ConvertedCap(g, perCap, hp, b.hugepages); }
      if cons.memoryPerCore > 0 {
        ConvertedCap(g, perCap, cons.memoryPerCore, b.memory - if includeBase then cons.memoryBase else 0);
      }
    }
  }

  /** Of dimensions that bind alike the first is reported, in the order drives, cores, hugepages, memory. */
  lemma BindingFirst(nc: NodeCapacity, b: Budget, p: PoolKind, cons: Constraints, includeBase: bool)
    requires Headroom(nc, b, p, cons, includeBase) > 0
    ensures var g, dim := Headroom(nc, b, p, cons, includeBase) + 1, HeadroomBinding(nc, b, p, cons, includeBase).1;
      && (dim != DriveCapacity ==> DimensionFits(nc, b, p, g, cons, includeBase, DriveCapacity))
      && (dim == Hugepages || dim == Memory ==> DimensionFits(nc, b, p, g, cons, includeBase, Cores))
      && (dim == Memory ==> DimensionFits(nc, b, p, g, cons, includeBase, Hugepages))
  {
    var g, perCap := Headroom(nc, b, p, cons, includeBase) + 1, cons.capacityPerCore.Of(p);
    CoreCap(nc, b, p, g, cons, includeBase);
    var hp := HugepageSizing.DriveHugepagesPerCore(cons);
    if hp > 0 { ConvertedCap(g, perCap, hp, b.hugepages); }
  }

  /** Charging an amount within the headroom never overdraws the node. */
  lemma ChargeNonNegative(nc: NodeCapacity, b: Budget, p: PoolKind, g: int, cons: Constraints, includeBase: bool)
    requires PricedConstraints(cons) && NonNegative(b)
    requires 1 <= g <= Headroom(nc, b, p, cons, includeBase)
    ensures NonNegative(Charge(nc, b, p, g, cons, includeBase))
  {
    HeadroomExact(nc, b, p, g, cons, includeBase);
  }

  /** Without a per-core memory price the base memory is charged unchecked and can overdraw the node. */
  lemma UnpricedMemoryOverdraws(nc: NodeCapacity, b: Budget, p: PoolKind, g: int, cons: Constraints)
    requires cons.memoryPerCore == 0 && NonNegative(b) && cons.hugepagesPerCore >= 0 && cons.driveDpdkPerCore >= 0
    requires 1 <= g <= Headroom(nc, b, p, cons, true)
    ensures NonNegative(Charge(nc, b, p, g, cons, true)) <==> cons.memoryBase <= b.memory
  {
    HeadroomExact(nc, b, p, g, cons, true);
  }

  /** unconsume mirrors consume exactly. */
  lemma RefundUndoesCharge(nc: NodeCapacity, b: Budget, p: PoolKind, g: int, cons: Constraints, includeBase: bool)
    ensures Refund(nc, Charge(nc, b, p, g, cons, includeBase), p, g, cons, includeBase) == b
    ensures Charge(nc, Refund(nc, b, p, g, cons, includeBase), p, g, cons, includeBase) == b
  {
  }

  lemma ReserveNonNegative(nc: NodeCapacity, b: Budget, cores: int, cons: Constraints)
    requires PricedConstraints(cons) && NonNegative(b) && CanReserve(nc, b, cores, cons)
    ensures NonNegative(Reserve(nc, b, cores, cons))
  {
  }

  /** A container that pays no base has at least the headroom of one that does. */
  lemma HeadroomWithoutBase(nc: NodeCapacity, b: Budget, p: PoolKind, cons: Constraints)
    requires cons.memoryBase >= 0
    ensures 0 <= Headroom(nc, b, p, cons, true) <= Headroom(nc, b, p, cons, false)
  {
    var g := Headroom(nc, b, p, cons, true);
    if g >= 1 {
      HeadroomExact(nc, b, p, g, cons, true);
      Cpu.ModelShape(cons.cpuPolicy, Topo(nc));
      HeadroomExact(nc, b, p, g, cons, false);
    }
  }

  // ----- the mutable node state of the source -----

  class NodeState {
    const nc: NodeCapacity
    var tlcFree: int
    var qlcFree: int
    var coresFree: int
    var hugepagesMiB: int
    var memoryMiB: int

    ghost function Value(): Budget
      reads this
    {
      Budget(Caps(tlcFree, qlcFree), coresFree, hugepagesMiB, memoryMiB)
    }

    constructor (nc: NodeCapacity)
      ensures this.nc == nc && Value() == InitialBudget(nc)
    {
      this.nc := nc;
      tlcFree, qlcFree := nc.drives.tlc, nc.drives.qlc;
      coresFree, hugepagesMiB, memoryMiB := nc.allocatableCpu, nc.hugepages, nc.memory;
    }

    method NodeHeadroom(p: PoolKind, cons: Constraints, includeBase: bool) returns (headroom: int, binding: Binding)
      ensures (headroom, binding) == HeadroomBinding(nc, Value(), p, cons, includeBase)
    {
      var perCap := cons.capacityPerCore.Of(p);
      if perCap <= 0 { return 0, PoolDisabled; }
      headroom, binding := if p == TLC then tlcFree else qlcFree, DriveCapacity;
      var coreCap := DataCoresCapacity(nc, coresFree, cons.cpuPolicy, 0, includeBase) * perCap;
      if coreCap < headroom { headroom, binding := coreCap, Cores; }
      var hpPerCore := HugepageSizing.DriveHugepagesPerCore(cons);
      if hpPerCore > 0 {
        var hpCap := GoDiv(hugepagesMiB, hpPerCore) * perCap;
        if hpCap < headroom { headroom, binding := hpCap, Hugepages; }
      }
      if cons.memoryPerCore > 0 {
        var mem := memoryMiB;
        if includeBase { mem := mem - cons.memoryBase; }
        var memCap := GoDiv(mem, cons.memoryPerCore) * perCap;
        if memCap < headroom { headroom, binding := memCap, Memory; }
      }
      if headroom < 0 { headroom := 0; }
    }

    method Consume(p: PoolKind, g: int, cons: Constraints, includeBase: bool)
      modifies this
      ensures Value() == Charge(nc, old(Value()), p, g, cons, includeBase)
      ensures
        && PricedConstraints(cons) && old(NonNegative(Value()))
        && 1 <= g <= old(Headroom(nc, Value(), p, cons, includeBase))
        ==> NonNegative(Value())
    {
      ghost var b := Value();
      var cores := CoresFor(p, g, cons);
      if p == TLC { tlcFree := tlcFree - g; } else { qlcFree := qlcFree - g; }
      coresFree := coresFree - CpuCost(nc, cons.cpuPolicy, cores, includeBase);
      hugepagesMiB := hugepagesMiB - cores * HugepageSizing.DriveHugepagesPerCore(cons);
      memoryMiB := memoryMiB - cores * cons.memoryPerCore;
      if includeBase { memoryMiB := memoryMiB - cons.memoryBase; }
      if PricedConstraints(cons) && NonNegative(b) && 1 <= g <= Headroom(nc, b, p, cons, includeBase) {
        ChargeNonNegative(nc, b, p, g, cons, includeBase);
      }
    }

    method Unconsume(p: PoolKind, g: int, cons: Constraints, includeBase: bool)
      modifies this
      ensures Value() == Refund(nc, old(Value()), p, g, cons, includeBase)
    {
      var cores := CoresFor(p, g, cons);
      if p == TLC { tlcFree := tlcFree + g; } else { qlcFree := qlcFree + g; }
      coresFree := coresFree + CpuCost(nc, cons.cpuPolicy, cores, includeBase);
      hugepagesMiB := hugepagesMiB + cores * HugepageSizing.DriveHugepagesPerCore(cons);
      memoryMiB := memoryMiB + cores * cons.memoryPerCore;
      if includeBase { memoryMiB := memoryMiB + cons.memoryBase; }
    }

    method ReserveCores(cores: int, cons: Constraints) returns (ok: bool)
      modifies this
      ensures ok == CanReserve(nc, old(Value()), cores, cons)
      ensures Value() == if ok then Reserve(nc, old(Value()), cores, cons) else old(Value())
    {
      if cores <= 0 { return true; }
      var hpPerCore := HugepageSizing.DriveHugepagesPerCore(cons);
      var cpuNeed := CpuCost(nc, cons.cpuPolicy, cores, false);
      if coresFree < cpuNeed
         || (hpPerCore > 0 && hugepagesMiB < cores * hpPerCore)
         || (cons.memoryPerCore > 0 && memoryMiB < cores * cons.memoryPerCore) {
        return false;
      }
      coresFree := coresFree - cpuNeed;
      hugepagesMiB := hugepagesMiB - cores * hpPerCore;
      memoryMiB := memoryMiB - cores * cons.memoryPerCore;
      return true;
    }
  }
}
