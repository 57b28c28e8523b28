/** Translation of data cores into the physical CPUs a pod reserves. */
module Cpu {
  import opened Arith
  import opened Model

  datatype Mode = Compute | Drive | S3 | Nfs | Smbw | DataServices | Client | Envoy | OtherMode

  /** Explicit CPU request and limit, in millicpu. */
  datatype Resources = Resources(requestMilli: int, limitMilli: int)

  datatype ContainerSpec = ContainerSpec(
    mode: Mode,
    policy: CpuPolicy,
    numCores: int,
    extraCores: int,
    resources: Option<Resources>)

  datatype Topology = Topology(isHt: bool, fullPcpusOnly: bool)

  datatype CpuModel = CpuModel(perCore: int, base: int) {
    function Cost(dataCores: int, includeBase: bool): int {
      perCore * dataCores + if includeBase then base else 0
    }
  }

  predicate IsDataCoreMode(m: Mode) {
    m.Compute? || m.Drive? || m.S3? || m.Nfs? || m.Smbw? || m.DataServices?
  }

  predicate SupportsExtraCores(m: Mode) { IsDataCoreMode(m) || m.Client? }

  function ResolvePolicy(policy: CpuPolicy, isHt: bool): CpuPolicy {
    if !policy.Auto? && !policy.Unset? then policy
    else if isHt then DedicatedHT else Dedicated
  }

  /** An odd CPU count is bumped to even on a hyper-threaded full-pcpus-only node. */
  function RoundFullPcpus(total: int, topo: Topology): int {
    if topo.isHt && topo.fullPcpusOnly && total % 2 != 0 then total + 1 else total
  }

  function RequestCores(spec: ContainerSpec, topo: Topology): int {
    var extra := SupportsExtraCores(spec.mode);
    var total := spec.numCores + if extra then spec.extraCores else 0;
    match ResolvePolicy(spec.policy, topo.isHt)
    case DedicatedHT =>
      RoundFullPcpus(
        if spec.mode.Envoy? then total
        else total * 2 + 1 - if extra then spec.extraCores else 0, topo)
    case Dedicated =>
      RoundFullPcpus(if spec.mode.Envoy? then total else total + 1, topo)
    case Manual =>
      if spec.resources.Some? && spec.resources.value.limitMilli != 0
      then CeilDiv(spec.resources.value.requestMilli, 1000)
      else total + 1
    case Shared =>
      if spec.resources.Some? then CeilDiv(spec.resources.value.requestMilli, 1000) else 0
    case _ => total
  }

  /** The pod a fresh container of the given role gets: no extra cores, no explicit resources. */
  function FreshSpec(mode: Mode, policy: CpuPolicy, numCores: int): ContainerSpec {
    ContainerSpec(mode, policy, numCores, 0, None)
  }

  /** The linear projection, sampled from RequestCores at one and two data cores with SMT rounding off. */
  function ModelFor(policy: CpuPolicy, topo: Topology): CpuModel {
    var t := Topology(topo.isHt, false);
    var c1 := RequestCores(FreshSpec(Drive, policy, 1), t);
    var c2 := RequestCores(FreshSpec(Drive, policy, 2), t);
    if c2 - c1 <= 0 then CpuModel(1, 1) else CpuModel(c2 - c1, c1 - (c2 - c1))
  }

  /** The sampled coefficients are usable prices: a positive slope and a base of zero or one core. */
  lemma ModelShape(policy: CpuPolicy, topo: Topology)
    ensures var m := ModelFor(policy, topo); 1 <= m.perCore <= 2 && 0 <= m.base <= 1
  {
  }

  /**
   * Two samples determine the pod request of every core count: the projection is the request itself,
   * short of it by the one CPU of SMT rounding at most, unless the policy is shared. Only a shared pod,
   * which requests nothing, is priced differently.
   */
  lemma ProjectionExact(mode: Mode, policy: CpuPolicy, topo: Topology, n: int)
    requires IsDataCoreMode(mode) && n >= 0
    ensures var gap := RequestCores(FreshSpec(mode, policy, n), topo) - ModelFor(policy, topo).Cost(n, true);
      && (policy != Shared ==> 0 <= gap <= 1)
      && (gap == 0 <==> policy != Shared && !RoundsUp(policy, topo, n))
      && (policy == Shared ==> gap == -(n + 1))
  {
  }

  /** SMT rounding bumps the request: full-pcpus-only on a hyper-threaded node and an odd CPU count. */
  predicate RoundsUp(policy: CpuPolicy, topo: Topology, n: int) {
    topo.isHt && topo.fullPcpusOnly &&
    match ResolvePolicy(policy, topo.isHt)
    case DedicatedHT => true
    case Dedicated => n % 2 == 0
    case _ => false
  }

  /** The model charges a larger container at least as much. */
  lemma CostMonotone(policy: CpuPolicy, topo: Topology, n: int, n': int)
    requires n <= n'
    ensures ModelFor(policy, topo).Cost(n, true) <= ModelFor(policy, topo).Cost(n', true)
    ensures ModelFor(policy, topo).Cost(n, false) <= ModelFor(policy, topo).Cost(n', false)
  {
    ModelShape(policy, topo);
    MulMono(n, n', ModelFor(policy, topo).perCore);
  }

  /**
   * The CPUs charged for n data cores: two a core with dedicated hyper-threads, one a core otherwise, and one more for
   * the container itself unless the policy is unknown. Auto and an unset policy mean hyper-threads exactly on a
   * hyper-threaded node.
   */
  lemma CostExact(policy: CpuPolicy, topo: Topology, n: int, includeBase: bool)
    ensures var threads := policy.DedicatedHT? || ((policy.Auto? || policy.Unset?) && topo.isHt);
      ModelFor(policy, topo).Cost(n, includeBase) ==
        (if threads then 2 * n else n) + if includeBase && !policy.Other? then 1 else 0
  {
  }
}
