/** The planner's inputs and outputs, one datatype per record of the source. */
module Model {

  datatype Option<+T> = None | Some(value: T)

  datatype PoolKind = TLC | QLC {
    function Other(): PoolKind { if this == TLC then QLC else TLC }
  }

  /** A pair of per-pool amounts (GiB, or GiB per core). */
  datatype Caps = Caps(tlc: int, qlc: int) {
    function Of(p: PoolKind): int { if p == TLC then tlc else qlc }

    function Plus(p: PoolKind, add: int): Caps {
      if p == TLC then Caps(tlc + add, qlc) else Caps(tlc, qlc + add)
    }
  }

  const NO_CAPS := Caps(0, 0)

  datatype ProtectionScheme = ProtectionScheme(stripeWidth: int, redundancyLevel: int, hotSpare: int) {
    function MinFdNum(): int { stripeWidth + redundancyLevel + hotSpare }
  }

  /** Raw per-pool targets plus explicit sizing; 0 means derive automatically. */
  datatype DesiredCapacity = DesiredCapacity(
    raw: Caps,
    computeContainers: int,
    computeCores: int,
    driveContainers: int,
    driveCores: int)

  datatype CpuPolicy = Auto | Unset | Shared | Dedicated | DedicatedHT | Manual | Other(name: string)

  datatype Constraints = Constraints(
    capacityPerCore: Caps,
    minChunk: int,
    imbalanceFactor: real,
    hugepagesPerCore: int,
    memoryBase: int,
    memoryPerCore: int,
    driveDpdkPerCore: int,
    computeDpdkPerCore: int,
    maxCoresPerContainer: int,
    computeHugepagesRatio: Caps,
    computeMaxHugepages: int,
    computeToTlcRatio: real,
    computeToQlcRatio: real,
    fullDrivesRatio: real,
    allowInPlaceGrowth: bool,
    minGrowthFraction: real,
    maxOverProvisionFraction: real,
    deadbandFraction: real,
    allowSingleParity: bool,
    cpuPolicy: CpuPolicy)

  datatype NodeCapacity = NodeCapacity(
    nodeName: string,
    drives: Caps,
    allocatableCpu: int,
    isHt: bool,
    fullPcpusOnly: bool,
    hugepages: int,
    memory: int,
    fdValue: string,
    hasDeletingDrive: bool,
    ineligibleReason: string)

  datatype ExistingContainer = ExistingContainer(
    name: string,
    node: string,
    fdValue: string,
    caps: Caps,
    numCores: int,
    unscheduled: bool)

  datatype ExistingCompute = ExistingCompute(
    name: string,
    node: string,
    numCores: int,
    hugepages: int,
    unscheduled: bool)

  datatype ContainerGrowth = ContainerGrowth(name: string, caps: Caps, newCores: int)

  datatype NewContainer = NewContainer(node: string, fdValue: string, caps: Caps, numCores: int)

  datatype ComputeSpec = ComputeSpec(node: string, numCores: int, hugepages: int)

  datatype Binding =
    | PoolDisabled | DriveCapacity | Cores | Hugepages | Memory
    | FailureDomains | Protection | DriveContainers | DriveCores | Unclassified

  datatype Stage = ClusterWide | DrivePool(pool: PoolKind) | ComputeStage

  /** The structured infeasibility report without its message text. */
  datatype Report = Report(stage: Stage, binding: Binding, shortfall: int)
}
