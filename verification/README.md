# Verified model of the weka-operator capacity planner and settings service

The planner turns per-pool raw targets (TLC and QLC), a protection scheme, the existing drive and compute containers
and per-node headroom into containers to grow and create and a compute layout. The settings service is the small
concurrent protocol through which reconcilers obtain the operator configuration.

## How it is organised

The planner is written twice. `Planner.PlanCapacity` and the functions below it are a specification on values:
budgets, records and decisions. `PlannerRun.PlanCapacity` is the program as the source runs it, with a mutable
`NodeState` per node, growth and new-container maps, loops, searches and an undo list. The method is proved to return
exactly the specified plan, so every theorem about the specification is a theorem about the program.

- Arithmetic and resources: `Arith`, `Cpu`, `Hugepages`, `Deadband`, `NodeBudget`, `Cores`.
- Placement: `Ledgers`, `Placement`, `Rollback`, `PlanRun`, `FdRecords`.
- One pool: `FreshFds`, `FreshScan`, `Preference`, `UniformIncrease`, `PoolDecision`, `PoolScan`, `PoolPlanner`,
  `PoolRuns`, `CandidateGroups`, `RouteTheorems`.
- Compute: `ComputeLayout`, `FdSpread`, `ComputePlanner`, `ComputeScan`, `ComputeRuns`, `ComputeGuarantees`,
  `LaidComputes`, `StageTheorems`.
- The whole plan, on any site: `Planner`, `PlannerRun`, `EmissionFacts`, `PlanTheorems`, `Seating`, `GrowRecords`,
  `GrownCores`, `SiteTheorems`, `FrozenGrowth`, `VerdictTheorems`, `SharedNodes`.
- One-node failure domains ("auto mode"): `AutoMode`, `AutoFigures`, `AutoTheorems`, `JointFit`, `FleetTheorems`,
  `AdvisoryTheorems`, `DefensiveBranch`, `PinnedRecords`, `PinnedCounts`, `GrowthFloor`.
- Concrete inputs on which the code departs from its comments: `WitnessSites`, `LabelWitness`, `PlanWitness`,
  `AdvisoryWitness`, `RecordWitness`, `HugepageWitness`, `BranchWitness`, `FloorWitness`, `FdWitness`, `ShrinkWitness`,
  `EmptyWitness`, `FrozenWitness`, `MemoryWitness`, `CountWitness`.
- `Settings`: each critical section is one step, and the steps of all refreshers and readers interleave freely.

Integers are unbounded and fractions are reals. Containers have unique names, because growth records are keyed by
name. Well-formed existing drives are scheduled, on a known node, at most one per node, with a failure domain, a core
and some capacity. Map iteration is modelled as an arbitrary order wherever the result does not depend on it.

## Where the code and its comments disagree

The model follows the code.

- The t0 branch of the uniform increase is called effectively unreachable. It runs exactly when the create-new loop
  finds no count although some count is feasible at level t0 (`EnteredExactly`, `EnteredWhole`). With
  one-node failure domains, existing and new, it reaches the target whenever every existing one holds at least a chunk
  (`WholeChunkIncrease`); below a chunk it can miss it (`DefensiveBranchReached`, `DefensiveBranchShort`,
  `BranchFallsShort`).
- A greenfield or fallback placement rounds up without a cap, so the next plan may advise a shrink of the planner's own
  rounding (`FreshAdvisesShrink`, `GreenAdvisesShrink`). A uniform increase over one-node failure domains never does
  (`IncreaseNeverAdvisesShrink`). With several hosts per failure domain it can, since a host may hold more than its
  share (`NextShrinkExact`, `IncreaseAdvisesShrink`).
- Candidates are called headroom-sorted, but groups are ordered by their best node, not by their sum. With several
  uneven hosts per failure domain a smaller tiling can be missed and the reported shortfall can be zero
  (`SelectionLeastIff`, `ShortfallIff`, `UnsortedCandidates`).
- The diagnostic called unreachable in practice is reached exactly when there are fewer nodes than the floor and the
  even split over all of them fits (`UnclassifiedExact`, `UnexpectedReached`).
- The derived layout count is said to be at least the floor. An explicit computeContainers is not checked against it
  (`CountFloorExact`, `CountBelowFloor`), though the stage ends with that many containers (`FinalCountMeetsFloor`).
- Compute cores are said to cover the drive cores. Two negative compute pins pass the sizing, since their product is
  positive, and may leave too few cores (`CoreFloor`, `NegativePinsFail`).
- Growth is said to be emitted only where capacity increased. A failure domain that is rolled back leaves a zero-change
  record, which is emitted (`ZeroChangeExact`). A pinned container count suffices for this (`PinnedRecord`,
  `ZeroChangeListed`), and so do several hosts per failure domain with nothing pinned (`UnpinnedZeroChange`). With
  one-node failure domains and nothing pinned the claim holds (`UnpinnedGrowthIncreases`).
- In the same way a rolled-back failure domain leaves empty new containers, which are emitted with a core each
  (`EmptyCreateExact`, `EmptyCreateUnpaid`, `EmptyCreates`). If the second pool then fills one, no base is paid for it
  (`CreatedSpends`).
- A pinned container count is said to map onto exact failure-domain targets per pool. With one-node failure domains a
  pool never exceeds its target and meets it if every pool is short or absent (`PinnedCarriers`, `PinnedExact`), but a
  container of the other pool can make up the count of a pool that misses it (`TargetMissed`). The final check is said
  to count failure domains that carry drive capacity; it counts those of all containers, empty ones included
  (`PinnedTotal`, `EmptyCreates`).
- The surplus of pinned cores is reserved for new containers only. A grown container gets the pinned cores without it
  (`GrownCoresPaid`, `GrownCoresUnpaid`).
- With in-place growth off no existing failure domain is to grow. The guard compares whole failure domains with the
  level, while placement splits the level evenly over their hosts. With a pinned count and several hosts a container
  below its share is grown (`FrozenGrowthExact`, `FrozenGrown`); otherwise the invariant holds
  (`GrowthOffGrowsNothing`).
- The guard on new computes is called not expected, since a new container is no larger than what its node passed. That
  is so while no existing compute exceeds the uniform target and not both pins are negative (`NewComputeGuardDead`,
  `NewComputeGuardExact`). With two negative pins it can fire for lack of CPU, and reports hugepages
  (`GuardFiresForCpu`).
- A grown compute reserves the hugepages of the derived count and is emitted with those of the final count, which are
  larger when frozen containers make the final count smaller (`GrownWithinReserved`, `EmittedAboveReserved`).
- Cap-0 containers are said to be included in existingFdsAsChosen. The code skips them (`ExistingCarry`).
- minGrowthFraction 0 is said to mean 0.2. The planner uses the value it is given (`ZeroFractionGrows`).
- With memoryPerCore 0 memory is not checked, but the base is still charged (`UnpricedMemoryOverdraws`,
  `UnpricedMemoryExact`, `MemoryOverdrawn`).

## Model

| member | source | states |
|---|---|---|
| PlannerRun.PlanCapacity | internal/capacityplanner/planner.go:364-549 | run on mutable node states, records and notes, the planner returns exactly the plan `Planner.PlanCapacity` that every theorem below is about |
| PlanTheorems.Coverage | internal/capacityplanner/planner.go:951-1061 | once a feasible plan is applied no active pool is short of its target, and a pool that was short is carried by at least stripeWidth + redundancyLevel + hotSpare failure domains |
| PlanTheorems.NothingToDo | internal/capacityplanner/planner.go:985-997 | if no active pool is short, nothing is grown and nothing is created, whatever the inventory and the pins |
| PlanTheorems.Convergence | internal/capacityplanner/planner.go:364-549 | applying a feasible plan and planning again for the same target, on any inventory and with any pins, yields no drive growth and no new drive container |
| PlanTheorems.CoreFloor | internal/capacityplanner/planner.go:539-754 | in a feasible plan the required cores are the fewest that reach the TLC plus QLC drive cores and computeToTlcRatio times the one plus computeToQlcRatio times the other; those drive cores are exactly the cores of all applied containers, pool by pool; compute cores >= required cores unless both compute pins are negative, and in general exactly when the pins serve: not both are negative, or the existing computes span too few failure domains, or what these keep suffices |
| PlanTheorems.RatioMet | internal/capacityplanner/planner.go:539-754 | unless both compute pins are negative the layout has at least the drive cores of the applied containers, and at least computeToTlcRatio times the TLC plus computeToQlcRatio times the QLC ones |
| FloorWitness.NegativePinsFail | internal/capacityplanner/planner.go:628-754 | an input with pins -1 and -3 whose plan is feasible and misses the required compute cores |
| PlanTheorems.ComputeSpans | internal/capacityplanner/planner.go:679-695 | the compute layout of a feasible plan spans at least the protection minimum of failure domains |
| PlanTheorems.RunSolvent | internal/capacityplanner/planner.go:277-360 | through both pools, rollbacks, pinned-core surpluses and compute placement no node budget becomes negative, whether or not the compute stage ends in a layout |
| PlanTheorems.FeasibleShape | internal/capacityplanner/planner.go:484-549 | a feasible plan has feasible pools, every record emitted with its pinned cores, the totals of the final state and a placed compute stage |
| VerdictTheorems.ReportOrder | internal/capacityplanner/planner.go:364-549 | the reason a plan reports is the first that applies: protection, a count that cannot be split, cores that cannot be pinned or paid for, a pool, the failure domains under a pinned count, compute; only a feasible plan lays out compute |
| VerdictTheorems.PoolsReport | internal/capacityplanner/planner.go:440-442 | of two pools that fail the one planned second is reported |
| VerdictTheorems.EmissionExact | internal/capacityplanner/planner.go:474-525 | drives are emitted exactly when every grown container gets its pinned cores, and every new one does on a node with the CPU, hugepages and memory of the surplus |
| VerdictTheorems.AbandonedExact | internal/capacityplanner/planner.go:999-1018 | a feasible plan reports a pool as left behind exactly when it is short, no count is pinned, the missing chunk is at least imbalanceFactor times the average container and enough candidates hold the whole target evenly |
| VerdictTheorems.FallbackCovers | internal/capacityplanner/planner.go:1030-1061 | a pool planned afresh meets its target without what its old failure domains hold today |
| VerdictTheorems.OverProvisionExact | internal/capacityplanner/planner.go:1285-1405 | with one-node failure domains the reported over-provision of an increased pool is exactly what the applied pool has beyond its target, unless the create-new loop found no count, some count is feasible at level t0 and a failure domain is below t0; then it is too high |
| Planner.ProtectionExact | internal/capacityplanner/planner.go:375-384 | a plan is rejected for its protection exactly when the scheme is below 3+2+0, or 2+1+0 with single parity, in some part |
| Planner.SplitExact | internal/capacityplanner/planner.go:2061-2086 | a pinned count goes to the one active pool, or is split by the nearest share of the raw capacities; it is rejected exactly when the total or a share is below the protection minimum |
| Planner.TargetsSum | internal/capacityplanner/planner.go:2061-2086 | with both pools active the two targets add up to the count, each at least the minimum |
| PinnedCounts.PinnedTotal | internal/capacityplanner/planner.go:523-537 | on any site, once a feasible plan with a pinned count is applied its containers are in exactly that many failure domains |
| PinnedCounts.PinnedExact | internal/capacityplanner/planner.go:2061-2086 | with one-node failure domains, if every pool is short or absent, a feasible plan carries each short pool in exactly its target of failure domains |
| PinnedCounts.PinnedCarriers | internal/capacityplanner/planner.go:1119-1181 | with one-node failure domains a placed pin never carries its pool in more failure domains than its target, and in exactly that many if and only if enough candidates hold the level and each of them starts |
| CountWitness.TargetMissed | internal/capacityplanner/planner.go:2061-2104 | an input whose plan is feasible and carries a short pool in fewer failure domains than its target, since a container of the other pool makes up the count |
| FleetTheorems.CreatedCovered | internal/capacityplanner/planner.go:495-525 | with one-node failure domains each container a plan creates, feasible or not, lands on an eligible node without drives and is fully paid for, pinned cores included |
| Seating.CreatedSeated | internal/capacityplanner/planner.go:1911-1925 | in every plan and with any failure domains a new container lands on an eligible node without a scheduled drive container, in that node's failure domain |
| GrowRecords.GrowNeverShrinks | internal/capacityplanner/planner.go:474-489 | in every plan each growth entry names an existing container and lowers neither of its pools |
| GrowRecords.RecordExact | internal/capacityplanner/planner.go:1689-1764 | on any site a container gets a growth record exactly when a pool chose its failure domain, it lacks part of its even share and its node has room; the record changes nothing exactly when each failure domain so touched has a host without room for its share |
| PinnedRecords.PinnedRecord | internal/capacityplanner/planner.go:1119-1181 | with one-node failure domains and a pinned count this is a condition on the input: the pin is placed, and room > 0 and ceil(target / count) - held > 0 for a record, 0 < room < ceil(target / count) - held for one that changes nothing |
| GrowRecords.ZeroChangeExact | internal/capacityplanner/planner.go:474-489 | on any site an emitted growth entry changes nothing exactly when every failure domain that touched its node has a host without room for its share |
| GrowRecords.UnpinnedGrowthIncreases | internal/capacityplanner/planner.go:474-489 | with one-node failure domains and no pinned container count every growth entry raises its container |
| FdWitness.UnpinnedZeroChange | internal/capacityplanner/planner.go:1703-1764 | with two hosts in one failure domain and nothing pinned, an input whose plan lists a container at what it already holds |
| RecordWitness.ZeroChangeListed | internal/capacityplanner/planner.go:474-489 | an input whose plan lists growth of a container to what it already holds |
| GrownCores.GrowthSpends | internal/capacityplanner/planner.go:480-489 | on any site, when drives are emitted the node of the container that growth goes to has lost exactly the CPU, hugepages and memory of that growth, and nothing for pinned cores |
| GrownCores.GrownCoresPaid | internal/capacityplanner/planner.go:480-489 | on any site the cores a growth entry adds are paid for: always when derived, if the container had the cores it needs; when pinned, exactly if the pin exceeds its cores by at most the charge of its growth |
| GrownCores.EntryCores | internal/capacityplanner/planner.go:444-489 | in every plan a grown container gets the pinned cores, or without a pin the derived ones; never fewer than derived nor more than maxCoresPerContainer |
| GrownCores.CreateCores | internal/capacityplanner/planner.go:444-525 | so does a new container, and at least one core |
| SharedNodes.DrivesSpent | internal/capacityplanner/planner.go:309-322 | on any site a node ends with its inventory of each pool less exactly what that pool gained there |
| RecordWitness.GrownCoresUnpaid | internal/capacityplanner/planner.go:480-489 | an input whose plan grows a container from one core to eight on a node with two CPUs |
| GrowRecords.CreatedExact | internal/capacityplanner/planner.go:1720-1764 | on any site a node without drives gets a new container exactly when a pool touches it, of exactly what the pools add there; it is empty exactly when every failure domain so touched has a host without room for its share |
| GrowRecords.EmptyCreateExact | internal/capacityplanner/planner.go:491-525 | the same for the new containers a plan lists |
| GrownCores.EmptyCreateUnpaid | internal/capacityplanner/planner.go:491-525 | a listed empty container has at least one core, and once pools are planned its node has paid for none |
| GrownCores.CreatedSpends | internal/capacityplanner/planner.go:1720-1764 | on any site the node of a new container has paid exactly the cores of what it gained; the base is paid exactly when the pool planned first fills it, or the second does and the first left no record there |
| EmptyWitness.EmptyCreates | internal/capacityplanner/planner.go:491-525 | an input with a pinned count of four whose plan is feasible and creates two empty containers |
| FleetTheorems.DriveAndComputeFit | internal/capacityplanner/planner.go:495-733 | with one-node failure domains, whatever the pins, a new drive container and a new compute on the same node together fit its CPU and hugepages |
| FrozenGrowth.GrowthOffGrowsNothing | internal/capacityplanner/planner.go:1143-1166 | with in-place growth off and well-formed drives no plan, feasible or not, grows anything, unless a container count is pinned and two containers share a failure domain |
| FrozenGrowth.FrozenGrowthExact | internal/capacityplanner/planner.go:1119-1181 | with in-place growth off, on any site with well-formed drives, a container gets a growth record exactly when a placed pin finds it below its even share with room on its node, and is raised exactly when every host of its failure domain has room for its share |
| FrozenWitness.FrozenGrown | internal/capacityplanner/planner.go:1143-1181 | an input with in-place growth off whose plan is feasible and grows a container from 100 to 500 GiB |
| AdvisoryTheorems.PlanShrink | internal/capacityplanner/planner.go:985-994 | any plan advises a shrink for a pool exactly when its input passes the checks made before pools are planned and the pool exceeds its target by more than the over-provision cap |
| AdvisoryTheorems.IncreaseNeverAdvisesShrink | internal/capacityplanner/planner.go:1187-1477 | with one-node failure domains a uniform increase ends at most the over-provision cap above the target, so re-planning advises no shrink; if every existing failure domain holds at least a chunk it also reaches the target |
| AdvisoryTheorems.IncreaseReachesTarget | internal/capacityplanner/planner.go:1187-1477 | with one-node failure domains that each hold at least a chunk, a uniform increase reaches the target whether or not the plan is feasible in the end |
| AdvisoryTheorems.FreshExact | internal/capacityplanner/planner.go:1067-1113 | with one-node failure domains a fresh placement adds exactly its count times its level, at least the target |
| GrowthFloor.GrowthWorthwhile | internal/capacityplanner/planner.go:1443-1477 | with one-node failure domains a container that a uniform increase raises ends at the level of the plan, at least (1 + minGrowthFraction) times the smallest failure domain of the pool, floored at minChunk |
| GrowthFloor.GrowingLevel | internal/capacityplanner/planner.go:1443-1477 | on any site an increase that chooses a node carrying the pool has such a level |
| AdvisoryTheorems.FreshAdvisesShrink | internal/capacityplanner/planner.go:988-993 | with one-node failure domains, after a fresh placement the next plan lists a shrink exactly when the current capacity plus n times the share exceeds target plus cap, n being the least count of at least minFd that tiles the candidates |
| SiteTheorems.PlacedTotal | internal/capacityplanner/planner.go:1657-1766 | on any site and by any route a planned pool ends with what it held plus what its completed failure domains lacked of the level |
| SiteTheorems.NextShrinkExact | internal/capacityplanner/planner.go:985-994 | on any site and by any route, once a feasible plan is applied the next one advises a shrink exactly when that total exceeds the target by more than the cap |
| ShrinkWitness.IncreaseAdvisesShrink | internal/capacityplanner/planner.go:1187-1477 | with two uneven hosts in one failure domain, an input whose plan is a feasible uniform increase and whose next plan advises a shrink |
| AdvisoryWitness.GreenFeasible | internal/capacityplanner/planner.go:364-549 | a three-node greenfield input with a feasible plan |
| AdvisoryWitness.GreenAdvisesShrink | internal/capacityplanner/planner.go:988-993 | planning it again, once applied, advises a shrink of what the first plan placed |
| DefensiveBranch.EnteredExactly | internal/capacityplanner/planner.go:1393-1405 | at every site the branch called unreachable runs exactly when the create-new loop found no count and some final count is feasible at level t0 |
| DefensiveBranch.EnteredWhole | internal/capacityplanner/planner.go:1393-1405 | on any site with well-formed drives, any number of hosts per failure domain and at least a chunk in each: exactly when that loop found none, the grow phase found a level and t0 > desired / minFd; never with minFd failure domains in place |
| DefensiveBranch.ReachesFigures | internal/capacityplanner/planner.go:1206-1272 | on any site with well-formed drives the reach table adds up to the current capacity, and carries the pool in exactly its failure domains |
| DefensiveBranch.WholeChunkIncrease | internal/capacityplanner/planner.go:1187-1477 | with one-node whole-chunk failure domains the realized total equals the prediction and lies in [target, target + cap] |
| WitnessSites.DefensiveBranchReached | internal/capacityplanner/planner.go:1393-1405 | a site with whole-chunk containers at which the branch runs |
| WitnessSites.DefensiveBranchShort | internal/capacityplanner/planner.go:1393-1405 | a site at which it misses the target though growing the existing container would meet it |
| BranchWitness.BranchReaches | internal/capacityplanner/planner.go:1393-1405 | planning the pool of the first site leaves 5000 GiB for a target of 4999 |
| BranchWitness.BranchFallsShort | internal/capacityplanner/planner.go:1393-1405 | planning the pool of the second leaves 1636 GiB of a target of 1920 |
| EmissionFacts.AppliedTotals | internal/capacityplanner/planner.go:474-525 | the applied containers hold exactly the capacity and the cores the records say |
| PlannerRun.PlanBothPools | internal/capacityplanner/planner.go:423-442 | the more constrained pool is planned first; the run ends in the state of `PoolPlanner.PlanPools` |
| VerdictTheorems.FirstPoolExact | internal/capacityplanner/planner.go:423-439 | QLC goes first exactly when both pools are active and fewer nodes can host it: nodes with drives of the pool that are eligible or carry it already |
| PlannerRun.EmitGrowth | internal/capacityplanner/planner.go:474-489 | emits growth records in name order up to the first that cannot be pinned, with the cores of each |
| PlannerRun.EmitCreates | internal/capacityplanner/planner.go:491-525 | emits new containers in node order, charging each pinned surplus, and stops at the first that does not fit |
| PlannerRun.CountDriveFds | internal/capacityplanner/planner.go:2090-2104 | counts the distinct failure domains of existing and new drive containers |
| PlannerRun.ExistingTotals | internal/capacityplanner/cores.go:78-95 | sums both pools' core attributions over the existing containers in their final state |
| PlannerRun.NewTotals | internal/capacityplanner/cores.go:143-160 | sums both pools' core attributions over the new containers |
| PoolRuns.PlanPool | internal/capacityplanner/planner.go:951-1019 | planning one pool in place yields the ledger and notes of `PoolPlanner.PlanPool` |
| PoolRuns.Decide | internal/capacityplanner/planner.go:985-1018 | reaches the decision of `PoolDecision.DecidePool`: keep, shrink, fallback, explicit, increase or greenfield |
| RouteTheorems.RouteExact | internal/capacityplanner/planner.go:985-1018 | a short pool is planned by its pin; else afresh, leaving its failure domains, exactly when the least chunk of which minFd cover the delta is at least imbalanceFactor times the average and candidates hold the target; else by an increase if it has failure domains |
| RouteTheorems.FreshLevel | internal/capacityplanner/planner.go:1483-1500 | a pool started afresh takes the least level of at least minChunk at which its picks hold the target |
| RouteTheorems.IncreaseFigures | internal/capacityplanner/planner.go:1206-1230 | an increase works from the smallest and the largest failure domain of the pool, both floored at minChunk, and the average of its containers |
| RouteTheorems.PinPlacesExact | internal/capacityplanner/planner.go:1119-1166 | a pin is placed exactly when the pool is short, the target exceeds what it has, the delta gives each added failure domain a chunk and, with growth off, none it has is below the least level of that many |
| RouteTheorems.RejectExact | internal/capacityplanner/planner.go:1067-1181 | what each rejection reports: failure domains exactly with fewer candidates than minFd, else capacity and what the last candidate lacks; the count for a pin; the delta for an increase |
| PoolRuns.DecideFresh | internal/capacityplanner/planner.go:1067-1113 | the fresh uniform decision, with binding and shortfall on failure |
| PoolRuns.DecideExplicit | internal/capacityplanner/planner.go:1119-1181 | the decision for a pinned count, with its fail-fast checks and the frozen-domain guard |
| PoolRuns.DecideByIncrease | internal/capacityplanner/planner.go:1187-1477 | the uniform-increase decision |
| PoolRuns.ExistingFdsAsChosen | internal/capacityplanner/planner.go:1610-1653 | each pool-bearing failure domain with its nodes, most headroom first, no node twice |
| CandidateGroups.ExistingGroupExact | internal/capacityplanner/planner.go:1610-1653 | a failure domain of the pool is planned over the nodes whose first container carrying the pool is in it, most headroom first |
| PoolRuns.Finalize | internal/capacityplanner/planner.go:1030-1061 | the verdict on what was really placed: capacity shortfall to the cover target, else too few failure domains |
| VerdictTheorems.VerdictExact | internal/capacityplanner/planner.go:1030-1061 | a planned pool is told of capacity exactly when what counts is still short, with the least amount that would do; of failure domains exactly when it is not short but too few carry it; afresh, its old containers do not count |
| PoolRuns.Realize | internal/capacityplanner/planner.go:1657-1766 | places in place, judges the realized capacity and records the outcome |
| PoolPlanner.PlanPoolKeeps | internal/capacityplanner/planner.go:951-1019 | planning a pool keeps every record, never lowers its own, leaves the other pool alone and keeps budgets non-negative |
| PoolPlanner.PlanPoolCovers | internal/capacityplanner/planner.go:1042-1060 | a feasibly planned pool is covered and spans enough failure domains |
| PoolPlanner.DecisionWhenShort | internal/capacityplanner/planner.go:995-1018 | something is placed or rejected exactly when the pool is short |
| PoolPlanner.PoolsCovered | internal/capacityplanner/planner.go:440-442 | after both pools each is covered: the second never disturbs the first |
| Ledgers.OtherPoolUndisturbed | internal/capacityplanner/planner.go:440-442 | planning one pool leaves the other pool's total and failure domains unchanged |
| PoolScan.FdTotals | internal/capacityplanner/planner.go:1206-1216 | sums capacity per failure domain, in first-seen order |
| PoolScan.Extremes | internal/capacityplanner/planner.go:1217-1230 | the smallest and largest failure domain of the pool |
| PoolScan.ReachTable | internal/capacityplanner/planner.go:1254-1272 | what each failure domain holds and could be grown to |
| PoolScan.EvenSearch | internal/capacityplanner/planner.go:1316-1350 | the create-new loop returns the first admissible count |
| PoolScan.LevelSearch | internal/capacityplanner/planner.go:1352-1379 | the grow-phase loop returns the best level |
| PoolScan.DecideIncrease | internal/capacityplanner/planner.go:1316-1477 | both searches and the guards on growing compute `UniformIncrease.Decide`, which `UniformIncrease.DecideExact` characterizes |
| UniformIncrease.DecideExact | internal/capacityplanner/planner.go:1380-1477 | when the create-new loop finds nothing, existing failure domains are grown exactly when growth is on and every working count raises the level by minGrowthFraction or more, and each reason to give up is reported exactly in its case |
| UniformIncrease.EvenExact | internal/capacityplanner/planner.go:1316-1350 | the create-new loop takes the fewest failure domains whose least even size passes every limit, and finds none exactly when none does |
| UniformIncrease.TryExact | internal/capacityplanner/planner.go:1352-1379 | a final count works exactly when existing and spare failure domains reach its least level within the cap |
| UniformIncrease.EvenCovers | internal/capacityplanner/planner.go:1316-1350 | the create-new loop takes the fewest failure domains that pass its guards, and they cover the target within the cap |
| UniformIncrease.GrowLevelLeast | internal/capacityplanner/planner.go:1352-1379 | the grow phase takes the working count with the least level, then the least total, then the least count, within the cap; it finds none exactly when no count works |
| UniformIncrease.DecideFacts | internal/capacityplanner/planner.go:1316-1477 | what each outcome promises the placement: enough able nodes, and a predicted total within [target, target + cap] |
| UniformIncrease.T0CandidateWasPlaced | internal/capacityplanner/planner.go:1393-1397 | a t0-level candidate within the per-FD ceiling means the create-new loop had already found a count |
| UniformIncrease.DefensiveBranchExact | internal/capacityplanner/planner.go:1393-1405 | for any figures with t0 >= 0 the branch is taken exactly when the create-new loop found no count and some count is feasible at level t0 |
| UniformIncrease.DefensiveBranchWhole | internal/capacityplanner/planner.go:1393-1405 | with whole chunks the condition becomes t0 > desired / minFd once both searches came out that way |
| UniformIncrease.ZeroFractionGrows | internal/capacityplanner/planner.go:1443-1465 | a growth fraction of 0 never blocks growing: the value is used as given |
| UniformIncrease.DefensiveBranchDead | internal/capacityplanner/planner.go:1393-1405 | with minFd whole-chunk failure domains the branch is dead |
| UniformIncrease.DefensiveBranchTotal | internal/capacityplanner/planner.go:1398-1405 | what the branch realizes equals its prediction exactly when no failure domain is below t0 |
| DefensiveBranch.IncreaseRealized | internal/capacityplanner/planner.go:1187-1477 | with one-node failure domains nothing is rolled back and the realized total equals the prediction exactly unless the create-new loop found no count, some count is feasible at level t0 and a failure domain is below t0; it never exceeds the prediction |
| Placement.SharesExact | internal/capacityplanner/planner.go:1689-1707 | even shares sum to the target, differ by at most one, and the larger come first |
| Placement.FdAllOrNothing | internal/capacityplanner/planner.go:1681-1765 | if every host has room for its share each rises by exactly what it lacked and no other node changes; otherwise every budget and capacity is as before |
| Ledgers.HostOnLast | internal/capacityplanner/planner.go:1667-1674 | growth on a node goes to the last scheduled container listed there |
| Placement.HostsHold | internal/capacityplanner/planner.go:1703-1752 | a failure domain is completed exactly when each host, on its own budget, has room for its share |
| FdRecords.UniformEffect | internal/capacityplanner/planner.go:1657-1766 | with any number of hosts each chosen failure domain acts as if it were alone: which nodes get a record, what each gains and what each pays |
| FdRecords.UniformTotal | internal/capacityplanner/planner.go:1657-1766 | a placement adds to the pool exactly what the failure domains it completes lacked |
| FdRecords.DecisionDisjoint | internal/capacityplanner/planner.go:985-1018 | whatever is decided, on any site, no node is a host of two chosen failure domains |
| Placement.PlaceUniformKeeps | internal/capacityplanner/planner.go:1657-1766 | placement only extends records, touches one pool and keeps budgets non-negative |
| AutoMode.PlaceUniformRealizes | internal/capacityplanner/planner.go:1657-1766 | over one-node failure domains that can reach the level nothing is rolled back and the pool gains exactly what they lacked |
| AutoMode.UniformCreates | internal/capacityplanner/planner.go:1657-1766 | over fresh one-node failure domains that can reach the level exactly those nodes get a new container, of exactly the level |
| Seating.ExistingCarry | internal/capacityplanner/planner.go:1610-1640 | only nodes that carry the pool join its existing failure domains |
| Rollback.UndoAllRestores | internal/capacityplanner/planner.go:1752-1764 | undoing every recorded move restores budgets and capacities, leaving zero-change records behind |
| PlanRuns.PlanRun.constructor | internal/capacityplanner/planner.go:402-421 | a fresh state per node, with empty records |
| PlanRuns.InventoryLast | internal/capacityplanner/planner.go:400-412 | a listed node is known with the figures of its last entry |
| PlanRuns.PlanRun.PlaceUniform | internal/capacityplanner/planner.go:1657-1766 | the in-place loop computes `Placement.PlaceUniform` |
| PlanRuns.PlanRun.PlaceFd | internal/capacityplanner/planner.go:1681-1765 | one failure domain with its undo list computes `Placement.PlaceFd` |
| PlanRuns.PlanRun.PlaceHost | internal/capacityplanner/planner.go:1703-1750 | one host, and the move that would undo it |
| PlanRuns.PlanRun.UndoMoves | internal/capacityplanner/planner.go:1752-1764 | undoes the recorded moves in order |
| JointFit.PoolsPaid | internal/capacityplanner/planner.go:1720-1750 | with one-node failure domains every pending container sits on an eligible drive-free node and is paid for |
| FreshScan.OrderFreshFdGroups | internal/capacityplanner/planner.go:1911-1949 | collects, ranks and groups the candidates as `FreshFds.FreshGroups` |
| FreshFds.FreshGroupsAreFresh | internal/capacityplanner/planner.go:1911-1949 | groups hold exactly the candidates, each once, and none is empty |
| CandidateGroups.CandidateExact | internal/capacityplanner/planner.go:1791-1925 | a node is a candidate exactly when it is eligible, has room for a chunk with the base, and no container on it carries the pool, or anything where growth is off |
| CandidateGroups.GroupExact | internal/capacityplanner/planner.go:1911-1949 | a group holds the candidates of one failure domain, most headroom first, with their headroom together, and is deleting exactly when one of its nodes is |
| FreshFds.OneNodeGroups | internal/capacityplanner/planner.go:1911-1949 | with one-node failure domains the groups come headroom first |
| FreshScan.SelectUniformScan | internal/capacityplanner/planner.go:1483-1500 | the scan over counts computes `FreshFds.SelectUniform` |
| FreshFds.SelectUniformLeast | internal/capacityplanner/planner.go:1483-1525 | on sorted candidates: the least count that tiles, that many distinct able failure domains covering the target, or no count tiles |
| FreshFds.ShortfallPositive | internal/capacityplanner/planner.go:1529-1547 | on sorted candidates a failed tiling reports a positive shortfall |
| FreshFds.SelectionLeastIff | internal/capacityplanner/planner.go:1483-1525 | on any candidates: the selection uses the least count that tiles exactly when the first that many of the list tile; it never uses fewer, and finds none when none exists |
| FreshFds.ShortfallIff | internal/capacityplanner/planner.go:1529-1547 | on any candidates: after a failure the shortfall is positive exactly when the last candidate is below the share |
| LabelWitness.UnsortedCandidates | internal/capacityplanner/planner.go:1911-1949 | a label-mode site with protection 2+1 whose candidates are not sorted: a smaller tiling is passed over, and a tileable target is rejected with shortfall 0 |
| FreshScan.PickPreferringColocated | internal/capacityplanner/planner.go:1504-1525 | the two-tier pick computes `FreshFds.PickColocated` |
| Preference.PickPrefers | internal/capacityplanner/planner.go:1504-1525 | no able co-located failure domain is passed over for one that is not |
| SharedNodes.PreferExact | internal/capacityplanner/planner.go:1971-1983 | the preferred nodes of a pool are exactly those where the other pool, planned first, filled a new container |
| SharedNodes.FreshShares | internal/capacityplanner/planner.go:1483-1525 | a pool started afresh passes no able failure domain with such a node over for one without |
| SharedNodes.IncreaseShares | internal/capacityplanner/planner.go:1986-2008 | nor does an increase that adds failure domains |
| FreshFds.PickColocatedExact | internal/capacityplanner/planner.go:1504-1525 | the pick has the asked size and holds distinct able failure domains |
| FreshScan.TakeFreshAtLevel | internal/capacityplanner/planner.go:1889-1906 | the four-tier pick computes `FreshFds.TakeFresh` |
| Preference.TakeFreshPrefers | internal/capacityplanner/planner.go:1889-1906 | no able failure domain is passed over for one in a later tier, or of less headroom in the same tier |
| FreshFds.TakeFreshExact | internal/capacityplanner/planner.go:1889-1906 | the pick has the asked size, up to what is able, and holds distinct able failure domains |
| FreshScan.ColocatedFirstScan | internal/capacityplanner/planner.go:1986-2008 | flags and floats co-located failure domains, keeping order |
| FreshScan.Exclusion | internal/capacityplanner/planner.go:1820-1825 | the nodes fresh placement must avoid |
| FreshScan.RejectedNodes | internal/capacityplanner/infeasibility.go:60-85 | lists the rejected nodes of the whole inventory in name order |
| FreshScan.RejectionsExact | internal/capacityplanner/infeasibility.go:60-85 | rejected nodes and candidates partition the inventory, each node listed at most once |
| NodeBudget.HeadroomExact | internal/capacityplanner/planner.go:277-304 | g GiB are within the headroom exactly when they fit every dimension; above it the reported dimension is violated |
| NodeBudget.BindingFirst | internal/capacityplanner/planner.go:277-304 | of dimensions that bind alike the first is reported: drives, cores, hugepages, memory |
| NodeBudget.DataCoresFitExact | internal/capacityplanner/planner.go:232-258 | n >= 1 data cores fit exactly when their physical cost is within the CPUs at hand |
| NodeBudget.ChargeNonNegative | internal/capacityplanner/planner.go:309-322 | charging within the headroom overdraws nothing |
| NodeBudget.UnpricedMemoryOverdraws | internal/capacityplanner/planner.go:291-322 | with free per-core memory, charging a new container overdraws exactly when the base exceeds the memory at hand |
| GrownCores.UnpricedMemoryExact | internal/capacityplanner/planner.go:291-322 | with free per-core memory, planning the pools overdraws a node's memory exactly when it fills a new container there, pays its base and the base exceeds the memory of the node |
| MemoryWitness.MemoryOverdrawn | internal/capacityplanner/planner.go:291-322 | a pool planned without a note that overdraws the memory of all three nodes |
| NodeBudget.RefundUndoesCharge | internal/capacityplanner/planner.go:309-339 | unconsume and consume are mutually inverse |
| NodeBudget.ReserveNonNegative | internal/capacityplanner/planner.go:344-360 | an admitted reservation overdraws nothing |
| NodeBudget.HeadroomWithoutBase | internal/capacityplanner/planner.go:277-304 | a container that pays no base has at least the headroom of one that does |
| NodeBudget.NodeState.NodeHeadroom | internal/capacityplanner/planner.go:277-304 | the headroom and the dimension that binds |
| NodeBudget.NodeState.Consume | internal/capacityplanner/planner.go:309-322 | charges the four budgets, within headroom never below zero |
| NodeBudget.NodeState.Unconsume | internal/capacityplanner/planner.go:326-339 | refunds the four budgets |
| NodeBudget.NodeState.ReserveCores | internal/capacityplanner/planner.go:344-360 | reserves when all dimensions allow it, else changes nothing |
| Deadband.CoverTargetIsBoundary | internal/capacityplanner/constraints.go:28-46 | a pool is short exactly below the cover target, which never exceeds the target |
| Deadband.ShortExact | internal/capacityplanner/constraints.go:28-38 | a pool is short exactly when it lacks more than the deadband fraction of the target, rounded up |
| Deadband.CapExact | internal/capacityplanner/planner.go:1829-1836 | the over-provision cap is the whole part of the fraction of the target |
| Cpu.ProjectionExact | internal/capacityplanner/cpu.go:33-101 | the model sampled at one and two cores is exact unless the policy is shared or full-PCPU rounding applies, then off by one; shared is off by n + 1 |
| Cpu.CostExact | internal/capacityplanner/cpu.go:77-101 | n data cores cost n CPUs, or 2n where hyper-threads are dedicated, and one more for the base of a container under every named policy |
| Cpu.CostMonotone | internal/capacityplanner/cpu.go:77-90 | physical cost never falls with more cores |
| HugepageSizing.HugepagesShrink | internal/capacityplanner/hugepages.go:71-93 | compute hugepages are antitone in the count and monotone in the cores |
| HugepageSizing.SizingExact | internal/capacityplanner/hugepages.go:71-93 | compute hugepages are the least even figure of at least 1700 MiB a core plus the share of the cluster, and 3000 a core, under the cap, plus DPDK |
| HugepageSizing.HugepagesWithin | internal/capacityplanner/hugepages.go:71-93 | hugepages for one count are within those for another exactly when the other is positive and at most the count, the figures before the cap agree, or the other reaches the cap |
| DriveCoreCounts.AttributionExact | internal/capacityplanner/cores.go:110-139 | the TLC share of a mixed container is the fewest cores of its TLC capacity, within its cores, and QLC gets the rest; a container of one pool gives it all |
| DriveCoreCounts.DerivedCoresExact | internal/capacityplanner/cores.go:15-27 | a container needs the fewest cores of each pool together, and at least one |
| DriveCoreCounts.RequiredExact | internal/capacityplanner/cores.go:60-74 | required compute cores are the least integer that meets the ratios and the drive cores |
| DriveCoreCounts.PinExact | internal/capacityplanner/planner.go:444-472 | a container gets the pinned cores, or the derived ones, exactly when they are at least the derived and within the limit |
| DriveCoreCounts.PinnedEnough | internal/capacityplanner/planner.go:444-472 | a pinned count is at least the derived one, which is at least one |
| ComputeScan.DeriveComputeLayout | internal/capacityplanner/compute_layout.go:93-243 | computes `ComputeLayout.Derive`, which the four lemmas below characterize case by case |
| ComputeScan.ScanCounts | internal/capacityplanner/compute_layout.go:165-184 | the scan returns the first count that works |
| ComputeLayout.NodesFitting | internal/capacityplanner/compute_layout.go:43-59 | counts the nodes that can host one container |
| ComputeLayout.TopNMinCounts | internal/capacityplanner/compute_layout.go:18-39 | the n-th largest capped headroom reaches c exactly when at least n nodes fit c cores |
| ComputeLayout.DeriveLeast | internal/capacityplanner/compute_layout.go:160-241 | with nothing pinned: the least count whose fewest cores fit cores and hugepages together, or failure exactly when none does |
| ComputeLayout.DerivePinnedCores | internal/capacityplanner/compute_layout.go:127-158 | with cores pinned: the fewest containers that meet the floor and supply the cores, or failure exactly when that many nodes cannot host them, each reason in its case |
| ComputeLayout.DerivePinnedCount | internal/capacityplanner/compute_layout.go:97-125 | with the count pinned: exactly the count and the fewest cores, or each reason against it in its case |
| ComputeLayout.DeriveNegativeCores | internal/capacityplanner/compute_layout.go:127-133 | a negative core pin alone gives no layout |
| ComputeLayout.DiagnosisExact | internal/capacityplanner/compute_layout.go:186-241 | with nothing pinned and no layout, cores are reported exactly when some node lacks those of the even split, hugepages exactly when none does and some node lacks its hugepages |
| StageTheorems.NodeFitsExact | internal/capacityplanner/planner.go:578-613 | the headrooms of the stage say a node fits a container exactly when it has room for it; a node that keeps a compute needs room only for what that compute would add |
| StageTheorems.DerivedExact | internal/capacityplanner/planner.go:574-641 | with nothing pinned the stage aims at the least count from the floor up for which that many nodes are able, and fails exactly when there is none |
| StageTheorems.PinnedComputeCores | internal/capacityplanner/planner.go:628-754 | a feasible plan gives computes the cores pinned for them |
| ComputeLayout.UnexpectedExact | internal/capacityplanner/compute_layout.go:234-241 | the diagnostic marked unexpected fires exactly when 0 < nodes < floor and the split over all nodes fits |
| ComputeGuarantees.UnclassifiedExact | internal/capacityplanner/planner.go:620-641 | with nothing pinned the compute stage ends in that diagnostic exactly when 0 < eligible nodes < minFds and each of them hosts one container of the even split |
| PlanWitness.UnexpectedReached | internal/capacityplanner/compute_layout.go:234-241 | three ample nodes under a floor of five reach it, with the hugepage function the planner passes |
| ComputeLayout.DeriveSupplies | internal/capacityplanner/compute_layout.go:93-158 | every layout multiplies to the required cores, honours pins and meets the floor when the count is derived; its count and cores are positive exactly unless both pins are negative |
| ComputeLayout.CountFloorExact | internal/capacityplanner/compute_layout.go:93-158 | a layout meets the floor exactly when no count is pinned or the pinned one meets it |
| FloorWitness.CountBelowFloor | internal/capacityplanner/planner.go:628-636 | one pinned container is derived as it is under a floor of three, with the hugepage function the planner passes |
| ComputeGuarantees.FinalCountMeetsFloor | internal/capacityplanner/planner.go:676-754 | whatever count was derived or pinned, a placed stage ends with at least minFds containers |
| ComputeLayout.SkipIsSafe | internal/capacityplanner/compute_layout.go:273-301 | if the skip gate says no growth, counts, floor and pinned cores are met and, unless both pins are negative, current cores cover the requirement |
| ComputeLayout.SkipExact | internal/capacityplanner/compute_layout.go:273-301 | with nothing pinned a re-plan is skipped exactly when there are as many computes as the fewest of the largest size that do, and the smallest has their cores or all together enough |
| ComputeLayout.SkipPinnedCores | internal/capacityplanner/compute_layout.go:273-301 | the exact condition with cores pinned |
| ComputeLayout.SkipPinnedCount | internal/capacityplanner/compute_layout.go:273-301 | the exact condition with the count pinned |
| ComputeLayout.SkipWithNegativePins | internal/capacityplanner/compute_layout.go:273-301 | two negative pins skip exactly when something is in place and their product covers the requirement, whatever the current cores |
| ComputeScan.OrderNodesByFDSpread | internal/capacityplanner/compute_layout.go:307-348 | grouping, ranking and round robin compute `FdSpread.Spread` |
| FdSpread.SpreadPermutes | internal/capacityplanner/compute_layout.go:307-348 | the spread order is a permutation of its input |
| FdSpread.SpreadCovers | internal/capacityplanner/compute_layout.go:303-306 | the first k picks cover min(k, #FDs) failure domains |
| FdSpread.BetterFirst | internal/capacityplanner/compute_layout.go:307-348 | of two nodes of one failure domain the one with more headroom is listed first |
| FdSpread.UntouchedNotBetter | internal/capacityplanner/compute_layout.go:307-348 | while a failure domain is left out, none of its nodes has more headroom than a pick |
| FdSpread.GreedyOptimal | internal/capacityplanner/planner.go:679-695 | extending the prefix uses the fewest nodes any choice could, and fails exactly when all fit nodes together span too few |
| ComputeGuarantees.SpanExact | internal/capacityplanner/planner.go:660-695 | lifted to the stage: it fails for failure domains exactly when the free fit nodes and the covered domains span too few, for cores exactly when the nodes are too few, and adds the fewest nodes any choice could |
| ComputeScan.ExtendSpan | internal/capacityplanner/planner.go:676-689 | the extension loop computes `FdSpread.Extend` and the span |
| ComputeRuns.PlanCompute | internal/capacityplanner/planner.go:555-754 | the compute stage on mutable budgets settles as `ComputePlanner.PlanCompute`, and leaves the specified budgets also when it fails part way |
| ComputeRuns.LayOutExistingCompute | internal/capacityplanner/planner.go:766-814 | grows or freezes existing computes in place as `ComputePlanner.LayOut`, which `LaidComputes.LaidExact` characterizes |
| LaidComputes.LaidExact | internal/capacityplanner/planner.go:766-814 | an existing compute ends at the uniform size exactly when it is running, growth is on and its node has what it adds after the computes before it; otherwise it keeps its size |
| LaidComputes.ExistingExact | internal/capacityplanner/planner.go:733-814 | in a placed stage with one compute per node the condition is on the budgets the stage starts from, and the hugepages are those of the final count |
| ComputeRuns.OrderFitNodes | internal/capacityplanner/planner.go:820-845 | orders the free fitting nodes, uncovered failure domains first |
| StageTheorems.FreeOrderPrefers | internal/capacityplanner/planner.go:820-845 | new computes go to the free nodes with the most free cores: within a failure domain, and between new failure domains while one is left out |
| ComputeRuns.PlaceNewComputes | internal/capacityplanner/planner.go:699-733 | places the new computes, stopping at the first node that cannot host its share |
| LaidComputes.NewExact | internal/capacityplanner/planner.go:699-733 | each new compute is on an eligible node of its own without a compute, has a core or more and the hugepages of the final count, and is paid for once |
| StageTheorems.NewOnComputeNodes | internal/capacityplanner/planner.go:555-577 | in every feasible plan a new compute is on a node marked for compute that had none |
| ComputeGuarantees.LayoutSuppliesCores | internal/capacityplanner/planner.go:641-754 | a placed layout supplies the required cores unless both pins are negative, and in general exactly when the pins serve |
| ComputeGuarantees.ComputeKeepsSolvent | internal/capacityplanner/planner.go:641-754 | a placed compute stage leaves no CPU or hugepage budget negative |
| ComputeGuarantees.StageKeepsSolvent | internal/capacityplanner/planner.go:555-754 | nor does a stage that fails, wherever it stops |
| ComputeGuarantees.GrownWithinReserved | internal/capacityplanner/planner.go:733-741 | in a placed stage, whatever the pins, a grown compute is emitted within the hugepages reserved for it exactly when the derived count is positive and at most the final one, both counts give the same figure before the cap, or the derived one reaches the cap |
| HugepageWitness.EmittedAboveReserved | internal/capacityplanner/planner.go:733-741 | a stage that reserves the last hugepages of a node and emits a compute 1000 MiB larger |
| ComputeGuarantees.LayoutSpans | internal/capacityplanner/planner.go:676-695 | a placed layout spans the required failure domains |
| ComputeGuarantees.NewComputeGuardDead | internal/capacityplanner/planner.go:713-728 | unless both pins are negative the guard called not expected never fires when no existing compute exceeds the uniform target |
| ComputeGuarantees.NewComputeGuardExact | internal/capacityplanner/planner.go:713-728 | in general it fires exactly when some chosen node lacks the CPU or the hugepages of its share at the final count, and reports hugepages; unless both pins are negative CPU never binds |
| FloorWitness.GuardFiresForCpu | internal/capacityplanner/planner.go:713-728 | a stage with pins -1 and -3 in which it fires, with hugepages to spare, because a node has one CPU |
| SettingsService.Service.constructor | internal/services/configuration_settings.go:298-303 | both channels start open |
| SettingsService.Service.Snapshot | internal/services/configuration_settings.go:306-316 | the value when ready, else the last error |
| SettingsService.Service.Store | internal/services/configuration_settings.go:398-409 | publishes the value, clears the error and closes ready at most once |
| SettingsService.Service.MarkUnresolved | internal/services/configuration_settings.go:411-424 | drops the value by replacing a closed ready channel |
| SettingsService.Service.FinishAttempt | internal/services/configuration_settings.go:387-392 | closes attempted at most once |
| SettingsService.Service.Refresh | internal/services/configuration_settings.go:379-394 | one uninterrupted refresh: attempted is closed, and ready is closed exactly on success |
| SettingsService.RunInv | internal/services/configuration_settings.go:284-424 | the protocol invariant holds after every interleaving |
| SettingsService.ServedValueIsLastStore | internal/services/configuration_settings.go:318-362 | ready is closed exactly when the last write was a store; every value returned is the one the last write by then stored |
| SettingsService.ClosedAtMostOnce | internal/services/configuration_settings.go:379-424 | in every interleaving no channel is closed twice |
| SettingsService.ClosedForever | internal/services/configuration_settings.go:284-296 | closed channels stay closed, and attempted is never replaced |
| SettingsService.NoStrandedWaiter | internal/services/configuration_settings.go:341-353 | a waiter whose channel was replaced, or after any finished refresh, can always move on |
| SettingsService.NoNewWaiter | internal/services/configuration_settings.go:327-335 | after a finished refresh no reader starts to wait |
| SettingsService.PanicsNameTheirCause | internal/services/configuration_settings.go:355-362 | every panic of resolvedOrPanic carries the error of the last write committed by then |

## Left out

- Message texts, fix tips, warnings and the per-bucket rejection breakdown: only feasibility, binding and shortfall are kept.
- RatioFromCaps, the container type label and the display sort of the compute layout: they carry no decision.
- Inventory collection, the allocator, controllers, webhooks and the command line: their results are inputs.
- The drive hugepages offset, FullDriveCores and the memory footprint of compute: not used by this planner.
- ResolveConfigurationSettings and payload copying: a resolution is an arbitrary value or error given to a refresher.
- Timers: a waiting reader may leave by timeout or cancellation at any step.
- The blocking `get` is modelled as protocol steps, not as a method, since a method cannot be interrupted by other parties.
- Floating-point rounding and integer width: fractions are exact reals and integers do not wrap.
- PoolRuns.DecideExplicit: the frozen failure domain reported first is the first seen, where the source takes any; only the reported shortfall depends on it.
- ComputeGuarantees.LayoutSuppliesCores: with two negative pins the condition is stated for existing computes and DPDK prices that are not negative.
- PlanTheorems.CoreFloor: the same, and no existing drive container is without a core.
- ComputeGuarantees.NewComputeGuardDead: excludes two negative pins, for which `ComputeGuarantees.NewComputeGuardExact` gives the condition.
- PinnedRecords.PinnedRecord: room is what the pool finds; for the pool planned first that is what the inventory reports (`PinnedRecords.FirstRoom`), for the second the first one's charges come off.
- FleetTheorems.CreatedCovered: for one-node failure domains; with several hosts `GrownCores.CreatedSpends` gives what is paid.
- PinnedCounts.PinnedExact: for one-node failure domains, of nodes that have names; on any site `PinnedCounts.PinnedTotal` gives the count over both pools.
- StageTheorems.NodeFitsExact: for one compute per node, as the layout spreads them.
- VerdictTheorems.OverProvisionExact: for one-node failure domains, as the prediction is.
- HugepageWitness.EmittedAboveReserved: an input of the compute stage, not of the whole planner.
- DefensiveBranch.IncreaseRealized: for one-node failure domains; with several hosts the even split can roll back what the per-domain search predicted, and `SiteTheorems.PlacedTotal` gives what is left.
- PlanTheorems.RunSolvent: assumes a positive per-core memory price; without one `GrownCores.UnpricedMemoryExact` says which nodes the pools overdraw.
