/** A greenfield plan whose own rounding makes the next plan advise a shrink. */
module AdvisoryWitness {
  import opened Arith
  import opened Model
  import opened NodeBudget
  import opened Ledgers
  import opened Placement
  import opened Ordering
  import opened FreshFds
  import opened Deadband
  import opened PoolDecision
  import opened PoolPlanner
  import opened DriveCoreCounts
  import opened Planner
  import opened EmissionFacts
  import opened PlanTheorems
  import opened AdvisoryTheorems
  import opened AutoMode
  import opened AutoTheorems
  import opened GrowRecords
  import opened WitnessSites
  import opened PlanWitness
  import JointFit
  import PR = PlanRuns
  import CP = ComputePlanner
  import CG = ComputeGuarantees
  import CL = ComputeLayout
  import HugepageSizing
  import Sums
  import FdSpread
  import UI = UniformIncrease

  /** 1000 GiB over three nodes of 2000 GiB, with three one-core computes. */
  const GREEN := Input(
    DesiredCapacity(Caps(1000, 0), 3, 1, 0, 0), ProtectionScheme(2, 1, 0), [], [],
    [Node("a", "a", 2000), Node("b", "b", 2000), Node("c", "c", 2000)],
    Some(map["a" := true, "b" := true, "c" := true]), CONS)

  /** Three empty nodes of 2000 GiB, each its own failure domain, before anything is placed. */
  ghost predicate IsField(s: Site, l: Ledger) {
    && s.existing == [] && PlainCons(s.cons) && AutoSite(s) && Tracks(s, l)
    && (forall n :: n in s.inv <==> n in TRIO) && l.growth == map[] && l.created == map[] && Unplanned(s, l, TLC)
    && forall n :: n in TRIO ==> s.inv[n] == Node(n, n, 2000) && l.budgets[n] == InitialBudget(Node(n, n, 2000))
  }

  lemma FieldIs()
    ensures IsField(Greenfield(2000), Opening(Greenfield(2000).inv))
  {
    Letters();
    OpeningUnplanned(Greenfield(2000), TLC);
  }

  lemma PlaceIs()
    ensures GREEN.Place() == Greenfield(2000) && CP.EligibleNodes(Greenfield(2000), GREEN.computeNodes.value) == TRIO
  {
    Letters();
    var inv := GREEN.inventory;
    assert inv[..2][..1] == inv[..1] && inv[..1][..0] == [] && inv[..3] == inv;
    assert PR.InventoryMap(inv[..1]) == map["a" := Node("a", "a", 2000)];
    assert PR.InventoryMap(inv[..2]) == map["a" := Node("a", "a", 2000), "b" := Node("b", "b", 2000)];
  }

  // ----- the drive pools -----

  lemma EmptySite(s: Site, n: string)
    requires s.existing == []
    ensures FreshExclusion(s, TLC) == {} && HostOn(s.existing, n).None?
  {
  }

  lemma FieldNode(s: Site, l: Ledger, n: string)
    requires IsField(s, l) && n in TRIO
    ensures IsCandidate(s, l, TLC, n) && HostOn(s.existing, n).None?
    ensures Headroom(s.inv[n], l.budgets[n], TLC, s.cons, true) == 2000
  {
    hide HeadroomBinding, AutoSite, Unplanned, FreshExclusion, HostOn;
    EmptySite(s, n);
    if s.cons == CONS {
      NodeRoom(n, n, 2000, s.cons, true);
    } else {
      NodeRoomUnpriced(n, n, 2000, s.cons, true);
    }
  }

  lemma FieldCandidates(s: Site, l: Ledger)
    requires IsField(s, l)
    ensures Candidates(s, l, TLC) == TRIO && |TRIO| == 3
  {
    hide IsCandidate, AutoSite, Unplanned;
    forall n | n in TRIO ensures n in Candidates(s, l, TLC) { FieldNode(s, l, n); }
    TrioSize();
  }

  lemma FieldGroups(s: Site, l: Ledger)
    requires IsField(s, l)
    ensures var gs := FreshGroups(s, l, TLC);
      |gs| == 3 && HeadroomSorted(gs) && NoDup(gs) && forall i :: 0 <= i < 3 ==> gs[i].headroom == 2000
  {
    AutoOneNode(s);
    hide FreshGroups, IsCandidate, HeadroomBinding, AutoSite, Unplanned, HeadroomSorted, NoDup, OneNodeFds;
    FieldCandidates(s, l);
    FreshSorted(s, l, TLC);
    var gs := FreshGroups(s, l, TLC);
    forall i | 0 <= i < 3 ensures gs[i].headroom == 2000 {
      assert gs[i] in gs;
      CandidateOnSite(s, l, TLC, gs[i].nodes[0]);
      FieldNode(s, l, gs[i].nodes[0]);
    }
  }

  lemma Selects(gs: seq<FdGroup>, prefer: set<string>)
    requires |gs| == 3 && NoDup(gs) && forall i :: 0 <= i < 3 ==> gs[i].headroom == 2000
    ensures var pick := SelectUniform(gs, 1000, 3, 384, prefer); pick.Tiling? && pick.level == 384 && |pick.chosen| == 3
  {
    assert UniformShare(1000, 3, 384) == 384;
    assert FirstTiling(gs, 1000, 384, 3) == Some(3);
    UI.AllCount(gs, 384);
    PickColocatedExact(gs, 3, 384, prefer);
    hide PickColocated;
  }

  lemma NoDrives(p: PoolKind, cons: Constraints)
    ensures PoolCurrent([], p) == 0 && PoolFds([], p) == [] && PoolAverage([], p) == 0
    ensures PlainCons(cons) ==> CapacityShort(0, 1000, cons)
  {
  }

  lemma FieldDecision(s: Site, l: Ledger)
    requires IsField(s, l)
    ensures var d := DecidePool(s, l, TLC, 1000, 3, 0);
      d.Place? && d.level == 384 && |d.chosen| == 3 && d.route == FreshRoute(false) && AllOnSite(s, d.chosen)
  {
    hide FreshGroups, SelectUniform, IncreaseDecision, ExplicitDecision, PoolCurrent, PoolFds, PoolAverage,
      CapacityShort, AutoSite, Unplanned, AllOnSite;
    FieldGroups(s, l);
    Selects(FreshGroups(s, l, TLC), PreferNodes(l, TLC));
    NoDrives(TLC, s.cons);
    ChosenOnSite(s, l, TLC, 1000, 3, 0);
  }

  /** The ledger once 384 GiB are placed on each node. */
  ghost predicate IsPlaced(s: Site, l: Ledger, l': Ledger) {
    && IsField(s, l) && Tracks(s, l') && l'.growth == map[] && (forall n :: n in l'.created <==> n in TRIO)
    && (forall n :: n in TRIO ==> Fresh(s, l, l', TLC, 384, n)) && PoolTotal(s, l', TLC) == 1152
  }

  lemma NodesAreTrio(s: Site, l: Ledger, nodes: seq<string>)
    requires IsField(s, l) && |nodes| == 3 && Distinct(nodes) && forall i :: 0 <= i < 3 ==> nodes[i] in s.inv
    ensures forall n :: n in nodes <==> n in TRIO
  {
    hide AutoSite, Unplanned;
    DistinctCount(nodes);
    TrioSize();
    assert Elems(nodes) <= TRIO;
    SameSize(Elems(nodes), TRIO);
    assert forall n :: n in nodes <==> n in Elems(nodes);
  }

  lemma SameSize(a: set<string>, b: set<string>)
    requires a <= b && |a| == |b|
    ensures a == b
  {
    assert b == a + (b - a) && |b| == |a| + |b - a|;
  }

  lemma FieldReaches(s: Site, l: Ledger, nodes: seq<string>)
    requires IsField(s, l) && DecidePool(s, l, TLC, 1000, 3, 0).Place? && DecidePool(s, l, TLC, 1000, 3, 0).level == 384
    requires Singletons(s, DecidePool(s, l, TLC, 1000, 3, 0).chosen, nodes) && forall n :: n in nodes <==> n in TRIO
    ensures forall i :: 0 <= i < |nodes| ==>
      HostOn(s.existing, nodes[i]).None? && nodes[i] !in l.created && CanReach(s, l, TLC, nodes[i], 384)
  {
    hide DecidePool, CanReach, HostOn, AutoSite, Unplanned, IsCandidate, HeadroomBinding;
    forall i | 0 <= i < |nodes|
      ensures HostOn(s.existing, nodes[i]).None? && nodes[i] !in l.created && CanReach(s, l, TLC, nodes[i], 384)
    {
      assert nodes[i] in nodes;
      FieldNode(s, l, nodes[i]);
      ChosenNode(s, DecidePool(s, l, TLC, 1000, 3, 0), nodes, nodes[i]);
      DecisionReaches(s, l, TLC, 1000, 3, nodes[i]);
    }
  }

  lemma PlacedTotal(s: Site, l: Ledger, chosen: seq<FdGroup>, nodes: seq<string>)
    requires Tracks(s, l) && s.existing == [] && AllOnSite(s, chosen) && Singletons(s, chosen, nodes)
    requires Unplanned(s, l, TLC)
    requires forall i :: 0 <= i < |nodes| ==> CanReach(s, l, TLC, nodes[i], 384)
    ensures PoolTotal(s, PlaceUniform(s, l, TLC, 384, chosen), TLC) == |nodes| * 384
  {
    hide CanReach, Unplanned, AllOnSite, PlaceUniform, PoolTotal, SumLacking, NoRollback, Untouched;
    PlaceUniformRealizes(s, l, TLC, 384, chosen, nodes);
    UnplannedTotal(s, l, TLC);
    NoDrives(TLC, s.cons);
    AllLacking(s, nodes, 384);
  }

  lemma PlacedOn(s: Site, l: Ledger, chosen: seq<FdGroup>, nodes: seq<string>)
    requires IsField(s, l) && AllOnSite(s, chosen) && Singletons(s, chosen, nodes) && |nodes| == 3
    requires forall n :: n in nodes <==> n in TRIO
    requires forall i :: 0 <= i < |nodes| ==>
      HostOn(s.existing, nodes[i]).None? && nodes[i] !in l.created && CanReach(s, l, TLC, nodes[i], 384)
    ensures IsPlaced(s, l, PlaceUniform(s, l, TLC, 384, chosen))
  {
    hide CanReach, HostOn, AutoSite, Unplanned, AllOnSite, PlaceUniform, PoolTotal, Fresh, Singletons, Node;
    UniformCreates(s, l, TLC, 384, chosen, nodes);
    PlacedTotal(s, l, chosen, nodes);
    var l' := PlaceUniform(s, l, TLC, 384, chosen);
    forall n | n in TRIO ensures Fresh(s, l, l', TLC, 384, n) { assert n in nodes; }
  }

  lemma PlacesOnAll(s: Site, l: Ledger)
    requires IsField(s, l)
    ensures var d := DecidePool(s, l, TLC, 1000, 3, 0);
      d.Place? && d.level == 384 && AllOnSite(s, d.chosen) && IsPlaced(s, l, PlaceUniform(s, l, TLC, 384, d.chosen))
  {
    assert Tracks(s, l) && AutoSite(s);
    hide IsField, DecidePool, CanReach, HostOn, AutoSite, AllOnSite, PlaceUniform, IsPlaced;
    FieldDecision(s, l);
    var nodes := JointFit.DecisionNodes(s, l, TLC, 1000, 3, 0);
    NodesAreTrio(s, l, nodes);
    FieldReaches(s, l, nodes);
    PlacedOn(s, l, DecidePool(s, l, TLC, 1000, 3, 0).chosen, nodes);
  }

  lemma AllLacking(s: Site, nodes: seq<string>, level: nat)
    requires s.existing == []
    ensures SumLacking(s, TLC, nodes, level) == |nodes| * level
  {
    LackingAll(s, TLC, nodes, level);
  }

  lemma PlacedFds(s: Site, l: Ledger, l': Ledger, n: string)
    requires IsPlaced(s, l, l') && n in TRIO
    ensures n in CarryingFds(s, l', TLC)
  {
    Letters();
    hide AutoSite, Unplanned, PoolTotal, Charge;
    assert l'.created[n] == Created(n, Caps(384, 0));
  }

  lemma FieldVerdict(s: Site, l: Ledger, l': Ledger)
    requires IsPlaced(s, l, l')
    ensures Feasibility(s, l', TLC, 1000, 3, true) == None
  {
    hide AutoSite, Unplanned, Fresh, CarryingFds, PoolView, Sums.Total;
    assert CountedSum(s.existing, l', TLC, true) == SumFinal(s.existing, l', TLC) == 0;
    assert CoverTarget(1000, s.cons) == 1000;
    forall n | n in TRIO ensures n in CarryingFds(s, l', TLC) { PlacedFds(s, l, l', n); }
    TrioSize();
    FdSpread.SubsetSize(TRIO, CarryingFds(s, l', TLC));
  }

  /** A greenfield placement that is judged feasible leaves no notes. */
  lemma CleanPool(s: Site, l: Ledger, p: PoolKind, desired: int, minFd: int, d: Decision)
    requires Tracks(s, l) && d == DecidePool(s, l, p, desired, minFd, 0) && d.Place? && d.route == FreshRoute(false)
    requires AllOnSite(s, d.chosen)
    requires Feasibility(s, PlaceUniform(s, l, p, d.level, d.chosen), p, desired, minFd, true) == None
    ensures PlanPool(s, PoolState(l, NO_NOTES), p, desired, minFd, 0) ==
      PoolState(PlaceUniform(s, l, p, d.level, d.chosen), NO_NOTES)
  {
    hide DecidePool, PlaceUniform, Feasibility, AllOnSite;
  }

  lemma FieldPool(s: Site, l: Ledger) returns (l': Ledger)
    requires IsField(s, l)
    ensures IsPlaced(s, l, l') && PlanPool(s, PoolState(l, NO_NOTES), TLC, 1000, 3, 0) == PoolState(l', NO_NOTES)
  {
    assert Tracks(s, l);
    hide IsField, IsPlaced, PlaceUniform, DecidePool, Feasibility, AllOnSite, PlanPool;
    PlacesOnAll(s, l);
    FieldDecision(s, l);
    var d := DecidePool(s, l, TLC, 1000, 3, 0);
    l' := PlaceUniform(s, l, TLC, 384, d.chosen);
    FieldVerdict(s, l, l');
    CleanPool(s, l, TLC, 1000, 3, d);
  }

  // ----- emission -----

  lemma {:induction false} PlainCreate(s: Site, l: Ledger, nodes: seq<string>)
    requires Tracks(s, l) && (forall i :: 0 <= i < |nodes| ==> nodes[i] in l.created)
    requires s.cons.maxCoresPerContainer <= 0
    ensures var r := EmitCreate(s, l, nodes, 0); r.failure.None? && r.budgets == l.budgets && |r.list| == |nodes|
  {
    if nodes != [] {
      PlainCreate(s, l, nodes[..|nodes| - 1]);
      var node := nodes[|nodes| - 1];
      if node in s.inv { assert l.budgets[node := l.budgets[node]] == l.budgets; }
    }
  }

  lemma {:induction false} OneCoreEach(create: seq<NewContainer>)
    requires forall i :: 0 <= i < |create| ==> create[i].caps == Caps(384, 0) && create[i].numCores == 1
    ensures NewTlcCores(create, CONS) == |create| && NewQlcCores(create, CONS) == 0
  {
    if create != [] { OneCoreEach(create[..|create| - 1]); }
  }

  lemma NewEntries(s: Site, l: Ledger, nodes: seq<string>)
    requires Tracks(s, l) && s.cons == CONS && forall i :: 0 <= i < |nodes| ==>
      nodes[i] in l.created && l.created[nodes[i]].caps == Caps(384, 0)
    ensures var r := EmitCreate(s, l, nodes, 0);
      && r.failure.None? && r.budgets == l.budgets
      && NewTlcCores(r.list, CONS) == |nodes| && NewQlcCores(r.list, CONS) == 0
  {
    assert PinCores(Caps(384, 0), 0, CONS) == Pinned(1, 1);
    hide EmitCreate, PinCores, NewTlcCores, NewQlcCores;
    PlainCreate(s, l, nodes);
    CreateEntries(s, l, nodes, 0);
    OneCoreEach(EmitCreate(s, l, nodes, 0).list);
  }

  lemma PlacedRecords(s: Site, l: Ledger, l': Ledger)
    requires IsPlaced(s, l, l')
    ensures Tracks(s, l') && l'.growth == map[]
    ensures var nodes := Recorded(l'.created.Keys);
      |nodes| == 3 && forall i :: 0 <= i < |nodes| ==>
        nodes[i] in l'.created && l'.created[nodes[i]].caps == Caps(384, 0)
  {
    hide AutoSite, Unplanned, PoolTotal, Charge, CP.SortedNames;
    var nodes := Recorded(l'.created.Keys);
    RecordedFacts(l'.created.Keys);
    CG.OrderSize(nodes, TRIO);
    TrioSize();
    forall i | 0 <= i < |nodes| ensures l'.created[nodes[i]].caps == Caps(384, 0) {
      assert nodes[i] in nodes && Fresh(s, l, l', TLC, 384, nodes[i]);
    }
  }

  lemma FieldEmission(s: Site, l: Ledger, l': Ledger)
    requires IsPlaced(s, l, l') && s.cons == CONS
    ensures Tracks(s, l')
    ensures var e := Emit(s, l', 0);
      && e.failure.None? && e.grow == [] && e.budgets == l'.budgets
      && NewTlcCores(e.create, CONS) == 3 && NewQlcCores(e.create, CONS) == 0
  {
    hide IsPlaced, EmitCreate, NewTlcCores, NewQlcCores, CP.SortedNames;
    PlacedRecords(s, l, l');
    NewEntries(s, l', Recorded(l'.created.Keys));
    RecordedFacts(l'.growth.Keys);
    NoElems(Recorded(l'.growth.Keys));
  }

  // ----- compute -----

  const WANT := DesiredCapacity(Caps(1000, 0), 3, 1, 0, 0)

  lemma StillHosts(s: Site, l: Ledger, l': Ledger, n: string)
    requires IsPlaced(s, l, l') && n in TRIO && s.cons == CONS
    ensures CP.On(s, l'.budgets) && CP.Hosts(s, l'.budgets, n, 1, 3000)
  {
    hide AutoSite, Unplanned, PoolTotal;
    var b := l'.budgets[n];
    assert b == Charge(Node(n, n, 2000), InitialBudget(Node(n, n, 2000)), TLC, 384, CONS, true);
    assert b.cores == 62 && b.hugepages == 999_000;
  }

  lemma HugepagesAre(cores: int)
    ensures HugepageSizing.ComputeHugepages(Caps(1000, 0), 3, 1, CONS) == 3000 == CP.HugepagesFor(WANT.raw, CONS)(3, 1)
  {
  }

  /** Three pinned containers that every one of the three nodes can host are the layout. */
  lemma FieldLayout(s: Site, b: CP.Budgets, desired: DesiredCapacity, hp: int, t: int)
    requires CP.On(s, b) && LikeCons(s.cons) && TRIO <= s.inv.Keys
    requires desired.computeContainers == 3 && desired.computeCores >= 1 && t <= 3 * desired.computeCores
    requires hp == HugepageSizing.ComputeHugepages(desired.raw, 3, desired.computeCores, s.cons)
    requires forall n :: n in TRIO ==> CP.Hosts(s, b, n, desired.computeCores, hp)
    ensures CP.DerivedLayout(s, b, desired, 3, [], TRIO, t) == CL.Layout(3, desired.computeCores)
  {
    var cores := desired.computeCores;
    assert CP.HugepagesFor(desired.raw, s.cons)(3, cores) == hp;
    hide CP.Hosts, CP.CoreHeadrooms, CP.HugepageHeadrooms, CP.ComputeNodes, CL.Fitting, CL.TopNMin, CP.HugepagesFor,
      HugepageSizing.ComputeHugepages;
    TrioSize();
    var nodes := CP.ComputeNodes(s, TRIO);
    var hs, hps := CP.CoreHeadrooms(s, b, [], nodes), CP.HugepageHeadrooms(s, b, [], nodes);
    FitsEverywhere(s, b, TRIO, cores, hp);
    FitsNarrow(hs, Some(hps), cores, hp);
    CL.TopNMinCounts(hs, 3, cores, 0);
  }

  lemma FitsNarrow(hs: seq<int>, hps: Option<seq<int>>, cores: int, hp: int)
    ensures CL.Fitting(hs, hps, cores, hp, 0) <= CL.Fitting(hs, None, cores, 0, 0)
  {
    CL.FittingNarrows(hs, hps, cores, hp, 0, |hs|);
  }

  lemma FieldFree(s: Site, b: CP.Budgets, cores: int, hp: int)
    requires CP.On(s, b)
    requires (forall n :: n in TRIO ==> CP.Hosts(s, b, n, cores, hp) && n in s.inv && s.inv[n].fdValue == n)
    ensures CG.FreeNodes(s, b, CP.Pinned(s, []), TRIO, cores, hp) == TRIO && CG.FdsOf(s, TRIO) == TRIO
  {
    hide CP.Hosts;
    assert CP.Pinned(s, []) == {};
    forall f | f in TRIO ensures f in CG.FdsOf(s, TRIO) { assert s.inv[f].fdValue == f; }
  }

  /** Three pinned containers are placed, if the three nodes can host them and are failure domains of their own. */
  lemma FieldCompute(s: Site, b: CP.Budgets, desired: DesiredCapacity, hp: int, t: int)
    requires CP.On(s, b) && LikeCons(s.cons) && TRIO <= s.inv.Keys && desired.raw.tlc >= 0 && desired.raw.qlc >= 0
    requires desired.computeContainers == 3 && desired.computeCores >= 1 && 0 <= t <= 3 * desired.computeCores
    requires hp == HugepageSizing.ComputeHugepages(desired.raw, 3, desired.computeCores, s.cons)
    requires forall n :: n in TRIO ==> CP.Hosts(s, b, n, desired.computeCores, hp) && s.inv[n].fdValue == n
    ensures CP.PlanCompute(s, b, desired, 3, [], TRIO, t).Placed?
  {
    hide CP.Hosts, CP.DerivedLayout, CG.FreeNodes, CG.FdsOf, CP.Size, CP.PlanCompute, CP.Pinned,
      HugepageSizing.ComputeHugepages;
    var cores := desired.computeCores;
    FieldLayout(s, b, desired, hp, t);
    FieldFree(s, b, cores, hp);
    TrioSize();
    assert CP.LayOut(s, b, [], cores, hp) == CP.LayState(b, []) && CP.LaidCores([]) == 0;
    assert CP.CoveredFds(s, []) == {} && {} + TRIO == TRIO;
    assert CeilDiv(3 * cores, cores) == 3 by {
      CeilDivAdjoint(3 * cores, cores, 3);
      CeilDivAdjoint(3 * cores, cores, 2);
    }
    CG.SpanExact(s, b, desired, 3, [], TRIO, t);
    CG.NewComputeGuardDead(s, b, desired, 3, [], TRIO, t);
  }

  // ----- the whole plan -----

  /** With no QLC asked for, the TLC pool is planned first and the QLC pool is left alone. */
  lemma OnePool(s: Site, raw: Caps, minFd: int, pin: int, st: PoolState)
    requires raw.qlc == 0 && st == PlanPool(s, PoolState(Opening(s.inv), NO_NOTES), TLC, raw.tlc, minFd, pin)
    ensures PlanPools(s, raw, minFd, Caps(pin, 0)) == st
  {
    assert FirstPool(s, raw) == TLC;
    assert DecidePool(s, st.ledger, QLC, 0, minFd, 0) == Keep;
    hide DecidePool, Realized;
  }

  lemma PlacedTracks(s: Site, l: Ledger, l': Ledger)
    requires IsPlaced(s, l, l')
    ensures Tracks(s, l')
  {
  }

  lemma GreenPools() returns (l': Ledger)
    ensures IsPlaced(Greenfield(2000), Opening(Greenfield(2000).inv), l')
    ensures Tracks(GREEN.Place(), l') && Pools(GREEN, NO_CAPS) == PoolState(l', NO_NOTES)
  {
    var s := Greenfield(2000);
    FieldIs();
    PlaceIs();
    hide IsField, PlanPool, PlanPools, Opening, Three, PR.InventoryMap, IsPlaced, Greenfield;
    l' := FieldPool(s, Opening(s.inv));
    PlacedTracks(s, Opening(s.inv), l');
    OnePool(s, Caps(1000, 0), 3, 0, PoolState(l', NO_NOTES));
  }

  lemma RequiredIs(l: Ledger)
    ensures ExistingTlcCores([], l, 0, CONS) == ExistingQlcCores([], l, 0, CONS) == 0
    ensures RequiredComputeCores(3, 0, false, CONS) == 3
  {
    assert CONS.computeToTlcRatio * 3 as real + CONS.computeToQlcRatio * 0 as real == 0.0;
  }

  lemma FieldComputes(s: Site, l: Ledger, l': Ledger)
    requires IsPlaced(s, l, l') && s.cons == CONS
    ensures CP.On(s, l'.budgets) && TRIO <= s.inv.Keys && CP.PlanCompute(s, l'.budgets, WANT, 3, [], TRIO, 3).Placed?
  {
    hide CP.Hosts, CP.PlanCompute, AutoSite, Unplanned, PoolTotal, Fresh;
    forall n | n in TRIO
      ensures n in s.inv && CP.On(s, l'.budgets) && CP.Hosts(s, l'.budgets, n, 1, 3000) && s.inv[n].fdValue == n {
      StillHosts(s, l, l', n);
    }
    HugepagesAre(1);
    FieldCompute(s, l'.budgets, WANT, 3000, 3);
  }

  lemma GreenCompute(l': Ledger)
    requires IsPlaced(Greenfield(2000), Opening(Greenfield(2000).inv), l')
    ensures l'.budgets.Keys == GREEN.Place().inv.Keys && ComputeOf(GREEN, l'.budgets, 3).Placed?
  {
    hide IsPlaced, CP.PlanCompute, Opening, Three, PR.InventoryMap, CP.EligibleNodes;
    PlaceIs();
    FieldComputes(Greenfield(2000), Opening(Greenfield(2000).inv), l');
  }

  /** A plan that passes the checks, with feasible pools, the pinned count if any and placed compute, is feasible. */
  lemma FeasibleFrom(input: Input, targets: Caps, st: PoolState, required: int)
    requires ProtectionOk(input.scheme, input.cons) && Targets(input.desired, input.scheme.MinFdNum()) == Some(targets)
    requires Tracks(input.Place(), st.ledger) && Pools(input, targets) == st && st.notes.infeasible.None?
    requires input.desired.driveContainers <= 0 ||
      |DistinctDriveFds(input.Place(), st.ledger)| == input.desired.driveContainers
    requires Emit(input.Place(), st.ledger, input.desired.driveCores).failure.None?
    requires var e := Emit(input.Place(), st.ledger, input.desired.driveCores);
      && required == RequiredComputeCores(
           ExistingTlcCores(input.drives, st.ledger, input.desired.driveCores, input.cons) +
             NewTlcCores(e.create, input.cons),
           ExistingQlcCores(input.drives, st.ledger, input.desired.driveCores, input.cons) +
             NewQlcCores(e.create, input.cons),
           false, input.cons)
      && ComputeOf(input, e.budgets, required).Placed?
    ensures PlanCapacity(input).Feasible() && PlanCapacity(input).requiredComputeCores == required
  {
    hide ProtectionOk, Targets, Pools, Emit, ComputeOf, ExistingTlcCores, ExistingQlcCores, NewTlcCores, NewQlcCores,
      RequiredComputeCores, PR.InventoryMap, DistinctDriveFds;
  }

  /** The greenfield plan is feasible. */
  lemma GreenFeasible()
    ensures PlanCapacity(GREEN).Feasible()
  {
    var l' := GreenPools();
    PlaceIs();
    hide IsPlaced, Pools, Emit, ComputeOf, ExistingTlcCores, ExistingQlcCores, NewTlcCores, NewQlcCores,
      RequiredComputeCores, Completed, PlanCapacity, PR.InventoryMap, Three, Opening;
    FieldEmission(Greenfield(2000), Opening(Greenfield(2000).inv), l');
    GreenCompute(l');
    RequiredIs(l');
    FeasibleFrom(GREEN, NO_CAPS, PoolState(l', NO_NOTES), 3);
  }

  /**
   * Whatever names its containers get, planning again for the same 1000 GiB advises to shrink the 1152 that were
   * placed.
   */
  lemma GreenAdvisesShrink(naming: string -> string)
    ensures PlanCapacity(GREEN).Feasible()
    ensures TLC in PlanCapacity(GREEN.(drives := Applied(GREEN.drives, PlanCapacity(GREEN), naming))).notes.shrink
  {
    var s := Greenfield(2000);
    var l := Opening(s.inv);
    var second := GREEN.(drives := Applied(GREEN.drives, PlanCapacity(GREEN), naming));
    GreenFeasible();
    FieldIs();
    PlaceIs();
    FieldDecision(s, l);
    FieldGroups(s, l);
    GreenBefore();
    assert Checked(second);
    hide PlanCapacity, Applied, DecidePool, FreshGroups, Opening, Three, PR.InventoryMap, StateBefore, AutoSite,
      Unplanned;
    FreshAdvisesShrink(GREEN, second, naming, TLC);
    Figures(FreshGroups(s, l, TLC));
  }

  lemma GreenBefore()
    ensures GREEN.Place() == Greenfield(2000) && TargetsOf(GREEN) == NO_CAPS
    ensures StateBefore(GREEN, TLC).ledger == Opening(Greenfield(2000).inv)
  {
    PlaceIs();
    hide PlanPool, PR.InventoryMap, Three;
    assert FirstPool(Greenfield(2000), GREEN.desired.raw) == TLC;
  }

  lemma Figures(gs: seq<FdGroup>)
    requires |gs| == 3 && forall i :: 0 <= i < 3 ==> gs[i].headroom == 2000
    ensures LeastTiling(gs, 1000, 3, 384) == Some(3) && UniformShare(1000, 3, 384) == 384
    ensures OverProvisionCap(1000, CONS) == 100
    ensures PoolCurrent([], TLC) == 0
  {
    assert UniformShare(1000, 3, 384) == 384;
    UI.AllCount(gs, 384);
    hide CountAtLeast;
    assert CanTile(gs, 1000, 384, 3);
    TenPercent(1000);
  }
}
