/** Every record is emitted exactly once, with its planned capacity. */
module EmissionFacts {
  import opened Model
  import opened NodeBudget
  import opened Ledgers
  import opened PoolPlanner
  import opened DriveCoreCounts
  import opened Planner
  import opened Ordering
  import CP = ComputePlanner
  import Sums

  lemma RecordedFacts(keys: set<string>)
    ensures Distinct(Recorded(keys)) && forall x :: x in Recorded(keys) <==> x in keys
  {
    CP.SortedNamesFacts(keys);
  }

  /** A complete grow list answers every lookup with the planned capacity and pinned cores. */
  lemma {:induction false} GrowLookup(growth: map<string, Caps>, names: seq<string>, driveCores: int, cons: Constraints,
      name: string)
    requires (forall i :: 0 <= i < |names| ==> names[i] in growth) && Distinct(names)
    requires EmitGrow(growth, names, driveCores, cons).ok
    ensures var list := EmitGrow(growth, names, driveCores, cons).list;
      && |list| == |names| && (forall i :: 0 <= i < |names| ==> list[i].name == names[i])
      && (name !in names ==> FindGrow(list, name).None?)
      && (name in names ==>
           && PinCores(growth[name], driveCores, cons).Pinned?
           && FindGrow(list, name) ==
             Some(ContainerGrowth(name, growth[name], PinCores(growth[name], driveCores, cons).cores)))
  {
    if names != [] {
      var init, last := names[..|names| - 1], names[|names| - 1];
      GrowLookup(growth, init, driveCores, cons, name);
      assert names == init + [last];
      var list := EmitGrow(growth, names, driveCores, cons).list;
      assert list[..|list| - 1] == EmitGrow(growth, init, driveCores, cons).list;
    }
  }

  lemma {:induction false} CreateEntries(s: Site, l: Ledger, nodes: seq<string>, driveCores: int)
    requires Tracks(s, l) && forall i :: 0 <= i < |nodes| ==> nodes[i] in l.created
    requires EmitCreate(s, l, nodes, driveCores).failure.None?
    ensures var list := EmitCreate(s, l, nodes, driveCores).list;
      && |list| == |nodes|
      && forall i :: 0 <= i < |nodes| ==>
           && PinCores(l.created[nodes[i]].caps, driveCores, s.cons).Pinned?
           && list[i] == NewContainer(nodes[i], l.created[nodes[i]].fd, l.created[nodes[i]].caps,
                                      PinCores(l.created[nodes[i]].caps, driveCores, s.cons).cores)
  {
    hide CanReserve, Reserve, PinCores;
    if nodes != [] {
      CreateEntries(s, l, nodes[..|nodes| - 1], driveCores);
    }
  }

  /** Reserving pinned surpluses never overdraws a node. */
  lemma {:induction false} CreateNonNegative(s: Site, l: Ledger, nodes: seq<string>, driveCores: int)
    requires Tracks(s, l) && forall i :: 0 <= i < |nodes| ==> nodes[i] in l.created
    requires PricedConstraints(s.cons) && AllNonNegative(l)
    ensures forall n :: n in s.inv ==> NonNegative(EmitCreate(s, l, nodes, driveCores).budgets[n])
  {
    hide CanReserve, Reserve, PinCores;
    if nodes != [] {
      var init, node := nodes[..|nodes| - 1], nodes[|nodes| - 1];
      CreateNonNegative(s, l, init, driveCores);
      var prior := EmitCreate(s, l, init, driveCores);
      match PinCores(l.created[node].caps, driveCores, s.cons)
      case TooManyCores =>
      case Pinned(cores, derived) =>
        if node in s.inv && CanReserve(s.inv[node], prior.budgets[node], cores - derived, s.cons) {
          ReserveNonNegative(s.inv[node], prior.budgets[node], cores - derived, s.cons);
        }
    }
  }

  // ----- totals of the applied state -----

  lemma {:induction false} PoolCurrentConcat(a: seq<ExistingContainer>, b: seq<ExistingContainer>, p: PoolKind)
    ensures PoolCurrent(a + b, p) == PoolCurrent(a, p) + PoolCurrent(b, p)
  {
    if b == [] {
      assert a + b == a;
    } else {
      assert (a + b)[..|a + b| - 1] == a + b[..|b| - 1];
      PoolCurrentConcat(a, b[..|b| - 1], p);
    }
  }

  lemma {:induction false} CoreSumConcat(a: seq<ExistingContainer>, b: seq<ExistingContainer>)
    ensures CoreSum(a + b) == CoreSum(a) + CoreSum(b)
  {
    if b == [] {
      assert a + b == a;
    } else {
      assert (a + b)[..|a + b| - 1] == a + b[..|b| - 1];
      CoreSumConcat(a, b[..|b| - 1]);
    }
  }

  /** The emission of a ledger, all records accepted. */
  ghost predicate Emitted(s: Site, l: Ledger, driveCores: int, grow: seq<ContainerGrowth>, create: seq<NewContainer>)
    requires Tracks(s, l)
  {
    var e := Emit(s, l, driveCores);
    e.failure.None? && grow == e.grow && create == e.create
  }

  lemma GrownIs(s: Site, l: Ledger, driveCores: int, grow: seq<ContainerGrowth>, create: seq<NewContainer>,
      c: ExistingContainer)
    requires Tracks(s, l) && Emitted(s, l, driveCores, grow, create)
    ensures GrownContainer(c, grow) == c.(caps := GrowthOf(l, c), numCores := FinalCores(l, c, driveCores, s.cons))
    ensures c.name in l.growth ==> PinCores(l.growth[c.name], driveCores, s.cons).Pinned?
  {
    hide EmitGrow, EmitCreate, PinCores;
    RecordedFacts(l.growth.Keys);
    GrowLookup(l.growth, Recorded(l.growth.Keys), driveCores, s.cons, c.name);
  }

  lemma {:induction false} GrownTotals(s: Site, l: Ledger, driveCores: int, grow: seq<ContainerGrowth>,
      create: seq<NewContainer>, drives: seq<ExistingContainer>, p: PoolKind)
    requires Tracks(s, l) && Emitted(s, l, driveCores, grow, create)
    ensures PoolCurrent(GrownAll(drives, grow), p) == SumFinal(drives, l, p)
    ensures CoreSum(GrownAll(drives, grow)) == ExistingCores(drives, l, driveCores, s.cons)
  {
    hide Emitted, FinalCores;
    if drives != [] {
      var init := drives[..|drives| - 1];
      GrownTotals(s, l, driveCores, grow, create, init, p);
      GrownIs(s, l, driveCores, grow, create, drives[|drives| - 1]);
      var all := GrownAll(drives, grow);
      assert all[..|all| - 1] == GrownAll(init, grow);
    }
  }

  lemma {:induction false} LaunchedTotals(create: seq<NewContainer>, naming: string -> string, p: PoolKind)
    ensures PoolCurrent(LaunchedAll(create, naming), p) == NewCap(create, p)
    ensures CoreSum(LaunchedAll(create, naming)) == NewCores(create)
  {
    if create != [] {
      LaunchedTotals(create[..|create| - 1], naming, p);
      var all := LaunchedAll(create, naming);
      assert all[..|all| - 1] == LaunchedAll(create[..|create| - 1], naming);
    }
  }

  function NewCap(create: seq<NewContainer>, p: PoolKind): int {
    if create == [] then 0 else NewCap(create[..|create| - 1], p) + create[|create| - 1].caps.Of(p)
  }

  /** Emitting each record once makes the list total the map total. */
  lemma {:induction false} NewCapIsTotal(m: map<string, int>, create: seq<NewContainer>, nodes: seq<string>,
      p: PoolKind)
    requires |create| == |nodes| && Distinct(nodes) && (forall x :: x in nodes <==> x in m)
    requires forall i :: 0 <= i < |nodes| ==> create[i].caps.Of(p) == m[nodes[i]]
    ensures NewCap(create, p) == Sums.Total(m)
  {
    if nodes == [] {
      assert m.Keys == {};
    } else {
      var init, last := nodes[..|nodes| - 1], nodes[|nodes| - 1];
      assert nodes == init + [last] && last !in init;
      var rest := m - {last};
      assert forall x :: x in init <==> x in rest;
      NewCapIsTotal(rest, create[..|create| - 1], init, p);
      Sums.TotalTake(m, last);
    }
  }

  lemma CreateListed(s: Site, l: Ledger, driveCores: int, grow: seq<ContainerGrowth>, create: seq<NewContainer>)
    requires Tracks(s, l) && Emitted(s, l, driveCores, grow, create)
    ensures var nodes := Recorded(l.created.Keys);
      && |create| == |nodes| && Distinct(nodes) && (forall x :: x in nodes <==> x in l.created)
      && forall i :: 0 <= i < |nodes| ==>
           && PinCores(l.created[nodes[i]].caps, driveCores, s.cons).Pinned?
           && create[i] == NewContainer(nodes[i], l.created[nodes[i]].fd, l.created[nodes[i]].caps,
                                        PinCores(l.created[nodes[i]].caps, driveCores, s.cons).cores)
  {
    hide EmitGrow, EmitCreate, PinCores;
    RecordedFacts(l.created.Keys);
    CreateEntries(s, l, Recorded(l.created.Keys), driveCores);
  }

  /** What the applied containers hold of a pool is what the ledger says, and their cores are the final ones. */
  lemma AppliedTotals(s: Site, l: Ledger, driveCores: int, plan: CapacityPlan, naming: string -> string, p: PoolKind)
    requires Tracks(s, l) && Emitted(s, l, driveCores, plan.grow, plan.create)
    ensures PoolCurrent(Applied(s.existing, plan, naming), p) == PoolTotal(s, l, p)
    ensures CoreSum(Applied(s.existing, plan, naming)) == ExistingCores(s.existing, l, driveCores, s.cons) +
      NewCores(plan.create)
  {
    hide Emitted, PinCores, GrownAll, LaunchedAll, Recorded, PoolCurrent, CoreSum, NewCap, NewCores, ExistingCores,
      SumFinal, Sums.Total;
    GrownTotals(s, l, driveCores, plan.grow, plan.create, s.existing, p);
    LaunchedTotals(plan.create, naming, p);
    CreateListed(s, l, driveCores, plan.grow, plan.create);
    NewCapIsTotal(PoolView(l.created, p), plan.create, Recorded(l.created.Keys), p);
    PoolCurrentConcat(GrownAll(s.existing, plan.grow), LaunchedAll(plan.create, naming), p);
    CoreSumConcat(GrownAll(s.existing, plan.grow), LaunchedAll(plan.create, naming));
  }

  lemma {:induction false} SharesConcat(a: seq<ExistingContainer>, b: seq<ExistingContainer>, cons: Constraints)
    ensures TlcSum(a + b, cons) == TlcSum(a, cons) + TlcSum(b, cons)
    ensures QlcSum(a + b, cons) == QlcSum(a, cons) + QlcSum(b, cons)
  {
    hide TlcCores, QlcCores;
    if b == [] {
      assert a + b == a;
    } else {
      assert (a + b)[..|a + b| - 1] == a + b[..|b| - 1];
      SharesConcat(a, b[..|b| - 1], cons);
    }
  }

  lemma {:induction false} GrownShares(s: Site, l: Ledger, driveCores: int, grow: seq<ContainerGrowth>,
      create: seq<NewContainer>, drives: seq<ExistingContainer>)
    requires Tracks(s, l) && Emitted(s, l, driveCores, grow, create)
    ensures TlcSum(GrownAll(drives, grow), s.cons) == ExistingTlcCores(drives, l, driveCores, s.cons)
    ensures QlcSum(GrownAll(drives, grow), s.cons) == ExistingQlcCores(drives, l, driveCores, s.cons)
  {
    hide Emitted, FinalCores, TlcCores, QlcCores;
    if drives != [] {
      var init := drives[..|drives| - 1];
      GrownShares(s, l, driveCores, grow, create, init);
      GrownIs(s, l, driveCores, grow, create, drives[|drives| - 1]);
      var all := GrownAll(drives, grow);
      assert all[..|all| - 1] == GrownAll(init, grow);
    }
  }

  lemma {:induction false} LaunchedShares(create: seq<NewContainer>, naming: string -> string, cons: Constraints)
    ensures TlcSum(LaunchedAll(create, naming), cons) == NewTlcCores(create, cons)
    ensures QlcSum(LaunchedAll(create, naming), cons) == NewQlcCores(create, cons)
  {
    hide TlcCores, QlcCores;
    if create != [] {
      LaunchedShares(create[..|create| - 1], naming, cons);
      var all := LaunchedAll(create, naming);
      assert all[..|all| - 1] == LaunchedAll(create[..|create| - 1], naming);
    }
  }

  /** The totals of each pool are sums over the applied containers. */
  lemma AppliedShares(s: Site, l: Ledger, driveCores: int, plan: CapacityPlan, naming: string -> string)
    requires Tracks(s, l) && Emitted(s, l, driveCores, plan.grow, plan.create)
    ensures var all := Applied(s.existing, plan, naming);
      && TlcSum(all, s.cons) ==
        ExistingTlcCores(s.existing, l, driveCores, s.cons) + NewTlcCores(plan.create, s.cons)
      && QlcSum(all, s.cons) ==
        ExistingQlcCores(s.existing, l, driveCores, s.cons) + NewQlcCores(plan.create, s.cons)
  {
    hide Emitted, GrownAll, LaunchedAll, TlcSum, QlcSum, ExistingTlcCores, ExistingQlcCores, NewTlcCores, NewQlcCores;
    GrownShares(s, l, driveCores, plan.grow, plan.create, s.existing);
    LaunchedShares(plan.create, naming, s.cons);
    SharesConcat(GrownAll(s.existing, plan.grow), LaunchedAll(plan.create, naming), s.cons);
  }
}
