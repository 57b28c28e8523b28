/** The planner's mutable state, and placeUniform as the source runs it: in place, with an undo list. */
module PlanRuns {
  import opened Arith
  import opened Model
  import opened NodeBudget
  import opened Ledgers
  import opened Placement
  import opened Rollback
  import Ordering

  class PlanRun {
    const states: map<string, NodeState>
    const existing: seq<ExistingContainer>
    const cons: Constraints
    var growth: map<string, Caps>
    var newByNode: map<string, Created>

    /** Each node is tracked under its own name, so no two names share a state. */
    ghost predicate Valid() { forall n :: n in states ==> states[n].nc.nodeName == n }

    ghost function Place(): Site {
      Site(map n | n in states :: states[n].nc, existing, cons)
    }

    ghost function Value(): (l: Ledger)
      reads this, states.Values
      ensures Tracks(Place(), l)
    {
      Ledger(map n | n in states :: states[n].Value(), growth, newByNode)
    }

    /** Fresh state for an inventory; a repeated node name keeps its last entry. */
    constructor (inventory: seq<NodeCapacity>, existing: seq<ExistingContainer>, cons: Constraints)
      ensures Valid() && fresh(states.Values)
      ensures Place() == Site(InventoryMap(inventory), existing, cons)
      ensures Value() == Opening(InventoryMap(inventory))
    {
      var built: map<string, NodeState> := map[];
      for i := 0 to |inventory|
        invariant built.Keys == InventoryMap(inventory[..i]).Keys
        invariant forall n :: n in built ==> fresh(built[n]) && built[n].nc == InventoryMap(inventory[..i])[n]
        invariant forall n :: n in built ==> built[n].Value() == InitialBudget(built[n].nc) && built[n].nc.nodeName == n
      {
        var ns := new NodeState(inventory[i]);
        built := built[inventory[i].nodeName := ns];
        assert inventory[..i + 1][..i] == inventory[..i];
      }
      assert inventory[..|inventory|] == inventory;
      this.states := built;
      this.existing := existing;
      this.cons := cons;
      this.growth := map[];
      this.newByNode := map[];
    }

    method Consume(node: string, p: PoolKind, g: int, includeBase: bool)
      requires Valid() && node in states
      modifies states[node]
      ensures Value() == old(Value()).(budgets :=
        old(Value()).budgets[node := Charge(states[node].nc, old(Value()).budgets[node], p, g, cons, includeBase)])
    {
      ghost var b := Value().budgets;
      states[node].Consume(p, g, cons, includeBase);
      SetOne(b, node);
    }

    method Unconsume(node: string, p: PoolKind, g: int, includeBase: bool)
      requires Valid() && node in states
      modifies states[node]
      ensures Value() == old(Value()).(budgets :=
        old(Value()).budgets[node := Refund(states[node].nc, old(Value()).budgets[node], p, g, cons, includeBase)])
    {
      ghost var b := Value().budgets;
      states[node].Unconsume(p, g, cons, includeBase);
      SetOne(b, node);
    }

    lemma SetOne(b: map<string, Budget>, node: string)
      requires Valid() && node in states && b.Keys == states.Keys
      requires forall n :: n in states && n != node ==> states[n].Value() == b[n]
      ensures Value().budgets == b[node := states[node].Value()]
    {
    }

    method SetGrowth(name: string, caps: Caps)
      modifies this
      ensures Value() == old(Value()).(growth := old(Value()).growth[name := caps])
    {
      ghost var b := Value().budgets;
      growth := growth[name := caps];
      assert Value().budgets == b;
    }

    method SetNew(node: string, record: Created)
      modifies this
      ensures Value() == old(Value()).(created := old(Value()).created[node := record])
    {
      ghost var b := Value().budgets;
      newByNode := newByNode[node := record];
      assert Value().budgets == b;
    }

    /** existingOnNode: the scheduled container of each node, the last one winning. */
    method IndexHosts() returns (hosts: map<string, ExistingContainer>)
      ensures forall n :: n in hosts <==> HostOn(existing, n).Some?
      ensures forall n :: n in hosts ==> HostOn(existing, n) == Some(hosts[n])
    {
      hosts := map[];
      for i := 0 to |existing|
        invariant forall n :: n in hosts <==> HostOn(existing[..i], n).Some?
        invariant forall n :: n in hosts ==> HostOn(existing[..i], n) == Some(hosts[n])
      {
        var c := existing[i];
        assert existing[..i + 1][..i] == existing[..i];
        if c.node != "" && !c.unscheduled { hosts := hosts[c.node := c]; }
      }
      assert existing[..|existing|] == existing;
    }

    /** Grow the container on `node` by up to `need`. */
    method GrowHost(c: ExistingContainer, p: PoolKind, node: string, need: int) returns (add: int)
      requires Valid() && node in states && need > 0
      modifies this, states[node]
      ensures add == Max(0, Min(need, Headroom(states[node].nc, old(Value()).budgets[node], p, cons, false)))
      ensures Value() == if add == 0 then old(Value()) else Grown(Place(), old(Value()), p, c, node, add)
    {
      hide Charge, HeadroomBinding;
      var room, _ := states[node].NodeHeadroom(p, cons, false);
      add := Min(need, room);
      if add <= 0 { return 0; }
      var g := if c.name in growth then growth[c.name] else c.caps;
      SetGrowth(c.name, g.Plus(p, add));
      Consume(node, p, add, false);
    }

    /** Create (or top up) a new container on `node` by up to `need`, a whole chunk at least. */
    method CreateHost(p: PoolKind, node: string, fd: string, need: int) returns (add: int, includeBase: bool)
      requires Valid() && node in states && need > 0
      modifies this, states[node]
      ensures includeBase == (node !in old(newByNode))
      ensures var most := Min(need, Headroom(states[node].nc, old(Value()).budgets[node], p, cons, includeBase));
        add == if most <= 0 || most < MinAdd(Place(), old(Value()), p, node) then 0 else most
      ensures Value() == if add == 0 then old(Value()) else Started(Place(), old(Value()), p, node, fd, add)
    {
      hide Charge, HeadroomBinding;
      includeBase := node !in newByNode;
      var room, _ := states[node].NodeHeadroom(p, cons, includeBase);
      if room <= 0 { return 0, includeBase; }
      var minAdd := cons.minChunk;
      if node in newByNode && newByNode[node].caps.Of(p) > 0 { minAdd := 1; }
      add := Min(need, room);
      if add < minAdd { return 0, includeBase; }
      var nn := if node in newByNode then newByNode[node] else Created(fd, NO_CAPS);
      SetNew(node, nn.(caps := nn.caps.Plus(p, add)));
      Consume(node, p, add, includeBase);
    }

    /** One host of a failure domain, and the move to undo if the domain cannot reach its level. */
    method PlaceHost(hosts: map<string, ExistingContainer>, p: PoolKind, node: string, fd: string, share: nat)
      returns (placed: int, made: Option<Move>)
      requires Valid() && node in states
      requires forall n :: n in hosts <==> HostOn(existing, n).Some?
      requires forall n :: n in hosts ==> HostOn(existing, n) == Some(hosts[n])
      modifies this, states[node]
      ensures HostStep(Value(), placed) == Placement.PlaceHost(Place(), old(Value()), p, node, fd, share)
      ensures made.None? ==> Value() == old(Value())
      ensures made.Some? ==>
        made.value.node == node && Known(Place(), made.value) && Value() == Do(Place(), old(Value()), p, fd, made.value)
    {
      hide Charge, HeadroomBinding, HostOn;
      made := None;
      var hasExisting := node in hosts;
      var cur := if hasExisting then hosts[node].caps.Of(p) else 0;
      var need := share - cur;
      if need <= 0 { return Min(cur, share), None; }
      if hasExisting {
        var add := GrowHost(hosts[node], p, node, need);
        if add == 0 { return 0, None; }
        return cur + add, Some(Move(node, add, false, Some(hosts[node])));
      }
      var add, includeBase := CreateHost(p, node, fd, need);
      if add == 0 { return 0, None; }
      return add, Some(Move(node, add, includeBase, None));
    }

    method UndoMove(p: PoolKind, fd: string, m: Move)
      requires Valid() && Known(Place(), m)
      modifies this, states[m.node]
      ensures Value() == Undo(Place(), old(Value()), p, fd, m)
    {
      hide Charge, Refund, HostOn;
      match m.grown {
        case Some(c) =>
          var g := if c.name in growth then growth[c.name] else c.caps;
          SetGrowth(c.name, g.Plus(p, -m.add));
          Unconsume(m.node, p, m.add, m.withBase);
        case None =>
          var nn := if m.node in newByNode then newByNode[m.node] else Created(fd, NO_CAPS);
          SetNew(m.node, nn.(caps := nn.caps.Plus(p, -m.add)));
          Unconsume(m.node, p, m.add, m.withBase);
      }
    }

    method UndoMoves(p: PoolKind, fd: string, moves: seq<Move>)
      requires Valid() && Trail(Place(), moves)
      modifies this, states.Values
      ensures Value() == UndoAll(Place(), old(Value()), p, fd, moves)
    {
      hide Undo, HostOn;
      ghost var after := Value();
      for j := 0 to |moves|
        invariant Value() == UndoAll(Place(), after, p, fd, moves[..j])
      {
        assert moves[..j + 1][..j] == moves[..j];
        UndoMove(p, fd, moves[j]);
      }
      assert moves[..|moves|] == moves;
    }

    /** Place every host of a failure domain, recording the moves made. */
    method PlaceHosts(hosts: map<string, ExistingContainer>, p: PoolKind, target: nat, nodes: seq<string>, fd: string)
      returns (placedFd: int, moves: seq<Move>)
      requires Valid() && 0 < |nodes| && (forall i :: 0 <= i < |nodes| ==> nodes[i] in states)
      requires Ordering.Distinct(nodes)
      requires forall n :: n in hosts <==> HostOn(existing, n).Some?
      requires forall n :: n in hosts ==> HostOn(existing, n) == Some(hosts[n])
      modifies this, states.Values
      ensures HostStep(Value(), placedFd) == Placement.PlaceHosts(Place(), old(Value()), p, nodes, fd, target, |nodes|)
      ensures Trail(Place(), moves) && Value() == DoAll(Place(), old(Value()), p, fd, moves)
    {
      hide Placement.PlaceHost, Placement.PlaceHosts, Do, DoAll, HostOn, Known;
      ghost var s, l := Place(), Value();
      var base: nat, rem: nat := target / |nodes|, target % |nodes|;
      placedFd, moves := 0, [];
      EmptyTrail(s, l, p, fd);
      NoHosts(s, l, p, nodes, fd, target);
      for hi := 0 to |nodes|
        invariant HostStep(Value(), placedFd) == Placement.PlaceHosts(s, l, p, nodes, fd, target, hi)
        invariant Trail(s, moves) && Value() == DoAll(s, l, p, fd, moves)
        invariant forall i :: 0 <= i < |moves| ==> moves[i].node in nodes[..hi]
      {
        var share: nat := base;
        if hi < rem { share := share + 1; }
        NextHost(s, l, p, nodes, fd, target, hi);
        var placed, made := PlaceHost(hosts, p, nodes[hi], fd, share);
        placedFd := placedFd + placed;
        if made.Some? {
          TrailExtends(s, l, p, fd, nodes, hi, moves, made.value);
          moves := moves + [made.value];
        }
      }
    }

    method PlaceFd(hosts: map<string, ExistingContainer>, p: PoolKind, target: nat, g: FdGroup)
      requires Valid() && OnSite(Place(), g) && UniqueNames(existing)
      requires forall n :: n in hosts <==> HostOn(existing, n).Some?
      requires forall n :: n in hosts ==> HostOn(existing, n) == Some(hosts[n])
      modifies this, states.Values
      ensures Value() == Placement.PlaceFd(Place(), old(Value()), p, target, g)
    {
      if |g.nodes| == 0 { return; }
      hide Placement.PlaceHosts, DoAll, UndoAll, HostOn, Restored, Known;
      ghost var s, l := Place(), Value();
      var fd := states[g.nodes[0]].nc.fdValue;
      var placedFd, moves := PlaceHosts(hosts, p, target, g.nodes, fd);
      if placedFd < target {
        UndoAllRestores(s, l, p, fd, moves);
        UndoMoves(p, fd, moves);
      }
    }

    method PlaceUniform(p: PoolKind, target: nat, chosen: seq<FdGroup>)
      requires Valid() && AllOnSite(Place(), chosen) && UniqueNames(existing)
      modifies this, states.Values
      ensures Value() == Placement.PlaceUniform(Place(), old(Value()), p, target, chosen)
    {
      ghost var l := Value();
      var hosts := IndexHosts();
      for i := 0 to |chosen|
        invariant AllOnSite(Place(), chosen[..i])
        invariant Value() == Placement.PlaceUniform(Place(), l, p, target, chosen[..i])
      {
        assert chosen[..i + 1][..i] == chosen[..i];
        PlaceFd(hosts, p, target, chosen[i]);
      }
      assert chosen[..|chosen|] == chosen;
    }
  }

  lemma NoHosts(s: Site, l: Ledger, p: PoolKind, nodes: seq<string>, fd: string, target: nat)
    requires Tracks(s, l) && forall i :: 0 <= i < |nodes| ==> nodes[i] in s.inv
    ensures PlaceHosts(s, l, p, nodes, fd, target, 0) == HostStep(l, 0)
  {
  }

  lemma NextHost(s: Site, l: Ledger, p: PoolKind, nodes: seq<string>, fd: string, target: nat, k: nat)
    requires Tracks(s, l) && k < |nodes| && forall i :: 0 <= i < |nodes| ==> nodes[i] in s.inv
    ensures var share := target / |nodes| + if k < target % |nodes| then 1 else 0;
      var prior := PlaceHosts(s, l, p, nodes, fd, target, k);
      var step := Placement.PlaceHost(s, prior.ledger, p, nodes[k], fd, share);
      PlaceHosts(s, l, p, nodes, fd, target, k + 1) == HostStep(step.ledger, prior.placed + step.placed)
  {
  }

  /** states keyed by node name; a repeated name keeps its last entry. */
  function InventoryMap(inventory: seq<NodeCapacity>): map<string, NodeCapacity> {
    if inventory == [] then map[]
    else InventoryMap(inventory[..|inventory| - 1])[inventory[|inventory| - 1].nodeName := inventory[|inventory| - 1]]
  }

  /** A listed node is known with the figures of its last entry. */
  lemma {:induction false} InventoryLast(inventory: seq<NodeCapacity>, i: nat)
    requires i < |inventory| && forall j :: i < j < |inventory| ==> inventory[j].nodeName != inventory[i].nodeName
    ensures inventory[i].nodeName in InventoryMap(inventory)
    ensures InventoryMap(inventory)[inventory[i].nodeName] == inventory[i]
  {
    if i < |inventory| - 1 { InventoryLast(inventory[..|inventory| - 1], i); }
  }
}
