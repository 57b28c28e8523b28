/** The undo list of placeUniform: reverting recorded moves, oldest first, restores the ledger. */
module Rollback {
  import opened Model
  import opened NodeBudget
  import opened Ledgers
  import opened Placement
  import Ordering

  /** One recorded move: an in-place grow of `grown`, or a create that may have paid the base. */
  datatype Move = Move(node: string, add: int, withBase: bool, grown: Option<ExistingContainer>)

  predicate Known(s: Site, m: Move) {
    m.node in s.inv && HostOn(s.existing, m.node) == m.grown
  }

  ghost predicate Trail(s: Site, moves: seq<Move>) {
    && (forall i :: 0 <= i < |moves| ==> Known(s, moves[i]))
    && forall i, j :: 0 <= i < j < |moves| ==> moves[i].node != moves[j].node
  }

  /** The ledger with m's record bumped by `delta` and its node's budget set to b. */
  function Record(l: Ledger, p: PoolKind, fd: string, m: Move, delta: int, b: Budget): Ledger {
    match m.grown
    case Some(c) =>
      l.(budgets := l.budgets[m.node := b], growth := l.growth[c.name := GrowthOf(l, c).Plus(p, delta)])
    case None =>
      var n := CreatedAt(l, m.node, fd);
      l.(budgets := l.budgets[m.node := b], created := l.created[m.node := n.(caps := n.caps.Plus(p, delta))])
  }

  function Do(s: Site, l: Ledger, p: PoolKind, fd: string, m: Move): Ledger
    requires Tracks(s, l) && Known(s, m)
  {
    Record(l, p, fd, m, m.add, Charge(s.inv[m.node], l.budgets[m.node], p, m.add, s.cons, m.withBase))
  }

  function Undo(s: Site, l: Ledger, p: PoolKind, fd: string, m: Move): Ledger
    requires Tracks(s, l) && Known(s, m)
  {
    Record(l, p, fd, m, -m.add, Refund(s.inv[m.node], l.budgets[m.node], p, m.add, s.cons, m.withBase))
  }

  /** A zero-change record, as an undone move leaves it. */
  function Touch(s: Site, l: Ledger, p: PoolKind, fd: string, m: Move): Ledger
    requires Tracks(s, l) && Known(s, m)
  {
    Record(l, p, fd, m, 0, l.budgets[m.node])
  }

  function DoAll(s: Site, l: Ledger, p: PoolKind, fd: string, moves: seq<Move>): (l': Ledger)
    requires Tracks(s, l) && forall i :: 0 <= i < |moves| ==> Known(s, moves[i])
    ensures Tracks(s, l') && l.growth.Keys <= l'.growth.Keys && l.created.Keys <= l'.created.Keys
  {
    if moves == [] then l
    else Do(s, DoAll(s, l, p, fd, moves[..|moves| - 1]), p, fd, moves[|moves| - 1])
  }

  function UndoAll(s: Site, l: Ledger, p: PoolKind, fd: string, moves: seq<Move>): (l': Ledger)
    requires Tracks(s, l) && forall i :: 0 <= i < |moves| ==> Known(s, moves[i])
    ensures Tracks(s, l')
  {
    if moves == [] then l
    else Undo(s, UndoAll(s, l, p, fd, moves[..|moves| - 1]), p, fd, moves[|moves| - 1])
  }

  lemma EmptyTrail(s: Site, l: Ledger, p: PoolKind, fd: string)
    requires Tracks(s, l)
    ensures Trail(s, []) && DoAll(s, l, p, fd, []) == l
  {
  }

  /** Recording a move on the next host extends the trail. */
  lemma TrailExtends(s: Site, l: Ledger, p: PoolKind, fd: string, nodes: seq<string>, k: nat, moves: seq<Move>, m: Move)
    requires Tracks(s, l) && Trail(s, moves) && Known(s, m)
    requires k < |nodes| && Ordering.Distinct(nodes) && m.node == nodes[k]
    requires forall i :: 0 <= i < |moves| ==> moves[i].node in nodes[..k]
    ensures Trail(s, moves + [m])
    ensures forall i :: 0 <= i < |moves + [m]| ==> (moves + [m])[i].node in nodes[..k + 1]
    ensures DoAll(s, l, p, fd, moves + [m]) == Do(s, DoAll(s, l, p, fd, moves), p, fd, m)
  {
    hide Do, Known;
    assert (moves + [m])[..|moves|] == moves;
    assert nodes[..k + 1] == nodes[..k] + [nodes[k]];
    assert nodes[k] !in nodes[..k];
  }

  lemma UndoDo(s: Site, l: Ledger, p: PoolKind, fd: string, m: Move)
    requires Tracks(s, l) && Known(s, m)
    ensures Undo(s, Do(s, l, p, fd, m), p, fd, m) == Touch(s, l, p, fd, m)
  {
    RefundUndoesCharge(s.inv[m.node], l.budgets[m.node], p, m.add, s.cons, m.withBase);
    hide Charge, Refund, HostOn;
  }

  lemma RecordsCommute(l: Ledger, p: PoolKind, fd: string, a: Move, x: int, ba: Budget, b: Move, y: int, bb: Budget)
    requires a.node != b.node
    requires a.grown.Some? && b.grown.Some? ==> a.grown.value.name != b.grown.value.name
    ensures Record(Record(l, p, fd, a, x, ba), p, fd, b, y, bb) == Record(Record(l, p, fd, b, y, bb), p, fd, a, x, ba)
  {
    UpdatesCommute(l.budgets, a.node, ba, b.node, bb);
    if a.grown.Some? && b.grown.Some? {
      var c, d := a.grown.value, b.grown.value;
      UpdatesCommute(l.growth, c.name, GrowthOf(l, c).Plus(p, x), d.name, GrowthOf(l, d).Plus(p, y));
    }
    if a.grown.None? && b.grown.None? {
      var c, d := CreatedAt(l, a.node, fd), CreatedAt(l, b.node, fd);
      UpdatesCommute(l.created, a.node, c.(caps := c.caps.Plus(p, x)), b.node, d.(caps := d.caps.Plus(p, y)));
    }
  }

  lemma UpdatesCommute<V>(m: map<string, V>, a: string, x: V, b: string, y: V)
    requires a != b
    ensures m[a := x][b := y] == m[b := y][a := x]
  {
  }

  lemma DifferentNames(s: Site, a: Move, b: Move)
    requires UniqueNames(s.existing) && Known(s, a) && Known(s, b) && a.node != b.node
    ensures a.grown.Some? && b.grown.Some? ==> a.grown.value.name != b.grown.value.name
  {
    if a.grown.Some? && b.grown.Some? && a.grown.value.name == b.grown.value.name {
      SameNameSameContainer(s.existing, a.grown.value, b.grown.value);
    }
  }

  lemma UndoCommutesWithDo(s: Site, l: Ledger, p: PoolKind, fd: string, a: Move, b: Move)
    requires Tracks(s, l) && Known(s, a) && Known(s, b) && a.node != b.node && UniqueNames(s.existing)
    ensures Undo(s, Do(s, l, p, fd, a), p, fd, b) == Do(s, Undo(s, l, p, fd, b), p, fd, a)
  {
    DifferentNames(s, a, b);
    hide Charge, Refund, HostOn;
    RecordsCommute(l, p, fd,
      a, a.add, Charge(s.inv[a.node], l.budgets[a.node], p, a.add, s.cons, a.withBase),
      b, -b.add, Refund(s.inv[b.node], l.budgets[b.node], p, b.add, s.cons, b.withBase));
  }

  lemma {:induction false} UndoAllCommutesWithDo(s: Site, l: Ledger, p: PoolKind, fd: string, moves: seq<Move>, a: Move)
    requires Tracks(s, l) && Trail(s, moves) && UniqueNames(s.existing)
    requires Known(s, a) && forall i :: 0 <= i < |moves| ==> moves[i].node != a.node
    ensures UndoAll(s, Do(s, l, p, fd, a), p, fd, moves) == Do(s, UndoAll(s, l, p, fd, moves), p, fd, a)
  {
    if moves != [] {
      var init, last := moves[..|moves| - 1], moves[|moves| - 1];
      UndoAllCommutesWithDo(s, l, p, fd, init, a);
      UndoCommutesWithDo(s, UndoAll(s, l, p, fd, init), p, fd, a, last);
    }
  }

  /** Undoing every move, in the order they were made, equals restoring the ledger from before. */
  lemma {:induction false} UndoAllRestores(s: Site, l: Ledger, p: PoolKind, fd: string, moves: seq<Move>)
    requires Tracks(s, l) && Trail(s, moves) && UniqueNames(s.existing)
    ensures UndoAll(s, DoAll(s, l, p, fd, moves), p, fd, moves) == Restored(s, l, DoAll(s, l, p, fd, moves))
  {
    if moves == [] {
      NothingToRestore(s, l);
    } else {
      var init, last := moves[..|moves| - 1], moves[|moves| - 1];
      UndoAllRestores(s, l, p, fd, init);
      var mid := DoAll(s, l, p, fd, init);
      UndoAllCommutesWithDo(s, mid, p, fd, init, last);
      UndoDo(s, UndoAll(s, mid, p, fd, init), p, fd, last);
      RestoreOneMore(s, l, mid, p, fd, last);
    }
  }

  lemma NothingToRestore(s: Site, l: Ledger)
    ensures Restored(s, l, l) == l
  {
  }

  lemma RestoreOneMore(s: Site, l: Ledger, mid: Ledger, p: PoolKind, fd: string, m: Move)
    requires Tracks(s, l) && Tracks(s, mid) && Known(s, m) && UniqueNames(s.existing)
    requires l.growth.Keys <= mid.growth.Keys && l.created.Keys <= mid.created.Keys
    ensures Tracks(s, Restored(s, l, mid))
    ensures Touch(s, Restored(s, l, mid), p, fd, m) == Restored(s, l, Do(s, mid, p, fd, m))
  {
    if m.grown.Some? { CapsNamedFinds(s.existing, m.grown.value); }
    hide Charge, Refund, HostOn, CapsNamed;
    var a, b := Touch(s, Restored(s, l, mid), p, fd, m), Restored(s, l, Do(s, mid, p, fd, m));
    assert a.budgets == b.budgets;
    assert a.growth == b.growth;
    assert a.created == b.created;
  }
}
