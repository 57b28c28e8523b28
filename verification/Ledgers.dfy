/** The working state of one planning run: node budgets, growth records and pending new containers. */
module Ledgers {
  import opened Model
  import opened NodeBudget
  import Sums

  datatype Created = Created(fd: string, caps: Caps)

  datatype Ledger = Ledger(
    budgets: map<string, Budget>,
    growth: map<string, Caps>,
    created: map<string, Created>)

  /** What stays fixed during a run. */
  datatype Site = Site(inv: map<string, NodeCapacity>, existing: seq<ExistingContainer>, cons: Constraints)

  ghost predicate Tracks(s: Site, l: Ledger) { l.budgets.Keys == s.inv.Keys }

  ghost predicate AllNonNegative(l: Ledger) {
    forall n :: n in l.budgets ==> NonNegative(l.budgets[n])
  }

  /** Growth records are keyed by container name. */
  ghost predicate UniqueNames(existing: seq<ExistingContainer>) {
    forall i, j :: 0 <= i < j < |existing| ==> existing[i].name != existing[j].name
  }

  // ----- lookups -----

  /** The scheduled drive container on a node; the last one wins. */
  function HostOn(existing: seq<ExistingContainer>, node: string): (h: Option<ExistingContainer>)
    ensures h.Some? ==> h.value in existing && h.value.node == node && !h.value.unscheduled && node != ""
  {
    if existing == [] then None else
      var last := existing[|existing| - 1];
      if last.node == node && node != "" && !last.unscheduled then Some(last)
      else HostOn(existing[..|existing| - 1], node)
  }

  /** Growth on a node goes to the last scheduled container listed there. */
  lemma {:induction false} HostOnLast(existing: seq<ExistingContainer>, i: nat)
    requires i < |existing| && existing[i].node != "" && !existing[i].unscheduled
    requires forall j :: i < j < |existing| ==> existing[j].node != existing[i].node || existing[j].unscheduled
    ensures HostOn(existing, existing[i].node) == Some(existing[i])
  {
    if i < |existing| - 1 { HostOnLast(existing[..|existing| - 1], i); }
  }

  /** A container's planned capacity: its growth record if it has one, else what it holds now. */
  function GrowthOf(l: Ledger, c: ExistingContainer): Caps {
    if c.name in l.growth then l.growth[c.name] else c.caps
  }

  function FinalCap(l: Ledger, c: ExistingContainer, p: PoolKind): int { GrowthOf(l, c).Of(p) }

  function CreatedAt(l: Ledger, node: string, fd: string): Created {
    if node in l.created then l.created[node] else Created(fd, NO_CAPS)
  }

  function CreatedCap(l: Ledger, node: string, p: PoolKind): int {
    if node in l.created then l.created[node].caps.Of(p) else 0
  }

  function CapsNamed(existing: seq<ExistingContainer>, name: string): Caps {
    if existing == [] then NO_CAPS
    else if existing[|existing| - 1].name == name then existing[|existing| - 1].caps
    else CapsNamed(existing[..|existing| - 1], name)
  }

  lemma {:induction false} CapsNamedFinds(existing: seq<ExistingContainer>, c: ExistingContainer)
    requires UniqueNames(existing) && c in existing
    ensures CapsNamed(existing, c.name) == c.caps
  {
    var init, last := existing[..|existing| - 1], existing[|existing| - 1];
    assert existing == init + [last];
    if c in init { CapsNamedFinds(init, c); }
  }

  lemma SameNameSameContainer(existing: seq<ExistingContainer>, c: ExistingContainer, d: ExistingContainer)
    requires UniqueNames(existing) && c in existing && d in existing && c.name == d.name
    ensures c == d
  {
  }

  // ----- pool totals and the failure domains that carry a pool -----

  ghost function PoolView(created: map<string, Created>, p: PoolKind): map<string, int> {
    map n | n in created :: created[n].caps.Of(p)
  }

  function SumFinal(existing: seq<ExistingContainer>, l: Ledger, p: PoolKind): int {
    if existing == [] then 0
    else SumFinal(existing[..|existing| - 1], l, p) + FinalCap(l, existing[|existing| - 1], p)
  }

  /** poolCurrent: what the existing containers hold today. */
  function PoolCurrent(existing: seq<ExistingContainer>, p: PoolKind): int {
    if existing == [] then 0
    else PoolCurrent(existing[..|existing| - 1], p) + existing[|existing| - 1].caps.Of(p)
  }

  /** Everything the pool holds once the plan is applied. */
  ghost function PoolTotal(s: Site, l: Ledger, p: PoolKind): int {
    SumFinal(s.existing, l, p) + Sums.Total(PoolView(l.created, p))
  }

  function CarryingFds(s: Site, l: Ledger, p: PoolKind): set<string> {
    (set c | c in s.existing && FinalCap(l, c, p) > 0 && c.fdValue != "" :: c.fdValue) +
    (set n | n in l.created && l.created[n].caps.Of(p) > 0 && l.created[n].fd != "" :: l.created[n].fd)
  }

  /** The state every run starts from. */
  function Opening(inv: map<string, NodeCapacity>): Ledger {
    Ledger(map n | n in inv :: InitialBudget(inv[n]), map[], map[])
  }

  // ----- how planning pool p may change the ledger -----

  /**
   * Planning pool p keeps every record, moves no container to another failure domain, never lowers a
   * pool-p record and leaves the other pool's capacities exactly as they were.
   */
  ghost predicate Extends(s: Site, p: PoolKind, l: Ledger, l': Ledger) {
    && l'.budgets.Keys == l.budgets.Keys
    && l.created.Keys <= l'.created.Keys
    && (forall n :: n in l.created ==> l'.created[n].fd == l.created[n].fd)
    && (forall n :: n in l'.created ==>
         CreatedCap(l', n, p.Other()) == CreatedCap(l, n, p.Other()) && CreatedCap(l', n, p) >= CreatedCap(l, n, p))
    && (forall c :: c in s.existing ==>
         FinalCap(l', c, p.Other()) == FinalCap(l, c, p.Other()) && FinalCap(l', c, p) >= FinalCap(l, c, p))
  }

  lemma ExtendsTransitive(s: Site, p: PoolKind, l0: Ledger, l1: Ledger, l2: Ledger)
    requires Extends(s, p, l0, l1) && Extends(s, p, l1, l2)
    ensures Extends(s, p, l0, l2)
  {
  }

  lemma {:induction false} SumFinalCongruent(existing: seq<ExistingContainer>, l: Ledger, l': Ledger, p: PoolKind)
    requires forall c :: c in existing ==> FinalCap(l', c, p) == FinalCap(l, c, p)
    ensures SumFinal(existing, l', p) == SumFinal(existing, l, p)
  {
    if existing != [] { SumFinalCongruent(existing[..|existing| - 1], l, l', p); }
  }

  /** Planning one pool never disturbs the other pool's total or failure domains. */
  lemma OtherPoolUndisturbed(s: Site, p: PoolKind, l: Ledger, l': Ledger)
    requires Extends(s, p, l, l')
    ensures PoolTotal(s, l', p.Other()) == PoolTotal(s, l, p.Other())
    ensures CarryingFds(s, l', p.Other()) == CarryingFds(s, l, p.Other())
  {
    var q := p.Other();
    SumFinalCongruent(s.existing, l, l', q);
    Sums.TotalPadded(PoolView(l.created, q), PoolView(l'.created, q));
    forall fd ensures fd in CarryingFds(s, l', q) <==> fd in CarryingFds(s, l, q) {
      OtherFdsKept(s, p, l, l', fd);
    }
  }

  lemma OtherFdsKept(s: Site, p: PoolKind, l: Ledger, l': Ledger, fd: string)
    requires Extends(s, p, l, l')
    ensures fd in CarryingFds(s, l', p.Other()) <==> fd in CarryingFds(s, l, p.Other())
  {
    var q := p.Other();
    if fd in CarryingFds(s, l', q) &&
      fd !in (set c | c in s.existing && FinalCap(l, c, q) > 0 && c.fdValue != "" :: c.fdValue) {
      var n :| n in l'.created && l'.created[n].caps.Of(q) > 0 && l'.created[n].fd == fd;
      assert CreatedCap(l', n, q) == CreatedCap(l, n, q);
      assert n in l.created;
    }
    if fd in CarryingFds(s, l, q) &&
      fd !in (set c | c in s.existing && FinalCap(l', c, q) > 0 && c.fdValue != "" :: c.fdValue) {
      var n :| n in l.created && l.created[n].caps.Of(q) > 0 && l.created[n].fd == fd;
      assert CreatedCap(l', n, q) == CreatedCap(l, n, q);
    }
  }
}
