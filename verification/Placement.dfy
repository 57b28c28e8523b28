/** placeUniform: make each chosen failure domain hold exactly T of a pool, or leave it as it was. */
module Placement {
  import opened Arith
  import opened Model
  import opened NodeBudget
  import opened Ledgers
  import Ordering
  import Sums

  /** A failure domain's candidate nodes, best headroom first, and their aggregate headroom. */
  datatype FdGroup = FdGroup(nodes: seq<string>, headroom: int, hasDeleting: bool, colocated: bool)

  ghost predicate OnSite(s: Site, g: FdGroup) {
    (forall i :: 0 <= i < |g.nodes| ==> g.nodes[i] in s.inv) && Ordering.Distinct(g.nodes)
  }

  ghost predicate AllOnSite(s: Site, gs: seq<FdGroup>) { forall i :: 0 <= i < |gs| ==> OnSite(s, gs[i]) }

  // ----- the even split -----

  /** Host i's share of target over n hosts: the first target % n hosts take one GiB more. */
  function Share(target: nat, n: nat, i: nat): nat
    requires n > 0
  {
    target / n + if i < target % n then 1 else 0
  }

  function SumShares(target: nat, n: nat, k: nat): nat
    requires n > 0
  {
    if k == 0 then 0 else SumShares(target, n, k - 1) + Share(target, n, k - 1)
  }

  lemma {:induction false} PartialShares(target: nat, n: nat, k: nat)
    requires n > 0
    ensures SumShares(target, n, k) == k * (target / n) + Min(k, target % n)
  {
    if k > 0 {
      PartialShares(target, n, k - 1);
      assert k * (target / n) == (k - 1) * (target / n) + target / n;
    }
  }

  /** The shares add up to exactly the target and differ by at most one. */
  lemma SharesExact(target: nat, n: nat)
    requires n > 0
    ensures SumShares(target, n, n) == target
    ensures forall i: nat, j: nat :: i < n && j < n ==> Share(target, n, i) <= Share(target, n, j) + 1
    ensures forall i: nat, j: nat :: i < j < n ==> Share(target, n, i) >= Share(target, n, j)
  {
    PartialShares(target, n, n);
  }

  // ----- one host -----

  /** The ledger after a host, and how much of its share the host now holds. */
  datatype HostStep = HostStep(ledger: Ledger, placed: int)

  function Grown(s: Site, l: Ledger, p: PoolKind, c: ExistingContainer, node: string, add: int): Ledger
    requires node in l.budgets && node in s.inv
  {
    l.(growth := l.growth[c.name := GrowthOf(l, c).Plus(p, add)],
       budgets := l.budgets[node := Charge(s.inv[node], l.budgets[node], p, add, s.cons, false)])
  }

  function Started(s: Site, l: Ledger, p: PoolKind, node: string, fd: string, add: int): Ledger
    requires node in l.budgets && node in s.inv
  {
    var n := CreatedAt(l, node, fd);
    l.(created := l.created[node := n.(caps := n.caps.Plus(p, add))],
       budgets := l.budgets[node := Charge(s.inv[node], l.budgets[node], p, add, s.cons, node !in l.created)])
  }

  /** The least a create may add: a whole chunk, unless this pool already has a container there. */
  function MinAdd(s: Site, l: Ledger, p: PoolKind, node: string): int {
    if CreatedCap(l, node, p) > 0 then 1 else s.cons.minChunk
  }

  function PlaceHost(s: Site, l: Ledger, p: PoolKind, node: string, fd: string, share: nat): (r: HostStep)
    requires Tracks(s, l) && node in s.inv
    ensures Tracks(s, r.ledger)
  {
    match HostOn(s.existing, node)
    case Some(c) =>
      var cur := c.caps.Of(p);
      var add := Min(share - cur, Headroom(s.inv[node], l.budgets[node], p, s.cons, false));
      if share - cur <= 0 then HostStep(l, Min(cur, share))
      else if add <= 0 then HostStep(l, 0)
      else HostStep(Grown(s, l, p, c, node, add), cur + add)
    case None =>
      var room := Headroom(s.inv[node], l.budgets[node], p, s.cons, node !in l.created);
      var add := Min(share, room);
      if share == 0 || room <= 0 || add < MinAdd(s, l, p, node) then HostStep(l, 0)
      else HostStep(Started(s, l, p, node, fd, add), add)
  }

  // ----- one failure domain -----

  function PlaceHosts(s: Site, l: Ledger, p: PoolKind, nodes: seq<string>, fd: string, target: nat,
    k: nat): (r: HostStep)
    requires Tracks(s, l) && k <= |nodes| && forall i :: 0 <= i < |nodes| ==> nodes[i] in s.inv
    ensures Tracks(s, r.ledger)
  {
    if k == 0 then HostStep(l, 0) else
      var prior := PlaceHosts(s, l, p, nodes, fd, target, k - 1);
      var step := PlaceHost(s, prior.ledger, p, nodes[k - 1], fd, Share(target, |nodes|, k - 1));
      HostStep(step.ledger, prior.placed + step.placed)
  }

  /**
   * What a rollback leaves behind: budgets and capacities as they were before, and a zero-change record
   * for every container the attempt touched first.
   */
  function Restored(s: Site, before: Ledger, after: Ledger): Ledger {
    Ledger(
      before.budgets,
      map k | k in after.growth :: if k in before.growth then before.growth[k] else CapsNamed(s.existing, k),
      map n | n in after.created :: if n in before.created then before.created[n]
        else Created(after.created[n].fd, NO_CAPS))
  }

  function PlaceFd(s: Site, l: Ledger, p: PoolKind, target: nat, g: FdGroup): (l': Ledger)
    requires Tracks(s, l) && OnSite(s, g)
    ensures Tracks(s, l')
  {
    if g.nodes == [] then l else
      var r := PlaceHosts(s, l, p, g.nodes, s.inv[g.nodes[0]].fdValue, target, |g.nodes|);
      if r.placed < target then Restored(s, l, r.ledger) else r.ledger
  }

  function PlaceUniform(s: Site, l: Ledger, p: PoolKind, target: nat, chosen: seq<FdGroup>): (l': Ledger)
    requires Tracks(s, l) && AllOnSite(s, chosen)
    ensures Tracks(s, l')
  {
    if chosen == [] then l
    else PlaceFd(s, PlaceUniform(s, l, p, target, chosen[..|chosen| - 1]), p, target, chosen[|chosen| - 1])
  }

  // ----- what every placement keeps -----

  lemma GrownExtends(s: Site, l: Ledger, p: PoolKind, c: ExistingContainer, node: string, add: int)
    requires Tracks(s, l) && node in s.inv && UniqueNames(s.existing) && c in s.existing && add >= 0
    ensures Extends(s, p, l, Grown(s, l, p, c, node, add))
  {
    var l' := Grown(s, l, p, c, node, add);
    forall d | d in s.existing
      ensures FinalCap(l', d, p.Other()) == FinalCap(l, d, p.Other()) && FinalCap(l', d, p) >= FinalCap(l, d, p)
    {
      if d.name == c.name { SameNameSameContainer(s.existing, c, d); }
    }
  }

  lemma StartedExtends(s: Site, l: Ledger, p: PoolKind, node: string, fd: string, add: int)
    requires Tracks(s, l) && node in s.inv && add >= 0
    ensures Extends(s, p, l, Started(s, l, p, node, fd, add))
  {
  }

  /** What PlaceHost adds: zero when it leaves the ledger alone. */
  function HostAdd(s: Site, l: Ledger, p: PoolKind, node: string, share: nat): int
    requires Tracks(s, l) && node in s.inv
  {
    match HostOn(s.existing, node)
    case Some(c) =>
      Max(0, Min(share - c.caps.Of(p), Headroom(s.inv[node], l.budgets[node], p, s.cons, false)))
    case None =>
      var add := Min(share, Headroom(s.inv[node], l.budgets[node], p, s.cons, node !in l.created));
      if add <= 0 || add < MinAdd(s, l, p, node) then 0 else add
  }

  /** PlaceHost either leaves the ledger alone or applies one grow or one create of HostAdd. */
  lemma HostCases(s: Site, l: Ledger, p: PoolKind, node: string, fd: string, share: nat)
    requires Tracks(s, l) && node in s.inv
    ensures var l', add := PlaceHost(s, l, p, node, fd, share).ledger, HostAdd(s, l, p, node, share);
      match HostOn(s.existing, node)
      case Some(c) => l' == if add == 0 then l else Grown(s, l, p, c, node, add)
      case None => l' == if add == 0 then l else Started(s, l, p, node, fd, add)
    ensures 0 <= HostAdd(s, l, p, node, share)
      <= Max(0, Headroom(s.inv[node], l.budgets[node], p, s.cons, HostOn(s.existing, node).None? && node !in l.created))
  {
  }

  lemma HostExtends(s: Site, l: Ledger, p: PoolKind, node: string, fd: string, share: nat)
    requires Tracks(s, l) && node in s.inv && UniqueNames(s.existing)
    ensures Extends(s, p, l, PlaceHost(s, l, p, node, fd, share).ledger)
  {
    HostCases(s, l, p, node, fd, share);
    var add := HostAdd(s, l, p, node, share);
    match HostOn(s.existing, node)
    case Some(c) => GrownExtends(s, l, p, c, node, add);
    case None => StartedExtends(s, l, p, node, fd, add);
  }

  lemma HostNonNegative(s: Site, l: Ledger, p: PoolKind, node: string, fd: string, share: nat)
    requires Tracks(s, l) && node in s.inv && PricedConstraints(s.cons) && AllNonNegative(l)
    ensures AllNonNegative(PlaceHost(s, l, p, node, fd, share).ledger)
  {
    HostCases(s, l, p, node, fd, share);
    var add := HostAdd(s, l, p, node, share);
    if add > 0 {
      ChargeNonNegative(s.inv[node], l.budgets[node], p, add, s.cons, HostOn(s.existing, node).None? &&
        node !in l.created);
    }
  }

  lemma {:induction false} HostsKeep(s: Site, l: Ledger, p: PoolKind, nodes: seq<string>, fd: string, target: nat,
      k: nat)
    requires Tracks(s, l) && k <= |nodes| && forall i :: 0 <= i < |nodes| ==> nodes[i] in s.inv
    requires UniqueNames(s.existing)
    ensures Extends(s, p, l, PlaceHosts(s, l, p, nodes, fd, target, k).ledger)
    ensures PricedConstraints(s.cons) && AllNonNegative(l) ==>
      AllNonNegative(PlaceHosts(s, l, p, nodes, fd, target, k).ledger)
  {
    if k > 0 {
      HostsKeep(s, l, p, nodes, fd, target, k - 1);
      var prior := PlaceHosts(s, l, p, nodes, fd, target, k - 1).ledger;
      var share := Share(target, |nodes|, k - 1);
      HostExtends(s, prior, p, nodes[k - 1], fd, share);
      if PricedConstraints(s.cons) && AllNonNegative(l) { HostNonNegative(s, prior, p, nodes[k - 1], fd, share); }
      ExtendsTransitive(s, p, l, prior, PlaceHost(s, prior, p, nodes[k - 1], fd, share).ledger);
    }
  }

  /** A rolled back failure domain leaves every budget and every capacity as it was. */
  lemma RestoredIsBefore(s: Site, p: PoolKind, before: Ledger, after: Ledger)
    requires Extends(s, p, before, after) && UniqueNames(s.existing)
    requires forall k :: k in before.growth ==> k in after.growth
    ensures Restored(s, before, after).budgets == before.budgets
    ensures forall c, q :: c in s.existing ==> FinalCap(Restored(s, before, after), c, q) == FinalCap(before, c, q)
    ensures forall n, q :: CreatedCap(Restored(s, before, after), n, q) == CreatedCap(before, n, q)
    ensures Extends(s, p, before, Restored(s, before, after))
  {
    forall c | c in s.existing ensures CapsNamed(s.existing, c.name) == c.caps { CapsNamedFinds(s.existing, c); }
  }

  lemma {:induction false} HostsKeepRecords(s: Site, l: Ledger, p: PoolKind, nodes: seq<string>, fd: string,
      target: nat, k: nat)
    requires Tracks(s, l) && k <= |nodes| && forall i :: 0 <= i < |nodes| ==> nodes[i] in s.inv
    ensures l.growth.Keys <= PlaceHosts(s, l, p, nodes, fd, target, k).ledger.growth.Keys
    ensures l.created.Keys <= PlaceHosts(s, l, p, nodes, fd, target, k).ledger.created.Keys
  {
    if k > 0 {
      HostsKeepRecords(s, l, p, nodes, fd, target, k - 1);
      var prior, share := PlaceHosts(s, l, p, nodes, fd, target, k - 1).ledger, Share(target, |nodes|, k - 1);
      HostCases(s, prior, p, nodes[k - 1], fd, share);
      hide PlaceHost, Share, HostAdd, HostOn, Charge;
    }
  }

  lemma FdKeeps(s: Site, l: Ledger, p: PoolKind, target: nat, g: FdGroup)
    requires Tracks(s, l) && OnSite(s, g) && UniqueNames(s.existing)
    ensures Extends(s, p, l, PlaceFd(s, l, p, target, g))
    ensures PricedConstraints(s.cons) && AllNonNegative(l) ==> AllNonNegative(PlaceFd(s, l, p, target, g))
  {
    if g.nodes != [] {
      var fd := s.inv[g.nodes[0]].fdValue;
      HostsKeep(s, l, p, g.nodes, fd, target, |g.nodes|);
      HostsKeepRecords(s, l, p, g.nodes, fd, target, |g.nodes|);
      RestoredIsBefore(s, p, l, PlaceHosts(s, l, p, g.nodes, fd, target, |g.nodes|).ledger);
    }
  }

  /** Whatever is placed or rolled back, placement only extends the ledger and never overdraws a node. */
  lemma {:induction false} PlaceUniformKeeps(s: Site, l: Ledger, p: PoolKind, target: nat, chosen: seq<FdGroup>)
    requires Tracks(s, l) && AllOnSite(s, chosen) && UniqueNames(s.existing)
    ensures Extends(s, p, l, PlaceUniform(s, l, p, target, chosen))
    ensures PricedConstraints(s.cons) && AllNonNegative(l) ==> AllNonNegative(PlaceUniform(s, l, p, target, chosen))
  {
    if chosen != [] {
      var init := chosen[..|chosen| - 1];
      PlaceUniformKeeps(s, l, p, target, init);
      var mid := PlaceUniform(s, l, p, target, init);
      FdKeeps(s, mid, p, target, chosen[|chosen| - 1]);
      ExtendsTransitive(s, p, l, mid, PlaceUniform(s, l, p, target, chosen));
    }
  }

  // ----- all or nothing -----

  ghost predicate NonNegativeDrives(existing: seq<ExistingContainer>) {
    forall c :: c in existing ==> c.caps.tlc >= 0 && c.caps.qlc >= 0
  }

  /** Pool-p capacity an existing container already holds on the node. */
  function NodeCur(s: Site, node: string, p: PoolKind): int {
    match HostOn(s.existing, node) case Some(c) => c.caps.Of(p) case None => 0
  }

  /** Planned pool-p capacity of the container a node carries, existing or new. */
  function NodePool(s: Site, l: Ledger, node: string, p: PoolKind): int {
    match HostOn(s.existing, node) case Some(c) => FinalCap(l, c, p) case None => CreatedCap(l, node, p)
  }

  /** The node's record rose by exactly what it lacked toward its share. */
  predicate Filled(s: Site, l: Ledger, l': Ledger, p: PoolKind, node: string, share: nat) {
    NodePool(s, l', node, p) == NodePool(s, l, node, p) + Max(0, share - NodeCur(s, node, p))
  }

  ghost predicate Untouched(s: Site, l: Ledger, l': Ledger, node: string)
    requires Tracks(s, l) && Tracks(s, l')
  {
    && (node in s.inv ==> l'.budgets[node] == l.budgets[node])
    && (node in l'.created <==> node in l.created)
    && (node in l.created ==> l'.created[node] == l.created[node])
    && (HostOn(s.existing, node).Some? ==>
         var c := HostOn(s.existing, node).value;
         (c.name in l'.growth <==> c.name in l.growth) && GrowthOf(l', c) == GrowthOf(l, c))
  }

  lemma HostLocal(s: Site, l: Ledger, p: PoolKind, node: string, fd: string, share: nat, m: string)
    requires Tracks(s, l) && node in s.inv && UniqueNames(s.existing) && m != node
    ensures Untouched(s, l, PlaceHost(s, l, p, node, fd, share).ledger, m)
  {
    HostCases(s, l, p, node, fd, share);
    if HostOn(s.existing, node).Some? && HostOn(s.existing, m).Some? {
      var c, d := HostOn(s.existing, node).value, HostOn(s.existing, m).value;
      if c.name == d.name { SameNameSameContainer(s.existing, c, d); }
    }
  }

  /** A host never holds more than its share counts, and holds all of it only by being filled. */
  lemma HostFilled(s: Site, l: Ledger, p: PoolKind, node: string, fd: string, share: nat)
    requires Tracks(s, l) && node in s.inv && UniqueNames(s.existing) && NonNegativeDrives(s.existing)
    ensures PlaceHost(s, l, p, node, fd, share).placed <= share
    ensures PlaceHost(s, l, p, node, fd, share).placed == share ==>
      Filled(s, l, PlaceHost(s, l, p, node, fd, share).ledger, p, node, share)
  {
    HostCases(s, l, p, node, fd, share);
    HostOwn(s, l, p, node, fd, HostAdd(s, l, p, node, share));
  }

  lemma HostOwn(s: Site, l: Ledger, p: PoolKind, node: string, fd: string, add: int)
    requires Tracks(s, l) && node in s.inv
    ensures HostOn(s.existing, node).Some? ==>
      NodePool(s, Grown(s, l, p, HostOn(s.existing, node).value, node, add), node, p) == NodePool(s, l, node, p) + add
    ensures HostOn(s.existing, node).None? ==>
      NodePool(s, Started(s, l, p, node, fd, add), node, p) == NodePool(s, l, node, p) + add
  {
  }

  lemma UntouchedTransitive(s: Site, l0: Ledger, l1: Ledger, l2: Ledger, m: string)
    requires Tracks(s, l0) && Tracks(s, l1) && Tracks(s, l2)
    requires Untouched(s, l0, l1, m) && Untouched(s, l1, l2, m)
    ensures Untouched(s, l0, l2, m)
  {
  }

  lemma UntouchedPool(s: Site, l: Ledger, l': Ledger, m: string, p: PoolKind)
    requires Tracks(s, l) && Tracks(s, l') && Untouched(s, l, l', m)
    ensures NodePool(s, l', m, p) == NodePool(s, l, m, p)
  {
  }

  lemma {:induction false} HostsLocal(
      s: Site, l: Ledger, p: PoolKind, nodes: seq<string>, fd: string, target: nat, k: nat, m: string)
    requires Tracks(s, l) && k <= |nodes| && forall i :: 0 <= i < |nodes| ==> nodes[i] in s.inv
    requires UniqueNames(s.existing) && m !in nodes[..k]
    ensures Untouched(s, l, PlaceHosts(s, l, p, nodes, fd, target, k).ledger, m)
  {
    if k > 0 {
      assert nodes[..k] == nodes[..k - 1] + [nodes[k - 1]];
      HostsLocal(s, l, p, nodes, fd, target, k - 1, m);
      var prior := PlaceHosts(s, l, p, nodes, fd, target, k - 1).ledger;
      HostLocal(s, prior, p, nodes[k - 1], fd, Share(target, |nodes|, k - 1), m);
      UntouchedTransitive(s, l, prior, PlaceHosts(s, l, p, nodes, fd, target, k).ledger, m);
    }
  }

  lemma HostsLocalPool(
      s: Site, l: Ledger, p: PoolKind, nodes: seq<string>, fd: string, target: nat, k: nat, m: string)
    requires Tracks(s, l) && k <= |nodes| && forall i :: 0 <= i < |nodes| ==> nodes[i] in s.inv
    requires UniqueNames(s.existing) && m !in nodes[..k]
    ensures NodePool(s, PlaceHosts(s, l, p, nodes, fd, target, k).ledger, m, p) == NodePool(s, l, m, p)
  {
    HostsLocal(s, l, p, nodes, fd, target, k, m);
    UntouchedPool(s, l, PlaceHosts(s, l, p, nodes, fd, target, k).ledger, m, p);
  }

  lemma HostLocalPool(s: Site, l: Ledger, p: PoolKind, node: string, fd: string, share: nat, m: string)
    requires Tracks(s, l) && node in s.inv && UniqueNames(s.existing) && m != node
    ensures NodePool(s, PlaceHost(s, l, p, node, fd, share).ledger, m, p) == NodePool(s, l, m, p)
  {
    HostLocal(s, l, p, node, fd, share, m);
    UntouchedPool(s, l, PlaceHost(s, l, p, node, fd, share).ledger, m, p);
  }

  /** Reaching the sum of the first k shares means every one of those hosts met its own. */
  lemma {:induction false} HostsBounded(
      s: Site, l: Ledger, p: PoolKind, nodes: seq<string>, fd: string, target: nat, k: nat)
    requires Tracks(s, l) && 0 < |nodes| && k <= |nodes| && forall i :: 0 <= i < |nodes| ==> nodes[i] in s.inv
    requires UniqueNames(s.existing) && NonNegativeDrives(s.existing)
    ensures PlaceHosts(s, l, p, nodes, fd, target, k).placed <= SumShares(target, |nodes|, k)
    ensures k > 0 && PlaceHosts(s, l, p, nodes, fd, target, k).placed == SumShares(target, |nodes|, k) ==>
      && PlaceHosts(s, l, p, nodes, fd, target, k - 1).placed == SumShares(target, |nodes|, k - 1)
      && PlaceHost(s, PlaceHosts(s, l, p, nodes, fd, target, k - 1).ledger, p, nodes[k - 1], fd,
        Share(target, |nodes|, k - 1)).placed
         == Share(target, |nodes|, k - 1)
  {
    if k > 0 {
      HostsBounded(s, l, p, nodes, fd, target, k - 1);
      var prior := PlaceHosts(s, l, p, nodes, fd, target, k - 1);
      HostFilled(s, prior.ledger, p, nodes[k - 1], fd, Share(target, |nodes|, k - 1));
    }
  }

  lemma {:induction false} HostsFilled(
      s: Site, l: Ledger, p: PoolKind, nodes: seq<string>, fd: string, target: nat, k: nat, i: nat)
    requires Tracks(s, l) && i < k <= |nodes| && forall i :: 0 <= i < |nodes| ==> nodes[i] in s.inv
    requires Ordering.Distinct(nodes) && UniqueNames(s.existing) && NonNegativeDrives(s.existing)
    requires PlaceHosts(s, l, p, nodes, fd, target, k).placed == SumShares(target, |nodes|, k)
    ensures Filled(s, l, PlaceHosts(s, l, p, nodes, fd, target, k).ledger, p, nodes[i], Share(target, |nodes|, i))
  {
    hide PlaceHost, NodePool, NodeCur, Share;
    HostsBounded(s, l, p, nodes, fd, target, k);
    var prior := PlaceHosts(s, l, p, nodes, fd, target, k - 1).ledger;
    var share := Share(target, |nodes|, k - 1);
    var after := PlaceHosts(s, l, p, nodes, fd, target, k).ledger;
    assert after == PlaceHost(s, prior, p, nodes[k - 1], fd, share).ledger;
    if i == k - 1 {
      HostFilled(s, prior, p, nodes[i], fd, share);
      HostsLocalPool(s, l, p, nodes, fd, target, k - 1, nodes[i]);
    } else {
      HostsFilled(s, l, p, nodes, fd, target, k - 1, i);
      HostLocalPool(s, prior, p, nodes[k - 1], fd, share, nodes[i]);
      FilledKept(s, l, prior, after, p, nodes[i], Share(target, |nodes|, i));
    }
  }

  lemma FilledKept(s: Site, l: Ledger, l1: Ledger, l2: Ledger, p: PoolKind, node: string, share: nat)
    requires Filled(s, l, l1, p, node, share) && NodePool(s, l2, node, p) == NodePool(s, l1, node, p)
    ensures Filled(s, l, l2, p, node, share)
  {
  }

  /** The node has room for its share: to grow its container that far, or to start one of at least a chunk. */
  predicate HoldsShare(s: Site, l: Ledger, p: PoolKind, node: string, share: nat)
    requires Tracks(s, l) && node in s.inv
  {
    match HostOn(s.existing, node)
    case Some(c) => share - c.caps.Of(p) <= Headroom(s.inv[node], l.budgets[node], p, s.cons, false)
    case None =>
      share == 0 ||
      MinAdd(s, l, p, node) <= share <= Headroom(s.inv[node], l.budgets[node], p, s.cons, node !in l.created)
  }

  lemma HostHolds(s: Site, l: Ledger, p: PoolKind, node: string, fd: string, share: nat)
    requires Tracks(s, l) && node in s.inv && NonNegativeDrives(s.existing)
    ensures PlaceHost(s, l, p, node, fd, share).placed == share <==> HoldsShare(s, l, p, node, share)
  {
  }

  lemma HoldsKept(s: Site, l: Ledger, l': Ledger, p: PoolKind, node: string, share: nat)
    requires Tracks(s, l) && Tracks(s, l') && node in s.inv && Untouched(s, l, l', node)
    ensures HoldsShare(s, l', p, node, share) <==> HoldsShare(s, l, p, node, share)
  {
    hide HeadroomBinding;
  }

  lemma HostsHoldNext(s: Site, l: Ledger, p: PoolKind, nodes: seq<string>, fd: string, target: nat, k: nat)
    requires Tracks(s, l) && k < |nodes| && forall i :: 0 <= i < |nodes| ==> nodes[i] in s.inv
    requires Ordering.Distinct(nodes) && UniqueNames(s.existing) && NonNegativeDrives(s.existing)
    ensures PlaceHosts(s, l, p, nodes, fd, target, k + 1).placed == SumShares(target, |nodes|, k + 1)
      <==> PlaceHosts(s, l, p, nodes, fd, target, k).placed == SumShares(target, |nodes|, k)
           && HoldsShare(s, l, p, nodes[k], Share(target, |nodes|, k))
  {
    hide PlaceHost, Share, HoldsShare, Untouched;
    HostsBounded(s, l, p, nodes, fd, target, k + 1);
    var prior, share := PlaceHosts(s, l, p, nodes, fd, target, k).ledger, Share(target, |nodes|, k);
    HostHolds(s, prior, p, nodes[k], fd, share);
    HostsLocal(s, l, p, nodes, fd, target, k, nodes[k]);
    HoldsKept(s, l, prior, p, nodes[k], share);
  }

  lemma NothingPlaced(s: Site, l: Ledger, p: PoolKind, nodes: seq<string>, fd: string, target: nat)
    requires Tracks(s, l) && 0 < |nodes| && forall i :: 0 <= i < |nodes| ==> nodes[i] in s.inv
    ensures PlaceHosts(s, l, p, nodes, fd, target, 0).placed == SumShares(target, |nodes|, 0)
  {
  }

  /** A whole failure domain is placed exactly when each host, on its own budget, has room for its share. */
  lemma {:induction false} HostsHold(s: Site, l: Ledger, p: PoolKind, nodes: seq<string>, fd: string, target: nat,
      k: nat)
    requires Tracks(s, l) && 0 < |nodes| && k <= |nodes| && forall i :: 0 <= i < |nodes| ==> nodes[i] in s.inv
    requires Ordering.Distinct(nodes) && UniqueNames(s.existing) && NonNegativeDrives(s.existing)
    ensures PlaceHosts(s, l, p, nodes, fd, target, k).placed == SumShares(target, |nodes|, k)
      <==> forall i :: 0 <= i < k ==> HoldsShare(s, l, p, nodes[i], Share(target, |nodes|, i))
  {
    hide PlaceHosts, SumShares, Share, HoldsShare;
    if k == 0 {
      NothingPlaced(s, l, p, nodes, fd, target);
    } else {
      HostsHold(s, l, p, nodes, fd, target, k - 1);
      HostsHoldNext(s, l, p, nodes, fd, target, k - 1);
    }
  }

  /**
   * All or nothing: if every host has room for its even share each record rises by exactly what it lacked and
   * no other node changes; otherwise every budget and every recorded capacity is what it was.
   */
  lemma FdAllOrNothing(s: Site, l: Ledger, p: PoolKind, target: nat, g: FdGroup)
    requires Tracks(s, l) && OnSite(s, g) && g.nodes != []
    requires UniqueNames(s.existing) && NonNegativeDrives(s.existing)
    ensures var l', n := PlaceFd(s, l, p, target, g), |g.nodes|;
      if forall i :: 0 <= i < n ==> HoldsShare(s, l, p, g.nodes[i], Share(target, n, i)) then
        && (forall i :: 0 <= i < n ==> Filled(s, l, l', p, g.nodes[i], Share(target, n, i)))
        && (forall m :: m !in g.nodes ==> Untouched(s, l, l', m))
      else
        && l'.budgets == l.budgets
        && (forall c, q :: c in s.existing ==> FinalCap(l', c, q) == FinalCap(l, c, q))
        && (forall m, q :: CreatedCap(l', m, q) == CreatedCap(l, m, q))
  {
    hide PlaceHosts, HoldsShare, Filled, Share, SumShares, Restored, GrowthOf;
    var fd, n := s.inv[g.nodes[0]].fdValue, |g.nodes|;
    var r := PlaceHosts(s, l, p, g.nodes, fd, target, n);
    SharesExact(target, n);
    HostsHold(s, l, p, g.nodes, fd, target, n);
    HostsBounded(s, l, p, g.nodes, fd, target, n);
    if r.placed == target {
      assert g.nodes[..n] == g.nodes;
      forall m | m !in g.nodes ensures Untouched(s, l, r.ledger, m) { HostsLocal(s, l, p, g.nodes, fd, target, n, m); }
      forall i | 0 <= i < n ensures Filled(s, l, r.ledger, p, g.nodes[i], Share(target, n, i)) {
        HostsFilled(s, l, p, g.nodes, fd, target, n, i);
      }
    } else {
      HostsKeep(s, l, p, g.nodes, fd, target, n);
      HostsKeepRecords(s, l, p, g.nodes, fd, target, n);
      RestoredIsBefore(s, p, l, r.ledger);
    }
  }

  // ----- single-host failure domains: predicted placements are realized -----

  /** The node can be brought to `level` by one grow or one create. */
  predicate CanReach(s: Site, l: Ledger, p: PoolKind, node: string, level: nat)
    requires Tracks(s, l) && node in s.inv
  {
    match HostOn(s.existing, node)
    case Some(c) => level - c.caps.Of(p) <= Headroom(s.inv[node], l.budgets[node], p, s.cons, false)
    case None =>
      level >= MinAdd(s, l, p, node) &&
      level <= Headroom(s.inv[node], l.budgets[node], p, s.cons, node !in l.created)
  }

  function Lacking(s: Site, p: PoolKind, node: string, level: nat): nat { Max(0, level - NodeCur(s, node, p)) }

  ghost predicate Singletons(s: Site, chosen: seq<FdGroup>, nodes: seq<string>) {
    && |chosen| == |nodes| && Ordering.Distinct(nodes)
    && forall i :: 0 <= i < |chosen| ==> chosen[i].nodes == [nodes[i]] && nodes[i] in s.inv
  }

  function SumLacking(s: Site, p: PoolKind, nodes: seq<string>, level: nat): nat {
    if nodes == [] then 0
    else SumLacking(s, p, nodes[..|nodes| - 1], level) + Lacking(s, p, nodes[|nodes| - 1], level)
  }

  lemma {:induction false} SumFinalBump(existing: seq<ExistingContainer>, l: Ledger, l': Ledger, c: ExistingContainer,
      p: PoolKind, add: int)
    requires UniqueNames(existing)
    requires forall d :: d in existing && d.name != c.name ==> FinalCap(l', d, p) == FinalCap(l, d, p)
    requires FinalCap(l', c, p) == FinalCap(l, c, p) + add
    requires forall d :: d in existing && d.name == c.name ==> d == c
    ensures SumFinal(existing, l', p) == SumFinal(existing, l, p) + if c in existing then add else 0
  {
    if existing != [] {
      var init, last := existing[..|existing| - 1], existing[|existing| - 1];
      assert existing == init + [last];
      SumFinalBump(init, l, l', c, p, add);
    }
  }

  lemma PoolTotalGrown(s: Site, l: Ledger, p: PoolKind, c: ExistingContainer, node: string, add: int)
    requires Tracks(s, l) && node in s.inv && UniqueNames(s.existing) && c in s.existing
    ensures PoolTotal(s, Grown(s, l, p, c, node, add), p) == PoolTotal(s, l, p) + add
  {
    forall d | d in s.existing && d.name == c.name ensures d == c { SameNameSameContainer(s.existing, c, d); }
    SumFinalBump(s.existing, l, Grown(s, l, p, c, node, add), c, p, add);
  }

  lemma PoolTotalStarted(s: Site, l: Ledger, p: PoolKind, node: string, fd: string, add: int)
    requires Tracks(s, l) && node in s.inv
    ensures PoolTotal(s, Started(s, l, p, node, fd, add), p) == PoolTotal(s, l, p) + add
  {
    var l' := Started(s, l, p, node, fd, add);
    SumFinalCongruent(s.existing, l, l', p);
    Sums.TotalUpdate(PoolView(l.created, p), node, CreatedCap(l', node, p));
    assert PoolView(l'.created, p) == PoolView(l.created, p)[node := CreatedCap(l', node, p)];
  }

  /** One reachable single-host failure domain: no rollback, and the pool grows by exactly the gap. */
  lemma PlaceFdRealizes(s: Site, l: Ledger, p: PoolKind, level: nat, g: FdGroup, node: string)
    requires Tracks(s, l) && node in s.inv && g.nodes == [node] && OnSite(s, g)
    requires UniqueNames(s.existing) && NonNegativeDrives(s.existing)
    requires CanReach(s, l, p, node, level)
    ensures var l' := PlaceFd(s, l, p, level, g);
      && l' == PlaceHost(s, l, p, node, s.inv[node].fdValue, level).ledger
      && HostAdd(s, l, p, node, level) == Lacking(s, p, node, level)
      && PoolTotal(s, l', p) == PoolTotal(s, l, p) + Lacking(s, p, node, level)
      && (forall m :: m != node ==> Untouched(s, l, l', m))
  {
    var fd := s.inv[node].fdValue;
    var step := PlaceHost(s, l, p, node, fd, level);
    assert Share(level, 1, 0) == level;
    assert PlaceHosts(s, l, p, g.nodes, fd, level, 0) == HostStep(l, 0);
    assert PlaceHosts(s, l, p, g.nodes, fd, level, 1) == HostStep(step.ledger, 0 + step.placed);
    HostAddLacking(s, l, p, node, fd, level);
    HostCases(s, l, p, node, fd, level);
    var add := HostAdd(s, l, p, node, level);
    match HostOn(s.existing, node) {
      case Some(c) => PoolTotalGrown(s, l, p, c, node, add);
      case None => PoolTotalStarted(s, l, p, node, fd, add);
    }
    forall m | m != node ensures Untouched(s, l, step.ledger, m) { HostLocal(s, l, p, node, fd, level, m); }
  }

  lemma HostAddLacking(s: Site, l: Ledger, p: PoolKind, node: string, fd: string, level: nat)
    requires Tracks(s, l) && node in s.inv && NonNegativeDrives(s.existing) && CanReach(s, l, p, node, level)
    ensures PlaceHost(s, l, p, node, fd, level).placed == level
    ensures HostAdd(s, l, p, node, level) == Lacking(s, p, node, level)
  {
  }
}
