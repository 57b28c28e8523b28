/** What placing failure domains does at each node, with any number of hosts per failure domain. */
module FdRecords {
  import opened Arith
  import opened Model
  import opened NodeBudget
  import opened Ledgers
  import opened Placement
  import opened Ordering
  import opened FreshFds
  import opened PoolDecision
  import Sums
  import UI = UniformIncrease

  // ----- one failure domain -----

  /** Host n's part of the level. */
  ghost function ShareOf(level: nat, g: FdGroup, n: string): nat
    requires n in g.nodes
  {
    var i :| 0 <= i < |g.nodes| && g.nodes[i] == n;
    Share(level, |g.nodes|, i)
  }

  lemma ShareAt(level: nat, g: FdGroup, i: nat)
    requires i < |g.nodes| && Distinct(g.nodes)
    ensures ShareOf(level, g, g.nodes[i]) == Share(level, |g.nodes|, i)
  {
  }

  /** Every host of the failure domain has room for its share. */
  ghost predicate Complete(s: Site, l: Ledger, p: PoolKind, level: nat, g: FdGroup)
    requires Tracks(s, l) && OnSite(s, g)
  {
    forall n :: n in g.nodes ==> n in s.inv && HoldsShare(s, l, p, n, ShareOf(level, g, n))
  }

  /** What host n adds when its turn comes: what it lacks of its share, as far as its room goes. */
  ghost function TriedAt(s: Site, l: Ledger, p: PoolKind, level: nat, g: FdGroup, n: string): int
    requires Tracks(s, l) && n in s.inv && n in g.nodes
  {
    HostAdd(s, l, p, n, ShareOf(level, g, n))
  }

  /** What stays of it: nothing when some host of the failure domain lacks the room. */
  ghost function KeptAt(s: Site, l: Ledger, p: PoolKind, level: nat, g: FdGroup, n: string): int
    requires Tracks(s, l) && OnSite(s, g) && n in s.inv && n in g.nodes
  {
    if Complete(s, l, p, level, g) then TriedAt(s, l, p, level, g, n) else 0
  }

  // ----- the effect on one node -----

  function CreatedCaps(l: Ledger, n: string): Caps { if n in l.created then l.created[n].caps else NO_CAPS }

  /** Whether the node's container gets a record, the capacity it gains and what the node pays for it. */
  predicate Effect(s: Site, l: Ledger, l': Ledger, p: PoolKind, n: string, touched: bool, gain: int)
    requires Tracks(s, l) && Tracks(s, l') && n in s.inv
  {
    && (match HostOn(s.existing, n)
        case Some(c) =>
          (c.name in l'.growth <==> c.name in l.growth || touched) && GrowthOf(l', c) == GrowthOf(l, c).Plus(p, gain)
        case None =>
          (n in l'.created <==> n in l.created || touched) && CreatedCaps(l', n) == CreatedCaps(l, n).Plus(p, gain))
    && l'.budgets[n] == if gain == 0 then l.budgets[n]
      else Charge(s.inv[n], l.budgets[n], p, gain, s.cons, HostOn(s.existing, n).None? && n !in l.created)
  }

  lemma HostEffect(s: Site, l: Ledger, p: PoolKind, n: string, fd: string, share: nat)
    requires Tracks(s, l) && n in s.inv
    ensures var add := HostAdd(s, l, p, n, share);
      Effect(s, l, PlaceHost(s, l, p, n, fd, share).ledger, p, n, add > 0, add)
  {
    HostCases(s, l, p, n, fd, share);
    hide PlaceHost, HostAdd, Charge, HostOn;
  }

  lemma NoEffect(s: Site, l: Ledger, l': Ledger, p: PoolKind, n: string)
    requires Tracks(s, l) && Tracks(s, l') && n in s.inv && Untouched(s, l, l', n)
    ensures Effect(s, l, l', p, n, false, 0)
  {
    hide HostOn;
  }

  /** An effect before or after which the node is left alone is the effect of the whole. */
  lemma EffectOnce(s: Site, l: Ledger, mid: Ledger, l': Ledger, p: PoolKind, n: string, touched: bool, gain: int)
    requires Tracks(s, l) && Tracks(s, mid) && Tracks(s, l') && n in s.inv
    requires (Untouched(s, l, mid, n) && Effect(s, mid, l', p, n, touched, gain)) ||
      (Effect(s, l, mid, p, n, touched, gain) && Untouched(s, mid, l', n))
    ensures Effect(s, l, l', p, n, touched, gain)
  {
    hide HostOn, Charge;
  }

  lemma AddKept(s: Site, l: Ledger, l': Ledger, p: PoolKind, n: string, share: nat)
    requires Tracks(s, l) && Tracks(s, l') && n in s.inv && Untouched(s, l, l', n)
    ensures HostAdd(s, l', p, n, share) == HostAdd(s, l, p, n, share)
  {
    hide HostOn, HeadroomBinding;
  }

  /** Host i of the first k is touched by its own step only. */
  lemma {:induction false} HostsEffect(s: Site, l: Ledger, p: PoolKind, nodes: seq<string>, fd: string, target: nat,
      k: nat, i: nat)
    requires Tracks(s, l) && i < k <= |nodes| && (forall j :: 0 <= j < |nodes| ==> nodes[j] in s.inv) && Distinct(nodes)
    requires UniqueNames(s.existing)
    ensures var add := HostAdd(s, l, p, nodes[i], Share(target, |nodes|, i));
      Effect(s, l, PlaceHosts(s, l, p, nodes, fd, target, k).ledger, p, nodes[i], add > 0, add)
  {
    hide PlaceHost, HostAdd, Share, Effect, Untouched, HostOn;
    var prior := PlaceHosts(s, l, p, nodes, fd, target, k - 1).ledger;
    var after, n := PlaceHosts(s, l, p, nodes, fd, target, k).ledger, nodes[i];
    var add := HostAdd(s, l, p, n, Share(target, |nodes|, i));
    if i == k - 1 {
      HostsLocal(s, l, p, nodes, fd, target, k - 1, n);
      HostEffect(s, prior, p, n, fd, Share(target, |nodes|, i));
      AddKept(s, l, prior, p, n, Share(target, |nodes|, i));
    } else {
      HostsEffect(s, l, p, nodes, fd, target, k - 1, i);
      HostLocal(s, prior, p, nodes[k - 1], fd, Share(target, |nodes|, k - 1), n);
    }
    EffectOnce(s, l, prior, after, p, n, add > 0, add);
  }

  /** Rolling back keeps the record and takes back what it gained. */
  lemma RestoredEffect(s: Site, l: Ledger, after: Ledger, p: PoolKind, n: string, touched: bool, gain: int)
    requires Tracks(s, l) && Tracks(s, after) && n in s.inv && UniqueNames(s.existing)
    requires Effect(s, l, after, p, n, touched, gain)
    ensures Tracks(s, Restored(s, l, after)) && Effect(s, l, Restored(s, l, after), p, n, touched, 0)
  {
    if HostOn(s.existing, n).Some? { CapsNamedFinds(s.existing, HostOn(s.existing, n).value); }
    hide HostOn, Charge, CapsNamed;
  }

  lemma RestoredUntouched(s: Site, l: Ledger, after: Ledger, m: string)
    requires Tracks(s, l) && Tracks(s, after) && UniqueNames(s.existing) && Untouched(s, l, after, m)
    ensures Tracks(s, Restored(s, l, after)) && Untouched(s, l, Restored(s, l, after), m)
  {
    if HostOn(s.existing, m).Some? { CapsNamedFinds(s.existing, HostOn(s.existing, m).value); }
    hide HostOn, CapsNamed;
  }

  /** The failure domain is completed exactly when every host has room for its share. */
  lemma CompletedExactly(s: Site, l: Ledger, p: PoolKind, level: nat, g: FdGroup)
    requires Tracks(s, l) && OnSite(s, g) && g.nodes != [] && UniqueNames(s.existing) && NonNegativeDrives(s.existing)
    ensures var r := PlaceHosts(s, l, p, g.nodes, s.inv[g.nodes[0]].fdValue, level, |g.nodes|);
      PlaceFd(s, l, p, level, g) == if Complete(s, l, p, level, g) then r.ledger else Restored(s, l, r.ledger)
  {
    var fd, n := s.inv[g.nodes[0]].fdValue, |g.nodes|;
    hide PlaceHosts, HoldsShare, Share, SumShares, Restored;
    SharesExact(level, n);
    HostsHold(s, l, p, g.nodes, fd, level, n);
    HostsBounded(s, l, p, g.nodes, fd, level, n);
    forall i | 0 <= i < n ensures ShareOf(level, g, g.nodes[i]) == Share(level, n, i) { ShareAt(level, g, i); }
    hide ShareOf;
    assert forall i :: 0 <= i < n ==> g.nodes[i] in g.nodes;
  }

  lemma FdEffect(s: Site, l: Ledger, p: PoolKind, level: nat, g: FdGroup, n: string)
    requires Tracks(s, l) && OnSite(s, g) && n in s.inv && n in g.nodes
    requires UniqueNames(s.existing) && NonNegativeDrives(s.existing)
    ensures Effect(s, l, PlaceFd(s, l, p, level, g), p, n, TriedAt(s, l, p, level, g, n) > 0,
      KeptAt(s, l, p, level, g, n))
  {
    var fd := s.inv[g.nodes[0]].fdValue;
    var after := PlaceHosts(s, l, p, g.nodes, fd, level, |g.nodes|).ledger;
    CompletedExactly(s, l, p, level, g);
    var i :| 0 <= i < |g.nodes| && g.nodes[i] == n;
    ShareAt(level, g, i);
    HostsEffect(s, l, p, g.nodes, fd, level, |g.nodes|, i);
    hide PlaceHosts, PlaceFd, HostAdd, Effect, Complete, Share, ShareOf, HostOn, Restored;
    var tried := TriedAt(s, l, p, level, g, n);
    RestoredEffect(s, l, after, p, n, tried > 0, tried);
  }

  lemma FdElsewhere(s: Site, l: Ledger, p: PoolKind, level: nat, g: FdGroup, m: string)
    requires Tracks(s, l) && OnSite(s, g) && m !in g.nodes && UniqueNames(s.existing)
    ensures Untouched(s, l, PlaceFd(s, l, p, level, g), m)
  {
    if g.nodes != [] {
      var fd := s.inv[g.nodes[0]].fdValue;
      assert g.nodes[..|g.nodes|] == g.nodes;
      HostsLocal(s, l, p, g.nodes, fd, level, |g.nodes|, m);
      hide PlaceHosts, Untouched, Restored;
      RestoredUntouched(s, l, PlaceHosts(s, l, p, g.nodes, fd, level, |g.nodes|).ledger, m);
    }
  }

  lemma CompleteKept(s: Site, l: Ledger, l': Ledger, p: PoolKind, level: nat, g: FdGroup)
    requires Tracks(s, l) && Tracks(s, l') && OnSite(s, g) && forall n :: n in g.nodes ==> Untouched(s, l, l', n)
    ensures Complete(s, l', p, level, g) <==> Complete(s, l, p, level, g)
  {
    hide HoldsShare, Untouched, ShareOf;
    forall n | n in g.nodes && n in s.inv
      ensures HoldsShare(s, l', p, n, ShareOf(level, g, n)) <==> HoldsShare(s, l, p, n, ShareOf(level, g, n))
    {
      HoldsKept(s, l, l', p, n, ShareOf(level, g, n));
    }
  }

  // ----- all chosen failure domains -----

  lemma {:induction false} UniformElsewhere(s: Site, l: Ledger, p: PoolKind, level: nat, chosen: seq<FdGroup>,
      m: string)
    requires Tracks(s, l) && AllOnSite(s, chosen) && UniqueNames(s.existing)
    requires forall i :: 0 <= i < |chosen| ==> m !in chosen[i].nodes
    ensures Untouched(s, l, PlaceUniform(s, l, p, level, chosen), m)
  {
    if chosen != [] {
      var init, g := chosen[..|chosen| - 1], chosen[|chosen| - 1];
      UniformElsewhere(s, l, p, level, init, m);
      var mid := PlaceUniform(s, l, p, level, init);
      FdElsewhere(s, mid, p, level, g, m);
      UntouchedTransitive(s, l, mid, PlaceUniform(s, l, p, level, chosen), m);
    }
  }

  /** Each chosen failure domain acts as if it were alone, since no node is in two of them. */
  lemma {:induction false} UniformEffect(s: Site, l: Ledger, p: PoolKind, level: nat, chosen: seq<FdGroup>, j: nat,
      n: string)
    requires Tracks(s, l) && AllOnSite(s, chosen) && NodesDisjoint(chosen)
    requires UniqueNames(s.existing) && NonNegativeDrives(s.existing)
    requires j < |chosen| && n in s.inv && n in chosen[j].nodes
    ensures Effect(s, l, PlaceUniform(s, l, p, level, chosen), p, n, TriedAt(s, l, p, level, chosen[j], n) > 0,
      KeptAt(s, l, p, level, chosen[j], n))
  {
    var init, last := chosen[..|chosen| - 1], chosen[|chosen| - 1];
    var mid, l' := PlaceUniform(s, l, p, level, init), PlaceUniform(s, l, p, level, chosen);
    assert l' == PlaceFd(s, mid, p, level, last);
    hide PlaceUniform, PlaceFd, Effect, Untouched, HostOn, ShareOf, HostAdd;
    var g := chosen[j];
    if j == |chosen| - 1 {
      forall m | m in g.nodes ensures Untouched(s, l, mid, m) {
        forall i | 0 <= i < |init| ensures m !in init[i].nodes { assert init[i] == chosen[i]; }
        UniformElsewhere(s, l, p, level, init, m);
      }
      CompleteKept(s, l, mid, p, level, g);
      AddKept(s, l, mid, p, n, ShareOf(level, g, n));
      FdEffect(s, mid, p, level, g, n);
    } else {
      UniformEffect(s, l, p, level, init, j, n);
      FdElsewhere(s, mid, p, level, last, n);
    }
    hide Complete;
    EffectOnce(s, l, mid, l', p, n, TriedAt(s, l, p, level, g, n) > 0, KeptAt(s, l, p, level, g, n));
  }

  // ----- what the pool gains -----

  /** What the first k hosts lack of their shares. */
  function HostsLack(s: Site, p: PoolKind, nodes: seq<string>, target: nat, k: nat): nat
    requires k <= |nodes|
  {
    if k == 0 then 0
    else HostsLack(s, p, nodes, target, k - 1) + Lacking(s, p, nodes[k - 1], Share(target, |nodes|, k - 1))
  }

  function GroupLack(s: Site, p: PoolKind, level: nat, g: FdGroup): nat { HostsLack(s, p, g.nodes, level, |g.nodes|) }

  /** What the completed failure domains lacked. */
  ghost function LevelGain(s: Site, l: Ledger, p: PoolKind, level: nat, chosen: seq<FdGroup>): nat
    requires Tracks(s, l) && AllOnSite(s, chosen)
  {
    if chosen == [] then 0 else
      var g := chosen[|chosen| - 1];
      LevelGain(s, l, p, level, chosen[..|chosen| - 1]) +
      if Complete(s, l, p, level, g) then GroupLack(s, p, level, g) else 0
  }

  lemma HoldingAdds(s: Site, l: Ledger, p: PoolKind, n: string, share: nat)
    requires Tracks(s, l) && n in s.inv && HoldsShare(s, l, p, n, share)
    ensures HostAdd(s, l, p, n, share) == Lacking(s, p, n, share)
  {
  }

  lemma HostTotal(s: Site, l: Ledger, p: PoolKind, n: string, fd: string, share: nat)
    requires Tracks(s, l) && n in s.inv && UniqueNames(s.existing)
    ensures PoolTotal(s, PlaceHost(s, l, p, n, fd, share).ledger, p) == PoolTotal(s, l, p) + HostAdd(s, l, p, n, share)
  {
    HostCases(s, l, p, n, fd, share);
    hide PlaceHost, HostAdd, PoolTotal, HostOn;
    match HostOn(s.existing, n)
    case Some(c) => PoolTotalGrown(s, l, p, c, n, HostAdd(s, l, p, n, share));
    case None => PoolTotalStarted(s, l, p, n, fd, HostAdd(s, l, p, n, share));
  }

  lemma {:induction false} HostsTotal(s: Site, l: Ledger, p: PoolKind, nodes: seq<string>, fd: string, target: nat,
      k: nat)
    requires Tracks(s, l) && k <= |nodes| && (forall j :: 0 <= j < |nodes| ==> nodes[j] in s.inv) && Distinct(nodes)
    requires UniqueNames(s.existing)
    requires forall i :: 0 <= i < k ==> HoldsShare(s, l, p, nodes[i], Share(target, |nodes|, i))
    ensures PoolTotal(s, PlaceHosts(s, l, p, nodes, fd, target, k).ledger, p) ==
      PoolTotal(s, l, p) + HostsLack(s, p, nodes, target, k)
  {
    hide PlaceHost, HostAdd, PoolTotal, Share, HoldsShare, Untouched, Lacking;
    if k > 0 {
      HostsTotal(s, l, p, nodes, fd, target, k - 1);
      var prior, n, share := PlaceHosts(s, l, p, nodes, fd, target, k - 1).ledger, nodes[k - 1],
        Share(target, |nodes|, k - 1);
      HostsLocal(s, l, p, nodes, fd, target, k - 1, n);
      AddKept(s, l, prior, p, n, share);
      HoldingAdds(s, l, p, n, share);
      HostTotal(s, prior, p, n, fd, share);
    }
  }

  lemma SameCapsSameTotal(s: Site, l: Ledger, l': Ledger, p: PoolKind)
    requires forall c :: c in s.existing ==> FinalCap(l', c, p) == FinalCap(l, c, p)
    requires l.created.Keys <= l'.created.Keys && forall n :: CreatedCap(l', n, p) == CreatedCap(l, n, p)
    ensures PoolTotal(s, l', p) == PoolTotal(s, l, p)
  {
    SumFinalCongruent(s.existing, l, l', p);
    forall n | n in l'.created ensures n !in l.created ==> PoolView(l'.created, p)[n] == 0 {
      assert CreatedCap(l', n, p) == CreatedCap(l, n, p);
    }
    forall n | n in l.created ensures PoolView(l'.created, p)[n] == PoolView(l.created, p)[n] {
      assert CreatedCap(l', n, p) == CreatedCap(l, n, p);
    }
    Sums.TotalPadded(PoolView(l.created, p), PoolView(l'.created, p));
  }

  lemma FdTotal(s: Site, l: Ledger, p: PoolKind, level: nat, g: FdGroup)
    requires Tracks(s, l) && OnSite(s, g) && UniqueNames(s.existing) && NonNegativeDrives(s.existing)
    ensures PoolTotal(s, PlaceFd(s, l, p, level, g), p) ==
      PoolTotal(s, l, p) + if Complete(s, l, p, level, g) then GroupLack(s, p, level, g) else 0
  {
    if g.nodes != [] {
      var fd, n := s.inv[g.nodes[0]].fdValue, |g.nodes|;
      CompletedExactly(s, l, p, level, g);
      HostsKeep(s, l, p, g.nodes, fd, level, n);
      HostsKeepRecords(s, l, p, g.nodes, fd, level, n);
      var after := PlaceHosts(s, l, p, g.nodes, fd, level, n).ledger;
      RestoredIsBefore(s, p, l, after);
      forall i | 0 <= i < n ensures ShareOf(level, g, g.nodes[i]) == Share(level, n, i) { ShareAt(level, g, i); }
      hide PlaceHosts, PlaceFd, PoolTotal, Share, ShareOf, HoldsShare, FinalCap, Lacking, CreatedCap;
      if Complete(s, l, p, level, g) {
        forall i | 0 <= i < n ensures HoldsShare(s, l, p, g.nodes[i], Share(level, n, i)) {
          assert g.nodes[i] in g.nodes;
        }
        HostsTotal(s, l, p, g.nodes, fd, level, n);
      } else {
        SameCapsSameTotal(s, l, Restored(s, l, after), p);
      }
    }
  }

  /** A placement adds exactly what the failure domains it completes lacked, on any site. */
  lemma {:induction false} UniformTotal(s: Site, l: Ledger, p: PoolKind, level: nat, chosen: seq<FdGroup>)
    requires Tracks(s, l) && AllOnSite(s, chosen) && NodesDisjoint(chosen)
    requires UniqueNames(s.existing) && NonNegativeDrives(s.existing)
    ensures PoolTotal(s, PlaceUniform(s, l, p, level, chosen), p) ==
      PoolTotal(s, l, p) + LevelGain(s, l, p, level, chosen)
  {
    if chosen != [] {
      var init, g := chosen[..|chosen| - 1], chosen[|chosen| - 1];
      UniformTotal(s, l, p, level, init);
      var mid := PlaceUniform(s, l, p, level, init);
      forall m | m in g.nodes ensures Untouched(s, l, mid, m) {
        forall i | 0 <= i < |init| ensures m !in init[i].nodes { assert init[i] == chosen[i]; }
        UniformElsewhere(s, l, p, level, init, m);
      }
      hide PlaceFd, PoolTotal, Untouched, Complete;
      CompleteKept(s, l, mid, p, level, g);
      FdTotal(s, mid, p, level, g);
    }
  }

  // ----- no decision chooses a node twice -----

  lemma {:induction false} BearersUsed(s: Site, existing: seq<ExistingContainer>, p: PoolKind, n: string)
    requires n in BearingNodes(s, existing, p)
    ensures n in PoolNodeUsed(existing, p) && n in AllDriveNodes(existing)
  {
    var init, last := existing[..|existing| - 1], existing[|existing| - 1];
    assert existing == init + [last];
    if n in BearingNodes(s, init, p) { BearersUsed(s, init, p, n); }
  }

  lemma {:induction false} BearingFdsDistinct(s: Site, existing: seq<ExistingContainer>, p: PoolKind)
    ensures Distinct(BearingFds(s, existing, p))
  {
    if existing != [] { BearingFdsDistinct(s, existing[..|existing| - 1], p); }
  }

  /** A host of an existing group belongs to that failure domain alone, and is no candidate. */
  lemma ExistingOwner(s: Site, l: Ledger, p: PoolKind, i: nat, n: string)
    requires Tracks(s, l) && i < |ExistingGroups(s, l, p)| && n in ExistingGroups(s, l, p)[i].nodes
    ensures |ExistingGroups(s, l, p)| == |BearingFds(s, s.existing, p)|
    ensures var m := BearingNodes(s, s.existing, p); n in m && m[n] == BearingFds(s, s.existing, p)[i]
    ensures !IsCandidate(s, l, p, n)
  {
    hide Ranking, HeadroomBinding, BearingNodes, BearingFds, PoolNodeUsed, AllDriveNodes;
    BearingOnSite(s, s.existing, p);
    var g := ExistingGroup(s, l, p, BearingFds(s, s.existing, p)[i]);
    assert n in Elems(g.nodes);
    BearersUsed(s, s.existing, p, n);
  }

  lemma ExistingDisjoint(s: Site, l: Ledger, p: PoolKind)
    requires Tracks(s, l)
    ensures NodesDisjoint(ExistingGroups(s, l, p))
    ensures forall g, n :: g in ExistingGroups(s, l, p) && n in g.nodes ==> !IsCandidate(s, l, p, n)
  {
    hide ExistingGroups, BearingNodes, BearingFds, IsCandidate;
    BearingFdsDistinct(s, s.existing, p);
    var gs := ExistingGroups(s, l, p);
    forall i, j, n | 0 <= i < j < |gs| && n in gs[i].nodes ensures n !in gs[j].nodes {
      ExistingOwner(s, l, p, i, n);
      if n in gs[j].nodes { ExistingOwner(s, l, p, j, n); }
    }
    forall g, n | g in gs && n in g.nodes ensures !IsCandidate(s, l, p, n) {
      var i :| 0 <= i < |gs| && gs[i] == g;
      ExistingOwner(s, l, p, i, n);
    }
  }

  lemma JoinDisjoint(s: Site, l: Ledger, p: PoolKind, b: seq<FdGroup>)
    requires Tracks(s, l) && FreshList(s, l, p, b)
    ensures NodesDisjoint(ExistingGroups(s, l, p) + b)
  {
    ExistingDisjoint(s, l, p);
    hide ExistingGroups, IsCandidate;
    var a := ExistingGroups(s, l, p);
    forall i, j, n | 0 <= i < j < |a + b| && n in (a + b)[i].nodes ensures n !in (a + b)[j].nodes {
      if i < |a| <= j {
        assert a[i] in a;
        assert !IsCandidate(s, l, p, n);
      } else if i >= |a| {
        assert (a + b)[i] == b[i - |a|] && (a + b)[j] == b[j - |a|];
      }
    }
  }

  lemma IncreaseDisjoint(s: Site, l: Ledger, p: PoolKind, desired: int, minFd: int)
    requires Tracks(s, l)
    ensures var d := IncreaseDecision(s, l, p, desired, minFd); d.Place? ==> NodesDisjoint(d.chosen)
  {
    var inc := IncreaseFor(s, l, p, desired, minFd);
    hide UI.Decide, TakeFresh, SpareGroups, ExistingGroups, Reaches, PoolFds, MinFdCap, MaxFdCap, PoolAverage;
    SpareFresh(s, l, p);
    match UI.Decide(inc) {
      case CreateEven(k, size) => TakeFreshList(s, l, p, inc.spare, k, size);
      case CreateAtT0(k, level, t) => TakeFreshList(s, l, p, inc.spare, k, level);
      case GrowTo(k, level, t) =>
        TakeFreshList(s, l, p, inc.spare, k, level);
        JoinDisjoint(s, l, p, TakeFresh(inc.spare, k, level));
      case GiveUp(_) =>
    }
  }

  lemma ExplicitDisjoint(s: Site, l: Ledger, p: PoolKind, desired: int, targetFds: int)
    requires Tracks(s, l)
    ensures var d := ExplicitDecision(s, l, p, desired, targetFds); d.Place? ==> NodesDisjoint(d.chosen)
  {
    hide TakeFresh, FreshGroups, ExistingGroups, FrozenGap;
    FreshGroupsAreFresh(s, l, p);
    var d := ExplicitDecision(s, l, p, desired, targetFds);
    if d.Place? {
      var extra := ExactNewFds(s.existing, p, targetFds, desired - PoolCurrent(s.existing, p), s.cons).value;
      TakeFreshList(s, l, p, FreshGroups(s, l, p), extra, CeilDiv(desired, targetFds));
      JoinDisjoint(s, l, p, TakeFresh(FreshGroups(s, l, p), extra, CeilDiv(desired, targetFds)));
    }
  }

  /** Whatever is decided, on any site, no node is a host of two chosen failure domains. */
  lemma DecisionDisjoint(s: Site, l: Ledger, p: PoolKind, desired: int, minFd: int, targetFds: int)
    requires Tracks(s, l)
    ensures var d := DecidePool(s, l, p, desired, minFd, targetFds); d.Place? ==> NodesDisjoint(d.chosen)
  {
    FreshOnSite(s, l, p, desired, minFd, true);
    FreshOnSite(s, l, p, desired, minFd, false);
    ExplicitDisjoint(s, l, p, desired, targetFds);
    IncreaseDisjoint(s, l, p, desired, minFd);
    hide FreshDecision, ExplicitDecision, IncreaseDecision, NodesDisjoint, PoolFds, PoolCurrent, PoolAverage;
  }
}
