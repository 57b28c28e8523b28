/** What the picks prefer: co-located failure domains first, then those without a deleting container, then headroom. */
module Preference {
  import opened Placement
  import opened FreshFds

  /** Lower is preferred. */
  function TierOf(g: FdGroup): nat { (if g.colocated then 0 else 2) + if g.hasDeleting then 1 else 0 }

  ghost predicate InTier(gs: seq<FdGroup>, colocated: bool, deleting: bool) {
    forall i :: 0 <= i < |gs| ==> gs[i].colocated == colocated && gs[i].hasDeleting == deleting
  }

  lemma {:induction false} SelectSorted(gs: seq<FdGroup>, keep: FdGroup -> bool)
    requires HeadroomSorted(gs)
    ensures HeadroomSorted(Select(gs, keep))
  {
    if gs != [] {
      var init, last := gs[..|gs| - 1], gs[|gs| - 1];
      SelectSorted(init, keep);
      SelectExact(init, keep);
      var kept := Select(init, keep);
      forall i | 0 <= i < |kept| ensures kept[i].headroom >= last.headroom {
        assert kept[i] in kept;
        var j :| 0 <= j < |init| && init[j] == kept[i];
        assert gs[j] == init[j];
      }
    }
  }

  lemma TierFacts(gs: seq<FdGroup>, level: int, colocated: bool, deleting: bool)
    ensures var t := Tier(gs, level, colocated, deleting);
      InTier(t, colocated, deleting) && (HeadroomSorted(gs) ==> HeadroomSorted(t))
  {
    var keep := (g: FdGroup) => g.headroom >= level && g.colocated == colocated && g.hasDeleting == deleting;
    SelectExact(gs, keep);
    if HeadroomSorted(gs) { SelectSorted(gs, keep); }
    var t := Tier(gs, level, colocated, deleting);
    forall i | 0 <= i < |t| ensures t[i].colocated == colocated && t[i].hasDeleting == deleting { assert t[i] in t; }
  }

  /** g is at least as good a pick as h. */
  ghost predicate NoWorse(g: FdGroup, h: FdGroup, byHeadroom: bool) {
    TierOf(g) < TierOf(h) || (TierOf(g) == TierOf(h) && (byHeadroom ==> g.headroom >= h.headroom))
  }

  lemma TieredOrdered(gs: seq<FdGroup>, level: int, i: nat, j: nat)
    requires i < j < |Tiered(gs, level)|
    ensures NoWorse(Tiered(gs, level)[i], Tiered(gs, level)[j], HeadroomSorted(gs))
  {
    TierFacts(gs, level, true, false);
    TierFacts(gs, level, true, true);
    TierFacts(gs, level, false, false);
    TierFacts(gs, level, false, true);
    hide Tier;
  }

  lemma InTiered(gs: seq<FdGroup>, level: int, h: FdGroup)
    requires h in gs && h.headroom >= level
    ensures h in Tiered(gs, level)
  {
    SelectExact(gs, (g: FdGroup) =>
      g.headroom >= level && g.colocated == h.colocated && g.hasDeleting == h.hasDeleting);
    assert h in Tier(gs, level, h.colocated, h.hasDeleting);
  }

  /** In a list cut to its first k, whatever was kept comes before whatever was dropped. */
  lemma KeptFirst(all: seq<FdGroup>, k: nat, g: FdGroup, h: FdGroup) returns (i: nat, j: nat)
    requires g in Prefix(all, k) && h in all && h !in Prefix(all, k)
    ensures i < j < |all| && all[i] == g && all[j] == h
  {
    var kept := Prefix(all, k);
    i :| 0 <= i < |kept| && kept[i] == g;
    j :| 0 <= j < |all| && all[j] == h;
    assert kept == all[..|kept|];
    assert forall m :: 0 <= m < |kept| ==> kept[m] in kept && all[m] == kept[m];
  }

  /** No failure domain able to host the level is passed over for a less preferred one. */
  lemma TakeFreshPrefers(gs: seq<FdGroup>, k: nat, level: int, g: FdGroup, h: FdGroup)
    requires g in TakeFresh(gs, k, level) && h in gs && h.headroom >= level && h !in TakeFresh(gs, k, level)
    ensures NoWorse(g, h, HeadroomSorted(gs))
  {
    InTiered(gs, level, h);
    hide Tiered, NoWorse, Prefix;
    var i, j := KeptFirst(Tiered(gs, level), k, g, h);
    TieredOrdered(gs, level, i, j);
  }

  /** pickPreferringColocated passes no able co-located failure domain over for one that is not. */
  lemma PickPrefers(gs: seq<FdGroup>, n: nat, target: int, prefer: set<string>, g: FdGroup, h: FdGroup)
    requires g in PickColocated(gs, n, target, prefer) && h in gs && h.headroom >= target
    requires h !in PickColocated(gs, n, target, prefer)
    ensures IsColocated(h, prefer) ==> IsColocated(g, prefer)
    ensures HeadroomSorted(gs) && IsColocated(g, prefer) == IsColocated(h, prefer) ==> g.headroom >= h.headroom
  {
    var near := (g: FdGroup) => g.headroom >= target && IsColocated(g, prefer);
    var far := (g: FdGroup) => g.headroom >= target && !IsColocated(g, prefer);
    SelectExact(gs, near);
    SelectExact(gs, far);
    if HeadroomSorted(gs) { SelectSorted(gs, near); SelectSorted(gs, far); }
    var a, b := Select(gs, near), Select(gs, far);
    assert PickColocated(gs, n, target, prefer) == Prefix(a + b, n);
    assert h in a || h in b;
    assert forall x :: x in a + b <==> x in a || x in b;
    hide Select, IsColocated, Prefix;
    var i, j := KeptFirst(a + b, n, g, h);
    if i < |a| { assert a[i] in a; } else { assert b[i - |a|] in b; }
    if j < |a| { assert a[j] in a; } else { assert b[j - |a|] in b; }
  }
}
