/** Containers whose base memory no node has, placed all the same when cores cost no memory. */
module MemoryWitness {
  import opened Model
  import opened NodeBudget
  import opened Ledgers
  import opened Placement
  import opened PoolPlanner
  import opened AutoMode
  import opened WitnessSites
  import opened PlanWitness
  import opened AdvisoryWitness

  /** A base of 2,000,000 MiB per container, on nodes with half of it. */
  const HEAVY := CONS.(memoryBase := 2_000_000, memoryPerCore := 0)

  const SITE := Site(Three(2000), [], HEAVY)

  lemma HeavyField()
    ensures IsField(SITE, Opening(SITE.inv))
  {
    Letters();
    OpeningUnplanned(SITE, TLC);
  }

  lemma BaseOverdraws(s: Site, l: Ledger, l': Ledger, n: string)
    requires IsPlaced(s, l, l') && n in TRIO && s.cons == HEAVY
    ensures n in s.inv && Tracks(s, l) && Tracks(s, l') && NonNegative(l.budgets[n]) && l'.budgets[n].memory < 0
  {
    hide AutoSite, Unplanned, PoolTotal;
  }

  /** Planning 1000 GiB of TLC leaves no note, and overdraws the memory of all three nodes. */
  lemma MemoryOverdrawn()
    ensures SITE.cons.memoryPerCore == 0 && SITE.cons.memoryBase > 0
    ensures var l := Opening(SITE.inv);
      var st := PlanPool(SITE, PoolState(l, NO_NOTES), TLC, 1000, 3, 0);
      st.notes == NO_NOTES && forall n :: n in TRIO ==> NonNegative(l.budgets[n]) && st.ledger.budgets[n].memory < 0
  {
    HeavyField();
    assert Tracks(SITE, Opening(SITE.inv)) && TRIO <= SITE.inv.Keys;
    hide IsField, IsPlaced, PlanPool, Opening, Three;
    var l := Opening(SITE.inv);
    var l' := FieldPool(SITE, l);
    forall n | n in TRIO ensures n in SITE.inv && NonNegative(l.budgets[n]) && l'.budgets[n].memory < 0 {
      BaseOverdraws(SITE, l, l', n);
    }
  }
}
