/** When a pool counts as short, and the capacity that stops it from being short. */
module Deadband {
  import opened Arith
  import opened Model

  function Band(desired: int, cons: Constraints): int { Ceil(desired as real * cons.deadbandFraction) }

  predicate CapacityShort(current: int, desired: int, cons: Constraints) {
    if cons.deadbandFraction <= 0.0 then current < desired
    else desired - current > Band(desired, cons)
  }

  function CoverTarget(desired: int, cons: Constraints): int {
    if cons.deadbandFraction <= 0.0 then desired else desired - Band(desired, cons)
  }

  /** The truncated over-provision fraction of a target. */
  function Overshoot(desired: int, cons: Constraints): int { Trunc(cons.maxOverProvisionFraction * desired as real) }

  /** GiB a pool may exceed its target without a shrink advisory. */
  function OverProvisionCap(desired: int, cons: Constraints): int {
    if desired <= 0 then 0 else Overshoot(desired, cons)
  }

  /** The cover target is the exact boundary of being short, and a short pool always lacks something. */
  lemma CoverTargetIsBoundary(current: int, desired: int, cons: Constraints)
    ensures CapacityShort(current, desired, cons) <==> current < CoverTarget(desired, cons)
    ensures desired >= 0 ==> CoverTarget(desired, cons) <= desired
    ensures desired >= 0 && CapacityShort(current, desired, cons) ==> current < desired
  {
    if desired >= 0 && cons.deadbandFraction > 0.0 {
      var x := desired as real * cons.deadbandFraction;
      assert x >= 0.0;
      assert (-x).Floor <= 0;
    }
  }

  /** A pool is short exactly when it lacks its target by at least one GiB more than the deadband fraction of it. */
  lemma ShortExact(current: int, desired: int, cons: Constraints)
    ensures CapacityShort(current, desired, cons) <==>
      if cons.deadbandFraction <= 0.0 then current < desired
      else (desired - current - 1) as real >= desired as real * cons.deadbandFraction
  {
  }

  /** A positive target may be exceeded by the greatest whole number within the over-provision fraction of it. */
  lemma CapExact(desired: int, cons: Constraints)
    requires desired > 0 && cons.maxOverProvisionFraction >= 0.0
    ensures var cap, limit := OverProvisionCap(desired, cons), cons.maxOverProvisionFraction * desired as real;
      0 <= cap && cap as real <= limit < (cap + 1) as real && Overshoot(desired, cons) == cap
  {
    assert cons.maxOverProvisionFraction * desired as real >= 0.0;
  }
}
