/** Core counts: derived from capacity, pinned by the spec, and attributed to the two pools. */
module DriveCoreCounts {
  import opened Arith
  import opened Model
  import opened Ledgers

  function RequiredDriveCores(caps: Caps, cons: Constraints): int {
    Max(1,
      (if caps.tlc > 0 && cons.capacityPerCore.tlc > 0 then CeilDiv(caps.tlc, cons.capacityPerCore.tlc) else 0) +
      (if caps.qlc > 0 && cons.capacityPerCore.qlc > 0 then CeilDiv(caps.qlc, cons.capacityPerCore.qlc) else 0))
  }

  /** TlcDriveCores and its QLC mirror. */
  function PoolDriveCores(g: int, perCore: int): int {
    if g <= 0 || perCore <= 0 then 0 else Max(1, CeilDiv(g, perCore))
  }

  /** Cores of a container attributed to TLC. */
  function TlcCores(caps: Caps, given: int, cons: Constraints): int {
    if caps.qlc <= 0 && given > 0 then given
    else if caps.tlc <= 0 then 0
    else
      var tlc := PoolDriveCores(caps.tlc, cons.capacityPerCore.tlc);
      if given > 0 then Min(tlc, given) else tlc
  }

  /** Cores of a container attributed to QLC. */
  function QlcCores(caps: Caps, given: int, cons: Constraints): int {
    if caps.qlc <= 0 then 0
    else
      var tlc := PoolDriveCores(caps.tlc, cons.capacityPerCore.tlc);
      if given > 0 then Max(given - tlc, 0) else PoolDriveCores(caps.qlc, cons.capacityPerCore.qlc)
  }

  /** The fewest cores that hold g GiB at `perCore` each; none when the pool is absent or disabled. */
  predicate FewestFor(n: int, g: int, perCore: int) {
    if g <= 0 || perCore <= 0 then n == 0 else n * perCore >= g && (n - 1) * perCore < g
  }

  lemma FewestForIs(n: int, g: int, perCore: int)
    ensures FewestFor(n, g, perCore) <==> n == PoolDriveCores(g, perCore)
    ensures g > 0 && perCore > 0 ==> PoolDriveCores(g, perCore) == CeilDiv(g, perCore) >= 1
  {
    if g > 0 && perCore > 0 {
      if n >= 1 {
        CeilDivAdjoint(g, perCore, n);
        CeilDivAdjoint(g, perCore, n - 1);
      } else {
        MulMono(n, 0, perCore);
      }
      CeilDivAdjoint(g, perCore, 0);
    }
  }

  /**
   * The two attributions never lose a core and never count one twice, whatever the capacities. TLC gets all cores of
   * a container without QLC and none of one without TLC; of a mixed one it gets the fewest that hold its capacity, as
   * far as there are so many.
   */
  lemma AttributionExact(caps: Caps, given: int, cons: Constraints)
    requires given >= 1
    ensures TlcCores(caps, given, cons) + QlcCores(caps, given, cons) == given
    ensures TlcCores(caps, given, cons) >= 0 && QlcCores(caps, given, cons) >= 0
    ensures caps.qlc <= 0 ==> TlcCores(caps, given, cons) == given
    ensures caps.qlc > 0 ==>
      forall n :: FewestFor(n, caps.tlc, cons.capacityPerCore.tlc) ==> TlcCores(caps, given, cons) == Min(n, given)
  {
    var perCore := cons.capacityPerCore.tlc;
    forall n | FewestFor(n, caps.tlc, perCore) ensures n == PoolDriveCores(caps.tlc, perCore) {
      FewestForIs(n, caps.tlc, perCore);
    }
    hide FewestFor;
  }

  /** A container's derived cores are the fewest for each pool together, and at least one. */
  lemma DerivedCoresExact(caps: Caps, cons: Constraints, t: int, q: int)
    requires FewestFor(t, caps.tlc, cons.capacityPerCore.tlc) && FewestFor(q, caps.qlc, cons.capacityPerCore.qlc)
    ensures RequiredDriveCores(caps, cons) == Max(1, t + q)
  {
    FewestForIs(t, caps.tlc, cons.capacityPerCore.tlc);
    FewestForIs(q, caps.qlc, cons.capacityPerCore.qlc);
    hide FewestFor;
  }

  function RequiredComputeCores(tlc: int, qlc: int, fullDrives: bool, cons: Constraints): int {
    var tlcRatio := if fullDrives then cons.fullDrivesRatio else cons.computeToTlcRatio;
    var qlcRatio := if fullDrives then 0.0 else cons.computeToQlcRatio;
    Max(Max(tlc, 0) + Max(qlc, 0), Ceil(tlcRatio * tlc as real + qlcRatio * qlc as real))
  }

  /** At least the drive cores of both pools, and at least what the configured ratios ask for. */
  predicate MeetsDemand(cores: int, tlc: int, qlc: int, tlcRatio: real, qlcRatio: real) {
    cores >= tlc + qlc && cores as real >= tlcRatio * tlc as real + qlcRatio * qlc as real
  }

  ghost predicate LeastCompute(r: int, tlc: int, qlc: int, tlcRatio: real, qlcRatio: real) {
    && MeetsDemand(r, tlc, qlc, tlcRatio, qlcRatio)
    && forall k: int :: MeetsDemand(k, tlc, qlc, tlcRatio, qlcRatio) ==> r <= k
  }

  lemma RoundedUpLeast(tlc: int, qlc: int, tlcRatio: real, qlcRatio: real)
    ensures LeastCompute(Max(tlc + qlc, Ceil(tlcRatio * tlc as real + qlcRatio * qlc as real)), tlc, qlc, tlcRatio,
      qlcRatio)
  {
  }

  lemma RequiredExact(tlc: int, qlc: int, fullDrives: bool, cons: Constraints)
    requires tlc >= 0 && qlc >= 0
    ensures var r := RequiredComputeCores(tlc, qlc, fullDrives, cons);
      if fullDrives then LeastCompute(r, tlc, qlc, cons.fullDrivesRatio, 0.0)
      else LeastCompute(r, tlc, qlc, cons.computeToTlcRatio, cons.computeToQlcRatio)
  {
    if fullDrives {
      RoundedUpLeast(tlc, qlc, cons.fullDrivesRatio, 0.0);
      var x := cons.fullDrivesRatio * tlc as real + 0.0 * qlc as real;
      assert RequiredComputeCores(tlc, qlc, true, cons) == Max(tlc + qlc, Ceil(x));
    } else {
      RoundedUpLeast(tlc, qlc, cons.computeToTlcRatio, cons.computeToQlcRatio);
    }
    hide LeastCompute;
  }

  // ----- pinned core counts -----

  datatype Pin = Pinned(cores: int, derived: int) | TooManyCores

  /** pinCores: the capacity-derived count, or the pinned one where it is large enough and within the limit. */
  function PinCores(caps: Caps, driveCores: int, cons: Constraints): Pin {
    var derived := RequiredDriveCores(caps, cons);
    var limit := cons.maxCoresPerContainer;
    if limit > 0 && derived > limit then TooManyCores
    else if driveCores <= 0 then Pinned(derived, derived)
    else if limit > 0 && driveCores > limit then TooManyCores
    else if driveCores < derived then TooManyCores
    else Pinned(driveCores, derived)
  }

  lemma PinnedEnough(caps: Caps, driveCores: int, cons: Constraints)
    requires PinCores(caps, driveCores, cons).Pinned?
    ensures var pin := PinCores(caps, driveCores, cons); 1 <= pin.derived <= pin.cores
  {
  }

  /**
   * A container is given the pinned cores, or the derived ones when none are pinned, exactly when these are at least
   * the derived ones and both are within the limit.
   */
  lemma PinExact(caps: Caps, driveCores: int, cons: Constraints)
    ensures var derived := RequiredDriveCores(caps, cons);
      var cores := if driveCores > 0 then driveCores else derived;
      var limited := cons.maxCoresPerContainer > 0;
      PinCores(caps, driveCores, cons) ==
        if cores >= derived && (limited ==> cores <= cons.maxCoresPerContainer) then Pinned(cores, derived)
        else TooManyCores
  {
  }

  // ----- totals over the final state -----

  /** A container's final core count: re-pinned if it grows, else unchanged. */
  function FinalCores(l: Ledger, c: ExistingContainer, driveCores: int, cons: Constraints): int {
    if c.name in l.growth then
      match PinCores(l.growth[c.name], driveCores, cons) case Pinned(cores, _) => cores case TooManyCores => 0
    else c.numCores
  }

  function ExistingTlcCores(existing: seq<ExistingContainer>, l: Ledger, driveCores: int, cons: Constraints): int {
    if existing == [] then 0 else
      var c := existing[|existing| - 1];
      ExistingTlcCores(existing[..|existing| - 1], l, driveCores, cons) +
      TlcCores(GrowthOf(l, c), FinalCores(l, c, driveCores, cons), cons)
  }

  function ExistingQlcCores(existing: seq<ExistingContainer>, l: Ledger, driveCores: int, cons: Constraints): int {
    if existing == [] then 0 else
      var c := existing[|existing| - 1];
      ExistingQlcCores(existing[..|existing| - 1], l, driveCores, cons) +
      QlcCores(GrowthOf(l, c), FinalCores(l, c, driveCores, cons), cons)
  }

  function ExistingCores(existing: seq<ExistingContainer>, l: Ledger, driveCores: int, cons: Constraints): int {
    if existing == [] then 0 else
      ExistingCores(existing[..|existing| - 1], l, driveCores, cons) +
      FinalCores(l, existing[|existing| - 1], driveCores, cons)
  }

  function NewTlcCores(create: seq<NewContainer>, cons: Constraints): int {
    if create == [] then 0 else
      var n := create[|create| - 1];
      NewTlcCores(create[..|create| - 1], cons) + TlcCores(n.caps, n.numCores, cons)
  }

  function NewQlcCores(create: seq<NewContainer>, cons: Constraints): int {
    if create == [] then 0 else
      var n := create[|create| - 1];
      NewQlcCores(create[..|create| - 1], cons) + QlcCores(n.caps, n.numCores, cons)
  }

  function NewCores(create: seq<NewContainer>): int {
    if create == [] then 0 else NewCores(create[..|create| - 1]) + create[|create| - 1].numCores
  }

  lemma {:induction false} ExistingAttribution(existing: seq<ExistingContainer>, l: Ledger, driveCores: int,
      cons: Constraints)
    requires forall c :: c in existing ==> FinalCores(l, c, driveCores, cons) >= 1
    ensures ExistingTlcCores(existing, l, driveCores, cons) + ExistingQlcCores(existing, l, driveCores, cons)
         == ExistingCores(existing, l, driveCores, cons)
    ensures ExistingTlcCores(existing, l, driveCores, cons) >= 0 && ExistingQlcCores(existing, l, driveCores, cons) >= 0
  {
    if existing != [] {
      var c := existing[|existing| - 1];
      ExistingAttribution(existing[..|existing| - 1], l, driveCores, cons);
      AttributionExact(GrowthOf(l, c), FinalCores(l, c, driveCores, cons), cons);
    }
  }

  lemma {:induction false} NewAttribution(create: seq<NewContainer>, cons: Constraints)
    requires forall i :: 0 <= i < |create| ==> create[i].numCores >= 1
    ensures NewTlcCores(create, cons) + NewQlcCores(create, cons) == NewCores(create)
    ensures NewTlcCores(create, cons) >= 0 && NewQlcCores(create, cons) >= 0
  {
    if create != [] {
      var n := create[|create| - 1];
      NewAttribution(create[..|create| - 1], cons);
      AttributionExact(n.caps, n.numCores, cons);
    }
  }
}
