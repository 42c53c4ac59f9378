/** The business-case engine of the acid-dosing calculator (`compute_case`):
    four improvement components C1..C4, applied in that fixed order, each
    compound a multiplicative step onto a running recovery and a running acid
    consumption; the results are clamped to the technical ceiling and floor,
    converted to annual tonnes and money, and attributed back to the
    components step by step. */
module BusinessCase {
  import opened Reals

  /** A component's on/off switch, `int(checkbox)`: 0 or 1. */
  type Switch = s: int | 0 <= s <= 1

  /** One component's entries in the `switches`, `thetas_R`, `gammas`,
      `thetas_A` and `alphas` dictionaries. */
  datatype Component = Component(
    switch: Switch,
    thetaR: real,  // diminishing-returns factor on recovery
    gamma: real,   // relative recovery improvement
    thetaA: real,  // diminishing-returns factor on acid
    alpha: real    // relative acid reduction
  )

  /** The arguments of `compute_case`; `components` holds C1, C2, C3, C4 in order. */
  datatype Inputs = Inputs(
    tonnageMt: real,   // ore treated, Mt per year
    gradePct: real,    // copper grade, %
    r0Pct: real,       // baseline recovery, %
    a0Kgpt: real,      // baseline acid consumption, kg/t
    priceCu: real,     // US$ per t of copper
    priceAcid: real,   // US$ per t of acid
    rMaxPct: real,     // recovery ceiling, %
    aMinKgpt: real,    // acid floor, kg/t
    components: seq<Component>
  )

  /** The dictionary that `compute_case` returns. */
  datatype CaseResult = CaseResult(
    rFinalPct: real,
    aFinalKgpt: real,
    dRTotalPts: real,
    dATotalKgpt: real,
    dCuTpy: real,
    acidSavedTpy: real,
    bCu: real,
    bAcid: real,
    bTotal: real,
    dRPtsBy: seq<real>,
    dABy: seq<real>,
    bBy: seq<real>
  )

  /** The component order C1..C4 has exactly four entries, one per dictionary key. */
  predicate WellFormed(p: Inputs) {
    |p.components| == 4
  }

  /** Mt/a to t/a. */
  function Tonnage(p: Inputs): real {
    p.tonnageMt * 1000000.0
  }

  /** Copper in the feed, t/a: tonnage times the grade as a fraction. */
  function CuInFeed(p: Inputs): real {
    Tonnage(p) * (p.gradePct / 100.0)
  }

  /** Additional copper produced, t/a, for a recovery gain of `dR` points. */
  function CopperGain(p: Inputs, dR: real): real {
    CuInFeed(p) * (dR / 100.0)
  }

  /** Acid saved, t/a, for a saving of `dA` kg per tonne of ore. */
  function AcidSaved(p: Inputs, dA: real): real {
    Tonnage(p) * (dA / 1000.0)
  }

  /** Value of the additional copper, US$/a. */
  function CopperValue(p: Inputs, dR: real): real {
    CopperGain(p, dR) * p.priceCu
  }

  /** Value of the saved acid, US$/a. */
  function AcidValue(p: Inputs, dA: real): real {
    AcidSaved(p, dA) * p.priceAcid
  }

  /** Recovery step factor of a component: `1 + s*θR*γ`. */
  function RecoveryFactor(c: Component): real {
    1.0 + (c.switch as real) * c.thetaR * c.gamma
  }

  /** Acid step factor of a component: `1 - s*θA*α`. */
  function AcidFactor(c: Component): real {
    1.0 - (c.switch as real) * c.thetaA * c.alpha
  }

  /** Running recovery `R[k]` after the first `k` components. */
  function RecoveryAt(r0: real, comps: seq<Component>, k: nat): real
    requires k <= |comps|
  {
    if k == 0 then r0 else RecoveryAt(r0, comps, k - 1) * RecoveryFactor(comps[k - 1])
  }

  /** Running acid `A[k]` after the first `k` components. */
  function AcidAt(a0: real, comps: seq<Component>, k: nat): real
    requires k <= |comps|
  {
    if k == 0 then a0 else AcidAt(a0, comps, k - 1) * AcidFactor(comps[k - 1])
  }

  /** The list `R = [R[0], ..., R[n]]`. */
  function RecoveryPath(p: Inputs): seq<real> {
    seq(|p.components| + 1, k requires 0 <= k <= |p.components| => RecoveryAt(p.r0Pct, p.components, k))
  }

  /** The list `A = [A[0], ..., A[n]]`. */
  function AcidPath(p: Inputs): seq<real> {
    seq(|p.components| + 1, k requires 0 <= k <= |p.components| => AcidAt(p.a0Kgpt, p.components, k))
  }

  /** `R[-1]`, the recovery before the ceiling is applied. */
  function RawRecovery(p: Inputs): real {
    RecoveryAt(p.r0Pct, p.components, |p.components|)
  }

  /** `A[-1]`, the acid consumption before the floor is applied. */
  function RawAcid(p: Inputs): real {
    AcidAt(p.a0Kgpt, p.components, |p.components|)
  }

  /** Raw per-step recovery gains `R[k] - R[k-1]`. */
  function RawRecoveryDeltas(p: Inputs): seq<real> {
    Rises(RecoveryPath(p))
  }

  /** Raw per-step acid savings `A[k-1] - A[k]`. */
  function RawAcidDeltas(p: Inputs): seq<real> {
    Drops(AcidPath(p))
  }

  /** The ad hoc correction of a breach: only the last delta is reduced by
      the excess and floored at 0; every other entry is kept. */
  function CorrectLast(d: seq<real>, excess: real): (r: seq<real>)
    requires |d| >= 1
    ensures |r| == |d| && r[..|d| - 1] == d[..|d| - 1]
    ensures r[|d| - 1] >= 0.0 && r[|d| - 1] >= d[|d| - 1] - excess
    ensures r[|d| - 1] == d[|d| - 1] - excess || r[|d| - 1] == 0.0
  {
    d[|d| - 1 := Max(d[|d| - 1] - excess, 0.0)]
  }

  /** `dR_pts_by`: the raw recovery deltas, with the last one corrected when
      the ceiling is exceeded. */
  function CreditedRecovery(p: Inputs): seq<real>
    requires WellFormed(p)
  {
    if RawRecovery(p) > p.rMaxPct
    then CorrectLast(RawRecoveryDeltas(p), RawRecovery(p) - p.rMaxPct)
    else RawRecoveryDeltas(p)
  }

  /** `dA_by`: the raw acid savings, with the last one corrected when the
      floor is undershot. */
  function CreditedAcid(p: Inputs): seq<real>
    requires WellFormed(p)
  {
    if RawAcid(p) < p.aMinKgpt
    then CorrectLast(RawAcidDeltas(p), p.aMinKgpt - RawAcid(p))
    else RawAcidDeltas(p)
  }

  /** Annual benefit of a recovery gain `dR` (points) and an acid saving `dA`
      (kg/t): extra copper times its price plus saved acid times its price. */
  function Benefit(p: Inputs, dR: real, dA: real): real {
    CopperValue(p, dR) + AcidValue(p, dA)
  }

  /** `B_by`: each component's benefit from its own credited deltas, or 0
      when it is switched off. */
  function ComponentBenefits(p: Inputs, dRs: seq<real>, dAs: seq<real>): seq<real>
    requires |dRs| == |dAs| == |p.components|
  {
    seq(|p.components|, k requires 0 <= k < |p.components| =>
      if p.components[k].switch == 0 then 0.0 else Benefit(p, dRs[k], dAs[k]))
  }

  /** What `compute_case` returns, stated without its loops. */
  function Case(p: Inputs): CaseResult
    requires WellFormed(p)
  {
    var rFinal := Min(RawRecovery(p), p.rMaxPct);
    var aFinal := Max(RawAcid(p), p.aMinKgpt);
    var dRTotal := rFinal - p.r0Pct;
    var dATotal := p.a0Kgpt - aFinal;
    var dCu := CopperGain(p, dRTotal);
    var acidSaved := AcidSaved(p, dATotal);
    var dRBy := CreditedRecovery(p);
    var dABy := CreditedAcid(p);
    CaseResult(rFinal, aFinal, dRTotal, dATotal, dCu, acidSaved,
               CopperValue(p, dRTotal), AcidValue(p, dATotal),
               CopperValue(p, dRTotal) + AcidValue(p, dATotal),
               dRBy, dABy, ComponentBenefits(p, dRBy, dABy))
  }

  /** The recovery loop of `compute_case`: `R` starts at the baseline and
      gets one compounded step appended per component, in order. */
  method RecoverySequence(p: Inputs) returns (r: seq<real>)
    requires WellFormed(p)
    ensures r == RecoveryPath(p)
  {
    r := [p.r0Pct];
    for i := 1 to 5
      invariant |r| == i
      invariant forall j :: 0 <= j < i ==> r[j] == RecoveryAt(p.r0Pct, p.components, j)
    {
      var c := p.components[i - 1];
      r := r + [r[i - 1] * RecoveryFactor(c)];
    }
  }

  /** The acid loop of `compute_case`: `A` starts at the baseline and gets one
      compounded step appended per component, in order. */
  method AcidSequence(p: Inputs) returns (a: seq<real>)
    requires WellFormed(p)
    ensures a == AcidPath(p)
  {
    a := [p.a0Kgpt];
    for i := 1 to 5
      invariant |a| == i
      invariant forall j :: 0 <= j < i ==> a[j] == AcidAt(p.a0Kgpt, p.components, j)
    {
      var c := p.components[i - 1];
      a := a + [a[i - 1] * AcidFactor(c)];
    }
  }

  /** The loop filling `dR_pts_by` with `R[k] - R[k-1]` for k = 1..4. */
  method RecoveryStepDeltas(r: seq<real>) returns (d: seq<real>)
    requires |r| == 5
    ensures d == Rises(r)
  {
    d := [];
    for k := 1 to 5
      invariant |d| == k - 1
      invariant forall j :: 0 <= j < k - 1 ==> d[j] == r[j + 1] - r[j]
    {
      d := d + [r[k] - r[k - 1]];
    }
  }

  /** The loop filling `dA_by` with `A[k-1] - A[k]` for k = 1..4. */
  method AcidStepDeltas(a: seq<real>) returns (d: seq<real>)
    requires |a| == 5
    ensures d == Drops(a)
  {
    d := [];
    for k := 1 to 5
      invariant |d| == k - 1
      invariant forall j :: 0 <= j < k - 1 ==> d[j] == a[j] - a[j + 1]
    {
      d := d + [a[k - 1] - a[k]];
    }
  }

  /** The loop filling `B_by`: 0 for a switched-off component, otherwise the
      benefit of that component's own deltas. */
  method ComponentBenefitList(p: Inputs, dRBy: seq<real>, dABy: seq<real>) returns (bBy: seq<real>)
    requires WellFormed(p) && |dRBy| == 4 && |dABy| == 4
    ensures bBy == ComponentBenefits(p, dRBy, dABy)
  {
    bBy := [];
    for k := 0 to 4
      invariant |bBy| == k
      invariant forall j :: 0 <= j < k ==> bBy[j] == ComponentBenefits(p, dRBy, dABy)[j]
    {
      var c := p.components[k];
      if c.switch == 0 {
        bBy := bBy + [0.0];
      } else {
        bBy := bBy + [Benefit(p, dRBy[k], dABy[k])];
      }
    }
  }

  /** `compute_case`: builds `R` and `A`, clamps, converts units, and fills
      the per-component lists, overwriting the last delta in place on a
      breach. */
  method ComputeCase(p: Inputs) returns (res: CaseResult)
    requires WellFormed(p)
    ensures res == Case(p)
  {
    var r := RecoverySequence(p);
    var rRawFinal := r[|r| - 1];
    assert rRawFinal == RawRecovery(p);
    var rFinal := Min(rRawFinal, p.rMaxPct);

    var a := AcidSequence(p);
    var aRawFinal := a[|a| - 1];
    assert aRawFinal == RawAcid(p);
    var aFinal := Max(aRawFinal, p.aMinKgpt);

    var dRTotal := rFinal - p.r0Pct;
    var dATotal := p.a0Kgpt - aFinal;
    var dCu := CopperGain(p, dRTotal);
    var acidSaved := AcidSaved(p, dATotal);
    var bCu := CopperValue(p, dRTotal);
    var bAcid := AcidValue(p, dATotal);
    var bTotal := bCu + bAcid;

    var dRBy := RecoveryStepDeltas(r);
    if rRawFinal > p.rMaxPct {
      var overshoot := rRawFinal - p.rMaxPct;
      dRBy := dRBy[|dRBy| - 1 := Max(dRBy[|dRBy| - 1] - overshoot, 0.0)];
    }
    assert dRBy == CreditedRecovery(p);

    var dABy := AcidStepDeltas(a);
    if aRawFinal < p.aMinKgpt {
      var undershoot := p.aMinKgpt - aRawFinal;
      dABy := dABy[|dABy| - 1 := Max(dABy[|dABy| - 1] - undershoot, 0.0)];
    }
    assert dABy == CreditedAcid(p);

    var bBy := ComponentBenefitList(p, dRBy, dABy);
    res := CaseResult(rFinal, aFinal, dRTotal, dATotal, dCu, acidSaved,
                      bCu, bAcid, bTotal, dRBy, dABy, bBy);
  }
}
