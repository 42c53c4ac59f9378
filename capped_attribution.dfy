/** The attribution the last-step correction of `compute_case` is meant to
    produce ("so that the total matches R_final"): each component is credited
    with the step of the running value after the ceiling (or floor) is applied
    at every step. Its deltas always add up to the clamped total, and they
    coincide with the code's deltas exactly when the code's correction
    reconciles. A concrete case within the input widgets' ranges shows the
    code's deltas overshooting. */
module CappedAttribution {
  import opened Reals
  import opened BusinessCase
  import opened CaseProperties

  /** The running values with the ceiling applied at every step. */
  function CeilingPath(xs: seq<real>, ceiling: real): seq<real> {
    seq(|xs|, k requires 0 <= k < |xs| => Min(xs[k], ceiling))
  }

  /** The running values with the floor applied at every step. */
  function FloorPath(xs: seq<real>, floor: real): seq<real> {
    seq(|xs|, k requires 0 <= k < |xs| => Max(xs[k], floor))
  }

  /** Corrected `dR_pts_by`: the step gains of the capped running recovery. */
  function CappedRecoveryDeltas(p: Inputs): seq<real> {
    Rises(CeilingPath(RecoveryPath(p), p.rMaxPct))
  }

  /** Corrected `dA_by`: the step savings of the floored running acid. */
  function FlooredAcidDeltas(p: Inputs): seq<real> {
    Drops(FloorPath(AcidPath(p), p.aMinKgpt))
  }

  /** With the baseline at or below the ceiling, the corrected recovery
      deltas always add up to the clamped total `dR_total_pts`. */
  lemma CappedRecoveryReconciles(p: Inputs)
    requires WellFormed(p) && p.r0Pct <= p.rMaxPct
    ensures Sum(CappedRecoveryDeltas(p)) == Case(p).dRTotalPts
  {
    SumRisesTelescopes(CeilingPath(RecoveryPath(p), p.rMaxPct));
  }

  /** With the baseline at or above the floor, the corrected acid savings
      always add up to the clamped total `dA_total_kgpt`. */
  lemma FlooredAcidReconciles(p: Inputs)
    requires WellFormed(p) && p.a0Kgpt >= p.aMinKgpt
    ensures Sum(FlooredAcidDeltas(p)) == Case(p).dATotalKgpt
  {
    SumDropsTelescopes(FloorPath(AcidPath(p), p.aMinKgpt));
  }

  /** Under monotone running values every corrected delta lies between 0 and
      the component's raw step. */
  lemma CappedDeltasBounded(p: Inputs)
    requires WellFormed(p) && RecoveryEffectsNonNegative(p) && AcidEffectsBounded(p)
    ensures forall k :: 0 <= k < 4 ==>
      0.0 <= CappedRecoveryDeltas(p)[k] <= RawRecoveryDeltas(p)[k]
    ensures forall k :: 0 <= k < 4 ==>
      0.0 <= FlooredAcidDeltas(p)[k] <= RawAcidDeltas(p)[k]
  {
    forall k | 0 <= k < 4
      ensures 0.0 <= CappedRecoveryDeltas(p)[k] <= RawRecoveryDeltas(p)[k]
      ensures 0.0 <= FlooredAcidDeltas(p)[k] <= RawAcidDeltas(p)[k]
    {
      RecoveryStepRises(p, k);
      AcidStepFalls(p, k);
    }
  }

  /** When the ceiling is not crossed before C4, the capped steps are the
      code's recovery deltas, corrected last step included. */
  lemma CappedRecoveryMatchesCode(p: Inputs)
    requires WellFormed(p) && RecoveryEffectsNonNegative(p)
    requires RecoveryAt(p.r0Pct, p.components, 3) <= p.rMaxPct
    ensures CappedRecoveryDeltas(p) == CreditedRecovery(p)
  {
    var capped, code, raw := CappedRecoveryDeltas(p), CreditedRecovery(p), RawRecoveryDeltas(p);
    var path := RecoveryPath(p);
    RecoveryNonDecreasing(p, 3, 4);
    forall k | 0 <= k < 3 ensures capped[k] == code[k] {
      RecoveryNonDecreasing(p, k, 3);
      RecoveryNonDecreasing(p, k + 1, 3);
      assert capped[k] == path[k + 1] - path[k] == raw[k];
      assert code[..3] == raw[..3];
      assert code[k] == code[..3][k];
    }
    assert capped[3] == code[3];
  }

  /** When the floor is not crossed before C4, the floored steps are the
      code's acid savings, corrected last step included. */
  lemma FlooredAcidMatchesCode(p: Inputs)
    requires WellFormed(p) && AcidEffectsBounded(p)
    requires AcidAt(p.a0Kgpt, p.components, 3) >= p.aMinKgpt
    ensures FlooredAcidDeltas(p) == CreditedAcid(p)
  {
    var floored, code, raw := FlooredAcidDeltas(p), CreditedAcid(p), RawAcidDeltas(p);
    var path := AcidPath(p);
    AcidNonIncreasing(p, 3, 4);
    forall k | 0 <= k < 3 ensures floored[k] == code[k] {
      AcidNonIncreasing(p, k, 3);
      AcidNonIncreasing(p, k + 1, 3);
      assert floored[k] == path[k] - path[k + 1] == raw[k];
      assert code[..3] == raw[..3];
      assert code[k] == code[..3][k];
    }
    assert floored[3] == code[3];
  }

  /** Under monotone running values and a baseline inside the limits, the
      code's recovery deltas equal the corrected ones exactly when they
      reconcile. */
  lemma CodeRecoveryAgreesIffReconciled(p: Inputs)
    requires WellFormed(p) && RecoveryEffectsNonNegative(p) && p.r0Pct <= p.rMaxPct
    ensures Case(p).dRPtsBy == CappedRecoveryDeltas(p) <==> RecoveryReconciles(p)
  {
    assert Case(p).dRPtsBy == CreditedRecovery(p);
    CappedRecoveryReconciles(p);
    RecoveryDeltasReconcile(p);
    ReconcilesIffNotCrossedBeforeLast(p);
    if RecoveryReconciles(p) {
      if RecoveryAt(p.r0Pct, p.components, 3) > p.rMaxPct {
        RecoveryNonDecreasing(p, 3, 4);
      }
      CappedRecoveryMatchesCode(p);
    }
  }

  /** Under a non-increasing running acid and a baseline inside the limits,
      the code's acid savings equal the corrected ones exactly when they
      reconcile. */
  lemma CodeAcidAgreesIffReconciled(p: Inputs)
    requires WellFormed(p) && AcidEffectsBounded(p) && p.a0Kgpt >= p.aMinKgpt
    ensures Case(p).dABy == FlooredAcidDeltas(p) <==> AcidReconciles(p)
  {
    assert Case(p).dABy == CreditedAcid(p);
    FlooredAcidReconciles(p);
    AcidDeltasReconcile(p);
    ReconcilesIffNotCrossedBeforeLast(p);
    if AcidReconciles(p) {
      if AcidAt(p.a0Kgpt, p.components, 3) < p.aMinKgpt {
        AcidNonIncreasing(p, 3, 4);
      }
      FlooredAcidMatchesCode(p);
    }
  }

  /** Baseline 60 %, ceiling 65 %, C1 and C2 on with θR = 1 and γ = 0.05,
      C3 and C4 off: the recovery reaches 66.15 % after C2. */
  const CrossedBeforeLast := Inputs(
    10.0, 0.5, 60.0, 35.0, 9000.0, 120.0, 65.0, 20.0,
    [Component(1, 1.0, 0.05, 1.0, 0.02), Component(1, 1.0, 0.05, 0.85, 0.04),
     Component(0, 0.7, 0.01, 0.8, 0.03), Component(0, 0.6, 0.02, 0.7, 0.1)])

  /** The example lies within the input widgets' ranges; its running
      recovery is 60, 63, 66.15, 66.15, 66.15 and its running acid stays
      above the floor. */
  lemma CrossedBeforeLastPaths()
    ensures WithinInputRanges(CrossedBeforeLast)
    ensures RecoveryAt(CrossedBeforeLast.r0Pct, CrossedBeforeLast.components, 3) == 66.15
    ensures RawRecovery(CrossedBeforeLast) == 66.15
    ensures RawAcid(CrossedBeforeLast) > CrossedBeforeLast.aMinKgpt
  {
    var p := CrossedBeforeLast;
    forall k | 0 <= k < |p.components|
      ensures 0.0 <= p.components[k].gamma <= 0.05 && 0.0 <= p.components[k].alpha <= 0.30
      ensures 0.0 <= p.components[k].thetaR <= 1.0 && 0.0 <= p.components[k].thetaA <= 1.0
    {
      assert k == 0 || k == 1 || k == 2 || k == 3;
    }
    assert RecoveryAt(p.r0Pct, p.components, 1) == 63.0;
    assert RecoveryAt(p.r0Pct, p.components, 2) == 66.15;
    assert AcidAt(p.a0Kgpt, p.components, 4) == AcidAt(p.a0Kgpt, p.components, 2);
  }

  /** In that case the code credits 6.15 recovery points for a clamped gain
      of 5, while the corrected deltas add up to 5. */
  lemma CodeOvercreditsWhenCrossedBeforeLast()
    ensures WithinInputRanges(CrossedBeforeLast)
    ensures Case(CrossedBeforeLast).dRTotalPts == 5.0
    ensures Sum(Case(CrossedBeforeLast).dRPtsBy) == 6.15
    ensures Sum(CappedRecoveryDeltas(CrossedBeforeLast)) == 5.0
  {
    var p := CrossedBeforeLast;
    CrossedBeforeLastPaths();
    RawDeltasTelescope(p);
    var raw := RawRecoveryDeltas(p);
    assert raw[3] == 0.0;
    assert CreditedRecovery(p) == raw[3 := 0.0] == raw;
    CappedRecoveryReconciles(p);
  }

  /** In that case the per-component benefits exceed `B_total` by the value
      of the 1.15 surplus points. */
  lemma CodeOverstatesBenefitWhenCrossedBeforeLast()
    ensures Sum(Case(CrossedBeforeLast).bBy) == Case(CrossedBeforeLast).bTotal + 5175000.0
  {
    var p := CrossedBeforeLast;
    CodeOvercreditsWhenCrossedBeforeLast();
    CrossedBeforeLastPaths();
    assert CopperRate(p) * 1.15 == 5175000.0;
    RecoverySurplusValue(p, 1.15, 5175000.0);
  }

  /** Baseline acid 25 kg/t, floor 25 kg/t, only C1 on with θA = 1 and
      α = 0.3: the running acid falls to 17.5 kg/t at C1. */
  const AcidCrossedBeforeLast := Inputs(
    10.0, 0.5, 60.0, 25.0, 9000.0, 120.0, 75.0, 25.0,
    [Component(1, 1.0, 0.005, 1.0, 0.3), Component(0, 0.8, 0.015, 0.85, 0.04),
     Component(0, 0.7, 0.01, 0.8, 0.03), Component(0, 0.6, 0.02, 0.7, 0.1)])

  /** The example lies within the input widgets' ranges; its running acid is
      25, 17.5, 17.5, 17.5, 17.5. */
  lemma AcidCrossedBeforeLastPaths()
    ensures WithinInputRanges(AcidCrossedBeforeLast)
    ensures RawAcid(AcidCrossedBeforeLast) == 17.5
  {
    var p := AcidCrossedBeforeLast;
    forall k | 0 <= k < |p.components|
      ensures 0.0 <= p.components[k].gamma <= 0.05 && 0.0 <= p.components[k].alpha <= 0.30
      ensures 0.0 <= p.components[k].thetaR <= 1.0 && 0.0 <= p.components[k].thetaA <= 1.0
    {
      assert k == 0 || k == 1 || k == 2 || k == 3;
    }
    assert AcidAt(p.a0Kgpt, p.components, 1) == 17.5;
    assert AcidAt(p.a0Kgpt, p.components, 2) == 17.5;
    assert AcidAt(p.a0Kgpt, p.components, 3) == 17.5;
  }

  /** In that case the code credits a saving of 7.5 kg/t for a clamped saving
      of 0, while the corrected savings add up to 0. */
  lemma CodeOvercreditsAcidWhenCrossedBeforeLast()
    ensures WithinInputRanges(AcidCrossedBeforeLast)
    ensures Case(AcidCrossedBeforeLast).dATotalKgpt == 0.0
    ensures Sum(Case(AcidCrossedBeforeLast).dABy) == 7.5
    ensures Sum(FlooredAcidDeltas(AcidCrossedBeforeLast)) == 0.0
  {
    var p := AcidCrossedBeforeLast;
    AcidCrossedBeforeLastPaths();
    RawDeltasTelescope(p);
    var raw := RawAcidDeltas(p);
    assert raw[3] == 0.0;
    assert CreditedAcid(p) == raw[3 := 0.0] == raw;
    FlooredAcidReconciles(p);
  }
}
