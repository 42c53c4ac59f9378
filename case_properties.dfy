/** What `compute_case` guarantees, and where its guarantees stop: clamping,
    switched-off components, the last-step correction of a breach, when the
    per-component deltas add up to the clamped totals, monotonicity of the
    running values, and the benefit formulas. */
module CaseProperties {
  import opened Reals
  import opened BusinessCase

  /** The recovery overshoot is at most C4's own step (or there is none),
      so the last-step correction can absorb it. */
  ghost predicate RecoveryReconciles(p: Inputs)
    requires WellFormed(p)
  {
    RawRecovery(p) <= p.rMaxPct || RawRecovery(p) - p.rMaxPct <= RawRecoveryDeltas(p)[3]
  }

  /** The acid undershoot is at most C4's own saving (or there is none). */
  ghost predicate AcidReconciles(p: Inputs)
    requires WellFormed(p)
  {
    RawAcid(p) >= p.aMinKgpt || p.aMinKgpt - RawAcid(p) <= RawAcidDeltas(p)[3]
  }

  /** Non-negative baseline recovery and non-negative θR, γ for every component. */
  ghost predicate RecoveryEffectsNonNegative(p: Inputs) {
    && p.r0Pct >= 0.0
    && forall k :: 0 <= k < |p.components| ==>
         p.components[k].thetaR >= 0.0 && p.components[k].gamma >= 0.0
  }

  /** Non-negative baseline acid and `0 <= θA*α <= 1` for every component. */
  ghost predicate AcidEffectsBounded(p: Inputs) {
    && p.a0Kgpt >= 0.0
    && forall k :: 0 <= k < |p.components| ==>
         0.0 <= p.components[k].thetaA * p.components[k].alpha <= 1.0
  }

  /** The ranges that the calculator's input widgets allow. */
  ghost predicate WithinInputRanges(p: Inputs) {
    && WellFormed(p)
    && 5.0 <= p.tonnageMt <= 20.0
    && 0.30 <= p.gradePct <= 1.00
    && 50.0 <= p.r0Pct <= 70.0
    && 25.0 <= p.a0Kgpt <= 50.0
    && 7000.0 <= p.priceCu <= 11000.0
    && 80.0 <= p.priceAcid <= 150.0
    && 65.0 <= p.rMaxPct <= 80.0
    && 15.0 <= p.aMinKgpt <= 25.0
    && forall k :: 0 <= k < |p.components| ==>
         && 0.0 <= p.components[k].gamma <= 0.05
         && 0.0 <= p.components[k].alpha <= 0.30
         && 0.0 <= p.components[k].thetaR <= 1.0
         && 0.0 <= p.components[k].thetaA <= 1.0
  }

  /** The reported final recovery is `min(R[4], Rmax)` and the final acid
      `max(A[4], Amin)`: never above the ceiling, never below the floor. */
  lemma ClampBounds(p: Inputs)
    requires WellFormed(p)
    ensures Case(p).rFinalPct <= p.rMaxPct && Case(p).rFinalPct <= RawRecovery(p)
    ensures Case(p).rFinalPct == (if RawRecovery(p) > p.rMaxPct then p.rMaxPct else RawRecovery(p))
    ensures Case(p).aFinalKgpt >= p.aMinKgpt && Case(p).aFinalKgpt >= RawAcid(p)
    ensures Case(p).aFinalKgpt == (if RawAcid(p) < p.aMinKgpt then p.aMinKgpt else RawAcid(p))
  {
  }

  /** A switched-off component leaves the running values where they were, and
      gets no recovery delta, no acid saving and no benefit. */
  lemma InactiveComponentContributesNothing(p: Inputs, k: nat)
    requires WellFormed(p) && k < 4 && p.components[k].switch == 0
    ensures RecoveryAt(p.r0Pct, p.components, k + 1) == RecoveryAt(p.r0Pct, p.components, k)
    ensures AcidAt(p.a0Kgpt, p.components, k + 1) == AcidAt(p.a0Kgpt, p.components, k)
    ensures Case(p).dRPtsBy[k] == 0.0 && Case(p).dABy[k] == 0.0 && Case(p).bBy[k] == 0.0
  {
    var rs, ac := RecoveryPath(p), AcidPath(p);
    assert rs[k + 1] == rs[k] && ac[k + 1] == ac[k];
    assert RawRecoveryDeltas(p)[k] == rs[k + 1] - rs[k] == 0.0;
    assert RawAcidDeltas(p)[k] == ac[k] - ac[k + 1] == 0.0;
  }

  /** Without a breach the recovery deltas are the raw steps; on a breach only
      C4's entry changes, to `max(d4 - overshoot, 0)`. The same for acid. */
  lemma BreachAdjustsOnlyLast(p: Inputs)
    requires WellFormed(p)
    ensures |Case(p).dRPtsBy| == 4 && |Case(p).dABy| == 4
    ensures RawRecovery(p) <= p.rMaxPct ==> Case(p).dRPtsBy == RawRecoveryDeltas(p)
    ensures RawRecovery(p) > p.rMaxPct ==>
      && Case(p).dRPtsBy[..3] == RawRecoveryDeltas(p)[..3]
      && Case(p).dRPtsBy[3] == Max(RawRecoveryDeltas(p)[3] - (RawRecovery(p) - p.rMaxPct), 0.0)
      && Case(p).dRPtsBy[3] >= 0.0
    ensures RawAcid(p) >= p.aMinKgpt ==> Case(p).dABy == RawAcidDeltas(p)
    ensures RawAcid(p) < p.aMinKgpt ==>
      && Case(p).dABy[..3] == RawAcidDeltas(p)[..3]
      && Case(p).dABy[3] == Max(RawAcidDeltas(p)[3] - (p.aMinKgpt - RawAcid(p)), 0.0)
      && Case(p).dABy[3] >= 0.0
  {
  }

  /** The raw recovery steps telescope to `R[4] - R[0]`, the raw acid savings
      to `A[0] - A[4]`. */
  lemma RawDeltasTelescope(p: Inputs)
    requires WellFormed(p)
    ensures Sum(RawRecoveryDeltas(p)) == RawRecovery(p) - p.r0Pct
    ensures Sum(RawAcidDeltas(p)) == p.a0Kgpt - RawAcid(p)
  {
    SumRisesTelescopes(RecoveryPath(p));
    SumDropsTelescopes(AcidPath(p));
  }

  /** The recovery deltas add up to `dR_total_pts` exactly when the overshoot
      (if any) fits in C4's own step; on a reconciled breach they add up to
      `Rmax - R0`, and otherwise they add up to more than the clamped total. */
  lemma RecoveryDeltasReconcile(p: Inputs)
    requires WellFormed(p)
    ensures Sum(Case(p).dRPtsBy) == Case(p).dRTotalPts <==> RecoveryReconciles(p)
    ensures RawRecovery(p) <= p.rMaxPct ==> Sum(Case(p).dRPtsBy) == RawRecovery(p) - p.r0Pct
    ensures RawRecovery(p) > p.rMaxPct && RecoveryReconciles(p) ==>
      Sum(Case(p).dRPtsBy) == p.rMaxPct - p.r0Pct
    ensures !RecoveryReconciles(p) ==> Sum(Case(p).dRPtsBy) > Case(p).dRTotalPts
  {
    RawDeltasTelescope(p);
    var raw := RawRecoveryDeltas(p);
    if RawRecovery(p) > p.rMaxPct {
      SumUpdateLast(raw, Max(raw[3] - (RawRecovery(p) - p.rMaxPct), 0.0));
    }
  }

  /** The acid savings add up to `dA_total_kgpt` exactly when the undershoot
      (if any) fits in C4's own saving; on a reconciled breach they add up to
      `A0 - Amin`, and otherwise they add up to more than the clamped total. */
  lemma AcidDeltasReconcile(p: Inputs)
    requires WellFormed(p)
    ensures Sum(Case(p).dABy) == Case(p).dATotalKgpt <==> AcidReconciles(p)
    ensures RawAcid(p) >= p.aMinKgpt ==> Sum(Case(p).dABy) == p.a0Kgpt - RawAcid(p)
    ensures RawAcid(p) < p.aMinKgpt && AcidReconciles(p) ==>
      Sum(Case(p).dABy) == p.a0Kgpt - p.aMinKgpt
    ensures !AcidReconciles(p) ==> Sum(Case(p).dABy) > Case(p).dATotalKgpt
  {
    RawDeltasTelescope(p);
    var raw := RawAcidDeltas(p);
    if RawAcid(p) < p.aMinKgpt {
      SumUpdateLast(raw, Max(raw[3] - (p.aMinKgpt - RawAcid(p)), 0.0));
    }
  }

  /** The overshoot fits in C4's step exactly when the ceiling is not already
      exceeded after C3. */
  lemma ReconcilesIffNotCrossedBeforeLast(p: Inputs)
    requires WellFormed(p)
    ensures RecoveryReconciles(p) <==>
      (RawRecovery(p) <= p.rMaxPct || RecoveryAt(p.r0Pct, p.components, 3) <= p.rMaxPct)
    ensures AcidReconciles(p) <==>
      (RawAcid(p) >= p.aMinKgpt || AcidAt(p.a0Kgpt, p.components, 3) >= p.aMinKgpt)
  {
  }

  /** With non-negative effects, each step keeps the running recovery
      non-negative and does not decrease it. */
  lemma {:induction false} RecoveryStepRises(p: Inputs, k: nat)
    requires RecoveryEffectsNonNegative(p) && k < |p.components|
    ensures 0.0 <= RecoveryAt(p.r0Pct, p.components, k)
    ensures RecoveryAt(p.r0Pct, p.components, k) <= RecoveryAt(p.r0Pct, p.components, k + 1)
  {
    if k > 0 {
      RecoveryStepRises(p, k - 1);
    }
    var c := p.components[k];
    var x := RecoveryAt(p.r0Pct, p.components, k);
    var step := (c.switch as real) * c.thetaR * c.gamma;
    assert (c.switch as real) * c.thetaR >= 0.0;
    assert step >= 0.0;
    assert x * step >= 0.0;
    assert RecoveryAt(p.r0Pct, p.components, k + 1) == x + x * step;
  }

  /** With non-negative effects the running recovery never decreases: every
      raw recovery step is non-negative and `R[i] <= R[j]` for `i <= j`. */
  lemma {:induction false} RecoveryNonDecreasing(p: Inputs, i: nat, j: nat)
    requires RecoveryEffectsNonNegative(p) && i <= j <= |p.components|
    ensures 0.0 <= RecoveryAt(p.r0Pct, p.components, i) <= RecoveryAt(p.r0Pct, p.components, j)
  {
    if i < j {
      RecoveryNonDecreasing(p, i, j - 1);
      RecoveryStepRises(p, j - 1);
    } else if i < |p.components| {
      RecoveryStepRises(p, i);
    } else if i > 0 {
      RecoveryStepRises(p, i - 1);
      RecoveryNonDecreasing(p, i - 1, i);
    }
  }

  /** With `0 <= θA*α <= 1`, each step keeps the running acid non-negative and
      does not increase it. */
  lemma {:induction false} AcidStepFalls(p: Inputs, k: nat)
    requires AcidEffectsBounded(p) && k < |p.components|
    ensures 0.0 <= AcidAt(p.a0Kgpt, p.components, k + 1)
    ensures AcidAt(p.a0Kgpt, p.components, k + 1) <= AcidAt(p.a0Kgpt, p.components, k)
  {
    var x := AcidAt(p.a0Kgpt, p.components, k);
    if k > 0 {
      AcidStepFalls(p, k - 1);
    }
    assert x >= 0.0;
    var c := p.components[k];
    var step := (c.switch as real) * c.thetaA * c.alpha;
    assert 0.0 <= c.thetaA * c.alpha <= 1.0;
    assert 0.0 <= step <= 1.0 by {
      if c.switch == 0 {
        assert step == 0.0;
      } else {
        assert step == c.thetaA * c.alpha;
      }
    }
    assert AcidAt(p.a0Kgpt, p.components, k + 1) == x * (1.0 - step);
    ShrinkByFraction(x, step);
  }

  /** Taking away a fraction between 0 and 1 of a non-negative amount leaves
      between 0 and the whole amount. */
  lemma ShrinkByFraction(x: real, f: real)
    requires x >= 0.0 && 0.0 <= f <= 1.0
    ensures 0.0 <= x * (1.0 - f) <= x
  {
    ProductNonNegative(x, 1.0 - f);
    ProductNonNegative(x, f);
    assert x * (1.0 - f) == x - x * f;
  }

  /** With `0 <= θA*α <= 1` the running acid never increases and stays
      non-negative: `0 <= A[j] <= A[i]` for `i <= j`. */
  lemma {:induction false} AcidNonIncreasing(p: Inputs, i: nat, j: nat)
    requires AcidEffectsBounded(p) && i <= j <= |p.components|
    ensures 0.0 <= AcidAt(p.a0Kgpt, p.components, j) <= AcidAt(p.a0Kgpt, p.components, i)
  {
    if i < j {
      AcidNonIncreasing(p, i, j - 1);
      AcidStepFalls(p, j - 1);
    } else if j > 0 {
      AcidStepFalls(p, j - 1);
    }
  }

  /** The input widgets' ranges give non-negative recovery effects and
      `θA*α <= 0.3`, so both running values are monotone. */
  lemma InputRangesBoundEffects(p: Inputs)
    requires WithinInputRanges(p)
    ensures RecoveryEffectsNonNegative(p) && AcidEffectsBounded(p)
    ensures forall k :: 0 <= k < |p.components| ==>
      p.components[k].thetaA * p.components[k].alpha <= 0.3
  {
    forall k | 0 <= k < |p.components|
      ensures 0.0 <= p.components[k].thetaA * p.components[k].alpha <= 0.3
    {
      var c := p.components[k];
      ProductNonNegative(c.thetaA, c.alpha);
      ProductNonNegative(1.0 - c.thetaA, c.alpha);
      assert c.alpha - c.thetaA * c.alpha == (1.0 - c.thetaA) * c.alpha;
    }
  }

  /** Under monotone running values every credited delta is non-negative,
      both raw steps and the corrected last one. */
  lemma CreditedDeltasNonNegative(p: Inputs)
    requires WellFormed(p) && RecoveryEffectsNonNegative(p) && AcidEffectsBounded(p)
    ensures forall k :: 0 <= k < 4 ==> Case(p).dRPtsBy[k] >= 0.0 && Case(p).dABy[k] >= 0.0
  {
    forall k | 0 <= k < 4
      ensures RawRecoveryDeltas(p)[k] >= 0.0 && RawAcidDeltas(p)[k] >= 0.0
    {
      RecoveryStepRises(p, k);
      AcidStepFalls(p, k);
    }
  }

  /** Within the input ranges no component gets a negative benefit, so the
      chart drawn from `B_by` has no negative bar. */
  lemma BenefitsNonNegative(p: Inputs)
    requires WithinInputRanges(p)
    ensures forall k :: 0 <= k < 4 ==> Case(p).bBy[k] >= 0.0
  {
    InputRangesBoundEffects(p);
    CreditedDeltasNonNegative(p);
    BenefitsAreLinear(p);
    RatesNonNegative(p);
    CombineNonNegative(CopperRate(p), Case(p).dRPtsBy, AcidRate(p), Case(p).dABy);
  }

  /** Within the input ranges a recovery point and a kg/t of acid are worth
      a non-negative amount. */
  lemma RatesNonNegative(p: Inputs)
    requires WithinInputRanges(p)
    ensures CopperRate(p) >= 0.0 && AcidRate(p) >= 0.0
  {
    var t := Tonnage(p);
    ProductNonNegative(t, p.gradePct / 100.0);
    ProductNonNegative(t * (p.gradePct / 100.0) / 100.0, p.priceCu);
    ProductNonNegative(t / 1000.0, p.priceAcid);
  }

  /** Switching C4 off while the ceiling is breached leaves the overshoot
      uncorrected: the recovery deltas add up to more than `dR_total_pts`. */
  lemma InactiveLastOvercreditsRecovery(p: Inputs)
    requires WellFormed(p) && p.components[3].switch == 0 && RawRecovery(p) > p.rMaxPct
    ensures Sum(Case(p).dRPtsBy) > Case(p).dRTotalPts
  {
    InactiveComponentContributesNothing(p, 3);
    assert RawRecoveryDeltas(p)[3] == 0.0;
    RecoveryDeltasReconcile(p);
  }

  /** Switching C4 off while the floor is undershot: the acid savings add up
      to more than `dA_total_kgpt`. */
  lemma InactiveLastOvercreditsAcid(p: Inputs)
    requires WellFormed(p) && p.components[3].switch == 0 && RawAcid(p) < p.aMinKgpt
    ensures Sum(Case(p).dABy) > Case(p).dATotalKgpt
  {
    InactiveComponentContributesNothing(p, 3);
    assert RawAcidDeltas(p)[3] == 0.0;
    AcidDeltasReconcile(p);
  }

  /** A ceiling below the baseline is always breached: `dR_total_pts` is the
      negative `Rmax - R0`, and the recovery deltas add up to more than it. */
  lemma CeilingBelowBaselineOvercredits(p: Inputs)
    requires WellFormed(p) && RecoveryEffectsNonNegative(p) && p.rMaxPct < p.r0Pct
    ensures RawRecovery(p) > p.rMaxPct
    ensures Case(p).dRTotalPts == p.rMaxPct - p.r0Pct < 0.0
    ensures Sum(Case(p).dRPtsBy) > Case(p).dRTotalPts
  {
    RecoveryNonDecreasing(p, 0, 3);
    RecoveryNonDecreasing(p, 3, 4);
    RecoveryDeltasReconcile(p);
  }

  /** A floor above the baseline is always undershot, and the acid savings
      then add up to more than `dA_total_kgpt`. */
  lemma FloorAboveBaselineOvercredits(p: Inputs)
    requires WellFormed(p) && AcidEffectsBounded(p) && p.aMinKgpt > p.a0Kgpt
    ensures RawAcid(p) < p.aMinKgpt
    ensures Sum(Case(p).dABy) > Case(p).dATotalKgpt
  {
    AcidNonIncreasing(p, 0, 3);
    AcidNonIncreasing(p, 3, 4);
    AcidDeltasReconcile(p);
  }

  /** Benefit per recovery point: `(T*1e6)*(G/100)/100*P_Cu`. */
  function CopperRate(p: Inputs): real {
    Tonnage(p) * (p.gradePct / 100.0) / 100.0 * p.priceCu
  }

  /** Benefit per kg/t of acid saved: `(T*1e6)/1000*P_Acid`. */
  function AcidRate(p: Inputs): real {
    Tonnage(p) / 1000.0 * p.priceAcid
  }

  /** The benefit is linear in the two deltas. */
  lemma BenefitIsLinear(p: Inputs, dR: real, dA: real)
    ensures Benefit(p, dR, dA) == CopperRate(p) * dR + AcidRate(p) * dA
  {
    var t, g := Tonnage(p), p.gradePct / 100.0;
    calc {
      CopperGain(p, dR) * p.priceCu;
      (t * g) * (dR / 100.0) * p.priceCu;
      { assert (t * g) * (dR / 100.0) == (t * g / 100.0) * dR; }
      (t * g / 100.0) * dR * p.priceCu;
      CopperRate(p) * dR;
    }
    calc {
      AcidSaved(p, dA) * p.priceAcid;
      t * (dA / 1000.0) * p.priceAcid;
      { assert t * (dA / 1000.0) == (t / 1000.0) * dA; }
      (t / 1000.0) * dA * p.priceAcid;
      AcidRate(p) * dA;
    }
  }

  /** The aggregate figures: `B_total = B_Cu + B_Acid`, with
      `B_Cu = (T*1e6)*(G/100)*(dR_total/100)*P_Cu` and
      `B_Acid = (T*1e6)*(dA_total/1000)*P_Acid`; the total is the same
      benefit formula that is applied per component. */
  lemma TotalBenefit(p: Inputs)
    requires WellFormed(p)
    ensures Case(p).bTotal == Case(p).bCu + Case(p).bAcid
    ensures Case(p).dCuTpy == (p.tonnageMt * 1000000.0) * (p.gradePct / 100.0) * (Case(p).dRTotalPts / 100.0)
    ensures Case(p).acidSavedTpy == (p.tonnageMt * 1000000.0) * (Case(p).dATotalKgpt / 1000.0)
    ensures Case(p).bCu == Case(p).dCuTpy * p.priceCu
    ensures Case(p).bAcid == Case(p).acidSavedTpy * p.priceAcid
    ensures Case(p).bTotal == Benefit(p, Case(p).dRTotalPts, Case(p).dATotalKgpt)
  {
    TotalsConvert(p, Case(p));
  }

  /** The conversions and sums that hold of any record whose totals are
      computed as `compute_case` computes them. */
  lemma TotalsConvert(p: Inputs, c: CaseResult)
    requires c.dCuTpy == CopperGain(p, c.dRTotalPts) && c.acidSavedTpy == AcidSaved(p, c.dATotalKgpt)
    requires c.bCu == CopperValue(p, c.dRTotalPts) && c.bAcid == AcidValue(p, c.dATotalKgpt)
    requires c.bTotal == c.bCu + c.bAcid
    ensures c.dCuTpy == (p.tonnageMt * 1000000.0) * (p.gradePct / 100.0) * (c.dRTotalPts / 100.0)
    ensures c.acidSavedTpy == (p.tonnageMt * 1000000.0) * (c.dATotalKgpt / 1000.0)
    ensures c.bCu == c.dCuTpy * p.priceCu
    ensures c.bAcid == c.acidSavedTpy * p.priceAcid
    ensures c.bTotal == Benefit(p, c.dRTotalPts, c.dATotalKgpt)
  {
  }

  /** Each component's benefit is the benefit formula applied to its own
      deltas; a switched-off component gets 0, which is the same formula
      applied to its deltas as long as those are 0 too. */
  lemma ComponentBenefitsAreLinear(p: Inputs, dRs: seq<real>, dAs: seq<real>)
    requires |dRs| == |dAs| == |p.components|
    requires forall k :: 0 <= k < |dRs| && p.components[k].switch == 0 ==> dRs[k] == 0.0 && dAs[k] == 0.0
    ensures ComponentBenefits(p, dRs, dAs) == Combine(CopperRate(p), dRs, AcidRate(p), dAs)
  {
    var bs, lin := ComponentBenefits(p, dRs, dAs), Combine(CopperRate(p), dRs, AcidRate(p), dAs);
    forall k | 0 <= k < |p.components| ensures bs[k] == lin[k] {
      if p.components[k].switch == 1 {
        BenefitIsLinear(p, dRs[k], dAs[k]);
      }
    }
  }

  /** Whatever the switches, `B_by` is the pointwise linear combination of
      `dR_pts_by` and `dA_by`: switched-off components are credited with
      zero deltas, C4 on a breach included. */
  lemma BenefitsAreLinear(p: Inputs)
    requires WellFormed(p)
    ensures Case(p).bBy == Combine(CopperRate(p), Case(p).dRPtsBy, AcidRate(p), Case(p).dABy)
  {
    forall k | 0 <= k < 4 && p.components[k].switch == 0
      ensures Case(p).dRPtsBy[k] == 0.0 && Case(p).dABy[k] == 0.0
    {
      InactiveComponentContributesNothing(p, k);
    }
    ComponentBenefitsAreLinear(p, Case(p).dRPtsBy, Case(p).dABy);
  }

  /** With both delta lists reconciled, the per-component benefits add up to
      `B_total`, whatever the switches. */
  lemma BenefitsReconcile(p: Inputs)
    requires WellFormed(p)
    requires RecoveryReconciles(p) && AcidReconciles(p)
    ensures Sum(Case(p).bBy) == Case(p).bTotal
  {
    var c := Case(p);
    BenefitsAreLinear(p);
    RecoveryDeltasReconcile(p);
    AcidDeltasReconcile(p);
    TotalBenefit(p);
    LinearSumsAgree(p, c);
  }

  /** With acid reconciled and a positive value per recovery point, an
      unreconciled recovery breach makes the per-component benefits add up
      to more than `B_total`, whatever the switches. */
  lemma UnreconciledBreachOverstatesBenefit(p: Inputs)
    requires WellFormed(p) && AcidReconciles(p)
    requires !RecoveryReconciles(p) && CopperRate(p) > 0.0
    ensures Sum(Case(p).bBy) > Case(p).bTotal
  {
    var c := Case(p);
    BenefitsAreLinear(p);
    RecoveryDeltasReconcile(p);
    AcidDeltasReconcile(p);
    TotalBenefit(p);
    LinearSumsExceed(p, c);
  }

  /** With acid reconciled, recovery deltas that exceed `dR_total_pts` by
      `gap` points make the per-component benefits exceed `B_total` by the
      value of those points, whatever the switches. */
  lemma RecoverySurplusValue(p: Inputs, gap: real, value: real)
    requires WellFormed(p) && AcidReconciles(p)
    requires Sum(Case(p).dRPtsBy) == Case(p).dRTotalPts + gap && CopperRate(p) * gap == value
    ensures Sum(Case(p).bBy) == Case(p).bTotal + value
  {
    var c := Case(p);
    BenefitsAreLinear(p);
    AcidDeltasReconcile(p);
    TotalBenefit(p);
    LinearSumsSurplus(p, c, gap, value);
  }

  /** For any record whose benefits are linear in its deltas and whose total
      is the benefit of its totals: delta lists that add up to their totals
      give benefits that add up to the total. */
  lemma LinearSumsAgree(p: Inputs, c: CaseResult)
    requires |c.dRPtsBy| == |c.dABy| == 4
    requires c.bBy == Combine(CopperRate(p), c.dRPtsBy, AcidRate(p), c.dABy)
    requires c.bTotal == Benefit(p, c.dRTotalPts, c.dATotalKgpt)
    requires Sum(c.dRPtsBy) == c.dRTotalPts && Sum(c.dABy) == c.dATotalKgpt
    ensures Sum(c.bBy) == c.bTotal
  {
    LinearSumsSurplus(p, c, 0.0, 0.0);
  }

  /** For a record as in `LinearSumsAgree`, recovery deltas that add up to
      more than their total overstate the benefits. */
  lemma LinearSumsExceed(p: Inputs, c: CaseResult)
    requires |c.dRPtsBy| == |c.dABy| == 4 && CopperRate(p) > 0.0
    requires c.bBy == Combine(CopperRate(p), c.dRPtsBy, AcidRate(p), c.dABy)
    requires c.bTotal == Benefit(p, c.dRTotalPts, c.dATotalKgpt)
    requires Sum(c.dRPtsBy) > c.dRTotalPts && Sum(c.dABy) == c.dATotalKgpt
    ensures Sum(c.bBy) > c.bTotal
  {
    var gap := Sum(c.dRPtsBy) - c.dRTotalPts;
    ScaleStrict(CopperRate(p), gap, 0.0);
    LinearSumsSurplus(p, c, gap, CopperRate(p) * gap);
  }

  /** For a record as in `LinearSumsAgree` whose acid savings add up to their
      total, recovery deltas that exceed their total by `gap` points
      overstate the benefits by the value of those points. */
  lemma LinearSumsSurplus(p: Inputs, c: CaseResult, gap: real, value: real)
    requires |c.dRPtsBy| == |c.dABy| == 4
    requires c.bBy == Combine(CopperRate(p), c.dRPtsBy, AcidRate(p), c.dABy)
    requires c.bTotal == Benefit(p, c.dRTotalPts, c.dATotalKgpt)
    requires Sum(c.dABy) == c.dATotalKgpt
    requires Sum(c.dRPtsBy) == c.dRTotalPts + gap && CopperRate(p) * gap == value
    ensures Sum(c.bBy) == c.bTotal + value
  {
    SumCombineOfFour(CopperRate(p), c.dRPtsBy, AcidRate(p), c.dABy);
    BenefitIsLinear(p, c.dRTotalPts, c.dATotalKgpt);
    RegroupGap(CopperRate(p), Sum(c.dRPtsBy), c.dRTotalPts, gap, value,
               AcidRate(p), Sum(c.dABy), c.dATotalKgpt);
  }

  /** `cr*s + ar*a == (cr*t + ar*a) + cr*gap` when `s == t + gap`. */
  lemma RegroupGap(cr: real, s: real, t: real, gap: real, value: real, ar: real, a: real, a': real)
    requires s == t + gap && cr * gap == value && a == a'
    ensures cr * s + ar * a == (cr * t + ar * a') + value
  {
    assert cr * s == cr * t + cr * gap;
  }

  /** Multiplying by a positive factor keeps a strict order. */
  lemma ScaleStrict(k: real, x: real, y: real)
    requires k > 0.0 && x > y
    ensures k * x > k * y
  {
    assert k * x - k * y == k * (x - y);
  }
}
