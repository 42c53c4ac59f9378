# AcidSmart business case, modelled in Dafny

This project models the calculation engine of the AcidSmart business-case
calculator for smart acid dosing in mineral curing. The engine is
`compute_case` in `app.py`. It covers four improvement components, C1 to C4,
applied in that fixed order. Each switched-on component compounds a
multiplicative step onto a running copper recovery, `R[i] = R[i-1]*(1 + s*θR*γ)`,
and onto a running acid consumption, `A[i] = A[i-1]*(1 - s*θA*α)`. The final
recovery is clamped to the ceiling `Rmax` and the final acid to the floor `Amin`.
The totals are converted to annual copper, acid and money. Each component is
credited with its own step. On a breach only C4's step is corrected, and a
switched-off component gets no benefit. The project also models the series
that `waterfall_benefit` builds for the chart.

Modules:

- `Reals` (`reals.dfy`): Python's `min`/`max`, `sum`, the steps of a running value, and the telescoping lemmas.
- `BusinessCase` (`business_case.dfy`): the inputs and result records; the specification functions (`RecoveryAt`, `AcidAt`, `CreditedRecovery`, `CreditedAcid`, `Benefit`, `Case`); and the imperative `ComputeCase`, with one loop method per loop of the source.
- `CaseProperties` (`case_properties.dfy`): what the computed case guarantees, and where those guarantees stop.
- `Waterfall` (`waterfall.dfy`): the `measure`/`x`/`y` lists passed to the chart, and the colour list `waterfall_benefit` computes but never passes on.
- `CappedAttribution` (`capped_attribution.dfy`): the attribution the last-step correction is meant to give (see Findings), with a concrete case for recovery and one for acid.

All quantities are Dafny `real`s. Switches are 0 or 1. The dictionaries keyed
`C1`..`C4` become a four-entry sequence of `Component` records.

## Model

| member | source | states |
|---|---|---|
| `BusinessCase.ComputeCase` | app.py:13-117 | The returned record is exactly `Case(p)`: the clamped finals, the totals, the unit conversions, the per-component deltas with the last-step correction, and the benefits, each defined declaratively |
| `BusinessCase.RecoverySequence` | app.py:30-37 | The list built by appending one compounded step per component equals the running recovery `R[0..4]`, with `R[0] = R0` and `R[i] = R[i-1]*(1 + s*θR*γ)` |
| `BusinessCase.AcidSequence` | app.py:42-48 | The list built by appending equals the running acid `A[0..4]`, with `A[i] = A[i-1]*(1 - s*θA*α)` |
| `BusinessCase.RecoveryStepDeltas` | app.py:71-74 | The appended list is the step gains `R[k] - R[k-1]` of the running recovery |
| `BusinessCase.AcidStepDeltas` | app.py:83-86 | The appended list is the step savings `A[k-1] - A[k]` of the running acid |
| `BusinessCase.ComponentBenefitList` | app.py:93-101 | The appended list holds 0 for each switched-off component and, for each other component, the benefit formula applied to that component's own deltas |
| `BusinessCase.CorrectLast` | app.py:77-80 | The breach correction keeps every entry except the last. The last becomes non-negative and at least `d_last - excess`, and it equals either `d_last - excess` or 0 |
| `Reals.Min` | app.py:39 | `min` is at most both arguments and is one of them |
| `Reals.Max` | app.py:50 | `max` is at least both arguments and is one of them |
| `Reals.CombineNonNegative` | app.py:98-100 | A combination with non-negative weights of non-negative deltas is non-negative entry by entry |
| `Reals.SumRisesTelescopes` | app.py:71-74 | The step gains of any running value add up to its last value minus its first |
| `Reals.SumDropsTelescopes` | app.py:83-86 | The step savings of any running value add up to its first value minus its last |
| `CaseProperties.ClampBounds` | app.py:38-50 | The final recovery is `min(R[4], Rmax)`, so it is at most `Rmax`. The final acid is `max(A[4], Amin)`, so it is at least `Amin` |
| `CaseProperties.InactiveComponentContributesNothing` | app.py:33-101 | For a component whose switch is 0: `R[k+1] = R[k]`, `A[k+1] = A[k]`, and its `dR_pts_by`, `dA_by` and `B_by` entries are 0. This also holds for C4 on a breach |
| `CaseProperties.BreachAdjustsOnlyLast` | app.py:71-90 | Without a breach the deltas are the raw steps. On a breach only the C4 entry changes, to `max(d4 - overshoot, 0) >= 0`, and C1..C3 keep their raw steps. The same holds for acid |
| `CaseProperties.RawDeltasTelescope` | app.py:71-86 | The raw recovery steps add up to `R[4] - R0`, and the raw acid savings add up to `A0 - A[4]` |
| `CaseProperties.RecoveryDeltasReconcile` | app.py:53-80 | The recovery deltas add up to `dR_total_pts` if and only if there is no breach or the overshoot is at most C4's step. On such a breach they add up to `Rmax - R0`. Otherwise they add up to more than `dR_total_pts` |
| `CaseProperties.AcidDeltasReconcile` | app.py:56-90 | The acid savings add up to `dA_total_kgpt` if and only if there is no breach or the undershoot is at most C4's saving. On such a breach they add up to `A0 - Amin`. Otherwise they add up to more |
| `CaseProperties.ReconcilesIffNotCrossedBeforeLast` | app.py:77-90 | The overshoot fits in C4's step exactly when `R[3] <= Rmax`, and the undershoot fits exactly when `A[3] >= Amin` |
| `CaseProperties.RecoveryStepRises` | app.py:36 | With `R0 >= 0` and `θR, γ >= 0`, each step keeps the running recovery non-negative and does not lower it |
| `CaseProperties.RecoveryNonDecreasing` | app.py:30-37 | Under the same conditions, `0 <= R[i] <= R[j]` for all `i <= j` |
| `CaseProperties.AcidStepFalls` | app.py:47 | With `A0 >= 0` and `0 <= θA*α <= 1`, each step keeps the running acid non-negative and does not raise it |
| `CaseProperties.AcidNonIncreasing` | app.py:42-48 | Under the same conditions, `0 <= A[j] <= A[i]` for all `i <= j` |
| `CaseProperties.InputRangesBoundEffects` | app.py:173-192 | The input widgets' ranges give non-negative recovery effects and `0 <= θA*α <= 0.3`, so both running values are monotone |
| `CaseProperties.CreditedDeltasNonNegative` | app.py:71-90 | With monotone running values, every recovery delta and acid saving is non-negative, including a corrected C4 entry |
| `CaseProperties.InactiveLastOvercreditsRecovery` | app.py:77-80 | If C4 is off and the ceiling is breached, the recovery deltas add up to more than `dR_total_pts` |
| `CaseProperties.InactiveLastOvercreditsAcid` | app.py:88-90 | If C4 is off and the floor is undershot, the acid savings add up to more than `dA_total_kgpt` |
| `CaseProperties.CeilingBelowBaselineOvercredits` | app.py:53-80 | If `Rmax < R0` and the effects are non-negative, the ceiling is always breached, `dR_total_pts = Rmax - R0` is negative, and the deltas add up to more than it |
| `CaseProperties.FloorAboveBaselineOvercredits` | app.py:56-90 | If `Amin > A0` and acid effects are bounded, the floor is always undershot and the savings add up to more than `dA_total_kgpt` |
| `CaseProperties.BenefitIsLinear` | app.py:98-100 | The benefit formula is linear: `Benefit(dR, dA) = CopperRate*dR + AcidRate*dA` |
| `CaseProperties.TotalBenefit` | app.py:23-67 | `dCu_tpy = (T*1e6)*(G/100)*(dR_total/100)` and `acid_saved_tpy = (T*1e6)*(dA_total/1000)`. `B_Cu` and `B_Acid` are these times the prices, and `B_total = B_Cu + B_Acid` is the per-component formula applied to the totals |
| `CaseProperties.ComponentBenefitsAreLinear` | app.py:93-101 | For any delta lists that are 0 at every switched-off component, the `B_by` loop gives the pointwise combination `CopperRate*dR_k + AcidRate*dA_k` |
| `CaseProperties.BenefitsAreLinear` | app.py:71-101 | For any switch settings, `B_by` is the pointwise linear combination of `dR_pts_by` and `dA_by` |
| `CaseProperties.RecoverySurplusValue` | app.py:65-101 | When acid reconciles and the recovery deltas exceed `dR_total_pts` by a gap, `sum(B_by)` exceeds `B_total` by exactly the copper value of that gap |
| `CaseProperties.BenefitsNonNegative` | app.py:93-101 | Within the input widgets' ranges every `B_by` entry is non-negative, so the chart drawn from it has no negative bar |
| `CaseProperties.RatesNonNegative` | app.py:98-100 | Within the input widgets' ranges the value of a recovery point and of a kg/t of saved acid are non-negative |
| `CaseProperties.BenefitsReconcile` | app.py:59-101 | When both delta lists reconcile, `sum(B_by) = B_total` |
| `CaseProperties.UnreconciledBreachOverstatesBenefit` | app.py:65-101 | When acid reconciles, the recovery breach does not reconcile, and copper has positive value, `sum(B_by) > B_total` |
| `Waterfall.WaterfallSeries` | app.py:121-127 | The series has one entry per benefit plus one. The first entries are "relative", the last is "total". `x` is the labels plus "Total". `y` is the benefits followed by their sum. The computed colour list cycles through the palette and ends in `#0B5563`; it is never passed to the chart |
| `Waterfall.CycleColors` | app.py:125 | The `i`-th entry of the computed colour list is in the palette; the first palette-length entries take the palette in order, and each later entry repeats the one a palette length earlier |
| `Waterfall.WaterfallReachesTotalBenefit` | app.py:121-123 | When both delta lists reconcile, the chart's closing bar equals `B_total` |
| `CappedAttribution.CappedRecoveryReconciles` | app.py:76-80 | With `R0 <= Rmax`, the steps of the capped running recovery always add up to `dR_total_pts` |
| `CappedAttribution.FlooredAcidReconciles` | app.py:87-90 | With `A0 >= Amin`, the steps of the floored running acid always add up to `dA_total_kgpt` |
| `CappedAttribution.CappedDeltasBounded` | app.py:71-90 | With monotone running values, each corrected delta lies between 0 and the component's raw step |
| `CappedAttribution.CappedRecoveryMatchesCode` | app.py:77-80 | If `R[3] <= Rmax` and recovery is non-decreasing, the capped steps equal the code's recovery deltas |
| `CappedAttribution.FlooredAcidMatchesCode` | app.py:88-90 | If `A[3] >= Amin` and acid is non-increasing, the floored steps equal the code's acid savings |
| `CappedAttribution.CodeRecoveryAgreesIffReconciled` | app.py:71-80 | Under monotone recovery and `R0 <= Rmax`, the code's recovery deltas equal the capped ones if and only if they reconcile |
| `CappedAttribution.CodeAcidAgreesIffReconciled` | app.py:83-90 | Under monotone acid and `A0 >= Amin`, the code's acid savings equal the floored ones if and only if they reconcile |
| `CappedAttribution.CrossedBeforeLastPaths` | app.py:30-50 | The recovery example lies within the widget ranges. Its raw final recovery is 66.15, `R[3] = 66.15`, and its acid stays above the floor |
| `CappedAttribution.CodeOvercreditsWhenCrossedBeforeLast` | app.py:77-80 | In the recovery example, the code's deltas add up to 6.15 points while `dR_total_pts = 5`. The capped deltas add up to 5 |
| `CappedAttribution.CodeOverstatesBenefitWhenCrossedBeforeLast` | app.py:93-101 | In the recovery example, `sum(B_by)` exceeds `B_total` by 5,175,000 |
| `CappedAttribution.AcidCrossedBeforeLastPaths` | app.py:42-50 | The acid example lies within the widget ranges, and its raw final acid is 17.5 |
| `CappedAttribution.CodeOvercreditsAcidWhenCrossedBeforeLast` | app.py:88-90 | In the acid example, the code's savings add up to 7.5 kg/t while `dA_total_kgpt = 0`. The floored savings add up to 0 |

## Left out

- The Streamlit page, sidebar widgets, metrics, layout and table (app.py:5, app.py:151-252) are not modelled: they are user interface. The widget ranges appear only as the predicate `CaseProperties.WithinInputRanges`.
- The Plotly `Figure`/`Waterfall` construction and its layout (app.py:129-146) are not modelled: they are calls into a charting library. Only the series lists are modelled.
- `fmt_money` and the `round(..., 3)` calls (app.py:10-11, app.py:248-249) are not modelled: they only format numbers for display.
- IEEE floating point is not modelled. Every quantity is an exact real, so every equality proved here is an equality of real arithmetic. The integer prices from the widgets are reals too.
- An additive contribution model and Proportional or Weighted allocation of the total among the components are not modelled: `app.py` has only the multiplicative, sequential computation. The credited deltas do not always add up to the clamped total (see Findings and `CaseProperties.RecoveryDeltasReconcile`).
- The widget ranges allow a ceiling below the baseline (`R0 = 70`, `Rmax = 65`). The code then reports the negative gain `dR_total_pts = Rmax - R0`, so `B_Cu` is negative, and so is `B_total` unless the acid saving outweighs it, while every `B_by` entry stays non-negative (`CaseProperties.CeilingBelowBaselineOvercredits`, `CaseProperties.BenefitsNonNegative`). The model keeps this behaviour of the code; it does not treat the case as zero improvement.
- The input dictionaries are not modelled as dictionaries. A dictionary missing one of `C1`..`C4` raises `KeyError`, which becomes the precondition `WellFormed` (exactly four components). A switch is restricted to 0 or 1, because the caller builds it with `int(bool)`.
- `ComputeCase` splits its loops into one method per loop. The clamping, totals and in-place last-entry overwrite stay in `ComputeCase` itself.
- `Waterfall.WaterfallSeries`: an empty palette with at least one benefit raises `ZeroDivisionError` in the source. It is a precondition here.
- The chart's colours are not modelled. `go.Waterfall` (app.py:129-139) colours bars by sign and total (`#328BA1`, `#DC5214`, `#DEA942`) and never receives the `colors` list of app.py:124-127, so that list is dead code in the source; the model states what it holds but does not claim that any bar is drawn in those colours.

## Findings

| source | as written | input that shows it | evidently intended | confidence | as-written member | corrected member |
|---|---|---|---|---|---|---|
| app.py:77-80 | On a ceiling breach only C4's delta is reduced, to `max(d4 - overshoot, 0)`. If the ceiling was already crossed before C4, the deltas add up to more than `dR_total_pts`, and `B_by` adds up to more than `B_total` | `R0 = 60`, `Rmax = 65`, C1 and C2 on with `θR = 1`, `γ = 0.05`, C3 and C4 off. The deltas are 3, 3.15, 0, 0, summing to 6.15 against `dR_total_pts = 5`, and `sum(B_by) - B_total = 5,175,000` | The deltas add up to `R_final - R0`, as the comment at line 78 says: each component is credited with its step of the running recovery capped at `Rmax` | high (proved; not executed) | `CappedAttribution.CodeOvercreditsWhenCrossedBeforeLast` | `CappedAttribution.CappedRecoveryReconciles` |
| app.py:88-90 | On a floor breach only C4's saving is reduced, to `max(d4 - undershoot, 0)`. If the floor was already crossed before C4, the savings add up to more than `dA_total_kgpt` | `A0 = 25`, `Amin = 25`, only C1 on with `θA = 1`, `α = 0.3`. The savings are 7.5, 0, 0, 0, summing to 7.5 against `dA_total_kgpt = 0` | The savings add up to `A0 - A_final`: each component is credited with its step of the running acid floored at `Amin` | high (proved; not executed) | `CappedAttribution.CodeOvercreditsAcidWhenCrossedBeforeLast` | `CappedAttribution.FlooredAcidReconciles` |

`ComputeCase` keeps the correction as written, because it models the code. The
corrected attribution is `CappedAttribution.CappedRecoveryDeltas` and
`CappedAttribution.FlooredAcidDeltas`. It always reconciles when the baseline
is within the limits, and each corrected entry lies between 0 and the raw step
(`CappedAttribution.CappedDeltasBounded`). For non-negative effects and a baseline within the limits (`R0 <= Rmax`,
`A0 >= Amin`), it agrees with the code exactly when the code reconciles (`CappedAttribution.CodeRecoveryAgreesIffReconciled`,
`CappedAttribution.CodeAcidAgreesIffReconciled`).
