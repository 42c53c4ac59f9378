/** The series that `waterfall_benefit` builds: one "relative" bar per
    component benefit and a closing "total" bar, plus a colour list. Only
    `measure`, `x` and `y` reach the chart; the colour list is computed and
    then never used, and the chart colours its bars by sign instead. The
    chart object itself is not modelled. */
module Waterfall {
  import opened Reals
  import opened BusinessCase
  import opened CaseProperties

  /** Last entry of the computed (and unused) colour list. */
  const TotalColor := "#0B5563"

  /** The `measure`, `x` and `y` lists passed to the chart, and the colour
      list computed beside them. */
  datatype Series = Series(measure: seq<string>, x: seq<string>, y: seq<real>, colors: seq<string>)

  /** Builds the series for `benefits` with axis `labels`; the colour list
      cycles through `palette` (an empty palette fails on the modulo as soon as
      there is a bar). */
  function WaterfallSeries(benefits: seq<real>, labels: seq<string>, palette: seq<string>): (s: Series)
    requires |palette| > 0 || |benefits| == 0
    ensures |s.measure| == |s.y| == |s.colors| == |benefits| + 1
    ensures |s.x| == |labels| + 1 && s.x[..|labels|] == labels && s.x[|labels|] == "Total"
    ensures forall i :: 0 <= i < |benefits| ==> s.measure[i] == "relative"
    ensures s.measure[|benefits|] == "total"
    ensures s.y[..|benefits|] == benefits
    ensures s.y[|benefits|] == Sum(s.y[..|benefits|])
    ensures forall i :: 0 <= i < |benefits| ==> s.colors[i] in palette
    ensures forall i :: 0 <= i < |benefits| && i < |palette| ==> s.colors[i] == palette[i]
    ensures forall i :: 0 <= i < |benefits| - |palette| ==> s.colors[i + |palette|] == s.colors[i]
    ensures s.colors[|benefits|] == TotalColor
  {
    var n := |benefits|;
    var measure := seq(n, _ => "relative") + ["total"];
    var x := labels + ["Total"];
    var y := benefits + [Sum(benefits)];
    var baseColors := CycleColors(n, palette);
    assert y[..n] == benefits;
    Series(measure, x, y, baseColors + [TotalColor])
  }

  /** `palette[i % len(palette)]` for the first `n` bars: the palette in
      order, starting over each time it runs out. */
  function CycleColors(n: nat, palette: seq<string>): (cs: seq<string>)
    requires |palette| > 0 || n == 0
    ensures |cs| == n
    ensures forall i :: 0 <= i < n ==> cs[i] in palette
    ensures forall i :: 0 <= i < n && i < |palette| ==> cs[i] == palette[i]
    ensures forall i :: 0 <= i < n - |palette| ==> cs[i + |palette|] == cs[i]
  {
    var cs := seq(n, i requires 0 <= i < n => palette[i % |palette|]);
    assert forall i :: 0 <= i < n - |palette| ==> cs[i + |palette|] == cs[i] by {
      forall i | 0 <= i < n - |palette| ensures cs[i + |palette|] == cs[i] {
        ModuloShift(i, |palette|);
      }
    }
    assert forall i :: 0 <= i < n && i < |palette| ==> cs[i] == palette[i] by {
      forall i | 0 <= i < n && i < |palette| ensures cs[i] == palette[i] {
        ModuloBelow(i, |palette|);
      }
    }
    cs
  }

  /** Shifting by a whole palette length lands on the same colour. */
  lemma ModuloShift(i: nat, m: nat)
    requires m > 0
    ensures (i + m) % m == i % m
  {
    var q, r := i / m, i % m;
    var q', r' := (i + m) / m, (i + m) % m;
    var k := q' - q - 1;
    assert k * m == r - r' by {
      assert i == q * m + r && i + m == q' * m + r';
      assert q' * m - q * m - m == (q' - q - 1) * m;
    }
    SmallMultipleIsZero(k, m);
  }

  /** The only multiple of `m` strictly between `-m` and `m` is 0. */
  lemma SmallMultipleIsZero(k: int, m: int)
    requires m > 0 && -m < k * m < m
    ensures k == 0
  {
  }

  /** The first palette-length bars take the palette's colours in order. */
  lemma ModuloBelow(i: nat, m: nat)
    requires i < m
    ensures i % m == i
  {
    var q, r := i / m, i % m;
    assert q * m == i - r;
  }

  /** When both delta lists reconcile, the chart's
      closing bar for the per-component benefits is the case's `B_total`. */
  lemma WaterfallReachesTotalBenefit(p: Inputs, labels: seq<string>, palette: seq<string>)
    requires WellFormed(p) && RecoveryReconciles(p) && AcidReconciles(p)
    requires |palette| > 0
    ensures |Case(p).bBy| == 4
    ensures WaterfallSeries(Case(p).bBy, labels, palette).y[4] == Case(p).bTotal
  {
    BenefitsReconcile(p);
  }
}
