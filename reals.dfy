/** Python's `min`/`max` on two numbers, sums of lists of reals, and the
    step-by-step differences of a running value, with the telescoping facts
    the attribution of the business case rests on. */
module Reals {

  /** `min(a, b)`: the smaller of the two (the first one on a tie). */
  function Min(a: real, b: real): (m: real)
    ensures m <= a && m <= b
    ensures m == a || m == b
  {
    if b < a then b else a
  }

  /** `max(a, b)`: the larger of the two (the first one on a tie). */
  function Max(a: real, b: real): (m: real)
    ensures m >= a && m >= b
    ensures m == a || m == b
  {
    if b > a then b else a
  }

  /** `sum(s)`, accumulated left to right. */
  function Sum(s: seq<real>): real
    decreases |s|
  {
    if s == [] then 0.0 else Sum(s[..|s| - 1]) + s[|s| - 1]
  }

  /** The increase of a running value at each step: `xs[k+1] - xs[k]`. */
  function Rises(xs: seq<real>): seq<real>
    requires |xs| >= 1
  {
    seq(|xs| - 1, k requires 0 <= k < |xs| - 1 => xs[k + 1] - xs[k])
  }

  /** The decrease of a running value at each step: `xs[k] - xs[k+1]`. */
  function Drops(xs: seq<real>): seq<real>
    requires |xs| >= 1
  {
    seq(|xs| - 1, k requires 0 <= k < |xs| - 1 => xs[k] - xs[k + 1])
  }

  /** Pointwise `a * xs[k] + b * ys[k]`. */
  function Combine(a: real, xs: seq<real>, b: real, ys: seq<real>): seq<real>
    requires |xs| == |ys|
  {
    seq(|xs|, k requires 0 <= k < |xs| => a * xs[k] + b * ys[k])
  }

  /** The step increases of a running value add up to its overall change. */
  lemma {:induction false} SumRisesTelescopes(xs: seq<real>)
    requires |xs| >= 1
    ensures Sum(Rises(xs)) == xs[|xs| - 1] - xs[0]
  {
    if |xs| > 1 {
      var ys := xs[..|xs| - 1];
      SumRisesTelescopes(ys);
      assert Rises(xs)[..|xs| - 2] == Rises(ys);
    }
  }

  /** The step decreases of a running value add up to its overall fall. */
  lemma {:induction false} SumDropsTelescopes(xs: seq<real>)
    requires |xs| >= 1
    ensures Sum(Drops(xs)) == xs[0] - xs[|xs| - 1]
  {
    if |xs| > 1 {
      var ys := xs[..|xs| - 1];
      SumDropsTelescopes(ys);
      assert Drops(xs)[..|xs| - 2] == Drops(ys);
    }
  }

  /** Overwriting the last entry changes the sum by exactly the difference. */
  lemma SumUpdateLast(s: seq<real>, v: real)
    requires |s| >= 1
    ensures Sum(s[|s| - 1 := v]) == Sum(s) - s[|s| - 1] + v
  {
    assert s[|s| - 1 := v][..|s| - 1] == s[..|s| - 1];
  }

  /** The sum of a pointwise linear combination of two four-entry lists is
      that combination of their sums. */
  lemma SumCombineOfFour(a: real, xs: seq<real>, b: real, ys: seq<real>)
    requires |xs| == |ys| == 4
    ensures Sum(Combine(a, xs, b, ys)) == a * Sum(xs) + b * Sum(ys)
  {
    SumCombineOfFourExpanded(a, xs, b, ys);
    SumOfFour(xs);
    SumOfFour(ys);
    RegroupFour(a, xs[0], xs[1], xs[2], xs[3], Sum(xs), b, ys[0], ys[1], ys[2], ys[3], Sum(ys));
  }

  /** The sum of a pointwise linear combination of two four-entry lists,
      written out entry by entry. */
  lemma SumCombineOfFourExpanded(a: real, xs: seq<real>, b: real, ys: seq<real>)
    requires |xs| == |ys| == 4
    ensures Sum(Combine(a, xs, b, ys))
         == (a * xs[0] + b * ys[0]) + (a * xs[1] + b * ys[1]) + (a * xs[2] + b * ys[2]) + (a * xs[3] + b * ys[3])
  {
    var zs := Combine(a, xs, b, ys);
    SumOfFour(zs);
    CombineAt(a, xs, b, ys, 0);
    CombineAt(a, xs, b, ys, 1);
    CombineAt(a, xs, b, ys, 2);
    CombineAt(a, xs, b, ys, 3);
  }

  /** One entry of a pointwise linear combination. */
  lemma CombineAt(a: real, xs: seq<real>, b: real, ys: seq<real>, k: nat)
    requires |xs| == |ys| && k < |xs|
    ensures Combine(a, xs, b, ys)[k] == a * xs[k] + b * ys[k]
  {
  }

  /** Distributivity over four terms, in the shape `SumCombineOfFour` needs. */
  lemma RegroupFour(a: real, x0: real, x1: real, x2: real, x3: real, sx: real,
                    b: real, y0: real, y1: real, y2: real, y3: real, sy: real)
    requires sx == x0 + x1 + x2 + x3 && sy == y0 + y1 + y2 + y3
    ensures (a * x0 + b * y0) + (a * x1 + b * y1) + (a * x2 + b * y2) + (a * x3 + b * y3)
         == a * sx + b * sy
  {
  }

  /** The sum of a four-entry list, written out. */
  lemma SumOfFour(s: seq<real>)
    requires |s| == 4
    ensures Sum(s) == s[0] + s[1] + s[2] + s[3]
  {
    var s3, s2, s1 := s[..3], s[..2], s[..1];
    assert s3[..2] == s2 && s2[..1] == s1 && s1[..0] == [];
    assert Sum(s1) == s[0];
    assert Sum(s2) == s[0] + s[1];
    assert Sum(s3) == s[0] + s[1] + s[2];
  }

  /** A combination with non-negative weights of non-negative lists is
      non-negative entry by entry. */
  lemma CombineNonNegative(a: real, xs: seq<real>, b: real, ys: seq<real>)
    requires |xs| == |ys| && a >= 0.0 && b >= 0.0
    requires forall k :: 0 <= k < |xs| ==> xs[k] >= 0.0 && ys[k] >= 0.0
    ensures forall k :: 0 <= k < |xs| ==> Combine(a, xs, b, ys)[k] >= 0.0
  {
    forall k | 0 <= k < |xs|
      ensures Combine(a, xs, b, ys)[k] >= 0.0
    {
      CombineAt(a, xs, b, ys, k);
      ProductNonNegative(a, xs[k]);
      ProductNonNegative(b, ys[k]);
    }
  }

  /** A product of non-negative numbers is non-negative. */
  lemma ProductNonNegative(x: real, y: real)
    requires x >= 0.0 && y >= 0.0
    ensures x * y >= 0.0
  {
  }
}
