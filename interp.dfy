/** Linear interpolation and the quintic fade curve that `basic_noise` uses to
    blend the four corner contributions. */
module Interp {

  function Min(a: real, b: real): real { if a <= b then a else b }
  function Max(a: real, b: real): real { if a <= b then b else a }

  /** `lerp(a, b, weight)`: a at weight 0, b at weight 1. */
  function Lerp(a: real, b: real, weight: real): (r: real)
    ensures weight == 0.0 ==> r == a
    ensures weight == 1.0 ==> r == b
  {
    a + weight * (b - a)
  }

  lemma MulNonNegative(a: real, b: real)
    requires a >= 0.0 && b >= 0.0
    ensures a * b >= 0.0
  {
  }

  /** For a weight in [0, 1] the interpolant stays between its two ends. */
  lemma LerpBetween(a: real, b: real, weight: real)
    requires 0.0 <= weight <= 1.0
    ensures Min(a, b) <= Lerp(a, b, weight) <= Max(a, b)
  {
    if a <= b {
      MulNonNegative(weight, b - a);
      MulNonNegative(1.0 - weight, b - a);
    } else {
      MulNonNegative(weight, a - b);
      MulNonNegative(1.0 - weight, a - b);
    }
  }

  /** `smoothing_func(t)` = 6t^5 - 15t^4 + 10t^3, in Horner form as the code
      writes it. */
  function Smooth(t: real): (r: real)
    ensures t == 0.0 ==> r == 0.0
    ensures t == 1.0 ==> r == 1.0
  {
    ((6.0 * t - 15.0) * t + 10.0) * t * t * t
  }

  /** The fade curve has a triple root at 0 and meets 1 with a triple root at
      1, which is what makes its first and second derivatives vanish at both
      ends of a cell. */
  lemma SmoothFlatAtEnds(t: real)
    ensures Smooth(t) == t * t * t * (6.0 * t * t - 15.0 * t + 10.0)
    ensures 1.0 - Smooth(t) == (1.0 - t) * (1.0 - t) * (1.0 - t) * (6.0 * t * t + 3.0 * t + 1.0)
  {
  }

  /** The fade curve is point-symmetric about (1/2, 1/2). */
  lemma SmoothSymmetric(t: real)
    ensures Smooth(1.0 - t) == 1.0 - Smooth(t)
  {
  }

  /** On [0, 1] the fade curve stays in [0, 1], so blends use proper weights. */
  lemma SmoothRange(t: real)
    requires 0.0 <= t <= 1.0
    ensures 0.0 <= Smooth(t) <= 1.0
  {
    SmoothFlatAtEnds(t);
    var q := 6.0 * t * t - 15.0 * t + 10.0;
    assert q == 6.0 * (t - 1.25) * (t - 1.25) + 0.625;
    MulNonNegative(1.25 - t, 1.25 - t);
    assert q > 0.0;
    MulNonNegative(t, t);
    MulNonNegative(t * t, t);
    MulNonNegative(t * t * t, q);
    var u := 1.0 - t;
    var p := 6.0 * t * t + 3.0 * t + 1.0;
    assert p >= 1.0;
    MulNonNegative(u, u);
    MulNonNegative(u * u, u);
    MulNonNegative(u * u * u, p);
  }

  /** The three blends of a cell, with fade weights taken at offsets in
      [0, 1], stay within any bound m that the four blended values respect. */
  lemma BlendBounded(d0: real, d1: real, d2: real, d3: real, fx: real, fy: real, m: real)
    ensures (&& -m <= d0 <= m && -m <= d1 <= m && -m <= d2 <= m && -m <= d3 <= m
             && 0.0 <= fx <= 1.0 && 0.0 <= fy <= 1.0)
            ==> -m <= Lerp(Lerp(d0, d1, Smooth(fx)), Lerp(d2, d3, Smooth(fx)), Smooth(fy)) <= m
  {
    if && -m <= d0 <= m && -m <= d1 <= m && -m <= d2 <= m && -m <= d3 <= m
       && 0.0 <= fx <= 1.0 && 0.0 <= fy <= 1.0 {
      SmoothRange(fx);
      SmoothRange(fy);
      var sx := Smooth(fx);
      LerpBetween(d0, d1, sx);
      LerpBetween(d2, d3, sx);
      LerpBetween(Lerp(d0, d1, sx), Lerp(d2, d3, sx), Smooth(fy));
    }
  }

  /** Scaling a value of [-m, m] by a keeps it within m * |a| of 0. */
  lemma ScaleBounded(a: real, v: real, m: real)
    requires -m <= v <= m
    ensures -m * Max(a, -a) <= a * v <= m * Max(a, -a)
  {
    if a >= 0.0 {
      MulNonNegative(a, v + m);
      MulNonNegative(a, m - v);
    } else {
      MulNonNegative(-a, v + m);
      MulNonNegative(-a, m - v);
    }
  }

  /** Blending toward a value 1 lower lowers by the weight. */
  lemma LerpDownByOne(a: real, weight: real)
    ensures Lerp(a, a - 1.0, weight) == a - weight
  {
  }
}
