/**
  compute_mean_depth_from_sounding_grid in GGSurveyEstimator.py: the line
  spacing estimated from the soundings inside the selected polygon, as
  |multiplier * mean depth|, with 1000 when the sounding grid is missing or
  no sounding falls inside the polygon.
*/
module SpacingEstimate {
  import opened Wrappers
  import PyText

  /** The spacing used when no depth can be found. */
  const FALLBACK_SPACING: real := 1000.0

  /** sum_z after the loop: the elevations added in order. */
  function Sum(z: seq<real>): real
  {
    if z == [] then 0.0 else Sum(z[..|z| - 1]) + z[|z| - 1]
  }

  /** sum_z / count_z: the mean elevation of the soundings. */
  function Mean(z: seq<real>): real
    requires |z| > 0
  {
    Sum(z) / |z| as real
  }

  /**
    The spacing the estimate returns. `soundings` is None when the Survey_Sounding_Grid feature class does not
    exist, otherwise the ELEVATION of every sounding that the clip to the polygon keeps.
  */
  function MeanDepthSpacing(soundings: Option<seq<real>>, multiplier: real): (spacing: real)
    ensures spacing >= 0.0
    ensures soundings.None? || soundings.value == [] ==> spacing == FALLBACK_SPACING
  {
    match soundings
    case None => FALLBACK_SPACING
    case Some(z) => if |z| > 0 then PyText.Abs(multiplier * Mean(z)) else FALLBACK_SPACING
  }

  /** Over soundings of one depth d the estimate is |multiplier * d|. */
  lemma UniformDepth(z: seq<real>, d: real, multiplier: real)
    requires |z| > 0 && forall i :: 0 <= i < |z| ==> z[i] == d
    ensures MeanDepthSpacing(Some(z), multiplier) == PyText.Abs(multiplier * d)
  {
    SumOfConstant(z, d);
    var n := |z| as real;
    assert Mean(z) == n * d / n == d;
  }

  lemma {:induction false} SumOfConstant(z: seq<real>, d: real)
    requires forall i :: 0 <= i < |z| ==> z[i] == d
    ensures Sum(z) == |z| as real * d
  {
    if z != [] {
      SumOfConstant(z[..|z| - 1], d);
    }
  }

  /**
    Soundings between two elevations lo and hi, of any sign, have their mean between lo and hi, and the estimate is
    |multiplier * mean|. With a non-negative multiplier that bounds the estimate: between multiplier * lo and
    multiplier * hi for elevations at or above zero, and between multiplier * -hi and multiplier * -lo for
    elevations at or below zero (bathymetric depths, which GEBCO stores as negative values).
  */
  lemma EstimateBetweenDepths(z: seq<real>, lo: real, hi: real, multiplier: real)
    requires |z| > 0 && multiplier >= 0.0
    requires forall i :: 0 <= i < |z| ==> lo <= z[i] <= hi
    ensures lo <= Mean(z) <= hi
    ensures MeanDepthSpacing(Some(z), multiplier) == PyText.Abs(multiplier * Mean(z))
    ensures 0.0 <= lo ==> multiplier * lo <= MeanDepthSpacing(Some(z), multiplier) <= multiplier * hi
    ensures hi <= 0.0 ==> multiplier * -hi <= MeanDepthSpacing(Some(z), multiplier) <= multiplier * -lo
  {
    var mean := Mean(z);
    assert lo <= mean <= hi by {
      SumBetween(z, lo, hi);
      MeanBetween(Sum(z), |z| as real, lo, hi);
    }
    assert MeanDepthSpacing(Some(z), multiplier) == PyText.Abs(multiplier * mean);
    ScaledAbsBetween(multiplier, lo, mean, hi);
  }

  /** |m * x| for x between lo and hi, bounded by m times the bounds when both share a sign. */
  lemma ScaledAbsBetween(m: real, lo: real, x: real, hi: real)
    requires m >= 0.0 && lo <= x <= hi
    ensures 0.0 <= lo ==> m * lo <= PyText.Abs(m * x) <= m * hi
    ensures hi <= 0.0 ==> m * -hi <= PyText.Abs(m * x) <= m * -lo
  {
    if 0.0 <= lo {
      ScaleMonotone(m, 0.0, lo);
      ScaleMonotone(m, lo, x);
      ScaleMonotone(m, x, hi);
    }
    if hi <= 0.0 {
      ScaleMonotone(m, 0.0, -hi);
      ScaleMonotone(m, -hi, -x);
      ScaleMonotone(m, -x, -lo);
      assert m * x == -(m * -x);
    }
  }

  lemma ScaleMonotone(m: real, a: real, b: real)
    requires m >= 0.0 && a <= b
    ensures m * a <= m * b
  {
    assert m * b - m * a == m * (b - a);
  }

  /** A total between n * lo and n * hi has its average between lo and hi. */
  lemma MeanBetween(total: real, n: real, lo: real, hi: real)
    requires n > 0.0 && n * lo <= total <= n * hi
    ensures lo <= total / n <= hi
  {
    assert total / n - lo == (total - n * lo) / n;
    assert hi - total / n == (n * hi - total) / n;
  }

  lemma {:induction false} SumBetween(z: seq<real>, lo: real, hi: real)
    requires forall i :: 0 <= i < |z| ==> lo <= z[i] <= hi
    ensures |z| as real * lo <= Sum(z) <= |z| as real * hi
  {
    if z != [] {
      SumBetween(z[..|z| - 1], lo, hi);
    }
  }

  /**
    The estimate as the source computes it: a missing grid gives the fallback at once; otherwise sum_z and
    count_z accumulate over the clipped soundings.
  */
  method EstimateSpacing(soundings: Option<seq<real>>, multiplier: real) returns (spacing: real)
    ensures spacing == MeanDepthSpacing(soundings, multiplier)
  {
    if soundings.None? {
      return FALLBACK_SPACING;
    }
    var z := soundings.value;
    var sumZ := 0.0;
    var countZ := 0;
    for i := 0 to |z|
      invariant sumZ == Sum(z[..i]) && countZ == i
    {
      assert z[..i + 1][..i] == z[..i];
      sumZ := sumZ + z[i];
      countZ := countZ + 1;
    }
    assert z[..|z|] == z;
    if countZ > 0 {
      return PyText.Abs(multiplier * (sumZ / countZ as real));
    }
    return FALLBACK_SPACING;
  }
}
