/**
 * The statistics behind the adaptive thresholds of backend/ApiSensors.js: the mean and the
 * population standard deviation of a full history queue, and the value at a given z-score.
 *
 * JavaScript numbers are modelled as `real`.  `Math.sqrt` has no Dafny counterpart without a body,
 * so the square root is a function parameter and `IsSqrt` states what is assumed of it.
 */
module Thresholds {
  /** Z-score of the warning threshold. */
  const ZScoreWarning: real := 2.0
  /** Z-score of the failure threshold. */
  const ZScoreFailure: real := 3.0

  /** CalculateFromZScore: the value `zScore` standard deviations above the mean. */
  function FromZScore(zScore: real, mean: real, stdDev: real): (v: real)
    ensures stdDev != 0.0 ==> (v - mean) / stdDev == zScore
    ensures stdDev == 0.0 ==> v == mean
    ensures stdDev > 0.0 ==> (v >= mean <==> zScore >= 0.0)
  {
    assert stdDev > 0.0 && zScore >= 0.0 ==> zScore * stdDev >= 0.0;
    assert stdDev > 0.0 && zScore < 0.0 ==> zScore * stdDev < 0.0;
    mean + zScore * stdDev
  }

  /** `reduce((sum, val) => sum + val, 0)`, accumulated from the left. */
  function Sum(s: seq<real>): real
    decreases |s|
  {
    if s == [] then 0.0 else Sum(s[..|s| - 1]) + s[|s| - 1]
  }

  function Mean(s: seq<real>): real
    requires |s| > 0
  {
    Sum(s) / |s| as real
  }

  /** A square is never negative. */
  lemma SquareNonNegative(x: real)
    ensures x * x >= 0.0
  {
  }

  /** `reduce((sum, val) => sum + (val - mean) ** 2, 0)`. */
  function SquaredDeviations(s: seq<real>, mean: real): (d: real)
    ensures d >= 0.0
    decreases |s|
  {
    if s == [] then 0.0
    else
      SquareNonNegative(s[|s| - 1] - mean);
      SquaredDeviations(s[..|s| - 1], mean) + (s[|s| - 1] - mean) * (s[|s| - 1] - mean)
  }

  /** The population variance: the mean squared deviation from the mean. */
  function Variance(s: seq<real>): (v: real)
    requires |s| > 0
    ensures v >= 0.0
  {
    SquaredDeviations(s, Mean(s)) / |s| as real
  }

  /** What `Math.sqrt` is taken to compute on non-negative arguments. */
  ghost predicate IsSqrt(sqrt: real -> real) {
    forall x: real {:trigger sqrt(x)} :: x >= 0.0 ==> sqrt(x) >= 0.0 && sqrt(x) * sqrt(x) == x
  }

  /** The population standard deviation. */
  function StdDev(s: seq<real>, sqrt: real -> real): (sd: real)
    requires |s| > 0 && IsSqrt(sqrt)
    ensures sd >= 0.0 && sd * sd == Variance(s)
  {
    sqrt(Variance(s))
  }

  /** The sum of a sequence lies between its length times its least and its greatest bound. */
  lemma {:induction false} SumBounds(s: seq<real>, lo: real, hi: real)
    requires forall i :: 0 <= i < |s| ==> lo <= s[i] <= hi
    ensures |s| as real * lo <= Sum(s) <= |s| as real * hi
    decreases |s|
  {
    if s != [] {
      SumBounds(s[..|s| - 1], lo, hi);
    }
  }

  /** The mean of a sequence lies between any lower and upper bound of its elements. */
  lemma MeanWithinBounds(s: seq<real>, lo: real, hi: real)
    requires |s| > 0
    requires forall i :: 0 <= i < |s| ==> lo <= s[i] <= hi
    ensures lo <= Mean(s) <= hi
  {
    SumBounds(s, lo, hi);
    var n := |s| as real;
    assert n * lo <= Sum(s) <= n * hi;
    assert Sum(s) / n >= lo by {
      assert Sum(s) >= n * lo;
    }
    assert Sum(s) / n <= hi by {
      assert Sum(s) <= n * hi;
    }
  }

  /**
   * The (warning, failure) thresholds recomputed from a history: two and three standard deviations
   * above the mean, so the warning threshold lies at or above the mean and one standard deviation
   * below the failure threshold.
   */
  function ThresholdsOf(history: seq<real>, sqrt: real -> real): (t: (real, real))
    requires |history| > 0 && IsSqrt(sqrt)
    ensures Mean(history) <= t.0 <= t.1
    ensures t.1 - t.0 == StdDev(history, sqrt)
    ensures t.0 - Mean(history) == 2.0 * (t.1 - t.0)
  {
    var mean := Mean(history);
    var sd := StdDev(history, sqrt);
    (FromZScore(ZScoreWarning, mean, sd), FromZScore(ZScoreFailure, mean, sd))
  }
}
