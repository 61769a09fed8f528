/**
 * `coverage_fraction` (metrics.py): the share of observations that lie
 * inside their predicted quantile interval.
 */
module Metrics {
  import opened Results

  /** Observation `y` lies in the closed interval [low, high]. */
  predicate Covered(y: real, low: real, high: real)
  {
    y >= low && y <= high
  }

  /** The number of indices whose observation lies in its interval. */
  function CoveredCount(yTrue: seq<real>, yLow: seq<real>, yHigh: seq<real>): (n: nat)
    requires |yLow| == |yTrue| && |yHigh| == |yTrue|
    ensures n <= |yTrue|
  {
    if |yTrue| == 0 then 0
    else
      var last := |yTrue| - 1;
      CoveredCount(yTrue[..last], yLow[..last], yHigh[..last])
        + (if Covered(yTrue[last], yLow[last], yHigh[last]) then 1 else 0)
  }

  /**
   * `np.mean(np.logical_and(y_true >= y_low, y_true <= y_high))`: the
   * count of covered observations divided by their number; the mean of
   * no observations is NaN, here `None`.
   */
  function CoverageFraction(yTrue: seq<real>, yLow: seq<real>, yHigh: seq<real>): (r: Option<real>)
    requires |yLow| == |yTrue| && |yHigh| == |yTrue|
    ensures r.None? <==> |yTrue| == 0
    ensures r.Some? ==> 0.0 <= r.value <= 1.0
    ensures r.Some? ==> r.value * |yTrue| as real == CoveredCount(yTrue, yLow, yHigh) as real
  {
    if |yTrue| == 0 then None
    else Some(CoveredCount(yTrue, yLow, yHigh) as real / |yTrue| as real)
  }

  /** Every observation is covered iff the count is n; none is iff it is 0. */
  lemma {:induction false} CoveredCountExtremes(yTrue: seq<real>, yLow: seq<real>, yHigh: seq<real>)
    requires |yLow| == |yTrue| && |yHigh| == |yTrue|
    ensures CoveredCount(yTrue, yLow, yHigh) == |yTrue| <==>
      forall i :: 0 <= i < |yTrue| ==> Covered(yTrue[i], yLow[i], yHigh[i])
    ensures CoveredCount(yTrue, yLow, yHigh) == 0 <==>
      forall i :: 0 <= i < |yTrue| ==> !Covered(yTrue[i], yLow[i], yHigh[i])
  {
    if |yTrue| > 0 {
      var last := |yTrue| - 1;
      CoveredCountExtremes(yTrue[..last], yLow[..last], yHigh[..last]);
    }
  }

  /** The fraction is 1 exactly when every observation is inside its interval, 0 exactly when none is. */
  lemma CoverageExtremes(yTrue: seq<real>, yLow: seq<real>, yHigh: seq<real>)
    requires |yLow| == |yTrue| && |yHigh| == |yTrue| && |yTrue| > 0
    ensures CoverageFraction(yTrue, yLow, yHigh) == Some(1.0) <==>
      forall i :: 0 <= i < |yTrue| ==> Covered(yTrue[i], yLow[i], yHigh[i])
    ensures CoverageFraction(yTrue, yLow, yHigh) == Some(0.0) <==>
      forall i :: 0 <= i < |yTrue| ==> !Covered(yTrue[i], yLow[i], yHigh[i])
  {
    CoveredCountExtremes(yTrue, yLow, yHigh);
    var n := |yTrue| as real;
    var v := CoverageFraction(yTrue, yLow, yHigh).value;
    if CoveredCount(yTrue, yLow, yHigh) == |yTrue| {
      assert v == n / n == 1.0;
    }
  }

  /** Both bounds are inclusive: an observation equal to either end of its interval is covered. */
  lemma BoundsInclusive(yTrue: seq<real>, yLow: seq<real>, yHigh: seq<real>)
    requires |yLow| == |yTrue| && |yHigh| == |yTrue| && |yTrue| > 0
    requires forall i :: 0 <= i < |yTrue| ==> yLow[i] <= yHigh[i] && (yTrue[i] == yLow[i] || yTrue[i] == yHigh[i])
    ensures CoverageFraction(yTrue, yLow, yHigh) == Some(1.0)
  {
    CoverageExtremes(yTrue, yLow, yHigh);
  }

  /** Intervals whose lower end lies above the upper end cover nothing. */
  lemma InvertedIntervalsCoverNothing(yTrue: seq<real>, yLow: seq<real>, yHigh: seq<real>)
    requires |yLow| == |yTrue| && |yHigh| == |yTrue| && |yTrue| > 0
    requires forall i :: 0 <= i < |yTrue| ==> yLow[i] > yHigh[i]
    ensures CoverageFraction(yTrue, yLow, yHigh) == Some(0.0)
  {
    CoverageExtremes(yTrue, yLow, yHigh);
  }

  /** Every interval of the second pair contains the matching interval of the first. */
  predicate Wider(yLow: seq<real>, yHigh: seq<real>, yLow': seq<real>, yHigh': seq<real>)
    requires |yLow| == |yHigh| == |yLow'| == |yHigh'|
  {
    forall i :: 0 <= i < |yLow| ==> yLow'[i] <= yLow[i] && yHigh[i] <= yHigh'[i]
  }

  lemma {:induction false} CoveredCountMonotone(yTrue: seq<real>, yLow: seq<real>, yHigh: seq<real>, yLow': seq<real>, yHigh': seq<real>)
    requires |yLow| == |yTrue| && |yHigh| == |yTrue| && |yLow'| == |yTrue| && |yHigh'| == |yTrue|
    requires Wider(yLow, yHigh, yLow', yHigh')
    ensures CoveredCount(yTrue, yLow, yHigh) <= CoveredCount(yTrue, yLow', yHigh')
  {
    if |yTrue| > 0 {
      var last := |yTrue| - 1;
      assert Wider(yLow[..last], yHigh[..last], yLow'[..last], yHigh'[..last]);
      CoveredCountMonotone(yTrue[..last], yLow[..last], yHigh[..last], yLow'[..last], yHigh'[..last]);
    }
  }

  /** Lowering any lower bound or raising any upper bound never decreases the coverage fraction. */
  lemma CoverageMonotone(yTrue: seq<real>, yLow: seq<real>, yHigh: seq<real>, yLow': seq<real>, yHigh': seq<real>)
    requires |yLow| == |yTrue| && |yHigh| == |yTrue| && |yLow'| == |yTrue| && |yHigh'| == |yTrue| && |yTrue| > 0
    requires Wider(yLow, yHigh, yLow', yHigh')
    ensures CoverageFraction(yTrue, yLow, yHigh).value <= CoverageFraction(yTrue, yLow', yHigh').value
  {
    CoveredCountMonotone(yTrue, yLow, yHigh, yLow', yHigh');
    DivideMonotone(CoveredCount(yTrue, yLow, yHigh) as real, CoveredCount(yTrue, yLow', yHigh') as real, |yTrue| as real);
  }

  /** Dividing by the same positive count keeps the order of two counts. */
  lemma DivideMonotone(a: real, b: real, n: real)
    requires n > 0.0 && a <= b
    ensures a / n <= b / n
  {
    assert b / n - a / n == (b - a) / n;
  }
}
