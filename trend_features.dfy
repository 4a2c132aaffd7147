/** Trend features: rolling averages, variances and slopes of a player's
    xG and xA over the most recent matches, one entry per window. */
module TrendFeatures {
  import opened Domain

  /** rollingAverage: the mean of the first `window` values, 0 when there
      are none. */
  function RollingAverage(values: seq<real>, window: int): (r: real)
    ensures Prefix(values, window) == [] ==> r == 0.0
    ensures Prefix(values, window) != [] ==> r * |Prefix(values, window)| as real == Sum(Prefix(values, window))
  {
    var slice := Prefix(values, window);
    if |slice| == 0 then 0.0 else Sum(slice) / |slice| as real
  }

  /** The squared distance of every value from `mean`. */
  function SquaredDeviations(s: seq<real>, mean: real): (d: seq<real>)
    ensures |d| == |s|
    ensures forall i :: 0 <= i < |s| ==> d[i] == (s[i] - mean) * (s[i] - mean)
  {
    seq(|s|, i requires 0 <= i < |s| => (s[i] - mean) * (s[i] - mean))
  }

  lemma SquareNonNegative(x: real)
    ensures x * x >= 0.0
  {
    if x < 0.0 {
      assert x * x == (-x) * (-x);
    }
  }

  /** No squared deviation is negative. */
  lemma DeviationsNonNegative(s: seq<real>, mean: real)
    ensures forall i :: 0 <= i < |s| ==> SquaredDeviations(s, mean)[i] >= 0.0
  {
    forall i | 0 <= i < |s|
      ensures SquaredDeviations(s, mean)[i] >= 0.0
    {
      SquareNonNegative(s[i] - mean);
    }
  }

  /** rollingVariance: the population variance of the first `window`
      values, 0 when there are none; it is never negative. */
  function RollingVariance(values: seq<real>, window: int): (r: real)
    ensures Prefix(values, window) == [] ==> r == 0.0
    ensures r >= 0.0
  {
    var slice := Prefix(values, window);
    if |slice| == 0 then 0.0
    else
      var mean := Sum(slice) / |slice| as real;
      var deviations := SquaredDeviations(slice, mean);
      DeviationsNonNegative(slice, mean);
      SumNonNegative(deviations);
      Sum(deviations) / |slice| as real
  }

  /** slope: the drop per match from the newest to the oldest of the first
      `window` values, 0 with fewer than two. */
  function Slope(values: seq<real>, window: int): (r: real)
    ensures |Prefix(values, window)| < 2 ==> r == 0.0
    ensures var s := Prefix(values, window);
            |s| >= 2 ==> r * (|s| - 1) as real == s[0] - s[|s| - 1]
  {
    var slice := Prefix(values, window);
    if |slice| < 2 then 0.0
    else (slice[0] - slice[|slice| - 1]) / (|slice| - 1) as real
  }

  /** The three statistics read only the first `window` values: whatever
      follows them changes nothing. */
  lemma WindowOnly(values: seq<real>, extra: seq<real>, window: int)
    requires 0 <= window <= |values|
    ensures RollingAverage(values + extra, window) == RollingAverage(values, window)
    ensures RollingVariance(values + extra, window) == RollingVariance(values, window)
    ensures Slope(values + extra, window) == Slope(values, window)
  {
    assert Prefix(values + extra, window) == Prefix(values, window);
  }

  /** A constant series. */
  function Constant(c: real, n: nat): (s: seq<real>)
    ensures |s| == n
  {
    seq(n, i => c)
  }

  lemma ConstantSum(c: real, n: nat)
    ensures Sum(Constant(c, n)) == c * n as real
  {
    SumBounds(Constant(c, n), c, c);
  }

  /** Over a constant series the average is the constant, and the variance
      and the slope are 0. */
  lemma ConstantSeries(c: real, n: nat, window: int)
    requires Prefix(Constant(c, n), window) != []
    ensures RollingAverage(Constant(c, n), window) == c
    ensures RollingVariance(Constant(c, n), window) == 0.0
    ensures Slope(Constant(c, n), window) == 0.0
  {
    var slice := Prefix(Constant(c, n), window);
    assert slice == Constant(c, |slice|);
    ConstantMean(c, |slice|);
    ConstantDeviations(c, |slice|);
    ConstantSum(0.0, |slice|);
  }

  lemma ConstantMean(c: real, n: nat)
    requires n > 0
    ensures Sum(Constant(c, n)) / n as real == c
  {
    ConstantSum(c, n);
  }

  lemma ConstantDeviations(c: real, n: nat)
    ensures SquaredDeviations(Constant(c, n), c) == Constant(0.0, n)
  {
    var d := SquaredDeviations(Constant(c, n), c);
    assert forall i :: 0 <= i < n ==> d[i] == 0.0;
  }

  /** The series of one figure over the matches, a missing figure read as 0. */
  function XgSeries(matches: seq<BasicMatchStat>): (s: seq<real>)
    ensures |s| == |matches|
    ensures forall i :: 0 <= i < |s| ==> s[i] == matches[i].xG.GetOr(0.0)
  {
    seq(|matches|, i requires 0 <= i < |matches| => matches[i].xG.GetOr(0.0))
  }

  function XaSeries(matches: seq<BasicMatchStat>): (s: seq<real>)
    ensures |s| == |matches|
    ensures forall i :: 0 <= i < |s| ==> s[i] == matches[i].xA.GetOr(0.0)
  {
    seq(|matches|, i requires 0 <= i < |matches| => matches[i].xA.GetOr(0.0))
  }

  datatype Trend = Trend(
    rollingAvgXG: map<int, real>,
    rollingAvgXA: map<int, real>,
    rollingVarXG: map<int, real>,
    rollingVarXA: map<int, real>,
    slopeXG: map<int, real>,
    slopeXA: map<int, real>)

  /** The default windows. */
  const DefaultWindows: seq<int> := [3, 5, 10]

  /** buildTrendFeatures: every statistic for every requested window. */
  function BuildTrendFeatures(matches: seq<BasicMatchStat>, windows: Option<seq<int>>): (t: Trend)
    ensures var ws := set w | w in windows.GetOr(DefaultWindows);
            t.rollingAvgXG.Keys == ws && t.rollingAvgXA.Keys == ws &&
            t.rollingVarXG.Keys == ws && t.rollingVarXA.Keys == ws &&
            t.slopeXG.Keys == ws && t.slopeXA.Keys == ws
    ensures forall w :: w in t.rollingVarXG ==> t.rollingVarXG[w] >= 0.0 && t.rollingVarXA[w] >= 0.0
  {
    var ws := windows.GetOr(DefaultWindows);
    var xg := XgSeries(matches);
    var xa := XaSeries(matches);
    Trend(
      map w | w in ws :: RollingAverage(xg, w),
      map w | w in ws :: RollingAverage(xa, w),
      map w | w in ws :: RollingVariance(xg, w),
      map w | w in ws :: RollingVariance(xa, w),
      map w | w in ws :: Slope(xg, w),
      map w | w in ws :: Slope(xa, w))
  }

  /** With the default windows there are exactly three entries, for 3, 5
      and 10 matches. */
  lemma DefaultWindowsShape(matches: seq<BasicMatchStat>)
    ensures BuildTrendFeatures(matches, None).rollingAvgXG.Keys == {3, 5, 10}
  {
    var ws := set w | w in DefaultWindows;
    assert ws == {3, 5, 10} by {
      assert DefaultWindows[0] == 3 && DefaultWindows[1] == 5 && DefaultWindows[2] == 10;
    }
  }
}
