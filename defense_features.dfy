/** Defensive contribution features: per-90 clearances, blocks,
    interceptions, tackles and recoveries, and the chance of reaching the
    DEFCON threshold. `Math.exp` is the parameter `exp`. */
module DefenseFeatures {
  import opened Domain
  import opened Points

  /** One match of defensive actions; a missing count is None. */
  datatype DefensiveMatchStats = DefensiveMatchStats(
    clearances: Option<real>, blocks: Option<real>, interceptions: Option<real>,
    tackles: Option<real>, recoveries: Option<real>)

  datatype DefensiveTotals = DefensiveTotals(
    clearances: real, blocks: real, interceptions: real, tackles: real, recoveries: real)

  const NoActions := DefensiveTotals(0.0, 0.0, 0.0, 0.0, 0.0)

  /** One iteration of the summing loop: `total += match.x || 0` for each
      count. */
  function AddMatch(t: DefensiveTotals, m: DefensiveMatchStats): DefensiveTotals
  {
    DefensiveTotals(t.clearances + m.clearances.GetOr(0.0), t.blocks + m.blocks.GetOr(0.0),
                    t.interceptions + m.interceptions.GetOr(0.0), t.tackles + m.tackles.GetOr(0.0),
                    t.recoveries + m.recoveries.GetOr(0.0))
  }

  /** The totals over a list of matches. */
  function Totals(matches: seq<DefensiveMatchStats>): DefensiveTotals
  {
    if matches == [] then NoActions else AddMatch(Totals(matches[..|matches| - 1]), matches[|matches| - 1])
  }

  predicate NonNegativeMatch(m: DefensiveMatchStats)
  {
    m.clearances.GetOr(0.0) >= 0.0 && m.blocks.GetOr(0.0) >= 0.0 && m.interceptions.GetOr(0.0) >= 0.0 &&
    m.tackles.GetOr(0.0) >= 0.0 && m.recoveries.GetOr(0.0) >= 0.0
  }

  predicate NonNegativeTotals(t: DefensiveTotals)
  {
    t.clearances >= 0.0 && t.blocks >= 0.0 && t.interceptions >= 0.0 && t.tackles >= 0.0 && t.recoveries >= 0.0
  }

  /** Non-negative counts give non-negative totals. */
  lemma {:induction false} TotalsNonNegative(matches: seq<DefensiveMatchStats>)
    requires forall i :: 0 <= i < |matches| ==> NonNegativeMatch(matches[i])
    ensures NonNegativeTotals(Totals(matches))
  {
    if matches != [] {
      TotalsNonNegative(matches[..|matches| - 1]);
    }
  }

  /** poissonCdf: `P(X <= k)` for `X ~ Poisson(λ)`; for `λ <= 0` all the
      mass is at 0. */
  function PoissonCdf(lambda: real, k: int, exp: real -> real): (p: real)
    ensures lambda <= 0.0 ==> p == (if k >= 0 then 1.0 else 0.0)
    ensures lambda > 0.0 && k < 0 ==> p == 0.0
  {
    if lambda <= 0.0 then (if k >= 0 then 1.0 else 0.0)
    else if k < 0 then 0.0
    else CdfUpTo(lambda, k, exp)
  }

  /** poissonCdf as the builder runs it: each term from the previous one,
      summed from 0 to `k`. */
  method PoissonCdfLoop(lambda: real, k: int, exp: real -> real) returns (sum: real)
    ensures sum == PoissonCdf(lambda, k, exp)
  {
    if lambda <= 0.0 {
      return if k >= 0 then 1.0 else 0.0;
    }
    sum := 0.0;
    var term := exp(-lambda);
    var i := 0;
    while i <= k
      invariant 0 <= i <= if k < 0 then 0 else k + 1
      invariant i == 0 ==> term == exp(-lambda) && sum == 0.0
      invariant i > 0 ==> term == PoissonTerm(lambda, i - 1, exp) && sum == CdfUpTo(lambda, i - 1, exp)
    {
      if i > 0 {
        CdfStep(lambda, i, exp, term, sum);
        term := term * (lambda / i as real);
      }
      sum := sum + term;
      i := i + 1;
    }
  }

  /** estimateDefconProbability: the chance of at least 10 clearances,
      blocks, interceptions and tackles, clipped to [0, 1]. */
  function EstimateDefconProbability(cbit90: real, exp: real -> real): (p: real)
    ensures 0.0 <= p <= 1.0
  {
    Min(1.0, Max(0.0, 1.0 - PoissonCdf(cbit90, 9, exp)))
  }

  datatype Defense = Defense(
    clearances90: real, blocks90: real, interceptions90: real, tackles90: real, recoveries90: real,
    cbit90: real, cbirt90: real, probDefcon: real)

  const NoDefense := Defense(0.0, 0.0, 0.0, 0.0, 0.0, 0.0, 0.0, 0.0)

  /** `(stat / totalMinutes) * 90`. */
  function Per90(stat: real, totalMinutes: real): (r: real)
    requires totalMinutes > 0.0
    ensures r * totalMinutes == stat * 90.0
    ensures stat >= 0.0 ==> r >= 0.0
  {
    stat / totalMinutes * 90.0
  }

  /** The features for the given totals over `totalMinutes` minutes. */
  function FromTotals(t: DefensiveTotals, totalMinutes: real, exp: real -> real): (d: Defense)
    requires totalMinutes > 0.0
    ensures d.clearances90 * totalMinutes == t.clearances * 90.0
    ensures d.blocks90 * totalMinutes == t.blocks * 90.0
    ensures d.interceptions90 * totalMinutes == t.interceptions * 90.0
    ensures d.tackles90 * totalMinutes == t.tackles * 90.0
    ensures d.recoveries90 * totalMinutes == t.recoveries * 90.0
    ensures d.cbit90 == d.clearances90 + d.blocks90 + d.interceptions90 + d.tackles90
    ensures d.cbirt90 == d.cbit90 + d.recoveries90
    ensures NonNegativeTotals(t) ==> 0.0 <= d.cbit90 <= d.cbirt90
  {
    var clearances90 := Per90(t.clearances, totalMinutes);
    var blocks90 := Per90(t.blocks, totalMinutes);
    var interceptions90 := Per90(t.interceptions, totalMinutes);
    var tackles90 := Per90(t.tackles, totalMinutes);
    var recoveries90 := Per90(t.recoveries, totalMinutes);
    var cbit90 := clearances90 + blocks90 + interceptions90 + tackles90;
    var cbirt90 := cbit90 + recoveries90;
    Defense(clearances90, blocks90, interceptions90, tackles90, recoveries90, cbit90, cbirt90,
            EstimateDefconProbability(cbit90, exp))
  }

  /** buildDefenseFeatures as a value: all zeros without matches or with
      under 90 minutes. */
  function DefenseOf(matches: seq<DefensiveMatchStats>, totalMinutes: real, exp: real -> real): (d: Defense)
    ensures matches == [] || totalMinutes < 90.0 ==> d == NoDefense
    ensures matches != [] && totalMinutes >= 90.0 ==>
              var t := Totals(matches);
              d.clearances90 * totalMinutes == t.clearances * 90.0 &&
              d.blocks90 * totalMinutes == t.blocks * 90.0 &&
              d.interceptions90 * totalMinutes == t.interceptions * 90.0 &&
              d.tackles90 * totalMinutes == t.tackles * 90.0 &&
              d.recoveries90 * totalMinutes == t.recoveries * 90.0
    ensures 0.0 <= d.probDefcon <= 1.0
  {
    if |matches| == 0 || totalMinutes < 90.0 then NoDefense
    else FromTotals(Totals(matches), totalMinutes, exp)
  }

  /** buildDefenseFeatures: sum the five counts over the matches, then
      normalise per 90. */
  method BuildDefenseFeatures(matches: seq<DefensiveMatchStats>, totalMinutes: real, exp: real -> real)
    returns (d: Defense)
    ensures d == DefenseOf(matches, totalMinutes, exp)
  {
    if |matches| == 0 || totalMinutes < 90.0 {
      return NoDefense;
    }
    var totalClearances := 0.0;
    var totalBlocks := 0.0;
    var totalInterceptions := 0.0;
    var totalTackles := 0.0;
    var totalRecoveries := 0.0;
    var i := 0;
    while i < |matches|
      invariant 0 <= i <= |matches|
      invariant Totals(matches[..i]) ==
                DefensiveTotals(totalClearances, totalBlocks, totalInterceptions, totalTackles, totalRecoveries)
    {
      var m := matches[i];
      assert matches[..i + 1][..i] == matches[..i];
      totalClearances := totalClearances + m.clearances.GetOr(0.0);
      totalBlocks := totalBlocks + m.blocks.GetOr(0.0);
      totalInterceptions := totalInterceptions + m.interceptions.GetOr(0.0);
      totalTackles := totalTackles + m.tackles.GetOr(0.0);
      totalRecoveries := totalRecoveries + m.recoveries.GetOr(0.0);
      i := i + 1;
    }
    assert matches[..i] == matches;
    var totals := DefensiveTotals(totalClearances, totalBlocks, totalInterceptions, totalTackles, totalRecoveries);
    d := FromTotals(totals, totalMinutes, exp);
  }

  /** CBIT is the sum of the four per-90 counts and CBIRT adds the
      recoveries, so with non-negative counts CBIRT is never below CBIT
      and neither is negative. */
  lemma DefenseShape(matches: seq<DefensiveMatchStats>, totalMinutes: real, exp: real -> real)
    requires matches != [] && totalMinutes >= 90.0
    requires forall i :: 0 <= i < |matches| ==> NonNegativeMatch(matches[i])
    ensures var d := DefenseOf(matches, totalMinutes, exp);
            d.cbit90 == d.clearances90 + d.blocks90 + d.interceptions90 + d.tackles90 &&
            d.cbirt90 == d.cbit90 + d.recoveries90 &&
            0.0 <= d.cbit90 <= d.cbirt90
  {
    var t := Totals(matches);
    TotalsNonNegative(matches);
    assert DefenseOf(matches, totalMinutes, exp) == FromTotals(t, totalMinutes, exp);
  }
}
