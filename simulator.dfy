/** Monte Carlo game simulation: the FPL points of one simulated outcome,
    the statistics and histogram of many, and the haul and blank rates. One
    simulated outcome (`simulateOnce`) is a parameter `draw: nat ->
    SimulationResult`, the i-th outcome; `SimulateOnce` below shows how one
    is assembled from the samplers. */
module Simulator {
  import opened Domain
  import opened Ordering
  import opened Sampling
  import TrendFeatures

  datatype SimulationResult = SimulationResult(
    minutes: int, goals: nat, assists: nat, cleanSheet: bool,
    defconPoints: int, bonusPoints: int, totalPoints: int)

  /** Appearance points: 2 for an hour or more, 1 for a shorter appearance. */
  function AppearancePoints(minutes: int): (r: int)
    ensures r == 2 <==> minutes >= 60
    ensures r == 1 <==> 0 < minutes < 60
    ensures r == 0 <==> minutes <= 0
  {
    if minutes >= 60 then 2 else if minutes > 0 then 1 else 0
  }

  /** Clean-sheet points: only for a clean sheet kept over at least an hour. */
  function CleanSheetAward(pos: Position, cleanSheet: bool, minutes: int): (r: int)
    ensures !cleanSheet || minutes < 60 ==> r == 0
    ensures cleanSheet && minutes >= 60 ==> r == CleanSheetPoints(pos)
  {
    if cleanSheet && minutes >= 60 then CleanSheetPoints(pos) else 0
  }

  /** The FPL points of one outcome, part by part. */
  function FplPoints(pos: Position, minutes: int, goals: nat, assists: nat, cleanSheet: bool,
                     defconPoints: int, bonusPoints: int): int
  {
    AppearancePoints(minutes) + goals * GoalPoints(pos) + assists * AssistPoints +
    CleanSheetAward(pos, cleanSheet, minutes) + defconPoints + bonusPoints
  }

  /** calculatePoints: accumulates the points of one outcome. */
  method CalculatePoints(pos: Position, minutes: int, goals: nat, assists: nat, cleanSheet: bool,
                         defconPoints: int, bonusPoints: int) returns (points: int)
    ensures points == FplPoints(pos, minutes, goals, assists, cleanSheet, defconPoints, bonusPoints)
  {
    points := 0;
    if minutes >= 60 {
      points := points + 2;
    } else if minutes > 0 {
      points := points + 1;
    }
    var goalPts := if pos == Forward then 4 else if pos == Midfielder then 5 else 6;
    points := points + goals * goalPts;
    points := points + assists * 3;
    if cleanSheet && minutes >= 60 {
      if pos == Goalkeeper || pos == Defender {
        points := points + 4;
      } else if pos == Midfielder {
        points := points + 1;
      }
    }
    points := points + defconPoints;
    points := points + bonusPoints;
  }

  /** An outcome never scores negative points, and scores at least its
      appearance points, when its DEFCON and bonus points are not negative. */
  lemma PointsNonNegative(pos: Position, minutes: int, goals: nat, assists: nat, cleanSheet: bool,
                          defconPoints: int, bonusPoints: int)
    requires defconPoints >= 0 && bonusPoints >= 0
    ensures FplPoints(pos, minutes, goals, assists, cleanSheet, defconPoints, bonusPoints) >= AppearancePoints(minutes) >= 0
  {
    assert goals * GoalPoints(pos) >= 0;
  }

  /** Every extra goal adds the position's goal points and every extra
      assist adds 3, whatever else happened. */
  lemma PointsPerReturn(pos: Position, minutes: int, goals: nat, assists: nat, cleanSheet: bool,
                        defconPoints: int, bonusPoints: int)
    ensures FplPoints(pos, minutes, goals + 1, assists, cleanSheet, defconPoints, bonusPoints) ==
            FplPoints(pos, minutes, goals, assists, cleanSheet, defconPoints, bonusPoints) + GoalPoints(pos)
    ensures FplPoints(pos, minutes, goals, assists + 1, cleanSheet, defconPoints, bonusPoints) ==
            FplPoints(pos, minutes, goals, assists, cleanSheet, defconPoints, bonusPoints) + 3
  {
    assert (goals + 1) * GoalPoints(pos) == goals * GoalPoints(pos) + GoalPoints(pos);
  }

  /** The player context a simulation starts from. */
  datatype SimulationInput = SimulationInput(
    playerId: int, playerName: string, position: Position,
    startProbability: real, expectedMinutes: real, prob60: real,
    xG: real, xA: real, csProb: real, cbit90: real, cbirt90: real)

  /** The random draws one outcome consumes. */
  datatype Draws = Draws(
    uStart: real, uPlay: real, uMinutes: real, goalDraws: seq<real>, assistDraws: seq<real>,
    uCleanSheet: real, defconDraws: seq<real>, uBonus: real)

  /** simulateOnce on explicit draws; None when one of the Poisson samplers
      runs out of draws. The outcome is a consistent FPL score: at most 90
      minutes, a clean sheet only over an hour, DEFCON points 0 or 2, bonus
      0 to 3, and a total that is the sum of its parts and never negative. */
  function SimulateOnce(input: SimulationInput, d: Draws, exp: real -> real): (r: Option<SimulationResult>)
    requires IsUniform(d.uStart) && IsUniform(d.uPlay) && IsUniform(d.uMinutes)
    ensures r.Some? ==>
              var o := r.value;
              0 <= o.minutes <= 90 && (o.cleanSheet ==> o.minutes >= 60) &&
              (o.defconPoints == 0 || o.defconPoints == 2) && (o.minutes < 60 ==> o.defconPoints == 0) &&
              0 <= o.bonusPoints <= 3 &&
              o.totalPoints == FplPoints(input.position, o.minutes, o.goals, o.assists, o.cleanSheet,
                                         o.defconPoints, o.bonusPoints) &&
              o.totalPoints >= 0
  {
    var minutes := SampleMinutes(input.startProbability, input.expectedMinutes, input.prob60,
                                 d.uStart, d.uPlay, d.uMinutes);
    var minutesFrac := minutes as real / 90.0;
    var goals := SampleReturns(input.xG, minutesFrac, exp, d.goalDraws);
    var assists := SampleReturns(input.xA, minutesFrac, exp, d.assistDraws);
    var cleanSheet := SampleCleanSheet(input.csProb, minutes, d.uCleanSheet);
    var defcon := SampleDefcon(input.position, input.cbit90, input.cbirt90, minutes, exp, d.defconDraws);
    if goals.None? || assists.None? || defcon.None? then None
    else
      var bonus := SampleBonus(goals.value, assists.value, cleanSheet, input.position, d.uBonus);
      PointsNonNegative(input.position, minutes, goals.value, assists.value, cleanSheet, defcon.value, bonus);
      Some(SimulationResult(minutes, goals.value, assists.value, cleanSheet, defcon.value, bonus,
                            FplPoints(input.position, minutes, goals.value, assists.value, cleanSheet,
                                      defcon.value, bonus)))
  }

  /** The total points of each outcome, in order. */
  function Totals(results: seq<SimulationResult>): (t: seq<int>)
    ensures |t| == |results|
    ensures forall i :: 0 <= i < |results| ==> t[i] == results[i].totalPoints
  {
    seq(|results|, i requires 0 <= i < |results| => results[i].totalPoints)
  }

  /** Sum of a sequence of integers, in order. */
  function IntSum(s: seq<int>): int
  {
    if s == [] then 0 else IntSum(s[..|s| - 1]) + s[|s| - 1]
  }

  lemma {:induction false} IntSumAppend(a: seq<int>, b: seq<int>)
    ensures IntSum(a + b) == IntSum(a) + IntSum(b)
    decreases |b|
  {
    if b != [] {
      assert (a + b)[..|a + b| - 1] == a + b[..|b| - 1];
      assert (a + b)[|a + b| - 1] == b[|b| - 1];
      IntSumAppend(a, b[..|b| - 1]);
    } else {
      assert a + b == a;
    }
  }

  /** The sum does not depend on the order: sorting the points before
      summing them, as the statistics do, changes nothing. */
  lemma {:induction false} IntSumPermutation(s: seq<int>, t: seq<int>)
    requires multiset(s) == multiset(t)
    ensures IntSum(s) == IntSum(t)
    decreases |s|
  {
    if s == [] {
      assert |t| == |multiset(t)| == 0;
    } else {
      var x := s[|s| - 1];
      assert s == s[..|s| - 1] + [x];
      assert x in multiset(t);
      var j :| 0 <= j < |t| && t[j] == x;
      var rest := t[..j] + t[j + 1..];
      assert t == t[..j] + [x] + t[j + 1..];
      assert multiset(t) == multiset(t[..j]) + multiset{x} + multiset(t[j + 1..]);
      assert multiset(s) == multiset(s[..|s| - 1]) + multiset{x};
      assert multiset(rest) == multiset(t[..j]) + multiset(t[j + 1..]);
      assert multiset(s[..|s| - 1]) == multiset(s) - multiset{x};
      assert multiset(t) - multiset{x} == multiset(rest);
      IntSumPermutation(s[..|s| - 1], rest);
      IntSumAppend(t[..j] + [x], t[j + 1..]);
      IntSumAppend(t[..j], [x]);
      IntSumAppend(t[..j], t[j + 1..]);
    }
  }

  lemma {:induction false} IntSumBounds(s: seq<int>, lo: int, hi: int)
    requires forall i :: 0 <= i < |s| ==> lo <= s[i] <= hi
    ensures lo as real * |s| as real <= IntSum(s) as real <= hi as real * |s| as real
  {
    if s != [] {
      IntSumBounds(s[..|s| - 1], lo, hi);
    }
  }

  /** The points as reals. */
  function Reals(s: seq<int>): (r: seq<real>)
    ensures |r| == |s|
    ensures forall i :: 0 <= i < |s| ==> r[i] == s[i] as real
  {
    seq(|s|, i requires 0 <= i < |s| => s[i] as real)
  }

  /** The index `Math.floor(n * q)` of a percentile; with a fraction `q`
      below 1 it is an index of a non-empty list of `n`. */
  function PercentileIndex(n: nat, q: real): int
  {
    (n as real * q).Floor
  }

  datatype Stats = Stats(
    mean: real, median: int, variance: real,
    percentile5: int, percentile25: int, percentile75: int, percentile95: int,
    min: int, max: int)

  /** The statistics of the sorted totals of a non-empty list. */
  function StatsOf(points: seq<int>): Stats
    requires points != []
  {
    var n := |points|;
    var mean := IntSum(points) as real / n as real;
    var deviations := TrendFeatures.SquaredDeviations(Reals(points), mean);
    Stats(mean, points[n / 2], Sum(deviations) / n as real,
          points[PercentileIndex(n, 0.05)], points[PercentileIndex(n, 0.25)],
          points[PercentileIndex(n, 0.75)], points[PercentileIndex(n, 0.95)],
          points[0], points[n - 1])
  }

  /** calculateStats over the sorted total points; None for no results
      (every statistic would be NaN or undefined). */
  function CalculateStats(results: seq<SimulationResult>): (r: Option<Stats>)
    ensures r.None? <==> results == []
  {
    if results == [] then None else Some(StatsOf(SortAsc(Totals(results))))
  }

  lemma MeanBetween(lo: real, hi: real, s: real, n: real)
    requires n > 0.0 && lo * n <= s <= hi * n
    ensures lo <= s / n <= hi
  {
    var m := s / n;
    assert m * n == s;
    assert (m - lo) * n >= 0.0;
    assert (hi - m) * n >= 0.0;
  }

  /** In a sorted list every element lies between the first and the last. */
  lemma SortedRange(points: seq<int>, x: int)
    requires SortedAsc(points) && x in points
    ensures points[0] <= x <= points[|points| - 1]
  {
    var j :| 0 <= j < |points| && points[j] == x;
  }

  /** Every element of a non-empty list lies between the first and the
      last element of a sorted permutation of it, and both are elements of
      the list. */
  lemma PermutationRange(totals: seq<int>, points: seq<int>)
    requires totals != [] && SortedAsc(points) && multiset(points) == multiset(totals)
    ensures |points| == |totals|
    ensures points[0] in totals && points[|points| - 1] in totals
    ensures forall i :: 0 <= i < |totals| ==> points[0] <= totals[i] <= points[|points| - 1]
  {
    assert |points| == |multiset(points)| == |multiset(totals)| == |totals|;
    assert points[0] in multiset(points) && points[|points| - 1] in multiset(points);
    forall i | 0 <= i < |totals|
      ensures points[0] <= totals[i] <= points[|points| - 1]
    {
      assert totals[i] in multiset(totals);
      SortedRange(points, totals[i]);
    }
  }

  /** Over sorted points the percentiles are ordered from `min` to `max`. */
  lemma SortedStatsOrdered(points: seq<int>)
    requires points != [] && SortedAsc(points)
    ensures var st := StatsOf(points);
            st.min == points[0] && st.max == points[|points| - 1] &&
            st.min <= st.percentile5 <= st.percentile25 <= st.median <= st.percentile75 <=
            st.percentile95 <= st.max
  {
    var n := |points|;
    var i5, i25, i75, i95 := PercentileIndex(n, 0.05), PercentileIndex(n, 0.25),
                             PercentileIndex(n, 0.75), PercentileIndex(n, 0.95);
    assert 0 <= i5 <= i25 <= n / 2 <= i75 <= i95 <= n - 1;
  }

  /** The percentiles are ordered and lie between `min` and `max`, which are
      the smallest and the largest total of all. */
  lemma StatsOrdered(results: seq<SimulationResult>)
    requires results != []
    ensures var st := CalculateStats(results).value;
            st.min <= st.percentile5 <= st.percentile25 <= st.median <= st.percentile75 <=
            st.percentile95 <= st.max &&
            (forall i :: 0 <= i < |results| ==> st.min <= results[i].totalPoints <= st.max) &&
            st.min in Totals(results) && st.max in Totals(results)
  {
    PermutationRange(Totals(results), SortAsc(Totals(results)));
    SortedStatsOrdered(SortAsc(Totals(results)));
  }

  /** Over sorted points the mean lies between `min` and `max` and the
      variance is never negative. */
  lemma SortedStatsMoments(points: seq<int>)
    requires points != [] && SortedAsc(points)
    ensures var st := StatsOf(points);
            points[0] as real <= st.mean <= points[|points| - 1] as real && st.variance >= 0.0
  {
    var n := |points|;
    SortedBetweenEnds(points);
    MeanBounds(points, points[0], points[n - 1]);
    VarianceNonNegative(points, IntSum(points) as real / n as real);
  }

  lemma SortedBetweenEnds(points: seq<int>)
    requires points != [] && SortedAsc(points)
    ensures forall i :: 0 <= i < |points| ==> points[0] <= points[i] <= points[|points| - 1]
  {
  }

  /** Bounds on every point bound their mean. */
  lemma MeanBounds(s: seq<int>, lo: int, hi: int)
    requires s != []
    requires forall i :: 0 <= i < |s| ==> lo <= s[i] <= hi
    ensures lo as real <= IntSum(s) as real / |s| as real <= hi as real
  {
    IntSumBounds(s, lo, hi);
    MeanBetween(lo as real, hi as real, IntSum(s) as real, |s| as real);
  }

  lemma VarianceNonNegative(points: seq<int>, mean: real)
    requires points != []
    ensures Sum(TrendFeatures.SquaredDeviations(Reals(points), mean)) / |points| as real >= 0.0
  {
    var deviations := TrendFeatures.SquaredDeviations(Reals(points), mean);
    TrendFeatures.DeviationsNonNegative(Reals(points), mean);
    SumNonNegative(deviations);
    MeanBetween(0.0, Sum(deviations) / |points| as real, Sum(deviations), |points| as real);
  }

  /** The mean lies between `min` and `max` and the variance is never
      negative. */
  lemma StatsMoments(results: seq<SimulationResult>)
    requires results != []
    ensures var st := CalculateStats(results).value;
            st.min as real <= st.mean <= st.max as real && st.variance >= 0.0
  {
    SortedStatsMoments(SortAsc(Totals(results)));
  }

  /** The histogram bucket of a total: clamped to 0..20. */
  function Bucket(points: int): (b: nat)
    ensures b <= 20
    ensures 0 <= points <= 20 ==> b == points
    ensures points < 0 ==> b == 0
    ensures points > 20 ==> b == 20
  {
    if points < 0 then 0 else if points > 20 then 20 else points
  }

  /** How many of the totals fall in each bucket. */
  function Histogram(points: seq<int>): (h: seq<nat>)
    ensures |h| == 21
  {
    if points == [] then seq(21, _ => 0)
    else
      var h := Histogram(points[..|points| - 1]);
      var b := Bucket(points[|points| - 1]);
      h[b := h[b] + 1]
  }

  lemma {:induction false} IntSumUpdate(s: seq<int>, b: nat, v: int)
    requires b < |s|
    ensures IntSum(s[b := v]) == IntSum(s) - s[b] + v
  {
    if b == |s| - 1 {
      assert s[b := v][..|s| - 1] == s[..|s| - 1];
    } else {
      assert s[b := v][..|s| - 1] == s[..|s| - 1][b := v];
      IntSumUpdate(s[..|s| - 1], b, v);
    }
  }

  /** Every total lands in exactly one bucket: the counts add up to the
      number of totals. */
  lemma {:induction false} HistogramTotal(points: seq<int>)
    ensures IntSum(Histogram(points)) == |points|
  {
    if points == [] {
      assert IntSum(seq(21, _ => 0)) == 0 by {
        ZerosSum(21);
      }
    } else {
      var h := Histogram(points[..|points| - 1]);
      var b := Bucket(points[|points| - 1]);
      HistogramTotal(points[..|points| - 1]);
      IntSumUpdate(h, b, h[b] + 1);
    }
  }

  lemma {:induction false} ZerosSum(n: nat)
    ensures IntSum(seq(n, _ => 0)) == 0
  {
    if n > 0 {
      assert seq(n, _ => 0)[..n - 1] == seq(n - 1, _ => 0);
      ZerosSum(n - 1);
    }
  }

  /** Each count as a share of `n`. */
  function Shares(c: seq<int>, n: real): (d: seq<real>)
    requires n > 0.0
    ensures |d| == |c|
    ensures forall i :: 0 <= i < |c| ==> d[i] * n == c[i] as real
  {
    seq(|c|, i requires 0 <= i < |c| => c[i] as real / n)
  }

  /** The share of the totals in each bucket. */
  function Distribution(points: seq<int>): (d: seq<real>)
    requires points != []
    ensures |d| == 21
  {
    Shares(Histogram(points), |points| as real)
  }

  lemma {:induction false} SumOfShares(c: seq<int>, n: real)
    requires n > 0.0
    ensures Sum(Shares(c, n)) == IntSum(c) as real / n
  {
    if c != [] {
      var prefix := c[..|c| - 1];
      assert Shares(c, n)[..|c| - 1] == Shares(prefix, n);
      SumOfShares(prefix, n);
      assert Sum(Shares(c, n)) == Sum(Shares(prefix, n)) + c[|c| - 1] as real / n;
      DivAdd(IntSum(prefix) as real, c[|c| - 1] as real, n);
    }
  }

  lemma DivAdd(a: real, b: real, n: real)
    requires n > 0.0
    ensures a / n + b / n == (a + b) / n
  {
  }

  lemma DivSelf(n: real)
    requires n > 0.0
    ensures n / n == 1.0
  {
  }

  /** The bucket shares form a probability distribution. */
  lemma DistributionSumsToOne(points: seq<int>)
    requires points != []
    ensures Sum(Distribution(points)) == 1.0
  {
    var h := Histogram(points);
    var n := |points| as real;
    HistogramTotal(points);
    SumOfShares(h, n);
    DivSelf(n);
  }

  /** createDistribution: counts the totals into 21 buckets in place, then
      divides by the number of results; None for no results (every share
      would be NaN). */
  method CreateDistribution(results: seq<SimulationResult>) returns (dist: Option<seq<real>>)
    ensures results == [] ==> dist.None?
    ensures results != [] ==> dist == Some(Distribution(Totals(results)))
  {
    var totals := Totals(results);
    var buckets := new nat[21](_ => 0);
    assert buckets[..] == Histogram(totals[..0]);
    for i := 0 to |results|
      invariant buckets[..] == Histogram(totals[..i])
    {
      assert totals[..i + 1][..i] == totals[..i];
      var bucket := Bucket(results[i].totalPoints);
      buckets[bucket] := buckets[bucket] + 1;
    }
    assert totals[..|results|] == totals;
    if results == [] {
      return None;
    }
    var counts := buckets[..];
    dist := Some(seq(21, b requires 0 <= b < 21 => counts[b] as real / |results| as real));
  }

  /** How many totals are hauls (10 or more) and how many blanks (2 or
      fewer). */
  function Hauls(points: seq<int>): (n: nat)
    ensures n <= |points|
  {
    if points == [] then 0 else Hauls(points[..|points| - 1]) + (if points[|points| - 1] >= 10 then 1 else 0)
  }

  function Blanks(points: seq<int>): (n: nat)
    ensures n <= |points|
  {
    if points == [] then 0 else Blanks(points[..|points| - 1]) + (if points[|points| - 1] <= 2 then 1 else 0)
  }

  /** No total is both a haul and a blank. */
  lemma {:induction false} HaulsAndBlanksDisjoint(points: seq<int>)
    ensures Hauls(points) + Blanks(points) <= |points|
  {
    if points != [] {
      HaulsAndBlanksDisjoint(points[..|points| - 1]);
    }
  }

  /** Two disjoint counts out of `n` give two rates that are probabilities
      adding up to at most 1. */
  lemma RatesAreProbabilities(hauls: nat, blanks: nat, n: nat)
    requires n > 0 && hauls + blanks <= n
    ensures 0.0 <= hauls as real / n as real && 0.0 <= blanks as real / n as real
    ensures hauls as real / n as real + blanks as real / n as real <= 1.0
  {
    assert hauls as real / n as real + blanks as real / n as real == (hauls + blanks) as real / n as real;
    MeanBetween(0.0, 1.0, (hauls + blanks) as real, n as real);
    MeanBetween(0.0, 1.0, hauls as real, n as real);
    MeanBetween(0.0, 1.0, blanks as real, n as real);
  }

  datatype SimulationOutput = SimulationOutput(
    playerId: int, playerName: string, simulations: nat,
    stats: Option<Stats>, distribution: Option<seq<real>>,
    haulProbability: Option<real>, blankProbability: Option<real>)

  /** The first `n` outcomes. */
  function Outcomes(draw: nat -> SimulationResult, n: nat): (r: seq<SimulationResult>)
    ensures |r| == n
    ensures forall i :: 0 <= i < n ==> r[i] == draw(i)
  {
    seq(n, i requires 0 <= i => draw(i))
  }

  /** simulateGame: collects `n` outcomes, then reports their statistics,
      histogram and haul and blank rates; the rates are None for `n == 0`
      (NaN in the source). The two rates are probabilities whose sum is at
      most 1. */
  method SimulateGame(input: SimulationInput, draw: nat -> SimulationResult, n: nat)
    returns (out: SimulationOutput)
    ensures out.playerId == input.playerId && out.playerName == input.playerName
    ensures out.simulations == n
    ensures out.stats == CalculateStats(Outcomes(draw, n))
    ensures n == 0 ==> out.distribution.None? && out.haulProbability.None? && out.blankProbability.None?
    ensures n > 0 ==>
              out.distribution == Some(Distribution(Totals(Outcomes(draw, n)))) &&
              out.haulProbability == Some(Hauls(Totals(Outcomes(draw, n))) as real / n as real) &&
              out.blankProbability == Some(Blanks(Totals(Outcomes(draw, n))) as real / n as real)
    ensures n > 0 ==>
              0.0 <= out.haulProbability.value && 0.0 <= out.blankProbability.value &&
              out.haulProbability.value + out.blankProbability.value <= 1.0
  {
    var results: seq<SimulationResult> := [];
    for i := 0 to n
      invariant results == Outcomes(draw, i)
    {
      results := results + [draw(i)];
    }
    var stats := CalculateStats(results);
    var distribution := CreateDistribution(results);
    var totals := Totals(results);
    var hauls := Hauls(totals);
    var blanks := Blanks(totals);
    var haulProbability: Option<real> := None;
    var blankProbability: Option<real> := None;
    if n > 0 {
      HaulsAndBlanksDisjoint(totals);
      haulProbability := Some(hauls as real / n as real);
      blankProbability := Some(blanks as real / n as real);
      RatesAreProbabilities(hauls, blanks, n);
    }
    out := SimulationOutput(input.playerId, input.playerName, n, stats, distribution,
                            haulProbability, blankProbability);
  }

  /** quickSimulate: the mean total over `n` outcomes; None for `n == 0`
      (NaN in the source). */
  method QuickSimulate(draw: nat -> SimulationResult, n: nat) returns (mean: Option<real>)
    ensures n == 0 ==> mean.None?
    ensures n > 0 ==> mean == Some(IntSum(Totals(Outcomes(draw, n))) as real / n as real)
  {
    var totalPoints := 0;
    for i := 0 to n
      invariant totalPoints == IntSum(Totals(Outcomes(draw, i)))
    {
      assert Totals(Outcomes(draw, i + 1))[..i] == Totals(Outcomes(draw, i));
      totalPoints := totalPoints + draw(i).totalPoints;
    }
    if n == 0 {
      return None;
    }
    mean := Some(totalPoints as real / n as real);
  }

  /** The quick estimate is the mean that the full simulation reports for
      the same outcomes. */
  lemma QuickMatchesFullMean(draw: nat -> SimulationResult, n: nat)
    requires n > 0
    ensures CalculateStats(Outcomes(draw, n)).value.mean ==
            IntSum(Totals(Outcomes(draw, n))) as real / n as real
  {
    var totals := Totals(Outcomes(draw, n));
    IntSumPermutation(SortAsc(totals), totals);
  }
}
