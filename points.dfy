/** Poisson-based attacking points: a memoised factorial, the Poisson
    probability mass function, the expected goal and assist points over a
    truncated distribution, and the smart bonus estimate. `Math.exp` is the
    parameter `exp`. */
module Points {
  import opened Domain

  /** n!, as the number the cache holds. */
  function Fact(n: nat): (r: real)
    ensures r >= 1.0
  {
    if n == 0 then 1.0 else n as real * Fact(n - 1)
  }

  /** x to a natural power. */
  function Pow(x: real, k: nat): (r: real)
    ensures x >= 0.0 ==> r >= 0.0
  {
    if k == 0 then 1.0 else x * Pow(x, k - 1)
  }

  /** The module-level factorial cache: `cache[i]` is `i!`, and it only grows. */
  class FactorialCache {
    var cache: seq<real>

    ghost predicate Valid()
      reads this
    {
      |cache| >= 2 && forall i :: 0 <= i < |cache| ==> cache[i] == Fact(i)
    }

    /** The cache starts as `[1, 1]`. */
    constructor ()
      ensures Valid() && cache == [1.0, 1.0]
    {
      cache := [1.0, 1.0];
    }

    /** factorial: 1 for a negative argument, otherwise `n!`, extending the
        cache up to `n` when it is not long enough yet. */
    method Factorial(n: int) returns (r: real)
      requires Valid()
      modifies this
      ensures Valid()
      ensures r == if n < 0 then 1.0 else Fact(n)
      ensures old(cache) <= cache
      ensures |cache| == if n < |old(cache)| then |old(cache)| else n + 1
    {
      if n < 0 {
        return 1.0;
      }
      if n < |cache| {
        return cache[n];
      }
      var i := |cache|;
      while i <= n
        invariant 2 <= i == |cache| <= n + 1
        invariant old(cache) <= cache
        invariant Valid()
      {
        cache := cache + [cache[i - 1] * i as real];
        i := i + 1;
      }
      return cache[n];
    }
  }

  /** poissonPmf: `λ^k e^-λ / k!`; a point mass at 0 when `λ <= 0`, and 0 for
      a negative count. */
  function PoissonPmf(lambda: real, k: int, exp: real -> real): (p: real)
    ensures lambda <= 0.0 ==> p == (if k == 0 then 1.0 else 0.0)
    ensures lambda > 0.0 && k < 0 ==> p == 0.0
    ensures exp(-lambda) >= 0.0 ==> p >= 0.0
  {
    if lambda <= 0.0 then (if k == 0 then 1.0 else 0.0)
    else if k < 0 then 0.0
    else Pow(lambda, k) * exp(-lambda) / Fact(k)
  }

  /** The exact Poisson terms computed by recurrence: `e^-m`, then each
      term the previous one times `m / i`. */
  function PoissonTerm(mean: real, i: nat, exp: real -> real): real
  {
    if i == 0 then exp(-mean) else PoissonTerm(mean, i - 1, exp) * (mean / i as real)
  }

  /** The running cdf `P(X <= n)`. */
  function CdfUpTo(mean: real, n: nat, exp: real -> real): real
  {
    if n == 0 then PoissonTerm(mean, 0, exp) else CdfUpTo(mean, n - 1, exp) + PoissonTerm(mean, n, exp)
  }

  /** One step of the loops that build the cdf term by term. */
  lemma CdfStep(mean: real, i: nat, exp: real -> real, term: real, cdf: real)
    requires i >= 1 && term == PoissonTerm(mean, i - 1, exp) && cdf == CdfUpTo(mean, i - 1, exp)
    ensures term * (mean / i as real) == PoissonTerm(mean, i, exp)
    ensures cdf + term * (mean / i as real) == CdfUpTo(mean, i, exp)
  {
  }

  /** The recurrence computes the Poisson probabilities `m^i e^-m / i!`. */
  lemma PoissonTermIsPmf(mean: real, i: nat, exp: real -> real)
    requires mean > 0.0
    ensures PoissonTerm(mean, i, exp) == PoissonPmf(mean, i, exp)
  {
    TermTimesFactorial(mean, i, exp);
    Quotient(PoissonTerm(mean, i, exp), Fact(i), Pow(mean, i) * exp(-mean));
  }

  /** Without the division: the i-th term times `i!` is `m^i e^-m`. */
  ghost predicate TermFactorialIdentity(mean: real, i: nat, exp: real -> real)
  {
    PoissonTerm(mean, i, exp) * Fact(i) == Pow(mean, i) * exp(-mean)
  }

  lemma {:induction false} TermTimesFactorial(mean: real, i: nat, exp: real -> real)
    ensures TermFactorialIdentity(mean, i, exp)
  {
    if i > 0 {
      TermTimesFactorial(mean, i - 1, exp);
      TermTimesFactorialStep(mean, i, exp);
    } else {
      assert PoissonTerm(mean, 0, exp) == exp(-mean) && Fact(0) == 1.0 && Pow(mean, 0) == 1.0;
    }
  }

  lemma TermTimesFactorialStep(mean: real, i: nat, exp: real -> real)
    requires i > 0 && TermFactorialIdentity(mean, i - 1, exp)
    ensures TermFactorialIdentity(mean, i, exp)
  {
    RecurrenceStep(PoissonTerm(mean, i - 1, exp), Fact(i - 1), mean, i as real, Pow(mean, i - 1), exp(-mean),
                   PoissonTerm(mean, i, exp), Fact(i), Pow(mean, i));
  }

  /** One step of the recurrence: multiplying the term `t` by `m / n` and
      the factorial `f` by `n` multiplies their product by `m`. */
  lemma RecurrenceStep(t: real, f: real, m: real, n: real, p: real, e: real, t': real, f': real, p': real)
    requires n > 0.0 && t * f == p * e
    requires t' == t * (m / n) && f' == n * f && p' == m * p
    ensures t' * f' == p' * e
  {
    var r := m / n;
    assert r * n == m;
    assert (t * r) * (n * f) == (t * f) * (r * n);
  }

  lemma Quotient(t: real, f: real, q: real)
    requires f > 0.0 && t * f == q
    ensures t == q / f
  {
  }

  /** With a non-negative `e^-m` every term is non-negative. */
  lemma {:induction false} PoissonTermNonNegative(mean: real, i: nat, exp: real -> real)
    requires mean > 0.0 && exp(-mean) >= 0.0
    ensures PoissonTerm(mean, i, exp) >= 0.0
  {
    if i > 0 {
      PoissonTermNonNegative(mean, i - 1, exp);
      assert mean / i as real > 0.0;
    }
  }

  /** The cdf only grows with its index. */
  lemma {:induction false} CdfUpToMonotone(mean: real, m: nat, n: nat, exp: real -> real)
    requires mean > 0.0 && exp(-mean) >= 0.0
    requires m <= n
    ensures CdfUpTo(mean, m, exp) <= CdfUpTo(mean, n, exp)
  {
    if m < n {
      CdfUpToMonotone(mean, m, n - 1, exp);
      PoissonTermNonNegative(mean, n, exp);
    }
  }

  /** The expected points of a count distribution: `Σ d[k]·points·k`. */
  function ExpectedPoints(d: seq<real>, pointsPer: real): real
  {
    if d == [] then 0.0
    else ExpectedPoints(d[..|d| - 1], pointsPer) + d[|d| - 1] * pointsPer * (|d| - 1) as real
  }

  /** The expected points are linear in the points per event. */
  lemma {:induction false} ExpectedPointsScale(d: seq<real>, pointsPer: real)
    ensures ExpectedPoints(d, pointsPer) == pointsPer * ExpectedPoints(d, 1.0)
  {
    if d != [] {
      var d' := d[..|d| - 1];
      var x := d[|d| - 1];
      var k := (|d| - 1) as real;
      ExpectedPointsScale(d', pointsPer);
      calc {
        ExpectedPoints(d, pointsPer);
        ExpectedPoints(d', pointsPer) + x * pointsPer * k;
        pointsPer * ExpectedPoints(d', 1.0) + x * pointsPer * k;
        { assert x * pointsPer * k == pointsPer * (x * 1.0 * k); }
        pointsPer * (ExpectedPoints(d', 1.0) + x * 1.0 * k);
        pointsPer * ExpectedPoints(d, 1.0);
      }
    }
  }

  /** Non-negative probabilities and points give non-negative expected points. */
  lemma {:induction false} ExpectedPointsNonNegative(d: seq<real>, pointsPer: real)
    requires 0.0 <= pointsPer
    requires forall k :: 0 <= k < |d| ==> d[k] >= 0.0
    ensures ExpectedPoints(d, pointsPer) >= 0.0
  {
    if d != [] {
      ExpectedPointsNonNegative(d[..|d| - 1], pointsPer);
      assert d[|d| - 1] * pointsPer >= 0.0;
    }
  }

  /** A distribution whose mass sits at 0 is worth nothing. */
  lemma {:induction false} PointMassAtZero(d: seq<real>, pointsPer: real)
    requires forall k :: 0 < k < |d| ==> d[k] == 0.0
    ensures ExpectedPoints(d, pointsPer) == 0.0
  {
    if d != [] {
      PointMassAtZero(d[..|d| - 1], pointsPer);
    }
  }

  /** More points per event never lower the expected points of a
      distribution with non-negative mass. */
  lemma MorePointsPerEvent(d: seq<real>, a: real, b: real)
    requires 0.0 <= a <= b
    requires forall k :: 0 <= k < |d| ==> d[k] >= 0.0
    ensures ExpectedPoints(d, a) <= ExpectedPoints(d, b)
  {
    ExpectedPointsScale(d, a);
    ExpectedPointsScale(d, b);
    ExpectedPointsNonNegative(d, 1.0);
    var e := ExpectedPoints(d, 1.0);
    assert a * e <= b * e;
  }

  /** The loop of calculatePoisson{Goal,Assist}Points: the probability of
      every count from 0 to `maxCount`, and the expected points over them. */
  method PoissonPoints(lambda: real, pointsPer: real, maxCount: int, exp: real -> real)
    returns (expectedPoints: real, distribution: seq<real>)
    ensures |distribution| == if maxCount < 0 then 0 else maxCount + 1
    ensures forall k :: 0 <= k < |distribution| ==> distribution[k] == PoissonPmf(lambda, k, exp)
    ensures expectedPoints == ExpectedPoints(distribution, pointsPer)
  {
    distribution := [];
    expectedPoints := 0.0;
    var k := 0;
    while k <= maxCount
      invariant 0 <= k && |distribution| == k
      invariant k <= if maxCount < 0 then 0 else maxCount + 1
      invariant forall j :: 0 <= j < k ==> distribution[j] == PoissonPmf(lambda, j, exp)
      invariant expectedPoints == ExpectedPoints(distribution, pointsPer)
    {
      var prob := PoissonPmf(lambda, k, exp);
      assert (distribution + [prob])[..k] == distribution;
      distribution := distribution + [prob];
      expectedPoints := expectedPoints + prob * pointsPer * k as real;
      k := k + 1;
    }
  }

  /** The default truncation of the goal distribution. */
  const DefaultMaxGoals: int := 5

  /** The default truncation of the assist distribution. */
  const DefaultMaxAssists: int := 4

  /** calculatePoissonGoalPoints: goals scored at the position's goal points. */
  method PoissonGoalPoints(xG: real, pos: Position, maxGoals: Option<int>, exp: real -> real)
    returns (expectedPoints: real, distribution: seq<real>)
    ensures var m := maxGoals.GetOr(DefaultMaxGoals);
            |distribution| == if m < 0 then 0 else m + 1
    ensures forall k :: 0 <= k < |distribution| ==> distribution[k] == PoissonPmf(xG, k, exp)
    ensures expectedPoints == ExpectedPoints(distribution, GoalPoints(pos) as real)
  {
    expectedPoints, distribution := PoissonPoints(xG, GoalPoints(pos) as real, maxGoals.GetOr(DefaultMaxGoals), exp);
  }

  /** calculatePoissonAssistPoints: assists at 3 points each. */
  method PoissonAssistPoints(xA: real, maxAssists: Option<int>, exp: real -> real)
    returns (expectedPoints: real, distribution: seq<real>)
    ensures var m := maxAssists.GetOr(DefaultMaxAssists);
            |distribution| == if m < 0 then 0 else m + 1
    ensures forall k :: 0 <= k < |distribution| ==> distribution[k] == PoissonPmf(xA, k, exp)
    ensures expectedPoints == ExpectedPoints(distribution, AssistPoints as real)
  {
    expectedPoints, distribution := PoissonPoints(xA, AssistPoints as real, maxAssists.GetOr(DefaultMaxAssists), exp);
  }

  datatype AttackPoints = AttackPoints(
    goalPoints: real,
    assistPoints: real,
    totalAttackPoints: real,
    goalDistribution: seq<real>,
    assistDistribution: seq<real>)

  /** calculatePoissonAttackPoints: goals up to 5 and assists up to 4, with
      the total the sum of the two. */
  method PoissonAttackPoints(xG: real, xA: real, pos: Position, exp: real -> real) returns (r: AttackPoints)
    ensures r.totalAttackPoints == r.goalPoints + r.assistPoints
    ensures |r.goalDistribution| == 6 && |r.assistDistribution| == 5
    ensures r.goalPoints == ExpectedPoints(r.goalDistribution, GoalPoints(pos) as real)
    ensures r.assistPoints == ExpectedPoints(r.assistDistribution, AssistPoints as real)
    ensures forall k :: 0 <= k < 6 ==> r.goalDistribution[k] == PoissonPmf(xG, k, exp)
    ensures forall k :: 0 <= k < 5 ==> r.assistDistribution[k] == PoissonPmf(xA, k, exp)
  {
    var goalPoints, goalDistribution := PoissonGoalPoints(xG, pos, None, exp);
    var assistPoints, assistDistribution := PoissonAssistPoints(xA, None, exp);
    r := AttackPoints(goalPoints, assistPoints, goalPoints + assistPoints, goalDistribution, assistDistribution);
  }

  /** With no expected goals and no expected assists a player earns no
      attacking points, whatever the position. */
  lemma NoChancesNoPoints(d: seq<real>, pointsPer: real, exp: real -> real)
    requires forall k :: 0 <= k < |d| ==> d[k] == PoissonPmf(0.0, k, exp)
    ensures ExpectedPoints(d, pointsPer) == 0.0
  {
    PointMassAtZero(d, pointsPer);
  }

  /** The expected bonus before the win scaling: forwards and midfielders
      from braces, goals and assists, defenders and goalkeepers from a clean
      sheet with or without a goal involvement. */
  function BonusBase(pos: Position, xG: real, xA: real, probCs: real, exp: real -> real): real
  {
    if pos == Forward || pos == Midfielder then
      var atLeastOneGoal := 1.0 - PoissonPmf(xG, 0, exp);
      var atLeastTwoGoals := 1.0 - PoissonPmf(xG, 0, exp) - PoissonPmf(xG, 1, exp);
      var atLeastOneAssist := 1.0 - PoissonPmf(xA, 0, exp);
      var prob3 := atLeastTwoGoals * 0.85 + atLeastOneGoal * atLeastOneAssist * 0.6;
      var prob2 := (atLeastOneGoal - atLeastTwoGoals) * 0.4;
      var prob1 := (atLeastOneAssist - atLeastOneGoal * atLeastOneAssist) * 0.35;
      3.0 * prob3 + 2.0 * prob2 + prob1
    else
      var pReturn := 1.0 - PoissonPmf(xG + xA, 0, exp);
      var prob3 := probCs * pReturn * 0.9;
      var prob2 := probCs * (1.0 - pReturn) * 0.4;
      var prob1 := probCs * (1.0 - pReturn) * 0.4;
      3.0 * prob3 + 2.0 * prob2 + prob1
  }

  /** calculateSmartBonus: the base scaled up by the win probability, plus
      0.15 for a key player, within [0, 3]. */
  function SmartBonus(pos: Position, xG: real, xA: real, probCs: real, winProb: real, isKeyPlayer: bool,
                      exp: real -> real): (r: real)
    ensures 0.0 <= r <= 3.0
  {
    var scaled := BonusBase(pos, xG, xA, probCs, exp) * (1.0 + winProb * 0.2);
    var expected := if isKeyPlayer then scaled + 0.15 else scaled;
    Min(3.0, Max(0.0, expected))
  }

  /** Being a key player never lowers the bonus. */
  lemma KeyPlayerNeverLowers(pos: Position, xG: real, xA: real, probCs: real, winProb: real, exp: real -> real)
    ensures SmartBonus(pos, xG, xA, probCs, winProb, false, exp) <= SmartBonus(pos, xG, xA, probCs, winProb, true, exp)
  {
  }

  /** A defender or goalkeeper with no chance of a clean sheet gets no bonus
      beyond the key-player allowance. */
  lemma NoCleanSheetNoDefensiveBonus(pos: Position, xG: real, xA: real, winProb: real, isKeyPlayer: bool,
                                     exp: real -> real)
    requires pos == Goalkeeper || pos == Defender
    ensures SmartBonus(pos, xG, xA, 0.0, winProb, isKeyPlayer, exp) == (if isKeyPlayer then 0.15 else 0.0)
  {
  }
}
