/** Monte Carlo sampling of one match. Every `Math.random()` draw is an
    explicit real in [0, 1); a Poisson sample consumes a finite sequence of
    draws and is None when they run out before the loop stops. `Math.exp` is
    the parameter `exp`. */
module Sampling {
  import opened Domain

  /** What `Math.random()` returns. */
  predicate IsUniform(u: real)
  {
    0.0 <= u < 1.0
  }

  /** sampleBernoulli: true when the draw falls below `p`; so never for
      `p <= 0` and always for `p >= 1`. */
  function Bernoulli(p: real, u: real): (b: bool)
    ensures IsUniform(u) && p <= 0.0 ==> !b
    ensures IsUniform(u) && p >= 1.0 ==> b
  {
    u < p
  }

  /** The product of the draws. */
  function Product(s: seq<real>): real
  {
    if s == [] then 1.0 else Product(s[..|s| - 1]) * s[|s| - 1]
  }

  lemma ProductPrefix(draws: seq<real>, k: nat)
    requires k < |draws|
    ensures Product(draws[..k + 1]) == Product(draws[..k]) * draws[k]
  {
    assert draws[..k + 1][..k] == draws[..k];
  }

  /** The do-while of samplePoisson after `k` draws: the sample it returns,
      one less than the number of draws it has multiplied in once their
      product is at or below `limit`; None when the draws run out first. */
  function Run(limit: real, draws: seq<real>, k: nat): (r: Option<nat>)
    requires k <= |draws|
    ensures r.Some? ==> k <= r.value < |draws|
    decreases |draws| - k
  {
    if k == |draws| then None
    else if Product(draws[..k + 1]) <= limit then Some(k)
    else Run(limit, draws, k + 1)
  }

  /** `m + 1` is the shortest non-empty prefix of the draws whose product is
      at or below `limit`. */
  ghost predicate FirstReach(limit: real, draws: seq<real>, m: nat)
  {
    m < |draws| && Product(draws[..m + 1]) <= limit &&
    forall j :: 1 <= j <= m ==> Product(draws[..j]) > limit
  }

  /** From any point of the loop, it stops at the first prefix whose product
      reaches the limit, and runs out of draws exactly when there is none. */
  lemma {:induction false} RunIsFirstReach(limit: real, draws: seq<real>, k: nat, m: nat)
    requires k <= |draws|
    requires forall j :: 1 <= j <= k ==> Product(draws[..j]) > limit
    ensures Run(limit, draws, k) == Some(m) <==> k <= m && FirstReach(limit, draws, m)
    decreases |draws| - k
  {
    if k < |draws| {
      if Product(draws[..k + 1]) <= limit {
        if m > k {
          assert !(Product(draws[..k + 1]) > limit);
        }
      } else {
        RunIsFirstReach(limit, draws, k + 1, m);
      }
    }
  }

  /** samplePoisson: 0 for a non-positive rate; otherwise one less than the
      number of draws multiplied in before the product falls to `exp(-λ)`. */
  function PoissonSample(lambda: real, exp: real -> real, draws: seq<real>): (r: Option<nat>)
    ensures lambda <= 0.0 ==> r == Some(0)
    ensures lambda > 0.0 && r.Some? ==> r.value < |draws|
  {
    if lambda <= 0.0 then Some(0) else Run(exp(-lambda), draws, 0)
  }

  /** Inverse transform sampling: for a positive rate the sample is `m`
      exactly when `m + 1` draws are the fewest whose product reaches
      `exp(-λ)`. */
  lemma PoissonSampleIsFirstReach(lambda: real, exp: real -> real, draws: seq<real>, m: nat)
    requires lambda > 0.0
    ensures PoissonSample(lambda, exp, draws) == Some(m) <==> FirstReach(exp(-lambda), draws, m)
  {
    RunIsFirstReach(exp(-lambda), draws, 0, m);
  }

  /** samplePoisson as the source runs it: a do-while multiplying draws into
      `p` until it is at or below `exp(-λ)`. Here `k` counts the draws taken
      before the current one, so the source's `k - 1` on exit is `k`. */
  method SamplePoisson(lambda: real, exp: real -> real, draws: seq<real>) returns (r: Option<nat>)
    ensures r == PoissonSample(lambda, exp, draws)
  {
    if lambda <= 0.0 {
      return Some(0);
    }
    var limit := exp(-lambda);
    var k := 0;
    var p := 1.0;
    assert draws[..0] == [];
    while true
      invariant 0 <= k <= |draws|
      invariant p == Product(draws[..k])
      invariant Run(limit, draws, 0) == Run(limit, draws, k)
      decreases |draws| - k
    {
      if k == |draws| {
        return None;
      }
      ProductPrefix(draws, k);
      p := p * draws[k];
      assert p == Product(draws[..k + 1]);
      if p <= limit {
        assert Run(limit, draws, k) == Some(k);
        return Some(k);
      }
      assert Run(limit, draws, k) == Run(limit, draws, k + 1);
      k := k + 1;
    }
  }

  /** sampleGoals and sampleAssists: a Poisson sample at the rate scaled by
      the fraction of the match played. */
  function SampleReturns(rate: real, minutesFraction: real, exp: real -> real, draws: seq<real>): (r: Option<nat>)
    ensures rate * minutesFraction <= 0.0 ==> r == Some(0)
  {
    PoissonSample(rate * minutesFraction, exp, draws)
  }

  /** The rough chance of coming off the bench, clamped to [0, 0.3]. */
  function SubChance(startProbability: real, expectedMinutes: real): (c: real)
    ensures 0.0 <= c <= 0.3
  {
    Max(0.0, Min(0.3, (expectedMinutes - startProbability * 70.0) / 25.0))
  }

  /** sampleMinutes: 0 or 1-45 minutes off the bench, 60-90 for a start
      that lasts the hour, 45-59 for an early substitution. */
  function SampleMinutes(startProbability: real, expectedMinutes: real, prob60: real,
                         uStart: real, uPlay: real, uMinutes: real): (m: int)
    requires IsUniform(uStart) && IsUniform(uPlay) && IsUniform(uMinutes)
    ensures 0 <= m <= 90
    ensures !Bernoulli(startProbability, uStart) ==> m == 0 || 1 <= m <= 45
    ensures Bernoulli(startProbability, uStart) ==> 45 <= m
    ensures m >= 60 <==> uStart < startProbability && uPlay < prob60 / startProbability
    ensures m == 0 <==> !Bernoulli(startProbability, uStart) &&
                        !Bernoulli(SubChance(startProbability, expectedMinutes), uPlay)
  {
    if !Bernoulli(startProbability, uStart) then
      if !Bernoulli(SubChance(startProbability, expectedMinutes), uPlay) then 0
      else (uMinutes * 45.0).Floor + 1
    else if Bernoulli(prob60 / startProbability, uPlay) then 60 + (uMinutes * 31.0).Floor
    else 45 + (uMinutes * 15.0).Floor
  }

  /** sampleCleanSheet: never under 60 minutes. */
  function SampleCleanSheet(csProb: real, minutes: int, u: real): (cs: bool)
    ensures minutes < 60 ==> !cs
    ensures minutes >= 60 ==> (cs <==> Bernoulli(csProb, u))
  {
    if minutes < 60 then false else Bernoulli(csProb, u)
  }

  predicate IsBackLine(pos: Position)
  {
    pos == Goalkeeper || pos == Defender
  }

  /** The actions needed for DEFCON points in the simulation: 10 for a
      goalkeeper or defender, 12 otherwise. */
  function DefconActionThreshold(pos: Position): (t: int)
    ensures t == 10 <==> IsBackLine(pos)
    ensures t == 12 <==> !IsBackLine(pos)
  {
    if IsBackLine(pos) then 10 else 12
  }

  /** The per-90 action rate that counts: CBIT for the back line, CBIRT
      otherwise. */
  function DefconRate(pos: Position, cbit90: real, cbirt90: real): real
  {
    if IsBackLine(pos) then cbit90 else cbirt90
  }

  /** The Poisson rate of defensive actions over the minutes played. */
  function DefconLambda(pos: Position, cbit90: real, cbirt90: real, minutes: int): real
  {
    DefconRate(pos, cbit90, cbirt90) * (minutes as real / 90.0)
  }

  /** sampleDefcon: 0 under 60 minutes; otherwise 2 exactly when the sampled
      number of actions reaches the position's threshold. */
  function SampleDefcon(pos: Position, cbit90: real, cbirt90: real, minutes: int,
                        exp: real -> real, draws: seq<real>): (r: Option<int>)
    ensures minutes < 60 ==> r == Some(0)
    ensures r.Some? ==> r.value == 0 || r.value == 2
    ensures r == Some(2) <==>
              minutes >= 60 &&
              var actions := PoissonSample(DefconLambda(pos, cbit90, cbirt90, minutes), exp, draws);
              actions.Some? && actions.value >= DefconActionThreshold(pos)
    ensures r.None? <==> minutes >= 60 && PoissonSample(DefconLambda(pos, cbit90, cbirt90, minutes), exp, draws).None?
  {
    if minutes < 60 then Some(0)
    else
      var threshold := DefconActionThreshold(pos);
      match PoissonSample(DefconLambda(pos, cbit90, cbirt90, minutes), exp, draws)
      case None => None
      case Some(actions) => Some(if actions >= threshold then 2 else 0)
  }

  /** The simplified bonus-point score: 12 per goal, 9 per assist, 12 for a
      back-line clean sheet, plus a random 0-9 for everything else. */
  function BonusScore(goals: nat, assists: nat, cleanSheet: bool, pos: Position, u: real): (bps: int)
    ensures IsUniform(u) ==> 0 <= bps - (12 * goals + 9 * assists + (if cleanSheet && IsBackLine(pos) then 12 else 0)) <= 9
  {
    var bps := goals * 12 + assists * 9;
    var bps' := if cleanSheet && IsBackLine(pos) then bps + 12 else bps;
    bps' + (u * 10.0).Floor
  }

  /** The bonus for a score: 3 from 30, 2 from 20, 1 from 10. */
  function BonusForScore(bps: int): (b: int)
    ensures 0 <= b <= 3
    ensures b == 3 <==> bps >= 30
    ensures b == 0 <==> bps < 10
  {
    if bps >= 30 then 3
    else if bps >= 20 then 2
    else if bps >= 10 then 1
    else 0
  }

  /** sampleBonus. */
  function SampleBonus(goals: nat, assists: nat, cleanSheet: bool, pos: Position, u: real): (b: int)
    ensures 0 <= b <= 3
    ensures IsUniform(u) && goals >= 3 ==> b == 3
    ensures IsUniform(u) && goals >= 1 ==> b >= 1
    ensures IsUniform(u) && goals == 0 && assists == 0 && !(cleanSheet && IsBackLine(pos)) ==> b == 0
  {
    BonusForScore(BonusScore(goals, assists, cleanSheet, pos, u))
  }

  /** With the same draw, another goal or assist never lowers the bonus. */
  lemma BonusMonotone(goals: nat, assists: nat, goals': nat, assists': nat, cleanSheet: bool, pos: Position, u: real)
    requires goals <= goals' && assists <= assists'
    ensures SampleBonus(goals, assists, cleanSheet, pos, u) <= SampleBonus(goals', assists', cleanSheet, pos, u)
  {
    assert BonusScore(goals, assists, cleanSheet, pos, u) <= BonusScore(goals', assists', cleanSheet, pos, u);
  }
}
