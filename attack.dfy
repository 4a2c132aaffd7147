/** The attacking helpers of the prediction model: how central a player is
    to the team's attack, and the assist boost drawn from key passes. */
module Attack {
  import opened Domain

  const GoalWeight: real := 0.4
  const AssistWeight: real := 0.3
  const KeyPassWeight: real := 0.2
  const BoxTouchWeight: real := 0.1

  /** The team's per-90 xG, floored at 0.5 so that the shares stay finite. */
  function TeamBase(teamXg90: real): (b: real)
    ensures b >= 0.5
    ensures b >= teamXg90
    ensures teamXg90 >= 0.5 ==> b == teamXg90
  {
    Max(0.5, teamXg90)
  }

  /** The weighted part of one ingredient, its share capped at 1. */
  function Term(weight: real, share: real): real
  {
    weight * Min(1.0, share)
  }

  /** calculateInvolvementScore: the weighted goal share, assist share, key
      passes and box touches, capped at 1. */
  function InvolvementScore(xG90: real, xA90: real, keyPasses90: real, touchesInBox90: real,
                            teamXg90: real): (r: real)
    ensures r <= 1.0
  {
    var teamBase := TeamBase(teamXg90);
    var score := Term(GoalWeight, xG90 / teamBase) + Term(AssistWeight, xA90 / teamBase) +
                 Term(KeyPassWeight, keyPasses90 / 3.0) + Term(BoxTouchWeight, touchesInBox90 / 6.0);
    Min(1.0, score)
  }

  /** A non-negative ingredient contributes between nothing and its weight. */
  lemma TermBounds(weight: real, share: real)
    requires 0.0 <= weight && 0.0 <= share
    ensures 0.0 <= Term(weight, share) <= weight
    ensures share >= 1.0 ==> Term(weight, share) == weight
  {
    ScaledFraction(weight, Min(1.0, share));
  }

  lemma ScaledFraction(w: real, m: real)
    requires 0.0 <= w && 0.0 <= m <= 1.0
    ensures 0.0 <= w * m <= w
  {
  }

  /** For non-negative inputs the score lies in [0, 1]; it reaches 1 exactly
      when every ingredient is saturated, since the weights add up to 1. */
  lemma InvolvementBounds(xG90: real, xA90: real, keyPasses90: real, touchesInBox90: real, teamXg90: real)
    requires 0.0 <= xG90 && 0.0 <= xA90 && 0.0 <= keyPasses90 && 0.0 <= touchesInBox90
    ensures 0.0 <= InvolvementScore(xG90, xA90, keyPasses90, touchesInBox90, teamXg90) <= 1.0
    ensures xG90 >= TeamBase(teamXg90) && xA90 >= TeamBase(teamXg90) && keyPasses90 >= 3.0 && touchesInBox90 >= 6.0
            ==> InvolvementScore(xG90, xA90, keyPasses90, touchesInBox90, teamXg90) == 1.0
  {
    var b := TeamBase(teamXg90);
    TermBounds(GoalWeight, xG90 / b);
    TermBounds(AssistWeight, xA90 / b);
    TermBounds(KeyPassWeight, keyPasses90 / 3.0);
    TermBounds(BoxTouchWeight, touchesInBox90 / 6.0);
    if xG90 >= b {
      assert xG90 / b >= 1.0;
    }
    if xA90 >= b {
      assert xA90 / b >= 1.0;
    }
  }

  /** More expected goals never lower the score. */
  lemma InvolvementMonotoneInGoals(x: real, y: real, xA90: real, keyPasses90: real, touchesInBox90: real,
                                   teamXg90: real)
    requires x <= y
    ensures InvolvementScore(x, xA90, keyPasses90, touchesInBox90, teamXg90) <=
            InvolvementScore(y, xA90, keyPasses90, touchesInBox90, teamXg90)
  {
    var b := TeamBase(teamXg90);
    assert x / b <= y / b;
  }

  /** The league average the assist boost defaults to. */
  const DefaultLeagueAvgXa90: real := 0.15

  /** calculateAssistBoost: nothing below half a key pass per 90; otherwise
      half the xA above the 12% key-pass conversion, plus three tenths of the
      xA below it. The regressed xA is computed and never used. */
  function AssistBoost(xA90: real, keyPasses90: real, leagueAvgXa90: Option<real>): (r: real)
    ensures keyPasses90 < 0.5 ==> r == 0.0
  {
    if keyPasses90 < 0.5 then 0.0
    else
      var expectedXaFromKP := keyPasses90 * 0.12;
      var regressedXa := xA90 * (1.0 - 0.3) + leagueAvgXa90.GetOr(DefaultLeagueAvgXa90) * 0.3;
      var qualityBoost := Max(0.0, xA90 - expectedXaFromKP) * 0.5;
      var unluckyBoost := Max(0.0, expectedXaFromKP - xA90) * 0.3;
      qualityBoost + unluckyBoost
  }

  /** With enough key passes the boost is piecewise linear in the gap between
      the player's xA and the xA the key passes imply: half of it above, three
      tenths of it below. It is never negative, and it is positive exactly
      when there are enough key passes and the xA differs from the implied
      one. */
  lemma AssistBoostShape(xA90: real, keyPasses90: real, leagueAvgXa90: Option<real>)
    ensures var r := AssistBoost(xA90, keyPasses90, leagueAvgXa90);
            r >= 0.0 &&
            (r > 0.0 <==> keyPasses90 >= 0.5 && xA90 != 0.12 * keyPasses90) &&
            (keyPasses90 >= 0.5 && xA90 >= 0.12 * keyPasses90 ==> r == 0.5 * (xA90 - 0.12 * keyPasses90)) &&
            (keyPasses90 >= 0.5 && xA90 <= 0.12 * keyPasses90 ==> r == 0.3 * (0.12 * keyPasses90 - xA90))
  {
  }

  /** The league average has no effect on the boost. */
  lemma AssistBoostIgnoresLeagueAverage(xA90: real, keyPasses90: real, a: Option<real>, b: Option<real>)
    ensures AssistBoost(xA90, keyPasses90, a) == AssistBoost(xA90, keyPasses90, b)
  {
  }
}
