/** The pure helpers of the prediction service: blending season and recent
    rates, the per-position tables, share bounds, calibration, role
    inference, the scoring weights and the DEFCON rule with its Poisson tail.
    `Math.exp` is the parameter `exp`. */
module PredictionService {
  import opened Domain
  import opened Points

  /** blend: the season value when there is no finite recent value,
      otherwise the mix with weight `alpha·weight` on the recent value. */
  function Blend(seasonVal: real, recentVal: Option<real>, alpha: real, weight: real): (r: real)
    ensures recentVal.None? ==> r == seasonVal
    ensures alpha * weight == 0.0 ==> r == seasonVal
    ensures recentVal.Some? && alpha * weight == 1.0 ==> r == recentVal.value
  {
    if recentVal.None? then seasonVal
    else
      var a := alpha * weight;
      a * recentVal.value + (1.0 - a) * seasonVal
  }

  /** With a weight between 0 and 1 the blend lies between the season and the
      recent value. */
  lemma BlendBetween(seasonVal: real, recentVal: real, alpha: real, weight: real)
    requires 0.0 <= alpha * weight <= 1.0
    ensures Min(seasonVal, recentVal) <= Blend(seasonVal, Some(recentVal), alpha, weight) <= Max(seasonVal, recentVal)
  {
    var a := alpha * weight;
    var d := recentVal - seasonVal;
    assert Blend(seasonVal, Some(recentVal), alpha, weight) == seasonVal + a * d;
    ScaleBetween(a, d);
  }

  lemma ScaleBetween(a: real, d: real)
    requires 0.0 <= a <= 1.0
    ensures d >= 0.0 ==> 0.0 <= a * d <= d
    ensures d < 0.0 ==> d <= a * d <= 0.0
  {
    assert a * d + (1.0 - a) * d == d;
    if d >= 0.0 {
      assert (1.0 - a) * d >= 0.0;
    } else {
      assert (1.0 - a) * d <= 0.0;
    }
  }

  /** getAvgMins: the minutes a starter plays, per position. */
  function AvgMins(pos: Position): (m: real)
    ensures 78.0 <= m <= 90.0
    ensures m == 90.0 <==> pos == Goalkeeper
  {
    match pos
    case Goalkeeper => 90.0
    case Defender => 85.0
    case Midfielder => 78.0
    case Forward => 79.0
  }

  datatype ShareBounds = ShareBounds(floor: real, cap: real)

  /** getShareBounds: tighter share bounds for players with little game
      time. */
  function GetShareBounds(seasonMinutes: real): (b: ShareBounds)
    ensures 0.0 < b.floor < b.cap < 1.0
    ensures seasonMinutes < 180.0 ==> b == ShareBounds(0.005, 0.18)
    ensures 180.0 <= seasonMinutes < 360.0 ==> b == ShareBounds(0.005, 0.25)
    ensures 360.0 <= seasonMinutes ==> b == ShareBounds(0.03, 0.65)
  {
    if seasonMinutes < 180.0 then ShareBounds(0.005, 0.18)
    else if seasonMinutes < 360.0 then ShareBounds(0.005, 0.25)
    else ShareBounds(0.03, 0.65)
  }

  /** A share clamped into its bounds. */
  function BoundShare(share: real, seasonMinutes: real): real
  {
    var b := GetShareBounds(seasonMinutes);
    Max(b.floor, Min(share, b.cap))
  }

  /** Since the floor is below the cap, a bounded share always lies within
      the bounds, and a share already inside them is kept. */
  lemma BoundShareWithin(share: real, seasonMinutes: real)
    ensures var b := GetShareBounds(seasonMinutes);
            b.floor <= BoundShare(share, seasonMinutes) <= b.cap &&
            (b.floor <= share <= b.cap ==> BoundShare(share, seasonMinutes) == share)
  {
  }

  /** POSITION_SCALE_FACTORS. */
  function PositionScaleFactor(pos: Position): real
  {
    match pos
    case Forward => 1.0
    case Midfielder => 1.0
    case Defender => 0.92
    case Goalkeeper => 0.85
  }

  /** POSITION_BOUNDS. */
  function PositionBounds(pos: Position): (b: ShareBounds)
    ensures 2.0 <= b.floor < b.cap <= 9.0
  {
    match pos
    case Goalkeeper => ShareBounds(2.0, 5.5)
    case Defender => ShareBounds(2.5, 6.0)
    case Midfielder => ShareBounds(2.0, 8.5)
    case Forward => ShareBounds(2.0, 9.0)
  }

  /** applyPositionCalibration: scale by the position's factor, then clip to
      the position's bounds. */
  function ApplyPositionCalibration(rawXPts: real, pos: Position): (r: real)
    ensures PositionBounds(pos).floor <= r <= PositionBounds(pos).cap
  {
    var scaled := rawXPts * PositionScaleFactor(pos);
    var bounds := PositionBounds(pos);
    Max(bounds.floor, Min(scaled, bounds.cap))
  }

  /** Calibration keeps the order of the raw figures, and leaves an attacker's
      figure inside the bounds untouched. */
  lemma CalibrationMonotone(x: real, y: real, pos: Position)
    requires x <= y
    ensures ApplyPositionCalibration(x, pos) <= ApplyPositionCalibration(y, pos)
    ensures (pos == Forward || pos == Midfielder) && PositionBounds(pos).floor <= x <= PositionBounds(pos).cap
            ==> ApplyPositionCalibration(x, pos) == x
  {
    assert x * PositionScaleFactor(pos) <= y * PositionScaleFactor(pos);
  }

  datatype PlayerRole =
    | Poacher | CompleteForward | Playmaker | BoxToBox | Winger
    | AttackingDefender | StandardDefender | GoalkeeperRole

  /** The goals-to-assists ratio, the assists floored at 0.01. */
  function GoalRatio(xG90: real, xA90: real): real
  {
    xG90 / Max(0.01, xA90)
  }

  /** inferPlayerRole. */
  function InferPlayerRole(pos: Position, xG90: real, xA90: real): (role: PlayerRole)
    ensures role == GoalkeeperRole <==> pos == Goalkeeper
    ensures pos == Defender ==> (role == AttackingDefender <==> xG90 + xA90 > 0.10)
    ensures pos == Defender ==> role in {AttackingDefender, StandardDefender}
    ensures pos == Midfielder ==>
              (role == BoxToBox <==> GoalRatio(xG90, xA90) > 1.2) &&
              (role == Playmaker <==> GoalRatio(xG90, xA90) < 0.6) &&
              (role == Winger <==> 0.6 <= GoalRatio(xG90, xA90) <= 1.2)
    ensures pos == Forward ==>
              (role == Poacher <==> GoalRatio(xG90, xA90) > 2.0) &&
              (role == CompleteForward <==> GoalRatio(xG90, xA90) <= 2.0)
  {
    if pos == Goalkeeper then GoalkeeperRole
    else if pos == Defender then (if xG90 + xA90 > 0.10 then AttackingDefender else StandardDefender)
    else if pos == Midfielder then
      var ratio := GoalRatio(xG90, xA90);
      if ratio > 1.2 then BoxToBox else if ratio < 0.6 then Playmaker else Winger
    else
      var ratio := GoalRatio(xG90, xA90);
      if ratio > 2.0 then Poacher else CompleteForward
  }

  /** pts_attack: goals at 4/5/6 for a forward/midfielder/other, assists at 3. */
  function AttackValue(pos: Position, xG: real, xA: real): real
  {
    var goalPtsVal := if pos == Forward then 4.0 else if pos == Midfielder then 5.0 else 6.0;
    goalPtsVal * xG + 3.0 * xA
  }

  /** pts_cs: 1 for a midfielder, 4 for a defender or goalkeeper, weighted by
      the clean-sheet and 60-minute probabilities. */
  function CleanSheetValue(pos: Position, probCs: real, prob60: real): real
  {
    if pos == Midfielder then 1.0 * probCs * prob60
    else if pos == Defender || pos == Goalkeeper then 4.0 * probCs * prob60
    else 0.0
  }

  /** The service weights goals, assists and clean sheets exactly as the FPL
      points table does. */
  lemma ServiceUsesPointsTable(pos: Position, xG: real, xA: real, probCs: real, prob60: real)
    ensures AttackValue(pos, xG, xA) == GoalPoints(pos) as real * xG + AssistPoints as real * xA
    ensures CleanSheetValue(pos, probCs, prob60) == CleanSheetPoints(pos) as real * probCs * prob60
  {
  }

  /** The last term the loop adds: none past the threshold minus one, and
      none past the 201st. */
  function LastTerm(k: int): (n: nat)
    ensures n <= 201
  {
    var cutoff := if k < 0 then 0 else k;
    if cutoff <= 1 then 0 else if cutoff - 1 < 201 then cutoff - 1 else 201
  }

  /** poissonTail: `P(X >= k)` for `X ~ Poisson(mean)`, 0 when the mean is
      not positive, clipped to [0, 1]. */
  function PoissonTail(k: int, mean: real, exp: real -> real): (p: real)
    ensures 0.0 <= p <= 1.0
    ensures mean <= 0.0 ==> p == 0.0
  {
    if mean <= 0.0 then 0.0 else Max(0.0, Min(1.0, 1.0 - CdfUpTo(mean, LastTerm(k), exp)))
  }

  /** poissonTail as the service runs it: terms by recurrence, summed until
      the threshold, with a guard after 200 terms. */
  method PoissonTailLoop(k: int, mean: real, exp: real -> real) returns (p: real)
    ensures p == PoissonTail(k, mean, exp)
  {
    if mean <= 0.0 {
      return 0.0;
    }
    var cutoff := if k < 0 then 0 else k;
    var term := exp(-mean);
    var cdf := term;
    var i := 1;
    while i < cutoff
      invariant 1 <= i <= 201
      invariant i <= if cutoff < 1 then 1 else cutoff
      invariant term == PoissonTerm(mean, i - 1, exp)
      invariant cdf == CdfUpTo(mean, i - 1, exp)
      decreases cutoff - i
    {
      CdfStep(mean, i, exp, term, cdf);
      term := term * (mean / i as real);
      cdf := cdf + term;
      if i > 200 {
        assert LastTerm(k) == i;
        return Max(0.0, Min(1.0, 1.0 - cdf));
      }
      i := i + 1;
    }
    assert LastTerm(k) == i - 1;
    p := Max(0.0, Min(1.0, 1.0 - cdf));
  }

  /** A higher threshold is never easier to reach. */
  lemma TailDecreasesWithThreshold(k1: int, k2: int, mean: real, exp: real -> real)
    requires k1 <= k2
    requires exp(-mean) >= 0.0
    ensures PoissonTail(k2, mean, exp) <= PoissonTail(k1, mean, exp)
  {
    if mean > 0.0 {
      CdfUpToMonotone(mean, LastTerm(k1), LastTerm(k2), exp);
    }
  }

  /** The DEFCON threshold: 10 actions for a defender, 12 for everyone else. */
  function DefconThreshold(pos: Position): (t: int)
    ensures t == 10 <==> pos == Defender
    ensures t == 12 <==> pos != Defender
  {
    if pos == Defender then 10 else 12
  }

  datatype Defcon = Defcon(prob: real, mean: real, threshold: int, points: real)

  /** The tail of computeDefconExpectedPoints: the chance of reaching the
      position's threshold and the 2 points it is worth. The mean itself,
      built from powers of the exposure ratios, is a parameter. */
  function DefconExpectedPoints(pos: Position, mean: real, exp: real -> real): (d: Defcon)
    ensures d.threshold == DefconThreshold(pos)
    ensures 0.0 <= d.prob <= 1.0
    ensures d.points == 2.0 * d.prob && 0.0 <= d.points <= 2.0
    ensures mean <= 0.0 ==> d.points == 0.0
  {
    var threshold := DefconThreshold(pos);
    var prob := PoissonTail(threshold, mean, exp);
    Defcon(prob, mean, threshold, 2.0 * prob)
  }

  /** At the same mean a defender, with the lower threshold, is at least as
      likely to earn the DEFCON points as anyone else. */
  lemma DefenderThresholdIsEasier(other: Position, mean: real, exp: real -> real)
    requires exp(-mean) >= 0.0
    ensures DefconExpectedPoints(other, mean, exp).points <= DefconExpectedPoints(Defender, mean, exp).points
  {
    TailDecreasesWithThreshold(DefconThreshold(Defender), DefconThreshold(other), mean, exp);
  }
}
