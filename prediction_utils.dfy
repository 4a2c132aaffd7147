/** The numeric helpers every prediction model shares: clamping, per-90
    rates with a minimum sample, the fold that totals a player's or team's
    match rows, and the share of a team rate that one player accounts for. */
module PredictionUtils {
  import opened Domain

  /** clamp: `Math.max(lo, Math.min(hi, x))`. */
  function Clamp(x: real, lo: real, hi: real): (r: real)
    ensures lo <= hi ==> lo <= r <= hi
    ensures lo <= x <= hi ==> r == x
    ensures x < lo ==> r == lo
    ensures lo <= hi && hi < x ==> r == hi
    ensures r >= lo
  {
    Max(lo, Min(hi, x))
  }

  /** Clamping twice to the same range is clamping once, and clamping keeps
      the order of its inputs. */
  lemma ClampProperties(x: real, y: real, lo: real, hi: real)
    requires lo <= hi
    ensures Clamp(Clamp(x, lo, hi), lo, hi) == Clamp(x, lo, hi)
    ensures x <= y ==> Clamp(x, lo, hi) <= Clamp(y, lo, hi)
  {
  }

  /** The per-90 rate of a total over a number of minutes. */
  function Rate(value: real, minutes: real): (r: real)
    requires minutes != 0.0
    ensures r * minutes == value * 90.0
  {
    value / minutes * 90.0
  }

  /** safePer90: 0 for a missing value or fewer than `minSample` minutes. */
  function SafePer90(value: Option<real>, minutes: real, minSample: real): (r: real)
    requires minSample > 0.0
    ensures value.None? || minutes < minSample ==> r == 0.0
    ensures value.Some? && minutes >= minSample ==> r * minutes == value.value * 90.0
  {
    if value.None? || minutes < minSample then 0.0 else Rate(value.value, minutes)
  }

  /** safePer90Player: 0 for a missing value, no minutes, or fewer than
      `minSample` minutes. */
  function SafePer90Player(value: Option<real>, minutes: real, minSample: real): (r: real)
    ensures value.None? || minutes <= 0.0 || minutes < minSample ==> r == 0.0
    ensures value.Some? && minutes > 0.0 && minutes >= minSample ==> r * minutes == value.value * 90.0
  {
    if value.None? || minutes <= 0.0 then 0.0
    else if minutes < minSample then 0.0
    else Rate(value.value, minutes)
  }

  /** safePer90Team: 0 for a missing value or no minutes. */
  function SafePer90Team(value: Option<real>, minutes: real): (r: real)
    ensures value.None? || minutes <= 0.0 ==> r == 0.0
    ensures value.Some? && minutes > 0.0 ==> r * minutes == value.value * 90.0
  {
    if value.None? || minutes <= 0.0 then 0.0 else Rate(value.value, minutes)
  }

  /** The three guards differ only in the sample they demand: past the
      largest one the three rates coincide. */
  lemma Per90Agreement(value: Option<real>, minutes: real)
    ensures minutes >= 30.0 ==>
              SafePer90(value, minutes, 30.0) == SafePer90Player(value, minutes, 15.0) == SafePer90Team(value, minutes)
    ensures 0.0 < minutes < 15.0 ==> SafePer90Player(value, minutes, 15.0) == 0.0
    ensures value.Some? && minutes >= 15.0 ==> SafePer90Player(value, minutes, 15.0) == SafePer90Team(value, minutes)
  {
  }

  /** A non-negative total gives a non-negative rate, and a larger total a
      larger rate over the same minutes. */
  lemma Per90Monotone(a: real, b: real, minutes: real)
    requires 0.0 <= a <= b
    ensures 0.0 <= SafePer90Team(Some(a), minutes) <= SafePer90Team(Some(b), minutes)
  {
    if minutes > 0.0 {
      assert a / minutes <= b / minutes;
    }
  }

  /** One match row of external statistics; a missing field counts as 0. */
  datatype StatRow = StatRow(
    minutes: Option<real>, xG: Option<real>, xA: Option<real>, shots: Option<real>,
    keyPasses: Option<real>, xGA: Option<real>, deep: Option<real>, ppda: Option<real>)

  datatype Totals = Totals(
    minutes: real, xG: real, xA: real, shots: real,
    keyPasses: real, xGA: real, deep: real, ppdaSum: real, count: nat)

  const NoTotals := Totals(0.0, 0.0, 0.0, 0.0, 0.0, 0.0, 0.0, 0.0, 0)

  /** `field || 0`. */
  function OrZero(x: Option<real>): real
  {
    if x.Some? then x.value else 0.0
  }

  /** The reducer's step: add one row. */
  function AddRow(acc: Totals, row: StatRow): (r: Totals)
    ensures r.count == acc.count + 1
  {
    Totals(acc.minutes + OrZero(row.minutes), acc.xG + OrZero(row.xG), acc.xA + OrZero(row.xA),
           acc.shots + OrZero(row.shots), acc.keyPasses + OrZero(row.keyPasses), acc.xGA + OrZero(row.xGA),
           acc.deep + OrZero(row.deep), acc.ppdaSum + OrZero(row.ppda), acc.count + 1)
  }

  /** `rows.reduce(AddRow, zero)`. */
  function Fold(rows: seq<StatRow>): (r: Totals)
    ensures r.count == |rows|
  {
    if rows == [] then NoTotals else AddRow(Fold(rows[..|rows| - 1]), rows[|rows| - 1])
  }

  /** aggregateStats: totals of the first `take` rows. */
  function AggregateStats(stats: seq<StatRow>, take: int): (r: Totals)
    ensures r.count == SliceEnd(|stats|, take)
    ensures 0 <= take <= |stats| ==> r.count == take
  {
    Fold(Prefix(stats, take))
  }

  function Plus(a: Totals, b: Totals): Totals
  {
    Totals(a.minutes + b.minutes, a.xG + b.xG, a.xA + b.xA, a.shots + b.shots, a.keyPasses + b.keyPasses,
           a.xGA + b.xGA, a.deep + b.deep, a.ppdaSum + b.ppdaSum, a.count + b.count)
  }

  /** Totals of two stretches of matches add up: the fold is a sum. */
  lemma {:induction false} FoldAppend(a: seq<StatRow>, b: seq<StatRow>)
    ensures Fold(a + b) == Plus(Fold(a), Fold(b))
  {
    if b == [] {
      assert a + b == a;
    } else {
      var b' := b[..|b| - 1];
      var last := b[|b| - 1];
      assert (a + b)[..|a + b| - 1] == a + b';
      assert (a + b)[|a + b| - 1] == last;
      calc {
        Fold(a + b);
        AddRow(Fold(a + b'), last);
        { FoldAppend(a, b'); }
        AddRow(Plus(Fold(a), Fold(b')), last);
        { AddRowPlus(Fold(a), Fold(b'), last); }
        Plus(Fold(a), AddRow(Fold(b'), last));
        Plus(Fold(a), Fold(b));
      }
    }
  }

  lemma AddRowPlus(x: Totals, y: Totals, row: StatRow)
    ensures AddRow(Plus(x, y), row) == Plus(x, AddRow(y, row))
  {
  }

  /** The totals of a single row are that row's values. */
  lemma FoldSingle(row: StatRow)
    ensures Fold([row]) == AddRow(NoTotals, row)
  {
    assert [row][..0] == [];
  }

  predicate NonNegativeRow(row: StatRow)
  {
    OrZero(row.minutes) >= 0.0 && OrZero(row.xG) >= 0.0 && OrZero(row.xA) >= 0.0 &&
    OrZero(row.shots) >= 0.0 && OrZero(row.keyPasses) >= 0.0 && OrZero(row.xGA) >= 0.0 &&
    OrZero(row.deep) >= 0.0 && OrZero(row.ppda) >= 0.0
  }

  predicate NonNegativeTotals(t: Totals)
  {
    t.minutes >= 0.0 && t.xG >= 0.0 && t.xA >= 0.0 && t.shots >= 0.0 &&
    t.keyPasses >= 0.0 && t.xGA >= 0.0 && t.deep >= 0.0 && t.ppdaSum >= 0.0
  }

  /** Non-negative rows give non-negative totals. */
  lemma {:induction false} FoldNonNegative(rows: seq<StatRow>)
    requires forall k :: 0 <= k < |rows| ==> NonNegativeRow(rows[k])
    ensures NonNegativeTotals(Fold(rows))
  {
    if rows != [] {
      FoldNonNegative(rows[..|rows| - 1]);
    }
  }

  /** share: the player's rate over the team's, 0 when the team rate is
      missing or at most 0.05. */
  function Share(playerPer90: Option<real>, teamPer90: Option<real>): (r: real)
    ensures teamPer90.GetOr(0.0) <= 0.05 ==> r == 0.0
    ensures teamPer90.GetOr(0.0) > 0.05 ==> r * teamPer90.GetOr(0.0) == playerPer90.GetOr(0.0)
  {
    var p := playerPer90.GetOr(0.0);
    var t := teamPer90.GetOr(0.0);
    if t <= 0.05 then 0.0 else p / t
  }

  /** A player never accounts for more than the whole team: a share of a
      rate no larger than the team's lies in [0, 1]. */
  lemma ShareBounds(p: real, t: real)
    requires 0.0 <= p <= t
    ensures 0.0 <= Share(Some(p), Some(t)) <= 1.0
  {
    if t > 0.05 {
      var q := p / t;
      assert q * t == p;
    }
  }
}
