/** The minutes model: from a player's season and recent minutes, the
    flagged chance of playing and the match context, the probability of
    starting, of playing 60 minutes, and the expected minutes. */
module Minutes {
  import opened Domain
  import opened PredictionUtils

  datatype MinutesSettings = MinutesSettings(muStart: real, threshold: real)

  /** POS_MINUTES_SETTINGS: the minutes a starter plays and the threshold
      for a full appearance, per position. */
  function PosMinutesSettings(pos: Position): (s: MinutesSettings)
    ensures 80.0 <= s.muStart <= 90.0
    ensures s.muStart == 90.0 <==> pos == Goalkeeper
    ensures s.threshold == (if pos == Goalkeeper then 85.0 else 60.0)
  {
    match pos
    case Goalkeeper => MinutesSettings(90.0, 85.0)
    case Defender => MinutesSettings(85.0, 60.0)
    case Midfielder => MinutesSettings(80.0, 60.0)
    case Forward => MinutesSettings(80.0, 60.0)
  }

  /** CAMEO_MINUTES. */
  const CameoMinutes: real := 20.0

  /** The chance a benched player comes on. */
  const CameoChance: real := 0.35

  const WeightRecent: real := 0.7

  /** A total of minutes over a number of games. */
  datatype Appearances = Appearances(minutes: real, games: real)

  /** MinutesContext; an absent flag is false and an absent number is None. */
  datatype MinutesContext = MinutesContext(
    restDays: Option<real>,
    europeBefore: bool,
    europeAfter: bool,
    daysOut: Option<real>,
    gameIndexSinceReturn: Option<real>,
    perSubRatio: Option<real>)

  datatype MinutesPrediction = MinutesPrediction(
    startProbability: real,
    prob60: real,
    minutesRecentProxy: int,
    expectedMinutes: real)

  function Average(a: Appearances): real
  {
    if a.games > 0.0 then a.minutes / a.games else 0.0
  }

  /** The recent average, falling back to the season average when there are
      no recent games. */
  function RecentAverage(recent: Appearances, season: Appearances): (r: real)
    ensures recent.games <= 0.0 ==> r == Average(season)
  {
    if recent.games > 0.0 then Average(recent) else Average(season)
  }

  /** The blended expected minutes before any context adjustment. */
  function RawMinutes(season: Appearances, recent: Appearances): real
  {
    RecentAverage(recent, season) * WeightRecent + Average(season) * (1.0 - WeightRecent)
  }

  /** The start probability implied by the expected minutes: the expected
      minutes are a mixture of a start (muStart) and a cameo off the bench. */
  function BaseStartProbability(pos: Position, raw: real): (p: real)
    ensures 0.0 <= p <= 1.0
  {
    var cameo := CameoChance * CameoMinutes;
    Clamp((raw - cameo) / (PosMinutesSettings(pos).muStart - cameo), 0.0, 1.0)
  }

  predicate ShortRest(c: MinutesContext) { c.restDays.Some? && c.restDays.value <= 3.0 }

  predicate Europe(c: MinutesContext) { c.europeBefore || c.europeAfter }

  predicate LongInjury(c: MinutesContext) { c.daysOut.Some? && c.daysOut.value > 40.0 }

  predicate MediumInjury(c: MinutesContext) { c.daysOut.Some? && 20.0 < c.daysOut.value <= 40.0 }

  predicate FirstGameBack(c: MinutesContext) { c.gameIndexSinceReturn == Some(0.0) }

  predicate ImpactSub(c: MinutesContext) { c.perSubRatio.Some? && c.perSubRatio.value > 1.3 }

  /** The factor the context applies to the start probability. */
  function StartPenalty(context: Option<MinutesContext>): (f: real)
  {
    if context.None? then 1.0
    else
      var c := context.value;
      (if ShortRest(c) then 0.85 else 1.0) *
      (if Europe(c) then 0.9 else 1.0) *
      (if LongInjury(c) then 0.4 else if MediumInjury(c) then 0.6 else 1.0) *
      (if FirstGameBack(c) then 0.7 else 1.0) *
      (if ImpactSub(c) then 0.6 else 1.0)
  }

  /** The factor the context applies to the chance of 60 minutes. */
  function Prob60Penalty(context: Option<MinutesContext>): (f: real)
  {
    if context.Some? && Europe(context.value) then 0.9 else 1.0
  }

  /** The expected minutes after the context: five fewer on short rest, a
      cap of 25 after a long injury and of 40 after a medium one, and a cap
      of 35 for an impact substitute. */
  function AdjustedMinutes(context: Option<MinutesContext>, raw: real): (m: real)
  {
    if context.None? then raw
    else
      var c := context.value;
      var rested := if ShortRest(c) then raw - 5.0 else raw;
      var recovering := if LongInjury(c) then Min(rested, 25.0)
                        else if MediumInjury(c) then Min(rested, 40.0)
                        else rested;
      if ImpactSub(c) then Min(recovering, 35.0) else recovering
  }

  /** The flagged chance of playing as a factor; 1 when there is no flag. */
  function Availability(chanceOfPlaying: Option<real>): real
  {
    if chanceOfPlaying.Some? then chanceOfPlaying.value / 100.0 else 1.0
  }

  /** The start probability from its three factors, capped at 0.99. */
  function CappedStart(base: real, availability: real, penalty: real): (p: real)
    ensures 0.0 <= p <= 0.99
  {
    Clamp(base * availability * penalty, 0.0, 0.99)
  }

  /** The expected minutes scaled by the availability, within [0, 90]. */
  function CappedMinutes(minutes: real, availability: real): (m: real)
    ensures 0.0 <= m <= 90.0
  {
    Clamp(minutes * availability, 0.0, 90.0)
  }

  /** The probability of starting for blended minutes `raw`: the base
      probability scaled by the availability and the context. */
  function StartProbability(pos: Position, raw: real, chanceOfPlaying: Option<real>,
                            context: Option<MinutesContext>): real
  {
    CappedStart(BaseStartProbability(pos, raw), Availability(chanceOfPlaying), StartPenalty(context))
  }

  /** The expected minutes for blended minutes `raw`: the adjusted minutes
      scaled by the availability. */
  function ExpectedMinutes(raw: real, chanceOfPlaying: Option<real>, context: Option<MinutesContext>): real
  {
    CappedMinutes(AdjustedMinutes(context, raw), Availability(chanceOfPlaying))
  }

  /** The prediction for blended minutes `raw`. */
  function Predict(pos: Position, raw: real, recentMinutes: real, chanceOfPlaying: Option<real>,
                   context: Option<MinutesContext>): (p: MinutesPrediction)
  {
    var start := StartProbability(pos, raw, chanceOfPlaying, context);
    MinutesPrediction(start, start * 0.92 * Prob60Penalty(context), Round(recentMinutes),
                      ExpectedMinutes(raw, chanceOfPlaying, context))
  }

  /** predictMinutesAndProbability. */
  function PredictMinutes(pos: Position, season: Appearances, recent: Appearances,
                          chanceOfPlaying: Option<real>, context: Option<MinutesContext>): (p: MinutesPrediction)
  {
    Predict(pos, RawMinutes(season, recent), recent.minutes, chanceOfPlaying, context)
  }

  /** The context rules of predictMinutesAndProbability, applied one at a
      time to the start penalty, the 60-minute penalty and the expected
      minutes. */
  method ApplyContext(context: Option<MinutesContext>, raw: real)
    returns (pStartPenalty: real, prob60Penalty: real, expectedMinutesRaw: real)
    ensures pStartPenalty == StartPenalty(context)
    ensures prob60Penalty == Prob60Penalty(context)
    ensures expectedMinutesRaw == AdjustedMinutes(context, raw)
  {
    expectedMinutesRaw := raw;
    pStartPenalty := 1.0;
    prob60Penalty := 1.0;
    if context.Some? {
      var c := context.value;
      if ShortRest(c) {
        pStartPenalty := pStartPenalty * 0.85;
        expectedMinutesRaw := expectedMinutesRaw - 5.0;
      }
      if Europe(c) {
        pStartPenalty := pStartPenalty * 0.9;
        prob60Penalty := prob60Penalty * 0.9;
      }
      if c.daysOut.Some? {
        if c.daysOut.value > 40.0 {
          expectedMinutesRaw := Min(expectedMinutesRaw, 25.0);
          pStartPenalty := pStartPenalty * 0.4;
        } else if c.daysOut.value > 20.0 {
          expectedMinutesRaw := Min(expectedMinutesRaw, 40.0);
          pStartPenalty := pStartPenalty * 0.6;
        }
      }
      if FirstGameBack(c) {
        pStartPenalty := pStartPenalty * 0.7;
      }
      if ImpactSub(c) {
        pStartPenalty := pStartPenalty * 0.6;
        expectedMinutesRaw := Min(expectedMinutesRaw, 35.0);
      }
    }
  }

  /** predictMinutesAndProbability as the service runs it. */
  method PredictMinutesAndProbability(pos: Position, season: Appearances, recent: Appearances,
                                      chanceOfPlaying: Option<real>, context: Option<MinutesContext>)
    returns (p: MinutesPrediction)
    ensures p == PredictMinutes(pos, season, recent, chanceOfPlaying, context)
    ensures 0.0 <= p.startProbability <= 0.99
    ensures 0.0 <= p.expectedMinutes <= 90.0
  {
    var raw := RawMinutes(season, recent);
    var pStartBase := BaseStartProbability(pos, raw);
    var pStartPenalty, prob60Penalty, expectedMinutesRaw := ApplyContext(context, raw);
    var availability := Availability(chanceOfPlaying);
    var startProbability := CappedStart(pStartBase, availability, pStartPenalty);
    var prob60 := startProbability * 0.92 * prob60Penalty;
    var minutesRecentProxy := Round(recent.minutes);
    var expectedMinutes := CappedMinutes(expectedMinutesRaw, availability);
    p := MinutesPrediction(startProbability, prob60, minutesRecentProxy, expectedMinutes);
  }

  /** Every context factor lies in (0, 1]: the context only ever lowers the
      probabilities. */
  lemma PenaltiesAreDiscounts(context: Option<MinutesContext>)
    ensures 0.0 < StartPenalty(context) <= 1.0
    ensures 0.0 < Prob60Penalty(context) <= 1.0
    ensures context.None? ==> StartPenalty(context) == 1.0 && Prob60Penalty(context) == 1.0
  {
    if context.Some? {
      var c := context.value;
      var a := if ShortRest(c) then 0.85 else 1.0;
      var b := if Europe(c) then 0.9 else 1.0;
      var i := if LongInjury(c) then 0.4 else if MediumInjury(c) then 0.6 else 1.0;
      var g := if FirstGameBack(c) then 0.7 else 1.0;
      var s := if ImpactSub(c) then 0.6 else 1.0;
      assert 0.0 < a * b <= 1.0;
      assert 0.0 < a * b * i <= 1.0;
      assert 0.0 < a * b * i * g <= 1.0;
      assert 0.0 < a * b * i * g * s <= 1.0;
    }
  }

  /** The probability of starting lies in [0, 0.99], the probability of 60
      minutes is 0.92 of it times the European factor, and so never exceeds
      it, and the expected minutes lie in [0, 90]. */
  lemma PredictionBounds(pos: Position, raw: real, recentMinutes: real,
                         chanceOfPlaying: Option<real>, context: Option<MinutesContext>)
    ensures var p := Predict(pos, raw, recentMinutes, chanceOfPlaying, context);
            0.0 <= p.startProbability <= 0.99 &&
            p.prob60 == p.startProbability * 0.92 * Prob60Penalty(context) &&
            0.0 <= p.prob60 <= p.startProbability &&
            0.0 <= p.expectedMinutes <= 90.0
  {
    PenaltiesAreDiscounts(context);
  }

  /** A smaller penalty factor never gives a larger start probability. */
  lemma CappedStartMonotone(base: real, availability: real, f: real, g: real)
    requires 0.0 <= base && 0.0 <= availability && f <= g
    ensures CappedStart(base, availability, f) <= CappedStart(base, availability, g)
  {
    var x := base * availability;
    assert 0.0 <= x;
    assert x * f <= x * g;
    ClampProperties(x * f, x * g, 0.0, 0.99);
  }

  /** With no flag, or a flag between 0 and 100, the context only lowers the
      start probability below the one without context. */
  lemma ContextOnlyLowersStart(pos: Position, raw: real,
                               chanceOfPlaying: Option<real>, context: Option<MinutesContext>)
    requires chanceOfPlaying.Some? ==> 0.0 <= chanceOfPlaying.value <= 100.0
    ensures StartProbability(pos, raw, chanceOfPlaying, context) <=
            StartProbability(pos, raw, chanceOfPlaying, None)
  {
    PenaltiesAreDiscounts(context);
    PenaltiesAreDiscounts(None);
    CappedStartMonotone(BaseStartProbability(pos, raw), Availability(chanceOfPlaying), StartPenalty(context), 1.0);
  }

  lemma ScaledBelowCap(m: real, cap: real, availability: real)
    requires m <= cap && 0.0 <= cap
    requires 0.0 <= availability <= 1.0
    ensures Clamp(m * availability, 0.0, 90.0) <= cap
  {
    if m >= 0.0 {
      assert m * availability <= m * 1.0;
    } else {
      assert m * availability <= 0.0;
    }
  }

  /** A player back from a long injury (more than 40 days out) is expected
      for at most 25 minutes, one back from a medium one (21 to 40 days) for
      at most 40, and an impact substitute for at most 35, whenever the
      chance-of-playing flag is a percentage. */
  lemma RecoveryCaps(raw: real, chanceOfPlaying: Option<real>, c: MinutesContext)
    requires chanceOfPlaying.Some? ==> 0.0 <= chanceOfPlaying.value <= 100.0
    ensures var m := ExpectedMinutes(raw, chanceOfPlaying, Some(c));
            (LongInjury(c) ==> m <= 25.0) &&
            (MediumInjury(c) ==> m <= 40.0) &&
            (ImpactSub(c) ==> m <= 35.0)
  {
    var adjusted := AdjustedMinutes(Some(c), raw);
    var availability := Availability(chanceOfPlaying);
    if LongInjury(c) {
      ScaledBelowCap(adjusted, 25.0, availability);
    }
    if MediumInjury(c) {
      ScaledBelowCap(adjusted, 40.0, availability);
    }
    if ImpactSub(c) {
      ScaledBelowCap(adjusted, 35.0, availability);
    }
  }

  /** Without recent games the recent average is the season average, so the
      blend is the season average itself. */
  lemma RecentFallback(season: Appearances, recent: Appearances)
    requires recent.games <= 0.0
    ensures RawMinutes(season, recent) == Average(season)
  {
  }
}
