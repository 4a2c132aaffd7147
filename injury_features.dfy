/** Injury features: how many recent matches a player missed and how many
    matches ago they last played. */
module InjuryFeatures {
  import opened Domain

  /** `!m.minutes || m.minutes <= 0`: no minutes recorded, or none played. */
  predicate Missed(m: BasicMatchStat)
  {
    m.minutes.None? || m.minutes.value <= 0.0
  }

  /** `(m.minutes || 0) > 0`. */
  predicate Played(m: BasicMatchStat)
  {
    m.minutes.GetOr(0.0) > 0.0
  }

  /** The two tests the builder uses are complements of each other. */
  lemma PlayedIffNotMissed(m: BasicMatchStat)
    ensures Played(m) <==> !Missed(m)
  {
  }

  /** The number of missed matches. */
  function CountMissed(matches: seq<BasicMatchStat>): (n: nat)
    ensures n <= |matches|
  {
    if matches == [] then 0
    else (if Missed(matches[0]) then 1 else 0) + CountMissed(matches[1..])
  }

  /** findIndex of the first match played, None for -1. */
  function FirstPlayed(matches: seq<BasicMatchStat>): (r: Option<nat>)
    ensures r.Some? ==> r.value < |matches| && Played(matches[r.value]) &&
                        forall j :: 0 <= j < r.value ==> !Played(matches[j])
    ensures r.None? ==> forall j :: 0 <= j < |matches| ==> !Played(matches[j])
  {
    if matches == [] then None
    else if Played(matches[0]) then Some(0)
    else
      var rest := FirstPlayed(matches[1..]);
      if rest.Some? then Some(rest.value + 1) else None
  }

  datatype Injury = Injury(daysOut: Option<real>, gamesMissed: nat, gameIndexSinceReturn: Option<nat>)

  /** buildInjuryFeatures; the days out are unknown without an injury log. */
  function BuildInjuryFeatures(recentMatches: Option<seq<BasicMatchStat>>): (f: Injury)
    ensures f.daysOut.None?
    ensures recentMatches.None? || recentMatches.value == [] ==> f == Injury(None, 0, None)
    ensures recentMatches.Some? ==> f.gamesMissed <= |recentMatches.value|
  {
    if recentMatches.None? || |recentMatches.value| == 0 then Injury(None, 0, None)
    else
      var matches := recentMatches.value;
      Injury(None, CountMissed(matches), FirstPlayed(matches))
  }

  /** Every match before the first one played was missed, so at least
      `index` matches were missed; and the index is absent exactly when every
      match was missed. */
  lemma {:induction false} MissedBeforeReturn(matches: seq<BasicMatchStat>)
    ensures FirstPlayed(matches).Some? ==> CountMissed(matches) >= FirstPlayed(matches).value
    ensures FirstPlayed(matches).None? <==> CountMissed(matches) == |matches|
  {
    if matches != [] {
      MissedBeforeReturn(matches[1..]);
      if !Played(matches[0]) {
        assert Missed(matches[0]);
      } else {
        assert CountMissed(matches[1..]) <= |matches[1..]|;
      }
    }
  }

  /** The same two facts for the built features. */
  lemma InjuryFeaturesConsistent(recentMatches: Option<seq<BasicMatchStat>>)
    ensures var f := BuildInjuryFeatures(recentMatches);
            var n := if recentMatches.Some? then |recentMatches.value| else 0;
            (f.gameIndexSinceReturn.Some? ==> f.gamesMissed >= f.gameIndexSinceReturn.value) &&
            (f.gameIndexSinceReturn.None? <==> f.gamesMissed == n)
  {
    if recentMatches.Some? {
      MissedBeforeReturn(recentMatches.value);
    }
  }
}
