/** Team strength features: the attack and defence of a team relative to
    the league, preferring recent form over the season figures. */
module TeamStrength {
  import opened Domain

  /** The figures of a team that the builder reads. */
  datatype TeamInput = TeamInput(
    xG90Season: real, xG90Recent: Option<real>,
    xGA90Season: real, xGA90Recent: Option<real>)

  datatype LeagueAverages = LeagueAverages(avgXG: real, avgXGA: real)

  datatype Strength = Strength(xGDiff: real, attackStrength: real, defenseStrength: real,
                               pointsPerGame: Option<real>)

  /** `recent ?? season`. */
  function Chosen(recent: Option<real>, season: real): (r: real)
    ensures recent.Some? ==> r == recent.value
    ensures recent.None? ==> r == season
  {
    recent.GetOr(season)
  }

  /** A figure over its league average, or the raw figure when the average
      is not positive. */
  function Relative(x: real, avg: real): (r: real)
    ensures avg > 0.0 ==> r * avg == x
    ensures avg <= 0.0 ==> r == x
  {
    if avg > 0.0 then x / avg else x
  }

  /** buildTeamStrengthFeatures. */
  function BuildTeamStrengthFeatures(team: TeamInput, league: LeagueAverages): (s: Strength)
    ensures s.pointsPerGame.None?
    ensures s.xGDiff == Chosen(team.xG90Recent, team.xG90Season) - Chosen(team.xGA90Recent, team.xGA90Season)
    ensures league.avgXG > 0.0 ==> s.attackStrength * league.avgXG == Chosen(team.xG90Recent, team.xG90Season)
    ensures league.avgXG <= 0.0 ==> s.attackStrength == Chosen(team.xG90Recent, team.xG90Season)
    ensures league.avgXGA > 0.0 ==> s.defenseStrength * league.avgXGA == Chosen(team.xGA90Recent, team.xGA90Season)
    ensures league.avgXGA <= 0.0 ==> s.defenseStrength == Chosen(team.xGA90Recent, team.xGA90Season)
  {
    var xG := Chosen(team.xG90Recent, team.xG90Season);
    var xGA := Chosen(team.xGA90Recent, team.xGA90Season);
    Strength(xG - xGA, Relative(xG, league.avgXG), Relative(xGA, league.avgXGA), None)
  }

  /** When the league concedes what it scores, the xG difference is the gap
      between attack and defence strength in league units. */
  lemma DiffIsStrengthGap(team: TeamInput, avg: real)
    requires avg > 0.0
    ensures var s := BuildTeamStrengthFeatures(team, LeagueAverages(avg, avg));
            s.xGDiff == (s.attackStrength - s.defenseStrength) * avg
  {
    var s := BuildTeamStrengthFeatures(team, LeagueAverages(avg, avg));
    assert (s.attackStrength - s.defenseStrength) * avg == s.attackStrength * avg - s.defenseStrength * avg;
  }
}
