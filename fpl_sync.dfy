/** The ingest transforms of the FPL sync service: which gameweeks to sync,
    how bootstrap elements, teams and fixtures become database upserts, and
    how a fixture's "explain" entries fold into one statistics snapshot. */
module FplSync {
  import opened Domain
  import Ordering

  // ---------------------------------------------------------------------
  // Positions

  /** POSITION_MAP keyed by the FPL `element_type`, with MIDFIELDER for any
      other code. */
  function PositionOfElementType(code: int): (p: Position)
    ensures code == 1 ==> p == Goalkeeper
    ensures code == 2 ==> p == Defender
    ensures code == 3 ==> p == Midfielder
    ensures code == 4 ==> p == Forward
    ensures !(1 <= code <= 4) ==> p == Midfielder
  {
    if code == 1 then Goalkeeper
    else if code == 2 then Defender
    else if code == 4 then Forward
    else Midfielder
  }

  // ---------------------------------------------------------------------
  // Target gameweeks

  datatype BootstrapEvent = BootstrapEvent(id: int, isCurrent: bool, isPrevious: bool)

  /** The id of the first event flagged current, if any. */
  function CurrentEventId(events: seq<BootstrapEvent>): (r: Option<int>)
    ensures r.Some? <==> exists k :: 0 <= k < |events| && events[k].isCurrent
    ensures r.Some? ==> exists k :: 0 <= k < |events| && events[k].isCurrent &&
                          events[k].id == r.value &&
                          forall j :: 0 <= j < k ==> !events[j].isCurrent
  {
    if events == [] then None
    else if events[0].isCurrent then Some(events[0].id)
    else
      var r := CurrentEventId(events[1..]);
      assert forall k :: 1 <= k < |events| ==> events[k] == events[1..][k - 1];
      r
  }

  /** `Math.max(0, ...ids of previous events)`. */
  function MaxPreviousId(events: seq<BootstrapEvent>): (r: int)
    ensures r >= 0
    ensures forall k :: 0 <= k < |events| && events[k].isPrevious ==> events[k].id <= r
    ensures r == 0 || exists k :: 0 <= k < |events| && events[k].isPrevious && events[k].id == r
  {
    if events == [] then 0
    else
      var rest := MaxPreviousId(events[1..]);
      assert forall k :: 1 <= k < |events| ==> events[k] == events[1..][k - 1];
      if events[0].isPrevious && events[0].id > rest then events[0].id else rest
  }

  /** The last gameweek to sync when no explicit list is given. */
  function EventLimit(events: seq<BootstrapEvent>): int
  {
    match CurrentEventId(events)
    case Some(id) => id
    case None => MaxPreviousId(events)
  }

  /** The event ids in bootstrap order that satisfy `0 < id <= limit`. */
  function IdsUpTo(events: seq<BootstrapEvent>, limit: int): (r: seq<int>)
    ensures forall x :: x in r <==> 0 < x <= limit && exists k :: 0 <= k < |events| && events[k].id == x
    ensures |r| <= |events|
  {
    if events == [] then []
    else
      var rest := IdsUpTo(events[1..], limit);
      assert forall k :: 1 <= k < |events| ==> events[k] == events[1..][k - 1];
      assert forall k :: 0 <= k < |events[1..]| ==> events[1..][k] == events[k + 1];
      if 0 < events[0].id <= limit then [events[0].id] + rest else rest
  }

  ghost predicate NoDuplicates(s: seq<int>)
  {
    forall i, j :: 0 <= i < j < |s| ==> s[i] != s[j]
  }

  /** `[...new Set(s)]`: first occurrences, in order. */
  function Distinct(s: seq<int>): (r: seq<int>)
    ensures NoDuplicates(r)
    ensures forall x :: x in r <==> x in s
  {
    if s == [] then []
    else
      var d := Distinct(s[..|s| - 1]);
      assert forall x :: x in s <==> x in s[..|s| - 1] || x == s[|s| - 1];
      if s[|s| - 1] in d then d else d + [s[|s| - 1]]
  }

  /** determineTargetEvents: an explicit non-empty list is deduplicated and
      sorted; otherwise every bootstrap id in `(0, limit]`, sorted. */
  function DetermineTargetEvents(events: seq<BootstrapEvent>, explicit: seq<int>): (r: seq<int>)
    ensures Ordering.SortedAsc(r)
    ensures |explicit| > 0 ==> forall x :: x in r <==> x in explicit
    ensures |explicit| > 0 ==> forall i, j :: 0 <= i < j < |r| ==> r[i] < r[j]
    ensures |explicit| == 0 ==> multiset(r) == multiset(IdsUpTo(events, EventLimit(events)))
  {
    if |explicit| > 0 then
      var d := Distinct(explicit);
      var r := Ordering.SortAsc(d);
      SortedDistinctIsStrict(d, r);
      assert forall x :: x in r <==> x in multiset(r);
      assert forall x :: x in d <==> x in multiset(d);
      r
    else
      Ordering.SortAsc(IdsUpTo(events, EventLimit(events)))
  }

  lemma {:induction false} NoDuplicatesCountsOnce(s: seq<int>, v: int)
    requires NoDuplicates(s)
    ensures multiset(s)[v] <= 1
  {
    if s != [] {
      var init := s[..|s| - 1];
      assert s == init + [s[|s| - 1]];
      NoDuplicatesCountsOnce(init, v);
      if s[|s| - 1] == v {
        assert v !in init;
      }
    }
  }

  lemma RepeatCountsTwice(s: seq<int>, i: nat, j: nat)
    requires i < j < |s| && s[i] == s[j]
    ensures multiset(s)[s[i]] >= 2
  {
    assert s == s[..j] + [s[j]] + s[j + 1..];
    assert s[..j][i] == s[i];
    assert s[i] in multiset(s[..j]);
  }

  /** Sorting a duplicate-free list yields a strictly ascending one. */
  lemma SortedDistinctIsStrict(d: seq<int>, r: seq<int>)
    requires NoDuplicates(d) && Ordering.SortedAsc(r) && multiset(r) == multiset(d)
    ensures forall i, j :: 0 <= i < j < |r| ==> r[i] < r[j]
  {
    forall i, j | 0 <= i < j < |r| ensures r[i] < r[j] {
      if r[i] == r[j] {
        RepeatCountsTwice(r, i, j);
        NoDuplicatesCountsOnce(d, r[i]);
        assert false;
      }
    }
  }

  /** Without an explicit list, a gameweek is synced iff it is a bootstrap
      event id in `(0, limit]`; the limit is the current event's id, else the
      largest previous id, else 0 (nothing is synced). */
  lemma DefaultTargetsAreEventsUpToLimit(events: seq<BootstrapEvent>, x: int)
    ensures x in DetermineTargetEvents(events, []) <==>
            0 < x <= EventLimit(events) && exists k :: 0 <= k < |events| && events[k].id == x
    ensures CurrentEventId(events).None? && (forall k :: 0 <= k < |events| ==> !events[k].isPrevious)
            ==> DetermineTargetEvents(events, []) == []
  {
    var ids := IdsUpTo(events, EventLimit(events));
    var r := DetermineTargetEvents(events, []);
    assert x in r <==> x in multiset(r);
    assert x in ids <==> x in multiset(ids);
    if CurrentEventId(events).None? && (forall k :: 0 <= k < |events| ==> !events[k].isPrevious) {
      assert EventLimit(events) == 0;
      assert forall k :: 0 <= k < |ids| ==> ids[k] in ids;
      assert ids == [];
    }
  }

  // ---------------------------------------------------------------------
  // Upsert payloads

  /** A bootstrap element. Numeric text fields arrive already parsed:
      None stands for null or text that is not a finite number. */
  datatype Element = Element(
    id: int, code: int, webName: string, firstName: string, secondName: string,
    elementType: int, team: int, nowCost: int,
    selectedByPercent: Option<real>, totalPoints: int,
    pointsPerGame: Option<real>, form: Option<real>,
    status: Option<string>, news: Option<string>, newsAdded: Option<string>,
    chanceOfPlaying: Option<int>)

  /** The fields shared by the create and the update payload of a player. */
  datatype PlayerFields = PlayerFields(
    code: int, webName: string, firstName: string, secondName: string,
    position: Position, teamFplId: int, nowCost: int,
    selectedBy: real, totalPoints: int, pointsPerGame: real, form: real,
    status: Option<string>, news: Option<string>, newsAdded: Option<string>,
    chanceOfPlaying: Option<int>, lastSyncedAt: int)

  datatype PlayerUpsert = PlayerUpsert(fplId: int, teamFplId: int, createFplId: int,
                                       create: PlayerFields, update: PlayerFields)

  /** toFloat: a missing or non-finite value reads as 0. */
  function ToFloat(v: Option<real>): (r: real)
    ensures v.None? ==> r == 0.0
    ensures v.Some? ==> r == v.value
  {
    v.GetOr(0.0)
  }

  /** `s || null` for a nullable string: the empty string also becomes null. */
  function NonEmptyOrNull(s: Option<string>): (r: Option<string>)
    ensures r.None? <==> s.None? || s.value == ""
    ensures r.Some? ==> r == s
  {
    if s.Some? && s.value != "" then s else None
  }

  /** buildPlayerUpsertData; `now` is the clock reading stored as lastSyncedAt. */
  function BuildPlayerUpsertData(e: Element, now: int): (r: PlayerUpsert)
    ensures r.fplId == e.id && r.createFplId == e.id
    ensures r.teamFplId == e.team && r.create.teamFplId == e.team
    ensures r.create == r.update
    ensures r.create.code == e.code && r.create.webName == e.webName
    ensures r.create.firstName == e.firstName && r.create.secondName == e.secondName
    ensures r.create.position == PositionOfElementType(e.elementType)
    ensures r.create.nowCost == e.nowCost && r.create.totalPoints == e.totalPoints
    ensures r.create.selectedBy == ToFloat(e.selectedByPercent)
    ensures r.create.pointsPerGame == ToFloat(e.pointsPerGame)
    ensures r.create.form == ToFloat(e.form)
    ensures r.create.news == NonEmptyOrNull(e.news)
    ensures r.create.news.None? <==> e.news.None? || e.news.value == ""
    ensures r.create.newsAdded == NonEmptyOrNull(e.newsAdded)
    ensures r.create.newsAdded.None? <==> e.newsAdded.None? || e.newsAdded.value == ""
    ensures r.create.status == e.status && r.create.chanceOfPlaying == e.chanceOfPlaying
    ensures r.create.lastSyncedAt == now
  {
    var base := PlayerFields(
      e.code, e.webName, e.firstName, e.secondName,
      PositionOfElementType(e.elementType), e.team, e.nowCost,
      ToFloat(e.selectedByPercent), e.totalPoints, ToFloat(e.pointsPerGame), ToFloat(e.form),
      e.status, NonEmptyOrNull(e.news), NonEmptyOrNull(e.newsAdded),
      e.chanceOfPlaying, now);
    PlayerUpsert(e.id, e.team, e.id, base, base)
  }

  datatype BootstrapTeam = BootstrapTeam(id: int, name: string, shortName: string)
  datatype TeamFields = TeamFields(name: string, shortName: string, lastSyncedAt: int)
  datatype TeamUpsert = TeamUpsert(fplId: int, createFplId: int, create: TeamFields, update: TeamFields)

  /** buildTeamUpsertData. */
  function BuildTeamUpsertData(t: BootstrapTeam, now: int): (r: TeamUpsert)
    ensures r.fplId == t.id && r.createFplId == t.id
    ensures r.create == r.update
    ensures r.create.name == t.name && r.create.shortName == t.shortName
  {
    TeamUpsert(t.id, t.id, TeamFields(t.name, t.shortName, now), TeamFields(t.name, t.shortName, now))
  }

  datatype Fixture = Fixture(
    id: int, event: Option<int>, teamH: int, teamA: int,
    kickoffTime: Option<string>, teamHScore: Option<int>, teamAScore: Option<int>,
    finished: bool, started: bool)

  /** A kickoff instant: the Unix epoch stands in for an unknown kickoff. */
  datatype Kickoff = UnixEpoch | At(iso: string)

  datatype MatchFields = MatchFields(
    gameweek: int, homeTeamId: int, awayTeamId: int, kickoff: Kickoff,
    homeScore: Option<int>, awayScore: Option<int>, finished: bool, started: bool)

  datatype MatchUpsert = MatchUpsert(fplId: int, createFplId: int, create: MatchFields, update: MatchFields)

  /** buildMatchUpsertData, with the FPL-team-id to database-id map. */
  function BuildMatchUpsertData(f: Fixture, teamIds: map<int, int>): (r: Result<MatchUpsert>)
    ensures r.Err? <==> f.teamH !in teamIds || f.teamA !in teamIds
    ensures r.Ok? ==> r.value.fplId == f.id && r.value.createFplId == f.id
    ensures r.Ok? ==> r.value.create == r.value.update
    ensures r.Ok? ==> (r.value.create.homeTeamId == teamIds[f.teamH] &&
                       r.value.create.awayTeamId == teamIds[f.teamA])
    ensures r.Ok? ==> r.value.create.gameweek == if f.event.Some? then f.event.value else 0
    ensures r.Ok? ==> (r.value.create.kickoff == UnixEpoch <==> f.kickoffTime.None? || f.kickoffTime.value == "")
  {
    if f.teamH !in teamIds || f.teamA !in teamIds then
      Err("Missing team mapping for fixture")
    else
      var kickoff := if f.kickoffTime.Some? && f.kickoffTime.value != "" then At(f.kickoffTime.value) else UnixEpoch;
      var fields := MatchFields(f.event.GetOr(0), teamIds[f.teamH], teamIds[f.teamA], kickoff,
                                f.teamHScore, f.teamAScore, f.finished, f.started);
      Ok(MatchUpsert(f.id, f.id, fields, fields))
  }

  // ---------------------------------------------------------------------
  // Fixture statistics

  datatype StatField =
    | Minutes | Goals | Assists | CleanSheets | GoalsConceded | OwnGoals
    | PenaltiesSaved | PenaltiesMissed | YellowCards | RedCards | Saves
    | Bonus | Bps | TotalPoints

  /** The FPL identifier of each mapped field (the inverse of
      STAT_IDENTIFIER_MAP); totalPoints has none. */
  function IdentifierOf(f: StatField): string
  {
    match f
    case Minutes => "minutes"
    case Goals => "goals_scored"
    case Assists => "assists"
    case CleanSheets => "clean_sheets"
    case GoalsConceded => "goals_conceded"
    case OwnGoals => "own_goals"
    case PenaltiesSaved => "penalties_saved"
    case PenaltiesMissed => "penalties_missed"
    case YellowCards => "yellow_cards"
    case RedCards => "red_cards"
    case Saves => "saves"
    case Bonus => "bonus"
    case Bps => "bps"
    case TotalPoints => ""
  }

  /** STAT_IDENTIFIER_MAP: the snapshot field an explain identifier sets. */
  function FieldOfIdentifier(identifier: string): (r: Option<StatField>)
    ensures r != Some(TotalPoints)
    ensures r.Some? ==> IdentifierOf(r.value) == identifier
    ensures forall f :: f != TotalPoints && IdentifierOf(f) == identifier ==> r == Some(f)
  {
    if identifier == "minutes" then Some(Minutes)
    else if identifier == "goals_scored" then Some(Goals)
    else if identifier == "assists" then Some(Assists)
    else if identifier == "clean_sheets" then Some(CleanSheets)
    else if identifier == "goals_conceded" then Some(GoalsConceded)
    else if identifier == "own_goals" then Some(OwnGoals)
    else if identifier == "penalties_saved" then Some(PenaltiesSaved)
    else if identifier == "penalties_missed" then Some(PenaltiesMissed)
    else if identifier == "yellow_cards" then Some(YellowCards)
    else if identifier == "red_cards" then Some(RedCards)
    else if identifier == "saves" then Some(Saves)
    else if identifier == "bonus" then Some(Bonus)
    else if identifier == "bps" then Some(Bps)
    else None
  }

  datatype StatEntry = StatEntry(identifier: string, value: int, points: int, pointsModification: Option<int>)

  /** The points an entry adds to totalPoints. */
  function EntryPoints(e: StatEntry): int
  {
    e.points + e.pointsModification.GetOr(0)
  }

  /** The sum of the entries' points, in order. */
  function ExplainPoints(stats: seq<StatEntry>): int
  {
    if stats == [] then 0 else ExplainPoints(stats[..|stats| - 1]) + EntryPoints(stats[|stats| - 1])
  }

  /** The value of the last entry mapped to `f`, or 0 if none is. */
  function LastValue(stats: seq<StatEntry>, f: StatField): int
  {
    if stats == [] then 0
    else if FieldOfIdentifier(stats[|stats| - 1].identifier) == Some(f) then stats[|stats| - 1].value
    else LastValue(stats[..|stats| - 1], f)
  }

  /** A field that no entry maps to keeps the snapshot default of 0. */
  lemma {:induction false} UnmappedFieldStaysZero(stats: seq<StatEntry>, f: StatField)
    requires forall k :: 0 <= k < |stats| ==> FieldOfIdentifier(stats[k].identifier) != Some(f)
    ensures LastValue(stats, f) == 0
  {
    if stats != [] {
      UnmappedFieldStaysZero(stats[..|stats| - 1], f);
    }
  }

  /** The per-fixture snapshot that applyStatEntry updates in place; the
      source indexes it by field name, so it is a map from field to value. */
  class FixtureStatSnapshot {
    var values: map<StatField, int>

    ghost predicate Valid()
      reads this
    {
      forall f: StatField :: f in values
    }

    /** DEFAULT_STAT_SNAPSHOT: every field 0. */
    constructor ()
      ensures Valid()
      ensures forall f: StatField :: values[f] == 0
    {
      values := map[Minutes := 0, Goals := 0, Assists := 0, CleanSheets := 0,
                    GoalsConceded := 0, OwnGoals := 0, PenaltiesSaved := 0,
                    PenaltiesMissed := 0, YellowCards := 0, RedCards := 0,
                    Saves := 0, Bonus := 0, Bps := 0, TotalPoints := 0];
      new;
      forall f: StatField ensures f in values {
        match f
        case Minutes => case Goals => case Assists => case CleanSheets =>
        case GoalsConceded => case OwnGoals => case PenaltiesSaved =>
        case PenaltiesMissed => case YellowCards => case RedCards =>
        case Saves => case Bonus => case Bps => case TotalPoints =>
      }
    }

    /** applyStatEntry: the mapped field takes the entry's value, every
        entry's points are added to totalPoints, nothing else changes. */
    method ApplyStatEntry(entry: StatEntry)
      requires Valid()
      modifies this
      ensures Valid()
      ensures FieldOfIdentifier(entry.identifier).Some? ==>
                values[FieldOfIdentifier(entry.identifier).value] == entry.value
      ensures values[TotalPoints] == old(values[TotalPoints]) + EntryPoints(entry)
      ensures forall f :: f != TotalPoints && Some(f) != FieldOfIdentifier(entry.identifier) ==>
                values[f] == old(values[f])
    {
      var key := FieldOfIdentifier(entry.identifier);
      if key.Some? {
        values := values[key.value := entry.value];
      }
      values := values[TotalPoints := values[TotalPoints] + entry.points + entry.pointsModification.GetOr(0)];
    }
  }

  /** extractFixtureStats: start from the default snapshot, apply every
      entry, then fall back to the cumulative total when the explain sum is 0. */
  method ExtractFixtureStats(stats: seq<StatEntry>, cumulativeTotalPoints: int)
    returns (snapshot: FixtureStatSnapshot)
    ensures fresh(snapshot) && snapshot.Valid()
    ensures forall f :: f != TotalPoints ==> snapshot.values[f] == LastValue(stats, f)
    ensures snapshot.values[TotalPoints] ==
              if ExplainPoints(stats) != 0 then ExplainPoints(stats) else cumulativeTotalPoints
  {
    snapshot := new FixtureStatSnapshot();
    var i := 0;
    while i < |stats|
      invariant 0 <= i <= |stats|
      invariant snapshot.Valid()
      invariant forall f :: f != TotalPoints ==> snapshot.values[f] == LastValue(stats[..i], f)
      invariant snapshot.values[TotalPoints] == ExplainPoints(stats[..i])
    {
      snapshot.ApplyStatEntry(stats[i]);
      assert stats[..i + 1][..i] == stats[..i];
      i := i + 1;
    }
    assert stats[..i] == stats;
    if snapshot.values[TotalPoints] == 0 {
      snapshot.values := snapshot.values[TotalPoints := cumulativeTotalPoints];
    }
  }
}
