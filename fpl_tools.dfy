/** The domain functions the chat assistant's tools call: the two-way map
    between FPL position codes and the database's positions, the search-name
    normalisation, how a player row becomes a summary, the replacement search
    and the head-to-head comparison. */
module FplTools {
  import opened Domain
  import Ordering
  import PlayerMapper

  // ---------------------------------------------------------------------
  // Positions

  /** The short codes the assistant speaks in. */
  datatype FplPosition = Gkp | Def | Mid | Fwd

  /** POSITION_MAP. */
  function PositionOf(p: FplPosition): (pos: Position)
  {
    match p
    case Gkp => Goalkeeper
    case Def => Defender
    case Mid => Midfielder
    case Fwd => Forward
  }

  /** positionToFpl. */
  function FplPositionOf(pos: Position): (p: FplPosition)
  {
    match pos
    case Goalkeeper => Gkp
    case Defender => Def
    case Midfielder => Mid
    case Forward => Fwd
  }

  /** The two maps are inverse to each other, so each is a bijection. */
  lemma PositionRoundTrip(p: FplPosition, pos: Position)
    ensures FplPositionOf(PositionOf(p)) == p
    ensures PositionOf(FplPositionOf(pos)) == pos
    ensures PositionOf(p) == pos <==> FplPositionOf(pos) == p
  {
  }

  // ---------------------------------------------------------------------
  // normalizeSearchName

  /** `.replace(/[^a-z0-9]/g, "")`. */
  function KeepAlphanumerics(s: string): (r: string)
    ensures |r| <= |s|
    ensures forall k :: 0 <= k < |r| ==> PlayerMapper.IsWordChar(r[k])
  {
    if s == [] then []
    else if PlayerMapper.IsWordChar(s[0]) then [s[0]] + KeepAlphanumerics(s[1..])
    else KeepAlphanumerics(s[1..])
  }

  predicate Alphanumeric(s: string)
  {
    forall k :: 0 <= k < |s| ==> PlayerMapper.IsWordChar(s[k])
  }

  /** normalizeSearchName: lower case, diacritics removed, only letters and
      digits kept. */
  function NormalizeSearchName(name: string): (r: string)
    ensures Alphanumeric(r)
  {
    KeepAlphanumerics(PlayerMapper.StripMarks(PlayerMapper.Nfd(PlayerMapper.ToLower(name))))
  }

  lemma {:induction false} KeepAlphanumericsFixed(s: string)
    requires Alphanumeric(s)
    ensures KeepAlphanumerics(s) == s
  {
    if s != [] {
      assert Alphanumeric(s[1..]) by {
        forall k | 0 <= k < |s| - 1 ensures PlayerMapper.IsWordChar(s[1..][k]) {
          assert s[1..][k] == s[k + 1];
        }
      }
      KeepAlphanumericsFixed(s[1..]);
    }
  }

  /** A normalised search name is its own normal form, and the normal forms
      are exactly the strings of lower-case letters and digits. */
  lemma NormalizeSearchNameFixedPoints(s: string)
    ensures NormalizeSearchName(s) == s <==> Alphanumeric(s)
    ensures NormalizeSearchName(NormalizeSearchName(s)) == NormalizeSearchName(s)
  {
    forall t: string | Alphanumeric(t) ensures NormalizeSearchName(t) == t {
      assert PlayerMapper.Plain(t);
      PlayerMapper.ToLowerPlain(t);
      PlayerMapper.NfdPlain(t);
      PlayerMapper.StripMarksPlain(t);
      KeepAlphanumericsFixed(t);
    }
  }

  // ---------------------------------------------------------------------
  // Player rows and summaries

  datatype TeamRow = TeamRow(shortName: string)

  /** The player row with its team, as the database returns it. */
  datatype PlayerRow = PlayerRow(
    id: int,
    firstName: Option<string>,
    secondName: Option<string>,
    webName: string,
    team: Option<TeamRow>,
    position: Position,
    nowCost: int,
    form: real,
    selectedBy: real,
    chanceOfPlaying: Option<int>,
    news: Option<string>)

  datatype PlayerSummary = PlayerSummary(
    id: int,
    name: string,
    webName: string,
    team: string,
    position: FplPosition,
    price: real,
    xPtsNext5: real,
    form: real,
    ownership: real,
    isInjured: bool,
    injuryStatus: Option<string>)

  /** `value || ""` for a nullable string. */
  function OrEmpty(s: Option<string>): string
  {
    if s.Some? then s.value else ""
  }

  /** getPlayerXPts: five gameweeks at the player's form (4 when the form is
      zero), rounded to one decimal place. */
  function ExpectedPointsNext5(form: real): (r: real)
    ensures var base := if form == 0.0 then 4.0 else form;
            5.0 * base - 0.05 < r <= 5.0 * base + 0.05
    ensures (r * 10.0).Floor as real == r * 10.0
  {
    var base := if form == 0.0 then 4.0 else form;
    Round(base * 5.0 * 10.0) as real / 10.0
  }

  /** The display name: first and second name joined by a space, trimmed. */
  function FullName(p: PlayerRow): (r: string)
  {
    Trim(OrEmpty(p.firstName) + " " + OrEmpty(p.secondName))
  }

  /** mapPlayerToSummary, without the fixture list. */
  function Summary(p: PlayerRow): (s: PlayerSummary)
    ensures s.id == p.id && s.webName == p.webName
    ensures PositionOf(s.position) == p.position
    ensures s.price * 10.0 == p.nowCost as real
    ensures s.isInjured <==> p.chanceOfPlaying.Some? && p.chanceOfPlaying.value < 100
    ensures s.team != []
    ensures p.team.Some? && p.team.value.shortName != [] ==> s.team == p.team.value.shortName
    ensures p.team.None? ==> s.team == "Unknown"
    ensures s.injuryStatus.Some? <==> p.news.Some? && p.news.value != []
    ensures s.injuryStatus.Some? ==> s.injuryStatus == p.news
    ensures s.form == p.form && s.ownership == p.selectedBy
  {
    PlayerSummary(
      p.id,
      FullName(p),
      p.webName,
      if p.team.Some? && p.team.value.shortName != [] then p.team.value.shortName else "Unknown",
      FplPositionOf(p.position),
      p.nowCost as real / 10.0,
      ExpectedPointsNext5(p.form),
      p.form,
      p.selectedBy,
      p.chanceOfPlaying.Some? && p.chanceOfPlaying.value < 100,
      if p.news.Some? && p.news.value != [] then p.news else None)
  }

  /** The display name never starts or ends with white space, and a player
      with both names, neither padded, is shown as "first second". */
  lemma FullNameShape(p: PlayerRow)
    ensures var n := FullName(p);
            n == [] || (!IsJsSpace(n[0]) && !IsJsSpace(n[|n| - 1]))
    ensures p.firstName.Some? && p.secondName.Some? &&
            p.firstName.value != [] && !IsJsSpace(p.firstName.value[0]) &&
            p.secondName.value != [] && !IsJsSpace(p.secondName.value[|p.secondName.value| - 1]) ==>
              FullName(p) == p.firstName.value + " " + p.secondName.value
  {
    var joined := OrEmpty(p.firstName) + " " + OrEmpty(p.secondName);
    TrimEnds(joined);
    if p.firstName.Some? && p.secondName.Some? && p.firstName.value != [] && p.secondName.value != [] {
      assert joined[0] == p.firstName.value[0];
      assert joined[|joined| - 1] == p.secondName.value[|p.secondName.value| - 1];
    }
  }

  // ---------------------------------------------------------------------
  // searchReplacements

  datatype SearchParams = SearchParams(
    position: Option<FplPosition>,
    maxPrice: Option<real>,
    maxOwnership: Option<real>,
    limit: Option<nat>)

  /** The database filter: the position when one is given, the price and
      ownership caps when given and non-zero, and never a player whose
      chance of playing is known to be below 75. */
  predicate Eligible(params: SearchParams, p: PlayerRow)
  {
    (params.position.Some? ==> p.position == PositionOf(params.position.value)) &&
    (params.maxPrice.Some? && params.maxPrice.value != 0.0 ==>
       p.nowCost as real <= params.maxPrice.value * 10.0) &&
    (params.maxOwnership.Some? && params.maxOwnership.value != 0.0 ==>
       p.selectedBy < params.maxOwnership.value) &&
    (p.chanceOfPlaying.None? || p.chanceOfPlaying.value >= 75)
  }

  function Filter(params: SearchParams, players: seq<PlayerRow>): (r: seq<PlayerRow>)
    ensures forall k :: 0 <= k < |r| ==> Eligible(params, r[k]) && r[k] in players
  {
    if players == [] then []
    else if Eligible(params, players[0]) then [players[0]] + Filter(params, players[1..])
    else Filter(params, players[1..])
  }

  function FormKey(p: PlayerRow): real { p.form }

  function XPtsKey(s: PlayerSummary): real { s.xPtsNext5 }

  function Summaries(players: seq<PlayerRow>): (r: seq<PlayerSummary>)
    ensures |r| == |players|
    ensures forall k :: 0 <= k < |r| ==> r[k] == Summary(players[k])
  {
    if players == [] then [] else [Summary(players[0])] + Summaries(players[1..])
  }

  /** The database query: the eligible rows, best form first, at most
      `take` of them. */
  function Fetch(params: SearchParams, table: seq<PlayerRow>, take: nat): (r: seq<PlayerRow>)
    ensures |r| <= take
  {
    Prefix(Ordering.SortDesc(Filter(params, table), FormKey), take)
  }

  /** searchReplacements over the player table: the eligible players by form,
      the first `2 * limit` of them summarised, then the best `limit` by
      expected points. */
  function SearchReplacements(params: SearchParams, table: seq<PlayerRow>): (r: seq<PlayerSummary>)
  {
    var limit := params.limit.GetOr(5);
    Prefix(Ordering.SortDesc(Summaries(Fetch(params, table, 2 * limit)), XPtsKey), limit)
  }

  /** At most `limit` (5 by default) summaries, highest expected points
      first, each the summary of an eligible player of the table. */
  lemma SearchReplacementsProperties(params: SearchParams, table: seq<PlayerRow>)
    ensures var r := SearchReplacements(params, table);
            |r| <= params.limit.GetOr(5) &&
            Ordering.SortedDesc(r, XPtsKey) &&
            forall k :: 0 <= k < |r| ==> SummaryOfEligible(params, table, r[k])
  {
    var limit := params.limit.GetOr(5);
    var fetched := Fetch(params, table, 2 * limit);
    var summaries := Summaries(fetched);
    var r := Prefix(Ordering.SortDesc(summaries, XPtsKey), limit);
    Ordering.PrefixOfSortDesc(summaries, XPtsKey, |r|);
    FetchedAreEligible(params, table, 2 * limit);
    SummariesOfEligibleRows(params, table, fetched, r);
  }

  /** Anything drawn from the summaries of eligible rows summarises an
      eligible row. */
  lemma SummariesOfEligibleRows(params: SearchParams, table: seq<PlayerRow>, fetched: seq<PlayerRow>, r: seq<PlayerSummary>)
    requires forall j :: 0 <= j < |fetched| ==> fetched[j] in table && Eligible(params, fetched[j])
    requires forall k :: 0 <= k < |r| ==> r[k] in multiset(Summaries(fetched))
    ensures forall k :: 0 <= k < |r| ==> SummaryOfEligible(params, table, r[k])
  {
    var summaries := Summaries(fetched);
    forall k | 0 <= k < |r| ensures SummaryOfEligible(params, table, r[k]) {
      assert r[k] in summaries;
      var j :| 0 <= j < |summaries| && summaries[j] == r[k];
      assert fetched[j] in table && Eligible(params, fetched[j]);
    }
  }

  /** `s` summarises an eligible player of the table. */
  ghost predicate SummaryOfEligible(params: SearchParams, table: seq<PlayerRow>, s: PlayerSummary)
  {
    exists p :: p in table && Eligible(params, p) && s == Summary(p)
  }

  /** The rows the query returns are eligible rows of the table. */
  lemma FetchedAreEligible(params: SearchParams, table: seq<PlayerRow>, take: nat)
    ensures var fetched := Fetch(params, table, take);
            forall j :: 0 <= j < |fetched| ==> fetched[j] in table && Eligible(params, fetched[j])
  {
    var eligible := Filter(params, table);
    var byForm := Ordering.SortDesc(eligible, FormKey);
    var fetched := Fetch(params, table, take);
    Ordering.PrefixOfSortDesc(eligible, FormKey, |fetched|);
    forall j | 0 <= j < |fetched| ensures fetched[j] in table && Eligible(params, fetched[j]) {
      assert byForm[j] in multiset(eligible);
      var i :| 0 <= i < |eligible| && eligible[i] == byForm[j];
    }
  }

  // ---------------------------------------------------------------------
  // comparePlayers

  /** The winner of one row: 1, 2, or 0 for neither. */
  datatype Winner = Neither | First | Second

  datatype Metric = Price | ExpectedPoints | Form | Ownership | Health

  /** A row's displayed values; their text rendering is not modelled. */
  datatype RowValue = Millions(amount: real) | Points(points: real) | Percent(share: real) | Status(injured: bool)

  datatype ComparisonRow = ComparisonRow(metric: Metric, value1: RowValue, value2: RowValue, winner: Winner)

  datatype Recommendation = Favours(webName: string, wins: nat, metrics: nat) | Even

  datatype Comparison = Comparison(
    player1: PlayerSummary,
    player2: PlayerSummary,
    rows: seq<ComparisonRow>,
    recommendation: Recommendation)

  /** The lower value wins (price). */
  function LowerWins(a: real, b: real): (w: Winner)
    ensures w == First <==> a < b
    ensures w == Second <==> b < a
  {
    if a < b then First else if b < a then Second else Neither
  }

  /** The higher value wins (expected points, form). */
  function HigherWins(a: real, b: real): (w: Winner)
    ensures w == First <==> a > b
    ensures w == Second <==> b > a
  {
    if a > b then First else if b > a then Second else Neither
  }

  /** The fit player wins when the other is injured. */
  function FitWins(injured1: bool, injured2: bool): (w: Winner)
    ensures w == First <==> !injured1 && injured2
    ensures w == Second <==> !injured2 && injured1
  {
    if !injured1 && injured2 then First else if !injured2 && injured1 then Second else Neither
  }

  function ComparisonRows(s1: PlayerSummary, s2: PlayerSummary): (rows: seq<ComparisonRow>)
    ensures |rows| == 5
  {
    [ComparisonRow(Price, Millions(s1.price), Millions(s2.price), LowerWins(s1.price, s2.price)),
     ComparisonRow(ExpectedPoints, Points(s1.xPtsNext5), Points(s2.xPtsNext5), HigherWins(s1.xPtsNext5, s2.xPtsNext5)),
     ComparisonRow(Form, Points(s1.form), Points(s2.form), HigherWins(s1.form, s2.form)),
     ComparisonRow(Ownership, Percent(s1.ownership), Percent(s2.ownership), Neither),
     ComparisonRow(Health, Status(s1.isInjured), Status(s2.isInjured), FitWins(s1.isInjured, s2.isInjured))]
  }

  /** The number of rows a side wins. */
  function Wins(rows: seq<ComparisonRow>, side: Winner): (n: nat)
    ensures n <= |rows|
  {
    if rows == [] then 0
    else (if rows[0].winner == side then 1 else 0) + Wins(rows[1..], side)
  }

  lemma {:induction false} WinsTotal(rows: seq<ComparisonRow>)
    ensures Wins(rows, First) + Wins(rows, Second) <= |rows|
  {
    if rows != [] {
      WinsTotal(rows[1..]);
    }
  }

  function Recommend(s1: PlayerSummary, s2: PlayerSummary, rows: seq<ComparisonRow>): (r: Recommendation)
    ensures r == Even <==> Wins(rows, First) == Wins(rows, Second)
    ensures r.Favours? && r.webName == s1.webName && s1.webName != s2.webName ==> Wins(rows, First) > Wins(rows, Second)
    ensures r.Favours? ==> r.metrics == |rows| && r.wins == Max(Wins(rows, First) as real, Wins(rows, Second) as real) as int
  {
    var w1 := Wins(rows, First);
    var w2 := Wins(rows, Second);
    if w1 > w2 then Favours(s1.webName, w1, |rows|)
    else if w2 > w1 then Favours(s2.webName, w2, |rows|)
    else Even
  }

  /** comparePlayers: null when either player is missing. */
  function ComparePlayers(p1: Option<PlayerRow>, p2: Option<PlayerRow>): (r: Option<Comparison>)
    ensures r.Some? <==> p1.Some? && p2.Some?
  {
    if p1.None? || p2.None? then None
    else
      var s1 := Summary(p1.value);
      var s2 := Summary(p2.value);
      var rows := ComparisonRows(s1, s2);
      Some(Comparison(s1, s2, rows, Recommend(s1, s2, rows)))
  }

  /** The per-row rules: the cheaper player wins on price, the higher on
      expected points and form, nobody on ownership, and the fit player on
      health only against an injured one; the two players together win at
      most the five rows, and the recommendation names the player with
      more wins, or neither on a tie. */
  lemma ComparisonRules(p1: PlayerRow, p2: PlayerRow)
    ensures var c := ComparePlayers(Some(p1), Some(p2)).value;
            |c.rows| == 5 &&
            (c.rows[0].winner == First <==> p1.nowCost < p2.nowCost) &&
            (c.rows[0].winner == Second <==> p2.nowCost < p1.nowCost) &&
            (c.rows[1].winner == First <==> c.player1.xPtsNext5 > c.player2.xPtsNext5) &&
            (c.rows[2].winner == First <==> p1.form > p2.form) &&
            (c.rows[2].winner == Second <==> p2.form > p1.form) &&
            c.rows[3].winner == Neither &&
            (c.rows[4].winner == First <==> !c.player1.isInjured && c.player2.isInjured) &&
            Wins(c.rows, First) + Wins(c.rows, Second) <= 5 &&
            (Wins(c.rows, First) > Wins(c.rows, Second) ==> c.recommendation == Favours(p1.webName, Wins(c.rows, First), 5)) &&
            (Wins(c.rows, Second) > Wins(c.rows, First) ==> c.recommendation == Favours(p2.webName, Wins(c.rows, Second), 5)) &&
            (Wins(c.rows, First) == Wins(c.rows, Second) ==> c.recommendation == Even)
  {
    var c := ComparePlayers(Some(p1), Some(p2)).value;
    WinsTotal(c.rows);
  }

  function Mirror(w: Winner): Winner
  {
    match w
    case Neither => Neither
    case First => Second
    case Second => First
  }

  /** Comparing the players the other way round swaps every row's winner
      and the two win counts. */
  lemma ComparisonSwap(p1: PlayerRow, p2: PlayerRow)
    ensures var c := ComparePlayers(Some(p1), Some(p2)).value;
            var d := ComparePlayers(Some(p2), Some(p1)).value;
            (forall k :: 0 <= k < 5 ==> d.rows[k].winner == Mirror(c.rows[k].winner)) &&
            Wins(d.rows, First) == Wins(c.rows, Second) &&
            Wins(d.rows, Second) == Wins(c.rows, First)
  {
    var c := ComparePlayers(Some(p1), Some(p2)).value;
    var d := ComparePlayers(Some(p2), Some(p1)).value;
    RowsMirror(Summary(p1), Summary(p2));
    MirrorWins(c.rows, d.rows);
  }

  /** Row by row, swapping the players mirrors the winner. */
  lemma RowsMirror(s1: PlayerSummary, s2: PlayerSummary)
    ensures forall k :: 0 <= k < 5 ==> ComparisonRows(s2, s1)[k].winner == Mirror(ComparisonRows(s1, s2)[k].winner)
  {
    var c, d := ComparisonRows(s1, s2), ComparisonRows(s2, s1);
    assert d[0].winner == Mirror(c[0].winner);
    assert d[1].winner == Mirror(c[1].winner);
    assert d[2].winner == Mirror(c[2].winner);
    assert d[4].winner == Mirror(c[4].winner);
  }

  lemma {:induction false} MirrorWins(rows: seq<ComparisonRow>, mirrored: seq<ComparisonRow>)
    requires |mirrored| == |rows|
    requires forall k :: 0 <= k < |rows| ==> mirrored[k].winner == Mirror(rows[k].winner)
    ensures Wins(mirrored, First) == Wins(rows, Second)
    ensures Wins(mirrored, Second) == Wins(rows, First)
  {
    if rows != [] {
      MirrorWins(rows[1..], mirrored[1..]);
    }
  }
}
