/** Transfer advice: the starter projected to score least over the next
    five gameweeks is the player to sell, and the best-in-form affordable
    players in the same position who would outscore that starter by more than two points
    are offered in its place, largest gain first. */
module TransferAdvisor {
  import opened Domain
  import opened Squad
  import Ordering

  /** The elite ownership of the player coming in, in percent. */
  datatype OwnershipContext = OwnershipContext(eliteEo: real, isDifferential: bool, isTemplate: bool)

  /** One suggested transfer; the reason text is not modelled. */
  datatype TransferRecommendation = TransferRecommendation(
    playerOut: Player,
    playerOutXPts: real,
    playerIn: Player,
    playerInXPts: real,
    xPtsDelta: real,
    ownershipContext: OwnershipContext)

  /** The gameweeks the projections cover. */
  const Horizon := 5

  /** How many replacement candidates are projected. */
  const CandidateLimit := 20

  /** The smallest gain, in points, worth a transfer. */
  const MinimumGain := 2.0

  /** How many recommendations are returned. */
  const RecommendationLimit := 5

  /** Below this elite ownership a player is a differential, above the
      template one a template pick. */
  const DifferentialEo := 10.0
  const TemplateEo := 50.0

  /** `getEliteOwnership(gameweek)` of the context service: elite
      ownership by FPL id, which is not modelled here. */
  type EliteOwnershipSource = int -> map<int, real>

  /** The index of the last projection of a player: the one
      `new Map(projections.map(...))` keeps. */
  function LastProjection(projections: seq<Projection>, id: int): (r: Option<nat>)
    ensures r.Some? ==> r.value < |projections| && projections[r.value].playerId == id &&
                        forall j :: r.value < j < |projections| ==> projections[j].playerId != id
    ensures r.None? <==> forall k :: 0 <= k < |projections| ==> projections[k].playerId != id
  {
    if projections == [] then None
    else if projections[|projections| - 1].playerId == id then Some(|projections| - 1)
    else LastProjection(projections[..|projections| - 1], id)
  }

  /** `squadProjMap.get(id) || 0`: the projection the map keeps, 0 for a
      player without one. */
  function ProjectedPoints(projections: seq<Projection>, id: int): real
  {
    match LastProjection(projections, id)
    case None => 0.0
    case Some(k) => projections[k].totalXPts
  }

  /** The key of the ascending sort of the starting XI by projected
      points: sorting on its negation, largest first, is the same stable
      sort. */
  function Shortfall(projections: seq<Projection>, p: Pick): real
  {
    -ProjectedPoints(projections, p.playerId)
  }

  /** The key of that sort for a given projection list. */
  function ShortfallKey(projections: seq<Projection>): Pick -> real
  {
    p => Shortfall(projections, p)
  }

  /** `sortedByXPts[0]`: the first starter after the ascending sort, None
      for an empty starting XI. */
  function WeakestLink(xi: seq<Pick>, projections: seq<Projection>): Option<Pick>
  {
    var sorted := Ordering.SortDesc(xi, ShortfallKey(projections));
    if |sorted| == 0 then None else Some(sorted[0])
  }

  /** The weakest link exists exactly when the starting XI is not empty;
      it is then the earliest starter whose projected points are the
      lowest of all: every starter before it projects strictly more. */
  lemma WeakestLinkIsLowest(xi: seq<Pick>, projections: seq<Projection>)
    ensures WeakestLink(xi, projections).None? <==> xi == []
    ensures WeakestLink(xi, projections).Some? ==>
              var i := Ordering.FirstMaxIndex(xi, ShortfallKey(projections));
              var out := WeakestLink(xi, projections).value;
              out == xi[i] && out in xi &&
              (forall k :: 0 <= k < |xi| ==>
                 ProjectedPoints(projections, out.playerId) <= ProjectedPoints(projections, xi[k].playerId)) &&
              (forall j :: 0 <= j < i ==>
                 ProjectedPoints(projections, xi[j].playerId) > ProjectedPoints(projections, out.playerId))
  {
    if xi != [] {
      var key := ShortfallKey(projections);
      Ordering.HeadOfSortDescIsFirstMax(xi, key);
      var i := Ordering.FirstMaxIndex(xi, key);
      var out := xi[i];
      forall k | 0 <= k < |xi|
        ensures ProjectedPoints(projections, out.playerId) <= ProjectedPoints(projections, xi[k].playerId)
      {
        assert key(out) >= key(xi[k]);
      }
      forall j | 0 <= j < i
        ensures ProjectedPoints(projections, xi[j].playerId) > ProjectedPoints(projections, out.playerId)
      {
        assert key(xi[j]) < key(out);
      }
    }
  }

  /** `(sellingPrice || nowCost) + bank`: what the seller can spend. */
  function Budget(out: Pick, bank: int): int
  {
    SellingValue(out) + bank
  }

  /** The filter of the candidate query: same position, affordable, not the
      seller, available, and not already in the squad. */
  predicate Eligible(p: Player, out: Player, budget: int, squadIds: seq<int>)
  {
    p.position == out.position && p.nowCost <= budget && p.id != out.id && p.status == "a" && p.id !in squadIds
  }

  /** The players the candidate query matches, in table order. */
  function EligiblePlayers(players: seq<Player>, out: Player, budget: int, squadIds: seq<int>): (r: seq<Player>)
    ensures |r| <= |players|
  {
    if players == [] then []
    else
      var last := players[|players| - 1];
      EligiblePlayers(players[..|players| - 1], out, budget, squadIds) +
      (if Eligible(last, out, budget, squadIds) then [last] else [])
  }

  /** The query matches exactly the eligible players. */
  lemma {:induction false} EligibleExactly(players: seq<Player>, out: Player, budget: int, squadIds: seq<int>)
    ensures forall p :: p in EligiblePlayers(players, out, budget, squadIds) <==>
                        p in players && Eligible(p, out, budget, squadIds)
  {
    if players != [] {
      var init := players[..|players| - 1];
      EligibleExactly(init, out, budget, squadIds);
      assert players == init + [players[|players| - 1]];
    }
  }

  function FormKey(p: Player): real
  {
    p.form
  }

  /** The candidate query: eligible players by form, best first, the first
      twenty. */
  function CandidatePlayers(players: seq<Player>, out: Player, budget: int, squadIds: seq<int>): seq<Player>
  {
    Prefix(Ordering.SortDesc(EligiblePlayers(players, out, budget, squadIds), FormKey), CandidateLimit)
  }

  /** At most twenty candidates, each an eligible player of the table, by
      form, best first. */
  lemma CandidatesAreEligible(players: seq<Player>, out: Player, budget: int, squadIds: seq<int>)
    ensures var c := CandidatePlayers(players, out, budget, squadIds);
            |c| <= CandidateLimit && Ordering.SortedDesc(c, FormKey) &&
            forall k :: 0 <= k < |c| ==> c[k] in players && Eligible(c[k], out, budget, squadIds)
  {
    var eligible := EligiblePlayers(players, out, budget, squadIds);
    var c := CandidatePlayers(players, out, budget, squadIds);
    EligibleExactly(players, out, budget, squadIds);
    Ordering.PrefixOfSortDesc(eligible, FormKey, |c|);
    forall k | 0 <= k < |c|
      ensures c[k] in players && Eligible(c[k], out, budget, squadIds)
    {
      assert c[k] in multiset(eligible);
    }
  }

  /** Every eligible player left out is in no better form than any
      candidate, and none is left out when twenty or fewer are eligible. */
  lemma CandidatesAreBestInForm(players: seq<Player>, out: Player, budget: int, squadIds: seq<int>)
    ensures var c := CandidatePlayers(players, out, budget, squadIds);
            forall p :: p in players && Eligible(p, out, budget, squadIds) && p !in c ==>
                          |c| == CandidateLimit && forall k :: 0 <= k < |c| ==> p.form <= c[k].form
  {
    var eligible := EligiblePlayers(players, out, budget, squadIds);
    var sorted := Ordering.SortDesc(eligible, FormKey);
    var c := CandidatePlayers(players, out, budget, squadIds);
    EligibleExactly(players, out, budget, squadIds);
    assert c == sorted[..|c|];
    forall p | p in players && Eligible(p, out, budget, squadIds) && p !in c
      ensures |c| == CandidateLimit && forall k :: 0 <= k < |c| ==> p.form <= c[k].form
    {
      assert p in multiset(sorted);
      var i :| 0 <= i < |sorted| && sorted[i] == p;
      assert i >= |c|;
      forall k | 0 <= k < |c|
        ensures p.form <= c[k].form
      {
        assert FormKey(sorted[k]) >= FormKey(sorted[i]);
      }
    }
  }

  /** `candidatePlayers.map(p => p.id)`. */
  function CandidateIds(candidates: seq<Player>): (ids: seq<int>)
    ensures |ids| == |candidates|
    ensures forall k :: 0 <= k < |candidates| ==> ids[k] == candidates[k].id
  {
    seq(|candidates|, k requires 0 <= k < |candidates| => candidates[k].id)
  }

  /** `candidatePlayers.findIndex(p => p.id === id)`, None for -1. */
  function PlayerIndex(xs: seq<Player>, id: int): (r: Option<nat>)
    ensures r.Some? ==> r.value < |xs| && xs[r.value].id == id &&
                        forall j :: 0 <= j < r.value ==> xs[j].id != id
    ensures r.None? <==> forall k :: 0 <= k < |xs| ==> xs[k].id != id
  {
    if xs == [] then None
    else if xs[0].id == id then Some(0)
    else
      var rest := PlayerIndex(xs[1..], id);
      assert forall k :: 1 <= k < |xs| ==> xs[k] == xs[1..][k - 1];
      if rest.Some? then Some(rest.value + 1) else None
  }

  /** `candidatePlayers.find(p => p.id === id)`. */
  function FindPlayer(xs: seq<Player>, id: int): (r: Option<Player>)
    ensures r.Some? <==> PlayerIndex(xs, id).Some?
    ensures r.Some? ==> r.value == xs[PlayerIndex(xs, id).value]
  {
    match PlayerIndex(xs, id)
    case None => None
    case Some(k) => Some(xs[k])
  }

  /** `eliteEoMap[fplId] || 0`. */
  function EliteEo(eliteEoMap: map<int, real>, fplId: int): real
  {
    if fplId in eliteEoMap then eliteEoMap[fplId] else 0.0
  }

  function Ownership(eo: real): OwnershipContext
  {
    OwnershipContext(eo, eo < DifferentialEo, eo > TemplateEo)
  }

  /** What the recommendations promise: a gain of more than two points,
      the difference of the two projections, out of the given seller and
      projection, into a candidate with that candidate's elite ownership,
      never both a differential and a template pick. */
  predicate Sound(r: TransferRecommendation, out: Player, outXPts: real, candidates: seq<Player>,
                  eliteEoMap: map<int, real>)
  {
    r.playerOut == out && r.playerOutXPts == outXPts &&
    r.xPtsDelta == r.playerInXPts - r.playerOutXPts && r.xPtsDelta > MinimumGain &&
    r.playerIn in candidates &&
    r.ownershipContext == Ownership(EliteEo(eliteEoMap, r.playerIn.fplId)) &&
    !(r.ownershipContext.isDifferential && r.ownershipContext.isTemplate)
  }

  /** One turn of the loop over the candidate projections. */
  function Consider(proj: Projection, out: Player, outXPts: real, candidates: seq<Player>,
                    eliteEoMap: map<int, real>): (r: Option<TransferRecommendation>)
    ensures r.Some? ==> Sound(r.value, out, outXPts, candidates, eliteEoMap) &&
                        r.value.playerInXPts == proj.totalXPts && r.value.playerIn.id == proj.playerId
    ensures r.None? <==> proj.totalXPts - outXPts <= MinimumGain || FindPlayer(candidates, proj.playerId).None?
  {
    var xPtsDelta := proj.totalXPts - outXPts;
    if xPtsDelta > MinimumGain then
      match FindPlayer(candidates, proj.playerId)
      case None => None
      case Some(candidate) =>
        Some(TransferRecommendation(out, outXPts, candidate, proj.totalXPts, xPtsDelta,
                                    Ownership(EliteEo(eliteEoMap, candidate.fplId))))
    else None
  }

  /** The recommendations the loop pushes, in projection order. */
  function Considered(projections: seq<Projection>, out: Player, outXPts: real, candidates: seq<Player>,
                      eliteEoMap: map<int, real>): (recs: seq<TransferRecommendation>)
    ensures |recs| <= |projections|
    ensures forall k :: 0 <= k < |recs| ==> Sound(recs[k], out, outXPts, candidates, eliteEoMap)
  {
    if projections == [] then []
    else
      var r := Consider(projections[|projections| - 1], out, outXPts, candidates, eliteEoMap);
      Considered(projections[..|projections| - 1], out, outXPts, candidates, eliteEoMap) +
      (if r.Some? then [r.value] else [])
  }

  /** Every projection that beats the seller by more than two points and
      belongs to a candidate yields a recommendation of that candidate at
      that projection. */
  lemma {:induction false} ConsideredComplete(projections: seq<Projection>, out: Player, outXPts: real,
                                               candidates: seq<Player>, eliteEoMap: map<int, real>)
    ensures forall k :: 0 <= k < |projections| && projections[k].totalXPts - outXPts > MinimumGain &&
                        FindPlayer(candidates, projections[k].playerId).Some? ==>
              exists r :: r in Considered(projections, out, outXPts, candidates, eliteEoMap) &&
                          r.playerIn == FindPlayer(candidates, projections[k].playerId).value &&
                          r.playerInXPts == projections[k].totalXPts
  {
    if projections != [] {
      var init := projections[..|projections| - 1];
      var last := projections[|projections| - 1];
      ConsideredComplete(init, out, outXPts, candidates, eliteEoMap);
      var recs := Considered(projections, out, outXPts, candidates, eliteEoMap);
      var initRecs := Considered(init, out, outXPts, candidates, eliteEoMap);
      var r := Consider(last, out, outXPts, candidates, eliteEoMap);
      assert recs == initRecs + (if r.Some? then [r.value] else []);
      forall k | 0 <= k < |projections| && projections[k].totalXPts - outXPts > MinimumGain &&
                 FindPlayer(candidates, projections[k].playerId).Some?
        ensures exists r :: r in recs && r.playerIn == FindPlayer(candidates, projections[k].playerId).value &&
                            r.playerInXPts == projections[k].totalXPts
      {
        if k < |init| {
          assert projections[k] == init[k];
          var q :| q in initRecs && q.playerIn == FindPlayer(candidates, init[k].playerId).value &&
                   q.playerInXPts == init[k].totalXPts;
          assert q in recs;
        } else {
          assert r.Some? && r.value in recs;
        }
      }
    }
  }

  function Delta(r: TransferRecommendation): real
  {
    r.xPtsDelta
  }

  /** The five largest gains, largest first. */
  function TopFive(recs: seq<TransferRecommendation>): seq<TransferRecommendation>
  {
    Prefix(Ordering.SortDesc(recs, Delta), RecommendationLimit)
  }

  /** The squad's projections over the five gameweeks from the next one. */
  function SquadProjections(squad: FantasyTeam, nextGw: int, project: ProjectionSource): seq<Projection>
  {
    project(GameweeksFrom(nextGw, Horizon), PlayerIds(squad.picks))
  }

  /** The pick to sell: the weakest link of the starting XI. */
  function OutPick(squad: FantasyTeam, nextGw: int, project: ProjectionSource): Option<Pick>
  {
    WeakestLink(StartingXI(squad.picks), SquadProjections(squad, nextGw, project))
  }

  /** The message of the TypeError `sortedByXPts[0].player` throws when the
      starting XI is empty. */
  const NoStarterError := "Cannot read properties of undefined (reading 'player')"

  /** The recommendations once the seller is known. */
  function Replacements(squad: FantasyTeam, nextGw: int, project: ProjectionSource, eliteEoMap: map<int, real>,
                        players: seq<Player>, outPick: Pick): seq<TransferRecommendation>
  {
    var out := outPick.player;
    var outXPts := ProjectedPoints(SquadProjections(squad, nextGw, project), out.id);
    var candidates := CandidatePlayers(players, out, Budget(outPick, squad.bank), PlayerIds(squad.picks));
    var candidateProjections := project(GameweeksFrom(nextGw, Horizon), CandidateIds(candidates));
    TopFive(Considered(candidateProjections, out, outXPts, candidates, eliteEoMap))
  }

  /** generateRecommendations as a value: nothing without a squad or a next
      gameweek, the TypeError for an empty starting XI, otherwise the
      replacements of the weakest link. `players` is the player table the
      candidate query reads. */
  function TransferRecommendations(team: Option<FantasyTeam>, nextEvent: Option<int>, project: ProjectionSource,
                                   eliteOwnership: EliteOwnershipSource, players: seq<Player>)
    : (r: Result<seq<TransferRecommendation>>)
    ensures team.None? || nextEvent.None? ==> r == Ok([])
    ensures team.Some? && nextEvent.Some? ==>
              (r.Err? <==> StartingXI(team.value.picks) == [])
  {
    if team.None? || nextEvent.None? then Ok([])
    else
      var squad := team.value;
      match OutPick(squad, nextEvent.value, project)
      case None =>
        WeakestLinkIsLowest(StartingXI(squad.picks), SquadProjections(squad, nextEvent.value, project));
        Err(NoStarterError)
      case Some(outPick) =>
        WeakestLinkIsLowest(StartingXI(squad.picks), SquadProjections(squad, nextEvent.value, project));
        Ok(Replacements(squad, nextEvent.value, project, eliteOwnership(squad.gameweek), players, outPick))
  }

  /** The loop of generateRecommendations over the candidate projections. */
  method CollectTransfers(candidateProjections: seq<Projection>, playerOut: Player, playerOutXPts: real,
                          candidatePlayers: seq<Player>, eliteEoMap: map<int, real>)
    returns (recommendations: seq<TransferRecommendation>)
    ensures recommendations == Considered(candidateProjections, playerOut, playerOutXPts, candidatePlayers, eliteEoMap)
  {
    recommendations := [];
    var i := 0;
    while i < |candidateProjections|
      invariant 0 <= i <= |candidateProjections|
      invariant recommendations == Considered(candidateProjections[..i], playerOut, playerOutXPts, candidatePlayers, eliteEoMap)
    {
      var proj := candidateProjections[i];
      assert candidateProjections[..i + 1][..i] == candidateProjections[..i];
      var xPtsDelta := proj.totalXPts - playerOutXPts;
      if xPtsDelta > MinimumGain {
        var candidate := FindPlayer(candidatePlayers, proj.playerId);
        if candidate.Some? {
          var eo := EliteEo(eliteEoMap, candidate.value.fplId);
          var isDifferential := eo < DifferentialEo;
          var isTemplate := eo > TemplateEo;
          recommendations := recommendations +
            [TransferRecommendation(playerOut, playerOutXPts, candidate.value, proj.totalXPts, xPtsDelta,
                                    OwnershipContext(eo, isDifferential, isTemplate))];
        }
      }
      i := i + 1;
    }
    assert candidateProjections[..i] == candidateProjections;
  }

  /** generateRecommendations. */
  method GenerateRecommendations(team: Option<FantasyTeam>, nextEvent: Option<int>, project: ProjectionSource,
                                 eliteOwnership: EliteOwnershipSource, players: seq<Player>)
    returns (r: Result<seq<TransferRecommendation>>)
    ensures r == TransferRecommendations(team, nextEvent, project, eliteOwnership, players)
  {
    if team.None? {
      return Ok([]);
    }
    var currentSquad := team.value;
    var currentGw := currentSquad.gameweek;
    if nextEvent.None? {
      return Ok([]);
    }
    var gameweeks := GameweeksFrom(nextEvent.value, Horizon);
    var eliteEoMap := eliteOwnership(currentGw);
    var squadPlayerIds := PlayerIds(currentSquad.picks);
    var squadProjections := project(gameweeks, squadPlayerIds);
    var startingXI := StartingXI(currentSquad.picks);
    var sortedByXPts := Ordering.SortDesc(startingXI, ShortfallKey(squadProjections));
    if |sortedByXPts| == 0 {
      return Err(NoStarterError);
    }
    var playerOutPick := sortedByXPts[0];
    var playerOut := playerOutPick.player;
    var playerOutXPts := ProjectedPoints(squadProjections, playerOut.id);
    var budget := SellingValue(playerOutPick) + currentSquad.bank;
    var candidatePlayers := CandidatePlayers(players, playerOut, budget, squadPlayerIds);
    var candidateIds := CandidateIds(candidatePlayers);
    var candidateProjections := project(gameweeks, candidateIds);
    var recommendations := CollectTransfers(candidateProjections, playerOut, playerOutXPts, candidatePlayers, eliteEoMap);
    r := Ok(Prefix(Ordering.SortDesc(recommendations, Delta), RecommendationLimit));
    assert squadProjections == SquadProjections(currentSquad, nextEvent.value, project);
    assert OutPick(currentSquad, nextEvent.value, project) == Some(playerOutPick);
    assert budget == Budget(playerOutPick, currentSquad.bank);
    assert r.value == Replacements(currentSquad, nextEvent.value, project, eliteEoMap, players, playerOutPick);
  }

  /** The five kept are sorted by gain, largest first, and as sound as
      the list they come from. */
  lemma TopFiveShape(recs: seq<TransferRecommendation>, out: Player, outXPts: real, candidates: seq<Player>,
                     eliteEoMap: map<int, real>)
    requires forall k :: 0 <= k < |recs| ==> Sound(recs[k], out, outXPts, candidates, eliteEoMap)
    ensures |TopFive(recs)| <= RecommendationLimit
    ensures Ordering.SortedDesc(TopFive(recs), Delta)
    ensures forall k :: 0 <= k < |TopFive(recs)| ==> Sound(TopFive(recs)[k], out, outXPts, candidates, eliteEoMap)
  {
    var top := TopFive(recs);
    Ordering.PrefixOfSortDesc(recs, Delta, |top|);
    forall k | 0 <= k < |top|
      ensures Sound(top[k], out, outXPts, candidates, eliteEoMap)
    {
      var j :| 0 <= j < |recs| && recs[j] == top[k];
    }
  }

  /** A recommendation of the seller `out`: a gain above two points on their
      projection, into an eligible player of the table, never both a
      differential and a template pick. */
  predicate Offers(r: TransferRecommendation, out: Player, outXPts: real, budget: int, squadIds: seq<int>,
                   players: seq<Player>)
  {
    r.playerOut == out && r.playerOutXPts == outXPts &&
    r.xPtsDelta == r.playerInXPts - outXPts && r.xPtsDelta > MinimumGain &&
    r.playerIn in players && Eligible(r.playerIn, out, budget, squadIds) &&
    !(r.ownershipContext.isDifferential && r.ownershipContext.isTemplate)
  }

  /** The replacements of a seller: at most five, by gain, largest first,
      each an offer for that seller. */
  lemma ReplacementsShape(squad: FantasyTeam, nextGw: int, project: ProjectionSource, eliteEoMap: map<int, real>,
                          players: seq<Player>, outPick: Pick)
    ensures var recs := Replacements(squad, nextGw, project, eliteEoMap, players, outPick);
            |recs| <= RecommendationLimit && Ordering.SortedDesc(recs, Delta) &&
            forall k :: 0 <= k < |recs| ==>
              Offers(recs[k], outPick.player, ProjectedPoints(SquadProjections(squad, nextGw, project), outPick.player.id),
                     Budget(outPick, squad.bank), PlayerIds(squad.picks), players)
  {
    var out := outPick.player;
    var outXPts := ProjectedPoints(SquadProjections(squad, nextGw, project), out.id);
    var budget := Budget(outPick, squad.bank);
    var candidates := CandidatePlayers(players, out, budget, PlayerIds(squad.picks));
    var candidateProjections := project(GameweeksFrom(nextGw, Horizon), CandidateIds(candidates));
    var considered := Considered(candidateProjections, out, outXPts, candidates, eliteEoMap);
    TopFiveShape(considered, out, outXPts, candidates, eliteEoMap);
    CandidatesAreEligible(players, out, budget, PlayerIds(squad.picks));
    var recs := TopFive(considered);
    forall k | 0 <= k < |recs|
      ensures Offers(recs[k], out, outXPts, budget, PlayerIds(squad.picks), players)
    {
      assert Sound(recs[k], out, outXPts, candidates, eliteEoMap);
    }
  }

  /** With a starting XI the advice succeeds: at most five recommendations,
      by gain, largest first, all selling the weakest link of the starting
      XI at their projection, each into an eligible player. */
  lemma RecommendationsShape(squad: FantasyTeam, nextGw: int, project: ProjectionSource,
                             eliteOwnership: EliteOwnershipSource, players: seq<Player>)
    requires StartingXI(squad.picks) != []
    ensures var r := TransferRecommendations(Some(squad), Some(nextGw), project, eliteOwnership, players);
            var outPick := OutPick(squad, nextGw, project);
            r.Ok? && outPick.Some? && outPick.value in squad.picks && IsStarter(outPick.value) &&
            |r.value| <= RecommendationLimit && Ordering.SortedDesc(r.value, Delta) &&
            forall k :: 0 <= k < |r.value| ==>
              Offers(r.value[k], outPick.value.player,
                     ProjectedPoints(SquadProjections(squad, nextGw, project), outPick.value.player.id),
                     Budget(outPick.value, squad.bank), PlayerIds(squad.picks), players)
  {
    WeakestLinkIsLowest(StartingXI(squad.picks), SquadProjections(squad, nextGw, project));
    SplitExactly(squad.picks);
    ReplacementsShape(squad, nextGw, project, eliteOwnership(squad.gameweek), players,
                      OutPick(squad, nextGw, project).value);
  }
}
