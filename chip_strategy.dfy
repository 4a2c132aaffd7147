/** Chip strategy: which of the four chips (wildcard, bench boost, triple
    captain, free hit) to play next, each with a confidence out of 100 and
    an expected points gain, strongest first. */
module ChipStrategy {
  import opened Domain
  import opened Squad
  import Ordering

  datatype Chip = Wildcard | BenchBoost | TripleCaptain | FreeHit

  /** A recommendation; its reasoning text is not modelled. */
  datatype ChipRecommendation = ChipRecommendation(chip: Chip, confidence: real, expectedValue: real, trigger: string)

  /** The gameweeks the wildcard looks ahead. */
  const WildcardHorizon := 5

  /** Bench money above 25.0m (in tenths) makes a wildcard worth a look. */
  const WildcardBenchLimit := 250

  /** The bench reduce of the wildcard: current prices only. */
  function BenchCost(bench: seq<Pick>): int
  {
    if bench == [] then 0 else BenchCost(bench[..|bench| - 1]) + bench[|bench| - 1].player.nowCost
  }

  predicate ExpensiveBench(picks: seq<Pick>)
  {
    BenchCost(Bench(picks)) > WildcardBenchLimit
  }

  /** `avgXPts < 15`. With no projections the average is 0/0, NaN, and the
      comparison is false. */
  predicate LowAverage(projections: seq<Projection>)
  {
    |projections| > 0 && TotalXPts(projections) / |projections| as real < 15.0
  }

  /** The wildcard's confidence before the cap: 40 for four or more
      unavailable players or 20 for two or three, 30 for an expensive bench,
      30 for a low average projection. */
  function WildcardConfidence(unavailable: nat, expensiveBench: bool, lowAverage: bool): int
  {
    (if unavailable >= 4 then 40 else if unavailable >= 2 then 20 else 0) +
    (if expensiveBench then 30 else 0) + (if lowAverage then 30 else 0)
  }

  /** The expected gain: 3 per unavailable player from four, 2 per player
      for two or three, 10 for the bench, 15 for the projection. */
  function WildcardValue(unavailable: nat, expensiveBench: bool, lowAverage: bool): int
  {
    (if unavailable >= 4 then 3 * unavailable else if unavailable >= 2 then 2 * unavailable else 0) +
    (if expensiveBench then 10 else 0) + (if lowAverage then 15 else 0)
  }

  function WildcardTrigger(unavailable: nat): string
  {
    if unavailable >= 4 then "Multiple injuries" else "Squad restructure needed"
  }

  /** evaluateWildcard as a value: recommended exactly when two of the
      signals meet (at least two unavailable players counting as one), with
      a confidence of at least 50 that never needs the cap of 100. */
  function WildcardOf(picks: seq<Pick>, projections: seq<Projection>): (r: Option<ChipRecommendation>)
    ensures var n := |Unavailables(picks)|;
            var e := ExpensiveBench(picks);
            var l := LowAverage(projections);
            r.Some? <==> (n >= 2 && (e || l)) || (e && l)
    ensures r.Some? ==> r.value.chip == Wildcard && 50.0 <= r.value.confidence <= 100.0 &&
                        r.value.confidence == WildcardConfidence(|Unavailables(picks)|, ExpensiveBench(picks),
                                                                 LowAverage(projections)) as real
    ensures r.Some? ==> (r.value.trigger == "Multiple injuries" <==> |Unavailables(picks)| >= 4)
  {
    var n := |Unavailables(picks)|;
    var e := ExpensiveBench(picks);
    var l := LowAverage(projections);
    var confidence := WildcardConfidence(n, e, l);
    if confidence < 50 then None
    else Some(ChipRecommendation(Wildcard, Min(confidence as real, 100.0), WildcardValue(n, e, l) as real,
                                 WildcardTrigger(n)))
  }

  /** The projections the wildcard reads: the whole squad over the next
      five gameweeks. */
  function WildcardProjections(picks: seq<Pick>, currentGw: int, project: ProjectionSource): seq<Projection>
  {
    project(GameweeksFrom(currentGw, WildcardHorizon), PlayerIds(picks))
  }

  /** evaluateWildcard: the confidence and the expected value accumulate
      signal by signal. */
  method EvaluateWildcard(picks: seq<Pick>, currentGw: int, project: ProjectionSource)
    returns (r: Option<ChipRecommendation>)
    ensures r == WildcardOf(picks, WildcardProjections(picks, currentGw, project))
  {
    var confidence := 0;
    var expectedValue := 0;
    var unavailable := Unavailables(picks);
    if |unavailable| >= 4 {
      confidence := confidence + 40;
      expectedValue := expectedValue + |unavailable| * 3;
    } else if |unavailable| >= 2 {
      confidence := confidence + 20;
      expectedValue := expectedValue + |unavailable| * 2;
    }
    var bench := Bench(picks);
    var benchValue := BenchCost(bench);
    if benchValue > WildcardBenchLimit {
      confidence := confidence + 30;
      expectedValue := expectedValue + 10;
    }
    var projections := project(GameweeksFrom(currentGw, WildcardHorizon), PlayerIds(picks));
    if |projections| > 0 && TotalXPts(projections) / |projections| as real < 15.0 {
      confidence := confidence + 30;
      expectedValue := expectedValue + 15;
    }
    assert confidence == WildcardConfidence(|unavailable|, ExpensiveBench(picks), LowAverage(projections));
    assert expectedValue == WildcardValue(|unavailable|, ExpensiveBench(picks), LowAverage(projections));
    if confidence < 50 {
      return None;
    }
    var trigger := if |unavailable| >= 4 then "Multiple injuries" else "Squad restructure needed";
    r := Some(ChipRecommendation(Wildcard, Min(confidence as real, 100.0), expectedValue as real, trigger));
  }

  /** The number of projections above 4 points. */
  function HighCount(projections: seq<Projection>): (n: nat)
    ensures n <= |projections|
  {
    if projections == [] then 0
    else HighCount(projections[..|projections| - 1]) + (if projections[|projections| - 1].totalXPts > 4.0 then 1 else 0)
  }

  /** evaluateBenchBoost: recommended exactly when the bench projects more
      than 12 points; the gain is that total, and the confidence, scaled
      from 18 points to 100 and capped at 90, gains 10 when two or more
      bench players project above 4, so it always lies in (66.6, 100]. */
  function BenchBoostOf(projections: seq<Projection>): (r: Option<ChipRecommendation>)
    ensures r.Some? <==> TotalXPts(projections) > 12.0
    ensures r.Some? ==> r.value.chip == BenchBoost && r.value.expectedValue == TotalXPts(projections) &&
                        200.0 / 3.0 < r.value.confidence <= 100.0
    ensures r.Some? && HighCount(projections) < 2 ==> r.value.confidence <= 90.0
  {
    var total := TotalXPts(projections);
    if total > 12.0 then
      var scaled := Min(total / 18.0 * 100.0, 90.0);
      var confidence := if HighCount(projections) >= 2 then scaled + 10.0 else scaled;
      Some(ChipRecommendation(BenchBoost, Min(confidence, 100.0), total, "Strong bench projection"))
    else None
  }

  function XPtsKey(p: Projection): real
  {
    p.totalXPts
  }

  /** evaluateTripleCaptain: the best starter projection, after a sort by
      projected points, largest first. */
  function TripleCaptainOf(projections: seq<Projection>): (r: Option<ChipRecommendation>)
    ensures r.Some? ==> r.value.chip == TripleCaptain && 200.0 / 3.0 < r.value.confidence <= 95.0
  {
    var sorted := Ordering.SortDesc(projections, XPtsKey);
    if |sorted| > 0 && sorted[0].totalXPts > 10.0 then
      var best := sorted[0].totalXPts;
      Some(ChipRecommendation(TripleCaptain, Min(best / 15.0 * 100.0, 95.0), best * 2.0, "Favorable single GW matchup"))
    else None
  }

  /** The triple captain is recommended exactly when some starter projects
      above 10 points; its gain is twice the best projection and its
      confidence, scaled from 15 points to 100 and capped at 95, lies in
      (66.6, 95]. */
  lemma TripleCaptainIsBest(projections: seq<Projection>)
    ensures var r := TripleCaptainOf(projections);
            (r.Some? <==> exists k :: 0 <= k < |projections| && projections[k].totalXPts > 10.0) &&
            (r.Some? ==> r.value.chip == TripleCaptain && 200.0 / 3.0 < r.value.confidence <= 95.0 &&
                         (exists k :: 0 <= k < |projections| && r.value.expectedValue == 2.0 * projections[k].totalXPts) &&
                         forall k :: 0 <= k < |projections| ==> r.value.expectedValue >= 2.0 * projections[k].totalXPts)
  {
    if |projections| > 0 {
      Ordering.HeadOfSortDescIsMax(projections, XPtsKey);
      var best := Ordering.SortDesc(projections, XPtsKey)[0];
      assert best in multiset(projections);
      var k :| 0 <= k < |projections| && projections[k] == best;
      assert XPtsKey(best) == best.totalXPts;
    }
  }

  /** The number of projections under one point: players likely to blank. */
  function BlankCount(projections: seq<Projection>): (n: nat)
    ensures n <= |projections|
  {
    if projections == [] then 0
    else BlankCount(projections[..|projections| - 1]) + (if projections[|projections| - 1].totalXPts < 1.0 then 1 else 0)
  }

  /** evaluateFreeHit: recommended exactly when six or more starters are
      likely to blank; five points per blank, and a confidence scaled from
      eleven blanks to 100, capped at 95, reached only at eleven. */
  function FreeHitOf(projections: seq<Projection>): (r: Option<ChipRecommendation>)
    ensures r.Some? <==> BlankCount(projections) >= 6
    ensures r.Some? ==> r.value.chip == FreeHit && r.value.expectedValue == 5.0 * BlankCount(projections) as real &&
                        600.0 / 11.0 <= r.value.confidence <= 95.0 &&
                        (r.value.confidence == 95.0 <==> BlankCount(projections) >= 11)
  {
    var blanking := BlankCount(projections);
    if blanking >= 6 then
      Some(ChipRecommendation(FreeHit, Min(blanking as real / 11.0 * 100.0, 95.0), (blanking * 5) as real,
                              "Blank Gameweek detected"))
    else None
  }

  /** Whether the squad still holds a chip. */
  predicate Available(squad: FantasyTeam, chip: Chip)
  {
    match chip
    case Wildcard => squad.wildcardAvailable
    case BenchBoost => squad.benchBoostAvailable
    case TripleCaptain => squad.tripleCaptainAvailable
    case FreeHit => squad.freeHitAvailable
  }

  /** Each chip's evaluation for the gameweek, on the projections it asks
      for: the squad over five gameweeks for the wildcard, the bench for the
      bench boost, the starting XI for the triple captain and the free hit. */
  function Evaluation(squad: FantasyTeam, currentGw: int, project: ProjectionSource, chip: Chip)
    : (r: Option<ChipRecommendation>)
    ensures r.Some? ==> r.value.chip == chip && 50.0 <= r.value.confidence <= 100.0
  {
    match chip
    case Wildcard => WildcardOf(squad.picks, WildcardProjections(squad.picks, currentGw, project))
    case BenchBoost => BenchBoostOf(project([currentGw], PlayerIds(Bench(squad.picks))))
    case TripleCaptain => TripleCaptainOf(project([currentGw], PlayerIds(StartingXI(squad.picks))))
    case FreeHit => FreeHitOf(project([currentGw], PlayerIds(StartingXI(squad.picks))))
  }

  /** The chips in the order they are checked. */
  const ChipOrder: seq<Chip> := [Wildcard, BenchBoost, TripleCaptain, FreeHit]

  /** What checking one chip adds to the list: its recommendation, when the
      chip is held and the evaluation produced one. */
  function Push(held: bool, r: Option<ChipRecommendation>): (pushed: seq<ChipRecommendation>)
    ensures pushed == [] <==> !held || r.None?
  {
    if held && r.Some? then [r.value] else []
  }

  /** The list built by checking `chips` in order. */
  function Collect(chips: seq<Chip>, held: Chip -> bool, evaluate: Chip -> Option<ChipRecommendation>)
    : (recs: seq<ChipRecommendation>)
    ensures |recs| <= |chips|
  {
    if chips == [] then []
    else
      var chip := chips[|chips| - 1];
      Collect(chips[..|chips| - 1], held, evaluate) + Push(held(chip), evaluate(chip))
  }

  /** A recommendation is collected exactly when some checked chip is held
      and its evaluation produced it. */
  lemma {:induction false} CollectExactly(chips: seq<Chip>, held: Chip -> bool, evaluate: Chip -> Option<ChipRecommendation>)
    ensures forall r :: r in Collect(chips, held, evaluate) <==>
                        exists k :: 0 <= k < |chips| && held(chips[k]) && evaluate(chips[k]) == Some(r)
  {
    if chips != [] {
      var init := chips[..|chips| - 1];
      CollectExactly(init, held, evaluate);
      forall r
        ensures r in Collect(chips, held, evaluate) <==>
                exists k :: 0 <= k < |chips| && held(chips[k]) && evaluate(chips[k]) == Some(r)
      {
        if exists k :: 0 <= k < |chips| && held(chips[k]) && evaluate(chips[k]) == Some(r) {
          var k :| 0 <= k < |chips| && held(chips[k]) && evaluate(chips[k]) == Some(r);
          if k < |init| {
            assert init[k] == chips[k];
          }
        }
        if exists k :: 0 <= k < |init| && held(init[k]) && evaluate(init[k]) == Some(r) {
          var k :| 0 <= k < |init| && held(init[k]) && evaluate(init[k]) == Some(r);
          assert chips[k] == init[k];
        }
      }
    }
  }

  /** The list before the sort, in the order the chips are checked. */
  function Candidates(squad: FantasyTeam, currentGw: int, project: ProjectionSource): seq<ChipRecommendation>
  {
    Collect(ChipOrder, chip => Available(squad, chip), chip => Evaluation(squad, currentGw, project, chip))
  }

  /** The candidates written out chip by chip. */
  lemma CandidatesInOrder(squad: FantasyTeam, currentGw: int, project: ProjectionSource)
    ensures Candidates(squad, currentGw, project) ==
            Push(squad.wildcardAvailable, Evaluation(squad, currentGw, project, Wildcard)) +
            Push(squad.benchBoostAvailable, Evaluation(squad, currentGw, project, BenchBoost)) +
            Push(squad.tripleCaptainAvailable, Evaluation(squad, currentGw, project, TripleCaptain)) +
            Push(squad.freeHitAvailable, Evaluation(squad, currentGw, project, FreeHit))
  {
    var held := chip => Available(squad, chip);
    var evaluate := chip => Evaluation(squad, currentGw, project, chip);
    var one, two, three := [Wildcard], [Wildcard, BenchBoost], [Wildcard, BenchBoost, TripleCaptain];
    assert one[..0] == [] && two[..1] == one && three[..2] == two && ChipOrder[..3] == three;
    assert Collect(one, held, evaluate) == Push(held(Wildcard), evaluate(Wildcard));
    assert Collect(two, held, evaluate) == Collect(one, held, evaluate) + Push(held(BenchBoost), evaluate(BenchBoost));
    assert Collect(three, held, evaluate) == Collect(two, held, evaluate) + Push(held(TripleCaptain), evaluate(TripleCaptain));
    assert Collect(ChipOrder, held, evaluate) == Collect(three, held, evaluate) + Push(held(FreeHit), evaluate(FreeHit));
  }

  function Confidence(r: ChipRecommendation): real
  {
    r.confidence
  }

  /** analyzeChipOpportunities as a value: nothing without a squad or a
      next gameweek; otherwise the candidates sorted by confidence, largest
      first, ties in checking order. */
  function ChipOpportunities(team: Option<FantasyTeam>, nextEvent: Option<int>, project: ProjectionSource)
    : (recs: seq<ChipRecommendation>)
    ensures team.None? || nextEvent.None? ==> recs == []
  {
    if team.None? || nextEvent.None? then []
    else Ordering.SortDesc(Candidates(team.value, nextEvent.value, project), Confidence)
  }

  /** The body of analyzeChipOpportunities between the guards and the
      sort: each chip the squad holds is evaluated in turn and its
      recommendation pushed. */
  method CollectRecommendations(squad: FantasyTeam, currentGw: int, project: ProjectionSource)
    returns (recommendations: seq<ChipRecommendation>)
    ensures recommendations ==
            Push(squad.wildcardAvailable, Evaluation(squad, currentGw, project, Wildcard)) +
            Push(squad.benchBoostAvailable, Evaluation(squad, currentGw, project, BenchBoost)) +
            Push(squad.tripleCaptainAvailable, Evaluation(squad, currentGw, project, TripleCaptain)) +
            Push(squad.freeHitAvailable, Evaluation(squad, currentGw, project, FreeHit))
  {
    recommendations := [];
    ghost var wildcard := Evaluation(squad, currentGw, project, Wildcard);
    if squad.wildcardAvailable {
      var wcRec := EvaluateWildcard(squad.picks, currentGw, project);
      assert wcRec == wildcard;
      if wcRec.Some? {
        recommendations := recommendations + [wcRec.value];
      }
    }
    assert recommendations == Push(squad.wildcardAvailable, wildcard);

    ghost var afterWildcard, benchBoost := recommendations, Evaluation(squad, currentGw, project, BenchBoost);
    if squad.benchBoostAvailable {
      var bbRec := BenchBoostOf(project([currentGw], PlayerIds(Bench(squad.picks))));
      assert bbRec == benchBoost;
      if bbRec.Some? {
        recommendations := recommendations + [bbRec.value];
      }
    }
    assert recommendations == afterWildcard + Push(squad.benchBoostAvailable, benchBoost);

    ghost var afterBenchBoost, tripleCaptain := recommendations, Evaluation(squad, currentGw, project, TripleCaptain);
    if squad.tripleCaptainAvailable {
      var tcRec := TripleCaptainOf(project([currentGw], PlayerIds(StartingXI(squad.picks))));
      assert tcRec == tripleCaptain;
      if tcRec.Some? {
        recommendations := recommendations + [tcRec.value];
      }
    }
    assert recommendations == afterBenchBoost + Push(squad.tripleCaptainAvailable, tripleCaptain);

    ghost var afterTripleCaptain, freeHit := recommendations, Evaluation(squad, currentGw, project, FreeHit);
    if squad.freeHitAvailable {
      var fhRec := FreeHitOf(project([currentGw], PlayerIds(StartingXI(squad.picks))));
      assert fhRec == freeHit;
      if fhRec.Some? {
        recommendations := recommendations + [fhRec.value];
      }
    }
    assert recommendations == afterTripleCaptain + Push(squad.freeHitAvailable, freeHit);
  }

  /** analyzeChipOpportunities: each available chip is evaluated in turn and
      pushed when recommended; the list is then sorted. */
  method AnalyzeChipOpportunities(team: Option<FantasyTeam>, nextEvent: Option<int>, project: ProjectionSource)
    returns (recs: seq<ChipRecommendation>)
    ensures recs == ChipOpportunities(team, nextEvent, project)
  {
    if team.None? {
      return [];
    }
    var squad := team.value;
    if nextEvent.None? {
      return [];
    }
    var recommendations := CollectRecommendations(squad, nextEvent.value, project);
    CandidatesInOrder(squad, nextEvent.value, project);
    recs := Ordering.SortDesc(recommendations, Confidence);
  }

  /** The candidates before the sort: at most one per chip, each produced
      by the evaluation of an available chip, and every such evaluation
      present. */
  lemma CandidatesExactly(squad: FantasyTeam, currentGw: int, project: ProjectionSource)
    ensures |Candidates(squad, currentGw, project)| <= 4
    ensures forall r :: r in Candidates(squad, currentGw, project) <==>
                        exists chip :: Available(squad, chip) && Evaluation(squad, currentGw, project, chip) == Some(r)
  {
    var held := chip => Available(squad, chip);
    var evaluate := chip => Evaluation(squad, currentGw, project, chip);
    CollectExactly(ChipOrder, held, evaluate);
    forall r
      ensures r in Candidates(squad, currentGw, project) <==>
              exists chip :: Available(squad, chip) && Evaluation(squad, currentGw, project, chip) == Some(r)
    {
      if exists chip :: Available(squad, chip) && Evaluation(squad, currentGw, project, chip) == Some(r) {
        var chip :| Available(squad, chip) && Evaluation(squad, currentGw, project, chip) == Some(r);
        var k := match chip case Wildcard => 0 case BenchBoost => 1 case TripleCaptain => 2 case FreeHit => 3;
        assert ChipOrder[k] == chip;
        assert held(ChipOrder[k]) && evaluate(ChipOrder[k]) == Some(r);
      }
    }
  }

  /** The list holds at most four recommendations, sorted by confidence,
      largest first, each for a chip the squad still holds, with a
      confidence between 50 and 100; a recommendation is in the list
      exactly when its chip is available and its evaluation produced it. */
  lemma ChipOpportunitiesShape(squad: FantasyTeam, currentGw: int, project: ProjectionSource)
    ensures var recs := ChipOpportunities(Some(squad), Some(currentGw), project);
            |recs| <= 4 &&
            Ordering.SortedDesc(recs, Confidence) &&
            (forall k :: 0 <= k < |recs| ==>
               Available(squad, recs[k].chip) && 50.0 <= recs[k].confidence <= 100.0) &&
            (forall r :: r in recs <==>
               exists chip :: Available(squad, chip) && Evaluation(squad, currentGw, project, chip) == Some(r))
  {
    var c := Candidates(squad, currentGw, project);
    var recs := ChipOpportunities(Some(squad), Some(currentGw), project);
    CandidatesExactly(squad, currentGw, project);
    assert multiset(recs) == multiset(c);
    forall r
      ensures r in recs <==> r in c
    {
      assert r in recs <==> r in multiset(recs);
      assert r in c <==> r in multiset(c);
    }
    forall k | 0 <= k < |recs|
      ensures Available(squad, recs[k].chip) && 50.0 <= recs[k].confidence <= 100.0
    {
      assert recs[k] in c;
      var chip :| Available(squad, chip) && Evaluation(squad, currentGw, project, chip) == Some(recs[k]);
    }
  }
}
