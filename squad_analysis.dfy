/** Squad analysis: the problems in a user's latest squad (unavailable
    players, money idle on the bench, premium starters projected to score
    little over the next three gameweeks) and a health score out of 100
    with a verdict. */
module SquadAnalysis {
  import opened Domain
  import opened Squad

  /** LowXPts belongs to the service's problem type but is never raised. */
  datatype ProblemKind = Injury | BenchValue | FixtureRisk | LowXPts

  datatype Severity = High | Medium | Low

  /** A problem; its message text is not modelled. */
  datatype Problem = Problem(kind: ProblemKind, severity: Severity, playerId: Option<int>, playerName: Option<string>)

  /** "Critical Attention Needed", "Needs Improvement", "Good", "Excellent". */
  datatype Verdict = CriticalAttentionNeeded | NeedsImprovement | Good | Excellent

  datatype Breakdown = Breakdown(availability: int, fixtures: int, form: int)

  datatype Health = Health(score: int, verdict: Verdict, breakdown: Breakdown)

  datatype Analysis = Analysis(health: Health, problems: seq<Problem>)

  /** Bench money above 22.0m (in tenths) is a problem. */
  const BenchValueLimit := 220

  /** A premium player costs more than 8.0m. */
  const PremiumCost := 80

  /** Under 10 points over three gameweeks is a low projection. */
  const LowProjection := 10.0

  /** The gameweeks the fixture check projects. */
  const FixtureWindow := 3

  /** The problem raised for an unavailable pick: HIGH for a starter,
      MEDIUM on the bench. */
  function InjuryProblem(p: Pick): Problem
  {
    Problem(Injury, if IsStarter(p) then High else Medium, Some(p.player.id), Some(p.player.webName))
  }

  /** One INJURY problem per unavailable pick, in squad order. */
  function InjuryProblems(picks: seq<Pick>): (ps: seq<Problem>)
    ensures |ps| == |Unavailables(picks)|
  {
    var u := Unavailables(picks);
    seq(|u|, k requires 0 <= k < |u| => InjuryProblem(u[k]))
  }

  /** The availability points lost: 15 per unavailable starter and 5 per
      unavailable bench player; so between 5 and 15 per unavailable pick. */
  function AvailabilityLoss(picks: seq<Pick>): (loss: int)
    ensures 5 * |Unavailables(picks)| <= loss <= 15 * |Unavailables(picks)|
  {
    var u := Unavailables(picks);
    StartersAndBench(u);
    15 * |StartingXI(u)| + 5 * |Bench(u)|
  }

  /** Both follow the availability loop one pick at a time. */
  lemma InjuryStep(picks: seq<Pick>, p: Pick)
    ensures InjuryProblems(picks + [p]) ==
            InjuryProblems(picks) + (if Unavailable(p.player) then [InjuryProblem(p)] else [])
    ensures AvailabilityLoss(picks + [p]) ==
            AvailabilityLoss(picks) + (if !Unavailable(p.player) then 0 else if IsStarter(p) then 15 else 5)
  {
    assert (picks + [p])[..|picks|] == picks;
    var u := Unavailables(picks);
    if Unavailable(p.player) {
      assert Unavailables(picks + [p]) == u + [p];
      assert (u + [p])[..|u|] == u;
    } else {
      assert Unavailables(picks + [p]) == u;
    }
  }

  /** One turn of the availability loop, stated on the loop's variables. */
  lemma AvailabilityTurn(picks: seq<Pick>, i: nat, problems: seq<Problem>, score: int)
    requires i < |picks|
    requires problems == InjuryProblems(picks[..i]) && score == 100 - AvailabilityLoss(picks[..i])
    ensures var p := picks[i];
            var isStarter := p.position <= 11;
            var problems' := if Unavailable(p.player)
                             then problems + [Problem(Injury, if isStarter then High else Medium,
                                                      Some(p.player.id), Some(p.player.webName))]
                             else problems;
            var score' := if Unavailable(p.player) then score - (if isStarter then 15 else 5) else score;
            problems' == InjuryProblems(picks[..i + 1]) && score' == 100 - AvailabilityLoss(picks[..i + 1])
  {
    assert picks[..i + 1] == picks[..i] + [picks[i]];
    InjuryStep(picks[..i], picks[i]);
  }

  /** The bench reduce: the selling value of every bench pick, summed. */
  function SellingTotal(bench: seq<Pick>): int
  {
    if bench == [] then 0 else SellingTotal(bench[..|bench| - 1]) + SellingValue(bench[|bench| - 1])
  }

  /** `nowCost > 80 && totalXPts < 10`. */
  predicate PremiumAtRisk(player: Player, proj: Projection)
  {
    player.nowCost > PremiumCost && proj.totalXPts < LowProjection
  }

  /** The starters flagged by the fixture loop: for each projection in
      turn, the first starting pick of that player, when there is one and
      it is a premium projected low. */
  function RiskyStarters(xi: seq<Pick>, projections: seq<Projection>): (rs: seq<Player>)
    ensures |rs| <= |projections|
  {
    if projections == [] then []
    else
      var proj := projections[|projections| - 1];
      var found := FindPick(xi, proj.playerId);
      RiskyStarters(xi, projections[..|projections| - 1]) +
        (if found.Some? && PremiumAtRisk(found.value.player, proj) then [found.value.player] else [])
  }

  function FixtureProblem(player: Player): Problem
  {
    Problem(FixtureRisk, Low, Some(player.id), Some(player.webName))
  }

  /** One FIXTURE_RISK problem per flagged starter. */
  function FixtureProblems(xi: seq<Pick>, projections: seq<Projection>): (ps: seq<Problem>)
    ensures |ps| == |RiskyStarters(xi, projections)|
  {
    var rs := RiskyStarters(xi, projections);
    seq(|rs|, k requires 0 <= k < |rs| => FixtureProblem(rs[k]))
  }

  lemma FixtureStep(xi: seq<Pick>, projections: seq<Projection>, proj: Projection)
    ensures var found := FindPick(xi, proj.playerId);
            var flagged := found.Some? && PremiumAtRisk(found.value.player, proj);
            RiskyStarters(xi, projections + [proj]) ==
              RiskyStarters(xi, projections) + (if flagged then [found.value.player] else []) &&
            FixtureProblems(xi, projections + [proj]) ==
              FixtureProblems(xi, projections) + (if flagged then [FixtureProblem(found.value.player)] else [])
  {
    assert (projections + [proj])[..|projections|] == projections;
  }

  /** The projections for the fixture check: none without a next event,
      otherwise the starting XI over the three gameweeks from it. */
  function FixtureProjections(xi: seq<Pick>, nextEvent: Option<int>, project: ProjectionSource): seq<Projection>
  {
    if nextEvent.None? then [] else project(GameweeksFrom(nextEvent.value, FixtureWindow), PlayerIds(xi))
  }

  const BenchProblem := Problem(BenchValue, Medium, None, None)

  /** The verdict bands: below 50, below 70, below 85, and the rest. */
  function VerdictFor(score: int): (v: Verdict)
    ensures v == CriticalAttentionNeeded <==> score < 50
    ensures v == NeedsImprovement <==> 50 <= score < 70
    ensures v == Good <==> 70 <= score < 85
    ensures v == Excellent <==> 85 <= score
  {
    if score < 50 then CriticalAttentionNeeded
    else if score < 70 then NeedsImprovement
    else if score < 85 then Good
    else Excellent
  }

  /** The 40/30/30 weighting of the three scores. */
  function Weighted(availability: int, fixtures: int, form: int): real
  {
    availability as real * 0.4 + fixtures as real * 0.3 + form as real * 0.3
  }

  /** The same weighting in tenths of a point. */
  function WeightedTenths(availability: int, fixtures: int, form: int): int
  {
    4 * availability + 3 * fixtures + 3 * form
  }

  /** `Math.round` of the weighted score, rounding half up, is the weighted
      score in tenths plus 5, divided by 10 and rounded down. */
  lemma RoundWeighted(availability: int, fixtures: int, form: int)
    ensures Round(Weighted(availability, fixtures, form)) == (WeightedTenths(availability, fixtures, form) + 5) / 10
  {
    var t := WeightedTenths(availability, fixtures, form);
    var w := Weighted(availability, fixtures, form);
    assert w == t as real / 10.0;
    var r := Round(w);
    var q := (t + 5) / 10;
    assert 10 * q <= t + 5 < 10 * q + 10;
    assert t as real - 5.0 < 10.0 * r as real <= t as real + 5.0;
    assert t - 5 < 10 * r <= t + 5;
  }

  function NonNegative(x: int): (r: int)
    ensures r >= 0 && r >= x && (r == 0 || r == x)
  {
    if x < 0 then 0 else x
  }

  /** The health: the weighted score of the three UNCLAMPED scores, rounded
      half up and clipped to [0, 100]; the breakdown shows each score
      floored at 0. */
  function HealthOf(availability: int, fixtures: int, form: int): (h: Health)
    ensures 0 <= h.score <= 100
    ensures h.verdict == VerdictFor(h.score)
    ensures h.breakdown == Breakdown(NonNegative(availability), NonNegative(fixtures), NonNegative(form))
  {
    var score := (WeightedTenths(availability, fixtures, form) + 5) / 10;
    var clipped := if score > 100 then 100 else if score < 0 then 0 else score;
    Health(clipped, VerdictFor(clipped),
           Breakdown(NonNegative(availability), NonNegative(fixtures), NonNegative(form)))
  }

  /** Inside [0, 100] the score is the weighted score rounded: within half
      a point of it. */
  lemma HealthNearWeighted(availability: int, fixtures: int, form: int)
    ensures var w := Weighted(availability, fixtures, form);
            0.0 <= w <= 100.0 ==> w - 0.5 < HealthOf(availability, fixtures, form).score as real <= w + 0.5
  {
    RoundWeighted(availability, fixtures, form);
  }

  /** More than 22.0m of selling value on the bench. */
  predicate HeavyBench(picks: seq<Pick>)
  {
    SellingTotal(Bench(picks)) > BenchValueLimit
  }

  /** The scores after the three checks. */
  function AvailabilityScore(picks: seq<Pick>): int
  {
    100 - AvailabilityLoss(picks)
  }

  function FormScore(picks: seq<Pick>): int
  {
    if HeavyBench(picks) then 90 else 100
  }

  function FixturesScore(xi: seq<Pick>, projections: seq<Projection>): int
  {
    100 - 5 * |RiskyStarters(xi, projections)|
  }

  /** The problems in the order they are raised: injuries, the bench, the
      fixtures. */
  function SquadProblems(picks: seq<Pick>, projections: seq<Projection>): seq<Problem>
  {
    InjuryProblems(picks) + (if HeavyBench(picks) then [BenchProblem] else []) +
      FixtureProblems(StartingXI(picks), projections)
  }

  function SquadHealth(picks: seq<Pick>, projections: seq<Projection>): Health
  {
    HealthOf(AvailabilityScore(picks), FixturesScore(StartingXI(picks), projections), FormScore(picks))
  }

  /** analyzeSquad as a value: "User squad not found" without a squad;
      otherwise the problems and the health of the three scores. */
  function SquadAnalysisOf(team: Option<FantasyTeam>, nextEvent: Option<int>, project: ProjectionSource)
    : (r: Result<Analysis>)
    ensures team.None? <==> r.Err?
    ensures r.Ok? ==> 0 <= r.value.health.score <= 100
    ensures r.Ok? ==> var b := r.value.health.breakdown;
                      0 <= b.availability <= 100 && 0 <= b.fixtures <= 100 && 0 <= b.form <= 100
    ensures r.Ok? && nextEvent.None? ==> r.value.health.breakdown.fixtures == 100
  {
    if team.None? then Err("User squad not found")
    else
      var picks := team.value.picks;
      var projections := FixtureProjections(StartingXI(picks), nextEvent, project);
      Ok(Analysis(SquadHealth(picks, projections), SquadProblems(picks, projections)))
  }

  /** Section A of analyzeSquad: one INJURY problem per unavailable pick,
      15 availability points off per unavailable starter and 5 per
      unavailable bench player. */
  method CheckAvailability(picks: seq<Pick>) returns (problems: seq<Problem>, availabilityScore: int)
    ensures problems == InjuryProblems(picks)
    ensures availabilityScore == AvailabilityScore(picks)
  {
    problems := [];
    availabilityScore := 100;
    var i := 0;
    while i < |picks|
      invariant 0 <= i <= |picks|
      invariant problems == InjuryProblems(picks[..i])
      invariant availabilityScore == 100 - AvailabilityLoss(picks[..i])
    {
      AvailabilityTurn(picks, i, problems, availabilityScore);
      var pick := picks[i];
      if Unavailable(pick.player) {
        var isStarter := pick.position <= 11;
        problems := problems + [Problem(Injury, if isStarter then High else Medium,
                                        Some(pick.player.id), Some(pick.player.webName))];
        availabilityScore := availabilityScore - (if isStarter then 15 else 5);
      }
      i := i + 1;
    }
    assert picks[..i] == picks;
  }

  /** Section C of analyzeSquad: for each projection, the first starting
      pick of that player, if any; a premium projected low adds a
      FIXTURE_RISK problem and costs 5 fixture points. */
  method CheckFixtures(startingXI: seq<Pick>, projections: seq<Projection>, problems0: seq<Problem>)
    returns (problems: seq<Problem>, fixturesScore: int)
    ensures problems == problems0 + FixtureProblems(startingXI, projections)
    ensures fixturesScore == FixturesScore(startingXI, projections)
  {
    problems := problems0;
    fixturesScore := 100;
    var j := 0;
    while j < |projections|
      invariant 0 <= j <= |projections|
      invariant problems == problems0 + FixtureProblems(startingXI, projections[..j])
      invariant fixturesScore == 100 - 5 * |RiskyStarters(startingXI, projections[..j])|
    {
      var proj := projections[j];
      assert projections[..j + 1] == projections[..j] + [proj];
      FixtureStep(startingXI, projections[..j], proj);
      var found := FindPick(startingXI, proj.playerId);
      if found.Some? {
        var player := found.value.player;
        if player.nowCost > PremiumCost && proj.totalXPts < LowProjection {
          problems := problems + [FixtureProblem(player)];
          fixturesScore := fixturesScore - 5;
        }
      }
      j := j + 1;
    }
    assert projections[..j] == projections;
  }

  /** analyzeSquad: the availability loop over every pick, the bench sum,
      the fixture loop over the starters' projections, then the health. */
  method AnalyzeSquad(team: Option<FantasyTeam>, nextEvent: Option<int>, project: ProjectionSource)
    returns (r: Result<Analysis>)
    ensures r == SquadAnalysisOf(team, nextEvent, project)
  {
    if team.None? {
      return Err("User squad not found");
    }
    var squad := team.value;
    var startingXI := StartingXI(squad.picks);
    var bench := Bench(squad.picks);
    var problems, availabilityScore := CheckAvailability(squad.picks);
    ghost var injuries := problems;

    var formScore := 100;
    var benchValue := SellingTotal(bench);
    if benchValue > BenchValueLimit {
      problems := problems + [BenchProblem];
      formScore := formScore - 10;
    } else {
      assert problems == injuries + [];
    }
    assert formScore == FormScore(squad.picks);

    var fixturesScore;
    var projections := FixtureProjections(startingXI, nextEvent, project);
    problems, fixturesScore := CheckFixtures(startingXI, projections, problems);
    assert problems == SquadProblems(squad.picks, projections);

    var health := FinalHealth(availabilityScore, fixturesScore, formScore);
    assert health == SquadHealth(squad.picks, projections);
    r := Ok(Analysis(health, problems));
  }

  /** Section 3 of analyzeSquad: the weighted score rounded and clipped,
      the verdict ladder and the breakdown floored at 0. */
  method FinalHealth(availabilityScore: int, fixturesScore: int, formScore: int) returns (h: Health)
    ensures h == HealthOf(availabilityScore, fixturesScore, formScore)
  {
    RoundWeighted(availabilityScore, fixturesScore, formScore);
    var healthScore := Round(availabilityScore as real * 0.4 + fixturesScore as real * 0.3 + formScore as real * 0.3);
    healthScore := if healthScore > 100 then 100 else if healthScore < 0 then 0 else healthScore;
    var verdict := Excellent;
    if healthScore < 50 {
      verdict := CriticalAttentionNeeded;
    } else if healthScore < 70 {
      verdict := NeedsImprovement;
    } else if healthScore < 85 {
      verdict := Good;
    }
    var breakdown := Breakdown(if availabilityScore < 0 then 0 else availabilityScore,
                               if fixturesScore < 0 then 0 else fixturesScore,
                               if formScore < 0 then 0 else formScore);
    h := Health(healthScore, verdict, breakdown);
  }

  /** The number of problems of one kind. */
  function CountKind(problems: seq<Problem>, kind: ProblemKind): (n: nat)
    ensures n <= |problems|
  {
    if problems == [] then 0
    else CountKind(problems[..|problems| - 1], kind) + (if problems[|problems| - 1].kind == kind then 1 else 0)
  }

  lemma {:induction false} CountKindAppend(a: seq<Problem>, b: seq<Problem>, kind: ProblemKind)
    ensures CountKind(a + b, kind) == CountKind(a, kind) + CountKind(b, kind)
    decreases |b|
  {
    if b != [] {
      assert (a + b)[..|a + b| - 1] == a + b[..|b| - 1];
      assert (a + b)[|a + b| - 1] == b[|b| - 1];
      CountKindAppend(a, b[..|b| - 1], kind);
    } else {
      assert a + b == a;
    }
  }

  lemma {:induction false} CountAllOfKind(ps: seq<Problem>, kind: ProblemKind)
    requires forall k :: 0 <= k < |ps| ==> ps[k].kind == kind
    ensures CountKind(ps, kind) == |ps|
    ensures forall other :: other != kind ==> CountKind(ps, other) == 0
  {
    if ps != [] {
      CountAllOfKind(ps[..|ps| - 1], kind);
    }
  }

  /** The problems are one INJURY per unavailable pick, one BENCH_VALUE
      when the bench holds more than 22.0m, one FIXTURE_RISK per flagged
      starter, and never LOW_XPTS. */
  lemma ProblemCounts(picks: seq<Pick>, projections: seq<Projection>)
    ensures var ps := SquadProblems(picks, projections);
            CountKind(ps, Injury) == |Unavailables(picks)| &&
            CountKind(ps, BenchValue) == (if HeavyBench(picks) then 1 else 0) &&
            CountKind(ps, FixtureRisk) == |RiskyStarters(StartingXI(picks), projections)| &&
            CountKind(ps, LowXPts) == 0
  {
    var injuries := InjuryProblems(picks);
    var benchPart: seq<Problem> := if HeavyBench(picks) then [BenchProblem] else [];
    var fixtures := FixtureProblems(StartingXI(picks), projections);
    CountAllOfKind(injuries, Injury);
    CountAllOfKind(benchPart, BenchValue);
    CountAllOfKind(fixtures, FixtureRisk);
    forall kind | true
      ensures CountKind(injuries + benchPart + fixtures, kind) ==
              CountKind(injuries, kind) + CountKind(benchPart, kind) + CountKind(fixtures, kind)
    {
      CountKindAppend(injuries, benchPart, kind);
      CountKindAppend(injuries + benchPart, fixtures, kind);
    }
  }

  /** The INJURY problems are exactly those of the unavailable or doubtful
      picks: HIGH for a starter, MEDIUM on the bench. */
  lemma InjuryProblemsExactly(picks: seq<Pick>)
    ensures forall q :: q in InjuryProblems(picks) <==>
                        exists p :: p in picks && Unavailable(p.player) && q == InjuryProblem(p)
  {
    var u := Unavailables(picks);
    UnavailablesExactly(picks);
    forall q | q in InjuryProblems(picks)
      ensures exists p :: p in picks && Unavailable(p.player) && q == InjuryProblem(p)
    {
      var k :| 0 <= k < |u| && InjuryProblems(picks)[k] == q;
      assert u[k] in u;
    }
    forall p | p in picks && Unavailable(p.player)
      ensures InjuryProblem(p) in InjuryProblems(picks)
    {
      var k :| 0 <= k < |u| && u[k] == p;
      assert InjuryProblems(picks)[k] == InjuryProblem(p);
    }
  }

  /** With no unavailable pick, at most 22.0m on the bench and no flagged
      starter the score is a clean 100; any problem brings it below. */
  lemma PerfectIffNoProblems(picks: seq<Pick>, projections: seq<Projection>)
    ensures SquadHealth(picks, projections).score == 100 <==> SquadProblems(picks, projections) == []
  {
    var xi := StartingXI(picks);
    var a := AvailabilityScore(picks);
    var f := FixturesScore(xi, projections);
    var form := FormScore(picks);
    if SquadProblems(picks, projections) == [] {
      assert |Unavailables(picks)| == 0;
      assert WeightedTenths(a, f, form) == 1000;
    } else {
      assert |Unavailables(picks)| > 0 || HeavyBench(picks) || |RiskyStarters(xi, projections)| > 0;
      WeightedBelowPerfect(a, f, form);
    }
  }

  lemma WeightedBelowPerfect(a: int, f: int, form: int)
    requires a <= 100 && f <= 100 && form <= 100
    requires a <= 95 || f <= 95 || form <= 90
    ensures HealthOf(a, f, form).score <= 99
  {
  }
}
