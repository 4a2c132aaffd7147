/** The user's squad as the squad analysis, chip strategy and transfer
    advisor services read it: the latest fantasy team with its picks, each
    pick carrying its player, and the projections the prediction service
    returns for a list of gameweeks and players. */
module Squad {
  import opened Domain

  /** A player row as the services read it. */
  datatype Player = Player(
    id: int,
    fplId: int,
    webName: string,
    position: Position,
    status: string,
    chanceOfPlaying: Option<int>,
    nowCost: int,
    form: real)

  /** One pick; `position` is the squad slot, 1-11 for the starting XI and
      12-15 for the bench. `sellingPrice` is absent on older rows. */
  datatype Pick = Pick(playerId: int, position: int, sellingPrice: Option<int>, player: Player)

  /** The latest fantasy team of a user, with its bank and chip flags. */
  datatype FantasyTeam = FantasyTeam(
    gameweek: int,
    bank: int,
    picks: seq<Pick>,
    wildcardAvailable: bool,
    benchBoostAvailable: bool,
    tripleCaptainAvailable: bool,
    freeHitAvailable: bool)

  /** One player's expected points summed over the requested gameweeks. */
  datatype Projection = Projection(playerId: int, totalXPts: real)

  /** `getProjections(gameweeks, { playerIds })` of the prediction service,
      which these services call and whose internals are not modelled here. */
  type ProjectionSource = (seq<int>, seq<int>) -> seq<Projection>

  predicate IsStarter(p: Pick)
  {
    p.position <= 11
  }

  /** `picks.filter(p => p.position <= 11)`. */
  function StartingXI(picks: seq<Pick>): (xi: seq<Pick>)
    ensures |xi| <= |picks|

  {
    if picks == [] then []
    else StartingXI(picks[..|picks| - 1]) + (if IsStarter(picks[|picks| - 1]) then [picks[|picks| - 1]] else [])
  }

  /** `picks.filter(p => p.position > 11)`. */
  function Bench(picks: seq<Pick>): (b: seq<Pick>)
    ensures |b| <= |picks|

  {
    if picks == [] then []
    else Bench(picks[..|picks| - 1]) + (if IsStarter(picks[|picks| - 1]) then [] else [picks[|picks| - 1]])
  }

  /** The starting XI and the bench split the picks between them. */
  lemma {:induction false} StartersAndBench(picks: seq<Pick>)
    ensures |StartingXI(picks)| + |Bench(picks)| == |picks|
  {
    if picks != [] {
      StartersAndBench(picks[..|picks| - 1]);
    }
  }

  /** The starting XI holds exactly the picks in slots 1-11, the bench
      exactly the others. */
  lemma {:induction false} SplitExactly(picks: seq<Pick>)
    ensures forall p :: p in StartingXI(picks) <==> p in picks && IsStarter(p)
    ensures forall p :: p in Bench(picks) <==> p in picks && !IsStarter(p)
  {
    if picks != [] {
      var init := picks[..|picks| - 1];
      SplitExactly(init);
      assert picks == init + [picks[|picks| - 1]];
    }
  }

  /** `status !== 'a' || (chanceOfPlaying !== null && chanceOfPlaying < 75)`:
      the availability test shared by the squad analysis and the wildcard. */
  predicate Unavailable(p: Player)
  {
    p.status != "a" || (p.chanceOfPlaying.Some? && p.chanceOfPlaying.value < 75)
  }

  /** The picks whose player is unavailable or doubtful, in squad order. */
  function Unavailables(picks: seq<Pick>): (u: seq<Pick>)
    ensures |u| <= |picks|

  {
    if picks == [] then []
    else
      var last := picks[|picks| - 1];
      Unavailables(picks[..|picks| - 1]) + (if Unavailable(last.player) then [last] else [])
  }

  /** The filter keeps exactly the unavailable or doubtful picks. */
  lemma {:induction false} UnavailablesExactly(picks: seq<Pick>)
    ensures forall p :: p in Unavailables(picks) <==> p in picks && Unavailable(p.player)
  {
    if picks != [] {
      var init := picks[..|picks| - 1];
      UnavailablesExactly(init);
      assert picks == init + [picks[|picks| - 1]];
    }
  }

  /** `(p as any).sellingPrice || p.player.nowCost`: a missing or zero
      selling price falls back to the current price. */
  function SellingValue(p: Pick): int
  {
    if p.sellingPrice.Some? && p.sellingPrice.value != 0 then p.sellingPrice.value else p.player.nowCost
  }

  /** `picks.map(p => p.playerId)`. */
  function PlayerIds(picks: seq<Pick>): (ids: seq<int>)
    ensures |ids| == |picks|
    ensures forall k :: 0 <= k < |picks| ==> ids[k] == picks[k].playerId
  {
    seq(|picks|, k requires 0 <= k < |picks| => picks[k].playerId)
  }

  /** `Array.from({ length: n }, (_, i) => start + i)`. */
  function GameweeksFrom(start: int, n: nat): (gws: seq<int>)
    ensures |gws| == n
    ensures forall k :: 0 <= k < n ==> gws[k] == start + k
  {
    seq(n, k => start + k)
  }

  /** The projected points of each projection, in order. */
  function XPts(projections: seq<Projection>): (xs: seq<real>)
    ensures |xs| == |projections|
    ensures forall k :: 0 <= k < |xs| ==> xs[k] == projections[k].totalXPts
  {
    seq(|projections|, k requires 0 <= k < |projections| => projections[k].totalXPts)
  }

  /** `projections.reduce((sum, p) => sum + p.totalXPts, 0)`. */
  function TotalXPts(projections: seq<Projection>): real
  {
    Sum(XPts(projections))
  }

  /** `xs.findIndex(p => p.playerId === id)`, None for -1. */
  function PickIndex(xs: seq<Pick>, id: int): (r: Option<nat>)
    ensures r.Some? ==> r.value < |xs| && xs[r.value].playerId == id &&
                        forall j :: 0 <= j < r.value ==> xs[j].playerId != id
    ensures r.None? <==> forall k :: 0 <= k < |xs| ==> xs[k].playerId != id
  {
    if xs == [] then None
    else if xs[0].playerId == id then Some(0)
    else
      var rest := PickIndex(xs[1..], id);
      assert forall k :: 1 <= k < |xs| ==> xs[k] == xs[1..][k - 1];
      if rest.Some? then Some(rest.value + 1) else None
  }

  /** `xs.find(p => p.playerId === id)`: the first pick of that player. */
  function FindPick(xs: seq<Pick>, id: int): (r: Option<Pick>)
    ensures r.Some? <==> PickIndex(xs, id).Some?
    ensures r.Some? ==> r.value == xs[PickIndex(xs, id).value]
  {
    match PickIndex(xs, id)
    case None => None
    case Some(k) => Some(xs[k])
  }
}
