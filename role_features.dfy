/** Role features: per-90 output of a player when starting and when coming
    off the bench. */
module RoleFeatures {
  import opened Domain
  import opened PredictionUtils

  /** START_THRESHOLD: a match of 60 minutes or more counts as a start. */
  const StartThreshold: real := 60.0

  /** `(m.minutes || 0)`. */
  function MinutesOf(m: BasicMatchStat): real { m.minutes.GetOr(0.0) }

  function XgOf(m: BasicMatchStat): real { m.xG.GetOr(0.0) }

  function XaOf(m: BasicMatchStat): real { m.xA.GetOr(0.0) }

  predicate IsStart(m: BasicMatchStat) { MinutesOf(m) >= StartThreshold }

  predicate IsSub(m: BasicMatchStat) { 0.0 < MinutesOf(m) < StartThreshold }

  /** `matches.filter(p)`: the matches that pass, in order. */
  function Filter(matches: seq<BasicMatchStat>, p: BasicMatchStat -> bool): (r: seq<BasicMatchStat>)
    ensures |r| <= |matches|
    ensures forall m :: m in r <==> m in matches && p(m)
  {
    if matches == [] then []
    else (if p(matches[0]) then [matches[0]] else []) + Filter(matches[1..], p)
  }

  /** `matches.reduce((acc, m) => acc + f(m), 0)`. */
  function Total(matches: seq<BasicMatchStat>, f: BasicMatchStat -> real): real
  {
    if matches == [] then 0.0 else f(matches[0]) + Total(matches[1..], f)
  }

  datatype Role = Role(perStartXG: real, perSubXG: real, perStartXA: real, perSubXA: real)

  /** The xG and xA per 90 over one group of matches, 0 below 30 minutes. */
  function GroupPer90(group: seq<BasicMatchStat>): (r: (real, real))
    ensures Total(group, MinutesOf) < 30.0 ==> r == (0.0, 0.0)
    ensures var minutes := Total(group, MinutesOf);
            minutes >= 30.0 ==> r.0 * minutes == Total(group, XgOf) * 90.0 &&
                                r.1 * minutes == Total(group, XaOf) * 90.0
  {
    var minutes := Total(group, MinutesOf);
    (SafePer90(Some(Total(group, XgOf)), minutes, 30.0), SafePer90(Some(Total(group, XaOf)), minutes, 30.0))
  }

  /** buildRoleFeatures: the xG and xA per 90 over starts and over
      substitute appearances, each 0 below 30 minutes. */
  function BuildRoleFeatures(matches: seq<BasicMatchStat>): (r: Role)
    ensures Total(Filter(matches, IsStart), MinutesOf) < 30.0 ==> r.perStartXG == 0.0 && r.perStartXA == 0.0
    ensures Total(Filter(matches, IsSub), MinutesOf) < 30.0 ==> r.perSubXG == 0.0 && r.perSubXA == 0.0
    ensures var minutes := Total(Filter(matches, IsStart), MinutesOf);
            minutes >= 30.0 ==> r.perStartXG * minutes == Total(Filter(matches, IsStart), XgOf) * 90.0 &&
                                r.perStartXA * minutes == Total(Filter(matches, IsStart), XaOf) * 90.0
    ensures var minutes := Total(Filter(matches, IsSub), MinutesOf);
            minutes >= 30.0 ==> r.perSubXG * minutes == Total(Filter(matches, IsSub), XgOf) * 90.0 &&
                                r.perSubXA * minutes == Total(Filter(matches, IsSub), XaOf) * 90.0
  {
    var starts := GroupPer90(Filter(matches, IsStart));
    var subs := GroupPer90(Filter(matches, IsSub));
    Role(starts.0, subs.0, starts.1, subs.1)
  }

  /** Starts and substitute appearances never overlap, and together with the
      matches without minutes they account for every match. */
  lemma {:induction false} StartsAndSubsPartition(matches: seq<BasicMatchStat>)
    ensures forall m :: m in Filter(matches, IsStart) ==> m !in Filter(matches, IsSub)
    ensures |Filter(matches, IsStart)| + |Filter(matches, IsSub)| +
            |Filter(matches, m => MinutesOf(m) <= 0.0)| == |matches|
  {
    if matches != [] {
      StartsAndSubsPartition(matches[1..]);
    }
  }

  /** Every start lasts at least 60 minutes. */
  lemma {:induction false} StartMinutesBound(matches: seq<BasicMatchStat>)
    ensures Total(Filter(matches, IsStart), MinutesOf) >= StartThreshold * |Filter(matches, IsStart)| as real
  {
    if matches != [] {
      StartMinutesBound(matches[1..]);
      if IsStart(matches[0]) {
        assert Filter(matches, IsStart) == [matches[0]] + Filter(matches[1..], IsStart);
        assert Filter(matches, IsStart)[1..] == Filter(matches[1..], IsStart);
      } else {
        assert Filter(matches, IsStart) == Filter(matches[1..], IsStart);
      }
    }
  }

  /** Every substitute appearance lasts under 60 minutes. */
  lemma {:induction false} SubMinutesBound(matches: seq<BasicMatchStat>)
    ensures Filter(matches, IsSub) != [] ==>
              Total(Filter(matches, IsSub), MinutesOf) < StartThreshold * |Filter(matches, IsSub)| as real
    ensures Total(Filter(matches, IsSub), MinutesOf) <= StartThreshold * |Filter(matches, IsSub)| as real
  {
    if matches != [] {
      SubMinutesBound(matches[1..]);
      if IsSub(matches[0]) {
        assert Filter(matches, IsSub) == [matches[0]] + Filter(matches[1..], IsSub);
        assert Filter(matches, IsSub)[1..] == Filter(matches[1..], IsSub);
      } else {
        assert Filter(matches, IsSub) == Filter(matches[1..], IsSub);
      }
    }
  }
}
