/** Vocabulary shared by every part of the FPL platform model: optional and
    fallible values, the four playing positions, the scoring rules that the
    points calculator, the prediction service and the simulator all use, and
    the few JavaScript numeric and string primitives the services depend on. */
module Domain {

  datatype Option<+T> = None | Some(value: T)
  {
    /** `value ?? fallback` for a nullable value. */
    function GetOr(fallback: T): T
    {
      match this
      case None => fallback
      case Some(v) => v
    }
  }

  /** The outcome of an operation that throws in the source. */
  datatype Result<+T> = Ok(value: T) | Err(message: string)

  /** The database's Position enum. */
  datatype Position = Goalkeeper | Defender | Midfielder | Forward

  /** FPL points per goal: 4 for a forward, 5 for a midfielder, 6 otherwise. */
  function GoalPoints(pos: Position): (r: int)
    ensures 4 <= r <= 6
    ensures r == 4 <==> pos == Forward
    ensures r == 5 <==> pos == Midfielder
  {
    match pos
    case Forward => 4
    case Midfielder => 5
    case _ => 6
  }

  /** FPL points per assist. */
  const AssistPoints: int := 3

  /** FPL clean-sheet points: 4 for goalkeepers and defenders, 1 for a
      midfielder, nothing for a forward. */
  function CleanSheetPoints(pos: Position): (r: int)
    ensures 0 <= r <= 4
    ensures r == 0 <==> pos == Forward
    ensures r == 4 <==> pos == Goalkeeper || pos == Defender
  {
    match pos
    case Goalkeeper => 4
    case Defender => 4
    case Midfielder => 1
    case Forward => 0
  }

  /** JavaScript's Math.round: the nearest integer, halves toward +infinity. */
  function Round(x: real): (r: int)
    ensures x - 0.5 < r as real <= x + 0.5
  {
    (x + 0.5).Floor
  }

  function Min(a: real, b: real): (r: real)
    ensures r <= a && r <= b && (r == a || r == b)
  {
    if a <= b then a else b
  }

  function Max(a: real, b: real): (r: real)
    ensures r >= a && r >= b && (r == a || r == b)
  {
    if a >= b then a else b
  }

  /** The end index that `s.slice(0, end)` uses: a negative end counts back
      from the length. */
  function SliceEnd(len: nat, end: int): (r: nat)
    ensures r <= len
    ensures 0 <= end <= len ==> r == end
    ensures end > len ==> r == len
    ensures end < 0 ==> r == if len + end >= 0 then len + end else 0
  {
    if end >= 0 then (if end <= len then end else len)
    else if len + end >= 0 then len + end
    else 0
  }

  /** `s.slice(0, end)`. */
  function Prefix<T>(s: seq<T>, end: int): (r: seq<T>)
    ensures |r| == SliceEnd(|s|, end)
    ensures r == s[..|r|]
  {
    s[..SliceEnd(|s|, end)]
  }

  /** The characters JavaScript's `\s` class and `String.prototype.trim` treat
      as white space. */
  predicate IsJsSpace(c: char)
  {
    c == '\t' || c == '\n' || c == '\U{000B}' || c == '\U{000C}' || c == '\r' ||
    c == ' ' || c == '\U{00A0}' || c == '\U{1680}' ||
    ('\U{2000}' <= c <= '\U{200A}') ||
    c == '\U{2028}' || c == '\U{2029}' || c == '\U{202F}' || c == '\U{205F}' ||
    c == '\U{3000}' || c == '\U{FEFF}'
  }

  /** The number of white-space characters at the start of s. */
  function LeadingSpaces(s: string): (n: nat)
    ensures n <= |s|
    ensures forall k :: 0 <= k < n ==> IsJsSpace(s[k])
    ensures n < |s| ==> !IsJsSpace(s[n])
  {
    if s != [] && IsJsSpace(s[0]) then 1 + LeadingSpaces(s[1..]) else 0
  }

  /** `s.trimStart()`: the text with its leading white space removed. */
  function TrimStart(s: string): (r: string)
    ensures |r| <= |s|
    ensures r == [] || !IsJsSpace(r[0])
    ensures s != [] && !IsJsSpace(s[|s| - 1]) ==> r != []
    ensures s != [] && IsJsSpace(s[0]) ==> |r| < |s|
    ensures s == [] || !IsJsSpace(s[0]) ==> r == s
  {
    s[LeadingSpaces(s)..]
  }

  /** The number of white-space characters at the end of s. */
  function TrailingSpaces(s: string): (n: nat)
    ensures n <= |s|
    ensures forall k :: |s| - n <= k < |s| ==> IsJsSpace(s[k])
    ensures n < |s| ==> !IsJsSpace(s[|s| - 1 - n])
  {
    if s != [] && IsJsSpace(s[|s| - 1]) then 1 + TrailingSpaces(s[..|s| - 1]) else 0
  }

  /** `s.trimEnd()`: the text with its trailing white space removed. */
  function TrimEnd(s: string): (r: string)
    ensures |r| <= |s|
    ensures r == [] || !IsJsSpace(r[|r| - 1])
    ensures s == [] || !IsJsSpace(s[|s| - 1]) ==> r == s
  {
    s[..|s| - TrailingSpaces(s)]
  }

  /** `s.trim()`. */
  function Trim(s: string): (r: string)
    ensures |r| <= |s|
  {
    var n := LeadingSpaces(s);
    var m := TrailingSpaces(s[n..]);
    s[n..|s| - m]
  }

  /** Trimming leaves no white space at either end, and leaves text without
      white space at its ends unchanged. */
  lemma TrimEnds(s: string)
    ensures Trim(s) == [] || (!IsJsSpace(Trim(s)[0]) && !IsJsSpace(Trim(s)[|Trim(s)| - 1]))
    ensures s == [] || (!IsJsSpace(s[0]) && !IsJsSpace(s[|s| - 1])) ==> Trim(s) == s
  {
  }

  /** One match of a player's recent history; a missing figure is None. */
  datatype BasicMatchStat = BasicMatchStat(minutes: Option<real>, xG: Option<real>, xA: Option<real>)

  /** Sum of a sequence of reals, in order. */
  function Sum(s: seq<real>): real
  {
    if s == [] then 0.0 else Sum(s[..|s| - 1]) + s[|s| - 1]
  }

  lemma {:induction false} SumNonNegative(s: seq<real>)
    requires forall i :: 0 <= i < |s| ==> s[i] >= 0.0
    ensures Sum(s) >= 0.0
  {
    if s != [] {
      SumNonNegative(s[..|s| - 1]);
    }
  }

  lemma {:induction false} SumBounds(s: seq<real>, lo: real, hi: real)
    requires forall i :: 0 <= i < |s| ==> lo <= s[i] <= hi
    ensures lo * |s| as real <= Sum(s) <= hi * |s| as real
  {
    if s != [] {
      SumBounds(s[..|s| - 1], lo, hi);
    }
  }
}
