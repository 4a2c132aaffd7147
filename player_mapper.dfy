/** Matching player names across data sources: the normalisation every
    comparison goes through, the Levenshtein edit distance, the similarity
    score built on it, and the choice of the best candidate. */
module PlayerMapper {
  import opened Domain

  // ---------------------------------------------------------------------
  // normalizeName, stage by stage

  /** `toLowerCase` on ASCII and Latin-1 letters. */
  function LowerChar(c: char): (r: char)
    ensures 'A' <= c <= 'Z' ==> r as int == c as int + 32
    ensures !('A' <= c <= 'Z') && (c as int) < 0xC0 ==> r == c
  {
    if 'A' <= c <= 'Z' || ('\U{00C0}' <= c <= '\U{00DE}' && c != '\U{00D7}') then (c as int + 32) as char
    else c
  }

  predicate IsWordChar(c: char)
  {
    ('a' <= c <= 'z') || ('0' <= c <= '9')
  }

  /** What survives the `[^a-z0-9\s]` filter. */
  predicate Plain(s: string)
  {
    forall k :: 0 <= k < |s| ==> IsWordChar(s[k]) || IsJsSpace(s[k])
  }

  lemma PlainTail(s: string)
    requires Plain(s) && s != []
    ensures IsWordChar(s[0]) || IsJsSpace(s[0])
    ensures Plain(s[1..])
  {
    forall k | 0 <= k < |s| - 1 ensures IsWordChar(s[1..][k]) || IsJsSpace(s[1..][k]) {
      assert s[1..][k] == s[k + 1];
    }
  }

  function ToLower(s: string): (r: string)
    ensures |r| == |s|
  {
    if s == [] then [] else [LowerChar(s[0])] + ToLower(s[1..])
  }

  /** `.replace(/ø/g, "o")`. */
  function ReplaceOslash(s: string): (r: string)
    ensures |r| == |s|
  {
    if s == [] then []
    else [if s[0] == '\U{00F8}' then 'o' else s[0]] + ReplaceOslash(s[1..])
  }

  /** The combining marks U+0300 to U+036F. */
  predicate IsCombiningMark(c: char)
  {
    '\U{0300}' <= c <= '\U{036F}'
  }

  const Grave: char := '\U{0300}'
  const Acute: char := '\U{0301}'
  const Circumflex: char := '\U{0302}'
  const Tilde: char := '\U{0303}'
  const Diaeresis: char := '\U{0308}'
  const RingAbove: char := '\U{030A}'
  const Cedilla: char := '\U{0327}'

  /** The canonical decomposition of a lower-case Latin-1 letter (U+00E0 to
      U+00FF), as a base letter and one combining mark. */
  function DecomposeLower(x: int): (r: Option<(char, char)>)
    ensures r.Some? ==> 'a' <= r.value.0 <= 'z' && IsCombiningMark(r.value.1)
  {
    if 0xE0 <= x <= 0xE5 then Some(('a', [Grave, Acute, Circumflex, Tilde, Diaeresis, RingAbove][x - 0xE0]))
    else if x == 0xE7 then Some(('c', Cedilla))
    else if 0xE8 <= x <= 0xEB then Some(('e', [Grave, Acute, Circumflex, Diaeresis][x - 0xE8]))
    else if 0xEC <= x <= 0xEF then Some(('i', [Grave, Acute, Circumflex, Diaeresis][x - 0xEC]))
    else if x == 0xF1 then Some(('n', Tilde))
    else if 0xF2 <= x <= 0xF6 then Some(('o', [Grave, Acute, Circumflex, Tilde, Diaeresis][x - 0xF2]))
    else if 0xF9 <= x <= 0xFC then Some(('u', [Grave, Acute, Circumflex, Diaeresis][x - 0xF9]))
    else if x == 0xFD then Some(('y', Acute))
    else if x == 0xFF then Some(('y', Diaeresis))
    else None
  }

  /** NFD of one character: Latin-1 letters with a diacritic become the base
      letter followed by the mark (upper-case ones keep an upper-case base);
      every other character is its own decomposition. */
  function DecomposeChar(c: char): (r: string)
    ensures 1 <= |r| <= 2
    ensures |r| == 2 ==> IsCombiningMark(r[1])
    ensures (c as int) < 0xC0 ==> r == [c]
  {
    var x := c as int;
    if 0xE0 <= x <= 0xFF then
      match DecomposeLower(x)
      case Some((base, mark)) => [base, mark]
      case None => [c]
    else if 0xC0 <= x <= 0xDE && x != 0xD7 then
      match DecomposeLower(x + 32)
      case Some((base, mark)) => [(base as int - 32) as char, mark]
      case None => [c]
    else [c]
  }

  /** `.normalize("NFD")` restricted to the characters above. */
  function Nfd(s: string): (r: string)
    ensures |s| <= |r| <= 2 * |s|
  {
    if s == [] then [] else DecomposeChar(s[0]) + Nfd(s[1..])
  }

  /** `.replace(/[\u0300-\u036f]/g, "")`. */
  function StripMarks(s: string): (r: string)
    ensures |r| <= |s|
  {
    if s == [] then []
    else if IsCombiningMark(s[0]) then StripMarks(s[1..])
    else [s[0]] + StripMarks(s[1..])
  }

  /** `.replace(/[^a-z0-9\s]/g, "")`. */
  function KeepWordChars(s: string): (r: string)
    ensures |r| <= |s|
  {
    if s == [] then []
    else if IsWordChar(s[0]) || IsJsSpace(s[0]) then [s[0]] + KeepWordChars(s[1..])
    else KeepWordChars(s[1..])
  }

  /** `.replace(/\s+/g, " ")`: every run of white space becomes one space. */
  function CollapseSpaces(s: string): (r: string)
    decreases |s|
  {
    if s == [] then []
    else if IsJsSpace(s[0]) then [' '] + CollapseSpaces(TrimStart(s))
    else [s[0]] + CollapseSpaces(s[1..])
  }

  /** The steps of normalizeName's method chain, in order. */
  datatype Step = LowerCase | FoldOslash | Decompose | DropMarks | DropSymbols | TrimSpaces | SingleSpaces

  function ApplyStep(step: Step, s: string): (r: string)
  {
    match step
    case LowerCase => ToLower(s)
    case FoldOslash => ReplaceOslash(s)
    case Decompose => Nfd(s)
    case DropMarks => StripMarks(s)
    case DropSymbols => KeepWordChars(s)
    case TrimSpaces => Trim(s)
    case SingleSpaces => CollapseSpaces(s)
  }

  /** Applies the steps left to right, as a method chain does. */
  function Pipeline(steps: seq<Step>, s: string): (r: string)
  {
    if steps == [] then s else Pipeline(steps[1..], ApplyStep(steps[0], s))
  }

  const NormalizeSteps: seq<Step> := [LowerCase, FoldOslash, Decompose, DropMarks, DropSymbols, TrimSpaces, SingleSpaces]

  /** normalizeName. */
  function Normalize(name: string): (r: string)
  {
    Pipeline(NormalizeSteps, name)
  }

  /** normalizeName written out as the composition of its steps. */
  lemma NormalizeChain(name: string)
    ensures Normalize(name) ==
            CollapseSpaces(Trim(KeepWordChars(StripMarks(Nfd(ReplaceOslash(ToLower(name)))))))
  {
    var s0 := ToLower(name);
    var s1 := ReplaceOslash(s0);
    var s2 := Nfd(s1);
    var s3 := StripMarks(s2);
    var s4 := KeepWordChars(s3);
    var s5 := Trim(s4);
    var steps := NormalizeSteps;
    assert Pipeline(steps, name) == Pipeline(steps[1..], s0);
    assert Pipeline(steps[1..], s0) == Pipeline(steps[2..], s1);
    assert Pipeline(steps[2..], s1) == Pipeline(steps[3..], s2);
    assert Pipeline(steps[3..], s2) == Pipeline(steps[4..], s3);
    assert Pipeline(steps[4..], s3) == Pipeline(steps[5..], s4);
    assert Pipeline(steps[5..], s4) == Pipeline(steps[6..], s5);
    assert Pipeline(steps[6..], s5) == Pipeline(steps[7..], CollapseSpaces(s5));
  }

  // Every stage leaves text made of letters, digits and white space alone.

  lemma {:induction false} ToLowerPlain(s: string)
    requires Plain(s)
    ensures ToLower(s) == s
  {
    if s != [] {
      PlainTail(s);
      ToLowerPlain(s[1..]);
    }
  }

  lemma {:induction false} ReplaceOslashPlain(s: string)
    requires Plain(s)
    ensures ReplaceOslash(s) == s
  {
    if s != [] {
      PlainTail(s);
      ReplaceOslashPlain(s[1..]);
    }
  }

  lemma {:induction false} NfdPlain(s: string)
    requires Plain(s)
    ensures Nfd(s) == s
  {
    if s != [] {
      PlainTail(s);
      assert DecomposeChar(s[0]) == [s[0]];
      NfdPlain(s[1..]);
    }
  }

  lemma {:induction false} StripMarksPlain(s: string)
    requires Plain(s)
    ensures StripMarks(s) == s
  {
    if s != [] {
      PlainTail(s);
      StripMarksPlain(s[1..]);
    }
  }

  lemma {:induction false} KeepWordCharsPlain(s: string)
    requires Plain(s)
    ensures KeepWordChars(s) == s
  {
    if s != [] {
      PlainTail(s);
      KeepWordCharsPlain(s[1..]);
    }
  }

  /** The `[^a-z0-9\s]` filter leaves only letters, digits and white space. */
  lemma {:induction false} KeepWordCharsMakesPlain(s: string)
    ensures Plain(KeepWordChars(s))
  {
    if s != [] {
      KeepWordCharsMakesPlain(s[1..]);
    }
  }

  lemma TrimKeepsPlain(s: string)
    requires Plain(s)
    ensures Plain(Trim(s))
  {
    var n := LeadingSpaces(s);
    var m := TrailingSpaces(s[n..]);
    var r := Trim(s);
    assert r == s[n..|s| - m];
    forall k | 0 <= k < |r| ensures IsWordChar(r[k]) || IsJsSpace(r[k]) {
      assert r[k] == s[n + k];
    }
  }

  /** Two spaces in a row at index k. */
  predicate DoubleSpaceAt(s: string, k: int)
  {
    0 <= k && k + 1 < |s| && s[k] == ' ' && s[k + 1] == ' '
  }

  lemma NoDoubleSpaceCons(c: char, t: string)
    requires forall k :: !DoubleSpaceAt(t, k)
    requires c != ' ' || t == [] || t[0] != ' '
    ensures forall k :: !DoubleSpaceAt([c] + t, k)
  {
    forall k ensures !DoubleSpaceAt([c] + t, k) {
      if k >= 1 {
        assert !DoubleSpaceAt(t, k - 1);
      }
    }
  }

  lemma TrimStartKeeps(s: string)
    requires s != [] && IsJsSpace(s[0])
    ensures Plain(s) ==> Plain(TrimStart(s))
    ensures !IsJsSpace(s[|s| - 1]) ==>
              TrimStart(s) != [] && TrimStart(s)[|TrimStart(s)| - 1] == s[|s| - 1]
  {
    var t := TrimStart(s);
    var i := LeadingSpaces(s);
    assert t == s[i..];
    if Plain(s) {
      forall k | 0 <= k < |t| ensures IsWordChar(t[k]) || IsJsSpace(t[k]) {
        assert t[k] == s[i + k];
      }
    }
  }

  /** Collapsing turns every run of white space into one space: no two spaces
      end up next to each other, the first character is a space exactly when
      the text starts with white space, and the text ends in a space only if
      it ended in white space. */
  lemma {:induction false} CollapseShape(s: string)
    ensures Plain(s) ==> forall k :: 0 <= k < |CollapseSpaces(s)| ==>
              IsWordChar(CollapseSpaces(s)[k]) || CollapseSpaces(s)[k] == ' '
    ensures s != [] ==> CollapseSpaces(s) != [] && (CollapseSpaces(s)[0] == ' ' <==> IsJsSpace(s[0]))
    ensures s != [] && !IsJsSpace(s[|s| - 1]) ==> CollapseSpaces(s)[|CollapseSpaces(s)| - 1] != ' '
    ensures forall k :: !DoubleSpaceAt(CollapseSpaces(s), k)
    decreases |s|
  {
    if s == [] {
      return;
    }
    var r := CollapseSpaces(s);
    if IsJsSpace(s[0]) {
      var t := TrimStart(s);
      TrimStartKeeps(s);
      CollapseShape(t);
      var rest := CollapseSpaces(t);
      assert r == [' '] + rest;
      NoDoubleSpaceCons(' ', rest);
    } else {
      var rest := CollapseSpaces(s[1..]);
      assert r == [s[0]] + rest;
      if Plain(s) {
        PlainTail(s);
      }
      CollapseShape(s[1..]);
      NoDoubleSpaceCons(s[0], rest);
    }
  }

  /** Lower-case words of letters and digits separated by single spaces. */
  predicate Canonical(s: string)
  {
    (forall k :: 0 <= k < |s| ==> IsWordChar(s[k]) || s[k] == ' ') &&
    (s == [] || (s[0] != ' ' && s[|s| - 1] != ' ')) &&
    (forall k :: 0 <= k < |s| ==> !DoubleSpaceAt(s, k))
  }

  /** normalizeName's output is lower case, made of letters, digits and
      single interior spaces. */
  lemma NormalizeCanonical(name: string)
    ensures Canonical(Normalize(name))
  {
    NormalizeChain(name);
    var kept := KeepWordChars(StripMarks(Nfd(ReplaceOslash(ToLower(name)))));
    KeepWordCharsMakesPlain(StripMarks(Nfd(ReplaceOslash(ToLower(name)))));
    TrimKeepsPlain(kept);
    TrimEnds(kept);
    CollapseShape(Trim(kept));
  }

  /** A suffix of a canonical name: it may start with its separating space. */
  predicate SpacedWords(s: string)
  {
    (forall k :: 0 <= k < |s| ==> IsWordChar(s[k]) || s[k] == ' ') &&
    (s == [] || s[|s| - 1] != ' ') &&
    (forall k :: 0 <= k < |s| ==> !DoubleSpaceAt(s, k))
  }

  lemma SpacedWordsTail(s: string)
    requires SpacedWords(s) && s != []
    ensures SpacedWords(s[1..])
    ensures s[0] == ' ' ==> s[1..] != [] && s[1] != ' '
  {
    var t := s[1..];
    assert !DoubleSpaceAt(s, 0);
    forall k | 0 <= k < |t| ensures IsWordChar(t[k]) || t[k] == ' ' {
      assert t[k] == s[k + 1];
    }
    forall k | 0 <= k < |t| ensures !DoubleSpaceAt(t, k) {
      assert !DoubleSpaceAt(s, k + 1);
    }
  }

  lemma {:induction false} CollapseSpacedWords(s: string)
    requires SpacedWords(s)
    ensures CollapseSpaces(s) == s
    decreases |s|
  {
    if s != [] {
      SpacedWordsTail(s);
      if s[0] == ' ' {
        assert !IsJsSpace(s[1]);
        assert TrimStart(s[1..]) == s[1..];
        assert LeadingSpaces(s) == 1;
        assert TrimStart(s) == s[1..];
      } else {
        assert !IsJsSpace(s[0]);
      }
      CollapseSpacedWords(s[1..]);
    }
  }

  lemma CanonicalIsPlain(s: string)
    requires Canonical(s)
    ensures Plain(s)
    ensures s == [] || (!IsJsSpace(s[0]) && !IsJsSpace(s[|s| - 1]))
    ensures SpacedWords(s)
  {
  }

  /** A canonical name passes through every step unchanged. */
  lemma CanonicalIsFixed(s: string)
    requires Canonical(s)
    ensures Normalize(s) == s
  {
    NormalizeChain(s);
    CanonicalIsPlain(s);
    ToLowerPlain(s);
    ReplaceOslashPlain(s);
    NfdPlain(s);
    StripMarksPlain(s);
    KeepWordCharsPlain(s);
    TrimEnds(s);
    CollapseSpacedWords(s);
  }

  /** The canonical names are exactly the names normalisation leaves
      unchanged. */
  lemma NormalizeFixedPoints(s: string)
    ensures Normalize(s) == s <==> Canonical(s)
  {
    NormalizeCanonical(s);
    if Canonical(s) {
      CanonicalIsFixed(s);
    }
  }

  /** normalizeName is idempotent. */
  lemma NormalizeIdempotent(s: string)
    ensures Normalize(Normalize(s)) == Normalize(s)
  {
    NormalizeCanonical(s);
    NormalizeFixedPoints(Normalize(s));
  }

  // ---------------------------------------------------------------------
  // Levenshtein distance

  function Min3(x: nat, y: nat, z: nat): (r: nat)
    ensures r <= x && r <= y && r <= z && (r == x || r == y || r == z)
  {
    if x <= y && x <= z then x else if y <= z then y else z
  }

  /** The edit distance between the first i characters of a and the first
      j characters of b. */
  function Lev(a: string, b: string, i: nat, j: nat): nat
    requires i <= |a| && j <= |b|
    decreases i + j
  {
    if i == 0 then j
    else if j == 0 then i
    else Min3(Lev(a, b, i - 1, j) + 1, Lev(a, b, i, j - 1) + 1,
              Lev(a, b, i - 1, j - 1) + (if a[i - 1] == b[j - 1] then 0 else 1))
  }

  lemma {:induction false} LevUpper(a: string, b: string, i: nat, j: nat)
    requires i <= |a| && j <= |b|
    ensures Lev(a, b, i, j) <= if i >= j then i else j
    decreases i + j
  {
    if i > 0 && j > 0 {
      LevUpper(a, b, i - 1, j - 1);
    }
  }

  lemma {:induction false} LevLower(a: string, b: string, i: nat, j: nat)
    requires i <= |a| && j <= |b|
    ensures Lev(a, b, i, j) >= if i >= j then i - j else j - i
    decreases i + j
  {
    if i > 0 && j > 0 {
      LevLower(a, b, i - 1, j);
      LevLower(a, b, i, j - 1);
      LevLower(a, b, i - 1, j - 1);
    }
  }

  lemma {:induction false} LevSymmetric(a: string, b: string, i: nat, j: nat)
    requires i <= |a| && j <= |b|
    ensures Lev(a, b, i, j) == Lev(b, a, j, i)
    decreases i + j
  {
    if i > 0 && j > 0 {
      LevSymmetric(a, b, i - 1, j);
      LevSymmetric(a, b, i, j - 1);
      LevSymmetric(a, b, i - 1, j - 1);
    }
  }

  /** Distance zero means equal prefixes, and equal prefixes are at distance
      zero. */
  lemma {:induction false} LevZero(a: string, b: string, i: nat, j: nat)
    requires i <= |a| && j <= |b|
    ensures Lev(a, b, i, j) == 0 <==> i == j && a[..i] == b[..j]
    decreases i + j
  {
    if i > 0 && j > 0 {
      LevLower(a, b, i - 1, j);
      LevLower(a, b, i, j - 1);
      LevZero(a, b, i - 1, j - 1);
      if i == j && a[..i] == b[..j] {
        assert a[..i - 1] == a[..i][..i - 1] == b[..j][..j - 1] == b[..j - 1];
        assert a[i - 1] == a[..i][i - 1] == b[..j][j - 1] == b[j - 1];
      }
      if Lev(a, b, i, j) == 0 {
        assert a[..i] == a[..i - 1] + [a[i - 1]];
        assert b[..j] == b[..j - 1] + [b[j - 1]];
      }
    }
  }

  /** levenshteinDistance: the edit distance between a and b. */
  function Distance(a: string, b: string): (d: nat)
    ensures d == 0 <==> a == b
    ensures d <= if |a| >= |b| then |a| else |b|
    ensures d >= if |a| >= |b| then |a| - |b| else |b| - |a|
    ensures a == [] ==> d == |b|
    ensures b == [] ==> d == |a|
  {
    LevZero(a, b, |a|, |b|);
    LevUpper(a, b, |a|, |b|);
    LevLower(a, b, |a|, |b|);
    LevSymmetric(a, b, |a|, |b|);
    assert a[..|a|] == a && b[..|b|] == b;
    Lev(a, b, |a|, |b|)
  }

  /** levenshteinDistance as written: the (|a|+1) x (|b|+1) matrix filled
      row by row. */
  method LevenshteinDistance(a: string, b: string) returns (d: nat)
    ensures d == Distance(a, b)
  {
    var matrix := new nat[|a| + 1, |b| + 1];
    for i := 0 to |a| + 1
      invariant forall p :: 0 <= p < i ==> matrix[p, 0] == p
    {
      matrix[i, 0] := i;
    }
    for j := 0 to |b| + 1
      invariant forall p :: 1 <= p <= |a| ==> matrix[p, 0] == p
      invariant forall q :: 0 <= q < j ==> matrix[0, q] == q
    {
      matrix[0, j] := j;
    }
    for i := 1 to |a| + 1
      invariant forall p, q {:trigger matrix[p, q]} :: 0 <= p < i && 0 <= q <= |b| ==> matrix[p, q] == Lev(a, b, p, q)
      invariant forall p :: i <= p <= |a| ==> matrix[p, 0] == p
    {
      for j := 1 to |b| + 1
        invariant forall p, q {:trigger matrix[p, q]} :: 0 <= p < i && 0 <= q <= |b| ==> matrix[p, q] == Lev(a, b, p, q)
        invariant forall q {:trigger matrix[i, q]} :: 0 <= q < j ==> matrix[i, q] == Lev(a, b, i, q)
        invariant forall p :: i < p <= |a| ==> matrix[p, 0] == p
      {
        var cost := if a[i - 1] == b[j - 1] then 0 else 1;
        matrix[i, j] := Min3(matrix[i - 1, j] + 1, matrix[i, j - 1] + 1, matrix[i - 1, j - 1] + cost);
        assert matrix[i, j] == Lev(a, b, i, j);
      }
    }
    d := matrix[|a|, |b|];
  }

  // ---------------------------------------------------------------------
  // Similarity and the best match

  /** calculateSimilarity: 1 for names that normalise alike, otherwise one
      minus the edit distance relative to the longer normalised name. */
  function Similarity(s1: string, s2: string): (r: real)
    ensures 0.0 <= r <= 1.0
    ensures r == 1.0 <==> Normalize(s1) == Normalize(s2)
  {
    var n1 := Normalize(s1);
    var n2 := Normalize(s2);
    if n1 == n2 then 1.0
    else
      var maxLength := if |n1| >= |n2| then |n1| else |n2|;
      var distance := Distance(n1, n2);
      RatioBounds(distance, maxLength);
      1.0 - distance as real / maxLength as real
  }

  lemma RatioBounds(d: nat, m: nat)
    requires 0 < d <= m
    ensures 0.0 < d as real / m as real <= 1.0
  {
  }

  /** The score does not depend on the order of the names. */
  lemma SimilaritySymmetric(s1: string, s2: string)
    ensures Similarity(s1, s2) == Similarity(s2, s1)
  {
    var n1 := Normalize(s1);
    var n2 := Normalize(s2);
    LevSymmetric(n1, n2, |n1|, |n2|);
  }

  /** calculateSimilarity as the service computes it. */
  method CalculateSimilarity(s1: string, s2: string) returns (score: real)
    ensures score == Similarity(s1, s2)
  {
    var norm1 := Normalize(s1);
    var norm2 := Normalize(s2);
    if norm1 == norm2 {
      return 1.0;
    }
    var maxLength := if |norm1| >= |norm2| then |norm1| else |norm2|;
    if maxLength == 0 {
      return 1.0;
    }
    var distance := LevenshteinDistance(norm1, norm2);
    score := 1.0 - distance as real / maxLength as real;
  }

  datatype MappingCandidate = MappingCandidate(id: string, name: string, team: Option<string>)

  datatype MatchMethod = Exact | Fuzzy | Manual

  datatype MappingResult = MappingResult(candidateId: string, confidence: real, kind: MatchMethod)

  /** The default similarity a fuzzy match must reach. */
  const DefaultThreshold: real := 0.7

  predicate IsExact(target: string, c: MappingCandidate)
  {
    Normalize(target) == Normalize(c.name)
  }

  function Score(target: string, c: MappingCandidate): real
  {
    Similarity(target, c.name)
  }

  /** The selection findBestMatch makes, over the candidates from index i
      on, given whether each candidate is an exact match and its score: the
      index chosen and how it was matched. `best` and `bestScore` are the
      running best of the scan. */
  function Choose(exact: nat -> bool, score: nat -> real, n: nat, threshold: real,
                  i: nat, best: Option<nat>, bestScore: real): (r: Option<(nat, MatchMethod)>)
    requires i <= n
    requires best.Some? ==> best.value < i
    ensures r.Some? ==> r.value.0 < n
    decreases n - i
  {
    if i == n then
      (if best.Some? && bestScore >= threshold then Some((best.value, Fuzzy)) else None)
    else if exact(i) then Some((i, Exact))
    else if score(i) > bestScore then Choose(exact, score, n, threshold, i + 1, Some(i), score(i))
    else Choose(exact, score, n, threshold, i + 1, best, bestScore)
  }

  /** The invariant of the scan at index i: no exact match yet, and `best`
      is the first candidate with the highest positive score so far. */
  ghost predicate ScanState(exact: nat -> bool, score: nat -> real, i: nat, best: Option<nat>, bestScore: real)
  {
    (forall j :: 0 <= j < i ==> !exact(j)) &&
    bestScore >= 0.0 &&
    (forall j :: 0 <= j < i ==> score(j) <= bestScore) &&
    (best.None? ==> bestScore == 0.0) &&
    (best.Some? ==> best.value < i && bestScore > 0.0 && score(best.value) == bestScore &&
                    forall j :: 0 <= j < best.value ==> score(j) < bestScore)
  }

  /** The scan from index i returns an exact match exactly when there is
      one, and then the first one. */
  lemma {:induction false} ChooseFromExact(exact: nat -> bool, score: nat -> real, n: nat, threshold: real,
                                           i: nat, best: Option<nat>, bestScore: real)
    requires i <= n && ScanState(exact, score, i, best, bestScore)
    ensures var r := Choose(exact, score, n, threshold, i, best, bestScore);
            ((exists k :: 0 <= k < n && exact(k)) <==> r.Some? && r.value.1 == Exact) &&
            (r.Some? && r.value.1 == Exact ==>
               r.value.0 < n && exact(r.value.0) && forall j :: 0 <= j < r.value.0 ==> !exact(j)) &&
            (r.Some? ==> r.value.1 == Exact || r.value.1 == Fuzzy)
    decreases n - i
  {
    if i == n {
    } else if exact(i) {
    } else if score(i) > bestScore {
      ChooseFromExact(exact, score, n, threshold, i + 1, Some(i), score(i));
    } else {
      ChooseFromExact(exact, score, n, threshold, i + 1, best, bestScore);
    }
  }

  /** Without exact matches, the scan returns the first candidate with the
      highest positive score, when that score reaches the threshold. */
  lemma {:induction false} ChooseFromFuzzy(exact: nat -> bool, score: nat -> real, n: nat, threshold: real,
                                           i: nat, best: Option<nat>, bestScore: real)
    requires i <= n && ScanState(exact, score, i, best, bestScore)
    ensures var r := Choose(exact, score, n, threshold, i, best, bestScore);
            ((forall k :: 0 <= k < n ==> !exact(k)) ==>
               (r.Some? <==> exists k :: 0 <= k < n && 0.0 < score(k) && threshold <= score(k) &&
                                         forall j :: 0 <= j < n ==> score(j) <= score(k))) &&
            (r.Some? && r.value.1 == Fuzzy ==>
               r.value.0 < n && 0.0 < score(r.value.0) && threshold <= score(r.value.0) &&
               (forall j :: 0 <= j < n ==> score(j) <= score(r.value.0)) &&
               (forall j :: 0 <= j < r.value.0 ==> score(j) < score(r.value.0)))
    decreases n - i
  {
    if i == n {
    } else if exact(i) {
    } else if score(i) > bestScore {
      ChooseFromFuzzy(exact, score, n, threshold, i + 1, Some(i), score(i));
    } else {
      ChooseFromFuzzy(exact, score, n, threshold, i + 1, best, bestScore);
    }
  }

  /** What the scan from index i returns, given what it has seen so far. */
  lemma ChooseFrom(exact: nat -> bool, score: nat -> real, n: nat, threshold: real,
                   i: nat, best: Option<nat>, bestScore: real)
    requires i <= n
    requires forall j :: 0 <= j < i ==> !exact(j)
    requires bestScore >= 0.0
    requires forall j :: 0 <= j < i ==> score(j) <= bestScore
    requires best.None? ==> bestScore == 0.0
    requires best.Some? ==> best.value < i && bestScore > 0.0 && score(best.value) == bestScore &&
                            forall j :: 0 <= j < best.value ==> score(j) < bestScore
    ensures var r := Choose(exact, score, n, threshold, i, best, bestScore);
            ((exists k :: 0 <= k < n && exact(k)) <==> r.Some? && r.value.1 == Exact) &&
            (r.Some? && r.value.1 == Exact ==>
               r.value.0 < n && exact(r.value.0) && forall j :: 0 <= j < r.value.0 ==> !exact(j)) &&
            (r.Some? ==> r.value.1 == Exact || r.value.1 == Fuzzy) &&
            ((forall k :: 0 <= k < n ==> !exact(k)) ==>
               (r.Some? <==> exists k :: 0 <= k < n && 0.0 < score(k) && threshold <= score(k) &&
                                         forall j :: 0 <= j < n ==> score(j) <= score(k))) &&
            (r.Some? && r.value.1 == Fuzzy ==>
               r.value.0 < n && 0.0 < score(r.value.0) && threshold <= score(r.value.0) &&
               (forall j :: 0 <= j < n ==> score(j) <= score(r.value.0)) &&
               (forall j :: 0 <= j < r.value.0 ==> score(j) < score(r.value.0)))
  {
    ChooseFromExact(exact, score, n, threshold, i, best, bestScore);
    ChooseFromFuzzy(exact, score, n, threshold, i, best, bestScore);
  }

  /** Whether candidate k matches the target exactly, and its score. */
  function ExactFlags(target: string, candidates: seq<MappingCandidate>): (f: nat -> bool)
    ensures forall k: nat :: f(k) <==> k < |candidates| && IsExact(target, candidates[k])
  {
    (k: nat) => k < |candidates| && IsExact(target, candidates[k])
  }

  function Scores(target: string, candidates: seq<MappingCandidate>): (f: nat -> real)
    ensures forall k: nat :: k < |candidates| ==> f(k) == Score(target, candidates[k])
  {
    (k: nat) => if k < |candidates| then Score(target, candidates[k]) else 0.0
  }

  /** The result findBestMatch reports for a selection. */
  function Report(target: string, candidates: seq<MappingCandidate>, choice: Option<(nat, MatchMethod)>): (r: Option<MappingResult>)
    requires choice.Some? ==> choice.value.0 < |candidates|
    ensures r.Some? <==> choice.Some?
    ensures choice.Some? && choice.value.1 == Exact ==>
              r.value == MappingResult(candidates[choice.value.0].id, 1.0, Exact)
    ensures choice.Some? && choice.value.1 != Exact ==>
              r.value == MappingResult(candidates[choice.value.0].id, Score(target, candidates[choice.value.0]), choice.value.1)
  {
    match choice
    case None => None
    case Some((k, Exact)) => Some(MappingResult(candidates[k].id, 1.0, Exact))
    case Some((k, kind)) => Some(MappingResult(candidates[k].id, Score(target, candidates[k]), kind))
  }

  /** The scan of Choose run over the candidates themselves. */
  function ScanFrom(target: string, candidates: seq<MappingCandidate>, threshold: real,
                    i: nat, best: Option<nat>, bestScore: real): (r: Option<(nat, MatchMethod)>)
    requires i <= |candidates|
    requires best.Some? ==> best.value < i
    ensures r.Some? ==> r.value.0 < |candidates|
    decreases |candidates| - i
  {
    if i == |candidates| then
      (if best.Some? && bestScore >= threshold then Some((best.value, Fuzzy)) else None)
    else if IsExact(target, candidates[i]) then Some((i, Exact))
    else if Score(target, candidates[i]) > bestScore
    then ScanFrom(target, candidates, threshold, i + 1, Some(i), Score(target, candidates[i]))
    else ScanFrom(target, candidates, threshold, i + 1, best, bestScore)
  }

  /** The scan over the candidates is Choose over their flags and scores. */
  lemma {:induction false} ScanIsChoose(target: string, candidates: seq<MappingCandidate>, threshold: real,
                                        i: nat, best: Option<nat>, bestScore: real)
    requires i <= |candidates|
    requires best.Some? ==> best.value < i
    ensures ScanFrom(target, candidates, threshold, i, best, bestScore) ==
            Choose(ExactFlags(target, candidates), Scores(target, candidates), |candidates|, threshold, i, best, bestScore)
    decreases |candidates| - i
  {
    if i < |candidates| && !IsExact(target, candidates[i]) {
      if Score(target, candidates[i]) > bestScore {
        ScanIsChoose(target, candidates, threshold, i + 1, Some(i), Score(target, candidates[i]));
      } else {
        ScanIsChoose(target, candidates, threshold, i + 1, best, bestScore);
      }
    }
  }

  /** findBestMatch's answer: see FindBestMatchProperties. */
  function BestMatch(target: string, candidates: seq<MappingCandidate>, threshold: real): (r: Option<MappingResult>)
  {
    Report(target, candidates, ScanFrom(target, candidates, threshold, 0, None, 0.0))
  }

  /** findBestMatch as the service runs it: one pass with the running best. */
  method FindBestMatch(targetName: string, candidates: seq<MappingCandidate>, threshold: real)
    returns (r: Option<MappingResult>)
    ensures r == BestMatch(targetName, candidates, threshold)
  {
    ghost var choice := ScanFrom(targetName, candidates, threshold, 0, None, 0.0);
    var bestMatch: Option<nat> := None;
    var bestScore := 0.0;
    var i := 0;
    while i < |candidates|
      invariant 0 <= i <= |candidates|
      invariant bestMatch.Some? ==> bestMatch.value < i &&
                                    bestScore == Similarity(targetName, candidates[bestMatch.value].name)
      invariant ScanFrom(targetName, candidates, threshold, i, bestMatch, bestScore) == choice
    {
      if IsExact(targetName, candidates[i]) {
        return Some(MappingResult(candidates[i].id, 1.0, Exact));
      }
      var score_i := CalculateSimilarity(targetName, candidates[i].name);
      if score_i > bestScore {
        bestScore := score_i;
        bestMatch := Some(i);
      }
      i := i + 1;
    }
    if bestMatch.Some? && bestScore >= threshold {
      return Some(MappingResult(candidates[bestMatch.value].id, bestScore, Fuzzy));
    }
    return None;
  }

  /** findBestMatch returns the first exact match, as EXACT with confidence 1,
      even when an earlier candidate scores higher; without one, the earliest
      candidate of highest positive similarity, as FUZZY with that
      similarity, exactly when it reaches the threshold; otherwise null. */
  lemma FindBestMatchProperties(target: string, candidates: seq<MappingCandidate>, threshold: real)
    ensures var r := BestMatch(target, candidates, threshold);
            ((exists k :: 0 <= k < |candidates| && IsExact(target, candidates[k])) ==>
               exists k :: 0 <= k < |candidates| && IsExact(target, candidates[k]) &&
                 (forall j :: 0 <= j < k ==> !IsExact(target, candidates[j])) &&
                 r == Some(MappingResult(candidates[k].id, 1.0, Exact))) &&
            ((forall k :: 0 <= k < |candidates| ==> !IsExact(target, candidates[k])) ==>
               (r.None? || r.value.kind == Fuzzy) &&
               (r.Some? <==> exists k :: 0 <= k < |candidates| &&
                               0.0 < Score(target, candidates[k]) && threshold <= Score(target, candidates[k]) &&
                               forall j :: 0 <= j < |candidates| ==> Score(target, candidates[j]) <= Score(target, candidates[k]))) &&
            (r.Some? && r.value.kind == Fuzzy ==>
               exists k :: 0 <= k < |candidates| &&
                 r.value == MappingResult(candidates[k].id, Score(target, candidates[k]), Fuzzy) &&
                 0.0 < Score(target, candidates[k]) && threshold <= Score(target, candidates[k]) &&
                 (forall j :: 0 <= j < |candidates| ==> Score(target, candidates[j]) <= Score(target, candidates[k])) &&
                 (forall j :: 0 <= j < k ==> Score(target, candidates[j]) < Score(target, candidates[k])))
  {
    var exact := ExactFlags(target, candidates);
    var score := Scores(target, candidates);
    ScanIsChoose(target, candidates, threshold, 0, None, 0.0);
    ChooseFrom(exact, score, |candidates|, threshold, 0, None, 0.0);
  }

  /** An empty candidate list gives no match. */
  lemma NoCandidates(target: string, threshold: real)
    ensures BestMatch(target, [], threshold) == None
  {
  }
}
