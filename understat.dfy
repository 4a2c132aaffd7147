/** The part of the Understat collector that pulls a JSON payload out of a
    page: the `var NAME = JSON.parse('...')` pattern match and the decoding
    of the `\xHH` escapes inside the captured text. */
module Understat {
  import opened Domain

  // ---------------------------------------------------------------------
  // `\xHH` escapes

  predicate IsHexDigit(c: char)
  {
    ('0' <= c <= '9') || ('a' <= c <= 'f') || ('A' <= c <= 'F')
  }

  function HexValue(c: char): (v: nat)
    requires IsHexDigit(c)
    ensures v < 16
  {
    if '0' <= c <= '9' then (c as int - '0' as int) as nat
    else if 'a' <= c <= 'f' then (c as int - 'a' as int + 10) as nat
    else (c as int - 'A' as int + 10) as nat
  }

  /** A well-formed escape starts at index i. */
  predicate EscapeAt(s: string, i: nat)
  {
    i + 4 <= |s| && s[i] == '\\' && s[i + 1] == 'x' && IsHexDigit(s[i + 2]) && IsHexDigit(s[i + 3])
  }

  /** The character with the escape's code (below 256). */
  function EscapedChar(s: string, i: nat): (c: char)
    requires EscapeAt(s, i)
    ensures (c as int) < 256
  {
    (HexValue(s[i + 2]) * 16 + HexValue(s[i + 3])) as char
  }

  /** The number of escapes a left-to-right scan replaces. */
  function EscapeCount(s: string): nat
  {
    if s == [] then 0
    else if EscapeAt(s, 0) then 1 + EscapeCount(s[4..])
    else EscapeCount(s[1..])
  }

  /** The global replace of `/\\x([0-9A-Fa-f]{2})/g`: scanning left to
      right, each escape becomes one character and scanning resumes after it,
      so the output is never rescanned; anything else is copied. */
  function DecodeHexEscapes(s: string): (r: string)
    ensures |r| == |s| - 3 * EscapeCount(s)
  {
    if s == [] then []
    else if EscapeAt(s, 0) then [EscapedChar(s, 0)] + DecodeHexEscapes(s[4..])
    else [s[0]] + DecodeHexEscapes(s[1..])
  }

  /** Text containing no well-formed escape is returned unchanged. */
  lemma {:induction false} DecodeWithoutEscapes(s: string)
    requires forall i :: 0 <= i < |s| ==> !EscapeAt(s, i)
    ensures DecodeHexEscapes(s) == s
    ensures EscapeCount(s) == 0
  {
    if s != [] {
      assert !EscapeAt(s, 0);
      forall i | 0 <= i < |s[1..]| ensures !EscapeAt(s[1..], i) {
        assert !EscapeAt(s, i + 1);
      }
      DecodeWithoutEscapes(s[1..]);
    }
  }

  /** Malformed escapes are left as they are. */
  lemma MalformedEscapesStay()
    ensures DecodeHexEscapes("\\x4") == "\\x4"
    ensures DecodeHexEscapes("\\xZZ") == "\\xZZ"
  {
    DecodeWithoutEscapes("\\x4");
    DecodeWithoutEscapes("\\xZZ");
  }

  /** An escape produced by decoding is not decoded again: `\x5c` is a
      backslash, and the `x41` after it stays text. */
  lemma NoRescan()
    ensures DecodeHexEscapes("\\x5cx41") == "\\x41"
  {
    var s := "\\x5cx41";
    assert EscapeAt(s, 0);
    assert EscapedChar(s, 0) == '\\';
    assert s[4..] == "x41";
    DecodeWithoutEscapes("x41");
  }

  // The inverse: every character below 256 written as an escape.

  function HexDigitChar(v: nat): (c: char)
    requires v < 16
    ensures IsHexDigit(c) && HexValue(c) == v
  {
    if v < 10 then ('0' as int + v) as char else ('a' as int + v - 10) as char
  }

  function EscapeChar(c: char): (r: string)
    requires (c as int) < 256
    ensures |r| == 4 && EscapeAt(r, 0) && EscapedChar(r, 0) == c
  {
    ['\\', 'x', HexDigitChar(c as int / 16), HexDigitChar(c as int % 16)]
  }

  predicate IsLatin1(s: string)
  {
    forall k :: 0 <= k < |s| ==> (s[k] as int) < 256
  }

  function EncodeHexEscapes(s: string): (r: string)
    requires IsLatin1(s)
    ensures |r| == 4 * |s|
  {
    if s == [] then [] else EscapeChar(s[0]) + EncodeHexEscapes(s[1..])
  }

  /** Decoding undoes escaping every character. */
  lemma {:induction false} DecodeEncode(s: string)
    requires IsLatin1(s)
    ensures DecodeHexEscapes(EncodeHexEscapes(s)) == s
    ensures EscapeCount(EncodeHexEscapes(s)) == |s|
  {
    if s != [] {
      var e := EncodeHexEscapes(s);
      var head := EscapeChar(s[0]);
      assert e[..4] == head;
      assert EscapeAt(e, 0);
      assert EscapedChar(e, 0) == s[0];
      assert e[4..] == EncodeHexEscapes(s[1..]);
      DecodeEncode(s[1..]);
    }
  }

  // ---------------------------------------------------------------------
  // The pattern `var\s+NAME\s*=\s*JSON\.parse\('([^']+)'\)`

  /** The names the collector looks up are identifiers, so the name stands
      for itself in the pattern. */
  predicate IsIdentifier(name: string)
  {
    |name| > 0 &&
    forall k :: 0 <= k < |name| ==>
      ('a' <= name[k] <= 'z') || ('A' <= name[k] <= 'Z') || ('0' <= name[k] <= '9') || name[k] == '_'
  }

  /** The first index at or after i that is not white space. */
  function SkipSpaces(s: string, i: nat): (j: nat)
    requires i <= |s|
    ensures i <= j <= |s|
    ensures forall k :: i <= k < j ==> IsJsSpace(s[k])
    ensures j < |s| ==> !IsJsSpace(s[j])
    decreases |s| - i
  {
    if i < |s| && IsJsSpace(s[i]) then SkipSpaces(s, i + 1) else i
  }

  /** The first index at or after i holding a quote, or |s|. */
  function SkipToQuote(s: string, i: nat): (j: nat)
    requires i <= |s|
    ensures i <= j <= |s|
    ensures forall k :: i <= k < j ==> s[k] != '\''
    ensures j < |s| ==> s[j] == '\''
    decreases |s| - i
  {
    if i < |s| && s[i] != '\'' then SkipToQuote(s, i + 1) else i
  }

  /** `lit` occurs in `s` at index i. */
  predicate LiteralAt(s: string, i: nat, lit: string)
  {
    i + |lit| <= |s| && forall k :: 0 <= k < |lit| ==> s[i + k] == lit[k]
  }

  /** `JSON\.parse\('([^']+)'\)` at index j: the captured text. */
  function PayloadAt(html: string, j: nat): (r: Option<string>)
    requires j <= |html|
    ensures r.Some? ==> |r.value| > 0 && '\'' !in r.value
  {
    if !LiteralAt(html, j, "JSON.parse('") then None
    else
      var start := j + 12;
      var stop := SkipToQuote(html, start);
      if stop == start || !LiteralAt(html, stop, "')") then None
      else
        var p := html[start..stop];
        assert forall k :: 0 <= k < |p| ==> p[k] == html[start + k];
        Some(p)
  }

  /** `\s*=\s*JSON\.parse\('([^']+)'\)` at index j. */
  function AssignmentAt(html: string, j: nat): (r: Option<string>)
    requires j <= |html|
    ensures r.Some? ==> |r.value| > 0 && '\'' !in r.value
  {
    var eq := SkipSpaces(html, j);
    if !LiteralAt(html, eq, "=") then None
    else PayloadAt(html, SkipSpaces(html, eq + 1))
  }

  /** The payload captured by a match starting exactly at index i, if the
      pattern matches there. Every repetition in the pattern is followed by
      a character it cannot consume, so the greedy reading below is the
      only way the pattern can match at i. */
  function MatchAt(html: string, name: string, i: nat): (r: Option<string>)
    requires i <= |html|
    ensures r.Some? ==> |r.value| > 0 && '\'' !in r.value
  {
    if !LiteralAt(html, i, "var") then None
    else
      var n := SkipSpaces(html, i + 3);
      if n == i + 3 || !LiteralAt(html, n, name) then None
      else AssignmentAt(html, n + |name|)
  }

  /** The least index k in [i, n] with p(k), if any. */
  function FirstIndex(p: nat -> bool, i: nat, n: nat): (r: Option<nat>)
    requires i <= n
    ensures r.None? <==> forall k :: i <= k <= n ==> !p(k)
    ensures r.Some? ==> i <= r.value <= n && p(r.value) && forall j :: i <= j < r.value ==> !p(j)
    decreases n - i
  {
    if p(i) then Some(i)
    else if i == n then None
    else FirstIndex(p, i + 1, n)
  }

  /** Whether the pattern matches at index k. */
  function MatchesAt(html: string, name: string): (p: nat -> bool)
    ensures forall k: nat :: p(k) <==> k <= |html| && MatchAt(html, name, k).Some?
  {
    (k: nat) => k <= |html| && MatchAt(html, name, k).Some?
  }

  /** The leftmost index where the pattern matches, the one `html.match`
      reports. */
  function FirstMatch(html: string, name: string): (r: Option<nat>)
    ensures r.None? <==> forall k :: 0 <= k <= |html| ==> MatchAt(html, name, k).None?
    ensures r.Some? ==> r.value <= |html| && MatchAt(html, name, r.value).Some? &&
                        forall j :: 0 <= j < r.value ==> MatchAt(html, name, j).None?
  {
    FirstIndex(MatchesAt(html, name), 0, |html|)
  }

  /** extractVariable up to JSON.parse: `html.match(regex)` takes the leftmost
      match; the decoded text of its payload, or the "Could not find
      variable" error. */
  function ExtractVariableText(html: string, name: string): (r: Result<string>)
    requires IsIdentifier(name)
    ensures r.Err? <==> forall k :: 0 <= k <= |html| ==> MatchAt(html, name, k).None?
    ensures r.Ok? ==> exists k :: 0 <= k <= |html| && MatchAt(html, name, k).Some? &&
                        (forall j :: 0 <= j < k ==> MatchAt(html, name, j).None?) &&
                        r.value == DecodeHexEscapes(MatchAt(html, name, k).value)
  {
    match FirstMatch(html, name)
    case None => Err("Could not find variable " + name + " in HTML")
    case Some(k) => Ok(DecodeHexEscapes(MatchAt(html, name, k).value))
  }

  /** The capture group takes the whole quoted text. */
  lemma PayloadAtDeclaration(pre: string, payload: string)
    requires |payload| > 0 && '\'' !in payload
    ensures PayloadAt(pre + "JSON.parse('" + payload + "')", |pre|) == Some(payload)
  {
    var html := pre + "JSON.parse('" + payload + "')";
    var start := |pre| + 12;
    var stop := start + |payload|;
    assert LiteralAt(html, |pre|, "JSON.parse('");
    forall k | start <= k < stop ensures html[k] != '\'' {
      assert html[k] == payload[k - start];
    }
    assert html[stop] == '\'';
    SkipToQuoteOverText(html, start, stop);
    assert LiteralAt(html, stop, "')");
    assert html[start..stop] == payload;
  }

  lemma AssignmentAtDeclaration(pre: string, payload: string)
    requires |payload| > 0 && '\'' !in payload
    ensures AssignmentAt(pre + " = JSON.parse('" + payload + "')", |pre|) == Some(payload)
  {
    var html := pre + " = JSON.parse('" + payload + "')";
    var m := |pre|;
    assert html[m] == ' ' && html[m + 1] == '=' && html[m + 2] == ' ' && html[m + 3] == 'J';
    EqualsSignAt(html, m);
    DeclarationSplit(pre, payload);
    PayloadAtDeclaration(pre + " = ", payload);
  }

  lemma DeclarationSplit(pre: string, payload: string)
    ensures pre + " = JSON.parse('" + payload + "')" == (pre + " = ") + "JSON.parse('" + payload + "')"
  {
    assert " = JSON.parse('" == " = " + "JSON.parse('";
    assert pre + " = JSON.parse('" == (pre + " = ") + "JSON.parse('";
  }

  /** ` = ` followed by a non-space: the payload is read just after it. */
  lemma EqualsSignAt(html: string, m: nat)
    requires m + 4 <= |html|
    requires html[m] == ' ' && html[m + 1] == '=' && html[m + 2] == ' ' && html[m + 3] == 'J'
    ensures AssignmentAt(html, m) == PayloadAt(html, m + 3)
  {
    assert SkipSpaces(html, m + 1) == m + 1;
    assert SkipSpaces(html, m) == m + 1;
    assert LiteralAt(html, m + 1, "=");
    assert SkipSpaces(html, m + 3) == m + 3;
    assert SkipSpaces(html, m + 2) == m + 3;
  }

  /** A page that declares the variable as the collector expects yields the
      decoded payload. */
  lemma ExtractFromDeclaration(name: string, payload: string)
    requires IsIdentifier(name)
    requires |payload| > 0 && '\'' !in payload
    ensures ExtractVariableText("var " + name + " = JSON.parse('" + payload + "')", name)
            == Ok(DecodeHexEscapes(payload))
  {
    var pre := "var " + name;
    var html := pre + " = JSON.parse('" + payload + "')";
    DeclarationLiterals(name, payload);
    DeclarationAt(html, name);
    AssignmentAtDeclaration(pre, payload);
    assert MatchesAt(html, name)(0);
  }

  /** Where `var` and the name sit in such a page. */
  lemma DeclarationLiterals(name: string, payload: string)
    requires |name| > 0
    ensures var html := "var " + name + " = JSON.parse('" + payload + "')";
            LiteralAt(html, 0, "var") && |html| > 4 && html[3] == ' ' && LiteralAt(html, 4, name)
  {
    var pre := "var " + name;
    assert LiteralAt(pre, 0, "var");
    assert pre == "var " + name + "";
    LiteralAtConcat("var ", name, "");
    var h1 := pre + " = JSON.parse('";
    var h2 := h1 + payload;
    LiteralAtExtend(pre, " = JSON.parse('", 0, "var");
    LiteralAtExtend(h1, payload, 0, "var");
    LiteralAtExtend(h2, "')", 0, "var");
    LiteralAtExtend(pre, " = JSON.parse('", 4, name);
    LiteralAtExtend(h1, payload, 4, name);
    LiteralAtExtend(h2, "')", 4, name);
    assert (h2 + "')")[3] == pre[3] == ' ';
  }

  /** `var`, one space and the name at the start of the page: the match
      there is the assignment after the name. */
  lemma DeclarationAt(html: string, name: string)
    requires IsIdentifier(name)
    requires LiteralAt(html, 0, "var") && |html| > 4 && html[3] == ' ' && LiteralAt(html, 4, name)
    ensures MatchAt(html, name, 0) == AssignmentAt(html, 4 + |name|)
  {
    assert html[4] == name[0];
    assert !IsJsSpace(name[0]);
    assert SkipSpaces(html, 4) == 4;
    assert SkipSpaces(html, 3) == 4;
  }

  lemma LiteralAtConcat(a: string, lit: string, b: string)
    ensures LiteralAt(a + lit + b, |a|, lit)
  {
    var s := a + lit + b;
    forall k | 0 <= k < |lit| ensures s[|a| + k] == lit[k] {
    }
  }

  lemma LiteralAtExtend(s: string, t: string, i: nat, lit: string)
    requires LiteralAt(s, i, lit)
    ensures LiteralAt(s + t, i, lit)
  {
    forall k | 0 <= k < |lit| ensures (s + t)[i + k] == lit[k] {
      assert (s + t)[i + k] == s[i + k];
    }
  }

  lemma {:induction false} SkipToQuoteOverText(s: string, i: nat, j: nat)
    requires i <= j < |s| && s[j] == '\''
    requires forall k :: i <= k < j ==> s[k] != '\''
    ensures SkipToQuote(s, i) == j
    decreases j - i
  {
    if i < j {
      SkipToQuoteOverText(s, i + 1, j);
    }
  }
}
