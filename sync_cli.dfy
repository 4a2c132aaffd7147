/** The command-line parser of the sync script: `--key=value` arguments
    fold, left to right, into an options record. */
module SyncCli {
  import opened Domain

  // ---------------------------------------------------------------------
  // parseInt(text, 10)

  /** A JavaScript number produced by parseInt: NaN or an integer. */
  datatype ParsedInt = NaN | Num(n: int)

  predicate IsDigit(c: char) { '0' <= c <= '9' }

  function DigitValue(c: char): nat
    requires IsDigit(c)
  {
    (c as int - '0' as int) as nat
  }

  function DigitChar(d: nat): (c: char)
    requires d < 10
    ensures IsDigit(c) && DigitValue(c) == d
  {
    ('0' as int + d) as char
  }

  /** The value of a string of decimal digits. */
  function DigitsValue(ds: string): nat
    requires forall k :: 0 <= k < |ds| ==> IsDigit(ds[k])
  {
    if ds == [] then 0 else DigitsValue(ds[..|ds| - 1]) * 10 + DigitValue(ds[|ds| - 1])
  }

  /** The number of leading decimal digits. */
  function DigitPrefixLength(s: string): (n: nat)
    ensures n <= |s|
    ensures forall k :: 0 <= k < n ==> IsDigit(s[k])
    ensures n < |s| ==> !IsDigit(s[n])
  {
    if s == [] || !IsDigit(s[0]) then 0 else 1 + DigitPrefixLength(s[1..])
  }

  /** The leading decimal digits of `u` read as a number, or NaN. */
  function ParseUnsigned(u: string): (r: ParsedInt)
    ensures r.Num? <==> u != [] && IsDigit(u[0])
    ensures r.Num? ==> r.n >= 0
  {
    var n := DigitPrefixLength(u);
    if n == 0 then NaN else Num(DigitsValue(u[..n]))
  }

  function Negate(p: ParsedInt): ParsedInt
  {
    match p
    case NaN => NaN
    case Num(n) => Num(-n)
  }

  /** An optional sign, then digits. */
  function ParseSigned(t: string): ParsedInt
  {
    if t != [] && t[0] == '-' then Negate(ParseUnsigned(t[1..]))
    else if t != [] && t[0] == '+' then ParseUnsigned(t[1..])
    else ParseUnsigned(t)
  }

  /** `parseInt(s, 10)`: optional leading white space and sign, then the
      longest run of decimal digits; NaN when there is no digit. */
  function ParseInt(s: string): ParsedInt
  {
    ParseSigned(TrimStart(s))
  }

  /** The decimal rendering of a natural number (its inverse). */
  function Decimal(n: nat): (s: string)
    ensures |s| > 0 && IsDigit(s[0])
    ensures forall k :: 0 <= k < |s| ==> IsDigit(s[k])
    decreases n
  {
    if n < 10 then [DigitChar(n)] else Decimal(n / 10) + [DigitChar(n % 10)]
  }

  lemma {:induction false} DigitsValueOfDecimal(n: nat)
    ensures DigitsValue(Decimal(n)) == n
    decreases n
  {
    if n >= 10 {
      var s := Decimal(n);
      assert s[..|s| - 1] == Decimal(n / 10);
      DigitsValueOfDecimal(n / 10);
    }
  }

  lemma {:induction false} DigitPrefixOfDigits(ds: string, rest: string)
    requires forall k :: 0 <= k < |ds| ==> IsDigit(ds[k])
    requires rest == [] || !IsDigit(rest[0])
    ensures DigitPrefixLength(ds + rest) == |ds|
  {
    if ds != [] {
      assert (ds + rest)[1..] == ds[1..] + rest;
      DigitPrefixOfDigits(ds[1..], rest);
    }
  }

  lemma ParseUnsignedOfDecimal(n: nat, rest: string)
    requires rest == [] || !IsDigit(rest[0])
    ensures ParseUnsigned(Decimal(n) + rest) == Num(n)
  {
    var d := Decimal(n);
    DigitPrefixOfDigits(d, rest);
    assert (d + rest)[..|d|] == d;
    DigitsValueOfDecimal(n);
  }

  /** parseInt reads back a decimal rendering and stops at the first
      character that is not a digit. */
  lemma ParseIntOfDecimal(n: nat, rest: string)
    requires rest == [] || !IsDigit(rest[0])
    ensures ParseInt(Decimal(n) + rest) == Num(n)
  {
    var d := Decimal(n);
    var x := d + rest;
    ParseUnsignedOfDecimal(n, rest);
    assert x[0] == d[0];
    assert !IsJsSpace(x[0]);
    assert TrimStart(x) == x;
    assert ParseSigned(x) == ParseUnsigned(x);
  }

  /** The same with a leading sign. */
  lemma ParseIntOfSignedDecimal(n: nat, rest: string)
    requires rest == [] || !IsDigit(rest[0])
    ensures ParseInt("-" + Decimal(n) + rest) == Num(-(n as int))
    ensures ParseInt("+" + Decimal(n) + rest) == Num(n)
  {
    ParseIntOfNegativeDecimal(n, rest);
    ParseIntOfPositiveDecimal(n, rest);
  }

  lemma ParseIntOfNegativeDecimal(n: nat, rest: string)
    requires rest == [] || !IsDigit(rest[0])
    ensures ParseInt("-" + Decimal(n) + rest) == Num(-(n as int))
  {
    var d := Decimal(n);
    var x := "-" + d + rest;
    ParseUnsignedOfDecimal(n, rest);
    AfterSign("-", d, rest);
    assert !IsJsSpace(x[0]);
    assert TrimStart(x) == x;
    assert ParseSigned(x) == Negate(ParseUnsigned(x[1..]));
  }

  lemma ParseIntOfPositiveDecimal(n: nat, rest: string)
    requires rest == [] || !IsDigit(rest[0])
    ensures ParseInt("+" + Decimal(n) + rest) == Num(n)
  {
    var d := Decimal(n);
    var x := "+" + d + rest;
    ParseUnsignedOfDecimal(n, rest);
    AfterSign("+", d, rest);
    assert !IsJsSpace(x[0]);
    assert TrimStart(x) == x;
    assert ParseSigned(x) == ParseUnsigned(x[1..]);
  }

  /** What follows a one-character sign. */
  lemma AfterSign(sign: string, d: string, rest: string)
    requires |sign| == 1
    ensures (sign + d + rest)[0] == sign[0]
    ensures (sign + d + rest)[1..] == d + rest
  {
  }

  /** Text with no digit after the optional white space and sign is NaN. */
  lemma ParseIntWithoutDigits(s: string)
    requires forall k :: 0 <= k < |s| ==> !IsDigit(s[k])
    ensures ParseInt(s) == NaN
  {
    var t := TrimStart(s);
    assert forall k :: 0 <= k < |t| ==> t[k] == s[|s| - |t| + k];
  }

  // ---------------------------------------------------------------------
  // Splitting

  predicate IsEventSeparator(c: char) { c == ',' || IsJsSpace(c) }

  function DropSeparators(s: string): (r: string)
    ensures |r| <= |s|
    ensures r == [] || !IsEventSeparator(r[0])
  {
    if s != [] && IsEventSeparator(s[0]) then DropSeparators(s[1..]) else s
  }

  function SplitFrom(s: string, current: string): (r: seq<string>)
    ensures |r| > 0
    decreases |s|
  {
    if s == [] then [current]
    else if IsEventSeparator(s[0]) then [current] + SplitFrom(DropSeparators(s[1..]), "")
    else SplitFrom(s[1..], current + [s[0]])
  }

  /** `s.split(/[,\s]+/)`: every maximal run of commas and white space
      separates two pieces; a leading or trailing run yields an empty piece. */
  function SplitOnSeparators(s: string): (r: seq<string>)
    ensures |r| > 0
  {
    SplitFrom(s, "")
  }

  predicate IsToken(t: string)
  {
    t != [] && forall k :: 0 <= k < |t| ==> !IsEventSeparator(t[k])
  }

  /** The pieces joined with single commas. */
  function JoinWithCommas(tokens: seq<string>): string
    requires |tokens| > 0
  {
    if |tokens| == 1 then tokens[0] else tokens[0] + "," + JoinWithCommas(tokens[1..])
  }

  lemma {:induction false} SplitFromToken(t: string, rest: string, current: string)
    requires forall k :: 0 <= k < |t| ==> !IsEventSeparator(t[k])
    ensures SplitFrom(t + rest, current) == SplitFrom(rest, current + t)
    decreases |t|
  {
    if t == [] {
      assert t + rest == rest;
      assert current + t == current;
    } else {
      assert !IsEventSeparator(t[0]);
      assert (t + rest)[0] == t[0];
      assert (t + rest)[1..] == t[1..] + rest;
      SplitFromToken(t[1..], rest, current + [t[0]]);
      assert current + [t[0]] + t[1..] == current + t;
    }
  }

  /** Splitting undoes joining non-empty separator-free pieces. */
  lemma {:induction false} SplitJoin(tokens: seq<string>)
    requires |tokens| > 0
    requires forall k :: 0 <= k < |tokens| ==> IsToken(tokens[k])
    ensures SplitOnSeparators(JoinWithCommas(tokens)) == tokens
  {
    SplitJoinFrom(tokens);
  }

  lemma {:induction false} SplitJoinFrom(tokens: seq<string>)
    requires |tokens| > 0
    requires forall k :: 0 <= k < |tokens| ==> IsToken(tokens[k])
    ensures SplitFrom(JoinWithCommas(tokens), "") == tokens
  {
    var t := tokens[0];
    if |tokens| == 1 {
      assert t + "" == t;
      assert "" + t == t;
      SplitFromToken(t, "", "");
    } else {
      var tail := JoinWithCommas(tokens[1..]);
      assert JoinWithCommas(tokens) == t + ("," + tail);
      SplitFromToken(t, "," + tail, "");
      assert ("," + tail)[1..] == tail;
      SplitJoinFrom(tokens[1..]);
      JoinStartsWithToken(tokens[1..]);
      assert DropSeparators(tail) == tail;
      assert "" + t == t;
    }
  }

  lemma {:induction false} JoinStartsWithToken(tokens: seq<string>)
    requires |tokens| > 0
    requires forall k :: 0 <= k < |tokens| ==> IsToken(tokens[k])
    ensures JoinWithCommas(tokens) != [] && !IsEventSeparator(JoinWithCommas(tokens)[0])
  {
    if |tokens| > 1 {
      assert JoinWithCommas(tokens)[0] == tokens[0][0];
    }
  }

  // ---------------------------------------------------------------------
  // Arguments

  /** The options record; None is an absent or undefined field. */
  datatype CliOptions = CliOptions(
    help: bool,
    events: Option<seq<int>>,
    requestsPerMinute: Option<ParsedInt>,
    concurrency: Option<ParsedInt>,
    maxRetries: Option<ParsedInt>,
    retryBaseDelayMs: Option<ParsedInt>,
    retryJitterMs: Option<ParsedInt>)

  const EmptyOptions := CliOptions(false, None, None, None, None, None, None)

  /** The index of the first '=' in `s`, or |s|. */
  function FirstEquals(s: string): (i: nat)
    ensures i <= |s|
    ensures forall k :: 0 <= k < i ==> s[k] != '='
    ensures i < |s| ==> s[i] == '='
  {
    if s == [] || s[0] == '=' then 0 else 1 + FirstEquals(s[1..])
  }

  /** The first piece of `arg.split("=")`. */
  function KeyOf(arg: string): (key: string)
    ensures '=' !in key
    ensures key <= arg
  {
    arg[..FirstEquals(arg)]
  }

  /** The second piece of `arg.split("=")`: undefined without an '=', and
      the text up to the next '=' otherwise. */
  function ValueOf(arg: string): (v: Option<string>)
    ensures v.None? <==> '=' !in arg
    ensures v.Some? ==> '=' !in v.value && KeyOf(arg) + "=" + v.value <= arg
  {
    var i := FirstEquals(arg);
    if i == |arg| then None
    else
      var rest := arg[i + 1..];
      var v := rest[..FirstEquals(rest)];
      assert arg[..i] + "=" + v == arg[..i + 1 + |v|];
      Some(v)
  }

  /** The positive integers among the parsed pieces, in order. */
  function PositiveEvents(pieces: seq<string>): (r: seq<int>)
    ensures forall k :: 0 <= k < |r| ==> r[k] > 0
    ensures |r| <= |pieces|
  {
    if pieces == [] then []
    else
      var rest := PositiveEvents(pieces[1..]);
      match ParseInt(pieces[0])
      case Num(n) => if n > 0 then [n] + rest else rest
      case NaN => rest
  }

  /** The `--events` value. */
  function EventsOption(value: Option<string>): (r: Option<seq<int>>)
    ensures r.None? <==> value.None?
  {
    match value
    case None => None
    case Some(v) => Some(PositiveEvents(SplitOnSeparators(v)))
  }

  /** `value ? parseInt(value, 10) : undefined`. */
  function NumericOption(value: Option<string>): (r: Option<ParsedInt>)
    ensures r.None? <==> value.None? || value.value == ""
  {
    if value.Some? && value.value != "" then Some(ParseInt(value.value)) else None
  }

  predicate IsHelp(arg: string) { arg == "--help" || arg == "-h" }

  /** The options the switch recognises. */
  datatype OptionKey =
    | EventsKey | RequestsPerMinuteKey | ConcurrencyKey | MaxRetriesKey
    | RetryBaseKey | RetryJitterKey | UnknownKey

  /** The case labels of the switch; `--rpm` and `--requests-per-minute`
      share one. */
  function KeyKind(key: string): OptionKey
  {
    if key == "--events" then EventsKey
    else if key == "--rpm" || key == "--requests-per-minute" then RequestsPerMinuteKey
    else if key == "--concurrency" then ConcurrencyKey
    else if key == "--max-retries" then MaxRetriesKey
    else if key == "--retry-base" then RetryBaseKey
    else if key == "--retry-jitter" then RetryJitterKey
    else UnknownKey
  }

  /** The effect of one argument on the options record. */
  function ApplyArg(o: CliOptions, arg: string): CliOptions
  {
    if IsHelp(arg) then o.(help := true)
    else
      var value := ValueOf(arg);
      match KeyKind(KeyOf(arg))
      case EventsKey => o.(events := EventsOption(value))
      case RequestsPerMinuteKey => o.(requestsPerMinute := NumericOption(value))
      case ConcurrencyKey => o.(concurrency := NumericOption(value))
      case MaxRetriesKey => o.(maxRetries := NumericOption(value))
      case RetryBaseKey => o.(retryBaseDelayMs := NumericOption(value))
      case RetryJitterKey => o.(retryJitterMs := NumericOption(value))
      case UnknownKey => o
  }

  /** All arguments applied left to right to the empty record. */
  function ParsedOptions(argv: seq<string>): CliOptions
  {
    if argv == [] then EmptyOptions else ApplyArg(ParsedOptions(argv[..|argv| - 1]), argv[|argv| - 1])
  }

  /** parseArgs. */
  method ParseArgs(argv: seq<string>) returns (options: CliOptions)
    ensures options == ParsedOptions(argv)
  {
    options := EmptyOptions;
    var i := 0;
    while i < |argv|
      invariant 0 <= i <= |argv|
      invariant options == ParsedOptions(argv[..i])
    {
      var arg := argv[i];
      assert argv[..i + 1][..i] == argv[..i];
      i := i + 1;
      if arg == "--help" || arg == "-h" {
        options := options.(help := true);
        continue;
      }
      var value := ValueOf(arg);
      var numeric := if value.Some? && value.value != "" then Some(ParseInt(value.value)) else None;
      match KeyKind(KeyOf(arg)) {
        case EventsKey =>
          options := options.(events := if value.Some? then Some(PositiveEvents(SplitOnSeparators(value.value))) else None);
        case RequestsPerMinuteKey => options := options.(requestsPerMinute := numeric);
        case ConcurrencyKey => options := options.(concurrency := numeric);
        case MaxRetriesKey => options := options.(maxRetries := numeric);
        case RetryBaseKey => options := options.(retryBaseDelayMs := numeric);
        case RetryJitterKey => options := options.(retryJitterMs := numeric);
        case UnknownKey =>
      }
    }
    assert argv[..i] == argv;
  }

  // ---------------------------------------------------------------------
  // Properties of the parser

  lemma {:induction false} KeyAndValueAfterPrefix(p: string, rest: string)
    requires '=' !in p
    requires rest == [] || rest[0] == '='
    ensures KeyOf(p + rest) == p
    ensures ValueOf(p + rest) == if rest == [] then None else Some(rest[1..][..FirstEquals(rest[1..])])
  {
    FirstEqualsAfterPrefix(p, rest);
    assert (p + rest)[..|p|] == p;
    if rest != [] {
      assert (p + rest)[|p| + 1..] == rest[1..];
    }
  }

  lemma {:induction false} FirstEqualsAfterPrefix(p: string, rest: string)
    requires '=' !in p
    requires rest == [] || rest[0] == '='
    ensures FirstEquals(p + rest) == |p|
  {
    if p != [] {
      assert p[0] in p;
      assert (p + rest)[1..] == p[1..] + rest;
      assert forall c :: c in p[1..] ==> c in p;
      FirstEqualsAfterPrefix(p[1..], rest);
    } else {
      assert p + rest == rest;
    }
  }

  /** `--rpm` and `--requests-per-minute` are the same option. */
  lemma RpmAlias(o: CliOptions, rest: string)
    requires rest == [] || rest[0] == '='
    ensures ApplyArg(o, "--rpm" + rest) == ApplyArg(o, "--requests-per-minute" + rest)
    ensures ApplyArg(o, "--rpm" + rest) == o.(requestsPerMinute := NumericOption(ValueOf("--rpm" + rest)))
  {
    KeyAndValueAfterPrefix("--rpm", rest);
    KeyAndValueAfterPrefix("--requests-per-minute", rest);
    assert KeyKind("--rpm") == RequestsPerMinuteKey;
    assert KeyKind("--requests-per-minute") == RequestsPerMinuteKey;
  }

  predicate IsNumericKey(k: OptionKey)
  {
    k != EventsKey && k != UnknownKey
  }

  /** The field a numeric option sets. */
  function NumericField(o: CliOptions, k: OptionKey): Option<ParsedInt>
    requires IsNumericKey(k)
  {
    match k
    case RequestsPerMinuteKey => o.requestsPerMinute
    case ConcurrencyKey => o.concurrency
    case MaxRetriesKey => o.maxRetries
    case RetryBaseKey => o.retryBaseDelayMs
    case RetryJitterKey => o.retryJitterMs
  }

  /** A numeric option given without `=value`, or with an empty value, sets
      its field to undefined. */
  lemma NumericOptionWithoutValue(o: CliOptions, key: string)
    requires '=' !in key && !IsHelp(key) && !IsHelp(key + "=")
    requires IsNumericKey(KeyKind(key))
    ensures NumericField(ApplyArg(o, key), KeyKind(key)) == None
    ensures NumericField(ApplyArg(o, key + "="), KeyKind(key)) == None
  {
    KeyAndValueAfterPrefix(key, "");
    assert key + "" == key;
    KeyAndValueAfterPrefix(key, "=");
    assert ("=")[1..] == "";
  }

  /** `--help`/`-h` sets help and changes nothing else; an unknown key only
      warns; a recognised key's field is overwritten whatever earlier
      arguments set it to. */
  lemma ArgumentEffects(argv: seq<string>, arg: string)
    ensures IsHelp(arg) ==> ParsedOptions(argv + [arg]) == ParsedOptions(argv).(help := true)
    ensures !IsHelp(arg) && KeyKind(KeyOf(arg)) == UnknownKey ==> ParsedOptions(argv + [arg]) == ParsedOptions(argv)
    ensures !IsHelp(arg) && IsNumericKey(KeyKind(KeyOf(arg))) ==>
              NumericField(ParsedOptions(argv + [arg]), KeyKind(KeyOf(arg))) == NumericOption(ValueOf(arg))
    ensures !IsHelp(arg) && KeyKind(KeyOf(arg)) == EventsKey ==>
              ParsedOptions(argv + [arg]).events == EventsOption(ValueOf(arg))
  {
    assert (argv + [arg])[..|argv|] == argv;
  }

  /** A comma-separated list of decimal gameweeks reads back as its positive
      members, in order. */
  lemma {:induction false} EventsRoundTrip(ns: seq<nat>)
    requires |ns| > 0
    ensures EventsOption(Some(JoinWithCommas(Decimals(ns)))) == Some(Positives(ns))
  {
    forall k | 0 <= k < |Decimals(ns)| ensures IsToken(Decimals(ns)[k]) {
      DecimalIsToken(ns[k]);
    }
    SplitJoin(Decimals(ns));
    PositiveEventsOfDecimals(ns);
  }

  function Decimals(ns: seq<nat>): (r: seq<string>)
    ensures |r| == |ns|
    ensures forall k :: 0 <= k < |ns| ==> r[k] == Decimal(ns[k])
  {
    if ns == [] then [] else [Decimal(ns[0])] + Decimals(ns[1..])
  }

  function Positives(ns: seq<nat>): seq<int>
  {
    if ns == [] then [] else (if ns[0] > 0 then [ns[0] as int] else []) + Positives(ns[1..])
  }

  lemma DecimalIsToken(n: nat)
    ensures IsToken(Decimal(n))
  {
  }

  lemma {:induction false} PositiveEventsOfDecimals(ns: seq<nat>)
    ensures PositiveEvents(Decimals(ns)) == Positives(ns)
  {
    if ns != [] {
      ParseIntOfDecimal(ns[0], "");
      assert Decimal(ns[0]) + "" == Decimal(ns[0]);
      assert Decimals(ns)[1..] == Decimals(ns[1..]);
      PositiveEventsOfDecimals(ns[1..]);
    }
  }
}
