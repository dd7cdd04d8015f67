/**
 * Calendar dates, the Python values a date bound can arrive as, `datetime.strptime`
 * for the purely numeric formats, and the date normaliser `_ensure_date` that every
 * parser module carries a copy of.
 */
module Dates {

  import opened Wrappers
  import opened Text

  /** A `datetime.date`. */
  datatype Date = Date(year: int, month: int, day: int)

  /** A time of day, the part of a `datetime.datetime` that a `date` lacks. */
  datatype Clock = Clock(hour: int, minute: int, second: int)

  predicate IsLeap(y: int)
  {
    y % 4 == 0 && (y % 100 != 0 || y % 400 == 0)
  }

  function DaysInMonth(y: int, m: int): int
  {
    if m == 2 then (if IsLeap(y) then 29 else 28)
    else if m == 4 || m == 6 || m == 9 || m == 11 then 30
    else 31
  }

  /** What the `date` constructor accepts (`MINYEAR` is 1, `MAXYEAR` is 9999). */
  predicate ValidDate(d: Date)
  {
    1 <= d.year <= 9999 && 1 <= d.month <= 12 && 1 <= d.day <= DaysInMonth(d.year, d.month)
  }

  /** Python's `a < b` on two dates: (year, month, day) compared lexicographically. */
  predicate Before(a: Date, b: Date)
  {
    a.year < b.year
    || (a.year == b.year && a.month < b.month)
    || (a.year == b.year && a.month == b.month && a.day < b.day)
  }

  /** The Python values the runners accept for `start_date` and `end_date`. */
  datatype PyValue =
    | PyNone
    | PyDate(date: Date)
    | PyDateTime(date: Date, clock: Clock)
    | PyStr(s: string)
    | PyOther(typeName: string)   // any other object; `typeName` is `str(type(obj))`

  /** The two exception classes the date code raises. */
  datatype PyError = ValueError(msg: string) | TypeError(msg: string)

  /** `isinstance(v, date)`: `datetime` is a subclass of `date`, so it answers yes for both. */
  predicate IsInstanceDate(v: PyValue)
  {
    v.PyDate? || v.PyDateTime?
  }

  /** `isinstance(v, datetime)` */
  predicate IsInstanceDateTime(v: PyValue)
  {
    v.PyDateTime?
  }

  /** `v.date()` for a datetime; other values are left alone. */
  function DatePart(v: PyValue): PyValue
  {
    match v
    case PyDateTime(d, _) => PyDate(d)
    case _ => v
  }

  // ---------------------------------------------------------------------------
  // datetime.strptime for numeric formats
  // ---------------------------------------------------------------------------

  /** The numeric `strptime` directives the scrapers use. */
  datatype Directive = Year | Month | Day | Hour | Minute | Second

  /** One element of the regular expression `strptime` compiles a format into. */
  datatype Token =
    | Lit(c: char)         // a literal character, matched ignoring case
    | Spaces               // a run of format whitespace becomes `\s+`
    | Field(d: Directive)  // a directive becomes a named group

  function DirectiveOf(c: char): Option<Directive>
  {
    if c == 'Y' then Some(Year)
    else if c == 'm' then Some(Month)
    else if c == 'd' then Some(Day)
    else if c == 'H' then Some(Hour)
    else if c == 'M' then Some(Minute)
    else if c == 'S' then Some(Second)
    else None
  }

  /**
   * The pattern `strptime` builds from a format: runs of whitespace become `\s+`, `%X`
   * becomes the directive's group. None when the format holds a directive outside the
   * numeric ones above (`%A`, `%B`, `%b`, ...), whose meaning depends on the locale.
   */
  function Compile(f: string): Option<seq<Token>>
    decreases |f|
  {
    if f == [] then Some([])
    else if f[0] == '%' then
      if |f| < 2 then None
      else
        match DirectiveOf(f[1])
        case None => None
        case Some(d) =>
          match Compile(f[2..])
          case None => None
          case Some(rest) => Some([Field(d)] + rest)
    else if IsSpace(f[0]) then
      var rest := StripLeft(f);
      match Compile(rest)
      case None => None
      case Some(toks) => Some([Spaces] + toks)
    else
      match Compile(f[1..])
      case None => None
      case Some(rest) => Some([Lit(f[0])] + rest)
  }

  predicate CharIn(s: string, i: nat, lo: char, hi: char)
  {
    i < |s| && lo <= s[i] <= hi
  }

  /**
   * The lengths of the alternatives of a directive's group that match `s` at `i`, in the
   * order the regular expression tries them:
   *   %Y `\d\d\d\d`    %m `1[0-2]|0[1-9]|[1-9]`    %d `3[01]|[12]\d|0[1-9]|[1-9]| [1-9]`
   *   %H `2[0-3]|[0-1]\d|\d`    %M `[0-5]\d|\d`    %S `6[0-1]|[0-5]\d|\d`
   */
  function Alternatives(d: Directive, s: string, i: nat): (r: seq<nat>)
    ensures forall k :: 0 <= k < |r| ==> 1 <= r[k] && i + r[k] <= |s|
  {
    match d
    case Year =>
      if CharIn(s, i, '0', '9') && CharIn(s, i + 1, '0', '9') && CharIn(s, i + 2, '0', '9')
         && CharIn(s, i + 3, '0', '9') then [4] else []
    case Month =>
      (if CharIn(s, i, '1', '1') && CharIn(s, i + 1, '0', '2') then [2] else [])
      + (if CharIn(s, i, '0', '0') && CharIn(s, i + 1, '1', '9') then [2] else [])
      + (if CharIn(s, i, '1', '9') then [1] else [])
    case Day =>
      (if CharIn(s, i, '3', '3') && CharIn(s, i + 1, '0', '1') then [2] else [])
      + (if CharIn(s, i, '1', '2') && CharIn(s, i + 1, '0', '9') then [2] else [])
      + (if CharIn(s, i, '0', '0') && CharIn(s, i + 1, '1', '9') then [2] else [])
      + (if CharIn(s, i, '1', '9') then [1] else [])
      + (if CharIn(s, i, ' ', ' ') && CharIn(s, i + 1, '1', '9') then [2] else [])
    case Hour =>
      (if CharIn(s, i, '2', '2') && CharIn(s, i + 1, '0', '3') then [2] else [])
      + (if CharIn(s, i, '0', '1') && CharIn(s, i + 1, '0', '9') then [2] else [])
      + (if CharIn(s, i, '0', '9') then [1] else [])
    case Minute =>
      (if CharIn(s, i, '0', '5') && CharIn(s, i + 1, '0', '9') then [2] else [])
      + (if CharIn(s, i, '0', '9') then [1] else [])
    case Second =>
      (if CharIn(s, i, '6', '6') && CharIn(s, i + 1, '0', '1') then [2] else [])
      + (if CharIn(s, i, '0', '5') && CharIn(s, i + 1, '0', '9') then [2] else [])
      + (if CharIn(s, i, '0', '9') then [1] else [])
  }

  /** `int(t)` for the text a group matched (digits, or a space and a digit for `%d`). */
  function GroupValue(t: string): nat
  {
    var digits := if t != [] && t[0] == ' ' then t[1..] else t;
    if forall k :: 0 <= k < |digits| ==> IsDigit(digits[k]) then DigitsValue(digits) else 0
  }

  /** A successful regular-expression match: the groups' values and where the match ends. */
  datatype Matched = Matched(groups: map<Directive, nat>, end: nat)

  /** The number of whitespace characters starting at `i`. */
  function SpaceRun(s: string, i: nat): (n: nat)
    requires i <= |s|
    ensures i + n <= |s|
    decreases |s| - i
  {
    if i < |s| && IsSpace(s[i]) then 1 + SpaceRun(s, i + 1) else 0
  }

  /** ASCII case folding, for the `re.IGNORECASE` the pattern is compiled with. */
  predicate SameIgnoringCase(a: char, b: char)
  {
    LowerChar(a) == LowerChar(b)
  }

  /**
   * `re.match` of the compiled pattern against `s` from `i`: the first match in the
   * order a backtracking matcher finds it (alternatives left to right, `\s+` greedy).
   * The match need not reach the end of `s`.
   */
  function Match(toks: seq<Token>, s: string, i: nat, groups: map<Directive, nat>): Option<Matched>
    requires i <= |s|
    decreases |toks|, 1, 0
  {
    if toks == [] then Some(Matched(groups, i))
    else
      match toks[0]
      case Lit(c) =>
        if i < |s| && SameIgnoringCase(s[i], c) then Match(toks[1..], s, i + 1, groups) else None
      case Spaces =>
        TrySpaceRuns(toks[1..], s, i, SpaceRun(s, i), groups)
      case Field(d) =>
        TryAlternatives(toks[1..], d, Alternatives(d, s, i), s, i, groups)
  }

  /** `\s+` followed by `rest`: runs of length n, n-1, ..., 1 are tried in turn. */
  function TrySpaceRuns(rest: seq<Token>, s: string, i: nat, n: nat, groups: map<Directive, nat>): Option<Matched>
    requires i + n <= |s|
    decreases |rest| + 1, 0, n
  {
    if n == 0 then None
    else
      match Match(rest, s, i + n, groups)
      case Some(m) => Some(m)
      case None => TrySpaceRuns(rest, s, i, n - 1, groups)
  }

  /** A group followed by `rest`: its alternatives are tried in order. */
  function TryAlternatives(rest: seq<Token>, d: Directive, alts: seq<nat>, s: string, i: nat,
                           groups: map<Directive, nat>): Option<Matched>
    requires i <= |s| && forall k :: 0 <= k < |alts| ==> i + alts[k] <= |s|
    decreases |rest| + 1, 0, |alts|
  {
    if alts == [] then None
    else
      match Match(rest, s, i + alts[0], groups[d := GroupValue(s[i..i + alts[0]])])
      case Some(m) => Some(m)
      case None => TryAlternatives(rest, d, alts[1..], s, i, groups)
  }

  function GroupOr(groups: map<Directive, nat>, d: Directive, default: nat): nat
  {
    if d in groups then groups[d] else default
  }

  /**
   * `datetime.strptime(s, fmt).date()` for a numeric format: None where Python raises
   * ValueError (no match, "unconverted data remains", or a date or time the `datetime`
   * constructor rejects, such as 31 April or second 60).
   */
  function StrptimeNumeric(toks: seq<Token>, s: string): (r: Option<Date>)
    ensures r.Some? ==> ValidDate(r.value)
  {
    match Match(toks, s, 0, map[])
    case None => None
    case Some(m) =>
      if m.end != |s| then None
      else
        var d := Date(GroupOr(m.groups, Year, 1900), GroupOr(m.groups, Month, 1), GroupOr(m.groups, Day, 1));
        if ValidDate(d) && GroupOr(m.groups, Second, 0) <= 59 then Some(d) else None
  }

  // ---------------------------------------------------------------------------
  // The date library, as far as it is not modelled concretely
  // ---------------------------------------------------------------------------

  /**
   * The parsers whose behaviour depends on the locale or on a third-party library; each
   * gives the date of what it parses, or None where it raises.
   */
  datatype DateLib = DateLib(
    localeStrptime: (string, string) -> Option<Date>,  // strptime(text, fmt) for %A, %B, %b formats
    fromIsoFormat: string -> Option<Date>,             // datetime.fromisoformat(text).date()
    dateutilParse: string -> Option<Date>              // dateutil.parser.parse(text).date()
  )

  /** `datetime.strptime(s, fmt).date()`: concrete for numeric formats, the locale's otherwise. */
  function Strptime(lib: DateLib, fmt: string, s: string): Option<Date>
  {
    match Compile(fmt)
    case Some(toks) => StrptimeNumeric(toks, s)
    case None => lib.localeStrptime(fmt, s)
  }

  /** The first of `fmts` that parses `s`, as the `for fmt in (...): try ... break` loops find it. */
  function FirstFormat(lib: DateLib, fmts: seq<string>, s: string): (r: Option<Date>)
    ensures r.Some? ==> exists k :: 0 <= k < |fmts| && Strptime(lib, fmts[k], s) == r
                                    && forall j :: 0 <= j < k ==> Strptime(lib, fmts[j], s).None?
    ensures r.None? <==> forall k :: 0 <= k < |fmts| ==> Strptime(lib, fmts[k], s).None?
  {
    if fmts == [] then None
    else
      match Strptime(lib, fmts[0], s)
      case Some(d) => Some(d)
      case None =>
        var r := FirstFormat(lib, fmts[1..], s);
        assert forall k :: 1 <= k < |fmts| ==> fmts[k] == fmts[1..][k - 1];
        r
  }

  /**
   * The `for fmt in (...): try: tanggal = strptime(txt, fmt).date(); break` loop of the
   * detik and rmol runners: the formats are tried in order and the first that parses wins.
   */
  method TryFormats(lib: DateLib, fmts: seq<string>, txt: string) returns (tanggal: Option<Date>)
    ensures tanggal == FirstFormat(lib, fmts, txt)
  {
    tanggal := None;
    var i := 0;
    while i < |fmts|
      invariant 0 <= i <= |fmts|
      invariant FirstFormat(lib, fmts, txt) == FirstFormat(lib, fmts[i..], txt)
    {
      var parsed := Strptime(lib, fmts[i], txt);
      if parsed.Some? {
        tanggal := parsed;
        break;
      }
      i := i + 1;
    }
  }

  // ---------------------------------------------------------------------------
  // _ensure_date
  // ---------------------------------------------------------------------------

  /** The formats `_ensure_date` tries, in order. */
  const EnsureDateFormats: seq<string> := ["%Y-%m-%d", "%Y/%m/%d", "%d-%m-%Y", "%Y-%m-%dT%H:%M:%S"]

  /** A normalised bound: no bound, a date, or (see `EnsureDate`) a datetime. */
  predicate IsBound(v: PyValue)
  {
    v.PyNone? || v.PyDate? || v.PyDateTime?
  }

  /**
   * The string branch of `_ensure_date` on the stripped text `s`: the formats in order,
   * then `fromisoformat`, then a ValueError.
   */
  function ParseBoundText(lib: DateLib, fmts: seq<string>, s: string): (r: Result<PyValue, PyError>)
    ensures r.Ok? ==> r.value.PyDate?
    ensures r.Err? ==> r.error.ValueError?
  {
    match FirstFormat(lib, fmts, s)
    case Some(d) => Ok(PyDate(d))
    case None =>
      match lib.fromIsoFormat(s)
      case Some(d) => Ok(PyDate(d))
      case None => Err(ValueError("String date format not supported: " + s))
  }

  /**
   * The first format that parses decides; only when none does is `fromisoformat` tried,
   * and only when that fails too is the ValueError raised.
   */
  lemma ParseBoundTextFirstWins(lib: DateLib, fmts: seq<string>, s: string)
    ensures forall k :: 0 <= k < |fmts| && Strptime(lib, fmts[k], s).Some?
                        && (forall j :: 0 <= j < k ==> Strptime(lib, fmts[j], s).None?) ==>
              ParseBoundText(lib, fmts, s) == Ok(PyDate(Strptime(lib, fmts[k], s).value))
    ensures (forall k :: 0 <= k < |fmts| ==> Strptime(lib, fmts[k], s).None?) ==>
              ParseBoundText(lib, fmts, s) ==
                if lib.fromIsoFormat(s).Some? then Ok(PyDate(lib.fromIsoFormat(s).value))
                else Err(ValueError("String date format not supported: " + s))
  {
    var r := FirstFormat(lib, fmts, s);
    forall k | 0 <= k < |fmts| && Strptime(lib, fmts[k], s).Some?
                 && (forall j :: 0 <= j < k ==> Strptime(lib, fmts[j], s).None?)
      ensures ParseBoundText(lib, fmts, s) == Ok(PyDate(Strptime(lib, fmts[k], s).value))
    {
      var k' :| 0 <= k' < |fmts| && Strptime(lib, fmts[k'], s) == r
                && forall j :: 0 <= j < k' ==> Strptime(lib, fmts[j], s).None?;
      assert k' == k;
    }
  }

  /**
   * `_ensure_date` as the detik, rmol and lampost modules define it. The branches are in
   * the source's order; because `isinstance(dt, date)` holds for a datetime, the
   * truncating branch is never taken and a datetime comes back unchanged.
   */
  function EnsureDate(lib: DateLib, v: PyValue): (r: Result<PyValue, PyError>)
    ensures r.Ok? ==> IsBound(r.value)
    ensures v.PyNone? ==> r == Ok(PyNone)
    ensures IsInstanceDate(v) ==> r == Ok(v)
    ensures v.PyStr? ==> r == ParseBoundText(lib, EnsureDateFormats, Strip(v.s))
    ensures v.PyOther? ==> r == Err(TypeError("Unsupported date type: " + v.typeName))
  {
    if v.PyNone? then Ok(PyNone)
    else if IsInstanceDate(v) then Ok(v)
    else if IsInstanceDateTime(v) then Ok(DatePart(v))
    else if v.PyStr? then ParseBoundText(lib, EnsureDateFormats, Strip(v.s))
    else Err(TypeError("Unsupported date type: " + v.typeName))
  }

  /** A datetime bound is returned as it is, not cut down to its date. */
  lemma DateTimeNotTruncated(lib: DateLib, d: Date, c: Clock)
    ensures EnsureDate(lib, PyDateTime(d, c)) == Ok(PyDateTime(d, c))
    ensures EnsureDate(lib, PyDateTime(d, c)) != Ok(DatePart(PyDateTime(d, c)))
  {
  }

  /** Normalising a normalised bound again changes nothing. */
  lemma EnsureDateIdempotent(lib: DateLib, v: PyValue)
    requires EnsureDate(lib, v).Ok?
    ensures EnsureDate(lib, EnsureDate(lib, v).value) == EnsureDate(lib, v)
  {
  }

  // ---------------------------------------------------------------------------
  // The date-range filter
  // ---------------------------------------------------------------------------

  /** The TypeError Python raises when a date is ordered against a datetime. */
  const CompareError: PyError := TypeError("can't compare datetime.datetime to datetime.date")

  /** The window as the caller means it: inclusive, each bound optional. */
  predicate InWindow(t: Date, start: PyValue, end: PyValue)
  {
    (start.PyDate? ==> !Before(t, start.date)) && (end.PyDate? ==> !Before(end.date, t))
  }

  /**
   * The filter every runner applies to an article's date,
   *   `if start and tanggal < start: continue` then `if end and tanggal > end: continue`,
   * with the bounds as `_ensure_date` returned them: Ok(true) keeps the article,
   * Ok(false) skips it, and a datetime bound that is reached raises.
   */
  function WindowCheck(t: Date, start: PyValue, end: PyValue): (r: Result<bool, PyError>)
    requires IsBound(start) && IsBound(end)
    ensures r.Ok? && r.value ==> InWindow(t, start, end)
    ensures !start.PyDateTime? && !end.PyDateTime? ==> r == Ok(InWindow(t, start, end))
    ensures start.PyDateTime? ==> r == Err(CompareError)
    ensures !start.PyDateTime? && !(start.PyDate? && Before(t, start.date)) && end.PyDateTime? ==> r == Err(CompareError)
    ensures start.PyDate? && Before(t, start.date) ==> r == Ok(false)
    ensures r.Err? ==> r == Err(CompareError) && (start.PyDateTime? || end.PyDateTime?)
    ensures r == Ok(true) ==> !start.PyDateTime? && !end.PyDateTime?
  {
    if !start.PyNone? && start.PyDateTime? then Err(CompareError)
    else if !start.PyNone? && Before(t, start.date) then Ok(false)
    else if !end.PyNone? && end.PyDateTime? then Err(CompareError)
    else if !end.PyNone? && Before(end.date, t) then Ok(false)
    else Ok(true)
  }

  // ---------------------------------------------------------------------------
  // str(date) and the round trip through _ensure_date
  // ---------------------------------------------------------------------------

  function Digits2(n: nat): (r: string)
    requires n < 100
    ensures |r| == 2 && IsDigit(r[0]) && IsDigit(r[1])
  {
    [DigitChar(n / 10), DigitChar(n % 10)]
  }

  function Digits4(n: nat): (r: string)
    requires n < 10000
    ensures |r| == 4 && forall k :: 0 <= k < 4 ==> IsDigit(r[k])
  {
    [DigitChar(n / 1000), DigitChar(n / 100 % 10), DigitChar(n / 10 % 10), DigitChar(n % 10)]
  }

  /** `str(d)` / `d.isoformat()`: `YYYY-MM-DD`. */
  function IsoText(d: Date): (r: string)
    requires ValidDate(d)
    ensures |r| == 10
  {
    Digits4(d.year) + "-" + Digits2(d.month) + "-" + Digits2(d.day)
  }

  lemma CompileField(f: string, d: Directive, rest: seq<Token>)
    requires |f| >= 2 && f[0] == '%' && DirectiveOf(f[1]) == Some(d) && Compile(f[2..]) == Some(rest)
    ensures Compile(f) == Some([Field(d)] + rest)
  {
  }

  lemma CompileLit(f: string, rest: seq<Token>)
    requires f != [] && f[0] != '%' && !IsSpace(f[0]) && Compile(f[1..]) == Some(rest)
    ensures Compile(f) == Some([Lit(f[0])] + rest)
  {
  }

  const YmdTokens: seq<Token> := [Field(Year), Lit('-'), Field(Month), Lit('-'), Field(Day)]

  /** The first format `_ensure_date` tries compiles to four digits, `-`, month, `-`, day. */
  lemma CompileYmd()
    ensures Compile(EnsureDateFormats[0]) == Some(YmdTokens)
  {
    var f5, f4, f3, f2, f1 := "%Y-%m-%d", "-%m-%d", "%m-%d", "-%d", "%d";
    assert f1[2..] == [] && f2[1..] == f1 && f3[2..] == f2 && f4[1..] == f3 && f5[2..] == f4;
    var r1 := [Field(Day)] + [];
    CompileField(f1, Day, []);
    var r2 := [Lit('-')] + r1;
    CompileLit(f2, r1);
    var r3 := [Field(Month)] + r2;
    CompileField(f3, Month, r2);
    var r4 := [Lit('-')] + r3;
    CompileLit(f4, r3);
    CompileField(f5, Year, r4);
    assert [Field(Year)] + r4 == YmdTokens;
  }

  lemma Digits2Value(n: nat)
    requires n < 100
    ensures GroupValue(Digits2(n)) == n
  {
    var t := Digits2(n);
    assert t[..1][..0] == [];
    assert t[..1] == [t[0]];
    assert DigitsValue(t[..1]) == n / 10;
  }

  lemma Digits4Value(n: nat)
    requires n < 10000
    ensures GroupValue(Digits4(n)) == n
  {
    var t := Digits4(n);
    var a, b := n / 100, n / 10;
    DivideTwice(n);
    assert t[..1][..0] == [];
    assert DigitsValue(t[..1]) == a / 10;
    assert t[..2][..1] == t[..1];
    assert DigitsValue(t[..2]) == a;
    assert t[..3][..2] == t[..2];
    assert DigitsValue(t[..3]) == b;
    assert t[..4] == t;
  }

  /** Dividing by 100, or by 10, and then by 10 divides by 1000, or by 100. */
  lemma DivideTwice(n: nat)
    ensures n / 1000 == n / 100 / 10 && n / 100 == n / 10 / 10
  {
  }

  /** Two digits of a month 1..12 are matched by `%m`'s first matching alternative, of length 2. */
  lemma MonthAlternative(s: string, i: nat, m: nat)
    requires 1 <= m <= 12 && i + 2 <= |s| && s[i..i + 2] == Digits2(m)
    ensures var alts := Alternatives(Month, s, i); alts != [] && alts[0] == 2
  {
    assert s[i] == Digits2(m)[0] && s[i + 1] == Digits2(m)[1];
  }

  /** Two digits of a day 1..31 are matched by `%d`'s first matching alternative, of length 2. */
  lemma DayAlternative(s: string, i: nat, d: nat)
    requires 1 <= d <= 31 && i + 2 <= |s| && s[i..i + 2] == Digits2(d)
    ensures var alts := Alternatives(Day, s, i); alts != [] && alts[0] == 2
  {
    assert s[i] == Digits2(d)[0] && s[i + 1] == Digits2(d)[1];
  }

  /** `datetime.strptime(str(d), "%Y-%m-%d")` gives back `d` for every valid date. */
  lemma {:induction false} StrptimeIsoText(d: Date)
    requires ValidDate(d)
    ensures StrptimeNumeric(YmdTokens, IsoText(d)) == Some(d)
  {
    var s := IsoText(d);
    assert s[..4] == Digits4(d.year) && s[4] == '-';
    Digits4Value(d.year);
    var g1 := map[Year := d.year];
    var g3 := g1[Month := d.month][Day := d.day];
    StrptimeIsoMonthDay(d);
    assert Match(YmdTokens[1..], s, 4, g1) == Some(Matched(g3, 10));
    assert Alternatives(Year, s, 0) == [4];
    assert Match(YmdTokens, s, 0, map[]) == Some(Matched(g3, 10));
  }

  /** The month and day of `str(d)`, after the year, match `%m-%d`. */
  lemma {:induction false} StrptimeIsoMonthDay(d: Date)
    requires ValidDate(d)
    ensures var g1 := map[Year := d.year];
      Match(YmdTokens[2..], IsoText(d), 5, g1) == Some(Matched(g1[Month := d.month][Day := d.day], 10))
  {
    var s := IsoText(d);
    assert s[5..7] == Digits2(d.month) && s[7] == '-' && s[8..10] == Digits2(d.day);
    Digits2Value(d.month);
    Digits2Value(d.day);
    MonthAlternative(s, 5, d.month);
    DayAlternative(s, 8, d.day);
    var g1 := map[Year := d.year];
    var g2 := g1[Month := d.month];
    var g3 := g2[Day := d.day];
    assert Match([], s, 10, g3) == Some(Matched(g3, 10));
    assert YmdTokens[4..] == [Field(Day)] && YmdTokens[4..][1..] == [];
    assert GroupValue(s[8..10]) == d.day;
    assert Match(YmdTokens[4..], s, 8, g2) == Some(Matched(g3, 10));
    assert Match(YmdTokens[3..], s, 7, g2) == Some(Matched(g3, 10));
  }

  /** A date written as `str(d)`, with any whitespace around it, normalises back to `d`. */
  lemma {:induction false} EnsureDateRoundTrip(lib: DateLib, d: Date, pre: string, post: string)
    requires ValidDate(d) && AllSpace(pre) && AllSpace(post)
    ensures EnsureDate(lib, PyStr(pre + IsoText(d) + post)) == Ok(PyDate(d))
  {
    var s := IsoText(d);
    StripPadded(pre, s, post);
    CompileYmd();
    StrptimeIsoText(d);
    assert Strptime(lib, EnsureDateFormats[0], s) == Some(d);
  }

  /** Stripping whitespace padding off a string that has none of its own gives the string. */
  lemma {:induction false} StripPadded(pre: string, s: string, post: string)
    requires AllSpace(pre) && AllSpace(post) && s != [] && !IsSpace(s[0]) && !IsSpace(s[|s| - 1])
    ensures Strip(pre + s + post) == s
  {
    assert pre + s + post == pre + (s + post);
    assert (s + post)[0] == s[0];
    StripLeftPadded(pre, s + post);
    StripRightPadded(s, post);
  }

  lemma {:induction false} StripLeftPadded(pre: string, s: string)
    requires AllSpace(pre) && s != [] && !IsSpace(s[0])
    ensures StripLeft(pre + s) == s
    decreases |pre|
  {
    if pre != [] {
      assert (pre + s)[0] == pre[0] && IsSpace(pre[0]);
      assert (pre + s)[1..] == pre[1..] + s;
      StripLeftPadded(pre[1..], s);
    } else {
      assert pre + s == s;
    }
  }

  lemma {:induction false} StripRightPadded(s: string, post: string)
    requires AllSpace(post) && s != [] && !IsSpace(s[|s| - 1])
    ensures StripRight(s + post) == s
    decreases |post|
  {
    if post != [] {
      assert (s + post)[|s + post| - 1] == post[|post| - 1] && IsSpace(post[|post| - 1]);
      assert (s + post)[..|s + post| - 1] == s + post[..|post| - 1];
      StripRightPadded(s, post[..|post| - 1]);
    } else {
      assert s + post == s;
    }
  }
}
