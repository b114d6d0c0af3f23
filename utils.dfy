/** Utility functions of the river: blank-string tests, trimming, time values and integer values
    read from the settings document. */
module Utils {
  import opened Wrappers
  import opened JavaNumbers
  import opened Settings

  /** String.trim removes every character whose code is at most U+0020 from both ends. */
  predicate IsTrimmable(c: char) { c <= ' ' }

  /** A string that trims to the empty string. */
  predicate IsBlank(s: string) { forall i :: 0 <= i < |s| ==> IsTrimmable(s[i]) }

  /** The longest suffix of s that does not start with a trimmable character. */
  function TrimLeading(s: string): (r: string)
    ensures |r| <= |s| && r == s[|s| - |r|..]
    ensures forall i :: 0 <= i < |s| - |r| ==> IsTrimmable(s[i])
    ensures r != [] ==> !IsTrimmable(r[0])
  {
    if |s| > 0 && IsTrimmable(s[0]) then TrimLeading(s[1..]) else s
  }

  /** The longest prefix of s that does not end with a trimmable character. */
  function TrimTrailing(s: string): (r: string)
    ensures |r| <= |s| && r == s[..|r|]
    ensures forall i :: |r| <= i < |s| ==> IsTrimmable(s[i])
    ensures r != [] ==> !IsTrimmable(r[|r| - 1])
  {
    if |s| > 0 && IsTrimmable(s[|s| - 1]) then TrimTrailing(s[..|s| - 1]) else s
  }

  /** String.trim: s without the trimmable characters at both ends. */
  function Trim(s: string): (r: string)
    ensures |r| <= |s|
    ensures r == [] <==> IsBlank(s)
    ensures r != [] ==> !IsTrimmable(r[0]) && !IsTrimmable(r[|r| - 1])
  {
    var l := TrimLeading(s);
    var r := TrimTrailing(l);
    assert r != [] ==> r[0] == l[0];
    r
  }

  /** What trim removes: the result is a slice of s, and everything before and after that slice
      is trimmable. */
  lemma TrimSlice(s: string)
    ensures exists k :: SliceAt(s, Trim(s), k)
  {
    var l := TrimLeading(s);
    var r := TrimTrailing(l);
    assert r == Trim(s);
    LeadingBlank(s);
    TrailingBlank(l);
    SliceOfCuts(s, l, r);
  }

  /** t is the slice of s starting at k, and everything before and after it is blank. */
  predicate SliceAt(s: string, t: string, k: int)
  {
    0 <= k <= |s| - |t| && t == s[k..k + |t|] && IsBlank(s[..k]) && IsBlank(s[k + |t|..])
  }

  /** Cutting a blank head off s and then a blank tail off the rest leaves a slice of s. */
  lemma SliceOfCuts(s: string, l: string, r: string)
    requires |l| <= |s| && l == s[|s| - |l|..] && IsBlank(s[..|s| - |l|])
    requires |r| <= |l| && r == l[..|r|] && IsBlank(l[|r|..])
    ensures SliceAt(s, r, |s| - |l|)
  {
    var k := |s| - |l|;
    assert r == s[k..k + |r|];
    assert s[k + |r|..] == l[|r|..];
  }

  /** What TrimLeading removes is blank. */
  lemma LeadingBlank(s: string)
    ensures IsBlank(s[..|s| - |TrimLeading(s)|])
  {
    var head := s[..|s| - |TrimLeading(s)|];
    forall i | 0 <= i < |head| ensures IsTrimmable(head[i]) { assert head[i] == s[i]; }
  }

  /** What TrimTrailing removes is blank. */
  lemma TrailingBlank(l: string)
    ensures IsBlank(l[|TrimTrailing(l)|..])
  {
    var r := TrimTrailing(l);
    var tail := l[|r|..];
    forall i | 0 <= i < |tail| ensures IsTrimmable(tail[i]) { assert tail[i] == l[|r| + i]; }
  }

  /** Trimming a trimmed string changes nothing. */
  lemma TrimIdempotent(s: string)
    ensures Trim(Trim(s)) == Trim(s)
  {
    var t := Trim(s);
    if t != [] {
      assert TrimLeading(t) == t;
      assert TrimTrailing(t) == t;
    }
  }

  /** Utils.isEmpty(String): null, or nothing but trimmable characters. */
  function IsEmpty(src: Option<string>): (r: bool)
    ensures r <==> src.None? || IsBlank(src.value)
  {
    src.None? || |src.value| == 0 || |Trim(src.value)| == 0
  }

  /** Utils.isEmpty(Object): null, or a blank String; a value of any other class is never empty. */
  function IsEmptyValue(src: Node): (r: bool)
    ensures r <==> src.Null? || (src.Str? && IsBlank(src.s))
    ensures !src.Null? && !src.Str? ==> !r
  {
    src.Null? || (src.Str? && IsEmpty(Some(src.s)))
  }

  /** Utils.trimToNull: null for null or blank input, otherwise the trimmed value, which is never
      blank. */
  function TrimToNull(src: Option<string>): (r: Option<string>)
    ensures r.None? <==> IsEmpty(src)
    ensures r.Some? ==> r.value == Trim(src.value) && !IsEmpty(r) && |r.value| <= |src.value|
  {
    if src.None? || |src.value| == 0 then None
    else
      var t := Trim(src.value);
      if |t| == 0 then None else Some(t)
  }

  /** The java.util.concurrent.TimeUnit values the river passes as default units. */
  datatype TimeUnit = Milliseconds | Seconds | Minutes | Hours | Days

  /** TimeUnit.toMillis(1). */
  function UnitMillis(u: TimeUnit): nat
  {
    match u
    case Milliseconds => 1
    case Seconds => 1000
    case Minutes => 60 * 1000
    case Hours => 60 * 60 * 1000
    case Days => 24 * 60 * 60 * 1000
  }

  /** The unit suffixes a time value may carry, with the number of milliseconds each stands for. */
  datatype Suffix = NoSuffix | MilliSuffix | SecondSuffix | MinuteSuffix | HourSuffix | DaySuffix | WeekSuffix

  function SuffixText(u: Suffix): string
  {
    match u
    case NoSuffix => ""
    case MilliSuffix => "ms"
    case SecondSuffix => "s"
    case MinuteSuffix => "m"
    case HourSuffix => "h"
    case DaySuffix => "d"
    case WeekSuffix => "w"
  }

  function SuffixMillis(u: Suffix): nat
  {
    match u
    case NoSuffix => 1
    case MilliSuffix => 1
    case SecondSuffix => 1000
    case MinuteSuffix => 60 * 1000
    case HourSuffix => 60 * 60 * 1000
    case DaySuffix => 24 * 60 * 60 * 1000
    case WeekSuffix => 7 * 24 * 60 * 60 * 1000
  }

  predicate EndsWith(s: string, suffix: string)
  {
    |suffix| <= |s| && s[|s| - |suffix|..] == suffix
  }

  /** The suffix a time value carries (String.endsWith tested for ms, s, m, h, d, w in that
      order). */
  function SuffixOf(text: string): (u: Suffix)
    ensures |SuffixText(u)| <= |text|
  {
    if |text| == 0 then NoSuffix
    else
      var c := text[|text| - 1];
      if c == 's' && |text| >= 2 && text[|text| - 2] == 'm' then MilliSuffix
      else if c == 's' then SecondSuffix
      else if c == 'm' then MinuteSuffix
      else if c == 'h' then HourSuffix
      else if c == 'd' then DaySuffix
      else if c == 'w' then WeekSuffix
      else NoSuffix
  }

  /** TimeValue.parseTimeValue of a non-null text, in milliseconds: a number, optionally followed
      by one of the suffixes, times the suffix's milliseconds; None is the parse failure. */
  function ParseDuration(text: string): Option<int>
  {
    var u := SuffixOf(text);
    match ParseLong(text[..|text| - |SuffixText(u)|])
    case Some(v) => Some(v * SuffixMillis(u))
    case None => None
  }

  /** A number ending in a digit, followed by a suffix, is read with that suffix. */
  lemma SuffixOfNumber(d: string, u: Suffix)
    requires |d| > 0 && IsDigit(d[|d| - 1])
    ensures SuffixOf(d + SuffixText(u)) == u
  {
    var text := d + SuffixText(u);
    if u == NoSuffix {
      assert text[|text| - 1] == d[|d| - 1];
    } else if u != MilliSuffix {
      assert text[|text| - 2] == d[|d| - 1];
    }
  }

  /** Writing a number with a suffix and parsing it back gives the number times the suffix's
      milliseconds: zero and negative numbers included. */
  lemma DurationRoundTrip(n: int, u: Suffix)
    requires LONG_MIN <= n <= LONG_MAX
    ensures ParseDuration(Decimal(n) + SuffixText(u)) == Some(n * SuffixMillis(u))
  {
    var d := Decimal(n);
    var text := d + SuffixText(u);
    DecimalRoundTrip(n, LONG_MIN, LONG_MAX);
    SuffixOfNumber(d, u);
    assert text[..|text| - |SuffixText(u)|] == d;
  }

  /** Utils.parseTimeValue: with no settings or no such key, the default duration in milliseconds
      (0 when no default unit is given); otherwise the key's value parsed as a time value, a parse
      failure being reported for that key. */
  function ParseTimeValue(settings: Option<seq<Entry>>, key: string, defaultDuration: int, defaultUnit: Option<TimeUnit>): (r: Result<int>)
    ensures (settings.None? || !ContainsKey(settings.value, key)) ==>
      r == Ok(if defaultUnit.Some? then defaultDuration * UnitMillis(defaultUnit.value) else 0)
    ensures r.Err? && r.error.ParseError? ==> r.error.setting == key
    ensures settings.Some? && ContainsKey(settings.value, key) && Get(settings.value, key).Null? ==>
      r == (if defaultUnit.Some? then Ok(defaultDuration * UnitMillis(defaultUnit.value)) else Err(NullPointer))
    ensures settings.Some? && !Get(settings.value, key).Null? ==>
      var text := NodeStringValue(Get(settings.value, key)).value;
      (r.Ok? <==> ParseDuration(text).Some?) && (r.Ok? ==> Some(r.value) == ParseDuration(text))
  {
    if settings.None? || !ContainsKey(settings.value, key) then
      Ok(if defaultUnit.Some? then defaultDuration * UnitMillis(defaultUnit.value) else 0)
    else
      match NodeStringValue(Get(settings.value, key))
      // TimeValue.parseTimeValue returns the default; its millis() needs a unit
      case None => if defaultUnit.Some? then Ok(defaultDuration * UnitMillis(defaultUnit.value)) else Err(NullPointer)
      case Some(text) =>
        match ParseDuration(text)
        case Some(ms) => Ok(ms)
        case None => Err(ParseError(key))
  }

  /** A setting holding a number written with a unit suffix is read back as that many
      milliseconds, whatever the default. */
  lemma ParseTimeValueOfWritten(settings: seq<Entry>, key: string, n: int, u: Suffix, defaultDuration: int, defaultUnit: Option<TimeUnit>)
    requires LONG_MIN <= n <= LONG_MAX
    requires Get(settings, key) == Str(Decimal(n) + SuffixText(u))
    ensures ParseTimeValue(Some(settings), key, defaultDuration, defaultUnit) == Ok(n * SuffixMillis(u))
  {
    DurationRoundTrip(n, u);
  }

  /** A numeric setting is read through its decimal rendering, as a number of milliseconds. */
  lemma ParseTimeValueOfNumber(settings: seq<Entry>, key: string, n: int, defaultDuration: int, defaultUnit: Option<TimeUnit>)
    requires LONG_MIN <= n <= LONG_MAX
    requires Get(settings, key) == Int(n)
    ensures ParseTimeValue(Some(settings), key, defaultDuration, defaultUnit) == Ok(n)
  {
    assert NodeStringValue(Int(n)) == Some(Decimal(n));
    DecimalDuration(n);
  }

  /** A bare decimal number is a duration of that many milliseconds. */
  lemma DecimalDuration(n: int)
    requires LONG_MIN <= n <= LONG_MAX
    ensures ParseDuration(Decimal(n)) == Some(n)
  {
    DurationRoundTrip(n, NoSuffix);
    assert Decimal(n) + SuffixText(NoSuffix) == Decimal(n);
  }

  /** Utils.nodeIntegerValue: null gives null, a number is narrowed to an int, anything else is
      parsed from its string form with Integer.parseInt. */
  function NodeIntegerValue(node: Node): (r: Result<Option<int>>)
    ensures r == Ok(None) <==> node.Null?
    ensures r.Ok? && r.value.Some? ==> INT_MIN <= r.value.value <= INT_MAX
    ensures node.Int? ==> r.Ok? && r.value.Some? && (node.i - r.value.value) % 0x1_0000_0000 == 0
    ensures node.Int? && INT_MIN <= node.i <= INT_MAX ==> r == Ok(Some(node.i))
    ensures node.Str? ==> (r.Ok? <==> ParseInt(node.s).Some?)
    ensures node.Bool? || node.List? || node.Obj? ==> r.Err? && r.error.NumberFormat?
  {
    match node
    case Null => Ok(None)
    case Int(i) => Ok(Some(IntValue(i)))
    case _ =>
      var text := Render(node);
      match ParseInt(text)
      case Some(v) => Ok(Some(v))
      case None => Err(NumberFormat(text))
  }
}
