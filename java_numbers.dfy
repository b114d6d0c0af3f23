/** Java's decimal integer conversions: Long.toString, Long.parseLong and Integer.parseInt (ASCII
    digits), and the narrowing of a long to an int (Number.intValue). */
module JavaNumbers {
  import opened Wrappers

  const INT_MIN: int := -0x8000_0000
  const INT_MAX: int := 0x7FFF_FFFF
  const LONG_MIN: int := -0x8000_0000_0000_0000
  const LONG_MAX: int := 0x7FFF_FFFF_FFFF_FFFF

  predicate IsDigit(c: char) { '0' <= c <= '9' }

  predicate AllDigits(s: string) { forall i :: 0 <= i < |s| ==> IsDigit(s[i]) }

  function DigitValue(c: char): nat
    requires IsDigit(c)
  {
    (c as int) - ('0' as int)
  }

  function DigitChar(d: nat): (c: char)
    requires d < 10
    ensures IsDigit(c) && DigitValue(c) == d
  {
    (('0' as int) + d) as char
  }

  /** Value of a run of decimal digits, most significant first. */
  function DigitsValue(s: string): nat
    requires AllDigits(s)
  {
    if |s| == 0 then 0 else 10 * DigitsValue(s[..|s| - 1]) + DigitValue(s[|s| - 1])
  }

  /** The digits of n without leading zeros; reading them back gives n. */
  function NatDigits(n: nat): (r: string)
    ensures |r| > 0 && AllDigits(r) && DigitsValue(r) == n
  {
    if n < 10 then [DigitChar(n)]
    else
      var r := NatDigits(n / 10) + [DigitChar(n % 10)];
      assert r[..|r| - 1] == NatDigits(n / 10);
      r
  }

  /** Long.toString / Integer.toString. */
  function Decimal(v: int): (r: string)
    ensures |r| > 0 && IsDigit(r[|r| - 1])
  {
    if v < 0 then "-" + NatDigits(-v) else NatDigits(v)
  }

  /** Long.parseLong (lo, hi = the long range) and Integer.parseInt (the int range): an optional
      sign and one or more digits whose value lies in [lo, hi]; anything else is a
      NumberFormatException, modelled as None. */
  function ParseDecimal(s: string, lo: int, hi: int): (r: Option<int>)
    ensures r.Some? ==> lo <= r.value <= hi
    ensures r.Some? ==> |s| > 0 && (IsDigit(s[0]) || s[0] == '-' || s[0] == '+') && AllDigits(s[1..])
  {
    if |s| == 0 then None
    else
      var body := if s[0] == '-' || s[0] == '+' then s[1..] else s;
      if |body| == 0 || !AllDigits(body) then None
      else
        var mag: int := DigitsValue(body);
        var v := if s[0] == '-' then -mag else mag;
        if lo <= v <= hi then Some(v) else None
  }

  function ParseLong(s: string): Option<int> { ParseDecimal(s, LONG_MIN, LONG_MAX) }

  function ParseInt(s: string): Option<int> { ParseDecimal(s, INT_MIN, INT_MAX) }

  /** Parsing the rendering of a value in range gives the value back. */
  lemma DecimalRoundTrip(v: int, lo: int, hi: int)
    requires lo <= v <= hi
    ensures ParseDecimal(Decimal(v), lo, hi) == Some(v)
  {
    var s := Decimal(v);
    if v < 0 {
      assert s[1..] == NatDigits(-v);
    } else {
      var d := NatDigits(v);
      assert s[0] != '-' && s[0] != '+' by { assert IsDigit(d[0]); }
    }
  }

  /** Number.intValue of a long: keeps the low 32 bits, read as a two's-complement int. */
  function IntValue(x: int): (r: int)
    ensures INT_MIN <= r <= INT_MAX
    ensures (x - r) % 0x1_0000_0000 == 0
    ensures INT_MIN <= x <= INT_MAX ==> r == x
  {
    var m := (x - INT_MIN) % 0x1_0000_0000;
    assert x - (m + INT_MIN) == ((x - INT_MIN) / 0x1_0000_0000) * 0x1_0000_0000;
    m + INT_MIN
  }
}
