/**
 * Base-10 formatting and parsing of signed 64-bit integers, as Go's
 * `strconv.FormatInt(x, 10)` and `strconv.ParseInt(s, 10, 64)` do them.
 * The `previous_capacity` annotation is written with the first and read back
 * with the second.
 */
module Decimal {
  import opened Wrappers

  const MinInt64: int := -0x8000_0000_0000_0000
  const MaxInt64: int := 0x7fff_ffff_ffff_ffff

  /** Go's `int64`. */
  type Int64 = x: int | -0x8000_0000_0000_0000 <= x <= 0x7fff_ffff_ffff_ffff

  predicate IsDigit(c: char) {
    '0' <= c <= '9'
  }

  predicate AllDigits(s: string) {
    forall i :: 0 <= i < |s| ==> IsDigit(s[i])
  }

  function DigitValue(c: char): (d: nat)
    requires IsDigit(c)
    ensures d < 10
  {
    c as int - '0' as int
  }

  function DigitChar(d: nat): (c: char)
    requires d < 10
    ensures IsDigit(c) && DigitValue(c) == d
  {
    ('0' as int + d) as char
  }

  /** The number a run of decimal digits denotes, most significant first; 0 for the empty run. */
  function DigitsValue(s: string): nat
    requires AllDigits(s)
    decreases |s|
  {
    if s == [] then 0 else DigitsValue(s[..|s| - 1]) * 10 + DigitValue(s[|s| - 1])
  }

  /** The shortest decimal digits of `n`: no leading zero, "0" for zero. */
  function Digits(n: nat): (s: string)
    ensures |s| > 0 && AllDigits(s)
    ensures n > 0 ==> s[0] != '0'
    decreases n
  {
    if n < 10 then [DigitChar(n)] else Digits(n / 10) + [DigitChar(n % 10)]
  }

  /** `strconv.FormatInt(x, 10)`: a minus sign for negatives, then the digits. */
  function FormatInt(x: Int64): string {
    if x < 0 then "-" + Digits(-(x as int)) else Digits(x)
  }

  /** The part of a marker after an optional leading sign. */
  function Unsigned(s: string): string
    requires |s| > 0
  {
    if s[0] == '+' || s[0] == '-' then s[1..] else s
  }

  /**
   * `strconv.ParseInt(s, 10, 64)`, with `None` for its error return: an
   * optional '+' or '-', then one or more ASCII digits (leading zeros
   * allowed, no underscores, no spaces), and the value must fit an int64.
   */
  function ParseInt(s: string): Option<Int64> {
    if s == [] then None
    else
      var body := Unsigned(s);
      if body == [] || !AllDigits(body) then None
      else
        var magnitude := DigitsValue(body);
        var x: int := if s[0] == '-' then -(magnitude as int) else magnitude;
        if MinInt64 <= x <= MaxInt64 then Some(x) else None
  }

  lemma {:induction false} DigitsRoundTrip(n: nat)
    ensures DigitsValue(Digits(n)) == n
    decreases n
  {
    if n >= 10 {
      var s := Digits(n);
      DigitsRoundTrip(n / 10);
      assert s[..|s| - 1] == Digits(n / 10);
    }
  }

  /** What FormatInt writes, ParseInt reads back unchanged. */
  lemma FormatParseRoundTrip(x: Int64)
    ensures ParseInt(FormatInt(x)) == Some(x)
  {
    var s := FormatInt(x);
    if x < 0 {
      DigitsRoundTrip(-(x as int));
      assert s[1..] == Digits(-(x as int));
    } else {
      DigitsRoundTrip(x);
    }
  }

  /** Two different int64 values are never written as the same marker. */
  lemma FormatIntInjective(x: Int64, y: Int64)
    requires FormatInt(x) == FormatInt(y)
    ensures x == y
  {
    FormatParseRoundTrip(x);
    FormatParseRoundTrip(y);
  }

  /**
   * What ParseInt accepts: a signed run of digits; the value is that run's
   * number, negated after a '-', and it fits an int64.
   */
  lemma ParseIntAcceptsOnlyDecimal(s: string)
    requires ParseInt(s).Some?
    ensures |s| > 0 && |Unsigned(s)| > 0 && AllDigits(Unsigned(s))
    ensures MinInt64 <= ParseInt(s).value <= MaxInt64
    ensures ParseInt(s).value == if s[0] == '-' then -(DigitsValue(Unsigned(s)) as int) else DigitsValue(Unsigned(s))
  {
  }

  /** Conversely, every signed run of digits whose value fits an int64 parses to that value. */
  lemma ParseIntAcceptsEveryDecimal(s: string)
    requires |s| > 0 && |Unsigned(s)| > 0 && AllDigits(Unsigned(s))
    requires var x: int := if s[0] == '-' then -(DigitsValue(Unsigned(s)) as int) else DigitsValue(Unsigned(s));
             MinInt64 <= x <= MaxInt64
    ensures ParseInt(s) == Some(if s[0] == '-' then -(DigitsValue(Unsigned(s)) as int) else DigitsValue(Unsigned(s)))
  {
  }
}
