/**
  Python's `str()` of the configuration values the charm interpolates into its
  backend configuration (an `int` or a `bool`), and a parser that reads a
  decimal integer back. The parser is the partner of the printer: printing and
  then parsing returns the original integer.
 */
module Decimal {
  import opened Options

  predicate IsDigit(c: char) {
    '0' <= c <= '9'
  }

  predicate AllDigits(s: string) {
    forall i :: 0 <= i < |s| ==> IsDigit(s[i])
  }

  function DigitChar(d: nat): (c: char)
    requires d < 10
    ensures IsDigit(c) && c as int - '0' as int == d
  {
    ('0' as int + d) as char
  }

  /** Python `str(n)` for a non-negative integer: digits, no leading zero. */
  function NatToString(n: nat): (s: string)
    ensures |s| > 0 && AllDigits(s)
    ensures s[0] == '0' <==> n == 0
    ensures n < 10 <==> |s| == 1
    decreases n
  {
    if n < 10 then [DigitChar(n)] else NatToString(n / 10) + [DigitChar(n % 10)]
  }

  /** Python `str(i)` for any integer: a minus sign before the digits when negative. */
  function IntToString(i: int): (s: string)
    ensures |s| > 0 && ':' !in s
    ensures i < 0 <==> s[0] == '-'
    ensures var d := if i < 0 then s[1..] else s;
            |d| > 0 && AllDigits(d) && (d[0] == '0' <==> i == 0)
  {
    if i < 0 then "-" + NatToString(-i) else NatToString(i)
  }

  /** Python `str(b)` for a boolean. */
  function BoolToString(b: bool): (s: string)
    ensures ':' !in s
  {
    if b then "True" else "False"
  }

  /** Reads a non-empty run of decimal digits; None for anything else. */
  function ParseDigits(s: string): (r: Option<nat>)
    ensures r.Some? <==> |s| > 0 && AllDigits(s)
    decreases |s|
  {
    if |s| == 0 || !IsDigit(s[|s| - 1]) then None
    else
      var d := s[|s| - 1] as int - '0' as int;
      if |s| == 1 then Some(d)
      else match ParseDigits(s[..|s| - 1])
        case None => None
        case Some(v) => Some(10 * v + d)
  }

  /** Reads an optionally negative decimal integer; None for anything else. */
  function ParseInt(s: string): (r: Option<int>)
    ensures r.Some? ==> |s| > 0 && (r.value < 0 ==> s[0] == '-')
  {
    if |s| > 0 && s[0] == '-' then
      match ParseDigits(s[1..])
      case None => None
      case Some(v) => Some(0 - v as int)
    else
      match ParseDigits(s)
      case None => None
      case Some(v) => Some(v as int)
  }

  lemma {:induction false} ParseNatToString(n: nat)
    ensures ParseDigits(NatToString(n)) == Some(n)
    decreases n
  {
    if n >= 10 {
      var s := NatToString(n / 10);
      ParseNatToString(n / 10);
      var t := s + [DigitChar(n % 10)];
      assert t[..|t| - 1] == s;
    }
  }

  /** Printing an integer and parsing the text back gives the integer. */
  lemma ParseIntToString(i: int)
    ensures ParseInt(IntToString(i)) == Some(i)
  {
    var s := IntToString(i);
    if i < 0 {
      var t := NatToString(-i);
      ParseNatToString(-i);
      assert s == "-" + t;
      assert s[1..] == t;
      assert |s| > 0 && s[0] == '-';
      assert ParseDigits(s[1..]) == Some(-i);
    } else {
      ParseNatToString(i);
      assert s == NatToString(i);
      assert s[0] != '-';
      assert ParseDigits(s) == Some(i);
    }
  }
}
