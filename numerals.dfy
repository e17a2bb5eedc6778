/** Decimal text as the panel's entry fields hold it: Python's `str.isdigit`,
    `int(text)` and the rendering of an integer into an entry. */
module Numerals {

  datatype Option<T> = None | Some(value: T)

  /** A decimal digit that `int` reads; only the ASCII ones are modelled. */
  predicate IsDecimal(c: char)
  {
    '0' <= c <= '9'
  }

  /** A character `str.isdigit` accepts: the decimal digits and, beyond them,
      the superscript, subscript and circled digits, which `int` refuses. */
  predicate IsDigit(c: char)
  {
    IsDecimal(c)
    || c == '\U{B2}' || c == '\U{B3}' || c == '\U{B9}' || c == '\U{2070}'
    || ('\U{2074}' <= c <= '\U{2079}')
    || ('\U{2080}' <= c <= '\U{2089}')
    || ('\U{2460}' <= c <= '\U{2468}')
  }

  /** At least one character, and every character a decimal digit. */
  predicate IsDecimalString(s: string)
  {
    |s| > 0 && forall i :: 0 <= i < |s| ==> IsDecimal(s[i])
  }

  /** Python's `str.isdigit`: at least one character, and every character a
      digit. It accepts every decimal string, and more. */
  function IsDigitString(s: string): (b: bool)
    ensures IsDecimalString(s) ==> b
    ensures b ==> |s| > 0
  {
    |s| > 0 && forall i :: 0 <= i < |s| ==> IsDigit(s[i])
  }

  function DigitValue(c: char): (d: nat)
    requires IsDecimal(c)
    ensures d < 10
  {
    (c as int - '0' as int) as nat
  }

  function DigitChar(d: nat): (c: char)
    requires d < 10
    ensures IsDecimal(c) && DigitValue(c) == d
  {
    ('0' as int + d) as char
  }

  /** The number a string of decimal digits spells, most significant digit first. */
  function DigitsValue(s: string): nat
    requires forall i :: 0 <= i < |s| ==> IsDecimal(s[i])
  {
    if |s| == 0 then 0 else DigitsValue(s[..|s| - 1]) * 10 + DigitValue(s[|s| - 1])
  }

  /** The decimal rendering of a natural number, without leading zeros. */
  function NatToString(n: nat): (s: string)
    ensures IsDecimalString(s)
    ensures s[0] == '0' ==> n == 0
  {
    if n < 10 then [DigitChar(n)] else NatToString(n / 10) + [DigitChar(n % 10)]
  }

  /** Python's `str(n)`, which an entry shows when an integer is inserted into
      it: decimal digits alone exactly when the integer is not negative. */
  function IntToString(n: int): (s: string)
    ensures IsDecimalString(s) <==> n >= 0
    ensures |s| > 0
  {
    if n < 0 then
      var s := "-" + NatToString(-n);
      assert !IsDecimal(s[0]);
      s
    else NatToString(n)
  }

  /** Python's `int(text)` on an optional sign followed by decimal digits; any
      other text raises ValueError, here `None`. Decimal text always parses,
      to a number that is not negative. */
  function ParseInt(s: string): (r: Option<int>)
    ensures r.Some? ==> |s| > 0
    ensures IsDecimalString(s) ==> r.Some? && r.value >= 0
  {
    if IsDecimalString(s) then Some(DigitsValue(s))
    else if |s| > 1 && s[0] == '-' && IsDecimalString(s[1..]) then Some(-(DigitsValue(s[1..]) as int))
    else if |s| > 1 && s[0] == '+' && IsDecimalString(s[1..]) then Some(DigitsValue(s[1..]))
    else None
  }

  /** Reading back a rendered natural number gives the number. */
  lemma {:induction false} NatToStringRoundTrip(n: nat)
    ensures DigitsValue(NatToString(n)) == n
  {
    var s := NatToString(n);
    if n >= 10 {
      NatToStringRoundTrip(n / 10);
      assert s[..|s| - 1] == NatToString(n / 10);
    }
  }

  /** What an entry shows after an integer is inserted into it reads back, with
      `int`, as that integer. */
  lemma IntToStringRoundTrip(n: int)
    ensures ParseInt(IntToString(n)) == Some(n)
  {
    if n < 0 {
      var s := IntToString(n);
      NatToStringRoundTrip(-n);
      assert s[1..] == NatToString(-n);
      assert !IsDecimal(s[0]);
    } else {
      NatToStringRoundTrip(n);
    }
  }
}
