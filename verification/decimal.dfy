/**
 * Java `int` arithmetic and text: `Integer.toString`, `Integer.parseInt` (radix 10)
 * and the two's-complement wrap-around of `+` on 32-bit values.
 */
module Decimal {
  import opened Results

  const IntMin: int := -0x8000_0000
  const IntMax: int := 0x7fff_ffff

  /** The values of a Java `int`. */
  type Int32 = n: int | IntMin <= n <= IntMax

  /** Java `int` addition: the mathematical result reduced modulo 2^32 into range. */
  function Wrap(n: int): (r: Int32)
    ensures IntMin <= n <= IntMax ==> r == n
    ensures n == IntMax + 1 ==> r == IntMin
  {
    ((n - IntMin) % 0x1_0000_0000) + IntMin
  }

  predicate IsDigit(c: char) {
    '0' <= c <= '9'
  }

  predicate AllDigits(s: string) {
    forall i :: 0 <= i < |s| ==> IsDigit(s[i])
  }

  function DigitValue(c: char): (d: nat)
    requires IsDigit(c)
    ensures d < 10
  {
    (c as int) - ('0' as int)
  }

  function DigitChar(d: nat): (c: char)
    requires d < 10
    ensures IsDigit(c) && DigitValue(c) == d
  {
    (('0' as int) + d) as char
  }

  /** Decimal digits of `n` with no leading zero. */
  function NatToString(n: nat): (s: string)
    ensures |s| > 0 && AllDigits(s)
    ensures |s| > 1 ==> s[0] != '0'
    decreases n
  {
    if n < 10 then [DigitChar(n)] else NatToString(n / 10) + [DigitChar(n % 10)]
  }

  /** `Integer.toString(n)`: a minus sign for negatives, then the digits of |n|. */
  function IntToString(n: int): (s: string)
    ensures |s| > 0
    ensures s[0] == '-' <==> n < 0
    ensures n >= 0 ==> AllDigits(s)
    ensures n < 0 ==> AllDigits(s[1..])
  {
    if n < 0 then "-" + NatToString(-n) else NatToString(n)
  }

  /** The number a run of digits denotes, most significant first (0 for no digits). */
  function DigitsValue(s: string): nat
    requires AllDigits(s)
    decreases |s|
  {
    if |s| == 0 then 0 else DigitsValue(s[..|s| - 1]) * 10 + DigitValue(s[|s| - 1])
  }

  /**
   * `Integer.parseInt(s)`: an optional sign, at least one digit, and a value
   * that fits in an `int`; anything else is `None` (a `NumberFormatException`).
   */
  function ParseInt(s: string): (r: Option<Int32>)
    ensures |s| == 0 ==> r.None?
    ensures |s| > 0 && AllDigits(s) ==>
              r == (if DigitsValue(s) <= IntMax then Some(DigitsValue(s)) else None)
    ensures |s| > 1 && s[0] == '+' && AllDigits(s[1..]) ==>
              r == (if DigitsValue(s[1..]) <= IntMax then Some(DigitsValue(s[1..])) else None)
    ensures |s| > 1 && s[0] == '-' && AllDigits(s[1..]) ==>
              r == (if DigitsValue(s[1..]) <= -IntMin then Some(-(DigitsValue(s[1..]) as int)) else None)
    ensures r.Some? ==>
              (AllDigits(s) && |s| > 0) || (|s| > 1 && (s[0] == '+' || s[0] == '-') && AllDigits(s[1..]))
  {
    if |s| == 0 then None
    else
      var digits := if s[0] == '-' || s[0] == '+' then s[1..] else s;
      if |digits| == 0 || !AllDigits(digits) then None
      else
        var v: int := if s[0] == '-' then -(DigitsValue(digits) as int) else DigitsValue(digits);
        if IntMin <= v <= IntMax then Some(v) else None
  }

  lemma {:induction false} NatToStringValue(n: nat)
    ensures DigitsValue(NatToString(n)) == n
    decreases n
  {
    var s := NatToString(n);
    if n >= 10 {
      var front := NatToString(n / 10);
      assert s == front + [DigitChar(n % 10)];
      assert s[..|s| - 1] == front;
      NatToStringValue(n / 10);
    }
  }

  /** `parseInt` reads back what `toString` wrote, for every `int`. */
  lemma ParseIntToString(n: Int32)
    ensures ParseInt(IntToString(n)) == Some(n)
  {
    var s := IntToString(n);
    if n < 0 {
      var m: nat := -(n as int);
      assert s[1..] == NatToString(m);
      NatToStringValue(m);
    } else {
      NatToStringValue(n);
    }
  }

  /** A rendered `int` holds only a sign and digits, so never the given non-digit character. */
  lemma IntToStringExcludes(n: int, c: char)
    requires !IsDigit(c) && c != '-'
    ensures c !in IntToString(n)
  {
    var s := IntToString(n);
    if n < 0 {
      assert s == [s[0]] + s[1..];
    }
  }
}
