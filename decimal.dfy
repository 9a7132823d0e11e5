/**
 * Decimal text of Go `int` values: the signed-decimal parser `strconv.Atoi`
 * (on a 64-bit platform) and the `%v` rendering of an `int` used in error texts.
 */
module Decimal {
  import opened Wrappers

  /** Bounds of Go's 64-bit `int`. */
  const MinInt: int := -0x8000_0000_0000_0000
  const MaxInt: int := 0x7FFF_FFFF_FFFF_FFFF

  predicate IsDigit(c: char) {
    '0' <= c <= '9'
  }

  predicate AllDigits(s: string) {
    forall i :: 0 <= i < |s| ==> IsDigit(s[i])
  }

  function DigitValue(c: char): (d: nat)
    requires IsDigit(c)
    ensures d < 10
  {
    (c as int) - ('0' as int)
  }

  function DigitChar(d: nat): (c: char)
    requires d < 10
    ensures IsDigit(c) && DigitValue(c) == d
  {
    ('0' as int + d) as char
  }

  /** The number a run of decimal digits denotes, most significant digit first. */
  function DigitsValue(s: string): nat
    requires AllDigits(s)
  {
    if s == [] then 0 else DigitsValue(s[..|s| - 1]) * 10 + DigitValue(s[|s| - 1])
  }

  /** Shortest decimal text of a natural number: digits only, no leading zero. */
  function FormatNat(n: nat): (s: string)
    ensures |s| >= 1 && AllDigits(s)
    ensures s[0] == '0' ==> n == 0
  {
    if n < 10 then [DigitChar(n)] else FormatNat(n / 10) + [DigitChar(n % 10)]
  }

  /** How `fmt` renders an `int` with `%v`: a minus sign before the digits of a negative value. */
  function FormatInt(n: int): (s: string)
    ensures |s| >= 1
    ensures s[0] == '-' <==> n < 0
  {
    if n < 0 then "-" + FormatNat(-n) else FormatNat(n)
  }

  /**
   * `strconv.Atoi`: an optional '+' or '-' followed by at least one decimal digit and
   * nothing else, whose value fits a 64-bit `int`. Every other text is an error (None).
   */
  function Atoi(s: string): (r: Option<int>)
    ensures r.Some? ==> MinInt <= r.value <= MaxInt
    ensures r.Some? ==> (|s| >= 1 && AllDigits(s)) || (|s| >= 2 && (s[0] == '+' || s[0] == '-') && AllDigits(s[1..]))
    ensures |s| >= 1 && AllDigits(s) ==>
      r == if DigitsValue(s) <= MaxInt then Some(DigitsValue(s)) else None
    ensures |s| >= 2 && s[0] == '+' && AllDigits(s[1..]) ==>
      r == if DigitsValue(s[1..]) <= MaxInt then Some(DigitsValue(s[1..])) else None
    ensures |s| >= 2 && s[0] == '-' && AllDigits(s[1..]) ==>
      r == if DigitsValue(s[1..]) <= -MinInt then Some(0 - DigitsValue(s[1..]) as int) else None
  {
    if |s| == 0 then None
    else
      var digits := if s[0] == '+' || s[0] == '-' then s[1..] else s;
      if |digits| == 0 || !AllDigits(digits) then None
      else
        var v: int := if s[0] == '-' then 0 - DigitsValue(digits) as int else DigitsValue(digits);
        if MinInt <= v <= MaxInt then Some(v) else None
  }

  /** Reading back the digits written by FormatNat gives the number again. */
  lemma {:induction false} FormatNatValue(n: nat)
    ensures DigitsValue(FormatNat(n)) == n
  {
    if n >= 10 {
      var s := FormatNat(n);
      FormatNatValue(n / 10);
      assert s[..|s| - 1] == FormatNat(n / 10);
      assert s[|s| - 1] == DigitChar(n % 10);
    }
  }

  /** Atoi inverts FormatInt on the whole range of Go's `int`. */
  lemma AtoiFormatInt(n: int)
    requires MinInt <= n <= MaxInt
    ensures Atoi(FormatInt(n)) == Some(n)
  {
    var s := FormatInt(n);
    if n < 0 {
      FormatNatValue(-n);
      assert s[1..] == FormatNat(-n);
    } else {
      FormatNatValue(n);
    }
  }
}
