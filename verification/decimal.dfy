/** Digit strings: the decimal rendering used by template literals
    (`${n}`), fixed-width zero-padded fields as in ISO-8601 dates, and the
    value of a digit string in a radix, with the round trips between them. */
module Decimal {

  predicate IsDigit(c: char) {
    '0' <= c <= '9'
  }

  predicate AllDigits(s: string) {
    forall i :: 0 <= i < |s| ==> IsDigit(s[i])
  }

  function DigitChar(d: nat): (c: char)
    requires d < 10
    ensures IsDigit(c) && DigitValue(c) == d
  {
    ('0' as int + d) as char
  }

  /** The value of a digit in radix up to 36: `0`-`9`, then `a`-`z` / `A`-`Z`
      for 10 to 35; 36 for any other character. */
  function DigitValue(c: char): (v: nat)
    ensures v <= 36
    ensures IsDigit(c) <==> v < 10
  {
    if '0' <= c <= '9' then c as int - '0' as int
    else if 'a' <= c <= 'z' then c as int - 'a' as int + 10
    else if 'A' <= c <= 'Z' then c as int - 'A' as int + 10
    else 36
  }

  predicate IsRadixDigit(c: char, radix: nat) {
    DigitValue(c) < radix
  }

  /** The value of a string of radix digits, most significant first. */
  function RadixValue(s: string, radix: nat): nat
  {
    if s == [] then 0
    else RadixValue(s[..|s| - 1], radix) * radix + DigitValue(s[|s| - 1])
  }

  function Pow10(k: nat): (p: nat)
    ensures p >= 1
  {
    if k == 0 then 1 else 10 * Pow10(k - 1)
  }

  /** `String(n)`: the shortest decimal rendering of a natural number. */
  function NatToDecimal(n: nat): (s: string)
    ensures 1 <= |s| && AllDigits(s)
    ensures |s| > 1 ==> s[0] != '0'
  {
    if n < 10 then [DigitChar(n)] else NatToDecimal(n / 10) + [DigitChar(n % 10)]
  }

  /** `String(n).padStart(width, '0')` for a value that fits the width. */
  function Fixed(n: nat, width: nat): (s: string)
    requires n < Pow10(width)
    ensures |s| == width && AllDigits(s)
  {
    if width == 0 then [] else Fixed(n / 10, width - 1) + [DigitChar(n % 10)]
  }

  lemma {:induction false} NatToDecimalValue(n: nat)
    ensures RadixValue(NatToDecimal(n), 10) == n
  {
    var s := NatToDecimal(n);
    if n >= 10 {
      NatToDecimalValue(n / 10);
      assert s[..|s| - 1] == NatToDecimal(n / 10);
    }
  }

  lemma {:induction false} FixedValue(n: nat, width: nat)
    requires n < Pow10(width)
    ensures RadixValue(Fixed(n, width), 10) == n
  {
    if width > 0 {
      var s := Fixed(n, width);
      FixedValue(n / 10, width - 1);
      assert s[..|s| - 1] == Fixed(n / 10, width - 1);
    }
  }

  /** Distinct numbers render to distinct strings, so a rendering identifies its number. */
  lemma NatToDecimalInjective(m: nat, n: nat)
    requires NatToDecimal(m) == NatToDecimal(n)
    ensures m == n
  {
    NatToDecimalValue(m);
    NatToDecimalValue(n);
  }
}
