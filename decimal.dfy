/**
 * Decimal rendering of integers, as Go's strconv.FormatInt(n, 10) and the
 * `%v` verb of package fmt print them: an optional '-' followed by base-10
 * digits without leading zeros. The reading direction (NatValue, IntValue)
 * exists to state that the rendering loses nothing.
 */
module Decimal {

  predicate IsDigit(c: char) {
    '0' <= c <= '9'
  }

  predicate AllDigits(s: string) {
    forall i :: 0 <= i < |s| ==> IsDigit(s[i])
  }

  /**
   * A decimal integer text: at least one digit, possibly after one '-'.
   * Every IntText output is one; leading zeros are accepted as well.
   */
  predicate IsIntText(s: string) {
    |s| > 0 && (s[0] == '-' ==> |s| > 1) && AllDigits(if s[0] == '-' then s[1..] else s)
  }

  function DigitChar(d: nat): (c: char)
    requires d < 10
    ensures IsDigit(c)
  {
    ('0' as int + d) as char
  }

  function DigitValue(c: char): (d: nat)
    requires IsDigit(c)
    ensures d < 10 && DigitChar(d) == c
  {
    c as int - '0' as int
  }

  /** The digits of n, most significant first. */
  function NatText(n: nat): (s: string)
    ensures |s| > 0 && AllDigits(s)
    ensures s[0] == '0' ==> n == 0
    decreases n
  {
    if n < 10 then [DigitChar(n)] else NatText(n / 10) + [DigitChar(n % 10)]
  }

  /** strconv.FormatInt(n, 10); `%v` prints an integer of any width the same way. */
  function IntText(n: int): (s: string)
    ensures IsIntText(s)
    ensures s[0] == '-' <==> n < 0
  {
    if n < 0 then "-" + NatText(-n) else NatText(n)
  }

  /** A rendered integer holds neither of the delimiters '&' and ':'. */
  lemma IntTextNoDelimiter(n: int)
    ensures '&' !in IntText(n) && ':' !in IntText(n)
  {
    var s := IntText(n);
    forall i | 0 <= i < |s| ensures s[i] != '&' && s[i] != ':' {
      if s[0] == '-' && i > 0 {
        assert s[i] == s[1..][i - 1];
      }
    }
  }

  /** The number a string of digits denotes. */
  function NatValue(s: string): nat
    requires AllDigits(s)
    decreases |s|
  {
    if s == [] then 0 else 10 * NatValue(s[..|s| - 1]) + DigitValue(s[|s| - 1])
  }

  function IntValue(s: string): int
    requires IsIntText(s)
  {
    if s[0] == '-' then -(NatValue(s[1..]) as int) else NatValue(s)
  }

  lemma {:induction false} NatTextRoundTrip(n: nat)
    ensures NatValue(NatText(n)) == n
    decreases n
  {
    var s := NatText(n);
    if n < 10 {
      assert s[..|s| - 1] == [];
    } else {
      NatTextRoundTrip(n / 10);
      assert s[..|s| - 1] == NatText(n / 10);
    }
  }

  /** Reading back what IntText wrote gives the number it was given. */
  lemma IntTextRoundTrip(n: int)
    ensures IntValue(IntText(n)) == n
  {
    if n < 0 {
      NatTextRoundTrip(-n);
      assert IntText(n)[1..] == NatText(-n);
    } else {
      NatTextRoundTrip(n);
    }
  }

  /** Two integers print the same exactly when they are equal. */
  lemma IntTextInjective(a: int, b: int)
    ensures IntText(a) == IntText(b) <==> a == b
  {
    if IntText(a) == IntText(b) {
      IntTextRoundTrip(a);
      IntTextRoundTrip(b);
    }
  }
}
