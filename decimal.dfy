/**
 * PHP's conversion of an integer to its decimal string (the `.` operator
 * applied to an int), and a reader for such numerals, so that formatted
 * output can be shown to determine the number it was made from.
 */
module Decimal {
  import opened Wrappers

  predicate IsDigit(c: char) {
    '0' <= c <= '9'
  }

  predicate AllDigits(s: string) {
    forall i :: 0 <= i < |s| ==> IsDigit(s[i])
  }

  function DigitChar(d: nat): (c: char)
    requires d < 10
    ensures IsDigit(c)
  {
    ('0' as int + d) as char
  }

  function DigitValue(c: char): nat
    requires IsDigit(c)
  {
    c as int - '0' as int
  }

  /** Decimal digits of `n`, most significant first, without leading zeros. */
  function NatToString(n: nat): (s: string)
    ensures |s| > 0 && AllDigits(s)
    ensures s[0] == '0' ==> n == 0 && s == "0"
    decreases n
  {
    if n < 10 then [DigitChar(n)] else NatToString(n / 10) + [DigitChar(n % 10)]
  }

  /**
   * PHP's string form of an integer: a minus sign exactly for a negative value, then the
   * digits of its magnitude, with no leading zero unless the value is 0.
   */
  function IntToString(i: int): (s: string)
    ensures |s| > 0 && (s[0] == '-' <==> i < 0)
    ensures var digits := if i < 0 then s[1..] else s;
            && |digits| > 0 && AllDigits(digits)
            && ValueOf(digits) == (if i < 0 then -i else i)
            && (digits[0] == '0' ==> i == 0 && digits == "0")
  {
    if i < 0 then
      ValueOfNatToString(-i);
      assert ("-" + NatToString(-i))[1..] == NatToString(-i);
      "-" + NatToString(-i)
    else
      ValueOfNatToString(i);
      NatToString(i)
  }

  /** The number a string of digits denotes. */
  function ValueOf(s: string): nat
    requires AllDigits(s)
    decreases |s|
  {
    if s == [] then 0 else ValueOf(s[..|s| - 1]) * 10 + DigitValue(s[|s| - 1])
  }

  lemma {:induction false} ValueOfNatToString(n: nat)
    ensures ValueOf(NatToString(n)) == n
    decreases n
  {
    if n >= 10 {
      var s := NatToString(n / 10);
      ValueOfNatToString(n / 10);
      assert (s + [DigitChar(n % 10)])[..|s|] == s;
    }
  }

  /** Length of the longest prefix of `s` made of digits. */
  function DigitPrefix(s: string): (k: nat)
    ensures k <= |s| && AllDigits(s[..k])
    ensures k < |s| ==> !IsDigit(s[k])
    decreases |s|
  {
    if s == [] || !IsDigit(s[0]) then 0
    else
      var k := 1 + DigitPrefix(s[1..]);
      assert s[..k] == [s[0]] + s[1..][..k - 1];
      k
  }

  lemma {:induction false} DigitPrefixAppend(d: string, t: string)
    requires AllDigits(d)
    requires t == [] || !IsDigit(t[0])
    ensures DigitPrefix(d + t) == |d|
    decreases |d|
  {
    if d == [] {
      assert d + t == t;
    } else {
      assert (d + t)[1..] == d[1..] + t;
      DigitPrefixAppend(d[1..], t);
    }
  }

  /** A leading numeral of `s`, with its value and the text after it; None if `s` starts with no digit. */
  function SplitNumeral(s: string): Option<(nat, string)> {
    var k := DigitPrefix(s);
    if k == 0 then None else Some((ValueOf(s[..k]), s[k..]))
  }

  /** The numeral PHP prints for `n` is read back as `n`, leaving exactly the text that followed it. */
  lemma SplitNumeralOf(n: nat, t: string)
    requires t == [] || !IsDigit(t[0])
    ensures SplitNumeral(NatToString(n) + t) == Some((n, t))
  {
    var d := NatToString(n);
    DigitPrefixAppend(d, t);
    assert (d + t)[..|d|] == d;
    assert (d + t)[|d|..] == t;
    ValueOfNatToString(n);
  }
}
