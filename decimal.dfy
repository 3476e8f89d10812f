/**
 * Decimal text of natural numbers: Python's `str(n)` for `n >= 0` and the
 * zero-padded fields that `strftime` produces, with the parser that reads
 * them back.
 */
module Decimal {
  predicate IsDigit(c: char)
  {
    '0' <= c <= '9'
  }

  predicate AllDigits(s: string)
  {
    forall i :: 0 <= i < |s| ==> IsDigit(s[i])
  }

  function DigitValue(c: char): nat
    requires IsDigit(c)
  {
    c as int - '0' as int
  }

  function DigitChar(d: nat): (c: char)
    requires d < 10
    ensures IsDigit(c) && DigitValue(c) == d
  {
    ('0' as int + d) as char
  }

  /** The number a string of decimal digits denotes (most significant first). */
  function ParseNat(s: string): nat
    requires AllDigits(s)
  {
    if s == [] then 0 else ParseNat(s[..|s| - 1]) * 10 + DigitValue(s[|s| - 1])
  }

  function Pow10(k: nat): (p: nat)
    ensures p >= 1
  {
    if k == 0 then 1 else 10 * Pow10(k - 1)
  }

  /** Appending one digit `d` to the text of `m` denotes `10 * m + d`. */
  lemma ParseSnoc(s: string, d: nat)
    requires AllDigits(s) && d < 10
    ensures AllDigits(s + [DigitChar(d)])
    ensures ParseNat(s + [DigitChar(d)]) == ParseNat(s) * 10 + d
  {
    assert (s + [DigitChar(d)])[..|s|] == s;
  }

  /** Python's `str(n)` for a non-negative integer: shortest decimal text, no sign. */
  function NatToString(n: nat): (s: string)
    ensures 1 <= |s| && AllDigits(s)
    ensures ParseNat(s) == n
    ensures |s| > 1 ==> s[0] != '0'
  {
    if n < 10 then
      assert [DigitChar(n)][..0] == [];
      [DigitChar(n)]
    else
      var prefix := NatToString(n / 10);
      ParseSnoc(prefix, n % 10);
      prefix + [DigitChar(n % 10)]
  }

  /** The `width`-digit zero-padded text of `n` (as `%02d`, `%04d`, `%Y` print it). */
  function PadLeft(n: nat, width: nat): (s: string)
    requires n < Pow10(width)
    ensures |s| == width && AllDigits(s)
    ensures ParseNat(s) == n
  {
    if width == 0 then []
    else
      assert n / 10 < Pow10(width - 1);
      var prefix := PadLeft(n / 10, width - 1);
      ParseSnoc(prefix, n % 10);
      prefix + [DigitChar(n % 10)]
  }
}
