/** Rust's `u8` and its `Display` rendering as a decimal numeral, used for
    the `totalEpisodes` field of the series-info fragment. */
module Decimal {

  /** An unsigned 8-bit integer. */
  newtype u8 = x: int | 0 <= x < 256

  predicate IsDigit(c: char) {
    '0' <= c <= '9'
  }

  predicate IsDigits(s: string) {
    forall i :: 0 <= i < |s| ==> IsDigit(s[i])
  }

  function DigitChar(d: nat): (c: char)
    requires d < 10
    ensures IsDigit(c)
  {
    ('0' as int + d) as char
  }

  function DigitValue(c: char): (d: nat)
    requires IsDigit(c)
    ensures d < 10
  {
    c as int - '0' as int
  }

  /** The shortest decimal numeral for `n`, most significant digit first. */
  function DecimalString(n: nat): (r: string)
    ensures 1 <= |r| && IsDigits(r)
    ensures r[0] == '0' <==> n == 0
    decreases n
  {
    if n < 10 then [DigitChar(n)] else DecimalString(n / 10) + [DigitChar(n % 10)]
  }

  /** The value of a decimal numeral (the empty numeral reads as 0). */
  function ParseDecimal(s: string): nat
    requires IsDigits(s)
  {
    if |s| == 0 then 0 else 10 * ParseDecimal(s[..|s| - 1]) + DigitValue(s[|s| - 1])
  }

  /** Reading back the rendering of `n` gives `n`. */
  lemma {:induction false} ParseDecimalString(n: nat)
    ensures ParseDecimal(DecimalString(n)) == n
    decreases n
  {
    var r := DecimalString(n);
    if n < 10 {
      assert r[..0] == "";
    } else {
      ParseDecimalString(n / 10);
      assert r[..|r| - 1] == DecimalString(n / 10);
    }
  }

  /** An 8-bit value renders in one to three digits. */
  lemma {:induction false} U8Width(n: u8)
    ensures 1 <= |DecimalString(n as nat)| <= 3
  {
    var k := n as nat;
    if k >= 10 {
      if k / 10 >= 10 {
        assert k / 10 / 10 < 10;
        assert |DecimalString(k / 10 / 10)| == 1;
      }
      assert |DecimalString(k / 10)| <= 2;
    }
  }
}
