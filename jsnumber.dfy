/** The JavaScript number operations the storefront relies on, over exact
    integers and reals: truncation, the `x|0` conversion to a signed 32-bit
    integer, `Math.floor`, `Math.round` and decimal `toString`. */
module JsNumber {

  const TwoTo31: int := 0x8000_0000
  const TwoTo32: int := 0x1_0000_0000

  /** `Math.floor` on a real. */
  function Floor(x: real): (r: int)
    ensures r as real <= x < r as real + 1.0
  {
    x.Floor
  }

  /** Truncation toward zero (`Math.trunc`, the first step of `x|0` and of `parseInt`). */
  function Trunc(x: real): (r: int)
    ensures x >= 0.0 ==> 0 <= r && r as real <= x < r as real + 1.0
    ensures x < 0.0 ==> r <= 0 && r as real - 1.0 < x <= r as real
  {
    if x >= 0.0 then x.Floor else -((-x).Floor)
  }

  /** ECMAScript ToInt32 on an integer: the value congruent to `n` modulo 2^32
      in the signed range. */
  function ToInt32(n: int): (r: int)
    ensures -TwoTo31 <= r < TwoTo31
    ensures (n - r) % TwoTo32 == 0
    ensures -TwoTo31 <= n < TwoTo31 ==> r == n
  {
    var m := n % TwoTo32;
    if m >= TwoTo31 then m - TwoTo32 else m
  }

  /** `x|0` on a finite number: truncate, then wrap into 32 bits. */
  function BitOrZero(x: real): (r: int)
    ensures -TwoTo31 <= r < TwoTo31
    ensures -TwoTo31 as real < x < TwoTo31 as real ==> r == Trunc(x)
  {
    ToInt32(Trunc(x))
  }

  /** `Math.round`: the nearest integer, halves rounded up. */
  function Round(x: real): (r: int)
    ensures r as real - 0.5 <= x < r as real + 0.5
  {
    (x + 0.5).Floor
  }

  predicate IsDigit(c: char) {
    '0' <= c <= '9'
  }

  function DigitChar(d: nat): (c: char)
    requires d < 10
    ensures IsDigit(c) && c as int - '0' as int == d
  {
    ('0' as int + d) as char
  }

  /** The value of a string of decimal digits; the inverse of NatToString. */
  function DecimalValue(s: string): (n: nat)
    requires forall i :: 0 <= i < |s| ==> IsDigit(s[i])
  {
    if s == [] then 0
    else
      assert IsDigit(s[|s| - 1]);
      DecimalValue(s[..|s| - 1]) * 10 + (s[|s| - 1] as int - '0' as int)
  }

  /** `Number.prototype.toString()` on a non-negative integer. */
  function NatToString(n: nat): (r: string)
    ensures |r| >= 1
    ensures forall i :: 0 <= i < |r| ==> IsDigit(r[i])
    ensures r[0] == '0' ==> n == 0
  {
    if n < 10 then [DigitChar(n)] else NatToString(n / 10) + [DigitChar(n % 10)]
  }

  /** `toString()` on any integer. */
  function IntToString(n: int): (r: string)
    ensures |r| >= 1
    ensures n >= 0 ==> r == NatToString(n)
    ensures n < 0 ==> r[0] == '-' && r[1..] == NatToString(-n)
  {
    if n < 0 then "-" + NatToString(-n) else NatToString(n)
  }

  /** Reading back the decimal rendering gives the number again. */
  lemma {:induction false} DecimalRoundTrip(n: nat)
    ensures DecimalValue(NatToString(n)) == n
  {
    var s := NatToString(n);
    if n >= 10 {
      DecimalRoundTrip(n / 10);
      assert s[..|s| - 1] == NatToString(n / 10);
    }
  }

  function Pow10(k: nat): (r: nat)
    ensures r >= 1
  {
    if k == 0 then 1 else 10 * Pow10(k - 1)
  }

  /** A number with k decimal digits is rendered with exactly k characters. */
  lemma {:induction false} NatToStringLength(n: nat, k: nat)
    requires 1 <= k && Pow10(k - 1) <= n < Pow10(k)
    ensures |NatToString(n)| == k
  {
    if k > 1 {
      assert n >= 10;
      assert Pow10(k - 2) <= n / 10 < Pow10(k - 1) by {
        assert Pow10(k - 1) == 10 * Pow10(k - 2);
        assert Pow10(k) == 10 * Pow10(k - 1);
      }
      NatToStringLength(n / 10, k - 1);
    } else {
      assert Pow10(1) == 10;
    }
  }
}
