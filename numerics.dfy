/**
 * JVM number semantics the poller relies on: 64-bit `Long` arithmetic with
 * wrap-around, `Long` division (which truncates toward zero), and the
 * decimal rendering of `Int.toString()` / `Long.toString()` together with
 * the parser that reads it back.
 */
module Numerics {
  import opened Wrappers

  const IntMin: int := -0x8000_0000
  const IntMax: int := 0x7FFF_FFFF
  const LongMin: int := -0x8000_0000_0000_0000
  const LongMax: int := 0x7FFF_FFFF_FFFF_FFFF
  const LongModulus: int := 0x1_0000_0000_0000_0000

  /** A value of the JVM's 64-bit `Long` (a `Date`'s millisecond time, a duration). */
  type Long = x: int | LongMin <= x <= LongMax

  /** The two's-complement result of an exact integer computation stored in a `Long`. */
  function WrapLong(x: int): (r: Long)
    ensures (r - x) % LongModulus == 0
    ensures LongMin <= x <= LongMax ==> r == x
  {
    (x - LongMin) % LongModulus + LongMin
  }

  /** `d / k` on `Long` operands: the quotient rounded toward zero. */
  function TruncDiv(d: int, k: int): (q: int)
    requires k > 0
    ensures d >= 0 ==> 0 <= d - k * q < k
    ensures d < 0 ==> -k < d - k * q <= 0
  {
    if d >= 0 then d / k else -((-d) / k)
  }

  /** Truncation and Dafny's Euclidean division differ on negative operands. */
  lemma TruncDivOfNegative()
    ensures TruncDiv(-1500, 1000) == -1
    ensures -1500 / 1000 == -2
  {
  }

  predicate IsDigit(c: char) {
    '0' <= c <= '9'
  }

  predicate AllDigits(s: string) {
    forall i :: 0 <= i < |s| ==> IsDigit(s[i])
  }

  function DigitChar(d: nat): (c: char)
    requires d < 10
    ensures IsDigit(c)
  {
    ('0' as int + d) as char
  }

  function DigitValue(c: char): (d: nat)
    requires IsDigit(c)
    ensures d < 10
  {
    c as int - '0' as int
  }

  /** The digits of `n` in base ten, most significant first, without leading zeros. */
  function NatDigits(n: nat): (s: string)
    ensures |s| >= 1 && AllDigits(s)
    ensures s[0] == '0' ==> n == 0
    decreases n
  {
    if n < 10 then [DigitChar(n)] else NatDigits(n / 10) + [DigitChar(n % 10)]
  }

  /** The number a string of decimal digits denotes. */
  function DigitsValue(s: string): nat
    requires AllDigits(s)
  {
    if s == [] then 0 else 10 * DigitsValue(s[..|s| - 1]) + DigitValue(s[|s| - 1])
  }

  lemma {:induction false} NatDigitsRoundTrip(n: nat)
    ensures DigitsValue(NatDigits(n)) == n
    decreases n
  {
    if n >= 10 {
      var s := NatDigits(n);
      assert s[..|s| - 1] == NatDigits(n / 10);
      NatDigitsRoundTrip(n / 10);
    }
  }

  /** `toString()` of an `Int` or a `Long`: an optional minus sign, then the digits. */
  function DecimalString(n: int): (s: string)
    ensures |s| >= 1 && ' ' !in s && '\n' !in s
    ensures (s[0] == '-') == (n < 0)
  {
    if n < 0 then "-" + NatDigits(-n) else NatDigits(n)
  }

  /** The reader of `DecimalString`'s output that the round-trip lemmas use; `None` if `s` is not a decimal integer. */
  function ParseDecimal(s: string): Option<int> {
    if |s| >= 2 && s[0] == '-' && AllDigits(s[1..]) then Some(-(DigitsValue(s[1..]) as int))
    else if |s| >= 1 && AllDigits(s) then Some(DigitsValue(s))
    else None
  }

  lemma DecimalRoundTrip(n: int)
    ensures ParseDecimal(DecimalString(n)) == Some(n)
  {
    var s := DecimalString(n);
    if n < 0 {
      var digits := NatDigits(-n);
      assert s == "-" + digits;
      assert s[1..] == digits;
      NatDigitsRoundTrip(-n);
    } else {
      assert s == NatDigits(n) && s[0] != '-';
      NatDigitsRoundTrip(n);
    }
  }
}
