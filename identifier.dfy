/**
 * The panel identifier: the CRC-32 checksum of the panel's JSON folded to a
 * non-negative int (hashcode, internal/provider/utils.go:933-943) and written
 * in base 10 (strconv.Itoa). The checksum itself comes from outside the model.
 */
module Identifier {

  /** A Go `int` on a 64-bit platform. */
  type Int64 = x: int | -0x8000_0000_0000_0000 <= x < 0x8000_0000_0000_0000

  /** A CRC-32 checksum. */
  type Uint32 = x: int | 0 <= x < 0x1_0000_0000

  const MinInt64: Int64 := -0x8000_0000_0000_0000

  /** Go's negation of an int: two's complement, so the minimum wraps to itself. */
  function Negate(v: Int64): Int64 {
    if v == MinInt64 then v else -v
  }

  /** hashcode's fold of a signed int to a non-negative one: the value itself,
      else its negation, else (for the minimum, whose negation wraps) zero. */
  function Fold(v: Int64): (r: Int64)
    ensures r >= 0
    ensures v >= 0 ==> r == v
    ensures v < 0 && v != MinInt64 ==> r == -v
    ensures v == MinInt64 ==> r == 0
  {
    if v >= 0 then v
    else if Negate(v) >= 0 then Negate(v)
    else 0
  }

  /** The identifier value of a checksum: a checksum converted to a 64-bit
      int is never negative, so it is the checksum itself. */
  function Hashcode(checksum: Uint32): (r: Int64)
    ensures r >= 0 && r == checksum
  {
    Fold(checksum)
  }

  function DigitChar(d: int): char
    requires 0 <= d < 10
  {
    "0123456789"[d]
  }

  /** The base-10 digits of `n`, most significant first, without leading zeros. */
  function DecimalDigits(n: nat): string
    decreases n
  {
    if n < 10 then [DigitChar(n)] else DecimalDigits(n / 10) + [DigitChar(n % 10)]
  }

  /** strconv.Itoa: a minus sign for negative values, then the digits. */
  function Itoa(n: int): string {
    if n < 0 then "-" + DecimalDigits(-n) else DecimalDigits(n)
  }

  predicate IsDecimal(s: string) {
    |s| > 0 && forall i :: 0 <= i < |s| ==> '0' <= s[i] <= '9'
  }

  /** The value a string of decimal digits denotes. */
  function ParseDecimal(s: string): int
    decreases |s|
  {
    if s == [] then 0 else ParseDecimal(s[..|s| - 1]) * 10 + (s[|s| - 1] as int - '0' as int)
  }

  /** The digits of `n` are decimal digits without a leading zero, and they denote `n`. */
  lemma {:induction false} DecimalDigitsRoundTrip(n: nat)
    ensures IsDecimal(DecimalDigits(n))
    ensures |DecimalDigits(n)| > 1 ==> DecimalDigits(n)[0] != '0'
    ensures ParseDecimal(DecimalDigits(n)) == n
    decreases n
  {
    if n >= 10 {
      DecimalDigitsRoundTrip(n / 10);
      var s := DecimalDigits(n);
      assert s[..|s| - 1] == DecimalDigits(n / 10);
    }
  }

  /** The identifier of any checksum is a decimal string, with no sign, that
      denotes the checksum. */
  lemma IdentifierIsDecimal(checksum: Uint32)
    ensures IsDecimal(Itoa(Hashcode(checksum)))
    ensures ParseDecimal(Itoa(Hashcode(checksum))) == checksum
  {
    DecimalDigitsRoundTrip(checksum);
  }
}
