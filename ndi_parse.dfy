/**
  The interpreter's text field parsers (igstkNDICommandInterpreter.h:1482-1509).
  Each reads at most n characters, halts at the first character that is not a
  digit of its base, and never fails: a malformed field yields the value of
  whatever digits precede the bad character, zero if there are none.
  Results are C `unsigned int` (modulo 2^32) or C `int` (the same 32 bits read
  as two's complement).
*/
module NDIParse {
  import opened NDIDigits

  const Two31: int := 0x8000_0000

  /** The 32-bit pattern u read as a C `int`. */
  function ToInt32(u: nat): (r: int)
    requires u < Two32
    ensures -Two31 <= r < Two31
    ensures r % Two32 == u
    ensures u < Two31 ==> r == u
  {
    if u < Two31 then u else u - Two32
  }

  lemma {:induction false} PowMono(b: nat, i: nat, j: nat)
    requires b >= 1 && i <= j
    ensures Pow(b, i) <= Pow(b, j)
    decreases j
  {
    if i < j {
      PowMono(b, i, j - 1);
      MulMono(1, b, Pow(b, j - 1));
    }
  }

  /** A field of at most k digits of the base stays below base^k. */
  lemma PrefixValueBelow(base: Base, cp: string, n: int, k: nat)
    ensures n <= k ==> Value(base, DigitPrefix(base, cp, n)) < Pow(base, k)
  {
    var p := DigitPrefix(base, cp, n);
    ValueBound(base, p);
    if n <= k { PowMono(base, |p|, k); }
  }

  lemma PowFacts()
    ensures Pow(16, 8) == Two32 && Pow(16, 7) < Two31 && Pow(10, 9) < Two31
  {
  }

  /** HexadecimalStringToUnsignedInt(cp, n): the value of the longest run of
      hexadecimal digits within the first n characters of cp, as an
      `unsigned int`. */
  function HexadecimalStringToUnsignedInt(cp: string, n: int): (r: nat)
    ensures r < Two32
    ensures n <= 8 ==> r == Value(16, DigitPrefix(16, cp, n))
  {
    PrefixValueBelow(16, cp, n, 8);
    PowFacts();
    Value(16, DigitPrefix(16, cp, n)) % Two32
  }

  /** HexadecimalStringToInt(cp, n): the same conversion into a C `int`. */
  function HexadecimalStringToInt(cp: string, n: int): (r: int)
    ensures -Two31 <= r < Two31
    ensures r % Two32 == HexadecimalStringToUnsignedInt(cp, n)
    ensures n <= 7 ==> r == Value(16, DigitPrefix(16, cp, n))
  {
    PrefixValueBelow(16, cp, n, 7);
    PowFacts();
    ToInt32(HexadecimalStringToUnsignedInt(cp, n))
  }

  /** StringToInt(cp, n): decimal digits only; the first other character
      halts the conversion. */
  function StringToInt(cp: string, n: int): (r: int)
    ensures -Two31 <= r < Two31
    ensures n <= 9 ==> r == Value(10, DigitPrefix(10, cp, n)) && r >= 0
    ensures r % Two32 == Value(10, DigitPrefix(10, cp, n)) % Two32
  {
    PrefixValueBelow(10, cp, n, 9);
    PowFacts();
    ToInt32(Value(10, DigitPrefix(10, cp, n)) % Two32)
  }

  /** SignedStringToInt(cp, n): the first of the n characters must be '+' or
      '-', otherwise the result is zero; the remaining n - 1 characters are
      read as by StringToInt, and a '-' negates the result. */
  function SignedStringToInt(cp: string, n: int): (r: int)
    ensures -Two31 <= r < Two31
    ensures cp == [] || (cp[0] != '+' && cp[0] != '-') ==> r == 0
    ensures n <= 10 && cp != [] && cp[0] == '+' ==> r == StringToInt(cp[1..], n - 1)
    ensures n <= 10 && cp != [] && cp[0] == '-' ==> r == -StringToInt(cp[1..], n - 1)
    ensures cp != [] && cp[0] == '+' ==> r % Two32 == Value(10, DigitPrefix(10, cp[1..], n - 1)) % Two32
    ensures cp != [] && cp[0] == '-' ==> r % Two32 == (-(Value(10, DigitPrefix(10, cp[1..], n - 1)) as int)) % Two32
  {
    if cp == [] || (cp[0] != '+' && cp[0] != '-') then 0
    else
      PrefixValueBelow(10, cp[1..], n - 1, 9);
      PowFacts();
      Signed32(cp[0] == '-', Value(10, DigitPrefix(10, cp[1..], n - 1)))
  }

  /** A magnitude, negated when asked, as a C int: the same 32 bits, and
      the value itself when the magnitude is below 2^31. */
  function Signed32(negate: bool, v: nat): (r: int)
    ensures -Two31 <= r < Two31
    ensures r % Two32 == (if negate then -(v as int) else v) % Two32
    ensures v < Two31 ==> r == (if negate then -(v as int) else v)
  {
    var x: int := if negate then -(v as int) else v;
    ModIdempotent(x);
    if v < Two31 && negate && v > 0 then
      NegativeMod32(x);
      ToInt32(x % Two32)
    else
      ToInt32(x % Two32)
  }

  lemma ModIdempotent(x: int)
    ensures (x % Two32) % Two32 == x % Two32
  {
  }

  lemma NegativeMod32(x: int)
    requires -Two31 <= x < 0
    ensures x % Two32 == x + Two32
  {
  }

  /** Characters past the first n never influence a parse. */
  lemma {:induction false} DigitPrefixReadsAtMost(base: Base, s: string, t: string, n: nat)
    requires n <= |s| && n <= |t| && s[..n] == t[..n]
    ensures DigitPrefix(base, s, n) == DigitPrefix(base, t, n)
  {
    if n > 0 {
      assert s[0] == s[..n][0] && t[0] == t[..n][0];
      assert s[1..][..n - 1] == s[..n][1..];
      assert t[1..][..n - 1] == t[..n][1..];
      DigitPrefixReadsAtMost(base, s[1..], t[1..], n - 1);
    }
  }

  /** The first character that is not a digit ends the field: nothing at or
      after it influences a parse. */
  lemma {:induction false} DigitPrefixHalts(base: Base, s: string, n: int, k: nat)
    requires k < |s| && k < n && !IsDigit(base, s[k])
    ensures DigitPrefix(base, s, n) == DigitPrefix(base, s[..k], k)
  {
    if k > 0 && IsDigit(base, s[0]) {
      assert s[1..][..k - 1] == s[..k][1..];
      assert s[..k][0] == s[0];
      DigitPrefixHalts(base, s[1..], n - 1, k - 1);
    }
  }

  lemma HexReadsAtMost(cp: string, other: string, n: nat)
    requires n <= |cp| && n <= |other| && cp[..n] == other[..n]
    ensures HexadecimalStringToUnsignedInt(cp, n) == HexadecimalStringToUnsignedInt(other, n)
  {
    DigitPrefixReadsAtMost(16, cp, other, n);
  }

  lemma HexHaltsAtNonDigit(cp: string, n: int, k: nat)
    requires k < |cp| && k < n && !IsDigit(16, cp[k])
    ensures HexadecimalStringToUnsignedInt(cp, n) == HexadecimalStringToUnsignedInt(cp[..k], k)
  {
    DigitPrefixHalts(16, cp, n, k);
  }

  lemma DecimalHaltsAtNonDigit(cp: string, n: int, k: nat)
    requires k < |cp| && k < n && !IsDigit(10, cp[k])
    ensures StringToInt(cp, n) == StringToInt(cp[..k], k)
  {
    DigitPrefixHalts(10, cp, n, k);
  }

  /** A field that begins with a non-digit parses to zero. */
  lemma MalformedFieldIsZero(base: Base, cp: string, n: int)
    requires cp != [] && !IsDigit(base, cp[0])
    ensures base == 16 ==> HexadecimalStringToUnsignedInt(cp, n) == 0 && HexadecimalStringToInt(cp, n) == 0
    ensures base == 10 ==> StringToInt(cp, n) == 0
  {
  }
}
