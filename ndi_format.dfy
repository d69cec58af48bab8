/**
  The printf conversions the interpreter's command builders use
  (igstkNDICommandInterpreter.h:450-728): `%0wX`, `%d`/`%i`, `%03d`, `%c`,
  `%-w.ps`, `%w.ps` and `%.ps`, each proved to be read back by the matching field
  parser.
*/
module NDIFormat {
  import opened NDIDigits
  import opened NDIParse

  /** A C string argument: its characters up to, not including, the NUL. */
  type CString = s: string | '\0' !in s

  function Repeat(c: char, k: nat): (r: string)
    ensures |r| == k && forall i :: 0 <= i < k ==> r[i] == c
  {
    if k == 0 then "" else [c] + Repeat(c, k - 1)
  }

  /** Left padding with '0' up to width w (the `0` flag of printf). */
  function ZeroPad(s: string, w: nat): (r: string)
    ensures |r| == if |s| < w then w else |s|
  {
    if |s| < w then Repeat('0', w - |s|) + s else s
  }

  lemma ZeroPadValue(base: Base, s: string, w: nat)
    requires AllDigits(base, s)
    ensures AllDigits(base, ZeroPad(s, w)) && Value(base, ZeroPad(s, w)) == Value(base, s)
  {
    if |s| < w {
      ValueLeadingZeros(base, Repeat('0', w - |s|), s);
    }
  }

  /** `%0wX` of a C `int`: the upper-case hexadecimal digits of its 32-bit
      pattern, zero-padded to at least w characters. */
  function FormatHex(v: int, w: nat): (r: string)
    ensures |r| >= w && AllDigits(16, r)
    ensures forall i :: 0 <= i < |r| ==> '0' <= r[i] <= '9' || 'A' <= r[i] <= 'F'
  {
    var digits := Digits(16, v % Two32);
    ZeroPadValue(16, digits, w);
    ZeroPad(digits, w)
  }

  /** A value below 16^w prints as exactly w digits, and the hexadecimal
      field parser reads the same value back. */
  lemma FormatHexRoundTrip(v: int, w: nat)
    requires 1 <= w <= 8 && 0 <= v < Pow(16, w)
    ensures |FormatHex(v, w)| == w
    ensures HexadecimalStringToUnsignedInt(FormatHex(v, w), w) == v
    ensures v < Two31 ==> HexadecimalStringToInt(FormatHex(v, w), w) == v
  {
    PowMono(16, w, 8);
    PowFacts();
    assert v % Two32 == v;
    var digits := Digits(16, v);
    DigitsLength(16, v, w);
    DigitsValue(16, v);
    var r := FormatHex(v, w);
    assert r == ZeroPad(digits, w);
    assert |r| == w;
    ZeroPadValue(16, digits, w);
    assert Value(16, r) == v;
    DigitPrefixOfDigits(16, r, w);
    assert HexadecimalStringToUnsignedInt(r, w) == v;
  }

  /** `%d` and `%i`: an optional '-' and the shortest decimal digits. */
  function FormatDecimal(v: int): (r: string)
    ensures v >= 0 ==> AllDigits(10, r) && |r| >= 1
    ensures v < 0 ==> |r| >= 2 && r[0] == '-' && AllDigits(10, r[1..])
  {
    if v < 0 then "-" + Digits(10, -v) else Digits(10, v)
  }

  /** `%0wd`: the width counts the sign, and the zeros go after it. */
  function FormatDecimalPadded(v: int, w: nat): (r: string)
    ensures |r| >= w && |r| >= 1
    ensures v >= 0 ==> AllDigits(10, r)
    ensures v < 0 ==> r[0] == '-' && AllDigits(10, r[1..])
  {
    if v < 0 then
      ZeroPadValue(10, Digits(10, -v), if w > 0 then w - 1 else 0);
      "-" + ZeroPad(Digits(10, -v), if w > 0 then w - 1 else 0)
    else
      ZeroPadValue(10, Digits(10, v), w);
      ZeroPad(Digits(10, v), w)
  }

  /** A non-negative value below 10^w prints under `%0wd` as exactly w
      digits, which StringToInt reads back. */
  lemma DecimalPaddedRoundTrip(v: int, w: nat)
    requires 1 <= w <= 9 && 0 <= v < Pow(10, w)
    ensures |FormatDecimalPadded(v, w)| == w
    ensures StringToInt(FormatDecimalPadded(v, w), w) == v
  {
    var digits := Digits(10, v);
    DigitsLength(10, v, w);
    DigitsValue(10, v);
    var r := FormatDecimalPadded(v, w);
    assert r == ZeroPad(digits, w);
    ZeroPadValue(10, digits, w);
    DigitPrefixOfDigits(10, r, w);
  }

  /** Non-negative `%d` output is read back by StringToInt. */
  lemma DecimalRoundTrip(v: int)
    requires 0 <= v < Two31
    ensures StringToInt(FormatDecimal(v), |FormatDecimal(v)|) == v
  {
    var r := FormatDecimal(v);
    assert Value(10, DigitPrefix(10, r, |r|)) == v by {
      assert r == Digits(10, v);
      DigitsValue(10, v);
      DigitPrefixOfDigits(10, r, |r|);
    }
    SmallField(r, |r|, v);
  }

  /** A field whose digits are worth less than 2^31 reads as that value. */
  lemma SmallField(cp: string, n: int, v: nat)
    requires v < Two31 && Value(10, DigitPrefix(10, cp, n)) == v
    ensures StringToInt(cp, n) == v
  {
    assert v % Two32 == v;
  }

  /** Negative `%d` output carries its own sign, so SignedStringToInt reads
      it back; non-negative output has no sign, and SignedStringToInt
      rejects it with zero. */
  lemma SignedDecimalRoundTrip(v: int)
    requires -Two31 <= v < Two31
    ensures v < 0 ==> SignedStringToInt(FormatDecimal(v), |FormatDecimal(v)|) == v
    ensures v >= 0 ==> SignedStringToInt(FormatDecimal(v), |FormatDecimal(v)|) == 0
  {
    var r := FormatDecimal(v);
    if v < 0 {
      NegativeDecimalRoundTrip(v);
    } else {
      assert IsDigit(10, r[0]);
    }
  }

  lemma NegativeDecimalRoundTrip(v: int)
    requires -Two31 <= v < 0
    ensures SignedStringToInt(FormatDecimal(v), |FormatDecimal(v)|) == v
  {
    var r := FormatDecimal(v);
    NegativeMagnitude(v);
    NegativeField(r, |r|, -v);
    NegativeInt32(v);
  }

  /** After the '-', the digits of negative `%d` output read as -v. */
  lemma NegativeMagnitude(v: int)
    requires v < 0
    ensures |FormatDecimal(v)| >= 2 && FormatDecimal(v)[0] == '-'
    ensures Value(10, DigitPrefix(10, FormatDecimal(v)[1..], |FormatDecimal(v)| - 1)) == -v
  {
    var d := Digits(10, -v);
    assert FormatDecimal(v) == "-" + d;
    SignedDigits(d);
    DigitsValue(10, -v);
  }

  /** The digits after a leading '-' are read whole. */
  lemma SignedDigits(d: string)
    requires AllDigits(10, d)
    ensures ("-" + d)[1..] == d
    ensures Value(10, DigitPrefix(10, ("-" + d)[1..], |"-" + d| - 1)) == Value(10, d)
  {
    assert ("-" + d)[1..] == d;
    DigitPrefixOfDigits(10, d, |d|);
  }

  /** A field that starts with '-' reads as the negated magnitude, as a C int. */
  lemma NegativeField(cp: string, n: int, m: int)
    requires cp != [] && cp[0] == '-'
    requires m == Value(10, DigitPrefix(10, cp[1..], n - 1))
    ensures SignedStringToInt(cp, n) == ToInt32((-m) % Two32)
  {
  }

  lemma NegativeInt32(v: int)
    requires -Two31 <= v < 0
    ensures ToInt32(v % Two32) == v
  {
    NegativeMod(v);
  }

  lemma NegativeMod(x: int)
    requires 0 <= x + Two32 && x < 0
    ensures x % Two32 == x + Two32
  {
  }

  /** `%c` of an `int`: the argument converted to `unsigned char`. */
  function FormatChar(v: int): (c: char)
    ensures c as int == v % 256
  {
    (v % 256) as char
  }

  /** The precision of `%.ps`: at most p characters of the argument. */
  function Truncate(s: string, p: nat): (r: string)
    ensures |r| <= p && r <= s
    ensures |s| <= p ==> r == s
  {
    if |s| <= p then s else s[..p]
  }

  /** `%-w.ps`: truncate to p, then pad with spaces on the right up to w. */
  function FormatField(s: string, w: nat, p: nat): (r: string)
    ensures w == p ==> |r| == w
    ensures Truncate(s, p) <= r
  {
    var t := Truncate(s, p);
    if |t| < w then t + Repeat(' ', w - |t|) else t
  }

  /** `%w.ps`: truncate to p, then pad with spaces on the left up to w, so
      the field ends with the truncated string. */
  function FormatFieldRight(s: string, w: nat, p: nat): (r: string)
    ensures w == p ==> |r| == w
    ensures |Truncate(s, p)| <= |r|
  {
    var t := Truncate(s, p);
    if |t| < w then Repeat(' ', w - |t|) + t else t
  }
}
