/**
  Digits and positional values shared by the NDI text field parsers and the
  printf-style field formatters.  Text on the serial line is a `string`; each
  `char` stands for one C `char` of the device protocol.
*/
module NDIDigits {

  /** The two radixes the protocol uses: decimal fields and hexadecimal fields. */
  type Base = b: nat | b == 10 || b == 16 witness 10

  /** 2^32, the modulus of a C `unsigned int`. */
  const Two32: nat := 0x1_0000_0000

  function Pow(b: nat, k: nat): (p: nat)
    ensures b >= 1 ==> p >= 1
  {
    if k == 0 then 1 else b * Pow(b, k - 1)
  }

  /** A digit of the given base; hexadecimal digits may be upper or lower case. */
  predicate IsDigit(base: Base, c: char)
  {
    ('0' <= c <= '9') || (base == 16 && (('A' <= c <= 'F') || ('a' <= c <= 'f')))
  }

  function DigitValue(base: Base, c: char): (d: nat)
    requires IsDigit(base, c)
    ensures d < base
  {
    if '0' <= c <= '9' then c as int - '0' as int
    else if 'A' <= c <= 'F' then c as int - 'A' as int + 10
    else c as int - 'a' as int + 10
  }

  predicate AllDigits(base: Base, s: string)
  {
    forall i :: 0 <= i < |s| ==> IsDigit(base, s[i])
  }

  /** Upper-case digit characters, as printed by `%X` and `%d`. */
  const DigitChars: string := "0123456789ABCDEF"

  function DigitChar(d: nat): (c: char)
    requires d < 16
  {
    DigitChars[d]
  }

  lemma DigitCharValue(base: Base, d: nat)
    requires d < base
    ensures IsDigit(base, DigitChar(d)) && DigitValue(base, DigitChar(d)) == d
    ensures '0' <= DigitChar(d) <= '9' || 'A' <= DigitChar(d) <= 'F'
  {
    if d < 10 {
      assert DigitChar(d) as int == '0' as int + d by {
        assert DigitChars[d] == ['0','1','2','3','4','5','6','7','8','9'][d];
      }
    } else {
      assert DigitChar(d) as int == 'A' as int + (d - 10) by {
        assert DigitChars[10..] == "ABCDEF";
        assert DigitChars[d] == DigitChars[10..][d - 10];
      }
    }
  }

  /** Positional value of a digit string, most significant digit first. */
  function Value(base: Base, s: string): nat
    requires AllDigits(base, s)
  {
    if s == [] then 0
    else Value(base, s[..|s| - 1]) * base + DigitValue(base, s[|s| - 1])
  }

  /** A string of k digits has a value below base^k. */
  lemma {:induction false} ValueBound(base: Base, s: string)
    requires AllDigits(base, s)
    ensures Value(base, s) < Pow(base, |s|)
  {
    if s != [] {
      var init := s[..|s| - 1];
      ValueBound(base, init);
      assert Value(base, init) + 1 <= Pow(base, |init|);
      calc {
        Value(base, s);
      <  (Value(base, init) + 1) * base;
      <= Pow(base, |init|) * base;
      == Pow(base, |s|);
      }
    }
  }

  /** Reading the leading digit separately: the value of d :: rest. */
  lemma {:induction false} ValueCons(base: Base, s: string)
    requires s != [] && AllDigits(base, s)
    ensures Value(base, s) == DigitValue(base, s[0]) * Pow(base, |s| - 1) + Value(base, s[1..])
  {
    if |s| > 1 {
      var init := s[..|s| - 1];
      var d0, dl := DigitValue(base, s[0]), DigitValue(base, s[|s| - 1]);
      var p := Pow(base, |s| - 2);
      ValueCons(base, init);
      assert init[1..] == s[1..][..|s[1..]| - 1];
      assert init[0] == s[0];
      var mid := Value(base, init[1..]);
      assert Value(base, s[1..]) == mid * base + dl;
      assert Value(base, init) == d0 * p + mid;
      assert Value(base, s) == (d0 * p + mid) * base + dl;
      assert Pow(base, |s| - 1) == base * p;
      Regroup(d0, p, mid, base, dl);
    } else {
      assert s[..0] == [];
      assert s[1..] == [];
    }
  }

  lemma Regroup(d: nat, p: nat, m: nat, b: nat, e: nat)
    ensures (d * p + m) * b + e == d * (b * p) + (m * b + e)
  {
  }

  /** Leading zeros do not change a value. */
  lemma {:induction false} ValueLeadingZeros(base: Base, zeros: string, s: string)
    requires forall i :: 0 <= i < |zeros| ==> zeros[i] == '0'
    requires AllDigits(base, s)
    ensures AllDigits(base, zeros + s) && Value(base, zeros + s) == Value(base, s)
    decreases |s| + |zeros|
  {
    assert AllDigits(base, zeros + s) by {
      forall i | 0 <= i < |zeros + s| ensures IsDigit(base, (zeros + s)[i]) {
        if i >= |zeros| { assert (zeros + s)[i] == s[i - |zeros|]; }
      }
    }
    if s != [] {
      var init := s[..|s| - 1];
      assert (zeros + s)[..|zeros + s| - 1] == zeros + init;
      ValueLeadingZeros(base, zeros, init);
    } else if zeros != [] {
      assert zeros + s == zeros;
      assert zeros[..|zeros| - 1] + [] == zeros[..|zeros| - 1];
      ValueLeadingZeros(base, zeros[..|zeros| - 1], s);
    }
  }

  /** The longest run of digits at the front of the first n characters of s:
      what a field parser reads before it halts. */
  function DigitPrefix(base: Base, s: string, n: int): (p: string)
    ensures |p| <= |s| && (n >= 0 ==> |p| <= n) && p == s[..|p|]
    ensures AllDigits(base, p)
    ensures |p| < |s| && |p| < n ==> !IsDigit(base, s[|p|])
  {
    if n <= 0 || s == [] || !IsDigit(base, s[0]) then ""
    else [s[0]] + DigitPrefix(base, s[1..], n - 1)
  }

  /** The shortest digit string of v, most significant digit first
      (what `%X` or `%d` print for a non-negative value). */
  function Digits(base: Base, v: nat): (s: string)
    ensures |s| >= 1 && AllDigits(base, s)
    ensures forall i :: 0 <= i < |s| ==> '0' <= s[i] <= '9' || 'A' <= s[i] <= 'F'
    decreases v
  {
    DigitCharValue(base, v % base);
    if v < base then [DigitChar(v)] else Digits(base, v / base) + [DigitChar(v % base)]
  }

  lemma {:induction false} DigitsValue(base: Base, v: nat)
    ensures Value(base, Digits(base, v)) == v
    decreases v
  {
    if v >= base {
      DigitsValue(base, v / base);
      DigitsStep(base, v);
      DivMod(v, base);
    } else {
      DigitsSingle(base, v);
    }
  }

  /** A value of several digits: the digits of v / base, then v % base. */
  lemma DigitsStep(base: Base, v: nat)
    requires v >= base
    ensures Value(base, Digits(base, v)) == Value(base, Digits(base, v / base)) * base + v % base
  {
    DigitCharValue(base, v % base);
    var s := Digits(base, v);
    assert s[..|s| - 1] == Digits(base, v / base);
  }

  lemma DigitsSingle(base: Base, v: nat)
    requires v < base
    ensures Value(base, Digits(base, v)) == v
  {
    DigitCharValue(base, v);
    assert Digits(base, v)[..0] == [];
  }

  lemma DivMod(v: nat, b: nat)
    requires b > 0
    ensures (v / b) * b + v % b == v
  {
  }

  /** A value below base^w needs at most w digits. */
  lemma {:induction false} DigitsLength(base: Base, v: nat, w: nat)
    requires 1 <= w && v < Pow(base, w)
    ensures |Digits(base, v)| <= w
    decreases v
  {
    if v >= base {
      assert w != 1 by { assert Pow(base, 1) == base; }
      DivBelow(v, base, Pow(base, w - 1));
      DigitsLength(base, v / base, w - 1);
    }
  }

  lemma DivBelow(v: nat, b: nat, p: nat)
    requires b > 0 && v < b * p
    ensures v / b < p
  {
    var q := v / b;
    assert q * b <= v;
    if p <= q { MulMono(p, q, b); }
  }

  lemma MulMono(a: nat, c: nat, b: nat)
    requires a <= c
    ensures a * b <= c * b
  {
  }

  /** Parsing a string that is all digits reads it whole when allowed to. */
  lemma {:induction false} DigitPrefixOfDigits(base: Base, s: string, n: int)
    requires AllDigits(base, s) && n >= |s|
    ensures DigitPrefix(base, s, n) == s
  {
    if s != [] {
      DigitPrefixOfDigits(base, s[1..], n - 1);
      assert [s[0]] + s[1..] == s;
    }
  }
}
