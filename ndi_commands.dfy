/**
  The command builders of the NDI interpreter
  (igstkNDICommandInterpreter.h:446-728). Each builds the text that the
  interpreter's Command() sends, without its CRC; RESET passes the null
  command, which stands for a serial break.
*/
module NDICommands {
  import opened NDIDigits
  import opened NDIParse
  import opened NDIFormat

  /** The argument of Command(): the null pointer, which asks for a serial
      break, or the text of a command without CRC and carriage return. */
  datatype CommandText = SerialBreak | Text(chars: string)

  /** PENA() tracking modes. */
  const NDI_STATIC: int := 'S' as int
  const NDI_DYNAMIC: int := 'D' as int
  const NDI_BUTTON_BOX: int := 'B' as int

  /** TX() and BX() reply mode bits. */
  const NDI_XFORMS_AND_STATUS: int := 0x0001
  const NDI_ADDITIONAL_INFO: int := 0x0002
  const NDI_SINGLE_STRAY: int := 0x0004
  const NDI_INCLUDE_OUT_OF_VOLUME: int := 0x0800
  const NDI_PASSIVE_STRAY: int := 0x1000

  /** C's `/` on `int`: the quotient truncated toward zero. */
  function CDiv(n: int, d: int): int
    requires d > 0
  {
    if n >= 0 then n / d else -((-n) / d)
  }

  /** C's `%` on `int`: what is left after the truncated quotient, so it
      carries the sign of the dividend. */
  function CRem(n: int, d: int): (r: int)
    requires d > 0
    ensures n == d * CDiv(n, d) + r
    ensures -d < r < d
    ensures n >= 0 ==> r >= 0
    ensures n <= 0 ==> r <= 0
  {
    if n >= 0 then n % d else -((-n) % d)
  }

  function BEEP(n: int): CommandText
  {
    Text("BEEP:" + FormatDecimal(CRem(n, 10)))
  }

  function COMM(baud: int, dps: int, handshake: int): CommandText
  {
    Text("COMM:" + FormatDecimal(baud) + FormatDecimalPadded(dps, 3) + FormatDecimal(handshake))
  }

  function DSTART(): CommandText { Text("DSTART:") }

  function DSTOP(): CommandText { Text("DSTOP:") }

  function INIT(): CommandText { Text("INIT:") }

  function IRCHK(mode: int): CommandText
  {
    Text("IRCHK:" + FormatHex(mode, 4))
  }

  function IRINIT(): CommandText { Text("IRINIT:") }

  function LED(ph: int, led: int, state: int): CommandText
  {
    Text("LED:" + FormatHex(ph, 2) + FormatDecimal(led) + [FormatChar(state)])
  }

  function PDIS(ph: int): CommandText
  {
    Text("PDIS:" + FormatHex(ph, 2))
  }

  function PENA(ph: int, mode: int): CommandText
  {
    Text("PENA:" + FormatHex(ph, 2) + [FormatChar(mode)])
  }

  function PHF(ph: int): CommandText
  {
    Text("PHF:" + FormatHex(ph, 2))
  }

  function PHINF(ph: int, mode: int): CommandText
  {
    Text("PHINF:" + FormatHex(ph, 2) + FormatHex(mode, 4))
  }

  function PHRQ(num: CString, sys: CString, tool: CString, port: CString, chan: CString): CommandText
  {
    Text("PHRQ:" + FormatField(num, 8, 8) + FormatFieldRight(sys, 1, 1) + FormatFieldRight(tool, 1, 1)
         + FormatFieldRight(port, 2, 2) + FormatFieldRight(chan, 2, 2))
  }

  function PHSR(mode: int): CommandText
  {
    Text("PHSR:" + FormatHex(mode, 2))
  }

  function PINIT(ph: int): CommandText
  {
    Text("PINIT:" + FormatHex(ph, 2))
  }

  function PSOUT(ph: int, a: int, b: int, c: int): CommandText
  {
    Text("PSOUT:" + FormatHex(ph, 2) + [FormatChar(a), FormatChar(b), FormatChar(c)])
  }

  function PVCLR(port: int): CommandText
  {
    Text("PVCLR:" + [FormatChar(port)])
  }

  function PVWR(ph: int, a: int, x: CString): CommandText
  {
    Text("PVWR:" + FormatHex(ph, 2) + FormatHex(a, 4) + Truncate(x, 128))
  }

  /** RESET sends the null command, that is, a serial break. */
  function RESET(): CommandText { SerialBreak }

  function SFLIST(mode: int): CommandText
  {
    Text("SFLIST:" + FormatHex(mode, 2))
  }

  function SSTAT(mode: int): CommandText
  {
    Text("SSTAT:" + FormatHex(mode, 4))
  }

  function TSTART(): CommandText { Text("TSTART:") }

  function TSTOP(): CommandText { Text("TSTOP:") }

  function TX(mode: int): CommandText
  {
    Text("TX:" + FormatHex(mode, 4))
  }

  function BX(mode: int): CommandText
  {
    Text("BX:" + FormatHex(mode, 4))
  }

  function VER(n: int): CommandText
  {
    Text("VER:" + FormatDecimal(n))
  }

  /** BEEP sends a single digit, n mod 10, for a non-negative count; C's
      truncating `%` makes a negative count send '-' and a digit instead. */
  lemma BeepDigit(n: int)
    ensures BEEP(n).Text? && BEEP(n).chars[..5] == "BEEP:"
    ensures n >= 0 ==> |BEEP(n).chars| == 6 && StringToInt(BEEP(n).chars[5..], 1) == n % 10
    ensures n < 0 && n % 10 != 0 ==> |BEEP(n).chars| == 7 && BEEP(n).chars[5] == '-'
  {
    var r := CRem(n, 10);
    PowFacts();
    if n >= 0 {
      assert r < Pow(10, 1);
      DecimalPaddedRoundTrip(r, 1);
      assert FormatDecimalPadded(r, 1) == FormatDecimal(r);
      assert BEEP(n).chars[5..] == FormatDecimal(r);
    } else if n % 10 != 0 {
      assert r != 0;
      assert -r < Pow(10, 1);
      DigitsLength(10, -r, 1);
    }
  }

  /** A port handle from 0x01 to 0xFF becomes exactly two hexadecimal
      digits, which read back as the handle: PDIS, PHF and PINIT have
      fixed-width payloads. */
  lemma PortHandleCommands(ph: int)
    requires 0x01 <= ph <= 0xFF
    ensures |PDIS(ph).chars| == 7 && HexadecimalStringToUnsignedInt(PDIS(ph).chars[5..], 2) == ph
    ensures |PHF(ph).chars| == 6 && HexadecimalStringToUnsignedInt(PHF(ph).chars[4..], 2) == ph
    ensures |PINIT(ph).chars| == 8 && HexadecimalStringToUnsignedInt(PINIT(ph).chars[6..], 2) == ph
  {
    HandleField(ph);
    assert PDIS(ph).chars[5..] == FormatHex(ph, 2);
    assert PHF(ph).chars[4..] == FormatHex(ph, 2);
    assert PINIT(ph).chars[6..] == FormatHex(ph, 2);
  }

  lemma HandleField(ph: int)
    requires 0x00 <= ph <= 0xFF
    ensures |FormatHex(ph, 2)| == 2 && HexadecimalStringToUnsignedInt(FormatHex(ph, 2), 2) == ph
  {
    assert Pow(16, 2) == 256;
    FormatHexRoundTrip(ph, 2);
  }

  lemma ModeField(mode: int)
    requires 0 <= mode < 0x10000
    ensures |FormatHex(mode, 4)| == 4 && HexadecimalStringToInt(FormatHex(mode, 4), 4) == mode
  {
    assert Pow(16, 4) == 0x10000;
    FormatHexRoundTrip(mode, 4);
  }

  /** PENA appends exactly one mode character after the two handle digits. */
  lemma PenaFormat(ph: int, mode: int)
    requires 0x01 <= ph <= 0xFF
    ensures |PENA(ph, mode).chars| == 8
    ensures HexadecimalStringToUnsignedInt(PENA(ph, mode).chars[5..7], 2) == ph
    ensures PENA(ph, mode).chars[7] as int == mode % 256
  {
    HandleField(ph);
    assert PENA(ph, mode).chars[5..7] == FormatHex(ph, 2);
  }

  /** PHRQ pads or truncates its five arguments to 8, 1, 1, 2 and 2
      characters, so its payload is always 14 characters, and each field
      starts with as much of its argument as fits. */
  lemma PhrqFormat(num: CString, sys: CString, tool: CString, port: CString, chan: CString)
    ensures |PHRQ(num, sys, tool, port, chan).chars| == 5 + 14
    ensures Truncate(num, 8) <= PHRQ(num, sys, tool, port, chan).chars[5..13]
    ensures PHRQ(num, sys, tool, port, chan).chars[13..14]
      == Repeat(' ', 1 - |Truncate(sys, 1)|) + Truncate(sys, 1)
    ensures PHRQ(num, sys, tool, port, chan).chars[14..15]
      == Repeat(' ', 1 - |Truncate(tool, 1)|) + Truncate(tool, 1)
    ensures PHRQ(num, sys, tool, port, chan).chars[15..17]
      == Repeat(' ', 2 - |Truncate(port, 2)|) + Truncate(port, 2)
    ensures PHRQ(num, sys, tool, port, chan).chars[17..19]
      == Repeat(' ', 2 - |Truncate(chan, 2)|) + Truncate(chan, 2)
  {
    var f1, f2, f3 := FormatField(num, 8, 8), FormatFieldRight(sys, 1, 1), FormatFieldRight(tool, 1, 1);
    var f4, f5 := FormatFieldRight(port, 2, 2), FormatFieldRight(chan, 2, 2);
    RightJustified(sys, 1);
    RightJustified(tool, 1);
    RightJustified(port, 2);
    RightJustified(chan, 2);
    var c := PHRQ(num, sys, tool, port, chan).chars;
    assert c == "PHRQ:" + f1 + f2 + f3 + f4 + f5;
    FieldAt("PHRQ:", f1, f2 + f3 + f4 + f5);
    FieldAt("PHRQ:" + f1, f2, f3 + f4 + f5);
    FieldAt("PHRQ:" + f1 + f2, f3, f4 + f5);
    FieldAt("PHRQ:" + f1 + f2 + f3, f4, f5);
    FieldAt("PHRQ:" + f1 + f2 + f3 + f4, f5, "");
  }

  /** A `%w.ws` field is spaces followed by the truncated argument. */
  lemma RightJustified(s: string, w: nat)
    ensures FormatFieldRight(s, w, w) == Repeat(' ', w - |Truncate(s, w)|) + Truncate(s, w)
  {
    var t := Truncate(s, w);
    if |t| == w {
      assert Repeat(' ', 0) + t == t;
    }
  }

  /** A field between a head and a tail sits right after the head. */
  lemma FieldAt(head: string, field: string, tail: string)
    ensures (head + field + tail)[|head|..|head| + |field|] == field
    ensures head + field + tail == head + (field + tail)
  {
    assert (head + field + tail)[|head|..|head| + |field|] == (head + field)[|head|..];
  }

  /** PVWR sends at most 128 characters of its data, after a two-digit
      handle and a four-digit address that read back as given. */
  lemma PvwrFormat(ph: int, a: int, x: CString)
    requires 0x00 <= ph <= 0xFF && 0 <= a < 0x10000
    ensures |PVWR(ph, a, x).chars| <= 11 + 128
    ensures PVWR(ph, a, x).chars[11..] == Truncate(x, 128) && PVWR(ph, a, x).chars[11..] <= x
    ensures HexadecimalStringToUnsignedInt(PVWR(ph, a, x).chars[5..7], 2) == ph
    ensures HexadecimalStringToInt(PVWR(ph, a, x).chars[7..11], 4) == a
  {
    HandleField(ph);
    ModeField(a);
    var c := PVWR(ph, a, x).chars;
    assert c[5..7] == FormatHex(ph, 2);
    assert c[7..11] == FormatHex(a, 4);
    assert c[11..] == Truncate(x, 128);
  }

  /** The reply-mode commands carry their mode as four hexadecimal digits
      that read back as the mode. */
  lemma ModeCommands(mode: int)
    requires 0 <= mode < 0x10000
    ensures |TX(mode).chars| == 7 && HexadecimalStringToInt(TX(mode).chars[3..], 4) == mode
    ensures |BX(mode).chars| == 7 && HexadecimalStringToInt(BX(mode).chars[3..], 4) == mode
    ensures |SSTAT(mode).chars| == 10 && HexadecimalStringToInt(SSTAT(mode).chars[6..], 4) == mode
    ensures |IRCHK(mode).chars| == 10 && HexadecimalStringToInt(IRCHK(mode).chars[6..], 4) == mode
  {
    ModeField(mode);
    assert TX(mode).chars[3..] == FormatHex(mode, 4);
    assert BX(mode).chars[3..] == FormatHex(mode, 4);
    assert SSTAT(mode).chars[6..] == FormatHex(mode, 4);
    assert IRCHK(mode).chars[6..] == FormatHex(mode, 4);
  }

  /** PHINF carries a handle and a reply mode, both readable back. */
  lemma PhinfFormat(ph: int, mode: int)
    requires 0x00 <= ph <= 0xFF && 0 <= mode < 0x10000
    ensures |PHINF(ph, mode).chars| == 12
    ensures HexadecimalStringToUnsignedInt(PHINF(ph, mode).chars[6..8], 2) == ph
    ensures HexadecimalStringToInt(PHINF(ph, mode).chars[8..12], 4) == mode
  {
    HandleField(ph);
    ModeField(mode);
    var c := PHINF(ph, mode).chars;
    assert c[6..8] == FormatHex(ph, 2);
    assert c[8..12] == FormatHex(mode, 4);
  }

  /** COMM writes a one-digit baud code, a three-digit data format and a
      one-digit handshake flag, each readable back. */
  lemma CommFormat(baud: int, dps: int, handshake: int)
    requires 0 <= baud <= 9 && 0 <= dps <= 999 && 0 <= handshake <= 9
    ensures |COMM(baud, dps, handshake).chars| == 10
    ensures StringToInt(COMM(baud, dps, handshake).chars[5..6], 1) == baud
    ensures StringToInt(COMM(baud, dps, handshake).chars[6..9], 3) == dps
    ensures StringToInt(COMM(baud, dps, handshake).chars[9..10], 1) == handshake
  {
    assert Pow(10, 1) == 10 && Pow(10, 3) == 1000;
    DecimalPaddedRoundTrip(baud, 1);
    DecimalPaddedRoundTrip(dps, 3);
    DecimalPaddedRoundTrip(handshake, 1);
    assert FormatDecimalPadded(baud, 1) == FormatDecimal(baud);
    assert FormatDecimalPadded(handshake, 1) == FormatDecimal(handshake);
    CommLayout(FormatDecimal(baud), FormatDecimalPadded(dps, 3), FormatDecimal(handshake));
  }

  /** Where the three COMM fields sit in its text. */
  lemma CommLayout(a: string, b: string, h: string)
    ensures |"COMM:" + a + b + h| == 5 + |a| + |b| + |h|
    ensures ("COMM:" + a + b + h)[5..5 + |a|] == a
    ensures ("COMM:" + a + b + h)[5 + |a|..5 + |a| + |b|] == b
    ensures ("COMM:" + a + b + h)[5 + |a| + |b|..5 + |a| + |b| + |h|] == h
  {
    FieldAt("COMM:" + a, b, h);
    FieldAt("COMM:", a, b + h);
    FieldAt("COMM:" + a + b, h, "");
  }

  /** LED sends the handle as two hexadecimal digits, the LED number as
      one decimal digit and the state as one character. */
  lemma LedFormat(ph: int, led: int, state: int)
    requires 0x01 <= ph <= 0xFF && 0 <= led <= 9
    ensures |LED(ph, led, state).chars| == 8
    ensures HexadecimalStringToUnsignedInt(LED(ph, led, state).chars[4..6], 2) == ph
    ensures StringToInt(LED(ph, led, state).chars[6..7], 1) == led
    ensures LED(ph, led, state).chars[7] as int == state % 256
  {
    HandleField(ph);
    assert Pow(10, 1) == 10;
    DecimalPaddedRoundTrip(led, 1);
    assert FormatDecimalPadded(led, 1) == FormatDecimal(led);
    var c := LED(ph, led, state).chars;
    assert c[4..6] == FormatHex(ph, 2);
    assert c[6..7] == FormatDecimal(led);
  }

  /** PSOUT sends the handle and one character per GPIO state; PVCLR
      sends one port character. */
  lemma OutputFormats(ph: int, a: int, b: int, c: int, port: int)
    requires 0x01 <= ph <= 0xFF
    ensures |PSOUT(ph, a, b, c).chars| == 11
    ensures HexadecimalStringToUnsignedInt(PSOUT(ph, a, b, c).chars[6..8], 2) == ph
    ensures PSOUT(ph, a, b, c).chars[8] as int == a % 256
    ensures PSOUT(ph, a, b, c).chars[9] as int == b % 256
    ensures PSOUT(ph, a, b, c).chars[10] as int == c % 256
    ensures PVCLR(port).chars == "PVCLR:" + [PVCLR(port).chars[6]] && PVCLR(port).chars[6] as int == port % 256
  {
    HandleField(ph);
    assert PSOUT(ph, a, b, c).chars[6..8] == FormatHex(ph, 2);
  }

  /** SFLIST carries its reply mode as two hexadecimal digits. */
  lemma SflistFormat(mode: int)
    requires 0 <= mode <= 0xFF
    ensures |SFLIST(mode).chars| == 9 && HexadecimalStringToUnsignedInt(SFLIST(mode).chars[7..], 2) == mode
  {
    HandleField(mode);
    assert SFLIST(mode).chars[7..] == FormatHex(mode, 2);
  }

  /** VER carries the processor number in decimal, readable back. */
  lemma VerFormat(n: int)
    requires 0 <= n < Two31
    ensures StringToInt(VER(n).chars[4..], |VER(n).chars| - 4) == n
  {
    var x := FormatDecimal(n);
    assert VER(n).chars[4..] == x && |VER(n).chars| - 4 == |x| by {
      assert VER(n).chars == "VER:" + x;
    }
    DecimalRoundTrip(n);
  }
}
