/**
  What Command() puts on the serial line and how it checks what comes back
  (igstkNDICommandInterpreter.h:416-429, 1440-1453): a command is followed
  by its CRC as four hexadecimal digits and a carriage return, a null
  command is a serial break, and a reply ends in the CRC of the text before
  it. A BX reply that starts with the magic number 0xA5C4 is binary.
  The CRC itself is a parameter of the model.
*/
module NDIFraming {
  import opened NDIWrappers
  import opened NDIDigits
  import opened NDIParse
  import opened NDIFormat
  import opened NDIBinary
  import opened NDICommands

  /** A 16-bit CRC value. */
  type Crc16 = x: int | 0 <= x < 0x10000

  /** What Command() writes: a serial break, or a line of characters. */
  datatype Wire = Break | Line(chars: string)

  /** The text, its CRC in four upper-case hexadecimal digits, and '\r';
      a null command becomes a serial break. */
  function Frame(crc: string -> Crc16, c: CommandText): (w: Wire)
    ensures c.SerialBreak? <==> w.Break?
    ensures c.Text? ==> |w.chars| == |c.chars| + 5 && w.chars[..|c.chars|] == c.chars
    ensures c.Text? ==> w.chars[|w.chars| - 1] == '\r'
  {
    match c
    case SerialBreak => Break
    case Text(s) =>
      ModeField(crc(s));
      Line(s + FormatHex(crc(s), 4) + "\r")
  }

  /** A received line, carriage return removed, is accepted when its last
      four characters read as the CRC of the characters before them; the
      accepted text is those characters. */
  function CheckedPayload(crc: string -> Crc16, line: string): (p: Option<string>)
  {
    if |line| < 4 then None
    else
      var text := line[..|line| - 4];
      if HexadecimalStringToUnsignedInt(line[|line| - 4..], 4) == crc(text) then Some(text) else None
  }

  /** What Frame sends passes the CRC check with the text it framed, so
      the device and the interpreter agree on every well-formed line. */
  lemma FrameIsChecked(crc: string -> Crc16, s: string)
    ensures Frame(crc, Text(s)).Line?
    ensures CheckedPayload(crc, Frame(crc, Text(s)).chars[..|s| + 4]) == Some(s)
  {
    var line := Frame(crc, Text(s)).chars[..|s| + 4];
    ModeField(crc(s));
    assert line == s + FormatHex(crc(s), 4);
    assert line[..|line| - 4] == s;
    assert line[|line| - 4..] == FormatHex(crc(s), 4);
  }

  /** A line whose CRC field does not match its text is refused. */
  lemma CorruptLineRefused(crc: string -> Crc16, text: string, field: string)
    requires |field| == 4 && HexadecimalStringToUnsignedInt(field, 4) != crc(text)
    ensures CheckedPayload(crc, text + field) == None
  {
    var line := text + field;
    assert line[..|line| - 4] == text;
    assert line[|line| - 4..] == field;
  }

  /** The byte a C `char` of the reply stands for. */
  function ByteOf(c: char): bv8
  {
    (c as int % 256) as bv8
  }

  /** ReadBinaryReply: the first two bytes, read little-endian, are the
      magic number 0xA5C4. */
  predicate IsBinaryReply(r: string)
  {
    |r| >= 2 && BinaryToUnsignedShort([ByteOf(r[0]), ByteOf(r[1])]) == 0xA5C4
  }

  /** The magic number is the byte 0xC4 followed by the byte 0xA5. */
  lemma BinaryMagicBytes(r: string)
    requires |r| >= 2
    ensures IsBinaryReply(r) <==> ByteOf(r[0]) == 0xC4 && ByteOf(r[1]) == 0xA5
  {
  }

  /** A reply that starts with a 7-bit character, as every text reply of
      the protocol does, is never taken for a binary one. */
  lemma TextReplyIsNotBinary(r: string)
    requires |r| >= 1 && r[0] as int < 0x80
    ensures !IsBinaryReply(r)
  {
    if |r| >= 2 {
      BinaryMagicBytes(r);
      assert ByteOf(r[0]) != 0xC4;
    }
  }
}
