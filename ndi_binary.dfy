/**
  Byte-level codecs of the NDI interpreter: the little-endian decoders of BX
  replies (igstkNDICommandInterpreter.h:1515-1530) and the byte <-> hex text
  codec used for SROM data (igstkNDICommandInterpreter.h:1302-1321).
*/
module NDIBinary {
  import opened NDIDigits
  import opened NDIParse
  import opened NDIFormat

  /** An `unsigned char` of a binary payload. */
  type byte = x: int | 0 <= x < 256

  /** BinaryToUnsignedChar: the first byte as it is. */
  function BinaryToUnsignedChar(ucp: seq<bv8>): (r: bv8)
    requires |ucp| >= 1
    ensures r == ucp[0]
  {
    ucp[0]
  }

  /** BinaryToUnsignedShort: two bytes, least significant first. The result
      type is 16 bits wide, so it is below 2^16 on any host. */
  function BinaryToUnsignedShort(ucp: seq<bv8>): (r: bv16)
    requires |ucp| >= 2
    ensures r == ucp[0] as bv16 + 0x100 * ucp[1] as bv16
    ensures r & 0xFF == ucp[0] as bv16 && r >> 8 == ucp[1] as bv16
  {
    (ucp[1] as bv16 << 8) | ucp[0] as bv16
  }

  /** BinaryToUnsignedInt: four bytes, least significant first. */
  function BinaryToUnsignedInt(ucp: seq<bv8>): (r: bv32)
    requires |ucp| >= 4
    ensures r == ucp[0] as bv32 + 0x100 * ucp[1] as bv32
                 + 0x1_0000 * ucp[2] as bv32 + 0x100_0000 * ucp[3] as bv32
    ensures r & 0xFF == ucp[0] as bv32 && (r >> 8) & 0xFF == ucp[1] as bv32
    ensures (r >> 16) & 0xFF == ucp[2] as bv32 && r >> 24 == ucp[3] as bv32
  {
    (((ucp[3] as bv32 << 8) | ucp[2] as bv32) << 16) | ((ucp[1] as bv32 << 8) | ucp[0] as bv32)
  }

  /** A 32-bit reading is the low 16-bit reading plus 2^16 times the high one. */
  lemma IntFromShorts(ucp: seq<bv8>)
    requires |ucp| >= 4
    ensures BinaryToUnsignedInt(ucp)
         == BinaryToUnsignedShort(ucp) as bv32 + 0x1_0000 * BinaryToUnsignedShort(ucp[2..]) as bv32
  {
    assert ucp[2..][0] == ucp[2] && ucp[2..][1] == ucp[3];
  }

  /** Little-endian bytes of a 16-bit value; the short decoder inverts it. */
  function ShortBytes(x: bv16): (b: seq<bv8>)
    ensures |b| == 2 && BinaryToUnsignedShort(b) == x
  {
    [(x & 0xFF) as bv8, (x >> 8) as bv8]
  }

  /** Little-endian bytes of a 32-bit value; the int decoder inverts it. */
  function IntBytes(x: bv32): (b: seq<bv8>)
    ensures |b| == 4 && BinaryToUnsignedInt(b) == x
  {
    [(x & 0xFF) as bv8, ((x >> 8) & 0xFF) as bv8, ((x >> 16) & 0xFF) as bv8, (x >> 24) as bv8]
  }

  /** HexEncode: two upper-case hexadecimal digits per byte, in order. */
  function HexEncode(data: seq<byte>): (r: string)
    ensures |r| == 2 * |data|
    ensures forall i :: 0 <= i < |data| ==> r[2 * i..2 * i + 2] == FormatHex(data[i], 2)
    ensures forall i :: 0 <= i < |r| ==> '0' <= r[i] <= '9' || 'A' <= r[i] <= 'F'
  {
    if data == [] then ""
    else
      PowFacts();
      FormatHexRoundTrip(data[0], 2);
      var head, tail := FormatHex(data[0], 2), HexEncode(data[1..]);
      assert forall i :: 1 <= i < |data| ==>
        (head + tail)[2 * i..2 * i + 2] == tail[2 * (i - 1)..2 * (i - 1) + 2];
      head + tail
  }

  /** One byte from two hexadecimal characters. */
  function HexByte(cp: string): (b: byte)
    requires |cp| >= 2
  {
    PrefixValueBelow(16, cp, 2, 2);
    assert Pow(16, 2) == 256;
    HexadecimalStringToUnsignedInt(cp, 2)
  }

  /** HexDecode: n bytes from 2n hexadecimal characters, two per byte. */
  function HexDecode(cp: string, n: nat): (r: seq<byte>)
    requires 2 * n <= |cp|
    ensures |r| == n
    ensures forall i :: 0 <= i < n ==> r[i] == HexadecimalStringToUnsignedInt(cp[2 * i..2 * i + 2], 2)
  {
    if n == 0 then []
    else
      var tail := HexDecode(cp[2..], n - 1);
      assert forall i :: 1 <= i < n ==> cp[2..][2 * (i - 1)..2 * (i - 1) + 2] == cp[2 * i..2 * i + 2];
      [HexByte(cp)] + tail
  }

  /** HexDecode inverts HexEncode for every length. */
  lemma HexRoundTrip(data: seq<byte>)
    ensures HexDecode(HexEncode(data), |data|) == data
  {
    var r := HexDecode(HexEncode(data), |data|);
    forall i | 0 <= i < |data| ensures r[i] == data[i] {
      PowFacts();
      FormatHexRoundTrip(data[i], 2);
    }
  }

  /** HexEncode is injective: distinct byte strings give distinct text. */
  lemma HexEncodeInjective(a: seq<byte>, b: seq<byte>)
    requires HexEncode(a) == HexEncode(b)
    ensures a == b
  {
    HexRoundTrip(a);
    HexRoundTrip(b);
  }
}
