# NDI command interpreter and BinaryData buffer, in Dafny

This project models the core of IGSTK's driver for NDI optical and
electromagnetic trackers (POLARIS, AURORA), together with `igstk::BinaryData`.
The driver core is `igstk::NDICommandInterpreter`. It has three jobs:

- It formats the NDI API commands (`INIT:`, `PENA:AD`, `TX:0001`, …).
- `Command()` sends a command with its CRC and a carriage return, or sends a
  serial break for the null command. It then reads the reply, checks the
  reply's CRC, and sets the interpreter's single error code.
- On a good reply, it hands the reply to the helper of the command's family
  (`PHRQ`, `PHSR`, `PHINF`, `TX`, `BX`, `SSTAT`, `IRCHK`, `VER`). That helper
  refills the family's reply cache, which the const `Get*` accessors read.

The interpreter also has static text and binary decoders, a hex codec for
SROM data, and the error-code enum with its `ErrorString`.
`igstk::BinaryData` is a resizable byte buffer with element access, copies to
and from raw arrays, equality, and a lexicographic `<`.

Files:

- `ndi_digits.dfy` and `ndi_parse.dfy`: digit strings and the field parsers
  (`HexadecimalStringToUnsignedInt`, `HexadecimalStringToInt`, `StringToInt`,
  `SignedStringToInt`).
- `ndi_format.dfy`: the `printf` conversions the builders use (`%0wX`, `%d`,
  `%03d`, `%c`, `%-w.ps`, `%w.ps`, `%.ps`). `%0wX` prints the 32-bit pattern
  of its argument, with the wrap-around written out; `%d` and `%03d` print
  the argument as an unbounded integer, whose round trips are proved for
  values that fit in 32 bits.
- `ndi_binary.dfy`: the little-endian decoders and `HexEncode`/`HexDecode`.
- `ndi_errors.dfy`: the error enum and `ErrorString`.
- `ndi_commands.dfy`: the command builders. `RESET` is the null command.
- `ndi_framing.dfy`: the CRC framing and the binary magic number. The CRC
  function is a parameter.
- `ndi_replies.dfy`: the reply caches, port-handle lookup and accessors,
  including the ones that copy into a caller's array.
- `ndi_interpreter.dfy`: `Command()` as the class `NDICommandInterpreter`.
  Its state is tied to the pure function `Next`, and the error-code and
  cache-scoping lemmas are stated about `Next`.
- `binary_data.dfy`: `BinaryData`, its order, and the scenario its test
  drives.

The serial line is an input of `Command()`: a `Transport` value (the write
failed, the read timed out, the read failed, or a line arrived). The CRC
algorithm, the check of a binary reply and the bodies of the `HelperForXXX`
parsers are not in the header. They are parameters of the interpreter, given
as a `Config` value.

The header doc comment on `Command()` (lines 424-441) lists the families
COMM, PHSR, PHINF, TX, SSTAT and IRCHK. The model also dispatches PHRQ, BX and
VER, because the header declares helpers for them (lines 1468-1476).

## Model

| member | source | states |
|---|---|---|
| NDIDigits.DigitPrefix | Source/igstkNDICommandInterpreter.h:1482-1509 | the part of a field a parser reads: at most n characters, all digits, a prefix of the input, stopping only at a non-digit or at n |
| NDIDigits.Digits | Source/igstkNDICommandInterpreter.h:1482-1509 | the digits `printf` writes for a value: at least one, all digits of the base, upper case |
| NDIDigits.DigitsValue | Source/igstkNDICommandInterpreter.h:1482-1509 | printing a value in a base and reading the digits back gives the value |
| NDIDigits.ValueBound | Source/igstkNDICommandInterpreter.h:1482-1509 | a digit string of length k reads as less than base^k |
| NDIDigits.ValueLeadingZeros | Source/igstkNDICommandInterpreter.h:1482-1509 | leading zeros from zero-padding do not change the value read |
| NDIDigits.DigitPrefixOfDigits | Source/igstkNDICommandInterpreter.h:1482-1509 | a field made only of digits is read whole |
| NDIParse.ToInt32 | Source/igstkNDICommandInterpreter.h:1494 | the unsigned-to-`int` conversion: the 32-bit two's-complement reading of a value below 2^32 |
| NDIParse.HexadecimalStringToUnsignedInt | Source/igstkNDICommandInterpreter.h:1482-1487 | the result is below 2^32; for n ≤ 8 it is the value of the longest hex-digit prefix of the first n characters |
| NDIParse.HexadecimalStringToInt | Source/igstkNDICommandInterpreter.h:1489-1494 | the same bits as the unsigned parse, read as a signed 32-bit int; for n ≤ 7 exactly the unsigned value |
| NDIParse.StringToInt | Source/igstkNDICommandInterpreter.h:1496-1501 | for n ≤ 9 the value of the longest decimal-digit prefix, never negative; for every n a C int with the same 32 bits as that value |
| NDIParse.SignedStringToInt | Source/igstkNDICommandInterpreter.h:1503-1509 | zero unless the first character is '+' or '-'; otherwise the decimal field after it, negated for '-' (exactly for n ≤ 10, as the same 32 bits for every n) |
| NDIParse.Signed32 | Source/igstkNDICommandInterpreter.h:1503-1509 | the signed result as a C int: the same 32 bits as ± the magnitude, and exactly ± the magnitude when it is below 2^31 |
| NDIParse.DigitPrefixReadsAtMost | Source/igstkNDICommandInterpreter.h:1482-1509 | characters past the first n never change a parse |
| NDIParse.DigitPrefixHalts | Source/igstkNDICommandInterpreter.h:1482-1509 | the first non-digit ends the conversion: nothing at or after it matters |
| NDIParse.HexReadsAtMost | Source/igstkNDICommandInterpreter.h:1482-1487 | HexadecimalStringToUnsignedInt reads at most n characters |
| NDIParse.HexHaltsAtNonDigit | Source/igstkNDICommandInterpreter.h:1482-1487 | the hex conversion halts at the first non-hexadecimal character |
| NDIParse.DecimalHaltsAtNonDigit | Source/igstkNDICommandInterpreter.h:1496-1501 | StringToInt accepts decimal digits only and stops at the first other character |
| NDIParse.MalformedFieldIsZero | Source/igstkNDICommandInterpreter.h:1482-1509 | the parsers never fail: a field that starts with a non-digit reads as 0 |
| NDIFormat.FormatHex | Source/igstkNDICommandInterpreter.h:490-491 | `%0wX` writes at least w upper-case hexadecimal digits of the value mod 2^32 |
| NDIFormat.FormatHexRoundTrip | Source/igstkNDICommandInterpreter.h:505-518 | a value below 16^w prints as exactly w digits, which the hex parsers read back |
| NDIFormat.FormatDecimalPadded | Source/igstkNDICommandInterpreter.h:463-464 | `%03d` writes at least the width and at least one character |
| NDIFormat.DecimalPaddedRoundTrip | Source/igstkNDICommandInterpreter.h:463-464 | a value below 10^w prints as exactly w digits that StringToInt reads back |
| NDIFormat.DecimalRoundTrip | Source/igstkNDICommandInterpreter.h:727-728 | non-negative `%d` output is read back by StringToInt |
| NDIFormat.SignedDecimalRoundTrip | Source/igstkNDICommandInterpreter.h:1503-1509 | negative `%d` output is read back by SignedStringToInt; unsigned output is rejected as 0 |
| NDIFormat.NegativeDecimalRoundTrip | Source/igstkNDICommandInterpreter.h:1503-1509 | a negative 32-bit value printed with its '-' reads back as itself |
| NDIFormat.FormatChar | Source/igstkNDICommandInterpreter.h:517-518 | `%c` writes one character, the argument mod 256 |
| NDIFormat.Truncate | Source/igstkNDICommandInterpreter.h:616-617 | `%.ps` writes at most p characters, a prefix of the string, all of it when it fits |
| NDIFormat.FormatField | Source/igstkNDICommandInterpreter.h:564 | `%-w.ps` (PHRQ's left-justified `%-8.8s`) with w = p writes exactly w characters, starting with the truncated string |
| NDIFormat.FormatFieldRight | Source/igstkNDICommandInterpreter.h:564 | `%w.ps` (PHRQ's right-justified `%1.1s` and `%2.2s`) with w = p writes exactly w characters, at least as many as the truncated string |
| NDICommands.RightJustified | Source/igstkNDICommandInterpreter.h:564 | a `%w.ws` field is spaces on the left followed by as much of the argument as fits |
| NDIBinary.BinaryToUnsignedChar | Source/igstkNDICommandInterpreter.h:1515-1520 | the first byte as it is |
| NDIBinary.BinaryToUnsignedShort | Source/igstkNDICommandInterpreter.h:1521-1525 | b0 + 256·b1 in 16 bits, whatever the host's byte order; the low and high bytes can be read back |
| NDIBinary.BinaryToUnsignedInt | Source/igstkNDICommandInterpreter.h:1526-1530 | b0 + 2^8·b1 + 2^16·b2 + 2^24·b3 in 32 bits; each byte can be read back |
| NDIBinary.IntFromShorts | Source/igstkNDICommandInterpreter.h:1521-1530 | a 32-bit reading is the low 16-bit reading plus 2^16 times the high one |
| NDIBinary.ShortBytes | Source/igstkNDICommandInterpreter.h:1521-1525 | every 16-bit value has two bytes that BinaryToUnsignedShort decodes to it |
| NDIBinary.IntBytes | Source/igstkNDICommandInterpreter.h:1526-1530 | every 32-bit value has four bytes that BinaryToUnsignedInt decodes to it |
| NDIBinary.HexEncode | Source/igstkNDICommandInterpreter.h:1302-1312 | exactly 2n characters, byte i as two upper-case hex digits at 2i |
| NDIBinary.HexDecode | Source/igstkNDICommandInterpreter.h:1314-1321 | n bytes, byte i read from characters 2i and 2i+1 |
| NDIBinary.HexRoundTrip | Source/igstkNDICommandInterpreter.h:1302-1321 | HexDecode(HexEncode(x), n) = x for every length n |
| NDIBinary.HexEncodeInjective | Source/igstkNDICommandInterpreter.h:1302-1312 | distinct byte strings encode to distinct text |
| NDIErrors.DeviceCodes | Source/igstkNDICommandInterpreter.h:64-123 | the device codes (≤ 0xFF) of the enum are exactly 0x00-0x33, 0xF1 and 0xF4-0xF6 |
| NDIErrors.HostCodes | Source/igstkNDICommandInterpreter.h:125-134 | the host codes are exactly the multiples of 0x100 from 0x100 to 0x800 |
| NDIErrors.ErrorString | Source/igstkNDICommandInterpreter.h:1297-1300 | the text of a code in the enum, "Unrecognized error code" for any other number |
| NDIErrors.ErrorStringFallback | Source/igstkNDICommandInterpreter.h:1297-1300 | ErrorString is "Unrecognized error code" exactly for codes not in the enum |
| NDICommands.CRem | Source/igstkNDICommandInterpreter.h:450 | C's `%`: n = d·q + r with q truncated toward zero, so r has the sign of n |
| NDICommands.BeepDigit | Source/igstkNDICommandInterpreter.h:446-450 | BEEP(n) sends the single digit n mod 10 for n ≥ 0; a negative n not divisible by 10 sends '-' and a digit |
| NDICommands.PortHandleCommands | Source/igstkNDICommandInterpreter.h:508-590 | for a handle 0x01-0xFF, PDIS, PHF and PINIT are fixed-width and the handle reads back |
| NDICommands.HandleField | Source/igstkNDICommandInterpreter.h:508-511 | `%02X` of a byte is two digits that read back as the byte |
| NDICommands.ModeField | Source/igstkNDICommandInterpreter.h:689-690 | `%04X` of a 16-bit mode is four digits that read back as the mode |
| NDICommands.PenaFormat | Source/igstkNDICommandInterpreter.h:513-518 | PENA is the handle's two digits and one mode character |
| NDICommands.PhrqFormat | Source/igstkNDICommandInterpreter.h:550-566 | PHRQ's payload is always 14 characters; the 8-character number starts with as much of its argument as fits; system type, tool type, port and channel end with as much of theirs as fits, padded with spaces on the left |
| NDICommands.PvwrFormat | Source/igstkNDICommandInterpreter.h:610-617 | PVWR sends at most 128 data characters after a handle and an address that read back |
| NDICommands.ModeCommands | Source/igstkNDICommandInterpreter.h:650-716 | TX, BX, SSTAT and IRCHK carry their mode as four hex digits that read back |
| NDICommands.PhinfFormat | Source/igstkNDICommandInterpreter.h:525-548 | PHINF carries a handle and a mode that both read back |
| NDICommands.CommFormat | Source/igstkNDICommandInterpreter.h:452-464 | COMM writes a one-digit baud, a three-digit format and a one-digit handshake, each readable back |
| NDICommands.LedFormat | Source/igstkNDICommandInterpreter.h:498-506 | LED is the handle's two digits, one LED digit and one state character |
| NDICommands.OutputFormats | Source/igstkNDICommandInterpreter.h:592-608 | PSOUT is the handle and three GPIO characters; PVCLR is one port character |
| NDICommands.SflistFormat | Source/igstkNDICommandInterpreter.h:624-641 | SFLIST carries its mode as two hex digits that read back |
| NDICommands.VerFormat | Source/igstkNDICommandInterpreter.h:718-728 | VER carries the processor number in decimal, readable back |
| NDIFraming.Frame | Source/igstkNDICommandInterpreter.h:416-429 | a null command becomes a break; any other is sent with four CRC digits and a carriage return after it |
| NDIFraming.FrameIsChecked | Source/igstkNDICommandInterpreter.h:416-429 | the CRC check accepts what Frame sends, and returns the text it framed |
| NDIFraming.CorruptLineRefused | Source/igstkNDICommandInterpreter.h:1455-1460 | a line whose CRC field does not match its text is refused |
| NDIFraming.BinaryMagicBytes | Source/igstkNDICommandInterpreter.h:1448-1453 | a reply is binary exactly when it starts with the bytes 0xC4 and 0xA5, the magic "A5C4" read little-endian |
| NDIFraming.TextReplyIsNotBinary | Source/igstkNDICommandInterpreter.h:1448-1453 | a reply starting with a 7-bit character is read as text |
| NDIReplies.Status.Code | Source/igstkNDICommandInterpreter.h:210-218 | a port's status is one of UNOCCUPIED, VALID, MISSING and DISABLED, and VALID only for a valid port |
| NDIReplies.HandleIndex | Source/igstkNDICommandInterpreter.h:1478-1480 | the index of the first row with the handle, or -1 exactly when no row has it |
| NDIReplies.IndexFromPortHandle | Source/igstkNDICommandInterpreter.h:1478-1480 | the search loop finds a row exactly when the handle is cached, and the first such row |
| NDIReplies.FirstWithUnique | Source/igstkNDICommandInterpreter.h:1478-1480 | the first row with the handle is the one HandleIndex returns |
| NDIReplies.PortStatusOf | Source/igstkNDICommandInterpreter.h:933-949 | the cached port status of the handle's row, 0 for an unknown handle |
| NDIReplies.FrameOf | Source/igstkNDICommandInterpreter.h:951-959 | the cached frame number of the handle's row, 0 for an unknown handle |
| NDIReplies.ToolInfoOf | Source/igstkNDICommandInterpreter.h:961-972 | the cached tool information of the handle's row, 0 for an unknown handle |
| NDIReplies.MarkerInfoOf | Source/igstkNDICommandInterpreter.h:974-987 | the marker's cached status for markers 'A' to 'T', 0 for another marker or an unknown handle |
| NDIReplies.PassiveStrayOutOfVolumeOf | Source/igstkNDICommandInterpreter.h:1031-1045 | 1 exactly for a reported stray outside the volume, 0 otherwise, including an out-of-range index |
| NDIReplies.CopyInto | Source/igstkNDICommandInterpreter.h:912-931 | the copy loop writes the values to the start of the array and leaves the rest |
| NDIReplies.TransformInto | Source/igstkNDICommandInterpreter.h:912-931 | NDI_UNOCCUPIED for an unknown handle, else the row's status; the 8 values are copied only when VALID and the array is unchanged otherwise |
| NDIReplies.SingleStrayInto | Source/igstkNDICommandInterpreter.h:989-1004 | NDI_DISABLED for an unknown handle, else the stray status; the coordinates are copied only when VALID |
| NDIReplies.PassiveStrayInto | Source/igstkNDICommandInterpreter.h:1014-1029 | VALID exactly for an index in range, with the stray copied; NDI_UNOCCUPIED and no change otherwise |
| NDIReplies.TextInto | Source/igstkNDICommandInterpreter.h:786-805 | for an occupied port, NDI_VALID and the text followed by a null byte at the start of the array; for an empty port, NDI_UNOCCUPIED and nothing changes |
| NDIReplies.Sources | Source/igstkNDICommandInterpreter.h:1269-1278 | at most 20 sources, each an (x, y) pair; none for a side other than left or right |
| NDIReplies.NumberOfSourcesOf | Source/igstkNDICommandInterpreter.h:1269-1278 | the number of sources on the side, 0 when no source data was requested |
| NDIReplies.SourceXYInto | Source/igstkNDICommandInterpreter.h:1280-1295 | NDI_MISSING when no source data was requested; else VALID exactly for an index in range, with the pair copied |
| NDIInterpreter.FamilyOf | Source/igstkNDICommandInterpreter.h:424-441 | a recognised command starts with its family's prefix |
| NDIInterpreter.PrefixNamesFamily | Source/igstkNDICommandInterpreter.h:424-441 | any command starting with a family's prefix is recognised as that family |
| NDIInterpreter.TrackingFamilies | Source/igstkNDICommandInterpreter.h:689-716 | TX and BX commands are dispatched to the TX and BX caches |
| NDIInterpreter.PhinfFamily | Source/igstkNDICommandInterpreter.h:547-548 | PHINF commands are dispatched to the PHINF cache |
| NDIInterpreter.PhsrFamily | Source/igstkNDICommandInterpreter.h:568-584 | PHSR commands are dispatched to the PHSR cache |
| NDIInterpreter.PhrqFamily | Source/igstkNDICommandInterpreter.h:561-566 | PHRQ commands are dispatched to the PHRQ cache |
| NDIInterpreter.StatusFamilies | Source/igstkNDICommandInterpreter.h:490-491 | IRCHK (built at these lines) and SSTAT (built at lines 657-658) commands are dispatched to their caches |
| NDIInterpreter.VerFamily | Source/igstkNDICommandInterpreter.h:727-728 | VER commands are dispatched to the VER text |
| NDIInterpreter.CommFamily | Source/igstkNDICommandInterpreter.h:427-428 | COMM commands are recognised as COMM |
| NDIInterpreter.UnstoredFamilies | Source/igstkNDICommandInterpreter.h:446-479 | RESET, BEEP, INIT, TSTART, TSTOP and IRINIT belong to no family |
| NDIInterpreter.HandleCommandFamilies | Source/igstkNDICommandInterpreter.h:508-590 | PDIS, PENA, PHF and PINIT belong to no family |
| NDIInterpreter.ReadAscii | Source/igstkNDICommandInterpreter.h:1455-1460 | BAD_CRC exactly when the CRC check fails; otherwise the reply is the checked text, with the device's code for an ERROR reply and OKAY for any other |
| NDIInterpreter.Exchange | Source/igstkNDICommandInterpreter.h:416-444 | OKAY only when a line arrived; a failure carries an empty reply unless it is a device ERROR reply, which only a text command can get and whose code it carries |
| NDIInterpreter.Next | Source/igstkNDICommandInterpreter.h:416-444 | the error code and reply of the exchange; the caches change only after a good reply (OKAY and not ERROR) to a command of a storing family |
| NDIInterpreter.DeviceErrorCode | Source/igstkNDICommandInterpreter.h:52-63 | an "ERROR" reply's two hex digits give a device code, at most 0xFF |
| NDIInterpreter.ErrorCodeKinds | Source/igstkNDICommandInterpreter.h:52-63 | every exchange leaves OKAY, a device code ≤ 0xFF, or a host code; a nonzero device code comes only from a checked ERROR reply; a checked ERROR reply to a text command sets the device's code and is never a good reply |
| NDIInterpreter.TransportErrors | Source/igstkNDICommandInterpreter.h:125-134 | WRITE_ERROR, TIMEOUT and READ_ERROR name exactly the transport failure; RESET_FAIL occurs only for a break |
| NDIInterpreter.BreakOutcome | Source/igstkNDICommandInterpreter.h:619-622 | a break leaves OKAY or RESET_FAIL, and OKAY exactly when a checked non-error reply arrives |
| NDIInterpreter.TextUnlessMagic | Source/igstkNDICommandInterpreter.h:1448-1453 | a reply without the magic number is read as an ASCII reply, even for BX |
| NDIInterpreter.CheckedReplyAccepted | Source/igstkNDICommandInterpreter.h:416-419 | a reply with a correct CRC is returned without its CRC, and an error reply sets the device's code |
| NDIInterpreter.FamilyScoping | Source/igstkNDICommandInterpreter.h:424-441 | a command's reply refills its own family's cache and no other |
| NDIInterpreter.ErrorKeepsCaches | Source/igstkNDICommandInterpreter.h:442-444 | every Command sets the error code; a failed one, or one answered by an ERROR reply, changes no cache |
| NDIInterpreter.IRCHKRefresh | Source/igstkNDICommandInterpreter.h:486-491 | IRCHK() with a good reply hands the IRCHK helper its command, reply and the old IRCHK data, and the result is the new IRCHK data; a failed or ERROR reply leaves them |
| NDIInterpreter.IRCHKPersists | Source/igstkNDICommandInterpreter.h:1261-1267 | the IRCHK data behind GetIRCHKDetected are updated only by IRCHK(): any run of commands without one leaves them as they are |
| NDIInterpreter.TrackingPersists | Source/igstkNDICommandInterpreter.h:929-930 | across any run of commands without a TX (BX) command, the TX (BX) data stay as they are |
| NDIInterpreter.TransformStatusOf | Source/igstkNDICommandInterpreter.h:912-931 | the status of the handle's first row, NDI_UNOCCUPIED for an unknown handle |
| NDIInterpreter.SingleStrayStatusOf | Source/igstkNDICommandInterpreter.h:989-1004 | the stray status of the handle's first row, NDI_DISABLED for an unknown handle |
| NDIInterpreter.NDICommandInterpreter.constructor | Source/igstkNDICommandInterpreter.h:1342-1424 | a new interpreter has OKAY as its error code and empty caches |
| NDIInterpreter.NDICommandInterpreter.Command | Source/igstkNDICommandInterpreter.h:416-444 | what is written is Frame of the command (CRC and carriage return, or a break for the null command); the new state is Next of the old one: the error code and reply of the exchange, and the family's cache refilled after a good reply |
| NDIInterpreter.NDICommandInterpreter.Refill | Source/igstkNDICommandInterpreter.h:424-441 | after a good reply, exactly the cache of the command's family is replaced by its helper's result; the error code, the reply and every other cache stay as they were |
| NDIInterpreter.NDICommandInterpreter.GetPHSRNumberOfHandles | Source/igstkNDICommandInterpreter.h:740-742 | at most 255 handles are reported |
| NDIInterpreter.NDICommandInterpreter.GetPHINFToolInfo | Source/igstkNDICommandInterpreter.h:786-805 | 31 characters of tool information and a null byte for an occupied port, NDI_UNOCCUPIED and no change otherwise |
| NDIInterpreter.NDICommandInterpreter.GetPHINFPartNumber | Source/igstkNDICommandInterpreter.h:836-849 | 20 characters of part number and a null byte for an occupied port, NDI_UNOCCUPIED and no change otherwise |
| NDIInterpreter.NDICommandInterpreter.GetPHINFPortLocation | Source/igstkNDICommandInterpreter.h:889-902 | 14 characters of port location and a null byte for an occupied port, NDI_UNOCCUPIED and no change otherwise |
| NDIInterpreter.NDICommandInterpreter.TXIndexFromPortHandle | Source/igstkNDICommandInterpreter.h:1478-1480 | found exactly when the handle is in the TX data, at its first row |
| NDIInterpreter.NDICommandInterpreter.BXIndexFromPortHandle | Source/igstkNDICommandInterpreter.h:1511-1513 | found exactly when the handle is in the BX data, at its first row |
| NDIInterpreter.NDICommandInterpreter.GetTXTransform | Source/igstkNDICommandInterpreter.h:912-931 | NDI_UNOCCUPIED for an unknown handle; the transform is copied only when VALID and left unchanged otherwise |
| NDIInterpreter.NDICommandInterpreter.GetBXTransform | Source/igstkNDICommandInterpreter.h:1064-1084 | the same lookup on the BX data |
| NDIInterpreter.NDICommandInterpreter.GetTXSingleStray | Source/igstkNDICommandInterpreter.h:989-1004 | NDI_DISABLED for an unknown handle; the position is copied only when VALID |
| NDIInterpreter.NDICommandInterpreter.GetBXSingleStray | Source/igstkNDICommandInterpreter.h:1147-1162 | the same lookup on the BX data |
| NDIInterpreter.NDICommandInterpreter.GetTXPassiveStray | Source/igstkNDICommandInterpreter.h:1014-1029 | VALID exactly for an index in range; NDI_UNOCCUPIED and no change otherwise |
| NDIInterpreter.NDICommandInterpreter.GetBXPassiveStray | Source/igstkNDICommandInterpreter.h:1171-1185 | the same lookup on the BX data |
| NDIInterpreter.NDICommandInterpreter.GetIRCHKSourceXY | Source/igstkNDICommandInterpreter.h:1280-1295 | NDI_MISSING without source data; VALID with the pair copied for an index in range; NDI_UNOCCUPIED and no change otherwise |
| NDIInterpreter.CommandThenLookup | Source/igstkNDICommandInterpreter.h:929-930 | after a non-TX command, GetError reports that exchange and a TX lookup answers from the TX data as they were before |
| BinaryDataBuffer.LexLessIsLexBefore | Testing/igstkBinaryDataTest.cxx:96-119 | `<` is the standard lexicographic order: either the first differing byte is smaller, or the buffer is a proper prefix |
| BinaryDataBuffer.LexIrreflexive | Testing/igstkBinaryDataTest.cxx:96-103 | no buffer is `<` itself |
| BinaryDataBuffer.LexTransitive | Testing/igstkBinaryDataTest.cxx:96-103 | `<` is transitive |
| BinaryDataBuffer.LexTrichotomy | Testing/igstkBinaryDataTest.cxx:81-103 | two buffers are equal or ordered one way, never both ways |
| BinaryDataBuffer.FirstDifferenceDecides | Testing/igstkBinaryDataTest.cxx:96-103 | the first differing byte decides `<` |
| BinaryDataBuffer.ProperPrefixFirst | Testing/igstkBinaryDataTest.cxx:105-119 | a proper prefix is `<` the longer buffer and not the other way round |
| BinaryDataBuffer.Resized | Testing/igstkBinaryDataTest.cxx:42-43 | after resizing to n: n bytes, the old ones kept up to n, the new ones zero |
| BinaryDataBuffer.BinaryData.constructor | Testing/igstkBinaryDataTest.cxx:34-36 | a new buffer is empty |
| BinaryDataBuffer.BinaryData.GetSize | Testing/igstkBinaryDataTest.cxx:65 | the number of bytes held |
| BinaryDataBuffer.BinaryData.GetData | Testing/igstkBinaryDataTest.cxx:69-77 | the container has GetSize() bytes, the ones operator[] reads |
| BinaryDataBuffer.BinaryData.SetSize | Testing/igstkBinaryDataTest.cxx:42-43 | the buffer becomes Resized(old bytes, n) |
| BinaryDataBuffer.BinaryData.Set | Testing/igstkBinaryDataTest.cxx:45-54 | writing byte i changes that byte and no other |
| BinaryDataBuffer.BinaryData.CopyTo | Testing/igstkBinaryDataTest.cxx:57 | the bytes fill the start of the array; the rest is unchanged |
| BinaryDataBuffer.BinaryData.CopyFrom | Testing/igstkBinaryDataTest.cxx:65 | the buffer becomes the first n bytes of the array |
| BinaryDataBuffer.BinaryData.Equals | Testing/igstkBinaryDataTest.cxx:81-85 | equal exactly when the sizes and all bytes agree |
| BinaryDataBuffer.BinaryData.NotEquals | Testing/igstkBinaryDataTest.cxx:87-94 | exactly the negation of == |
| BinaryDataBuffer.BinaryData.Less | Testing/igstkBinaryDataTest.cxx:96-119 | the lexicographic order on the bytes |
| BinaryDataBuffer.CopyRoundTrip | Testing/igstkBinaryDataTest.cxx:57-65 | CopyTo then CopyFrom with GetSize() gives the same bytes |
| BinaryDataBuffer.FillDigits | Testing/igstkBinaryDataTest.cxx:42-49 | after the fill loop the buffer holds '0' to '9' and then 0 |
| BinaryDataBuffer.FillCounting | Testing/igstkBinaryDataTest.cxx:43-54 | after the fill loop the buffer holds 1 to 200 and then 0 |
| BinaryDataBuffer.CompareScenario | Testing/igstkBinaryDataTest.cxx:34-103 | the copy reproduces the buffer; the two filled buffers are not ==, are !=, and the first is not `<` the second |
| BinaryDataBuffer.PrefixScenario | Testing/igstkBinaryDataTest.cxx:105-119 | after shrinking, {'\\', 0} is `<` {'\\', 0, 0} |

## Left out

- The CRC algorithm is not in the header. `Command()` takes it as a function
  parameter, and the framing lemmas hold for any CRC.
- The bodies of `HelperForCOMM` … `HelperForVER` are not in the header. Each is a
  function parameter from (command, reply, old cache) to the new cache of its
  family. The field offsets inside a reply and the per-mode-bit updates within
  a family are therefore not modelled.
- Two conventions are not visible in the header, so the model fixes them:
  - A device error is a checked reply "ERROR" followed by two hexadecimal
    digits. Such a reply never reaches a helper.
  - A break succeeds when a checked reply that is not an error comes back.
- NDIInterpreter.ErrorCodeKinds: an ERROR reply whose digits read as 00 (or are not
  hexadecimal) leaves the error code 0, which the enum names "No error". It
  still refills no cache. No code is invented for it, because the header
  defines none.
- NDIErrors.ErrorString: the texts are taken from the comments on the enum
  (lines 64-134). The table inside the implementation is not part of this
  model, and its wording may differ. Which codes are defined, and the
  fallback text, follow the header.
- NDIBinary.HexDecode: the header does not say what happens to characters
  that are not hexadecimal. The model reads each pair as the hex field
  parser does, so it stops at the bad character: "Z5" gives 0 and "5Z"
  gives 5.
- NDIFormat.FormatChar: `%c` of 0 would put a NUL into the C command text,
  which ends it there. The model keeps the NUL inside the string. No builder
  in the header passes 0 (PENA modes 'S', 'D', 'B'; LED states).
- The integrity check of a binary BX reply is a parameter (`binaryCheck`).
  Only the magic number that selects binary reading is modelled.
- Serial I/O (`SetCommunication`, `WriteSerialBreak`, `WriteCommand`, the byte
  reading inside `ReadBinaryReply`/`ReadAsciiReply`) becomes the `Transport`
  input of `Command()`. What `Command()` writes is recorded in the field
  `serialCommand` (the header's `m_SerialCommand`, line 1343) as the framed
  line or a break. Whether the write succeeded is part of `Transport`.
- After `COMM:`, `HelperForCOMM` adjusts the host port. This is not modelled:
  COMM changes no cache.
- Floating point: transforms, stray positions and IR source positions are
  Dafny `real` values carried as opaque tuples. `BinaryToFloat` is not modelled.
- The caches are `seq` and record fields rather than the header's fixed C
  arrays and text buffers (lines 1342-1424). The bounds are kept as
  well-formedness conditions: at most `NDI_MAX_HANDLES` = 24 tools.
- The header contradicts itself on the PHINF text accessors. Their parameter
  notes call the result not null-terminated, while their descriptions
  (lines 797-798, 845-846, 889-891) promise a null byte after the text. The
  model writes the null byte. For an unoccupied port the header leaves the
  array's contents undefined; the model leaves the array unchanged.
- The header also contradicts itself on GetIRCHKSourceXY (lines 1286-1291):
  it returns NDI_MISSING and leaves the array unchanged when there is no
  source information, and otherwise NDI_VALID, or NDI_UNOCCUPIED for an
  index out of range. Its "NDI_OKAY" is read as NDI_VALID, the code the
  same comment names first.
- NDIInterpreter.NDICommandInterpreter.GetPHSRHandle: requires an index below
  the reported number of handles, as its documentation demands. An
  out-of-range index is not modelled.
- NDIParse.HexadecimalStringToUnsignedInt: the exact value is stated only for
  n ≤ 8. Longer fields are stated as below 2^32.
- Source/igstkPolarisClassicTracker.h, Source/igstkTrackerTool.cxx, the
  examples and the other tests are not part of this model. They are
  declarations, hardware lifecycle, concurrency, GUI or rendering.
- The body of igstk::BinaryData is not part of this model. Its behaviour is
  taken from the test and from `std::vector` semantics:
  - `SetSize` keeps the prefix and zero-fills.
  - `<` is lexicographic.
  - `operator<<` printing is left out.
