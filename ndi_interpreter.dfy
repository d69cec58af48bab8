/**
  The NDI command interpreter (igstkNDICommandInterpreter.h:416-444,
  730-1295, 1342-1480): Command() frames a command, reads the reply, sets
  the single error code and, when the reply is good, hands it to the
  helper of the command's family, which refills that family's cache. The
  const accessors read the caches.

  The serial line is an input of each call (a Transport value). The CRC,
  the check of a binary reply and the HelperForXXX parsers are parameters
  of the interpreter (a Config), since their bodies are not part of this
  model.
*/
module NDIInterpreter {
  import opened NDIWrappers
  import opened NDIDigits
  import opened NDIParse
  import opened NDIFormat
  import opened NDICommands
  import opened NDIFraming
  import opened NDIErrors
  import opened NDIReplies

  /** What came back after the command was handed to the serial line: the
      write failed, nothing came within the time limit, the read failed,
      or a line arrived (the characters before its carriage return). */
  datatype Transport = WriteFailed | TimedOut | ReadFailed | Replied(line: string)

  /** The command families whose replies Command() recognises. */
  datatype Family = COMMFamily | PHINFFamily | PHRQFamily | PHSRFamily | TXFamily
                  | BXFamily | IRCHKFamily | SSTATFamily | VERFamily | NoFamily

  /** Recognition by the command's prefix, colon included; the first
      character narrows the candidates. */
  function FamilyOf(c: CommandText): (f: Family)
    ensures f != NoFamily ==> c.Text? && PrefixOf(f) <= c.chars
  {
    match c
    case SerialBreak => NoFamily
    case Text(s) =>
      if |s| == 0 then NoFamily
      else match s[0]
        case 'C' => if "COMM:" <= s then COMMFamily else NoFamily
        case 'P' =>
          if "PHINF:" <= s then PHINFFamily
          else if "PHRQ:" <= s then PHRQFamily
          else if "PHSR:" <= s then PHSRFamily
          else NoFamily
        case 'T' => if "TX:" <= s then TXFamily else NoFamily
        case 'B' => if "BX:" <= s then BXFamily else NoFamily
        case 'I' => if "IRCHK:" <= s then IRCHKFamily else NoFamily
        case 'S' => if "SSTAT:" <= s then SSTATFamily else NoFamily
        case 'V' => if "VER:" <= s then VERFamily else NoFamily
        case _ => NoFamily
  }

  /** The prefix that names a family. */
  function PrefixOf(f: Family): string
  {
    match f
    case COMMFamily => "COMM:"
    case PHINFFamily => "PHINF:"
    case PHRQFamily => "PHRQ:"
    case PHSRFamily => "PHSR:"
    case TXFamily => "TX:"
    case BXFamily => "BX:"
    case IRCHKFamily => "IRCHK:"
    case SSTATFamily => "SSTAT:"
    case VERFamily => "VER:"
    case NoFamily => ""
  }

  /** The tracking builders land in their own families. */
  lemma TrackingFamilies(mode: int)
    ensures FamilyOf(TX(mode)) == TXFamily && FamilyOf(BX(mode)) == BXFamily
  {
    StartsWith("TX:", FormatHex(mode, 4));
    StartsWith("BX:", FormatHex(mode, 4));
    assert TX(mode).chars[0] == 'T';
    assert BX(mode).chars[0] == 'B' && BX(mode).chars[1] == 'X';
  }

  /** The port, status, version and COMM builders land in their own
      families. */
  lemma PhinfFamily(ph: int, mode: int)
    ensures FamilyOf(PHINF(ph, mode)) == PHINFFamily
  {
    var t := PHINF(ph, mode).chars;
    StartsWith("PHINF:", FormatHex(ph, 2) + FormatHex(mode, 4));
    NotPrefix("COMM:", t, 0);
  }

  lemma PhsrFamily(mode: int)
    ensures FamilyOf(PHSR(mode)) == PHSRFamily
  {
    var t := PHSR(mode).chars;
    StartsWith("PHSR:", FormatHex(mode, 2));
    NotPrefix("COMM:", t, 0);
    NotPrefix("PHINF:", t, 2);
    NotPrefix("PHRQ:", t, 2);
  }

  lemma StatusFamilies(mode: int)
    ensures FamilyOf(SSTAT(mode)) == SSTATFamily && FamilyOf(IRCHK(mode)) == IRCHKFamily
  {
    StartsWith("SSTAT:", FormatHex(mode, 4));
    StartsWith("IRCHK:", FormatHex(mode, 4));
    assert SSTAT(mode).chars[0] == 'S';
    assert IRCHK(mode).chars[0] == 'I';
  }

  lemma VerFamily(n: int)
    ensures FamilyOf(VER(n)) == VERFamily
  {
    var t := VER(n).chars;
    assert "VER:" <= t by {
      StartsWith("VER:", FormatDecimal(n));
    }
    PrefixNamesFamily(VERFamily, t);
  }

  lemma CommFamily(baud: int, dps: int, handshake: int)
    ensures FamilyOf(COMM(baud, dps, handshake)) == COMMFamily
  {
    CommPrefix(baud, dps, handshake);
    PrefixNamesFamily(COMMFamily, COMM(baud, dps, handshake).chars);
  }

  lemma CommPrefix(baud: int, dps: int, handshake: int)
    ensures "COMM:" <= COMM(baud, dps, handshake).chars
  {
    var a, b, h := FormatDecimal(baud), FormatDecimalPadded(dps, 3), FormatDecimal(handshake);
    assert COMM(baud, dps, handshake).chars == "COMM:" + a + b + h;
    StartsWith("COMM:", a);
    PrefixExtends("COMM:", "COMM:" + a, b);
    PrefixExtends("COMM:", "COMM:" + a + b, h);
  }

  lemma PrefixExtends(p: string, s: string, x: string)
    requires p <= s
    ensures p <= s + x
  {
    assert (s + x)[..|p|] == s[..|p|];
  }

  /** Any command that starts with a family's prefix is recognised as that
      family. */
  lemma PrefixNamesFamily(f: Family, t: string)
    requires f != NoFamily && PrefixOf(f) <= t
    ensures FamilyOf(Text(t)) == f
  {
    assert t[0] == PrefixOf(f)[0];
    if f == PHRQFamily {
      NotPrefix("PHINF:", t, 2);
    } else if f == PHSRFamily {
      NotPrefix("PHINF:", t, 2);
      NotPrefix("PHRQ:", t, 2);
    }
  }

  /** The builders whose replies are not stored land in no family. */
  lemma UnstoredFamilies(n: int)
    ensures FamilyOf(RESET()) == NoFamily && FamilyOf(BEEP(n)) == NoFamily
    ensures FamilyOf(INIT()) == NoFamily && FamilyOf(TSTART()) == NoFamily
    ensures FamilyOf(TSTOP()) == NoFamily && FamilyOf(IRINIT()) == NoFamily
  {
    assert BEEP(n).chars[0] == 'B';
    NotPrefix("BX:", BEEP(n).chars, 1);
    NotPrefix("IRCHK:", INIT().chars, 1);
    NotPrefix("IRCHK:", IRINIT().chars, 2);
    NotPrefix("TX:", TSTART().chars, 1);
    NotPrefix("TX:", TSTOP().chars, 1);
  }

  /** The port handle builders land in no family. */
  lemma HandleCommandFamilies(ph: int, mode: int)
    ensures FamilyOf(PDIS(ph)) == NoFamily && FamilyOf(PENA(ph, mode)) == NoFamily
    ensures FamilyOf(PHF(ph)) == NoFamily && FamilyOf(PINIT(ph)) == NoFamily
  {
    var pdis, pena, phf, pinit := PDIS(ph).chars, PENA(ph, mode).chars, PHF(ph).chars, PINIT(ph).chars;
    assert pdis[0] == 'P' && pdis[1] == 'D';
    assert pena[0] == 'P' && pena[1] == 'E';
    assert phf[0] == 'P' && phf[1] == 'H' && phf[2] == 'F';
    assert pinit[0] == 'P' && pinit[1] == 'I';
  }

  /** Two strings that differ at a position shared by both are not prefix-related. */
  lemma NotPrefix(p: string, s: string, i: nat)
    requires i < |p| && i < |s| && p[i] != s[i]
    ensures !(p <= s)
  {
  }

  lemma StartsWith(p: string, x: string)
    ensures p <= p + x && (p + x)[..|p|] == p
  {
  }

  lemma PhrqFamily(num: NDIFormat.CString, sys: NDIFormat.CString, tool: NDIFormat.CString,
                   port: NDIFormat.CString, chan: NDIFormat.CString)
    ensures FamilyOf(PHRQ(num, sys, tool, port, chan)) == PHRQFamily
  {
    StartsWith("PHRQ:", FormatField(num, 8, 8) + FormatFieldRight(sys, 1, 1) + FormatFieldRight(tool, 1, 1)
                        + FormatFieldRight(port, 2, 2) + FormatFieldRight(chan, 2, 2));
    var t := PHRQ(num, sys, tool, port, chan).chars;
    assert t[0] == 'P' && t[1] == 'H' && t[2] == 'R';
  }

  /** The parts of the interpreter whose bodies are not part of this model. */
  datatype Config = Config(
    crc: string -> Crc16,
    binaryCheck: string -> bool,
    helpers: Helpers)

  /** HelperForXXX: each turns the command and its reply into the new
      contents of its family's cache, given the old contents. */
  datatype Helpers = Helpers(
    phrq: (string, string) -> int,
    phsr: (string, string) -> PortList,
    phinf: (string, string, PHINFInfo) -> PHINFInfo,
    tx: (string, string, TrackingData) -> TrackingData,
    bx: (string, string, TrackingData) -> TrackingData,
    sstat: (string, string, SSTATData) -> SSTATData,
    irchk: (string, string, IRCHKData) -> IRCHKData,
    ver: (string, string) -> string)

  /** All reply caches. */
  datatype Caches = Caches(
    phrqHandle: int,
    phsr: PortList,
    phinf: PHINFInfo,
    tx: TrackingData,
    bx: TrackingData,
    sstat: SSTATData,
    irchk: IRCHKData,
    verText: string)

  /** The whole observable state: the error code, the last reply, the caches. */
  datatype State = State(error: int, reply: string, caches: Caches)

  /** The error code and reply text one exchange leaves behind. */
  datatype Outcome = Outcome(error: int, reply: string)

  /** A device error reply: "ERROR" followed by the code in hexadecimal. */
  predicate IsErrorReply(p: string)
  {
    |p| >= 5 && p[..5] == "ERROR"
  }

  /** The code of a device error reply: two hexadecimal digits. */
  function DeviceErrorCode(p: string): (e: int)
    requires IsErrorReply(p)
    ensures 0 <= e <= 0xFF
    ensures e == HexadecimalStringToInt(p[5..], 2)
  {
    PrefixValueBelow(16, p[5..], 2, 2);
    PowFacts();
    assert Pow(16, 2) == 256;
    HexadecimalStringToInt(p[5..], 2)
  }

  /** ReadAsciiReply: a line whose CRC is wrong is NDI_BAD_CRC; a checked
      "ERROR" line carries the device's code; any other checked line is
      the reply. */
  function ReadAscii(crc: string -> Crc16, line: string): (o: Outcome)
    ensures o.error == NDI_BAD_CRC <==> CheckedPayload(crc, line).None?
    ensures o.error != NDI_BAD_CRC ==> o.reply == CheckedPayload(crc, line).value
    ensures o.error != NDI_BAD_CRC && IsErrorReply(o.reply) ==> o.error == DeviceErrorCode(o.reply)
    ensures o.error != NDI_BAD_CRC && !IsErrorReply(o.reply) ==> o.error == NDI_OKAY
  {
    match CheckedPayload(crc, line)
    case None => Outcome(NDI_BAD_CRC, "")
    case Some(p) =>
      if IsErrorReply(p) then Outcome(DeviceErrorCode(p), p) else Outcome(NDI_OKAY, p)
  }

  /** One exchange with the device for one command. A break succeeds only
      when a checked reply that is not an error comes back; a BX reply that
      starts with the binary magic number is read as binary, every other
      reply as text. */
  function Exchange(cfg: Config, c: CommandText, t: Transport): (o: Outcome)
    ensures o.error == NDI_OKAY ==> t.Replied?
    ensures o.error != NDI_OKAY && !IsErrorReply(o.reply) ==> o.reply == ""
    ensures IsErrorReply(o.reply) ==> c.Text? && t.Replied? && o.error == DeviceErrorCode(o.reply)
  {
    match c
    case SerialBreak =>
      (match t
       case Replied(line) =>
         var o := ReadAscii(cfg.crc, line);
         if o.error == NDI_OKAY && !IsErrorReply(o.reply) then o else Outcome(NDI_RESET_FAIL, "")
       case _ => Outcome(NDI_RESET_FAIL, ""))
    case Text(_) =>
      match t
      case WriteFailed => Outcome(NDI_WRITE_ERROR, "")
      case TimedOut => Outcome(NDI_TIMEOUT, "")
      case ReadFailed => Outcome(NDI_READ_ERROR, "")
      case Replied(line) =>
        if FamilyOf(c) == BXFamily && IsBinaryReply(line) then
          (if cfg.binaryCheck(line) then Outcome(NDI_OKAY, line) else Outcome(NDI_BAD_CRC, ""))
        else ReadAscii(cfg.crc, line)
  }

  /** The helper of the command's family refills that family's cache. */
  function Dispatch(h: Helpers, c: CommandText, reply: string, caches: Caches): Caches
  {
    match c
    case SerialBreak => caches
    case Text(s) =>
      match FamilyOf(c)
      case PHRQFamily => caches.(phrqHandle := h.phrq(s, reply))
      case PHSRFamily => caches.(phsr := h.phsr(s, reply))
      case PHINFFamily => caches.(phinf := h.phinf(s, reply, caches.phinf))
      case TXFamily => caches.(tx := h.tx(s, reply, caches.tx))
      case BXFamily => caches.(bx := h.bx(s, reply, caches.bx))
      case SSTATFamily => caches.(sstat := h.sstat(s, reply, caches.sstat))
      case IRCHKFamily => caches.(irchk := h.irchk(s, reply, caches.irchk))
      case VERFamily => caches.(verText := h.ver(s, reply))
      case COMMFamily => caches
      case NoFamily => caches
  }

  /** Command(): the new error code and reply, and the caches after the
      helper has run on a good reply. */
  function Next(cfg: Config, st: State, c: CommandText, t: Transport): (r: State)
    ensures r.error == Exchange(cfg, c, t).error && r.reply == Exchange(cfg, c, t).reply
    ensures r.caches != st.caches ==>
      Accepted(Exchange(cfg, c, t)) && c.Text? && FamilyOf(c) !in {COMMFamily, NoFamily}
  {
    var o := Exchange(cfg, c, t);
    State(o.error, o.reply,
          if Accepted(o) then Dispatch(cfg.helpers, c, o.reply, st.caches) else st.caches)
  }

  /** A good reply: no error code, and not a device ERROR reply (whose
      code may read as zero). Only a good reply reaches a helper. */
  predicate Accepted(o: Outcome)
  {
    o.error == NDI_OKAY && !IsErrorReply(o.reply)
  }

  /** A run of Command() calls, one transport outcome per command. */
  function Run(cfg: Config, st: State, cmds: seq<CommandText>, ts: seq<Transport>): State
    requires |cmds| == |ts|
    decreases |cmds|
  {
    if cmds == [] then st else Run(cfg, Next(cfg, st, cmds[0], ts[0]), cmds[1..], ts[1..])
  }

  /** Every exchange leaves NDI_OKAY, a code the device reported in an
      ERROR reply (at most 0xFF), or one of the host's own codes; codes
      above 0xFF are always host codes. */
  lemma ErrorCodeKinds(cfg: Config, c: CommandText, t: Transport)
    ensures var e := Exchange(cfg, c, t).error;
      && (0 <= e <= 0xFF || e in {NDI_BAD_CRC, NDI_TIMEOUT, NDI_WRITE_ERROR, NDI_READ_ERROR, NDI_RESET_FAIL})
      && (e > 0xFF ==> IsHostCode(e))
    ensures var e := Exchange(cfg, c, t).error;
      0 < e <= 0xFF ==> t.Replied? && CheckedPayload(cfg.crc, t.line).Some?
                        && IsErrorReply(CheckedPayload(cfg.crc, t.line).value)
    ensures t.Replied? && CheckedPayload(cfg.crc, t.line).Some? && IsErrorReply(CheckedPayload(cfg.crc, t.line).value)
      ==> !Accepted(Exchange(cfg, c, t))
    ensures c.Text? && t.Replied? && CheckedPayload(cfg.crc, t.line).Some? && IsErrorReply(CheckedPayload(cfg.crc, t.line).value)
      && !(FamilyOf(c) == BXFamily && IsBinaryReply(t.line))
      ==> Exchange(cfg, c, t).error == DeviceErrorCode(CheckedPayload(cfg.crc, t.line).value)
  {
    var e := Exchange(cfg, c, t).error;
    HostCodes(e);
  }

  /** The host codes name exactly the transport failure that caused them. */
  lemma TransportErrors(cfg: Config, c: CommandText, t: Transport)
    ensures Exchange(cfg, c, t).error == NDI_WRITE_ERROR <==> c.Text? && t == WriteFailed
    ensures Exchange(cfg, c, t).error == NDI_TIMEOUT <==> c.Text? && t == TimedOut
    ensures Exchange(cfg, c, t).error == NDI_READ_ERROR <==> c.Text? && t == ReadFailed
    ensures Exchange(cfg, c, t).error == NDI_RESET_FAIL <==> c.SerialBreak? && Exchange(cfg, c, t).error != NDI_OKAY
  {
    if c.Text? && t.Replied? {
      ErrorCodeKinds(cfg, c, t);
    }
  }

  /** A break either succeeds or leaves NDI_RESET_FAIL: it succeeds exactly
      when a reply arrives whose CRC checks and which is not an error. */
  lemma BreakOutcome(cfg: Config, t: Transport)
    ensures Exchange(cfg, SerialBreak, t).error in {NDI_OKAY, NDI_RESET_FAIL}
    ensures Exchange(cfg, SerialBreak, t).error == NDI_OKAY <==>
      t.Replied? && CheckedPayload(cfg.crc, t.line).Some? && !IsErrorReply(CheckedPayload(cfg.crc, t.line).value)
  {
  }

  /** A reply without the binary magic number is read as text, even for BX. */
  lemma TextUnlessMagic(cfg: Config, s: string, line: string)
    requires !IsBinaryReply(line)
    ensures Exchange(cfg, Text(s), Replied(line)) == ReadAscii(cfg.crc, line)
  {
  }

  /** A reply framed with its correct CRC is accepted and returned without
      the CRC; an error reply sets the device's code. */
  lemma CheckedReplyAccepted(cfg: Config, s: string, p: string)
    requires FamilyOf(Text(s)) != BXFamily || !IsBinaryReply(p + NDIFormat.FormatHex(cfg.crc(p), 4))
    ensures var o := Exchange(cfg, Text(s), Replied(p + NDIFormat.FormatHex(cfg.crc(p), 4)));
      && (!IsErrorReply(p) ==> o == Outcome(NDI_OKAY, p))
      && (IsErrorReply(p) ==> o == Outcome(DeviceErrorCode(p), p))
  {
    FrameIsChecked(cfg.crc, p);
    assert Frame(cfg.crc, Text(p)).chars[..|p| + 4] == p + NDIFormat.FormatHex(cfg.crc(p), 4);
  }

  /** A command's reply refills its own family's cache and no other. */
  lemma FamilyScoping(h: Helpers, c: CommandText, reply: string, caches: Caches)
    ensures var r := Dispatch(h, c, reply, caches);
      && (FamilyOf(c) != PHRQFamily ==> r.phrqHandle == caches.phrqHandle)
      && (FamilyOf(c) != PHSRFamily ==> r.phsr == caches.phsr)
      && (FamilyOf(c) != PHINFFamily ==> r.phinf == caches.phinf)
      && (FamilyOf(c) != TXFamily ==> r.tx == caches.tx)
      && (FamilyOf(c) != BXFamily ==> r.bx == caches.bx)
      && (FamilyOf(c) != SSTATFamily ==> r.sstat == caches.sstat)
      && (FamilyOf(c) != IRCHKFamily ==> r.irchk == caches.irchk)
      && (FamilyOf(c) != VERFamily ==> r.verText == caches.verText)
  {
  }

  /** A failed command changes no cache. */
  lemma ErrorKeepsCaches(cfg: Config, st: State, c: CommandText, t: Transport)
    ensures Next(cfg, st, c, t).error != NDI_OKAY ==> Next(cfg, st, c, t).caches == st.caches
    ensures IsErrorReply(Next(cfg, st, c, t).reply) ==> Next(cfg, st, c, t).caches == st.caches
    ensures Next(cfg, st, c, t).error == Exchange(cfg, c, t).error
  {
  }

  /** TX data stay as they are until the next TX command, and BX data until
      the next BX command, whatever else is sent in between. */
  lemma {:induction false} TrackingPersists(cfg: Config, st: State, cmds: seq<CommandText>, ts: seq<Transport>)
    requires |cmds| == |ts|
    ensures (forall i :: 0 <= i < |cmds| ==> FamilyOf(cmds[i]) != TXFamily) ==>
      Run(cfg, st, cmds, ts).caches.tx == st.caches.tx
    ensures (forall i :: 0 <= i < |cmds| ==> FamilyOf(cmds[i]) != BXFamily) ==>
      Run(cfg, st, cmds, ts).caches.bx == st.caches.bx
    decreases |cmds|
  {
    if cmds != [] {
      var o := Exchange(cfg, cmds[0], ts[0]);
      FamilyScoping(cfg.helpers, cmds[0], o.reply, st.caches);
      var next := Next(cfg, st, cmds[0], ts[0]);
      TrackingPersists(cfg, next, cmds[1..], ts[1..]);
      assert forall i :: 0 <= i < |cmds[1..]| ==> cmds[1..][i] == cmds[i + 1];
    }
  }

  /** IRCHK() with a good reply hands its reply and the old IRCHK data to
      the IRCHK helper; with a failed or ERROR reply the data stay. */
  lemma IRCHKRefresh(cfg: Config, st: State, mode: int, t: Transport)
    ensures var o := Exchange(cfg, IRCHK(mode), t);
      Next(cfg, st, IRCHK(mode), t).caches.irchk ==
        if Accepted(o) then cfg.helpers.irchk(IRCHK(mode).chars, o.reply, st.caches.irchk)
        else st.caches.irchk
  {
    StatusFamilies(mode);
  }

  /** The IRCHK data (the infrared flag and the source positions) are
      updated only by IRCHK(): any run without it leaves them as they are. */
  lemma {:induction false} IRCHKPersists(cfg: Config, st: State, cmds: seq<CommandText>, ts: seq<Transport>)
    requires |cmds| == |ts|
    requires forall i :: 0 <= i < |cmds| ==> FamilyOf(cmds[i]) != IRCHKFamily
    ensures Run(cfg, st, cmds, ts).caches.irchk == st.caches.irchk
    decreases |cmds|
  {
    if cmds != [] {
      var o := Exchange(cfg, cmds[0], ts[0]);
      FamilyScoping(cfg.helpers, cmds[0], o.reply, st.caches);
      assert forall i :: 0 <= i < |cmds[1..]| ==> cmds[1..][i] == cmds[i + 1];
      IRCHKPersists(cfg, Next(cfg, st, cmds[0], ts[0]), cmds[1..], ts[1..]);
    }
  }

  /** The TX transform lookup of the class, stated on data: the status of
      the first row with the handle, NDI_UNOCCUPIED when there is none. */
  function TransformStatusOf(d: TrackingData, ph: int): (r: int)
    ensures Absent(d.tools, ph) ==> r == NDI_UNOCCUPIED
    ensures forall k :: FirstWith(d.tools, ph, k) ==> r == d.tools[k].status.Code()
  {
    var k := HandleIndex(d.tools, ph);
    if k == -1 then NDI_UNOCCUPIED else (FirstWithAt(d.tools, ph, k); d.tools[k].status.Code())
  }

  /** The single stray lookup stated on data: NDI_DISABLED for an unknown
      handle, the reported stray status otherwise. */
  function SingleStrayStatusOf(d: TrackingData, ph: int): (r: int)
    ensures Absent(d.tools, ph) ==> r == NDI_DISABLED
    ensures forall k :: FirstWith(d.tools, ph, k) ==> r == d.tools[k].strayStatus.Code()
  {
    var k := HandleIndex(d.tools, ph);
    if k == -1 then NDI_DISABLED else (FirstWithAt(d.tools, ph, k); d.tools[k].strayStatus.Code())
  }

  /** Empty caches, as the constructor leaves them. */
  function EmptyCaches(): Caches
  {
    Caches(0, [],
           PHINFData(false, 0, seq(31, _ => ' '), 0, 0, seq(20, _ => ' '), 0, 0, seq(14, _ => ' '), 0),
           TrackingReport([], [], [], 0), TrackingReport([], [], [], 0),
           SSTATData(0, 0, 0), IRCHKReport(false, false, [], []), "")
  }

  class NDICommandInterpreter {
    const cfg: Config

    /** What the last Command() wrote: the framed command, or a break. */
    var serialCommand: Wire
    var errorCode: int
    var commandReply: string
    var phrqHandle: int
    var phsr: PortList
    var phinf: PHINFInfo
    var tx: TrackingData
    var bx: TrackingData
    var sstat: SSTATData
    var irchk: IRCHKData
    var verText: string

    /** The state the fields hold. */
    ghost function Snapshot(): State
      reads this
    {
      State(errorCode, commandReply, Caches(phrqHandle, phsr, phinf, tx, bx, sstat, irchk, verText))
    }

    constructor(cfg: Config)
      ensures this.cfg == cfg
      ensures Snapshot() == State(NDI_OKAY, "", EmptyCaches())
    {
      this.cfg := cfg;
      var e := EmptyCaches();
      serialCommand := Line("");
      errorCode, commandReply := NDI_OKAY, "";
      phrqHandle, phsr, phinf := e.phrqHandle, e.phsr, e.phinf;
      tx, bx, sstat, irchk, verText := e.tx, e.bx, e.sstat, e.irchk, e.verText;
    }

    /** Command(): send c, take t as what the serial line gave back, set the
        error code and the reply, and let the family's helper refill its
        cache when the reply is good. */
    method Command(c: CommandText, t: Transport) returns (reply: string)
      modifies this
      ensures serialCommand == Frame(cfg.crc, c)
      ensures Snapshot() == Next(cfg, old(Snapshot()), c, t)
      ensures reply == commandReply && errorCode == Exchange(cfg, c, t).error
    {
      serialCommand := Frame(cfg.crc, c);
      var o := Exchange(cfg, c, t);
      errorCode, commandReply := o.error, o.reply;
      if Accepted(o) {
        Refill(c, o.reply);
      }
      reply := o.reply;
    }

    /** The family's helper stores what it needs from a good reply; the
        error code and the reply stay as they are. */
    method Refill(c: CommandText, r: string)
      modifies this
      ensures Snapshot() == old(Snapshot()).(caches := Dispatch(cfg.helpers, c, r, old(Snapshot()).caches))
      ensures serialCommand == old(serialCommand)
    {
      if c.Text? {
        var s := c.chars;
        match FamilyOf(c)
        case PHRQFamily => phrqHandle := cfg.helpers.phrq(s, r);
        case PHSRFamily => phsr := cfg.helpers.phsr(s, r);
        case PHINFFamily => phinf := cfg.helpers.phinf(s, r, phinf);
        case TXFamily => tx := cfg.helpers.tx(s, r, tx);
        case BXFamily => bx := cfg.helpers.bx(s, r, bx);
        case SSTATFamily => sstat := cfg.helpers.sstat(s, r, sstat);
        case IRCHKFamily => irchk := cfg.helpers.irchk(s, r, irchk);
        case VERFamily => verText := cfg.helpers.ver(s, r);
        case COMMFamily =>
        case NoFamily =>
      }
    }

    function GetError(): int
      reads this
    {
      errorCode
    }

    function GetPHRQHandle(): int
      reads this
    {
      phrqHandle
    }

    function GetPHSRNumberOfHandles(): (n: int)
      reads this
      ensures 0 <= n <= 255
    {
      |phsr|
    }

    function GetPHSRHandle(i: int): int
      requires 0 <= i < |phsr|
      reads this
    {
      phsr[i].handle
    }

    function GetPHSRInformation(i: int): int
      requires 0 <= i < |phsr|
      reads this
    {
      phsr[i].information
    }

    function GetPHINFPortStatus(): int reads this { phinf.portStatus }
    function GetPHINFToolType(): int reads this { phinf.toolType }
    function GetPHINFCurrentTest(): int reads this { phinf.currentTest }
    function GetPHINFAccessories(): int reads this { phinf.accessories }
    function GetPHINFMarkerType(): int reads this { phinf.markerType }
    function GetPHINFGPIOStatus(): int reads this { phinf.gpioStatus }

    method GetPHINFToolInfo(information: array<char>) returns (r: int)
      requires information.Length == 32
      modifies information
      ensures r == (if phinf.occupied then NDI_VALID else NDI_UNOCCUPIED)
      ensures phinf.occupied ==> information[31] == '\0' && information[..31] == phinf.toolInfo
      ensures !phinf.occupied ==> information[..] == old(information[..])
    {
      r := TextInto(phinf.occupied, phinf.toolInfo, information);
    }

    method GetPHINFPartNumber(part: array<char>) returns (r: int)
      requires part.Length == 21
      modifies part
      ensures r == (if phinf.occupied then NDI_VALID else NDI_UNOCCUPIED)
      ensures phinf.occupied ==> part[20] == '\0' && part[..20] == phinf.partNumber
      ensures !phinf.occupied ==> part[..] == old(part[..])
    {
      r := TextInto(phinf.occupied, phinf.partNumber, part);
    }

    method GetPHINFPortLocation(location: array<char>) returns (r: int)
      requires location.Length == 15
      modifies location
      ensures r == (if phinf.occupied then NDI_VALID else NDI_UNOCCUPIED)
      ensures phinf.occupied ==> location[14] == '\0' && location[..14] == phinf.portLocation
      ensures !phinf.occupied ==> location[..] == old(location[..])
    {
      r := TextInto(phinf.occupied, phinf.portLocation, location);
    }

    method TXIndexFromPortHandle(ph: int) returns (found: bool, i: int)
      ensures found <==> !Absent(tx.tools, ph)
      ensures found ==> FirstWith(tx.tools, ph, i)
    {
      found, i := IndexFromPortHandle(tx.tools, ph);
    }

    method BXIndexFromPortHandle(ph: int) returns (found: bool, i: int)
      ensures found <==> !Absent(bx.tools, ph)
      ensures found ==> FirstWith(bx.tools, ph, i)
    {
      found, i := IndexFromPortHandle(bx.tools, ph);
    }

    method GetTXTransform(ph: int, transform: array<real>) returns (r: int)
      requires transform.Length == 8
      modifies transform
      ensures r == TransformStatusOf(tx, ph)
      ensures r == NDI_VALID ==> transform[..] == tx.tools[HandleIndex(tx.tools, ph)].transform
      ensures r != NDI_VALID ==> transform[..] == old(transform[..])
    {
      r := TransformInto(tx, ph, transform);
    }

    method GetBXTransform(ph: int, transform: array<real>) returns (r: int)
      requires transform.Length == 8
      modifies transform
      ensures r == TransformStatusOf(bx, ph)
      ensures r == NDI_VALID ==> transform[..] == bx.tools[HandleIndex(bx.tools, ph)].transform
      ensures r != NDI_VALID ==> transform[..] == old(transform[..])
    {
      r := TransformInto(bx, ph, transform);
    }

    function GetTXPortStatus(ph: int): int reads this { PortStatusOf(tx, ph) }
    function GetBXPortStatus(ph: int): int reads this { PortStatusOf(bx, ph) }
    function GetTXFrame(ph: int): int reads this { FrameOf(tx, ph) }
    function GetBXFrame(ph: int): int reads this { FrameOf(bx, ph) }
    function GetTXToolInfo(ph: int): int reads this { ToolInfoOf(tx, ph) }
    function GetBXToolInfo(ph: int): int reads this { ToolInfoOf(bx, ph) }
    function GetTXMarkerInfo(ph: int, marker: int): int reads this { MarkerInfoOf(tx, ph, marker) }
    function GetBXMarkerInfo(ph: int, marker: int): int reads this { MarkerInfoOf(bx, ph, marker) }

    method GetTXSingleStray(ph: int, coord: array<real>) returns (r: int)
      requires coord.Length == 3
      modifies coord
      ensures r == SingleStrayStatusOf(tx, ph)
      ensures r == NDI_VALID ==> coord[..] == tx.tools[HandleIndex(tx.tools, ph)].strayPosition
      ensures r != NDI_VALID ==> coord[..] == old(coord[..])
    {
      r := SingleStrayInto(tx, ph, coord);
    }

    method GetBXSingleStray(ph: int, coord: array<real>) returns (r: int)
      requires coord.Length == 3
      modifies coord
      ensures r == SingleStrayStatusOf(bx, ph)
      ensures r == NDI_VALID ==> coord[..] == bx.tools[HandleIndex(bx.tools, ph)].strayPosition
      ensures r != NDI_VALID ==> coord[..] == old(coord[..])
    {
      r := SingleStrayInto(bx, ph, coord);
    }

    function GetTXNumberOfPassiveStrays(): int reads this { |tx.passiveStrays| }
    function GetBXNumberOfPassiveStrays(): int reads this { |bx.passiveStrays| }

    method GetTXPassiveStray(i: int, coord: array<real>) returns (r: int)
      requires coord.Length == 3
      modifies coord
      ensures r == NDI_VALID <==> 0 <= i < |tx.passiveStrays|
      ensures r != NDI_VALID ==> r == NDI_UNOCCUPIED && coord[..] == old(coord[..])
      ensures r == NDI_VALID ==> coord[..] == tx.passiveStrays[i]
    {
      r := PassiveStrayInto(tx, i, coord);
    }

    method GetBXPassiveStray(i: int, coord: array<real>) returns (r: int)
      requires coord.Length == 3
      modifies coord
      ensures r == NDI_VALID <==> 0 <= i < |bx.passiveStrays|
      ensures r != NDI_VALID ==> r == NDI_UNOCCUPIED && coord[..] == old(coord[..])
      ensures r == NDI_VALID ==> coord[..] == bx.passiveStrays[i]
    {
      r := PassiveStrayInto(bx, i, coord);
    }

    function GetTXPassiveStrayOutOfVolume(i: int): int reads this { PassiveStrayOutOfVolumeOf(tx, i) }
    function GetBXPassiveStrayOutOfVolume(i: int): int reads this { PassiveStrayOutOfVolumeOf(bx, i) }
    function GetTXSystemStatus(): int reads this { tx.systemStatus }
    function GetBXSystemStatus(): int reads this { bx.systemStatus }

    function GetSSTATControl(): int reads this { sstat.control }
    function GetSSTATSensors(): int reads this { sstat.sensors }
    function GetSSTATTIU(): int reads this { sstat.tiu }

    function GetVERText(): string reads this { verText }

    function GetIRCHKDetected(): int reads this { if irchk.detected then 1 else 0 }

    function GetIRCHKNumberOfSources(side: int): int reads this { NumberOfSourcesOf(irchk, side) }

    method GetIRCHKSourceXY(side: int, i: int, xy: array<real>) returns (r: int)
      requires xy.Length == 2
      modifies xy
      ensures !irchk.sourcesReported ==> r == NDI_MISSING
      ensures irchk.sourcesReported ==> (r == NDI_VALID <==> 0 <= i < |Sources(irchk, side)|)
      ensures irchk.sourcesReported && r != NDI_VALID ==> r == NDI_UNOCCUPIED
      ensures r == NDI_VALID ==> xy[..] == Sources(irchk, side)[i]
      ensures r != NDI_VALID ==> xy[..] == old(xy[..])
    {
      r := SourceXYInto(irchk, side, i, xy);
    }
  }

  /** After Command(), GetError() reports the code of that exchange, and a
      TX transform lookup answers from the TX cache the command left. */
  method CommandThenLookup(it: NDICommandInterpreter, c: CommandText, t: Transport, ph: int,
                           transform: array<real>) returns (err: int, r: int)
    requires transform.Length == 8
    modifies it, transform
    ensures err == Exchange(it.cfg, c, t).error
    ensures FamilyOf(c) != TXFamily ==> r == TransformStatusOf(old(it.tx), ph)
  {
    var before := it.Snapshot();
    var _ := it.Command(c, t);
    err := it.GetError();
    FamilyScoping(it.cfg.helpers, c, Exchange(it.cfg, c, t).reply, before.caches);
    r := it.GetTXTransform(ph, transform);
  }
}
