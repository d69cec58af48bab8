/**
  The reply caches of the NDI interpreter (igstkNDICommandInterpreter.h:1352-1424)
  in decoded form, and the lookups its const accessors perform on them
  (igstkNDICommandInterpreter.h:733-1295). Every accessor answers for any
  argument: an unknown port handle or an index out of range gives a
  sentinel (NDI_UNOCCUPIED, NDI_DISABLED or 0), and an output array is
  written only when the answer is NDI_VALID.
*/
module NDIReplies {

  /** At most this many port handles are in use at once. */
  const NDI_MAX_HANDLES: nat := 24

  /** Room for passive stray markers in a TX or BX reply. */
  const NDI_MAX_PASSIVE_STRAYS: nat := 50

  /** Room for infrared sources per sensor in an IRCHK reply. */
  const NDI_MAX_IR_SOURCES: nat := 20

  /** TXTransformType: what a transform or position lookup returns. */
  const NDI_UNOCCUPIED: int := 0x00
  const NDI_VALID: int := 0x01
  const NDI_MISSING: int := 0x02
  const NDI_DISABLED: int := 0x04

  /** IRCHKSensorType. */
  const NDI_LEFT: int := 0
  const NDI_RIGHT: int := 1

  /** How the device reported a tool or a marker. */
  datatype Status = Unoccupied | Valid | Missing | Disabled
  {
    function Code(): (c: int)
      ensures c == NDI_VALID <==> this == Valid
      ensures c in {NDI_UNOCCUPIED, NDI_VALID, NDI_MISSING, NDI_DISABLED}
    {
      match this
      case Unoccupied => NDI_UNOCCUPIED
      case Valid => NDI_VALID
      case Missing => NDI_MISSING
      case Disabled => NDI_DISABLED
    }
  }

  /** One row of the TX or BX handle table. The transform is the 8-tuple
      quaternion, translation and error; coordinates are opaque reals. */
  datatype ToolRecord = ToolRecord(
    handle: int,
    status: Status,
    transform: seq<real>,
    portStatus: int,
    frame: int,
    toolInfo: int,
    markerInfo: seq<int>,
    strayStatus: Status,
    strayPosition: seq<real>)
  {
    predicate WellFormed()
    {
      |transform| == 8 && |markerInfo| == 20 && |strayPosition| == 3
    }
  }

  /** The decoded reply of a TX or a BX command. */
  datatype TrackingReport = TrackingReport(
    tools: seq<ToolRecord>,
    passiveStrays: seq<seq<real>>,
    passiveOutOfVolume: seq<bool>,
    systemStatus: int)
  {
    predicate WellFormed()
    {
      && |tools| <= NDI_MAX_HANDLES
      && (forall k :: 0 <= k < |tools| ==> tools[k].WellFormed())
      && |passiveStrays| <= NDI_MAX_PASSIVE_STRAYS
      && |passiveOutOfVolume| == |passiveStrays|
      && (forall k :: 0 <= k < |passiveStrays| ==> |passiveStrays[k]| == 3)
    }
  }

  type TrackingData = d: TrackingReport | d.WellFormed()
    witness TrackingReport([], [], [], 0)

  /** Row k is the first row of the table with handle ph. */
  predicate FirstWith(tools: seq<ToolRecord>, ph: int, k: int)
  {
    0 <= k < |tools| && tools[k].handle == ph && forall j :: 0 <= j < k ==> tools[j].handle != ph
  }

  /** No row of the table has handle ph. */
  predicate Absent(tools: seq<ToolRecord>, ph: int)
  {
    forall k :: 0 <= k < |tools| ==> tools[k].handle != ph
  }

  /** The index of a port handle in the table, found front to back. */
  function HandleIndex(tools: seq<ToolRecord>, ph: int): (r: int)
    ensures r == -1 <==> Absent(tools, ph)
    ensures r != -1 ==> FirstWith(tools, ph, r)
  {
    if tools == [] then -1
    else if tools[0].handle == ph then 0
    else
      var rest := HandleIndex(tools[1..], ph);
      if rest == -1 then -1 else rest + 1
  }

  /** TXIndexFromPortHandle / BXIndexFromPortHandle: a linear search of the
      handle table; false when the handle is not in it. */
  method IndexFromPortHandle(tools: seq<ToolRecord>, ph: int) returns (found: bool, i: int)
    ensures found <==> !Absent(tools, ph)
    ensures found ==> FirstWith(tools, ph, i)
  {
    i := 0;
    while i < |tools|
      invariant 0 <= i <= |tools|
      invariant forall j :: 0 <= j < i ==> tools[j].handle != ph
    {
      if tools[i].handle == ph {
        return true, i;
      }
      i := i + 1;
    }
    return false, 0;
  }

  /** Any row with handle ph is at the index HandleIndex finds or after it. */
  lemma FirstWithUnique(tools: seq<ToolRecord>, ph: int, k: int)
    requires FirstWith(tools, ph, k)
    ensures HandleIndex(tools, ph) == k
  {
  }

  /** GetTXPortStatus / GetBXPortStatus: the port status bits of the
      handle, 0 for a handle that is not in the table. */
  function PortStatusOf(d: TrackingData, ph: int): (r: int)
    ensures Absent(d.tools, ph) ==> r == 0
    ensures forall k :: FirstWith(d.tools, ph, k) ==> r == d.tools[k].portStatus
  {
    var k := HandleIndex(d.tools, ph);
    if k == -1 then 0 else (FirstWithAt(d.tools, ph, k); d.tools[k].portStatus)
  }

  /** GetTXFrame / GetBXFrame: the camera frame number, 0 when unknown. */
  function FrameOf(d: TrackingData, ph: int): (r: int)
    ensures Absent(d.tools, ph) ==> r == 0
    ensures forall k :: FirstWith(d.tools, ph, k) ==> r == d.tools[k].frame
  {
    var k := HandleIndex(d.tools, ph);
    if k == -1 then 0 else (FirstWithAt(d.tools, ph, k); d.tools[k].frame)
  }

  /** GetTXToolInfo / GetBXToolInfo: the transform quality bits, 0 when
      unknown. */
  function ToolInfoOf(d: TrackingData, ph: int): (r: int)
    ensures Absent(d.tools, ph) ==> r == 0
    ensures forall k :: FirstWith(d.tools, ph, k) ==> r == d.tools[k].toolInfo
  {
    var k := HandleIndex(d.tools, ph);
    if k == -1 then 0 else (FirstWithAt(d.tools, ph, k); d.tools[k].toolInfo)
  }

  /** GetTXMarkerInfo / GetBXMarkerInfo: the status of marker 'A' to 'T';
      0 for an unknown handle or a marker outside 'A' to 'T'. */
  function MarkerInfoOf(d: TrackingData, ph: int, marker: int): (r: int)
    ensures Absent(d.tools, ph) || marker < 'A' as int || marker > 'T' as int ==> r == 0
    ensures forall k :: FirstWith(d.tools, ph, k) && 'A' as int <= marker <= 'T' as int ==>
      r == d.tools[k].markerInfo[marker - 'A' as int]
  {
    var k := HandleIndex(d.tools, ph);
    if k == -1 || marker < 'A' as int || marker > 'T' as int then 0
    else (FirstWithAt(d.tools, ph, k); d.tools[k].markerInfo[marker - 'A' as int])
  }

  /** GetTXPassiveStrayOutOfVolume / GetBXPassiveStrayOutOfVolume: 1 for a
      marker outside the characterised volume, 0 inside or out of range. */
  function PassiveStrayOutOfVolumeOf(d: TrackingData, i: int): (r: int)
    ensures r == 0 || r == 1
    ensures r == 1 <==> 0 <= i < |d.passiveStrays| && d.passiveOutOfVolume[i]
  {
    if 0 <= i < |d.passiveOutOfVolume| && d.passiveOutOfVolume[i] then 1 else 0
  }

  /** Bridges HandleIndex's result to any other first row with the handle. */
  lemma FirstWithAt(tools: seq<ToolRecord>, ph: int, k: int)
    requires k != -1 && k == HandleIndex(tools, ph)
    ensures forall k' :: FirstWith(tools, ph, k') ==> k' == k
  {
    forall k' | FirstWith(tools, ph, k') ensures k' == k {
      FirstWithUnique(tools, ph, k');
    }
  }

  /** Copies a reported sequence into the front of the caller's array. */
  method CopyInto<T>(src: seq<T>, dst: array<T>)
    requires |src| <= dst.Length
    modifies dst
    ensures dst[..|src|] == src
    ensures dst[|src|..] == old(dst[|src|..])
  {
    var i := 0;
    while i < |src|
      invariant 0 <= i <= |src|
      invariant dst[..i] == src[..i]
      invariant dst[|src|..] == old(dst[|src|..])
    {
      dst[i] := src[i];
      i := i + 1;
    }
  }

  /** GetTXTransform / GetBXTransform: NDI_UNOCCUPIED for a handle that is
      not in the table, otherwise the handle's status; the transform is
      copied out only when that status is NDI_VALID, and the caller's
      array is left as it was otherwise. */
  method TransformInto(d: TrackingData, ph: int, transform: array<real>) returns (r: int)
    requires transform.Length == 8
    modifies transform
    ensures Absent(d.tools, ph) ==> r == NDI_UNOCCUPIED
    ensures forall k :: FirstWith(d.tools, ph, k) ==> r == d.tools[k].status.Code()
    ensures forall k :: FirstWith(d.tools, ph, k) && r == NDI_VALID ==> transform[..] == d.tools[k].transform
    ensures r != NDI_VALID ==> transform[..] == old(transform[..])
  {
    var found, i := IndexFromPortHandle(d.tools, ph);
    if !found {
      return NDI_UNOCCUPIED;
    }
    FirstWithAt(d.tools, ph, HandleIndex(d.tools, ph));
    FirstWithUnique(d.tools, ph, i);
    var tool := d.tools[i];
    assert tool.WellFormed();
    if tool.status == Valid {
      CopyInto(tool.transform, transform);
      assert transform[..] == transform[..8];
    }
    return tool.status.Code();
  }

  /** GetTXSingleStray / GetBXSingleStray: NDI_DISABLED for a handle that is
      not in the table, otherwise the reported stray status; the position
      is copied out only when that status is NDI_VALID. */
  method SingleStrayInto(d: TrackingData, ph: int, coord: array<real>) returns (r: int)
    requires coord.Length == 3
    modifies coord
    ensures Absent(d.tools, ph) ==> r == NDI_DISABLED
    ensures forall k :: FirstWith(d.tools, ph, k) ==> r == d.tools[k].strayStatus.Code()
    ensures forall k :: FirstWith(d.tools, ph, k) && r == NDI_VALID ==> coord[..] == d.tools[k].strayPosition
    ensures r != NDI_VALID ==> coord[..] == old(coord[..])
  {
    var found, i := IndexFromPortHandle(d.tools, ph);
    if !found {
      return NDI_DISABLED;
    }
    FirstWithAt(d.tools, ph, HandleIndex(d.tools, ph));
    FirstWithUnique(d.tools, ph, i);
    var tool := d.tools[i];
    assert tool.WellFormed();
    if tool.strayStatus == Valid {
      CopyInto(tool.strayPosition, coord);
      assert coord[..] == coord[..3];
    }
    return tool.strayStatus.Code();
  }

  /** GetTXPassiveStray / GetBXPassiveStray: NDI_VALID and the coordinates
      for an index below the number of strays, NDI_UNOCCUPIED and the
      caller's array untouched otherwise. */
  method PassiveStrayInto(d: TrackingData, i: int, coord: array<real>) returns (r: int)
    requires coord.Length == 3
    modifies coord
    ensures r == NDI_VALID <==> 0 <= i < |d.passiveStrays|
    ensures r != NDI_VALID ==> r == NDI_UNOCCUPIED && coord[..] == old(coord[..])
    ensures r == NDI_VALID ==> coord[..] == d.passiveStrays[i]
  {
    if 0 <= i < |d.passiveStrays| {
      CopyInto(d.passiveStrays[i], coord);
      assert coord[..] == coord[..3];
      return NDI_VALID;
    }
    return NDI_UNOCCUPIED;
  }

  /** One entry of a PHSR reply: a port handle and its status bits. */
  datatype PortEntry = PortEntry(handle: int, information: int)

  /** The decoded PHSR reply: at most 255 handles. */
  type PortList = s: seq<PortEntry> | |s| <= 255

  /** The decoded PHINF reply. */
  datatype PHINFData = PHINFData(
    occupied: bool,
    portStatus: int,
    toolInfo: string,
    toolType: int,
    currentTest: int,
    partNumber: string,
    accessories: int,
    markerType: int,
    portLocation: string,
    gpioStatus: int)
  {
    predicate WellFormed()
    {
      |toolInfo| == 31 && |partNumber| == 20 && |portLocation| == 14
    }
  }

  type PHINFInfo = p: PHINFData | p.WellFormed()
    witness PHINFData(false, 0, seq(31, _ => ' '), 0, 0, seq(20, _ => ' '), 0, 0, seq(14, _ => ' '), 0)

  /** GetPHINFToolInfo, GetPHINFPartNumber, GetPHINFPortLocation: NDI_VALID
      and the text followed by a null byte when the port is occupied,
      NDI_UNOCCUPIED and the caller's buffer untouched when it is not. */
  method TextInto(occupied: bool, text: string, out: array<char>) returns (r: int)
    requires |text| < out.Length
    modifies out
    ensures r == (if occupied then NDI_VALID else NDI_UNOCCUPIED)
    ensures occupied ==> out[..|text|] == text && out[|text|] == '\0'
    ensures occupied ==> out[|text| + 1..] == old(out[|text| + 1..])
    ensures !occupied ==> out[..] == old(out[..])
  {
    if occupied {
      CopyInto(text, out);
      out[|text|] := '\0';
      assert out[..|text|] == text;
      return NDI_VALID;
    }
    return NDI_UNOCCUPIED;
  }

  /** The decoded SSTAT reply. */
  datatype SSTATData = SSTATData(control: int, sensors: int, tiu: int)

  /** The decoded IRCHK reply: whether infrared was detected and, when the
      sources were reported, the (x, y) of each source per sensor. */
  datatype IRCHKReport = IRCHKReport(
    detected: bool,
    sourcesReported: bool,
    left: seq<seq<real>>,
    right: seq<seq<real>>)
  {
    predicate WellFormed()
    {
      && |left| <= NDI_MAX_IR_SOURCES && |right| <= NDI_MAX_IR_SOURCES
      && (forall k :: 0 <= k < |left| ==> |left[k]| == 2)
      && (forall k :: 0 <= k < |right| ==> |right[k]| == 2)
    }
  }

  type IRCHKData = d: IRCHKReport | d.WellFormed()
    witness IRCHKReport(false, false, [], [])

  /** The sources one sensor saw; none for a number that is not a sensor. */
  function Sources(d: IRCHKData, side: int): (s: seq<seq<real>>)
    ensures |s| <= NDI_MAX_IR_SOURCES && forall k :: 0 <= k < |s| ==> |s[k]| == 2
    ensures side != NDI_LEFT && side != NDI_RIGHT ==> s == []
  {
    if side == NDI_LEFT then d.left else if side == NDI_RIGHT then d.right else []
  }

  /** GetIRCHKNumberOfSources: zero unless the sources were reported. */
  function NumberOfSourcesOf(d: IRCHKData, side: int): (n: int)
    ensures 0 <= n <= NDI_MAX_IR_SOURCES
    ensures !d.sourcesReported ==> n == 0
    ensures d.sourcesReported ==> n == |Sources(d, side)|
  {
    if d.sourcesReported then |Sources(d, side)| else 0
  }

  /** GetIRCHKSourceXY: NDI_MISSING and the array untouched when no sources
      were reported, NDI_UNOCCUPIED and the array untouched for an index out
      of range, NDI_VALID and the coordinates otherwise. */
  method SourceXYInto(d: IRCHKData, side: int, i: int, xy: array<real>) returns (r: int)
    requires xy.Length == 2
    modifies xy
    ensures !d.sourcesReported ==> r == NDI_MISSING
    ensures d.sourcesReported ==> (r == NDI_VALID <==> 0 <= i < |Sources(d, side)|)
    ensures d.sourcesReported && r != NDI_VALID ==> r == NDI_UNOCCUPIED
    ensures r == NDI_VALID ==> xy[..] == Sources(d, side)[i]
    ensures r != NDI_VALID ==> xy[..] == old(xy[..])
  {
    if !d.sourcesReported {
      return NDI_MISSING;
    }
    var s := Sources(d, side);
    if 0 <= i < |s| {
      CopyInto(s[i], xy);
      assert xy[..] == xy[..2];
      return NDI_VALID;
    }
    return NDI_UNOCCUPIED;
  }
}
