/**
 The wire format in numbers: where each field of a frame lies, byte by byte, which frames are accepted, and
 what the first bytes of a refused one are refused for. Nothing here is stated through the layout functions.
 */
module WireMeaning {
  import opened Bytes
  import opened Utf8
  import opened Protocol
  import opened RoundTrip

  /** The little-endian number in some bytes. */
  function Number(d: seq<byte>, at: nat, size: nat): (n: nat)
    requires at + size <= |d|
    decreases size
  {
    if size == 0 then 0 else d[at] as int + 256 * Number(d, at + 1, size - 1)
  }

  /** The same four bytes as a signed number. */
  function Signed(d: seq<byte>, at: nat): int
    requires at + 4 <= |d|
  {
    if d[at + 3] < 128 then Number(d, at, 4) else Number(d, at, 4) - 4294967296
  }

  lemma TwoBytes(d: seq<byte>, at: nat)
    requires at + 2 <= |d|
    ensures Number(d, at, 2) == d[at] as int + 256 * d[at + 1] as int
  {
    assert Number(d, at + 1, 1) == d[at + 1] as int + 256 * Number(d, at + 2, 0);
  }

  lemma NumberSplits(d: seq<byte>, at: nat, size: nat)
    requires at + 2 + size <= |d|
    ensures Number(d, at, 2 + size) == d[at] as int + 256 * d[at + 1] as int + 65536 * Number(d, at + 2, size)
  {
    assert Number(d, at + 1, 1 + size) == d[at + 1] as int + 256 * Number(d, at + 2, size);
  }

  lemma Numbers(d: seq<byte>, at: nat)
    ensures at + 2 <= |d| ==> Number(d, at, 2) == U16At(d, at)
    ensures at + 4 <= |d| ==> Number(d, at, 4) == U32At(d, at) && Signed(d, at) == FromWord(U32At(d, at))
    ensures at + 8 <= |d| ==> Number(d, at, 8) == U64At(d, at)
  {
    if at + 2 <= |d| {
      TwoBytes(d, at);
    }
    if at + 4 <= |d| {
      TwoBytes(d, at + 2);
      NumberSplits(d, at, 2);
    }
    if at + 8 <= |d| {
      NumberSplits(d, at, 6);
      NumberSplits(d, at + 2, 4);
      TwoBytes(d, at + 6);
      NumberSplits(d, at + 4, 2);
    }
  }

  /** The header's and the payload's single numbers. */
  predicate Counters(d: seq<byte>, f: Frame)
    requires |d| >= 490
  {
    && f.messageType == Number(d, 6, 2) && f.flags == Number(d, 12, 4)
    && f.sequence == Number(d, 16, 8) && f.qpcTicks == Number(d, 24, 8)
    && f.processId == Number(d, 32, 4) && f.qpcFrequency == Number(d, 36, 4)
    && f.deviceId == Number(d, 40, 4) && f.effectId == Number(d, 44, 4) && f.effectGuid == d[48..64]
    && f.propertyId == Number(d, 116, 4) && f.dropped == Number(d, 120, 4)
    && f.typeSpecificSize == Number(d, 416, 4) && (f.customRedacted <==> Number(d, 420, 4) != 0)
  }

  predicate Timing(d: seq<byte>, f: Frame)
    requires |d| >= 490
  {
    && f.hresult == Signed(d, 64) && f.diFlags == Number(d, 68, 4) && f.duration == Number(d, 72, 4)
    && f.samplePeriod == Number(d, 76, 4) && f.gain == Number(d, 80, 4) && f.startDelay == Number(d, 84, 4)
    && f.triggerButton == Number(d, 88, 4) && f.triggerRepeat == Number(d, 92, 4)
    && f.iterations == Number(d, 96, 4)
  }

  predicate Forces(d: seq<byte>, f: Frame)
    requires |d| >= 490
  {
    && f.attackLevel == Number(d, 100, 4) && f.attackTime == Number(d, 104, 4)
    && f.fadeLevel == Number(d, 108, 4) && f.fadeTime == Number(d, 112, 4)
    && f.magnitude == Signed(d, 124) && f.rampStart == Signed(d, 128) && f.rampEnd == Signed(d, 132)
    && f.periodicMagnitude == Signed(d, 136) && f.periodicOffset == Signed(d, 140)
    && f.periodicPhase == Signed(d, 144) && f.periodicPeriod == Signed(d, 148)
  }

  /** The condition at a place of the frame. */
  predicate ConditionLies(d: seq<byte>, at: nat, c: Condition)
    requires at + 24 <= |d|
  {
    && c.offset == Signed(d, at) && c.positiveCoefficient == Signed(d, at + 4)
    && c.negativeCoefficient == Signed(d, at + 8) && c.positiveSaturation == Number(d, at + 12, 4)
    && c.negativeSaturation == Number(d, at + 16, 4) && c.deadBand == Signed(d, at + 20)
  }

  /** The lists, of which the frame has the first entries. */
  predicate Lists(d: seq<byte>, f: Frame)
    requires |d| >= 490
  {
    && |f.axes| == |f.directions| == Number(d, 152, 4) <= 8 && |f.conditions| == Number(d, 220, 4) <= 8
    && (forall i: nat | i < |f.axes| :: f.axes[i] == Signed(d, 156 + 4 * i))
    && (forall i: nat | i < |f.directions| :: f.directions[i] == Signed(d, 188 + 4 * i))
    && (forall i: nat | i < |f.conditions| :: ConditionLies(d, 224 + 24 * i, f.conditions[i]))
  }

  /** A text up to its first NUL. */
  predicate Text(field: seq<byte>, text: seq<byte>) {
    && text <= field && 0 !in text && (text == field || field[|text|] == 0)
  }

  /** What a frame of these bytes holds, but for kind, command and presence. */
  predicate Says(d: seq<byte>, f: Frame)
    requires |d| >= 490
  {
    && Counters(d, f) && Timing(d, f) && Forces(d, f) && Lists(d, f)
    && Text(d[424..456], f.buildVersion) && Text(d[456..488], f.sessionId)
    && |d| >= 490 + Number(d, 488, 2) && f.text == d[490..490 + Number(d, 488, 2)]
  }

  /** The trailer of four bytes, if there is one: kinds up to 12 and commands 1 to 5 are known. */
  predicate Trailer(d: seq<byte>, kind: nat, command: nat, strict: bool)
    requires |d| >= 490
  {
    var end := 490 + Number(d, 488, 2);
    if |d| == end + 4 then
      && (kind == if strict && Number(d, end, 2) > 12 then 0 else Number(d, end, 2))
      && (command == if strict && !(1 <= Number(d, end + 2, 2) <= 5) then 0 else Number(d, end + 2, 2))
    else kind == 0 && command == 0
  }

  /** What both decoders ask of a frame. */
  predicate Sound(d: seq<byte>) {
    && 490 <= |d| <= 65536
    && d[0] == 'F' as int && d[1] == 'F' as int && d[2] == 'B' as int && d[3] == '1' as int
    && Number(d, 4, 2) == 1 && Number(d, 8, 4) == |d|
    && Number(d, 152, 4) <= 8 && Number(d, 220, 4) <= 8 && Number(d, 488, 2) <= 63
    && (|d| == 490 + Number(d, 488, 2) || |d| == 494 + Number(d, 488, 2))
  }

  /** What only the strict decoder asks. Presence bits 27 and 28 count on a creation alone. */
  predicate Strict(d: seq<byte>)
    requires Sound(d)
  {
    && 1 <= Number(d, 6, 2) <= 8 && Number(d, 420, 4) <= 1
    && (Number(d, 6, 2) == 4 ==> Number(d, 12, 4) / 134217728 % 4 != 3)
    && WellFormed(CString(d[424..456])) && WellFormed(CString(d[456..488]))
    && WellFormed(d[490..490 + Number(d, 488, 2)])
  }

  predicate PresenceIs(d: seq<byte>, presence: Presence)
    requires |d| >= 490
  {
    var bits := Number(d, 12, 4) / 134217728 % 4;
    if Number(d, 6, 2) != 4 || bits == 0 then presence == Unknown
    else if bits == 1 then presence == Absent
    else bits == 2 && presence == Present
  }

  lemma TextIs(field: seq<byte>)
    ensures Text(field, CString(field))
  {
  }

  lemma MagicIs(d: seq<byte>)
    requires |d| >= 4
    ensures d[..4] == MAGIC <==>
      d[0] == 'F' as int && d[1] == 'F' as int && d[2] == 'B' as int && d[3] == '1' as int
  {
  }

  lemma SingleNumbers(d: seq<byte>, f: Frame, presence: Presence)
    requires |d| >= 490
    requires var b := BaseAt(d, presence);
      f == b.(axes := f.axes, directions := f.directions, conditions := f.conditions,
              typeSpecificSize := Word(d, 96), customRedacted := Word(d, 97) != 0,
              buildVersion := f.buildVersion, sessionId := f.sessionId, text := f.text, effectKind := f.effectKind,
              effectCommand := f.effectCommand)
    ensures Counters(d, f) && Timing(d, f) && Forces(d, f)
  {
    hide U16At, U32At, U64At, Number, FromWord, Signed;
    forall at: nat | at + 8 <= |d|
      ensures Number(d, at, 2) == U16At(d, at) && Number(d, at, 4) == U32At(d, at) && Number(d, at, 8) == U64At(d, at)
        && Signed(d, at) == FromWord(U32At(d, at))
    {
      Numbers(d, at);
    }
  }

  lemma ListsAre(d: seq<byte>, axisCount: nat, conditionCount: nat, f: Frame)
    requires |d| >= 490 && axisCount <= 8 && conditionCount <= 8
    requires axisCount == U32At(d, 152) && conditionCount == U32At(d, 220)
    requires f.axes == SignedWordsAt(d, 31, axisCount) && f.directions == SignedWordsAt(d, 39, axisCount)
    requires f.conditions == ConditionsAt(d, conditionCount)
    ensures Lists(d, f)
  {
    hide U32At, Number, FromWord, Signed;
    forall at: nat | at + 4 <= |d|
      ensures Number(d, at, 4) == U32At(d, at) && Signed(d, at) == FromWord(U32At(d, at))
    {
      Numbers(d, at);
    }
    forall i: nat | i < |f.axes|
      ensures f.axes[i] == Signed(d, 156 + 4 * i)
    {
      assert 32 + 4 * (31 + i) == 156 + 4 * i;
    }
    forall i: nat | i < |f.directions|
      ensures f.directions[i] == Signed(d, 188 + 4 * i)
    {
      assert 32 + 4 * (39 + i) == 188 + 4 * i;
    }
    forall i: nat | i < |f.conditions|
      ensures ConditionLies(d, 224 + 24 * i, f.conditions[i])
    {
      assert 32 + 4 * (48 + 6 * i) == 224 + 24 * i;
    }
  }

  lemma FrameSays(d: seq<byte>, kind: u16, command: u16, presence: Presence)
    requires Sound(d)
    ensures Word(d, 30) <= MAX_AXES && Word(d, 47) <= MAX_AXES
    ensures Says(d, FrameAt(d, Number(d, 488, 2), kind, command, presence))
  {
    hide U16At, U32At, U64At, Number, BaseAt, SignedWordsAt, ConditionsAt, CString;
    Numbers(d, 152);
    Numbers(d, 220);
    Numbers(d, 488);
    var f := FrameAt(d, Number(d, 488, 2), kind, command, presence);
    var b := BaseAt(d, presence);
    SingleNumbers(d, f, presence);
    ListsAre(d, U32At(d, 152), U32At(d, 220), f);
    TextIs(d[424..456]);
    TextIs(d[456..488]);
  }

  lemma HeaderNumbers(d: seq<byte>)
    requires |d| >= 490
    ensures U16At(d, 4) == Number(d, 4, 2) && U16At(d, 6) == Number(d, 6, 2) && U32At(d, 8) == Number(d, 8, 4)
      && U32At(d, 12) == Number(d, 12, 4) && Word(d, 30) == Number(d, 152, 4) && Word(d, 47) == Number(d, 220, 4)
      && Word(d, 97) == Number(d, 420, 4) && U16At(d, 488) == Number(d, 488, 2)
    ensures var end := 490 + Number(d, 488, 2);
      |d| >= end + 4 ==> U16At(d, end) == Number(d, end, 2) && U16At(d, end + 2) == Number(d, end + 2, 2)
  {
    hide U16At, U32At, U64At, Number, Signed;
    Numbers(d, 4);
    Numbers(d, 6);
    Numbers(d, 8);
    Numbers(d, 12);
    Numbers(d, 152);
    Numbers(d, 220);
    Numbers(d, 420);
    Numbers(d, 488);
    Numbers(d, 490 + Number(d, 488, 2));
    Numbers(d, 492 + Number(d, 488, 2));
  }

  lemma PresenceReadsBits(d: seq<byte>)
    requires |d| >= 490 && U16At(d, 6) == Number(d, 6, 2) && U32At(d, 12) == Number(d, 12, 4)
    ensures var p := PresenceOf(U16At(d, 6), U32At(d, 12));
      && (p.Ok? <==> (Number(d, 6, 2) == 4 ==> Number(d, 12, 4) / 134217728 % 4 != 3))
      && (p.Ok? ==> PresenceIs(d, p.value))
  {
  }

  /** The loose decoder accepts exactly the sound frames, and gives back what each byte says. */
  lemma PythonAccepts(d: seq<byte>)
    ensures PyDecode(d).Ok? <==> Sound(d)
    ensures PyDecode(d).Ok? ==>
      var f := PyDecode(d).value; Says(d, f) && Trailer(d, f.effectKind, f.effectCommand, false)
  {
    hide U16At, U32At, U64At, Number, FrameAt, WellFormed, CString, Says, Word;
    if |d| >= 490 {
      MagicIs(d);
      HeaderNumbers(d);
      if Sound(d) {
        FrameSays(d, PyDecode(d).value.effectKind, PyDecode(d).value.effectCommand, Unknown);
        FrameParts(d, Number(d, 488, 2), 0, 0, Unknown);
        if |d| == 494 + Number(d, 488, 2) {
          FrameParts(d, Number(d, 488, 2), U16At(d, |d| - 4), U16At(d, |d| - 2), Unknown);
        }
      }
    }
  }

  lemma FrameParts(d: seq<byte>, textLength: nat, kind: u16, command: u16, presence: Presence)
    requires 490 + textLength <= |d| && Word(d, 30) <= MAX_AXES && Word(d, 47) <= MAX_AXES
    ensures var f := FrameAt(d, textLength, kind, command, presence);
      f.effectKind == kind && f.effectCommand == command && f.presence == presence
  {
  }

  /** The strict decoder accepts exactly the sound frames that pass its own checks, and gives back what each byte says. */
  lemma StrictAccepts(d: seq<byte>)
    ensures Decode(d).Ok? <==> Sound(d) && Strict(d)
    ensures Decode(d).Ok? ==>
      var f := Decode(d).value;
      Says(d, f) && Trailer(d, f.effectKind, f.effectCommand, true) && PresenceIs(d, f.presence)
  {
    hide U16At, U32At, U64At, Number, WellFormed, CString, Says, Word, FrameAt, PresenceIs, PresenceOf, Decode, PyDecode,
      FrameAt, DecodeStrings, DecodeFields;
    CSharpIsStricter(d);
    PythonAccepts(d);
    if Sound(d) {
      HeaderNumbers(d);
      PresenceReadsBits(d);
      if Decode(d).Ok? {
        var end := 490 + Number(d, 488, 2);
        AcceptedFrame(d);
        var f := Decode(d).value;
        FrameSays(d, f.effectKind, f.effectCommand, f.presence);
      }
    }
  }

  // An accepted frame's fields, its trailer and its presence.
  lemma AcceptedFrame(d: seq<byte>)
    requires Decode(d).Ok?
    ensures |d| >= 490 && Word(d, 30) <= MAX_AXES && Word(d, 47) <= MAX_AXES && 490 + U16At(d, 488) as int <= |d|
    ensures var (f, n) := (Decode(d).value, U16At(d, 488));
      && f == FrameAt(d, n, f.effectKind, f.effectCommand, f.presence)
      && PresenceOf(U16At(d, 6), U32At(d, 12)) == Ok(f.presence)
      && if |d| == 494 + n as int then
           && f.effectKind == (if U16At(d, 490 + n) <= 12 then U16At(d, 490 + n) else 0)
           && f.effectCommand == (if 1 <= U16At(d, 492 + n) <= 5 then U16At(d, 492 + n) else 0)
         else f.effectKind == 0 && f.effectCommand == 0
  {
    hide U16At, U32At, U64At, WellFormed, CString, Word, PresenceOf, FrameAt;
    var n := U16At(d, 488);
    var p := PresenceOf(U16At(d, 6), U32At(d, 12)).value;
    var kind := if |d| == 494 + n as int then KnownKind(U16At(d, 490 + n)) else 0;
    var command := if |d| == 494 + n as int then KnownCommand(U16At(d, 492 + n)) else 0;
    assert Decode(d) == DecodeFields(d, p) == DecodeStrings(d, p);
    assert Decode(d) == Ok(FrameAt(d, n, kind, command, p));
    FrameParts(d, n, kind, command, p);
  }

  /** What the first bytes of a frame are refused for, in the order of the checks. */
  lemma HeaderRefusals(d: seq<byte>)
    requires |d| >= 32
    ensures var magic := d[0] == 'F' as int && d[1] == 'F' as int && d[2] == 'B' as int && d[3] == '1' as int;
      var version, kind, size := Number(d, 4, 2) == 1, 1 <= Number(d, 6, 2) <= 8, Number(d, 8, 4);
      && (Decode(d) == Err(BadMagic) <==> !magic)
      && (Decode(d) == Err(UnsupportedVersion) <==> magic && !version)
      && (Decode(d) == Err(UnknownMessageType) <==> magic && version && !kind)
      && (Decode(d) == Err(InvalidFrameSize) <==> magic && version && kind && (size != |d| || |d| > 65536))
      && (PyDecode(d) == Err(BadMagic) <==> !magic)
      && (PyDecode(d) == Err(UnsupportedVersion) <==> magic && !version)
      && (PyDecode(d) == Err(InvalidFrameSize) <==> magic && version && (size != |d| || |d| > 65536))
  {
    hide U32At, U64At, U16At, Number, WellFormed, CString, FrameAt, Word, Signed;
    MagicIs(d);
    Numbers(d, 4);
    Numbers(d, 6);
    Numbers(d, 8);
  }

  /** The flag word on the wire: bits 27 and 28 of a creation tell its presence, every other bit is the event's. */
  lemma FlagsTellPresence(e: Event)
    ensures var (f, was) := (WireFlags(e), e.flags);
      if e.messageType != 4 then f == was
      else
        && f % 134217728 == was % 134217728 && f / 536870912 == was / 536870912
        && f / 134217728 % 4 == match e.presence case Unknown => 0 case Absent => 1 case Present => 2
  {
    if e.messageType == 4 {
      BitsReplaced(e.flags, match e.presence case Unknown => 0 case Absent => 1 case Present => 2);
    }
  }

  // Two bits above the low 27 taken out and others put in.
  lemma BitsReplaced(was: u32, bits: nat)
    requires bits < 4
    ensures var f := was - was / 134217728 % 4 * 134217728 + bits * 134217728;
      0 <= f && f % 134217728 == was % 134217728 && f / 536870912 == was / 536870912 && f / 134217728 % 4 == bits
  {
    var low, high := was % 134217728, was / 536870912;
    var there := was / 134217728 % 4;
    assert was / 134217728 / 4 == high;
    assert was == low + 134217728 * (there + 4 * high);
    var f := was - there * 134217728 + bits * 134217728;
    assert f == low + 134217728 * (bits + 4 * high);
    assert f / 134217728 == bits + 4 * high && f / 536870912 == f / 134217728 / 4;
  }

  /** The bytes of a producible event's frame say what the event says. */
  lemma WireSays(e: Event)
    requires Producible(e)
    ensures Sound(Wire(e)) && Strict(Wire(e)) && Says(Wire(e), Expected(e))
  {
    hide Says, Sound, Strict, Wire, Expected, Trailer, PresenceIs;
    RoundTrips(e);
    StrictAccepts(Wire(e));
  }
}
