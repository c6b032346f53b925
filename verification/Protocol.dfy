/**
 Wire protocol v1: the frame layout, the C++ serializer, the strict C# decoder and
 the Python decoder. Layout positions are stated once, as payload words: word j
 starts at byte 32 + 4j of the frame.
 */
module Protocol {
  import opened Bytes
  import opened Utf8

  const HEADER_SIZE := 32
  const MAX_FRAME_SIZE := 64 * 1024
  const MAX_AXES := 8
  const VERSION: u16 := 1

  // Message types.
  const HELLO: u16 := 1
  const DEVICE_CREATED: u16 := 2
  const DEVICE_PROPERTY_CHANGED: u16 := 3
  const EFFECT_CREATED: u16 := 4
  const EFFECT_PARAMETERS_CHANGED: u16 := 5
  const EFFECT_COMMAND: u16 := 6
  const DEVICE_COMMAND: u16 := 7
  const DROP_NOTICE: u16 := 8

  // Effect kinds.
  const UNKNOWN_KIND: u16 := 0
  const CONSTANT: u16 := 1
  const RAMP: u16 := 2
  const SQUARE: u16 := 3
  const SINE: u16 := 4
  const TRIANGLE: u16 := 5
  const SAWTOOTH_UP: u16 := 6
  const SAWTOOTH_DOWN: u16 := 7
  const SPRING: u16 := 8
  const FRICTION: u16 := 11
  const CUSTOM: u16 := 12

  // Effect commands.
  const DOWNLOAD: u16 := 1
  const START: u16 := 2
  const STOP: u16 := 3
  const UNLOAD: u16 := 4
  const RELEASE: u16 := 5

  const PARAMETERS_ABSENT: u32 := 0x0800_0000
  const PARAMETERS_PRESENT: u32 := 0x1000_0000

  datatype Presence = Unknown | Absent | Present

  datatype ProtocolError =
    | TruncatedHeader | BadMagic | UnsupportedVersion | UnknownMessageType | InvalidFrameSize
    | InvalidPresenceFlags | TruncatedPayload | AxisCountExceeded | ConditionCountExceeded
    | InvalidRedactionFlag | InvalidText | InvalidTextLength | InvalidTrailingPayload
    | BufferExceeded | TruncatedAtDisconnect

  datatype Result<+T> = Ok(value: T) | Err(error: ProtocolError) {
    predicate IsFailure() { Err? }

    function PropagateFailure<U>(): Result<U>
      requires Err?
    {
      Err(error)
    }

    function Extract(): T
      requires Ok?
    {
      value
    }
  }

  datatype Condition = Condition(
    offset: i32, positiveCoefficient: i32, negativeCoefficient: i32,
    positiveSaturation: u32, negativeSaturation: u32, deadBand: i32)

  // The producer's fixed-size event.
  datatype Event = Event(
    messageType: u16, effectKind: u16, presence: Presence, command: u16, flags: u32,
    sequence: u64, qpcTicks: u64, processId: u32, deviceId: u32, effectId: u32,
    effectGuid: seq<byte>, hresult: i32, diFlags: u32, duration: u32, samplePeriod: u32,
    gain: u32, startDelay: u32, triggerButton: u32, triggerRepeat: u32, iterations: u32,
    attackLevel: u32, attackTime: u32, fadeLevel: u32, fadeTime: u32, qpcFrequency: u32,
    propertyId: u32, dropped: u32, magnitude: i32, rampStart: i32, rampEnd: i32,
    periodicMagnitude: i32, periodicOffset: i32, periodicPhase: i32, periodicPeriod: i32,
    axisCount: u32, axes: seq<i32>, directions: seq<i32>,
    conditionCount: u32, conditions: seq<Condition>, typeSpecificSize: u32,
    customRedacted: bool, buildVersion: seq<byte>, sessionId: seq<byte>, text: seq<byte>)

  // A decoded frame. Text is kept as the bytes it was validated from.
  datatype Frame = Frame(
    messageType: u16, flags: u32, sequence: u64, qpcTicks: u64,
    processId: u32, qpcFrequency: u32, deviceId: u32, effectId: u32, effectGuid: seq<byte>,
    hresult: i32, diFlags: u32, duration: u32, samplePeriod: u32, gain: u32, startDelay: u32,
    triggerButton: u32, triggerRepeat: u32, iterations: u32,
    attackLevel: u32, attackTime: u32, fadeLevel: u32, fadeTime: u32,
    propertyId: u32, dropped: u32, magnitude: i32, rampStart: i32, rampEnd: i32,
    periodicMagnitude: i32, periodicOffset: i32, periodicPhase: i32, periodicPeriod: i32,
    axes: seq<i32>, directions: seq<i32>, conditions: seq<Condition>,
    typeSpecificSize: u32, customRedacted: bool,
    buildVersion: seq<byte>, sessionId: seq<byte>, text: seq<byte>,
    effectKind: u16, effectCommand: u16, presence: Presence)

  // ---------- The serializer ----------

  /** The array sizes that the C++ struct fixes. */
  predicate Shaped(e: Event) {
    && |e.effectGuid| == 16 && |e.axes| == MAX_AXES && |e.directions| == MAX_AXES
    && |e.conditions| == MAX_AXES && |e.buildVersion| == 32 && |e.sessionId| == 32
    && |e.text| == 64
  }

  function PresenceBits(flags: u32): (bits: nat)
    ensures bits < 4
  {
    flags / PARAMETERS_ABSENT % 4
  }

  function WireFlags(e: Event): u32 {
    if e.messageType != EFFECT_CREATED then e.flags
    else
      var cleared := e.flags - PresenceBits(e.flags) * PARAMETERS_ABSENT;
      match e.presence
      case Absent => cleared + PARAMETERS_ABSENT
      case Present => cleared + PARAMETERS_PRESENT
      case Unknown => cleared
  }

  /** The text that goes on the wire: up to its NUL, at most 63 bytes. */
  function WireText(e: Event): (t: seq<byte>)
    requires Shaped(e)
    ensures |t| <= 63
  {
    CString(e.text[..63])
  }

  function HeadWords(e: Event): (w: seq<u32>)
    ensures |w| == 4
  {
    [e.processId, e.qpcFrequency, e.deviceId, e.effectId]
  }

  function TimingWords(e: Event): (w: seq<u32>)
    ensures |w| == 6
  {
    [ToWord(e.hresult), e.diFlags, e.duration, e.samplePeriod, e.gain, e.startDelay]
  }

  function TriggerWords(e: Event): (w: seq<u32>)
    ensures |w| == 3
  {
    [e.triggerButton, e.triggerRepeat, e.iterations]
  }

  function EnvelopeWords(e: Event): (w: seq<u32>)
    ensures |w| == 6
  {
    [e.attackLevel, e.attackTime, e.fadeLevel, e.fadeTime, e.propertyId, e.dropped]
  }

  function ForceWords(e: Event): (w: seq<u32>)
    ensures |w| == 7
  {
    [ToWord(e.magnitude), ToWord(e.rampStart), ToWord(e.rampEnd), ToWord(e.periodicMagnitude),
     ToWord(e.periodicOffset), ToWord(e.periodicPhase), ToWord(e.periodicPeriod)]
  }

  function ScalarWords(e: Event): (w: seq<u32>)
    ensures |w| == 22
  {
    TimingWords(e) + TriggerWords(e) + EnvelopeWords(e) + ForceWords(e)
  }

  function SignedWords(values: seq<i32>): (w: seq<u32>)
    ensures |w| == |values|
    ensures forall i | 0 <= i < |values| :: w[i] == ToWord(values[i])
  {
    if values == [] then [] else [ToWord(values[0])] + SignedWords(values[1..])
  }

  function ConditionWords(c: Condition): (w: seq<u32>)
    ensures |w| == 6
  {
    [ToWord(c.offset), ToWord(c.positiveCoefficient), ToWord(c.negativeCoefficient),
     c.positiveSaturation, c.negativeSaturation, ToWord(c.deadBand)]
  }

  function ConditionsWords(cs: seq<Condition>): (w: seq<u32>)
    ensures |w| == 6 * |cs|
  {
    if cs == [] then [] else ConditionWords(cs[0]) + ConditionsWords(cs[1..])
  }

  function RedactionWord(e: Event): u32 { if e.customRedacted then 1 else 0 }

  /** Payload words 8 to 97, behind the GUID. */
  function TailWords(e: Event): (w: seq<u32>)
    requires Shaped(e)
    ensures |w| == 90
  {
    ScalarWords(e) + [e.axisCount] + SignedWords(e.axes) + SignedWords(e.directions)
    + [e.conditionCount] + ConditionsWords(e.conditions) + [e.typeSpecificSize, RedactionWord(e)]
  }

  function Strings(e: Event): (s: seq<byte>)
    requires Shaped(e)
    ensures |s| == 70 + |WireText(e)|
  {
    e.buildVersion + e.sessionId + Le16(|WireText(e)|) + WireText(e) + Le16(e.effectKind) + Le16(e.command)
  }

  function Payload(e: Event): (p: seq<byte>)
    requires Shaped(e)
    ensures |p| == 462 + |WireText(e)|
  {
    WordBytes(HeadWords(e)) + e.effectGuid + WordBytes(TailWords(e)) + Strings(e)
  }

  const MAGIC: seq<byte> := [0x46, 0x46, 0x42, 0x31]

  function Header(e: Event, frameSize: u32): (h: seq<byte>)
    ensures |h| == HEADER_SIZE
  {
    MAGIC + Le16(VERSION) + Le16(e.messageType) + Le32(frameSize) + Le32(WireFlags(e))
    + Le64(e.sequence) + Le64(e.qpcTicks)
  }

  /** The frame that the producer puts on the pipe for an event. */
  function Wire(e: Event): (frame: seq<byte>)
    requires Shaped(e)
    ensures |frame| == 494 + |WireText(e)|
  {
    Header(e, HEADER_SIZE + |Payload(e)|) + Payload(e)
  }

  // ---------- The decoders ----------

  function Word(data: seq<byte>, j: nat): u32
    requires 36 + 4 * j <= |data|
  {
    U32At(data, 32 + 4 * j)
  }

  function SignedWordsAt(data: seq<byte>, j: nat, count: nat): (r: seq<i32>)
    requires 32 + 4 * (j + count) <= |data|
    ensures |r| == count
    ensures forall i | 0 <= i < count :: r[i] == FromWord(Word(data, j + i))
  {
    seq<i32>(count, i requires 0 <= i < count => FromWord(Word(data, j + i)))
  }

  function ConditionAt(data: seq<byte>, i: nat): Condition
    requires i < MAX_AXES && |data| >= 424
  {
    Condition(FromWord(Word(data, 48 + 6 * i)), FromWord(Word(data, 49 + 6 * i)),
              FromWord(Word(data, 50 + 6 * i)), Word(data, 51 + 6 * i),
              Word(data, 52 + 6 * i), FromWord(Word(data, 53 + 6 * i)))
  }

  function PresenceOf(messageType: u16, flags: u32): Result<Presence> {
    if messageType != EFFECT_CREATED then Ok(Unknown)
    else match PresenceBits(flags)
      case 0 => Ok(Unknown)
      case 1 => Ok(Absent)
      case 2 => Ok(Present)
      case _ => Err(InvalidPresenceFlags)
  }

  /** Checks that both stream readers and both decoders make on a frame's first bytes. */
  function HeaderError(data: seq<byte>): Option<ProtocolError>
    requires |data| >= HEADER_SIZE
  {
    if data[..4] != MAGIC then Some(BadMagic)
    else if U16At(data, 4) != VERSION then Some(UnsupportedVersion)
    else None
  }

  /** The fields in front of the axis count, at their fixed places. */
  function BaseAt(data: seq<byte>, presence: Presence): Frame
    requires |data| >= 152
  {
    Frame(U16At(data, 6), U32At(data, 12), U64At(data, 16), U64At(data, 24),
          Word(data, 0), Word(data, 1), Word(data, 2), Word(data, 3), data[48..64],
          FromWord(Word(data, 8)), Word(data, 9), Word(data, 10), Word(data, 11), Word(data, 12),
          Word(data, 13), Word(data, 14), Word(data, 15), Word(data, 16),
          Word(data, 17), Word(data, 18), Word(data, 19), Word(data, 20),
          Word(data, 21), Word(data, 22), FromWord(Word(data, 23)), FromWord(Word(data, 24)),
          FromWord(Word(data, 25)), FromWord(Word(data, 26)), FromWord(Word(data, 27)),
          FromWord(Word(data, 28)), FromWord(Word(data, 29)),
          [], [], [], 0, false, [], [], [], UNKNOWN_KIND, 0, presence)
  }

  function ConditionsAt(data: seq<byte>, count: nat): (r: seq<Condition>)
    requires count <= MAX_AXES && |data| >= 424
    ensures |r| == count
    ensures forall i | 0 <= i < count :: r[i] == ConditionAt(data, i)
  {
    seq(count, i requires 0 <= i < count => ConditionAt(data, i))
  }

  /** All fields, given the text length and the optional trailer. */
  function FrameAt(data: seq<byte>, textLength: nat, kind: u16, command: u16, presence: Presence): Frame
    requires 490 + textLength <= |data|
    requires Word(data, 30) <= MAX_AXES && Word(data, 47) <= MAX_AXES
  {
    BaseAt(data, presence).(
    axes := SignedWordsAt(data, 31, Word(data, 30)), directions := SignedWordsAt(data, 39, Word(data, 30)),
    conditions := ConditionsAt(data, Word(data, 47)),
    typeSpecificSize := Word(data, 96), customRedacted := Word(data, 97) != 0,
    buildVersion := CString(data[424..456]), sessionId := CString(data[456..488]),
    text := data[490..490 + textLength], effectKind := kind, effectCommand := command)
  }

  function KnownKind(kind: u16): u16 { if kind <= CUSTOM then kind else UNKNOWN_KIND }

  function KnownCommand(command: u16): u16 { if 1 <= command <= RELEASE then command else 0 }

  /** The C# decoder: every check in the source's order. */
  function Decode(data: seq<byte>): Result<Frame> {
    if |data| < HEADER_SIZE then Err(TruncatedHeader)
    else if HeaderError(data).Some? then Err(HeaderError(data).value)
    else if !(HELLO <= U16At(data, 6) <= DROP_NOTICE) then Err(UnknownMessageType)
    else if U32At(data, 8) < HEADER_SIZE || U32At(data, 8) > MAX_FRAME_SIZE || U32At(data, 8) != |data|
      then Err(InvalidFrameSize)
    else
      var presence := PresenceOf(U16At(data, 6), U32At(data, 12));
      if presence.Err? then Err(presence.error) else DecodeFields(data, presence.value)
  }

  function DecodeFields(data: seq<byte>, presence: Presence): Result<Frame>
    requires |data| >= HEADER_SIZE
  {
    if |data| < 156 then Err(TruncatedPayload)
    else if Word(data, 30) > MAX_AXES then Err(AxisCountExceeded)
    else if |data| < 224 then Err(TruncatedPayload)
    else if Word(data, 47) > MAX_AXES then Err(ConditionCountExceeded)
    else if |data| < 424 then Err(TruncatedPayload)
    else if Word(data, 97) > 1 then Err(InvalidRedactionFlag)
    else DecodeStrings(data, presence)
  }

  function DecodeStrings(data: seq<byte>, presence: Presence): Result<Frame>
    requires |data| >= 424 && Word(data, 30) <= MAX_AXES && Word(data, 47) <= MAX_AXES
  {
    if |data| < 456 then Err(TruncatedPayload)
    else if !WellFormed(CString(data[424..456])) then Err(InvalidText)
    else if |data| < 488 then Err(TruncatedPayload)
    else if !WellFormed(CString(data[456..488])) then Err(InvalidText)
    else if |data| < 490 then Err(TruncatedPayload)
    else
      var textLength := U16At(data, 488);
      var end := 490 + textLength as int;
      if textLength > 63 then Err(InvalidTextLength)
      else if |data| < end then Err(TruncatedPayload)
      else if !WellFormed(data[490..end]) then Err(InvalidText)
      else if |data| == end + 4 then
        Ok(FrameAt(data, textLength, KnownKind(U16At(data, end)), KnownCommand(U16At(data, end + 2)), presence))
      else if |data| != end then Err(InvalidTrailingPayload)
      else Ok(FrameAt(data, textLength, UNKNOWN_KIND, 0, presence))
  }

  /** The Python decoder. It reads no presence bits and replaces bad text instead of refusing it. */
  function PyDecode(data: seq<byte>): Result<Frame> {
    if |data| < HEADER_SIZE then Err(TruncatedHeader)
    else if HeaderError(data).Some? then Err(HeaderError(data).value)
    else if U32At(data, 8) < HEADER_SIZE || U32At(data, 8) > MAX_FRAME_SIZE then Err(InvalidFrameSize)
    else if U32At(data, 8) != |data| then Err(InvalidFrameSize)
    else if |data| < 490 then Err(TruncatedPayload)
    else if Word(data, 30) > MAX_AXES then Err(AxisCountExceeded)
    else if Word(data, 47) > MAX_AXES then Err(ConditionCountExceeded)
    else
      var textLength := U16At(data, 488);
      var end := 490 + textLength as int;
      if textLength > 63 || end > |data| then Err(InvalidTextLength)
      else if |data| == end + 4 then
        Ok(FrameAt(data, textLength, U16At(data, end), U16At(data, end + 2), Unknown))
      else if |data| != end then Err(InvalidTrailingPayload)
      else Ok(FrameAt(data, textLength, 0, 0, Unknown))
  }
}
