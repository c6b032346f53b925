/** The C# decoder as it runs: a reader whose offset advances through the frame. */
module Decoder {
  import opened Bytes
  import opened Utf8
  import opened Protocol

  class LittleEndianReader {
    const data: seq<byte>
    var offset: nat

    constructor (data: seq<byte>)
      ensures this.data == data && offset == 0
    {
      this.data := data;
      offset := 0;
    }

    predicate Has(count: nat)
      reads this
    {
      offset + count <= |data|
    }

    method Skip(count: nat) returns (r: Result<()>)
      modifies this
      ensures if old(Has(count)) then r == Ok(()) && offset == old(offset) + count
              else r == Err(TruncatedPayload) && offset == old(offset)
    {
      if offset > |data| - count {
        return Err(TruncatedPayload);
      }
      offset := offset + count;
      r := Ok(());
    }

    method ReadBytes(count: nat) returns (r: Result<seq<byte>>)
      modifies this
      ensures if old(Has(count)) then r == Ok(data[old(offset)..old(offset) + count]) && offset == old(offset) + count
              else r == Err(TruncatedPayload) && offset == old(offset)
    {
      if offset > |data| - count {
        return Err(TruncatedPayload);
      }
      r := Ok(data[offset..offset + count]);
      offset := offset + count;
    }

    method ReadUInt16() returns (r: Result<u16>)
      modifies this
      ensures if old(Has(2)) then r == Ok(U16At(data, old(offset))) && offset == old(offset) + 2
              else r == Err(TruncatedPayload) && offset == old(offset)
    {
      if offset > |data| - 2 {
        return Err(TruncatedPayload);
      }
      r := Ok(data[offset] as int + 0x100 * (data[offset + 1] as int));
      offset := offset + 2;
    }

    method ReadUInt32() returns (r: Result<u32>)
      modifies this
      ensures if old(Has(4)) then r == Ok(U32At(data, old(offset))) && offset == old(offset) + 4
              else r == Err(TruncatedPayload) && offset == old(offset)
    {
      if offset > |data| - 4 {
        return Err(TruncatedPayload);
      }
      r := Ok(U32At(data, offset));
      offset := offset + 4;
    }

    method ReadInt32() returns (r: Result<i32>)
      modifies this
      ensures if old(Has(4)) then r == Ok(FromWord(U32At(data, old(offset)))) && offset == old(offset) + 4
              else r == Err(TruncatedPayload) && offset == old(offset)
    {
      var word :- ReadUInt32();
      r := Ok(FromWord(word));
    }

    method ReadUInt64() returns (r: Result<u64>)
      modifies this
      ensures if old(Has(8)) then r == Ok(U64At(data, old(offset))) && offset == old(offset) + 8
              else r == Err(TruncatedPayload)
    {
      var low :- ReadUInt32();
      var high :- ReadUInt32();
      r := Ok(low as int + 0x1_0000_0000 * (high as int));
    }

    method ReadInt32Array(count: nat, ghost j: nat) returns (r: Result<seq<i32>>)
      requires offset == 32 + 4 * j && offset <= |data|
      modifies this
      ensures if old(Has(4 * count)) then r == Ok(SignedWordsAt(data, j, count)) && offset == old(offset) + 4 * count
              else r == Err(TruncatedPayload)
    {
      var values: seq<i32> := [];
      for i := 0 to count
        invariant offset == old(offset) + 4 * i && |values| == i
        invariant offset <= |data|
        invariant forall k | 0 <= k < i :: values[k] == FromWord(Word(data, j + k))
      {
        var value :- ReadInt32();
        values := values + [value];
      }
      assert old(Has(4 * count)) ==> values == SignedWordsAt(data, j, count);
      r := Ok(values);
    }

    method ReadCondition(ghost i: nat) returns (r: Result<Condition>)
      requires i < MAX_AXES && offset == 224 + 24 * i
      modifies this
      ensures old(Has(24)) ==>
        offset == old(offset) + 24 && r.Ok? && (|data| >= 424 ==> r.value == ConditionAt(data, i))
      ensures !old(Has(24)) ==> r == Err(TruncatedPayload)
    {
      var place :- ReadInt32();
      var positive :- ReadInt32();
      var negative :- ReadInt32();
      var positiveSaturation :- ReadUInt32();
      var negativeSaturation :- ReadUInt32();
      var deadBand :- ReadInt32();
      r := Ok(Condition(place, positive, negative, positiveSaturation, negativeSaturation, deadBand));
    }
  }

  // The four groups of scalar fields behind the header, in the order they are read.
  datatype Timing = Timing(hresult: i32, diFlags: u32, duration: u32, samplePeriod: u32, gain: u32, startDelay: u32)
  datatype Trigger = Trigger(button: u32, repeat: u32, iterations: u32)
  datatype Envelope = Envelope(attackLevel: u32, attackTime: u32, fadeLevel: u32, fadeTime: u32, propertyId: u32,
      dropped: u32)
  datatype Forces = Forces(magnitude: i32, rampStart: i32, rampEnd: i32, magnitude2: i32, offset: i32, phase: i32,
      period: i32)

  method ReadTiming(reader: LittleEndianReader) returns (r: Result<Timing>)
    requires reader.offset == 64
    modifies reader
    ensures if |reader.data| < 88 then r == Err(TruncatedPayload) else
      && reader.offset == 88
      && var d := reader.data;
         r == Ok(Timing(FromWord(Word(d, 8)), Word(d, 9), Word(d, 10), Word(d, 11), Word(d, 12), Word(d, 13)))
  {
    var hresult :- reader.ReadInt32();
    var diFlags :- reader.ReadUInt32();
    var duration :- reader.ReadUInt32();
    var samplePeriod :- reader.ReadUInt32();
    var gain :- reader.ReadUInt32();
    var startDelay :- reader.ReadUInt32();
    r := Ok(Timing(hresult, diFlags, duration, samplePeriod, gain, startDelay));
  }

  method ReadTrigger(reader: LittleEndianReader) returns (r: Result<Trigger>)
    requires reader.offset == 88
    modifies reader
    ensures if |reader.data| < 100 then r == Err(TruncatedPayload) else
      && reader.offset == 100
      && var d := reader.data; r == Ok(Trigger(Word(d, 14), Word(d, 15), Word(d, 16)))
  {
    var button :- reader.ReadUInt32();
    var repeat :- reader.ReadUInt32();
    var iterations :- reader.ReadUInt32();
    r := Ok(Trigger(button, repeat, iterations));
  }

  method ReadEnvelope(reader: LittleEndianReader) returns (r: Result<Envelope>)
    requires reader.offset == 100
    modifies reader
    ensures if |reader.data| < 124 then r == Err(TruncatedPayload) else
      && reader.offset == 124
      && var d := reader.data;
         r == Ok(Envelope(Word(d, 17), Word(d, 18), Word(d, 19), Word(d, 20), Word(d, 21), Word(d, 22)))
  {
    var attackLevel :- reader.ReadUInt32();
    var attackTime :- reader.ReadUInt32();
    var fadeLevel :- reader.ReadUInt32();
    var fadeTime :- reader.ReadUInt32();
    var propertyId :- reader.ReadUInt32();
    var dropped :- reader.ReadUInt32();
    r := Ok(Envelope(attackLevel, attackTime, fadeLevel, fadeTime, propertyId, dropped));
  }

  method ReadForces(reader: LittleEndianReader) returns (r: Result<Forces>)
    requires reader.offset == 124
    modifies reader
    ensures if |reader.data| < 152 then r == Err(TruncatedPayload) else
      && reader.offset == 152
      && var d := reader.data;
         r == Ok(Forces(FromWord(Word(d, 23)), FromWord(Word(d, 24)), FromWord(Word(d, 25)), FromWord(Word(d, 26)),
                        FromWord(Word(d, 27)), FromWord(Word(d, 28)), FromWord(Word(d, 29))))
  {
    var magnitude :- reader.ReadInt32();
    var rampStart :- reader.ReadInt32();
    var rampEnd :- reader.ReadInt32();
    var periodicMagnitude :- reader.ReadInt32();
    var periodicOffset :- reader.ReadInt32();
    var periodicPhase :- reader.ReadInt32();
    var periodicPeriod :- reader.ReadInt32();
    r := Ok(Forces(magnitude, rampStart, rampEnd, periodicMagnitude, periodicOffset, periodicPhase, periodicPeriod));
  }

  /** The fields from the sequence number to the periodic period. */
  method ReadBase(reader: LittleEndianReader, messageType: u16, flags: u32,
      presence: Presence) returns (r: Result<Frame>)
    requires reader.offset == 16 && |reader.data| >= 32
    requires messageType == U16At(reader.data, 6) && flags == U32At(reader.data, 12)
    modifies reader
    ensures if |reader.data| < 152 then r == Err(TruncatedPayload)
            else reader.offset == 152 && r == Ok(BaseAt(reader.data, presence))
  {
    var sequence := reader.ReadUInt64();
    var ticks := reader.ReadUInt64();
    var processId :- reader.ReadUInt32();
    var frequency :- reader.ReadUInt32();
    var deviceId :- reader.ReadUInt32();
    var effectId :- reader.ReadUInt32();
    var guid :- reader.ReadBytes(16);
    var t :- ReadTiming(reader);
    var g :- ReadTrigger(reader);
    var v :- ReadEnvelope(reader);
    var f :- ReadForces(reader);
    r := Ok(Frame(messageType, flags, sequence.value, ticks.value, processId, frequency, deviceId, effectId, guid,
                  t.hresult, t.diFlags, t.duration, t.samplePeriod, t.gain, t.startDelay,
                  g.button, g.repeat, g.iterations, v.attackLevel, v.attackTime, v.fadeLevel, v.fadeTime,
                  v.propertyId, v.dropped, f.magnitude, f.rampStart, f.rampEnd,
                  f.magnitude2, f.offset, f.phase, f.period,
                  [], [], [], 0, false, [], [], [], UNKNOWN_KIND, 0, presence));
  }

  method ReadConditions(reader: LittleEndianReader, count: nat) returns (r: Result<seq<Condition>>)
    requires reader.offset == 224 && count <= MAX_AXES
    modifies reader
    ensures if |reader.data| < 416 then r == Err(TruncatedPayload)
            else (reader.offset == 416 && r.Ok? && |r.value| == count
                  && (|reader.data| >= 424 ==> r.value == ConditionsAt(reader.data, count)))
  {
    var conditions: seq<Condition> := [];
    for i := 0 to MAX_AXES
      invariant reader.offset == 224 + 24 * i && (i == 0 || reader.offset <= |reader.data|)
      invariant |conditions| == Min(i, count)
      invariant |reader.data| >= 424 ==> forall k | 0 <= k < |conditions| ::
        conditions[k] == ConditionAt(reader.data, k)
    {
      var condition :- reader.ReadCondition(i);
      if i < count {
        conditions := conditions + [condition];
      }
    }
    r := Ok(conditions);
  }

  method ReadText(reader: LittleEndianReader, frame: Frame) returns (r: Result<Frame>)
    requires reader.offset == 488 && |reader.data| >= 488
    modifies reader
    ensures var d := reader.data;
      if |d| < 490 then r == Err(TruncatedPayload)
      else if U16At(d, 488) > 63 then r == Err(InvalidTextLength)
      else var end := 490 + U16At(d, 488) as int;
        if |d| < end then r == Err(TruncatedPayload)
        else if !WellFormed(d[490..end]) then r == Err(InvalidText)
        else if |d| == end + 4 then r == Ok(frame.(text := d[490..end],
               effectKind := KnownKind(U16At(d, end)), effectCommand := KnownCommand(U16At(d, end + 2))))
        else if |d| != end then r == Err(InvalidTrailingPayload)
        else r == Ok(frame.(text := d[490..end]))
  {
    var textLength :- reader.ReadUInt16();
    if textLength > 63 {
      return Err(InvalidTextLength);
    }
    var text :- reader.ReadBytes(textLength);
    if !WellFormed(text) {
      return Err(InvalidText);
    }
    var whole := frame.(text := text);
    var remaining := |reader.data| - reader.offset;
    if remaining == 4 {
      var kind := reader.ReadUInt16();
      var command := reader.ReadUInt16();
      whole := whole.(effectKind := KnownKind(kind.value), effectCommand := KnownCommand(command.value));
    } else if remaining != 0 {
      return Err(InvalidTrailingPayload);
    }
    r := Ok(whole);
  }

  method ReadLists(reader: LittleEndianReader, base: Frame) returns (r: Result<Frame>)
    requires reader.offset == 152 && |reader.data| >= 152
    modifies reader
    ensures var d := reader.data;
      if |d| < 156 then r == Err(TruncatedPayload)
      else if Word(d, 30) > MAX_AXES then r == Err(AxisCountExceeded)
      else if |d| < 224 then r == Err(TruncatedPayload)
      else if Word(d, 47) > MAX_AXES then r == Err(ConditionCountExceeded)
      else if |d| < 424 then r == Err(TruncatedPayload)
      else if Word(d, 97) > 1 then r == Err(InvalidRedactionFlag)
      else reader.offset == 424 && r == Ok(base.(
        axes := SignedWordsAt(d, 31, Word(d, 30)), directions := SignedWordsAt(d, 39, Word(d, 30)),
        conditions := ConditionsAt(d, Word(d, 47)), typeSpecificSize := Word(d, 96),
        customRedacted := Word(d, 97) != 0))
  {
    var axisCount :- reader.ReadUInt32();
    if axisCount > MAX_AXES {
      return Err(AxisCountExceeded);
    }
    var axes :- reader.ReadInt32Array(MAX_AXES, 31);
    var directions :- reader.ReadInt32Array(MAX_AXES, 39);
    var conditionCount :- reader.ReadUInt32();
    if conditionCount > MAX_AXES {
      return Err(ConditionCountExceeded);
    }
    var conditions :- ReadConditions(reader, conditionCount);
    var typeSpecificSize :- reader.ReadUInt32();
    var redacted :- reader.ReadUInt32();
    if redacted > 1 {
      return Err(InvalidRedactionFlag);
    }
    assert axes[..axisCount] == SignedWordsAt(reader.data, 31, axisCount);
    assert directions[..axisCount] == SignedWordsAt(reader.data, 39, axisCount);
    r := Ok(base.(axes := axes[..axisCount], directions := directions[..axisCount], conditions := conditions,
                  typeSpecificSize := typeSpecificSize, customRedacted := redacted == 1));
  }

  method ReadNames(reader: LittleEndianReader, frame: Frame) returns (r: Result<Frame>)
    requires reader.offset == 424 && |reader.data| >= 424
    modifies reader
    ensures var d := reader.data;
      if |d| < 456 then r == Err(TruncatedPayload)
      else if !WellFormed(CString(d[424..456])) then r == Err(InvalidText)
      else if |d| < 488 then r == Err(TruncatedPayload)
      else if !WellFormed(CString(d[456..488])) then r == Err(InvalidText)
      else (reader.offset == 488
            && r == Ok(frame.(buildVersion := CString(d[424..456]), sessionId := CString(d[456..488]))))
  {
    var build :- reader.ReadBytes(32);
    var buildVersion := CString(build);
    if !WellFormed(buildVersion) {
      return Err(InvalidText);
    }
    var session :- reader.ReadBytes(32);
    var sessionId := CString(session);
    if !WellFormed(sessionId) {
      return Err(InvalidText);
    }
    r := Ok(frame.(buildVersion := buildVersion, sessionId := sessionId));
  }

  method ReadPayload(reader: LittleEndianReader, messageType: u16, flags: u32,
      presence: Presence) returns (r: Result<Frame>)
    requires reader.offset == 16 && |reader.data| >= 32
    requires messageType == U16At(reader.data, 6) && flags == U32At(reader.data, 12)
    modifies reader
    ensures r == DecodeFields(reader.data, presence)
  {
    var base :- ReadBase(reader, messageType, flags, presence);
    var lists :- ReadLists(reader, base);
    var names :- ReadNames(reader, lists);
    r := ReadText(reader, names);
  }

  lemma MagicIs(data: seq<byte>)
    requires |data| >= 4
    ensures data[..4] == MAGIC
      <==> data[0] == 'F' as int && data[1] == 'F' as int && data[2] == 'B' as int && data[3] == '1' as int
  {
  }

  /** Decodes one frame, or reports the first check it fails. */
  method DecodeFrame(data: seq<byte>) returns (r: Result<Frame>)
    ensures r == Decode(data)
  {
    hide U16At, U32At, DecodeFields;
    if |data| < HEADER_SIZE {
      return Err(TruncatedHeader);
    }
    MagicIs(data);
    if data[0] != 'F' as int || data[1] != 'F' as int || data[2] != 'B' as int || data[3] != '1' as int {
      return Err(BadMagic);
    }
    var reader := new LittleEndianReader(data);
    var _ := reader.Skip(4);
    var version := reader.ReadUInt16();
    if version.value != VERSION {
      return Err(UnsupportedVersion);
    }
    var messageType := reader.ReadUInt16();
    if messageType.value < HELLO || messageType.value > DROP_NOTICE {
      return Err(UnknownMessageType);
    }
    var frameSize := reader.ReadUInt32();
    if frameSize.value < HEADER_SIZE || frameSize.value > MAX_FRAME_SIZE || frameSize.value != |data| {
      return Err(InvalidFrameSize);
    }
    var flags := reader.ReadUInt32();
    var presence := Unknown;
    if messageType.value == EFFECT_CREATED {
      var bits := PresenceBits(flags.value);
      if bits == 1 {
        presence := Absent;
      } else if bits == 2 {
        presence := Present;
      } else if bits != 0 {
        return Err(InvalidPresenceFlags);
      }
    }
    r := ReadPayload(reader, messageType.value, flags.value, presence);
  }
}
