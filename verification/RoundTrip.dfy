/** What the two ends of the pipe agree on. */
module RoundTrip {
  import opened Bytes
  import opened Utf8
  import opened Protocol

  /** Every event the producer can build: its counts are bounded and its text is well formed. */
  predicate Producible(e: Event) {
    && Shaped(e)
    && HELLO <= e.messageType <= DROP_NOTICE && e.effectKind <= CUSTOM
    && (e.command == 0 || DOWNLOAD <= e.command <= RELEASE)
    && e.axisCount <= MAX_AXES && e.conditionCount <= MAX_AXES
    && WellFormed(CString(e.buildVersion)) && WellFormed(CString(e.sessionId))
    && WellFormed(WireText(e))
  }

  /** The frame a consumer must see for an event. */
  function Expected(e: Event): Frame
    requires Shaped(e) && e.axisCount <= MAX_AXES && e.conditionCount <= MAX_AXES
  {
    Frame(e.messageType, WireFlags(e), e.sequence, e.qpcTicks,
          e.processId, e.qpcFrequency, e.deviceId, e.effectId, e.effectGuid,
          e.hresult, e.diFlags, e.duration, e.samplePeriod, e.gain, e.startDelay,
          e.triggerButton, e.triggerRepeat, e.iterations,
          e.attackLevel, e.attackTime, e.fadeLevel, e.fadeTime,
          e.propertyId, e.dropped, e.magnitude, e.rampStart, e.rampEnd,
          e.periodicMagnitude, e.periodicOffset, e.periodicPhase, e.periodicPeriod,
          e.axes[..e.axisCount], e.directions[..e.axisCount], e.conditions[..e.conditionCount],
          e.typeSpecificSize, e.customRedacted,
          CString(e.buildVersion), CString(e.sessionId), WireText(e),
          e.effectKind, e.command,
          if e.messageType == EFFECT_CREATED then e.presence else Unknown)
  }

  lemma HeaderParts(messageType: u16, size: u32, flags: u32, rest: seq<byte>)
    ensures var d := MAGIC + Le16(VERSION) + Le16(messageType) + Le32(size) + Le32(flags) + rest;
      && d[..4] == MAGIC && U16At(d, 4) == VERSION && U16At(d, 6) == messageType
      && U32At(d, 8) == size && U32At(d, 12) == flags
  {
    var v, t, s, f := Le16(VERSION), Le16(messageType), Le32(size), Le32(flags);
    var d := MAGIC + v + t + s + f + rest;
    U16Written(MAGIC, VERSION, t + s + f + rest);
    assert d == MAGIC + v + (t + s + f + rest);
    U16Written(MAGIC + v, messageType, s + f + rest);
    assert d == (MAGIC + v) + t + (s + f + rest);
    U32Written(MAGIC + v + t, size, f + rest);
    assert d == (MAGIC + v + t) + s + (f + rest);
    U32Written(MAGIC + v + t + s, flags, rest);
  }

  lemma CounterParts(front: seq<byte>, sequence: u64, ticks: u64, rest: seq<byte>)
    ensures var d := front + Le64(sequence) + Le64(ticks) + rest;
      && U64At(d, |front|) == sequence && U64At(d, |front| + 8) == ticks
  {
    var d := front + Le64(sequence) + Le64(ticks) + rest;
    U64Written(front, sequence, Le64(ticks) + rest);
    assert d == front + Le64(sequence) + (Le64(ticks) + rest);
    U64Written(front + Le64(sequence), ticks, rest);
  }

  lemma HeaderReads(e: Event)
    requires Shaped(e)
    ensures var d := Wire(e);
      && d[..4] == MAGIC && U16At(d, 4) == VERSION && U16At(d, 6) == e.messageType
      && U32At(d, 8) == |d| && U32At(d, 12) == WireFlags(e)
      && U64At(d, 16) == e.sequence && U64At(d, 24) == e.qpcTicks
  {
    var p := Payload(e);
    var size: u32 := HEADER_SIZE + |p|;
    var counters := Le64(e.sequence) + Le64(e.qpcTicks) + p;
    HeaderParts(e.messageType, size, WireFlags(e), counters);
    var front := MAGIC + Le16(VERSION) + Le16(e.messageType) + Le32(size) + Le32(WireFlags(e));
    assert Wire(e) == front + counters;
    CounterParts(front, e.sequence, e.qpcTicks, p);
    assert Wire(e) == front + Le64(e.sequence) + Le64(e.qpcTicks) + p;
  }

  lemma WordReads(e: Event, j: nat)
    requires Shaped(e) && (j < 4 || 8 <= j < 98)
    ensures Word(Wire(e), j) == if j < 4 then HeadWords(e)[j] else TailWords(e)[j - 8]
  {
    hide HeadWords, TailWords, Strings, Header;
    var d := Wire(e);
    var h := Header(e, HEADER_SIZE + |Payload(e)|);
    var head, tail := WordBytes(HeadWords(e)), WordBytes(TailWords(e));
    if j < 4 {
      WordWritten(h, HeadWords(e), e.effectGuid + tail + Strings(e), j);
      assert d == h + head + (e.effectGuid + tail + Strings(e));
    } else {
      WordWritten(h + head + e.effectGuid, TailWords(e), Strings(e), j - 8);
      assert d == (h + head + e.effectGuid) + tail + Strings(e);
    }
  }

  lemma BytesRead(e: Event)
    requires Shaped(e)
    ensures var d, n := Wire(e), |WireText(e)|;
      && d[48..64] == e.effectGuid && d[424..456] == e.buildVersion && d[456..488] == e.sessionId
      && U16At(d, 488) == n && d[490..490 + n] == WireText(e)
      && U16At(d, 490 + n) == e.effectKind && U16At(d, 492 + n) == e.command
  {
    hide HeadWords, TailWords, WireText, Header;
    var d, t := Wire(e), WireText(e);
    var front := Header(e, HEADER_SIZE + |Payload(e)|) + WordBytes(HeadWords(e)) + e.effectGuid
                 + WordBytes(TailWords(e));
    var n, k, c := Le16(|t|), Le16(e.effectKind), Le16(e.command);
    assert d == front + Strings(e);
    assert d[48..64] == e.effectGuid;
    var names := front + e.buildVersion + e.sessionId;
    U16Written(names, |t|, t + k + c);
    assert d == names + n + (t + k + c);
    U16Written(names + n + t, e.effectKind, c);
    assert d == (names + n + t) + k + c;
    U16Written(names + n + t + k, e.command, []);
    assert d == (names + n + t + k) + c + [];
    assert d[424..456] == e.buildVersion;
    assert d[456..488] == e.sessionId;
  }

  lemma {:induction false} ConditionsWordsAt(cs: seq<Condition>, i: nat)
    requires i < |cs|
    ensures ConditionsWords(cs)[6 * i..6 * i + 6] == ConditionWords(cs[i])
  {
    var rest := ConditionsWords(cs[1..]);
    if i == 0 {
    } else {
      ConditionsWordsAt(cs[1..], i - 1);
      assert ConditionsWords(cs)[6 * i..6 * i + 6] == rest[6 * (i - 1)..6 * (i - 1) + 6];
    }
  }

  lemma ConditionReads(e: Event, i: nat)
    requires Shaped(e) && i < MAX_AXES
    ensures ConditionAt(Wire(e), i) == e.conditions[i]
  {
    hide Wire, HeadWords, ConditionsWords;
    ConditionsWordsAt(e.conditions, i);
    var words := ConditionWords(e.conditions[i]);
    forall k | 0 <= k < 6
      ensures Word(Wire(e), 48 + 6 * i + k) == words[k]
    {
      WordReads(e, 48 + 6 * i + k);
      assert ConditionsWords(e.conditions)[6 * i + k] == ConditionsWords(e.conditions)[6 * i..6 * i + 6][k];
    }
    assert Word(Wire(e), 48 + 6 * i + 0) == words[0];
    assert Word(Wire(e), 48 + 6 * i + 1) == words[1];
    assert Word(Wire(e), 48 + 6 * i + 2) == words[2];
    assert Word(Wire(e), 48 + 6 * i + 3) == words[3];
    assert Word(Wire(e), 48 + 6 * i + 4) == words[4];
    assert Word(Wire(e), 48 + 6 * i + 5) == words[5];
  }

  lemma TailReads(e: Event)
    requires Shaped(e)
    ensures var d := Wire(e);
      && (forall k | 8 <= k < 30 :: Word(d, k) == ScalarWords(e)[k - 8])
      && Word(d, 30) == e.axisCount
      && (forall k | 31 <= k < 39 :: Word(d, k) == ToWord(e.axes[k - 31]))
      && (forall k | 39 <= k < 47 :: Word(d, k) == ToWord(e.directions[k - 39]))
      && Word(d, 47) == e.conditionCount
      && Word(d, 96) == e.typeSpecificSize && Word(d, 97) == RedactionWord(e)
  {
    forall k | 8 <= k < 98
      ensures Word(Wire(e), k) == TailWords(e)[k - 8]
    {
      WordReads(e, k);
    }
  }

  lemma AxesRead(e: Event)
    requires Shaped(e) && e.axisCount <= MAX_AXES
    ensures SignedWordsAt(Wire(e), 31, e.axisCount) == e.axes[..e.axisCount]
    ensures SignedWordsAt(Wire(e), 39, e.axisCount) == e.directions[..e.axisCount]
  {
    TailReads(e);
    forall i: nat | i < e.axisCount
      ensures SignedWordsAt(Wire(e), 31, e.axisCount)[i] == e.axes[i]
      ensures SignedWordsAt(Wire(e), 39, e.axisCount)[i] == e.directions[i]
    {
      assert Word(Wire(e), 31 + i) == ToWord(e.axes[31 + i - 31]);
      assert Word(Wire(e), 39 + i) == ToWord(e.directions[39 + i - 39]);
    }
  }

  /** The fields of a frame that are single payload words. */
  lemma ScalarsRead(e: Event, d: seq<byte>)
    requires |d| >= 424
    requires forall k | 0 <= k < 4 :: Word(d, k) == HeadWords(e)[k]
    requires forall k | 8 <= k < 30 :: Word(d, k) == ScalarWords(e)[k - 8]
    ensures
      && Word(d, 0) == e.processId && Word(d, 1) == e.qpcFrequency
      && Word(d, 2) == e.deviceId && Word(d, 3) == e.effectId
      && FromWord(Word(d, 8)) == e.hresult && Word(d, 9) == e.diFlags && Word(d, 10) == e.duration
      && Word(d, 11) == e.samplePeriod && Word(d, 12) == e.gain && Word(d, 13) == e.startDelay
      && Word(d, 14) == e.triggerButton && Word(d, 15) == e.triggerRepeat && Word(d, 16) == e.iterations
      && Word(d, 17) == e.attackLevel && Word(d, 18) == e.attackTime && Word(d, 19) == e.fadeLevel
      && Word(d, 20) == e.fadeTime && Word(d, 21) == e.propertyId && Word(d, 22) == e.dropped
      && FromWord(Word(d, 23)) == e.magnitude && FromWord(Word(d, 24)) == e.rampStart
      && FromWord(Word(d, 25)) == e.rampEnd && FromWord(Word(d, 26)) == e.periodicMagnitude
      && FromWord(Word(d, 27)) == e.periodicOffset && FromWord(Word(d, 28)) == e.periodicPhase
      && FromWord(Word(d, 29)) == e.periodicPeriod
  {
    var w := ScalarWords(e);
    assert w[0] == ToWord(e.hresult) && w[1] == e.diFlags && w[2] == e.duration && w[3] == e.samplePeriod;
    assert w[4] == e.gain && w[5] == e.startDelay && w[6] == e.triggerButton && w[7] == e.triggerRepeat;
    assert w[8] == e.iterations && w[9] == e.attackLevel && w[10] == e.attackTime && w[11] == e.fadeLevel;
    assert w[12] == e.fadeTime && w[13] == e.propertyId && w[14] == e.dropped && w[15] == ToWord(e.magnitude);
    assert w[16] == ToWord(e.rampStart) && w[17] == ToWord(e.rampEnd) && w[18] == ToWord(e.periodicMagnitude);
    assert w[19] == ToWord(e.periodicOffset) && w[20] == ToWord(e.periodicPhase) && w[21] == ToWord(e.periodicPeriod);
  }

  lemma FieldsRead(e: Event, kind: u16, command: u16, presence: Presence)
    requires Shaped(e) && e.axisCount <= MAX_AXES && e.conditionCount <= MAX_AXES
    ensures Word(Wire(e), 30) == e.axisCount && Word(Wire(e), 47) == e.conditionCount
    ensures Word(Wire(e), 97) == RedactionWord(e)
    ensures FrameAt(Wire(e), |WireText(e)|, kind, command, presence)
         == Expected(e).(effectKind := kind, effectCommand := command, presence := presence)
  {
    var d := Wire(e);
    HeaderReads(e);
    BytesRead(e);
    forall k | 0 <= k < 4
      ensures Word(d, k) == HeadWords(e)[k]
    {
      WordReads(e, k);
    }
    TailReads(e);
    ScalarsRead(e, d);
    AxesRead(e);
    forall i | 0 <= i < MAX_AXES
      ensures ConditionAt(d, i) == e.conditions[i]
    {
      ConditionReads(e, i);
    }
    assert ConditionsAt(d, e.conditionCount) == e.conditions[..e.conditionCount];
  }

  lemma PresenceReads(e: Event)
    ensures PresenceOf(e.messageType, WireFlags(e))
         == Ok(if e.messageType == EFFECT_CREATED then e.presence else Unknown)
  {
  }

  // The decoder's checks, passed one group at a time.
  lemma StringsAccepted(data: seq<byte>, textLength: u16, presence: Presence)
    requires textLength <= 63 && |data| == 494 + textLength as int
    requires Word(data, 30) <= MAX_AXES && Word(data, 47) <= MAX_AXES
    requires WellFormed(CString(data[424..456])) && WellFormed(CString(data[456..488]))
    requires U16At(data, 488) == textLength && WellFormed(data[490..490 + textLength as int])
    ensures DecodeStrings(data, presence)
         == Ok(FrameAt(data, textLength, KnownKind(U16At(data, 490 + textLength as int)),
                       KnownCommand(U16At(data, 492 + textLength as int)), presence))
  {
  }

  lemma FrameAccepted(data: seq<byte>, textLength: u16, presence: Presence)
    requires textLength <= 63 && |data| == 494 + textLength as int
    requires HeaderError(data).None? && HELLO <= U16At(data, 6) <= DROP_NOTICE && U32At(data, 8) == |data|
    requires PresenceOf(U16At(data, 6), U32At(data, 12)) == Ok(presence)
    requires Word(data, 30) <= MAX_AXES && Word(data, 47) <= MAX_AXES && Word(data, 97) <= 1
    requires WellFormed(CString(data[424..456])) && WellFormed(CString(data[456..488]))
    requires U16At(data, 488) == textLength && WellFormed(data[490..490 + textLength as int])
    ensures Decode(data)
         == Ok(FrameAt(data, textLength, KnownKind(U16At(data, 490 + textLength as int)),
                       KnownCommand(U16At(data, 492 + textLength as int)), presence))
  {
    StringsAccepted(data, textLength, presence);
    assert DecodeFields(data, presence) == DecodeStrings(data, presence);
  }

  /** The strict decoder accepts every producible event and gives back every field. */
  lemma RoundTrips(e: Event)
    requires Producible(e)
    ensures |Wire(e)| <= MAX_FRAME_SIZE
    ensures Decode(Wire(e)) == Ok(Expected(e))
  {
    var presence := if e.messageType == EFFECT_CREATED then e.presence else Unknown;
    HeaderReads(e);
    BytesRead(e);
    PresenceReads(e);
    FieldsRead(e, e.effectKind, e.command, presence);
    FrameAccepted(Wire(e), |WireText(e)|, presence);
  }

  /**
   The exact difference between the decoders: C# accepts a frame if and only if
   Python does and the frame passes the five checks that only C# makes.
   */
  lemma CSharpIsStricter(data: seq<byte>)
    ensures Decode(data).Ok? <==>
      && PyDecode(data).Ok?
      && HELLO <= U16At(data, 6) <= DROP_NOTICE
      && PresenceOf(U16At(data, 6), U32At(data, 12)).Ok?
      && Word(data, 97) <= 1
      && WellFormed(CString(data[424..456])) && WellFormed(CString(data[456..488]))
      && WellFormed(data[490..490 + U16At(data, 488) as int])
  {
  }

  /** What C# accepts, Python accepts with the same fields, up to undefined kinds and commands. */
  lemma PythonAgrees(data: seq<byte>)
    requires Decode(data).Ok?
    ensures PyDecode(data).Ok?
    ensures var c, p := Decode(data).value, PyDecode(data).value;
      && c == p.(effectKind := c.effectKind, effectCommand := c.effectCommand, presence := c.presence)
      && c.effectKind == KnownKind(p.effectKind) && c.effectCommand == KnownCommand(p.effectCommand)
  {
    hide HeaderError, PresenceOf, WellFormed, CString, ConditionsAt, SignedWordsAt, U16At, U32At, U64At, Word;
  }
}
