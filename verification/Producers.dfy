/**
 The events as the wrappers and the sinks build them: every one of them meets what the wire
 asks of an event, whatever the game passes and whatever the names are.
 */
module Producers {
  import opened Bytes
  import opened Utf8
  import opened Protocol
  import opened RoundTrip
  import opened Capture
  import opened Receiver

  /** A value-initialised event. */
  function Blank(): Event {
    Event(DROP_NOTICE, UNKNOWN_KIND, Presence.Unknown, 0, 0, 0, 0, 0, 0, 0, Zeros(16), 0, 0, 0, 0, 0, 0, 0, 0, 0, 0,
      0, 0, 0, 0, 0, 0,
          0, 0, 0, 0, 0, 0, 0, 0, Zeros(8), Zeros(8), 0, seq(8, _ => Condition(0, 0, 0, 0, 0, 0)), 0, false,
          Zeros(32), Zeros(32), Zeros(64))
  }

  /** The calls of the game that are told, with what the real device answered. */
  datatype Emission =
    | DeviceCreated(name: seq<byte>)
    | PropertyChanged(property: u32, gain: u32)
    | DeviceCommanded(action: u32)
    | EffectCreated(kind: u16, effect: Option<DiEffect>)
    | ParametersChanged(kind: u16, flags: u32, effect: Option<DiEffect>)
    | EffectCommanded(kind: u16, command: u16, flags: u32, iterations: u32)

  // What the source's own types and the text conversions of Windows guarantee.
  predicate Possible(m: Emission) {
    match m
    case DeviceCreated(name) => WellFormed(name)
    case PropertyChanged(property, _) => 1 <= property <= 2
    case DeviceCommanded(_) => true
    case EffectCreated(kind, _) => kind <= CUSTOM
    case ParametersChanged(kind, _, _) => kind <= CUSTOM
    case EffectCommanded(kind, command, _, _) => kind <= CUSTOM && DOWNLOAD <= command <= RELEASE
  }

  /** The event before the game's parameters are copied into it. */
  function Started(m: Emission): Event {
    match m
    case DeviceCreated(name) => Blank().(messageType := DEVICE_CREATED, text := NameField(name, 64))
    case PropertyChanged(property, gain) =>
      Blank().(messageType := DEVICE_PROPERTY_CHANGED, propertyId := property, gain := gain)
    case DeviceCommanded(action) => Blank().(messageType := DEVICE_COMMAND, diFlags := action)
    case EffectCreated(kind, effect) =>
      Blank().(messageType := EFFECT_CREATED, effectKind := kind, presence := if effect.Some? then Present else Absent)
    case ParametersChanged(kind, flags, _) =>
      Blank().(messageType := EFFECT_PARAMETERS_CHANGED, effectKind := kind, flags := flags)
    case EffectCommanded(kind, command, flags, iterations) =>
      Blank().(messageType := EFFECT_COMMAND, effectKind := kind, command := command, flags := flags,
               iterations := iterations)
  }

  /**
   What only passes through: process, device, effect, the device's answer, the time stamp, and the
   structure sizes.
   */
  datatype Address = Address(
    processId: u32, deviceId: u32, effectId: u32, guid: seq<byte>, hresult: i32, ticks: u64, layout: Layout)

  function Addressed(m: Emission, a: Address): (e: Event)
    requires |a.guid| == 16
    ensures Shaped(e) && e.axisCount == 0 && e.conditionCount == 0
  {
    hide Kept;
    Started(m).(processId := a.processId, deviceId := a.deviceId, effectId := a.effectId, effectGuid := a.guid,
                hresult := a.hresult, qpcTicks := a.ticks)
  }

  function Parameters(m: Emission): Option<DiEffect> {
    match m
    case EffectCreated(_, effect) => effect
    case ParametersChanged(_, _, effect) => effect
    case _ => None
  }

  /** e is what the wrapper hands to the sinks for a call. */
  predicate Emits(m: Emission, a: Address, e: Event) {
    |a.guid| == 16 && Possible(m) && Copied(Addressed(m, a), Parameters(m), a.layout, e)
  }

  /** An event as the wrappers emit it. */
  predicate Emittable(e: Event, processId: u32) {
    Producible(e) && e.processId == processId && e.messageType != HELLO && e.messageType != DROP_NOTICE
  }

  /** The greeting as the sink prepares it. */
  predicate Greets(e: Event) {
    Producible(e) && e.messageType == HELLO && SafeSessionId(CString(e.sessionId))
  }

  lemma ZerosRead(n: nat)
    requires n > 0
    ensures CString(Zeros(n)) == [] && WellFormed(CString(Zeros(n)))
  {
    assert Zeros(n)[0] == 0;
  }

  lemma BlankTexts()
    ensures WellFormed(CString(Blank().buildVersion)) && WellFormed(CString(Blank().sessionId))
      && WellFormed(CString(Blank().text[..63]))
    ensures CString(Zeros(32)) == []
  {
    hide CString, WellFormed;
    ZerosRead(32);
    ZerosRead(63);
    assert Zeros(64)[..63] == Zeros(63);
  }

  lemma StartedTexts(m: Emission)
    requires Possible(m)
    ensures var e := Started(m);
      && e.buildVersion == e.sessionId == Zeros(32) && WellFormed(CString(Zeros(32))) && |e.text| == 64
        && WellFormed(CString(e.text[..63]))
      && HELLO < e.messageType < DROP_NOTICE && e.effectKind <= CUSTOM
        && (e.command == 0 || DOWNLOAD <= e.command <= RELEASE)
  {
    hide CString, WellFormed, NameField;
    BlankTexts();
    if m.DeviceCreated? {
      FieldWellFormed(m.name, 64);
    }
  }

  /** Whatever the game passes and whatever the device is called, the event can be sent and is not a sink's own. */
  lemma EmittedIsEmittable(m: Emission, a: Address, e: Event)
    requires Emits(m, a, e)
    ensures Emittable(e, a.processId)
  {
    hide CString, WellFormed, Captured, Readable, Started;
    StartedTexts(m);
    assert Addressed(m, a).text == Started(m).text && Addressed(m, a).buildVersion == Started(m).buildVersion;
  }

  /** Every call of the game that is told arrives at the strict decoder with every field. */
  lemma EmissionRoundTrips(m: Emission, a: Address, e: Event)
    requires Emits(m, a, e)
    ensures Shaped(e) && e.axisCount <= MAX_AXES && e.conditionCount <= MAX_AXES
    ensures |Wire(e)| <= MAX_FRAME_SIZE && Decode(Wire(e)) == Ok(Expected(e))
  {
    hide Wire, Decode, Expected, Emits, WellFormed, CString;
    EmittedIsEmittable(m, a, e);
    RoundTrips(e);
  }

  // ---------- The greeting ----------

  /** What one producer process is: its ids, its start time, its version and its program's file name. */
  datatype Origin = Origin(processId: u32, started: u64, frequency: u32, wide: bool, version: seq<byte>,
      program: seq<byte>)

  predicate Ascii(s: seq<byte>) { forall i | 0 <= i < |s| :: 0 < s[i] < 0x80 }

  predicate Genuine(o: Origin) { Ascii(o.version) && WellFormed(o.program) }

  function SessionId(o: Origin): seq<byte> { Digits(o.processId) + ['-' as int] + Digits(o.started) }

  function GreetingOf(o: Origin): Event {
    Blank().(messageType := HELLO, processId := o.processId, qpcFrequency := o.frequency,
             flags := if o.wide then 64 else 32, buildVersion := NameField(o.version, 32),
             sessionId := NameField(SessionId(o), 32), text := NameField(o.program, 64))
  }

  lemma GreetingTexts(o: Origin)
    requires Genuine(o)
    ensures WellFormed(CString(NameField(o.version, 32))) && WellFormed(CString(NameField(o.program, 64)[..63]))
    ensures CString(NameField(SessionId(o), 32)) == SessionId(o) && WellFormed(SessionId(o))
      && SafeSessionId(SessionId(o))
  {
    hide CString, WellFormed, NameField, Digits, Power;
    AsciiWellFormed(o.version);
    FieldWellFormed(o.version, 32);
    FieldWellFormed(o.program, 64);
    SessionIdIsSafe(o.processId, o.started);
    SafeIsAscii(SessionId(o));
    AsciiWellFormed(SessionId(o));
    FieldReads(SessionId(o), 32);
  }

  lemma SafeIsAscii(id: seq<byte>)
    requires SafeSessionId(id)
    ensures Ascii(id) && |id| < 32
  {
  }

  /** The greeting a sink prepares can be sent, and its session id is one the server accepts. */
  lemma GreetingIsGreeting(o: Origin)
    requires Genuine(o)
    ensures Greets(GreetingOf(o)) && GreetingOf(o).processId == o.processId
      && CString(GreetingOf(o).sessionId) == SessionId(o)
  {
    hide CString, WellFormed, SafeSessionId, Digits, Kept, SessionId;
    GreetingTexts(o);
  }
}
