/**
 One telemetry source as the detector tracks it, as a value: its devices, effects,
 levels and reliability, and what each frame and each tick does to it.
 */
module Sources {
  import opened Bytes
  import opened Protocol
  import opened Effects
  import opened PauseClock
  import opened Settings
  import opened Hysteresis
  import opened Mixer

  const MAX_DEVICES := 64
  const MAX_EFFECTS := 1024

  // Flag bits, by weight.
  const DIEP_DURATION := 0x1
  const DIEP_GAIN := 0x4
  const DIEP_TRIGGER_BUTTON := 0x8
  const DIEP_TRIGGER_REPEAT := 0x10
  const DIEP_ENVELOPE := 0x80
  const DIEP_TYPE_SPECIFIC := 0x100
  const DIEP_START_DELAY := 0x200
  const DIEP_START := 0x2000_0000
  const DIES_SOLO := 0x1
  const DI_EFFECT_RESTARTED := 0x4
  const DISFFC_RESET := 0x1
  const DISFFC_STOP_ALL := 0x2
  const DISFFC_PAUSE := 0x4
  const DISFFC_CONTINUE := 0x8
  const DISFFC_ACTUATORS_ON := 0x10
  const DISFFC_ACTUATORS_OFF := 0x20

  type Guid = nat

  datatype SourceKey = SourceKey(processId: u32, sessionId: seq<byte>)
  datatype Identity = Identity(key: SourceKey, processName: seq<byte>, buildVersion: seq<byte>, bitness: u32)

  // The reliability issues that stay until the source is forgotten.
  datatype Issues = Issues(frameGap: bool, reconnect: bool, capacity: bool)

  datatype Levels = Levels(
    selected: Selected, unclamped: real, combined: real, combinedEffective: real,
    peakCommand: real, peakCombined: real, peakUnclamped: real,
    active: nat, unsupported: nat, triggers: nat)

  // Refused insertions and reported drops, as saturating 64-bit counters.
  datatype Losses = Losses(frames: u64, devices: u64, effects: u64)

  datatype Source = Source(
    identity: Identity, connections: set<Guid>, lastActivity: real,
    effects: map<EffectKey, Effect>, devices: map<u32, Device>,
    levels: Levels, meter: Meter, losses: Losses, issues: Issues, lastKind: u16)

  predicate Bit(flags: int, weight: int)
    requires weight > 0
  {
    flags / weight % 2 == 1
  }

  function Increment(value: u64): u64 { if value == 0xFFFF_FFFF_FFFF_FFFF then value else value + 1 }

  function NewSource(identity: Identity): Source {
    Source(identity, {}, 0.0, map[], map[], Levels(NOTHING, 0.0, 0.0, 0.0, 0.0, 0.0, 0.0, 0, 0, 0),
           NewMeter(), Losses(0, 0, 0), Issues(false, false, false), UNKNOWN_KIND)
  }

  predicate Connected(s: Source) { s.connections != {} }

  predicate StateReliable(s: Source) { s.issues == Issues(false, false, false) }

  predicate EstimateReliable(s: Source) { StateReliable(s) && s.levels.triggers == 0 }

  // ---------- The device and effect tables ----------

  const NEW_DEVICE := Device(1.0, false, 0.0, true)

  function DeviceDrop(s: Source): Source {
    s.(losses := s.losses.(devices := Increment(s.losses.devices)), issues := s.issues.(capacity := true))
  }

  function EffectDrop(s: Source): Source {
    s.(losses := s.losses.(effects := Increment(s.losses.effects)), issues := s.issues.(capacity := true))
  }

  /** The source with the device in its table; when the table is full the refusal is recorded instead. */
  function WithDevice(s: Source, deviceId: u32): Source {
    if deviceId in s.devices then s
    else if |s.devices| >= MAX_DEVICES then DeviceDrop(s)
    else s.(devices := s.devices[deviceId := NEW_DEVICE])
  }

  /** Room for an effect and its device, or the refusals recorded. */
  function WithRoom(s: Source, key: EffectKey): Source {
    if key !in s.effects && |s.effects| >= MAX_EFFECTS then EffectDrop(s)
    else
      var d := WithDevice(s, key.deviceId);
      if key.deviceId in d.devices then d else EffectDrop(d)
  }

  predicate HasRoom(s: Source, key: EffectKey) {
    && (key in s.effects || |s.effects| < MAX_EFFECTS)
    && key.deviceId in WithDevice(s, key.deviceId).devices
  }

  function PutEffect(s: Source, key: EffectKey,
      e: Effect): Source { s.(effects := s.effects[key := e], lastKind := e.kind) }

  // ---------- Frames ----------

  function ForceOf(f: Frame): Force {
    Force(f.magnitude, f.rampStart, f.rampEnd, f.periodicMagnitude, f.periodicOffset, f.periodicPhase,
      ToWord(f.periodicPeriod))
  }

  function EnvelopeOf(f: Frame): Envelope { Envelope(f.attackLevel, f.attackTime, f.fadeLevel, f.fadeTime) }

  function KeyOf(f: Frame): EffectKey { EffectKey(f.deviceId, f.effectId) }

  function CreatedEffect(f: Frame): Effect {
    var e := NewEffect(f.deviceId, f.effectId).(kind := f.effectKind);
    if f.presence.Absent? then e
    else
      e.(gain := NormalizeUnsigned(f.gain),
         schedule := UpdateSchedule(e.schedule, Some(f.duration), Some(f.startDelay)),
         force := ForceOf(f), triggerButton := f.triggerButton, triggerRepeat := f.triggerRepeat,
           envelope := EnvelopeOf(f))
  }

  function ApplyEffectCreated(s: Source, f: Frame): Source {
    if f.effectId == 0 then s
    else if !HasRoom(s, KeyOf(f)) then WithRoom(s, KeyOf(f))
    else PutEffect(WithRoom(s, KeyOf(f)), KeyOf(f), CreatedEffect(f))
  }

  function Given<T>(flags: u32, weight: int, value: T): Option<T>
    requires weight > 0
  {
    if Bit(flags, weight) then Some(value) else None
  }

  /** The schedule after a parameter frame: the update, a start and a restart. */
  function UpdatedSchedule(e: Effect, f: Frame, paused: bool, now: real): Schedule {
    var updated := UpdatePlayback(e.schedule, paused,
      Given(f.flags, DIEP_DURATION, f.duration), Given(f.flags, DIEP_START_DELAY, f.startDelay), now);
    var started := if Bit(f.flags, DIEP_START) then Begin(updated, now, 1) else updated;
    if Bit(f.hresult, DI_EFFECT_RESTARTED) then Begin(started, now, started.iterations) else started
  }

  function UpdatedFields(e: Effect, f: Frame): Effect {
    e.(kind := if f.effectKind != UNKNOWN_KIND then f.effectKind else e.kind,
       gain := if Bit(f.flags, DIEP_GAIN) then NormalizeUnsigned(f.gain) else e.gain,
       force := if Bit(f.flags, DIEP_TYPE_SPECIFIC) then ForceOf(f) else e.force,
       triggerButton := if Bit(f.flags, DIEP_TRIGGER_BUTTON) then f.triggerButton else e.triggerButton,
       triggerRepeat := if Bit(f.flags, DIEP_TRIGGER_REPEAT) then f.triggerRepeat else e.triggerRepeat,
       envelope := if Bit(f.flags, DIEP_ENVELOPE) then EnvelopeOf(f) else e.envelope)
  }

  function UpdatedEffect(e: Effect, f: Frame, paused: bool, now: real): Effect {
    UpdatedFields(e, f).(schedule := UpdatedSchedule(e, f, paused, now))
  }

  function ApplyEffectParameters(s: Source, f: Frame, now: real): Source {
    var key := KeyOf(f);
    if f.effectId == 0 then s
    else if !HasRoom(s, key) then WithRoom(s, key)
    else
      var d := WithRoom(s, key);
      var e := if key in d.effects then d.effects[key] else NewEffect(f.deviceId, f.effectId);
      PutEffect(d, key, UpdatedEffect(e, f, d.devices[f.deviceId].paused, now))
  }

  function StopEffect(e: Effect): Effect { e.(schedule := StopSchedule(e.schedule)) }

  /** The effects, with those of a device stopped, but for one effect id. */
  function StopDevice(effects: map<EffectKey, Effect>, deviceId: u32, except: Option<u32>): map<EffectKey, Effect> {
    map k | k in effects ::
      if effects[k].deviceId == deviceId && except != Some(effects[k].effectId) then StopEffect(effects[k])
        else effects[k]
  }

  function Kinded(e: Effect, kind: u16): Effect { if kind != UNKNOWN_KIND then e.(kind := kind) else e }

  function StartEffect(effects: map<EffectKey, Effect>, f: Frame, now: real): map<EffectKey, Effect>
    requires KeyOf(f) in effects
  {
    var e := effects[KeyOf(f)];
    var quiet := if Bit(f.flags, DIES_SOLO) then StopDevice(effects, f.deviceId, Some(f.effectId)) else effects;
    quiet[KeyOf(f) := e.(schedule := Begin(e.schedule, now, f.iterations))]
  }

  /** A command to an effect in the table. */
  function CommandKnown(s: Source, f: Frame, now: real): Source
    requires KeyOf(f) in s.effects
  {
    var key := KeyOf(f);
    var e := Kinded(s.effects[key], f.effectKind);
    var k := PutEffect(s, key, e);
    if f.effectCommand == START then k.(effects := StartEffect(k.effects, f, now))
    else if f.effectCommand == STOP || f.effectCommand == UNLOAD then k.(effects := k.effects[key := StopEffect(e)])
    else if f.effectCommand == RELEASE then k.(effects := k.effects - {key})
    else k
  }

  function ApplyEffectCommand(s: Source, f: Frame, now: real): Source {
    var key := KeyOf(f);
    if key in s.effects then CommandKnown(s, f, now)
    else if f.effectCommand != START then s
    else if !HasRoom(s, key) then WithRoom(s, key)
    else
      var e := NewEffect(f.deviceId, f.effectId).(kind := f.effectKind);
      CommandKnown(WithRoom(s, key).(effects := s.effects[key := e]), f, now)
  }

  function ResumeDevice(effects: map<EffectKey, Effect>, deviceId: u32, pausedAt: real,
      now: real): map<EffectKey, Effect> {
    map k | k in effects ::
      if effects[k].deviceId == deviceId
      then effects[k].(schedule := ResumeAfterPause(effects[k].schedule, pausedAt, now)) else effects[k]
  }

  function PutDevice(s: Source, deviceId: u32, d: Device): Source { s.(devices := s.devices[deviceId := d]) }

  // The parts of a device command, in the order they are carried out.

  function ResetPart(s: Source, id: u32, command: u32): Source
    requires id in s.devices
  {
    if !Bit(command, DISFFC_RESET) then s
    else PutDevice(s.(effects := StopDevice(s.effects, id, None)), id,
      s.devices[id].(paused := false, actuatorsEnabled := false))
  }

  function StopPart(s: Source, id: u32, command: u32): Source
    requires id in s.devices
  {
    if !Bit(command, DISFFC_STOP_ALL) then s
    else PutDevice(s.(effects := StopDevice(s.effects, id, None)), id, s.devices[id].(paused := false))
  }

  function PausePart(s: Source, id: u32, command: u32, now: real): Source
    requires id in s.devices
  {
    if !Bit(command, DISFFC_PAUSE) || s.devices[id].paused then s
    else PutDevice(s, id, s.devices[id].(paused := true, pausedAt := now))
  }

  function ContinuePart(s: Source, id: u32, command: u32, now: real): Source
    requires id in s.devices
  {
    if !Bit(command, DISFFC_CONTINUE) || !s.devices[id].paused then s
    else
      PutDevice(s.(effects := ResumeDevice(s.effects, id, s.devices[id].pausedAt, now)), id,
        s.devices[id].(paused := false))
  }

  function ActuatorPart(s: Source, id: u32, command: u32): Source
    requires id in s.devices
  {
    var off := if Bit(command, DISFFC_ACTUATORS_OFF) then false else s.devices[id].actuatorsEnabled;
    PutDevice(s, id, s.devices[id].(actuatorsEnabled := if Bit(command, DISFFC_ACTUATORS_ON) then true else off))
  }

  function ApplyDeviceCommand(s: Source, id: u32, command: u32, now: real): Source {
    var d := WithDevice(s, id);
    if id !in d.devices then d
    else
      var quiet := StopPart(ResetPart(d, id, command), id, command);
      ActuatorPart(ContinuePart(PausePart(quiet, id, command, now), id, command, now), id, command)
  }

  /** Everything the source knew is gone: a lost frame may have stopped any of it. */
  function InvalidateAfterDrop(s: Source, now: real): Source {
    s.(issues := s.issues.(frameGap := true), effects := map[], devices := map[], meter := Silenced(s.meter, now),
       levels := s.levels.(selected := NOTHING, unclamped := 0.0, combined := 0.0, combinedEffective := 0.0,
                           active := 0, unsupported := 0))
  }

  function ApplyDrop(s: Source, dropped: u32, now: real): Source {
    if dropped > s.losses.frames
    then InvalidateAfterDrop(s, now).(losses := s.losses.(frames := dropped))
    else s
  }

  function ApplyProperty(s: Source, f: Frame): Source {
    var d := WithDevice(s, f.deviceId);
    if f.propertyId != 1 then s
    else if f.deviceId !in d.devices then d
    else PutDevice(d, f.deviceId, d.devices[f.deviceId].(gain := NormalizeUnsigned(f.gain)))
  }

  /** One frame of the source. */
  function Apply(s: Source, f: Frame, now: real): Source {
    if f.messageType == DROP_NOTICE then ApplyDrop(s, f.dropped, now)
    else if f.hresult < 0 && f.messageType != HELLO then s
    else if f.messageType == DEVICE_CREATED then WithDevice(s, f.deviceId)
    else if f.messageType == DEVICE_PROPERTY_CHANGED then ApplyProperty(s, f)
    else if f.messageType == EFFECT_CREATED then ApplyEffectCreated(s, f)
    else if f.messageType == EFFECT_PARAMETERS_CHANGED then ApplyEffectParameters(s, f, now)
    else if f.messageType == EFFECT_COMMAND then ApplyEffectCommand(s, f, now)
    else if f.messageType == DEVICE_COMMAND then ApplyDeviceCommand(s, f.deviceId, f.diFlags, now)
    else s
  }

  // ---------- Ticks ----------

  /** The dictionary's iteration order: every key, once. */
  predicate Enumerates<K(==)>(order: seq<K>, keys: set<K>) {
    multiset(order) == multiset(keys)
  }

  // Only effects of a known, running device are asked, and asking retires the finished ones.
  predicate Asked(e: Effect, devices: map<u32, Device>) { e.deviceId in devices && !devices[e.deviceId].paused }

  predicate Heard(e: Effect, devices: map<u32, Device>, now: real) {
    Asked(e, devices) && IsProducing(e.schedule, now) && devices[e.deviceId].actuatorsEnabled
  }

  /** What an effect adds to the mix. */
  function PartsOf(e: Effect, devices: map<u32, Device>, now: real, sine: real -> real): seq<Part> {
    if Heard(e, devices, now) && IsSupported(e)
    then [Part(e.deviceId, RawLevelAt(sine, e, now), e.gain, devices[e.deviceId].gain)] else []
  }

  function Sounds(e: Effect, devices: map<u32, Device>, now: real): nat { if Heard(e, devices, now) then 1 else 0 }

  function Unsupported(e: Effect, devices: map<u32, Device>, now: real): nat {
    if Heard(e, devices, now) && !IsSupported(e) then 1 else 0
  }

  function Parts(s: Source, order: seq<EffectKey>, now: real, sine: real -> real): seq<Part> {
    if order == [] then []
    else
      var key := order[|order| - 1];
      Parts(s, order[..|order| - 1], now, sine) + if key in s.effects then
        PartsOf(s.effects[key], s.devices, now, sine) else []
  }

  function CountSounding(s: Source, order: seq<EffectKey>, now: real): nat {
    if order == [] then 0
    else
      var key := order[|order| - 1];
      CountSounding(s, order[..|order| - 1], now) + if key in s.effects then Sounds(s.effects[key], s.devices, now)
        else 0
  }

  function CountUnsupported(s: Source, order: seq<EffectKey>, now: real): nat {
    if order == [] then 0
    else
      var key := order[|order| - 1];
      CountUnsupported(s, order[..|order| - 1], now) + if key in s.effects then
        Unsupported(s.effects[key], s.devices, now) else 0
  }

  function CountTriggers(s: Source, order: seq<EffectKey>): nat {
    if order == [] then 0
    else
      var key := order[|order| - 1];
      CountTriggers(s, order[..|order| - 1]) + if key in s.effects
        && HasUnobservableTrigger(s.effects[key]) then 1 else 0
  }

  function LevelsAt(s: Source, order: seq<EffectKey>, now: real, sine: real -> real): Levels {
    var parts := Parts(s, order, now, sine);
    var selected, unclamped := Strongest(parts), Peak(Commands(parts));
    Levels(selected, unclamped, Clamp01(unclamped), Clamp01(Peak(Effectives(parts))),
           MaxReal(s.levels.peakCommand, selected.command), MaxReal(s.levels.peakCombined, Clamp01(unclamped)),
           MaxReal(s.levels.peakUnclamped, unclamped),
           CountSounding(s, order, now), CountUnsupported(s, order, now), CountTriggers(s, order))
  }

  function ProbedEffect(e: Effect, devices: map<u32, Device>, now: real): Effect {
    if Asked(e, devices) then e.(schedule := Probe(e.schedule, now)) else e
  }

  function ProbedEffects(s: Source, now: real): map<EffectKey, Effect> {
    map k | k in s.effects :: ProbedEffect(s.effects[k], s.devices, now)
  }

  function Evaluate(s: Source, order: seq<EffectKey>, now: real, sine: real -> real): Source {
    s.(levels := LevelsAt(s, order, now, sine), effects := ProbedEffects(s, now))
  }

  /** One detector tick of the source. */
  function TickSource(s: Source, order: seq<EffectKey>, now: real, settings: Settings, sine: real -> real): (Source,
      Option<Edge>)
    requires Normal(settings)
  {
    var e := Evaluate(s, order, now, sine);
    var (meter, edge) := Tick(e.meter, now, settings, e.levels.combined, EstimateReliable(e));
    (e.(meter := meter), edge)
  }

  function ResetPeak(s: Source): Source {
    s.(levels := s.levels.(peakCommand := s.levels.selected.command, peakCombined := s.levels.combined,
                           peakUnclamped := s.levels.unclamped))
  }

  function Deactivated(effects: map<EffectKey, Effect>): map<EffectKey, Effect> {
    map k | k in effects :: effects[k].(schedule := effects[k].schedule.(active := false))
  }

  function ResetAfterDisconnect(s: Source, now: real): Source {
    s.(effects := Deactivated(s.effects),
       issues := s.issues.(reconnect := true), meter := Silenced(s.meter, now),
       levels := s.levels.(selected := s.levels.selected.(command := 0.0, effective := 0.0),
                           unclamped := 0.0, combined := 0.0, combinedEffective := 0.0))
  }
}
