/**
 What a frame says, field by field: what the tables hold after it, taken from the frame where the frame gives it and
 kept where it does not. Flags are given by their weights on the wire.
 */
module FrameMeaning {
  import opened Bytes
  import opened Protocol
  import opened Effects
  import opened PauseClock
  import opened Sources
  import opened SourceSafety

  predicate Has(flags: int, weight: int)
    requires weight > 0
  {
    flags / weight % 2 == 1
  }

  /** A gain of the wire, in ten-thousandths and never above 1. */
  function Share(gain: u32): real { if gain >= 10000 then 1.0 else gain as real / 10000.0 }

  /** There is room for the effect a frame names, and for its device. */
  predicate Fits(s: Source, f: Frame) {
    && (EffectKey(f.deviceId, f.effectId) in s.effects || |s.effects| < 1024)
    && (f.deviceId in s.devices || |s.devices| < 64)
  }

  predicate Same(a: Effect, b: Effect) { a == b.(schedule := a.schedule) }

  /** All effects but one, and all devices but one, are as before. */
  ghost predicate OnlyAt(s: Source, n: Source, key: EffectKey) {
    && (forall k | k != key :: k in n.effects <==> k in s.effects)
    && (forall k | k != key && k in s.effects :: n.effects[k] == s.effects[k])
    && (forall d | d != key.deviceId :: d in n.devices <==> d in s.devices)
    && (forall d | d != key.deviceId && d in s.devices :: n.devices[d] == s.devices[d])
  }

  /** The device is in the table; if it was not there before it has full gain, runs, and its actuators are on. */
  predicate DeviceKnown(s: Source, n: Source, id: u32) {
    id in n.devices && n.devices[id] == if id in s.devices then s.devices[id] else Device(1.0, false, 0.0, true)
  }

  predicate ForceFrom(e: Effect, f: Frame) {
    && e.force.magnitude == f.magnitude
    && e.force.rampStart == f.rampStart && e.force.rampEnd == f.rampEnd
    && e.force.periodicMagnitude == f.periodicMagnitude && e.force.periodicOffset == f.periodicOffset
    && e.force.periodicPhase == f.periodicPhase
    && e.force.periodicPeriod == (if f.periodicPeriod < 0 then f.periodicPeriod + 0x1_0000_0000 else f.periodicPeriod)
  }

  predicate EnvelopeFrom(e: Effect, f: Frame) {
    && e.envelope.attackLevel == f.attackLevel && e.envelope.attackTime == f.attackTime
    && e.envelope.fadeLevel == f.fadeLevel && e.envelope.fadeTime == f.fadeTime
  }

  /** An effect about which nothing is known but that it exists: silent, endless, without trigger or envelope. */
  predicate Untold(e: Effect) {
    && e.gain == 1.0 && e.force == Force(0, 0, 0, 0, 0, 0, 0) && e.envelope == Envelope(0, 0, 0, 0)
    && e.triggerButton == 0xFFFF_FFFF && e.triggerRepeat == 0
    && e.schedule.duration == 0xFFFF_FFFF && e.schedule.startDelay == 0
  }

  lemma RoomIs(s: Source, f: Frame)
    ensures HasRoom(s, KeyOf(f)) <==> Fits(s, f)
  {
  }

  lemma Room(s: Source, f: Frame)
    requires SourceInv(s)
    ensures HasRoom(s, KeyOf(f)) <==> Fits(s, f)
    ensures Fits(s, f) ==> WithRoom(s, KeyOf(f)) == WithDevice(s, f.deviceId)
  {
    hide Tables, Admitted, Muted, LevelsOk;
    RefusalIsRemembered(s, f);
  }

  lemma Added(s: Source, id: u32)
    requires id in s.devices || |s.devices| < 64
    ensures DeviceKnown(s, WithDevice(s, id), id) && WithDevice(s, id).effects == s.effects
    ensures forall d | d != id :: d in WithDevice(s, id).devices <==> d in s.devices
    ensures forall d | d != id && d in s.devices :: WithDevice(s, id).devices[d] == s.devices[d]
  {
  }

  lemma Scaled(gain: u32)
    ensures NormalizeUnsigned(gain) == Share(gain)
  {
  }

  // ---------- Creation ----------

  lemma NewlyCreated(f: Frame)
    ensures var e := CreatedEffect(f);
      && e.deviceId == f.deviceId && e.effectId == f.effectId && e.kind == f.effectKind
      && !e.schedule.active && e.schedule.iterations == 1
      && (if f.presence.Absent? then Untold(e)
          else
            && ForceFrom(e, f) && EnvelopeFrom(e, f) && e.gain == Share(f.gain)
            && e.triggerButton == f.triggerButton && e.triggerRepeat == f.triggerRepeat
            && e.schedule.duration == f.duration && e.schedule.startDelay == f.startDelay)
  {
    hide NormalizeUnsigned, Share;
    Scaled(f.gain);
  }

  /**
   An accepted creation stores an effect at rest that has the kind of the frame, and all its parameters unless the
   frame says that it carries none.
   */
  lemma CreationStores(s: Source, f: Frame, now: real)
    requires SourceInv(s) && f.messageType == 4 && f.hresult >= 0 && f.effectId != 0 && Fits(s, f)
    ensures var (n, key) := (Apply(s, f, now), EffectKey(f.deviceId, f.effectId));
      && key in n.effects && OnlyAt(s, n, key) && DeviceKnown(s, n, f.deviceId)
      && var e := n.effects[key];
      && e.deviceId == f.deviceId && e.effectId == f.effectId && e.kind == f.effectKind
      && !e.schedule.active && e.schedule.iterations == 1
      && (if f.presence.Absent? then Untold(e)
          else
            && ForceFrom(e, f) && EnvelopeFrom(e, f) && e.gain == Share(f.gain)
            && e.triggerButton == f.triggerButton && e.triggerRepeat == f.triggerRepeat
            && e.schedule.duration == f.duration && e.schedule.startDelay == f.startDelay)
  {
    hide SourceInv, WithDevice, WithRoom, HasRoom, CreatedEffect, Untold, ForceFrom, EnvelopeFrom, DeviceKnown, Fits;
    Room(s, f);
    FitsDevice(s, f);
    Added(s, f.deviceId);
    NewlyCreated(f);
    Known(s, WithDevice(s, f.deviceId), Apply(s, f, now), f.deviceId);
  }

  lemma FitsDevice(s: Source, f: Frame)
    requires Fits(s, f)
    ensures f.deviceId in s.devices || |s.devices| < 64
  {
  }

  lemma Known(s: Source, d: Source, n: Source, id: u32)
    requires DeviceKnown(s, d, id) && id in n.devices && id in d.devices && n.devices[id] == d.devices[id]
    ensures DeviceKnown(s, n, id)
  {
  }

  // ---------- Parameters ----------

  /** Each group of parameters is the frame's if its flag is set, and as before if not. */
  predicate Selected(e: Effect, b: Effect, f: Frame) {
    && e.deviceId == b.deviceId && e.effectId == b.effectId
    && e.kind == (if f.effectKind != 0 then f.effectKind else b.kind)
    && (if Has(f.flags, 0x1) then e.schedule.duration == f.duration else e.schedule.duration == b.schedule.duration)
    && (if Has(f.flags, 0x4) then e.gain == Share(f.gain) else e.gain == b.gain)
    && (if Has(f.flags, 0x8) then e.triggerButton == f.triggerButton else e.triggerButton == b.triggerButton)
    && (if Has(f.flags, 0x10) then e.triggerRepeat == f.triggerRepeat else e.triggerRepeat == b.triggerRepeat)
    && (if Has(f.flags, 0x80) then EnvelopeFrom(e, f) else e.envelope == b.envelope)
    && (if Has(f.flags, 0x100) then ForceFrom(e, f) else e.force == b.force)
    && (if Has(f.flags, 0x200) then e.schedule.startDelay == f.startDelay
        else e.schedule.startDelay == b.schedule.startDelay)
  }

  lemma Bits(flags: int, weight: int)
    requires weight > 0
    ensures Bit(flags, weight) == Has(flags, weight)
  {
  }

  lemma ForceGiven(e: Effect, f: Frame)
    requires e.force == ForceOf(f)
    ensures ForceFrom(e, f)
  {
  }

  lemma UpdatedTimes(e: Effect, f: Frame, paused: bool, now: real)
    ensures var u := UpdatedSchedule(e, f, paused, now);
      && u.duration == (if Has(f.flags, 0x1) then f.duration else e.schedule.duration)
      && u.startDelay == (if Has(f.flags, 0x200) then f.startDelay else e.schedule.startDelay)
  {
    hide Has, Bit, Milliseconds, Length;
    Bits(f.flags, 0x1);
    Bits(f.flags, 0x200);
  }

  lemma UpdatedSelects(e: Effect, f: Frame, paused: bool, now: real)
    ensures Selected(UpdatedEffect(e, f, paused, now), e, f)
  {
    hide Has, Bit, NormalizeUnsigned, Share, UpdatedSchedule, ForceOf, ForceFrom;
    Bits(f.flags, 0x4);
    Bits(f.flags, 0x8);
    Bits(f.flags, 0x10);
    Bits(f.flags, 0x80);
    Bits(f.flags, 0x100);
    Scaled(f.gain);
    UpdatedTimes(e, f, paused, now);
    var u := UpdatedEffect(e, f, paused, now);
    if Has(f.flags, 0x100) {
      ForceGiven(u, f);
    }
  }

  /** What is known of an effect before a frame: what the table has, or nothing but that it exists. */
  function Before(s: Source, key: EffectKey): Effect {
    if key in s.effects then s.effects[key]
    else
      Effect(key.deviceId, key.effectId, 0, NewSchedule(), 1.0, Force(0, 0, 0, 0, 0, 0, 0), 0xFFFF_FFFF, 0,
             Envelope(0, 0, 0, 0))
  }

  /** An accepted parameter frame changes what its flags name, and nothing else. */
  lemma ParametersSelect(s: Source, f: Frame, now: real)
    requires SourceInv(s) && f.messageType == 5 && f.hresult >= 0 && f.effectId != 0 && Fits(s, f)
    ensures var (n, key) := (Apply(s, f, now), EffectKey(f.deviceId, f.effectId));
      && key in n.effects && OnlyAt(s, n, key) && DeviceKnown(s, n, f.deviceId)
      && Selected(n.effects[key], Before(s, key), f)
  {
    hide SourceInv, WithDevice, WithRoom, HasRoom, UpdatedEffect, Selected, DeviceKnown, Fits;
    Room(s, f);
    FitsDevice(s, f);
    Added(s, f.deviceId);
    var d, key := WithDevice(s, f.deviceId), KeyOf(f);
    Present(s, d, f.deviceId);
    UpdatedSelects(Before(s, key), f, d.devices[f.deviceId].paused, now);
    Known(s, d, Apply(s, f, now), f.deviceId);
  }

  lemma Present(s: Source, n: Source, id: u32)
    requires DeviceKnown(s, n, id)
    ensures id in n.devices
  {
  }

  // ---------- Commands to effects ----------

  /** What a command leaves of the effect it names, when that is in the table or is started. */
  predicate Commanded(e: Effect, b: Effect, f: Frame) {
    && Same(e, b.(kind := if f.effectKind != 0 then f.effectKind else b.kind))
    && e.schedule.duration == b.schedule.duration && e.schedule.startDelay == b.schedule.startDelay
  }

  /** The other effects keep everything but that they may be stopped. */
  ghost predicate OthersKept(s: Source, n: Source, key: EffectKey) {
    && (forall k | k != key :: k in n.effects <==> k in s.effects)
    && (forall k | k != key && k in s.effects ::
          && Same(n.effects[k], s.effects[k]) && n.effects[k].schedule.duration == s.effects[k].schedule.duration
          && n.effects[k].schedule.startDelay == s.effects[k].schedule.startDelay)
  }

  lemma KnownCommands(s: Source, f: Frame, now: real)
    requires Tables(s.effects, s.devices) && KeyOf(f) in s.effects
    ensures var n := CommandKnown(s, f, now);
      && (KeyOf(f) in n.effects <==> f.effectCommand != 5)
      && (f.effectCommand != 5 ==> Commanded(n.effects[KeyOf(f)], s.effects[KeyOf(f)], f))
      && OthersKept(s, n, KeyOf(f)) && n.devices == s.devices
  {
    hide Bit, Milliseconds, Length, Tables;
  }

  /**
   A command to an effect changes at most its kind and its playback, a release takes it out of the table, and only a
   start brings in an effect that is not there.
   */
  lemma CommandKeepsParameters(s: Source, f: Frame, now: real)
    requires SourceInv(s) && f.messageType == 6 && f.hresult >= 0
    ensures var (n, key) := (Apply(s, f, now), EffectKey(f.deviceId, f.effectId));
      && OthersKept(s, n, key)
      && (key in n.effects <==> f.effectCommand != 5 && (key in s.effects || (f.effectCommand == 2 && Fits(s, f))))
      && (key in n.effects ==> Commanded(n.effects[key], Before(s, key), f))
      && (if key in s.effects then n.devices == s.devices
          else if f.effectCommand != 2 then n == s
          else Fits(s, f) ==> DeviceKnown(s, n, f.deviceId))
  {
    hide SourceInv, WithRoom, HasRoom, CommandKnown, Commanded, OthersKept, Fits, WithDevice, DeviceKnown, Before;
    var key := KeyOf(f);
    Room(s, f);
    Unmoved(s, key);
    if key in s.effects {
      InvTables(s);
      KnownCommands(s, f, now);
      BeforeIs(s, f);
    } else if f.effectCommand == 2 && Fits(s, f) {
      FitsDevice(s, f);
      Added(s, f.deviceId);
      var e := NewEffect(f.deviceId, f.effectId).(kind := f.effectKind);
      var d := WithRoom(s, key).(effects := s.effects[key := e]);
      BroughtIn(s, f);
      KnownCommands(d, f, now);
      BeforeIs(s, f);
      Carried(s, d, CommandKnown(d, f, now), f);
    } else {
      Refused(s, key);
    }
  }

  lemma Refused(s: Source, key: EffectKey)
    ensures WithRoom(s, key).effects == s.effects
  {
  }

  lemma Unmoved(s: Source, key: EffectKey)
    ensures forall n: Source | n.effects == s.effects :: OthersKept(s, n, key)
  {
  }

  lemma InvTables(s: Source)
    requires SourceInv(s)
    ensures Tables(s.effects, s.devices)
  {
  }

  lemma BeforeIs(s: Source, f: Frame)
    ensures KeyOf(f) in s.effects ==> Before(s, KeyOf(f)) == s.effects[KeyOf(f)]
    ensures KeyOf(f) !in s.effects ==> Before(s, KeyOf(f)) == NewEffect(f.deviceId, f.effectId)
  {
  }

  // A start of an effect that is not in the table brings it in first.
  lemma BroughtIn(s: Source, f: Frame)
    requires SourceInv(s) && KeyOf(f) !in s.effects && Fits(s, f)
    ensures var e := NewEffect(f.deviceId, f.effectId).(kind := f.effectKind);
      var d := WithRoom(s, KeyOf(f)).(effects := s.effects[KeyOf(f) := e]);
      Tables(d.effects, d.devices)
  {
    hide Tables, WithRoom, HasRoom, Fits, Admitted, Muted, LevelsOk;
    var e := NewEffect(f.deviceId, f.effectId).(kind := f.effectKind);
    Room(s, f);
    WithRoomOk(s, KeyOf(f));
    PutEffectOk(WithRoom(s, KeyOf(f)), KeyOf(f), e);
  }

  lemma Carried(s: Source, d: Source, n: Source, f: Frame)
    requires KeyOf(f) !in s.effects && OthersKept(d, n, KeyOf(f)) && n.devices == d.devices
    requires d == WithRoom(s, KeyOf(f)).(effects := s.effects[KeyOf(f) := NewEffect(f.deviceId, f.effectId)
      .(kind := f.effectKind)])
    requires WithRoom(s, KeyOf(f)) == WithDevice(s, f.deviceId) && DeviceKnown(s, WithDevice(s, f.deviceId), f.deviceId)
    requires KeyOf(f) in n.effects ==> Commanded(n.effects[KeyOf(f)], d.effects[KeyOf(f)], f)
    ensures OthersKept(s, n, KeyOf(f)) && DeviceKnown(s, n, f.deviceId)
    ensures KeyOf(f) in n.effects ==> Commanded(n.effects[KeyOf(f)], NewEffect(f.deviceId, f.effectId), f)
  {
    hide WithRoom, WithDevice;
  }

  // ---------- Devices ----------

  /** The flags of a device after a command, given by the parts of the command in their order. */
  predicate DeviceAfter(d: Device, b: Device, command: u32) {
    && d.gain == b.gain
    && (d.paused <==> !Has(command, 0x8) && (Has(command, 0x4) || (b.paused && !Has(command, 0x1) && !Has(command, 0x2))))
    && (d.actuatorsEnabled <==> Has(command, 0x10) || (b.actuatorsEnabled && !Has(command, 0x20) && !Has(command, 0x1)))
  }

  /** No effect is lost, only playback changes, and no other device is touched. */
  ghost predicate ParametersKept(s: Source, n: Source, id: u32) {
    && n.effects.Keys == s.effects.Keys
    && (forall k | k in s.effects ::
          && Same(n.effects[k], s.effects[k]) && n.effects[k].schedule.duration == s.effects[k].schedule.duration
          && n.effects[k].schedule.startDelay == s.effects[k].schedule.startDelay)
    && n.devices.Keys == s.devices.Keys
    && (forall d | d != id && d in s.devices :: n.devices[d] == s.devices[d])
  }

  lemma KeptTwice(a: Source, b: Source, c: Source, id: u32)
    requires ParametersKept(a, b, id) && ParametersKept(b, c, id)
    ensures ParametersKept(a, c, id)
  {
  }

  lemma QuietAfter(s: Source, id: u32, command: u32)
    requires id in s.devices
    ensures var (d, b) := (ResetPart(s, id, command), s.devices[id]);
      && ParametersKept(s, d, id)
      && d.devices[id] == b.(paused := b.paused && !Has(command, 0x1),
           actuatorsEnabled := b.actuatorsEnabled && !Has(command, 0x1))
    ensures var (d, b) := (StopPart(s, id, command), s.devices[id]);
      ParametersKept(s, d, id) && d.devices[id] == b.(paused := b.paused && !Has(command, 0x2))
  {
    hide Bit, Has;
    Bits(command, 0x1);
    Bits(command, 0x2);
  }

  lemma PauseAfter(s: Source, id: u32, command: u32, now: real)
    requires id in s.devices
    ensures var (d, b) := (PausePart(s, id, command, now), s.devices[id]);
      && ParametersKept(s, d, id) && d.devices[id].gain == b.gain
      && d.devices[id].actuatorsEnabled == b.actuatorsEnabled
      && (d.devices[id].paused <==> b.paused || Has(command, 0x4))
  {
    hide Bit, Has;
    Bits(command, 0x4);
  }

  lemma ContinueAfter(s: Source, id: u32, command: u32, now: real)
    requires id in s.devices
    ensures var (d, b) := (ContinuePart(s, id, command, now), s.devices[id]);
      ParametersKept(s, d, id) && d.devices[id] == b.(paused := b.paused && !Has(command, 0x8))
  {
    hide Bit, Has;
    Bits(command, 0x8);
  }

  lemma ActuatorsAfter(s: Source, id: u32, command: u32)
    requires id in s.devices
    ensures var (d, b) := (ActuatorPart(s, id, command), s.devices[id]);
      && ParametersKept(s, d, id)
      && d.devices[id] == b.(actuatorsEnabled := Has(command, 0x10) || (b.actuatorsEnabled && !Has(command, 0x20)))
  {
    hide Bit, Has;
    Bits(command, 0x10);
    Bits(command, 0x20);
  }

  lemma CommandAfter(s: Source, id: u32, command: u32, now: real)
    requires id in s.devices
    ensures var n := ApplyDeviceCommand(s, id, command, now);
      id in n.devices && DeviceAfter(n.devices[id], s.devices[id], command) && ParametersKept(s, n, id)
  {
    hide Has, ResetPart, StopPart, PausePart, ContinuePart, ActuatorPart, ParametersKept;
    KeptKeys(id);
    var s1 := ResetPart(s, id, command);
    QuietAfter(s, id, command);
    var s2 := StopPart(s1, id, command);
    QuietAfter(s1, id, command);
    var s3 := PausePart(s2, id, command, now);
    PauseAfter(s2, id, command, now);
    var s4 := ContinuePart(s3, id, command, now);
    ContinueAfter(s3, id, command, now);
    var s5 := ActuatorPart(s4, id, command);
    ActuatorsAfter(s4, id, command);
    KeptTwice(s, s1, s2, id);
    KeptTwice(s, s2, s3, id);
    KeptTwice(s, s3, s4, id);
    KeptTwice(s, s4, s5, id);
  }

  lemma KeptKeys(id: u32)
    ensures forall a, b | ParametersKept(a, b, id) :: id in a.devices ==> id in b.devices
  {
  }

  /**
   An accepted device command reads its bits in order: reset, stop all, pause, continue, actuators off, actuators on.
   It changes no gain, no parameter of any effect and no other device.
   */
  lemma DeviceCommandReads(s: Source, f: Frame, now: real)
    requires SourceInv(s) && f.messageType == 7 && f.hresult >= 0
    requires f.deviceId in s.devices || |s.devices| < 64
    ensures var (n, d) := (Apply(s, f, now), WithDevice(s, f.deviceId));
      && DeviceKnown(s, d, f.deviceId) && d.effects == s.effects
      && f.deviceId in n.devices && DeviceAfter(n.devices[f.deviceId], d.devices[f.deviceId], f.diFlags)
      && ParametersKept(d, n, f.deviceId)
  {
    hide SourceInv, WithDevice, ApplyDeviceCommand, ParametersKept, DeviceAfter, DeviceKnown;
    var d := WithDevice(s, f.deviceId);
    Added(s, f.deviceId);
    Present(s, d, f.deviceId);
    CommandAfter(d, f.deviceId, f.diFlags, now);
    AddedFirst(s, f.deviceId, f.diFlags, now);
  }

  lemma AddedFirst(s: Source, id: u32, command: u32, now: real)
    ensures id in WithDevice(s, id).devices ==>
      ApplyDeviceCommand(s, id, command, now) == ApplyDeviceCommand(WithDevice(s, id), id, command, now)
  {
    hide ResetPart, StopPart, PausePart, ContinuePart, ActuatorPart;
  }

  /** A property frame sets the gain of its device if it names property 1, and changes nothing else. */
  lemma PropertySetsGain(s: Source, f: Frame, now: real)
    requires SourceInv(s) && f.messageType == 3 && f.hresult >= 0
    requires f.deviceId in s.devices || |s.devices| < 64
    ensures var (n, d) := (Apply(s, f, now), WithDevice(s, f.deviceId));
      && DeviceKnown(s, d, f.deviceId) && n.effects == s.effects && d.effects == s.effects
      && n.devices == if f.propertyId == 1
           then d.devices[f.deviceId := d.devices[f.deviceId].(gain := Share(f.gain))] else s.devices
  {
    hide NormalizeUnsigned, Share, SourceInv;
    Scaled(f.gain);
    Added(s, f.deviceId);
  }

  /** A device is announced with full gain, running, its actuators on; a known one is left alone. */
  lemma DeviceIsAnnounced(s: Source, f: Frame, now: real)
    requires SourceInv(s) && f.messageType == 2 && f.hresult >= 0
    requires f.deviceId in s.devices || |s.devices| < 64
    ensures var n := Apply(s, f, now);
      DeviceKnown(s, n, f.deviceId) && n.effects == s.effects && OnlyAt(s, n, EffectKey(f.deviceId, f.effectId))
  {
    hide SourceInv;
    Added(s, f.deviceId);
  }

  /** A call of the game that failed changed nothing on the wheel, so its frame changes nothing; nor does a greeting. */
  lemma FailedCallsChangeNothing(s: Source, f: Frame, now: real)
    requires f.messageType == 1 || (f.messageType != 8 && f.hresult < 0) || !(1 <= f.messageType <= 8)
    ensures Apply(s, f, now) == s
  {
  }

  /** News of a loss empties both tables, silences all levels and stays marked; old news changes nothing. */
  lemma LossForgets(s: Source, f: Frame, now: real)
    requires f.messageType == 8
    ensures var n := Apply(s, f, now);
      if f.dropped > s.losses.frames then
        && n.effects == map[] && n.devices == map[] && n.issues == s.issues.(frameGap := true)
        && n.losses == s.losses.(frames := f.dropped)
        && n.levels.selected.command == n.levels.unclamped == n.levels.combined == n.levels.combinedEffective == 0.0
        && n.levels.selected.effective == 0.0 && n.levels.active == n.levels.unsupported == 0
        && !n.meter.isClipping && !n.meter.atLimit && n.meter.clipRatio == 0.0 && n.meter.history == []
        && n.identity == s.identity && n.connections == s.connections
      else n == s
  {
  }
}
