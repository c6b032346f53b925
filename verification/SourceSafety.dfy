/** What every frame and tick keeps true of a source. */
module SourceSafety {
  import opened Bytes
  import opened Protocol
  import opened Effects
  import opened PauseClock
  import opened Settings
  import opened Hysteresis
  import opened Mixer
  import opened Sources

  predicate FairEffect(e: Effect) { 0.0 <= e.gain <= 1.0 }

  predicate FairDevice(d: Device) { 0.0 <= d.gain <= 1.0 }

  /** The tables are within bounds, every effect sits under its own key, and its device is known. */
  predicate Tables(effects: map<EffectKey, Effect>, devices: map<u32, Device>) {
    && |devices| <= MAX_DEVICES && |effects| <= MAX_EFFECTS
    && (forall k | k in effects :: EffectKey(effects[k].deviceId, effects[k].effectId) == k)
    && (forall k | k in effects :: k.deviceId in devices)
    && (forall k | k in effects :: FairEffect(effects[k]))
    && (forall d | d in devices :: FairDevice(devices[d]))
  }

  /** Any refused insertion is still remembered. */
  predicate Admitted(s: Source) { s.losses.devices > 0 || s.losses.effects > 0 ==> s.issues.capacity }

  /** A source that had a gap or a reconnect never clips, and a disconnected one had a reconnect. */
  predicate Muted(s: Source) {
    && (s.issues.frameGap || s.issues.reconnect ==> !s.meter.isClipping)
    && (s.losses.frames > 0 ==> s.issues.frameGap)
  }

  predicate LevelsOk(l: Levels) {
    && 0.0 <= l.selected.effective <= l.selected.command <= l.combined <= 1.0
    && 0.0 <= l.combinedEffective <= l.combined && l.combined == Clamp01(l.unclamped)
  }

  predicate SourceInv(s: Source) {
    Tables(s.effects, s.devices) && Admitted(s) && Muted(s) && LevelsOk(s.levels)
  }

  lemma NewSourceOk(identity: Identity)
    ensures SourceInv(NewSource(identity))
  {
  }

  // ---------- The tables ----------

  // What table operations leave alone.
  predicate OnlyTables(s: Source, n: Source) {
    && n.levels == s.levels && n.meter == s.meter && n.identity == s.identity && n.connections == s.connections
    && n.losses.frames == s.losses.frames && n.lastActivity == s.lastActivity
    && n.issues.frameGap == s.issues.frameGap && n.issues.reconnect == s.issues.reconnect
    && (s.issues.capacity ==> n.issues.capacity)
    && (n.losses != s.losses ==> n.issues.capacity)
    && s.losses.devices <= n.losses.devices && s.losses.effects <= n.losses.effects
  }

  lemma OnlyTablesKeeps(s: Source, n: Source)
    requires SourceInv(s) && OnlyTables(s, n) && Tables(n.effects, n.devices)
    ensures SourceInv(n)
  {
  }

  lemma AddDeviceOk(effects: map<EffectKey, Effect>, devices: map<u32, Device>, id: u32)
    requires Tables(effects, devices) && id !in devices && |devices| < MAX_DEVICES
    ensures Tables(effects, devices[id := NEW_DEVICE])
  {
    assert devices[id := NEW_DEVICE].Keys == devices.Keys + {id};
  }

  lemma WithDeviceOk(s: Source, id: u32)
    requires Tables(s.effects, s.devices)
    ensures var n := WithDevice(s, id);
      Tables(n.effects, n.devices) && OnlyTables(s, n) && n.effects == s.effects
      && (id in n.devices || (n.issues.capacity && n.losses.devices > 0))
      && (forall d | d in s.devices :: d in n.devices && n.devices[d] == s.devices[d])
  {
    hide Tables;
    if id !in s.devices && |s.devices| < MAX_DEVICES {
      AddDeviceOk(s.effects, s.devices, id);
    }
  }

  lemma WithRoomOk(s: Source, key: EffectKey)
    requires Tables(s.effects, s.devices)
    ensures var n := WithRoom(s, key);
      Tables(n.effects, n.devices) && OnlyTables(s, n) && n.effects == s.effects
      && (HasRoom(s, key) ==> key.deviceId in n.devices && (key in n.effects || |n.effects| < MAX_EFFECTS))
      && (!HasRoom(s, key) ==> n.issues.capacity && n.losses.effects > 0)
      && (forall d | d in s.devices :: d in n.devices && n.devices[d] == s.devices[d])
  {
    WithDeviceOk(s, key.deviceId);
  }

  lemma PutEffectOk(s: Source, key: EffectKey, e: Effect)
    requires Tables(s.effects, s.devices) && key.deviceId in s.devices
      && (key in s.effects || |s.effects| < MAX_EFFECTS)
    requires EffectKey(e.deviceId, e.effectId) == key && FairEffect(e)
    ensures Tables(PutEffect(s, key, e).effects, s.devices) && OnlyTables(s, PutEffect(s, key, e))
  {
    assert PutEffect(s, key, e).effects.Keys == s.effects.Keys + {key};
  }

  lemma PutDeviceOk(s: Source, id: u32, d: Device)
    requires Tables(s.effects, s.devices) && id in s.devices && FairDevice(d)
    ensures Tables(s.effects, PutDevice(s, id, d).devices) && OnlyTables(s, PutDevice(s, id, d))
  {
    assert PutDevice(s, id, d).devices.Keys == s.devices.Keys;
  }

  // Rewriting schedules changes no table.
  lemma SameTables(before: map<EffectKey, Effect>, after: map<EffectKey, Effect>, devices: map<u32, Device>)
    requires Tables(before, devices) && after.Keys == before.Keys
    requires forall k | k in before :: after[k] == before[k].(schedule := after[k].schedule)
    ensures Tables(after, devices)
  {
  }

  lemma CreatedOk(s: Source, f: Frame)
    requires Tables(s.effects, s.devices)
    ensures var n := ApplyEffectCreated(s, f); Tables(n.effects, n.devices) && OnlyTables(s, n)
  {
    hide Tables, WithRoom, HasRoom;
    WithRoomOk(s, KeyOf(f));
    if f.effectId != 0 && HasRoom(s, KeyOf(f)) {
      PutEffectOk(WithRoom(s, KeyOf(f)), KeyOf(f), CreatedEffect(f));
    }
  }

  lemma ParametersOk(s: Source, f: Frame, now: real)
    requires Tables(s.effects, s.devices)
    ensures var n := ApplyEffectParameters(s, f, now); Tables(n.effects, n.devices) && OnlyTables(s, n)
  {
    hide WithRoom, HasRoom, UpdatedSchedule;
    WithRoomOk(s, KeyOf(f));
    if f.effectId != 0 && HasRoom(s, KeyOf(f)) {
      var d := WithRoom(s, KeyOf(f));
      var e := if KeyOf(f) in d.effects then d.effects[KeyOf(f)] else NewEffect(f.deviceId, f.effectId);
      PutEffectOk(d, KeyOf(f), UpdatedEffect(e, f, d.devices[f.deviceId].paused, now));
    }
  }

  lemma RescheduledOk(s: Source, effects: map<EffectKey, Effect>)
    requires Tables(s.effects, s.devices) && effects.Keys == s.effects.Keys
    requires forall k | k in s.effects :: effects[k] == s.effects[k].(schedule := effects[k].schedule)
    ensures Tables(effects, s.devices) && OnlyTables(s, s.(effects := effects))
  {
    SameTables(s.effects, effects, s.devices);
  }

  lemma ReleaseOk(s: Source, key: EffectKey)
    requires Tables(s.effects, s.devices) && key in s.effects
    ensures Tables(s.effects - {key}, s.devices)
  {
    assert (s.effects - {key}).Keys == s.effects.Keys - {key};
  }

  lemma StartOk(s: Source, f: Frame, now: real)
    requires Tables(s.effects, s.devices) && KeyOf(f) in s.effects
    ensures var n := s.(effects := StartEffect(s.effects, f, now)); Tables(n.effects, n.devices) && OnlyTables(s, n)
  {
    hide Begin, StopSchedule, Bit, Tables, FairEffect;
    RescheduledOk(s, StartEffect(s.effects, f, now));
  }

  lemma StopOk(s: Source, key: EffectKey)
    requires Tables(s.effects, s.devices) && key in s.effects
    ensures var n := s.(effects := s.effects[key := StopEffect(s.effects[key])]);
      Tables(n.effects, n.devices) && OnlyTables(s, n)
  {
    hide StopSchedule, Tables;
    RescheduledOk(s, s.effects[key := StopEffect(s.effects[key])]);
  }

  lemma KnownEffect(s: Source, key: EffectKey)
    requires Tables(s.effects, s.devices) && key in s.effects
    ensures EffectKey(s.effects[key].deviceId, s.effects[key].effectId) == key && FairEffect(s.effects[key])
      && key.deviceId in s.devices
  {
    hide FairEffect, FairDevice;
  }

  lemma KindedFair(e: Effect, kind: u16)
    requires FairEffect(e)
    ensures FairEffect(Kinded(e, kind)) && EffectKey(Kinded(e, kind).deviceId, Kinded(e, kind).effectId)
      == EffectKey(e.deviceId, e.effectId)
  {
  }

  lemma KnownOk(s: Source, f: Frame, now: real)
    requires Tables(s.effects, s.devices) && KeyOf(f) in s.effects
    ensures var n := CommandKnown(s, f, now); Tables(n.effects, n.devices) && OnlyTables(s, n)
  {
    hide StartEffect, StopEffect, Tables, FairEffect, Kinded;
    var key := KeyOf(f);
    var e := Kinded(s.effects[key], f.effectKind);
    KnownEffect(s, key);
    KindedFair(s.effects[key], f.effectKind);
    PutEffectOk(s, key, e);
    var k := PutEffect(s, key, e);
    ReleaseOk(k, key);
    StartOk(k, f, now);
    StopOk(k, key);
  }

  lemma CommandOk(s: Source, f: Frame, now: real)
    requires Tables(s.effects, s.devices)
    ensures var n := ApplyEffectCommand(s, f, now); Tables(n.effects, n.devices) && OnlyTables(s, n)
  {
    hide WithRoom, HasRoom, CommandKnown, Tables;
    var key := KeyOf(f);
    WithRoomOk(s, key);
    if key in s.effects {
      KnownOk(s, f, now);
    } else if f.effectCommand == START && HasRoom(s, key) {
      var e := NewEffect(f.deviceId, f.effectId).(kind := f.effectKind);
      PutEffectOk(WithRoom(s, key), key, e);
      KnownOk(WithRoom(s, key).(effects := s.effects[key := e]), f, now);
    }
  }

  lemma StopDeviceOk(s: Source, id: u32, except: Option<u32>)
    requires Tables(s.effects, s.devices)
    ensures Tables(StopDevice(s.effects, id, except), s.devices)
  {
    hide StopSchedule;
    SameTables(s.effects, StopDevice(s.effects, id, except), s.devices);
  }

  lemma QuietPartsOk(s: Source, id: u32, command: u32)
    requires Tables(s.effects, s.devices) && id in s.devices
    ensures var r := ResetPart(s, id, command); Tables(r.effects, r.devices) && OnlyTables(s, r) && id in r.devices
    ensures var r := StopPart(s, id, command); Tables(r.effects, r.devices) && OnlyTables(s, r) && id in r.devices
  {
    hide Bit, StopDevice;
    StopDeviceOk(s, id, None);
    var quiet := s.(effects := StopDevice(s.effects, id, None));
    assert FairDevice(s.devices[id]);
    PutDeviceOk(quiet, id, s.devices[id].(paused := false, actuatorsEnabled := false));
    PutDeviceOk(quiet, id, s.devices[id].(paused := false));
  }

  lemma PausePartOk(s: Source, id: u32, command: u32, now: real)
    requires Tables(s.effects, s.devices) && id in s.devices
    ensures var r := PausePart(s, id, command, now); Tables(r.effects, r.devices) && OnlyTables(s, r) && id in r.devices
  {
    hide Bit;
    PutDeviceOk(s, id, s.devices[id].(paused := true, pausedAt := now));
  }

  lemma ContinuePartOk(s: Source, id: u32, command: u32, now: real)
    requires Tables(s.effects, s.devices) && id in s.devices
    ensures var r := ContinuePart(s, id, command, now);
      Tables(r.effects, r.devices) && OnlyTables(s, r) && id in r.devices
  {
    hide Bit, ResumeAfterPause;
    var resumed := s.(effects := ResumeDevice(s.effects, id, s.devices[id].pausedAt, now));
    SameTables(s.effects, resumed.effects, s.devices);
    PutDeviceOk(resumed, id, s.devices[id].(paused := false));
  }

  lemma ActuatorPartOk(s: Source, id: u32, command: u32)
    requires Tables(s.effects, s.devices) && id in s.devices
    ensures var r := ActuatorPart(s, id, command); Tables(r.effects, r.devices) && OnlyTables(s, r) && id in r.devices
  {
    hide Bit;
    PutDeviceOk(s, id, ActuatorPart(s, id, command).devices[id]);
  }

  lemma DeviceCommandOk(s: Source, id: u32, command: u32, now: real)
    requires Tables(s.effects, s.devices)
    ensures var n := ApplyDeviceCommand(s, id, command, now); Tables(n.effects, n.devices) && OnlyTables(s, n)
  {
    hide Tables, WithDevice, ResetPart, StopPart, PausePart, ContinuePart, ActuatorPart;
    WithDeviceOk(s, id);
    var d := WithDevice(s, id);
    if id in d.devices {
      var a := ResetPart(d, id, command);
      QuietPartsOk(d, id, command);
      var b := StopPart(a, id, command);
      QuietPartsOk(a, id, command);
      var c := PausePart(b, id, command, now);
      PausePartOk(b, id, command, now);
      ContinuePartOk(c, id, command, now);
      ActuatorPartOk(ContinuePart(c, id, command, now), id, command);
    }
  }

  lemma PropertyOk(s: Source, f: Frame)
    requires Tables(s.effects, s.devices)
    ensures var n := ApplyProperty(s, f); Tables(n.effects, n.devices) && OnlyTables(s, n)
  {
    hide WithDevice;
    WithDeviceOk(s, f.deviceId);
    var d := WithDevice(s, f.deviceId);
    if f.deviceId in d.devices {
      PutDeviceOk(d, f.deviceId, d.devices[f.deviceId].(gain := NormalizeUnsigned(f.gain)));
    }
  }

  // ---------- Frames and ticks ----------

  lemma DropOk(s: Source, dropped: u32, now: real)
    requires SourceInv(s)
    ensures SourceInv(ApplyDrop(s, dropped, now))
  {
  }

  /** Every frame keeps the source's invariant. */
  lemma ApplyKeeps(s: Source, f: Frame, now: real)
    requires SourceInv(s)
    ensures SourceInv(Apply(s, f, now))
  {
    hide Tables, Admitted, Muted, LevelsOk, WithDevice, ApplyProperty, ApplyEffectCreated, ApplyEffectParameters,
      ApplyEffectCommand, ApplyDeviceCommand, ApplyDrop, OnlyTables;
    DropOk(s, f.dropped, now);
    if f.messageType == DEVICE_CREATED {
      WithDeviceOk(s, f.deviceId);
    } else if f.messageType == DEVICE_PROPERTY_CHANGED {
      PropertyOk(s, f);
    } else if f.messageType == EFFECT_CREATED {
      CreatedOk(s, f);
    } else if f.messageType == EFFECT_PARAMETERS_CHANGED {
      ParametersOk(s, f, now);
    } else if f.messageType == EFFECT_COMMAND {
      CommandOk(s, f, now);
    } else if f.messageType == DEVICE_COMMAND {
      DeviceCommandOk(s, f.deviceId, f.diFlags, now);
    }
    var n := Apply(s, f, now);
    if f.messageType != DROP_NOTICE && n != s {
      OnlyTablesKeeps(s, n);
    }
  }

  lemma {:induction false} PartsFair(s: Source, order: seq<EffectKey>, now: real, sine: real -> real)
    requires Tables(s.effects, s.devices)
    ensures forall p | p in Parts(s, order, now, sine) :: Fair(p)
  {
    hide RawLevelAt, IsProducing;
    if order == [] {
    } else {
      PartsFair(s, order[..|order| - 1], now, sine);
    }
  }

  lemma LevelsAtOk(s: Source, order: seq<EffectKey>, now: real, sine: real -> real)
    requires Tables(s.effects, s.devices)
    ensures LevelsOk(LevelsAt(s, order, now, sine))
  {
    hide Parts, Peak, IsPeak, Strongest, Tables;
    var parts := Parts(s, order, now, sine);
    PartsFair(s, order, now, sine);
    assert forall i | 0 <= i < |parts| :: parts[i] in parts;
    CombinedBounds(parts, Peak(Commands(parts)), Peak(Effectives(parts)));
    StrongestIsMax(parts);
  }

  lemma EvaluateKeeps(s: Source, order: seq<EffectKey>, now: real, sine: real -> real)
    requires SourceInv(s)
    ensures SourceInv(Evaluate(s, order, now, sine))
  {
    hide LevelsAt, LevelsOk, Probe;
    LevelsAtOk(s, order, now, sine);
    SameTables(s.effects, ProbedEffects(s, now), s.devices);
  }

  // Only a reliable tick can start an episode.
  lemma TickOfUnreliable(m: Meter, now: real, settings: Settings, level: real)
    requires Normal(settings)
    ensures !Tick(m, now, settings, level, false).0.isClipping
  {
  }

  /** Every tick keeps the source's invariant. */
  lemma TickKeeps(s: Source, order: seq<EffectKey>, now: real, settings: Settings, sine: real -> real)
    requires SourceInv(s) && Normal(settings)
    ensures SourceInv(TickSource(s, order, now, settings, sine).0)
  {
    hide Evaluate, Tables, LevelsOk, Tick;
    EvaluateKeeps(s, order, now, sine);
    var e := Evaluate(s, order, now, sine);
    if !EstimateReliable(e) {
      TickOfUnreliable(e.meter, now, settings, e.levels.combined);
    }
  }

  lemma DisconnectKeeps(s: Source, now: real)
    requires SourceInv(s)
    ensures SourceInv(ResetAfterDisconnect(s, now))
  {
    SameTables(s.effects, ResetAfterDisconnect(s, now).effects, s.devices);
  }

  // ---------- What stays ----------

  /** Reliability issues never go away while the source is stored. */
  predicate StillKnown(a: Issues, b: Issues) {
    (a.frameGap ==> b.frameGap) && (a.reconnect ==> b.reconnect) && (a.capacity ==> b.capacity)
  }

  /** An insertion is refused only when a table is full, and then the source is unreliable for good. */
  lemma RefusalIsRemembered(s: Source, f: Frame)
    requires SourceInv(s)
    ensures HasRoom(s, KeyOf(f)) <==>
      (KeyOf(f) in s.effects || |s.effects| < MAX_EFFECTS) && (f.deviceId in s.devices || |s.devices| < MAX_DEVICES)
    ensures !HasRoom(s, KeyOf(f)) ==> !StateReliable(WithRoom(s, KeyOf(f)))
  {
    WithRoomOk(s, KeyOf(f));
  }
}
