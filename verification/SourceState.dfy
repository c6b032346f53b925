/** The source as the detector keeps it in memory, updated in place by every frame and tick. */
module SourceStates {
  import opened Bytes
  import opened Protocol
  import opened Effects
  import opened PauseClock
  import opened Settings
  import opened Window
  import opened Hysteresis
  import opened Mixer
  import opened Sources
  import opened MixerLoops

  class SourceState {
    var identity: Identity
    var connections: set<Guid>
    var lastActivity: real
    var effects: map<EffectKey, Effect>
    var devices: map<u32, Device>
    var levels: Levels
    var losses: Losses
    var issues: Issues
    var lastKind: u16
    var meter: Meter

    function Value(): Source
      reads this
    {
      Source(identity, connections, lastActivity, effects, devices, levels, meter, losses, issues, lastKind)
    }

    constructor (identity: Identity)
      ensures Value() == NewSource(identity)
    {
      this.identity := identity;
      connections, lastActivity, effects, devices := {}, 0.0, map[], map[];
      levels := Levels(NOTHING, 0.0, 0.0, 0.0, 0.0, 0.0, 0.0, 0, 0, 0);
      losses, issues, lastKind := Losses(0, 0, 0), Issues(false, false, false), UNKNOWN_KIND;
      meter := NewMeter();
    }

    // ---------- The tables ----------

    method RecordDeviceStateDrop()
      modifies this`losses, this`issues
      ensures Value() == DeviceDrop(old(Value()))
    {
      losses := losses.(devices := Increment(losses.devices));
      issues := issues.(capacity := true);
    }

    method RecordEffectStateDrop()
      modifies this`losses, this`issues
      ensures Value() == EffectDrop(old(Value()))
    {
      losses := losses.(effects := Increment(losses.effects));
      issues := issues.(capacity := true);
    }

    method GetOrCreateDevice(deviceId: u32) returns (found: bool)
      modifies this`devices, this`losses, this`issues
      ensures Value() == WithDevice(old(Value()), deviceId) && found == (deviceId in devices)
    {
      if deviceId !in devices {
        if |devices| >= MAX_DEVICES {
          RecordDeviceStateDrop();
          return false;
        }
        devices := devices[deviceId := NEW_DEVICE];
      }
      found := true;
    }

    // The checks in front of every insertion into the effect table.
    method MakeRoomFor(key: EffectKey) returns (room: bool)
      modifies this`devices, this`losses, this`issues
      ensures Value() == WithRoom(old(Value()), key) && room == HasRoom(old(Value()), key)
    {
      if key !in effects && |effects| >= MAX_EFFECTS {
        RecordEffectStateDrop();
        return false;
      }
      room := GetOrCreateDevice(key.deviceId);
      if !room {
        RecordEffectStateDrop();
      }
    }

    // ---------- Frames ----------

    method ApplyEffectCreated(f: Frame)
      modifies this
      ensures Value() == Sources.ApplyEffectCreated(old(Value()), f)
    {
      if f.effectId == 0 {
        return;
      }
      var key := KeyOf(f);
      var room := MakeRoomFor(key);
      if !room {
        return;
      }
      var effect := NewEffect(f.deviceId, f.effectId).(kind := f.effectKind);
      if !f.presence.Absent? {
        effect := effect.(gain := NormalizeUnsigned(f.gain));
        effect := effect.(schedule := effect.schedule.(duration := f.duration, startDelay := f.startDelay));
        effect := effect.(force := ForceOf(f), triggerButton := f.triggerButton, triggerRepeat := f.triggerRepeat);
        effect := effect.(envelope := EnvelopeOf(f));
      }
      effects := effects[key := effect];
      lastKind := effect.kind;
    }

    // The schedule's share of a parameter frame.
    static method Reschedule(effect: Effect, f: Frame, paused: bool, now: real) returns (s: Schedule)
      ensures s == UpdatedSchedule(effect, f, paused, now)
    {
      hide Begin, Bit, Milliseconds, Length;
      s := effect.schedule;
      if s.active && !paused {
        s := ExpireIfFinished(s, now);
      }
      if Bit(f.flags, DIEP_DURATION) {
        s := s.(duration := f.duration);
      }
      if Bit(f.flags, DIEP_START_DELAY) {
        s := s.(startDelay := f.startDelay);
      }
      if Bit(f.flags, DIEP_START) {
        StartOverrides(s, now);
        s := Begin(s, now, 1);
      } else if s.active && (Bit(f.flags, DIEP_DURATION) || Bit(f.flags, DIEP_START_DELAY)) {
        s := RefreshSchedule(s);
      }
      if Bit(f.hresult, DI_EFFECT_RESTARTED) {
        s := Begin(s, now, s.iterations);
      }
    }

    // The other fields' share of it.
    static method Reparametrize(given: Effect, f: Frame, s: Schedule) returns (effect: Effect)
      ensures effect == UpdatedFields(given, f).(schedule := s)
    {
      hide Bit, NormalizeUnsigned;
      effect := given;
      if f.effectKind != UNKNOWN_KIND {
        effect := effect.(kind := f.effectKind);
      }
      if Bit(f.flags, DIEP_GAIN) {
        effect := effect.(gain := NormalizeUnsigned(f.gain));
      }
      if Bit(f.flags, DIEP_TYPE_SPECIFIC) {
        effect := effect.(force := ForceOf(f));
      }
      if Bit(f.flags, DIEP_TRIGGER_BUTTON) {
        effect := effect.(triggerButton := f.triggerButton);
      }
      if Bit(f.flags, DIEP_TRIGGER_REPEAT) {
        effect := effect.(triggerRepeat := f.triggerRepeat);
      }
      if Bit(f.flags, DIEP_ENVELOPE) {
        effect := effect.(envelope := EnvelopeOf(f));
      }
      effect := effect.(schedule := s);
    }

    method ApplyEffectParameters(f: Frame, now: real)
      modifies this
      ensures Value() == Sources.ApplyEffectParameters(old(Value()), f, now)
    {
      hide UpdatedSchedule, UpdatedFields;
      if f.effectId == 0 {
        return;
      }
      var key := KeyOf(f);
      var room := MakeRoomFor(key);
      if !room {
        return;
      }
      var effect := if key in effects then effects[key] else NewEffect(f.deviceId, f.effectId);
      var schedule := Reschedule(effect, f, devices[f.deviceId].paused, now);
      effect := Reparametrize(effect, f, schedule);
      effects := effects[key := effect];
      lastKind := effect.kind;
    }

    method StopEffects(deviceId: u32, except: Option<u32>)
      modifies this`effects
      ensures effects == StopDevice(old(effects), deviceId, except)
    {
      var keys := effects.Keys;
      while keys != {}
        invariant keys <= effects.Keys == old(effects.Keys)
        invariant forall k | k in effects ::
          effects[k] == if k in keys then old(effects)[k] else StopDevice(old(effects), deviceId, except)[k]
        decreases keys
      {
        var k :| k in keys;
        if effects[k].deviceId == deviceId && except != Some(effects[k].effectId) {
          effects := effects[k := StopEffect(effects[k])];
        }
        keys := keys - {k};
      }
    }

    method ResumeEffects(deviceId: u32, pausedAt: real, now: real)
      modifies this`effects
      ensures effects == ResumeDevice(old(effects), deviceId, pausedAt, now)
    {
      var keys := effects.Keys;
      while keys != {}
        invariant keys <= effects.Keys == old(effects.Keys)
        invariant forall k | k in effects ::
          effects[k] == if k in keys then old(effects)[k] else ResumeDevice(old(effects), deviceId, pausedAt, now)[k]
        decreases keys
      {
        var k :| k in keys;
        if effects[k].deviceId == deviceId {
          effects := effects[k := effects[k].(schedule := ResumeAfterPause(effects[k].schedule, pausedAt, now))];
        }
        keys := keys - {k};
      }
    }

    method CommandKnown(f: Frame, now: real)
      requires KeyOf(f) in effects
      modifies this
      ensures Value() == Sources.CommandKnown(old(Value()), f, now)
    {
      var key := KeyOf(f);
      var effect := effects[key];
      if f.effectKind != UNKNOWN_KIND {
        effect := effect.(kind := f.effectKind);
      }
      effects := effects[key := effect];
      lastKind := effect.kind;
      if f.effectCommand == START {
        if Bit(f.flags, DIES_SOLO) {
          StopEffects(f.deviceId, Some(f.effectId));
        }
        effects := effects[key := effect.(schedule := Begin(effect.schedule, now, f.iterations))];
      } else if f.effectCommand == STOP || f.effectCommand == UNLOAD {
        effects := effects[key := StopEffect(effect)];
      } else if f.effectCommand == RELEASE {
        effects := effects - {key};
      }
    }

    method ApplyEffectCommand(f: Frame, now: real)
      modifies this
      ensures Value() == Sources.ApplyEffectCommand(old(Value()), f, now)
    {
      var key := KeyOf(f);
      if key !in effects {
        if f.effectCommand != START {
          return;
        }
        var room := MakeRoomFor(key);
        if !room {
          return;
        }
        effects := effects[key := NewEffect(f.deviceId, f.effectId).(kind := f.effectKind)];
      }
      CommandKnown(f, now);
    }

    method ApplyDeviceCommand(deviceId: u32, command: u32, now: real)
      modifies this
      ensures Value() == Sources.ApplyDeviceCommand(old(Value()), deviceId, command, now)
    {
      var found := GetOrCreateDevice(deviceId);
      if !found {
        return;
      }
      ghost var d := Value();
      if Bit(command, DISFFC_RESET) {
        StopEffects(deviceId, None);
        devices := devices[deviceId := devices[deviceId].(paused := false, actuatorsEnabled := false)];
      }
      assert Value() == ResetPart(d, deviceId, command);
      if Bit(command, DISFFC_STOP_ALL) {
        StopEffects(deviceId, None);
        devices := devices[deviceId := devices[deviceId].(paused := false)];
      }
      ghost var quiet := StopPart(ResetPart(d, deviceId, command), deviceId, command);
      assert Value() == quiet;
      if Bit(command, DISFFC_PAUSE) && !devices[deviceId].paused {
        devices := devices[deviceId := devices[deviceId].(paused := true, pausedAt := now)];
      }
      ghost var p := PausePart(quiet, deviceId, command, now);
      assert Value() == p;
      if Bit(command, DISFFC_CONTINUE) && devices[deviceId].paused {
        ResumeEffects(deviceId, devices[deviceId].pausedAt, now);
        devices := devices[deviceId := devices[deviceId].(paused := false)];
      }
      ghost var c := ContinuePart(p, deviceId, command, now);
      assert Value() == c;
      var device := devices[deviceId];
      if Bit(command, DISFFC_ACTUATORS_OFF) {
        device := device.(actuatorsEnabled := false);
      }
      if Bit(command, DISFFC_ACTUATORS_ON) {
        device := device.(actuatorsEnabled := true);
      }
      devices := devices[deviceId := device];
      assert Value() == ActuatorPart(c, deviceId, command);
    }

    // Clears the meter; the next interval starts at now.
    method Silence(now: real)
      modifies this`meter
      ensures meter == Silenced(old(meter), now)
    {
      meter := meter.(isClipping := false, atLimit := false, clipRatio := 0.0, history := []);
      meter := meter.(continuousLimit := 0.0, continuousBelow := 0.0);
      meter := meter.(lastTick := now, lastAtLimit := false, lastBelowExit := true);
    }

    // Takes everything the source knew of its effects and devices.
    method Forget()
      modifies this`issues, this`effects, this`devices, this`levels
      ensures Value() == old(Value()).(
        issues := old(issues).(frameGap := true), effects := map[], devices := map[],
        levels := old(levels).(selected := NOTHING, unclamped := 0.0, combined := 0.0, combinedEffective := 0.0,
                               active := 0, unsupported := 0))
    {
      issues := issues.(frameGap := true);
      effects, devices := map[], map[];
      levels := levels.(selected := NOTHING, unclamped := 0.0, combined := 0.0, combinedEffective := 0.0,
                        active := 0, unsupported := 0);
    }

    method InvalidateAfterDrop(now: real)
      modifies this
      ensures Value() == Sources.InvalidateAfterDrop(old(Value()), now)
    {
      hide Silenced;
      Forget();
      Silence(now);
    }

    method Apply(f: Frame, now: real)
      modifies this
      ensures Value() == Sources.Apply(old(Value()), f, now)
    {
      if f.messageType == DROP_NOTICE {
        if f.dropped > losses.frames {
          InvalidateAfterDrop(now);
        }
        losses := losses.(frames := if f.dropped > losses.frames then f.dropped else losses.frames);
        return;
      }
      if f.hresult < 0 && f.messageType != HELLO {
        return;
      }
      if f.messageType == DEVICE_CREATED {
        var _ := GetOrCreateDevice(f.deviceId);
      } else if f.messageType == DEVICE_PROPERTY_CHANGED {
        if f.propertyId == 1 {
          var found := GetOrCreateDevice(f.deviceId);
          if found {
            devices := devices[f.deviceId := devices[f.deviceId].(gain := NormalizeUnsigned(f.gain))];
          }
        }
      } else if f.messageType == EFFECT_CREATED {
        ApplyEffectCreated(f);
      } else if f.messageType == EFFECT_PARAMETERS_CHANGED {
        ApplyEffectParameters(f, now);
      } else if f.messageType == EFFECT_COMMAND {
        ApplyEffectCommand(f, now);
      } else if f.messageType == DEVICE_COMMAND {
        ApplyDeviceCommand(f.deviceId, f.diFlags, now);
      }
    }

    method ResetPeak()
      modifies this`levels
      ensures Value() == Sources.ResetPeak(old(Value()))
    {
      levels := levels.(peakCommand := levels.selected.command, peakCombined := levels.combined,
                        peakUnclamped := levels.unclamped);
    }

    method DeactivateAll()
      modifies this`effects
      ensures effects == Deactivated(old(effects))
    {
      var keys := effects.Keys;
      while keys != {}
        invariant keys <= effects.Keys == old(effects.Keys)
        invariant forall k | k in effects ::
          effects[k] == if k in keys then old(effects)[k] else Deactivated(old(effects))[k]
        decreases keys
      {
        var k :| k in keys;
        effects := effects[k := effects[k].(schedule := effects[k].schedule.(active := false))];
        keys := keys - {k};
      }
    }

    method ResetAfterDisconnect(now: real)
      modifies this
      ensures Value() == Sources.ResetAfterDisconnect(old(Value()), now)
    {
      hide Silenced, Deactivated;
      DeactivateAll();
      issues := issues.(reconnect := true);
      levels := levels.(selected := levels.selected.(command := 0.0, effective := 0.0),
                        unclamped := 0.0, combined := 0.0, combinedEffective := 0.0);
      Silence(now);
    }

    // ---------- Ticks ----------

    method CountUnobservable(order: seq<EffectKey>) returns (triggers: nat)
      requires Enumerates(order, effects.Keys)
      ensures triggers == CountTriggers(Value(), order)
    {
      triggers := 0;
      for i := 0 to |order|
        invariant triggers == CountTriggers(Value(), order[..i])
      {
        assert order[..i + 1][..i] == order[..i];
        EachInOrder(order, effects.Keys, i);
        if HasUnobservableTrigger(effects[order[i]]) {
          triggers := triggers + 1;
        }
      }
      assert order[..|order|] == order;
    }

    // One effect's turn.
    method Ask(key: EffectKey, now: real, sine: real -> real, mix: MixBoard)
      requires key in effects && mix.Valid()
      modifies this`effects, mix
      ensures mix.Valid() && effects == old(effects)[key := ProbedEffect(old(effects)[key], devices, now)]
      ensures mix.Parts() == old(mix.Parts()) + PartsOf(old(effects)[key], devices, now, sine)
      ensures mix.active == old(mix.active) + Sounds(old(effects)[key], devices, now)
      ensures mix.unsupported == old(mix.unsupported) + Unsupported(old(effects)[key], devices, now)
    {
      hide RawLevelAt, IsProducing, Probe, IsSupported;
      var effect := effects[key];
      if effect.deviceId in devices && !devices[effect.deviceId].paused {
        var device := devices[effect.deviceId];
        effects := effects[key := effect.(schedule := Probe(effect.schedule, now))];
        if IsProducing(effect.schedule, now) && device.actuatorsEnabled {
          mix.Count(IsSupported(effect));
          if IsSupported(effect) {
            mix.Add(Part(effect.deviceId, RawLevelAt(sine, effect, now), effect.gain, device.gain));
          }
        }
      }
    }

    // The loop over the effect table.
    method AskAll(order: seq<EffectKey>, now: real, sine: real -> real) returns (mix: MixBoard)
      requires Enumerates(order, effects.Keys)
      modifies this`effects
      ensures fresh(mix) && mix.Valid() && mix.Parts() == Parts(old(Value()), order, now, sine)
      ensures mix.active == CountSounding(old(Value()), order, now)
        && mix.unsupported == CountUnsupported(old(Value()), order, now)
      ensures effects == ProbedEffects(old(Value()), now)
    {
      hide PartsOf, Sounds, Unsupported, ProbedEffect, Parts, CountSounding, CountUnsupported;
      ghost var s := Value();
      mix := new MixBoard();
      NothingAsked(s, now, sine);
      for i := 0 to |order|
        modifies this`effects, mix
        invariant effects.Keys == s.effects.Keys && devices == s.devices
        invariant forall k | k in effects ::
          effects[k] == if k in order[..i] then ProbedEffect(s.effects[k], devices, now) else s.effects[k]
        invariant mix.Valid() && mix.Parts() == Parts(s, order[..i], now, sine)
        invariant mix.active == CountSounding(s, order[..i], now)
          && mix.unsupported == CountUnsupported(s, order[..i], now)
      {
        EachInOrder(order, s.effects.Keys, i);
        OneMoreAsked(s, order, i, now, sine);
        Ask(order[i], now, sine, mix);
      }
      assert order[..|order|] == order;
      AllInOrder(order, s.effects.Keys);
    }

    /** Asks every effect in turn, in the table's order, and mixes what is sounding. */
    method EvaluateEffects(order: seq<EffectKey>, now: real, sine: real -> real)
      requires Enumerates(order, effects.Keys)
      modifies this`effects, this`levels
      ensures Value() == Evaluate(old(Value()), order, now, sine)
    {
      hide Parts, CountSounding, CountUnsupported, CountTriggers, ProbedEffects, Peak, Clamp01, Strongest, Enumerates;
      var triggers := CountUnobservable(order);
      var mix := AskAll(order, now, sine);
      var unclamped, combinedEffective := mix.Busiest();
      levels := Levels(mix.selected, unclamped, Clamp01(unclamped), Clamp01(combinedEffective),
                       MaxReal(levels.peakCommand, mix.selected.command),
                       MaxReal(levels.peakCombined, Clamp01(unclamped)),
                       MaxReal(levels.peakUnclamped, unclamped), mix.active, mix.unsupported, triggers);
    }

    method Prune(cutoff: real)
      modifies this`meter
      ensures meter == old(meter).(history := Pruned(old(meter.history), cutoff))
    {
      while meter.history != [] && meter.history[0].end <= cutoff
        invariant meter == old(meter).(history := meter.history)
        invariant Pruned(meter.history, cutoff) == Pruned(old(meter.history), cutoff)
        decreases |meter.history|
      {
        meter := meter.(history := meter.history[1..]);
      }
    }

    method AddClipped(cutoff: real) returns (clipped: real)
      ensures clipped == ClippedTime(meter.history, cutoff)
    {
      var history := meter.history;
      clipped := 0.0;
      for i := 0 to |history|
        invariant clipped + ClippedTime(history[i..], cutoff) == ClippedTime(history, cutoff)
      {
        assert history[i..][1..] == history[i + 1..];
        if history[i].clipped {
          clipped := clipped + MaxReal(0.0, history[i].end - MaxReal(history[i].start, cutoff));
        }
      }
    }

    /** Prunes the history and adds up what is left of it in the window. */
    method CalculateRatio(now: real, window: int) returns (ratio: real)
      requires window > 0
      modifies this`meter
      ensures meter == old(meter).(history := Pruned(old(meter.history), now - window as real))
      ensures ratio == Ratio(old(meter.history), now, window)
    {
      hide Pruned, ClippedTime, Clamp01;
      Prune(now - window as real);
      var clipped := AddClipped(now - window as real);
      ratio := Clamp01(clipped / window as real);
    }

    // The sample of this tick, and the interval since the last one.
    method Observe(now: real, window: int, currentAtLimit: bool, currentBelowExit: bool)
      modifies this`meter
      ensures meter ==
        if Gap(old(meter.lastTick), now, window) then Restart(old(meter), now, currentAtLimit, currentBelowExit)
        else Advance(old(meter), now, currentAtLimit, currentBelowExit)
    {
      if meter.lastTick < 0.0 || now < meter.lastTick || now - meter.lastTick > MaxReal(250.0, window as real) {
        meter := meter.(history := [], continuousLimit := 0.0, continuousBelow := 0.0);
      } else {
        var delta := now - meter.lastTick;
        if delta > 0.0 {
          meter := meter.(history := meter.history + [ClipInterval(meter.lastTick, now, meter.lastAtLimit)]);
          meter := meter.(continuousLimit := if meter.lastAtLimit then meter.continuousLimit + delta else 0.0);
          meter := meter.(continuousBelow := if meter.lastBelowExit then meter.continuousBelow + delta else 0.0);
        }
        if currentAtLimit != meter.lastAtLimit && currentAtLimit {
          meter := meter.(continuousLimit := 0.0);
        }
        if currentBelowExit != meter.lastBelowExit && currentBelowExit {
          meter := meter.(continuousBelow := 0.0);
        }
      }
      meter := meter.(lastTick := now, lastAtLimit := currentAtLimit, lastBelowExit := currentBelowExit);
    }

    // Whether clipping starts or ends with this sample.
    method Decide(settings: Settings, currentBelowExit: bool) returns (edge: Option<Edge>)
      requires Normal(settings)
      modifies this`meter
      ensures (meter, edge) == Judged(old(meter), settings, currentBelowExit)
    {
      hide Normal, Trigger;
      if !meter.isClipping && (meter.continuousLimit >= settings.continuousLimit as real
        || meter.clipRatio >= Trigger(settings)) {
        meter := meter.(isClipping := true);
        return Some(Started);
      }
      if meter.isClipping && currentBelowExit && meter.continuousBelow >= settings.exitHold as real {
        meter := meter.(isClipping := false, history := [], clipRatio := 0.0, continuousLimit := 0.0);
        return Some(Ended);
      }
      edge := None;
    }

    /** The tick once the levels are known. */
    method Judge(now: real, settings: Settings) returns (edge: Option<Edge>)
      requires Normal(settings)
      modifies this`meter
      ensures (meter, edge) == Hysteresis.Tick(old(meter), now, settings, levels.combined,
        EstimateReliable(old(Value())))
    {
      hide Silenced, Restart, Advance, Gap, Pruned, Ratio, Entry, Exit, Judged, Normal;
      if !(StateReliable(Value()) && levels.triggers == 0) {
        var wasClipping := meter.isClipping;
        Silence(now);
        return if wasClipping then Some(Ended) else None;
      }
      var currentAtLimit, currentBelowExit := levels.combined >= Entry(settings), levels.combined < Exit(settings);
      Observe(now, settings.window, currentAtLimit, currentBelowExit);
      meter := meter.(atLimit := currentAtLimit);
      WindowPositive(settings);
      var ratio := CalculateRatio(now, settings.window);
      meter := meter.(clipRatio := ratio);
      assert meter == Sampled(old(meter), now, settings, levels.combined);
      edge := Decide(settings, currentBelowExit);
    }

    method Tick(order: seq<EffectKey>, now: real, settings: Settings, sine: real -> real) returns (edge: Option<Edge>)
      requires Normal(settings) && Enumerates(order, effects.Keys)
      modifies this
      ensures (Value(), edge) == TickSource(old(Value()), order, now, settings, sine)
    {
      hide Evaluate, Hysteresis.Tick, Enumerates, Normal;
      EvaluateEffects(order, now, sine);
      edge := Judge(now, settings);
    }
  }

  lemma NothingAsked(s: Source, now: real, sine: real -> real)
    ensures Parts(s, [], now, sine) == [] && CountSounding(s, [], now) == 0 && CountUnsupported(s, [], now) == 0
  {
  }

  lemma OneMoreAsked(s: Source, order: seq<EffectKey>, i: nat, now: real, sine: real -> real)
    requires i < |order| && order[i] in s.effects
    ensures var e := s.effects[order[i]];
      && Parts(s, order[..i + 1], now, sine) == Parts(s, order[..i], now, sine) + PartsOf(e, s.devices, now, sine)
      && CountSounding(s, order[..i + 1], now) == CountSounding(s, order[..i], now) + Sounds(e, s.devices, now)
      && CountUnsupported(s, order[..i + 1], now)
        == CountUnsupported(s, order[..i], now) + Unsupported(e, s.devices, now)
      && (forall k | k in order[..i + 1] :: k in order[..i] || k == order[i]) && order[i] in order[..i + 1]
  {
    hide PartsOf, Sounds, Unsupported;
    assert order[..i + 1][..i] == order[..i];
  }

  lemma WindowPositive(settings: Settings)
    requires Normal(settings)
    ensures settings.window > 0
  {
  }

  // A start overwrites whatever the refresh would have computed.
  lemma StartOverrides(s: Schedule, now: real)
    ensures Begin(RefreshSchedule(s), now, 1) == Begin(s, now, 1)
  {
  }
}
