/** Frames drive each effect's schedule exactly as the clock events they stand for. */
module SourceClock {
  import opened Bytes
  import opened Protocol
  import opened Effects
  import opened PauseClock
  import opened Settings
  import opened Hysteresis
  import opened Sources
  import opened SourceSafety
  import opened FrameMeaning

  predicate InTable(s: Source, key: EffectKey) {
    Tables(s.effects, s.devices) && key in s.effects
  }

  function ClockAt(s: Source, key: EffectKey): Clock
    requires InTable(s, key)
  {
    Clock(s.effects[key].schedule, s.devices[key.deviceId].paused, s.devices[key.deviceId].pausedAt)
  }

  function When(condition: bool, op: Op): seq<Op> { if condition then [op] else [] }

  function Told<T>(given: bool, value: T): Option<T> { if given then Some(value) else None }

  // What the flags of a parameter frame, by their weights on the wire, mean for playback.
  function ParameterOps(f: Frame, iterations: u32): seq<Op> {
    [Update(Told(Has(f.flags, 0x1), f.duration), Told(Has(f.flags, 0x200), f.startDelay))]
    + When(Has(f.flags, 0x2000_0000), Start(1))
    + When(Has(f.hresult, 0x4), Start(if Has(f.flags, 0x2000_0000) then 1 else iterations))
  }

  // Commands 2 to 4 start, stop and unload. A solo start of an effect the tables have no room for stops nothing.
  function CommandOps(f: Frame, key: EffectKey, accepted: bool): seq<Op> {
    if KeyOf(f) == key then
      When(f.effectCommand == 2, Start(f.iterations)) + When(f.effectCommand == 3 || f.effectCommand == 4, Op.Stop)
    else When(accepted && f.effectCommand == 2 && Has(f.flags, 0x1) && f.deviceId == key.deviceId, Op.Stop)
  }

  function DeviceOps(command: u32): seq<Op> {
    When(Has(command, 0x1), StopAll) + When(Has(command, 0x2), StopAll)
    + When(Has(command, 0x4), Pause) + When(Has(command, 0x8), Continue)
  }

  predicate Accepted(s: Source, f: Frame) { KeyOf(f) in s.effects || Fits(s, f) }

  /** What a frame means for the clock of one effect. */
  function OpsOf(s: Source, f: Frame, key: EffectKey): seq<Op>
    requires InTable(s, key)
  {
    if f.hresult < 0 then []
    else if f.messageType == 5 && KeyOf(f) == key && f.effectId != 0 then
      ParameterOps(f, s.effects[key].schedule.iterations)
    else if f.messageType == 6 then CommandOps(f, key, Accepted(s, f))
    else if f.messageType == 7 && f.deviceId == key.deviceId then DeviceOps(f.diFlags)
    else []
  }

  function Steps(c: Clock, now: real, ops: seq<Op>): Clock
    decreases ops
  {
    if ops == [] then c else Steps(Step(c, Timed(now, ops[0])), now, ops[1..])
  }

  lemma {:induction false} StepsConcat(c: Clock, now: real, a: seq<Op>, b: seq<Op>)
    ensures Steps(c, now, a + b) == Steps(Steps(c, now, a), now, b)
    decreases a
  {
    hide Step;
    if a == [] {
      assert a + b == b;
    } else {
      assert (a + b)[1..] == a[1..] + b;
      StepsConcat(Step(c, Timed(now, a[0])), now, a[1..], b);
    }
  }

  lemma StepsWhen(c: Clock, now: real, ops: seq<Op>, condition: bool, op: Op)
    ensures Steps(c, now, ops + When(condition, op))
      == if condition then Step(Steps(c, now, ops), Timed(now, op)) else Steps(c, now, ops)
  {
    hide Step;
    StepsConcat(c, now, ops, When(condition, op));
    assert condition ==> [op][1..] == [];
  }

  // The effect stays in the table under its key.
  predicate Survives(s: Source, f: Frame, key: EffectKey) {
    && (f.messageType == 8 ==> f.dropped <= s.losses.frames)
    && !(f.messageType == 4 && KeyOf(f) == key)
    && !(f.messageType == 6 && KeyOf(f) == key && f.effectCommand == 5)
  }

  lemma ParametersFollow(s: Source, f: Frame, key: EffectKey, now: real)
    requires InTable(s, key) && KeyOf(f) == key && f.effectId != 0
    ensures var n := ApplyEffectParameters(s, f, now);
      InTable(n, key) && ClockAt(n, key) == Steps(ClockAt(s, key), now,
        ParameterOps(f, s.effects[key].schedule.iterations))
  {
    ParametersOk(s, f, now);
    Bits(f.flags, 0x1);
    Bits(f.flags, 0x200);
    Bits(f.flags, 0x2000_0000);
    Bits(f.hresult, 0x4);
    var n, c := ApplyEffectParameters(s, f, now), ClockAt(s, key);
    assert n.devices == s.devices && n.effects[key].schedule == UpdatedSchedule(s.effects[key], f, c.paused, now);
    hide ApplyEffectParameters, Tables, UpdatePlayback, Begin, Bit, Has;
    var first := [Update(Told(Has(f.flags, 0x1), f.duration), Told(Has(f.flags, 0x200), f.startDelay))];
    assert first[1..] == [];
    assert Steps(c, now, first) == Step(c, Timed(now, first[0]));
    var second := first + When(Has(f.flags, 0x2000_0000), Start(1));
    StepsWhen(c, now, first, Has(f.flags, 0x2000_0000), Start(1));
    StepsWhen(c, now, second, Has(f.hresult, 0x4),
      Start(if Has(f.flags, 0x2000_0000) then 1 else c.schedule.iterations));
    IterationsKept(c.schedule, c.paused, f, now);
  }

  lemma IterationsKept(s: Schedule, paused: bool, f: Frame, now: real)
    ensures UpdatePlayback(s, paused, Told(Has(f.flags, 0x1), f.duration),
      Told(Has(f.flags, 0x200), f.startDelay), now).iterations == s.iterations
    ensures Begin(s, now, 1).iterations == 1
  {
  }

  lemma CommandFollows(s: Source, f: Frame, key: EffectKey, now: real)
    requires InTable(s, key) && !(KeyOf(f) == key && f.effectCommand == 5)
    ensures var n := ApplyEffectCommand(s, f, now);
      InTable(n, key) && ClockAt(n, key) == Steps(ClockAt(s, key), now, CommandOps(f, key, Accepted(s, f)))
  {
    CommandOk(s, f, now);
    CommandClock(s, f, key, now);
    hide ApplyEffectCommand, Tables, Begin, StopSchedule, Has, Accepted;
    var c := ClockAt(s, key);
    StepsWhen(c, now, [], f.effectCommand == 2, Start(f.iterations));
    StepsWhen(c, now, [], f.effectCommand == 3 || f.effectCommand == 4, Op.Stop);
    StepsWhen(c, now, [], Accepted(s, f) && f.effectCommand == 2 && Has(f.flags, 0x1)
      && f.deviceId == key.deviceId, Op.Stop);
    assert [] + When(f.effectCommand == 2, Start(f.iterations)) + []
      == [] + When(f.effectCommand == 2, Start(f.iterations));
  }

  lemma CommandClock(s: Source, f: Frame, key: EffectKey, now: real)
    requires InTable(s, key) && !(KeyOf(f) == key && f.effectCommand == 5)
    ensures var n := ApplyEffectCommand(s, f, now);
      && key in n.effects && key.deviceId in n.devices && n.devices[key.deviceId] == s.devices[key.deviceId]
      && n.effects[key].schedule ==
         if KeyOf(f) == key && f.effectCommand == 2 then Begin(s.effects[key].schedule, now, f.iterations)
         else if KeyOf(f) == key && (f.effectCommand == 3 || f.effectCommand == 4) then
           StopSchedule(s.effects[key].schedule)
         else if KeyOf(f) != key && Accepted(s, f) && f.effectCommand == 2 && Has(f.flags, 0x1)
           && f.deviceId == key.deviceId
         then StopSchedule(s.effects[key].schedule)
         else s.effects[key].schedule
  {
    var e := s.effects[key];
    assert EffectKey(e.deviceId, e.effectId) == key;
    WithRoomOk(s, KeyOf(f));
    Bits(f.flags, 0x1);
    RoomIs(s, f);
    hide Begin, StopSchedule, Bit, Has, Tables, WithRoom, HasRoom, Fits;
  }

  // ---------- Device commands ----------

  // The effect's schedule and device, wherever they are stored.
  predicate Holds(s: Source, key: EffectKey, c: Clock) {
    && key in s.effects && s.effects[key].deviceId == key.deviceId && key.deviceId in s.devices
    && c == Clock(s.effects[key].schedule, s.devices[key.deviceId].paused, s.devices[key.deviceId].pausedAt)
  }

  lemma PartsFollow(s: Source, key: EffectKey, command: u32, now: real, c: Clock)
    requires Holds(s, key, c)
    ensures Holds(ResetPart(s, key.deviceId, command), key, if Has(command, 0x1) then
      Step(c, Timed(now, StopAll)) else c)
    ensures Holds(StopPart(s, key.deviceId, command), key, if Has(command, 0x2) then
      Step(c, Timed(now, StopAll)) else c)
    ensures Holds(PausePart(s, key.deviceId, command, now), key, if Has(command, 0x4) then
      Step(c, Timed(now, Pause)) else c)
    ensures Holds(ContinuePart(s, key.deviceId, command, now), key, if Has(command, 0x8) then
      Step(c, Timed(now, Continue)) else c)
    ensures Holds(ActuatorPart(s, key.deviceId, command), key, c)
  {
    hide Bit, Has, StopSchedule, ResumeAfterPause;
    Bits(command, 0x1);
    Bits(command, 0x2);
    Bits(command, 0x4);
    Bits(command, 0x8);
  }

  lemma DeviceOpsFollow(c: Clock, command: u32, now: real)
    ensures var c1 := if Has(command, 0x1) then Step(c, Timed(now, StopAll)) else c;
      var c2 := if Has(command, 0x2) then Step(c1, Timed(now, StopAll)) else c1;
      var c3 := if Has(command, 0x4) then Step(c2, Timed(now, Pause)) else c2;
      var c4 := if Has(command, 0x8) then Step(c3, Timed(now, Continue)) else c3;
      Steps(c, now, DeviceOps(command)) == c4
  {
    hide Step, Has;
    var a := [] + When(Has(command, 0x1), StopAll);
    var b := a + When(Has(command, 0x2), StopAll);
    var d := b + When(Has(command, 0x4), Pause);
    StepsWhen(c, now, [], Has(command, 0x1), StopAll);
    StepsWhen(c, now, a, Has(command, 0x2), StopAll);
    StepsWhen(c, now, b, Has(command, 0x4), Pause);
    StepsWhen(c, now, d, Has(command, 0x8), Continue);
    assert d + When(Has(command, 0x8), Continue) == DeviceOps(command);
  }

  lemma DeviceFollows(s: Source, key: EffectKey, command: u32, now: real)
    requires InTable(s, key)
    ensures var n := ApplyDeviceCommand(s, key.deviceId, command, now);
      InTable(n, key) && ClockAt(n, key) == Steps(ClockAt(s, key), now, DeviceOps(command))
  {
    hide Has, ResetPart, StopPart, PausePart, ContinuePart, ActuatorPart, Step, DeviceOps;
    DeviceCommandOk(s, key.deviceId, command, now);
    var id := key.deviceId;
    var c := ClockAt(s, key);
    assert EffectKey(s.effects[key].deviceId, s.effects[key].effectId) == key;
    DeviceOpsFollow(c, command, now);
    PartsFollow(s, key, command, now, c);
    var s1, c1 := ResetPart(s, id, command), if Has(command, 0x1) then Step(c, Timed(now, StopAll)) else c;
    PartsFollow(s1, key, command, now, c1);
    var s2, c2 := StopPart(s1, id, command), if Has(command, 0x2) then Step(c1, Timed(now, StopAll))
      else c1;
    PartsFollow(s2, key, command, now, c2);
    var s3, c3 := PausePart(s2, id, command, now), if Has(command, 0x4) then Step(c2, Timed(now, Pause))
      else c2;
    PartsFollow(s3, key, command, now, c3);
    var s4, c4 := ContinuePart(s3, id, command, now), if Has(command, 0x8) then
      Step(c3, Timed(now, Continue)) else c3;
    PartsFollow(s4, key, command, now, c4);
  }

  lemma PartsSkip(s: Source, key: EffectKey, id: u32, command: u32, now: real, c: Clock)
    requires Holds(s, key, c) && id in s.devices && id != key.deviceId
    ensures Holds(ResetPart(s, id, command), key, c) && Holds(StopPart(s, id, command), key, c)
    ensures Holds(PausePart(s, id, command, now), key, c) && Holds(ContinuePart(s, id, command, now), key, c)
    ensures Holds(ActuatorPart(s, id, command), key, c)
    ensures id in ResetPart(s, id, command).devices && id in StopPart(s, id, command).devices
    ensures id in PausePart(s, id, command, now).devices && id in ContinuePart(s, id, command, now).devices
  {
    hide Bit, StopSchedule, ResumeAfterPause;
  }

  // A command to another device touches neither the effect nor its device.
  lemma OtherDevice(s: Source, key: EffectKey, id: u32, command: u32, now: real)
    requires InTable(s, key) && id != key.deviceId
    ensures var n := ApplyDeviceCommand(s, id, command, now); InTable(n, key) && ClockAt(n, key) == ClockAt(s, key)
  {
    hide ResetPart, StopPart, PausePart, ContinuePart, ActuatorPart;
    DeviceCommandOk(s, id, command, now);
    var c, d := ClockAt(s, key), WithDevice(s, id);
    WithDeviceOk(s, id);
    assert EffectKey(s.effects[key].deviceId, s.effects[key].effectId) == key;
    hide Tables, WithDevice;
    if id in d.devices {
      PartsSkip(d, key, id, command, now, c);
      var s1 := ResetPart(d, id, command);
      PartsSkip(s1, key, id, command, now, c);
      var s2 := StopPart(s1, id, command);
      PartsSkip(s2, key, id, command, now, c);
      var s3 := PausePart(s2, id, command, now);
      PartsSkip(s3, key, id, command, now, c);
      PartsSkip(ContinuePart(s3, id, command, now), key, id, command, now, c);
    }
  }

  // Frames that are not about playback.
  lemma DeviceFrame(s: Source, id: u32, key: EffectKey)
    requires InTable(s, key)
    ensures InTable(WithDevice(s, id), key) && ClockAt(WithDevice(s, id), key) == ClockAt(s, key)
  {
    WithDeviceOk(s, id);
  }

  lemma PropertyFrame(s: Source, f: Frame, key: EffectKey)
    requires InTable(s, key)
    ensures InTable(ApplyProperty(s, f), key) && ClockAt(ApplyProperty(s, f), key) == ClockAt(s, key)
  {
    hide NormalizeUnsigned;
    WithDeviceOk(s, f.deviceId);
    PropertyOk(s, f);
  }

  lemma CreatedFrame(s: Source, f: Frame, key: EffectKey)
    requires InTable(s, key) && KeyOf(f) != key
    ensures InTable(ApplyEffectCreated(s, f), key) && ClockAt(ApplyEffectCreated(s, f), key) == ClockAt(s, key)
  {
    CreatedOk(s, f);
    WithRoomOk(s, KeyOf(f));
    hide CreatedEffect, Tables, WithRoom, HasRoom;
  }

  lemma OtherParameters(s: Source, f: Frame, key: EffectKey, now: real)
    requires InTable(s, key) && (KeyOf(f) != key || f.effectId == 0)
    ensures var n := ApplyEffectParameters(s, f, now); InTable(n, key) && ClockAt(n, key) == ClockAt(s, key)
  {
    ParametersOk(s, f, now);
    WithRoomOk(s, KeyOf(f));
    hide UpdatedEffect, Tables, WithRoom, HasRoom;
  }

  lemma StaleDrop(s: Source, f: Frame, now: real)
    requires f.dropped <= s.losses.frames
    ensures ApplyDrop(s, f.dropped, now) == s
  {
  }

  /** Every frame moves every surviving effect's clock by exactly the events it stands for. */
  lemma FrameFollows(s: Source, f: Frame, key: EffectKey, now: real)
    requires SourceInv(s) && InTable(s, key) && Survives(s, f, key)
    ensures InTable(Apply(s, f, now), key)
    ensures ClockAt(Apply(s, f, now), key) == Steps(ClockAt(s, key), now, OpsOf(s, f, key))
  {
    hide Tables, WithDevice, ApplyProperty, ApplyEffectCreated, ApplyEffectParameters,
      ApplyEffectCommand, ApplyDeviceCommand, ApplyDrop, Step, ParameterOps, CommandOps, DeviceOps,
      Accepted, Has, ClockAt;
    if f.messageType == DROP_NOTICE {
      StaleDrop(s, f, now);
    } else if f.messageType == DEVICE_CREATED {
      DeviceFrame(s, f.deviceId, key);
    } else if f.messageType == DEVICE_PROPERTY_CHANGED {
      PropertyFrame(s, f, key);
    } else if f.messageType == EFFECT_CREATED {
      CreatedFrame(s, f, key);
    } else if f.messageType == EFFECT_COMMAND {
      CommandFollows(s, f, key, now);
    } else if f.messageType == DEVICE_COMMAND && f.deviceId == key.deviceId {
      DeviceFollows(s, key, f.diFlags, now);
    } else if f.messageType == DEVICE_COMMAND {
      OtherDevice(s, key, f.deviceId, f.diFlags, now);
    } else if f.messageType == EFFECT_PARAMETERS_CHANGED && KeyOf(f) == key && f.effectId != 0 {
      ParametersFollow(s, f, key, now);
    } else if f.messageType == EFFECT_PARAMETERS_CHANGED {
      OtherParameters(s, f, key, now);
    }
  }

  /** A tick looks at every clock, and counts an effect as sounding when it is producing and audible. */
  lemma TickLooks(s: Source, order: seq<EffectKey>, key: EffectKey, now: real, settings: Settings, sine: real -> real)
    requires SourceInv(s) && Normal(settings) && InTable(s, key)
    ensures var n := TickSource(s, order, now, settings, sine).0;
      InTable(n, key) && ClockAt(n, key) == Step(ClockAt(s, key), Timed(now, Look))
    ensures Heard(s.effects[key], s.devices, now) <==>
      !ClockAt(s, key).paused && IsProducing(ClockAt(s, key).schedule, now) && s.devices[key.deviceId].actuatorsEnabled
  {
    hide Probe, LevelsAt, Tick, IsProducing;
    TickKeeps(s, order, now, settings, sine);
    assert EffectKey(s.effects[key].deviceId, s.effects[key].effectId) == key;
  }
}
