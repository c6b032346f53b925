/** A plain constant force, from the frames that create and start it to the level a tick finds. */
module PlainForce {
  import opened Bytes
  import opened Protocol
  import opened Effects
  import opened EffectShapes
  import opened PauseClock
  import opened Settings
  import opened Sources
  import opened SourceSafety
  import opened FrameMeaning
  import opened SourceClock
  import opened TickMeaning

  /** The game creates an endless constant force without an envelope. */
  predicate CreatesConstant(f: Frame) {
    && f.messageType == 4 && f.hresult >= 0 && f.effectId != 0 && !f.presence.Absent? && f.effectKind == 1
    && f.duration == 0xFFFF_FFFF && f.attackTime == 0 && f.fadeTime == 0
  }

  /** The game starts the effect of another frame. */
  predicate Starts(f: Frame, created: Frame) {
    && f.messageType == 6 && f.hresult >= 0 && f.effectCommand == 2
    && f.deviceId == created.deviceId && f.effectId == created.effectId
    && (f.effectKind == 0 || f.effectKind == created.effectKind)
  }

  predicate Running(s: Source, id: u32) {
    id in s.devices ==> !s.devices[id].paused && s.devices[id].actuatorsEnabled
  }

  function Commanded(f: Frame): real { MinReal(1.0, Abs(f.magnitude as real / 10000.0)) }

  // A start of an effect in the table, and nothing else for it.
  lemma StartedClock(s: Source, f: Frame, at: real)
    requires SourceInv(s) && f.messageType == 6 && f.hresult >= 0 && f.effectCommand == 2
    requires KeyOf(f) in s.effects
    ensures var (n, key) := (Apply(s, f, at), KeyOf(f));
      && key in n.effects
      && var e := n.effects[key].schedule;
      && e.active && e.activeFrom == at + s.effects[key].schedule.startDelay as real / 1000.0
      && (s.effects[key].schedule.duration == 0xFFFF_FFFF ==> e.activeUntil == Forever)
  {
    hide Apply, Step, OpsOf, Tables;
    var key := KeyOf(f);
    StoredTable(s, key);
    FrameFollows(s, f, key, at);
    OneStart(s, f, key);
    var c := ClockAt(s, key);
    assert [Start(f.iterations)][1..] == [];
    assert Steps(c, at, [Start(f.iterations)]) == Step(c, Timed(at, Start(f.iterations)));
    StartStep(c, at, f.iterations);
  }

  lemma StoredTable(s: Source, key: EffectKey)
    requires SourceInv(s) && key in s.effects
    ensures InTable(s, key)
  {
    hide Tables;
  }

  lemma OneStart(s: Source, f: Frame, key: EffectKey)
    requires InTable(s, key) && f.messageType == 6 && f.hresult >= 0 && f.effectCommand == 2 && KeyOf(f) == key
    ensures OpsOf(s, f, key) == [Start(f.iterations)]
  {
    hide Tables, Accepted;
    assert [Start(f.iterations)] + [] == [Start(f.iterations)];
  }

  lemma StartStep(c: Clock, at: real, iterations: u32)
    ensures var e := Step(c, Timed(at, Start(iterations))).schedule;
      && e.active && e.activeFrom == at + c.schedule.startDelay as real / 1000.0
      && (c.schedule.duration == 0xFFFF_FFFF ==> e.activeUntil == Forever)
  {
  }

  /** The source after the two frames holds the effect, playing. */
  lemma ConstantPlays(s: Source, created: Frame, started: Frame, at: real, from: real, now: real, sine: real -> real)
    requires SourceInv(s) && CreatesConstant(created) && Fits(s, created) && Running(s, created.deviceId)
    requires Starts(started, created) && from + created.startDelay as real / 1000.0 <= now
    ensures var (n, key) := (Apply(Apply(s, created, at), started, from), EffectKey(created.deviceId, created.effectId));
      && SourceInv(n) && Adds(n, key, now) && RawLevelAt(sine, n.effects[key], now) == Commanded(created)
      && (s.effects == map[] ==> n.effects.Keys == {key})
  {
    hide Apply, SourceInv, Fits, RawLevelAt;
    var key := EffectKey(created.deviceId, created.effectId);
    var a := Apply(s, created, at);
    ApplyKeeps(s, created, at);
    CreationStores(s, created, at);
    var n := Apply(a, started, from);
    ApplyKeeps(a, started, from);
    CommandKeepsParameters(a, started, from);
    StartedClock(a, started, from);
    StillRunning(s, a, created.deviceId);
    KeyNames(n, key);
    ConstantLevel(sine, n.effects[key], now);
  }

  lemma StillRunning(s: Source, n: Source, id: u32)
    requires Running(s, id) && DeviceKnown(s, n, id)
    ensures id in n.devices && !n.devices[id].paused && n.devices[id].actuatorsEnabled
  {
  }

  lemma OnlyKey(order: seq<EffectKey>, key: EffectKey)
    requires Enumerates(order, {key})
    ensures order == [key]
  {
    assert |order| == |multiset(order)| == 1;
    assert order[0] in multiset(order);
  }

  lemma OneLoad(s: Source, key: EffectKey, id: u32, now: real, sine: real -> real)
    requires Adds(s, key, now)
    ensures Load(s, [key], id, now, sine)
      == if s.effects[key].deviceId == id then RawLevelAt(sine, s.effects[key], now) else 0.0
  {
    hide RawLevelAt, Audible, Modelled;
    assert [key][..0] == [];
  }

  /**
   Once its start delay is over, an endless constant force without an envelope, on a device that runs with its
   actuators on, is heard at its magnitude, cut at full scale; alone in its source it is all that is heard.
   */
  lemma ConstantIsHeard(s: Source, created: Frame, started: Frame, at: real, from: real, now: real,
      order: seq<EffectKey>, settings: Settings, sine: real -> real)
    requires SourceInv(s) && CreatesConstant(created) && Fits(s, created) && Running(s, created.deviceId)
    requires Starts(started, created) && from + created.startDelay as real / 1000.0 <= now && Normal(settings)
    requires Enumerates(order, Apply(Apply(s, created, at), started, from).effects.Keys)
    ensures var l := TickSource(Apply(Apply(s, created, at), started, from), order, now, settings, sine).0.levels;
      && Commanded(created) <= l.selected.command <= l.combined
      && (s.effects == map[] ==> l.selected.command == l.unclamped == l.combined == Commanded(created))
  {
    hide Apply, SourceInv, Fits, RawLevelAt, TickSource, Load, OutputLoad, Audible, Modelled, Enumerates, Normal,
      Adds, CreatesConstant, Starts, Running;
    var n, key := Apply(Apply(s, created, at), started, from), EffectKey(created.deviceId, created.effectId);
    ConstantPlays(s, created, started, at, from, now, sine);
    TickMeasures(n, order, now, settings, sine);
    TickKeeps(n, order, now, settings, sine);
    LevelsInOrder(TickSource(n, order, now, settings, sine).0);
    AddsStored(n, key, now);
    if s.effects == map[] {
      OnlyKey(order, key);
      OneLoad(n, key, key.deviceId, now, sine);
      KeyNames(n, key);
      forall k | Adds(n, k, now)
        ensures k == key
      {
        AddsStored(n, k, now);
      }
      var l := TickSource(n, order, now, settings, sine).0.levels;
      assert Loads(n, order, now, sine)(key.deviceId) == l.unclamped;
      assert Shows(n, key, now, sine, l.selected);
    }
  }

  lemma AddsStored(s: Source, key: EffectKey, now: real)
    requires Adds(s, key, now)
    ensures key in s.effects
  {
  }

  lemma LevelsInOrder(s: Source)
    requires SourceInv(s)
    ensures s.levels.selected.command <= s.levels.combined
  {
    hide Tables;
  }
}
