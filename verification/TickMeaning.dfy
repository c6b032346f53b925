/**
 What a tick measures, said of the tables alone: the load of each device, the loudest effect, how many effects play,
 and whether the measure can be relied on.
 */
module TickMeaning {
  import opened Bytes
  import opened Effects
  import opened EffectShapes
  import opened Settings
  import opened Hysteresis
  import opened Mixer
  import opened MixerLoops
  import opened MixerOrder
  import opened Sources
  import opened SourceSafety

  /** The effect plays, on a device that is running with its actuators on. */
  predicate Audible(s: Source, e: Effect, now: real) {
    && e.deviceId in s.devices && !s.devices[e.deviceId].paused && s.devices[e.deviceId].actuatorsEnabled
    && e.schedule.active && e.schedule.activeFrom <= now
    && (e.schedule.activeUntil.At? ==> now < e.schedule.activeUntil.time)
  }

  /** Constant forces, ramps, and waves with a period have a level. */
  predicate Modelled(e: Effect) { 1 <= e.kind <= 7 && (e.kind >= 3 ==> e.force.periodicPeriod > 0) }

  predicate Adds(s: Source, key: EffectKey, now: real) {
    key in s.effects && Audible(s, s.effects[key], now) && Modelled(s.effects[key])
  }

  function Gains(s: Source, key: EffectKey, now: real): real
    requires Adds(s, key, now)
  {
    s.effects[key].gain * s.devices[s.effects[key].deviceId].gain
  }

  /** What the effects of one device add up to, and what they do with their gains. */
  function Load(s: Source, order: seq<EffectKey>, id: u32, now: real, sine: real -> real): real {
    if order == [] then 0.0
    else
      var key := order[|order| - 1];
      Load(s, order[..|order| - 1], id, now, sine)
      + if Adds(s, key, now) && s.effects[key].deviceId == id then RawLevelAt(sine, s.effects[key], now) else 0.0
  }

  function OutputLoad(s: Source, order: seq<EffectKey>, id: u32, now: real, sine: real -> real): real {
    if order == [] then 0.0
    else
      var key := order[|order| - 1];
      OutputLoad(s, order[..|order| - 1], id, now, sine)
      + if Adds(s, key, now) && s.effects[key].deviceId == id
        then RawLevelAt(sine, s.effects[key], now) * s.effects[key].gain * s.devices[id].gain
        else 0.0
  }

  function Loads(s: Source, order: seq<EffectKey>, now: real, sine: real -> real): u32 -> real {
    (id: u32) => Load(s, order, id, now, sine)
  }

  function OutputLoads(s: Source, order: seq<EffectKey>, now: real, sine: real -> real): u32 -> real {
    (id: u32) => OutputLoad(s, order, id, now, sine)
  }

  function Tally(order: seq<EffectKey>, counts: EffectKey -> bool): nat {
    if order == [] then 0 else Tally(order[..|order| - 1], counts) + if counts(order[|order| - 1]) then 1 else 0
  }

  predicate Plays(s: Source, key: EffectKey, now: real) { key in s.effects && Audible(s, s.effects[key], now) }

  predicate HasTrigger(s: Source, key: EffectKey) {
    key in s.effects && s.effects[key].triggerButton != 0xFFFF_FFFF
  }

  /** The largest of the loads: none exceeds it, and some device that an effect adds to has it. */
  ghost predicate Busiest(s: Source, load: u32 -> real, now: real, peak: real) {
    && (forall id: u32 :: load(id) <= peak)
    && (if exists key :: Adds(s, key, now) then exists key :: Adds(s, key, now) && load(key.deviceId) == peak
        else peak == 0.0)
  }

  // ---------- The mixer's parts are the effects that add ----------

  lemma PartIs(s: Source, e: Effect, now: real, sine: real -> real)
    ensures PartsOf(e, s.devices, now, sine)
      == if Audible(s, e, now) && Modelled(e)
         then [Part(e.deviceId, RawLevelAt(sine, e, now), e.gain, s.devices[e.deviceId].gain)] else []
    ensures Sounds(e, s.devices, now) == if Audible(s, e, now) then 1 else 0
    ensures Unsupported(e, s.devices, now) == if Audible(s, e, now) && !Modelled(e) then 1 else 0
  {
    hide RawLevelAt;
    Supported(e);
  }

  lemma SumSnoc(amounts: seq<Amount>, a: Amount, id: u32)
    ensures DeviceSum(amounts + [a], id) == DeviceSum(amounts, id) + if a.deviceId == id then a.value else 0.0
  {
    assert (amounts + [a])[..|amounts|] == amounts;
  }

  lemma {:induction false} LoadsAreSums(s: Source, order: seq<EffectKey>, id: u32, now: real, sine: real -> real)
    ensures DeviceSum(Commands(Parts(s, order, now, sine)), id) == Load(s, order, id, now, sine)
    ensures DeviceSum(Effectives(Parts(s, order, now, sine)), id) == OutputLoad(s, order, id, now, sine)
    decreases order
  {
    hide RawLevelAt, DeviceSum, PartsOf, Audible, Modelled, Commands, Effectives;
    if order == [] {
      NoSums(id);
    } else {
      var front, key := order[..|order| - 1], order[|order| - 1];
      var parts := Parts(s, front, now, sine);
      LoadsAreSums(s, front, id, now, sine);
      assert parts + [] == parts;
      if key in s.effects {
        var e := s.effects[key];
        PartIs(s, e, now, sine);
        if Audible(s, e, now) && Modelled(e) {
          OnDevice(s, e, now);
          var p := Part(e.deviceId, RawLevelAt(sine, e, now), e.gain, s.devices[e.deviceId].gain);
          AmountsSnoc(parts, p);
          SumSnoc(Commands(parts), Amount(p.deviceId, p.raw), id);
          SumSnoc(Effectives(parts), Amount(p.deviceId, Effective(p)), id);
        }
      }
    }
  }

  lemma OnDevice(s: Source, e: Effect, now: real)
    requires Audible(s, e, now)
    ensures e.deviceId in s.devices
  {
  }

  lemma NoSums(id: u32)
    ensures DeviceSum(Commands([]), id) == 0.0 && DeviceSum(Effectives([]), id) == 0.0
  {
  }

  lemma {:induction false} CountsAreTallies(s: Source, order: seq<EffectKey>, now: real)
    ensures CountSounding(s, order, now) == Tally(order, key => Plays(s, key, now))
    ensures CountUnsupported(s, order, now) == Tally(order, key => Plays(s, key, now) && !Adds(s, key, now))
    ensures CountTriggers(s, order) == Tally(order, key => HasTrigger(s, key))
    decreases order
  {
    hide Audible, Modelled, Sounds, Unsupported;
    if order == [] {
    } else {
      var key := order[|order| - 1];
      CountsAreTallies(s, order[..|order| - 1], now);
      if key in s.effects {
        PartIs(s, s.effects[key], now, x => 0.0);
      }
    }
  }

  lemma {:induction false} NoneCounted(order: seq<EffectKey>, counts: EffectKey -> bool)
    ensures Tally(order, counts) == 0 <==> forall key | key in order :: !counts(key)
    decreases order
  {
    if order == [] {
    } else {
      var front := order[..|order| - 1];
      NoneCounted(front, counts);
      assert order == front + [order[|order| - 1]];
    }
  }

  lemma {:induction false} PartIn(s: Source, order: seq<EffectKey>, key: EffectKey, now: real, sine: real -> real)
    requires key in order && Adds(s, key, now)
    ensures Part(s.effects[key].deviceId, RawLevelAt(sine, s.effects[key], now), s.effects[key].gain,
                 s.devices[s.effects[key].deviceId].gain) in Parts(s, order, now, sine)
    decreases order
  {
    hide RawLevelAt, PartsOf, Audible, Modelled;
    var front, last := order[..|order| - 1], order[|order| - 1];
    OnDevice(s, s.effects[key], now);
    if key == last {
      PartIs(s, s.effects[key], now, sine);
    } else {
      assert key in front;
      PartIn(s, front, key, now, sine);
    }
  }

  // ---------- The peaks ----------

  lemma PartKey(s: Source, order: seq<EffectKey>, now: real, sine: real -> real, p: Part) returns (key: EffectKey)
    requires p in Parts(s, order, now, sine)
    ensures Adds(s, key, now) && p == Part(s.effects[key].deviceId, RawLevelAt(sine, s.effects[key], now),
      s.effects[key].gain, s.devices[s.effects[key].deviceId].gain)
  {
    hide RawLevelAt, PartsOf, Audible, Modelled, Parts;
    var i := PartHasKey(s, order, now, sine, p);
    key := order[i];
    PartIs(s, s.effects[key], now, sine);
  }

  lemma KeyNames(s: Source, key: EffectKey)
    requires SourceInv(s) && key in s.effects
    ensures s.effects[key].deviceId == key.deviceId
  {
    assert EffectKey(s.effects[key].deviceId, s.effects[key].effectId) == key;
  }

  /** A peak over the parts is a peak over the effects. */
  lemma PeakIsBusiest(s: Source, order: seq<EffectKey>, now: real, sine: real -> real, amounts: seq<Amount>,
      load: u32 -> real, peak: real)
    requires SourceInv(s) && Enumerates(order, s.effects.Keys)
    requires |amounts| == |Parts(s, order, now, sine)| && IsPeak(amounts, peak)
    requires forall i | 0 <= i < |amounts| ::
      amounts[i].deviceId == Parts(s, order, now, sine)[i].deviceId && amounts[i].value >= 0.0
    requires forall id: u32 :: load(id) == DeviceSum(amounts, id)
    ensures Busiest(s, load, now, peak)
  {
    hide DeviceSum, Parts, RawLevelAt, SourceInv, Enumerates, Audible, Modelled, Adds;
    var parts := Parts(s, order, now, sine);
    SumsFacts(amounts);
    forall id: u32
      ensures load(id) <= peak
    {
      NothingBelow(amounts, peak, id);
    }
    if key0 :| Adds(s, key0, now) {
      Everywhere(s, order, key0, now);
      PartIn(s, order, key0, now, sine);
      assert amounts != [];
      var i :| 0 <= i < |amounts| && peak == DeviceSum(amounts, amounts[i].deviceId);
      var key := PartKey(s, order, now, sine, parts[i]);
      Everywhere(s, order, key, now);
      KeyNames(s, key);
      assert load(key.deviceId) == peak;
    } else if parts != [] {
      var key := PartKey(s, order, now, sine, parts[0]);
      assert false;
    }
  }

  lemma Everywhere(s: Source, order: seq<EffectKey>, key: EffectKey, now: real)
    requires Adds(s, key, now)
    ensures key in s.effects && (Enumerates(order, s.effects.Keys) ==> key in order)
  {
    hide Audible, Modelled;
    assert key in multiset(s.effects.Keys);
    assert Enumerates(order, s.effects.Keys) ==> key in multiset(order);
  }

  lemma NothingBelow(amounts: seq<Amount>, peak: real, id: u32)
    requires IsPeak(amounts, peak) && forall i | 0 <= i < |amounts| :: amounts[i].value >= 0.0
    ensures DeviceSum(amounts, id) <= peak
  {
    hide DeviceSum;
    SumsFacts(amounts);
    if id in Sums(amounts) {
      var i :| 0 <= i < |amounts| && amounts[i].deviceId == id;
    } else if amounts != [] {
      SumGrows(amounts, 0, amounts[0].deviceId);
    }
  }

  /** What a tick finds out about the effects of a source. */
  ghost predicate Measured(s: Source, order: seq<EffectKey>, now: real, sine: real -> real, l: Levels) {
    && Busiest(s, Loads(s, order, now, sine), now, l.unclamped)
    && l.combined == MinReal(1.0, l.unclamped)
    && (exists peak :: Busiest(s, OutputLoads(s, order, now, sine), now, peak)
          && l.combinedEffective == MinReal(1.0, peak))
    && (forall key | Adds(s, key, now) :: RawLevelAt(sine, s.effects[key], now) <= l.selected.command)
    && (if exists key :: Adds(s, key, now) then exists key :: Adds(s, key, now) && Shows(s, key, now, sine, l.selected)
        else l.selected == Selected(0.0, 1.0, 1.0, 0.0))
    && l.active == Tally(order, key => Plays(s, key, now))
    && l.unsupported == Tally(order, key => Plays(s, key, now) && !Adds(s, key, now))
    && l.peakCommand == MaxReal(s.levels.peakCommand, l.selected.command)
    && l.peakCombined == MaxReal(s.levels.peakCombined, l.combined)
    && l.peakUnclamped == MaxReal(s.levels.peakUnclamped, l.unclamped)
  }

  /** The largest effect is shown with its own level and gains, and what they make of it. */
  predicate Shows(s: Source, key: EffectKey, now: real, sine: real -> real, shown: Selected)
    requires Adds(s, key, now)
  {
    var (e, raw) := (s.effects[key], RawLevelAt(sine, s.effects[key], now));
    shown == Selected(raw, e.gain, s.devices[e.deviceId].gain, MinReal(1.0, raw * e.gain * s.devices[e.deviceId].gain))
  }

  lemma LoadPeaks(s: Source, order: seq<EffectKey>, now: real, sine: real -> real)
    requires SourceInv(s) && Enumerates(order, s.effects.Keys)
    ensures Busiest(s, Loads(s, order, now, sine), now, Peak(Commands(Parts(s, order, now, sine))))
    ensures Busiest(s, OutputLoads(s, order, now, sine), now, Peak(Effectives(Parts(s, order, now, sine))))
  {
    hide Parts, DeviceSum, Load, OutputLoad, Effective, Tables, Busiest, Enumerates;
    var parts := Parts(s, order, now, sine);
    PartsFair(s, order, now, sine);
    forall i | 0 <= i < |parts|
      ensures parts[i].raw >= 0.0 && Effective(parts[i]) >= 0.0
    {
      assert parts[i] in parts;
      EffectiveFits(parts[i]);
    }
    forall id: u32
      ensures Load(s, order, id, now, sine) == DeviceSum(Commands(parts), id)
      ensures OutputLoad(s, order, id, now, sine) == DeviceSum(Effectives(parts), id)
    {
      LoadsAreSums(s, order, id, now, sine);
    }
    PeakIsBusiest(s, order, now, sine, Commands(parts), Loads(s, order, now, sine), Peak(Commands(parts)));
    PeakIsBusiest(s, order, now, sine, Effectives(parts), OutputLoads(s, order, now, sine),
      Peak(Effectives(parts)));
  }

  lemma ShownIs(s: Source, order: seq<EffectKey>, now: real, sine: real -> real)
    requires SourceInv(s) && Enumerates(order, s.effects.Keys)
    ensures var shown := Strongest(Parts(s, order, now, sine));
      && (forall key | Adds(s, key, now) :: RawLevelAt(sine, s.effects[key], now) <= shown.command)
      && (if exists key :: Adds(s, key, now) then exists key :: Adds(s, key, now) && Shows(s, key, now, sine, shown)
          else shown == Selected(0.0, 1.0, 1.0, 0.0))
  {
    hide Parts, RawLevelAt, Strongest, SourceInv, Enumerates, Adds, Shows;
    NoneLouder(s, order, now, sine);
    if Parts(s, order, now, sine) == [] {
      NoneShown();
    } else {
      var key := ShownKey(s, order, now, sine);
    }
  }

  lemma ShownKey(s: Source, order: seq<EffectKey>, now: real, sine: real -> real) returns (key: EffectKey)
    requires SourceInv(s) && Enumerates(order, s.effects.Keys) && Parts(s, order, now, sine) != []
    ensures Adds(s, key, now) && Shows(s, key, now, sine, Strongest(Parts(s, order, now, sine)))
  {
    hide Parts, RawLevelAt, Strongest, Tables, Enumerates, Audible, Modelled, Adds, Fair;
    var parts := Parts(s, order, now, sine);
    PartsFair(s, order, now, sine);
    StrongestIsLoudest(parts);
    var p :| Loudest(parts, p) && Strongest(parts) == Shown(p);
    key := PartKey(s, order, now, sine, p);
    Shaped(p);
    assert p in parts && Fair(p);
  }

  lemma NoneLouder(s: Source, order: seq<EffectKey>, now: real, sine: real -> real)
    requires SourceInv(s) && Enumerates(order, s.effects.Keys)
    ensures forall key | Adds(s, key, now) ::
      && key in s.effects && Parts(s, order, now, sine) != []
      && RawLevelAt(sine, s.effects[key], now) <= Strongest(Parts(s, order, now, sine)).command
  {
    hide Parts, RawLevelAt, Strongest, Tables, Enumerates, Audible, Modelled, Adds, Fair;
    var parts := Parts(s, order, now, sine);
    PartsFair(s, order, now, sine);
    if parts != [] {
      StrongestIsLoudest(parts);
    }
    forall key | Adds(s, key, now)
      ensures key in s.effects && parts != [] && RawLevelAt(sine, s.effects[key], now) <= Strongest(parts).command
    {
      Everywhere(s, order, key, now);
      PartIn(s, order, key, now, sine);
    }
  }

  lemma NoneShown()
    ensures Strongest([]) == Selected(0.0, 1.0, 1.0, 0.0)
  {
  }

  lemma Shaped(p: Part)
    ensures Fair(p) ==> Shown(p) == Selected(p.raw, p.effectGain, p.deviceGain,
      MinReal(1.0, p.raw * p.effectGain * p.deviceGain))
  {
    if Fair(p) {
      EffectiveFits(p);
    }
  }

  /** In whatever order the effects come, a tick measures the tables as they stand. */
  lemma TickMeasures(s: Source, order: seq<EffectKey>, now: real, settings: Settings, sine: real -> real)
    requires SourceInv(s) && Normal(settings) && Enumerates(order, s.effects.Keys)
    ensures var n := TickSource(s, order, now, settings, sine).0;
      && Measured(s, order, now, sine, n.levels)
      && (EstimateReliable(n) <==>
            !s.issues.frameGap && !s.issues.reconnect && !s.issues.capacity
            && forall key | key in s.effects :: s.effects[key].triggerButton == 0xFFFF_FFFF)
      && n.devices == s.devices && n.losses == s.losses && n.issues == s.issues
      && n.identity == s.identity && n.connections == s.connections && n.lastActivity == s.lastActivity
  {
    hide Parts, CountSounding, CountUnsupported, CountTriggers, Busiest, Tick, Tables, Strongest, Load, OutputLoad,
      Adds, Audible, Modelled, Peak, IsPeak, Tally, Shows, ProbedEffects;
    LoadPeaks(s, order, now, sine);
    ShownIs(s, order, now, sine);
    CountsAreTallies(s, order, now);
    NoneCounted(order, key => HasTrigger(s, key));
    LoadsPositive(s, order, now, sine);
    AllKeys(order, s.effects.Keys);
  }

  lemma AllKeys(order: seq<EffectKey>, keys: set<EffectKey>)
    requires Enumerates(order, keys)
    ensures forall key :: key in order <==> key in keys
  {
    assert forall key :: key in order <==> key in multiset(order);
  }

  lemma LoadsPositive(s: Source, order: seq<EffectKey>, now: real, sine: real -> real)
    requires SourceInv(s)
    ensures Peak(Commands(Parts(s, order, now, sine))) >= 0.0 && Peak(Effectives(Parts(s, order, now, sine))) >= 0.0
  {
    hide Parts, Peak, IsPeak, Tables;
    var parts := Parts(s, order, now, sine);
    PartsFair(s, order, now, sine);
    assert forall i | 0 <= i < |parts| :: parts[i] in parts;
    CombinedBounds(parts, Peak(Commands(parts)), Peak(Effectives(parts)));
  }
}
