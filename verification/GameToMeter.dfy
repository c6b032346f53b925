/** A constant force from the game's own calls to the level the detector hears: captured, sent, decoded and mixed. */
module GameToMeter {
  import opened Bytes
  import opened Protocol
  import opened RoundTrip
  import opened Capture
  import opened Producers
  import CaptureMeaning
  import opened Effects
  import opened Settings
  import opened Sources
  import opened SourceSafety
  import opened FrameMeaning
  import opened PlainForce

  /** An endless constant force without an envelope, in a structure of the full size that can be read. */
  predicate EndlessConstant(x: DiEffect, l: Layout) {
    && x.size >= l.dx5 && x.size >= l.full && x.duration == 0xFFFF_FFFF && x.envelope == Null
    && x.typeSize >= 4 && x.typeSpecific.Memory? && |x.typeSpecific.words| >= 1
    && (x.axes.Memory? ==> x.axisCount <= |x.axes.words| || 8 <= |x.axes.words|)
    && (x.directions.Memory? ==> x.axisCount <= |x.directions.words| || 8 <= |x.directions.words|)
  }

  /** The level the game commands with it. */
  function Level(x: DiEffect): real
    requires x.typeSpecific.Memory? && |x.typeSpecific.words| >= 1
  {
    MinReal(1.0, Abs(CaptureMeaning.Signed(x.typeSpecific.words[0]) as real / 10000.0))
  }

  lemma CreationSays(x: DiEffect, a: Address, e: Event)
    requires EndlessConstant(x, a.layout) && Emits(EffectCreated(1, Some(x)), a, e)
    ensures CaptureMeaning.AddressedTo(e, a) && e.messageType == 4 && e.effectKind == 1 && e.presence == Present
    ensures e.duration == 0xFFFF_FFFF && e.attackTime == 0 && e.fadeTime == 0 && e.startDelay == x.startDelay
      && e.magnitude == CaptureMeaning.Signed(x.typeSpecific.words[0])
  {
    CaptureMeaning.EmissionSays(EffectCreated(1, Some(x)), a, e);
    hide Emits, CaptureMeaning.ListsSay, CaptureMeaning.ConditionsSay;
    var b: Event :|
      && Shaped(b) && b.axisCount == 0 && CaptureMeaning.Begins(EffectCreated(1, Some(x)), b)
      && e.messageType == b.messageType && e.effectKind == b.effectKind && e.presence == b.presence
      && CaptureMeaning.TakenFrom(b, x, a.layout, e);
  }

  lemma StartSays(flags: u32, iterations: u32, a: Address, e: Event)
    requires Emits(EffectCommanded(1, 2, flags, iterations), a, e)
    ensures CaptureMeaning.AddressedTo(e, a) && e.messageType == 6 && e.effectKind == 1 && e.command == 2
  {
    CaptureMeaning.EmissionSays(EffectCommanded(1, 2, flags, iterations), a, e);
    hide Emits;
    var b: Event :|
      && Shaped(b) && CaptureMeaning.Begins(EffectCommanded(1, 2, flags, iterations), b) && e == b;
  }

  lemma ArrivesAs(m: Emission, a: Address, e: Event)
    requires Emits(m, a, e)
    ensures Shaped(e) && e.axisCount <= MAX_AXES && e.conditionCount <= MAX_AXES
    ensures Decode(Wire(e)).Ok?
    ensures var f := Decode(Wire(e)).value;
      && f.messageType == e.messageType && f.hresult == e.hresult && f.deviceId == e.deviceId
      && f.effectId == e.effectId && f.effectKind == e.effectKind && f.effectCommand == e.command
      && f.duration == e.duration && f.startDelay == e.startDelay && f.attackTime == e.attackTime
      && f.fadeTime == e.fadeTime && f.magnitude == e.magnitude
      && f.presence == (if e.messageType == 4 then e.presence else Unknown)
  {
    hide Emits, Wire, Decode, Utf8.WellFormed, Utf8.CString;
    EmissionRoundTrips(m, a, e);
  }

  /**
   Whatever process the game is and whatever else its effect says: a constant force it creates without an end or an
   envelope and then starts is heard, once its delay is over, at its magnitude in ten-thousandths, cut at full scale.
   Alone it is all that is heard.
   */
  lemma PlayedConstantIsHeard(x: DiEffect, flags: u32, iterations: u32, a: Address, b: Address, creation: Event,
      start: Event, s: Source, at: real, from: real, now: real, order: seq<EffectKey>, settings: Settings,
      sine: real -> real)
    requires EndlessConstant(x, a.layout) && Emits(EffectCreated(1, Some(x)), a, creation)
    requires Emits(EffectCommanded(1, 2, flags, iterations), b, start)
    requires a.deviceId == b.deviceId && a.effectId == b.effectId != 0 && a.hresult >= 0 && b.hresult >= 0
    requires SourceInv(s) && |s.effects| < 1024 && |s.devices| < 64 && Running(s, a.deviceId)
    requires from + x.startDelay as real / 1000.0 <= now && Normal(settings)
    requires Shaped(creation) && Shaped(start) && Decode(Wire(creation)).Ok? && Decode(Wire(start)).Ok? ==>
      Enumerates(order, Apply(Apply(s, Decode(Wire(creation)).value, at), Decode(Wire(start)).value, from).effects.Keys)
    ensures Shaped(creation) && Shaped(start) && Decode(Wire(creation)).Ok? && Decode(Wire(start)).Ok?
    ensures var n := Apply(Apply(s, Decode(Wire(creation)).value, at), Decode(Wire(start)).value, from);
      var l := TickSource(n, order, now, settings, sine).0.levels;
      && Level(x) <= l.selected.command <= l.combined
      && (s.effects == map[] ==> l.selected.command == l.unclamped == l.combined == Level(x))
  {
    hide Emits, Wire, Decode, Apply, SourceInv, TickSource, Enumerates, Normal, Running, Shaped;
    CreationSays(x, a, creation);
    StartSays(flags, iterations, b, start);
    ArrivesAs(EffectCreated(1, Some(x)), a, creation);
    ArrivesAs(EffectCommanded(1, 2, flags, iterations), b, start);
    var f, g := Decode(Wire(creation)).value, Decode(Wire(start)).value;
    ConstantIsHeard(s, f, g, at, from, now, order, settings, sine);
  }
}
