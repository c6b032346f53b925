/**
 What an emitted event says of the call it was emitted for, in numbers: flag weights, kinds and sizes are those of
 DirectInput, and nothing is stated through the functions that build the event.
 */
module CaptureMeaning {
  import opened Bytes
  import opened Utf8
  import opened Protocol
  import opened RoundTrip
  import opened Capture
  import opened Producers

  /** The call names a parameter: a creation names all, a change those whose bit of this weight is set. */
  predicate Named(e: Event, weight: nat)
    requires weight > 0
  {
    e.messageType == 4 || e.flags / weight % 2 == 1
  }

  function Signed(w: u32): i32 { if w < 2147483648 then w else w - 4294967296 }

  /** Entry i of a list after the call: read from the game's memory or as it was. */
  predicate EntryIs(before: i32, after: i32, named: bool, p: Pointer, i: nat, count: nat) {
    after == if named && p.Memory? && i < count && i < |p.words| then Signed(p.words[i]) else before
  }

  /** At most eight axes, when the call names them or their directions. */
  function Axes(e: Event, x: DiEffect): nat {
    if !Named(e, 32) && !Named(e, 64) then e.axisCount else if x.axisCount <= 8 then x.axisCount else 8
  }

  /** The durations, levels and lists in front of the force. */
  predicate ScalarsSay(e: Event, x: DiEffect, l: Layout, n: Event) {
    && n.diFlags == x.flags
    && n.duration == (if Named(e, 1) then x.duration else e.duration)
    && n.samplePeriod == (if Named(e, 2) then x.samplePeriod else e.samplePeriod)
    && n.gain == (if Named(e, 4) then x.gain else e.gain)
    && n.triggerButton == (if Named(e, 8) then x.triggerButton else e.triggerButton)
    && n.triggerRepeat == (if Named(e, 16) then x.triggerRepeat else e.triggerRepeat)
    && n.startDelay == (if Named(e, 512) && x.size >= l.full then x.startDelay else e.startDelay)
    && n.axisCount == Axes(e, x)
  }

  predicate ListsSay(e: Event, x: DiEffect, n: Event)
    requires Shaped(e) && Shaped(n)
  {
    && (forall i: nat | i < 8 :: EntryIs(e.axes[i], n.axes[i], Named(e, 32), x.axes, i, n.axisCount))
    && (forall i: nat | i < 8 :: EntryIs(e.directions[i], n.directions[i], Named(e, 64), x.directions, i, n.axisCount))
  }

  /** The envelope is taken whole, and only from a structure that says it is one. */
  predicate EnvelopeSays(e: Event, x: DiEffect, n: Event) {
    if Named(e, 128) && x.envelope.Memory? && |x.envelope.words| >= 5 && x.envelope.words[0] >= 20 then
      var w := x.envelope.words;
      n.attackLevel == w[1] && n.attackTime == w[2] && n.fadeLevel == w[3] && n.fadeTime == w[4]
    else
      && n.attackLevel == e.attackLevel && n.attackTime == e.attackTime
      && n.fadeLevel == e.fadeLevel && n.fadeTime == e.fadeTime
  }

  /** The force is there to be taken: named, of enough bytes, and mapped. */
  predicate Takes(e: Event, x: DiEffect, size: nat) {
    Named(e, 256) && x.typeSpecific.Memory? && x.typeSize >= size && 4 * |x.typeSpecific.words| >= size > 0
  }

  /** The force of each kind: constant 1, ramp 2, periodic 3 to 7. */
  predicate ForceSays(e: Event, x: DiEffect, n: Event) {
    var w, kind := if x.typeSpecific.Memory? then x.typeSpecific.words else [], e.effectKind;
    && n.magnitude == (if (kind == 1 && Takes(e, x, 4)) || (3 <= kind <= 7 && Takes(e, x, 16)) then Signed(w[0])
                       else e.magnitude)
    && (if kind == 2 && Takes(e, x, 8) then n.rampStart == Signed(w[0]) && n.rampEnd == Signed(w[1])
        else n.rampStart == e.rampStart && n.rampEnd == e.rampEnd)
    && (if 3 <= kind <= 7 && Takes(e, x, 16) then
          && n.periodicMagnitude == Signed(w[0]) && n.periodicOffset == Signed(w[1])
          && n.periodicPhase == Signed(w[2]) && n.periodicPeriod == Signed(w[3])
        else
          && n.periodicMagnitude == e.periodicMagnitude && n.periodicOffset == e.periodicOffset
          && n.periodicPhase == e.periodicPhase && n.periodicPeriod == e.periodicPeriod)
    && n.typeSpecificSize == (if Named(e, 256) then x.typeSize else e.typeSpecificSize)
  }

  /** Conditions, kinds 8 to 11: as many as there are bytes for, one for each axis if there are axes, never over eight. */
  predicate ConditionsSay(e: Event, x: DiEffect, n: Event)
    requires Shaped(e) && Shaped(n)
  {
    if 8 <= e.effectKind <= 11 && Named(e, 256) && x.typeSpecific.Memory? && x.typeSize >= 24 then
      var w := x.typeSpecific.words;
      && 6 * n.conditionCount <= |w|
      && n.conditionCount <= 8 && 24 * n.conditionCount <= x.typeSize
      && (n.axisCount > 0 ==> n.conditionCount <= n.axisCount)
      && (n.conditionCount == 8 || (n.axisCount > 0 && n.conditionCount == n.axisCount)
          || 24 * (n.conditionCount + 1) > x.typeSize)
      && (forall i: nat | i < 8 :: n.conditions[i] ==
            if i < n.conditionCount
            then Condition(Signed(w[6 * i]), Signed(w[6 * i + 1]), Signed(w[6 * i + 2]), w[6 * i + 3], w[6 * i + 4],
                   Signed(w[6 * i + 5]))
            else e.conditions[i])
    else n.conditionCount == e.conditionCount && n.conditions == e.conditions
  }

  // ---------- Stage by stage ----------

  lemma ScalarsMean(e: Event, x: DiEffect, l: Layout)
    ensures ScalarsSay(e, x, l, WithScalars(e, x, l))
  {
  }

  lemma SameNames(e: Event, n: Event, weight: nat)
    requires n.messageType == e.messageType && n.flags == e.flags && weight > 0
    ensures Named(n, weight) == Named(e, weight) == Captures(e, weight)
  {
  }

  lemma ListsMean(e: Event, x: DiEffect)
    requires Shaped(e) && e.axisCount <= MAX_AXES
    requires Wanted(e, DIEP_AXES, x.axes) ==> e.axisCount <= |x.axes.words|
    requires Wanted(e, DIEP_DIRECTION, x.directions) ==> e.axisCount <= |x.directions.words|
    ensures Shaped(ListsOf(e, x)) && ListsSay(e, x, ListsOf(e, x))
  {
    hide Named, Captures;
    SameNames(e, e, 32);
    SameNames(e, e, 64);
  }

  lemma EnvelopeMeans(e: Event, x: DiEffect)
    requires ReadsEnvelope(e, x) ==>
      1 <= |x.envelope.words| && (x.envelope.words[0] >= ENVELOPE_SIZE ==> |x.envelope.words| >= 5)
    ensures EnvelopeSays(e, x, WithEnvelope(e, x))
  {
    hide Named, Captures;
    SameNames(e, e, 128);
  }

  lemma ForceMeans(e: Event, x: DiEffect)
    requires Shaped(e) && e.axisCount <= MAX_AXES
    requires ReadsForce(e, x) ==> ForceWordsNeeded(e, x) <= |x.typeSpecific.words|
    ensures var n := WithTypeSpecific(e, x);
      && ForceSays(e, x, n)
      && (e.effectKind <= 12 ==> (n.customRedacted <==> e.customRedacted || e.effectKind == 0 || e.effectKind == 12))
  {
    hide Named, Captures, FilledConditions, ConditionCount;
    SameNames(e, e, 256);
  }

  lemma ConditionsMean(e: Event, x: DiEffect)
    requires Shaped(e) && e.axisCount <= MAX_AXES
    requires ReadsForce(e, x) ==> ForceWordsNeeded(e, x) <= |x.typeSpecific.words|
    ensures Shaped(WithTypeSpecific(e, x)) && ConditionsSay(e, x, WithTypeSpecific(e, x))
  {
    hide Named, Captures;
    SameNames(e, e, 256);
  }

  /** Nothing the capture looks at differs, and neither do the fields of a later stage. */
  predicate SameCall(e: Event, n: Event) {
    n.messageType == e.messageType && n.flags == e.flags && n.effectKind == e.effectKind
  }

  predicate SameCounts(s: Event, d: Event) {
    && d.duration == s.duration && d.samplePeriod == s.samplePeriod && d.gain == s.gain
    && d.startDelay == s.startDelay && d.triggerButton == s.triggerButton && d.triggerRepeat == s.triggerRepeat
    && d.axisCount == s.axisCount && d.diFlags == s.diFlags
  }

  lemma ScalarsStay(e: Event, x: DiEffect, l: Layout, s: Event, d: Event, v: Event, n: Event)
    requires ScalarsSay(e, x, l, s) && SameCounts(s, d) && SameScalars(d, v) && SameScalars(v, n)
    requires v.diFlags == d.diFlags == n.diFlags
    ensures ScalarsSay(e, x, l, n)
  {
    hide Named;
  }

  lemma ListsStay(e: Event, s: Event, x: DiEffect, d: Event, v: Event, n: Event)
    requires Shaped(e) && Shaped(s) && Shaped(d) && Shaped(n) && ListsSay(s, x, d)
    requires SameCall(e, s) && s.axes == e.axes && s.directions == e.directions
    requires SameScalars(d, v) && SameScalars(v, n)
    ensures ListsSay(e, x, n)
  {
    hide EntryIs;
  }

  lemma EnvelopeStays(e: Event, s: Event, d: Event, x: DiEffect, v: Event, n: Event)
    requires EnvelopeSays(d, x, v) && SameCall(e, s) && SameCall(s, d) && SameEnvelope(e, d) && SameEnvelope(v, n)
    ensures EnvelopeSays(e, x, n)
  {
  }

  lemma ForceStays(e: Event, d: Event, v: Event, x: DiEffect, n: Event)
    requires SameCall(e, v) && SameForce(e, d) && SameForce(d, v)
    requires v.typeSpecificSize == d.typeSpecificSize == e.typeSpecificSize && ForceSays(v, x, n)
    ensures ForceSays(e, x, n)
  {
    assert forall size: nat :: Takes(e, x, size) == Takes(v, x, size);
    hide Takes;
  }

  lemma ConditionsStay(e: Event, d: Event, v: Event, x: DiEffect, n: Event)
    requires Shaped(e) && Shaped(v) && Shaped(n) && SameCall(e, v) && SameForce(e, d) && SameForce(d, v)
    requires ConditionsSay(v, x, n)
    ensures ConditionsSay(e, x, n)
  {
  }

  lemma SameCalls(e: Event, s: Event, d: Event, v: Event)
    requires SameCall(e, s) && SameCall(s, d) && SameCall(d, v)
    ensures SameCall(e, v) && v.effectKind == e.effectKind
  {
  }

  // The fields no stage but the first and the last writes.
  lemma Untouched(e: Event, x: DiEffect, l: Layout)
    requires Shaped(e) && e.axisCount <= MAX_AXES && Readable(e, x, l) && x.size >= l.dx5
    ensures var s := WithScalars(e, x, l);
      && Shaped(s) && s.axisCount <= MAX_AXES && SameCall(e, s)
      && s.axes == e.axes && s.directions == e.directions && s.customRedacted == e.customRedacted
    ensures var (s, d) := (WithScalars(e, x, l), WithLists(e, x, l));
      && SameCall(s, d) && SameEnvelope(e, d) && SameForce(e, d) && SameCounts(s, d)
      && d.customRedacted == e.customRedacted
      && d.typeSpecificSize == e.typeSpecificSize
  {
    hide Captures, Filled;
  }

  lemma EnvelopeLeaves(e: Event, x: DiEffect)
    requires ReadsEnvelope(e, x) ==>
      1 <= |x.envelope.words| && (x.envelope.words[0] >= ENVELOPE_SIZE ==> |x.envelope.words| >= 5)
    ensures var n := WithEnvelope(e, x);
      SameCall(e, n) && n.diFlags == e.diFlags && n.customRedacted == e.customRedacted
  {
  }

  lemma ForceLeaves(e: Event, x: DiEffect)
    requires Shaped(e) && e.axisCount <= MAX_AXES
    requires ReadsForce(e, x) ==> ForceWordsNeeded(e, x) <= |x.typeSpecific.words|
    ensures SameCall(e, WithTypeSpecific(e, x)) && WithTypeSpecific(e, x).diFlags == e.diFlags
  {
    hide Captures, FilledConditions;
  }

  /** A capture without a fault: every parameter, list, envelope and force is the structure's or the event's own. */
  lemma CaptureMeans(e: Event, x: DiEffect, l: Layout)
    requires Shaped(e) && e.axisCount <= MAX_AXES && Readable(e, x, l) && x.size >= l.dx5 && e.effectKind <= 12
    ensures var n := Captured(e, x, l);
      && Shaped(n) && ScalarsSay(e, x, l, n) && ListsSay(e, x, n) && EnvelopeSays(e, x, n) && ForceSays(e, x, n)
      && ConditionsSay(e, x, n)
      && (n.customRedacted <==> e.customRedacted || e.effectKind == 0 || e.effectKind == 12)
  {
    var s, d := WithScalars(e, x, l), WithLists(e, x, l);
    ReadableLater(e, x, l);
    ReadableLists(e, x, l);
    assert d == ListsOf(s, x);
    var v := WithEnvelope(d, x);
    var n := WithTypeSpecific(v, x);
    assert Captured(e, x, l) == n;
    hide *;
    Untouched(e, x, l);
    ScalarsMean(e, x, l);
    ListsMean(s, x);
    EnvelopeMeans(d, x);
    EnvelopeTouches(d, x);
    EnvelopeLeaves(d, x);
    ForceTouches(v, x);
    ForceMeans(v, x);
    ConditionsMean(v, x);
    ForceLeaves(v, x);
    SameCalls(e, s, d, v);
    ScalarsStay(e, x, l, s, d, v, n);
    ListsStay(e, s, x, d, v, n);
    EnvelopeStays(e, s, d, x, v, n);
    ForceStays(e, d, v, x, n);
    ConditionsStay(e, d, v, x, n);
  }

  lemma ReadableLists(e: Event, x: DiEffect, l: Layout)
    requires Readable(e, x, l) && x.size >= l.dx5 && Shaped(e) && e.axisCount <= MAX_AXES
    ensures var s := WithScalars(e, x, l);
      && Shaped(s) && s.axisCount <= MAX_AXES
      && (Wanted(s, DIEP_AXES, x.axes) ==> s.axisCount <= |x.axes.words|)
      && (Wanted(s, DIEP_DIRECTION, x.directions) ==> s.axisCount <= |x.directions.words|)
  {
  }

  // ---------- Faults and short structures ----------

  /** The bytes of the force that are read, in words: none of a structure too short for its kind. */
  function ForceNeeds(e: Event, x: DiEffect, axisCount: nat): nat {
    var kind, size := e.effectKind, x.typeSize as int;
    if kind == 1 then if size >= 4 then 1 else 0
    else if kind == 2 then if size >= 8 then 2 else 0
    else if 3 <= kind <= 7 then if size >= 16 then 4 else 0
    else if 8 <= kind <= 11 then 6 * Min(Min(size / 24, 8), if axisCount > 0 then axisCount else 8)
    else 0
  }

  /** Everything the capture reads is there to be read. */
  predicate Mapped(e: Event, x: DiEffect, axisCount: nat) {
    && (Named(e, 32) && x.axes.Memory? ==> axisCount <= |x.axes.words|)
    && (Named(e, 64) && x.directions.Memory? ==> axisCount <= |x.directions.words|)
    && (Named(e, 128) && x.envelope.Memory? ==>
         |x.envelope.words| >= 1 && (x.envelope.words[0] >= 20 ==> |x.envelope.words| >= 5))
    && (Named(e, 256) && x.typeSpecific.Memory? && x.typeSize > 0 ==>
         ForceNeeds(e, x, axisCount) <= |x.typeSpecific.words|)
  }

  lemma NeedsAre(e: Event, x: DiEffect)
    requires e.axisCount <= MAX_AXES
    ensures ForceWordsNeeded(e, x) == ForceNeeds(e, x, e.axisCount)
  {
  }

  lemma ReadableIs(e: Event, x: DiEffect, l: Layout)
    requires Shaped(e) && e.axisCount <= MAX_AXES && x.size >= l.dx5
    ensures Readable(e, x, l) <==> Mapped(e, x, Axes(e, x))
  {
    hide ForceNeeds, ForceWordsNeeded, Named, Captures;
    var s := WithScalars(e, x, l);
    ScalarsMean(e, x, l);
    NeedsAre(s, x);
    SameNames(e, s, 32);
    SameNames(e, s, 64);
    SameNames(e, s, 128);
    SameNames(e, s, 256);
    assert ForceNeeds(s, x, s.axisCount) == ForceNeeds(e, x, s.axisCount) by { SameNeeds(e, s, x, s.axisCount); }
  }

  lemma SameNeeds(e: Event, s: Event, x: DiEffect, axisCount: nat)
    requires s.effectKind == e.effectKind
    ensures ForceNeeds(s, x, axisCount) == ForceNeeds(e, x, axisCount)
  {
  }

  // ---------- The events of the game's calls ----------

  /** An event that says nothing but what it is addressed with and a few more fields. */
  predicate Plain(e: Event) {
    && e.diFlags == e.duration == e.samplePeriod == e.gain == e.startDelay == e.triggerButton == e.triggerRepeat == 0
    && e.attackLevel == e.attackTime == e.fadeLevel == e.fadeTime == e.propertyId == e.dropped == 0
    && e.iterations == 0 && !e.customRedacted && PlainForce(e)
  }

  predicate PlainForce(e: Event) {
    && e.magnitude == e.rampStart == e.rampEnd == e.periodicMagnitude == e.periodicOffset == e.periodicPhase == 0
    && e.periodicPeriod == 0 && e.axisCount == e.conditionCount == e.typeSpecificSize == 0
    && (forall i | 0 <= i < |e.axes| :: e.axes[i] == 0) && (forall i | 0 <= i < |e.directions| :: e.directions[i] == 0)
    && (forall i | 0 <= i < |e.conditions| :: e.conditions[i] == Condition(0, 0, 0, 0, 0, 0))
  }

  predicate AddressedTo(e: Event, a: Address) {
    && e.processId == a.processId && e.deviceId == a.deviceId && e.effectId == a.effectId
    && e.effectGuid == a.guid && e.hresult == a.hresult && e.qpcTicks == a.ticks
    && e.sequence == e.qpcFrequency == 0 && CString(e.buildVersion) == CString(e.sessionId) == []
  }

  /** What the call makes of an event: everything else is zero. */
  predicate Begins(m: Emission, e: Event)
    requires Shaped(e)
  {
    match m
    case DeviceCreated(name) =>
      && e.messageType == 2 && e.effectKind == e.command == e.flags == 0 && Plain(e)
      && (|name| < 64 ==> e.text[..|name|] == name && forall i | |name| <= i < 64 :: e.text[i] == 0)
    case PropertyChanged(property, gain) =>
      && e.messageType == 3 && e.effectKind == e.command == e.flags == 0
      && e.propertyId == property && e.gain == gain && Plain(e.(propertyId := 0, gain := 0))
    case DeviceCommanded(action) =>
      && e.messageType == 7 && e.effectKind == e.command == e.flags == 0
      && e.diFlags == action && Plain(e.(diFlags := 0))
    case EffectCreated(kind, effect) =>
      && e.messageType == 4 && e.effectKind == kind && e.command == e.flags == 0
      && e.presence == (if effect.Some? then Present else Absent) && Plain(e)
    case ParametersChanged(kind, flags, _) =>
      && e.messageType == 5 && e.effectKind == kind && e.command == 0 && e.flags == flags && Plain(e)
    case EffectCommanded(kind, command, flags, iterations) =>
      && e.messageType == 6 && e.effectKind == kind && e.command == command && e.flags == flags
      && e.iterations == iterations && Plain(e.(iterations := 0))
  }

  lemma FieldFits(name: seq<byte>)
    requires |name| < 64
    ensures var f := NameField(name, 64); f[..|name|] == name && forall i | |name| <= i < 64 :: f[i] == 0
  {
    assert Kept(name, 64) == |name|;
    assert name[..|name|] == name;
  }

  lemma BlankIsPlain(text: seq<byte>)
    requires |text| == 64
    ensures Shaped(Blank().(text := text)) && Plain(Blank().(text := text))
  {
    hide CString;
  }

  lemma AddressedSays(m: Emission, a: Address)
    requires |a.guid| == 16
    ensures var b := Addressed(m, a);
      AddressedTo(b, a) && Begins(m, b) && (!m.DeviceCreated? ==> forall i | 0 <= i < 64 :: b.text[i] == 0)
  {
    hide NameField, Plain;
    BlankIsPlain(Zeros(64));
    var b := Addressed(m, a);
    PlainPasses(Blank(), b.(propertyId := 0, gain := 0, diFlags := 0, iterations := 0));
    match m
    case DeviceCreated(name) =>
      if |name| < 64 {
        FieldFits(name);
      }
    case _ =>
  }

  // The fields that Plain looks at.
  lemma PlainPasses(e: Event, n: Event)
    requires Plain(e)
    requires n == e.(messageType := n.messageType, effectKind := n.effectKind, presence := n.presence,
                     command := n.command, flags := n.flags, processId := n.processId, deviceId := n.deviceId,
                     effectId := n.effectId, effectGuid := n.effectGuid, hresult := n.hresult,
                     qpcTicks := n.qpcTicks, text := n.text)
    ensures Plain(n)
  {
  }

  /** What a structure that can be read adds to an event. */
  predicate TakenFrom(b: Event, x: DiEffect, l: Layout, e: Event)
    requires Shaped(b) && Shaped(e) && b.axisCount <= MAX_AXES
  {
    if x.size < l.dx5 then e == b.(customRedacted := b.effectKind == 0 || b.effectKind == 12)
    else if Mapped(b, x, Axes(b, x)) then
      && ScalarsSay(b, x, l, e) && ListsSay(b, x, e) && EnvelopeSays(b, x, e) && ForceSays(b, x, e)
      && ConditionsSay(b, x, e) && (e.customRedacted <==> b.customRedacted || b.effectKind == 0 || b.effectKind == 12)
    else e.customRedacted && e.axisCount == 0 && e.conditionCount == 0
  }

  /**
   For every call of the game: the event carries where it came from and what the call was, and of the game's
   structure, if there is one, exactly what the flags name and can be read.
   */
  lemma EmissionSays(m: Emission, a: Address, e: Event)
    requires Emits(m, a, e)
    ensures Shaped(e) && AddressedTo(e, a)
    ensures exists b: Event ::
      && Shaped(b) && b.axisCount == 0 && AddressedTo(b, a) && Begins(m, b)
      && e.messageType == b.messageType && e.effectKind == b.effectKind && e.command == b.command
      && e.flags == b.flags && e.presence == b.presence && e.text == b.text
      && match Parameters(m) case None => e == b case Some(x) => TakenFrom(b, x, a.layout, e)
  {
    hide CString, WellFormed, Started, Captured, Readable, ScalarsSay, ListsSay, EnvelopeSays, ForceSays, ConditionsSay,
      Begins, NameField;
    var b := Addressed(m, a);
    AddressedSays(m, a);
    AddressedKind(m, a);
    if Parameters(m).Some? {
      var x := Parameters(m).value;
      if x.size < a.layout.dx5 {
        ShortIs(b, x, a.layout);
      } else {
        ReadableIs(b, x, a.layout);
        if Readable(b, x, a.layout) {
          CaptureMeans(b, x, a.layout);
        }
      }
    }
  }

  lemma AddressedKind(m: Emission, a: Address)
    requires |a.guid| == 16 && Possible(m)
    ensures Addressed(m, a).effectKind <= 12
  {
    hide NameField;
  }

  lemma ShortIs(e: Event, x: DiEffect, l: Layout)
    requires Shaped(e) && e.axisCount <= MAX_AXES && x.size < l.dx5
    ensures Readable(e, x, l) && Captured(e, x, l) == e.(customRedacted := e.effectKind == 0 || e.effectKind == 12)
  {
  }

  /** The calls the wrappers tell of: kinds 0 to 12, properties 1 and 2, commands 1 to 5, any well-formed device name. */
  predicate Tellable(m: Emission) {
    match m
    case DeviceCreated(name) => WellFormed(name)
    case PropertyChanged(property, _) => property == 1 || property == 2
    case DeviceCommanded(_) => true
    case EffectCreated(kind, _) => kind <= 12
    case ParametersChanged(kind, _, _) => kind <= 12
    case EffectCommanded(kind, command, _, _) => kind <= 12 && 1 <= command <= 5
  }

  lemma SameThrough(e: Event, s: Event, d: Event, v: Event, n: Event)
    requires SameEvent(e, s) && SameEvent(s, d) && SameEvent(d, v) && SameEvent(v, n)
    ensures SameEvent(e, n)
  {
  }

  lemma ScalarsSame(e: Event, x: DiEffect, l: Layout)
    ensures SameEvent(e, WithScalars(e, x, l))
  {
    hide Captures;
  }

  lemma ListsSame(e: Event, x: DiEffect)
    requires Shaped(e) && e.axisCount <= MAX_AXES
    requires Wanted(e, DIEP_AXES, x.axes) ==> e.axisCount <= |x.axes.words|
    requires Wanted(e, DIEP_DIRECTION, x.directions) ==> e.axisCount <= |x.directions.words|
    ensures SameEvent(e, ListsOf(e, x))
  {
    hide Captures, Filled;
  }

  lemma EnvelopeSame(e: Event, x: DiEffect)
    requires ReadsEnvelope(e, x) ==>
      1 <= |x.envelope.words| && (x.envelope.words[0] >= ENVELOPE_SIZE ==> |x.envelope.words| >= 5)
    ensures SameEvent(e, WithEnvelope(e, x))
  {
    hide Captures;
  }

  lemma ForceSame(e: Event, x: DiEffect)
    requires Shaped(e) && e.axisCount <= MAX_AXES
    requires ReadsForce(e, x) ==> ForceWordsNeeded(e, x) <= |x.typeSpecific.words|
    ensures SameEvent(e, WithTypeSpecific(e, x))
  {
    hide Captures, FilledConditions, ConditionCount;
  }

  lemma CapturedSame(e: Event, x: DiEffect, l: Layout)
    requires Shaped(e) && e.axisCount <= MAX_AXES && Readable(e, x, l)
    ensures SameEvent(e, Captured(e, x, l))
  {
    if x.size >= l.dx5 {
      var s, d := WithScalars(e, x, l), WithLists(e, x, l);
      ReadableLater(e, x, l);
      ReadableLists(e, x, l);
      assert d == ListsOf(s, x);
      var v := WithEnvelope(d, x);
      assert Captured(e, x, l) == WithTypeSpecific(v, x);
      hide *;
      ScalarsSame(e, x, l);
      ListsSame(s, x);
      EnvelopeSame(d, x);
      ForceSame(v, x);
      SameThrough(e, s, d, v, WithTypeSpecific(v, x));
    }
  }

  lemma CapturedBounded(e: Event, x: DiEffect, l: Layout)
    requires Shaped(e) && e.axisCount == e.conditionCount == 0 && Readable(e, x, l) && e.effectKind <= 12
    ensures var n := Captured(e, x, l); Shaped(n) && n.axisCount <= MAX_AXES && n.conditionCount <= MAX_AXES
  {
    hide Captured, Readable, ListsSay, EnvelopeSays, ForceSays, Named;
    if x.size < l.dx5 {
      ShortIs(e, x, l);
    } else {
      CaptureMeans(e, x, l);
    }
  }

  /** Every such call is told: there is an event for it, whatever structure the game passes. */
  lemma EveryCallIsTold(m: Emission, a: Address) returns (e: Event)
    requires |a.guid| == 16 && Tellable(m)
    ensures Emits(m, a, e)
  {
    hide CString, WellFormed, Captured, Readable, Started;
    var b := Addressed(m, a);
    AddressedKind(m, a);
    e := b;
    if Parameters(m).Some? {
      var x := Parameters(m).value;
      if Readable(b, x, a.layout) {
        CapturedSame(b, x, a.layout);
        CapturedBounded(b, x, a.layout);
        e := Captured(b, x, a.layout);
      } else {
        e := b.(customRedacted := true, axisCount := 0, conditionCount := 0);
      }
    }
  }

  /** The greeting: who speaks, how wide its pointers are, its version, its session and its program. */
  lemma GreetingSays(o: Origin)
    requires Genuine(o)
    ensures var e := GreetingOf(o);
      && Shaped(e) && e.messageType == 1 && e.processId == o.processId && e.qpcFrequency == o.frequency
      && e.flags == (if o.wide then 64 else 32) && e.deviceId == e.effectId == 0 && Plain(e)
      && CString(e.sessionId) == SessionId(o)
      && (|o.program| < 64 ==> e.text[..|o.program|] == o.program)
      && (|o.version| < 32 ==> CString(e.buildVersion) == o.version)
  {
    hide CString, WellFormed, SessionId, Plain, NameField;
    GreetingTexts(o);
    BlankIsPlain(NameField(o.program, 64));
    GreetingIsPlain(o);
    if |o.program| < 64 {
      FieldFits(o.program);
    }
    if |o.version| < 32 {
      FieldReads(o.version, 32);
    }
  }

  lemma GreetingIsPlain(o: Origin)
    ensures Shaped(GreetingOf(o)) && Plain(GreetingOf(o))
  {
    hide CString, SessionId;
  }
}
