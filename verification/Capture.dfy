/**
 Copying a game's effect parameters into an event. The structures belong to the game: a
 pointer may be null or lead to less memory than its structure needs, and a read past it faults.
 */
module Capture {
  import opened Bytes
  import opened Utf8
  import opened Protocol
  import opened RoundTrip
  import opened Sources

  // Flag bits, by weight, that only the producer uses.
  const DIEP_SAMPLE_PERIOD := 0x2
  const DIEP_AXES := 0x20
  const DIEP_DIRECTION := 0x40

  // Structure sizes in bytes; those of the effect itself depend on the pointer width.
  const CONSTANT_SIZE := 4
  const RAMP_SIZE := 8
  const PERIODIC_SIZE := 16
  const ENVELOPE_SIZE := 20
  const CONDITION_SIZE := 24
  datatype Layout = Layout(dx5: nat, full: nat)

  /** Null, or the 32-bit words that can be read from there on. */
  datatype Pointer = Null | Memory(words: seq<u32>)

  datatype DiEffect = DiEffect(
    size: u32, flags: u32, duration: u32, samplePeriod: u32, gain: u32, startDelay: u32,
    triggerButton: u32, triggerRepeat: u32, axisCount: u32, axes: Pointer, directions: Pointer,
    envelope: Pointer, typeSize: u32, typeSpecific: Pointer)

  predicate Captures(e: Event, weight: int)
    requires weight > 0
  {
    e.messageType == EFFECT_CREATED || Bit(e.flags, weight)
  }

  predicate Opaque(kind: u16) { kind == CUSTOM || kind == UNKNOWN_KIND }

  // ---------- What a capture without a fault amounts to ----------

  function WithScalars(e: Event, x: DiEffect, l: Layout): Event {
    e.(diFlags := x.flags,
       duration := if Captures(e, DIEP_DURATION) then x.duration else e.duration,
       samplePeriod := if Captures(e, DIEP_SAMPLE_PERIOD) then x.samplePeriod else e.samplePeriod,
       gain := if Captures(e, DIEP_GAIN) then x.gain else e.gain,
       startDelay := if Captures(e, DIEP_START_DELAY) && x.size >= l.full then x.startDelay else e.startDelay,
       triggerButton := if Captures(e, DIEP_TRIGGER_BUTTON) then x.triggerButton else e.triggerButton,
       triggerRepeat := if Captures(e, DIEP_TRIGGER_REPEAT) then x.triggerRepeat else e.triggerRepeat,
       axisCount :=
         if Captures(e, DIEP_AXES) || Captures(e, DIEP_DIRECTION) then Min(x.axisCount, MAX_AXES) else e.axisCount)
  }

  /** The first count slots filled from memory. */
  function Filled(slots: seq<i32>, words: seq<u32>, count: nat): (r: seq<i32>)
    requires count <= |words| && count <= |slots|
    ensures |r| == |slots|
    ensures forall i | 0 <= i < |slots| :: r[i] == if i < count then FromWord(words[i]) else slots[i]
  {
    seq<i32>(|slots|, i requires 0 <= i < |slots| => if i < count then FromWord(words[i]) else slots[i])
  }

  predicate Wanted(e: Event, weight: int, p: Pointer)
    requires weight > 0
  {
    Captures(e, weight) && p.Memory?
  }

  predicate ReadsEnvelope(e: Event, x: DiEffect) { Wanted(e, DIEP_ENVELOPE, x.envelope) }

  function WithEnvelope(e: Event, x: DiEffect): Event
    requires ReadsEnvelope(e, x) ==>
      1 <= |x.envelope.words| && (x.envelope.words[0] >= ENVELOPE_SIZE ==> |x.envelope.words| >= 5)
  {
    if ReadsEnvelope(e, x) && x.envelope.words[0] >= ENVELOPE_SIZE then
      var w := x.envelope.words;
      e.(attackLevel := w[1], attackTime := w[2], fadeLevel := w[3], fadeTime := w[4])
    else e
  }

  predicate ReadsForce(e: Event, x: DiEffect) { Wanted(e, DIEP_TYPE_SPECIFIC, x.typeSpecific) && x.typeSize > 0 }

  predicate IsCondition(kind: u16) { SPRING <= kind <= FRICTION }

  /** As many conditions as the buffer holds, but no more than the axes, and no more than eight. */
  function ConditionCount(e: Event, x: DiEffect): nat
    requires e.axisCount <= MAX_AXES
  {
    var available := x.typeSize / CONDITION_SIZE;
    Min(Min(if e.axisCount == 0 then available else e.axisCount, MAX_AXES), available)
  }

  function ForceWordsNeeded(e: Event, x: DiEffect): nat
    requires e.axisCount <= MAX_AXES
  {
    if e.effectKind == CONSTANT then if x.typeSize >= CONSTANT_SIZE then 1 else 0
    else if e.effectKind == RAMP then if x.typeSize >= RAMP_SIZE then 2 else 0
    else if SQUARE <= e.effectKind <= SAWTOOTH_DOWN then if x.typeSize >= PERIODIC_SIZE then 4 else 0
    else if IsCondition(e.effectKind) then 6 * ConditionCount(e, x)
    else 0
  }

  function ConditionFrom(w: seq<u32>, i: nat): Condition
    requires 6 * i + 6 <= |w|
  {
    Condition(FromWord(w[6 * i]), FromWord(w[6 * i + 1]), FromWord(w[6 * i + 2]), w[6 * i + 3], w[6 * i + 4],
      FromWord(w[6 * i + 5]))
  }

  function FilledConditions(slots: seq<Condition>, w: seq<u32>, count: nat): (r: seq<Condition>)
    requires count <= |slots| && 6 * count <= |w|
    ensures |r| == |slots|
    ensures forall i | 0 <= i < |slots| :: r[i] == if i < count then ConditionFrom(w, i) else slots[i]
  {
    seq(|slots|, i requires 0 <= i < |slots| => if i < count then ConditionFrom(w, i) else slots[i])
  }

  function WithForce(e: Event, x: DiEffect, w: seq<u32>): Event
    requires Shaped(e) && e.axisCount <= MAX_AXES && ForceWordsNeeded(e, x) <= |w|
  {
    if e.effectKind == CONSTANT then if x.typeSize >= CONSTANT_SIZE then e.(magnitude := FromWord(w[0])) else e
    else if e.effectKind == RAMP then
      if x.typeSize >= RAMP_SIZE then e.(rampStart := FromWord(w[0]), rampEnd := FromWord(w[1])) else e
    else if SQUARE <= e.effectKind <= SAWTOOTH_DOWN then
      if x.typeSize >= PERIODIC_SIZE then
        e.(periodicMagnitude := FromWord(w[0]), periodicOffset := FromWord(w[1]), periodicPhase := FromWord(w[2]),
           periodicPeriod := FromWord(w[3]), magnitude := FromWord(w[0]))
      else e
    else if IsCondition(e.effectKind) then
      if x.typeSize >= CONDITION_SIZE then
        e.(conditionCount := ConditionCount(e, x),
           conditions := FilledConditions(e.conditions, w, ConditionCount(e, x)))
      else e
    else e.(customRedacted := true)
  }

  function WithTypeSpecific(e: Event, x: DiEffect): Event
    requires Shaped(e) && e.axisCount <= MAX_AXES
    requires ReadsForce(e, x) ==> ForceWordsNeeded(e, x) <= |x.typeSpecific.words|
  {
    var redacted := if Opaque(e.effectKind) then e.(customRedacted := true) else e;
    if !Captures(e, DIEP_TYPE_SPECIFIC) then redacted
    else
      var sized := redacted.(typeSpecificSize := x.typeSize);
      if ReadsForce(e, x) then WithForce(sized, x, x.typeSpecific.words) else sized
  }

  /** Every read the capture makes stays inside the game's memory. */
  predicate Readable(e: Event, x: DiEffect, l: Layout) {
    x.size >= l.dx5 ==>
      var s := WithScalars(e, x, l);
      && (Wanted(e, DIEP_AXES, x.axes) ==> s.axisCount <= |x.axes.words|)
      && (Wanted(e, DIEP_DIRECTION, x.directions) ==> s.axisCount <= |x.directions.words|)
      && (ReadsEnvelope(e, x) ==>
           1 <= |x.envelope.words| && (x.envelope.words[0] >= ENVELOPE_SIZE ==> |x.envelope.words| >= 5))
      && (ReadsForce(e, x) && s.axisCount <= MAX_AXES ==> ForceWordsNeeded(s, x) <= |x.typeSpecific.words|)
  }

  /** The axis numbers and the directions. */
  function ListsOf(e: Event, x: DiEffect): Event
    requires Shaped(e) && e.axisCount <= MAX_AXES
    requires Wanted(e, DIEP_AXES, x.axes) ==> e.axisCount <= |x.axes.words|
    requires Wanted(e, DIEP_DIRECTION, x.directions) ==> e.axisCount <= |x.directions.words|
  {
    var a := if Wanted(e, DIEP_AXES, x.axes) then e.(axes := Filled(e.axes, x.axes.words, e.axisCount)) else e;
    if Wanted(e, DIEP_DIRECTION, x.directions) then
      a.(directions := Filled(a.directions, x.directions.words, e.axisCount))
    else a
  }

  function WithLists(e: Event, x: DiEffect, l: Layout): Event
    requires Shaped(e) && e.axisCount <= MAX_AXES && Readable(e, x, l) && x.size >= l.dx5
  {
    ListsOf(WithScalars(e, x, l), x)
  }

  /** The event after a capture that met no fault. */
  function Captured(e: Event, x: DiEffect, l: Layout): Event
    requires Shaped(e) && e.axisCount <= MAX_AXES && Readable(e, x, l)
  {
    if x.size < l.dx5 then e.(customRedacted := Opaque(e.effectKind))
    else WithTypeSpecific(WithEnvelope(WithLists(e, x, l), x), x)
  }

  // What no capture touches.
  predicate SameEvent(e: Event, n: Event) {
    && n.messageType == e.messageType && n.effectKind == e.effectKind && n.command == e.command
      && n.presence == e.presence
    && n.flags == e.flags && n.processId == e.processId && n.deviceId == e.deviceId && n.effectId == e.effectId
    && n.effectGuid == e.effectGuid && n.hresult == e.hresult && n.buildVersion == e.buildVersion
    && n.sessionId == e.sessionId && n.text == e.text && n.qpcTicks == e.qpcTicks && n.sequence == e.sequence
    && n.qpcFrequency == e.qpcFrequency && n.iterations == e.iterations && n.propertyId == e.propertyId
    && n.dropped == e.dropped
  }

  /** The outcome of copying a game's parameters into an event, a fault half way included. */
  predicate Copied(e: Event, effect: Option<DiEffect>, l: Layout, n: Event)
    requires Shaped(e) && e.axisCount <= MAX_AXES
  {
    && Shaped(n) && n.axisCount <= MAX_AXES && n.conditionCount <= MAX_AXES && SameEvent(e, n)
    && (effect.None? ==> n == e)
    && (effect.Some? && Readable(e, effect.value, l) ==> n == Captured(e, effect.value, l))
    && (effect.Some? && !Readable(e, effect.value, l) ==> n.customRedacted && n.axisCount == 0 && n.conditionCount == 0)
  }

  /** The event under construction. */
  class EventBuilder {
    var event: Event

    predicate Valid()
      reads this
    {
      Shaped(event) && event.axisCount <= MAX_AXES && event.conditionCount <= MAX_AXES
    }

    constructor (event: Event)
      ensures this.event == event
    {
      this.event := event;
    }

    // Copies axis numbers up to the first word that cannot be read.
    method CopyAxes(words: seq<u32>) returns (ok: bool)
      requires Valid()
      modifies this
      ensures Valid() && SameEvent(old(event), event) && ok == (old(event.axisCount) <= |words|)
      ensures ok ==> event == old(event).(axes := Filled(old(event.axes), words, old(event.axisCount)))
    {
      for i := 0 to event.axisCount
        invariant Valid() && i <= |words| && event == old(event).(axes := Filled(old(event.axes), words, i))
      {
        if i >= |words| {
          return false;
        }
        event := event.(axes := event.axes[i := FromWord(words[i])]);
        assert event.axes == Filled(old(event.axes), words, i + 1);
      }
      ok := true;
    }

    method CopyDirections(words: seq<u32>) returns (ok: bool)
      requires Valid()
      modifies this
      ensures Valid() && SameEvent(old(event), event) && ok == (old(event.axisCount) <= |words|)
      ensures ok ==> event == old(event).(directions := Filled(old(event.directions), words, old(event.axisCount)))
    {
      for i := 0 to event.axisCount
        invariant Valid() && i <= |words| && event == old(event).(directions := Filled(old(event.directions), words, i))
      {
        if i >= |words| {
          return false;
        }
        event := event.(directions := event.directions[i := FromWord(words[i])]);
        assert event.directions == Filled(old(event.directions), words, i + 1);
      }
      ok := true;
    }

    method CopyConditions(words: seq<u32>) returns (ok: bool)
      requires Valid()
      modifies this
      ensures Valid() && SameEvent(old(event), event) && ok == (6 * old(event.conditionCount) <= |words|)
      ensures ok ==>
        event == old(event).(conditions := FilledConditions(old(event.conditions), words, old(event.conditionCount)))
    {
      for i := 0 to event.conditionCount
        invariant Valid() && 6 * i <= |words|
        invariant event == old(event).(conditions := FilledConditions(old(event.conditions), words, i))
      {
        if 6 * i + 6 > |words| {
          return false;
        }
        event := event.(conditions := event.conditions[i := ConditionFrom(words, i)]);
        assert event.conditions == FilledConditions(old(event.conditions), words, i + 1);
      }
      ok := true;
    }

    method CopyEnvelope(x: DiEffect) returns (ok: bool)
      requires Valid()
      modifies this
      ensures Valid() && SameEvent(old(event), event) && event.axisCount == old(event.axisCount)
      ensures ok == (ReadsEnvelope(old(event), x) ==>
        1 <= |x.envelope.words| && (x.envelope.words[0] >= ENVELOPE_SIZE ==> |x.envelope.words| >= 5))
      ensures ok ==> event == WithEnvelope(old(event), x)
    {
      if Captures(event, DIEP_ENVELOPE) && x.envelope.Memory? {
        var w := x.envelope.words;
        if |w| < 1 {
          return false;
        }
        if w[0] >= ENVELOPE_SIZE {
          if |w| < 5 {
            return false;
          }
          event := event.(attackLevel := w[1], attackTime := w[2], fadeLevel := w[3], fadeTime := w[4]);
        }
      }
      ok := true;
    }

    // The switch on the effect kind.
    method CopyForce(x: DiEffect, w: seq<u32>) returns (ok: bool)
      requires Valid() && x.typeSize > 0
      modifies this
      ensures Valid() && SameEvent(old(event), event) && ok == (ForceWordsNeeded(old(event), x) <= |w|)
      ensures ok ==> event == WithForce(old(event), x, w)
    {
      var size := x.typeSize;
      if event.effectKind == CONSTANT {
        if size >= CONSTANT_SIZE {
          if |w| < 1 {
            return false;
          }
          event := event.(magnitude := FromWord(w[0]));
        }
      } else if event.effectKind == RAMP {
        if size >= RAMP_SIZE {
          if |w| < 2 {
            return false;
          }
          event := event.(rampStart := FromWord(w[0]), rampEnd := FromWord(w[1]));
        }
      } else if SQUARE <= event.effectKind <= SAWTOOTH_DOWN {
        if size >= PERIODIC_SIZE {
          if |w| < 4 {
            return false;
          }
          event := event.(periodicMagnitude := FromWord(w[0]), periodicOffset := FromWord(w[1]));
          event := event.(periodicPhase := FromWord(w[2]), periodicPeriod := FromWord(w[3]),
                          magnitude := FromWord(w[0]));
        }
      } else if IsCondition(event.effectKind) {
        if size >= CONDITION_SIZE {
          var available := size / CONDITION_SIZE;
          var count := Min(if event.axisCount == 0 then available else event.axisCount, MAX_AXES);
          event := event.(conditionCount := Min(count, available));
          ok := CopyConditions(w);
          return;
        }
      } else {
        event := event.(customRedacted := true);
      }
      ok := true;
    }

    method CopyTypeSpecific(x: DiEffect) returns (ok: bool)
      requires Valid()
      modifies this
      ensures Valid() && SameEvent(old(event), event)
      ensures ok == (ReadsForce(old(event), x) ==> ForceWordsNeeded(old(event), x) <= |x.typeSpecific.words|)
      ensures ok ==> event == WithTypeSpecific(old(event), x)
    {
      if Opaque(event.effectKind) {
        event := event.(customRedacted := true);
      }
      if !Captures(event, DIEP_TYPE_SPECIFIC) {
        return true;
      }
      event := event.(typeSpecificSize := x.typeSize);
      if x.typeSpecific.Null? || event.typeSpecificSize == 0 {
        return true;
      }
      ok := CopyForce(x, x.typeSpecific.words);
    }

    // The two lists of axes.
    method CopyLists(x: DiEffect) returns (ok: bool)
      requires Valid()
      modifies this
      ensures Valid() && SameEvent(old(event), event)
      ensures ok ==
        ((Wanted(old(event), DIEP_AXES, x.axes) ==> old(event.axisCount) <= |x.axes.words|)
         && (Wanted(old(event), DIEP_DIRECTION, x.directions) ==> old(event.axisCount) <= |x.directions.words|))
      ensures ok ==> event == ListsOf(old(event), x) && event.axisCount == old(event.axisCount)
    {
      hide Bit, Filled;
      if Captures(event, DIEP_AXES) && x.axes.Memory? {
        ok := CopyAxes(x.axes.words);
        if !ok {
          return;
        }
      }
      ok := true;
      if Captures(event, DIEP_DIRECTION) && x.directions.Memory? {
        ok := CopyDirections(x.directions.words);
      }
    }

    // The guarded part: false when a read faulted.
    method TryCapture(x: DiEffect, l: Layout) returns (ok: bool)
      requires Valid()
      modifies this
      ensures Valid() && SameEvent(old(event), event) && ok == Readable(old(event), x, l)
      ensures ok ==> event == Captured(old(event), x, l)
    {
      hide Bit, WithTypeSpecific, WithEnvelope, ListsOf;
      if x.size < l.dx5 {
        event := event.(customRedacted := Opaque(event.effectKind));
        return true;
      }
      event := WithScalars(event, x, l);
      ok := CopyLists(x);
      if !ok {
        return;
      }
      ok := CopyEnvelope(x);
      if !ok {
        return;
      }
      ok := CopyTypeSpecific(x);
    }

    /** fill_effect_parameters: a fault redacts the effect and drops its lists. */
    method FillEffectParameters(effect: Option<DiEffect>, l: Layout)
      requires Valid()
      modifies this
      ensures Valid() && Copied(old(event), effect, l, event)
    {
      if effect.None? {
        return;
      }
      var ok := TryCapture(effect.value, l);
      if !ok {
        event := event.(customRedacted := true, axisCount := 0, conditionCount := 0);
      }
    }
  }

  // ---------- What the captures promise ----------

  // The fields in front of the type-specific ones, but for the envelope.
  predicate SameScalars(e: Event, n: Event) {
    && n.duration == e.duration && n.samplePeriod == e.samplePeriod && n.gain == e.gain && n.startDelay == e.startDelay
    && n.triggerButton == e.triggerButton && n.triggerRepeat == e.triggerRepeat && n.axisCount == e.axisCount
    && n.axes == e.axes && n.directions == e.directions
  }

  predicate SameEnvelope(e: Event, n: Event) {
    && n.attackLevel == e.attackLevel && n.attackTime == e.attackTime && n.fadeLevel == e.fadeLevel
      && n.fadeTime == e.fadeTime
  }

  predicate SameForce(e: Event, n: Event) {
    && n.magnitude == e.magnitude && n.conditions == e.conditions && n.conditionCount == e.conditionCount
    && n.rampStart == e.rampStart && n.rampEnd == e.rampEnd && n.periodicMagnitude == e.periodicMagnitude
    && n.periodicOffset == e.periodicOffset && n.periodicPhase == e.periodicPhase
      && n.periodicPeriod == e.periodicPeriod
  }

  lemma ForceTouches(e: Event, x: DiEffect)
    requires Shaped(e) && e.axisCount <= MAX_AXES
      && (ReadsForce(e, x) ==> ForceWordsNeeded(e, x) <= |x.typeSpecific.words|)
    ensures var n := WithTypeSpecific(e, x);
      && SameScalars(e, n) && SameEnvelope(e, n)
      && (!Captures(e, DIEP_TYPE_SPECIFIC) || Opaque(e.effectKind) ==> SameForce(e, n))
      && (!Captures(e, DIEP_TYPE_SPECIFIC) ==> n.typeSpecificSize == e.typeSpecificSize)
      && (Opaque(e.effectKind) ==> n.customRedacted)
  {
    hide Bit;
  }

  lemma EnvelopeTouches(e: Event, x: DiEffect)
    requires ReadsEnvelope(e, x) ==>
      1 <= |x.envelope.words| && (x.envelope.words[0] >= ENVELOPE_SIZE ==> |x.envelope.words| >= 5)
    ensures var n := WithEnvelope(e, x);
      && SameForce(e, n) && SameScalars(e, n) && n.typeSpecificSize == e.typeSpecificSize
      && n.effectKind == e.effectKind && n.messageType == e.messageType && n.flags == e.flags
        && (Shaped(e) ==> Shaped(n))
      && (!Captures(e, DIEP_ENVELOPE) ==> SameEnvelope(e, n))
  {
    hide Bit;
  }

  lemma ListsTouch(e: Event, x: DiEffect, l: Layout)
    requires Shaped(e) && e.axisCount <= MAX_AXES && Readable(e, x, l) && x.size >= l.dx5
    ensures var n := WithLists(e, x, l);
      && SameForce(e, n) && SameEnvelope(e, n) && n.typeSpecificSize == e.typeSpecificSize
      && n.effectKind == e.effectKind && n.messageType == e.messageType && n.flags == e.flags
      && n.duration == (if Captures(e, DIEP_DURATION) then x.duration else e.duration)
      && n.samplePeriod == (if Captures(e, DIEP_SAMPLE_PERIOD) then x.samplePeriod else e.samplePeriod)
      && n.gain == (if Captures(e, DIEP_GAIN) then x.gain else e.gain)
      && n.startDelay == (if Captures(e, DIEP_START_DELAY) && x.size >= l.full then x.startDelay else e.startDelay)
      && n.triggerButton == (if Captures(e, DIEP_TRIGGER_BUTTON) then x.triggerButton else e.triggerButton)
      && n.triggerRepeat == (if Captures(e, DIEP_TRIGGER_REPEAT) then x.triggerRepeat else e.triggerRepeat)
      && (!Captures(e, DIEP_AXES) ==> n.axes == e.axes)
        && (!Captures(e, DIEP_DIRECTION) ==> n.directions == e.directions)
      && (!Captures(e, DIEP_AXES) && !Captures(e, DIEP_DIRECTION) ==> n.axisCount == e.axisCount)
  {
    hide Bit, Filled;
  }

  /** A capture copies what the flags name, and only that; of a creation they name everything. */
  lemma OnlyNamedFields(e: Event, x: DiEffect, l: Layout)
    requires Shaped(e) && e.axisCount <= MAX_AXES && Readable(e, x, l) && x.size >= l.dx5
    ensures var n := Captured(e, x, l);
      && n.duration == (if Captures(e, DIEP_DURATION) then x.duration else e.duration)
      && n.samplePeriod == (if Captures(e, DIEP_SAMPLE_PERIOD) then x.samplePeriod else e.samplePeriod)
      && n.gain == (if Captures(e, DIEP_GAIN) then x.gain else e.gain)
      && n.startDelay == (if Captures(e, DIEP_START_DELAY) && x.size >= l.full then x.startDelay else e.startDelay)
      && n.triggerButton == (if Captures(e, DIEP_TRIGGER_BUTTON) then x.triggerButton else e.triggerButton)
      && n.triggerRepeat == (if Captures(e, DIEP_TRIGGER_REPEAT) then x.triggerRepeat else e.triggerRepeat)
      && (!Captures(e, DIEP_AXES) ==> n.axes == e.axes)
        && (!Captures(e, DIEP_DIRECTION) ==> n.directions == e.directions)
      && (!Captures(e, DIEP_AXES) && !Captures(e, DIEP_DIRECTION) ==> n.axisCount == e.axisCount)
      && (!Captures(e, DIEP_ENVELOPE) ==> SameEnvelope(e, n))
      && (!Captures(e, DIEP_TYPE_SPECIFIC) ==> SameForce(e, n) && n.typeSpecificSize == e.typeSpecificSize)
  {
    hide Bit, WithTypeSpecific, WithEnvelope, WithLists, Readable;
    ListsTouch(e, x, l);
    ReadableLater(e, x, l);
    var d := WithLists(e, x, l);
    EnvelopeTouches(d, x);
    ForceTouches(WithEnvelope(d, x), x);
  }

  // What was readable stays so once the lists are in.
  lemma ReadableLater(e: Event, x: DiEffect, l: Layout)
    requires Shaped(e) && e.axisCount <= MAX_AXES && Readable(e, x, l) && x.size >= l.dx5
    ensures var d := WithLists(e, x, l);
      && Shaped(d) && d.axisCount <= MAX_AXES
      && (ReadsEnvelope(d, x) ==>
           1 <= |x.envelope.words| && (x.envelope.words[0] >= ENVELOPE_SIZE ==> |x.envelope.words| >= 5))
      && var v := WithEnvelope(d, x);
      && Shaped(v) && v.axisCount <= MAX_AXES && (ReadsForce(v, x) ==> ForceWordsNeeded(v, x) <= |x.typeSpecific.words|)
  {
    hide Bit, Filled;
  }

  /** Custom and unknown effects are always marked redacted and never show type-specific bytes. */
  lemma OpaqueIsRedacted(e: Event, x: DiEffect, l: Layout)
    requires Shaped(e) && e.axisCount <= MAX_AXES && Readable(e, x, l) && Opaque(e.effectKind)
    ensures Captured(e, x, l).customRedacted && SameForce(e, Captured(e, x, l))
  {
    hide Bit, WithTypeSpecific, WithEnvelope, WithLists, Readable;
    if x.size >= l.dx5 {
      ListsTouch(e, x, l);
      ReadableLater(e, x, l);
      var d := WithLists(e, x, l);
      EnvelopeTouches(d, x);
      ForceTouches(WithEnvelope(d, x), x);
    }
  }
}
