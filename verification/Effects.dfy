/**
 One effect as the detector tracks it: its parameters, its playback schedule and its
 level at an instant. Times are reals in milliseconds.
 */
module Effects {
  import opened Bytes
  import opened Protocol

  const INFINITE: u32 := 0xFFFF_FFFF
  const NO_TRIGGER: u32 := 0xFFFF_FFFF

  datatype Until = Forever | At(time: real)

  datatype EffectKey = EffectKey(deviceId: u32, effectId: u32)

  // The playback schedule. requested is the Start call, moved past every pause since.
  datatype Schedule = Schedule(
    active: bool, duration: u32, startDelay: u32, iterations: u32,
    requested: real, activeFrom: real, activeUntil: Until)

  datatype Envelope = Envelope(attackLevel: u32, attackTime: u32, fadeLevel: u32, fadeTime: u32)

  datatype Force = Force(
    magnitude: i32, rampStart: i32, rampEnd: i32,
    periodicMagnitude: i32, periodicOffset: i32, periodicPhase: i32, periodicPeriod: u32)

  datatype Effect = Effect(
    deviceId: u32, effectId: u32, kind: u16, schedule: Schedule, gain: real, force: Force,
    triggerButton: u32, triggerRepeat: u32, envelope: Envelope)

  datatype Device = Device(gain: real, paused: bool, pausedAt: real, actuatorsEnabled: bool)

  function MaxReal(a: real, b: real): (r: real)
    ensures r >= a && r >= b && (r == a || r == b)
  {
    if a >= b then a else b
  }

  function MinReal(a: real, b: real): (r: real)
    ensures r <= a && r <= b && (r == a || r == b)
  {
    if a <= b then a else b
  }

  function Clamp01(value: real): (r: real)
    ensures 0.0 <= r <= 1.0
    ensures 0.0 <= value <= 1.0 ==> r == value
  {
    MaxReal(0.0, MinReal(1.0, value))
  }

  function Abs(value: real): (r: real)
    ensures r >= 0.0 && (r == value || r == -value)
  {
    if value < 0.0 then -value else value
  }

  function Milliseconds(microseconds: u32): (ms: real)
    ensures ms >= 0.0
  {
    microseconds as real / 1000.0
  }

  function NormalizeUnsigned(value: u32): (r: real)
    ensures 0.0 <= r <= 1.0
  {
    Clamp01(value as real / 10000.0)
  }

  // ---------- The schedule ----------

  function NewSchedule(): Schedule { Schedule(false, INFINITE, 0, 1, 0.0, 0.0, Forever) }

  /** How long a playback runs once its start delay is over. */
  function Length(duration: u32, iterations: u32): Until {
    if duration == INFINITE || iterations == INFINITE then Forever
    else At(Milliseconds(duration) * iterations as real)
  }

  function RefreshSchedule(s: Schedule): Schedule {
    var from := s.requested + Milliseconds(s.startDelay);
    s.(activeFrom := from,
       activeUntil := match Length(s.duration, s.iterations)
         case Forever => Forever
         case At(length) => At(from + length))
  }

  function Begin(s: Schedule, now: real, iterations: u32): Schedule {
    RefreshSchedule(s.(active := true, iterations := if iterations == 0 then 1 else iterations, requested := now))
  }

  function ShiftSchedule(s: Schedule, shift: real): Schedule {
    if !s.active || shift <= 0.0 then s
    else
      s.(requested := s.requested + shift, activeFrom := s.activeFrom + shift,
         activeUntil := match s.activeUntil
           case Forever => Forever
           case At(time) => At(time + shift))
  }

  /** A playback started during the pause only skips the part of it that came after its start. */
  function ResumeAfterPause(s: Schedule, pausedAt: real, now: real): Schedule {
    ShiftSchedule(s, MaxReal(0.0, now - MaxReal(pausedAt, s.requested)))
  }

  predicate Past(s: Schedule, now: real) { s.activeUntil.At? && now >= s.activeUntil.time }

  function ExpireIfFinished(s: Schedule, now: real): Schedule {
    if s.active && Past(s, now) then s.(active := false) else s
  }

  // Asking whether an effect is producing also retires a finished one, once its start has been reached.
  function Probe(s: Schedule, now: real): Schedule {
    if !s.active || now < s.activeFrom then s else ExpireIfFinished(s, now)
  }

  predicate IsProducing(s: Schedule, now: real) { s.active && now >= s.activeFrom && !Past(s, now) }

  function StopSchedule(s: Schedule): Schedule { s.(active := false, activeUntil := Forever) }

  function UpdateSchedule(s: Schedule, duration: Option<u32>, startDelay: Option<u32>): Schedule {
    s.(duration := if duration.Some? then duration.value else s.duration,
       startDelay := if startDelay.Some? then startDelay.value else s.startDelay)
  }

  // ---------- The level ----------

  function NewEffect(deviceId: u32, effectId: u32): Effect {
    Effect(deviceId, effectId, UNKNOWN_KIND, NewSchedule(), 1.0, Force(0, 0, 0, 0, 0, 0, 0), NO_TRIGGER, 0,
      Envelope(0, 0, 0, 0))
  }

  predicate IsPeriodic(kind: u16) { SQUARE <= kind <= SAWTOOTH_DOWN }

  predicate IsSupported(e: Effect) {
    e.kind == CONSTANT || e.kind == RAMP || (IsPeriodic(e.kind) && e.force.periodicPeriod > 0)
  }

  predicate HasUnobservableTrigger(e: Effect) { e.triggerButton != NO_TRIGGER }

  function Fraction(x: real): (r: real)
    ensures 0.0 <= r < 1.0
  {
    x - x.Floor as real
  }

  lemma ScaleDown(a: real, share: real)
    requires a >= 0.0 && 0.0 <= share <= 1.0
    ensures 0.0 <= share * a <= a
    ensures a > 0.0 && share < 1.0 ==> share * a < a
  {
    var rest := 1.0 - share;
    assert rest * a == a - share * a;
    assert a > 0.0 && rest > 0.0 ==> rest * a > 0.0;
  }

  /** x modulo a positive period. */
  function Remainder(x: real, period: real): (r: real)
    requires x >= 0.0 && period > 0.0
    ensures 0.0 <= r < period
  {
    var share := Fraction(x / period);
    ScaleDown(period, share);
    share * period
  }

  function IterationElapsed(s: Schedule, now: real): (r: real)
    ensures r >= 0.0
    ensures s.duration != INFINITE && s.duration != 0 ==> r < Milliseconds(s.duration)
  {
    var elapsed := MaxReal(0.0, now - s.activeFrom);
    if s.duration == INFINITE || s.duration == 0 then elapsed
    else Remainder(elapsed, Milliseconds(s.duration))
  }

  predicate HasEnvelope(v: Envelope) { v.attackLevel != 0 || v.attackTime != 0 || v.fadeLevel != 0 || v.fadeTime != 0 }

  /** The way from one level to another, progress being a share. */
  function Blend(from: real, to: real, progress: real): real { from + progress * (to - from) }

  function EnvelopeAmplitude(v: Envelope, duration: u32, elapsed: real, sustain: real): real {
    var attack, fade := Milliseconds(v.attackTime), Milliseconds(v.fadeTime);
    if !HasEnvelope(v) then sustain
    else if attack > 0.0 && elapsed < attack then
      Blend(NormalizeUnsigned(v.attackLevel), sustain, Clamp01(elapsed / attack))
    else if duration != INFINITE && v.fadeTime != 0 then
      var fadeStart := MaxReal(0.0, Milliseconds(duration) - fade);
      if elapsed >= fadeStart then
        Blend(sustain, NormalizeUnsigned(v.fadeLevel),
              if fade <= 0.0 then 1.0 else Clamp01((elapsed - fadeStart) / fade))
      else sustain
    else sustain
  }

  function EnvelopeToSigned(v: Envelope, duration: u32, elapsed: real, sustain: real): real {
    (if sustain < 0.0 then -1.0 else 1.0) * EnvelopeAmplitude(v, duration, elapsed, Abs(sustain))
  }

  /** sine maps a share of a cycle to the sine of that angle. */
  function Waveform(sine: real -> real, kind: u16, phase: real): real {
    if kind == SINE then sine(phase)
    else if kind == SQUARE then if phase < 0.5 then 1.0 else -1.0
    else if kind == TRIANGLE then 1.0 - 4.0 * MinReal(phase, 1.0 - phase)
    else if kind == SAWTOOTH_UP then 2.0 * phase - 1.0
    else if kind == SAWTOOTH_DOWN then 1.0 - 2.0 * phase
    else 0.0
  }

  function RampAt(e: Effect, elapsed: real): real {
    var progress :=
      if e.schedule.duration == INFINITE || e.schedule.duration == 0 then 0.0
      else Clamp01(elapsed / Milliseconds(e.schedule.duration));
    Blend(e.force.rampStart as real, e.force.rampEnd as real, progress) / 10000.0
  }

  function PeriodicAt(sine: real -> real, e: Effect, elapsed: real): real
    requires e.force.periodicPeriod > 0
  {
    var cycles := elapsed * 1000.0 / e.force.periodicPeriod as real + e.force.periodicPhase as real / 36000.0;
    var amplitude := EnvelopeAmplitude(e.envelope, e.schedule.duration, elapsed,
      Abs(e.force.periodicMagnitude as real / 10000.0));
    e.force.periodicOffset as real / 10000.0
    + (if e.force.periodicMagnitude < 0 then -1.0 else 1.0) * amplitude * Waveform(sine, e.kind, Fraction(cycles))
  }

  /** The signed command of a supported effect, before it is clamped. */
  function CommandAt(sine: real -> real, e: Effect, now: real): real
    requires IsSupported(e)
  {
    var elapsed := IterationElapsed(e.schedule, now);
    if e.kind == CONSTANT then
      EnvelopeToSigned(e.envelope, e.schedule.duration, elapsed, e.force.magnitude as real / 10000.0)
    else if e.kind == RAMP then
      EnvelopeToSigned(e.envelope, e.schedule.duration, elapsed, RampAt(e, elapsed))
    else PeriodicAt(sine, e, elapsed)
  }

  function RawLevelAt(sine: real -> real, e: Effect, now: real): (r: real)
    ensures 0.0 <= r <= 1.0
  {
    if !IsSupported(e) then 0.0 else Clamp01(Abs(CommandAt(sine, e, now)))
  }

  // ---------- What bounds the level ----------

  ghost predicate BoundedSine(sine: real -> real) { forall x :: -1.0 <= sine(x) <= 1.0 }

  // The part of the way, as a share of the span.
  lemma PartWithin(span: real, progress: real)
    requires 0.0 <= progress <= 1.0
    ensures MinReal(0.0, span) <= progress * span <= MaxReal(0.0, span)
  {
    if span >= 0.0 {
      ScaleDown(span, progress);
    } else {
      var rest := 1.0 - progress;
      assert rest * span == span - progress * span;
      assert progress * span <= 0.0 && rest * span <= 0.0;
    }
  }

  lemma SumBetween(from: real, to: real, part: real)
    requires MinReal(0.0, to - from) <= part <= MaxReal(0.0, to - from)
    ensures MinReal(from, to) <= from + part <= MaxReal(from, to)
  {
  }

  lemma BlendWithin(from: real, to: real, progress: real)
    requires 0.0 <= progress <= 1.0
    ensures MinReal(from, to) <= Blend(from, to, progress) <= MaxReal(from, to)
  {
    hide MinReal, MaxReal;
    PartWithin(to - from, progress);
    SumBetween(from, to, progress * (to - from));
  }

  /** The envelope never leaves the span of the sustain level and its own two levels. */
  lemma EnvelopeWithin(v: Envelope, duration: u32, elapsed: real, sustain: real, high: real)
    requires 0.0 <= sustain <= high
    requires NormalizeUnsigned(v.attackLevel) <= high && NormalizeUnsigned(v.fadeLevel) <= high
    ensures 0.0 <= EnvelopeAmplitude(v, duration, elapsed, sustain) <= high
  {
    var attack, fade := Milliseconds(v.attackTime), Milliseconds(v.fadeTime);
    if HasEnvelope(v) && attack > 0.0 && elapsed < attack {
      BlendWithin(NormalizeUnsigned(v.attackLevel), sustain, Clamp01(elapsed / attack));
    } else if HasEnvelope(v) && duration != INFINITE && v.fadeTime != 0 {
      var fadeStart := MaxReal(0.0, Milliseconds(duration) - fade);
      BlendWithin(sustain, NormalizeUnsigned(v.fadeLevel),
                  if fade <= 0.0 then 1.0 else Clamp01((elapsed - fadeStart) / fade));
    }
  }

  lemma WaveformWithin(sine: real -> real, kind: u16, phase: real)
    requires BoundedSine(sine) && 0.0 <= phase < 1.0
    ensures -1.0 <= Waveform(sine, kind, phase) <= 1.0
  {
  }

  /**
   No waveform, phase or envelope lifts a periodic effect above its offset plus the
   largest of its magnitude and its envelope levels.
   */
  lemma PeriodicWithin(sine: real -> real, e: Effect, now: real, high: real)
    requires BoundedSine(sine) && IsPeriodic(e.kind) && e.force.periodicPeriod > 0
    requires Abs(e.force.periodicMagnitude as real / 10000.0) <= high
    requires NormalizeUnsigned(e.envelope.attackLevel) <= high && NormalizeUnsigned(e.envelope.fadeLevel) <= high
    ensures RawLevelAt(sine, e, now) <= Abs(e.force.periodicOffset as real / 10000.0) + high
  {
    var elapsed := IterationElapsed(e.schedule, now);
    var sustain := Abs(e.force.periodicMagnitude as real / 10000.0);
    hide EnvelopeAmplitude, PeriodicAt, IterationElapsed;
    EnvelopeWithin(e.envelope, e.schedule.duration, elapsed, sustain, high);
    PeriodicParts(sine, e, elapsed, high);
  }

  lemma PeriodicParts(sine: real -> real, e: Effect, elapsed: real, high: real)
    requires BoundedSine(sine) && e.force.periodicPeriod > 0
    requires 0.0 <= EnvelopeAmplitude(e.envelope, e.schedule.duration, elapsed,
      Abs(e.force.periodicMagnitude as real / 10000.0)) <= high
    ensures Abs(PeriodicAt(sine, e, elapsed)) <= Abs(e.force.periodicOffset as real / 10000.0) + high
  {
    hide EnvelopeAmplitude, Waveform, Fraction, Abs;
    var amplitude := EnvelopeAmplitude(e.envelope, e.schedule.duration, elapsed,
      Abs(e.force.periodicMagnitude as real / 10000.0));
    var cycles := elapsed * 1000.0 / e.force.periodicPeriod as real + e.force.periodicPhase as real / 36000.0;
    WaveformWithin(sine, e.kind, Fraction(cycles));
    var sign := if e.force.periodicMagnitude < 0 then -1.0 else 1.0;
    var wave := Waveform(sine, e.kind, Fraction(cycles));
    SignedWithin(sign, amplitude, wave);
    SumWithin(e.force.periodicOffset as real / 10000.0, sign * amplitude * wave, high);
  }

  lemma SumWithin(a: real, b: real, high: real)
    requires -high <= b <= high
    ensures Abs(a + b) <= Abs(a) + high
  {
  }

  lemma WaveWithin(amplitude: real, wave: real)
    requires amplitude >= 0.0 && -1.0 <= wave <= 1.0
    ensures -amplitude <= wave * amplitude <= amplitude
  {
    if wave >= 0.0 {
      ScaleDown(amplitude, wave);
    } else {
      ScaleDown(amplitude, -wave);
      assert -wave * amplitude == -(wave * amplitude);
    }
  }

  lemma SignedWithin(sign: real, amplitude: real, wave: real)
    requires (sign == 1.0 || sign == -1.0) && amplitude >= 0.0 && -1.0 <= wave <= 1.0
    ensures -amplitude <= sign * amplitude * wave <= amplitude
  {
    WaveWithin(amplitude, wave);
    if sign == 1.0 {
      assert sign * amplitude * wave == wave * amplitude;
    } else {
      assert sign * amplitude == -amplitude;
      assert -amplitude * wave == -(wave * amplitude);
    }
  }
}
