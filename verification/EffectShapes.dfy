/**
 The shape of every kind of force over time, by equations free of divisions: times in microseconds, forces in
 ten-thousandths, as they come over the wire.
 */
module EffectShapes {
  import opened Bytes
  import opened Protocol
  import opened Effects

  // A level of the wire as a share of full scale.
  function Level(value: u32): real { MinReal(1.0, value as real / 10000.0) }

  // ---------- Time within a pass ----------

  // The length of so many passes.
  function Passes(count: nat, duration: u32): real { count as real * duration as real }

  /** The time since playback began, less all whole passes; endless and empty passes are never left. */
  lemma PassTime(s: Schedule, now: real)
    ensures var (since, elapsed) := (MaxReal(0.0, now - s.activeFrom), IterationElapsed(s, now));
      if s.duration == 0xFFFF_FFFF || s.duration == 0 then elapsed == since
      else
        && 0.0 <= 1000.0 * elapsed < s.duration as real
        && exists count: nat :: 1000.0 * (since - elapsed) == Passes(count, s.duration)
  {
    if s.duration != INFINITE && s.duration != 0 {
      var since := MaxReal(0.0, now - s.activeFrom);
      WholePasses(since, s.duration as real / 1000.0);
      var count: nat := (since / (s.duration as real / 1000.0)).Floor;
      assert 1000.0 * (since - IterationElapsed(s, now)) == Passes(count, s.duration);
    }
  }

  lemma WholePasses(x: real, period: real)
    requires x >= 0.0 && period > 0.0
    ensures (x / period).Floor >= 0
    ensures x - Remainder(x, period) == (x / period).Floor as real * period
  {
    var q := x / period;
    assert q >= 0.0 && q * period == x;
    assert (q - Fraction(q)) * period == q * period - Fraction(q) * period;
  }

  // ---------- The envelope ----------

  /** Where the fade of a pass begins. */
  function FadeStart(duration: u32, fadeTime: u32): int { if duration > fadeTime then duration - fadeTime else 0 }

  lemma Straight(from: real, to: real, at: real, over: real)
    requires over > 0.0 && 0.0 <= at <= over
    ensures over * (Blend(from, to, Clamp01(at / over)) - from) == at * (to - from)
  {
    var share := at / over;
    assert 0.0 <= share <= 1.0 && share * over == at;
    assert over * (share * (to - from)) == share * over * (to - from);
  }

  lemma Arrived(from: real, to: real, at: real, over: real)
    requires over > 0.0 && at >= over
    ensures Blend(from, to, Clamp01(at / over)) == to
  {
    Beyond(at, over);
  }

  lemma Beyond(at: real, over: real)
    requires over > 0.0 && at >= over
    ensures at / over >= 1.0
  {
    var share := at / over;
    assert share * over == at;
  }

  lemma InAttack(v: Envelope, duration: u32, elapsed: real, sustain: real)
    requires 0.0 <= elapsed && 1000.0 * elapsed < v.attackTime as real
    ensures var a := EnvelopeAmplitude(v, duration, elapsed, sustain);
      v.attackTime as real * (a - Level(v.attackLevel)) == 1000.0 * elapsed * (sustain - Level(v.attackLevel))
  {
    var attack := v.attackTime as real / 1000.0;
    Straight(Level(v.attackLevel), sustain, elapsed, attack);
    Thousandfold(attack, EnvelopeAmplitude(v, duration, elapsed, sustain) - Level(v.attackLevel),
      elapsed, sustain - Level(v.attackLevel));
  }

  lemma Thousandfold(a: real, b: real, c: real, d: real)
    requires a * b == c * d
    ensures 1000.0 * a * b == 1000.0 * c * d
  {
    assert 1000.0 * (a * b) == 1000.0 * a * b;
    assert 1000.0 * (c * d) == 1000.0 * c * d;
  }

  lemma Fading(v: Envelope, duration: u32, elapsed: real, sustain: real)
    requires 1000.0 * elapsed >= v.attackTime as real && duration != 0xFFFF_FFFF && v.fadeTime > 0
    requires 1000.0 * elapsed >= FadeStart(duration, v.fadeTime) as real
    ensures var fade := v.fadeTime as real / 1000.0;
      EnvelopeAmplitude(v, duration, elapsed, sustain)
      == Blend(sustain, Level(v.fadeLevel), Clamp01((elapsed - FadeStart(duration, v.fadeTime) as real / 1000.0) / fade))
  {
    hide Blend, Clamp01, Level, NormalizeUnsigned;
    LevelIs(v.fadeLevel);
    assert FadeStart(duration, v.fadeTime) as real / 1000.0
      == MaxReal(0.0, Milliseconds(duration) - Milliseconds(v.fadeTime));
  }

  lemma LevelIs(value: u32)
    ensures NormalizeUnsigned(value) == Level(value)
  {
  }

  lemma InFade(v: Envelope, duration: u32, elapsed: real, sustain: real)
    requires 1000.0 * elapsed >= v.attackTime as real && duration != 0xFFFF_FFFF && v.fadeTime > 0
    requires 1000.0 * elapsed >= FadeStart(duration, v.fadeTime) as real
    ensures var (a, gone) := (EnvelopeAmplitude(v, duration, elapsed, sustain),
                              1000.0 * elapsed - FadeStart(duration, v.fadeTime) as real);
      if gone <= v.fadeTime as real then v.fadeTime as real * (a - sustain) == gone * (Level(v.fadeLevel) - sustain)
      else a == Level(v.fadeLevel)
  {
    hide EnvelopeAmplitude, Level, FadeStart, Blend, Clamp01;
    Fading(v, duration, elapsed, sustain);
    var fade, gone := v.fadeTime as real / 1000.0, elapsed - FadeStart(duration, v.fadeTime) as real / 1000.0;
    var a := EnvelopeAmplitude(v, duration, elapsed, sustain);
    if gone <= fade {
      Straight(sustain, Level(v.fadeLevel), gone, fade);
      Thousandfold(fade, a - sustain, gone, Level(v.fadeLevel) - sustain);
    } else {
      Arrived(sustain, Level(v.fadeLevel), gone, fade);
    }
  }

  lemma InBetween(v: Envelope, duration: u32, elapsed: real, sustain: real)
    requires 1000.0 * elapsed >= v.attackTime as real
    requires duration == 0xFFFF_FFFF || v.fadeTime == 0 || 1000.0 * elapsed < FadeStart(duration, v.fadeTime) as real
    ensures EnvelopeAmplitude(v, duration, elapsed, sustain) == sustain
  {
    hide Blend, Clamp01, NormalizeUnsigned;
  }

  /**
   An envelope climbs, or falls, on a straight line from its attack level to the sustained level over the attack time,
   and from there to its fade level over the last part of a pass that ends; in between the force is the sustained one.
   */
  lemma EnvelopeStages(v: Envelope, duration: u32, elapsed: real, sustain: real)
    requires 0.0 <= elapsed
    ensures var (a, at) := (EnvelopeAmplitude(v, duration, elapsed, sustain), 1000.0 * elapsed);
      var gone := at - FadeStart(duration, v.fadeTime) as real;
      if at < v.attackTime as real then
        v.attackTime as real * (a - Level(v.attackLevel)) == at * (sustain - Level(v.attackLevel))
      else if duration == 0xFFFF_FFFF || v.fadeTime == 0 || gone < 0.0 then a == sustain
      else if gone <= v.fadeTime as real then v.fadeTime as real * (a - sustain) == gone * (Level(v.fadeLevel) - sustain)
      else a == Level(v.fadeLevel)
  {
    hide EnvelopeAmplitude, Level, FadeStart;
    if 1000.0 * elapsed < v.attackTime as real {
      InAttack(v, duration, elapsed, sustain);
    } else if duration != INFINITE && v.fadeTime != 0
      && 1000.0 * elapsed >= FadeStart(duration, v.fadeTime) as real {
      InFade(v, duration, elapsed, sustain);
    } else {
      InBetween(v, duration, elapsed, sustain);
    }
  }

  // ---------- The kinds of force ----------

  /** A constant force: its magnitude under the envelope, cut at full scale; without envelope times, itself. */
  lemma ConstantLevel(sine: real -> real, e: Effect, now: real)
    requires e.kind == 1
    ensures var m := Abs(e.force.magnitude as real / 10000.0);
      && RawLevelAt(sine, e, now)
        == MinReal(1.0, Abs(EnvelopeAmplitude(e.envelope, e.schedule.duration, IterationElapsed(e.schedule, now), m)))
      && (e.envelope.attackTime == 0 && e.envelope.fadeTime == 0 ==> RawLevelAt(sine, e, now) == MinReal(1.0, m))
  {
  }

  /** A ramp moves from its start to its end over one pass, and stays at its start when passes have no length. */
  lemma RampLevel(sine: real -> real, e: Effect, now: real, value: real)
    requires e.kind == 2
    requires var (elapsed, duration) := (IterationElapsed(e.schedule, now), e.schedule.duration);
      if duration == 0xFFFF_FFFF || duration == 0 then value == e.force.rampStart as real
      else
        duration as real * (value - e.force.rampStart as real)
        == 1000.0 * elapsed * (e.force.rampEnd as real - e.force.rampStart as real)
    ensures RawLevelAt(sine, e, now)
      == MinReal(1.0, Abs(EnvelopeAmplitude(e.envelope, e.schedule.duration, IterationElapsed(e.schedule, now),
           Abs(value / 10000.0))))
  {
    hide EnvelopeAmplitude, IterationElapsed;
    var elapsed, duration := IterationElapsed(e.schedule, now), e.schedule.duration;
    if duration != INFINITE && duration != 0 {
      OnTheRamp(e, elapsed, value);
    }
    assert RampAt(e, elapsed) == value / 10000.0;
  }

  lemma OnTheRamp(e: Effect, elapsed: real, value: real)
    requires e.schedule.duration != INFINITE && e.schedule.duration != 0
      && 0.0 <= elapsed < Milliseconds(e.schedule.duration)
    requires e.schedule.duration as real * (value - e.force.rampStart as real)
      == 1000.0 * elapsed * (e.force.rampEnd as real - e.force.rampStart as real)
    ensures RampAt(e, elapsed) == value / 10000.0
  {
    var from, to, over := e.force.rampStart as real, e.force.rampEnd as real, Milliseconds(e.schedule.duration);
    var at := Blend(from, to, Clamp01(elapsed / over));
    Straight(from, to, elapsed, over);
    Thousandfold(over, at - from, elapsed, to - from);
    OnlyOne(e.schedule.duration as real, at - from, value - from);
  }

  lemma OnlyOne(a: real, x: real, y: real)
    requires a > 0.0 && a * x == a * y
    ensures x == y
  {
    assert a * (x - y) == a * x - a * y;
  }

  /** One cycle of each waveform: a sine, a square, a triangle and the two saws. */
  function Wave(sine: real -> real, kind: u16, phase: real): real {
    if kind == 3 then if phase < 0.5 then 1.0 else -1.0
    else if kind == 4 then sine(phase)
    else if kind == 5 then if phase < 0.5 then 1.0 - 4.0 * phase else 4.0 * phase - 3.0
    else if kind == 6 then phase + phase - 1.0
    else 1.0 - phase - phase
  }

  /** The signed force of a wave: its offset and its magnitude, times the wave, with the envelope on the magnitude. */
  function Swing(e: Effect, amplitude: real, wave: real): real {
    if e.force.periodicMagnitude < 0 then e.force.periodicOffset as real / 10000.0 - amplitude * wave
    else e.force.periodicOffset as real / 10000.0 + amplitude * wave
  }

  /**
   A periodic force at a phase of its cycle, the phase being what is left of all whole cycles: elapsed time by period,
   and the phase shift in hundredths of a degree. Without a period there is no force.
   */
  lemma PeriodicLevel(sine: real -> real, e: Effect, now: real, cycles: int, phase: real)
    requires 3 <= e.kind <= 7 && e.force.periodicPeriod > 0 && 0.0 <= phase < 1.0
    requires var period := e.force.periodicPeriod as real;
      period * (36000.0 * (cycles as real + phase) - e.force.periodicPhase as real)
      == 36000.0 * (1000.0 * IterationElapsed(e.schedule, now))
    ensures var amplitude := EnvelopeAmplitude(e.envelope, e.schedule.duration, IterationElapsed(e.schedule, now),
        Abs(e.force.periodicMagnitude as real / 10000.0));
      RawLevelAt(sine, e, now) == MinReal(1.0, Abs(Swing(e, amplitude, Wave(sine, e.kind, phase))))
  {
    hide EnvelopeAmplitude, IterationElapsed;
    var elapsed, period := IterationElapsed(e.schedule, now), e.force.periodicPeriod as real;
    CyclesOf(elapsed, period, e.force.periodicPhase as real, cycles as real + phase);
    var turns := elapsed * 1000.0 / period + e.force.periodicPhase as real / 36000.0;
    assert turns == cycles as real + phase;
    assert turns.Floor == cycles && Fraction(turns) == phase;
    assert Waveform(sine, e.kind, phase) == Wave(sine, e.kind, phase);
    var amplitude := EnvelopeAmplitude(e.envelope, e.schedule.duration, elapsed,
      Abs(e.force.periodicMagnitude as real / 10000.0));
    SwingIs(e, amplitude, Wave(sine, e.kind, phase));
    assert PeriodicAt(sine, e, elapsed) == Swing(e, amplitude, Wave(sine, e.kind, phase));
  }

  lemma SwingIs(e: Effect, amplitude: real, wave: real)
    ensures e.force.periodicOffset as real / 10000.0
      + (if e.force.periodicMagnitude < 0 then -1.0 else 1.0) * amplitude * wave == Swing(e, amplitude, wave)
  {
    if e.force.periodicMagnitude < 0 {
      assert -1.0 * amplitude * wave == -(amplitude * wave);
    }
  }

  lemma CyclesOf(elapsed: real, period: real, shift: real, turns: real)
    requires period > 0.0 && period * (36000.0 * turns - shift) == 36000.0 * (1000.0 * elapsed)
    ensures elapsed * 1000.0 / period + shift / 36000.0 == turns
  {
    assert period * ((36000.0 * turns - shift) / 36000.0) == 1000.0 * elapsed;
    Quotient(1000.0 * elapsed, period, (36000.0 * turns - shift) / 36000.0);
  }

  lemma Quotient(x: real, period: real, y: real)
    requires period > 0.0 && period * y == x
    ensures x / period == y
  {
  }

  /** Conditions, custom and unknown effects have no level, nor has a wave without a period. */
  lemma NoLevel(sine: real -> real, e: Effect, now: real)
    requires !(1 <= e.kind <= 7) || (e.kind >= 3 && e.force.periodicPeriod == 0)
    ensures RawLevelAt(sine, e, now) == 0.0 && !IsSupported(e)
  {
  }

  lemma Supported(e: Effect)
    ensures IsSupported(e) <==> 1 <= e.kind <= 7 && (e.kind >= 3 ==> e.force.periodicPeriod > 0)
  {
  }
}
