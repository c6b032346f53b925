/** The two-way hysteresis of one source: when clipping starts and when it ends. */
module Hysteresis {
  import opened Bytes
  import opened Effects
  import opened Settings
  import opened Window

  datatype Meter = Meter(
    history: seq<ClipInterval>, lastTick: real, lastAtLimit: bool, lastBelowExit: bool,
    continuousLimit: real, continuousBelow: real, atLimit: bool, isClipping: bool, clipRatio: real)

  function NewMeter(): Meter { Meter([], -1.0, false, true, 0.0, 0.0, false, false, 0.0) }

  function Entry(s: Settings): real requires Normal(s) { s.entryPercent.value / 100.0 }
  function Exit(s: Settings): real requires Normal(s) { s.exitPercent.value / 100.0 }
  function Trigger(s: Settings): real requires Normal(s) { s.triggerPercent.value / 100.0 }

  // Forget the past; the sample at now is where the next interval starts.
  function Restart(m: Meter, now: real, atLimit: bool, belowExit: bool): Meter {
    m.(history := [], continuousLimit := 0.0, continuousBelow := 0.0,
       lastTick := now, lastAtLimit := atLimit, lastBelowExit := belowExit)
  }

  /** What an unreliable tick, a drop notice and a disconnect leave behind. */
  function Silenced(m: Meter, now: real): Meter {
    Restart(m, now, false, true).(isClipping := false, atLimit := false, clipRatio := 0.0)
  }

  predicate Gap(lastTick: real, now: real, window: int) {
    lastTick < 0.0 || now < lastTick || now - lastTick > MaxReal(250.0, window as real)
  }

  function Grown(total: real, held: bool, delta: real): real {
    if delta > 0.0 then if held then total + delta else 0.0 else total
  }

  // A signal that has just risen counts from now.
  function Risen(total: real, before: bool, now: bool): real { if now && !before then 0.0 else total }

  function Advance(m: Meter, now: real, atLimit: bool, belowExit: bool): Meter {
    var delta := now - m.lastTick;
    m.(history := if delta > 0.0 then m.history + [ClipInterval(m.lastTick, now, m.lastAtLimit)] else m.history,
       continuousLimit := Risen(Grown(m.continuousLimit, m.lastAtLimit, delta), m.lastAtLimit, atLimit),
       continuousBelow := Risen(Grown(m.continuousBelow, m.lastBelowExit, delta), m.lastBelowExit, belowExit),
       lastTick := now, lastAtLimit := atLimit, lastBelowExit := belowExit)
  }

  function Sampled(m: Meter, now: real, s: Settings, level: real): Meter
    requires Normal(s)
  {
    var atLimit, belowExit := level >= Entry(s), level < Exit(s);
    var next :=
      if Gap(m.lastTick, now, s.window) then Restart(m, now, atLimit, belowExit)
      else Advance(m, now, atLimit, belowExit);
    next.(atLimit := atLimit, history := Pruned(next.history, now - s.window as real),
          clipRatio := Ratio(next.history, now, s.window))
  }

  function Judged(m: Meter, s: Settings, belowExit: bool): (Meter, Option<Edge>)
    requires Normal(s)
  {
    if !m.isClipping && (m.continuousLimit >= s.continuousLimit as real || m.clipRatio >= Trigger(s)) then
      (m.(isClipping := true), Some(Started))
    else if m.isClipping && belowExit && m.continuousBelow >= s.exitHold as real then
      (m.(isClipping := false, history := [], clipRatio := 0.0, continuousLimit := 0.0), Some(Ended))
    else (m, None)
  }

  /** One tick, once the command level has been evaluated. */
  function Tick(m: Meter, now: real, s: Settings, level: real, reliable: bool): (Meter, Option<Edge>)
    requires Normal(s)
  {
    if !reliable then (Silenced(m, now), if m.isClipping then Some(Ended) else None)
    else Judged(Sampled(m, now, s, level), s, level < Exit(s))
  }

  // ---------- The log of the held signal ----------

  // What was seen at a tick, held until the next one.
  datatype Sample = Sample(time: real, atLimit: bool, belowExit: bool)

  /**
   The unpruned log of the held samples: atLimit since the last restart or episode end,
   belowExit since the last restart.
   */
  datatype Trace = Trace(atLimit: seq<ClipInterval>, belowExit: seq<ClipInterval>, last: Sample)

  function NewTrace(): Trace { Trace([], [], Sample(-1.0, false, true)) }

  function Longer(log: seq<ClipInterval>, from: real, now: real, held: bool): seq<ClipInterval> {
    if now > from then log + [ClipInterval(from, now, held)] else log
  }

  /**
   A reliable tick extends both logs by the interval over which the last sample was held, unless there was none, time
   went back, or the gap exceeds both 250 milliseconds and the window; then, and on an unreliable tick, the logs start
   anew. The thresholds are in percent.
   */
  function Recorded(t: Trace, now: real, s: Settings, level: real, reliable: bool): Trace
    requires Normal(s)
  {
    if !reliable then Trace([], [], Sample(now, false, true))
    else
      var sample := Sample(now, 100.0 * level >= s.entryPercent.value, 100.0 * level < s.exitPercent.value);
      var last := t.last.time;
      if last < 0.0 || now < last || (now > last + 250.0 && now > last + s.window as real) then Trace([], [], sample)
      else
        Trace(Longer(t.atLimit, last, now, t.last.atLimit), Longer(t.belowExit, last, now, t.last.belowExit), sample)
  }

  function Closed(t: Trace, edge: Option<Edge>, reliable: bool): Trace {
    if reliable && edge == Some(Ended) then t.(atLimit := []) else t
  }

  /** How long the final stretch of the log has been true. */
  function Trailing(log: seq<ClipInterval>): real {
    if log == [] || !log[|log| - 1].clipped then 0.0
    else log[|log| - 1].end - log[|log| - 1].start + Trailing(log[..|log| - 1])
  }

  // One tick: when, under which settings, the combined command level, and whether the estimate can be relied on.
  datatype Moment = Moment(settings: Settings, now: real, level: real, reliable: bool)

  /** The start of a tick's window; intervals that end there or before are pruned. */
  function Cutoff(x: Moment): real { x.now - x.settings.window as real }

  /** What is left of a log once everything up to a horizon is forgotten. */
  function Without(log: seq<ClipInterval>, horizon: Option<real>): seq<ClipInterval> {
    if horizon.None? then log else Pruned(log, horizon.value)
  }

  function Later(horizon: Option<real>, cutoff: real): real {
    if horizon.Some? then MaxReal(horizon.value, cutoff) else cutoff
  }

  /** The horizon after a tick: the latest cutoff since the log was last empty. */
  function Advanced(log: seq<ClipInterval>, horizon: Option<real>, x: Moment): Option<real> {
    if log == [] then None else Some(Later(horizon, Cutoff(x)))
  }

  /** The history is the log without what earlier ticks pruned. */
  predicate Remembered(m: Meter, t: Trace, horizon: Option<real>) {
    && m.history == Without(t.atLimit, horizon) && Chain(t.atLimit, m.lastTick)
    && (horizon.Some? ==> horizon.value < m.lastTick)
  }

  predicate Counted(m: Meter, t: Trace) {
    && t.last == Sample(m.lastTick, m.lastAtLimit, m.lastBelowExit)
    && 0.0 <= m.continuousLimit <= Trailing(t.atLimit)
    && 0.0 <= m.continuousBelow <= Trailing(t.belowExit)
  }

  predicate Tracked(m: Meter, t: Trace, horizon: Option<real>) { Remembered(m, t, horizon) && Counted(m, t) }

  // ---------- Every tick keeps the log and the meter together ----------

  lemma ChainLonger(log: seq<ClipInterval>, last: real, now: real, held: bool)
    requires Chain(log, last) && last <= now
    ensures Chain(Longer(log, last, now, held), now)
  {
  }

  lemma WithoutLonger(log: seq<ClipInterval>, horizon: Option<real>, last: real, now: real, held: bool)
    requires last <= now && (horizon.Some? ==> horizon.value < last)
    ensures Longer(Without(log, horizon), last, now, held) == Without(Longer(log, last, now, held), horizon)
  {
    hide Pruned;
    if horizon.Some? {
      PrunedLonger(log, horizon.value, ClipInterval(last, now, held));
    }
  }

  lemma WithoutMore(log: seq<ClipInterval>, horizon: Option<real>, x: Moment)
    ensures Pruned(Without(log, horizon), Cutoff(x)) == Without(log, Advanced(log, horizon, x))
  {
    hide Pruned, Cutoff;
    if horizon.Some? {
      PrunedTwice(log, horizon.value, Cutoff(x));
      NothingPruned(horizon.value);
    }
    NothingPruned(Cutoff(x));
  }

  lemma CountLonger(total: real, log: seq<ClipInterval>, last: real, now: real, before: bool, after: bool)
    requires 0.0 <= total <= Trailing(log) && last <= now
    ensures 0.0 <= Risen(Grown(total, before, now - last), before, after) <= Trailing(Longer(log, last, now, before))
  {
    if now > last {
      assert (log + [ClipInterval(last, now, before)])[..|log|] == log;
    }
  }

  // What a tick samples before pruning, and the log it belongs to.
  lemma SampleParts(m: Meter, t: Trace, x: Moment)
    requires Normal(x.settings) && t.last == Sample(m.lastTick, m.lastAtLimit, m.lastBelowExit)
    ensures var gap := Gap(m.lastTick, x.now, x.settings.window);
      var history := if gap then [] else Longer(m.history, m.lastTick, x.now, m.lastAtLimit);
      && Sampled(m, x.now, x.settings, x.level).clipRatio == Ratio(history, x.now, x.settings.window)
      && Sampled(m, x.now, x.settings, x.level).history == Pruned(history, Cutoff(x))
      && Recorded(t, x.now, x.settings, x.level, true).atLimit
        == if gap then [] else Longer(t.atLimit, m.lastTick, x.now, m.lastAtLimit)
    ensures !Gap(m.lastTick, x.now, x.settings.window) ==> m.lastTick <= x.now
    ensures Cutoff(x) < x.now
  {
    hide Ratio, Pruned;
  }

  /** What a tick samples is the extended log without what earlier ticks pruned. */
  lemma SampleRemembered(m: Meter, t: Trace, horizon: Option<real>, x: Moment)
    requires Normal(x.settings) && t.last == Sample(m.lastTick, m.lastAtLimit, m.lastBelowExit)
      && Remembered(m, t, horizon)
    ensures var n := Sampled(m, x.now, x.settings, x.level);
      var log := Recorded(t, x.now, x.settings, x.level, true).atLimit;
      && Chain(log, x.now)
      && n.clipRatio == Ratio(Without(log, horizon), x.now, x.settings.window)
      && n.history == Without(log, Advanced(log, horizon, x))
      && (log != [] && horizon.Some? ==> horizon.value < x.now)
  {
    hide Pruned, Chain, Ratio, Sampled, Recorded, Gap, Cutoff, Longer, Normal, Advanced;
    var log := Recorded(t, x.now, x.settings, x.level, true).atLimit;
    SampleParts(m, t, x);
    NothingLogged(x.now);
    if Gap(m.lastTick, x.now, x.settings.window) {
      if horizon.Some? {
        NothingPruned(horizon.value);
      }
    } else {
      ChainLonger(t.atLimit, m.lastTick, x.now, m.lastAtLimit);
      WithoutLonger(t.atLimit, horizon, m.lastTick, x.now, m.lastAtLimit);
    }
    WithoutMore(log, horizon, x);
  }

  lemma NothingLogged(now: real)
    ensures Chain([], now) && Trailing([]) == 0.0
  {
  }

  lemma SampledCounted(m: Meter, t: Trace, now: real, s: Settings, level: real)
    requires Normal(s) && Counted(m, t)
    ensures Counted(Sampled(m, now, s, level), Recorded(t, now, s, level, true))
  {
    hide Trailing, Ratio, Pruned, Longer, Grown, Risen;
    if Gap(m.lastTick, now, s.window) {
      NothingLogged(now);
    } else {
      CountLonger(m.continuousLimit, t.atLimit, m.lastTick, now, m.lastAtLimit, level >= Entry(s));
      CountLonger(m.continuousBelow, t.belowExit, m.lastTick, now, m.lastBelowExit, level < Exit(s));
    }
  }

  /** Every tick, reliable or not, keeps the meter a faithful summary of the log. */
  lemma TickTracked(m: Meter, t: Trace, horizon: Option<real>, x: Moment)
    requires Normal(x.settings) && Tracked(m, t, horizon)
    ensures var (next, edge) := Tick(m, x.now, x.settings, x.level, x.reliable);
      var n := Closed(Recorded(t, x.now, x.settings, x.level, x.reliable), edge, x.reliable);
      Tracked(next, n, Advanced(n.atLimit, horizon, x))
  {
    hide Trailing, Ratio, Pruned, Chain, Sampled, Entry, Exit;
    NothingLogged(x.now);
    if x.reliable {
      SampleRemembered(m, t, horizon, x);
      SampledCounted(m, t, x.now, x.settings, x.level);
      SampleSeen(m, x.now, x.settings, x.level);
    }
  }

  lemma SampleSeen(m: Meter, now: real, s: Settings, level: real)
    requires Normal(s)
    ensures var n := Sampled(m, now, s, level);
      && n.isClipping == m.isClipping && n.lastTick == now && n.atLimit == n.lastAtLimit
      && (n.lastAtLimit <==> 100.0 * level >= s.entryPercent.value)
      && (n.lastBelowExit <==> 100.0 * level < s.exitPercent.value)
      && (100.0 * level < s.exitPercent.value ==> !n.lastAtLimit)
  {
    hide Ratio, Pruned;
  }

  /** What a reliable tick publishes and holds until the next: whether the level has reached entry, or is below exit. */
  lemma TickSees(m: Meter, now: real, s: Settings, level: real)
    requires Normal(s)
    ensures var n := Tick(m, now, s, level, true).0;
      && (n.atLimit <==> 100.0 * level >= s.entryPercent.value)
      && (n.lastAtLimit <==> 100.0 * level >= s.entryPercent.value)
      && (n.lastBelowExit <==> 100.0 * level < s.exitPercent.value)
      && n.lastTick == now
  {
    hide Sampled, Trigger, Exit;
    SampleSeen(m, now, s, level);
  }

  /** An episode that has ended leaves nothing behind that could start the next one, its own last sample included. */
  lemma EndedForgets(m: Meter, now: real, s: Settings, level: real, reliable: bool)
    requires Normal(s) && Tick(m, now, s, level, reliable).1 == Some(Ended)
    ensures var n := Tick(m, now, s, level, reliable).0;
      !n.isClipping && n.history == [] && n.continuousLimit == 0.0 && !n.lastAtLimit && n.clipRatio == 0.0
  {
    hide Sampled;
    if reliable {
      SampleSeen(m, now, s, level);
    }
  }
}
