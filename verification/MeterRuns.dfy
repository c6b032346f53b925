/** One source's meter over any ticks, with the settings changing between them as they like. */
module MeterRuns {
  import opened Bytes
  import opened Effects
  import opened Settings
  import opened Window
  import opened Hysteresis

  predicate AllNormal(run: seq<Moment>) { forall i | 0 <= i < |run| :: Normal(run[i].settings) }

  function Front(run: seq<Moment>): (r: seq<Moment>)
    requires run != [] && AllNormal(run)
    ensures AllNormal(r) && |r| == |run| - 1
  {
    run[..|run| - 1]
  }

  function Last(run: seq<Moment>): (r: Moment)
    requires run != [] && AllNormal(run)
    ensures Normal(r.settings)
  {
    run[|run| - 1]
  }

  function MeterAt(run: seq<Moment>): Meter
    requires AllNormal(run)
    decreases |run|
  {
    if run == [] then NewMeter()
    else var x := Last(run); Tick(MeterAt(Front(run)), x.now, x.settings, x.level, x.reliable).0
  }

  function EdgeAt(run: seq<Moment>): Option<Edge>
    requires run != [] && AllNormal(run)
  {
    var x := Last(run); Tick(MeterAt(Front(run)), x.now, x.settings, x.level, x.reliable).1
  }

  /** The log up to and including the last tick, before that tick's own decision. */
  function LogAt(run: seq<Moment>): Trace
    requires run != [] && AllNormal(run)
    decreases |run|, 0
  {
    var x := Last(run); Recorded(TraceAt(Front(run)), x.now, x.settings, x.level, x.reliable)
  }

  function TraceAt(run: seq<Moment>): Trace
    requires AllNormal(run)
    decreases |run|, 1
  {
    if run == [] then NewTrace() else Closed(LogAt(run), EdgeAt(run), Last(run).reliable)
  }

  /** The latest cutoff of all ticks since the log was last empty. */
  function Horizon(run: seq<Moment>): Option<real>
    requires AllNormal(run)
    decreases |run|
  {
    if run == [] then None else Advanced(TraceAt(run).atLimit, Horizon(Front(run)), Last(run))
  }

  lemma {:induction false} RunTracked(run: seq<Moment>)
    requires AllNormal(run)
    ensures Tracked(MeterAt(run), TraceAt(run), Horizon(run))
    decreases |run|
  {
    hide Tick, Recorded, Closed, Advanced;
    if run == [] {
      NothingLogged(-1.0);
    } else {
      RunTracked(Front(run));
      TickTracked(MeterAt(Front(run)), TraceAt(Front(run)), Horizon(Front(run)), Last(run));
    }
  }

  // ---------- When the published ratio is the truth ----------

  /** How long a log was at its limit within the window of a tick. */
  function AtLimit(log: seq<ClipInterval>, x: Moment): real { TimeAtLimit(log, Cutoff(x), x.now) }

  /** The time that a ratio of a window stands for. */
  function Span(ratio: real, window: int): real { ratio * window as real }

  lemma SpanOfRatio(history: seq<ClipInterval>, x: Moment)
    requires Normal(x.settings) && Chain(history, x.now)
    ensures Span(Ratio(history, x.now, x.settings.window), x.settings.window) == AtLimit(history, x)
  {
    hide TimeAtLimit, Ratio, Chain;
    RatioIsTime(history, x.now, x.settings.window);
  }

  lemma {:induction false} ChainWithout(log: seq<ClipInterval>, horizon: Option<real>, end: real)
    requires Chain(log, end)
    ensures Chain(Without(log, horizon), end)
    decreases log
  {
    if horizon.None? || log == [] || log[0].end > horizon.value {
    } else {
      ChainWithout(log[1..], horizon, end);
    }
  }

  /** The time the sampled ratio stands for is the time at limit in the log, less what earlier ticks pruned. */
  lemma SampledShare(m: Meter, t: Trace, horizon: Option<real>, x: Moment)
    requires Normal(x.settings) && Tracked(m, t, horizon)
    ensures var log := Recorded(t, x.now, x.settings, x.level, true).atLimit;
      && Chain(log, x.now)
      && Span(Sampled(m, x.now, x.settings, x.level).clipRatio, x.settings.window) == AtLimit(Without(log, horizon), x)
  {
    hide Chain, Ratio, Sampled, Recorded, Without, AtLimit, Span, Normal;
    SampleRemembered(m, t, horizon, x);
    var log := Recorded(t, x.now, x.settings, x.level, true).atLimit;
    ChainWithout(log, horizon, x.now);
    SpanOfRatio(Without(log, horizon), x);
  }

  /** No clipped interval that ends inside the window of a tick ended at or before an earlier cutoff. */
  predicate Intact(log: seq<ClipInterval>, horizon: Option<real>, x: Moment) {
    horizon.Some? ==> forall i | 0 <= i < |log| && log[i].clipped && Cutoff(x) < log[i].end ::
      horizon.value < log[i].end
  }

  lemma WithoutExact(log: seq<ClipInterval>, horizon: Option<real>, x: Moment)
    requires Normal(x.settings) && Chain(log, x.now)
    ensures AtLimit(Without(log, horizon), x) <= AtLimit(log, x)
    ensures AtLimit(Without(log, horizon), x) == AtLimit(log, x) <==> Intact(log, horizon, x)
  {
    hide TimeAtLimit, Pruned;
    if horizon.Some? {
      var kept := Pruned(log, horizon.value);
      PrunedFacts(log, horizon.value);
      PrunedEnds(log, horizon.value, x.now);
      EndsBefore(log, x.now);
      var gone := log[..|log| - |kept|];
      assert log == gone + kept;
      TimeSplits(gone, kept, Cutoff(x), x.now);
      NoneInsideExactly(gone, Cutoff(x), x.now);
      assert forall i | |gone| <= i < |log| :: log[i] == kept[i - |gone|];
      assert forall i | 0 <= i < |gone| :: gone[i] == log[i];
    }
  }

  /**
   After any reliable tick that ends no episode, the published ratio never exceeds the share of the
   window for which the log was at its limit, and it is that share if and only if no clipped interval
   of the log that ends inside the window ended at or before an earlier tick's cutoff.
   */
  lemma ExactWhenNothingForgotten(run: seq<Moment>)
    requires AllNormal(run) && run != [] && Last(run).reliable && EdgeAt(run) != Some(Ended)
    ensures var (log, x) := (LogAt(run).atLimit, Last(run));
      && Span(MeterAt(run).clipRatio, x.settings.window) <= AtLimit(log, x)
      && (Span(MeterAt(run).clipRatio, x.settings.window) == AtLimit(log, x) <==> Intact(log, Horizon(Front(run)), x))
  {
    hide *;
    RunTracked(Front(run));
    LastTick(run);
    SampledShare(MeterAt(Front(run)), TraceAt(Front(run)), Horizon(Front(run)), Last(run));
    WithoutExact(LogAt(run).atLimit, Horizon(Front(run)), Last(run));
  }

  lemma LastTick(run: seq<Moment>)
    requires AllNormal(run) && run != [] && Last(run).reliable
    ensures var (m, t, x) := (MeterAt(Front(run)), TraceAt(Front(run)), Last(run));
      && LogAt(run) == Recorded(t, x.now, x.settings, x.level, true)
      && EdgeAt(run) == Tick(m, x.now, x.settings, x.level, true).1
      && (EdgeAt(run) != Some(Ended) ==> MeterAt(run).clipRatio == Sampled(m, x.now, x.settings, x.level).clipRatio)
  {
    hide Recorded, Sampled, Trigger, Exit;
  }

  // ---------- A window that does not grow ----------

  function Narrower(narrowest: Option<int>, window: int): int {
    if narrowest.Some? then Min(narrowest.value, window) else window
  }

  /** The smallest window in force since the log was last empty. */
  function Narrowest(run: seq<Moment>): Option<int>
    requires AllNormal(run)
    decreases |run|
  {
    if run == [] || TraceAt(run).atLimit == [] then None
    else Some(Narrower(Narrowest(Front(run)), Last(run).settings.window))
  }

  // A tick with a log is no restart.
  lemma RecordedLater(t: Trace, x: Moment)
    requires Normal(x.settings) && Recorded(t, x.now, x.settings, x.level, x.reliable).atLimit != []
    ensures x.reliable && t.last.time <= x.now
  {
    hide Entry, Exit;
  }

  lemma TickTime(m: Meter, x: Moment)
    requires Normal(x.settings)
    ensures Tick(m, x.now, x.settings, x.level, x.reliable).0.lastTick == x.now
  {
    hide Ratio, Pruned, Entry, Exit, Trigger;
  }

  lemma LaterTick(run: seq<Moment>)
    requires AllNormal(run) && run != [] && LogAt(run).atLimit != []
    ensures Last(run).reliable && MeterAt(Front(run)).lastTick <= Last(run).now == MeterAt(run).lastTick
  {
    hide Tick, Recorded, Remembered, Trailing, Horizon, TraceAt;
    RunTracked(Front(run));
    RecordedLater(TraceAt(Front(run)), Last(run));
    TickTime(MeterAt(Front(run)), Last(run));
  }

  /** No cutoff since then lies later than the narrowest window before the last tick. */
  lemma {:induction false} HorizonIsNarrow(run: seq<Moment>)
    requires AllNormal(run)
    ensures Horizon(run).Some? <==> Narrowest(run).Some?
    ensures Horizon(run).Some? ==> Horizon(run).value <= MeterAt(run).lastTick - Narrowest(run).value as real
    decreases |run|
  {
    hide LogAt, MeterAt, EdgeAt;
    if run == [] || TraceAt(run).atLimit == [] {
    } else {
      HorizonIsNarrow(Front(run));
      LaterTick(run);
    }
  }

  /** While the window setting is no larger than it has been since the last clear, the ratio is exact. */
  lemma ExactUntilWindowGrows(run: seq<Moment>)
    requires AllNormal(run) && run != [] && Last(run).reliable && EdgeAt(run) != Some(Ended)
    requires var narrowest := Narrowest(Front(run)); narrowest.Some? ==> Last(run).settings.window <= narrowest.value
    ensures Span(MeterAt(run).clipRatio, Last(run).settings.window) == AtLimit(LogAt(run).atLimit, Last(run))
  {
    hide *;
    ExactWhenNothingForgotten(run);
    NarrowIsIntact(run);
  }

  lemma NarrowIsIntact(run: seq<Moment>)
    requires AllNormal(run) && run != [] && Last(run).reliable
    requires var narrowest := Narrowest(Front(run)); narrowest.Some? ==> Last(run).settings.window <= narrowest.value
    ensures Intact(LogAt(run).atLimit, Horizon(Front(run)), Last(run))
  {
    hide Horizon, Narrowest, MeterAt, TraceAt, LogAt, EdgeAt, Recorded;
    HorizonIsNarrow(Front(run));
    if LogAt(run).atLimit != [] {
      LaterTick(run);
    }
  }

  // ---------- When clipping starts and ends ----------

  /** The log was at its limit for the trigger share of the window. */
  predicate Reached(log: seq<ClipInterval>, x: Moment)
    requires Normal(x.settings)
  {
    100.0 * AtLimit(log, x) >= Span(x.settings.triggerPercent.value, x.settings.window)
  }

  lemma MoreSpan(a: real, b: real, window: int)
    requires window > 0
    ensures a >= b <==> Span(a, window) >= Span(b, window)
  {
    assert Span(a, window) - Span(b, window) == (a - b) * window as real;
    if a < b {
      assert (b - a) * window as real > 0.0;
    } else {
      assert (a - b) * window as real >= 0.0;
    }
  }

  // A share of the window, in percent.
  lemma MoreShare(ratio: real, percent: real, window: int)
    requires window > 0
    ensures ratio >= percent / 100.0 <==> 100.0 * Span(ratio, window) >= Span(percent, window)
  {
    MoreSpan(100.0 * ratio, percent, window);
  }

  lemma TickSound(m: Meter, t: Trace, horizon: Option<real>, x: Moment)
    requires Normal(x.settings) && Tracked(m, t, horizon)
    ensures var (edge, u) := (Tick(m, x.now, x.settings, x.level, true).1, Recorded(t, x.now, x.settings, x.level, true));
      && (edge == Some(Started) ==>
            !m.isClipping && (Trailing(u.atLimit) >= x.settings.continuousLimit as real
              || Reached(Without(u.atLimit, horizon), x)))
      && (!m.isClipping && Reached(Without(u.atLimit, horizon), x) ==> edge == Some(Started))
      && (edge == Some(Ended) ==>
            && m.isClipping && 100.0 * x.level < x.settings.exitPercent.value
            && Trailing(u.belowExit) >= x.settings.exitHold as real)
  {
    hide Trailing, Sampled, AtLimit, Recorded, Span, Without, Remembered;
    SampledCounted(m, t, x.now, x.settings, x.level);
    SampledShare(m, t, horizon, x);
    SampleSeen(m, x.now, x.settings, x.level);
    MoreShare(Sampled(m, x.now, x.settings, x.level).clipRatio, x.settings.triggerPercent.value, x.settings.window);
  }

  /**
   After any ticks, under any settings: clipping starts only when the held signal has been at its limit
   for the continuous limit, or for the trigger share of the window, since the last episode or
   restart; it always starts on the share when no earlier tick has pruned any of it; and it
   ends on a reliable tick only after the level was held below the exit threshold for the exit hold.
   */
  lemma EdgesAreJustified(run: seq<Moment>)
    requires AllNormal(run) && run != [] && Last(run).reliable
    ensures var (edge, log, x) := (EdgeAt(run), LogAt(run), Last(run));
      var wasClipping := MeterAt(Front(run)).isClipping;
      && (edge == Some(Started) ==>
            !wasClipping && (Trailing(log.atLimit) >= x.settings.continuousLimit as real || Reached(log.atLimit, x)))
      && (!wasClipping && Reached(log.atLimit, x) && Intact(log.atLimit, Horizon(Front(run)), x) ==>
           edge == Some(Started))
      && (edge == Some(Ended) ==>
            && wasClipping && 100.0 * x.level < x.settings.exitPercent.value
            && Trailing(log.belowExit) >= x.settings.exitHold as real)
  {
    hide *;
    var (m, t, horizon, x) := (MeterAt(Front(run)), TraceAt(Front(run)), Horizon(Front(run)), Last(run));
    RunTracked(Front(run));
    LastTick(run);
    TickSound(m, t, horizon, x);
    SampledShare(m, t, horizon, x);
    WithoutExact(LogAt(run).atLimit, horizon, x);
    ReachedMore(Without(LogAt(run).atLimit, horizon), LogAt(run).atLimit, x);
  }

  lemma ReachedMore(a: seq<ClipInterval>, b: seq<ClipInterval>, x: Moment)
    requires Normal(x.settings) && AtLimit(a, x) <= AtLimit(b, x)
    ensures Reached(a, x) ==> Reached(b, x)
    ensures AtLimit(a, x) == AtLimit(b, x) && Reached(b, x) ==> Reached(a, x)
  {
    hide AtLimit, Span, Trigger;
  }

  // ---------- When the counters are exact ----------

  /** No two ticks in a row carry the same time. */
  predicate Apart(run: seq<Moment>) { forall i | 0 < i < |run| :: run[i - 1].now != run[i].now }

  /** The counters are what they stand for. */
  predicate Exactly(m: Meter, t: Trace) {
    m.continuousLimit == Trailing(t.atLimit) && m.continuousBelow == Trailing(t.belowExit)
  }

  lemma CountExactly(total: real, log: seq<ClipInterval>, last: real, now: real, before: bool, after: bool)
    requires total == Trailing(log) && last < now
    ensures Risen(Grown(total, before, now - last), before, after) == Trailing(Longer(log, last, now, before))
  {
    assert (log + [ClipInterval(last, now, before)])[..|log|] == log;
  }

  lemma SampledExactly(m: Meter, t: Trace, x: Moment)
    requires Normal(x.settings) && t.last == Sample(m.lastTick, m.lastAtLimit, m.lastBelowExit) && Exactly(m, t)
    requires m.lastTick < 0.0 || m.lastTick != x.now
    ensures Exactly(Sampled(m, x.now, x.settings, x.level), Recorded(t, x.now, x.settings, x.level, true))
  {
    hide Trailing, Ratio, Pruned, Longer, Grown, Risen;
    if Gap(m.lastTick, x.now, x.settings.window) {
      NothingLogged(x.now);
    } else {
      CountExactly(m.continuousLimit, t.atLimit, m.lastTick, x.now, m.lastAtLimit,
        100.0 * x.level >= x.settings.entryPercent.value);
      CountExactly(m.continuousBelow, t.belowExit, m.lastTick, x.now, m.lastBelowExit,
        100.0 * x.level < x.settings.exitPercent.value);
    }
  }

  /**
   A second tick of the same time that is at the limit after one that was not: the counter restarts,
   the log stays.
   */
  lemma DipResets(m: Meter, t: Trace, x: Moment)
    requires Normal(x.settings) && t.last == Sample(m.lastTick, m.lastAtLimit, m.lastBelowExit)
    requires 0.0 <= m.lastTick == x.now && !m.lastAtLimit && 100.0 * x.level >= x.settings.entryPercent.value
    ensures Sampled(m, x.now, x.settings, x.level).continuousLimit == 0.0
    ensures Recorded(t, x.now, x.settings, x.level, true).atLimit == t.atLimit
  {
    hide Ratio, Pruned;
  }

  lemma TickExactly(m: Meter, t: Trace, x: Moment)
    requires Normal(x.settings) && t.last == Sample(m.lastTick, m.lastAtLimit, m.lastBelowExit) && Exactly(m, t)
    requires m.lastTick < 0.0 || m.lastTick != x.now
    ensures var (next, edge) := Tick(m, x.now, x.settings, x.level, x.reliable);
      Exactly(next, Closed(Recorded(t, x.now, x.settings, x.level, x.reliable), edge, x.reliable))
  {
    hide Trailing, Sampled, Entry, Exit, Trigger;
    NothingLogged(x.now);
    if x.reliable {
      SampledExactly(m, t, x);
    }
  }

  lemma LastSeen(run: seq<Moment>)
    requires AllNormal(run)
    ensures TraceAt(run).last == Sample(MeterAt(run).lastTick, MeterAt(run).lastAtLimit, MeterAt(run).lastBelowExit)
    ensures MeterAt(run).lastTick == if run == [] then -1.0 else Last(run).now
  {
    hide Tick, Recorded, Closed, Remembered, Trailing, Horizon;
    RunTracked(run);
    if run != [] {
      TickTime(MeterAt(Front(run)), Last(run));
    }
  }

  lemma {:induction false} RunExactly(run: seq<Moment>)
    requires AllNormal(run) && Apart(run)
    ensures Exactly(MeterAt(run), TraceAt(run))
    decreases |run|
  {
    hide Tick, Recorded, Closed, Exactly;
    if run == [] {
      NoneExactly();
    } else {
      RunExactly(Front(run));
      LastSeen(Front(run));
      TickExactly(MeterAt(Front(run)), TraceAt(Front(run)), Last(run));
    }
  }

  lemma NoneExactly()
    ensures Exactly(NewMeter(), NewTrace())
  {
  }

  /** What must hold of a log at a tick for clipping to start, and to end. */
  predicate Starts(log: Trace, horizon: Option<real>, x: Moment)
    requires Normal(x.settings)
  {
    Trailing(log.atLimit) >= x.settings.continuousLimit as real || Reached(Without(log.atLimit, horizon), x)
  }

  predicate Ends(log: Trace, x: Moment)
    requires Normal(x.settings)
  {
    100.0 * x.level < x.settings.exitPercent.value && Trailing(log.belowExit) >= x.settings.exitHold as real
  }

  lemma TickDecides(m: Meter, t: Trace, horizon: Option<real>, x: Moment)
    requires Normal(x.settings) && Tracked(m, t, horizon) && Exactly(m, t)
    requires m.lastTick < 0.0 || m.lastTick != x.now
    ensures var (edge, u) := (Tick(m, x.now, x.settings, x.level, true).1, Recorded(t, x.now, x.settings, x.level, true));
      && (edge == Some(Started) <==> !m.isClipping && Starts(u, horizon, x))
      && (edge == Some(Ended) <==> m.isClipping && Ends(u, x))
  {
    hide Trailing, Sampled, AtLimit, Recorded, Span, Without, Remembered;
    SampledExactly(m, t, x);
    SampledShare(m, t, horizon, x);
    SampleSeen(m, x.now, x.settings, x.level);
    MoreShare(Sampled(m, x.now, x.settings, x.level).clipRatio, x.settings.triggerPercent.value, x.settings.window);
  }

  /**
   When no two ticks in a row carry the same time, a reliable tick starts an episode if and only if by then the
   log holds the continuous limit on end, or the trigger share in what earlier ticks left of it; and it
   ends one if and only if the level has been below the exit threshold for the exit hold.
   */
  lemma EdgesAreExact(run: seq<Moment>)
    requires AllNormal(run) && run != [] && Last(run).reliable && Apart(run)
    ensures var (edge, log, x) := (EdgeAt(run), LogAt(run), Last(run));
      var wasClipping := MeterAt(Front(run)).isClipping;
      && (edge == Some(Started) <==> !wasClipping && Starts(log, Horizon(Front(run)), x))
      && (edge == Some(Ended) <==> wasClipping && Ends(log, x))
  {
    hide Tracked, Exactly, Tick, Recorded, Starts, Ends, Horizon, TraceAt, MeterAt;
    var front := Front(run);
    RunTracked(front);
    RunExactly(front);
    LastSeen(front);
    LastTick(run);
    TickDecides(MeterAt(front), TraceAt(front), Horizon(front), Last(run));
  }
}
