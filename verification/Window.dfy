/** The clip history: a pruned list of intervals, and what it says about the full log. */
module Window {
  import opened Effects

  datatype ClipInterval = ClipInterval(start: real, end: real, clipped: bool)

  /** Intervals whose end is at or before the cutoff leave from the front. */
  function Pruned(history: seq<ClipInterval>, cutoff: real): seq<ClipInterval> {
    if history == [] || history[0].end > cutoff then history else Pruned(history[1..], cutoff)
  }

  lemma {:induction false} PrunedFacts(history: seq<ClipInterval>, cutoff: real)
    ensures var r := Pruned(history, cutoff);
      && |r| <= |history| && r == history[|history| - |r|..]
      && (forall i | 0 <= i < |history| - |r| :: history[i].end <= cutoff)
  {
    if history == [] || history[0].end > cutoff {
    } else {
      PrunedFacts(history[1..], cutoff);
    }
  }

  lemma NothingPruned(cutoff: real)
    ensures Pruned([], cutoff) == []
  {
  }

  lemma {:induction false} PrunedLonger(history: seq<ClipInterval>, cutoff: real, last: ClipInterval)
    requires last.end > cutoff
    ensures Pruned(history + [last], cutoff) == Pruned(history, cutoff) + [last]
  {
    if history == [] {
      assert history + [last] == [last];
    } else {
      PrunedLonger(history[1..], cutoff, last);
      assert (history + [last])[1..] == history[1..] + [last];
    }
  }

  /** Pruning twice is pruning up to the later cutoff. */
  lemma {:induction false} PrunedTwice(history: seq<ClipInterval>, a: real, b: real)
    ensures Pruned(Pruned(history, a), b) == Pruned(history, MaxReal(a, b))
  {
    if history == [] {
    } else {
      PrunedTwice(history[1..], a, b);
    }
  }

  function Share(i: ClipInterval, cutoff: real): real {
    if i.clipped then MaxReal(0.0, i.end - MaxReal(i.start, cutoff)) else 0.0
  }

  function ClippedTime(history: seq<ClipInterval>, cutoff: real): real {
    if history == [] then 0.0 else Share(history[0], cutoff) + ClippedTime(history[1..], cutoff)
  }

  function Ratio(history: seq<ClipInterval>, now: real, window: int): real
    requires window > 0
  {
    Clamp01(ClippedTime(Pruned(history, now - window as real), now - window as real) / window as real)
  }

  // ---------- The log it stands for ----------

  /** The part of an interval inside [low, high]. */
  function Overlap(i: ClipInterval, low: real, high: real): real {
    MaxReal(0.0, MinReal(i.end, high) - MaxReal(i.start, low))
  }

  /** How long the signal was at its limit within [low, high]. */
  function TimeAtLimit(log: seq<ClipInterval>, low: real, high: real): real {
    if log == [] then 0.0
    else (if log[0].clipped then Overlap(log[0], low, high) else 0.0) + TimeAtLimit(log[1..], low, high)
  }

  /** Contiguous, in order, none empty, the last one ending at a given time. */
  predicate Chain(log: seq<ClipInterval>, end: real) {
    && (forall i | 0 <= i < |log| :: log[i].start < log[i].end)
    && (forall i | 0 <= i < |log| - 1 :: log[i].end == log[i + 1].start)
    && (log != [] ==> log[|log| - 1].end == end)
  }

  lemma {:induction false} TimeSplits(a: seq<ClipInterval>, b: seq<ClipInterval>, low: real, high: real)
    ensures TimeAtLimit(a + b, low, high) == TimeAtLimit(a, low, high) + TimeAtLimit(b, low, high)
  {
    if a == [] {
      assert a + b == b;
    } else {
      TimeSplits(a[1..], b, low, high);
      assert (a + b)[1..] == a[1..] + b;
    }
  }

  lemma {:induction false} NoneInside(log: seq<ClipInterval>, low: real, high: real)
    requires forall i | 0 <= i < |log| :: log[i].end <= low
    ensures TimeAtLimit(log, low, high) == 0.0
  {
    if log == [] {
    } else {
      NoneInside(log[1..], low, high);
    }
  }

  /** Intervals before high have no time after low if and only if no clipped one ends after it. */
  lemma {:induction false} NoneInsideExactly(log: seq<ClipInterval>, low: real, high: real)
    requires low < high && forall i | 0 <= i < |log| :: log[i].start < log[i].end <= high
    ensures TimeAtLimit(log, low, high) >= 0.0
    ensures TimeAtLimit(log, low, high) == 0.0 <==> forall i | 0 <= i < |log| && log[i].clipped :: log[i].end <= low
  {
    if log == [] {
    } else {
      NoneInsideExactly(log[1..], low, high);
      assert forall i | 0 < i < |log| :: log[i] == log[1..][i - 1];
    }
  }

  lemma {:induction false} ClippedIsTime(history: seq<ClipInterval>, cutoff: real, now: real)
    requires forall i | 0 <= i < |history| :: history[i].end <= now
    ensures ClippedTime(history, cutoff) == TimeAtLimit(history, cutoff, now)
  {
    if history == [] {
    } else {
      ClippedIsTime(history[1..], cutoff, now);
    }
  }

  lemma {:induction false} Rising(log: seq<ClipInterval>, end: real, i: nat)
    requires Chain(log, end) && i < |log|
    ensures log[0].end <= log[i].end
    decreases i
  {
    if i == 0 {
    } else {
      Rising(log, end, i - 1);
      assert log[i - 1].end == log[i].start && log[i].start < log[i].end;
    }
  }

  /** Of an ordered log, pruning leaves exactly what ends after the cutoff. */
  lemma {:induction false} PrunedEnds(log: seq<ClipInterval>, cutoff: real, end: real)
    requires Chain(log, end)
    ensures forall i | 0 <= i < |Pruned(log, cutoff)| :: Pruned(log, cutoff)[i].end > cutoff
    decreases log
  {
    if log != [] && log[0].end <= cutoff {
      PrunedEnds(log[1..], cutoff, end);
    } else {
      forall i | 0 <= i < |log|
        ensures log[i].end > cutoff
      {
        Rising(log, end, i);
      }
    }
  }

  lemma {:induction false} EndsBefore(log: seq<ClipInterval>, now: real)
    requires Chain(log, now)
    ensures forall i | 0 <= i < |log| :: log[i].end <= now
    decreases log
  {
    if log == [] {
    } else {
      var front := log[..|log| - 1];
      assert front != [] ==> front[|front| - 1].end == log[|log| - 1].start;
      EndsBefore(front, log[|log| - 1].start);
      forall i | 0 <= i < |log|
        ensures log[i].end <= now
      {
        if i < |front| {
          assert front[i] == log[i];
        }
      }
    }
  }

  // Disjoint intervals in [low, high] cannot add up to more than its length.
  lemma {:induction false} TimeFits(log: seq<ClipInterval>, low: real, high: real, end: real)
    requires Chain(log, end) && low <= high
    ensures 0.0 <= TimeAtLimit(log, low, high)
    ensures log != [] ==> TimeAtLimit(log, low, high) <= MaxReal(0.0, high - MaxReal(low, log[0].start))
    decreases log
  {
    if log == [] {
    } else {
      assert log[1..] != [] ==> log[1..][0].start == log[0].end;
      TimeFits(log[1..], low, high, end);
    }
  }

  /**
   The ratio stands for the time at limit in its history: pruning drops none of it, and the final clamp
   never binds.
   */
  lemma RatioIsTime(history: seq<ClipInterval>, now: real, window: int)
    requires window > 0 && Chain(history, now)
    ensures Ratio(history, now, window) * window as real == TimeAtLimit(history, now - window as real, now)
  {
    hide TimeAtLimit, ClippedTime, Pruned, Chain, Clamp01;
    var low := now - window as real;
    PrunedTime(history, low, now);
    TimeFits(history, low, now, now);
    if history == [] {
      NoneInside(history, low, now);
    }
    Unclamped(ClippedTime(Pruned(history, low), low), window as real);
  }

  /** What is pruned away had no time inside the window. */
  lemma PrunedTime(history: seq<ClipInterval>, low: real, now: real)
    requires Chain(history, now)
    ensures ClippedTime(Pruned(history, low), low) == TimeAtLimit(history, low, now)
  {
    hide TimeAtLimit, ClippedTime, Pruned, Chain;
    EndsBefore(history, now);
    PrunedFacts(history, low);
    var kept := Pruned(history, low);
    var gone := history[..|history| - |kept|];
    assert history == gone + kept;
    TimeSplits(gone, kept, low, now);
    NoneInside(gone, low, now);
    ClippedIsTime(kept, low, now);
  }

  lemma Unclamped(part: real, whole: real)
    requires 0.0 <= part <= whole && whole > 0.0
    ensures Clamp01(part / whole) * whole == part
  {
  }
}
