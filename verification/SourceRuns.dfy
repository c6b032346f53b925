/** One effect of a source over any run of frames and ticks: when it is heard. */
module SourceRuns {
  import opened Bytes
  import opened Protocol
  import opened Effects
  import opened PauseClock
  import opened Settings
  import opened Hysteresis
  import opened Sources
  import opened SourceSafety
  import opened SourceClock

  datatype Event =
    | Arrival(frame: Frame, at: real)
    | Turn(order: seq<EffectKey>, at: real, settings: Settings)

  /** What a frame or a tick leaves of the source. */
  function After(s: Source, e: Event, sine: real -> real): Source
    requires e.Turn? ==> Normal(e.settings)
  {
    match e
    case Arrival(f, at) => Apply(s, f, at)
    case Turn(order, at, settings) => TickSource(s, order, at, settings, sine).0
  }

  /** What it means for the clock of one effect. */
  function OpsAt(s: Source, e: Event, key: EffectKey): seq<Timed>
    requires InTable(s, key)
  {
    match e
    case Arrival(f, at) => Stamped(OpsOf(s, f, key), at)
    case Turn(_, at, _) => [Timed(at, Look)]
  }

  function Stamped(ops: seq<Op>, at: real): (r: seq<Timed>)
    ensures |r| == |ops|
  {
    seq(|ops|, i requires 0 <= i < |ops| => Timed(at, ops[i]))
  }

  /** The effect keeps its place in the table: it is not created anew, not released, and no new loss is told. */
  predicate Keeps(s: Source, e: Event, key: EffectKey) {
    match e
    case Arrival(f, _) => Survives(s, f, key)
    case Turn(_, _, settings) => Normal(settings)
  }

  predicate KeptThroughout(s: Source, events: seq<Event>, key: EffectKey, sine: real -> real)
    decreases events
  {
    events != [] ==> Keeps(s, events[0], key) && KeptThroughout(After(s, events[0], sine), events[1..], key, sine)
  }

  function AfterAll(s: Source, events: seq<Event>, key: EffectKey, sine: real -> real): Source
    requires KeptThroughout(s, events, key, sine)
    decreases events
  {
    if events == [] then s else AfterAll(After(s, events[0], sine), events[1..], key, sine)
  }

  // ---------- The clock follows ----------

  lemma {:induction false} StepsAreRun(c: Clock, now: real, ops: seq<Op>)
    ensures Steps(c, now, ops) == Run(c, Stamped(ops, now))
    decreases ops
  {
    hide Step;
    if ops == [] {
    } else {
      StepsAreRun(Step(c, Timed(now, ops[0])), now, ops[1..]);
      assert Stamped(ops, now)[1..] == Stamped(ops[1..], now);
    }
  }

  lemma EventFollows(s: Source, e: Event, key: EffectKey, sine: real -> real)
    requires SourceInv(s) && InTable(s, key) && Keeps(s, e, key)
    ensures var n := After(s, e, sine);
      SourceInv(n) && InTable(n, key) && ClockAt(n, key) == Run(ClockAt(s, key), OpsAt(s, e, key))
  {
    hide SourceInv, InTable, Survives, Apply, TickSource, OpsOf, Step, ClockAt, Normal, Stamped;
    match e
    case Arrival(f, at) =>
      ApplyKeeps(s, f, at);
      FrameFollows(s, f, key, at);
      StepsAreRun(ClockAt(s, key), at, OpsOf(s, f, key));
    case Turn(order, at, settings) =>
      TickKeeps(s, order, at, settings, sine);
      TickLooks(s, order, key, at, settings, sine);
      assert [Timed(at, Look)][1..] == [];
  }

  /** Everything that happens to the clock of the effect in a run. */
  ghost function OpsOfRun(s: Source, events: seq<Event>, key: EffectKey, sine: real -> real): seq<Timed>
    requires SourceInv(s) && InTable(s, key) && KeptThroughout(s, events, key, sine)
    decreases events
  {
    if events == [] then []
    else
      EventFollows(s, events[0], key, sine);
      OpsAt(s, events[0], key) + OpsOfRun(After(s, events[0], sine), events[1..], key, sine)
  }

  lemma {:induction false} RunConcat(c: Clock, a: seq<Timed>, b: seq<Timed>)
    ensures Run(c, a + b) == Run(Run(c, a), b)
    decreases a
  {
    hide Step;
    if a == [] {
      assert a + b == b;
    } else {
      assert (a + b)[1..] == a[1..] + b;
      RunConcat(Step(c, a[0]), a[1..], b);
    }
  }

  /** Over any run of frames and ticks the clock of an effect makes exactly the steps its events stand for. */
  lemma {:induction false} ClockFollows(s: Source, events: seq<Event>, key: EffectKey, sine: real -> real)
    requires SourceInv(s) && InTable(s, key) && KeptThroughout(s, events, key, sine)
    ensures var n := AfterAll(s, events, key, sine);
      SourceInv(n) && InTable(n, key) && ClockAt(n, key) == Run(ClockAt(s, key), OpsOfRun(s, events, key, sine))
    decreases events
  {
    hide SourceInv, InTable, ClockAt, Apply, TickSource, Survives, Normal, OpsAt;
    if events == [] {
    } else {
      EventFollows(s, events[0], key, sine);
      ClockFollows(After(s, events[0], sine), events[1..], key, sine);
      RunConcat(ClockAt(s, key), OpsAt(s, events[0], key), OpsOfRun(After(s, events[0], sine), events[1..], key, sine));
    }
  }

  // ---------- Time ----------

  /** The events come one after the other between two instants. */
  predicate Timely(from: real, events: seq<Event>, now: real)
    decreases events
  {
    if events == [] then from <= now else from <= events[0].at && Timely(events[0].at, events[1..], now)
  }

  lemma {:induction false} StampedInOrder(from: real, ops: seq<Op>, at: real, rest: seq<Timed>)
    requires from <= at && InOrder(at, rest)
    ensures InOrder(from, Stamped(ops, at) + rest)
    decreases ops
  {
    if ops == [] {
      assert Stamped(ops, at) + rest == rest;
    } else {
      StampedInOrder(at, ops[1..], at, rest);
      assert (Stamped(ops, at) + rest)[1..] == Stamped(ops[1..], at) + rest;
    }
  }

  lemma EventOps(s: Source, e: Event, key: EffectKey)
    requires InTable(s, key)
    ensures OpsAt(s, e, key) == Stamped(if e.Arrival? then OpsOf(s, e.frame, key) else [Look], e.at)
  {
    hide OpsOf;
  }

  lemma {:induction false} TimelyOps(s: Source, events: seq<Event>, key: EffectKey, sine: real -> real, from: real,
      now: real)
    requires SourceInv(s) && InTable(s, key) && KeptThroughout(s, events, key, sine) && Timely(from, events, now)
    ensures var ops := OpsOfRun(s, events, key, sine);
      from <= now && InOrder(from, ops) && forall i | 0 <= i < |ops| :: ops[i].now <= now
    decreases events
  {
    hide SourceInv, InTable, Apply, TickSource, Survives, Normal, OpsAt, Stamped;
    if events == [] {
    } else {
      var e := events[0];
      EventFollows(s, e, key, sine);
      TimelyOps(After(s, e, sine), events[1..], key, sine, e.at, now);
      EventOps(s, e, key);
      var ops, rest := if e.Arrival? then OpsOf(s, e.frame, key)
        else [Look], OpsOfRun(After(s, e, sine), events[1..], key, sine);
      StampedInOrder(from, ops, e.at, rest);
      StampedAt(ops, e.at);
    }
  }

  lemma StampedAt(ops: seq<Op>, at: real)
    ensures forall i | 0 <= i < |ops| :: Stamped(ops, at)[i].now == at
  {
  }

  lemma {:induction false} ReferLast(r: Reference, ops: seq<Timed>, now: real)
    requires r.last <= now && forall i | 0 <= i < |ops| :: ops[i].now <= now
    ensures ReferRun(r, ops).last <= now
    decreases ops
  {
    if ops == [] {
    } else {
      ReferLast(Refer(r, ops[0]), ops[1..], now);
    }
  }

  // ---------- When the effect is heard ----------

  /** The reference for an effect that is not running, as it is when created and when stopped. */
  function Resting(c: Clock, at: real): Reference {
    Reference(at, 0.0, c.paused, false, c.schedule.duration, c.schedule.startDelay, c.schedule.iterations)
  }

  lemma RestingRelated(c: Clock, at: real)
    requires !c.schedule.active && (c.paused ==> c.pausedAt <= at)
    ensures Related(c, Resting(c, at))
  {
    hide Milliseconds, Length;
  }

  lemma HeardParts(s: Source, key: EffectKey, now: real, r: Reference)
    requires SourceInv(s) && InTable(s, key) && Related(ClockAt(s, key), r) && r.last <= now
    ensures Heard(s.effects[key], s.devices, now) <==>
      !r.paused && Playing(Elapse(r, now)) && s.devices[key.deviceId].actuatorsEnabled
  {
    hide Related, IsProducing, Playing, Elapse, SourceInv;
    var c := ClockAt(s, key);
    assert c.paused == r.paused by { PausedTogether(c, r); }
    assert EffectKey(s.effects[key].deviceId, s.effects[key].effectId) == key;
    if !c.paused {
      SeenWhileRunning(c, r, now);
    }
  }

  lemma PausedTogether(c: Clock, r: Reference)
    requires Related(c, r)
    ensures c.paused == r.paused
  {
    hide Finished, Over, Played, RefreshSchedule;
  }

  /**
   An effect at rest, then any frames and ticks in time order that leave it in the table and revive no playback
   already over: a tick hears it exactly when its device is not paused and its actuators are on, it was
   started and not stopped, and its unpaused time since the start lies in its window.
   */
  lemma HeardByItsOwnClock(s: Source, events: seq<Event>, key: EffectKey, sine: real -> real, from: real, now: real)
    requires SourceInv(s) && InTable(s, key) && KeptThroughout(s, events, key, sine)
    requires var c := ClockAt(s, key); !c.schedule.active && (c.paused ==> c.pausedAt <= from)
    requires Timely(from, events, now) && NeverRevives(ClockAt(s, key), OpsOfRun(s, events, key, sine))
    ensures var n := AfterAll(s, events, key, sine);
      var r := ReferRun(Resting(ClockAt(s, key), from), OpsOfRun(s, events, key, sine));
      && InTable(n, key)
      && (Heard(n.effects[key], n.devices, now) <==>
            !r.paused && Playing(Elapse(r, now)) && n.devices[key.deviceId].actuatorsEnabled)
  {
    hide *;
    var c, r := ClockAt(s, key), Resting(ClockAt(s, key), from);
    TimelyOps(s, events, key, sine, from, now);
    RestingRelated(c, from);
    RestingLast(c, from);
    ClockFollows(s, events, key, sine);
    RunAgrees(c, r, OpsOfRun(s, events, key, sine));
    ReferLast(r, OpsOfRun(s, events, key, sine), now);
    HeardParts(AfterAll(s, events, key, sine), key, now, ReferRun(r, OpsOfRun(s, events, key, sine)));
  }

  lemma RestingLast(c: Clock, at: real)
    ensures Resting(c, at).last == at
  {
  }
}
