/**
 The playback clock. The detector never stops a clock: on Continue it moves the schedule
 past the pause. The reference clock here does stop, and the two agree.
 */
module PauseClock {
  import opened Bytes
  import opened Effects

  /** What can happen to one effect and its device; Look is a tick that asks whether it is producing. */
  datatype Op =
    | Start(iterations: u32) | Stop | Pause | Continue | StopAll
    | Update(duration: Option<u32>, startDelay: Option<u32>) | Look

  datatype Timed = Timed(now: real, op: Op)

  // The detector's state: the effect's schedule and the device's pause.
  datatype Clock = Clock(schedule: Schedule, paused: bool, pausedAt: real)

  /** The parameter frame's work on the schedule. */
  function UpdatePlayback(s: Schedule, paused: bool, duration: Option<u32>, startDelay: Option<u32>,
      now: real): Schedule {
    var checked := if s.active && !paused then ExpireIfFinished(s, now) else s;
    var changed := UpdateSchedule(checked, duration, startDelay);
    if changed.active && (duration.Some? || startDelay.Some?) then RefreshSchedule(changed) else changed
  }

  function Step(c: Clock, t: Timed): Clock {
    match t.op
    case Start(iterations) => c.(schedule := Begin(c.schedule, t.now, iterations))
    case Stop => c.(schedule := StopSchedule(c.schedule))
    case Pause => if c.paused then c else c.(paused := true, pausedAt := t.now)
    case Continue =>
      if c.paused then c.(schedule := ResumeAfterPause(c.schedule, c.pausedAt, t.now), paused := false) else c
    case StopAll => c.(schedule := StopSchedule(c.schedule), paused := false)
    case Update(duration, startDelay) =>
      c.(schedule := UpdatePlayback(c.schedule, c.paused, duration, startDelay, t.now))
    case Look => if c.paused then c else c.(schedule := Probe(c.schedule, t.now))
  }

  // ---------- The reference: a clock that stops ----------

  /**
   played is the unpaused time since the Start, at time last. live: started, not stopped, not finished
   at an update.
   */
  datatype Reference = Reference(
    last: real, played: real, paused: bool, live: bool, duration: u32, startDelay: u32, iterations: u32)

  function Elapse(r: Reference, now: real): Reference {
    r.(last := now, played := if r.paused then r.played else r.played + (now - r.last))
  }

  /** The window of a playback is behind it: its last pass is over. Times in the frames are microseconds. */
  predicate Through(played: real, duration: u32, startDelay: u32, iterations: u32) {
    && duration != INFINITE && iterations != INFINITE
    && 1000.0 * played >= startDelay as real + duration as real * iterations as real
  }

  predicate Over(r: Reference) { Through(r.played, r.duration, r.startDelay, r.iterations) }

  predicate Playing(r: Reference) { r.live && 1000.0 * r.played >= r.startDelay as real && !Over(r) }

  function Refer(r: Reference, t: Timed): Reference {
    var e := Elapse(r, t.now);
    match t.op
    case Start(iterations) => e.(live := true, played := 0.0, iterations := if iterations == 0 then 1 else iterations)
    case Stop => e.(live := false)
    case Pause => e.(paused := true)
    case Continue => e.(paused := false)
    case StopAll => e.(live := false, paused := false)
    case Update(duration, startDelay) =>
      e.(live := e.live && !Over(e),
         duration := if duration.Some? then duration.value else e.duration,
         startDelay := if startDelay.Some? then startDelay.value else e.startDelay)
    case Look => e
  }

  // ---------- How the two are related ----------

  function Played(c: Clock, last: real): real {
    (if c.paused then MaxReal(c.pausedAt, c.schedule.requested) else last) - c.schedule.requested
  }

  /** The schedule's own window, in played time, is over. */
  predicate Finished(c: Clock, last: real) {
    Through(Played(c, last), c.schedule.duration, c.schedule.startDelay, c.schedule.iterations)
  }

  predicate Related(c: Clock, r: Reference) {
    var s := c.schedule;
    && c.paused == r.paused && (c.paused ==> c.pausedAt <= r.last)
    && s.duration == r.duration && s.startDelay == r.startDelay && s.iterations == r.iterations
    && (s.active ==> s.requested <= r.last && RefreshSchedule(s) == s)
    && (s.active && !Finished(c, r.last) <==> r.live && !Over(r))
    && (r.live && !Over(r) ==> Played(c, r.last) == r.played)
  }

  /**
   An update during a pause revives a playback that was already over at the pause: its time played has passed
   the end under the old duration and delay, but not the end under the new ones.
   */
  predicate Revives(c: Clock, t: Timed) {
    match t.op
    case Update(duration, startDelay) =>
      var s := c.schedule;
      && c.paused && s.active && Finished(c, t.now)
      && !Through(Played(c, t.now), if duration.Some? then duration.value else s.duration,
                  if startDelay.Some? then startDelay.value else s.startDelay, s.iterations)
    case _ => false
  }

  // ---------- Agreement ----------

  /** The schedule's two instants, in time since its start. */
  lemma ScheduleWindow(s: Schedule, now: real)
    requires RefreshSchedule(s) == s
    ensures Past(s, now) <==> Through(now - s.requested, s.duration, s.startDelay, s.iterations)
    ensures now >= s.activeFrom <==> 1000.0 * (now - s.requested) >= s.startDelay as real
  {
    if s.duration != INFINITE && s.iterations != INFINITE {
      PassesTogether(s.duration as real, s.iterations as real);
    }
  }

  lemma PassesTogether(duration: real, iterations: real)
    ensures 1000.0 * (duration / 1000.0 * iterations) == duration * iterations
  {
  }

  lemma Waits(c: Clock, r: Reference, now: real)
    requires Related(c, r) && r.last <= now
    ensures Related(c, Elapse(r, now))
  {
  }

  lemma UpdateAgrees(c: Clock, r: Reference, t: Timed)
    requires Related(c, r) && t.now == r.last && t.op.Update?
    ensures Related(Step(c, t), Refer(r, t)) <==> !Revives(c, t)
  {
    hide Milliseconds, Length, Through;
    if c.schedule.active {
      ScheduleWindow(c.schedule, t.now);
    }
  }

  lemma ContinueAgrees(c: Clock, r: Reference, t: Timed)
    requires Related(c, r) && t.now == r.last && t.op.Continue?
    ensures Related(Step(c, t), Refer(r, t))
  {
    hide Milliseconds, Length, Through;
  }

  lemma PlainAgrees(c: Clock, r: Reference, t: Timed)
    requires Related(c, r) && t.now == r.last && !t.op.Update? && !t.op.Continue?
    ensures Related(Step(c, t), Refer(r, t))
  {
    hide Milliseconds, Length, Through, ResumeAfterPause, UpdatePlayback;
    if c.schedule.active {
      ScheduleWindow(c.schedule, t.now);
    }
  }

  lemma ElapseTwice(r: Reference, t: Timed)
    ensures Refer(Elapse(r, t.now), t) == Refer(r, t)
  {
  }

  /** One event keeps the detector's clock with the reference exactly when it does not revive a finished playback. */
  lemma StepAgrees(c: Clock, r: Reference, t: Timed)
    requires Related(c, r) && r.last <= t.now
    ensures Related(Step(c, t), Refer(r, t)) <==> !Revives(c, t)
  {
    hide Related, Step, Refer, Finished;
    Waits(c, r, t.now);
    ElapseTwice(r, t);
    if t.op.Update? {
      UpdateAgrees(c, Elapse(r, t.now), t);
    } else if t.op.Continue? {
      ContinueAgrees(c, Elapse(r, t.now), t);
    } else {
      PlainAgrees(c, Elapse(r, t.now), t);
    }
  }

  // ---------- Whole runs ----------

  predicate InOrder(from: real, ops: seq<Timed>)
    decreases ops
  {
    ops != [] ==> from <= ops[0].now && InOrder(ops[0].now, ops[1..])
  }

  function Run(c: Clock, ops: seq<Timed>): Clock
    decreases ops
  {
    if ops == [] then c else Run(Step(c, ops[0]), ops[1..])
  }

  function ReferRun(r: Reference, ops: seq<Timed>): Reference
    decreases ops
  {
    if ops == [] then r else ReferRun(Refer(r, ops[0]), ops[1..])
  }

  predicate NeverRevives(c: Clock, ops: seq<Timed>)
    decreases ops
  {
    ops != [] ==> !Revives(c, ops[0]) && NeverRevives(Step(c, ops[0]), ops[1..])
  }

  lemma {:induction false} RunAgrees(c: Clock, r: Reference, ops: seq<Timed>)
    requires Related(c, r) && InOrder(r.last, ops) && NeverRevives(c, ops)
    ensures Related(Run(c, ops), ReferRun(r, ops))
    decreases ops
  {
    hide Related, Step, Revives;
    if ops == [] {
    } else {
      StepAgrees(c, r, ops[0]);
      RunAgrees(Step(c, ops[0]), Refer(r, ops[0]), ops[1..]);
    }
  }

  function NewClock(duration: u32, startDelay: u32): Clock {
    Clock(UpdateSchedule(NewSchedule(), Some(duration), Some(startDelay)), false, 0.0)
  }

  function NewReference(duration: u32, startDelay: u32, at: real): Reference {
    Reference(at, 0.0, false, false, duration, startDelay, 1)
  }

  lemma SeenWhileRunning(c: Clock, r: Reference, now: real)
    requires Related(c, r) && r.last <= now && !c.paused
    ensures IsProducing(c.schedule, now) <==> Playing(Elapse(r, now))
  {
    hide Milliseconds, Length, Through;
    Waits(c, r, now);
    if c.schedule.active {
      ScheduleWindow(c.schedule, now);
    }
  }

  /**
   After any starts, stops, pauses, continues and updates in time order, at any unpaused
   instant the effect counts as producing exactly when its unpaused time since Start lies in
   [delay, delay + duration * iterations) and no earlier update found it finished.
   */
  lemma PlaysByItsOwnClock(duration: u32, startDelay: u32, ops: seq<Timed>, from: real, now: real)
    requires InOrder(from, ops) && NeverRevives(NewClock(duration, startDelay), ops)
    requires ReferRun(NewReference(duration, startDelay, from), ops).last <= now
    requires !Run(NewClock(duration, startDelay), ops).paused
    ensures IsProducing(Run(NewClock(duration, startDelay), ops).schedule, now)
      <==> Playing(Elapse(ReferRun(NewReference(duration, startDelay, from), ops), now))
  {
    var c, r := NewClock(duration, startDelay), NewReference(duration, startDelay, from);
    assert Related(c, r);
    RunAgrees(c, r, ops);
    SeenWhileRunning(Run(c, ops), ReferRun(r, ops), now);
  }

  /** A playback already over at the pause is over at the continue, however long the pause. */
  lemma OverStaysOver(s: Schedule, pausedAt: real, now: real)
    requires s.requested <= pausedAt <= now && Past(s, pausedAt)
    ensures Past(ResumeAfterPause(s, pausedAt, now), now)
  {
  }

  lemma RunCons(c: Clock, r: Reference, t: Timed, rest: seq<Timed>)
    ensures Run(c, [t] + rest) == Run(Step(c, t), rest)
    ensures ReferRun(r, [t] + rest) == ReferRun(Refer(r, t), rest)
    ensures InOrder(t.now, rest) ==> forall from | from <= t.now :: InOrder(from, [t] + rest)
  {
    hide Step, Refer;
    assert ([t] + rest)[1..] == rest;
  }

  lemma Unrolled(c: Clock, r: Reference, a: Timed, b: Timed, d: Timed, e: Timed)
    ensures Run(c, [a, b, d, e]) == Step(Step(Step(Step(c, a), b), d), e)
    ensures ReferRun(r, [a, b, d, e]) == Refer(Refer(Refer(Refer(r, a), b), d), e)
    ensures a.now <= b.now <= d.now <= e.now ==> InOrder(a.now, [a, b, d, e])
  {
    hide Step, Refer;
    var c1, r1 := Step(c, a), Refer(r, a);
    var c2, r2 := Step(c1, b), Refer(r1, b);
    RunCons(c, r, a, [b, d, e]);
    RunCons(c1, r1, b, [d, e]);
    RunCons(c2, r2, d, [e]);
    RunCons(Step(c2, d), Refer(r2, d), e, []);
    assert [a, b, d, e] == [a] + [b, d, e] && [b, d, e] == [b] + [d, e] && [d, e] == [d] + [e] && [e] == [e] + [];
  }

  /**
   Any effect that is over before its device is paused plays again after the pause when a
   parameter frame makes its duration infinite meanwhile.
   */
  lemma UpdateCanRevive(duration: u32, start: real, pause: real, update: real, resume: real, now: real)
    requires duration != INFINITE && start + Milliseconds(duration) <= pause <= update <= resume <= now
    ensures var c, ops := NewClock(duration, 0), [Timed(start, Start(1)), Timed(pause, Pause),
        Timed(update, Update(Some(INFINITE), None)), Timed(resume, Continue)];
      && InOrder(start, ops) && !Run(c, ops).paused
      && IsProducing(Run(c, ops).schedule, now)
      && !Playing(Elapse(ReferRun(NewReference(duration, 0, start), ops), now))
  {
    hide Run, ReferRun, InOrder;
    var c, r := NewClock(duration, 0), NewReference(duration, 0, start);
    var t1, t2 := Timed(start, Start(1)), Timed(pause, Pause);
    var t3, t4 := Timed(update, Update(Some(INFINITE), None)), Timed(resume, Continue);
    Unrolled(c, r, t1, t2, t3, t4);
    OnceOnly(duration);
    StartedAt(c, t1);
    var c3 := Step(Step(Step(c, t1), t2), t3);
    assert c3.paused && c3.schedule.active && c3.schedule.activeUntil == Forever;
    assert !Refer(Refer(Refer(r, t1), t2), t3).live;
  }

  lemma OnceOnly(duration: u32)
    requires duration != INFINITE
    ensures forall played :: Through(played, duration, 0, 1) <==> played >= Milliseconds(duration)
  {
  }

  lemma StartedAt(c: Clock, t: Timed)
    requires t.op == Start(1)
    ensures var s := Step(c, t).schedule; s.active && s.iterations == 1 && s.requested == t.now
  {
  }
}
