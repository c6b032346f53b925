/** A run in which a drop notice reports one event less than the drop counter holds. */
module NoticeRace {
  import opened Bytes
  import opened Sinks
  import opened SinkSafety
  import SinkSteps
  import opened Telemetry
  import opened TelemetryTheorems

  ghost predicate Reaches<T(!new)>(s: System<T>, t: System<T>) {
    SystemInv(s) && exists actions :: Run(s, actions) == t
  }

  lemma {:induction false} RunConcat<T>(s: System<T>, a: seq<Action<T>>, b: seq<Action<T>>)
    requires SystemInv(s)
    ensures Run(s, a + b) == Run(Run(s, a), b)
  {
    hide SystemInv, Step, Enabled;
    if b == [] {
      assert a + b == a;
    } else {
      RunConcat(s, a, b[..|b| - 1]);
      assert (a + b)[..|a + b| - 1] == a + b[..|b| - 1];
    }
  }

  lemma ReachesStep<T(!new)>(s: System<T>, a: Action<T>) returns (t: System<T>)
    requires SystemInv(s) && Enabled(s, a)
    ensures t == Step(s, a) && SystemInv(t) && Reaches(s, t)
  {
    hide SinkOk, Step, Enabled;
    StepKeeps(s, a);
    t := Step(s, a);
    assert [a][..0] == [];
    assert Run(s, [a]) == t;
  }

  lemma ReachesTrans<T(!new)>(s: System<T>, t: System<T>, u: System<T>)
    requires Reaches(s, t) && Reaches(t, u)
    ensures Reaches(s, u)
  {
    hide SystemInv, Run;
    var a :| Run(s, a) == t;
    var b :| Run(t, b) == u;
    RunConcat(s, a, b);
  }

  // The second sink never starts, so the producer only serves the first.
  ghost predicate Solo<T>(s: System<T>) { SystemInv(s) && s.sinks[0].running && !s.sinks[1].running }

  ghost predicate SameQueue<T>(k: Sink<T>, n: Sink<T>) {
    n.worker == k.worker && n.dropped == k.dropped && n.log.connections == k.log.connections
  }

  lemma EmitOne<T(!new)>(s: System<T>, body: T) returns (t: System<T>)
    requires Solo(s) && s.emitter.Idle? && s.sinks[0].free != [] && s.sequence < MAX_SEQUENCE
    ensures Reaches(s, t) && Solo(t) && t.emitter.Idle? && t.sequence == s.sequence + 1
    ensures SameQueue(s.sinks[0], t.sinks[0]) && t.sinks[0].free == s.sinks[0].free[1..]
  {
    hide SinkOk, Shape, Run;
    var s1 := ReachesStep(s, Begin(body));
    var s2 := ReachesStep(s1, Advance);
    var s3 := ReachesStep(s2, Advance);
    var s4 := ReachesStep(s3, Advance);
    t := ReachesStep(s4, Advance);
    ReachesTrans(s, s1, s2);
    ReachesTrans(s, s2, s3);
    ReachesTrans(s, s3, s4);
    ReachesTrans(s, s4, t);
  }

  lemma {:induction false} Fill<T(!new)>(s: System<T>, body: T) returns (t: System<T>)
    requires Solo(s) && s.emitter.Idle? && s.sequence + |s.sinks[0].free| < MAX_SEQUENCE
    ensures Reaches(s, t) && Solo(t) && t.emitter.Idle? && t.sequence == s.sequence + |s.sinks[0].free|
    ensures SameQueue(s.sinks[0], t.sinks[0]) && t.sinks[0].free == []
    decreases |s.sinks[0].free|
  {
    assert |s.sinks| == 2;
    hide SystemInv, Run;
    if s.sinks[0].free == [] {
      t := s;
      assert Run(s, []) == s by { RunNothing(s); }
    } else {
      var next := EmitOne(s, body);
      t := Fill(next, body);
      ReachesTrans(s, next, t);
    }
  }

  lemma RunNothing<T>(s: System<T>)
    requires SystemInv(s)
    ensures Run(s, []) == s
  {
  }

  // A producer that finds no free node, up to its increment of the counter.
  lemma Refuse<T(!new)>(s: System<T>, body: T) returns (t: System<T>)
    requires Solo(s) && s.emitter.Idle? && s.sinks[0].free == [] && s.sequence < MAX_SEQUENCE
    ensures Reaches(s, t) && Solo(t) && t.emitter.Emitting? && t.emitter.target == 0 && t.emitter.grip.Refused?
    ensures SameQueue(s.sinks[0], t.sinks[0]) && t.sequence == s.sequence + 1
    ensures t.sinks[0].free == [] && t.sinks[0].pending == s.sinks[0].pending
  {
    hide SinkOk, Shape, Run;
    var s1 := ReachesStep(s, Begin(body));
    t := ReachesStep(s1, Advance);
    ReachesTrans(s, s1, t);
  }

  lemma Increment<T(!new)>(s: System<T>) returns (t: System<T>)
    requires Solo(s) && s.emitter.Emitting? && s.emitter.target == 0 && s.emitter.grip.Refused?
    ensures Reaches(s, t) && Solo(t) && t.emitter.Idle? && t.sequence == s.sequence
    ensures t.sinks[0].worker == s.sinks[0].worker && t.sinks[0].dropped == s.sinks[0].dropped + 1
    ensures t.sinks[0].free == s.sinks[0].free && t.sinks[0].pending == s.sinks[0].pending
      && t.sinks[0].log.connections == s.sinks[0].log.connections
  {
    hide SinkOk, Shape, Run;
    var s1 := ReachesStep(s, Advance);
    var s2 := ReachesStep(s1, Advance);
    t := ReachesStep(s2, Advance);
    ReachesTrans(s, s1, s2);
    ReachesTrans(s, s2, t);
  }

  /** The worker sends its whole batch; nothing else moves. */
  lemma {:induction false} Drain<T(!new)>(s: System<T>) returns (t: System<T>)
    requires Solo(s) && s.sinks[0].worker.phase.Sending? && s.sinks[0].worker.spent.None?
    ensures Reaches(s, t) && Solo(t) && t.emitter == s.emitter && t.sequence == s.sequence
    ensures t.sinks[0].worker == s.sinks[0].worker.(batch := []) && t.sinks[0].dropped == s.sinks[0].dropped
    ensures t.sinks[0].pending == s.sinks[0].pending && t.sinks[0].log.connections == s.sinks[0].log.connections
    decreases |s.sinks[0].worker.batch|
  {
    hide SinkOk, Shape, Run;
    if s.sinks[0].worker.batch == [] {
      t := s;
      RunNothing(s);
    } else {
      var s1 := ReachesStep(s, Work(0, true));
      var s2 := ReachesStep(s1, Work(0, true));
      t := Drain(s2);
      ReachesTrans(s, s1, s2);
      ReachesTrans(s, s2, t);
    }
  }

  lemma Connect<T(!new)>(s: System<T>) returns (t: System<T>)
    requires SystemInv(s) && s.sinks[0].worker.phase.NotStarted? && !s.sinks[1].running
    ensures Reaches(s, t) && Solo(t) && t.emitter == s.emitter && t.sequence == s.sequence
    ensures t.sinks[0].worker == s.sinks[0].worker.(phase := Flushing, reported := 0)
    ensures t.sinks[0].dropped == s.sinks[0].dropped && t.sinks[0].free == s.sinks[0].free
    ensures t.sinks[0].log.connections == s.sinks[0].log.connections + 1
  {
    hide SinkOk, Shape, Run;
    var s1 := ReachesStep(s, Work(0, true));
    var s2 := ReachesStep(s1, MarkRunning(0));
    var s3 := ReachesStep(s2, Work(0, true));
    t := ReachesStep(s3, Work(0, true));
    ReachesTrans(s, s1, s2);
    ReachesTrans(s, s2, s3);
    ReachesTrans(s, s3, t);
  }

  // With every event taken into the batch, the worker reads its counter while the refusal is in flight.
  lemma ReadTooEarly<T(!new)>(s: System<T>) returns (t: System<T>)
    requires Solo(s) && s.emitter.Emitting? && s.emitter.target == 0 && s.emitter.grip.Refused?
    requires s.sinks[0].worker.phase.Sending? && s.sinks[0].worker.batch == [] && s.sinks[0].worker.spent.None?
    requires s.sinks[0].pending == [] && s.sinks[0].dropped != s.sinks[0].worker.reported
    ensures Reaches(s, t) && Solo(t) && AboutToNotify(t, 0)
    ensures t.sinks[0].worker.drops == s.sinks[0].dropped && t.sinks[0].dropped == s.sinks[0].dropped + 1
    ensures t.sinks[0].log.connections == s.sinks[0].log.connections && t.emitter.Idle? && t.sinks[0].worker.spent.None?
    ensures t.sinks[0].worker.batch == [] && t.sequence == s.sequence
  {
    hide SinkOk, Shape, Run;
    var s1 := ReachesStep(s, Work(0, true));
    var s2 := ReachesStep(s1, Work(0, true));
    t := Increment(s2);
    ReachesTrans(s, s1, s2);
    ReachesTrans(s, s2, t);
  }

  lemma FlushLosesNothing<T>(k: Sink<T>, held: Option<NodeId>, flight: Option<Queued<T>>, bound: nat)
    requires SinkInv(k, held, flight, bound) && EachOnce(k.owned) && k.worker.phase.Flushing?
    ensures Shape(k) && k.worker.spent.None?
    ensures Flush(k) == k.(pending := [], worker := k.worker.(phase := Sending, batch := Sort(k.nodes, k.pending)))
  {
    hide Placed, Accounted, Numbered, EachOnce, Sort, Flush;
    OwnedSize(k);
    SinkSteps.NothingTrimmed(k, held);
  }

  lemma FlushIs<T>(k: Sink<T>, refusing: bool)
    requires Shape(k) && k.worker.phase.Flushing?
    ensures WorkerStep(k, true, refusing) == Flush(k)
  {
    hide Flush, Shape;
  }

  lemma TakeBatch<T(!new)>(s: System<T>) returns (t: System<T>)
    requires Solo(s) && s.sinks[0].worker.phase.Flushing?
    ensures Reaches(s, t) && Solo(t) && t.emitter == s.emitter && t.sequence == s.sequence
    ensures t.sinks[0].worker.phase.Sending? && t.sinks[0].worker.spent.None?
    ensures t.sinks[0].worker.reported == s.sinks[0].worker.reported
    ensures t.sinks[0].pending == [] && t.sinks[0].dropped == s.sinks[0].dropped && t.sinks[0].free == s.sinks[0].free
    ensures t.sinks[0].log.connections == s.sinks[0].log.connections
  {
    hide SinkInv, EachOnce, Shape, Flush, Run, WorkerStep, Sort;
    SinkOf(s, 0);
    FlushLosesNothing(s.sinks[0], Held(s, 0), Flight(s, 0), Bound(s, 0));
    FlushIs(s.sinks[0], RefusingAt(s, 0));
    t := ReachesStep(s, Work(0, true));
  }

  // From a full pool: one event refused and counted, the batch taken, and a second refusal caught in flight.
  lemma Race<T(!new)>(s: System<T>, body: T) returns (t: System<T>)
    requires Solo(s) && s.emitter.Idle? && s.sinks[0].free == [] && s.sequence + 2 < MAX_SEQUENCE
    requires s.sinks[0].worker.phase.Flushing? && s.sinks[0].worker.reported == 0 && s.sinks[0].dropped == 0
    ensures Reaches(s, t) && SystemInv(t) && AboutToNotify(t, 0)
    ensures Solo(t) && t.sinks[0].worker.drops == 1 && t.sinks[0].dropped == 2
    ensures t.sinks[0].log.connections == s.sinks[0].log.connections && t.sequence == s.sequence + 2
  {
    hide SystemInv, Reaches;
    var s1 := Refuse(s, body);
    var s2 := Increment(s1);
    var s3 := TakeBatch(s2);
    var s4 := Refuse(s3, body);
    var s5 := Drain(s4);
    t := ReadTooEarly(s5);
    ReachesTrans(s, s1, s2);
    ReachesTrans(s, s2, s3);
    ReachesTrans(s, s3, s4);
    ReachesTrans(s, s4, s5);
    ReachesTrans(s, s5, t);
  }

  lemma Fresh<T>(blank: Queued<T>)
    ensures |Init(blank).sinks| == SINKS && Init(blank).emitter.Idle? && Init(blank).sequence == 0
    ensures !Init(blank).sinks[1].running && |Init(blank).sinks[0].free| == CAPACITY
    ensures Init(blank).sinks[0].worker.phase.NotStarted? && Init(blank).sinks[0].dropped == 0
      && Init(blank).sinks[0].log.connections == 0
  {
    hide Ids;
  }

  // The notice goes out, and the worker looks again.
  lemma Notify<T(!new)>(s: System<T>) returns (t: System<T>)
    requires Solo(s) && AboutToNotify(s, 0) && s.sequence < MAX_SEQUENCE
    ensures Reaches(s, t) && Solo(t) && t.emitter.Idle? && t.sequence == s.sequence + 1
    ensures t.sinks[0].worker.phase.Flushing? && t.sinks[0].worker.reported == s.sinks[0].worker.drops
    ensures t.sinks[0].pending == [] && t.sinks[0].dropped == s.sinks[0].dropped
    ensures t.sinks[0].log.connections == s.sinks[0].log.connections
  {
    hide SinkOk, Shape, Run;
    var s1 := ReachesStep(s, Work(0, true));
    t := ReachesStep(s1, Work(0, true));
    ReachesTrans(s, s1, t);
  }

  // With nothing queued, the worker comes to what it has not reported yet.
  lemma LookAgain<T(!new)>(s: System<T>) returns (t: System<T>)
    requires Solo(s) && s.emitter.Idle? && s.sinks[0].worker.phase.Flushing? && s.sinks[0].pending == []
    requires s.sinks[0].dropped != s.sinks[0].worker.reported
    ensures Reaches(s, t) && Solo(t) && AboutToNotify(t, 0) && t.sequence == s.sequence
    ensures t.sinks[0].worker.drops == t.sinks[0].dropped == s.sinks[0].dropped
    ensures t.sinks[0].log.connections == s.sinks[0].log.connections
  {
    hide Reaches, SystemInv;
    var s1 := TakeBatch(s);
    var s2 := Drain(s1);
    t := CountNow(s2);
    ReachesTrans(s, s1, s2);
    ReachesTrans(s, s2, t);
  }

  lemma CountNow<T(!new)>(s: System<T>) returns (t: System<T>)
    requires Solo(s) && s.emitter.Idle? && s.sinks[0].pending == [] && s.sinks[0].dropped != s.sinks[0].worker.reported
    requires s.sinks[0].worker.phase.Sending? && s.sinks[0].worker.batch == [] && s.sinks[0].worker.spent.None?
    ensures Reaches(s, t) && Solo(t) && AboutToNotify(t, 0) && t.sequence == s.sequence
    ensures t.sinks[0].worker.drops == t.sinks[0].dropped == s.sinks[0].dropped
    ensures t.sinks[0].log.connections == s.sinks[0].log.connections
  {
    hide SinkOk, Shape, Run;
    var s1 := ReachesStep(s, Work(0, true));
    t := ReachesStep(s1, Work(0, true));
    ReachesTrans(s, s1, t);
  }

  // The start, a full pool, and the race.
  lemma Started<T(!new)>(blank: Queued<T>, body: T) returns (t: System<T>)
    ensures SystemInv(Init(blank)) && Reaches(Init(blank), t) && Solo(t) && AboutToNotify(t, 0)
      && t.sequence < MAX_SEQUENCE - 2
    ensures t.sinks[0].worker.drops == 1 && t.sinks[0].dropped == 2 && t.sinks[0].log.connections == 1
  {
    hide SystemInv, Run, Init, Reaches;
    var s := Init(blank);
    InitOk(blank);
    Fresh(blank);
    var s1 := Connect(s);
    var s2 := Fill(s1, body);
    t := Race(s2, body);
    ReachesTrans(s, s1, s2);
    ReachesTrans(s, s2, t);
  }

  /** A notice can carry 1 while the drop counter is already 2. */
  lemma NoticeCanFallShort<T(!new)>(blank: Queued<T>, body: T)
    ensures exists actions ::
      var s := After(blank, actions);
      AboutToNotify(s, 0) && Report(s.sinks[0].worker.drops) == 1 && Report(s.sinks[0].dropped) == 2
  {
    hide SystemInv, Run, Init;
    var t := Started(blank, body);
    var actions :| Run(Init(blank), actions) == t;
    assert After(blank, actions) == t;
  }

  /** The same run settles on its first connection: both losses are told, the second in a notice of its own. */
  lemma ShortNoticeIsMadeGood<T(!new)>(blank: Queued<T>, body: T)
    ensures exists actions ::
      var s := After(blank, actions);
      && Quiescent(s, 0) && s.sinks[0].log.connections == 1
      && |s.sinks[0].log.lost| == 2 && HasNotice(s.sinks[0].log.wire, Report(2))
  {
    hide SystemInv, Run, Init, SinkInv, Booked, Reaches, HasNotice;
    var s1 := Started(blank, body);
    var s2 := Notify(s1);
    var s3 := LookAgain(s2);
    var t := Notify(s3);
    ReachesTrans(Init(blank), s1, s2);
    ReachesTrans(Init(blank), s2, s3);
    ReachesTrans(Init(blank), s3, t);
    var actions := ActionsOf(Init(blank), t);
    assert After(blank, actions) == t;
    LossIsTold(blank, actions, 0);
    SettledCount(blank, actions);
  }

  lemma ActionsOf<T(!new)>(s: System<T>, t: System<T>) returns (actions: seq<Action<T>>)
    requires SystemInv(s) && Reaches(s, t)
    ensures Run(s, actions) == t
  {
    hide SystemInv, Run;
    actions :| Run(s, actions) == t;
  }

  lemma SettledCount<T>(blank: Queued<T>, actions: seq<Action<T>>)
    requires Quiescent(After(blank, actions), 0)
    ensures var k := After(blank, actions).sinks[0]; k.dropped == |k.log.lost|
  {
    hide SystemInv, Run, Init, Accounted, Placed, Tidy, Shape, Ordered, Reported;
    var s := After(blank, actions);
    SinkOf(s, 0);
    SettledBooks(s.sinks[0], Held(s, 0));
  }
}
