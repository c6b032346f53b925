/**
 Both sinks, the shared sequence and the emit lock, as a system of interleaved steps:
 any number of producers emit, one worker serves each sink, and pipe calls succeed or fail.
 */
module Telemetry {
  import opened Bytes
  import opened Sinks
  import opened SinkSafety

  const SINKS := 2
  const MAX_SEQUENCE := 0xFFFF_FFFF_FFFF_FFFF

  // What the producer inside the emit lock is doing with its current sink.
  datatype Grip = Visiting | Holding(node: NodeId) | Refused

  /** The emit lock: free, or held by a producer that has drawn its number. */
  datatype Emitter<T> = Idle | Emitting(item: Queued<T>, target: nat, grip: Grip)

  datatype System<T> = System(sequence: nat, emitter: Emitter<T>, sinks: seq<Sink<T>>)

  /**
   Begin enters the lock and draws a number, Advance is the producer's next list
   operation, Work the next step of one worker, MarkRunning the store that lets
   producers see a started sink.
   */
  datatype Action<T> = Begin(body: T) | Advance | Work(sink: nat, ok: bool) | MarkRunning(sink: nat)

  function NewSink<T>(capacity: nat, blank: Queued<T>): Sink<T> {
    Sink(multiset(Ids(capacity)), false, seq(capacity, _ => blank), Ids(capacity), [], 0,
         Worker(NotStarted, [], None, None, 0, 0, false, 0), Log([], [], [], [], 0))
  }

  function Init<T>(blank: Queued<T>): System<T> {
    System(0, Idle, [NewSink(CAPACITY, blank), NewSink(CAPACITY, blank)])
  }

  predicate Formed<T>(s: System<T>) {
    && |s.sinks| == SINKS
    && (forall i | 0 <= i < SINKS :: Shape(s.sinks[i]))
    && (s.emitter.Emitting? ==>
          && s.emitter.target <= SINKS
          && (s.emitter.target == SINKS ==> s.emitter.grip.Visiting?)
          && (s.emitter.grip.Holding? ==> s.emitter.grip.node < CAPACITY))
  }

  predicate Enabled<T>(s: System<T>, a: Action<T>)
    requires Formed(s)
  {
    match a
    case Begin(_) => s.emitter.Idle? && s.sequence < MAX_SEQUENCE && (s.sinks[0].running || s.sinks[1].running)
    case Advance => s.emitter.Emitting?
    case Work(i, _) =>
      i < SINKS && (s.sinks[i].worker.phase.Deciding? ==> s.emitter.Idle? && s.sequence < MAX_SEQUENCE)
    case MarkRunning(i) => i < SINKS && !s.sinks[i].worker.phase.NotStarted?
  }

  function RefusingAt<T>(s: System<T>, i: nat): bool {
    s.emitter.Emitting? && s.emitter.target == i && s.emitter.grip.Refused?
  }

  function Next<T>(s: System<T>): System<T>
    requires s.emitter.Emitting?
  {
    s.(emitter := s.emitter.(target := s.emitter.target + 1, grip := Visiting))
  }

  function Put<T>(s: System<T>, i: nat, k: Sink<T>): System<T>
    requires i < |s.sinks|
  {
    s.(sinks := s.sinks[i := k])
  }

  /** The producer's next operation on the sink it has reached. */
  function AdvanceStep<T>(s: System<T>): System<T>
    requires Formed(s) && s.emitter.Emitting?
  {
    var e, i := s.emitter, s.emitter.target;
    if i == SINKS then s.(emitter := Idle)
    else
      var k := s.sinks[i];
      match e.grip
      case Visiting =>
        if !k.running then Next(s)
        else if k.free == [] then Put(s, i, Pop(k, e.item)).(emitter := e.(grip := Refused))
        else Put(s, i, Pop(k, e.item)).(emitter := e.(grip := Holding(k.free[0])))
      case Holding(node) => Next(Put(s, i, Push(k, node, e.item)))
      case Refused => Next(Put(s, i, Lose(k, e.item)))
  }

  function WorkStep<T>(s: System<T>, i: nat, ok: bool): System<T>
    requires Formed(s) && i < SINKS
  {
    var k := s.sinks[i];
    if !k.worker.phase.Deciding? then Put(s, i, WorkerStep(k, ok, RefusingAt(s, i)))
    else if k.pending == [] then Put(s, i, Decide(k, s.sequence + 1)).(sequence := s.sequence + 1)
    else Put(s, i, Decide(k, s.sequence + 1))
  }

  function Step<T>(s: System<T>, a: Action<T>): System<T>
    requires Formed(s) && Enabled(s, a)
  {
    match a
    case Begin(body) =>
      s.(sequence := s.sequence + 1, emitter := Emitting(Queued(s.sequence + 1, body), 0, Visiting))
    case Advance => AdvanceStep(s)
    case Work(i, ok) => WorkStep(s, i, ok)
    case MarkRunning(i) => Put(s, i, s.sinks[i].(running := true))
  }

  // ---------- The invariant of the system ----------

  function Held<T>(s: System<T>, i: nat): Option<NodeId> {
    if s.emitter.Emitting? && s.emitter.target == i && s.emitter.grip.Holding? then Some(s.emitter.grip.node) else None
  }

  function Flight<T>(s: System<T>, i: nat): Option<Queued<T>> {
    if s.emitter.Emitting? && s.emitter.target == i && !s.emitter.grip.Visiting? then Some(s.emitter.item) else None
  }

  function Bound<T>(s: System<T>, i: nat): nat {
    if s.emitter.Emitting? && s.emitter.target <= i && s.sequence > 0 then s.sequence - 1 else s.sequence
  }

  ghost predicate SinkOk<T>(s: System<T>, i: nat)
    requires i < |s.sinks|
  {
    SinkInv(s.sinks[i], Held(s, i), Flight(s, i), Bound(s, i)) && EachOnce(s.sinks[i].owned)
  }

  ghost predicate SystemInv<T>(s: System<T>) {
    && Formed(s) && SinkOk(s, 0) && SinkOk(s, 1)
    && (s.emitter.Emitting? ==> s.sequence > 0 && s.emitter.item.sequence == s.sequence)
  }

  lemma NewSinkShape<T>(capacity: nat, blank: Queued<T>)
    requires capacity == CAPACITY
    ensures Shape(NewSink(capacity, blank)) && EachOnce(NewSink(capacity, blank).owned)
  {
    var k := NewSink(capacity, blank);
    forall id
      ensures k.owned[id] <= 1
    {
      IdsOnce(capacity, id);
    }
    assert |k.owned| == |k.free|;
  }

  lemma NewSinkBooked<T>(capacity: nat, blank: Queued<T>)
    requires Shape(NewSink(capacity, blank))
    ensures Booked(NewSink(capacity, blank), None, None)
  {
    hide Ids, Sort, Insert;
    var k := NewSink(capacity, blank);
    assert At(k.nodes, []) == [];
  }

  lemma NewSinkNumbered<T>(capacity: nat, blank: Queued<T>)
    requires Shape(NewSink(capacity, blank))
    ensures Numbered(NewSink(capacity, blank), None, None, 0)
  {
    hide Ids, Sort, Insert;
  }

  lemma NewSinkOk<T>(capacity: nat, blank: Queued<T>)
    requires capacity == CAPACITY
    ensures Shape(NewSink(capacity, blank))
    ensures SinkInv(NewSink(capacity, blank), None, None, 0) && EachOnce(NewSink(capacity, blank).owned)
  {
    hide NewSink, Booked, Numbered, EachOnce, Shape;
    NewSinkShape(capacity, blank);
    NewSinkBooked(capacity, blank);
    NewSinkNumbered(capacity, blank);
  }

  /** Before anything is emitted, the invariant holds. */
  lemma InitOk<T>(blank: Queued<T>)
    ensures SystemInv(Init(blank))
  {
    hide NewSink, SinkInv, EachOnce, Shape;
    NewSinkOk(CAPACITY, blank);
  }

  lemma OwnedSize<T>(k: Sink<T>)
    requires EachOnce(k.owned)
    ensures |k.owned| == CAPACITY
  {
  }

  // A step leaves both sinks in order, so it leaves the system in order.
  lemma Together<T>(s: System<T>)
    requires |s.sinks| == SINKS && SinkOk(s, 0) && SinkOk(s, 1)
    requires s.emitter.Emitting? ==>
        && s.sequence > 0 && s.emitter.item.sequence == s.sequence && s.emitter.target <= SINKS
        && (s.emitter.target == SINKS ==> s.emitter.grip.Visiting?)
    ensures SystemInv(s)
  {
    hide SinkInv, EachOnce, Shape;
    forall i: nat | i < SINKS
      ensures Shape(s.sinks[i])
    {
      ShapeOf(s.sinks[i], Held(s, i), Flight(s, i), Bound(s, i));
    }
    if s.emitter.Emitting? && s.emitter.grip.Holding? {
      var i := s.emitter.target;
      ShapeOf(s.sinks[i], Held(s, i), Flight(s, i), Bound(s, i));
    }
  }

  lemma OtherSink<T>(s: System<T>, next: System<T>, i: nat)
    requires i < |s.sinks| == |next.sinks| && next.sinks[i] == s.sinks[i] && SinkOk(s, i)
    requires Held(next, i) == Held(s, i) && Flight(next, i) == Flight(s, i) && Bound(next, i) == Bound(s, i)
    ensures SinkOk(next, i)
  {
    hide SinkInv, EachOnce, Held, Flight, Bound;
  }

  lemma OwnedWorker<T>(k: Sink<T>, ok: bool, refusing: bool)
    requires Shape(k) && !k.worker.phase.Deciding?
    ensures WorkerStep(k, ok, refusing).owned == k.owned
  {
    hide Sort, Insert, Shape, At;
  }

  // A worker's step outside the lock.
  lemma OutsideKeeps<T>(s: System<T>, i: nat, ok: bool)
    requires SystemInv(s) && i < SINKS && !s.sinks[i].worker.phase.Deciding?
    ensures SystemInv(WorkStep(s, i, ok))
  {
    hide SinkInv, EachOnce, Shape, WorkerStep;
    var k, next := s.sinks[i], WorkStep(s, i, ok);
    OwnedSize(k);
    WorkerKeeps(k, Held(s, i), Flight(s, i), Bound(s, i), ok);
    OwnedWorker(k, ok, RefusingAt(s, i));
    OtherSink(s, next, 1 - i);
    Together(next);
  }

  // The worker's section under the lock.
  lemma DecidingKeeps<T>(s: System<T>, i: nat, ok: bool)
    requires SystemInv(s) && i < SINKS && s.sinks[i].worker.phase.Deciding? && s.emitter.Idle?
    ensures SystemInv(WorkStep(s, i, ok))
  {
    hide SinkInv, EachOnce, Shape, Decide;
    var k, next := s.sinks[i], WorkStep(s, i, ok);
    DecideKeeps(k, s.sequence);
    if k.pending == [] {
      RaiseBound(s.sinks[1 - i], s.sequence);
    } else {
      OtherSink(s, next, 1 - i);
    }
    Together(next);
  }

  lemma WorkKeeps<T>(s: System<T>, i: nat, ok: bool)
    requires SystemInv(s) && Enabled(s, Work(i, ok))
    ensures SystemInv(WorkStep(s, i, ok))
  {
    hide SinkOk, WorkStep, Shape;
    if s.sinks[i].worker.phase.Deciding? {
      DecidingKeeps(s, i, ok);
    } else {
      OutsideKeeps(s, i, ok);
    }
  }

  lemma BeginKeeps<T>(s: System<T>, body: T)
    requires SystemInv(s) && s.emitter.Idle?
    ensures SystemInv(s.(sequence := s.sequence + 1, emitter := Emitting(Queued(s.sequence + 1, body), 0, Visiting)))
  {
    hide SinkInv, EachOnce, Shape;
    var next := s.(sequence := s.sequence + 1, emitter := Emitting(Queued(s.sequence + 1, body), 0, Visiting));
    OtherSink(s, next, 0);
    OtherSink(s, next, 1);
    Together(next);
  }

  // The producer is done with both sinks, or passes one that is not running.
  lemma PassKeeps<T>(s: System<T>)
    requires SystemInv(s) && s.emitter.Emitting? && s.emitter.grip.Visiting?
    requires s.emitter.target == SINKS || !s.sinks[s.emitter.target].running
    ensures SystemInv(AdvanceStep(s))
  {
    hide SinkInv, EachOnce, Shape;
    var next := AdvanceStep(s);
    if s.emitter.target == SINKS {
      OtherSink(s, next, 0);
      OtherSink(s, next, 1);
    } else {
      RaiseBound(s.sinks[s.emitter.target], s.sequence - 1);
      OtherSink(s, next, 1 - s.emitter.target);
    }
    Together(next);
  }

  lemma OwnedEmitter<T>(k: Sink<T>, item: Queued<T>, node: NodeId)
    requires node < |k.nodes|
    ensures Pop(k, item).owned == Push(k, node, item).owned == Lose(k, item).owned == k.owned
  {
  }

  lemma VisitKeeps<T>(s: System<T>)
    requires SystemInv(s) && s.emitter.Emitting? && s.emitter.grip.Visiting?
    requires s.emitter.target < SINKS && s.sinks[s.emitter.target].running
    ensures SystemInv(AdvanceStep(s))
  {
    hide SinkInv, EachOnce, Pop;
    var next, i := AdvanceStep(s), s.emitter.target;
    OwnedSize(s.sinks[i]);
    OwnedEmitter(s.sinks[i], s.emitter.item, 0);
    PopKeeps(s.sinks[i], s.emitter.item, s.sequence - 1);
    OtherSink(s, next, 1 - i);
    Together(next);
  }

  lemma CommitKeeps<T>(s: System<T>)
    requires SystemInv(s) && s.emitter.Emitting? && s.emitter.target < SINKS && !s.emitter.grip.Visiting?
    ensures SystemInv(AdvanceStep(s))
  {
    hide SinkInv, EachOnce, Push, Lose;
    var next, i, item := AdvanceStep(s), s.emitter.target, s.emitter.item;
    OwnedEmitter(s.sinks[i], item, if s.emitter.grip.Holding? then s.emitter.grip.node else 0);
    if s.emitter.grip.Holding? {
      PushKeeps(s.sinks[i], s.emitter.grip.node, item, s.sequence - 1);
    } else {
      LoseKeeps(s.sinks[i], item, s.sequence - 1);
    }
    OtherSink(s, next, 1 - i);
    Together(next);
  }

  lemma MarkKeeps<T>(s: System<T>, i: nat)
    requires SystemInv(s) && i < SINKS && !s.sinks[i].worker.phase.NotStarted?
    ensures SystemInv(Put(s, i, s.sinks[i].(running := true)))
  {
    hide SinkInv, EachOnce, Shape;
    var next := Put(s, i, s.sinks[i].(running := true));
    RunKeeps(s.sinks[i], Held(s, i), Flight(s, i), Bound(s, i));
    OtherSink(s, next, 1 - i);
    Together(next);
  }

  /** Every step of every thread keeps the invariant. */
  lemma StepKeeps<T>(s: System<T>, a: Action<T>)
    requires SystemInv(s) && Enabled(s, a)
    ensures SystemInv(Step(s, a))
  {
    hide SinkOk, WorkStep, AdvanceStep, Shape;
    match a
    case Begin(body) => BeginKeeps(s, body);
    case Work(i, ok) => WorkKeeps(s, i, ok);
    case MarkRunning(i) => MarkKeeps(s, i);
    case Advance =>
      if !s.emitter.grip.Visiting? {
        CommitKeeps(s);
      } else if s.emitter.target == SINKS || !s.sinks[s.emitter.target].running {
        PassKeeps(s);
      } else {
        VisitKeeps(s);
      }
  }

  /** A run: the actions in order, each taken when its thread can take it. */
  ghost function Run<T>(s: System<T>, actions: seq<Action<T>>): (r: System<T>)
    requires SystemInv(s)
    ensures SystemInv(r)
  {
    if actions == [] then s
    else
      var before := Run(s, actions[..|actions| - 1]);
      var a := actions[|actions| - 1];
      if Enabled(before, a) then StepKeeps(before, a); Step(before, a) else before
  }
}
