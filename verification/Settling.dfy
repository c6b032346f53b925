/**
 What the workers get done. While the pipe answers and nothing is emitted a worker runs out of work, whatever
 state it is in; and events are lost only when the pipe fails or no node is free.
 */
module Settling {
  import opened Bytes
  import opened Sinks
  import opened SinkSteps
  import opened SinkSafety
  import opened Telemetry
  import opened Emissions
  import opened TelemetryTheorems

  // ---------- A worker by itself ----------

  // What the pending list still costs once the worker is past its greeting.
  function Waiting<T>(k: Sink<T>): nat { if k.pending == [] then 0 else 2 * |k.pending| + 20 }

  function Ones<T>(o: Option<T>): nat { if o.Some? then 1 else 0 }

  /** How many steps at most a worker still has to take. */
  function Left<T>(k: Sink<T>): nat {
    var w, p := k.worker, Waiting(k);
    var told := k.dropped == w.reported;
    match w.phase
    case NotStarted => p + 13
    case Connecting => p + 12
    case Greeting => p + 11
    case Recycling => 2 * |w.batch| + Ones(w.spent) + Ones(w.owed) + 13 + p
    case Abandoning => 2 * |w.batch| + Ones(w.spent) + Ones(w.owed) + 13 + p
    case Flushing => p + if told then 0 else 10
    case Sending => 2 * |w.batch| + Ones(w.spent) + 1 + p + if p > 0 then 12 else if told then 1 else 4
    case Counting => p + if told then 1 else if p > 0 then 12 else 4
    case Deciding => if p > 0 then p + 11 else 3 + if k.dropped == w.drops then 0 else 10
    case Noticing => 1 + p + if k.dropped == w.drops then 0 else 10
  }

  predicate Done<T>(k: Sink<T>) {
    k.worker.phase.Flushing? && k.pending == [] && k.dropped == k.worker.reported
  }

  lemma FlushLess<T>(k: Sink<T>)
    requires Shape(k) && |k.pending| <= CAPACITY && k.worker.phase.Flushing? && !Done(k)
    requires k.worker.batch == [] && k.worker.spent.None?
    ensures Left(WorkerStep(k, true, false)) < Left(k)
  {
    var n := Flush(k);
    assert |n.worker.batch| == |k.pending|;
    assert k.pending[..|k.pending|] == k.pending && k.pending[|k.pending|..] == [];
    hide Sort, Insert;
    assert n.dropped == k.dropped;
  }

  lemma WorkLess<T>(k: Sink<T>, refusing: bool)
    requires Shape(k) && |k.pending| <= CAPACITY && !Done(k) && !k.worker.phase.Deciding?
    requires k.worker.phase.Flushing? ==> k.worker.batch == [] && k.worker.spent.None?
    ensures Left(WorkerStep(k, true, refusing)) < Left(k)
  {
    hide *;
    var phase := k.worker.phase;
    if phase.Flushing? {
      FlushLess(k);
      NotRefusing(k, refusing);
    } else if phase.Sending? {
      SendLess(k, refusing);
    } else if phase.Recycling? || phase.Abandoning? {
      DropLess(k, refusing);
    } else {
      PassLess(k, refusing);
    }
  }

  lemma NotRefusing<T>(k: Sink<T>, refusing: bool)
    requires Shape(k) && k.worker.phase.Flushing?
    ensures WorkerStep(k, true, refusing) == WorkerStep(k, true, false)
  {
    hide Shape, Flush;
  }

  lemma SendLess<T>(k: Sink<T>, refusing: bool)
    requires Shape(k) && k.worker.phase.Sending?
    ensures Left(WorkerStep(k, true, refusing)) < Left(k)
  {
    hide Shape;
  }

  lemma DropLess<T>(k: Sink<T>, refusing: bool)
    requires Shape(k) && (k.worker.phase.Recycling? || k.worker.phase.Abandoning?)
    ensures Left(WorkerStep(k, true, refusing)) < Left(k)
  {
    hide Shape;
  }

  lemma PassLess<T>(k: Sink<T>, refusing: bool)
    requires Shape(k)
    requires var p := k.worker.phase;
      p.NotStarted? || p.Connecting? || p.Greeting? || p.Counting? || p.Noticing?
    ensures Left(WorkerStep(k, true, refusing)) < Left(k)
  {
    hide Shape;
  }

  lemma DecideLess<T>(k: Sink<T>, number: nat)
    requires k.worker.phase.Deciding?
    ensures Left(Decide(k, number)) < Left(k)
  {
  }

  /** Only the emit lock holds anybody up: a worker outside it takes any step, and with the lock free everybody does. */
  lemma NobodyElseWaits<T>(s: System<T>, i: nat, ok: bool, body: T)
    requires SystemInv(s) && i < SINKS && s.sequence < MAX_SEQUENCE
    ensures Formed(s)
    ensures !s.sinks[i].worker.phase.Deciding? || s.emitter.Idle? ==> Enabled(s, Work(i, ok))
    ensures s.emitter.Idle? && s.sinks[i].running ==> Enabled(s, Begin(body))
    ensures !s.emitter.Idle? ==> Enabled(s, Advance)
    ensures !s.sinks[i].worker.phase.NotStarted? ==> Enabled(s, MarkRunning(i))
  {
    hide SinkOk;
  }

  /** Some steps of one worker, the pipe answering each call. */
  function Works<T>(i: nat, steps: nat): seq<Action<T>> { seq(steps, _ => Work(i, true)) }

  // A step of the worker, anywhere in a run.
  lemma StepLess<T>(s: System<T>, i: nat)
    requires SystemInv(s) && Formed(s) && i < SINKS && s.emitter.Idle? && !Done(s.sinks[i])
    requires s.sequence < MAX_SEQUENCE
    ensures Enabled(s, Work(i, true))
    ensures var n := WorkStep(s, i, true);
      n.emitter.Idle? && Left(n.sinks[i]) < Left(s.sinks[i]) && s.sequence <= n.sequence <= s.sequence + 1
  {
    hide SystemInv, WorkerStep, Decide, Numbered, Placed, Accounted, EachOnce, Shape, Left, Done;
    InvFormed(s);
    var k := s.sinks[i];
    SinkOf(s, i);
    OwnedSize(k);
    NoSurplus(k, Held(s, i));
    if k.worker.phase.Deciding? {
      DecideLess(k, s.sequence + 1);
    } else {
      WorkLess(k, RefusingAt(s, i));
    }
  }

  lemma InvFormed<T>(s: System<T>)
    requires SystemInv(s)
    ensures Formed(s)
  {
    hide SinkOk, Formed;
  }

  lemma WorksFirst<T>(s: System<T>, i: nat, steps: nat)
    requires SystemInv(s) && steps > 0 && i < SINKS && Formed(s) && Enabled(s, Work(i, true))
    ensures SystemInv(Step(s, Work(i, true)))
    ensures Run(s, Works(i, steps)) == Run(Step(s, Work(i, true)), Works(i, steps - 1))
    decreases steps
  {
    hide SystemInv, Step, Enabled, Formed;
    StepKeeps(s, Work(i, true));
    var all := Works<T>(i, steps);
    assert all[..steps - 1] == Works(i, steps - 1);
    if steps == 1 {
      assert all[..0] == [] && Works<T>(i, 0) == [];
    } else {
      WorksFirst(s, i, steps - 1);
      assert Works<T>(i, steps - 1)[..steps - 2] == Works(i, steps - 2);
    }
  }

  lemma NoWorks<T>(s: System<T>, i: nat)
    requires SystemInv(s)
    ensures Run(s, Works(i, 0)) == s
  {
    hide SystemInv;
    assert Works<T>(i, 0) == [];
  }

  lemma {:induction false} WorksSettle<T>(s: System<T>, i: nat) returns (steps: nat)
    requires SystemInv(s) && i < SINKS && s.emitter.Idle? && s.sequence + Left(s.sinks[i]) <= MAX_SEQUENCE
    ensures steps <= Left(s.sinks[i]) && Done(Run(s, Works(i, steps)).sinks[i])
    ensures Run(s, Works(i, steps)).emitter.Idle?
    decreases Left(s.sinks[i])
  {
    hide SystemInv, Left, Done, Step;
    InvFormed(s);
    if Done(s.sinks[i]) {
      NoWorks(s, i);
      return 0;
    }
    LeftPositive(s.sinks[i]);
    StepLess(s, i);
    assert Step(s, Work(i, true)) == WorkStep(s, i, true) by { WorkIs(s, i); }
    StepKeeps(s, Work(i, true));
    var rest := WorksSettle(Step(s, Work(i, true)), i);
    WorksFirst(s, i, rest + 1);
    steps := rest + 1;
  }

  lemma WorkIs<T>(s: System<T>, i: nat)
    requires Formed(s) && i < SINKS && Enabled(s, Work(i, true))
    ensures Step(s, Work(i, true)) == WorkStep(s, i, true)
  {
    hide WorkStep, AdvanceStep, Shape;
  }

  lemma LeftPositive<T>(k: Sink<T>)
    requires !Done(k)
    ensures Left(k) > 0
  {
  }

  /**
   A worker settles: from any state a run can reach with no emission under way, it has nothing left to do after
   finitely many of its own steps, as long as the pipe answers. So what holds of a quiescent worker does come to hold.
   */
  lemma WorkerSettles<T>(blank: Queued<T>, actions: seq<Action<T>>, i: nat) returns (steps: nat)
    requires i < SINKS && After(blank, actions).emitter.Idle?
    requires After(blank, actions).sequence + Left(After(blank, actions).sinks[i]) <= MAX_SEQUENCE
    ensures steps <= Left(After(blank, actions).sinks[i])
    ensures Quiescent(After(blank, actions + Works(i, steps)), i)
  {
    hide SystemInv, Left, Run, Init;
    var s := After(blank, actions);
    steps := WorksSettle(s, i);
    InitOk(blank);
    RunAppend(Init(blank), actions, Works(i, steps));
  }

  lemma {:induction false} RunAppend<T>(s: System<T>, first: seq<Action<T>>, later: seq<Action<T>>)
    requires SystemInv(s)
    ensures Run(s, first + later) == Run(Run(s, first), later)
    decreases later
  {
    hide SystemInv, Step, Enabled;
    if later == [] {
      assert first + later == first;
    } else {
      var front := later[..|later| - 1];
      assert (first + later)[..|first + later| - 1] == first + front;
      RunAppend(s, first, front);
    }
  }

  // ---------- Losses have causes ----------

  /** An emission looks for a node at the sink and finds none free. */
  predicate FindsNone<T>(s: System<T>, a: Action<T>, i: nat)
    requires Formed(s) && i < SINKS
  {
    a.Advance? && s.emitter.Emitting? && s.emitter.target == i && s.emitter.grip.Visiting? && s.sinks[i].running
    && s.sinks[i].free == []
  }

  /** In a run no call on the sink's pipe fails and every emission finds a node there. */
  ghost predicate AllWell<T>(s: System<T>, actions: seq<Action<T>>, i: nat)
    requires SystemInv(s) && i < SINKS
  {
    actions != [] ==>
      var front, a := actions[..|actions| - 1], actions[|actions| - 1];
      AllWell(s, front, i) && !FindsNone(Run(s, front), a, i) && (a.Work? && a.sink == i ==> a.ok)
  }

  /** Nothing has been lost at the sink and nothing is about to be. */
  predicate Unharmed<T>(s: System<T>, i: nat) {
    && i < |s.sinks|
    && var k := s.sinks[i];
    && k.log.lost == [] && k.dropped == 0 && !k.worker.phase.Recycling? && !k.worker.phase.Abandoning?
    && !RefusingAt(s, i)
  }

  lemma WorkUnharmed<T>(k: Sink<T>, refusing: bool)
    requires Shape(k) && |k.pending| <= CAPACITY && !k.worker.phase.Deciding?
    requires k.log.lost == [] && k.dropped == 0 && !k.worker.phase.Recycling? && !k.worker.phase.Abandoning?
    ensures var n := WorkerStep(k, true, refusing);
      n.log.lost == [] && n.dropped == 0 && !n.worker.phase.Recycling? && !n.worker.phase.Abandoning?
  {
    hide Sort, Insert;
    assert k.pending[|k.pending|..] == [];
  }

  lemma StepUnharmed<T>(s: System<T>, a: Action<T>, i: nat)
    requires SystemInv(s) && i < SINKS && Formed(s) && Enabled(s, a) && Unharmed(s, i)
    requires !FindsNone(s, a, i) && (a.Work? && a.sink == i ==> a.ok)
    ensures Unharmed(Step(s, a), i)
  {
    hide SystemInv, WorkerStep, Decide, Numbered, Placed, Accounted, EachOnce, Shape;
    SinkOf(s, i);
    OwnedSize(s.sinks[i]);
    NoSurplus(s.sinks[i], Held(s, i));
    if a.Work? && a.sink == i {
      if s.sinks[i].worker.phase.Deciding? {
        DecideUnharmed(s.sinks[i], s.sequence + 1);
      } else {
        WorkUnharmed(s.sinks[i], RefusingAt(s, i));
      }
    }
  }

  lemma DecideUnharmed<T>(k: Sink<T>, number: nat)
    ensures var n := Decide(k, number);
      n.log.lost == k.log.lost && n.dropped == k.dropped && !n.worker.phase.Recycling? && !n.worker.phase.Abandoning?
  {
  }

  lemma {:induction false} RunUnharmed<T>(s: System<T>, actions: seq<Action<T>>, i: nat)
    requires SystemInv(s) && i < SINKS && Unharmed(s, i) && AllWell(s, actions, i)
    ensures Unharmed(Run(s, actions), i)
  {
    hide SystemInv, Step, Enabled, Unharmed, FindsNone;
    if actions != [] {
      var front, a := actions[..|actions| - 1], actions[|actions| - 1];
      RunUnharmed(s, front, i);
      var b := Run(s, front);
      InvFormed(b);
      if Enabled(b, a) {
        StepUnharmed(b, a, i);
        StepKeeps(b, a);
        InvFormed(Step(b, a));
      }
    }
  }

  /**
   No event is lost without a cause: while no call on its pipe fails and every emission finds a free node, a sink
   loses nothing, and once its worker is quiescent its wire carries exactly what was emitted.
   */
  lemma LossHasCause<T>(blank: Queued<T>, actions: seq<Action<T>>, i: nat)
    requires i < SINKS && SystemInv(Init(blank)) && AllWell(Init(blank), actions, i)
    ensures var (s, k) := (After(blank, actions), After(blank, actions).sinks[i]);
      && k.log.lost == [] && k.dropped == 0
      && (Quiescent(s, i) ==> DataOf(k.log.wire) == Emitted(blank, actions, i))
  {
    hide SystemInv, AllWell, Run, EachOnce, Booked, DataOf, Ascending, Emitted, Ordered, Continued, OfferedOrdered;
    NewUnharmed(blank, i);
    RunUnharmed(Init(blank), actions, i);
    var s := After(blank, actions);
    if Quiescent(s, i) {
      SinkOf(s, i);
      NoSilentLoss(blank, actions, i);
    }
  }

  lemma NewUnharmed<T>(blank: Queued<T>, i: nat)
    requires i < SINKS
    ensures Unharmed(Init(blank), i)
  {
    hide Ids;
  }
}
