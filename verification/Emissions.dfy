/**
 What the producers emit, read off the actions of a run: the items that are drawn, and what each of them
 finds at each sink.
 */
module Emissions {
  import opened Bytes
  import opened Sinks
  import opened Telemetry

  /** The item an action draws: the emit lock is free, and a sink is running. */
  function DrawnBy<T>(s: System<T>, a: Action<T>): seq<Queued<T>>
    requires Formed(s)
  {
    if a.Begin? && s.emitter.Idle? && s.sequence < MAX_SEQUENCE && exists i: nat | i < SINKS :: s.sinks[i].running
    then [Queued(s.sequence + 1, a.body)] else []
  }

  ghost function Drawn<T>(s: System<T>, actions: seq<Action<T>>): seq<Queued<T>>
    requires SystemInv(s)
  {
    if actions == [] then []
    else
      var front := actions[..|actions| - 1];
      Drawn(s, front) + DrawnBy(Run(s, front), actions[|actions| - 1])
  }

  /** The look an emission takes at a sink. */
  datatype Visit<T> = Visit(item: Queued<T>, running: bool)

  function VisitBy<T>(s: System<T>, a: Action<T>, i: nat): seq<Visit<T>>
    requires Formed(s) && i < SINKS
  {
    var e := s.emitter;
    if a.Advance? && e.Emitting? && e.target == i && e.grip.Visiting? then [Visit(e.item, s.sinks[i].running)] else []
  }

  ghost function Visits<T>(s: System<T>, actions: seq<Action<T>>, i: nat): seq<Visit<T>>
    requires SystemInv(s) && i < SINKS
  {
    if actions == [] then []
    else
      var front := actions[..|actions| - 1];
      Visits(s, front, i) + VisitBy(Run(s, front), actions[|actions| - 1], i)
  }

  function Items<T>(visits: seq<Visit<T>>): (items: seq<Queued<T>>)
    ensures |items| == |visits|
    ensures forall j | 0 <= j < |visits| :: items[j] == visits[j].item
  {
    seq(|visits|, j requires 0 <= j < |visits| => visits[j].item)
  }

  function FoundRunning<T>(visits: seq<Visit<T>>): seq<Queued<T>> {
    if visits == [] then []
    else
      var last := visits[|visits| - 1];
      FoundRunning(visits[..|visits| - 1]) + if last.running then [last.item] else []
  }

  /** The emitted items of a run that are meant for a sink: those whose emission found it running. */
  ghost function EmittedTo<T>(s: System<T>, actions: seq<Action<T>>, i: nat): seq<Queued<T>>
    requires SystemInv(s) && i < SINKS
  {
    FoundRunning(Visits(s, actions, i))
  }

  // ---------- One step ----------

  // The item drawn last, before its emission has reached the sink.
  function OnItsWay<T>(s: System<T>, i: nat): seq<Queued<T>> {
    var e := s.emitter;
    if e.Emitting? && (e.target < i || (e.target == i && e.grip.Visiting?)) then [e.item] else []
  }

  function Ran<T>(s: System<T>, a: Action<T>): System<T>
    requires Formed(s)
  {
    if Enabled(s, a) then Step(s, a) else s
  }

  lemma ReachStep<T>(s: System<T>, a: Action<T>, i: nat)
    requires Formed(s) && i < SINKS
    ensures OnItsWay(s, i) + DrawnBy(s, a) == Items(VisitBy(s, a, i)) + OnItsWay(Ran(s, a), i)
  {
    hide WorkerStep, Decide, Shape, Pop, Push, Lose;
  }

  lemma OfferedByWorker<T>(k: Sink<T>, ok: bool, refusing: bool, number: nat)
    requires Shape(k)
    ensures !k.worker.phase.Deciding? ==> WorkerStep(k, ok, refusing).log.offered == k.log.offered
    ensures Decide(k, number).log.offered == k.log.offered
  {
    hide Sort, Insert, Shape, At;
  }

  lemma OfferStep<T>(s: System<T>, a: Action<T>, i: nat)
    requires Formed(s) && i < SINKS
    ensures Ran(s, a).sinks[i].log.offered == s.sinks[i].log.offered + FoundRunning(VisitBy(s, a, i))
  {
    hide WorkerStep, Decide, Shape;
    if a.Work? && a.sink < SINKS {
      OfferedByWorker(s.sinks[a.sink], a.ok, RefusingAt(s, a.sink), s.sequence + 1);
    }
    FoundOne(s, a, i);
  }

  lemma FoundOne<T>(s: System<T>, a: Action<T>, i: nat)
    requires Formed(s) && i < SINKS
    ensures FoundRunning(VisitBy(s, a, i)) ==
      if VisitBy(s, a, i) != [] && s.sinks[i].running then [s.emitter.item] else []
  {
    hide Shape;
    assert FoundRunning<T>([]) == [];
  }

  // ---------- Whole runs ----------

  lemma RunSnoc<T>(s: System<T>, actions: seq<Action<T>>)
    requires SystemInv(s) && actions != []
    ensures Run(s, actions) == Ran(Run(s, actions[..|actions| - 1]), actions[|actions| - 1])
  {
    hide SystemInv, Enabled, Step;
  }

  lemma {:induction false} FoundConcat<T>(a: seq<Visit<T>>, b: seq<Visit<T>>)
    ensures FoundRunning(a + b) == FoundRunning(a) + FoundRunning(b)
    decreases b
  {
    if b == [] {
      assert a + b == a;
    } else {
      var front := b[..|b| - 1];
      FoundConcat(a, front);
      assert (a + b)[..|a + b| - 1] == a + front;
    }
  }

  lemma ItemsConcat<T>(a: seq<Visit<T>>, b: seq<Visit<T>>)
    ensures Items(a + b) == Items(a) + Items(b)
  {
  }

  /** Every drawn item comes to every sink, once and in the order drawn. */
  lemma {:induction false} EachIsVisited<T>(s: System<T>, actions: seq<Action<T>>, i: nat)
    requires SystemInv(s) && s.emitter.Idle? && i < SINKS
    ensures Items(Visits(s, actions, i)) + OnItsWay(Run(s, actions), i) == Drawn(s, actions)
    decreases actions
  {
    hide SystemInv, Run, Ran, DrawnBy, VisitBy, OnItsWay, Items;
    if actions == [] {
      NothingYet(s, i);
    } else {
      var front, a := actions[..|actions| - 1], actions[|actions| - 1];
      var b := Run(s, front);
      EachIsVisited(s, front, i);
      RunSnoc(s, actions);
      Ready(b);
      ReachStep(b, a, i);
      ItemsConcat(Visits(s, front, i), VisitBy(b, a, i));
      calc {
        Drawn(s, actions);
        Items(Visits(s, front, i)) + OnItsWay(b, i) + DrawnBy(b, a);
        { Associative(Items(Visits(s, front, i)), OnItsWay(b, i), DrawnBy(b, a)); }
        Items(Visits(s, front, i)) + (Items(VisitBy(b, a, i)) + OnItsWay(Ran(b, a), i));
        { Associative(Items(Visits(s, front, i)), Items(VisitBy(b, a, i)), OnItsWay(Ran(b, a), i)); }
        Items(Visits(s, front, i) + VisitBy(b, a, i)) + OnItsWay(Ran(b, a), i);
      }
    }
  }

  lemma Ready<T>(s: System<T>)
    requires SystemInv(s)
    ensures Formed(s) && |s.sinks| == SINKS
  {
  }

  lemma NothingYet<T>(s: System<T>, i: nat)
    requires SystemInv(s) && s.emitter.Idle? && i < SINKS
    ensures Run(s, []) == s && Items<T>([]) == [] && OnItsWay(s, i) == []
  {
  }

  /** A sink is offered exactly the items whose emission found it running. */
  lemma {:induction false} OfferedAreFound<T>(s: System<T>, actions: seq<Action<T>>, i: nat)
    requires SystemInv(s) && i < SINKS && |s.sinks| == SINKS == |Run(s, actions).sinks|
    ensures Run(s, actions).sinks[i].log.offered == s.sinks[i].log.offered + EmittedTo(s, actions, i)
    decreases actions
  {
    hide SystemInv, Ran, VisitBy, Run;
    if actions == [] {
      NothingRun(s);
    } else {
      var front, a := actions[..|actions| - 1], actions[|actions| - 1];
      var b := Run(s, front);
      Ready(b);
      OfferedAreFound(s, front, i);
      RunSnoc(s, actions);
      OfferStep(b, a, i);
      FoundConcat(Visits(s, front, i), VisitBy(b, a, i));
      Associative(s.sinks[i].log.offered, EmittedTo(s, front, i), FoundRunning(VisitBy(b, a, i)));
    }
  }

  lemma NothingRun<T>(s: System<T>)
    requires SystemInv(s)
    ensures Run(s, []) == s
  {
  }

  /**
   From a fresh process, in every run: each sink has been offered exactly the emitted items that found it
   running, in order; and whenever the emit lock is free, every drawn item has come to every sink.
   */
  lemma EveryEmissionIsOffered<T>(blank: Queued<T>, actions: seq<Action<T>>, i: nat)
    requires i < SINKS
    ensures SystemInv(Init(blank))
    ensures var s := Run(Init(blank), actions);
      && |s.sinks| == SINKS && s.sinks[i].log.offered == EmittedTo(Init(blank), actions, i)
      && (s.emitter.Idle? ==> Items(Visits(Init(blank), actions, i)) == Drawn(Init(blank), actions))
  {
    hide SystemInv, Run, Visits, Drawn, EmittedTo, NewSink, Items;
    InitOk(blank);
    Ready(Init(blank));
    Ready(Run(Init(blank), actions));
    FreshLog(blank, i);
    OfferedAreFound(Init(blank), actions, i);
    EachIsVisited(Init(blank), actions, i);
  }

  lemma FreshLog<T>(blank: Queued<T>, i: nat)
    requires i < SINKS
    ensures |Init(blank).sinks| == SINKS && Init(blank).emitter.Idle? && Init(blank).sinks[i].log.offered == []
  {
    hide Ids;
  }

  // ---------- Sinks that run ----------

  lemma StaysRunning<T>(s: System<T>, a: Action<T>, i: nat)
    requires Formed(s) && i < SINKS && s.sinks[i].running
    ensures |Ran(s, a).sinks| == SINKS && Ran(s, a).sinks[i].running
  {
    hide Sort, Insert, Shape, At;
  }

  lemma AllFound<T>(s: System<T>, a: Action<T>, i: nat)
    requires Formed(s) && i < SINKS && s.sinks[i].running
    ensures FoundRunning(VisitBy(s, a, i)) == Items(VisitBy(s, a, i))
  {
    hide Shape;
    FoundOne(s, a, i);
  }

  lemma {:induction false} RunningFindsAll<T>(s: System<T>, actions: seq<Action<T>>, i: nat)
    requires SystemInv(s) && i < SINKS && |s.sinks| == SINKS == |Run(s, actions).sinks| && s.sinks[i].running
    ensures Run(s, actions).sinks[i].running
    ensures EmittedTo(s, actions, i) == Items(Visits(s, actions, i))
    decreases actions
  {
    hide SystemInv, Ran, VisitBy, Run, Items;
    if actions == [] {
      NothingRun(s);
      assert Items<T>([]) == [];
    } else {
      var front, a := actions[..|actions| - 1], actions[|actions| - 1];
      var b := Run(s, front);
      Ready(b);
      RunningFindsAll(s, front, i);
      RunSnoc(s, actions);
      StaysRunning(b, a, i);
      AllFound(b, a, i);
      FoundConcat(Visits(s, front, i), VisitBy(b, a, i));
      ItemsConcat(Visits(s, front, i), VisitBy(b, a, i));
    }
  }

  /** Once a sink runs, everything drawn from then on is offered to it, in the order drawn. */
  lemma RunningSinkIsOfferedAll<T>(s: System<T>, actions: seq<Action<T>>, i: nat)
    requires SystemInv(s) && i < SINKS && |s.sinks| == SINKS == |Run(s, actions).sinks|
    requires s.sinks[i].running && s.emitter.Idle? && Run(s, actions).emitter.Idle?
    ensures Run(s, actions).sinks[i].log.offered == s.sinks[i].log.offered + Drawn(s, actions)
  {
    hide SystemInv, Run, Visits, Drawn, EmittedTo, Items;
    OfferedAreFound(s, actions, i);
    RunningFindsAll(s, actions, i);
    EachIsVisited(s, actions, i);
    assert OnItsWay(Run(s, actions), i) == [];
  }

  // ---------- An emission ends ----------

  /** How many operations the producer in the lock still has before it. */
  function Left<T>(s: System<T>): nat
    requires Formed(s)
  {
    if s.emitter.Idle? then 0
    else 2 * (SINKS - s.emitter.target) + if s.emitter.grip.Visiting? then 1 else 0
  }

  /** Each operation of the producer brings the end of its emission closer; no step of a worker puts it off. */
  lemma EmissionEnds<T>(s: System<T>, a: Action<T>)
    requires SystemInv(s) && s.emitter.Emitting?
    ensures Formed(Ran(s, a))
    ensures a.Advance? ==> Left(Ran(s, a)) < Left(s) <= 2 * SINKS + 1
    ensures !a.Advance? ==> Left(Ran(s, a)) == Left(s)
    ensures Left(Ran(s, a)) == 0 <==> Ran(s, a).emitter.Idle?
  {
    hide SinkOk, Step;
    if Enabled(s, a) {
      StepKeeps(s, a);
    }
    EmitterOnly(s, a);
  }

  lemma EmitterOnly<T>(s: System<T>, a: Action<T>)
    requires Formed(s) && s.emitter.Emitting? && Formed(Ran(s, a))
    ensures a.Advance? ==> Left(Ran(s, a)) < Left(s) <= 2 * SINKS + 1
    ensures !a.Advance? ==> Left(Ran(s, a)) == Left(s)
    ensures Left(Ran(s, a)) == 0 <==> Ran(s, a).emitter.Idle?
  {
    hide WorkerStep, Decide, Shape, Pop, Push, Lose;
  }

  // ---------- Where the bodies come from ----------

  lemma DrawnBodies<T>(s: System<T>, actions: seq<Action<T>>, item: Queued<T>)
    requires SystemInv(s) && item in Drawn(s, actions)
    ensures exists j :: 0 <= j < |actions| && actions[j].Begin? && actions[j].body == item.body
    decreases actions
  {
    hide SystemInv, Run;
    var front, a := actions[..|actions| - 1], actions[|actions| - 1];
    if item in Drawn(s, front) {
      DrawnBodies(s, front, item);
      var j :| 0 <= j < |front| && front[j].Begin? && front[j].body == item.body;
      assert actions[j] == front[j];
    } else {
      assert actions[|actions| - 1].Begin?;
    }
  }

  lemma {:induction false} FoundMembers<T>(visits: seq<Visit<T>>, item: Queued<T>)
    requires item in FoundRunning(visits)
    ensures item in Items(visits)
    decreases visits
  {
    var front := visits[..|visits| - 1];
    if item in FoundRunning(front) {
      FoundMembers(front, item);
      var j :| 0 <= j < |front| && Items(front)[j] == item;
      assert Items(visits)[j] == item;
    } else {
      assert Items(visits)[|visits| - 1] == item;
    }
  }

  /** Every emitted item carries what some Begin of the run was given. */
  lemma EmittedBodies<T>(s: System<T>, actions: seq<Action<T>>, i: nat, item: Queued<T>)
    requires SystemInv(s) && s.emitter.Idle? && i < SINKS && item in EmittedTo(s, actions, i)
    ensures exists j :: 0 <= j < |actions| && actions[j].Begin? && actions[j].body == item.body
  {
    hide SystemInv, Run, Visits, Drawn, Items, FoundRunning;
    FoundMembers(Visits(s, actions, i), item);
    EachIsVisited(s, actions, i);
    DrawnBodies(s, actions, item);
  }
}
