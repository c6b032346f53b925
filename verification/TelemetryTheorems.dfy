/** What holds in every run of the producers and the two workers. */
module TelemetryTheorems {
  import opened Bytes
  import opened Sinks
  import opened SinkSteps
  import opened SinkSafety
  import opened Telemetry
  import opened Emissions

  /** The state a run of the given actions ends in, starting from a fresh process. */
  ghost function After<T>(blank: Queued<T>, actions: seq<Action<T>>): (s: System<T>)
    ensures SystemInv(s) && |s.sinks| == SINKS
  {
    InitOk(blank);
    Run(Init(blank), actions)
  }

  /** The events emitted in a run of a fresh process while a sink was running. */
  ghost function Emitted<T>(blank: Queued<T>, actions: seq<Action<T>>, i: nat): seq<Queued<T>>
    requires i < SINKS
  {
    InitOk(blank);
    EmittedTo(Init(blank), actions, i)
  }

  lemma OfferedIsEmitted<T>(blank: Queued<T>, actions: seq<Action<T>>, i: nat)
    requires i < SINKS
    ensures After(blank, actions).sinks[i].log.offered == Emitted(blank, actions, i)
  {
    hide SystemInv, Run, EmittedTo, Drawn, Visits;
    EveryEmissionIsOffered(blank, actions, i);
  }

  lemma SinkOf<T>(s: System<T>, i: nat)
    requires SystemInv(s) && i < SINKS
    ensures SinkInv(s.sinks[i], Held(s, i), Flight(s, i), Bound(s, i)) && EachOnce(s.sinks[i].owned)
  {
    hide SinkInv, EachOnce, Shape;
  }

  /** Hello's 0 first, then strictly increasing numbers, for batches and notices alike. */
  lemma WireOrder<T>(blank: Queued<T>, actions: seq<Action<T>>, i: nat)
    requires i < SINKS
    ensures WireOrdered(After(blank, actions).sinks[i].log.wire)
    ensures Ascending(After(blank, actions).sinks[i].log.delivered)
  {
    hide SystemInv, After, Run, Booked, Reported, EachOnce, WireOrdered, Ascending;
    SinkOf(After(blank, actions), i);
  }

  lemma OwnedStep<T>(s: System<T>, a: Action<T>, i: nat)
    requires Formed(s) && Enabled(s, a) && i < SINKS
    ensures Step(s, a).sinks[i].owned == s.sinks[i].owned
  {
    hide SinkOk, WorkerStep, Decide, Shape;
    if a.Work? && !s.sinks[a.sink].worker.phase.Deciding? {
      OwnedWorker(s.sinks[a.sink], a.ok, RefusingAt(s, a.sink));
    } else if a.Work? {
      assert Decide(s.sinks[a.sink], s.sequence + 1).owned
        == s.sinks[a.sink].owned by { DecideOwned(s.sinks[a.sink], s.sequence + 1); }
    }
  }

  lemma DecideOwned<T>(k: Sink<T>, number: nat)
    ensures Decide(k, number).owned == k.owned
  {
  }

  lemma {:induction false} OwnedRun<T>(s: System<T>, actions: seq<Action<T>>, i: nat)
    requires SystemInv(s) && i < SINKS
    ensures Run(s, actions).sinks[i].owned == s.sinks[i].owned
  {
    hide SinkOk, Shape, Step;
    if actions == [] {
    } else {
      var a, before := actions[|actions| - 1], Run(s, actions[..|actions| - 1]);
      OwnedRun(s, actions[..|actions| - 1], i);
      if Enabled(before, a) {
        OwnedStep(before, a, i);
      }
    }
  }

  /** Each of the 1024 nodes is free, pending, in the worker's hands or in the emitter's, and in one place only. */
  lemma EveryNodeOnce<T>(blank: Queued<T>, actions: seq<Action<T>>, i: nat, id: NodeId)
    requires i < SINKS
    ensures Places(After(blank, actions).sinks[i], Held(After(blank, actions), i))[id] == if id < CAPACITY then 1 else 0
  {
    hide SystemInv, Run, Numbered, EachOnce, Ids, Shape, Places, Tidy, Accounted;
    InitOk(blank);
    SinkOf(After(blank, actions), i);
    OwnedRun(Init(blank), actions, i);
    InitOwned(blank, i);
    IdsOnce(CAPACITY, id);
  }

  lemma InitOwned<T>(blank: Queued<T>, i: nat)
    requires i < SINKS
    ensures Init(blank).sinks[i].owned == multiset(Ids(CAPACITY))
  {
    hide Ids;
  }

  /** Emitted = sent + counted as dropped + pending + unsent batch + in flight, event by event. */
  lemma EveryEventAccounted<T>(blank: Queued<T>, actions: seq<Action<T>>, i: nat)
    requires i < SINKS
    ensures Shape(After(blank, actions).sinks[i])
    ensures Accounted(After(blank, actions).sinks[i], Flight(After(blank, actions), i))
    ensures After(blank, actions).sinks[i].log.offered == Emitted(blank, actions, i)
  {
    hide SystemInv, After, Run, Numbered, Placed, Accounted, EachOnce, Shape, Tidy, Emitted;
    OfferedIsEmitted(blank, actions, i);
    SinkOf(After(blank, actions), i);
  }

  /** The batch array is never too small. */
  lemma BatchHoldsAll<T>(blank: Queued<T>, actions: seq<Action<T>>, i: nat)
    requires i < SINKS
    ensures |After(blank, actions).sinks[i].pending| <= CAPACITY
    ensures Flush(After(blank, actions).sinks[i]).dropped == After(blank, actions).sinks[i].dropped
  {
    hide After, Run, Numbered, Placed, Accounted, EachOnce, Shape, Tidy, Sort, Flush;
    var s := After(blank, actions);
    SinkOf(s, i);
    OwnedSize(s.sinks[i]);
    NoSurplus(s.sinks[i], Held(s, i));
    NothingTrimmed(s.sinks[i], Held(s, i));
  }

  /** A step of one sink's worker, or the producer's on one sink, leaves the other sink alone. */
  lemma Isolation<T>(s: System<T>, a: Action<T>, i: nat)
    requires Formed(s) && Enabled(s, a) && i < SINKS
    requires a.Work? || a.MarkRunning? ==> a.sink != i
    requires a.Advance? ==> s.emitter.target != i
    ensures Step(s, a).sinks[i] == s.sinks[i]
  {
    hide WorkerStep, Decide, Shape, Pop, Push, Lose;
  }

  lemma AscendingAt<T>(a: seq<Queued<T>>, item: Queued<T>)
    requires Ascending(a) && a != [] && item in a
    ensures item.sequence <= a[|a| - 1].sequence
    ensures item.sequence == a[|a| - 1].sequence ==> item == a[|a| - 1]
  {
    var i :| 0 <= i < |a| && a[i] == item;
  }

  lemma LastOff<T>(a: seq<Queued<T>>)
    requires a != []
    ensures multiset(a[..|a| - 1]) == multiset(a) - multiset{a[|a| - 1]}
    ensures Ascending(a) ==> Ascending(a[..|a| - 1])
  {
    assert a == a[..|a| - 1] + [a[|a| - 1]];
  }

  /** Emission order is determined by which events there are. */
  lemma {:induction false} AscendingUnique<T>(a: seq<Queued<T>>, b: seq<Queued<T>>)
    requires Ascending(a) && Ascending(b) && multiset(a) == multiset(b)
    ensures a == b
  {
    hide Ascending;
    assert |a| == |multiset(a)| == |multiset(b)| == |b|;
    if a == [] {
    } else {
      var last := |a| - 1;
      assert a[last] in multiset(b) && b[last] in multiset(a);
      AscendingAt(a, b[last]);
      AscendingAt(b, a[last]);
      LastOff(a);
      LastOff(b);
      AscendingUnique(a[..last], b[..last]);
      assert a == a[..last] + [a[last]] && b == b[..last] + [b[last]];
    }
  }

  // ---------- Loss is told ----------

  /** The worker has nothing left to do: nothing queued, every counted drop reported, no producer at this sink. */
  predicate Quiescent<T>(s: System<T>, i: nat)
    requires i < |s.sinks|
  {
    var k := s.sinks[i];
    k.worker.phase.Flushing? && k.pending == [] && k.dropped == k.worker.reported && Flight(s, i).None?
  }

  lemma SettledBooks<T>(k: Sink<T>, held: Option<NodeId>)
    requires Booked(k, held, None) && k.worker.phase.Flushing? && k.pending == []
    ensures multiset(k.log.offered) == multiset(k.log.delivered) + multiset(k.log.lost) && k.dropped == |k.log.lost|
  {
    hide Places;
    assert At(k.nodes, k.pending) == [] && At(k.nodes, k.worker.batch) == [];
  }

  lemma SettledNotices<T>(k: Sink<T>, held: Option<NodeId>, bound: nat)
    requires Numbered(k, held, None, bound) && k.worker.phase.Flushing? && k.dropped == k.worker.reported
    ensures Ascending(k.log.offered) && Ascending(k.log.delivered)
    ensures |DataOf(k.log.wire)| <= |k.log.delivered|
    ensures k.dropped == 0 && k.worker.owed.None? ==> DataOf(k.log.wire) == k.log.delivered
    ensures k.dropped > 0 <==> exists j :: 0 <= j < |k.log.wire| && k.log.wire[j].Notice?
    ensures k.dropped > 0 ==> HasNotice(k.log.wire, Report(k.dropped))
  {
    hide At, DataOf, Mark;
  }

  lemma NoneOwed<T>(k: Sink<T>, held: Option<NodeId>)
    requires Booked(k, held, None) && k.worker.phase.Flushing?
    ensures k.worker.owed.None?
  {
    hide Placed, Accounted, Shape;
  }

  /**
   On any connection, a sink whose worker is idle and that has put no notice on the current
   pipe has put there exactly the events ever emitted while it was running, in emission order; and the other way.
   */
  lemma NoSilentLoss<T>(blank: Queued<T>, actions: seq<Action<T>>, i: nat)
    requires i < SINKS && Quiescent(After(blank, actions), i)
    ensures var k := After(blank, actions).sinks[i];
      (forall j | 0 <= j < |k.log.wire| :: !k.log.wire[j].Notice?)
        <==> DataOf(k.log.wire) == Emitted(blank, actions, i)
  {
    hide SystemInv, After, Run, EachOnce, Booked, Numbered, DataOf, Ascending, Emitted;
    OfferedIsEmitted(blank, actions, i);
    var s := After(blank, actions);
    var k := s.sinks[i];
    SinkOf(s, i);
    SettledBooks(k, Held(s, i));
    SettledNotices(k, Held(s, i), Bound(s, i));
    NoneOwed(k, Held(s, i));
    if k.dropped == 0 {
      assert k.log.lost == [];
      AscendingUnique(k.log.offered, k.log.delivered);
    } else {
      assert |multiset(k.log.offered)| == |multiset(k.log.delivered)| + |multiset(k.log.lost)|;
      assert |k.log.offered| > |DataOf(k.log.wire)|;
    }
  }

  /** On any connection, an idle worker has told how many events were lost, and told of loss only when there was. */
  lemma LossIsTold<T>(blank: Queued<T>, actions: seq<Action<T>>, i: nat)
    requires i < SINKS && Quiescent(After(blank, actions), i)
    ensures var k := After(blank, actions).sinks[i];
      && multiset(Emitted(blank, actions, i)) == multiset(k.log.delivered) + multiset(k.log.lost)
      && (k.log.lost != [] <==> exists j :: 0 <= j < |k.log.wire| && k.log.wire[j].Notice?)
      && (k.log.lost != [] ==> HasNotice(k.log.wire, Report(|k.log.lost|)))
  {
    hide SystemInv, After, Run, EachOnce, Booked, Numbered, DataOf, Ascending, HasNotice, Emitted;
    OfferedIsEmitted(blank, actions, i);
    var s := After(blank, actions);
    SinkOf(s, i);
    SettledBooks(s.sinks[i], Held(s, i));
    SettledNotices(s.sinks[i], Held(s, i), Bound(s, i));
  }

  // ---------- What a notice says ----------

  /** The worker holds the emit lock and finds the queue empty: it is about to number a notice. */
  predicate AboutToNotify<T>(s: System<T>, i: nat)
    requires i < |s.sinks|
  {
    s.sinks[i].worker.phase.Deciding? && s.sinks[i].pending == [] && s.emitter.Idle?
  }

  lemma DecidingBooks<T>(k: Sink<T>)
    requires Booked(k, None, None) && k.worker.phase.Deciding? && k.pending == []
    ensures multiset(k.log.offered) == multiset(k.log.delivered) + multiset(k.log.lost) && k.dropped == |k.log.lost|
  {
    hide Places;
    assert At(k.nodes, k.pending) == [] && At(k.nodes, k.worker.batch) == [];
  }

  /** Every event emitted before the notice was sent or counted in the sink's drop counter. */
  lemma NoticeCovers<T>(blank: Queued<T>, actions: seq<Action<T>>, i: nat)
    requires i < SINKS && AboutToNotify(After(blank, actions), i)
    ensures var s := After(blank, actions);
      var k, number := s.sinks[i], WorkStep(s, i, true).sinks[i].worker.number;
      && multiset(Emitted(blank, actions, i)) == multiset(k.log.delivered) + multiset(k.log.lost)
      && k.dropped == |k.log.lost|
      && (forall j | 0 <= j < |Emitted(blank, actions, i)| :: Emitted(blank, actions, i)[j].sequence < number)
  {
    hide After, Run, EachOnce, Booked, Ordered, Reported, Shape, Emitted;
    OfferedIsEmitted(blank, actions, i);
    var s := After(blank, actions);
    SinkOf(s, i);
    DecidingBooks(s.sinks[i]);
  }

  lemma DecidingReport<T>(k: Sink<T>)
    requires Reported(k, false) && k.worker.phase.Deciding? && k.pending == []
    ensures Report(k.worker.drops) == Report(k.dropped) <==> !k.worker.raced || k.worker.drops >= MAX_REPORT
    ensures k.worker.drops <= k.dropped <= k.worker.drops + 1
  {
    hide DataOf, HasNotice;
  }

  /**
   The value the notice carries is the drop counter at that instant exactly when no refused
   emission stood between its failed pop and its increment while the counter was read (or
   the value is saturated); otherwise it is one short.
   */
  lemma NoticeExact<T>(blank: Queued<T>, actions: seq<Action<T>>, i: nat)
    requires i < SINKS && AboutToNotify(After(blank, actions), i)
    ensures var k := After(blank, actions).sinks[i];
      && (Report(k.worker.drops) == Report(k.dropped) <==> !k.worker.raced || k.worker.drops >= MAX_REPORT)
      && k.worker.drops <= k.dropped <= k.worker.drops + 1
  {
    hide SystemInv, After, Run, EachOnce, Booked, Ordered, Reported, Shape;
    var s := After(blank, actions);
    SinkOf(s, i);
    DecidingReport(s.sinks[i]);
  }
}
