/** The sink invariant survives every step, whatever the interleaving. */
module SinkSafety {
  import opened Bytes
  import opened Sinks
  import opened SinkSteps

  lemma ShapeOf<T>(k: Sink<T>, held: Option<NodeId>, flight: Option<Queued<T>>, bound: nat)
    requires SinkInv(k, held, flight, bound)
    ensures Shape(k) && Tidy(k) && (held.Some? ==> held.value < CAPACITY)
  {
    hide Placed, Accounted, Numbered, Shape, Tidy;
  }

  // The parts of the invariant, and the whole from the parts.
  lemma PartsOf<T>(k: Sink<T>, held: Option<NodeId>, flight: Option<Queued<T>>, bound: nat)
    requires SinkInv(k, held, flight, bound)
    ensures Shape(k) && Tidy(k) && Placed(k, held) && Accounted(k, flight) && Ordered(k, bound)
    ensures Reported(k, Refusing(held, flight)) && Continued(k)
  {
    hide Shape, Tidy, Placed, Accounted, Ordered, Reported, Continued, OfferedOrdered;
  }

  lemma Assembled<T>(k: Sink<T>, n: Sink<T>, held: Option<NodeId>, flight: Option<Queued<T>>, bound: nat)
    requires SinkInv(k, held, flight, bound) && n.log.offered == k.log.offered
    requires Shape(n) && Tidy(n) && Placed(n, held) && Accounted(n, flight) && Ordered(n, bound)
    requires Reported(n, Refusing(held, flight)) && Continued(n)
    ensures SinkInv(n, held, flight, bound)
  {
    hide Shape, Tidy, Placed, Accounted, Ordered, Reported, Continued, Refusing;
  }

  lemma RefreeKeeps<T>(k: Sink<T>, held: Option<NodeId>, flight: Option<Queued<T>>, bound: nat)
    requires SinkInv(k, held, flight, bound) && k.worker.spent.Some?
    ensures SinkInv(Refree(k), held, flight, bound)
  {
    hide Shape, Tidy, Placed, Accounted, Ordered, Reported, Continued, SinkInv, Refusing;
    PartsOf(k, held, flight, bound);
    RefreePlaced(k, held);
    RefreeAccounted(k, flight);
    RefreeOrdered(k, bound);
    RefreeQuietly(k, Refusing(held, flight));
    StillContinued(k, Refree(k));
    Assembled(k, Refree(k), held, flight, bound);
  }

  lemma FlushedQuietly<T>(k: Sink<T>, n: Sink<T>, refusing: bool)
    requires Tidy(k) && Reported(k, refusing) && k.worker.phase.Flushing?
    requires n == k.(pending := [], worker := k.worker.(phase := Sending, batch := n.worker.batch))
    ensures Tidy(n) && Reported(n, refusing)
  {
    hide HasNotice;
  }

  lemma FlushQuietly<T>(k: Sink<T>, held: Option<NodeId>, refusing: bool)
    requires Shape(k) && Placed(k, held) && |k.owned| == CAPACITY && Tidy(k) && Reported(k, refusing)
      && k.worker.phase.Flushing?
    ensures Tidy(Flush(k)) && Reported(Flush(k), refusing) && Flush(k).log == k.log && Flush(k).dropped == k.dropped
    ensures Flush(k).worker.phase.Sending? && Flush(k).worker.owed == k.worker.owed
  {
    hide Flush, Sort, At, HasNotice, Placed, Reported, Tidy;
    NothingTrimmed(k, held);
    FlushedQuietly(k, Flush(k), refusing);
  }

  // Moves of the worker's program counter that touch nothing else.
  lemma GotoKeeps<T>(k: Sink<T>, held: Option<NodeId>, flight: Option<Queued<T>>, bound: nat, to: Phase)
    requires SinkInv(k, held, flight, bound)
    requires k.worker.batch == [] && k.worker.spent.None? && k.worker.owed.None? && !k.worker.phase.Noticing?
    requires if Connected(k.worker.phase) then to.Flushing? || to.Counting? else to.Connecting? || to.Greeting?
    ensures SinkInv(Goto(k, to), held, flight, bound)
  {
    hide Shape, Tidy, Placed, Accounted, Ordered, Reported, Continued, SinkInv, Refusing;
    PartsOf(k, held, flight, bound);
    GotoInPlace(k, held, flight, to);
    GotoOrdered(k, bound, to);
    GotoQuietly(k, Refusing(held, flight), to);
    StillContinued(k, Goto(k, to));
    Assembled(k, Goto(k, to), held, flight, bound);
  }

  lemma RecycleBooked<T>(k: Sink<T>, held: Option<NodeId>, flight: Option<Queued<T>>)
    requires Booked(k, held, flight) && (k.worker.phase.Connecting? || k.worker.phase.Greeting?)
    ensures Booked(Recycle(k), held, flight)
  {
    RecycleTidy(k);
    RecyclePlaced(k, held);
    RecycleAccounted(k, flight);
  }

  lemma RecycleNumbered<T>(k: Sink<T>, held: Option<NodeId>, flight: Option<Queued<T>>, bound: nat)
    requires Numbered(k, held, flight, bound) && (k.worker.phase.Connecting? || k.worker.phase.Greeting?)
    requires k.worker.batch == []
    ensures Numbered(Recycle(k), held, flight, bound)
  {
    hide Continued;
    StillContinued(k, Recycle(k));
    RecycleOrdered(k, bound);
    RecycleReported(k, Refusing(held, flight));
  }

  lemma RecycleKeeps<T>(k: Sink<T>, held: Option<NodeId>, flight: Option<Queued<T>>, bound: nat)
    requires SinkInv(k, held, flight, bound) && (k.worker.phase.Connecting? || k.worker.phase.Greeting?)
    ensures SinkInv(Recycle(k), held, flight, bound)
  {
    RecycleBooked(k, held, flight);
    RecycleNumbered(k, held, flight, bound);
  }

  lemma CountFirstKeeps<T>(k: Sink<T>, held: Option<NodeId>, flight: Option<Queued<T>>, bound: nat)
    requires SinkInv(k, held, flight, bound) && (k.worker.phase.Recycling? || k.worker.phase.Abandoning?)
    requires k.worker.batch != [] && k.worker.spent.None?
    ensures SinkInv(CountFirst(k), held, flight, bound)
  {
    hide Shape, Tidy, Placed, Accounted, Ordered, Reported, Continued, SinkInv, Refusing;
    PartsOf(k, held, flight, bound);
    CountFirstPlaced(k, held);
    CountFirstAccounted(k, flight);
    CountFirstOrdered(k, bound);
    CountFirstQuietly(k, Refusing(held, flight));
    StillContinued(k, CountFirst(k));
    Assembled(k, CountFirst(k), held, flight, bound);
  }

  lemma CountOwedKeeps<T>(k: Sink<T>, held: Option<NodeId>, flight: Option<Queued<T>>, bound: nat)
    requires SinkInv(k, held, flight, bound) && k.worker.phase.Abandoning? && k.worker.owed.Some?
    ensures SinkInv(CountOwed(k), held, flight, bound)
  {
    hide Shape, Tidy, Placed, Accounted, Ordered, Reported, Continued, SinkInv, Refusing;
    PartsOf(k, held, flight, bound);
    CountOwedAccounted(k, flight);
    CountOwedInPlace(k, held, bound);
    CountOwedQuietly(k, Refusing(held, flight));
    StillContinued(k, CountOwed(k));
    Assembled(k, CountOwed(k), held, flight, bound);
  }

  lemma FlushKeeps<T>(k: Sink<T>, held: Option<NodeId>, flight: Option<Queued<T>>, bound: nat)
    requires SinkInv(k, held, flight, bound) && k.worker.phase.Flushing? && |k.owned| == CAPACITY
    ensures SinkInv(Flush(k), held, flight, bound)
  {
    hide Shape, Tidy, Placed, Accounted, Ordered, Reported, Continued, SinkInv, Refusing, Flush;
    PartsOf(k, held, flight, bound);
    TidyHands(k);
    FlushPlaced(k, held);
    FlushAccounted(k, held, flight);
    FlushOrdered(k, held, bound);
    FlushQuietly(k, held, Refusing(held, flight));
    StillContinued(k, Flush(k));
    Assembled(k, Flush(k), held, flight, bound);
  }

  lemma SentKeeps<T>(k: Sink<T>, held: Option<NodeId>, flight: Option<Queued<T>>, bound: nat)
    requires SinkInv(k, held, flight, bound) && k.worker.phase.Sending? && k.worker.batch != [] && k.worker.spent.None?
    ensures SinkInv(Send(k, true), held, flight, bound)
  {
    hide Shape, Tidy, Placed, Accounted, Ordered, Reported, Continued, SinkInv, Refusing, Send;
    PartsOf(k, held, flight, bound);
    SendPlaced(k, held, true);
    SentAccounted(k, flight);
    SentOrdered(k, bound);
    SentReported(k, Refusing(held, flight));
    SentContinued(k);
    SendTidy(k, true);
    Assembled(k, Send(k, true), held, flight, bound);
  }

  lemma FailedKeeps<T>(k: Sink<T>, held: Option<NodeId>, flight: Option<Queued<T>>, bound: nat)
    requires SinkInv(k, held, flight, bound) && k.worker.phase.Sending? && k.worker.batch != [] && k.worker.spent.None?
    ensures SinkInv(Send(k, false), held, flight, bound)
  {
    hide Shape, Tidy, Placed, Accounted, Ordered, Reported, Continued, SinkInv, Refusing, Send;
    PartsOf(k, held, flight, bound);
    SendTidy(k, false);
    SendPlaced(k, held, false);
    FailedAccounted(k, flight);
    FailedOrdered(k, bound);
    FailedReported(k, Refusing(held, flight));
    FailedContinued(k);
    Assembled(k, Send(k, false), held, flight, bound);
  }

  lemma GreetKeeps<T>(k: Sink<T>, held: Option<NodeId>, flight: Option<Queued<T>>, bound: nat)
    requires SinkInv(k, held, flight, bound) && k.worker.phase.Greeting?
    ensures SinkInv(Greeted(k), held, flight, bound)
  {
    hide Shape, Tidy, Placed, Accounted, Ordered, Reported, Continued, SinkInv, Refusing;
    PartsOf(k, held, flight, bound);
    TidyHands(k);
    QuietTidy(k, false);
    QuietInPlace(k, Greeted(k), held, flight);
    GreetOrdered(k, bound);
    GreetReported(k, Refusing(held, flight));
    GreetContinued(k);
    Assembled(k, Greeted(k), held, flight, bound);
  }

  lemma CountKeeps<T>(k: Sink<T>, held: Option<NodeId>, flight: Option<Queued<T>>, bound: nat)
    requires SinkInv(k, held, flight, bound) && k.worker.phase.Counting? && k.dropped != k.worker.reported
    ensures SinkInv(Counted(k, Refusing(held, flight)), held, flight, bound)
  {
    hide Shape, Tidy, Placed, Accounted, Ordered, Reported, Continued, SinkInv, Refusing;
    PartsOf(k, held, flight, bound);
    TidyHands(k);
    var n := Counted(k, Refusing(held, flight));
    QuietTidy(k, Refusing(held, flight));
    QuietInPlace(k, n, held, flight);
    CountReported(k, Refusing(held, flight));
    CountOrdered(k, Refusing(held, flight), bound);
    StillContinued(k, n);
    Assembled(k, n, held, flight, bound);
  }

  lemma NoticedKeeps<T>(k: Sink<T>, held: Option<NodeId>, flight: Option<Queued<T>>, bound: nat)
    requires SinkInv(k, held, flight, bound) && k.worker.phase.Noticing?
    ensures SinkInv(Noticed(k), held, flight, bound)
  {
    hide Shape, Tidy, Placed, Accounted, Ordered, Reported, Continued, SinkInv, Refusing;
    PartsOf(k, held, flight, bound);
    TidyHands(k);
    QuietTidy(k, false);
    QuietInPlace(k, Noticed(k), held, flight);
    NoticedOrdered(k, bound);
    NoticedReported(k, Refusing(held, flight));
    NoticedContinued(k, Refusing(held, flight));
    Assembled(k, Noticed(k), held, flight, bound);
  }

  lemma UnnoticedKeeps<T>(k: Sink<T>, held: Option<NodeId>, flight: Option<Queued<T>>, bound: nat)
    requires SinkInv(k, held, flight, bound) && k.worker.phase.Noticing?
    ensures SinkInv(Unnoticed(k), held, flight, bound)
  {
    hide Shape, Tidy, Placed, Accounted, Ordered, Reported, Continued, SinkInv, Refusing;
    PartsOf(k, held, flight, bound);
    TidyHands(k);
    QuietTidy(k, false);
    QuietInPlace(k, Unnoticed(k), held, flight);
    UnnoticedOrdered(k, bound);
    UnnoticedReported(k, Refusing(held, flight));
    NoticedContinued(k, Refusing(held, flight));
    Assembled(k, Unnoticed(k), held, flight, bound);
  }

  // The same, as the worker's step in each situation.
  lemma RefreeStep<T>(k: Sink<T>, held: Option<NodeId>, flight: Option<Queued<T>>, bound: nat, ok: bool)
    requires SinkInv(k, held, flight, bound) && Busy(k.worker.phase) && k.worker.spent.Some?
    ensures SinkInv(WorkerStep(k, ok, Refusing(held, flight)), held, flight, bound)
  {
    hide SinkInv, WorkerStep, Shape;
    ShapeOf(k, held, flight, bound);
    RefreeKeeps(k, held, flight, bound);
    RefreeIs(k, ok, Refusing(held, flight));
  }

  lemma CountFirstStep<T>(k: Sink<T>, held: Option<NodeId>, flight: Option<Queued<T>>, bound: nat, ok: bool)
    requires SinkInv(k, held, flight, bound) && (k.worker.phase.Recycling? || k.worker.phase.Abandoning?)
    requires k.worker.spent.None? && k.worker.owed.None? && k.worker.batch != []
    ensures SinkInv(WorkerStep(k, ok, Refusing(held, flight)), held, flight, bound)
  {
    hide SinkInv, WorkerStep, Shape;
    ShapeOf(k, held, flight, bound);
    CountFirstKeeps(k, held, flight, bound);
    CountFirstIs(k, ok, Refusing(held, flight));
  }

  lemma CountOwedStep<T>(k: Sink<T>, held: Option<NodeId>, flight: Option<Queued<T>>, bound: nat, ok: bool)
    requires SinkInv(k, held, flight, bound) && k.worker.phase.Abandoning?
    requires k.worker.spent.None? && k.worker.owed.Some?
    ensures SinkInv(WorkerStep(k, ok, Refusing(held, flight)), held, flight, bound)
  {
    hide SinkInv, WorkerStep, Shape;
    ShapeOf(k, held, flight, bound);
    CountOwedKeeps(k, held, flight, bound);
    CountOwedIs(k, ok, Refusing(held, flight));
  }

  lemma SendStep<T>(k: Sink<T>, held: Option<NodeId>, flight: Option<Queued<T>>, bound: nat, ok: bool)
    requires SinkInv(k, held, flight, bound) && k.worker.phase.Sending?
    requires k.worker.spent.None? && k.worker.batch != []
    ensures SinkInv(WorkerStep(k, ok, Refusing(held, flight)), held, flight, bound)
  {
    hide SinkInv, WorkerStep, Shape;
    ShapeOf(k, held, flight, bound);
    SendIs(k, ok, Refusing(held, flight));
    if ok {
      SentKeeps(k, held, flight, bound);
    } else {
      FailedKeeps(k, held, flight, bound);
    }
  }

  lemma FinishStep<T>(k: Sink<T>, held: Option<NodeId>, flight: Option<Queued<T>>, bound: nat, ok: bool)
    requires SinkInv(k, held, flight, bound) && Busy(k.worker.phase)
    requires k.worker.spent.None? && k.worker.owed.None? && k.worker.batch == []
    ensures SinkInv(WorkerStep(k, ok, Refusing(held, flight)), held, flight, bound)
  {
    hide SinkInv, Shape, Refusing;
    ShapeOf(k, held, flight, bound);
    var to := if k.worker.phase.Sending? then Counting else Connecting;
    GotoKeeps(k, held, flight, bound, to);
    assert WorkerStep(k, ok, Refusing(held, flight)) == Goto(k, to);
  }

  lemma BusyKeeps<T>(k: Sink<T>, held: Option<NodeId>, flight: Option<Queued<T>>, bound: nat, ok: bool)
    requires SinkInv(k, held, flight, bound) && Busy(k.worker.phase)
    ensures SinkInv(WorkerStep(k, ok, Refusing(held, flight)), held, flight, bound)
  {
    hide SinkInv, Shape, WorkerStep;
    ShapeOf(k, held, flight, bound);
    if k.worker.spent.Some? {
      RefreeStep(k, held, flight, bound, ok);
    } else if k.worker.owed.Some? {
      CountOwedStep(k, held, flight, bound, ok);
    } else if k.worker.batch == [] {
      FinishStep(k, held, flight, bound, ok);
    } else if k.worker.phase.Sending? {
      SendStep(k, held, flight, bound, ok);
    } else {
      CountFirstStep(k, held, flight, bound, ok);
    }
  }

  lemma ConnectingKeeps<T>(k: Sink<T>, held: Option<NodeId>, flight: Option<Queued<T>>, bound: nat, ok: bool)
    requires SinkInv(k, held, flight, bound)
    requires k.worker.phase.NotStarted? || k.worker.phase.Connecting? || k.worker.phase.Greeting?
    ensures SinkInv(WorkerStep(k, ok, Refusing(held, flight)), held, flight, bound)
  {
    hide SinkInv, Shape, Refusing;
    ShapeOf(k, held, flight, bound);
    TidyHands(k);
    var next := WorkerStep(k, ok, Refusing(held, flight));
    if k.worker.phase.NotStarted? {
      GotoKeeps(k, held, flight, bound, Connecting);
      assert next == Goto(k, Connecting);
    } else if !ok {
      RecycleKeeps(k, held, flight, bound);
      assert next == Recycle(k);
    } else if k.worker.phase.Connecting? {
      GotoKeeps(k, held, flight, bound, Greeting);
      assert next == Goto(k, Greeting);
    } else {
      GreetKeeps(k, held, flight, bound);
    }
  }

  lemma CountingKeeps<T>(k: Sink<T>, held: Option<NodeId>, flight: Option<Queued<T>>, bound: nat, ok: bool)
    requires SinkInv(k, held, flight, bound) && k.worker.phase.Counting?
    ensures SinkInv(WorkerStep(k, ok, Refusing(held, flight)), held, flight, bound)
  {
    hide SinkInv, Refusing, Shape;
    ShapeOf(k, held, flight, bound);
    var next := WorkerStep(k, ok, Refusing(held, flight));
    if k.dropped == k.worker.reported {
      GotoKeeps(k, held, flight, bound, Flushing);
      assert next == Goto(k, Flushing);
    } else {
      CountKeeps(k, held, flight, bound);
    }
  }

  /** The worker's steps outside the lock. */
  lemma WorkerKeeps<T>(k: Sink<T>, held: Option<NodeId>, flight: Option<Queued<T>>, bound: nat, ok: bool)
    requires SinkInv(k, held, flight, bound) && !k.worker.phase.Deciding? && |k.owned| == CAPACITY
    ensures SinkInv(WorkerStep(k, ok, Refusing(held, flight)), held, flight, bound)
  {
    hide SinkInv, Shape, Refusing;
    match k.worker.phase
    case Recycling => BusyKeeps(k, held, flight, bound, ok);
    case Sending => BusyKeeps(k, held, flight, bound, ok);
    case Abandoning => BusyKeeps(k, held, flight, bound, ok);
    case Flushing => FlushKeeps(k, held, flight, bound);
    case Counting => CountingKeeps(k, held, flight, bound, ok);
    case Noticing =>
      if ok { NoticedKeeps(k, held, flight, bound); } else { UnnoticedKeeps(k, held, flight, bound); }
    case _ => ConnectingKeeps(k, held, flight, bound, ok);
  }

  /** The section under the lock, with no emission in progress. */
  lemma DecideKeeps<T>(k: Sink<T>, bound: nat)
    requires SinkInv(k, None, None, bound) && k.worker.phase.Deciding?
    ensures SinkInv(Decide(k, bound + 1), None, None, if k.pending == [] then bound + 1 else bound)
    ensures Decide(k, bound + 1).owned == k.owned
  {
    if k.pending == [] {
      DecideOrdered(k, bound);
      assert Places(Decide(k, bound + 1), None) == Places(k, None);
    } else {
      GotoKeeps(k, None, None, bound, Flushing);
    }
  }

  lemma RaiseBound<T>(k: Sink<T>, bound: nat)
    requires SinkInv(k, None, None, bound)
    ensures SinkInv(k, None, None, bound + 1)
  {
  }

  // ---------- The emitter ----------

  ghost predicate EachOnce(owned: multiset<NodeId>) { |owned| == CAPACITY && forall id :: owned[id] <= 1 }

  lemma PopPlaced<T>(k: Sink<T>, item: Queued<T>)
    requires Placed(k, None) && k.free != []
    ensures Placed(Pop(k, item), Some(k.free[0]))
  {
    assert k.free == [k.free[0]] + k.free[1..];
  }

  lemma PopAccounted<T>(k: Sink<T>, item: Queued<T>)
    requires Shape(k) && Accounted(k, None)
    ensures Shape(Pop(k, item)) && Accounted(Pop(k, item), Some(item))
  {
    var n := Pop(k, item);
    assert Shape(n) && n.nodes == k.nodes && n.pending == k.pending && n.worker == k.worker;
    hide At, Shape, Pop;
    OfferedAlso(k.log.offered, item);
  }

  lemma OfferedAlso<T>(offered: seq<Queued<T>>, item: Queued<T>)
    ensures multiset(offered + [item]) == multiset(offered) + One(Some(item))
  {
  }

  lemma OfferOrdered<T>(k: Sink<T>, item: Queued<T>, bound: nat)
    requires OfferedOrdered(k, bound) && item.sequence == bound + 1
    ensures OfferedOrdered(Pop(k, item), bound + 1)
  {
  }

  lemma PopOrdered<T>(k: Sink<T>, item: Queued<T>, bound: nat)
    requires Shape(k) && Ordered(k, bound)
    ensures Shape(Pop(k, item)) && Ordered(Pop(k, item), bound)
  {
    hide Ascending, Descending, Between, Before, WireOrdered, Sort, Insert;
  }

  // While the worker waits for the lock it holds no node, so a full pool is a non-empty queue.
  lemma RefusedWhileDeciding<T>(k: Sink<T>)
    requires Placed(k, None) && |k.owned| == CAPACITY && Tidy(k) && k.free == [] && k.worker.phase.Deciding?
    ensures k.pending != []
  {
    assert |Places(k, None)| == |k.free| + |k.pending| + |k.worker.batch|;
  }

  lemma PopReported<T>(k: Sink<T>, item: Queued<T>)
    requires Reported(k, false) && (k.free == [] && k.worker.phase.Deciding? ==> k.pending != [])
    ensures Reported(Pop(k, item), k.free == [])
  {
    hide DataOf, HasNotice;
  }

  lemma PopNumbered<T>(k: Sink<T>, item: Queued<T>, bound: nat)
    requires Numbered(k, None, None, bound) && Placed(k, None) && |k.owned| == CAPACITY
    requires Tidy(k) && item.sequence == bound + 1
    ensures Numbered(Pop(k, item), if k.free == [] then None else Some(k.free[0]), Some(item), bound)
  {
    hide Ordered, Reported, OfferedOrdered, Shape, Placed, Tidy;
    OfferOrdered(k, item, bound);
    PopOrdered(k, item, bound);
    if k.free == [] && k.worker.phase.Deciding? {
      RefusedWhileDeciding(k);
    }
    PopReported(k, item);
  }

  /** A running sink is offered the event; a node for it is taken when one is free. */
  lemma PopKeeps<T>(k: Sink<T>, item: Queued<T>, bound: nat)
    requires SinkInv(k, None, None, bound) && |k.owned| == CAPACITY && k.running && item.sequence == bound + 1
    ensures SinkInv(Pop(k, item), if k.free == [] then None else Some(k.free[0]), Some(item), bound)
  {
    PopAccounted(k, item);
    PopNumbered(k, item, bound);
    if k.free == [] {
      assert Places(Pop(k, item), None) == Places(k, None);
    } else {
      PopPlaced(k, item);
    }
  }

  lemma HeldElsewhere<T>(k: Sink<T>, node: NodeId, item: Queued<T>)
    requires Shape(k) && Placed(k, Some(node)) && node < CAPACITY && EachOnce(k.owned)
    ensures At(k.nodes[node := item], k.pending) == At(k.nodes, k.pending)
    ensures At(k.nodes[node := item], k.worker.batch) == At(k.nodes, k.worker.batch)
  {
    assert k.owned[node] <= 1;
    assert Places(k, Some(node))[node] >= multiset(k.pending)[node] + multiset(k.worker.batch)[node] + 1;
    assert node !in multiset(k.pending) && node !in multiset(k.worker.batch);
    assert forall i | 0 <= i < |k.pending| :: k.pending[i] in multiset(k.pending);
    assert forall i | 0 <= i < |k.worker.batch| :: k.worker.batch[i] in multiset(k.worker.batch);
  }

  lemma PushPlaced<T>(k: Sink<T>, node: NodeId, item: Queued<T>)
    requires Shape(k) && Placed(k, Some(node)) && node < CAPACITY
    ensures Placed(Push(k, node, item), None)
  {
    assert multiset([node] + k.pending) == multiset{node} + multiset(k.pending);
  }

  lemma PushAccounted<T>(k: Sink<T>, node: NodeId, item: Queued<T>)
    requires Shape(k) && Accounted(k, Some(item)) && Placed(k, Some(node)) && node < CAPACITY && EachOnce(k.owned)
    ensures Shape(Push(k, node, item)) && Accounted(Push(k, node, item), None)
  {
    hide At, Placed, EachOnce;
    HeldElsewhere(k, node, item);
    PushedAt(k, node, item);
    assert multiset([item] + At(k.nodes, k.pending)) == multiset{item} + multiset(At(k.nodes, k.pending));
  }

  lemma PushedAt<T>(k: Sink<T>, node: NodeId, item: Queued<T>)
    requires Shape(k) && node < CAPACITY && At(k.nodes[node := item], k.pending) == At(k.nodes, k.pending)
    ensures var n := Push(k, node, item); At(n.nodes, n.pending) == [item] + At(k.nodes, k.pending)
  {
    hide At;
    var n := Push(k, node, item);
    AtCons(n.nodes, n.pending);
    assert n.pending[1..] == k.pending;
  }

  lemma PushOrdered<T>(k: Sink<T>, node: NodeId, item: Queued<T>, bound: nat)
    requires Shape(k) && Ordered(k, bound) && Placed(k, Some(node))
    requires node < CAPACITY && EachOnce(k.owned) && item.sequence == bound + 1
    ensures Shape(Push(k, node, item)) && Ordered(Push(k, node, item), bound + 1)
  {
    hide Placed, EachOnce;
    HeldElsewhere(k, node, item);
    var n := Push(k, node, item);
    assert At(n.nodes, n.pending) == [item] + At(k.nodes, k.pending);
  }

  lemma PushNumbered<T>(k: Sink<T>, node: NodeId, item: Queued<T>, bound: nat)
    requires Numbered(k, Some(node), Some(item), bound) && Placed(k, Some(node))
    requires node < CAPACITY && EachOnce(k.owned)
    ensures Numbered(Push(k, node, item), None, None, bound + 1)
  {
    PushOrdered(k, node, item, bound);
  }

  lemma PushKeeps<T>(k: Sink<T>, node: NodeId, item: Queued<T>, bound: nat)
    requires SinkInv(k, Some(node), Some(item), bound) && EachOnce(k.owned)
    ensures SinkInv(Push(k, node, item), None, None, bound + 1)
  {
    PushPlaced(k, node, item);
    PushAccounted(k, node, item);
    PushNumbered(k, node, item, bound);
  }

  lemma LoseNumbered<T>(k: Sink<T>, item: Queued<T>, bound: nat)
    requires Numbered(k, None, Some(item), bound)
    ensures Numbered(Lose(k, item), None, None, bound + 1)
  {
  }

  /** No node was free: the event is counted as dropped. */
  lemma LoseKeeps<T>(k: Sink<T>, item: Queued<T>, bound: nat)
    requires SinkInv(k, None, Some(item), bound)
    ensures SinkInv(Lose(k, item), None, None, bound + 1)
  {
    hide Numbered, At;
    LoseNumbered(k, item, bound);
    assert Places(Lose(k, item), None) == Places(k, None);
  }

  lemma RunKeeps<T>(k: Sink<T>, held: Option<NodeId>, flight: Option<Queued<T>>, bound: nat)
    requires SinkInv(k, held, flight, bound) && !k.worker.phase.NotStarted?
    ensures SinkInv(k.(running := true), held, flight, bound)
  {
    hide Shape, Tidy, Placed, Accounted, Ordered, Reported, Continued, SinkInv, Refusing;
    PartsOf(k, held, flight, bound);
    RunInPlace(k, held, flight, bound, Refusing(held, flight));
    StillContinued(k, k.(running := true));
    Assembled(k, k.(running := true), held, flight, bound);
  }
}
