/** Every step of the worker and of the emitter keeps each part of the sink invariant. */
module SinkSteps {
  import opened Bytes
  import opened Sinks

  lemma AtFirst<T>(nodes: seq<Queued<T>>, ids: seq<NodeId>)
    requires Known(nodes, ids) && ids != []
    ensures At(nodes, ids) == [nodes[ids[0]]] + At(nodes, ids[1..])
    ensures multiset(ids) == multiset{ids[0]} + multiset(ids[1..])
    ensures multiset(At(nodes, ids)) == multiset{nodes[ids[0]]} + multiset(At(nodes, ids[1..]))
  {
    hide At;
    AtCons(nodes, ids);
    assert ids == [ids[0]] + ids[1..];
  }

  lemma InsertFirst<T>(nodes: seq<Queued<T>>, id: NodeId, sorted: seq<NodeId>)
    requires id < |nodes| && Known(nodes, sorted)
    ensures var r := Insert(nodes, id, sorted);
      if sorted == [] || nodes[id].sequence <= nodes[sorted[0]].sequence then r == [id] + sorted
      else r == [sorted[0]] + Insert(nodes, id, sorted[1..])
  {
    hide At;
  }

  lemma {:induction false} InsertItems<T>(nodes: seq<Queued<T>>, id: NodeId, sorted: seq<NodeId>)
    requires id < |nodes| && Known(nodes, sorted)
    ensures multiset(At(nodes, Insert(nodes, id, sorted))) == multiset(At(nodes, sorted)) + multiset{nodes[id]}
  {
    hide At, Insert;
    var r := Insert(nodes, id, sorted);
    InsertFirst(nodes, id, sorted);
    AtFirst(nodes, r);
    if sorted == [] || nodes[id].sequence <= nodes[sorted[0]].sequence {
      assert r[1..] == sorted;
    } else {
      InsertItems(nodes, id, sorted[1..]);
      AtFirst(nodes, sorted);
      assert r[1..] == Insert(nodes, id, sorted[1..]);
    }
  }

  lemma {:induction false} SortItems<T>(nodes: seq<Queued<T>>, ids: seq<NodeId>)
    requires Known(nodes, ids)
    ensures multiset(At(nodes, Sort(nodes, ids))) == multiset(At(nodes, ids))
  {
    if ids == [] {
    } else {
      SortItems(nodes, ids[1..]);
      InsertItems(nodes, ids[0], Sort(nodes, ids[1..]));
      AtFirst(nodes, ids);
    }
  }

  // Nothing can be left over: the pending list never outgrows the batch array.
  lemma NoSurplus<T>(k: Sink<T>, held: Option<NodeId>)
    requires Placed(k, held) && |k.owned| == CAPACITY
    ensures |k.pending| <= CAPACITY
  {
    assert |Places(k, held)| == |k.free| + |k.pending| + |k.worker.batch| + |One(k.worker.spent)| + |One(held)|;
  }

  /** The branch for more events than the batch array holds is dead. */
  lemma NothingTrimmed<T>(k: Sink<T>, held: Option<NodeId>)
    requires Shape(k) && Placed(k, held) && |k.owned| == CAPACITY
    ensures Flush(k) == k.(pending := [], worker := k.worker.(phase := Sending, batch := Sort(k.nodes, k.pending)))
  {
    NoSurplus(k, held);
    assert k.pending[..|k.pending|] == k.pending;
    assert k.pending[|k.pending|..] == [] && [] + k.free == k.free;
    assert k.log.lost + At(k.nodes, []) == k.log.lost;
  }

  // ---------- Where the nodes are ----------

  lemma RefreePlaced<T>(k: Sink<T>, held: Option<NodeId>)
    requires Placed(k, held) && k.worker.spent.Some?
    ensures Placed(Refree(k), held)
  {
    assert multiset(Refree(k).free) == multiset{k.worker.spent.value} + multiset(k.free);
  }

  lemma CountFirstPlaced<T>(k: Sink<T>, held: Option<NodeId>)
    requires Shape(k) && Placed(k, held) && k.worker.batch != [] && k.worker.spent.None?
    ensures Placed(CountFirst(k), held)
  {
    AtFirst(k.nodes, k.worker.batch);
  }

  lemma SendPlaced<T>(k: Sink<T>, held: Option<NodeId>, ok: bool)
    requires Shape(k) && Placed(k, held) && k.worker.batch != [] && k.worker.spent.None?
    ensures Placed(Send(k, ok), held)
  {
    AtFirst(k.nodes, k.worker.batch);
    CountFirstPlaced(k, held);
    assert Places(Send(k, ok), held) == Places(CountFirst(k), held);
  }

  lemma RecyclePlaced<T>(k: Sink<T>, held: Option<NodeId>)
    requires Placed(k, held) && k.worker.batch == []
    ensures Placed(Recycle(k), held)
  {
  }

  lemma FlushPlaced<T>(k: Sink<T>, held: Option<NodeId>)
    requires Shape(k) && Placed(k, held) && k.worker.batch == [] && |k.owned| == CAPACITY
    ensures Placed(Flush(k), held)
  {
    NothingTrimmed(k, held);
  }

  // ---------- Where the events are ----------

  lemma CountFirstAccounted<T>(k: Sink<T>, flight: Option<Queued<T>>)
    requires Shape(k) && Accounted(k, flight) && k.worker.batch != []
    ensures Accounted(CountFirst(k), flight)
  {
    AtFirst(k.nodes, k.worker.batch);
  }

  lemma SentAccounted<T>(k: Sink<T>, flight: Option<Queued<T>>)
    requires Shape(k) && Accounted(k, flight) && k.worker.batch != []
    ensures Accounted(Send(k, true), flight)
  {
    AtFirst(k.nodes, k.worker.batch);
  }

  lemma FailedAccounted<T>(k: Sink<T>, flight: Option<Queued<T>>)
    requires Shape(k) && Accounted(k, flight) && k.worker.batch != [] && k.worker.owed.None?
    ensures Accounted(Send(k, false), flight)
  {
    AtFirst(k.nodes, k.worker.batch);
  }

  lemma CountOwedAccounted<T>(k: Sink<T>, flight: Option<Queued<T>>)
    requires Shape(k) && Accounted(k, flight) && k.worker.owed.Some?
    ensures Accounted(CountOwed(k), flight)
  {
  }

  lemma RecycleAccounted<T>(k: Sink<T>, flight: Option<Queued<T>>)
    requires Shape(k) && Accounted(k, flight) && k.worker.batch == []
    ensures Shape(Recycle(k)) && Accounted(Recycle(k), flight)
  {
    assert At(k.nodes, []) == [];
  }

  lemma FlushAccounted<T>(k: Sink<T>, held: Option<NodeId>, flight: Option<Queued<T>>)
    requires Shape(k) && Placed(k, held) && Accounted(k, flight) && k.worker.batch == [] && |k.owned| == CAPACITY
    ensures Shape(Flush(k)) && Accounted(Flush(k), flight)
  {
    hide At, Sort, Placed, Known;
    NothingTrimmed(k, held);
    SortItems(k.nodes, k.pending);
    AtNone(k.nodes);
  }

  lemma AtNone<T>(nodes: seq<Queued<T>>)
    ensures At(nodes, []) == []
  {
  }

  // ---------- Numbers grow ----------

  lemma CountFirstOrdered<T>(k: Sink<T>, bound: nat)
    requires Shape(k) && Ordered(k, bound) && k.worker.batch != []
    ensures Ordered(CountFirst(k), bound)
  {
    AtFirst(k.nodes, k.worker.batch);
    assert At(k.nodes, k.worker.batch[1..]) == At(k.nodes, k.worker.batch)[1..];
  }

  lemma SentOrdered<T>(k: Sink<T>, bound: nat)
    requires Shape(k) && Ordered(k, bound) && k.worker.batch != [] && k.worker.phase.Sending?
    ensures Ordered(Send(k, true), bound)
  {
    hide At;
    AtTail(k.nodes, k.worker.batch);
    assert Mark(Send(k, true)) == At(k.nodes, k.worker.batch)[0].sequence;
  }

  lemma AtTail<T>(nodes: seq<Queued<T>>, ids: seq<NodeId>)
    requires Known(nodes, ids) && ids != []
    ensures At(nodes, ids)[0] == nodes[ids[0]] && At(nodes, ids[1..]) == At(nodes, ids)[1..]
  {
  }

  lemma FailedOrdered<T>(k: Sink<T>, bound: nat)
    requires Shape(k) && Ordered(k, bound) && k.worker.batch != [] && k.worker.phase.Sending?
    ensures Ordered(Send(k, false), bound)
  {
    CountFirstOrdered(k, bound);
  }

  lemma RecycleOrdered<T>(k: Sink<T>, bound: nat)
    requires Shape(k) && Ordered(k, bound) && k.worker.batch == [] && !k.worker.phase.Noticing?
    ensures Shape(Recycle(k)) && Ordered(Recycle(k), bound)
  {
  }

  lemma FlushOrdered<T>(k: Sink<T>, held: Option<NodeId>, bound: nat)
    requires Shape(k) && Placed(k, held) && Ordered(k, bound) && k.worker.phase.Flushing? && |k.owned| == CAPACITY
    ensures Shape(Flush(k)) && Ordered(Flush(k), bound)
  {
    NothingTrimmed(k, held);
    var pending, batch := At(k.nodes, k.pending), At(k.nodes, Sort(k.nodes, k.pending));
    forall i, j | 0 <= i < j < |k.pending|
      ensures k.nodes[k.pending[i]].sequence > k.nodes[k.pending[j]].sequence
    {
      assert pending[i].sequence > pending[j].sequence;
    }
    SortAscending(k.nodes, k.pending);
    forall i | 0 <= i < |batch|
      ensures Mark(k) < batch[i].sequence <= bound
    {
      assert Sort(k.nodes, k.pending)[i] in multiset(k.pending);
      var j :| 0 <= j < |k.pending| && k.pending[j] == Sort(k.nodes, k.pending)[i];
      assert pending[j] == batch[i];
    }
  }

  lemma GreetOrdered<T>(k: Sink<T>, bound: nat)
    requires Shape(k) && Ordered(k, bound) && k.worker.phase.Greeting? && k.worker.batch == []
    ensures Ordered(Greeted(k), bound)
  {
  }

  lemma NoticedOrdered<T>(k: Sink<T>, bound: nat)
    requires Shape(k) && Ordered(k, bound) && k.worker.phase.Noticing?
    ensures Ordered(Noticed(k), bound)
  {
  }

  lemma UnnoticedOrdered<T>(k: Sink<T>, bound: nat)
    requires Shape(k) && Ordered(k, bound) && k.worker.phase.Noticing?
    ensures Ordered(Unnoticed(k), bound)
  {
  }

  lemma DecideOrdered<T>(k: Sink<T>, bound: nat)
    requires Shape(k) && Ordered(k, bound) && k.worker.phase.Deciding? && k.worker.batch == [] && k.pending == []
    ensures Ordered(Decide(k, bound + 1), bound + 1)
  {
  }

  // ---------- What has been reported ----------

  lemma {:induction false} DataOfSnoc<T>(wire: seq<Packet<T>>, p: Packet<T>)
    ensures DataOf(wire + [p]) == DataOf(wire) + match p
      case Data(item) => [item]
      case _ => []
  {
    assert (wire + [p])[..|wire|] == wire;
  }

  lemma SentReported<T>(k: Sink<T>, refusing: bool)
    requires Shape(k) && Reported(k, refusing) && k.worker.batch != [] && k.worker.phase.Sending?
    ensures Reported(Send(k, true), refusing)
  {
    if k.worker.reported > 0 {
      StillNoticed(k.log.wire, Data(k.nodes[k.worker.batch[0]]), Report(k.worker.reported));
    }
  }

  lemma StillNoticed<T>(wire: seq<Packet<T>>, p: Packet<T>, dropped: nat)
    requires HasNotice(wire, dropped) || (p.Notice? && p.dropped == dropped)
    ensures HasNotice(wire + [p], dropped)
  {
    if HasNotice(wire, dropped) {
      var i :| 0 <= i < |wire| && wire[i].Notice? && wire[i].dropped == dropped;
      assert (wire + [p])[i] == wire[i];
    } else {
      assert (wire + [p])[|wire|] == p;
    }
  }

  lemma NoticedReported<T>(k: Sink<T>, refusing: bool)
    requires Reported(k, refusing) && k.worker.phase.Noticing?
    ensures Reported(Noticed(k), refusing)
  {
    hide HasNotice;
    var p: Packet<T> := Notice(k.worker.number, Report(k.worker.drops));
    StillNoticed(k.log.wire, p, Report(k.worker.drops));
  }

  lemma UnnoticedReported<T>(k: Sink<T>, refusing: bool)
    requires Reported(k, refusing) && k.worker.phase.Noticing?
    ensures Reported(Unnoticed(k), refusing)
  {
  }

  lemma GreetReported<T>(k: Sink<T>, refusing: bool)
    requires Reported(k, refusing) && k.worker.phase.Greeting?
    ensures Reported(Greeted(k), refusing)
  {
  }

  lemma RecycleReported<T>(k: Sink<T>, refusing: bool)
    requires Reported(k, refusing) && !Connected(k.worker.phase)
    ensures Reported(Recycle(k), refusing)
  {
  }

  lemma CountReported<T>(k: Sink<T>, refusing: bool)
    requires Reported(k, refusing) && k.worker.phase.Counting? && k.dropped != k.worker.reported
    ensures Reported(Counted(k, refusing), refusing)
  {
  }

  lemma CountOrdered<T>(k: Sink<T>, refusing: bool, bound: nat)
    requires Shape(k) && Ordered(k, bound) && k.worker.phase.Counting? && k.dropped != k.worker.reported
    ensures Ordered(Counted(k, refusing), bound)
  {
  }

  lemma RefreeOrdered<T>(k: Sink<T>, bound: nat)
    requires Shape(k) && Ordered(k, bound) && k.worker.spent.Some?
    ensures Shape(Refree(k)) && Ordered(Refree(k), bound)
  {
  }

  lemma RefreeAccounted<T>(k: Sink<T>, flight: Option<Queued<T>>)
    requires Shape(k) && Accounted(k, flight) && k.worker.spent.Some?
    ensures Shape(Refree(k)) && Accounted(Refree(k), flight)
  {
  }

  // ---------- What the wire carries, connection after connection ----------

  lemma SentContinued<T>(k: Sink<T>)
    requires Shape(k) && Continued(k) && k.worker.batch != [] && k.worker.phase.Sending?
    ensures Continued(Send(k, true))
  {
    hide DataOf;
    DataOfSnoc(k.log.wire, Data(k.nodes[k.worker.batch[0]]));
  }

  lemma FailedContinued<T>(k: Sink<T>)
    requires Shape(k) && Continued(k) && k.worker.batch != [] && k.worker.phase.Sending?
    ensures Continued(Send(k, false))
  {
    hide DataOf;
  }

  lemma NoticedContinued<T>(k: Sink<T>, refusing: bool)
    requires Continued(k) && Reported(k, refusing) && k.worker.phase.Noticing?
    ensures Continued(Noticed(k)) && Continued(Unnoticed(k))
  {
    hide DataOf, HasNotice;
    DataOfSnoc(k.log.wire, Notice(k.worker.number, Report(k.worker.drops)));
  }

  // Steps that leave the wire alone and forget no loss.
  lemma StillContinued<T>(k: Sink<T>, n: Sink<T>)
    requires Continued(k) && n.log.wire == k.log.wire && n.log.delivered == k.log.delivered
      && n.log.connections == k.log.connections
    requires Connected(k.worker.phase) ==> Connected(n.worker.phase)
    requires n.dropped >= k.dropped && (k.worker.owed.Some? ==> n.worker.owed.Some? || n.dropped > 0)
    ensures Continued(n)
  {
    hide DataOf;
  }

  /** The next greeting starts an empty wire; what came before is in the delivered log. */
  lemma GreetContinued<T>(k: Sink<T>)
    requires Continued(k) && Tidy(k) && k.worker.phase.Greeting?
    ensures Continued(Greeted(k))
  {
    hide DataOf;
    GreetingCarriesNothing<T>();
    assert k.log.delivered[|k.log.delivered|..] == [];
  }

  lemma GreetingCarriesNothing<T>()
    ensures DataOf<T>([Hello]) == []
  {
    var greeting: seq<Packet<T>> := [Hello];
    assert greeting[..0] == [];
  }

  // ---------- What each phase holds ----------

  lemma RecycleTidy<T>(k: Sink<T>)
    requires Shape(k) && Tidy(k) && (k.worker.phase.Connecting? || k.worker.phase.Greeting?)
    ensures Shape(Recycle(k)) && Tidy(Recycle(k))
  {
  }

  lemma QuietTidy<T>(k: Sink<T>, refusing: bool)
    requires Shape(k) && Tidy(k) && !Busy(k.worker.phase)
    ensures Shape(Greeted(k)) && Tidy(Greeted(k))
    ensures Connected(k.worker.phase) ==> Tidy(Counted(k, refusing)) && Tidy(Noticed(k)) && Tidy(Unnoticed(k))
  {
  }

  // ---------- Which step a busy worker takes ----------

  lemma RefreeIs<T>(k: Sink<T>, ok: bool, refusing: bool)
    requires Shape(k) && Busy(k.worker.phase) && k.worker.spent.Some?
    ensures WorkerStep(k, ok, refusing) == Refree(k)
  {
  }

  lemma CountFirstIs<T>(k: Sink<T>, ok: bool, refusing: bool)
    requires Shape(k) && (k.worker.phase.Recycling? || k.worker.phase.Abandoning?)
    requires k.worker.spent.None? && k.worker.owed.None? && k.worker.batch != []
    ensures WorkerStep(k, ok, refusing) == CountFirst(k)
  {
  }

  lemma CountOwedIs<T>(k: Sink<T>, ok: bool, refusing: bool)
    requires Shape(k) && k.worker.phase.Abandoning? && k.worker.spent.None? && k.worker.owed.Some?
    ensures WorkerStep(k, ok, refusing) == CountOwed(k)
  {
  }

  lemma SendIs<T>(k: Sink<T>, ok: bool, refusing: bool)
    requires Shape(k) && k.worker.phase.Sending? && k.worker.spent.None? && k.worker.batch != []
    ensures WorkerStep(k, ok, refusing) == Send(k, ok)
  {
  }

  // ---------- Steps that leave hands and reports as they were ----------

  lemma RefreeQuietly<T>(k: Sink<T>, refusing: bool)
    requires Tidy(k) && Reported(k, refusing) && k.worker.spent.Some?
    ensures Tidy(Refree(k)) && Reported(Refree(k), refusing)
  {
    hide HasNotice;
  }

  lemma CountFirstQuietly<T>(k: Sink<T>, refusing: bool)
    requires Shape(k) && Tidy(k) && Reported(k, refusing) && k.worker.batch != []
    requires k.worker.phase.Recycling? || k.worker.phase.Abandoning?
    ensures Shape(CountFirst(k)) && Tidy(CountFirst(k)) && Reported(CountFirst(k), refusing)
  {
    hide HasNotice;
  }

  lemma CountOwedQuietly<T>(k: Sink<T>, refusing: bool)
    requires Tidy(k) && Reported(k, refusing) && k.worker.phase.Abandoning? && k.worker.owed.Some?
    ensures Tidy(CountOwed(k)) && Reported(CountOwed(k), refusing)
  {
    hide HasNotice;
  }

  lemma CountOwedInPlace<T>(k: Sink<T>, held: Option<NodeId>, bound: nat)
    requires Shape(k) && Placed(k, held) && Ordered(k, bound) && k.worker.owed.Some?
    ensures Shape(CountOwed(k)) && Placed(CountOwed(k), held) && Ordered(CountOwed(k), bound)
  {
    hide At, WireOrdered;
    assert Places(CountOwed(k), held) == Places(k, held);
  }

  lemma SendTidy<T>(k: Sink<T>, ok: bool)
    requires Shape(k) && Tidy(k) && k.worker.phase.Sending? && k.worker.batch != []
    ensures Shape(Send(k, ok)) && Tidy(Send(k, ok)) && Send(k, ok).log.offered == k.log.offered && k.worker.owed.None?
  {
  }

  lemma FailedReported<T>(k: Sink<T>, refusing: bool)
    requires Shape(k) && Reported(k, refusing) && k.worker.batch != [] && k.worker.phase.Sending?
    ensures Reported(Send(k, false), refusing)
  {
    hide HasNotice;
  }

  lemma TidyHands<T>(k: Sink<T>)
    requires Tidy(k) && !Busy(k.worker.phase)
    ensures k.worker.batch == [] && k.worker.spent.None? && k.worker.owed.None?
  {
  }

  // Nodes and events stay where they are when only the worker's counters and the wire move.
  lemma QuietInPlace<T>(k: Sink<T>, n: Sink<T>, held: Option<NodeId>, flight: Option<Queued<T>>)
    requires Shape(k) && Placed(k, held) && Accounted(k, flight)
    requires n.owned == k.owned && n.nodes == k.nodes && n.free == k.free && n.pending == k.pending
      && n.dropped == k.dropped
    requires n.worker.batch == k.worker.batch && n.worker.spent == k.worker.spent && n.worker.owed == k.worker.owed
    requires n.log.offered == k.log.offered && n.log.delivered == k.log.delivered && n.log.lost == k.log.lost
    ensures Shape(n) && Placed(n, held) && Accounted(n, flight)
  {
    hide At;
    assert Places(n, held) == Places(k, held);
  }

  lemma GotoInPlace<T>(k: Sink<T>, held: Option<NodeId>, flight: Option<Queued<T>>, to: Phase)
    requires Shape(k) && Placed(k, held) && Accounted(k, flight)
    ensures Shape(Goto(k, to)) && Placed(Goto(k, to), held) && Accounted(Goto(k, to), flight)
  {
    hide At;
    assert Places(Goto(k, to), held) == Places(k, held);
  }

  lemma GotoOrdered<T>(k: Sink<T>, bound: nat, to: Phase)
    requires Shape(k) && Ordered(k, bound) && k.worker.batch == [] && !k.worker.phase.Noticing?
    requires if Connected(k.worker.phase) then to.Flushing? || to.Counting? else to.Connecting? || to.Greeting?
    ensures Shape(Goto(k, to)) && Ordered(Goto(k, to), bound)
  {
    hide At, WireOrdered;
  }

  lemma GotoQuietly<T>(k: Sink<T>, refusing: bool, to: Phase)
    requires Tidy(k) && Reported(k, refusing) && k.worker.batch == [] && k.worker.spent.None? && k.worker.owed.None?
    requires if Connected(k.worker.phase) then to.Flushing? || to.Counting? else to.Connecting? || to.Greeting?
    ensures Tidy(Goto(k, to)) && Reported(Goto(k, to), refusing)
  {
    hide HasNotice;
  }

  lemma RunInPlace<T>(k: Sink<T>, held: Option<NodeId>, flight: Option<Queued<T>>, bound: nat, refusing: bool)
    requires Shape(k) && Tidy(k) && Placed(k, held) && Accounted(k, flight) && Ordered(k, bound)
      && Reported(k, refusing)
    requires !k.worker.phase.NotStarted?
    ensures var n := k.(running := true);
      Shape(n) && Tidy(n) && Placed(n, held) && Accounted(n, flight) && Ordered(n, bound) && Reported(n, refusing)
  {
    hide Placed, Accounted, Ordered, Reported;
    var n := k.(running := true);
    assert Places(n, held) == Places(k, held);
    RunBooks(k, held, flight);
    RunNumbers(k, bound);
    RunReports(k, refusing);
  }

  lemma RunBooks<T>(k: Sink<T>, held: Option<NodeId>, flight: Option<Queued<T>>)
    requires Shape(k) && Placed(k, held) && Accounted(k, flight)
    ensures var n := k.(running := true); Shape(n) && Placed(n, held) && Accounted(n, flight)
  {
    hide At;
  }

  lemma RunNumbers<T>(k: Sink<T>, bound: nat)
    requires Shape(k) && Ordered(k, bound)
    ensures var n := k.(running := true); Shape(n) && Ordered(n, bound)
  {
    hide At, WireOrdered, Between;
  }

  lemma RunReports<T>(k: Sink<T>, refusing: bool)
    requires Reported(k, refusing)
    ensures Reported(k.(running := true), refusing)
  {
    hide HasNotice;
  }
}
