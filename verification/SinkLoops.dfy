/**
 The loops over a sink's lists as they run: each leaves the sink as the worker's or the
 producer's single steps, taken one after the other, would leave it.
 */
module SinkLoops {
  import opened Bytes
  import opened Sinks

  // ---------- Closed forms ----------

  function Reversed(ids: seq<NodeId>): (r: seq<NodeId>)
    ensures |r| == |ids|
  {
    if ids == [] then [] else Reversed(ids[1..]) + [ids[0]]
  }

  /** The producer's whole visit to a running sink. */
  function Enqueued<T>(k: Sink<T>, item: Queued<T>): Sink<T>
    requires Shape(k)
  {
    if k.free == [] then Lose(Pop(k, item), item) else Push(Pop(k, item), k.free[0], item)
  }

  /** One node counted as lost and given back. */
  function AbandonOne<T>(k: Sink<T>, id: NodeId): Sink<T>
    requires id < |k.nodes|
  {
    k.(free := [id] + k.free, dropped := k.dropped + 1, log := k.log.(lost := k.log.lost + [k.nodes[id]]))
  }

  /** One frame sent and its node given back. */
  function DeliverOne<T>(k: Sink<T>, id: NodeId): Sink<T>
    requires id < |k.nodes|
  {
    k.(free := [id] + k.free,
       log := k.log.(delivered := k.log.delivered + [k.nodes[id]], wire := k.log.wire + [Data(k.nodes[id])]))
  }

  /** Nodes counted as lost and given back, first to last. */
  function Abandoned<T>(k: Sink<T>, ids: seq<NodeId>): Sink<T>
    requires Known(k.nodes, ids)
  {
    k.(free := Reversed(ids) + k.free, dropped := k.dropped + |ids|,
       log := k.log.(lost := k.log.lost + At(k.nodes, ids)))
  }

  function Packets<T>(items: seq<Queued<T>>): (r: seq<Packet<T>>)
    ensures |r| == |items| && forall i | 0 <= i < |items| :: r[i] == Data(items[i])
  {
    seq(|items|, i requires 0 <= i < |items| => Data(items[i]))
  }

  /** Nodes sent and given back, first to last. */
  function Delivered<T>(k: Sink<T>, ids: seq<NodeId>): Sink<T>
    requires Known(k.nodes, ids)
  {
    k.(free := Reversed(ids) + k.free,
       log := k.log.(delivered := k.log.delivered + At(k.nodes, ids), wire := k.log.wire + Packets(At(k.nodes, ids))))
  }

  /** How many frames of a batch go out before the first failure. */
  function Sent(oks: seq<bool>, count: nat): (m: nat)
    requires count <= |oks|
    ensures m <= count && (forall i | 0 <= i < m :: oks[i]) && (m < count ==> !oks[m])
  {
    if count == 0 then 0
    else
      var before := Sent(oks, count - 1);
      if before < count - 1 || !oks[count - 1] then before else count
  }

  /** A batch with the given outcomes: what went out, and the rest lost. */
  function Served<T>(k: Sink<T>, batch: seq<NodeId>, oks: seq<bool>): Sink<T>
    requires Known(k.nodes, batch) && |batch| <= |oks|
  {
    var m := Sent(oks, |batch|);
    Abandoned(Delivered(k, batch[..m]), batch[m..])
  }

  lemma ReversedSnoc(ids: seq<NodeId>, i: nat)
    requires i < |ids|
    ensures Reversed(ids[..i + 1]) == [ids[i]] + Reversed(ids[..i])
    decreases i
  {
    if i == 0 {
      assert ids[..1] == [ids[0]] && ids[..1][1..] == [] && ids[..0] == [];
    } else {
      ReversedSnoc(ids[1..], i - 1);
      assert ids[..i + 1][1..] == ids[1..][..i] && ids[..i][1..] == ids[1..][..i - 1];
      assert Reversed(ids[..i + 1]) == [ids[i]] + Reversed(ids[1..][..i - 1]) + [ids[0]];
    }
  }

  lemma AbandonedSnoc<T>(k: Sink<T>, ids: seq<NodeId>, i: nat)
    requires Known(k.nodes, ids) && i < |ids|
    ensures Abandoned(k, ids[..i + 1]) == AbandonOne(Abandoned(k, ids[..i]), ids[i])
  {
    ReversedSnoc(ids, i);
    assert At(k.nodes, ids[..i + 1]) == At(k.nodes, ids[..i]) + [k.nodes[ids[i]]];
    Associative(k.log.lost, At(k.nodes, ids[..i]), [k.nodes[ids[i]]]);
    Associative([ids[i]], Reversed(ids[..i]), k.free);
  }

  lemma DeliveredSnoc<T>(k: Sink<T>, ids: seq<NodeId>, i: nat)
    requires Known(k.nodes, ids) && i < |ids|
    ensures Delivered(k, ids[..i + 1]) == DeliverOne(Delivered(k, ids[..i]), ids[i])
  {
    hide Packets;
    ReversedSnoc(ids, i);
    var items, item := At(k.nodes, ids[..i]), k.nodes[ids[i]];
    assert At(k.nodes, ids[..i + 1]) == items + [item];
    assert Packets(items + [item]) == Packets(items) + [Data(item)];
    Associative(k.log.delivered, items, [item]);
    Associative(k.log.wire, Packets(items), [Data(item)]);
    Associative([ids[i]], Reversed(ids[..i]), k.free);
  }

  lemma Nothing<T>(k: Sink<T>)
    ensures Abandoned(k, []) == k && Delivered(k, []) == k
  {
    assert [] + k.free == k.free && At(k.nodes, []) == [] && k.log.lost + [] == k.log.lost;
    assert Packets<T>([]) == [] && k.log.delivered + [] == k.log.delivered && k.log.wire + [] == k.log.wire;
  }

  // ---------- The sink in memory ----------

  class SinkLists<T> {
    var nodes: seq<Queued<T>>
    var free: seq<NodeId>
    var pending: seq<NodeId>
    var dropped: nat
    ghost var rest: Sink<T>   // the worker, the log and the flags

    ghost function Value(): Sink<T>
      reads this
    {
      rest.(nodes := nodes, free := free, pending := pending, dropped := dropped)
    }

    constructor (k: Sink<T>)
      ensures Value() == k
    {
      nodes, free, pending, dropped, rest := k.nodes, k.free, k.pending, k.dropped, k;
    }

    /** enqueue: pop, fill, push; or count. */
    method Enqueue(item: Queued<T>)
      requires Shape(Value())
      modifies this
      ensures Value() == Enqueued(old(Value()), item)
    {
      rest := Offer(rest, item);
      if free == [] {
        dropped := dropped + 1;
        rest := rest.(log := rest.log.(lost := rest.log.lost + [item]));
        return;
      }
      var node := free[0];
      free := free[1..];
      nodes := nodes[node := item];
      pending := [node] + pending;
    }

    method Abandon(node: NodeId)
      requires node < |nodes|
      modifies this`free, this`dropped, this`rest
      ensures Value() == AbandonOne(old(Value()), node)
    {
      dropped := dropped + 1;
      free := [node] + free;
      rest := rest.(log := rest.log.(lost := rest.log.lost + [nodes[node]]));
    }

    method Confirm(node: NodeId)
      requires node < |nodes|
      modifies this`free, this`rest
      ensures Value() == DeliverOne(old(Value()), node)
    {
      free := [node] + free;
      rest := rest.(log := rest.log.(delivered := rest.log.delivered + [nodes[node]],
                    wire := rest.log.wire + [Data(nodes[node])]));
    }

    /** recycle_or_drop_pending: the whole list is taken, then walked. */
    method RecycleOrDropPending()
      requires Known(nodes, pending)
      modifies this`free, this`pending, this`dropped, this`rest
      ensures Value() == Abandoned(old(Value()).(pending := []), old(pending))
    {
      var list := pending;
      pending := [];
      AbandonFrom(list);
    }

    method AbandonFrom(ids: seq<NodeId>)
      requires Known(nodes, ids)
      modifies this`free, this`dropped, this`rest
      ensures Value() == Abandoned(old(Value()), ids)
    {
      hide Abandoned;
      ghost var k := Value();
      Nothing(k);
      for i := 0 to |ids|
        invariant nodes == k.nodes && Value() == Abandoned(k, ids[..i])
      {
        AbandonedSnoc(k, ids, i);
        Abandon(ids[i]);
      }
      assert ids[..|ids|] == ids;
    }

    /** The send loop over a sorted batch, and what follows a failure. */
    method SendBatch(batch: seq<NodeId>, oks: seq<bool>) returns (connected: bool)
      requires Known(nodes, batch) && |batch| <= |oks|
      modifies this`free, this`dropped, this`rest
      ensures Value() == Served(old(Value()), batch, oks) && connected == (Sent(oks, |batch|) == |batch|)
    {
      hide Abandoned, Delivered, Sent;
      ghost var k := Value();
      Nothing(k);
      var i := 0;
      connected := true;
      while i < |batch| && connected
        invariant i <= |batch| && nodes == k.nodes
        invariant connected ==> (forall n | 0 <= n < i :: oks[n]) && Value() == Delivered(k, batch[..i])
        invariant !connected ==> i == |batch| && Value() == Served(k, batch, oks) && Sent(oks, |batch|) < |batch|
      {
        if oks[i] {
          DeliveredSnoc(k, batch, i);
          Confirm(batch[i]);
          i := i + 1;
        } else {
          // The failed frame and all behind it were not confirmed.
          connected := false;
          SentIs(oks, |batch|, i);
          DeliveredNodes(k, batch[..i]);
          AbandonFrom(batch[i..]);
          i := |batch|;
        }
      }
      if connected {
        SentIs(oks, |batch|, |batch|);
        assert batch[..|batch|] == batch && batch[|batch|..] == [];
        Nothing(Delivered(k, batch));
      }
    }
  }

  lemma DeliveredNodes<T>(k: Sink<T>, ids: seq<NodeId>)
    requires Known(k.nodes, ids)
    ensures Delivered(k, ids).nodes == k.nodes
  {
  }

  lemma {:induction false} SentIs(oks: seq<bool>, count: nat, m: nat)
    requires m <= count <= |oks| && (forall i | 0 <= i < m :: oks[i]) && (m < count ==> !oks[m])
    ensures Sent(oks, count) == m
    decreases count
  {
    if count == 0 {
    } else {
      if m < count {
        SentIs(oks, count - 1, m);
      } else {
        SentIs(oks, count - 1, count - 1);
      }
    }
  }

  // ---------- The loops are the steps ----------

  predicate CallsPipe<T>(k: Sink<T>) {
    match k.worker.phase
    case Connecting => true
    case Greeting => true
    case Sending => k.worker.spent.None? && k.worker.batch != []
    case Noticing => true
    case _ => false
  }

  /** The worker alone for some steps; its pipe calls have the given outcomes, one after the other, and then fail. */
  function Alone<T>(k: Sink<T>, n: nat, oks: seq<bool>): Sink<T>
    requires Shape(k)
    decreases n
  {
    if n == 0 || k.worker.phase.Deciding? then k
    else
      var next := WorkerStep(k, CallsPipe(k) && oks != [] && oks[0], false);
      if Shape(next) then Alone(next, n - 1, if CallsPipe(k) && oks != [] then oks[1..] else oks) else k
  }

  // A step that calls nothing, and one that does.
  predicate Quiet<T>(k: Sink<T>) {
    Shape(k) && !k.worker.phase.Deciding? && !CallsPipe(k) && Shape(WorkerStep(k, false, false))
  }

  lemma QuietStep<T>(k: Sink<T>, n: nat, oks: seq<bool>)
    requires Quiet(k)
    ensures Alone(k, n + 1, oks) == Alone(WorkerStep(k, false, false), n, oks)
  {
    hide WorkerStep, Shape;
  }

  lemma PipeStep<T>(k: Sink<T>, n: nat, oks: seq<bool>)
    requires Shape(k) && !k.worker.phase.Deciding? && CallsPipe(k) && oks != [] && Shape(WorkerStep(k, oks[0], false))
    ensures Alone(k, n + 1, oks) == Alone(WorkerStep(k, oks[0], false), n, oks[1..])
  {
    hide WorkerStep, Shape;
  }

  /** The worker done with its batch, in its next phase. */
  function Done<T>(k: Sink<T>, phase: Phase): Sink<T> { k.(worker := k.worker.(phase := phase, batch := [])) }

  function Left<T>(k: Sink<T>, batch: seq<NodeId>): Sink<T> { k.(worker := k.worker.(batch := batch)) }

  lemma PacketsCons<T>(item: Queued<T>, items: seq<Queued<T>>)
    ensures Packets([item] + items) == [Data(item)] + Packets(items)
  {
  }

  lemma FirstOf<T>(nodes: seq<Queued<T>>, ids: seq<NodeId>)
    requires Known(nodes, ids) && ids != []
    ensures Reversed(ids) == Reversed(ids[1..]) + [ids[0]]
    ensures At(nodes, ids) == [nodes[ids[0]]] + At(nodes, ids[1..])
    ensures Packets(At(nodes, ids)) == [Data(nodes[ids[0]])] + Packets(At(nodes, ids[1..]))
  {
    hide At, Packets;
    AtCons(nodes, ids);
    PacketsCons(nodes[ids[0]], At(nodes, ids[1..]));
  }

  lemma AbandonedFirst<T>(k: Sink<T>, ids: seq<NodeId>)
    requires Known(k.nodes, ids) && ids != []
    ensures Abandoned(AbandonOne(k, ids[0]), ids[1..]) == Abandoned(k, ids)
  {
    hide At, Reversed, Packets;
    FirstOf(k.nodes, ids);
    Associative(k.log.lost, [k.nodes[ids[0]]], At(k.nodes, ids[1..]));
    Associative(Reversed(ids[1..]), [ids[0]], k.free);
  }

  lemma DeliveredFirst<T>(k: Sink<T>, ids: seq<NodeId>)
    requires Known(k.nodes, ids) && ids != []
    ensures Delivered(DeliverOne(k, ids[0]), ids[1..]) == Delivered(k, ids)
  {
    hide At, Reversed, Packets;
    FirstOf(k.nodes, ids);
    Associative(k.log.delivered, [k.nodes[ids[0]]], At(k.nodes, ids[1..]));
    Associative(k.log.wire, [Data(k.nodes[ids[0]])], Packets(At(k.nodes, ids[1..])));
    Associative(Reversed(ids[1..]), [ids[0]], k.free);
  }

  // Which part of the worker's record the loops do not touch.
  lemma WorkerApart<T>(k: Sink<T>, ids: seq<NodeId>, batch: seq<NodeId>, phase: Phase)
    requires Known(k.nodes, ids)
    ensures Done(Abandoned(Left(k, batch), ids), phase) == Done(Abandoned(k, ids), phase)
    ensures Done(Delivered(Left(k, batch), ids), phase) == Done(Delivered(k, ids), phase)
  {
    hide Reversed, At, Packets;
  }

  lemma CountedAndFreed<T>(k: Sink<T>)
    requires Shape(k) && k.worker.spent.None? && k.worker.batch != []
    requires k.worker.phase.Recycling? || (k.worker.phase.Abandoning? && k.worker.owed.None?)
    ensures var (id, rest) := (k.worker.batch[0], k.worker.batch[1..]);
      && Quiet(k) && WorkerStep(k, false, false) == CountFirst(k)
      && Quiet(CountFirst(k)) && Shape(Left(AbandonOne(k, id), rest))
        && WorkerStep(CountFirst(k), false, false) == Left(AbandonOne(k, id), rest)
  {
  }

  /** Counting and freeing a batch, two steps for every node and one to go on. */
  lemma {:induction false} RecyclingRuns<T>(k: Sink<T>, oks: seq<bool>)
    requires Shape(k) && k.worker.spent.None?
    requires k.worker.phase.Recycling? || (k.worker.phase.Abandoning? && k.worker.owed.None?)
    ensures Alone(k, 2 * |k.worker.batch| + 1, oks) == Done(Abandoned(k, k.worker.batch), Connecting)
    decreases |k.worker.batch|
  {
    hide Alone, Abandoned, CountFirst, Quiet, WorkerStep;
    var batch := k.worker.batch;
    if batch == [] {
      Nothing(k);
      RecycledAll(k);
      QuietStep(k, 0, oks);
      AloneNone(Goto(k, Connecting), oks);
    } else {
      var freed := Left(AbandonOne(k, batch[0]), batch[1..]);
      CountedAndFreed(k);
      QuietStep(k, 2 * |batch|, oks);
      QuietStep(CountFirst(k), 2 * |batch| - 1, oks);
      RecyclingRuns(freed, oks);
      AbandonedFirst(k, batch);
      WorkerApart(AbandonOne(k, batch[0]), batch[1..], batch[1..], Connecting);
    }
  }

  lemma RecycledAll<T>(k: Sink<T>)
    requires Shape(k) && k.worker.spent.None? && k.worker.batch == []
    requires k.worker.phase.Recycling? || (k.worker.phase.Abandoning? && k.worker.owed.None?)
    ensures Quiet(k) && WorkerStep(k, false, false) == Goto(k, Connecting) == Done(k, Connecting)
      && Shape(Goto(k, Connecting))
  {
  }

  lemma AloneNone<T>(k: Sink<T>, oks: seq<bool>)
    requires Shape(k)
    ensures Alone(k, 0, oks) == k
  {
  }

  /** A failed connect: the loop that drops the queue is what the worker's steps do, if no producer comes between. */
  lemma RecycleIsSteps<T>(k: Sink<T>)
    requires Shape(k) && k.worker.phase.Connecting? && k.worker.batch == [] && k.worker.spent.None?
    ensures Alone(k, 2 * |k.pending| + 2, [false]) == Abandoned(k.(pending := []), k.pending)
  {
    hide Alone, WorkerStep, Abandoned, Recycle, Quiet;
    var r := Recycle(k);
    RecycleStep(k);
    PipeStep(k, 2 * |k.pending| + 1, [false]);
    RecyclingRuns(r, [false][1..]);
    AbandonsApart(k, r);
  }

  lemma RecycleStep<T>(k: Sink<T>)
    requires Shape(k) && k.worker.phase.Connecting? && k.worker.spent.None?
    ensures var r := Recycle(k);
      && WorkerStep(k, false, false) == r && Shape(r)
      && r.worker.phase.Recycling? && r.worker.spent.None? && r.worker.batch == k.pending && r.nodes == k.nodes
  {
  }

  lemma AbandonsApart<T>(k: Sink<T>, r: Sink<T>)
    requires Shape(k) && r == Recycle(k) && k.worker.phase.Connecting? && k.worker.batch == []
    ensures Done(Abandoned(r, k.pending), Connecting) == Abandoned(k.(pending := []), k.pending)
  {
    hide Reversed, At;
  }

  // ---------- The send loop ----------

  lemma SentAndFreed<T>(k: Sink<T>)
    requires Shape(k) && k.worker.spent.None? && k.worker.batch != [] && k.worker.phase.Sending?
    ensures var (id, rest) := (k.worker.batch[0], k.worker.batch[1..]);
      && CallsPipe(k) && WorkerStep(k, true, false) == Send(k, true)
      && Quiet(Send(k, true)) && Shape(Left(DeliverOne(k, id), rest))
        && WorkerStep(Send(k, true), false, false) == Left(DeliverOne(k, id), rest)
  {
  }

  // The failed frame: its node goes back, it is counted, and the worker gives the rest up.
  lemma FailedAndFreed<T>(k: Sink<T>)
    requires Shape(k) && k.worker.spent.None? && k.worker.owed.None? && k.worker.batch != [] && k.worker.phase.Sending?
    ensures var (f, given) := (Send(k, false),
      Goto(Left(AbandonOne(k, k.worker.batch[0]), k.worker.batch[1..]), Abandoning));
      && CallsPipe(k) && WorkerStep(k, false, false) == f
      && Quiet(f) && f.worker.spent.Some? && WorkerStep(f, false, false) == Refree(f)
      && Quiet(Refree(f)) && WorkerStep(Refree(f), false, false) == given && Shape(given)
  {
  }

  lemma SentCons(oks: seq<bool>, count: nat)
    requires 0 < count <= |oks|
    ensures Sent(oks, count) == if oks[0] then 1 + Sent(oks[1..], count - 1) else 0
  {
    var m := if oks[0] then 1 + Sent(oks[1..], count - 1) else 0;
    assert forall i | 1 <= i < count :: oks[i] == oks[1..][i - 1];
    SentIs(oks, count, m);
  }

  /** A failure: one step to send, two for the failed frame, two for each behind it, and one to go on. */
  lemma FailingRuns<T>(k: Sink<T>, oks: seq<bool>)
    requires Shape(k) && k.worker.phase.Sending? && k.worker.spent.None? && k.worker.owed.None?
    requires k.worker.batch != [] && oks != [] && !oks[0]
    ensures Alone(k, 2 * |k.worker.batch| + 2, oks) == Done(Abandoned(k, k.worker.batch), Connecting)
  {
    hide Alone, Abandoned, WorkerStep, Send, Quiet;
    var batch := k.worker.batch;
    var f, given := Send(k, false), Goto(Left(AbandonOne(k, batch[0]), batch[1..]), Abandoning);
    FailedAndFreed(k);
    PipeStep(k, 2 * |batch| + 1, oks);
    QuietStep(f, 2 * |batch|, oks[1..]);
    QuietStep(Refree(f), 2 * |batch| - 1, oks[1..]);
    RecyclingRuns(given, oks[1..]);
    AbandonedFirst(k, batch);
    GivenApart(AbandonOne(k, batch[0]), batch[1..]);
  }

  lemma GivenApart<T>(k: Sink<T>, ids: seq<NodeId>)
    requires Known(k.nodes, ids)
    ensures Done(Abandoned(Goto(Left(k, ids), Abandoning), ids), Connecting) == Done(Abandoned(k, ids), Connecting)
  {
    hide Reversed, At;
  }

  lemma ServedFirst<T>(k: Sink<T>, oks: seq<bool>)
    requires Known(k.nodes, k.worker.batch) && 0 < |k.worker.batch| <= |oks| && oks[0]
    ensures var b := k.worker.batch; Served(DeliverOne(k, b[0]), b[1..], oks[1..]) == Served(k, b, oks)
  {
    hide Abandoned, Delivered, Sent;
    var b := k.worker.batch;
    SentCons(oks, |b|);
    var m := Sent(oks, |b|);
    assert b[..m][1..] == b[1..][..m - 1] && b[1..][m - 1..] == b[m..];
    DeliveredFirst(k, b[..m]);
  }

  lemma ServedApart<T>(k: Sink<T>, ids: seq<NodeId>, batch: seq<NodeId>, oks: seq<bool>, phase: Phase)
    requires Known(k.nodes, ids) && |ids| <= |oks|
    ensures Done(Served(Left(k, batch), ids, oks), phase) == Done(Served(k, ids, oks), phase)
  {
    hide Reversed, At, Packets, Sent;
  }

  /**
   The send loop over a batch is what the worker's steps do, if no producer comes between: with the same
   outcomes of the pipe, the same frames go out and the same are lost, and the worker goes on to
   count its drops, or to connect again after a failure.
   */
  lemma {:induction false} SendIsSteps<T>(k: Sink<T>, oks: seq<bool>)
    requires Shape(k) && k.worker.phase.Sending? && k.worker.spent.None? && k.worker.owed.None?
    requires |k.worker.batch| <= |oks|
    ensures var batch := k.worker.batch;
      var connected := Sent(oks, |batch|) == |batch|;
      Alone(k, 2 * |batch| + (if connected then 1 else 2), oks)
        == Done(Served(k, batch, oks), if connected then Counting else Connecting)
    decreases |k.worker.batch|
  {
    hide Alone, Abandoned, Delivered, WorkerStep, Send, Served, Sent, Quiet;
    var batch := k.worker.batch;
    if batch == [] {
      ServedNone(k, oks);
      WorkerStepDone(k);
      QuietStep(k, 0, oks);
      AloneNone(Goto(k, Counting), oks);
    } else if oks[0] {
      var n := 2 * |batch| - 2 + if Sent(oks, |batch|) == |batch| then 1 else 2;
      SentCons(oks, |batch|);
      SentAndFreed(k);
      PipeStep(k, n + 1, oks);
      QuietStep(Send(k, true), n, oks[1..]);
      SendIsSteps(Left(DeliverOne(k, batch[0]), batch[1..]), oks[1..]);
      ServedFirst(k, oks);
      ServedApart(DeliverOne(k, batch[0]), batch[1..], batch[1..], oks[1..],
        if Sent(oks, |batch|) == |batch| then Counting else Connecting);
    } else {
      SentCons(oks, |batch|);
      FailingRuns(k, oks);
      ServedNothing(k, batch, oks);
    }
  }

  lemma ServedNone<T>(k: Sink<T>, oks: seq<bool>)
    ensures Served(k, [], oks) == k && Sent(oks, 0) == 0
  {
    hide Abandoned, Delivered;
    Nothing(k);
  }

  lemma ServedNothing<T>(k: Sink<T>, batch: seq<NodeId>, oks: seq<bool>)
    requires Known(k.nodes, batch) && |batch| <= |oks| && Sent(oks, |batch|) == 0
    ensures Served(k, batch, oks) == Abandoned(k, batch)
  {
    hide Abandoned, Delivered, Sent;
    Nothing(k);
    assert batch[..0] == [] && batch[0..] == batch;
  }

  lemma WorkerStepDone<T>(k: Sink<T>)
    requires Shape(k) && k.worker.phase.Sending? && k.worker.spent.None? && k.worker.batch == []
    ensures Quiet(k) && WorkerStep(k, false, false) == Goto(k, Counting) == Done(k, Counting)
      && Shape(Goto(k, Counting))
  {
  }
}
