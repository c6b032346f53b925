/**
 One telemetry sink: preallocated nodes, two interlocked lists, a drop counter and a
 worker. Every interlocked operation is one step of the worker or of the emitter.
 */
module Sinks {
  import opened Bytes

  const CAPACITY := 1024
  const MAX_REPORT := 0xFFFF_FFFF

  type NodeId = nat

  /** An event with the sequence number its emission drew. */
  datatype Queued<T> = Queued(sequence: nat, body: T)

  // What the worker puts on the pipe. The greeting always carries sequence 0.
  datatype Packet<T> = Hello | Data(item: Queued<T>) | Notice(number: nat, dropped: nat)

  function Number<T>(p: Packet<T>): nat {
    match p
    case Hello => 0
    case Data(item) => item.sequence
    case Notice(number, _) => number
  }

  function Report(drops: nat): nat { Min(drops, MAX_REPORT) }

  datatype Phase =
    | NotStarted
    | Connecting    // about to connect the pipe
    | Greeting      // connected, greeting not yet sent
    | Recycling     // counting and freeing what was pending
    | Flushing      // about to take the pending list
    | Sending       // sending the sorted batch
    | Abandoning    // counting and freeing the rest of a failed batch
    | Counting      // about to read the drop counter
    | Deciding      // about to test the queue under the emit lock
    | Noticing      // about to send the numbered notice

  /**
   The worker's locals. batch is taken but not accounted for, spent is accounted for
   but not yet free, owed is freed but not yet counted as dropped. raced is history:
   whether a refused emission was in flight at the counter read.
   */
  datatype Worker<T> = Worker(
    phase: Phase, batch: seq<NodeId>, spent: Option<NodeId>, owed: Option<Queued<T>>,
    reported: nat, drops: nat, raced: bool, number: nat)

  // History: every event offered, sent and counted as lost, and the current connection.
  datatype Log<T> = Log(offered: seq<Queued<T>>, delivered: seq<Queued<T>>, lost: seq<Queued<T>>,
      wire: seq<Packet<T>>, connections: nat)

  // Lists are written head first. owned is the set of preallocated nodes, which no step changes.
  datatype Sink<T> = Sink(
    owned: multiset<NodeId>, running: bool, nodes: seq<Queued<T>>, free: seq<NodeId>, pending: seq<NodeId>,
    dropped: nat, worker: Worker<T>, log: Log<T>)

  function At<T>(nodes: seq<Queued<T>>, ids: seq<NodeId>): (r: seq<Queued<T>>)
    requires forall i | 0 <= i < |ids| :: ids[i] < |nodes|
    ensures |r| == |ids|
    ensures forall i | 0 <= i < |ids| :: r[i] == nodes[ids[i]]
  {
    seq(|ids|, i requires 0 <= i < |ids| => nodes[ids[i]])
  }

  lemma AtCons<T>(nodes: seq<Queued<T>>, ids: seq<NodeId>)
    requires Known(nodes, ids) && ids != []
    ensures At(nodes, ids) == [nodes[ids[0]]] + At(nodes, ids[1..])
  {
    assert forall i | 1 <= i < |ids| :: At(nodes, ids)[i] == At(nodes, ids[1..])[i - 1];
  }

  predicate Known<T>(nodes: seq<Queued<T>>, ids: seq<NodeId>) { forall i | 0 <= i < |ids| :: ids[i] < |nodes| }

  // ---------- Sorting the batch ----------

  function Insert<T>(nodes: seq<Queued<T>>, id: NodeId, sorted: seq<NodeId>): (r: seq<NodeId>)
    requires id < |nodes| && Known(nodes, sorted)
    ensures Known(nodes, r) && |r| == |sorted| + 1 && multiset(r) == multiset(sorted) + multiset{id}
  {
    if sorted == [] || nodes[id].sequence <= nodes[sorted[0]].sequence then [id] + sorted
    else
      assert sorted == [sorted[0]] + sorted[1..];
      [sorted[0]] + Insert(nodes, id, sorted[1..])
  }

  function Sort<T>(nodes: seq<Queued<T>>, ids: seq<NodeId>): (r: seq<NodeId>)
    requires Known(nodes, ids)
    ensures Known(nodes, r) && |r| == |ids| && multiset(r) == multiset(ids)
  {
    if ids == [] then []
    else
      assert ids == [ids[0]] + ids[1..];
      Insert(nodes, ids[0], Sort(nodes, ids[1..]))
  }

  predicate Ascending<T>(items: seq<Queued<T>>) {
    forall i, j | 0 <= i < j < |items| :: items[i].sequence < items[j].sequence
  }

  predicate Descending<T>(items: seq<Queued<T>>) {
    forall i, j | 0 <= i < j < |items| :: items[i].sequence > items[j].sequence
  }

  predicate SortedIds<T>(nodes: seq<Queued<T>>, ids: seq<NodeId>)
    requires Known(nodes, ids)
  {
    forall i, j | 0 <= i < j < |ids| :: nodes[ids[i]].sequence < nodes[ids[j]].sequence
  }

  lemma SameMembers<T>(nodes: seq<Queued<T>>, id: NodeId, sorted: seq<NodeId>)
    requires id < |nodes| && Known(nodes, sorted)
    ensures forall x :: x in Insert(nodes, id, sorted) <==> x == id || x in sorted
  {
    assert forall x :: x in Insert(nodes, id, sorted) <==> x in multiset(sorted) + multiset{id};
  }

  lemma ConsAscending<T>(nodes: seq<Queued<T>>, first: NodeId, rest: seq<NodeId>)
    requires first < |nodes| && Known(nodes, rest) && SortedIds(nodes, rest)
    requires forall x | x in rest :: nodes[x].sequence > nodes[first].sequence
    ensures Known(nodes, [first] + rest) && SortedIds(nodes, [first] + rest)
  {
    assert forall j | 0 <= j < |rest| :: rest[j] in rest;
  }

  lemma {:induction false} InsertAscending<T>(nodes: seq<Queued<T>>, id: NodeId, sorted: seq<NodeId>)
    requires id < |nodes| && Known(nodes, sorted) && SortedIds(nodes, sorted)
    requires forall x | x in sorted :: nodes[x].sequence != nodes[id].sequence
    ensures SortedIds(nodes, Insert(nodes, id, sorted))
  {
    hide SortedIds;
    AscendingTail(nodes, sorted);
    if sorted != [] && nodes[id].sequence > nodes[sorted[0]].sequence {
      InsertAscending(nodes, id, sorted[1..]);
      SameMembers(nodes, id, sorted[1..]);
      ConsAscending(nodes, sorted[0], Insert(nodes, id, sorted[1..]));
    } else {
      assert forall x | x in sorted :: x == sorted[0] || x in sorted[1..];
      ConsAscending(nodes, id, sorted);
    }
  }

  lemma AscendingTail<T>(nodes: seq<Queued<T>>, sorted: seq<NodeId>)
    requires Known(nodes, sorted) && SortedIds(nodes, sorted)
    ensures sorted != [] ==> SortedIds(nodes, sorted[1..])
    ensures sorted != [] ==> forall x | x in sorted[1..] :: nodes[x].sequence > nodes[sorted[0]].sequence
  {
  }

  /** The flushed list is newest first; sorting it puts the events in emission order. */
  lemma {:induction false} SortAscending<T>(nodes: seq<Queued<T>>, ids: seq<NodeId>)
    requires Known(nodes, ids)
    requires forall i, j | 0 <= i < j < |ids| :: nodes[ids[i]].sequence > nodes[ids[j]].sequence
    ensures SortedIds(nodes, Sort(nodes, ids))
  {
    if ids == [] {
    } else {
      var tail := Sort(nodes, ids[1..]);
      SortAscending(nodes, ids[1..]);
      forall x | x in tail
        ensures nodes[x].sequence != nodes[ids[0]].sequence
      {
        assert x in multiset(ids[1..]);
        var j :| 1 <= j < |ids| && ids[j] == x;
      }
      InsertAscending(nodes, ids[0], tail);
    }
  }

  // ---------- The worker's steps ----------

  predicate Shape<T>(k: Sink<T>) {
    && |k.nodes| == CAPACITY
    && Known(k.nodes, k.free) && Known(k.nodes, k.pending)
    && Known(k.nodes, k.worker.batch)
    && (k.worker.spent.Some? ==> k.worker.spent.value < CAPACITY)
  }

  function Goto<T>(k: Sink<T>, phase: Phase): Sink<T> { k.(worker := k.worker.(phase := phase)) }

  // recycle_or_drop_pending takes the whole pending list, newest first.
  function Recycle<T>(k: Sink<T>): Sink<T> {
    k.(pending := [], worker := k.worker.(phase := Recycling, batch := k.pending))
  }

  function Refree<T>(k: Sink<T>): Sink<T>
    requires k.worker.spent.Some?
  {
    k.(free := [k.worker.spent.value] + k.free, worker := k.worker.(spent := None))
  }

  function Lose<T>(k: Sink<T>, item: Queued<T>): Sink<T> {
    k.(dropped := k.dropped + 1, log := k.log.(lost := k.log.lost + [item]))
  }

  function CountFirst<T>(k: Sink<T>): Sink<T>
    requires Shape(k) && k.worker.batch != []
  {
    var id := k.worker.batch[0];
    Lose(k, k.nodes[id]).(worker := k.worker.(batch := k.worker.batch[1..], spent := Some(id)))
  }

  // Takes the pending list into the batch array, sorts it, and drops what does not fit.
  function Flush<T>(k: Sink<T>): Sink<T>
    requires Shape(k)
  {
    var taken := Min(|k.pending|, CAPACITY);
    var surplus := k.pending[taken..];
    k.(pending := [], free := surplus + k.free, dropped := k.dropped + |surplus|,
       log := k.log.(lost := k.log.lost + At(k.nodes, surplus)),
       worker := k.worker.(phase := Sending, batch := Sort(k.nodes, k.pending[..taken])))
  }

  function Send<T>(k: Sink<T>, ok: bool): Sink<T>
    requires Shape(k) && k.worker.batch != []
  {
    var id, rest := k.worker.batch[0], k.worker.batch[1..];
    var item := k.nodes[id];
    if ok then
      k.(worker := k.worker.(batch := rest, spent := Some(id)),
         log := k.log.(delivered := k.log.delivered + [item], wire := k.log.wire + [Data(item)]))
    else
      k.(worker := k.worker.(phase := Abandoning, batch := rest, spent := Some(id), owed := Some(item)))
  }

  function CountOwed<T>(k: Sink<T>): Sink<T>
    requires k.worker.owed.Some?
  {
    Lose(k, k.worker.owed.value).(worker := k.worker.(owed := None))
  }

  function Greeted<T>(k: Sink<T>): Sink<T> {
    k.(worker := k.worker.(phase := Flushing, reported := 0),
       log := k.log.(wire := [Hello], connections := k.log.connections + 1))
  }

  function Counted<T>(k: Sink<T>, refusing: bool): Sink<T> {
    k.(worker := k.worker.(phase := Deciding, drops := k.dropped, raced := refusing))
  }

  function Noticed<T>(k: Sink<T>): Sink<T> {
    k.(worker := k.worker.(phase := Flushing, reported := k.worker.drops),
       log := k.log.(wire := k.log.wire + [Notice(k.worker.number, Report(k.worker.drops))]))
  }

  function Unnoticed<T>(k: Sink<T>): Sink<T> {
    k.(worker := k.worker.(phase := Connecting, reported := k.worker.drops))
  }

  /** One step of the worker outside the emit lock; ok is the outcome of its pipe call. */
  function WorkerStep<T>(k: Sink<T>, ok: bool, refusing: bool): Sink<T>
    requires Shape(k) && !k.worker.phase.Deciding?
  {
    var w := k.worker;
    match w.phase
    case NotStarted => Goto(k, Connecting)
    case Connecting => if ok then Goto(k, Greeting) else Recycle(k)
    case Greeting =>
      if ok then Greeted(k) else Recycle(k)
    case Recycling =>
      if w.spent.Some? then Refree(k)
      else if w.batch != [] then CountFirst(k)
      else Goto(k, Connecting)
    case Flushing => Flush(k)
    case Sending =>
      if w.spent.Some? then Refree(k)
      else if w.batch != [] then Send(k, ok)
      else Goto(k, Counting)
    case Abandoning =>
      if w.spent.Some? then Refree(k)
      else if w.owed.Some? then CountOwed(k)
      else if w.batch != [] then CountFirst(k)
      else Goto(k, Connecting)
    case Counting =>
      if k.dropped == w.reported then Goto(k, Flushing) else Counted(k, refusing)
    case Noticing => if ok then Noticed(k) else Unnoticed(k)
  }

  /** The section under the emit lock: the notice draws a number only over an empty queue. */
  function Decide<T>(k: Sink<T>, number: nat): Sink<T> {
    if k.pending == [] then k.(worker := k.worker.(phase := Noticing, number := number))
    else Goto(k, Flushing)
  }

  // ---------- The emitter's steps on one sink ----------

  function Offer<T>(k: Sink<T>, item: Queued<T>): Sink<T> {
    k.(log := k.log.(offered := k.log.offered + [item]))
  }

  // Pops a free node for the item, when there is one.
  function Pop<T>(k: Sink<T>, item: Queued<T>): Sink<T> {
    if k.free == [] then Offer(k, item) else Offer(k, item).(free := k.free[1..])
  }

  function Push<T>(k: Sink<T>, node: NodeId, item: Queued<T>): Sink<T>
    requires node < |k.nodes|
  {
    k.(nodes := k.nodes[node := item], pending := [node] + k.pending)
  }

  // ---------- The invariant ----------

  /** The preallocated nodes, pushed in turn on the free list. */
  function Ids(n: nat): (r: seq<NodeId>)
    ensures |r| == n
    ensures forall i | 0 <= i < n :: r[i] < n
  {
    if n == 0 then [] else [n - 1] + Ids(n - 1)
  }

  lemma {:induction false} IdsOnce(n: nat, id: NodeId)
    ensures multiset(Ids(n))[id] == if id < n then 1 else 0
  {
    if n == 0 {
    } else {
      IdsOnce(n - 1, id);
      assert multiset([n - 1] + Ids(n - 1)) == multiset{n - 1} + multiset(Ids(n - 1));
    }
  }

  ghost function One<T>(o: Option<T>): multiset<T> { if o.Some? then multiset{o.value} else multiset{} }

  /** All places a node can be in. */
  ghost function Places<T>(k: Sink<T>, held: Option<NodeId>): multiset<NodeId> {
    multiset(k.free) + multiset(k.pending) + multiset(k.worker.batch) + One(k.worker.spent) + One(held)
  }

  /** Every node is in exactly one place. */
  ghost predicate Placed<T>(k: Sink<T>, held: Option<NodeId>) { Places(k, held) == k.owned }

  /** Every offered event is sent, counted as dropped, or still somewhere in the sink. */
  ghost predicate Accounted<T>(k: Sink<T>, flight: Option<Queued<T>>)
    requires Shape(k)
  {
    && multiset(k.log.offered) == multiset(k.log.delivered) + multiset(k.log.lost)
         + multiset(At(k.nodes, k.pending)) + multiset(At(k.nodes, k.worker.batch))
         + One(k.worker.owed) + One(flight)
    && k.dropped == |k.log.lost|
  }

  function LastSequence<T>(items: seq<Queued<T>>): nat { if items == [] then 0 else items[|items| - 1].sequence }

  function LastNumber<T>(wire: seq<Packet<T>>): nat { if wire == [] then 0 else Number(wire[|wire| - 1]) }

  /** The highest number this sink has put on a pipe, or reserved for its notice. */
  function Mark<T>(k: Sink<T>): nat {
    Max(Max(LastSequence(k.log.delivered), LastNumber(k.log.wire)),
        if k.worker.phase.Noticing? then k.worker.number else 0)
  }

  function Max(a: nat, b: nat): nat { if a >= b then a else b }

  predicate Between<T>(items: seq<Queued<T>>, low: nat, high: nat) {
    forall i | 0 <= i < |items| :: low < items[i].sequence <= high
  }

  predicate Before<T>(a: seq<Queued<T>>, b: seq<Queued<T>>) {
    forall i, j | 0 <= i < |a| && 0 <= j < |b| :: a[i].sequence < b[j].sequence
  }

  predicate WireOrdered<T>(wire: seq<Packet<T>>) {
    && (wire != [] ==> wire[0] == Hello)
    && (forall i, j | 0 <= i < j < |wire| :: Number(wire[i]) < Number(wire[j]))
  }

  predicate Connected(phase: Phase) {
    phase.Flushing? || phase.Sending? || phase.Counting? || phase.Deciding? || phase.Noticing?
  }

  /** bound is at least every number this sink has seen apart from the event in flight. */
  predicate Ordered<T>(k: Sink<T>, bound: nat)
    requires Shape(k)
  {
    var pending, batch := At(k.nodes, k.pending), At(k.nodes, k.worker.batch);
    && WireOrdered(k.log.wire) && Ascending(k.log.delivered)
    && (Connected(k.worker.phase) ==> k.log.wire != [])
    && Mark(k) <= bound
    && Descending(pending) && Between(pending, Mark(k), bound)
    && Between(batch, Mark(k), bound) && Before(batch, pending)
    && (k.worker.phase.Sending? ==> Ascending(batch))
    && (k.worker.phase.Noticing? ==>
          LastSequence(k.log.delivered) < k.worker.number && LastNumber(k.log.wire) < k.worker.number)
  }

  predicate OfferedOrdered<T>(k: Sink<T>, bound: nat) {
    Ascending(k.log.offered) && Between(k.log.offered, 0, bound)
  }

  predicate Busy(phase: Phase) { phase.Recycling? || phase.Sending? || phase.Abandoning? }

  // What each phase holds in its hands.
  ghost predicate Tidy<T>(k: Sink<T>) {
    var w := k.worker;
    && (!Busy(w.phase) ==> w.batch == [] && w.spent.None?)
    && (!w.phase.Abandoning? ==> w.owed.None?)
    && (w.phase.NotStarted? ==> !k.running && k.log.wire == [])
    && (k.log.connections == 0 ==> !Connected(w.phase) && k.log.wire == [] && k.log.delivered == [])
  }

  predicate HasNotice<T>(wire: seq<Packet<T>>, dropped: nat) {
    exists i :: 0 <= i < |wire| && wire[i].Notice? && wire[i].dropped == dropped
  }

  function DataOf<T>(wire: seq<Packet<T>>): seq<Queued<T>> {
    if wire == [] then []
    else DataOf(wire[..|wire| - 1]) + match wire[|wire| - 1]
      case Data(item) => [item]
      case _ => []
  }

  /** What the drop counter, the last report and the notices on the wire say of each other. */
  ghost predicate Reported<T>(k: Sink<T>, refusing: bool) {
    var w := k.worker;
    && w.reported <= k.dropped
    && (w.phase.Deciding? || w.phase.Noticing? ==> w.reported < w.drops <= k.dropped)
    && (w.phase.Deciding? && k.pending == [] ==>
          k.dropped == w.drops + (if w.raced && !refusing then 1 else 0) && (refusing ==> w.raced))
    && (forall i | 0 <= i < |k.log.wire| && k.log.wire[i].Notice? :: 0 < k.log.wire[i].dropped <= k.dropped)
    && (Connected(w.phase) && w.reported > 0 ==> HasNotice(k.log.wire, Report(w.reported)))
  }

  /**
   A connection ends with a loss, so after the first one something is lost; and the current wire
   carries the end of what was ever delivered, on the first connection all of it.
   */
  ghost predicate Continued<T>(k: Sink<T>) {
    var (w, data, delivered) := (k.worker, DataOf(k.log.wire), k.log.delivered);
    && (k.log.connections >= 2 || (k.log.connections == 1 && !Connected(w.phase)) ==> k.dropped > 0 || w.owed.Some?)
    && |data| <= |delivered| && data == delivered[|delivered| - |data|..]
    && (k.log.connections <= 1 ==> data == delivered)
  }

  /** Nodes and events are all somewhere, once. */
  ghost predicate Booked<T>(k: Sink<T>, held: Option<NodeId>, flight: Option<Queued<T>>) {
    && Shape(k) && Tidy(k) && Placed(k, held) && Accounted(k, flight)
    && (held.Some? ==> flight.Some? && held.value < CAPACITY)
  }

  predicate Refusing<T>(held: Option<NodeId>, flight: Option<Queued<T>>) { flight.Some? && held.None? }

  /** Numbers only grow, on every list and on the wire, and the notices tell of the drops. */
  ghost predicate Numbered<T>(k: Sink<T>, held: Option<NodeId>, flight: Option<Queued<T>>, bound: nat) {
    && Shape(k) && Ordered(k, bound) && Reported(k, Refusing(held, flight)) && Continued(k)
    && (flight.Some? ==> flight.value.sequence == bound + 1)
    && OfferedOrdered(k, if flight.Some? then bound + 1 else bound)
  }

  ghost predicate SinkInv<T>(k: Sink<T>, held: Option<NodeId>, flight: Option<Queued<T>>, bound: nat) {
    Booked(k, held, flight) && Numbered(k, held, flight, bound)
  }
}
