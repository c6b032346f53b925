/**
 From an emitted event to the frame the detector applies: the sink's packets become wire
 frames, the frames cross the pipe in chunks, the server checks them, and the detector
 learns of a loss exactly when there was one.
 */
module Pipeline {
  import opened Bytes
  import opened Utf8
  import opened Protocol
  import opened RoundTrip
  import opened Producers
  import Streams
  import opened Sinks
  import Telemetry
  import Emissions
  import opened TelemetryTheorems
  import Settings
  import Hysteresis
  import Sources
  import SourceSafety
  import Engine
  import EngineSafety
  import EngineRuns
  import opened Receiver
  import opened Delivery

  // ---------- Packets as events ----------

  // The 64-bit field that carries a sequence number.
  function Field(number: nat): u64 { number % 0x1_0000_0000_0000_0000 }

  /** One sink's side of the pipe: the greeting it has prepared, and the clock it reads for each notice. */
  datatype Voice = Voice(hello: Event, clock: nat -> u64)

  /** What the worker serializes for a packet. */
  function EventOf(p: Packet<Event>, v: Voice): Event {
    match p
    case Hello => v.hello.(sequence := 0)
    case Data(item) => item.body.(sequence := Field(item.sequence))
    case Notice(number, dropped) =>
      Blank().(messageType := DROP_NOTICE, processId := v.hello.processId, sequence := Field(number),
               qpcTicks := v.clock(number),
               dropped := Report(dropped))
  }

  function EventsOf(wire: seq<Packet<Event>>, v: Voice): (r: seq<Event>)
    ensures |r| == |wire| && forall i | 0 <= i < |wire| :: r[i] == EventOf(wire[i], v)
  {
    seq(|wire|, i requires 0 <= i < |wire| => EventOf(wire[i], v))
  }

  predicate AllEmittable(items: seq<Queued<Event>>, processId: u32) {
    forall i | 0 <= i < |items| :: Emittable(items[i].body, processId)
  }

  lemma NoticeIsProducible(v: Voice, number: nat, dropped: nat)
    ensures Producible(EventOf(Notice(number, dropped), v))
  {
    hide CString, Zeros;
    BlankTexts();
  }

  /** Every packet of a sink becomes a frame the server's decoder accepts. */
  lemma PacketIsProducible(p: Packet<Event>, v: Voice)
    requires Greets(v.hello) && (p.Data? ==> Emittable(p.item.body, v.hello.processId))
    ensures Producible(EventOf(p, v)) && EventOf(p, v).processId == v.hello.processId
    ensures EventOf(p, v).messageType == HELLO <==> p.Hello?
    ensures EventOf(p, v).messageType == DROP_NOTICE <==> p.Notice?
  {
    hide WellFormed, CString;
    if p.Notice? {
      NoticeIsProducible(v, p.number, p.dropped);
    }
  }

  // ---------- What the sink guarantees of its wire ----------

  lemma {:induction false} SequenceFits<T>(s: Telemetry.System<T>, actions: seq<Telemetry.Action<T>>)
    requires Telemetry.SystemInv(s) && s.sequence <= Telemetry.MAX_SEQUENCE
    ensures Telemetry.Run(s, actions).sequence <= Telemetry.MAX_SEQUENCE
  {
    hide Telemetry.SinkOk, Shape, WorkerStep, Decide, Pop, Push, Lose;
    if actions == [] {
    } else {
      SequenceFits(s, actions[..|actions| - 1]);
    }
  }

  lemma WireNumbers<T>(k: Sink<T>, bound: nat)
    requires Shape(k) && Ordered(k, bound)
    ensures WireOrdered(k.log.wire)
    ensures forall i | 0 <= i < |k.log.wire| :: Number(k.log.wire[i]) <= bound
  {
    hide At, Ascending, Descending, Between, Before;
    if k.log.wire != [] {
      forall i | 0 <= i < |k.log.wire|
        ensures Number(k.log.wire[i]) <= LastNumber(k.log.wire)
      {
      }
    }
  }

  lemma {:induction false} DataMembers<T>(wire: seq<Packet<T>>, i: nat)
    requires i < |wire| && wire[i].Data?
    ensures wire[i].item in DataOf(wire)
    decreases wire
  {
    var last := |wire| - 1;
    if i < last {
      DataMembers(wire[..last], i);
    }
  }

  lemma DeliveredWasOffered<T>(k: Sink<T>, flight: Option<Queued<T>>, item: Queued<T>)
    requires Shape(k) && Accounted(k, flight) && item in k.log.delivered
    ensures item in k.log.offered
  {
    hide At;
    assert item in multiset(k.log.delivered);
    assert item in multiset(k.log.offered);
  }

  /**
   On every connection the wire is a greeting, then offered events and notices, numbers growing and
   fitting the field.
   */
  lemma CurrentWire<T>(blank: Queued<T>, actions: seq<Telemetry.Action<T>>, i: nat)
    requires i < Telemetry.SINKS
    ensures var k := After(blank, actions).sinks[i];
      && WireOrdered(k.log.wire)
      && (forall j | 0 <= j < |k.log.wire| :: Number(k.log.wire[j]) <= Telemetry.MAX_SEQUENCE)
      && (forall j | 0 <= j < |k.log.wire| && k.log.wire[j].Data? :: k.log.wire[j].item in k.log.offered)
      && (forall j | 0 <= j < |k.log.wire| && k.log.wire[j].Notice? :: k.log.wire[j].dropped > 0)
  {
    hide Telemetry.SystemInv, Telemetry.Run, Telemetry.Init, WireOrdered, Ordered, Accounted, Placed, Tidy, Shape,
      DataOf, HasNotice;
    var s := After(blank, actions);
    var k := s.sinks[i];
    SinkOf(s, i);
    Telemetry.InitOk(blank);
    FreshSequence(blank);
    SequenceFits(Telemetry.Init(blank), actions);
    WireNumbers(k, Telemetry.Bound(s, i));
    forall j | 0 <= j < |k.log.wire| && k.log.wire[j].Data?
      ensures k.log.wire[j].item in k.log.offered
    {
      DataMembers(k.log.wire, j);
      assert DataOf(k.log.wire) == k.log.delivered[|k.log.delivered| - |DataOf(k.log.wire)|..];
      DeliveredWasOffered(k, Telemetry.Flight(s, i), k.log.wire[j].item);
    }
  }

  lemma FreshSequence<T>(blank: Queued<T>)
    ensures Telemetry.Init(blank).sequence == 0
  {
  }

  // ---------- Across the pipe ----------

  /** The wire of a connection, with what was shown of it. */
  predicate GoodWire(wire: seq<Packet<Event>>, v: Voice) {
    && Greets(v.hello) && WireOrdered(wire)
    && (forall j | 0 <= j < |wire| :: Number(wire[j]) <= Telemetry.MAX_SEQUENCE)
    && (forall j | 0 <= j < |wire| && wire[j].Data? :: Emittable(wire[j].item.body, v.hello.processId))
  }

  lemma WireIsProducible(wire: seq<Packet<Event>>, v: Voice)
    requires GoodWire(wire, v)
    ensures Streams.AllProducible(EventsOf(wire, v))
  {
    hide Producible, Emittable, Greets, WireOrdered, EventOf;
    forall i | 0 <= i < |wire|
      ensures Producible(EventsOf(wire, v)[i])
    {
      PacketIsProducible(wire[i], v);
    }
  }

  /** The frames the server's decoder makes of a good wire. */
  function FramesOf(wire: seq<Packet<Event>>, v: Voice): (frames: seq<Frame>)
    requires GoodWire(wire, v)
    ensures |frames| == |wire|
  {
    WireIsProducible(wire, v);
    Streams.ExpectedAll(EventsOf(wire, v))
  }

  lemma FrameAt(wire: seq<Packet<Event>>, v: Voice, i: nat)
    requires GoodWire(wire, v) && i < |wire|
    ensures Greets(v.hello) && (wire[i].Data? ==> Emittable(wire[i].item.body, v.hello.processId))
    ensures Producible(EventOf(wire[i], v)) && FramesOf(wire, v)[i] == Expected(EventOf(wire[i], v))
  {
    hide Emittable, Greets, WireOrdered, EventOf, Producible, Expected;
    WireIsProducible(wire, v);
    assert EventsOf(wire, v)[i] == EventOf(wire[i], v);
  }

  lemma PacketFields(p: Packet<Event>, v: Voice)
    requires Greets(v.hello) && (p.Data? ==> Emittable(p.item.body, v.hello.processId)) && Producible(EventOf(p, v))
    requires Number(p) <= Telemetry.MAX_SEQUENCE
    ensures var f := Expected(EventOf(p, v));
      && f.sequence == Number(p) && f.processId == v.hello.processId
      && (f.messageType == HELLO <==> p.Hello?) && (f.messageType == DROP_NOTICE <==> p.Notice?)
      && (p.Hello? ==> SafeSessionId(f.sessionId))
      && (p.Notice? ==> f.dropped == Report(p.dropped))
  {
    hide WellFormed, SafeSessionId, CString, WireText;
  }

  lemma FrameFields(wire: seq<Packet<Event>>, v: Voice, i: nat)
    requires GoodWire(wire, v) && i < |wire|
    ensures var f := FramesOf(wire, v)[i];
      && f.sequence == Number(wire[i]) && f.processId == v.hello.processId
      && (f.messageType == HELLO <==> wire[i].Hello?) && (f.messageType == DROP_NOTICE <==> wire[i].Notice?)
      && (wire[i].Hello? ==> SafeSessionId(f.sessionId))
      && (wire[i].Notice? ==> f.dropped == Report(wire[i].dropped))
  {
    assert Number(wire[i]) <= Telemetry.MAX_SEQUENCE;
    hide *;
    FrameAt(wire, v, i);
    PacketFields(wire[i], v);
  }

  lemma NoLaterGreeting(wire: seq<Packet<Event>>)
    requires WireOrdered(wire)
    ensures forall i | 1 <= i < |wire| :: !wire[i].Hello?
  {
    forall i | 1 <= i < |wire|
      ensures !wire[i].Hello?
    {
      assert Number(wire[0]) < Number(wire[i]);
    }
  }

  lemma FramesOrderly(wire: seq<Packet<Event>>, v: Voice)
    requires GoodWire(wire, v)
    ensures Orderly(v.hello.processId, FramesOf(wire, v))
  {
    hide Emittable, Greets, FramesOf, SafeSessionId;
    var frames := FramesOf(wire, v);
    NoLaterGreeting(wire);
    forall i | 0 <= i < |frames|
      ensures frames[i].sequence == Number(wire[i]) && frames[i].processId == v.hello.processId
      ensures (frames[i].messageType == HELLO <==> wire[i].Hello?)
        && (wire[i].Hello? ==> SafeSessionId(frames[i].sessionId))
    {
      FrameFields(wire, v, i);
    }
  }

  /** Cut into any chunks of at most 64 KiB, the wire arrives whole and passes every check of the server. */
  lemma WireArrives(wire: seq<Packet<Event>>, v: Voice, chunks: seq<seq<byte>>)
    requires GoodWire(wire, v)
    requires Streams.AllProducible(EventsOf(wire, v)) && Streams.Concat(chunks) == Streams.WireAll(EventsOf(wire, v))
    requires forall i | 0 <= i < |chunks| :: |chunks[i]| <= MAX_FRAME_SIZE
    ensures Streams.FeedAll(Streams.CSHARP, [], chunks) == Streams.Run(FramesOf(wire, v), [], None)
    ensures Accepted(Client(v.hello.processId, None, None), FramesOf(wire, v)) == (FramesOf(wire, v), None)
  {
    hide GoodWire, Streams.FeedAll, Streams.WireAll, Streams.Concat, Streams.ExpectedAll, Streams.AllProducible,
      Accepted, Orderly, EventsOf;
    Streams.DeliversEvents(EventsOf(wire, v), chunks);
    FramesOrderly(wire, v);
    AcceptsOrderly(v.hello.processId, FramesOf(wire, v));
  }

  // ---------- What the detector concludes ----------

  predicate Tells(f: Frame, known: u64) { f.messageType == DROP_NOTICE && f.dropped > known }

  lemma FrameGap(s: Sources.Source, f: Frame, now: real)
    requires SourceSafety.SourceInv(s)
    ensures var n := Sources.Apply(s, f, now);
      && (n.issues.frameGap <==> s.issues.frameGap || Tells(f, s.losses.frames))
      && n.losses.frames == if Tells(f, s.losses.frames) then f.dropped else s.losses.frames
  {
    hide SourceSafety.Tables, Sources.WithDevice, Sources.ApplyProperty, Sources.ApplyEffectCreated,
      Sources.ApplyEffectParameters, Sources.ApplyEffectCommand, Sources.ApplyDeviceCommand;
    SourceSafety.WithDeviceOk(s, f.deviceId);
    SourceSafety.PropertyOk(s, f);
    SourceSafety.CreatedOk(s, f);
    SourceSafety.ParametersOk(s, f, now);
    SourceSafety.CommandOk(s, f, now);
    SourceSafety.DeviceCommandOk(s, f.deviceId, f.diFlags, now);
  }

  // A stored source learns nothing from connections coming and going, its own included.
  lemma ComingsAndGoings(d: Engine.Detector, call: EngineRuns.Call, sine: real -> real, key: Sources.SourceKey)
    requires Settings.Normal(d.settings) && key in d.sources && !call.Processing? && !call.Ticking?
    requires key in EngineRuns.Do(d, call, sine).sources
    ensures var (s, n) := (d.sources[key], EngineRuns.Do(d, call, sine).sources[key]);
      n.issues.frameGap == s.issues.frameGap && n.losses == s.losses
  {
    hide Settings.Normal, Engine.Oldest, Sources.Deactivated, Hysteresis.Silenced;
    match call
    case Connecting(identity, connection, now, order) => Joining(d, identity, connection, now, order, key);
    case _ =>
  }

  lemma Joining(d: Engine.Detector, identity: Sources.Identity, connection: nat, now: real,
      order: seq<Sources.SourceKey>, key: Sources.SourceKey)
    requires key in d.sources && key in Engine.Connect(d, identity, connection, now, order).sources
    ensures var n := Engine.Connect(d, identity, connection, now, order);
      n.sources[key].issues == d.sources[key].issues && n.sources[key].losses == d.sources[key].losses
  {
    hide Engine.Oldest;
  }

  // One frame call: only a frame that is heard can tell of a gap.
  lemma FrameCallGap(d: Engine.Detector, k: Sources.SourceKey, f: Frame, now: real, key: Sources.SourceKey)
    requires key in d.sources && SourceSafety.SourceInv(d.sources[key])
    ensures var (s, n) := (d.sources[key], Engine.ProcessFrame(d, k, f, now));
      var told := k == key && f.processId == key.processId && Sources.Connected(s) && Tells(f, s.losses.frames);
      && key in n.sources && (n.sources[key].issues.frameGap <==> s.issues.frameGap || told)
      && n.sources[key].losses.frames == if told then f.dropped else s.losses.frames
  {
    hide Sources.Apply, SourceSafety.SourceInv, Sources.Connected, Tells;
    if k == key {
      var s := d.sources[key].(lastActivity := now);
      EngineSafety.RenamedOk(d.sources[key], s.identity, s.connections, now);
      FrameGap(s, f, now);
    }
  }

  // One call: only the source's own frames can tell of a gap.
  lemma CallGap(d: Engine.Detector, call: EngineRuns.Call, sine: real -> real, key: Sources.SourceKey)
    requires EngineSafety.DetectorInv(d) && Settings.Normal(d.settings) && key in d.sources
      && key in EngineRuns.Do(d, call, sine).sources
    ensures var (s, n) := (d.sources[key], EngineRuns.Do(d, call, sine).sources[key]);
      var told := Hears(d, call, key) && Tells(call.frame, s.losses.frames);
      && (n.issues.frameGap <==> s.issues.frameGap || told)
      && n.losses.frames == if told then call.frame.dropped else s.losses.frames
  {
    hide EngineSafety.DetectorInv, Engine.TickAll, Settings.Normal, Engine.ProcessFrame, SourceSafety.SourceInv,
      Engine.Connect, Engine.Disconnect, Sources.Connected, Tells;
    match call
    case Ticking(now, order, walks) => EngineRuns.TickIssues(d, order, walks, now, sine, key);
    case Processing(k, f, now) =>
      EngineRuns.StoredInv(d, key);
      FrameCallGap(d, k, f, now, key);
    case _ => ComingsAndGoings(d, call, sine, key);
  }

  /**
   Over any calls through which the source stays stored, reconnects included, the gap bit is set
   exactly when one of the frames it took in told of more drops than were known.
   */
  lemma {:induction false} GapIsTold(d: Engine.Detector, calls: seq<EngineRuns.Call>, sine: real -> real,
      key: Sources.SourceKey)
    requires EngineSafety.DetectorInv(d) && EngineRuns.StoredThroughout(d, calls, sine, key)
    ensures key in EngineRuns.Run(d, calls, sine).sources
    ensures EngineRuns.Run(d, calls, sine).sources[key].issues.frameGap <==>
      d.sources[key].issues.frameGap
      || exists f :: f in Heard(d, calls, sine, key) && Tells(f, d.sources[key].losses.frames)
    decreases calls
  {
    hide EngineSafety.DetectorInv, EngineRuns.Do, Settings.Normal, Hears;
    if calls == [] {
    } else {
      EngineRuns.InvNormal(d);
      EngineRuns.CallKeeps(d, calls[0], sine);
      var next := EngineRuns.Do(d, calls[0], sine);
      GapIsTold(next, calls[1..], sine, key);
      CallGap(d, calls[0], sine, key);
      HeardFirst(d, calls, sine, key);
    }
  }

  lemma HeardFirst(d: Engine.Detector, calls: seq<EngineRuns.Call>, sine: real -> real, key: Sources.SourceKey)
    requires EngineSafety.DetectorInv(d) && calls != [] && EngineSafety.DetectorInv(EngineRuns.Do(d, calls[0], sine))
    ensures Hears(d, calls[0], key) ==> calls[0].Processing?
    ensures forall f :: f in Heard(d, calls, sine, key) <==>
      (Hears(d, calls[0], key) && f == calls[0].frame)
        || f in Heard(EngineRuns.Do(d, calls[0], sine), calls[1..], sine, key)
  {
    hide EngineSafety.DetectorInv, EngineRuns.Do;
  }

  // ---------- End to end ----------

  lemma EmittedExpected(e: Event, number: nat, v: Voice)
    requires Emittable(e, v.hello.processId)
    ensures var x := EventOf(Data(Queued(number, e)), v);
      Shaped(x) && x.axisCount <= MAX_AXES && x.conditionCount <= MAX_AXES
  {
    hide WellFormed;
  }

  /** The frames of the emitted events themselves, in emission order. */
  function EmittedFrames(items: seq<Queued<Event>>, v: Voice): (frames: seq<Frame>)
    requires AllEmittable(items, v.hello.processId)
    ensures |frames| == |items|
  {
    seq(|items|, i requires 0 <= i < |items| =>
      EmittedExpected(items[i].body, items[i].sequence, v); Expected(EventOf(Data(items[i]), v)))
  }

  lemma {:induction false} OnlyData<T>(wire: seq<Packet<T>>)
    requires wire != [] && wire[0].Hello? && forall i | 1 <= i < |wire| :: wire[i].Data?
    ensures |DataOf(wire)| == |wire| - 1
    ensures forall i | 1 <= i < |wire| :: wire[i].item == DataOf(wire)[i - 1]
    decreases wire
  {
    if |wire| > 1 {
      var front := wire[..|wire| - 1];
      OnlyData(front);
      forall i | 1 <= i < |wire|
        ensures wire[i].item == DataOf(wire)[i - 1]
      {
        if i < |front| {
          assert wire[i] == front[i];
        }
      }
    } else {
      assert DataOf(wire[..0]) == [];
    }
  }

  lemma SameFrames(wire: seq<Packet<Event>>, v: Voice, items: seq<Queued<Event>>)
    requires GoodWire(wire, v) && wire != [] && AllEmittable(items, v.hello.processId)
    requires (forall i | 0 <= i < |wire| :: !wire[i].Notice?) && DataOf(wire) == items
    ensures FramesOf(wire, v)[1..] == EmittedFrames(items, v)
  {
    hide Emittable, Greets, Producible, Expected, FramesOf, EventOf, WireOrdered, DataOf;
    NoLaterGreeting(wire);
    FirstIsGreeting(wire);
    assert forall i | 1 <= i < |wire| :: wire[i].Data?;
    OnlyData(wire);
    forall i | 0 <= i < |items|
      ensures FramesOf(wire, v)[1..][i] == EmittedFrames(items, v)[i]
    {
      FrameAt(wire, v, i + 1);
      EmittedExpected(items[i].body, items[i].sequence, v);
    }
  }

  lemma FirstIsGreeting<T>(wire: seq<Packet<T>>)
    requires WireOrdered(wire) && wire != []
    ensures wire[0].Hello?
  {
  }

  lemma EmittedTellNothing(items: seq<Queued<Event>>, v: Voice)
    requires AllEmittable(items, v.hello.processId)
    ensures forall f | f in EmittedFrames(items, v) :: f.messageType != DROP_NOTICE
  {
    hide WellFormed;
    forall i | 0 <= i < |items|
      ensures EmittedFrames(items, v)[i].messageType != DROP_NOTICE
    {
      EmittedExpected(items[i].body, items[i].sequence, v);
    }
  }

  /** What a first connection's wire says of loss, in frames: a notice somewhere, or exactly the offered events. */
  lemma WireTells(wire: seq<Packet<Event>>, v: Voice, items: seq<Queued<Event>>)
    requires GoodWire(wire, v) && wire != [] && AllEmittable(items, v.hello.processId)
    requires forall j | 0 <= j < |wire| && wire[j].Notice? :: wire[j].dropped > 0
    requires (forall j | 0 <= j < |wire| :: !wire[j].Notice?) <==> DataOf(wire) == items
    ensures (exists f :: f in FramesOf(wire, v)[1..] && Tells(f, 0)) <==>
      FramesOf(wire, v)[1..] != EmittedFrames(items, v)
  {
    hide AllEmittable, Greets, FramesOf, EmittedFrames, DataOf, GoodWire;
    var frames := FramesOf(wire, v);
    forall i | 0 <= i < |wire|
      ensures (frames[i].messageType == DROP_NOTICE <==> wire[i].Notice?)
      ensures wire[i].Notice? ==> frames[i].dropped > 0
      ensures i == 0 ==> !wire[i].Notice?
    {
      FrameFields(wire, v, i);
      StartsWithHello(wire, v);
    }
    EmittedTellNothing(items, v);
    if j :| 0 <= j < |wire| && wire[j].Notice? {
      assert frames[1..][j - 1] == frames[j] && Tells(frames[j], 0);
    } else {
      SameFrames(wire, v, items);
    }
  }

  lemma StartsWithHello(wire: seq<Packet<Event>>, v: Voice)
    requires GoodWire(wire, v) && wire != []
    ensures wire[0] == Hello
  {
  }

  lemma QuietWire<T>(s: Telemetry.System<T>, i: nat)
    requires Telemetry.SystemInv(s) && i < Telemetry.SINKS && s.sinks[i].worker.phase.Flushing?
    ensures s.sinks[i].log.wire != []
  {
    hide Telemetry.SystemInv, Booked, Reported, WireOrdered;
    SinkOf(s, i);
  }

  lemma GoodCurrentWire(blank: Queued<Event>, actions: seq<Telemetry.Action<Event>>, i: nat, v: Voice)
    requires i < Telemetry.SINKS && Greets(v.hello)
    requires AllEmittable(After(blank, actions).sinks[i].log.offered, v.hello.processId)
    ensures GoodWire(After(blank, actions).sinks[i].log.wire, v)
  {
    hide After, Greets, Emittable, WireOrdered;
    CurrentWire(blank, actions, i);
  }

  /** The wire's bytes, cut into chunks of at most 64 KiB. */
  predicate Carried(wire: seq<Packet<Event>>, v: Voice, chunks: seq<seq<byte>>) {
    && Streams.AllProducible(EventsOf(wire, v)) && Streams.Concat(chunks) == Streams.WireAll(EventsOf(wire, v))
    && (forall i | 0 <= i < |chunks| :: |chunks[i]| <= MAX_FRAME_SIZE)
  }

  lemma WirePasses(wire: seq<Packet<Event>>, v: Voice, chunks: seq<seq<byte>>)
    requires GoodWire(wire, v) && Carried(wire, v, chunks)
    ensures var frames := Streams.FeedAll(Streams.CSHARP, [], chunks).frames;
      frames == FramesOf(wire, v) && Accepted(Client(v.hello.processId, None, None), frames) == (frames, None)
  {
    hide GoodWire, Streams.FeedAll, Streams.WireAll, Streams.Concat, Streams.AllProducible, EventsOf, FramesOf,
      Accepted;
    WireArrives(wire, v, chunks);
  }

  /** What a source knew before: of losses only with the gap bit set. */
  lemma KnownLosses(d: Engine.Detector, key: Sources.SourceKey)
    requires EngineSafety.DetectorInv(d) && key in d.sources && !d.sources[key].issues.frameGap
    ensures d.sources[key].losses.frames == 0
  {
    EngineRuns.StoredInv(d, key);
    hide EngineSafety.DetectorInv, SourceSafety.Tables, SourceSafety.Admitted, SourceSafety.LevelsOk;
  }

  /** With the wire's frames taken in by the source, the gap bit says whether they are all that was offered. */
  lemma WireConcludes(wire: seq<Packet<Event>>, v: Voice, items: seq<Queued<Event>>, d: Engine.Detector,
                      calls: seq<EngineRuns.Call>, sine: real -> real, key: Sources.SourceKey)
    requires GoodWire(wire, v) && wire != [] && AllEmittable(items, v.hello.processId)
    requires forall j | 0 <= j < |wire| && wire[j].Notice? :: wire[j].dropped > 0
    requires (forall j | 0 <= j < |wire| :: !wire[j].Notice?) <==> DataOf(wire) == items
    requires EngineSafety.DetectorInv(d) && EngineRuns.StoredThroughout(d, calls, sine, key)
    requires d.sources[key].issues.frameGap ==> DataOf(wire) != items
    requires Heard(d, calls, sine, key) == FramesOf(wire, v)[1..]
    ensures key in EngineRuns.Run(d, calls, sine).sources
    ensures !EngineRuns.Run(d, calls, sine).sources[key].issues.frameGap <==>
      Heard(d, calls, sine, key) == EmittedFrames(items, v)
  {
    hide AllEmittable, GoodWire, EngineSafety.DetectorInv, EngineRuns.StoredThroughout, EngineRuns.Run, FramesOf,
      EmittedFrames, Heard, DataOf, Tells;
    WireTells(wire, v, items);
    StoredFirst(d, calls, sine, key);
    GapIsTold(d, calls, sine, key);
    if d.sources[key].issues.frameGap {
      ShortWire(wire, v, items);
    } else {
      KnownLosses(d, key);
    }
  }

  lemma StoredFirst(d: Engine.Detector, calls: seq<EngineRuns.Call>, sine: real -> real, key: Sources.SourceKey)
    requires EngineSafety.DetectorInv(d) && EngineRuns.StoredThroughout(d, calls, sine, key)
    ensures key in d.sources
  {
    hide EngineSafety.DetectorInv, EngineRuns.Do;
  }

  // A wire that does not carry everything is told apart by its notice.
  lemma ShortWire(wire: seq<Packet<Event>>, v: Voice, items: seq<Queued<Event>>)
    requires GoodWire(wire, v) && wire != [] && AllEmittable(items, v.hello.processId) && DataOf(wire) != items
    requires forall j | 0 <= j < |wire| && wire[j].Notice? :: wire[j].dropped > 0
    requires (forall j | 0 <= j < |wire| :: !wire[j].Notice?) <==> DataOf(wire) == items
    ensures FramesOf(wire, v)[1..] != EmittedFrames(items, v)
  {
    hide AllEmittable, GoodWire, FramesOf, EmittedFrames, DataOf, Tells;
    WireTells(wire, v, items);
    var j :| 0 <= j < |wire| && wire[j].Notice?;
    FrameFields(wire, v, j);
    StartsWithHello(wire, v);
    assert FramesOf(wire, v)[1..][j - 1] == FramesOf(wire, v)[j];
    TellsOf(FramesOf(wire, v)[j]);
  }

  lemma TellsOf(f: Frame)
    ensures Tells(f, 0) <==> f.messageType == DROP_NOTICE && f.dropped > 0
  {
  }

  // A second connection means that something was lost on the way.
  lemma ReconnectLost(blank: Queued<Event>, actions: seq<Telemetry.Action<Event>>, i: nat)
    requires i < Telemetry.SINKS && Quiescent(After(blank, actions), i)
      && After(blank, actions).sinks[i].log.connections >= 2
    ensures var k := After(blank, actions).sinks[i]; DataOf(k.log.wire) != k.log.offered
  {
    hide After, Telemetry.SystemInv, Shape, Ordered, Reported, Placed, Accounted, DataOf;
    var s := After(blank, actions);
    SinkOf(s, i);
    assert s.sinks[i].dropped > 0;
    LostShort(s, i);
  }

  lemma LostShort<T>(s: Telemetry.System<T>, i: nat)
    requires Telemetry.SystemInv(s) && i < Telemetry.SINKS && Quiescent(s, i) && s.sinks[i].dropped > 0
    ensures DataOf(s.sinks[i].log.wire) != s.sinks[i].log.offered
  {
    hide Telemetry.SinkOk, Shape, Booked, Numbered, DataOf;
    var k := s.sinks[i];
    SinkOf(s, i);
    SettledBooks(k, Telemetry.Held(s, i));
    SettledNotices(k, Telemetry.Held(s, i), Telemetry.Bound(s, i));
    assert |multiset(k.log.offered)| == |multiset(k.log.delivered)| + |multiset(k.log.lost)|;
  }

  /** An event that some call of the game makes the wrappers emit. */
  predicate Played(m: Emission, a: Address, processId: u32, e: Event): (r: bool)
    ensures r ==> Emittable(e, processId)
  {
    Emits(m, a, e) && (EmittedIsEmittable(m, a, e); a.processId == processId)
  }

  ghost predicate IsPlayed(e: Event, processId: u32): (r: bool)
    ensures r ==> Emittable(e, processId)
  {
    exists m, a :: Played(m, a, processId, e)
  }

  ghost predicate AllPlayed(items: seq<Queued<Event>>, processId: u32): (r: bool)
    ensures r ==> AllEmittable(items, processId)
  {
    forall i | 0 <= i < |items| :: IsPlayed(items[i].body, processId)
  }

  /** What the wrappers give to be emitted comes from calls of the game. */
  ghost predicate GamePlays(actions: seq<Telemetry.Action<Event>>, processId: u32) {
    forall j | 0 <= j < |actions| && actions[j].Begin? :: IsPlayed(actions[j].body, processId)
  }

  lemma EmittedArePlayed(blank: Queued<Event>, actions: seq<Telemetry.Action<Event>>, i: nat, processId: u32)
    requires i < Telemetry.SINKS && GamePlays(actions, processId)
    ensures AllPlayed(Emitted(blank, actions, i), processId)
  {
    hide Telemetry.SystemInv, Emissions.EmittedTo, Telemetry.NewSink, IsPlayed;
    Telemetry.InitOk(blank);
    var items := Emitted(blank, actions, i);
    forall j | 0 <= j < |items|
      ensures IsPlayed(items[j].body, processId)
    {
      Emissions.EmittedBodies(Telemetry.Init(blank), actions, i, items[j]);
      var n :| 0 <= n < |actions| && actions[n].Begin? && actions[n].body == items[j].body;
    }
  }

  /**
   What holds of both ends of one connection: who the producer is, what it was told, and what the
   server read of its pipe.
   */
  ghost predicate Joined(actions: seq<Telemetry.Action<Event>>, k: Sink<Event>, o: Origin, v: Voice,
      chunks: seq<seq<byte>>) {
    && Genuine(o) && v.hello == GreetingOf(o) && v.hello.processId == o.processId
      && GamePlays(actions, o.processId)
    && Carried(k.log.wire, v, chunks)
  }

  /** The key under which the detector knows the producer. */
  function SourceOf(o: Origin): Sources.SourceKey { Sources.SourceKey(o.processId, SessionId(o)) }

  /** The calls a client thread makes on the detector for what it decodes. */
  function CallsOf(o: Origin, connection: nat, arrivals: seq<Arrival>): seq<EngineRuns.Call> {
    ClientCalls(Client(o.processId, None, None), connection, arrivals)
  }

  /**
   Some calls on the detector, among which are those of one client thread: the first is the one for its greeting,
   the later ones that bring frames of its source are the ones it makes, and its connection is not closed.
   */
  predicate Serves(own: seq<EngineRuns.Call>, calls: seq<EngineRuns.Call>, key: Sources.SourceKey, connection: nat) {
    own != [] ==>
      && calls != [] && calls[0] == own[0] && Bringing(calls[1..], key) == own[1..]
      && KeepsOpen(calls[1..], key, connection)
  }

  lemma GreetingFrame(wire: seq<Packet<Event>>, o: Origin, v: Voice)
    requires Genuine(o) && v.hello == GreetingOf(o) && GoodWire(wire, v) && wire != []
    ensures FramesOf(wire, v)[0].sessionId == SessionId(o)
  {
    hide Genuine, GreetingOf, GoodWire, FramesOf, SessionId, CString, WellFormed, WireText;
    StartsWithHello(wire, v);
    FrameAt(wire, v, 0);
    GreetingIsGreeting(o);
  }

  // Where the calls of a thread whose whole stream passes begin and what they bring.
  lemma OwnCalls(o: Origin, connection: nat, arrivals: seq<Arrival>)
    requires arrivals != [] && arrivals[0].frame.sessionId == SessionId(o)
    requires Accepted(Client(o.processId, None, None), Arrived(arrivals)) == (Arrived(arrivals), None)
    ensures var own := CallsOf(o, connection, arrivals);
      && own != [] && own[0].Connecting? && own[0].identity.key == SourceOf(o) && own[0].connection == connection
      && (forall i | 1 <= i < |own| :: Brings(own[i], SourceOf(o)) && own[i].frame.processId == o.processId)
      && Brought(own[1..]) == Arrived(arrivals)[1..]
  {
    hide SafeSessionId, SessionId, Brought;
    var c, frames := Client(o.processId, None, None), Arrived(arrivals);
    var next, rest := Seen(c, frames[0]), arrivals[1..];
    var tail := Accepted(next, frames[1..]);
    assert ([frames[0]] + tail.0)[1..] == tail.0;
    assert frames[1..] == Arrived(rest);
    ClientForwards(next, connection, rest);
    var own := CallsOf(o, connection, arrivals);
    assert own[1..] == ClientCalls(next, connection, rest);
    assert forall i | 1 <= i < |own| :: own[i] == own[1..][i - 1];
  }

  /** The detector takes in, for the source of a thread, exactly the frames behind the greeting. */
  lemma TakenIn(o: Origin, connection: nat, arrivals: seq<Arrival>, b: Engine.Detector, calls: seq<EngineRuns.Call>,
      sine: real -> real)
    requires arrivals != [] && arrivals[0].frame.sessionId == SessionId(o)
    requires Accepted(Client(o.processId, None, None), Arrived(arrivals)) == (Arrived(arrivals), None)
    requires EngineSafety.DetectorInv(b) && Serves(CallsOf(o, connection, arrivals), calls, SourceOf(o), connection)
    requires Admitted(b, calls, sine, SourceOf(o))
    ensures calls != [] && !calls[0].Processing? && EngineSafety.DetectorInv(EngineRuns.Do(b, calls[0], sine))
    ensures var d := EngineRuns.Do(b, calls[0], sine);
      && EngineRuns.StoredThroughout(d, calls[1..], sine, SourceOf(o))
      && Heard(d, calls[1..], sine, SourceOf(o)) == Arrived(arrivals)[1..]
      && (d.sources[SourceOf(o)].issues.frameGap ==>
            SourceOf(o) in b.sources && b.sources[SourceOf(o)].issues.frameGap)
  {
    hide EngineSafety.DetectorInv, Settings.Normal, SessionId, Accepted, CallsOf, Bringing, Brought, Arrived, Heard,
      KeepsOpen, EngineRuns.StoredThroughout, Engine.Connect;
    OwnCalls(o, connection, arrivals);
    EngineRuns.InvNormal(b);
    EngineRuns.CallKeeps(b, calls[0], sine);
    var call := calls[0];
    ConnectOpens(b, call.identity, connection, call.at, call.order);
    Newcomer(b, call.identity, connection, call.at, call.order);
    AllHeard(EngineRuns.Do(b, call, sine), calls[1..], sine, SourceOf(o), connection);
  }

  lemma Newcomer(d: Engine.Detector, identity: Sources.Identity, connection: nat, now: real,
      order: seq<Sources.SourceKey>)
    requires identity.key in Engine.Connect(d, identity, connection, now, order).sources
    ensures Engine.Connect(d, identity, connection, now, order).sources[identity.key].issues.frameGap ==>
      identity.key in d.sources && d.sources[identity.key].issues.frameGap
  {
    hide Engine.Oldest;
    Engine.StillAbsent(d, order, identity.key);
  }

  /** The source is stored and carries the gap mark. */
  predicate Marked(d: Engine.Detector, key: Sources.SourceKey) {
    key in d.sources && d.sources[key].issues.frameGap
  }

  /** The detector has room for the source when its first call comes. */
  ghost predicate Admitted(b: Engine.Detector, calls: seq<EngineRuns.Call>, sine: real -> real,
      key: Sources.SourceKey)
    requires EngineSafety.DetectorInv(b)
  {
    EngineRuns.InvNormal(b);
    calls != [] ==> key in EngineRuns.Do(b, calls[0], sine).sources
  }

  // The frames behind a greeting.
  function Behind(frames: seq<Frame>): seq<Frame> { if frames == [] then [] else frames[1..] }

  /** A sink after some run, its worker with nothing left to do. */
  ghost predicate Drained(blank: Queued<Event>, actions: seq<Telemetry.Action<Event>>, i: nat, k: Sink<Event>) {
    i < Telemetry.SINKS && k == After(blank, actions).sinks[i] && Quiescent(After(blank, actions), i)
  }

  // The sink's side: what the server decodes, and what its notices mean.
  lemma SentWire(blank: Queued<Event>, actions: seq<Telemetry.Action<Event>>, i: nat, k: Sink<Event>, o: Origin,
      v: Voice, chunks: seq<seq<byte>>)
    requires Drained(blank, actions, i, k)
    requires Joined(actions, k, o, v, chunks)
    ensures i < Telemetry.SINKS && GoodWire(k.log.wire, v) && k.log.wire != []
    ensures AllEmittable(Emitted(blank, actions, i), v.hello.processId)
    ensures var frames := Streams.FeedAll(Streams.CSHARP, [], chunks).frames;
      && frames == FramesOf(k.log.wire, v) && frames != [] && frames[0].sessionId == SessionId(o)
      && Accepted(Client(o.processId, None, None), frames) == (frames, None)
    ensures forall j | 0 <= j < |k.log.wire| && k.log.wire[j].Notice? :: k.log.wire[j].dropped > 0
    ensures (forall j | 0 <= j < |k.log.wire| :: !k.log.wire[j].Notice?)
      <==> DataOf(k.log.wire) == Emitted(blank, actions, i)
    ensures k.log.connections >= 2 ==> DataOf(k.log.wire) != Emitted(blank, actions, i)
  {
    hide After, Emitted, GamePlays, AllEmittable, AllPlayed, Genuine, Greets, GoodWire, Carried, FramesOf, DataOf,
      GreetingOf, Accepted, Streams.FeedAll, SessionId;
    GreetingIsGreeting(o);
    OfferedIsEmitted(blank, actions, i);
    EmittedArePlayed(blank, actions, i, o.processId);
    GoodCurrentWire(blank, actions, i, v);
    CurrentWire(blank, actions, i);
    QuietWire(After(blank, actions), i);
    NoSilentLoss(blank, actions, i);
    WirePasses(k.log.wire, v, chunks);
    GreetingFrame(k.log.wire, o, v);
    if k.log.connections >= 2 {
      ReconnectLost(blank, actions, i);
    }
  }

  /**
   No silent loss, end to end. Once the worker of a sink has nothing left to do, on its first or any later
   connection: the detector has taken in every frame behind the greeting, and these are exactly the
   events ever emitted while the sink was running, in emission order, if and only if the detector's source carries
   no frame gap. The events are those of any calls of the game and chunking is arbitrary; so is every other call on
   the detector, as long as it has room for the source and nobody closes this connection or speaks for the
   source. The source may have been marked before only on account of an earlier connection of this sink.
   */
  lemma EndToEnd(blank: Queued<Event>, actions: seq<Telemetry.Action<Event>>, i: nat, k: Sink<Event>, o: Origin,
      v: Voice, chunks: seq<seq<byte>>, arrivals: seq<Arrival>, connection: nat, b: Engine.Detector,
      calls: seq<EngineRuns.Call>, sine: real -> real) returns (n: Engine.Detector)
    requires EngineSafety.DetectorInv(b) && Admitted(b, calls, sine, SourceOf(o))
    requires Serves(CallsOf(o, connection, arrivals), calls, SourceOf(o), connection)
    requires Marked(b, SourceOf(o)) ==> k.log.connections >= 2
    requires Arrived(arrivals) == Streams.FeedAll(Streams.CSHARP, [], chunks).frames
    requires Joined(actions, k, o, v, chunks) && Drained(blank, actions, i, k)
    ensures i < Telemetry.SINKS && AllEmittable(Emitted(blank, actions, i), v.hello.processId)
    ensures n == EngineRuns.Run(b, calls, sine) && SourceOf(o) in n.sources
    ensures Heard(b, calls, sine, SourceOf(o)) == Behind(Arrived(arrivals))
    ensures !Marked(n, SourceOf(o)) <==> Behind(Arrived(arrivals)) == EmittedFrames(Emitted(blank, actions, i), v)
  {
    hide *;
    EngineRuns.InvNormal(b);
    SentWire(blank, actions, i, k, o, v, chunks);
    ArrivedAll(arrivals);
    Unfolded(b, SourceOf(o), calls, sine, Arrived(arrivals));
    TakenIn(o, connection, arrivals, b, calls, sine);
    FirstCall(b, calls, sine, SourceOf(o));
    WireConcludes(k.log.wire, v, Emitted(blank, actions, i), EngineRuns.Do(b, calls[0], sine), calls[1..], sine,
      SourceOf(o));
    n := EngineRuns.Run(b, calls, sine);
    MarkedIs(n, SourceOf(o));
  }

  lemma MarkedIs(d: Engine.Detector, key: Sources.SourceKey)
    ensures Marked(d, key) <==> key in d.sources && d.sources[key].issues.frameGap
  {
  }

  lemma Unfolded(d: Engine.Detector, key: Sources.SourceKey, calls: seq<EngineRuns.Call>, sine: real -> real,
      frames: seq<Frame>)
    ensures Marked(d, key) <==> key in d.sources && d.sources[key].issues.frameGap
    ensures EngineSafety.DetectorInv(d) && Admitted(d, calls, sine, key) && calls != [] ==>
      Settings.Normal(d.settings) && key in EngineRuns.Do(d, calls[0], sine).sources
    ensures frames != [] ==> Behind(frames) == frames[1..]
  {
    hide EngineSafety.KeyOk, EngineRuns.Do;
  }

  lemma ArrivedAll(arrivals: seq<Arrival>)
    ensures |Arrived(arrivals)| == |arrivals|
    ensures forall i | 0 <= i < |arrivals| :: Arrived(arrivals)[i] == arrivals[i].frame
  {
  }

  // A call that brings no frame comes first.
  lemma FirstCall(b: Engine.Detector, calls: seq<EngineRuns.Call>, sine: real -> real, key: Sources.SourceKey)
    requires EngineSafety.DetectorInv(b) && calls != [] && !calls[0].Processing?
    requires EngineSafety.DetectorInv(EngineRuns.Do(b, calls[0], sine))
    ensures EngineRuns.Run(b, calls, sine) == EngineRuns.Run(EngineRuns.Do(b, calls[0], sine), calls[1..], sine)
    ensures Heard(b, calls, sine, key) == Heard(EngineRuns.Do(b, calls[0], sine), calls[1..], sine, key)
  {
    hide EngineSafety.DetectorInv, EngineRuns.Do;
  }
}
