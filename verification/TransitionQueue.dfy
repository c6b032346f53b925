/** The queue of transitions: what is raised, what the bounded queue sheds, and what comes out of it. */
module TransitionQueue {
  import opened Bytes
  import opened Effects
  import opened Settings
  import opened Protocol
  import opened Sources
  import opened Engine
  import opened EngineSafety
  import opened EngineRuns

  /** Of the transitions raised in between, the first ones that found room behind the queue are in it, up to 256. */
  predicate Queued(d: Detector, n: Detector) {
    && |d.queue| <= 256 && d.generated <= n.generated
    && var raised := n.generated[|d.generated|..];
    n.queue == d.queue + if |d.queue| + |raised| <= 256 then raised else raised[..256 - |d.queue|]
  }

  lemma QueuedNone(d: Detector, n: Detector)
    requires |d.queue| <= 256 && n.queue == d.queue && n.generated == d.generated
    ensures Queued(d, n)
  {
  }

  lemma QueuedOne(d: Detector, t: Transition)
    requires |d.queue| <= 256
    ensures Queued(d, Enqueue(d, t)) && |Enqueue(d, t).queue| <= 256 && Enqueue(d, t).sources == d.sources
  {
    assert (d.generated + [t])[|d.generated|..] == [t];
  }

  lemma QueuedBoth(a: Detector, b: Detector, c: Detector)
    requires Queued(a, b) && Queued(b, c)
    ensures Queued(a, c)
  {
    var first, second := b.generated[|a.generated|..], c.generated[|b.generated|..];
    assert c.generated[|a.generated|..] == first + second;
    if |a.queue| + |first| > 256 {
      assert (first + second)[..256 - |a.queue|] == first[..256 - |a.queue|];
      assert second[..0] == [];
    } else if |a.queue| + |first| + |second| > 256 {
      assert (first + second)[..256 - |a.queue|] == first + second[..256 - |a.queue| - |first|];
    }
  }

  lemma ConnectQueues(d: Detector, identity: Identity, connection: Guid, now: real, order: seq<SourceKey>)
    requires |d.queue| <= 256
    ensures Queued(d, Connect(d, identity, connection, now, order))
  {
    hide Queued, Enqueue, Oldest, NewSource;
    var key := identity.key;
    var r := if key in d.sources then d else MakeRoom(d, order);
    var before := if key in d.sources then d.sources[key].(identity := identity) else NewSource(identity);
    var n := PutSource(r, key, before.(connections := before.connections + {connection}, lastActivity := now));
    QueuedNone(d, r);
    QueuedNone(d, n);
    QueuedNone(d, r.(sourceDrops := Increment(r.sourceDrops)));
    QueuedOne(n, Transition(SourceConnected, key, now));
    QueuedBoth(d, n, Enqueue(n, Transition(SourceConnected, key, now)));
  }

  lemma DisconnectQueues(d: Detector, key: SourceKey, connection: Guid, now: real)
    requires |d.queue| <= 256
    ensures Queued(d, Disconnect(d, key, connection, now))
  {
    hide Queued, Enqueue, ResetAfterDisconnect;
    QueuedNone(d, d);
    if key in d.sources {
      var s := d.sources[key].(connections := d.sources[key].connections - {connection});
      QueuedNone(d, PutSource(d, key, s));
      var t, gone := Transition(ClippingEnded, key, now), Transition(SourceDisconnected, key, now);
      var e := if s.meter.isClipping then Enqueue(d, t) else d;
      QueuedOne(d, t);
      var p := PutSource(e, key, ResetAfterDisconnect(s, now));
      QueuedNone(e, p);
      QueuedBoth(d, e, p);
      QueuedOne(p, gone);
      QueuedBoth(d, p, Enqueue(p, gone));
    }
  }

  lemma FrameQueues(d: Detector, key: SourceKey, f: Frame, now: real)
    requires |d.queue| <= 256
    ensures Queued(d, ProcessFrame(d, key, f, now))
  {
    hide Queued, Enqueue, Apply;
    QueuedNone(d, ProcessFrame(d, key, f, now).(queue := d.queue, generated := d.generated));
    if key in d.sources && Connected(d.sources[key]) && f.processId == key.processId {
      var p := PutSource(d, key, Apply(d.sources[key].(lastActivity := now), f, now));
      QueuedNone(d, p);
      QueuedOne(p, Transition(ClippingEnded, key, now));
      QueuedBoth(d, p, Enqueue(p, Transition(ClippingEnded, key, now)));
    } else {
      QueuedNone(d, ProcessFrame(d, key, f, now));
    }
  }

  lemma TickOneQueues(d: Detector, key: SourceKey, walk: seq<EffectKey>, now: real, sine: real -> real)
    requires |d.queue| <= 256 && Normal(d.settings)
    ensures Queued(d, TickOne(d, key, walk, now, sine)) && |TickOne(d, key, walk, now, sine).queue| <= 256
  {
    hide Queued, Enqueue, TickSource, Normal;
    QueuedNone(d, d);
    if key in d.sources {
      var (s, edge) := TickSource(d.sources[key], walk, now, d.settings, sine);
      var n := PutSource(d, key, s);
      QueuedNone(d, n);
      if edge.Some? {
        var t := Transition(KindOf(edge.value), d.sources[key].identity.key, now);
        QueuedOne(n, t);
        QueuedBoth(d, n, Enqueue(n, t));
      }
    }
  }

  lemma {:induction false} TickQueues(d: Detector, order: seq<SourceKey>, walks: map<SourceKey, seq<EffectKey>>,
      now: real, sine: real -> real)
    requires |d.queue| <= 256 && Normal(d.settings)
    ensures Queued(d, TickAll(d, order, walks, now, sine)) && |TickAll(d, order, walks, now, sine).queue| <= 256
  {
    hide Queued, TickOne, Normal;
    if order == [] {
      QueuedNone(d, d);
    } else {
      var front, key := order[..|order| - 1], order[|order| - 1];
      TickQueues(d, front, walks, now, sine);
      var b := TickAll(d, front, walks, now, sine);
      TickOneQueues(b, key, if key in walks then walks[key] else [], now, sine);
      QueuedBoth(d, b, TickAll(d, order, walks, now, sine));
    }
  }

  /** Every call but a dequeue queues what it raises as far as there is room; a dequeue takes the oldest. */
  lemma CallQueues(d: Detector, call: Call, sine: real -> real)
    requires DetectorInv(d)
    ensures Normal(d.settings)
    ensures var n := Do(d, call, sine);
      if call.Dequeuing? then n.generated == d.generated && n.queue == if d.queue == [] then [] else d.queue[1..]
      else Queued(d, n)
  {
    hide Queued, KeyOk, Normal, Connect, Disconnect, ProcessFrame, TickAll;
    InvNormal(d);
    match call
    case Connecting(identity, connection, now, order) => ConnectQueues(d, identity, connection, now, order);
    case Disconnecting(k, connection, now) => DisconnectQueues(d, k, connection, now);
    case Processing(k, f, now) => FrameQueues(d, k, f, now);
    case Ticking(now, order, walks) => TickQueues(d, order, walks, now, sine);
    case Dequeuing =>
    case _ => QueuedNone(d, Do(d, call, sine));
  }

  // ---------- Over runs ----------

  /** What the dequeues of a run give out. */
  ghost function Taken(d: Detector, calls: seq<Call>, sine: real -> real): seq<Transition>
    requires DetectorInv(d)
    decreases calls
  {
    if calls == [] then []
    else
      CallKeeps(d, calls[0], sine);
      (if calls[0].Dequeuing? && d.queue != [] then [d.queue[0]] else []) + Taken(Do(d, calls[0], sine), calls[1..], sine)
  }

  /** No call leaves the queue full. */
  ghost predicate NeverFull(d: Detector, calls: seq<Call>, sine: real -> real)
    requires DetectorInv(d)
    decreases calls
  {
    calls != [] ==>
      (CallKeeps(d, calls[0], sine);
       |Do(d, calls[0], sine).queue| < 256 && NeverFull(Do(d, calls[0], sine), calls[1..], sine))
  }

  lemma CallPasses(d: Detector, n: Detector, taken: seq<Transition>)
    requires |d.queue| <= 256 && |n.queue| < 256
    requires if taken != [] then d.queue != [] && taken == [d.queue[0]] && n.queue == d.queue[1..]
        && n.generated == d.generated
      else Queued(d, n)
    ensures d.generated <= n.generated && taken + n.queue == d.queue + n.generated[|d.generated|..]
  {
    if taken != [] {
      assert n.generated[|d.generated|..] == [];
    }
  }

  lemma {:induction false} RunPasses(d: Detector, calls: seq<Call>, sine: real -> real)
    requires DetectorInv(d) && |d.queue| < 256 && NeverFull(d, calls, sine)
    ensures var n := Run(d, calls, sine);
      d.generated <= n.generated && Taken(d, calls, sine) + n.queue == d.queue + n.generated[|d.generated|..]
    decreases calls
  {
    hide DetectorInv, Do, Queued, Normal;
    if calls == [] {
      assert d.generated[|d.generated|..] == [];
    } else {
      CallKeeps(d, calls[0], sine);
      CallQueues(d, calls[0], sine);
      var n := Do(d, calls[0], sine);
      var taken := if calls[0].Dequeuing? && d.queue != [] then [d.queue[0]] else [];
      if calls[0].Dequeuing? && d.queue == [] {
        QueuedNone(d, n);
      }
      CallPasses(d, n, taken);
      RunPasses(n, calls[1..], sine);
      var r := Run(n, calls[1..], sine);
      Joins(taken, Taken(n, calls[1..], sine), r.queue, n.queue, d, n, r);
    }
  }

  lemma Joins(taken: seq<Transition>, later: seq<Transition>, left: seq<Transition>, middle: seq<Transition>,
      d: Detector, n: Detector, r: Detector)
    requires d.generated <= n.generated <= r.generated
    requires taken + middle == d.queue + n.generated[|d.generated|..]
    requires later + left == middle + r.generated[|n.generated|..]
    ensures (taken + later) + left == d.queue + r.generated[|d.generated|..]
  {
    var first, second := n.generated[|d.generated|..], r.generated[|n.generated|..];
    assert r.generated[|d.generated|..] == first + second;
    Associative(taken, later, left);
    Associative(taken, middle, second);
    Associative(d.queue, first, second);
  }

  /**
   Over any calls that never leave the queue full, what has been taken out and what is still queued are all
   transitions ever raised, in the order they were raised.
   */
  lemma NothingIsShed(settings: Settings, calls: seq<Call>, sine: real -> real)
    ensures DetectorInv(NewDetector(settings))
    ensures var d := NewDetector(settings);
      NeverFull(d, calls, sine) ==> Taken(d, calls, sine) + Run(d, calls, sine).queue == Run(d, calls, sine).generated
  {
    hide DetectorInv, Do;
    NewDetectorOk(settings);
    if NeverFull(NewDetector(settings), calls, sine) {
      RunPasses(NewDetector(settings), calls, sine);
      var n := Run(NewDetector(settings), calls, sine);
      assert n.generated[0..] == n.generated && [] + n.generated == n.generated;
    }
  }
}
