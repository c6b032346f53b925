/** What every run of the detector keeps. */
module EngineSafety {
  import opened Bytes
  import opened Protocol
  import opened Effects
  import opened Settings
  import Window
  import opened Hysteresis
  import opened Sources
  import opened SourceSafety
  import opened Engine

  /** The clip edges ever raised for one source key. */
  function ClipEdges(generated: seq<Transition>, key: SourceKey): seq<Edge> {
    if generated == [] then []
    else
      var t := generated[|generated| - 1];
      ClipEdges(generated[..|generated| - 1], key)
      + if t.key != key then [] else match t.kind
        case ClippingStarted => [Started]
        case ClippingEnded => [Ended]
        case _ => []
  }

  predicate Clipping(d: Detector, key: SourceKey) { key in d.sources && d.sources[key].meter.isClipping }

  /** A key's edges alternate, and it is clipping exactly when the last one was a start. */
  predicate EdgesOk(d: Detector, key: SourceKey) {
    var edges := ClipEdges(d.generated, key);
    Alternates(true, edges) && (Clipping(d, key) <==> |edges| % 2 == 1)
  }

  // A stored source sits under its own key; a disconnected one has lost its history.
  predicate Stored(d: Detector, key: SourceKey) {
    key in d.sources ==>
      && SourceInv(d.sources[key]) && d.sources[key].identity.key == key
      && (!Connected(d.sources[key]) ==> d.sources[key].issues.reconnect)
  }

  predicate KeyOk(d: Detector, key: SourceKey) { Stored(d, key) && EdgesOk(d, key) }

  predicate Bounded(d: Detector) {
    Normal(d.settings) && |d.sources| <= MAX_SOURCES && |d.queue| <= MAX_TRANSITIONS
  }

  ghost predicate DetectorInv(d: Detector) { Bounded(d) && forall key :: KeyOk(d, key) }

  lemma NewDetectorOk(settings: Settings)
    ensures DetectorInv(NewDetector(settings))
  {
    NormalizedIsNormal(settings);
  }

  // ---------- One key through one change ----------

  predicate IsEdge(t: Transition) { t.kind == ClippingStarted || t.kind == ClippingEnded }

  lemma EdgesSnoc(generated: seq<Transition>, t: Transition, key: SourceKey)
    ensures t.key != key || !IsEdge(t) ==> ClipEdges(generated + [t], key) == ClipEdges(generated, key)
    ensures t.key == key && IsEdge(t) ==>
      ClipEdges(generated + [t], key) == ClipEdges(generated, key)
        + [if t.kind == ClippingStarted then Started else Ended]
  {
    assert (generated + [t])[..|generated|] == generated;
    assert ClipEdges(generated, key) + [] == ClipEdges(generated, key);
  }

  lemma LongerEdges(edges: seq<Edge>, edge: Edge)
    requires Alternates(true, edges) && (edge.Started? <==> |edges| % 2 == 0)
    ensures Alternates(true, edges + [edge])
  {
  }

  // Storing a source without raising an edge.
  lemma PutKeeps(d: Detector, key: SourceKey, s: Source, other: SourceKey)
    requires KeyOk(d, other)
    requires key == other ==> SourceInv(s) && s.identity.key == key && (!Connected(s) ==> s.issues.reconnect)
    requires key == other ==> (s.meter.isClipping <==> Clipping(d, key))
    ensures KeyOk(PutSource(d, key, s), other)
  {
    hide SourceInv, ClipEdges, Alternates;
  }

  // Raising a transition that is no clip edge.
  lemma PlainEdgeKeeps(d: Detector, t: Transition, other: SourceKey)
    requires KeyOk(d, other) && !t.kind.ClippingStarted? && !t.kind.ClippingEnded?
    ensures KeyOk(Enqueue(d, t), other)
  {
    hide SourceInv, ClipEdges, Alternates;
    EdgesSnoc(d.generated, t, other);
  }

  /** Storing a source whose clipping has changed, and raising that edge. */
  lemma EdgeKeeps(d: Detector, n: Detector, key: SourceKey, s: Source, t: Transition, other: SourceKey)
    requires KeyOk(d, other) && n.sources == d.sources[key := s] && n.generated == d.generated + [t]
    requires key == other ==> SourceInv(s) && s.identity.key == key && (!Connected(s) ==> s.issues.reconnect)
    requires t.key == key && (t.kind == ClippingStarted || t.kind == ClippingEnded)
    requires s.meter.isClipping <==> t.kind == ClippingStarted
    requires Clipping(d, key) <==> t.kind == ClippingEnded
    ensures KeyOk(n, other)
  {
    hide SourceInv, ClipEdges, Alternates;
    EdgesSnoc(d.generated, t, other);
    if key == other {
      LongerEdges(ClipEdges(d.generated, key), if t.kind == ClippingStarted then Started else Ended);
    }
  }

  // ---------- The operations ----------

  lemma EvictKeeps(d: Detector, order: seq<SourceKey>, other: SourceKey)
    requires KeyOk(d, other) && (forall k | k in d.sources :: KeyOk(d, k))
    ensures KeyOk(MakeRoom(d, order), other)
  {
    hide SourceInv, ClipEdges, Alternates, Oldest;
    var victim := Oldest(d.sources, order);
    if victim.Some? && victim.value == other {
      DisconnectedIsSilent(d.sources[other]);
    }
  }

  lemma DisconnectedIsSilent(s: Source)
    requires SourceInv(s) && (!Connected(s) ==> s.issues.reconnect) && !Connected(s)
    ensures !s.meter.isClipping
  {
    hide Tables, LevelsOk;
  }

  lemma RenamedOk(s: Source, identity: Identity, connections: set<Guid>, now: real)
    requires SourceInv(s)
    ensures SourceInv(s.(identity := identity, connections := connections, lastActivity := now))
    ensures SourceInv(s.(lastActivity := now)) && SourceInv(s.(connections := connections))
  {
    hide Tables, LevelsOk;
  }

  lemma ConnectKeeps(d: Detector, identity: Identity, connection: Guid, now: real, order: seq<SourceKey>,
      other: SourceKey)
    requires forall k :: KeyOk(d, k)
    ensures KeyOk(Connect(d, identity, connection, now, order), other)
  {
    hide SourceInv, ClipEdges, Alternates, Oldest, MakeRoom, Enqueue, PutSource;
    var key := identity.key;
    EvictKeeps(d, order, other);
    EvictKeeps(d, order, key);
    NewSourceOk(identity);
    assert KeyOk(d, key) && KeyOk(d, other);
    var r := if key in d.sources then d else MakeRoom(d, order);
    assert key !in d.sources ==> key !in r.sources by { hide *; StillAbsent(d, order, key); }
    var before := if key in d.sources then d.sources[key].(identity := identity) else NewSource(identity);
    if key in d.sources {
      RenamedOk(d.sources[key], identity, before.connections + {connection}, now);
    } else {
      RenamedOk(before, identity, before.connections + {connection}, now);
    }
    var s := before.(connections := before.connections + {connection}, lastActivity := now);
    assert connection in s.connections;
    PutKeeps(r, key, s, other);
    PlainEdgeKeeps(PutSource(r, key, s), Transition(SourceConnected, key, now), other);
  }

  lemma DisconnectKeepsKey(d: Detector, key: SourceKey, connection: Guid, now: real, other: SourceKey)
    requires KeyOk(d, key) && KeyOk(d, other)
    ensures KeyOk(Disconnect(d, key, connection, now), other)
  {
    hide SourceInv, ClipEdges, Alternates, ResetAfterDisconnect;
    if key in d.sources {
      var s := d.sources[key].(connections := d.sources[key].connections - {connection});
      RenamedOk(d.sources[key], d.sources[key].identity, s.connections, now);
      if Connected(s) {
        PutKeeps(d, key, s, other);
      } else {
        DisconnectKeeps(s, now);
        var n := ResetAfterDisconnect(s, now);
        ResetIsSilent(s, now);
        var last := Transition(SourceDisconnected, key, now);
        if s.meter.isClipping {
          var t := Transition(ClippingEnded, key, now);
          var e := PutSource(Enqueue(d, t), key, n);
          EdgeKeeps(d, e, key, n, t, other);
          PlainEdgeKeeps(e, last, other);
        } else {
          PutKeeps(d, key, n, other);
          PlainEdgeKeeps(PutSource(d, key, n), last, other);
        }
      }
    }
  }

  lemma ResetIsSilent(s: Source, now: real)
    ensures var n := ResetAfterDisconnect(s, now);
      !n.meter.isClipping && n.issues.reconnect && n.identity == s.identity && n.connections == s.connections
  {
  }

  /** No frame starts an episode. */
  lemma FramesOnlyEnd(s: Source, f: Frame, now: real)
    requires SourceInv(s)
    ensures var n := Apply(s, f, now);
      n.identity == s.identity && n.connections == s.connections && (n.meter.isClipping ==> s.meter.isClipping)
      && (s.issues.reconnect ==> n.issues.reconnect)
  {
    hide Tables, WithDevice, ApplyProperty, ApplyEffectCreated, ApplyEffectParameters,
      ApplyEffectCommand, ApplyDeviceCommand;
    WithDeviceOk(s, f.deviceId);
    PropertyOk(s, f);
    CreatedOk(s, f);
    ParametersOk(s, f, now);
    CommandOk(s, f, now);
    DeviceCommandOk(s, f.deviceId, f.diFlags, now);
  }

  lemma FrameKeeps(d: Detector, key: SourceKey, f: Frame, now: real, other: SourceKey)
    requires KeyOk(d, key) && KeyOk(d, other)
    ensures KeyOk(ProcessFrame(d, key, f, now), other)
  {
    hide SourceInv, ClipEdges, Alternates, Apply;
    if key in d.sources && Connected(d.sources[key]) && f.processId == key.processId {
      var s := d.sources[key].(lastActivity := now);
      RenamedOk(d.sources[key], s.identity, s.connections, now);
      ApplyKeeps(s, f, now);
      FramesOnlyEnd(s, f, now);
      var n := Apply(s, f, now);
      if s.meter.isClipping && !n.meter.isClipping {
        var t := Transition(ClippingEnded, key, now);
        EdgeKeeps(d, Enqueue(PutSource(d, key, n), t), key, n, t, other);
      } else {
        PutKeeps(d, key, n, other);
      }
    }
  }

  lemma TickEdge(m: Meter, now: real, settings: Settings, level: real, reliable: bool)
    requires Normal(settings)
    ensures var (n, edge) := Tick(m, now, settings, level, reliable);
      && (edge == Some(Started) ==> !m.isClipping && n.isClipping)
      && (edge == Some(Ended) ==> m.isClipping && !n.isClipping)
      && (edge.None? ==> n.isClipping == m.isClipping)
  {
    hide Window.Ratio, Window.Pruned, Gap, Grown, Risen;
  }

  lemma TickSourceEdge(s: Source, order: seq<EffectKey>, now: real, settings: Settings, sine: real -> real)
    requires Normal(settings)
    ensures var (n, edge) := TickSource(s, order, now, settings, sine);
      && n.identity == s.identity && n.connections == s.connections && n.issues == s.issues && n.losses == s.losses
      && (edge == Some(Started) ==> !s.meter.isClipping && n.meter.isClipping)
      && (edge == Some(Ended) ==> s.meter.isClipping && !n.meter.isClipping)
      && (edge.None? ==> n.meter.isClipping == s.meter.isClipping)
  {
    hide Tick, LevelsAt, ProbedEffects;
    var e := Evaluate(s, order, now, sine);
    TickEdge(e.meter, now, settings, e.levels.combined, EstimateReliable(e));
  }

  lemma TickOneKeeps(d: Detector, key: SourceKey, order: seq<EffectKey>, now: real, sine: real -> real,
      other: SourceKey)
    requires Normal(d.settings) && KeyOk(d, key) && KeyOk(d, other)
    ensures KeyOk(TickOne(d, key, order, now, sine), other)
  {
    hide SourceInv, ClipEdges, Alternates, TickSource, Normal;
    if key in d.sources {
      var (s, edge) := TickSource(d.sources[key], order, now, d.settings, sine);
      TickKeeps(d.sources[key], order, now, d.settings, sine);
      TickSourceEdge(d.sources[key], order, now, d.settings, sine);
      if edge.Some? {
        var t := Transition(KindOf(edge.value), key, now);
        EdgeKeeps(d, Enqueue(PutSource(d, key, s), t), key, s, t, other);
      } else {
        PutKeeps(d, key, s, other);
      }
    }
  }

  lemma {:induction false} TickAllKeeps(d: Detector, order: seq<SourceKey>, walks: map<SourceKey, seq<EffectKey>>,
      now: real, sine: real -> real)
    requires DetectorInv(d)
    ensures DetectorInv(TickAll(d, order, walks, now, sine))
  {
    hide KeyOk, TickOne, Normal;
    if order == [] {
    } else {
      var front, key := order[..|order| - 1], order[|order| - 1];
      TickAllKeeps(d, front, walks, now, sine);
      var b := TickAll(d, front, walks, now, sine);
      var walk := if key in walks then walks[key] else [];
      forall other
        ensures KeyOk(TickOne(b, key, walk, now, sine), other)
      {
        TickOneKeeps(b, key, walk, now, sine, other);
      }
      TickOneBounded(b, key, walk, now, sine);
    }
  }

  lemma TickOneBounded(d: Detector, key: SourceKey, order: seq<EffectKey>, now: real, sine: real -> real)
    requires Bounded(d)
    ensures Bounded(TickOne(d, key, order, now, sine))
  {
    hide TickSource, Normal;
    assert key in d.sources ==> forall s :: PutSource(d, key, s).sources.Keys == d.sources.Keys;
  }

  lemma PeakKeeps(d: Detector, other: SourceKey)
    requires KeyOk(d, other)
    ensures KeyOk(ResetPeaks(d), other)
  {
    hide Tables, ClipEdges, Alternates;
  }
}
