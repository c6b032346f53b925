/** The detector in memory: the table of source objects and the calls that change it. */
module ClippingEngines {
  import opened Bytes
  import opened Protocol
  import opened Effects
  import opened Settings
  import opened Hysteresis
  import opened Sources
  import opened Engine
  import opened SourceStates
  import opened MixerLoops

  /** What the source objects hold. */
  function Table(sources: map<SourceKey, SourceState>): map<SourceKey, Source>
    reads sources.Values
  {
    map k | k in sources :: sources[k].Value()
  }

  class ClippingEngine {
    const sine: real -> real
    var settings: Settings
    var sources: map<SourceKey, SourceState>
    var queue: seq<Transition>
    ghost var generated: seq<Transition>
    var protocolErrors: u64
    var sourceDrops: u64

    /** No two keys share a source object. */
    ghost predicate Valid()
      reads this
    {
      Normal(settings) && forall k, l | k in sources && l in sources && k != l :: sources[k] != sources[l]
    }

    ghost function Value(): Detector
      reads this, sources.Values
    {
      Detector(settings, Table(sources), queue, generated, protocolErrors, sourceDrops)
    }

    constructor (settings: Settings, sine: real -> real)
      ensures Valid() && Value() == NewDetector(settings) && this.sine == sine && sources == map[]
    {
      this.sine := sine;
      this.settings := Normalized(settings);
      sources, queue, generated, protocolErrors, sourceDrops := map[], [], [], 0, 0;
      new;
      NormalizedIsNormal(settings);
    }

    method UpdateSettings(settings: Settings)
      requires Valid()
      modifies this`settings
      ensures Valid() && Value() == Engine.UpdateSettings(old(Value()), settings)
    {
      this.settings := Normalized(settings);
      NormalizedIsNormal(settings);
    }

    method EnqueueTransition(t: Transition)
      requires Valid()
      modifies this`queue, this`generated
      ensures Valid() && Value() == Enqueue(old(Value()), t)
    {
      generated := generated + [t];
      if |queue| < MAX_TRANSITIONS {
        queue := queue + [t];
      }
    }

    method TryDequeueTransition() returns (t: Option<Transition>)
      modifies this`queue
      ensures (Value(), t) == Dequeue(old(Value()))
    {
      if queue == [] {
        return None;
      }
      t := Some(queue[0]);
      queue := queue[1..];
    }

    method ReportProtocolError()
      modifies this`protocolErrors
      ensures Value() == Engine.ReportProtocolError(old(Value()))
    {
      protocolErrors := Increment(protocolErrors);
    }

    // The first least recently active disconnected source, in the table's order.
    method FindOldest(order: seq<SourceKey>) returns (candidate: Option<SourceKey>)
      requires Valid() && Enumerates(order, sources.Keys)
      ensures candidate == Oldest(Table(sources), order)
    {
      hide Connected;
      candidate := None;
      var i := |order|;
      while i > 0
        invariant 0 <= i <= |order|
        invariant candidate == Oldest(Table(sources), order[i..])
      {
        i := i - 1;
        EachInOrder(order, sources.Keys, i);
        assert order[i..][1..] == order[i + 1..];
        var s := sources[order[i]];
        if s.connections == {} && (candidate.None? || s.lastActivity <= sources[candidate.value].lastActivity) {
          candidate := Some(order[i]);
        }
        assert Connected(Table(sources)[order[i]]) == (s.connections != {}) by { ConnectedIs(s.Value()); }
      }
      assert order[0..] == order;
    }

    method TryMakeSourceRoom(order: seq<SourceKey>) returns (room: bool)
      requires Valid() && Enumerates(order, sources.Keys)
      modifies this`sources
      ensures Valid() && sources.Values <= old(sources.Values) && sources.Keys <= old(sources.Keys)
      ensures Value() == MakeRoom(old(Value()), order) && room == (|sources| < MAX_SOURCES)
    {
      hide Normal, Enumerates, Oldest, Table;
      SameCount(sources);
      if |sources| < MAX_SOURCES {
        return true;
      }
      var candidate := FindOldest(order);
      if candidate.Some? {
        OldestKnown(Table(sources), order);
        TableWithout(sources, candidate.value);
        sources := sources - {candidate.value};
      }
      room := |sources| < MAX_SOURCES;
    }

    // Registers a connection of a source in the table.
    method AddConnection(key: SourceKey, connection: Guid, now: real) returns (wasConnected: bool)
      requires Valid() && key in sources
      modifies sources[key]
      ensures Valid()
      ensures var before := old(Value()).sources[key];
        && wasConnected == Connected(before)
        && Value() == PutSource(old(Value()), key,
          before.(connections := before.connections + {connection}, lastActivity := now))
    {
      hide Normal;
      var source := sources[key];
      wasConnected := source.connections != {};
      source.connections := source.connections + {connection};
      source.lastActivity := now;
      assert Table(sources) == old(Table(sources))[key := source.Value()];
    }

    // Takes a new identity for a known source, or a fresh source object.
    method Introduce(identity: Identity)
      requires Valid()
      modifies this`sources, sources.Values
      ensures Valid() && identity.key in sources && fresh(sources.Values - old(sources.Values))
      ensures identity.key in old(sources) ==> sources == old(sources)
      ensures var key := identity.key;
        Value() == PutSource(old(Value()), key,
          if key in old(Value()).sources then old(Value()).sources[key].(identity := identity) else NewSource(identity))
    {
      hide Normal, NewSource;
      var key := identity.key;
      if key in sources {
        sources[key].identity := identity;
        assert Table(sources) == old(Table(sources))[key := sources[key].Value()];
      } else {
        var source := new SourceState(identity);
        assert forall k | k in sources :: sources[k] != source;
        sources := sources[key := source];
        assert Table(sources) == old(Table(sources))[key := source.Value()];
      }
    }

    method Connect(identity: Identity, connection: Guid, now: real, order: seq<SourceKey>)
      requires Valid() && Enumerates(order, sources.Keys)
      modifies this, sources.Values
      ensures Valid() && fresh(sources.Values - old(sources.Values))
      ensures Value() == Engine.Connect(old(Value()), identity, connection, now, order)
    {
      hide Valid, Enumerates, MakeRoom, NewSource, Enqueue, Table, PutSource, Connected;
      var key := identity.key;
      ghost var d := Value();
      SameCount(sources);
      StillAbsent(d, order, key);
      if key !in sources {
        var room := TryMakeSourceRoom(order);
        SameCount(sources);
        if !room {
          RefuseSource();
          return;
        }
      }
      ghost var r := Value();
      SameCount(sources);
      ghost var before := if key in r.sources then r.sources[key].(identity := identity) else NewSource(identity);
      Introduce(identity);
      PutThere(r, key, before);
      var wasConnected := AddConnection(key, connection, now);
      PutTwice(r, key, before, before.(connections := before.connections + {connection}, lastActivity := now));
      if !wasConnected {
        EnqueueTransition(Transition(SourceConnected, key, now));
      }
    }

    // No room: the refusal is counted.
    method RefuseSource()
      requires Valid()
      modifies this`sourceDrops
      ensures Valid() && Value() == old(Value()).(sourceDrops := Increment(old(sourceDrops)))
    {
      sourceDrops := Increment(sourceDrops);
    }

    method ResetSource(key: SourceKey, now: real)
      requires Valid() && key in sources
      modifies sources[key]
      ensures Valid() && Value() == PutSource(old(Value()), key,
        Sources.ResetAfterDisconnect(old(Value()).sources[key], now))
    {
      hide Normal, Sources.ResetAfterDisconnect;
      var source := sources[key];
      source.ResetAfterDisconnect(now);
      assert Table(sources) == old(Table(sources))[key := source.Value()];
    }

    // The last connection is gone.
    method Detach(key: SourceKey, now: real)
      requires Valid() && key in sources
      modifies this`queue, this`generated, sources[key]
      ensures Valid()
      ensures var (d, s) := (old(Value()), old(Value()).sources[key]);
        var ended := if s.meter.isClipping then Enqueue(d, Transition(ClippingEnded, key, now)) else d;
        Value() == Enqueue(PutSource(ended, key, Sources.ResetAfterDisconnect(s, now)),
          Transition(SourceDisconnected, key, now))
    {
      hide Valid, Sources.ResetAfterDisconnect;
      if sources[key].meter.isClipping {
        EnqueueTransition(Transition(ClippingEnded, key, now));
      }
      ResetSource(key, now);
      EnqueueTransition(Transition(SourceDisconnected, key, now));
    }

    method Disconnect(key: SourceKey, connection: Guid, now: real)
      requires Valid()
      modifies this, sources.Values
      ensures Valid() && sources == old(sources)
      ensures Value() == Engine.Disconnect(old(Value()), key, connection, now)
    {
      hide Normal, Sources.ResetAfterDisconnect, Enqueue;
      if key !in sources {
        return;
      }
      ghost var d := Value();
      var source := sources[key];
      source.connections := source.connections - {connection};
      ghost var s := d.sources[key].(connections := d.sources[key].connections - {connection});
      assert Value() == PutSource(d, key, s);
      if source.connections != {} {
        return;
      }
      Detach(key, now);
      PutUnderEdge(d, key, s, Sources.ResetAfterDisconnect(s, now), Transition(ClippingEnded, key, now));
    }

    // Hands a frame to its source.
    method Deliver(key: SourceKey, f: Frame, now: real)
      requires Valid() && key in sources
      modifies sources[key]
      ensures Valid()
      ensures Value() == PutSource(old(Value()), key,
        Sources.Apply(old(Value()).sources[key].(lastActivity := now), f, now))
    {
      hide Normal, Sources.Apply;
      var source := sources[key];
      source.lastActivity := now;
      source.Apply(f, now);
      assert Table(sources) == old(Table(sources))[key := source.Value()];
    }

    method ProcessFrame(key: SourceKey, f: Frame, now: real)
      requires Valid()
      modifies this, sources.Values
      ensures Valid() && sources == old(sources)
      ensures Value() == Engine.ProcessFrame(old(Value()), key, f, now)
    {
      hide Normal, Sources.Apply;
      if key !in sources || sources[key].connections == {} {
        return;
      }
      if f.processId != key.processId {
        protocolErrors := Increment(protocolErrors);
        return;
      }
      var wasClipping := sources[key].meter.isClipping;
      Deliver(key, f, now);
      if wasClipping && !sources[key].meter.isClipping {
        EnqueueTransition(Transition(ClippingEnded, key, now));
      }
    }

    // One source's peaks.
    method ResetOne(key: SourceKey)
      requires Valid() && key in sources
      modifies sources[key]
      ensures Valid() && Table(sources) == old(Table(sources))[key := Sources.ResetPeak(old(Table(sources))[key])]
    {
      hide Normal, Sources.ResetPeak;
      sources[key].ResetPeak();
    }

    method ResetPeak(order: seq<SourceKey>)
      requires Valid() && Enumerates(order, sources.Keys)
      modifies sources.Values
      ensures Valid() && Value() == ResetPeaks(old(Value()))
    {
      hide Valid, Sources.ResetPeak, Table, ResetUpTo, Enumerates, ResetPeaks;
      ghost var before := Table(sources);
      SameCount(sources);
      EachOnce(order, sources.Keys);
      ResetNone(before);
      for i := 0 to |order|
        invariant Valid() && ResetUpTo(before, Table(sources), order[..i])
      {
        ResetNext(before, Table(sources), order, i);
        ResetOne(order[i]);
      }
      assert order[..|order|] == order;
      ResetAll(old(Value()), Table(sources), order);
    }

    // One source's turn in a tick.
    method TickSource(key: SourceKey, walk: seq<EffectKey>, now: real)
      requires Valid() && key in sources && Enumerates(walk, sources[key].effects.Keys)
      modifies this`queue, this`generated, sources[key]
      ensures Valid() && Value() == TickOne(old(Value()), key, walk, now, sine)
    {
      hide Normal, Sources.TickSource, Enumerates, Enqueue;
      ghost var d := Value();
      var source := sources[key];
      var edge := source.Tick(walk, now, settings, sine);
      TickedIdentity(d.sources[key], walk, now, settings, sine);
      assert Value() == PutSource(d, key, source.Value());
      if edge.Some? {
        EnqueueTransition(Transition(KindOf(edge.value), source.identity.key, now));
      }
    }

    /** Every source in the table's order, each walking its effects in its own order. */
    method TickSources(now: real, order: seq<SourceKey>, walks: map<SourceKey, seq<EffectKey>>)
      requires Valid() && Enumerates(order, sources.Keys)
      requires forall k | k in sources :: k in walks && Enumerates(walks[k], sources[k].effects.Keys)
      modifies this`queue, this`generated, sources.Values
      ensures Valid() && Value() == TickAll(old(Value()), order, walks, now, sine)
    {
      hide Normal, TickOne, Enumerates, TickAll, Table;
      ghost var d := Value();
      TickNone(d, walks, now, sine);
      EachOnce(order, sources.Keys);
      for i := 0 to |order|
        invariant Valid() && Value() == TickAll(d, order[..i], walks, now, sine)
        invariant forall k | k in sources && k !in order[..i] :: sources[k].effects == old(sources[k].effects)
      {
        TickNext(d, order, i, walks, now, sine);
        OneMore(order, i);
        TickSource(order[i], walks[order[i]], now);
      }
      assert order[..|order|] == order;
    }

    // ---------- The snapshot ----------

    /** The first of the most recently active eligible sources, in the table's order. */
    method SelectSource(order: seq<SourceKey>) returns (selected: Option<SourceKey>)
      requires Valid() && Enumerates(order, sources.Keys)
      ensures selected == Select(Value(), order)
    {
      hide Normal, Eligible;
      selected := None;
      var i := |order|;
      while i > 0
        invariant 0 <= i <= |order|
        invariant selected == Select(Value(), order[i..]) && (selected.Some? ==> selected.value in sources)
      {
        i := i - 1;
        EachInOrder(order, sources.Keys, i);
        assert order[i..][1..] == order[i + 1..];
        var s := sources[order[i]];
        EligibleIs(Value(), order[i]);
        if s.connections != {} && (settings.autoSelect || Chosen(settings, order[i])) {
          if selected.None? || s.lastActivity >= sources[selected.value].lastActivity {
            selected := Some(order[i]);
          }
        }
      }
      assert order[0..] == order;
    }

    method CountSources(order: seq<SourceKey>) returns (count: nat)
      requires Valid() && Enumerates(order, sources.Keys)
      ensures count == CountConnected(Table(sources), order)
    {
      hide Normal;
      count := 0;
      for i := 0 to |order|
        invariant count == CountConnected(Table(sources), order[..i])
      {
        assert order[..i + 1][..i] == order[..i];
        EachInOrder(order, sources.Keys, i);
        if sources[order[i]].connections != {} {
          count := count + 1;
        }
      }
      assert order[..|order|] == order;
    }

    // Whether a connected, reliable source is clipping.
    method AnySourceClipping(order: seq<SourceKey>) returns (clipping: bool)
      requires Valid() && Enumerates(order, sources.Keys)
      ensures clipping == LoudIn(Table(sources), order)
    {
      hide Normal, EstimateReliable;
      clipping := false;
      for i := 0 to |order|
        invariant clipping == LoudIn(Table(sources), order[..i])
      {
        assert order[..i + 1][..i] == order[..i];
        EachInOrder(order, sources.Keys, i);
        var source := sources[order[i]];
        if source.connections != {} && EstimateReliable(source.Value()) && source.meter.isClipping {
          clipping := true;
        }
      }
      assert order[..|order|] == order;
    }

    method ReportTotals(order: seq<SourceKey>, count: nat, any: bool) returns (r: Snapshot)
      requires Valid() && Enumerates(order, sources.Keys)
      requires count == CountConnected(Table(sources), order) && any == AnyClipping(Value())
      ensures r == TotalSnapshot(Value(), order)
    {
      hide Normal, Total, CountConnected, Table, AnyClipping;
      var devices := Aggregate(order, DeviceLosses);
      var effects := Aggregate(order, EffectLosses);
      var frames := Aggregate(order, FrameLosses);
      r := Snapshot(None, count, any, false, false, false, 0.0, NO_LEVELS, frames,
                    SaturatingAdd(sourceDrops, SaturatingAdd(devices, effects)), false, false, sourceDrops != 0);
    }

    method ReportSource(order: seq<SourceKey>, key: SourceKey, count: nat, any: bool) returns (r: Snapshot)
      requires Valid() && key in sources
      requires count == CountConnected(Table(sources), order) && any == AnyClipping(Value())
      ensures r == SourceSnapshot(Value(), order, key)
    {
      hide Normal, CountConnected, AnyClipping, EstimateReliable;
      var s := sources[key].Value();
      var reliable := sourceDrops == 0 && EstimateReliable(s);
      r := Snapshot(Some(key), count, any, reliable, reliable && s.meter.atLimit, reliable && s.meter.isClipping,
                    s.meter.clipRatio, s.levels, s.losses.frames,
                    SaturatingAdd(sourceDrops, SaturatingAdd(s.losses.devices, s.losses.effects)),
                    s.issues.frameGap, s.issues.reconnect, s.issues.capacity || sourceDrops != 0);
    }

    method BuildSnapshot(order: seq<SourceKey>) returns (r: Snapshot)
      requires Valid() && Enumerates(order, sources.Keys)
      ensures r == Engine.BuildSnapshot(Value(), order)
    {
      hide Valid, Select, CountConnected, EstimateReliable, Enumerates, Connected, LoudIn, TotalSnapshot,
        SourceSnapshot, Table;
      var selected := SelectSource(order);
      var count := CountSources(order);
      var clipping := AnySourceClipping(order);
      SameCount(sources);
      LoudInTable(Table(sources), order);
      if selected.None? {
        r := ReportTotals(order, count, sourceDrops == 0 && clipping);
      } else {
        r := ReportSource(order, selected.value, count, sourceDrops == 0 && clipping);
      }
    }

    /** One detector tick: every source moves, and a snapshot is published. */
    method Tick(now: real, order: seq<SourceKey>, walks: map<SourceKey, seq<EffectKey>>) returns (r: Snapshot)
      requires Valid() && Enumerates(order, sources.Keys)
      requires forall k | k in sources :: k in walks && Enumerates(walks[k], sources[k].effects.Keys)
      modifies this`queue, this`generated, sources.Values
      ensures Valid() && Value() == TickAll(old(Value()), order, walks, now, sine)
      ensures r == Engine.BuildSnapshot(Value(), order)
    {
      hide Normal, TickAll, Enumerates, Engine.BuildSnapshot, Valid;
      TickSources(now, order, walks);
      r := BuildSnapshot(order);
    }

    // A saturating sum over the connected sources.
    method Aggregate(order: seq<SourceKey>, counter: Source -> u64) returns (total: u64)
      requires Valid() && Enumerates(order, sources.Keys)
      ensures total == Total(Table(sources), order, counter)
    {
      hide Normal;
      total := 0;
      for i := 0 to |order|
        invariant total == Total(Table(sources), order[..i], counter)
      {
        assert order[..i + 1][..i] == order[..i];
        EachInOrder(order, sources.Keys, i);
        if sources[order[i]].connections != {} {
          total := SaturatingAdd(total, counter(sources[order[i]].Value()));
        }
      }
      assert order[..|order|] == order;
    }
  }

  predicate LoudIn(sources: map<SourceKey, Source>, order: seq<SourceKey>) {
    order != [] &&
    (LoudIn(sources, order[..|order| - 1]) || (order[|order| - 1] in sources && IsLoud(sources[order[|order| - 1]])))
  }

  lemma {:induction false} LoudInOrder(sources: map<SourceKey, Source>, order: seq<SourceKey>)
    ensures LoudIn(sources, order) <==> exists k | k in order :: k in sources && IsLoud(sources[k])
  {
    hide IsLoud;
    if order == [] {
    } else {
      LoudInOrder(sources, order[..|order| - 1]);
    }
  }

  lemma LoudInTable(sources: map<SourceKey, Source>, order: seq<SourceKey>)
    requires Enumerates(order, sources.Keys)
    ensures LoudIn(sources, order) <==>
      exists k | k in sources :: Connected(sources[k]) && EstimateReliable(sources[k]) && sources[k].meter.isClipping
  {
    hide Connected, EstimateReliable;
    LoudInOrder(sources, order);
    AllInOrder(order, sources.Keys);
  }

  predicate IsLoud(s: Source) { Connected(s) && EstimateReliable(s) && s.meter.isClipping }

  lemma TickedIdentity(s: Source, walk: seq<EffectKey>, now: real, settings: Settings, sine: real -> real)
    requires Normal(settings)
    ensures Sources.TickSource(s, walk, now, settings, sine).0.identity == s.identity
  {
    hide LevelsAt, ProbedEffects, Tick, Normal;
  }

  lemma PutThere(d: Detector, key: SourceKey, s: Source)
    ensures key in PutSource(d, key, s).sources && PutSource(d, key, s).sources[key] == s
  {
  }

  lemma PutTwice(d: Detector, key: SourceKey, first: Source, second: Source)
    ensures PutSource(PutSource(d, key, first), key, second) == PutSource(d, key, second)
  {
  }

  lemma PutUnderEdge(d: Detector, key: SourceKey, first: Source, second: Source, t: Transition)
    ensures PutSource(Enqueue(PutSource(d, key, first), t), key, second) == PutSource(Enqueue(d, t), key, second)
    ensures PutSource(PutSource(d, key, first), key, second) == PutSource(d, key, second)
  {
  }

  lemma OldestKnown(sources: map<SourceKey, Source>, order: seq<SourceKey>)
    ensures Oldest(sources, order).Some? ==> Oldest(sources, order).value in sources
  {
  }

  lemma TableWithout(sources: map<SourceKey, SourceState>, key: SourceKey)
    ensures Table(sources - {key}) == Table(sources) - {key}
    ensures |sources - {key}| == |Table(sources) - {key}| && (sources - {key}).Values <= sources.Values
  {
    assert Table(sources - {key}) == Table(sources) - {key};
    SameCount(sources - {key});
  }

  lemma EligibleIs(d: Detector, key: SourceKey)
    requires key in d.sources
    ensures Eligible(d, key) == (d.sources[key].connections != {} && (d.settings.autoSelect || Chosen(d.settings, key)))
  {
  }

  lemma ConnectedIs(s: Source)
    ensures Connected(s) == (s.connections != {})
  {
  }

  lemma SameCount(sources: map<SourceKey, SourceState>)
    ensures |Table(sources)| == |sources| && Table(sources).Keys == sources.Keys
  {
    assert Table(sources).Keys == sources.Keys;
  }

  lemma EachOnce<K>(order: seq<K>, keys: set<K>)
    requires Enumerates(order, keys)
    ensures forall i | 0 <= i < |order| :: order[i] in keys && order[i] !in order[..i]
  {
    forall i | 0 <= i < |order|
      ensures order[i] in keys && order[i] !in order[..i]
    {
      EachInOrder(order, keys, i);
    }
  }

  /** The peaks of the sources in a list are reset, and nothing else. */
  ghost predicate ResetUpTo(before: map<SourceKey, Source>, after: map<SourceKey, Source>, done: seq<SourceKey>) {
    after.Keys == before.Keys &&
    forall k | k in before :: after[k] == if k in done then ResetPeak(before[k]) else before[k]
  }

  lemma ResetNone(sources: map<SourceKey, Source>)
    ensures ResetUpTo(sources, sources, [])
  {
  }

  lemma ResetNext(before: map<SourceKey, Source>, after: map<SourceKey, Source>, order: seq<SourceKey>, i: nat)
    requires i < |order| && order[i] in before && order[i] !in order[..i]
    requires ResetUpTo(before, after, order[..i])
    ensures order[i] in after && ResetUpTo(before, after[order[i] := ResetPeak(after[order[i]])], order[..i + 1])
  {
    hide ResetPeak;
    assert order[..i + 1] == order[..i] + [order[i]];
  }

  lemma ResetAll(d: Detector, after: map<SourceKey, Source>, order: seq<SourceKey>)
    requires Enumerates(order, d.sources.Keys) && ResetUpTo(d.sources, after, order)
    ensures d.(sources := after) == ResetPeaks(d)
  {
    hide ResetPeak;
    AllInOrder(order, d.sources.Keys);
  }

  lemma TickNone(d: Detector, walks: map<SourceKey, seq<EffectKey>>, now: real, sine: real -> real)
    requires Normal(d.settings)
    ensures TickAll(d, [], walks, now, sine) == d
  {
  }

  lemma OneMore<K>(order: seq<K>, i: nat)
    requires i < |order|
    ensures forall k :: k in order[..i + 1] <==> k in order[..i] || k == order[i]
  {
    assert order[..i + 1] == order[..i] + [order[i]];
  }

  lemma TickNext(d: Detector, order: seq<SourceKey>, i: nat, walks: map<SourceKey, seq<EffectKey>>, now: real,
      sine: real -> real)
    requires Normal(d.settings) && i < |order|
    ensures TickAll(d, order[..i + 1], walks, now, sine)
      == TickOne(TickAll(d, order[..i], walks, now, sine), order[i],
                 if order[i] in walks then walks[order[i]] else [], now, sine)
  {
    assert order[..i + 1][..i] == order[..i];
  }
}
