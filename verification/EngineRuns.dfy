/** The detector over whole runs of calls, in any order and with any contents. */
module EngineRuns {
  import opened Bytes
  import opened Protocol
  import opened Effects
  import opened Settings
  import opened Hysteresis
  import opened Sources
  import opened SourceSafety
  import opened Engine
  import opened EngineSafety

  datatype Call =
    | Connecting(identity: Identity, connection: Guid, at: real, order: seq<SourceKey>)
    | Disconnecting(key: SourceKey, connection: Guid, at: real)
    | Processing(key: SourceKey, frame: Frame, at: real)
    | Ticking(at: real, order: seq<SourceKey>, walks: map<SourceKey, seq<EffectKey>>)
    | Reporting | Resetting | Changing(settings: Settings) | Dequeuing

  function Do(d: Detector, call: Call, sine: real -> real): Detector
    requires Normal(d.settings)
  {
    match call
    case Connecting(identity, connection, now, order) => Connect(d, identity, connection, now, order)
    case Disconnecting(key, connection, now) => Disconnect(d, key, connection, now)
    case Processing(key, frame, now) => ProcessFrame(d, key, frame, now)
    case Ticking(now, order, walks) => TickAll(d, order, walks, now, sine)
    case Reporting => ReportProtocolError(d)
    case Resetting => ResetPeaks(d)
    case Changing(settings) => UpdateSettings(d, settings)
    case Dequeuing => Dequeue(d).0
  }

  lemma InvNormal(d: Detector)
    requires DetectorInv(d)
    ensures Normal(d.settings) && Bounded(d)
  {
    hide KeyOk, Normal;
  }

  lemma PutCount(d: Detector, key: SourceKey, s: Source)
    ensures |PutSource(d, key, s).sources| == |d.sources| + if key in d.sources then 0 else 1
  {
    assert PutSource(d, key, s).sources.Keys == d.sources.Keys + {key};
  }

  lemma ConnectBounded(d: Detector, identity: Identity, connection: Guid, now: real, order: seq<SourceKey>)
    requires Bounded(d)
    ensures Bounded(Connect(d, identity, connection, now, order))
  {
    hide Normal, Oldest, Connected, PutSource;
    var key := identity.key;
    var r := if key in d.sources then d else MakeRoom(d, order);
    var before := if key in d.sources then d.sources[key].(identity := identity) else NewSource(identity);
    var s := before.(connections := before.connections + {connection}, lastActivity := now);
    PutCount(r, key, s);
    PutRest(r, key, s);
    assert |r.sources| <= |d.sources|;
  }

  lemma PutRest(d: Detector, key: SourceKey, s: Source)
    ensures var n := PutSource(d, key, s); n.settings == d.settings && n.queue == d.queue
  {
  }

  lemma BoundsKept(d: Detector, call: Call, sine: real -> real)
    requires Bounded(d) && !call.Ticking?
    ensures Bounded(Do(d, call, sine))
  {
    hide Normal, Apply, ResetAfterDisconnect, Connected, Connect, PutSource;
    match call
    case Connecting(identity, connection, now, order) => ConnectBounded(d, identity, connection, now, order);
    case Disconnecting(key, connection, now) =>
      if key in d.sources {
        var s := d.sources[key].(connections := d.sources[key].connections - {connection});
        var n := if Connected(s) then s else ResetAfterDisconnect(s, now);
        PutCount(d, key, n);
        PutRest(d, key, n);
        PutCount(Enqueue(d, Transition(ClippingEnded, key, now)), key, n);
        PutRest(Enqueue(d, Transition(ClippingEnded, key, now)), key, n);
      }
    case Processing(key, f, now) =>
      if key in d.sources {
        var n := Apply(d.sources[key].(lastActivity := now), f, now);
        PutCount(d, key, n);
        PutRest(d, key, n);
      }
    case Changing(settings) => NormalizedIsNormal(settings);
    case Resetting => assert ResetPeaks(d).sources.Keys == d.sources.Keys;
    case _ =>
  }

  /** Every call keeps the detector's invariant. */
  lemma CallKeeps(d: Detector, call: Call, sine: real -> real)
    requires DetectorInv(d)
    ensures DetectorInv(Do(d, call, sine))
  {
    hide KeyOk, Connect, Disconnect, ProcessFrame, TickAll, Bounded, Normal;
    InvNormal(d);
    if call.Ticking? {
      TickAllKeeps(d, call.order, call.walks, call.at, sine);
    } else {
      BoundsKept(d, call, sine);
      forall key
        ensures KeyOk(Do(d, call, sine), key)
      {
        CallKeepsKey(d, call, sine, key);
      }
    }
  }

  lemma CallKeepsKey(d: Detector, call: Call, sine: real -> real, key: SourceKey)
    requires DetectorInv(d) && !call.Ticking?
    ensures KeyOk(Do(d, call, sine), key)
  {
    hide Connect, Disconnect, ProcessFrame, TickAll, Bounded, ClipEdges, SourceInv, Alternates, ResetPeak;
    assert KeyOk(d, key);
    match call
    case Connecting(identity, connection, now, order) => ConnectKeeps(d, identity, connection, now, order, key);
    case Disconnecting(k, connection, now) =>
      assert KeyOk(d, k);
      DisconnectKeepsKey(d, k, connection, now, key);
    case Processing(k, frame, now) =>
      assert KeyOk(d, k);
      FrameKeeps(d, k, frame, now, key);
    case Resetting => PeakKeeps(d, key);
    case _ =>
  }

  /** The state after some calls. */
  ghost function Run(d: Detector, calls: seq<Call>, sine: real -> real): (r: Detector)
    requires DetectorInv(d)
    ensures DetectorInv(r)
    decreases calls
  {
    if calls == [] then d
    else
      CallKeeps(d, calls[0], sine);
      Run(Do(d, calls[0], sine), calls[1..], sine)
  }

  ghost function After(settings: Settings, calls: seq<Call>, sine: real -> real): (r: Detector)
    ensures DetectorInv(r)
  {
    NewDetectorOk(settings);
    Run(NewDetector(settings), calls, sine)
  }

  /**
   For each source key, over connects, disconnects, drop notices, ticks, evictions and
   re-creations: the clip edges ever raised alternate, beginning with a start, and the source is
   clipping exactly when the last one was a start.
   */
  lemma ClipEdgesAlternate(settings: Settings, calls: seq<Call>, sine: real -> real, key: SourceKey)
    ensures var d := After(settings, calls, sine);
      Alternates(true, ClipEdges(d.generated, key)) && (Clipping(d, key) <==> |ClipEdges(d.generated, key)| % 2 == 1)
  {
    hide After, Bounded, Stored, Alternates, ClipEdges, Clipping;
    assert KeyOk(After(settings, calls, sine), key);
  }

  /**
   Never more than 64 sources, 64 devices and 1024 effects each; every effect is under its key and its
   device is known.
   */
  lemma TablesStayBounded(settings: Settings, calls: seq<Call>, sine: real -> real, key: SourceKey)
    ensures var d := After(settings, calls, sine);
      && |d.sources| <= MAX_SOURCES && |d.queue| <= MAX_TRANSITIONS
      && (key in d.sources ==>
           Tables(d.sources[key].effects, d.sources[key].devices) && d.sources[key].identity.key == key)
  {
    hide After, Tables, EdgesOk;
    assert KeyOk(After(settings, calls, sine), key);
  }

  /** Making room for a source never costs a connected one. */
  lemma ConnectedStays(d: Detector, identity: Identity, connection: Guid, now: real, order: seq<SourceKey>,
      key: SourceKey)
    requires key in d.sources && Connected(d.sources[key]) && key != identity.key
    ensures var n := Connect(d, identity, connection, now, order); key in n.sources && n.sources[key] == d.sources[key]
  {
  }

  // ---------- No silent truncation ----------

  lemma DropsStay(d: Detector, call: Call, sine: real -> real)
    requires Normal(d.settings) && d.sourceDrops > 0
    ensures Do(d, call, sine).sourceDrops > 0
  {
    hide Apply, ResetAfterDisconnect, Oldest, TickAll, Normal;
    if call.Ticking? {
      TickDrops(d, call.order, call.walks, call.at, sine);
    }
  }

  lemma {:induction false} TickDrops(d: Detector, order: seq<SourceKey>, walks: map<SourceKey, seq<EffectKey>>,
      now: real, sine: real -> real)
    requires Normal(d.settings)
    ensures TickAll(d, order, walks, now, sine).sourceDrops == d.sourceDrops
    ensures TickAll(d, order, walks, now, sine).sources.Keys == d.sources.Keys
  {
    hide TickSource, Normal;
    if order == [] {
    } else {
      TickDrops(d, order[..|order| - 1], walks, now, sine);
      var b := TickAll(d, order[..|order| - 1], walks, now, sine);
      assert forall k, s: Source | k in b.sources :: PutSource(b, k, s).sources.Keys == b.sources.Keys;
    }
  }

  predicate Silent(s: Snapshot) { !s.dataReliable && !s.atLimit && !s.isClipping }

  /** Once a source has been refused, no later snapshot claims anything, whatever happens. */
  lemma {:induction false} RefusedSourceSilencesAll(d: Detector, calls: seq<Call>, sine: real -> real,
      order: seq<SourceKey>)
    requires DetectorInv(d) && d.sourceDrops > 0
    ensures var r := BuildSnapshot(Run(d, calls, sine), order); Silent(r) && !r.anyClipping && r.capacity
    decreases calls
  {
    hide DetectorInv, Do, Total, CountConnected, Select, Eligible;
    if calls == [] {
    } else {
      InvNormal(d);
      CallKeeps(d, calls[0], sine);
      DropsStay(d, calls[0], sine);
      RefusedSourceSilencesAll(Do(d, calls[0], sine), calls[1..], sine, order);
    }
  }

  /** The source keeps its place in the table through every call. */
  ghost predicate StoredThroughout(d: Detector, calls: seq<Call>, sine: real -> real, key: SourceKey)
    requires DetectorInv(d)
    decreases calls
  {
    key in d.sources
    && (calls != [] ==> (CallKeeps(d, calls[0], sine); StoredThroughout(Do(d, calls[0], sine), calls[1..], sine, key)))
  }

  lemma TickOneIssues(d: Detector, k: SourceKey, walk: seq<EffectKey>, now: real, sine: real -> real, key: SourceKey)
    requires Normal(d.settings) && key in d.sources
    ensures var n := TickOne(d, k, walk, now, sine);
      key in n.sources && n.sources[key].issues == d.sources[key].issues
        && n.sources[key].losses == d.sources[key].losses && n.sources[key].connections == d.sources[key].connections
  {
    hide TickSource, Normal;
    if k in d.sources {
      TickSourceEdge(d.sources[k], walk, now, d.settings, sine);
    }
  }

  lemma {:induction false} TickIssues(d: Detector, order: seq<SourceKey>, walks: map<SourceKey, seq<EffectKey>>,
      now: real, sine: real -> real, key: SourceKey)
    requires Normal(d.settings) && key in d.sources
    ensures var n := TickAll(d, order, walks, now, sine);
      key in n.sources && n.sources[key].issues == d.sources[key].issues
        && n.sources[key].losses == d.sources[key].losses && n.sources[key].connections == d.sources[key].connections
  {
    hide TickOne, Normal;
    if order == [] {
    } else {
      var front, k := order[..|order| - 1], order[|order| - 1];
      TickIssues(d, front, walks, now, sine, key);
      TickOneIssues(TickAll(d, front, walks, now, sine), k, if k in walks then walks[k] else [], now, sine, key);
    }
  }

  lemma FrameStaysUnreliable(d: Detector, key: SourceKey, f: Frame, now: real)
    requires DetectorInv(d) && key in d.sources && !StateReliable(d.sources[key])
    ensures !StateReliable(ProcessFrame(d, key, f, now).sources[key])
  {
    hide DetectorInv, KeyOk, Normal, Apply, SourceInv, EdgesOk;
    StoredInv(d, key);
    var s := d.sources[key].(lastActivity := now);
    RenamedOk(d.sources[key], s.identity, s.connections, now);
    FrameIssues(s, f, now);
  }

  lemma ComingStaysUnreliable(d: Detector, identity: Identity, connection: Guid, now: real, order: seq<SourceKey>,
      key: SourceKey)
    requires key in d.sources && !StateReliable(d.sources[key])
      && key in Connect(d, identity, connection, now, order).sources
    ensures !StateReliable(Connect(d, identity, connection, now, order).sources[key])
  {
    hide Oldest;
  }

  lemma GoingStaysUnreliable(d: Detector, gone: SourceKey, connection: Guid, now: real, key: SourceKey)
    requires key in d.sources && !StateReliable(d.sources[key])
    ensures key in Disconnect(d, gone, connection, now).sources
      && !StateReliable(Disconnect(d, gone, connection, now).sources[key])
  {
  }

  /** A gap, a reconnect or a refused device or effect is never forgotten while the source is stored. */
  lemma UnreliableStays(d: Detector, call: Call, sine: real -> real, key: SourceKey)
    requires DetectorInv(d) && Normal(d.settings) && key in d.sources && !StateReliable(d.sources[key])
      && key in Do(d, call, sine).sources
    ensures !StateReliable(Do(d, call, sine).sources[key])
  {
    hide DetectorInv, TickAll, Normal, Apply, Connect, Disconnect;
    match call
    case Ticking(now, order, walks) => TickIssues(d, order, walks, now, sine, key);
    case Processing(k, f, now) =>
      if k == key {
        FrameStaysUnreliable(d, key, f, now);
      }
    case Connecting(identity, connection, now, order) =>
      ComingStaysUnreliable(d, identity, connection, now, order, key);
    case Disconnecting(k, connection, now) => GoingStaysUnreliable(d, k, connection, now, key);
    case _ =>
  }

  lemma StoredInv(d: Detector, key: SourceKey)
    requires DetectorInv(d) && key in d.sources
    ensures SourceInv(d.sources[key])
  {
    hide SourceInv, EdgesOk, Bounded;
    assert KeyOk(d, key);
  }

  lemma FrameIssues(s: Source, f: Frame, now: real)
    requires SourceInv(s)
    ensures StillKnown(s.issues, Apply(s, f, now).issues)
  {
    hide Tables, WithDevice, ApplyProperty, ApplyEffectCreated, ApplyEffectParameters,
      ApplyEffectCommand, ApplyDeviceCommand;
    WithDeviceOk(s, f.deviceId);
    PropertyOk(s, f);
    CreatedOk(s, f);
    ParametersOk(s, f, now);
    CommandOk(s, f, now);
    DeviceCommandOk(s, f.deviceId, f.diFlags, now);
  }

  /** From then on every snapshot of that source says so, while it stays stored. */
  lemma {:induction false} UnreliableSourceIsSilent(d: Detector, calls: seq<Call>, sine: real -> real, key: SourceKey,
      order: seq<SourceKey>)
    requires DetectorInv(d) && key in d.sources && !StateReliable(d.sources[key])
      && StoredThroughout(d, calls, sine, key)
    ensures var r := BuildSnapshot(Run(d, calls, sine), order); r.source == Some(key) ==> Silent(r)
    decreases calls
  {
    hide DetectorInv, Do, Total, CountConnected, Eligible, StateReliable;
    if calls == [] {
      UnreliableSnapshot(d, key, order);
    } else {
      InvNormal(d);
      CallKeeps(d, calls[0], sine);
      UnreliableStays(d, calls[0], sine, key);
      UnreliableSourceIsSilent(Do(d, calls[0], sine), calls[1..], sine, key, order);
    }
  }

  lemma UnreliableSnapshot(d: Detector, key: SourceKey, order: seq<SourceKey>)
    requires key in d.sources && !StateReliable(d.sources[key])
    ensures BuildSnapshot(d, order).source == Some(key) ==> Silent(BuildSnapshot(d, order))
  {
    hide Total, CountConnected;
  }

  // The frames that ask for an entry in the table of devices, and those that ask for one in both tables.
  predicate WantsDevice(f: Frame) {
    || f.messageType == DEVICE_CREATED || f.messageType == DEVICE_COMMAND
    || (f.messageType == DEVICE_PROPERTY_CHANGED && f.propertyId == 1)
  }

  predicate WantsEffect(s: Source, f: Frame) {
    || ((f.messageType == EFFECT_CREATED || f.messageType == EFFECT_PARAMETERS_CHANGED) && f.effectId != 0)
    || (f.messageType == EFFECT_COMMAND && f.effectCommand == START && KeyOf(f) !in s.effects)
  }

  /** A frame for whose device or effect there is no room. */
  predicate Refused(s: Source, f: Frame) {
    && f.hresult >= 0
    && ((WantsDevice(f) && f.deviceId !in s.devices && |s.devices| >= MAX_DEVICES)
        || (WantsEffect(s, f) && !HasRoom(s, KeyOf(f))))
  }

  lemma DeviceRefusals(s: Source, f: Frame, now: real)
    requires SourceInv(s)
    ensures var full := f.deviceId !in s.devices && |s.devices| >= MAX_DEVICES;
      forall n | n in {WithDevice(s, f.deviceId), ApplyDeviceCommand(s, f.deviceId, f.diFlags, now)} ::
        && n.issues.capacity == (s.issues.capacity || full)
        && (full ==> n.effects == s.effects && n.devices == s.devices)
  {
    hide Bit, StopDevice, ResumeDevice, Tables;
  }

  lemma PropertyRefusals(s: Source, f: Frame)
    requires SourceInv(s)
    ensures var full := f.propertyId == 1 && f.deviceId !in s.devices && |s.devices| >= MAX_DEVICES;
      var n := ApplyProperty(s, f);
      && n.issues.capacity == (s.issues.capacity || full)
      && (full ==> n.effects == s.effects && n.devices == s.devices)
  {
    hide NormalizeUnsigned, Tables;
  }

  lemma RoomRefusals(s: Source, key: EffectKey)
    ensures var n := WithRoom(s, key);
      && n.issues.capacity == (s.issues.capacity || !HasRoom(s, key))
      && (!HasRoom(s, key) ==> n.effects == s.effects && n.devices == s.devices)
  {
  }

  lemma EffectRefusals(s: Source, f: Frame, now: real)
    requires SourceInv(s)
    ensures ApplyEffectCreated(s, f).issues.capacity
      == (s.issues.capacity || (f.effectId != 0 && !HasRoom(s, KeyOf(f))))
    ensures ApplyEffectParameters(s, f, now).issues.capacity
      == (s.issues.capacity || (f.effectId != 0 && !HasRoom(s, KeyOf(f))))
    ensures ApplyEffectCommand(s, f, now).issues.capacity
      == (s.issues.capacity || (f.effectCommand == START && KeyOf(f) !in s.effects && !HasRoom(s, KeyOf(f))))
  {
    hide WithRoom, HasRoom, CreatedEffect, UpdatedEffect, StartEffect, StopEffect, StopDevice, Kinded, Tables;
    RoomRefusals(s, KeyOf(f));
    WithRoomOk(s, KeyOf(f));
  }

  /** The capacity mark is set by exactly the frames that are refused, and these change neither table. */
  lemma RefusedInsertSilences(s: Source, f: Frame, now: real)
    requires SourceInv(s)
    ensures var n := Apply(s, f, now);
      && (n.issues.capacity <==> s.issues.capacity || Refused(s, f))
      && (Refused(s, f) ==> !StateReliable(n) && n.effects == s.effects && n.devices == s.devices)
  {
    hide WithDevice, ApplyDeviceCommand, ApplyProperty, WithRoom, HasRoom, ApplyEffectCreated, ApplyEffectParameters,
      ApplyEffectCommand, SourceInv;
    DeviceRefusals(s, f, now);
    PropertyRefusals(s, f);
    EffectRefusals(s, f, now);
    RoomRefusals(s, KeyOf(f));
    if !HasRoom(s, KeyOf(f)) {
      RefusedEffect(s, f, now);
    }
  }

  lemma RefusedEffect(s: Source, f: Frame, now: real)
    requires !HasRoom(s, KeyOf(f))
    ensures f.effectId != 0 ==>
      ApplyEffectCreated(s, f) == WithRoom(s, KeyOf(f)) == ApplyEffectParameters(s, f, now)
    ensures f.effectCommand == START && KeyOf(f) !in s.effects ==>
      ApplyEffectCommand(s, f, now) == WithRoom(s, KeyOf(f))
  {
    hide WithRoom, HasRoom;
  }
}
