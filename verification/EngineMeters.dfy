/** The hysteresis of one source inside the whole detector: what its meter sees of a run of calls. */
module EngineMeters {
  import opened Bytes
  import opened Protocol
  import opened Effects
  import opened Settings
  import opened Window
  import opened Hysteresis
  import opened MeterRuns
  import opened MixerLoops
  import opened Sources
  import opened SourceSafety
  import opened Engine
  import opened EngineSafety
  import opened EngineRuns

  /** The tick sample of a source: the clamped combined level, and whether the estimate can be relied on. */
  function SampleOf(s: Source, walk: seq<EffectKey>, now: real, settings: Settings, sine: real -> real): Moment {
    var e := Evaluate(s, walk, now, sine);
    Moment(settings, now, e.levels.combined, EstimateReliable(e))
  }

  function WalkOf(walks: map<SourceKey, seq<EffectKey>>, key: SourceKey): seq<EffectKey> {
    if key in walks then walks[key] else []
  }

  /** A loss report the source has not seen before; it is what makes the detector forget the source's state. */
  predicate NewLoss(s: Source, key: SourceKey, f: Frame) {
    Connected(s) && f.processId == key.processId && f.messageType == DROP_NOTICE && f.dropped > s.losses.frames
  }

  function Unreliable(settings: Settings, now: real): Moment { Moment(settings, now, 0.0, false) }

  /** What a call makes the meter of a stored source see; a loss and the last disconnect count as unreliable ticks. */
  function Seen(d: Detector, call: Call, sine: real -> real, key: SourceKey): Option<Moment>
    requires key in d.sources
  {
    var s := d.sources[key];
    match call
    case Ticking(now, order, walks) =>
      if key in order then Some(SampleOf(s, WalkOf(walks, key), now, d.settings, sine)) else None
    case Processing(k, f, now) => if k == key && NewLoss(s, key, f) then Some(Unreliable(d.settings, now)) else None
    case Disconnecting(k, connection, now) =>
      if k == key && s.connections - {connection} == {} then Some(Unreliable(d.settings, now)) else None
    case _ => None
  }

  /** The meter after at most one more sample. */
  function Metered(m: Meter, sample: Option<Moment>): Meter
    requires sample.Some? ==> Normal(sample.value.settings)
  {
    if sample.None? then m
    else var x := sample.value; Tick(m, x.now, x.settings, x.level, x.reliable).0
  }

  lemma SeenNormal(d: Detector, call: Call, sine: real -> real, key: SourceKey)
    requires Normal(d.settings) && key in d.sources
    ensures var sample := Seen(d, call, sine, key); sample.Some? ==> sample.value.settings == d.settings
  {
    hide Normal, Evaluate, EstimateReliable, NewLoss;
  }

  // ---------- One tick of the detector, seen from one source ----------

  predicate Distinct(order: seq<SourceKey>) { forall i | 0 <= i < |order| :: order[i] !in order[..i] }

  lemma TickOneSource(d: Detector, k: SourceKey, walk: seq<EffectKey>, now: real, sine: real -> real, key: SourceKey)
    requires Normal(d.settings) && key in d.sources
    ensures var n := TickOne(d, k, walk, now, sine);
      && key in n.sources && n.settings == d.settings
      && n.sources[key]
        == if k == key then TickSource(d.sources[key], walk, now, d.settings, sine).0 else d.sources[key]
  {
    hide TickSource, Normal;
  }

  /** In a tick of the detector every source moves exactly as it would alone. */
  lemma {:induction false} TickedAlone(d: Detector, order: seq<SourceKey>, walks: map<SourceKey, seq<EffectKey>>,
      now: real, sine: real -> real, key: SourceKey)
    requires Normal(d.settings) && key in d.sources && Distinct(order)
    ensures var n := TickAll(d, order, walks, now, sine);
      && key in n.sources
      && n.sources[key]
        == if key in order then TickSource(d.sources[key], WalkOf(walks, key), now, d.settings, sine).0
           else d.sources[key]
    decreases order
  {
    hide TickSource, TickOne, Normal;
    if order == [] {
    } else {
      var front, k := order[..|order| - 1], order[|order| - 1];
      FrontDistinct(order);
      TickedAlone(d, front, walks, now, sine, key);
      TickOneSource(TickAll(d, front, walks, now, sine), k, WalkOf(walks, k), now, sine, key);
      LastOrFront(order, key);
    }
  }

  lemma FrontDistinct(order: seq<SourceKey>)
    requires order != [] && Distinct(order)
    ensures Distinct(order[..|order| - 1]) && order[|order| - 1] !in order[..|order| - 1]
  {
    var front := order[..|order| - 1];
    assert forall i | 0 <= i < |front| :: front[..i] == order[..i];
  }

  lemma LastOrFront(order: seq<SourceKey>, key: SourceKey)
    requires order != []
    ensures key in order <==> key == order[|order| - 1] || key in order[..|order| - 1]
  {
    assert order == order[..|order| - 1] + [order[|order| - 1]];
  }

  lemma EnumeratedDistinct(order: seq<SourceKey>, keys: set<SourceKey>)
    requires Enumerates(order, keys)
    ensures Distinct(order)
  {
    forall i | 0 <= i < |order|
      ensures order[i] !in order[..i]
    {
      EachInOrder(order, keys, i);
    }
  }

  // ---------- One call ----------

  lemma Unreliably(m: Meter, now: real, settings: Settings)
    requires Normal(settings)
    ensures Metered(m, Some(Unreliable(settings, now))) == Silenced(m, now)
  {
  }

  lemma TickMeter(s: Source, walk: seq<EffectKey>, now: real, settings: Settings, sine: real -> real)
    requires Normal(settings)
    ensures TickSource(s, walk, now, settings, sine).0.meter
      == Metered(s.meter, Some(SampleOf(s, walk, now, settings, sine)))
  {
    hide Tick, Normal, LevelsAt, ProbedEffects, EstimateReliable;
  }

  lemma ObjectFrames(s: Source, f: Frame)
    ensures WithDevice(s, f.deviceId).meter == s.meter && ApplyProperty(s, f).meter == s.meter
    ensures ApplyEffectCreated(s, f).meter == s.meter
  {
    hide CreatedEffect, Kinded, NewEffect, NormalizeUnsigned;
  }

  lemma ParameterFrame(s: Source, f: Frame, now: real)
    ensures ApplyEffectParameters(s, f, now).meter == s.meter
  {
    hide UpdatedEffect, Kinded, NewEffect, Begin;
  }

  lemma CommandFrames(s: Source, f: Frame, now: real)
    ensures ApplyEffectCommand(s, f, now).meter == s.meter
      && ApplyDeviceCommand(s, f.deviceId, f.diFlags, now).meter == s.meter
  {
    hide StopDevice, StartEffect, ResumeDevice, StopEffect, NewEffect, Begin;
  }

  // Other than a new loss, no frame reaches the meter.
  lemma FrameMeter(s: Source, f: Frame, now: real)
    ensures Apply(s, f, now).meter
      == if f.messageType == DROP_NOTICE && f.dropped > s.losses.frames then Silenced(s.meter, now) else s.meter
  {
    hide Silenced, WithDevice, ApplyProperty, ApplyEffectCreated, ApplyEffectParameters, ApplyEffectCommand,
      ApplyDeviceCommand;
    ObjectFrames(s, f);
    ParameterFrame(s, f, now);
    CommandFrames(s, f, now);
  }

  lemma FrameCall(d: Detector, k: SourceKey, f: Frame, now: real, key: SourceKey)
    requires Normal(d.settings) && key in d.sources
    ensures var n := ProcessFrame(d, k, f, now);
      && key in n.sources
      && n.sources[key].meter
        == if k == key && NewLoss(d.sources[key], key, f) then Silenced(d.sources[key].meter, now)
            else d.sources[key].meter
  {
    hide Apply, Silenced, Connected, Normal;
    if k == key {
      FrameMeter(d.sources[key].(lastActivity := now), f, now);
    }
  }

  lemma GoingCall(d: Detector, k: SourceKey, connection: Guid, now: real, key: SourceKey)
    requires key in d.sources
    ensures var n := Disconnect(d, k, connection, now);
      && key in n.sources
      && n.sources[key].meter
        == if k == key && d.sources[key].connections - {connection} == {} then Silenced(d.sources[key].meter, now)
           else d.sources[key].meter
  {
    hide Silenced, Deactivated;
  }

  lemma ComingCall(d: Detector, identity: Identity, connection: Guid, now: real, order: seq<SourceKey>, key: SourceKey)
    requires key in d.sources && key in Connect(d, identity, connection, now, order).sources
    ensures Connect(d, identity, connection, now, order).sources[key].meter == d.sources[key].meter
  {
    hide Oldest;
  }

  /** Whatever the call, the meter of a source that stays stored moves by exactly the sample of that call. */
  lemma MeterFollows(d: Detector, call: Call, sine: real -> real, key: SourceKey)
    requires Normal(d.settings) && key in d.sources && key in Do(d, call, sine).sources
    requires call.Ticking? ==> Enumerates(call.order, d.sources.Keys)
    ensures var sample := Seen(d, call, sine, key);
      && (sample.Some? ==> sample.value.settings == d.settings)
      && Do(d, call, sine).sources[key].meter == Metered(d.sources[key].meter, sample)
  {
    hide Connect, Disconnect, ProcessFrame, TickAll, TickSource, NewLoss, SampleOf, Normal, Silenced, Tick, Enumerates,
      Unreliable, Metered;
    var m, s := d.sources[key].meter, d.settings;
    SeenNormal(d, call, sine, key);
    NotMetered(m);
    match call
    case Ticking(now, order, walks) =>
      EnumeratedDistinct(order, d.sources.Keys);
      TickedAlone(d, order, walks, now, sine, key);
      TickMeter(d.sources[key], WalkOf(walks, key), now, s, sine);
    case Processing(k, f, now) =>
      FrameCall(d, k, f, now, key);
      Unreliably(m, now, s);
    case Disconnecting(k, connection, now) =>
      GoingCall(d, k, connection, now, key);
      Unreliably(m, now, s);
    case Connecting(identity, connection, now, order) => ComingCall(d, identity, connection, now, order, key);
    case _ =>
  }

  lemma NotMetered(m: Meter)
    ensures Metered(m, None) == m
  {
  }

  // ---------- A run of calls ----------

  /** The order of every tick lists the sources stored at that tick, each once. */
  ghost predicate WalksTables(settings: Settings, calls: seq<Call>, sine: real -> real) {
    forall i | 0 <= i < |calls| && calls[i].Ticking? ::
      Enumerates(calls[i].order, After(settings, calls[..i], sine).sources.Keys)
  }

  function Earlier(calls: seq<Call>): (r: seq<Call>)
    requires calls != []
    ensures |r| == |calls| - 1
  {
    calls[..|calls| - 1]
  }

  function Latest(calls: seq<Call>): Call
    requires calls != []
  {
    calls[|calls| - 1]
  }

  /** Everything the meter of a source has seen since the source was last created. */
  ghost function SamplesOf(settings: Settings, calls: seq<Call>, sine: real -> real, key: SourceKey): seq<Moment>
    decreases |calls|
  {
    if calls == [] || key !in After(settings, Earlier(calls), sine).sources then []
    else
      var sample := Seen(After(settings, Earlier(calls), sine), Latest(calls), sine, key);
      SamplesOf(settings, Earlier(calls), sine, key) + if sample.Some? then [sample.value] else []
  }

  lemma {:induction false} RunSnoc(d: Detector, calls: seq<Call>, sine: real -> real)
    requires DetectorInv(d) && calls != []
    ensures var b := Run(d, Earlier(calls), sine);
      Normal(b.settings) && Run(d, calls, sine) == Do(b, Latest(calls), sine)
    decreases calls
  {
    hide DetectorInv, Do, Normal;
    InvNormal(d);
    CallKeeps(d, calls[0], sine);
    InvNormal(Do(d, calls[0], sine));
    if |calls| == 1 {
      assert calls[1..] == [] && Earlier(calls) == [];
    } else {
      assert Earlier(calls)[1..] == Earlier(calls[1..]) && Earlier(calls)[0] == calls[0];
      RunSnoc(Do(d, calls[0], sine), calls[1..], sine);
    }
  }

  lemma LatestStep(settings: Settings, calls: seq<Call>, sine: real -> real)
    requires calls != []
    ensures var b := After(settings, Earlier(calls), sine);
      DetectorInv(b) && Normal(b.settings) && After(settings, calls, sine) == Do(b, Latest(calls), sine)
  {
    hide DetectorInv, Do, Normal, Run, NewDetector;
    NewDetectorOk(settings);
    RunSnoc(NewDetector(settings), calls, sine);
  }

  lemma EarlierWalks(settings: Settings, calls: seq<Call>, sine: real -> real)
    requires calls != [] && WalksTables(settings, calls, sine)
    ensures WalksTables(settings, Earlier(calls), sine)
    ensures Latest(calls).Ticking? ==>
      Enumerates(Latest(calls).order, After(settings, Earlier(calls), sine).sources.Keys)
  {
    hide Enumerates, After;
    assert forall i | 0 <= i < |Earlier(calls)| :: Earlier(calls)[i] == calls[i] && Earlier(calls)[..i] == calls[..i];
  }

  lemma OnlyConnectAdds(d: Detector, call: Call, sine: real -> real, key: SourceKey)
    requires Normal(d.settings) && key !in d.sources && !call.Connecting?
    ensures key !in Do(d, call, sine).sources
  {
    hide Normal, Apply, ResetAfterDisconnect, TickAll;
    if call.Ticking? {
      TickDrops(d, call.order, call.walks, call.at, sine);
    }
  }

  /** A source that a call brings into the table starts with a new meter. */
  lemma CreatedNew(d: Detector, call: Call, sine: real -> real, key: SourceKey)
    requires Normal(d.settings) && key !in d.sources && key in Do(d, call, sine).sources
    ensures Do(d, call, sine).sources[key].meter == NewMeter()
  {
    hide Normal, Disconnect, ProcessFrame, TickAll, ResetPeaks, UpdateSettings, Dequeue, Oldest;
    if !call.Connecting? {
      OnlyConnectAdds(d, call, sine, key);
    }
  }

  lemma MeterSnoc(run: seq<Moment>, sample: Option<Moment>)
    requires AllNormal(run) && (sample.Some? ==> Normal(sample.value.settings))
    ensures var n := run + if sample.Some? then [sample.value] else [];
      && AllNormal(n) && MeterAt(n) == Metered(MeterAt(run), sample)
      && (sample.Some? ==> n != [] && Front(n) == run && Last(n) == sample.value)
  {
    hide Tick, Normal;
    if sample.None? {
      assert run + [] == run;
    } else {
      assert Front(run + [sample.value]) == run;
    }
  }

  /** In any run of calls, the meter of every stored source is what its samples make of it. */
  lemma {:induction false} MeterOfRun(settings: Settings, calls: seq<Call>, sine: real -> real, key: SourceKey)
    requires WalksTables(settings, calls, sine)
    ensures var (d, run) := (After(settings, calls, sine), SamplesOf(settings, calls, sine, key));
      AllNormal(run) && (key in d.sources ==> d.sources[key].meter == MeterAt(run))
    decreases |calls|
  {
    hide DetectorInv, Do, Seen, Normal, Enumerates, Metered, After, WalksTables;
    if calls == [] {
      NothingStored(settings, sine, key);
    } else {
      var b := After(settings, Earlier(calls), sine);
      LatestStep(settings, calls, sine);
      EarlierWalks(settings, calls, sine);
      MeterOfRun(settings, Earlier(calls), sine, key);
      if key in b.sources {
        SeenNormal(b, Latest(calls), sine, key);
        MeterSnoc(SamplesOf(settings, Earlier(calls), sine, key), Seen(b, Latest(calls), sine, key));
        if key in After(settings, calls, sine).sources {
          MeterFollows(b, Latest(calls), sine, key);
        }
      } else if key in After(settings, calls, sine).sources {
        CreatedNew(b, Latest(calls), sine, key);
      }
    }
  }

  lemma NothingStored(settings: Settings, sine: real -> real, key: SourceKey)
    ensures key !in After(settings, [], sine).sources
  {
    hide DetectorInv;
  }

  // ---------- Why a source clips, and why it stops ----------

  /** A clipping source is connected, so no call takes it out of the table. */
  lemma ClippingStays(d: Detector, call: Call, sine: real -> real, key: SourceKey)
    requires DetectorInv(d) && Normal(d.settings) && Clipping(d, key)
    ensures key in Do(d, call, sine).sources
  {
    hide DetectorInv, Bounded, Normal, Connect, Disconnect, ProcessFrame, TickAll, SourceInv, EdgesOk;
    match call
    case Connecting(identity, connection, now, order) => ClippingStaysThen(d, identity, connection, now, order, key);
    case Disconnecting(k, connection, now) => GoingCall(d, k, connection, now, key);
    case Processing(k, f, now) => FrameCall(d, k, f, now, key);
    case Ticking(now, order, walks) => TickDrops(d, order, walks, now, sine);
    case _ =>
  }

  lemma ClippingStaysThen(d: Detector, identity: Identity, connection: Guid, now: real, order: seq<SourceKey>,
      key: SourceKey)
    requires DetectorInv(d) && Clipping(d, key)
    ensures key in Connect(d, identity, connection, now, order).sources
  {
    hide SourceInv, EdgesOk, Bounded, MakeRoom;
    assert KeyOk(d, key);
    if !Connected(d.sources[key]) {
      DisconnectedIsSilent(d.sources[key]);
    }
    if key != identity.key {
      ConnectedStays(d, identity, connection, now, order, key);
    }
  }

  lemma ClippingMeans(d: Detector, key: SourceKey)
    ensures Clipping(d, key) <==> key in d.sources && d.sources[key].meter.isClipping
  {
  }

  lemma NewIsSilent()
    ensures !NewMeter().isClipping
  {
  }

  /** A call that changes whether a source clips gave its meter a sample, and that sample's tick raised the edge. */
  lemma ChangeIsSeen(settings: Settings, calls: seq<Call>, sine: real -> real, key: SourceKey)
    requires WalksTables(settings, calls, sine) && calls != []
    requires Clipping(After(settings, Earlier(calls), sine), key) != Clipping(After(settings, calls, sine), key)
    ensures var (b, run) := (After(settings, Earlier(calls), sine), SamplesOf(settings, calls, sine, key));
      && key in b.sources && run != [] && AllNormal(run) && Seen(b, Latest(calls), sine, key) == Some(Last(run))
      && Clipping(b, key) == MeterAt(Front(run)).isClipping
        && Clipping(After(settings, calls, sine), key) == MeterAt(run).isClipping
  {
    hide *;
    var b, call := After(settings, Earlier(calls), sine), Latest(calls);
    LatestStep(settings, calls, sine);
    EarlierWalks(settings, calls, sine);
    ClippingMeans(b, key);
    ClippingMeans(After(settings, calls, sine), key);
    if Clipping(b, key) {
      ClippingStays(b, call, sine, key);
    }
    if key !in b.sources {
      CreatedNew(b, call, sine, key);
      NewIsSilent();
    }
    MeterOfRun(settings, Earlier(calls), sine, key);
    MeterOfRun(settings, calls, sine, key);
    SamplesSnoc(settings, calls, sine, key);
    SeenNormal(b, call, sine, key);
    MeterSnoc(SamplesOf(settings, Earlier(calls), sine, key), Seen(b, call, sine, key));
    if Seen(b, call, sine, key).None? {
      NotMetered(MeterAt(SamplesOf(settings, Earlier(calls), sine, key)));
    }
  }

  lemma SamplesSnoc(settings: Settings, calls: seq<Call>, sine: real -> real, key: SourceKey)
    requires calls != [] && key in After(settings, Earlier(calls), sine).sources
    ensures var sample := Seen(After(settings, Earlier(calls), sine), Latest(calls), sine, key);
      SamplesOf(settings, calls, sine, key)
        == SamplesOf(settings, Earlier(calls), sine, key) + if sample.Some? then [sample.value] else []
  {
    hide Seen, After;
  }

  lemma EdgeOfChange(run: seq<Moment>)
    requires AllNormal(run) && run != []
    ensures MeterAt(run).isClipping && !MeterAt(Front(run)).isClipping <==> EdgeAt(run) == Some(Started)
    ensures !MeterAt(run).isClipping && MeterAt(Front(run)).isClipping <==> EdgeAt(run) == Some(Ended)
    ensures !Last(run).reliable ==> !MeterAt(run).isClipping
  {
    hide Ratio, Pruned, Entry, Exit, Trigger, Gap;
  }

  // A sample that can be relied on comes from a tick.
  lemma ReliableSample(d: Detector, call: Call, sine: real -> real, key: SourceKey)
    requires key in d.sources && Seen(d, call, sine, key).Some? && Seen(d, call, sine, key).value.reliable
    ensures call.Ticking? && key in call.order
    ensures Seen(d, call, sine, key).value
      == SampleOf(d.sources[key], WalkOf(call.walks, key), call.at, d.settings, sine)
  {
    hide SampleOf, NewLoss;
  }

  /**
   In any run of calls, settings changes and evictions included: a source starts to clip only at a tick
   whose estimate is reliable, when by then the command level held between ticks since the source
   was created or last cleared had been at the entry threshold for the continuous limit on
   end, or for the trigger share of the window.
   */
  lemma ClippingIsJustified(settings: Settings, calls: seq<Call>, sine: real -> real, key: SourceKey)
    requires WalksTables(settings, calls, sine) && calls != []
    requires !Clipping(After(settings, Earlier(calls), sine), key) && Clipping(After(settings, calls, sine), key)
    ensures var (b, call) := (After(settings, Earlier(calls), sine), Latest(calls));
      && call.Ticking? && key in call.order && key in b.sources
      && var run := SamplesOf(settings, calls, sine, key);
      && run != [] && AllNormal(run)
      && Last(run) == SampleOf(b.sources[key], WalkOf(call.walks, key), call.at, b.settings, sine) && Last(run).reliable
      && (Trailing(LogAt(run).atLimit) >= Last(run).settings.continuousLimit as real
           || Reached(LogAt(run).atLimit, Last(run)))
  {
    hide *;
    var run := SamplesOf(settings, calls, sine, key);
    ChangeIsSeen(settings, calls, sine, key);
    EdgeOfChange(run);
    ReliableSample(After(settings, Earlier(calls), sine), Latest(calls), sine, key);
    EdgesAreJustified(run);
  }

  /**
   In any run of calls a source stops clipping only on a sample that cannot be relied on (a loss, its last
   disconnect, an unreliable tick), or once the held level was below the exit threshold for the exit hold.
   */
  lemma EndingIsJustified(settings: Settings, calls: seq<Call>, sine: real -> real, key: SourceKey)
    requires WalksTables(settings, calls, sine) && calls != []
    requires Clipping(After(settings, Earlier(calls), sine), key) && !Clipping(After(settings, calls, sine), key)
    ensures var run := SamplesOf(settings, calls, sine, key);
      && key in After(settings, Earlier(calls), sine).sources && run != [] && AllNormal(run)
      && Seen(After(settings, Earlier(calls), sine), Latest(calls), sine, key) == Some(Last(run))
      && (Last(run).reliable ==>
            100.0 * Last(run).level < Last(run).settings.exitPercent.value
              && Trailing(LogAt(run).belowExit) >= Last(run).settings.exitHold as real)
  {
    hide *;
    var run := SamplesOf(settings, calls, sine, key);
    ChangeIsSeen(settings, calls, sine, key);
    EdgeOfChange(run);
    if Last(run).reliable {
      EdgesAreJustified(run);
    }
  }

  lemma TickIsSeen(settings: Settings, calls: seq<Call>, sine: real -> real, key: SourceKey)
    requires WalksTables(settings, calls, sine) && calls != [] && Latest(calls).Ticking?
    requires key in After(settings, Earlier(calls), sine).sources
    ensures var (b, d) := (After(settings, Earlier(calls), sine), After(settings, calls, sine));
      var run := SamplesOf(settings, calls, sine, key);
      && run != [] && AllNormal(run) && Seen(b, Latest(calls), sine, key) == Some(Last(run))
      && key in d.sources && d.sources[key].meter == MeterAt(run) && b.sources[key].meter == MeterAt(Front(run))
  {
    hide *;
    var b := After(settings, Earlier(calls), sine);
    LatestStep(settings, calls, sine);
    EarlierWalks(settings, calls, sine);
    MeterOfRun(settings, Earlier(calls), sine, key);
    MeterOfRun(settings, calls, sine, key);
    SamplesSnoc(settings, calls, sine, key);
    SeenNormal(b, Latest(calls), sine, key);
    SeenAtTick(b, Latest(calls), sine, key);
    MeterSnoc(SamplesOf(settings, Earlier(calls), sine, key), Seen(b, Latest(calls), sine, key));
    TickKeepsSources(b, Latest(calls), sine, key);
  }

  /**
   In any run of calls, a reliable tick at which the log holds the trigger share, none of it pruned,
   starts an episode.
   */
  lemma ShareAlwaysStarts(settings: Settings, calls: seq<Call>, sine: real -> real, key: SourceKey)
    requires WalksTables(settings, calls, sine) && calls != [] && Latest(calls).Ticking?
    requires var b := After(settings, Earlier(calls), sine); key in b.sources && !Clipping(b, key)
    ensures var run := SamplesOf(settings, calls, sine, key);
      && run != [] && AllNormal(run)
      && var (log, x) := (LogAt(run).atLimit, Last(run));
      && (x.reliable && Reached(log, x) && Intact(log, Horizon(Front(run)), x) ==>
           Clipping(After(settings, calls, sine), key))
  {
    hide *;
    var run := SamplesOf(settings, calls, sine, key);
    TickIsSeen(settings, calls, sine, key);
    ClippingMeans(After(settings, Earlier(calls), sine), key);
    ClippingMeans(After(settings, calls, sine), key);
    EdgeOfChange(run);
    if Last(run).reliable {
      EdgesAreJustified(run);
    }
  }

  /**
   In any run of calls, a reliable tick that ends no episode leaves a source with a ratio that never exceeds
   the share of its log, and is that share if and only if no earlier tick's cutoff reached into it.
   */
  lemma PublishedRatioIsExact(settings: Settings, calls: seq<Call>, sine: real -> real, key: SourceKey)
    requires WalksTables(settings, calls, sine) && calls != [] && Latest(calls).Ticking?
    requires key in After(settings, Earlier(calls), sine).sources
    ensures var (d, run) := (After(settings, calls, sine), SamplesOf(settings, calls, sine, key));
      && key in d.sources && run != [] && AllNormal(run)
      && (Last(run).reliable && EdgeAt(run) != Some(Ended) ==>
            var (ratio, log, x) := (d.sources[key].meter.clipRatio, LogAt(run).atLimit, Last(run));
            && Span(ratio, x.settings.window) <= AtLimit(log, x)
            && (Span(ratio, x.settings.window) == AtLimit(log, x) <==> Intact(log, Horizon(Front(run)), x)))
  {
    hide *;
    var run := SamplesOf(settings, calls, sine, key);
    TickIsSeen(settings, calls, sine, key);
    if Last(run).reliable && EdgeAt(run) != Some(Ended) {
      ExactWhenNothingForgotten(run);
    }
  }

  /**
   In any run of calls whose samples of a source carry different times from one to the next, a reliable tick leaves
   the source clipping exactly when its log says so: if it was, unless the level has been below the exit
   threshold for the exit hold; if not, on the continuous limit or the trigger share.
   */
  lemma ClipsExactly(settings: Settings, calls: seq<Call>, sine: real -> real, key: SourceKey)
    requires WalksTables(settings, calls, sine) && calls != [] && Latest(calls).Ticking?
    requires key in After(settings, Earlier(calls), sine).sources && Apart(SamplesOf(settings, calls, sine, key))
    ensures var run := SamplesOf(settings, calls, sine, key);
      && run != [] && AllNormal(run)
      && (Last(run).reliable ==>
            (Clipping(After(settings, calls, sine), key) <==>
             if Clipping(After(settings, Earlier(calls), sine), key) then !Ends(LogAt(run), Last(run))
             else Starts(LogAt(run), Horizon(Front(run)), Last(run))))
  {
    hide *;
    var run := SamplesOf(settings, calls, sine, key);
    TickIsSeen(settings, calls, sine, key);
    ClippingMeans(After(settings, Earlier(calls), sine), key);
    ClippingMeans(After(settings, calls, sine), key);
    EdgeOfChange(run);
    if Last(run).reliable {
      EdgesAreExact(run);
    }
  }

  lemma SeenAtTick(d: Detector, call: Call, sine: real -> real, key: SourceKey)
    requires key in d.sources && call.Ticking? && Enumerates(call.order, d.sources.Keys)
    ensures Seen(d, call, sine, key).Some?
  {
    hide SampleOf;
    assert key in multiset(d.sources.Keys);
    assert key in multiset(call.order);
  }

  lemma TickKeepsSources(d: Detector, call: Call, sine: real -> real, key: SourceKey)
    requires Normal(d.settings) && call.Ticking? && key in d.sources
    ensures key in Do(d, call, sine).sources
  {
    hide Normal, TickAll;
    TickDrops(d, call.order, call.walks, call.at, sine);
  }
}
