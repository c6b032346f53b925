/** The detector: all sources, the queue of transitions, and the published snapshot. */
module Engine {
  import opened Bytes
  import opened Protocol
  import opened Effects
  import opened Settings
  import opened Hysteresis
  import opened Mixer
  import opened Sources

  const MAX_TRANSITIONS := 256
  const MAX_SOURCES := 64

  datatype TransitionKind = ClippingStarted | ClippingEnded | SourceConnected | SourceDisconnected

  datatype Transition = Transition(kind: TransitionKind, key: SourceKey, now: real)

  /** generated is history: every transition ever raised, also those the full queue shed. */
  datatype Detector = Detector(
    settings: Settings, sources: map<SourceKey, Source>, queue: seq<Transition>, generated: seq<Transition>,
    protocolErrors: u64, sourceDrops: u64)

  function Enqueue(d: Detector, t: Transition): Detector {
    d.(generated := d.generated + [t], queue := if |d.queue| < MAX_TRANSITIONS then d.queue + [t] else d.queue)
  }

  function PutSource(d: Detector, key: SourceKey, s: Source): Detector { d.(sources := d.sources[key := s]) }

  function NewDetector(settings: Settings): Detector { Detector(Normalized(settings), map[], [], [], 0, 0) }

  /** Of the disconnected sources, the first one least recently active; order is the table's iteration order. */
  function Oldest(sources: map<SourceKey, Source>, order: seq<SourceKey>): (r: Option<SourceKey>)
    ensures r.Some? ==> r.value in sources && !Connected(sources[r.value])
    ensures r.None? ==> forall k | k in order && k in sources :: Connected(sources[k])
  {
    if order == [] then None
    else
      var k, rest := order[0], Oldest(sources, order[1..]);
      if k !in sources || Connected(sources[k]) then rest
      else if rest.None? || sources[k].lastActivity <= sources[rest.value].lastActivity then Some(k)
      else rest
  }

  function MakeRoom(d: Detector, order: seq<SourceKey>): Detector {
    var victim := Oldest(d.sources, order);
    if |d.sources| < MAX_SOURCES || victim.None? then d else d.(sources := d.sources - {victim.value})
  }

  lemma StillAbsent(d: Detector, order: seq<SourceKey>, key: SourceKey)
    ensures key !in d.sources ==> key !in MakeRoom(d, order).sources
  {
  }

  function Connect(d: Detector, identity: Identity, connection: Guid, now: real, order: seq<SourceKey>): Detector {
    var key := identity.key;
    var r := if key in d.sources then d else MakeRoom(d, order);
    if key !in d.sources && |r.sources| >= MAX_SOURCES then r.(sourceDrops := Increment(r.sourceDrops))
    else
      var before := if key in d.sources then d.sources[key].(identity := identity) else NewSource(identity);
      var n := PutSource(r, key, before.(connections := before.connections + {connection}, lastActivity := now));
      if Connected(before) then n else Enqueue(n, Transition(SourceConnected, key, now))
  }

  function Disconnect(d: Detector, key: SourceKey, connection: Guid, now: real): Detector {
    if key !in d.sources then d
    else
      var s := d.sources[key].(connections := d.sources[key].connections - {connection});
      if Connected(s) then PutSource(d, key, s)
      else
        var ended := if s.meter.isClipping then Enqueue(d, Transition(ClippingEnded, key, now)) else d;
        Enqueue(PutSource(ended, key, ResetAfterDisconnect(s, now)), Transition(SourceDisconnected, key, now))
  }

  function ProcessFrame(d: Detector, key: SourceKey, f: Frame, now: real): Detector {
    if key !in d.sources || !Connected(d.sources[key]) then d
    else if f.processId != key.processId then d.(protocolErrors := Increment(d.protocolErrors))
    else
      var s := d.sources[key];
      var n := Apply(s.(lastActivity := now), f, now);
      var p := PutSource(d, key, n);
      if s.meter.isClipping && !n.meter.isClipping then Enqueue(p, Transition(ClippingEnded, key, now)) else p
  }

  function ReportProtocolError(d: Detector): Detector { d.(protocolErrors := Increment(d.protocolErrors)) }

  function KindOf(edge: Edge): TransitionKind { if edge.Started? then ClippingStarted else ClippingEnded }

  // One source's turn in a tick; order is the iteration order of its effects.
  function TickOne(d: Detector, key: SourceKey, order: seq<EffectKey>, now: real, sine: real -> real): Detector
    requires Normal(d.settings)
  {
    if key !in d.sources then d
    else
      var (s, edge) := TickSource(d.sources[key], order, now, d.settings, sine);
      var n := PutSource(d, key, s);
      if edge.Some? then Enqueue(n, Transition(KindOf(edge.value), d.sources[key].identity.key, now)) else n
  }

  /** The sources in the table's order, each with the order of its own effects. */
  function TickAll(d: Detector, order: seq<SourceKey>, walks: map<SourceKey, seq<EffectKey>>, now: real,
      sine: real -> real): (r: Detector)
    requires Normal(d.settings)
    ensures r.settings == d.settings
  {
    if order == [] then d
    else
      var key := order[|order| - 1];
      TickOne(TickAll(d, order[..|order| - 1], walks, now, sine), key,
              if key in walks then walks[key] else [], now, sine)
  }

  function ResetPeaks(d: Detector): Detector {
    d.(sources := map k | k in d.sources :: ResetPeak(d.sources[k]))
  }

  function UpdateSettings(d: Detector, settings: Settings): Detector { d.(settings := Normalized(settings)) }

  function Dequeue(d: Detector): (Detector, Option<Transition>) {
    if d.queue == [] then (d, None) else (d.(queue := d.queue[1..]), Some(d.queue[0]))
  }

  // ---------- The snapshot ----------

  predicate Eligible(d: Detector, key: SourceKey) {
    && key in d.sources && Connected(d.sources[key])
    && (d.settings.autoSelect || Chosen(d.settings, key))
  }

  predicate Chosen(s: Settings, key: SourceKey) {
    && (s.manualProcess == 0 || key.processId == s.manualProcess)
    && (Text(s.manualSession) == [] || SameText(key.sessionId, Text(s.manualSession)))
  }

  // Session ids are ASCII on the wire; the filter is compared code unit by code unit.
  predicate SameText(id: seq<byte>, filter: Utf16) {
    |id| == |filter| && forall i | 0 <= i < |id| :: id[i] == filter[i]
  }

  /** The first of the most recently active eligible sources. */
  function Select(d: Detector, order: seq<SourceKey>): (r: Option<SourceKey>)
    ensures r.Some? ==> Eligible(d, r.value)
    ensures r.Some? ==> forall k | k in order && Eligible(d, k) ::
      d.sources[k].lastActivity <= d.sources[r.value].lastActivity
    ensures r.None? ==> forall k | k in order :: !Eligible(d, k)
  {
    if order == [] then None
    else
      var k, rest := order[0], Select(d, order[1..]);
      if !Eligible(d, k) then rest
      else if rest.None? || d.sources[k].lastActivity >= d.sources[rest.value].lastActivity then Some(k)
      else rest
  }

  datatype Snapshot = Snapshot(
    source: Option<SourceKey>, sourceCount: nat, anyClipping: bool, dataReliable: bool, atLimit: bool, isClipping: bool,
    clipRatio: real, levels: Levels, droppedFrames: u64, stateDrops: u64, frameGap: bool, reconnect: bool,
    capacity: bool)

  function SaturatingAdd(a: u64, b: u64): u64 { if a + b > 0xFFFF_FFFF_FFFF_FFFF then 0xFFFF_FFFF_FFFF_FFFF else a + b }

  // A counter summed over the connected sources, in order.
  function Total(sources: map<SourceKey, Source>, order: seq<SourceKey>, counter: Source -> u64): u64 {
    if order == [] then 0
    else
      var k := order[|order| - 1];
      var before := Total(sources, order[..|order| - 1], counter);
      if k in sources && Connected(sources[k]) then SaturatingAdd(before, counter(sources[k])) else before
  }

  function CountConnected(sources: map<SourceKey, Source>, order: seq<SourceKey>): nat {
    if order == [] then 0
    else
      var k := order[|order| - 1];
      CountConnected(sources, order[..|order| - 1]) + if k in sources && Connected(sources[k]) then 1 else 0
  }

  predicate AnyClipping(d: Detector) {
    d.sourceDrops == 0 && exists k | k in d.sources ::
      Connected(d.sources[k]) && EstimateReliable(d.sources[k]) && d.sources[k].meter.isClipping
  }

  function FrameLosses(s: Source): u64 { s.losses.frames }
  function DeviceLosses(s: Source): u64 { s.losses.devices }
  function EffectLosses(s: Source): u64 { s.losses.effects }

  const NO_LEVELS := Levels(NOTHING, 0.0, 0.0, 0.0, 0.0, 0.0, 0.0, 0, 0, 0)

  /** Nothing is selected: only totals over the connected sources. */
  function TotalSnapshot(d: Detector, order: seq<SourceKey>): Snapshot {
    Snapshot(None, CountConnected(d.sources, order), AnyClipping(d), false, false, false, 0.0, NO_LEVELS,
             Total(d.sources, order, FrameLosses),
             SaturatingAdd(d.sourceDrops,
                           SaturatingAdd(Total(d.sources, order, DeviceLosses), Total(d.sources, order, EffectLosses))),
             false, false, d.sourceDrops != 0)
  }

  function SourceSnapshot(d: Detector, order: seq<SourceKey>, key: SourceKey): Snapshot
    requires key in d.sources
  {
    var s := d.sources[key];
    var reliable := d.sourceDrops == 0 && EstimateReliable(s);
    Snapshot(Some(key), CountConnected(d.sources, order), AnyClipping(d), reliable, reliable && s.meter.atLimit,
             reliable && s.meter.isClipping, s.meter.clipRatio, s.levels, s.losses.frames,
             SaturatingAdd(d.sourceDrops, SaturatingAdd(s.losses.devices, s.losses.effects)),
             s.issues.frameGap, s.issues.reconnect, s.issues.capacity || d.sourceDrops != 0)
  }

  function BuildSnapshot(d: Detector, order: seq<SourceKey>): Snapshot {
    var selected := Select(d, order);
    if selected.None? then TotalSnapshot(d, order) else SourceSnapshot(d, order, selected.value)
  }
}
