/** When the detector says that a source has come or gone, over whole runs of calls. */
module ConnectionEdges {
  import opened Bytes
  import opened Effects
  import opened Settings
  import opened Protocol
  import opened Sources
  import opened SourceSafety
  import opened Engine
  import opened EngineSafety
  import opened EngineRuns

  // ---------- What is announced ----------

  /** The comings and goings ever announced for one source key. */
  function Announced(generated: seq<Transition>, key: SourceKey): seq<Edge> {
    if generated == [] then []
    else
      var t := generated[|generated| - 1];
      Announced(generated[..|generated| - 1], key)
      + if t.key != key then [] else match t.kind
        case SourceConnected => [Started]
        case SourceDisconnected => [Ended]
        case _ => []
  }

  /** A connection of the source is open. */
  predicate Online(d: Detector, key: SourceKey) { key in d.sources && d.sources[key].connections != {} }

  /** A source that is not stored finds a place: a free one, or that of a source without connections. */
  predicate FindsPlace(d: Detector, key: SourceKey, order: seq<SourceKey>) {
    key in d.sources || |d.sources| < 64 || exists k :: k in order && k in d.sources && d.sources[k].connections == {}
  }

  /** What a call has to announce of a source: the first connection that opens, and each call that leaves none open. */
  function Announces(d: Detector, call: Call, key: SourceKey): Option<Edge> {
    match call
    case Connecting(identity, _, _, order) =>
      if identity.key == key && !Online(d, key) && FindsPlace(d, key, order) then Some(Started) else None
    case Disconnecting(k, connection, _) =>
      if k == key && key in d.sources && d.sources[key].connections <= {connection} then Some(Ended) else None
    case _ => None
  }

  function Step(before: bool, edge: Option<Edge>): bool { if edge.Some? then edge.value.Started? else before }

  function Tail(edge: Option<Edge>): seq<Edge> { if edge.Some? then [edge.value] else [] }

  lemma AnnouncedSnoc(generated: seq<Transition>, t: Transition, key: SourceKey)
    ensures Announced(generated + [t], key) == Announced(generated, key)
      + if t.key == key && t.kind == SourceConnected then [Started]
        else if t.key == key && t.kind == SourceDisconnected then [Ended] else []
  {
    assert (generated + [t])[..|generated|] == generated;
    assert Announced(generated, key) + [] == Announced(generated, key);
  }

  /** One call announces what it has to, and the source is online as announced. */
  predicate Told(d: Detector, n: Detector, call: Call, key: SourceKey) {
    && Announced(n.generated, key) == Announced(d.generated, key) + Tail(Announces(d, call, key))
    && (Online(n, key) <==> Step(Online(d, key), Announces(d, call, key)))
    && (key in n.sources ==> key in d.sources || Announces(d, call, key) == Some(Started))
  }

  // What a call of Connect makes of the table and of what has been raised.
  lemma ConnectIs(d: Detector, identity: Identity, connection: Guid, now: real, order: seq<SourceKey>)
    ensures var (n, k) := (Connect(d, identity, connection, now, order), identity.key);
      var r := if k in d.sources then d else MakeRoom(d, order);
      if k !in d.sources && |r.sources| >= 64 then n.sources == r.sources && n.generated == d.generated
      else
        && k in n.sources && n.sources[k].connections != {} && n.sources == r.sources[k := n.sources[k]]
        && n.generated == d.generated + if Online(d, k) then [] else [Transition(SourceConnected, k, now)]
  {
    hide Enqueue, Oldest, NewSource;
    var k := identity.key;
    var r := if k in d.sources then d else MakeRoom(d, order);
    var before := if k in d.sources then d.sources[k].(identity := identity) else NewSource(identity);
    var s := before.(connections := before.connections + {connection}, lastActivity := now);
    assert connection in s.connections;
    FreshIsOffline(identity);
    EnqueueIs(PutSource(r, k, s), Transition(SourceConnected, k, now));
  }

  lemma ConnectTells(d: Detector, identity: Identity, connection: Guid, now: real, order: seq<SourceKey>,
      key: SourceKey)
    requires |d.sources| <= MAX_SOURCES
    ensures Told(d, Connect(d, identity, connection, now, order), Connecting(identity, connection, now, order), key)
  {
    hide Announced, Connect, MakeRoom;
    var k := identity.key;
    ConnectIs(d, identity, connection, now, order);
    AnnouncedSnoc(d.generated, Transition(SourceConnected, k, now), key);
    Placed(d, k, order);
    StillAbsent(d, order, k);
    assert Announced(d.generated, key) + [] == Announced(d.generated, key) && d.generated + [] == d.generated;
  }

  lemma FreshIsOffline(identity: Identity)
    ensures NewSource(identity).connections == {}
  {
  }

  lemma EnqueueIs(d: Detector, t: Transition)
    ensures Enqueue(d, t).generated == d.generated + [t] && Enqueue(d, t).sources == d.sources
  {
  }

  // Making room costs an offline source at most, and makes room exactly when there is a place.
  lemma Placed(d: Detector, key: SourceKey, order: seq<SourceKey>)
    requires |d.sources| <= MAX_SOURCES
    ensures var r := MakeRoom(d, order);
      && r.generated == d.generated
      && (key !in d.sources ==> (|r.sources| < MAX_SOURCES <==> FindsPlace(d, key, order)))
      && (forall k :: Online(r, k) <==> Online(d, k)) && r.sources.Keys <= d.sources.Keys
  {
    hide Oldest;
    var victim := Oldest(d.sources, order);
    OldestInOrder(d.sources, order);
    if |d.sources| >= MAX_SOURCES && victim.Some? {
      var r := MakeRoom(d, order);
      assert r.sources.Keys == d.sources.Keys - {victim.value};
      assert |r.sources.Keys| == |d.sources.Keys| - 1;
    }
  }

  lemma OldestInOrder(sources: map<SourceKey, Source>, order: seq<SourceKey>)
    ensures Oldest(sources, order).Some? ==> Oldest(sources, order).value in order
  {
  }

  lemma DisconnectTells(d: Detector, k: SourceKey, connection: Guid, now: real, key: SourceKey)
    ensures Told(d, Disconnect(d, k, connection, now), Disconnecting(k, connection, now), key)
  {
    hide Announced, ResetAfterDisconnect, Enqueue;
    var ended, gone := Transition(ClippingEnded, k, now), Transition(SourceDisconnected, k, now);
    assert Announced(d.generated, key) + [] == Announced(d.generated, key);
    if k in d.sources {
      var s := d.sources[k].(connections := d.sources[k].connections - {connection});
      assert s.connections == {} <==> d.sources[k].connections <= {connection};
      ResetIsSilent(s, now);
      var r := ResetAfterDisconnect(s, now);
      EnqueueIs(d, ended);
      AnnouncedSnoc(d.generated, ended, key);
      AnnouncedSnoc(d.generated, gone, key);
      AnnouncedSnoc(d.generated + [ended], gone, key);
      EnqueueIs(PutSource(d, k, r), gone);
      EnqueueIs(PutSource(Enqueue(d, ended), k, r), gone);
    }
  }

  lemma FrameTells(d: Detector, k: SourceKey, f: Frame, now: real, key: SourceKey)
    requires Stored(d, k)
    ensures Told(d, ProcessFrame(d, k, f, now), Processing(k, f, now), key)
  {
    hide Announced, Apply, SourceInv, Enqueue;
    var ended := Transition(ClippingEnded, k, now);
    AnnouncedSnoc(d.generated, ended, key);
    assert Announced(d.generated, key) + [] == Announced(d.generated, key);
    if k in d.sources {
      var s := d.sources[k].(lastActivity := now);
      RenamedOk(d.sources[k], s.identity, s.connections, now);
      FramesOnlyEnd(s, f, now);
      EnqueueIs(PutSource(d, k, Apply(s, f, now)), ended);
    }
  }

  lemma TickOneTells(d: Detector, k: SourceKey, walk: seq<EffectKey>, now: real, sine: real -> real, key: SourceKey)
    requires Normal(d.settings)
    ensures var n := TickOne(d, k, walk, now, sine);
      Announced(n.generated, key) == Announced(d.generated, key) && n.sources.Keys == d.sources.Keys
        && (Online(n, key) <==> Online(d, key))
  {
    hide Announced, TickSource, Normal, Enqueue;
    if k in d.sources {
      var (s, edge) := TickSource(d.sources[k], walk, now, d.settings, sine);
      TickSourceEdge(d.sources[k], walk, now, d.settings, sine);
      assert Announced(d.generated, key) + [] == Announced(d.generated, key);
      if edge.Some? {
        var t := Transition(KindOf(edge.value), d.sources[k].identity.key, now);
        AnnouncedSnoc(d.generated, t, key);
        EnqueueIs(PutSource(d, k, s), t);
      }
    }
  }

  lemma {:induction false} TickTells(d: Detector, order: seq<SourceKey>, walks: map<SourceKey, seq<EffectKey>>,
      now: real, sine: real -> real, key: SourceKey)
    requires Normal(d.settings)
    ensures var n := TickAll(d, order, walks, now, sine);
      Announced(n.generated, key) == Announced(d.generated, key) && n.sources.Keys == d.sources.Keys
        && (Online(n, key) <==> Online(d, key))
  {
    hide TickOne, Normal, Announced, Online;
    if order != [] {
      var front, k := order[..|order| - 1], order[|order| - 1];
      TickTells(d, front, walks, now, sine, key);
      TickOneTells(TickAll(d, front, walks, now, sine), k, if k in walks then walks[k] else [], now, sine, key);
    }
  }

  lemma QuietTells(d: Detector, n: Detector, call: Call, key: SourceKey)
    requires Announces(d, call, key).None? && Announced(n.generated, key) == Announced(d.generated, key)
    requires n.sources.Keys == d.sources.Keys && (Online(n, key) <==> Online(d, key))
    ensures Told(d, n, call, key)
  {
    assert Announced(d.generated, key) + [] == Announced(d.generated, key);
    assert key in n.sources.Keys <==> key in n.sources;
    assert key in d.sources.Keys <==> key in d.sources;
  }

  /** Every call announces exactly what it has to. */
  lemma CallTells(d: Detector, call: Call, sine: real -> real, key: SourceKey)
    requires DetectorInv(d)
    ensures Normal(d.settings) && Told(d, Do(d, call, sine), call, key)
  {
    hide Told, Announced, TickAll, Connect, Disconnect, ProcessFrame, Normal, KeyOk;
    InvNormal(d);
    match call
    case Connecting(identity, connection, now, order) => ConnectTells(d, identity, connection, now, order, key);
    case Disconnecting(k, connection, now) => DisconnectTells(d, k, connection, now, key);
    case Processing(k, f, now) =>
      assert Stored(d, k) by { IsStored(d, k); }
      FrameTells(d, k, f, now, key);
    case Ticking(now, order, walks) =>
      TickTells(d, order, walks, now, sine, key);
      QuietTells(d, Do(d, call, sine), call, key);
    case _ => QuietTells(d, Do(d, call, sine), call, key);
  }

  lemma IsStored(d: Detector, key: SourceKey)
    requires DetectorInv(d)
    ensures Stored(d, key)
  {
    hide Stored, EdgesOk, Bounded;
    assert KeyOk(d, key);
  }

  // ---------- Over runs ----------

  /** A call reports a connection gone for a source that is stored and has none. */
  predicate ReportsAgain(d: Detector, call: Call, key: SourceKey) {
    call.Disconnecting? && call.key == key && key in d.sources && d.sources[key].connections == {}
  }

  ghost predicate NeverAgain(d: Detector, calls: seq<Call>, sine: real -> real, key: SourceKey)
    requires DetectorInv(d)
    decreases calls
  {
    calls != [] ==>
      && !ReportsAgain(d, calls[0], key)
      && (CallKeeps(d, calls[0], sine); NeverAgain(Do(d, calls[0], sine), calls[1..], sine, key))
  }

  /** The announcements so far alternate and end as the source is; a stored source has been announced. */
  predicate Consistent(d: Detector, key: SourceKey) {
    var edges := Announced(d.generated, key);
    && Alternates(true, edges) && (Online(d, key) <==> |edges| % 2 == 1)
    && (key in d.sources ==> edges != [])
  }

  lemma StepConsistent(d: Detector, n: Detector, call: Call, key: SourceKey)
    requires Consistent(d, key) && Told(d, n, call, key)
    ensures !ReportsAgain(d, call, key) ==> Consistent(n, key)
    ensures ReportsAgain(d, call, key) ==> !Alternates(true, Announced(n.generated, key))
  {
    hide Announced;
    var edges, edge := Announced(d.generated, key), Announces(d, call, key);
    if edge.Some? {
      var after := edges + [edge.value];
      if ReportsAgain(d, call, key) {
        assert edges[|edges| - 1] == Ended && after[|edges|] == Ended;
      } else {
        LongerEdges(edges, edge.value);
      }
    } else {
      assert edges + [] == edges;
    }
  }

  // Announcements that do not alternate never will again.
  lemma {:induction false} StaysBroken(d: Detector, calls: seq<Call>, sine: real -> real, key: SourceKey)
    requires DetectorInv(d) && !Alternates(true, Announced(d.generated, key))
    ensures !Alternates(true, Announced(Run(d, calls, sine).generated, key))
    decreases calls
  {
    hide DetectorInv, Do, Announced, Announces, Normal;
    if calls != [] {
      CallKeeps(d, calls[0], sine);
      CallTells(d, calls[0], sine, key);
      var n := Do(d, calls[0], sine);
      PrefixBroken(Announced(d.generated, key), Tail(Announces(d, calls[0], key)));
      StaysBroken(n, calls[1..], sine, key);
    }
  }

  lemma PrefixBroken(edges: seq<Edge>, more: seq<Edge>)
    requires !Alternates(true, edges)
    ensures !Alternates(true, edges + more)
  {
    var i :| 0 <= i < |edges| && edges[i] != (if i % 2 == 0 then Started else Ended);
    assert (edges + more)[i] == edges[i];
  }

  lemma {:induction false} RunAlternates(d: Detector, calls: seq<Call>, sine: real -> real, key: SourceKey)
    requires DetectorInv(d) && Consistent(d, key)
    ensures var n := Run(d, calls, sine);
      && (Alternates(true, Announced(n.generated, key)) <==> NeverAgain(d, calls, sine, key))
      && (NeverAgain(d, calls, sine, key) ==> Consistent(n, key))
    decreases calls
  {
    hide DetectorInv, Do, Announced, Announces, Normal, Told, Alternates, ReportsAgain;
    if calls != [] {
      CallKeeps(d, calls[0], sine);
      CallTells(d, calls[0], sine, key);
      var n := Do(d, calls[0], sine);
      StepConsistent(d, n, calls[0], key);
      if ReportsAgain(d, calls[0], key) {
        StaysBroken(n, calls[1..], sine, key);
      } else {
        RunAlternates(n, calls[1..], sine, key);
      }
    }
  }

  /**
   For each source key, over any calls: the announcements that the source has come and has gone alternate,
   beginning with a coming, if and only if no call reported a connection gone while the source was stored without
   one; and then the source is online exactly when the last announcement was a coming.
   */
  lemma ConnectionsAlternate(settings: Settings, calls: seq<Call>, sine: real -> real, key: SourceKey)
    ensures DetectorInv(NewDetector(settings))
    ensures var n := Run(NewDetector(settings), calls, sine);
      && (Alternates(true, Announced(n.generated, key)) <==> NeverAgain(NewDetector(settings), calls, sine, key))
      && (Alternates(true, Announced(n.generated, key)) ==>
            (Online(n, key) <==> |Announced(n.generated, key)| % 2 == 1))
  {
    hide DetectorInv, Normal;
    NewDetectorOk(settings);
    assert Consistent(NewDetector(settings), key);
    hide *;
    RunAlternates(NewDetector(settings), calls, sine, key);
    if NeverAgain(NewDetector(settings), calls, sine, key) {
      ConsistentIs(Run(NewDetector(settings), calls, sine), key);
    }
  }

  lemma ConsistentIs(d: Detector, key: SourceKey)
    requires Consistent(d, key)
    ensures Online(d, key) <==> |Announced(d.generated, key)| % 2 == 1
  {
    hide Announced;
  }

  // Two reports of one going, the second for a connection the source does not have.
  lemma SecondGoing(d: Detector, key: SourceKey, first: Guid, second: Guid, now: real, sine: real -> real)
    requires DetectorInv(d) && Consistent(d, key) && Online(d, key) && d.sources[key].connections == {first}
    ensures !Alternates(true,
      Announced(Run(d, [Disconnecting(key, first, now), Disconnecting(key, second, now)], sine).generated, key))
  {
    hide DetectorInv, Do, Announced, Normal, Alternates;
    var one, two := Disconnecting(key, first, now), Disconnecting(key, second, now);
    var calls := [one, two];
    CallKeeps(d, one, sine);
    CallTells(d, one, sine, key);
    var n := Do(d, one, sine);
    GoneStaysStored(d, key, first, now, sine);
    assert calls[1..] == [two] && [two][1..] == [];
    CallKeeps(n, two, sine);
    assert !NeverAgain(d, calls, sine, key);
    RunAlternates(d, calls, sine, key);
  }

  lemma FirstComing(settings: Settings, identity: Identity, connection: Guid, now: real, sine: real -> real)
    ensures DetectorInv(NewDetector(settings)) && Normal(NewDetector(settings).settings)
    ensures var d := Do(NewDetector(settings), Connecting(identity, connection, now, []), sine);
      && DetectorInv(d) && Consistent(d, identity.key) && Online(d, identity.key)
      && d.sources[identity.key].connections == {connection}
  {
    hide DetectorInv, Normal, Do, Announced, Announces, Told;
    NewDetectorOk(settings);
    var empty, call := NewDetector(settings), Connecting(identity, connection, now, []);
    InvNormal(empty);
    EmptyComes(empty, identity, connection, now, sine);
    CallKeeps(empty, call, sine);
    CallTells(empty, call, sine, identity.key);
    StepConsistent(empty, Do(empty, call, sine), call, identity.key);
  }

  lemma EmptyComes(empty: Detector, identity: Identity, connection: Guid, now: real, sine: real -> real)
    requires Normal(empty.settings) && empty.sources == map[] && empty.generated == []
    ensures Consistent(empty, identity.key)
    ensures var d := Do(empty, Connecting(identity, connection, now, []), sine);
      Online(d, identity.key) && d.sources[identity.key].connections == {connection}
  {
    hide Normal;
    assert {} + {connection} == {connection};
    assert MakeRoom(empty, []) == empty;
  }

  /**
   They need not alternate: a connection that found no place when it opened is still reported gone when it closes,
   and if by then another connection of the same source has come and gone, the going is announced again.
   */
  lemma GoneIsToldTwice(settings: Settings, identity: Identity, first: Guid, second: Guid, now: real,
      sine: real -> real)
    ensures var key := identity.key;
      var calls := [Connecting(identity, first, now, []), Disconnecting(key, first, now),
                    Disconnecting(key, second, now)];
      DetectorInv(NewDetector(settings))
      && !Alternates(true, Announced(Run(NewDetector(settings), calls, sine).generated, key))
  {
    hide *;
    var key := identity.key;
    var one, two := Disconnecting(key, first, now), Disconnecting(key, second, now);
    FirstComing(settings, identity, first, now, sine);
    var come := Connecting(identity, first, now, []);
    SecondGoing(Do(NewDetector(settings), come, sine), key, first, second, now, sine);
    assert [come, one, two][1..] == [one, two];
    RunFirst(NewDetector(settings), [come, one, two], sine);
  }

  lemma RunFirst(d: Detector, calls: seq<Call>, sine: real -> real)
    requires DetectorInv(d) && calls != [] && Normal(d.settings) && DetectorInv(Do(d, calls[0], sine))
    ensures Run(d, calls, sine) == Run(Do(d, calls[0], sine), calls[1..], sine)
  {
    hide DetectorInv, Do, Normal;
  }

  lemma GoneStaysStored(d: Detector, key: SourceKey, connection: Guid, now: real, sine: real -> real)
    requires Normal(d.settings) && key in d.sources && d.sources[key].connections == {connection}
    ensures var n := Do(d, Disconnecting(key, connection, now), sine);
      key in n.sources && n.sources[key].connections == {}
  {
    var s := d.sources[key].(connections := d.sources[key].connections - {connection});
    ResetIsSilent(s, now);
  }
}
