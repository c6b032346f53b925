/**
 The detector's table and what it publishes, without the functions that compute them: who is picked, who gives way,
 what a snapshot shows, and what comes out of the transition queue.
 */
module DetectorMeaning {
  import opened Bytes
  import opened Settings
  import opened Protocol
  import opened Effects
  import opened Sources
  import opened SourceSafety
  import opened Engine
  import opened EngineSafety
  import opened EngineRuns
  import ClippingEngines

  // ---------- Who is picked and who gives way ----------

  predicate Offline(sources: map<SourceKey, Source>, key: SourceKey) {
    key in sources && sources[key].connections == {}
  }

  /** Of the sources without a connection, the first in the table's order of those longest without activity. */
  predicate GivesWay(sources: map<SourceKey, Source>, order: seq<SourceKey>, i: nat)
    requires i < |order|
  {
    && Offline(sources, order[i])
    && (forall k | 0 <= k < |order| && Offline(sources, order[k]) ::
          if k < i then sources[order[k]].lastActivity > sources[order[i]].lastActivity
          else sources[order[k]].lastActivity >= sources[order[i]].lastActivity)
  }

  /** The settings let this source be shown: any, or the one of the given process and session, where given. */
  predicate Wanted(d: Detector, key: SourceKey) {
    && key in d.sources && d.sources[key].connections != {}
    && (d.settings.autoSelect
        || ((d.settings.manualProcess == 0 || d.settings.manualProcess == key.processId)
            && (d.settings.manualSession.None? || d.settings.manualSession.value == []
                || d.settings.manualSession.value == Units(key.sessionId))))
  }

  function Units(id: seq<byte>): (s: Utf16)
    ensures |s| == |id| && forall i | 0 <= i < |s| :: s[i] == id[i] as int
  {
    seq<u16>(|id|, i requires 0 <= i < |id| => id[i] as int)
  }

  /** Of the wanted sources, the first in the table's order of those last active. */
  predicate IsShown(d: Detector, order: seq<SourceKey>, i: nat)
    requires i < |order|
  {
    && Wanted(d, order[i])
    && (forall k | 0 <= k < |order| && Wanted(d, order[k]) ::
          if k < i then d.sources[order[k]].lastActivity < d.sources[order[i]].lastActivity
          else d.sources[order[k]].lastActivity <= d.sources[order[i]].lastActivity)
  }

  lemma EligibleMeans(d: Detector, key: SourceKey)
    ensures Eligible(d, key) <==> Wanted(d, key)
  {
  }

  lemma {:induction false} OldestMeans(sources: map<SourceKey, Source>, order: seq<SourceKey>)
    ensures var r := Oldest(sources, order);
      if r.None? then forall k | 0 <= k < |order| :: !Offline(sources, order[k])
      else exists i :: 0 <= i < |order| && order[i] == r.value && GivesWay(sources, order, i)
  {
    if order != [] {
      var rest := order[1..];
      OldestMeans(sources, rest);
      var r := Oldest(sources, order);
      forall k | 0 <= k < |rest|
        ensures rest[k] == order[k + 1]
      {
      }
      if Oldest(sources, rest).Some? {
        var i :| 0 <= i < |rest| && rest[i] == Oldest(sources, rest).value && GivesWay(sources, rest, i);
        assert order[i + 1] == rest[i];
        if r == Some(order[0]) && Offline(sources, order[0])
          && sources[order[0]].lastActivity <= sources[rest[i]].lastActivity {
          assert GivesWay(sources, order, 0);
        } else {
          assert GivesWay(sources, order, i + 1);
        }
      } else if Offline(sources, order[0]) {
        assert GivesWay(sources, order, 0);
      }
    }
  }

  lemma {:induction false} SelectMeans(d: Detector, order: seq<SourceKey>)
    ensures var r := Select(d, order);
      if r.None? then forall k | 0 <= k < |order| :: !Wanted(d, order[k])
      else exists i :: 0 <= i < |order| && order[i] == r.value && IsShown(d, order, i)
  {
    hide Eligible, Wanted;
    if order != [] {
      var rest := order[1..];
      SelectMeans(d, rest);
      EligibleMeans(d, order[0]);
      var r := Select(d, order);
      forall k | 0 <= k < |rest|
        ensures rest[k] == order[k + 1]
      {
      }
      if Select(d, rest).Some? {
        var i :| 0 <= i < |rest| && rest[i] == Select(d, rest).value && IsShown(d, rest, i);
        assert order[i + 1] == rest[i];
        EligibleMeans(d, rest[i]);
        if Wanted(d, order[0]) {
          WantedStored(d, order[0]);
          WantedStored(d, rest[i]);
        }
        if Wanted(d, order[0]) && d.sources[order[0]].lastActivity >= d.sources[rest[i]].lastActivity {
          assert IsShown(d, order, 0);
        } else {
          assert IsShown(d, order, i + 1);
        }
      } else if Wanted(d, order[0]) {
        assert IsShown(d, order, 0);
      }
    }
  }

  lemma WantedStored(d: Detector, key: SourceKey)
    requires Wanted(d, key)
    ensures key in d.sources
  {
  }

  // ---------- What a connection does to the table ----------

  /** Some source without a connection is in the order. */
  predicate SomeOffline(d: Detector, order: seq<SourceKey>) {
    exists k | 0 <= k < |order| :: Offline(d.sources, order[k])
  }

  /** The source after one more connection: what was stored of it, or nothing yet. */
  predicate Joined(d: Detector, n: Detector, identity: Identity, connection: Guid, now: real) {
    && identity.key in n.sources
    && var s := n.sources[identity.key];
    && s.identity == identity && s.lastActivity == now
    && if identity.key in d.sources then
         s == d.sources[identity.key].(identity := identity, lastActivity := now, connections := s.connections)
         && s.connections == d.sources[identity.key].connections + {connection}
       else
         && s.connections == {connection} && s.effects == map[] && s.devices == map[]
         && !s.meter.isClipping && s.issues == Issues(false, false, false) && s.losses == Losses(0, 0, 0)
  }

  /**
   A known source gains a connection; a new one takes a free place among 64, or that of the source that gives way;
   with neither it is refused and counted. No other source is touched.
   */
  lemma ConnectMeans(d: Detector, identity: Identity, connection: Guid, now: real, order: seq<SourceKey>)
    requires |d.sources| <= 64 && Enumerates(order, d.sources.Keys)
    ensures var (n, key) := (Connect(d, identity, connection, now, order), identity.key);
      if key in d.sources || |d.sources| < 64 then
        && Joined(d, n, identity, connection, now) && n.sources.Keys == d.sources.Keys + {key}
        && n.sourceDrops == d.sourceDrops && (forall k | k in d.sources && k != key :: n.sources[k] == d.sources[k])
      else if SomeOffline(d, order) then
        && Joined(d, n, identity, connection, now) && n.sourceDrops == d.sourceDrops
        && exists i ::
             && 0 <= i < |order| && GivesWay(d.sources, order, i)
             && n.sources.Keys == d.sources.Keys - {order[i]} + {key}
             && (forall k | k in d.sources && k != order[i] :: n.sources[k] == d.sources[k])
      else
        && n.sources == d.sources && n.generated == d.generated
        && n.sourceDrops == if d.sourceDrops == 18446744073709551615 then d.sourceDrops else d.sourceDrops + 1
  {
    hide Enqueue, GivesWay, Enumerates, Oldest;
    var key := identity.key;
    var victim := Oldest(d.sources, order);
    OldestMeans(d.sources, order);
    EnqueueLeaves(d, Transition(SourceConnected, key, now));
    var r := if key in d.sources then d else MakeRoom(d, order);
    var before := if key in d.sources then d.sources[key].(identity := identity) else NewSource(identity);
    var s := before.(connections := before.connections + {connection}, lastActivity := now);
    EnqueueLeaves(PutSource(r, key, s), Transition(SourceConnected, key, now));
    assert {} + {connection} == {connection};
    if key !in d.sources && |d.sources| >= 64 && victim.Some? {
      assert r.sources.Keys == d.sources.Keys - {victim.value};
      assert |r.sources.Keys| == |d.sources.Keys| - 1;
      var i :| 0 <= i < |order| && order[i] == victim.value && GivesWay(d.sources, order, i);
      assert Offline(d.sources, order[i]) by { OfflineFirst(d.sources, order, i); }
      assert PutSource(r, key, s).sources.Keys == d.sources.Keys - {order[i]} + {key};
    }
  }

  lemma OfflineFirst(sources: map<SourceKey, Source>, order: seq<SourceKey>, i: nat)
    requires i < |order| && GivesWay(sources, order, i)
    ensures Offline(sources, order[i])
  {
  }

  lemma EnqueueLeaves(d: Detector, t: Transition)
    ensures var n := Enqueue(d, t);
      n.sources == d.sources && n.sourceDrops == d.sourceDrops && n.protocolErrors == d.protocolErrors
  {
  }

  /** A frame of an open source's own process is applied to it, one of another process is counted, others are ignored. */
  lemma FrameMeans(d: Detector, key: SourceKey, f: Frame, now: real)
    ensures var n := ProcessFrame(d, key, f, now);
      if key in d.sources && d.sources[key].connections != {} && f.processId == key.processId then
        && n.sources == d.sources[key := Apply(d.sources[key].(lastActivity := now), f, now)]
        && n.protocolErrors == d.protocolErrors && n.sourceDrops == d.sourceDrops
      else if key in d.sources && d.sources[key].connections != {} then
        n == d.(protocolErrors :=
                if d.protocolErrors == 18446744073709551615 then d.protocolErrors else d.protocolErrors + 1)
      else n == d
  {
    hide Apply;
  }

  /** When its last connection goes a source keeps its tables, with every effect stopped, and is silent and marked. */
  predicate Forgot(s: Source, n: Source, now: real) {
    && n.effects.Keys == s.effects.Keys && n.devices == s.devices
    && (forall k | k in s.effects :: n.effects[k] == s.effects[k].(schedule := s.effects[k].schedule.(active := false)))
    && n.issues == s.issues.(reconnect := true) && n.losses == s.losses && n.identity == s.identity
    && n.levels.selected.command == n.levels.selected.effective == 0.0
    && n.levels.unclamped == n.levels.combined == n.levels.combinedEffective == 0.0
    && n.meter.history == [] && n.meter.clipRatio == 0.0 && !n.meter.isClipping && !n.meter.atLimit
    && !n.meter.lastAtLimit && n.meter.lastBelowExit && n.meter.lastTick == now
    && n.meter.continuousLimit == n.meter.continuousBelow == 0.0
  }

  /** A connection that goes is taken off its source; the last one leaves it forgotten. No other source is touched. */
  lemma DisconnectMeans(d: Detector, key: SourceKey, connection: Guid, now: real)
    ensures var n := Disconnect(d, key, connection, now);
      if key !in d.sources then n == d
      else
        && n.sources.Keys == d.sources.Keys && (forall k | k in d.sources && k != key :: n.sources[k] == d.sources[k])
        && n.sources[key].connections == d.sources[key].connections - {connection}
        && n.protocolErrors == d.protocolErrors && n.sourceDrops == d.sourceDrops
        && (if n.sources[key].connections != {} then
              n == d.(sources := d.sources[key := d.sources[key].(connections := n.sources[key].connections)])
            else Forgot(d.sources[key], n.sources[key], now))
  {
    if key in d.sources {
      var s := d.sources[key].(connections := d.sources[key].connections - {connection});
      Forgets(s, now);
      EnqueueLeaves(d, Transition(ClippingEnded, key, now));
      var e := PutSource(if s.meter.isClipping then Enqueue(d, Transition(ClippingEnded, key, now)) else d, key,
                         ResetAfterDisconnect(s, now));
      EnqueueLeaves(e, Transition(SourceDisconnected, key, now));
      hide Enqueue, ResetAfterDisconnect;
    }
  }

  lemma Forgets(s: Source, now: real)
    ensures var n := ResetAfterDisconnect(s, now); Forgot(s, n, now) && n.connections == s.connections
  {
  }

  /** A reset lowers every peak to what is commanded now, and does nothing else. */
  lemma PeaksMean(d: Detector)
    ensures var n := ResetPeaks(d);
      && n == d.(sources := n.sources) && n.sources.Keys == d.sources.Keys
      && forall k | k in d.sources ::
           var (s, l) := (d.sources[k], d.sources[k].levels);
           n.sources[k] == s.(levels := Levels(l.selected, l.unclamped, l.combined, l.combinedEffective,
                                               l.selected.command, l.combined, l.unclamped, l.active, l.unsupported,
                                               l.triggers))
  {
  }

  // ---------- What a snapshot shows ----------

  /** Nothing is known to be missing from the source or from the table. */
  predicate Trusted(d: Detector, s: Source) {
    d.sourceDrops == 0 && !s.issues.frameGap && !s.issues.reconnect && !s.issues.capacity && s.levels.triggers == 0
  }

  predicate TrustedClip(d: Detector, key: SourceKey) {
    key in d.sources && Trusted(d, d.sources[key]) && d.sources[key].meter.isClipping
  }

  function Sum(sources: map<SourceKey, Source>, order: seq<SourceKey>, counter: Source -> u64): nat {
    if order == [] then 0
    else
      (if order[0] in sources && sources[order[0]].connections != {} then counter(sources[order[0]]) else 0)
      + Sum(sources, order[1..], counter)
  }

  function AtMost64(n: nat): nat { if n < 18446744073709551615 then n else 18446744073709551615 }

  lemma {:induction false} SumSnoc(sources: map<SourceKey, Source>, order: seq<SourceKey>, counter: Source -> u64)
    requires order != []
    ensures var last := order[|order| - 1];
      Sum(sources, order, counter) == Sum(sources, order[..|order| - 1], counter)
        + if last in sources && sources[last].connections != {} then counter(sources[last]) else 0
    decreases order
  {
    if |order| > 1 {
      SumSnoc(sources, order[1..], counter);
      assert order[1..][..|order| - 2] == order[..|order| - 1][1..];
    }
  }

  lemma {:induction false} TotalMeans(sources: map<SourceKey, Source>, order: seq<SourceKey>, counter: Source -> u64)
    ensures Total(sources, order, counter) == AtMost64(Sum(sources, order, counter))
    decreases order
  {
    if order != [] {
      TotalMeans(sources, order[..|order| - 1], counter);
      SumSnoc(sources, order, counter);
    }
  }

  /** The connected sources. */
  function Live(sources: map<SourceKey, Source>): set<SourceKey> {
    set k | k in sources && sources[k].connections != {}
  }

  lemma {:induction false} CountMeans(sources: map<SourceKey, Source>, order: seq<SourceKey>)
    requires forall i | 0 <= i < |order| :: order[i] !in order[..i]
    ensures CountConnected(sources, order) == |set k | k in Live(sources) && k in order|
    decreases order
  {
    var all := set k | k in Live(sources) && k in order;
    if order == [] {
      assert all == {};
    } else {
      var front, last := order[..|order| - 1], order[|order| - 1];
      forall i | 0 <= i < |front|
        ensures front[i] !in front[..i]
      {
        assert front[..i] == order[..i] && front[i] == order[i];
      }
      CountMeans(sources, front);
      var before := set k | k in Live(sources) && k in front;
      assert last !in front;
      assert forall k :: k in order <==> k in front || k == last;
      if last in Live(sources) {
        assert all == before + {last};
      } else {
        assert all == before;
      }
    }
  }

  lemma AllInOrder(order: seq<SourceKey>, keys: set<SourceKey>)
    requires Enumerates(order, keys)
    ensures forall k | k in keys :: k in order
  {
    forall k | k in keys
      ensures k in order
    {
      assert k in multiset(keys);
    }
  }

  lemma ClipsMean(d: Detector)
    ensures AnyClipping(d) <==> exists k :: k in Live(d.sources) && TrustedClip(d, k)
  {
    if AnyClipping(d) {
      var k :| k in d.sources && Connected(d.sources[k]) && EstimateReliable(d.sources[k])
        && d.sources[k].meter.isClipping;
      assert k in Live(d.sources) && TrustedClip(d, k);
    }
    if k :| k in Live(d.sources) && TrustedClip(d, k) {
      assert Connected(d.sources[k]) && EstimateReliable(d.sources[k]);
    }
  }

  predicate NothingShown(n: Snapshot) {
    && n.source == None && !n.dataReliable && !n.atLimit && !n.isClipping && n.clipRatio == 0.0
    && !n.frameGap && !n.reconnect
    && n.levels.selected.command == n.levels.unclamped == n.levels.combined == n.levels.combinedEffective == 0.0
    && n.levels.peakCommand == n.levels.peakCombined == n.levels.peakUnclamped == 0.0
    && n.levels.active == n.levels.unsupported == n.levels.triggers == 0
  }

  /** One source is shown: its levels and counters, and its verdicts only if they can be trusted. */
  predicate SourceShown(d: Detector, key: SourceKey, n: Snapshot)
    requires key in d.sources
  {
    var s := d.sources[key];
    && n.source == Some(key) && n.levels == s.levels && n.clipRatio == s.meter.clipRatio
    && (n.dataReliable <==> Trusted(d, s))
    && (n.atLimit <==> Trusted(d, s) && s.meter.atLimit)
    && (n.isClipping <==> Trusted(d, s) && s.meter.isClipping)
    && n.droppedFrames == s.losses.frames
    && n.stateDrops == AtMost64(d.sourceDrops + s.losses.devices + s.losses.effects)
    && (n.frameGap <==> s.issues.frameGap) && (n.reconnect <==> s.issues.reconnect)
    && (n.capacity <==> s.issues.capacity || d.sourceDrops > 0)
  }

  predicate ShownAt(d: Detector, key: SourceKey, n: Snapshot) { key in d.sources && SourceShown(d, key, n) }

  /** Counters over all connected sources. */
  predicate TotalsShown(d: Detector, order: seq<SourceKey>, n: Snapshot) {
    && n.droppedFrames == AtMost64(Sum(d.sources, order, FrameLosses))
    && n.stateDrops == AtMost64(d.sourceDrops + Sum(d.sources, order, DeviceLosses)
                                + Sum(d.sources, order, EffectLosses))
    && (n.capacity <==> d.sourceDrops > 0)
  }

  lemma Saturates(a: u64, b: nat, c: nat)
    ensures SaturatingAdd(a, SaturatingAdd(AtMost64(b), AtMost64(c))) == AtMost64(a + b + c)
  {
  }

  lemma TotalsMean(d: Detector, order: seq<SourceKey>)
    ensures TotalsShown(d, order, TotalSnapshot(d, order)) && NothingShown(TotalSnapshot(d, order))
  {
    hide Sum, Total, AtMost64, CountConnected;
    TotalMeans(d.sources, order, FrameLosses);
    TotalMeans(d.sources, order, DeviceLosses);
    TotalMeans(d.sources, order, EffectLosses);
    Saturates(d.sourceDrops, Sum(d.sources, order, DeviceLosses), Sum(d.sources, order, EffectLosses));
  }

  lemma SourceMeans(d: Detector, order: seq<SourceKey>, key: SourceKey)
    requires key in d.sources
    ensures SourceShown(d, key, SourceSnapshot(d, order, key))
  {
    hide CountConnected, AtMost64;
    var s := d.sources[key];
    Saturates(d.sourceDrops, s.losses.devices, s.losses.effects);
    assert AtMost64(s.losses.devices) == s.losses.devices && AtMost64(s.losses.effects) == s.losses.effects by {
      Small(s.losses.devices);
      Small(s.losses.effects);
    }
  }

  lemma Small(n: u64)
    ensures AtMost64(n) == n
  {
  }

  lemma CountsMean(d: Detector, order: seq<SourceKey>)
    requires Enumerates(order, d.sources.Keys)
    ensures var n := BuildSnapshot(d, order);
      && n.sourceCount == |Live(d.sources)|
      && (n.anyClipping <==> exists k :: k in Live(d.sources) && TrustedClip(d, k))
  {
    hide Enumerates, Total, CountConnected, Select, AnyClipping, TrustedClip;
    ClippingEngines.EachOnce(order, d.sources.Keys);
    AllInOrder(order, d.sources.Keys);
    CountMeans(d.sources, order);
    ClipsMean(d);
    assert Live(d.sources) == set k | k in Live(d.sources) && k in order;
  }

  /**
   A snapshot counts the connected sources, says whether any trusted one clips, and shows the wanted source last
   active, first in the order on a tie; with none wanted it shows totals and claims nothing.
   */
  lemma SnapshotMeans(d: Detector, order: seq<SourceKey>)
    requires Enumerates(order, d.sources.Keys)
    ensures var n := BuildSnapshot(d, order);
      && n.sourceCount == |Live(d.sources)|
      && (n.anyClipping <==> exists k :: k in Live(d.sources) && TrustedClip(d, k))
      && if forall k | k in d.sources :: !Wanted(d, k) then NothingShown(n) && TotalsShown(d, order, n)
         else exists i :: 0 <= i < |order| && IsShown(d, order, i) && ShownAt(d, order[i], n)
  {
    hide Enumerates, Select, Wanted, IsShown, TotalSnapshot, SourceSnapshot, SourceShown, NothingShown, TotalsShown,
      TrustedClip, CountConnected, Live;
    CountsMean(d, order);
    AllInOrder(order, d.sources.Keys);
    SelectMeans(d, order);
    TotalsMean(d, order);
    var r := Select(d, order);
    if r.Some? {
      var i :| 0 <= i < |order| && order[i] == r.value && IsShown(d, order, i);
      assert order[i] in order;
      ShownIsWanted(d, order, i);
      SourceMeans(d, order, r.value);
    } else {
      forall k | k in d.sources
        ensures !Wanted(d, k)
      {
        assert k in order;
      }
    }
  }

  lemma ShownIsWanted(d: Detector, order: seq<SourceKey>, i: nat)
    requires i < |order| && IsShown(d, order, i)
    ensures Wanted(d, order[i]) && order[i] in d.sources
  {
  }

  // ---------- Settings ----------

  /** The value in range that is nearest; without a finite value the lowest. */
  predicate Nearest(value: Double, low: real, high: real, r: real) {
    match value
    case NotFinite => r == low
    case Finite(v) => if v < low then r == low else if v > high then r == high else r == v
  }

  predicate NearestInt(v: int, low: int, high: int, r: int) {
    if v < low then r == low else if v > high then r == high else r == v
  }

  predicate Blank(unit: u16) {
    unit in {9, 10, 11, 12, 13, 32, 133, 160, 5760, 8192, 8193, 8194, 8195, 8196, 8197, 8198, 8199, 8200, 8201, 8202,
             8232, 8233, 8239, 8287, 12288}
  }

  /** The text between its outer blanks, cut to 31 units. */
  predicate CutAt(text: Utf16, r: Utf16, i: nat, k: nat) {
    && i <= k <= |text|
    && (forall x | 0 <= x < i :: Blank(text[x])) && (forall x | k <= x < |text| :: Blank(text[x]))
    && (i < k ==> !Blank(text[i]) && !Blank(text[k - 1]))
    && r == text[i..if k - i <= 31 then k else i + 31]
  }

  ghost predicate Cut(text: Utf16, r: Utf16) { exists i: nat, k: nat :: CutAt(text, r, i, k) }

  lemma BlankIsSpace(unit: u16)
    ensures Blank(unit) <==> IsSpace(unit)
  {
  }

  lemma {:induction false} TrimStartMeans(s: Utf16) returns (i: nat)
    ensures i <= |s| && TrimStart(s) == s[i..] && forall x | 0 <= x < i :: IsSpace(s[x])
  {
    hide IsSpace;
    if s != [] && IsSpace(s[0]) {
      var rest := TrimStartMeans(s[1..]);
      i := rest + 1;
      assert s[1..][rest..] == s[i..];
      forall x | 0 <= x < i
        ensures IsSpace(s[x])
      {
        assert x > 0 ==> s[1..][x - 1] == s[x];
      }
    } else {
      i := 0;
      assert s[0..] == s;
    }
  }

  lemma {:induction false} TrimEndMeans(s: Utf16) returns (k: nat)
    ensures k <= |s| && TrimEnd(s) == s[..k] && forall x | k <= x < |s| :: IsSpace(s[x])
    decreases |s|
  {
    hide IsSpace;
    if s != [] && IsSpace(s[|s| - 1]) {
      var front := s[..|s| - 1];
      k := TrimEndMeans(front);
      assert front[..k] == s[..k];
      forall x | k <= x < |s|
        ensures IsSpace(s[x])
      {
        assert x < |front| ==> front[x] == s[x];
      }
    } else {
      k := |s|;
      assert s[..|s|] == s;
    }
  }

  // What Trim leaves lies between spaces.
  ghost predicate Between(text: Utf16, r: Utf16, i: nat, k: nat) {
    && i <= k <= |text| && r == text[i..k]
    && (forall x | 0 <= x < i :: IsSpace(text[x])) && (forall x | k <= x < |text| :: IsSpace(text[x]))
  }

  lemma TrimMeans(text: Utf16) returns (i: nat, k: nat)
    ensures Between(text, Trim(text), i, k)
  {
    hide IsSpace, TrimStart, TrimEnd;
    i := TrimStartMeans(text);
    var rest := text[i..];
    var j := TrimEndMeans(rest);
    k := i + j;
    assert rest[..j] == text[i..k];
    forall x | k <= x < |text|
      ensures IsSpace(text[x])
    {
      assert rest[x - i] == text[x];
    }
  }

  lemma BlanksAround(text: Utf16, i: nat, k: nat)
    requires Between(text, Trim(text), i, k)
    ensures i <= k <= |text|
    ensures (forall x | 0 <= x < i :: Blank(text[x])) && (forall x | k <= x < |text| :: Blank(text[x]))
    ensures i < k ==> !Blank(text[i]) && !Blank(text[k - 1])
  {
    hide IsSpace, Blank, Trim;
    forall x | 0 <= x < |text|
      ensures Blank(text[x]) <==> IsSpace(text[x])
    {
      BlankIsSpace(text[x]);
    }
    TrimmedEnds(text);
    if i < k {
      assert text[i..k][0] == text[i] && text[i..k][k - i - 1] == text[k - 1];
    }
  }

  lemma CutMeans(s: Option<Utf16>)
    ensures Cut(Text(s), SessionText(s))
  {
    var text := Text(s);
    var i, k := TrimMeans(text);
    BlanksAround(text, i, k);
    assert Trim(text) == text[i..k];
    hide IsSpace, Blank, Trim, Text;
    assert text[i..k][..Min(k - i, 31)] == text[i..if k - i <= 31 then k else i + 31];
    assert CutAt(text, SessionText(s), i, k);
  }

  /** Every setting becomes the nearest value in its range; the exit level is held at or below the entry level. */
  lemma SettingsMean(s: Settings)
    ensures var n := Normalized(s);
      && n.entryPercent.Finite? && n.exitPercent.Finite? && n.triggerPercent.Finite?
      && Nearest(s.entryPercent, 1.0, 100.0, n.entryPercent.value)
      && Nearest(s.exitPercent, 0.0, n.entryPercent.value, n.exitPercent.value)
      && Nearest(s.triggerPercent, 0.1, 100.0, n.triggerPercent.value)
      && NearestInt(s.continuousLimit, 10, 5000, n.continuousLimit) && NearestInt(s.window, 100, 10000, n.window)
      && NearestInt(s.exitHold, 0, 5000, n.exitHold)
      && n.autoSelect == s.autoSelect && n.manualProcess == s.manualProcess
      && n.manualSession.Some? && Cut(if s.manualSession.Some? then s.manualSession.value else [], n.manualSession.value)
  {
    hide SessionText, Cut;
    CutMeans(s.manualSession);
  }
}
