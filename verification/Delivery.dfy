/**
 The last hop: the calls one client thread of the server makes on the detector, and that the detector takes
 in every frame they bring while the connection is open, whatever else it is asked to do.
 */
module Delivery {
  import opened Bytes
  import opened Protocol
  import opened Settings
  import opened Sources
  import opened SourceSafety
  import opened Engine
  import opened EngineSafety
  import opened EngineRuns
  import opened Receiver

  // ---------- What the server makes of a stream ----------

  /** The call for a frame that passes the checks. */
  function CallOf(c: Client, connection: Guid, a: Arrival): Call
    requires !Check(c, a.frame).Refuse?
  {
    match Check(c, a.frame)
    case Register(key) => Connecting(IdentityOf(key, a.frame), connection, a.now, a.order)
    case Forward(key) => Processing(key, a.frame, a.now)
  }

  lemma CallIsPassed(d: Detector, c: Client, connection: Guid, a: Arrival, sine: real -> real)
    requires Normal(d.settings) && !Check(c, a.frame).Refuse?
    ensures Do(d, CallOf(c, connection, a), sine) == Passed(d, c, connection, a)
  {
    hide Check, Connect, ProcessFrame, Normal;
  }

  /** The calls of a client thread, up to the first frame it refuses. */
  function ClientCalls(c: Client, connection: Guid, arrivals: seq<Arrival>): seq<Call>
    decreases arrivals
  {
    if arrivals == [] || Check(c, arrivals[0].frame).Refuse? then []
    else [CallOf(c, connection, arrivals[0])] + ClientCalls(Seen(c, arrivals[0].frame), connection, arrivals[1..])
  }

  function Arrived(arrivals: seq<Arrival>): (r: seq<Frame>)
    ensures |r| == |arrivals| && forall i | 0 <= i < |r| :: r[i] == arrivals[i].frame
  {
    seq(|arrivals|, i requires 0 <= i < |arrivals| => arrivals[i].frame)
  }

  predicate Brings(call: Call, key: SourceKey) { call.Processing? && call.key == key }

  /** Of some calls, those that bring frames of a source. */
  function Bringing(calls: seq<Call>, key: SourceKey): (r: seq<Call>)
    ensures forall i | 0 <= i < |r| :: Brings(r[i], key)
    decreases calls
  {
    if calls == [] then []
    else (if Brings(calls[0], key) then [calls[0]] else []) + Bringing(calls[1..], key)
  }

  /** The frames that the calls of a source bring. */
  function Brought(calls: seq<Call>): seq<Frame>
    requires forall i | 0 <= i < |calls| :: calls[i].Processing?
    decreases calls
  {
    if calls == [] then [] else [calls[0].frame] + Brought(calls[1..])
  }

  /** Behind its greeting, a client whose frames all pass makes one call for each of them. */
  lemma {:induction false} ClientForwards(c: Client, connection: Guid, arrivals: seq<Arrival>)
    requires c.key.Some? && Accepted(c, Arrived(arrivals)) == (Arrived(arrivals), None)
    ensures var own := ClientCalls(c, connection, arrivals);
      && |own| == |arrivals|
      && (forall i | 0 <= i < |own| :: Brings(own[i], c.key.value) && own[i].frame.processId == c.processId)
      && Brought(own) == Arrived(arrivals)
    decreases arrivals
  {
    if arrivals == [] {
    } else {
      var frames, rest := Arrived(arrivals), arrivals[1..];
      assert frames[1..] == Arrived(rest);
      AcceptedTail(c, frames);
      var tail := ClientCalls(Seen(c, frames[0]), connection, rest);
      ClientForwards(Seen(c, frames[0]), connection, rest);
      var own := ClientCalls(c, connection, arrivals);
      assert own == [Processing(c.key.value, frames[0], arrivals[0].now)] + tail;
      assert own[1..] == tail && [frames[0]] + frames[1..] == frames;
    }
  }

  lemma AcceptedTail(c: Client, frames: seq<Frame>)
    requires c.key.Some? && frames != [] && Accepted(c, frames) == (frames, None)
    ensures Check(c, frames[0]) == Forward(c.key.value) && frames[0].processId == c.processId
    ensures Accepted(Seen(c, frames[0]), frames[1..]) == (frames[1..], None)
    ensures Seen(c, frames[0]).key == c.key && Seen(c, frames[0]).processId == c.processId
  {
    var (rest, refusal) := Accepted(Seen(c, frames[0]), frames[1..]);
    assert ([frames[0]] + rest)[1..] == rest;
  }

  // ---------- What the detector takes in ----------

  // A frame that the detector takes for the source: it is stored, connected, and the process is its own.
  predicate Hears(d: Detector, call: Call, key: SourceKey) {
    && call.Processing? && call.key == key && call.frame.processId == key.processId
    && key in d.sources && Connected(d.sources[key])
  }

  /** The frames that some calls make a source take in. */
  ghost function Heard(d: Detector, calls: seq<Call>, sine: real -> real,
      key: SourceKey): seq<Frame>
    requires DetectorInv(d)
    decreases calls
  {
    if calls == [] then []
    else
      CallKeeps(d, calls[0], sine);
      (if Hears(d, calls[0], key) then [calls[0].frame] else [])
        + Heard(Do(d, calls[0], sine), calls[1..], sine, key)
  }

  /** Nothing closes the connection. */
  predicate KeepsOpen(calls: seq<Call>, key: SourceKey, connection: Guid) {
    forall i | 0 <= i < |calls| && calls[i].Disconnecting? && calls[i].key == key :: calls[i].connection != connection
  }

  predicate Open(d: Detector, key: SourceKey, connection: Guid) {
    key in d.sources && connection in d.sources[key].connections
  }

  lemma ConnectOpens(d: Detector, identity: Identity, connection: Guid, now: real, order: seq<SourceKey>)
    requires identity.key in Connect(d, identity, connection, now, order).sources
    ensures Open(Connect(d, identity, connection, now, order), identity.key, connection)
  {
    hide Oldest;
    StillAbsent(d, order, identity.key);
  }

  lemma ConnectStaysOpen(d: Detector, identity: Identity, other: Guid, now: real, order: seq<SourceKey>, key: SourceKey,
      connection: Guid)
    requires Open(d, key, connection)
    ensures Open(Connect(d, identity, other, now, order), key, connection)
  {
    hide MakeRoom;
    if identity.key != key {
      ConnectedStays(d, identity, other, now, order, key);
    }
  }

  lemma FrameStaysOpen(d: Detector, k: SourceKey, f: Frame, now: real, key: SourceKey, connection: Guid)
    requires DetectorInv(d) && Open(d, key, connection)
    ensures Open(ProcessFrame(d, k, f, now), key, connection)
  {
    hide DetectorInv, KeyOk, Apply, SourceInv;
    if k == key {
      StoredInv(d, key);
      var s := d.sources[key].(lastActivity := now);
      RenamedOk(d.sources[key], s.identity, s.connections, now);
      FramesOnlyEnd(s, f, now);
    }
  }

  lemma DisconnectStaysOpen(d: Detector, k: SourceKey, other: Guid, now: real, key: SourceKey, connection: Guid)
    requires Open(d, key, connection) && (k == key ==> other != connection)
    ensures Open(Disconnect(d, k, other, now), key, connection)
  {
    hide ResetAfterDisconnect;
    if k == key {
      assert connection in d.sources[key].connections - {other};
    }
  }

  /** An open connection stays open through every call but its own disconnect. */
  lemma StaysOpen(d: Detector, call: Call, sine: real -> real, key: SourceKey, connection: Guid)
    requires DetectorInv(d) && Normal(d.settings) && Open(d, key, connection) && KeepsOpen([call], key, connection)
    ensures Open(Do(d, call, sine), key, connection)
  {
    hide DetectorInv, Normal, Connect, Disconnect, ProcessFrame, TickAll;
    match call
    case Connecting(identity, other, now, order) => ConnectStaysOpen(d, identity, other, now, order, key, connection);
    case Disconnecting(k, other, now) =>
      assert [call][0] == call;
      DisconnectStaysOpen(d, k, other, now, key, connection);
    case Processing(k, f, now) => FrameStaysOpen(d, k, f, now, key, connection);
    case Ticking(now, order, walks) => TickIssues(d, order, walks, now, sine, key);
    case _ =>
  }

  lemma OpenHears(d: Detector, call: Call, key: SourceKey, connection: Guid)
    requires Open(d, key, connection) && (Brings(call, key) ==> call.frame.processId == key.processId)
    ensures Hears(d, call, key) <==> Brings(call, key)
  {
  }

  /** While a connection is open its source stays stored and takes in every frame that is brought to it. */
  lemma {:induction false} AllHeard(d: Detector, calls: seq<Call>, sine: real -> real, key: SourceKey, connection: Guid)
    requires DetectorInv(d) && Open(d, key, connection) && KeepsOpen(calls, key, connection)
    requires forall i | 0 <= i < |Bringing(calls, key)| :: Bringing(calls, key)[i].frame.processId == key.processId
    ensures StoredThroughout(d, calls, sine, key)
    ensures Heard(d, calls, sine, key) == Brought(Bringing(calls, key))
    decreases calls
  {
    hide DetectorInv, Do, Normal, Open, Hears;
    OpenIsStored(d, key, connection);
    if calls == [] {
    } else {
      var call, rest, all := calls[0], calls[1..], Bringing(calls, key);
      InvNormal(d);
      CallKeeps(d, call, sine);
      StaysOpen(d, call, sine, key, connection);
      assert Brings(call, key) ==> all[0] == call && all[1..] == Bringing(rest, key);
      assert !Brings(call, key) ==> all == Bringing(rest, key);
      OpenHears(d, call, key, connection);
      AllHeard(Do(d, call, sine), rest, sine, key, connection);
    }
  }

  lemma OpenIsStored(d: Detector, key: SourceKey, connection: Guid)
    requires Open(d, key, connection)
    ensures key in d.sources
  {
  }
}
