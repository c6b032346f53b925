/** The per-connection checks of the pipe server, and the calls an accepted frame makes on the detector. */
module Receiver {
  import opened Bytes
  import opened Protocol
  import opened Settings
  import opened Sources
  import opened Engine
  import opened EngineSafety
  import opened EngineRuns
  import opened ClippingEngines

  // What one client thread knows of its connection.
  datatype Client = Client(processId: u32, last: Option<u64>, key: Option<SourceKey>)

  datatype Refusal =
    | SequenceNotIncreasing | FirstNotHello | HelloProcess | UnsafeSession | DuplicateHello | FrameProcess

  datatype Verdict = Refuse(why: Refusal) | Register(key: SourceKey) | Forward(key: SourceKey)

  predicate SafeByte(b: byte) {
    || 'a' as int <= b <= 'z' as int || 'A' as int <= b <= 'Z' as int || '0' as int <= b <= '9' as int
    || b == '-' as int || b == '_' as int || b == '.' as int
  }

  predicate SafeSessionId(id: seq<byte>) { 0 < |id| <= 31 && forall i | 0 <= i < |id| :: SafeByte(id[i]) }

  /** The checks on one frame, in order. */
  function Check(c: Client, f: Frame): Verdict {
    if c.last.Some? && f.sequence <= c.last.value then Refuse(SequenceNotIncreasing)
    else if c.key.None? then
      if f.messageType != HELLO then Refuse(FirstNotHello)
      else if f.processId != c.processId then Refuse(HelloProcess)
      else if !SafeSessionId(f.sessionId) then Refuse(UnsafeSession)
      else Register(SourceKey(c.processId, f.sessionId))
    else if f.messageType == HELLO then Refuse(DuplicateHello)
    else if f.processId != c.processId then Refuse(FrameProcess)
    else Forward(c.key.value)
  }

  function Seen(c: Client, f: Frame): Client {
    c.(last := Some(f.sequence), key := if Check(c, f).Register? then Some(Check(c, f).key) else c.key)
  }

  /** The frames that pass, until one is refused. */
  function Accepted(c: Client, frames: seq<Frame>): (seq<Frame>, Option<Refusal>)
    decreases frames
  {
    if frames == [] then ([], None)
    else match Check(c, frames[0])
      case Refuse(why) => ([], Some(why))
      case _ =>
        var (rest, refusal) := Accepted(Seen(c, frames[0]), frames[1..]);
        ([frames[0]] + rest, refusal)
  }

  predicate Increasing(frames: seq<Frame>) {
    forall i, j | 0 <= i < j < |frames| :: frames[i].sequence < frames[j].sequence
  }

  /** A stream the checks let through: a greeting, then frames of the same process with growing numbers. */
  predicate Orderly(processId: u32, frames: seq<Frame>) {
    && Increasing(frames)
    && (forall i | 0 <= i < |frames| :: frames[i].processId == processId)
    && (frames != [] ==> frames[0].messageType == HELLO && SafeSessionId(frames[0].sessionId))
    && (forall i | 1 <= i < |frames| :: frames[i].messageType != HELLO)
  }

  lemma {:induction false} RestAccepted(c: Client, frames: seq<Frame>)
    requires Increasing(frames) && c.key.Some?
    requires forall i | 0 <= i < |frames| :: frames[i].processId == c.processId && frames[i].messageType != HELLO
    requires forall i | 0 <= i < |frames| :: c.last.Some? ==> frames[i].sequence > c.last.value
    ensures Accepted(c, frames) == (frames, None)
    decreases frames
  {
    if frames == [] {
    } else {
      RestAccepted(Seen(c, frames[0]), frames[1..]);
      assert [frames[0]] + frames[1..] == frames;
    }
  }

  lemma {:induction false} RestOrderly(c: Client, frames: seq<Frame>)
    requires c.key.Some? && Accepted(c, frames) == (frames, None)
    ensures Increasing(frames)
    ensures forall i | 0 <= i < |frames| :: frames[i].processId == c.processId && frames[i].messageType != HELLO
    ensures forall i | 0 <= i < |frames| :: c.last.Some? ==> frames[i].sequence > c.last.value
    decreases frames
  {
    if frames == [] {
    } else {
      var (rest, refusal) := Accepted(Seen(c, frames[0]), frames[1..]);
      assert ([frames[0]] + rest)[1..] == rest;
      RestOrderly(Seen(c, frames[0]), frames[1..]);
    }
  }

  /** A client is let through to the end exactly when its stream is orderly. */
  lemma AcceptsOrderly(processId: u32, frames: seq<Frame>)
    ensures Accepted(Client(processId, None, None), frames) == (frames, None) <==> Orderly(processId, frames)
  {
    hide SafeSessionId;
    var c := Client(processId, None, None);
    if frames != [] {
      var c1 := Seen(c, frames[0]);
      if Accepted(c, frames) == (frames, None) {
        assert ([frames[0]] + Accepted(c1, frames[1..]).0)[1..] == Accepted(c1, frames[1..]).0;
        RestOrderly(c1, frames[1..]);
      }
      if Orderly(processId, frames) {
        RestAccepted(c1, frames[1..]);
        assert [frames[0]] + frames[1..] == frames;
      }
    }
  }

  /** A session id of up to 31 ASCII letters, digits, hyphens, full stops and underscores. */
  lemma SafeMeans(id: seq<byte>)
    ensures SafeSessionId(id) <==>
      1 <= |id| <= 31 && forall i | 0 <= i < |id| ::
        48 <= id[i] <= 57 || 65 <= id[i] <= 90 || 97 <= id[i] <= 122 || id[i] == 45 || id[i] == 46 || id[i] == 95
  {
  }

  // ---------- The calls on the detector ----------

  /** A frame, when it arrived, and the order of the source table at that moment. */
  datatype Arrival = Arrival(frame: Frame, now: real, order: seq<SourceKey>)

  function IdentityOf(key: SourceKey, f: Frame): Identity {
    Identity(key, f.text, f.buildVersion, if f.flags == 32 || f.flags == 64 then f.flags else 0)
  }

  /**
   A greeting that is accepted names the source: by the process the pipe belongs to and the session id, with the
   program and version it tells, and its pointer width if it is 32 or 64.
   */
  lemma GreetingNames(c: Client, f: Frame)
    requires c.key.None? && !Check(c, f).Refuse?
    ensures var key := SourceKey(c.processId, f.sessionId);
      && Check(c, f) == Register(key) && Seen(c, f).key == Some(key)
      && IdentityOf(key, f)
        == Identity(key, f.text, f.buildVersion, if f.flags == 64 then 64 else if f.flags == 32 then 32 else 0)
  {
    hide SafeSessionId;
  }

  /** What an accepted frame does to the detector. */
  function Passed(d: Detector, c: Client, connection: Guid, a: Arrival): Detector
    requires !Check(c, a.frame).Refuse?
  {
    match Check(c, a.frame)
    case Register(key) => Connect(d, IdentityOf(key, a.frame), connection, a.now, a.order)
    case Forward(key) => ProcessFrame(d, key, a.frame, a.now)
  }

  /** The state of one client thread. */
  class PipeClient {
    const processId: u32
    const connection: Guid
    var lastSequence: Option<u64>
    var sourceKey: Option<SourceKey>

    function State(): Client
      reads this
    {
      Client(processId, lastSequence, sourceKey)
    }

    constructor (processId: u32, connection: Guid)
      ensures State() == Client(processId, None, None) && this.connection == connection
    {
      this.processId, this.connection := processId, connection;
      lastSequence, sourceKey := None, None;
    }

    /** One frame: the checks, then the call on the detector. */
    method Handle(engine: ClippingEngine, f: Frame, now: real, order: seq<SourceKey>) returns (refused: bool)
      requires engine.Valid() && Enumerates(order, engine.sources.Keys)
      modifies this, engine, engine.sources.Values
      ensures engine.Valid() && fresh(engine.sources.Values - old(engine.sources.Values))
      ensures refused == Check(old(State()), f).Refuse?
      ensures refused ==> engine.Value() == old(engine.Value()) && sourceKey == old(sourceKey)
      ensures !refused ==>
        engine.Value() == Passed(old(engine.Value()), old(State()), connection, Arrival(f, now, order))
          && State() == Seen(old(State()), f)
    {
      hide Normal, Engine.Connect, Engine.ProcessFrame, SafeSessionId, Enumerates;
      if lastSequence.Some? && f.sequence <= lastSequence.value {
        return true;
      }
      lastSequence := Some(f.sequence);
      if sourceKey.None? {
        if f.messageType != HELLO || f.processId != processId || !SafeSessionId(f.sessionId) {
          return true;
        }
        var key := SourceKey(processId, f.sessionId);
        sourceKey := Some(key);
        engine.Connect(IdentityOf(key, f), connection, now, order);
        return false;
      }
      if f.messageType == HELLO || f.processId != processId {
        return true;
      }
      engine.ProcessFrame(sourceKey.value, f, now);
      refused := false;
    }

    /** When the thread ends, a client that got as far as its greeting is reported gone. */
    method Finish(engine: ClippingEngine, now: real)
      requires engine.Valid()
      modifies engine, engine.sources.Values
      ensures engine.Valid()
      ensures engine.Value() ==
        if sourceKey.Some? then Engine.Disconnect(old(engine.Value()), sourceKey.value, connection, now)
          else old(engine.Value())
    {
      hide Normal, Engine.Disconnect;
      if sourceKey.Some? {
        engine.Disconnect(sourceKey.value, connection, now);
      }
    }
  }

  // ---------- The producer's session id ----------

  function Digits(n: nat): (s: seq<byte>)
    ensures |s| > 0 && forall i | 0 <= i < |s| :: '0' as int <= s[i] <= '9' as int
  {
    if n < 10 then ['0' as int + n] else Digits(n / 10) + ['0' as int + n % 10]
  }

  function Power(n: nat): nat { if n == 0 then 1 else 10 * Power(n - 1) }

  lemma {:induction false} DigitCount(n: nat, bound: nat)
    requires bound > 0 && n < Power(bound)
    ensures |Digits(n)| <= bound
  {
    if n < 10 {
    } else {
      DigitCount(n / 10, bound - 1);
    }
  }

  /** The number that decimal digits write. */
  function Written(s: seq<byte>): nat
    requires forall i | 0 <= i < |s| :: 48 <= s[i] <= 57
  {
    if s == [] then 0 else 10 * Written(s[..|s| - 1]) + (s[|s| - 1] as int - 48)
  }

  /** A number is formatted in decimal, without a leading zero. */
  lemma {:induction false} DigitsMean(n: nat)
    ensures Written(Digits(n)) == n && (n > 0 ==> Digits(n)[0] != 48)
  {
    if n < 10 {
      assert Digits(n)[..0] == [];
    } else {
      DigitsMean(n / 10);
      assert Digits(n)[..|Digits(n)| - 1] == Digits(n / 10);
    }
  }

  /** Two producers with one session id are the same process started at the same time. */
  lemma SessionsDiffer(process: u32, ticks: u64, other: u32, later: u64)
    requires Digits(process) + [45] + Digits(ticks) == Digits(other) + [45] + Digits(later)
    ensures process == other && ticks == later
  {
    hide Digits;
    HyphenSplits(Digits(process), Digits(ticks), Digits(other), Digits(later));
    DigitsMean(process);
    DigitsMean(other);
    DigitsMean(ticks);
    DigitsMean(later);
  }

  // The first hyphen ends the first number.
  lemma HyphenSplits(a: seq<byte>, x: seq<byte>, b: seq<byte>, y: seq<byte>)
    requires 45 !in a && 45 !in b && a + [45] + x == b + [45] + y
    ensures a == b && x == y
  {
    var s := a + [45] + x;
    assert s[|a|] == 45 && s[|b|] == 45;
    assert (forall k | 0 <= k < |a| :: s[k] == a[k]) && (forall k | 0 <= k < |b| :: s[k] == b[k]);
    assert a == s[..|a|] && b == s[..|b|] && x == s[|a| + 1..] && y == s[|b| + 1..];
  }

  /** The id the producer formats from its process id and its start time is one the server accepts. */
  lemma SessionIdIsSafe(processId: u32, ticks: u64)
    ensures SafeSessionId(Digits(processId) + ['-' as int] + Digits(ticks))
  {
    assert Power(10) == 10000000000 && Power(20) == Power(10) * Power(10) by {
      assert Power(5) == 100000;
      assert Power(15) == Power(10) * 100000;
    }
    DigitCount(processId, 10);
    DigitCount(ticks, 20);
  }
}
