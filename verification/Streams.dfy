/**
 The two stream reassemblers. ParseStream reads a whole byte string at once; the
 accumulators see the same bytes in chunks and must deliver the same frames.
 */
module Streams {
  import opened Bytes
  import opened Protocol
  import opened RoundTrip
  import Utf8

  /** A reassembler: its decoder, and whether it is the C# one. */
  datatype Dialect = Dialect(isCSharp: bool, decode: seq<byte> -> Result<Frame>)

  const CSHARP := Dialect(true, Decode)
  const PYTHON := Dialect(false, PyDecode)
  const BUFFER_SIZE := 2 * MAX_FRAME_SIZE

  /** What a reassembler refuses on the first 32 bytes. Python leaves the version to the decoder. */
  function StreamHeaderError(d: Dialect, s: seq<byte>): Option<ProtocolError>
    requires |s| >= HEADER_SIZE
  {
    if s[..4] != MAGIC then Some(BadMagic)
    else if d.isCSharp && U16At(s, 4) != VERSION then Some(UnsupportedVersion)
    else if U32At(s, 8) < HEADER_SIZE || U32At(s, 8) > MAX_FRAME_SIZE then Some(InvalidFrameSize)
    else None
  }

  datatype Next = More | Refused(error: ProtocolError, rest: seq<byte>) | Ready(frame: Frame, size: nat)

  /** What the bytes at the head of the buffer amount to. */
  function NextFrame(d: Dialect, s: seq<byte>): (n: Next)
    ensures n.Ready? ==> HEADER_SIZE <= n.size <= |s|
  {
    if |s| < HEADER_SIZE then More
    else if StreamHeaderError(d, s).Some? then Refused(StreamHeaderError(d, s).value, s)
    else
      var size := U32At(s, 8);
      if |s| < size then More
      else match d.decode(s[..size])
        case Err(error) => Refused(error, if d.isCSharp then s else s[size..])
        case Ok(frame) => Ready(frame, size)
  }

  datatype Parse = Parse(frames: seq<Frame>, rest: seq<byte>, error: Option<ProtocolError>)

  /** All complete frames of s, the unfinished tail, and the error that stopped it. */
  function ParseStream(d: Dialect, s: seq<byte>): Parse
    decreases |s|
  {
    match NextFrame(d, s)
    case More => Parse([], s, None)
    case Refused(error, rest) => Parse([], rest, Some(error))
    case Ready(frame, size) =>
      var tail := ParseStream(d, s[size..]);
      tail.(frames := [frame] + tail.frames)
  }

  /** A tail with no complete frame in it. */
  predicate Unfinished(d: Dialect, s: seq<byte>) { ParseStream(d, s) == Parse([], s, None) }

  lemma {:induction false} RestIsUnfinished(d: Dialect, s: seq<byte>)
    requires ParseStream(d, s).error.None?
    ensures Unfinished(d, ParseStream(d, s).rest) && |ParseStream(d, s).rest| < MAX_FRAME_SIZE
    decreases |s|
  {
    if |s| < HEADER_SIZE || U32At(s, 8) > |s| {
    } else {
      RestIsUnfinished(d, s[U32At(s, 8)..]);
    }
  }

  lemma SamePrefix(a: seq<byte>, b: seq<byte>)
    requires |a| >= HEADER_SIZE
    ensures (a + b)[..4] == a[..4] && U16At(a + b, 4) == U16At(a, 4) && U32At(a + b, 8) == U32At(a, 8)
  {
  }

  lemma NextExtends(d: Dialect, a: seq<byte>, b: seq<byte>)
    ensures NextFrame(d, a).Ready? ==> NextFrame(d, a + b) == NextFrame(d, a)
    ensures NextFrame(d, a).Refused? ==>
      NextFrame(d, a + b).Refused? && NextFrame(d, a + b).error == NextFrame(d, a).error
  {
    if |a| >= HEADER_SIZE {
      SamePrefix(a, b);
      var size := U32At(a, 8);
      if size <= |a| {
        assert (a + b)[..size] == a[..size];
      }
    }
  }

  predicate Extends(p: Parse, tail: Parse, whole: Parse) {
    if p.error.None? then whole.frames == p.frames + tail.frames && whole.rest == tail.rest && whole.error == tail.error
    else whole.frames == p.frames && whole.error == p.error
  }

  /** Bytes that arrive later never change what earlier bytes decided. */
  lemma {:induction false} ParseExtends(d: Dialect, a: seq<byte>, b: seq<byte>)
    ensures Extends(ParseStream(d, a), ParseStream(d, ParseStream(d, a).rest + b), ParseStream(d, a + b))
    decreases |a|
  {
    NextExtends(d, a, b);
    match NextFrame(d, a)
    case More =>
      assert ParseStream(d, a).frames == [];
    case Refused(_, _) =>
    case Ready(frame, size) =>
      assert (a + b)[size..] == a[size..] + b;
      ParseExtends(d, a[size..], b);
      Associative([frame], ParseStream(d, a[size..]).frames, ParseStream(d, ParseStream(d, a[size..]).rest + b).frames);
  }

  function Concat(chunks: seq<seq<byte>>): seq<byte> {
    if chunks == [] then [] else chunks[0] + Concat(chunks[1..])
  }

  datatype Run = Run(frames: seq<Frame>, pending: seq<byte>, error: Option<ProtocolError>)

  /**
   A consumer's whole life: it feeds chunks until one is refused. C# loses the good
   frames of the refused chunk with the exception; the Python generator has yielded them.
   */
  function FeedAll(d: Dialect, pending: seq<byte>, chunks: seq<seq<byte>>): Run
    decreases |chunks|
  {
    if chunks == [] then Run([], pending, None)
    else if d.isCSharp && |pending| + |chunks[0]| > BUFFER_SIZE then Run([], pending, Some(BufferExceeded))
    else
      var p := ParseStream(d, pending + chunks[0]);
      if p.error.Some? then Run(if d.isCSharp then [] else p.frames, p.rest, p.error)
      else
        var later := FeedAll(d, p.rest, chunks[1..]);
        later.(frames := p.frames + later.frames)
  }

  /**
   Chunking does not matter: with chunks of at most 64 KiB the buffer limit is never
   met, a stream is accepted or refused as the whole is, and the frames delivered are
   all frames of the whole. Of a refused stream Python delivers every frame in front
   of the bad one and C# a prefix of those; which one, LosesOnlyTheChunk says.
   */
  lemma {:induction false} ChunkingInvariance(d: Dialect, pending: seq<byte>, chunks: seq<seq<byte>>)
    requires Unfinished(d, pending) && |pending| < MAX_FRAME_SIZE
    requires forall i | 0 <= i < |chunks| :: |chunks[i]| <= MAX_FRAME_SIZE
    ensures var run, whole := FeedAll(d, pending, chunks), ParseStream(d, pending + Concat(chunks));
      && run.error == whole.error
      && (whole.error.None? || !d.isCSharp ==> run.frames == whole.frames)
      && (whole.error.None? ==> run.pending == whole.rest)
      && run.frames <= whole.frames
    decreases |chunks|
  {
    if chunks == [] {
      assert pending + Concat(chunks) == pending;
    } else {
      var first, later := pending + chunks[0], Concat(chunks[1..]);
      assert pending + Concat(chunks) == first + later;
      ParseExtends(d, first, later);
      var p := ParseStream(d, first);
      if p.error.None? {
        RestIsUnfinished(d, first);
        ChunkingInvariance(d, p.rest, chunks[1..]);
      }
    }
  }

  // ---------- What a refused stream loses in C# ----------

  /** How many chunks a consumer takes before one is refused. */
  function Taken(d: Dialect, pending: seq<byte>, chunks: seq<seq<byte>>): (r: nat)
    ensures r <= |chunks|
    decreases |chunks|
  {
    if chunks == [] || (d.isCSharp && |pending| + |chunks[0]| > BUFFER_SIZE)
      || ParseStream(d, pending + chunks[0]).error.Some? then 0
    else 1 + Taken(d, ParseStream(d, pending + chunks[0]).rest, chunks[1..])
  }

  /** All that is known of a stream when its first r chunks have been read. */
  function Sofar(d: Dialect, pending: seq<byte>, chunks: seq<seq<byte>>, r: nat): Parse
    requires r <= |chunks|
  {
    ParseStream(d, pending + Concat(chunks[..r]))
  }

  lemma ConcatFirst(chunks: seq<seq<byte>>, r: nat)
    requires 0 < r <= |chunks|
    ensures Concat(chunks[..r]) == chunks[0] + Concat(chunks[1..][..r - 1])
  {
    assert chunks[..r][1..] == chunks[1..][..r - 1];
  }

  // One good chunk further, the same is known as from the chunk's own rest on.
  lemma SofarNext(d: Dialect, pending: seq<byte>, chunks: seq<seq<byte>>, r: nat)
    requires 0 < r <= |chunks| && ParseStream(d, pending + chunks[0]).error.None?
    ensures var p := ParseStream(d, pending + chunks[0]);
      var later := Sofar(d, p.rest, chunks[1..], r - 1);
      Sofar(d, pending, chunks, r) == Parse(p.frames + later.frames, later.rest, later.error)
  {
    hide ParseStream, Concat;
    ConcatFirst(chunks, r);
    Associative(pending, chunks[0], Concat(chunks[1..][..r - 1]));
    ParseExtends(d, pending + chunks[0], Concat(chunks[1..][..r - 1]));
  }

  lemma FeedFirst(d: Dialect, pending: seq<byte>, chunks: seq<seq<byte>>)
    requires chunks != [] && |pending| < MAX_FRAME_SIZE && |chunks[0]| <= MAX_FRAME_SIZE
    ensures var p := ParseStream(d, pending + chunks[0]);
      if p.error.Some? then
        Taken(d, pending, chunks) == 0 && FeedAll(d, pending, chunks)
          == Run(if d.isCSharp then [] else p.frames, p.rest, p.error)
      else
        var later := FeedAll(d, p.rest, chunks[1..]);
        && Taken(d, pending, chunks) == 1 + Taken(d, p.rest, chunks[1..])
        && FeedAll(d, pending, chunks) == Run(p.frames + later.frames, later.pending, later.error)
  {
    hide ParseStream;
  }

  // Before the first chunk only the pending bytes are known.
  lemma SofarStart(d: Dialect, pending: seq<byte>, chunks: seq<seq<byte>>)
    requires Unfinished(d, pending)
    ensures Sofar(d, pending, chunks, 0) == Parse([], pending, None)
    ensures chunks == [] ==> Taken(d, pending, chunks) == 0 && FeedAll(d, pending, chunks) == Run([], pending, None)
  {
    hide ParseStream;
    assert chunks[..0] == [] && pending + Concat([]) == pending;
  }

  predicate Known(d: Dialect, pending: seq<byte>, chunks: seq<seq<byte>>, r: nat, run: Run)
    requires r <= |chunks|
  {
    var known := Sofar(d, pending, chunks, r);
    && known.error.None? && (run.error.Some? <==> r < |chunks|)
    && (if r == |chunks| then run.frames == known.frames && run.pending == known.rest
        else
          var refused := ParseStream(d, known.rest + chunks[r]);
          refused.error == run.error && run.frames == known.frames + if d.isCSharp then [] else refused.frames)
  }

  lemma KnownNext(d: Dialect, pending: seq<byte>, chunks: seq<seq<byte>>, r: nat, p: Parse, later: Run)
    requires 0 < r <= |chunks| && p == ParseStream(d, pending + chunks[0]) && p.error.None?
    requires Known(d, p.rest, chunks[1..], r - 1, later)
    ensures Known(d, pending, chunks, r, Run(p.frames + later.frames, later.pending, later.error))
  {
    hide ParseStream, Sofar;
    SofarNext(d, pending, chunks, r);
    var known := Sofar(d, p.rest, chunks[1..], r - 1);
    if r < |chunks| {
      assert chunks[1..][r - 1] == chunks[r];
      var refused := ParseStream(d, known.rest + chunks[r]);
      Associative(p.frames, known.frames, if d.isCSharp then [] else refused.frames);
    }
  }

  /**
   Exactly what a consumer is given: every frame of the chunks it took, none of them refused, and of
   a refused chunk nothing in C# and everything in front of the bad frame in Python.
   */
  lemma {:induction false} TakenIsDelivered(d: Dialect, pending: seq<byte>, chunks: seq<seq<byte>>)
    requires Unfinished(d, pending) && |pending| < MAX_FRAME_SIZE
    requires forall i | 0 <= i < |chunks| :: |chunks[i]| <= MAX_FRAME_SIZE
    ensures Known(d, pending, chunks, Taken(d, pending, chunks), FeedAll(d, pending, chunks))
    decreases |chunks|
  {
    hide ParseStream, FeedAll, Taken, Sofar, Unfinished;
    SofarStart(d, pending, chunks);
    if chunks == [] {
    } else {
      FeedFirst(d, pending, chunks);
      var p := ParseStream(d, pending + chunks[0]);
      if p.error.None? {
        RestIsUnfinished(d, pending + chunks[0]);
        TakenIsDelivered(d, p.rest, chunks[1..]);
        KnownNext(d, pending, chunks, Taken(d, pending, chunks), p, FeedAll(d, p.rest, chunks[1..]));
      }
    }
  }

  /**
   The C# consumer is given every frame in front of the bad one exactly when the refused chunk
   completes none: what it loses is the good frames that the bad one shares a chunk with.
   */
  lemma LosesOnlyTheChunk(pending: seq<byte>, chunks: seq<seq<byte>>)
    requires Unfinished(CSHARP, pending) && |pending| < MAX_FRAME_SIZE
    requires forall i | 0 <= i < |chunks| :: |chunks[i]| <= MAX_FRAME_SIZE
    ensures var (run, r) := (FeedAll(CSHARP, pending, chunks), Taken(CSHARP, pending, chunks));
      var whole, known := ParseStream(CSHARP, pending + Concat(chunks)), Sofar(CSHARP, pending, chunks, r);
      var lost := if r < |chunks| then ParseStream(CSHARP, known.rest + chunks[r]).frames else [];
      && whole.frames == run.frames + lost
      && (run.frames == whole.frames <==> r == |chunks| || ParseStream(CSHARP, known.rest + chunks[r]).frames == [])
  {
    hide ParseStream, FeedAll, Concat, Taken;
    var r := Taken(CSHARP, pending, chunks);
    TakenIsDelivered(CSHARP, pending, chunks);
    if r == |chunks| {
      assert chunks[..r] == chunks;
    } else {
      RefusedThere(CSHARP, pending, chunks, r);
    }
  }

  // A stream whose next chunk is refused ends there.
  lemma RefusedThere(d: Dialect, pending: seq<byte>, chunks: seq<seq<byte>>, r: nat)
    requires r < |chunks| && Sofar(d, pending, chunks, r).error.None?
    requires ParseStream(d, Sofar(d, pending, chunks, r).rest + chunks[r]).error.Some?
    ensures var known := Sofar(d, pending, chunks, r);
      ParseStream(d, pending + Concat(chunks)).frames == known.frames + ParseStream(d, known.rest + chunks[r]).frames
  {
    hide ParseStream, Concat;
    var known, later := Sofar(d, pending, chunks, r), Concat(chunks[r + 1..]);
    ConcatSplits(chunks, r);
    Associative(pending, Concat(chunks[..r]), chunks[r] + later);
    ParseExtends(d, pending + Concat(chunks[..r]), chunks[r] + later);
    Associative(known.rest, chunks[r], later);
    ParseExtends(d, known.rest + chunks[r], later);
  }

  lemma {:induction false} ConcatSplits(chunks: seq<seq<byte>>, r: nat)
    requires r < |chunks|
    ensures Concat(chunks) == Concat(chunks[..r]) + (chunks[r] + Concat(chunks[r + 1..]))
    decreases r
  {
    if r == 0 {
      assert chunks[..0] == [] && chunks[0 + 1..] == chunks[1..];
    } else {
      ConcatSplits(chunks[1..], r - 1);
      ConcatFirst(chunks, r);
      assert chunks[1..][r..] == chunks[r + 1..];
      Associative(chunks[0], Concat(chunks[1..][..r - 1]), chunks[r] + Concat(chunks[r + 1..]));
    }
  }

  /** The same bytes, cut differently: one event and 32 bytes of nonsense, in one chunk or in two. */
  lemma ChunkingMatters(e: Event)
    requires Producible(e)
    ensures var bad := Utf8.Zeros(HEADER_SIZE);
      && FeedAll(CSHARP, [], [Wire(e) + bad]).frames == []
      && FeedAll(CSHARP, [], [Wire(e), bad]).frames == [Expected(e)] == ParseStream(CSHARP, Wire(e) + bad).frames
  {
    hide Wire, Expected, ParseStream, FeedAll, Utf8.WellFormed, Utf8.CString;
    ParsesOfEvent(e);
    OneThenNonsense(Wire(e), Utf8.Zeros(HEADER_SIZE), Expected(e));
  }

  lemma ParsesOfEvent(e: Event)
    requires Producible(e)
    ensures var bad := Utf8.Zeros(HEADER_SIZE);
      && |Wire(e)| + |bad| <= BUFFER_SIZE && ParseStream(CSHARP, Wire(e) + bad)
        == Parse([Expected(e)], bad, Some(BadMagic))
      && ParseStream(CSHARP, Wire(e)) == Parse([Expected(e)], [], None)
        && ParseStream(CSHARP, bad) == Parse([], bad, Some(BadMagic))
  {
    hide Wire, Expected, ParseStream;
    RoundTrips(e);
    HeaderReads(e);
    NonsenseParses();
    OneFrame(CSHARP, Wire(e), Utf8.Zeros(HEADER_SIZE), Expected(e));
    OneFrame(CSHARP, Wire(e), [], Expected(e));
    assert Wire(e) + [] == Wire(e);
  }

  lemma OneThenNonsense(w: seq<byte>, bad: seq<byte>, frame: Frame)
    requires |w| + |bad| <= BUFFER_SIZE && ParseStream(CSHARP, w + bad) == Parse([frame], bad, Some(BadMagic))
    requires ParseStream(CSHARP, w) == Parse([frame], [], None)
      && ParseStream(CSHARP, bad) == Parse([], bad, Some(BadMagic))
    ensures FeedAll(CSHARP, [], [w + bad]).frames == [] && FeedAll(CSHARP, [], [w, bad]).frames == [frame]
  {
    hide ParseStream, FeedAll;
    FedWhole(w + bad, []);
    FedWhole(w, [bad]);
    FedWhole(bad, []);
    assert [w + bad] + [] == [w + bad] && [w] + [bad] == [w, bad] && [bad] + [] == [bad];
  }

  lemma NonsenseParses()
    ensures var bad := Utf8.Zeros(HEADER_SIZE); ParseStream(CSHARP, bad) == Parse([], bad, Some(BadMagic))
    ensures ParseStream(CSHARP, []) == Parse([], [], None)
  {
    assert Utf8.Zeros(HEADER_SIZE)[..4][0] == 0;
  }

  // The first chunk of a consumer that has nothing pending.
  lemma FedWhole(first: seq<byte>, later: seq<seq<byte>>)
    requires |first| <= BUFFER_SIZE
    ensures var p := ParseStream(CSHARP, first);
      if p.error.Some? then FeedAll(CSHARP, [], [first] + later) == Run([], p.rest, p.error)
      else FeedAll(CSHARP, [], [first] + later).frames == p.frames + FeedAll(CSHARP, p.rest, later).frames
  {
    hide ParseStream;
    assert [] + first == first && ([first] + later)[1..] == later;
  }

  predicate AllProducible(events: seq<Event>) { forall i | 0 <= i < |events| :: Producible(events[i]) }

  function WireAll(events: seq<Event>): seq<byte>
    requires AllProducible(events)
  {
    if events == [] then [] else Wire(events[0]) + WireAll(events[1..])
  }

  function ExpectedAll(events: seq<Event>): (frames: seq<Frame>)
    requires AllProducible(events)
    ensures |frames| == |events|
    ensures forall i | 0 <= i < |events| :: Producible(events[i]) && frames[i] == Expected(events[i])
  {
    if events == [] then [] else [Expected(events[0])] + ExpectedAll(events[1..])
  }

  lemma {:induction false} ParseWire(events: seq<Event>)
    requires AllProducible(events)
    ensures ParseStream(CSHARP, WireAll(events)) == Parse(ExpectedAll(events), [], None)
    decreases |events|
  {
    if events == [] {
    } else {
      var e, later := events[0], WireAll(events[1..]);
      ParseWire(events[1..]);
      RoundTrips(e);
      HeaderReads(e);
      SamePrefix(Wire(e), later);
      OneFrame(CSHARP, Wire(e), later, Expected(e));
    }
  }

  lemma OneFrame(d: Dialect, first: seq<byte>, later: seq<byte>, frame: Frame)
    requires HEADER_SIZE <= |first| <= MAX_FRAME_SIZE && U32At(first, 8) == |first|
    requires first[..4] == MAGIC && U16At(first, 4) == VERSION && d.decode(first) == Ok(frame)
    ensures var tail := ParseStream(d, later);
      ParseStream(d, first + later) == tail.(frames := [frame] + tail.frames)
  {
    SamePrefix(first, later);
    assert (first + later)[..|first|] == first && (first + later)[|first|..] == later;
  }

  /** Whatever the chunks, the consumer of a producer's frames sees exactly its events. */
  lemma DeliversEvents(events: seq<Event>, chunks: seq<seq<byte>>)
    requires AllProducible(events)
    requires Concat(chunks) == WireAll(events)
    requires forall i | 0 <= i < |chunks| :: |chunks[i]| <= MAX_FRAME_SIZE
    ensures FeedAll(CSHARP, [], chunks) == Run(ExpectedAll(events), [], None)
  {
    ParseWire(events);
    ChunkingInvariance(CSHARP, [], chunks);
    assert [] + Concat(chunks) == WireAll(events);
  }

  // ---------- The reassemblers as they run ----------

  class FrameAccumulator {
    const dialect: Dialect
    const buffer: array<byte>
    var count: nat

    ghost predicate Valid()
      reads this
    {
      buffer.Length == BUFFER_SIZE && count <= BUFFER_SIZE
    }

    ghost function Pending(): seq<byte>
      requires Valid()
      reads this, buffer
    {
      buffer[..count]
    }

    constructor ()
      ensures Valid() && Pending() == [] && fresh(buffer) && dialect == CSHARP
    {
      dialect := CSHARP;
      buffer := new byte[BUFFER_SIZE](_ => 0);
      count := 0;
    }

    // Looks at the head of the buffer without consuming it.
    method Peek() returns (next: Next)
      requires Valid()
      ensures next == NextFrame(dialect, Pending())
    {
      if count < HEADER_SIZE {
        return More;
      }
      var window := buffer[..count];
      var refused := StreamHeaderError(dialect, window);
      if refused.Some? {
        return Refused(refused.value, window);
      }
      var frameSize := U32At(window, 8);
      if count < frameSize {
        return More;
      }
      match dialect.decode(window[..frameSize])
      case Err(error) => next := Refused(error, if dialect.isCSharp then window else window[frameSize..]);
      case Ok(frame) => next := Ready(frame, frameSize);
    }

    // Shifts the bytes behind the first size bytes to the front.
    method Consume(size: nat)
      requires Valid() && size <= count
      modifies this, buffer
      ensures Valid() && Pending() == old(Pending())[size..] && count == old(count) - size
    {
      var remaining := count - size;
      forall i | 0 <= i < remaining {
        buffer[i] := buffer[size + i];
      }
      count := remaining;
    }

    method Append(data: array<byte>, size: nat)
      requires Valid() && data != buffer && size <= data.Length && count + size <= BUFFER_SIZE
      modifies this, buffer
      ensures Valid() && Pending() == old(Pending()) + data[..size]
    {
      forall i | 0 <= i < size {
        buffer[count + i] := data[i];
      }
      count := count + size;
    }

    // Takes every complete frame off the buffer.
    method Drain() returns (r: Result<seq<Frame>>)
      requires Valid()
      modifies this, buffer
      ensures Valid() && Drained(old(Pending()), Pending(), r)
    {
      ghost var all := Pending();
      var frames: seq<Frame> := [];
      while true
        invariant Valid() && Extends(Parse(frames, [], None), ParseStream(dialect, Pending()),
          ParseStream(dialect, all))
        decreases count
      {
        var next := Peek();
        match next
        case More =>
          assert frames + [] == frames;
          return Ok(frames);
        case Refused(error, _) =>
          return Err(error);
        case Ready(frame, frameSize) =>
          ghost var before := Pending();
          Consume(frameSize);
          Associative(frames, [frame], ParseStream(dialect, Pending()).frames);
          frames := frames + [frame];
      }
    }

    ghost predicate Drained(before: seq<byte>, after: seq<byte>, r: Result<seq<Frame>>) {
      var p := ParseStream(dialect, before);
      r.Ok? == p.error.None? && (r.Ok? ==> r.value == p.frames && after == p.rest)
        && (r.Err? ==> Some(r.error) == p.error)
    }

    /** One read from the pipe: the first size bytes of data. */
    method Feed(data: array<byte>, size: nat) returns (r: Result<seq<Frame>>)
      requires Valid() && data != buffer && size <= data.Length
      modifies this, buffer
      ensures Valid()
      ensures |old(Pending())| + size > BUFFER_SIZE ==> r == Err(BufferExceeded) && Pending() == old(Pending())
      ensures |old(Pending())| + size <= BUFFER_SIZE ==> Drained(old(Pending()) + data[..size], Pending(), r)
    {
      if count > BUFFER_SIZE - size {
        return Err(BufferExceeded);
      }
      Append(data, size);
      r := Drain();
    }

    /** At the end of the stream an unfinished frame is an error. */
    method Complete() returns (r: Result<()>)
      requires Valid()
      ensures r == if Pending() == [] then Ok(()) else Err(TruncatedAtDisconnect)
    {
      r := if count != 0 then Err(TruncatedAtDisconnect) else Ok(());
    }
  }

  class ByteArray {
    var bytes: seq<byte>

    /** Runs the generator to its end: the frames it yields, then the error it raises. */
    method IterFrames() returns (frames: seq<Frame>, error: Option<ProtocolError>)
      modifies this
      ensures ParseStream(PYTHON, old(bytes)) == Parse(frames, bytes, error)
    {
      frames := [];
      while |bytes| >= HEADER_SIZE
        invariant var left, whole := ParseStream(PYTHON, bytes), ParseStream(PYTHON, old(bytes));
          whole == left.(frames := frames + left.frames)
        decreases |bytes|
      {
        var refused := StreamHeaderError(PYTHON, bytes);
        if refused.Some? {
          return frames, refused;
        }
        var frameSize := U32At(bytes, 8);
        if |bytes| < frameSize {
          return frames, None;
        }
        var chunk := bytes[..frameSize];
        bytes := bytes[frameSize..];
        var decoded := DecodePython(chunk);
        if decoded.Err? {
          return frames, Some(decoded.error);
        }
        frames := frames + [decoded.value];
      }
      return frames, None;
    }
  }

  method UnpackConditions(raw: seq<byte>, count: nat) returns (conditions: seq<Condition>)
    requires |raw| >= 424 && count <= MAX_AXES
    ensures conditions == ConditionsAt(raw, count)
  {
    conditions := [];
    for index := 0 to MAX_AXES
      invariant |conditions| == Min(index, count)
      invariant forall k | 0 <= k < |conditions| :: conditions[k] == ConditionAt(raw, k)
    {
      var condition := ConditionAt(raw, index);
      if index < count {
        conditions := conditions + [condition];
      }
    }
  }

  lemma SignedWordsPrefix(raw: seq<byte>, j: nat, count: nat)
    requires |raw| >= 424 && count <= MAX_AXES && 8 <= j <= 39
    ensures SignedWordsAt(raw, j, MAX_AXES)[..count] == SignedWordsAt(raw, j, count)
  {
    hide Word;
  }

  /** decode_frame: fixed-offset unpacking and one loop over the eight condition slots. */
  method DecodePython(raw: seq<byte>) returns (r: Result<Frame>)
    ensures r == PyDecode(raw)
  {
    hide HeaderError, U16At, U32At, U64At, Word, BaseAt, SignedWordsAt, Utf8.CString;
    if |raw| < HEADER_SIZE {
      return Err(TruncatedHeader);
    }
    if HeaderError(raw).Some? {
      return Err(HeaderError(raw).value);
    }
    var frameSize := U32At(raw, 8);
    if frameSize < HEADER_SIZE || frameSize > MAX_FRAME_SIZE || frameSize != |raw| {
      return Err(InvalidFrameSize);
    }
    if |raw| - HEADER_SIZE < 124 + MAX_AXES * 4 * 2 + 4 + MAX_AXES * 24 + 74 {
      return Err(TruncatedPayload);
    }
    var axisCount := Word(raw, 30);
    if axisCount > MAX_AXES {
      return Err(AxisCountExceeded);
    }
    if Word(raw, 47) > MAX_AXES {
      return Err(ConditionCountExceeded);
    }
    var axes, directions := SignedWordsAt(raw, 31, MAX_AXES), SignedWordsAt(raw, 39, MAX_AXES);
    SignedWordsPrefix(raw, 31, axisCount);
    SignedWordsPrefix(raw, 39, axisCount);
    var conditions := UnpackConditions(raw, Word(raw, 47));
    var textLength := U16At(raw, 488);
    var end := 490 + textLength as int;
    if textLength > 63 || end > |raw| {
      return Err(InvalidTextLength);
    }
    var trailing := |raw| - end;
    if trailing != 0 && trailing != 4 {
      return Err(InvalidTrailingPayload);
    }
    var kind, command := UNKNOWN_KIND, 0;
    if trailing == 4 {
      kind, command := U16At(raw, end), U16At(raw, end + 2);
    }
    r := Ok(BaseAt(raw, Unknown).(
      axes := axes[..axisCount], directions := directions[..axisCount], conditions := conditions,
      typeSpecificSize := Word(raw, 96), customRedacted := Word(raw, 97) != 0,
      buildVersion := Utf8.CString(raw[424..456]), sessionId := Utf8.CString(raw[456..488]),
      text := raw[490..end], effectKind := kind, effectCommand := command));
  }
}
