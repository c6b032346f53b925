/** One client thread of the pipe server, from its first read to its report that the client is gone. */
module ClientThread {
  import opened Bytes
  import opened Protocol
  import opened Streams
  import opened Settings
  import opened Sources
  import opened Engine
  import opened EngineSafety
  import EngineRuns
  import opened ClippingEngines
  import opened Receiver
  import opened Delivery

  const READ_BUFFER := 8192

  // ---------- What a thread does, on values ----------

  /** What it knows after some frames. */
  function SeenAll(c: Client, frames: seq<Frame>): Client
    decreases frames
  {
    if frames == [] then c else SeenAll(Seen(c, frames[0]), frames[1..])
  }

  /** The detector after the frames that pass. */
  function Passes(d: Detector, c: Client, connection: Guid, arrivals: seq<Arrival>): Detector
    decreases arrivals
  {
    if arrivals == [] || Check(c, arrivals[0].frame).Refuse? then d
    else Passes(Passed(d, c, connection, arrivals[0]), Seen(c, arrivals[0].frame), connection, arrivals[1..])
  }

  /** The frames that pass make exactly the thread's calls on the detector. */
  lemma {:induction false} PassesIsRun(d: Detector, c: Client, connection: Guid, arrivals: seq<Arrival>,
      sine: real -> real)
    requires DetectorInv(d)
    ensures Passes(d, c, connection, arrivals) == EngineRuns.Run(d, ClientCalls(c, connection, arrivals), sine)
    decreases arrivals
  {
    hide DetectorInv, Check, Seen, Passed, EngineRuns.Do, CallOf;
    if arrivals == [] || Check(c, arrivals[0].frame).Refuse? {
    } else {
      var calls := ClientCalls(c, connection, arrivals);
      assert calls[1..] == ClientCalls(Seen(c, arrivals[0].frame), connection, arrivals[1..]);
      EngineRuns.InvNormal(d);
      CallIsPassed(d, c, connection, arrivals[0], sine);
      EngineRuns.CallKeeps(d, calls[0], sine);
      PassesIsRun(Passed(d, c, connection, arrivals[0]), Seen(c, arrivals[0].frame), connection, arrivals[1..], sine);
    }
  }

  predicate AllPass(c: Client, frames: seq<Frame>) { Accepted(c, frames) == (frames, None) }

  lemma PassFirst(c: Client, frames: seq<Frame>)
    requires frames != []
    ensures AllPass(c, frames) <==> !Check(c, frames[0]).Refuse? && AllPass(Seen(c, frames[0]), frames[1..])
  {
    var rest := Accepted(Seen(c, frames[0]), frames[1..]);
    if !Check(c, frames[0]).Refuse? {
      assert Accepted(c, frames) == ([frames[0]] + rest.0, rest.1);
      assert ([frames[0]] + rest.0)[1..] == rest.0;
      assert [frames[0]] + frames[1..] == frames;
    }
  }

  /** Behind frames that pass, what becomes of the later ones is decided by what the thread knows by then. */
  lemma {:induction false} AcceptedSplits(c: Client, first: seq<Frame>, later: seq<Frame>)
    requires AllPass(c, first)
    ensures var rest := Accepted(SeenAll(c, first), later); Accepted(c, first + later) == (first + rest.0, rest.1)
    decreases first
  {
    hide Check, Seen;
    if first == [] {
      assert first + later == later && first + Accepted(c, later).0 == Accepted(c, later).0;
    } else {
      assert (first + later)[1..] == first[1..] + later;
      PassFirst(c, first);
      AcceptedSplits(Seen(c, first[0]), first[1..], later);
      Associative([first[0]], first[1..], Accepted(SeenAll(c, first), later).0);
    }
  }

  // What comes behind a refused frame changes nothing.
  lemma {:induction false} RefusedStays(c: Client, first: seq<Frame>, later: seq<Frame>)
    requires Accepted(c, first).1.Some?
    ensures Accepted(c, first + later) == Accepted(c, first)
    decreases first
  {
    hide Check, Seen;
    assert (first + later)[0] == first[0];
    if !Check(c, first[0]).Refuse? {
      assert (first + later)[1..] == first[1..] + later;
      RefusedStays(Seen(c, first[0]), first[1..], later);
    }
  }

  lemma {:induction false} PassesSnoc(d: Detector, c: Client, connection: Guid, arrivals: seq<Arrival>, a: Arrival)
    requires AllPass(c, Arrived(arrivals)) && !Check(SeenAll(c, Arrived(arrivals)), a.frame).Refuse?
    ensures var frames := Arrived(arrivals);
      && Arrived(arrivals + [a]) == frames + [a.frame] && AllPass(c, Arrived(arrivals + [a]))
      && SeenAll(c, Arrived(arrivals + [a])) == Seen(SeenAll(c, frames), a.frame)
      && Passes(d, c, connection, arrivals + [a])
        == Passed(Passes(d, c, connection, arrivals), SeenAll(c, frames), connection, a)
    decreases arrivals
  {
    hide Check, Seen, Passed, AllPass;
    var frames, more := Arrived(arrivals), arrivals + [a];
    assert Arrived(more) == frames + [a.frame];
    if arrivals == [] {
      assert more[1..] == [] && Arrived(more)[1..] == [];
      PassFirst(c, Arrived(more));
      PassNone(Seen(c, a.frame));
    } else {
      assert more[1..] == arrivals[1..] + [a] && frames[1..] == Arrived(arrivals[1..]);
      assert Arrived(more)[1..] == Arrived(more[1..]);
      PassFirst(c, frames);
      PassFirst(c, Arrived(more));
      PassesSnoc(Passed(d, c, connection, arrivals[0]), Seen(c, frames[0]), connection, arrivals[1..], a);
    }
  }

  lemma PassNone(c: Client)
    ensures AllPass(c, [])
  {
  }

  // ---------- The thread as it runs ----------

  /** The keys of the table in some order. */
  method Enumerated(engine: ClippingEngine) returns (order: seq<SourceKey>)
    ensures Enumerates(order, engine.sources.Keys)
  {
    order := [];
    var left := engine.sources.Keys;
    while left != {}
      invariant left <= engine.sources.Keys
      invariant Enumerates(order, engine.sources.Keys - left)
      decreases |left|
    {
      var key :| key in left;
      left := left - {key};
      order := order + [key];
    }
  }

  /** The frames of one read, one after the other, until one is refused. */
  method HandleAll(client: PipeClient, engine: ClippingEngine, frames: seq<Frame>, ghost c: Client, ghost d: Detector,
      ghost before: seq<Arrival>) returns (refused: bool, ghost arrivals: seq<Arrival>)
    requires engine.Valid() && AllPass(c, Arrived(before)) && client.State() == SeenAll(c, Arrived(before))
    requires engine.Value() == Passes(d, c, client.connection, before)
    modifies client, engine, engine.sources.Values
    ensures engine.Valid() && fresh(engine.sources.Values - old(engine.sources.Values))
    ensures AllPass(c, Arrived(arrivals)) && client.sourceKey == SeenAll(c, Arrived(arrivals)).key
    ensures engine.Value() == Passes(d, c, client.connection, arrivals)
    ensures refused <==> Accepted(c, Arrived(before) + frames).1.Some?
    ensures Arrived(arrivals) == Accepted(c, Arrived(before) + frames).0
    ensures !refused ==> Arrived(arrivals) == Arrived(before) + frames && client.State() == SeenAll(c, Arrived(arrivals))
  {
    hide Check, Seen, Passed, Passes, Accepted, SeenAll, AllPass;
    arrivals := before;
    for i := 0 to |frames|
      invariant engine.Valid() && fresh(engine.sources.Values - old(engine.sources.Values))
      invariant Arrived(arrivals) == Arrived(before) + frames[..i]
      invariant AllPass(c, Arrived(arrivals)) && client.State() == SeenAll(c, Arrived(arrivals))
      invariant engine.Value() == Passes(d, c, client.connection, arrivals)
    {
      var now: real := *;
      var order := Enumerated(engine);
      var no := client.Handle(engine, frames[i], now, order);
      var a := Arrival(frames[i], now, order);
      Associative(Arrived(before), frames[..i], frames[i..]);
      assert frames[..i] + frames[i..] == frames;
      if no {
        RefusedBehind(c, Arrived(arrivals), frames[i..]);
        return true, arrivals;
      }
      PassesSnoc(d, c, client.connection, arrivals, a);
      assert frames[..i + 1] == frames[..i] + [frames[i]];
      Associative(Arrived(before), frames[..i], [frames[i]]);
      arrivals := arrivals + [a];
    }
    assert frames[..|frames|] == frames;
    AllPassIs(c, Arrived(arrivals));
    refused := false;
  }

  lemma AllPassIs(c: Client, frames: seq<Frame>)
    ensures AllPass(c, frames) <==> Accepted(c, frames) == (frames, None)
  {
  }

  // The first refused frame ends it.
  lemma RefusedBehind(c: Client, first: seq<Frame>, later: seq<Frame>)
    requires AllPass(c, first) && later != [] && Check(SeenAll(c, first), later[0]).Refuse?
    ensures Accepted(c, first + later).0 == first && Accepted(c, first + later).1.Some?
  {
    hide Check, SeenAll;
    AcceptedSplits(c, first, later);
    assert first + [] == first;
  }

  /** One read: its frames are handled, or it is refused as a whole. */
  method ReadOne(client: PipeClient, accumulator: FrameAccumulator, engine: ClippingEngine, buffer: array<byte>,
      chunk: seq<byte>, ghost c: Client, ghost d: Detector, ghost before: seq<Arrival>)
    returns (failed: bool, ghost arrivals: seq<Arrival>)
    requires engine.Valid() && accumulator.Valid() && accumulator.dialect == CSHARP
    requires buffer != accumulator.buffer && |chunk| <= buffer.Length
    requires AllPass(c, Arrived(before)) && client.State() == SeenAll(c, Arrived(before))
    requires engine.Value() == Passes(d, c, client.connection, before)
    modifies client, accumulator, accumulator.buffer, buffer, engine, engine.sources.Values
    ensures engine.Valid() && fresh(engine.sources.Values - old(engine.sources.Values)) && accumulator.Valid()
    ensures AllPass(c, Arrived(arrivals)) && client.sourceKey == SeenAll(c, Arrived(arrivals)).key
    ensures engine.Value() == Passes(d, c, client.connection, arrivals)
    ensures !failed ==> client.State() == SeenAll(c, Arrived(arrivals))
    ensures forall later: seq<seq<byte>> :: ReadIs(c, old(accumulator.Pending()), chunk, later, Arrived(before),
      accumulator.Pending(), failed, Arrived(arrivals))
  {
    hide FeedAll, ParseStream, Passes, Accepted, SeenAll, AllPass, ReadIs, ClippingEngine.Valid, Arrived;
    Fill(buffer, chunk);
    ghost var pending := accumulator.Pending();
    var read := accumulator.Feed(buffer, |chunk|);
    match read
    case Err(_) =>
      failed, arrivals := true, before;
      RefusedRead(c, pending, chunk, Arrived(before), accumulator.Pending());
    case Ok(taken) =>
      failed, arrivals := HandleAll(client, engine, taken, c, d, before);
      HandledRead(c, pending, chunk, Arrived(before), accumulator.Pending(), failed, Arrived(arrivals));
  }

  /**
   What one read makes of all frames still to come: they are decided, or the later reads bring the rest of
   them.
   */
  predicate ReadIs(c: Client, pending: seq<byte>, chunk: seq<byte>, later: seq<seq<byte>>, before: seq<Frame>,
      left: seq<byte>, failed: bool, after: seq<Frame>) {
    var now, next := FeedAll(CSHARP, pending, [chunk] + later), FeedAll(CSHARP, left, later);
    if failed then
      && after == Accepted(c, before + now.frames).0
      && (now.error.Some? || Accepted(c, before + now.frames).1.Some?)
    else before + now.frames == after + next.frames && now.pending == next.pending && now.error == next.error
  }

  lemma RefusedRead(c: Client, pending: seq<byte>, chunk: seq<byte>, before: seq<Frame>, left: seq<byte>)
    requires AllPass(c, before)
    requires |pending| + |chunk| > BUFFER_SIZE || ParseStream(CSHARP, pending + chunk).error.Some?
    ensures forall later: seq<seq<byte>> :: ReadIs(c, pending, chunk, later, before, left, true, before)
  {
    hide FeedAll, ParseStream, Accepted, AllPass;
    forall later: seq<seq<byte>>
      ensures ReadIs(c, pending, chunk, later, before, left, true, before)
    {
      FedNext(pending, [chunk] + later);
      AllPassIs(c, before);
      assert before + [] == before;
    }
  }

  lemma HandledRead(c: Client, pending: seq<byte>, chunk: seq<byte>, before: seq<Frame>, left: seq<byte>,
      failed: bool, after: seq<Frame>)
    requires |pending| + |chunk| <= BUFFER_SIZE
    requires var p := ParseStream(CSHARP, pending + chunk);
      && p.error.None? && p.rest == left && (failed <==> Accepted(c, before + p.frames).1.Some?)
      && after == (if failed then Accepted(c, before + p.frames).0 else before + p.frames)
    ensures forall later: seq<seq<byte>> :: ReadIs(c, pending, chunk, later, before, left, failed, after)
  {
    hide FeedAll, ParseStream, Accepted;
    forall later: seq<seq<byte>>
      ensures ReadIs(c, pending, chunk, later, before, left, failed, after)
    {
      FedNext(pending, [chunk] + later);
      assert ([chunk] + later)[1..] == later;
      var p, next := ParseStream(CSHARP, pending + chunk), FeedAll(CSHARP, left, later);
      Associative(before, p.frames, next.frames);
      if failed {
        RefusedStays(c, before + p.frames, next.frames);
      }
    }
  }

  /**
   The thread: it reads until the pipe ends, something is refused or the bytes are no frames, and reports the
   client gone if it got as far as its greeting. The detector has then been given exactly the frames that pass of
   those the reassembler delivers, and an error was met exactly when the reassembler met one, was left with an
   unfinished frame, or a frame was refused.
   */
  method RunClient(client: PipeClient, accumulator: FrameAccumulator, engine: ClippingEngine, chunks: seq<seq<byte>>)
    returns (failed: bool, gone: real, ghost arrivals: seq<Arrival>)
    requires engine.Valid() && accumulator.Valid() && accumulator.Pending() == [] && accumulator.dialect == CSHARP
    requires client.State() == Client(client.processId, None, None)
    requires forall i | 0 <= i < |chunks| :: |chunks[i]| <= READ_BUFFER
    modifies client, accumulator, accumulator.buffer, engine, engine.sources.Values
    ensures engine.Valid()
    ensures var (c, run) := (Client(client.processId, None, None), FeedAll(CSHARP, [], chunks));
      && Arrived(arrivals) == Accepted(c, run.frames).0
      && (failed <==> run.error.Some? || run.pending != [] || Accepted(c, run.frames).1.Some?)
      && Finished(old(engine.Value()), c, client.connection, arrivals, gone, engine.Value())
  {
    hide FeedAll, ParseStream, Passes, Accepted, SeenAll, AllPass, ReadIs, Engine.Disconnect, ClippingEngine.Valid,
      Arrived, StillToCome;
    ghost var c, d := Client(client.processId, None, None), engine.Value();
    arrivals, failed := [], false;
    gone := *;
    Nothing(d, c, client.connection);
    NothingRead(c, chunks);
    var buffer := new byte[READ_BUFFER](_ => 0);
    ghost var whole := FeedAll(CSHARP, [], chunks);
    var i := 0;
    assert chunks[0..] == chunks;
    while i < |chunks| && !failed
      invariant 0 <= i <= |chunks| && engine.Valid() && fresh(engine.sources.Values - old(engine.sources.Values))
      invariant accumulator.Valid()
      invariant StillToCome(c, accumulator.Pending(), chunks[i..], failed, Arrived(arrivals), whole)
      invariant AllPass(c, Arrived(arrivals)) && client.sourceKey == SeenAll(c, Arrived(arrivals)).key
      invariant !failed ==> client.State() == SeenAll(c, Arrived(arrivals))
      invariant engine.Value() == Passes(d, c, client.connection, arrivals)
      decreases |chunks| - i, !failed
    {
      ghost var pending, before := accumulator.Pending(), Arrived(arrivals);
      failed, arrivals := ReadOne(client, accumulator, engine, buffer, chunks[i], c, d, arrivals);
      NextRead(c, pending, chunks[i..], before, accumulator.Pending(), failed, Arrived(arrivals), whole);
      assert chunks[i..][1..] == chunks[i + 1..];
      i := i + 1;
    }
    if !failed {
      AllRead(c, accumulator.Pending(), Arrived(arrivals), whole);
      var end := accumulator.Complete();
      failed := end.Err?;
    } else {
      Decided(c, accumulator.Pending(), chunks[i..], Arrived(arrivals), whole);
    }
    ghost var n := engine.Value();
    client.Finish(engine, gone);
    FinishedIs(d, c, client.connection, arrivals, gone, n, engine.Value());
  }

  /** What the thread leaves the detector as. */
  predicate Finished(d: Detector, c: Client, connection: Guid, arrivals: seq<Arrival>, gone: real, after: Detector) {
    var (n, key) := (Passes(d, c, connection, arrivals), SeenAll(c, Arrived(arrivals)).key);
    after == if key.Some? then Engine.Disconnect(n, key.value, connection, gone) else n
  }

  lemma FinishedIs(d: Detector, c: Client, connection: Guid, arrivals: seq<Arrival>, gone: real, n: Detector,
      after: Detector)
    requires n == Passes(d, c, connection, arrivals)
    requires var key := SeenAll(c, Arrived(arrivals)).key;
      after == if key.Some? then Engine.Disconnect(n, key.value, connection, gone) else n
    ensures Finished(d, c, connection, arrivals, gone, after)
  {
  }

  // What has been handled and what the later reads bring are all there is, unless that is decided.
  predicate StillToCome(c: Client, pending: seq<byte>, later: seq<seq<byte>>, failed: bool, done: seq<Frame>,
      whole: Run) {
    if failed then done == Accepted(c, whole.frames).0 && (whole.error.Some? || Accepted(c, whole.frames).1.Some?)
    else
      var rest := FeedAll(CSHARP, pending, later);
      whole == Run(done + rest.frames, rest.pending, rest.error)
  }

  lemma NothingRead(c: Client, chunks: seq<seq<byte>>)
    ensures StillToCome(c, [], chunks, false, Arrived([]), FeedAll(CSHARP, [], chunks))
  {
    hide FeedAll;
    var whole := FeedAll(CSHARP, [], chunks);
    assert Arrived([]) == [] && [] + whole.frames == whole.frames;
  }

  lemma Decided(c: Client, pending: seq<byte>, later: seq<seq<byte>>, done: seq<Frame>, whole: Run)
    requires StillToCome(c, pending, later, true, done, whole)
    ensures done == Accepted(c, whole.frames).0 && (whole.error.Some? || Accepted(c, whole.frames).1.Some?)
  {
  }

  lemma NextRead(c: Client, pending: seq<byte>, chunks: seq<seq<byte>>, before: seq<Frame>, left: seq<byte>,
      failed: bool, after: seq<Frame>, whole: Run)
    requires chunks != [] && StillToCome(c, pending, chunks, false, before, whole)
    requires ReadIs(c, pending, chunks[0], chunks[1..], before, left, failed, after)
    ensures StillToCome(c, left, chunks[1..], failed, after, whole)
  {
    hide FeedAll, Accepted;
    assert [chunks[0]] + chunks[1..] == chunks;
  }

  lemma AllRead(c: Client, pending: seq<byte>, done: seq<Frame>, whole: Run)
    requires StillToCome(c, pending, [], false, done, whole) && AllPass(c, done)
    ensures whole == Run(done, pending, None) && Accepted(c, whole.frames) == (done, None)
  {
    FedNothing(pending);
    assert done + [] == done;
  }

  // The bytes of a read.
  method Fill(buffer: array<byte>, bytes: seq<byte>)
    requires |bytes| <= buffer.Length
    modifies buffer
    ensures buffer[..|bytes|] == bytes
  {
    forall k | 0 <= k < |bytes| {
      buffer[k] := bytes[k];
    }
  }

  lemma Nothing(d: Detector, c: Client, connection: Guid)
    ensures AllPass(c, []) && SeenAll(c, []) == c && Passes(d, c, connection, []) == d
  {
  }

  lemma FedNothing(pending: seq<byte>)
    ensures FeedAll(CSHARP, pending, []) == Run([], pending, None)
  {
  }

  lemma FedNext(pending: seq<byte>, chunks: seq<seq<byte>>)
    requires chunks != []
    ensures var p := ParseStream(CSHARP, pending + chunks[0]);
      FeedAll(CSHARP, pending, chunks) ==
        if |pending| + |chunks[0]| > BUFFER_SIZE then Run([], pending, Some(BufferExceeded))
        else if p.error.Some? then Run([], p.rest, p.error)
        else
          var later := FeedAll(CSHARP, p.rest, chunks[1..]);
          Run(p.frames + later.frames, later.pending, later.error)
  {
    hide ParseStream;
  }
}
