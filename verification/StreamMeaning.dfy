/** What reading a byte stream amounts to, in terms of how the stream can be cut into frames. */
module StreamMeaning {
  import opened Bytes
  import opened Protocol
  import opened Streams
  import WireMeaning

  predicate Magic(s: seq<byte>)
    requires |s| >= 32
  {
    s[0] == 'F' as int && s[1] == 'F' as int && s[2] == 'B' as int && s[3] == '1' as int
  }

  function Version(s: seq<byte>): nat
    requires |s| >= 32
  {
    WireMeaning.Number(s, 4, 2)
  }

  function Size(s: seq<byte>): nat
    requires |s| >= 32
  {
    WireMeaning.Number(s, 8, 4)
  }

  /** The reassembler looks for the body: at least a header, of its kind, and a size it allows. */
  predicate Begins(d: Dialect, s: seq<byte>)
    requires |s| >= 32
  {
    Magic(s) && (d.isCSharp ==> Version(s) == 1) && 32 <= Size(s) <= 65536
  }

  /** The bytes are one whole frame that the decoder takes. */
  predicate IsFrame(d: Dialect, b: seq<byte>) { |b| >= 32 && Begins(d, b) && Size(b) == |b| && d.decode(b).Ok? }

  predicate AllFrames(d: Dialect, blocks: seq<seq<byte>>) { forall i | 0 <= i < |blocks| :: IsFrame(d, blocks[i]) }

  /** What stops a reassembler in front of some bytes, and what it leaves in its buffer: nothing, if it only waits. */
  predicate Stops(d: Dialect, s: seq<byte>, error: Option<ProtocolError>, left: seq<byte>) {
    if |s| < 32 then error == None && left == s
    else if !Magic(s) then error == Some(BadMagic) && left == s
    else if d.isCSharp && Version(s) != 1 then error == Some(UnsupportedVersion) && left == s
    else if !(32 <= Size(s) <= 65536) then error == Some(InvalidFrameSize) && left == s
    else if |s| < Size(s) then error == None && left == s
    else
      var r := d.decode(s[..Size(s)]);
      r.Err? && error == Some(r.error) && left == if d.isCSharp then s else s[Size(s)..]
  }

  lemma NextMeans(d: Dialect, s: seq<byte>)
    ensures match NextFrame(d, s)
      case More => Stops(d, s, None, s)
      case Refused(error, rest) => Stops(d, s, Some(error), rest)
      case Ready(frame, size) =>
        && 32 <= size <= |s| && Size(s) == size && Begins(d, s)
        && IsFrame(d, s[..size]) && d.decode(s[..size]) == Ok(frame)
  {
    hide WireMeaning.Number, U16At, U32At;
    if |s| >= 32 {
      WireMeaning.Numbers(s, 4);
      WireMeaning.Numbers(s, 8);
      WireMeaning.MagicIs(s);
      var size := U32At(s, 8);
      if 32 <= size <= |s| {
        SamePrefix(s[..size], s[size..]);
        assert s[..size] + s[size..] == s;
        WireMeaning.Numbers(s[..size], 4);
        WireMeaning.Numbers(s[..size], 8);
      }
    }
  }

  // A whole frame in front is taken first.
  lemma FrameIsReady(d: Dialect, b: seq<byte>, later: seq<byte>)
    requires IsFrame(d, b)
    ensures NextFrame(d, b + later) == Ready(d.decode(b).value, |b|)
  {
    hide WireMeaning.Number, U16At, U32At;
    SamePrefix(b, later);
    WireMeaning.Numbers(b, 4);
    WireMeaning.Numbers(b, 8);
    WireMeaning.MagicIs(b);
    assert (b + later)[..|b|] == b;
  }

  lemma StopIsNext(d: Dialect, s: seq<byte>, error: Option<ProtocolError>, left: seq<byte>)
    requires Stops(d, s, error, left)
    ensures ParseStream(d, s) == Parse([], left, error)
  {
    NextMeans(d, s);
    hide WireMeaning.Number, U16At, U32At, Magic, NextFrame;
  }

  /** The decoded blocks. */
  function Decoded(d: Dialect, blocks: seq<seq<byte>>): (frames: seq<Frame>)
    requires AllFrames(d, blocks)
    ensures |frames| == |blocks| && forall i | 0 <= i < |frames| :: d.decode(blocks[i]) == Ok(frames[i])
  {
    if blocks == [] then [] else [d.decode(blocks[0]).value] + Decoded(d, blocks[1..])
  }

  /** Whenever a stream is whole frames and then bytes that stop the reader, it yields those frames and stops there. */
  lemma {:induction false} FramesAreRead(d: Dialect, blocks: seq<seq<byte>>, tail: seq<byte>,
      error: Option<ProtocolError>, left: seq<byte>)
    requires AllFrames(d, blocks) && Stops(d, tail, error, left)
    ensures ParseStream(d, Concat(blocks) + tail) == Parse(Decoded(d, blocks), left, error)
    decreases blocks
  {
    hide NextFrame, Stops, IsFrame;
    if blocks == [] {
      assert Concat(blocks) + tail == tail;
      StopIsNext(d, tail, error, left);
    } else {
      var later := Concat(blocks[1..]) + tail;
      Associative(blocks[0], Concat(blocks[1..]), tail);
      FrameIsReady(d, blocks[0], later);
      assert (blocks[0] + later)[|blocks[0]|..] == later;
      FramesAreRead(d, blocks[1..], tail, error, left);
    }
  }

  ghost predicate Cuts(d: Dialect, s: seq<byte>, blocks: seq<seq<byte>>, tail: seq<byte>,
      error: Option<ProtocolError>, left: seq<byte>) {
    AllFrames(d, blocks) && Concat(blocks) + tail == s && Stops(d, tail, error, left)
  }

  ghost predicate CanBeCut(d: Dialect, s: seq<byte>) {
    exists blocks, tail, error, left :: Cuts(d, s, blocks, tail, error, left)
  }

  lemma {:induction false} EveryStreamIsCut(d: Dialect, s: seq<byte>)
    ensures CanBeCut(d, s)
    decreases |s|
  {
    NextMeans(d, s);
    hide IsFrame, Stops;
    match NextFrame(d, s)
    case More =>
      assert Concat([]) + s == s;
      assert Cuts(d, s, [], s, None, s);
    case Refused(error, rest) =>
      assert Concat([]) + s == s;
      assert Cuts(d, s, [], s, Some(error), rest);
    case Ready(_, size) =>
      EveryStreamIsCut(d, s[size..]);
      var blocks, tail, error, left :| Cuts(d, s[size..], blocks, tail, error, left);
      var all := [s[..size]] + blocks;
      assert all[1..] == blocks;
      Associative(s[..size], Concat(blocks), tail);
      assert s[..size] + s[size..] == s;
      assert Cuts(d, s, all, tail, error, left);
  }

  /**
   Reading a stream: it can be cut into whole frames and bytes that stop the reader, and wherever it is cut so,
   the reader yields these frames, stops with this error, and keeps these bytes.
   */
  lemma ReadingMeans(d: Dialect, s: seq<byte>)
    ensures CanBeCut(d, s)
    ensures forall blocks, tail, error, left :: Cuts(d, s, blocks, tail, error, left) ==>
      ParseStream(d, s) == Parse(Decoded(d, blocks), left, error)
  {
    hide AllFrames, Stops, Concat;
    EveryStreamIsCut(d, s);
    forall blocks, tail, error, left | Cuts(d, s, blocks, tail, error, left)
      ensures ParseStream(d, s) == Parse(Decoded(d, blocks), left, error)
    {
      FramesAreRead(d, blocks, tail, error, left);
    }
  }
}
