/** The C++ serializer as it runs: calls that append to a byte vector. */
module Serializer {
  import opened Bytes
  import opened Utf8
  import opened Protocol

  // One append call.
  datatype Item = Half(h: u16) | Single(w: u32) | Double(d: u64) | Raw(bytes: seq<byte>)

  function Image(item: Item): seq<byte> {
    match item
    case Half(h) => Le16(h)
    case Single(w) => Le32(w)
    case Double(d) => Le64(d)
    case Raw(bytes) => bytes
  }

  function Images(items: seq<Item>): seq<byte> {
    if items == [] then [] else Images(items[..|items| - 1]) + Image(items[|items| - 1])
  }

  function Singles(words: seq<u32>): (r: seq<Item>)
    ensures |r| == |words|
    ensures forall i | 0 <= i < |words| :: r[i] == Single(words[i])
  {
    seq(|words|, i requires 0 <= i < |words| => Single(words[i]))
  }

  lemma ImagesSnoc(items: seq<Item>, last: Item)
    ensures Images(items + [last]) == Images(items) + Image(last)
  {
    assert (items + [last])[..|items|] == items;
  }

  lemma {:induction false} ImagesAppend(a: seq<Item>, b: seq<Item>)
    ensures Images(a + b) == Images(a) + Images(b)
    decreases |b|
  {
    if b == [] {
      assert a + b == a;
    } else {
      var front, last := b[..|b| - 1], b[|b| - 1];
      var image := Image(last);
      ImagesAppend(a, front);
      calc {
        Images(a + b);
        { assert a + b == a + front + [last]; }
        Images(a + front + [last]);
        { ImagesSnoc(a + front, last); }
        Images(a + front) + image;
        (Images(a) + Images(front)) + image;
        { Associative(Images(a), Images(front), image); }
        Images(a) + (Images(front) + image);
        { assert b == front + [last]; ImagesSnoc(front, last); }
        Images(a) + Images(b);
      }
    }
  }

  /** The least significant bytes of a value, lowest first. */
  function Low(v: u64, count: nat): (r: seq<byte>)
    ensures |r| == count
  {
    if count == 0 then [] else [v % 0x100] + Low(v / 0x100, count - 1)
  }

  lemma LowOfWord(v: u32)
    ensures Low(v, 4) == Le32(v)
  {
    var v1, v2, v3 := v / 0x100, v / 0x1_0000, v / 0x100_0000;
    assert v1 / 0x100 == v2 && v2 / 0x100 == v3;
    assert Low(v3, 1) == [v3];
    assert Low(v2, 2) == [v2 % 0x100, v3];
    assert Low(v1, 3) == [v1 % 0x100, v2 % 0x100, v3];
  }

  lemma LowOfHalf(v: u16)
    ensures Low(v, 2) == Le16(v)
  {
    assert Low(v / 0x100, 1) == [v / 0x100];
  }

  // A digit of a value with more on top of it.
  lemma LowSplits(low: nat, high: nat, scale: nat)
    requires low < scale * 0x100 && low + scale * 0x100 * high < 0x1_0000_0000_0000_0000
    ensures var v := low + scale * 0x100 * high;
      v % 0x100 == low % 0x100 && v / 0x100 == low / 0x100 + scale * high
  {
    var v := low + scale * 0x100 * high;
    assert v == low + 0x100 * (scale * high);
  }

  lemma LowStep(v: u64, count: nat)
    requires count > 0
    ensures Low(v, count) == [v % 0x100] + Low(v / 0x100, count - 1)
  {
  }

  // A low byte under a value, and what is left above it.
  lemma LowOver(low: nat, high: nat, count: nat, scale: nat)
    requires low < scale * 0x100 && low + scale * 0x100 * high < 0x1_0000_0000_0000_0000 && count > 0
    ensures Low(low + scale * 0x100 * high, count) == [low % 0x100] + Low(low / 0x100 + scale * high, count - 1)
  {
    hide Low;
    LowSplits(low, high, scale);
    LowStep(low + scale * 0x100 * high, count);
  }

  lemma LowOfDouble(v: u64)
    ensures Low(v, 8) == Le64(v)
  {
    hide Low, Le32;
    var low, high: nat := v % 0x1_0000_0000, v / 0x1_0000_0000;
    var l1 := low / 0x100;
    var l2 := l1 / 0x100;
    var l3 := l2 / 0x100;
    LowOver(low, high, 8, 0x100_0000);
    LowOver(l1, high, 7, 0x1_0000);
    LowOver(l2, high, 6, 0x100);
    LowOver(l3, high, 5, 1);
    LowOfWord(high);
    LowOfWord(low);
    LowStep(low, 4);
    LowStep(l1, 3);
    LowStep(l2, 2);
    LowStep(l3, 1);
    LowNone(l3 / 0x100);
    assert Low(v, 8) == [low % 0x100] + ([l1 % 0x100] + ([l2 % 0x100] + ([l3 % 0x100] + Le32(high))));
  }

  lemma LowNone(v: u64)
    ensures Low(v, 0) == []
  {
  }

  lemma {:induction false} ImagesOfWords(words: seq<u32>)
    ensures Images(Singles(words)) == WordBytes(words)
  {
    if words == [] {
    } else {
      var front, last := words[..|words| - 1], words[|words| - 1];
      ImagesOfWords(front);
      ImagesSnoc(Singles(front), Single(last));
      assert Singles(words) == Singles(front) + [Single(last)];
      WordBytesAppend(front, [last]);
      assert words == front + [last];
      assert WordBytes([last]) == Le32(last) + WordBytes([]);
    }
  }

  /** The output vector. */
  class ByteVector {
    var bytes: seq<byte>
    ghost var items: seq<Item>   // the values appended so far

    ghost predicate Valid()
      reads this
    {
      bytes == Images(items)
    }

    constructor ()
      ensures Valid() && items == []
    {
      bytes, items := [], [];
    }

    // Pushes the low bytes of a value, one for each turn of the loop.
    method PushLow(v: u64, count: nat)
      modifies this`bytes
      ensures bytes == old(bytes) + Low(v, count)
    {
      var left := v;
      for i := 0 to count
        invariant bytes + Low(left, count - i) == old(bytes) + Low(v, count)
      {
        assert bytes + ([left % 0x100] + Low(left / 0x100, count - i - 1))
            == bytes + [left % 0x100] + Low(left / 0x100, count - i - 1);
        bytes := bytes + [left % 0x100];
        left := left / 0x100;
      }
      assert bytes + [] == bytes;
    }

    method PutU16(v: u16)
      requires Valid()
      modifies this
      ensures Valid() && items == old(items) + [Half(v)]
    {
      LowOfHalf(v);
      PushLow(v, 2);
      ImagesSnoc(items, Half(v));
      items := items + [Half(v)];
    }

    method PutU32(v: u32)
      requires Valid()
      modifies this
      ensures Valid() && items == old(items) + [Single(v)]
    {
      LowOfWord(v);
      PushLow(v, 4);
      ImagesSnoc(items, Single(v));
      items := items + [Single(v)];
    }

    method PutU64(v: u64)
      requires Valid()
      modifies this
      ensures Valid() && items == old(items) + [Double(v)]
    {
      LowOfDouble(v);
      PushLow(v, 8);
      ImagesSnoc(items, Double(v));
      items := items + [Double(v)];
    }

    method PutBytes(s: seq<byte>)
      requires Valid()
      modifies this
      ensures Valid() && items == old(items) + [Raw(s)]
    {
      bytes := bytes + s;
      ImagesSnoc(items, Raw(s));
      items := items + [Raw(s)];
    }

    method Contents() returns (contents: seq<byte>)
      requires Valid()
      ensures contents == Images(items)
    {
      contents := bytes;
    }

    method PutI32(v: i32)
      requires Valid()
      modifies this
      ensures Valid() && items == old(items) + [Single(ToWord(v))]
    {
      hide Valid;
      PutU32(ToWord(v));
    }

    method PutCondition(c: Condition)
      requires Valid()
      modifies this
      ensures Valid() && items == old(items) + Singles(ConditionWords(c))
    {
      hide Valid;
      PutI32(c.offset);
      PutI32(c.positiveCoefficient);
      PutI32(c.negativeCoefficient);
      PutU32(c.positiveSaturation);
      PutU32(c.negativeSaturation);
      PutI32(c.deadBand);
    }

    method PutTiming(e: Event)
      requires Valid()
      modifies this
      ensures Valid() && items == old(items) + Singles(TimingWords(e))
    {
      hide Valid;
      PutI32(e.hresult);
      PutU32(e.diFlags);
      PutU32(e.duration);
      PutU32(e.samplePeriod);
      PutU32(e.gain);
      PutU32(e.startDelay);
    }

    method PutTrigger(e: Event)
      requires Valid()
      modifies this
      ensures Valid() && items == old(items) + Singles(TriggerWords(e))
    {
      hide Valid;
      PutU32(e.triggerButton);
      PutU32(e.triggerRepeat);
      PutU32(e.iterations);
    }

    method PutEnvelope(e: Event)
      requires Valid()
      modifies this
      ensures Valid() && items == old(items) + Singles(EnvelopeWords(e))
    {
      hide Valid;
      PutU32(e.attackLevel);
      PutU32(e.attackTime);
      PutU32(e.fadeLevel);
      PutU32(e.fadeTime);
      PutU32(e.propertyId);
      PutU32(e.dropped);
    }

    method PutForces(e: Event)
      requires Valid()
      modifies this
      ensures Valid() && items == old(items) + Singles(ForceWords(e))
    {
      hide Valid;
      PutI32(e.magnitude);
      PutI32(e.rampStart);
      PutI32(e.rampEnd);
      PutI32(e.periodicMagnitude);
      PutI32(e.periodicOffset);
      PutI32(e.periodicPhase);
      PutI32(e.periodicPeriod);
    }

    method PutSigned(values: seq<i32>)
      requires Valid()
      modifies this
      ensures Valid() && items == old(items) + Singles(SignedWords(values))
    {
      hide Valid, SignedWords, Singles;
      ghost var singles := Singles(SignedWords(values));
      for i := 0 to |values|
        invariant Valid() && items == old(items) + singles[..i]
      {
        PutI32(values[i]);
        assert singles[..i + 1] == singles[..i] + [singles[i]];
        Associative(old(items), singles[..i], [singles[i]]);
      }
    }

    method PutConditions(cs: seq<Condition>)
      requires Valid()
      modifies this
      ensures Valid() && items == old(items) + Singles(ConditionsWords(cs))
    {
      hide Valid;
      for i := 0 to |cs|
        invariant Valid() && items == old(items) + Singles(ConditionsWords(cs[..i]))
      {
        PutCondition(cs[i]);
        ConditionsWordsSnoc(cs, i);
      }
      assert cs[..|cs|] == cs;
    }
  }

  lemma ConditionsWordsSnoc(cs: seq<Condition>, i: nat)
    requires i < |cs|
    ensures Singles(ConditionsWords(cs[..i + 1])) == Singles(ConditionsWords(cs[..i])) + Singles(ConditionWords(cs[i]))
  {
    ConditionsWordsAppend(cs[..i], cs[i]);
    assert cs[..i + 1] == cs[..i] + [cs[i]];
  }

  lemma {:induction false} ConditionsWordsAppend(cs: seq<Condition>, c: Condition)
    ensures ConditionsWords(cs + [c]) == ConditionsWords(cs) + ConditionWords(c)
  {
    if cs == [] {
      assert cs + [c] == [c];
      assert ConditionsWords([c]) == ConditionWords(c) + ConditionsWords([]);
    } else {
      ConditionsWordsAppend(cs[1..], c);
      assert (cs + [c])[1..] == cs[1..] + [c];
    }
  }

  lemma ImagesOfThree(a: Item, b: Item, c: Item)
    ensures Images([a, b, c]) == Image(a) + Image(b) + Image(c)
  {
    assert [a, b, c][..2] == [a, b] && [a, b][..1] == [a] && [a][..0] == [];
    assert Images([a]) == Images([]) + Image(a);
    assert Images([]) + Image(a) == Image(a);
  }

  lemma ImagesOfSix(a: Item, b: Item, c: Item, d: Item, e: Item, f: Item)
    ensures Images([a, b, c] + [d, e, f]) == Image(a) + Image(b) + Image(c) + Image(d) + Image(e) + Image(f)
  {
    ImagesOfThree(a, b, c);
    ImagesOfThree(d, e, f);
    ImagesAppend([a, b, c], [d, e, f]);
    Regroup(Image(a) + Image(b) + Image(c), Image(d), Image(e), Image(f));
  }

  function StringItems(e: Event): seq<Item>
    requires Shaped(e)
  {
    [Raw(e.buildVersion), Raw(e.sessionId), Half(|WireText(e)|)]
      + [Raw(WireText(e)), Half(e.effectKind), Half(e.command)]
  }

  lemma StringItemsImage(e: Event)
    requires Shaped(e)
    ensures Images(StringItems(e)) == Strings(e)
  {
    ImagesOfSix(Raw(e.buildVersion), Raw(e.sessionId), Half(|WireText(e)|), Raw(WireText(e)),
                Half(e.effectKind), Half(e.command));
  }

  function HeaderItems(e: Event, frameSize: u32): seq<Item> {
    [Raw(MAGIC), Half(VERSION), Half(e.messageType)] + [Single(frameSize), Single(WireFlags(e)), Double(e.sequence)]
    + [Double(e.qpcTicks)]
  }

  lemma HeaderItemsImage(e: Event, frameSize: u32)
    ensures Images(HeaderItems(e, frameSize)) == Header(e, frameSize)
  {
    ImagesOfSix(Raw(MAGIC), Half(VERSION), Half(e.messageType), Single(frameSize), Single(WireFlags(e)),
                Double(e.sequence));
    ImagesSnoc([Raw(MAGIC), Half(VERSION), Half(e.messageType)]
               + [Single(frameSize), Single(WireFlags(e)), Double(e.sequence)], Double(e.qpcTicks));
  }

  lemma PayloadImage(e: Event)
    requires Shaped(e)
    ensures Images(Singles(HeadWords(e)) + [Raw(e.effectGuid)] + Singles(TailWords(e)) + StringItems(e)) == Payload(e)
  {
    var head, tail := Singles(HeadWords(e)), Singles(TailWords(e));
    StringItemsImage(e);
    ImagesOfWords(HeadWords(e));
    ImagesOfWords(TailWords(e));
    ImagesSnoc(head, Raw(e.effectGuid));
    ImagesAppend(head + [Raw(e.effectGuid)], tail);
    ImagesAppend(head + [Raw(e.effectGuid)] + tail, StringItems(e));
  }

  lemma SinglesAppend(a: seq<u32>, b: seq<u32>)
    ensures Singles(a + b) == Singles(a) + Singles(b)
  {
  }

  method PutScalars(out: ByteVector, e: Event)
    requires out.Valid()
    modifies out
    ensures out.Valid() && out.items == old(out.items) + Singles(ScalarWords(e))
  {
    hide ByteVector.Valid;
    out.PutTiming(e);
    out.PutTrigger(e);
    out.PutEnvelope(e);
    out.PutForces(e);
    var t, g, v := TimingWords(e), TriggerWords(e), EnvelopeWords(e);
    SinglesAppend(t, g);
    SinglesAppend(t + g, v);
    SinglesAppend(t + g + v, ForceWords(e));
  }

  function AxisWords(e: Event): seq<u32> { [e.axisCount] + SignedWords(e.axes) + SignedWords(e.directions) }

  function ConditionTail(e: Event): seq<u32> {
    [e.conditionCount] + ConditionsWords(e.conditions) + [e.typeSpecificSize, RedactionWord(e)]
  }

  method PutAxes(out: ByteVector, e: Event)
    requires out.Valid()
    modifies out
    ensures out.Valid() && out.items == old(out.items) + Singles(AxisWords(e))
  {
    hide ByteVector.Valid;
    ghost var before := out.items;
    ghost var count, axes, directions := Singles([e.axisCount]), Singles(SignedWords(e.axes)),
      Singles(SignedWords(e.directions));
    out.PutU32(e.axisCount);
    assert out.items == before + count;
    out.PutSigned(e.axes);
    out.PutSigned(e.directions);
    Regroup(before, count, axes, directions);
    SinglesAppend([e.axisCount], SignedWords(e.axes));
    SinglesAppend([e.axisCount] + SignedWords(e.axes), SignedWords(e.directions));
  }

  method PutConditionTail(out: ByteVector, e: Event)
    requires out.Valid()
    modifies out
    ensures out.Valid() && out.items == old(out.items) + Singles(ConditionTail(e))
  {
    hide ByteVector.Valid, ConditionsWords, Singles;
    out.PutU32(e.conditionCount);
    out.PutConditions(e.conditions);
    out.PutU32(e.typeSpecificSize);
    out.PutU32(if e.customRedacted then 1 else 0);
    SinglesAppend([e.conditionCount], ConditionsWords(e.conditions));
    SinglesAppend([e.conditionCount] + ConditionsWords(e.conditions), [e.typeSpecificSize, RedactionWord(e)]);
  }

  lemma TailSplits(e: Event)
    requires Shaped(e)
    ensures Singles(TailWords(e)) == Singles(ScalarWords(e)) + Singles(AxisWords(e)) + Singles(ConditionTail(e))
  {
    assert TailWords(e) == ScalarWords(e) + AxisWords(e) + ConditionTail(e);
    SinglesAppend(ScalarWords(e), AxisWords(e));
    SinglesAppend(ScalarWords(e) + AxisWords(e), ConditionTail(e));
  }

  method PutWords(out: ByteVector, e: Event)
    requires out.Valid()
    requires Shaped(e)
    modifies out
    ensures out.Valid() && out.items == old(out.items) + Singles(TailWords(e))
  {
    hide ByteVector.Valid;
    ghost var before := out.items;
    PutScalars(out, e);
    PutAxes(out, e);
    PutConditionTail(out, e);
    Regroup(before, Singles(ScalarWords(e)), Singles(AxisWords(e)), Singles(ConditionTail(e)));
    TailSplits(e);
  }

  method PutStrings(out: ByteVector, e: Event)
    requires out.Valid()
    requires Shaped(e)
    modifies out
    ensures out.Valid() && out.items == old(out.items) + StringItems(e)
  {
    hide ByteVector.Valid;
    out.PutBytes(e.buildVersion);
    out.PutBytes(e.sessionId);
    var length := |CString(e.text[..63])|;
    out.PutU16(length);
    out.PutBytes(e.text[..length]);
    assert e.text[..length] == WireText(e);
    out.PutU16(e.effectKind);
    out.PutU16(e.command);
  }

  /** Serializes an event; the header comes last because it carries the total size. */
  method SerializeEvent(e: Event) returns (frame: seq<byte>)
    requires Shaped(e)
    ensures frame == Wire(e)
  {
    hide ByteVector.Valid;
    var payload := new ByteVector();
    payload.PutU32(e.processId);
    payload.PutU32(e.qpcFrequency);
    payload.PutU32(e.deviceId);
    payload.PutU32(e.effectId);
    assert payload.items == Singles(HeadWords(e));
    payload.PutBytes(e.effectGuid);
    PutWords(payload, e);
    PutStrings(payload, e);
    PayloadImage(e);
    var bytes := payload.Contents();
    frame := PutHeader(e, bytes);
  }

  method FlagsOf(e: Event) returns (flags: u32)
    ensures flags == WireFlags(e)
  {
    flags := e.flags;
    if e.messageType == EFFECT_CREATED {
      flags := flags - PresenceBits(flags) * PARAMETERS_ABSENT;
      if e.presence == Absent {
        flags := flags + PARAMETERS_ABSENT;
      } else if e.presence == Present {
        flags := flags + PARAMETERS_PRESENT;
      }
    }
  }

  method PutHeader(e: Event, payload: seq<byte>) returns (frame: seq<byte>)
    requires |payload| <= 1024
    ensures frame == Header(e, 32 + |payload|) + payload
  {
    hide ByteVector.Valid, WireFlags;
    var out := new ByteVector();
    out.PutBytes(MAGIC);
    out.PutU16(VERSION);
    out.PutU16(e.messageType);
    out.PutU32(32 + |payload|);
    var flags := FlagsOf(e);
    out.PutU32(flags);
    out.PutU64(e.sequence);
    out.PutU64(e.qpcTicks);
    HeaderItemsImage(e, 32 + |payload|);
    assert out.items == HeaderItems(e, 32 + |payload|);
    var header := out.Contents();
    frame := header + payload;
  }
}
