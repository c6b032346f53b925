/** Bytes, fixed-width integers and the little-endian encodings that cross the pipe. */
module Bytes {

  type byte = x: int | 0 <= x < 0x100
  type u16 = x: int | 0 <= x < 0x1_0000
  type u32 = x: int | 0 <= x < 0x1_0000_0000
  type u64 = x: int | 0 <= x < 0x1_0000_0000_0000_0000
  type i32 = x: int | -0x8000_0000 <= x < 0x8000_0000

  datatype Option<+T> = None | Some(value: T)

  function Min(a: int, b: int): int { if a <= b then a else b }

  // Two's complement reinterpretation, both ways.
  function ToWord(v: i32): u32 { if v < 0 then v + 0x1_0000_0000 else v }

  function FromWord(w: u32): i32 { if w < 0x8000_0000 then w else w - 0x1_0000_0000 }

  function Le16(v: u16): (s: seq<byte>)
    ensures |s| == 2
  {
    [v % 0x100, v / 0x100]
  }

  function Le32(v: u32): (s: seq<byte>)
    ensures |s| == 4
  {
    [v % 0x100, v / 0x100 % 0x100, v / 0x1_0000 % 0x100, v / 0x100_0000]
  }

  function Le64(v: u64): (s: seq<byte>)
    ensures |s| == 8
  {
    Le32(v % 0x1_0000_0000) + Le32(v / 0x1_0000_0000)
  }

  function U16At(data: seq<byte>, at: nat): u16
    requires at + 2 <= |data|
  {
    data[at] as int + 0x100 * (data[at + 1] as int)
  }

  function U32At(data: seq<byte>, at: nat): u32
    requires at + 4 <= |data|
  {
    data[at] as int + 0x100 * (data[at + 1] as int)
    + 0x1_0000 * (data[at + 2] as int) + 0x100_0000 * (data[at + 3] as int)
  }

  function U64At(data: seq<byte>, at: nat): u64
    requires at + 8 <= |data|
  {
    U32At(data, at) as int + 0x1_0000_0000 * (U32At(data, at + 4) as int)
  }

  function WordBytes(words: seq<u32>): (s: seq<byte>)
    ensures |s| == 4 * |words|
  {
    if words == [] then [] else Le32(words[0]) + WordBytes(words[1..])
  }

  lemma Le32Digits(v: u32)
    ensures v % 0x100 + 0x100 * (v / 0x100 % 0x100) + 0x1_0000 * (v / 0x1_0000 % 0x100)
         + 0x100_0000 * (v / 0x100_0000) == v
  {
    assert v / 0x1_0000 == v / 0x100 / 0x100;
    assert v / 0x100_0000 == v / 0x1_0000 / 0x100;
  }

  // A 32-bit word written anywhere inside a byte string reads back.
  lemma U32Written(before: seq<byte>, v: u32, after: seq<byte>)
    ensures U32At(before + Le32(v) + after, |before|) == v
  {
    Le32Digits(v);
    var s := before + Le32(v) + after;
    assert forall k | 0 <= k < 4 :: s[|before| + k] == Le32(v)[k];
  }

  lemma U16Written(before: seq<byte>, v: u16, after: seq<byte>)
    ensures U16At(before + Le16(v) + after, |before|) == v
  {
    var s := before + Le16(v) + after;
    assert s[|before|] == Le16(v)[0] && s[|before| + 1] == Le16(v)[1];
  }

  lemma U64Written(before: seq<byte>, v: u64, after: seq<byte>)
    ensures U64At(before + Le64(v) + after, |before|) == v
  {
    var low, high := v % 0x1_0000_0000, v / 0x1_0000_0000;
    var s := before + Le64(v) + after;
    U32Written(before, low, Le32(high) + after);
    assert s == before + Le32(low) + (Le32(high) + after);
    U32Written(before + Le32(low), high, after);
    assert s == (before + Le32(low)) + Le32(high) + after;
  }

  // Word i of a block of words reads back from inside any byte string.
  lemma {:induction false} WordWritten(before: seq<byte>, words: seq<u32>, after: seq<byte>, i: nat)
    requires i < |words|
    ensures U32At(before + WordBytes(words) + after, |before| + 4 * i) == words[i]
    decreases i
  {
    var tail := WordBytes(words[1..]);
    if i == 0 {
      U32Written(before, words[0], tail + after);
      assert before + WordBytes(words) + after == before + Le32(words[0]) + (tail + after);
    } else {
      WordWritten(before + Le32(words[0]), words[1..], after, i - 1);
      assert before + WordBytes(words) + after == before + Le32(words[0]) + tail + after;
    }
  }

  lemma {:induction false} WordBytesAppend(a: seq<u32>, b: seq<u32>)
    ensures WordBytes(a + b) == WordBytes(a) + WordBytes(b)
    decreases |a|
  {
    if a == [] {
      assert a + b == b;
    } else {
      var first := Le32(a[0]);
      WordBytesAppend(a[1..], b);
      assert (a + b)[1..] == a[1..] + b;
      Associative(first, WordBytes(a[1..]), WordBytes(b));
    }
  }

  lemma Regroup<T>(o: seq<T>, a: seq<T>, b: seq<T>, c: seq<T>)
    ensures o + a + b + c == o + (a + b + c)
  {
  }

  lemma Associative<T>(a: seq<T>, b: seq<T>, c: seq<T>)
    ensures (a + b) + c == a + (b + c)
  {
  }
}
