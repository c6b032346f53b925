/** Well-formed text is exactly what some Unicode scalar values encode to (sections 3 and 4 of RFC 3629). */
module Utf8Meaning {
  import opened Bytes
  import opened Utf8

  /** A code point that is no surrogate. */
  predicate Scalar(c: nat) { c < 0x11_0000 && !(0xD800 <= c <= 0xDFFF) }

  predicate Scalars(cs: seq<nat>) { forall c | c in cs :: Scalar(c) }

  function Encoded(c: nat): (s: seq<byte>)
    requires Scalar(c)
    ensures 1 <= |s| <= 4
  {
    if c < 0x80 then [c]
    else if c < 0x800 then [0xC0 + c / 0x40, 0x80 + c % 0x40]
    else if c < 0x1_0000 then [0xE0 + c / 0x1000, 0x80 + c / 0x40 % 0x40, 0x80 + c % 0x40]
    else [0xF0 + c / 0x4_0000, 0x80 + c / 0x1000 % 0x40, 0x80 + c / 0x40 % 0x40, 0x80 + c % 0x40]
  }

  function EncodedAll(cs: seq<nat>): seq<byte>
    requires Scalars(cs)
  {
    if cs == [] then [] else Encoded(cs[0]) + EncodedAll(cs[1..])
  }

  lemma LeadOfEncoded(c: nat, rest: seq<byte>)
    requires Scalar(c)
    ensures LeadLength(Encoded(c) + rest) == |Encoded(c)|
  {
    var s, e := Encoded(c) + rest, Encoded(c);
    assert forall k | 0 <= k < |e| :: s[k] == e[k];
    Quotients(c);
    if c < 0x80 {
    } else if c < 0x800 {
      assert 2 <= c / 0x40 < 0x20;
    } else if c < 0x1_0000 {
      assert c / 0x1000 < 0x10 && (c / 0x1000 == 0 ==> c / 0x40 % 0x40 >= 0x20);
      assert c / 0x1000 == 0xD ==> c / 0x40 % 0x40 < 0x20;
    } else {
      assert c / 0x4_0000 < 5 && (c / 0x4_0000 == 0 ==> c / 0x1000 % 0x40 >= 0x10);
      assert c / 0x4_0000 == 4 ==> c / 0x1000 % 0x40 < 0x10;
    }
  }

  lemma Quotients(c: nat)
    ensures c / 0x40 == c / 0x1000 * 0x40 + c / 0x40 % 0x40
    ensures c / 0x1000 == c / 0x4_0000 * 0x40 + c / 0x1000 % 0x40
    ensures c == c / 0x40 * 0x40 + c % 0x40
  {
    assert c / 0x40 / 0x40 == c / 0x1000;
    assert c / 0x1000 / 0x40 == c / 0x4_0000;
  }

  function Low(b: byte): (low: int)
    requires IsTail(b)
    ensures 0 <= low < 0x40
  {
    b as int - 0x80
  }

  // The value that one to four bytes carry.
  function Value(s: seq<byte>): (c: nat)
    requires 1 <= |s| <= 4 && (forall k | 0 < k < |s| :: IsTail(s[k]))
    requires |s| == 2 ==> s[0] >= 0xC0
    requires |s| == 3 ==> s[0] >= 0xE0
    requires |s| == 4 ==> s[0] >= 0xF0
  {
    match |s|
    case 1 => s[0]
    case 2 => (s[0] as int - 0xC0) * 0x40 + Low(s[1])
    case 3 => (s[0] as int - 0xE0) * 0x1000 + Low(s[1]) * 0x40 + Low(s[2])
    case _ => (s[0] as int - 0xF0) * 0x4_0000 + Low(s[1]) * 0x1000 + Low(s[2]) * 0x40 + Low(s[3])
  }

  // Two to four digits in base 64.
  lemma Digits(a: nat, b: nat, c: nat, d: nat)
    requires b < 0x40 && c < 0x40 && d < 0x40
    ensures var v := a * 0x4_0000 + b * 0x1000 + c * 0x40 + d;
      v / 0x4_0000 == a && v / 0x1000 % 0x40 == b && v / 0x40 % 0x40 == c && v % 0x40 == d && v / 0x1000 == a * 0x40 + b
  {
    var v := a * 0x4_0000 + b * 0x1000 + c * 0x40 + d;
    assert v / 0x40 == a * 0x1000 + b * 0x40 + c;
    assert v / 0x1000 == a * 0x40 + b;
  }

  lemma LeadIsEncoded(s: seq<byte>)
    requires LeadLength(s) > 0
    ensures exists c: nat :: Scalar(c) && Encoded(c) == s[..LeadLength(s)]
  {
    var head := s[..LeadLength(s)];
    assert forall k | 0 <= k < |head| :: head[k] == s[k];
    if |head| <= 2 {
      ShortIsEncoded(head);
    } else if |head| == 3 {
      ThreeIsEncoded(head);
    } else {
      FourIsEncoded(head);
    }
    assert Scalar(Value(head));
  }

  lemma ShortIsEncoded(s: seq<byte>)
    requires 1 <= |s| <= 2 && LeadLength(s) == |s|
    ensures Scalar(Value(s)) && Encoded(Value(s)) == s
  {
  }

  lemma ThreeIsEncoded(s: seq<byte>)
    requires |s| == 3 && LeadLength(s) == 3
    ensures Scalar(Value(s)) && Encoded(Value(s)) == s
  {
    var a, b, c := s[0] as int - 0xE0, Low(s[1]), Low(s[2]);
    Digits(0, a, b, c);
    assert Value(s) == a * 0x1000 + b * 0x40 + c;
    assert a == 0xD ==> b < 0x20;
  }

  lemma FourIsEncoded(s: seq<byte>)
    requires |s| == 4 && LeadLength(s) == 4
    ensures Scalar(Value(s)) && Encoded(Value(s)) == s
  {
    Digits(s[0] as int - 0xF0, Low(s[1]), Low(s[2]), Low(s[3]));
  }

  ghost predicate IsText(s: seq<byte>) { exists cs: seq<nat> :: Scalars(cs) && EncodedAll(cs) == s }

  lemma {:induction false} EncodedIsWellFormed(cs: seq<nat>)
    requires Scalars(cs)
    ensures WellFormed(EncodedAll(cs))
    decreases cs
  {
    if cs != [] {
      var s, n := EncodedAll(cs), |Encoded(cs[0])|;
      LeadOfEncoded(cs[0], EncodedAll(cs[1..]));
      assert s[n..] == EncodedAll(cs[1..]);
      EncodedIsWellFormed(cs[1..]);
    }
  }

  lemma {:induction false} WellFormedIsText(s: seq<byte>)
    requires WellFormed(s)
    ensures IsText(s)
    decreases |s|
  {
    if s == [] {
      assert EncodedAll([]) == s;
    } else {
      var n := LeadLength(s);
      WellFormedIsText(s[n..]);
      LeadIsEncoded(s);
      var rest: seq<nat> :| Scalars(rest) && EncodedAll(rest) == s[n..];
      var c: nat :| Scalar(c) && Encoded(c) == s[..n];
      assert ([c] + rest)[1..] == rest;
      assert EncodedAll([c] + rest) == s[..n] + s[n..] == s;
    }
  }

  /** The byte-range test accepts exactly the encodings of Unicode text. */
  lemma WellFormedMeans(s: seq<byte>)
    ensures WellFormed(s) <==> IsText(s)
  {
    if WellFormed(s) {
      WellFormedIsText(s);
    }
    if IsText(s) {
      var cs: seq<nat> :| Scalars(cs) && EncodedAll(cs) == s;
      EncodedIsWellFormed(cs);
    }
  }
}
