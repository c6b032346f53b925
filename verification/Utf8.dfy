/**
 Well-formed UTF-8 (section 4 of RFC 3629) and the producer's bounded copy, which
 shortens a name without splitting a code point.
 */
module Utf8 {
  import opened Bytes

  predicate IsTail(b: byte) { 0x80 <= b <= 0xBF }

  /** The length of the well-formed code point at the head of s, or 0. */
  function LeadLength(s: seq<byte>): (n: nat)
    ensures n <= |s| && n <= 4
  {
    if |s| == 0 then 0
    else if s[0] <= 0x7F then 1
    else if 0xC2 <= s[0] <= 0xDF then
      if |s| >= 2 && IsTail(s[1]) then 2 else 0
    else if 0xE0 <= s[0] <= 0xEF then
      if |s| >= 3 && IsTail(s[1]) && IsTail(s[2])
         && (s[0] == 0xE0 ==> 0xA0 <= s[1]) && (s[0] == 0xED ==> s[1] <= 0x9F) then 3 else 0
    else if 0xF0 <= s[0] <= 0xF4 then
      if |s| >= 4 && IsTail(s[1]) && IsTail(s[2]) && IsTail(s[3])
         && (s[0] == 0xF0 ==> 0x90 <= s[1]) && (s[0] == 0xF4 ==> s[1] <= 0x8F) then 4 else 0
    else 0
  }

  predicate WellFormed(s: seq<byte>)
    decreases |s|
  {
    s == [] || (LeadLength(s) > 0 && WellFormed(s[LeadLength(s)..]))
  }

  lemma SliceOfSlice(s: seq<byte>, from: nat, to: nat)
    requires from <= to <= |s|
    ensures s[..to][from..] == s[from..][..to - from]
  {
  }

  // Inside well-formed text a cut is well formed exactly where it does not
  // fall in front of a continuation byte.
  lemma {:induction false} CutWellFormed(s: seq<byte>, cut: nat)
    requires WellFormed(s) && cut <= |s|
    ensures WellFormed(s[..cut]) <==> cut == |s| || !IsTail(s[cut])
    decreases |s|
  {
    if s == [] || cut == |s| {
      assert s[..cut] == s;
    } else {
      var n := LeadLength(s);
      if n <= cut {
        CutWellFormed(s[n..], cut - n);
        assert LeadLength(s[..cut]) == n;
        SliceOfSlice(s, n, cut);
      }
    }
  }

  /** The bytes in front of the first NUL, or all of them. */
  function CString(s: seq<byte>): (r: seq<byte>)
    ensures |r| <= |s| && r == s[..|r|] && 0 !in r
    ensures |r| < |s| ==> s[|r|] == 0
  {
    if s == [] || s[0] == 0 then [] else [s[0]] + CString(s[1..])
  }

  lemma {:induction false} CStringStops(s: seq<byte>, k: nat)
    requires k < |s| && s[k] == 0
    ensures |CString(s)| <= k
    decreases k
  {
    if k == 0 || s[0] == 0 {
    } else {
      CStringStops(s[1..], k - 1);
    }
  }

  lemma CStringWellFormed(s: seq<byte>)
    requires WellFormed(s)
    ensures WellFormed(CString(s))
  {
    CutWellFormed(s, |CString(s)|);
    if |CString(s)| == |s| {
      assert s[..|s|] == s;
    }
  }

  // Backs up from a cut that falls in front of continuation bytes.
  function BackUp(s: seq<byte>, cut: nat): (r: nat)
    requires cut <= |s|
    ensures r <= cut && (r == 0 || r == |s| || !IsTail(s[r]))
    ensures forall k | r < k <= cut :: k < |s| && IsTail(s[k])
  {
    if 0 < cut < |s| && IsTail(s[cut]) then BackUp(s, cut - 1) else cut
  }

  /** How much of a text the bounded copy keeps. */
  function Kept(s: seq<byte>, size: nat): (r: nat)
    requires size > 0
    ensures r <= |s| && r < size
  {
    BackUp(s, Min(|s|, size - 1))
  }

  function Zeros(n: nat): (s: seq<byte>)
    ensures |s| == n && forall i | 0 <= i < n :: s[i] == 0
  {
    seq(n, _ => 0)
  }

  /** A zeroed field of some size with the bounded copy of a text in it. */
  function NameField(text: seq<byte>, size: nat): (field: seq<byte>)
    requires size > 0
    ensures |field| == size
  {
    text[..Kept(text, size)] + Zeros(size - Kept(text, size))
  }

  /**
   The bounded copy. For well-formed text it keeps the longest well-formed prefix
   that leaves room for the terminator; bytes behind the terminator stay.
   */
  method CopyTruncated(out: array?<byte>, text: Option<seq<byte>>) returns (length: nat)
    modifies out
    ensures out == null || out.Length == 0 ==> length == 0
    ensures out != null && out.Length > 0 ==>
              && length < out.Length
              && out[length] == 0
              && (forall k | length < k < out.Length :: out[k] == old(out[k]))
    ensures out != null && out.Length > 0 && text.None? ==> length == 0
    ensures out != null && out.Length > 0 && text.Some? ==>
              && length == Kept(text.value, out.Length)
              && out[..length] == text.value[..length]
    ensures out != null && out.Length > 0 && text.Some? && (forall k | 0 <= k < out.Length :: old(out[k]) == 0) ==>
              out[..] == NameField(text.value, out.Length)
    ensures out != null && out.Length > 0 && text.Some? && WellFormed(text.value) ==>
              && WellFormed(out[..length])
              && (forall k | length < k <= Min(|text.value|, out.Length - 1) :: !WellFormed(text.value[..k]))
  {
    if out == null || out.Length == 0 {
      return 0;
    }
    if text.None? {
      out[0] := 0;
      return 0;
    }
    var s := text.value;
    length := Min(|s|, out.Length - 1);
    if length < |s| {
      while length > 0 && IsTail(s[length])
        invariant length < |s| && length < out.Length
        invariant BackUp(s, length) == Kept(s, out.Length)
      {
        length := length - 1;
      }
    }
    forall i | 0 <= i < length {
      out[i] := s[i];
    }
    out[length] := 0;
    assert out[..length] == s[..length];
    if WellFormed(s) {
      LongestWellFormed(s, out.Length);
    }
  }

  lemma LongestWellFormed(s: seq<byte>, size: nat)
    requires WellFormed(s) && size > 0
    ensures WellFormed(s[..Kept(s, size)])
    ensures forall k | Kept(s, size) < k <= Min(|s|, size - 1) :: !WellFormed(s[..k])
  {
    hide WellFormed;
    var length := Kept(s, size);
    EmptyWellFormed();
    CutWellFormed(s, length);
    assert length == 0 ==> s[..length] == [];
    forall k | length < k <= Min(|s|, size - 1)
      ensures !WellFormed(s[..k])
    {
      CutWellFormed(s, k);
    }
  }

  lemma EmptyWellFormed()
    ensures WellFormed([])
  {
  }

  // A name copied into a zeroed event buffer is well formed up to its NUL,
  // which is all of it that the serializer sends.
  lemma CopiedNameWellFormed(buffer: seq<byte>, length: nat)
    requires length < |buffer| && buffer[length] == 0 && WellFormed(buffer[..length])
    ensures WellFormed(CString(buffer))
  {
    var c := CString(buffer);
    CutWellFormed(buffer[..length], Min(|c|, length));
    if |c| < length {
      assert buffer[..length][..|c|] == c;
    } else {
      CStringStops(buffer, length);
      assert buffer[..length][..length] == c;
    }
  }

  /** Whatever the well-formed text, its field reads as well-formed text, with its last byte or without. */
  lemma FieldWellFormed(text: seq<byte>, size: nat)
    requires WellFormed(text) && size > 0
    ensures WellFormed(CString(NameField(text, size))) && WellFormed(CString(NameField(text, size)[..size - 1]))
  {
    hide WellFormed, CString, Kept;
    var n, field := Kept(text, size), NameField(text, size);
    LongestWellFormed(text, size);
    assert field[..n] == text[..n];
    CopiedNameWellFormed(field, n);
    if n < size - 1 {
      assert field[..size - 1][..n] == text[..n];
      CopiedNameWellFormed(field[..size - 1], n);
    } else {
      CStringWellFormed(text[..n]);
    }
  }

  /** Plain ASCII without NUL is well formed, and its field gives it back when it fits. */
  lemma {:induction false} AsciiWellFormed(s: seq<byte>)
    requires forall i | 0 <= i < |s| :: 0 < s[i] < 0x80
    ensures WellFormed(s)
    decreases s
  {
    if s == [] {
    } else {
      AsciiWellFormed(s[1..]);
    }
  }

  lemma {:induction false} CStringOf(s: seq<byte>, n: nat)
    requires 0 !in s
    ensures CString(s + Zeros(n)) == s
    decreases s
  {
    if s == [] {
      assert [] + Zeros(n) == Zeros(n);
    } else {
      assert (s + Zeros(n))[1..] == s[1..] + Zeros(n);
      CStringOf(s[1..], n);
    }
  }

  lemma FieldReads(s: seq<byte>, size: nat)
    requires (forall i | 0 <= i < |s| :: 0 < s[i] < 0x80) && |s| < size
    ensures CString(NameField(s, size)) == s
  {
    hide CString;
    CStringOf(s, size - |s|);
    assert s[..|s|] == s;
  }
}
