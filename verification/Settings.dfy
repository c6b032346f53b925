/** Detector settings and how they are normalised, and the two gates for public events. */
module Settings {
  import opened Bytes
  import opened Effects

  // Text as .NET holds it; a character outside the basic plane takes two units.
  type Utf16 = seq<u16>

  // A double as the settings file may hold it; not-a-number and the infinities are one case.
  datatype Double = Finite(value: real) | NotFinite

  datatype Settings = Settings(
    entryPercent: Double, exitPercent: Double, continuousLimit: int, window: int,
    triggerPercent: Double, exitHold: int, autoSelect: bool, manualProcess: u32, manualSession: Option<Utf16>)

  const SESSION_LENGTH := 31

  function ClampInt(value: int, low: int, high: int): (r: int)
    requires low <= high
    ensures low <= r <= high && (low <= value <= high ==> r == value)
  {
    if value < low then low else if value > high then high else value
  }

  function Clamp(value: Double, low: real, high: real): (r: real)
    requires low <= high
    ensures low <= r <= high && (value.Finite? && low <= value.value <= high ==> r == value.value)
  {
    match value
    case NotFinite => low
    case Finite(v) => MaxReal(low, MinReal(high, v))
  }

  // Unicode white space, as String.Trim removes it, unit by unit.
  predicate IsSpace(unit: u16) {
    || unit == 0x20 || 0x09 <= unit <= 0x0D || unit == 0x85 || unit == 0xA0 || unit == 0x1680
    || 0x2000 <= unit <= 0x200A || unit == 0x2028 || unit == 0x2029 || unit == 0x202F
    || unit == 0x205F || unit == 0x3000
  }

  function TrimStart(s: Utf16): (r: Utf16)
    ensures |r| <= |s| && (r != [] ==> !IsSpace(r[0]))
  {
    if s != [] && IsSpace(s[0]) then TrimStart(s[1..]) else s
  }

  function TrimEnd(s: Utf16): (r: Utf16)
    ensures |r| <= |s| && (r != [] ==> !IsSpace(r[|r| - 1]))
    ensures s != [] && !IsSpace(s[0]) ==> r != [] && r[0] == s[0]
  {
    if s != [] && IsSpace(s[|s| - 1]) then TrimEnd(s[..|s| - 1]) else s
  }

  function Trim(s: Utf16): Utf16 { TrimEnd(TrimStart(s)) }

  function Text(s: Option<Utf16>): Utf16 { if s.Some? then s.value else [] }

  function SessionText(s: Option<Utf16>): Utf16 {
    Trim(Text(s))[..Min(|Trim(Text(s))|, SESSION_LENGTH)]
  }

  function Normalized(s: Settings): Settings {
    var entry := Clamp(s.entryPercent, 1.0, 100.0);
    Settings(
      Finite(entry), Finite(Clamp(s.exitPercent, 0.0, entry)), ClampInt(s.continuousLimit, 10, 5000),
      ClampInt(s.window, 100, 10000), Finite(Clamp(s.triggerPercent, 0.1, 100.0)), ClampInt(s.exitHold, 0, 5000),
      s.autoSelect, s.manualProcess, Some(SessionText(s.manualSession)))
  }

  /** What every part of the detector may rely on. */
  predicate Normal(s: Settings) {
    && s.entryPercent.Finite? && s.exitPercent.Finite? && s.triggerPercent.Finite?
    && 1.0 <= s.entryPercent.value <= 100.0
    && 0.0 <= s.exitPercent.value <= s.entryPercent.value
    && 10 <= s.continuousLimit <= 5000 && 100 <= s.window <= 10000
    && 0.1 <= s.triggerPercent.value <= 100.0 && 0 <= s.exitHold <= 5000
    && s.manualSession.Some? && |s.manualSession.value| <= SESSION_LENGTH
  }

  lemma NormalizedIsNormal(s: Settings)
    ensures Normal(Normalized(s))
  {
  }

  // Values already in range are kept.
  lemma NormalKept(s: Settings)
    requires Normal(s)
    ensures Normalized(s) == s.(manualSession := Some(SessionText(s.manualSession)))
  {
  }

  lemma TrimKeeps(s: Utf16)
    ensures Trim(s) == s <==> s == [] || (!IsSpace(s[0]) && !IsSpace(s[|s| - 1]))
  {
    assert s != [] && !IsSpace(s[0]) ==> TrimStart(s) == s;
    assert s != [] && !IsSpace(s[|s| - 1]) ==> TrimEnd(s) == s;
  }

  lemma TrimmedEnds(s: Utf16)
    ensures var r := Trim(s); r != [] ==> !IsSpace(r[0]) && !IsSpace(r[|r| - 1])
  {
  }

  /**
   The session filter survives a second normalisation exactly when the 31-character cut does not fall
   behind a space.
   */
  lemma NormalizedTwice(s: Settings)
    ensures var trimmed := Trim(Text(s.manualSession));
      Normalized(Normalized(s)) == Normalized(s) <==>
        |trimmed| <= SESSION_LENGTH || !IsSpace(trimmed[SESSION_LENGTH - 1])
  {
    hide Normalized, Trim, IsSpace, Normal;
    var trimmed := Trim(Text(s.manualSession));
    var cut := SessionText(s.manualSession);
    NormalizedIsNormal(s);
    NormalKept(Normalized(s));
    SecondCut(s);
    TrimmedEnds(Text(s.manualSession));
    TrimKeeps(cut);
    TrimShortens(cut);
    assert Trim(cut)[..|Trim(cut)|] == Trim(cut);
    assert SessionText(Some(cut)) == Trim(cut);
    assert cut == [] ==> trimmed == [];
    assert trimmed != [] ==> cut[0] == trimmed[0] && cut[|cut| - 1] == trimmed[|cut| - 1];
  }

  // Thirty units, a space and one unit more: the cut falls behind the space.
  lemma CutBehindSpace(s: Settings, front: Utf16)
    requires |front| == 30 && !IsSpace(front[0]) && s.manualSession == Some(front + [0x20, 0x61])
    ensures Normalized(Normalized(s)) != Normalized(s)
  {
    hide Normalized, Trim;
    NormalizedTwice(s);
    TrimKeeps(front + [0x20, 0x61]);
  }

  const LETTERS: Utf16 := seq<u16>(30, _ => 0x61)

  // Fifteen times U+1F600, a surrogate pair each.
  const FACES: Utf16 := seq<u16>(30, i => if i % 2 == 0 then 0xD83D else 0xDE00)

  /** A letter and a surrogate pair count for what they take: thirty letters and fifteen faces both fail. */
  lemma NormalizedTwiceDiffers(s: Settings)
    requires s.manualSession == Some(LETTERS + [0x20, 0x61]) || s.manualSession == Some(FACES + [0x20, 0x61])
    ensures Normalized(Normalized(s)) != Normalized(s)
  {
    hide Normalized;
    CutBehindSpace(s, if s.manualSession == Some(LETTERS + [0x20, 0x61]) then LETTERS else FACES);
  }

  lemma SecondCut(s: Settings)
    ensures Normalized(s).manualSession == Some(SessionText(s.manualSession))
    ensures Text(Normalized(s).manualSession) == SessionText(s.manualSession)
  {
  }

  lemma TrimShortens(s: Utf16)
    ensures |Trim(s)| <= |s|
  {
  }

  // ---------- The two public event gates ----------

  datatype Edge = Started | Ended
  datatype CountEdge = Joined | Left

  /** Edges of a signal that starts low: one for every change. */
  function Edges(before: bool, signal: seq<bool>): seq<Edge>
    decreases signal
  {
    if signal == [] then []
    else (if signal[0] == before then [] else [if signal[0] then Started else Ended]) + Edges(signal[0], signal[1..])
  }

  predicate Alternates(low: bool, edges: seq<Edge>) {
    forall i | 0 <= i < |edges| :: edges[i] == if low == (i % 2 == 0) then Started else Ended
  }

  lemma AlternatesCons(low: bool, edges: seq<Edge>)
    requires Alternates(!low, edges)
    ensures Alternates(low, [if low then Started else Ended] + edges)
  {
    var all := [if low then Started else Ended] + edges;
    forall i | 0 <= i < |all|
      ensures all[i] == if low == (i % 2 == 0) then Started else Ended
    {
      if i > 0 {
        assert all[i] == edges[i - 1];
      }
    }
  }

  /** Started and Ended alternate, whatever the snapshots say. */
  lemma {:induction false} EdgesAlternate(before: bool, signal: seq<bool>)
    ensures Alternates(!before, Edges(before, signal))
    decreases signal
  {
    hide Alternates;
    if signal == [] {
      NoneAlternate(!before);
    } else {
      EdgesAlternate(signal[0], signal[1..]);
      if signal[0] != before {
        AlternatesCons(!before, Edges(signal[0], signal[1..]));
      } else {
        assert [] + Edges(signal[0], signal[1..]) == Edges(signal[0], signal[1..]);
      }
    }
  }

  lemma NoneAlternate(low: bool)
    ensures Alternates(low, [])
  {
  }

  function LastOf(before: bool, signal: seq<bool>): bool { if signal == [] then before else signal[|signal| - 1] }

  lemma {:induction false} EdgesSnoc(before: bool, signal: seq<bool>, value: bool)
    ensures Edges(before, signal + [value])
      == Edges(before, signal) + if value == LastOf(before, signal) then [] else [if value then Started else Ended]
    decreases signal
  {
    if signal == [] {
      assert [value][1..] == [];
    } else {
      EdgesSnoc(signal[0], signal[1..], value);
      assert (signal + [value])[1..] == signal[1..] + [value];
    }
  }

  class GlobalClippingEventGate {
    var anyClipping: bool
    ghost var signal: seq<bool>   // every state seen since the last reset
    ghost var raised: seq<Edge>   // and every edge raised

    ghost predicate Valid()
      reads this
    {
      anyClipping == LastOf(false, signal) && raised == Edges(false, signal)
    }

    constructor ()
      ensures Valid() && signal == []
    {
      anyClipping, signal, raised := false, [], [];
    }

    method Update(value: bool) returns (edge: Option<Edge>)
      requires Valid()
      modifies this
      ensures Valid() && anyClipping == value && signal == old(signal) + [value]
      ensures raised == old(raised) + if edge.Some? then [edge.value] else []
    {
      EdgesSnoc(false, signal, value);
      signal := signal + [value];
      if value == anyClipping {
        return None;
      }
      anyClipping := value;
      edge := Some(if value then Started else Ended);
      raised := raised + [edge.value];
    }

    method Reset()
      modifies this
      ensures Valid() && signal == []
    {
      anyClipping, signal, raised := false, [], [];
    }
  }

  class SourceCountEventGate {
    var sourceCount: int

    predicate Valid()
      reads this
    {
      sourceCount >= 0
    }

    constructor ()
      ensures Valid() && sourceCount == 0
    {
      sourceCount := 0;
    }

    method Update(count: int) returns (edge: Option<CountEdge>)
      requires Valid()
      modifies this
      ensures Valid() && sourceCount == (if count < 0 then 0 else count)
      ensures edge == Some(Joined) <==> sourceCount > old(sourceCount)
      ensures edge == Some(Left) <==> sourceCount < old(sourceCount)
    {
      var next := if count < 0 then 0 else count;
      if next == sourceCount {
        return None;
      }
      edge := Some(if next > sourceCount then Joined else Left);
      sourceCount := next;
    }

    method Reset()
      modifies this
      ensures Valid() && sourceCount == 0
    {
      sourceCount := 0;
    }
  }
}
