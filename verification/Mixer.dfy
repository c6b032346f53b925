/** How the levels of all producing effects become one command level. */
module Mixer {
  import opened Bytes
  import opened Effects

  /** A producing, supported effect, as the mixer sees it. */
  datatype Part = Part(deviceId: u32, raw: real, effectGain: real, deviceGain: real)

  predicate Fair(p: Part) {
    0.0 <= p.raw <= 1.0 && 0.0 <= p.effectGain <= 1.0 && 0.0 <= p.deviceGain <= 1.0
  }

  function Scaled(level: real, gain: real): real { level * gain }

  function Effective(p: Part): real { Scaled(Scaled(p.raw, p.effectGain), p.deviceGain) }

  // The level of the largest single effect, and the gains it came with.
  datatype Selected = Selected(command: real, effectGain: real, deviceGain: real, effective: real)

  const NOTHING := Selected(0.0, 1.0, 1.0, 0.0)

  /** The last of the largest effects, in iteration order. */
  function Strongest(parts: seq<Part>): Selected {
    if parts == [] then NOTHING
    else
      var before, p := Strongest(parts[..|parts| - 1]), parts[|parts| - 1];
      if p.raw >= before.command then Selected(p.raw, p.effectGain, p.deviceGain, Clamp01(Effective(p))) else before
  }

  // One effect's contribution to its device's sum.
  datatype Amount = Amount(deviceId: u32, value: real)

  function Commands(parts: seq<Part>): (r: seq<Amount>)
    ensures |r| == |parts| && forall i | 0 <= i < |r| :: r[i] == Amount(parts[i].deviceId, parts[i].raw)
  {
    seq(|parts|, i requires 0 <= i < |parts| => Amount(parts[i].deviceId, parts[i].raw))
  }

  function Effectives(parts: seq<Part>): (r: seq<Amount>)
    ensures |r| == |parts| && forall i | 0 <= i < |r| :: r[i] == Amount(parts[i].deviceId, Effective(parts[i]))
  {
    seq(|parts|, i requires 0 <= i < |parts| => Amount(parts[i].deviceId, Effective(parts[i])))
  }

  function DeviceSum(amounts: seq<Amount>, deviceId: u32): real {
    if amounts == [] then 0.0
    else
      var last := amounts[|amounts| - 1];
      DeviceSum(amounts[..|amounts| - 1], deviceId) + if last.deviceId == deviceId then last.value else 0.0
  }

  /** value is the largest device sum, or 0 when nothing is producing. */
  ghost predicate IsPeak(amounts: seq<Amount>, value: real) {
    && (forall i | 0 <= i < |amounts| :: DeviceSum(amounts, amounts[i].deviceId) <= value)
    && (if amounts == [] then value == 0.0
        else exists i :: 0 <= i < |amounts| && value == DeviceSum(amounts, amounts[i].deviceId))
  }

  /** The sums, device by device, as the loop collects them. */
  function Sums(amounts: seq<Amount>): map<u32, real> {
    if amounts == [] then map[]
    else
      var before, last := Sums(amounts[..|amounts| - 1]), amounts[|amounts| - 1];
      before[last.deviceId := (if last.deviceId in before then before[last.deviceId] else 0.0) + last.value]
  }

  lemma {:induction false} SumsFacts(amounts: seq<Amount>)
    ensures forall i | 0 <= i < |amounts| :: amounts[i].deviceId in Sums(amounts)
    ensures forall d | d in Sums(amounts) ::
      Sums(amounts)[d] == DeviceSum(amounts, d) && exists i :: 0 <= i < |amounts| && amounts[i].deviceId == d
    ensures forall d: u32 | d !in Sums(amounts) :: DeviceSum(amounts, d) == 0.0
  {
    if amounts == [] {
    } else {
      SumsFacts(amounts[..|amounts| - 1]);
      assert amounts[|amounts| - 1].deviceId in Sums(amounts);
    }
  }

  function PeakUpTo(amounts: seq<Amount>, n: nat): (r: real)
    requires n <= |amounts|
    ensures forall i | 0 <= i < n :: DeviceSum(amounts, amounts[i].deviceId) <= r
    ensures if n == 0 then r == 0.0 else exists i :: 0 <= i < n && r == DeviceSum(amounts, amounts[i].deviceId)
  {
    if n == 0 then 0.0
    else
      var last := DeviceSum(amounts, amounts[n - 1].deviceId);
      if n == 1 then last else MaxReal(PeakUpTo(amounts, n - 1), last)
  }

  /** The sum of the busiest device. */
  function Peak(amounts: seq<Amount>): (r: real)
    ensures IsPeak(amounts, r)
  {
    PeakUpTo(amounts, |amounts|)
  }

  // ---------- The iteration order does not matter ----------

  lemma {:induction false} SumWithout(amounts: seq<Amount>, i: nat, deviceId: u32)
    requires i < |amounts|
    ensures DeviceSum(amounts, deviceId)
      == DeviceSum(amounts[..i] + amounts[i + 1..], deviceId)
         + if amounts[i].deviceId == deviceId then amounts[i].value else 0.0
    decreases amounts
  {
    var last := |amounts| - 1;
    var rest := amounts[..i] + amounts[i + 1..];
    if i == last {
      assert rest == amounts[..last];
    } else {
      SumWithout(amounts[..last], i, deviceId);
      assert rest[..|rest| - 1] == amounts[..last][..i] + amounts[..last][i + 1..];
    }
  }

  lemma Without(a: seq<Amount>, i: nat)
    requires i < |a|
    ensures multiset(a[..i] + a[i + 1..]) == multiset(a) - multiset{a[i]}
  {
    assert a == a[..i] + [a[i]] + a[i + 1..];
  }

  /** A device's sum is the same in whatever order the effects come. */
  lemma {:induction false} SumOfPermutation(a: seq<Amount>, b: seq<Amount>, deviceId: u32)
    requires multiset(a) == multiset(b)
    ensures DeviceSum(a, deviceId) == DeviceSum(b, deviceId)
    decreases |a|
  {
    hide DeviceSum;
    assert |a| == |multiset(a)| == |multiset(b)| == |b|;
    if a == [] {
      assert b == [];
    } else {
      assert a[0] in multiset(b);
      var i :| 0 <= i < |b| && b[i] == a[0];
      Without(a, 0);
      Without(b, i);
      SumWithout(a, 0, deviceId);
      SumWithout(b, i, deviceId);
      var rest := a[..0] + a[1..];
      SumOfPermutation(rest, b[..i] + b[i + 1..], deviceId);
    }
  }

  /** So is the largest sum: there is only one peak. */
  lemma {:induction false} PeakOfPermutation(a: seq<Amount>, b: seq<Amount>, x: real, y: real)
    requires multiset(a) == multiset(b) && IsPeak(a, x) && IsPeak(b, y)
    ensures x == y
  {
    hide DeviceSum;
    assert |a| == |multiset(a)| == |multiset(b)| == |b|;
    if a == [] {
    } else {
      var i :| 0 <= i < |a| && x == DeviceSum(a, a[i].deviceId);
      var j :| 0 <= j < |b| && y == DeviceSum(b, b[j].deviceId);
      assert a[i] in multiset(b) && b[j] in multiset(a);
      var p :| 0 <= p < |b| && b[p] == a[i];
      var q :| 0 <= q < |a| && a[q] == b[j];
      SumOfPermutation(a, b, a[i].deviceId);
      SumOfPermutation(a, b, b[j].deviceId);
    }
  }

  lemma {:induction false} StrongestIsMax(parts: seq<Part>)
    requires forall i | 0 <= i < |parts| :: Fair(parts[i])
    ensures var s := Strongest(parts);
      && 0.0 <= s.effective <= s.command <= 1.0 && 0.0 <= s.effectGain <= 1.0 && 0.0 <= s.deviceGain <= 1.0
      && (forall i | 0 <= i < |parts| :: parts[i].raw <= s.command)
      && (if parts == [] then s.command == 0.0 else exists i :: 0 <= i < |parts| && parts[i].raw == s.command)
  {
    if parts == [] {
    } else {
      var front, p := parts[..|parts| - 1], parts[|parts| - 1];
      assert forall i | 0 <= i < |front| :: front[i] == parts[i];
      StrongestIsMax(front);
      EffectiveFits(p);
      if p.raw < Strongest(front).command {
        var i :| 0 <= i < |front| && front[i].raw == Strongest(front).command;
        assert parts[i] == front[i];
      }
    }
  }

  lemma EffectiveFits(p: Part)
    requires Fair(p)
    ensures 0.0 <= Effective(p) <= p.raw
  {
    hide Scaled;
    ScaledFits(p.raw, p.effectGain);
    ScaledFits(Scaled(p.raw, p.effectGain), p.deviceGain);
  }

  lemma ScaledFits(level: real, gain: real)
    requires level >= 0.0 && 0.0 <= gain <= 1.0
    ensures 0.0 <= Scaled(level, gain) <= level
  {
    ScaleDown(level, gain);
  }

  // ---------- What the mixer promises ----------

  lemma {:induction false} SumGrows(amounts: seq<Amount>, i: nat, deviceId: u32)
    requires forall k | 0 <= k < |amounts| :: amounts[k].value >= 0.0
    ensures DeviceSum(amounts, deviceId) >= 0.0
    ensures i < |amounts| && amounts[i].deviceId == deviceId ==> amounts[i].value <= DeviceSum(amounts, deviceId)
    decreases amounts
  {
    if amounts == [] {
    } else {
      SumGrows(amounts[..|amounts| - 1], i, deviceId);
    }
  }

  lemma {:induction false} SumDominates(small: seq<Amount>, large: seq<Amount>, deviceId: u32)
    requires |small| == |large|
    requires forall i | 0 <= i < |small| :: small[i].deviceId == large[i].deviceId && small[i].value <= large[i].value
    ensures DeviceSum(small, deviceId) <= DeviceSum(large, deviceId)
  {
    if small == [] {
    } else {
      SumDominates(small[..|small| - 1], large[..|large| - 1], deviceId);
    }
  }

  /** No single effect is louder than the combined level of its device, and gains only take away. */
  lemma {:induction false} CombinedBounds(parts: seq<Part>, unclamped: real, effective: real)
    requires forall i | 0 <= i < |parts| :: Fair(parts[i])
    requires IsPeak(Commands(parts), unclamped) && IsPeak(Effectives(parts), effective)
    ensures 0.0 <= Strongest(parts).command <= unclamped
    ensures 0.0 <= effective <= unclamped && Clamp01(effective) <= Clamp01(unclamped)
    ensures Strongest(parts).command <= Clamp01(unclamped)
  {
    hide DeviceSum, Effective;
    StrongestIsMax(parts);
    if parts == [] {
    } else {
      var i :| 0 <= i < |parts| && parts[i].raw == Strongest(parts).command;
      SumGrows(Commands(parts), i, parts[i].deviceId);
      var j :| 0 <= j < |parts| && effective == DeviceSum(Effectives(parts), Effectives(parts)[j].deviceId);
      forall k | 0 <= k < |parts|
        ensures 0.0 <= Effective(parts[k]) <= parts[k].raw
      {
        EffectiveFits(parts[k]);
      }
      SumDominates(Effectives(parts), Commands(parts), parts[j].deviceId);
      SumGrows(Effectives(parts), j, parts[j].deviceId);
      assert Commands(parts)[j].deviceId == parts[j].deviceId;
    }
  }

  /** The amounts with a direction each. */
  function Signed(amounts: seq<Amount>, signs: seq<bool>): (r: seq<Amount>)
    requires |signs| == |amounts|
    ensures |r| == |amounts|
    ensures forall i | 0 <= i < |r| ::
      r[i] == amounts[i].(value := if signs[i] then amounts[i].value else -amounts[i].value)
  {
    seq(|amounts|, i requires 0 <= i < |amounts| =>
      amounts[i].(value := if signs[i] then amounts[i].value else -amounts[i].value))
  }

  lemma {:induction false} SignedSum(amounts: seq<Amount>, signs: seq<bool>, deviceId: u32)
    requires |signs| == |amounts| && forall i | 0 <= i < |amounts| :: amounts[i].value >= 0.0
    ensures Abs(DeviceSum(Signed(amounts, signs), deviceId)) <= DeviceSum(amounts, deviceId)
    decreases amounts
  {
    if amounts == [] {
    } else {
      var n := |amounts| - 1;
      SignedSum(amounts[..n], signs[..n], deviceId);
      assert Signed(amounts, signs)[..n] == Signed(amounts[..n], signs[..n]);
    }
  }

  /** Whatever direction each force has, no device's total exceeds the unclamped combined level. */
  lemma {:induction false} NeverUnderstates(parts: seq<Part>, signs: seq<bool>, unclamped: real, deviceId: u32)
    requires |signs| == |parts| && (forall i | 0 <= i < |parts| :: Fair(parts[i]))
    requires IsPeak(Commands(parts), unclamped)
    ensures Abs(DeviceSum(Signed(Commands(parts), signs), deviceId)) <= unclamped
  {
    hide DeviceSum;
    SignedSum(Commands(parts), signs, deviceId);
    var sums := Sums(Commands(parts));
    SumsFacts(Commands(parts));
    if deviceId in sums {
      var i :| 0 <= i < |parts| && Commands(parts)[i].deviceId == deviceId;
    } else if parts != [] {
      var i :| 0 <= i < |parts| && unclamped == DeviceSum(Commands(parts), Commands(parts)[i].deviceId);
      SumGrows(Commands(parts), i, Commands(parts)[i].deviceId);
    }
  }
}
