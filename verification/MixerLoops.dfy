/** The running sums of the mixer loop. */
module MixerLoops {
  import opened Bytes
  import opened Effects
  import opened Mixer

  /** Counters and per-device sums, as the loop over the effects collects them. */
  class MixBoard {
    var selected: Selected
    var commandByDevice: map<u32, real>
    var effectiveByDevice: map<u32, real>
    var active: nat
    var unsupported: nat
    ghost var seen: seq<Part>

    ghost function Parts(): seq<Part>
      reads this
    {
      seen
    }

    ghost predicate Valid()
      reads this
    {
      && selected == Strongest(seen)
      && commandByDevice == Sums(Commands(seen)) && effectiveByDevice == Sums(Effectives(seen))
    }

    constructor ()
      ensures Valid() && Parts() == [] && active == 0 && unsupported == 0
    {
      selected, commandByDevice, effectiveByDevice, active, unsupported := NOTHING, map[], map[], 0, 0;
      seen := [];
    }

    method Count(supported: bool)
      requires Valid()
      modifies this`active, this`unsupported
      ensures Valid() && active == old(active) + 1 && unsupported == old(unsupported) + if supported then 0 else 1
    {
      active := active + 1;
      unsupported := unsupported + if supported then 0 else 1;
    }

    method Add(p: Part)
      requires Valid()
      modifies this`selected, this`commandByDevice, this`effectiveByDevice, this`seen
      ensures Valid() && Parts() == old(Parts()) + [p]
    {
      hide Strongest, Sums, Effective, Clamp01, Commands, Effectives;
      StrongestSnoc(seen, p);
      AmountsSnoc(seen, p);
      SumsSnoc(Commands(seen), Amount(p.deviceId, p.raw));
      SumsSnoc(Effectives(seen), Amount(p.deviceId, Effective(p)));
      if p.raw >= selected.command {
        selected := Selected(p.raw, p.effectGain, p.deviceGain, Clamp01(Effective(p)));
      }
      var commandSum := if p.deviceId in commandByDevice then commandByDevice[p.deviceId] else 0.0;
      commandByDevice := commandByDevice[p.deviceId := commandSum + p.raw];
      var effectiveSum := if p.deviceId in effectiveByDevice then effectiveByDevice[p.deviceId] else 0.0;
      effectiveByDevice := effectiveByDevice[p.deviceId := effectiveSum + Effective(p)];
      seen := seen + [p];
    }

    /** The largest sums. */
    method Busiest() returns (command: real, effective: real)
      requires Valid()
      ensures command == Peak(Commands(Parts())) && effective == Peak(Effectives(Parts()))
    {
      command := MaxValue(commandByDevice);
      effective := MaxValue(effectiveByDevice);
      MaxIsPeak(Commands(seen), command);
      MaxIsPeak(Effectives(seen), effective);
    }
  }

  lemma StrongestSnoc(parts: seq<Part>, p: Part)
    ensures Strongest(parts + [p]) ==
      if p.raw >= Strongest(parts).command then Selected(p.raw, p.effectGain, p.deviceGain, Clamp01(Effective(p)))
        else Strongest(parts)
  {
    hide Effective, Clamp01;
    assert (parts + [p])[..|parts|] == parts;
  }

  /** The device's running sum with one more amount. */
  function SumWith(m: map<u32, real>, a: Amount): map<u32, real> {
    m[a.deviceId := (if a.deviceId in m then m[a.deviceId] else 0.0) + a.value]
  }

  lemma SumsSnoc(amounts: seq<Amount>, a: Amount)
    ensures Sums(amounts + [a]) == SumWith(Sums(amounts), a)
  {
    hide DeviceSum;
    assert (amounts + [a])[..|amounts|] == amounts;
  }

  lemma AmountsSnoc(parts: seq<Part>, p: Part)
    ensures Commands(parts + [p]) == Commands(parts) + [Amount(p.deviceId, p.raw)]
    ensures Effectives(parts + [p]) == Effectives(parts) + [Amount(p.deviceId, Effective(p))]
  {
    hide Effective;
  }

  method MaxValue(m: map<u32, real>) returns (r: real)
    ensures forall d | d in m :: m[d] <= r
    ensures if m == map[] then r == 0.0 else exists d :: d in m && m[d] == r
  {
    r := 0.0;
    if m == map[] {
      return;
    }
    var first :| first in m;
    r := m[first];
    var keys := m.Keys;
    while keys != {}
      invariant keys <= m.Keys
      invariant forall d | d in m && d !in keys :: m[d] <= r
      invariant exists d :: d in m && m[d] == r
      decreases keys
    {
      var d :| d in keys;
      if m[d] > r {
        r := m[d];
      }
      keys := keys - {d};
    }
  }

  lemma MaxIsPeak(amounts: seq<Amount>, r: real)
    requires forall d | d in Sums(amounts) :: Sums(amounts)[d] <= r
    requires if Sums(amounts) == map[] then r == 0.0 else exists d :: d in Sums(amounts) && Sums(amounts)[d] == r
    ensures r == Peak(amounts)
  {
    hide DeviceSum, Peak;
    SumsFacts(amounts);
    if amounts != [] {
      assert amounts[0].deviceId in Sums(amounts);
      var d :| d in Sums(amounts) && Sums(amounts)[d] == r;
      var i :| 0 <= i < |amounts| && amounts[i].deviceId == d;
      assert r == DeviceSum(amounts, amounts[i].deviceId);
    }
    assert IsPeak(amounts, r);
    PeakOfPermutation(amounts, amounts, r, Peak(amounts));
  }

  lemma EachInOrder<K>(order: seq<K>, keys: set<K>, i: nat)
    requires multiset(order) == multiset(keys) && i < |order|
    ensures order[i] in keys && order[i] !in order[..i]
  {
    assert order[i] in multiset(order);
    assert order == order[..i] + [order[i]] + order[i + 1..];
    assert multiset(order)[order[i]] == multiset(order[..i])[order[i]] + 1 + multiset(order[i + 1..])[order[i]];
    assert order[i] !in multiset(order[..i]);
  }

  lemma AllInOrder<K>(order: seq<K>, keys: set<K>)
    requires multiset(order) == multiset(keys)
    ensures forall k | k in keys :: k in order
  {
    forall k | k in keys
      ensures k in order
    {
      assert k in multiset(order);
    }
  }
}
