/**
 What a tick finds does not depend on the order in which the effect table is walked, but for the gains
 shown with the largest effect when several are equally large.
 */
module MixerOrder {
  import opened Bytes
  import opened Effects
  import opened Settings
  import opened Hysteresis
  import opened Mixer
  import opened Sources
  import opened SourceSafety

  function Drop<T>(s: seq<T>, i: nat): seq<T>
    requires i < |s|
  {
    s[..i] + s[i + 1..]
  }

  lemma DropOne<T>(s: seq<T>, i: nat)
    requires i < |s|
    ensures multiset(Drop(s, i)) == multiset(s) - multiset{s[i]}
  {
    assert s == s[..i] + [s[i]] + s[i + 1..];
  }

  lemma IndexOf<T>(s: seq<T>, x: T) returns (i: nat)
    requires x in multiset(s)
    ensures i < |s| && s[i] == x
  {
    i :| 0 <= i < |s| && s[i] == x;
  }

  function Triggers(e: Effect): nat { if HasUnobservableTrigger(e) then 1 else 0 }

  lemma {:induction false} PartsWithout(s: Source, order: seq<EffectKey>, i: nat, now: real, sine: real -> real)
    requires i < |order| && forall k | k in order :: k in s.effects
    ensures multiset(Parts(s, order, now, sine))
      == multiset(Parts(s, Drop(order, i), now, sine)) + multiset(PartsOf(s.effects[order[i]], s.devices, now, sine))
    ensures CountSounding(s, order, now) == CountSounding(s, Drop(order, i), now)
      + Sounds(s.effects[order[i]], s.devices, now)
    ensures CountUnsupported(s, order, now) == CountUnsupported(s, Drop(order, i), now)
      + Unsupported(s.effects[order[i]], s.devices, now)
    ensures CountTriggers(s, order) == CountTriggers(s, Drop(order, i)) + Triggers(s.effects[order[i]])
    decreases order
  {
    hide PartsOf, Sounds, Unsupported, Triggers, Parts, CountSounding, CountUnsupported, CountTriggers;
    var last := |order| - 1;
    var rest := Drop(order, i);
    LastPart(s, order, now, sine);
    if i == last {
      assert rest == order[..last];
    } else {
      PartsWithout(s, order[..last], i, now, sine);
      assert rest[..|rest| - 1] == Drop(order[..last], i) && rest[|rest| - 1] == order[last];
      LastPart(s, rest, now, sine);
    }
  }

  lemma LastPart(s: Source, order: seq<EffectKey>, now: real, sine: real -> real)
    requires order != [] && order[|order| - 1] in s.effects
    ensures var (front, e) := (order[..|order| - 1], s.effects[order[|order| - 1]]);
      && multiset(Parts(s, order, now, sine))
        == multiset(Parts(s, front, now, sine)) + multiset(PartsOf(e, s.devices, now, sine))
      && CountSounding(s, order, now) == CountSounding(s, front, now) + Sounds(e, s.devices, now)
      && CountUnsupported(s, order, now) == CountUnsupported(s, front, now) + Unsupported(e, s.devices, now)
      && CountTriggers(s, order) == CountTriggers(s, front) + Triggers(e)
  {
    hide PartsOf, Sounds, Unsupported, HasUnobservableTrigger;
  }

  /** The same effects, walked in another order, give the same parts, and as many of each kind. */
  lemma {:induction false} PartsOfPermutation(s: Source, a: seq<EffectKey>, b: seq<EffectKey>, now: real,
      sine: real -> real)
    requires multiset(a) == multiset(b) && forall k | k in multiset(a) :: k in s.effects
    ensures multiset(Parts(s, a, now, sine)) == multiset(Parts(s, b, now, sine))
    ensures CountSounding(s, a, now) == CountSounding(s, b, now)
      && CountUnsupported(s, a, now) == CountUnsupported(s, b, now) && CountTriggers(s, a) == CountTriggers(s, b)
    decreases |a|
  {
    hide Parts, CountSounding, CountUnsupported, CountTriggers, PartsOf, Sounds, Unsupported, Triggers;
    assert |a| == |multiset(a)| == |multiset(b)| == |b|;
    if a == [] {
      assert b == [];
    } else {
      assert a[0] in multiset(b);
      var i := IndexOf(b, a[0]);
      assert forall k | k in a :: k in multiset(a);
      assert forall k | k in b :: k in multiset(b);
      PartsWithout(s, a, 0, now, sine);
      PartsWithout(s, b, i, now, sine);
      DropOne(a, 0);
      DropOne(b, i);
      PartsOfPermutation(s, Drop(a, 0), Drop(b, i), now, sine);
    }
  }

  lemma {:induction false} AmountsOfPermutation(p: seq<Part>, q: seq<Part>)
    requires multiset(p) == multiset(q)
    ensures multiset(Commands(p)) == multiset(Commands(q)) && multiset(Effectives(p)) == multiset(Effectives(q))
    decreases |p|
  {
    hide Effective;
    assert |p| == |multiset(p)| == |multiset(q)| == |q|;
    if p == [] {
      assert q == [];
    } else {
      assert p[0] in multiset(q);
      var i := IndexOf(q, p[0]);
      DropOne(p, 0);
      DropOne(q, i);
      AmountsOfPermutation(Drop(p, 0), Drop(q, i));
      AmountsDrop(p, 0);
      AmountsDrop(q, i);
    }
  }

  lemma AmountsDrop(p: seq<Part>, i: nat)
    requires i < |p|
    ensures multiset(Commands(p)) == multiset(Commands(Drop(p, i))) + multiset{Amount(p[i].deviceId, p[i].raw)}
    ensures multiset(Effectives(p)) == multiset(Effectives(Drop(p, i)))
      + multiset{Amount(p[i].deviceId, Effective(p[i]))}
  {
    hide Effective;
    DropOne(Commands(p), i);
    DropOne(Effectives(p), i);
    assert Drop(Commands(p), i) == Commands(Drop(p, i));
    assert Drop(Effectives(p), i) == Effectives(Drop(p, i));
    assert Commands(p)[i] in multiset(Commands(p)) && Effectives(p)[i] in multiset(Effectives(p));
  }

  // ---------- The largest single effect ----------

  predicate Loudest(parts: seq<Part>, p: Part) {
    p in parts && forall q | q in parts :: q.raw <= p.raw
  }

  /** The equally largest parts all carry the same gains. */
  ghost predicate SameGains(parts: seq<Part>) {
    forall p, q | Loudest(parts, p) && Loudest(parts, q) :: p.effectGain == q.effectGain && p.deviceGain == q.deviceGain
  }

  function Shown(p: Part): Selected { Selected(p.raw, p.effectGain, p.deviceGain, Clamp01(Effective(p))) }

  lemma StrongestSnoc(front: seq<Part>, last: Part)
    ensures Strongest(front + [last]) == if last.raw >= Strongest(front).command then Shown(last) else Strongest(front)
    ensures Strongest([]).command == 0.0
  {
    assert (front + [last])[..|front|] == front;
  }

  lemma LoudestSnoc(front: seq<Part>, last: Part)
    ensures (forall q | q in front :: q.raw <= last.raw) ==> Loudest(front + [last], last)
    ensures forall p | Loudest(front, p) && last.raw < p.raw :: Loudest(front + [last], p)
    ensures forall p | Loudest(front, p) && last.raw >= p.raw :: Loudest(front + [last], last)
  {
  }

  lemma {:induction false} StrongestIsLoudest(parts: seq<Part>)
    requires parts != [] && forall p | p in parts :: Fair(p)
    ensures exists p :: Loudest(parts, p) && Strongest(parts) == Shown(p)
  {
    hide Effective, Strongest, Loudest;
    var front, last := parts[..|parts| - 1], parts[|parts| - 1];
    assert parts == front + [last];
    StrongestSnoc(front, last);
    LoudestSnoc(front, last);
    if front == [] {
      assert last in parts;
      assert Loudest(parts, last) && Strongest(parts) == Shown(last);
    } else {
      StrongestIsLoudest(front);
      var p :| Loudest(front, p) && Strongest(front) == Shown(p);
      assert if last.raw >= p.raw then Loudest(parts, last) && Strongest(parts) == Shown(last)
             else Loudest(parts, p) && Strongest(parts) == Shown(p);
    }
  }

  lemma SameMembers(p: seq<Part>, q: seq<Part>)
    requires multiset(p) == multiset(q)
    ensures |p| == |q| && forall x :: x in p <==> x in q
  {
    assert |p| == |multiset(p)| == |multiset(q)| == |q|;
    assert forall x :: x in p <==> x in multiset(p);
    assert forall x :: x in q <==> x in multiset(q);
  }

  /** Its level does not depend on the order, and what is shown of it does not either unless gains differ on a tie. */
  lemma LoudestOfPermutation(p: seq<Part>, q: seq<Part>)
    requires multiset(p) == multiset(q) && forall x | x in p :: Fair(x)
    ensures Strongest(p).command == Strongest(q).command
    ensures SameGains(p) ==> Strongest(p) == Strongest(q)
  {
    hide Strongest, Fair, Effective;
    SameMembers(p, q);
    if p == [] {
      assert q == [];
    } else {
      StrongestIsLoudest(p);
      StrongestIsLoudest(q);
      var x :| Loudest(p, x) && Strongest(p) == Shown(x);
      var y :| Loudest(q, y) && Strongest(q) == Shown(y);
      assert Loudest(p, y);
      EffectiveOfGains(x, y);
    }
  }

  lemma EffectiveOfGains(x: Part, y: Part)
    ensures x.raw == y.raw && x.effectGain == y.effectGain && x.deviceGain == y.deviceGain ==>
      Effective(x) == Effective(y)
  {
  }

  // ---------- A tick's levels ----------

  lemma OrderKnown(s: Source, order: seq<EffectKey>)
    requires Enumerates(order, s.effects.Keys)
    ensures forall k | k in order :: k in s.effects
    ensures forall k | k in multiset(order) :: k in s.effects
  {
    assert forall k | k in order :: k in multiset(order);
  }

  /** Every level and every count, and the largest effect unless gains differ on a tie. */
  lemma LevelsOfAnyOrder(s: Source, a: seq<EffectKey>, b: seq<EffectKey>, now: real, sine: real -> real)
    requires SourceInv(s) && Enumerates(a, s.effects.Keys) && Enumerates(b, s.effects.Keys)
    ensures var (x, y) := (LevelsAt(s, a, now, sine), LevelsAt(s, b, now, sine));
      && x == y.(selected := x.selected) && x.selected.command == y.selected.command
      && (SameGains(Parts(s, a, now, sine)) ==> x == y)
  {
    hide Parts, CountSounding, CountUnsupported, CountTriggers, Peak, IsPeak, Strongest, Fair, Clamp01, MaxReal, Tables,
      SameGains;
    OrderKnown(s, a);
    PartsOfPermutation(s, a, b, now, sine);
    var p, q := Parts(s, a, now, sine), Parts(s, b, now, sine);
    AmountsOfPermutation(p, q);
    PartsFair(s, a, now, sine);
    LoudestOfPermutation(p, q);
    PeakOfPermutation(Commands(p), Commands(q), Peak(Commands(p)), Peak(Commands(q)));
    PeakOfPermutation(Effectives(p), Effectives(q), Peak(Effectives(p)), Peak(Effectives(q)));
  }

  lemma {:induction false} PartHasKey(s: Source, order: seq<EffectKey>, now: real, sine: real -> real, p: Part)
      returns (i: nat)
    requires p in Parts(s, order, now, sine)
    ensures i < |order| && order[i] in s.effects && PartsOf(s.effects[order[i]], s.devices, now, sine) == [p]
    decreases order
  {
    hide Heard, IsSupported;
    var last := |order| - 1;
    if p in Parts(s, order[..last], now, sine) {
      i := PartHasKey(s, order[..last], now, sine, p);
    } else {
      i := last;
    }
  }

  lemma LastWins(parts: seq<Part>, p: Part)
    requires Loudest(parts + [p], p) && Fair(p) && forall x | x in parts :: Fair(x)
    ensures Strongest(parts + [p]) == Shown(p)
  {
    hide Effective, Strongest;
    StrongestSnoc(parts, p);
    if parts != [] {
      StrongestIsLoudest(parts);
      var x :| Loudest(parts, x) && Strongest(parts) == Shown(x);
      assert x in parts + [p];
    }
  }

  // The order with one key moved to the end shows the part of that key.
  lemma MovedLast(s: Source, a: seq<EffectKey>, i: nat, now: real, sine: real -> real, p: Part)
    requires SourceInv(s) && Enumerates(a, s.effects.Keys) && i < |a| && a[i] in s.effects
    requires PartsOf(s.effects[a[i]], s.devices, now, sine) == [p] && Loudest(Parts(s, a, now, sine), p)
    ensures var b := Drop(a, i) + [a[i]];
      Enumerates(b, s.effects.Keys) && LevelsAt(s, b, now, sine).selected == Shown(p)
  {
    hide Parts, PartsOf, Strongest, Fair, Tables, Shown, Peak, IsPeak;
    var b := Drop(a, i) + [a[i]];
    DropOne(a, i);
    assert a[i] in multiset(a);
    assert multiset(b) == multiset(Drop(a, i)) + multiset{a[i]};
    OrderKnown(s, a);
    PartsOfPermutation(s, a, b, now, sine);
    var front := Parts(s, Drop(a, i), now, sine);
    PartsSnoc(s, Drop(a, i), a[i], now, sine);
    SameMembers(Parts(s, a, now, sine), front + [p]);
    PartsFair(s, b, now, sine);
    assert forall x | x in front :: x in front + [p];
    LastWins(front, p);
  }

  lemma PartsSnoc(s: Source, order: seq<EffectKey>, key: EffectKey, now: real, sine: real -> real)
    requires key in s.effects
    ensures Parts(s, order + [key], now, sine)
      == Parts(s, order, now, sine) + PartsOf(s.effects[key], s.devices, now, sine)
  {
    assert (order + [key])[..|order|] == order;
  }

  /**
   What is shown of the largest effect is the same for every order of the table if and only if all
   equally largest parts carry the same gains.
   */
  lemma SelectedOfAnyOrder(s: Source, a: seq<EffectKey>, now: real, sine: real -> real)
    requires SourceInv(s) && Enumerates(a, s.effects.Keys)
    ensures SameGains(Parts(s, a, now, sine)) <==>
      forall b | Enumerates(b, s.effects.Keys) ::
        LevelsAt(s, b, now, sine).selected == LevelsAt(s, a, now, sine).selected
  {
    hide LevelsAt, Parts, PartsOf, Enumerates, SourceInv, Loudest;
    var parts := Parts(s, a, now, sine);
    if SameGains(parts) {
      forall b | Enumerates(b, s.effects.Keys)
        ensures LevelsAt(s, b, now, sine).selected == LevelsAt(s, a, now, sine).selected
      {
        LevelsOfAnyOrder(s, a, b, now, sine);
      }
    } else {
      var p, q :| Loudest(parts, p) && Loudest(parts, q)
        && !(p.effectGain == q.effectGain && p.deviceGain == q.deviceGain);
      LoudestIn(parts, p);
      LoudestIn(parts, q);
      var i := PartHasKey(s, a, now, sine, p);
      var j := PartHasKey(s, a, now, sine, q);
      MovedLast(s, a, i, now, sine, p);
      MovedLast(s, a, j, now, sine, q);
      assert Shown(p) != Shown(q);
    }
  }

  lemma LoudestIn(parts: seq<Part>, p: Part)
    requires Loudest(parts, p)
    ensures p in parts
  {
  }

  /** Two equally large parts whose gains differ are shown in turn, as the order has it. */
  lemma TieShowsTheLast()
    ensures var (p, q) := (Part(1, 0.5, 1.0, 1.0), Part(1, 0.5, 0.0, 1.0));
      Strongest([p, q]).effective == 0.0 && Strongest([q, p]).effective == 0.5
  {
    var p, q := Part(1, 0.5, 1.0, 1.0), Part(1, 0.5, 0.0, 1.0);
    assert [p][..0] == [] && [q][..0] == [];
    assert Effective(p) == 0.5 && Effective(q) == 0.0;
    assert Strongest([p]) == Shown(p) && Strongest([q]) == Shown(q);
    assert [p, q][..1] == [p] && [q, p][..1] == [q];
  }

  /**
   A tick does the same in every order: the same edge, the same meter, the same effects and everything else of
   the source, but for what is shown of the largest effect.
   */
  lemma TickOfAnyOrder(s: Source, a: seq<EffectKey>, b: seq<EffectKey>, now: real, settings: Settings,
      sine: real -> real)
    requires SourceInv(s) && Normal(settings) && Enumerates(a, s.effects.Keys) && Enumerates(b, s.effects.Keys)
    ensures var ((x, e), (y, f)) := (TickSource(s, a, now, settings, sine), TickSource(s, b, now, settings, sine));
      && e == f && x == y.(levels := y.levels.(selected := x.levels.selected))
      && x.levels.selected.command == y.levels.selected.command
      && (SameGains(Parts(s, a, now, sine)) ==> x == y)
  {
    hide LevelsAt, Tick, SourceInv, Normal, ProbedEffects, SameGains, Parts, Enumerates;
    LevelsOfAnyOrder(s, a, b, now, sine);
  }
}
