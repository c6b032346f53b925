/** The registry as it is kept in memory: its walks and its calls, one after the other. */
module DeviceRegistries {
  import opened Bytes
  import opened Registry
  import opened RegistryCalls

  /** blocks and registry are the program's; the rest is history: who holds what, and which calls are under way. */
  class DeviceRegistry {
    var blocks: seq<Block>
    var registry: seq<Id>
    ghost var held: multiset<Id>
    ghost var raw: multiset<Pointer>
    ghost var given: multiset<Pointer>
    ghost var building: map<Id, Job>

    ghost function Value(): State
      reads this
    {
      State(blocks, registry, held, raw, given, building)
    }

    ghost predicate Valid()
      reads this
    {
      Inv(Value())
    }

    constructor ()
      ensures Valid() && Value() == EMPTY
    {
      blocks, registry, held, raw, given, building := [], [], multiset{}, multiset{}, multiset{}, map[];
      new;
      EmptyOk();
    }

    /** The walk along the list for a block of the same device. */
    method Find(face: Pointer, identity: Option<nat>) returns (found: Option<Id>)
      requires Formed(Value())
      ensures found == FirstMatch(Value(), registry, face, identity)
    {
      var rest := registry;
      while rest != []
        invariant forall i | i in rest :: i in registry
        invariant FirstMatch(Value(), rest, face, identity) == FirstMatch(Value(), registry, face, identity)
        decreases |rest|
      {
        assert rest[0] in rest;
        var current := rest[0];
        var block := blocks[current];
        var exact := block.realA == Some(face) || block.realW == Some(face);
        var same := identity.Some? && block.identity == identity;
        if exact || same {
          return Some(current);
        }
        rest := rest[1..];
      }
      found := None;
    }

    /** The walk that takes a block out of the list, wherever it is. */
    method Unlink(i: Id)
      modifies this`registry
      ensures registry == Without(old(registry), i)
    {
      var front, rest := [], registry;
      while rest != [] && rest[0] != i
        invariant front + Without(rest, i) == Without(old(registry), i)
        invariant front + rest == old(registry)
        decreases |rest|
      {
        WithoutNext(front, rest, i);
        front, rest := front + [rest[0]], rest[1..];
      }
      WithoutHere(rest, i);
      if rest != [] {
        rest := rest[1..];
      }
      registry := front + rest;
    }

    /** A new reference to a wrapper somebody already holds. */
    method AddRef(i: Id)
      requires Valid() && i < |blocks| && held[i] > 0 && i !in building
      modifies this`blocks, this`held
      ensures Valid() && Value() == AddedRef(old(Value()), i)
      ensures blocks[i].refs == old(blocks[i].refs) + 1
    {
      hide Inv;
      HolderLives(Value(), i);
      AddRefKeeps(Value(), i);
      blocks := blocks[i := blocks[i].(refs := blocks[i].refs + 1)];
      held := held + multiset{i};
    }

    // The destructor of a block nobody uses: it releases the interfaces the block still owns.
    method Destroy(i: Id)
      requires Valid() && i < |blocks| && blocks[i].alive && blocks[i].refs == 0
      modifies this`blocks, this`given
      ensures Valid() && Value() == Deleted(old(Value()), i)
    {
      hide Inv, Own;
      DeleteKeeps(Value(), i);
      GiveBack(blocks[i]);
      blocks := blocks[i := blocks[i].(alive := false)];
    }

    // Releases the interfaces of a block to the real device.
    ghost method GiveBack(b: Block)
      requires b.alive
      modifies this`given
      ensures given == old(given) - Own(b)
    {
      TakenTogether(given, b);
      if b.realA.Some? {
        given := given - multiset{b.realA.value};
      }
      if b.realW.Some? {
        given := given - multiset{b.realW.value};
      }
    }

    // The counter and, at zero, the list; under the lock.
    method CountDown(i: Id) returns (count: nat)
      requires i < |blocks| && blocks[i].refs > 0
      modifies this`blocks, this`held, this`registry
      ensures Value() == Released(old(Value()), i) && count == old(blocks[i].refs) - 1
    {
      hide Without;
      count := blocks[i].refs - 1;
      blocks := blocks[i := blocks[i].(refs := count)];
      held := held - multiset{i};
      if count == 0 {
        Unlink(i);
      }
    }

    /** One reference less; the last one takes the block out of the list and destroys it. */
    method Release(i: Id) returns (count: nat)
      requires Valid() && i < |blocks| && held[i] > 0 && i !in building
      modifies this
      ensures Valid() && count == old(blocks[i].refs) - 1 && Value() == Dropped(old(Value()), i)
      ensures count == 0 ==> i !in registry && held[i] == 0 && !blocks[i].alive
    {
      hide Inv, Released, Deleted;
      HolderLives(Value(), i);
      ReleaseKeeps(Value(), i);
      ReleasedIs(Value(), i);
      count := CountDown(i);
      if count == 0 {
        SpentAlone(Value(), i);
        DeletedIs(Value(), i);
        Destroy(i);
      }
    }

    // The candidate's block, with what the real device's calls gave it.
    method Prepare(p: Publication) returns (c: Id)
      requires Valid() && raw[p.face] > 0
      modifies this
      ensures c == |old(blocks)| && Value() == Built(old(Value()), BuildOf(p)) && Valid()
    {
      hide Inv;
      BuiltCandidate(Value(), p);
      c := |blocks|;
      var block :=
        if p.unicode then Block(true, 1, p.alias, Some(p.face), p.alias.Some? && p.aliasWrapped, true, p.identity)
                   else Block(true, 1, Some(p.face), p.alias, true, p.alias.Some? && p.aliasWrapped, p.identity);
      blocks := blocks + [block];
      raw, held := raw - multiset{p.face}, held + multiset{c};
      given := given + if p.alias.Some? then multiset{p.alias.value} else multiset{};
      building := building[c := Job(p.unicode, p.face, if ValidBlock(block) then Looking else Returning)];
    }

    // What remains of a candidate that was not published; a failed one hands the caller's interface back first.
    method Discard(c: Id, unicode: bool, detach: bool)
      requires Valid() && c in building && !building[c].stage.Looking?
      requires unicode == building[c].unicode && detach == building[c].stage.Returning?
      modifies this
      ensures Valid() && Value() == Discarded(old(Value()), c)
    {
      hide Inv, Released, Deleted, Without;
      Outside(Value());
      FinishAccounts(Value(), c);
      ghost var s := Value();
      if detach {
        blocks := blocks[c := if unicode then blocks[c].(realW := None) else blocks[c].(realA := None)];
        raw := raw + multiset{building[c].face};
      }
      ghost var job := building;
      var count := CountDown(c);
      building := building - {c};
      assert Value() == Finished(s, c) by { FinishedIs(s, c); }
      SpentIs(Value(), c);
      Destroy(c);
    }

    // The section under the lock: share what is registered, link the candidate, or neither.
    method Settle(c: Id, face: Pointer, unicode: bool, identity: Option<nat>) returns (answer: Option<Id>)
      requires Valid() && c in building && building[c] == Job(unicode, face, Looking) && c < |blocks|
        && blocks[c].identity == identity
      modifies this
      ensures Valid() && Value() == LookedUp(old(Value()), c) && answer == Answer(old(Value()), c)
    {
      hide Inv, FirstMatch, LookedUp, Answer, HasSide;
      FormedOf(Value());
      LookupAccounts(Value(), c);
      LookedUpIs(Value(), c);
      var found := Find(face, identity);
      if found.None? {
        registry := [c] + registry;
        building := building - {c};
        return Some(c);
      }
      var i := found.value;
      assert HasSide(blocks[i], unicode) == (if unicode then blocks[i].hasW else blocks[i].hasA) by {
        SideIs(blocks[i], unicode);
      }
      if if unicode then blocks[i].hasW else blocks[i].hasA {
        blocks := blocks[i := blocks[i].(refs := blocks[i].refs + 1)];
        held := held + multiset{i};
        building := building[c := building[c].(stage := Doomed)];
        return found;
      }
      building := building[c := building[c].(stage := Returning)];
      answer := None;
    }

    /**
     publish_or_add_ref, with the outcomes of the real device's calls given. It answers with a new block, now the
     head of the list, exactly if its alias is wrapped and no registered block is of the device; with the first
     registered block of the device exactly if the alias is wrapped and that block has the side asked for; and
     otherwise with nothing. A success consumes the caller's reference for one of the wrapper; a failure leaves
     every count and the list as they were.
     */
    method PublishOrAddRef(p: Publication) returns (wrapper: Option<Id>)
      requires Valid() && raw[p.face] > 0
      modifies this
      ensures Valid() && (Value(), wrapper) == Publish(old(Value()), p)
      ensures wrapper.None? ==> raw == old(raw) && held == old(held) && given == old(given) && registry == old(registry)
      ensures wrapper.Some? ==>
        raw == old(raw) - multiset{p.face} && held == old(held) + multiset{wrapper.value} && wrapper.value in registry
      ensures wrapper == Some(|old(blocks)|) <==>
        (p.alias.Some? ==> p.aliasWrapped) && forall i | i in old(registry) :: !SameDevice(old(Value()), i, p)
      ensures registry == if wrapper == Some(|old(blocks)|) then [|old(blocks)|] + old(registry) else old(registry)
      ensures wrapper == Some(|old(blocks)|) ==> |old(blocks)| < |blocks| && IsNew(blocks[|old(blocks)|], p)
      ensures forall k: nat | FirstIn(old(Value()), old(registry), p, k) ::
        wrapper == Some(old(registry)[k]) <==>
          (p.alias.Some? ==> p.aliasWrapped) && Offers(old(Value()), old(registry)[k], p)
      ensures wrapper.Some? && wrapper != Some(|old(blocks)|) ==>
        exists k: nat :: FirstIn(old(Value()), old(registry), p, k) && wrapper == Some(old(registry)[k])
    {
      hide FirstIn, SameDevice, Offers, IsNew, Inv, Built, LookedUp, Discarded, Answer, Publish, NewBlock, ValidBlock,
        Settled, Alias;
      ghost var s := Value();
      PublishSettles(s, p);
      SettledIs(s, p, Publish(s, p).0, Publish(s, p).1);
      BuiltCandidate(s, p);
      PublishSteps(s, p);
      PublishAnswersAlone(s, p);
      NewIdentity(p);
      var c := Prepare(p);
      if !ValidBlock(blocks[c]) {
        Discard(c, p.unicode, true);
        return None;
      }
      LookupAccounts(Value(), c);
      wrapper := Settle(c, p.face, p.unicode, p.identity);
      if wrapper != Some(c) {
        Discard(c, p.unicode, wrapper.None?);
      }
    }
  }

  lemma SettledIs(s: State, p: Publication, n: State, r: Option<Id>)
    requires Settled(s, p, n, r)
    ensures r.None? ==> n.raw == s.raw && n.held == s.held && n.given == s.given && n.registry == s.registry
    ensures r.Some? ==>
      n.raw == s.raw - multiset{p.face} && n.held == s.held + multiset{r.value} && r.value in n.registry
  {
    hide Alias;
    assert [] + s.registry == s.registry;
  }

  lemma WithoutHere(rest: seq<Id>, i: Id)
    requires rest == [] || rest[0] == i
    ensures Without(rest, i) == if rest == [] then [] else rest[1..]
  {
  }

  lemma WithoutNext(front: seq<Id>, rest: seq<Id>, i: Id)
    requires rest != [] && rest[0] != i
    ensures front + [rest[0]] + Without(rest[1..], i) == front + Without(rest, i)
    ensures front + [rest[0]] + rest[1..] == front + rest
  {
    assert front + ([rest[0]] + Without(rest[1..], i)) == front + [rest[0]] + Without(rest[1..], i);
  }

  lemma TakenTogether(given: multiset<Pointer>, b: Block)
    requires b.alive
    ensures var a := if b.realA.Some? then given - multiset{b.realA.value} else given;
      (if b.realW.Some? then a - multiset{b.realW.value} else a) == given - Own(b)
  {
  }

  lemma ReleasedIs(s: State, i: Id)
    requires i < |s.blocks| && s.blocks[i].refs > 0
    ensures var n := Released(s, i);
      && |n.blocks| == |s.blocks| && n.blocks[i] == s.blocks[i].(refs := s.blocks[i].refs - 1)
        && n.building == s.building
  {
    hide Without;
  }

  lemma DeletedIs(s: State, i: Id)
    requires i < |s.blocks|
    ensures var n := Deleted(s, i); i < |n.blocks| && !n.blocks[i].alive && n.registry == s.registry && n.held == s.held
  {
    hide Own;
  }

  lemma FinishedIs(s: State, c: Id)
    requires c < |s.blocks| && c in s.building && s.blocks[c].refs > 0
    ensures Finished(s, c)
      == Released(if s.building[c].stage.Returning? then Detached(s, c) else s, c).(building := s.building - {c})
  {
    hide Released, Detached;
  }

  lemma SideIs(b: Block, unicode: bool)
    ensures HasSide(b, unicode) == if unicode then b.hasW else b.hasA
  {
  }

  lemma LookedUpIs(s: State, c: Id)
    requires Formed(s) && c in s.building
    ensures var (job, found) := (s.building[c], FirstMatch(s, s.registry, s.building[c].face, s.blocks[c].identity));
      if found.None? then
        Answer(s, c) == Some(c) && LookedUp(s, c) == s.(registry := [c] + s.registry, building := s.building - {c})
      else
        var i := found.value;
        && i < |s.blocks|
        && if HasSide(s.blocks[i], job.unicode) then
             Answer(s, c) == found && LookedUp(s, c) ==
               s.(blocks := s.blocks[i := s.blocks[i].(refs := s.blocks[i].refs + 1)], held := s.held + multiset{i},
                  building := s.building[c := job.(stage := Doomed)])
           else Answer(s, c) == None && LookedUp(s, c) == s.(building := s.building[c := job.(stage := Returning)])
  {
    hide FirstMatch, HasSide, Matches, Staged, AddedRef;
    var job, found := s.building[c], FirstMatch(s, s.registry, s.building[c].face, s.blocks[c].identity);
    if found.Some? {
      var i := found.value;
      InBlocks(s, i);
      if HasSide(s.blocks[i], job.unicode) {
        SharedIs(s, i, c);
      } else {
        StagedIs(s, c, Returning);
      }
    }
  }

  lemma InBlocks(s: State, i: Id)
    requires Formed(s) && i in s.registry
    ensures i < |s.blocks|
  {
  }

  lemma StagedIs(s: State, c: Id, stage: Stage)
    requires c in s.building
    ensures Staged(s, c, stage) == s.(building := s.building[c := s.building[c].(stage := stage)])
  {
  }

  lemma SharedIs(s: State, i: Id, c: Id)
    requires i < |s.blocks| && c in s.building
    ensures AddedRef(s, i).building == s.building
    ensures Staged(AddedRef(s, i), c, Doomed) ==
      s.(blocks := s.blocks[i := s.blocks[i].(refs := s.blocks[i].refs + 1)], held := s.held + multiset{i},
         building := s.building[c := s.building[c].(stage := Doomed)])
  {
  }

  // The call, step by step.
  lemma PublishSteps(s: State, p: Publication)
    requires Inv(s) && s.raw[p.face] > 0
    ensures var (b, c) := (Built(s, BuildOf(p)), |s.blocks|);
      && Formed(b) && c in b.building
      && Publish(s, p) == (
        if b.building[c].stage.Returning? then (Discarded(b, c), None)
        else if Answer(b, c) == Some(c) then (LookedUp(b, c), Some(c))
        else (Discarded(LookedUp(b, c), c), Answer(b, c)))
  {
    BuiltCandidate(s, p);
    hide Inv, Built, LookedUp, Discarded, Answer;
  }

  lemma NewIdentity(p: Publication)
    ensures BlockOf(p).identity == p.identity
  {
  }
}
