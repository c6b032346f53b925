/** Whole calls on the wrapper registry, and what they do to everybody's references. */
module RegistryCalls {
  import opened Bytes
  import opened Registry

  const EMPTY := State([], [], multiset{}, multiset{}, multiset{}, map[])

  ghost function Run(s: State, actions: seq<Action>): (r: State)
    requires Inv(s)
    ensures Inv(r)
    decreases actions
  {
    if actions == [] then s
    else if Enabled(s, actions[0]) then StepKeeps(s, actions[0]); Run(Step(s, actions[0]), actions[1..])
    else Run(s, actions[1..])
  }

  /**
   Under any interleaving of publish, AddRef, Release and destruction: every registered block is in
   use, no two are of one device, and every reference the real devices gave out is a caller's or a block's.
   */
  lemma RegistryIsSound(actions: seq<Action>)
    ensures Inv(EMPTY)
    ensures var s := Run(EMPTY, actions);
      && (forall i | i in s.registry :: i < |s.blocks| && s.blocks[i].alive && s.blocks[i].refs > 0)
      && (forall i, j | i in s.registry && j in s.registry && s.blocks[i].identity.Some?
            && s.blocks[i].identity == s.blocks[j].identity :: i == j)
      && (forall p :: s.given[p] == s.raw[p] + Owned(s.blocks, p))
      && (forall i | 0 <= i < |s.blocks| :: s.held[i] == if s.blocks[i].alive then s.blocks[i].refs else 0)
  {
    hide Run, Owned, Private;
    assert Inv(EMPTY) by { EmptyOk(); }
    assert Inv(Run(EMPTY, actions));
  }

  /** Whoever holds a reference can use it: its block lives and can be counted up or down. */
  lemma HoldersAreServed(actions: seq<Action>, i: Id)
    ensures Inv(EMPTY)
    ensures var s := Run(EMPTY, actions);
      && Formed(s)
      && (s.held[i] > 0 ==> i < |s.blocks| && s.blocks[i].alive && s.blocks[i].refs == s.held[i])
      && (s.held[i] > 0 && i !in s.building ==> Enabled(s, AddRef(i)) && Enabled(s, Release(i)))
  {
    hide Run, Owned, Private, Listed, Unique, Conserved;
    assert Inv(EMPTY) by { EmptyOk(); }
    assert Inv(Run(EMPTY, actions));
  }

  lemma EmptyOk()
    ensures Inv(EMPTY)
  {
  }

  // ---------- What a call can rely on while others act ----------

  // Only its own thread moves a candidate.
  predicate Spares(c: Id, actions: seq<Action>) {
    Lookup(c) !in actions && Finish(c) !in actions && Delete(c) !in actions
  }

  lemma Outside(s: State)
    requires Inv(s)
    ensures (forall c | c in s.building ::
      c < |s.blocks| && s.blocks[c].alive && s.blocks[c].refs == 1 && c !in s.registry)
    ensures (forall i | 0 <= i < |s.blocks| && s.held[i] > 0 :: s.blocks[i].refs > 0)
  {
    hide Unique, Conserved;
  }

  // What a step may do to one block and its candidacy.
  predicate Moves(s: State, a: Action, n: State, i: Id)
    requires i < |s.blocks|
  {
    && i < |n.blocks|
    && n.blocks[i].identity == s.blocks[i].identity && n.blocks[i].hasA == s.blocks[i].hasA
      && n.blocks[i].hasW == s.blocks[i].hasW
    && (a != Finish(i) ==> n.blocks[i].realA == s.blocks[i].realA && n.blocks[i].realW == s.blocks[i].realW)
    && (a != Delete(i) ==> n.blocks[i].alive == s.blocks[i].alive)
    && (n.blocks[i].refs != s.blocks[i].refs ==>
         a == Finish(i) || a == AddRef(i) || a == Release(i) || (a.Lookup? && i in s.registry))
    && (i !in s.building ==> i !in n.building)
    && (i in s.building && a != Lookup(i) && a != Finish(i) ==> i in n.building && n.building[i] == s.building[i])
  }

  lemma BuildMoves(s: State, a: Action, i: Id)
    requires a.Build? && i < |s.blocks|
    ensures Moves(s, a, Built(s, a), i)
  {
    hide ValidBlock, NewBlock;
  }

  lemma LookupMoves(s: State, c: Id, i: Id)
    requires Formed(s) && c in s.building && i < |s.blocks|
    ensures Moves(s, Lookup(c), LookedUp(s, c), i)
  {
    hide HasSide, Matches, FirstMatch;
  }

  lemma FinishMoves(s: State, c: Id, i: Id)
    requires c < |s.blocks| && c in s.building && s.blocks[c].refs > 0 && i < |s.blocks|
    ensures Moves(s, Finish(c), Finished(s, c), i)
  {
    hide Without;
  }

  lemma CountMoves(s: State, j: Id, i: Id)
    requires j < |s.blocks| && i < |s.blocks|
    ensures Moves(s, AddRef(j), AddedRef(s, j), i) && Moves(s, Delete(j), Deleted(s, j), i)
    ensures s.blocks[j].refs > 0 ==> Moves(s, Release(j), Released(s, j), i)
  {
    hide Without, Own;
  }

  lemma RawMoves(s: State, p: Pointer, i: Id)
    requires i < |s.blocks|
    ensures Moves(s, Receive(p), s.(raw := s.raw + multiset{p}, given := s.given + multiset{p}), i)
    ensures Moves(s, Drop(p), s.(raw := s.raw - multiset{p}, given := s.given - multiset{p}), i)
  {
  }

  lemma StepBlocks(s: State, a: Action, i: Id)
    requires Formed(s) && Enabled(s, a) && i < |s.blocks|
    ensures Moves(s, a, Step(s, a), i)
  {
    hide Built, LookedUp, Finished, AddedRef, Released, Deleted, Moves;
    match a
    case Receive(p) => RawMoves(s, p, i);
    case Drop(p) => RawMoves(s, p, i);
    case Build(_, _, _, _, _) => BuildMoves(s, a, i);
    case Lookup(c) => LookupMoves(s, c, i);
    case Finish(c) => FinishMoves(s, c, i);
    case AddRef(j) => CountMoves(s, j, i);
    case Release(j) => CountMoves(s, j, i);
    case Delete(j) => CountMoves(s, j, i);
  }

  /** Whatever anybody else does, a candidate and its block stay as they are. */
  lemma JobStays(s: State, a: Action, c: Id)
    requires Inv(s) && Enabled(s, a) && c in s.building && a != Lookup(c) && a != Finish(c)
    ensures var n := Step(s, a);
      c in n.building && n.building[c] == s.building[c] && c < |n.blocks| && n.blocks[c] == s.blocks[c]
  {
    hide Inv, Step;
    FormedOf(s);
    Outside(s);
    StepBlocks(s, a, c);
  }

  lemma {:induction false} JobStaysThroughout(s: State, actions: seq<Action>, c: Id)
    requires Inv(s) && c in s.building && Spares(c, actions)
    ensures var n := Run(s, actions);
      c in n.building && n.building[c] == s.building[c] && c < |n.blocks| && n.blocks[c] == s.blocks[c]
    decreases actions
  {
    hide Inv, Step;
    FormedOf(s);
    if actions == [] {
    } else {
      assert actions[0] in actions && forall a | a in actions[1..] :: a in actions;
      if Enabled(s, actions[0]) {
        StepKeeps(s, actions[0]);
        JobStays(s, actions[0], c);
        JobStaysThroughout(Step(s, actions[0]), actions[1..], c);
      } else {
        JobStaysThroughout(s, actions[1..], c);
      }
    }
  }

  /** A block without references that waits for its destructor. */
  predicate Spent(s: State, i: Id) { i < |s.blocks| && s.blocks[i].alive && s.blocks[i].refs == 0 && i !in s.building }

  lemma SpentStays(s: State, a: Action, i: Id)
    requires Inv(s) && Enabled(s, a) && Spent(s, i) && a != Delete(i)
    ensures Spent(Step(s, a), i) && Step(s, a).blocks[i] == s.blocks[i]
  {
    hide Inv, Step;
    FormedOf(s);
    SpentAlone(s, i);
    StepBlocks(s, a, i);
  }

  lemma SpentAlone(s: State, i: Id)
    requires Inv(s) && Spent(s, i)
    ensures i !in s.registry && s.held[i] == 0
  {
    hide Unique, Private, Conserved;
  }

  lemma {:induction false} SpentStaysThroughout(s: State, actions: seq<Action>, i: Id)
    requires Inv(s) && Spent(s, i) && Delete(i) !in actions
    ensures var n := Run(s, actions);
      Inv(n) && Spent(n, i) && n.blocks[i] == s.blocks[i] && i !in n.registry && n.held[i] == 0
    decreases actions
  {
    hide Inv, Step, Spent;
    FormedOf(s);
    SpentAlone(s, i);
    if actions == [] {
    } else {
      assert actions[0] in actions && forall a | a in actions[1..] :: a in actions;
      if Enabled(s, actions[0]) {
        StepKeeps(s, actions[0]);
        SpentStays(s, actions[0], i);
        SpentStaysThroughout(Step(s, actions[0]), actions[1..], i);
      } else {
        SpentStaysThroughout(s, actions[1..], i);
      }
    }
  }

  /** What a block stands for never changes. */
  lemma {:induction false} NatureStays(s: State, actions: seq<Action>, i: Id)
    requires Inv(s) && i < |s.blocks|
    ensures var n := Run(s, actions);
      i < |n.blocks| && n.blocks[i].identity == s.blocks[i].identity && n.blocks[i].hasA == s.blocks[i].hasA
        && n.blocks[i].hasW == s.blocks[i].hasW
    decreases actions
  {
    hide Inv, Step;
    FormedOf(s);
    if actions == [] {
    } else {
      if Enabled(s, actions[0]) {
        StepKeeps(s, actions[0]);
        StepBlocks(s, actions[0], i);
        NatureStays(Step(s, actions[0]), actions[1..], i);
      } else {
        NatureStays(s, actions[1..], i);
      }
    }
  }

  lemma FormedOf(s: State)
    requires Inv(s)
    ensures Formed(s)
  {
    hide Formed, Counted, Listed, Unique, Private, Conserved;
  }

  // ---------- What each step of a call does to the references ----------

  /** The outcomes of the calls on the real device and of the allocations inside a publish. */
  datatype Publication = Publication(face: Pointer, unicode: bool, alias: Option<Pointer>, aliasWrapped: bool,
      identity: Option<nat>)

  function BuildOf(p: Publication): Action { Build(p.face, p.unicode, p.alias, p.aliasWrapped, p.identity) }

  function Alias(p: Publication): multiset<Pointer> { if p.alias.Some? then multiset{p.alias.value} else multiset{} }

  function BlockOf(p: Publication): Block { NewBlock(p.face, p.unicode, p.alias, p.aliasWrapped, p.identity) }

  lemma BuiltCandidate(s: State, p: Publication)
    requires Inv(s) && s.raw[p.face] > 0
    ensures var (b, c) := (Built(s, BuildOf(p)), |s.blocks|);
      && Inv(b) && Formed(b) && c in b.building && c !in b.registry && c < |b.blocks|
      && b.raw == s.raw - multiset{p.face} && b.held == s.held + multiset{c} && b.registry == s.registry
      && b.given == s.given + Alias(p) && b.blocks[c] == BlockOf(p)
      && b.building[c] == Job(p.unicode, p.face, if ValidBlock(BlockOf(p)) then Looking else Returning)
      && (forall i | 0 <= i < c :: b.blocks[i] == s.blocks[i])
  {
    hide Conserved, Counted, Unique, Private;
    BuildKeeps(s, BuildOf(p));
  }

  /** The answer of a lookup: the candidate itself, a registered block with the side asked for, or nothing. */
  function Answer(s: State, c: Id): Option<Id>
    requires Formed(s) && c in s.building
  {
    var found := FirstMatch(s, s.registry, s.building[c].face, s.blocks[c].identity);
    if found.None? then Some(c) else if HasSide(s.blocks[found.value], s.building[c].unicode) then found else None
  }

  lemma LookupAccounts(s: State, c: Id)
    requires Inv(s) && c in s.building && s.building[c].stage.Looking?
    ensures var (l, r) := (LookedUp(s, c), Answer(s, c));
      && Inv(l) && Formed(l) && l.raw == s.raw && l.given == s.given && (r.Some? ==> r.value in l.registry)
      && (if r == Some(c) then l.held == s.held && l.registry == [c] + s.registry && c !in l.building
          else
            && c in l.building && l.registry == s.registry && l.blocks[c] == s.blocks[c]
            && l.building[c] == s.building[c].(stage := if r.Some? then Doomed else Returning)
            && l.held == if r.Some? then s.held + multiset{r.value} else s.held)
  {
    Outside(s);
    LookupKeeps(s, c);
    hide Conserved, Counted, Listed, Unique, Private;
  }

  // What is left of a candidate when its call ends.
  function Remains(b: Block, job: Job): Block {
    if !job.stage.Returning? then b else if job.unicode then b.(realW := None) else b.(realA := None)
  }

  lemma FinishAccounts(s: State, c: Id)
    requires Inv(s) && c in s.building && !s.building[c].stage.Looking?
    ensures s.blocks[c].refs > 0
    ensures var n := Finished(s, c);
      && Inv(n) && Spent(n, c) && n.blocks[c] == Remains(s.blocks[c], s.building[c]).(refs := 0)
      && n.held == s.held - multiset{c} && s.held[c] > 0 && n.registry == s.registry && n.given == s.given
      && n.raw == if s.building[c].stage.Returning? then s.raw + multiset{s.building[c].face} else s.raw
  {
    Outside(s);
    FinishKeeps(s, c);
    Untouched(s.registry, c);
    CandidateHeld(s, c);
    hide Conserved, Counted, Listed, Unique, Private, Inv;
  }

  lemma CandidateHeld(s: State, c: Id)
    requires Inv(s) && c in s.building
    ensures s.held[c] == 1
  {
    hide Unique, Conserved, Listed;
  }

  lemma {:induction false} Untouched(registry: seq<Id>, i: Id)
    requires i !in registry
    ensures Without(registry, i) == registry
  {
    if registry == [] {
    } else {
      Untouched(registry[1..], i);
    }
  }

  /** The destructor gives back exactly what the block owns, and the real device had given all of it. */
  lemma DeleteAccounts(s: State, i: Id)
    requires Inv(s) && i < |s.blocks| && s.blocks[i].alive && s.blocks[i].refs == 0
    ensures var n := Deleted(s, i);
      && Inv(n) && n.raw == s.raw && n.held == s.held && n.registry == s.registry
      && forall x :: n.given[x] + Own(s.blocks[i])[x] == s.given[x]
  {
    DeleteKeeps(s, i);
    hide Counted, Listed, Unique, Private, Own, Owned;
    forall x
      ensures Own(s.blocks[i])[x] <= s.given[x]
    {
      OwnedAtLeast(s.blocks, i, x);
    }
  }

  // A candidate owns the caller's interface and its alias, and after it was handed back the alias only.
  lemma RemainsOwn(p: Publication, job: Job)
    requires job.unicode == p.unicode
    ensures Own(Remains(BlockOf(p), job).(refs := 0))
      == if job.stage.Returning? then Alias(p) else multiset{p.face} + Alias(p)
  {
  }

  // ---------- One publish call among any other steps ----------

  /** The states around the four steps of a call, and what it answers; others act in between. */
  datatype Call = Call(start: State, built: State, lookup: State, decided: State, finish: State, finished: State,
                       delete: State, ended: State, answer: Option<Id>)

  /** How an own step changes a count. */
  function Change(before: multiset<nat>, after: multiset<nat>, x: nat): int { after[x] as int - before[x] as int }

  /** The changes of all own steps together. */
  function OwnRaw(t: Call, x: Pointer): int {
    Change(t.start.raw, t.built.raw, x) + Change(t.lookup.raw, t.decided.raw, x)
    + Change(t.finish.raw, t.finished.raw, x) + Change(t.delete.raw, t.ended.raw, x)
  }

  function OwnHeld(t: Call, x: Id): int {
    Change(t.start.held, t.built.held, x) + Change(t.lookup.held, t.decided.held, x)
    + Change(t.finish.held, t.finished.held, x) + Change(t.delete.held, t.ended.held, x)
  }

  function OwnGiven(t: Call, x: Pointer): int {
    Change(t.start.given, t.built.given, x) + Change(t.lookup.given, t.decided.given, x)
    + Change(t.finish.given, t.finished.given, x) + Change(t.delete.given, t.ended.given, x)
  }

  // The first half: build, other steps, and the lookup when the candidate is valid.
  ghost predicate Opens(p: Publication, c: Id, first: seq<Action>, t: Call) {
    && Inv(t.start) && t.start.raw[p.face] > 0 && c == |t.start.blocks|
    && t.built == Built(t.start, BuildOf(p)) && Inv(t.built) && t.lookup == Run(t.built, first)
    && Formed(t.lookup) && c in t.lookup.building
    && (if t.lookup.building[c].stage.Looking? then
          t.decided == LookedUp(t.lookup, c) && t.answer == Answer(t.lookup, c)
        else t.decided == t.lookup && t.answer == None)
  }

  // The second half: nothing for a published candidate; for any other its release and its destructor.
  ghost predicate Closes(c: Id, second: seq<Action>, third: seq<Action>, t: Call) {
    if t.answer == Some(c) then t.decided == t.finish == t.finished == t.delete == t.ended
    else
      && Inv(t.decided) && t.finish == Run(t.decided, second) && c < |t.finish.blocks| && c in t.finish.building
        && t.finish.blocks[c].refs > 0
      && t.finished == Finished(t.finish, c) && Inv(t.finished) && t.delete == Run(t.finished, third)
      && c < |t.delete.blocks| && t.ended == Deleted(t.delete, c)
  }

  /** Success consumes one reference of the caller and hands out one wrapper reference; failure does neither. */
  ghost predicate Accounts(p: Publication, c: Id, t: Call) {
    && (forall x: nat :: OwnRaw(t, x) == if t.answer.Some? && x == p.face then -1 else 0)
    && (forall x: nat :: OwnHeld(t, x) == if t.answer == Some(x) then 1 else 0)
    && (forall x: nat :: OwnGiven(t, x) ==
          if t.answer == Some(c) then Alias(p)[x] else if t.answer.Some? && x == p.face then -1 else 0)
    && t.built.registry == t.start.registry && t.finished.registry == t.finish.registry
      && t.ended.registry == t.delete.registry
    && t.decided.registry == (if t.answer == Some(c) then [c] else []) + t.lookup.registry
    && (t.answer.Some? ==> t.answer.value in t.decided.registry)
  }

  // What the first half leaves, whatever others did.
  lemma OpenAccounts(s: State, p: Publication, first: seq<Action>) returns (t: Call)
    requires Inv(s) && s.raw[p.face] > 0 && Spares(|s.blocks|, first)
    ensures Opens(p, |s.blocks|, first, t) && t.start == s && Inv(t.decided) && Formed(t.decided)
    ensures t.built.raw == s.raw - multiset{p.face} && t.built.held == s.held + multiset{|s.blocks|}
      && t.built.given == s.given + Alias(p)
    ensures t.built.registry == s.registry && t.decided.raw == t.lookup.raw && t.decided.given == t.lookup.given
    ensures var c := |s.blocks|;
      if t.answer == Some(c) then t.decided.held == t.lookup.held && t.decided.registry == [c] + t.lookup.registry
      else
        && c in t.decided.building && c < |t.decided.blocks| && t.decided.blocks[c] == BlockOf(p)
          && t.decided.registry == t.lookup.registry
        && t.decided.building[c] == Job(p.unicode, p.face, if t.answer.Some? then Doomed else Returning)
        && t.decided.held == (if t.answer.Some? then t.lookup.held + multiset{t.answer.value} else t.lookup.held)
    ensures t.answer.Some? ==> t.answer.value in t.decided.registry
  {
    hide Inv, Built, LookedUp, Answer, Run, NewBlock, Alias, ValidBlock;
    var c, b := |s.blocks|, Built(s, BuildOf(p));
    BuiltCandidate(s, p);
    JobStaysThroughout(b, first, c);
    var l := Run(b, first);
    FormedOf(l);
    if l.building[c].stage.Looking? {
      LookupAccounts(l, c);
      var d := LookedUp(l, c);
      t := Call(s, b, l, d, d, d, d, d, Answer(l, c));
    } else {
      t := Call(s, b, l, l, l, l, l, l, None);
    }
  }

  // What the second half of an unpublished candidate's call gives back.
  lemma CloseAccounts(d: State, p: Publication, c: Id, second: seq<Action>, third: seq<Action>)
      returns (f: State, e: State, g: State, n: State)
    requires Inv(d) && c in d.building && c < |d.blocks| && d.blocks[c] == BlockOf(p) && !d.building[c].stage.Looking?
    requires d.building[c].unicode == p.unicode && d.building[c].face == p.face && Spares(c, second) && Spares(c, third)
    ensures Inv(f) && f == Run(d, second) && c < |f.blocks| && c in f.building && f.blocks[c].refs > 0
    ensures e == Finished(f, c) && Inv(e) && g == Run(e, third) && c < |g.blocks| && n == Deleted(g, c) && Inv(n)
    ensures e.held == f.held - multiset{c} && f.held[c] > 0 && e.registry == f.registry && e.given == f.given
    ensures n.held == g.held && n.registry == g.registry && n.raw == g.raw
    ensures e.raw == if d.building[c].stage.Returning? then f.raw + multiset{p.face} else f.raw
    ensures forall x ::
      n.given[x] + (if d.building[c].stage.Returning? then Alias(p) else multiset{p.face} + Alias(p))[x] == g.given[x]
  {
    hide Inv, Finished, Deleted, Run, NewBlock, Alias, Own, Remains, Spent;
    JobStaysThroughout(d, second, c);
    f := Run(d, second);
    FinishAccounts(f, c);
    e := Finished(f, c);
    SpentStaysThroughout(e, third, c);
    g := Run(e, third);
    SpentIs(g, c);
    DeleteAccounts(g, c);
    n := Deleted(g, c);
    RemainsOwn(p, d.building[c]);
  }

  lemma SpentIs(s: State, i: Id)
    requires Spent(s, i)
    ensures i < |s.blocks| && s.blocks[i].alive && s.blocks[i].refs == 0
  {
  }

  // The account of a call that published its candidate.
  lemma PublishedCounts(p: Publication, c: Id, t: Call)
    requires t.answer == Some(c) && t.decided == t.finish == t.finished == t.delete == t.ended
      && t.start.raw[p.face] > 0
    requires t.built.raw == t.start.raw - multiset{p.face} && t.built.held == t.start.held + multiset{c}
    requires t.built.given == t.start.given + Alias(p) && t.built.registry == t.start.registry
    requires t.decided.raw == t.lookup.raw && t.decided.given == t.lookup.given && t.decided.held == t.lookup.held
    requires t.decided.registry == [c] + t.lookup.registry
    ensures Accounts(p, c, t)
  {
    hide Alias;
  }

  // The account of a call whose candidate was taken down again.
  lemma ClosedCounts(p: Publication, c: Id, t: Call)
    requires t.answer != Some(c) && t.start.raw[p.face] > 0
    requires t.built.raw == t.start.raw - multiset{p.face} && t.built.held == t.start.held + multiset{c}
    requires t.built.given == t.start.given + Alias(p) && t.built.registry == t.start.registry
    requires t.decided.raw == t.lookup.raw && t.decided.given == t.lookup.given
      && t.decided.registry == t.lookup.registry
    requires t.decided.held == (if t.answer.Some? then t.lookup.held + multiset{t.answer.value} else t.lookup.held)
    requires t.finished.held == t.finish.held - multiset{c} && t.finish.held[c] > 0
    requires t.finished.registry == t.finish.registry && t.finished.given == t.finish.given
    requires t.finished.raw == if t.answer.None? then t.finish.raw + multiset{p.face} else t.finish.raw
    requires t.ended.held == t.delete.held && t.ended.registry == t.delete.registry && t.ended.raw == t.delete.raw
    requires forall x ::
      t.ended.given[x] + (if t.answer.None? then Alias(p) else multiset{p.face} + Alias(p))[x] == t.delete.given[x]
    requires t.answer.Some? ==> t.answer.value in t.decided.registry
    ensures Accounts(p, c, t)
  {
    hide Alias, OwnRaw, OwnHeld, OwnGiven;
    assert [] + t.lookup.registry == t.lookup.registry;
    forall x: nat
      ensures OwnRaw(t, x) == if t.answer.Some? && x == p.face then -1 else 0
      ensures OwnHeld(t, x) == if t.answer == Some(x) then 1 else 0
      ensures OwnGiven(t, x) == if t.answer.Some? && x == p.face then -1 else 0
    {
      ClosedRaw(p, t, x);
      ClosedHeld(c, t, x);
      ClosedGiven(p, t, x);
    }
  }

  lemma ClosedRaw(p: Publication, t: Call, x: Pointer)
    requires t.built.raw == t.start.raw - multiset{p.face} && t.start.raw[p.face] > 0 && t.decided.raw == t.lookup.raw
      && t.ended.raw == t.delete.raw
    requires t.finished.raw == if t.answer.None? then t.finish.raw + multiset{p.face} else t.finish.raw
    ensures OwnRaw(t, x) == if t.answer.Some? && x == p.face then -1 else 0
  {
  }

  lemma ClosedHeld(c: Id, t: Call, x: Id)
    requires t.built.held == t.start.held + multiset{c} && t.finished.held == t.finish.held - multiset{c}
      && t.finish.held[c] > 0
    requires t.decided.held == (if t.answer.Some? then t.lookup.held + multiset{t.answer.value} else t.lookup.held)
      && t.ended.held == t.delete.held
    ensures OwnHeld(t, x) == if t.answer == Some(x) then 1 else 0
  {
  }

  lemma ClosedGiven(p: Publication, t: Call, x: Pointer)
    requires t.built.given == t.start.given + Alias(p) && t.decided.given == t.lookup.given
      && t.finished.given == t.finish.given
    requires t.ended.given[x] + (if t.answer.None? then Alias(p) else multiset{p.face} + Alias(p))[x]
      == t.delete.given[x]
    ensures OwnGiven(t, x) == if t.answer.Some? && x == p.face then -1 else 0
  {
    hide Alias;
  }

  /**
   publish_or_add_ref conserves references whatever other threads do between its steps: the counts
   that its own steps change are those of the result. What the call took from the real device for
   its candidate stays with the block when that is the one published, and is returned otherwise.
   */
  lemma PublishAccounts(s: State, p: Publication, first: seq<Action>, second: seq<Action>,
      third: seq<Action>) returns (t: Call)
    requires Inv(s) && s.raw[p.face] > 0
    requires Spares(|s.blocks|, first) && Spares(|s.blocks|, second) && Spares(|s.blocks|, third)
    ensures t.start == s && Opens(p, |s.blocks|, first, t) && Closes(|s.blocks|, second, third, t) && Inv(t.ended)
    ensures Accounts(p, |s.blocks|, t)
  {
    hide Inv, Built, LookedUp, Answer, Run, Finished, Deleted, Alias, NewBlock, Opens, Accounts, Spares;
    var c := |s.blocks|;
    var o := OpenAccounts(s, p, first);
    if o.answer == Some(c) {
      t := o.(finish := o.decided, finished := o.decided, delete := o.decided, ended := o.decided);
      OpensAlso(p, c, first, o, t);
      PublishedCounts(p, c, t);
    } else {
      var f, e, g, n := CloseAccounts(o.decided, p, c, second, third);
      t := o.(finish := f, finished := e, delete := g, ended := n);
      OpensAlso(p, c, first, o, t);
      ClosedCounts(p, c, t);
    }
  }

  lemma OpensAlso(p: Publication, c: Id, first: seq<Action>, o: Call, t: Call)
    requires Opens(p, c, first, o)
    requires t.start == o.start && t.built == o.built && t.lookup == o.lookup && t.decided == o.decided
      && t.answer == o.answer
    ensures Opens(p, c, first, t)
  {
    hide Inv, Built, LookedUp, Answer, Run;
  }

  // ---------- When a publish succeeds ----------

  /** The alias the real device gave, if it gave one, has its wrapper. */
  predicate Complete(p: Publication) { p.alias.Some? ==> p.aliasWrapped }

  /** A block and a publication are of one device: they share an interface or a known identity. */
  predicate SameDevice(s: State, i: Id, p: Publication) {
    && i < |s.blocks|
    && var b := s.blocks[i];
    || (b.realA.Some? && b.realA.value == p.face)
    || (b.realW.Some? && b.realW.value == p.face)
    || (p.identity.Some? && b.identity.Some? && b.identity.value == p.identity.value)
  }

  /** The block has the kind of wrapper that is asked for. */
  predicate Offers(s: State, i: Id, p: Publication) {
    i < |s.blocks| && if p.unicode then s.blocks[i].hasW else s.blocks[i].hasA
  }

  /** Entry k of the list is the first of the device. */
  ghost predicate FirstIn(s: State, registry: seq<Id>, p: Publication, k: nat) {
    && k < |registry| && SameDevice(s, registry[k], p)
    && forall j | 0 <= j < k :: !SameDevice(s, registry[j], p)
  }

  /** A new block: alive, with one reference, both interfaces and their wrappers, and the identity. */
  predicate IsNew(b: Block, p: Publication) {
    && b.alive && b.refs == 1 && b.identity == p.identity
    && (if p.unicode then
          b.realW == Some(p.face) && b.hasW && b.realA == p.alias && b.hasA == (p.alias.Some? && p.aliasWrapped)
        else b.realA == Some(p.face) && b.hasA && b.realW == p.alias && b.hasW == (p.alias.Some? && p.aliasWrapped))
  }

  /**
   What a publish answers at its lookup: the new block, which becomes the head of the list, if and only if it is
   complete and no registered block is of the device; the first registered block of the device if and only if the new
   block is complete and that one has the wrapper asked for; and otherwise nothing.
   */
  ghost predicate AnswersBy(p: Publication, c: Id, l: State, d: State, answer: Option<Id>)
    requires Formed(l)
  {
    && (answer == Some(c) <==> Complete(p) && forall i | i in l.registry :: !SameDevice(l, i, p))
    && (forall k: nat | FirstIn(l, l.registry, p, k) ::
          answer == Some(l.registry[k]) <==> Complete(p) && Offers(l, l.registry[k], p))
    && (answer.Some? ==>
          answer == Some(c) || exists k: nat :: FirstIn(l, l.registry, p, k) && answer == Some(l.registry[k]))
    && d.registry == (if answer == Some(c) then [c] + l.registry else l.registry)
    && (answer == Some(c) ==> c < |d.blocks| && IsNew(d.blocks[c], p))
  }

  lemma {:induction false} FirstFound(s: State, registry: seq<Id>, p: Publication)
    requires forall i | i in registry :: i < |s.blocks|
    ensures var r := FirstMatch(s, registry, p.face, p.identity);
      && (r.None? ==> forall i | i in registry :: !SameDevice(s, i, p))
      && (r.Some? ==> exists k: nat :: k < |registry| && r.value == registry[k] && FirstIn(s, registry, p, k))
    decreases registry
  {
    if registry == [] {
    } else {
      var rest := registry[1..];
      assert registry[0] in registry && forall i | i in rest :: i in registry;
      FirstFound(s, rest, p);
      assert forall i | i in registry :: i == registry[0] || i in rest;
      var r := FirstMatch(s, registry, p.face, p.identity);
      if Matches(s.blocks[registry[0]], p.face, p.identity) {
        assert r.value == registry[0] && FirstIn(s, registry, p, 0);
      } else if r.Some? {
        var k: nat :| k < |rest| && r.value == rest[k] && FirstIn(s, rest, p, k);
        assert registry[k + 1] == rest[k];
        forall j | 0 <= j < k + 1
          ensures !SameDevice(s, registry[j], p)
        {
          assert j > 0 ==> registry[j] == rest[j - 1];
        }
        assert FirstIn(s, registry, p, k + 1);
      }
    }
  }

  lemma CandidateIsNew(p: Publication)
    ensures IsNew(BlockOf(p), p) && (ValidBlock(BlockOf(p)) <==> Complete(p))
  {
  }

  // One lookup of a complete candidate.
  lemma LookupAnswers(p: Publication, c: Id, l: State)
    requires Inv(l) && Formed(l) && c in l.building && c < |l.blocks| && l.blocks[c] == BlockOf(p)
    requires l.building[c] == Job(p.unicode, p.face, Looking) && Complete(p)
    ensures AnswersBy(p, c, l, LookedUp(l, c), Answer(l, c))
  {
    Outside(l);
    CandidateIsNew(p);
    hide Inv, Counted, Listed, Unique, Private, Conserved, SameDevice, Matches, NewBlock, FirstMatch, ValidBlock;
    FirstFound(l, l.registry, p);
    assert BlockOf(p).identity == p.identity;
    var found := FirstMatch(l, l.registry, p.face, p.identity);
    if found.Some? {
      var k: nat :| k < |l.registry| && found.value == l.registry[k] && FirstIn(l, l.registry, p, k);
      forall n: nat | FirstIn(l, l.registry, p, n)
        ensures n == k
      {
      }
    }
  }

  lemma RefusedAnswers(p: Publication, c: Id, l: State)
    requires Formed(l) && !Complete(p)
    ensures AnswersBy(p, c, l, l, None)
  {
  }

  /**
   Among any other steps a publish answers by the state it finds at its lookup, and by nothing else: see `AnswersBy`.
   */
  lemma PublishAnswers(p: Publication, c: Id, first: seq<Action>, t: Call)
    requires Inv(t.start) && Opens(p, c, first, t) && Spares(c, first)
    ensures Formed(t.lookup) && AnswersBy(p, c, t.lookup, t.decided, t.answer)
  {
    hide Inv, Built, LookedUp, Answer, Run, NewBlock, ValidBlock, AnswersBy, Complete;
    BuiltCandidate(t.start, p);
    JobStaysThroughout(t.built, first, c);
    CandidateIsNew(p);
    if Complete(p) {
      LookupAnswers(p, c, t.lookup);
    } else {
      RefusedAnswers(p, c, t.lookup);
    }
  }

  // ---------- One wrapper per device ----------

  /** Interfaces of one device share its identity, as COM requires: no block is found by an interface alone. */
  predicate ComIdentity(s: State, c: Id)
    requires Formed(s) && c in s.building
  {
    forall i | i in s.registry && Matches(s.blocks[i], s.building[c].face, s.blocks[c].identity) ::
      s.blocks[i].identity == s.blocks[c].identity
  }

  lemma OneOfDevice(s: State, f: Id, i: Id)
    requires Inv(s) && f in s.registry && i in s.registry && f < |s.blocks| && i < |s.blocks|
    requires s.blocks[i].identity.Some? && s.blocks[f].identity == s.blocks[i].identity
    ensures f == i
  {
    hide Counted, Listed, Private, Conserved;
  }

  /** In any state, a lookup for a device whose wrapper is registered answers with that wrapper. */
  lemma RegisteredAnswers(s: State, c: Id, i: Id)
    requires Inv(s) && c in s.building && s.building[c].stage.Looking? && ComIdentity(s, c)
    requires i in s.registry && s.blocks[i].identity.Some? && s.blocks[i].identity == s.blocks[c].identity
    requires HasSide(s.blocks[i], s.building[c].unicode)
    ensures Answer(s, c) == Some(i) && LookedUp(s, c).held == s.held + multiset{i}
      && LookedUp(s, c).registry == s.registry
  {
    Outside(s);
    hide Inv, Listed, Unique, Private, Counted, Conserved;
    assert Matches(s.blocks[i], s.building[c].face, s.blocks[c].identity);
    var f := FirstMatch(s, s.registry, s.building[c].face, s.blocks[c].identity).value;
    OneOfDevice(s, f, i);
  }

  /**
   The race the registry is for: two candidates of one device are both built before either looks
   up. Whoever looks up first, and whatever happens in between, the second is answered with the
   wrapper the first was answered with, as long as that is registered.
   */
  lemma PublishersAgree(s: State, c: Id, actions: seq<Action>, e: Id, i: Id)
    requires Inv(s) && c in s.building && e in s.building && c != e
    requires s.building[c].stage.Looking? && s.building[e].stage.Looking? && Spares(e, actions)
    requires ComIdentity(s, c) && s.blocks[c].identity.Some? && s.blocks[e].identity == s.blocks[c].identity
      && Answer(s, c) == Some(i)
    requires (LookupKeeps(s, c); var m := Run(LookedUp(s, c), actions);
      i in m.registry && e in m.building && ComIdentity(m, e) && HasSide(m.blocks[i], m.building[e].unicode))
    ensures var m := Run(LookedUp(s, c), actions); Answer(m, e) == Some(i) && i in LookedUp(m, e).registry
  {
    hide Inv, LookedUp, Answer, Run, ComIdentity, HasSide;
    FormedOf(s);
    var l := LookedUp(s, c);
    LookupKeeps(s, c);
    FormedOf(l);
    AnswerNature(s, c, i, e);
    JobStaysThroughout(l, actions, e);
    NatureStays(l, actions, i);
    RegisteredAnswers(Run(l, actions), e, i);
  }

  lemma AnswerNature(s: State, c: Id, i: Id, e: Id)
    requires Inv(s) && c in s.building && e in s.building && c != e && s.building[c].stage.Looking?
    requires ComIdentity(s, c) && s.blocks[c].identity.Some? && Answer(s, c) == Some(i)
    ensures var l := LookedUp(s, c);
      && i < |l.blocks| && l.blocks[i].identity == s.blocks[c].identity && e < |l.blocks|
        && l.blocks[e].identity == s.blocks[e].identity
      && e in l.building && l.building[e] == s.building[e]
  {
    Outside(s);
    hide Inv, Counted, Listed, Unique, Private, Conserved;
  }

  // ---------- The last release ----------

  /**
   Whatever happens between the count reaching zero and the destructor: the block left the
   registry with the count, nobody gets at it again, and it gives back exactly what it owned.
   */
  lemma LastRelease(s: State, i: Id, actions: seq<Action>)
    requires Inv(s) && i < |s.blocks| && s.blocks[i].alive && s.blocks[i].refs == 1 && i !in s.building
      && Delete(i) !in actions
    ensures var r := Released(s, i);
      && Inv(r) && i !in r.registry && r.raw == s.raw && r.given == s.given && s.held[i] == 1
        && r.held == s.held - multiset{i}
      && var m := Run(r, actions);
      && Inv(m) && i < |m.blocks| && i !in m.registry && m.held[i] == 0 && Enabled(m, Delete(i))
      && var n := Deleted(m, i);
      && Inv(n) && n.raw == m.raw && n.held == m.held && n.registry == m.registry
      && forall x :: n.given[x] + Own(s.blocks[i])[x] == m.given[x]
  {
    hide Inv, Run, Own, Without, Deleted, Spent;
    LastCount(s, i);
    var r := Released(s, i);
    SpentAlone(r, i);
    SpentStaysThroughout(r, actions, i);
    var m := Run(r, actions);
    FormedOf(m);
    SpentIs(m, i);
    DeleteAccounts(m, i);
    OwnOfRefs(s.blocks[i]);
  }

  // The count reaches zero.
  lemma LastCount(s: State, i: Id)
    requires Inv(s) && i < |s.blocks| && s.blocks[i].alive && s.blocks[i].refs == 1 && i !in s.building
    ensures s.held[i] == 1 && Inv(Released(s, i)) && Spent(Released(s, i), i)
    ensures Released(s, i).blocks[i] == s.blocks[i].(refs := 0)
  {
    hide Inv, Without;
    CountOfOne(s, i);
    ReleaseKeeps(s, i);
  }

  lemma OwnOfRefs(b: Block)
    ensures forall n: nat :: Own(b.(refs := n)) == Own(b)
  {
  }

  lemma CountOfOne(s: State, i: Id)
    requires Inv(s) && i < |s.blocks| && s.blocks[i].alive
    ensures s.held[i] == s.blocks[i].refs
  {
    hide Listed, Unique, Private, Conserved;
  }

  // ---------- The callers ----------

  function Borrowed(s: State, p: Pointer): State { s.(raw := s.raw + multiset{p}, given := s.given + multiset{p}) }

  lemma BorrowKeeps(s: State, p: Pointer)
    requires Inv(s)
    ensures Inv(Borrowed(s, p)) && Borrowed(s, p).raw[p] > 0
  {
    hide Counted, Listed, Unique, Private, Conserved;
    RawKeeps(s, p);
  }

  /**
   CreateDevice and DirectInput, among any other steps: with the reference the real call returned, the
   caller ends up with that very reference when the publish fails, and with one wrapper reference when not.
   */
  lemma CreateDeviceConserves(s: State, p: Publication, before: seq<Action>, first: seq<Action>, second: seq<Action>,
      third: seq<Action>) returns (t: Call)
    requires Inv(s) && (BorrowKeeps(s, p.face); var b := Run(Borrowed(s, p.face), before);
      b.raw[p.face] > 0 && Spares(|b.blocks|, first) && Spares(|b.blocks|, second) && Spares(|b.blocks|, third))
    ensures t.start == Run(Borrowed(s, p.face), before)
    ensures Opens(p, |t.start.blocks|, first, t) && Closes(|t.start.blocks|, second, third, t) && Inv(t.ended)
    ensures var received := Borrowed(s, p.face);
      && (forall x: nat ::
           Change(s.raw, received.raw, x) + OwnRaw(t, x) == if t.answer.None? && x == p.face then 1 else 0)
      && (forall x: nat :: Change(s.held, received.held, x) + OwnHeld(t, x) == if t.answer == Some(x) then 1 else 0)
  {
    hide Inv, Run, Opens, Closes;
    BorrowKeeps(s, p.face);
    t := PublishAccounts(Run(Borrowed(s, p.face), before), p, first, second, third);
    hide OwnRaw, OwnHeld, OwnGiven;
  }

  /** What the callback does last: the wrapper it was answered with is released, or the reference it took. */
  function LastStep(answer: Option<Id>, face: Pointer): Action {
    if answer.Some? then Release(answer.value) else Drop(face)
  }

  lemma GivenEnough(m: State, face: Pointer)
    requires Inv(m)
    ensures m.given[face] >= m.raw[face]
  {
    hide Formed, Counted, Listed, Unique, Private, Owned;
  }

  lemma OneTaken(before: multiset<nat>, x: nat)
    requires before[x] > 0
    ensures forall y: nat :: Change(before, before - multiset{x}, y) == if y == x then -1 else 0
  {
  }

  // How the last step changes the counts.
  lemma LastStepAccounts(m: State, answer: Option<Id>, face: Pointer)
    requires Inv(m) && Formed(m) && Enabled(m, LastStep(answer, face))
    ensures var n := Step(m, LastStep(answer, face));
      && Inv(n)
      && (forall x: nat :: Change(m.raw, n.raw, x) == if answer.None? && x == face then -1 else 0)
      && (forall x: nat :: Change(m.held, n.held, x) == if answer == Some(x) then -1 else 0)
      && (forall x: nat :: Change(m.given, n.given, x) == if answer.None? && x == face then -1 else 0)
  {
    hide Inv, Formed, Without;
    StepKeeps(m, LastStep(answer, face));
    if answer.Some? {
      OneTaken(m.held, answer.value);
    } else {
      GivenEnough(m, face);
      OneTaken(m.raw, face);
      OneTaken(m.given, face);
    }
  }

  /**
   The enumeration callback among any other steps: over the reference it takes, its publish and its last step, it
   takes no reference of the game's and leaves none; of the real device's references it leaves exactly what a
   wrapper it has created owns, which `LastRelease` shows to be given back.
   */
  lemma CallbackBalances(s: State, p: Publication, before: seq<Action>, first: seq<Action>, second: seq<Action>,
      third: seq<Action>, later: seq<Action>) returns (t: Call)
    requires Inv(s) && (BorrowKeeps(s, p.face); var b := Run(Borrowed(s, p.face), before);
      b.raw[p.face] > 0 && Spares(|b.blocks|, first) && Spares(|b.blocks|, second) && Spares(|b.blocks|, third))
    ensures t.start == Run(Borrowed(s, p.face), before)
    ensures Opens(p, |t.start.blocks|, first, t) && Closes(|t.start.blocks|, second, third, t) && Inv(t.ended)
    ensures var (received, m, last) := (Borrowed(s, p.face), Run(t.ended, later), LastStep(t.answer, p.face));
      Formed(m) && (Enabled(m, last) ==>
        var n := Step(m, last);
        && Inv(n)
        && (forall x: nat :: Change(s.raw, received.raw, x) + OwnRaw(t, x) + Change(m.raw, n.raw, x) == 0)
        && (forall x: nat :: Change(s.held, received.held, x) + OwnHeld(t, x) + Change(m.held, n.held, x) == 0)
        && (forall x: nat :: Change(s.given, received.given, x) + OwnGiven(t, x) + Change(m.given, n.given, x)
              == if t.answer == Some(|t.start.blocks|) then Own(BlockOf(p))[x] else 0))
  {
    hide Inv, Run, Opens, Closes, Step, Enabled, OwnRaw, OwnHeld, OwnGiven, Own, Alias, BlockOf;
    BorrowKeeps(s, p.face);
    t := PublishAccounts(Run(Borrowed(s, p.face), before), p, first, second, third);
    var m := Run(t.ended, later);
    FormedOf(m);
    OwnOfBlock(p);
    if Enabled(m, LastStep(t.answer, p.face)) {
      LastStepAccounts(m, t.answer, p.face);
    }
  }

  lemma OwnOfBlock(p: Publication)
    ensures forall x :: Own(BlockOf(p))[x] == (if x == p.face then 1 else 0) + Alias(p)[x]
  {
  }

  // ---------- Calls that run without interruption ----------

  // The candidate's own reference is dropped and its block destroyed.
  function Discarded(s: State, c: Id): State {
    if c < |s.blocks| && c in s.building && s.blocks[c].refs > 0 then Deleted(Finished(s, c), c) else s
  }

  // The call once its candidate is built.
  function Decided(b: State, c: Id): (State, Option<Id>)
    requires Formed(b) && c in b.building
  {
    if b.building[c].stage.Returning? then (Discarded(b, c), None)
    else if Answer(b, c) == Some(c) then (LookedUp(b, c), Some(c))
    else (Discarded(LookedUp(b, c), c), Answer(b, c))
  }

  /** publish_or_add_ref: the wrapper's block, or nothing, and the state it leaves. */
  function Publish(s: State, p: Publication): (State, Option<Id>)
    requires Inv(s) && s.raw[p.face] > 0
  {
    BuildKeeps(s, BuildOf(p));
    Decided(Built(s, BuildOf(p)), |s.blocks|)
  }

  lemma SpareNothing(c: Id)
    ensures Spares(c, [])
  {
  }

  lemma RunNothing(s: State)
    requires Inv(s)
    ensures Run(s, []) == s
  {
  }

  /** The same call with nothing in between. */
  lemma PublishIs(s: State, p: Publication) returns (t: Call)
    requires Inv(s) && s.raw[p.face] > 0
    ensures t.start == s && Publish(s, p) == (t.ended, t.answer) && Inv(t.ended) && Accounts(p, |s.blocks|, t)
    ensures t.lookup == t.built && t.finish == t.decided && t.delete == t.finished
    ensures Opens(p, |s.blocks|, [], t) && (t.answer == Some(|s.blocks|) ==> t.ended == t.decided)
  {
    hide Inv, Built, LookedUp, Answer, Run, Finished, Deleted, NewBlock, Accounts;
    var c := |s.blocks|;
    SpareNothing(c);
    BuiltCandidate(s, p);
    t := PublishAccounts(s, p, [], [], []);
    RunNothing(t.built);
    if t.answer != Some(c) {
      RunNothing(t.decided);
      RunNothing(t.finished);
    }
  }

  /** Uninterrupted, the changes are those between the two ends of the call. */
  predicate Settled(s: State, p: Publication, n: State, r: Option<Id>) {
    && n.raw == (if r.Some? then s.raw - multiset{p.face} else s.raw)
    && n.held == (if r.Some? then s.held + multiset{r.value} else s.held)
    && n.given == (if r == Some(|s.blocks|) then s.given + Alias(p)
                   else if r.Some? then s.given - multiset{p.face} else s.given)
    && n.registry == (if r == Some(|s.blocks|) then [|s.blocks|] else []) + s.registry
    && (r.Some? ==> r.value in n.registry)
  }

  lemma PublishSettles(s: State, p: Publication)
    requires Inv(s) && s.raw[p.face] > 0
    ensures var (n, r) := Publish(s, p); Inv(n) && Settled(s, p, n, r)
  {
    hide Inv, Publish, Alias, OwnRaw, OwnHeld, OwnGiven, Settled;
    var t := PublishIs(s, p);
    forall x: nat
      ensures t.ended.raw[x] == s.raw[x] + OwnRaw(t, x) && t.ended.held[x] == s.held[x] + OwnHeld(t, x)
      ensures t.ended.given[x] == s.given[x] + OwnGiven(t, x)
    {
      Telescopes(t, x);
    }
    CallerWasGiven(s, p.face);
    SettledBooks(s, p, t);
  }

  lemma Telescopes(t: Call, x: nat)
    requires t.lookup == t.built && t.finish == t.decided && t.delete == t.finished
    ensures OwnRaw(t, x) == Change(t.start.raw, t.ended.raw, x)
      && OwnHeld(t, x) == Change(t.start.held, t.ended.held, x)
    ensures OwnGiven(t, x) == Change(t.start.given, t.ended.given, x)
  {
  }

  lemma OneLess(before: multiset<nat>, after: multiset<nat>, x: nat, less: bool)
    requires less ==> before[x] > 0
    requires forall y: nat :: after[y] == before[y] + if less && y == x then -1 else 0
    ensures after == if less then before - multiset{x} else before
  {
  }

  lemma OneMore(before: multiset<nat>, after: multiset<nat>, r: Option<nat>)
    requires forall y: nat :: after[y] == before[y] + if r == Some(y) then 1 else 0
    ensures after == if r.Some? then before + multiset{r.value} else before
  {
  }

  lemma SomeMore(before: multiset<nat>, after: multiset<nat>, more: multiset<nat>)
    requires forall y: nat :: after[y] == before[y] + more[y]
    ensures after == before + more
  {
  }

  lemma SettledRaw(s: State, p: Publication, t: Call)
    requires s.raw[p.face] > 0 && Accounts(p, |s.blocks|, t)
    requires forall x: nat :: t.ended.raw[x] == s.raw[x] + OwnRaw(t, x)
    ensures t.ended.raw == if t.answer.Some? then s.raw - multiset{p.face} else s.raw
  {
    hide Alias, OwnRaw, OwnHeld, OwnGiven;
    OneLess(s.raw, t.ended.raw, p.face, t.answer.Some?);
  }

  lemma SettledHeld(s: State, p: Publication, t: Call)
    requires Accounts(p, |s.blocks|, t) && forall x: nat :: t.ended.held[x] == s.held[x] + OwnHeld(t, x)
    ensures t.ended.held == if t.answer.Some? then s.held + multiset{t.answer.value} else s.held
  {
    hide Alias, OwnRaw, OwnHeld, OwnGiven;
    OneMore(s.held, t.ended.held, t.answer);
  }

  lemma SettledGiven(s: State, p: Publication, t: Call)
    requires s.given[p.face] > 0 && Accounts(p, |s.blocks|, t)
    requires forall x: nat :: t.ended.given[x] == s.given[x] + OwnGiven(t, x)
    ensures t.ended.given == if t.answer == Some(|s.blocks|) then s.given + Alias(p)
                             else if t.answer.Some? then s.given - multiset{p.face} else s.given
  {
    hide Alias, OwnRaw, OwnHeld, OwnGiven;
    if t.answer == Some(|s.blocks|) {
      SomeMore(s.given, t.ended.given, Alias(p));
    } else {
      OneLess(s.given, t.ended.given, p.face, t.answer.Some?);
    }
  }

  lemma SettledRegistry(s: State, p: Publication, t: Call)
    requires t.start == s && Accounts(p, |s.blocks|, t)
    requires t.lookup == t.built && t.finish == t.decided && t.delete == t.finished
    ensures t.ended.registry == (if t.answer == Some(|s.blocks|) then [|s.blocks|] else []) + s.registry
    ensures t.answer.Some? ==> t.answer.value in t.ended.registry
  {
    hide Alias, OwnRaw, OwnHeld, OwnGiven;
  }

  lemma SettledBooks(s: State, p: Publication, t: Call)
    requires t.start == s && s.raw[p.face] > 0 && Accounts(p, |s.blocks|, t) && s.given[p.face] > 0
    requires t.lookup == t.built && t.finish == t.decided && t.delete == t.finished
    requires forall x: nat :: t.ended.raw[x] == s.raw[x] + OwnRaw(t, x)
    requires forall x: nat :: t.ended.held[x] == s.held[x] + OwnHeld(t, x)
    requires forall x: nat :: t.ended.given[x] == s.given[x] + OwnGiven(t, x)
    ensures Settled(s, p, t.ended, t.answer)
  {
    hide Alias, OwnRaw, OwnHeld, OwnGiven, Accounts;
    SettledRaw(s, p, t);
    SettledHeld(s, p, t);
    SettledGiven(s, p, t);
    SettledRegistry(s, p, t);
  }

  lemma CallerWasGiven(s: State, x: Pointer)
    requires Inv(s)
    ensures s.raw[x] <= s.given[x]
  {
    hide Owned, Counted, Listed, Unique, Private;
  }

  /** Uninterrupted, a publish answers by the state it is called in. */
  ghost predicate Answers(s: State, p: Publication, n: State, r: Option<Id>) {
    var c := |s.blocks|;
    && (r == Some(c) <==> Complete(p) && forall i | i in s.registry :: !SameDevice(s, i, p))
    && (r == Some(c) ==> n.registry == [c] + s.registry && c < |n.blocks| && IsNew(n.blocks[c], p))
    && (r != Some(c) ==> n.registry == s.registry)
    && (forall k: nat | FirstIn(s, s.registry, p, k) ::
          r == Some(s.registry[k]) <==> Complete(p) && Offers(s, s.registry[k], p))
    && (r.Some? && r != Some(c) ==> exists k: nat :: FirstIn(s, s.registry, p, k) && r == Some(s.registry[k]))
  }

  lemma SameAnswers(s: State, l: State, d: State, p: Publication, c: Id, r: Option<Id>)
    requires Formed(s) && Formed(l) && l.registry == s.registry && c == |s.blocks| <= |l.blocks|
    requires forall i | 0 <= i < c :: l.blocks[i] == s.blocks[i]
    requires AnswersBy(p, c, l, d, r)
    ensures Answers(s, p, d, r)
  {
    hide Complete, IsNew;
    forall i | i in s.registry
      ensures SameDevice(s, i, p) == SameDevice(l, i, p) && Offers(s, i, p) == Offers(l, i, p)
    {
      assert i < c;
    }
    forall k: nat
      ensures FirstIn(s, s.registry, p, k) == FirstIn(l, l.registry, p, k)
    {
      assert forall j | 0 <= j < |s.registry| :: s.registry[j] in s.registry;
    }
  }

  lemma PublishAnswersAlone(s: State, p: Publication)
    requires Inv(s) && s.raw[p.face] > 0
    ensures Answers(s, p, Publish(s, p).0, Publish(s, p).1)
  {
    hide Inv, Built, LookedUp, Answer, Publish, NewBlock, Settled, AnswersBy, Opens, Accounts, Complete, IsNew, FirstIn,
      SameDevice, Offers;
    var t := PublishIs(s, p);
    PublishSettles(s, p);
    SettledRegistryOf(s, p, t.ended, t.answer);
    BuiltCandidate(s, p);
    OpensBuilt(p, |s.blocks|, t);
    FormedOf(s);
    SpareNothing(|s.blocks|);
    PublishAnswers(p, |s.blocks|, [], t);
    SameAnswers(s, t.lookup, t.decided, p, |s.blocks|, t.answer);
    EndedAnswers(s, p, t);
  }

  lemma OpensBuilt(p: Publication, c: Id, t: Call)
    requires Opens(p, c, [], t)
    ensures t.built == Built(t.start, BuildOf(p))
  {
    hide Inv, Built, LookedUp, Answer, Run;
  }

  lemma SettledRegistryOf(s: State, p: Publication, n: State, r: Option<Id>)
    requires Settled(s, p, n, r)
    ensures n.registry == if r == Some(|s.blocks|) then [|s.blocks|] + s.registry else s.registry
  {
    hide Alias;
  }

  lemma EndedAnswers(s: State, p: Publication, t: Call)
    requires Answers(s, p, t.decided, t.answer)
    requires t.ended.registry == if t.answer == Some(|s.blocks|) then [|s.blocks|] + s.registry else s.registry
    requires t.answer == Some(|s.blocks|) ==> t.ended == t.decided
    ensures Answers(s, p, t.ended, t.answer)
  {
    hide Complete, IsNew, FirstIn, SameDevice, Offers;
  }

  // A wrapper reference is dropped; a block left without any is destroyed.
  function Dropped(s: State, i: Id): State
    requires i < |s.blocks| && s.blocks[i].refs > 0
  {
    if s.blocks[i].refs == 1 then Deleted(Released(s, i), i) else Released(s, i)
  }

  // What the callback does after the game's own callback has returned.
  function Closed(n: State, r: Option<Id>, face: Pointer): State
    requires r.Some? ==> r.value < |n.blocks| && n.blocks[r.value].refs > 0
  {
    if r.None? then n.(raw := n.raw - multiset{face}, given := n.given - multiset{face}) else Dropped(n, r.value)
  }

  lemma Registered(s: State, i: Id)
    requires Inv(s) && i in s.registry
    ensures i < |s.blocks| && s.blocks[i].alive && s.blocks[i].refs > 0 && i !in s.building
      && s.held[i] == s.blocks[i].refs
  {
    hide Unique, Private, Conserved;
  }

  /** Nobody's references and no entry of the registry have changed. */
  predicate Even(s: State, n: State) {
    n.raw == s.raw && n.held == s.held && n.given == s.given && n.registry == s.registry
  }

  /**
   The enumeration callback: one reference is taken for the call, the interface published, and the
   wrapper, or the reference, released behind the game's callback. A game that keeps nothing leaves
   nothing behind: every count and the registry are as before.
   */
  lemma CallbackIsNeutral(s: State, p: Publication)
    requires Inv(s)
    ensures Inv(Borrowed(s, p.face)) && Borrowed(s, p.face).raw[p.face] > 0
    ensures var (n, r) := Publish(Borrowed(s, p.face), p);
      (r.Some? ==> r.value < |n.blocks| && n.blocks[r.value].refs > 0) && Even(s, Closed(n, r, p.face))
  {
    BorrowKeeps(s, p.face);
    hide Inv, Publish, Closed, Even;
    var t := Borrowed(s, p.face);
    PublishSettles(t, p);
    var (n, r) := Publish(t, p);
    if r.None? {
      UntouchedIsEven(s, p, n);
    } else {
      Registered(n, r.value);
      if r == Some(|s.blocks|) {
        FreshBlock(t, p);
        FreshIsEven(s, p, n);
      } else {
        SharedIsEven(s, p, n, r.value);
      }
    }
  }

  lemma UntouchedIsEven(s: State, p: Publication, n: State)
    requires Settled(Borrowed(s, p.face), p, n, None)
    ensures Even(s, Closed(n, None, p.face))
  {
  }

  // A wrapper that was there before is released once, and somebody else still holds it.
  lemma SharedIsEven(s: State, p: Publication, n: State, i: Id)
    requires Inv(s) && Inv(n) && i != |s.blocks| && Settled(Borrowed(s, p.face), p, n, Some(i))
    requires i < |n.blocks| && n.blocks[i].refs > 0
    ensures Even(s, Closed(n, Some(i), p.face))
  {
    hide Inv, Without, Own, Deleted, Alias;
    assert i in s.registry;
    Registered(s, i);
    Registered(n, i);
    assert n.held[i] == s.held[i] + 1;
    ReleasedEven(s, n, i, p.face);
  }

  lemma AddedAndTaken(m: multiset<nat>, a: multiset<nat>)
    ensures m + a - a == m
  {
  }

  lemma ReleasedEven(s: State, n: State, i: Id, face: Pointer)
    requires i < |n.blocks| && n.blocks[i].refs > 1 && n.held == s.held + multiset{i} && n.registry == s.registry
    requires n.raw == s.raw + multiset{face} - multiset{face} && n.given == s.given + multiset{face} - multiset{face}
    ensures Even(s, Closed(n, Some(i), face))
  {
    hide Without, Deleted;
    AddedAndTaken(s.raw, multiset{face});
    AddedAndTaken(s.given, multiset{face});
    AddedAndTaken(s.held, multiset{i});
  }

  // A wrapper made for this call alone is gone again, with all it owned.
  lemma FreshIsEven(s: State, p: Publication, n: State)
    requires Inv(s) && Inv(n) && Settled(Borrowed(s, p.face), p, n, Some(|s.blocks|)) && Inv(Borrowed(s, p.face))
    requires |s.blocks| < |n.blocks| && n.blocks[|s.blocks|] == BlockOf(p)
    ensures Even(s, Closed(n, Some(|s.blocks|), p.face))
  {
    hide Inv, Own, Alias, NewBlock, Without;
    var c := |s.blocks|;
    Unheld(s, c);
    assert n.held[c] == 1;
    RemainsOwn(p, Job(p.unicode, p.face, Doomed));
    OwnOfRefs(BlockOf(p));
    assert BlockOf(p).refs == 1 && BlockOf(p).alive by { NewRefs(p); }
    DestroyedEven(s, n, c, p.face, Alias(p));
  }

  lemma NewRefs(p: Publication)
    ensures BlockOf(p).refs == 1 && BlockOf(p).alive
  {
  }

  lemma DestroyedEven(s: State, n: State, c: Id, face: Pointer, alias: multiset<Pointer>)
    requires c < |n.blocks| && n.blocks[c].refs == 1 && n.held == s.held + multiset{c} && n.registry == [c] + s.registry
    requires n.raw == s.raw + multiset{face} - multiset{face} && n.given == s.given + multiset{face} + alias
    requires Own(n.blocks[c].(refs := 0)) == multiset{face} + alias
    ensures Even(s, Closed(n, Some(c), face))
  {
    hide Own;
    AddedAndTaken(s.raw, multiset{face});
    AddedAndTaken(s.given, multiset{face} + alias);
    AddedAndTaken(s.held, multiset{c});
    assert n.given == s.given + (multiset{face} + alias);
    assert Without([c] + s.registry, c) == s.registry by { assert ([c] + s.registry)[1..] == s.registry; }
  }

  lemma Unheld(s: State, c: Id)
    requires Inv(s) && c >= |s.blocks|
    ensures s.held[c] == 0
  {
    hide Listed, Unique, Private, Conserved;
  }

  // The published block is the candidate as it was built.
  lemma FreshBlock(s: State, p: Publication)
    requires Inv(s) && s.raw[p.face] > 0 && Publish(s, p).1 == Some(|s.blocks|)
    ensures var n := Publish(s, p).0; |s.blocks| < |n.blocks| && n.blocks[|s.blocks|] == BlockOf(p)
  {
    BuiltCandidate(s, p);
    hide Inv, Built, Discarded, NewBlock;
  }
}
