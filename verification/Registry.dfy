/**
 The registry of device wrappers. A control block owns references to the two interfaces of
 a real device, counts the references to its own wrappers, and is found again by the
 device's COM identity. Every lock section and every interlocked operation is one step.
 */
module Registry {
  import opened Bytes

  type Pointer = nat   // an interface pointer of a real device
  type Id = nat        // a control block

  datatype Block = Block(
    alive: bool, refs: nat, realA: Option<Pointer>, realW: Option<Pointer>, hasA: bool, hasW: bool,
    identity: Option<nat>)

  // A publish call between building its candidate and returning.
  datatype Stage = Looking | Doomed | Returning
  datatype Job = Job(unicode: bool, face: Pointer, stage: Stage)

  /**
   registry is written head first. held counts the wrapper references in use, raw the references
   to real interfaces that callers own, given those the real devices have given out in all.
   */
  datatype State = State(
    blocks: seq<Block>, registry: seq<Id>, held: multiset<Id>, raw: multiset<Pointer>, given: multiset<Pointer>,
    building: map<Id, Job>)

  datatype Action =
    | Receive(p: Pointer) | Drop(p: Pointer)
    | Build(face: Pointer, unicode: bool, alias: Option<Pointer>, aliasWrapped: bool, identity: Option<nat>)
    | Lookup(c: Id) | Finish(c: Id)
    | AddRef(i: Id) | Release(i: Id) | Delete(i: Id)

  /** The references a block owns to the real device. */
  function Own(b: Block): multiset<Pointer> {
    if !b.alive then multiset{}
    else
      (if b.realA.Some? then multiset{b.realA.value} else multiset{})
      + (if b.realW.Some? then multiset{b.realW.value} else multiset{})
  }

  /** How many of the references to one interface the blocks own. */
  function Owned(blocks: seq<Block>, p: Pointer): nat {
    if blocks == [] then 0 else Owned(blocks[..|blocks| - 1], p) + Own(blocks[|blocks| - 1])[p]
  }

  /** Both interfaces that were obtained have their wrapper. */
  predicate ValidBlock(b: Block) { (b.realA.Some? ==> b.hasA) && (b.realW.Some? ==> b.hasW) }

  function NewBlock(face: Pointer, unicode: bool, alias: Option<Pointer>, aliasWrapped: bool,
      identity: Option<nat>): Block {
    if unicode then Block(true, 1, alias, Some(face), alias.Some? && aliasWrapped, true, identity)
    else Block(true, 1, Some(face), alias, true, alias.Some? && aliasWrapped, identity)
  }

  function HasSide(b: Block, unicode: bool): bool { if unicode then b.hasW else b.hasA }

  predicate Matches(b: Block, face: Pointer, identity: Option<nat>) {
    b.realA == Some(face) || b.realW == Some(face) || (identity.Some? && b.identity == identity)
  }

  /** The first registered block of the same device. */
  function FirstMatch(s: State, registry: seq<Id>, face: Pointer, identity: Option<nat>): (r: Option<Id>)
    requires forall i | i in registry :: i < |s.blocks|
    ensures r.Some? ==> r.value in registry && Matches(s.blocks[r.value], face, identity)
    ensures r.None? ==> forall i | i in registry :: !Matches(s.blocks[i], face, identity)
  {
    if registry == [] then None
    else
      assert registry[0] in registry;
      assert forall i | i in registry[1..] :: i in registry;
      if Matches(s.blocks[registry[0]], face, identity) then Some(registry[0])
      else FirstMatch(s, registry[1..], face, identity)
  }

  function Without(registry: seq<Id>, i: Id): seq<Id> {
    if registry == [] then [] else if registry[0] == i then registry[1..] else [registry[0]] + Without(registry[1..], i)
  }

  predicate Formed(s: State) {
    && (forall i | i in s.registry :: i < |s.blocks|)
    && (forall c | c in s.building :: c < |s.blocks|)
  }

  predicate Enabled(s: State, a: Action)
    requires Formed(s)
  {
    match a
    case Receive(_) => true
    case Drop(p) => s.raw[p] > 0
    case Build(p, _, _, _, _) => s.raw[p] > 0
    case Lookup(c) => c in s.building && s.building[c].stage.Looking?
    case Finish(c) => c in s.building && !s.building[c].stage.Looking? && s.blocks[c].refs > 0
    case AddRef(i) => i < |s.blocks| && s.held[i] > 0 && i !in s.building
    case Release(i) => i < |s.blocks| && s.held[i] > 0 && i !in s.building && s.blocks[i].refs > 0
    case Delete(i) => i < |s.blocks| && s.blocks[i].alive && s.blocks[i].refs == 0
  }

  function PutBlock(s: State, i: Id, b: Block): State
    requires i < |s.blocks|
  {
    s.(blocks := s.blocks[i := b])
  }

  /** The counter goes down under the lock; at zero the block also leaves the registry. */
  function Released(s: State, i: Id): State
    requires i < |s.blocks| && s.blocks[i].refs > 0
  {
    var b := s.blocks[i].(refs := s.blocks[i].refs - 1);
    PutBlock(s, i, b).(held := s.held - multiset{i},
                       registry := if b.refs == 0 then Without(s.registry, i) else s.registry)
  }

  function AddedRef(s: State, i: Id): State
    requires i < |s.blocks|
  {
    PutBlock(s, i, s.blocks[i].(refs := s.blocks[i].refs + 1)).(held := s.held + multiset{i})
  }

  /** The candidate takes over the caller's reference until the call is decided. */
  function Built(s: State, a: Action): State
    requires a.Build?
  {
    var b := NewBlock(a.face, a.unicode, a.alias, a.aliasWrapped, a.identity);
    s.(blocks := s.blocks + [b], raw := s.raw - multiset{a.face}, held := s.held + multiset{|s.blocks|},
       given := s.given + (if a.alias.Some? then multiset{a.alias.value} else multiset{}),
       building := s.building[|s.blocks| := Job(a.unicode, a.face, if ValidBlock(b) then Looking else Returning)])
  }

  function Staged(s: State, c: Id, stage: Stage): State
    requires c in s.building
  {
    s.(building := s.building[c := s.building[c].(stage := stage)])
  }

  /** The section under the lock: link the candidate, or share the wrapper that is there, or neither. */
  function LookedUp(s: State, c: Id): State
    requires Formed(s) && c in s.building
  {
    var job := s.building[c];
    var found := FirstMatch(s, s.registry, job.face, s.blocks[c].identity);
    if found.None? then s.(registry := [c] + s.registry, building := s.building - {c})
    else if HasSide(s.blocks[found.value], job.unicode) then Staged(AddedRef(s, found.value), c, Doomed)
    else Staged(s, c, Returning)
  }

  // The caller gets its interface reference back out of the candidate.
  function Detached(s: State, c: Id): State
    requires c < |s.blocks| && c in s.building
  {
    var b := s.blocks[c];
    PutBlock(s, c, if s.building[c].unicode then b.(realW := None) else b.(realA := None)).(
      raw := s.raw + multiset{s.building[c].face})
  }

  function Finished(s: State, c: Id): State
    requires c < |s.blocks| && c in s.building && s.blocks[c].refs > 0
  {
    var d := if s.building[c].stage.Returning? then Detached(s, c) else s;
    Released(d, c).(building := s.building - {c})
  }

  /** The destructor returns what the block still owns. */
  function Deleted(s: State, i: Id): State
    requires i < |s.blocks|
  {
    PutBlock(s, i, s.blocks[i].(alive := false)).(given := s.given - Own(s.blocks[i]))
  }

  function Step(s: State, a: Action): State
    requires Formed(s) && Enabled(s, a)
  {
    match a
    case Receive(p) => s.(raw := s.raw + multiset{p}, given := s.given + multiset{p})
    case Drop(p) => s.(raw := s.raw - multiset{p}, given := s.given - multiset{p})
    case Build(_, _, _, _, _) => Built(s, a)
    case Lookup(c) => LookedUp(s, c)
    case Finish(c) => Finished(s, c)
    case AddRef(i) => AddedRef(s, i)
    case Release(i) => Released(s, i)
    case Delete(i) => Deleted(s, i)
  }

  // ---------- The invariant ----------

  /** A live block counts exactly the references in use; a dead one has none. */
  ghost predicate Counted(s: State) {
    && (forall i | 0 <= i < |s.blocks| :: s.held[i] == if s.blocks[i].alive then s.blocks[i].refs else 0)
    && (forall i | i in s.held :: i < |s.blocks|)
  }

  /** Registered blocks are alive, in use, and there once. */
  predicate Listed(s: State) {
    && (forall i | i in s.registry :: i < |s.blocks| && s.blocks[i].alive && s.blocks[i].refs > 0 && i !in s.building)
    && (forall i, j | 0 <= i < j < |s.registry| :: s.registry[i] != s.registry[j])
  }

  /** No two registered blocks are of the same device. */
  predicate Unique(s: State)
    requires Formed(s)
  {
    forall i, j | i in s.registry && j in s.registry
      && s.blocks[i].identity.Some? && s.blocks[i].identity == s.blocks[j].identity :: i == j
  }

  function Side(b: Block, unicode: bool): Option<Pointer> { if unicode then b.realW else b.realA }

  /** A candidate is referenced only by its own call, and holds the caller's interface. */
  ghost predicate Private(s: State) {
    forall c | c in s.building :: c < |s.blocks| && s.blocks[c].alive && s.blocks[c].refs == 1
      && Side(s.blocks[c], s.building[c].unicode) == Some(s.building[c].face)
  }

  /** Every reference a real device has given out is a caller's or a block's. */
  ghost predicate Conserved(s: State) { forall p :: s.given[p] == s.raw[p] + Owned(s.blocks, p) }

  ghost predicate Inv(s: State) { Formed(s) && Counted(s) && Listed(s) && Unique(s) && Private(s) && Conserved(s) }

  // ---------- Ownership ----------

  lemma {:induction false} OwnedSet(blocks: seq<Block>, i: Id, b: Block, p: Pointer)
    requires i < |blocks|
    ensures Owned(blocks[i := b], p) + Own(blocks[i])[p] == Owned(blocks, p) + Own(b)[p]
    decreases blocks
  {
    hide Own;
    var n := |blocks| - 1;
    if i == n {
      assert blocks[i := b][..n] == blocks[..n];
    } else {
      assert blocks[i := b][..n] == blocks[..n][i := b];
      OwnedSet(blocks[..n], i, b, p);
    }
  }

  lemma {:induction false} OwnedAtLeast(blocks: seq<Block>, i: Id, p: Pointer)
    requires i < |blocks|
    ensures Own(blocks[i])[p] <= Owned(blocks, p)
    decreases blocks
  {
    hide Own;
    if i == |blocks| - 1 {
    } else {
      OwnedAtLeast(blocks[..|blocks| - 1], i, p);
    }
  }

  lemma OwnedAdd(blocks: seq<Block>, b: Block, p: Pointer)
    ensures Owned(blocks + [b], p) == Owned(blocks, p) + Own(b)[p]
  {
    hide Own;
    assert (blocks + [b])[..|blocks|] == blocks;
  }

  // A block that owns as much as before changes nothing for the real devices.
  lemma SameOwner(s: State, t: State, i: Id)
    requires i < |s.blocks| && |t.blocks| == |s.blocks| && t.blocks == s.blocks[i := t.blocks[i]]
    requires Own(t.blocks[i]) == Own(s.blocks[i]) && Conserved(s) && t.raw == s.raw && t.given == s.given
    ensures Conserved(t)
  {
    hide Own, Owned;
    forall p
      ensures t.given[p] == t.raw[p] + Owned(t.blocks, p)
    {
      OwnedSet(s.blocks, i, t.blocks[i], p);
    }
  }

  lemma {:induction false} WithoutMembers(registry: seq<Id>, i: Id)
    requires forall k, l | 0 <= k < l < |registry| :: registry[k] != registry[l]
    ensures forall x :: x in Without(registry, i) <==> x in registry && x != i
    ensures forall k, l | 0 <= k < l < |Without(registry, i)| :: Without(registry, i)[k] != Without(registry, i)[l]
  {
    if registry == [] || registry[0] == i {
    } else {
      WithoutMembers(registry[1..], i);
      var rest := Without(registry[1..], i);
      forall k | 0 <= k < |rest|
        ensures rest[k] != registry[0]
      {
        assert rest[k] in rest;
      }
    }
  }

  // ---------- Every step keeps the invariant ----------

  lemma BuildConserves(s: State, a: Action)
    requires Conserved(s) && a.Build? && s.raw[a.face] > 0
    ensures Conserved(Built(s, a))
  {
    hide Owned;
    var b := NewBlock(a.face, a.unicode, a.alias, a.aliasWrapped, a.identity);
    forall p
      ensures Built(s, a).given[p] == Built(s, a).raw[p] + Owned(Built(s, a).blocks, p)
    {
      OwnedAdd(s.blocks, b, p);
    }
  }

  lemma BuildCounted(s: State, a: Action)
    requires Counted(s) && a.Build?
    ensures Counted(Built(s, a))
  {
    hide ValidBlock;
    var n := Built(s, a);
    forall i | 0 <= i < |n.blocks|
      ensures n.held[i] == if n.blocks[i].alive then n.blocks[i].refs else 0
    {
      if i < |s.blocks| {
        assert n.blocks[i] == s.blocks[i];
      }
    }
  }

  lemma BuildListed(s: State, a: Action)
    requires Formed(s) && Listed(s) && Unique(s) && Private(s) && a.Build?
    ensures var n := Built(s, a); Formed(n) && Listed(n) && Unique(n) && Private(n)
  {
    hide ValidBlock;
    var n := Built(s, a);
    assert forall i | 0 <= i < |s.blocks| :: n.blocks[i] == s.blocks[i];
    assert n.blocks[|s.blocks|] == NewBlock(a.face, a.unicode, a.alias, a.aliasWrapped, a.identity);
  }

  lemma BuildKeeps(s: State, a: Action)
    requires Inv(s) && a.Build? && s.raw[a.face] > 0
    ensures Inv(Built(s, a))
  {
    hide Conserved, Counted, Listed, Unique, Private, Built;
    BuildConserves(s, a);
    BuildCounted(s, a);
    BuildListed(s, a);
  }

  lemma LinkedListed(s: State, c: Id)
    requires Formed(s) && Listed(s) && Unique(s) && Private(s) && c in s.building
    requires forall i | i in s.registry :: !Matches(s.blocks[i], s.building[c].face, s.blocks[c].identity)
    ensures var n := s.(registry := [c] + s.registry, building := s.building - {c});
      Formed(n) && Listed(n) && Unique(n) && Private(n)
  {
    var n := s.(registry := [c] + s.registry, building := s.building - {c});
    assert forall x | x in n.registry :: x == c || x in s.registry;
    assert c !in s.registry;
  }

  lemma LinkedBooks(s: State, n: State)
    requires n.blocks == s.blocks && n.held == s.held && n.raw == s.raw && n.given == s.given && Counted(s)
      && Conserved(s)
    ensures Counted(n) && Conserved(n)
  {
  }

  lemma LinkKeeps(s: State, c: Id)
    requires Inv(s) && c in s.building && s.building[c].stage.Looking?
    requires FirstMatch(s, s.registry, s.building[c].face, s.blocks[c].identity).None?
    ensures Inv(LookedUp(s, c))
  {
    hide Conserved, Counted, Listed, Unique, Private, FirstMatch, Matches;
    LinkedListed(s, c);
    LinkedBooks(s, LookedUp(s, c));
  }

  lemma AddRefCounted(s: State, i: Id)
    requires Counted(s) && i < |s.blocks| && s.blocks[i].alive
    ensures Counted(AddedRef(s, i))
  {
    var n := AddedRef(s, i);
    forall k | 0 <= k < |n.blocks|
      ensures n.held[k] == if n.blocks[k].alive then n.blocks[k].refs else 0
    {
      if k != i {
        assert n.blocks[k] == s.blocks[k];
      }
    }
  }

  // Changing a counter leaves tables and candidates alone, as long as listed blocks stay in use.
  lemma RecountListed(s: State, n: State, i: Id)
    requires Formed(s) && Listed(s) && Unique(s) && Private(s) && i < |s.blocks| && i !in s.building
    requires |n.blocks| == |s.blocks| && n.blocks == s.blocks[i := s.blocks[i].(refs := n.blocks[i].refs)]
      && n.building == s.building
    requires (forall x | x in n.registry :: x in s.registry && (x == i ==> n.blocks[i].refs > 0))
    requires forall k, l | 0 <= k < l < |n.registry| :: n.registry[k] != n.registry[l]
    ensures Formed(n) && Listed(n) && Unique(n) && Private(n)
  {
    assert forall k | 0 <= k < |s.blocks| && k != i :: n.blocks[k] == s.blocks[k];
  }

  lemma AddRefKeeps(s: State, i: Id)
    requires Inv(s) && i < |s.blocks| && s.blocks[i].alive && i !in s.building
    ensures Inv(AddedRef(s, i))
  {
    SameOwner(s, AddedRef(s, i), i);
    AddRefCounted(s, i);
    assert forall k, l | 0 <= k < l < |s.registry| :: s.registry[k] != s.registry[l];
    hide Conserved, Counted, Listed, Unique, Private;
    RecountListed(s, AddedRef(s, i), i);
  }

  lemma StageKeeps(s: State, c: Id, stage: Stage)
    requires Inv(s) && c in s.building
    ensures Inv(Staged(s, c, stage))
  {
  }

  lemma LookupKeeps(s: State, c: Id)
    requires Inv(s) && c in s.building && s.building[c].stage.Looking?
    ensures Inv(LookedUp(s, c))
  {
    hide Counted, Unique, Private, Conserved;
    var found := FirstMatch(s, s.registry, s.building[c].face, s.blocks[c].identity);
    if found.None? {
      LinkKeeps(s, c);
    } else if HasSide(s.blocks[found.value], s.building[c].unicode) {
      AddRefKeeps(s, found.value);
      StageKeeps(AddedRef(s, found.value), c, Doomed);
    } else {
      StageKeeps(s, c, Returning);
    }
  }

  lemma ReleaseCounted(s: State, i: Id)
    requires Counted(s) && i < |s.blocks| && s.blocks[i].alive && s.blocks[i].refs > 0
    ensures Counted(Released(s, i))
  {
    hide Without;
    var n := Released(s, i);
    forall k | 0 <= k < |n.blocks|
      ensures n.held[k] == if n.blocks[k].alive then n.blocks[k].refs else 0
    {
      if k != i {
        assert n.blocks[k] == s.blocks[k];
      }
    }
  }

  lemma ReleaseKeeps(s: State, i: Id)
    requires Inv(s) && i < |s.blocks| && s.blocks[i].alive && s.blocks[i].refs > 0 && i !in s.building
    ensures Inv(Released(s, i))
  {
    assert forall k, l | 0 <= k < l < |s.registry| :: s.registry[k] != s.registry[l];
    hide Conserved, Counted, Listed, Unique, Private, Without;
    WithoutMembers(s.registry, i);
    SameOwner(s, Released(s, i), i);
    ReleaseCounted(s, i);
    RecountListed(s, Released(s, i), i);
  }

  lemma DetachConserves(s: State, c: Id)
    requires Inv(s) && c in s.building
    ensures Conserved(Detached(s, c))
  {
    hide Owned, Counted, Listed, Unique;
    var d := Detached(s, c);
    forall p
      ensures d.given[p] == d.raw[p] + Owned(d.blocks, p)
    {
      OwnedSet(s.blocks, c, d.blocks[c], p);
      assert Own(s.blocks[c])[p] == Own(d.blocks[c])[p] + multiset{s.building[c].face}[p];
    }
  }

  lemma DetachListed(s: State, c: Id)
    requires Inv(s) && c in s.building
    ensures var e := Detached(s, c).(building := s.building - {c});
      Formed(e) && Listed(e) && Unique(e) && Private(e) && Counted(e)
  {
    hide Conserved;
    var d := Detached(s, c);
    assert forall k | 0 <= k < |s.blocks| && k != c :: d.blocks[k] == s.blocks[k];
  }

  lemma LeaveListed(s: State, c: Id)
    requires Inv(s) && c in s.building
    ensures Inv(s.(building := s.building - {c}))
  {
    hide Owned;
  }

  // The candidate with the caller's interface handed back or not, no longer in a call.
  function Left(s: State, c: Id): State
    requires c < |s.blocks| && c in s.building
  {
    var d := if s.building[c].stage.Returning? then Detached(s, c) else s;
    d.(building := s.building - {c})
  }

  lemma LeftKeeps(s: State, c: Id)
    requires Inv(s) && c in s.building
    ensures Inv(Left(s, c))
  {
    hide Conserved, Counted, Listed, Unique, Private, Detached;
    DetachConserves(s, c);
    DetachListed(s, c);
    LeaveListed(s, c);
    SameBooks(Detached(s, c), Detached(s, c).(building := s.building - {c}));
  }

  lemma LeftReleases(s: State, c: Id)
    requires c < |s.blocks| && c in s.building && s.blocks[c].refs > 0
    ensures Finished(s, c) == Released(Left(s, c), c)
    ensures |Left(s, c).blocks| == |s.blocks| && c !in Left(s, c).building
    ensures Left(s, c).blocks[c].alive == s.blocks[c].alive && Left(s, c).blocks[c].refs == s.blocks[c].refs
  {
    hide Without;
  }

  // Once the call is over its candidate is an ordinary block with one reference.
  lemma FinishKeeps(s: State, c: Id)
    requires Inv(s) && c in s.building && !s.building[c].stage.Looking?
    ensures Inv(Finished(s, c))
  {
    assert s.blocks[c].alive && s.blocks[c].refs == 1;
    hide Conserved, Counted, Listed, Unique, Private, Left, Finished, Released;
    LeftKeeps(s, c);
    LeftReleases(s, c);
    ReleaseKeeps(Left(s, c), c);
  }

  lemma SameBooks(d: State, e: State)
    requires e.blocks == d.blocks && e.raw == d.raw && e.given == d.given && Conserved(d)
    ensures Conserved(e)
  {
  }

  lemma DeleteConserves(s: State, i: Id)
    requires Conserved(s) && i < |s.blocks|
    ensures Conserved(Deleted(s, i))
  {
    hide Owned;
    var d := Deleted(s, i);
    forall p
      ensures d.given[p] == d.raw[p] + Owned(d.blocks, p)
    {
      OwnedSet(s.blocks, i, d.blocks[i], p);
      OwnedAtLeast(s.blocks, i, p);
    }
  }

  lemma DeleteListed(s: State, i: Id)
    requires Formed(s) && Listed(s) && Unique(s) && Private(s) && i < |s.blocks| && s.blocks[i].refs == 0
    ensures var n := Deleted(s, i); Formed(n) && Listed(n) && Unique(n) && Private(n)
  {
    hide Own;
    assert i !in s.registry && i !in s.building;
    assert forall k | 0 <= k < |s.blocks| && k != i :: Deleted(s, i).blocks[k] == s.blocks[k];
  }

  lemma DeleteCounted(s: State, i: Id)
    requires Counted(s) && i < |s.blocks| && s.blocks[i].alive && s.blocks[i].refs == 0
    ensures Counted(Deleted(s, i))
  {
    hide Own;
    assert forall k | 0 <= k < |s.blocks| && k != i :: Deleted(s, i).blocks[k] == s.blocks[k];
  }

  lemma DeleteKeeps(s: State, i: Id)
    requires Inv(s) && i < |s.blocks| && s.blocks[i].alive && s.blocks[i].refs == 0
    ensures Inv(Deleted(s, i))
  {
    hide Conserved, Counted, Listed, Unique, Private, Deleted;
    DeleteConserves(s, i);
    DeleteCounted(s, i);
    DeleteListed(s, i);
  }

  lemma RawKeeps(s: State, p: Pointer)
    requires Inv(s)
    ensures Inv(s.(raw := s.raw + multiset{p}, given := s.given + multiset{p}))
    ensures s.raw[p] > 0 ==> Inv(s.(raw := s.raw - multiset{p}, given := s.given - multiset{p}))
  {
    hide Counted, Listed, Unique, Private, Owned;
    var up, down := s.(raw := s.raw + multiset{p}, given := s.given + multiset{p}),
      s.(raw := s.raw - multiset{p}, given := s.given - multiset{p});
    assert Counted(up) && Listed(up) && Unique(up) && Private(up) by { SameParts(s, up); }
    assert Counted(down) && Listed(down) && Unique(down) && Private(down) by { SameParts(s, down); }
  }

  lemma SameParts(s: State, t: State)
    requires Inv(s) && t.blocks == s.blocks && t.registry == s.registry && t.held == s.held && t.building == s.building
    ensures Counted(t) && Listed(t) && Formed(t) && Unique(t) && Private(t)
  {
  }

  lemma HolderLives(s: State, i: Id)
    requires Inv(s) && i < |s.blocks| && s.held[i] > 0
    ensures s.blocks[i].alive && s.blocks[i].refs > 0
  {
  }

  /** Every step of every thread keeps the invariant. */
  lemma StepKeeps(s: State, a: Action)
    requires Inv(s) && Enabled(s, a)
    ensures Inv(Step(s, a))
  {
    hide Counted, Listed, Unique, Private, Conserved, Built, LookedUp, Finished, AddedRef, Released, Deleted;
    match a
    case Receive(p) => RawKeeps(s, p);
    case Drop(p) => RawKeeps(s, p);
    case Build(_, _, _, _, _) => BuildKeeps(s, a);
    case Lookup(c) => LookupKeeps(s, c);
    case Finish(c) => FinishKeeps(s, c);
    case AddRef(i) =>
      HolderLives(s, i);
      AddRefKeeps(s, i);
    case Release(i) =>
      HolderLives(s, i);
      ReleaseKeeps(s, i);
    case Delete(i) => DeleteKeeps(s, i);
  }
}
