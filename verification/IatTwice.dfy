/** On an image whose tables do not overlap, the import patch has nothing left to do the second time. */
module IatTwice {
  import opened Bytes
  import opened IatWalk

  /** The slots of a list end inside an image of this size. */
  predicate Below(slots: seq<nat>, size: nat, j: Job) { forall s | s in slots :: s + Width(j) <= size }

  predicate Within(some: seq<nat>, slots: seq<nat>) { forall s | s in some :: s in slots }

  // ---------- Which slots the walk visits, on an image that stays as it is ----------

  function TableVisits(b: seq<byte>, first: nat, lookup: nat, index: nat, j: Job): (slots: seq<nat>)
    ensures Below(slots, |b|, j)
    decreases |b| - (first + Offset(index, j))
  {
    EntryInRange(b, first, lookup, index, j);
    match EntryAt(b, first, lookup, index, j)
    case Stop => []
    case Skip => TableVisits(b, first, lookup, index + 1, j)
    case Slot => [first + Offset(index, j)] + TableVisits(b, first, lookup, index + 1, j)
  }

  function DescriptorVisits(b: seq<byte>, table: nat, count: nat, index: nat, j: Job): (slots: seq<nat>)
    requires table + count * DESCRIPTOR_SIZE <= |b|
    ensures Below(slots, |b|, j)
    decreases count - index
  {
    if index >= count then []
    else
      var d := DescriptorAt(b, table + index * DESCRIPTOR_SIZE);
      if d.name == 0 && d.first == 0 then []
      else
        (if Chosen(b, d, j) then TableVisits(b, d.first, d.lookup, 0, j) else [])
        + DescriptorVisits(b, table, count, index + 1, j)
  }

  function Visits(b: seq<byte>, j: Job): (slots: seq<nat>)
    ensures Below(slots, |b|, j)
  {
    var directory := Directory(b, j);
    if directory.None? then []
    else DescriptorVisits(b, directory.value.0, directory.value.1 / DESCRIPTOR_SIZE, 0, j)
  }

  // ---------- Tables that do not overlap ----------

  /** A stretch of the image with no byte of a slot in it. */
  predicate Clear(at: nat, length: nat, slots: seq<nat>, j: Job) {
    forall s | s in slots :: s + Width(j) <= at || at + length <= s
  }

  predicate ClearEntry(b: seq<byte>, first: nat, lookup: nat, index: nat, slots: seq<nat>, j: Job) {
    var w := Width(j);
    if !InRange(|b|, first + Offset(index, j), w) then true
    else if lookup == 0 then PointerAt(b, first + Offset(index, j), j) == 0 ==>
      Clear(first + Offset(index, j), w, slots, j)
    else if !InRange(|b|, lookup + Offset(index, j), w) then true
    else
      var entry := PointerAt(b, lookup + Offset(index, j), j);
      Clear(lookup + Offset(index, j), w, slots, j)
      && (0 < entry < OrdinalBit(j) ==> Clear(entry + 2, |FUNCTION_NAME| + 1, slots, j))
  }

  /** What decides about a table's entries lies outside all slots. */
  predicate ClearTable(b: seq<byte>, first: nat, lookup: nat, index: nat, slots: seq<nat>, j: Job)
    decreases |b| - (first + Offset(index, j))
  {
    EntryInRange(b, first, lookup, index, j);
    && ClearEntry(b, first, lookup, index, slots, j)
    && (EntryAt(b, first, lookup, index, j) != Stop ==> ClearTable(b, first, lookup, index + 1, slots, j))
  }

  predicate ClearDescriptors(b: seq<byte>, table: nat, count: nat, index: nat, slots: seq<nat>, j: Job)
    requires table + count * DESCRIPTOR_SIZE <= |b|
    decreases count - index
  {
    index < count ==>
      var d := DescriptorAt(b, table + index * DESCRIPTOR_SIZE);
      && Clear(table + index * DESCRIPTOR_SIZE, DESCRIPTOR_SIZE, slots, j)
      && (!(d.name == 0 && d.first == 0) ==>
            && Clear(d.name, |LIBRARY_NAME| + 1, slots, j)
            && (Chosen(b, d, j) ==> ClearTable(b, d.first, d.lookup, 0, slots, j))
            && ClearDescriptors(b, table, count, index + 1, slots, j))
  }

  /** Headers, descriptors, lookup tables and names lie outside all slots, and slots are the same or disjoint. */
  predicate Apart(b: seq<byte>, j: Job) {
    var slots, directory := Visits(b, j), Directory(b, j);
    directory.Some? ==>
      && Clear(0, DOS_HEADER_SIZE, slots, j) && Clear(U32At(b, 60), NtSize(j), slots, j)
      && ClearDescriptors(b, directory.value.0, directory.value.1 / DESCRIPTOR_SIZE, 0, slots, j)
      && (forall s, t | s in slots && t in slots :: s == t || s + Width(j) <= t || t + Width(j) <= s)
  }

  // ---------- Images that differ only in the slots ----------

  /** Outside the slots the images are the same, and no used slot has become null. */
  predicate Agrees(b: seq<byte>, c: seq<byte>, slots: seq<nat>, j: Job)
    requires Below(slots, |b|, j)
  {
    && |c| == |b|
    && (forall i | 0 <= i < |b| && (forall s | s in slots :: i < s || s + Width(j) <= i) :: c[i] == b[i])
    && (forall s | s in slots && PointerAt(b, s, j) != 0 :: PointerAt(c, s, j) != 0)
  }

  lemma ClearSame(b: seq<byte>, c: seq<byte>, at: nat, length: nat, slots: seq<nat>, j: Job)
    requires Below(slots, |b|, j) && Agrees(b, c, slots, j) && Clear(at, length, slots, j)
    ensures forall i | at <= i < at + length && i < |b| :: c[i] == b[i]
  {
    hide PointerAt;
  }

  lemma SamePointer(b: seq<byte>, c: seq<byte>, at: nat, j: Job)
    requires at + Width(j) <= |b| && |c| == |b| && forall i | at <= i < at + Width(j) :: c[i] == b[i]
    ensures PointerAt(c, at, j) == PointerAt(b, at, j)
  {
  }

  lemma SameName(b: seq<byte>, c: seq<byte>, at: nat, expected: seq<byte>)
    requires |c| == |b| && forall i | at <= i < at + |expected| + 1 && i < |b| :: c[i] == b[i]
    ensures NameIs(c, at, expected) == NameIs(b, at, expected)
  {
  }

  lemma SameEntry(b: seq<byte>, c: seq<byte>, first: nat, lookup: nat, index: nat, slots: seq<nat>, j: Job)
    requires Below(slots, |b|, j) && Agrees(b, c, slots, j) && ClearEntry(b, first, lookup, index, slots, j)
    requires EntryAt(b, first, lookup, index, j).Slot? ==> first + Offset(index, j) in slots
    ensures EntryAt(c, first, lookup, index, j) == EntryAt(b, first, lookup, index, j)
  {
    hide PointerAt, NameIs;
    var w := Width(j);
    var slot, at := first + Offset(index, j), lookup + Offset(index, j);
    if InRange(|b|, slot, w) && lookup == 0 && PointerAt(b, slot, j) == 0 {
      ClearSame(b, c, slot, w, slots, j);
      SamePointer(b, c, slot, j);
    } else if InRange(|b|, slot, w) && lookup != 0 && InRange(|b|, at, w) {
      ClearSame(b, c, at, w, slots, j);
      SamePointer(b, c, at, j);
      var entry := PointerAt(b, at, j);
      if 0 < entry < OrdinalBit(j) {
        ClearSame(b, c, entry + 2, |FUNCTION_NAME| + 1, slots, j);
        SameName(b, c, entry + 2, FUNCTION_NAME);
      }
    }
  }

  // ---------- Patching a list of slots ----------

  function PatchAll(b: seq<byte>, slots: seq<nat>, j: Job): (r: Walk)
    requires Fits(j) && Below(slots, |b|, j)
    ensures |r.image| == |b|
    decreases slots
  {
    if slots == [] then Walk(b, [])
    else
      assert slots[0] in slots && forall s | s in slots[1..] :: s in slots;
      var (p, hit) := Patched(b, slots[0], j);
      var rest := PatchAll(p, slots[1..], j);
      Walk(rest.image, (if hit then [slots[0]] else []) + rest.log)
  }

  lemma PatchedAgrees(b: seq<byte>, c: seq<byte>, slot: nat, slots: seq<nat>, j: Job)
    requires Fits(j) && Below(slots, |b|, j) && Agrees(b, c, slots, j) && slot in slots
    requires forall s, t | s in slots && t in slots :: s == t || s + Width(j) <= t || t + Width(j) <= s
    ensures Agrees(b, Patched(c, slot, j).0, slots, j)
  {
    hide PointerAt, PointerBytes;
    var p := Patched(c, slot, j).0;
    forall s | s in slots && PointerAt(b, s, j) != 0
      ensures PointerAt(p, s, j) != 0
    {
      if s != slot {
        SamePointer(c, p, s, j);
      } else if p != c {
        WriteReads(c, slot, j.replacement, j);
      }
    }
  }

  predicate Disjoint(slots: seq<nat>, j: Job) {
    forall s, t | s in slots && t in slots :: s == t || s + Width(j) <= t || t + Width(j) <= s
  }

  // The descriptor in use stays readable and says where the table is.
  predicate Home(b: seq<byte>, home: nat, first: nat, slots: seq<nat>, j: Job) {
    && home + DESCRIPTOR_SIZE <= |b| && Clear(home, DESCRIPTOR_SIZE, slots, j)
    && DescriptorAt(b, home).first == first
  }

  lemma SameTurn(b: seq<byte>, c: seq<byte>, home: nat, first: nat, lookup: nat, index: nat, slots: seq<nat>, j: Job)
    requires Below(slots, |b|, j) && Agrees(b, c, slots, j) && Home(b, home, first, slots, j)
    ensures |c| == |b| && TurnAt(c, home, first, lookup, index, j) == EntryAt(c, first, lookup, index, j)
  {
    hide PointerAt, Wanted, Agrees, Clear;
    SameDescriptor(b, c, home, slots, j);
  }

  /** A table walked on an image that agrees with b patches exactly the slots visited on b. */
  lemma {:induction false} TablePatches(b: seq<byte>, c: seq<byte>, home: nat, first: nat, lookup: nat, index: nat,
      slots: seq<nat>, j: Job)
    requires Fits(j) && Below(slots, |b|, j) && Disjoint(slots, j) && Home(b, home, first, slots, j)
    requires Agrees(b, c, slots, j) && |c| == |b| && ClearTable(b, first, lookup, index, slots, j)
    requires Within(TableVisits(b, first, lookup, index, j), slots)
    ensures WalkTable(c, home, first, lookup, index, j) == PatchAll(c, TableVisits(b, first, lookup, index, j), j)
    ensures Agrees(b, WalkTable(c, home, first, lookup, index, j).image, slots, j)
    decreases |b| - (first + Offset(index, j))
  {
    hide *;
    var slot, visits := first + Offset(index, j), TableVisits(b, first, lookup, index, j);
    HomeHolds(b, home, first, slots, j);
    VisitsStep(b, first, lookup, index, slots, j);
    SameEntry(b, c, first, lookup, index, slots, j);
    SameTurn(b, c, home, first, lookup, index, slots, j);
    match EntryAt(b, first, lookup, index, j)
    case Stop =>
      TableEnds(c, home, first, lookup, index, j);
      PatchNothing(c, j);
    case Skip =>
      TableStep(c, home, first, lookup, index, j);
      TablePatches(b, c, home, first, lookup, index + 1, slots, j);
    case Slot =>
      TableStep(c, home, first, lookup, index, j);
      PatchAllFirst(c, visits, j);
      SlotPatched(b, c, slot, slots, j);
      TablePatches(b, Patched(c, slot, j).0, home, first, lookup, index + 1, slots, j);
  }

  lemma HomeHolds(b: seq<byte>, home: nat, first: nat, slots: seq<nat>, j: Job)
    requires Home(b, home, first, slots, j)
    ensures home + DESCRIPTOR_SIZE <= |b|
  {
  }

  // The visits of one table, its first entry apart.
  lemma VisitsStep(b: seq<byte>, first: nat, lookup: nat, index: nat, slots: seq<nat>, j: Job)
    requires ClearTable(b, first, lookup, index, slots, j) && Within(TableVisits(b, first, lookup, index, j), slots)
    ensures ClearEntry(b, first, lookup, index, slots, j)
    ensures var (visits, slot) := (TableVisits(b, first, lookup, index, j), first + Offset(index, j));
      match EntryAt(b, first, lookup, index, j)
      case Stop => visits == []
      case Skip => visits == TableVisits(b, first, lookup, index + 1, j)
      case Slot =>
        slot in slots && visits != [] && visits[0] == slot && visits[1..] == TableVisits(b, first, lookup, index + 1, j)
    ensures EntryAt(b, first, lookup, index, j) != Stop ==>
      && first + Offset(index, j) + Width(j) <= |b| && Offset(index + 1, j) > Offset(index, j)
      && ClearTable(b, first, lookup, index + 1, slots, j)
      && Within(TableVisits(b, first, lookup, index + 1, j), slots)
  {
    hide EntryAt, ClearEntry;
    EntryInRange(b, first, lookup, index, j);
    var visits, rest := TableVisits(b, first, lookup, index, j), TableVisits(b, first, lookup, index + 1, j);
    if EntryAt(b, first, lookup, index, j).Slot? {
      assert visits == [first + Offset(index, j)] + rest;
      assert visits[0] in visits && visits[1..] == rest;
      assert forall s | s in rest :: s in visits;
    }
  }

  lemma SlotPatched(b: seq<byte>, c: seq<byte>, slot: nat, slots: seq<nat>, j: Job)
    requires Fits(j) && Below(slots, |b|, j) && Agrees(b, c, slots, j) && slot in slots && Disjoint(slots, j)
    ensures |c| == |b| && Agrees(b, Patched(c, slot, j).0, slots, j)
  {
    PatchedAgrees(b, c, slot, slots, j);
  }

  lemma PatchAllFirst(b: seq<byte>, x: seq<nat>, j: Job)
    requires Fits(j) && Below(x, |b|, j) && x != []
    ensures x[0] + Width(j) <= |b| && |Patched(b, x[0], j).0| == |b| && Below(x[1..], |b|, j)
    ensures var (p, hit) := Patched(b, x[0], j);
      var rest := PatchAll(p, x[1..], j);
      PatchAll(b, x, j) == Walk(rest.image, (if hit then [x[0]] else []) + rest.log)
  {
    hide Patched;
    assert x[0] in x && forall s | s in x[1..] :: s in x;
  }

  lemma BelowConcat(x: seq<nat>, y: seq<nat>, size: nat, j: Job)
    requires Below(x, size, j) && Below(y, size, j)
    ensures Below(x + y, size, j)
  {
  }

  lemma {:induction false} PatchAllConcat(b: seq<byte>, x: seq<nat>, y: seq<nat>, j: Job)
    requires Fits(j) && Below(x, |b|, j) && Below(y, |b|, j)
    ensures Below(x + y, |b|, j)
    ensures var (m, n) := (PatchAll(b, x, j), PatchAll(PatchAll(b, x, j).image, y, j));
      PatchAll(b, x + y, j) == Walk(n.image, m.log + n.log)
    decreases x
  {
    hide *;
    BelowConcat(x, y, |b|, j);
    if x == [] {
      assert x + y == y;
      PatchNothing(b, j);
    } else {
      assert (x + y)[1..] == x[1..] + y;
      PatchAllFirst(b, x, j);
      PatchAllFirst(b, x + y, j);
      PatchAllConcat(Patched(b, x[0], j).0, x[1..], y, j);
    }
  }

  lemma PatchNothing(b: seq<byte>, j: Job)
    requires Fits(j)
    ensures Below([], |b|, j) && PatchAll(b, [], j) == Walk(b, [])
  {
  }

  lemma SameDescriptor(b: seq<byte>, c: seq<byte>, at: nat, slots: seq<nat>, j: Job)
    requires Below(slots, |b|, j) && Agrees(b, c, slots, j)
    requires at + DESCRIPTOR_SIZE <= |b| && Clear(at, DESCRIPTOR_SIZE, slots, j)
    ensures |c| == |b| && DescriptorAt(c, at) == DescriptorAt(b, at)
    ensures Clear(DescriptorAt(b, at).name, |LIBRARY_NAME| + 1, slots, j) ==>
      Chosen(c, DescriptorAt(b, at), j) == Chosen(b, DescriptorAt(b, at), j)
  {
    ClearSame(b, c, at, DESCRIPTOR_SIZE, slots, j);
    var d := DescriptorAt(b, at);
    hide PointerAt, NameIs, Agrees;
    if Clear(d.name, |LIBRARY_NAME| + 1, slots, j) {
      ClearSame(b, c, d.name, |LIBRARY_NAME| + 1, slots, j);
      SameName(b, c, d.name, LIBRARY_NAME);
    }
  }

  // What one descriptor contributes.
  function OneVisits(b: seq<byte>, d: Descriptor, j: Job): (slots: seq<nat>)
    ensures Below(slots, |b|, j)
  {
    if Chosen(b, d, j) then TableVisits(b, d.first, d.lookup, 0, j) else []
  }

  lemma OnePatches(b: seq<byte>, c: seq<byte>, home: nat, d: Descriptor, slots: seq<nat>, j: Job)
    requires Fits(j) && Below(slots, |b|, j) && Disjoint(slots, j) && Agrees(b, c, slots, j) && |c| == |b|
    requires Home(b, home, d.first, slots, j) && DescriptorAt(c, home) == d
    requires Chosen(c, d, j) == Chosen(b, d, j) && (Chosen(b, d, j) ==> ClearTable(b, d.first, d.lookup, 0, slots, j))
    requires Within(OneVisits(b, d, j), slots)
    ensures WalkOne(c, home, j) == PatchAll(c, OneVisits(b, d, j), j) && Agrees(b, WalkOne(c, home, j).image, slots, j)
  {
    hide Agrees, Disjoint, WalkTable, TableVisits, ClearTable, Chosen, DescriptorAt, Clear;
    OneIs(c, home, j);
    if Chosen(b, d, j) {
      TablePatches(b, c, home, d.first, d.lookup, 0, slots, j);
    }
  }

  // The last descriptor that counts, or one more.
  lemma VisitStep(b: seq<byte>, table: nat, count: nat, index: nat, slots: seq<nat>, j: Job)
    requires table + count * DESCRIPTOR_SIZE <= |b| && index < count
      && ClearDescriptors(b, table, count, index, slots, j)
    ensures table + index * DESCRIPTOR_SIZE + DESCRIPTOR_SIZE <= |b|
      && Clear(table + index * DESCRIPTOR_SIZE, DESCRIPTOR_SIZE, slots, j)
    ensures var d := DescriptorAt(b, table + index * DESCRIPTOR_SIZE);
      if d.name == 0 && d.first == 0 then DescriptorVisits(b, table, count, index, j) == []
      else
        && DescriptorVisits(b, table, count, index, j)
          == OneVisits(b, d, j) + DescriptorVisits(b, table, count, index + 1, j)
        && Clear(d.name, |LIBRARY_NAME| + 1, slots, j) && ClearDescriptors(b, table, count, index + 1, slots, j)
        && (Chosen(b, d, j) ==> ClearTable(b, d.first, d.lookup, 0, slots, j))
  {
    hide Clear, ClearTable, Chosen, TableVisits;
  }

  lemma WalkStep(c: seq<byte>, table: nat, count: nat, index: nat, j: Job)
    requires Fits(j) && table + count * DESCRIPTOR_SIZE <= |c| && index < count
    ensures table + index * DESCRIPTOR_SIZE + DESCRIPTOR_SIZE <= |c|
    ensures var d := DescriptorAt(c, table + index * DESCRIPTOR_SIZE);
      if d.name == 0 && d.first == 0 then WalkDescriptors(c, table, count, index, j) == Walk(c, [])
      else
        var t := WalkOne(c, table + index * DESCRIPTOR_SIZE, j);
        var rest := WalkDescriptors(t.image, table, count, index + 1, j);
        WalkDescriptors(c, table, count, index, j) == Walk(rest.image, t.log + rest.log)
  {
    hide WalkOne;
    DescriptorStep(c, table, count, index, j);
  }

  lemma NothingLeft(b: seq<byte>, c: seq<byte>, table: nat, count: nat, index: nat, j: Job)
    requires Fits(j) && table + count * DESCRIPTOR_SIZE <= |b| == |c|
    ensures index >= count ==>
      DescriptorVisits(b, table, count, index, j) == [] && WalkDescriptors(c, table, count, index, j) == Walk(c, [])
    ensures PatchAll(c, [], j) == Walk(c, [])
  {
    hide Chosen, WalkOne, TableVisits;
  }

  lemma BelowWithin(some: seq<nat>, slots: seq<nat>, size: nat, j: Job)
    requires Within(some, slots) && Below(slots, size, j)
    ensures Below(some, size, j)
  {
  }

  lemma PartsInside(a: seq<nat>, b: seq<nat>, slots: seq<nat>)
    requires Within(a + b, slots)
    ensures Within(a, slots) && Within(b, slots)
  {
    assert forall s | s in a :: s in a + b;
    assert forall s | s in b :: s in a + b;
  }

  lemma HomeIs(b: seq<byte>, home: nat, first: nat, slots: seq<nat>, j: Job)
    requires home + DESCRIPTOR_SIZE <= |b|
    ensures Home(b, home, first, slots, j) <==>
      Clear(home, DESCRIPTOR_SIZE, slots, j) && DescriptorAt(b, home).first == first
  {
    hide Clear, DescriptorAt;
  }

  // One descriptor's part of the walk, and the rest.
  lemma PartsPatch(b: seq<byte>, c: seq<byte>, home: nat, d: Descriptor, rest: seq<nat>, slots: seq<nat>, j: Job)
    requires Fits(j) && Below(slots, |b|, j) && Disjoint(slots, j) && Agrees(b, c, slots, j) && |c| == |b|
    requires Home(b, home, d.first, slots, j) && home + DESCRIPTOR_SIZE <= |c| && DescriptorAt(c, home) == d
    requires Chosen(c, d, j) == Chosen(b, d, j) && (Chosen(b, d, j) ==> ClearTable(b, d.first, d.lookup, 0, slots, j))
    requires Within(OneVisits(b, d, j) + rest, slots)
    ensures var t := WalkOne(c, home, j);
      && |t.image| == |b| && Agrees(b, t.image, slots, j)
      && Within(rest, slots)
      && PatchAll(c, OneVisits(b, d, j) + rest, j)
        == Walk(PatchAll(t.image, rest, j).image, t.log + PatchAll(t.image, rest, j).log)
  {
    hide *;
    PartsInside(OneVisits(b, d, j), rest, slots);
    BelowWithin(OneVisits(b, d, j), slots, |b|, j);
    BelowWithin(rest, slots, |b|, j);
    OnePatches(b, c, home, d, slots, j);
    PatchAllConcat(c, OneVisits(b, d, j), rest, j);
  }

  // The walk goes past this descriptor.
  predicate GoesOn(b: seq<byte>, table: nat, count: nat, index: nat)
    requires table + count * DESCRIPTOR_SIZE <= |b|
  {
    index < count && var d := DescriptorAt(b, table + index * DESCRIPTOR_SIZE); !(d.name == 0 && d.first == 0)
  }

  lemma GoesOnIs(b: seq<byte>, table: nat, count: nat, index: nat)
    requires table + count * DESCRIPTOR_SIZE <= |b|
    ensures index < count ==>
      0 <= table + index * DESCRIPTOR_SIZE && table + index * DESCRIPTOR_SIZE + DESCRIPTOR_SIZE <= |b|
    ensures GoesOn(b, table, count, index) <==>
      index < count && var d := DescriptorAt(b, table + index * DESCRIPTOR_SIZE); !(d.name == 0 && d.first == 0)
  {
    hide DescriptorAt;
  }

  lemma WalkEnds(b: seq<byte>, c: seq<byte>, table: nat, count: nat, index: nat, slots: seq<nat>, j: Job)
    requires Fits(j) && Below(slots, |b|, j) && table + count * DESCRIPTOR_SIZE <= |b| == |c|
      && !GoesOn(b, table, count, index)
    requires Agrees(b, c, slots, j) && ClearDescriptors(b, table, count, index, slots, j)
    ensures DescriptorVisits(b, table, count, index, j) == []
      && WalkDescriptors(c, table, count, index, j) == Walk(c, []) == PatchAll(c, [], j)
  {
    var at: nat := table + index * DESCRIPTOR_SIZE;
    NothingLeft(b, c, table, count, index, j);
    hide Clear, ClearDescriptors, Agrees, Chosen, Below, WalkOne, TableVisits, Fits;
    if index < count {
      VisitStep(b, table, count, index, slots, j);
      SameDescriptor(b, c, at, slots, j);
    }
  }

  lemma WalkGoesOn(b: seq<byte>, c: seq<byte>, table: nat, count: nat, index: nat, slots: seq<nat>, j: Job)
    requires Fits(j) && Below(slots, |b|, j) && Disjoint(slots, j) && |c| == |b|
    requires table + count * DESCRIPTOR_SIZE <= |b| && Agrees(b, c, slots, j)
      && ClearDescriptors(b, table, count, index, slots, j)
    requires GoesOn(b, table, count, index) && Within(DescriptorVisits(b, table, count, index, j), slots)
    ensures table + index * DESCRIPTOR_SIZE + DESCRIPTOR_SIZE <= |b|
      && ClearDescriptors(b, table, count, index + 1, slots, j)
    ensures var (t, rest) := (WalkOne(c, table + index * DESCRIPTOR_SIZE, j),
      DescriptorVisits(b, table, count, index + 1, j));
      && |t.image| == |b| && Agrees(b, t.image, slots, j) && Within(rest, slots)
      && var (walk, patch) := (WalkDescriptors(t.image, table, count, index + 1, j), PatchAll(t.image, rest, j));
      && WalkDescriptors(c, table, count, index, j) == Walk(walk.image, t.log + walk.log)
      && PatchAll(c, DescriptorVisits(b, table, count, index, j), j) == Walk(patch.image, t.log + patch.log)
  {
    hide *;
    GoesOnIs(b, table, count, index);
    WalkStep(c, table, count, index, j);
    VisitStep(b, table, count, index, slots, j);
    var at: nat := table + index * DESCRIPTOR_SIZE;
    SameDescriptor(b, c, at, slots, j);
    HomeIs(b, at, DescriptorAt(b, at).first, slots, j);
    PartsPatch(b, c, at, DescriptorAt(b, at), DescriptorVisits(b, table, count, index + 1, j), slots, j);
  }

  lemma {:induction false} DescriptorsPatch(b: seq<byte>, c: seq<byte>, table: nat, count: nat, index: nat,
      slots: seq<nat>, j: Job)
    requires Fits(j) && Below(slots, |b|, j) && Disjoint(slots, j) && |c| == |b|
    requires table + count * DESCRIPTOR_SIZE <= |b| && Agrees(b, c, slots, j)
      && ClearDescriptors(b, table, count, index, slots, j)
    requires Within(DescriptorVisits(b, table, count, index, j), slots)
    ensures WalkDescriptors(c, table, count, index, j) == PatchAll(c, DescriptorVisits(b, table, count, index, j), j)
    ensures Agrees(b, WalkDescriptors(c, table, count, index, j).image, slots, j)
    decreases if index < count then count - index else 0
  {
    hide *;
    GoesOnIs(b, table, count, index);
    if GoesOn(b, table, count, index) {
      WalkGoesOn(b, c, table, count, index, slots, j);
      var home: nat := table + index * DESCRIPTOR_SIZE;
      DescriptorsPatch(b, WalkOne(c, home, j).image, table, count, index + 1, slots, j);
    } else {
      WalkEnds(b, c, table, count, index, slots, j);
    }
  }

  // ---------- Nothing is left ----------

  /** No slot of the list could be patched. */
  predicate Settled(b: seq<byte>, slots: seq<nat>, j: Job)
    requires Fits(j) && Below(slots, |b|, j)
  {
    forall s | s in slots :: !Patched(b, s, j).1
  }

  lemma {:induction false} SettledStays(b: seq<byte>, slots: seq<nat>, j: Job)
    requires Fits(j) && Below(slots, |b|, j) && Settled(b, slots, j)
    ensures PatchAll(b, slots, j) == Walk(b, [])
    decreases slots
  {
    hide PointerAt, Write;
    if slots == [] {
    } else {
      assert slots[0] in slots && forall s | s in slots[1..] :: s in slots;
      SettledStays(b, slots[1..], j);
    }
  }

  // A slot that cannot be patched stays so while others are.
  lemma PatchedSettles(b: seq<byte>, slot: nat, s: nat, j: Job)
    requires Fits(j) && slot + Width(j) <= |b| && s + Width(j) <= |b|
    requires s == slot || s + Width(j) <= slot || slot + Width(j) <= s
    ensures |Patched(b, slot, j).0| == |b|
    ensures s == slot || !Patched(b, s, j).1 ==> !Patched(Patched(b, slot, j).0, s, j).1
  {
    hide PointerAt, PointerBytes;
    var (p, hit) := Patched(b, slot, j);
    if hit {
      WriteReads(b, slot, j.replacement, j);
    }
    if s != slot {
      SamePointer(b, p, s, j);
    }
  }

  lemma {:induction false} AllSettle(b: seq<byte>, slots: seq<nat>, all: seq<nat>, j: Job)
    requires Fits(j) && Below(all, |b|, j) && Disjoint(all, j) && Within(slots, all)
    requires forall s | s in all && s !in slots :: !Patched(b, s, j).1
    ensures forall s | s in all :: !Patched(PatchAll(b, slots, j).image, s, j).1
    decreases slots
  {
    hide Patched;
    if slots == [] {
    } else {
      assert slots[0] in slots && slots[0] in all;
      var p := Patched(b, slots[0], j).0;
      forall s | s in all && s !in slots[1..]
        ensures !Patched(p, s, j).1
      {
        PatchedSettles(b, slots[0], s, j);
        assert s in slots ==> s == slots[0];
      }
      AllSettle(p, slots[1..], all, j);
    }
  }

  lemma SameDirectory(b: seq<byte>, c: seq<byte>, slots: seq<nat>, j: Job)
    requires Below(slots, |b|, j) && Agrees(b, c, slots, j) && Directory(b, j).Some?
    requires Clear(0, DOS_HEADER_SIZE, slots, j) && Clear(U32At(b, 60), NtSize(j), slots, j)
    ensures Directory(c, j) == Directory(b, j)
  {
    var nt := U32At(b, 60);
    ClearSame(b, c, 0, DOS_HEADER_SIZE, slots, j);
    ClearSame(b, c, nt, NtSize(j), slots, j);
    hide Agrees, Clear, PointerAt;
    assert U32At(c, 60) == nt && U16At(c, 0) == U16At(b, 0);
    assert U32At(c, nt) == U32At(b, nt) && U16At(c, nt + 24) == U16At(b, nt + 24);
  }

  lemma SelfAgrees(b: seq<byte>, slots: seq<nat>, j: Job)
    requires Below(slots, |b|, j)
    ensures Agrees(b, b, slots, j)
  {
  }

  /** On an image with disjoint tables a second run overwrites nothing and changes nothing. */
  lemma SecondRunFindsNothing(b: seq<byte>, j: Job)
    requires Fits(j) && Apart(b, j)
    ensures var once := WalkImage(b, j).image; WalkImage(once, j) == Walk(once, [])
  {
    var directory := Directory(b, j);
    if j.original != 0 && j.replacement != 0 && directory.Some? {
      var slots := Visits(b, j);
      var table, count := directory.value.0, directory.value.1 / DESCRIPTOR_SIZE;
      hide Agrees, Clear, ClearDescriptors, WalkDescriptors, DescriptorVisits, PatchAll, Directory, Patched;
      SelfAgrees(b, slots, j);
      assert Disjoint(slots, j);
      CountFits(b, j);
      DescriptorsPatch(b, b, table, count, 0, slots, j);
      var once := WalkImage(b, j).image;
      AllSettle(b, slots, slots, j);
      SameDirectory(b, once, slots, j);
      DescriptorsPatch(b, once, table, count, 0, slots, j);
      SettledStays(once, slots, j);
    }
  }

  lemma CountFits(b: seq<byte>, j: Job)
    requires Directory(b, j).Some?
    ensures var (at, size) := Directory(b, j).value; at + size / DESCRIPTOR_SIZE * DESCRIPTOR_SIZE <= |b|
  {
  }
}
