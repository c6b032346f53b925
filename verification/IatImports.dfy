/**
 Which slots the import patch overwrites, in the image's own terms: header bytes, table positions and the
 spelling of names are written out here, next to nothing of the walk.
 */
module IatImports {
  import opened Bytes
  import opened IatWalk
  import opened IatTwice

  // ---------- What an import of the function is ----------

  predicate SameLetter(x: byte, c: char) {
    || x == c as int
    || ('a' <= c <= 'z' && x == c as int - 32)
    || ('A' <= c <= 'Z' && x == c as int + 32)
  }

  /** The NUL-terminated name at a position, in any case. */
  predicate Spells(b: seq<byte>, at: nat, name: string) {
    && at + |name| < |b| && b[at + |name|] == 0
    && forall i | 0 <= i < |name| :: SameLetter(b[at + i], name[i])
  }

  /** The entries at an index: both lie in the image, and the one that ends a table is not null. */
  predicate Present(b: seq<byte>, first: nat, lookup: nat, i: nat, j: Job) {
    var w := if j.wide then 8 else 4;
    && first + w * i + w <= |b|
    && if lookup == 0 then PointerAt(b, first + w * i, j) != 0
       else lookup + w * i + w <= |b| && PointerAt(b, lookup + w * i, j) != 0
  }

  /** A present entry that names the function: nothing to look at, ordinal 1, or the name. */
  predicate Names(b: seq<byte>, lookup: nat, i: nat, j: Job) {
    var w := if j.wide then 8 else 4;
    lookup == 0 || (lookup + w * i + w <= |b| &&
      var entry, top := PointerAt(b, lookup + w * i, j), if j.wide then 0x8000_0000_0000_0000 else 0x8000_0000;
      if entry >= top then entry % 65536 == 1 else entry + 4 <= |b| && Spells(b, entry + 2, "DirectInput8Create"))
  }

  predicate Here(b: seq<byte>, first: nat, lookup: nat, from: nat, i: nat, slot: nat, j: Job) {
    && from <= i && slot == first + (if j.wide then 8 else 4) * i
    && (forall k: nat | from <= k <= i :: Present(b, first, lookup, k, j)) && Names(b, lookup, i, j)
  }

  ghost predicate InTable(b: seq<byte>, first: nat, lookup: nat, from: nat, slot: nat, j: Job) {
    exists i: nat :: Here(b, first, lookup, from, i, slot, j)
  }

  /** The descriptor at a place is one of the library's, and its lookup table, if it has one, can be read. */
  predicate OfLibrary(b: seq<byte>, at: nat, j: Job)
    requires at + 20 <= |b|
  {
    && Spells(b, U32At(b, at + 12), "dinput8.dll")
    && (U32At(b, at) == 0 || U32At(b, at) + (if j.wide then 8 else 4) <= |b|)
  }

  // The descriptor that ends the directory.
  predicate Ends(b: seq<byte>, at: nat)
    requires at + 20 <= |b|
  {
    U32At(b, at + 12) == 0 && U32At(b, at + 16) == 0
  }

  /** A descriptor that counts, behind the ones from an index on, and the slot in its table. */
  ghost predicate There(b: seq<byte>, table: nat, count: nat, from: nat, k: nat, slot: nat, j: Job)
    requires table + 20 * count <= |b|
  {
    && from <= k < count && (forall n: nat | from <= n <= k :: !Ends(b, table + 20 * n))
    && OfLibrary(b, table + 20 * k, j)
    && InTable(b, U32At(b, table + 20 * k + 16), U32At(b, table + 20 * k), 0, slot, j)
  }

  ghost predicate InDirectory(b: seq<byte>, table: nat, count: nat, from: nat, slot: nat, j: Job)
    requires table + 20 * count <= |b|
  {
    exists k: nat :: There(b, table, count, from, k, slot, j)
  }

  /** The headers are those of an image of this pointer width with an import directory at this place. */
  predicate Header(b: seq<byte>, table: nat, size: nat, j: Job) {
    && |b| >= 64 && b[0] == 'M' as int && b[1] == 'Z' as int
    && var nt := U32At(b, 60);
    && 0 < nt <= 1024 * 1024 && nt + (if j.wide then 264 else 248) <= |b|
    && b[nt] == 'P' as int && b[nt + 1] == 'E' as int && b[nt + 2] == 0 && b[nt + 3] == 0
    && b[nt + 24] == 0x0B && b[nt + 25] == (if j.wide then 2 else 1)
    && U32At(b, nt + (if j.wide then 144 else 128)) == table
    && U32At(b, nt + (if j.wide then 148 else 132)) == size
    && table != 0 && size >= 20 && table + size <= |b|
  }

  /** The slot is the function's in one of the library's tables. */
  ghost predicate Imports(b: seq<byte>, slot: nat, j: Job) {
    exists table: nat, size: nat :: Header(b, table, size, j) && InDirectory(b, table, size / 20, 0, slot, j)
  }

  // ---------- The walk visits exactly these ----------

  lemma SpellsIs(b: seq<byte>, at: nat, name: string)
    requires forall i | 0 <= i < |name| :: '\0' < name[i] < '\U{0080}'
    ensures NameIs(b, at, Ascii(name)) <==> Spells(b, at, name)
  {
  }

  lemma WantedIs(b: seq<byte>, entry: u64, j: Job)
    ensures Wanted(b, entry, j) <==>
      if entry >= (if j.wide then 0x8000_0000_0000_0000 else 0x8000_0000) then entry % 65536 == 1
      else entry + 4 <= |b| && Spells(b, entry + 2, "DirectInput8Create")
  {
    hide NameIs, Spells;
    SpellsIs(b, entry + 2, "DirectInput8Create");
  }

  lemma EntryIs(b: seq<byte>, first: nat, lookup: nat, index: nat, j: Job)
    ensures EntryAt(b, first, lookup, index, j).Stop? <==> !Present(b, first, lookup, index, j)
    ensures EntryAt(b, first, lookup, index, j).Slot? <==>
      Present(b, first, lookup, index, j) && Names(b, lookup, index, j)
  {
    hide PointerAt, Wanted, Spells;
    var w := if j.wide then 8 else 4;
    if lookup != 0 && lookup + w * index + w <= |b| {
      WantedIs(b, PointerAt(b, lookup + w * index, j), j);
    }
  }

  lemma {:induction false} TableVisitsAre(b: seq<byte>, first: nat, lookup: nat, index: nat, slot: nat, j: Job)
    ensures slot in TableVisits(b, first, lookup, index, j) <==> InTable(b, first, lookup, index, slot, j)
    decreases |b| - (first + Offset(index, j))
  {
    hide EntryAt, Present, Names;
    EntryIs(b, first, lookup, index, j);
    EntryInRange(b, first, lookup, index, j);
    var w := if j.wide then 8 else 4;
    if !EntryAt(b, first, lookup, index, j).Stop? {
      TableVisitsAre(b, first, lookup, index + 1, slot, j);
      if InTable(b, first, lookup, index + 1, slot, j) {
        var i: nat :| Here(b, first, lookup, index + 1, i, slot, j);
        assert Here(b, first, lookup, index, i, slot, j);
      }
      if EntryAt(b, first, lookup, index, j).Slot? && slot == first + w * index {
        assert Here(b, first, lookup, index, index, slot, j);
      }
      if InTable(b, first, lookup, index, slot, j) {
        var i: nat :| Here(b, first, lookup, index, i, slot, j);
        assert i == index || Here(b, first, lookup, index + 1, i, slot, j);
      }
    } else {
      assert !Present(b, first, lookup, index, j);
    }
  }

  lemma ChosenIs(b: seq<byte>, at: nat, j: Job)
    requires at + DESCRIPTOR_SIZE <= |b|
    ensures Chosen(b, DescriptorAt(b, at), j) <==> OfLibrary(b, at, j)
    ensures var d := DescriptorAt(b, at);
      && d.lookup == U32At(b, at) && d.first == U32At(b, at + 16)
      && (d.name == 0 && d.first == 0 <==> Ends(b, at))
  {
    hide NameIs, U32At;
    SpellsIs(b, U32At(b, at + 12), "dinput8.dll");
  }

  // The directory's visits, its first descriptor apart.
  lemma DirectoryStep(b: seq<byte>, table: nat, count: nat, index: nat, slot: nat, j: Job)
    requires table + count * DESCRIPTOR_SIZE <= |b| && index < count
    ensures table + 20 * index + 20 <= |b|
    ensures slot in DescriptorVisits(b, table, count, index, j) <==>
      && !Ends(b, table + 20 * index)
      && ((OfLibrary(b, table + 20 * index, j)
           && InTable(b, U32At(b, table + 20 * index + 16), U32At(b, table + 20 * index), 0, slot, j))
          || slot in DescriptorVisits(b, table, count, index + 1, j))
  {
    hide Chosen, OfLibrary, Ends, InTable, TableVisits, U32At;
    var at := table + index * DESCRIPTOR_SIZE;
    ChosenIs(b, at, j);
    TableVisitsAre(b, DescriptorAt(b, at).first, DescriptorAt(b, at).lookup, 0, slot, j);
  }

  lemma {:induction false} DirectoryVisitsAre(b: seq<byte>, table: nat, count: nat, index: nat, slot: nat, j: Job)
    requires table + count * DESCRIPTOR_SIZE <= |b|
    ensures slot in DescriptorVisits(b, table, count, index, j) <==> InDirectory(b, table, count, index, slot, j)
    decreases if index < count then count - index else 0
  {
    hide OfLibrary, Ends, InTable, U32At, TableVisits, Chosen, DescriptorAt;
    if index < count {
      DirectoryStep(b, table, count, index, slot, j);
      DirectoryVisitsAre(b, table, count, index + 1, slot, j);
      if InDirectory(b, table, count, index, slot, j) {
        var k: nat :| There(b, table, count, index, k, slot, j);
        assert k == index || There(b, table, count, index + 1, k, slot, j);
      }
      if slot in DescriptorVisits(b, table, count, index, j) {
        if InDirectory(b, table, count, index + 1, slot, j) {
          var k: nat :| There(b, table, count, index + 1, k, slot, j);
          assert There(b, table, count, index, k, slot, j);
        } else {
          assert There(b, table, count, index, index, slot, j);
        }
      }
    }
  }

  lemma DirectoryIs(b: seq<byte>, table: nat, size: nat, j: Job)
    ensures Directory(b, j) == Some((table, size)) <==> Header(b, table, size, j)
  {
  }

  // ---------- What becomes of a visited slot ----------

  lemma PatchFrames(b: seq<byte>, slot: nat, s: nat, j: Job)
    requires Fits(j) && slot + Width(j) <= |b| && s + Width(j) <= |b|
    requires s == slot || s + Width(j) <= slot || slot + Width(j) <= s
    ensures |Patched(b, slot, j).0| == |b|
    ensures PointerAt(Patched(b, slot, j).0, s, j) ==
      if s == slot && Patched(b, slot, j).1 then j.replacement else PointerAt(b, s, j)
  {
    hide PointerAt, PointerBytes;
    var (p, hit) := Patched(b, slot, j);
    if hit {
      WriteReads(b, slot, j.replacement, j);
    }
    if s != slot {
      SamePointer(b, p, s, j);
    }
  }

  /** What makes a visit overwrite its slot. */
  predicate Due(b: seq<byte>, s: nat, j: Job)
    requires s + Width(j) <= |b|
  {
    && j.original != 0 && j.replacement != 0 && j.original != j.replacement
    && j.writable(s) && PointerAt(b, s, j) == j.original
  }

  predicate Distinct(log: seq<nat>) { forall i, k | 0 <= i < k < |log| :: log[i] != log[k] }

  /** One slot through the patching of a list. */
  predicate Settles(b: seq<byte>, slots: seq<nat>, s: nat, r: Walk, j: Job)
    requires s + Width(j) <= |b|
  {
    && |r.image| == |b|
    && (s in r.log <==> s in slots && Due(b, s, j))
    && PointerAt(r.image, s, j) == if s in r.log then j.replacement else PointerAt(b, s, j)
  }

  lemma DueIs(b: seq<byte>, s: nat, j: Job)
    requires Fits(j) && s + Width(j) <= |b|
    ensures Patched(b, s, j).1 <==> Due(b, s, j)
  {
    hide PointerAt;
  }

  lemma {:induction false} SlotSettles(b: seq<byte>, slots: seq<nat>, s: nat, all: seq<nat>, j: Job)
    requires Fits(j) && Below(all, |b|, j) && Disjoint(all, j) && Within(slots, all) && s in all
    ensures Below(slots, |b|, j) && s + Width(j) <= |b|
    ensures Settles(b, slots, s, PatchAll(b, slots, j), j)
    decreases slots
  {
    hide Patched, PointerAt;
    if slots == [] {
    } else {
      assert slots[0] in slots && forall t | t in slots[1..] :: t in slots;
      PatchAllFirst(b, slots, j);
      var (p, hit) := Patched(b, slots[0], j);
      DueIs(b, slots[0], j);
      DueIs(b, s, j);
      PatchFrames(b, slots[0], s, j);
      SlotSettles(p, slots[1..], s, all, j);
    }
  }

  lemma {:induction false} LogIsDistinct(b: seq<byte>, slots: seq<nat>, all: seq<nat>, j: Job)
    requires Fits(j) && Below(all, |b|, j) && Disjoint(all, j) && Within(slots, all)
    ensures Below(slots, |b|, j) && Distinct(PatchAll(b, slots, j).log) && Within(PatchAll(b, slots, j).log, slots)
    decreases slots
  {
    hide Patched, PointerAt, Disjoint;
    if slots == [] {
    } else {
      assert slots[0] in slots && forall t | t in slots[1..] :: t in slots;
      PatchAllFirst(b, slots, j);
      var (p, hit) := Patched(b, slots[0], j);
      DueIs(b, slots[0], j);
      SlotSettles(b, slots[..1], slots[0], all, j);
      PatchFramesSelf(b, slots[0], j);
      SlotSettles(p, slots[1..], slots[0], all, j);
      LogIsDistinct(p, slots[1..], all, j);
    }
  }

  lemma PatchFramesSelf(b: seq<byte>, slot: nat, j: Job)
    requires Fits(j) && slot + Width(j) <= |b|
    ensures |Patched(b, slot, j).0| == |b| && (Patched(b, slot, j).1 ==> !Due(Patched(b, slot, j).0, slot, j))
  {
    hide PointerAt;
    PatchFrames(b, slot, slot, j);
  }

  lemma WalkPatches(b: seq<byte>, j: Job)
    requires Fits(j) && Apart(b, j) && j.original != 0 && j.replacement != 0
    ensures WalkImage(b, j) == PatchAll(b, Visits(b, j), j)
  {
    var directory := Directory(b, j);
    if directory.Some? {
      hide Agrees, Clear, ClearDescriptors, WalkDescriptors, DescriptorVisits, PatchAll, Directory, Patched;
      SelfAgrees(b, Visits(b, j), j);
      assert Disjoint(Visits(b, j), j);
      CountFits(b, j);
      DescriptorsPatch(b, b, directory.value.0, directory.value.1 / DESCRIPTOR_SIZE, 0, Visits(b, j), j);
    }
  }

  lemma VisitsAre(b: seq<byte>, slot: nat, j: Job)
    ensures slot in Visits(b, j) <==> Imports(b, slot, j)
  {
    hide Directory, DescriptorVisits, InDirectory, U32At;
    var directory := Directory(b, j);
    if directory.Some? {
      var (table, size) := directory.value;
      DirectoryIs(b, table, size, j);
      CountFits(b, j);
      DirectoryVisitsAre(b, table, size / DESCRIPTOR_SIZE, 0, slot, j);
    }
    if Imports(b, slot, j) {
      var table: nat, size: nat :| Header(b, table, size, j) && InDirectory(b, table, size / 20, 0, slot, j);
      DirectoryIs(b, table, size, j);
    }
  }

  lemma ApartSlots(b: seq<byte>, j: Job)
    requires Apart(b, j)
    ensures Disjoint(Visits(b, j), j)
  {
    hide Clear, ClearDescriptors;
  }

  /**
   On an image with disjoint tables the patch overwrites, once each, exactly the library's writable slots for
   the function that hold the original, and they hold the replacement in the end.
   */
  lemma PatchesExactlyTheImports(b: seq<byte>, j: Job, s: nat)
    requires Fits(j) && Apart(b, j)
    ensures var r := WalkImage(b, j);
      && Distinct(r.log)
      && (s in r.log <==> s + (if j.wide then 8 else 4) <= |b| && Imports(b, s, j) && Due(b, s, j))
      && (s in r.log ==> PointerAt(r.image, s, j) == j.replacement)
  {
    hide Apart, Imports, Visits, PatchAll, Due, PointerAt, Directory, WalkDescriptors;
    if j.original == 0 || j.replacement == 0 {
      NeverDue(b, s, j);
    } else {
      var slots := Visits(b, j);
      WalkPatches(b, j);
      ApartSlots(b, j);
      VisitsAre(b, s, j);
      LogIsDistinct(b, slots, slots, j);
      if s in slots {
        SlotSettles(b, slots, s, slots, j);
      }
    }
  }

  lemma NeverDue(b: seq<byte>, s: nat, j: Job)
    requires j.original == 0 || j.replacement == 0
    ensures s + Width(j) <= |b| ==> !Due(b, s, j)
  {
  }
}
