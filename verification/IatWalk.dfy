/**
 The import patch: a walk over the import tables of a mapped image that overwrites slots
 holding one pointer with another. The image is its bytes; positions are relative to its base.
 */
module IatWalk {
  import opened Bytes

  const DOS_HEADER_SIZE := 64
  const MAX_NT_OFFSET := 1024 * 1024
  const DESCRIPTOR_SIZE := 20
  const IMPORT_NAME_SIZE := 4
  const DOS_SIGNATURE: u16 := 0x5A4D
  const NT_SIGNATURE: u32 := 0x4550

  /** Pointer width, the two pointers, and which slots VirtualProtect would make writable. */
  datatype Job = Job(wide: bool, original: u64, replacement: u64, writable: nat -> bool)

  function Width(j: Job): nat { if j.wide then 8 else 4 }

  /** Where an entry of a table of pointers lies. */
  function Offset(index: nat, j: Job): nat { if j.wide then 8 * index else 4 * index }

  predicate Fits(j: Job) { j.wide || (j.original < 0x1_0000_0000 && j.replacement < 0x1_0000_0000) }

  // Offsets that depend on the width.
  function NtSize(j: Job): nat { if j.wide then 264 else 248 }
  function OptionalMagic(j: Job): u16 { if j.wide then 0x20B else 0x10B }
  function ImportDirectory(j: Job): nat { 24 + (if j.wide then 112 else 96) + 8 }

  /** range_is_valid: the whole range lies in the image. */
  predicate InRange(size: nat, at: nat, length: nat) { at < size && length <= size - at }

  function PointerAt(b: seq<byte>, at: nat, j: Job): u64
    requires at + Width(j) <= |b|
  {
    if j.wide then U64At(b, at) else U32At(b, at)
  }

  function PointerBytes(v: u64, j: Job): (s: seq<byte>)
    requires j.wide || v < 0x1_0000_0000
    ensures |s| == Width(j)
  {
    if j.wide then Le64(v) else Le32(v)
  }

  function Write(b: seq<byte>, at: nat, v: u64, j: Job): (r: seq<byte>)
    requires at + Width(j) <= |b| && (j.wide || v < 0x1_0000_0000)
    ensures |r| == |b|
    ensures forall i | 0 <= i < |b| && !(at <= i < at + Width(j)) :: r[i] == b[i]
  {
    b[..at] + PointerBytes(v, j) + b[at + Width(j)..]
  }

  lemma WriteReads(b: seq<byte>, at: nat, v: u64, j: Job)
    requires at + Width(j) <= |b| && (j.wide || v < 0x1_0000_0000)
    ensures PointerAt(Write(b, at, v, j), at, j) == v
  {
    if j.wide {
      U64Written(b[..at], v, b[at + 8..]);
    } else {
      U32Written(b[..at], v, b[at + 4..]);
    }
  }

  function Fold(c: byte): byte { if 'A' as int <= c <= 'Z' as int then c + 32 else c }

  /** The NUL-terminated name at a position is the expected one, but for case, and ends inside the image. */
  predicate NameIs(b: seq<byte>, at: nat, expected: seq<byte>) {
    && at + |expected| < |b| && b[at + |expected|] == 0
    && (forall i | 0 <= i < |expected| :: Fold(b[at + i]) == Fold(expected[i]))
  }

  function Ascii(s: string): (r: seq<byte>)
    requires forall i | 0 <= i < |s| :: '\0' < s[i] < '\U{0080}'
    ensures |r| == |s| && forall i | 0 <= i < |r| :: r[i] == s[i] as int && r[i] != 0
  {
    seq<byte>(|s|, i requires 0 <= i < |s| => s[i] as int)
  }

  const FUNCTION_NAME: seq<byte> := Ascii("DirectInput8Create")
  const LIBRARY_NAME: seq<byte> := Ascii("dinput8.dll")

  function OrdinalBit(j: Job): u64 { if j.wide then 0x8000_0000_0000_0000 else 0x8000_0000 }

  /** A lookup entry that imports the function, by ordinal 1 or by name. */
  predicate Wanted(b: seq<byte>, entry: u64, j: Job) {
    if entry >= OrdinalBit(j) then entry % 0x1_0000 == 1
    else InRange(|b|, entry, IMPORT_NAME_SIZE) && NameIs(b, entry + 2, FUNCTION_NAME)
  }

  // ---------- The walk, on a changing image ----------

  /** patch_pointer: a compare-and-exchange on one slot. */
  function Patched(b: seq<byte>, slot: nat, j: Job): (r: (seq<byte>, bool))
    requires slot + Width(j) <= |b| && Fits(j)
    ensures |r.0| == |b|
  {
    if j.original != j.replacement && j.original != 0 && j.replacement != 0 && j.writable(slot)
      && PointerAt(b, slot, j) == j.original
    then (Write(b, slot, j.replacement, j), true) else (b, false)
  }

  datatype Entry = Stop | Skip | Slot

  /** What the walk does with the entry at an index of a table. */
  function EntryAt(b: seq<byte>, first: nat, lookup: nat, index: nat, j: Job): Entry {
    var w := Width(j);
    if !InRange(|b|, first + Offset(index, j), w) then Stop
    else if lookup == 0 then if PointerAt(b, first + Offset(index, j), j) == 0 then Stop else Slot
    else if !InRange(|b|, lookup + Offset(index, j), w) then Stop
    else
      var entry := PointerAt(b, lookup + Offset(index, j), j);
      if entry == 0 then Stop else if Wanted(b, entry, j) then Slot else Skip
  }

  lemma EntryInRange(b: seq<byte>, first: nat, lookup: nat, index: nat, j: Job)
    ensures EntryAt(b, first, lookup, index, j) != Stop ==> first + Offset(index, j) + Width(j) <= |b|
  {
  }

  datatype Descriptor = Descriptor(lookup: u32, name: u32, first: u32)

  function DescriptorAt(b: seq<byte>, at: nat): Descriptor
    requires at + DESCRIPTOR_SIZE <= |b|
  {
    Descriptor(U32At(b, at), U32At(b, at + 12), U32At(b, at + 16))
  }

  /**
   One turn for the descriptor at home. The tables were found when the walk began, but the range check
   reads the descriptor's first entry from the image again, as far as the walk has changed it.
   */
  function TurnAt(b: seq<byte>, home: nat, first: nat, lookup: nat, index: nat, j: Job): Entry
    requires home + DESCRIPTOR_SIZE <= |b|
  {
    if !InRange(|b|, DescriptorAt(b, home).first + Offset(index, j), Width(j)) then Stop
    else EntryAt(b, first, lookup, index, j)
  }

  datatype Walk = Walk(image: seq<byte>, log: seq<nat>)

  /** One table from an index on: the image it leaves, and the slots it overwrote. */
  function WalkTable(b: seq<byte>, home: nat, first: nat, lookup: nat, index: nat, j: Job): (r: Walk)
    requires Fits(j) && home + DESCRIPTOR_SIZE <= |b|
    ensures |r.image| == |b|
    decreases |b| - (first + Offset(index, j))
  {
    EntryInRange(b, first, lookup, index, j);
    match TurnAt(b, home, first, lookup, index, j)
    case Stop => Walk(b, [])
    case Skip => WalkTable(b, home, first, lookup, index + 1, j)
    case Slot =>
      var slot := first + Offset(index, j);
      var (p, hit) := Patched(b, slot, j);
      var rest := WalkTable(p, home, first, lookup, index + 1, j);
      Walk(rest.image, (if hit then [slot] else []) + rest.log)
  }

  /** What one descriptor does: its tables are found once, from the image as it then is. */
  function WalkOne(b: seq<byte>, home: nat, j: Job): (r: Walk)
    requires Fits(j) && home + DESCRIPTOR_SIZE <= |b|
    ensures |r.image| == |b|
  {
    var d := DescriptorAt(b, home);
    if Chosen(b, d, j) then WalkTable(b, home, d.first, d.lookup, 0, j) else Walk(b, [])
  }

  // A descriptor of the library whose lookup table, if there is one, starts inside the image.
  predicate Chosen(b: seq<byte>, d: Descriptor, j: Job) {
    && InRange(|b|, d.name, 1) && NameIs(b, d.name, LIBRARY_NAME)
    && (d.lookup == 0 || InRange(|b|, d.lookup, Width(j)))
  }

  /** The descriptors from an index on. */
  function WalkDescriptors(b: seq<byte>, table: nat, count: nat, index: nat, j: Job): (r: Walk)
    requires Fits(j) && table + count * DESCRIPTOR_SIZE <= |b|
    ensures |r.image| == |b|
    decreases count - index
  {
    if index >= count then Walk(b, [])
    else
      var d := DescriptorAt(b, table + index * DESCRIPTOR_SIZE);
      if d.name == 0 && d.first == 0 then Walk(b, [])
      else
        var t := WalkOne(b, table + index * DESCRIPTOR_SIZE, j);
        var rest := WalkDescriptors(t.image, table, count, index + 1, j);
        Walk(rest.image, t.log + rest.log)
  }

  // The import directory's place and size, when all header checks pass.
  function Directory(b: seq<byte>, j: Job): Option<(nat, nat)> {
    if |b| < DOS_HEADER_SIZE || U16At(b, 0) != DOS_SIGNATURE then None
    else
      var nt := U32At(b, 60);
      if nt == 0 || nt > MAX_NT_OFFSET || nt + NtSize(j) > |b| then None
      else if U32At(b, nt) != NT_SIGNATURE || U16At(b, nt + 24) != OptionalMagic(j) then None
      else
        var at, size := U32At(b, nt + ImportDirectory(j)), U32At(b, nt + ImportDirectory(j) + 4);
        if at == 0 || size < DESCRIPTOR_SIZE || !InRange(|b|, at, size) then None else Some((at, size))
  }

  /** The whole patch of an image. */
  function WalkImage(b: seq<byte>, j: Job): (r: Walk)
    requires Fits(j)
    ensures |r.image| == |b|
  {
    var directory := Directory(b, j);
    if j.original == 0 || j.replacement == 0 || directory.None? then Walk(b, [])
    else WalkDescriptors(b, directory.value.0, directory.value.1 / DESCRIPTOR_SIZE, 0, j)
  }

  // ---------- What the log says ----------

  /** Each slot of the log lies in the image, held the original just before, and holds the replacement just after. */
  predicate Exact(b: seq<byte>, log: seq<nat>, after: seq<byte>, j: Job)
    requires Fits(j)
    decreases log
  {
    if log == [] then after == b
    else
      && log[0] + Width(j) <= |b| && PointerAt(b, log[0], j) == j.original
      && Exact(Write(b, log[0], j.replacement, j), log[1..], after, j)
  }

  lemma {:induction false} ExactChain(b: seq<byte>, a: seq<nat>, middle: seq<byte>, c: seq<nat>, after: seq<byte>,
      j: Job)
    requires Fits(j) && Exact(b, a, middle, j) && Exact(middle, c, after, j)
    ensures Exact(b, a + c, after, j)
    decreases a
  {
    if a == [] {
      assert a + c == c;
    } else {
      assert (a + c)[1..] == a[1..] + c;
      ExactChain(Write(b, a[0], j.replacement, j), a[1..], middle, c, after, j);
    }
  }

  lemma {:induction false} TableExact(b: seq<byte>, home: nat, first: nat, lookup: nat, index: nat, j: Job)
    requires Fits(j) && home + DESCRIPTOR_SIZE <= |b|
    ensures var r := WalkTable(b, home, first, lookup, index, j); Exact(b, r.log, r.image, j)
    decreases |b| - (first + Offset(index, j))
  {
    hide PointerAt, EntryAt, Write, DescriptorAt;
    EntryInRange(b, first, lookup, index, j);
    match TurnAt(b, home, first, lookup, index, j)
    case Stop =>
    case Skip => TableExact(b, home, first, lookup, index + 1, j);
    case Slot =>
      var slot := first + Offset(index, j);
      var (p, hit) := Patched(b, slot, j);
      TableExact(p, home, first, lookup, index + 1, j);
      var rest := WalkTable(p, home, first, lookup, index + 1, j);
      assert [] + rest.log == rest.log;
      assert hit ==> ([slot] + rest.log)[1..] == rest.log;
  }

  lemma {:induction false} DescriptorsExact(b: seq<byte>, table: nat, count: nat, index: nat, j: Job)
    requires Fits(j) && table + count * DESCRIPTOR_SIZE <= |b|
    ensures var r := WalkDescriptors(b, table, count, index, j); Exact(b, r.log, r.image, j)
    decreases count - index
  {
    hide WalkOne, Exact;
    assert Exact(b, [], b, j) by { NothingDone(b, j); }
    if index >= count {
    } else {
      var home := table + index * DESCRIPTOR_SIZE;
      var t := WalkOne(b, home, j);
      OneExact(b, home, j);
      DescriptorsExact(t.image, table, count, index + 1, j);
      var rest := WalkDescriptors(t.image, table, count, index + 1, j);
      ExactChain(b, t.log, t.image, rest.log, rest.image, j);
    }
  }

  lemma OneExact(b: seq<byte>, home: nat, j: Job)
    requires Fits(j) && home + DESCRIPTOR_SIZE <= |b|
    ensures var t := WalkOne(b, home, j); Exact(b, t.log, t.image, j)
  {
    hide WalkTable, Chosen, Exact, DescriptorAt;
    var d := DescriptorAt(b, home);
    NothingDone(b, j);
    TableExact(b, home, d.first, d.lookup, 0, j);
  }

  lemma NothingDone(b: seq<byte>, j: Job)
    requires Fits(j)
    ensures Exact(b, [], b, j)
  {
  }

  /**
   Whatever the image holds, every overwritten slot held the original just before and holds the
   replacement just after.
   */
  lemma OnlyOriginalsOverwritten(b: seq<byte>, j: Job)
    requires Fits(j)
    ensures var r := WalkImage(b, j); Exact(b, r.log, r.image, j)
  {
    hide WalkDescriptors, Exact;
    NothingDone(b, j);
    var directory := Directory(b, j);
    if directory.Some? {
      DescriptorsExact(b, directory.value.0, directory.value.1 / DESCRIPTOR_SIZE, 0, j);
    }
  }

  /** Nothing outside the logged slots changes. */
  lemma {:induction false} NothingElseChanges(b: seq<byte>, log: seq<nat>, after: seq<byte>, j: Job, i: nat)
    requires Fits(j) && Exact(b, log, after, j) && i < |b|
    requires forall k | 0 <= k < |log| :: !(log[k] <= i < log[k] + Width(j))
    ensures |after| == |b| && after[i] == b[i]
    decreases log
  {
    if log == [] {
    } else {
      NothingElseChanges(Write(b, log[0], j.replacement, j), log[1..], after, j, i);
    }
  }

  // ---------- The walk as it runs, in place ----------

  /** bounded_ascii_equal_ci, on the name at a position of the image. */
  method BoundedAsciiEqual(image: array<byte>, at: nat, expected: seq<byte>) returns (equal: bool)
    requires at <= image.Length && forall i | 0 <= i < |expected| :: expected[i] != 0
    ensures equal == NameIs(image[..], at, expected)
  {
    var available := image.Length - at;
    for index := 0 to available
      invariant index <= |expected| && forall i | 0 <= i < index :: Fold(image[at + i]) == Fold(expected[i])
    {
      var left, right := image[at + index], if index < |expected| then expected[index] else 0;
      if left == 0 || right == 0 {
        return left == right;
      }
      if Fold(left) != Fold(right) {
        return false;
      }
    }
    equal := false;
  }

  method PatchPointer(image: array<byte>, slot: nat, j: Job) returns (hit: bool)
    requires slot + Width(j) <= image.Length && Fits(j)
    modifies image
    ensures (image[..], hit) == Patched(old(image[..]), slot, j)
  {
    hide PointerAt, PointerBytes;
    if j.original == 0 || j.replacement == 0 || j.original == j.replacement || !j.writable(slot) {
      return false;
    }
    if PointerAt(image[..], slot, j) != j.original {
      return false;
    }
    var bytes := PointerBytes(j.replacement, j);
    forall k | 0 <= k < |bytes| {
      image[slot + k] := bytes[k];
    }
    assert image[..] == Write(old(image[..]), slot, j.replacement, j);
    hit := true;
  }

  // What to do with one pair of table entries; the descriptor is read again for its range check.
  method Classify(image: array<byte>, home: nat, d: Descriptor, index: nat, j: Job) returns (e: Entry)
    requires home + DESCRIPTOR_SIZE <= image.Length && d.first + Offset(index, j) + Width(j) <= image.Length
    ensures e == TurnAt(image[..], home, d.first, d.lookup, index, j)
  {
    hide PointerAt, Wanted, U32At;
    var w := Width(j);
    if !InRange(image.Length, DescriptorAt(image[..], home).first + Offset(index, j), w) {
      return Stop;
    }
    if d.lookup == 0 {
      return if PointerAt(image[..], d.first + Offset(index, j), j) == 0 then Stop else Slot;
    }
    if !InRange(image.Length, d.lookup + Offset(index, j), w) {
      return Stop;
    }
    var entry := PointerAt(image[..], d.lookup + Offset(index, j), j);
    if entry == 0 {
      return Stop;
    }
    var wanted := IsWanted(image, entry, j);
    e := if wanted then Slot else Skip;
  }

  /** patch_import_descriptor: the two parallel tables, up to the end of either. */
  method PatchImportDescriptor(image: array<byte>, home: nat, j: Job) returns (patched: nat, ghost log: seq<nat>)
    requires Fits(j) && home + DESCRIPTOR_SIZE <= image.Length
    modifies image
    ensures var d := DescriptorAt(old(image[..]), home);
      WalkTable(old(image[..]), home, d.first, d.lookup, 0, j) == Walk(image[..], log) && patched == |log|
  {
    hide WalkTable, Patched, TurnAt, DescriptorAt;
    patched, log := 0, [];
    var d := DescriptorAt(image[..], home);
    if !InRange(image.Length, d.first, Width(j)) {
      NoRoomStops(image[..], home, d.first, d.lookup, 0, j);
      return;
    }
    var w := Width(j);
    var index := 0;
    ghost var all := WalkTable(image[..], home, d.first, d.lookup, 0, j);
    while d.first + Offset(index, j) + w <= image.Length
      invariant patched == |log|
      invariant var rest := WalkTable(image[..], home, d.first, d.lookup, index, j);
        all == Walk(rest.image, log + rest.log)
      decreases image.Length - (d.first + Offset(index, j))
    {
      TableStep(image[..], home, d.first, d.lookup, index, j);
      var slot := d.first + Offset(index, j);
      var entry := Classify(image, home, d, index, j);
      if entry.Stop? {
        break;
      }
      index := index + 1;
      if entry.Slot? {
        var hit := PatchPointer(image, slot, j);
        ghost var step := if hit then [slot] else [];
        Associative(log, step, WalkTable(image[..], home, d.first, d.lookup, index, j).log);
        log := log + step;
        if hit {
          patched := patched + 1;
        }
      }
    }
    TableEnds(image[..], home, d.first, d.lookup, index, j);
    NoRoomStops(image[..], home, d.first, d.lookup, index, j);
    assert log + [] == log;
  }

  lemma NoRoomStops(b: seq<byte>, home: nat, first: nat, lookup: nat, index: nat, j: Job)
    requires Fits(j) && home + DESCRIPTOR_SIZE <= |b|
    ensures first + Offset(index, j) + Width(j) > |b| ==>
      WalkTable(b, home, first, lookup, index, j) == Walk(b, [])
  {
    hide PointerAt, Wanted, DescriptorAt;
  }

  // Whether a lookup entry imports the function.
  method IsWanted(image: array<byte>, entry: u64, j: Job) returns (wanted: bool)
    ensures wanted == Wanted(image[..], entry, j)
  {
    if entry >= OrdinalBit(j) {
      return entry % 0x1_0000 == 1;
    }
    if !InRange(image.Length, entry, IMPORT_NAME_SIZE) || entry + 2 >= image.Length {
      return false;
    }
    wanted := BoundedAsciiEqual(image, entry + 2, FUNCTION_NAME);
  }

  lemma TableStep(b: seq<byte>, home: nat, first: nat, lookup: nat, index: nat, j: Job)
    requires Fits(j) && home + DESCRIPTOR_SIZE <= |b| && first + Offset(index, j) + Width(j) <= |b|
    ensures var (r, slot) := (WalkTable(b, home, first, lookup, index, j), first + Offset(index, j));
      match TurnAt(b, home, first, lookup, index, j)
      case Stop => r == Walk(b, [])
      case Skip => r == WalkTable(b, home, first, lookup, index + 1, j)
      case Slot =>
        var (p, hit) := Patched(b, slot, j);
        |p| == |b| && r.image == WalkTable(p, home, first, lookup, index + 1, j).image
        && r.log == (if hit then [slot] else []) + WalkTable(p, home, first, lookup, index + 1, j).log
  {
    hide TurnAt;
  }

  lemma TableEnds(b: seq<byte>, home: nat, first: nat, lookup: nat, index: nat, j: Job)
    requires Fits(j) && home + DESCRIPTOR_SIZE <= |b|
    ensures TurnAt(b, home, first, lookup, index, j).Stop? ==>
      WalkTable(b, home, first, lookup, index, j) == Walk(b, [])
  {
    hide TurnAt;
  }

  /** patch_direct_input8_imports: the descriptors of one image whose size its headers state correctly. */
  method PatchImports(image: array<byte>, j: Job) returns (patched: nat, ghost log: seq<nat>)
    requires Fits(j)
    modifies image
    ensures WalkImage(old(image[..]), j) == Walk(image[..], log) && patched == |log|
  {
    hide WalkTable, WalkDescriptors, WalkOne, Chosen, NameIs;
    patched, log := 0, [];
    var directory := Directory(image[..], j);
    if j.original == 0 || j.replacement == 0 || directory.None? {
      return;
    }
    var (table, size) := directory.value;
    var count := size / DESCRIPTOR_SIZE;
    var index := 0;
    ghost var all := WalkDescriptors(image[..], table, count, 0, j);
    while index < count
      invariant index <= count && patched == |log|
      invariant var rest := WalkDescriptors(image[..], table, count, index, j); all == Walk(rest.image, log + rest.log)
    {
      var home := table + index * DESCRIPTOR_SIZE;
      DescriptorStep(image[..], table, count, index, j);
      OneIs(image[..], home, j);
      var d := DescriptorAt(image[..], home);
      if d.name == 0 && d.first == 0 {
        assert log + [] == log;
        return;
      }
      index := index + 1;
      var chosen := IsChosen(image, d, j);
      if chosen {
        ghost var before := log;
        var more, slots := PatchImportDescriptor(image, home, j);
        ghost var rest := WalkDescriptors(image[..], table, count, index, j);
        assert before + (slots + rest.log) == (before + slots) + rest.log;
        patched, log := patched + more, log + slots;
      } else {
        assert [] + WalkDescriptors(image[..], table, count, index, j).log
          == WalkDescriptors(image[..], table, count, index, j).log;
      }
    }
    DescriptorsEnd(image[..], table, count, index, j);
    assert log + [] == log;
  }

  method IsChosen(image: array<byte>, d: Descriptor, j: Job) returns (chosen: bool)
    ensures chosen == Chosen(image[..], d, j)
  {
    hide NameIs;
    if !InRange(image.Length, d.name, 1) {
      return false;
    }
    var named := BoundedAsciiEqual(image, d.name, LIBRARY_NAME);
    chosen := named && (d.lookup == 0 || InRange(image.Length, d.lookup, Width(j)));
  }

  lemma DescriptorStep(b: seq<byte>, table: nat, count: nat, index: nat, j: Job)
    requires Fits(j) && table + count * DESCRIPTOR_SIZE <= |b| && index < count
    ensures table + index * DESCRIPTOR_SIZE + DESCRIPTOR_SIZE <= |b|
    ensures var d := DescriptorAt(b, table + index * DESCRIPTOR_SIZE);
      WalkDescriptors(b, table, count, index, j) ==
        if d.name == 0 && d.first == 0 then Walk(b, [])
        else
          var t := WalkOne(b, table + index * DESCRIPTOR_SIZE, j);
          var rest := WalkDescriptors(t.image, table, count, index + 1, j);
          Walk(rest.image, t.log + rest.log)
  {
    hide WalkOne;
  }

  lemma OneIs(b: seq<byte>, home: nat, j: Job)
    requires Fits(j) && home + DESCRIPTOR_SIZE <= |b|
    ensures var d := DescriptorAt(b, home);
      WalkOne(b, home, j) == if Chosen(b, d, j) then WalkTable(b, home, d.first, d.lookup, 0, j) else Walk(b, [])
  {
    hide Chosen, WalkTable;
  }

  lemma DescriptorsEnd(b: seq<byte>, table: nat, count: nat, index: nat, j: Job)
    requires Fits(j) && table + count * DESCRIPTOR_SIZE <= |b| && index >= count
    ensures WalkDescriptors(b, table, count, index, j) == Walk(b, [])
  {
  }
}
