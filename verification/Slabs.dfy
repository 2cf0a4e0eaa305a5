/** Slabs of the non-moving object storage: equal slots behind a packed side table. */
module Slabs {
  import opened Ir
  import opened Arithmetic
  import opened Collections

  type Addr = nat
  type HeapId = nat

  const BLOCK: nat := 16384
  const CATEGORIES: nat := 6
  const NO_SLOT: nat := 65535

  /** A side table entry. In a free slot `bytes` is the next free index and `flags` is zero. */
  datatype Entry = Entry(bytes: nat, flags: nat)

  /**
   * A block without its links: slab header, side table, and the header word in each object's memory. `entries` and
   * `words` cover the slots handed out so far, so their length is the bump index.
   */
  datatype Slab = Slab(owner: HeapId, category: nat, capacity: nat, objectOffset: nat, live: nat, freeSlot: nat,
                       entries: seq<Entry>, words: seq<nat>)

  /** What a client sees of a live object. */
  datatype Object = Object(size: nat, owner: HeapId, marked: bool)

  // ----- size classes and slab geometry -----

  function SlotBytes(c: nat): nat {
    if c == 0 then 16
    else if c == 1 then 32
    else if c == 2 then 48
    else if c == 3 then 64
    else if c == 4 then 128
    else 256
  }

  /** The size classes: multiples of sixteen, each larger than the one before. */
  lemma SlotSizes(c: nat)
    ensures [SlotBytes(0), SlotBytes(1), SlotBytes(2), SlotBytes(3), SlotBytes(4), SlotBytes(5)] ==
            [16, 32, 48, 64, 128, 256]
    ensures c < CATEGORIES ==> SlotBytes(c) % 16 == 0 && (c > 0 ==> SlotBytes(c - 1) < SlotBytes(c))
  {
  }

  function Align(x: nat): nat { (x + 15) / 16 * 16 }

  /** Side table entries are four bytes each, behind a slab header of forty-eight. */
  function TableOffset(i: nat): nat { 48 + i * 4 }

  function TableIndex(offset: nat): nat
    requires offset >= 48
  {
    (offset - 48) / 4
  }

  /** Blocks are aligned to their size. */
  function Within(a: Addr): nat { a % 16384 }

  /** A slab header, a table of `n` entries and `n` aligned slots fit into a block. */
  predicate Fits(stride: nat, n: nat) {
    Align(TableOffset(n)) + n * stride <= BLOCK
  }

  /** `c` is the smallest class whose slots hold `bytes`. */
  predicate InClass(c: nat, bytes: nat) {
    c < CATEGORIES && bytes <= SlotBytes(c) && forall k :: 0 <= k < c ==> SlotBytes(k) < bytes
  }

  method SizeClass(bytes: nat) returns (c: nat)
    ensures c <= CATEGORIES && if bytes <= SlotBytes(CATEGORIES - 1) then InClass(c, bytes) else c == CATEGORIES
  {
    for k := 0 to CATEGORIES
      invariant forall j :: 0 <= j < k ==> SlotBytes(j) < bytes
    {
      if bytes <= SlotBytes(k) { return k; }
    }
    return CATEGORIES;
  }

  lemma FitBound(stride: nat, n: nat)
    requires Fits(stride, n)
    ensures n <= 16336 / (4 + stride)
  {
    var size := n * stride;
    assert TableOffset(n) + size <= BLOCK;
    assert n * (4 + stride) == n * 4 + size;
    BelowQuotient(n, 4 + stride, 16336);
  }

  ghost predicate NoneAbove(stride: nat, n: nat) {
    forall m: nat {:trigger Fits(stride, m)} :: Fits(stride, m) ==> m <= n
  }

  lemma StartAbove(stride: nat)
    ensures NoneAbove(stride, 16336 / (4 + stride))
  {
    forall m: nat | Fits(stride, m) ensures m <= 16336 / (4 + stride) { FitBound(stride, m); }
  }

  lemma StepDown(stride: nat, n: nat)
    requires NoneAbove(stride, n) && !Fits(stride, n)
    ensures n > 0 && NoneAbove(stride, n - 1)
  {
    assert Fits(stride, 0);
  }

  /** The largest number of slots that fits. */
  method Capacity(stride: nat) returns (n: nat)
    ensures Fits(stride, n) && NoneAbove(stride, n)
  {
    n := 16336 / (4 + stride);
    StartAbove(stride);
    while !Fits(stride, n)
      invariant NoneAbove(stride, n)
      decreases n
    {
      StepDown(stride, n);
      n := n - 1;
    }
  }

  // ----- packed entries -----

  predicate Allocated(e: Entry) { e.flags % 2 == 1 }

  predicate Marked(e: Entry) { e.flags / 2 % 2 == 1 }

  function Offset(e: Entry): nat { e.flags / 4 * 16 }

  /** Allocation bit, mark bit and the object's offset, in sixteen bits. */
  function Packed(bytes: nat, offset: nat): Entry {
    Entry(bytes % 0x10000, (1 + offset / 16 * 4) % 0x10000)
  }

  function SetMark(e: Entry): Entry { if Marked(e) then e else e.(flags := e.flags + 2) }

  function ClearMark(e: Entry): Entry { if Marked(e) && e.flags >= 2 then e.(flags := e.flags - 2) else e }

  lemma PackedFields(bytes: nat, offset: nat)
    requires bytes < 0x10000 && offset % 16 == 0 && offset < BLOCK
    ensures var e := Packed(bytes, offset); Allocated(e) && !Marked(e) && Offset(e) == offset && e.bytes == bytes
  {
  }

  /** The two lowest bits and the rest. */
  lemma Bits(q: nat, b: nat, a: nat)
    requires a < 2 && b < 2
    ensures (4 * q + 2 * b + a) % 2 == a && (4 * q + 2 * b + a) / 2 % 2 == b && (4 * q + 2 * b + a) / 4 == q
  {
    assert (4 * q + 2 * b + a) / 2 == 2 * q + b;
  }

  lemma Split(x: nat)
    ensures x == 4 * (x / 4) + 2 * (x / 2 % 2) + x % 2
  {
  }

  lemma MarkFields(e: Entry)
    ensures var m := SetMark(e);
            Marked(m) && Allocated(m) == Allocated(e) && Offset(m) == Offset(e) && m.bytes == e.bytes
  {
    Split(e.flags);
    Bits(e.flags / 4, 1, e.flags % 2);
  }

  lemma ClearFields(e: Entry)
    ensures var m := ClearMark(e);
            !Marked(m) && Allocated(m) == Allocated(e) && Offset(m) == Offset(e) && m.bytes == e.bytes
  {
    Split(e.flags);
    Bits(e.flags / 4, 0, e.flags % 2);
  }

  // ----- one slab -----

  function Slot(s: Slab, i: nat): nat { s.objectOffset + i * SlotBytes(s.category) }

  predicate HasSpace(s: Slab) { s.freeSlot != NO_SLOT || |s.entries| < s.capacity }

  function CountLive(es: seq<Entry>): nat {
    if |es| == 0 then 0 else CountLive(es[..|es| - 1]) + if Allocated(es[|es| - 1]) then 1 else 0
  }

  /** `chain` lists the free slots in the order the table links them, starting at `head`. */
  ghost predicate Chained(es: seq<Entry>, head: nat, chain: seq<nat>)
    decreases |chain|
  {
    if chain == [] then head == NO_SLOT
    else head == chain[0] < |es| && es[head].flags == 0 && Chained(es, es[head].bytes, chain[1..])
  }

  /** The free chain and the allocated slots are exactly the slots below the bump index. */
  ghost predicate FreeChain(s: Slab, chain: seq<nat>) {
    && Chained(s.entries, s.freeSlot, chain) && Distinct(chain)
    && forall i :: i in chain <==> 0 <= i < |s.entries| && !Allocated(s.entries[i])
  }

  predicate EntryOk(s: Slab, i: nat)
    requires i < |s.entries|
  {
    var e := s.entries[i];
    if Allocated(e) then 16 <= e.bytes <= SlotBytes(s.category) && Offset(e) == Slot(s, i) else e.flags == 0
  }

  predicate Geometry(c: nat, capacity: nat, offset: nat) {
    c < CATEGORIES && 0 < capacity && Fits(SlotBytes(c), capacity) && offset == Align(TableOffset(capacity))
  }

  ghost predicate SlabOk(s: Slab) {
    && Geometry(s.category, s.capacity, s.objectOffset) && |s.entries| <= s.capacity
    && (forall i {:trigger EntryOk(s, i)} :: 0 <= i < |s.entries| ==> EntryOk(s, i))
    && s.live == CountLive(s.entries)
    && exists chain :: FreeChain(s, chain)
  }

  /** The mark of an empty chain fits a side table entry and is no slot of any slab. */
  lemma NoSlotIsNone(s: Slab)
    requires Geometry(s.category, s.capacity, s.objectOffset)
    ensures s.capacity < NO_SLOT < 0x1_0000
  {
    if s.capacity > 0 { SlotPlace(s, 0); }
  }

  /** Slots lie behind the table, inside the block, aligned, and apart from each other. */
  lemma SlotPlace(s: Slab, i: nat)
    requires Geometry(s.category, s.capacity, s.objectOffset) && i < s.capacity
    ensures TableOffset(s.capacity) <= s.objectOffset <= Slot(s, i)
    ensures Slot(s, i) + SlotBytes(s.category) <= BLOCK && Slot(s, i) % 16 == 0 && s.capacity < 4096
  {
    var stride := SlotBytes(s.category);
    NextMultiple(i, s.capacity, stride);
    SlotAligned(i, s.category);
    var start := i * stride;
    var end := s.capacity * stride;
    assert s.objectOffset + end <= BLOCK;
  }

  lemma TableFits(s: Slab)
    requires Geometry(s.category, s.capacity, s.objectOffset)
    ensures TableOffset(s.capacity) < BLOCK
  {
    SlotPlace(s, 0);
  }

  lemma SlotAligned(i: nat, c: nat)
    ensures i * SlotBytes(c) % 16 == 0
  {
    var k := SlotBytes(c) / 16;
    assert SlotBytes(c) == 16 * k;
    assert i * SlotBytes(c) == 16 * (i * k);
  }

  lemma SlotsApart(s: Slab, i: nat, j: nat)
    requires i < j
    ensures Slot(s, i) + SlotBytes(s.category) <= Slot(s, j)
  {
    MulMono(i + 1, j, SlotBytes(s.category));
    assert (i + 1) * SlotBytes(s.category) == i * SlotBytes(s.category) + SlotBytes(s.category);
  }

  lemma {:induction false} ChainFrame(es: seq<Entry>, fs: seq<Entry>, head: nat, chain: seq<nat>)
    requires Chained(es, head, chain) && |es| <= |fs|
    requires forall i :: i in chain && i < |es| ==> fs[i] == es[i]
    ensures Chained(fs, head, chain)
    decreases |chain|
  {
    if chain != [] {
      assert chain[0] in chain;
      assert forall i :: i in chain[1..] ==> i in chain;
      ChainFrame(es, fs, es[head].bytes, chain[1..]);
    }
  }

  lemma {:induction false} CountUpdate(es: seq<Entry>, i: nat, e: Entry)
    requires i < |es|
    ensures CountLive(es[i := e]) ==
              CountLive(es) - (if Allocated(es[i]) then 1 else 0) + (if Allocated(e) then 1 else 0)
  {
    var n := |es| - 1;
    if i == n {
      assert es[i := e][..n] == es[..n];
    } else {
      CountUpdate(es[..n], i, e);
      assert es[i := e][..n] == es[..n][i := e];
    }
  }

  lemma CountAppend(es: seq<Entry>, e: Entry)
    ensures CountLive(es + [e]) == CountLive(es) + if Allocated(e) then 1 else 0
  {
    assert (es + [e])[..|es|] == es;
  }

  lemma {:induction false} CountFull(es: seq<Entry>)
    ensures CountLive(es) <= |es|
    ensures CountLive(es) == |es| <==> forall i :: 0 <= i < |es| ==> Allocated(es[i])
  {
    if |es| > 0 {
      CountFull(es[..|es| - 1]);
    }
  }

  /** A slab has room exactly while fewer objects live in it than it has slots. */
  lemma RoomMeansRoom(s: Slab)
    requires SlabOk(s)
    ensures HasSpace(s) <==> s.live < s.capacity
  {
    var chain :| FreeChain(s, chain);
    CountFull(s.entries);
    if chain == [] {
      forall i | 0 <= i < |s.entries| ensures Allocated(s.entries[i]) { assert i !in chain; }
    } else {
      assert chain[0] in chain;
      SlotPlace(s, 0);
    }
  }

  // ----- allocating in a slab -----

  function NextSlot(s: Slab): nat { if s.freeSlot != NO_SLOT then s.freeSlot else |s.entries| }

  function Filled(s: Slab, bytes: nat): Slab
    requires NextSlot(s) <= |s.entries|
  {
    var i := NextSlot(s);
    var e := Packed(bytes, Slot(s, i));
    if i < |s.entries| then s.(entries := s.entries[i := e], freeSlot := s.entries[i].bytes, live := s.live + 1)
    else s.(entries := s.entries + [e], live := s.live + 1)
  }

  lemma NextIsFree(s: Slab)
    requires SlabOk(s) && HasSpace(s)
    ensures NextSlot(s) <= |s.entries| && NextSlot(s) < s.capacity
    ensures s.freeSlot != NO_SLOT <==> NextSlot(s) < |s.entries|
    ensures NextSlot(s) < |s.entries| ==> !Allocated(s.entries[NextSlot(s)])
  {
    var chain :| FreeChain(s, chain);
    SlotPlace(s, 0);
    if s.freeSlot != NO_SLOT { assert chain[0] in chain; }
  }

  lemma FilledChain(s: Slab, bytes: nat)
    requires SlabOk(s) && HasSpace(s) && 16 <= bytes <= SlotBytes(s.category) && NextSlot(s) <= |s.entries|
    requires Allocated(Packed(bytes, Slot(s, NextSlot(s))))
    ensures exists chain :: FreeChain(Filled(s, bytes), chain)
  {
    NextIsFree(s);
    var chain :| FreeChain(s, chain);
    if s.freeSlot != NO_SLOT { FilledPops(s, bytes, chain); } else { FilledBumps(s, bytes, chain); }
  }

  lemma FilledPops(s: Slab, bytes: nat, chain: seq<nat>)
    requires SlabOk(s) && FreeChain(s, chain) && s.freeSlot != NO_SLOT && NextSlot(s) < |s.entries|
    requires Allocated(Packed(bytes, Slot(s, NextSlot(s))))
    ensures |chain| > 0 && FreeChain(Filled(s, bytes), chain[1..])
  {
    var t, rest := Filled(s, bytes), chain[1..];
    assert chain == [s.freeSlot] + rest;
    assert s.freeSlot !in rest;
    ChainFrame(s.entries, t.entries, t.freeSlot, rest);
    forall i ensures i in rest <==> 0 <= i < |t.entries| && !Allocated(t.entries[i]) {
      assert i in chain <==> i == s.freeSlot || i in rest;
    }
  }

  lemma FilledBumps(s: Slab, bytes: nat, chain: seq<nat>)
    requires SlabOk(s) && FreeChain(s, chain) && s.freeSlot == NO_SLOT && NextSlot(s) == |s.entries|
    requires Allocated(Packed(bytes, Slot(s, NextSlot(s))))
    ensures FreeChain(Filled(s, bytes), chain)
  {
    ChainFrame(s.entries, Filled(s, bytes).entries, Filled(s, bytes).freeSlot, chain);
  }

  lemma FillKeeps(s: Slab, bytes: nat)
    requires SlabOk(s) && HasSpace(s) && 16 <= bytes <= SlotBytes(s.category)
    ensures NextSlot(s) <= |s.entries| && SlabOk(Filled(s, bytes)) && Filled(s, bytes).live > 0
  {
    NextIsFree(s);
    var i := NextSlot(s);
    SlotPlace(s, i);
    PackedFields(bytes, Slot(s, i));
    FilledChain(s, bytes);
    var t := Filled(s, bytes);
    var e := Packed(bytes, Slot(s, i));
    if i < |s.entries| { CountUpdate(s.entries, i, e); } else { CountAppend(s.entries, e); }
    forall j | 0 <= j < |t.entries| ensures EntryOk(t, j) {
      if j != i { assert EntryOk(s, j); }
    }
  }

  // ----- marking and freeing in a slab -----

  function WithEntry(s: Slab, i: nat, e: Entry): Slab
    requires i < |s.entries|
  {
    s.(entries := s.entries[i := e])
  }

  /** Setting or clearing a mark. */
  lemma RemarkKeeps(s: Slab, i: nat, e: Entry)
    requires SlabOk(s) && i < |s.entries| && Allocated(s.entries[i]) && Allocated(e)
    requires e.bytes == s.entries[i].bytes && Offset(e) == Offset(s.entries[i])
    ensures SlabOk(WithEntry(s, i, e))
  {
    var t := WithEntry(s, i, e);
    var chain :| FreeChain(s, chain);
    ChainFrame(s.entries, t.entries, s.freeSlot, chain);
    assert FreeChain(t, chain);
    CountUpdate(s.entries, i, e);
    forall j | 0 <= j < |t.entries| ensures EntryOk(t, j) { assert EntryOk(s, j); }
  }

  function Freed(s: Slab, i: nat): Slab
    requires i < |s.entries| && s.live > 0
  {
    WithEntry(s, i, Entry(s.freeSlot, 0)).(freeSlot := i, live := s.live - 1)
  }

  lemma FreedChain(s: Slab, i: nat)
    requires SlabOk(s) && i < |s.entries| && Allocated(s.entries[i]) && s.live > 0
    ensures exists chain :: FreeChain(Freed(s, i), chain)
  {
    var t := Freed(s, i);
    var chain :| FreeChain(s, chain);
    ChainFrame(s.entries, t.entries, s.freeSlot, chain);
    var longer := [i] + chain;
    assert longer[1..] == chain;
    assert FreeChain(t, longer);
  }

  lemma FreeKeeps(s: Slab, i: nat)
    requires SlabOk(s) && i < |s.entries| && Allocated(s.entries[i])
    ensures s.live > 0 && SlabOk(Freed(s, i))
  {
    CountUpdate(s.entries, i, Entry(s.freeSlot, 0));
    FreedChain(s, i);
    var t := Freed(s, i);
    forall j | 0 <= j < |t.entries| ensures EntryOk(t, j) { assert EntryOk(s, j); }
  }

  // ----- sweeping a slab -----

  predicate Dead(e: Entry) { Allocated(e) && !Marked(e) }

  predicate SweptEntry(e: Entry, f: Entry) {
    if Allocated(e) && Marked(e) then f == ClearMark(e) else !Allocated(f)
  }

  /** The first `k` slots of `s` have been swept. */
  ghost predicate SweptTo(s: Slab, t: Slab, k: nat) {
    && t == s.(entries := t.entries, live := t.live, freeSlot := t.freeSlot) && |t.entries| == |s.entries|
    && (forall i {:trigger t.entries[i]} :: 0 <= i < k && i < |s.entries| ==> SweptEntry(s.entries[i], t.entries[i]))
    && forall i {:trigger t.entries[i]} :: k <= i < |s.entries| ==> t.entries[i] == s.entries[i]
  }

  /** Objects a walk reports: a sweep the unmarked ones, a visit all of them. */
  predicate Reported(e: Entry, sweep: bool) { Allocated(e) && (sweep ==> !Marked(e)) }

  /** The addresses and sizes a walk of the first `k` slots reports. */
  function Report(base: Addr, s: Slab, k: nat, sweep: bool): seq<(Addr, nat)>
    requires k <= |s.entries|
  {
    if k == 0 then []
    else Report(base, s, k - 1, sweep) + if Reported(s.entries[k - 1], sweep)
      then [(base + Slot(s, k - 1), s.entries[k - 1].bytes)] else []
  }

  function Bytes(gone: seq<(Addr, nat)>): nat {
    if |gone| == 0 then 0 else Bytes(gone[..|gone| - 1]) + gone[|gone| - 1].1
  }

  /** What the sweep does to one slot. */
  function SweepSlot(t: Slab, i: nat): Slab
    requires i < |t.entries|
  {
    var e := t.entries[i];
    if !Allocated(e) then t else if Marked(e) then WithEntry(t, i, ClearMark(e)) else if t.live == 0 then t
      else Freed(t, i)
  }

  lemma SweepSlotKeeps(t: Slab, i: nat)
    requires SlabOk(t) && i < |t.entries|
    ensures SlabOk(SweepSlot(t, i)) && (Dead(t.entries[i]) ==> t.live > 0)
  {
    var e := t.entries[i];
    if Allocated(e) && Marked(e) {
      ClearFields(e);
      RemarkKeeps(t, i, ClearMark(e));
    } else if Allocated(e) {
      FreeKeeps(t, i);
    }
  }

  lemma SweepSlotStep(s: Slab, t: Slab, i: nat)
    requires SweptTo(s, t, i) && i < |s.entries| && (Dead(t.entries[i]) ==> t.live > 0)
    ensures SweptTo(s, SweepSlot(t, i), i + 1)
  {
  }

  lemma ReportStep(base: Addr, s: Slab, i: nat, before: seq<(Addr, nat)>, sweep: bool)
    requires i < |s.entries|
    ensures var list := before + Report(base, s, i, sweep);
            before + Report(base, s, i + 1, sweep) == if Reported(s.entries[i], sweep)
              then list + [(base + Slot(s, i), s.entries[i].bytes)] else list
  {
  }

  lemma BytesAppend(gone: seq<(Addr, nat)>, a: Addr, n: nat)
    ensures Bytes(gone + [(a, n)]) == Bytes(gone) + n
  {
    assert (gone + [(a, n)])[..|gone|] == gone;
  }

  /** Note one more reclaimed object. */
  method Count(gone: seq<(Addr, nat)>, objects: nat, bytes: nat, a: Addr, n: nat)
    returns (gone': seq<(Addr, nat)>, objects': nat, bytes': nat)
    requires objects == |gone| && bytes == Bytes(gone)
    ensures gone' == gone + [(a, n)] && objects' == |gone'| && bytes' == Bytes(gone')
  {
    BytesAppend(gone, a, n);
    gone', objects', bytes' := gone + [(a, n)], objects + 1, bytes + n;
  }

  method SweepSlab(base: Addr, s: Slab, before: seq<(Addr, nat)>, objects: nat, bytes: nat)
    returns (t: Slab, gone: seq<(Addr, nat)>, objects': nat, bytes': nat)
    requires SlabOk(s) && objects == |before| && bytes == Bytes(before)
    ensures SlabOk(t) && SweptTo(s, t, |s.entries|) && gone == before + Report(base, s, |s.entries|, true)
    ensures objects' == |gone| && bytes' == Bytes(gone)
  {
    t, gone, objects', bytes' := s, before, objects, bytes;
    for i := 0 to |s.entries|
      invariant SlabOk(t) && SweptTo(s, t, i) && gone == before + Report(base, s, i, true)
      invariant objects' == |gone| && bytes' == Bytes(gone)
    {
      SweepSlotKeeps(t, i);
      SweepSlotStep(s, t, i);
      ReportStep(base, s, i, before, true);
      var e := t.entries[i];
      if Allocated(e) {
        if Marked(e) {
          t := WithEntry(t, i, ClearMark(e));
        } else {
          var a: Addr := base + Slot(s, i);
          gone, objects', bytes' := Count(gone, objects', bytes', a, e.bytes);
          t := Freed(t, i);
        }
      }
    }
  }

  // ----- what a slab means -----

  /** The slot that starts at an offset, if one could. */
  function SlotIndex(c: nat, objectOffset: nat, offset: nat): Option<nat> {
    if offset < objectOffset || (offset - objectOffset) % SlotBytes(c) != 0 then None
    else Some((offset - objectOffset) / SlotBytes(c))
  }

  function DescribeEntry(s: Slab, i: nat): Option<Object> {
    if i < |s.entries| && Allocated(s.entries[i]) then Some(Object(s.entries[i].bytes, s.owner, Marked(s.entries[i])))
      else None
  }

  /** The live object at an offset, found by arithmetic alone. */
  function Describe(s: Slab, offset: nat): Option<Object> {
    match SlotIndex(s.category, s.objectOffset, offset)
    case None => None
    case Some(i) => DescribeEntry(s, i)
  }

  lemma IndexOfSlot(s: Slab, i: nat)
    ensures SlotIndex(s.category, s.objectOffset, Slot(s, i)) == Some(i)
  {
    Quotient(i, SlotBytes(s.category));
  }

  lemma SlotOfIndex(s: Slab, offset: nat)
    ensures SlotIndex(s.category, s.objectOffset, offset).Some? ==>
              offset == Slot(s, SlotIndex(s.category, s.objectOffset, offset).value)
  {
    if offset >= s.objectOffset {
      Division(offset - s.objectOffset, SlotBytes(s.category));
    }
  }

  /** Allocation adds one object, where none was, and changes no other. */
  lemma FilledMeans(s: Slab, bytes: nat, offset: nat)
    requires SlabOk(s) && HasSpace(s) && 16 <= bytes <= SlotBytes(s.category) && NextSlot(s) <= |s.entries|
    ensures Describe(Filled(s, bytes), offset) == if offset == Slot(s, NextSlot(s))
            then Some(Object(bytes, s.owner, false)) else Describe(s, offset)
    ensures Describe(s, Slot(s, NextSlot(s))).None?
  {
    NextIsFree(s);
    var i := NextSlot(s);
    SlotPlace(s, i);
    PackedFields(bytes, Slot(s, i));
    IndexOfSlot(s, i);
    SlotOfIndex(s, offset);
  }

  function Survivor(o: Option<Object>): Option<Object> {
    if o.Some? && o.value.marked then Some(o.value.(marked := false)) else None
  }

  /** A sweep keeps exactly the marked objects, unmarked. */
  lemma SweptMeans(s: Slab, t: Slab, offset: nat)
    requires SweptTo(s, t, |s.entries|)
    ensures Describe(t, offset) == Survivor(Describe(s, offset))
  {
    var i := SlotIndex(s.category, s.objectOffset, offset);
    if i.Some? && i.value < |s.entries| {
      ClearFields(s.entries[i.value]);
    }
  }

  /** A walk reports the objects it should. */
  lemma {:induction false} ReportMeans(base: Addr, s: Slab, k: nat, sweep: bool, a: Addr, n: nat)
    requires k <= |s.entries|
    ensures (a, n) in Report(base, s, k, sweep) <==>
              exists i :: 0 <= i < k && Reported(s.entries[i], sweep) && a == base + Slot(s, i)
                && n == s.entries[i].bytes
  {
    if k > 0 {
      ReportMeans(base, s, k - 1, sweep, a, n);
    }
  }

  ghost predicate Ascending(list: seq<(Addr, nat)>, below: Addr) {
    && (forall i, j :: 0 <= i < j < |list| ==> list[i].0 < list[j].0)
    && forall i :: 0 <= i < |list| ==> list[i].0 < below
  }

  /** Each of them once. */
  lemma {:induction false} ReportAscends(base: Addr, s: Slab, k: nat, sweep: bool)
    requires k <= |s.entries|
    ensures Ascending(Report(base, s, k, sweep), base + Slot(s, k))
  {
    if k > 0 {
      ReportAscends(base, s, k - 1, sweep);
      SlotsApart(s, k - 1, k);
    }
  }

  /** Neither the owner nor the header words matter to a slab's own order. */
  lemma RelabelKeeps(s: Slab, t: Slab)
    requires SlabOk(s) && t == s.(owner := t.owner, words := t.words)
    ensures SlabOk(t)
  {
    var chain :| FreeChain(s, chain);
    assert FreeChain(t, chain);
    forall i | 0 <= i < |t.entries| ensures EntryOk(t, i) { assert EntryOk(s, i); }
  }

  function EmptySlab(owner: HeapId, c: nat, capacity: nat): Slab {
    Slab(owner, c, capacity, Align(TableOffset(capacity)), 0, NO_SLOT, [], [])
  }

  lemma EmptySlabOk(owner: HeapId, c: nat, capacity: nat)
    requires c < CATEGORIES && Fits(SlotBytes(c), capacity) && NoneAbove(SlotBytes(c), capacity)
    ensures SlabOk(EmptySlab(owner, c, capacity)) && HasSpace(EmptySlab(owner, c, capacity))
  {
    assert Fits(SlotBytes(c), 1);
    assert FreeChain(EmptySlab(owner, c, capacity), []);
  }

  predicate Survives(s: Slab) { exists i :: 0 <= i < |s.entries| && Allocated(s.entries[i]) && Marked(s.entries[i]) }

  lemma {:induction false} CountNone(es: seq<Entry>)
    ensures CountLive(es) == 0 <==> forall i :: 0 <= i < |es| ==> !Allocated(es[i])
  {
    if |es| > 0 {
      CountNone(es[..|es| - 1]);
    }
  }

  /** A swept slab is empty exactly when it had no marked object. */
  lemma EmptyWhenNothingSurvives(s: Slab, t: Slab)
    requires SlabOk(t) && SweptTo(s, t, |s.entries|)
    ensures t.live > 0 <==> Survives(s)
  {
    CountNone(t.entries);
    forall i | 0 <= i < |s.entries| ensures Allocated(t.entries[i]) <==>
        Allocated(s.entries[i]) && Marked(s.entries[i]) {
      ClearFields(s.entries[i]);
    }
  }

  lemma MarkKeeps(s: Slab, i: nat)
    requires SlabOk(s) && i < |s.entries| && Allocated(s.entries[i])
    ensures SlabOk(WithEntry(s, i, SetMark(s.entries[i])))
  {
    MarkFields(s.entries[i]);
    RemarkKeeps(s, i, SetMark(s.entries[i]));
  }

  lemma MarkMeans(s: Slab, i: nat, offset: nat)
    requires i < |s.entries| && Allocated(s.entries[i])
    ensures Describe(WithEntry(s, i, SetMark(s.entries[i])), offset) ==
              if offset == Slot(s, i) then Some(Object(s.entries[i].bytes, s.owner, true)) else Describe(s, offset)
  {
    MarkFields(s.entries[i]);
    IndexOfSlot(s, i);
    SlotOfIndex(s, offset);
  }
}
