/** Non-moving object storage: slabs of small objects and single large ones, as a map from addresses to live objects. */
module ManagedStorage {
  import opened Ir
  import opened Slabs
  import opened Collections

  const LARGE_HEADER: nat := 32
  const MAX_SIZE: nat := 0xffff_ffff_ffff_ffff

  /** A large object's metadata, and the header word in its memory. */
  datatype Large = Large(owner: HeapId, bytes: nat, marked: bool, word: nat)

  datatype Store = Store(blocks: seq<Addr>, slabs: map<Addr, Slab>, available: seq<seq<Addr>>, larges: seq<Addr>,
                         large: map<Addr, Large>)

  // ----- meaning -----

  function Base(a: Addr): Addr { a - Within(a) }

  /** The live object at an address. */
  function ObjectAt(v: Store, a: Addr): Option<Object> {
    if Base(a) in v.slabs then Describe(v.slabs[Base(a)], Within(a))
    else if a >= LARGE_HEADER && a - LARGE_HEADER in v.large then
      var l := v.large[a - LARGE_HEADER];
      Some(Object(l.bytes, l.owner, l.marked))
    else None
  }

  // ----- invariant -----

  function EntryAddress(b: Addr, i: nat): Addr { b + TableOffset(i) }

  ghost predicate SlabPlaced(v: Store, b: Addr)
    requires b in v.slabs
  {
    var s := v.slabs[b];
    b > 0 && Within(b) == 0 && SlabOk(s) && |s.words| == |s.entries|
    && forall i {:trigger s.words[i]} :: 0 <= i < |s.words| ==> s.words[i] == EntryAddress(b, i) + 1
  }

  predicate LargePlaced(v: Store, m: Addr)
    requires m in v.large
  {
    m > 0 && m % 16 == 0 && v.large[m].bytes > 0 && v.large[m].word == m
  }

  predicate Apart(x: Addr, n: nat, y: Addr, k: nat) { x + n <= y || y + k <= x }

  function Extent(l: Large): nat { LARGE_HEADER + l.bytes }

  predicate LargesApart(v: Store, m: Addr, n: Addr)
    requires m in v.large && n in v.large
  {
    Apart(m, Extent(v.large[m]), n, Extent(v.large[n]))
  }

  predicate LargeSlabApart(v: Store, m: Addr, b: Addr)
    requires m in v.large
  {
    Apart(m, Extent(v.large[m]), b, BLOCK)
  }

  /** Slabs with room in class `c`, among those in `known`. */
  ghost predicate ListOk(v: Store, c: nat, known: set<Addr>)
    requires c < |v.available|
  {
    && Distinct(v.available[c])
    && forall b :: b in v.available[c] <==>
         b in known && b in v.slabs && v.slabs[b].category == c && HasSpace(v.slabs[b])
  }

  ghost predicate Lists(v: Store, known: set<Addr>) {
    |v.available| == CATEGORIES && forall c {:trigger ListOk(v, c, known)} :: 0 <= c < CATEGORIES ==>
        ListOk(v, c, known)
  }

  /** Everything is in its place, and no two regions obtained from the system overlap. */
  ghost predicate Placed(v: Store) {
    && (forall b {:trigger SlabPlaced(v, b)} :: b in v.slabs ==> SlabPlaced(v, b))
    && (forall m {:trigger LargePlaced(v, m)} :: m in v.large ==> LargePlaced(v, m))
    && (forall m, n {:trigger LargesApart(v, m, n)} :: m in v.large && n in v.large && m != n ==> LargesApart(v, m, n))
    && (forall m, b {:trigger LargeSlabApart(v, m, b)} :: m in v.large && b in v.slabs ==> LargeSlabApart(v, m, b))
  }

  ghost predicate Linked(v: Store) {
    && Distinct(v.blocks) && (forall b :: b in v.blocks <==> b in v.slabs)
    && ListsAll(v.larges, v.large)
  }

  ghost predicate ListsAll(ms: seq<Addr>, large: map<Addr, Large>) {
    Distinct(ms) && forall m :: m in ms <==> m in large
  }

  ghost predicate StoreOk(v: Store) {
    Placed(v) && Linked(v) && Lists(v, v.slabs.Keys)
  }

  /** A region the store does not use. */
  ghost predicate Outside(v: Store, x: Addr, n: nat) {
    && (forall b :: b in v.slabs ==> Apart(x, n, b, BLOCK))
    && forall m :: m in v.large ==> Apart(x, n, m, Extent(v.large[m]))
  }

  // ----- addresses -----

  lemma BaseOf(b: Addr, offset: nat)
    requires Within(b) == 0 && offset < BLOCK
    ensures Base(b + offset) == b && Within(b + offset) == offset
  {
  }

  lemma SlotAddress(v: Store, b: Addr, i: nat)
    requires Placed(v) && b in v.slabs && i < v.slabs[b].capacity
    ensures Base(b + Slot(v.slabs[b], i)) == b && Within(b + Slot(v.slabs[b], i)) == Slot(v.slabs[b], i)
  {
    assert SlabPlaced(v, b);
    SlotPlace(v.slabs[b], i);
    BaseOf(b, Slot(v.slabs[b], i));
  }

  lemma LargeAddress(v: Store, m: Addr)
    requires Placed(v) && m in v.large
    ensures Base(m + LARGE_HEADER) !in v.slabs
  {
    assert LargePlaced(v, m);
    var b := Base(m + LARGE_HEADER);
    assert b in v.slabs ==> LargeSlabApart(v, m, b);
  }

  // ----- owner, size and mark are read back from the header word -----

  /** The header word stored at an address that is, or was, an object of this store. */
  function Header(v: Store, a: Addr): Option<nat> {
    if Base(a) in v.slabs then
      var s := v.slabs[Base(a)];
      match SlotIndex(s.category, s.objectOffset, Within(a))
      case None => None
      case Some(i) => if i < |s.words| then Some(s.words[i]) else None
    else if a >= LARGE_HEADER && a - LARGE_HEADER in v.large then Some(v.large[a - LARGE_HEADER].word)
    else None
  }

  /** The side table entry a word points to. */
  function EntryOf(v: Store, word: nat): Option<Entry> {
    if word == 0 then None else EntryAt(v, word - 1)
  }

  function EntryAt(v: Store, e: Addr): Option<Entry> {
    var b := Base(e);
    if b in v.slabs && e >= b + 48 && TableIndex(e - b) < |v.slabs[b].entries|
    then Some(v.slabs[b].entries[TableIndex(e - b)]) else None
  }

  function OwnerOf(v: Store, a: Addr, word: nat): Option<HeapId> {
    if a == 0 || word == 0 then None
    else if word % 2 == 1 then
      match EntryOf(v, word)
      case None => None
      case Some(e) => if Allocated(e) && Base(word - 1) + Offset(e) == a then Some(v.slabs[Base(word - 1)].owner)
        else None
    else if word in v.large && word + LARGE_HEADER == a then Some(v.large[word].owner) else None
  }

  function SizeOf(v: Store, word: nat): nat {
    if word % 2 == 1 then match EntryOf(v, word) case None => 0 case Some(e) => e.bytes
    else if word in v.large then v.large[word].bytes else 0
  }

  predicate MarkOf(v: Store, word: nat) {
    if word % 2 == 1 then match EntryOf(v, word) case None => false case Some(e) => Marked(e)
    else word in v.large && v.large[word].marked
  }

  lemma EntryIsEven(b: Addr, i: nat)
    requires Within(b) == 0
    ensures EntryAddress(b, i) % 2 == 0
  {
    var q := b / 16384;
    assert b == 2 * (8192 * q);
  }

  lemma EntryArithmetic(b: Addr, i: nat)
    requires Within(b) == 0 && TableOffset(i) < BLOCK
    ensures var e := EntryAddress(b, i); Base(e) == b && e >= b + 48 && TableIndex(e - b) == i
  {
    BaseOf(b, TableOffset(i));
  }

  lemma EntryOfSlot(v: Store, b: Addr, i: nat)
    requires Placed(v) && b in v.slabs && i < |v.slabs[b].entries|
    ensures Base(EntryAddress(b, i)) == b && EntryAddress(b, i) % 2 == 0
            && EntryAt(v, EntryAddress(b, i)) == Some(v.slabs[b].entries[i])
  {
    assert Within(b) == 0 && TableOffset(i) < BLOCK by {
      assert SlabPlaced(v, b);
      TableFits(v.slabs[b]);
    }
    EntryIsEven(b, i);
    EntryArithmetic(b, i);
  }

  /** Whatever word is read, an owner is only reported for a live object of that owner. */
  lemma OwnerIsSound(v: Store, a: Addr, word: nat)
    requires StoreOk(v) && OwnerOf(v, a, word).Some?
    ensures ObjectAt(v, a).Some? && ObjectAt(v, a).value.owner == OwnerOf(v, a, word).value
  {
    if word % 2 == 1 {
      var b := Base(word - 1);
      var i := TableIndex(word - 1 - b);
      assert SlabPlaced(v, b);
      assert EntryOk(v.slabs[b], i);
      SlotAddress(v, b, i);
      IndexOfSlot(v.slabs[b], i);
    } else {
      LargeAddress(v, word);
    }
  }

  /** What the word in a header says about the object at that address. */
  predicate Tells(v: Store, a: Addr, word: nat) {
    match ObjectAt(v, a)
    case None => OwnerOf(v, a, word).None?
    case Some(o) => OwnerOf(v, a, word) == Some(o.owner) && SizeOf(v, word) == o.size && MarkOf(v, word) == o.marked
  }

  lemma SlotObject(v: Store, b: Addr, i: nat)
    requires Placed(v) && b in v.slabs && i < |v.slabs[b].entries|
    ensures ObjectAt(v, b + Slot(v.slabs[b], i)) == DescribeEntry(v.slabs[b], i)
  {
    assert SlabPlaced(v, b);
    SlotAddress(v, b, i);
    IndexOfSlot(v.slabs[b], i);
  }

  /** What an odd header word says, given the entry it points to. */
  lemma OddWord(v: Store, a: Addr, word: nat, e: Entry)
    requires word % 2 == 1 && EntryOf(v, word) == Some(e)
    ensures SizeOf(v, word) == e.bytes && MarkOf(v, word) == Marked(e) && Base(word - 1) in v.slabs
    ensures a > 0 ==> OwnerOf(v, a, word) == if Allocated(e) && Base(word - 1) + Offset(e) == a
            then Some(v.slabs[Base(word - 1)].owner) else None
  {
  }

  lemma WordOfSlot(v: Store, b: Addr, i: nat, word: nat)
    requires Placed(v) && b in v.slabs && i < |v.slabs[b].entries| && word == EntryAddress(b, i) + 1
    ensures word % 2 == 1 && Base(word - 1) == b && EntryOf(v, word) == Some(v.slabs[b].entries[i])
  {
    EntryOfSlot(v, b, i);
    OddAfter(EntryAddress(b, i), word);
  }

  lemma OddAfter(e: Addr, word: nat)
    requires word == e + 1 && e % 2 == 0
    ensures word % 2 == 1 && word - 1 == e
  {
  }

  lemma EntryOfObject(v: Store, b: Addr, i: nat)
    requires Placed(v) && b in v.slabs && i < |v.slabs[b].entries|
    ensures b > 0 && (Allocated(v.slabs[b].entries[i]) ==> Offset(v.slabs[b].entries[i]) == Slot(v.slabs[b], i))
  {
    assert SlabPlaced(v, b);
    assert EntryOk(v.slabs[b], i);
  }

  lemma SlotTells(v: Store, b: Addr, i: nat, a: Addr, word: nat)
    requires Placed(v) && b in v.slabs && i < |v.slabs[b].entries| && a == b + Slot(v.slabs[b], i)
             && word == EntryAddress(b, i) + 1
    ensures Tells(v, a, word)
  {
    EntryOfObject(v, b, i);
    WordOfSlot(v, b, i, word);
    SlotObject(v, b, i);
    OddWord(v, a, word, v.slabs[b].entries[i]);
    TellsSlot(v, a, word, v.slabs[b], i, b);
  }

  lemma TellsSlot(v: Store, a: Addr, word: nat, s: Slab, i: nat, b: Addr)
    requires i < |s.entries| && ObjectAt(v, a) == DescribeEntry(s, i)
    requires SizeOf(v, word) == s.entries[i].bytes && MarkOf(v, word) == Marked(s.entries[i])
    requires OwnerOf(v, a, word) == if Allocated(s.entries[i]) && b + Offset(s.entries[i]) == a then Some(s.owner)
             else None
    requires Allocated(s.entries[i]) ==> b + Offset(s.entries[i]) == a
    ensures Tells(v, a, word)
  {
  }

  lemma SlotHeader(v: Store, a: Addr)
    requires Placed(v) && Base(a) in v.slabs
    ensures ObjectAt(v, a).Some? ==> Header(v, a).Some?
    ensures Header(v, a).Some? ==>
              exists i: nat :: i < |v.slabs[Base(a)].entries| && a == Base(a) + Slot(v.slabs[Base(a)], i)
                && Header(v, a).value == EntryAddress(Base(a), i) + 1
  {
    var s := v.slabs[Base(a)];
    assert SlabPlaced(v, Base(a));
    SlotOfIndex(s, Within(a));
  }

  /**
   * For the word in its own header, an object that is live is reported with its owner, size and mark, and one that is
   * not, with no owner.
   */
  lemma ReadBack(v: Store, a: Addr)
    requires StoreOk(v)
    ensures ObjectAt(v, a).Some? ==> Header(v, a).Some?
    ensures Header(v, a).Some? ==> Tells(v, a, Header(v, a).value)
  {
    if Base(a) in v.slabs {
      SlotHeader(v, a);
      if Header(v, a).Some? {
        var i: nat :| i < |v.slabs[Base(a)].entries| && a == Base(a) + Slot(v.slabs[Base(a)], i)
          && Header(v, a).value == EntryAddress(Base(a), i) + 1;
        SlotTells(v, Base(a), i, a, Header(v, a).value);
      }
    } else if Header(v, a).Some? {
      LargeTells(v, a);
    }
  }

  lemma LargeTells(v: Store, a: Addr)
    requires Placed(v) && a >= LARGE_HEADER && a - LARGE_HEADER in v.large && Base(a) !in v.slabs
    ensures Tells(v, a, v.large[a - LARGE_HEADER].word)
  {
    assert LargePlaced(v, a - LARGE_HEADER);
  }

  // ----- objects do not overlap -----

  /** Where the memory of a live object lies. */
  lemma ObjectPlace(v: Store, a: Addr)
    requires StoreOk(v) && ObjectAt(v, a).Some?
    ensures var n := ObjectAt(v, a).value.size;
            if Base(a) in v.slabs then Base(a) + v.slabs[Base(a)].objectOffset <= a && a + n <= Base(a) + BLOCK
            else a >= LARGE_HEADER && a - LARGE_HEADER in v.large && n == v.large[a - LARGE_HEADER].bytes
  {
    var b := Base(a);
    if b in v.slabs {
      var s := v.slabs[b];
      assert SlabPlaced(v, b);
      SlotOfIndex(s, Within(a));
      var i := SlotIndex(s.category, s.objectOffset, Within(a)).value;
      SlotPlace(s, i);
      assert EntryOk(s, i);
    }
  }

  lemma BlocksApart(v: Store, x: Addr, y: Addr)
    requires Placed(v) && x in v.slabs && y in v.slabs && x != y
    ensures Apart(x, BLOCK, y, BLOCK)
  {
    assert SlabPlaced(v, x) && SlabPlaced(v, y);
  }

  lemma InsideApart(x: Addr, n: nat, y: Addr, k: nat, a: Addr, m: nat, c: Addr, l: nat)
    requires Apart(x, n, y, k) && x <= a && a + m <= x + n && y <= c && c + l <= y + k
    ensures Apart(a, m, c, l)
  {
  }

  /** Live objects overlap neither each other nor any metadata. */
  lemma ObjectsApart(v: Store, a: Addr, c: Addr)
    requires StoreOk(v) && ObjectAt(v, a).Some? && ObjectAt(v, c).Some? && a != c
    ensures Apart(a, ObjectAt(v, a).value.size, c, ObjectAt(v, c).value.size)
  {
    if Base(a) in v.slabs && Base(a) == Base(c) {
      SlotsOfSlab(v, Base(a), a, c);
    } else {
      var x, n := Region(v, a);
      var y, k := Region(v, c);
      RegionsApart(v, a, c, x, n, y, k);
      InsideApart(x, n, y, k, a, ObjectAt(v, a).value.size, c, ObjectAt(v, c).value.size);
    }
  }

  /** The memory obtained from the system that an object lies in. */
  lemma Region(v: Store, a: Addr) returns (x: Addr, n: nat)
    requires StoreOk(v) && ObjectAt(v, a).Some?
    ensures InRegion(v, a, x, n) && x <= a && a + ObjectAt(v, a).value.size <= x + n
  {
    ObjectPlace(v, a);
    if Base(a) in v.slabs {
      x, n := Base(a), BLOCK;
    } else {
      x, n := a - LARGE_HEADER, Extent(v.large[a - LARGE_HEADER]);
    }
  }

  predicate InRegion(v: Store, a: Addr, x: Addr, n: nat) {
    if Base(a) in v.slabs then x == Base(a) && n == BLOCK
    else a >= LARGE_HEADER && a - LARGE_HEADER in v.large && x == a - LARGE_HEADER && n == Extent(v.large[x])
  }

  lemma RegionsApart(v: Store, a: Addr, c: Addr, x: Addr, n: nat, y: Addr, k: nat)
    requires StoreOk(v) && a != c && InRegion(v, a, x, n) && InRegion(v, c, y, k)
             && !(Base(a) in v.slabs && Base(a) == Base(c))
    ensures Apart(x, n, y, k)
  {
    if Base(a) in v.slabs && Base(c) in v.slabs {
      BlocksApart(v, x, y);
    } else if Base(a) in v.slabs {
      assert LargeSlabApart(v, y, x);
    } else if Base(c) in v.slabs {
      assert LargeSlabApart(v, x, y);
    } else {
      assert LargesApart(v, x, y);
    }
  }

  lemma SlotsOfSlab(v: Store, b: Addr, a: Addr, c: Addr)
    requires StoreOk(v) && ObjectAt(v, a).Some? && ObjectAt(v, c).Some? && a != c && b in v.slabs
             && Base(a) == b == Base(c)
    ensures Apart(a, ObjectAt(v, a).value.size, c, ObjectAt(v, c).value.size)
  {
    var s := v.slabs[b];
    assert SlabPlaced(v, b);
    SlotOfIndex(s, Within(a));
    SlotOfIndex(s, Within(c));
    var i := SlotIndex(s.category, s.objectOffset, Within(a)).value;
    var j := SlotIndex(s.category, s.objectOffset, Within(c)).value;
    assert EntryOk(s, i) && EntryOk(s, j);
    if i < j { SlotsApart(s, i, j); } else if j < i { SlotsApart(s, j, i); }
  }

  lemma SlabMetadataApart(v: Store, a: Addr, b: Addr)
    requires StoreOk(v) && ObjectAt(v, a).Some? && b in v.slabs
    ensures Apart(a, ObjectAt(v, a).value.size, b, v.slabs[b].objectOffset)
  {
    assert v.slabs[b].objectOffset <= BLOCK by {
      assert SlabPlaced(v, b);
      SlotPlace(v.slabs[b], 0);
    }
    ObjectPlace(v, a);
    var x, n := Region(v, a);
    if Base(a) !in v.slabs {
      assert LargeSlabApart(v, x, b);
    } else if x != b {
      BlocksApart(v, x, b);
    }
  }

  lemma LargeMetadataApart(v: Store, a: Addr, m: Addr)
    requires StoreOk(v) && ObjectAt(v, a).Some? && m in v.large
    ensures Apart(a, ObjectAt(v, a).value.size, m, LARGE_HEADER)
  {
    ObjectPlace(v, a);
    var x, n := Region(v, a);
    if Base(a) in v.slabs {
      assert LargeSlabApart(v, m, x);
    } else if m != x {
      assert LargesApart(v, x, m);
    }
  }

  lemma MetadataApart(v: Store, a: Addr)
    requires StoreOk(v) && ObjectAt(v, a).Some?
    ensures forall b :: b in v.slabs ==> Apart(a, ObjectAt(v, a).value.size, b, v.slabs[b].objectOffset)
    ensures forall m :: m in v.large ==> Apart(a, ObjectAt(v, a).value.size, m, LARGE_HEADER)
  {
    forall b | b in v.slabs ensures Apart(a, ObjectAt(v, a).value.size, b, v.slabs[b].objectOffset) {
      SlabMetadataApart(v, a, b);
    }
    forall m | m in v.large ensures Apart(a, ObjectAt(v, a).value.size, m, LARGE_HEADER) {
      LargeMetadataApart(v, a, m);
    }
  }

  // ----- allocation -----

  function WithWord(words: seq<nat>, i: nat, word: nat): seq<nat> {
    if i < |words| then words[i := word] else words + [word]
  }

  /** Slab `b`, the first with room in its class, hands out its next slot. */
  function SmallAdded(v: Store, b: Addr, bytes: nat): Store
    requires b in v.slabs && NextSlot(v.slabs[b]) <= |v.slabs[b].entries| && v.slabs[b].category < |v.available|
  {
    var s := v.slabs[b];
    var t := Filled(s, bytes).(words := WithWord(s.words, NextSlot(s), EntryAddress(b, NextSlot(s)) + 1));
    var list := v.available[s.category];
    v.(slabs := v.slabs[b := t], available := if HasSpace(t) || list == [] then v.available
      else v.available[s.category := list[1..]])
  }

  function SlabAdded(v: Store, b: Addr, s: Slab): Store
    requires s.category < |v.available|
  {
    v.(blocks := [b] + v.blocks, slabs := v.slabs[b := s], available := v.available[s.category := [b]])
  }

  function LargeAdded(v: Store, m: Addr, l: Large): Store {
    v.(larges := [m] + v.larges, large := v.large[m := l])
  }

  lemma SlabAddedKeeps(v: Store, b: Addr, s: Slab)
    requires StoreOk(v) && b > 0 && Within(b) == 0 && Outside(v, b, BLOCK)
    requires SlabOk(s) && s.entries == [] && s.words == [] && HasSpace(s) && s.category < CATEGORIES
             && v.available[s.category] == []
    ensures StoreOk(SlabAdded(v, b, s)) && forall a: Addr :: ObjectAt(SlabAdded(v, b, s), a) == ObjectAt(v, a)
  {
    var u := SlabAdded(v, b, s);
    assert b !in v.slabs;
    SlabAddedPlaced(v, b, s);
    forall c | 0 <= c < CATEGORIES ensures ListOk(u, c, u.slabs.Keys) { assert ListOk(v, c, v.slabs.Keys); }
    forall m | m in v.large ensures v.large[m].bytes > 0 { assert LargePlaced(v, m); }
    forall a: Addr ensures ObjectAt(u, a) == ObjectAt(v, a) { }
  }

  lemma SlabAddedPlaced(v: Store, b: Addr, s: Slab)
    requires Placed(v) && b > 0 && Within(b) == 0 && Outside(v, b, BLOCK)
    requires SlabOk(s) && s.entries == [] && s.words == [] && s.category < |v.available|
    ensures Placed(SlabAdded(v, b, s))
  {
    var u := SlabAdded(v, b, s);
    forall x | x in u.slabs ensures SlabPlaced(u, x) { if x != b { assert SlabPlaced(v, x); } }
    forall m | m in u.large ensures LargePlaced(u, m) { assert LargePlaced(v, m); }
    forall m, n | m in u.large && n in u.large && m != n ensures LargesApart(u, m, n) { assert LargesApart(v, m, n); }
    forall m, x | m in u.large && x in u.slabs ensures LargeSlabApart(u, m, x) {
      if x != b { assert LargeSlabApart(v, m, x); }
    }
  }

  lemma SmallSlab(v: Store, b: Addr, bytes: nat)
    requires Placed(v) && b in v.slabs && HasSpace(v.slabs[b]) && 16 <= bytes <= SlotBytes(v.slabs[b].category)
             && |v.available| == CATEGORIES
    ensures NextSlot(v.slabs[b]) <= |v.slabs[b].entries| && v.slabs[b].category < CATEGORIES
            && SlabPlaced(SmallAdded(v, b, bytes), b)
  {
    var s := v.slabs[b];
    assert SlabPlaced(v, b);
    FillKeeps(s, bytes);
    var u := SmallAdded(v, b, bytes);
    RelabelKeeps(Filled(s, bytes), u.slabs[b]);
  }

  lemma SmallAddedKeeps(v: Store, b: Addr, bytes: nat)
    requires StoreOk(v) && b in v.slabs && v.slabs[b].category < CATEGORIES && v.available[v.slabs[b].category] != []
             && v.available[v.slabs[b].category][0] == b
    requires 16 <= bytes <= SlotBytes(v.slabs[b].category)
    ensures NextSlot(v.slabs[b]) <= |v.slabs[b].entries| && StoreOk(SmallAdded(v, b, bytes))
  {
    var s := v.slabs[b];
    var k := s.category;
    assert ListOk(v, k, v.slabs.Keys) && b in v.available[k];
    SmallSlab(v, b, bytes);
    var u := SmallAdded(v, b, bytes);
    forall x | x in u.slabs ensures SlabPlaced(u, x) { if x != b { assert SlabPlaced(v, x); } }
    forall m | m in u.large ensures LargePlaced(u, m) { assert LargePlaced(v, m); }
    forall m, n | m in u.large && n in u.large && m != n ensures LargesApart(u, m, n) { assert LargesApart(v, m, n); }
    forall m, x | m in u.large && x in u.slabs ensures LargeSlabApart(u, m, x) { assert LargeSlabApart(v, m, x); }
    forall c | 0 <= c < CATEGORIES ensures ListOk(u, c, u.slabs.Keys) { assert ListOk(v, c, v.slabs.Keys); }
  }

  lemma SmallAddedMeans(v: Store, b: Addr, bytes: nat, a: Addr)
    requires Placed(v) && b in v.slabs && HasSpace(v.slabs[b]) && 16 <= bytes <= SlotBytes(v.slabs[b].category)
             && |v.available| == CATEGORIES
    requires NextSlot(v.slabs[b]) <= |v.slabs[b].entries| && v.slabs[b].category < CATEGORIES
    ensures var r := b + Slot(v.slabs[b], NextSlot(v.slabs[b]));
            && ObjectAt(v, r).None?
            && ObjectAt(SmallAdded(v, b, bytes), a) == if a == r then Some(Object(bytes, v.slabs[b].owner, false))
               else ObjectAt(v, a)
  {
    assert SlabPlaced(v, b);
    var s := v.slabs[b];
    NextIsFree(s);
    SlotAddress(v, b, NextSlot(s));
    FilledMeans(s, bytes, Within(a));
  }

  lemma LargeAddedKeeps(v: Store, m: Addr, l: Large)
    requires StoreOk(v) && m > 0 && m % 16 == 0 && l.bytes > 0 && l.word == m && Outside(v, m, Extent(l))
    ensures StoreOk(LargeAdded(v, m, l))
  {
    var u := LargeAdded(v, m, l);
    assert m !in v.large;
    forall x | x in u.slabs ensures SlabPlaced(u, x) { assert SlabPlaced(v, x); }
    forall x | x in u.large ensures LargePlaced(u, x) { if x != m { assert LargePlaced(v, x); } }
    forall x, n | x in u.large && n in u.large && x != n ensures LargesApart(u, x, n) {
      if x != m && n != m { assert LargesApart(v, x, n); }
    }
    forall x, b | x in u.large && b in u.slabs ensures LargeSlabApart(u, x, b) {
      if x != m { assert LargeSlabApart(v, x, b); }
    }
    forall c | 0 <= c < CATEGORIES ensures ListOk(u, c, u.slabs.Keys) { assert ListOk(v, c, v.slabs.Keys); }
  }

  lemma LargeAddedMeans(v: Store, m: Addr, l: Large, a: Addr)
    requires m > 0 && Outside(v, m, Extent(l)) && l.bytes > 0
    ensures var r := m + LARGE_HEADER;
            ObjectAt(v, r).None? && ObjectAt(LargeAdded(v, m, l), a) == if a == r
              then Some(Object(l.bytes, l.owner, l.marked)) else ObjectAt(v, a)
  {
    var b := Base(m + LARGE_HEADER);
    assert b !in v.slabs;
    assert m !in v.large;
  }

  // ----- sweeping -----

  /** How far a sweep has come with slab `b`. */
  ghost predicate SweptSlab(v: Store, u: Store, b: Addr)
    requires b in v.slabs
  {
    var s := v.slabs[b];
    && (b in u.slabs <==> Survives(s))
    && (b in u.slabs ==> SlabOk(u.slabs[b]) && SweptTo(s, u.slabs[b], |s.entries|) && u.slabs[b].live > 0)
  }

  /** The slabs in `done` have been swept, the others not, and only the former are listed as having room. */
  ghost predicate SlabsSwept(v: Store, u: Store, done: set<Addr>) {
    && u.slabs.Keys <= v.slabs.Keys
    && (forall b {:trigger SweptSlab(v, u, b)} :: b in v.slabs && b in done ==> SweptSlab(v, u, b))
    && (forall b :: b in v.slabs && b !in done ==> b in u.slabs && u.slabs[b] == v.slabs[b])
    && Lists(u, done)
  }

  /** Slab `b` has become `t`: it goes back to the system if it is empty, else it is listed if it has room. */
  function BlockSwept(u: Store, b: Addr, t: Slab): Store
    requires t.category < |u.available|
  {
    if t.live == 0 then u.(slabs := u.slabs - {b})
    else u.(slabs := u.slabs[b := t], available := if HasSpace(t)
      then u.available[t.category := [b] + u.available[t.category]] else u.available)
  }

  lemma BlockSweptStep(v: Store, u: Store, done: set<Addr>, b: Addr, t: Slab)
    requires SlabsSwept(v, u, done) && b in v.slabs && b !in done && t.category < CATEGORIES
    requires SlabOk(t) && SweptTo(v.slabs[b], t, |v.slabs[b].entries|)
    ensures SlabsSwept(v, BlockSwept(u, b, t), done + {b})
  {
    var w := BlockSwept(u, b, t);
    EmptyWhenNothingSurvives(v.slabs[b], t);
    forall x | x in v.slabs && x in done + {b} ensures SweptSlab(v, w, x) { if x != b { assert SweptSlab(v, u, x); } }
    forall c | 0 <= c < CATEGORIES ensures ListOk(w, c, done + {b}) { assert ListOk(u, c, done); }
  }

  ghost predicate LargesSwept(was: map<Addr, Large>, large: map<Addr, Large>) {
    forall m :: (m in large <==> m in was && was[m].marked) && (m in large ==> large[m] == was[m].(marked := false))
  }

  /** A finished sweep keeps the store in order. */
  lemma SweptKeeps(v: Store, u: Store)
    requires StoreOk(v) && SlabsSwept(v, u, v.slabs.Keys) && LargesSwept(v.large, u.large) && Linked(u)
    ensures StoreOk(u)
  {
    forall b | b in u.slabs ensures SlabPlaced(u, b) { assert SweptSlab(v, u, b) && SlabPlaced(v, b); }
    forall m | m in u.large ensures LargePlaced(u, m) { assert LargePlaced(v, m); }
    forall m, n | m in u.large && n in u.large && m != n ensures LargesApart(u, m, n) { assert LargesApart(v, m, n); }
    forall m, b | m in u.large && b in u.slabs ensures LargeSlabApart(u, m, b) { assert LargeSlabApart(v, m, b); }
    forall c | 0 <= c < CATEGORIES ensures ListOk(u, c, u.slabs.Keys) { assert ListOk(u, c, v.slabs.Keys); }
  }

  /** It keeps exactly the marked objects, where they were, without their marks. */
  lemma SweptObjects(v: Store, u: Store, a: Addr)
    requires StoreOk(v) && SlabsSwept(v, u, v.slabs.Keys) && LargesSwept(v.large, u.large)
    ensures ObjectAt(u, a) == Survivor(ObjectAt(v, a))
  {
    if a >= LARGE_HEADER && a - LARGE_HEADER in v.large { LargeAddress(v, a - LARGE_HEADER); }
    if Base(a) in v.slabs {
      assert SweptSlab(v, u, Base(a));
      if Base(a) in u.slabs { SweptMeans(v.slabs[Base(a)], u.slabs[Base(a)], Within(a)); }
    }
  }

  // ----- what walks report -----

  type Listing = seq<(Addr, nat)>

  function SlabsReport(v: Store, bs: seq<Addr>, k: nat, sweep: bool): Listing
    requires k <= |bs|
  {
    if k == 0 then []
    else
      var b := bs[k - 1];
      SlabsReport(v, bs, k - 1, sweep) + if b in v.slabs then Report(b, v.slabs[b], |v.slabs[b].entries|, sweep) else []
  }

  function LargesReport(large: map<Addr, Large>, ms: seq<Addr>, k: nat, sweep: bool): Listing
    requires k <= |ms|
  {
    if k == 0 then []
    else
      var m := ms[k - 1];
      LargesReport(large, ms, k - 1, sweep) + if m in large && (sweep ==> !large[m].marked)
        then [(m + LARGE_HEADER, large[m].bytes)] else []
  }

  function StoreReport(v: Store, sweep: bool): Listing {
    SlabsReport(v, v.blocks, |v.blocks|, sweep) + LargesReport(v.large, v.larges, |v.larges|, sweep)
  }

  ghost predicate Once(list: Listing) {
    forall i, j :: 0 <= i < j < |list| ==> list[i].0 != list[j].0
  }

  predicate Wanted(v: Store, sweep: bool, a: Addr, n: nat) {
    ObjectAt(v, a).Some? && ObjectAt(v, a).value.size == n && (sweep ==> !ObjectAt(v, a).value.marked)
  }

  lemma SlabWanted(v: Store, b: Addr, sweep: bool, a: Addr, n: nat)
    requires Placed(v) && b in v.slabs
    ensures (a, n) in Report(b, v.slabs[b], |v.slabs[b].entries|, sweep) <==> Base(a) == b && Wanted(v, sweep, a, n)
  {
    var s := v.slabs[b];
    assert SlabPlaced(v, b);
    ReportMeans(b, s, |s.entries|, sweep, a, n);
    if (a, n) in Report(b, s, |s.entries|, sweep) {
      var i :| 0 <= i < |s.entries| && Reported(s.entries[i], sweep) && a == b + Slot(s, i) && n == s.entries[i].bytes;
      SlotAddress(v, b, i);
      IndexOfSlot(s, i);
    } else if Base(a) == b && Wanted(v, sweep, a, n) {
      SlotOfIndex(s, Within(a));
      var i := SlotIndex(s.category, s.objectOffset, Within(a)).value;
      assert Reported(s.entries[i], sweep);
    }
  }

  lemma {:induction false} SlabsWanted(v: Store, bs: seq<Addr>, k: nat, sweep: bool, a: Addr, n: nat)
    requires Placed(v) && k <= |bs| && forall b :: b in bs ==> b in v.slabs
    ensures (a, n) in SlabsReport(v, bs, k, sweep) <==> Base(a) in bs[..k] && Wanted(v, sweep, a, n)
  {
    if k > 0 {
      assert bs[..k] == bs[..k - 1] + [bs[k - 1]];
      SlabsWanted(v, bs, k - 1, sweep, a, n);
      SlabWanted(v, bs[k - 1], sweep, a, n);
    }
  }

  lemma {:induction false} LargesWanted(v: Store, ms: seq<Addr>, k: nat, sweep: bool, a: Addr, n: nat)
    requires Placed(v) && k <= |ms| && forall m :: m in ms ==> m in v.large
    ensures (a, n) in LargesReport(v.large, ms, k, sweep) <==>
              a >= LARGE_HEADER && a - LARGE_HEADER in ms[..k] && Wanted(v, sweep, a, n)
  {
    if k > 0 {
      assert ms[..k] == ms[..k - 1] + [ms[k - 1]];
      LargesWanted(v, ms, k - 1, sweep, a, n);
      LargeAddress(v, ms[k - 1]);
      if a >= LARGE_HEADER && a - LARGE_HEADER in ms[..k] { LargeAddress(v, a - LARGE_HEADER); }
    }
  }

  /** A walk reports exactly the live objects it should. */
  lemma ReportExact(v: Store, sweep: bool, a: Addr, n: nat)
    requires StoreOk(v)
    ensures (a, n) in StoreReport(v, sweep) <==> Wanted(v, sweep, a, n)
  {
    SlabsWanted(v, v.blocks, |v.blocks|, sweep, a, n);
    LargesWanted(v, v.larges, |v.larges|, sweep, a, n);
    if Wanted(v, sweep, a, n) && Base(a) !in v.slabs { assert a - LARGE_HEADER in v.larges; }
  }

  lemma OnceJoined(x: Listing, y: Listing)
    requires Once(x) && Once(y) && forall p, q :: p in x && q in y ==> p.0 != q.0
    ensures Once(x + y)
  {
    forall i, j | 0 <= i < j < |x + y| ensures (x + y)[i].0 != (x + y)[j].0 {
      if i < |x| <= j { assert x[i] in x && y[j - |x|] in y; }
    }
  }

  ghost predicate InBlocks(x: Listing, bs: seq<Addr>) {
    forall i :: 0 <= i < |x| ==> Base(x[i].0) in bs
  }

  lemma OnceInBlocks(x: Listing, y: Listing, earlier: seq<Addr>, b: Addr)
    requires Once(x) && Once(y) && b !in earlier && InBlocks(x, earlier) && InBlocks(y, [b])
    ensures Once(x + y)
  {
    forall p, q | p in x && q in y ensures p.0 != q.0 { assert Base(p.0) != Base(q.0); }
    OnceJoined(x, y);
  }

  lemma {:induction false} SlabsOnce(v: Store, bs: seq<Addr>, k: nat, sweep: bool)
    requires Placed(v) && k <= |bs| && Distinct(bs) && forall b :: b in bs ==> b in v.slabs
    ensures Once(SlabsReport(v, bs, k, sweep))
  {
    if k > 0 {
      var b := bs[k - 1];
      var x, y := SlabsReport(v, bs, k - 1, sweep), Report(b, v.slabs[b], |v.slabs[b].entries|, sweep);
      SlabsOnce(v, bs, k - 1, sweep);
      ReportAscends(b, v.slabs[b], |v.slabs[b].entries|, sweep);
      SlabsBase(v, bs, k - 1, sweep);
      SlabBase(v, b, sweep);
      OnceInBlocks(x, y, bs[..k - 1], b);
    }
  }

  lemma SlabsBase(v: Store, bs: seq<Addr>, k: nat, sweep: bool)
    requires Placed(v) && k <= |bs| && forall b :: b in bs ==> b in v.slabs
    ensures InBlocks(SlabsReport(v, bs, k, sweep), bs[..k])
  {
    var x := SlabsReport(v, bs, k, sweep);
    forall i | 0 <= i < |x| ensures Base(x[i].0) in bs[..k] {
      assert x[i] in x;
      SlabsWanted(v, bs, k, sweep, x[i].0, x[i].1);
    }
  }

  lemma SlabBase(v: Store, b: Addr, sweep: bool)
    requires Placed(v) && b in v.slabs
    ensures InBlocks(Report(b, v.slabs[b], |v.slabs[b].entries|, sweep), [b])
  {
    var y := Report(b, v.slabs[b], |v.slabs[b].entries|, sweep);
    forall i | 0 <= i < |y| ensures Base(y[i].0) in [b] {
      assert y[i] in y;
      SlabWanted(v, b, sweep, y[i].0, y[i].1);
    }
  }

  lemma {:induction false} LargesOnce(v: Store, ms: seq<Addr>, k: nat, sweep: bool)
    requires Placed(v) && k <= |ms| && Distinct(ms) && forall m :: m in ms ==> m in v.large
    ensures Once(LargesReport(v.large, ms, k, sweep))
  {
    if k > 0 {
      var x := LargesReport(v.large, ms, k - 1, sweep);
      LargesOnce(v, ms, k - 1, sweep);
      forall p | p in x ensures p.0 != ms[k - 1] + LARGE_HEADER { LargesWanted(v, ms, k - 1, sweep, p.0, p.1); }
    }
  }

  lemma SmallIsNotLarge(v: Store, sweep: bool, p: (Addr, nat), q: (Addr, nat))
    requires StoreOk(v) && p in SlabsReport(v, v.blocks, |v.blocks|, sweep)
             && q in LargesReport(v.large, v.larges, |v.larges|, sweep)
    ensures p.0 != q.0
  {
    SlabsWanted(v, v.blocks, |v.blocks|, sweep, p.0, p.1);
    LargesWanted(v, v.larges, |v.larges|, sweep, q.0, q.1);
    LargeAddress(v, q.0 - LARGE_HEADER);
  }

  /** Each of them once. */
  lemma ReportOnce(v: Store, sweep: bool)
    requires StoreOk(v)
    ensures Once(StoreReport(v, sweep))
  {
    SlabsOnce(v, v.blocks, |v.blocks|, sweep);
    LargesOnce(v, v.larges, |v.larges|, sweep);
    forall p, q | p in SlabsReport(v, v.blocks, |v.blocks|, sweep)
      && q in LargesReport(v.large, v.larges, |v.larges|, sweep) ensures p.0 != q.0 {
      SmallIsNotLarge(v, sweep, p, q);
    }
    OnceJoined(SlabsReport(v, v.blocks, |v.blocks|, sweep), LargesReport(v.large, v.larges, |v.larges|, sweep));
  }

  // ----- marking -----

  function SlabChanged(v: Store, b: Addr, t: Slab): Store { v.(slabs := v.slabs[b := t]) }

  /** Replacing a slab by one with the same shape and room. */
  lemma SlabChangedKeeps(v: Store, b: Addr, t: Slab)
    requires StoreOk(v) && b in v.slabs && SlabOk(t) && t.words == v.slabs[b].words
             && |t.entries| == |v.slabs[b].entries|
    requires t.category == v.slabs[b].category && (HasSpace(t) <==> HasSpace(v.slabs[b]))
    ensures StoreOk(SlabChanged(v, b, t))
  {
    var u := SlabChanged(v, b, t);
    forall x | x in u.slabs ensures SlabPlaced(u, x) { assert SlabPlaced(v, x); }
    forall m | m in u.large ensures LargePlaced(u, m) { assert LargePlaced(v, m); }
    forall m, n | m in u.large && n in u.large && m != n ensures LargesApart(u, m, n) { assert LargesApart(v, m, n); }
    forall m, x | m in u.large && x in u.slabs ensures LargeSlabApart(u, m, x) { assert LargeSlabApart(v, m, x); }
    forall c | 0 <= c < CATEGORIES ensures ListOk(u, c, u.slabs.Keys) { assert ListOk(v, c, v.slabs.Keys); }
  }

  function LargeChanged(v: Store, m: Addr, l: Large): Store { v.(large := v.large[m := l]) }

  lemma LargeChangedKeeps(v: Store, m: Addr, l: Large)
    requires StoreOk(v) && m in v.large && l.bytes == v.large[m].bytes && l.word == v.large[m].word
    ensures StoreOk(LargeChanged(v, m, l))
  {
    var u := LargeChanged(v, m, l);
    forall x | x in u.slabs ensures SlabPlaced(u, x) { assert SlabPlaced(v, x); }
    forall x | x in u.large ensures LargePlaced(u, x) { assert LargePlaced(v, x); }
    forall x, n | x in u.large && n in u.large && x != n ensures LargesApart(u, x, n) { assert LargesApart(v, x, n); }
    forall x, b | x in u.large && b in u.slabs ensures LargeSlabApart(u, x, b) { assert LargeSlabApart(v, x, b); }
    forall c | 0 <= c < CATEGORIES ensures ListOk(u, c, u.slabs.Keys) { assert ListOk(v, c, v.slabs.Keys); }
  }

  /** The store once the object at `a` is marked, however its metadata says so. */
  ghost predicate MarkedAt(v: Store, u: Store, a: Addr) {
    forall x: Addr {:trigger ObjectAt(u, x)} ::
      ObjectAt(u, x) == if x == a && ObjectAt(v, a).Some? then Some(ObjectAt(v, a).value.(marked := true))
        else ObjectAt(v, x)
  }

  lemma MarkSlot(v: Store, a: Addr, word: nat)
    requires StoreOk(v) && ObjectAt(v, a).Some? && Header(v, a) == Some(word) && word % 2 == 1
    ensures var b := Base(word - 1);
            && b in v.slabs && word - 1 >= b + 48
            && var i := TableIndex(word - 1 - b);
               && i < |v.slabs[b].entries| && Marked(v.slabs[b].entries[i]) == ObjectAt(v, a).value.marked
               && var u := SlabChanged(v, b, WithEntry(v.slabs[b], i, SetMark(v.slabs[b].entries[i])));
                  StoreOk(u) && MarkedAt(v, u, a)
  {
    ReadBack(v, a);
    var b := Base(word - 1);
    var i := TableIndex(word - 1 - b);
    var s := v.slabs[b];
    assert SlabPlaced(v, b);
    assert EntryOk(s, i);
    SlotAddress(v, b, i);
    assert a == b + Slot(s, i);
    MarkKeeps(s, i);
    var t := WithEntry(s, i, SetMark(s.entries[i]));
    SlabChangedKeeps(v, b, t);
    IndexOfSlot(s, i);
    forall x: Addr ensures ObjectAt(SlabChanged(v, b, t), x) == if x == a
      then Some(ObjectAt(v, a).value.(marked := true)) else ObjectAt(v, x) {
      if Base(x) == b { MarkMeans(s, i, Within(x)); }
    }
  }

  lemma MarkLarge(v: Store, a: Addr, word: nat)
    requires StoreOk(v) && ObjectAt(v, a).Some? && Header(v, a) == Some(word) && word % 2 == 0
    ensures word in v.large && v.large[word].marked == ObjectAt(v, a).value.marked
    ensures var u := LargeChanged(v, word, v.large[word].(marked := true)); StoreOk(u) && MarkedAt(v, u, a)
  {
    ReadBack(v, a);
    LargeAddress(v, word);
    LargeChangedKeeps(v, word, v.large[word].(marked := true));
  }

  // ----- adopting another store -----

  ghost predicate StoresApart(v: Store, u: Store) {
    && (forall b :: b in u.slabs ==> Outside(v, b, BLOCK))
    && forall m :: m in u.large ==> Outside(v, m, Extent(u.large[m]))
  }

  function Renamed(owner: HeapId, newOwner: Option<HeapId>): HeapId { if newOwner.Some? then newOwner.value else owner }

  /** Every object of the store has a new owner, if one is given. */
  function Reowned(u: Store, newOwner: Option<HeapId>): Store {
    u.(slabs := ReownedSlabs(u.slabs, newOwner), large := ReownedLarges(u.large, newOwner))
  }

  function ReownedSlabs(slabs: map<Addr, Slab>, newOwner: Option<HeapId>): map<Addr, Slab> {
    map b | b in slabs :: slabs[b].(owner := Renamed(slabs[b].owner, newOwner))
  }

  function ReownedLarges(large: map<Addr, Large>, newOwner: Option<HeapId>): map<Addr, Large> {
    map m | m in large :: large[m].(owner := Renamed(large[m].owner, newOwner))
  }

  function Joined(v: Store, u: Store): Store
    requires |v.available| == CATEGORIES == |u.available|
  {
    Store(u.blocks + v.blocks, v.slabs + u.slabs, JoinedLists(v.available, u.available), u.larges + v.larges,
          v.large + u.large)
  }

  function JoinedLists(x: seq<seq<Addr>>, y: seq<seq<Addr>>): seq<seq<Addr>>
    requires |x| == |y|
  {
    seq(|x|, c requires 0 <= c < |x| => y[c] + x[c])
  }

  lemma ReownKeeps(u: Store, newOwner: Option<HeapId>)
    requires StoreOk(u)
    ensures StoreOk(Reowned(u, newOwner))
  {
    var w := Reowned(u, newOwner);
    forall b | b in w.slabs ensures SlabPlaced(w, b) {
      assert SlabPlaced(u, b);
      RelabelKeeps(u.slabs[b], w.slabs[b]);
    }
    forall m | m in w.large ensures LargePlaced(w, m) { assert LargePlaced(u, m); }
    forall m, n | m in w.large && n in w.large && m != n ensures LargesApart(w, m, n) { assert LargesApart(u, m, n); }
    forall m, b | m in w.large && b in w.slabs ensures LargeSlabApart(w, m, b) { assert LargeSlabApart(u, m, b); }
    forall c | 0 <= c < CATEGORIES ensures ListOk(w, c, w.slabs.Keys) { assert ListOk(u, c, u.slabs.Keys); }
  }

  function RenamedObject(o: Option<Object>, newOwner: Option<HeapId>): Option<Object> {
    if o.None? then None else Some(o.value.(owner := Renamed(o.value.owner, newOwner)))
  }

  lemma ReownMeans(u: Store, newOwner: Option<HeapId>, a: Addr)
    ensures ObjectAt(Reowned(u, newOwner), a) == RenamedObject(ObjectAt(u, a), newOwner)
  {
  }

  lemma JoinPlaced(v: Store, u: Store)
    requires StoreOk(v) && StoreOk(u) && StoresApart(v, u)
    ensures Placed(Joined(v, u))
  {
    var w := Joined(v, u);
    forall b | b in w.slabs ensures SlabPlaced(w, b) {
      if b in u.slabs { assert SlabPlaced(u, b); } else { assert SlabPlaced(v, b); }
    }
    forall m | m in w.large ensures LargePlaced(w, m) {
      if m in u.large { assert LargePlaced(u, m); } else { assert LargePlaced(v, m); }
    }
    forall m, n | m in w.large && n in w.large && m != n ensures LargesApart(w, m, n) {
      if m in u.large && n in u.large { assert LargesApart(u, m, n); }
      else if m !in u.large && n !in u.large { assert LargesApart(v, m, n); }
    }
    forall m, b | m in w.large && b in w.slabs ensures LargeSlabApart(w, m, b) {
      if m in u.large && b in u.slabs { assert LargeSlabApart(u, m, b); }
      else if m !in u.large && b !in u.slabs { assert LargeSlabApart(v, m, b); }
    }
  }

  lemma DistinctJoined(x: seq<Addr>, y: seq<Addr>)
    requires Distinct(x) && Distinct(y) && forall e :: e in x ==> e !in y
    ensures Distinct(x + y)
  {
    forall i, j | 0 <= i < j < |x + y| ensures (x + y)[i] != (x + y)[j] {
      if i < |x| <= j { assert x[i] in x && y[j - |x|] in y; }
    }
  }

  lemma JoinLists(v: Store, u: Store, c: nat)
    requires |v.available| == CATEGORIES == |u.available| && c < CATEGORIES && v.slabs.Keys !! u.slabs.Keys
    requires ListOk(v, c, v.slabs.Keys) && ListOk(u, c, u.slabs.Keys)
    ensures ListOk(Joined(v, u), c, Joined(v, u).slabs.Keys)
  {
    DistinctJoined(u.available[c], v.available[c]);
  }

  /** Two disjoint stores in one keep their order. */
  lemma JoinKeeps(v: Store, u: Store)
    requires StoreOk(v) && StoreOk(u) && StoresApart(v, u)
    ensures StoreOk(Joined(v, u))
  {
    var w := Joined(v, u);
    JoinPlaced(v, u);
    forall b | b in u.slabs ensures b !in v.slabs { }
    forall m | m in u.large ensures m !in v.large { assert LargePlaced(u, m); }
    forall c | 0 <= c < CATEGORIES ensures ListOk(w, c, w.slabs.Keys) {
      assert ListOk(v, c, v.slabs.Keys) && ListOk(u, c, u.slabs.Keys);
      JoinLists(v, u, c);
    }
    DistinctJoined(u.blocks, v.blocks);
    DistinctJoined(u.larges, v.larges);
  }

  /** Adoption is a disjoint union that moves nothing. */
  lemma JoinMeans(v: Store, u: Store, a: Addr)
    requires StoreOk(v) && StoreOk(u) && StoresApart(v, u)
    ensures ObjectAt(Joined(v, u), a) == if ObjectAt(u, a).Some? then ObjectAt(u, a) else ObjectAt(v, a)
    ensures ObjectAt(u, a).None? || ObjectAt(v, a).None?
  {
    var m := a - LARGE_HEADER;
    if a >= LARGE_HEADER && m in u.large { LargeAddress(u, m); assert LargePlaced(u, m); }
    if a >= LARGE_HEADER && m in v.large { LargeAddress(v, m); assert LargePlaced(v, m); }
  }

  /** `u` is `v` with one more object, at an address that held none. */
  ghost predicate Adds(v: Store, u: Store, r: Addr, o: Object) {
    ObjectAt(v, r).None? && forall a: Addr {:trigger ObjectAt(u, a)} :: ObjectAt(u, a) == if a == r then Some(o)
      else ObjectAt(v, a)
  }

  /** The first slab with room in a class hands out an address nothing lives at. */
  lemma SmallAdds(v: Store, c: nat, bytes: nat)
    requires StoreOk(v) && c < CATEGORIES && v.available[c] != [] && 16 <= bytes <= SlotBytes(c)
    ensures var b: Addr := v.available[c][0];
            && b in v.slabs && v.slabs[b].category == c && NextSlot(v.slabs[b]) <= |v.slabs[b].entries|
            && StoreOk(SmallAdded(v, b, bytes))
            && Adds(v, SmallAdded(v, b, bytes), b + Slot(v.slabs[b], NextSlot(v.slabs[b])),
                    Object(bytes, v.slabs[b].owner, false))
  {
    var b: Addr := v.available[c][0];
    assert ListOk(v, c, v.slabs.Keys) && b in v.available[c];
    SmallAddedKeeps(v, b, bytes);
    assert v.slabs[b].category == c;
    SlotAdds(v, b, bytes);
  }

  lemma SlotAdds(v: Store, b: Addr, bytes: nat)
    requires Placed(v) && b in v.slabs && HasSpace(v.slabs[b]) && 16 <= bytes <= SlotBytes(v.slabs[b].category)
             && |v.available| == CATEGORIES
    requires NextSlot(v.slabs[b]) <= |v.slabs[b].entries| && v.slabs[b].category < CATEGORIES
    ensures Adds(v, SmallAdded(v, b, bytes), b + Slot(v.slabs[b], NextSlot(v.slabs[b])),
                 Object(bytes, v.slabs[b].owner, false))
  {
    var r := b + Slot(v.slabs[b], NextSlot(v.slabs[b]));
    SmallAddedMeans(v, b, bytes, 0);
    forall a: Addr ensures ObjectAt(SmallAdded(v, b, bytes), a) == if a == r
      then Some(Object(bytes, v.slabs[b].owner, false)) else ObjectAt(v, a) {
      SmallAddedMeans(v, b, bytes, a);
    }
  }

  lemma LargeAdds(v: Store, m: Addr, l: Large)
    requires StoreOk(v) && m > 0 && m % 16 == 0 && l.bytes > 0 && l.word == m && Outside(v, m, Extent(l))
    ensures StoreOk(LargeAdded(v, m, l))
            && Adds(v, LargeAdded(v, m, l), m + LARGE_HEADER, Object(l.bytes, l.owner, l.marked))
  {
    LargeAddedKeeps(v, m, l);
    LargeAddedMeans(v, m, l, 0);
    forall a: Addr ensures ObjectAt(LargeAdded(v, m, l), a) == if a == m + LARGE_HEADER
      then Some(Object(l.bytes, l.owner, l.marked)) else ObjectAt(v, a) {
      LargeAddedMeans(v, m, l, a);
    }
  }

  lemma ReownApart(v: Store, u: Store, newOwner: Option<HeapId>)
    requires StoresApart(v, u)
    ensures StoresApart(v, Reowned(u, newOwner))
  {
    var w := Reowned(u, newOwner);
    forall m | m in w.large ensures Outside(v, m, Extent(w.large[m])) { assert m in u.large; }
  }

  /** `w` holds what `v` and `u` held, the latter with a new owner if one is given, all at their old addresses. */
  ghost predicate Adopted(v: Store, u: Store, newOwner: Option<HeapId>, w: Store) {
    forall a: Addr {:trigger ObjectAt(w, a)} ::
      && (ObjectAt(u, a).None? || ObjectAt(v, a).None?)
      && ObjectAt(w, a) == if ObjectAt(u, a).Some? then RenamedObject(ObjectAt(u, a), newOwner) else ObjectAt(v, a)
  }

  lemma AdoptOk(v: Store, u: Store, newOwner: Option<HeapId>)
    requires StoreOk(v) && StoreOk(u) && StoresApart(v, u)
    ensures var w := Joined(v, Reowned(u, newOwner)); StoreOk(w) && Adopted(v, u, newOwner, w)
  {
    ReownKeeps(u, newOwner);
    ReownApart(v, u, newOwner);
    JoinKeeps(v, Reowned(u, newOwner));
    forall a: Addr
      ensures ObjectAt(u, a).None? || ObjectAt(v, a).None?
      ensures ObjectAt(Joined(v, Reowned(u, newOwner)), a) == if ObjectAt(u, a).Some?
              then RenamedObject(ObjectAt(u, a), newOwner) else ObjectAt(v, a)
    {
      ReownMeans(u, newOwner, a);
      JoinMeans(v, Reowned(u, newOwner), a);
    }
  }

  ghost predicate SlabsRenamed(was: map<Addr, Slab>, now: map<Addr, Slab>, done: seq<Addr>, newOwner: Option<HeapId>) {
    && now.Keys == was.Keys
    && forall b :: b in was ==> now[b] == if b in done then was[b].(owner := Renamed(was[b].owner, newOwner))
       else was[b]
  }

  lemma RenameSlab(was: map<Addr, Slab>, now: map<Addr, Slab>, bs: seq<Addr>, k: nat, newOwner: Option<HeapId>)
    requires k < |bs| && Distinct(bs) && (forall b :: b in bs <==> b in was)
             && SlabsRenamed(was, now, bs[..k], newOwner)
    ensures bs[k] in now && bs[k] in was
    ensures SlabsRenamed(was, if newOwner.Some? then now[bs[k] := now[bs[k]].(owner := newOwner.value)]
            else now, bs[..k + 1], newOwner)
  {
    assert bs[k] in bs;
    assert bs[..k + 1] == bs[..k] + [bs[k]];
  }

  ghost predicate LargesRenamed(was: map<Addr, Large>, now: map<Addr, Large>, done: seq<Addr>,
                                newOwner: Option<HeapId>) {
    && now.Keys == was.Keys
    && forall m :: m in was ==> now[m] == if m in done then was[m].(owner := Renamed(was[m].owner, newOwner))
       else was[m]
  }

  lemma RenameLarge(was: map<Addr, Large>, now: map<Addr, Large>, ms: seq<Addr>, k: nat, newOwner: Option<HeapId>)
    requires k < |ms| && ListsAll(ms, was) && LargesRenamed(was, now, ms[..k], newOwner)
    ensures ms[k] in now && ms[k] in was
    ensures LargesRenamed(was, if newOwner.Some? then now[ms[k] := now[ms[k]].(owner := newOwner.value)]
            else now, ms[..k + 1], newOwner)
  {
    assert ms[k] in ms;
    assert ms[..k + 1] == ms[..k] + [ms[k]];
  }

  // ----- the loop of a sweep -----

  /** The first `k` slabs have been swept and `kept` lists those that remain. */
  ghost predicate SweepProgress(v: Store, u: Store, kept: seq<Addr>, k: nat)
    requires k <= |v.blocks|
  {
    && SlabsSwept(v, u, Members(v.blocks[..k]))
    && Distinct(kept) && forall b :: b in kept <==> b in v.blocks[..k] && b in u.slabs
  }

  lemma SweepStarts(v: Store)
    ensures SweepProgress(v, v.(available := EMPTY_LISTS), [], 0)
  {
    var u := v.(available := EMPTY_LISTS);
    forall c | 0 <= c < CATEGORIES ensures ListOk(u, c, Members(v.blocks[..0])) { assert u.available[c] == []; }
  }

  lemma NextPending(v: Store, u: Store, kept: seq<Addr>, k: nat)
    requires StoreOk(v) && k < |v.blocks| && SweepProgress(v, u, kept, k)
    ensures var b := v.blocks[k];
            && b in v.slabs && b !in v.blocks[..k] && b in u.slabs && u.slabs[b] == v.slabs[b] && SlabOk(v.slabs[b])
            && v.slabs[b].category < CATEGORIES && |u.available| == CATEGORIES
            && SlabsReport(v, v.blocks, k + 1, true) ==
                 SlabsReport(v, v.blocks, k, true) + Report(b, v.slabs[b], |v.slabs[b].entries|, true)
  {
    assert v.blocks[k] in v.blocks;
    assert SlabPlaced(v, v.blocks[k]);
  }

  lemma SweepProgresses(v: Store, u: Store, kept: seq<Addr>, k: nat, t: Slab)
    requires k < |v.blocks| && SweepProgress(v, u, kept, k) && v.blocks[k] in v.slabs && v.blocks[k] !in v.blocks[..k]
    requires SlabOk(t) && t.category < CATEGORIES && SweptTo(v.slabs[v.blocks[k]], t, |v.slabs[v.blocks[k]].entries|)
    ensures SweepProgress(v, BlockSwept(u, v.blocks[k], t), if t.live == 0 then kept else kept + [v.blocks[k]], k + 1)
  {
    BlockSweptStep(v, u, Members(v.blocks[..k]), v.blocks[k], t);
    MembersGrow(v.blocks, k);
    KeptStep(v, u, kept, k, t);
  }

  lemma KeptStep(v: Store, u: Store, kept: seq<Addr>, k: nat, t: Slab)
    requires k < |v.blocks| && v.blocks[k] !in v.blocks[..k] && t.category < |u.available|
    requires Distinct(kept) && forall b :: b in kept <==> b in v.blocks[..k] && b in u.slabs
    ensures var b, next := v.blocks[k], if t.live == 0 then kept else kept + [v.blocks[k]];
            Distinct(next) && forall x :: x in next <==> x in v.blocks[..k + 1] && x in BlockSwept(u, b, t).slabs
  {
    assert v.blocks[..k + 1] == v.blocks[..k] + [v.blocks[k]];
  }

  lemma SweepEnds(v: Store, u: Store, kept: seq<Addr>)
    requires StoreOk(v) && SweepProgress(v, u, kept, |v.blocks|)
    ensures SlabsSwept(v, u.(blocks := kept), v.slabs.Keys) && (forall b :: b in kept <==> b in u.slabs)
  {
    var w := u.(blocks := kept);
    assert Members(v.blocks[..|v.blocks|]) == v.slabs.Keys;
    forall b | b in v.slabs ensures SweptSlab(v, w, b) { assert SweptSlab(v, u, b); }
    forall c | 0 <= c < CATEGORIES ensures ListOk(w, c, v.slabs.Keys) { assert ListOk(u, c, v.slabs.Keys); }
  }

  function LargeSwept(large: map<Addr, Large>, m: Addr): map<Addr, Large> {
    if m !in large then large else if large[m].marked then large[m := large[m].(marked := false)] else large - {m}
  }

  /** The large objects once the first `k` have been swept. */
  function LargeRest(ms: seq<Addr>, large: map<Addr, Large>, k: nat): map<Addr, Large>
    requires k <= |ms|
  {
    if k == 0 then large else LargeSwept(LargeRest(ms, large, k - 1), ms[k - 1])
  }

  /** The marked ones among the first `k`. */
  function LargeKept(ms: seq<Addr>, large: map<Addr, Large>, k: nat): seq<Addr>
    requires k <= |ms|
  {
    if k == 0 then []
    else if ms[k - 1] in large && large[ms[k - 1]].marked then LargeKept(ms, large, k - 1) + [ms[k - 1]]
    else LargeKept(ms, large, k - 1)
  }

  lemma {:induction false} LargeRestMeans(ms: seq<Addr>, large: map<Addr, Large>, k: nat, m: Addr)
    requires Distinct(ms) && k <= |ms|
    ensures var rest, done := LargeRest(ms, large, k), m in ms[..k];
            && (m in rest <==> m in large && (done ==> large[m].marked))
            && (m in rest ==> rest[m] == if done then large[m].(marked := false) else large[m])
  {
    if k > 0 {
      assert ms[..k] == ms[..k - 1] + [ms[k - 1]];
      LargeRestMeans(ms, large, k - 1, m);
    }
  }

  lemma {:induction false} LargeKeptMeans(ms: seq<Addr>, large: map<Addr, Large>, k: nat)
    requires Distinct(ms) && k <= |ms|
    ensures var kept := LargeKept(ms, large, k); Distinct(kept) && forall m :: m in kept <==>
              m in ms[..k] && m in large && large[m].marked
  {
    if k > 0 {
      assert ms[..k] == ms[..k - 1] + [ms[k - 1]];
      LargeKeptMeans(ms, large, k - 1);
    }
  }

  lemma LargeEnds(ms: seq<Addr>, large: map<Addr, Large>)
    requires ListsAll(ms, large)
    ensures var kept, rest := LargeKept(ms, large, |ms|), LargeRest(ms, large, |ms|);
            ListsAll(kept, rest) && LargesSwept(large, rest)
  {
    var rest := LargeRest(ms, large, |ms|);
    assert ms[..|ms|] == ms;
    LargeKeptMeans(ms, large, |ms|);
    forall m: Addr ensures (m in rest <==> m in large && large[m].marked)
      && (m in rest ==> rest[m] == large[m].(marked := false)) {
      LargeRestMeans(ms, large, |ms|, m);
    }
  }

  /** Both halves of a sweep. */
  lemma SweepDone(v: Store, w: Store, u: Store)
    requires StoreOk(v) && SlabsSwept(v, w, v.slabs.Keys) && u == w.(larges := u.larges, large := u.large)
             && LargesSwept(v.large, u.large) && Linked(u)
    ensures StoreOk(u) && forall a: Addr :: ObjectAt(u, a) == Survivor(ObjectAt(v, a))
    ensures forall b :: b in u.slabs ==> u.slabs[b].live > 0
  {
    forall b | b in v.slabs ensures SweptSlab(v, u, b) { assert SweptSlab(v, w, b); }
    forall c | 0 <= c < CATEGORIES ensures ListOk(u, c, v.slabs.Keys) { assert ListOk(w, c, v.slabs.Keys); }
    SweptKeeps(v, u);
    forall a: Addr ensures ObjectAt(u, a) == Survivor(ObjectAt(v, a)) { SweptObjects(v, u, a); }
  }

  /** Sweep the large objects in order. */
  method SweepLarges(ms: seq<Addr>, large: map<Addr, Large>)
    returns (kept: seq<Addr>, rest: map<Addr, Large>, gone: Listing, objects: nat, bytes: nat)
    requires ListsAll(ms, large)
    ensures ListsAll(kept, rest) && LargesSwept(large, rest)
    ensures gone == LargesReport(large, ms, |ms|, true) && objects == |gone| && bytes == Bytes(gone)
  {
    kept, rest, gone, objects, bytes := [], large, [], 0, 0;
    for k := 0 to |ms|
      invariant rest == LargeRest(ms, large, k) && kept == LargeKept(ms, large, k)
      invariant gone == LargesReport(large, ms, k, true) && objects == |gone| && bytes == Bytes(gone)
    {
      var m := ms[k];
      LargeRestMeans(ms, large, k, m);
      assert m in ms && m !in ms[..k];
      var l := rest[m];
      if l.marked {
        rest := rest[m := l.(marked := false)];
        kept := kept + [m];
      } else {
        gone, objects, bytes := Count(gone, objects, bytes, m + LARGE_HEADER, l.bytes);
        rest := rest - {m};
      }
    }
    LargeEnds(ms, large);
  }

  lemma {:induction false} BytesJoined(x: Listing, y: Listing)
    ensures Bytes(x + y) == Bytes(x) + Bytes(y)
  {
    if |y| == 0 {
      assert x + y == x;
    } else {
      BytesJoined(x, y[..|y| - 1]);
      assert (x + y)[..|x + y| - 1] == x + y[..|y| - 1];
    }
  }

  // ----- the storage object -----

  const EMPTY_LISTS: seq<seq<Addr>> := [[], [], [], [], [], []]

  const EMPTY: Store := Store([], map[], EMPTY_LISTS, [], map[])

  lemma EmptyOk()
    ensures StoreOk(EMPTY)
  {
    forall c | 0 <= c < CATEGORIES ensures ListOk(EMPTY, c, EMPTY.slabs.Keys) { assert EMPTY.available[c] == []; }
  }

  /** What the system may answer a request for memory with. */
  ghost predicate Granted(v: Store, bytes: nat, memory: Option<Addr>) {
    memory.Some? ==>
      && memory.value > 0
      && if bytes > SlotBytes(CATEGORIES - 1)
         then memory.value % 16 == 0 && Outside(v, memory.value, LARGE_HEADER + bytes)
         else Within(memory.value) == 0 && Outside(v, memory.value, BLOCK)
  }

  class Storage {
    var blocks: seq<Addr>
    var slabs: map<Addr, Slab>
    var available: seq<seq<Addr>>
    var larges: seq<Addr>
    var large: map<Addr, Large>

    ghost function State(): Store
      reads this
    {
      Store(blocks, slabs, available, larges, large)
    }

    ghost predicate Valid()
      reads this
    {
      StoreOk(State())
    }

    constructor ()
      ensures Valid() && State() == EMPTY
    {
      blocks, slabs, available, larges, large := [], map[], EMPTY_LISTS, [], map[];
      new;
      EmptyOk();
    }

    method AllocateLarge(bytes: nat, owner: HeapId, memory: Option<Addr>) returns (r: Option<Addr>)
      requires Valid() && bytes > SlotBytes(CATEGORIES - 1) && Granted(State(), bytes, memory)
      modifies this`larges, this`large
      ensures Valid() && (r.None? <==> memory.None? || bytes > MAX_SIZE - LARGE_HEADER)
      ensures if r.None? then State() == old(State())
              else Adds(old(State()), State(), r.value, Object(bytes, owner, false))
    {
      if bytes > MAX_SIZE - LARGE_HEADER || memory.None? { return None; }
      var m := memory.value;
      LargeAdds(State(), m, Large(owner, bytes, false, m));
      larges := [m] + larges;
      large := large[m := Large(owner, bytes, false, m)];
      r := Some(m + LARGE_HEADER);
    }

    /** A fresh slab for a class that has no room left. */
    method AddSlab(b: Addr, owner: HeapId, c: nat)
      requires Valid() && c < CATEGORIES && available[c] == [] && b > 0 && Within(b) == 0 && Outside(State(), b, BLOCK)
      modifies this`blocks, this`slabs, this`available
      ensures Valid() && b in slabs && slabs[b].owner == owner && slabs[b].category == c && available[c] == [b]
      ensures forall a: Addr :: ObjectAt(State(), a) == ObjectAt(old(State()), a)
    {
      var capacity := Capacity(SlotBytes(c));
      EmptySlabOk(owner, c, capacity);
      SlabAddedKeeps(State(), b, EmptySlab(owner, c, capacity));
      blocks := [b] + blocks;
      slabs := slabs[b := EmptySlab(owner, c, capacity)];
      available := available[c := [b]];
      assert State() == SlabAdded(old(State()), b, EmptySlab(owner, c, capacity));
    }

    /** Hand out a slot of the first slab with room in a class. */
    method AllocateSlot(bytes: nat, c: nat) returns (r: Addr)
      requires Valid() && c < CATEGORIES && available[c] != [] && 16 <= bytes <= SlotBytes(c)
      modifies this`slabs, this`available
      ensures Valid() && old(available[c][0] in slabs)
      ensures Adds(old(State()), State(), r, Object(bytes, old(slabs[available[c][0]].owner), false))
    {
      SmallAdds(State(), c, bytes);
      var b := available[c][0];
      var s := slabs[b];
      var i := NextSlot(s);
      var t := Filled(s, bytes).(words := WithWord(s.words, i, EntryAddress(b, i) + 1));
      slabs := slabs[b := t];
      if !HasSpace(t) { available := available[c := available[c][1..]]; }
      assert State() == SmallAdded(old(State()), b, bytes);
      r := b + Slot(s, i);
    }

    /**
     * Memory for an object, if the system has it: a large object gets its own, a small one a slot. It is asked
     * on behalf of the heap that owns the slabs it uses.
     */
    method Allocate(bytes: nat, owner: HeapId, memory: Option<Addr>) returns (r: Option<Addr>)
      requires Valid() && bytes >= 16 && Granted(State(), bytes, memory)
      requires forall c: nat :: InClass(c, bytes) && available[c] != [] ==>
                 available[c][0] in slabs && slabs[available[c][0]].owner == owner
      modifies this
      ensures Valid()
      ensures if r.None? then State() == old(State())
              else Adds(old(State()), State(), r.value, Object(bytes, owner, false))
      ensures memory.Some? && bytes <= MAX_SIZE - LARGE_HEADER ==> r.Some?
    {
      var c := SizeClass(bytes);
      if c == CATEGORIES {
        r := AllocateLarge(bytes, owner, memory);
        return;
      }
      if available[c] == [] {
        if memory.None? { return None; }
        AddSlab(memory.value, owner, c);
      }
      var a := AllocateSlot(bytes, c);
      r := Some(a);
    }
  
    /** Mark a live object; true the first time. */
    method Mark(a: Addr) returns (first: bool)
      requires Valid() && ObjectAt(State(), a).Some?
      modifies this`slabs, this`large
      ensures Valid() && MarkedAt(old(State()), State(), a) && first == !old(ObjectAt(State(), a).value.marked)
    {
      ReadBack(State(), a);
      var word := HeaderWord(a);
      if word % 2 == 1 {
        MarkSlot(State(), a, word);
        var b := Base(word - 1);
        var i := TableIndex(word - 1 - b);
        first := !Marked(slabs[b].entries[i]);
        slabs := slabs[b := WithEntry(slabs[b], i, SetMark(slabs[b].entries[i]))];
      } else {
        MarkLarge(State(), a, word);
        first := !large[word].marked;
        large := large[word := large[word].(marked := true)];
      }
    }

    /** The first word of the memory at an object's address. */
    method HeaderWord(a: Addr) returns (word: nat)
      requires Header(State(), a).Some?
      ensures Header(State(), a) == Some(word)
    {
      if Base(a) in slabs {
        var s := slabs[Base(a)];
        word := s.words[SlotIndex(s.category, s.objectOffset, Within(a)).value];
      } else {
        word := large[a - LARGE_HEADER].word;
      }
    }

    /** Give an empty slab back, and list one that has room. */
    method Settle(b: Addr, t: Slab)
      requires t.category < |available|
      modifies this`slabs, this`available
      ensures State() == BlockSwept(old(State()), b, t)
    {
      if t.live == 0 {
        slabs := slabs - {b};
      } else {
        slabs := slabs[b := t];
        if HasSpace(t) { available := available[t.category := [b] + available[t.category]]; }
      }
    }

    /** Sweep the next slab in order. */
    method SweepNext(ghost v: Store, ghost k: nat, b: Addr, kept0: seq<Addr>, gone0: Listing, objects0: nat,
                     bytes0: nat)
      returns (kept: seq<Addr>, gone: Listing, objects: nat, bytes: nat)
      requires StoreOk(v) && k < |v.blocks| && b == v.blocks[k] && SweepProgress(v, State(), kept0, k)
      requires gone0 == SlabsReport(v, v.blocks, k, true) && objects0 == |gone0| && bytes0 == Bytes(gone0)
      modifies this`slabs, this`available
      ensures SweepProgress(v, State(), kept, k + 1)
      ensures gone == SlabsReport(v, v.blocks, k + 1, true) && objects == |gone| && bytes == Bytes(gone)
    {
      NextPending(v, State(), kept0, k);
      var t: Slab;
      t, gone, objects, bytes := SweepSlab(b, slabs[b], gone0, objects0, bytes0);
      SweepProgresses(v, State(), kept0, k, t);
      kept := if t.live > 0 then kept0 + [b] else kept0;
      Settle(b, t);
    }

    /** Sweep the slabs in order, rebuilding the lists of slabs with room. */
    method SweepSlabs() returns (gone: Listing, objects: nat, bytes: nat)
      requires Valid()
      modifies this`blocks, this`slabs, this`available
      ensures SlabsSwept(old(State()), State(), old(slabs).Keys) && Distinct(blocks) && forall b :: b in blocks <==>
                b in slabs
      ensures gone == SlabsReport(old(State()), old(blocks), |old(blocks)|, true) && objects == |gone|
              && bytes == Bytes(gone)
    {
      ghost var v := State();
      gone, objects, bytes := [], 0, 0;
      available := EMPTY_LISTS;
      var kept: seq<Addr> := [];
      SweepStarts(v);
      for k := 0 to |blocks|
        invariant blocks == v.blocks && SweepProgress(v, State(), kept, k)
        invariant gone == SlabsReport(v, v.blocks, k, true) && objects == |gone| && bytes == Bytes(gone)
      {
        kept, gone, objects, bytes := SweepNext(v, k, blocks[k], kept, gone, objects, bytes);
      }
      SweepEnds(v, State(), kept);
      blocks := kept;
    }

    /**
     * Reclaim exactly the objects without a mark and clear the marks of the others. The result lists what the caller
     * is told about: every reclaimed object, once, with its size.
     */
    method Sweep() returns (gone: Listing, objects: nat, bytes: nat)
      requires Valid()
      modifies this
      ensures Valid() && forall a: Addr :: ObjectAt(State(), a) == Survivor(ObjectAt(old(State()), a))
      ensures gone == StoreReport(old(State()), true) && objects == |gone| && bytes == Bytes(gone)
      ensures forall b :: b in slabs ==> slabs[b].live > 0
    {
      gone, objects, bytes := SweepSlabs();
      ghost var w := State();
      var kept, rest, more, objects', bytes' := SweepLarges(larges, large);
      larges, large := kept, rest;
      BytesJoined(gone, more);
      gone, objects, bytes := gone + more, objects + objects', bytes + bytes';
      SweepDone(old(State()), w, State());
    }
  
    /** The live objects of one slab. */
    method VisitSlab(b: Addr, before: Listing) returns (list: Listing)
      requires b in slabs
      ensures list == before + Report(b, slabs[b], |slabs[b].entries|, false)
    {
      list := before;
      var s := slabs[b];
      for i := 0 to |s.entries|
        invariant list == before + Report(b, s, i, false)
      {
        ReportStep(b, s, i, before, false);
        if Allocated(s.entries[i]) {
          var a: Addr := b + Slot(s, i);
          list := list + [(a, s.entries[i].bytes)];
        }
      }
    }

    /** Every live object, once, with its size. */
    method Visit() returns (list: Listing)
      requires Valid()
      ensures list == StoreReport(State(), false)
    {
      list := [];
      for k := 0 to |blocks|
        invariant list == SlabsReport(State(), blocks, k, false)
      {
        assert blocks[k] in blocks;
        list := VisitSlab(blocks[k], list);
      }
      ghost var small := list;
      for k := 0 to |larges|
        invariant list == small + LargesReport(large, larges, k, false)
      {
        var m := larges[k];
        assert m in larges;
        var a: Addr := m + LARGE_HEADER;
        list := list + [(a, large[m].bytes)];
      }
    }

    method ReownSlabs(newOwner: Option<HeapId>)
      requires Distinct(blocks) && forall b :: b in blocks <==> b in slabs
      modifies this`slabs
      ensures slabs == ReownedSlabs(old(slabs), newOwner)
    {
      for k := 0 to |blocks|
        invariant SlabsRenamed(old(slabs), slabs, blocks[..k], newOwner)
      {
        RenameSlab(old(slabs), slabs, blocks, k, newOwner);
        var b := blocks[k];
        if newOwner.Some? { slabs := slabs[b := slabs[b].(owner := newOwner.value)]; }
      }
      assert blocks[..|blocks|] == blocks;
    }

    method ReownLarges(newOwner: Option<HeapId>)
      requires ListsAll(larges, large)
      modifies this`large
      ensures large == ReownedLarges(old(large), newOwner)
    {
      for k := 0 to |larges|
        invariant LargesRenamed(old(large), large, larges[..k], newOwner)
      {
        RenameLarge(old(large), large, larges, k, newOwner);
        var m := larges[k];
        if newOwner.Some? { large := large[m := large[m].(owner := newOwner.value)]; }
      }
      assert larges[..|larges|] == larges;
    }

    /** Append this storage's lists of slabs with room to those of another, and take them. */
    method JoinLists(other: Storage)
      requires other != this && |available| == CATEGORIES == |other.available|
      modifies this`available, other`available
      ensures available == JoinedLists(old(available), old(other.available)) && other.available == EMPTY_LISTS
    {
      for c := 0 to CATEGORIES
        invariant |available| == CATEGORIES == |other.available|
        invariant forall i :: 0 <= i < CATEGORIES ==> available[i] == if i < c
                  then old(other.available)[i] + old(available)[i] else old(available)[i]
        invariant forall i :: 0 <= i < CATEGORIES ==> other.available[i] == if i < c then []
                  else old(other.available)[i]
      {
        available := available[c := other.available[c] + available[c]];
        other.available := other.available[c := []];
      }
    }

    /** Take over everything in another storage, at its addresses. */
    method Adopt(other: Storage, newOwner: Option<HeapId>)
      requires Valid() && other.Valid() && other != this && StoresApart(State(), other.State())
      modifies this, other
      ensures Valid() && other.Valid() && other.State() == EMPTY
      ensures Adopted(old(State()), old(other.State()), newOwner, State())
    {
      AdoptOk(State(), other.State(), newOwner);
      other.ReownSlabs(newOwner);
      other.ReownLarges(newOwner);
      blocks, slabs := other.blocks + blocks, slabs + other.slabs;
      other.blocks, other.slabs := [], map[];
      larges, large := other.larges + larges, large + other.large;
      other.larges, other.large := [], map[];
      JoinLists(other);
      assert State() == Joined(old(State()), Reowned(old(other.State()), newOwner));
      EmptyOk();
    }

    /** Give everything back. */
    method Clear()
      requires Valid()
      modifies this
      ensures Valid() && State() == EMPTY
    {
      while blocks != []
        invariant forall b :: b in slabs ==> b in blocks
        invariant forall m :: m in large ==> m in larges
        decreases |blocks|
      {
        assert blocks == [blocks[0]] + blocks[1..];
        slabs := slabs - {blocks[0]};
        blocks := blocks[1..];
      }
      while larges != []
        invariant slabs == map[] && blocks == []
        invariant forall m :: m in large ==> m in larges
        decreases |larges|
      {
        assert larges == [larges[0]] + larges[1..];
        large := large - {larges[0]};
        larges := larges[1..];
      }
      available := EMPTY_LISTS;
      EmptyOk();
    }
  }
}
