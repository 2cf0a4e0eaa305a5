/** The collector's map of objects is what the storage holds: allocation, marking, sweeping and adoption agree. */
module StorageRefinement {
  import opened Ir
  import opened Totals
  import opened ManagedStorage
  import Collector
  import Slabs

  type Addr = Slabs.Addr

  /** The storage holds exactly the objects of a heap, at their addresses and with their sizes, and marks `marks`. */
  ghost predicate Represents(v: Store, owner: Slabs.HeapId, store: Collector.Store, marks: set<Addr>) {
    && marks <= store.Keys
    && forall a: Addr {:trigger ObjectAt(v, a)} :: ObjectAt(v, a) == View(owner, store, marks, a)
  }

  ghost function View(owner: Slabs.HeapId, store: Collector.Store, marks: set<Addr>, a: Addr): Option<Slabs.Object> {
    if a in store then Some(Slabs.Object(store[a].bytes, owner, a in marks)) else None
  }

  /** What the storage hands out is a new address of the heap. */
  lemma AllocationRefines(v: Store, u: Store, owner: Slabs.HeapId, store: Collector.Store, marks: set<Addr>, r: Addr,
                          cell: Collector.Cell)
    requires Represents(v, owner, store, marks) && Adds(v, u, r, Slabs.Object(cell.bytes, owner, false))
    ensures r !in store && Represents(u, owner, store[r := cell], marks)
  {
    assert ObjectAt(v, r) == View(owner, store, marks, r);
    forall a: Addr ensures ObjectAt(u, a) == View(owner, store[r := cell], marks, a) {
      assert ObjectAt(v, a) == View(owner, store, marks, a);
    }
  }

  /** A mark in the storage is a mark in the heap. */
  lemma MarkRefines(v: Store, u: Store, owner: Slabs.HeapId, store: Collector.Store, marks: set<Addr>, a: Addr)
    requires Represents(v, owner, store, marks) && a in store && MarkedAt(v, u, a)
    ensures Represents(u, owner, store, marks + {a}) && ObjectAt(v, a).Some?
    ensures ObjectAt(v, a).value.marked <==> a in marks
  {
    assert ObjectAt(v, a) == View(owner, store, marks, a);
    forall x: Addr ensures ObjectAt(u, x) == View(owner, store, marks + {a}, x) {
      assert ObjectAt(v, x) == View(owner, store, marks, x);
    }
  }

  // ----- sweeping -----

  /** The list names every entry of the map and nothing else. */
  ghost predicate Names(list: Listing, m: map<Addr, nat>) {
    forall a: Addr, n: nat :: (a, n) in list <==> a in m && m[a] == n
  }

  /** A list that names every entry of a map once has its length and its sum. */
  lemma {:induction false} ListingTotals(list: Listing, m: map<Addr, nat>)
    requires Once(list) && Names(list, m)
    ensures |m| == |list| && Total<Addr>(m) == Slabs.Bytes(list)
    decreases |list|
  {
    if |list| == 0 {
      if a :| a in m { EntryIsNamed(list, m, a); }
    } else {
      var last, rest := list[|list| - 1], list[..|list| - 1];
      assert (last.0, last.1) in list && m[last.0] == last.1;
      assert Names(rest, m - {last.0}) by {
        forall a: Addr, n: nat ensures (a, n) in rest <==> a in m - {last.0} && (m - {last.0})[a] == n {
          RestListed(list, m, a, n);
        }
      }
      ListingTotals(rest, m - {last.0});
      TotalWithout<Addr>(m, last.0);
      assert Slabs.Bytes(list) == Slabs.Bytes(rest) + last.1;
      assert m.Keys == (m - {last.0}).Keys + {last.0};
      assert |m.Keys| == |(m - {last.0}).Keys| + 1;
    }
  }

  lemma EntryIsNamed(list: Listing, m: map<Addr, nat>, a: Addr)
    requires Names(list, m) && a in m
    ensures |list| > 0
  {
    assert (a, m[a]) in list;
  }

  lemma RestListed(list: Listing, m: map<Addr, nat>, a: Addr, n: nat)
    requires |list| > 0 && Once(list) && ((a, n) in list <==> a in m && m[a] == n)
    ensures var x := list[|list| - 1].0; (a, n) in list[..|list| - 1] <==> a in m && a != x && m[a] == n
  {
    var rest := list[..|list| - 1];
    if (a, n) in rest {
      var i :| 0 <= i < |rest| && rest[i] == (a, n);
      assert list[i] == (a, n);
    }
    if (a, n) in list && a != list[|list| - 1].0 {
      var i :| 0 <= i < |list| && list[i] == (a, n);
      assert rest[i] == (a, n);
    }
  }

  /** What a sweep reports are the unmarked objects of the heap and their sizes. */
  lemma ReportIsUnmarked(v: Store, owner: Slabs.HeapId, store: Collector.Store, marks: set<Addr>, a: Addr, n: nat)
    requires StoreOk(v) && Represents(v, owner, store, marks)
    ensures (a, n) in StoreReport(v, true) <==> a in store && a !in marks && store[a].bytes == n
  {
    ReportExact(v, true, a, n);
    assert ObjectAt(v, a) == View(owner, store, marks, a);
  }

  lemma PartCounts(store: Collector.Store, marks: set<Addr>)
    requires marks <= store.Keys
    ensures |store| == |Collector.Kept(store, marks)| + |Collector.Sizes(store) - marks|
  {
    var rest := Collector.Sizes(store) - marks;
    assert Collector.Kept(store, marks).Keys == marks;
    assert rest.Keys == store.Keys - marks;
    assert |store.Keys - marks| == |store.Keys| - |marks|;
    assert |rest| == |rest.Keys|;
  }

  lemma PartTotals(store: Collector.Store, marks: set<Addr>)
    requires marks <= store.Keys
    ensures Total(Collector.Sizes(store)) ==
            Total(Collector.Sizes(Collector.Kept(store, marks))) + Total(Collector.Sizes(store) - marks)
  {
    var sizes := Collector.Sizes(store);
    TotalSplits(sizes, marks);
    SizesOfPart(store, marks);
  }

  lemma SizesOfPart(store: Collector.Store, marks: set<Addr>)
    requires marks <= store.Keys
    ensures var sizes := Collector.Sizes(store);
            sizes - (sizes.Keys - marks) == Collector.Sizes(Collector.Kept(store, marks))
  {
  }

  lemma KeptIsHeld(v: Store, u: Store, owner: Slabs.HeapId, store: Collector.Store, marks: set<Addr>)
    requires Represents(v, owner, store, marks)
    requires forall a: Addr :: ObjectAt(u, a) == Slabs.Survivor(ObjectAt(v, a))
    ensures Represents(u, owner, Collector.Kept(store, marks), {})
  {
    forall a: Addr ensures ObjectAt(u, a) == View(owner, Collector.Kept(store, marks), {}, a) {
      assert ObjectAt(v, a) == View(owner, store, marks, a);
    }
  }

  /** Sweeping the storage is sweeping the heap: what is kept, how many objects go and how many bytes. */
  lemma SweepRefines(v: Store, u: Store, owner: Slabs.HeapId, store: Collector.Store, marks: set<Addr>)
    requires StoreOk(v) && Represents(v, owner, store, marks)
    requires forall a: Addr :: ObjectAt(u, a) == Slabs.Survivor(ObjectAt(v, a))
    ensures Represents(u, owner, Collector.Kept(store, marks), {})
    ensures |store| == |Collector.Kept(store, marks)| + |StoreReport(v, true)|
    ensures Total(Collector.Sizes(store)) ==
            Total(Collector.Sizes(Collector.Kept(store, marks))) + Slabs.Bytes(StoreReport(v, true))
  {
    KeptIsHeld(v, u, owner, store, marks);
    ReportNames(v, owner, store, marks);
    ReportOnce(v, true);
    ListingTotals(StoreReport(v, true), Collector.Sizes(store) - marks);
    PartCounts(store, marks);
    PartTotals(store, marks);
  }

  lemma ReportNames(v: Store, owner: Slabs.HeapId, store: Collector.Store, marks: set<Addr>)
    requires StoreOk(v) && Represents(v, owner, store, marks)
    ensures Names(StoreReport(v, true), Collector.Sizes(store) - marks)
  {
    var rest := Collector.Sizes(store) - marks;
    forall a: Addr, n: nat ensures (a, n) in StoreReport(v, true) <==> a in rest && rest[a] == n {
      ReportIsUnmarked(v, owner, store, marks, a, n);
    }
  }

  /** Adopting another heap's storage joins the two maps; no address is in both. */
  lemma AdoptionRefines(v: Store, u: Store, w: Store, owner: Slabs.HeapId, other: Slabs.HeapId, x: Collector.Store,
                        y: Collector.Store)
    requires Represents(v, owner, x, {}) && Represents(u, other, y, {}) && Adopted(v, u, Some(owner), w)
    ensures x.Keys !! y.Keys && Represents(w, owner, x + y, {})
  {
    forall a: Addr ensures !(a in x && a in y) && ObjectAt(w, a) == View(owner, x + y, {}, a) {
      var o := ObjectAt(w, a);
      assert ObjectAt(v, a) == View(owner, x, {}, a);
      assert ObjectAt(u, a) == View(other, y, {}, a);
    }
  }

  // ----- a whole collection -----

  /** Marks in the storage what the heap has marked. */
  method MarkEach(storage: Storage, owner: Slabs.HeapId, ghost store: Collector.Store, order: seq<Addr>)
    requires storage.Valid() && Represents(storage.State(), owner, store, {})
    requires forall a :: a in order ==> a in store
    modifies storage
    ensures storage.Valid() && Represents(storage.State(), owner, store, set a | a in order)
  {
    ghost var done: set<Addr> := {};
    for i := 0 to |order|
      invariant storage.Valid() && done == (set a | a in order[..i])
      invariant Represents(storage.State(), owner, store, done)
    {
      var a := order[i];
      assert a in order;
      ghost var before := storage.State();
      assert ObjectAt(before, a) == View(owner, store, done, a);
      var first := storage.Mark(a);
      MarkRefines(before, storage.State(), owner, store, done, a);
      done := done + {a};
      assert order[..i + 1] == order[..i] + [a];
    }
    assert order[..|order|] == order;
  }

  /**
   * Marking the reachable objects in the storage and sweeping it leaves exactly the survivors of a collection, and the
   * counts by which the heap settles its counters.
   */
  method CollectStorage(storage: Storage, owner: Slabs.HeapId, ghost store: Collector.Store, order: seq<Addr>,
                        ghost roots: set<Collector.Reference>)
    returns (objects: nat, bytes: nat)
    requires storage.Valid() && Represents(storage.State(), owner, store, {})
    requires forall a :: a in order <==> a in Collector.LiveSet(store, roots)
    modifies storage
    ensures storage.Valid() && Represents(storage.State(), owner, Collector.Survivors(store, roots), {})
    ensures |store| == |Collector.Survivors(store, roots)| + objects
    ensures Total(Collector.Sizes(store)) == Total(Collector.Sizes(Collector.Survivors(store, roots))) + bytes
  {
    MarkEach(storage, owner, store, order);
    ghost var marks, v := (set a | a in order), storage.State();
    assert Collector.Kept(store, marks) == Collector.Survivors(store, roots);
    var gone;
    gone, objects, bytes := storage.Sweep();
    SweepRefines(v, storage.State(), owner, store, marks);
  }
}
