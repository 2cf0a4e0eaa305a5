/** One managed heap: allocation, checked reference stores, and the mark/sweep collection. */
module Collector {
  import opened Ir
  import opened Totals

  type Address = nat

  /** A reference slot's content. Literals are immutable and never traced. */
  datatype Reference = Null | Literal | Object(address: Address)

  /** An object as its trace callback presents it: its size, and its reference slots. */
  datatype Cell = Cell(bytes: nat, fields: seq<Reference>)

  type Store = map<Address, Cell>

  // ----- reachability -----

  predicate HasField(store: Store, a: Address, b: Address) {
    a in store && Object(b) in store[a].fields
  }

  ghost predicate IsChain(store: Store, p: seq<Address>) {
    && |p| > 0
    && (forall i :: 0 <= i < |p| ==> p[i] in store)
    && forall i :: 0 <= i < |p| - 1 ==> HasField(store, p[i], p[i + 1])
  }

  /** `a` is an object of the store that a chain of its objects connects to a root. */
  ghost predicate Reachable(store: Store, roots: set<Reference>, a: Address) {
    exists p: seq<Address> :: IsChain(store, p) && Object(p[0]) in roots && p[|p| - 1] == a
  }

  lemma RootIsReachable(store: Store, roots: set<Reference>, a: Address)
    requires a in store && Object(a) in roots
    ensures Reachable(store, roots, a)
  {
    assert IsChain(store, [a]);
  }

  lemma FieldIsReachable(store: Store, roots: set<Reference>, a: Address, b: Address)
    requires Reachable(store, roots, a) && HasField(store, a, b) && b in store
    ensures Reachable(store, roots, b)
  {
    var p: seq<Address> :| IsChain(store, p) && Object(p[0]) in roots && p[|p| - 1] == a;
    var q := p + [b];
    assert IsChain(store, q) by {
      forall i | 0 <= i < |q| - 1 ensures HasField(store, q[i], q[i + 1]) {
        if i < |p| - 1 {
          assert HasField(store, p[i], p[i + 1]);
        }
      }
    }
    assert q[|q| - 1] == b && Object(q[0]) in roots;
  }

  /** What a collection keeps. */
  ghost function Survivors(store: Store, roots: set<Reference>): Store {
    map a | a in store && Reachable(store, roots, a) :: store[a]
  }

  /** The address belongs to the heap itself or to a suspended ancestor. */
  predicate Known(store: Store, ancestors: set<Address>, r: Reference) {
    r.Object? ==> r.address in store || r.address in ancestors
  }

  /** No root, and no slot of a reachable object, leads outside the heap and its suspended ancestors. */
  ghost predicate Closed(store: Store, ancestors: set<Address>, roots: set<Reference>) {
    && (forall r :: r in roots ==> Known(store, ancestors, r))
    && forall a, r :: a in store && Reachable(store, roots, a) && r in store[a].fields ==> Known(store, ancestors, r)
  }

  // ----- the marking loop -----

  /** A marked object whose slots have all been followed. */
  ghost predicate Traced(store: Store, ancestors: set<Address>, marks: set<Address>, a: Address) {
    a in store && forall r :: r in store[a].fields ==> Followed(store, ancestors, marks, r)
  }

  ghost predicate Followed(store: Store, ancestors: set<Address>, marks: set<Address>, r: Reference) {
    r.Object? ==> r.address in marks || (r.address !in store && r.address in ancestors)
  }

  ghost predicate AllFollowed(store: Store, ancestors: set<Address>, marks: set<Address>, rs: seq<Reference>) {
    forall r :: r in rs ==> Followed(store, ancestors, marks, r)
  }

  lemma AllFollowedGrows(store: Store, ancestors: set<Address>, before: set<Address>, marks: set<Address>,
                         rs: seq<Reference>)
    requires AllFollowed(store, ancestors, before, rs) && before <= marks
    ensures AllFollowed(store, ancestors, marks, rs)
  {
    forall r | r in rs ensures Followed(store, ancestors, marks, r) {
      assert Followed(store, ancestors, before, r);
    }
  }

  lemma SlotsFollowed(store: Store, ancestors: set<Address>, marks: set<Address>, frames: seq<seq<Reference>>)
    requires forall j :: 0 <= j < |frames| ==> AllFollowed(store, ancestors, marks, frames[j])
    ensures forall r :: r in Slots(frames) ==> Followed(store, ancestors, marks, r)
  {
    forall r | r in Slots(frames) ensures Followed(store, ancestors, marks, r) {
      var f :| f in frames && r in f;
      var j :| 0 <= j < |frames| && frames[j] == f;
    }
  }

  /** Between two steps of marking: marks are reachable, and the stack is the marked but untraced part. */
  ghost predicate Marking(store: Store, ancestors: set<Address>, live: set<Address>, marks: set<Address>,
                          stack: seq<Address>, current: set<Address>)
  {
    && marks <= live <= store.Keys
    && (forall i :: 0 <= i < |stack| ==> stack[i] in marks)
    && (forall i, j :: 0 <= i < j < |stack| ==> stack[i] != stack[j])
    && forall a :: a in marks && a !in stack && a !in current ==> Traced(store, ancestors, marks, a)
  }

  /** Every slot of every object leads to an object that is still there. */
  ghost predicate NoDangling(store: Store, ancestors: set<Address>) {
    forall a, r :: a in store && r in store[a].fields ==> Known(store, ancestors, r)
  }

  /** A collection leaves no dangling slot, and drops none of its roots. */
  lemma SurvivorsDoNotDangle(store: Store, ancestors: set<Address>, roots: set<Reference>)
    requires NoDangling(store, ancestors) && forall r :: r in roots ==> Known(store, ancestors, r)
    ensures Closed(store, ancestors, roots)
    ensures NoDangling(Survivors(store, roots), ancestors)
    ensures forall r :: r in roots ==> Known(Survivors(store, roots), ancestors, r)
  {
    var kept := Survivors(store, roots);
    forall a, r | a in kept && r in kept[a].fields ensures Known(kept, ancestors, r) {
      assert Known(store, ancestors, r);
      if r.Object? && r.address in store {
        FieldIsReachable(store, roots, a, r.address);
      }
    }
    forall r | r in roots ensures Known(kept, ancestors, r) {
      if r.Object? && r.address in store {
        RootIsReachable(store, roots, r.address);
      }
    }
  }

  lemma StoreKeepsNoDangling(store: Store, ancestors: set<Address>, a: Address, slot: nat, value: Reference)
    requires a in store && slot < |store[a].fields| && Known(store, ancestors, value)
    ensures NoDangling(store, ancestors) ==>
              NoDangling(store[a := store[a].(fields := store[a].fields[slot := value])], ancestors)
  {
    var next := store[a := store[a].(fields := store[a].fields[slot := value])];
    if NoDangling(store, ancestors) {
      forall b, r | b in next && r in next[b].fields ensures Known(next, ancestors, r) {
        assert Known(store, ancestors, r) by {
          if b == a && r != value { assert r in store[a].fields; }
        }
      }
    }
  }

  datatype Phase = Uninitialized | Active | Collecting | Suspended

  const COLLECTION_FLOOR: nat := 4 * 1024 * 1024
  const UINT64_MAX: nat := 0xffff_ffff_ffff_ffff

  function Sizes(store: Store): map<Address, nat> {
    map a | a in store :: store[a].bytes
  }

  function Kept(store: Store, marks: set<Address>): Store {
    map a | a in store && a in marks :: store[a]
  }

  ghost function Slots(frames: seq<seq<Reference>>): set<Reference> {
    set f, r | f in frames && r in f :: r
  }

  lemma AddOne(store: Store, a: Address, c: Cell)
    requires a !in store
    ensures |store[a := c]| == |store| + 1
    ensures Total(Sizes(store[a := c])) == Total(Sizes(store)) + c.bytes
  {
    DropOne(store[a := c], a);
    assert store[a := c] - {a} == store;
  }

  /** Collecting twice with the same roots changes nothing more. */
  lemma SurvivorsAgain(store: Store, roots: set<Reference>)
    ensures Survivors(Survivors(store, roots), roots) == Survivors(store, roots)
  {
    var kept := Survivors(store, roots);
    forall a | a in kept ensures Reachable(kept, roots, a) {
      var p: seq<Address> :| IsChain(store, p) && Object(p[0]) in roots && p[|p| - 1] == a;
      forall i | 0 <= i < |p| ensures p[i] in kept {
        var q := p[..i + 1];
        assert IsChain(store, q) by {
          forall k | 0 <= k < |q| - 1 ensures HasField(store, q[k], q[k + 1]) {
            assert HasField(store, p[k], p[k + 1]);
          }
        }
        assert Object(q[0]) in roots && q[|q| - 1] == p[i];
      }
      assert IsChain(kept, p) by {
        forall k | 0 <= k < |p| - 1 ensures HasField(kept, p[k], p[k + 1]) {
          assert HasField(store, p[k], p[k + 1]);
        }
      }
    }
  }

  /** A heap that could be collected can be collected again. */
  lemma SurvivorsClosed(store: Store, ancestors: set<Address>, roots: set<Reference>)
    requires Closed(store, ancestors, roots)
    ensures Closed(Survivors(store, roots), ancestors, roots)
  {
    var kept := Survivors(store, roots);
    forall r | r in roots ensures Known(kept, ancestors, r) {
      if r.Object? && r.address in store { RootIsReachable(store, roots, r.address); }
    }
    forall a, r | a in kept && r in kept[a].fields ensures Known(kept, ancestors, r) {
      assert Reachable(store, roots, a) && Known(store, ancestors, r);
      if r.Object? && r.address in store { FieldIsReachable(store, roots, a, r.address); }
    }
  }

  lemma CollectableAgain(store: Store, ancestors: set<Address>, roots: set<Reference>)
    requires Closed(store, ancestors, roots)
    ensures Closed(Survivors(store, roots), ancestors, roots)
    ensures Survivors(Survivors(store, roots), roots) == Survivors(store, roots)
  {
    SurvivorsAgain(store, roots);
    SurvivorsClosed(store, ancestors, roots);
  }

  lemma DropOne(store: Store, a: Address)
    requires a in store
    ensures |store| == |store - {a}| + 1
    ensures Total(Sizes(store)) == Total(Sizes(store - {a})) + store[a].bytes
  {
    TotalWithout(Sizes(store), a);
    assert Sizes(store) - {a} == Sizes(store - {a});
    assert (store - {a}).Keys == store.Keys - {a};
  }

  /** Unmark what was marked, drop the rest, and count what was dropped. */
  method SweepStore(before: Store, marks: set<Address>) returns (store: Store, objects: nat, bytes: nat)
    requires marks <= before.Keys
    ensures store == Kept(before, marks)
    ensures |before| == |store| + objects
    ensures Total(Sizes(before)) == Total(Sizes(store)) + bytes
  {
    objects, bytes, store := 0, 0, before;
    var rest := before.Keys;
    assert Kept(before, marks + rest) == before;
    while rest != {}
      invariant rest <= before.Keys && store == Kept(before, marks + rest)
      invariant |before| == |store| + objects
      invariant Total(Sizes(before)) == Total(Sizes(store)) + bytes
      decreases |rest|
    {
      var a :| a in rest;
      if a !in marks {
        DropOne(store, a);
        objects, bytes := objects + 1, bytes + store[a].bytes;
        store := store - {a};
      }
      SweptOne(before, marks, rest, a);
      rest := rest - {a};
    }
    assert marks + rest == marks;
  }

  lemma SweptOne(before: Store, marks: set<Address>, rest: set<Address>, a: Address)
    requires a in rest && rest <= before.Keys
    ensures Kept(before, marks + (rest - {a})) ==
            if a in marks then Kept(before, marks + rest) else Kept(before, marks + rest) - {a}
  {
  }

  ghost function LiveSet(store: Store, roots: set<Reference>): set<Address> {
    set a | a in store && Reachable(store, roots, a)
  }

  lemma LiveSetIsClosed(store: Store, roots: set<Reference>)
    ensures forall a, b :: a in LiveSet(store, roots) && HasField(store, a, b) && b in store ==>
              b in LiveSet(store, roots)
  {
    forall a, b | a in LiveSet(store, roots) && HasField(store, a, b) && b in store ensures b in LiveSet(store, roots) {
      FieldIsReachable(store, roots, a, b);
    }
  }

  class Heap {
    var store: Store
    var marks: set<Address>
    var rootFrames: seq<seq<Reference>>
    var persistentRoots: seq<Reference>
    var borrows: seq<Reference>
    var ancestors: set<Address>
    var phase: Phase
    var objectCount: nat
    var byteCount: nat
    var collectionCount: nat
    var nextCollectionBytes: nat

    constructor (ancestors: set<Address>)
      ensures Consistent() && phase == Active && store == map[] && rootFrames == [] && persistentRoots == []
              && borrows == []
      ensures this.ancestors == ancestors
    {
      store, marks, rootFrames, persistentRoots, borrows := map[], {}, [], [], [];
      this.ancestors := ancestors;
      phase, objectCount, byteCount, collectionCount, nextCollectionBytes := Active, 0, 0, 0, COLLECTION_FLOOR;
    }

    /** Marks are clear between collections, and the counters are the storage totals, without wrapping. */
    ghost predicate Consistent()
      reads this
    {
      && marks == {}
      && objectCount == |store|
      && byteCount == Total(Sizes(store))
      && objectCount <= UINT64_MAX && byteCount <= UINT64_MAX
      && store.Keys !! ancestors
    }

    ghost function Roots(): set<Reference>
      reads this`rootFrames, this`persistentRoots, this`borrows
    {
      Slots(rootFrames) + (set r | r in persistentRoots) + (set r | r in borrows)
    }

    /** Null, literals and ancestors are left alone; a first visit marks and pushes; anything else is a panic. */
    method MarkObject(r: Reference, stack: seq<Address>, ghost live: set<Address>, ghost current: set<Address>)
      returns (next: seq<Address>, ok: bool)
      requires store.Keys !! ancestors
      requires Marking(store, ancestors, live, marks, stack, current)
      requires r.Object? && r.address in store ==> r.address in live
      modifies this`marks
      ensures ok <==> Known(store, ancestors, r)
      ensures ok ==> Marking(store, ancestors, live, marks, next, current) && Followed(store, ancestors, marks, r)
      ensures old(marks) <= marks
      ensures (next == stack && marks == old(marks))
           || (r.Object? && r.address !in old(marks) && next == stack + [r.address]
              && marks == old(marks) + {r.address})
    {
      next, ok := stack, true;
      match r
      case Null =>
      case Literal =>
      case Object(a) =>
        if a !in store { return stack, a in ancestors; }
        if a in marks { return; }
        marks := marks + {a};
        next := stack + [a];
    }

    /** Marks every reference of a list in turn. */
    method MarkAll(rs: seq<Reference>, stack: seq<Address>, ghost live: set<Address>, ghost current: set<Address>)
      returns (next: seq<Address>, ok: bool)
      requires store.Keys !! ancestors
      requires Marking(store, ancestors, live, marks, stack, current)
      requires forall r :: r in rs && r.Object? && r.address in store ==> r.address in live
      modifies this`marks
      ensures ok <==> forall r :: r in rs ==> Known(store, ancestors, r)
      ensures ok ==> Marking(store, ancestors, live, marks, next, current)
      ensures ok ==> forall r :: r in rs ==> Followed(store, ancestors, marks, r)
      ensures old(marks) <= marks
      ensures ok ==> |marks| - |next| == |old(marks)| - |stack|
    {
      next, ok := stack, true;
      for i := 0 to |rs|
        invariant Marking(store, ancestors, live, marks, next, current)
        invariant forall r :: r in rs[..i] ==> Followed(store, ancestors, marks, r) && Known(store, ancestors, r)
        invariant old(marks) <= marks
        invariant |marks| - |next| == |old(marks)| - |stack|
      {
        assert rs[i] in rs && rs[..i + 1] == rs[..i] + [rs[i]];
        next, ok := MarkObject(rs[i], next, live, current);
        if !ok { return; }
      }
      ok := true;
      assert rs[..|rs|] == rs;
    }

    method Sweep() returns (objects: nat, bytes: nat)
      requires marks <= store.Keys
      modifies this`store, this`marks
      ensures marks == {} && store == Kept(old(store), old(marks))
      ensures |old(store)| == |store| + objects
      ensures Total(Sizes(old(store))) == Total(Sizes(store)) + bytes
    {
      store, objects, bytes := SweepStore(store, marks);
      marks := {};
    }

    method MarkFrames(ghost live: set<Address>) returns (stack: seq<Address>, ok: bool)
      requires Consistent() && live <= store.Keys
      requires forall r :: r in Slots(rootFrames) && r.Object? && r.address in store ==> r.address in live
      modifies this`marks
      ensures !ok ==> exists r :: r in Slots(rootFrames) && !Known(store, ancestors, r)
      ensures ok ==> Marking(store, ancestors, live, marks, stack, {}) && |marks| == |stack|
      ensures ok ==> forall r :: r in Slots(rootFrames) ==> Followed(store, ancestors, marks, r)
    {
      stack := [];
      for i := 0 to |rootFrames|
        invariant Marking(store, ancestors, live, marks, stack, {}) && |marks| == |stack|
        invariant forall j :: 0 <= j < i ==> AllFollowed(store, ancestors, marks, rootFrames[j])
      {
        var frame := rootFrames[i];
        assert forall r :: r in frame ==> r in Slots(rootFrames) by { assert frame in rootFrames; }
        ghost var before := marks;
        stack, ok := MarkAll(frame, stack, live, {});
        if !ok { return; }
        forall j | 0 <= j < i ensures AllFollowed(store, ancestors, marks, rootFrames[j]) {
          AllFollowedGrows(store, ancestors, before, marks, rootFrames[j]);
        }
      }
      ok := true;
      SlotsFollowed(store, ancestors, marks, rootFrames);
    }

    /** Root frames from the newest, then persistent roots, then borrows. */
    method MarkRoots() returns (stack: seq<Address>, ok: bool)
      requires Consistent()
      modifies this`marks
      ensures ok <==> forall r :: r in Roots() ==> Known(store, ancestors, r)
      ensures ok ==> Marking(store, ancestors, LiveSet(store, Roots()), marks, stack, {}) && |marks| == |stack|
      ensures ok ==> forall r :: r in Roots() ==> Followed(store, ancestors, marks, r)
    {
      ghost var live := LiveSet(store, Roots());
      forall r | r in Roots() && r.Object? && r.address in store ensures r.address in live {
        RootIsReachable(store, Roots(), r.address);
      }
      stack, ok := MarkFrames(live);
      if !ok { return; }
      stack, ok := MarkAll(persistentRoots, stack, live, {});
      if !ok { return; }
      stack, ok := MarkAll(borrows, stack, live, {});
    }

    /** Follow the slots of everything on the stack until it is empty. */
    method Drain(start: seq<Address>, ghost live: set<Address>) returns (ok: bool, ghost traced: nat)
      requires store.Keys !! ancestors
      requires forall a, b :: a in live && HasField(store, a, b) && b in store ==> b in live
      requires Marking(store, ancestors, live, marks, start, {}) && |marks| == |start|
      modifies this`marks
      ensures old(marks) <= marks
      ensures ok ==> Marking(store, ancestors, live, marks, [], {}) && traced == |marks|
      ensures !ok ==> exists a, r :: a in live && r in store[a].fields && !Known(store, ancestors, r)
    {
      traced := 0;
      var stack := start;
      while stack != []
        invariant Marking(store, ancestors, live, marks, stack, {})
        invariant traced + |stack| == |marks| && old(marks) <= marks
        decreases store.Keys - marks, |stack|
      {
        var a := stack[|stack| - 1];
        forall r | r in store[a].fields && r.Object? && r.address in store ensures r.address in live {
          assert HasField(store, a, r.address);
        }
        assert Marking(store, ancestors, live, marks, stack[..|stack| - 1], {a});
        ghost var before := marks;
        stack, ok := MarkAll(store[a].fields, stack[..|stack| - 1], live, {a});
        if !ok { return; }
        traced := traced + 1;
        assert marks == before || store.Keys - marks < store.Keys - before by {
          if !(marks <= before) {
            var x :| x in marks && x !in before;
            assert x in store.Keys - before && x !in store.Keys - marks;
          }
        }
      }
      ok := true;
    }

    /** Marks exactly the reachable objects, each traced once, or panics on a reference out of the heap. */
    method MarkReachable() returns (ok: bool, ghost traced: nat)
      requires Consistent()
      modifies this`marks
      ensures ok <==> Closed(store, ancestors, Roots())
      ensures ok ==> marks <= store.Keys && traced == |marks|
      ensures ok ==> Kept(store, marks) == Survivors(store, Roots())
    {
      var stack;
      traced := 0;
      stack, ok := MarkRoots();
      if ok {
        LiveSetIsClosed(store, Roots());
        ok, traced := Drain(stack, LiveSet(store, Roots()));
        if ok {
          MarkedIsReachable(store, ancestors, Roots(), marks);
        }
      }
    }

    /**
     * A collection keeps exactly what is reachable; it panics exactly when it would follow a reference out of the heap.
     */
    method Collect() returns (ok: bool, ghost traced: nat)
      requires phase != Collecting ==> Consistent()
      modifies this`store, this`marks, this`phase, this`objectCount, this`byteCount, this`collectionCount,
               this`nextCollectionBytes
      ensures ok <==> old(phase) != Collecting && old(Closed(store, ancestors, Roots()))
      ensures ok ==> store == old(Survivors(store, Roots()))
      ensures ok ==> Consistent() && phase == Active && traced == |store|
      ensures objectCount <= old(objectCount) && byteCount <= old(byteCount)
      ensures ok ==> collectionCount == old(collectionCount) + 1
      ensures ok ==> nextCollectionBytes == NextThreshold(byteCount)
    {
      traced := 0;
      if phase == Collecting { return false, 0; }
      phase := Collecting;
      ok, traced := MarkReachable();
      if !ok { return; }
      assert Kept(store, marks).Keys == marks;
      Reclaim();
    }

    /** Sweep, and settle the counters by what was reclaimed. */
    method Reclaim()
      requires marks <= store.Keys && store.Keys !! ancestors
      requires objectCount == |store| <= UINT64_MAX && byteCount == Total(Sizes(store)) <= UINT64_MAX
      modifies this`store, this`marks, this`phase, this`objectCount, this`byteCount, this`collectionCount,
               this`nextCollectionBytes
      ensures store == Kept(old(store), old(marks)) && Consistent() && phase == Active
      ensures objectCount <= old(objectCount) && byteCount <= old(byteCount)
      ensures collectionCount == old(collectionCount) + 1 && nextCollectionBytes == NextThreshold(byteCount)
    {
      var objects, bytes := Sweep();
      objectCount := objectCount - objects;
      byteCount := byteCount - bytes;
      collectionCount := collectionCount + 1;
      nextCollectionBytes := NextThreshold(byteCount);
      phase := Active;
    }

    /** An allocation that would pass the threshold collects first. */
    predicate PassesThreshold(bytes: nat)
      reads this
    {
      byteCount + bytes > nextCollectionBytes || byteCount >= nextCollectionBytes
    }

    /** What is left when the storage is asked: for the first time, or again after refusing. */
    ghost function Remaining(bytes: nat, refused: bool): Store
      reads this
    {
      if refused || PassesThreshold(bytes) then Survivors(store, Roots()) else store
    }

    /** The collection that runs before an allocation would pass the threshold. */
    method CollectAtThreshold(bytes: nat) returns (ok: bool)
      requires Consistent() && phase == Active
      modifies this`store, this`marks, this`phase, this`objectCount, this`byteCount, this`collectionCount,
        this`nextCollectionBytes
      ensures ok <==> old(PassesThreshold(bytes)) ==> old(Closed(store, ancestors, Roots()))
      ensures ok ==> Consistent() && phase == Active && store == old(Remaining(bytes, false))
      ensures objectCount <= old(objectCount) && byteCount <= old(byteCount)
    {
      ok := true;
      if byteCount >= nextCollectionBytes || bytes > nextCollectionBytes - byteCount {
        ghost var traced;
        ok, traced := Collect();
      }
    }

    method Insert(a: Address, c: Cell)
      requires Consistent() && a !in store && a !in ancestors
      requires objectCount < UINT64_MAX && byteCount + c.bytes <= UINT64_MAX
      modifies this`store, this`objectCount, this`byteCount
      ensures Consistent() && store == old(store)[a := c]
    {
      AddOne(store, a, c);
      store := store[a := c];
      objectCount := objectCount + 1;
      byteCount := byteCount + c.bytes;
    }

    /** The collections an allocation runs: at the threshold, and again if the storage refuses. */
    method MakeRoom(bytes: nat, refused: bool) returns (ok: bool)
      requires Consistent() && phase == Active
      modifies this`store, this`marks, this`phase, this`objectCount, this`byteCount, this`collectionCount,
        this`nextCollectionBytes
      ensures ok <==> (refused || old(PassesThreshold(bytes)) ==> old(Closed(store, ancestors, Roots())))
      ensures ok ==> Consistent() && phase == Active && store == old(Remaining(bytes, refused))
      ensures objectCount <= old(objectCount) && byteCount <= old(byteCount)
    {
      ghost var start, roots, passes := store, Roots(), PassesThreshold(bytes);
      ok := CollectAtThreshold(bytes);
      if refused && ok {
        if passes { CollectableAgain(start, ancestors, roots); }
        ghost var traced;
        ok, traced := Collect();
      }
    }

    /**
     * Allocation: collect first if the threshold would be passed, ask the storage, and collect and ask again if
     * it refuses. `first` and `second` are the storage's answers: any address free at the time it is asked. No result
     * means a panic.
     */
    method Allocate(bytes: nat, slots: nat, first: Option<Address>, second: Option<Address>)
      returns (r: Option<Address>)
      requires phase == Active ==> Consistent()
      requires first.Some? ==> first.value !in Remaining(bytes, false) && first.value !in ancestors
      requires second.Some? ==> second.value !in Remaining(bytes, true) && second.value !in ancestors
      modifies this`store, this`marks, this`phase, this`objectCount, this`byteCount, this`collectionCount,
        this`nextCollectionBytes
      ensures r.Some? <==>
                && old(phase) == Active && old(byteCount) + bytes <= UINT64_MAX && old(objectCount) < UINT64_MAX
                && (first.None? || old(PassesThreshold(bytes)) ==> old(Closed(store, ancestors, Roots())))
                && (first.Some? || second.Some?)
      ensures r.Some? ==>
                && r == (if first.Some? then first else second) && Consistent() && phase == Active
                && r.value !in old(Remaining(bytes, first.None?)) && r.value in store
                && store == old(Remaining(bytes, first.None?))[r.value := store[r.value]]
                && store[r.value].bytes == bytes && |store[r.value].fields| == slots
                && forall i :: 0 <= i < slots ==> store[r.value].fields[i] == Null
    {
      if phase != Active || byteCount + bytes > UINT64_MAX || objectCount == UINT64_MAX { return None; }
      var ok := MakeRoom(bytes, first.None?);
      if !ok { return None; }
      r := if first.None? then second else first;
      if r.Some? {
        NewSlots(slots);
        Insert(r.value, Cell(bytes, NullSlots(slots)));
      }
    }

    /** Any slot of a new object can be stored to at once, and holds what was stored. */
    method AllocateAndStore(bytes: nat, slots: nat, at: Address, slot: nat, value: Reference)
      returns (r: Option<Address>, ok: bool)
      requires Consistent() && phase == Active && at !in Remaining(bytes, false) && at !in ancestors
      requires slot < slots && byteCount + bytes <= UINT64_MAX && objectCount < UINT64_MAX
      requires Closed(store, ancestors, Roots())
      requires Known(Remaining(bytes, false), ancestors, value)
      modifies this`store, this`marks, this`phase, this`objectCount, this`byteCount, this`collectionCount,
        this`nextCollectionBytes
      ensures r == Some(at) && ok && at in store && |store[at].fields| == slots
      ensures forall i :: 0 <= i < slots ==> store[at].fields[i] == if i == slot then value else Null
    {
      r := Allocate(bytes, slots, Some(at), None);
      ok := StoreReference(Object(at), slot, value);
    }

    /**
     * A checked reference store. It fails on a foreign owner, a slot outside the payload, or a value that is not live
     * here.
     */
    method StoreReference(owner: Reference, slot: nat, value: Reference) returns (ok: bool)
      modifies this`store
      ensures ok <==> old(phase == Active || phase == Collecting) && owner.Object? && owner.address in old(store)
                      && slot < |old(store)[owner.address].fields| && old(Known(store, ancestors, value))
      ensures !ok ==> store == old(store)
      ensures ok ==> store.Keys == old(store).Keys
      ensures ok ==> forall a :: a in store && a != owner.address ==> store[a] == old(store)[a]
      ensures ok ==>
                var cell := old(store)[owner.address];
                store[owner.address] == cell.(fields := cell.fields[slot := value])
      ensures ok && old(NoDangling(store, ancestors)) ==> NoDangling(store, ancestors)
    {
      if phase == Uninitialized || phase == Suspended || !owner.Object? || owner.address !in store { return false; }
      var cell := store[owner.address];
      if slot >= |cell.fields| || !Known(store, ancestors, value) { return false; }
      StoreKeepsNoDangling(store, ancestors, owner.address, slot, value);
      store := store[owner.address := cell.(fields := cell.fields[slot := value])];
      ok := true;
    }
  }

  function NullSlots(n: nat): seq<Reference> {
    seq(n, i => Null)
  }

  /** As many slots as asked for, each of them empty. */
  lemma NewSlots(n: nat)
    ensures |NullSlots(n)| == n && forall i :: 0 <= i < n ==> NullSlots(n)[i] == Null
    ensures n == 0 ==> NullSlots(n) == []
    ensures n == 1 ==> NullSlots(n) == [Null]
  {
  }

  function NextThreshold(bytes: nat): nat {
    var doubled := if bytes > UINT64_MAX / 2 then UINT64_MAX else bytes * 2;
    if doubled < COLLECTION_FLOOR then COLLECTION_FLOOR else doubled
  }

  /**
   * An allocation right after a collection collects again exactly if it would pass the floor, or where the survivors
   * take more than half of that, if it is larger than all of them, or where twice their size cannot be counted, if the
   * count would overflow.
   */
  lemma QuietAfterCollection(live: nat, bytes: nat)
    requires live <= UINT64_MAX
    ensures 4 * 1024 * 1024 <= NextThreshold(live) <= UINT64_MAX && live <= NextThreshold(live)
    ensures live + bytes > NextThreshold(live) || live >= NextThreshold(live) <==>
              if 2 * live < 4194304 then live + bytes > 4194304
              else if 2 * live <= UINT64_MAX then bytes > live
              else live + bytes > UINT64_MAX || live == UINT64_MAX
  {
  }

  /** Marks that are closed under references and hold the roots hold everything reachable. */
  lemma MarkedIsReachable(store: Store, ancestors: set<Address>, roots: set<Reference>, marks: set<Address>)
    requires Marking(store, ancestors, LiveSet(store, roots), marks, [], {})
    requires forall r :: r in roots ==> Followed(store, ancestors, marks, r)
    ensures forall a :: a in store ==> (a in marks <==> Reachable(store, roots, a))
    ensures Closed(store, ancestors, roots)
    ensures Kept(store, marks) == Survivors(store, roots)
  {
    forall a | a in store && Reachable(store, roots, a) ensures a in marks {
      var p: seq<Address> :| IsChain(store, p) && Object(p[0]) in roots && p[|p| - 1] == a;
      ChainIsMarked(store, ancestors, marks, p, |p| - 1);
    }
    forall a, r | a in store && Reachable(store, roots, a) && r in store[a].fields ensures Known(store, ancestors, r) {
      assert Traced(store, ancestors, marks, a);
    }
  }

  lemma {:induction false} ChainIsMarked(store: Store, ancestors: set<Address>, marks: set<Address>, p: seq<Address>,
                                         i: nat)
    requires |p| > 0 && forall a :: a in marks ==> Traced(store, ancestors, marks, a)
    requires Followed(store, ancestors, marks, Object(p[0]))
    requires IsChain(store, p) && i < |p|
    ensures p[i] in marks
  {
    if i > 0 {
      ChainIsMarked(store, ancestors, marks, p, i - 1);
      assert HasField(store, p[i - 1], p[i - 1 + 1]);
      assert Traced(store, ancestors, marks, p[i - 1]);
      assert Followed(store, ancestors, marks, Object(p[i]));
    }
  }
}
