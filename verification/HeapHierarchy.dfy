/** Heaps stacked on suspended parents: allocation regions, joined tasks, and adoption of task results. */
module HeapHierarchy {
  import opened Ir
  import opened Collector

  type HeapId = nat

  /** A reference slot of an object. */
  datatype Slot = Slot(holder: Address, index: nat)

  /** A heap runs, is suspended inside an allocation region or a task scope, or is a finished task awaiting its join. */
  datatype Condition = Running | InRegion(child: HeapId) | InScope | Finished

  /** `span` is the result storage of a task heap; other heaps have none. */
  datatype HeapInfo = HeapInfo(parent: Option<HeapId>, condition: Condition, task: bool, span: set<Slot>)

  datatype Owned = Owned(owner: HeapId, fields: seq<Reference>)

  datatype World = World(heaps: map<HeapId, HeapInfo>, objects: map<Address, Owned>)

  predicate Suspended(c: Condition) {
    c.InRegion? || c.InScope?
  }

  /** The proper ancestors of a heap. */
  function Line(heaps: map<HeapId, HeapInfo>, h: HeapId): set<HeapId>
    decreases h
  {
    if h in heaps && heaps[h].parent.Some? && heaps[h].parent.value < h
    then {heaps[h].parent.value} + Line(heaps, heaps[h].parent.value)
    else {}
  }

  ghost predicate InHeapOrAbove(w: World, h: HeapId, k: HeapId) {
    k == h || k in Line(w.heaps, h)
  }

  /** What an active heap may refer to: nothing, a literal, its own objects, or those of its ancestors. */
  ghost predicate Readable(w: World, h: HeapId, r: Reference) {
    r.Object? ==> r.address in w.objects && InHeapOrAbove(w, h, w.objects[r.address].owner)
  }

  ghost predicate IsSlot(w: World, s: Slot) {
    s.holder in w.objects && s.index < |w.objects[s.holder].fields|
  }

  // ----- the invariant -----

  ghost predicate HeapOk(w: World, h: HeapId)
    requires h in w.heaps
  {
    var i := w.heaps[h];
    && (i.parent.Some? ==>
          i.parent.value in w.heaps && i.parent.value < h
          && w.heaps[i.parent.value].condition == if i.task then InScope else InRegion(h))
    && (i.task ==> i.parent.Some?)
    && (!i.task ==> i.span == {} && i.condition != Finished)
    && forall s :: s in i.span ==> IsSlot(w, s) && i.parent == Some(w.objects[s.holder].owner)
  }

  /** A slot obeys the hierarchy, or belongs to the span of a task and obeys that task's. */
  ghost predicate SlotOk(w: World, s: Slot)
    requires IsSlot(w, s)
  {
    var o := w.objects[s.holder];
    Readable(w, o.owner, o.fields[s.index]) || InSpan(w, s, o.fields[s.index])
  }

  ghost predicate InSpan(w: World, s: Slot, r: Reference) {
    exists c :: SpanOf(w, c, s) && Readable(w, c, r)
  }

  ghost predicate SpanOf(w: World, c: HeapId, s: Slot) {
    c in w.heaps && s in w.heaps[c].span
  }

  ghost predicate Stratified(w: World) {
    && (forall h :: h in w.heaps ==> HeapOk(w, h))
    && (forall a :: a in w.objects ==> w.objects[a].owner in w.heaps)
    && (forall s :: IsSlot(w, s) ==> SlotOk(w, s))
    && forall c, d, s :: SpanOf(w, c, s) && SpanOf(w, d, s) ==> c == d
  }

  // ----- steps -----

  function OwnStore(w: World, h: HeapId): Store {
    map a | a in w.objects && w.objects[a].owner == h :: Cell(0, w.objects[a].fields)
  }

  ghost function SpanContents(w: World, h: HeapId): set<Reference>
    requires h in w.heaps
  {
    set s | s in w.heaps[h].span && s.holder in w.objects && s.index < |w.objects[s.holder].fields| ::
        w.objects[s.holder].fields[s.index]
  }

  /** The objects left when a heap keeps only what its roots reach. */
  ghost function Swept(w: World, h: HeapId, roots: set<Reference>): map<Address, Owned> {
    map a | a in w.objects && (w.objects[a].owner == h ==> Reachable(OwnStore(w, h), roots, a)) :: w.objects[a]
  }

  function Without(w: World, h: HeapId): map<Address, Owned> {
    map a | a in w.objects && w.objects[a].owner != h :: w.objects[a]
  }

  function WithField(w: World, s: Slot, v: Reference): map<Address, Owned>
    requires s.holder in w.objects && s.index < |w.objects[s.holder].fields|
  {
    w.objects[s.holder := w.objects[s.holder].(fields := w.objects[s.holder].fields[s.index := v])]
  }

  function Adopted(w: World, h: HeapId): map<Address, Owned> {
    map a | a in w.objects ::
      if w.objects[a].owner in w.heaps && w.heaps[w.objects[a].owner].parent == Some(h)
      then w.objects[a].(owner := h) else w.objects[a]
  }

  datatype Action =
    | Allocate(h: HeapId, a: Address, slots: nat)
    | Store(h: HeapId, s: Slot, v: Reference)
    | Collect(h: HeapId, roots: set<Reference>)
    | EnterRegion(h: HeapId, c: HeapId)
    | LeaveRegion(c: HeapId)
    | EnterScope(h: HeapId)
    | StartTask(h: HeapId, c: HeapId, span: set<Slot>)
    | WriteResult(c: HeapId, s: Slot, v: Reference)
    | EndTask(c: HeapId)
    | FinishTask(c: HeapId)
    | Join(h: HeapId)

  ghost predicate IsRunning(w: World, h: HeapId) {
    h in w.heaps && w.heaps[h].condition == Running
  }

  ghost predicate Does(a: Action, w: World, t: World) {
    match a
    case Allocate(h, x, n) =>
      IsRunning(w, h) && x !in w.objects && t == w.(objects := w.objects[x := Owned(h, NullSlots(n))])
    case Store(h, s, v) =>
      // The owner must be this heap's own object, the value readable from it.
      IsRunning(w, h) && IsSlot(w, s) && w.objects[s.holder].owner == h && Readable(w, h, v)
      && t == w.(objects := WithField(w, s, v))
    case Collect(h, roots) =>
      // The root frame over a task's span is part of the roots.
      IsRunning(w, h) && SpanContents(w, h) <= roots && t == w.(objects := Swept(w, h, roots))
    case EnterRegion(h, c) =>
      IsRunning(w, h) && c !in w.heaps && h < c
      && var region := HeapInfo(Some(h), Running, false, {});
      t == w.(heaps := w.heaps[h := w.heaps[h].(condition := InRegion(c))][c := region])
    case LeaveRegion(c) =>
      IsRunning(w, c) && !w.heaps[c].task && w.heaps[c].parent.Some? && w.heaps[c].parent.value in w.heaps
      && var h := w.heaps[c].parent.value;
      t == World((w.heaps - {c})[h := w.heaps[h].(condition := Running)], Without(w, c))
    case EnterScope(h) =>
      IsRunning(w, h) && t == w.(heaps := w.heaps[h := w.heaps[h].(condition := InScope)])
    case StartTask(h, c, span) =>
      h in w.heaps && w.heaps[h].condition == InScope && c !in w.heaps && h < c
      && (forall s :: s in span ==> IsSlot(w, s) && w.objects[s.holder].owner == h && forall d :: !SpanOf(w, d, s))
      && t == w.(heaps := w.heaps[c := HeapInfo(Some(h), Running, true, span)])
    case WriteResult(c, s, v) =>
      IsRunning(w, c) && s in w.heaps[c].span && IsSlot(w, s) && Readable(w, c, v)
      && t == w.(objects := WithField(w, s, v))
    case EndTask(c) =>
      IsRunning(w, c) && w.heaps[c].task && w.heaps[c].span == {}
      && t == World(w.heaps - {c}, Without(w, c))
    case FinishTask(c) =>
      IsRunning(w, c) && w.heaps[c].task && w.heaps[c].span != {}
      && t == World(w.heaps[c := w.heaps[c].(condition := Finished)], Swept(w, c, SpanContents(w, c)))
    case Join(h) =>
      h in w.heaps && w.heaps[h].condition == InScope
      && (forall c :: c in w.heaps && w.heaps[c].parent == Some(h) ==> w.heaps[c].condition == Finished)
      && t == World((map k | k in w.heaps && w.heaps[k].parent != Some(h) ::
           w.heaps[k])[h := w.heaps[h].(condition := Running)], Adopted(w, h))
  }

  // ----- what the steps do, slot by slot -----

  /** The slots, owners and heaps of two worlds agree. */
  ghost predicate SameSlot(w: World, t: World, s: Slot) {
    && (IsSlot(w, s) <==> IsSlot(t, s))
    && (IsSlot(w, s) ==> t.objects[s.holder].fields[s.index] == w.objects[s.holder].fields[s.index])
  }

  ghost predicate SameOwners(w: World, t: World) {
    t.objects.Keys == w.objects.Keys && forall a :: a in w.objects ==> t.objects[a].owner == w.objects[a].owner
  }

  /** A store, and the write of a task's result, put the value into that slot and change nothing else. */
  lemma StoreWrites(a: Action, w: World, t: World, x: Slot)
    requires (a.Store? || a.WriteResult?) && Does(a, w, t)
    ensures IsSlot(t, a.s) && t.objects[a.s.holder].fields[a.s.index] == a.v
    ensures x != a.s ==> SameSlot(w, t, x)
    ensures SameOwners(w, t) && t.heaps == w.heaps
  {
  }

  /** A new object belongs to the heap that asked for it and has as many empty slots as it asked for. */
  lemma AllocateAdds(w: World, t: World, h: HeapId, a: Address, n: nat, x: Slot)
    requires Does(Allocate(h, a, n), w, t)
    ensures t.objects.Keys == w.objects.Keys + {a} && a !in w.objects && t.heaps == w.heaps
    ensures t.objects[a].owner == h && |t.objects[a].fields| == n
    ensures forall i :: 0 <= i < n ==> t.objects[a].fields[i] == Null
    ensures forall b :: b in w.objects ==> t.objects[b].owner == w.objects[b].owner
    ensures x.holder != a ==> SameSlot(w, t, x)
  {
    NewSlots(n);
  }

  /** An object goes only if it is of that heap and no chain of its objects connects it to a root. */
  lemma CollectDrops(w: World, t: World, h: HeapId, roots: set<Reference>, a: Address)
    requires Does(Collect(h, roots), w, t) && a in w.objects
    ensures a in t.objects <==> w.objects[a].owner != h || Reachable(OwnStore(w, h), roots, a)
    ensures a in t.objects ==> t.objects[a] == w.objects[a]
    ensures t.objects.Keys <= w.objects.Keys && t.heaps == w.heaps
  {
  }

  /** The end of a region, or of a task without results, takes exactly its objects with it. */
  lemma LeavingDrops(a: Action, w: World, t: World, x: Address)
    requires Stratified(w) && (a.LeaveRegion? || a.EndTask?) && Does(a, w, t) && x in w.objects
    ensures x in t.objects <==> w.objects[x].owner != a.c
    ensures x in t.objects ==> t.objects[x] == w.objects[x]
    ensures t.objects.Keys <= w.objects.Keys && a.c !in t.heaps
  {
    assert HeapOk(w, a.c);
  }

  /** A finished task keeps exactly what its results reach. */
  lemma FinishKeepsResults(w: World, t: World, c: HeapId, a: Address)
    requires Does(FinishTask(c), w, t) && a in w.objects
    ensures a in t.objects <==> w.objects[a].owner != c || Reachable(OwnStore(w, c), SpanContents(w, c), a)
    ensures a in t.objects ==> t.objects[a] == w.objects[a]
  {
  }

  /** A join loses no object and changes no slot; the objects of the heap's tasks become its own. */
  lemma JoinAdopts(w: World, t: World, h: HeapId, a: Address, x: Slot)
    requires Stratified(w) && Does(Join(h), w, t) && a in w.objects
    ensures t.objects.Keys == w.objects.Keys && SameSlot(w, t, x)
    ensures var o := w.objects[a].owner;
            t.objects[a].owner == if o in w.heaps && w.heaps[o].parent == Some(h) then h else o
    ensures IsRunning(t, h)
  {
    if w.heaps[h].parent.Some? { assert HeapOk(w, h); }
  }

  // ----- ancestry -----

  /** Ancestry depends only on the parents of the heaps along it. */
  lemma {:induction false} LineSame(x: map<HeapId, HeapInfo>, y: map<HeapId, HeapInfo>, h: HeapId)
    requires h in x <==> h in y
    requires forall k :: k in x && k in y ==> x[k].parent == y[k].parent
    requires forall k :: k in x && x[k].parent.Some? && k in y ==> x[k].parent.value in x && x[k].parent.value in y
    ensures Line(x, h) == Line(y, h)
    decreases h
  {
    if h in x && x[h].parent.Some? && x[h].parent.value < h {
      LineSame(x, y, x[h].parent.value);
    }
  }

  /** Ancestors exist and are suspended; in particular a running or finished heap is nobody's ancestor. */
  lemma {:induction false} LineSuspended(w: World, h: HeapId, k: HeapId)
    requires h in w.heaps && k in Line(w.heaps, h)
    requires forall x :: x in w.heaps ==> HeapOk(w, x)
    ensures k in w.heaps && Suspended(w.heaps[k].condition)
    decreases h
  {
    assert HeapOk(w, h);
    var p := w.heaps[h].parent.value;
    if k != p {
      LineSuspended(w, p, k);
    }
  }

  lemma RunningIsNoAncestor(w: World, h: HeapId, k: HeapId)
    requires Stratified(w) && h in w.heaps && k in w.heaps && !Suspended(w.heaps[k].condition)
    ensures k !in Line(w.heaps, h)
  {
    if k in Line(w.heaps, h) {
      LineSuspended(w, h, k);
    }
  }

  lemma {:induction false} HasNoChildren(w: World, h: HeapId, c: HeapId)
    requires Stratified(w) && h in w.heaps && !Suspended(w.heaps[h].condition) && c in w.heaps
    ensures w.heaps[c].parent != Some(h)
  {
    assert HeapOk(w, c);
  }

  /** A reference stays readable while its target keeps its owner and the heap its ancestry. */
  lemma ReadableKept(w: World, t: World, h: HeapId, r: Reference)
    requires Readable(w, h, r) && Line(t.heaps, h) == Line(w.heaps, h)
    requires r.Object? ==> r.address in t.objects && t.objects[r.address].owner == w.objects[r.address].owner
    ensures Readable(t, h, r)
  {
  }

  // ----- steps that only change objects -----

  /** The heaps and their spans survive any change that keeps owners and field counts of the objects spans lie in. */
  lemma HeapsKept(w: World, t: World)
    requires Stratified(w) && t.heaps == w.heaps
    requires forall c, s :: SpanOf(w, c, s) ==> IsSlot(t, s) && t.objects[s.holder].owner == w.objects[s.holder].owner
    ensures forall h :: h in t.heaps ==> HeapOk(t, h)
    ensures forall c, d, s :: SpanOf(t, c, s) && SpanOf(t, d, s) ==> c == d
  {
    forall h | h in t.heaps ensures HeapOk(t, h) {
      assert HeapOk(w, h);
      assert forall s :: s in w.heaps[h].span ==> SpanOf(w, h, s);
    }
    forall c, d, s | SpanOf(t, c, s) && SpanOf(t, d, s) ensures c == d {
      assert SpanOf(w, c, s) && SpanOf(w, d, s);
    }
  }

  lemma SpanIsSlot(w: World, c: HeapId, s: Slot)
    requires Stratified(w) && SpanOf(w, c, s)
    ensures IsSlot(w, s) && w.heaps[c].parent == Some(w.objects[s.holder].owner)
    ensures w.objects[s.holder].owner in w.heaps && w.heaps[w.objects[s.holder].owner].condition == InScope
  {
    assert HeapOk(w, c);
  }

  lemma SlotKept(w: World, t: World, s: Slot)
    requires Stratified(w) && t.heaps == w.heaps && IsSlot(w, s) && IsSlot(t, s)
    requires t.objects[s.holder].owner == w.objects[s.holder].owner
    requires t.objects[s.holder].fields[s.index] == w.objects[s.holder].fields[s.index]
    requires var r := w.objects[s.holder].fields[s.index];
             r.Object? ==>
               && r.address in t.objects
               && (r.address in w.objects ==> t.objects[r.address].owner == w.objects[r.address].owner)
    ensures SlotOk(t, s)
  {
    var o := w.objects[s.holder];
    var r := o.fields[s.index];
    assert SlotOk(w, s);
    if Readable(w, o.owner, r) {
      ReadableKept(w, t, o.owner, r);
    } else {
      var c :| SpanOf(w, c, s) && Readable(w, c, r);
      ReadableKept(w, t, c, r);
      assert SpanOf(t, c, s);
    }
  }

  lemma SlotTargetExists(w: World, s: Slot)
    requires Stratified(w) && IsSlot(w, s)
    ensures var r := w.objects[s.holder].fields[s.index]; r.Object? ==> r.address in w.objects
  {
    assert SlotOk(w, s);
  }

  lemma AllocateKeeps(w: World, t: World, h: HeapId, x: Address, n: nat)
    requires Stratified(w) && Does(Allocate(h, x, n), w, t)
    ensures Stratified(t)
  {
    forall c, s | SpanOf(w, c, s) ensures IsSlot(t, s) && t.objects[s.holder].owner == w.objects[s.holder].owner {
      SpanIsSlot(w, c, s);
    }
    HeapsKept(w, t);
    forall s | IsSlot(t, s) ensures SlotOk(t, s) {
      if s.holder != x {
        assert IsSlot(w, s);
        SlotTargetExists(w, s);
        SlotKept(w, t, s);
      }
    }
  }

  /** Writing a readable value, into an own object or into the task's span. */
  lemma WriteKeeps(w: World, t: World, s: Slot, v: Reference)
    requires Stratified(w) && IsSlot(w, s) && t == w.(objects := WithField(w, s, v))
    requires Readable(w, w.objects[s.holder].owner, v) || InSpan(w, s, v)
    ensures Stratified(t)
  {
    forall c, x | SpanOf(w, c, x) ensures IsSlot(t, x) && t.objects[x.holder].owner == w.objects[x.holder].owner {
      SpanIsSlot(w, c, x);
    }
    HeapsKept(w, t);
    forall x | IsSlot(t, x) ensures SlotOk(t, x) {
      assert IsSlot(w, x);
      if x == s {
        if Readable(w, w.objects[s.holder].owner, v) {
          ReadableKept(w, t, w.objects[s.holder].owner, v);
        } else {
          var c :| SpanOf(w, c, s) && Readable(w, c, v);
          ReadableKept(w, t, c, v);
          assert SpanOf(t, c, s);
        }
      } else {
        SlotTargetExists(w, x);
        SlotKept(w, t, x);
      }
    }
  }

  /** What a running heap's own object is referred to from: the heap itself, or the span of that heap. */
  lemma OnlyOwnReferences(w: World, h: HeapId, s: Slot)
    requires Stratified(w) && IsSlot(w, s) && h in w.heaps && !Suspended(w.heaps[h].condition)
    requires var r := w.objects[s.holder].fields[s.index];
             r.Object? && r.address in w.objects && w.objects[r.address].owner == h
    ensures w.objects[s.holder].owner == h || SpanOf(w, h, s)
  {
    var o := w.objects[s.holder];
    var r := o.fields[s.index];
    assert SlotOk(w, s);
    if Readable(w, o.owner, r) {
      RunningIsNoAncestor(w, o.owner, h);
    } else {
      var c :| SpanOf(w, c, s) && Readable(w, c, r);
      RunningIsNoAncestor(w, c, h);
    }
  }

  lemma SweepKeepsTarget(w: World, h: HeapId, roots: set<Reference>, s: Slot)
    requires Stratified(w) && IsRunning(w, h) && SpanContents(w, h) <= roots
    requires IsSlot(w, s) && s.holder in Swept(w, h, roots)
    ensures var r := w.objects[s.holder].fields[s.index]; r.Object? ==> r.address in Swept(w, h, roots)
  {
    var o := w.objects[s.holder];
    var r := o.fields[s.index];
    SlotTargetExists(w, s);
    if r.Object? && w.objects[r.address].owner == h {
      OnlyOwnReferences(w, h, s);
      var own := OwnStore(w, h);
      if o.owner == h {
        assert HasField(own, s.holder, r.address);
        FieldIsReachable(own, roots, s.holder, r.address);
      } else {
        assert r in SpanContents(w, h);
        RootIsReachable(own, roots, r.address);
      }
    }
  }

  lemma SweepKeeps(w: World, t: World, h: HeapId, roots: set<Reference>)
    requires Stratified(w) && IsRunning(w, h) && SpanContents(w, h) <= roots
    requires t == w.(objects := Swept(w, h, roots))
    ensures Stratified(t)
  {
    forall c, s | SpanOf(w, c, s) ensures IsSlot(t, s) && t.objects[s.holder].owner == w.objects[s.holder].owner {
      SpanIsSlot(w, c, s);
    }
    HeapsKept(w, t);
    forall s | IsSlot(t, s) ensures SlotOk(t, s) {
      assert IsSlot(w, s);
      SweepKeepsTarget(w, h, roots, s);
      SlotTargetExists(w, s);
      SlotKept(w, t, s);
    }
  }

  // ----- steps that change heaps -----

  /** Objects are untouched and every heap keeps its ancestry, so every slot stays in order. */
  lemma SlotsKeptByHeaps(w: World, t: World)
    requires Stratified(w) && t.objects == w.objects
    requires forall k :: k in w.heaps ==> Line(t.heaps, k) == Line(w.heaps, k)
    requires forall c, s :: SpanOf(w, c, s) ==> SpanOf(t, c, s)
    ensures forall s :: IsSlot(t, s) ==> SlotOk(t, s)
  {
    forall s | IsSlot(t, s) ensures SlotOk(t, s) {
      assert IsSlot(w, s) && SlotOk(w, s);
      var o := w.objects[s.holder];
      var r := o.fields[s.index];
      if Readable(w, o.owner, r) {
        ReadableKept(w, t, o.owner, r);
      } else {
        var c :| SpanOf(w, c, s) && Readable(w, c, r);
        ReadableKept(w, t, c, r);
        assert SpanOf(t, c, s);
      }
    }
  }

  /** A heap without children may change its condition. */
  lemma SetConditionKeeps(w: World, t: World, h: HeapId, condition: Condition)
    requires Stratified(w) && h in w.heaps && (condition.Finished? ==> w.heaps[h].task)
    requires forall c :: c in w.heaps ==> w.heaps[c].parent != Some(h)
    requires t == w.(heaps := w.heaps[h := w.heaps[h].(condition := condition)])
    ensures Stratified(t)
  {
    forall k | k in t.heaps ensures HeapOk(t, k) {
      assert HeapOk(w, k);
    }
    ParentsKept(w, t);
    SlotsKeptByHeaps(w, t);
    forall c, d, s | SpanOf(t, c, s) && SpanOf(t, d, s) ensures c == d {
      assert SpanOf(w, c, s) && SpanOf(w, d, s);
    }
  }

  lemma ParentsKept(w: World, t: World)
    requires Stratified(w) && (forall k :: k in w.heaps ==> k in t.heaps && t.heaps[k].parent == w.heaps[k].parent)
    ensures forall k :: k in w.heaps ==> Line(t.heaps, k) == Line(w.heaps, k)
  {
    forall k | k in w.heaps ensures Line(t.heaps, k) == Line(w.heaps, k) {
      forall x | x in w.heaps && w.heaps[x].parent.Some? ensures w.heaps[x].parent.value in w.heaps {
        assert HeapOk(w, x);
      }
      LineSame(w.heaps, t.heaps, k);
    }
  }

  /** A new child of a heap that is suspended for it. */
  lemma AddHeapKeeps(w: World, t: World, h: HeapId, c: HeapId, task: bool, span: set<Slot>)
    requires Stratified(w) && h in w.heaps && c !in w.heaps && h < c
    requires w.heaps[h].condition == if task then InScope else InRegion(c)
    requires !task ==> span == {}
    requires forall s :: s in span ==> IsSlot(w, s) && w.objects[s.holder].owner == h && forall d :: !SpanOf(w, d, s)
    requires t == w.(heaps := w.heaps[c := HeapInfo(Some(h), Running, task, span)])
    ensures Stratified(t)
  {
    forall k | k in t.heaps ensures HeapOk(t, k) {
      if k != c {
        assert HeapOk(w, k);
      }
    }
    ParentsKept(w, t);
    assert forall d, s :: SpanOf(w, d, s) ==> SpanOf(t, d, s);
    SlotsKeptByHeaps(w, t);
    forall d, e, s | SpanOf(t, d, s) && SpanOf(t, e, s) ensures d == e {
      assert (d != c ==> SpanOf(w, d, s)) && (e != c ==> SpanOf(w, e, s));
    }
  }

  lemma EnterRegionKeeps(w: World, t: World, h: HeapId, c: HeapId)
    requires Stratified(w) && Does(EnterRegion(h, c), w, t)
    ensures Stratified(t)
  {
    var m := w.(heaps := w.heaps[h := w.heaps[h].(condition := InRegion(c))]);
    forall k | k in w.heaps ensures w.heaps[k].parent != Some(h) {
      HasNoChildren(w, h, k);
    }
    SetConditionKeeps(w, m, h, InRegion(c));
    AddHeapKeeps(m, t, h, c, false, {});
  }

  /** A running heap without results disappears with all its objects, and nothing is left pointing at them. */
  lemma DropHeapKeeps(w: World, t: World, c: HeapId)
    requires Stratified(w) && IsRunning(w, c) && w.heaps[c].span == {}
    requires t == World(w.heaps - {c}, Without(w, c))
    ensures Stratified(t)
  {
    forall k | k in t.heaps ensures HeapOk(t, k) && Line(t.heaps, k) == Line(w.heaps, k) {
      DropHeapKeepsHeap(w, t, c, k);
    }
    forall a | a in t.objects ensures t.objects[a].owner in t.heaps {
      assert w.objects[a].owner in w.heaps;
    }
    forall s | IsSlot(t, s) ensures SlotOk(t, s) {
      assert IsSlot(w, s);
      DropHeapKeepsSlot(w, t, c, s);
    }
    forall d, e, s | SpanOf(t, d, s) && SpanOf(t, e, s) ensures d == e {
      assert SpanOf(w, d, s) && SpanOf(w, e, s);
    }
  }

  lemma DropHeapKeepsHeap(w: World, t: World, c: HeapId, k: HeapId)
    requires Stratified(w) && IsRunning(w, c) && k in w.heaps && k != c
    requires t == World(w.heaps - {c}, Without(w, c))
    ensures HeapOk(t, k) && Line(t.heaps, k) == Line(w.heaps, k)
  {
    assert HeapOk(w, k);
    HasNoChildren(w, c, k);
    forall x | x in w.heaps && w.heaps[x].parent.Some?
      ensures w.heaps[x].parent.value in w.heaps && w.heaps[x].parent.value != c {
      assert HeapOk(w, x);
      HasNoChildren(w, c, x);
    }
    LineSame(w.heaps, t.heaps, k);
  }

  lemma DropHeapKeepsSlot(w: World, t: World, c: HeapId, s: Slot)
    requires Stratified(w) && IsRunning(w, c) && w.heaps[c].span == {} && IsSlot(w, s) && w.objects[s.holder].owner != c
    requires t == World(w.heaps - {c}, Without(w, c))
    requires forall k :: k in t.heaps ==> Line(t.heaps, k) == Line(w.heaps, k)
    ensures SlotOk(t, s)
  {
    var o := w.objects[s.holder];
    var r := o.fields[s.index];
    SlotTargetExists(w, s);
    if r.Object? && w.objects[r.address].owner == c {
      OnlyOwnReferences(w, c, s);
    }
    assert SlotOk(w, s);
    if Readable(w, o.owner, r) {
      ReadableKept(w, t, o.owner, r);
    } else {
      var d :| SpanOf(w, d, s) && Readable(w, d, r);
      ReadableKept(w, t, d, r);
      assert SpanOf(t, d, s);
    }
  }

  /** Leaving a region: its parent had no other child, and runs again. */
  lemma LeaveRegionKeeps(w: World, t: World, c: HeapId)
    requires Stratified(w) && Does(LeaveRegion(c), w, t)
    ensures Stratified(t)
  {
    var h := w.heaps[c].parent.value;
    var m := World(w.heaps - {c}, Without(w, c));
    assert HeapOk(w, c);
    DropHeapKeeps(w, m, c);
    forall k | k in m.heaps ensures m.heaps[k].parent != Some(h) {
      assert HeapOk(w, k);
    }
    SetConditionKeeps(m, t, h, Running);
  }

  lemma FinishTaskKeeps(w: World, t: World, c: HeapId)
    requires Stratified(w) && Does(FinishTask(c), w, t)
    ensures Stratified(t)
  {
    var m := w.(objects := Swept(w, c, SpanContents(w, c)));
    SweepKeeps(w, m, c, SpanContents(w, c));
    forall k | k in m.heaps ensures m.heaps[k].parent != Some(c) {
      HasNoChildren(w, c, k);
    }
    SetConditionKeeps(m, t, c, Finished);
  }

  // ----- join -----

  function Joined(w: World, h: HeapId, k: HeapId): HeapId {
    if k in w.heaps && w.heaps[k].parent == Some(h) then h else k
  }

  /** Remaining heaps keep their parents: the joined children had no children of their own. */
  lemma JoinKeepsHeap(w: World, t: World, h: HeapId, k: HeapId)
    requires Stratified(w) && Does(Join(h), w, t) && k in t.heaps
    ensures HeapOk(t, k) && Line(t.heaps, k) == Line(w.heaps, k)
  {
    assert HeapOk(w, k);
    forall x | x in t.heaps && w.heaps[x].parent.Some? ensures w.heaps[x].parent.value in t.heaps {
      JoinedHasNoChild(w, h, x);
    }
    if w.heaps[k].parent.Some? { JoinedHasNoChild(w, h, k); }
    LineSame(w.heaps, t.heaps, k);
  }

  lemma JoinedHasNoChild(w: World, h: HeapId, x: HeapId)
    requires Stratified(w) && x in w.heaps && w.heaps[x].parent.Some?
    requires forall c :: c in w.heaps && w.heaps[c].parent == Some(h) ==> w.heaps[c].condition == Finished
    ensures w.heaps[x].parent.value in w.heaps && w.heaps[w.heaps[x].parent.value].parent != Some(h)
  {
    assert HeapOk(w, x);
  }

  /** What a heap could read before the join, its successor can read after. */
  lemma JoinKeepsReadable(w: World, t: World, h: HeapId, k: HeapId, r: Reference)
    requires Stratified(w) && Does(Join(h), w, t) && k in w.heaps && Readable(w, k, r)
    requires forall x :: x in t.heaps ==> Line(t.heaps, x) == Line(w.heaps, x)
    ensures Readable(t, Joined(w, h, k), r)
  {
    if r.Object? {
      var j := w.objects[r.address].owner;
      assert t.objects[r.address].owner == Joined(w, h, j);
      if j != k {
        LineSuspended(w, k, j);
        assert Joined(w, h, j) == j;
      }
    }
  }

  lemma JoinKeeps(w: World, t: World, h: HeapId)
    requires Stratified(w) && Does(Join(h), w, t)
    ensures Stratified(t)
  {
    forall k | k in t.heaps ensures HeapOk(t, k) && Line(t.heaps, k) == Line(w.heaps, k) {
      JoinKeepsHeap(w, t, h, k);
    }
    forall a | a in t.objects ensures t.objects[a].owner in t.heaps {
      assert w.objects[a].owner in w.heaps;
    }
    forall s | IsSlot(t, s) ensures SlotOk(t, s) {
      JoinKeepsSlot(w, t, h, s);
    }
    forall d, e, s | SpanOf(t, d, s) && SpanOf(t, e, s) ensures d == e {
      assert SpanOf(w, d, s) && SpanOf(w, e, s);
    }
  }

  lemma JoinKeepsSlot(w: World, t: World, h: HeapId, s: Slot)
    requires Stratified(w) && Does(Join(h), w, t) && IsSlot(t, s)
    requires forall x :: x in t.heaps ==> Line(t.heaps, x) == Line(w.heaps, x)
    ensures SlotOk(t, s)
  {
    assert IsSlot(w, s) && SlotOk(w, s);
    var o := w.objects[s.holder];
    var r := o.fields[s.index];
    assert t.objects[s.holder] == o.(owner := Joined(w, h, o.owner));
    if Readable(w, o.owner, r) {
      JoinKeepsReadable(w, t, h, o.owner, r);
    } else {
      var c :| SpanOf(w, c, s) && Readable(w, c, r);
      SpanIsSlot(w, c, s);
      JoinKeepsReadable(w, t, h, c, r);
      if Joined(w, h, c) == c {
        assert SpanOf(t, c, s);
      }
    }
  }

  // ----- every run -----

  lemma StepKeeps(a: Action, w: World, t: World)
    requires Stratified(w) && Does(a, w, t)
    ensures Stratified(t)
  {
    match a
    case Allocate(h, x, n) => AllocateKeeps(w, t, h, x, n);
    case Store(h, s, v) => WriteKeeps(w, t, s, v);
    case Collect(h, roots) => SweepKeeps(w, t, h, roots);
    case EnterRegion(h, c) => EnterRegionKeeps(w, t, h, c);
    case LeaveRegion(c) => LeaveRegionKeeps(w, t, c);
    case EnterScope(h) =>
      forall k | k in w.heaps ensures w.heaps[k].parent != Some(h) {
        HasNoChildren(w, h, k);
      }
      SetConditionKeeps(w, t, h, InScope);
    case StartTask(h, c, span) => AddHeapKeeps(w, t, h, c, true, span);
    case WriteResult(c, s, v) =>
      assert SpanOf(w, c, s);
      WriteKeeps(w, t, s, v);
    case EndTask(c) => DropHeapKeeps(w, t, c);
    case FinishTask(c) => FinishTaskKeeps(w, t, c);
    case Join(h) => JoinKeeps(w, t, h);
  }

  /** Any number of independent heaps, all running and empty. */
  ghost predicate Initial(w: World) {
    && w.objects == map[]
    && forall h :: h in w.heaps ==> w.heaps[h] == HeapInfo(None, Running, false, {})
  }

  ghost predicate IsTrace(worlds: seq<World>, actions: seq<Action>) {
    && |worlds| == |actions| + 1 && Initial(worlds[0])
    && forall i :: 0 <= i < |actions| ==> Does(actions[i], worlds[i], worlds[i + 1])
  }

  /**
   * Whatever the interleaving of mutators, collections, regions and tasks, references only point to their own heap or
   * up.
   */
  lemma {:induction false} StratifiedAlways(worlds: seq<World>, actions: seq<Action>, i: nat)
    requires IsTrace(worlds, actions) && i < |worlds|
    ensures Stratified(worlds[i])
  {
    if i > 0 {
      StratifiedAlways(worlds, actions, i - 1);
      assert Does(actions[i - 1], worlds[i - 1], worlds[i - 1 + 1]);
      StepKeeps(actions[i - 1], worlds[i - 1], worlds[i]);
    }
  }

  /** No run leaves a slot of a live object pointing at an object that is gone. */
  lemma NothingDangles(worlds: seq<World>, actions: seq<Action>, i: nat, s: Slot)
    requires IsTrace(worlds, actions) && i < |worlds| && IsSlot(worlds[i], s)
    ensures var r := worlds[i].objects[s.holder].fields[s.index]; r.Object? ==> r.address in worlds[i].objects
  {
    StratifiedAlways(worlds, actions, i);
    SlotTargetExists(worlds[i], s);
  }

  /** Outside the spans of unjoined tasks a slot leads to its own heap or to a suspended ancestor. */
  lemma ReferencesPointUp(w: World, s: Slot)
    requires Stratified(w) && IsSlot(w, s) && forall c :: !SpanOf(w, c, s)
    ensures var o := w.objects[s.holder];
            var r := o.fields[s.index];
            r.Object? ==> && r.address in w.objects
                          && var k := w.objects[r.address].owner;
                          && o.owner in w.heaps
                          && (k != o.owner ==>
                                k in Line(w.heaps, o.owner) && k in w.heaps && Suspended(w.heaps[k].condition))
  {
    var o := w.objects[s.holder];
    var r := o.fields[s.index];
    assert SlotOk(w, s);
    if r.Object? && w.objects[r.address].owner != o.owner {
      LineSuspended(w, o.owner, w.objects[r.address].owner);
    }
  }

  /**
   * A join ends every exception: no task's span lies in the heap that runs again, and all its references can be read
   * from it.
   */
  lemma JoinClearsSpans(w: World, t: World, h: HeapId, c: HeapId, s: Slot)
    requires Stratified(w) && Does(Join(h), w, t) && IsSlot(t, s) && t.objects[s.holder].owner == h
    ensures !SpanOf(t, c, s)
    ensures Readable(t, h, t.objects[s.holder].fields[s.index])
  {
    JoinKeeps(w, t, h);
    forall x ensures !SpanOf(t, x, s) {
      if SpanOf(t, x, s) { SpanIsSlot(t, x, s); }
    }
    assert SlotOk(t, s);
  }

  /** The lookup of the reference check: this heap, then each ancestor that is suspended. */
  method FindReadable(w: World, h: HeapId, a: Address) returns (ok: bool)
    requires Stratified(w) && h in w.heaps
    ensures ok <==> Readable(w, h, Object(a))
  {
    if a !in w.objects { return false; }
    var owner := w.objects[a].owner;
    if owner == h { return true; }
    var k := h;
    while w.heaps[k].parent.Some?
      invariant k in w.heaps && (owner in Line(w.heaps, h) <==> owner in Line(w.heaps, k))
      decreases k
    {
      var p := w.heaps[k].parent.value;
      assert HeapOk(w, k);
      if owner == p && Suspended(w.heaps[p].condition) { return true; }
      k := p;
    }
    return false;
  }

  // ----- the steps can be taken -----

  ghost predicate Reached(w: World) {
    exists worlds, actions :: IsTrace(worlds, actions) && worlds[|worlds| - 1] == w
  }

  lemma ReachedFirst(w: World)
    requires Initial(w)
    ensures Reached(w)
  {
    assert IsTrace([w], []);
  }

  lemma ReachedNext(a: Action, w: World, t: World)
    requires Reached(w) && Does(a, w, t)
    ensures Reached(t)
  {
    var worlds, actions :| IsTrace(worlds, actions) && worlds[|worlds| - 1] == w;
    var more, acts := worlds + [t], actions + [a];
    forall i | 0 <= i < |acts| ensures Does(acts[i], more[i], more[i + 1]) {
      if i < |actions| { assert Does(actions[i], worlds[i], worlds[i + 1]); }
    }
    assert IsTrace(more, acts) && more[|more| - 1] == t;
  }

  const IDLE: HeapInfo := HeapInfo(None, Running, false, {})

  /** The world with one more object, with one empty slot. */
  ghost function Allocated(w: World, h: HeapId, a: Address): (t: World)
    requires IsRunning(w, h) && a !in w.objects
    ensures Does(Allocate(h, a, 1), w, t) && t == w.(objects := w.objects[a := Owned(h, [Null])])
  {
    NewSlots(1);
    w.(objects := w.objects[a := Owned(h, [Null])])
  }

  /** A heap with one object. */
  lemma OneObject() returns (w: World)
    ensures Reached(w) && w == World(map[0 := IDLE], map[1 := Owned(0, [Null])])
  {
    var start := World(map[0 := IDLE], map[]);
    ReachedFirst(start);
    w := Allocated(start, 0, 1);
    ReachedNext(Allocate(0, 1, 1), start, w);
  }

  /** There are runs in which an object of a region refers to one of the heap it is suspended on. */
  lemma RegionRefersUp() returns (w: World)
    ensures Reached(w) && IsSlot(w, Slot(2, 0)) && w.objects[2].fields[0] == Object(1)
    ensures 1 in w.objects && w.objects[2].owner == 1 && w.objects[1].owner == 0
    ensures IsRunning(w, 1) && 0 in w.heaps && w.heaps[0].condition == InRegion(1)
  {
    var w1 := OneObject();
    var w2 := w1.(heaps := w1.heaps[0 := IDLE.(condition := InRegion(1))][1 := IDLE.(parent := Some(0))]);
    ReachedNext(EnterRegion(0, 1), w1, w2);
    var w3 := Allocated(w2, 1, 2);
    ReachedNext(Allocate(1, 2, 1), w2, w3);
    assert Line(w3.heaps, 1) == {0};
    w := w3.(objects := w3.objects[2 := Owned(1, [Object(1)])]);
    assert [Null][0 := Object(1)] == [Object(1)];
    ReachedNext(Store(1, Slot(2, 0), Object(1)), w3, w);
  }

  const SCOPE: HeapInfo := HeapInfo(None, InScope, false, {})

  const TASK: HeapInfo := HeapInfo(Some(0), Running, true, {Slot(1, 0)})

  lemma TaskRuns() returns (w: World)
    ensures Reached(w) && w == World(map[0 := SCOPE, 1 := TASK], map[1 := Owned(0, [Null])])
  {
    var w1 := OneObject();
    var w2 := w1.(heaps := map[0 := SCOPE]);
    assert w1.heaps[0 := SCOPE] == map[0 := SCOPE];
    ReachedNext(EnterScope(0), w1, w2);
    w := w2.(heaps := map[0 := SCOPE, 1 := TASK]);
    assert w2.heaps[1 := TASK] == w.heaps;
    ReachedNext(StartTask(0, 1, {Slot(1, 0)}), w2, w);
  }

  lemma TaskAnswers() returns (w: World)
    ensures Reached(w)
    ensures w == World(map[0 := SCOPE, 1 := TASK], map[1 := Owned(0, [Object(2)]), 2 := Owned(1, [Null])])
  {
    var w1 := TaskRuns();
    var w2 := Allocated(w1, 1, 2);
    ReachedNext(Allocate(1, 2, 1), w1, w2);
    assert [Null][0 := Object(2)] == [Object(2)];
    w := w2.(objects := w2.objects[1 := Owned(0, [Object(2)])]);
    ReachedNext(WriteResult(1, Slot(1, 0), Object(2)), w2, w);
  }

  lemma TaskFinishes() returns (w: World)
    ensures Reached(w) && w.heaps == map[0 := SCOPE, 1 := TASK.(condition := Finished)]
    ensures w.objects == map[1 := Owned(0, [Object(2)]), 2 := Owned(1, [Null])]
  {
    var w1 := TaskAnswers();
    w := w1.(heaps := map[0 := SCOPE, 1 := TASK.(condition := Finished)]);
    ResultIsKept(w1, 1, 2, Slot(1, 0));
    assert w1.heaps[1 := TASK.(condition := Finished)] == w.heaps;
    ReachedNext(FinishTask(1), w1, w);
  }

  lemma ResultIsKept(w: World, c: HeapId, a: Address, s: Slot)
    requires c in w.heaps && s in w.heaps[c].span && IsSlot(w, s) && w.objects[s.holder].fields[s.index] == Object(a)
    requires a in w.objects && forall b :: b in w.objects && w.objects[b].owner == c ==> b == a
    ensures Swept(w, c, SpanContents(w, c)) == w.objects
  {
    assert Object(a) in SpanContents(w, c);
    if w.objects[a].owner == c { RootIsReachable(OwnStore(w, c), SpanContents(w, c), a); }
  }

  lemma OnlyParent(heaps: map<HeapId, HeapInfo>)
    requires heaps == map[0 := SCOPE, 1 := TASK.(condition := Finished)]
    ensures (map k | k in heaps && heaps[k].parent != Some(0) :: heaps[k]) == map[0 := SCOPE]
  {
  }

  lemma TaskJoins(w: World, t: World)
    requires w.heaps == map[0 := SCOPE, 1 := TASK.(condition := Finished)]
    requires t == World(map[0 := IDLE], Adopted(w, 0))
    ensures Does(Join(0), w, t)
  {
    OnlyParent(w.heaps);
    assert map[0 := SCOPE][0 := SCOPE.(condition := Running)] == t.heaps;
  }

  /** There are runs in which a result slot refers to the adopted object of a joined task. */
  lemma JoinedResult() returns (w: World, t: World)
    ensures Reached(w) && Does(Join(0), w, t) && Reached(t)
    ensures 2 in w.objects && w.objects[2].owner == 1
    ensures IsSlot(t, Slot(1, 0)) && t.objects[1].fields[0] == Object(2)
    ensures 2 in t.objects && t.objects[1].owner == 0 && t.objects[2].owner == 0 && t.heaps.Keys == {0}
  {
    w := TaskFinishes();
    t := World(map[0 := IDLE], Adopted(w, 0));
    TaskJoins(w, t);
    ReachedNext(Join(0), w, t);
  }
}
