/** Running a selected function in a discarded heap of its own means the same as running it in its caller's heap. */
module RegionMeaning {
  import opened Ir
  import opened Cfg
  import opened Collections
  import opened RegionSelection
  import opened RegionExecution

  // ----- two runs that differ only in where their objects are -----

  type Renaming = map<Addr, Addr>

  predicate Same(r: Renaming, v: Value, w: Value) {
    match v
    case Ref(a) => a in r && w == Ref(r[a])
    case Just(x) => w.Just? && Same(r, x, w.inner)
    case _ => v == w
  }

  ghost predicate SameAll(r: Renaming, vs: seq<Value>, ws: seq<Value>) {
    |vs| == |ws| && forall i {:trigger vs[i]} {:trigger ws[i]} :: 0 <= i < |vs| ==> Same(r, vs[i], ws[i])
  }

  ghost predicate SameObject(r: Renaming, o: Object, q: Object) { o.kind == q.kind && SameAll(r, o.slots, q.slots) }

  ghost predicate SameAt(r: Renaming, h: Heap, k: Heap, a: Addr)
    requires a in r
  {
    a in h && r[a] in k && SameObject(r, h[a], k[r[a]])
  }

  /** The objects the renaming knows are the same on both sides, and it confuses none. */
  ghost predicate Related(r: Renaming, h: Heap, k: Heap) {
    && (forall a {:trigger SameAt(r, h, k, a)} :: a in r ==> SameAt(r, h, k, a))
    && forall a, b {:trigger ToldApart(r, a, b)} :: a in r && b in r && a != b ==> ToldApart(r, a, b)
  }

  predicate ToldApart(r: Renaming, a: Addr, b: Addr)
    requires a in r && b in r
  {
    r[a] != r[b]
  }

  ghost predicate SameLocals(r: Renaming, ls: Locals, ms: Locals) {
    ls.Keys == ms.Keys && forall x {:trigger ls[x]} {:trigger ms[x]} :: x in ls ==> Same(r, ls[x], ms[x])
  }

  /** What the callers hold in each run; `shared` are the left addresses of objects both hold. */
  datatype Hold = Hold(left: set<Addr>, right: set<Addr>, shared: set<Addr>)

  ghost predicate Holds(g: Hold, r: Renaming) {
    g.shared <= g.left && forall a :: a in g.shared ==> a in r && r[a] in g.right
  }

  ghost predicate Kept(r: Renaming, q: Renaming, shared: set<Addr>) {
    forall a :: a in shared && a in r ==> a in q && q[a] == r[a]
  }

  /** Objects in reach of `roots`. */
  ghost predicate Anchored(h: Heap, roots: set<Addr>, u: set<Addr>) {
    u <= h.Keys && forall keep {:trigger Keeps(h, roots, keep)} :: Keeps(h, roots, keep) ==> u <= keep
  }

  ghost predicate Untouched(h: Heap, k: Heap, u: set<Addr>) {
    forall a :: a in u ==> a in h && a in k && k[a] == h[a]
  }

  /** Objects of the left run that callers reach and the renaming does not know stay as they are, and in reach. */
  ghost predicate Spared(r: Renaming, q: Renaming, h: Heap, k: Heap, roots: set<Addr>) {
    forall some: set<Addr>, u: set<Addr> {:trigger Anchored(h, some, u)} ::
      some <= roots && Anchored(h, some, u) && u !! r.Keys ==> Untouched(h, k, u) && Anchored(k, some, u) && u !! q.Keys
  }

  /**
   * What a stretch of both runs leaves behind: objects known to be the same, among them what the callers share;
   * ancestors untouched; and on the left everything else the callers reach as it was.
   */
  ghost predicate Moved(g: Hold, r: Renaming, q: Renaming, s: Stack, s': Stack, t: Stack, t': Stack) {
    && Kept(r, q, g.shared) && Related(q, s'.current, t'.current)
    && s'.suspended == s.suspended && t'.suspended == t.suspended
    && Spared(r, q, s.current, s'.current, g.left)
  }

  lemma SparedAll(r: Renaming, q: Renaming, h: Heap, roots: set<Addr>)
    requires q.Keys <= r.Keys
    ensures Spared(r, q, h, h, roots)
  {
  }

  lemma MovedNowhere(g: Hold, r: Renaming, s: Stack, t: Stack)
    requires Related(r, s.current, t.current)
    ensures Moved(g, r, r, s, s, t, t)
  {
    SparedAll(r, r, s.current, g.left);
  }

  lemma SparedOn(r: Renaming, q: Renaming, x: Renaming, h: Heap, k: Heap, l: Heap, roots: set<Addr>)
    requires Spared(r, q, h, k, roots) && Spared(q, x, k, l, roots)
    ensures Spared(r, x, h, l, roots)
  {
    forall some: set<Addr>, u: set<Addr> | some <= roots && Anchored(h, some, u) && u !! r.Keys
      ensures Untouched(h, l, u) && Anchored(l, some, u) && u !! x.Keys
    {
      assert Untouched(h, k, u) && Anchored(k, some, u) && u !! q.Keys;
      assert Untouched(k, l, u);
    }
  }

  lemma MovedOn(g: Hold, r: Renaming, q: Renaming, x: Renaming, s: Stack, s': Stack, s'': Stack, t: Stack, t': Stack,
                t'': Stack)
    requires Moved(g, r, q, s, s', t, t') && Moved(g, q, x, s', s'', t', t'')
    ensures Moved(g, r, x, s, s'', t, t'')
  {
    SparedOn(r, q, x, s.current, s'.current, s''.current, g.left);
  }

  /** Less may be held than was. */
  lemma MovedHolding(g: Hold, more: Hold, r: Renaming, q: Renaming, s: Stack, s': Stack, t: Stack, t': Stack)
    requires Moved(more, r, q, s, s', t, t') && g.left <= more.left && g.shared <= more.shared
    ensures Moved(g, r, q, s, s', t, t')
  {
  }

  lemma HoldsOn(g: Hold, r: Renaming, q: Renaming)
    requires Holds(g, r) && Kept(r, q, g.shared)
    ensures Holds(g, q)
  {
  }

  // ----- values -----

  /** A value means the same under a renaming that agrees on the reference in it. */
  lemma {:induction false} SameUnder(r: Renaming, q: Renaming, v: Value, w: Value)
    requires Same(r, v, w) && forall a :: a in Refs(v) ==> a in q && (a in r ==> q[a] == r[a])
    ensures Same(q, v, w)
  {
    match v
    case Just(x) => SameUnder(r, q, x, w.inner);
    case _ =>
  }

  lemma {:induction false} SameRefs(r: Renaming, v: Value, w: Value)
    requires Same(r, v, w)
    ensures forall a :: a in Refs(v) ==> a in r && r[a] in Refs(w)
    ensures forall b :: b in Refs(w) ==> exists a :: a in Refs(v) && r[a] == b
  {
    match v
    case Just(x) => SameRefs(r, x, w.inner);
    case Ref(a) => assert a in Refs(v);
    case _ =>
  }

  lemma SameAllUnder(r: Renaming, q: Renaming, vs: seq<Value>, ws: seq<Value>)
    requires SameAll(r, vs, ws) && forall a :: a in RefsOf(vs) ==> a in q && (a in r ==> q[a] == r[a])
    ensures SameAll(q, vs, ws)
  {
    forall i | 0 <= i < |vs| ensures Same(q, vs[i], ws[i]) { SameUnder(r, q, vs[i], ws[i]); }
  }

  lemma SameAllRefs(r: Renaming, vs: seq<Value>, ws: seq<Value>)
    requires SameAll(r, vs, ws)
    ensures forall a :: a in RefsOf(vs) ==> a in r && r[a] in RefsOf(ws)
  {
    forall i | 0 <= i < |vs| ensures forall a :: a in Refs(vs[i]) ==> a in r && r[a] in RefsOf(ws) {
      SameRefs(r, vs[i], ws[i]);
    }
  }

  lemma SameLocalsUnder(r: Renaming, q: Renaming, ls: Locals, ms: Locals)
    requires SameLocals(r, ls, ms) && forall a :: a in RefsIn(ls) ==> a in q && (a in r ==> q[a] == r[a])
    ensures SameLocals(q, ls, ms)
  {
    forall x | x in ls ensures Same(q, ls[x], ms[x]) { SameUnder(r, q, ls[x], ms[x]); }
  }

  lemma SameLocalsRefs(r: Renaming, ls: Locals, ms: Locals)
    requires SameLocals(r, ls, ms)
    ensures forall a :: a in RefsIn(ls) ==> a in r && r[a] in RefsIn(ms)
  {
    forall x | x in ls ensures forall a :: a in Refs(ls[x]) ==> a in r && r[a] in RefsIn(ms) {
      SameRefs(r, ls[x], ms[x]);
    }
  }

  lemma {:induction false} NoReferenceSame(r: Renaming, v: Value)
    requires NoReference(v)
    ensures Same(r, v, v)
  {
    match v
    case Just(x) => NoReferenceSame(r, x);
    case _ =>
  }

  lemma {:induction false} SameWithoutReference(r: Renaming, v: Value, w: Value)
    requires Same(r, v, w)
    ensures NoReference(v) == NoReference(w) && (NoReference(v) ==> v == w)
  {
    match v
    case Just(x) => SameWithoutReference(r, x, w.inner);
    case _ =>
  }

  lemma SameFind(r: Renaming, s: Stack, t: Stack, v: Value, w: Value)
    requires Related(r, s.current, t.current) && Same(r, v, w) && v.Ref?
    ensures w.Ref? && v.address in r && v.address in s.current && w.address in t.current && w.address == r[v.address]
    ensures SameObject(r, s.current[v.address], t.current[w.address])
  {
    assert SameAt(r, s.current, t.current, v.address);
  }

  lemma SameText(r: Renaming, s: Stack, t: Stack, v: Value, w: Value)
    requires Related(r, s.current, t.current) && Same(r, v, w)
    ensures TextOf(s, v) == TextOf(t, w)
  {
    if v.Ref? {
      SameFind(r, s, t, v, w);
      var o, q := s.current[v.address], t.current[w.address];
      assert AllScalars(o.slots) == AllScalars(q.slots);
      if AllScalars(o.slots) { assert Numbers(o.slots) == Numbers(q.slots); }
    }
  }

  // ----- collections -----

  lemma SmallerRoots(h: Heap, some: set<Addr>, roots: set<Addr>, keep: set<Addr>)
    requires some <= roots && Keeps(h, roots, keep)
    ensures Keeps(h, some, keep)
  {
  }

  /** What a set keeps of a collected heap, it would have kept of the heap before. */
  lemma KeepsBefore(h: Heap, some: set<Addr>, keep: set<Addr>, inner: set<Addr>)
    requires Keeps(h, some, keep) && Keeps(Only(h, keep), some, inner)
    ensures Keeps(h, some, inner)
  {
    forall a, c | a in inner && Points(h, a, c) ensures c in inner {
      assert c in keep;
      assert Points(Only(h, keep), a, c);
    }
  }

  lemma CollectSpares(r: Renaming, q: Renaming, h: Heap, roots: set<Addr>, keep: set<Addr>)
    requires Keeps(h, roots, keep) && q.Keys <= r.Keys
    ensures Spared(r, q, h, Only(h, keep), roots)
  {
    var k := Only(h, keep);
    forall some: set<Addr>, u: set<Addr> | some <= roots && Anchored(h, some, u) && u !! r.Keys
      ensures Untouched(h, k, u) && Anchored(k, some, u) && u !! q.Keys
    {
      SmallerRoots(h, some, roots, keep);
      forall inner | Keeps(k, some, inner) ensures u <= inner { KeepsBefore(h, some, keep, inner); }
    }
  }

  function Narrowed(r: Renaming, h: Heap, k: Heap): Renaming { map a | a in r && a in h && r[a] in k :: r[a] }

  lemma SlotPoints(r: Renaming, h: Heap, k: Heap, a: Addr, i: nat, c: Addr)
    requires Related(r, h, k) && a in r && a in h && i < |h[a].slots| && c in Refs(h[a].slots[i])
    ensures c in r && Points(h, a, c) && r[a] in k && Points(k, r[a], r[c])
  {
    assert SameAt(r, h, k, a);
    SameRefs(r, h[a].slots[i], k[r[a]].slots[i]);
    assert SameAt(r, h, k, c);
  }

  lemma NarrowedAt(r: Renaming, h: Heap, k: Heap, keep: set<Addr>, keep': set<Addr>, a: Addr)
    requires Related(r, h, k) && Keeps(h, {}, keep) && Keeps(k, {}, keep')
    requires a in Narrowed(r, Only(h, keep), Only(k, keep'))
    ensures SameAt(Narrowed(r, Only(h, keep), Only(k, keep')), Only(h, keep), Only(k, keep'), a)
  {
    var x := Narrowed(r, Only(h, keep), Only(k, keep'));
    assert SameAt(r, h, k, a);
    forall i | 0 <= i < |h[a].slots| ensures Same(x, h[a].slots[i], k[r[a]].slots[i]) {
      forall c | c in Refs(h[a].slots[i]) ensures c in x && x[c] == r[c] {
        SlotPoints(r, h, k, a, i, c);
      }
      SameUnder(r, x, h[a].slots[i], k[r[a]].slots[i]);
    }
  }

  /** Both runs may collect, each in its own way: what callers hold and what is shared with them stays. */
  lemma CollectMoves(g: Hold, r: Renaming, m: Memory, m': Memory, s: Stack, t: Stack) returns (x: Renaming)
    requires Related(r, s.current, t.current) && Holds(g, r) && Sane(m) && Sane(m')
    ensures Moved(g, r, x, s, Collected(m, s, g.left), t, Collected(m', t, g.right))
  {
    var keep, keep' := m.collect(s.current, g.left), m'.collect(t.current, g.right);
    var h, k := Only(s.current, keep), Only(t.current, keep');
    assert CollectsWell(m, s.current, g.left) && CollectsWell(m', t.current, g.right);
    SmallerRoots(s.current, {}, g.left, keep);
    SmallerRoots(t.current, {}, g.right, keep');
    x := Narrowed(r, h, k);
    forall a | a in x ensures SameAt(x, h, k, a) { NarrowedAt(r, s.current, t.current, keep, keep', a); }
    forall a, b | a in x && b in x && a != b ensures ToldApart(x, a, b) { assert ToldApart(r, a, b); }
    forall a | a in g.shared ensures a in x { assert SameAt(r, s.current, t.current, a); }
    CollectSpares(r, x, s.current, g.left, keep);
  }

  // ----- one instruction -----

  lemma NewSpares(r: Renaming, q: Renaming, h: Heap, a: Addr, o: Object, roots: set<Addr>)
    requires a !in h && q.Keys <= r.Keys + {a}
    ensures Spared(r, q, h, h[a := o], roots)
  {
    var k := h[a := o];
    forall some: set<Addr>, u: set<Addr> | some <= roots && Anchored(h, some, u) && u !! r.Keys
      ensures Untouched(h, k, u) && Anchored(k, some, u) && u !! q.Keys
    {
      forall keep | Keeps(k, some, keep) ensures u <= keep {
        forall x, c | x in keep - {a} && Points(h, x, c) ensures c in keep - {a} { assert Points(k, x, c); }
        assert Keeps(h, some, keep - {a});
      }
    }
  }

  /** Both runs allocate the same object. */
  lemma NewMoves(g: Hold, r: Renaming, m: Memory, m': Memory, s: Stack, t: Stack, o: Object, q: Object)
    returns (x: Renaming)
    requires Related(r, s.current, t.current) && SameObject(r, o, q) && Sane(m) && Sane(m')
    ensures var a, b := New(m.allot, s, o), New(m'.allot, t, q);
            Same(x, a.value, b.value) && Moved(g, r, x, s, a.stack, t, b.stack)
  {
    var a, b := m.allot(s), m'.allot(t);
    assert IsFree(m, s) && IsFree(m', t);
    x := r[a := b];
    var h, k := s.current[a := o], t.current[b := q];
    forall c | c in r ensures c != a && r[c] != b { assert SameAt(r, s.current, t.current, c); }
    forall c | c in x ensures SameAt(x, h, k, c) {
      if c == a {
        SameAllRefs(r, o.slots, q.slots);
        SameAllUnder(r, x, o.slots, q.slots);
      } else {
        assert SameAt(r, s.current, t.current, c);
        SameAllRefs(r, s.current[c].slots, t.current[r[c]].slots);
        SameAllUnder(r, x, s.current[c].slots, t.current[r[c]].slots);
      }
    }
    forall c, d | c in x && d in x && c != d ensures ToldApart(x, c, d) {
      if c != a && d != a { assert ToldApart(r, c, d); }
    }
    NewSpares(r, x, s.current, a, o, g.left);
  }

  lemma SameStorable(r: Renaming, s: Stack, t: Stack, v: Value, w: Value)
    requires Related(r, s.current, t.current) && Same(r, v, w)
    ensures Storable(s, v) && Storable(t, w)
  {
    match v
    case Ref(a) => SameFind(r, s, t, v, w);
    case Just(x) => SameStorable(r, s, t, x, w.inner);
    case _ =>
  }

  /** How the results of one instruction in both runs correspond. */
  ghost predicate Agree(g: Hold, r: Renaming, x: Renaming, s: Stack, t: Stack, a: Result, b: Result) {
    match a
    case Next(v, s') => b.Next? && Same(x, v, b.value) && Moved(g, r, x, s, s', t, b.stack)
    case _ => a == b
  }

  /** Changing an object the renaming knows takes nothing else out of reach: known objects only lead to known ones. */
  lemma WriteSpares(r: Renaming, h: Heap, l: Heap, a: Addr, o: Object, roots: set<Addr>)
    requires Related(r, h, l) && a in r && a in h
    ensures Spared(r, r, h, h[a := o], roots)
  {
    var k := h[a := o];
    forall some: set<Addr>, u: set<Addr> | some <= roots && Anchored(h, some, u) && u !! r.Keys
      ensures Untouched(h, k, u) && Anchored(k, some, u)
    {
      forall keep | Keeps(k, some, keep) ensures u <= keep { WriteKeeps(r, h, l, a, o, some, keep); }
    }
  }

  lemma WriteKeeps(r: Renaming, h: Heap, l: Heap, a: Addr, o: Object, some: set<Addr>, keep: set<Addr>)
    requires Related(r, h, l) && a in r && a in h && Keeps(h[a := o], some, keep)
    ensures Keeps(h, some, keep + r.Keys * h.Keys)
  {
    var wide := keep + r.Keys * h.Keys;
    forall x, c | x in wide && Points(h, x, c) ensures c in wide {
      if x in r {
        var i :| 0 <= i < |h[x].slots| && c in Refs(h[x].slots[i]);
        SlotPoints(r, h, l, x, i, c);
      } else {
        assert Points(h[a := o], x, c);
      }
    }
  }

  lemma StoreMoves(g: Hold, m: Machine, r: Renaming, i: Instruction, s: Stack, t: Stack, v: Value, w: Value, k: nat,
                   e: Value, e': Value)
    requires Related(r, s.current, t.current) && Same(r, v, w) && v.Ref? && w.Ref? && Same(r, e, e')
    ensures Agree(g, r, r, s, t, Store(m, i, s, v.address, k, e), Store(m, i, t, w.address, k, e'))
  {
    SameFind(r, s, t, v, w);
    SameStorable(r, s, t, e, e');
    var a, b := v.address, w.address;
    if k < |s.current[a].slots| {
      var o := s.current[a].(slots := s.current[a].slots[k := e]);
      WriteSpares(r, s.current, t.current, a, o, g.left);
      var h, l := s.current[a := o], t.current[b := t.current[b].(slots := t.current[b].slots[k := e'])];
      forall c | c in r ensures SameAt(r, h, l, c) {
        assert SameAt(r, s.current, t.current, c);
        if c != a { assert ToldApart(r, c, a); }
      }
    }
  }

  lemma LoadMoves(g: Hold, r: Renaming, i: Instruction, s: Stack, t: Stack, v: Value, w: Value, k: nat)
    requires Related(r, s.current, t.current) && Same(r, v, w) && v.Ref? && w.Ref?
    ensures Agree(g, r, r, s, t, Load(i, s, v.address, k), Load(i, t, w.address, k))
  {
    SameFind(r, s, t, v, w);
    MovedNowhere(g, r, s, t);
  }

  lemma SameNumbers(r: Renaming, vs: seq<Value>, ws: seq<Value>)
    requires SameAll(r, vs, ws)
    ensures AllScalars(vs) == AllScalars(ws) && Numbers(vs) == Numbers(ws)
  {
    assert forall i :: 0 <= i < |vs| ==> vs[i].Scalar? == ws[i].Scalar?;
  }

  lemma InertSame(r: Renaming, vs: seq<Value>)
    ensures SameAll(r, InertAll(vs), InertAll(vs))
  {
    forall i | 0 <= i < |vs| ensures Same(r, InertAll(vs)[i], InertAll(vs)[i]) { NoReferenceSame(r, Inert(vs[i])); }
  }

  lemma BuiltSame(m: Machine, i: Instruction, vs: seq<Value>, ws: seq<Value>, s: Stack, t: Stack, r: Renaming)
    requires Related(r, s.current, t.current) && SameAll(r, vs, ws)
    ensures var o, q := Built(m, i, vs, s), Built(m, i, ws, t);
            o.Some? == q.Some? && (o.Some? ==> SameObject(r, o.value, q.value))
  {
    if i.opcode == ObjectAlloc {
      InertSame(r, m.initial(i.symbol));
    } else if i.opcode == StringConcat && |vs| == 2 {
      SameText(r, s, t, vs[0], ws[0]);
      SameText(r, s, t, vs[1], ws[1]);
    }
  }

  lemma AccessSame(g: Hold, m: Machine, i: Instruction, vs: seq<Value>, ws: seq<Value>, s: Stack, t: Stack, r: Renaming)
    requires Related(r, s.current, t.current) && SameAll(r, vs, ws) && |vs| > 0 && vs[0].Ref? && ws[0].Ref?
    ensures Agree(g, r, r, s, t, Access(m, i, vs, s), Access(m, i, ws, t))
  {
    if i.opcode == FieldLoad {
      LoadMoves(g, r, i, s, t, vs[0], ws[0], m.slot(i));
    } else if i.opcode == FieldStore {
      if |vs| == 2 { StoreMoves(g, m, r, i, s, t, vs[0], ws[0], m.slot(i), vs[1], ws[1]); }
    } else if i.opcode == ArrayLength || i.opcode == ClassCheckedCast {
      SameFind(r, s, t, vs[0], ws[0]);
      MovedNowhere(g, r, s, t);
    } else {
      ElementSame(g, m, i, vs, ws, s, t, r);
    }
  }

  lemma ElementSame(g: Hold, m: Machine, i: Instruction, vs: seq<Value>, ws: seq<Value>, s: Stack, t: Stack,
                    r: Renaming)
    requires Related(r, s.current, t.current) && SameAll(r, vs, ws) && |vs| > 0 && vs[0].Ref? && ws[0].Ref?
    requires !(i.opcode == FieldLoad || i.opcode == FieldStore || i.opcode == ArrayLength
             || i.opcode == ClassCheckedCast)
    ensures Agree(g, r, r, s, t, Access(m, i, vs, s), Access(m, i, ws, t))
  {
    if |vs| >= 2 && vs[1].Scalar? && vs[1].n >= 0 {
      if i.opcode == ArrayLoadChecked {
        LoadMoves(g, r, i, s, t, vs[0], ws[0], vs[1].n);
      } else if i.opcode == ArrayStoreChecked && |vs| == 3 {
        StoreMoves(g, m, r, i, s, t, vs[0], ws[0], vs[1].n, vs[2], ws[2]);
      }
    }
  }

  /** Objects are renamed one to one, so references are equal in one run if and only if they are in the other. */
  lemma IdentitySame(r: Renaming, h: Heap, k: Heap, v: Value, w: Value, v': Value, w': Value)
    requires Related(r, h, k) && Same(r, v, v') && Same(r, w, w') && IsReference(v) && IsReference(w)
    ensures IsReference(v') && IsReference(w') && (v == w <==> v' == w')
  {
    if v.Ref? && w.Ref? && v != w { assert ToldApart(r, v.address, w.address); }
  }

  lemma EqualSame(m: Machine, i: Instruction, s: Stack, t: Stack, r: Renaming, v: Value, w: Value, v': Value, w': Value)
    requires Related(r, s.current, t.current) && Same(r, v, v') && Same(r, w, w')
    ensures Equal(m, i, s, v, w) == Equal(m, i, t, v', w')
  {
    if IsReference(v) && IsReference(w) {
      IdentitySame(r, s.current, t.current, v, w, v', w');
    } else if v.Just? && w.Just? && IsReference(v.inner) && IsReference(w.inner) {
      IdentitySame(r, s.current, t.current, v.inner, w.inner, v'.inner, w'.inner);
      SameText(r, s, t, v.inner, v'.inner);
      SameText(r, s, t, w.inner, w'.inner);
    }
  }

  /** Comparisons of references, and of optionals of references, come out the same. */
  lemma ComparisonSame(g: Hold, m: Machine, i: Instruction, vs: seq<Value>, ws: seq<Value>, s: Stack, t: Stack,
                       r: Renaming)
    requires Related(r, s.current, t.current) && SameAll(r, vs, ws) && |vs| == 2
    ensures Agree(g, r, r, s, t, Comparison(m, i, vs, s), Comparison(m, i, ws, t))
  {
    MovedNowhere(g, r, s, t);
    EqualSame(m, i, s, t, r, vs[0], vs[1], ws[0], ws[1]);
  }

  lemma WrapSame(g: Hold, m: Machine, i: Instruction, vs: seq<Value>, ws: seq<Value>, s: Stack, t: Stack, r: Renaming)
    requires Related(r, s.current, t.current) && SameAll(r, vs, ws)
    ensures Agree(g, r, r, s, t, Wrap(m, i, vs, s), Wrap(m, i, ws, t))
  {
    MovedNowhere(g, r, s, t);
    if i.opcode == Constant {
      NoReferenceSame(r, Inert(m.constant(i)));
    } else if |vs| == 1 {
      UnwrapSame(r, vs[0], ws[0]);
    }
  }

  lemma UnwrapSame(r: Renaming, v: Value, w: Value)
    requires Same(r, v, w)
    ensures v.Just? == w.Just? && (v.Just? ==> Same(r, v.inner, w.inner)) && Same(r, Just(v), Just(w))
  {
  }

  lemma CompareTextsSame(g: Hold, i: Instruction, vs: seq<Value>, ws: seq<Value>, s: Stack, t: Stack, r: Renaming)
    requires Related(r, s.current, t.current) && SameAll(r, vs, ws)
    ensures Agree(g, r, r, s, t, CompareTexts(i, vs, s), CompareTexts(i, ws, t))
  {
    MovedNowhere(g, r, s, t);
    if |vs| == 2 {
      SameText(r, s, t, vs[0], ws[0]);
      SameText(r, s, t, vs[1], ws[1]);
    }
  }

  lemma ComputeSame(g: Hold, m: Machine, i: Instruction, vs: seq<Value>, ws: seq<Value>, s: Stack, t: Stack,
                    r: Renaming)
    requires Related(r, s.current, t.current) && SameAll(r, vs, ws)
    requires LocalOperation(i.opcode) && !Allocates(i.opcode) && !Accesses(i.opcode)
    ensures Agree(g, r, r, s, t, Compute(m, i, vs, s), Compute(m, i, ws, t))
  {
    SameNumbers(r, vs, ws);
    if Wraps(i.opcode) {
      WrapSame(g, m, i, vs, ws, s, t, r);
    } else if i.opcode == StringEqual || i.opcode == StringNotEqual {
      CompareTextsSame(g, i, vs, ws, s, t, r);
    } else if i.opcode == Compare && |vs| == 2 && !AllScalars(vs) {
      ComparisonSame(g, m, i, vs, ws, s, t, r);
    } else {
      MovedNowhere(g, r, s, t);
    }
  }

  /** Every instruction does the same in both runs. */
  lemma OperateSame(g: Hold, n: Machine, m: Memory, m': Memory, i: Instruction, vs: seq<Value>, ws: seq<Value>,
                    s: Stack, t: Stack, r: Renaming)
    returns (x: Renaming)
    requires Related(r, s.current, t.current) && SameAll(r, vs, ws) && Sane(m) && Sane(m') && LocalOperation(i.opcode)
    ensures Agree(g, r, x, s, t, Operate(n, m.allot, i, vs, s), Operate(n, m'.allot, i, ws, t))
  {
    x := r;
    if Allocates(i.opcode) {
      BuiltSame(n, i, vs, ws, s, t, r);
      var o, q := Built(n, i, vs, s), Built(n, i, ws, t);
      if o.Some? { x := NewMoves(g, r, m, m', s, t, o.value, q.value); }
    } else if Accesses(i.opcode) {
      if |vs| > 0 && vs[0].Ref? { AccessSame(g, n, i, vs, ws, s, t, r); }
    } else {
      ComputeSame(g, n, i, vs, ws, s, t, r);
    }
  }

  // ----- whole runs -----

  /** A program, the memories of its two runs, and which functions the right run wraps. */
  datatype Runs = Runs(p: Program, left: Memory, right: Memory, compatible: set<Symbol>, wrapped: set<Symbol>)

  /** Functions the selector calls compatible, and those of them to wrap. */
  ghost predicate Selected(p: Program, compatible: set<Symbol>, wrapped: set<Symbol>) {
    && (forall x {:trigger Compatible(p, compatible, x)} :: x in compatible ==> Compatible(p, compatible, x))
    && forall x {:trigger x in wrapped} :: x in wrapped ==>
         x in compatible && x in p.definitions && Scalars(p.definitions[x])
  }

  ghost predicate Compatible(p: Program, compatible: set<Symbol>, x: Symbol) {
    x in p.definitions && p.definitions[x].id == x && Local(p.definitions[x], compatible)
  }

  ghost predicate Scalars(f: Function) {
    ScalarBoundary(f.resultType) && forall t :: t in f.parameterTypes ==> ScalarBoundary(t)
  }

  ghost predicate Ok(z: Runs) { Selected(z.p, z.compatible, z.wrapped) && Sane(z.left) && Sane(z.right) }

  ghost predicate AgreeOutcome(g: Hold, r: Renaming, x: Renaming, s: Stack, t: Stack, a: Outcome, b: Outcome) {
    match a
    case Returned(v, s') => b.Returned? && Same(x, v, b.value) && Moved(g, r, x, s, s', t, b.stack)
    case _ => a == b
  }

  /** Two stretches of both runs in a row. */
  lemma OutcomeOn(g: Hold, r: Renaming, q: Renaming, x: Renaming, s: Stack, s': Stack, t: Stack, t': Stack, a: Outcome,
                  b: Outcome)
    requires Moved(g, r, q, s, s', t, t') && AgreeOutcome(g, q, x, s', t', a, b)
    ensures AgreeOutcome(g, r, x, s, t, a, b)
  {
    if a.Returned? { MovedOn(g, r, q, x, s, s', a.stack, t, t', b.stack); }
  }

  lemma {:induction false} BindSame(r: Renaming, ls: Locals, ms: Locals, ds: seq<ValueDefinition>, vs: seq<Value>,
                                    ws: seq<Value>)
    requires SameLocals(r, ls, ms) && SameAll(r, vs, ws)
    ensures SameLocals(r, Bind(ls, ds, vs), Bind(ms, ds, ws))
    decreases |ds|
  {
    if |ds| > 0 && |vs| > 0 {
      BindSame(r, ls[ds[0].id := vs[0]], ms[ds[0].id := ws[0]], ds[1..], vs[1..], ws[1..]);
    }
  }

  lemma ReadSame(r: Renaming, ls: Locals, ms: Locals, ids: seq<ValueId>)
    requires SameLocals(r, ls, ms)
    ensures Bound(ls, ids) == Bound(ms, ids) && (Bound(ls, ids) ==> SameAll(r, ValuesOf(ls, ids), ValuesOf(ms, ids)))
  {
  }

  lemma RemainingSame(p: Program, f: Function, b: BlockId, k: nat, i: Instruction, ls: Locals, ms: Locals, r: Renaming)
    requires SameLocals(r, ls, ms)
    ensures SameLocals(r, Remaining(p, f, b, k, i, ls), Remaining(p, f, b, k, i, ms))
  {
  }

  lemma {:induction false} SameType(r: Renaming, v: Value, w: Value, t: Type)
    requires Same(r, v, w)
    ensures HasType(v, t) == HasType(w, t)
  {
    if t.Optional? && v.Just? { SameType(r, v.inner, w.inner, t.element); }
  }

  lemma SameTypes(r: Renaming, vs: seq<Value>, ws: seq<Value>, ts: seq<Type>)
    requires SameAll(r, vs, ws)
    ensures HaveTypes(vs, ts) == HaveTypes(ws, ts)
  {
    forall i | 0 <= i < |vs| && i < |ts| ensures HasType(vs[i], ts[i]) == HasType(ws[i], ts[i]) {
      SameType(r, vs[i], ws[i], ts[i]);
    }
  }

  lemma {:induction false} ScalarHasNoReference(v: Value, t: Type)
    requires HasType(v, t) && ScalarBoundary(t)
    ensures NoReference(v)
  {
    if t.Optional? && v.Just? { ScalarHasNoReference(v.inner, t.element); }
  }

  lemma ContainsAt(f: Function, b: BlockId, k: nat)
    requires b in BlockMap(f.blocks) && k < |BlockMap(f.blocks)[b].instructions|
    ensures Contains(f, BlockMap(f.blocks)[b].instructions[k])
  {
    var j := BlockMapFrom(f.blocks, b);
    assert f.blocks[j] in f.blocks;
  }

  /** The callers of whatever runs next also hold what these values refer to. */
  function Holding(g: Hold, a: set<Addr>, b: set<Addr>): Hold { Hold(g.left + a, g.right + b, g.shared + a) }

  lemma HoldsMore(g: Hold, r: Renaming, a: set<Addr>, b: set<Addr>)
    requires Holds(g, r) && forall x :: x in a ==> x in r && r[x] in b
    ensures Holds(Holding(g, a, b), r)
  {
  }

  /** From any point of a compatible function, the run without regions and the run with them agree. */
  lemma {:induction false} ExecuteSame(z: Runs, f: Function, b: BlockId, k: nat, ls: Locals, ms: Locals, s: Stack,
                                       t: Stack, g: Hold, r: Renaming, fuel: nat)
    returns (x: Renaming)
    requires Ok(z) && Local(f, z.compatible) && Holds(g, r)
    requires Related(r, s.current, t.current) && SameLocals(r, ls, ms)
    ensures AgreeOutcome(g, r, x, s, t, Execute(z.p, z.left, {}, f, b, k, ls, s, g.left, fuel),
                         Execute(z.p, z.right, z.wrapped, f, b, k, ms, t, g.right, fuel))
    decreases fuel, 0
  {
    x := r;
    MovedNowhere(g, r, s, t);
    if fuel > 0 && b in BlockMap(f.blocks) {
      var block := BlockMap(f.blocks)[b];
      if k < |block.instructions| {
        CodeIsCompatible(z, f, b, k);
        x := InstructionSame(z, f, b, k, block.instructions[k], ls, ms, s, t, g, r, fuel - 1);
      } else {
        x := EndingSame(z, f, b, ls, ms, s, t, g, r, fuel);
      }
    }
  }

  lemma {:induction false} EndingSame(z: Runs, f: Function, b: BlockId, ls: Locals, ms: Locals, s: Stack, t: Stack,
                                      g: Hold,
                                      r: Renaming, fuel: nat)
    returns (x: Renaming)
    requires Ok(z) && Local(f, z.compatible) && Holds(g, r) && fuel > 0 && b in BlockMap(f.blocks)
    requires Related(r, s.current, t.current) && SameLocals(r, ls, ms)
    ensures var k := |BlockMap(f.blocks)[b].instructions|;
            AgreeOutcome(g, r, x, s, t, Execute(z.p, z.left, {}, f, b, k, ls, s, g.left, fuel),
                         Execute(z.p, z.right, z.wrapped, f, b, k, ms, t, g.right, fuel))
    decreases fuel - 1, 9
  {
    x := r;
    MovedNowhere(g, r, s, t);
    match BlockMap(f.blocks)[b].ending
    case Branch(e) => x := JumpSame(z, f, e, ls, ms, s, t, g, r, fuel - 1);
    case ConditionalBranch(c, e0, e1) =>
      if c in ls && ls[c].Scalar? {
        x := JumpSame(z, f, if ls[c].n != 0 then e0 else e1, ls, ms, s, t, g, r, fuel - 1);
      }
    case _ =>
  }

  lemma {:induction false} InstructionSame(z: Runs, f: Function, b: BlockId, k: nat, i: Instruction, ls: Locals,
                                           ms: Locals, s: Stack, t: Stack, g: Hold, r: Renaming, fuel: nat)
    returns (x: Renaming)
    requires Ok(z) && Local(f, z.compatible) && Holds(g, r)
    requires Related(r, s.current, t.current) && SameLocals(r, ls, ms)
    requires if IsCall(i) then i.symbol in z.compatible && Compatible(z.p, z.compatible, i.symbol)
             else LocalOperation(i.opcode)
    ensures AgreeOutcome(g, r, x, s, t, Instruct(z.p, z.left, {}, f, b, k, i, ls, s, g.left, fuel),
                         Instruct(z.p, z.right, z.wrapped, f, b, k, i, ms, t, g.right, fuel))
    decreases fuel, 4
  {
    x := r;
    ReadSame(r, ls, ms, i.operands);
    if Bound(ls, i.operands) {
      var vs, ws := ValuesOf(ls, i.operands), ValuesOf(ms, i.operands);
      var l, m := Remaining(z.p, f, b, k, i, ls), Remaining(z.p, f, b, k, i, ms);
      RemainingSame(z.p, f, b, k, i, ls, ms, r);
      if IsCall(i) {
        x := CallSame(z, f, b, k, i, vs, ws, l, m, s, t, g, r, fuel);
      } else {
        x := OperationSame(z, f, b, k, i, vs, ws, l, m, s, t, g, r, fuel);
      }
    }
  }

  lemma CodeIsCompatible(z: Runs, f: Function, b: BlockId, k: nat)
    requires Ok(z) && Local(f, z.compatible) && b in BlockMap(f.blocks) && k < |BlockMap(f.blocks)[b].instructions|
    ensures var i := BlockMap(f.blocks)[b].instructions[k];
            if IsCall(i) then i.symbol in z.compatible && Compatible(z.p, z.compatible, i.symbol)
            else LocalOperation(i.opcode)
  {
    var i := BlockMap(f.blocks)[b].instructions[k];
    ContainsAt(f, b, k);
    assert LocalInstruction(i, z.compatible);
    if IsCall(i) { assert Compatible(z.p, z.compatible, i.symbol); }
  }

  /** A call, with what its caller still needs held meanwhile. */
  lemma {:induction false} CallSame(z: Runs, f: Function, b: BlockId, k: nat, i: Instruction, vs: seq<Value>,
                                    ws: seq<Value>,
                                    l: Locals, m: Locals, s: Stack, t: Stack, g: Hold, r: Renaming, fuel: nat)
    returns (x: Renaming)
    requires Ok(z) && Local(f, z.compatible) && Holds(g, r)
    requires Related(r, s.current, t.current) && SameLocals(r, l, m) && SameAll(r, vs, ws)
    requires i.symbol in z.compatible && Compatible(z.p, z.compatible, i.symbol)
    ensures var callee := z.p.definitions[i.symbol];
            var a := Invoke(z.p, z.left, {}, callee, vs, s, g.left + RefsIn(l), fuel);
            var c := Invoke(z.p, z.right, z.wrapped, callee, ws, t, g.right + RefsIn(m), fuel);
            AgreeOutcome(g, r, x, s, t, Resume(z.p, z.left, {}, f, b, k, i, l, a, g.left, fuel),
                         Resume(z.p, z.right, z.wrapped, f, b, k, i, m, c, g.right, fuel))
    decreases fuel, 3
  {
    var callee := z.p.definitions[i.symbol];
    SameLocalsRefs(r, l, m);
    HoldsMore(g, r, RefsIn(l), RefsIn(m));
    var more := Holding(g, RefsIn(l), RefsIn(m));
    x := InvokeSame(z, callee, vs, ws, s, t, more, r, fuel);
    var a := Invoke(z.p, z.left, {}, callee, vs, s, more.left, fuel);
    var c := Invoke(z.p, z.right, z.wrapped, callee, ws, t, more.right, fuel);
    if a.Returned? {
      SameLocalsUnder(r, x, l, m);
      MovedHolding(g, more, r, x, s, a.stack, t, c.stack);
    }
    x := ResumeSame(z, f, b, k, i, l, m, s, t, a, c, g, r, x, fuel);
  }

  /** An allocation may collect in either run before both make the same object. */
  lemma PreparedSame(z: Runs, i: Instruction, vs: seq<Value>, ws: seq<Value>, l: Locals, m: Locals, s: Stack, t: Stack,
                     g: Hold, r: Renaming)
    returns (x: Renaming)
    requires Ok(z) && Holds(g, r) && Related(r, s.current, t.current) && SameLocals(r, l, m) && SameAll(r, vs, ws)
    ensures Moved(g, r, x, s, Prepared(z.left, i, vs, l, s, g.left), t, Prepared(z.right, i, ws, m, t, g.right))
    ensures SameLocals(x, l, m) && SameAll(x, vs, ws)
  {
    x := r;
    MovedNowhere(g, r, s, t);
    if Allocates(i.opcode) {
      SameLocalsRefs(r, l, m);
      SameAllRefs(r, vs, ws);
      HoldsMore(g, r, RefsIn(l), RefsIn(m));
      var some := Holding(g, RefsIn(l), RefsIn(m));
      HoldsMore(some, r, RefsOf(vs), RefsOf(ws));
      var more := Holding(some, RefsOf(vs), RefsOf(ws));
      x := CollectMoves(more, r, z.left, z.right, s, t);
      SameLocalsUnder(r, x, l, m);
      SameAllUnder(r, x, vs, ws);
      MovedHolding(g, more, r, x, s, Collected(z.left, s, more.left), t, Collected(z.right, t, more.right));
    }
  }

  /** One instruction with the collection before it: both runs stop alike, or go on with what they still need. */
  lemma StepSame(z: Runs, i: Instruction, vs: seq<Value>, ws: seq<Value>, l: Locals, m: Locals, s: Stack, t: Stack,
                 g: Hold, r: Renaming)
    returns (x: Renaming)
    requires Ok(z) && Holds(g, r) && Related(r, s.current, t.current) && SameLocals(r, l, m) && SameAll(r, vs, ws)
    requires LocalOperation(i.opcode)
    ensures var a := Operate(z.p.machine, z.left.allot, i, vs, Prepared(z.left, i, vs, l, s, g.left));
            var c := Operate(z.p.machine, z.right.allot, i, ws, Prepared(z.right, i, ws, m, t, g.right));
            Agree(g, r, x, s, t, a, c) && (a.Next? ==> SameLocals(x, l, m))
  {
    var q := PreparedSame(z, i, vs, ws, l, m, s, t, g, r);
    var s', t' := Prepared(z.left, i, vs, l, s, g.left), Prepared(z.right, i, ws, m, t, g.right);
    SameLocalsRefs(q, l, m);
    var more := Holding(g, RefsIn(l), RefsIn(m));
    x := OperateSame(more, z.p.machine, z.left, z.right, i, vs, ws, s', t', q);
    var a, c := Operate(z.p.machine, z.left.allot, i, vs, s'), Operate(z.p.machine, z.right.allot, i, ws, t');
    if a.Next? {
      SameLocalsUnder(q, x, l, m);
      MovedHolding(g, more, q, x, s', a.stack, t', c.stack);
      MovedOn(g, r, q, x, s, s', a.stack, t, t', c.stack);
    }
  }

  lemma {:induction false} OperationSame(z: Runs, f: Function, b: BlockId, k: nat, i: Instruction, vs: seq<Value>,
                                         ws: seq<Value>, l: Locals, m: Locals, s: Stack, t: Stack, g: Hold, r: Renaming,
                                         fuel: nat)
    returns (x: Renaming)
    requires Ok(z) && Local(f, z.compatible) && Holds(g, r)
    requires Related(r, s.current, t.current) && SameLocals(r, l, m) && SameAll(r, vs, ws) && LocalOperation(i.opcode)
    ensures var a := Came(Operate(z.p.machine, z.left.allot, i, vs, Prepared(z.left, i, vs, l, s, g.left)));
            var c := Came(Operate(z.p.machine, z.right.allot, i, ws, Prepared(z.right, i, ws, m, t, g.right)));
            AgreeOutcome(g, r, x, s, t, Resume(z.p, z.left, {}, f, b, k, i, l, a, g.left, fuel),
                         Resume(z.p, z.right, z.wrapped, f, b, k, i, m, c, g.right, fuel))
    decreases fuel, 3
  {
    x := StepSame(z, i, vs, ws, l, m, s, t, g, r);
    var a := Operate(z.p.machine, z.left.allot, i, vs, Prepared(z.left, i, vs, l, s, g.left));
    var c := Operate(z.p.machine, z.right.allot, i, ws, Prepared(z.right, i, ws, m, t, g.right));
    CameSame(g, r, x, s, t, a, c);
    x := ResumeSame(z, f, b, k, i, l, m, s, t, Came(a), Came(c), g, r, x, fuel);
  }

  lemma CameSame(g: Hold, r: Renaming, x: Renaming, s: Stack, t: Stack, a: Result, c: Result)
    requires Agree(g, r, x, s, t, a, c)
    ensures AgreeOutcome(g, r, x, s, t, Came(a), Came(c)) && (Came(a).Returned? <==> a.Next?)
  {
  }

  /** After an instruction that agreed, the rest agrees. */
  lemma {:induction false} ResumeSame(z: Runs, f: Function, b: BlockId, k: nat, i: Instruction, l: Locals, m: Locals,
                                      s: Stack,
                                      t: Stack, a: Outcome, c: Outcome, g: Hold, r: Renaming, q: Renaming, fuel: nat)
    returns (x: Renaming)
    requires Ok(z) && Local(f, z.compatible) && Holds(g, r)
    requires AgreeOutcome(g, r, q, s, t, a, c) && (a.Returned? ==> SameLocals(q, l, m))
    ensures AgreeOutcome(g, r, x, s, t, Resume(z.p, z.left, {}, f, b, k, i, l, a, g.left, fuel),
                         Resume(z.p, z.right, z.wrapped, f, b, k, i, m, c, g.right, fuel))
    decreases fuel, 1
  {
    x := q;
    if a.Returned? {
      HoldsOn(g, r, q);
      BindSame(q, l, m, i.results, [a.value], [c.value]);
      var l', m' := Bind(l, i.results, [a.value]), Bind(m, i.results, [c.value]);
      x := ExecuteSame(z, f, b, k + 1, l', m', a.stack, c.stack, g, q, fuel);
      OutcomeOn(g, r, q, x, s, a.stack, t, c.stack, Execute(z.p, z.left, {}, f, b, k + 1, l', a.stack, g.left, fuel),
                Execute(z.p, z.right, z.wrapped, f, b, k + 1, m', c.stack, g.right, fuel));
    }
  }

  lemma {:induction false} JumpSame(z: Runs, f: Function, e: Edge, ls: Locals, ms: Locals, s: Stack, t: Stack, g: Hold,
                                    r: Renaming, fuel: nat)
    returns (x: Renaming)
    requires Ok(z) && Local(f, z.compatible) && Holds(g, r)
    requires Related(r, s.current, t.current) && SameLocals(r, ls, ms)
    ensures AgreeOutcome(g, r, x, s, t, Jump(z.p, z.left, {}, f, e, ls, s, g.left, fuel),
                         Jump(z.p, z.right, z.wrapped, f, e, ms, t, g.right, fuel))
    decreases fuel, 1
  {
    x := r;
    ReadSame(r, ls, ms, e.arguments);
    if e.target in BlockMap(f.blocks) && Bound(ls, e.arguments) {
      var ds := BlockMap(f.blocks)[e.target].parameters;
      BindSame(r, ls, ms, ds, ValuesOf(ls, e.arguments), ValuesOf(ms, e.arguments));
      x :=
        ExecuteSame(z, f, e.target, 0, Bind(ls, ds, ValuesOf(ls, e.arguments)), Bind(ms, ds, ValuesOf(ms, e.arguments)),
                       s, t, g, r, fuel);
    }
  }

  lemma {:induction false} BodySame(z: Runs, f: Function, vs: seq<Value>, ws: seq<Value>, s: Stack, t: Stack, g: Hold,
                                    r: Renaming, fuel: nat)
    returns (x: Renaming)
    requires Ok(z) && Local(f, z.compatible) && Holds(g, r)
    requires Related(r, s.current, t.current) && SameAll(r, vs, ws)
    ensures AgreeOutcome(g, r, x, s, t, Body(z.p, z.left, {}, f, vs, s, g.left, fuel),
                         Body(z.p, z.right, z.wrapped, f, ws, t, g.right, fuel))
    decreases fuel, 0
  {
    x := r;
    if fuel > 0 && f.entry in BlockMap(f.blocks) {
      var ds := BlockMap(f.blocks)[f.entry].parameters;
      BindSame(r, map[], map[], ds, vs, ws);
      x := ExecuteSame(z, f, f.entry, 0, Bind(map[], ds, vs), Bind(map[], ds, ws), s, t, g, r, fuel - 1);
    }
  }

  // ----- regions -----

  /** Values without references are the same however objects are renamed. */
  lemma ScalarsSame(r: Renaming, q: Renaming, vs: seq<Value>, ws: seq<Value>, ts: seq<Type>)
    requires SameAll(r, vs, ws) && HaveTypes(vs, ts) && forall t :: t in ts ==> ScalarBoundary(t)
    ensures SameAll(q, vs, ws)
  {
    forall i | 0 <= i < |vs| ensures Same(q, vs[i], ws[i]) {
      assert ts[i] in ts;
      ScalarHasNoReference(vs[i], ts[i]);
      SameWithoutReference(r, vs[i], ws[i]);
      NoReferenceSame(q, vs[i]);
    }
  }

  ghost function Within(r: Renaming, h: Heap, roots: set<Addr>): Renaming {
    map a | a in r && Reached(h, roots, a) :: r[a]
  }

  lemma RootReached(h: Heap, roots: set<Addr>, a: Addr)
    requires a in roots && a in h
    ensures Reached(h, roots, a)
  {
  }

  lemma ReachedOn(h: Heap, roots: set<Addr>, a: Addr, c: Addr)
    requires Reached(h, roots, a) && Points(h, a, c)
    ensures Reached(h, roots, c)
  {
  }

  lemma WithinAnchored(r: Renaming, h: Heap, roots: set<Addr>)
    ensures Anchored(h, roots, Within(r, h, roots).Keys)
  {
    var u := Within(r, h, roots).Keys;
    forall keep | Keeps(h, roots, keep) ensures u <= keep {
      forall a | a in u ensures a in keep { assert Reached(h, roots, a); }
    }
  }

  /** What the callers reach of the shared objects is still the same on both sides. */
  lemma WithinRelated(r: Renaming, h: Heap, h': Heap, k: Heap, roots: set<Addr>)
    requires Related(r, h, k) && Untouched(h, h', Within(r, h, roots).Keys)
    ensures Related(Within(r, h, roots), h', k)
  {
    var x := Within(r, h, roots);
    forall a | a in x ensures SameAt(x, h', k, a) {
      assert SameAt(r, h, k, a);
      forall i | 0 <= i < |h[a].slots| ensures Same(x, h[a].slots[i], k[r[a]].slots[i]) {
        forall c | c in Refs(h[a].slots[i]) ensures c in x && x[c] == r[c] {
          SlotPoints(r, h, k, a, i, c);
          ReachedOn(h, roots, a, c);
        }
        SameUnder(r, x, h[a].slots[i], k[r[a]].slots[i]);
      }
    }
    forall a, b | a in x && b in x && a != b ensures ToldApart(x, a, b) { assert ToldApart(r, a, b); }
  }

  lemma SparedNarrower(r: Renaming, q: Renaming, x: Renaming, h: Heap, k: Heap, roots: set<Addr>)
    requires Spared(map[], q, h, k, roots) && x.Keys <= r.Keys
    ensures Spared(r, x, h, k, roots)
  {
    forall some: set<Addr>, u: set<Addr> | some <= roots && Anchored(h, some, u) && u !! r.Keys
      ensures Untouched(h, k, u) && Anchored(k, some, u) && u !! x.Keys
    {
      var none: Renaming := map[];
      assert u !! none.Keys;
    }
  }

  /** Leaving a region: the left run kept what its callers reach, the right run is back in the heap it left. */
  lemma LeftRegion(g: Hold, r: Renaming, q: Renaming, s: Stack, s': Stack, t: Stack, t': Stack) returns (x: Renaming)
    requires Related(r, s.current, t.current) && Holds(g, r)
    requires Moved(Hold(g.left, g.right, {}), map[], q, s, s', Enter(t), t')
    ensures |t'.suspended| > 0 && Leave(t') == t && Moved(g, r, x, s, s', t, Leave(t'))
  {
    x := Within(r, s.current, g.left);
    WithinAnchored(r, s.current, g.left);
    var none: Renaming := map[];
    assert x.Keys !! none.Keys;
    assert Untouched(s.current, s'.current, x.Keys);
    WithinRelated(r, s.current, s'.current, t.current, g.left);
    forall a | a in g.shared ensures a in x {
      assert SameAt(r, s.current, t.current, a);
      RootReached(s.current, g.left, a);
    }
    SparedNarrower(r, q, x, s.current, s'.current, g.left);
  }

  lemma {:induction false} InvokeSame(z: Runs, f: Function, vs: seq<Value>, ws: seq<Value>, s: Stack, t: Stack, g: Hold,
                                      r: Renaming, fuel: nat)
    returns (x: Renaming)
    requires Ok(z) && f.id in z.compatible && Compatible(z.p, z.compatible, f.id) && z.p.definitions[f.id] == f
    requires Holds(g, r) && Related(r, s.current, t.current) && SameAll(r, vs, ws)
    ensures AgreeOutcome(g, r, x, s, t, Invoke(z.p, z.left, {}, f, vs, s, g.left, fuel),
                         Invoke(z.p, z.right, z.wrapped, f, ws, t, g.right, fuel))
    decreases fuel, 2
  {
    x := r;
    SameTypes(r, vs, ws, f.parameterTypes);
    if HaveTypes(vs, f.parameterTypes) {
      if f.id in z.wrapped {
        x := RegionSame(z, f, vs, ws, s, t, g, r, fuel);
      } else {
        x := BodySame(z, f, vs, ws, s, t, g, r, fuel);
        var a := Body(z.p, z.left, {}, f, vs, s, g.left, fuel);
        var b := Body(z.p, z.right, z.wrapped, f, ws, t, g.right, fuel);
        if a.Returned? { SameType(x, a.value, b.value, f.resultType); }
      }
    }
  }

  lemma {:induction false} RegionSame(z: Runs, f: Function, vs: seq<Value>, ws: seq<Value>, s: Stack, t: Stack, g: Hold,
                                      r: Renaming, fuel: nat)
    returns (x: Renaming)
    requires Ok(z) && f.id in z.wrapped && Local(f, z.compatible) && z.p.definitions[f.id] == f
    requires Holds(g, r) && Related(r, s.current, t.current) && SameAll(r, vs, ws) && HaveTypes(vs, f.parameterTypes)
    requires HaveTypes(ws, f.parameterTypes)
    ensures AgreeOutcome(g, r, x, s, t, Invoke(z.p, z.left, {}, f, vs, s, g.left, fuel),
                         Invoke(z.p, z.right, z.wrapped, f, ws, t, g.right, fuel))
    decreases fuel, 1
  {
    x := r;
    assert Scalars(f);
    ScalarsSame(r, map[], vs, ws, f.parameterTypes);
    var own := Hold(g.left, g.right, {});
    var q := BodySame(z, f, vs, ws, s, Enter(t), own, map[], fuel);
    var a := Body(z.p, z.left, {}, f, vs, s, g.left, fuel);
    var b := Body(z.p, z.right, z.wrapped, f, ws, Enter(t), g.right, fuel);
    if a.Returned? {
      SameType(q, a.value, b.value, f.resultType);
      x := LeftRegion(g, r, q, s, a.stack, t, b.stack);
      if HasType(a.value, f.resultType) {
        ScalarHasNoReference(a.value, f.resultType);
        SameWithoutReference(q, a.value, b.value);
        NoReferenceSame(x, a.value);
      }
    }
  }

  // ----- the theorem -----

  lemma {:induction false} DefinitionOf(fs: seq<Function>, x: Symbol)
    requires x in Definitions(fs)
    ensures Definitions(fs)[x] in fs && Definitions(fs)[x].id == x
  {
    if fs[0].id != x {
      DefinitionOf(fs[1..], x);
    }
  }

  ghost predicate AllWrappable(fs: seq<Function>, bulk: set<Symbol>, selected: set<Symbol>) {
    forall x :: x in selected ==> exists f :: f in fs && f.id == x && Wrappable(f, bulk)
  }

  /** The selector's result is what the simulation needs. */
  lemma SelectionIsSelected(fs: seq<Function>, p: Program, compatible: set<Symbol>, bulk: set<Symbol>,
                            selected: set<Symbol>)
    requires UniqueIds(fs) && IsSelection(fs, compatible, bulk) && AllWrappable(fs, bulk, selected)
    requires p.definitions == Definitions(fs)
    ensures Selected(p, compatible, selected)
  {
    forall x | x in compatible ensures Compatible(p, compatible, x) {
      var order :| Grown(fs, order) && Members(order) == compatible;
      var j :| 0 <= j < |order| && order[j] == x;
      assert GrownAt(fs, order, j);
      DefinitionsHold(fs, x);
      DefinitionOf(fs, x);
      CompatibleExactly(fs, compatible, bulk, Definitions(fs)[x]);
    }
    forall x | x in selected ensures x in compatible && x in p.definitions && Scalars(p.definitions[x]) {
      var f :| f in fs && f.id == x && Wrappable(f, bulk);
      DefinitionsHold(fs, x);
      DefinitionOf(fs, x);
      SameFunction(fs, f, Definitions(fs)[x]);
    }
  }

  lemma NothingShared(s: Stack, roots: set<Addr>, roots': set<Addr>)
    ensures Related(map[], s.current, s.current) && Holds(Hold(roots, roots', {}), map[])
  {
  }

  /**
   * Running a selected function in a region that is then discarded gives the same scalar, the same panic or the same
   * want of fuel as running it in the caller's heap, whenever either run collects; in the caller's heap everything the
   * callers reach is as it was, and with the region the whole heap is.
   */
  lemma RegionPreservesMeaning(fs: seq<Function>, z: Runs, bulk: set<Symbol>, f: Function, vs: seq<Value>, s: Stack,
                               roots: set<Addr>, roots': set<Addr>, fuel: nat)
    requires UniqueIds(fs) && IsSelection(fs, z.compatible, bulk) && AllWrappable(fs, bulk, z.wrapped)
    requires z.p.definitions == Definitions(fs) && Sane(z.left) && Sane(z.right)
    requires f in fs && f.id in z.wrapped
    ensures var a, b := Invoke(z.p, z.left, {}, f, vs, s, roots, fuel),
                        Invoke(z.p, z.right, z.wrapped, f, vs, s, roots', fuel);
            match a
            case Returned(v, t) =>
              && b == Returned(v, s) && t.suspended == s.suspended
              && forall x :: Reached(s.current, roots, x) ==> x in t.current && t.current[x] == s.current[x]
            case _ => b == a
  {
    SelectionIsSelected(fs, z.p, z.compatible, bulk, z.wrapped);
    assert f.id in z.wrapped && f.id in z.compatible && Compatible(z.p, z.compatible, f.id);
    DefinitionOf(fs, f.id);
    SameFunction(fs, f, z.p.definitions[f.id]);
    if HaveTypes(vs, f.parameterTypes) {
      SelectedRegion(z, f, vs, s, roots, roots', fuel);
    }
  }

  lemma SelectedRegion(z: Runs, f: Function, vs: seq<Value>, s: Stack, roots: set<Addr>, roots': set<Addr>, fuel: nat)
    requires Ok(z) && f.id in z.wrapped && Local(f, z.compatible) && z.p.definitions[f.id] == f
    requires HaveTypes(vs, f.parameterTypes)
    ensures var a, b := Invoke(z.p, z.left, {}, f, vs, s, roots, fuel),
                        Invoke(z.p, z.right, z.wrapped, f, vs, s, roots', fuel);
            match a
            case Returned(v, t) =>
              && b == Returned(v, s) && t.suspended == s.suspended
              && forall x :: Reached(s.current, roots, x) ==> x in t.current && t.current[x] == s.current[x]
            case _ => b == a
  {
    assert Scalars(f);
    ScalarArguments(vs, f.parameterTypes);
    NothingShared(s, roots, roots');
    var g := Hold(roots, roots', {});
    var q := BodySame(z, f, vs, vs, s, Enter(s), g, map[], fuel);
    var a := Body(z.p, z.left, {}, f, vs, s, roots, fuel);
    var b := Body(z.p, z.right, z.wrapped, f, vs, Enter(s), roots', fuel);
    if a.Returned? {
      SameType(q, a.value, b.value, f.resultType);
      var x := LeftRegion(g, map[], q, s, a.stack, s, b.stack);
      CallersKeep(q, s.current, a.stack.current, roots);
      if HasType(a.value, f.resultType) {
        ScalarHasNoReference(a.value, f.resultType);
        SameWithoutReference(q, a.value, b.value);
      }
    }
  }

  lemma ScalarArguments(vs: seq<Value>, ts: seq<Type>)
    requires HaveTypes(vs, ts) && forall t :: t in ts ==> ScalarBoundary(t)
    ensures SameAll(map[], vs, vs)
  {
    forall i | 0 <= i < |vs| ensures Same(map[], vs[i], vs[i]) {
      assert ts[i] in ts;
      ScalarHasNoReference(vs[i], ts[i]);
      NoReferenceSame(map[], vs[i]);
    }
  }

  lemma CallersKeep(q: Renaming, h: Heap, k: Heap, roots: set<Addr>)
    requires Spared(map[], q, h, k, roots)
    ensures forall x :: Reached(h, roots, x) ==> x in k && k[x] == h[x]
  {
    forall x | Reached(h, roots, x) ensures x in k && k[x] == h[x] {
      var none: Renaming := map[];
      assert Anchored(h, roots, {x}) && {x} !! none.Keys;
      assert Untouched(h, k, {x});
    }
  }
}
