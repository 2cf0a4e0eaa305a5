/**
 * Objects with their kinds and all their slots. The collector sees the slots that trace callbacks visit, which the
 * lowerer chooses by type; those are enough, because only values of managed types ever hold an object.
 */
module TypedHeap {
  import opened Ir
  import opened Effects
  import opened Typing
  import opened Collector

  datatype Kind = Text | Elements(element: Type) | Instance(class_: Symbol)

  /** A slot of an object: the field it is, if it is one, its type, and what it holds. Scalars hold no reference. */
  datatype Slot = Slot(field: Symbol, valueType: Type, content: Reference)

  datatype Thing = Thing(kind: Kind, bytes: nat, slots: seq<Slot>)

  type Things = map<Address, Thing>

  // ----- values -----

  /** A value of type `t` may refer to an object of kind `k`. */
  ghost predicate Matches(m: Module, k: Kind, t: Type) {
    match t
    case String => k == Text
    case Array(e) => k == Elements(e)
    case Class(c) => k.Instance? && Inherits(m, k.class_, c)
    case Optional(e) => Matches(m, k, e)
    case _ => false
  }

  function Wrapped(t: Type, n: nat): Type { if n == 0 then t else Optional(Wrapped(t, n - 1)) }

  ghost predicate IsWrapped(t: Type, c: Type, n: nat) {
    t == Wrapped(c, n) && (c == String || c.Class? || c.Array?)
  }

  /** The type of a new object. */
  function TypeOfKind(k: Kind): Type {
    match k
    case Text => String
    case Elements(e) => Array(e)
    case Instance(c) => Class(c)
  }

  /** What a value of a type may hold, given the objects there are. */
  ghost predicate Holds(m: Module, h: Things, t: Type, r: Reference) {
    r.Object? ==> r.address in h && Matches(m, h[r.address].kind, t)
  }

  ghost predicate Refers(m: Module, k: Kind, t: Type) { Matches(m, k, t) }

  /** Some object fits the type. */
  ghost predicate MayRefer(m: Module, t: Type) { exists k :: Refers(m, k, t) }

  lemma KindMatches(m: Module, k: Kind)
    ensures Matches(m, k, TypeOfKind(k))
  {
    if k.Instance? { InheritsItself(m, k.class_); }
  }

  /** Whatever refers to an object has a managed type. */
  lemma {:induction false} MatchesIsManaged(m: Module, k: Kind, t: Type)
    requires Matches(m, k, t)
    ensures IsManagedReference(t)
  {
    if t.Optional? {
      MatchesIsManaged(m, k, t.element);
    }
  }

  lemma {:induction false} ManagedMatches(m: Module, t: Type) returns (k: Kind)
    requires IsManagedReference(t)
    ensures Matches(m, k, t)
  {
    match t
    case String => k := Text;
    case Array(e) => k := Elements(e);
    case Class(c) =>
      k := Instance(c);
      InheritsItself(m, c);
    case Optional(e) => k := ManagedMatches(m, e);
    case _ =>
  }

  /** A type is managed exactly if some value of it may refer to an object. */
  lemma ManagedExactly(m: Module, t: Type)
    ensures IsManagedReference(t) <==> MayRefer(m, t)
  {
    if IsManagedReference(t) {
      var k := ManagedMatches(m, t);
      assert Refers(m, k, t);
    }
    if MayRefer(m, t) {
      var k :| Refers(m, k, t);
      MatchesIsManaged(m, k, t);
    }
  }

  /** A type is managed exactly if it is a string, a class or an array, possibly inside optionals. */
  lemma {:induction false} ManagedIsWrapped(t: Type)
    ensures IsManagedReference(t) <==> exists n: nat, c: Type :: IsWrapped(t, c, n)
  {
    if t.Optional? {
      ManagedIsWrapped(t.element);
      if IsManagedReference(t.element) {
        var n: nat, c: Type :| IsWrapped(t.element, c, n);
        assert IsWrapped(t, c, n + 1);
      }
      if exists n: nat, c: Type :: IsWrapped(t, c, n) {
        var n: nat, c: Type :| IsWrapped(t, c, n);
        assert IsWrapped(t.element, c, n - 1);
      }
    } else if IsManagedReference(t) {
      assert IsWrapped(t, t, 0);
    }
  }

  lemma HoldsMore(m: Module, h: Things, j: Things, t: Type, r: Reference)
    requires Holds(m, h, t, r) && Extends(h, j)
    ensures Holds(m, j, t, r)
  {
  }

  /** At least the same objects, of the same kinds. */
  ghost predicate Extends(h: Things, j: Things) {
    forall a :: a in h ==> a in j && j[a].kind == h[a].kind
  }

  // ----- objects -----

  /** The slot is one that objects of this kind have. */
  ghost predicate SlotOk(m: Module, k: Kind, s: Slot) {
    match k
    case Text => false
    case Elements(e) => s.valueType == e
    case Instance(c) =>
      && s.field in m.fields && s.valueType == m.fields[s.field].valueType
      && Inherits(m, c, m.fields[s.field].owner)
  }

  ghost predicate IsField(t: Thing, id: Symbol, k: nat) {
    k < |t.slots| && t.slots[k].field == id
  }

  /** An instance has every field of its class and of the classes above. */
  ghost predicate Complete(m: Module, t: Thing) {
    t.kind.Instance? ==>
      forall id :: id in m.fields && Inherits(m, t.kind.class_, m.fields[id].owner) ==>
          exists k: nat :: IsField(t, id, k)
  }

  ghost predicate ThingOk(m: Module, t: Thing) {
    Complete(m, t) && forall k :: 0 <= k < |t.slots| ==> SlotOk(m, t.kind, t.slots[k])
  }

  /** Every slot of the object holds what its type allows. */
  ghost predicate ContentsOk(m: Module, h: Things, t: Thing) {
    forall k :: 0 <= k < |t.slots| ==> Holds(m, h, t.slots[k].valueType, t.slots[k].content)
  }

  ghost predicate ObjectOk(m: Module, h: Things, a: Address)
    requires a in h
  {
    ThingOk(m, h[a]) && ContentsOk(m, h, h[a])
  }

  ghost predicate HeapOk(m: Module, h: Things) {
    forall a {:trigger ObjectOk(m, h, a)} :: a in h ==> ObjectOk(m, h, a)
  }

  /** A new object: all the slots its kind has, all of them empty. */
  ghost predicate Fresh(m: Module, t: Thing) {
    ThingOk(m, t) && forall k :: 0 <= k < |t.slots| ==> t.slots[k].content == Null
  }

  lemma HeapGrows(m: Module, h: Things, a: Address, t: Thing)
    requires HeapOk(m, h) && a !in h && Fresh(m, t)
    ensures HeapOk(m, h[a := t]) && Extends(h, h[a := t])
  {
    var j := h[a := t];
    forall b | b in j ensures ObjectOk(m, j, b) {
      if b != a {
        assert ObjectOk(m, h, b);
        ContentsKept(m, h, j, h[b]);
      }
    }
  }

  lemma ContentsKept(m: Module, h: Things, j: Things, t: Thing)
    requires ContentsOk(m, h, t) && Extends(h, j)
    ensures ContentsOk(m, j, t)
  {
    forall k | 0 <= k < |t.slots| ensures Holds(m, j, t.slots[k].valueType, t.slots[k].content) {
      HoldsMore(m, h, j, t.slots[k].valueType, t.slots[k].content);
    }
  }

  function WithSlot(t: Thing, k: nat, r: Reference): Thing
    requires k < |t.slots|
  {
    t.(slots := t.slots[k := t.slots[k].(content := r)])
  }

  /** A store of a value that the slot's type allows. */
  lemma HeapWritten(m: Module, h: Things, a: Address, k: nat, r: Reference)
    requires HeapOk(m, h) && a in h && k < |h[a].slots| && Holds(m, h, h[a].slots[k].valueType, r)
    ensures HeapOk(m, h[a := WithSlot(h[a], k, r)]) && Extends(h, h[a := WithSlot(h[a], k, r)])
  {
    var j := h[a := WithSlot(h[a], k, r)];
    WrittenOk(m, h, a, k, r);
    forall b | b in j ensures ObjectOk(m, j, b) {
      assert ObjectOk(m, h, b);
      ContentsKept(m, h, j, if b == a then WithSlot(h[a], k, r) else h[b]);
    }
  }

  lemma WrittenOk(m: Module, h: Things, a: Address, k: nat, r: Reference)
    requires HeapOk(m, h) && a in h && k < |h[a].slots| && Holds(m, h, h[a].slots[k].valueType, r)
    ensures var t := WithSlot(h[a], k, r); ThingOk(m, t) && ContentsOk(m, h, t)
  {
    var t := WithSlot(h[a], k, r);
    assert ObjectOk(m, h, a);
    forall id | t.kind.Instance? && id in m.fields && Inherits(m, t.kind.class_, m.fields[id].owner)
      ensures exists j: nat :: IsField(t, id, j)
    {
      var j: nat :| IsField(h[a], id, j);
      assert IsField(t, id, j);
    }
  }

  // ----- what trace callbacks show the collector -----

  function TracedSlots(t: Thing): seq<Reference> {
    seq(|t.slots|, k requires 0 <= k < |t.slots| => Traced(t.slots[k]))
  }

  /** The slot's content if its type is managed; other slots are passed over. */
  function Traced(s: Slot): Reference { if IsManagedReference(s.valueType) then s.content else Null }

  function TracedStore(h: Things): Store { map a | a in h :: Cell(h[a].bytes, TracedSlots(h[a])) }

  /** A callback misses no object that a slot of the heap holds. */
  lemma NothingIsMissed(m: Module, h: Things, s: Slot)
    requires Holds(m, h, s.valueType, s.content)
    ensures s.content.Object? ==> Traced(s) == s.content
  {
    if s.content.Object? { MatchesIsManaged(m, h[s.content.address].kind, s.valueType); }
  }

  /** What is left of a heap when a collection keeps what its roots reach. */
  ghost function Collected(h: Things, roots: set<Reference>): Things {
    map a | a in h && Reachable(TracedStore(h), roots, a) :: h[a]
  }

  lemma CollectedIsSurvivors(h: Things, roots: set<Reference>)
    ensures TracedStore(Collected(h, roots)) == Survivors(TracedStore(h), roots)
  {
  }

  /** An object that a kept object refers to, through whatever slot, is kept. */
  lemma ReferredIsKept(m: Module, outer: Things, h: Things, roots: set<Reference>, a: Address, k: nat)
    requires HeapOk(m, outer + h) && a in Collected(h, roots) && k < |h[a].slots|
    ensures var r := h[a].slots[k].content; r.Object? && r.address in h ==> r.address in Collected(h, roots)
  {
    var s := h[a].slots[k];
    assert ObjectOk(m, outer + h, a);
    NothingIsMissed(m, outer + h, s);
    if s.content.Object? && s.content.address in h {
      assert TracedSlots(h[a])[k] == s.content;
      assert HasField(TracedStore(h), a, s.content.address);
      FieldIsReachable(TracedStore(h), roots, a, s.content.address);
    }
  }

  /** After a collection no slot of the heap refers to an object that is gone, whatever its type. */
  lemma CollectionKeepsHeap(m: Module, outer: Things, h: Things, roots: set<Reference>)
    requires HeapOk(m, outer + h) && HeapOk(m, outer) && outer.Keys !! h.Keys
    ensures HeapOk(m, outer + Collected(h, roots))
  {
    var j := outer + Collected(h, roots);
    forall a | a in j ensures ObjectOk(m, j, a) {
      assert ObjectOk(m, outer + h, a);
      if a in outer {
        assert ObjectOk(m, outer, a);
        ContentsKept(m, outer, j, outer[a]);
      } else {
        CollectionKeepsObject(m, outer, h, roots, a);
      }
    }
  }

  lemma CollectionKeepsObject(m: Module, outer: Things, h: Things, roots: set<Reference>, a: Address)
    requires HeapOk(m, outer + h) && outer.Keys !! h.Keys && a in Collected(h, roots)
    ensures ContentsOk(m, outer + Collected(h, roots), h[a])
  {
    assert ObjectOk(m, outer + h, a);
    forall k | 0 <= k < |h[a].slots|
      ensures Holds(m, outer + Collected(h, roots), h[a].slots[k].valueType, h[a].slots[k].content)
    {
      ReferredIsKept(m, outer, h, roots, a, k);
      assert Holds(m, outer + h, h[a].slots[k].valueType, h[a].slots[k].content);
    }
  }

  /** A heap whose slots hold what they should gives the collector nothing it does not know. */
  lemma TracedDoesNotDangle(m: Module, outer: Things, h: Things)
    requires HeapOk(m, outer + h)
    ensures NoDangling(TracedStore(h), outer.Keys)
  {
    forall a, r | a in TracedStore(h) && r in TracedStore(h)[a].fields
      ensures Known(TracedStore(h), outer.Keys, r)
    {
      var k :| 0 <= k < |h[a].slots| && TracedSlots(h[a])[k] == r;
      assert ObjectOk(m, outer + h, a);
      assert Holds(m, outer + h, h[a].slots[k].valueType, h[a].slots[k].content);
    }
  }
}
