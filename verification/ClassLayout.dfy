/** Object layouts and method tables of classes under single inheritance. */
module ClassLayout {
  import opened Ir
  import opened Arithmetic
  import opened Collections

  /** An object starts with the pointer to its type and a word of the runtime. */
  const HEADER: nat := 16

  /** A field with the storage its type takes on the target. */
  datatype Field = Field(id: Symbol, size: nat, alignment: nat)

  /** A method; virtual ones name the slot they fill. */
  datatype Method = Method(function_: Symbol, slot: Option<Symbol>)

  datatype Class = Class(id: Symbol, base: Option<Symbol>, fields: seq<Field>, methods: seq<Method>)

  datatype Placed = Placed(field: Field, offset: nat)

  datatype Layout = Layout(contentSize: nat, payloadSize: nat, payloadAlignment: nat, fields: seq<Placed>,
                           virtuals: seq<Symbol>, slots: map<Symbol, nat>)

  type Classes = map<Symbol, Class>

  // ----- inheritance -----

  /** The bases of `id` end within `n` steps. */
  predicate Ends(cs: Classes, id: Symbol, n: nat)
    decreases n
  {
    id in cs && (cs[id].base.None? || (n > 0 && Ends(cs, cs[id].base.value, n - 1)))
  }

  ghost predicate BasesExist(cs: Classes) {
    forall id :: id in cs && cs[id].base.Some? ==> cs[id].base.value in cs
  }

  /** A rank that grows from base to derived class: inheritance has no cycle. */
  ghost predicate Ranked(cs: Classes, rank: map<Symbol, nat>) {
    && rank.Keys == cs.Keys && BasesExist(cs)
    && forall id :: id in cs && cs[id].base.Some? ==> rank[cs[id].base.value] < rank[id]
  }

  /** Follow the bases of every class, giving up after as many steps as there are classes. */
  method VerifyInheritance(cs: Classes, ids: seq<Symbol>) returns (ok: bool)
    requires BasesExist(cs) && forall id :: id in ids <==> id in cs
    ensures ok <==> forall id :: id in cs ==> Ends(cs, id, |cs|)
  {
    for k := 0 to |ids|
      invariant forall j :: 0 <= j < k ==> Ends(cs, ids[j], |cs|)
    {
      assert ids[k] in ids;
      var current, remaining: nat := ids[k], |cs|;
      while cs[current].base.Some?
        invariant current in cs && (Ends(cs, ids[k], |cs|) <==> Ends(cs, current, remaining))
        decreases remaining
      {
        if remaining == 0 { return false; }
        remaining := remaining - 1;
        current := cs[current].base.value;
      }
    }
    return true;
  }

  lemma {:induction false} EndsLater(cs: Classes, id: Symbol, n: nat, m: nat)
    requires Ends(cs, id, n) && n <= m
    ensures Ends(cs, id, m)
    decreases n
  {
    if cs[id].base.Some? {
      EndsLater(cs, cs[id].base.value, n - 1, m - 1);
    }
  }

  /** The number of steps to the root class. */
  ghost function Depth(cs: Classes, id: Symbol, n: nat): nat
    requires Ends(cs, id, n)
    decreases n
  {
    if cs[id].base.None? then 0 else 1 + Depth(cs, cs[id].base.value, n - 1)
  }

  lemma {:induction false} DepthUnique(cs: Classes, id: Symbol, n: nat, m: nat)
    requires Ends(cs, id, n) && Ends(cs, id, m)
    ensures Depth(cs, id, n) == Depth(cs, id, m)
    decreases n
  {
    if cs[id].base.Some? {
      DepthUnique(cs, cs[id].base.value, n - 1, m - 1);
    }
  }

  /** What the check accepts has no cycle ... */
  lemma EndsMeansRanked(cs: Classes) returns (rank: map<Symbol, nat>)
    requires BasesExist(cs) && forall id :: id in cs ==> Ends(cs, id, |cs|)
    ensures Ranked(cs, rank)
  {
    rank := map id | id in cs :: Depth(cs, id, |cs|);
    forall id | id in cs && cs[id].base.Some? ensures rank[cs[id].base.value] < rank[id] {
      DepthUnique(cs, cs[id].base.value, |cs| - 1, |cs|);
    }
  }

  function Below(cs: Classes, rank: map<Symbol, nat>, n: nat): set<Symbol>
    requires rank.Keys == cs.Keys
  {
    set id | id in cs && rank[id] < n
  }

  /** ... and it accepts everything without one. */
  lemma {:induction false} RankedMeansEnds(cs: Classes, rank: map<Symbol, nat>, id: Symbol)
    requires Ranked(cs, rank) && id in cs
    ensures Ends(cs, id, |Below(cs, rank, rank[id])|) && Ends(cs, id, |cs|)
    decreases rank[id]
  {
    if cs[id].base.Some? {
      var b := cs[id].base.value;
      RankedMeansEnds(cs, rank, b);
      var inner, outer := Below(cs, rank, rank[b]), Below(cs, rank, rank[id]);
      assert b in outer && b !in inner;
      SubsetSize(inner, outer);
      EndsLater(cs, b, |inner|, |outer| - 1);
    }
    SubsetSize(Below(cs, rank, rank[id]), cs.Keys);
    EndsLater(cs, id, |Below(cs, rank, rank[id])|, |cs|);
  }

  // ----- layouts -----

  const EMPTY: Layout := Layout(0, 0, 1, [], [], map[])

  function AddField(l: Layout, f: Field): Layout
    requires f.alignment > 0
  {
    var at := AlignUp(l.contentSize, f.alignment);
    l.(fields := l.fields + [Placed(f, HEADER + at)], contentSize := at + f.size,
       payloadAlignment := Max(l.payloadAlignment, f.alignment))
  }

  /** The layout after the first `k` fields. */
  function AddFields(l: Layout, fs: seq<Field>, k: nat): Layout
    requires k <= |fs| && forall f :: f in fs ==> Natural(f.alignment)
  {
    if k == 0 then l else AddField(AddFields(l, fs, k - 1), fs[k - 1])
  }

  /** A virtual method replaces what its slot held, or takes a new slot. */
  function AddMethod(l: Layout, m: Method): Layout {
    if m.slot.None? then l
    else if m.slot.value in l.slots then
      var i := l.slots[m.slot.value];
      if i < |l.virtuals| then l.(virtuals := l.virtuals[i := m.function_]) else l
    else l.(slots := l.slots[m.slot.value := |l.virtuals|], virtuals := l.virtuals + [m.function_])
  }

  function AddMethods(l: Layout, ms: seq<Method>, k: nat): Layout
    requires k <= |ms|
  {
    if k == 0 then l else AddMethod(AddMethods(l, ms, k - 1), ms[k - 1])
  }

  function Padded(l: Layout): Layout
    requires l.payloadAlignment > 0
  {
    l.(payloadSize := AlignUp(l.contentSize, l.payloadAlignment))
  }

  ghost predicate FieldsOk(c: Class) { forall f :: f in c.fields ==> Natural(f.alignment) }

  lemma {:induction false} AddFieldsAligns(l: Layout, fs: seq<Field>, k: nat)
    requires k <= |fs| && (forall f :: f in fs ==> Natural(f.alignment)) && Natural(l.payloadAlignment)
    ensures Natural(AddFields(l, fs, k).payloadAlignment)
  {
    if k > 0 {
      AddFieldsAligns(l, fs, k - 1);
    }
  }

  /** A class on top of its base. */
  function Extend(l: Layout, c: Class): (r: Layout)
    requires Natural(l.payloadAlignment) && FieldsOk(c)
    ensures Natural(r.payloadAlignment)
  {
    var placed := AddFields(l, c.fields, |c.fields|);
    AddFieldsAligns(l, c.fields, |c.fields|);
    AddMethodsFields(Padded(placed), c.methods, |c.methods|);
    AddMethods(Padded(placed), c.methods, |c.methods|)
  }

  lemma {:induction false} AddMethodsFields(l: Layout, ms: seq<Method>, k: nat)
    requires k <= |ms|
    ensures AddMethods(l, ms, k) == l.(virtuals := AddMethods(l, ms, k).virtuals, slots := AddMethods(l, ms, k).slots)
  {
    if k > 0 {
      AddMethodsFields(l, ms, k - 1);
    }
  }

  ghost predicate Sound(cs: Classes, rank: map<Symbol, nat>) {
    Ranked(cs, rank) && forall id :: id in cs ==> FieldsOk(cs[id])
  }

  /** The layout of a class, by recursion over its bases. */
  ghost function LayoutOf(cs: Classes, rank: map<Symbol, nat>, id: Symbol): (r: Layout)
    requires Sound(cs, rank) && id in cs
    ensures Natural(r.payloadAlignment)
    decreases rank[id]
  {
    Extend(if cs[id].base.Some? then LayoutOf(cs, rank, cs[id].base.value) else EMPTY, cs[id])
  }

  // ----- fields -----

  /** Fields are aligned, behind the header, one after the other, and inside the payload. */
  ghost predicate FieldsPlaced(l: Layout) {
    && Natural(l.payloadAlignment)
    && (forall i :: 0 <= i < |l.fields| ==> FieldPlaced(l, i))
    && forall i, j :: 0 <= i < j < |l.fields| ==> l.fields[i].offset + l.fields[i].field.size <= l.fields[j].offset
  }

  ghost predicate FieldPlaced(l: Layout, i: nat)
    requires i < |l.fields|
  {
    var p := l.fields[i];
    && Natural(p.field.alignment) && p.offset % p.field.alignment == 0 && p.field.alignment <= l.payloadAlignment
    && HEADER <= p.offset && p.offset + p.field.size <= HEADER + l.contentSize
  }

  lemma AddFieldPlaces(l: Layout, f: Field)
    requires FieldsPlaced(l) && Natural(f.alignment)
    ensures FieldsPlaced(AddField(l, f)) && l.fields <= AddField(l, f).fields
            && l.contentSize <= AddField(l, f).contentSize
  {
    AlignUpFits(l.contentSize, f.alignment);
    SumOfMultiples(HEADER, AlignUp(l.contentSize, f.alignment), f.alignment);
    var r := AddField(l, f);
    forall i | 0 <= i < |r.fields| ensures FieldPlaced(r, i) {
      if i < |l.fields| { assert FieldPlaced(l, i); }
    }
    forall i, j | 0 <= i < j < |r.fields| ensures r.fields[i].offset + r.fields[i].field.size <= r.fields[j].offset {
      assert FieldPlaced(l, i);
    }
  }

  lemma {:induction false} AddFieldsPlaces(l: Layout, fs: seq<Field>, k: nat)
    requires FieldsPlaced(l) && k <= |fs| && forall f :: f in fs ==> Natural(f.alignment)
    ensures FieldsPlaced(AddFields(l, fs, k)) && l.contentSize <= AddFields(l, fs, k).contentSize
    ensures |AddFields(l, fs, k).fields| == |l.fields| + k && l.fields <= AddFields(l, fs, k).fields
    ensures forall i :: 0 <= i < k ==> AddFields(l, fs, k).fields[|l.fields| + i].field == fs[i]
  {
    if k > 0 {
      AddFieldsPlaces(l, fs, k - 1);
      AddFieldPlaces(AddFields(l, fs, k - 1), fs[k - 1]);
    }
  }

  ghost function BaseLayout(cs: Classes, rank: map<Symbol, nat>, id: Symbol): (r: Layout)
    requires Sound(cs, rank) && id in cs
  {
    if cs[id].base.Some? then LayoutOf(cs, rank, cs[id].base.value) else EMPTY
  }

  /** Every layout places its fields properly: those of its base, where the base has them, and then its own. */
  lemma {:induction false} LayoutPlaces(cs: Classes, rank: map<Symbol, nat>, id: Symbol)
    requires Sound(cs, rank) && id in cs
    ensures var l, b := LayoutOf(cs, rank, id), BaseLayout(cs, rank, id);
            && FieldsPlaced(l) && l.contentSize <= l.payloadSize && l.payloadSize % l.payloadAlignment == 0
            && b.fields <= l.fields && |l.fields| == |b.fields| + |cs[id].fields| && b.contentSize <= l.contentSize
            && forall i :: 0 <= i < |cs[id].fields| ==> l.fields[|b.fields| + i].field == cs[id].fields[i]
    decreases rank[id]
  {
    if cs[id].base.Some? { LayoutPlaces(cs, rank, cs[id].base.value); }
    ExtendPlaces(BaseLayout(cs, rank, id), cs[id]);
  }

  lemma ExtendPlaces(b: Layout, c: Class)
    requires FieldsPlaced(b) && FieldsOk(c)
    ensures var l := Extend(b, c);
            && FieldsPlaced(l) && l.contentSize <= l.payloadSize && l.payloadSize % l.payloadAlignment == 0
            && b.fields <= l.fields && |l.fields| == |b.fields| + |c.fields| && b.contentSize <= l.contentSize
            && forall i :: 0 <= i < |c.fields| ==> l.fields[|b.fields| + i].field == c.fields[i]
  {
    AddFieldsPlaces(b, c.fields, |c.fields|);
    var placed := AddFields(b, c.fields, |c.fields|);
    AlignUpFits(placed.contentSize, placed.payloadAlignment);
    AddMethodsFields(Padded(placed), c.methods, |c.methods|);
    PaddingKeeps(placed, Extend(b, c));
  }

  lemma PaddingKeeps(a: Layout, b: Layout)
    requires FieldsPlaced(a) && b.fields == a.fields && b.contentSize == a.contentSize
             && b.payloadAlignment == a.payloadAlignment
    ensures FieldsPlaced(b)
  {
    forall i | 0 <= i < |b.fields| ensures FieldPlaced(b, i) { assert FieldPlaced(a, i); }
  }

  lemma {:induction false} AddFieldsBounded(l: Layout, fs: seq<Field>, k: nat, m: nat)
    requires k <= |fs| && forall f :: f in fs ==> Natural(f.alignment) && f.size <= m
    ensures AddFields(l, fs, k).contentSize <= l.contentSize + k * (m + 16)
  {
    if k > 0 {
      AddFieldsBounded(l, fs, k - 1, m);
      AlignUpFits(AddFields(l, fs, k - 1).contentSize, fs[k - 1].alignment);
      assert k * (m + 16) == (k - 1) * (m + 16) + (m + 16);
    }
  }

  /** Sizes grow with the number of fields at most linearly, by the largest field and its padding. */
  lemma {:induction false} LayoutBounded(cs: Classes, rank: map<Symbol, nat>, id: Symbol, m: nat)
    requires Sound(cs, rank) && id in cs
    requires forall c, f :: c in cs && f in cs[c].fields ==> f.size <= m
    ensures var l := LayoutOf(cs, rank, id);
            l.contentSize <= |l.fields| * (m + 16) && l.payloadSize <= (|l.fields| + 1) * (m + 16)
    decreases rank[id]
  {
    var b, c := BaseLayout(cs, rank, id), cs[id];
    if c.base.Some? { LayoutBounded(cs, rank, c.base.value, m); }
    LayoutPlaces(cs, rank, id);
    var placed := AddFields(b, c.fields, |c.fields|);
    AddFieldsBounded(b, c.fields, |c.fields|, m);
    AddFieldsAligns(b, c.fields, |c.fields|);
    AlignUpFits(placed.contentSize, placed.payloadAlignment);
    AddMethodsFields(Padded(placed), c.methods, |c.methods|);
    BoundAdds(|b.fields|, |c.fields|, m + 16);
  }

  lemma BoundAdds(x: nat, y: nat, m: nat)
    ensures x * m + y * m == (x + y) * m && (x + y) * m + m == (x + y + 1) * m
  {
  }

  /** The first field of a class without a base follows the two words of the header. */
  lemma {:induction false} FirstFieldFollowsHeader(fs: seq<Field>, k: nat)
    requires 0 < k <= |fs| && forall f :: f in fs ==> Natural(f.alignment)
    ensures |AddFields(EMPTY, fs, k).fields| == k && AddFields(EMPTY, fs, k).fields[0].offset == 2 * 8
  {
    if k > 1 {
      FirstFieldFollowsHeader(fs, k - 1);
    } else {
      assert AddFields(EMPTY, fs, 0) == EMPTY;
      AlignUpFits(0, fs[0].alignment);
      assert AlignUp(0, fs[0].alignment) == 0;
    }
  }

  /** `id` is `ancestor` or inherits from it, in `n` steps. */
  predicate Inherits(cs: Classes, id: Symbol, ancestor: Symbol, n: nat)
    decreases n
  {
    id in cs && if n == 0 then id == ancestor else cs[id].base.Some? && Inherits(cs, cs[id].base.value, ancestor, n - 1)
  }

  /** An inherited field is where the ancestor has it. */
  lemma {:induction false} LayoutsArePrefixes(cs: Classes, rank: map<Symbol, nat>, id: Symbol, ancestor: Symbol, n: nat)
    requires Sound(cs, rank) && ancestor in cs && Inherits(cs, id, ancestor, n)
    ensures LayoutOf(cs, rank, ancestor).fields <= LayoutOf(cs, rank, id).fields
    ensures LayoutOf(cs, rank, ancestor).contentSize <= LayoutOf(cs, rank, id).contentSize
    decreases n
  {
    LayoutPlaces(cs, rank, id);
    if n > 0 { LayoutsArePrefixes(cs, rank, cs[id].base.value, ancestor, n - 1); }
  }

  /** Field symbols are unique across the module. */
  ghost predicate UniqueFields(cs: Classes) {
    forall a, b, i, j :: a in cs && b in cs && 0 <= i < |cs[a].fields| && 0 <= j < |cs[b].fields| ==>
      cs[a].fields[i].id == cs[b].fields[j].id ==> a == b && i == j
  }

  /** The class that declares a field of a layout has it in the same place. */
  lemma {:induction false} Origin(cs: Classes, rank: map<Symbol, nat>, id: Symbol, i: nat) returns (c: Symbol, k: nat)
    requires Sound(cs, rank) && id in cs && i < |LayoutOf(cs, rank, id).fields|
    ensures c in cs && k < |cs[c].fields| && i == |BaseLayout(cs, rank, c).fields| + k
    ensures i < |LayoutOf(cs, rank, c).fields| && LayoutOf(cs, rank, c).fields[i] == LayoutOf(cs, rank, id).fields[i]
    ensures LayoutOf(cs, rank, id).fields[i].field == cs[c].fields[k]
    decreases rank[id]
  {
    LayoutPlaces(cs, rank, id);
    var b := BaseLayout(cs, rank, id);
    if i < |b.fields| {
      c, k := Origin(cs, rank, cs[id].base.value, i);
    } else {
      c, k := id, i - |b.fields|;
    }
  }

  /** A field has one offset, in whatever class it is looked up. */
  lemma FieldHasOneOffset(cs: Classes, rank: map<Symbol, nat>, a: Symbol, b: Symbol, i: nat, j: nat)
    requires Sound(cs, rank) && UniqueFields(cs) && a in cs && b in cs
    requires i < |LayoutOf(cs, rank, a).fields| && j < |LayoutOf(cs, rank, b).fields|
    requires LayoutOf(cs, rank, a).fields[i].field.id == LayoutOf(cs, rank, b).fields[j].field.id
    ensures LayoutOf(cs, rank, a).fields[i].offset == LayoutOf(cs, rank, b).fields[j].offset
  {
    var c, k := Origin(cs, rank, a, i);
    var d, m := Origin(cs, rank, b, j);
    assert cs[c].fields[k].id == cs[d].fields[m].id;
  }

  // ----- methods -----

  /** Every slot has its own entry in the table. */
  ghost predicate TableOk(l: Layout) {
    && (forall s :: s in l.slots ==> l.slots[s] < |l.virtuals|)
    && forall s, t :: s in l.slots && t in l.slots && s != t ==> l.slots[s] != l.slots[t]
  }

  /** The last of the first `k` methods that fills a slot. */
  function LastIn(ms: seq<Method>, k: nat, s: Symbol): Option<Symbol>
    requires k <= |ms|
  {
    if k == 0 then None else if ms[k - 1].slot == Some(s) then Some(ms[k - 1].function_) else LastIn(ms, k - 1, s)
  }

  /** The override nearest to a class: the last one it declares, or else its base's. */
  ghost function Nearest(cs: Classes, rank: map<Symbol, nat>, id: Symbol, s: Symbol): Option<Symbol>
    requires Ranked(cs, rank) && id in cs
    decreases rank[id]
  {
    var own := LastIn(cs[id].methods, |cs[id].methods|, s);
    if own.Some? then own else if cs[id].base.Some? then Nearest(cs, rank, cs[id].base.value, s) else None
  }

  function Entry(l: Layout, s: Symbol): Option<Symbol> {
    if s in l.slots && l.slots[s] < |l.virtuals| then Some(l.virtuals[l.slots[s]]) else None
  }

  lemma {:induction false} MethodsFill(l: Layout, ms: seq<Method>, k: nat)
    requires TableOk(l) && k <= |ms|
    ensures var r := AddMethods(l, ms, k);
            && TableOk(r) && (forall s :: s in l.slots ==> s in r.slots && r.slots[s] == l.slots[s])
            && forall s {:trigger Entry(r, s)} :: Entry(r, s) == if LastIn(ms, k, s).Some? then LastIn(ms, k, s)
               else Entry(l, s)
  {
    if k > 0 {
      MethodsFill(l, ms, k - 1);
      MethodFills(AddMethods(l, ms, k - 1), ms[k - 1]);
      var q, r := AddMethods(l, ms, k - 1), AddMethods(l, ms, k);
      forall s ensures Entry(r, s) == if LastIn(ms, k, s).Some? then LastIn(ms, k, s) else Entry(l, s) {
        assert Entry(q, s) == if LastIn(ms, k - 1, s).Some? then LastIn(ms, k - 1, s) else Entry(l, s);
      }
    }
  }

  lemma MethodFills(l: Layout, m: Method)
    requires TableOk(l)
    ensures var r := AddMethod(l, m);
            && TableOk(r) && (forall s :: s in l.slots ==> s in r.slots && r.slots[s] == l.slots[s])
            && forall s {:trigger Entry(r, s)} :: Entry(r, s) == if m.slot == Some(s) then Some(m.function_)
               else Entry(l, s)
  {
  }

  /** The method table of a class holds, in every slot, the nearest override. */
  lemma {:induction false} TableHoldsNearest(cs: Classes, rank: map<Symbol, nat>, id: Symbol)
    requires Sound(cs, rank) && id in cs
    ensures var l, b := LayoutOf(cs, rank, id), BaseLayout(cs, rank, id);
            && TableOk(l) && (forall s :: s in b.slots ==> s in l.slots && l.slots[s] == b.slots[s])
            && forall s {:trigger Entry(l, s)} :: Entry(l, s) == Nearest(cs, rank, id, s)
    decreases rank[id]
  {
    if cs[id].base.Some? { TableHoldsNearest(cs, rank, cs[id].base.value); }
    var b, c := BaseLayout(cs, rank, id), cs[id];
    AddFieldsTable(b, c.fields, |c.fields|);
    var padded := Padded(AddFields(b, c.fields, |c.fields|));
    MethodsFill(padded, c.methods, |c.methods|);
    forall s ensures Entry(LayoutOf(cs, rank, id), s) == Nearest(cs, rank, id, s) {
      assert Entry(padded, s) == Entry(b, s);
    }
  }

  lemma {:induction false} AddFieldsTable(l: Layout, fs: seq<Field>, k: nat)
    requires k <= |fs| && (forall f :: f in fs ==> Natural(f.alignment)) && Natural(l.payloadAlignment)
    ensures var r := AddFields(l, fs, k); r.virtuals == l.virtuals && r.slots == l.slots && Natural(r.payloadAlignment)
  {
    if k > 0 {
      AddFieldsTable(l, fs, k - 1);
    }
  }

  /** A slot keeps its index in every descendant. */
  lemma {:induction false} SlotsAreStable(cs: Classes, rank: map<Symbol, nat>, id: Symbol, ancestor: Symbol, n: nat,
                                          s: Symbol)
    requires Sound(cs, rank) && ancestor in cs && Inherits(cs, id, ancestor, n)
             && s in LayoutOf(cs, rank, ancestor).slots
    ensures s in LayoutOf(cs, rank, id).slots
            && LayoutOf(cs, rank, id).slots[s] == LayoutOf(cs, rank, ancestor).slots[s]
    decreases n
  {
    TableHoldsNearest(cs, rank, id);
    if n > 0 { SlotsAreStable(cs, rank, cs[id].base.value, ancestor, n - 1, s); }
  }

  // ----- the memoising builder -----

  ghost predicate Conflict(cs: Classes, rank: map<Symbol, nat>, a: Symbol, b: Symbol, s: Symbol)
    requires Sound(cs, rank)
  {
    && a in cs && b in cs && s in LayoutOf(cs, rank, a).slots && s in LayoutOf(cs, rank, b).slots
    && LayoutOf(cs, rank, a).slots[s] != LayoutOf(cs, rank, b).slots[s]
  }

  ghost predicate Clash(cs: Classes, rank: map<Symbol, nat>)
    requires Sound(cs, rank)
  {
    exists a, b, s :: Conflict(cs, rank, a, b, s)
  }

  /** The recorded offset of each of the first `k` fields is the layout's. */
  ghost predicate Recorded(l: Layout, offsets: map<Symbol, nat>, k: nat)
    requires k <= |l.fields|
  {
    forall i {:trigger l.fields[i]} :: 0 <= i < k ==>
        l.fields[i].field.id in offsets && offsets[l.fields[i].field.id] == l.fields[i].offset
  }

  ghost predicate Indexed(l: Layout, indices: map<Symbol, nat>) {
    forall s :: s in l.slots ==> s in indices && indices[s] == l.slots[s]
  }

  ghost predicate AllRecorded(cs: Classes, rank: map<Symbol, nat>, built: set<Symbol>, offsets: map<Symbol, nat>)
    requires Sound(cs, rank) && built <= cs.Keys
  {
    forall id {:trigger LayoutOf(cs, rank, id)} :: id in built ==>
        Recorded(LayoutOf(cs, rank, id), offsets, |LayoutOf(cs, rank, id).fields|)
  }

  ghost predicate AllIndexed(cs: Classes, rank: map<Symbol, nat>, built: set<Symbol>, indices: map<Symbol, nat>)
    requires Sound(cs, rank) && built <= cs.Keys
  {
    forall id {:trigger LayoutOf(cs, rank, id)} :: id in built ==> Indexed(LayoutOf(cs, rank, id), indices)
  }

  /** Every recorded index comes from a class in `built`. */
  ghost predicate Sourced(cs: Classes, rank: map<Symbol, nat>, built: set<Symbol>, indices: map<Symbol, nat>)
    requires Sound(cs, rank) && built <= cs.Keys
  {
    forall s {:trigger HasSource(cs, rank, built, indices, s)} :: s in indices ==>
        HasSource(cs, rank, built, indices, s)
  }

  ghost predicate HasSource(cs: Classes, rank: map<Symbol, nat>, built: set<Symbol>, indices: map<Symbol, nat>,
                            s: Symbol)
    requires Sound(cs, rank) && built <= cs.Keys && s in indices
  {
    exists id :: id in built && s in LayoutOf(cs, rank, id).slots && indices[s] == LayoutOf(cs, rank, id).slots[s]
  }

  lemma SourceConflicts(cs: Classes, rank: map<Symbol, nat>, built: set<Symbol>, indices: map<Symbol, nat>, id: Symbol,
                        s: Symbol)
    requires Sound(cs, rank) && built <= cs.Keys && Sourced(cs, rank, built, indices) && id in cs
    requires s in LayoutOf(cs, rank, id).slots && s in indices && indices[s] != LayoutOf(cs, rank, id).slots[s]
    ensures Clash(cs, rank)
  {
    assert HasSource(cs, rank, built, indices, s);
    var a :| a in built && s in LayoutOf(cs, rank, a).slots && indices[s] == LayoutOf(cs, rank, a).slots[s];
    assert Conflict(cs, rank, a, id, s);
  }

  lemma IndexOne(cs: Classes, rank: map<Symbol, nat>, built: set<Symbol>, indices: map<Symbol, nat>, id: Symbol,
                 s: Symbol)
    requires Sound(cs, rank) && built <= cs.Keys && id in built && AllIndexed(cs, rank, built - {id}, indices)
             && Sourced(cs, rank, built, indices)
    requires s in LayoutOf(cs, rank, id).slots && (s in indices ==> indices[s] == LayoutOf(cs, rank, id).slots[s])
    ensures var next := indices[s := LayoutOf(cs, rank, id).slots[s]];
            AllIndexed(cs, rank, built - {id}, next) && Sourced(cs, rank, built, next)
  {
    var next := indices[s := LayoutOf(cs, rank, id).slots[s]];
    forall a | a in built - {id} ensures Indexed(LayoutOf(cs, rank, a), next) {
      assert Indexed(LayoutOf(cs, rank, a), indices);
    }
    forall t | t in next ensures HasSource(cs, rank, built, next, t) {
      if t != s { assert HasSource(cs, rank, built, indices, t); }
    }
  }

  /** Recording a field again changes nothing for the classes recorded before. */
  lemma RecordOne(cs: Classes, rank: map<Symbol, nat>, built: set<Symbol>, offsets: map<Symbol, nat>, id: Symbol,
                  k: nat)
    requires Sound(cs, rank) && UniqueFields(cs) && built <= cs.Keys && id in cs && k < |LayoutOf(cs, rank, id).fields|
    requires AllRecorded(cs, rank, built, offsets) && Recorded(LayoutOf(cs, rank, id), offsets, k)
    ensures var p := LayoutOf(cs, rank, id).fields[k];
            AllRecorded(cs, rank, built, offsets[p.field.id := p.offset])
              && Recorded(LayoutOf(cs, rank, id), offsets[p.field.id := p.offset], k + 1)
  {
    var p := LayoutOf(cs, rank, id).fields[k];
    var next := offsets[p.field.id := p.offset];
    forall a | a in built ensures Recorded(LayoutOf(cs, rank, a), next, |LayoutOf(cs, rank, a).fields|) {
      var l := LayoutOf(cs, rank, a);
      forall i | 0 <= i < |l.fields|
        ensures l.fields[i].field.id in next && next[l.fields[i].field.id] == l.fields[i].offset {
        if l.fields[i].field.id == p.field.id { FieldHasOneOffset(cs, rank, a, id, i, k); }
      }
    }
    forall i | 0 <= i < k && LayoutOf(cs, rank, id).fields[i].field.id == p.field.id
      ensures LayoutOf(cs, rank, id).fields[i].offset == p.offset {
      FieldHasOneOffset(cs, rank, id, id, i, k);
    }
  }

  /** A class on top of its base, field by field and method by method. */
  method ExtendLayout(base: Layout, c: Class) returns (l: Layout)
    requires Natural(base.payloadAlignment) && FieldsOk(c)
    ensures l == Extend(base, c)
  {
    l := base;
    for k := 0 to |c.fields|
      invariant l == AddFields(base, c.fields, k) && Natural(l.payloadAlignment)
    {
      var f := c.fields[k];
      var at := AlignUp(l.contentSize, f.alignment);
      l :=
        l.(fields := l.fields + [Placed(f, HEADER + at)], contentSize := at + f.size,
           payloadAlignment := Max(l.payloadAlignment, f.alignment));
    }
    l := l.(payloadSize := AlignUp(l.contentSize, l.payloadAlignment));
    ghost var padded := l;
    for k := 0 to |c.methods|
      invariant l == AddMethods(padded, c.methods, k)
    {
      l := AddMethod(l, c.methods[k]);
    }
  }

  ghost predicate Covered(ids: seq<Symbol>, k: nat, built: set<Symbol>)
    requires k <= |ids|
  {
    forall j :: 0 <= j < k ==> ids[j] in built
  }

  lemma CoveredMore(ids: seq<Symbol>, k: nat, a: set<Symbol>, b: set<Symbol>)
    requires k < |ids| && Covered(ids, k, a) && a <= b && ids[k] in b
    ensures Covered(ids, k + 1, b)
  {
  }

  lemma NoConflict(cs: Classes, rank: map<Symbol, nat>, indices: map<Symbol, nat>)
    requires Sound(cs, rank) && AllIndexed(cs, rank, cs.Keys, indices)
    ensures !Clash(cs, rank)
  {
    forall a, b, s ensures !Conflict(cs, rank, a, b, s) {
      if a in cs && b in cs {
        assert Indexed(LayoutOf(cs, rank, a), indices) && Indexed(LayoutOf(cs, rank, b), indices);
      }
    }
  }

  lemma BuiltOne(cs: Classes, rank: map<Symbol, nat>, built: set<Symbol>, offsets: map<Symbol, nat>, id: Symbol)
    requires Sound(cs, rank) && built <= cs.Keys && id in cs && AllRecorded(cs, rank, built, offsets)
    requires Recorded(LayoutOf(cs, rank, id), offsets, |LayoutOf(cs, rank, id).fields|)
    ensures AllRecorded(cs, rank, built + {id}, offsets)
  {
  }

  lemma SourcedMore(cs: Classes, rank: map<Symbol, nat>, built: set<Symbol>, more: set<Symbol>,
                    indices: map<Symbol, nat>)
    requires Sound(cs, rank) && built <= more <= cs.Keys && Sourced(cs, rank, built, indices)
    ensures Sourced(cs, rank, more, indices)
  {
    forall s | s in indices ensures HasSource(cs, rank, more, indices, s) {
      assert HasSource(cs, rank, built, indices, s);
    }
  }

  lemma IndexedMore(cs: Classes, rank: map<Symbol, nat>, built: set<Symbol>, indices: map<Symbol, nat>, id: Symbol)
    requires Sound(cs, rank) && built <= cs.Keys && id in built && AllIndexed(cs, rank, built - {id}, indices)
    requires Indexed(LayoutOf(cs, rank, id), indices)
    ensures AllIndexed(cs, rank, built, indices)
  {
    forall a | a in built ensures Indexed(LayoutOf(cs, rank, a), indices) {
      if a != id { assert a in built - {id}; }
    }
  }

  class Builder {
    var layouts: map<Symbol, Layout>
    var offsets: map<Symbol, nat>
    var indices: map<Symbol, nat>

    /** Everything memoised is right, and lookups by field or slot agree with every class built so far. */
    ghost predicate Valid(cs: Classes, rank: map<Symbol, nat>)
      reads this
    {
      && Sound(cs, rank) && UniqueFields(cs) && layouts.Keys <= cs.Keys
      && (forall id :: id in layouts ==> layouts[id] == LayoutOf(cs, rank, id))
      && AllRecorded(cs, rank, layouts.Keys, offsets) && AllIndexed(cs, rank, layouts.Keys, indices)
      && Sourced(cs, rank, layouts.Keys, indices)
    }

    constructor ()
      ensures layouts == map[] && offsets == map[] && indices == map[]
    {
      layouts, offsets, indices := map[], map[], map[];
    }

    method RecordFields(cs: Classes, ghost rank: map<Symbol, nat>, id: Symbol, l: Layout)
      requires Valid(cs, rank) && id in cs && l == LayoutOf(cs, rank, id)
      modifies this`offsets
      ensures Valid(cs, rank) && Recorded(l, offsets, |l.fields|)
    {
      for k := 0 to |l.fields|
        invariant Valid(cs, rank) && Recorded(l, offsets, k)
      {
        RecordOne(cs, rank, layouts.Keys, offsets, id, k);
        offsets := offsets[l.fields[k].field.id := l.fields[k].offset];
      }
    }
  
    /**
     * Record the index of every slot of a class; false if another class has it elsewhere, which ends the compilation.
     */
    method RecordSlots(cs: Classes, ghost rank: map<Symbol, nat>, id: Symbol, l: Layout) returns (ok: bool)
      requires Valid(cs, rank) && id in cs && id !in layouts && l == LayoutOf(cs, rank, id)
      modifies this`indices
      ensures ok ==> AllIndexed(cs, rank, layouts.Keys + {id}, indices)
      ensures ok ==> Sourced(cs, rank, layouts.Keys + {id}, indices)
      ensures !ok ==> Clash(cs, rank)
    {
      ghost var built := layouts.Keys + {id};
      assert built - {id} == layouts.Keys;
      SourcedMore(cs, rank, layouts.Keys, built, indices);
      var todo := l.slots.Keys;
      while todo != {}
        invariant todo <= l.slots.Keys
        invariant AllIndexed(cs, rank, built - {id}, indices) && Sourced(cs, rank, built, indices)
        invariant forall s :: s in l.slots && s !in todo ==> s in indices && indices[s] == l.slots[s]
        decreases |todo|
      {
        var s :| s in todo;
        if s in indices && indices[s] != l.slots[s] {
          SourceConflicts(cs, rank, built, indices, id, s);
          return false;
        }
        IndexOne(cs, rank, built, indices, id, s);
        indices := indices[s := l.slots[s]];
        todo := todo - {s};
      }
      IndexedMore(cs, rank, built, indices, id);
      return true;
    }

    /** Remember a finished layout. */
    method Remember(cs: Classes, ghost rank: map<Symbol, nat>, id: Symbol, l: Layout) returns (ok: bool)
      requires Valid(cs, rank) && id in cs && id !in layouts && l == LayoutOf(cs, rank, id)
      modifies this
      ensures if ok then Valid(cs, rank) && layouts == old(layouts)[id := l] else Clash(cs, rank)
    {
      RecordFields(cs, rank, id, l);
      ok := RecordSlots(cs, rank, id, l);
      if !ok { return; }
      BuiltOne(cs, rank, layouts.Keys, offsets, id);
      layouts := layouts[id := l];
      assert layouts.Keys == old(layouts).Keys + {id};
    }

    /** The layout of a class, building its bases first and each class once. */
    method Build(cs: Classes, ghost rank: map<Symbol, nat>, id: Symbol) returns (ok: bool)
      requires Valid(cs, rank) && id in cs
      modifies this
      ensures if ok then Valid(cs, rank) && id in layouts && old(layouts).Keys <= layouts.Keys else Clash(cs, rank)
      ensures ok ==> forall x :: x in layouts && x !in old(layouts) ==> rank[x] <= rank[id]
      decreases rank[id]
    {
      if id in layouts { return true; }
      var base := EMPTY;
      if cs[id].base.Some? {
        ok := Build(cs, rank, cs[id].base.value);
        if !ok { return; }
        base := layouts[cs[id].base.value];
      }
      var l := ExtendLayout(base, cs[id]);
      ok := Remember(cs, rank, id, l);
    }

    /** Build every class; this fails exactly when two classes disagree on the index of a slot. */
    method BuildAll(cs: Classes, ghost rank: map<Symbol, nat>, ids: seq<Symbol>) returns (ok: bool)
      requires Valid(cs, rank) && forall id :: id in ids <==> id in cs
      modifies this
      ensures ok <==> !Clash(cs, rank)
      ensures ok ==> Valid(cs, rank) && layouts.Keys == cs.Keys
    {
      for k := 0 to |ids|
        invariant Valid(cs, rank) && Covered(ids, k, layouts.Keys)
      {
        assert ids[k] in ids;
        ghost var before := layouts.Keys;
        ok := Build(cs, rank, ids[k]);
        if !ok { return; }
        CoveredMore(ids, k, before, layouts.Keys);
      }
      ok := true;
      NoConflict(cs, rank, indices);
    }

    /** The entry of the dynamic class's table that a virtual call loads. */
    method LoadTarget(cs: Classes, ghost rank: map<Symbol, nat>, dynamic: Symbol, s: Symbol) returns (target: Symbol)
      requires Valid(cs, rank) && dynamic in layouts && s in layouts[dynamic].slots
      ensures Nearest(cs, rank, dynamic, s) == Some(target)
    {
      TableHoldsNearest(cs, rank, dynamic);
      assert Entry(layouts[dynamic], s) == Nearest(cs, rank, dynamic, s);
      assert Indexed(LayoutOf(cs, rank, dynamic), indices);
      target := layouts[dynamic].virtuals[indices[s]];
    }

    /** The callee chosen at compile time when the class of the receiver is known. */
    method ExactTarget(cs: Classes, ghost rank: map<Symbol, nat>, exact: Symbol, s: Symbol) returns (target: Symbol)
      requires Valid(cs, rank) && exact in layouts && s in layouts[exact].slots
      ensures Nearest(cs, rank, exact, s) == Some(target)
    {
      TableHoldsNearest(cs, rank, exact);
      assert Entry(layouts[exact], s) == Nearest(cs, rank, exact, s);
      target := layouts[exact].virtuals[layouts[exact].slots[s]];
    }
  }
}
