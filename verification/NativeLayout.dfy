/** Layouts of C-compatible types: scalars, pointers, fixed arrays, structures and unions. */
module NativeLayout {
  import opened Ir
  import opened Arithmetic
  import Collections
  import Scalars

  const MAX_SIZE: nat := 1073741824
  const MAX_DEPTH: nat := 128

  datatype Layout = Layout(size: nat, alignment: nat, offsets: seq<nat>)

  datatype Record = Record(isUnion: bool, fields: seq<Type>)

  type Records = map<Symbol, Record>

  type Memo = map<Symbol, Layout>

  const WORD: Layout := Layout(8, 8, [])

  // ----- the shape of a type -----

  /** A type whose layout another one needs, and how many levels deeper it is. */
  datatype Dependency = Dependency(element: Type, levels: nat)

  /** How many levels a type takes by itself, and what it depends on. */
  datatype Shape = Shape(levels: nat, dependencies: seq<Dependency>)

  function ScalarBytes(t: Type): nat {
    match t
    case Bool | Byte => 1
    case Int32 | UInt32 | Float32 => 4
    case Int | UInt64 | Float => 8
    case _ => 0
  }

  predicate InSignature(t: Type, i: nat) { (i == 0 && t == Void) || (!t.NativeRecord? && !t.FixedArray?) }

  function Start(ts: seq<Type>): nat { if |ts| > 0 && ts[0] == Void then 1 else 0 }

  /** Types of a C signature; a void result needs no layout. */
  function SignatureTypes(ts: seq<Type>): seq<Type> { ts[Start(ts)..] }

  function Inside(ts: seq<Type>): seq<Dependency> { seq(|ts|, i requires 0 <= i < |ts| => Dependency(ts[i], 1)) }

  /** A referenced type, `levels` below. Records need only be declared. */
  function PointeeShape(rs: Records, t: Type, levels: nat, allowVoid: bool): Option<Shape> {
    match t
    case Void => if allowVoid then Some(Shape(levels + 1, [])) else None
    case NativeRecord(s) => if s in rs then Some(Shape(levels + 1, [])) else None
    case FixedArray(e, n) => if n > 0 then PointeeShape(rs, e, levels + 1, false) else None
    case _ => Some(Shape(levels + 1, [Dependency(t, levels + 1)]))
  }

  function ShapeOf(rs: Records, t: Type): Option<Shape> {
    match t
    case FixedArray(e, n) => if n > 0 then Some(Shape(1, Inside([e]))) else None
    case NativeRecord(s) => if s in rs && |rs[s].fields| > 0 then Some(Shape(1, Inside(rs[s].fields))) else None
    case CFunction(ts) => if |ts| > 0 then Some(Shape(1, Inside(SignatureTypes(ts)))) else None
    case Pointer(e) => PointeeShape(rs, e, 2, true)
    case Optional(e) =>
      if e.Pointer? then PointeeShape(rs, e.element, 2, true)
      else if e.CFunction? then Some(Shape(1, Inside([e])))
      else None
    case _ => if ScalarBytes(t) > 0 then Some(Shape(1, [])) else None
  }

  // ----- the recursive definition -----

  predicate Sized(l: Layout) { 0 < l.size <= MAX_SIZE && Natural(l.alignment) }

  predicate AllSized(ms: seq<Layout>) { forall i :: 0 <= i < |ms| ==> Sized(ms[i]) }

  /** One more member: at zero in a union, else at the next aligned offset. */
  function AddMember(isUnion: bool, l: Layout, m: Layout): Option<Layout>
    requires m.alignment > 0
  {
    var offset := if isUnion then 0 else AlignUp(l.size, m.alignment);
    var size := Max(l.size, offset + m.size);
    if size > MAX_SIZE then None else Some(Layout(size, Max(l.alignment, m.alignment), l.offsets + [offset]))
  }

  /** The members placed so far. */
  function Members(isUnion: bool, ms: seq<Layout>, k: nat): Option<Layout>
    requires k <= |ms| && AllSized(ms)
  {
    if k == 0 then Some(Layout(0, 1, []))
    else
      match Members(isUnion, ms, k - 1)
      case None => None
      case Some(l) => AddMember(isUnion, l, ms[k - 1])
  }

  /** A record is padded to its alignment. */
  function Finish(l: Layout): Option<Layout>
    requires l.alignment > 0
  {
    var size := AlignUp(l.size, l.alignment);
    if size > MAX_SIZE then None else Some(l.(size := size))
  }

  lemma {:induction false} MembersSized(isUnion: bool, ms: seq<Layout>, k: nat)
    requires k <= |ms| && AllSized(ms)
    ensures Members(isUnion, ms, k).Some? ==>
              var l := Members(isUnion, ms, k).value;
              Natural(l.alignment) && |l.offsets| == k && l.size <= MAX_SIZE && (k > 0 ==> l.size > 0)
  {
    if k > 0 {
      MembersSized(isUnion, ms, k - 1);
    }
  }

  lemma ArraySize(size: nat, n: nat)
    requires size > 0 && n > 0 && n <= MAX_SIZE / size
    ensures 0 < size * n <= MAX_SIZE
  {
    MulMono(n, MAX_SIZE / size, size);
    assert MAX_SIZE / size * size <= MAX_SIZE;
    MulMono(1, n, size);
    assert size * n == n * size;
  }

  function ArrayOf(m: Layout, n: nat): (r: Option<Layout>)
    requires Sized(m)
    ensures r.Some? ==> Sized(r.value)
  {
    if n == 0 || n > MAX_SIZE / m.size then None
    else
      ArraySize(m.size, n);
      Some(Layout(m.size * n, m.alignment, []))
  }

  function RecordOf(isUnion: bool, ms: seq<Layout>): (r: Option<Layout>)
    requires AllSized(ms) && |ms| > 0
    ensures r.Some? ==> Sized(r.value)
  {
    MembersSized(isUnion, ms, |ms|);
    match Members(isUnion, ms, |ms|)
    case None => None
    case Some(l) => AlignUpFits(l.size, l.alignment); Finish(l)
  }

  /** The layout of a type, given those of its dependencies. */
  function Combine(rs: Records, t: Type, ms: seq<Layout>): (r: Option<Layout>)
    requires AllSized(ms)
    ensures r.Some? ==> Sized(r.value)
  {
    match t
    case FixedArray(_, n) => if |ms| == 1 then ArrayOf(ms[0], n) else None
    case NativeRecord(s) => if s in rs && |ms| > 0 then RecordOf(rs[s].isUnion, ms) else None
    case CFunction(ts) => if forall i :: 0 <= i < |ts| ==> InSignature(ts[i], i) then Some(WORD) else None
    case Pointer(_) => Some(WORD)
    case Optional(_) => Some(WORD)
    case _ => if ScalarBytes(t) > 0 then Some(Layout(ScalarBytes(t), ScalarBytes(t), [])) else None
  }

  /** The layout of a type nested at most `h` levels, by plain recursion. */
  ghost function Lay(rs: Records, t: Type, h: nat): (r: Option<Layout>)
    ensures r.Some? ==> Sized(r.value)
    decreases h, 1, 0
  {
    match ShapeOf(rs, t)
    case None => None
    case Some(shape) =>
      if h == 0 || h < shape.levels then None
      else
        match LayAll(rs, shape.dependencies, |shape.dependencies|, h)
        case None => None
        case Some(ms) => Combine(rs, t, ms)
  }

  ghost function LayAll(rs: Records, ds: seq<Dependency>, k: nat, h: nat): (r: Option<seq<Layout>>)
    requires k <= |ds|
    ensures r.Some? ==> |r.value| == k && AllSized(r.value)
    decreases h, 0, k
  {
    if k == 0 then Some([])
    else if ds[k - 1].levels == 0 || ds[k - 1].levels > h then None
    else
      match LayAll(rs, ds, k - 1, h)
      case None => None
      case Some(ms) =>
        match Lay(rs, ds[k - 1].element, h - ds[k - 1].levels)
        case None => None
        case Some(m) => Some(ms + [m])
  }

  /** The type has this layout, whatever depth that takes. */
  ghost predicate HasLayout(rs: Records, t: Type, l: Layout) {
    exists h: nat :: Lay(rs, t, h) == Some(l)
  }

  ghost predicate Layable(rs: Records, t: Type) {
    exists l :: HasLayout(rs, t, l)
  }

  // ----- a layout does not depend on how much depth is left -----

  lemma {:induction false} DeeperSame(rs: Records, t: Type, h: nat, g: nat)
    requires h <= g && Lay(rs, t, h).Some?
    ensures Lay(rs, t, g) == Lay(rs, t, h)
    decreases h, 1, 0
  {
    var ds := ShapeOf(rs, t).value.dependencies;
    DeeperSameAll(rs, ds, |ds|, h, g);
  }

  lemma {:induction false} DeeperSameAll(rs: Records, ds: seq<Dependency>, k: nat, h: nat, g: nat)
    requires k <= |ds| && h <= g && LayAll(rs, ds, k, h).Some?
    ensures LayAll(rs, ds, k, g) == LayAll(rs, ds, k, h)
    decreases h, 0, k
  {
    if k > 0 {
      DeeperSameAll(rs, ds, k - 1, h, g);
      DeeperSame(rs, ds[k - 1].element, h - ds[k - 1].levels, g - ds[k - 1].levels);
    }
  }

  lemma LayoutIsUnique(rs: Records, t: Type, l: Layout, m: Layout)
    requires HasLayout(rs, t, l) && HasLayout(rs, t, m)
    ensures l == m && Sized(l)
  {
    var h: nat :| Lay(rs, t, h) == Some(l);
    var g: nat :| Lay(rs, t, g) == Some(m);
    if h <= g { DeeperSame(rs, t, h, g); } else { DeeperSame(rs, t, g, h); }
  }

  lemma {:induction false} LayAllAt(rs: Records, ds: seq<Dependency>, k: nat, h: nat, i: nat)
    requires i < k <= |ds| && LayAll(rs, ds, k, h).Some?
    ensures 0 < ds[i].levels <= h && Lay(rs, ds[i].element, h - ds[i].levels) == Some(LayAll(rs, ds, k, h).value[i])
    decreases k
  {
    if i < k - 1 {
      LayAllAt(rs, ds, k - 1, h, i);
    }
  }

  // ----- how deep a type is nested, by its shape alone -----

  /** The type and what it depends on is nested at most `h` levels, every record taken apart. */
  predicate Fits(rs: Records, t: Type, h: nat)
    decreases h, 1, 0
  {
    var shape := ShapeOf(rs, t);
    shape.Some? && 0 < h && shape.value.levels <= h
      && FitsAll(rs, shape.value.dependencies, |shape.value.dependencies|, h)
  }

  predicate FitsAll(rs: Records, ds: seq<Dependency>, k: nat, h: nat)
    requires k <= |ds|
    decreases h, 0, k
  {
    k == 0
    || (FitsAll(rs, ds, k - 1, h) && 0 < ds[k - 1].levels <= h && Fits(rs, ds[k - 1].element, h - ds[k - 1].levels))
  }

  /**
   * The same with records in `known` counting as one level, and every record counting as one level from the second
   * time on. The result are the records known at the end; none if the nesting goes deeper.
   */
  function Visit(rs: Records, known: set<Symbol>, t: Type, h: nat): Option<set<Symbol>>
    decreases h, 1, 0
  {
    if h == 0 then None
    else if t.NativeRecord? && t.symbol in rs && t.symbol in known then Some(known)
    else
      match ShapeOf(rs, t)
      case None => None
      case Some(shape) =>
        if h < shape.levels then None
        else
          match VisitAll(rs, known, shape.dependencies, |shape.dependencies|, h)
          case None => None
          case Some(more) => Some(if t.NativeRecord? then more + {t.symbol} else more)
  }

  function VisitAll(rs: Records, known: set<Symbol>, ds: seq<Dependency>, k: nat, h: nat): Option<set<Symbol>>
    requires k <= |ds|
    decreases h, 0, k
  {
    if k == 0 then Some(known)
    else
      match VisitAll(rs, known, ds, k - 1, h)
      case None => None
      case Some(more) =>
        if ds[k - 1].levels == 0 || ds[k - 1].levels > h then None
        else Visit(rs, more, ds[k - 1].element, h - ds[k - 1].levels)
  }

  lemma {:induction false} LayFits(rs: Records, t: Type, h: nat)
    requires Lay(rs, t, h).Some?
    ensures Fits(rs, t, h)
    decreases h, 1, 0
  {
    var ds := ShapeOf(rs, t).value.dependencies;
    LayFitsAll(rs, ds, |ds|, h);
  }

  lemma {:induction false} LayFitsAll(rs: Records, ds: seq<Dependency>, k: nat, h: nat)
    requires k <= |ds| && LayAll(rs, ds, k, h).Some?
    ensures FitsAll(rs, ds, k, h)
    decreases h, 0, k
  {
    if k > 0 {
      LayFitsAll(rs, ds, k - 1, h);
      LayFits(rs, ds[k - 1].element, h - ds[k - 1].levels);
    }
  }

  lemma {:induction false} FitsLay(rs: Records, t: Type, g: nat, h: nat)
    requires Lay(rs, t, g).Some? && Fits(rs, t, h)
    ensures Lay(rs, t, h) == Lay(rs, t, g)
    decreases h, 1, 0
  {
    var ds := ShapeOf(rs, t).value.dependencies;
    FitsLayAll(rs, ds, |ds|, g, h);
  }

  lemma {:induction false} FitsLayAll(rs: Records, ds: seq<Dependency>, k: nat, g: nat, h: nat)
    requires k <= |ds| && LayAll(rs, ds, k, g).Some? && FitsAll(rs, ds, k, h)
    ensures LayAll(rs, ds, k, h) == LayAll(rs, ds, k, g)
    decreases h, 0, k
  {
    if k > 0 {
      FitsLayAll(rs, ds, k - 1, g, h);
      FitsLay(rs, ds[k - 1].element, g - ds[k - 1].levels, h - ds[k - 1].levels);
    }
  }

  /** The plain recursion gives a type its layout exactly when the type is not nested too deep. */
  lemma PlainExactly(rs: Records, t: Type, l: Layout, h: nat)
    requires HasLayout(rs, t, l)
    ensures Lay(rs, t, h) == if Fits(rs, t, h) then Some(l) else None
  {
    var g: nat :| Lay(rs, t, g) == Some(l);
    if Fits(rs, t, h) {
      FitsLay(rs, t, g, h);
    } else if Lay(rs, t, h).Some? {
      LayFits(rs, t, h);
    }
  }

  /** Remembering records can only make room. */
  lemma {:induction false} FitsVisits(rs: Records, known: set<Symbol>, t: Type, h: nat)
    requires Fits(rs, t, h)
    ensures Visit(rs, known, t, h).Some?
    decreases h, 1, 0
  {
    if !(t.NativeRecord? && t.symbol in rs && t.symbol in known) {
      var ds := ShapeOf(rs, t).value.dependencies;
      FitsVisitsAll(rs, known, ds, |ds|, h);
    }
  }

  lemma {:induction false} FitsVisitsAll(rs: Records, known: set<Symbol>, ds: seq<Dependency>, k: nat, h: nat)
    requires k <= |ds| && FitsAll(rs, ds, k, h)
    ensures VisitAll(rs, known, ds, k, h).Some?
    decreases h, 0, k
  {
    if k > 0 {
      FitsVisitsAll(rs, known, ds, k - 1, h);
      FitsVisits(rs, VisitAll(rs, known, ds, k - 1, h).value, ds[k - 1].element, h - ds[k - 1].levels);
    }
  }

  /**
   * What the memoising computation finds: a type's layout, unless counting known records as one level it is too deep.
   */
  ghost function Memoised(rs: Records, known: set<Symbol>, t: Type, h: nat): (r: Option<Layout>)
    ensures r.Some? ==> HasLayout(rs, t, r.value)
  {
    if Visit(rs, known, t, h).Some? && Layable(rs, t) then
      var l :| HasLayout(rs, t, l);
      Some(l)
    else None
  }

  lemma MemoisedIs(rs: Records, known: set<Symbol>, t: Type, h: nat, l: Layout)
    requires Visit(rs, known, t, h).Some? && HasLayout(rs, t, l)
    ensures Memoised(rs, known, t, h) == Some(l)
  {
    LayoutIsUnique(rs, t, Memoised(rs, known, t, h).value, l);
  }

  /**
   * For a type that has a layout, the memo makes no difference at a depth exactly when the type fits with every record
   * taken apart, or does not even fit with known records counting as one level. Other types are rejected either way.
   */
  lemma MemoAgreesExactly(rs: Records, known: set<Symbol>, t: Type, h: nat)
    ensures Layable(rs, t) ==>
              (Memoised(rs, known, t, h) == Lay(rs, t, h) <==> (Visit(rs, known, t, h).Some? ==> Fits(rs, t, h)))
    ensures !Layable(rs, t) ==> Memoised(rs, known, t, h).None? && Lay(rs, t, h).None?
  {
    if Layable(rs, t) {
      var l :| HasLayout(rs, t, l);
      PlainExactly(rs, t, l, h);
      if Fits(rs, t, h) { FitsVisits(rs, known, t, h); }
      if Visit(rs, known, t, h).Some? { MemoisedIs(rs, known, t, h, l); }
    } else if Lay(rs, t, h).Some? {
      assert HasLayout(rs, t, Lay(rs, t, h).value);
    }
  }

  // ----- sizes -----

  function Power(n: nat): nat { if n == 0 then 1 else 256 * Power(n - 1) }

  /** Integers take as many bytes as their values need and no more; floating-point numbers take four or eight. */
  lemma LeastBytes(t: Type)
    requires t in {Bool, Byte, Int32, UInt32, Int, UInt64}
    ensures ScalarBytes(t) > 0
    ensures Power(ScalarBytes(t) - 1) < Scalars.Greatest(t) - Scalars.Least(t) + 1 <= Power(ScalarBytes(t))
    ensures 8 * ScalarBytes(Float32) == 32 && 8 * ScalarBytes(Float) == 64
  {
    assert Power(1) == 256 && Power(2) == 65536 && Power(3) == 0x100_0000 && Power(4) == 0x1_0000_0000;
    assert Power(5) == 0x100_0000_0000 && Power(6) == 0x1_0000_0000_0000 && Power(7) == 0x100_0000_0000_0000;
    assert Power(8) == 0x1_0000_0000_0000_0000;
  }

  const GIB: nat := 1024 * 1024 * 1024

  /** An array is laid out exactly if it has elements and fits into one GiB, however the limit is checked. */
  lemma ArrayFitsExactly(m: Layout, n: nat)
    requires Sized(m)
    ensures ArrayOf(m, n).Some? <==> n > 0 && m.size * n <= GIB
    ensures ArrayOf(m, n).Some? ==> ArrayOf(m, n).value == Layout(m.size * n, m.alignment, [])
  {
    if n > 0 && m.size * n <= GIB { BelowQuotient(n, m.size, GIB); }
    if n > 0 && n <= GIB / m.size { ArraySize(m.size, n); }
  }

  /** Where the first `k` members end, if there were no limit. */
  function Extent(isUnion: bool, ms: seq<Layout>, k: nat): nat
    requires k <= |ms| && AllSized(ms)
  {
    if k == 0 then 0
    else
      var before := Extent(isUnion, ms, k - 1);
      Max(before, (if isUnion then 0 else AlignUp(before, ms[k - 1].alignment)) + ms[k - 1].size)
  }

  function Widest(ms: seq<Layout>, k: nat): nat
    requires k <= |ms|
  {
    if k == 0 then 1 else Max(Widest(ms, k - 1), ms[k - 1].alignment)
  }

  /** Members are placed exactly as long as they end within one GiB. */
  lemma {:induction false} MembersFitExactly(isUnion: bool, ms: seq<Layout>, k: nat)
    requires k <= |ms| && AllSized(ms)
    ensures Members(isUnion, ms, k).Some? <==> Extent(isUnion, ms, k) <= GIB
    ensures var r := Members(isUnion, ms, k);
            r.Some? ==> r.value.size == Extent(isUnion, ms, k) && r.value.alignment == Widest(ms, k)
  {
    if k > 0 {
      MembersFitExactly(isUnion, ms, k - 1);
    }
  }

  /** A record is laid out exactly if its padded extent is within one GiB. */
  lemma RecordFitsExactly(isUnion: bool, ms: seq<Layout>)
    requires AllSized(ms) && |ms| > 0
    ensures Widest(ms, |ms|) > 0
    ensures var size := AlignUp(Extent(isUnion, ms, |ms|), Widest(ms, |ms|));
            && (RecordOf(isUnion, ms).Some? <==> size <= GIB)
            && (RecordOf(isUnion, ms).Some? ==> RecordOf(isUnion, ms).value.size == size)
  {
    MembersFitExactly(isUnion, ms, |ms|);
    WidestIsPositive(ms, |ms|);
    AlignUpFits(Extent(isUnion, ms, |ms|), Widest(ms, |ms|));
  }

  lemma {:induction false} WidestIsPositive(ms: seq<Layout>, k: nat)
    requires k <= |ms|
    ensures Widest(ms, k) > 0
  {
    if k > 0 {
      WidestIsPositive(ms, k - 1);
    }
  }

  lemma ArrayPadded(size: nat, a: nat, n: nat)
    requires a > 0 && size % a == 0
    ensures size * n % a == 0
  {
    Division(size, a);
    var q := size / a;
    assert size * n == q * n * a by { assert size * n == q * a * n; }
    Quotient(q * n, a);
  }

  /** Every layout's size is a multiple of its alignment. */
  lemma {:induction false} LayoutIsPadded(rs: Records, t: Type, h: nat)
    requires Lay(rs, t, h).Some?
    ensures Lay(rs, t, h).value.size % Lay(rs, t, h).value.alignment == 0
  {
    if t.FixedArray? {
      var ds := Inside([t.element]);
      LayAllAt(rs, ds, 1, h, 0);
      LayoutIsPadded(rs, t.element, h - 1);
      var m := LayAll(rs, ds, 1, h).value[0];
      ArrayPadded(m.size, m.alignment, t.count);
    } else if t.NativeRecord? {
      var ds := Inside(rs[t.symbol].fields);
      var ms := LayAll(rs, ds, |ds|, h).value;
      MembersSized(rs[t.symbol].isUnion, ms, |ms|);
      var l := Members(rs[t.symbol].isUnion, ms, |ms|).value;
      AlignUpFits(l.size, l.alignment);
    }
  }

  // ----- records -----

  /** Member `i` is aligned, and inside what has been laid out so far. */
  predicate MemberPlaced(l: Layout, ms: seq<Layout>, i: nat)
    requires i < |ms| && i < |l.offsets| && AllSized(ms)
  {
    l.offsets[i] % ms[i].alignment == 0 && l.offsets[i] + ms[i].size <= l.size && ms[i].alignment <= l.alignment
  }

  /** The members of a structure follow one another; those of a union all start at zero. */
  ghost predicate MembersPlaced(isUnion: bool, l: Layout, ms: seq<Layout>, k: nat)
    requires k <= |ms| && AllSized(ms)
  {
    && |l.offsets| == k && Natural(l.alignment)
    && (forall i :: 0 <= i < k ==> MemberPlaced(l, ms, i))
    && (isUnion ==> forall i :: 0 <= i < k ==> l.offsets[i] == 0)
    && (!isUnion ==> forall i, j :: 0 <= i < j < k ==> l.offsets[i] + ms[i].size <= l.offsets[j])
  }

  lemma {:induction false} PlaceMembers(isUnion: bool, ms: seq<Layout>, k: nat)
    requires k <= |ms| && AllSized(ms) && Members(isUnion, ms, k).Some?
    ensures MembersPlaced(isUnion, Members(isUnion, ms, k).value, ms, k)
  {
    if k > 0 {
      PlaceMembers(isUnion, ms, k - 1);
      var l, r := Members(isUnion, ms, k - 1).value, Members(isUnion, ms, k).value;
      AlignUpFits(l.size, ms[k - 1].alignment);
      assert 0 % ms[k - 1].alignment == 0;
      forall i | 0 <= i < k ensures MemberPlaced(r, ms, i) {
        if i < k - 1 { assert MemberPlaced(l, ms, i); }
      }
      forall i | 0 <= i < k - 1 ensures l.offsets[i] + ms[i].size <= l.size { assert MemberPlaced(l, ms, i); }
    }
  }

  /** No sum in a layout comes near sixty-four bits. */
  lemma NoWrap(l: Layout, m: Layout)
    requires l.size <= MAX_SIZE && Natural(l.alignment) && Sized(m)
    ensures l.size + m.alignment - 1 < 0x1_0000_0000_0000_0000
    ensures AlignUp(l.size, m.alignment) + m.size < 0x1_0000_0000_0000_0000
    ensures l.size + l.alignment - 1 < 0x1_0000_0000_0000_0000
  {
    AlignUpFits(l.size, m.alignment);
  }

  ghost predicate HaveLayouts(rs: Records, ts: seq<Type>, ms: seq<Layout>, k: nat)
    requires k <= |ts| && k <= |ms|
  {
    forall i {:trigger HasLayout(rs, ts[i], ms[i])} :: 0 <= i < k ==> HasLayout(rs, ts[i], ms[i])
  }

  /** A type with dependencies one level below has its layout from theirs. */
  lemma OpenedInto(rs: Records, t: Type, ts: seq<Type>, l: Layout) returns (ms: seq<Layout>)
    requires ShapeOf(rs, t) == Some(Shape(1, Inside(ts))) && HasLayout(rs, t, l)
    ensures |ms| == |ts| && AllSized(ms) && HaveLayouts(rs, ts, ms, |ts|) && Combine(rs, t, ms) == Some(l)
  {
    var h: nat :| Lay(rs, t, h) == Some(l);
    ms := LayAll(rs, Inside(ts), |ts|, h).value;
    forall i | 0 <= i < |ts| ensures HasLayout(rs, ts[i], ms[i]) { LayAllAt(rs, Inside(ts), |ts|, h, i); }
  }

  /**
   * An accepted record: its members have the layouts they should, are aligned, apart or overlaid, and inside; its size
   * is padded.
   */
  lemma RecordIsCorrect(rs: Records, s: Symbol, l: Layout) returns (ms: seq<Layout>)
    requires HasLayout(rs, NativeRecord(s), l)
    ensures s in rs && |ms| == |rs[s].fields| > 0 && AllSized(ms) && Sized(l) && l.size % l.alignment == 0
    ensures HaveLayouts(rs, rs[s].fields, ms, |ms|) && RecordOf(rs[s].isUnion, ms) == Some(l)
    ensures MembersPlaced(rs[s].isUnion, l, ms, |ms|)
  {
    var h: nat :| Lay(rs, NativeRecord(s), h) == Some(l);
    LayoutIsPadded(rs, NativeRecord(s), h);
    ms := OpenedInto(rs, NativeRecord(s), rs[s].fields, l);
    PlaceMembers(rs[s].isUnion, ms, |ms|);
    var p := Members(rs[s].isUnion, ms, |ms|).value;
    AlignUpFits(p.size, p.alignment);
    forall i | 0 <= i < |ms| ensures MemberPlaced(l, ms, i) { assert MemberPlaced(p, ms, i); }
  }

  // ----- no type contains itself -----

  ghost predicate DependsOn(rs: Records, t: Type, u: Type) {
    ShapeOf(rs, t).Some? && Among(ShapeOf(rs, t).value.dependencies, u)
  }

  ghost predicate Among(ds: seq<Dependency>, u: Type) { exists i :: 0 <= i < |ds| && ds[i].element == u }

  /** A way down from a type to one it depends on. */
  ghost predicate Chain(rs: Records, p: seq<Type>) {
    |p| >= 2 && forall i {:trigger Link(rs, p, i)} :: 0 <= i < |p| - 1 ==> Link(rs, p, i)
  }

  ghost predicate Link(rs: Records, p: seq<Type>, i: nat)
    requires i + 1 < |p|
  {
    DependsOn(rs, p[i], p[i + 1])
  }

  lemma ChainTail(rs: Records, p: seq<Type>)
    requires Chain(rs, p)
    ensures DependsOn(rs, p[0], p[1]) && (|p| > 2 ==> Chain(rs, p[1..]))
  {
    assert Link(rs, p, 0);
    forall i | 0 <= i < |p[1..]| - 1 ensures Link(rs, p[1..], i) { assert Link(rs, p, i + 1); }
  }

  lemma DependencyHasLayout(rs: Records, t: Type, u: Type, h: nat) returns (g: nat)
    requires DependsOn(rs, t, u) && Lay(rs, t, h).Some?
    ensures g < h && Lay(rs, u, g).Some?
  {
    var ds := ShapeOf(rs, t).value.dependencies;
    assert LayAll(rs, ds, |ds|, h).Some?;
    var i :| 0 <= i < |ds| && ds[i].element == u;
    LayAllAt(rs, ds, |ds|, h, i);
    g := h - ds[i].levels;
  }

  lemma {:induction false} EndHasLayout(rs: Records, p: seq<Type>, h: nat) returns (g: nat)
    requires Chain(rs, p) && Lay(rs, p[0], h).Some?
    ensures g < h && Lay(rs, p[|p| - 1], g).Some?
    decreases |p|
  {
    ChainTail(rs, p);
    g := DependencyHasLayout(rs, p[0], p[1], h);
    if |p| > 2 { g := EndHasLayout(rs, p[1..], g); }
  }

  /** What has a layout does not contain itself. */
  lemma {:induction false} NotInsideItself(rs: Records, p: seq<Type>, h: nat)
    requires Chain(rs, p) && p[0] == p[|p| - 1]
    ensures Lay(rs, p[0], h).None?
  {
    if Lay(rs, p[0], h).Some? {
      var g := EndHasLayout(rs, p, h);
      NotInsideItself(rs, p, g);
    }
  }

  /** Every record being laid out depends on `t`. */
  ghost predicate Above(rs: Records, visiting: set<Symbol>, t: Type) {
    forall v {:trigger Needs(rs, v, t)} :: v in visiting ==> Needs(rs, v, t)
  }

  ghost predicate Needs(rs: Records, v: Symbol, t: Type) {
    exists p :: Chain(rs, p) && p[0] == NativeRecord(v) && p[|p| - 1] == t
  }

  lemma NeedsMore(rs: Records, v: Symbol, t: Type, u: Type)
    requires Needs(rs, v, t) && DependsOn(rs, t, u)
    ensures Needs(rs, v, u)
  {
    var p :| Chain(rs, p) && p[0] == NativeRecord(v) && p[|p| - 1] == t;
    var q := p + [u];
    forall i | 0 <= i < |q| - 1 ensures Link(rs, q, i) {
      if i < |p| - 1 { assert Link(rs, p, i); }
    }
    assert Chain(rs, q);
  }

  lemma AboveMore(rs: Records, visiting: set<Symbol>, t: Type, u: Type)
    requires Above(rs, visiting, t) && DependsOn(rs, t, u)
    ensures Above(rs, visiting, u) && (t.NativeRecord? ==> Above(rs, visiting + {t.symbol}, u))
  {
    forall v | v in visiting ensures Needs(rs, v, u) { NeedsMore(rs, v, t, u); }
    if t.NativeRecord? {
      assert Link(rs, [t, u], 0);
      assert Chain(rs, [t, u]);
    }
  }

  /** A record met again while it is being laid out has no layout. */
  lemma RecursiveByValue(rs: Records, visiting: set<Symbol>, s: Symbol)
    requires Above(rs, visiting, NativeRecord(s)) && s in visiting
    ensures !Layable(rs, NativeRecord(s))
  {
    assert Needs(rs, s, NativeRecord(s));
    var p :| Chain(rs, p) && p[0] == NativeRecord(s) && p[|p| - 1] == NativeRecord(s);
    if Layable(rs, NativeRecord(s)) {
      var l :| HasLayout(rs, NativeRecord(s), l);
      var h: nat :| Lay(rs, NativeRecord(s), h) == Some(l);
      NotInsideItself(rs, p, h);
    }
  }

  lemma ElementIsDependency(rs: Records, t: Type, ts: seq<Type>, i: nat)
    requires ShapeOf(rs, t) == Some(Shape(1, Inside(ts))) && i < |ts|
    ensures DependsOn(rs, t, ts[i])
  {
    assert Inside(ts)[i].element == ts[i];
  }

  // ----- building layouts from those of dependencies -----

  lemma OneMore(rs: Records, ds: seq<Dependency>, k: nat, a: nat, b: nat, ms: seq<Layout>, m: Layout) returns (g: nat)
    requires 0 < k <= |ds| && ds[k - 1].levels > 0
    requires LayAll(rs, ds, k - 1, a) == Some(ms) && Lay(rs, ds[k - 1].element, b) == Some(m)
    ensures LayAll(rs, ds, k, g) == Some(ms + [m])
  {
    g := Max(a, b + ds[k - 1].levels);
    DeeperSameAll(rs, ds, k - 1, a, g);
    DeeperSame(rs, ds[k - 1].element, b, g - ds[k - 1].levels);
  }

  /** Dependencies that have layouts have them within some common depth. */
  lemma {:induction false} CommonDepth(rs: Records, ts: seq<Type>, ms: seq<Layout>, k: nat) returns (g: nat)
    requires k <= |ts| == |ms| && HaveLayouts(rs, ts, ms, k)
    ensures LayAll(rs, Inside(ts), k, g) == Some(ms[..k])
  {
    g := 0;
    if k > 0 {
      var a := CommonDepth(rs, ts, ms, k - 1);
      assert HasLayout(rs, ts[k - 1], ms[k - 1]);
      var b: nat :| Lay(rs, ts[k - 1], b) == Some(ms[k - 1]);
      Collections.TakeOneMore(ms, k - 1);
      g := OneMore(rs, Inside(ts), k, a, b, ms[..k - 1], ms[k - 1]);
    }
  }

  /** A type has a layout once its dependencies, one level below, do. */
  lemma BuiltFrom(rs: Records, t: Type, ts: seq<Type>, ms: seq<Layout>)
    requires ShapeOf(rs, t) == Some(Shape(1, Inside(ts))) && |ts| == |ms| && AllSized(ms)
    requires HaveLayouts(rs, ts, ms, |ts|)
    ensures Combine(rs, t, ms).Some? ==> HasLayout(rs, t, Combine(rs, t, ms).value)
  {
    var g := CommonDepth(rs, ts, ms, |ts|);
    assert ms[..|ts|] == ms;
    DeeperSameAll(rs, Inside(ts), |ts|, g, g + 1);
    assert Lay(rs, t, g + 1) == Combine(rs, t, ms);
  }

  /** Given the layouts of its dependencies, a type has a layout exactly when they combine to one. */
  lemma BuiltExactly(rs: Records, t: Type, ts: seq<Type>, ms: seq<Layout>)
    requires ShapeOf(rs, t) == Some(Shape(1, Inside(ts))) && |ts| == |ms| && AllSized(ms)
    requires HaveLayouts(rs, ts, ms, |ts|)
    ensures Layable(rs, t) <==> Combine(rs, t, ms).Some?
    ensures Combine(rs, t, ms).Some? ==> HasLayout(rs, t, Combine(rs, t, ms).value)
  {
    BuiltFrom(rs, t, ts, ms);
    if Layable(rs, t) {
      var l :| HasLayout(rs, t, l);
      var ns := OpenedInto(rs, t, ts, l);
      SameLayouts(rs, ts, ms, ns, |ts|);
      assert ms[..|ts|] == ms && ns[..|ts|] == ns;
    }
  }

  lemma SameLayouts(rs: Records, ts: seq<Type>, ms: seq<Layout>, ns: seq<Layout>, k: nat)
    requires k <= |ts| && k <= |ms| && k <= |ns| && HaveLayouts(rs, ts, ms, k) && HaveLayouts(rs, ts, ns, k)
    ensures ms[..k] == ns[..k]
  {
    forall i | 0 <= i < k ensures ms[i] == ns[i] {
      assert HasLayout(rs, ts[i], ms[i]) && HasLayout(rs, ts[i], ns[i]);
      LayoutIsUnique(rs, ts[i], ms[i], ns[i]);
    }
  }

  lemma MemberIsLayable(rs: Records, t: Type, ts: seq<Type>, i: nat)
    requires ShapeOf(rs, t) == Some(Shape(1, Inside(ts))) && i < |ts| && Layable(rs, t)
    ensures Layable(rs, ts[i])
  {
    var l :| HasLayout(rs, t, l);
    var ms := OpenedInto(rs, t, ts, l);
    assert HasLayout(rs, ts[i], ms[i]);
  }

  lemma {:induction false} PrefixVisited(rs: Records, known: set<Symbol>, ds: seq<Dependency>, k: nat, n: nat, h: nat)
    requires k <= n <= |ds| && VisitAll(rs, known, ds, n, h).Some?
    ensures VisitAll(rs, known, ds, k, h).Some?
  {
    if k < n {
      PrefixVisited(rs, known, ds, k, n - 1, h);
    }
  }

  /** If a member cannot be laid out where it is, neither can what it is a member of. */
  lemma MemberRejected(rs: Records, known: set<Symbol>, more: set<Symbol>, t: Type, ts: seq<Type>, k: nat, h: nat)
    requires ShapeOf(rs, t) == Some(Shape(1, Inside(ts))) && k < |ts| && h > 0
    requires !(t.NativeRecord? && t.symbol in known) && VisitAll(rs, known, Inside(ts), k, h) == Some(more)
    requires Memoised(rs, more, ts[k], h - 1).None?
    ensures Memoised(rs, known, t, h).None?
  {
    if Memoised(rs, known, t, h).Some? {
      PrefixVisited(rs, known, Inside(ts), k + 1, |ts|, h);
      VisitedNext(rs, known, more, ts, k, h);
      MemberIsLayable(rs, t, ts, k);
    }
  }

  lemma {:induction false} SameMembers(isUnion: bool, ms: seq<Layout>, ns: seq<Layout>, k: nat)
    requires k <= |ms| && k <= |ns| && AllSized(ms) && AllSized(ns) && ms[..k] == ns[..k]
    ensures Members(isUnion, ms, k) == Members(isUnion, ns, k)
  {
    if k > 0 {
      assert ms[..k][k - 1] == ns[..k][k - 1];
      assert ms[..k][..k - 1] == ns[..k][..k - 1];
      SameMembers(isUnion, ms, ns, k - 1);
    }
  }

  lemma {:induction false} MembersFit(isUnion: bool, ms: seq<Layout>, k: nat, n: nat)
    requires k <= n <= |ms| && AllSized(ms) && Members(isUnion, ms, n).Some?
    ensures Members(isUnion, ms, k).Some?
  {
    if k < n {
      MembersFit(isUnion, ms, k, n - 1);
    }
  }

  lemma NextMember(isUnion: bool, ms: seq<Layout>, l: Layout, m: Layout)
    requires AllSized(ms) && Sized(m) && Members(isUnion, ms, |ms|) == Some(l)
    ensures Members(isUnion, ms + [m], |ms| + 1) == AddMember(isUnion, l, m)
  {
    SameMembers(isUnion, ms, ms + [m], |ms|);
  }

  /** If the members so far do not fit, the record has no layout. */
  lemma MemberTooLarge(rs: Records, s: Symbol, ms: seq<Layout>)
    requires s in rs && |ms| <= |rs[s].fields| && AllSized(ms) && HaveLayouts(rs, rs[s].fields, ms, |ms|)
    requires Members(rs[s].isUnion, ms, |ms|).None?
    ensures !Layable(rs, NativeRecord(s))
  {
    if Layable(rs, NativeRecord(s)) {
      var l :| HasLayout(rs, NativeRecord(s), l);
      var ns := RecordIsCorrect(rs, s, l);
      SameLayouts(rs, rs[s].fields, ms, ns, |ms|);
      SameMembers(rs[s].isUnion, ms, ns, |ms|);
      MembersFit(rs[s].isUnion, ns, |ms|, |ns|);
    }
  }

  /** The first `k` members of a record, as laid out so far. */
  ghost predicate SoFar(rs: Records, known: set<Symbol>, more: set<Symbol>, s: Symbol, h: nat, ms: seq<Layout>,
                        l: Layout, k: nat)
    requires s in rs && k <= |rs[s].fields|
  {
    && |ms| == k && AllSized(ms) && HaveLayouts(rs, rs[s].fields, ms, k) && Members(rs[s].isUnion, ms, k) == Some(l)
    && VisitAll(rs, known, Inside(rs[s].fields), k, h) == Some(more)
  }

  lemma VisitedNext(rs: Records, known: set<Symbol>, more: set<Symbol>, ts: seq<Type>, k: nat, h: nat)
    requires k < |ts| && h > 0 && VisitAll(rs, known, Inside(ts), k, h) == Some(more)
    ensures VisitAll(rs, known, Inside(ts), k + 1, h) == Visit(rs, more, ts[k], h - 1)
  {
    assert Inside(ts)[k] == Dependency(ts[k], 1);
  }

  lemma HaveOneMore(rs: Records, ts: seq<Type>, ms: seq<Layout>, m: Layout, k: nat)
    requires k < |ts| && |ms| == k && AllSized(ms) && HaveLayouts(rs, ts, ms, k) && HasLayout(rs, ts[k], m)
    ensures HaveLayouts(rs, ts, ms + [m], k + 1) && Sized(m) && AllSized(ms + [m])
  {
    LayoutIsUnique(rs, ts[k], m, m);
    forall i | 0 <= i < k + 1 ensures HasLayout(rs, ts[i], (ms + [m])[i]) {
      if i < k { assert HasLayout(rs, ts[i], ms[i]); }
    }
  }

  lemma OneMoreMember(rs: Records, known: set<Symbol>, more: set<Symbol>, next: set<Symbol>, s: Symbol, h: nat,
                      ms: seq<Layout>, l: Layout, k: nat, m: Layout)
    requires s in rs && k < |rs[s].fields| && h > 0 && SoFar(rs, known, more, s, h, ms, l, k)
    requires HasLayout(rs, rs[s].fields[k], m) && Visit(rs, more, rs[s].fields[k], h - 1) == Some(next)
    ensures Sized(m)
    ensures match AddMember(rs[s].isUnion, l, m)
            case Some(n) => SoFar(rs, known, next, s, h, ms + [m], n, k + 1)
            case None => !Layable(rs, NativeRecord(s))
  {
    HaveOneMore(rs, rs[s].fields, ms, m, k);
    NextMember(rs[s].isUnion, ms, l, m);
    VisitedNext(rs, known, more, rs[s].fields, k, h);
    if AddMember(rs[s].isUnion, l, m).None? { MemberTooLarge(rs, s, ms + [m]); }
  }

  // ----- pointers -----

  predicate IsPointer(t: Type) { t.Pointer? || (t.Optional? && t.element.Pointer?) }

  lemma {:induction false} PointeeLevels(rs: Records, t: Type, levels: nat, allowVoid: bool)
    ensures PointeeShape(rs, t, levels, allowVoid).Some? ==>
              PointeeShape(rs, t, levels, allowVoid).value.levels > levels
  {
    if t.FixedArray? {
      PointeeLevels(rs, t.element, levels + 1, false);
    }
  }

  lemma PointerToDeclared(rs: Records, t: Type, levels: nat)
    requires IsPointer(t) && ShapeOf(rs, t) == Some(Shape(levels, [])) && levels > 0
    ensures HasLayout(rs, t, WORD)
  {
    assert Lay(rs, t, levels) == Some(WORD);
  }

  lemma SingleDependency(rs: Records, e: Type, levels: nat, g: nat, m: Layout)
    requires levels > 0 && Lay(rs, e, g) == Some(m)
    ensures LayAll(rs, [Dependency(e, levels)], 1, g + levels) == Some([m])
  {
    var ds := [Dependency(e, levels)];
    var none: seq<Layout> := [];
    assert LayAll(rs, ds, 0, g + levels) == Some(none);
    assert none + [m] == [m] && g + levels - ds[0].levels == g;
  }

  lemma PointerFrom(rs: Records, t: Type, e: Type, levels: nat)
    requires IsPointer(t) && ShapeOf(rs, t) == Some(Shape(levels, [Dependency(e, levels)])) && levels > 0
    requires Layable(rs, e)
    ensures HasLayout(rs, t, WORD)
  {
    var m :| HasLayout(rs, e, m);
    var g: nat :| Lay(rs, e, g) == Some(m);
    SingleDependency(rs, e, levels, g, m);
    assert Lay(rs, t, g + levels) == Some(WORD);
  }

  lemma PointerInto(rs: Records, t: Type, e: Type, levels: nat)
    requires IsPointer(t) && ShapeOf(rs, t) == Some(Shape(levels, [Dependency(e, levels)])) && levels > 0
    requires Layable(rs, t)
    ensures Layable(rs, e)
  {
    var l :| HasLayout(rs, t, l);
    var h: nat :| Lay(rs, t, h) == Some(l);
    PointerDependsOn(rs, t, e, levels);
    var g := DependencyHasLayout(rs, t, e, h);
    assert HasLayout(rs, e, Lay(rs, e, g).value);
  }

  /** A pointer to something that needs a layout has one exactly when that has. */
  lemma PointerExactly(rs: Records, t: Type, e: Type, levels: nat)
    requires IsPointer(t) && ShapeOf(rs, t) == Some(Shape(levels, [Dependency(e, levels)])) && levels > 0
    ensures Layable(rs, t) <==> Layable(rs, e)
    ensures Layable(rs, e) ==> HasLayout(rs, t, WORD)
  {
    if Layable(rs, e) { PointerFrom(rs, t, e, levels); }
    if Layable(rs, t) { PointerInto(rs, t, e, levels); }
  }

  lemma PointerDependsOn(rs: Records, t: Type, e: Type, levels: nat)
    requires ShapeOf(rs, t) == Some(Shape(levels, [Dependency(e, levels)]))
    ensures DependsOn(rs, t, e)
  {
    assert ShapeOf(rs, t).value.dependencies[0].element == e;
  }

  lemma PointerVisit(rs: Records, known: set<Symbol>, t: Type, e: Type, levels: nat, h: nat)
    requires IsPointer(t) && ShapeOf(rs, t) == Some(Shape(levels, [Dependency(e, levels)])) && 0 < levels <= h
    ensures Visit(rs, known, t, h) == Visit(rs, known, e, h - levels)
  {
    var ds := [Dependency(e, levels)];
    assert VisitAll(rs, known, ds, 0, h) == Some(known);
    assert VisitAll(rs, known, ds, 1, h) == Visit(rs, known, e, h - levels);
  }

  // ----- the memoising computation -----

  /** Levels left at a depth. */
  function Left(depth: nat): nat { if depth < MAX_DEPTH then MAX_DEPTH - depth else 0 }

  /** What has been remembered is right. */
  ghost predicate MemoOk(rs: Records, memo: Memo) {
    forall s {:trigger Remembered(rs, memo, s)} :: s in memo ==> Remembered(rs, memo, s)
  }

  ghost predicate Remembered(rs: Records, memo: Memo, s: Symbol)
    requires s in memo
  {
    s in rs && HasLayout(rs, NativeRecord(s), memo[s])
  }

  lemma RememberOne(rs: Records, memo: Memo, s: Symbol, l: Layout)
    requires MemoOk(rs, memo) && s in rs && HasLayout(rs, NativeRecord(s), l)
    ensures MemoOk(rs, memo[s := l]) && memo[s := l].Keys == memo.Keys + {s}
  {
    var next := memo[s := l];
    forall x | x in next ensures Remembered(rs, next, x) {
      if x != s { assert Remembered(rs, memo, x); }
    }
  }

  lemma NotLayable(rs: Records, known: set<Symbol>, t: Type, h: nat)
    requires !Layable(rs, t)
    ensures Memoised(rs, known, t, h).None?
  {
  }

  lemma KnownRecord(rs: Records, memo: Memo, s: Symbol, h: nat)
    requires MemoOk(rs, memo) && s in memo && h > 0
    ensures s in rs && Visit(rs, memo.Keys, NativeRecord(s), h) == Some(memo.Keys)
    ensures Memoised(rs, memo.Keys, NativeRecord(s), h) == Some(memo[s])
  {
    assert Remembered(rs, memo, s);
    MemoisedIs(rs, memo.Keys, NativeRecord(s), h, memo[s]);
  }

  /** A record whose members have all been laid out. */
  lemma RecordDone(rs: Records, known: set<Symbol>, more: set<Symbol>, s: Symbol, h: nat, ms: seq<Layout>, l: Layout)
    requires s in rs && |rs[s].fields| > 0 && h > 0 && s !in known
    requires SoFar(rs, known, more, s, h, ms, l, |rs[s].fields|)
    ensures Natural(l.alignment) && Memoised(rs, known, NativeRecord(s), h) == Finish(l)
    ensures Finish(l).Some? ==> Visit(rs, known, NativeRecord(s), h) == Some(more + {s})
  {
    MembersSized(rs[s].isUnion, ms, |ms|);
    var t := NativeRecord(s);
    BuiltExactly(rs, t, rs[s].fields, ms);
    assert Combine(rs, t, ms) == Finish(l);
    if Finish(l).Some? { MemoisedIs(rs, known, t, h, Finish(l).value); }
  }

  lemma ArrayDone(rs: Records, known: set<Symbol>, e: Type, n: nat, h: nat)
    requires n > 0 && h > 0
    ensures Memoised(rs, known, e, h - 1).None? ==> Memoised(rs, known, FixedArray(e, n), h).None?
    ensures Memoised(rs, known, e, h - 1).Some? ==>
              var m := Memoised(rs, known, e, h - 1).value;
              Sized(m) && Memoised(rs, known, FixedArray(e, n), h) == ArrayOf(m, n)
    ensures Visit(rs, known, FixedArray(e, n), h) == Visit(rs, known, e, h - 1)
  {
    var t := FixedArray(e, n);
    assert VisitAll(rs, known, Inside([e]), 0, h) == Some(known);
    VisitedNext(rs, known, known, [e], 0, h);
    if Memoised(rs, known, e, h - 1).None? {
      MemberRejected(rs, known, known, t, [e], 0, h);
    } else {
      var m := Memoised(rs, known, e, h - 1).value;
      LayoutIsUnique(rs, e, m, m);
      assert HaveLayouts(rs, [e], [m], 1);
      BuiltExactly(rs, t, [e], [m]);
      if ArrayOf(m, n).Some? { MemoisedIs(rs, known, t, h, ArrayOf(m, n).value); }
    }
  }

  lemma OptionalDone(rs: Records, known: set<Symbol>, e: Type, h: nat)
    requires e.CFunction? && h > 0
    ensures Memoised(rs, known, Optional(e), h) == if Memoised(rs, known, e, h - 1).Some? then Some(WORD) else None
    ensures Visit(rs, known, Optional(e), h) == Visit(rs, known, e, h - 1)
  {
    var t := Optional(e);
    assert VisitAll(rs, known, Inside([e]), 0, h) == Some(known);
    VisitedNext(rs, known, known, [e], 0, h);
    if Memoised(rs, known, e, h - 1).None? {
      MemberRejected(rs, known, known, t, [e], 0, h);
    } else {
      var m := Memoised(rs, known, e, h - 1).value;
      LayoutIsUnique(rs, e, m, m);
      assert HaveLayouts(rs, [e], [m], 1);
      BuiltExactly(rs, t, [e], [m]);
      MemoisedIs(rs, known, t, h, WORD);
    }
  }

  lemma ScalarDone(rs: Records, known: set<Symbol>, t: Type, h: nat)
    requires ScalarBytes(t) > 0 && h > 0
    ensures Memoised(rs, known, t, h) == Some(Layout(ScalarBytes(t), ScalarBytes(t), []))
    ensures Visit(rs, known, t, h) == Some(known)
  {
    assert LayAll(rs, [], 0, 1) == Some([]);
    assert Lay(rs, t, 1) == Some(Layout(ScalarBytes(t), ScalarBytes(t), []));
    assert VisitAll(rs, known, [], 0, h) == Some(known);
    MemoisedIs(rs, known, t, h, Layout(ScalarBytes(t), ScalarBytes(t), []));
  }

  lemma Shapeless(rs: Records, known: set<Symbol>, t: Type, h: nat)
    requires ShapeOf(rs, t).None? || h == 0 || h < ShapeOf(rs, t).value.levels
    requires !(t.NativeRecord? && t.symbol in known)
    ensures Memoised(rs, known, t, h).None?
  {
  }

  // ----- signatures -----

  /** The arguments of a signature before `index`, as laid out so far. */
  ghost predicate SignatureSoFar(rs: Records, known: set<Symbol>, more: set<Symbol>, ts: seq<Type>, h: nat,
                                 ms: seq<Layout>, index: nat)
    requires index <= |ts|
  {
    var args := SignatureTypes(ts);
    && index >= Start(ts) && |ms| == index - Start(ts) && AllSized(ms) && HaveLayouts(rs, args, ms, |ms|)
    && (forall i :: 0 <= i < index ==> InSignature(ts[i], i))
    && VisitAll(rs, known, Inside(args), |ms|, h) == Some(more)
  }

  lemma SignatureStarts(rs: Records, known: set<Symbol>, ts: seq<Type>, h: nat)
    requires |ts| > 0
    ensures SignatureSoFar(rs, known, known, ts, h, [], Start(ts))
  {
  }

  lemma ArgumentIsBelow(rs: Records, visiting: set<Symbol>, t: Type, index: nat)
    requires t.CFunction? && Start(t.signature) <= index < |t.signature| && Above(rs, visiting, t)
    ensures Above(rs, visiting, t.signature[index])
  {
    ElementIsDependency(rs, t, SignatureTypes(t.signature), index - Start(t.signature));
    AboveMore(rs, visiting, t, t.signature[index]);
  }

  lemma SignatureRejected(rs: Records, known: set<Symbol>, t: Type, h: nat, index: nat)
    requires t.CFunction? && Start(t.signature) <= index < |t.signature|
    requires t.signature[index].NativeRecord? || t.signature[index].FixedArray?
    ensures Memoised(rs, known, t, h).None?
  {
    if Layable(rs, t) {
      SignatureAllowed(rs, t, index);
    }
  }

  lemma SignatureAllowed(rs: Records, t: Type, index: nat)
    requires t.CFunction? && index < |t.signature| && Layable(rs, t)
    ensures InSignature(t.signature[index], index)
  {
    var l :| HasLayout(rs, t, l);
    var ms := OpenedInto(rs, t, SignatureTypes(t.signature), l);
  }

  lemma SignatureStep(rs: Records, known: set<Symbol>, more: set<Symbol>, next: set<Symbol>, t: Type, h: nat,
                      ms: seq<Layout>, index: nat, r: Option<Layout>)
    requires t.CFunction? && index < |t.signature| && h > 0
             && SignatureSoFar(rs, known, more, t.signature, h, ms, index)
    requires !t.signature[index].NativeRecord? && !t.signature[index].FixedArray?
    requires r == Memoised(rs, more, t.signature[index], h - 1)
    requires r.Some? ==> Visit(rs, more, t.signature[index], h - 1) == Some(next)
    ensures r.Some? ==> SignatureSoFar(rs, known, next, t.signature, h, ms + [r.value], index + 1)
    ensures r.None? ==> Memoised(rs, known, t, h).None?
  {
    var args, k := SignatureTypes(t.signature), |ms|;
    assert args[k] == t.signature[index];
    if r.Some? {
      HaveOneMore(rs, args, ms, r.value, k);
      VisitedNext(rs, known, more, args, k, h);
    } else {
      MemberRejected(rs, known, more, t, args, k, h);
    }
  }

  lemma SignatureDone(rs: Records, known: set<Symbol>, more: set<Symbol>, t: Type, h: nat, ms: seq<Layout>)
    requires t.CFunction? && |t.signature| > 0 && h > 0
    requires SignatureSoFar(rs, known, more, t.signature, h, ms, |t.signature|)
    ensures Memoised(rs, known, t, h) == Some(WORD) && Visit(rs, known, t, h) == Some(more)
  {
    BuiltFrom(rs, t, SignatureTypes(t.signature), ms);
    MemoisedIs(rs, known, t, h, WORD);
  }

  lemma SignatureIsWord(rs: Records, known: set<Symbol>, t: Type, h: nat)
    requires t.CFunction? || IsPointer(t)
    ensures Memoised(rs, known, t, h).Some? ==> Memoised(rs, known, t, h) == Some(WORD)
  {
    if Memoised(rs, known, t, h).Some? {
      var l := Memoised(rs, known, t, h).value;
      var g: nat :| Lay(rs, t, g) == Some(l);
    }
  }

  class Layouts {
    const records: Records
    var completed: Memo
    var visiting: set<Symbol>

    constructor (records: Records)
      ensures this.records == records && completed == map[] && visiting == {} && Valid()
    {
      this.records, completed, visiting := records, map[], {};
    }

    ghost predicate Valid()
      reads this
    {
      MemoOk(records, completed)
    }

    /** Lay out a record's members in order. */
    method LayoutMembers(s: Symbol, depth: nat) returns (r: Option<Layout>, ghost ms: seq<Layout>)
      requires Valid() && s in records && |records[s].fields| > 0 && depth < MAX_DEPTH && s in visiting
      requires Above(records, visiting - {s}, NativeRecord(s)) && s !in completed
      modifies this
      ensures r.Some? ==> Valid() && visiting == old(visiting)
      ensures r.Some? ==>
                SoFar(records, old(completed).Keys, completed.Keys, s, Left(depth), ms, r.value, |records[s].fields|)
      ensures r.None? ==> Memoised(records, old(completed).Keys, NativeRecord(s), Left(depth)).None?
      decreases Left(depth), 1
    {
      var ts := records[s].fields;
      var l := Layout(0, 1, []);
      ms := [];
      for k := 0 to |ts|
        invariant Valid() && visiting == old(visiting)
        invariant SoFar(records, old(completed).Keys, completed.Keys, s, Left(depth), ms, l, k)
      {
        MemberIsBelow(records, visiting, s, k);
        ghost var more := completed.Keys;
        var m := LayoutType(ts[k], depth + 1);
        if m.None? {
          MemberRejected(records, old(completed).Keys, more, NativeRecord(s), ts, k, Left(depth));
          return None, ms;
        }
        OneMoreMember(records, old(completed).Keys, more, completed.Keys, s, Left(depth), ms, l, k, m.value);
        ms := ms + [m.value];
        var next := AddMember(records[s].isUnion, l, m.value);
        if next.None? {
          NotLayable(records, old(completed).Keys, NativeRecord(s), Left(depth));
          return None, ms;
        }
        l := next.value;
      }
      r := Some(l);
    }

    /** A record: remembered, met while it is being laid out, or laid out now. */
    method LayoutRecord(s: Symbol, depth: nat) returns (r: Option<Layout>)
      requires Valid() && depth < MAX_DEPTH && Above(records, visiting, NativeRecord(s))
      modifies this
      ensures r == Memoised(records, old(completed).Keys, NativeRecord(s), Left(depth))
      ensures r.Some? ==> Valid() && visiting == old(visiting)
      ensures r.Some? ==> Visit(records, old(completed).Keys, NativeRecord(s), Left(depth)) == Some(completed.Keys)
      decreases Left(depth), 2
    {
      if s in completed {
        KnownRecord(records, completed, s, Left(depth));
        return Some(completed[s]);
      }
      if s !in records || |records[s].fields| == 0 {
        Shapeless(records, completed.Keys, NativeRecord(s), Left(depth));
        return None;
      }
      if s in visiting {
        RecursiveByValue(records, visiting, s);
        return None;
      }
      visiting := visiting + {s};
      assert visiting - {s} == old(visiting);
      var l, ms := LayoutMembers(s, depth);
      if l.None? { return None; }
      RecordDone(records, old(completed).Keys, completed.Keys, s, Left(depth), ms, l.value);
      r := Finish(l.value);
      if r.Some? {
        visiting := visiting - {s};
        RememberOne(records, completed, s, r.value);
        completed := completed[s := r.value];
      }
    }

    method LayoutArray(e: Type, n: nat, depth: nat) returns (r: Option<Layout>)
      requires Valid() && depth < MAX_DEPTH && Above(records, visiting, FixedArray(e, n))
      modifies this
      ensures r == Memoised(records, old(completed).Keys, FixedArray(e, n), Left(depth))
      ensures r.Some? ==> Valid() && visiting == old(visiting)
      ensures r.Some? ==> Visit(records, old(completed).Keys, FixedArray(e, n), Left(depth)) == Some(completed.Keys)
      decreases Left(depth), 2
    {
      if n == 0 {
        Shapeless(records, completed.Keys, FixedArray(e, n), Left(depth));
        return None;
      }
      ElementIsDependency(records, FixedArray(e, n), [e], 0);
      AboveMore(records, visiting, FixedArray(e, n), e);
      ArrayDone(records, completed.Keys, e, n, Left(depth));
      var m := LayoutType(e, depth + 1);
      if m.None? { return None; }
      r := ArrayOf(m.value, n);
    }

    /** A C signature of scalars and pointers. */
    method LayoutSignature(t: Type, depth: nat) returns (ok: bool)
      requires Valid() && depth < MAX_DEPTH && t.CFunction? && |t.signature| > 0 && Above(records, visiting, t)
      modifies this
      ensures ok <==> Memoised(records, old(completed).Keys, t, Left(depth)).Some?
      ensures ok ==> Valid() && visiting == old(visiting)
      ensures ok ==> Visit(records, old(completed).Keys, t, Left(depth)) == Some(completed.Keys)
      decreases Left(depth), 1
    {
      var ts := t.signature;
      var start := if ts[0] == Void then 1 else 0;
      ghost var ms: seq<Layout> := [];
      SignatureStarts(records, completed.Keys, ts, Left(depth));
      for index := start to |ts|
        invariant Valid() && visiting == old(visiting)
        invariant SignatureSoFar(records, old(completed).Keys, completed.Keys, ts, Left(depth), ms, index)
      {
        if ts[index].NativeRecord? || ts[index].FixedArray? {
          SignatureRejected(records, old(completed).Keys, t, Left(depth), index);
          return false;
        }
        ArgumentIsBelow(records, visiting, t, index);
        ghost var more := completed.Keys;
        var m := LayoutType(ts[index], depth + 1);
        SignatureStep(records, old(completed).Keys, more, completed.Keys, t, Left(depth), ms, index, m);
        if m.None? { return false; }
        ms := ms + [m.value];
      }
      SignatureDone(records, old(completed).Keys, completed.Keys, t, Left(depth), ms);
      return true;
    }

    /** What a pointer `t` refers to, `levels` below it. */
    method ValidatePointee(ghost t: Type, ghost levels: nat, element: Type, depth: nat, allowVoid: bool)
      returns (ok: bool)
      requires Valid() && IsPointer(t) && Above(records, visiting, t) && levels <= depth
      requires ShapeOf(records, t) == PointeeShape(records, element, levels, allowVoid)
      modifies this
      ensures ok <==> Memoised(records, old(completed).Keys, t, Left(depth - levels)).Some?
      ensures ok ==> Valid() && visiting == old(visiting)
      ensures ok ==> Visit(records, old(completed).Keys, t, Left(depth - levels)) == Some(completed.Keys)
      decreases Left(depth), 1
    {
      PointeeLevels(records, element, levels, allowVoid);
      if depth >= MAX_DEPTH {
        Shapeless(records, completed.Keys, t, Left(depth - levels));
        return false;
      }
      if element.FixedArray? && element.count > 0 {
        ok := ValidatePointee(t, levels + 1, element.element, depth + 1, false);
      } else if element.Void? || element.NativeRecord? || element.FixedArray? {
        ok := (element.Void? && allowVoid) || (element.NativeRecord? && element.symbol in records);
        DeclaredPointee(records, completed.Keys, t, levels, element, Left(depth - levels), allowVoid);
      } else {
        ghost var h := Left(depth - levels);
        PointerDependsOn(records, t, element, levels + 1);
        AboveMore(records, visiting, t, element);
        PointerDone(records, completed.Keys, t, element, levels + 1, h);
        var m := LayoutType(element, depth + 1);
        ok := m.Some?;
      }
    }

    method LayoutPointer(t: Type, e: Type, depth: nat) returns (r: Option<Layout>)
      requires Valid() && depth < MAX_DEPTH && Above(records, visiting, t)
               && (t == Pointer(e) || t == Optional(Pointer(e)))
      modifies this
      ensures r == Memoised(records, old(completed).Keys, t, Left(depth))
      ensures r.Some? ==> Valid() && visiting == old(visiting)
      ensures r.Some? ==> Visit(records, old(completed).Keys, t, Left(depth)) == Some(completed.Keys)
      decreases Left(depth), 2
    {
      PointeeLevels(records, e, 2, true);
      if depth + 1 >= MAX_DEPTH {
        Shapeless(records, completed.Keys, t, Left(depth));
        return None;
      }
      SignatureIsWord(records, completed.Keys, t, Left(depth));
      var ok := ValidatePointee(t, 2, e, depth + 2, true);
      return if ok then Some(WORD) else None;
    }

    /** An optional C function pointer. */
    method LayoutOptional(e: Type, depth: nat) returns (r: Option<Layout>)
      requires Valid() && depth < MAX_DEPTH && e.CFunction? && Above(records, visiting, Optional(e))
      modifies this
      ensures r == Memoised(records, old(completed).Keys, Optional(e), Left(depth))
      ensures r.Some? ==> Valid() && visiting == old(visiting)
      ensures r.Some? ==> Visit(records, old(completed).Keys, Optional(e), Left(depth)) == Some(completed.Keys)
      decreases Left(depth), 2
    {
      ElementIsDependency(records, Optional(e), [e], 0);
      AboveMore(records, visiting, Optional(e), e);
      OptionalDone(records, completed.Keys, e, Left(depth));
      var m := LayoutType(e, depth + 1);
      return if m.Some? then Some(WORD) else None;
    }

    /** The layout of a type at a depth, exactly as `Memoised` says, and what is known afterwards. */
    method LayoutType(t: Type, depth: nat) returns (r: Option<Layout>)
      requires Valid() && Above(records, visiting, t)
      modifies this
      ensures r == Memoised(records, old(completed).Keys, t, Left(depth))
      ensures r.Some? ==> Valid() && visiting == old(visiting)
      ensures r.Some? ==> Visit(records, old(completed).Keys, t, Left(depth)) == Some(completed.Keys)
      decreases Left(depth), 3
    {
      if depth >= MAX_DEPTH { return None; }
      if t.FixedArray? {
        r := LayoutArray(t.element, t.count, depth);
      } else if t.NativeRecord? {
        r := LayoutRecord(t.symbol, depth);
      } else if t.CFunction? {
        r := LayoutFunction(t, depth);
      } else if t.Pointer? {
        r := LayoutPointer(t, t.element, depth);
      } else if t.Optional? && t.element.Pointer? {
        r := LayoutPointer(t, t.element.element, depth);
      } else if t.Optional? && t.element.CFunction? {
        r := LayoutOptional(t.element, depth);
      } else if ScalarBytes(t) > 0 {
        ScalarDone(records, completed.Keys, t, Left(depth));
        r := Some(Layout(ScalarBytes(t), ScalarBytes(t), []));
      } else {
        Shapeless(records, completed.Keys, t, Left(depth));
        r := None;
      }
    }

    method LayoutFunction(t: Type, depth: nat) returns (r: Option<Layout>)
      requires Valid() && depth < MAX_DEPTH && t.CFunction? && Above(records, visiting, t)
      modifies this
      ensures r == Memoised(records, old(completed).Keys, t, Left(depth))
      ensures r.Some? ==> Valid() && visiting == old(visiting)
      ensures r.Some? ==> Visit(records, old(completed).Keys, t, Left(depth)) == Some(completed.Keys)
      decreases Left(depth), 2
    {
      if |t.signature| == 0 {
        Shapeless(records, completed.Keys, t, Left(depth));
        return None;
      }
      SignatureIsWord(records, completed.Keys, t, Left(depth));
      var ok := LayoutSignature(t, depth);
      return if ok then Some(WORD) else None;
    }
  }

  lemma MemberIsBelow(rs: Records, visiting: set<Symbol>, s: Symbol, k: nat)
    requires s in rs && k < |rs[s].fields| && s in visiting && Above(rs, visiting - {s}, NativeRecord(s))
    ensures Above(rs, visiting, rs[s].fields[k])
  {
    ElementIsDependency(rs, NativeRecord(s), rs[s].fields, k);
    AboveMore(rs, visiting - {s}, NativeRecord(s), rs[s].fields[k]);
    assert visiting - {s} + {s} == visiting;
  }

  /** A pointer to void or to a record needs nothing but the declaration. */
  lemma DeclaredPointee(rs: Records, known: set<Symbol>, t: Type, levels: nat, e: Type, h: nat, allowVoid: bool)
    requires IsPointer(t) && ShapeOf(rs, t) == PointeeShape(rs, e, levels, allowVoid) && levels < h
    requires e.Void? || e.NativeRecord? || (e.FixedArray? && e.count == 0)
    ensures var ok := (e.Void? && allowVoid) || (e.NativeRecord? && e.symbol in rs);
            && (Memoised(rs, known, t, h).Some? <==> ok) && (ok ==> Visit(rs, known, t, h) == Some(known))
  {
    if ShapeOf(rs, t).Some? {
      PointerToDeclared(rs, t, levels + 1);
      assert VisitAll(rs, known, [], 0, h) == Some(known);
      MemoisedIs(rs, known, t, h, WORD);
    } else {
      Shapeless(rs, known, t, h);
    }
  }

  lemma PointerDone(rs: Records, known: set<Symbol>, t: Type, e: Type, levels: nat, h: nat)
    requires IsPointer(t) && ShapeOf(rs, t) == Some(Shape(levels, [Dependency(e, levels)])) && 0 < levels <= h
    ensures Memoised(rs, known, t, h).Some? <==> Memoised(rs, known, e, h - levels).Some?
    ensures Visit(rs, known, t, h) == Visit(rs, known, e, h - levels)
  {
    PointerExactly(rs, t, e, levels);
    PointerVisit(rs, known, t, e, levels, h);
  }

  // ----- acceptance depends on what was laid out before -----

  /** A record of one byte, inside `n` arrays of one element. */
  function Arrays(n: nat): Type { if n == 0 then NativeRecord("A") else FixedArray(Arrays(n - 1), 1) }

  const ONE_RECORD: Records := map["A" := Record(false, [Byte])]

  lemma OneByteRecord()
    ensures HasLayout(ONE_RECORD, NativeRecord("A"), Layout(1, 1, [0]))
  {
    var rs, m := ONE_RECORD, Layout(1, 1, []);
    ScalarDone(rs, {}, Byte, 1);
    assert HaveLayouts(rs, [Byte], [m], 1);
    BuiltFrom(rs, NativeRecord("A"), [Byte], [m]);
    var none: seq<nat> := [];
    assert none + [0] == [0];
    assert AddMember(false, Layout(0, 1, []), m) == Some(Layout(1, 1, [0]));
    assert Members(false, [m], 1) == Some(Layout(1, 1, [0]));
    assert Combine(rs, NativeRecord("A"), [m]) == Some(Layout(1, 1, [0]));
  }

  lemma {:induction false} ArraysHaveLayout(n: nat) returns (l: Layout)
    ensures HasLayout(ONE_RECORD, Arrays(n), l) && l.size == 1
  {
    if n == 0 {
      OneByteRecord();
      l := Layout(1, 1, [0]);
    } else {
      var m := ArraysHaveLayout(n - 1);
      LayoutIsUnique(ONE_RECORD, Arrays(n - 1), m, m);
      assert HaveLayouts(ONE_RECORD, [Arrays(n - 1)], [m], 1);
      BuiltFrom(ONE_RECORD, Arrays(n), [Arrays(n - 1)], [m]);
      l := ArrayOf(m, 1).value;
    }
  }

  /** Known, the record takes one level; unknown it takes two. */
  lemma {:induction false} ArraysDepth(n: nat, h: nat)
    ensures Fits(ONE_RECORD, Arrays(n), h) <==> h >= n + 2
    ensures Visit(ONE_RECORD, {}, Arrays(n), h).Some? <==> h >= n + 2
    ensures Visit(ONE_RECORD, {"A"}, Arrays(n), h).Some? <==> h >= n + 1
  {
    if n == 0 {
      OneByteDepth(h);
    } else {
      if h > 0 {
        ArraysDepth(n - 1, h - 1);
        VisitedNext(ONE_RECORD, {}, {}, [Arrays(n - 1)], 0, h);
        VisitedNext(ONE_RECORD, {"A"}, {"A"}, [Arrays(n - 1)], 0, h);
        assert Inside([Arrays(n - 1)])[0] == Dependency(Arrays(n - 1), 1);
        assert FitsAll(ONE_RECORD, Inside([Arrays(n - 1)]), 1, h) <==> Fits(ONE_RECORD, Arrays(n - 1), h - 1);
      }
    }
  }

  lemma OneByteDepth(h: nat)
    ensures Fits(ONE_RECORD, NativeRecord("A"), h) <==> h >= 2
    ensures Visit(ONE_RECORD, {}, NativeRecord("A"), h).Some? <==> h >= 2
    ensures Visit(ONE_RECORD, {"A"}, NativeRecord("A"), h).Some? <==> h >= 1
  {
    assert Inside([Byte])[0] == Dependency(Byte, 1);
    if h > 0 {
      VisitedNext(ONE_RECORD, {}, {}, [Byte], 0, h);
      assert VisitAll(ONE_RECORD, {}, [], 0, h - 1) == Some({});
      assert Fits(ONE_RECORD, Byte, h - 1) <==> h - 1 > 0;
      assert FitsAll(ONE_RECORD, Inside([Byte]), 1, h) <==> Fits(ONE_RECORD, Byte, h - 1);
    }
  }

  lemma RecordIsKnown(h: nat)
    requires h >= 2
    ensures Visit(ONE_RECORD, {}, NativeRecord("A"), h) == Some({"A"})
    ensures Memoised(ONE_RECORD, {}, NativeRecord("A"), h).Some?
  {
    VisitedNext(ONE_RECORD, {}, {}, [Byte], 0, h);
    ScalarDone(ONE_RECORD, {}, Byte, h - 1);
    var none: set<Symbol> := {};
    assert none + {"A"} == {"A"};
    OneByteRecord();
    MemoisedIs(ONE_RECORD, {}, NativeRecord("A"), h, Layout(1, 1, [0]));
  }

  lemma ArraysMemoised(known: set<Symbol>, n: nat, h: nat)
    requires known == {} || known == {"A"}
    ensures Memoised(ONE_RECORD, known, Arrays(n), h).Some? <==> h >= n + 2 - |known|
    ensures Lay(ONE_RECORD, Arrays(n), h).Some? <==> h >= n + 2
  {
    var l := ArraysHaveLayout(n);
    ArraysDepth(n, h);
    PlainExactly(ONE_RECORD, Arrays(n), l, h);
    if Visit(ONE_RECORD, known, Arrays(n), h).Some? { MemoisedIs(ONE_RECORD, known, Arrays(n), h, l); }
  }

  /**
   * From the outermost depth, arrays of the record nested 127 deep are rejected by the plain recursion and when they
   * come first, and accepted once the record has been laid out.
   */
  lemma OrderMatters(n: nat, h: nat)
    requires h == Left(0)
    ensures Lay(ONE_RECORD, Arrays(n), h).Some? <==> n < 127
    ensures Memoised(ONE_RECORD, {}, Arrays(n), h).Some? <==> n < 127
    ensures Memoised(ONE_RECORD, {}, NativeRecord("A"), h).Some?
    ensures Visit(ONE_RECORD, {}, NativeRecord("A"), h) == Some({"A"})
    ensures Memoised(ONE_RECORD, {"A"}, Arrays(n), h).Some? <==> n <= 127
  {
    ArraysMemoised({}, n, h);
    RecordIsKnown(h);
    ArraysMemoised({"A"}, n, h);
  }
}
