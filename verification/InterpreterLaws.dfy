/** Laws of the interpreter that runs with and without regions share: what its instructions compute. */
module InterpreterLaws {
  import opened Ir
  import opened Cfg
  import opened Scalars
  import opened RegionExecution

  /** The address an allocator answers with is free. */
  ghost predicate Answers(allot: Allocator, s: Stack) { Find(s, allot(s)).None? }

  // ----- strings -----

  lemma NumbersOfScalars(ns: seq<int>)
    ensures AllScalars(TextObject(ns).slots) && Numbers(TextObject(ns).slots) == ns
  {
  }

  /** Concatenation makes a new string with the texts of both, in order, and changes nothing else. */
  lemma ConcatenationJoins(n: Machine, allot: Allocator, i: Instruction, v: Value, w: Value, s: Stack)
    requires i.opcode == StringConcat && Answers(allot, s) && TextOf(s, v).Some? && TextOf(s, w).Some?
    ensures var r := Operate(n, allot, i, [v, w], s);
            && r.Next? && r.value == Ref(allot(s))
               && TextOf(r.stack, r.value) == Some(TextOf(s, v).value + TextOf(s, w).value)
            && r.stack == s.(current := s.current[allot(s) := r.stack.current[allot(s)]])
  {
    NumbersOfScalars(TextOf(s, v).value + TextOf(s, w).value);
  }

  /** A number becomes its text. */
  lemma NumberBecomesText(n: Machine, allot: Allocator, i: Instruction, x: int, s: Stack)
    requires i.opcode == StringFromInt || i.opcode == StringFromByte || i.opcode == StringFromFloat
    ensures var r := Operate(n, allot, i, [Scalar(x)], s);
            r.Next? && r.value == Ref(allot(s)) && TextOf(r.stack, r.value) == Some(n.text(i, x))
  {
    NumbersOfScalars(n.text(i, x));
  }

  /** Strings are compared by their texts, wherever they are. */
  lemma StringsCompareByText(n: Machine, allot: Allocator, i: Instruction, v: Value, w: Value, s: Stack)
    requires (i.opcode == StringEqual || i.opcode == StringNotEqual) && TextOf(s, v).Some? && TextOf(s, w).Some?
    ensures Operate(n, allot, i, [v, w], s) ==
            Next(Boolean((TextOf(s, v).value == TextOf(s, w).value) == (i.opcode == StringEqual)), s)
  {
  }

  /** References are the same only if they are the same place. */
  lemma ReferencesCompareByPlace(n: Machine, allot: Allocator, i: Instruction, a: Addr, b: Addr, s: Stack)
    requires i.opcode == Compare && !n.negated(i)
    ensures Operate(n, allot, i, [Ref(a), Ref(b)], s) == Next(Boolean(a == b), s)
  {
    assert !AllScalars([Ref(a), Ref(b)]) by { assert [Ref(a), Ref(b)][0].Ref?; }
  }

  // ----- optionals and casts -----

  /** What was wrapped is there, and is what is unwrapped. */
  lemma UnwrapAfterWrap(n: Machine, allot: Allocator, wrap: Instruction, ask: Instruction, unwrap: Instruction,
                        v: Value,
                        s: Stack)
    requires wrap.opcode == OptionalSome && ask.opcode == OptionalIsSome && unwrap.opcode == OptionalGetChecked
    ensures var r := Operate(n, allot, wrap, [v], s);
            && r.Next? && r.stack == s
            && Operate(n, allot, ask, [r.value], s) == Next(Scalar(1), s)
            && Operate(n, allot, unwrap, [r.value], s) == Next(v, s)
  {
  }

  /** Nothing is not there, and cannot be unwrapped. */
  lemma NothingIsEmpty(n: Machine, allot: Allocator, none: Instruction, ask: Instruction, unwrap: Instruction, s: Stack)
    requires none.opcode == OptionalNone && ask.opcode == OptionalIsSome && unwrap.opcode == OptionalGetChecked
    ensures var r := Operate(n, allot, none, [], s);
            && r.Next? && r.stack == s
            && Operate(n, allot, ask, [r.value], s) == Next(Scalar(0), s)
            && Operate(n, allot, unwrap, [r.value], s) == Fault(unwrap)
  {
  }

  /** Casts do not move an object; a checked one gives it back exactly if its class allows. */
  lemma CastsKeepTheObject(n: Machine, allot: Allocator, up: Instruction, down: Instruction, a: Addr, s: Stack)
    requires up.opcode == ClassUpcast && down.opcode == ClassCheckedCast && Find(s, a).Some?
    ensures Operate(n, allot, up, [Ref(a)], s) == Next(Ref(a), s)
    ensures Operate(n, allot, down, [Ref(a)], s) ==
            Next(if n.castOk(Find(s, a).value.kind, down) then Just(Ref(a)) else Nothing, s)
  {
  }

  // ----- objects -----

  /** What was stored into a field is what it holds; other fields and objects are as they were. */
  lemma LoadAfterStore(n: Machine, allot: Allocator, put: Instruction, get: Instruction, a: Addr, v: Value, s: Stack,
                       b: Addr)
    requires put.opcode == FieldStore && get.opcode == FieldLoad && !n.managed(put) && a in s.current && b in s.current
    requires s.current[a].kind != Text && n.slot(put) < |s.current[a].slots| && n.slot(get) < |s.current[b].slots|
    ensures var r := Operate(n, allot, put, [Ref(a), v], s);
            && r.Next?
            && Operate(n, allot, get, [Ref(b)], r.stack) ==
               Next(if a == b && n.slot(get) == n.slot(put) then v else s.current[b].slots[n.slot(get)], r.stack)
  {
  }

  /** A managed store is refused outside the current heap, and when it would store something that cannot be read. */
  lemma ManagedStoresAreChecked(n: Machine, allot: Allocator, i: Instruction, a: Addr, v: Value, s: Stack)
    requires i.opcode == FieldStore && n.managed(i) && Find(s, a).Some? && Find(s, a).value.kind != Text
    requires n.slot(i) < |Find(s, a).value.slots|
    ensures Operate(n, allot, i, [Ref(a), v], s).Abort? <==> a !in s.current || !Storable(s, v)
    ensures Operate(n, allot, i, [Ref(a), v], s).Next? <==> a in s.current && Storable(s, v)
  {
  }

  /** A new array has the elements given, in order; every other index fails. */
  lemma ArrayHoldsItsElements(n: Machine, allot: Allocator, make: Instruction, ask: Instruction, get: Instruction,
                              vs: seq<Value>, s: Stack, k: int)
    requires make.opcode == ArrayNew && ask.opcode == ArrayLength && get.opcode == ArrayLoadChecked
    ensures var r := Operate(n, allot, make, vs, s);
            && r.Next? && Operate(n, allot, ask, [r.value], r.stack) == Next(Scalar(|vs|), r.stack)
            && Operate(n, allot, get, [r.value, Scalar(k)], r.stack) ==
               if 0 <= k < |vs| then Next(vs[k], r.stack) else Fault(get)
  {
  }

  // ----- arithmetic -----

  /** Integer arithmetic gives the exact result if that fits the type of the result, and panics otherwise. */
  lemma ArithmeticIsExact(n: Machine, allot: Allocator, i: Instruction, x: int, y: int, s: Stack)
    requires |i.results| == 1 && (i.opcode == IntAddChecked || i.opcode == IntSubChecked || i.opcode == IntMulChecked)
    ensures var t := i.results[0].valueType;
            var z := if i.opcode == IntAddChecked then x + y else if i.opcode == IntSubChecked then x - y else x * y;
            Operate(n, allot, i, [Scalar(x), Scalar(y)], s) == if InRange(t, z) then Next(Scalar(z), s) else Fault(i)
  {
    assert Numbers([Scalar(x), Scalar(y)]) == [x, y];
  }

  // ----- control -----

  lemma {:induction false} BindKeeps(ls: Locals, ds: seq<ValueDefinition>, vs: seq<Value>, x: ValueId)
    requires forall d :: d in ds ==> d.id != x
    ensures x in Bind(ls, ds, vs) <==> x in ls
    ensures x in ls ==> Bind(ls, ds, vs)[x] == ls[x]
    decreases |ds|
  {
    if |ds| > 0 && |vs| > 0 {
      assert ds[0] in ds && forall d :: d in ds[1..] ==> d in ds;
      BindKeeps(ls[ds[0].id := vs[0]], ds[1..], vs[1..], x);
    }
  }

  /** Parameters receive the arguments in their places. */
  lemma {:induction false} BindGives(ls: Locals, ds: seq<ValueDefinition>, vs: seq<Value>, k: nat)
    requires k < |ds| == |vs| && forall i, j :: 0 <= i < j < |ds| ==> ds[i].id != ds[j].id
    ensures ds[k].id in Bind(ls, ds, vs) && Bind(ls, ds, vs)[ds[k].id] == vs[k]
    decreases |ds|
  {
    var more := ls[ds[0].id := vs[0]];
    if k > 0 {
      BindGives(more, ds[1..], vs[1..], k - 1);
    } else {
      forall d | d in ds[1..] ensures d.id != ds[0].id {
        var j :| 0 <= j < |ds[1..]| && ds[1..][j] == d;
        assert ds[j + 1] == d;
      }
      BindKeeps(more, ds[1..], vs[1..], ds[0].id);
    }
  }

  /** A conditional branch takes its first edge for true and its second for false. */
  lemma BranchIsTaken(p: Program, m: Memory, wrapped: set<Symbol>, f: Function, b: BlockId, ls: Locals, s: Stack,
                      roots: set<Addr>, fuel: nat, c: ValueId, e0: Edge, e1: Edge, truth: bool)
    requires b in BlockMap(f.blocks) && BlockMap(f.blocks)[b].ending == ConditionalBranch(c, e0, e1)
    requires c in ls && ls[c] == Boolean(truth) && fuel > 0
    requires EdgeTo(f, ls, e0) && EdgeTo(f, ls, e1)
    ensures var e := if truth then e0 else e1;
            Execute(p, m, wrapped, f, b, |BlockMap(f.blocks)[b].instructions|, ls, s, roots, fuel) ==
            Execute(p, m, wrapped, f, e.target, 0,
                    Bind(ls, BlockMap(f.blocks)[e.target].parameters, ValuesOf(ls, e.arguments)), s, roots, fuel - 1)
  {
  }

  ghost predicate EdgeTo(f: Function, ls: Locals, e: Edge) {
    e.target in BlockMap(f.blocks) && Bound(ls, e.arguments)
  }

  /** A function that returns its argument returns it, in a region or not, and leaves its caller's heaps alone. */
  lemma IdentityReturns(p: Program, m: Memory, wrapped: set<Symbol>, f: Function, v: Value, s: Stack, roots: set<Addr>,
                        fuel: nat, x: ValueDefinition)
    requires f.blocks == [Block(f.entry, [x], [], Return(Some(x.id)))] && f.parameterTypes == [x.valueType]
    requires f.resultType == x.valueType && HasType(v, x.valueType) && fuel > 1
    ensures Invoke(p, m, wrapped, f, [v], s, roots, fuel) == Returned(v, s)
  {
    assert f.blocks[1..] == [] && BlockMap(f.blocks[1..]) == map[];
    var none: Locals := map[];
    assert [x][1..] == [] && [v][1..] == [];
    assert Bind(none, [x], [v]) == Bind(none[x.id := v], [x][1..], [v][1..]) == none[x.id := v];
    var u := if f.id in wrapped then Enter(s) else s;
    assert Execute(p, m, wrapped, f, f.entry, 0, none[x.id := v], u, roots, fuel - 1) == Returned(v, u);
    assert Body(p, m, wrapped, f, [v], u, roots, fuel) == Returned(v, u);
    assert Leave(Enter(s)) == s by { assert Enter(s).suspended[..|s.suspended|] == s.suspended; }
  }
}
