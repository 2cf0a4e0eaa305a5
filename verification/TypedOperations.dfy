/** Instructions that meet their type rules make sense: they do not get stuck, and yield values of their types. */
module TypedOperations {
  import opened Ir
  import opened Effects
  import opened Typing
  import opened Scalars
  import opened RegionExecution
  import NativeLayout

  /** What values of a type look like. */
  ghost predicate HasShape(s: Stack, v: Value, t: Type) {
    match t
    case Bool | Byte | Int | Int32 | UInt32 | UInt64 => v.Scalar? && InRange(t, v.n)
    case Float | Float32 => v.Scalar?
    case String => TextOf(s, v).Some?
    case Array(_) => v.Ref? && Find(s, v.address).Some? && Find(s, v.address).value.kind == Elements
    case Class(_) => v.Ref? && Find(s, v.address).Some? && Find(s, v.address).value.kind.Instance?
    case Optional(e) => v == Nothing || (v.Just? && HasShape(s, v.inner, e))
    case _ => false
  }

  ghost predicate HaveShapes(s: Stack, vs: seq<Value>, ts: seq<Type>) {
    |vs| == |ts| && forall k :: 0 <= k < |vs| ==> HasShape(s, vs[k], ts[k])
  }

  /** Instructions whose meaning the interpreter gives, other than accesses to fields. */
  predicate IsPlain(op: Opcode) {
    || Allocates(op) || Wraps(op) || Calculates(op) || IsChecked(op) || Converts(op)
    || op == StringEqual || op == StringNotEqual || op == ArrayLength || op == ArrayLoadChecked
       || op == ArrayStoreChecked
    || op == ClassCheckedCast
  }

  /** The machine's own parts fit the types: constants, conversions, and which comparisons are about texts. */
  ghost predicate Suits(n: Machine, i: Instruction, ts: seq<Type>, rs: seq<Type>, s: Stack) {
    && (i.opcode == Constant && |rs| == 1 ==> NoReference(n.constant(i)) && HasShape(s, n.constant(i), rs[0]))
    && (i.opcode == Compare && |ts| > 0 ==> (n.textual(i) <==> ts[0] == Optional(String)))
    && (|rs| == 1 && Calculates(i.opcode) ==>
         forall ns {:trigger n.scalar(i, ns)} :: HasShape(s, Scalar(n.scalar(i, ns)), rs[0]))
    && (|rs| == 1 && Converts(i.opcode) ==>
          forall ns {:trigger n.convert(i, ns)} :: n.convert(i, ns).Some? ==>
              HasShape(s, Scalar(n.convert(i, ns).value), rs[0]))
  }

  /** Optionals are not nested, as the verifier demands of every type a value has. */
  predicate IsFlat(t: Type) { t.Optional? ==> !t.element.Optional? }

  lemma ScalarShape(s: Stack, v: Value, t: Type)
    requires IsScalar(t) && HasShape(s, v, t)
    ensures v.Scalar?
  {
  }

  lemma ScalarShapes(s: Stack, vs: seq<Value>, ts: seq<Type>)
    requires HaveShapes(s, vs, ts) && forall t :: t in ts ==> IsScalar(t)
    ensures AllScalars(vs)
  {
    forall k | 0 <= k < |vs| ensures vs[k].Scalar? {
      assert ts[k] in ts;
      ScalarShape(s, vs[k], ts[k]);
    }
  }

  /** Optionals of the same flat type can be compared. */
  lemma OptionalsCompare(n: Machine, i: Instruction, s: Stack, v: Value, w: Value, t: Type)
    requires t.Optional? && IsFlat(t) && HasShape(s, v, t) && HasShape(s, w, t)
             && (n.textual(i) <==> t == Optional(String))
    ensures Equal(n, i, s, v, w).Some?
  {
    if v.Just? && w.Just? {
      var e := t.element;
      assert HasShape(s, v.inner, e) && HasShape(s, w.inner, e);
      if IsScalar(e) {
        ScalarShape(s, v.inner, e);
        ScalarShape(s, w.inner, e);
      }
    }
  }

  lemma ComparisonMakesSense(m: Module, n: Machine, allot: Allocator, i: Instruction, ts: seq<Type>, rs: seq<Type>,
                             vs: seq<Value>, s: Stack)
    requires i.opcode == Compare && Check(m, i, ts, rs).Pass? && HaveShapes(s, vs, ts) && Suits(n, i, ts, rs, s)
    requires IsFlat(ts[0])
    ensures !Operate(n, allot, i, vs, s).Stuck?
  {
    if IsScalar(ts[0]) {
      ScalarShapes(s, vs, ts);
    } else if ts[0].Optional? {
      OptionalsCompare(n, i, s, vs[0], vs[1], ts[0]);
    }
  }

  lemma ScalarsMakeSense(m: Module, n: Machine, allot: Allocator, i: Instruction, ts: seq<Type>, rs: seq<Type>,
                         vs: seq<Value>, s: Stack)
    requires (Calculates(i.opcode) && i.opcode != Compare) || IsChecked(i.opcode) || Converts(i.opcode)
    requires Check(m, i, ts, rs).Pass? && HaveShapes(s, vs, ts) && rs == ResultTypes(i)
    ensures !Operate(n, allot, i, vs, s).Stuck?
  {
    ScalarShapes(s, vs, ts);
  }

  lemma StringsMakeSense(m: Module, n: Machine, allot: Allocator, i: Instruction, ts: seq<Type>, rs: seq<Type>,
                         vs: seq<Value>, s: Stack)
    requires i.opcode in {StringConcat, StringEqual, StringNotEqual, StringFromInt, StringFromByte, StringFromFloat}
    requires Check(m, i, ts, rs).Pass? && HaveShapes(s, vs, ts)
    ensures !Operate(n, allot, i, vs, s).Stuck?
  {
    assert |vs| == 2 ==> HasShape(s, vs[0], ts[0]) && HasShape(s, vs[1], ts[1]);
    assert |vs| == 1 ==> HasShape(s, vs[0], ts[0]);
  }

  lemma ObjectsMakeSense(m: Module, n: Machine, allot: Allocator, i: Instruction, ts: seq<Type>, rs: seq<Type>,
                         vs: seq<Value>, s: Stack)
    requires i.opcode in {ArrayNew, ObjectAlloc, ArrayLength, ArrayLoadChecked, ArrayStoreChecked, ClassCheckedCast}
    requires Check(m, i, ts, rs).Pass? && HaveShapes(s, vs, ts)
    ensures !Operate(n, allot, i, vs, s).Stuck?
  {
    assert |vs| > 0 ==> HasShape(s, vs[0], ts[0]);
    assert |vs| > 1 ==> HasShape(s, vs[1], ts[1]);
  }

  lemma WrapsMakeSense(m: Module, n: Machine, allot: Allocator, i: Instruction, ts: seq<Type>, rs: seq<Type>,
                       vs: seq<Value>, s: Stack)
    requires Wraps(i.opcode) && Check(m, i, ts, rs).Pass? && HaveShapes(s, vs, ts)
    ensures !Operate(n, allot, i, vs, s).Stuck?
  {
    assert |vs| > 0 ==> HasShape(s, vs[0], ts[0]);
  }

  /** An instruction that meets its rule, on operands of its types, never gets stuck. */
  lemma TypedMakesSense(m: Module, n: Machine, allot: Allocator, i: Instruction, ts: seq<Type>, rs: seq<Type>,
                        vs: seq<Value>, s: Stack)
    requires IsPlain(i.opcode) && Check(m, i, ts, rs).Pass? && HaveShapes(s, vs, ts) && Suits(n, i, ts, rs, s)
    requires rs == ResultTypes(i) && forall t :: t in ts ==> IsFlat(t)
    ensures !Operate(n, allot, i, vs, s).Stuck?
  {
    if i.opcode == Compare {
      assert ts[0] in ts by { CompareHasOperands(m, i, ts, rs); }
      ComparisonMakesSense(m, n, allot, i, ts, rs, vs, s);
    } else if Calculates(i.opcode) || IsChecked(i.opcode) || Converts(i.opcode) {
      ScalarsMakeSense(m, n, allot, i, ts, rs, vs, s);
    } else if Wraps(i.opcode) {
      WrapsMakeSense(m, n, allot, i, ts, rs, vs, s);
    } else if i.opcode in {ArrayNew, ObjectAlloc, ArrayLength, ArrayLoadChecked, ArrayStoreChecked, ClassCheckedCast} {
      ObjectsMakeSense(m, n, allot, i, ts, rs, vs, s);
    } else {
      StringsMakeSense(m, n, allot, i, ts, rs, vs, s);
    }
  }

  lemma CompareHasOperands(m: Module, i: Instruction, ts: seq<Type>, rs: seq<Type>)
    requires i.opcode == Compare && Check(m, i, ts, rs).Pass?
    ensures |ts| == 2
  {
  }

  // ----- results -----

  lemma NewTextShape(s: Stack, a: Addr, ns: seq<int>)
    ensures TextOf(s.(current := s.current[a := TextObject(ns)]), Ref(a)).Some?
  {
  }

  lemma MadeIsTyped(m: Module, i: Instruction, ts: seq<Type>, rs: seq<Type>)
    requires Allocates(i.opcode) && Check(m, i, ts, rs).Pass?
    ensures |rs| == 1
    ensures i.opcode == ArrayNew ==> rs[0].Array?
    ensures i.opcode == ObjectAlloc ==> rs[0].Class?
    ensures i.opcode != ArrayNew && i.opcode != ObjectAlloc ==> rs[0] == String
  {
  }

  lemma BuiltIs(n: Machine, i: Instruction, vs: seq<Value>, s: Stack)
    requires Allocates(i.opcode) && Built(n, i, vs, s).Some?
    ensures i.opcode == ArrayNew ==> Built(n, i, vs, s).value.kind == Elements
    ensures i.opcode == ObjectAlloc ==> Built(n, i, vs, s).value.kind.Instance?
    ensures i.opcode != ArrayNew && i.opcode != ObjectAlloc ==> exists ns :: Built(n, i, vs, s).value == TextObject(ns)
  {
  }

  /** What a new object is. */
  lemma MadeHasShape(m: Module, n: Machine, allot: Allocator, i: Instruction, ts: seq<Type>, rs: seq<Type>,
                     vs: seq<Value>,
                     s: Stack)
    requires Allocates(i.opcode) && Check(m, i, ts, rs).Pass? && Operate(n, allot, i, vs, s).Next?
    ensures |rs| == 1 && HasShape(Operate(n, allot, i, vs, s).stack, Operate(n, allot, i, vs, s).value, rs[0])
  {
    MadeIsTyped(m, i, ts, rs);
    BuiltIs(n, i, vs, s);
    if i.opcode != ArrayNew && i.opcode != ObjectAlloc {
      var ns :| Built(n, i, vs, s).value == TextObject(ns);
      NewTextShape(s, allot(s), ns);
    }
  }

  lemma ArithmeticHasShape(m: Module, n: Machine, allot: Allocator, i: Instruction, ts: seq<Type>, rs: seq<Type>,
                           vs: seq<Value>, s: Stack)
    requires IsChecked(i.opcode) && Check(m, i, ts, rs).Pass? && rs == ResultTypes(i) && HaveShapes(s, vs, ts)
    requires Operate(n, allot, i, vs, s).Next?
    ensures |rs| == 1 && HasShape(s, Operate(n, allot, i, vs, s).value, rs[0])
  {
    var ns := Numbers(vs);
    forall k | 0 <= k < |ns| ensures InRange(rs[0], ns[k]) {
      assert HasShape(s, vs[k], ts[k]) && ts[k] == rs[0];
    }
    CheckedFits(i.opcode, rs[0], ns);
  }

  lemma WrappedHasShape(m: Module, n: Machine, allot: Allocator, i: Instruction, ts: seq<Type>, rs: seq<Type>,
                        vs: seq<Value>, s: Stack)
    requires Wraps(i.opcode) && Check(m, i, ts, rs).Pass? && HaveShapes(s, vs, ts) && Suits(n, i, ts, rs, s)
    requires Operate(n, allot, i, vs, s).Next?
    ensures |rs| == 1 && HasShape(s, Operate(n, allot, i, vs, s).value, rs[0])
  {
    assert |vs| > 0 ==> HasShape(s, vs[0], ts[0]);
  }

  /** Checked arithmetic, optionals, upcasts and constants yield values of their result types. */
  lemma TypedYieldsItsType(m: Module, n: Machine, allot: Allocator, i: Instruction, ts: seq<Type>, rs: seq<Type>,
                           vs: seq<Value>, s: Stack)
    requires Allocates(i.opcode) || IsChecked(i.opcode) || Wraps(i.opcode)
    requires Check(m, i, ts, rs).Pass? && rs == ResultTypes(i) && HaveShapes(s, vs, ts) && Suits(n, i, ts, rs, s)
    requires Operate(n, allot, i, vs, s).Next?
    ensures |rs| == 1 && HasShape(Operate(n, allot, i, vs, s).stack, Operate(n, allot, i, vs, s).value, rs[0])
  {
    if Allocates(i.opcode) {
      MadeHasShape(m, n, allot, i, ts, rs, vs, s);
    } else if IsChecked(i.opcode) {
      ArithmeticHasShape(m, n, allot, i, ts, rs, vs, s);
    } else {
      WrappedHasShape(m, n, allot, i, ts, rs, vs, s);
    }
  }

  /** Accesses to fields that the object has make sense too. */
  lemma FieldsMakeSense(m: Module, n: Machine, allot: Allocator, i: Instruction, ts: seq<Type>, rs: seq<Type>,
                        vs: seq<Value>, s: Stack)
    requires (i.opcode == FieldLoad || i.opcode == FieldStore) && Check(m, i, ts, rs).Pass? && HaveShapes(s, vs, ts)
    requires forall a :: Find(s, a).Some? && Find(s, a).value.kind.Instance? ==> n.slot(i) < |Find(s, a).value.slots|
    ensures !Operate(n, allot, i, vs, s).Stuck? && !Operate(n, allot, i, vs, s).Fault?
  {
    assert |vs| > 0 ==> HasShape(s, vs[0], ts[0]);
  }

  // ----- the kinds of types -----

  /** Integers are the types with more values than two; scalars are those and booleans and floating-point numbers. */
  lemma IntegersHaveValues(t: Type)
    ensures IsInteger(t) <==> Greatest(t) > 1
    ensures IsScalar(t) <==> NativeLayout.ScalarBytes(t) > 0
    ensures IsFloating(t) <==> IsScalar(t) && Greatest(t) == 0
  {
  }
}
