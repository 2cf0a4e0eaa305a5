/** The verifier's type rules for single instructions. */
module Typing {
  import opened Ir
  import opened Cfg
  import opened SsaVerifier
  import opened Effects

  // ----- types -----

  predicate IsInteger(t: Type) { t in {Byte, Int, Int32, UInt32, UInt64} }

  predicate IsFloating(t: Type) { t in {Float, Float32} }

  predicate IsNumeric(t: Type) { IsInteger(t) || IsFloating(t) }

  predicate IsScalar(t: Type) { t == Bool || IsNumeric(t) }

  predicate IsNullablePointer(t: Type)
    decreases t, 0
  {
    t.Optional? && (t.element.Pointer? || IsCFunction(t.element))
  }

  /** Types that may cross into C code. */
  predicate IsCType(t: Type)
    decreases t, 1
  {
    IsScalar(t) || t.Pointer? || IsCFunction(t) || IsNullablePointer(t)
  }

  predicate IsCFunction(t: Type)
    decreases t, 0
  {
    t.CFunction? && |t.signature| > 0 && (t.signature[0] == Void || IsCType(t.signature[0]))
    && forall k :: 1 <= k < |t.signature| ==> IsCType(t.signature[k])
  }

  /** Types that may be stored behind a native pointer. */
  predicate IsPointerElement(t: Type) {
    || t == Void || IsScalar(t) || IsCFunction(t) || t.NativeRecord? || IsNullablePointer(t)
    || (t.FixedArray? && t.count > 0 && IsPointerElement(t.element))
    || (t.Pointer? && IsPointerElement(t.element))
  }

  // ----- inheritance -----

  /** `c` is `d` or has it as a base within `n` steps. */
  predicate Climbs(bases: map<Symbol, Option<Symbol>>, c: Symbol, d: Symbol, n: nat)
    decreases n
  {
    c == d || (n > 0 && c in bases && bases[c].Some? && Climbs(bases, bases[c].value, d, n - 1))
  }

  predicate SameOrBase(m: Module, c: Symbol, d: Symbol) { Climbs(m.bases, c, d, |m.bases|) }

  ghost predicate Inherits(m: Module, c: Symbol, d: Symbol) { exists n: nat :: Climbs(m.bases, c, d, n) }

  /** The walk over the bases, giving up after one step more than there are classes. */
  method IsSameOrBase(m: Module, c: Symbol, d: Symbol) returns (ok: bool)
    ensures ok <==> SameOrBase(m, c, d)
  {
    var current, remaining := c, |m.bases| + 1;
    while remaining > 0
      invariant SameOrBase(m, c, d) <==> remaining > 0 && Climbs(m.bases, current, d, remaining - 1)
    {
      if current == d { return true; }
      if current !in m.bases || m.bases[current].None? { return false; }
      current, remaining := m.bases[current].value, remaining - 1;
    }
    return false;
  }

  lemma {:induction false} ClimbsOn(bases: map<Symbol, Option<Symbol>>, c: Symbol, d: Symbol, e: Symbol, n: nat, k: nat)
    requires Climbs(bases, c, d, n) && Climbs(bases, d, e, k)
    ensures Climbs(bases, c, e, n + k)
    decreases n
  {
    if c == d {
      ClimbsLater(bases, c, e, k, n + k);
    } else {
      ClimbsOn(bases, bases[c].value, d, e, n - 1, k);
    }
  }

  lemma {:induction false} ClimbsLater(bases: map<Symbol, Option<Symbol>>, c: Symbol, d: Symbol, n: nat, k: nat)
    requires Climbs(bases, c, d, n) && n <= k
    ensures Climbs(bases, c, d, k)
    decreases n
  {
    if c != d {
      ClimbsLater(bases, bases[c].value, d, n - 1, k - 1);
    }
  }

  lemma InheritsOn(m: Module, c: Symbol, d: Symbol, e: Symbol)
    requires Inherits(m, c, d) && Inherits(m, d, e)
    ensures Inherits(m, c, e)
  {
    var n: nat :| Climbs(m.bases, c, d, n);
    var k: nat :| Climbs(m.bases, d, e, k);
    ClimbsOn(m.bases, c, d, e, n, k);
  }

  lemma InheritsItself(m: Module, c: Symbol)
    ensures Inherits(m, c, c)
  {
    assert Climbs(m.bases, c, c, 0);
  }

  // ----- rules -----

  /** The results of something that returns a type. */
  function ResultsOf(t: Type): seq<Type> { if t == Void then [] else [t] }

  predicate SameAfterReceiver(f: Function, g: Function) {
    && |f.parameterTypes| == |g.parameterTypes| > 0 && f.parameterTypes[0].Class?
    && f.parameterTypes[1..] == g.parameterTypes[1..] && f.resultType == g.resultType && f.unsafeCall == g.unsafeCall
  }

  /** The implementations of a slot agree on everything but the receiver. */
  predicate Uniform(cs: seq<Function>) {
    |cs| > 0 && forall f {:trigger SameAfterReceiver(f, cs[0])} :: f in cs ==> SameAfterReceiver(f, cs[0])
  }

  /** The implementation of a slot that is declared highest up, as the listing goes. */
  function Signature(m: Module, cs: seq<Function>): (r: Function)
    requires Uniform(cs)
    ensures r in cs
  {
    if |cs| == 1 then cs[0]
    else
      var last, rest := cs[|cs| - 1], cs[..|cs| - 1];
      assert rest[0] == cs[0] && last in cs && forall f :: f in rest ==> f in cs;
      assert Uniform(rest);
      var before := Signature(m, rest);
      assert before in cs && SameAfterReceiver(before, cs[0]) && SameAfterReceiver(last, cs[0]);
      if SameOrBase(m, before.parameterTypes[0].symbol, last.parameterTypes[0].symbol) then last else before
  }

  function Capability(unsafeCall: bool): seq<Type> { if unsafeCall then [UnsafeCapability] else [] }

  predicate VirtualRule(m: Module, slot: Symbol, ts: seq<Type>, rs: seq<Type>) {
    var cs := Candidates(m.functions, slot);
    && Uniform(cs)
    && var f := Signature(m, cs);
    ts == Capability(f.unsafeCall) + f.parameterTypes && rs == ResultsOf(f.resultType)
  }

  predicate CallRule(m: Module, i: Instruction, unsafeCall: bool, ts: seq<Type>, rs: seq<Type>) {
    var f := FindFunction(m.functions, i.symbol);
    && f.Some? && f.value.unsafeCall == unsafeCall
    && ts == Capability(unsafeCall) + f.value.parameterTypes && rs == ResultsOf(f.value.resultType)
  }

  predicate ImportRule(m: Module, i: Instruction, kind: ImportKind, ts: seq<Type>, rs: seq<Type>) {
    var t := FindImport(m.imports, i.symbol);
    && t.Some? && t.value.kind == kind
    && ts == Capability(kind == CAbiImport) + t.value.parameterTypes && rs == ResultsOf(t.value.resultType)
  }

  predicate FieldRule(m: Module, i: Instruction, ts: seq<Type>) {
    |ts| > 0 && ts[0].Class? && i.symbol in m.fields && SameOrBase(m, ts[0].symbol, m.fields[i.symbol].owner)
  }

  predicate AddressRule(m: Module, i: Instruction, ts: seq<Type>, rs: seq<Type>) {
    var t, f := FindImport(m.imports, i.symbol), FindFunction(m.functions, i.symbol);
    && ts == []
    && if t.Some? then t.value.kind == CAbiImport && rs == [CFunction([t.value.resultType] + t.value.parameterTypes)]
       else f.Some? && rs == [CFunction([f.value.resultType] + f.value.parameterTypes)]
  }

  predicate WorkerRule(m: Module, i: Instruction, ts: seq<Type>, rs: seq<Type>) {
    var f := FindFunction(m.functions, i.symbol);
    && ts == [] && rs == [CFunction([Void, Pointer(Byte), UInt64])]
    && f.Some? && !f.value.unsafeCall && f.value.parameterTypes == [Array(Byte)] && f.value.resultType == Void
  }

  /** Instructions on native memory; `t` is the type behind the pointer. */
  predicate PointerRule(op: Opcode, t: Type, ts: seq<Type>, rs: seq<Type>) {
    && |ts| > 1 && ts[0] == UnsafeCapability && IsPointerElement(t)
    && var rest := ts[1..];
    match op
    case StackAlloc | NativeAlloc => t != Void && rest == [Int] && rs == [Pointer(t)]
    case PointerLoad => t != Void && rest == [Pointer(t)] && rs == [t]
    case PointerStore => t != Void && rest == [Pointer(t), t] && rs == []
    case PointerOffset | NativeRealloc => t != Void && rest == [Pointer(t), Int] && rs == [Pointer(t)]
    case PointerDifference => t != Void && rest == [Pointer(t), Pointer(t)] && rs == [Int]
    case PointerCompare => rest == [Pointer(t), Pointer(t)] && rs == [Bool]
    case NativeFree => rest == [Pointer(t)] && rs == []
    case BorrowBegin => t != Void && rest == [Array(t)] && rs == [Pointer(t), BorrowCapability(t)]
    case _ => false
  }

  /** The rule an instruction must meet, given the types of its operands and results. */
  predicate RuleOk(m: Module, i: Instruction, ts: seq<Type>, rs: seq<Type>) {
    var types := i.typeArguments;
    match i.opcode
    case Constant => ts == [] && |rs| == 1 && types == []
    case IntNegChecked => |rs| == 1 && IsInteger(rs[0]) && rs[0] != Byte && ts == [rs[0]]
    case IntAddChecked | IntSubChecked | IntMulChecked | IntDivChecked =>
      |rs| == 1 && IsInteger(rs[0]) && rs[0] != Byte && ts == [rs[0], rs[0]]
    case FloatNeg => |rs| == 1 && IsFloating(rs[0]) && ts == [rs[0]]
    case FloatAdd | FloatSub | FloatMul | FloatDiv => |rs| == 1 && IsFloating(rs[0]) && ts == [rs[0], rs[0]]
    case BoolNot => ts == [Bool] && rs == [Bool]
    case BoolAnd | BoolOr => ts == [Bool, Bool] && rs == [Bool]
    case Compare =>
      |ts| == 2 && ts[0] == ts[1] && rs == [Bool] && (IsScalar(ts[0]) || ts[0].Optional? || IsManagedReference(ts[0]))
    case CastIntToFloat => ts == [Int] && rs == [Float]
    case CastFloatToIntChecked => ts == [Float] && rs == [Int]
    case CastIntToByteChecked => ts == [Int] && rs == [Byte]
    case CastByteToInt => ts == [Byte] && rs == [Int]
    case NumericCastChecked => |ts| == 1 && |rs| == 1 && IsNumeric(ts[0]) && IsNumeric(rs[0])
    case ClassUpcast =>
      && |ts| == 1 && |rs| == 1 && ts[0].Class? && rs[0].Class? && ts[0] != rs[0]
      && SameOrBase(m, ts[0].symbol, rs[0].symbol)
    case ClassCheckedCast => |ts| == 1 && ts[0].Class? && |types| == 1 && types[0].Class? && rs == [Optional(types[0])]
    case OptionalNone => ts == [] && |types| == 1 && rs == [Optional(types[0])]
    case OptionalSome => |ts| == 1 && rs == [Optional(ts[0])]
    case OptionalIsSome => |ts| == 1 && ts[0].Optional? && rs == [Bool]
    case OptionalGetChecked => |rs| == 1 && ts == [Optional(rs[0])]
    case StringConcat => ts == [String, String] && rs == [String]
    case StringEqual | StringNotEqual => ts == [String, String] && rs == [Bool]
    case StringFromInt => ts == [Int] && rs == [String]
    case StringFromByte => ts == [Byte] && rs == [String]
    case StringFromFloat => ts == [Float] && rs == [String]
    case Call | CallDirect => CallRule(m, i, false, ts, rs)
    case CallUnsafe => CallRule(m, i, true, ts, rs)
    case CallVirtual => VirtualRule(m, i.symbol, ts, rs)
    case CallImport => ImportRule(m, i, RuntimeImport, ts, rs)
    case CallCAbi => ImportRule(m, i, CAbiImport, ts, rs)
    case CallCIndirect =>
      && |ts| > 1 && ts[0] == UnsafeCapability && IsCFunction(ts[1])
      && ts[2..] == ts[1].signature[1..] && rs == ResultsOf(ts[1].signature[0])
    case CFunctionAddress => AddressRule(m, i, ts, rs)
    case WorkerEntry => WorkerRule(m, i, ts, rs)
    case ArrayNew => |types| == 1 && rs == [Array(types[0])] && forall t :: t in ts ==> t == types[0]
    case ArrayLength => |ts| == 1 && ts[0].Array? && rs == [Int]
    case ArrayLoadChecked => |ts| == 2 && ts[0].Array? && ts[1] == Int && rs == [ts[0].element]
    case ArrayStoreChecked => |ts| == 3 && ts[0].Array? && ts[1] == Int && ts[2] == ts[0].element && rs == []
    case ArrayGenerate =>
      && |ts| == 2 && ts[0] == Int && |types| == 1 && rs == [Array(types[0])]
      && VirtualRule(m, i.symbol, [ts[1], ts[0]], [types[0]])
    case TaskGenerate =>
      && |ts| == 4 && ts[0] == UnsafeCapability && ts[1] == Int && ts[2] == Int && |types| == 1
      && rs == [Array(types[0])] && VirtualRule(m, i.symbol, [ts[3], ts[1]], [types[0]])
    case ObjectAlloc => ts == [] && i.symbol in m.bases && rs == [Class(i.symbol)]
    case FieldLoad => |ts| == 1 && FieldRule(m, i, ts) && rs == [m.fields[i.symbol].valueType]
    case FieldStore => |ts| == 2 && FieldRule(m, i, ts) && ts[1] == m.fields[i.symbol].valueType && rs == []
    case UnsafeBegin => ts == [] && rs == [UnsafeCapability]
    case UnsafeEnd => ts == [UnsafeCapability] && rs == []
    case NativeFieldAddress =>
      && |ts| == 2 && ts[0] == UnsafeCapability && ts[1].Pointer? && ts[1].element.NativeRecord?
      && |rs| == 1 && rs[0].Pointer?
    case NativeIndexAddressChecked =>
      && |ts| == 3 && ts[0] == UnsafeCapability && ts[1].Pointer? && ts[1].element.FixedArray? && ts[2] == Int
      && rs == [Pointer(ts[1].element.element)]
    case PointerCast =>
      && |types| == 2 && IsPointerElement(types[0]) && IsPointerElement(types[1])
      && ts == [UnsafeCapability, Pointer(types[0])] && rs == [Pointer(types[1])]
    case BorrowEnd => |ts| == 2 && ts[0] == UnsafeCapability && ts[1].BorrowCapability? && rs == []
    case StackAlloc | PointerLoad | PointerStore | PointerOffset | PointerDifference | PointerCompare
       | NativeAlloc | NativeRealloc | NativeFree | BorrowBegin =>
      |types| == 1 && PointerRule(i.opcode, types[0], ts, rs)
  }

  datatype Verdict = Pass | Fail

  /** The verdict of the rule. */
  function Check(m: Module, i: Instruction, ts: seq<Type>, rs: seq<Type>): Verdict {
    if RuleOk(m, i, ts, rs) then Pass else Fail
  }

  // ----- functions -----

  /** The declared type of a value. */
  function Declared(f: Function, v: ValueId): Option<Type> { TypeOf(AllDefinitions(f), v) }

  function OperandTypes(f: Function, i: Instruction): seq<Option<Type>> {
    seq(|i.operands|, k requires 0 <= k < |i.operands| => Declared(f, i.operands[k]))
  }

  function Given(ts: seq<Option<Type>>): seq<Type> {
    seq(|ts|, k requires 0 <= k < |ts| => if ts[k].Some? then ts[k].value else Void)
  }

  function ResultTypes(i: Instruction): seq<Type> {
    seq(|i.results|, k requires 0 <= k < |i.results| => i.results[k].valueType)
  }

  predicate InstructionTyped(m: Module, f: Function, i: Instruction) {
    && (forall k :: 0 <= k < |i.operands| ==> Declared(f, i.operands[k]).Some?)
    && Check(m, i, Given(OperandTypes(f, i)), ResultTypes(i)).Pass?
  }

  ghost predicate FunctionTyped(m: Module, f: Function) {
    && f.unsafeCall == f.unsafeRoot.Some? && (f.unsafeRoot.Some? ==> f.unsafeRoot.value.valueType == UnsafeCapability)
    && CodeTyped(m, f)
  }

  ghost predicate Contains(f: Function, i: Instruction) { exists b :: b in f.blocks && i in b.instructions }

  ghost predicate CodeTyped(m: Module, f: Function) {
    forall i {:trigger InstructionTyped(m, f, i)} :: Contains(f, i) ==> InstructionTyped(m, f, i)
  }

  /** C code only takes and returns what it understands. */
  ghost predicate ImportTyped(t: Import) {
    t.kind == CAbiImport ==>
      (t.resultType == Void || IsCType(t.resultType)) && forall p :: p in t.parameterTypes ==> IsCType(p)
  }

  ghost predicate TypedModule(m: Module) {
    && (forall f {:trigger FunctionTyped(m, f)} :: f in m.functions && !f.retained ==> FunctionTyped(m, f))
    && forall t {:trigger ImportTyped(t)} :: t in m.imports ==> ImportTyped(t)
  }

  /** Check every instruction of a body. */
  method VerifyInstructions(m: Module, f: Function) returns (ok: bool)
    ensures ok <==> CodeTyped(m, f)
  {
    for x := 0 to |f.blocks|
      invariant forall j, i :: 0 <= j < x && i in f.blocks[j].instructions ==> InstructionTyped(m, f, i)
    {
      var code := f.blocks[x].instructions;
      for y := 0 to |code|
        invariant forall j :: 0 <= j < y ==> InstructionTyped(m, f, code[j])
      {
        if !InstructionTyped(m, f, code[y]) {
          assert f.blocks[x] in f.blocks && Contains(f, code[y]);
          return false;
        }
      }
    }
    ok := true;
  }

  // ----- types behind pointers and across C hold no reference -----

  lemma {:induction false} CTypeIsUnmanaged(t: Type)
    requires IsCType(t) || t == Void
    ensures !IsManagedReference(t)
  {
    if t.Optional? {
      assert t.element.Pointer? || IsCFunction(t.element);
      assert t.element.Pointer? || t.element.CFunction?;
    }
  }

  lemma {:induction false} ElementIsUnmanaged(t: Type)
    requires IsPointerElement(t)
    ensures !IsManagedReference(t)
  {
    if t.Optional? { CTypeIsUnmanaged(t); }
  }
}
