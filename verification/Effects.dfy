/** Modules, and the effect summaries the verifier computes and checks. */
module Effects {
  import opened Ir
  import opened Cfg
  import opened SsaVerifier

  datatype ImportKind = RuntimeImport | CAbiImport

  datatype Import = Import(id: Symbol, kind: ImportKind, parameterTypes: seq<Type>, resultType: Type,
                           effects: set<Effect>)

  datatype FieldDeclaration = FieldDeclaration(owner: Symbol, valueType: Type)

  /** A module: its functions, what it imports, the base of each of its classes, and the fields of all of them. */
  datatype Module = Module(functions: seq<Function>, imports: seq<Import>, bases: map<Symbol, Option<Symbol>>,
                           fields: map<Symbol, FieldDeclaration>)

  const COLLECTING: set<Effect> := {ManagedAllocate, NativeAllocate, Safepoint, Unsafe}

  const C_CALL: set<Effect> := {Effect.Read, Write, MayPanic, ManagedAllocate, NativeAllocate, Safepoint, Unsafe}

  const ALLOCATION: set<Effect> := {ManagedAllocate, Safepoint, MayPanic}

  const GENERATION: set<Effect> := {Effect.Read, Write, MayPanic, ManagedAllocate, Safepoint}

  function FindFunction(fs: seq<Function>, id: Symbol): (r: Option<Function>)
    ensures r.Some? ==> r.value in fs && r.value.id == id
  {
    if |fs| == 0 then None else if fs[0].id == id then Some(fs[0]) else FindFunction(fs[1..], id)
  }

  function FindImport(ms: seq<Import>, id: Symbol): (r: Option<Import>)
    ensures r.Some? ==> r.value in ms && r.value.id == id
  {
    if |ms| == 0 then None else if ms[0].id == id then Some(ms[0]) else FindImport(ms[1..], id)
  }

  /** The implementations of a dispatch slot, in module order. */
  function Candidates(fs: seq<Function>, slot: Symbol): (r: seq<Function>)
    ensures forall f :: f in r <==> f in fs && f.dispatchSlot == Some(slot)
  {
    if |fs| == 0 then []
    else (if fs[0].dispatchSlot == Some(slot) then [fs[0]] else []) + Candidates(fs[1..], slot)
  }

  function UnionEffects(fs: seq<Function>): (r: set<Effect>)
    ensures forall f :: f in fs ==> f.effects <= r
  {
    if |fs| == 0 then {} else fs[0].effects + UnionEffects(fs[1..])
  }

  function CallEffects(m: Module, i: Instruction, unsafeCall: bool): Option<set<Effect>> {
    var f := FindFunction(m.functions, i.symbol);
    if f.None? || f.value.unsafeCall != unsafeCall then None
    else Some((f.value.effects - {NoReturn}) + if unsafeCall then {Unsafe} else {})
  }

  function VirtualEffects(m: Module, slot: Symbol): Option<set<Effect>> {
    var cs := Candidates(m.functions, slot);
    if |cs| == 0 || exists i :: 0 <= i < |cs| && cs[i].unsafeCall != cs[0].unsafeCall then None
    else Some((UnionEffects(cs) - {NoReturn}) + if cs[0].unsafeCall then {Unsafe} else {})
  }

  function ImportEffects(m: Module, i: Instruction, kind: ImportKind): Option<set<Effect>> {
    var t := FindImport(m.imports, i.symbol);
    if t.None? || t.value.kind != kind then None else Some(t.value.effects - {NoReturn})
  }

  /** The effects verification of one instruction demands of its function; none if it is rejected. */
  function RequiredEffects(m: Module, i: Instruction): Option<set<Effect>> {
    match i.opcode
    case Call => CallEffects(m, i, false)
    case CallDirect => CallEffects(m, i, false)
    case CallUnsafe => CallEffects(m, i, true)
    case CallVirtual => VirtualEffects(m, i.symbol)
    case ArrayGenerate =>
      var e := VirtualEffects(m, i.symbol);
      if e.None? then None else Some(e.value + GENERATION)
    case TaskGenerate =>
      var e := VirtualEffects(m, i.symbol);
      if e.None? then None else Some(e.value + GENERATION + {Unsafe})
    case CallImport => ImportEffects(m, i, RuntimeImport)
    case CallCAbi => ImportEffects(m, i, CAbiImport)
    case CallCIndirect => Some(C_CALL)
    case IntNegChecked | IntAddChecked | IntSubChecked | IntMulChecked | IntDivChecked
       | NumericCastChecked | CastFloatToIntChecked | CastIntToByteChecked | OptionalGetChecked => Some({MayPanic})
    case StringConcat | StringFromInt | StringFromByte | StringFromFloat | ArrayNew | ObjectAlloc => Some(ALLOCATION)
    case StringEqual | StringNotEqual | ArrayLength | FieldLoad => Some({Effect.Read})
    case ArrayLoadChecked => Some({Effect.Read, MayPanic})
    case ArrayStoreChecked => Some({Write, MayPanic})
    case FieldStore => Some({Write})
    case UnsafeBegin | UnsafeEnd | NativeFieldAddress | PointerOffset | PointerDifference
       | PointerCompare | PointerCast | BorrowEnd => Some({Unsafe})
    case NativeIndexAddressChecked | StackAlloc => Some({Unsafe, MayPanic})
    case PointerLoad => Some({Unsafe, Effect.Read})
    case PointerStore | NativeFree => Some({Unsafe, Write})
    case NativeAlloc | NativeRealloc => Some({Unsafe, NativeAllocate, MayPanic})
    case BorrowBegin => Some({Unsafe, Effect.Read, Safepoint})
    case _ => Some({})
  }

  /** Whether the lowerer publishes roots before an instruction. */
  function CanCollect(m: Module, i: Instruction): bool {
    match i.opcode
    case Call | CallDirect =>
      var f := FindFunction(m.functions, i.symbol);
      f.Some? && f.value.effects * COLLECTING != {}
    case CallImport =>
      var t := FindImport(m.imports, i.symbol);
      t.Some? && t.value.effects * COLLECTING != {}
    case CallUnsafe | CallVirtual | CallCAbi | CallCIndirect
       | ObjectAlloc | ArrayNew | ArrayGenerate | TaskGenerate | WorkerEntry
       | StringConcat | StringFromInt | StringFromByte | StringFromFloat
       | NativeAlloc | NativeRealloc | NativeFree | BorrowBegin | BorrowEnd => true
    case _ => false
  }

  ghost predicate BlockEffectsOk(m: Module, f: Function, b: Block) {
    && (forall i :: i in b.instructions ==> RequiredEffects(m, i).Some? && RequiredEffects(m, i).value <= f.effects)
    && (b.ending.Panic? ==> MayPanic in f.effects)
  }

  ghost predicate EffectsOk(m: Module, f: Function) {
    && (forall b :: b in f.blocks ==> BlockEffectsOk(m, f, b))
    && ((exists b :: b in f.blocks && b.ending.Return?) <==> NoReturn !in f.effects)
  }

  /** What the module verifier accepts: retained functions and imports are taken at their word. */
  ghost predicate AcceptedModule(m: Module) {
    DistinctFunctions(m.functions) && ImportsOk(m.imports) && FunctionsOk(m)
  }

  ghost predicate DistinctFunctions(fs: seq<Function>) {
    forall i, j :: 0 <= i < j < |fs| ==> fs[i].id != fs[j].id
  }

  ghost predicate ImportsOk(ts: seq<Import>) {
    forall t :: t in ts && t.kind.CAbiImport? ==> C_CALL <= t.effects
  }

  ghost predicate FunctionsOk(m: Module) {
    forall f {:trigger FunctionOk(m, f)} :: f in m.functions && !f.retained ==> FunctionOk(m, f)
  }

  ghost predicate FunctionOk(m: Module, f: Function) {
    Accepted(f) && EffectsOk(m, f)
  }

  lemma SingletonOk(m: Module, f: Function)
    requires m.functions == [f] && FunctionOk(m, f)
    ensures FunctionsOk(m)
  {
  }

  lemma SingletonAccepted(m: Module, f: Function)
    requires m.functions == [f] && m.imports == [] && FunctionsOk(m)
    ensures AcceptedModule(m)
  {
  }

  /** Accumulate what a body requires and compare it with the declared summary. */
  method VerifyEffects(m: Module, f: Function) returns (ok: bool)
    ensures ok <==> EffectsOk(m, f)
  {
    var required: set<Effect>, returns_ := {}, false;
    for i := 0 to |f.blocks|
      invariant returns_ <==> exists j :: 0 <= j < i && f.blocks[j].ending.Return?
      invariant required <= f.effects <==> forall j :: 0 <= j < i ==> BlockEffectsOk(m, f, f.blocks[j])
      invariant forall j :: 0 <= j < i ==> forall n :: n in f.blocks[j].instructions ==> RequiredEffects(m, n).Some?
    {
      var b := f.blocks[i];
      var effects, rejected := BlockEffects(m, f, b);
      if rejected {
        assert b in f.blocks && !BlockEffectsOk(m, f, b);
        return false;
      }
      required := required + effects;
      returns_ := returns_ || b.ending.Return?;
    }
    assert (forall b :: b in f.blocks ==> BlockEffectsOk(m, f, b)) <==> required <= f.effects;
    ok := required <= f.effects && (returns_ <==> NoReturn !in f.effects);
  }

  method BlockEffects(m: Module, f: Function, b: Block) returns (effects: set<Effect>, rejected: bool)
    ensures rejected <==> exists i :: i in b.instructions && RequiredEffects(m, i).None?
    ensures !rejected ==> (effects <= f.effects <==> BlockEffectsOk(m, f, b))
  {
    effects := {};
    for k := 0 to |b.instructions|
      invariant forall j :: 0 <= j < k ==> RequiredEffects(m, b.instructions[j]).Some?
      invariant effects <= f.effects <==>
                  forall j :: 0 <= j < k ==> RequiredEffects(m, b.instructions[j]).value <= f.effects
    {
      var e := RequiredEffects(m, b.instructions[k]);
      if e.None? { return effects, true; }
      effects := effects + e.value;
    }
    if b.ending.Panic? { effects := effects + {MayPanic}; }
    rejected := false;
  }

  // ----- soundness of the summaries -----

  ghost predicate MayCollect(f: Function) {
    f.effects * COLLECTING != {}
  }

  /** The functions an instruction may transfer control to. */
  ghost predicate MayCall(m: Module, i: Instruction, callee: Function) {
    match i.opcode
    case Call | CallDirect | CallUnsafe => FindFunction(m.functions, i.symbol) == Some(callee)
    case CallVirtual | ArrayGenerate | TaskGenerate => callee in m.functions && callee.dispatchSlot == Some(i.symbol)
    case _ => false
  }

  /** Foreign code can call back into any function whose address it was given. */
  predicate CallsForeignCode(i: Instruction) {
    i.opcode == CallCAbi || i.opcode == CallCIndirect
  }

  /** The functions that may run while an instruction executes. */
  ghost predicate MayEnter(m: Module, i: Instruction, callee: Function) {
    MayCall(m, i, callee) || (CallsForeignCode(i) && callee in m.functions)
  }

  /** Instructions that hand over to code outside the module, or pin for it. */
  ghost predicate GoesOutside(m: Module, i: Instruction) {
    || i.opcode in {CallImport, CallCAbi, CallCIndirect, TaskGenerate, WorkerEntry, BorrowBegin, BorrowEnd}
    || exists callee :: MayEnter(m, i, callee) && callee.retained
  }

  /** Whatever an instruction can call was charged to the function that holds it. */
  lemma CalleeEffectsCharged(m: Module, f: Function, b: Block, i: Instruction, callee: Function)
    requires BlockEffectsOk(m, f, b) && i in b.instructions && MayCall(m, i, callee)
    ensures callee.effects - {NoReturn} <= f.effects
  {
    var e := RequiredEffects(m, i).value;
    if i.opcode.CallVirtual? || i.opcode.ArrayGenerate? || i.opcode.TaskGenerate? {
      assert callee in Candidates(m.functions, i.symbol);
    }
  }

  lemma CollectingCalleeMeansCollectingCaller(m: Module, f: Function, b: Block, i: Instruction, callee: Function)
    requires BlockEffectsOk(m, f, b) && i in b.instructions && MayCall(m, i, callee) && MayCollect(callee)
    ensures MayCollect(f) && CanCollect(m, i)
  {
    CalleeEffectsCharged(m, f, b, i, callee);
    var e :| e in callee.effects * COLLECTING;
    assert e in f.effects * COLLECTING;
  }

  /** Instructions that collect without calling into the module: allocation, and what lies outside it. */
  ghost predicate CollectsItself(m: Module, i: Instruction) {
    match i.opcode
    case ObjectAlloc | ArrayNew | ArrayGenerate | TaskGenerate
       | StringConcat | StringFromInt | StringFromByte | StringFromFloat
       | NativeAlloc | NativeRealloc | BorrowBegin | CallCIndirect => true
    case CallImport | CallCAbi =>
      var t := FindImport(m.imports, i.symbol);
      t.Some? && t.value.effects * COLLECTING != {}
    case _ => false
  }

  lemma OwnCollectionCharged(m: Module, f: Function, b: Block, i: Instruction)
    requires BlockEffectsOk(m, f, b) && i in b.instructions && CollectsItself(m, i)
    ensures MayCollect(f) && CanCollect(m, i)
  {
    var e := RequiredEffects(m, i).value;
    if i.opcode.CallImport? || i.opcode.CallCAbi? {
      var t := FindImport(m.imports, i.symbol).value;
      var x :| x in t.effects * COLLECTING;
      assert x in f.effects * COLLECTING;
    } else if i.opcode.NativeAlloc? || i.opcode.NativeRealloc? {
      assert NativeAllocate in f.effects * COLLECTING;
    } else {
      assert Safepoint in f.effects * COLLECTING;
    }
  }

  /** A call of foreign code is charged with every effect, so whatever it calls back into is covered. */
  lemma ForeignCallCharged(m: Module, f: Function, b: Block, i: Instruction)
    requires AcceptedModule(m) && BlockEffectsOk(m, f, b) && i in b.instructions && CallsForeignCode(i)
    ensures MayCollect(f) && CanCollect(m, i) && C_CALL <= f.effects
  {
    if i.opcode.CallCAbi? {
      var t := FindImport(m.imports, i.symbol).value;
      assert t in m.imports && C_CALL <= t.effects;
    }
    assert RequiredEffects(m, i).value <= f.effects;
    assert Safepoint in f.effects * COLLECTING;
  }

  /** An instruction during which a collecting function may run is a collection point of a collecting function. */
  lemma CollectingEntryCharged(m: Module, f: Function, b: Block, i: Instruction, callee: Function)
    requires AcceptedModule(m) && BlockEffectsOk(m, f, b) && i in b.instructions && MayEnter(m, i, callee)
             && MayCollect(callee)
    ensures MayCollect(f) && CanCollect(m, i)
  {
    if MayCall(m, i, callee) {
      CollectingCalleeMeansCollectingCaller(m, f, b, i, callee);
    } else {
      ForeignCallCharged(m, f, b, i);
    }
  }

  // ----- what is charged, and where roots are published, exactly -----

  predicate CallsFunction(op: Opcode) { op == Call || op == CallDirect || op == CallUnsafe || op == CallVirtual }

  predicate CallsImport(op: Opcode) { op == CallImport || op == CallCAbi }

  /** Foreign code may do anything but promise not to return. */
  lemma ForeignCodeMayDoAnything(e: Effect)
    ensures e in C_CALL <==> e != NoReturn
  {
  }

  /** What a call is charged with is the effect of a function it may call, or that it is unsafe. */
  lemma CallChargesAreReal(m: Module, i: Instruction, e: Effect)
    requires CallsFunction(i.opcode) && RequiredEffects(m, i).Some? && e in RequiredEffects(m, i).value
    ensures exists f :: MayCall(m, i, f) && (e in f.effects - {NoReturn} || (e == Unsafe && f.unsafeCall))
  {
    if i.opcode == CallVirtual {
      var cs := Candidates(m.functions, i.symbol);
      if e in UnionEffects(cs) {
        var f := FromOne(cs, e);
        assert MayCall(m, i, f);
      } else {
        assert MayCall(m, i, cs[0]);
      }
    } else {
      var f := FindFunction(m.functions, i.symbol).value;
      assert MayCall(m, i, f);
    }
  }

  lemma {:induction false} FromOne(fs: seq<Function>, e: Effect) returns (f: Function)
    requires e in UnionEffects(fs)
    ensures f in fs && e in f.effects
  {
    if e in fs[0].effects {
      f := fs[0];
    } else {
      f := FromOne(fs[1..], e);
    }
  }

  /** Generating an array is calling back, ... */
  lemma GenerationCallsBack(m: Module, i: Instruction, call: Instruction)
    requires i.opcode == ArrayGenerate && call.opcode == CallVirtual && call.symbol == i.symbol
    ensures RequiredEffects(m, i).Some? <==> RequiredEffects(m, call).Some?
    ensures RequiredEffects(m, i).Some? ==> RequiredEffects(m, i).value == RequiredEffects(m, call).value + GENERATION
  {
  }

  /** ... and making an array, asking for its length and storing into it. */
  lemma GenerationIsItsParts(m: Module, make: Instruction, ask: Instruction, put: Instruction)
    requires make.opcode == ArrayNew && ask.opcode == ArrayLength && put.opcode == ArrayStoreChecked
    ensures RequiredEffects(m, make).Some? && RequiredEffects(m, ask).Some? && RequiredEffects(m, put).Some?
    ensures RequiredEffects(m, make).value + RequiredEffects(m, ask).value + RequiredEffects(m, put).value == GENERATION
  {
  }

  /** Doing so in tasks trusts that they do not interfere. */
  lemma TasksAreUnsafe(m: Module, i: Instruction, call: Instruction)
    requires i.opcode == TaskGenerate && call.opcode == CallVirtual && call.symbol == i.symbol
    ensures RequiredEffects(m, i).Some? <==> RequiredEffects(m, call).Some?
    ensures RequiredEffects(m, i).Some? ==>
              RequiredEffects(m, i).value == RequiredEffects(m, call).value + GENERATION + {Unsafe}
  {
  }

  /** Other instructions collect by themselves exactly if they are charged with an allocation or a safepoint. */
  lemma CollectorsAreCharged(m: Module, i: Instruction)
    requires !CallsFunction(i.opcode) && !CallsImport(i.opcode) && RequiredEffects(m, i).Some?
    ensures CollectsItself(m, i) <==> RequiredEffects(m, i).value * {ManagedAllocate, NativeAllocate, Safepoint} != {}
  {
    if CollectsItself(m, i) { CollectorsAllocate(m, i); } else { OthersDoNot(m, i); }
    var e := RequiredEffects(m, i).value;
    if Safepoint in e { assert Safepoint in e * {ManagedAllocate, NativeAllocate, Safepoint}; }
    if NativeAllocate in e { assert NativeAllocate in e * {ManagedAllocate, NativeAllocate, Safepoint}; }
  }

  lemma CollectorsAllocate(m: Module, i: Instruction)
    requires CollectsItself(m, i) && !CallsImport(i.opcode) && RequiredEffects(m, i).Some?
    ensures Safepoint in RequiredEffects(m, i).value || NativeAllocate in RequiredEffects(m, i).value
  {
  }

  lemma OthersDoNot(m: Module, i: Instruction)
    requires !CollectsItself(m, i) && !CallsFunction(i.opcode) && !CallsImport(i.opcode) && RequiredEffects(m, i).Some?
    ensures RequiredEffects(m, i).value !! {ManagedAllocate, NativeAllocate, Safepoint}
  {
  }

  /** Some function that may run under the instruction may collect. */
  ghost predicate EntersCollector(m: Module, i: Instruction) {
    exists f :: MayEnter(m, i, f) && MayCollect(f)
  }

  /**
   * Roots are published exactly where a collection may happen, and to be on the safe side before unsafe and virtual
   * calls, calls of C code, deallocations, ends of borrows and worker entries.
   */
  lemma RootsArePublishedWhereNeeded(m: Module, i: Instruction)
    ensures CanCollect(m, i) <==>
              || CollectsItself(m, i) || EntersCollector(m, i)
              || i.opcode in {CallUnsafe, CallVirtual, CallCAbi, CallCIndirect, NativeFree, BorrowEnd, WorkerEntry}
  {
    if i.opcode == Call || i.opcode == CallDirect {
      var f := FindFunction(m.functions, i.symbol);
      if f.Some? { assert MayEnter(m, i, f.value); }
    }
  }
}
