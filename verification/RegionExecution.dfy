/** What functions do: an interpreter over a stack of heaps, with regions and collections. */
module RegionExecution {
  import opened Ir
  import opened Cfg
  import opened RegionSelection
  import opened Scalars

  type Addr = nat

  /** A literal is a constant of the program: it has a place of its own, outside every heap. */
  datatype Value =
    | Scalar(n: int)
    | Nothing
    | Just(inner: Value)
    | Literal(place: nat, text: seq<int>)
    | Ref(address: Addr)

  datatype Kind = Text | Elements | Instance(symbol: Symbol)

  datatype Object = Object(kind: Kind, slots: seq<Value>)

  type Heap = map<Addr, Object>

  /** The current heap and its suspended ancestors, innermost last. */
  datatype Stack = Stack(suspended: seq<Heap>, current: Heap)

  /**
   * The parts of an instruction's meaning that do not touch the heap. Integer arithmetic is given; `convert` are the
   * numeric casts that can fail and `scalar` is everything else on scalars. A comparison asks for inequality if it is
   * `negated`, looks at the text of optional strings if it is `textual`, and compares scalars inside optionals by
   * `sameScalar`. `outside` stands for instructions that leave the function or handle native memory: it may do
   * anything.
   */
  datatype Machine = Machine(
    constant: Instruction -> Value,
    convert: (Instruction, seq<int>) -> Option<int>,
    scalar: (Instruction, seq<int>) -> int,
    text: (Instruction, int) -> seq<int>,
    initial: Symbol -> seq<Value>,
    slot: Instruction -> nat,
    managed: Instruction -> bool,
    castOk: (Kind, Instruction) -> bool,
    negated: Instruction -> bool,
    textual: Instruction -> bool,
    sameScalar: (Instruction, int, int) -> bool,
    outside: (Instruction, seq<Value>, Stack) -> Result)

  /** Where the next object goes. */
  type Allocator = Stack -> Addr

  /** Which objects of a heap a collection keeps, given the addresses it starts from. */
  type Collector = (Heap, set<Addr>) -> set<Addr>

  /** What a run gets from the runtime. */
  datatype Memory = Memory(allot: Allocator, collect: Collector)

  /** A module's functions, and which values the root plan keeps at each instruction. */
  datatype Program = Program(
    machine: Machine,
    definitions: map<Symbol, Function>,
    live: (Symbol, BlockId, nat) -> set<ValueId>)

  // ----- instructions -----

  /** An instruction goes on, panics, breaks a contract of the runtime, or makes no sense. */
  datatype Result = Next(value: Value, stack: Stack) | Fault(instruction: Instruction) | Abort(instruction: Instruction)
                  | Stuck

  predicate NoReference(v: Value) {
    match v
    case Ref(_) => false
    case Just(w) => NoReference(w)
    case _ => true
  }

  function Inert(v: Value): Value { if NoReference(v) then v else Nothing }

  function InertAll(vs: seq<Value>): seq<Value> { seq(|vs|, i requires 0 <= i < |vs| => Inert(vs[i])) }

  function FindAbove(heaps: seq<Heap>, a: Addr): Option<Object> {
    if |heaps| == 0 then None
    else if a in heaps[|heaps| - 1] then Some(heaps[|heaps| - 1][a])
    else FindAbove(heaps[..|heaps| - 1], a)
  }

  /** Objects of the current heap and of suspended ancestors can be read. */
  function Find(s: Stack, a: Addr): Option<Object> {
    if a in s.current then Some(s.current[a]) else FindAbove(s.suspended, a)
  }

  function New(allot: Allocator, s: Stack, o: Object): Result {
    Next(Ref(allot(s)), s.(current := s.current[allot(s) := o]))
  }

  predicate AllScalars(vs: seq<Value>) { forall i :: 0 <= i < |vs| ==> vs[i].Scalar? }

  function Numbers(vs: seq<Value>): seq<int> {
    seq(|vs|, i requires 0 <= i < |vs| => if vs[i].Scalar? then vs[i].n else 0)
  }

  /** The characters of a literal or of a text object. */
  function TextOf(s: Stack, v: Value): Option<seq<int>> {
    match v
    case Literal(_, t) => Some(t)
    case Ref(a) =>
      var o := Find(s, a);
      if o.Some? && o.value.kind == Text && AllScalars(o.value.slots) then Some(Numbers(o.value.slots)) else None
    case _ => None
  }

  function TextObject(t: seq<int>): Object { Object(Text, seq(|t|, i requires 0 <= i < |t| => Scalar(t[i]))) }

  /** Readable references, literals and everything that is no reference may be stored. */
  predicate Storable(s: Stack, v: Value) {
    match v
    case Ref(a) => Find(s, a).Some?
    case Just(w) => Storable(s, w)
    case _ => true
  }

  function Write(heaps: seq<Heap>, a: Addr, k: nat, v: Value): seq<Heap> {
    if |heaps| == 0 then []
    else
      var top := heaps[|heaps| - 1];
      if a in top then
        heaps[..|heaps| - 1] + [if k < |top[a].slots| then top[a := top[a].(slots := top[a].slots[k := v])] else top]
      else Write(heaps[..|heaps| - 1], a, k, v) + [top]
  }

  /** Array accesses check their index; fields are where the layout says. */
  function OutOfRange(i: Instruction): Result {
    if i.opcode == ArrayLoadChecked || i.opcode == ArrayStoreChecked then Fault(i) else Stuck
  }

  /**
   * A managed slot may only be written in an object of the current heap; a scalar one wherever the object lives. Texts
   * have no slots to write to.
   */
  function Store(m: Machine, i: Instruction, s: Stack, a: Addr, k: nat, v: Value): Result {
    var o := Find(s, a);
    if o.None? || o.value.kind == Text then Stuck
    else if k >= |o.value.slots| then OutOfRange(i)
    else if m.managed(i) && (a !in s.current || !Storable(s, v)) then Abort(i)
    else if a in s.current then Next(Nothing, s.(current := s.current[a := o.value.(slots := o.value.slots[k := v])]))
    else Next(Nothing, s.(suspended := Write(s.suspended, a, k, v)))
  }

  function Load(i: Instruction, s: Stack, a: Addr, k: nat): Result {
    var o := Find(s, a);
    if o.None? then Stuck else if k >= |o.value.slots| then OutOfRange(i) else Next(o.value.slots[k], s)
  }

  function Boolean(b: bool): Value { Scalar(if b then 1 else 0) }

  predicate Allocates(op: Opcode) {
    op in {StringConcat, StringFromInt, StringFromByte, StringFromFloat, ArrayNew, ObjectAlloc}
  }

  /** The object an allocating instruction makes. */
  function Built(m: Machine, i: Instruction, vs: seq<Value>, s: Stack): Option<Object> {
    if i.opcode == ArrayNew then Some(Object(Elements, vs))
    else if i.opcode == ObjectAlloc then Some(Object(Instance(i.symbol), InertAll(m.initial(i.symbol))))
    else if i.opcode == StringConcat then
      if |vs| != 2 || TextOf(s, vs[0]).None? || TextOf(s, vs[1]).None? then None
      else Some(TextObject(TextOf(s, vs[0]).value + TextOf(s, vs[1]).value))
    else if |vs| == 1 && vs[0].Scalar? then Some(TextObject(m.text(i, vs[0].n)))
    else None
  }

  /** Instructions on the object their first operand refers to. */
  function Access(m: Machine, i: Instruction, vs: seq<Value>, s: Stack): Result
    requires |vs| > 0 && vs[0].Ref?
  {
    var a := vs[0].address;
    if i.opcode == FieldLoad then if |vs| == 1 then Load(i, s, a, m.slot(i)) else Stuck
    else if i.opcode == FieldStore then if |vs| == 2 then Store(m, i, s, a, m.slot(i), vs[1]) else Stuck
    else if i.opcode == ArrayLength then
      if |vs| == 1 && Find(s, a).Some? then Next(Scalar(|Find(s, a).value.slots|), s) else Stuck
    else if i.opcode == ClassCheckedCast then
      if |vs| != 1 || Find(s, a).None? then Stuck
      else Next(if m.castOk(Find(s, a).value.kind, i) then Just(vs[0]) else Nothing, s)
    else if |vs| < 2 || !vs[1].Scalar? then Stuck
    else if vs[1].n < 0 then OutOfRange(i)
    else if i.opcode == ArrayLoadChecked then if |vs| == 2 then Load(i, s, a, vs[1].n) else Stuck
    else if i.opcode == ArrayStoreChecked then if |vs| == 3 then Store(m, i, s, a, vs[1].n, vs[2]) else Stuck
    else Stuck
  }

  predicate Accesses(op: Opcode) {
    op in {FieldLoad, FieldStore, ArrayLength, ArrayLoadChecked, ArrayStoreChecked, ClassCheckedCast}
  }

  predicate IsReference(v: Value) { v.Ref? || v.Literal? }

  /**
   * Whether two values of one type are equal: references if they are the same place, optionals if both are empty or
   * both hold equal scalars, equal texts or the same place. Nothing if the values do not have a type in common.
   */
  function Equal(m: Machine, i: Instruction, s: Stack, v: Value, w: Value): Option<bool> {
    if IsReference(v) && IsReference(w) then Some(v == w)
    else if v == Nothing && w == Nothing then Some(true)
    else if (v == Nothing && w.Just?) || (v.Just? && w == Nothing) then Some(false)
    else if !v.Just? || !w.Just? then None
    else if v.inner.Scalar? && w.inner.Scalar? then Some(m.sameScalar(i, v.inner.n, w.inner.n))
    else if !IsReference(v.inner) || !IsReference(w.inner) then None
    else if !m.textual(i) then Some(v.inner == w.inner)
    else if TextOf(s, v.inner).None? || TextOf(s, w.inner).None? then None
    else Some(TextOf(s, v.inner) == TextOf(s, w.inner))
  }

  function Comparison(m: Machine, i: Instruction, vs: seq<Value>, s: Stack): Result
    requires |vs| == 2
  {
    match Equal(m, i, s, vs[0], vs[1])
    case None => Stuck
    case Some(same) => Next(Boolean(same != m.negated(i)), s)
  }

  /** Constants, upcasts and optionals. */
  function Wrap(m: Machine, i: Instruction, vs: seq<Value>, s: Stack): Result {
    if i.opcode == Constant then Next(Inert(m.constant(i)), s)
    else if i.opcode == OptionalNone then Next(Nothing, s)
    else if |vs| != 1 then Stuck
    else if i.opcode == ClassUpcast then Next(vs[0], s)
    else if i.opcode == OptionalSome then Next(Just(vs[0]), s)
    else if i.opcode == OptionalIsSome then Next(Boolean(vs[0].Just?), s)
    else if vs[0].Just? then Next(vs[0].inner, s)
    else if vs[0] == Nothing then Fault(i)
    else Stuck
  }

  predicate Wraps(op: Opcode) {
    op in {Constant, ClassUpcast, OptionalNone, OptionalSome, OptionalIsSome, OptionalGetChecked}
  }

  function CompareTexts(i: Instruction, vs: seq<Value>, s: Stack): Result {
    if |vs| != 2 || TextOf(s, vs[0]).None? || TextOf(s, vs[1]).None? then Stuck
    else Next(Boolean((TextOf(s, vs[0]) == TextOf(s, vs[1])) == (i.opcode == StringEqual)), s)
  }

  predicate Converts(op: Opcode) {
    op == CastFloatToIntChecked || op == CastIntToByteChecked || op == NumericCastChecked
  }

  /** Scalar instructions that cannot fail. */
  predicate Calculates(op: Opcode) {
    op in {FloatNeg, FloatAdd, FloatSub, FloatMul, FloatDiv, BoolNot, BoolAnd, BoolOr, Compare, CastIntToFloat,
           CastByteToInt}
  }

  /** Checked arithmetic in the type of the result, casts that can fail, and scalar instructions that cannot. */
  function Calculate(m: Machine, i: Instruction, vs: seq<Value>, s: Stack): Result {
    if !AllScalars(vs) then Stuck
    else if Calculates(i.opcode) then Next(Scalar(m.scalar(i, Numbers(vs))), s)
    else if |i.results| != 1 then Stuck
    else
      var n := if IsChecked(i.opcode) then Checked(i.opcode, i.results[0].valueType, Numbers(vs))
               else m.convert(i, Numbers(vs));
      if n.None? then Fault(i) else Next(Scalar(n.value), s)
  }

  /** Instructions that change no heap. */
  function Compute(m: Machine, i: Instruction, vs: seq<Value>, s: Stack): Result {
    if Wraps(i.opcode) then Wrap(m, i, vs, s)
    else if i.opcode == StringEqual || i.opcode == StringNotEqual then CompareTexts(i, vs, s)
    else if i.opcode == Compare && |vs| == 2 && !AllScalars(vs) then Comparison(m, i, vs, s)
    else if Calculates(i.opcode) || IsChecked(i.opcode) || Converts(i.opcode) then Calculate(m, i, vs, s)
    else m.outside(i, vs, s)
  }

  /** One instruction other than a call of a module function. */
  function Operate(m: Machine, allot: Allocator, i: Instruction, vs: seq<Value>, s: Stack): Result {
    if Allocates(i.opcode) then match Built(m, i, vs, s) case None => Stuck case Some(o) => New(allot, s, o)
    else if Accesses(i.opcode) then if |vs| > 0 && vs[0].Ref? then Access(m, i, vs, s) else Stuck
    else Compute(m, i, vs, s)
  }

  // ----- collections -----

  function Refs(v: Value): set<Addr> {
    match v
    case Ref(a) => {a}
    case Just(w) => Refs(w)
    case _ => {}
  }

  function RefsOf(vs: seq<Value>): set<Addr> { set i, a | 0 <= i < |vs| && a in Refs(vs[i]) :: a }

  function RefsIn(ls: Locals): set<Addr> { set x, a | x in ls && a in Refs(ls[x]) :: a }

  function Only(h: Heap, keep: set<Addr>): Heap { map a | a in h && a in keep :: h[a] }

  function Collected(m: Memory, s: Stack, roots: set<Addr>): Stack {
    s.(current := Only(s.current, m.collect(s.current, roots)))
  }

  // ----- functions -----

  type Locals = map<ValueId, Value>

  datatype Outcome =
    | OutOfFuel
    | Wrong
    | Panicked(at: Option<Instruction>)
    | Aborted(instruction: Instruction)
    | Returned(value: Value, stack: Stack)

  predicate Bound(ls: Locals, ids: seq<ValueId>) { forall i :: 0 <= i < |ids| ==> ids[i] in ls }

  function ValuesOf(ls: Locals, ids: seq<ValueId>): seq<Value>
    requires Bound(ls, ids)
  {
    seq(|ids|, i requires 0 <= i < |ids| => ls[ids[i]])
  }

  function Bind(ls: Locals, ds: seq<ValueDefinition>, vs: seq<Value>): Locals
    decreases |ds|
  {
    if |ds| == 0 || |vs| == 0 then ls else Bind(ls[ds[0].id := vs[0]], ds[1..], vs[1..])
  }

  function Trim(ls: Locals, keep: set<ValueId>): Locals { map x | x in ls && x in keep :: ls[x] }

  predicate HasType(v: Value, t: Type) {
    match t
    case Void => v == Nothing
    case Bool | Byte | Int | Float | Int32 | UInt32 | UInt64 | Float32 => v.Scalar?
    case Optional(e) => v == Nothing || (v.Just? && HasType(v.inner, e))
    case _ => true
  }

  predicate HaveTypes(vs: seq<Value>, ts: seq<Type>) {
    |vs| == |ts| && forall i :: 0 <= i < |vs| ==> HasType(vs[i], ts[i])
  }

  function Enter(s: Stack): Stack { Stack(s.suspended + [s.current], map[]) }

  function Leave(s: Stack): Stack
    requires |s.suspended| > 0
  {
    Stack(s.suspended[..|s.suspended| - 1], s.suspended[|s.suspended| - 1])
  }

  /** What is still in reach while an instruction runs: a call or an allocation may collect all but the live values. */
  function Remaining(p: Program, f: Function, b: BlockId, k: nat, i: Instruction, ls: Locals): Locals {
    if IsCall(i) || Allocates(i.opcode) then Trim(ls, p.live(f.id, b, k)) else ls
  }

  /** An allocation may collect first, from the callers' roots, the live values and its operands. */
  function Prepared(m: Memory, i: Instruction, vs: seq<Value>, ls: Locals, s: Stack, roots: set<Addr>): Stack {
    if Allocates(i.opcode) then Collected(m, s, roots + RefsIn(ls) + RefsOf(vs)) else s
  }

  /**
   * Run a function, in a region of its own if it is one of `wrapped`. `roots` is what its callers hold. Values that
   * do not have the declared types make no sense.
   */
  function Invoke(p: Program, m: Memory, wrapped: set<Symbol>, f: Function, vs: seq<Value>, s: Stack, roots: set<Addr>,
                  fuel: nat): Outcome
    decreases fuel, 1
  {
    if !HaveTypes(vs, f.parameterTypes) then Wrong
    else
      match Body(p, m, wrapped, f, vs, if f.id in wrapped then Enter(s) else s, roots, fuel)
      case Returned(v, t) =>
        if !HasType(v, f.resultType) then Wrong
        else if f.id !in wrapped then Returned(v, t)
        else if |t.suspended| == 0 then Wrong
        else Returned(v, Leave(t))
      case other => other
  }

  function Body(p: Program, m: Memory, wrapped: set<Symbol>, f: Function, vs: seq<Value>, s: Stack, roots: set<Addr>,
                fuel: nat): Outcome
    decreases fuel, 0
  {
    if fuel == 0 then OutOfFuel
    else if f.entry !in BlockMap(f.blocks) then Wrong
    else
      var ls := Bind(map[], BlockMap(f.blocks)[f.entry].parameters, vs);
      Execute(p, m, wrapped, f, f.entry, 0, ls, s, roots, fuel - 1)
  }

  function Jump(p: Program, m: Memory, wrapped: set<Symbol>, f: Function, e: Edge, ls: Locals, s: Stack,
                roots: set<Addr>, fuel: nat): Outcome
    decreases fuel, 1
  {
    if e.target !in BlockMap(f.blocks) || !Bound(ls, e.arguments) then Wrong
    else
      var next := Bind(ls, BlockMap(f.blocks)[e.target].parameters, ValuesOf(ls, e.arguments));
      Execute(p, m, wrapped, f, e.target, 0, next, s, roots, fuel)
  }

  function Came(r: Result): Outcome {
    match r
    case Next(v, t) => Returned(v, t)
    case Fault(j) => Panicked(Some(j))
    case Abort(j) => Aborted(j)
    case Stuck => Wrong
  }

  /** Go on after instruction `k`, with its result bound, or stop as it did. */
  function Resume(p: Program, m: Memory, wrapped: set<Symbol>, f: Function, b: BlockId, k: nat, i: Instruction,
                  rest: Locals, o: Outcome, roots: set<Addr>, fuel: nat): Outcome
    decreases fuel, 1
  {
    if o.Returned? then Execute(p, m, wrapped, f, b, k + 1, Bind(rest, i.results, [o.value]), o.stack, roots, fuel)
      else o
  }

  /** Instruction `k`, and what follows. */
  function Instruct(p: Program, m: Memory, wrapped: set<Symbol>, f: Function, b: BlockId, k: nat, i: Instruction,
                    ls: Locals, s: Stack, roots: set<Addr>, fuel: nat): Outcome
    decreases fuel, 2
  {
    if !Bound(ls, i.operands) then Wrong
    else
      var vs, rest := ValuesOf(ls, i.operands), Remaining(p, f, b, k, i, ls);
      if IsCall(i) then
        if i.symbol !in p.definitions then Wrong
        else
          var o := Invoke(p, m, wrapped, p.definitions[i.symbol], vs, s, roots + RefsIn(rest), fuel);
          Resume(p, m, wrapped, f, b, k, i, rest, o, roots, fuel)
      else
        var o := Came(Operate(p.machine, m.allot, i, vs, Prepared(m, i, vs, rest, s, roots)));
        Resume(p, m, wrapped, f, b, k, i, rest, o, roots, fuel)
  }

  /** From instruction `k` of block `b` to the end of the function. */
  function Execute(p: Program, m: Memory, wrapped: set<Symbol>, f: Function, b: BlockId, k: nat, ls: Locals, s: Stack,
                   roots: set<Addr>, fuel: nat): Outcome
    decreases fuel, 0
  {
    if fuel == 0 then OutOfFuel
    else if b !in BlockMap(f.blocks) then Wrong
    else
      var block := BlockMap(f.blocks)[b];
      if k < |block.instructions| then
        Instruct(p, m, wrapped, f, b, k, block.instructions[k], ls, s, roots, fuel - 1)
      else
        match block.ending
        case Branch(e) => Jump(p, m, wrapped, f, e, ls, s, roots, fuel - 1)
        case ConditionalBranch(c, e0, e1) =>
          if c !in ls || !ls[c].Scalar? then Wrong
          else Jump(p, m, wrapped, f, if ls[c].n != 0 then e0 else e1, ls, s, roots, fuel - 1)
        case Return(None) => Returned(Nothing, s)
        case Return(Some(x)) => if x in ls then Returned(ls[x], s) else Wrong
        case Panic => Panicked(None)
  }

  // ----- what the runtime promises -----

  ghost predicate Points(h: Heap, a: Addr, c: Addr) {
    a in h && c in h && exists i :: 0 <= i < |h[a].slots| && c in Refs(h[a].slots[i])
  }

  /** `keep` holds the roots and whatever its objects refer to. */
  ghost predicate Keeps(h: Heap, roots: set<Addr>, keep: set<Addr>) {
    && keep <= h.Keys && roots * h.Keys <= keep
    && forall a, c {:trigger Points(h, a, c)} :: a in keep && Points(h, a, c) ==> c in keep
  }

  /** In every set that holds the roots and what its objects refer to, so in what a collection keeps at least. */
  ghost predicate Reached(h: Heap, roots: set<Addr>, a: Addr) {
    a in h && forall keep {:trigger Keeps(h, roots, keep)} :: Keeps(h, roots, keep) ==> a in keep
  }

  /** New objects go to free places, and a collection keeps what is still in reach. */
  ghost predicate Sane(m: Memory) {
    && (forall s: Stack {:trigger IsFree(m, s)} :: IsFree(m, s))
    && forall h: Heap, roots: set<Addr> {:trigger CollectsWell(m, h, roots)} :: CollectsWell(m, h, roots)
  }

  ghost predicate IsFree(m: Memory, s: Stack) { Find(s, m.allot(s)).None? }

  ghost predicate CollectsWell(m: Memory, h: Heap, roots: set<Addr>) { Keeps(h, roots, m.collect(h, roots)) }

  ghost function Beyond(keys: set<Addr>): (n: nat)
    ensures forall k :: k in keys ==> k < n
  {
    if keys == {} then 0
    else
      var k :| k in keys;
      var n := Beyond(keys - {k});
      assert forall j :: j in keys ==> j == k || j in keys - {k};
      if k < n then n else k + 1
  }

  ghost function Addresses(heaps: seq<Heap>): set<Addr> {
    if |heaps| == 0 then {} else Addresses(heaps[..|heaps| - 1]) + heaps[|heaps| - 1].Keys
  }

  lemma {:induction false} FoundIsAddress(heaps: seq<Heap>, a: Addr)
    ensures FindAbove(heaps, a).Some? ==> a in Addresses(heaps)
  {
    if |heaps| > 0 {
      FoundIsAddress(heaps[..|heaps| - 1], a);
    }
  }

  /** Such runtimes exist: there always is a free address, and a collection may keep everything. */
  lemma SaneExists()
    ensures exists m: Memory :: Sane(m)
  {
    var allot: Allocator := (s: Stack) => Beyond(Addresses(s.suspended) + s.current.Keys);
    var collect: Collector := (h: Heap, roots: set<Addr>) => h.Keys;
    var m := Memory(allot, collect);
    forall s: Stack ensures IsFree(m, s) { FoundIsAddress(s.suspended, m.allot(s)); }
    forall h: Heap, roots: set<Addr> ensures CollectsWell(m, h, roots) { }
    assert Sane(m);
  }
}
