/**
 * Runs of a lowered module: frames that publish their planned roots, calls, returns, heap effects and collections.
 * Every value keeps its type; no run reads a reclaimed object, and no collection meets a reference it does not know.
 */
module RootedExecution {
  import opened Ir
  import opened Cfg
  import opened SsaVerifier
  import opened Effects
  import opened Typing
  import opened RootPlanner
  import opened Collector
  import opened TypedHeap

  type Plan = map<Point, set<ValueId>>

  /** A reference in hand, as a value of a type. */
  datatype Item = Item(valueType: Type, reference: Reference)

  /**
   * An activation. `env` says what each value holds; scalars and empty optionals hold `Null`. `slots` is the content
   * of the root frame, but for its slot zero, the temporary root of instructions that generate arrays. `busy` says
   * that the instruction at `at` has published its roots and is executing; `held` are the references it has in hand.
   */
  datatype Frame = Frame(fn: Function, at: Point, env: map<ValueId, Reference>, slots: set<Reference>,
                         slotZero: Reference, busy: bool, held: set<Item>)

  /** The call stack, oldest frame first, the heap, and what the runtime and foreign code have pinned or borrowed. */
  datatype Machine = Machine(frames: seq<Frame>, heap: Things, pinned: set<Reference>)

  ghost predicate PlanOk(m: Module, f: Function, plan: Plan) {
    if MayCollect(f) then ExactRoots(m, GraphOf(f), ManagedIds(f), plan) else plan == map[]
  }

  /**
   * What runs: an accepted module with the plan of each of its functions, above the objects of suspended heaps, which
   * refer only to each other.
   */
  datatype Program = Program(m: Module, plans: map<Symbol, Plan>, outer: Things)

  ghost predicate Planned(p: Program) {
    forall f {:trigger HasPlan(p, f)} :: f in p.m.functions && !f.retained ==> HasPlan(p, f)
  }

  ghost predicate HasPlan(p: Program, f: Function) {
    f.id in p.plans && PlanOk(p.m, f, p.plans[f.id])
  }

  ghost predicate Lowered(p: Program) {
    AcceptedModule(p.m) && TypedModule(p.m) && Planned(p) && HeapOk(p.m, p.outer)
  }

  type LoweredProgram = p: Program | Lowered(p) ghost witness Program(Module([], [], map[], map[]), map[], map[])

  /** All objects there are. */
  ghost function All(p: Program, heap: Things): Things { p.outer + heap }

  function Code(f: Function, at: Point): Instruction
    requires IsPoint(GraphOf(f), at) && !AtTerminator(GraphOf(f), at)
  {
    GraphOf(f).blocks[at.block].instructions[at.index]
  }

  ghost predicate Executing(fr: Frame) {
    fr.busy && IsPoint(GraphOf(fr.fn), fr.at) && !AtTerminator(GraphOf(fr.fn), fr.at)
  }

  ghost function Values(env: map<ValueId, Reference>, vs: set<ValueId>): set<Reference> {
    set v | v in vs && v in env :: env[v]
  }

  ghost function OperandItems(fr: Frame, i: Instruction): set<Item> {
    set v | v in i.operands && v in fr.env && Declared(fr.fn, v).Some? :: Item(Declared(fr.fn, v).value, fr.env[v])
  }

  /** Operand `j` holds `r`. */
  predicate Carries(fr: Frame, i: Instruction, j: nat, r: Reference) {
    j < |i.operands| && i.operands[j] in fr.env && fr.env[i.operands[j]] == r
  }

  /** If it is an object, it is in hand as a value of this type. */
  predicate Gets(fr: Frame, t: Type, r: Reference) { r.Object? ==> Item(t, r) in fr.held }

  ghost predicate InHand(fr: Frame, r: Reference) { r.Object? ==> exists x :: x in fr.held && x.reference == r }

  // ----- steps -----

  function Top(s: Machine): Frame
    requires s.frames != []
  {
    s.frames[|s.frames| - 1]
  }

  function WithTop(s: Machine, fr: Frame): Machine
    requires s.frames != []
  {
    s.(frames := s.frames[|s.frames| - 1 := fr])
  }

  /** Roots are stored where the plan has an entry: slot zero is cleared, the others get the planned values. */
  ghost function Started(fr: Frame, plan: Plan): Frame
    requires IsPoint(GraphOf(fr.fn), fr.at) && !AtTerminator(GraphOf(fr.fn), fr.at)
  {
    var next := fr.(busy := true, held := OperandItems(fr, Code(fr.fn, fr.at)));
    if fr.at in plan then next.(slots := Values(fr.env, plan[fr.at]), slotZero := Null) else next
  }

  /** Publish the planned roots, if the instruction has any, and start it with its operands in hand. */
  ghost predicate Begin(p: Program, s: Machine, t: Machine) {
    && s.frames != [] && var fr := Top(s);
    && !fr.busy && IsPoint(GraphOf(fr.fn), fr.at) && !AtTerminator(GraphOf(fr.fn), fr.at)
    && fr.fn.id in p.plans && t == WithTop(s, Started(fr, p.plans[fr.fn.id]))
  }

  /** The instruction itself, or trusted code it enters, may collect. */
  ghost predicate CollectsNow(m: Module, i: Instruction) {
    CollectsItself(m, i) || exists callee :: MayEnter(m, i, callee) && callee.retained && MayCollect(callee)
  }

  /** What a collection starts from: every root frame with its slot zero, and everything pinned. */
  ghost function Roots(s: Machine): set<Reference> {
    (set fr, r | fr in s.frames && r in fr.slots :: r) + (set fr | fr in s.frames :: fr.slotZero) + s.pinned
  }

  /** After a collection only rooted references are still in hand. */
  ghost function Dropped(frames: seq<Frame>, roots: set<Reference>): seq<Frame> {
    seq(|frames|, k requires 0 <= k < |frames| => frames[k].(held := RootedItems(frames[k].held, roots)))
  }

  ghost function RootedItems(held: set<Item>, roots: set<Reference>): set<Item> {
    set x | x in held && x.reference in roots
  }

  /** A collection from the roots of the whole stack, which sees of each object what its trace callback visits. */
  ghost predicate Collect(p: Program, s: Machine, t: Machine) {
    && s.frames != [] && Executing(Top(s)) && CollectsNow(p.m, Code(Top(s).fn, Top(s).at))
    && t == s.(frames := Dropped(s.frames, Roots(s)), heap := Collected(s.heap, Roots(s)))
  }

  /** What the instruction makes: the kind its opcode says, or whatever code outside the module likes. */
  ghost predicate Makes(m: Module, i: Instruction, k: Kind) {
    match i.opcode
    case StringConcat | StringFromInt | StringFromByte | StringFromFloat => k == Text
    case ArrayNew | ArrayGenerate => |i.typeArguments| == 1 && k == Elements(i.typeArguments[0])
    case ObjectAlloc => k == Instance(i.symbol)
    case _ => GoesOutside(m, i)
  }

  /** A new object with empty slots comes into hand; a generated array goes to slot zero at once. */
  ghost predicate Create(p: Program, s: Machine, t: Machine, a: Address, thing: Thing) {
    && s.frames != [] && Executing(Top(s)) && a !in s.heap && a !in p.outer
    && var fr := Top(s);
    && Makes(p.m, Code(fr.fn, fr.at), thing.kind) && Fresh(p.m, thing)
    && var zero := if Code(fr.fn, fr.at).opcode.ArrayGenerate? then Object(a) else fr.slotZero;
    && var held := fr.held + {Item(TypeOfKind(thing.kind), Object(a))};
    t == WithTop(s, fr.(held := held, slotZero := zero)).(heap := s.heap[a := thing])
  }

  /** What the instruction may put into slot `k` of the object at `a`. */
  ghost predicate Stores(p: Program, heap: Things, fr: Frame, i: Instruction, a: Address, k: nat, r: Reference)
    requires a in heap && k < |heap[a].slots|
  {
    match i.opcode
    case FieldStore =>
      |i.operands| == 2 && Carries(fr, i, 0, Object(a)) && heap[a].slots[k].field == i.symbol && Carries(fr, i, 1, r)
    case ArrayStoreChecked => |i.operands| == 3 && Carries(fr, i, 0, Object(a)) && Carries(fr, i, 2, r)
    case ArrayNew =>
      && |i.typeArguments| == 1 && Item(Array(i.typeArguments[0]), Object(a)) in fr.held
      && exists j: nat :: Carries(fr, i, j, r)
    case ArrayGenerate =>
      && |i.typeArguments| == 1 && Item(Array(i.typeArguments[0]), Object(a)) in fr.held
      && Gets(fr, i.typeArguments[0], r)
    case _ =>
      // Code outside the module respects the types of what it writes to.
      && GoesOutside(p.m, i) && InHand(fr, Object(a)) && InHand(fr, r)
      && Holds(p.m, All(p, heap), heap[a].slots[k].valueType, r)
  }

  ghost predicate Write(p: Program, s: Machine, t: Machine, a: Address, k: nat, r: Reference) {
    && s.frames != [] && Executing(Top(s)) && a in s.heap && k < |s.heap[a].slots|
    && Stores(p, s.heap, Top(s), Code(Top(s).fn, Top(s).at), a, k, r)
    && t == s.(heap := s.heap[a := WithSlot(s.heap[a], k, r)])
  }

  /** The content of a slot of an object in hand, be it this heap's or a suspended one's, comes into hand. */
  ghost predicate Load(p: Program, s: Machine, t: Machine, a: Address, k: nat) {
    && s.frames != [] && Executing(Top(s)) && InHand(Top(s), Object(a))
    && var h := All(p, s.heap);
    && a in h && k < |h[a].slots|
    && t == WithTop(s, Top(s).(held := Top(s).held + {Item(h[a].slots[k].valueType, h[a].slots[k].content)}))
  }

  /** Code outside the module hands a reference on as a value of another type that fits. */
  ghost predicate View(p: Program, s: Machine, t: Machine, x: Item) {
    && s.frames != [] && Executing(Top(s)) && GoesOutside(p.m, Code(Top(s).fn, Top(s).at))
    && InHand(Top(s), x.reference) && Holds(p.m, All(p, s.heap), x.valueType, x.reference)
    && t == WithTop(s, Top(s).(held := Top(s).held + {x}))
  }

  /** Such code roots references it has in hand, in frames of its own or as borrows, and lets go of others. */
  ghost predicate Pin(p: Program, s: Machine, t: Machine) {
    && s.frames != [] && Executing(Top(s)) && GoesOutside(p.m, Code(Top(s).fn, Top(s).at))
    && t.pinned <= s.pinned + (set x | x in Top(s).held :: x.reference) && t == s.(pinned := t.pinned)
  }

  /** The operand that becomes parameter `k` of a called function. */
  function Argument(i: Instruction, f: Function, k: nat): Option<nat> {
    match i.opcode
    case Call | CallDirect => Some(k)
    case CallUnsafe => Some(k + 1)
    case CallVirtual => Some(if f.unsafeCall then k + 1 else k)
    case ArrayGenerate => Some(if k == 0 then 1 else 0)
    case TaskGenerate => Some(if k == 0 then 3 else 1)
    case _ => None
  }

  /** Parameter `k` receives an operand; foreign code that calls back passes no reference. */
  ghost predicate Passes(fr: Frame, i: Instruction, f: Function, k: nat, r: Reference) {
    var j := Argument(i, f, k);
    if j.Some? then Carries(fr, i, j.value, r) else !r.Object?
  }

  /** Dispatch enters a method of the receiver's class or of one above. */
  ghost predicate Dispatches(p: Program, h: Things, i: Instruction, f: Function, receiver: Reference) {
    i.opcode.CallVirtual? || i.opcode.ArrayGenerate? || i.opcode.TaskGenerate? ==>
      |f.parameterTypes| > 0 && Holds(p.m, h, f.parameterTypes[0], receiver)
  }

  /** Control enters a function of the module. */
  ghost predicate Invoke(p: Program, s: Machine, t: Machine) {
    && s.frames != [] && Executing(Top(s)) && |t.frames| == |s.frames| + 1
    && var fr, callee := Top(s), Top(t);
    && MayEnter(p.m, Code(fr.fn, fr.at), callee.fn) && callee.fn in p.m.functions && !callee.fn.retained
    && t == s.(frames := s.frames + [callee])
    && callee == Entered(callee.fn, callee.env)
    && Passed(p, All(p, s.heap), fr, callee)
  }

  /** A frame about to start. */
  function Entered(f: Function, env: map<ValueId, Reference>): Frame {
    Frame(f, Point(f.entry, 0), env, {}, Null, false, {})
  }

  ghost predicate Passed(p: Program, h: Things, fr: Frame, callee: Frame)
    requires Executing(fr)
  {
    var i, f := Code(fr.fn, fr.at), callee.fn;
    && (f.unsafeRoot.Some? ==> f.unsafeRoot.value.id in callee.env && callee.env[f.unsafeRoot.value.id] == Null)
    && (f.entry in BlockMap(f.blocks) ==>
          var ps := BlockMap(f.blocks)[f.entry].parameters;
          && (forall k :: 0 <= k < |ps| ==> ps[k].id in callee.env && Passes(fr, i, f, k, callee.env[ps[k].id]))
          && (|ps| > 0 ==> Dispatches(p, h, i, f, callee.env[ps[0].id])))
  }

  ghost function ReturnedBy(fr: Frame, ending: Terminator): set<Item>
    requires ending.Return?
  {
    if ending.value.Some? && ending.value.value in fr.env then {Item(fr.fn.resultType, fr.env[ending.value.value])}
    else {}
  }

  /** A return hands its value to the caller, which is still executing its call. */
  ghost predicate Leave(p: Program, s: Machine, t: Machine) {
    && |s.frames| > 1 && var fr := Top(s);
    && !fr.busy && IsPoint(GraphOf(fr.fn), fr.at) && AtTerminator(GraphOf(fr.fn), fr.at)
    && var ending := GraphOf(fr.fn).blocks[fr.at.block].ending;
    && ending.Return?
    && var n := |s.frames| - 1;
    && var caller := s.frames[n - 1];
    t == s.(frames := s.frames[..n - 1] + [caller.(held := caller.held + ReturnedBy(fr, ending))])
  }

  /** What a result of the instruction may hold. */
  ghost predicate Yields(p: Program, h: Things, fr: Frame, i: Instruction, r: Reference) {
    match i.opcode
    case StringConcat | StringFromInt | StringFromByte | StringFromFloat => Gets(fr, String, r)
    case ArrayNew | ArrayGenerate | TaskGenerate => |i.typeArguments| == 1 && Gets(fr, Array(i.typeArguments[0]), r)
    case ObjectAlloc => Gets(fr, Class(i.symbol), r)
    case ClassUpcast | OptionalSome | OptionalGetChecked => Carries(fr, i, 0, r)
    case ClassCheckedCast => r == Null || (Carries(fr, i, 0, r) && CastFits(p.m, h, i, r))
    case FieldLoad => exists a, k: nat :: LoadsField(h, fr, i, a, k, r)
    case ArrayLoadChecked => exists a, k: nat :: LoadsElement(h, fr, i, a, k, r)
    case Call | CallDirect | CallUnsafe | CallVirtual => exists f :: MayCall(p.m, i, f) && Gets(fr, f.resultType, r)
    case CallImport =>
      var t := FindImport(p.m.imports, i.symbol);
      t.Some? && Gets(fr, t.value.resultType, r)
    case _ => !r.Object?
  }

  /** The runtime found the object's class among the target and what derives from it. */
  ghost predicate CastFits(m: Module, h: Things, i: Instruction, r: Reference) {
    |i.typeArguments| == 1 && Holds(m, h, i.typeArguments[0], r)
  }

  ghost predicate LoadsField(h: Things, fr: Frame, i: Instruction, a: Address, k: nat, r: Reference) {
    Carries(fr, i, 0, Object(a)) && a in h && IsField(h[a], i.symbol, k) && h[a].slots[k].content == r
  }

  ghost predicate LoadsElement(h: Things, fr: Frame, i: Instruction, a: Address, k: nat, r: Reference) {
    Carries(fr, i, 0, Object(a)) && a in h && k < |h[a].slots| && h[a].slots[k].content == r
  }

  /** The instruction completes and its results are bound. */
  ghost predicate Finish(p: Program, s: Machine, t: Machine) {
    && s.frames != [] && Executing(Top(s)) && |t.frames| == |s.frames|
    && var fr := Top(s);
    && var i := Code(fr.fn, fr.at);
    && var env := Top(t).env;
    && t == WithTop(s, fr.(at := Point(fr.at.block, fr.at.index + 1), env := env, busy := false, held := {}))
    && Results(p, All(p, s.heap), fr, i, env)
  }

  ghost predicate Results(p: Program, h: Things, fr: Frame, i: Instruction, env: map<ValueId, Reference>) {
    && (forall v :: v in fr.env && v !in Ids(i.results) ==> v in env && env[v] == fr.env[v])
    && forall v :: v in Ids(i.results) ==> v in env && Yields(p, h, fr, i, env[v])
  }

  /** A branch binds the target's parameters to the edge's arguments. */
  ghost predicate Jump(p: Program, s: Machine, t: Machine) {
    && s.frames != [] && |t.frames| == |s.frames|
    && var fr := Top(s);
    && !fr.busy && IsPoint(GraphOf(fr.fn), fr.at) && AtTerminator(GraphOf(fr.fn), fr.at)
    && exists e :: e in EdgesOf(GraphOf(fr.fn).blocks[fr.at.block].ending) && Bound(fr, e, Top(t))
                   && t == WithTop(s, Top(t))
  }

  ghost predicate Bound(fr: Frame, e: Edge, next: Frame) {
    && next == fr.(at := Point(e.target, 0), env := next.env)
    && EdgeOk(GraphOf(fr.fn), e)
    && var ps := GraphOf(fr.fn).blocks[e.target].parameters;
    && (forall v :: v in fr.env && v !in Ids(ps) ==> v in next.env && next.env[v] == fr.env[v])
    && forall k :: 0 <= k < |ps| && e.arguments[k] in fr.env ==>
         ps[k].id in next.env && next.env[ps[k].id] == fr.env[e.arguments[k]]
  }

  datatype Action =
    | BeginIt
    | CollectIt
    | CreateIt(a: Address, thing: Thing)
    | WriteIt(a: Address, slot: nat, value: Reference)
    | LoadIt(a: Address, slot: nat)
    | ViewIt(item: Item)
    | PinIt
    | InvokeIt
    | LeaveIt
    | FinishIt
    | JumpIt

  ghost predicate Does(p: Program, x: Action, s: Machine, t: Machine) {
    match x
    case BeginIt => Begin(p, s, t)
    case CollectIt => Collect(p, s, t)
    case CreateIt(a, thing) => Create(p, s, t, a, thing)
    case WriteIt(a, slot, value) => Write(p, s, t, a, slot, value)
    case LoadIt(a, slot) => Load(p, s, t, a, slot)
    case ViewIt(item) => View(p, s, t, item)
    case PinIt => Pin(p, s, t)
    case InvokeIt => Invoke(p, s, t)
    case LeaveIt => Leave(p, s, t)
    case FinishIt => Finish(p, s, t)
    case JumpIt => Jump(p, s, t)
  }

  ghost predicate Next(p: Program, s: Machine, t: Machine) {
    exists x :: Does(p, x, s, t)
  }

  // ----- the invariant -----

  ghost predicate KnownIn(h: Things, r: Reference) { r.Object? ==> r.address in h }

  ghost predicate KnownAll(h: Things, rs: set<Reference>) { forall r :: r in rs ==> KnownIn(h, r) }

  /** What the value holds exists, and fits the value's declared type. */
  ghost predicate ValueOk(m: Module, h: Things, f: Function, v: ValueId, r: Reference) {
    r.Object? ==> Declared(f, v).Some? && Holds(m, h, Declared(f, v).value, r)
  }

  /** Everything still needed from a point on is bound, exists and has its type. */
  ghost predicate LiveOk(m: Module, h: Things, f: Function, at: Point, env: map<ValueId, Reference>) {
    forall v {:trigger Live(GraphOf(f), v, at)} :: Live(GraphOf(f), v, at) ==> v in env && ValueOk(m, h, f, v, env[v])
  }

  ghost predicate HeldOk(m: Module, h: Things, held: set<Item>) {
    forall x :: x in held ==> Holds(m, h, x.valueType, x.reference)
  }

  /** An executing instruction with a plan has the references live before it in its root frame. */
  ghost predicate Published(p: Program, fr: Frame) {
    fr.busy && fr.fn.id in p.plans && fr.at in p.plans[fr.fn.id] ==>
      forall v :: v in p.plans[fr.fn.id][fr.at] ==> v in fr.env && fr.env[v] in fr.slots
  }

  ghost predicate FrameOk(p: Program, h: Things, fr: Frame) {
    && fr.fn in p.m.functions && !fr.fn.retained
    && IsPoint(GraphOf(fr.fn), fr.at)
    && (fr.busy ==> Executing(fr))
    && LiveOk(p.m, h, fr.fn, fr.at, fr.env)
    && KnownAll(h, fr.slots) && KnownIn(h, fr.slotZero)
    && HeldOk(p.m, h, fr.held)
    && Published(p, fr)
  }

  ghost predicate Calling(p: Program, caller: Frame, callee: Frame) {
    Executing(caller) && MayEnter(p.m, Code(caller.fn, caller.at), callee.fn)
  }

  ghost predicate MemoryOk(p: Program, s: Machine) {
    && HeapOk(p.m, All(p, s.heap)) && p.outer.Keys !! s.heap.Keys
    && KnownAll(All(p, s.heap), s.pinned)
  }

  ghost predicate FramesOk(p: Program, h: Things, frames: seq<Frame>) {
    forall k {:trigger FrameOk(p, h, frames[k])} :: 0 <= k < |frames| ==> FrameOk(p, h, frames[k])
  }

  ghost predicate AllLinked(p: Program, frames: seq<Frame>) {
    forall k {:trigger Linked(p, frames, k)} :: 0 <= k < |frames| - 1 ==> Linked(p, frames, k)
  }

  ghost predicate Linked(p: Program, frames: seq<Frame>, k: nat)
    requires k + 1 < |frames|
  {
    Calling(p, frames[k], frames[k + 1])
  }

  ghost predicate Invariant(p: Program, s: Machine) {
    s.frames != [] && MemoryOk(p, s) && FramesOk(p, All(p, s.heap), s.frames) && AllLinked(p, s.frames)
  }

  /** One activation of a module function, about to start, with arguments of its parameters' types. */
  ghost predicate Initial(p: Program, s: Machine) {
    && |s.frames| == 1 && HeapOk(p.m, All(p, s.heap)) && p.outer.Keys !! s.heap.Keys && s.pinned == {}
    && var fr := s.frames[0];
    && fr == Entered(fr.fn, fr.env)
    && fr.fn in p.m.functions && !fr.fn.retained
    && forall v :: IsPoint(GraphOf(fr.fn), fr.at) && v in DefsAt(GraphOf(fr.fn), fr.at) ==>
         v in fr.env && ValueOk(p.m, All(p, s.heap), fr.fn, v, fr.env[v])
  }

  /** Everything a frame still needs or has in hand exists and has its type. */
  ghost predicate Intact(p: Program, s: Machine, fr: Frame) {
    && IsPoint(GraphOf(fr.fn), fr.at) && LiveOk(p.m, All(p, s.heap), fr.fn, fr.at, fr.env)
    && HeldOk(p.m, All(p, s.heap), fr.held)
  }

  /**
   * Whatever the top frame is about to read, or is reading, is bound, and if it holds an object, that object exists
   * and is of the value's type. So does everything any frame of the stack still needs or has in hand, and everything
   * any slot of the heap holds; and a collection would not meet an unknown reference.
   */
  ghost predicate Safe(p: Program, s: Machine) {
    && s.frames != [] && IsPoint(GraphOf(Top(s).fn), Top(s).at)
    && (forall v :: v in UsesAt(GraphOf(Top(s).fn), Top(s).at) ==>
          v in Top(s).env && ValueOk(p.m, All(p, s.heap), Top(s).fn, v, Top(s).env[v]))
    && (forall k :: 0 <= k < |s.frames| ==> Intact(p, s, s.frames[k]))
    && HeapOk(p.m, All(p, s.heap))
    && Closed(TracedStore(s.heap), p.outer.Keys, Roots(s))
  }

  lemma InvariantIsSafe(p: Program, s: Machine)
    requires Invariant(p, s)
    ensures Safe(p, s)
  {
    var fr, h := Top(s), All(p, s.heap);
    assert FrameOk(p, h, s.frames[|s.frames| - 1]);
    forall v | v in UsesAt(GraphOf(fr.fn), fr.at) ensures v in fr.env && ValueOk(p.m, h, fr.fn, v, fr.env[v]) {
      UseIsLive(GraphOf(fr.fn), v, fr.at);
    }
    forall k | 0 <= k < |s.frames| ensures Intact(p, s, s.frames[k]) {
      assert FrameOk(p, h, s.frames[k]);
    }
    CollectorKnowsAll(p, s);
  }

  lemma CollectorKnowsAll(p: Program, s: Machine)
    requires Invariant(p, s)
    ensures Closed(TracedStore(s.heap), p.outer.Keys, Roots(s))
  {
    RootsAreKnown(p, s);
    TracedDoesNotDangle(p.m, p.outer, s.heap);
    forall r | r in Roots(s) ensures Known(TracedStore(s.heap), p.outer.Keys, r) { assert KnownIn(All(p, s.heap), r); }
    SurvivorsDoNotDangle(TracedStore(s.heap), p.outer.Keys, Roots(s));
  }

  lemma RootsAreKnown(p: Program, s: Machine)
    requires Invariant(p, s)
    ensures KnownAll(All(p, s.heap), Roots(s))
  {
    forall r | r in Roots(s) ensures KnownIn(All(p, s.heap), r) {
      if r !in s.pinned {
        var fr :| fr in s.frames && (r in fr.slots || r == fr.slotZero);
        var k :| 0 <= k < |s.frames| && s.frames[k] == fr;
        assert FrameOk(p, All(p, s.heap), s.frames[k]);
      }
    }
  }

  // ----- types of values -----

  lemma DeclaredIs(f: Function, v: ValueId, t: Type)
    requires Accepted(f) && HasType(AllDefinitions(f), v, t)
    ensures Declared(f, v) == Some(t)
  {
    TypeOfOnly(AllDefinitions(f), v, t);
  }

  /** A definition in a block has the type written there. */
  lemma DefinedType(f: Function, at: Point, d: ValueDefinition)
    requires Accepted(f) && IsPoint(GraphOf(f), at)
    requires var b := GraphOf(f).blocks[at.block];
             d in if at.index == 0 then b.parameters else b.instructions[at.index - 1].results
    ensures Declared(f, d.id) == Some(d.valueType)
  {
    var i := BlockMapFrom(f.blocks, at.block);
    var e := Entry(d.id, Definition(d.valueType, at));
    assert DefinesIn(f.blocks[i], e) by { assert ValueDefinition(d.id, d.valueType) == d; }
    DefinitionsAt(f.blocks, e);
    assert e in AllDefinitions(f);
    DeclaredIs(f, d.id, d.valueType);
  }

  lemma RootType(f: Function)
    requires Accepted(f) && f.unsafeRoot.Some?
    ensures Declared(f, f.unsafeRoot.value.id) == Some(f.unsafeRoot.value.valueType)
  {
    assert AllDefinitions(f)[0] == Defined([f.unsafeRoot.value], Point(f.entry, 0))[0];
  }

  /** Whatever holds an object is among the values the plan considers. */
  lemma HolderIsManaged(m: Module, h: Things, f: Function, v: ValueId, r: Reference)
    requires ValueOk(m, h, f, v, r) && r.Object?
    ensures v in ManagedIds(f)
  {
    var t := Declared(f, v).value;
    MatchesIsManaged(m, h[r.address].kind, t);
    TypeOfListed(AllDefinitions(f), v);
    var e :| e in AllDefinitions(f) && e.value == v && e.definition.valueType == t;
  }

  lemma ModuleFunction(p: LoweredProgram, f: Function)
    requires f in p.m.functions && !f.retained
    ensures Accepted(f) && FunctionTyped(p.m, f)
  {
    assert FunctionOk(p.m, f) && FunctionTyped(p.m, f);
  }

  // ----- entry -----

  lemma EntryIsLiveOk(m: Module, h: Things, f: Function, env: map<ValueId, Reference>)
    requires IsPoint(GraphOf(f), Point(f.entry, 0))
    requires forall v :: Live(GraphOf(f), v, Point(f.entry, 0)) ==> v in DefsAt(GraphOf(f), Point(f.entry, 0))
    requires forall v :: v in DefsAt(GraphOf(f), Point(f.entry, 0)) ==> v in env && ValueOk(m, h, f, v, env[v])
    ensures LiveOk(m, h, f, Point(f.entry, 0), env)
  {
  }

  lemma EnteredOk(p: Program, h: Things, f: Function, env: map<ValueId, Reference>)
    requires f in p.m.functions && !f.retained && IsPoint(GraphOf(f), Point(f.entry, 0))
    requires LiveOk(p.m, h, f, Point(f.entry, 0), env)
    ensures FrameOk(p, h, Entered(f, env))
  {
  }

  /** Only parameters are live where a function of the module starts. */
  lemma EntryOfModule(p: LoweredProgram, f: Function)
    requires f in p.m.functions && !f.retained
    ensures IsPoint(GraphOf(f), Point(f.entry, 0))
    ensures forall v :: Live(GraphOf(f), v, Point(f.entry, 0)) ==> v in DefsAt(GraphOf(f), Point(f.entry, 0))
  {
    ModuleFunction(p, f);
    LiveOnEntryIsBound(f);
  }

  lemma InitialHolds(p: LoweredProgram, s: Machine)
    requires Initial(p, s)
    ensures Invariant(p, s)
  {
    var fr := s.frames[0];
    EntryOfModule(p, fr.fn);
    EntryIsLiveOk(p.m, All(p, s.heap), fr.fn, fr.env);
    EnteredOk(p, All(p, s.heap), fr.fn, fr.env);
  }

  // ----- what instructions handle has the types the verifier checked -----

  /** Frames of the module at an instruction. */
  ghost predicate AtCode(p: Program, fr: Frame) {
    && fr.fn in p.m.functions && !fr.fn.retained
    && IsPoint(GraphOf(fr.fn), fr.at) && !AtTerminator(GraphOf(fr.fn), fr.at)
  }

  lemma BlockAt(f: Function, at: Point) returns (b: Block)
    requires IsPoint(GraphOf(f), at)
    ensures b in f.blocks && b == GraphOf(f).blocks[at.block]
  {
    var i := BlockMapFrom(f.blocks, at.block);
    b := f.blocks[i];
  }

  lemma CodeIsTyped(p: LoweredProgram, fr: Frame)
    requires AtCode(p, fr)
    ensures InstructionTyped(p.m, fr.fn, Code(fr.fn, fr.at))
  {
    var b := BlockAt(fr.fn, fr.at);
    ModuleFunction(p, fr.fn);
    assert Contains(fr.fn, Code(fr.fn, fr.at));
  }

  /** The types of an instruction's operands. */
  function Types(fr: Frame, i: Instruction): seq<Type> { Given(OperandTypes(fr.fn, i)) }

  /** The operands of `i` hold what their types `ts` allow, and so does what is in hand. */
  ghost predicate Holding(m: Module, h: Things, fr: Frame, i: Instruction, ts: seq<Type>) {
    && |ts| == |i.operands| && HeldOk(m, h, fr.held)
    && forall j: nat, r {:trigger Carries(fr, i, j, r)} :: Carries(fr, i, j, r) ==> Holds(m, h, ts[j], r)
  }

  lemma OperandsHold(p: Program, h: Things, fr: Frame)
    requires AtCode(p, fr) && LiveOk(p.m, h, fr.fn, fr.at, fr.env) && HeldOk(p.m, h, fr.held)
    requires forall v :: v in Code(fr.fn, fr.at).operands ==> Declared(fr.fn, v).Some?
    ensures Holding(p.m, h, fr, Code(fr.fn, fr.at), Types(fr, Code(fr.fn, fr.at)))
  {
    var i := Code(fr.fn, fr.at);
    forall j: nat, r | Carries(fr, i, j, r) ensures Holds(p.m, h, Types(fr, i)[j], r) {
      UseIsLive(GraphOf(fr.fn), i.operands[j], fr.at);
    }
  }

  lemma FrameHolds(p: LoweredProgram, h: Things, fr: Frame)
    requires FrameOk(p, h, fr) && !AtTerminator(GraphOf(fr.fn), fr.at)
    ensures var i := Code(fr.fn, fr.at);
            Check(p.m, i, Types(fr, i), ResultTypes(i)).Pass? && Holding(p.m, h, fr, i, Types(fr, i))
  {
    CodeIsTyped(p, fr);
    OperandsHold(p, h, fr);
  }

  lemma OperandsAreHeld(p: Program, h: Things, fr: Frame)
    requires AtCode(p, fr) && LiveOk(p.m, h, fr.fn, fr.at, fr.env)
    ensures HeldOk(p.m, h, OperandItems(fr, Code(fr.fn, fr.at)))
  {
    var i := Code(fr.fn, fr.at);
    forall x | x in OperandItems(fr, i) ensures Holds(p.m, h, x.valueType, x.reference) {
      var v :| v in i.operands && v in fr.env && Declared(fr.fn, v).Some?
        && x == Item(Declared(fr.fn, v).value, fr.env[v]);
      UseIsLive(GraphOf(fr.fn), v, fr.at);
    }
  }

  lemma UpcastFits(m: Module, h: Things, i: Instruction, ts: seq<Type>, rs: seq<Type>, r: Reference)
    requires i.opcode.ClassUpcast? && Check(m, i, ts, rs).Pass? && Holds(m, h, ts[0], r)
    ensures Holds(m, h, rs[0], r)
  {
    if r.Object? {
      assert Inherits(m, ts[0].symbol, rs[0].symbol);
      InheritsOn(m, h[r.address].kind.class_, ts[0].symbol, rs[0].symbol);
    }
  }

  lemma FieldFits(m: Module, h: Things, i: Instruction, ts: seq<Type>, rs: seq<Type>, a: Address, k: nat)
    requires i.opcode.FieldLoad? && Check(m, i, ts, rs).Pass? && HeapOk(m, h) && Holds(m, h, ts[0], Object(a))
    requires IsField(h[a], i.symbol, k)
    ensures Holds(m, h, rs[0], h[a].slots[k].content)
  {
    assert ObjectOk(m, h, a);
    assert SlotOk(m, h[a].kind, h[a].slots[k]);
  }

  lemma ElementFits(m: Module, h: Things, i: Instruction, ts: seq<Type>, rs: seq<Type>, a: Address, k: nat)
    requires i.opcode.ArrayLoadChecked? && Check(m, i, ts, rs).Pass? && HeapOk(m, h) && Holds(m, h, ts[0], Object(a))
    requires k < |h[a].slots|
    ensures Holds(m, h, rs[0], h[a].slots[k].content)
  {
    assert ObjectOk(m, h, a);
    assert SlotOk(m, h[a].kind, h[a].slots[k]);
  }

  /** Every implementation of a slot returns what the call site expects. */
  lemma VirtualResult(m: Module, slot: Symbol, ts: seq<Type>, rs: seq<Type>, f: Function)
    requires VirtualRule(m, slot, ts, rs) && f in m.functions && f.dispatchSlot == Some(slot)
    ensures rs == ResultsOf(f.resultType)
  {
    var cs := Candidates(m.functions, slot);
    assert f in cs && SameAfterReceiver(f, cs[0]) && SameAfterReceiver(Signature(m, cs), cs[0]);
  }

  lemma CallFits(m: Module, i: Instruction, ts: seq<Type>, rs: seq<Type>, f: Function)
    requires i.opcode in {Call, CallDirect, CallUnsafe, CallVirtual} && Check(m, i, ts, rs).Pass? && MayCall(m, i, f)
    ensures rs == ResultsOf(f.resultType)
  {
    if i.opcode.CallVirtual? { VirtualResult(m, i.symbol, ts, rs, f); }
  }

  /** The instruction meets its rule, has operands of the types it asks for, and yields `r`. */
  ghost predicate Yielding(p: Program, h: Things, fr: Frame, i: Instruction, ts: seq<Type>, rs: seq<Type>,
                           r: Reference) {
    Check(p.m, i, ts, rs).Pass? && Holding(p.m, h, fr, i, ts) && HeapOk(p.m, h) && Yields(p, h, fr, i, r)
  }

  ghost predicate Fits(m: Module, h: Things, rs: seq<Type>, r: Reference) {
    forall t :: t in rs ==> Holds(m, h, t, r)
  }

  /** Whatever an instruction yields fits the declared type of its result. */
  lemma YieldFits(p: Program, h: Things, fr: Frame, i: Instruction, ts: seq<Type>, rs: seq<Type>, r: Reference)
    requires Yielding(p, h, fr, i, ts, rs, r)
    ensures Fits(p.m, h, rs, r)
  {
    if i.opcode == ClassUpcast || i.opcode == OptionalSome || i.opcode == OptionalGetChecked {
      CopyFits(p, h, fr, i, ts, rs, r);
    } else if i.opcode == FieldLoad {
      FieldLoadFits(p, h, fr, i, ts, rs, r);
    } else if i.opcode == ArrayLoadChecked {
      ElementLoadFits(p, h, fr, i, ts, rs, r);
    } else if i.opcode == Call || i.opcode == CallDirect || i.opcode == CallUnsafe || i.opcode == CallVirtual {
      ReturnFits(p, h, fr, i, ts, rs, r);
    } else {
      MadeFits(p, h, fr, i, ts, rs, r);
    }
  }

  lemma CopyFits(p: Program, h: Things, fr: Frame, i: Instruction, ts: seq<Type>, rs: seq<Type>, r: Reference)
    requires i.opcode == ClassUpcast || i.opcode == OptionalSome || i.opcode == OptionalGetChecked
    requires Yielding(p, h, fr, i, ts, rs, r)
    ensures Fits(p.m, h, rs, r)
  {
    assert Carries(fr, i, 0, r);
    if i.opcode == ClassUpcast { UpcastFits(p.m, h, i, ts, rs, r); }
  }

  lemma FieldLoadFits(p: Program, h: Things, fr: Frame, i: Instruction, ts: seq<Type>, rs: seq<Type>, r: Reference)
    requires i.opcode == FieldLoad && Yielding(p, h, fr, i, ts, rs, r)
    ensures Fits(p.m, h, rs, r)
  {
    var a, n: nat :| LoadsField(h, fr, i, a, n, r);
    FieldFits(p.m, h, i, ts, rs, a, n);
  }

  lemma ElementLoadFits(p: Program, h: Things, fr: Frame, i: Instruction, ts: seq<Type>, rs: seq<Type>, r: Reference)
    requires i.opcode == ArrayLoadChecked && Yielding(p, h, fr, i, ts, rs, r)
    ensures Fits(p.m, h, rs, r)
  {
    var a, n: nat :| LoadsElement(h, fr, i, a, n, r);
    ElementFits(p.m, h, i, ts, rs, a, n);
  }

  lemma ReturnFits(p: Program, h: Things, fr: Frame, i: Instruction, ts: seq<Type>, rs: seq<Type>, r: Reference)
    requires i.opcode == Call || i.opcode == CallDirect || i.opcode == CallUnsafe || i.opcode == CallVirtual
    requires Yielding(p, h, fr, i, ts, rs, r)
    ensures Fits(p.m, h, rs, r)
  {
    var f :| MayCall(p.m, i, f) && Gets(fr, f.resultType, r);
    CallFits(p.m, i, ts, rs, f);
  }

  lemma MadeFits(p: Program, h: Things, fr: Frame, i: Instruction, ts: seq<Type>, rs: seq<Type>, r: Reference)
    requires !(i.opcode == ClassUpcast || i.opcode == OptionalSome || i.opcode == OptionalGetChecked)
    requires i.opcode != FieldLoad && i.opcode != ArrayLoadChecked
    requires !(i.opcode == Call || i.opcode == CallDirect || i.opcode == CallUnsafe || i.opcode == CallVirtual)
    requires Yielding(p, h, fr, i, ts, rs, r)
    ensures Fits(p.m, h, rs, r)
  {
  }

  // ----- every step keeps the invariant -----

  lemma PlanOfFrame(p: LoweredProgram, fr: Frame)
    requires fr.fn in p.m.functions && !fr.fn.retained
    ensures fr.fn.id in p.plans && PlanOk(p.m, fr.fn, p.plans[fr.fn.id])
  {
    assert HasPlan(p, fr.fn);
  }

  lemma PlannedIsLive(m: Module, f: Function, plan: Plan, at: Point, v: ValueId)
    requires PlanOk(m, f, plan) && at in plan && v in plan[at]
    ensures v in ManagedIds(f) && Live(GraphOf(f), v, at)
  {
  }

  lemma LinksKept(p: Program, before: seq<Frame>, after: seq<Frame>)
    requires |before| == |after| && forall k :: 0 <= k < |before| ==> SamePlace(before[k], after[k], k == |before| - 1)
    requires AllLinked(p, before)
    ensures AllLinked(p, after)
  {
    forall k | 0 <= k < |after| - 1 ensures Linked(p, after, k) {
      assert Linked(p, before, k);
      assert SamePlace(before[k], after[k], false) && SamePlace(before[k + 1], after[k + 1], k + 1 == |before| - 1);
    }
  }

  /** The same function, and but for the top of the stack the same instruction under way. */
  ghost predicate SamePlace(a: Frame, b: Frame, top: bool) {
    a.fn == b.fn && (!top ==> a.at == b.at && a.busy == b.busy)
  }

  lemma LiveKept(m: Module, h: Things, j: Things, f: Function, at: Point, env: map<ValueId, Reference>)
    requires LiveOk(m, h, f, at, env) && Extends(h, j)
    ensures LiveOk(m, j, f, at, env)
  {
  }

  lemma FrameKept(p: Program, h: Things, j: Things, fr: Frame)
    requires FrameOk(p, h, fr) && Extends(h, j)
    ensures FrameOk(p, j, fr)
  {
    LiveKept(p.m, h, j, fr.fn, fr.at, fr.env);
  }

  /** Frames below the top are untouched by a step of the top that keeps the heap's objects. */
  lemma OthersKept(p: Program, s: Machine, t: Machine)
    requires Invariant(p, s) && MemoryOk(p, t) && |t.frames| == |s.frames|
    requires forall k :: 0 <= k < |s.frames| - 1 ==> t.frames[k] == s.frames[k]
    requires Top(t).fn == Top(s).fn && Extends(All(p, s.heap), All(p, t.heap))
    requires FrameOk(p, All(p, t.heap), Top(t))
    ensures Invariant(p, t)
  {
    forall k | 0 <= k < |t.frames| ensures FrameOk(p, All(p, t.heap), t.frames[k]) {
      assert FrameOk(p, All(p, s.heap), s.frames[k]);
      if k < |t.frames| - 1 {
        FrameKept(p, All(p, s.heap), All(p, t.heap), s.frames[k]);
      }
    }
    LinksKept(p, s.frames, t.frames);
  }

  lemma BeginKeeps(p: LoweredProgram, s: Machine, t: Machine)
    requires Invariant(p, s) && Begin(p, s, t)
    ensures Invariant(p, t)
  {
    var fr, h := Top(s), All(p, s.heap);
    assert FrameOk(p, h, s.frames[|s.frames| - 1]);
    PlanOfFrame(p, fr);
    var plan := p.plans[fr.fn.id];
    if fr.at in plan { PlannedAreBound(p, h, fr, plan); }
    OperandsAreHeld(p, h, fr);
    StartedOk(p, h, fr, plan);
    OthersKept(p, s, t);
  }

  lemma PlannedAreBound(p: Program, h: Things, fr: Frame, plan: Plan)
    requires PlanOk(p.m, fr.fn, plan) && fr.at in plan && LiveOk(p.m, h, fr.fn, fr.at, fr.env)
    ensures forall v :: v in plan[fr.at] ==> v in fr.env && KnownIn(h, fr.env[v])
  {
    forall v | v in plan[fr.at] ensures v in fr.env && KnownIn(h, fr.env[v]) {
      PlannedIsLive(p.m, fr.fn, plan, fr.at, v);
    }
  }

  lemma StartedOk(p: Program, h: Things, fr: Frame, plan: Plan)
    requires FrameOk(p, h, fr) && !AtTerminator(GraphOf(fr.fn), fr.at)
    requires fr.fn.id in p.plans && plan == p.plans[fr.fn.id]
    requires HeldOk(p.m, h, OperandItems(fr, Code(fr.fn, fr.at)))
    requires fr.at in plan ==> forall v :: v in plan[fr.at] ==> v in fr.env && KnownIn(h, fr.env[v])
    ensures FrameOk(p, h, Started(fr, plan))
  {
  }

  /** More references in hand, or another one in slot zero, as long as they are what they should be. */
  lemma HoldingMore(p: Program, h: Things, fr: Frame, fr': Frame)
    requires FrameOk(p, h, fr) && fr' == fr.(held := fr'.held, slotZero := fr'.slotZero)
    requires HeldOk(p.m, h, fr'.held) && KnownIn(h, fr'.slotZero)
    ensures FrameOk(p, h, fr')
  {
  }

  lemma CreateKeeps(p: LoweredProgram, s: Machine, t: Machine, a: Address, thing: Thing)
    requires Invariant(p, s) && Create(p, s, t, a, thing)
    ensures Invariant(p, t)
  {
    var h, j := All(p, s.heap), All(p, t.heap);
    assert j == h[a := thing];
    HeapGrows(p.m, h, a, thing);
    assert FrameOk(p, h, s.frames[|s.frames| - 1]);
    FrameKept(p, h, j, Top(s));
    KindMatches(p.m, thing.kind);
    HoldingMore(p, j, Top(s), Top(t));
    OthersKept(p, s, t);
  }

  /** The instruction meets its rule, has operands of the types it asks for, and stores `r`. */
  ghost predicate Storing(p: Program, heap: Things, fr: Frame, i: Instruction, ts: seq<Type>, rs: seq<Type>, a: Address,
                          k: nat, r: Reference)
  {
    && Check(p.m, i, ts, rs).Pass? && Holding(p.m, All(p, heap), fr, i, ts)
    && a in heap && k < |heap[a].slots| && SlotOk(p.m, heap[a].kind, heap[a].slots[k])
    && Stores(p, heap, fr, i, a, k, r)
  }

  lemma OperandStoreFits(p: Program, heap: Things, fr: Frame, i: Instruction, ts: seq<Type>, rs: seq<Type>, a: Address,
                         k: nat, r: Reference)
    requires i.opcode == FieldStore || i.opcode == ArrayStoreChecked
    requires Storing(p, heap, fr, i, ts, rs, a, k, r)
    ensures Holds(p.m, All(p, heap), heap[a].slots[k].valueType, r)
  {
    assert Carries(fr, i, 0, Object(a));
    assert Carries(fr, i, if i.opcode == FieldStore then 1 else 2, r);
  }

  lemma ElementStoreFits(p: Program, heap: Things, fr: Frame, i: Instruction, ts: seq<Type>, rs: seq<Type>, a: Address,
                         k: nat, r: Reference)
    requires i.opcode == ArrayNew && Storing(p, heap, fr, i, ts, rs, a, k, r)
    ensures Holds(p.m, All(p, heap), heap[a].slots[k].valueType, r)
  {
    var j: nat :| Carries(fr, i, j, r);
    assert ts[j] in ts;
  }

  /** What an instruction stores fits the slot it stores to. */
  lemma StoreFits(p: Program, heap: Things, fr: Frame, i: Instruction, ts: seq<Type>, rs: seq<Type>, a: Address, k: nat,
                  r: Reference)
    requires Storing(p, heap, fr, i, ts, rs, a, k, r)
    ensures Holds(p.m, All(p, heap), heap[a].slots[k].valueType, r)
  {
    if i.opcode == FieldStore || i.opcode == ArrayStoreChecked {
      OperandStoreFits(p, heap, fr, i, ts, rs, a, k, r);
    } else if i.opcode == ArrayNew {
      ElementStoreFits(p, heap, fr, i, ts, rs, a, k, r);
    }
  }

  lemma WriteKeeps(p: LoweredProgram, s: Machine, t: Machine, a: Address, k: nat, r: Reference)
    requires Invariant(p, s) && Write(p, s, t, a, k, r)
    ensures Invariant(p, t)
  {
    WriteFits(p, s, t, a, k, r);
    WrittenKeeps(p, s, t, a, k, r);
  }

  lemma WrittenKeeps(p: Program, s: Machine, t: Machine, a: Address, k: nat, r: Reference)
    requires Invariant(p, s) && a in s.heap && k < |s.heap[a].slots|
    requires Holds(p.m, All(p, s.heap), s.heap[a].slots[k].valueType, r)
    requires t == s.(heap := s.heap[a := WithSlot(s.heap[a], k, r)])
    ensures Invariant(p, t)
  {
    var h, j := All(p, s.heap), All(p, t.heap);
    assert FrameOk(p, h, s.frames[|s.frames| - 1]);
    assert j == h[a := WithSlot(h[a], k, r)];
    HeapWritten(p.m, h, a, k, r);
    FrameKept(p, h, j, Top(s));
    OthersKept(p, s, t);
  }

  lemma WriteFits(p: LoweredProgram, s: Machine, t: Machine, a: Address, k: nat, r: Reference)
    requires Invariant(p, s) && Write(p, s, t, a, k, r)
    ensures a in s.heap && k < |s.heap[a].slots| && Holds(p.m, All(p, s.heap), s.heap[a].slots[k].valueType, r)
    ensures t == s.(heap := s.heap[a := WithSlot(s.heap[a], k, r)])
  {
    var fr := Top(s);
    var i := Code(fr.fn, fr.at);
    assert FrameOk(p, All(p, s.heap), s.frames[|s.frames| - 1]);
    FrameHolds(p, All(p, s.heap), fr);
    assert ObjectOk(p.m, All(p, s.heap), a);
    StoreFits(p, s.heap, fr, i, Types(fr, i), ResultTypes(i), a, k, r);
  }

  /** What is loaded from an object in hand exists and has the slot's type. */
  lemma LoadKeeps(p: Program, s: Machine, t: Machine, a: Address, k: nat)
    requires Invariant(p, s) && Load(p, s, t, a, k)
    ensures Invariant(p, t)
  {
    assert FrameOk(p, All(p, s.heap), s.frames[|s.frames| - 1]);
    assert ObjectOk(p.m, All(p, s.heap), a);
    HoldingMore(p, All(p, s.heap), Top(s), Top(t));
    OthersKept(p, s, t);
  }

  lemma ViewKeeps(p: Program, s: Machine, t: Machine, x: Item)
    requires Invariant(p, s) && View(p, s, t, x)
    ensures Invariant(p, t)
  {
    assert FrameOk(p, All(p, s.heap), s.frames[|s.frames| - 1]);
    HoldingMore(p, All(p, s.heap), Top(s), Top(t));
    OthersKept(p, s, t);
  }

  lemma PinKeeps(p: Program, s: Machine, t: Machine)
    requires Invariant(p, s) && Pin(p, s, t)
    ensures Invariant(p, t)
  {
    assert FrameOk(p, All(p, s.heap), s.frames[|s.frames| - 1]);
    OthersKept(p, s, t);
  }

  // ----- collections -----

  lemma BlockOfFrame(p: LoweredProgram, fr: Frame) returns (b: Block)
    requires fr.fn in p.m.functions && !fr.fn.retained && Executing(fr)
    ensures BlockEffectsOk(p.m, fr.fn, b) && Code(fr.fn, fr.at) in b.instructions
  {
    b := BlockAt(fr.fn, fr.at);
    BlockIsCharged(p, fr.fn, b);
  }

  lemma BlockIsCharged(p: LoweredProgram, f: Function, b: Block)
    requires f in p.m.functions && !f.retained && b in f.blocks
    ensures BlockEffectsOk(p.m, f, b)
  {
    assert FunctionOk(p.m, f);
  }

  /** An instruction that collects by itself, or through trusted code, was charged for it. */
  lemma CollectorIsCharged(p: LoweredProgram, fr: Frame)
    requires fr.fn in p.m.functions && !fr.fn.retained && Executing(fr) && CollectsNow(p.m, Code(fr.fn, fr.at))
    ensures MayCollect(fr.fn) && CanCollect(p.m, Code(fr.fn, fr.at))
  {
    var b := BlockOfFrame(p, fr);
    var i := Code(fr.fn, fr.at);
    if CollectsItself(p.m, i) {
      OwnCollectionCharged(p.m, fr.fn, b, i);
    } else {
      var callee :| MayEnter(p.m, i, callee) && callee.retained && MayCollect(callee);
      CollectingEntryCharged(p.m, fr.fn, b, i, callee);
    }
  }

  lemma CallerIsCharged(p: LoweredProgram, caller: Frame, callee: Frame)
    requires caller.fn in p.m.functions && !caller.fn.retained && Calling(p, caller, callee) && MayCollect(callee.fn)
    ensures MayCollect(caller.fn) && CanCollect(p.m, Code(caller.fn, caller.at))
  {
    var b := BlockOfFrame(p, caller);
    CollectingEntryCharged(p.m, caller.fn, b, Code(caller.fn, caller.at), callee.fn);
  }

  /** While the top frame collects, every frame below has a collecting function and stands at a planned instruction. */
  lemma {:induction false} CollectionIsCharged(p: LoweredProgram, s: Machine, k: nat)
    requires Invariant(p, s) && k < |s.frames|
    requires Executing(Top(s)) && CollectsNow(p.m, Code(Top(s).fn, Top(s).at))
    ensures MayCollect(s.frames[k].fn) && Executing(s.frames[k])
    ensures CanCollect(p.m, Code(s.frames[k].fn, s.frames[k].at))
    decreases |s.frames| - k
  {
    assert FrameOk(p, All(p, s.heap), s.frames[k]);
    if k == |s.frames| - 1 {
      CollectorIsCharged(p, s.frames[k]);
    } else {
      CollectionIsCharged(p, s, k + 1);
      assert Linked(p, s.frames, k);
      CallerIsCharged(p, s.frames[k], s.frames[k + 1]);
    }
  }

  /** A collection point of a collecting function has a plan. */
  lemma ChargedIsPlanned(p: LoweredProgram, fr: Frame)
    requires fr.fn in p.m.functions && !fr.fn.retained && Executing(fr)
    requires MayCollect(fr.fn) && CanCollect(p.m, Code(fr.fn, fr.at))
    ensures fr.fn.id in p.plans && fr.at in p.plans[fr.fn.id]
    ensures forall v :: v in p.plans[fr.fn.id][fr.at] <==> v in ManagedIds(fr.fn) && Live(GraphOf(fr.fn), v, fr.at)
  {
    PlanOfFrame(p, fr);
    assert Collects(p.m, GraphOf(fr.fn), fr.at);
  }

  /** A frame that generates an array has a root frame, so it has a slot zero. */
  lemma GeneratorHasSlotZero(p: LoweredProgram, fr: Frame)
    requires fr.fn in p.m.functions && !fr.fn.retained && Executing(fr) && Code(fr.fn, fr.at).opcode.ArrayGenerate?
    ensures fr.fn.id in p.plans && fr.at in p.plans[fr.fn.id]
  {
    CollectorIsCharged(p, fr);
    ChargedIsPlanned(p, fr);
  }

  /** Whatever live value holds an object, it is in a root slot when a collection happens. */
  lemma LiveIsRooted(p: LoweredProgram, s: Machine, k: nat, v: ValueId)
    requires Invariant(p, s) && k < |s.frames|
    requires Executing(Top(s)) && CollectsNow(p.m, Code(Top(s).fn, Top(s).at))
    requires Live(GraphOf(s.frames[k].fn), v, s.frames[k].at)
    ensures v in s.frames[k].env && (s.frames[k].env[v].Object? ==> s.frames[k].env[v] in Roots(s))
  {
    var fr := s.frames[k];
    assert FrameOk(p, All(p, s.heap), s.frames[k]);
    if fr.env[v].Object? {
      CollectionIsCharged(p, s, k);
      HolderIsManaged(p.m, All(p, s.heap), fr.fn, v, fr.env[v]);
      PlannedIsRooted(p, s, fr, v);
    }
  }

  lemma PlannedIsRooted(p: LoweredProgram, s: Machine, fr: Frame, v: ValueId)
    requires fr in s.frames && fr.fn in p.m.functions && !fr.fn.retained && Executing(fr) && Published(p, fr)
    requires MayCollect(fr.fn) && CanCollect(p.m, Code(fr.fn, fr.at))
    requires v in ManagedIds(fr.fn) && Live(GraphOf(fr.fn), v, fr.at)
    ensures v in fr.env && fr.env[v] in Roots(s)
  {
    ChargedIsPlanned(p, fr);
    assert v in p.plans[fr.fn.id][fr.at];
  }

  /** All objects a frame still needs are among the roots of the stack. */
  ghost predicate Rooted(s: Machine, fr: Frame) {
    forall v :: Live(GraphOf(fr.fn), v, fr.at) ==> v in fr.env && (fr.env[v].Object? ==> fr.env[v] in Roots(s))
  }

  lemma FrameIsRooted(p: LoweredProgram, s: Machine, k: nat)
    requires Invariant(p, s) && Executing(Top(s)) && CollectsNow(p.m, Code(Top(s).fn, Top(s).at)) && k < |s.frames|
    ensures Rooted(s, s.frames[k])
  {
    forall v | Live(GraphOf(s.frames[k].fn), v, s.frames[k].at)
      ensures v in s.frames[k].env && (s.frames[k].env[v].Object? ==> s.frames[k].env[v] in Roots(s))
    {
      LiveIsRooted(p, s, k, v);
    }
  }

  lemma StackIsRooted(p: LoweredProgram, s: Machine)
    requires Invariant(p, s) && Executing(Top(s)) && CollectsNow(p.m, Code(Top(s).fn, Top(s).at))
    ensures forall k :: 0 <= k < |s.frames| ==> Rooted(s, s.frames[k])
  {
    forall k | 0 <= k < |s.frames| ensures Rooted(s, s.frames[k]) {
      FrameIsRooted(p, s, k);
    }
  }

  /** A root of the collection is still there afterwards, with its kind. */
  lemma RootSurvives(p: Program, s: Machine, r: Reference)
    requires r in Roots(s) && KnownIn(All(p, s.heap), r)
    ensures KnownIn(All(p, Collected(s.heap, Roots(s))), r)
    ensures r.Object? ==> All(p, Collected(s.heap, Roots(s)))[r.address].kind == All(p, s.heap)[r.address].kind
  {
    if r.Object? && r.address in s.heap {
      RootIsReachable(TracedStore(s.heap), Roots(s), r.address);
    }
  }

  lemma RootHolds(p: Program, s: Machine, t: Type, r: Reference)
    requires Holds(p.m, All(p, s.heap), t, r) && (r.Object? ==> r in Roots(s))
    ensures Holds(p.m, All(p, Collected(s.heap, Roots(s))), t, r)
  {
    if r.Object? { RootSurvives(p, s, r); }
  }

  lemma CollectKeeps(p: LoweredProgram, s: Machine, t: Machine)
    requires Invariant(p, s) && Collect(p, s, t)
    ensures Invariant(p, t)
  {
    StackIsRooted(p, s);
    RootsAreKnown(p, s);
    CollectionKeepsHeap(p.m, p.outer, s.heap, Roots(s));
    forall r | r in s.pinned ensures KnownIn(All(p, t.heap), r) { RootSurvives(p, s, r); }
    forall k | 0 <= k < |t.frames| ensures FrameOk(p, All(p, t.heap), t.frames[k]) {
      assert FrameOk(p, All(p, s.heap), s.frames[k]);
      CollectKeepsFrame(p, s, s.frames[k]);
    }
    LinksKept(p, s.frames, t.frames);
  }

  lemma CollectKeepsFrame(p: Program, s: Machine, fr: Frame)
    requires fr in s.frames && FrameOk(p, All(p, s.heap), fr) && Rooted(s, fr)
    ensures FrameOk(p, All(p, Collected(s.heap, Roots(s))), fr.(held := RootedItems(fr.held, Roots(s))))
  {
    var j := All(p, Collected(s.heap, Roots(s)));
    CollectKeepsLive(p, s, fr);
    forall r | r in fr.slots ensures KnownIn(j, r) { RootSurvives(p, s, r); }
    RootSurvives(p, s, fr.slotZero);
    forall x | x in RootedItems(fr.held, Roots(s)) ensures Holds(p.m, j, x.valueType, x.reference) {
      RootHolds(p, s, x.valueType, x.reference);
    }
  }

  lemma CollectKeepsLive(p: Program, s: Machine, fr: Frame)
    requires LiveOk(p.m, All(p, s.heap), fr.fn, fr.at, fr.env) && Rooted(s, fr)
    ensures LiveOk(p.m, All(p, Collected(s.heap, Roots(s))), fr.fn, fr.at, fr.env)
  {
    var j := All(p, Collected(s.heap, Roots(s)));
    forall v | Live(GraphOf(fr.fn), v, fr.at) ensures v in fr.env && ValueOk(p.m, j, fr.fn, v, fr.env[v]) {
      if fr.env[v].Object? { RootHolds(p, s, Declared(fr.fn, v).value, fr.env[v]); }
    }
  }

  /** An array being generated outlives every collection of its callbacks, and stays in its generator's hand. */
  lemma GeneratedSurvives(p: Program, s: Machine, t: Machine, k: nat, a: Address, u: Type)
    requires Collect(p, s, t) && k < |s.frames| && s.frames[k].slotZero == Object(a) && a in s.heap
    ensures a in t.heap && t.heap[a] == s.heap[a] && t.frames[k].slotZero == Object(a)
    ensures Item(u, Object(a)) in s.frames[k].held ==> Item(u, Object(a)) in t.frames[k].held
  {
    assert s.frames[k] in s.frames && Object(a) in Roots(s);
    RootIsReachable(TracedStore(s.heap), Roots(s), a);
  }

  // ----- calls -----

  /** Every implementation of a slot takes, after its receiver, what the call site passes. */
  lemma VirtualParameter(m: Module, slot: Symbol, ts: seq<Type>, rs: seq<Type>, f: Function, k: nat)
    requires VirtualRule(m, slot, ts, rs) && f in m.functions && f.dispatchSlot == Some(slot)
    requires 0 < k < |f.parameterTypes|
    ensures var n := if f.unsafeCall then k + 1 else k; n < |ts| && ts[n] == f.parameterTypes[k]
  {
    var cs := Candidates(m.functions, slot);
    var g := Signature(m, cs);
    assert f in cs && SameAfterReceiver(f, cs[0]) && SameAfterReceiver(g, cs[0]);
    assert f.parameterTypes[1..][k - 1] == g.parameterTypes[1..][k - 1];
  }

  ghost predicate IsVirtual(i: Instruction) {
    i.opcode == CallVirtual || i.opcode == ArrayGenerate || i.opcode == TaskGenerate
  }

  /** A generator's callback takes its receiver and an index. */
  lemma CallbackParameter(m: Module, slot: Symbol, ts: seq<Type>, rs: seq<Type>, f: Function, k: nat)
    requires |ts| == 2 && ts[1] == Int && VirtualRule(m, slot, ts, rs)
    requires f in m.functions && f.dispatchSlot == Some(slot) && 0 < k < |f.parameterTypes|
    ensures f.parameterTypes[k] == Int
  {
    VirtualParameter(m, slot, ts, rs, f, k);
    var cs := Candidates(m.functions, slot);
    assert f in cs && SameAfterReceiver(f, cs[0]) && SameAfterReceiver(Signature(m, cs), cs[0]);
  }

  lemma DirectArgument(m: Module, i: Instruction, ts: seq<Type>, rs: seq<Type>, f: Function, k: nat)
    requires i.opcode == Call || i.opcode == CallDirect || i.opcode == CallUnsafe
    requires Check(m, i, ts, rs).Pass? && MayCall(m, i, f) && k < |f.parameterTypes|
    ensures Argument(i, f, k).Some? && Argument(i, f, k).value < |ts|
            && ts[Argument(i, f, k).value] == f.parameterTypes[k]
  {
    assert ts == Capability(i.opcode == CallUnsafe) + f.parameterTypes;
  }

  lemma VirtualArgument(m: Module, i: Instruction, ts: seq<Type>, rs: seq<Type>, f: Function, k: nat)
    requires IsVirtual(i) && Check(m, i, ts, rs).Pass? && MayCall(m, i, f) && 0 < k < |f.parameterTypes|
    ensures Argument(i, f, k).Some? && Argument(i, f, k).value < |ts|
            && ts[Argument(i, f, k).value] == f.parameterTypes[k]
  {
    if i.opcode == CallVirtual {
      VirtualParameter(m, i.symbol, ts, rs, f, k);
    } else if i.opcode == ArrayGenerate {
      CallbackParameter(m, i.symbol, [ts[1], ts[0]], [i.typeArguments[0]], f, k);
    } else {
      CallbackParameter(m, i.symbol, [ts[3], ts[1]], [i.typeArguments[0]], f, k);
    }
  }

  ghost predicate Passing(p: Program, h: Things, fr: Frame, i: Instruction, ts: seq<Type>, rs: seq<Type>, f: Function,
                          k: nat, r: Reference)
  {
    && Check(p.m, i, ts, rs).Pass? && Holding(p.m, h, fr, i, ts) && MayEnter(p.m, i, f) && k < |f.parameterTypes|
    && Passes(fr, i, f, k, r) && (k == 0 ==> Dispatches(p, h, i, f, r))
  }

  lemma DirectFits(p: Program, h: Things, fr: Frame, i: Instruction, ts: seq<Type>, rs: seq<Type>, f: Function, k: nat,
                   r: Reference)
    requires i.opcode == Call || i.opcode == CallDirect || i.opcode == CallUnsafe
    requires Passing(p, h, fr, i, ts, rs, f, k, r)
    ensures Holds(p.m, h, f.parameterTypes[k], r)
  {
    DirectArgument(p.m, i, ts, rs, f, k);
    assert Carries(fr, i, Argument(i, f, k).value, r);
  }

  lemma VirtualFits(p: Program, h: Things, fr: Frame, i: Instruction, ts: seq<Type>, rs: seq<Type>, f: Function, k: nat,
                    r: Reference)
    requires IsVirtual(i) && k > 0 && Passing(p, h, fr, i, ts, rs, f, k, r)
    ensures Holds(p.m, h, f.parameterTypes[k], r)
  {
    VirtualArgument(p.m, i, ts, rs, f, k);
    assert Carries(fr, i, Argument(i, f, k).value, r);
  }

  /** What a parameter receives fits its type. */
  lemma ArgumentFits(p: Program, h: Things, fr: Frame, i: Instruction, ts: seq<Type>, rs: seq<Type>, f: Function,
                     k: nat,
                     r: Reference)
    requires Passing(p, h, fr, i, ts, rs, f, k, r)
    ensures Holds(p.m, h, f.parameterTypes[k], r)
  {
    if i.opcode == Call || i.opcode == CallDirect || i.opcode == CallUnsafe {
      DirectFits(p, h, fr, i, ts, rs, f, k, r);
    } else if IsVirtual(i) && k > 0 {
      VirtualFits(p, h, fr, i, ts, rs, f, k, r);
    }
  }

  /** The parameters of the entry block are those of the signature. */
  lemma EntryParameters(f: Function)
    requires Accepted(f)
    ensures f.entry in BlockMap(f.blocks)
    ensures var ps := BlockMap(f.blocks)[f.entry].parameters;
            |ps| == |f.parameterTypes| && forall k :: 0 <= k < |ps| ==> ps[k].valueType == f.parameterTypes[k]
  {
    BlockMapAt(f.blocks, 0);
  }

  /** A value bound on entry is a parameter, or the capability of an unsafe function. */
  lemma BoundOnEntry(f: Function, v: ValueId) returns (k: nat)
    requires f.entry in BlockMap(f.blocks)
    requires IsPoint(GraphOf(f), Point(f.entry, 0)) && v in DefsAt(GraphOf(f), Point(f.entry, 0))
    ensures var ps := BlockMap(f.blocks)[f.entry].parameters;
            (k < |ps| && ps[k].id == v) || (f.unsafeRoot.Some? && v == f.unsafeRoot.value.id)
  {
    k := 0;
    var ps := BlockMap(f.blocks)[f.entry].parameters;
    if v in Ids(ps) { k := Position(ps, v); }
  }

  lemma Position(ds: seq<ValueDefinition>, v: ValueId) returns (k: nat)
    requires v in Ids(ds)
    ensures k < |ds| && ds[k].id == v
  {
    var d :| d in ds && d.id == v;
    k :| 0 <= k < |ds| && ds[k] == d;
  }

  /** What parameter `k` receives exists and has its type. */
  lemma ParameterIsOk(p: LoweredProgram, h: Things, fr: Frame, callee: Frame, k: nat)
    requires FrameOk(p, h, fr) && Executing(fr) && MayEnter(p.m, Code(fr.fn, fr.at), callee.fn)
    requires Passed(p, h, fr, callee) && Accepted(callee.fn) && k < |callee.fn.parameterTypes|
    ensures callee.fn.entry in BlockMap(callee.fn.blocks)
    ensures var ps := BlockMap(callee.fn.blocks)[callee.fn.entry].parameters;
            && k < |ps| && ps[k].id in callee.env
            && Holds(p.m, h, callee.fn.parameterTypes[k], callee.env[ps[k].id])
  {
    var f, i := callee.fn, Code(fr.fn, fr.at);
    EntryParameters(f);
    var ps := BlockMap(f.blocks)[f.entry].parameters;
    FrameHolds(p, h, fr);
    ArgumentFits(p, h, fr, i, Types(fr, i), ResultTypes(i), f, k, callee.env[ps[k].id]);
  }

  lemma PassedIsOk(p: LoweredProgram, h: Things, fr: Frame, callee: Frame, v: ValueId)
    requires FrameOk(p, h, fr) && Executing(fr) && MayEnter(p.m, Code(fr.fn, fr.at), callee.fn)
    requires Passed(p, h, fr, callee) && Accepted(callee.fn)
    requires var f := callee.fn; IsPoint(GraphOf(f), Point(f.entry, 0)) && v in DefsAt(GraphOf(f), Point(f.entry, 0))
    ensures v in callee.env && ValueOk(p.m, h, callee.fn, v, callee.env[v])
  {
    var f := callee.fn;
    EntryParameters(f);
    var ps := BlockMap(f.blocks)[f.entry].parameters;
    var k := BoundOnEntry(f, v);
    if k < |ps| && ps[k].id == v {
      ParameterIsOk(p, h, fr, callee, k);
      DefinedType(f, Point(f.entry, 0), ps[k]);
    }
  }

  lemma CalleeOk(p: LoweredProgram, h: Things, fr: Frame, callee: Frame)
    requires FrameOk(p, h, fr) && Executing(fr) && MayEnter(p.m, Code(fr.fn, fr.at), callee.fn)
    requires Passed(p, h, fr, callee)
    requires callee.fn in p.m.functions && !callee.fn.retained && callee == Entered(callee.fn, callee.env)
    ensures FrameOk(p, h, callee)
  {
    var f := callee.fn;
    EntryOfModule(p, f);
    ModuleFunction(p, f);
    forall v | v in DefsAt(GraphOf(f), Point(f.entry, 0))
      ensures v in callee.env && ValueOk(p.m, h, f, v, callee.env[v]) {
      PassedIsOk(p, h, fr, callee, v);
    }
    EntryIsLiveOk(p.m, h, f, callee.env);
    EnteredOk(p, h, f, callee.env);
  }

  lemma InvokeKeeps(p: LoweredProgram, s: Machine, t: Machine)
    requires Invariant(p, s) && Invoke(p, s, t)
    ensures Invariant(p, t)
  {
    assert FrameOk(p, All(p, s.heap), s.frames[|s.frames| - 1]);
    CalleeOk(p, All(p, s.heap), Top(s), Top(t));
    PushedKeeps(p, s, t);
  }

  lemma PushedKeeps(p: Program, s: Machine, t: Machine)
    requires Invariant(p, s) && t.frames != [] && t == s.(frames := s.frames + [Top(t)])
    requires FrameOk(p, All(p, s.heap), Top(t)) && Calling(p, Top(s), Top(t))
    ensures Invariant(p, t)
  {
    var n, h := |s.frames| - 1, All(p, s.heap);
    forall k | 0 <= k < |t.frames| ensures FrameOk(p, h, t.frames[k]) {
      if k <= n { assert FrameOk(p, h, s.frames[k]); }
    }
    forall k | 0 <= k < |t.frames| - 1 ensures Linked(p, t.frames, k) {
      if k < n { assert Linked(p, s.frames, k); }
    }
  }

  lemma ReturnedHolds(p: LoweredProgram, h: Things, fr: Frame)
    requires FrameOk(p, h, fr) && AtTerminator(GraphOf(fr.fn), fr.at)
    requires GraphOf(fr.fn).blocks[fr.at.block].ending.Return?
    ensures HeldOk(p.m, h, ReturnedBy(fr, GraphOf(fr.fn).blocks[fr.at.block].ending))
  {
    var ending := GraphOf(fr.fn).blocks[fr.at.block].ending;
    if ending.value.Some? {
      ReturnType(p, fr, ending.value.value);
      UseIsLive(GraphOf(fr.fn), ending.value.value, fr.at);
    }
  }

  lemma ReturnType(p: LoweredProgram, fr: Frame, v: ValueId)
    requires fr.fn in p.m.functions && !fr.fn.retained && IsPoint(GraphOf(fr.fn), fr.at)
    requires GraphOf(fr.fn).blocks[fr.at.block].ending == Return(Some(v))
    ensures Declared(fr.fn, v) == Some(fr.fn.resultType)
  {
    ModuleFunction(p, fr.fn);
    var b := BlockAt(fr.fn, fr.at);
    assert EndingTyped(fr.fn, b.ending);
    DeclaredIs(fr.fn, v, fr.fn.resultType);
  }

  lemma LeaveKeeps(p: LoweredProgram, s: Machine, t: Machine)
    requires Invariant(p, s) && Leave(p, s, t)
    ensures Invariant(p, t)
  {
    var n, h := |s.frames| - 1, All(p, s.heap);
    assert FrameOk(p, h, s.frames[n]) && FrameOk(p, h, s.frames[n - 1]);
    ReturnedHolds(p, h, s.frames[n]);
    HoldingMore(p, h, s.frames[n - 1], t.frames[n - 1]);
    forall k | 0 <= k < |t.frames| ensures FrameOk(p, h, t.frames[k]) {
      assert FrameOk(p, h, s.frames[k]);
    }
    forall k | 0 <= k < |t.frames| - 1 ensures Linked(p, t.frames, k) {
      assert Linked(p, s.frames, k);
    }
  }

  // ----- results and branches -----

  /** Every result exists and has its declared type. */
  lemma ResultIsOk(p: LoweredProgram, h: Things, fr: Frame, env: map<ValueId, Reference>, v: ValueId)
    requires FrameOk(p, h, fr) && Executing(fr) && HeapOk(p.m, h)
    requires Results(p, h, fr, Code(fr.fn, fr.at), env) && v in Ids(Code(fr.fn, fr.at).results)
    ensures v in env && ValueOk(p.m, h, fr.fn, v, env[v])
  {
    var i := Code(fr.fn, fr.at);
    var k := Position(i.results, v);
    ResultFits(p, h, fr, env[v]);
    assert ResultTypes(i)[k] in ResultTypes(i);
    ResultType(p, fr, k);
  }

  lemma ResultFits(p: LoweredProgram, h: Things, fr: Frame, r: Reference)
    requires FrameOk(p, h, fr) && Executing(fr) && HeapOk(p.m, h) && Yields(p, h, fr, Code(fr.fn, fr.at), r)
    ensures Fits(p.m, h, ResultTypes(Code(fr.fn, fr.at)), r)
  {
    var i := Code(fr.fn, fr.at);
    FrameHolds(p, h, fr);
    YieldFits(p, h, fr, i, Types(fr, i), ResultTypes(i), r);
  }

  lemma ResultType(p: LoweredProgram, fr: Frame, k: nat)
    requires AtCode(p, fr) && k < |Code(fr.fn, fr.at).results|
    ensures var d := Code(fr.fn, fr.at).results[k]; Declared(fr.fn, d.id) == Some(d.valueType)
  {
    ModuleType(p, fr.fn, Point(fr.at.block, fr.at.index + 1), Code(fr.fn, fr.at).results[k]);
  }

  lemma ModuleType(p: LoweredProgram, f: Function, at: Point, d: ValueDefinition)
    requires f in p.m.functions && !f.retained && IsPoint(GraphOf(f), at)
    requires var b := GraphOf(f).blocks[at.block];
             d in if at.index == 0 then b.parameters else b.instructions[at.index - 1].results
    ensures Declared(f, d.id) == Some(d.valueType)
  {
    ModuleFunction(p, f);
    DefinedType(f, at, d);
  }

  lemma FinishKeepsFrame(p: LoweredProgram, h: Things, fr: Frame, fr': Frame)
    requires FrameOk(p, h, fr) && Executing(fr) && HeapOk(p.m, h)
    requires fr' == fr.(at := Point(fr.at.block, fr.at.index + 1), env := fr'.env, busy := false, held := {})
    requires Results(p, h, fr, Code(fr.fn, fr.at), fr'.env)
    ensures FrameOk(p, h, fr')
  {
    var g := GraphOf(fr.fn);
    assert Step(g, fr.at, fr'.at);
    forall v | Live(g, v, fr'.at) ensures v in fr'.env && ValueOk(p.m, h, fr.fn, v, fr'.env[v]) {
      if v in Ids(Code(fr.fn, fr.at).results) {
        ResultIsOk(p, h, fr, fr'.env, v);
      } else {
        StepKeepsLive(g, v, fr.at, fr'.at);
      }
    }
  }

  lemma FinishKeeps(p: LoweredProgram, s: Machine, t: Machine)
    requires Invariant(p, s) && Finish(p, s, t)
    ensures Invariant(p, t)
  {
    assert FrameOk(p, All(p, s.heap), s.frames[|s.frames| - 1]);
    FinishKeepsFrame(p, All(p, s.heap), Top(s), Top(t));
    OthersKept(p, s, t);
  }

  /** The argument bound to a parameter has the parameter's type. */
  lemma ArgumentType(p: LoweredProgram, fr: Frame, e: Edge, k: nat)
    requires fr.fn in p.m.functions && !fr.fn.retained && IsPoint(GraphOf(fr.fn), fr.at)
    requires e in EdgesOf(GraphOf(fr.fn).blocks[fr.at.block].ending) && EdgeOk(GraphOf(fr.fn), e) && k < |e.arguments|
    ensures var d := GraphOf(fr.fn).blocks[e.target].parameters[k];
            Declared(fr.fn, d.id) == Some(d.valueType) == Declared(fr.fn, e.arguments[k])
  {
    var f, d := fr.fn, GraphOf(fr.fn).blocks[e.target].parameters[k];
    ModuleFunction(p, f);
    var b := BlockAt(f, fr.at);
    assert Typed(f, e);
    DeclaredIs(f, e.arguments[k], d.valueType);
    DefinedType(f, Point(e.target, 0), d);
  }

  lemma PassedIsRead(es: seq<Edge>, e: Edge, v: ValueId)
    requires e in es && v in e.arguments
    ensures v in ArgumentsOf(es)
  {
  }

  lemma JumpKeepsValue(p: LoweredProgram, h: Things, fr: Frame, e: Edge, fr': Frame, v: ValueId)
    requires FrameOk(p, h, fr) && AtTerminator(GraphOf(fr.fn), fr.at)
    requires e in EdgesOf(GraphOf(fr.fn).blocks[fr.at.block].ending) && Bound(fr, e, fr')
    requires Live(GraphOf(fr.fn), v, fr'.at)
    ensures v in fr'.env && ValueOk(p.m, h, fr.fn, v, fr'.env[v])
  {
    var g := GraphOf(fr.fn);
    var ps := g.blocks[e.target].parameters;
    if v in Ids(ps) {
      var k :| 0 <= k < |ps| && ps[k].id == v;
      PassedIsRead(EdgesOf(g.blocks[fr.at.block].ending), e, e.arguments[k]);
      UseIsLive(g, e.arguments[k], fr.at);
      ArgumentType(p, fr, e, k);
    } else {
      assert HasEdge(g, fr.at.block, e.target) && Step(g, fr.at, fr'.at);
      assert fr'.at == Point(e.target, 0) && e.target != g.entry;
      StepKeepsLive(g, v, fr.at, fr'.at);
    }
  }

  lemma JumpKeepsFrame(p: LoweredProgram, h: Things, fr: Frame, e: Edge, fr': Frame)
    requires FrameOk(p, h, fr) && !fr.busy && AtTerminator(GraphOf(fr.fn), fr.at)
    requires e in EdgesOf(GraphOf(fr.fn).blocks[fr.at.block].ending) && Bound(fr, e, fr')
    ensures FrameOk(p, h, fr')
  {
    var g := GraphOf(fr.fn);
    assert HasEdge(g, fr.at.block, e.target) && Step(g, fr.at, fr'.at);
    forall v | Live(g, v, fr'.at) ensures v in fr'.env && ValueOk(p.m, h, fr.fn, v, fr'.env[v]) {
      JumpKeepsValue(p, h, fr, e, fr', v);
    }
  }

  lemma JumpKeeps(p: LoweredProgram, s: Machine, t: Machine)
    requires Invariant(p, s) && Jump(p, s, t)
    ensures Invariant(p, t)
  {
    var fr := Top(s);
    assert FrameOk(p, All(p, s.heap), s.frames[|s.frames| - 1]);
    var e :| e in EdgesOf(GraphOf(fr.fn).blocks[fr.at.block].ending) && Bound(fr, e, Top(t)) && t == WithTop(s, Top(t));
    JumpKeepsFrame(p, All(p, s.heap), fr, e, Top(t));
    OthersKept(p, s, t);
  }

  lemma NextKeeps(p: LoweredProgram, s: Machine, t: Machine)
    requires Invariant(p, s) && Next(p, s, t)
    ensures Invariant(p, t)
  {
    var x :| Does(p, x, s, t);
    match x
    case BeginIt => BeginKeeps(p, s, t);
    case CollectIt => CollectKeeps(p, s, t);
    case CreateIt(a, thing) => CreateKeeps(p, s, t, a, thing);
    case WriteIt(a, slot, value) => WriteKeeps(p, s, t, a, slot, value);
    case LoadIt(a, slot) => LoadKeeps(p, s, t, a, slot);
    case ViewIt(item) => ViewKeeps(p, s, t, item);
    case PinIt => PinKeeps(p, s, t);
    case InvokeIt => InvokeKeeps(p, s, t);
    case LeaveIt => LeaveKeeps(p, s, t);
    case FinishIt => FinishKeeps(p, s, t);
    case JumpIt => JumpKeeps(p, s, t);
  }

  // ----- the theorems -----

  ghost predicate IsTrace(p: Program, states: seq<Machine>) {
    && |states| > 0 && Initial(p, states[0])
    && forall i :: 0 <= i < |states| - 1 ==> Next(p, states[i], states[i + 1])
  }

  lemma {:induction false} TraceKeeps(p: LoweredProgram, states: seq<Machine>, i: nat)
    requires IsTrace(p, states) && i < |states|
    ensures Invariant(p, states[i])
  {
    if i == 0 {
      InitialHolds(p, states[0]);
    } else {
      TraceKeeps(p, states, i - 1);
      assert Next(p, states[i - 1], states[i - 1 + 1]);
      NextKeeps(p, states[i - 1], states[i]);
    }
  }

  /**
   * No run of an accepted, lowered module reads a reclaimed object or one of another type than it was checked with,
   * and none makes the collector panic.
   */
  lemma NoReadAfterFree(p: LoweredProgram, states: seq<Machine>, i: nat)
    requires IsTrace(p, states) && i < |states|
    ensures Safe(p, states[i])
  {
    TraceKeeps(p, states, i);
    InvariantIsSafe(p, states[i]);
  }

  /** A function without a collecting effect is never on the stack during a collection, so it needs no root frame. */
  lemma QuietFunctionsSeeNoCollection(p: LoweredProgram, states: seq<Machine>, i: nat, k: nat)
    requires IsTrace(p, states) && i + 1 < |states| && k < |states[i].frames|
    requires Collect(p, states[i], states[i + 1])
    ensures MayCollect(states[i].frames[k].fn)
  {
    TraceKeeps(p, states, i);
    CollectionIsCharged(p, states[i], k);
  }
}
