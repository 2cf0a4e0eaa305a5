/** Every accepted module can be lowered, and there are runs in which a collection meets live values. */
module RootedRuns {
  import opened Ir
  import opened Cfg
  import opened SsaVerifier
  import opened Effects
  import opened Typing
  import opened RootPlanner
  import opened Collector
  import opened TypedHeap
  import opened RootedExecution

  // ----- plans exist -----

  ghost function Points(g: Graph): set<Point> {
    set b, k | b in g.blocks && 0 <= k < |g.blocks[b].instructions| :: Point(b, k)
  }

  ghost function PlanFor(m: Module, f: Function): Plan {
    if MayCollect(f) then
      map at | at in Points(GraphOf(f)) && Collects(m, GraphOf(f), at) ::
        set v | v in ManagedIds(f) && Live(GraphOf(f), v, at)
    else map[]
  }

  lemma PlanForOk(m: Module, f: Function)
    ensures PlanOk(m, f, PlanFor(m, f))
  {
    var g := GraphOf(f);
    forall at | Collects(m, g, at) ensures at in Points(g) {
      assert at == Point(at.block, at.index);
    }
  }

  ghost function PlansFor(m: Module): map<Symbol, Plan> {
    map f | f in m.functions :: f.id := PlanFor(m, Owner(m, f.id))
  }

  ghost function Owner(m: Module, id: Symbol): Function
    requires exists f :: f in m.functions && f.id == id
  {
    var f :| f in m.functions && f.id == id;
    f
  }

  lemma OwnerIs(m: Module, f: Function)
    requires DistinctFunctions(m.functions) && f in m.functions
    ensures Owner(m, f.id) == f
  {
    var g := Owner(m, f.id);
    var i :| 0 <= i < |m.functions| && m.functions[i] == f;
    var j :| 0 <= j < |m.functions| && m.functions[j] == g;
  }

  /** Any accepted module has plans, so the theorems about lowered programs are about all of them. */
  lemma AcceptedIsLowered(m: Module)
    requires AcceptedModule(m) && TypedModule(m)
    ensures Lowered(Program(m, PlansFor(m), map[]))
  {
    var p := Program(m, PlansFor(m), map[]);
    forall f | f in m.functions && !f.retained ensures HasPlan(p, f) {
      OwnerIs(m, f);
      PlanForOk(m, f);
    }
  }

  // ----- a run with a collection -----

  /** Makes a string of its argument, then an object, and returns the string. */
  const MAKE_TEXT: Instruction := Instruction(StringFromInt, [ValueDefinition(1, String)], [0], "", [])

  const MAKE_OBJECT: Instruction := Instruction(ObjectAlloc, [ValueDefinition(2, Class("C"))], [], "C", [])

  const BODY: Block := Block(0, [ValueDefinition(0, Int)], [MAKE_TEXT, MAKE_OBJECT], Return(Some(1)))

  const EXAMPLE: Function := Function("f", [Int], String, ALLOCATION, false, false, 0, None, None, [BODY])

  /** A class with one field, a string. */
  const MODULE: Module := Module([EXAMPLE], [], map["C" := None], map["C.text" := FieldDeclaration("C", String)])

  lemma ExampleEntries()
    ensures AllDefinitions(EXAMPLE) ==
            [Entry(0, Definition(Int, Point(0, 0))), Entry(1, Definition(String, Point(0, 1))),
             Entry(2, Definition(Class("C"), Point(0, 2)))]
  {
    var e0, e1 := Entry(0, Definition(Int, Point(0, 0))), Entry(1, Definition(String, Point(0, 1)));
    var e2 := Entry(2, Definition(Class("C"), Point(0, 2)));
    assert EXAMPLE.blocks[1..] == [];
    assert Definitions(EXAMPLE.blocks[1..]) == [];
    assert BlockDefinitions(BODY, 0) == [e0];
    assert BlockDefinitions(BODY, 1) == [e0] + [e1];
    assert BlockDefinitions(BODY, 2) == [e0] + [e1] + [e2];
    assert Definitions(EXAMPLE.blocks) == [e0, e1, e2];
  }

  lemma ExampleReads()
    ensures AllReads(EXAMPLE.blocks) == [Site(0, Point(0, 0)), Site(1, Point(0, 2))]
  {
    assert EXAMPLE.blocks[1..] == [];
    assert BlockReads(BODY, 1) == [Site(0, Point(0, 0))];
    assert BlockReads(BODY, 2) == [Site(0, Point(0, 0))];
    assert SsaVerifier.Read([1], Point(0, 2)) == [Site(1, Point(0, 2))];
  }

  lemma ExampleTypes()
    ensures Declared(EXAMPLE, 0) == Some(Int) && Declared(EXAMPLE, 1) == Some(String)
    ensures Declared(EXAMPLE, 2) == Some(Class("C"))
    ensures forall v :: v in ManagedIds(EXAMPLE) ==> v == 1 || v == 2
    ensures 1 in ManagedIds(EXAMPLE)
  {
    ExampleEntries();
    var es := AllDefinitions(EXAMPLE);
    TypeOfOnly(es, 0, Int) by { assert es[0] in es; }
    TypeOfOnly(es, 1, String) by { assert es[1] in es; }
    TypeOfOnly(es, 2, Class("C")) by { assert es[2] in es; }
    assert es[1] in es;
  }

  lemma ExampleAccepted()
    ensures Accepted(EXAMPLE)
  {
    var f := EXAMPLE;
    ExampleEntries();
    ExampleReads();
    var es := AllDefinitions(f);
    forall u | u in AllReads(f.blocks) ensures ReadInOrder(f, u) {
      assert es[0] in es && es[1] in es;
    }
    assert EndingTyped(f, BODY.ending) by { assert es[1] in es; }
    OneBlockAccepted(f);
  }

  lemma ExampleEffects()
    ensures EffectsOk(MODULE, EXAMPLE) && MayCollect(EXAMPLE)
  {
    assert BODY in EXAMPLE.blocks;
    assert Safepoint in EXAMPLE.effects * COLLECTING;
    forall b | b in EXAMPLE.blocks ensures BlockEffectsOk(MODULE, EXAMPLE, b) { assert b == BODY; }
  }

  lemma ExampleTyped()
    ensures FunctionTyped(MODULE, EXAMPLE)
  {
    TextTyped();
    ObjectTyped();
    forall i | Contains(EXAMPLE, i) ensures InstructionTyped(MODULE, EXAMPLE, i) {
      assert i in BODY.instructions;
    }
  }

  lemma TextTyped()
    ensures InstructionTyped(MODULE, EXAMPLE, MAKE_TEXT)
  {
    ExampleTypes();
    assert Given(OperandTypes(EXAMPLE, MAKE_TEXT)) == [Int] && ResultTypes(MAKE_TEXT) == [String];
  }

  lemma ObjectTyped()
    ensures InstructionTyped(MODULE, EXAMPLE, MAKE_OBJECT)
  {
    assert Given(OperandTypes(EXAMPLE, MAKE_OBJECT)) == [] && ResultTypes(MAKE_OBJECT) == [Class("C")];
  }

  ghost const PROGRAM: Program := Program(MODULE, PlansFor(MODULE), map[])

  lemma ExampleLowered()
    ensures Lowered(PROGRAM)
  {
    ExampleModuleAccepted();
    ExampleTyped();
    SingletonTyped(MODULE, EXAMPLE);
    AcceptedIsLowered(MODULE);
  }

  lemma ExampleModuleAccepted()
    ensures AcceptedModule(MODULE)
  {
    ExampleAccepted();
    ExampleEffects();
    SingletonOk(MODULE, EXAMPLE);
    SingletonAccepted(MODULE, EXAMPLE);
  }

  lemma SingletonTyped(m: Module, f: Function)
    requires m.functions == [f] && m.imports == [] && FunctionTyped(m, f)
    ensures TypedModule(m)
  {
  }

  // The plan keeps the string while the object is made.

  lemma ExampleGraph()
    ensures GraphOf(EXAMPLE) == Graph(0, map[0 := BODY], {})
  {
    assert EXAMPLE.blocks[1..] == [];
    assert BlockMap(EXAMPLE.blocks[1..]) == map[];
  }

  lemma TextIsLive()
    ensures Live(GraphOf(EXAMPLE), 1, Point(0, 1))
  {
    ExampleGraph();
    var g := GraphOf(EXAMPLE);
    var w := [Point(0, 1), Point(0, 2)];
    assert Step(g, w[0], w[1]);
    assert UsesAt(g, Point(0, 2)) == {1};
    assert LiveWalk(g, 1, w);
  }

  lemma ExamplePlan(at: Point)
    requires at == Point(0, 0) || at == Point(0, 1)
    ensures "f" in PROGRAM.plans && at in PROGRAM.plans["f"]
    ensures forall v :: v in PROGRAM.plans["f"][at] ==> v == 1 || v == 2
    ensures at == Point(0, 1) ==> 1 in PROGRAM.plans["f"][at]
  {
    ExampleEffects();
    ExampleGraph();
    ExampleTypes();
    assert EXAMPLE in MODULE.functions;
    OwnerIs(MODULE, EXAMPLE);
    assert Collects(MODULE, GraphOf(EXAMPLE), at);
    if at == Point(0, 1) { TextIsLive(); }
  }

  const TEXT: Thing := Thing(Text, 16, [])

  const OBJECT: Thing := Thing(Instance("C"), 24, [Slot("C.text", String, Null)])

  const ARGUMENTS: map<ValueId, Reference> := map[0 := Null]

  const AFTER_TEXT: map<ValueId, Reference> := map[0 := Null, 1 := Object(7)]

  const AFTER_BOTH: map<ValueId, Reference> := map[0 := Null, 1 := Object(7), 2 := Object(8)]

  /** The heap holds an object nobody refers to. */
  const START: Machine := Machine([Frame(EXAMPLE, Point(0, 0), ARGUMENTS, {}, Null, false, {})], map[5 := TEXT], {})

  const BEGUN: Machine :=
    Machine([Frame(EXAMPLE, Point(0, 0), ARGUMENTS, {}, Null, true, {Item(Int, Null)})], map[5 := TEXT], {})

  const TEXT_MADE: Machine :=
    Machine([Frame(EXAMPLE, Point(0, 0), ARGUMENTS, {}, Null, true, {Item(Int, Null), Item(String, Object(7))})],
            map[5 := TEXT, 7 := TEXT], {})

  const TEXT_BOUND: Machine :=
    Machine([Frame(EXAMPLE, Point(0, 1), AFTER_TEXT, {}, Null, false, {})], map[5 := TEXT, 7 := TEXT], {})

  const PUBLISHED: Machine :=
    Machine([Frame(EXAMPLE, Point(0, 1), AFTER_TEXT, {Object(7)}, Null, true, {})], map[5 := TEXT, 7 := TEXT], {})

  const COLLECTED: Machine :=
    Machine([Frame(EXAMPLE, Point(0, 1), AFTER_TEXT, {Object(7)}, Null, true, {})], map[7 := TEXT], {})

  const OBJECT_MADE: Machine :=
    Machine([Frame(EXAMPLE, Point(0, 1), AFTER_TEXT, {Object(7)}, Null, true, {Item(Class("C"), Object(8))})],
            map[7 := TEXT, 8 := OBJECT], {})

  const OBJECT_BOUND: Machine :=
    Machine([Frame(EXAMPLE, Point(0, 2), AFTER_BOTH, {Object(7)}, Null, false, {})], map[7 := TEXT, 8 := OBJECT], {})

  lemma Starts()
    ensures Initial(PROGRAM, START)
  {
    ExampleGraph();
    assert PROGRAM.outer + START.heap == START.heap;
    assert DefsAt(GraphOf(EXAMPLE), Point(0, 0)) == {0};
    forall a | a in START.heap ensures ObjectOk(MODULE, START.heap, a) { }
  }

  lemma TextCode()
    ensures IsPoint(GraphOf(EXAMPLE), Point(0, 0)) && !AtTerminator(GraphOf(EXAMPLE), Point(0, 0))
    ensures Code(EXAMPLE, Point(0, 0)) == MAKE_TEXT
  {
    ExampleGraph();
  }

  lemma BegunFrame(plan: Plan)
    requires Point(0, 0) in plan && forall v :: v in plan[Point(0, 0)] ==> v == 1 || v == 2
    ensures IsPoint(GraphOf(EXAMPLE), Point(0, 0)) && !AtTerminator(GraphOf(EXAMPLE), Point(0, 0))
    ensures Started(START.frames[0], plan) == BEGUN.frames[0]
  {
    TextCode();
    ExampleTypes();
    assert OperandItems(START.frames[0], MAKE_TEXT) == {Item(Int, Null)};
    assert Values(ARGUMENTS, plan[Point(0, 0)]) == {};
  }

  lemma Begins()
    ensures Next(PROGRAM, START, BEGUN)
  {
    ExamplePlan(Point(0, 0));
    BegunFrame(PROGRAM.plans["f"]);
    StartIsNext(PROGRAM, START, BEGUN);
  }

  lemma StartIsNext(p: Program, s: Machine, t: Machine)
    requires |s.frames| == 1 && !s.frames[0].busy && s.frames[0].fn.id in p.plans && |t.frames| == 1
    requires var fr := s.frames[0]; IsPoint(GraphOf(fr.fn), fr.at) && !AtTerminator(GraphOf(fr.fn), fr.at)
    requires t == s.(frames := [Started(s.frames[0], p.plans[s.frames[0].fn.id])])
    ensures Next(p, s, t)
  {
    assert s.frames[0 := t.frames[0]] == t.frames;
    assert Does(p, BeginIt, s, t);
  }

  lemma TextIsFresh()
    ensures Makes(MODULE, MAKE_TEXT, Text) && Fresh(MODULE, TEXT)
  {
  }

  lemma MakesText()
    ensures Next(PROGRAM, BEGUN, TEXT_MADE)
  {
    TextCode();
    TextIsFresh();
    assert {Item(Int, Null)} + {Item(String, Object(7))} == {Item(Int, Null), Item(String, Object(7))};
    assert map[5 := TEXT][7 := TEXT] == map[5 := TEXT, 7 := TEXT];
    assert Does(PROGRAM, CreateIt(7, TEXT), BEGUN, TEXT_MADE);
  }

  lemma TextResults(h: Things)
    ensures Results(PROGRAM, h, TEXT_MADE.frames[0], MAKE_TEXT, AFTER_TEXT)
  {
    assert Ids(MAKE_TEXT.results) == {1};
    assert Yields(PROGRAM, h, TEXT_MADE.frames[0], MAKE_TEXT, Object(7));
  }

  lemma BindsText()
    ensures Next(PROGRAM, TEXT_MADE, TEXT_BOUND)
  {
    TextCode();
    TextResults(PROGRAM.outer + TEXT_MADE.heap);
    assert Does(PROGRAM, FinishIt, TEXT_MADE, TEXT_BOUND);
  }

  lemma Publishes()
    ensures Next(PROGRAM, TEXT_BOUND, PUBLISHED)
  {
    ExamplePlan(Point(0, 1));
    PublishedFrame(PROGRAM.plans["f"]);
    StartIsNext(PROGRAM, TEXT_BOUND, PUBLISHED);
  }

  lemma PublishedFrame(plan: Plan)
    requires Point(0, 1) in plan && 1 in plan[Point(0, 1)] && forall v :: v in plan[Point(0, 1)] ==> v == 1 || v == 2
    ensures IsPoint(GraphOf(EXAMPLE), Point(0, 1)) && !AtTerminator(GraphOf(EXAMPLE), Point(0, 1))
    ensures Started(TEXT_BOUND.frames[0], plan) == PUBLISHED.frames[0]
  {
    ObjectCollects();
    assert OperandItems(TEXT_BOUND.frames[0], MAKE_OBJECT) == {};
    assert Values(AFTER_TEXT, plan[Point(0, 1)]) == {Object(7)};
  }

  lemma OnlyTextIsReached(store: Store, roots: set<Reference>)
    requires store.Keys == {5, 7} && store[7].fields == [] && store[5].fields == [] && roots == {Object(7), Null}
    ensures Collector.Reachable(store, roots, 7) && !Collector.Reachable(store, roots, 5)
  {
    RootIsReachable(store, roots, 7);
    if Collector.Reachable(store, roots, 5) {
      var q: seq<Address> :| IsChain(store, q) && Object(q[0]) in roots && q[|q| - 1] == 5;
      SecondIsField(store, q);
    }
  }

  lemma SecondIsField(store: Store, q: seq<Address>)
    requires IsChain(store, q) && |q| > 1
    ensures Object(q[1]) in store[q[0]].fields
  {
    assert HasField(store, q[0], q[0 + 1]);
  }

  lemma HeapReclaimed(heap: Things, roots: set<Reference>)
    requires heap == map[5 := TEXT, 7 := TEXT] && roots == {Object(7), Null}
    ensures TypedHeap.Collected(heap, roots) == map[7 := TEXT]
  {
    OnlyTextIsReached(TracedStore(heap), roots);
  }

  lemma PublishedRoots()
    ensures Roots(PUBLISHED) == {Object(7), Null}
  {
    var fr := PUBLISHED.frames[0];
    assert fr in PUBLISHED.frames && Object(7) in fr.slots && fr.slotZero == Null;
  }

  lemma ObjectCollects()
    ensures IsPoint(GraphOf(EXAMPLE), Point(0, 1)) && !AtTerminator(GraphOf(EXAMPLE), Point(0, 1))
    ensures Code(EXAMPLE, Point(0, 1)) == MAKE_OBJECT && CollectsNow(MODULE, MAKE_OBJECT)
  {
    ExampleGraph();
  }

  lemma Reclaims()
    ensures Collect(PROGRAM, PUBLISHED, COLLECTED) && Next(PROGRAM, PUBLISHED, COLLECTED)
  {
    ObjectCollects();
    PublishedRoots();
    HeapReclaimed(PUBLISHED.heap, Roots(PUBLISHED));
    assert RootedItems({}, Roots(PUBLISHED)) == {};
    assert Dropped(PUBLISHED.frames, Roots(PUBLISHED)) == COLLECTED.frames;
    assert Does(PROGRAM, CollectIt, PUBLISHED, COLLECTED);
  }

  lemma ObjectIsFresh()
    ensures Makes(MODULE, MAKE_OBJECT, Instance("C")) && Fresh(MODULE, OBJECT)
  {
    InheritsItself(MODULE, "C");
    assert IsField(OBJECT, "C.text", 0);
  }

  lemma MakesObject()
    ensures Next(PROGRAM, COLLECTED, OBJECT_MADE)
  {
    ObjectCollects();
    ObjectIsFresh();
    var none: set<Item> := {};
    assert none + {Item(Class("C"), Object(8))} == {Item(Class("C"), Object(8))};
    assert map[7 := TEXT][8 := OBJECT] == map[7 := TEXT, 8 := OBJECT];
    assert Does(PROGRAM, CreateIt(8, OBJECT), COLLECTED, OBJECT_MADE);
  }

  lemma BindsObject()
    ensures Next(PROGRAM, OBJECT_MADE, OBJECT_BOUND)
  {
    ObjectCollects();
    ObjectResults(PROGRAM.outer + OBJECT_MADE.heap);
    assert Does(PROGRAM, FinishIt, OBJECT_MADE, OBJECT_BOUND);
  }

  lemma ObjectResults(h: Things)
    ensures Results(PROGRAM, h, OBJECT_MADE.frames[0], MAKE_OBJECT, AFTER_BOTH)
  {
    assert Ids(MAKE_OBJECT.results) == {2};
    assert Yields(PROGRAM, h, OBJECT_MADE.frames[0], MAKE_OBJECT, Object(8));
  }

  ghost predicate Reached(p: Program, s: Machine) {
    exists states :: IsTrace(p, states) && states[|states| - 1] == s
  }

  lemma ReachedFirst(p: Program, s: Machine)
    requires Initial(p, s)
    ensures Reached(p, s)
  {
    assert IsTrace(p, [s]);
  }

  lemma ReachedNext(p: Program, s: Machine, t: Machine)
    requires Reached(p, s) && Next(p, s, t)
    ensures Reached(p, t)
  {
    var states :| IsTrace(p, states) && states[|states| - 1] == s;
    var more := states + [t];
    forall i | 0 <= i < |more| - 1 ensures Next(p, more[i], more[i + 1]) {
      if i < |states| - 1 { assert Next(p, states[i], states[i + 1]); }
    }
    assert IsTrace(p, more) && more[|more| - 1] == t;
  }

  lemma TextMade()
    ensures Reached(PROGRAM, TEXT_MADE)
  {
    Starts();
    ReachedFirst(PROGRAM, START);
    Begins();
    ReachedNext(PROGRAM, START, BEGUN);
    MakesText();
    ReachedNext(PROGRAM, BEGUN, TEXT_MADE);
  }

  lemma TextPublished()
    ensures Reached(PROGRAM, PUBLISHED)
  {
    TextMade();
    BindsText();
    ReachedNext(PROGRAM, TEXT_MADE, TEXT_BOUND);
    Publishes();
    ReachedNext(PROGRAM, TEXT_BOUND, PUBLISHED);
  }

  lemma ObjectMade()
    ensures Reached(PROGRAM, OBJECT_MADE)
  {
    TextPublished();
    Reclaims();
    ReachedNext(PROGRAM, PUBLISHED, COLLECTED);
    MakesObject();
    ReachedNext(PROGRAM, COLLECTED, OBJECT_MADE);
  }

  lemma ObjectBound()
    ensures Reached(PROGRAM, OBJECT_BOUND)
  {
    ObjectMade();
    BindsObject();
    ReachedNext(PROGRAM, OBJECT_MADE, OBJECT_BOUND);
  }

  /**
   * There is a run with a collection that reclaims what nobody refers to and keeps the string that is still needed;
   * afterwards the string is about to be read, and is there.
   */
  lemma LiveTextSurvives()
    ensures Lowered(PROGRAM) && Reached(PROGRAM, PUBLISHED) && Reached(PROGRAM, OBJECT_BOUND)
    ensures Collect(PROGRAM, PUBLISHED, COLLECTED) && 5 in PUBLISHED.heap && 5 !in COLLECTED.heap
    ensures Reads(OBJECT_BOUND.frames[0], 1, Object(7)) && 7 in OBJECT_BOUND.heap
  {
    ExampleLowered();
    TextPublished();
    Reclaims();
    ObjectBound();
    TextIsRead();
  }

  /** The frame is about to read a value that holds `r`. */
  ghost predicate Reads(fr: Frame, v: ValueId, r: Reference) {
    && IsPoint(GraphOf(fr.fn), fr.at) && v in UsesAt(GraphOf(fr.fn), fr.at)
    && v in fr.env && fr.env[v] == r
  }

  lemma TextIsRead()
    ensures Reads(OBJECT_BOUND.frames[0], 1, Object(7))
  {
    ExampleGraph();
  }
}
