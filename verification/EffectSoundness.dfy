/** What effect summaries mean: an execution does nothing that its function did not declare, and each charge is real. */
module EffectSoundness {
  import opened Ir
  import opened Cfg
  import opened Effects
  import opened Scalars
  import opened RegionSelection
  import opened RegionExecution

  // ----- what one instruction may do -----

  ghost predicate KeptObjects(s: Stack, t: Stack) {
    t.suspended == s.suspended && forall a :: a in s.current ==> a in t.current && t.current[a] == s.current[a]
  }

  /** The suspended heaps keep their objects, whatever is stored into them. */
  ghost predicate SameAbove(s: Stack, t: Stack) {
    && |t.suspended| == |s.suspended|
    && forall k :: 0 <= k < |s.suspended| ==> t.suspended[k].Keys == s.suspended[k].Keys
  }

  /** No managed allocation, so no collection either. */
  ghost predicate NoAllocation(e: set<Effect>) { ManagedAllocate !in e || Safepoint !in e }

  /** A result that `e` accounts for. */
  ghost predicate Respects(e: set<Effect>, s: Stack, r: Result) {
    match r
    case Next(_, t) =>
      && SameAbove(s, t)
      && (Effect.Write !in e ==> KeptObjects(s, t))
      && (NoAllocation(e) ==> t.current.Keys == s.current.Keys)
    case Fault(_) => MayPanic in e
    case _ => true
  }

  /** Code outside the module does no more than the verifier charges for entering it. */
  ghost predicate Honest(m: Module, n: Machine) {
    forall i, vs, s {:trigger n.outside(i, vs, s)} ::
      RequiredEffects(m, i).Some? ==> Respects(RequiredEffects(m, i).value, s, n.outside(i, vs, s))
  }

  lemma {:induction false} WriteKeepsKeys(heaps: seq<Heap>, a: Addr, k: nat, v: Value)
    ensures |RegionExecution.Write(heaps, a, k, v)| == |heaps|
    ensures forall j :: 0 <= j < |heaps| ==> RegionExecution.Write(heaps, a, k, v)[j].Keys == heaps[j].Keys
  {
    if |heaps| > 0 && a !in heaps[|heaps| - 1] {
      WriteKeepsKeys(heaps[..|heaps| - 1], a, k, v);
    }
  }

  lemma StoreRespects(e: set<Effect>, n: Machine, i: Instruction, s: Stack, a: Addr, k: nat, v: Value)
    requires Effect.Write in e && (i.opcode == ArrayStoreChecked ==> MayPanic in e)
    requires i.opcode == FieldStore || i.opcode == ArrayStoreChecked
    ensures Respects(e, s, Store(n, i, s, a, k, v))
  {
    WriteKeepsKeys(s.suspended, a, k, v);
  }

  lemma AccessRespects(m: Module, n: Machine, i: Instruction, vs: seq<Value>, s: Stack)
    requires Accesses(i.opcode) && |vs| > 0 && vs[0].Ref?
    ensures RequiredEffects(m, i).Some? && Respects(RequiredEffects(m, i).value, s, Access(n, i, vs, s))
  {
    var e, a := RequiredEffects(m, i).value, vs[0].address;
    if i.opcode == FieldStore {
      if |vs| == 2 { StoreRespects(e, n, i, s, a, n.slot(i), vs[1]); }
    } else if i.opcode == ArrayStoreChecked {
      if |vs| == 3 && vs[1].Scalar? && vs[1].n >= 0 { StoreRespects(e, n, i, s, a, vs[1].n, vs[2]); }
    }
  }

  lemma ComputeRespects(m: Module, n: Machine, i: Instruction, vs: seq<Value>, s: Stack)
    requires Honest(m, n) && RequiredEffects(m, i).Some? && !Allocates(i.opcode) && !Accesses(i.opcode)
    ensures Respects(RequiredEffects(m, i).value, s, Compute(n, i, vs, s))
  {
    var r := n.outside(i, vs, s);
  }

  lemma AllocationRespects(m: Module, n: Machine, y: Memory, i: Instruction, vs: seq<Value>, s: Stack)
    requires Sane(y) && Allocates(i.opcode)
    ensures RequiredEffects(m, i).Some? && {ManagedAllocate, Safepoint} <= RequiredEffects(m, i).value
    ensures Respects(RequiredEffects(m, i).value, s, Operate(n, y.allot, i, vs, s))
  {
    assert IsFree(y, s);
  }

  /** One instruction does nothing that the verifier does not charge for. */
  lemma OperateRespects(m: Module, n: Machine, y: Memory, i: Instruction, vs: seq<Value>, s: Stack)
    requires Sane(y) && Honest(m, n) && RequiredEffects(m, i).Some?
    ensures Respects(RequiredEffects(m, i).value, s, Operate(n, y.allot, i, vs, s))
  {
    if Allocates(i.opcode) {
      AllocationRespects(m, n, y, i, vs, s);
    } else if Accesses(i.opcode) {
      if |vs| > 0 && vs[0].Ref? { AccessRespects(m, n, i, vs, s); }
    } else {
      ComputeRespects(m, n, i, vs, s);
    }
  }

  // ----- what a run may do -----

  /** Everything the roots lead to is as it was. */
  ghost predicate Untouched(s: Stack, t: Stack, roots: set<Addr>) {
    && t.suspended == s.suspended
    && forall x {:trigger Reached(s.current, roots, x)} ::
         Reached(s.current, roots, x) ==> x in t.current && t.current[x] == s.current[x]
  }

  /** An outcome that `e` accounts for. */
  ghost predicate Charged(e: set<Effect>, s: Stack, roots: set<Addr>, o: Outcome) {
    match o
    case Returned(_, t) =>
      && SameAbove(s, t)
      && (Effect.Write !in e ==> Untouched(s, t, roots))
      && (NoAllocation(e) ==> t.current.Keys == s.current.Keys)
      && (Effect.Write !in e && NoAllocation(e) ==> t == s)
    case Panicked(_) => MayPanic in e
    case _ => true
  }

  lemma RootIsReached(h: Heap, roots: set<Addr>, x: Addr)
    requires x in roots && x in h
    ensures Reached(h, roots, x)
  {
  }

  lemma PointedIsReached(h: Heap, roots: set<Addr>, a: Addr, c: Addr)
    requires Reached(h, roots, a) && Points(h, a, c)
    ensures Reached(h, roots, c)
  {
  }

  /** What is reached and untouched is still reached. */
  lemma ReachedStays(s: Stack, t: Stack, roots: set<Addr>, x: Addr)
    requires Untouched(s, t, roots) && Reached(s.current, roots, x)
    ensures Reached(t.current, roots, x)
  {
    var h, j := s.current, t.current;
    forall keep | Keeps(j, roots, keep) ensures x in keep {
      var some := set a | a in h && Reached(h, roots, a) && a in keep;
      forall r | r in roots * h.Keys ensures r in some { RootIsReached(h, roots, r); }
      forall a, c | a in some && Points(h, a, c) ensures c in some {
        PointedIsReached(h, roots, a, c);
        assert Points(j, a, c);
      }
      assert Keeps(h, roots, some);
    }
  }

  lemma UntouchedOn(s: Stack, u: Stack, t: Stack, roots: set<Addr>)
    requires Untouched(s, u, roots) && Untouched(u, t, roots)
    ensures Untouched(s, t, roots)
  {
    forall x | Reached(s.current, roots, x) ensures x in t.current && t.current[x] == s.current[x] {
      ReachedStays(s, u, roots, x);
    }
  }

  lemma UntouchedLess(s: Stack, t: Stack, more: set<Addr>, roots: set<Addr>)
    requires Untouched(s, t, more) && roots <= more
    ensures Untouched(s, t, roots)
  {
    forall x | Reached(s.current, roots, x) ensures x in t.current && t.current[x] == s.current[x] {
      assert Reached(s.current, more, x) by {
        forall keep | Keeps(s.current, more, keep) ensures x in keep { assert Keeps(s.current, roots, keep); }
      }
    }
  }

  lemma ChargedOn(e: set<Effect>, s: Stack, u: Stack, roots: set<Addr>, v: Value, o: Outcome)
    requires Charged(e, s, roots, Returned(v, u)) && Charged(e, u, roots, o)
    ensures Charged(e, s, roots, o)
  {
    if o.Returned? && Effect.Write !in e { UntouchedOn(s, u, o.stack, roots); }
  }

  /** A callee's effects are among its caller's, and what it spares is more than what the caller must. */
  lemma ChargedToCaller(e: set<Effect>, f: set<Effect>, s: Stack, more: set<Addr>, roots: set<Addr>, o: Outcome)
    requires Charged(e, s, more, o) && e - {NoReturn} <= f && roots <= more
    ensures Charged(f, s, roots, o)
  {
    if o.Returned? && Effect.Write !in f {
      assert Effect.Write !in e by { assert Effect.Write in e - {NoReturn} <==> Effect.Write in e; }
      UntouchedLess(s, o.stack, more, roots);
    }
    assert NoAllocation(f) ==> NoAllocation(e) by {
      assert ManagedAllocate in e - {NoReturn} <==> ManagedAllocate in e;
      assert Safepoint in e - {NoReturn} <==> Safepoint in e;
    }
    assert MayPanic in e - {NoReturn} <==> MayPanic in e;
  }

  lemma CollectionSpares(y: Memory, s: Stack, more: set<Addr>, roots: set<Addr>)
    requires Sane(y) && roots <= more
    ensures Untouched(s, Collected(y, s, more), roots)
  {
    var keep := y.collect(s.current, more);
    assert CollectsWell(y, s.current, more);
    assert Keeps(s.current, roots, keep);
  }

  lemma KeptIsUntouched(s: Stack, t: Stack, roots: set<Addr>)
    requires KeptObjects(s, t)
    ensures Untouched(s, t, roots)
  {
  }

  /** The collection before an instruction, and the instruction. */
  lemma StepCharged(m: Module, n: Machine, y: Memory, e: set<Effect>, i: Instruction, vs: seq<Value>, ls: Locals,
                    s: Stack,
                    roots: set<Addr>)
    requires Sane(y) && Honest(m, n) && RequiredEffects(m, i).Some? && RequiredEffects(m, i).value <= e
    ensures Charged(e, s, roots, Came(Operate(n, y.allot, i, vs, Prepared(y, i, vs, ls, s, roots))))
  {
    var u := Prepared(y, i, vs, ls, s, roots);
    var o := Came(Operate(n, y.allot, i, vs, u));
    OperateRespects(m, n, y, i, vs, u);
    if Allocates(i.opcode) {
      AllocationRespects(m, n, y, i, vs, u);
      CollectionSpares(y, s, roots + RefsIn(ls) + RefsOf(vs), roots);
    }
    if o.Returned? && Effect.Write !in e {
      KeptIsUntouched(u, o.stack, roots);
      if Allocates(i.opcode) { UntouchedOn(s, u, o.stack, roots); } else { KeptEqual(s, o.stack); }
    }
  }

  lemma KeptEqual(s: Stack, t: Stack)
    requires KeptObjects(s, t)
    ensures t.current.Keys == s.current.Keys ==> t == s
  {
    if t.current.Keys == s.current.Keys { assert t.current == s.current; }
  }

  // ----- over calls -----

  /** The functions are those of a verified module, and everything outside keeps to what it declared. */
  ghost predicate Faithful(m: Module, p: Program, y: Memory) {
    && Sane(y) && Honest(m, p.machine)
    && forall x {:trigger x in p.definitions} :: x in p.definitions ==>
         FindFunction(m.functions, x) == Some(p.definitions[x]) && Verified(m, p.definitions[x])
  }

  /** A function without a body is taken at its word, and never runs here. */
  ghost predicate Verified(m: Module, f: Function) { f.blocks != [] ==> EffectsOk(m, f) }

  lemma CodeIsCharged(m: Module, f: Function, b: BlockId, k: nat)
    requires Verified(m, f) && b in BlockMap(f.blocks) && k < |BlockMap(f.blocks)[b].instructions|
    ensures var i := BlockMap(f.blocks)[b].instructions[k];
            RequiredEffects(m, i).Some? && RequiredEffects(m, i).value <= f.effects
  {
    var j := BlockMapFrom(f.blocks, b);
    assert f.blocks[j] in f.blocks && BlockEffectsOk(m, f, f.blocks[j]);
    assert BlockMap(f.blocks)[b].instructions[k] in f.blocks[j].instructions;
  }

  lemma EndIsCharged(m: Module, f: Function, b: BlockId)
    requires Verified(m, f) && b in BlockMap(f.blocks)
    ensures BlockMap(f.blocks)[b].ending.Panic? ==> MayPanic in f.effects
    ensures BlockMap(f.blocks)[b].ending.Return? ==> NoReturn !in f.effects
  {
    var j := BlockMapFrom(f.blocks, b);
    assert f.blocks[j] in f.blocks && BlockEffectsOk(m, f, f.blocks[j]);
  }

  /** An outcome of a function: accounted for by its effects, and no return if it declares that it has none. */
  ghost predicate Declared(f: Function, s: Stack, roots: set<Addr>, o: Outcome) {
    Charged(f.effects, s, roots, o) && (o.Returned? ==> NoReturn !in f.effects)
  }

  lemma {:induction false} ExecuteCharged(m: Module, p: Program, y: Memory, wrapped: set<Symbol>, f: Function,
                                          b: BlockId,
                                          k: nat, ls: Locals, s: Stack, roots: set<Addr>, fuel: nat)
    requires Faithful(m, p, y) && Verified(m, f)
    ensures Declared(f, s, roots, Execute(p, y, wrapped, f, b, k, ls, s, roots, fuel))
    decreases fuel, 0
  {
    if fuel > 0 && b in BlockMap(f.blocks) {
      var block := BlockMap(f.blocks)[b];
      if k < |block.instructions| {
        InstructCharged(m, p, y, wrapped, f, b, k, ls, s, roots, fuel - 1);
      } else {
        EndIsCharged(m, f, b);
        match block.ending
        case Branch(e) => JumpCharged(m, p, y, wrapped, f, e, ls, s, roots, fuel - 1);
        case ConditionalBranch(c, e0, e1) =>
          if c in ls && ls[c].Scalar? {
            JumpCharged(m, p, y, wrapped, f, if ls[c].n != 0 then e0 else e1, ls, s, roots, fuel - 1);
          }
        case _ =>
      }
    }
  }

  lemma {:induction false} JumpCharged(m: Module, p: Program, y: Memory, wrapped: set<Symbol>, f: Function, e: Edge,
                                       ls: Locals, s: Stack, roots: set<Addr>, fuel: nat)
    requires Faithful(m, p, y) && Verified(m, f)
    ensures Declared(f, s, roots, Jump(p, y, wrapped, f, e, ls, s, roots, fuel))
    decreases fuel, 1
  {
    if e.target in BlockMap(f.blocks) && Bound(ls, e.arguments) {
      var next := Bind(ls, BlockMap(f.blocks)[e.target].parameters, ValuesOf(ls, e.arguments));
      ExecuteCharged(m, p, y, wrapped, f, e.target, 0, next, s, roots, fuel);
    }
  }

  lemma {:induction false} ResumeCharged(m: Module, p: Program, y: Memory, wrapped: set<Symbol>, f: Function,
                                         b: BlockId,
                                         k: nat, i: Instruction, rest: Locals, o: Outcome, s: Stack, roots: set<Addr>,
                                         fuel: nat)
    requires Faithful(m, p, y) && Verified(m, f) && Charged(f.effects, s, roots, o)
    ensures Declared(f, s, roots, Resume(p, y, wrapped, f, b, k, i, rest, o, roots, fuel))
    decreases fuel, 1
  {
    if o.Returned? {
      var ls := Bind(rest, i.results, [o.value]);
      ExecuteCharged(m, p, y, wrapped, f, b, k + 1, ls, o.stack, roots, fuel);
      ChargedOn(f.effects, s, o.stack, roots, o.value, Execute(p, y, wrapped, f, b, k + 1, ls, o.stack, roots, fuel));
    }
  }

  lemma {:induction false} InstructCharged(m: Module, p: Program, y: Memory, wrapped: set<Symbol>, f: Function,
                                           b: BlockId,
                                           k: nat, ls: Locals, s: Stack, roots: set<Addr>, fuel: nat)
    requires Faithful(m, p, y) && Verified(m, f)
    requires b in BlockMap(f.blocks) && k < |BlockMap(f.blocks)[b].instructions|
    ensures var i := BlockMap(f.blocks)[b].instructions[k];
            Declared(f, s, roots, Instruct(p, y, wrapped, f, b, k, i, ls, s, roots, fuel))
    decreases fuel, 3
  {
    var i := BlockMap(f.blocks)[b].instructions[k];
    CodeIsCharged(m, f, b, k);
    if Bound(ls, i.operands) {
      var vs, rest := ValuesOf(ls, i.operands), Remaining(p, f, b, k, i, ls);
      if IsCall(i) {
        if i.symbol in p.definitions { CallCharged(m, p, y, wrapped, f, b, k, i, vs, rest, s, roots, fuel); }
      } else {
        StepCharged(m, p.machine, y, f.effects, i, vs, rest, s, roots);
        var o := Came(Operate(p.machine, y.allot, i, vs, Prepared(y, i, vs, rest, s, roots)));
        ResumeCharged(m, p, y, wrapped, f, b, k, i, rest, o, s, roots, fuel);
      }
    }
  }

  lemma {:induction false} CallCharged(m: Module, p: Program, y: Memory, wrapped: set<Symbol>, f: Function, b: BlockId,
                                       k: nat, i: Instruction, vs: seq<Value>, rest: Locals, s: Stack, roots: set<Addr>,
                                       fuel: nat)
    requires Faithful(m, p, y) && Verified(m, f) && IsCall(i) && i.symbol in p.definitions
    requires RequiredEffects(m, i).Some? && RequiredEffects(m, i).value <= f.effects
    ensures var o := Invoke(p, y, wrapped, p.definitions[i.symbol], vs, s, roots + RefsIn(rest), fuel);
            Declared(f, s, roots, Resume(p, y, wrapped, f, b, k, i, rest, o, roots, fuel))
    decreases fuel, 2
  {
    var o := Invoke(p, y, wrapped, p.definitions[i.symbol], vs, s, roots + RefsIn(rest), fuel);
    CalleeCharged(m, p, y, wrapped, f.effects, i, vs, s, roots + RefsIn(rest), roots, fuel);
    ResumeCharged(m, p, y, wrapped, f, b, k, i, rest, o, s, roots, fuel);
  }

  lemma {:induction false} CalleeCharged(m: Module, p: Program, y: Memory, wrapped: set<Symbol>, e: set<Effect>,
                                         i: Instruction, vs: seq<Value>, s: Stack, more: set<Addr>, roots: set<Addr>,
                                         fuel: nat)
    requires Faithful(m, p, y) && IsCall(i) && i.symbol in p.definitions && roots <= more
    requires RequiredEffects(m, i).Some? && RequiredEffects(m, i).value <= e
    ensures Charged(e, s, roots, Invoke(p, y, wrapped, p.definitions[i.symbol], vs, s, more, fuel))
    decreases fuel, 1, 1
  {
    var callee := p.definitions[i.symbol];
    InvokeCharged(m, p, y, wrapped, callee, vs, s, more, fuel);
    ChargedToCaller(callee.effects, e, s, more, roots, Invoke(p, y, wrapped, callee, vs, s, more, fuel));
  }

  lemma {:induction false} BodyCharged(m: Module, p: Program, y: Memory, wrapped: set<Symbol>, f: Function,
                                       vs: seq<Value>,
                                       s: Stack, roots: set<Addr>, fuel: nat)
    requires Faithful(m, p, y) && Verified(m, f)
    ensures Declared(f, s, roots, Body(p, y, wrapped, f, vs, s, roots, fuel))
    decreases fuel, 0
  {
    if fuel > 0 && f.entry in BlockMap(f.blocks) {
      var ls := Bind(map[], BlockMap(f.blocks)[f.entry].parameters, vs);
      ExecuteCharged(m, p, y, wrapped, f, f.entry, 0, ls, s, roots, fuel - 1);
    }
  }

  lemma LeavingCharged(e: set<Effect>, s: Stack, roots: set<Addr>, v: Value, t: Stack)
    requires Charged(e, Enter(s), roots, Returned(v, t))
    ensures |t.suspended| > 0 && Charged(e, s, roots, Returned(v, Leave(t)))
  {
    var n := |s.suspended|;
    assert Enter(s).suspended[n] == s.current;
    forall k | 0 <= k < n ensures Leave(t).suspended[k].Keys == s.suspended[k].Keys {
      assert t.suspended[k].Keys == Enter(s).suspended[k].Keys;
    }
    if Effect.Write !in e {
      assert Enter(s).suspended[..n] == s.suspended;
      assert Leave(t) == s;
    }
  }

  /**
   * A run of a verified function does what the function declares and no more. Without Write nothing its callers reach
   * changes; without ManagedAllocate or Safepoint no object comes or goes; without any of these nothing changes at all;
   * without MayPanic it does not panic; and with NoReturn it does not return.
   */
  lemma {:induction false} InvokeCharged(m: Module, p: Program, y: Memory, wrapped: set<Symbol>, f: Function,
                                         vs: seq<Value>, s: Stack, roots: set<Addr>, fuel: nat)
    requires Faithful(m, p, y) && Verified(m, f)
    ensures Declared(f, s, roots, Invoke(p, y, wrapped, f, vs, s, roots, fuel))
    decreases fuel, 1, 0
  {
    if HaveTypes(vs, f.parameterTypes) {
      var u := if f.id in wrapped then Enter(s) else s;
      BodyCharged(m, p, y, wrapped, f, vs, u, roots, fuel);
      var o := Body(p, y, wrapped, f, vs, u, roots, fuel);
      if f.id in wrapped && o.Returned? { LeavingCharged(f.effects, s, roots, o.value, o.stack); }
    }
  }

  // ----- reading -----

  /** Objects that differ at most in the slots of instances and arrays; texts never change. */
  ghost predicate AlikeObjects(o: Object, q: Object) {
    q.kind == o.kind && |q.slots| == |o.slots| && (o.kind == Text ==> q == o)
  }

  ghost predicate Alike(h: Heap, j: Heap) {
    h.Keys == j.Keys && forall a :: a in h ==> AlikeObjects(h[a], j[a])
  }

  ghost predicate AllAlike(hs: seq<Heap>, js: seq<Heap>) {
    |hs| == |js| && forall k :: 0 <= k < |hs| ==> Alike(hs[k], js[k])
  }

  ghost predicate AlikeStacks(s: Stack, t: Stack) { Alike(s.current, t.current) && AllAlike(s.suspended, t.suspended) }

  ghost predicate AlikeFound(o: Option<Object>, q: Option<Object>) {
    if o.None? then q.None? else q.Some? && AlikeObjects(o.value, q.value)
  }

  lemma {:induction false} FindAboveAlike(hs: seq<Heap>, js: seq<Heap>, a: Addr)
    requires AllAlike(hs, js)
    ensures AlikeFound(FindAbove(hs, a), FindAbove(js, a))
  {
    if |hs| > 0 {
      var n := |hs| - 1;
      assert Alike(hs[n], js[n]);
      assert AllAlike(hs[..n], js[..n]);
      if a !in hs[n] { FindAboveAlike(hs[..n], js[..n], a); }
    }
  }

  lemma FindAlike(s: Stack, t: Stack, a: Addr)
    requires AlikeStacks(s, t)
    ensures AlikeFound(Find(s, a), Find(t, a))
  {
    FindAboveAlike(s.suspended, t.suspended, a);
  }

  lemma TextAlike(s: Stack, t: Stack, v: Value)
    requires AlikeStacks(s, t)
    ensures TextOf(s, v) == TextOf(t, v)
  {
    if v.Ref? { FindAlike(s, t, v.address); }
  }

  lemma {:induction false} StorableAlike(s: Stack, t: Stack, v: Value)
    requires AlikeStacks(s, t)
    ensures Storable(s, v) <==> Storable(t, v)
  {
    match v
    case Ref(a) => FindAlike(s, t, a);
    case Just(w) => StorableAlike(s, t, w);
    case _ =>
  }

  /** The same value, and stacks that are still alike; or the same end. */
  ghost predicate SameSeen(r: Result, q: Result) {
    match r
    case Next(v, s) => q.Next? && q.value == v && AlikeStacks(s, q.stack)
    case _ => q == r
  }

  lemma {:induction false} WriteAlike(hs: seq<Heap>, js: seq<Heap>, a: Addr, k: nat, v: Value)
    requires AllAlike(hs, js) && (FindAbove(hs, a).Some? ==> FindAbove(hs, a).value.kind != Text)
    ensures AllAlike(RegionExecution.Write(hs, a, k, v), RegionExecution.Write(js, a, k, v))
  {
    if |hs| > 0 {
      var n := |hs| - 1;
      assert Alike(hs[n], js[n]);
      assert AllAlike(hs[..n], js[..n]);
      if a !in hs[n] { WriteAlike(hs[..n], js[..n], a, k, v); }
    }
  }

  lemma StoreAlike(n: Machine, i: Instruction, s: Stack, t: Stack, a: Addr, k: nat, v: Value)
    requires AlikeStacks(s, t)
    ensures SameSeen(Store(n, i, s, a, k, v), Store(n, i, t, a, k, v))
  {
    FindAlike(s, t, a);
    StorableAlike(s, t, v);
    if a !in s.current && Find(s, a).Some? && Find(s, a).value.kind != Text {
      WriteAlike(s.suspended, t.suspended, a, k, v);
    }
  }

  lemma EqualAlike(n: Machine, i: Instruction, s: Stack, t: Stack, v: Value, w: Value)
    requires AlikeStacks(s, t)
    ensures Equal(n, i, s, v, w) == Equal(n, i, t, v, w)
  {
    if v.Just? && w.Just? {
      TextAlike(s, t, v.inner);
      TextAlike(s, t, w.inner);
    }
  }

  /** Code outside the module sees no more than the verifier charges for. */
  ghost predicate HonestReader(m: Module, n: Machine) {
    forall i, vs, s, t {:trigger n.outside(i, vs, s), n.outside(i, vs, t)} ::
      RequiredEffects(m, i).Some? && Effect.Read !in RequiredEffects(m, i).value && AlikeStacks(s, t) ==>
        SameSeen(n.outside(i, vs, s), n.outside(i, vs, t))
  }

  lemma UnreadAccess(m: Module, i: Instruction)
    requires Accesses(i.opcode) && RequiredEffects(m, i).Some? && Effect.Read !in RequiredEffects(m, i).value
    ensures i.opcode == FieldStore || i.opcode == ArrayStoreChecked || i.opcode == ClassCheckedCast
  {
  }

  lemma AccessBlind(n: Machine, i: Instruction, vs: seq<Value>, s: Stack, t: Stack)
    requires AlikeStacks(s, t) && |vs| > 0 && vs[0].Ref?
    requires i.opcode == FieldStore || i.opcode == ArrayStoreChecked || i.opcode == ClassCheckedCast
    ensures SameSeen(Access(n, i, vs, s), Access(n, i, vs, t))
  {
    if i.opcode == FieldStore {
      if |vs| == 2 { StoreAlike(n, i, s, t, vs[0].address, n.slot(i), vs[1]); }
    } else if i.opcode == ArrayStoreChecked {
      if |vs| == 3 && vs[1].Scalar? && vs[1].n >= 0 { StoreAlike(n, i, s, t, vs[0].address, vs[1].n, vs[2]); }
    } else {
      FindAlike(s, t, vs[0].address);
    }
  }

  predicate HasMeaning(op: Opcode) {
    || Wraps(op) || op == StringEqual || op == StringNotEqual || Calculates(op) || IsChecked(op) || Converts(op)
  }

  lemma MeaningBlind(n: Machine, i: Instruction, vs: seq<Value>, s: Stack, t: Stack)
    requires AlikeStacks(s, t) && HasMeaning(i.opcode)
    ensures SameSeen(Compute(n, i, vs, s), Compute(n, i, vs, t))
  {
    if |vs| == 2 {
      EqualAlike(n, i, s, t, vs[0], vs[1]);
      TextAlike(s, t, vs[0]);
      TextAlike(s, t, vs[1]);
    }
  }

  lemma ComputeBlind(m: Module, n: Machine, i: Instruction, vs: seq<Value>, s: Stack, t: Stack)
    requires AlikeStacks(s, t) && HonestReader(m, n)
    requires RequiredEffects(m, i).Some? && Effect.Read !in RequiredEffects(m, i).value
    ensures SameSeen(Compute(n, i, vs, s), Compute(n, i, vs, t))
  {
    if HasMeaning(i.opcode) {
      MeaningBlind(n, i, vs, s, t);
    } else {
      assert SameSeen(n.outside(i, vs, s), n.outside(i, vs, t));
    }
  }

  lemma AllocationBlind(n: Machine, allot: Allocator, i: Instruction, vs: seq<Value>, s: Stack, t: Stack)
    requires AlikeStacks(s, t) && Allocates(i.opcode) && allot(s) == allot(t)
    ensures SameSeen(Operate(n, allot, i, vs, s), Operate(n, allot, i, vs, t))
  {
    if i.opcode == StringConcat && |vs| == 2 {
      TextAlike(s, t, vs[0]);
      TextAlike(s, t, vs[1]);
    }
  }

  /**
   * An instruction that is not charged with Read gives the same result whatever instances and arrays hold, and makes
   * the same object.
   */
  lemma OperateBlind(m: Module, n: Machine, allot: Allocator, i: Instruction, vs: seq<Value>, s: Stack, t: Stack)
    requires AlikeStacks(s, t) && HonestReader(m, n) && (Allocates(i.opcode) ==> allot(s) == allot(t))
    requires RequiredEffects(m, i).Some? && Effect.Read !in RequiredEffects(m, i).value
    ensures SameSeen(Operate(n, allot, i, vs, s), Operate(n, allot, i, vs, t))
  {
    if Allocates(i.opcode) {
      AllocationBlind(n, allot, i, vs, s, t);
    } else if Accesses(i.opcode) {
      UnreadAccess(m, i);
      if |vs| > 0 && vs[0].Ref? { AccessBlind(n, i, vs, s, t); }
    } else {
      ComputeBlind(m, n, i, vs, s, t);
    }
  }

  ghost predicate SameEnd(a: Outcome, b: Outcome) {
    match a
    case Returned(v, s) => b.Returned? && b.value == v && AlikeStacks(s, b.stack)
    case _ => b == a
  }

  /** The effects of a function that neither reads nor allocates. */
  ghost predicate Blind(e: set<Effect>) { Effect.Read !in e && NoAllocation(e) }

  ghost predicate FaithfulReader(m: Module, p: Program) {
    && HonestReader(m, p.machine)
    && forall x {:trigger x in p.definitions} :: x in p.definitions ==>
         FindFunction(m.functions, x) == Some(p.definitions[x]) && Verified(m, p.definitions[x])
  }

  lemma AllocationIsCharged(m: Module, i: Instruction)
    requires RequiredEffects(m, i).Some?
    ensures Allocates(i.opcode) ==> {ManagedAllocate, Safepoint} <= RequiredEffects(m, i).value
  {
  }

  lemma StepBlind(m: Module, p: Program, y: Memory, e: set<Effect>, i: Instruction, vs: seq<Value>, ls: Locals,
                  s: Stack,
                  t: Stack, roots: set<Addr>)
    requires AlikeStacks(s, t) && HonestReader(m, p.machine) && Blind(e)
    requires RequiredEffects(m, i).Some? && RequiredEffects(m, i).value <= e
    ensures !Allocates(i.opcode)
    ensures SameEnd(Came(Operate(p.machine, y.allot, i, vs, Prepared(y, i, vs, ls, s, roots))),
                    Came(Operate(p.machine, y.allot, i, vs, Prepared(y, i, vs, ls, t, roots))))
  {
    AllocationIsCharged(m, i);
    OperateBlind(m, p.machine, y.allot, i, vs, s, t);
  }

  lemma {:induction false} ExecuteBlind(m: Module, p: Program, y: Memory, f: Function, b: BlockId, k: nat, ls: Locals,
                                        s: Stack, t: Stack, roots: set<Addr>, fuel: nat)
    requires FaithfulReader(m, p) && Verified(m, f) && Blind(f.effects) && AlikeStacks(s, t)
    ensures SameEnd(Execute(p, y, {}, f, b, k, ls, s, roots, fuel), Execute(p, y, {}, f, b, k, ls, t, roots, fuel))
    decreases fuel, 0, 0
  {
    if fuel > 0 && b in BlockMap(f.blocks) {
      var block := BlockMap(f.blocks)[b];
      if k < |block.instructions| {
        InstructBlind(m, p, y, f, b, k, ls, s, t, roots, fuel - 1);
      } else {
        match block.ending
        case Branch(e) => JumpBlind(m, p, y, f, e, ls, s, t, roots, fuel - 1);
        case ConditionalBranch(c, e0, e1) =>
          if c in ls && ls[c].Scalar? {
            JumpBlind(m, p, y, f, if ls[c].n != 0 then e0 else e1, ls, s, t, roots, fuel - 1);
          }
        case _ =>
      }
    }
  }

  lemma {:induction false} JumpBlind(m: Module, p: Program, y: Memory, f: Function, e: Edge, ls: Locals, s: Stack,
                                     t: Stack,
                                     roots: set<Addr>, fuel: nat)
    requires FaithfulReader(m, p) && Verified(m, f) && Blind(f.effects) && AlikeStacks(s, t)
    ensures SameEnd(Jump(p, y, {}, f, e, ls, s, roots, fuel), Jump(p, y, {}, f, e, ls, t, roots, fuel))
    decreases fuel, 1, 0
  {
    if e.target in BlockMap(f.blocks) && Bound(ls, e.arguments) {
      var next := Bind(ls, BlockMap(f.blocks)[e.target].parameters, ValuesOf(ls, e.arguments));
      ExecuteBlind(m, p, y, f, e.target, 0, next, s, t, roots, fuel);
    }
  }

  lemma {:induction false} ResumeBlind(m: Module, p: Program, y: Memory, f: Function, b: BlockId, k: nat,
                                       i: Instruction,
                                       rest: Locals, a: Outcome, c: Outcome, roots: set<Addr>, fuel: nat)
    requires FaithfulReader(m, p) && Verified(m, f) && Blind(f.effects) && SameEnd(a, c)
    ensures SameEnd(Resume(p, y, {}, f, b, k, i, rest, a, roots, fuel),
                    Resume(p, y, {}, f, b, k, i, rest, c, roots, fuel))
    decreases fuel, 1, 0
  {
    if a.Returned? {
      ExecuteBlind(m, p, y, f, b, k + 1, Bind(rest, i.results, [a.value]), a.stack, c.stack, roots, fuel);
    }
  }

  lemma {:induction false} InstructBlind(m: Module, p: Program, y: Memory, f: Function, b: BlockId, k: nat, ls: Locals,
                                         s: Stack, t: Stack, roots: set<Addr>, fuel: nat)
    requires FaithfulReader(m, p) && Verified(m, f) && Blind(f.effects) && AlikeStacks(s, t)
    requires b in BlockMap(f.blocks) && k < |BlockMap(f.blocks)[b].instructions|
    ensures var i := BlockMap(f.blocks)[b].instructions[k];
            SameEnd(Instruct(p, y, {}, f, b, k, i, ls, s, roots, fuel),
                    Instruct(p, y, {}, f, b, k, i, ls, t, roots, fuel))
    decreases fuel, 2, 0
  {
    var i := BlockMap(f.blocks)[b].instructions[k];
    CodeIsCharged(m, f, b, k);
    if Bound(ls, i.operands) {
      var vs, rest := ValuesOf(ls, i.operands), Remaining(p, f, b, k, i, ls);
      if IsCall(i) {
        if i.symbol in p.definitions { CallBlind(m, p, y, f, b, k, i, vs, rest, s, t, roots, fuel); }
      } else {
        StepBlind(m, p, y, f.effects, i, vs, rest, s, t, roots);
        var a := Came(Operate(p.machine, y.allot, i, vs, Prepared(y, i, vs, rest, s, roots)));
        var c := Came(Operate(p.machine, y.allot, i, vs, Prepared(y, i, vs, rest, t, roots)));
        ResumeBlind(m, p, y, f, b, k, i, rest, a, c, roots, fuel);
      }
    }
  }

  lemma {:induction false} CallBlind(m: Module, p: Program, y: Memory, f: Function, b: BlockId, k: nat, i: Instruction,
                                     vs: seq<Value>, rest: Locals, s: Stack, t: Stack, roots: set<Addr>, fuel: nat)
    requires FaithfulReader(m, p) && Verified(m, f) && Blind(f.effects) && AlikeStacks(s, t)
    requires IsCall(i) && i.symbol in p.definitions
    requires RequiredEffects(m, i).Some? && RequiredEffects(m, i).value <= f.effects
    ensures var callee, more := p.definitions[i.symbol], roots + RefsIn(rest);
            SameEnd(Resume(p, y, {}, f, b, k, i, rest, Invoke(p, y, {}, callee, vs, s, more, fuel), roots, fuel),
                    Resume(p, y, {}, f, b, k, i, rest, Invoke(p, y, {}, callee, vs, t, more, fuel), roots, fuel))
    decreases fuel, 1, 1
  {
    var callee, more := p.definitions[i.symbol], roots + RefsIn(rest);
    BlindCallee(callee.effects, f.effects);
    InvokeBlind(m, p, y, callee, vs, s, t, more, fuel);
    ResumeBlind(m, p, y, f, b, k, i, rest, Invoke(p, y, {}, callee, vs, s, more, fuel),
                Invoke(p, y, {}, callee, vs, t, more, fuel), roots, fuel);
  }

  lemma BlindCallee(e: set<Effect>, f: set<Effect>)
    requires e - {NoReturn} <= f && Blind(f)
    ensures Blind(e)
  {
    forall x | x in e && x != NoReturn ensures x in f { assert x in e - {NoReturn}; }
  }

  /**
   * A run of a function that declares neither Read nor an allocation ends the same and returns the same value,
   * whatever instances and arrays hold.
   */
  lemma {:induction false} InvokeBlind(m: Module, p: Program, y: Memory, f: Function, vs: seq<Value>, s: Stack,
                                       t: Stack,
                                       roots: set<Addr>, fuel: nat)
    requires FaithfulReader(m, p) && Verified(m, f) && Blind(f.effects) && AlikeStacks(s, t)
    ensures SameEnd(Invoke(p, y, {}, f, vs, s, roots, fuel), Invoke(p, y, {}, f, vs, t, roots, fuel))
    decreases fuel, 1, 0
  {
    if HaveTypes(vs, f.parameterTypes) && fuel > 0 && f.entry in BlockMap(f.blocks) {
      var ls := Bind(map[], BlockMap(f.blocks)[f.entry].parameters, vs);
      ExecuteBlind(m, p, y, f, f.entry, 0, ls, s, t, roots, fuel - 1);
    }
  }

  // ----- every charge is real -----

  /** A machine that does as little as possible. */
  const PLAIN: Machine := Machine(
    i => Nothing,
    (i, ns) => None,
    (i, ns) => 0,
    (i, n) => [],
    c => [],
    i => 0,
    i => false,
    (k, i) => false,
    i => false,
    i => false,
    (i, x, y) => false,
    (i, vs, s) => Stuck)

  const FIRST: Allocator := s => 0

  /** Some execution of the instruction changes an object that was there. */
  ghost predicate MayWrite(i: Instruction) {
    exists n: Machine, allot: Allocator, vs: seq<Value>, s: Stack, a: Addr :: Writes(n, allot, i, vs, s, a)
  }

  ghost predicate Writes(n: Machine, allot: Allocator, i: Instruction, vs: seq<Value>, s: Stack, a: Addr) {
    var r := Operate(n, allot, i, vs, s);
    r.Next? && Find(s, a).Some? && Find(s, allot(s)).None? && Find(r.stack, a) != Find(s, a)
  }

  /** Some execution adds an object. */
  ghost predicate MayAdd(i: Instruction) {
    exists n: Machine, allot: Allocator, vs: seq<Value>, s: Stack, a: Addr :: AddsAt(n, allot, i, vs, s, a)
  }

  ghost predicate AddsAt(n: Machine, allot: Allocator, i: Instruction, vs: seq<Value>, s: Stack, a: Addr) {
    var r := Operate(n, allot, i, vs, s);
    r.Next? && Find(s, a).None? && Find(r.stack, a).Some?
  }

  /** Some execution panics. */
  ghost predicate MayFail(i: Instruction) {
    exists n: Machine, allot: Allocator, vs: seq<Value>, s: Stack :: Operate(n, allot, i, vs, s) == Fault(i)
  }

  /** The value an execution gives depends on what objects hold. */
  ghost predicate MayRead(i: Instruction) {
    exists n: Machine, allot: Allocator, vs: seq<Value>, s: Stack, t: Stack :: Sees(n, allot, i, vs, s, t)
  }

  ghost predicate Sees(n: Machine, allot: Allocator, i: Instruction, vs: seq<Value>, s: Stack, t: Stack) {
    var r, q := Operate(n, allot, i, vs, s), Operate(n, allot, i, vs, t);
    && s.suspended == t.suspended && s.current.Keys == t.current.Keys && allot(s) == allot(t)
    && (forall a :: a in s.current ==> s.current[a].kind == t.current[a].kind)
    && r.Next? && q.Next? && r.value != q.value
  }

  function Holding(kind: Kind, slots: seq<Value>): Stack { Stack([], map[1 := Object(kind, slots)]) }

  lemma WriteIsReal(i: Instruction)
    requires i.opcode == FieldStore || i.opcode == ArrayStoreChecked
    ensures MayWrite(i)
  {
    var s := Holding(Elements, [Scalar(0)]);
    var vs := if i.opcode == FieldStore then [Ref(1), Scalar(7)] else [Ref(1), Scalar(0), Scalar(7)];
    assert [Scalar(0)][0 := Scalar(7)] == [Scalar(7)];
    assert Operate(PLAIN, FIRST, i, vs, s) == Store(PLAIN, i, s, 1, 0, Scalar(7));
    assert Writes(PLAIN, FIRST, i, vs, s, 1);
  }

  lemma AdditionIsReal(i: Instruction)
    requires Allocates(i.opcode)
    ensures MayAdd(i)
  {
    var s := Stack([], map[]);
    var vs := if i.opcode == ArrayNew || i.opcode == ObjectAlloc then []
              else if i.opcode == StringConcat then [Literal(0, []), Literal(0, [])]
              else [Scalar(0)];
    assert AddsAt(PLAIN, FIRST, i, vs, s, 0);
  }

  /** Loads, lengths and comparisons of strings. */
  predicate ShowsHeap(op: Opcode) {
    op == FieldLoad || op == ArrayLoadChecked || op == ArrayLength || op == StringEqual || op == StringNotEqual
  }

  lemma ReadIsReal(i: Instruction)
    requires ShowsHeap(i.opcode)
    ensures MayRead(i)
  {
    if i.opcode == FieldLoad {
      assert Sees(PLAIN, FIRST, i, [Ref(1)], Holding(Elements, [Scalar(0)]), Holding(Elements, [Scalar(7)]));
    } else if i.opcode == ArrayLoadChecked {
      assert Sees(PLAIN, FIRST, i, [Ref(1), Scalar(0)], Holding(Elements, [Scalar(0)]), Holding(Elements, [Scalar(7)]));
    } else if i.opcode == ArrayLength {
      assert Sees(PLAIN, FIRST, i, [Ref(1)], Holding(Elements, []), Holding(Elements, [Scalar(7)]));
    } else {
      TextsAreSeen(i);
    }
  }

  lemma TextsAreSeen(i: Instruction)
    requires i.opcode == StringEqual || i.opcode == StringNotEqual
    ensures MayRead(i)
  {
    var s, t := Holding(Text, []), Holding(Text, [Scalar(7)]);
    assert Numbers([]) == [] && Numbers([Scalar(7)]) == [7];
    assert TextOf(s, Ref(1)) == Some([]) && TextOf(t, Ref(1)) == Some([7]);
    assert Sees(PLAIN, FIRST, i, [Ref(1), Literal(0, [])], s, t);
  }

  /** Integers of the result's type whose arithmetic overflows, or divides by zero. */
  lemma Overflows(op: Opcode, t: Type) returns (ns: seq<int>)
    requires IsChecked(op) && (t == Int || t == Int32 || t == UInt32 || t == UInt64)
    ensures Checked(op, t, ns).None? && forall k :: 0 <= k < |ns| ==> InRange(t, ns[k])
  {
    if op == IntNegChecked {
      ns := [if IsSigned(t) then Least(t) else 1];
    } else if op == IntAddChecked {
      ns := [Greatest(t), 1];
    } else if op == IntSubChecked {
      ns := [Least(t), 1];
    } else if op == IntMulChecked {
      ns := [Greatest(t), 2];
    } else {
      ns := [1, 0];
    }
  }

  lemma ArithmeticFails(i: Instruction)
    requires IsChecked(i.opcode) && |i.results| == 1
    requires i.results[0].valueType in {Int, Int32, UInt32, UInt64}
    ensures MayFail(i)
  {
    var ns := Overflows(i.opcode, i.results[0].valueType);
    var vs := seq(|ns|, k requires 0 <= k < |ns| => Scalar(ns[k]));
    assert Numbers(vs) == ns;
    assert Operate(PLAIN, FIRST, i, vs, Stack([], map[])) == Fault(i);
  }

  lemma PanicIsReal(i: Instruction)
    requires |i.results| == 1 || i.opcode == ArrayStoreChecked || i.opcode == ArrayLoadChecked
    requires IsChecked(i.opcode) ==> i.results[0].valueType in {Int, Int32, UInt32, UInt64}
    requires IsChecked(i.opcode) || Converts(i.opcode)
             || i.opcode in {OptionalGetChecked, ArrayLoadChecked, ArrayStoreChecked}
    ensures MayFail(i)
  {
    if IsChecked(i.opcode) {
      ArithmeticFails(i);
    } else if Converts(i.opcode) {
      assert Operate(PLAIN, FIRST, i, [Scalar(0)], Stack([], map[])) == Fault(i);
    } else if i.opcode == OptionalGetChecked {
      assert Operate(PLAIN, FIRST, i, [Nothing], Stack([], map[])) == Fault(i);
    } else {
      var vs := if i.opcode == ArrayLoadChecked then [Ref(1), Scalar(0)] else [Ref(1), Scalar(0), Scalar(0)];
      assert Operate(PLAIN, FIRST, i, vs, Holding(Elements, [])) == Fault(i);
    }
  }

  // ----- charges are exact -----

  lemma LocalHasMeaning(op: Opcode)
    requires LocalOperation(op)
    ensures Allocates(op) || Accesses(op) || HasMeaning(op)
  {
  }

  lemma MeaningIsPure(n: Machine, i: Instruction, vs: seq<Value>, s: Stack)
    requires HasMeaning(i.opcode)
    ensures Compute(n, i, vs, s).Next? ==> Compute(n, i, vs, s).stack == s
    ensures Compute(n, i, vs, s).Fault? ==> IsChecked(i.opcode) || Converts(i.opcode) || i.opcode == OptionalGetChecked
  {
  }

  /** Instructions other than stores and allocations leave the heaps alone. */
  lemma OthersArePure(n: Machine, allot: Allocator, i: Instruction, vs: seq<Value>, s: Stack)
    requires LocalOperation(i.opcode) && !Allocates(i.opcode) && i.opcode != FieldStore && i.opcode != ArrayStoreChecked
    ensures Operate(n, allot, i, vs, s).Next? ==> Operate(n, allot, i, vs, s).stack == s
  {
    LocalHasMeaning(i.opcode);
    if !Accesses(i.opcode) { MeaningIsPure(n, i, vs, s); }
  }

  lemma AllocationKeepsFound(n: Machine, allot: Allocator, i: Instruction, vs: seq<Value>, s: Stack, a: Addr)
    requires Allocates(i.opcode) && Operate(n, allot, i, vs, s).Next? && Find(s, a).Some? && Find(s, allot(s)).None?
    ensures Find(Operate(n, allot, i, vs, s).stack, a) == Find(s, a)
  {
  }

  lemma OnlyStoresWrite(i: Instruction)
    requires LocalOperation(i.opcode) && MayWrite(i)
    ensures i.opcode == FieldStore || i.opcode == ArrayStoreChecked
  {
    var n: Machine, allot: Allocator, vs: seq<Value>, s: Stack, a: Addr :| Writes(n, allot, i, vs, s, a);
    if Allocates(i.opcode) {
      AllocationKeepsFound(n, allot, i, vs, s, a);
    } else if i.opcode != FieldStore && i.opcode != ArrayStoreChecked {
      OthersArePure(n, allot, i, vs, s);
    }
  }

  lemma {:induction false} WriteFinds(heaps: seq<Heap>, a: Addr, k: nat, v: Value, x: Addr)
    ensures FindAbove(RegionExecution.Write(heaps, a, k, v), x).Some? <==> FindAbove(heaps, x).Some?
  {
    if |heaps| > 0 {
      var n := |heaps| - 1;
      var w := RegionExecution.Write(heaps, a, k, v);
      WriteKeepsKeys(heaps, a, k, v);
      if a in heaps[n] {
        assert w[..n] == heaps[..n];
      } else {
        WriteFinds(heaps[..n], a, k, v, x);
        assert w[..n] == RegionExecution.Write(heaps[..n], a, k, v);
      }
    }
  }

  lemma StoreFinds(n: Machine, i: Instruction, s: Stack, a: Addr, k: nat, v: Value, x: Addr)
    requires Store(n, i, s, a, k, v).Next?
    ensures Find(Store(n, i, s, a, k, v).stack, x).Some? <==> Find(s, x).Some?
  {
    WriteFinds(s.suspended, a, k, v, x);
  }

  lemma OnlyAllocationsAdd(i: Instruction)
    requires LocalOperation(i.opcode) && MayAdd(i)
    ensures Allocates(i.opcode)
  {
    var n: Machine, allot: Allocator, vs: seq<Value>, s: Stack, a: Addr :| AddsAt(n, allot, i, vs, s, a);
    if i.opcode == FieldStore {
      StoreFinds(n, i, s, vs[0].address, n.slot(i), vs[1], a);
    } else if i.opcode == ArrayStoreChecked {
      StoreFinds(n, i, s, vs[0].address, vs[1].n, vs[2], a);
    } else if !Allocates(i.opcode) {
      OthersArePure(n, allot, i, vs, s);
    }
  }

  lemma OnlyReadersSee(i: Instruction)
    requires LocalOperation(i.opcode) && MayRead(i)
    ensures ShowsHeap(i.opcode) || i.opcode == Compare
  {
    var n: Machine, allot: Allocator, vs: seq<Value>, s: Stack, t: Stack :| Sees(n, allot, i, vs, s, t);
    LocalHasMeaning(i.opcode);
    if i.opcode == ClassCheckedCast {
      SameKind(s, t, vs[0].address);
    } else if !Allocates(i.opcode) && !Accesses(i.opcode) && !ShowsHeap(i.opcode) && i.opcode != Compare {
      MeaningIgnoresHeap(n, i, vs, s, t);
    }
  }

  lemma MeaningIgnoresHeap(n: Machine, i: Instruction, vs: seq<Value>, s: Stack, t: Stack)
    requires HasMeaning(i.opcode) && !ShowsHeap(i.opcode) && i.opcode != Compare
    requires Compute(n, i, vs, s).Next? && Compute(n, i, vs, t).Next?
    ensures Compute(n, i, vs, s).value == Compute(n, i, vs, t).value
  {
  }

  lemma SameKind(s: Stack, t: Stack, a: Addr)
    requires s.suspended == t.suspended && s.current.Keys == t.current.Keys && Find(s, a).Some?
    requires forall x :: x in s.current ==> s.current[x].kind == t.current[x].kind
    ensures Find(t, a).Some? && Find(t, a).value.kind == Find(s, a).value.kind
  {
  }

  /** A comparison of optional strings looks at their texts, although it is not charged with Read. */
  lemma ComparisonReads(i: Instruction)
    requires i.opcode == Compare
    ensures MayRead(i)
  {
    var n := PLAIN.(textual := j => true);
    var s, t := Holding(Text, []), Holding(Text, [Scalar(7)]);
    var vs := [Just(Ref(1)), Just(Literal(0, []))];
    assert n.textual(i) && !n.negated(i);
    TextsCompared(n, i, vs, s, true);
    TextsCompared(n, i, vs, t, false);
    assert Sees(n, FIRST, i, vs, s, t);
  }

  lemma TextsCompared(n: Machine, i: Instruction, vs: seq<Value>, s: Stack, empty: bool)
    requires i.opcode == Compare && n.textual(i) && !n.negated(i) && vs == [Just(Ref(1)), Just(Literal(0, []))]
    requires s == Holding(Text, if empty then [] else [Scalar(7)])
    ensures Operate(n, FIRST, i, vs, s) == Next(Boolean(empty), s)
  {
    assert Numbers([]) == [] && Numbers([Scalar(7)]) == [7];
    assert TextOf(s, Ref(1)) == Some(if empty then [] else [7]);
    assert !AllScalars(vs) by { assert vs[0].Just?; }
    assert Equal(n, i, s, vs[0], vs[1]) == Some(empty);
  }

  lemma OnlyTheseFail(i: Instruction)
    requires LocalOperation(i.opcode) && MayFail(i)
    ensures IsChecked(i.opcode) || Converts(i.opcode)
            || i.opcode in {OptionalGetChecked, ArrayLoadChecked, ArrayStoreChecked}
  {
    var n: Machine, allot: Allocator, vs: seq<Value>, s: Stack :| Operate(n, allot, i, vs, s) == Fault(i);
    LocalHasMeaning(i.opcode);
    if !Allocates(i.opcode) && !Accesses(i.opcode) { MeaningIsPure(n, i, vs, s); }
  }

  /** One result, of an integer type where arithmetic is checked, as the type rules demand. */
  ghost predicate WellShaped(i: Instruction) {
    && (IsChecked(i.opcode) || Converts(i.opcode) || i.opcode == OptionalGetChecked ==> |i.results| == 1)
    && (IsChecked(i.opcode) ==> i.results[0].valueType in {Int, Int32, UInt32, UInt64})
  }

  lemma WritesExactly(m: Module, i: Instruction)
    requires LocalOperation(i.opcode)
    ensures RequiredEffects(m, i).Some? && (Effect.Write in RequiredEffects(m, i).value <==> MayWrite(i))
  {
    if i.opcode == FieldStore || i.opcode == ArrayStoreChecked { WriteIsReal(i); }
    if MayWrite(i) { OnlyStoresWrite(i); }
  }

  lemma AllocatesExactly(m: Module, i: Instruction)
    requires LocalOperation(i.opcode)
    ensures RequiredEffects(m, i).Some?
    ensures ManagedAllocate in RequiredEffects(m, i).value <==> MayAdd(i)
    ensures Safepoint in RequiredEffects(m, i).value <==> MayAdd(i)
  {
    if Allocates(i.opcode) { AdditionIsReal(i); }
    if MayAdd(i) { OnlyAllocationsAdd(i); }
  }

  /** Read is charged exactly for what the heap shows, but for comparisons of optional strings. */
  lemma ReadsExactly(m: Module, i: Instruction)
    requires LocalOperation(i.opcode)
    ensures RequiredEffects(m, i).Some?
    ensures Effect.Read in RequiredEffects(m, i).value <==> MayRead(i) && i.opcode != Compare
    ensures i.opcode == Compare ==> MayRead(i)
  {
    ReadIsCharged(m, i);
    if ShowsHeap(i.opcode) { ReadIsReal(i); }
    if i.opcode == Compare { ComparisonReads(i); }
    if MayRead(i) { OnlyReadersSee(i); }
  }

  lemma ReadIsCharged(m: Module, i: Instruction)
    requires LocalOperation(i.opcode)
    ensures RequiredEffects(m, i).Some? && (Effect.Read in RequiredEffects(m, i).value <==> ShowsHeap(i.opcode))
  {
  }

  /** MayPanic is charged exactly for what can fail, and for allocations, for which there may be no memory. */
  lemma PanicsExactly(m: Module, i: Instruction)
    requires LocalOperation(i.opcode) && WellShaped(i)
    ensures RequiredEffects(m, i).Some?
    ensures MayPanic in RequiredEffects(m, i).value <==> MayFail(i) || Allocates(i.opcode)
  {
    if IsChecked(i.opcode) || Converts(i.opcode)
      || i.opcode in {OptionalGetChecked, ArrayLoadChecked, ArrayStoreChecked} {
      PanicIsReal(i);
    }
    if MayFail(i) { OnlyTheseFail(i); }
  }

  // ----- what may run in a region -----

  /** The instruction enters no function, hands nothing to code outside the module and needs no unsafe capability. */
  ghost predicate StaysInside(m: Module, i: Instruction) {
    && !GoesOutside(m, i) && (forall f :: !MayEnter(m, i, f))
    && RequiredEffects(m, i).Some? && Unsafe !in RequiredEffects(m, i).value
  }

  /** What the region whitelist admits stays inside, whatever the module. */
  lemma WhitelistedStaysInside(m: Module, i: Instruction)
    requires LocalOperation(i.opcode)
    ensures StaysInside(m, i) && RequiredEffects(m, i).value * {Unsafe, NativeAllocate, NoReturn} == {}
  {
  }

  /** A function that any call may enter: it has the name and the slot that the call asks for. */
  function Enterable(id: Symbol): Function {
    Function(id, [], Void, {}, false, false, 0, None, Some(id), [])
  }

  lemma OthersLeave(i: Instruction)
    requires !LocalOperation(i.opcode) && i.opcode != CFunctionAddress
    ensures exists m: Module :: !StaysInside(m, i)
  {
    var f := Enterable(i.symbol);
    var m := Module([f], [], map[], map[]);
    assert f in m.functions && FindFunction(m.functions, i.symbol) == Some(f);
    if MayEnter(m, i, f) || GoesOutside(m, i) {
      assert !StaysInside(m, i);
    } else {
      assert RequiredEffects(m, i).None? || Unsafe in RequiredEffects(m, i).value;
      assert !StaysInside(m, i);
    }
  }

  /**
   * The region whitelist is exact: it admits an opcode if and only if its instructions stay inside in every module. The
   * one exception is taking the address of a C function, which stays inside and is not admitted.
   */
  lemma WhitelistIsExact(i: Instruction)
    ensures LocalOperation(i.opcode) <==> i.opcode != CFunctionAddress && forall m: Module :: StaysInside(m, i)
  {
    if LocalOperation(i.opcode) {
      forall m: Module ensures StaysInside(m, i) { WhitelistedStaysInside(m, i); }
    } else if i.opcode != CFunctionAddress {
      OthersLeave(i);
    }
  }
}
