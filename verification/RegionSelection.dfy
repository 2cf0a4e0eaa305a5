/** Which functions run in an allocation region of their own. */
module RegionSelection {
  import opened Ir
  import opened Cfg
  import opened Collections
  import LoopDetection

  /** Types whose values hold no reference. */
  predicate ScalarBoundary(t: Type) {
    match t
    case Void | Bool | Byte | Int | Float | Int32 | UInt32 | UInt64 | Float32 => true
    case Optional(e) => ScalarBoundary(e)
    case _ => false
  }

  /** Operations that only see SSA inputs, fresh allocations and immutable literals. */
  predicate LocalOperation(op: Opcode) {
    match op
    case Constant | IntNegChecked | IntAddChecked | IntSubChecked | IntMulChecked | IntDivChecked => true
    case FloatNeg | FloatAdd | FloatSub | FloatMul | FloatDiv | BoolNot | BoolAnd | BoolOr | Compare => true
    case CastIntToFloat | CastFloatToIntChecked | CastIntToByteChecked | CastByteToInt | NumericCastChecked => true
    case ClassUpcast | ClassCheckedCast | OptionalNone | OptionalSome | OptionalIsSome | OptionalGetChecked => true
    case StringConcat | StringEqual | StringNotEqual | StringFromInt | StringFromByte | StringFromFloat => true
    case ArrayNew | ArrayLength | ArrayLoadChecked | ArrayStoreChecked | ObjectAlloc | FieldLoad | FieldStore => true
    case _ => false
  }

  predicate IsCall(i: Instruction) { i.opcode == Call || i.opcode == CallDirect }

  predicate Eligible(f: Function) { !f.unsafeCall && f.unsafeRoot.None? && f.blocks != [] }

  ghost predicate Contains(f: Function, i: Instruction) {
    exists b :: b in f.blocks && i in b.instructions
  }

  predicate LocalInstruction(i: Instruction, s: set<Symbol>) {
    if IsCall(i) then i.symbol in s else LocalOperation(i.opcode)
  }

  /** Only local operations, and calls of functions in `s`. */
  ghost predicate Local(f: Function, s: set<Symbol>) {
    forall i {:trigger Contains(f, i)} :: Contains(f, i) ==> LocalInstruction(i, s)
  }

  ghost predicate CallsInto(f: Function, s: set<Symbol>) {
    exists i :: Contains(f, i) && IsCall(i) && i.symbol in s
  }

  // ----- what is selected -----

  ghost predicate ClosedUnder(fs: seq<Function>, s: set<Symbol>) {
    forall f :: f in fs && Eligible(f) && Local(f, s) ==> f.id in s
  }

  /** `order` lists compatible functions, each after everything it calls. */
  ghost predicate Grown(fs: seq<Function>, order: seq<Symbol>) {
    && Distinct(order)
    && forall j {:trigger GrownAt(fs, order, j)} :: 0 <= j < |order| ==> GrownAt(fs, order, j)
  }

  ghost predicate GrownAt(fs: seq<Function>, order: seq<Symbol>, j: nat)
    requires j < |order|
  {
    exists f :: f in fs && f.id == order[j] && Eligible(f) && Local(f, Members(order[..j]))
  }

  /** A compatible function allocates in bulk if it allocates at all and repeats itself or calls one that does. */
  ghost predicate BulkOk(f: Function, bulk: set<Symbol>) {
    f.id in bulk <==> ManagedAllocate in f.effects && (LoopDetection.HasCycle(f) || CallsInto(f, bulk))
  }

  ghost predicate IsBulk(fs: seq<Function>, compatible: set<Symbol>, bulk: set<Symbol>) {
    bulk <= compatible && forall f {:trigger BulkOk(f, bulk)} :: f in fs && f.id in compatible ==> BulkOk(f, bulk)
  }

  /** A bulk allocator that takes and returns no reference. */
  predicate Wrappable(f: Function, bulk: set<Symbol>) {
    f.id in bulk && ScalarBoundary(f.resultType) && forall t :: t in f.parameterTypes ==> ScalarBoundary(t)
  }

  ghost predicate IsSelection(fs: seq<Function>, compatible: set<Symbol>, bulk: set<Symbol>) {
    && ClosedUnder(fs, compatible) && (forall s :: ClosedUnder(fs, s) ==> compatible <= s)
    && (exists order :: Grown(fs, order) && Members(order) == compatible)
    && IsBulk(fs, compatible, bulk)
  }

  ghost predicate UniqueIds(fs: seq<Function>) {
    forall i, j :: 0 <= i < j < |fs| ==> fs[i].id != fs[j].id
  }

  lemma SameFunction(fs: seq<Function>, f: Function, g: Function)
    requires UniqueIds(fs) && f in fs && g in fs && f.id == g.id
    ensures f == g
  {
    var i :| 0 <= i < |fs| && fs[i] == f;
    var j :| 0 <= j < |fs| && fs[j] == g;
  }

  lemma LocalGrows(f: Function, s: set<Symbol>, t: set<Symbol>)
    requires Local(f, s) && s <= t
    ensures Local(f, t)
  {
    forall i | Contains(f, i) ensures LocalInstruction(i, t) { assert LocalInstruction(i, s); }
  }

  /** Whatever was grown is in every closed set, so a closed one that was grown is the least. */
  lemma {:induction false} GrownIsLeast(fs: seq<Function>, order: seq<Symbol>, k: nat, s: set<Symbol>)
    requires Grown(fs, order) && k <= |order| && ClosedUnder(fs, s)
    ensures Members(order[..k]) <= s
  {
    if k > 0 {
      GrownIsLeast(fs, order, k - 1, s);
      assert GrownAt(fs, order, k - 1);
      var f :| f in fs && f.id == order[k - 1] && Eligible(f) && Local(f, Members(order[..k - 1]));
      LocalGrows(f, Members(order[..k - 1]), s);
      assert order[..k] == order[..k - 1] + [order[k - 1]];
    }
  }

  /** Each compatible function only calls compatible functions grown before it: the calls have no cycle. */
  lemma CallsAreOrdered(fs: seq<Function>, order: seq<Symbol>, f: Function, j: nat, i: Instruction)
    requires UniqueIds(fs) && Grown(fs, order) && f in fs && j < |order| && f.id == order[j] && Contains(f, i)
             && IsCall(i)
    ensures exists k :: 0 <= k < j && order[k] == i.symbol
  {
    assert GrownAt(fs, order, j);
    var g :| g in fs && g.id == order[j] && Eligible(g) && Local(g, Members(order[..j]));
    SameFunction(fs, f, g);
    assert LocalInstruction(i, Members(order[..j]));
  }

  /** Compatibility is a fixed point: exactly the eligible functions that are local given the compatible ones. */
  lemma CompatibleExactly(fs: seq<Function>, compatible: set<Symbol>, bulk: set<Symbol>, f: Function)
    requires UniqueIds(fs) && IsSelection(fs, compatible, bulk) && f in fs
    ensures f.id in compatible <==> Eligible(f) && Local(f, compatible)
  {
    if f.id in compatible {
      var order :| Grown(fs, order) && Members(order) == compatible;
      var j :| 0 <= j < |order| && order[j] == f.id;
      assert GrownAt(fs, order, j);
      var g :| g in fs && g.id == order[j] && Eligible(g) && Local(g, Members(order[..j]));
      SameFunction(fs, f, g);
      LocalGrows(f, Members(order[..j]), compatible);
    }
  }

  lemma {:induction false} BulkUnique(fs: seq<Function>, order: seq<Symbol>, compatible: set<Symbol>, a: set<Symbol>,
                                      b: set<Symbol>, k: nat)
    requires UniqueIds(fs) && Grown(fs, order) && k <= |order| && Members(order) == compatible
             && IsBulk(fs, compatible, a) && IsBulk(fs, compatible, b)
    ensures forall j :: 0 <= j < k ==> (order[j] in a <==> order[j] in b)
  {
    if k > 0 {
      BulkUnique(fs, order, compatible, a, b, k - 1);
      assert GrownAt(fs, order, k - 1);
      var f :| f in fs && f.id == order[k - 1] && Eligible(f) && Local(f, Members(order[..k - 1]));
      assert f.id in compatible;
      assert BulkOk(f, a) && BulkOk(f, b);
      forall i | Contains(f, i) && IsCall(i) ensures i.symbol in a <==> i.symbol in b {
        CallsAreOrdered(fs, order, f, k - 1, i);
      }
    }
  }

  /** The selection depends on which functions a module has, not on their order. */
  lemma OrderDoesNotMatter(fs: seq<Function>, gs: seq<Function>, c: set<Symbol>, a: set<Symbol>, d: set<Symbol>,
                           b: set<Symbol>)
    requires UniqueIds(fs) && UniqueIds(gs) && (forall f :: f in fs <==> f in gs) && IsSelection(fs, c, a)
             && IsSelection(gs, d, b)
    ensures c == d && a == b
  {
    assert ClosedUnder(fs, d) && ClosedUnder(gs, c);
    var order :| Grown(fs, order) && Members(order) == c;
    assert IsBulk(fs, c, b) by {
      forall f | f in fs && f.id in c ensures BulkOk(f, b) { assert f in gs; }
    }
    BulkUnique(fs, order, c, a, b, |order|);
    forall x | x in c ensures x in a <==> x in b {
      assert x in Members(order);
      var j :| 0 <= j < |order| && order[j] == x;
    }
  }

  // ----- the selector -----

  /** The definitions by symbol; the first one wins. */
  function Definitions(fs: seq<Function>): map<Symbol, Function> {
    if |fs| == 0 then map[] else Definitions(fs[1..])[fs[0].id := fs[0]]
  }

  lemma {:induction false} DefinitionsHold(fs: seq<Function>, s: Symbol)
    ensures s in Definitions(fs) <==> exists f :: f in fs && f.id == s
  {
    if |fs| > 0 {
      DefinitionsHold(fs[1..], s);
      assert fs == [fs[0]] + fs[1..];
    }
  }

  /** Scan a function: is everything in it local, and does it call a bulk allocator? */
  method Scan(f: Function, definitions: map<Symbol, Function>, compatible: set<Symbol>, bulk: set<Symbol>)
    returns (local: bool, callsBulk: bool)
    requires bulk <= compatible <= definitions.Keys
    ensures (local <==> Local(f, compatible)) && (callsBulk <==> CallsInto(f, bulk))
  {
    local, callsBulk := true, false;
    for k := 0 to |f.blocks|
      invariant ScannedTo(f, k, 0, compatible, bulk, local, callsBulk)
    {
      var b := f.blocks[k];
      for j := 0 to |b.instructions|
        invariant ScannedTo(f, k, j, compatible, bulk, local, callsBulk)
      {
        var i := b.instructions[j];
        if IsCall(i) {
          if i.symbol !in definitions || i.symbol !in compatible { local := false; }
          if i.symbol in definitions && i.symbol in bulk { callsBulk := true; }
        } else if !LocalOperation(i.opcode) {
          local := false;
        }
      }
    }
    ScanMeans(f, compatible, bulk, local, callsBulk);
  }

  /** Places before instruction `j` of block `k`. */
  predicate Before(f: Function, x: nat, y: nat, k: nat, j: nat) {
    x < |f.blocks| && y < |f.blocks[x].instructions| && (x < k || (x == k && y < j))
  }

  ghost predicate ScannedTo(f: Function, k: nat, j: nat, compatible: set<Symbol>, bulk: set<Symbol>, local: bool,
                            callsBulk: bool) {
    && (local <==> forall x: nat, y: nat :: Before(f, x, y, k, j) ==>
         LocalInstruction(f.blocks[x].instructions[y], compatible))
    && (callsBulk <==> exists x: nat, y: nat ::
         Before(f, x, y, k, j) && IsCall(f.blocks[x].instructions[y]) && f.blocks[x].instructions[y].symbol in bulk)
  }

  lemma Placed(f: Function, i: Instruction) returns (x: nat, y: nat)
    requires Contains(f, i)
    ensures Before(f, x, y, |f.blocks|, 0) && f.blocks[x].instructions[y] == i
  {
    var b :| b in f.blocks && i in b.instructions;
    x :| x < |f.blocks| && f.blocks[x] == b;
    y :| y < |b.instructions| && b.instructions[y] == i;
  }

  lemma ScanMeans(f: Function, compatible: set<Symbol>, bulk: set<Symbol>, local: bool, callsBulk: bool)
    requires ScannedTo(f, |f.blocks|, 0, compatible, bulk, local, callsBulk)
    ensures (local <==> Local(f, compatible)) && (callsBulk <==> CallsInto(f, bulk))
  {
    forall x: nat, y: nat | Before(f, x, y, |f.blocks|, 0) ensures Contains(f, f.blocks[x].instructions[y]) {
      assert f.blocks[x] in f.blocks;
    }
    if local {
      forall i | Contains(f, i) ensures LocalInstruction(i, compatible) { var x, y := Placed(f, i); }
    }
    if CallsInto(f, bulk) {
      var i :| Contains(f, i) && IsCall(i) && i.symbol in bulk;
      var x, y := Placed(f, i);
    }
  }

  /** What holds whenever a function has been looked at. */
  ghost predicate Growing(fs: seq<Function>, order: seq<Symbol>, compatible: set<Symbol>, bulk: set<Symbol>) {
    Grown(fs, order) && Members(order) == compatible && IsBulk(fs, compatible, bulk)
  }

  lemma GrowOne(fs: seq<Function>, order: seq<Symbol>, compatible: set<Symbol>, bulk: set<Symbol>, f: Function,
                isBulk: bool)
    requires UniqueIds(fs) && Growing(fs, order, compatible, bulk) && f in fs && f.id !in compatible && Eligible(f)
             && Local(f, compatible)
    requires isBulk <==> ManagedAllocate in f.effects && (LoopDetection.HasCycle(f) || CallsInto(f, bulk))
    ensures Growing(fs, order + [f.id], compatible + {f.id}, if isBulk then bulk + {f.id} else bulk)
  {
    var next, more := order + [f.id], if isBulk then bulk + {f.id} else bulk;
    forall j | 0 <= j < |next| ensures GrownAt(fs, next, j) {
      assert next[..j] == order[..j];
      if j < |order| { assert GrownAt(fs, order, j); } else { assert order[..j] == order; }
    }
    forall g | g in fs && g.id in compatible + {f.id} ensures BulkOk(g, more) {
      if g.id == f.id {
        SameFunction(fs, f, g);
        assert forall i :: Contains(f, i) && IsCall(i) ==> i.symbol != f.id;
      } else {
        assert BulkOk(g, bulk);
        GrownCallees(fs, order, compatible, g);
      }
    }
  }

  /** A compatible function calls compatible functions only. */
  lemma GrownCallees(fs: seq<Function>, order: seq<Symbol>, compatible: set<Symbol>, g: Function)
    requires UniqueIds(fs) && Grown(fs, order) && Members(order) == compatible && g in fs && g.id in compatible
    ensures forall i :: Contains(g, i) && IsCall(i) ==> i.symbol in compatible
  {
    var j :| 0 <= j < |order| && order[j] == g.id;
    forall i | Contains(g, i) && IsCall(i) ensures i.symbol in compatible { CallsAreOrdered(fs, order, g, j, i); }
  }

  /** Nothing that was looked at could have been added. */
  ghost predicate Settled(fs: seq<Function>, k: nat, compatible: set<Symbol>)
    requires k <= |fs|
  {
    forall j {:trigger fs[j]} :: 0 <= j < k ==> fs[j].id in compatible || !Eligible(fs[j]) || !Local(fs[j], compatible)
  }

  /** Grow the compatible functions to a fixed point, from none. */
  method Compatible(fs: seq<Function>) returns (compatible: set<Symbol>, bulk: set<Symbol>)
    requires UniqueIds(fs) && forall f :: f in fs ==> LoopDetection.Closed(f)
    ensures IsSelection(fs, compatible, bulk)
  {
    var definitions := Definitions(fs);
    compatible, bulk := {}, {};
    ghost var order: seq<Symbol> := [];
    var changed := true;
    while changed
      invariant Growing(fs, order, compatible, bulk) && compatible <= definitions.Keys
      invariant !changed ==> Settled(fs, |fs|, compatible)
      decreases |definitions| - |compatible|, changed
    {
      changed := false;
      ghost var before := compatible;
      for k := 0 to |fs|
        invariant Growing(fs, order, compatible, bulk) && compatible <= definitions.Keys && before <= compatible
        invariant changed <==> |compatible| > |before|
        invariant !changed ==> compatible == before && Settled(fs, k, compatible)
      {
        var f := fs[k];
        assert f in fs;
        if f.id !in compatible && Eligible(f) {
          var repeated := LoopDetection.HasLoop(f);
          var local, callsBulk := Scan(f, definitions, compatible, bulk);
          if local {
            GrowOne(fs, order, compatible, bulk, f, (repeated || callsBulk) && ManagedAllocate in f.effects);
            DefinitionsHold(fs, f.id);
            SubsetSize(before, compatible);
            order := order + [f.id];
            compatible := compatible + {f.id};
            if (repeated || callsBulk) && ManagedAllocate in f.effects { bulk := bulk + {f.id}; }
            changed := true;
          }
        }
      }
      SubsetSize(compatible, definitions.Keys);
    }
    assert ClosedUnder(fs, compatible);
    forall s | ClosedUnder(fs, s) ensures compatible <= s {
      GrownIsLeast(fs, order, |order|, s);
      assert order[..|order|] == order;
    }
  }

  /** The functions to wrap. */
  method AllocationRegions(fs: seq<Function>)
    returns (selected: set<Symbol>, compatible: set<Symbol>, bulk: set<Symbol>)
    requires UniqueIds(fs) && forall f :: f in fs ==> LoopDetection.Closed(f)
    ensures IsSelection(fs, compatible, bulk)
    ensures forall f :: f in fs ==> (f.id in selected <==> Wrappable(f, bulk))
  {
    compatible, bulk := Compatible(fs);
    selected := {};
    for k := 0 to |fs|
      invariant forall s :: s in selected <==> exists j :: 0 <= j < k && fs[j].id == s && Wrappable(fs[j], bulk)
    {
      if fs[k].id in bulk && ScalarBoundary(fs[k].resultType) && forall t :: t in fs[k].parameterTypes ==>
          ScalarBoundary(t) {
        selected := selected + {fs[k].id};
      }
    }
    forall f | f in fs ensures f.id in selected <==> Wrappable(f, bulk) {
      var i :| 0 <= i < |fs| && fs[i] == f;
      forall j | 0 <= j < |fs| && fs[j].id == f.id ensures fs[j] == f { SameFunction(fs, fs[j], f); }
    }
  }
}
