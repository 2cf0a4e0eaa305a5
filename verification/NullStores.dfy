/** Leaving out stores of null that a later store in the same block overwrites. */
module NullStores {
  import opened Ir
  import Cfg
  import SsaVerifier

  type Addr = nat

  datatype Value = Null | Ref(address: Addr) | Scalar(n: int)

  /** A field's slot in an object. */
  type Slot = (Addr, nat)

  /** Memory by slot, the values computed so far, and everything else, which only other instructions change. */
  datatype State<W> = State(memory: map<Slot, Value>, env: map<ValueId, Value>, world: W)

  datatype Fault = InvalidOwner | DeadValue | Other(number: int)

  datatype Outcome<W> = Running(state: State<W>) | Panicked(fault: Fault)

  /**
   * What the code generator and the runtime know: where a field is and whether it holds references, which values were
   * lowered to the null constant, which objects the current heap owns and which references are readable, and how all
   * instructions other than field stores and constants behave.
   */
  datatype Machine<!W> = Machine(
    offset: Symbol -> nat,
    managed: Symbol -> bool,
    nulls: set<ValueId>,
    constant: Instruction -> Value,
    owned: (W, Addr) -> bool,
    readable: (W, Value) -> bool,
    other: (Instruction, State<W>) -> Outcome<W>)

  predicate IsStore(i: Instruction) { i.opcode == FieldStore && |i.operands| == 2 }

  predicate IsConstant(i: Instruction) { i.opcode == Constant || i.opcode == OptionalNone }

  // ----- the code generator's test -----

  /**
   * Some instruction from `k` on stores to the same field of the same object, after nothing but constants and stores to
   * that object.
   */
  predicate Overwritten(code: seq<Instruction>, k: nat, owner: ValueId, field: Symbol)
    decreases |code| - k
  {
    k < |code| &&
    if IsConstant(code[k]) then Overwritten(code, k + 1, owner, field)
    else
      && IsStore(code[k]) && code[k].operands[0] == owner
      && (code[k].symbol == field || Overwritten(code, k + 1, owner, field))
  }

  predicate Redundant<W>(m: Machine<W>, code: seq<Instruction>, k: nat) {
    k < |code| && IsStore(code[k]) && code[k].operands[1] in m.nulls
      && Overwritten(code, k + 1, code[k].operands[0], code[k].symbol)
  }

  method RedundantNullStore<W>(m: Machine<W>, code: seq<Instruction>, k: nat) returns (r: bool)
    requires k < |code| && forall i :: i in code && i.opcode == FieldStore ==> |i.operands| == 2
    ensures r <==> Redundant(m, code, k)
  {
    var first := code[k];
    if first.opcode != FieldStore || first.operands[1] !in m.nulls { return false; }
    for index := k + 1 to |code|
      invariant Overwritten(code, k + 1, first.operands[0], first.symbol) <==>
                  Overwritten(code, index, first.operands[0], first.symbol)
    {
      var next := code[index];
      if IsConstant(next) { continue; }
      if next.opcode != FieldStore || next.operands[0] != first.operands[0] { return false; }
      if next.symbol == first.symbol { return true; }
    }
    return false;
  }

  /** Instruction `j` stores to the field, and up to it there are only constants and stores to other fields. */
  ghost predicate CoveredBy(code: seq<Instruction>, k: nat, j: nat, owner: ValueId, field: Symbol) {
    && k <= j < |code| && StoresTo(code[j], owner) && code[j].symbol == field
    && forall i :: k <= i < j ==>
         code[i].opcode == Constant || code[i].opcode == OptionalNone || StoresTo(code[i], owner)
  }

  ghost predicate StoresTo(i: Instruction, owner: ValueId) {
    i.opcode == FieldStore && |i.operands| == 2 && i.operands[0] == owner
  }

  /** The scan finds a later store exactly if there is one that nothing comes between. */
  lemma {:induction false} OverwrittenExactly(code: seq<Instruction>, k: nat, owner: ValueId, field: Symbol)
    ensures Overwritten(code, k, owner, field) <==> exists j: nat :: CoveredBy(code, k, j, owner, field)
    decreases |code| - k
  {
    if k < |code| {
      OverwrittenExactly(code, k + 1, owner, field);
      if Overwritten(code, k, owner, field) {
        if StoresTo(code[k], owner) && code[k].symbol == field {
          assert CoveredBy(code, k, k, owner, field);
        } else {
          var j: nat :| CoveredBy(code, k + 1, j, owner, field);
          assert CoveredBy(code, k, j, owner, field);
        }
      }
      if exists j: nat :: CoveredBy(code, k, j, owner, field) {
        var j: nat :| CoveredBy(code, k, j, owner, field);
        if j > k { assert CoveredBy(code, k + 1, j, owner, field); }
      }
    }
  }

  // ----- what a block does -----

  function Read<W>(m: Machine<W>, s: State<W>, id: ValueId): Value {
    if id in m.nulls || id !in s.env then Null else s.env[id]
  }

  function Bind<W>(s: State<W>, i: Instruction, v: Value): State<W> {
    if |i.results| == 0 then s else s.(env := s.env[i.results[0].id := v])
  }

  function Write<W>(s: State<W>, p: Slot, v: Value): State<W> { s.(memory := s.memory[p := v]) }

  /** A reference is only stored into an object the current heap owns, and only if it is null or readable. */
  function Store<W>(m: Machine<W>, s: State<W>, field: Symbol, owner: Value, v: Value): Outcome<W> {
    if !owner.Ref? || (m.managed(field) && !m.owned(s.world, owner.address)) then Panicked(InvalidOwner)
    else if m.managed(field) && v != Null && !m.readable(s.world, v) then Panicked(DeadValue)
    else Running(Write(s, (owner.address, m.offset(field)), v))
  }

  function Step<W>(m: Machine<W>, i: Instruction, s: State<W>): Outcome<W> {
    if IsStore(i) then Store(m, s, i.symbol, Read(m, s, i.operands[0]), Read(m, s, i.operands[1]))
    else if IsConstant(i) then Running(Bind(s, i, m.constant(i)))
    else m.other(i, s)
  }

  /** The rest of a block, with or without its redundant stores. */
  function Run<W>(m: Machine<W>, code: seq<Instruction>, k: nat, all: bool, s: State<W>): Outcome<W>
    decreases |code| - k
  {
    if k >= |code| then Running(s)
    else if !all && Redundant(m, code, k) then Run(m, code, k + 1, all, s)
    else
      match Step(m, code[k], s)
      case Running(t) => Run(m, code, k + 1, all, t)
      case Panicked(f) => Panicked(f)
  }

  /** A constant is what its value is read as, unless that was lowered to null. */
  lemma ConstantIsBound<W>(m: Machine<W>, i: Instruction, s: State<W>)
    requires IsConstant(i) && |i.results| == 1 && i.results[0].id !in m.nulls
    ensures Step(m, i, s).Running? && Read(m, Step(m, i, s).state, i.results[0].id) == m.constant(i)
    ensures Step(m, i, s).state.memory == s.memory && Step(m, i, s).state.world == s.world
  {
  }

  /** A store puts the value into the slot of its object and field, and changes nothing else. */
  lemma StoreIsSeen<W>(m: Machine<W>, i: Instruction, s: State<W>, p: Slot)
    requires IsStore(i) && Step(m, i, s).Running?
    ensures var t, owner := Step(m, i, s).state, Read(m, s, i.operands[0]);
            && owner.Ref? && t == s.(memory := t.memory)
            && (p == (owner.address, m.offset(i.symbol)) ==> p in t.memory && t.memory[p] == Read(m, s, i.operands[1]))
            && (p != (owner.address, m.offset(i.symbol)) ==>
                  (p in t.memory <==> p in s.memory) && (p in s.memory ==> t.memory[p] == s.memory[p]))
  {
  }

  /** No instruction redefines what an earlier one used. */
  ghost predicate SingleAssignment(code: seq<Instruction>) {
    forall k, j, d :: 0 <= k <= j < |code| && d in code[j].results ==> d.id !in code[k].operands
  }

  ghost predicate Undisturbed(code: seq<Instruction>, k: nat, id: ValueId) {
    forall j, d :: k <= j < |code| && d in code[j].results ==> d.id != id
  }

  lemma ConstantKeeps<W>(m: Machine<W>, code: seq<Instruction>, k: nat, id: ValueId, s: State<W>)
    requires k < |code| && Undisturbed(code, k, id)
    ensures Read(m, Bind(s, code[k], m.constant(code[k])), id) == Read(m, s, id)
  {
    if |code[k].results| > 0 { assert code[k].results[0] in code[k].results; }
  }

  /** A store never looks at memory. */
  lemma StoreIsBlind<W>(m: Machine<W>, i: Instruction, s: State<W>, p: Slot, x: Value)
    requires IsStore(i)
    ensures var a, b := Step(m, i, s), Step(m, i, Write(s, p, x));
            match a
            case Panicked(_) => b == a
            case Running(t) =>
              exists q, v :: t == Write(s, q, v) && Read(m, s, i.operands[0]).Ref?
                && q == (Read(m, s, i.operands[0]).address, m.offset(i.symbol))
                             && b == Running(if q == p then t else Write(t, p, x))
  {
    if Step(m, i, s).Running? {
      var q, v := (Read(m, s, i.operands[0]).address, m.offset(i.symbol)), Read(m, s, i.operands[1]);
      assert Step(m, i, s).state == Write(s, q, v);
      if q == p {
        assert s.memory[p := x][q := v] == s.memory[q := v];
      } else {
        assert s.memory[p := x][q := v] == s.memory[q := v][p := x];
      }
    }
  }

  /** What a slot held does not matter to code that overwrites it before looking. */
  lemma {:induction false} HiddenByOverwrite<W>(m: Machine<W>, code: seq<Instruction>, k: nat, owner: ValueId,
                                                field: Symbol, s: State<W>, a: Addr, x: Value)
    requires Overwritten(code, k, owner, field) && Undisturbed(code, k, owner) && Read(m, s, owner) == Ref(a)
    ensures Run(m, code, k, true, Write(s, (a, m.offset(field)), x)) == Run(m, code, k, true, s)
    decreases |code| - k
  {
    var p := (a, m.offset(field));
    if IsConstant(code[k]) {
      var t := Bind(s, code[k], m.constant(code[k]));
      ConstantKeeps(m, code, k, owner, s);
      HiddenByOverwrite(m, code, k + 1, owner, field, t, a, x);
    } else {
      StoreIsBlind(m, code[k], s, p, x);
      if Step(m, code[k], s).Running? && code[k].symbol != field {
        HiddenByOverwrite(m, code, k + 1, owner, field, Step(m, code[k], s).state, a, x);
      }
    }
  }

  /** If the owner check of the dropped store would fail, so does one that follows, before anything else can happen. */
  lemma {:induction false} StillPanics<W>(m: Machine<W>, code: seq<Instruction>, k: nat, owner: ValueId, field: Symbol,
                                          s: State<W>)
    requires Overwritten(code, k, owner, field) && Undisturbed(code, k, owner)
    requires !Read(m, s, owner).Ref? || (m.managed(field) && !m.owned(s.world, Read(m, s, owner).address))
    ensures Run(m, code, k, true, s) == Panicked(InvalidOwner)
    decreases |code| - k
  {
    if IsConstant(code[k]) {
      ConstantKeeps(m, code, k, owner, s);
      StillPanics(m, code, k + 1, owner, field, Bind(s, code[k], m.constant(code[k])));
    } else if Step(m, code[k], s).Running? {
      StillPanics(m, code, k + 1, owner, field, Step(m, code[k], s).state);
    }
  }

  /**
   * Leaving out all redundant null stores at once changes neither how the block ends nor what any instruction in it
   * sees.
   */
  lemma {:induction false} DroppingPreservesMeaning<W>(m: Machine<W>, code: seq<Instruction>, k: nat, s: State<W>)
    requires SingleAssignment(code)
    ensures Run(m, code, k, false, s) == Run(m, code, k, true, s)
    decreases |code| - k
  {
    if k < |code| {
      if Redundant(m, code, k) {
        DroppingPreservesMeaning(m, code, k + 1, s);
        var owner, field := code[k].operands[0], code[k].symbol;
        assert owner in code[k].operands;
        if Step(m, code[k], s).Running? {
          HiddenByOverwrite(m, code, k + 1, owner, field, s, Read(m, s, owner).address, Null);
        } else {
          StillPanics(m, code, k + 1, owner, field, s);
        }
      } else if Step(m, code[k], s).Running? {
        DroppingPreservesMeaning(m, code, k + 1, Step(m, code[k], s).state);
      }
    }
  }

  /** The verifier guarantees what the proof needs of a block. */
  lemma AcceptedAssignsOnce(f: Function, n: nat)
    requires SsaVerifier.Accepted(f) && n < |f.blocks|
    ensures SingleAssignment(f.blocks[n].instructions)
  {
    var code := f.blocks[n].instructions;
    forall k, j, d | 0 <= k <= j < |code| && d in code[j].results ensures d.id !in code[k].operands {
      if d.id in code[k].operands { UsedAfterDefined(f, n, k, j, d); }
    }
  }

  lemma UsedAfterDefined(f: Function, n: nat, k: nat, j: nat, d: ValueDefinition)
    requires SsaVerifier.Accepted(f) && n < |f.blocks|
    requires k < |f.blocks[n].instructions| && d.id in f.blocks[n].instructions[k].operands
    requires j < |f.blocks[n].instructions| && d in f.blocks[n].instructions[j].results
    ensures j < k
  {
    Cfg.BlockMapAt(f.blocks, n);
    var p, q := Cfg.Point(f.blocks[n].id, k), Cfg.Point(f.blocks[n].id, j + 1);
    DefinesAt(f, n, j, d);
    var r := SsaVerifier.UseHasDefinition(f, d.id, p);
    SsaVerifier.OneDefinition(f, d.id, r, q);
  }

  lemma DefinesAt(f: Function, n: nat, j: nat, d: ValueDefinition)
    requires Cfg.UniqueBlockIds(f.blocks) && n < |f.blocks|
    requires j < |f.blocks[n].instructions| && d in f.blocks[n].instructions[j].results
    ensures var q := Cfg.Point(f.blocks[n].id, j + 1);
            Cfg.IsPoint(Cfg.GraphOf(f), q) && d.id in Cfg.DefsAt(Cfg.GraphOf(f), q)
  {
    Cfg.BlockMapAt(f.blocks, n);
  }
}
