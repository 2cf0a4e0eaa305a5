/** Instructions on native memory, and what the verifier charges for them. */
module NativeExecution {
  import opened Ir
  import opened Effects

  datatype Value = Number(n: int) | Place(block: nat, index: int)

  /** Blocks of cells, and which of them the native allocator gave out; the others are on the stack. */
  datatype Memory = Memory(blocks: map<nat, seq<Value>>, owned: set<nat>)

  /** An instruction goes on, panics, or has no defined behaviour. */
  datatype Result = Next(value: Option<Value>, memory: Memory) | Fault | Undefined

  predicate IsNative(op: Opcode) {
    op in {StackAlloc, PointerLoad, PointerStore, PointerOffset, PointerDifference, PointerCompare, PointerCast,
           NativeFieldAddress, NativeIndexAddressChecked, NativeAlloc, NativeRealloc, NativeFree}
  }

  predicate InBounds(m: Memory, p: Value) {
    p.Place? && p.block in m.blocks && 0 <= p.index < |m.blocks[p.block]|
  }

  /** The start of a block that the allocator gave out. */
  predicate IsOwned(m: Memory, p: Value) {
    p.Place? && p.block in m.blocks && p.block in m.owned && p.index == 0
  }

  function Cells(n: nat): seq<Value> { seq(n, i => Number(0)) }

  /** As many cells as asked for, with what the old block held. */
  function Resized(cells: seq<Value>, n: nat): seq<Value> {
    if n <= |cells| then cells[..n] else cells + Cells(n - |cells|)
  }

  function Given(m: Memory, b: nat, cells: seq<Value>, owned: bool): Memory {
    Memory(m.blocks[b := cells], if owned then m.owned + {b} else m.owned)
  }

  function Without(m: Memory, b: nat): Memory { Memory(m.blocks - {b}, m.owned - {b}) }

  function Same(m: Memory, v: Value): Result { Next(Some(v), m) }

  /** Allocations ask for a number of elements; the size is checked, and without memory the allocator panics. */
  function Allocate(m: Memory, n: Value, answer: Option<nat>, owned: bool): Result {
    if !n.Number? then Undefined
    else if n.n < 0 then Fault
    else if answer.None? then if owned then Fault else Undefined
    else Next(Some(Place(answer.value, 0)), Given(m, answer.value, Cells(n.n), owned))
  }

  function Reallocate(m: Memory, p: Value, n: Value, answer: Option<nat>): Result {
    if !IsOwned(m, p) || !n.Number? then Undefined
    else if n.n < 0 || answer.None? then Fault
    else Next(Some(Place(answer.value, 0)),
              Given(Without(m, p.block), answer.value, Resized(m.blocks[p.block], n.n), true))
  }

  /**
   * What an instruction does with its operands after the capability. `answer` is the block an allocator answers with,
   * `offset` the offset of the field in question, and `count` the number of elements of the array in question.
   */
  function Operate(op: Opcode, vs: seq<Value>, m: Memory, answer: Option<nat>, offset: nat, count: nat): Result {
    if |vs| == 0 then Undefined
    else if op == StackAlloc then Allocate(m, vs[0], answer, false)
    else if op == NativeAlloc then Allocate(m, vs[0], answer, true)
    else if !vs[0].Place? then Undefined
    else
      var p := vs[0];
      if op == PointerLoad then if InBounds(m, p) then Same(m, m.blocks[p.block][p.index]) else Undefined
      else if op == PointerCast then Same(m, p)
      else if op == NativeFieldAddress then Same(m, Place(p.block, p.index + offset))
      else if op == NativeFree then if IsOwned(m, p) then Next(None, Without(m, p.block)) else Undefined
      else if |vs| == 1 then Undefined
      else if op == PointerStore then
        if InBounds(m, p) then Next(None, m.(blocks := m.blocks[p.block := m.blocks[p.block][p.index := vs[1]]]))
        else Undefined
      else if op == NativeRealloc then Reallocate(m, p, vs[1], answer)
      else if vs[1].Number? then
        if op == PointerOffset then Same(m, Place(p.block, p.index + vs[1].n))
        else if op == NativeIndexAddressChecked then
          if 0 <= vs[1].n < count then Same(m, Place(p.block, p.index + vs[1].n)) else Fault
        else Undefined
      else if op == PointerDifference && p.block == vs[1].block then Same(m, Number(p.index - vs[1].index))
      else if op == PointerCompare then Same(m, Number(if p == vs[1] then 1 else 0))
      else Undefined
  }

  ghost predicate Answered(m: Memory, answer: Option<nat>) { answer.Some? ==> answer.value !in m.blocks }

  // ----- what instructions can do -----

  ghost predicate Changes(m: Memory, t: Memory) {
    exists b :: b in m.blocks && !(b in t.blocks && t.blocks[b] == m.blocks[b])
  }

  ghost predicate Grows(m: Memory, t: Memory) { exists b :: b in t.owned && b !in m.owned }

  /** Some execution changes or takes away memory that was there. */
  ghost predicate MayWrite(op: Opcode) {
    exists vs, m, answer, offset, count :: WritesTo(op, vs, m, answer, offset, count)
  }

  ghost predicate WritesTo(op: Opcode, vs: seq<Value>, m: Memory, answer: Option<nat>, offset: nat, count: nat) {
    var r := Operate(op, vs, m, answer, offset, count);
    Answered(m, answer) && r.Next? && Changes(m, r.memory)
  }

  /** Some execution gets memory from the allocator. */
  ghost predicate MayAllocate(op: Opcode) {
    exists vs, m, answer, offset, count :: AllocatesFrom(op, vs, m, answer, offset, count)
  }

  ghost predicate AllocatesFrom(op: Opcode, vs: seq<Value>, m: Memory, answer: Option<nat>, offset: nat, count: nat) {
    var r := Operate(op, vs, m, answer, offset, count);
    Answered(m, answer) && r.Next? && Grows(m, r.memory)
  }

  ghost predicate MayFail(op: Opcode) {
    exists vs, m, answer, offset, count :: Operate(op, vs, m, answer, offset, count) == Fault
  }

  /** The value depends on what cells hold. */
  ghost predicate MayRead(op: Opcode) {
    exists vs, m, t, answer, offset, count :: SeesIn(op, vs, m, t, answer, offset, count)
  }

  ghost predicate SameShape(m: Memory, t: Memory) {
    && m.owned == t.owned && m.blocks.Keys == t.blocks.Keys
    && forall b :: b in m.blocks ==> |m.blocks[b]| == |t.blocks[b]|
  }

  ghost predicate SeesIn(op: Opcode, vs: seq<Value>, m: Memory, t: Memory, answer: Option<nat>, offset: nat,
                         count: nat) {
    var r, q := Operate(op, vs, m, answer, offset, count), Operate(op, vs, t, answer, offset, count);
    SameShape(m, t) && r.Next? && q.Next? && r.value != q.value
  }

  // ----- and what they are charged -----

  const ONE: Memory := Memory(map[0 := [Number(0)]], {0})

  const OTHER: Memory := Memory(map[0 := [Number(7)]], {0})

  lemma WriteIsReal(op: Opcode)
    requires op == PointerStore || op == NativeFree || op == NativeRealloc
    ensures MayWrite(op)
  {
    var vs := if op == PointerStore then [Place(0, 0), Number(7)]
              else if op == NativeFree then [Place(0, 0)] else [Place(0, 0), Number(1)];
    var r := Operate(op, vs, ONE, Some(1), 0, 0);
    assert 0 in ONE.blocks;
    assert op == PointerStore ==> r.memory.blocks[0] == [Number(7)];
    assert Changes(ONE, r.memory);
    assert WritesTo(op, vs, ONE, Some(1), 0, 0);
  }

  lemma OnlyTheseWrite(op: Opcode)
    requires IsNative(op) && MayWrite(op)
    ensures op == PointerStore || op == NativeFree || op == NativeRealloc
  {
    var vs, m, answer, offset, count :| WritesTo(op, vs, m, answer, offset, count);
    var b :| b in m.blocks && var t := Operate(op, vs, m, answer, offset, count).memory;
             !(b in t.blocks && t.blocks[b] == m.blocks[b]);
  }

  lemma AllocationIsReal(op: Opcode)
    requires op == NativeAlloc || op == NativeRealloc
    ensures MayAllocate(op)
  {
    var vs := if op == NativeAlloc then [Number(1)] else [Place(0, 0), Number(1)];
    var r := Operate(op, vs, ONE, Some(1), 0, 0);
    assert 1 in r.memory.owned && 1 !in ONE.owned;
    assert AllocatesFrom(op, vs, ONE, Some(1), 0, 0);
  }

  lemma OnlyTheseAllocate(op: Opcode)
    requires IsNative(op) && MayAllocate(op)
    ensures op == NativeAlloc || op == NativeRealloc
  {
    var vs, m, answer, offset, count :| AllocatesFrom(op, vs, m, answer, offset, count);
  }

  lemma FailureIsReal(op: Opcode)
    requires op == StackAlloc || op == NativeAlloc || op == NativeRealloc || op == NativeIndexAddressChecked
    ensures MayFail(op)
  {
    var vs := if op == StackAlloc || op == NativeAlloc then [Number(-1)] else [Place(0, 0), Number(-1)];
    assert Operate(op, vs, ONE, None, 0, 0) == Fault;
  }

  lemma OnlyTheseFail(op: Opcode)
    requires IsNative(op) && MayFail(op)
    ensures op == StackAlloc || op == NativeAlloc || op == NativeRealloc || op == NativeIndexAddressChecked
  {
    var vs, m, answer, offset, count :| Operate(op, vs, m, answer, offset, count) == Fault;
  }

  lemma ReadIsReal()
    ensures MayRead(PointerLoad)
  {
    assert SeesIn(PointerLoad, [Place(0, 0)], ONE, OTHER, None, 0, 0);
  }

  lemma OnlyLoadsRead(op: Opcode)
    requires IsNative(op) && MayRead(op)
    ensures op == PointerLoad
  {
    var vs, m, t, answer, offset, count :| SeesIn(op, vs, m, t, answer, offset, count);
  }

  lemma WritersAre(op: Opcode)
    requires IsNative(op)
    ensures MayWrite(op) <==> op == PointerStore || op == NativeFree || op == NativeRealloc
  {
    if op == PointerStore || op == NativeFree || op == NativeRealloc { WriteIsReal(op); }
    if MayWrite(op) { OnlyTheseWrite(op); }
  }

  lemma AllocatorsAre(op: Opcode)
    requires IsNative(op)
    ensures MayAllocate(op) <==> op == NativeAlloc || op == NativeRealloc
  {
    if op == NativeAlloc || op == NativeRealloc { AllocationIsReal(op); }
    if MayAllocate(op) { OnlyTheseAllocate(op); }
  }

  lemma FailuresAre(op: Opcode)
    requires IsNative(op)
    ensures MayFail(op) <==>
              op == StackAlloc || op == NativeAlloc || op == NativeRealloc || op == NativeIndexAddressChecked
  {
    if op == StackAlloc || op == NativeAlloc || op == NativeRealloc || op == NativeIndexAddressChecked {
      FailureIsReal(op);
    }
    if MayFail(op) { OnlyTheseFail(op); }
  }

  lemma ReadersAre(op: Opcode)
    requires IsNative(op)
    ensures MayRead(op) <==> op == PointerLoad
  {
    if op == PointerLoad { ReadIsReal(); }
    if MayRead(op) { OnlyLoadsRead(op); }
  }

  /**
   * Native instructions are charged exactly for what they can do, but for one: a reallocation may take a block away,
   * as a deallocation does, and is not charged with Write.
   */
  lemma ChargedExactly(m: Module, i: Instruction)
    requires IsNative(i.opcode)
    ensures RequiredEffects(m, i).Some? && Unsafe in RequiredEffects(m, i).value
    ensures Effect.Write in RequiredEffects(m, i).value <==> MayWrite(i.opcode) && i.opcode != NativeRealloc
    ensures NativeAllocate in RequiredEffects(m, i).value <==> MayAllocate(i.opcode)
    ensures MayPanic in RequiredEffects(m, i).value <==> MayFail(i.opcode)
    ensures Effect.Read in RequiredEffects(m, i).value <==> MayRead(i.opcode)
    ensures RequiredEffects(m, i).value * {ManagedAllocate, Safepoint, NoReturn} == {}
    ensures i.opcode == NativeRealloc ==> MayWrite(i.opcode)
  {
    Charges(m, i, i.opcode, RequiredEffects(m, i));
    WritersAre(i.opcode);
    AllocatorsAre(i.opcode);
    FailuresAre(i.opcode);
    ReadersAre(i.opcode);
  }

  lemma Charges(m: Module, i: Instruction, op: Opcode, e: Option<set<Effect>>)
    requires IsNative(op) && op == i.opcode && e == RequiredEffects(m, i)
    ensures e.Some? && Unsafe in e.value && e.value * {ManagedAllocate, Safepoint, NoReturn} == {}
    ensures Effect.Write in e.value <==> op == PointerStore || op == NativeFree
    ensures NativeAllocate in e.value <==> op == NativeAlloc || op == NativeRealloc
    ensures MayPanic in e.value <==>
              op == StackAlloc || op == NativeAlloc || op == NativeRealloc || op == NativeIndexAddressChecked
    ensures Effect.Read in e.value <==> op == PointerLoad
  {
  }

  // ----- laws -----

  /** A load gives what was stored last, and a store changes no other cell. */
  lemma LoadAfterStore(m: Memory, p: Value, q: Value, v: Value)
    requires InBounds(m, p) && InBounds(m, q)
    ensures Operate(PointerStore, [p, v], m, None, 0, 0).Next?
    ensures var t := Operate(PointerStore, [p, v], m, None, 0, 0).memory;
            Operate(PointerLoad, [q], t, None, 0, 0) == Same(t, if q == p then v else m.blocks[q.block][q.index])
  {
  }

  /** A new block can be freed, which leaves the memory as it was. */
  lemma FreeAfterAllocate(m: Memory, n: nat, b: nat)
    requires b !in m.blocks && b !in m.owned
    ensures Operate(NativeAlloc, [Number(n)], m, Some(b), 0, 0).Next?
    ensures var r := Operate(NativeAlloc, [Number(n)], m, Some(b), 0, 0);
            r.value == Some(Place(b, 0)) && Operate(NativeFree, [Place(b, 0)], r.memory, None, 0, 0) == Next(None, m)
  {
    var t := Operate(NativeAlloc, [Number(n)], m, Some(b), 0, 0).memory;
    assert t.blocks - {b} == m.blocks && t.owned - {b} == m.owned;
  }

  /** Moving a pointer and taking the difference are inverse. */
  lemma DifferenceAfterOffset(m: Memory, p: Value, n: int)
    requires p.Place?
    ensures Operate(PointerOffset, [p, Number(n)], m, None, 0, 0).Next?
    ensures var q := Operate(PointerOffset, [p, Number(n)], m, None, 0, 0).value;
            q.Some? && Operate(PointerDifference, [q.value, p], m, None, 0, 0) == Same(m, Number(n))
  {
  }

  /** A reallocation keeps what fits. */
  lemma ReallocateKeeps(m: Memory, p: Value, n: nat, b: nat, k: nat)
    requires IsOwned(m, p) && b !in m.blocks && k < n && k < |m.blocks[p.block]|
    ensures Operate(NativeRealloc, [p, Number(n)], m, Some(b), 0, 0).Next?
    ensures var t := Operate(NativeRealloc, [p, Number(n)], m, Some(b), 0, 0).memory;
            b in t.blocks && |t.blocks[b]| == n && t.blocks[b][k] == m.blocks[p.block][k] && p.block !in t.blocks
  {
  }
}
