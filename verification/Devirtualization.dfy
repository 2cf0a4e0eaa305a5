/** Calling a method directly when the receiver is known to come from an allocation. */
module Devirtualization {
  import opened Ir
  import opened Cfg
  import opened CanonicalOrder
  import SsaVerifier
  import ClassLayout

  type Definitions = map<ValueId, Instruction>

  /** Instruction `i` of block `k` defines `v`. */
  predicate DefinedAt(f: Function, k: nat, i: nat, v: ValueId) {
    k < |f.blocks| && i < |f.blocks[k].instructions| && exists d ::
        d in f.blocks[k].instructions[i].results && d.id == v
  }

  /** The instructions that define values, by value. */
  ghost predicate IsDefinitions(f: Function, defs: Definitions) {
    && (forall v :: v in defs ==>
         exists k: nat, i: nat :: DefinedAt(f, k, i, v) && f.blocks[k].instructions[i] == defs[v])
    && forall k: nat, i: nat, v :: DefinedAt(f, k, i, v) ==> v in defs
  }

  /** What the verifier checks of every upcast: one operand. */
  ghost predicate UpcastsOk(f: Function) {
    forall b, i :: b in f.blocks && i in b.instructions && i.opcode == ClassUpcast ==> |i.operands| > 0
  }

  /** After `n` upcasts, `v` is a fresh object of class `c`. */
  predicate FromAllocation(defs: Definitions, v: ValueId, c: Symbol, n: nat)
    decreases n
  {
    v in defs &&
    if n == 0 then defs[v].opcode == ObjectAlloc && defs[v].symbol == c
    else defs[v].opcode == ClassUpcast && |defs[v].operands| > 0 && FromAllocation(defs, defs[v].operands[0], c, n - 1)
  }

  /** Dynamic classes of values at run time: an allocation makes its class, and an upcast changes nothing. */
  ghost predicate Dynamic(defs: Definitions, class_: map<ValueId, Symbol>) {
    && (forall v :: v in defs && v in class_ && defs[v].opcode == ObjectAlloc ==> class_[v] == defs[v].symbol)
    && forall v :: v in defs && v in class_ && defs[v].opcode == ClassUpcast && |defs[v].operands| > 0 ==>
         defs[v].operands[0] in class_ && class_[v] == class_[defs[v].operands[0]]
  }

  lemma {:induction false} ProvenanceIsExact(defs: Definitions, v: ValueId, c: Symbol, n: nat,
                                             class_: map<ValueId, Symbol>)
    requires FromAllocation(defs, v, c, n) && Dynamic(defs, class_) && v in class_
    ensures class_[v] == c
    decreases n
  {
    if n > 0 {
      ProvenanceIsExact(defs, defs[v].operands[0], c, n - 1, class_);
    }
  }

  /** In an accepted function an operand's definition comes before the instruction that uses it. */
  lemma EarlierPlace(f: Function, k: nat, i: nat, v: ValueId, k': nat, i': nat)
    requires SsaVerifier.Accepted(f) && k < |f.blocks| && i < |f.blocks[k].instructions|
    requires v in f.blocks[k].instructions[i].operands && DefinedAt(f, k', i', v)
    ensures k' < k || (k' == k && i' < i)
  {
    var g := GraphOf(f);
    BlockMapAt(f.blocks, k);
    BlockMapAt(f.blocks, k');
    var p, q := Point(f.blocks[k].id, i), Point(f.blocks[k'].id, i' + 1);
    DefinitionPoint(f, k', i', v);
    var d := SsaVerifier.UseHasDefinition(f, v, p);
    SsaVerifier.OneDefinition(f, v, d, q);
    if q.block != p.block {
      BlockComesFirst(f, k, k');
    }
  }

  lemma DefinitionPoint(f: Function, k: nat, i: nat, v: ValueId)
    requires UniqueBlockIds(f.blocks) && DefinedAt(f, k, i, v)
    ensures var q := Point(f.blocks[k].id, i + 1); IsPoint(GraphOf(f), q) && v in DefsAt(GraphOf(f), q)
  {
    BlockMapAt(f.blocks, k);
  }

  /** A block that dominates another comes before it. */
  lemma BlockComesFirst(f: Function, k: nat, k': nat)
    requires SsaVerifier.Accepted(f) && k < |f.blocks| && k' < |f.blocks|
    requires Dominates(GraphOf(f), f.blocks[k'].id, f.blocks[k].id)
    ensures k' <= k
  {
    BlockMapAt(f.blocks, k);
    BlockMapAt(f.blocks, k');
    var order := SsaVerifier.Order(f.blocks);
    DominatorsComeFirst(GraphOf(f), order, k, f.blocks[k'].id);
    var j :| 0 <= j < k + 1 && order[j] == f.blocks[k'].id;
  }

  ghost predicate AllocatedAs(defs: Definitions, v: ValueId, c: Symbol) {
    exists n: nat :: FromAllocation(defs, v, c, n)
  }

  /** Where a value is defined; the order of such places bounds the search. */
  ghost predicate PlaceOf(f: Function, defs: Definitions, v: ValueId, k: nat, i: nat) {
    v in defs ==> DefinedAt(f, k, i, v) && f.blocks[k].instructions[i] == defs[v]
  }

  lemma FirstPlace(f: Function, defs: Definitions, v: ValueId) returns (k: nat, i: nat)
    requires IsDefinitions(f, defs)
    ensures PlaceOf(f, defs, v, k, i)
  {
    k, i := 0, 0;
    if v in defs { k, i :| DefinedAt(f, k, i, v) && f.blocks[k].instructions[i] == defs[v]; }
  }

  lemma NextPlace(f: Function, defs: Definitions, v: ValueId, k: nat, i: nat) returns (k': nat, i': nat)
    requires SsaVerifier.Accepted(f) && IsDefinitions(f, defs) && UpcastsOk(f) && v in defs && PlaceOf(f, defs, v, k, i)
             && defs[v].opcode == ClassUpcast
    ensures |defs[v].operands| > 0 && PlaceOf(f, defs, defs[v].operands[0], k', i')
    ensures defs[v].operands[0] in defs ==> k' < k || (k' == k && i' < i)
  {
    assert f.blocks[k] in f.blocks && defs[v] in f.blocks[k].instructions;
    var operand := defs[v].operands[0];
    k', i' := FirstPlace(f, defs, operand);
    if operand in defs { EarlierPlace(f, k, i, operand, k', i'); }
  }

  lemma ThroughUpcast(defs: Definitions, v: ValueId, c: Symbol)
    requires v in defs && defs[v].opcode == ClassUpcast && |defs[v].operands| > 0
    ensures AllocatedAs(defs, v, c) <==> AllocatedAs(defs, defs[v].operands[0], c)
  {
    if AllocatedAs(defs, defs[v].operands[0], c) {
      var n: nat :| FromAllocation(defs, defs[v].operands[0], c, n);
      assert FromAllocation(defs, v, c, n + 1);
    }
    if AllocatedAs(defs, v, c) {
      var n: nat :| FromAllocation(defs, v, c, n);
      assert FromAllocation(defs, defs[v].operands[0], c, n - 1);
    }
  }

  ghost predicate SameProvenance(defs: Definitions, v: ValueId, id: ValueId) {
    forall c {:trigger AllocatedAs(defs, v, c)} {:trigger AllocatedAs(defs, id, c)} :: AllocatedAs(defs, v, c) <==>
        AllocatedAs(defs, id, c)
  }

  lemma StepBack(defs: Definitions, v: ValueId, id: ValueId)
    requires SameProvenance(defs, v, id) && id in defs && defs[id].opcode == ClassUpcast && |defs[id].operands| > 0
    ensures SameProvenance(defs, v, defs[id].operands[0])
  {
    forall c ensures AllocatedAs(defs, v, c) <==> AllocatedAs(defs, defs[id].operands[0], c) {
      ThroughUpcast(defs, id, c);
    }
  }

  /** The class a value was allocated with, if only upcasts lie between. */
  method AllocatedClass(f: Function, defs: Definitions, v: ValueId) returns (r: Option<Symbol>)
    requires SsaVerifier.Accepted(f) && IsDefinitions(f, defs) && UpcastsOk(f)
    ensures if r.Some? then AllocatedAs(defs, v, r.value) else forall c :: !AllocatedAs(defs, v, c)
  {
    var id := v;
    ghost var k, i := FirstPlace(f, defs, v);
    while true
      invariant PlaceOf(f, defs, id, k, i) && SameProvenance(defs, v, id)
      decreases id in defs, k, i
    {
      if id !in defs { return None; }
      var d := defs[id];
      if d.opcode == ObjectAlloc {
        assert FromAllocation(defs, id, d.symbol, 0);
        return Some(d.symbol);
      }
      if d.opcode != ClassUpcast { return None; }
      k, i := NextPlace(f, defs, id, k, i);
      StepBack(defs, v, id);
      id := d.operands[0];
    }
  }

  /** A direct call chosen from allocation provenance reaches the method that the virtual call would load. */
  method DirectTarget(f: Function, defs: Definitions, b: ClassLayout.Builder, cs: ClassLayout.Classes,
                      ghost rank: map<Symbol, nat>,
                      receiver: ValueId, s: Symbol, ghost class_: map<ValueId, Symbol>)
    returns (target: Option<Symbol>)
    requires SsaVerifier.Accepted(f) && IsDefinitions(f, defs) && UpcastsOk(f) && Dynamic(defs, class_)
             && receiver in class_
    requires b.Valid(cs, rank) && class_[receiver] in b.layouts && s in b.layouts[class_[receiver]].slots
    ensures target.Some? <==> exists c :: AllocatedAs(defs, receiver, c)
    ensures target.Some? ==> target == ClassLayout.Nearest(cs, rank, class_[receiver], s)
  {
    var exact := AllocatedClass(f, defs, receiver);
    if exact.None? { return None; }
    ghost var n: nat :| FromAllocation(defs, receiver, exact.value, n);
    ProvenanceIsExact(defs, receiver, exact.value, n, class_);
    var t := b.ExactTarget(cs, rank, exact.value, s);
    return Some(t);
  }
}
