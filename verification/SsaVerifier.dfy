/** Verification of a function body: unique definitions, dominated uses, canonical order. */
module SsaVerifier {
  import opened Ir
  import opened Cfg
  import opened Dominance
  import opened CanonicalOrder

  /** A value together with the point at which it is bound, or at which it is read. */
  datatype Site = Site(value: ValueId, at: Point)

  datatype Definition = Definition(valueType: Type, at: Point)

  datatype Entry = Entry(value: ValueId, definition: Definition)

  // ----- what the verifier registers, in order -----

  function Defined(ds: seq<ValueDefinition>, at: Point): (r: seq<Entry>)
    ensures |r| == |ds| && forall i :: 0 <= i < |ds| ==> r[i] == Entry(ds[i].id, Definition(ds[i].valueType, at))
  {
    seq(|ds|, i requires 0 <= i < |ds| => Entry(ds[i].id, Definition(ds[i].valueType, at)))
  }

  function Read(vs: seq<ValueId>, at: Point): (r: seq<Site>)
    ensures |r| == |vs| && forall i :: 0 <= i < |vs| ==> r[i] == Site(vs[i], at)
  {
    seq(|vs|, i requires 0 <= i < |vs| => Site(vs[i], at))
  }

  /** Definitions of a block up to its `n`-th instruction. */
  function BlockDefinitions(b: Block, n: nat): seq<Entry>
    requires n <= |b.instructions|
  {
    if n == 0 then Defined(b.parameters, Point(b.id, 0))
    else BlockDefinitions(b, n - 1) + Defined(b.instructions[n - 1].results, Point(b.id, n))
  }

  function Definitions(bs: seq<Block>): seq<Entry> {
    if |bs| == 0 then []
    else BlockDefinitions(bs[0], |bs[0].instructions|) + Definitions(bs[1..])
  }

  function AllDefinitions(f: Function): seq<Entry> {
    (if f.unsafeRoot.Some? then Defined([f.unsafeRoot.value], Point(f.entry, 0)) else []) + Definitions(f.blocks)
  }

  function TerminatorReads(t: Terminator): seq<ValueId> {
    match t
    case Branch(e) => e.arguments
    case ConditionalBranch(c, e0, e1) => [c] + e0.arguments + e1.arguments
    case Return(v) => if v.Some? then [v.value] else []
    case Panic => []
  }

  function BlockReads(b: Block, n: nat): seq<Site>
    requires n <= |b.instructions|
  {
    if n == 0 then []
    else BlockReads(b, n - 1) + Read(b.instructions[n - 1].operands, Point(b.id, n - 1))
  }

  function AllReads(bs: seq<Block>): seq<Site> {
    if |bs| == 0 then []
    else BlockReads(bs[0], |bs[0].instructions|)
         + Read(TerminatorReads(bs[0].ending), Point(bs[0].id, |bs[0].instructions|))
         + AllReads(bs[1..])
  }

  function Order(bs: seq<Block>): (r: seq<BlockId>)
    ensures |r| == |bs| && forall i :: 0 <= i < |bs| ==> r[i] == bs[i].id
  {
    seq(|bs|, i requires 0 <= i < |bs| => bs[i].id)
  }

  // ----- what acceptance means -----

  ghost predicate UniqueDefinitions(es: seq<Entry>) {
    forall i, j :: 0 <= i < j < |es| ==> es[i].value != es[j].value
  }

  /** Within a block the definition comes first; across blocks its block dominates the use. */
  ghost predicate Dominated(g: Graph, d: Point, u: Point) {
    if d.block == u.block then d.index <= u.index else Dominates(g, d.block, u.block)
  }

  ghost predicate SiteOk(f: Function, u: Site) {
    exists e :: e in AllDefinitions(f) && e.value == u.value && Dominated(GraphOf(f), e.definition.at, u.at)
  }

  /** An edge argument has the type of the parameter it binds. */
  ghost predicate Typed(f: Function, e: Edge) {
    && EdgeOk(GraphOf(f), e)
    && ArgumentsTyped(AllDefinitions(f), e.arguments, GraphOf(f).blocks[e.target].parameters)
  }

  ghost predicate HasType(es: seq<Entry>, v: ValueId, t: Type) {
    exists d :: d in es && d.value == v && d.definition.valueType == t
  }

  /** The type a value was registered with. */
  function TypeOf(es: seq<Entry>, v: ValueId): Option<Type> {
    if |es| == 0 then None else if es[0].value == v then Some(es[0].definition.valueType) else TypeOf(es[1..], v)
  }

  lemma {:induction false} TypeOfListed(es: seq<Entry>, v: ValueId)
    ensures TypeOf(es, v).Some? ==> HasType(es, v, TypeOf(es, v).value)
  {
    if |es| > 0 && es[0].value != v {
      TypeOfListed(es[1..], v);
    }
  }

  lemma {:induction false} TypeOfOnly(es: seq<Entry>, v: ValueId, t: Type)
    requires UniqueDefinitions(es) && HasType(es, v, t)
    ensures TypeOf(es, v) == Some(t)
  {
    var d :| d in es && d.value == v && d.definition.valueType == t;
    var i :| 0 <= i < |es| && es[i] == d;
    if i > 0 {
      assert es[1..][i - 1] == d;
      TypeOfOnly(es[1..], v, t);
    }
  }

  ghost predicate ArgumentsTyped(es: seq<Entry>, vs: seq<ValueId>, ps: seq<ValueDefinition>)
    requires |vs| == |ps|
  {
    forall i :: 0 <= i < |vs| ==> HasType(es, vs[i], ps[i].valueType)
  }

  /** The entry block's parameters are those of the signature. */
  ghost predicate EntryTyped(f: Function) {
    && |f.blocks| > 0 && |f.blocks[0].parameters| == |f.parameterTypes|
    && forall i :: 0 <= i < |f.parameterTypes| ==> f.blocks[0].parameters[i].valueType == f.parameterTypes[i]
  }

  /** A condition is a boolean, and what is returned has the result type. */
  ghost predicate EndingTyped(f: Function, t: Terminator) {
    match t
    case ConditionalBranch(c, _, _) => HasType(AllDefinitions(f), c, Bool)
    case Return(v) =>
      if f.resultType == Void then v.None? else v.Some? && HasType(AllDefinitions(f), v.value, f.resultType)
    case _ => true
  }

  ghost predicate EndingsTyped(f: Function) {
    forall b :: b in f.blocks ==> EndingTyped(f, b.ending)
  }

  ghost predicate Accepted(f: Function) {
    && UniqueBlockIds(f.blocks)
    && |f.blocks| > 0 && f.blocks[0].id == f.entry
    && WellFormed(GraphOf(f))
    && UniqueDefinitions(AllDefinitions(f))
    && EntryTyped(f) && EndingsTyped(f)
    && EdgesTyped(f)
    && IsCanonical(GraphOf(f), Order(f.blocks))
    && SitesOk(f)
  }

  ghost predicate EdgesTyped(f: Function) {
    forall b, e :: b in f.blocks && e in EdgesOf(b.ending) ==> Typed(f, e)
  }

  ghost predicate SitesOk(f: Function) {
    forall u :: u in AllReads(f.blocks) ==> SiteOk(f, u)
  }

  // ----- the registered sites are exactly the points' definitions and uses -----

  lemma {:induction false} BlockDefinitionsAt(b: Block, n: nat, e: Entry)
    requires n <= |b.instructions|
    ensures e in BlockDefinitions(b, n) <==>
            && e.definition.at.block == b.id && e.definition.at.index <= n
            && ValueDefinition(e.value, e.definition.valueType) in
               (if e.definition.at.index == 0 then b.parameters else b.instructions[e.definition.at.index - 1].results)
  {
    var ds := if n == 0 then b.parameters else b.instructions[n - 1].results;
    var v := ValueDefinition(e.value, e.definition.valueType);
    assert e in Defined(ds, Point(b.id, n)) <==> e.definition.at == Point(b.id, n) && v in ds by {
      if e.definition.at == Point(b.id, n) && v in ds {
        var i :| 0 <= i < |ds| && ds[i] == v;
        assert Defined(ds, Point(b.id, n))[i] == e;
      }
    }
    if n > 0 {
      BlockDefinitionsAt(b, n - 1, e);
    }
  }

  ghost predicate DefinesIn(b: Block, e: Entry) {
    && e.definition.at.block == b.id && e.definition.at.index <= |b.instructions|
    && ValueDefinition(e.value, e.definition.valueType) in
       (if e.definition.at.index == 0 then b.parameters else b.instructions[e.definition.at.index - 1].results)
  }

  lemma {:induction false} DefinitionsAt(bs: seq<Block>, e: Entry)
    ensures e in Definitions(bs) <==> exists i :: 0 <= i < |bs| && DefinesIn(bs[i], e)
  {
    if |bs| > 0 {
      BlockDefinitionsAt(bs[0], |bs[0].instructions|, e);
      DefinitionsAt(bs[1..], e);
      if e in Definitions(bs[1..]) {
        var i :| 0 <= i < |bs[1..]| && DefinesIn(bs[1..][i], e);
        assert DefinesIn(bs[i + 1], e);
      }
      if i :| 0 < i < |bs| && DefinesIn(bs[i], e) {
        assert DefinesIn(bs[1..][i - 1], e);
      }
    }
  }

  lemma RegisteredIsBound(f: Function, e: Entry)
    requires UniqueBlockIds(f.blocks) && f.entry in BlockMap(f.blocks) && e in AllDefinitions(f)
    ensures IsPoint(GraphOf(f), e.definition.at) && e.value in DefsAt(GraphOf(f), e.definition.at)
  {
    if e in Definitions(f.blocks) {
      DefinitionsAt(f.blocks, e);
      var i :| 0 <= i < |f.blocks| && DefinesIn(f.blocks[i], e);
      BlockMapAt(f.blocks, i);
    } else {
      assert f.unsafeRoot.Some? && e in Defined([f.unsafeRoot.value], Point(f.entry, 0));
    }
  }

  lemma BoundIsRegistered(f: Function, v: ValueId, p: Point) returns (e: Entry)
    requires UniqueBlockIds(f.blocks) && IsPoint(GraphOf(f), p) && v in DefsAt(GraphOf(f), p)
    ensures e in AllDefinitions(f) && e.value == v && e.definition.at == p
  {
    var g := GraphOf(f);
    if p.index == 0 && p.block == g.entry && v in g.root {
      e := Defined([f.unsafeRoot.value], Point(f.entry, 0))[0];
      assert e == AllDefinitions(f)[0];
    } else {
      var i := BlockMapFrom(f.blocks, p.block);
      var b := f.blocks[i];
      var ds := if p.index == 0 then b.parameters else b.instructions[p.index - 1].results;
      var d :| d in ds && d.id == v;
      e := Entry(v, Definition(d.valueType, p));
      assert DefinesIn(f.blocks[i], e);
      DefinitionsAt(f.blocks, e);
    }
  }

  /** A value is bound at a point exactly if the verifier registered that definition. */
  lemma DefinitionsMatch(f: Function, v: ValueId, p: Point)
    requires UniqueBlockIds(f.blocks) && f.entry in BlockMap(f.blocks)
    ensures (exists e :: e in AllDefinitions(f) && e.value == v && e.definition.at == p)
       <==> IsPoint(GraphOf(f), p) && v in DefsAt(GraphOf(f), p)
  {
    if e :| e in AllDefinitions(f) && e.value == v && e.definition.at == p {
      RegisteredIsBound(f, e);
    }
    if IsPoint(GraphOf(f), p) && v in DefsAt(GraphOf(f), p) {
      var e := BoundIsRegistered(f, v, p);
    }
  }

  lemma {:induction false} BlockReadsAt(b: Block, n: nat, u: Site)
    requires n <= |b.instructions| && u.at.block == b.id && u.at.index < n
    requires u.value in b.instructions[u.at.index].operands
    ensures u in BlockReads(b, n)
  {
    if u.at.index == n - 1 {
      var vs := b.instructions[n - 1].operands;
      var i :| 0 <= i < |vs| && vs[i] == u.value;
      assert Read(vs, u.at)[i] == u;
    } else {
      BlockReadsAt(b, n - 1, u);
    }
  }

  /** Every use at a point was registered. */
  lemma {:induction false} ReadsAt(bs: seq<Block>, i: nat, u: Site)
    requires i < |bs| && u.at.block == bs[i].id && u.at.index <= |bs[i].instructions|
    requires if u.at.index < |bs[i].instructions| then u.value in bs[i].instructions[u.at.index].operands
             else u.value in TerminatorUses(bs[i].ending)
    ensures u in AllReads(bs)
  {
    if i > 0 {
      ReadsAt(bs[1..], i - 1, u);
    } else if u.at.index < |bs[0].instructions| {
      BlockReadsAt(bs[0], |bs[0].instructions|, u);
    } else {
      var vs := TerminatorReads(bs[0].ending);
      TerminatorReadsAll(bs[0].ending, u.value);
      var k :| 0 <= k < |vs| && vs[k] == u.value;
      assert Read(vs, u.at)[k] == u;
      var pre := BlockReads(bs[0], |bs[0].instructions|);
      assert (pre + Read(vs, u.at) + AllReads(bs[1..]))[|pre| + k] == u;
    }
  }

  lemma TerminatorReadsAll(t: Terminator, v: ValueId)
    requires v in TerminatorUses(t)
    ensures v in TerminatorReads(t)
  {
    if v in ArgumentsOf(EdgesOf(t)) {
      var e :| e in EdgesOf(t) && v in e.arguments;
    }
  }

  // ----- the verifier itself -----

  /** The map holds exactly the listed definitions. */
  ghost predicate Registered(es: seq<Entry>, defs: map<ValueId, Definition>) {
    && (forall v :: v in defs ==> Entry(v, defs[v]) in es)
    && forall e :: e in es ==> e.value in defs && defs[e.value] == e.definition
  }

  /** Registration fails exactly on a second definition of a value. */
  method RegisterDefinitions(f: Function) returns (defs: map<ValueId, Definition>, ok: bool)
    ensures ok <==> UniqueDefinitions(AllDefinitions(f))
    ensures ok ==> Registered(AllDefinitions(f), defs)
  {
    defs, ok := Register(AllDefinitions(f));
  }

  method Register(es: seq<Entry>) returns (defs: map<ValueId, Definition>, ok: bool)
    ensures ok <==> UniqueDefinitions(es)
    ensures ok ==> Registered(es, defs)
  {
    defs := map[];
    for i := 0 to |es|
      invariant UniqueDefinitions(es[..i]) && Registered(es[..i], defs)
    {
      if es[i].value in defs {
        var e := Entry(es[i].value, defs[es[i].value]);
        var j :| 0 <= j < i && es[j] == e;
        return defs, false;
      }
      assert es[..i + 1] == es[..i] + [es[i]];
      assert forall e :: e in es[..i] ==> e.value != es[i].value;
      defs := defs[es[i].value := es[i].definition];
    }
    ok := true;
    assert es[..|es|] == es;
  }

  ghost predicate AreDominators(g: Graph, dom: Dominators) {
    && dom.Keys == g.blocks.Keys
    && forall b, d :: b in dom ==> (d in dom[b] <==> d in dom.Keys && Dominates(g, d, b))
  }

  /** Every registered use is of a defined value whose definition dominates it. */
  method VerifyUses(f: Function, defs: map<ValueId, Definition>, dom: Dominators) returns (ok: bool)
    requires Registered(AllDefinitions(f), defs)
    requires UniqueBlockIds(f.blocks) && f.entry in BlockMap(f.blocks)
    requires AreDominators(GraphOf(f), dom)
    ensures ok <==> SitesOk(f)
  {
    var us := AllReads(f.blocks);
    for i := 0 to |us|
      invariant forall j :: 0 <= j < i ==> SiteOk(f, us[j])
    {
      assert us[i] in us;
      ok := VerifyUse(f, defs, dom, us[i]);
      if !ok { return; }
    }
    ok := true;
    forall u | u in us ensures SiteOk(f, u) {
      var j :| 0 <= j < |us| && us[j] == u;
    }
  }

  method VerifyUse(f: Function, defs: map<ValueId, Definition>, dom: Dominators, u: Site) returns (ok: bool)
    requires Registered(AllDefinitions(f), defs) && u in AllReads(f.blocks)
    requires UniqueBlockIds(f.blocks) && f.entry in BlockMap(f.blocks)
    requires AreDominators(GraphOf(f), dom)
    ensures ok <==> SiteOk(f, u)
  {
    if u.value !in defs {
      UndefinedIsRejected(AllDefinitions(f), defs, u);
      return false;
    }
    ReadInGraph(f.blocks, u);
    SiteOkByMap(f, defs, u);
    var d := defs[u.value].at;
    RegisteredIsBound(f, Entry(u.value, defs[u.value]));
    ok := if d.block == u.at.block then d.index <= u.at.index else d.block in dom[u.at.block];
  }

  lemma UndefinedIsRejected(es: seq<Entry>, defs: map<ValueId, Definition>, u: Site)
    requires Registered(es, defs) && u.value !in defs
    ensures forall e :: e in es ==> e.value != u.value
  {
  }

  lemma SiteOkByMap(f: Function, defs: map<ValueId, Definition>, u: Site)
    requires Registered(AllDefinitions(f), defs)
    requires u.value in defs
    ensures Entry(u.value, defs[u.value]) in AllDefinitions(f)
    ensures SiteOk(f, u) <==> Dominated(GraphOf(f), defs[u.value].at, u.at)
  {
    var e := Entry(u.value, defs[u.value]);
    assert e in AllDefinitions(f);
    if e' :| e' in AllDefinitions(f) && e'.value == u.value && Dominated(GraphOf(f), e'.definition.at, u.at) {
      assert e' == Entry(u.value, e'.definition);
    }
  }

  lemma {:induction false} ReadInGraph(bs: seq<Block>, u: Site)
    requires u in AllReads(bs)
    ensures u.at.block in BlockMap(bs)
  {
    var pre := BlockReads(bs[0], |bs[0].instructions|);
    var mid := Read(TerminatorReads(bs[0].ending), Point(bs[0].id, |bs[0].instructions|));
    if u in pre {
      BlockReadsOf(bs[0], |bs[0].instructions|, u);
    } else if u !in mid {
      assert u in AllReads(bs[1..]);
      ReadInGraph(bs[1..], u);
    }
  }

  lemma {:induction false} BlockReadsOf(b: Block, n: nat, u: Site)
    requires n <= |b.instructions| && u in BlockReads(b, n)
    ensures u.at.block == b.id
  {
    if u !in Read(b.instructions[n - 1].operands, Point(b.id, n - 1)) {
      BlockReadsOf(b, n - 1, u);
    }
  }

  /** All blocks' edges carry arguments of the parameter types. */
  method VerifyEdges(f: Function, defs: map<ValueId, Definition>) returns (ok: bool)
    requires WellFormed(GraphOf(f)) && UniqueBlockIds(f.blocks)
    requires Registered(AllDefinitions(f), defs)
    ensures ok <==> EdgesTyped(f)
  {
    var g := GraphOf(f);
    for i := 0 to |f.blocks|
      invariant forall j, e :: 0 <= j < i && e in EdgesOf(f.blocks[j].ending) ==> Typed(f, e)
    {
      var es := EdgesOf(f.blocks[i].ending);
      for k := 0 to |es|
        invariant forall l :: 0 <= l < k ==> Typed(f, es[l])
      {
        BlockMapAt(f.blocks, i);
        assert EdgeOk(g, es[k]);
        var good := VerifyArguments(AllDefinitions(f), defs, es[k].arguments, g.blocks[es[k].target].parameters);
        if !good {
          assert f.blocks[i] in f.blocks && es[k] in EdgesOf(f.blocks[i].ending) && !Typed(f, es[k]);
          return false;
        }
      }
    }
    ok := true;
  }

  method VerifyArguments(ghost es: seq<Entry>, defs: map<ValueId, Definition>, vs: seq<ValueId>,
                         ps: seq<ValueDefinition>)
    returns (ok: bool)
    requires Registered(es, defs) && |vs| == |ps|
    ensures ok <==> ArgumentsTyped(es, vs, ps)
  {
    for i := 0 to |vs|
      invariant forall j :: 0 <= j < i ==> HasType(es, vs[j], ps[j].valueType)
    {
      ok := IsOfType(es, defs, vs[i], ps[i].valueType);
      if !ok { return; }
    }
    ok := true;
  }

  /** The whole check of a body. `ids` is the ascending enumeration of its block set. */
  method VerifyBody(f: Function, ids: seq<BlockId>) returns (ok: bool)
    requires forall id :: id in ids <==> id in BlockMap(f.blocks)
    requires forall i, j :: 0 <= i < j < |ids| ==> ids[i] != ids[j]
    ensures ok <==> Accepted(f)
  {
    var g := GraphOf(f);
    var unique := CheckBlockIds(f.blocks);
    if !unique || |f.blocks| == 0 || f.blocks[0].id != f.entry || !WellFormed(g) { return false; }
    BlockMapAt(f.blocks, 0);
    ok := VerifyEntry(f);
    if !ok { return; }
    var defs;
    defs, ok := RegisterDefinitions(f);
    if !ok { return; }
    ok := VerifyTypes(f, defs);
    if !ok { return; }
    ok := VerifyFlow(f, ids, defs);
  }

  method VerifyFlow(f: Function, ids: seq<BlockId>, defs: map<ValueId, Definition>) returns (ok: bool)
    requires forall id :: id in ids <==> id in BlockMap(f.blocks)
    requires forall i, j :: 0 <= i < j < |ids| ==> ids[i] != ids[j]
    requires UniqueBlockIds(f.blocks) && |f.blocks| > 0 && f.blocks[0].id == f.entry && WellFormed(GraphOf(f))
    requires Registered(AllDefinitions(f), defs)
    ensures ok <==> IsCanonical(GraphOf(f), Order(f.blocks)) && SitesOk(f)
  {
    BlockMapAt(f.blocks, 0);
    ok := VerifyCanonicalCfg(GraphOf(f), Order(f.blocks));
    if !ok { return; }
    CanonicalHasPredecessors(f);
    var dom;
    dom, ok := ComputeDominators(GraphOf(f), ids);
    ok := VerifyUses(f, defs, dom);
  }

  method VerifyTypes(f: Function, defs: map<ValueId, Definition>) returns (ok: bool)
    requires WellFormed(GraphOf(f)) && UniqueBlockIds(f.blocks)
    requires Registered(AllDefinitions(f), defs)
    ensures ok <==> EndingsTyped(f) && EdgesTyped(f)
  {
    ok := VerifyEndings(f, defs);
    if ok { ok := VerifyEdges(f, defs); }
  }

  method VerifyEntry(f: Function) returns (ok: bool)
    requires |f.blocks| > 0
    ensures ok <==> EntryTyped(f)
  {
    var ds, ts := f.blocks[0].parameters, f.parameterTypes;
    if |ds| != |ts| { return false; }
    for i := 0 to |ds|
      invariant forall j :: 0 <= j < i ==> ds[j].valueType == ts[j]
    {
      if ds[i].valueType != ts[i] { return false; }
    }
    ok := true;
  }

  method IsOfType(ghost es: seq<Entry>, defs: map<ValueId, Definition>, v: ValueId, t: Type) returns (ok: bool)
    requires Registered(es, defs)
    ensures ok <==> HasType(es, v, t)
  {
    ok := v in defs && defs[v].valueType == t;
    if ok { assert Entry(v, defs[v]) in es; }
  }

  method VerifyEndings(f: Function, defs: map<ValueId, Definition>) returns (ok: bool)
    requires Registered(AllDefinitions(f), defs)
    ensures ok <==> EndingsTyped(f)
  {
    for i := 0 to |f.blocks|
      invariant forall j :: 0 <= j < i ==> EndingTyped(f, f.blocks[j].ending)
    {
      ok := VerifyEnding(f, defs, f.blocks[i].ending);
      if !ok {
        assert f.blocks[i] in f.blocks;
        return;
      }
    }
    ok := true;
  }

  method VerifyEnding(f: Function, defs: map<ValueId, Definition>, t: Terminator) returns (ok: bool)
    requires Registered(AllDefinitions(f), defs)
    ensures ok <==> EndingTyped(f, t)
  {
    ok := true;
    match t
    case ConditionalBranch(c, _, _) => ok := IsOfType(AllDefinitions(f), defs, c, Bool);
    case Return(v) =>
      ok := f.resultType.Void? == v.None?;
      if ok && v.Some? { ok := IsOfType(AllDefinitions(f), defs, v.value, f.resultType); }
    case _ =>
  }

  method CheckBlockIds(bs: seq<Block>) returns (ok: bool)
    ensures ok <==> UniqueBlockIds(bs)
  {
    var seen := {};
    for i := 0 to |bs|
      invariant forall j, k :: 0 <= j < k < i ==> bs[j].id != bs[k].id
      invariant forall id :: id in seen <==> exists j :: 0 <= j < i && bs[j].id == id
    {
      if bs[i].id in seen { return false; }
      seen := seen + {bs[i].id};
    }
    ok := true;
  }

  /** After the order check no block lacks a predecessor, so that failure of the dominator pass is unreachable. */
  lemma CanonicalHasPredecessors(f: Function)
    requires IsCanonical(GraphOf(f), Order(f.blocks)) && UniqueBlockIds(f.blocks)
    requires |f.blocks| > 0 && f.blocks[0].id == f.entry
    ensures NoOrphans(GraphOf(f))
  {
    var g, order := GraphOf(f), Order(f.blocks);
    forall b | b in g.blocks && b != g.entry ensures HasPredecessor(g, b) {
      var i := BlockMapFrom(f.blocks, b);
      assert SourcedAt(g, order, i);
      var j :| 0 <= j < i && HasEdge(g, order[j], order[i]);
    }
  }

  // ----- what acceptance gives -----

  /** A value of an accepted function has one definition point. */
  lemma OneDefinition(f: Function, v: ValueId, p: Point, q: Point)
    requires Accepted(f) && IsPoint(GraphOf(f), p) && IsPoint(GraphOf(f), q)
    requires v in DefsAt(GraphOf(f), p) && v in DefsAt(GraphOf(f), q)
    ensures p == q
  {
    DefinitionsMatch(f, v, p);
    DefinitionsMatch(f, v, q);
    var e :| e in AllDefinitions(f) && e.value == v && e.definition.at == p;
    var d :| d in AllDefinitions(f) && d.value == v && d.definition.at == q;
    var i :| 0 <= i < |AllDefinitions(f)| && AllDefinitions(f)[i] == e;
    var j :| 0 <= j < |AllDefinitions(f)| && AllDefinitions(f)[j] == d;
    assert i == j;
  }

  /** Every value an accepted function reads has a definition that dominates the read. */
  lemma UseHasDefinition(f: Function, v: ValueId, p: Point) returns (d: Point)
    requires Accepted(f) && IsPoint(GraphOf(f), p) && v in UsesAt(GraphOf(f), p)
    ensures IsPoint(GraphOf(f), d) && v in DefsAt(GraphOf(f), d) && Dominated(GraphOf(f), d, p)
  {
    var i := BlockMapFrom(f.blocks, p.block);
    var u := Site(v, p);
    ReadsAt(f.blocks, i, u);
    assert SiteOk(f, u);
    var e :| e in AllDefinitions(f) && e.value == u.value && Dominated(GraphOf(f), e.definition.at, u.at);
    d := e.definition.at;
    DefinitionsMatch(f, v, d);
  }

  /** A dominated point lies, on every run, after the point that dominates it. */
  lemma DominatedOnRun(g: Graph, w: seq<Point>, k: nat, d: Point)
    requires WellFormed(g) && IsRun(g, w) && k < |w| && IsPoint(g, d) && Dominated(g, d, w[k])
    ensures exists j :: 0 <= j <= k && w[j] == d
  {
    if d.block == w[k].block {
      WalkedThroughBlock(g, w, k, d.index);
    } else {
      var v := w[..k + 1];
      assert IsRun(g, v) by {
        forall i | 0 <= i < |v| - 1 ensures Step(g, v[i], v[i + 1]) {
          assert Step(g, w[i], w[i + 1]);
        }
      }
      RunProjects(g, v);
      assert d.block in Entered(v);
      var j :| 0 <= j < |v| && v[j] == Point(d.block, 0);
      LeavesThroughBlock(g, w, j, k, d.index);
    }
  }

  /** On every execution path of an accepted function, each value read was bound earlier on that path. */
  lemma ReadsFollowDefinitions(f: Function, w: seq<Point>, k: nat, v: ValueId)
    requires Accepted(f) && IsRun(GraphOf(f), w) && k < |w|
    requires IsPoint(GraphOf(f), w[k]) && v in UsesAt(GraphOf(f), w[k])
    ensures exists j :: 0 <= j <= k && IsPoint(GraphOf(f), w[j]) && v in DefsAt(GraphOf(f), w[j])
  {
    var d := UseHasDefinition(f, v, w[k]);
    DominatedOnRun(GraphOf(f), w, k, d);
    var j :| 0 <= j <= k && w[j] == d;
  }

  /** A function of one block without edges, whose reads follow their definitions. */
  lemma OneBlockAccepted(f: Function)
    requires |f.blocks| == 1 && f.blocks[0].id == f.entry && f.blocks[0].ending.Return?
    requires UniqueDefinitions(AllDefinitions(f)) && EntryTyped(f) && EndingsTyped(f)
    requires forall u :: u in AllReads(f.blocks) ==> ReadInOrder(f, u)
    ensures Accepted(f)
  {
    var g, b := GraphOf(f), f.entry;
    assert f.blocks[1..] == [] && f.blocks == [f.blocks[0]];
    assert BlockMap(f.blocks[1..]) == map[];
    assert g.blocks == map[b := f.blocks[0]];
    assert Order(f.blocks) == [b];
    assert Flat(g, [b][..0]) == [];
    assert Flat(g, [b]) == [];
    assert [g.entry] + Flat(g, [b]) == [b];
    assert Dedup([b][..0]) == [];
    assert Dedup([b]) == [b];
  }

  ghost predicate ReadInOrder(f: Function, u: Site) {
    exists e :: e in AllDefinitions(f) && e.value == u.value && e.definition.at.block == u.at.block
                && e.definition.at.index <= u.at.index
  }
}
