/** The backward liveness analysis that decides which references are published before a collection. */
module RootPlanner {
  import opened Ir
  import opened Cfg
  import opened Collections
  import opened CanonicalOrder
  import opened SsaVerifier
  import opened Effects

  type LiveSets = map<BlockId, set<ValueId>>

  /** Values whose declared type is a managed reference. */
  function ManagedIds(f: Function): set<ValueId> {
    set e | e in AllDefinitions(f) && IsManagedReference(e.definition.valueType) :: e.value
  }

  // ----- the iterated analysis -----

  /** What the successors need: their entry sets without their parameters, and the arguments passed. */
  function EdgesLive(g: Graph, managed: set<ValueId>, entries: LiveSets, es: seq<Edge>): set<ValueId>
    requires forall e :: e in es ==> e.target in g.blocks
    requires entries.Keys == g.blocks.Keys
  {
    if |es| == 0 then {}
    else EdgesLive(g, managed, entries, es[..|es| - 1])
         + (entries[Last(es).target] - Ids(g.blocks[Last(es).target].parameters))
         + (set v | v in Last(es).arguments && v in managed)
  }

  function LiveAtEnd(g: Graph, managed: set<ValueId>, entries: LiveSets, b: BlockId): set<ValueId>
    requires WellFormed(g) && entries.Keys == g.blocks.Keys && b in g.blocks
  {
    assert forall e :: e in EdgesOf(g.blocks[b].ending) ==> EdgeOk(g, e);
    EdgesLive(g, managed, entries, EdgesOf(g.blocks[b].ending))
    + (TerminatorUses(g.blocks[b].ending) * managed)
  }

  function LiveBefore(managed: set<ValueId>, live: set<ValueId>, i: Instruction): set<ValueId> {
    (live - Ids(i.results)) + set v | v in i.operands && v in managed
  }

  /** The live set before a point, given what is live on entry to each block. */
  function LiveFrom(g: Graph, managed: set<ValueId>, entries: LiveSets, p: Point): set<ValueId>
    requires WellFormed(g) && entries.Keys == g.blocks.Keys && IsPoint(g, p)
    decreases |g.blocks[p.block].instructions| - p.index
  {
    var b := g.blocks[p.block];
    if AtTerminator(g, p) then LiveAtEnd(g, managed, entries, p.block)
    else LiveBefore(managed, LiveFrom(g, managed, entries, Point(p.block, p.index + 1)), b.instructions[p.index])
  }

  // ----- liveness as paths -----

  /** A walk along which `v` is not rebound and at whose end `v` is read. */
  ghost predicate LiveWalk(g: Graph, v: ValueId, w: seq<Point>) {
    && IsWalk(g, w)
    && IsPoint(g, Last(w)) && v in UsesAt(g, Last(w))
    && forall i :: 0 < i < |w| ==> IsPoint(g, w[i]) && v !in DefsAt(g, w[i])
  }

  ghost predicate Live(g: Graph, v: ValueId, p: Point) {
    exists w :: LiveWalk(g, v, w) && w[0] == p
  }

  lemma UseIsLive(g: Graph, v: ValueId, p: Point)
    requires IsPoint(g, p) && v in UsesAt(g, p)
    ensures Live(g, v, p)
  {
    assert LiveWalk(g, v, [p]);
  }

  lemma StepKeepsLive(g: Graph, v: ValueId, p: Point, q: Point)
    requires Step(g, p, q) && v !in DefsAt(g, q) && Live(g, v, q)
    ensures Live(g, v, p)
  {
    var w :| LiveWalk(g, v, w) && w[0] == q;
    var u := [p] + w;
    assert IsWalk(g, u) by {
      forall i | 0 <= i < |u| - 1 ensures Step(g, u[i], u[i + 1]) {
        if i > 0 {
          assert Step(g, w[i - 1], w[i - 1 + 1]);
        }
      }
    }
    assert LiveWalk(g, v, u) by {
      forall i | 0 < i < |u| ensures IsPoint(g, u[i]) && v !in DefsAt(g, u[i]) {
        if i > 1 {
          assert u[i] == w[i - 1];
        }
      }
    }
  }

  /** Everything recorded so far is really live. */
  ghost predicate Sound(g: Graph, managed: set<ValueId>, entries: LiveSets) {
    && entries.Keys == g.blocks.Keys
    && forall b, v :: b in entries && v in entries[b] ==> v in managed && Live(g, v, Point(b, 0))
  }

  lemma {:induction false} EdgesLiveSound(g: Graph, managed: set<ValueId>, entries: LiveSets, b: BlockId, es: seq<Edge>,
                                          v: ValueId)
    requires WellFormed(g) && Sound(g, managed, entries) && b in g.blocks
    requires forall e :: e in es ==> e in EdgesOf(g.blocks[b].ending) && e.target in g.blocks
    requires v in EdgesLive(g, managed, entries, es)
    ensures v in managed && Live(g, v, Point(b, |g.blocks[b].instructions|))
  {
    var p := Point(b, |g.blocks[b].instructions|);
    if v in EdgesLive(g, managed, entries, es[..|es| - 1]) {
      EdgesLiveSound(g, managed, entries, b, es[..|es| - 1], v);
    } else {
      var e := Last(es);
      assert e in es && EdgeOk(g, e);
      if v in e.arguments && v in managed {
        assert v in ArgumentsOf(EdgesOf(g.blocks[b].ending));
        UseIsLive(g, v, p);
      } else {
        var q := Point(e.target, 0);
        assert HasEdge(g, b, e.target) && Step(g, p, q);
        StepKeepsLive(g, v, p, q);
      }
    }
  }

  lemma {:induction false} LiveFromSound(g: Graph, managed: set<ValueId>, entries: LiveSets, p: Point, v: ValueId)
    requires WellFormed(g) && Sound(g, managed, entries) && IsPoint(g, p)
    requires v in LiveFrom(g, managed, entries, p)
    ensures v in managed && Live(g, v, p)
    decreases |g.blocks[p.block].instructions| - p.index
  {
    if AtTerminator(g, p) {
      assert forall e :: e in EdgesOf(g.blocks[p.block].ending) ==> EdgeOk(g, e);
      if v in TerminatorUses(g.blocks[p.block].ending) * managed {
        UseIsLive(g, v, p);
      } else {
        EdgesLiveSound(g, managed, entries, p.block, EdgesOf(g.blocks[p.block].ending), v);
      }
    } else {
      var q := Point(p.block, p.index + 1);
      if v in UsesAt(g, p) && v in managed {
        UseIsLive(g, v, p);
      } else {
        LiveFromSound(g, managed, entries, q, v);
        StepKeepsLive(g, v, p, q);
      }
    }
  }

  // ----- growth -----

  ghost predicate Below(a: LiveSets, b: LiveSets) {
    a.Keys == b.Keys && forall k :: k in a ==> a[k] <= b[k]
  }

  lemma {:induction false} EdgesLiveGrows(g: Graph, managed: set<ValueId>, a: LiveSets, b: LiveSets, es: seq<Edge>)
    requires forall e :: e in es ==> e.target in g.blocks
    requires a.Keys == g.blocks.Keys && Below(a, b)
    ensures EdgesLive(g, managed, a, es) <= EdgesLive(g, managed, b, es)
  {
    if |es| > 0 {
      EdgesLiveGrows(g, managed, a, b, es[..|es| - 1]);
    }
  }

  lemma {:induction false} LiveFromGrows(g: Graph, managed: set<ValueId>, a: LiveSets, b: LiveSets, p: Point)
    requires WellFormed(g) && a.Keys == g.blocks.Keys && Below(a, b) && IsPoint(g, p)
    ensures LiveFrom(g, managed, a, p) <= LiveFrom(g, managed, b, p)
    decreases |g.blocks[p.block].instructions| - p.index
  {
    if AtTerminator(g, p) {
      assert forall e :: e in EdgesOf(g.blocks[p.block].ending) ==> EdgeOk(g, e);
      EdgesLiveGrows(g, managed, a, b, EdgesOf(g.blocks[p.block].ending));
    } else {
      LiveFromGrows(g, managed, a, b, Point(p.block, p.index + 1));
    }
  }

  /** Sets only ever grow toward their recomputation. */
  ghost predicate Inflating(g: Graph, managed: set<ValueId>, entries: LiveSets)
    requires WellFormed(g) && entries.Keys == g.blocks.Keys
  {
    forall b {:trigger Point(b, 0)} :: b in g.blocks ==> entries[b] <= LiveFrom(g, managed, entries, Point(b, 0))
  }

  ghost predicate Growing(g: Graph, managed: set<ValueId>, entries: LiveSets) {
    WellFormed(g) && Sound(g, managed, entries) && Inflating(g, managed, entries)
  }

  lemma UpdateGrows(g: Graph, managed: set<ValueId>, entries: LiveSets, b: BlockId, live: set<ValueId>)
    requires Growing(g, managed, entries) && b in g.blocks && live == LiveFrom(g, managed, entries, Point(b, 0))
    ensures entries[b] <= live && Growing(g, managed, entries[b := live])
  {
    var next := entries[b := live];
    forall c, v | c in next && v in next[c] ensures v in managed && Live(g, v, Point(c, 0)) {
      if c == b {
        LiveFromSound(g, managed, entries, Point(b, 0), v);
      }
    }
    assert entries[b] <= live by { assert Point(b, 0) == Point(b, 0); }
    forall c | c in g.blocks ensures next[c] <= LiveFrom(g, managed, next, Point(c, 0)) {
      LiveFromGrows(g, managed, entries, next, Point(c, 0));
    }
  }

  ghost function Universe(g: Graph, managed: set<ValueId>): set<(BlockId, ValueId)> {
    set b, v | b in g.blocks && v in managed :: (b, v)
  }

  ghost function Pairs(entries: LiveSets): set<(BlockId, ValueId)> {
    set b, v | b in entries && v in entries[b] :: (b, v)
  }

  lemma PairsGrow(g: Graph, managed: set<ValueId>, entries: LiveSets, b: BlockId, live: set<ValueId>)
    requires entries.Keys == g.blocks.Keys && b in g.blocks && entries[b] <= live <= managed && live != entries[b]
    ensures Universe(g, managed) - Pairs(entries[b := live]) < Universe(g, managed) - Pairs(entries)
  {
    assert !(live <= entries[b]);
    var v :| v in live && v !in entries[b];
    assert (b, v) in (Universe(g, managed) - Pairs(entries)) - (Universe(g, managed) - Pairs(entries[b := live]));
  }

  /** The live set on entry to a block, by a loop from its end to its start. */
  method LiveOnEntry(g: Graph, managed: set<ValueId>, entries: LiveSets, b: BlockId) returns (live: set<ValueId>)
    requires WellFormed(g) && entries.Keys == g.blocks.Keys && b in g.blocks
    ensures live == LiveFrom(g, managed, entries, Point(b, 0))
  {
    var code := g.blocks[b].instructions;
    live := LiveAtEnd(g, managed, entries, b);
    for i := |code| downto 0
      invariant live == LiveFrom(g, managed, entries, Point(b, i))
    {
      live := LiveBefore(managed, live, code[i]);
    }
  }

  /** One backward pass over the blocks, updating the entry sets in place. */
  method Pass(g: Graph, managed: set<ValueId>, order: seq<BlockId>, before: LiveSets)
    returns (entries: LiveSets, changed: bool)
    requires Growing(g, managed, before) && forall b :: b in order <==> b in g.blocks
    ensures Growing(g, managed, entries)
    ensures !changed ==> entries == before
    ensures !changed ==> Fixpoint(g, managed, entries)
    ensures changed ==> Universe(g, managed) - Pairs(entries) < Universe(g, managed) - Pairs(before)
  {
    entries, changed := before, false;
    ghost var done: set<BlockId> := {};
    for i := |order| downto 0
      invariant Growing(g, managed, entries)
      invariant changed ==> Universe(g, managed) - Pairs(entries) < Universe(g, managed) - Pairs(before)
      invariant !changed ==> entries == before
      invariant !changed ==> forall b {:trigger StableAt(g, managed, before, b)} :: b in done ==>
                  StableAt(g, managed, before, b)
      invariant forall b :: b in done <==> b in order[i..]
    {
      var next, same := PassBlock(g, managed, entries, order[i]);
      if !same {
        entries, changed := next, true;
      }
      done := done + {order[i]};
      assert order[i..] == [order[i]] + order[i + 1..];
    }
    assert order[0..] == order;
  }

  method PassBlock(g: Graph, managed: set<ValueId>, entries: LiveSets, b: BlockId) returns (next: LiveSets, same: bool)
    requires Growing(g, managed, entries) && b in g.blocks
    ensures Growing(g, managed, next)
    ensures same ==> StableAt(g, managed, entries, b)
    ensures !same ==> Universe(g, managed) - Pairs(next) < Universe(g, managed) - Pairs(entries)
  {
    var live := LiveOnEntry(g, managed, entries, b);
    UpdateGrows(g, managed, entries, b, live);
    next, same := entries, live == entries[b];
    if !same {
      next := entries[b := live];
      UpdateIsManaged(g, managed, entries, b, live);
      PairsGrow(g, managed, entries, b, live);
    }
  }

  lemma UpdateIsManaged(g: Graph, managed: set<ValueId>, entries: LiveSets, b: BlockId, live: set<ValueId>)
    requires Growing(g, managed, entries[b := live]) && b in g.blocks
    ensures live <= managed
  {
    forall v | v in live ensures v in managed {
      assert v in entries[b := live][b];
    }
  }

  ghost predicate StableAt(g: Graph, managed: set<ValueId>, entries: LiveSets, b: BlockId)
    requires WellFormed(g) && entries.Keys == g.blocks.Keys
  {
    b in g.blocks && entries[b] == LiveFrom(g, managed, entries, Point(b, 0))
  }

  ghost predicate Fixpoint(g: Graph, managed: set<ValueId>, entries: LiveSets)
    requires WellFormed(g) && entries.Keys == g.blocks.Keys
  {
    forall b {:trigger StableAt(g, managed, entries, b)} :: b in g.blocks ==> StableAt(g, managed, entries, b)
  }

  /** The passes end, and at their end a value is recorded exactly where it is live. */
  method SolveLiveness(g: Graph, managed: set<ValueId>, order: seq<BlockId>) returns (entries: LiveSets)
    requires WellFormed(g) && forall b :: b in order <==> b in g.blocks
    ensures entries.Keys == g.blocks.Keys
    ensures Growing(g, managed, entries) && Fixpoint(g, managed, entries)
  {
    var all := set b | b in order;
    entries := map b | b in all :: {};
    assert all == g.blocks.Keys;
    var changed := true;
    while changed
      invariant Growing(g, managed, entries)
      invariant !changed ==> Fixpoint(g, managed, entries)
      decreases Universe(g, managed) - Pairs(entries), changed
    {
      entries, changed := Pass(g, managed, order, entries);
    }
  }

  // ----- exactness -----

  lemma {:induction false} EdgesLiveComplete(g: Graph, managed: set<ValueId>, entries: LiveSets, es: seq<Edge>, e: Edge,
                                             v: ValueId)
    requires entries.Keys == g.blocks.Keys && e in es && forall x :: x in es ==> x.target in g.blocks
    requires v in entries[e.target] && v !in Ids(g.blocks[e.target].parameters)
    ensures v in EdgesLive(g, managed, entries, es)
  {
    if e != Last(es) {
      assert e in es[..|es| - 1];
      EdgesLiveComplete(g, managed, entries, es[..|es| - 1], e, v);
    }
  }

  lemma {:induction false} LiveWalkIsFound(g: Graph, managed: set<ValueId>, entries: LiveSets, v: ValueId,
                                           w: seq<Point>)
    requires Growing(g, managed, entries) && Fixpoint(g, managed, entries) && LiveWalk(g, v, w) && v in managed
    ensures IsPoint(g, w[0]) && v in LiveFrom(g, managed, entries, w[0])
    decreases |w|
  {
    var p := w[0];
    if |w| == 1 {
    } else {
      var u := w[1..];
      assert Step(g, w[0], w[0 + 1]);
      assert LiveWalk(g, v, u) by {
        forall i | 0 <= i < |u| - 1 ensures Step(g, u[i], u[i + 1]) {
          assert Step(g, w[i + 1], w[i + 1 + 1]);
        }
      }
      LiveWalkIsFound(g, managed, entries, v, u);
      var q := w[1];
      if AtTerminator(g, p) {
        var e :| e in EdgesOf(g.blocks[p.block].ending) && e.target == q.block;
        assert StableAt(g, managed, entries, q.block) && q == Point(q.block, 0);
        assert forall x :: x in EdgesOf(g.blocks[p.block].ending) ==> EdgeOk(g, x);
        EdgesLiveComplete(g, managed, entries, EdgesOf(g.blocks[p.block].ending), e, v);
      }
    }
  }

  /** The solved sets are the live references, neither more nor fewer. */
  lemma LivenessIsExact(g: Graph, managed: set<ValueId>, entries: LiveSets, p: Point, v: ValueId)
    requires Growing(g, managed, entries) && Fixpoint(g, managed, entries) && IsPoint(g, p)
    ensures v in LiveFrom(g, managed, entries, p) <==> v in managed && Live(g, v, p)
  {
    if v in LiveFrom(g, managed, entries, p) {
      LiveFromSound(g, managed, entries, p, v);
    }
    if v in managed && Live(g, v, p) {
      var w :| LiveWalk(g, v, w) && w[0] == p;
      LiveWalkIsFound(g, managed, entries, v, w);
    }
  }

  // ----- the root plan -----

  ghost predicate Collects(m: Module, g: Graph, p: Point) {
    IsPoint(g, p) && !AtTerminator(g, p) && CanCollect(m, g.blocks[p.block].instructions[p.index])
  }

  /** At each collecting instruction, exactly the references still needed from there on. */
  ghost predicate ExactRoots(m: Module, g: Graph, managed: set<ValueId>, roots: map<Point, set<ValueId>>) {
    && (forall p :: p in roots <==> Collects(m, g, p))
    && forall p, v :: p in roots ==> (v in roots[p] <==> v in managed && Live(g, v, p))
  }

  /** One slot more than the largest plan needs, and none without a collecting instruction. */
  ghost predicate ExactCapacity(roots: map<Point, set<ValueId>>, capacity: nat) {
    && (forall p :: p in roots ==> |roots[p]| + 1 <= capacity)
    && (capacity == 0 || exists p :: p in roots && |roots[p]| + 1 == capacity)
  }

  /** The plan restricted to the points already visited. */
  ghost predicate Planned(m: Module, g: Graph, managed: set<ValueId>, entries: LiveSets,
                          roots: map<Point, set<ValueId>>, visited: set<Point>)
    requires WellFormed(g) && entries.Keys == g.blocks.Keys
  {
    && (forall p :: p in roots <==> p in visited && Collects(m, g, p))
    && forall p :: p in roots ==> roots[p] == LiveFrom(g, managed, entries, p)
  }

  lemma CapacityGrows(roots: map<Point, set<ValueId>>, capacity: nat, p: Point, live: set<ValueId>)
    requires ExactCapacity(roots, capacity) && p !in roots
    ensures ExactCapacity(roots[p := live], if capacity < |live| + 1 then |live| + 1 else capacity)
  {
    var next := roots[p := live];
    if capacity < |live| + 1 {
      assert next[p] == live;
    } else {
      var q :| q in roots && |roots[q]| + 1 == capacity;
      assert next[q] == roots[q];
    }
  }

  ghost function PointsFrom(g: Graph, b: BlockId, k: nat): set<Point>
    requires b in g.blocks
  {
    set i | k <= i < |g.blocks[b].instructions| :: Point(b, i)
  }

  method PlanBlock(m: Module, g: Graph, managed: set<ValueId>, entries: LiveSets, b: BlockId,
                   before: map<Point, set<ValueId>>, capacityBefore: nat, ghost visited: set<Point>)
    returns (roots: map<Point, set<ValueId>>, capacity: nat)
    requires WellFormed(g) && entries.Keys == g.blocks.Keys
    requires b in g.blocks && visited !! PointsFrom(g, b, 0)
    requires Planned(m, g, managed, entries, before, visited) && ExactCapacity(before, capacityBefore)
    ensures Planned(m, g, managed, entries, roots, visited + PointsFrom(g, b, 0)) && ExactCapacity(roots, capacity)
  {
    roots, capacity := before, capacityBefore;
    var code := g.blocks[b].instructions;
    var live := LiveAtEnd(g, managed, entries, b);
    assert visited + PointsFrom(g, b, |code|) == visited;
    for k := |code| downto 0
      invariant live == LiveFrom(g, managed, entries, Point(b, k))
      invariant Planned(m, g, managed, entries, roots, visited + PointsFrom(g, b, k))
      invariant ExactCapacity(roots, capacity)
    {
      var p := Point(b, k);
      live := LiveBefore(managed, live, code[k]);
      assert IsPoint(g, p) && !AtTerminator(g, p) && live == LiveFrom(g, managed, entries, p);
      PlanStep(m, g, managed, entries, roots, visited, b, k, live);
      if CanCollect(m, code[k]) {
        CapacityGrows(roots, capacity, p, live);
        capacity := if capacity < |live| + 1 then |live| + 1 else capacity;
        roots := roots[p := live];
      }
    }
  }

  lemma PlanStep(m: Module, g: Graph, managed: set<ValueId>, entries: LiveSets,
                 roots: map<Point, set<ValueId>>, visited: set<Point>, b: BlockId, k: nat, live: set<ValueId>)
    requires WellFormed(g) && entries.Keys == g.blocks.Keys && b in g.blocks && k < |g.blocks[b].instructions|
    requires visited !! PointsFrom(g, b, 0) && live == LiveFrom(g, managed, entries, Point(b, k))
    requires Planned(m, g, managed, entries, roots, visited + PointsFrom(g, b, k + 1))
    ensures Point(b, k) !in roots
    ensures Planned(m, g, managed, entries, if CanCollect(m, g.blocks[b].instructions[k])
            then roots[Point(b, k) := live] else roots,
                    visited + PointsFrom(g, b, k))
  {
    var p, seen := Point(b, k), visited + PointsFrom(g, b, k + 1);
    assert p in PointsFrom(g, b, 0) && p !in seen;
    assert visited + PointsFrom(g, b, k) == seen + {p};
  }

  lemma PlannedIsExact(m: Module, g: Graph, managed: set<ValueId>, entries: LiveSets,
                       roots: map<Point, set<ValueId>>, visited: set<Point>)
    requires Growing(g, managed, entries) && Fixpoint(g, managed, entries)
    requires Planned(m, g, managed, entries, roots, visited)
    requires forall p :: Collects(m, g, p) ==> p in visited
    ensures ExactRoots(m, g, managed, roots)
  {
    forall p, v | p in roots ensures v in roots[p] <==> v in managed && Live(g, v, p) {
      LivenessIsExact(g, managed, entries, p, v);
    }
  }

  method PlanBlocks(m: Module, g: Graph, managed: set<ValueId>, entries: LiveSets, order: seq<BlockId>)
    returns (roots: map<Point, set<ValueId>>, capacity: nat)
    requires WellFormed(g) && entries.Keys == g.blocks.Keys && Members(order) == g.blocks.Keys
    requires Distinct(order)
    ensures Planned(m, g, managed, entries, roots, PointsIn(g, Members(order))) && ExactCapacity(roots, capacity)
  {
    roots, capacity := map[], 0;
    assert PointsIn(g, Members(order[..0])) == {};
    for i := 0 to |order|
      invariant Planned(m, g, managed, entries, roots, PointsIn(g, Members(order[..i])))
                && ExactCapacity(roots, capacity)
    {
      MembersGrow(order, i);
      assert order[i] in Members(order);
      roots, capacity := PlanBlock(m, g, managed, entries, order[i], roots, capacity, PointsIn(g, Members(order[..i])));
      PointsAdd(g, Members(order[..i]), order[i]);
    }
    assert order[..|order|] == order;
  }

  method PlanRoots(m: Module, g: Graph, managed: set<ValueId>, order: seq<BlockId>)
    returns (roots: map<Point, set<ValueId>>, capacity: nat)
    requires WellFormed(g) && (forall b :: b in order <==> b in g.blocks)
    requires Distinct(order)
    ensures ExactRoots(m, g, managed, roots) && ExactCapacity(roots, capacity)
  {
    var entries := SolveLiveness(g, managed, order);
    assert Members(order) == g.blocks.Keys;
    roots, capacity := PlanBlocks(m, g, managed, entries, order);
    PlannedIsExact(m, g, managed, entries, roots, PointsIn(g, g.blocks.Keys));
  }

  ghost function PointsIn(g: Graph, done: set<BlockId>): set<Point> {
    set b, k | b in done && b in g.blocks && 0 <= k < |g.blocks[b].instructions| :: Point(b, k)
  }

  lemma PointsAdd(g: Graph, done: set<BlockId>, b: BlockId)
    requires b in g.blocks
    ensures PointsIn(g, done + {b}) == PointsIn(g, done) + PointsFrom(g, b, 0)
  {
  }

  /** The whole plan of a function: no frame without a collecting effect, else the exact roots. */
  method PlanFrame(m: Module, f: Function) returns (roots: map<Point, set<ValueId>>, capacity: nat)
    requires Accepted(f)
    ensures f.effects * COLLECTING == {} ==> roots == map[] && capacity == 0
    ensures f.effects * COLLECTING != {} ==>
              ExactRoots(m, GraphOf(f), ManagedIds(f), roots) && ExactCapacity(roots, capacity)
  {
    if f.effects * COLLECTING == {} { return map[], 0; }
    var order := Order(f.blocks);
    forall b ensures b in order <==> b in GraphOf(f).blocks {
      if b in order {
        var i :| 0 <= i < |order| && order[i] == b;
        BlockMapAt(f.blocks, i);
      }
      if b in GraphOf(f).blocks {
        var i := BlockMapFrom(f.blocks, b);
        assert order[i] == b;
      }
    }
    roots, capacity := PlanRoots(m, GraphOf(f), ManagedIds(f), order);
  }

  /**
   * Publishing the roots of one point: slot zero is cleared, the planned values follow, and the count covers
   * them. Every slot written exists.
   */
  method SynchronizeRoots<Ref(0)>(slots: array<Ref>, null_: Ref, values: map<ValueId, Ref>, plan: set<ValueId>)
    returns (count: nat)
    requires |plan| + 1 <= slots.Length && forall v :: v in plan ==> v in values
    modifies slots
    ensures count == |plan| + 1
    ensures slots[0] == null_
    ensures forall v :: v in plan ==> exists i :: 0 < i < count && slots[i] == values[v]
    ensures forall i :: 0 < i < count ==> exists v :: v in plan && slots[i] == values[v]
    ensures slots[count..] == old(slots[count..])
  {
    slots[0] := null_;
    var index, rest := 1, plan;
    while rest != {}
      invariant rest <= plan && index + |rest| == |plan| + 1 && 1 <= index
      invariant slots[0] == null_
      invariant forall v :: v in plan && v !in rest ==> exists i :: 0 < i < index && slots[i] == values[v]
      invariant forall i :: 0 < i < index ==> exists v :: v in plan && slots[i] == values[v]
      invariant slots[index..] == old(slots[index..])
      decreases |rest|
    {
      var v :| v in rest;
      ghost var before := slots[..];
      slots[index] := values[v];
      assert forall i :: 0 < i < index ==> slots[i] == before[i];
      index, rest := index + 1, rest - {v};
    }
    count := index;
  }

  // ----- liveness and dominance -----

  /** In an accepted function, whatever is live at a reached point was bound on the way there. */
  lemma LiveIsDefined(f: Function, w: seq<Point>, v: ValueId)
    requires Accepted(f) && IsRun(GraphOf(f), w) && Live(GraphOf(f), v, Last(w))
    ensures exists j :: 0 <= j < |w| && IsPoint(GraphOf(f), w[j]) && v in DefsAt(GraphOf(f), w[j])
  {
    var g := GraphOf(f);
    var u :| LiveWalk(g, v, u) && u[0] == Last(w);
    RunOn(g, w, u, v);
    var j := FirstBound(f, w + u[1..], v);
    NotReboundAfter(g, v, w, u, j);
  }

  lemma RunOn(g: Graph, w: seq<Point>, u: seq<Point>, v: ValueId)
    requires WellFormed(g) && IsRun(g, w) && LiveWalk(g, v, u) && u[0] == Last(w)
    ensures IsRun(g, w + u[1..]) && IsPoint(g, Last(w + u[1..])) && v in UsesAt(g, Last(w + u[1..]))
  {
    WalksJoin(g, w, u);
    if |u| > 1 {
      assert Last(w + u[1..]) == Last(u);
    } else {
      assert w + u[1..] == w;
    }
  }

  lemma FirstBound(f: Function, r: seq<Point>, v: ValueId) returns (j: nat)
    requires Accepted(f) && IsRun(GraphOf(f), r) && IsPoint(GraphOf(f), Last(r)) && v in UsesAt(GraphOf(f), Last(r))
    ensures j < |r| && IsPoint(GraphOf(f), r[j]) && v in DefsAt(GraphOf(f), r[j])
  {
    ReadsFollowDefinitions(f, r, |r| - 1, v);
    j :| 0 <= j <= |r| - 1 && IsPoint(GraphOf(f), r[j]) && v in DefsAt(GraphOf(f), r[j]);
  }

  lemma NotReboundAfter(g: Graph, v: ValueId, w: seq<Point>, u: seq<Point>, j: nat)
    requires |w| > 0 && LiveWalk(g, v, u) && u[0] == Last(w) && j < |w + u[1..]|
    requires IsPoint(g, (w + u[1..])[j]) && v in DefsAt(g, (w + u[1..])[j])
    ensures j < |w| && (w + u[1..])[j] == w[j]
  {
    assert forall i :: |w| <= i < |w + u[1..]| ==> (w + u[1..])[i] == u[i - |w| + 1];
  }

  /** The definition of a live value dominates the point at which it is live. */
  lemma LiveIsDominated(f: Function, v: ValueId, p: Point) returns (d: Point)
    requires Accepted(f) && IsPoint(GraphOf(f), p) && Live(GraphOf(f), v, p)
    ensures IsPoint(GraphOf(f), d) && v in DefsAt(GraphOf(f), d)
    ensures forall w :: IsRun(GraphOf(f), w) && Last(w) == p ==> d in w
  {
    var g := GraphOf(f);
    var u :| LiveWalk(g, v, u) && u[0] == p;
    WalkPoints(g, u, |u| - 1);
    d := UseHasDefinition(f, v, Last(u));
    forall w | IsRun(g, w) && Last(w) == p ensures d in w {
      LiveIsDefined(f, w, v);
      var j :| 0 <= j < |w| && IsPoint(g, w[j]) && v in DefsAt(g, w[j]);
      OneDefinition(f, v, d, w[j]);
    }
  }

  /**
   * Blocks are lowered in listed order, instructions in block order. Whatever a point needs, as operand, edge
   * argument or root slot, was bound in an earlier listed block or earlier in its own block.
   */
  lemma LoweredInTime(f: Function, k: nat, i: nat, v: ValueId) returns (d: Point)
    requires Accepted(f) && k < |f.blocks| && i <= |f.blocks[k].instructions|
    requires Live(GraphOf(f), v, Point(f.blocks[k].id, i))
    ensures IsPoint(GraphOf(f), d) && v in DefsAt(GraphOf(f), d)
    ensures (exists j :: 0 <= j < k && f.blocks[j].id == d.block) || (d.block == f.blocks[k].id && d.index <= i)
  {
    var g, order := GraphOf(f), Order(f.blocks);
    var p := Point(order[k], i);
    BlockMapAt(f.blocks, k);
    d := LiveIsDominated(f, v, p);
    var path := EarlyPath(g, order, k);
    var w := PathIsWalkable(g, path, i);
    assert d in w;
    if d.block in path[..|path| - 1] {
      var n :| 0 <= n < |path| - 1 && path[n] == d.block;
      var j :| 0 <= j < k && order[j] == d.block;
      assert f.blocks[j].id == d.block;
    }
  }

  /** Only what entering the function binds can be live there. */
  lemma LiveOnEntryIsBound(f: Function)
    requires Accepted(f)
    ensures IsPoint(GraphOf(f), Point(f.entry, 0))
    ensures forall v :: Live(GraphOf(f), v, Point(f.entry, 0)) ==> v in DefsAt(GraphOf(f), Point(f.entry, 0))
  {
    var at := Point(f.entry, 0);
    forall v | Live(GraphOf(f), v, at) ensures v in DefsAt(GraphOf(f), at) {
      LiveOnEntryIsBoundAt(f, v);
    }
  }

  lemma LiveOnEntryIsBoundAt(f: Function, v: ValueId)
    requires Accepted(f) && Live(GraphOf(f), v, Point(f.entry, 0))
    ensures IsPoint(GraphOf(f), Point(f.entry, 0)) && v in DefsAt(GraphOf(f), Point(f.entry, 0))
  {
    var w := [Point(f.entry, 0)];
    assert IsRun(GraphOf(f), w);
    LiveIsDefined(f, w, v);
    var j :| 0 <= j < |w| && IsPoint(GraphOf(f), w[j]) && v in DefsAt(GraphOf(f), w[j]);
  }
}
