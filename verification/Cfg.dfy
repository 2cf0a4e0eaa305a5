/** Control-flow graphs, program points and the runs through them. */
module Cfg {
  import opened Ir
  import opened Collections

  /** A function body as the verifier indexes it: blocks by identity, and the unsafe root, if any. */
  datatype Graph = Graph(entry: BlockId, blocks: map<BlockId, Block>, root: set<ValueId>)

  /** The first block with each identity, as repeated `emplace` keeps it. */
  function BlockMap(bs: seq<Block>): map<BlockId, Block> {
    if |bs| == 0 then map[] else BlockMap(bs[1..])[bs[0].id := bs[0]]
  }

  function GraphOf(f: Function): Graph {
    Graph(f.entry, BlockMap(f.blocks), if f.unsafeRoot.Some? then {f.unsafeRoot.value.id} else {})
  }

  ghost predicate UniqueBlockIds(bs: seq<Block>) {
    forall i, j :: 0 <= i < j < |bs| ==> bs[i].id != bs[j].id
  }

  lemma {:induction false} BlockMapAt(bs: seq<Block>, i: nat)
    requires i < |bs|
    ensures bs[i].id in BlockMap(bs)
    ensures UniqueBlockIds(bs) ==> BlockMap(bs)[bs[i].id] == bs[i]
  {
    if i > 0 {
      BlockMapAt(bs[1..], i - 1);
    }
  }

  lemma {:induction false} BlockMapFrom(bs: seq<Block>, id: BlockId) returns (i: nat)
    requires id in BlockMap(bs)
    ensures i < |bs| && bs[i].id == id && BlockMap(bs)[id] == bs[i]
  {
    if bs[0].id == id {
      i := 0;
    } else {
      i := BlockMapFrom(bs[1..], id);
      i := i + 1;
    }
  }

  predicate HasEdge(g: Graph, a: BlockId, b: BlockId) {
    a in g.blocks && exists e :: e in EdgesOf(g.blocks[a].ending) && e.target == b
  }

  /** What edge verification establishes: targets exist, none is the entry, and argument counts agree. */
  predicate EdgeOk(g: Graph, e: Edge) {
    e.target in g.blocks && e.target != g.entry && |e.arguments| == |g.blocks[e.target].parameters|
  }

  predicate WellFormed(g: Graph) {
    && g.entry in g.blocks
    && forall b, e :: b in g.blocks && e in EdgesOf(g.blocks[b].ending) ==> EdgeOk(g, e)
  }

  // ----- paths over blocks -----

  ghost predicate IsPath(g: Graph, p: seq<BlockId>) {
    && |p| > 0 && p[0] == g.entry && p[0] in g.blocks
    && forall i :: 0 <= i < |p| - 1 ==> HasEdge(g, p[i], p[i + 1])
  }

  function Last<T>(s: seq<T>): T
    requires |s| > 0
  {
    s[|s| - 1]
  }

  ghost predicate Reachable(g: Graph, b: BlockId) {
    exists p: seq<BlockId> :: IsPath(g, p) && Last(p) == b
  }

  /** `d` lies on every path from the entry to `b`. */
  ghost predicate Dominates(g: Graph, d: BlockId, b: BlockId) {
    forall p: seq<BlockId> :: IsPath(g, p) && Last(p) == b ==> d in p
  }

  lemma PathExtends(g: Graph, p: seq<BlockId>, b: BlockId)
    requires IsPath(g, p) && HasEdge(g, Last(p), b)
    ensures IsPath(g, p + [b]) && Last(p + [b]) == b
  {
    var q := p + [b];
    forall i | 0 <= i < |q| - 1 ensures HasEdge(g, q[i], q[i + 1]) {
      if i < |p| - 1 {
        assert q[i] == p[i] && q[i + 1] == p[i + 1];
      }
    }
  }

  // ----- points inside blocks -----

  /** Before instruction `index` of the block, or before its terminator. */
  datatype Point = Point(block: BlockId, index: nat)

  predicate IsPoint(g: Graph, p: Point) {
    p.block in g.blocks && p.index <= |g.blocks[p.block].instructions|
  }

  predicate AtTerminator(g: Graph, p: Point)
    requires IsPoint(g, p)
  {
    p.index == |g.blocks[p.block].instructions|
  }

  /** Values bound on arrival at a point: parameters on entering a block, results after an instruction. */
  function DefsAt(g: Graph, p: Point): set<ValueId>
    requires IsPoint(g, p)
  {
    if p.index > 0 then Ids(g.blocks[p.block].instructions[p.index - 1].results)
    else Ids(g.blocks[p.block].parameters) + if p.block == g.entry then g.root else {}
  }

  function ArgumentsOf(es: seq<Edge>): set<ValueId> {
    set e, v | e in es && v in e.arguments :: v
  }

  function TerminatorUses(t: Terminator): set<ValueId> {
    ArgumentsOf(EdgesOf(t))
    + (if t.ConditionalBranch? then {t.condition} else {})
    + (if t.Return? && t.value.Some? then {t.value.value} else {})
  }

  /** Values read at a point: operands of the next instruction, or what the terminator reads. */
  function UsesAt(g: Graph, p: Point): set<ValueId>
    requires IsPoint(g, p)
  {
    var b := g.blocks[p.block];
    if p.index < |b.instructions| then set v | v in b.instructions[p.index].operands
    else TerminatorUses(b.ending)
  }

  ghost predicate Step(g: Graph, p: Point, q: Point) {
    && IsPoint(g, p) && IsPoint(g, q)
    && if AtTerminator(g, p) then q.index == 0 && HasEdge(g, p.block, q.block)
       else q == Point(p.block, p.index + 1)
  }

  ghost predicate IsWalk(g: Graph, w: seq<Point>) {
    && |w| > 0 && IsPoint(g, w[0])
    && forall i :: 0 <= i < |w| - 1 ==> Step(g, w[i], w[i + 1])
  }

  /** An execution path: a walk from the start of the entry block. */
  ghost predicate IsRun(g: Graph, w: seq<Point>) {
    IsWalk(g, w) && w[0] == Point(g.entry, 0)
  }

  lemma WalkPoints(g: Graph, w: seq<Point>, i: nat)
    requires IsWalk(g, w) && i < |w|
    ensures IsPoint(g, w[i])
  {
    if i > 0 {
      assert Step(g, w[i - 1], w[i - 1 + 1]);
    }
  }

  lemma WalksJoin(g: Graph, w: seq<Point>, v: seq<Point>)
    requires IsWalk(g, w) && IsWalk(g, v) && Last(w) == v[0]
    ensures IsWalk(g, w + v[1..]) && Last(w + v[1..]) == Last(v)
  {
    var u := w + v[1..];
    forall i | 0 <= i < |u| - 1 ensures Step(g, u[i], u[i + 1]) {
      if i < |w| - 1 {
        assert u[i] == w[i] && u[i + 1] == w[i + 1];
      } else {
        assert u[i] == v[i - |w| + 1] && u[i + 1] == v[i - |w| + 2];
        assert Step(g, v[i - |w| + 1], v[i - |w| + 1 + 1]);
      }
    }
  }

  /** Inside a block a walk can only have come through every earlier point of that block. */
  lemma {:induction false} WalkedThroughBlock(g: Graph, w: seq<Point>, k: nat, i: nat)
    requires IsRun(g, w) && k < |w| && i <= w[k].index
    ensures w[k].index - i <= k
    ensures w[k - (w[k].index - i)] == Point(w[k].block, i)
    decreases k
  {
    if i < w[k].index {
      if k == 0 {
        assert false;
      } else {
        assert Step(g, w[k - 1], w[k - 1 + 1]);
        WalkedThroughBlock(g, w, k - 1, i);
      }
    }
  }

  /** Leaving a block means reaching its terminator, through every point of the block. */
  lemma {:induction false} LeavesThroughBlock(g: Graph, w: seq<Point>, j: nat, k: nat, i: nat)
    requires IsRun(g, w) && j <= k < |w| && w[k].block != w[j].block
    requires IsPoint(g, Point(w[j].block, i)) && w[j].index <= i
    ensures exists m :: j <= m < k && w[m] == Point(w[j].block, i)
    decreases k - j
  {
    WalkPoints(g, w, j);
    if w[j].index == i {
      assert w[j] == Point(w[j].block, i);
    } else {
      assert Step(g, w[j], w[j + 1]);
      LeavesThroughBlock(g, w, j + 1, k, i);
    }
  }

  /** The blocks a run enters, in order. */
  ghost function Entered(w: seq<Point>): seq<BlockId> {
    if |w| == 0 then []
    else Entered(w[..|w| - 1]) + if Last(w).index == 0 then [Last(w).block] else []
  }

  lemma {:induction false} RunProjects(g: Graph, w: seq<Point>)
    requires WellFormed(g) && IsRun(g, w)
    ensures IsPath(g, Entered(w)) && Last(Entered(w)) == Last(w).block
    ensures forall b :: b in Entered(w) ==> Point(b, 0) in w
  {
    var v := w[..|w| - 1];
    if |v| == 0 {
      assert Entered(v) == [];
      assert Entered(w) == [g.entry];
    } else {
      assert IsRun(g, v) by {
        forall i | 0 <= i < |v| - 1 ensures Step(g, v[i], v[i + 1]) {
          assert Step(g, w[i], w[i + 1]);
        }
      }
      RunProjects(g, v);
      assert Step(g, w[|v| - 1], w[|v| - 1 + 1]);
      if Last(w).index == 0 {
        PathExtends(g, Entered(v), Last(w).block);
      } else {
        assert Entered(w) == Entered(v);
      }
    }
  }

  /** A path over blocks can be walked, stopping anywhere in its last block. */
  lemma {:induction false} PathIsWalkable(g: Graph, p: seq<BlockId>, i: nat) returns (w: seq<Point>)
    requires WellFormed(g) && IsPath(g, p) && IsPoint(g, Point(Last(p), i))
    ensures IsRun(g, w) && Last(w) == Point(Last(p), i)
    ensures forall q :: q in w ==> q.block in p[..|p| - 1] || (q.block == Last(p) && q.index <= i)
    decreases |p|, i
  {
    var q := Point(Last(p), i);
    if i > 0 {
      var v := PathIsWalkable(g, p, i - 1);
      w := v + [q];
      StepExtends(g, v, q);
    } else if |p| == 1 {
      w := [q];
    } else {
      var r := p[..|p| - 1];
      assert HasEdge(g, p[|p| - 2], p[|p| - 2 + 1]);
      assert IsPath(g, r) by {
        forall k | 0 <= k < |r| - 1 ensures HasEdge(g, r[k], r[k + 1]) {
          assert HasEdge(g, p[k], p[k + 1]);
        }
      }
      var v := PathIsWalkable(g, r, |g.blocks[Last(r)].instructions|);
      w := v + [q];
      StepExtends(g, v, q);
    }
  }

  lemma StepExtends(g: Graph, w: seq<Point>, q: Point)
    requires IsRun(g, w) && Step(g, Last(w), q)
    ensures IsRun(g, w + [q])
  {
    var u := w + [q];
    forall i | 0 <= i < |u| - 1 ensures Step(g, u[i], u[i + 1]) {
      if i < |w| - 1 {
        assert Step(g, w[i], w[i + 1]);
      }
    }
  }
}
