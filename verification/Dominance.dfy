/** The dominator iteration of the verifier, and its exactness against paths. */
module Dominance {
  import opened Ir
  import opened Cfg
  import opened Collections

  type Dominators = map<BlockId, set<BlockId>>

  /** The predecessors of `b` in the order edge verification records them, with multiplicity. */
  function Predecessors(g: Graph, ids: seq<BlockId>, b: BlockId): (r: seq<BlockId>)
    requires forall id :: id in ids ==> id in g.blocks
    ensures forall p :: p in r <==> p in ids && HasEdge(g, p, b)
  {
    if |ids| == 0 then []
    else Sources(ids[0], EdgesOf(g.blocks[ids[0]].ending), b) + Predecessors(g, ids[1..], b)
  }

  function Sources(a: BlockId, es: seq<Edge>, b: BlockId): (r: seq<BlockId>)
    ensures forall p :: p in r <==> p == a && exists e :: e in es && e.target == b
  {
    if |es| == 0 then []
    else (if es[0].target == b then [a] else []) + Sources(a, es[1..], b)
  }

  ghost predicate Enumerates(g: Graph, ids: seq<BlockId>) {
    && (forall id :: id in ids <==> id in g.blocks)
    && forall i, j :: 0 <= i < j < |ids| ==> ids[i] != ids[j]
  }

  /** One candidate step at `b`: itself, and whatever dominates all of its predecessors. */
  ghost predicate InMeet(g: Graph, dom: Dominators, b: BlockId, d: BlockId) {
    d == b || forall p :: p in g.blocks && HasEdge(g, p, b) ==> p in dom && d in dom[p]
  }

  /** The state of the iteration: above the true dominators, below the start, and still shrinking. */
  ghost predicate Sound(g: Graph, dom: Dominators) {
    && dom.Keys == g.blocks.Keys
    && g.entry in dom && dom[g.entry] == {g.entry}
    && (forall b :: b in dom ==> dom[b] <= g.blocks.Keys && b in dom[b])
    && (forall b, d :: b in dom && d in g.blocks && Dominates(g, d, b) ==> d in dom[b])
    && (forall b, d :: b in dom && b != g.entry && d in g.blocks && InMeet(g, dom, b, d) ==> d in dom[b])
  }

  ghost predicate Stable(g: Graph, dom: Dominators, b: BlockId)
    requires b in dom
  {
    b == g.entry || forall d :: d in dom[b] ==> InMeet(g, dom, b, d)
  }

  /** The intersection the sweep forms at a block, by a loop over its predecessor list. */
  method Intersect(dom: Dominators, b: BlockId, preds: seq<BlockId>) returns (r: set<BlockId>)
    requires |preds| > 0 && forall i :: 0 <= i < |preds| ==> preds[i] in dom
    ensures forall d :: d in r <==> d == b || forall i :: 0 <= i < |preds| ==> d in dom[preds[i]]
  {
    r := dom[preds[0]];
    for i := 1 to |preds|
      invariant forall d :: d in r <==> forall j :: 0 <= j < i ==> d in dom[preds[j]]
    {
      r := r * dom[preds[i]];
    }
    r := r + {b};
  }

  lemma IntersectionIsMeet(g: Graph, dom: Dominators, b: BlockId, preds: seq<BlockId>, r: set<BlockId>)
    requires Sound(g, dom) && b in g.blocks && |preds| > 0
    requires forall p :: p in preds <==> p in g.blocks && HasEdge(g, p, b)
    requires forall d :: d in r <==> d == b || forall i :: 0 <= i < |preds| ==> d in dom[preds[i]]
    ensures r <= g.blocks.Keys
    ensures forall d :: d in g.blocks ==> (d in r <==> InMeet(g, dom, b, d))
  {
    assert preds[0] in preds;
    forall d | d in r ensures d in g.blocks && InMeet(g, dom, b, d) {
      if d != b {
        assert d in dom[preds[0]];
        forall p | p in g.blocks && HasEdge(g, p, b) ensures d in dom[p] {
          var i :| 0 <= i < |preds| && preds[i] == p;
        }
      }
    }
    forall d | d in g.blocks && InMeet(g, dom, b, d) ensures d in r {
      forall i | 0 <= i < |preds| && d != b ensures d in dom[preds[i]] {
        assert preds[i] in preds;
      }
    }
  }

  lemma DominatesMeansMeet(g: Graph, dom: Dominators, b: BlockId, d: BlockId)
    requires Sound(g, dom) && b in g.blocks && d in g.blocks && Dominates(g, d, b)
    ensures InMeet(g, dom, b, d)
  {
    if d != b {
      forall p | p in g.blocks && HasEdge(g, p, b) ensures d in dom[p] {
        forall q: seq<BlockId> | IsPath(g, q) && Last(q) == p ensures d in q {
          PathExtends(g, q, b);
          assert d in q + [b];
        }
      }
    }
  }

  /** Replacing one block's set by its meet keeps the state sound. */
  lemma SweepStepSound(g: Graph, dom: Dominators, b: BlockId, r: set<BlockId>, next: Dominators)
    requires Sound(g, dom) && b in g.blocks && b != g.entry
    requires r <= g.blocks.Keys
    requires forall d :: d in g.blocks ==> (d in r <==> InMeet(g, dom, b, d))
    requires next == dom[b := r]
    ensures r <= dom[b] && Sound(g, next)
  {
    forall d | d in g.blocks && Dominates(g, d, b) ensures d in r {
      DominatesMeansMeet(g, dom, b, d);
    }
    forall c, d | c in next && c != g.entry && d in g.blocks && InMeet(g, next, c, d) ensures d in next[c] {
      assert InMeet(g, dom, c, d);
    }
  }

  // ----- termination and the iteration budget -----

  ghost function Pairs(dom: Dominators): set<(BlockId, BlockId)> {
    set b, d | b in dom && d in dom[b] :: (b, d)
  }

  lemma {:induction false} ProductCardinality(a: set<BlockId>, b: set<BlockId>, s: set<(BlockId, BlockId)>)
    requires forall p :: p in s ==> p.0 in a && p.1 in b
    ensures |s| <= |a| * |b|
  {
    if a == {} {
      assert s == {};
    } else {
      var x :| x in a;
      var row := set p | p in s && p.0 == x;
      ProductCardinality(a - {x}, b, s - row);
      RowCardinality(x, b, row);
      assert s == row + (s - row);
      assert |a| * |b| == |b| + (|a| - 1) * |b|;
    }
  }

  lemma {:induction false} RowCardinality(x: BlockId, b: set<BlockId>, row: set<(BlockId, BlockId)>)
    requires forall p :: p in row ==> p.0 == x && p.1 in b
    ensures |row| <= |b|
  {
    if row != {} {
      var p :| p in row;
      RowCardinality(x, b - {p.1}, row - {p});
    }
  }

  /** Nothing is left in a stable, sound state but the dominators themselves. */
  lemma {:induction false} StableIsExact(g: Graph, dom: Dominators, b: BlockId, d: BlockId, p: seq<BlockId>)
    requires WellFormed(g) && Sound(g, dom) && AllStable(g, dom)
    requires b in dom && d in dom[b] && IsPath(g, p) && Last(p) == b
    ensures d in p
    decreases |p|
  {
    if d != b {
      if b == g.entry {
        assert false;
      } else {
        var q := p[..|p| - 1];
        assert HasEdge(g, p[|p| - 2], p[|p| - 2 + 1]);
        assert IsPath(g, q) && HasEdge(g, Last(q), b) by {
          forall i | 0 <= i < |q| - 1 ensures HasEdge(g, q[i], q[i + 1]) {
            assert HasEdge(g, p[i], p[i + 1]);
          }
        }
        assert Stable(g, dom, b);
        assert InMeet(g, dom, b, d);
        StableIsExact(g, dom, Last(q), d, q);
      }
    }
  }

  lemma PairsShrink(dom: Dominators, id: BlockId, r: set<BlockId>)
    requires id in dom && r <= dom[id] && r != dom[id]
    ensures |Pairs(dom[id := r])| < |Pairs(dom)|
  {
    assert !(dom[id] <= r);
    var d :| d in dom[id] && d !in r;
    assert (id, d) in Pairs(dom) - Pairs(dom[id := r]);
    SubsetSize(Pairs(dom[id := r]), Pairs(dom));
  }

  ghost predicate HasPredecessor(g: Graph, b: BlockId) {
    exists p :: p in g.blocks && HasEdge(g, p, b)
  }

  ghost predicate NoOrphans(g: Graph) {
    forall b {:trigger HasPredecessor(g, b)} :: b in g.blocks && b != g.entry ==> HasPredecessor(g, b)
  }

  /** The body of a sweep at one non-entry block. */
  method SweepBlock(g: Graph, ids: seq<BlockId>, dom: Dominators, id: BlockId) returns (next: Dominators, ok: bool)
    requires WellFormed(g) && Enumerates(g, ids) && Sound(g, dom) && id in g.blocks && id != g.entry
    ensures ok <==> HasPredecessor(g, id)
    ensures Sound(g, next)
    ensures ok && next == dom ==> Stable(g, dom, id)
    ensures next != dom ==> |Pairs(next)| < |Pairs(dom)|
  {
    next := dom;
    var preds := Predecessors(g, ids, id);
    if |preds| == 0 {
      assert forall p :: p in g.blocks ==> !HasEdge(g, p, id);
      return next, false;
    }
    assert preds[0] in preds;
    ok := true;
    var r := Intersect(dom, id, preds);
    IntersectionIsMeet(g, dom, id, preds, r);
    SweepStepSound(g, dom, id, r, dom[id := r]);
    if r != dom[id] {
      next := dom[id := r];
      PairsShrink(dom, id, r);
    }
  }

  ghost predicate AllStable(g: Graph, dom: Dominators) {
    forall b {:trigger Stable(g, dom, b)} :: b in dom ==> Stable(g, dom, b)
  }

  /** One pass over the blocks, updating in place. */
  method Sweep(g: Graph, ids: seq<BlockId>, before: Dominators) returns (dom: Dominators, changed: bool, ok: bool)
    requires WellFormed(g) && Enumerates(g, ids) && Sound(g, before)
    ensures ok <==> NoOrphans(g)
    ensures Sound(g, dom)
    ensures ok && !changed ==> AllStable(g, dom)
    ensures ok && changed ==> |Pairs(dom)| < |Pairs(before)|
  {
    dom, changed := before, false;
    for i := 0 to |ids|
      invariant Sound(g, dom)
      invariant changed ==> |Pairs(dom)| < |Pairs(before)|
      invariant !changed ==> dom == before && forall b {:trigger Stable(g, dom, b)} :: b in ids[..i] ==>
                  Stable(g, dom, b)
      invariant forall b {:trigger HasPredecessor(g, b)} :: b in ids[..i] && b != g.entry ==> HasPredecessor(g, b)
    {
      TakeOneMore(ids, i);
      assert ids[i] in g.blocks;
      if ids[i] != g.entry {
        var next;
        next, ok := SweepBlock(g, ids, dom, ids[i]);
        if !ok { return; }
        changed := changed || next != dom;
        dom := next;
      }
    }
    ok := true;
    assert ids[..|ids|] == ids;
  }

  /**
   * The sweep, repeated while something changes and the budget lasts. `ids` is the ascending enumeration of
   * the block set. The result is the dominator relation of paths; the budget never runs out; and the only
   * failure is a non-entry block without predecessor.
   */
  method ComputeDominators(g: Graph, ids: seq<BlockId>) returns (dom: Dominators, ok: bool)
    requires WellFormed(g) && Enumerates(g, ids)
    ensures ok <==> NoOrphans(g)
    ensures ok ==> dom.Keys == g.blocks.Keys
    ensures ok ==> forall b, d :: b in g.blocks ==> (d in dom[b] <==> d in g.blocks && Dominates(g, d, b))
  {
    var all := set id | id in ids;
    dom := map id | id in all :: if id == g.entry then {id} else all;
    assert all == g.blocks.Keys;
    StartSound(g, dom);
    StartWeight(g, dom, ids);
    var changed, remaining := true, |ids| * |ids| + 1;
    ok := true;
    while changed && remaining > 0
      invariant Sound(g, dom)
      invariant changed ==> |Pairs(dom)| + 1 <= remaining
      invariant !changed ==> AllStable(g, dom)
      invariant !changed ==> NoOrphans(g)
      decreases remaining
    {
      remaining := remaining - 1;
      dom, changed, ok := Sweep(g, ids, dom);
      if !ok { return; }
    }
    ok := !changed;
    ExactWhenStable(g, dom);
  }

  lemma StartWeight(g: Graph, dom: Dominators, ids: seq<BlockId>)
    requires Enumerates(g, ids) && Sound(g, dom)
    ensures |Pairs(dom)| <= |ids| * |ids|
  {
    DistinctSize(ids, g.blocks.Keys);
    ProductCardinality(g.blocks.Keys, g.blocks.Keys, Pairs(dom));
  }

  lemma ExactWhenStable(g: Graph, dom: Dominators)
    requires WellFormed(g) && Sound(g, dom) && AllStable(g, dom)
    ensures forall b, d :: b in g.blocks ==> (d in dom[b] <==> d in g.blocks && Dominates(g, d, b))
  {
    forall b, d | b in g.blocks && d in dom[b] ensures Dominates(g, d, b) {
      forall p: seq<BlockId> | IsPath(g, p) && Last(p) == b ensures d in p {
        StableIsExact(g, dom, b, d, p);
      }
    }
  }

  lemma StartSound(g: Graph, dom: Dominators)
    requires WellFormed(g) && dom.Keys == g.blocks.Keys
    requires forall b :: b in dom ==> dom[b] == if b == g.entry then {b} else g.blocks.Keys
    ensures Sound(g, dom)
  {
    forall d | d in g.blocks && Dominates(g, d, g.entry) ensures d == g.entry {
      assert IsPath(g, [g.entry]) && Last([g.entry]) == g.entry;
      assert d in [g.entry];
    }
  }
}
