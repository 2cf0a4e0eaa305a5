/** Whether a control-flow graph has a cycle, decided by peeling off blocks without unpeeled predecessors. */
module LoopDetection {
  import opened Ir
  import opened Cfg
  import opened Collections

  /** A nonempty walk back to where it started. */
  ghost predicate IsCycle(g: Graph, p: seq<BlockId>) {
    |p| >= 2 && p[0] == Last(p) && IsWalk(g, p)
  }

  ghost predicate IsWalk(g: Graph, p: seq<BlockId>) {
    forall i :: 0 <= i < |p| - 1 ==> HasEdge(g, p[i], p[i + 1])
  }

  ghost predicate HasCycle(f: Function) {
    exists p: seq<BlockId> :: IsCycle(GraphOf(f), p)
  }

  /** What the verifier establishes before regions are selected. */
  ghost predicate Closed(f: Function) {
    UniqueBlockIds(f.blocks) && forall i, e :: 0 <= i < |f.blocks| && e in EdgesOf(f.blocks[i].ending) ==>
        e.target in GraphOf(f).blocks
  }

  // ----- edges counted with multiplicity -----

  function CountTo(es: seq<Edge>, b: BlockId): nat {
    if |es| == 0 then 0 else (if es[0].target == b then 1 else 0) + CountTo(es[1..], b)
  }

  /** Edges to `b` out of the first `k` blocks, not counting blocks in `done`. */
  function Incoming(bs: seq<Block>, k: nat, done: set<BlockId>, b: BlockId): nat
    requires k <= |bs|
  {
    if k == 0 then 0 else Incoming(bs, k - 1, done, b) + if bs[k - 1].id in done then 0
      else CountTo(EdgesOf(bs[k - 1].ending), b)
  }

  lemma {:induction false} CountZero(es: seq<Edge>, b: BlockId)
    ensures CountTo(es, b) == 0 <==> forall e :: e in es ==> e.target != b
  {
    if |es| > 0 {
      CountZero(es[1..], b);
      assert es == [es[0]] + es[1..];
    }
  }

  lemma {:induction false} CountNext(es: seq<Edge>, j: nat, b: BlockId)
    requires j < |es|
    ensures CountTo(es[..j + 1], b) == CountTo(es[..j], b) + if es[j].target == b then 1 else 0
  {
    if j > 0 {
      CountNext(es[1..], j - 1, b);
      assert es[..j + 1][1..] == es[1..][..j] && es[..j][1..] == es[1..][..j - 1];
    } else {
      assert es[..1][1..] == [];
    }
  }

  lemma {:induction false} IncomingZero(bs: seq<Block>, k: nat, done: set<BlockId>, b: BlockId)
    requires k <= |bs|
    ensures Incoming(bs, k, done, b) == 0 <==>
              forall i, e :: 0 <= i < k && bs[i].id !in done && e in EdgesOf(bs[i].ending) ==> e.target != b
  {
    if k > 0 {
      IncomingZero(bs, k - 1, done, b);
      CountZero(EdgesOf(bs[k - 1].ending), b);
    }
  }

  /** Peeling block `i` takes away its edges. */
  lemma {:induction false} IncomingWithout(bs: seq<Block>, k: nat, done: set<BlockId>, i: nat, b: BlockId)
    requires k <= |bs| && i < |bs| && UniqueBlockIds(bs) && bs[i].id !in done
    ensures Incoming(bs, k, done, b) == Incoming(bs, k, done + {bs[i].id}, b) + if i < k
            then CountTo(EdgesOf(bs[i].ending), b) else 0
  {
    if k > 0 {
      IncomingWithout(bs, k - 1, done, i, b);
    }
  }

  // ----- the state of the peeling -----

  /** `count` holds, for every block, its edges from unpeeled blocks and those in `es`. */
  ghost predicate Counts(f: Function, count: map<BlockId, nat>, done: set<BlockId>, es: seq<Edge>) {
    count.Keys == GraphOf(f).blocks.Keys && forall b :: b in count ==>
        count[b] == Incoming(f.blocks, |f.blocks|, done, b) + CountTo(es, b)
  }

  ghost predicate ReadyOk(count: map<BlockId, nat>, ready: seq<BlockId>) {
    Distinct(ready) && (forall b :: b in ready ==> b in count) && forall b :: b in count ==>
        (b in ready <==> count[b] == 0)
  }

  /** Every predecessor of a ready block became ready earlier. */
  ghost predicate Ordered(g: Graph, ready: seq<BlockId>) {
    forall j, u :: 0 <= j < |ready| && HasEdge(g, u, ready[j]) ==> u in ready[..j]
  }

  lemma EdgeIsCounted(f: Function, u: BlockId, b: BlockId)
    requires UniqueBlockIds(f.blocks) && HasEdge(GraphOf(f), u, b)
    ensures exists i :: 0 <= i < |f.blocks| && f.blocks[i].id == u && f.blocks[i] == GraphOf(f).blocks[u]
  {
    var i := BlockMapFrom(f.blocks, u);
  }

  /** A block whose count is zero has only peeled predecessors. */
  lemma ZeroMeansPeeled(f: Function, count: map<BlockId, nat>, done: set<BlockId>, es: seq<Edge>, b: BlockId,
                        u: BlockId)
    requires UniqueBlockIds(f.blocks) && Counts(f, count, done, es) && b in count && count[b] == 0
             && HasEdge(GraphOf(f), u, b)
    ensures u in done
  {
    IncomingZero(f.blocks, |f.blocks|, done, b);
    EdgeIsCounted(f, u, b);
  }

  lemma PushOrdered(f: Function, count: map<BlockId, nat>, done: set<BlockId>, es: seq<Edge>, ready: seq<BlockId>,
                    b: BlockId)
    requires UniqueBlockIds(f.blocks) && Counts(f, count, done, es) && b in count && count[b] == 0
    requires Ordered(GraphOf(f), ready) && forall u :: u in done ==> u in ready
    ensures Ordered(GraphOf(f), ready + [b])
  {
    var next := ready + [b];
    forall j, u | 0 <= j < |next| && HasEdge(GraphOf(f), u, next[j]) ensures u in next[..j] {
      if j < |ready| {
        assert next[..j] == ready[..j];
      } else {
        assert next[..j] == ready;
        ZeroMeansPeeled(f, count, done, es, b, u);
      }
    }
  }

  // ----- what the result means -----

  /** Walks to a ready block come from earlier ready blocks, so none returns. */
  lemma {:induction false} EarlierOnWalk(g: Graph, ready: seq<BlockId>, p: seq<BlockId>, j: nat)
    requires Ordered(g, ready) && |p| >= 2 && IsWalk(g, p) && j < |ready| && Last(p) == ready[j]
    ensures p[0] in ready[..j]
    decreases |p|
  {
    var q := p[..|p| - 1];
    assert HasEdge(g, p[|p| - 2], p[|p| - 1]);
    assert Last(q) in ready[..j];
    if |q| >= 2 {
      var i :| 0 <= i < j && ready[i] == Last(q);
      EarlierOnWalk(g, ready, q, i);
      var h :| 0 <= h < i && ready[h] == p[0];
      assert ready[..j][h] == p[0];
    }
  }

  lemma NoCycleWhenPeeled(g: Graph, ready: seq<BlockId>, p: seq<BlockId>)
    requires Ordered(g, ready) && Distinct(ready) && (forall b :: b in g.blocks ==> b in ready)
    requires forall a, b :: HasEdge(g, a, b) ==> b in g.blocks
    ensures !IsCycle(g, p)
  {
    if IsCycle(g, p) {
      assert HasEdge(g, p[|p| - 2], p[|p| - 1]);
      var j :| 0 <= j < |ready| && ready[j] == Last(p);
      EarlierOnWalk(g, ready, p, j);
    }
  }

  /** Some block occurs twice among more places than there are blocks. */
  lemma {:induction false} Repeats(p: seq<BlockId>, u: set<BlockId>) returns (i: nat, j: nat)
    requires (forall x :: x in p ==> x in u) && |p| > |u|
    ensures i < j < |p| && p[i] == p[j]
    decreases |p|
  {
    assert p[0] in u;
    if p[0] in p[1..] {
      var k :| 0 <= k < |p[1..]| && p[1..][k] == p[0];
      i, j := 0, k + 1;
    } else {
      i, j := Repeats(p[1..], u - {p[0]});
      i, j := i + 1, j + 1;
    }
  }

  ghost predicate FollowsWithin(g: Graph, u: set<BlockId>, b: BlockId) {
    exists a :: a in u && HasEdge(g, a, b)
  }

  ghost predicate Sourceless(g: Graph, u: set<BlockId>) {
    u != {} && forall b {:trigger FollowsWithin(g, u, b)} :: b in u ==> FollowsWithin(g, u, b)
  }

  /** Going back from predecessor to predecessor inside `u`. */
  lemma {:induction false} WalkBack(g: Graph, u: set<BlockId>, n: nat) returns (p: seq<BlockId>)
    requires Sourceless(g, u)
    ensures |p| == n + 1 && IsWalk(g, p) && forall x :: x in p ==> x in u
  {
    if n == 0 {
      var b :| b in u;
      p := [b];
    } else {
      var q := WalkBack(g, u, n - 1);
      assert q[0] in u && FollowsWithin(g, u, q[0]);
      var a :| a in u && HasEdge(g, a, q[0]);
      p := [a] + q;
      forall i | 0 <= i < |p| - 1 ensures HasEdge(g, p[i], p[i + 1]) {
        if i > 0 { assert p[i] == q[i - 1] && p[i + 1] == q[i]; }
      }
    }
  }

  lemma CycleWhenStuck(g: Graph, u: set<BlockId>) returns (p: seq<BlockId>)
    requires Sourceless(g, u)
    ensures IsCycle(g, p)
  {
    var q := WalkBack(g, u, |u|);
    var i, j := Repeats(q, u);
    p := q[i..j + 1];
    forall k | 0 <= k < |p| - 1 ensures HasEdge(g, p[k], p[k + 1]) {
      assert p[k] == q[i + k] && p[k + 1] == q[i + k + 1];
    }
  }

  function Unready(count: map<BlockId, nat>, ready: seq<BlockId>): set<BlockId> {
    set b | b in count && b !in ready
  }

  lemma StuckWhenUnready(f: Function, count: map<BlockId, nat>, ready: seq<BlockId>, done: set<BlockId>)
    requires Closed(f) && Counts(f, count, done, []) && ReadyOk(count, ready) && (forall b :: b in done <==> b in ready)
    requires Unready(count, ready) != {}
    ensures Sourceless(GraphOf(f), Unready(count, ready))
  {
    var u := Unready(count, ready);
    forall b | b in u ensures FollowsWithin(GraphOf(f), u, b) {
      IncomingZero(f.blocks, |f.blocks|, done, b);
      var i, e :| 0 <= i < |f.blocks| && f.blocks[i].id !in done && e in EdgesOf(f.blocks[i].ending) && e.target == b;
      BlockMapAt(f.blocks, i);
      assert HasEdge(GraphOf(f), f.blocks[i].id, b);
    }
  }

  // ----- counting the edges -----

  /** Counts of the edges out of the first `k` blocks, and of `es` out of the next. */
  ghost predicate CountedTo(f: Function, count: map<BlockId, nat>, k: nat, es: seq<Edge>)
    requires k <= |f.blocks|
  {
    && count.Keys <= GraphOf(f).blocks.Keys && (forall i :: 0 <= i < k ==> f.blocks[i].id in count)
    && forall b {:trigger CountOf(count, b)} :: CountOf(count, b) == Incoming(f.blocks, k, {}, b) + CountTo(es, b)
  }

  function CountOf(count: map<BlockId, nat>, b: BlockId): nat {
    if b in count then count[b] else 0
  }

  lemma CountOneMore(f: Function, count: map<BlockId, nat>, k: nat, es: seq<Edge>, j: nat)
    requires k < |f.blocks| && j < |es| && CountedTo(f, count, k, es[..j]) && es[j].target in GraphOf(f).blocks
    ensures CountedTo(f, count[es[j].target := CountOf(count, es[j].target) + 1], k, es[..j + 1])
  {
    var next := count[es[j].target := CountOf(count, es[j].target) + 1];
    forall b ensures CountOf(next, b) == Incoming(f.blocks, k, {}, b) + CountTo(es[..j + 1], b) {
      CountNext(es, j, b);
      assert CountOf(count, b) == Incoming(f.blocks, k, {}, b) + CountTo(es[..j], b);
    }
  }

  lemma CountStarts(f: Function, count: map<BlockId, nat>, k: nat)
    requires k < |f.blocks| && CountedTo(f, count, k, [])
    ensures var id := f.blocks[k].id; CountedTo(f, if id in count then count else count[id := 0], k, [])
  {
    var id := f.blocks[k].id;
    BlockMapAt(f.blocks, k);
    var next := if id in count then count else count[id := 0];
    forall b ensures CountOf(next, b) == Incoming(f.blocks, k, {}, b) + CountTo([], b) {
      assert CountOf(count, b) == Incoming(f.blocks, k, {}, b) + CountTo([], b);
    }
  }

  lemma CountBlockDone(f: Function, count: map<BlockId, nat>, k: nat)
    requires k < |f.blocks| && CountedTo(f, count, k, EdgesOf(f.blocks[k].ending)) && f.blocks[k].id in count
    ensures CountedTo(f, count, k + 1, [])
  {
    forall b ensures CountOf(count, b) == Incoming(f.blocks, k + 1, {}, b) + CountTo([], b) {
      assert CountOf(count, b) == Incoming(f.blocks, k, {}, b) + CountTo(EdgesOf(f.blocks[k].ending), b);
    }
  }

  lemma CountsComplete(f: Function, count: map<BlockId, nat>)
    requires CountedTo(f, count, |f.blocks|, [])
    ensures Counts(f, count, {}, [])
  {
    forall b | b in GraphOf(f).blocks ensures b in count {
      var i := BlockMapFrom(f.blocks, b);
    }
    forall b | b in count ensures count[b] == Incoming(f.blocks, |f.blocks|, {}, b) + CountTo([], b) {
      assert CountOf(count, b) == count[b];
    }
  }

  /** Count the edges into every block. */
  method CountEdges(f: Function) returns (count: map<BlockId, nat>)
    requires Closed(f)
    ensures Counts(f, count, {}, [])
  {
    count := map[];
    for k := 0 to |f.blocks|
      invariant CountedTo(f, count, k, [])
    {
      var b := f.blocks[k];
      CountStarts(f, count, k);
      if b.id !in count { count := count[b.id := 0]; }
      var es := EdgesOf(b.ending);
      for j := 0 to |es|
        invariant b.id in count && CountedTo(f, count, k, es[..j])
      {
        assert es[j] in es;
        CountOneMore(f, count, k, es, j);
        var t := es[j].target;
        count := count[t := (if t in count then count[t] else 0) + 1];
      }
      assert es[..|es|] == es;
      CountBlockDone(f, count, k);
    }
    CountsComplete(f, count);
  }

  // ----- peeling -----

  /** Everything the outer loop maintains: the first `index` ready blocks have been peeled. */
  ghost predicate Peeled(f: Function, count: map<BlockId, nat>, ready: seq<BlockId>, done: set<BlockId>,
                         es: seq<Edge>) {
    Counts(f, count, done, es) && ReadyOk(count, ready) && Ordered(GraphOf(f), ready) && forall b :: b in done ==>
        b in ready
  }

  /** Starting to peel a block: its edges are now the ones still to be taken off. */
  lemma PeelStarts(f: Function, count: map<BlockId, nat>, ready: seq<BlockId>, done: set<BlockId>, u: BlockId)
    requires Closed(f) && Peeled(f, count, ready, done, []) && u in ready && u !in done
    ensures u in GraphOf(f).blocks && Peeled(f, count, ready, done + {u}, EdgesOf(GraphOf(f).blocks[u].ending))
  {
    var i := BlockMapFrom(f.blocks, u);
    forall b | b in count
      ensures count[b] == Incoming(f.blocks, |f.blocks|, done + {u}, b) + CountTo(EdgesOf(f.blocks[i].ending), b) {
      IncomingWithout(f.blocks, |f.blocks|, done, i, b);
    }
  }

  /** Taking off one edge. */
  lemma PeelEdge(f: Function, count: map<BlockId, nat>, ready: seq<BlockId>, done: set<BlockId>, es: seq<Edge>)
    requires Closed(f) && Peeled(f, count, ready, done, es) && |es| > 0 && es[0].target in count
    ensures count[es[0].target] > 0
    ensures var t := es[0].target;
            var next := count[t := count[t] - 1];
            Peeled(f, next, if next[t] == 0 then ready + [t] else ready, done, es[1..])
  {
    var t := es[0].target;
    assert CountTo(es, t) > 0;
    var next := count[t := count[t] - 1];
    if next[t] == 0 {
      PushOrdered(f, next, done, es[1..], ready, t);
    }
  }

  /** When nothing is left to peel, the leftovers decide. */
  lemma PeelEnds(f: Function, count: map<BlockId, nat>, ready: seq<BlockId>, done: set<BlockId>)
    requires Closed(f) && Peeled(f, count, ready, done, []) && forall b :: b in ready ==> b in done
    ensures |ready| != |count| <==> HasCycle(f)
  {
    var g := GraphOf(f);
    DistinctSize(ready, count.Keys);
    if Unready(count, ready) != {} {
      StuckWhenUnready(f, count, ready, done);
      var p := CycleWhenStuck(g, Unready(count, ready));
      assert exists b :: b in count.Keys && b !in ready;
    } else {
      forall a, b | HasEdge(g, a, b) ensures b in g.blocks { EdgeIsCounted(f, a, b); }
      forall b | b in count ensures b in ready { assert b !in Unready(count, ready); }
      forall p: seq<BlockId> ensures !IsCycle(g, p) { NoCycleWhenPeeled(g, ready, p); }
    }
  }

  ghost predicate ReadyTo(f: Function, count: map<BlockId, nat>, ready: seq<BlockId>, k: nat)
    requires k <= |f.blocks|
  {
    Distinct(ready) && forall b :: b in ready <==>
        b in count && count[b] == 0 && exists i :: 0 <= i < k && f.blocks[i].id == b
  }

  /** The blocks without incoming edges, to begin with. */
  method Sources(f: Function, count: map<BlockId, nat>) returns (ready: seq<BlockId>)
    requires Closed(f) && Counts(f, count, {}, [])
    ensures Peeled(f, count, ready, {}, [])
  {
    ready := [];
    for k := 0 to |f.blocks|
      invariant ReadyTo(f, count, ready, k)
    {
      BlockMapAt(f.blocks, k);
      if count[f.blocks[k].id] == 0 { ready := ready + [f.blocks[k].id]; }
    }
    SourcesOk(f, count, ready);
  }

  lemma SourcesOk(f: Function, count: map<BlockId, nat>, ready: seq<BlockId>)
    requires Closed(f) && Counts(f, count, {}, []) && ReadyTo(f, count, ready, |f.blocks|)
    ensures Peeled(f, count, ready, {}, [])
  {
    forall b | b in count ensures exists i :: 0 <= i < |f.blocks| && f.blocks[i].id == b {
      var i := BlockMapFrom(f.blocks, b);
    }
    forall j, u | 0 <= j < |ready| ensures !HasEdge(GraphOf(f), u, ready[j]) {
      assert ready[j] in ready;
      if HasEdge(GraphOf(f), u, ready[j]) { ZeroMeansPeeled(f, count, {}, [], ready[j], u); }
    }
  }

  /** Take off the edges of a peeled block; blocks that lose their last incoming edge become ready. */
  method PeelBlock(f: Function, u: BlockId, es: seq<Edge>, count0: map<BlockId, nat>, ready0: seq<BlockId>,
                   ghost done: set<BlockId>)
    returns (count: map<BlockId, nat>, ready: seq<BlockId>)
    requires Closed(f) && Peeled(f, count0, ready0, done, []) && u in ready0 && u !in done
    requires u in GraphOf(f).blocks && es == EdgesOf(GraphOf(f).blocks[u].ending)
    ensures Peeled(f, count, ready, done + {u}, []) && ready0 <= ready
  {
    count, ready := count0, ready0;
    PeelStarts(f, count, ready, done, u);
    ghost var i := BlockMapFrom(f.blocks, u);
    for j := 0 to |es|
      invariant ready0 <= ready && Peeled(f, count, ready, done + {u}, es[j..])
    {
      assert es[j] in es;
      PeelEdge(f, count, ready, done + {u}, es[j..]);
      var t := es[j].target;
      count := count[t := count[t] - 1];
      if count[t] == 0 { ready := ready + [t]; }
    }
  }

  lemma SamePrefix(a: seq<BlockId>, b: seq<BlockId>, n: nat)
    requires a <= b && n <= |a|
    ensures b[..n] == a[..n]
  {
  }

  lemma NextToPeel(f: Function, count: map<BlockId, nat>, ready: seq<BlockId>, index: nat)
    requires index < |ready| && ReadyOk(count, ready) && count.Keys == GraphOf(f).blocks.Keys
    ensures ready[index] in ready && ready[index] !in Members(ready[..index]) && ready[index] in GraphOf(f).blocks
    ensures Members(ready[..index + 1]) == Members(ready[..index]) + {ready[index]}
    ensures |ready| <= |count|
  {
    assert ready[..index + 1] == ready[..index] + [ready[index]];
    DistinctSize(ready, count.Keys);
  }

  /** True exactly when some walk over the function's edges returns to where it started. */
  method HasLoop(f: Function) returns (r: bool)
    requires Closed(f)
    ensures r <==> HasCycle(f)
  {
    var blocks := BlockMap(f.blocks);
    var count := CountEdges(f);
    var ready := Sources(f, count);
    var index := 0;
    assert Members(ready[..0]) == {};
    while index < |ready|
      invariant index <= |ready| && Peeled(f, count, ready, Members(ready[..index]), [])
      decreases |blocks| - index
    {
      NextToPeel(f, count, ready, index);
      ghost var was := ready;
      count, ready :=
        PeelBlock(f, ready[index], EdgesOf(blocks[ready[index]].ending), count, ready, Members(ready[..index]));
      SamePrefix(was, ready, index + 1);
      index := index + 1;
    }
    assert ready[..|ready|] == ready;
    PeelEnds(f, count, ready, Members(ready));
    r := |ready| != |blocks|;
  }
}
