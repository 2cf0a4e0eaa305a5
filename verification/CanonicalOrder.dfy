/** The breadth-first block order the verifier enforces, and what it gives the lowerer. */
module CanonicalOrder {
  import opened Ir
  import opened Cfg
  import opened Collections

  function Targets(es: seq<Edge>): (r: seq<BlockId>)
    ensures |r| == |es| && forall i :: 0 <= i < |es| ==> r[i] == es[i].target
  {
    seq(|es|, i requires 0 <= i < |es| => es[i].target)
  }

  /** The successors of each listed block, one list after the other. */
  function Flat(g: Graph, order: seq<BlockId>): seq<BlockId>
    requires InGraph(g, order)
  {
    if |order| == 0 then []
    else Flat(g, order[..|order| - 1]) + Targets(EdgesOf(g.blocks[Last(order)].ending))
  }

  /** First occurrences only, in order. */
  function Dedup(s: seq<BlockId>): seq<BlockId> {
    if |s| == 0 then []
    else
      var r := Dedup(s[..|s| - 1]);
      if Last(s) in r then r else r + [Last(s)]
  }

  lemma {:induction false} DedupMembers(s: seq<BlockId>, x: BlockId)
    ensures x in Dedup(s) <==> x in s
  {
    if |s| > 0 {
      DedupMembers(s[..|s| - 1], x);
      DedupMembers(s[..|s| - 1], Last(s));
      assert s == s[..|s| - 1] + [Last(s)];
    }
  }

  lemma {:induction false} DedupIsDistinct(s: seq<BlockId>)
    ensures Distinct(Dedup(s))
  {
    if |s| > 0 {
      DedupIsDistinct(s[..|s| - 1]);
    }
  }

  /**
   * Entry/successor order: the entry, then every successor at its first mention by an earlier block.
   * It is the order in which a breadth-first search finds blocks, stated without a queue.
   */
  ghost predicate IsCanonical(g: Graph, order: seq<BlockId>) {
    && InGraph(g, order)
    && order == Dedup([g.entry] + Flat(g, order))
    && Sourced(g, order)
  }

  ghost predicate InGraph(g: Graph, s: seq<BlockId>) {
    forall b :: b in s ==> b in g.blocks
  }

  ghost predicate SourcedAt(g: Graph, order: seq<BlockId>, k: nat)
    requires k < |order|
  {
    exists j :: 0 <= j < k && HasEdge(g, order[j], order[k])
  }

  /** Every block but the first is a successor of an earlier one. */
  ghost predicate Sourced(g: Graph, order: seq<BlockId>) {
    forall k {:trigger SourcedAt(g, order, k)} :: 0 < k < |order| ==> SourcedAt(g, order, k)
  }

  lemma {:induction false} DedupExtends(a: seq<BlockId>, a': seq<BlockId>, b: seq<BlockId>)
    requires Dedup(a) == Dedup(a')
    ensures Dedup(a + b) == Dedup(a' + b) && Dedup(a) <= Dedup(a + b)
  {
    if |b| == 0 {
      assert a + b == a && a' + b == a';
    } else {
      var b' := b[..|b| - 1];
      assert (a + b)[..|a + b| - 1] == a + b' && (a' + b)[..|a' + b| - 1] == a' + b';
      DedupExtends(a, a', b');
    }
  }

  function Unseen(s: seq<BlockId>, seen: set<BlockId>): seq<BlockId> {
    if |s| == 0 then []
    else Unseen(s[..|s| - 1], seen) + if Last(s) in seen then [] else [Last(s)]
  }

  lemma {:induction false} DedupUnseen(a: seq<BlockId>, b: seq<BlockId>, seen: set<BlockId>)
    requires forall x :: x in seen ==> x in a
    ensures Dedup(a + Unseen(b, seen)) == Dedup(a + b)
  {
    if |b| == 0 {
      assert a + b == a && a + Unseen(b, seen) == a;
    } else {
      var b' := b[..|b| - 1];
      DedupUnseen(a, b', seen);
      DedupMembers(a + b', Last(b));
      assert (a + b)[..|a + b| - 1] == a + b';
      var u' := Unseen(b', seen);
      if Last(b) in seen {
        assert Unseen(b, seen) == u';
      } else {
        var u := a + Unseen(b, seen);
        assert u[..|u| - 1] == a + u';
      }
    }
  }

  lemma {:induction false} UnseenMembers(s: seq<BlockId>, seen: set<BlockId>)
    ensures forall x :: x in Unseen(s, seen) ==> x in s
  {
    if |s| > 0 {
      UnseenMembers(s[..|s| - 1], seen);
    }
  }

  lemma {:induction false} DedupDistinct(s: seq<BlockId>)
    requires Distinct(s)
    ensures Dedup(s) == s
  {
    if |s| > 0 {
      DedupDistinct(s[..|s| - 1]);
      assert s == s[..|s| - 1] + [Last(s)];
    }
  }

  /** A repeated block adds nothing. */
  lemma DedupRepeat(a: seq<BlockId>, x: BlockId, b: seq<BlockId>)
    requires x in a
    ensures Dedup(a + ([x] + b)) == Dedup(a + b)
  {
    var ax := a + [x];
    assert Dedup(ax) == Dedup(a) by {
      assert ax[..|ax| - 1] == a;
      DedupMembers(a, x);
    }
    assert a + ([x] + b) == ax + b;
    DedupExtends(ax, a, b);
  }

  /** The search between two iterations of its loop. */
  ghost predicate Searching(g: Graph, found: seq<BlockId>, pending: seq<BlockId>) {
    && InGraph(g, found) && InGraph(g, pending) && Distinct(found)
    && Dedup(found + pending) == Dedup([g.entry] + Flat(g, found))
    && (if found == [] then pending == [g.entry] else forall b :: b in pending ==> b in Flat(g, found))
    && Sourced(g, found)
  }

  lemma SearchSkips(g: Graph, found: seq<BlockId>, pending: seq<BlockId>)
    requires Searching(g, found, pending) && |pending| > 0 && pending[0] in found
    ensures Searching(g, found, pending[1..])
  {
    assert pending == [pending[0]] + pending[1..];
    DedupRepeat(found, pending[0], pending[1..]);
  }

  lemma SuccessorsInGraph(g: Graph, b: BlockId)
    requires WellFormed(g) && b in g.blocks
    ensures InGraph(g, Targets(EdgesOf(g.blocks[b].ending)))
  {
    var es := EdgesOf(g.blocks[b].ending);
    forall x | x in Targets(es) ensures x in g.blocks {
      var i :| 0 <= i < |es| && Targets(es)[i] == x;
      assert EdgeOk(g, es[i]);
    }
  }

  lemma FlatGrows(g: Graph, found: seq<BlockId>, b: BlockId)
    requires InGraph(g, found) && b in g.blocks
    ensures InGraph(g, found + [b])
    ensures [g.entry] + Flat(g, found + [b]) == ([g.entry] + Flat(g, found)) + Targets(EdgesOf(g.blocks[b].ending))
  {
    var found' := found + [b];
    assert found'[..|found'| - 1] == found;
  }

  lemma AgendaGrows(a: seq<BlockId>, flat: seq<BlockId>, next: seq<BlockId>, seen: set<BlockId>)
    requires Dedup(a) == Dedup(flat) && forall x :: x in seen ==> x in a
    ensures Dedup(a + Unseen(next, seen)) == Dedup(flat + next)
  {
    DedupUnseen(a, next, seen);
    DedupExtends(a, flat, next);
  }

  lemma {:induction false} FlatMeansEdge(g: Graph, a: seq<BlockId>, b: BlockId) returns (j: nat)
    requires InGraph(g, a) && b in Flat(g, a)
    ensures j < |a| && HasEdge(g, a[j], b)
  {
    var es := EdgesOf(g.blocks[Last(a)].ending);
    if b in Targets(es) {
      var i :| 0 <= i < |es| && Targets(es)[i] == b;
      assert es[i] in es;
      j := |a| - 1;
    } else {
      j := FlatMeansEdge(g, a[..|a| - 1], b);
    }
  }

  lemma {:induction false} EdgeInFlat(g: Graph, a: seq<BlockId>, j: nat, b: BlockId)
    requires InGraph(g, a) && j < |a| && HasEdge(g, a[j], b)
    ensures b in Flat(g, a)
  {
    if j == |a| - 1 {
      var es := EdgesOf(g.blocks[Last(a)].ending);
      var i :| 0 <= i < |es| && es[i].target == b;
      assert Targets(es)[i] == b;
    } else {
      EdgeInFlat(g, a[..|a| - 1], j, b);
    }
  }

  lemma SourcedGrows(g: Graph, found: seq<BlockId>, b: BlockId)
    requires InGraph(g, found) && Sourced(g, found)
    requires found != [] ==> b in Flat(g, found)
    ensures Sourced(g, found + [b])
  {
    var found' := found + [b];
    forall k | 0 < k < |found'| ensures SourcedAt(g, found', k) {
      if k == |found| {
        var j := FlatMeansEdge(g, found, b);
        assert HasEdge(g, found'[j], found'[k]);
      } else {
        assert SourcedAt(g, found, k);
        var j :| 0 <= j < k && HasEdge(g, found[j], found[k]);
        assert HasEdge(g, found'[j], found'[k]);
      }
    }
  }

  lemma AgendaFinds(g: Graph, found: seq<BlockId>, pending: seq<BlockId>, next: seq<BlockId>, seen: set<BlockId>)
    requires WellFormed(g) && Searching(g, found, pending) && |pending| > 0
    requires next == Targets(EdgesOf(g.blocks[pending[0]].ending))
    requires forall x :: x in seen ==> x in found + [pending[0]]
    ensures Dedup((found + [pending[0]]) + (pending[1..] + Unseen(next, seen))) ==
              Dedup([g.entry] + Flat(g, found + [pending[0]]))
  {
    Regroup(found, pending, Unseen(next, seen));
    FlatGrows(g, found, pending[0]);
    AgendaGrows(found + pending, [g.entry] + Flat(g, found), next, seen);
  }

  lemma Regroup(found: seq<BlockId>, pending: seq<BlockId>, u: seq<BlockId>)
    requires |pending| > 0
    ensures (found + [pending[0]]) + (pending[1..] + u) == (found + pending) + u
    ensures forall x :: x in found + [pending[0]] ==> x in found + pending
  {
    assert pending == [pending[0]] + pending[1..];
  }

  lemma SearchFinds(g: Graph, found: seq<BlockId>, pending: seq<BlockId>, next: seq<BlockId>, seen: set<BlockId>)
    requires WellFormed(g) && Searching(g, found, pending) && |pending| > 0 && pending[0] !in found
    requires next == Targets(EdgesOf(g.blocks[pending[0]].ending))
    requires forall x :: x in seen ==> x in found + [pending[0]]
    ensures Searching(g, found + [pending[0]], pending[1..] + Unseen(next, seen))
  {
    var b, rest := pending[0], pending[1..];
    AgendaFinds(g, found, pending, next, seen);
    FlatGrows(g, found, b);
    SourcedGrows(g, found, b);
    SuccessorsInGraph(g, b);
    UnseenMembers(next, seen);
    var flat := [g.entry] + Flat(g, found);
    forall x | x in rest + Unseen(next, seen) ensures x in Flat(g, found + [b]) && x in g.blocks {
      assert ([g.entry] + Flat(g, found + [b]))[1..] == Flat(g, found + [b]);
      assert (flat + next)[1..] == Flat(g, found) + next;
    }
  }

  /** The queue loop of the canonical-order check. */
  method Discover(g: Graph) returns (found: seq<BlockId>)
    requires WellFormed(g)
    ensures IsCanonical(g, found)
  {
    found := [];
    var seen: set<BlockId>, pending := {}, [g.entry];
    assert found + pending == [g.entry] && [g.entry] + Flat(g, found) == [g.entry];
    while |pending| > 0
      invariant Searching(g, found, pending)
      invariant forall b :: b in seen <==> b in found
      decreases g.blocks.Keys - seen, |pending|
    {
      var b := pending[0];
      if b in seen {
        SearchSkips(g, found, pending);
        pending := pending[1..];
      } else {
        var next := Targets(EdgesOf(g.blocks[b].ending));
        SearchFinds(g, found, pending, next, seen + {b});
        pending, seen, found := pending[1..], seen + {b}, found + [b];
        pending := Enqueue(pending, next, seen);
      }
    }
    assert found + [] == found;
    DedupDistinct(found);
  }

  /** Push the successors not yet seen. */
  method Enqueue(pending: seq<BlockId>, next: seq<BlockId>, seen: set<BlockId>) returns (r: seq<BlockId>)
    ensures r == pending + Unseen(next, seen)
  {
    r := pending;
    for i := 0 to |next|
      invariant r == pending + Unseen(next[..i], seen)
    {
      assert next[..i + 1][..i] == next[..i];
      if next[i] !in seen { r := r + [next[i]]; }
    }
    assert next[..|next|] == next;
  }

  /** There is only one canonical order. */
  lemma {:induction false} CanonicalPrefix(g: Graph, a: seq<BlockId>, b: seq<BlockId>, k: nat)
    requires IsCanonical(g, a) && IsCanonical(g, b) && k <= |a|
    ensures k <= |b| && a[..k] == b[..k]
  {
    if k > 0 {
      CanonicalPrefix(g, a, b, k - 1);
      NextAgrees(g, a, b, k - 1);
      assert a[..k] == a[..k - 1] + [a[k - 1]] && b[..k] == b[..k - 1] + [b[k - 1]];
    }
  }

  /** The blocks before position `k` determine the block at position `k`. */
  lemma NextIsDetermined(g: Graph, a: seq<BlockId>, k: nat) returns (d: seq<BlockId>)
    requires IsCanonical(g, a) && k < |a|
    ensures InGraph(g, a[..k])
    ensures d == Dedup([g.entry] + Flat(g, a[..k])) && k < |d| && a[k] == d[k]
  {
    var pre := [g.entry] + Flat(g, a[..k]);
    FlatPrefix(g, a, k);
    if k == 0 {
      HeadIsFirst(g.entry, Flat(g, a));
      assert pre[0] == a[k];
    } else {
      assert SourcedAt(g, a, k);
      var j :| 0 <= j < k && HasEdge(g, a[j], a[k]);
      EdgeInFlat(g, a[..k], j, a[k]);
    }
    DedupMembers(pre, a[k]);
    d := Dedup(pre);
    var i :| 0 <= i < |d| && d[i] == a[k];
    DedupIsDistinct([g.entry] + Flat(g, a));
    assert a[i] == a[k];
  }

  lemma NextAgrees(g: Graph, a: seq<BlockId>, b: seq<BlockId>, k: nat)
    requires IsCanonical(g, a) && IsCanonical(g, b) && k < |a| && k <= |b| && a[..k] == b[..k]
    ensures k < |b| && a[k] == b[k]
  {
    var d := NextIsDetermined(g, a, k);
    FlatPrefix(g, b, k);
  }

  lemma HeadIsFirst(x: BlockId, s: seq<BlockId>)
    ensures |Dedup([x] + s)| > 0 && Dedup([x] + s)[0] == x
  {
    DedupExtends([x], [x], s);
    DedupDistinct([x]);
  }

  lemma {:induction false} FlatPrefix(g: Graph, a: seq<BlockId>, k: nat)
    requires IsCanonical(g, a) && k <= |a|
    ensures InGraph(g, a[..k])
    ensures Dedup([g.entry] + Flat(g, a[..k])) <= a
  {
    var rest := FlatSplits(g, a, k);
    DedupExtends([g.entry] + Flat(g, a[..k]), [g.entry] + Flat(g, a[..k]), rest);
    assert [g.entry] + Flat(g, a[..k]) + rest == [g.entry] + Flat(g, a);
  }

  lemma {:induction false} FlatSplits(g: Graph, a: seq<BlockId>, k: nat) returns (rest: seq<BlockId>)
    requires k <= |a| && InGraph(g, a)
    ensures Flat(g, a) == Flat(g, a[..k]) + rest
  {
    if k == |a| {
      assert a[..k] == a;
      rest := [];
    } else {
      rest := FlatSplits(g, a[..|a| - 1], k);
      assert a[..|a| - 1][..k] == a[..k];
      rest := rest + Targets(EdgesOf(g.blocks[Last(a)].ending));
    }
  }

  lemma CanonicalIsUnique(g: Graph, a: seq<BlockId>, b: seq<BlockId>)
    requires IsCanonical(g, a) && IsCanonical(g, b)
    ensures a == b
  {
    CanonicalPrefix(g, a, b, |a|);
    CanonicalPrefix(g, b, a, |b|);
    assert a[..|a|] == a && b[..|a|] == b;
  }

  /** The check: the listed blocks, no fewer than there are, must be the discovered ones in order. */
  method VerifyCanonicalCfg(g: Graph, order: seq<BlockId>) returns (ok: bool)
    requires WellFormed(g)
    ensures ok <==> IsCanonical(g, order)
  {
    var found := Discover(g);
    ok := false;
    if |found| == |order| {
      var i := 0;
      while i < |found| && order[i] == found[i]
        invariant 0 <= i <= |found| && order[..i] == found[..i]
      {
        i := i + 1;
      }
      if i == |found| {
        assert order == order[..i] && found == found[..i];
        ok := true;
      }
    }
    if !ok && IsCanonical(g, order) {
      CanonicalIsUnique(g, found, order);
    }
  }

  /** Every listed block is reached from the entry through strictly earlier blocks. */
  lemma {:induction false} EarlyPath(g: Graph, order: seq<BlockId>, k: nat) returns (p: seq<BlockId>)
    requires WellFormed(g) && IsCanonical(g, order) && k < |order|
    ensures IsPath(g, p) && Last(p) == order[k]
    ensures forall i :: 0 <= i < |p| - 1 ==> p[i] in order[..k]
  {
    if k == 0 {
      HeadIsFirst(g.entry, Flat(g, order));
      p := [g.entry];
    } else {
      assert SourcedAt(g, order, k);
      var j :| 0 <= j < k && HasEdge(g, order[j], order[k]);
      var q := EarlyPath(g, order, j);
      PathExtends(g, q, order[k]);
      p := q + [order[k]];
      forall i | 0 <= i < |p| - 1 ensures p[i] in order[..k] {
        if i < |q| - 1 {
          var l :| 0 <= l < j && order[l] == q[i];
          assert order[..k][l] == q[i];
        } else {
          assert order[..k][j] == p[i];
        }
      }
    }
  }

  /** In canonical order every dominator of a block is listed no later than the block. */
  lemma DominatorsComeFirst(g: Graph, order: seq<BlockId>, k: nat, d: BlockId)
    requires WellFormed(g) && IsCanonical(g, order) && k < |order| && Dominates(g, d, order[k])
    ensures d in order[..k + 1]
  {
    var p := EarlyPath(g, order, k);
    var i :| 0 <= i < |p| && p[i] == d;
    assert order[..k + 1] == order[..k] + [order[k]];
  }
}
