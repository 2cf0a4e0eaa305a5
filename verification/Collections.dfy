/** Sequences without repetition, their members, and sizes of sets. */
module Collections {

  ghost predicate Distinct<T>(s: seq<T>) {
    forall i, j :: 0 <= i < j < |s| ==> s[i] != s[j]
  }

  function Members<T(==)>(s: seq<T>): set<T> { set x | x in s }

  lemma TakeOneMore<T>(s: seq<T>, i: nat)
    requires i < |s|
    ensures s[..i + 1] == s[..i] + [s[i]]
  {
  }

  lemma MembersGrow<T>(s: seq<T>, i: nat)
    requires i < |s|
    ensures Members(s[..i + 1]) == Members(s[..i]) + {s[i]} && (Distinct(s) ==> s[i] !in Members(s[..i]))
  {
    TakeOneMore(s, i);
  }

  lemma SubsetSize<T>(a: set<T>, b: set<T>)
    requires a <= b
    ensures |a| <= |b| && (a != b ==> |a| < |b|)
  {
    assert b == a + (b - a);
    if a != b {
      var x :| x in b - a;
    }
  }

  /** A sequence without repetition is as long as the set it enumerates, and shorter than any larger one. */
  lemma {:induction false} DistinctSize<T>(s: seq<T>, u: set<T>)
    requires Distinct(s) && forall x :: x in s ==> x in u
    ensures |s| <= |u| && (|s| == |u| <==> forall x :: x in u ==> x in s)
  {
    if |s| > 0 {
      assert s == [s[0]] + s[1..];
      DistinctSize(s[1..], u - {s[0]});
    } else if u != {} {
      var x :| x in u;
    }
  }
}
