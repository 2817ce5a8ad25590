/** Cardinality facts about finite sets, in the form the quorum arguments need. */
module Sets {

  lemma {:induction false} SubsetCard<T>(a: set<T>, b: set<T>)
    requires a <= b
    ensures |a| <= |b|
  {
    assert b == a + (b - a);
  }

  lemma {:induction false} EqualCard<T>(a: set<T>, b: set<T>)
    requires a <= b && |a| == |b|
    ensures a == b
  {
    assert b == a + (b - a);
  }

  /** Two subsets of a universe share at least as many members as their sizes force. */
  lemma {:induction false} Overlap<T>(a: set<T>, b: set<T>, universe: set<T>)
    requires a <= universe && b <= universe
    ensures |a * b| >= |a| + |b| - |universe|
  {
    SubsetCard(a + b, universe);
    assert |a + b| == |a| + |b| - |a * b|;
  }

  /** A set larger than another has a member outside it. */
  lemma {:induction false} Outside<T>(a: set<T>, b: set<T>) returns (x: T)
    requires |a| > |b|
    ensures x in a && x !in b
  {
    if a <= b {
      SubsetCard(a, b);
      assert false;
    }
    x :| x in a && x !in b;
  }

  /** Removing the members of b from a removes at most |b| of them. */
  lemma {:induction false} Minus<T>(a: set<T>, b: set<T>)
    ensures |a - b| >= |a| - |b|
  {
    SubsetCard(a * b, b);
    assert a == (a - b) + (a * b);
  }

  /** A subset of any smaller size exists. */
  lemma {:induction false} Choose<T>(a: set<T>, k: nat) returns (b: set<T>)
    requires k <= |a|
    ensures b <= a && |b| == k
  {
    b := a;
    while |b| > k
      invariant b <= a && |b| >= k
      decreases |b|
    {
      var x :| x in b;
      b := b - {x};
    }
  }

  lemma Regroup<T>(a: set<T>, b: set<T>, x: T)
    requires x in b
    ensures a + {x} + (b - {x}) == a + b
  {
  }
}
