/** Vocabulary shared by every part of the model. */
module Common {

  datatype Option<+T> = None | Some(value: T)

  /** The largest value of the 64-bit counters (log index, term, sequence id). */
  const U64_MAX: nat := 0xFFFF_FFFF_FFFF_FFFF

  /** Smallest number of nodes that is a majority of a cluster of `n` nodes. */
  function Quorum(n: nat): nat {
    n / 2 + 1
  }

  lemma UnionSize<T>(a: set<T>, b: set<T>)
    requires a !! b
    ensures |a + b| == |a| + |b|
  {
  }

  lemma SubsetSize<T>(a: set<T>, b: set<T>)
    requires a <= b
    ensures |a| <= |b|
  {
    UnionSize(a, b - a);
    assert a + (b - a) == b;
  }

  /** Two majorities of one cluster share a member. */
  lemma QuorumsIntersect<T>(cluster: set<T>, a: set<T>, b: set<T>) returns (x: T)
    requires a <= cluster && b <= cluster
    requires |a| >= Quorum(|cluster|) && |b| >= Quorum(|cluster|)
    ensures x in a && x in b
  {
    if a !! b {
      UnionSize(a, b);
      SubsetSize(a + b, cluster);
      assert false;
    }
    x :| x in a && x in b;
  }
}
