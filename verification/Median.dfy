/** The commit rule's quorum index: the middle of the sorted match indices. */
module Median {
  import opened Common
  import opened FsmTypes
  import opened Raft

  predicate Ascending(s: seq<nat>) {
    forall i, j :: 0 <= i < j < |s| ==> s[i] <= s[j]
  }

  function Insert(s: seq<nat>, x: nat): seq<nat> {
    if s == [] || x <= s[0] then [x] + s else [s[0]] + Insert(s[1..], x)
  }

  function Sort(s: seq<nat>): seq<nat> {
    if s == [] then [] else Insert(Sort(s[1..]), s[0])
  }

  /** How many elements reach `x`. */
  function Reaching(s: seq<nat>, x: nat): nat {
    if s == [] then 0 else (if s[0] >= x then 1 else 0) + Reaching(s[1..], x)
  }

  lemma {:induction false} InsertAdds(s: seq<nat>, x: nat)
    ensures multiset(Insert(s, x)) == multiset(s) + multiset{x}
  {
    if s != [] && x > s[0] {
      InsertAdds(s[1..], x);
      assert s == [s[0]] + s[1..];
    }
  }

  lemma InsertBounded(s: seq<nat>, x: nat, low: nat)
    requires low <= x && forall j :: 0 <= j < |s| ==> low <= s[j]
    ensures forall j :: 0 <= j < |Insert(s, x)| ==> low <= Insert(s, x)[j]
  {
    if s != [] && x > s[0] {
      InsertBounded(s[1..], x, low);
    }
  }

  lemma {:induction false} InsertKeepsOrder(s: seq<nat>, x: nat)
    requires Ascending(s)
    ensures Ascending(Insert(s, x))
  {
    if s != [] && x > s[0] {
      InsertKeepsOrder(s[1..], x);
      InsertBounded(s[1..], x, s[0]);
    }
  }

  lemma {:induction false} SortSorts(s: seq<nat>)
    ensures Ascending(Sort(s)) && multiset(Sort(s)) == multiset(s)
  {
    if s != [] {
      SortSorts(s[1..]);
      InsertKeepsOrder(Sort(s[1..]), s[0]);
      InsertAdds(Sort(s[1..]), s[0]);
      assert s == [s[0]] + s[1..];
    }
  }

  lemma {:induction false} InsertReaching(s: seq<nat>, x: nat, k: nat)
    ensures |Insert(s, x)| == |s| + 1
    ensures Reaching(Insert(s, x), k) == Reaching(s, k) + (if x >= k then 1 else 0)
  {
    if s == [] || x <= s[0] {
      assert ([x] + s)[1..] == s;
    } else {
      InsertReaching(s[1..], x, k);
      assert ([s[0]] + Insert(s[1..], x))[1..] == Insert(s[1..], x);
    }
  }

  lemma {:induction false} SortReaching(s: seq<nat>, k: nat)
    ensures |Sort(s)| == |s| && Reaching(Sort(s), k) == Reaching(s, k)
  {
    if s != [] {
      SortReaching(s[1..], k);
      InsertReaching(Sort(s[1..]), s[0], k);
    }
  }

  lemma {:induction false} ReachingFrom(s: seq<nat>, i: nat, x: nat)
    requires Ascending(s) && i < |s|
    ensures s[i] >= x ==> Reaching(s, x) >= |s| - i
    ensures s[i] < x ==> Reaching(s, x) <= |s| - i - 1
  {
    if i == 0 {
      if s[0] >= x { AllReach(s, x); }
      AtMostRest(s[1..], x);
    } else {
      ReachingFrom(s[1..], i - 1, x);
    }
  }

  lemma {:induction false} AllReach(s: seq<nat>, x: nat)
    requires Ascending(s) && |s| > 0 && s[0] >= x
    ensures Reaching(s, x) == |s|
  {
    if |s| > 1 { AllReach(s[1..], x); }
  }

  lemma {:induction false} AtMostRest(s: seq<nat>, x: nat)
    ensures Reaching(s, x) <= |s|
  {
    if s != [] { AtMostRest(s[1..], x); }
  }

  /** The element at `(n - 1) / 2` of `n` sorted indices. */
  function MedianOf(s: seq<nat>): nat
    requires |s| > 0
  {
    SortReaching(s, 0);
    Sort(s)[(|s| - 1) / 2]
  }

  /** It is reached by a majority, and nothing larger is. */
  lemma MedianIsQuorumIndex(s: seq<nat>, k: nat)
    requires |s| > 0
    ensures Reaching(s, k) >= Quorum(|s|) <==> k <= MedianOf(s)
  {
    var t, i := Sort(s), (|s| - 1) / 2;
    SortSorts(s);
    SortReaching(s, k);
    ReachingFrom(t, i, k);
  }

  // --- The vector a leader sorts ---

  function Reachers(m: map<NodeId, nat>, ps: set<NodeId>, k: nat): set<NodeId>
    requires ps <= m.Keys
  {
    set p | p in ps && m[p] >= k
  }

  lemma ReachersGrow(m: map<NodeId, nat>, ps: set<NodeId>, p: NodeId, k: nat)
    requires ps <= m.Keys && p in m && p !in ps
    ensures |Reachers(m, ps + {p}, k)| == |Reachers(m, ps, k)| + (if m[p] >= k then 1 else 0)
  {
    assert Reachers(m, ps + {p}, k) == Reachers(m, ps, k) + (if m[p] >= k then {p} else {});
  }

  /** The vector lists the values of `m` at `ps`, in some order. */
  ghost predicate Lists(vs: seq<nat>, m: map<NodeId, nat>, ps: set<NodeId>)
    requires ps <= m.Keys
  {
    |vs| == |ps| && forall k :: Reaching(vs, k) == |Reachers(m, ps, k)|
  }

  lemma {:induction false} ReachingPush(s: seq<nat>, x: nat, k: nat)
    ensures Reaching(s + [x], k) == Reaching(s, k) + (if x >= k then 1 else 0)
  {
    if s == [] {
      assert [] + [x] == [x];
    } else {
      assert (s + [x])[1..] == s[1..] + [x];
      ReachingPush(s[1..], x, k);
    }
  }

  lemma ListsPush(vs: seq<nat>, m: map<NodeId, nat>, ps: set<NodeId>, p: NodeId)
    requires ps <= m.Keys && Lists(vs, m, ps) && p in m && p !in ps
    ensures Lists(vs + [m[p]], m, ps + {p})
  {
    forall k ensures Reaching(vs + [m[p]], k) == |Reachers(m, ps + {p}, k)| {
      ReachingPush(vs, m[p], k);
      ReachersGrow(m, ps, p, k);
    }
  }

  lemma {:induction false} ValuesCanBeListed(m: map<NodeId, nat>, ps: set<NodeId>) returns (vs: seq<nat>)
    requires ps <= m.Keys
    ensures Lists(vs, m, ps)
    decreases |ps|
  {
    if ps == {} {
      vs := [];
    } else {
      var p :| p in ps;
      var rest := ValuesCanBeListed(m, ps - {p});
      ListsPush(rest, m, ps - {p}, p);
      assert ps - {p} + {p} == ps;
      vs := rest + [m[p]];
    }
  }

  lemma VectorCountsHolders(n: Node, vs: seq<nat>, k: nat)
    requires n.role.Leader? && n.id !in n.role.matchIndex && Lists(vs, n.role.matchIndex, n.role.matchIndex.Keys)
    ensures Reaching(vs + [|n.log|], k) == |Holders(n, k)|
  {
    var m := n.role.matchIndex;
    ReachingPush(vs, |n.log|, k);
    assert Reachers(m, m.Keys, k) == set p | p in m && m[p] >= k;
    UnionSize(Reachers(m, m.Keys, k), if |n.log| >= k then {n.id} else {});
  }

  /** For every cluster size and match vector, the median of the vector is the quorum index. */
  lemma MedianOfHolders(n: Node, vs: seq<nat>)
    requires n.role.Leader? && n.id !in n.role.matchIndex && Lists(vs, n.role.matchIndex, n.role.matchIndex.Keys)
    ensures IsQuorumIndex(n, MedianOf(vs + [|n.log|]))
  {
    var s := vs + [|n.log|];
    assert |s| == |n.role.matchIndex| + 1;
    forall k: nat ensures |Holders(n, k)| >= Quorum(|s|) <==> k <= MedianOf(s) {
      VectorCountsHolders(n, vs, k);
      MedianIsQuorumIndex(s, k);
    }
  }

  /** The quorum index exists and is unique. */
  lemma QuorumIndexExists(n: Node) returns (k: nat)
    requires n.role.Leader? && n.id !in n.role.matchIndex
    ensures IsQuorumIndex(n, k) && forall j: nat :: IsQuorumIndex(n, j) ==> j == k
  {
    var vs := ValuesCanBeListed(n.role.matchIndex, n.role.matchIndex.Keys);
    MedianOfHolders(n, vs);
    k := MedianOf(vs + [|n.log|]);
    forall j: nat | IsQuorumIndex(n, j) ensures j == k {
      var atJ, atK := |Holders(n, j)|, |Holders(n, k)|;
    }
  }
}
