/**
 Restores and compactions: they move the horizon and leave stored entries where they were, so a
 restored log may go on behind its horizon with entries of another history.
 */
module RaftRestore {
  import opened Common
  import opened FsmTypes
  import opened Raft
  import opened Cluster
  import opened RaftVotes
  import opened RaftInv
  import opened RaftQuiet
  import opened RaftRewrite

  /** A node in order, by itself. */
  ghost predicate Sound(ns: Nodes, h: History, n: Node) {
    Ordered(n) && TailFits(h, n) && BelowOk(h, n) && CommitOk(ns, h, n.log, n.commit, n.term)
  }

  // --- The stored entries ---

  lemma StoredIsOwn(ns: Nodes, h: History, n: Node, j: nat)
    requires LeaderLogsOk(ns, h) && Sound(ns, h, n) && j < |n.log| && StoredAt(n, j) != 0
    ensures Own(h, StoredAt(n, j), j + 1)
  {
    if j >= n.horizon { EntryIsOwn(ns, h, n, n.term, j); }
  }

  lemma StoredBelow(ns: Nodes, h: History, n: Node, k: nat)
    requires LeaderLogsOk(ns, h) && Sound(ns, h, n) && k >= n.horizon
    ensures var below := StoredUpTo(n, k);
            && |below| <= k && (below != [] ==> below[|below| - 1] != 0)
            && forall j: nat :: j < |below| && below[j] != 0 ==> Own(h, below[j], j + 1)
  {
    var below := StoredUpTo(n, k);
    if k > n.horizon && |n.log| > n.horizon {
      EntryIsOwn(ns, h, n, n.term, |below| - 1);
      forall j: nat | j < |below| && below[j] != 0 ensures Own(h, below[j], j + 1) {
        StoredIsOwn(ns, h, n, j);
      }
    }
  }

  /** What the node acknowledged stays reported by the last entry stored at or below a new horizon. */
  lemma StoredReports(ns: Nodes, h: History, n: Node, k: nat, t: nat, e: nat)
    requires LeaderLogsOk(ns, h) && LeadersSafe(ns, h) && Sound(ns, h, n) && k >= n.horizon
    requires Own(h, t, e) && !Dead(ns, h, t, e) && Firm(ns, h, n, t, e) && e <= k
    ensures var below := StoredUpTo(n, k); below != [] ==> below[|below| - 1] >= t
  {
    if k > n.horizon && |n.log| > n.horizon {
      BeyondFirm(ns, h, n, n.term, t, e, Min(k, |n.log|));
    }
  }

  // --- A finished restore ---

  /** The prefix was committed, in a term the node has reached. */
  ghost predicate Restorable(ns: Nodes, h: History, n: Node, prefix: seq<Entry>) {
    CommitOk(ns, h, prefix, |prefix|, n.term) && |prefix| > n.applied
  }

  /** What the node had committed agrees with the prefix. */
  lemma PrefixAgrees(ns: Nodes, h: History, n: Node, prefix: seq<Entry>)
    requires LeadersSafe(ns, h) && Sound(ns, h, n) && Restorable(ns, h, n, prefix)
    ensures var c := Min(n.commit, |prefix|); n.log[..c] == prefix[..c]
    ensures n.commit >= |prefix| ==> AfterRestore(n, prefix).log == n.log
  {
    var c := Min(n.commit, |prefix|);
    CommittedAgree(ns, h, n.log, n.commit, n.term, prefix, |prefix|, n.term, c);
    assert prefix[..|prefix|] == prefix;
  }

  /** A leader has the prefix in its log already. */
  lemma LeaderHasPrefix(ns: Nodes, h: History, n: Node, prefix: seq<Entry>)
    requires LeadersSafe(ns, h) && Restorable(ns, h, n, prefix) && n.term in h.leaderLog && LogOf(h, n.term) == n.log
    ensures AfterRestore(n, prefix).log == n.log
  {
    var t: nat, k: nat :| t <= n.term && Backed(ns, h, prefix, |prefix|, t, k);
    BackedIsCarried(ns, h, prefix, |prefix|, t, k, n.term);
    assert prefix == prefix[..|prefix|] == n.log[..|prefix|];
  }

  lemma RestoredTail(ns: Nodes, h: History, n: Node, prefix: seq<Entry>)
    requires LeadersSafe(ns, h) && Sound(ns, h, n) && Restorable(ns, h, n, prefix)
    ensures var n' := AfterRestore(n, prefix); Ordered(n') && TailFits(h, n') && SameTail(n, n') && LogKept(n, n')
  {
    var n' := AfterRestore(n, prefix);
    PrefixAgrees(ns, h, n, prefix);
    if |n'.log| > n'.commit {
      assert n'.log[n'.commit..] == n.log[n'.commit..];
      ShorterTail(n.log, LogOf(h, LastTerm(n.log)), n.commit, n'.commit);
    }
  }

  lemma ShorterTail(log: seq<Entry>, tail: seq<Entry>, c: nat, c': nat)
    requires c <= c' <= |log| <= |tail| && log[c..] == tail[c..|log|]
    ensures log[c'..] == tail[c'..|log|]
  {
    assert log[c'..] == log[c..][c' - c..];
    assert tail[c'..|log|] == tail[c..|log|][c' - c..];
  }

  lemma RestoredCommit(ns: Nodes, h: History, n: Node, prefix: seq<Entry>)
    requires LeadersSafe(ns, h) && Sound(ns, h, n) && Restorable(ns, h, n, prefix)
    ensures var n' := AfterRestore(n, prefix); CommitOk(ns, h, n'.log, n'.commit, n'.term)
  {
    var n' := AfterRestore(n, prefix);
    PrefixAgrees(ns, h, n, prefix);
    if n.commit < |prefix| {
      assert n'.log[..|prefix|] == prefix == prefix[..|prefix|];
      CommitOkExtends(ns, h, prefix, n'.log, |prefix|, n.term);
    }
  }

  /** A restore keeps every leader's entry that the log held and that is not dead. */
  lemma RestoreHolds(ns: Nodes, h: History, n: Node, prefix: seq<Entry>, t: nat, e: nat)
    requires LeadersSafe(ns, h) && Restorable(ns, h, n, prefix)
    requires Own(h, t, e) && !Dead(ns, h, t, e) && Holds(h, n.log, t, e)
    ensures Holds(h, AfterRestore(n, prefix).log, t, e)
  {
    var k, log', source := |prefix|, AfterRestore(n, prefix).log, LogOf(h, t);
    SettledAgrees(ns, h, prefix, k, n.term, t, e);
    forall j | 0 <= j < e ensures log'[j] == source[j] {
      if j < k {
        assert log'[j] == prefix[j] == prefix[..Min(k, e)][j] == source[..Min(k, e)][j];
      } else {
        assert log'[j] == n.log[j] == n.log[..e][j] == source[..e][j];
      }
    }
  }

  lemma RestoreKeepsFirm(ns: Nodes, h: History, n: Node, prefix: seq<Entry>)
    requires LeaderLogsOk(ns, h) && LeadersSafe(ns, h) && Sound(ns, h, n) && Restorable(ns, h, n, prefix)
    ensures KeepsFirm(ns, h, n, AfterRestore(n, prefix))
  {
    var n' := AfterRestore(n, prefix);
    forall t: nat, e: nat | Own(h, t, e) && t <= n.term && Firm(ns, h, n, t, e) ensures Firm(ns, h, n', t, e) {
      RestoreFirm(ns, h, n, prefix, t, e);
    }
  }

  lemma RestoreKeepsCarried(ns: Nodes, h: History, n: Node, prefix: seq<Entry>)
    requires LeaderLogsOk(ns, h) && LeadersSafe(ns, h) && Sound(ns, h, n) && Restorable(ns, h, n, prefix)
    ensures KeepsCarried(ns, h, n, AfterRestore(n, prefix))
  {
    var n' := AfterRestore(n, prefix);
    RestoredTail(ns, h, n, prefix);
    forall t: nat, e: nat | Own(h, t, e) && Carried(ns, h, n, t, e) ensures Carried(ns, h, n', t, e) {
      if !Dead(ns, h, t, e) { RestoreHolds(ns, h, n, prefix, t, e); }
    }
  }

  lemma RestoredBelow(ns: Nodes, h: History, n: Node, prefix: seq<Entry>)
    requires LeaderLogsOk(ns, h) && Sound(ns, h, n) && |prefix| >= n.horizon
    ensures BelowOk(h, AfterRestore(n, prefix))
  {
    StoredBelow(ns, h, n, |prefix|);
  }

  lemma RestoreRewrites(ns: Nodes, h: History, n: Node, prefix: seq<Entry>)
    requires LeaderLogsOk(ns, h) && LeadersSafe(ns, h) && Sound(ns, h, n) && Restorable(ns, h, n, prefix)
    requires n.role.Leader? ==> n.term in h.leaderLog && LogOf(h, n.term) == n.log
    ensures Rewrites(ns, h, n, AfterRestore(n, prefix))
  {
    var n' := AfterRestore(n, prefix);
    RestoredTail(ns, h, n, prefix);
    RestoredCommit(ns, h, n, prefix);
    RestoredBelow(ns, h, n, prefix);
    if n.role.Leader? { LeaderHasPrefix(ns, h, n, prefix); }
    RestoreKeepsFirm(ns, h, n, prefix);
    RestoreKeepsCarried(ns, h, n, prefix);
  }

  lemma RestoreFirm(ns: Nodes, h: History, n: Node, prefix: seq<Entry>, t: nat, e: nat)
    requires LeaderLogsOk(ns, h) && LeadersSafe(ns, h) && Sound(ns, h, n) && Restorable(ns, h, n, prefix)
    requires LogKept(n, AfterRestore(n, prefix)) && Own(h, t, e) && Firm(ns, h, n, t, e)
    ensures Firm(ns, h, AfterRestore(n, prefix), t, e)
  {
    if !Dead(ns, h, t, e) {
      RestoreHolds(ns, h, n, prefix, t, e);
      if e <= |prefix| { StoredReports(ns, h, n, |prefix|, t, e); }
    }
  }

  // --- Compaction ---

  lemma MarkRewrites(ns: Nodes, h: History, n: Node, k: nat)
    requires LeaderLogsOk(ns, h) && LeadersSafe(ns, h) && Sound(ns, h, n) && n.horizon <= k <= n.applied
    ensures Rewrites(ns, h, n, MarkHorizon(n, k))
  {
    var n' := MarkHorizon(n, k);
    StoredBelow(ns, h, n, k);
    forall t: nat, e: nat | Own(h, t, e) && t <= n.term && Firm(ns, h, n, t, e) ensures Firm(ns, h, n', t, e) {
      if !Dead(ns, h, t, e) && e <= k { StoredReports(ns, h, n, k, t, e); }
    }
  }

  /** Dropping entries at the front leaves the last one, or none. */
  lemma DropLeavesLast(h: History, n: Node, k: nat)
    requires BelowOk(h, n)
    ensures var below := DropFront(n, k).below;
            below != [] ==> |below| == |n.below| && below[|below| - 1] == n.below[|n.below| - 1]
    ensures BelowOk(h, DropFront(n, k))
  {
  }

  lemma DropRewrites(ns: Nodes, h: History, n: Node, k: nat)
    requires Sound(ns, h, n)
    ensures Rewrites(ns, h, n, DropFront(n, k))
  {
    DropLeavesLast(h, n, k);
  }
}
