/** What it takes for a change of one node's store to keep the invariant. */
module RaftRewrite {
  import opened Common
  import opened FsmTypes
  import opened Raft
  import opened Cluster
  import opened RaftVotes
  import opened RaftInv
  import opened RaftQuiet

  /** What the node acknowledged and reported survives. */
  ghost predicate KeepsFirm(ns: Nodes, h: History, n: Node, n': Node) {
    forall t: nat, k: nat :: Own(h, t, k) && t <= n.term && Firm(ns, h, n, t, k) ==> Firm(ns, h, n', t, k)
  }

  ghost predicate KeepsCarried(ns: Nodes, h: History, n: Node, n': Node) {
    forall t: nat, k: nat :: Own(h, t, k) && Carried(ns, h, n, t, k) ==> Carried(ns, h, n', t, k)
  }

  /** A candidate's new tail is part of its old one. */
  predicate SameTail(n: Node, n': Node) {
    forall k: nat :: n'.commit <= k < |n'.log| ==> n.commit <= k < |n.log| && n'.log[k] == n.log[k]
  }

  ghost predicate Rewrites(ns: Nodes, h: History, n: Node, n': Node) {
    && n'.term == n.term && n'.peers == n.peers && n.commit <= n'.commit
    && Ordered(n') && TailFits(h, n') && BelowOk(h, n') && CommitOk(ns, h, n'.log, n'.commit, n'.term)
    && (n'.role.Leader? ==> n.role.Leader? && n'.role == n.role && n'.log == n.log)
    && (n'.role.Candidate? ==> n.role.Candidate? && LogKept(n, n') && SameTail(n, n') && KeepsCarried(ns, h, n, n'))
    && KeepsFirm(ns, h, n, n')
  }

  lemma RewriteGrows(ns: Nodes, h: History, i: NodeId, n': Node)
    requires i in ns && Rewrites(ns, h, ns[i], n') && VoteGrow(ns, h, ns[i := n'], h)
    ensures Grow(ns, h, ns[i := n'], h)
  {
    assert forall t :: LogOf(h, t) <= LogOf(h, t);
  }

  lemma RewriteElection(ns: Nodes, h: History, i: NodeId, n': Node)
    requires LeaderLogsOk(ns, h) && LogsOk(ns, h) && AheadLogsLose(ns, h) && i in ns && Rewrites(ns, h, ns[i], n')
    ensures LeaderLogsOk(ns[i := n'], h) && LogsOk(ns[i := n'], h) && AheadLogsLose(ns[i := n'], h)
  {
  }

  lemma RewriteAcked(ns: Nodes, h: History, i: NodeId, n': Node)
    requires AcksOk(ns, h) && AckedSafe(ns, h) && i in ns && Rewrites(ns, h, ns[i], n') && Grow(ns, h, ns[i := n'], h)
    ensures AckedSafe(ns[i := n'], h)
  {
    var ns' := ns[i := n'];
    forall v, t, k | v in ns' && Own(h, t, k) && Acked(h, v, t, k) ensures Firm(ns', h, ns'[v], t, k) {
      assert AckOk(ns, h, v, t, k) && Firm(ns, h, ns[v], t, k);
      if v == i { assert Firm(ns, h, n', t, k); }
      FirmStable(ns, h, ns', h, ns'[v], ns'[v], t, k);
    }
  }

  lemma RewriteVoters(ns: Nodes, h: History, i: NodeId, n': Node)
    requires VotersSafe(ns, h) && i in ns && Rewrites(ns, h, ns[i], n') && Grow(ns, h, ns[i := n'], h)
    ensures VotersSafe(ns[i := n'], h)
  {
    var ns' := ns[i := n'];
    forall j, v, t: nat, k: nat |
      j in ns' && ns'[j].role.Candidate? && VotedFor(h, v, ns'[j].term, j)
      && t < ns'[j].term && Own(h, t, k) && Acked(h, v, t, k)
      ensures Carried(ns', h, ns'[j], t, k)
    {
      assert Carried(ns, h, ns[j], t, k);
      if j == i { assert Carried(ns, h, n', t, k); }
      CarriedStable(ns, h, ns', h, ns'[j], ns'[j], t, k);
    }
  }

  lemma RewriteSafety(ns: Nodes, h: History, i: NodeId, n': Node)
    requires SafetyInv(ns, h) && i in ns && Rewrites(ns, h, ns[i], n') && Grow(ns, h, ns[i := n'], h)
    ensures SafetyInv(ns[i := n'], h)
  {
    var ns' := ns[i := n'];
    forall v, t, k | Acked(h, v, t, k) ensures AckOk(ns', h, v, t, k) {
      assert AckOk(ns, h, v, t, k);
    }
    forall t, k, u | t < u && u in h.leaderLog && Own(h, t, k) ensures Safe(ns', h, LogOf(h, u), t, k) {
      SafeStable(ns, h, ns', h, LogOf(h, u), t, k);
    }
    RewriteAcked(ns, h, i, n');
    RewriteVoters(ns, h, i, n');
  }

  lemma RewriteCommits(ns: Nodes, h: History, i: NodeId, n': Node)
    requires LeaderLogsOk(ns, h) && CommitInv(ns, h) && i in ns && Rewrites(ns, h, ns[i], n')
    requires Grow(ns, h, ns[i := n'], h)
    ensures CommitInv(ns[i := n'], h)
  {
    var ns' := ns[i := n'];
    assert ProgressOk(ns, h, ns[i]);
    if n'.role.Leader? { ProgressFrame(ns, h, ns', h, ns[i], n'); }
    CommitOkStable(ns, h, ns', h, n'.log, n'.commit, n'.term);
    CommitInvFrame(ns, h, ns', h, i);
  }

  lemma RewriteKeeps(ns: Nodes, h: History, i: NodeId, n': Node)
    requires CoreInv(ns, h) && i in ns && Rewrites(ns, h, ns[i], n')
    requires VoteInv(ns[i := n'], h) && VoteGrow(ns, h, ns[i := n'], h)
    ensures CoreInv(ns[i := n'], h) && Grow(ns, h, ns[i := n'], h)
  {
    RewriteGrows(ns, h, i, n');
    RewriteElection(ns, h, i, n');
    RewriteSafety(ns, h, i, n');
    RewriteCommits(ns, h, i, n');
  }
}
