/**
 What every reachable cluster keeps of its logs, as long as its steps are careful. The argument is
 the one of section 5.4 of the Raft paper (extended version), restated with a history of elected
 leaders' logs: an entry that a leader placed in its log is carried by every later leader, or else
 it is dead: a quorum has moved to a later term without acknowledging it. A restored log need not be
 part of any leader's log: its committed part is, and so is its tail, but not of the same one.
 */
module RaftInv {
  import opened Common
  import opened FsmTypes
  import opened Raft
  import opened Cluster
  import opened RaftVotes

  // --- Vocabulary ---

  predicate Acked(h: History, v: NodeId, t: nat, k: nat) {
    (v, t, k) in h.acks
  }

  /** The log of the leader of a term, empty if the term has none. */
  function LogOf(h: History, t: nat): seq<Entry> {
    if t in h.leaderLog then h.leaderLog[t] else []
  }

  /** Index `k` of term `t`'s leader is an entry of term `t` itself. */
  predicate Own(h: History, t: nat, k: nat) {
    1 <= k <= |LogOf(h, t)| && LogOf(h, t)[k - 1].term == t
  }

  /** The log agrees with term `t`'s leader on the first `k` entries. */
  predicate Holds(h: History, log: seq<Entry>, t: nat, k: nat) {
    k <= |log| && k <= |LogOf(h, t)| && log[..k] == LogOf(h, t)[..k]
  }

  ghost predicate AllPassed(ns: Nodes, h: History, vs: set<NodeId>, t: nat, k: nat) {
    forall v :: v in vs ==> v in ns && ns[v].term > t && !Acked(h, v, t, k)
  }

  /** No quorum can acknowledge the entry any more. */
  ghost predicate Dead(ns: Nodes, h: History, t: nat, k: nat) {
    exists vs :: IsQuorum(ns, vs) && AllPassed(ns, h, vs, t, k)
  }

  ghost predicate Safe(ns: Nodes, h: History, log: seq<Entry>, t: nat, k: nat) {
    Holds(h, log, t, k) || Dead(ns, h, t, k)
  }

  ghost predicate AllAcked(h: History, vs: set<NodeId>, t: nat, k: nat) {
    forall v :: v in vs ==> Acked(h, v, t, k)
  }

  /** A quorum acknowledged an entry of the leader's own term. */
  ghost predicate Chosen(ns: Nodes, h: History, t: nat, k: nat) {
    Own(h, t, k) && exists vs :: IsQuorum(ns, vs) && AllAcked(h, vs, t, k)
  }

  /** The leader's entry, or a later one, was chosen. */
  ghost predicate ChosenBeyond(ns: Nodes, h: History, t: nat, k: nat) {
    exists k0: nat :: k <= k0 && Chosen(ns, h, t, k0)
  }

  /** Each entry sits in its leader's log, under the same prefix. */
  predicate TracksAt(h: History, log: seq<Entry>, k: nat)
    requires k < |log|
  {
    log[k].index == k + 1 && log[k].term >= 1 && Holds(h, log, log[k].term, k + 1)
  }

  predicate Tracks(h: History, log: seq<Entry>) {
    forall k :: 0 <= k < |log| ==> TracksAt(h, log, k)
  }

  ghost predicate Backed(ns: Nodes, h: History, log: seq<Entry>, c: nat, t: nat, k: nat) {
    c <= k && Chosen(ns, h, t, k) && Holds(h, log, t, c)
  }

  /** The first `c` entries are chosen, by a leader of term at most `bound`. */
  ghost predicate CommitOk(ns: Nodes, h: History, log: seq<Entry>, c: nat, bound: nat) {
    c == 0 || exists t: nat, k: nat :: t <= bound && Backed(ns, h, log, c, t, k)
  }

  // --- Invariants over nodes and history ---

  ghost predicate LeaderLogOk(h: History, t: nat)
    requires t in h.leaderLog
  {
    Tracks(h, h.leaderLog[t]) && forall k :: 0 <= k < |h.leaderLog[t]| ==> h.leaderLog[t][k].term <= t
  }

  ghost predicate LeaderLogsOk(ns: Nodes, h: History) {
    && h.leaderLog.Keys == h.leaderOf.Keys
    && (forall t :: t in h.leaderLog ==> LeaderLogOk(h, t))
    && (forall i :: i in ns && ns[i].role.Leader? ==> LogOf(h, ns[i].term) == ns[i].log)
  }

  predicate Ordered(n: Node) {
    n.horizon <= n.applied <= n.commit <= |n.log|
  }

  /** What lies behind the commit index is the corresponding part of one leader's log. */
  predicate TailFits(h: History, n: Node) {
    |n.log| > n.commit ==>
      var tail := LogOf(h, LastTerm(n.log));
      |n.log| <= |tail| && n.log[n.commit..] == tail[n.commit..|n.log|]
  }

  /** The entries stored below the horizon are entries of leaders. */
  predicate BelowOk(h: History, n: Node) {
    && |n.below| <= n.horizon && (n.below != [] ==> n.below[|n.below| - 1] != 0)
    && forall j: nat :: j < |n.below| && n.below[j] != 0 ==> Own(h, n.below[j], j + 1)
  }

  ghost predicate LogsOk(ns: Nodes, h: History) {
    forall i :: i in ns ==> Ordered(ns[i]) && TailFits(h, ns[i]) && BelowOk(h, ns[i])
  }

  ghost predicate AckOk(ns: Nodes, h: History, v: NodeId, t: nat, k: nat) {
    v in ns && t in h.leaderLog && t <= ns[v].term && 1 <= k <= |h.leaderLog[t]|
  }

  ghost predicate AcksOk(ns: Nodes, h: History) {
    && (forall v, t, k :: Acked(h, v, t, k) ==> AckOk(ns, h, v, t, k))
    && (forall t, k :: t in h.leaderOf && Own(h, t, k) ==> Acked(h, h.leaderOf[t], t, k))
  }

  /** The log coordinates a node reports do not fall behind an entry it acknowledged. */
  predicate Reports(n: Node, t: nat, k: nat) {
    && (|n.log| > n.commit ==> LastTerm(n.log) >= t)
    && (n.below != [] && k <= n.horizon ==> n.below[|n.below| - 1] >= t)
  }

  ghost predicate Firm(ns: Nodes, h: History, n: Node, t: nat, k: nat) {
    Dead(ns, h, t, k) || (Holds(h, n.log, t, k) && Reports(n, t, k))
  }

  /** A node keeps, and reports, what it acknowledged, unless it is dead. */
  ghost predicate AckedSafe(ns: Nodes, h: History) {
    forall v, t, k :: v in ns && Own(h, t, k) && Acked(h, v, t, k) ==> Firm(ns, h, ns[v], t, k)
  }

  /** Every later leader carries what an earlier leader placed, unless it is dead. */
  ghost predicate LeadersSafe(ns: Nodes, h: History) {
    forall t, k, u :: t < u && u in h.leaderLog && Own(h, t, k) ==> Safe(ns, h, LogOf(h, u), t, k)
  }

  ghost predicate Carried(ns: Nodes, h: History, n: Node, t: nat, k: nat) {
    Dead(ns, h, t, k) || (Holds(h, n.log, t, k) && (|n.log| > n.commit ==> LastTerm(n.log) >= t))
  }

  /** A candidate carries what its voters acknowledged, unless it is dead. */
  ghost predicate VotersSafe(ns: Nodes, h: History) {
    forall i, v, t: nat, k: nat ::
      i in ns && ns[i].role.Candidate? && VotedFor(h, v, ns[i].term, i)
      && t < ns[i].term && Own(h, t, k) && Acked(h, v, t, k)
      ==> Carried(ns, h, ns[i], t, k)
  }

  ghost predicate NotElectedBy(h: History, t: nat, u: nat, i: NodeId) {
    forall v :: t in h.quorumOf && v in h.quorumOf[t] ==> !VotedFor(h, v, u, i)
  }

  /** A candidate whose tail runs ahead of its term gets no vote from that later leader's voters. */
  ghost predicate AheadLogsLose(ns: Nodes, h: History) {
    forall i, k :: i in ns && ns[i].role.Candidate? && ns[i].commit <= k < |ns[i].log|
                   && ns[i].log[k].term >= ns[i].term ==>
      NotElectedBy(h, ns[i].log[k].term, ns[i].term, i)
  }

  /** What counting node `p` for index `k` of term `t` rests on. */
  ghost predicate Vouches(ns: Nodes, h: History, p: NodeId, t: nat, k: nat) {
    Acked(h, p, t, k) || ChosenBeyond(ns, h, t, k)
  }

  ghost predicate ProgressOk(ns: Nodes, h: History, n: Node) {
    n.role.Leader? ==>
      && n.role.nextIndex.Keys == n.peers && n.role.matchIndex.Keys == n.peers
      && (forall p :: p in n.role.nextIndex ==> 1 <= n.role.nextIndex[p] <= |n.log| + 1)
      && (forall p :: p in n.role.matchIndex ==> n.role.matchIndex[p] <= |n.log|)
      && (forall p, k: nat :: p in n.role.matchIndex && n.commit < k <= n.role.matchIndex[p] && Own(h, n.term, k) ==>
            Vouches(ns, h, p, n.term, k))
  }

  ghost predicate AllProgressOk(ns: Nodes, h: History) {
    forall i :: i in ns ==> ProgressOk(ns, h, ns[i])
  }

  ghost predicate CommitsOk(ns: Nodes, h: History) {
    forall i :: i in ns ==> CommitOk(ns, h, ns[i].log, ns[i].commit, ns[i].term)
  }

  /** Elections and logs. */
  ghost predicate ElectionInv(ns: Nodes, h: History) {
    VoteInv(ns, h) && LeaderLogsOk(ns, h) && LogsOk(ns, h) && AheadLogsLose(ns, h)
  }

  /** Acknowledged entries survive. */
  ghost predicate SafetyInv(ns: Nodes, h: History) {
    AcksOk(ns, h) && AckedSafe(ns, h) && LeadersSafe(ns, h) && VotersSafe(ns, h)
  }

  ghost predicate CommitInv(ns: Nodes, h: History) {
    AllProgressOk(ns, h) && CommitsOk(ns, h)
  }

  ghost predicate CoreInv(ns: Nodes, h: History) {
    ElectionInv(ns, h) && SafetyInv(ns, h) && CommitInv(ns, h)
  }

  // --- How one step may move nodes and history ---

  /** A candidate's log may only be completed by a restore, up to what that commits. */
  predicate LogKept(n: Node, n': Node) {
    && |n.log| <= |n'.log|
    && (|n'.log| > n'.commit ==> |n.log| > n.commit && |n'.log| == |n.log| && LastTerm(n'.log) == LastTerm(n.log))
  }

  ghost predicate NodeGrows(n: Node, n': Node) {
    && n.term <= n'.term && n.commit <= n'.commit
    && (n'.role.Candidate? ==> n'.term > n.term || (n.role.Candidate? && n'.term == n.term && LogKept(n, n')))
  }

  /** An acknowledgement is of a term the node has not left. */
  ghost predicate AcksGrow(ns: Nodes, h: History, h': History) {
    && (forall v, t, k :: Acked(h, v, t, k) ==> Acked(h', v, t, k))
    && (forall v, t, k :: v in ns && Acked(h', v, t, k) && !Acked(h, v, t, k) ==> ns[v].term <= t)
  }

  ghost predicate HistoryGrows(h: History, h': History) {
    && (forall t :: LogOf(h, t) <= LogOf(h', t))
    && (forall t :: t in h.leaderLog ==> t in h'.leaderLog)
  }

  ghost predicate Grow(ns: Nodes, h: History, ns': Nodes, h': History) {
    && VoteGrow(ns, h, ns', h')
    && (forall i :: i in ns ==> NodeGrows(ns[i], ns'[i]))
    && HistoryGrows(h, h')
    && AcksGrow(ns, h, h')
  }

  lemma GrowTrans(a: Nodes, ha: History, b: Nodes, hb: History, c: Nodes, hc: History)
    requires Grow(a, ha, b, hb) && Grow(b, hb, c, hc)
    ensures Grow(a, ha, c, hc)
  {
    VoteGrowTrans(a, ha, b, hb, c, hc);
    forall i | i in a ensures NodeGrows(a[i], c[i]) {
      assert NodeGrows(a[i], b[i]) && NodeGrows(b[i], c[i]);
    }
    forall v, t, k | v in a && Acked(hc, v, t, k) && !Acked(ha, v, t, k) ensures a[v].term <= t {
      if Acked(hb, v, t, k) { assert a[v].term <= t; } else { assert b[v].term <= t; }
    }
    forall t ensures LogOf(ha, t) <= LogOf(hc, t) {
      assert LogOf(ha, t) <= LogOf(hb, t) && LogOf(hb, t) <= LogOf(hc, t);
    }
  }

  lemma GrowRefl(ns: Nodes, h: History)
    ensures Grow(ns, h, ns, h)
  {
    assert forall t :: LogOf(h, t) <= LogOf(h, t);
  }

  // --- Stability under growth ---

  lemma HoldsStable(h: History, h': History, log: seq<Entry>, t: nat, k: nat)
    requires HistoryGrows(h, h') && k <= |LogOf(h, t)|
    ensures Holds(h, log, t, k) <==> Holds(h', log, t, k)
  {
    assert LogOf(h, t) <= LogOf(h', t);
    assert LogOf(h', t)[..k] == LogOf(h, t)[..k];
  }

  lemma TracksStable(h: History, h': History, log: seq<Entry>)
    requires HistoryGrows(h, h') && Tracks(h, log)
    ensures Tracks(h', log)
  {
    forall k | 0 <= k < |log| ensures TracksAt(h', log, k) {
      assert TracksAt(h, log, k);
      HoldsStable(h, h', log, log[k].term, k + 1);
    }
  }

  lemma OwnStable(h: History, h': History, t: nat, k: nat)
    requires HistoryGrows(h, h') && k <= |LogOf(h, t)|
    ensures Own(h, t, k) <==> Own(h', t, k)
  {
    assert LogOf(h, t) <= LogOf(h', t);
    if 1 <= k { assert LogOf(h', t)[k - 1] == LogOf(h, t)[k - 1]; }
  }

  lemma DeadStable(ns: Nodes, h: History, ns': Nodes, h': History, t: nat, k: nat)
    requires Grow(ns, h, ns', h') && Dead(ns, h, t, k)
    ensures Dead(ns', h', t, k)
  {
    var vs :| IsQuorum(ns, vs) && AllPassed(ns, h, vs, t, k);
    assert IsQuorum(ns', vs);
    forall v | v in vs ensures v in ns' && ns'[v].term > t && !Acked(h', v, t, k) {
      assert v in ns && ns[v].term > t && !Acked(h, v, t, k);
    }
    assert AllPassed(ns', h', vs, t, k);
  }

  lemma SafeStable(ns: Nodes, h: History, ns': Nodes, h': History, log: seq<Entry>, t: nat, k: nat)
    requires Grow(ns, h, ns', h') && k <= |LogOf(h, t)| && Safe(ns, h, log, t, k)
    ensures Safe(ns', h', log, t, k)
  {
    if Holds(h, log, t, k) {
      HoldsStable(h, h', log, t, k);
    } else {
      DeadStable(ns, h, ns', h', t, k);
    }
  }

  lemma ChosenStable(ns: Nodes, h: History, ns': Nodes, h': History, t: nat, k: nat)
    requires Grow(ns, h, ns', h') && Chosen(ns, h, t, k)
    ensures Chosen(ns', h', t, k)
  {
    OwnStable(h, h', t, k);
    var vs :| IsQuorum(ns, vs) && AllAcked(h, vs, t, k);
    assert IsQuorum(ns', vs) && AllAcked(h', vs, t, k);
  }

  lemma VouchesStable(ns: Nodes, h: History, ns': Nodes, h': History, p: NodeId, t: nat, k: nat)
    requires Grow(ns, h, ns', h') && Vouches(ns, h, p, t, k)
    ensures Vouches(ns', h', p, t, k)
  {
    if !Acked(h, p, t, k) {
      var k0: nat :| k <= k0 && Chosen(ns, h, t, k0);
      ChosenStable(ns, h, ns', h', t, k0);
    }
  }

  lemma BackedStable(ns: Nodes, h: History, ns': Nodes, h': History, log: seq<Entry>, c: nat, t: nat, k: nat)
    requires Grow(ns, h, ns', h') && Backed(ns, h, log, c, t, k)
    ensures Backed(ns', h', log, c, t, k)
  {
    ChosenStable(ns, h, ns', h', t, k);
    HoldsStable(h, h', log, t, c);
  }

  lemma CommitOkStable(ns: Nodes, h: History, ns': Nodes, h': History, log: seq<Entry>, c: nat, bound: nat)
    requires Grow(ns, h, ns', h') && CommitOk(ns, h, log, c, bound)
    ensures CommitOk(ns', h', log, c, bound)
  {
    if c > 0 {
      var t: nat, k: nat :| t <= bound && Backed(ns, h, log, c, t, k);
      BackedStable(ns, h, ns', h', log, c, t, k);
    }
  }

  lemma CommitOkWeaken(ns: Nodes, h: History, log: seq<Entry>, c: nat, bound: nat, bound': nat)
    requires CommitOk(ns, h, log, c, bound) && bound <= bound'
    ensures CommitOk(ns, h, log, c, bound')
  {
    if c > 0 {
      var t: nat, k: nat :| t <= bound && Backed(ns, h, log, c, t, k);
      assert t <= bound' && Backed(ns, h, log, c, t, k);
    }
  }

  lemma BelowStable(h: History, h': History, n: Node)
    requires HistoryGrows(h, h') && BelowOk(h, n)
    ensures BelowOk(h', n)
  {
    forall j: nat | j < |n.below| && n.below[j] != 0 ensures Own(h', n.below[j], j + 1) {
      OwnStable(h, h', n.below[j], j + 1);
    }
  }

  lemma TailStable(h: History, h': History, n: Node)
    requires HistoryGrows(h, h') && TailFits(h, n)
    ensures TailFits(h', n)
  {
    assert LogOf(h, LastTerm(n.log)) <= LogOf(h', LastTerm(n.log));
  }

  // --- What the invariant gives ---

  lemma ChosenIsAlive(ns: Nodes, h: History, t: nat, k: nat)
    requires Chosen(ns, h, t, k)
    ensures !Dead(ns, h, t, k)
  {
    if Dead(ns, h, t, k) {
      var a :| IsQuorum(ns, a) && AllAcked(h, a, t, k);
      var b :| IsQuorum(ns, b) && AllPassed(ns, h, b, t, k);
      var v := QuorumsIntersect(ns.Keys, a, b);
      assert false;
    }
  }

  /** Leader completeness: a chosen entry is in the log of every later leader. */
  lemma ChosenIsCarried(ns: Nodes, h: History, t: nat, k: nat, u: nat)
    requires LeadersSafe(ns, h) && Chosen(ns, h, t, k) && t <= u && u in h.leaderLog
    ensures Holds(h, LogOf(h, u), t, k)
  {
    if t < u {
      assert Safe(ns, h, LogOf(h, u), t, k);
      ChosenIsAlive(ns, h, t, k);
    }
  }

  /** What is backed agrees with every log of a leader of a later term. */
  lemma BackedIsCarried(ns: Nodes, h: History, log: seq<Entry>, c: nat, t: nat, k: nat, u: nat)
    requires LeadersSafe(ns, h) && Backed(ns, h, log, c, t, k) && t <= u && u in h.leaderLog
    ensures c <= |log| && c <= |LogOf(h, u)| && log[..c] == LogOf(h, u)[..c]
  {
    ChosenIsCarried(ns, h, t, k, u);
    assert LogOf(h, u)[..k][..c] == LogOf(h, u)[..c];
    assert LogOf(h, t)[..k][..c] == LogOf(h, t)[..c];
  }

  lemma TermsAscend(h: History, log: seq<Entry>, j: nat, k: nat)
    requires Tracks(h, log) && j <= k < |log|
    requires forall t :: t in h.leaderLog ==> forall m :: 0 <= m < |h.leaderLog[t]| ==> h.leaderLog[t][m].term <= t
    ensures log[j].term <= log[k].term
  {
    var t := log[k].term;
    assert TracksAt(h, log, k);
    assert log[j] == log[..k + 1][j] == LogOf(h, t)[..k + 1][j] == h.leaderLog[t][j];
  }

  lemma LogTermsAscend(h: History, log: seq<Entry>, j: nat, k: nat)
    requires (forall t :: t in h.leaderLog ==> LeaderLogOk(h, t)) && Tracks(h, log) && j <= k < |log|
    ensures log[j].term <= log[k].term
  {
    forall t | t in h.leaderLog
      ensures forall m :: 0 <= m < |h.leaderLog[t]| ==> h.leaderLog[t][m].term <= t
    {
      assert LeaderLogOk(h, t);
    }
    TermsAscend(h, log, j, k);
  }

  lemma LeaderTermsAscend(ns: Nodes, h: History, t: nat, j: nat, k: nat)
    requires LeaderLogsOk(ns, h) && j <= k < |LogOf(h, t)|
    ensures LogOf(h, t)[j].term <= LogOf(h, t)[k].term <= t
  {
    assert LeaderLogOk(h, t);
    LogTermsAscend(h, LogOf(h, t), j, k);
  }

  /** Log matching (section 5.3): equal term at an index means equal logs up to it. */
  lemma LogMatching(h: History, a: seq<Entry>, b: seq<Entry>, k: nat)
    requires Tracks(h, a) && Tracks(h, b) && k < |a| && k < |b| && a[k].term == b[k].term
    ensures a[..k + 1] == b[..k + 1]
  {
    assert TracksAt(h, a, k) && TracksAt(h, b, k);
  }

  lemma LeaderEntryIsOwn(ns: Nodes, h: History, t: nat, k: nat)
    requires LeaderLogsOk(ns, h) && k < |LogOf(h, t)|
    ensures var u := LogOf(h, t)[k].term; Own(h, u, k + 1) && u in h.leaderLog && Holds(h, LogOf(h, t), u, k + 1)
  {
    assert LeaderLogOk(h, t);
    assert TracksAt(h, h.leaderLog[t], k);
    assert LogOf(h, t)[..k + 1][k] == LogOf(h, LogOf(h, t)[k].term)[..k + 1][k];
  }

  // --- The committed part of a log ---

  /** What is committed agrees with every leader's entry that is not dead. */
  lemma SettledAgrees(ns: Nodes, h: History, log: seq<Entry>, c: nat, bound: nat, t: nat, k: nat)
    requires LeadersSafe(ns, h) && CommitOk(ns, h, log, c, bound) && Own(h, t, k) && !Dead(ns, h, t, k)
    ensures Min(c, k) <= |log| && log[..Min(c, k)] == LogOf(h, t)[..Min(c, k)]
  {
    var j := Min(c, k);
    if c > 0 {
      var t0: nat, k0: nat :| t0 <= bound && Backed(ns, h, log, c, t0, k0);
      assert log[..j] == log[..c][..j] == LogOf(h, t0)[..c][..j] == LogOf(h, t0)[..j];
      if t0 <= t {
        ChosenIsCarried(ns, h, t0, k0, t);
        assert LogOf(h, t)[..k0][..j] == LogOf(h, t)[..j] && LogOf(h, t0)[..k0][..j] == LogOf(h, t0)[..j];
      } else {
        assert Safe(ns, h, LogOf(h, t0), t, k);
        assert LogOf(h, t)[..k][..j] == LogOf(h, t)[..j] && LogOf(h, t0)[..k][..j] == LogOf(h, t0)[..j];
      }
    }
  }

  lemma SettledHolds(ns: Nodes, h: History, log: seq<Entry>, c: nat, bound: nat, t: nat, k: nat)
    requires LeadersSafe(ns, h) && CommitOk(ns, h, log, c, bound) && Own(h, t, k) && !Dead(ns, h, t, k) && k <= c
    ensures Holds(h, log, t, k)
  {
    SettledAgrees(ns, h, log, c, bound, t, k);
  }

  /** What is committed tracks the leaders' logs. */
  lemma SettledTracks(ns: Nodes, h: History, log: seq<Entry>, c: nat, bound: nat)
    requires LeaderLogsOk(ns, h) && CommitOk(ns, h, log, c, bound)
    ensures c <= |log| && Tracks(h, log[..c])
  {
    if c > 0 {
      var t: nat, k: nat :| t <= bound && Backed(ns, h, log, c, t, k);
      assert LeaderLogOk(h, t);
      PrefixTracks(h, LogOf(h, t), c);
    }
  }

  lemma PrefixTracks(h: History, log: seq<Entry>, c: nat)
    requires Tracks(h, log) && c <= |log|
    ensures Tracks(h, log[..c])
  {
    forall k | 0 <= k < c ensures TracksAt(h, log[..c], k) {
      assert TracksAt(h, log, k);
      assert log[..c][..k + 1] == log[..k + 1];
    }
  }

  /** Both committed: equal as far as both reach. */
  lemma CommittedAgree(ns: Nodes, h: History, x: seq<Entry>, cx: nat, bx: nat, y: seq<Entry>, cy: nat, by_: nat, k: nat)
    requires LeadersSafe(ns, h) && CommitOk(ns, h, x, cx, bx) && CommitOk(ns, h, y, cy, by_)
    requires k <= cx && k <= cy
    ensures k <= |x| && k <= |y| && x[..k] == y[..k]
  {
    if k > 0 {
      var tx: nat, kx: nat :| tx <= bx && Backed(ns, h, x, cx, tx, kx);
      var ty: nat, ky: nat :| ty <= by_ && Backed(ns, h, y, cy, ty, ky);
      var u := if tx < ty then ty else tx;
      BackedIsCarried(ns, h, x, cx, tx, kx, u);
      BackedIsCarried(ns, h, y, cy, ty, ky, u);
      assert x[..k] == x[..cx][..k] == LogOf(h, u)[..cx][..k] == LogOf(h, u)[..k];
      assert y[..k] == y[..cy][..k] == LogOf(h, u)[..cy][..k] == LogOf(h, u)[..k];
    }
  }

  lemma CommitIsInLog(ns: Nodes, h: History, log: seq<Entry>, c: nat, bound: nat)
    requires CommitOk(ns, h, log, c, bound)
    ensures c <= |log|
  {
    if c > 0 {
      var t: nat, k: nat :| t <= bound && Backed(ns, h, log, c, t, k);
    }
  }

  lemma CommitOkExtends(ns: Nodes, h: History, log: seq<Entry>, log': seq<Entry>, c: nat, bound: nat)
    requires CommitOk(ns, h, log, c, bound) && (c <= |log| ==> c <= |log'| && log'[..c] == log[..c])
    ensures CommitOk(ns, h, log', c, bound)
  {
    if c > 0 {
      var t: nat, k: nat :| t <= bound && Backed(ns, h, log, c, t, k);
      assert Backed(ns, h, log', c, t, k);
    }
  }

  lemma CommitOkLess(ns: Nodes, h: History, log: seq<Entry>, c: nat, c': nat, bound: nat)
    requires CommitOk(ns, h, log, c, bound) && c' <= c
    ensures CommitOk(ns, h, log, c', bound)
  {
    if c' > 0 {
      var t: nat, k: nat :| t <= bound && Backed(ns, h, log, c, t, k);
      assert log[..c'] == log[..c][..c'] == LogOf(h, t)[..c][..c'] == LogOf(h, t)[..c'];
      assert Backed(ns, h, log, c', t, k);
    }
  }

  // --- The uncommitted part ---

  /** An entry of the tail is the entry of the leader whose log the tail is part of. */
  lemma TailEntry(h: History, n: Node, k: nat)
    requires TailFits(h, n) && n.commit <= k < |n.log|
    ensures |n.log| <= |LogOf(h, LastTerm(n.log))| && n.log[k] == LogOf(h, LastTerm(n.log))[k]
  {
    var tail := LogOf(h, LastTerm(n.log));
    assert n.log[k] == n.log[n.commit..][k - n.commit] == tail[n.commit..|n.log|][k - n.commit] == tail[k];
  }

  lemma EntryIsOwn(ns: Nodes, h: History, n: Node, bound: nat, k: nat)
    requires LeaderLogsOk(ns, h) && TailFits(h, n) && CommitOk(ns, h, n.log, n.commit, bound) && k < |n.log|
    ensures n.log[k].term >= 1 && Own(h, n.log[k].term, k + 1) && n.log[k].term in h.leaderLog
  {
    if k < n.commit {
      SettledTracks(ns, h, n.log, n.commit, bound);
      assert TracksAt(h, n.log[..n.commit], k);
      assert n.log[..n.commit][..k + 1][k] == LogOf(h, n.log[k].term)[..k + 1][k];
    } else {
      TailEntry(h, n, k);
      LeaderEntryIsOwn(ns, h, LastTerm(n.log), k);
      assert LeaderLogOk(h, LastTerm(n.log));
      assert TracksAt(h, LogOf(h, LastTerm(n.log)), k);
    }
  }

  /** A log agrees with an entry of a leader that is not dead as soon as its tail does. */
  lemma TailHolds(ns: Nodes, h: History, n: Node, bound: nat, t: nat, k: nat)
    requires LeaderLogsOk(ns, h) && LeadersSafe(ns, h) && TailFits(h, n) && CommitOk(ns, h, n.log, n.commit, bound)
    requires Own(h, t, k) && !Dead(ns, h, t, k) && n.commit < k <= |n.log| && LastTerm(n.log) >= t
    ensures Holds(h, n.log, t, k)
  {
    var lt := LastTerm(n.log);
    TailEntry(h, n, |n.log| - 1);
    SettledAgrees(ns, h, n.log, n.commit, bound, t, k);
    if t < lt { assert Safe(ns, h, LogOf(h, lt), t, k); }
    assert LogOf(h, lt)[..k] == LogOf(h, t)[..k];
    forall j | 0 <= j < k ensures n.log[j] == LogOf(h, t)[j] {
      if j < n.commit {
        assert n.log[j] == n.log[..n.commit][j] == LogOf(h, t)[..n.commit][j];
      } else {
        TailEntry(h, n, j);
        assert LogOf(h, lt)[..k][j] == LogOf(h, t)[..k][j];
      }
    }
  }

  /** Beyond an acknowledged entry that is not dead, terms do not fall below its term. */
  lemma BeyondFirm(ns: Nodes, h: History, n: Node, bound: nat, t: nat, k: nat, e: nat)
    requires LeaderLogsOk(ns, h) && LeadersSafe(ns, h) && TailFits(h, n) && CommitOk(ns, h, n.log, n.commit, bound)
    requires Own(h, t, k) && !Dead(ns, h, t, k) && Holds(h, n.log, t, k) && 1 <= k <= e <= |n.log|
    requires |n.log| > n.commit ==> LastTerm(n.log) >= t
    ensures n.log[e - 1].term >= t
  {
    assert n.log[k - 1] == n.log[..k][k - 1] == LogOf(h, t)[..k][k - 1];
    if e <= n.commit {
      SettledTracks(ns, h, n.log, n.commit, bound);
      LogTermsAscend(h, n.log[..n.commit], k - 1, e - 1);
    } else {
      TailEntry(h, n, e - 1);
      LaterLeaderFirm(ns, h, LastTerm(n.log), t, k, e);
    }
  }

  lemma LaterLeaderFirm(ns: Nodes, h: History, lt: nat, t: nat, k: nat, e: nat)
    requires LeaderLogsOk(ns, h) && LeadersSafe(ns, h) && lt >= t && Own(h, t, k) && !Dead(ns, h, t, k)
    requires 1 <= k <= e <= |LogOf(h, lt)|
    ensures LogOf(h, lt)[e - 1].term >= t
  {
    if t < lt {
      assert Safe(ns, h, LogOf(h, lt), t, k);
      assert LogOf(h, lt)[k - 1] == LogOf(h, lt)[..k][k - 1] == LogOf(h, t)[..k][k - 1];
    }
    LeaderTermsAscend(ns, h, lt, k - 1, e - 1);
  }

  // --- Votes and logs (section 5.4.1) ---

  /** The coordinates a voter reports reach every entry it acknowledged that is not dead. */
  lemma VoterReports(ns: Nodes, h: History, n: Node, bound: nat, t: nat, k: nat)
    requires LeaderLogsOk(ns, h) && LeadersSafe(ns, h) && TailFits(h, n) && CommitOk(ns, h, n.log, n.commit, bound)
    requires Ordered(n) && Own(h, t, k) && !Dead(ns, h, t, k) && Firm(ns, h, n, t, k)
    ensures LastStoredTerm(n) >= t && |n.log| >= k
  {
    BeyondFirm(ns, h, n, bound, t, k, |n.log|);
  }

  /** The term has an entry of its own at or before the index. */
  ghost predicate HasOwn(h: History, t: nat, k: nat) {
    exists e: nat :: e <= k && Own(h, t, e)
  }

  /** Log coordinates that a candidate gave in its present candidacy. */
  ghost predicate Coordinates(h: History, n: Node, lastIndex: nat, lastTerm: nat) {
    && lastIndex <= |n.log| && (lastTerm > 0 ==> HasOwn(h, lastTerm, |n.log|))
    && (|n.log| > n.commit ==> lastIndex == |n.log| && lastTerm == LastTerm(n.log))
  }

  /** A candidate whose coordinates reach an entry that is not dead carries it. */
  lemma UpToDateIsSafe(ns: Nodes, h: History, n: Node, bound: nat, lastIndex: nat, lastTerm: nat, t: nat, k: nat)
    requires LeaderLogsOk(ns, h) && LeadersSafe(ns, h) && TailFits(h, n) && CommitOk(ns, h, n.log, n.commit, bound)
    requires Coordinates(h, n, lastIndex, lastTerm) && Own(h, t, k)
    requires if lastTerm != t then lastTerm > t else lastIndex >= k
    ensures Carried(ns, h, n, t, k)
  {
    if !Dead(ns, h, t, k) {
      if k <= n.commit {
        SettledHolds(ns, h, n.log, n.commit, bound, t, k);
      } else if k <= |n.log| {
        TailHolds(ns, h, n, bound, t, k);
      } else {
        var e: nat :| e <= |n.log| && Own(h, lastTerm, e);
        assert Safe(ns, h, LogOf(h, lastTerm), t, k);
        assert LogOf(h, lastTerm)[k - 1] == LogOf(h, lastTerm)[..k][k - 1] == LogOf(h, t)[..k][k - 1];
        LeaderTermsAscend(ns, h, lastTerm, e - 1, k - 1);
      }
    }
  }

  /** What a node reports are coordinates of its log. */
  lemma ReportsCoordinates(ns: Nodes, h: History, n: Node, bound: nat)
    requires LeaderLogsOk(ns, h) && TailFits(h, n) && BelowOk(h, n) && Ordered(n)
    requires CommitOk(ns, h, n.log, n.commit, bound)
    ensures Coordinates(h, n, |n.log|, LastStoredTerm(n))
  {
    if |n.log| <= n.horizon && n.below != [] {
      assert Own(h, n.below[|n.below| - 1], |n.below|);
    } else if |n.log| > 0 {
      EntryIsOwn(ns, h, n, bound, |n.log| - 1);
    }
  }
}
