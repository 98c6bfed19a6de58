/**
 Steps that leave every log, every leader's log and every acknowledgement as they are: clocks,
 demotions, candidacies, votes, bookkeeping and a leader's commits.
 */
module RaftQuiet {
  import opened Common
  import opened FsmTypes
  import opened Raft
  import opened Cluster
  import opened RaftVotes
  import opened RaftInv

  predicate SameStore(n: Node, n': Node) {
    && n'.log == n.log && n'.horizon == n.horizon && n'.below == n.below
    && n.commit <= n'.commit && n.applied <= n'.applied <= n'.commit <= |n'.log|
  }

  /** Whoever leads now led before, in the same term. */
  predicate NoNewLeader(n: Node, n': Node) {
    n'.role.Leader? ==> n.role.Leader? && n'.term == n.term
  }

  ghost predicate Quiet(ns: Nodes, h: History, ns': Nodes, h': History) {
    && Grow(ns, h, ns', h') && h' == h.(votes := h'.votes)
    && forall i :: i in ns ==> (SameStore(ns[i], ns'[i]) || ns'[i] == ns[i]) && NoNewLeader(ns[i], ns'[i])
  }

  lemma QuietLeaderLogs(ns: Nodes, h: History, ns': Nodes, h': History)
    requires Quiet(ns, h, ns', h') && LeaderLogsOk(ns, h)
    ensures LeaderLogsOk(ns', h')
  {
    forall t | t in h'.leaderLog ensures LeaderLogOk(h', t) {
      assert LeaderLogOk(h, t);
      TracksStable(h, h', h.leaderLog[t]);
    }
    forall i | i in ns' && ns'[i].role.Leader? ensures LogOf(h', ns'[i].term) == ns'[i].log {
      assert NoNewLeader(ns[i], ns'[i]);
    }
  }

  lemma LogFrame(h: History, h': History, n: Node, n': Node)
    requires HistoryGrows(h, h') && (SameStore(n, n') || n' == n) && Ordered(n) && TailFits(h, n) && BelowOk(h, n)
    ensures Ordered(n') && TailFits(h', n') && BelowOk(h', n')
  {
    if |n'.log| > n'.commit { TailKeepsFitting(h, n, n'); }
    TailStable(h, h', n');
    BelowStable(h, h', n');
  }

  lemma QuietLogs(ns: Nodes, h: History, ns': Nodes, h': History)
    requires Quiet(ns, h, ns', h') && LogsOk(ns, h)
    ensures LogsOk(ns', h')
  {
    forall i | i in ns' ensures Ordered(ns'[i]) && TailFits(h', ns'[i]) && BelowOk(h', ns'[i]) {
      LogFrame(h, h', ns[i], ns'[i]);
    }
  }

  lemma TailKeepsFitting(h: History, n: Node, n': Node)
    requires TailFits(h, n) && n'.log == n.log && n.commit <= n'.commit < |n'.log|
    ensures TailFits(h, n')
  {
    var tail := LogOf(h, LastTerm(n.log));
    assert n'.log[n'.commit..] == n.log[n.commit..][n'.commit - n.commit..];
    assert tail[n'.commit..|n.log|] == tail[n.commit..|n.log|][n'.commit - n.commit..];
  }

  lemma QuietAcks(ns: Nodes, h: History, ns': Nodes, h': History)
    requires Quiet(ns, h, ns', h') && AcksOk(ns, h)
    ensures AcksOk(ns', h')
  {
    forall v, t, k | Acked(h', v, t, k) ensures AckOk(ns', h', v, t, k) {
      assert Acked(h, v, t, k);
      assert AckOk(ns, h, v, t, k);
    }
    forall t, k | t in h'.leaderOf && Own(h', t, k) ensures Acked(h', h'.leaderOf[t], t, k) {
      assert Own(h, t, k);
    }
  }

  lemma FirmStable(ns: Nodes, h: History, ns': Nodes, h': History, n: Node, n': Node, t: nat, k: nat)
    requires Grow(ns, h, ns', h') && k <= |LogOf(h, t)| && Firm(ns, h, n, t, k)
    requires SameStore(n, n') || n' == n
    ensures Firm(ns', h', n', t, k)
  {
    if Dead(ns, h, t, k) { DeadStable(ns, h, ns', h', t, k); } else { HoldsStable(h, h', n.log, t, k); }
  }

  lemma CarriedStable(ns: Nodes, h: History, ns': Nodes, h': History, n: Node, n': Node, t: nat, k: nat)
    requires Grow(ns, h, ns', h') && k <= |LogOf(h, t)| && Carried(ns, h, n, t, k)
    requires SameStore(n, n') || n' == n
    ensures Carried(ns', h', n', t, k)
  {
    if Dead(ns, h, t, k) { DeadStable(ns, h, ns', h', t, k); } else { HoldsStable(h, h', n.log, t, k); }
  }

  lemma QuietSafe(ns: Nodes, h: History, ns': Nodes, h': History)
    requires Quiet(ns, h, ns', h') && AckedSafe(ns, h) && LeadersSafe(ns, h)
    ensures AckedSafe(ns', h') && LeadersSafe(ns', h')
  {
    forall v, t, k | v in ns' && Own(h', t, k) && Acked(h', v, t, k) ensures Firm(ns', h', ns'[v], t, k) {
      assert Own(h, t, k) && Acked(h, v, t, k);
      FirmStable(ns, h, ns', h', ns[v], ns'[v], t, k);
    }
    forall t, k, u | t < u && u in h'.leaderLog && Own(h', t, k) ensures Safe(ns', h', LogOf(h', u), t, k) {
      assert Own(h, t, k);
      SafeStable(ns, h, ns', h', LogOf(h, u), t, k);
    }
  }

  predicate SameCandidate(n: Node, n': Node) {
    n.role.Candidate? && n'.term == n.term
  }

  /** A pair of candidate and voter that was there before keeps its guarantee. */
  lemma QuietVoter(ns: Nodes, h: History, ns': Nodes, h': History, i: NodeId, v: NodeId, t: nat, k: nat)
    requires Quiet(ns, h, ns', h') && VotersSafe(ns, h) && i in ns && SameCandidate(ns[i], ns'[i])
    requires VotedFor(h, v, ns[i].term, i) && t < ns[i].term && Own(h', t, k) && Acked(h', v, t, k)
    ensures Carried(ns', h', ns'[i], t, k)
  {
    assert Own(h, t, k) && Acked(h, v, t, k);
    CarriedStable(ns, h, ns', h', ns[i], ns'[i], t, k);
  }

  // --- Frames for the leader's progress and the commit indices ---

  /** A leader keeps its progress when its maps stay and its commit index does not fall. */
  lemma ProgressFrame(ns: Nodes, h: History, ns': Nodes, h': History, n: Node, n': Node)
    requires Grow(ns, h, ns', h') && ProgressOk(ns, h, n) && n.commit <= n'.commit
    requires n'.role == n.role && n'.peers == n.peers && n'.term == n.term && |n'.log| >= |n.log|
    requires n.role.Leader? ==> LogOf(h, n.term) == n.log
    ensures ProgressOk(ns', h', n')
  {
    if n.role.Leader? {
      forall p, k: nat | p in n'.role.matchIndex && n'.commit < k <= n'.role.matchIndex[p] && Own(h', n'.term, k)
        ensures Vouches(ns', h', p, n'.term, k)
      {
        OwnStable(h, h', n.term, k);
        VouchesStable(ns, h, ns', h', p, n.term, k);
      }
    }
  }

  lemma CommitInvFrame(ns: Nodes, h: History, ns': Nodes, h': History, i: NodeId)
    requires Grow(ns, h, ns', h') && LeaderLogsOk(ns, h) && CommitInv(ns, h) && i in ns && i in ns'
    requires ns' == ns[i := ns'[i]]
    requires ProgressOk(ns', h', ns'[i]) && CommitOk(ns', h', ns'[i].log, ns'[i].commit, ns'[i].term)
    ensures CommitInv(ns', h')
  {
    forall j | j in ns' ensures ProgressOk(ns', h', ns'[j])
        && CommitOk(ns', h', ns'[j].log, ns'[j].commit, ns'[j].term) {
      if j != i {
        assert ProgressOk(ns, h, ns[j]);
        ProgressFrame(ns, h, ns', h', ns[j], ns[j]);
        CommitOkStable(ns, h, ns', h', ns[j].log, ns[j].commit, ns[j].term);
      }
    }
  }

  // --- Soft steps at one node: no vote is cast, no leader is made, nothing is written to a log ---

  ghost predicate Soft(n: Node, n': Node) {
    && SameStore(n, n') && n.term <= n'.term && NoNewLeader(n, n')
    && (n'.role.Candidate? ==> n.role.Candidate? && n'.term == n.term)
  }

  lemma SoftIsQuiet(ns: Nodes, h: History, i: NodeId, n': Node)
    requires i in ns && Soft(ns[i], n') && VoteGrow(ns, h, ns[i := n'], h)
    ensures Quiet(ns, h, ns[i := n'], h)
  {
    assert forall t :: LogOf(h, t) <= LogOf(h, t);
  }

  lemma SoftAhead(ns: Nodes, h: History, i: NodeId, n': Node)
    requires AheadLogsLose(ns, h) && i in ns && Soft(ns[i], n')
    ensures AheadLogsLose(ns[i := n'], h)
  {
  }

  lemma SoftVoters(ns: Nodes, h: History, i: NodeId, n': Node)
    requires VotersSafe(ns, h) && i in ns && Soft(ns[i], n') && Quiet(ns, h, ns[i := n'], h)
    ensures VotersSafe(ns[i := n'], h)
  {
    var ns' := ns[i := n'];
    forall j, v, t: nat, k: nat |
      j in ns' && ns'[j].role.Candidate? && VotedFor(h, v, ns'[j].term, j)
      && t < ns'[j].term && Own(h, t, k) && Acked(h, v, t, k)
      ensures Carried(ns', h, ns'[j], t, k)
    {
      QuietVoter(ns, h, ns', h, j, v, t, k);
    }
  }

  lemma SoftKeeps(ns: Nodes, h: History, i: NodeId, n': Node)
    requires CoreInv(ns, h) && i in ns && Soft(ns[i], n')
    requires VoteInv(ns[i := n'], h) && VoteGrow(ns, h, ns[i := n'], h)
    requires ProgressOk(ns, h, n') && CommitOk(ns, h, n'.log, n'.commit, n'.term)
    ensures CoreInv(ns[i := n'], h) && Grow(ns, h, ns[i := n'], h)
  {
    var ns' := ns[i := n'];
    SoftIsQuiet(ns, h, i, n');
    QuietLeaderLogs(ns, h, ns', h);
    QuietLogs(ns, h, ns', h);
    SoftAhead(ns, h, i, n');
    QuietAcks(ns, h, ns', h);
    QuietSafe(ns, h, ns', h);
    SoftVoters(ns, h, i, n');
    ProgressFrame(ns, h, ns', h, n', n');
    CommitOkStable(ns, h, ns', h, n'.log, n'.commit, n'.term);
    CommitInvFrame(ns, h, ns', h, i);
  }

  /** The common case: the commit index stays, and a leader keeps its maps. */
  ghost predicate Plain(n: Node, n': Node) {
    && Soft(n, n') && n'.commit == n.commit && n'.peers == n.peers
    && (n'.role.Leader? ==> n'.role.nextIndex == n.role.nextIndex && n'.role.matchIndex == n.role.matchIndex)
  }

  lemma PlainKeeps(ns: Nodes, h: History, i: NodeId, n': Node)
    requires CoreInv(ns, h) && i in ns && Plain(ns[i], n')
    requires VoteInv(ns[i := n'], h) && VoteGrow(ns, h, ns[i := n'], h)
    ensures CoreInv(ns[i := n'], h) && Grow(ns, h, ns[i := n'], h)
  {
    assert ProgressOk(ns, h, ns[i]) && CommitOk(ns, h, ns[i].log, ns[i].commit, ns[i].term);
    CommitOkWeaken(ns, h, ns[i].log, ns[i].commit, ns[i].term, n'.term);
    SoftKeeps(ns, h, i, n');
  }

  // --- Casting a vote ---

  /** A vote for a candidate rests on coordinates that candidate gave in its present candidacy. */
  ghost predicate CastsWell(ns: Nodes, h: History, i: NodeId, n': Node, c: NodeId) {
    && Casts(ns, i, n', c) && SameStore(ns[i], n') && n'.commit == ns[i].commit
    && (n'.role == ns[i].role || n'.role.Candidate?)
    && (c != i && ns[c].role.Candidate? && ns[c].term == n'.term ==>
          exists li, lt :: Coordinates(h, ns[c], li, lt) && UpToDate(ns[i], li, lt))
  }

  lemma CastIsQuiet(ns: Nodes, h: History, i: NodeId, n': Node, c: NodeId)
    requires VotesOk(ns, h) && CastsWell(ns, h, i, n', c)
    ensures Quiet(ns, h, ns[i := n'], CastVote(h, i, n'.term, c))
  {
    CastVotes(ns, h, i, n', c);
    var h' := CastVote(h, i, n'.term, c);
    assert forall t :: LogOf(h, t) <= LogOf(h', t);
  }

  lemma CastAhead(ns: Nodes, h: History, i: NodeId, n': Node, c: NodeId)
    requires VoteInv(ns, h) && AheadLogsLose(ns, h) && CastsWell(ns, h, i, n', c)
    ensures AheadLogsLose(ns[i := n'], CastVote(h, i, n'.term, c))
  {
    var ns', h' := ns[i := n'], CastVote(h, i, n'.term, c);
    forall j, k | j in ns' && ns'[j].role.Candidate? && ns'[j].commit <= k < |ns'[j].log|
        && ns'[j].log[k].term >= ns'[j].term
      ensures NotElectedBy(h', ns'[j].log[k].term, ns'[j].term, j)
    {
      var t, u := ns'[j].log[k].term, ns'[j].term;
      forall v | t in h'.quorumOf && v in h'.quorumOf[t] ensures !VotedFor(h', v, u, j) {
        CastAheadVoter(ns, h, i, n', c, j, t, v);
      }
    }
  }

  lemma CastAheadVoter(ns: Nodes, h: History, i: NodeId, n': Node, c: NodeId, j: NodeId, t: nat, v: NodeId)
    requires VoteInv(ns, h) && CastsWell(ns, h, i, n', c)
    requires j in ns && ns[i := n'][j].role.Candidate? && t >= ns[i := n'][j].term
    requires t in h.quorumOf && v in h.quorumOf[t]
    requires ns[j].role.Candidate? && ns[i := n'][j].term == ns[j].term ==> NotElectedBy(h, t, ns[j].term, j)
    ensures !VotedFor(CastVote(h, i, n'.term, c), v, ns[i := n'][j].term, j)
  {
    CastVotes(ns, h, i, n', c);
    assert CrownOk(ns, h, t);
    assert VotedFor(h, v, t, h.leaderOf[t]);
    assert VoteOk(ns, v, t, h.leaderOf[t]);
    var u := ns[i := n'][j].term;
    assert VotedFor(h, v, u, j) ==> VoteOk(ns, v, u, j);
    if ns[j].role.Candidate? { assert CandidateOk(ns, h, j); }
  }

  lemma CastVoters(ns: Nodes, h: History, i: NodeId, n': Node, c: NodeId)
    requires ElectionInv(ns, h) && SafetyInv(ns, h) && CommitsOk(ns, h) && CastsWell(ns, h, i, n', c)
    ensures VotersSafe(ns[i := n'], CastVote(h, i, n'.term, c))
  {
    var ns', h' := ns[i := n'], CastVote(h, i, n'.term, c);
    CastIsQuiet(ns, h, i, n', c);
    forall j, v, t: nat, k: nat |
      j in ns' && ns'[j].role.Candidate? && VotedFor(h', v, ns'[j].term, j)
      && t < ns'[j].term && Own(h', t, k) && Acked(h', v, t, k)
      ensures Carried(ns', h', ns'[j], t, k)
    {
      CastVoterAt(ns, h, i, n', c, j, v, t, k);
    }
  }

  lemma NewVoteStays(ns: Nodes, h: History, i: NodeId, n': Node, c: NodeId, t: nat, k: nat)
    requires LeaderLogsOk(ns, h) && LogsOk(ns, h) && AckedSafe(ns, h) && LeadersSafe(ns, h) && CommitsOk(ns, h)
    requires CastsWell(ns, h, i, n', c) && Quiet(ns, h, ns[i := n'], CastVote(h, i, n'.term, c))
    requires Own(h, t, k) && Acked(h, i, t, k) && c in ns
    requires ns[i := n'][c].role.Candidate? && ns[i := n'][c].term == n'.term
    ensures Carried(ns[i := n'], CastVote(h, i, n'.term, c), ns[i := n'][c], t, k)
  {
    NewVoteIsSafe(ns, h, i, n', c, t, k);
    CarriedStable(ns, h, ns[i := n'], CastVote(h, i, n'.term, c), ns[c], ns[i := n'][c], t, k);
  }

  lemma CastVoterAt(ns: Nodes, h: History, i: NodeId, n': Node, c: NodeId, j: NodeId, v: NodeId, t: nat, k: nat)
    requires VotesOk(ns, h) && LeaderLogsOk(ns, h) && LogsOk(ns, h)
    requires AckedSafe(ns, h) && LeadersSafe(ns, h) && VotersSafe(ns, h) && CommitsOk(ns, h)
    requires CastsWell(ns, h, i, n', c) && Quiet(ns, h, ns[i := n'], CastVote(h, i, n'.term, c))
    requires j in ns && ns[i := n'][j].role.Candidate? && t < ns[i := n'][j].term && Own(h, t, k) && Acked(h, v, t, k)
    requires VotedFor(CastVote(h, i, n'.term, c), v, ns[i := n'][j].term, j)
    ensures Carried(ns[i := n'], CastVote(h, i, n'.term, c), ns[i := n'][j], t, k)
  {
    var ns', h' := ns[i := n'], CastVote(h, i, n'.term, c);
    if v == i && j == c && ns'[j].term == n'.term {
      NewVoteStays(ns, h, i, n', c, t, k);
    } else {
      CastOldPair(ns, h, i, n', c, j, v);
      QuietVoter(ns, h, ns', h', j, v, t, k);
    }
  }

  lemma NewVoteIsSafe(ns: Nodes, h: History, i: NodeId, n': Node, c: NodeId, t: nat, k: nat)
    requires LeaderLogsOk(ns, h) && LogsOk(ns, h) && AckedSafe(ns, h) && LeadersSafe(ns, h) && CommitsOk(ns, h)
    requires CastsWell(ns, h, i, n', c) && Own(h, t, k) && Acked(h, i, t, k)
    requires c != i ==> ns[c].role.Candidate? && ns[c].term == n'.term
    ensures Carried(ns, h, ns[c], t, k)
  {
    assert Firm(ns, h, ns[i], t, k);
    if c != i && !Dead(ns, h, t, k) {
      var li, lt :| Coordinates(h, ns[c], li, lt) && UpToDate(ns[i], li, lt);
      VoterReports(ns, h, ns[i], ns[i].term, t, k);
      UpToDateIsSafe(ns, h, ns[c], ns[c].term, li, lt, t, k);
    }
  }

  lemma CastOldPair(ns: Nodes, h: History, i: NodeId, n': Node, c: NodeId, j: NodeId, v: NodeId)
    requires VotesOk(ns, h) && CastsWell(ns, h, i, n', c)
    requires j in ns && ns[i := n'][j].role.Candidate?
    requires VotedFor(CastVote(h, i, n'.term, c), v, ns[i := n'][j].term, j)
    requires !(v == i && j == c && ns[i := n'][j].term == n'.term)
    ensures SameCandidate(ns[j], ns[i := n'][j]) && VotedFor(h, v, ns[j].term, j)
  {
    CastVotes(ns, h, i, n', c);
    assert VotedFor(h, v, ns[i := n'][j].term, j);
    assert VoteOk(ns, v, ns[i := n'][j].term, j);
  }

  lemma CastCommits(ns: Nodes, h: History, i: NodeId, n': Node, c: NodeId)
    requires VotesOk(ns, h) && LeaderLogsOk(ns, h) && CommitInv(ns, h) && CastsWell(ns, h, i, n', c)
    ensures CommitInv(ns[i := n'], CastVote(h, i, n'.term, c))
  {
    var ns', h' := ns[i := n'], CastVote(h, i, n'.term, c);
    CastIsQuiet(ns, h, i, n', c);
    CommitOkWeaken(ns, h, ns[i].log, ns[i].commit, ns[i].term, n'.term);
    CommitOkStable(ns, h, ns', h', ns[i].log, ns[i].commit, n'.term);
    CommitInvFrame(ns, h, ns', h', i);
  }

  lemma CastWellKeeps(ns: Nodes, h: History, i: NodeId, n': Node, c: NodeId)
    requires CoreInv(ns, h) && CastsWell(ns, h, i, n', c)
    ensures CoreInv(ns[i := n'], CastVote(h, i, n'.term, c))
    ensures Grow(ns, h, ns[i := n'], CastVote(h, i, n'.term, c))
  {
    var ns', h' := ns[i := n'], CastVote(h, i, n'.term, c);
    CastIsQuiet(ns, h, i, n', c);
    CastKeeps(ns, h, i, n', c);
    QuietLeaderLogs(ns, h, ns', h');
    QuietLogs(ns, h, ns', h');
    CastAhead(ns, h, i, n', c);
    CastVoters(ns, h, i, n', c);
    QuietAcks(ns, h, ns', h');
    QuietSafe(ns, h, ns', h');
    CastCommits(ns, h, i, n', c);
  }

  // --- Committing at a leader ---

  lemma LeaderHoldsItsLog(ns: Nodes, h: History, i: NodeId, k: nat)
    requires Shape(ns) && RulersOk(ns, h) && LeaderLogsOk(ns, h) && AcksOk(ns, h) && i in ns && ns[i].role.Leader?
    requires 1 <= k && TermAt(ns[i].log, k) == ns[i].term && ns[i].term >= 1
    ensures Own(h, ns[i].term, k) && Acked(h, i, ns[i].term, k) && ns[i].log == LogOf(h, ns[i].term)
  {
  }

  lemma HoldersAreNodes(ns: Nodes, h: History, i: NodeId, k: nat)
    requires Shape(ns) && i in ns && ns[i].role.Leader? && ProgressOk(ns, h, ns[i])
    ensures Holders(ns[i], k) <= ns.Keys && |ns[i].role.matchIndex| + 1 == |ns.Keys|
  {
    var n := ns[i];
    UnionSize(n.peers, {i});
    assert n.peers + {i} == ns.Keys;
    assert |n.role.matchIndex| == |n.role.matchIndex.Keys|;
  }

  /**
   A leader's commit is backed by real acknowledgements: of the entry itself by every node it counts,
   or of a later entry of the same term by some quorum.
   */
  lemma LeaderChooses(ns: Nodes, h: History, i: NodeId, k: nat)
    requires VoteInv(ns, h) && LeaderLogsOk(ns, h) && AcksOk(ns, h) && AllProgressOk(ns, h) && i in ns
    requires ns[i].role.Leader?
    requires IsQuorumIndex(ns[i], k) && k > ns[i].commit && TermAt(ns[i].log, k) == ns[i].term
    ensures ChosenBeyond(ns, h, ns[i].term, k)
  {
    var n := ns[i];
    assert ProgressOk(ns, h, n) && CrownOk(ns, h, n.term);
    LeaderHoldsItsLog(ns, h, i, k);
    HoldersAreNodes(ns, h, i, k);
    var vs := Holders(n, k);
    if v :| v in vs && !Acked(h, v, n.term, k) {
      assert v in n.role.matchIndex && Vouches(ns, h, v, n.term, k);
    } else {
      assert IsQuorum(ns, vs) && AllAcked(h, vs, n.term, k);
      assert Chosen(ns, h, n.term, k);
    }
  }

  lemma LeaderIsBacked(ns: Nodes, h: History, i: NodeId, k: nat)
    requires LeaderLogsOk(ns, h) && i in ns && ns[i].role.Leader? && ChosenBeyond(ns, h, ns[i].term, k)
    requires k <= |ns[i].log|
    ensures CommitOk(ns, h, ns[i].log, k, ns[i].term)
  {
    var k0: nat :| k <= k0 && Chosen(ns, h, ns[i].term, k0);
    assert Backed(ns, h, ns[i].log, k, ns[i].term, k0);
  }

  lemma CommitIsSoft(ns: Nodes, h: History, i: NodeId, k: nat)
    requires LogsOk(ns, h) && AllProgressOk(ns, h) && i in ns && ns[i].role.Leader? && ns[i].commit < k <= |ns[i].log|
    ensures var n' := ns[i].(commit := k); Soft(ns[i], n') && ProgressOk(ns, h, n')
  {
    assert Ordered(ns[i]) && ProgressOk(ns, h, ns[i]);
  }

  lemma CommitKeeps(ns: Nodes, h: History, i: NodeId, k: nat)
    requires CoreInv(ns, h) && i in ns && ns[i].role.Leader? && IsQuorumIndex(ns[i], k)
    requires k > ns[i].commit && TermAt(ns[i].log, k) == ns[i].term
    ensures CoreInv(ns[i := ns[i].(commit := k)], h) && Grow(ns, h, ns[i := ns[i].(commit := k)], h)
  {
    var n' := ns[i].(commit := k);
    assert CrownOk(ns, h, ns[i].term);
    LeaderChooses(ns, h, i, k);
    CommitIsSoft(ns, h, i, k);
    LeaderIsBacked(ns, h, i, k);
    DemureKeeps(ns, h, i, n', h);
    SoftKeeps(ns, h, i, n');
  }
}
