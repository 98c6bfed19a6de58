/** Steps that give a term its leader's log, or extend it: promotion and proposals. */
module RaftLogs {
  import opened Common
  import opened FsmTypes
  import opened Raft
  import opened Cluster
  import opened RaftVotes
  import opened RaftInv
  import opened RaftQuiet

  // --- Promotion ---

  /** A winner's tail holds only earlier terms. */
  lemma WinnerIsBehind(ns: Nodes, h: History, i: NodeId, ws: set<NodeId>, k: nat)
    requires VoteInv(ns, h) && LeaderLogsOk(ns, h) && LogsOk(ns, h) && AheadLogsLose(ns, h) && Wins(ns, h, i, ws)
    requires ns[i].commit <= k < |ns[i].log|
    ensures ns[i].log[k].term < ns[i].term
  {
    var t := ns[i].log[k].term;
    assert TailFits(h, ns[i]);
    TailEntry(h, ns[i], k);
    LeaderEntryIsOwn(ns, h, LastTerm(ns[i].log), k);
    assert CrownOk(ns, h, t);
    if t >= ns[i].term {
      assert NotElectedBy(h, t, ns[i].term, i);
      var _ := QuorumsIntersect(ns.Keys, ws, h.quorumOf[t]);
    }
  }

  /** The winner carries what is chosen in an earlier term, and its tail is no older. */
  lemma WinnerCarriesChosen(ns: Nodes, h: History, i: NodeId, ws: set<NodeId>, t: nat, k: nat)
    requires VotersSafe(ns, h) && Wins(ns, h, i, ws) && t < ns[i].term && Chosen(ns, h, t, k)
    ensures Holds(h, ns[i].log, t, k) && (|ns[i].log| > ns[i].commit ==> LastTerm(ns[i].log) >= t)
  {
    var vs :| IsQuorum(ns, vs) && AllAcked(h, vs, t, k);
    var v := QuorumsIntersect(ns.Keys, vs, ws);
    assert VotedFor(h, v, ns[i].term, i) && Acked(h, v, t, k);
    ChosenIsAlive(ns, h, t, k);
  }

  /** What a winner has committed was chosen in an earlier term. */
  lemma WinnersCommit(ns: Nodes, h: History, i: NodeId, ws: set<NodeId>) returns (t: nat, k: nat)
    requires CandidatesOk(ns, h) && CrownsOk(ns, h) && LeaderLogsOk(ns, h) && CommitsOk(ns, h)
    requires Wins(ns, h, i, ws) && ns[i].commit > 0
    ensures t < ns[i].term && Backed(ns, h, ns[i].log, ns[i].commit, t, k)
  {
    assert CommitOk(ns, h, ns[i].log, ns[i].commit, ns[i].term);
    t, k :| t <= ns[i].term && Backed(ns, h, ns[i].log, ns[i].commit, t, k);
    TermIsFree(ns, h, i, ws);
    assert Own(h, t, k);
  }

  /** A log whose committed part and tail lie in one leader's log lies in it as a whole. */
  lemma TailAndSettled(h: History, n: Node)
    requires TailFits(h, n) && n.commit < |n.log|
    requires n.commit <= |LogOf(h, LastTerm(n.log))| && n.log[..n.commit] == LogOf(h, LastTerm(n.log))[..n.commit]
    ensures |n.log| <= |LogOf(h, LastTerm(n.log))| && n.log == LogOf(h, LastTerm(n.log))[..|n.log|]
  {
    var tail := LogOf(h, LastTerm(n.log));
    assert n.log == n.log[..n.commit] + n.log[n.commit..];
    assert tail[..|n.log|] == tail[..n.commit] + tail[n.commit..|n.log|];
  }

  /** The tail of a winner's log continues its committed part in one leader's log. */
  lemma WinnersTail(ns: Nodes, h: History, i: NodeId, ws: set<NodeId>)
    requires CandidatesOk(ns, h) && CrownsOk(ns, h) && LeaderLogsOk(ns, h) && LeadersSafe(ns, h) && VotersSafe(ns, h)
    requires CommitsOk(ns, h) && Wins(ns, h, i, ws) && |ns[i].log| > ns[i].commit && TailFits(h, ns[i])
    ensures var n := ns[i]; |n.log| <= |LogOf(h, LastTerm(n.log))| && n.log == LogOf(h, LastTerm(n.log))[..|n.log|]
  {
    var n := ns[i];
    if n.commit > 0 {
      var t, k := WinnersCommit(ns, h, i, ws);
      WinnerCarriesChosen(ns, h, i, ws, t, k);
      TailEntry(h, n, n.commit);
      BackedIsCarried(ns, h, n.log, n.commit, t, k, LastTerm(n.log));
    }
    TailAndSettled(h, n);
  }

  predicate CleanBelow(h: History, log: seq<Entry>, bound: nat) {
    Tracks(h, log) && forall k :: 0 <= k < |log| ==> log[k].term < bound
  }

  lemma PrefixIsClean(ns: Nodes, h: History, log: seq<Entry>, t: nat, bound: nat)
    requires LeaderLogsOk(ns, h) && t < bound && |log| <= |LogOf(h, t)| && log == LogOf(h, t)[..|log|]
    ensures CleanBelow(h, log, bound)
  {
    if |log| > 0 {
      assert LeaderLogOk(h, t);
      PrefixTracks(h, LogOf(h, t), |log|);
      forall k | 0 <= k < |log| ensures log[k].term < bound {
        assert log[k] == LogOf(h, t)[k];
      }
    }
  }

  /** A winner's log is a leader's log again, whatever restores it went through, of earlier terms only. */
  lemma WinnerIsClean(ns: Nodes, h: History, i: NodeId, ws: set<NodeId>)
    requires VoteInv(ns, h) && LeaderLogsOk(ns, h) && LogsOk(ns, h) && AheadLogsLose(ns, h) && LeadersSafe(ns, h)
    requires VotersSafe(ns, h) && CommitsOk(ns, h) && Wins(ns, h, i, ws)
    ensures CleanBelow(h, ns[i].log, ns[i].term)
  {
    var n := ns[i];
    assert Ordered(n) && TailFits(h, n);
    if |n.log| > n.commit {
      WinnersTail(ns, h, i, ws);
      WinnerIsBehind(ns, h, i, ws, |n.log| - 1);
      PrefixIsClean(ns, h, n.log, LastTerm(n.log), n.term);
    } else if n.commit > 0 {
      var t, k := WinnersCommit(ns, h, i, ws);
      assert n.log == n.log[..n.commit];
      PrefixIsClean(ns, h, n.log, t, n.term);
    }
  }

  /** A crown is given: the history gains the winner's log under its term. */
  ghost predicate Crowns(ns: Nodes, h: History, ns': Nodes, h': History, i: NodeId) {
    && i in ns && ns[i].role.Candidate? && ns' == ns[i := Promoted(ns[i])] && h' == Enthrone(h, Promoted(ns[i]))
    && ns[i].term !in h.leaderOf && h.leaderLog.Keys == h.leaderOf.Keys && VoteGrow(ns, h, ns', h')
    && CleanBelow(h, ns[i].log, ns[i].term)
  }

  lemma CrownsGrowAll(ns: Nodes, h: History, ns': Nodes, h': History, i: NodeId)
    requires Crowns(ns, h, ns', h', i)
    ensures Grow(ns, h, ns', h')
    ensures forall t :: t != ns[i].term ==> LogOf(h', t) == LogOf(h, t)
    ensures LogOf(h, ns[i].term) == [] && LogOf(h', ns[i].term) == ns[i].log
    ensures forall t: nat, k: nat :: Own(h', t, k) <==> Own(h, t, k)
  {
    forall t ensures LogOf(h, t) <= LogOf(h', t) {
    }
  }

  lemma CrownLeaderLogs(ns: Nodes, h: History, ns': Nodes, h': History, i: NodeId)
    requires Crowns(ns, h, ns', h', i) && LeaderLogsOk(ns, h) && RulersOk(ns, h)
    ensures LeaderLogsOk(ns', h')
  {
    CrownsGrowAll(ns, h, ns', h', i);
    forall t | t in h'.leaderLog ensures LeaderLogOk(h', t) {
      if t == ns[i].term {
        TracksStable(h, h', ns[i].log);
      } else {
        assert LeaderLogOk(h, t);
        TracksStable(h, h', h.leaderLog[t]);
      }
    }
  }

  lemma CrownLogs(ns: Nodes, h: History, ns': Nodes, h': History, i: NodeId)
    requires Crowns(ns, h, ns', h', i) && LogsOk(ns, h)
    ensures LogsOk(ns', h')
  {
    CrownsGrowAll(ns, h, ns', h', i);
    forall j | j in ns' ensures Ordered(ns'[j]) && TailFits(h', ns'[j]) && BelowOk(h', ns'[j]) {
      assert Ordered(ns[j]) && TailFits(h, ns[j]) && BelowOk(h, ns[j]);
      LogFrame(h, h', ns[j], ns'[j]);
    }
  }

  lemma CrownAhead(ns: Nodes, h: History, ns': Nodes, h': History, i: NodeId)
    requires Crowns(ns, h, ns', h', i) && CrownsOk(ns, h) && LeaderLogsOk(ns, h) && LogsOk(ns, h)
    requires AheadLogsLose(ns, h)
    ensures AheadLogsLose(ns', h')
  {
    forall j, k | j in ns' && ns'[j].role.Candidate? && ns'[j].commit <= k < |ns'[j].log|
        && ns'[j].log[k].term >= ns'[j].term
      ensures NotElectedBy(h', ns'[j].log[k].term, ns'[j].term, j)
    {
      CrownAheadAt(ns, h, ns', h', i, j, k);
    }
  }

  lemma CrownAheadAt(ns: Nodes, h: History, ns': Nodes, h': History, i: NodeId, j: NodeId, k: nat)
    requires Crowns(ns, h, ns', h', i) && CrownsOk(ns, h) && LeaderLogsOk(ns, h) && LogsOk(ns, h)
    requires j in ns && ns[j].commit <= k < |ns[j].log| && NotElectedBy(h, ns[j].log[k].term, ns[j].term, j)
    ensures NotElectedBy(h', ns[j].log[k].term, ns[j].term, j)
  {
    var t := ns[j].log[k].term;
    assert TailFits(h, ns[j]);
    TailEntry(h, ns[j], k);
    LeaderEntryIsOwn(ns, h, LastTerm(ns[j].log), k);
    forall v | t in h'.quorumOf && v in h'.quorumOf[t] ensures !VotedFor(h', v, ns[j].term, j) {
      assert v in h.quorumOf[t] && !VotedFor(h, v, ns[j].term, j);
    }
  }

  lemma CrownAcks(ns: Nodes, h: History, ns': Nodes, h': History, i: NodeId)
    requires Crowns(ns, h, ns', h', i) && AcksOk(ns, h)
    ensures AcksOk(ns', h')
  {
    CrownsGrowAll(ns, h, ns', h', i);
    forall v, t, k | Acked(h', v, t, k) ensures AckOk(ns', h', v, t, k) {
      assert Acked(h, v, t, k);
      assert AckOk(ns, h, v, t, k);
    }
    forall t, k | t in h'.leaderOf && Own(h', t, k) ensures Acked(h', h'.leaderOf[t], t, k) {
      assert Own(h, t, k) && t != ns[i].term;
    }
  }

  lemma CrownAcked(ns: Nodes, h: History, ns': Nodes, h': History, i: NodeId)
    requires Crowns(ns, h, ns', h', i) && AckedSafe(ns, h)
    ensures AckedSafe(ns', h')
  {
    CrownsGrowAll(ns, h, ns', h', i);
    forall v, t, k | v in ns' && Own(h', t, k) && Acked(h', v, t, k) ensures Firm(ns', h', ns'[v], t, k) {
      assert Own(h, t, k) && Acked(h, v, t, k);
      assert Firm(ns, h, ns[v], t, k);
      if Dead(ns, h, t, k) { DeadStable(ns, h, ns', h', t, k); } else { HoldsStable(h, h', ns[v].log, t, k); }
    }
  }

  lemma CrownVoters(ns: Nodes, h: History, ns': Nodes, h': History, i: NodeId)
    requires Crowns(ns, h, ns', h', i) && VotersSafe(ns, h)
    ensures VotersSafe(ns', h')
  {
    CrownsGrowAll(ns, h, ns', h', i);
    forall j, v, t: nat, k: nat |
      j in ns' && ns'[j].role.Candidate? && VotedFor(h', v, ns'[j].term, j)
      && t < ns'[j].term && Own(h', t, k) && Acked(h', v, t, k)
      ensures Carried(ns', h', ns'[j], t, k)
    {
      assert VotedFor(h, v, ns[j].term, j) && Own(h, t, k) && Acked(h, v, t, k);
      assert Carried(ns, h, ns[j], t, k);
      if Dead(ns, h, t, k) { DeadStable(ns, h, ns', h', t, k); } else { HoldsStable(h, h', ns[j].log, t, k); }
    }
  }

  /** The new leader carries every earlier leader's entry that is not dead. */
  lemma WinnerCarries(ns: Nodes, h: History, i: NodeId, ws: set<NodeId>, t: nat, k: nat)
    requires VotesOk(ns, h) && VotersSafe(ns, h) && Wins(ns, h, i, ws) && t < ns[i].term && Own(h, t, k)
    ensures Safe(ns, h, ns[i].log, t, k)
  {
    if v :| v in ws && Acked(h, v, t, k) {
      assert VotedFor(h, v, ns[i].term, i);
      assert Carried(ns, h, ns[i], t, k);
    } else {
      forall v | v in ws ensures v in ns && ns[v].term > t && !Acked(h, v, t, k) {
        assert VotedFor(h, v, ns[i].term, i);
        assert VoteOk(ns, v, ns[i].term, i);
      }
      assert AllPassed(ns, h, ws, t, k);
    }
  }

  lemma CrownLeads(ns: Nodes, h: History, ns': Nodes, h': History, i: NodeId, ws: set<NodeId>)
    requires Crowns(ns, h, ns', h', i) && VotesOk(ns, h) && LeadersSafe(ns, h) && VotersSafe(ns, h)
    requires Wins(ns, h, i, ws)
    ensures LeadersSafe(ns', h')
  {
    CrownsGrowAll(ns, h, ns', h', i);
    forall t, k, u | t < u && u in h'.leaderLog && Own(h', t, k) ensures Safe(ns', h', LogOf(h', u), t, k) {
      assert Own(h, t, k);
      if u == ns[i].term {
        WinnerCarries(ns, h, i, ws, t, k);
      }
      SafeStable(ns, h, ns', h', LogOf(h', u), t, k);
    }
  }

  lemma CrownCommits(ns: Nodes, h: History, ns': Nodes, h': History, i: NodeId)
    requires Crowns(ns, h, ns', h', i) && LeaderLogsOk(ns, h) && CommitInv(ns, h)
    ensures CommitInv(ns', h')
  {
    CrownsGrowAll(ns, h, ns', h', i);
    CommitOkStable(ns, h, ns', h', ns[i].log, ns[i].commit, ns[i].term);
    CommitInvFrame(ns, h, ns', h', i);
  }

  lemma WinnerIsCrowned(ns: Nodes, h: History, i: NodeId, ws: set<NodeId>)
    requires CoreInv(ns, h) && Wins(ns, h, i, ws)
    ensures Crowns(ns, h, ns[i := Promoted(ns[i])], Enthrone(h, Promoted(ns[i])), i)
  {
    TermIsFree(ns, h, i, ws);
    PromoteGrows(ns, h, i);
    WinnerIsClean(ns, h, i, ws);
  }

  lemma CrownKeeps(ns: Nodes, h: History, i: NodeId, ws: set<NodeId>)
    requires CoreInv(ns, h) && Wins(ns, h, i, ws)
    ensures CoreInv(ns[i := Promoted(ns[i])], Enthrone(h, Promoted(ns[i])))
    ensures Grow(ns, h, ns[i := Promoted(ns[i])], Enthrone(h, Promoted(ns[i])))
  {
    var ns', h' := ns[i := Promoted(ns[i])], Enthrone(h, Promoted(ns[i]));
    WinnerIsCrowned(ns, h, i, ws);
    PromoteKeeps(ns, h, i, ws);
    CrownsGrowAll(ns, h, ns', h', i);
    CrownLeaderLogs(ns, h, ns', h', i);
    CrownLogs(ns, h, ns', h', i);
    CrownAhead(ns, h, ns', h', i);
    CrownAcks(ns, h, ns', h', i);
    CrownAcked(ns, h, ns', h', i);
    CrownVoters(ns, h, ns', h', i);
    CrownLeads(ns, h, ns', h', i, ws);
    CrownCommits(ns, h, ns', h', i);
  }

  // --- Proposals ---

  /** The leader `i` extends its log by an entry of its term, and acknowledges it to itself. */
  ghost predicate Extends(n: Node, n': Node) {
    && n.role.Leader? && n' == n.(log := n'.log)
    && |n'.log| == |n.log| + 1 && n.log <= n'.log
    && n'.log[|n.log|].term == n.term && n'.log[|n.log|].index == |n.log| + 1
  }

  ghost predicate Proposes(ns: Nodes, h: History, ns': Nodes, h': History, i: NodeId) {
    && i in ns && i in ns' && ns' == ns[i := ns'[i]] && Extends(ns[i], ns'[i]) && ns[i].id == i
    && Leads(h, ns[i].term, i) && ns[i].term in h.leaderLog && h.leaderLog[ns[i].term] == ns[i].log
    && h' == NoteEntry(h, ns'[i]) && ns[i].term >= 1 && NextsOk(ns[i])
  }

  lemma ProposalExtends(ns: Nodes, h: History, i: NodeId, data: Payload)
    requires VoteInv(ns, h) && LeaderLogsOk(ns, h) && i in ns && ns[i].role.Leader?
    ensures var n' := Propose(ns[i], data); Proposes(ns, h, ns[i := n'], NoteEntry(h, n'), i)
  {
    assert CrownOk(ns, h, ns[i].term);
  }

  lemma ProposeGrows(ns: Nodes, h: History, ns': Nodes, h': History, i: NodeId)
    requires Proposes(ns, h, ns', h', i)
    ensures Grow(ns, h, ns', h')
    ensures forall u :: u != ns[i].term ==> LogOf(h', u) == LogOf(h, u)
    ensures LogOf(h, ns[i].term) == ns[i].log && LogOf(h', ns[i].term) == ns'[i].log
    ensures forall v, t, k :: Acked(h', v, t, k) <==>
                              Acked(h, v, t, k) || (v == i && t == ns[i].term && k == |ns'[i].log|)
  {
    DemureGrows(ns, h, i, ns'[i], h');
    forall t ensures LogOf(h, t) <= LogOf(h', t) {
    }
  }

  lemma ProposeTracks(ns: Nodes, h: History, ns': Nodes, h': History, i: NodeId)
    requires Proposes(ns, h, ns', h', i) && Tracks(h, ns[i].log)
    ensures Tracks(h', ns'[i].log)
  {
    var log, log' := ns[i].log, ns'[i].log;
    ProposeGrows(ns, h, ns', h', i);
    TracksStable(h, h', log);
    forall k | 0 <= k < |log'| ensures TracksAt(h', log', k) {
      if k < |log| {
        assert TracksAt(h', log, k);
        assert log'[..k + 1] == log[..k + 1];
      }
    }
  }

  lemma ProposeLeaderLogs(ns: Nodes, h: History, ns': Nodes, h': History, i: NodeId)
    requires Proposes(ns, h, ns', h', i) && LeaderLogsOk(ns, h) && RulersOk(ns, h)
    ensures LeaderLogsOk(ns', h')
  {
    ProposeGrows(ns, h, ns', h', i);
    forall t | t in h'.leaderLog ensures LeaderLogOk(h', t) {
      assert LeaderLogOk(h, t);
      if t == ns[i].term {
        ProposeTracks(ns, h, ns', h', i);
      } else {
        TracksStable(h, h', h.leaderLog[t]);
      }
    }
  }

  lemma ProposeLogs(ns: Nodes, h: History, ns': Nodes, h': History, i: NodeId)
    requires Proposes(ns, h, ns', h', i) && LogsOk(ns, h)
    ensures LogsOk(ns', h')
  {
    ProposeGrows(ns, h, ns', h', i);
    forall j | j in ns' ensures Ordered(ns'[j]) && TailFits(h', ns'[j]) && BelowOk(h', ns'[j]) {
      assert Ordered(ns[j]) && TailFits(h, ns[j]) && BelowOk(h, ns[j]);
      if j == i {
        BelowStable(h, h', ns[i]);
      } else {
        LogFrame(h, h', ns[j], ns'[j]);
      }
    }
  }

  lemma ProposeAhead(ns: Nodes, h: History, ns': Nodes, h': History, i: NodeId)
    requires Proposes(ns, h, ns', h', i) && AheadLogsLose(ns, h)
    ensures AheadLogsLose(ns', h')
  {
    forall j, k | j in ns' && ns'[j].role.Candidate? && ns'[j].commit <= k < |ns'[j].log|
        && ns'[j].log[k].term >= ns'[j].term
      ensures NotElectedBy(h', ns'[j].log[k].term, ns'[j].term, j)
    {
      assert NotElectedBy(h, ns[j].log[k].term, ns[j].term, j);
      forall v | ns[j].log[k].term in h.quorumOf && v in h.quorumOf[ns[j].log[k].term]
        ensures !VotedFor(h', v, ns[j].term, j)
      {
        assert !VotedFor(h, v, ns[j].term, j);
      }
    }
  }

  lemma ProposeAcks(ns: Nodes, h: History, ns': Nodes, h': History, i: NodeId)
    requires Proposes(ns, h, ns', h', i) && AcksOk(ns, h)
    ensures AcksOk(ns', h')
  {
    ProposeGrows(ns, h, ns', h', i);
    forall v, t, k | Acked(h', v, t, k) ensures AckOk(ns', h', v, t, k) {
      if Acked(h, v, t, k) {
        assert AckOk(ns, h, v, t, k);
        assert LogOf(h, t) <= LogOf(h', t);
      }
    }
    forall t: nat, k: nat | t in h'.leaderOf && Own(h', t, k) ensures Acked(h', h'.leaderOf[t], t, k) {
      if k <= |LogOf(h, t)| {
        OwnStable(h, h', t, k);
      }
    }
  }

  /** An entry someone acknowledged is an old one, or the leader's newest. */
  lemma AckedIsOld(ns: Nodes, h: History, ns': Nodes, h': History, i: NodeId, v: NodeId, t: nat, k: nat)
    requires Proposes(ns, h, ns', h', i) && AcksOk(ns, h) && Own(h', t, k) && Acked(h, v, t, k)
    ensures Own(h, t, k)
  {
    assert AckOk(ns, h, v, t, k);
    ProposeGrows(ns, h, ns', h', i);
    OwnStable(h, h', t, k);
  }

  lemma GrownFirm(ns: Nodes, h: History, ns': Nodes, h': History, i: NodeId, t: nat, k: nat)
    requires Proposes(ns, h, ns', h', i) && Own(h, t, k) && Firm(ns, h, ns[i], t, k)
    requires t <= ns[i].term
    ensures Firm(ns', h', ns'[i], t, k)
  {
    ProposeGrows(ns, h, ns', h', i);
    if Dead(ns, h, t, k) {
      DeadStable(ns, h, ns', h', t, k);
    } else {
      HoldsStable(h, h', ns[i].log, t, k);
      assert ns'[i].log[..k] == ns[i].log[..k];
    }
  }

  lemma ProposeAcked(ns: Nodes, h: History, ns': Nodes, h': History, i: NodeId)
    requires Proposes(ns, h, ns', h', i) && AcksOk(ns, h) && AckedSafe(ns, h) && LogsOk(ns, h)
    ensures AckedSafe(ns', h')
  {
    ProposeGrows(ns, h, ns', h', i);
    forall v, t, k | v in ns' && Own(h', t, k) && Acked(h', v, t, k) ensures Firm(ns', h', ns'[v], t, k) {
      if Acked(h, v, t, k) {
        AckedIsOld(ns, h, ns', h', i, v, t, k);
        assert AckOk(ns, h, v, t, k) && Firm(ns, h, ns[v], t, k);
        if v == i {
          GrownFirm(ns, h, ns', h', i, t, k);
        } else {
          FirmStable(ns, h, ns', h', ns[v], ns'[v], t, k);
        }
      } else {
        assert Ordered(ns[i]);
        assert Holds(h', ns'[i].log, t, k);
      }
    }
  }

  lemma LateVoterHasPassed(ns: Nodes, h: History, ns': Nodes, h': History, i: NodeId, u: nat, v: NodeId)
    requires Proposes(ns, h, ns', h', i) && AcksOk(ns, h) && VoteInv(ns, h) && u in h.leaderOf
    requires u > ns[i].term && v in h.quorumOf[u]
    ensures v in ns' && ns'[v].term > ns[i].term && !Acked(h', v, ns[i].term, |ns[i].log| + 1)
  {
    ProposeGrows(ns, h, ns', h', i);
    assert CrownOk(ns, h, u);
    assert VotedFor(h, v, u, h.leaderOf[u]);
    assert VoteOk(ns, v, u, h.leaderOf[u]);
    assert Acked(h, v, ns[i].term, |ns[i].log| + 1) ==> AckOk(ns, h, v, ns[i].term, |ns[i].log| + 1);
  }

  /** The new entry is dead as soon as a later term has a leader. */
  lemma LateProposalIsDead(ns: Nodes, h: History, ns': Nodes, h': History, i: NodeId, u: nat)
    requires Proposes(ns, h, ns', h', i) && AcksOk(ns, h) && VoteInv(ns, h) && u in h.leaderOf
    requires u > ns[i].term
    ensures Dead(ns', h', ns[i].term, |ns[i].log| + 1)
  {
    var vs := h.quorumOf[u];
    assert CrownOk(ns, h, u);
    forall v | v in vs ensures v in ns' && ns'[v].term > ns[i].term && !Acked(h', v, ns[i].term, |ns[i].log| + 1) {
      LateVoterHasPassed(ns, h, ns', h', i, u, v);
    }
    assert ns'.Keys == ns.Keys;
    assert IsQuorum(ns', vs) && AllPassed(ns', h', vs, ns[i].term, |ns[i].log| + 1);
  }

  /** An old entry that was safe in a log is safe in any extension of the log. */
  lemma GrownSafe(ns: Nodes, h: History, ns': Nodes, h': History, log: seq<Entry>, log': seq<Entry>, t: nat, k: nat)
    requires Grow(ns, h, ns', h') && log <= log' && k <= |LogOf(h, t)| && Safe(ns, h, log, t, k)
    ensures Safe(ns', h', log', t, k)
  {
    SafeStable(ns, h, ns', h', log, t, k);
    if Holds(h', log, t, k) { assert log'[..k] == log[..k]; }
  }

  lemma ProposeCarried(ns: Nodes, h: History, ns': Nodes, h': History, i: NodeId)
    requires Proposes(ns, h, ns', h', i) && VoteInv(ns, h) && LeaderLogsOk(ns, h) && AcksOk(ns, h) && LeadersSafe(ns, h)
    ensures LeadersSafe(ns', h')
  {
    ProposeGrows(ns, h, ns', h', i);
    forall t, k, u | t < u && u in h'.leaderLog && Own(h', t, k) ensures Safe(ns', h', LogOf(h', u), t, k) {
      if t == ns[i].term && k == |ns[i].log| + 1 {
        LateProposalIsDead(ns, h, ns', h', i, u);
      } else {
        OwnStable(h, h', t, k);
        assert LogOf(h, u) <= LogOf(h', u);
        GrownSafe(ns, h, ns', h', LogOf(h, u), LogOf(h', u), t, k);
      }
    }
  }

  lemma ProposeVoters(ns: Nodes, h: History, ns': Nodes, h': History, i: NodeId)
    requires Proposes(ns, h, ns', h', i) && VotesOk(ns, h) && AcksOk(ns, h) && VotersSafe(ns, h)
    ensures VotersSafe(ns', h')
  {
    ProposeGrows(ns, h, ns', h', i);
    forall j, v, t: nat, k: nat |
      j in ns' && ns'[j].role.Candidate? && VotedFor(h', v, ns'[j].term, j)
      && t < ns'[j].term && Own(h', t, k) && Acked(h', v, t, k)
      ensures Carried(ns', h', ns'[j], t, k)
    {
      assert VotedFor(h, v, ns[j].term, j);
      assert VoteOk(ns, v, ns[j].term, j);
      AckedIsOld(ns, h, ns', h', i, v, t, k);
      CarriedStable(ns, h, ns', h', ns[j], ns'[j], t, k);
    }
  }

  lemma ProposerCommits(ns: Nodes, h: History, ns': Nodes, h': History, n: Node, n': Node)
    requires Grow(ns, h, ns', h') && Extends(n, n') && Ordered(n) && CommitOk(ns, h, n.log, n.commit, n.term)
    ensures CommitOk(ns', h', n'.log, n'.commit, n'.term)
  {
    CommitOkStable(ns, h, ns', h', n.log, n.commit, n.term);
    assert n'.log[..n.commit] == n.log[..n.commit];
    CommitOkExtends(ns', h', n.log, n'.log, n.commit, n.term);
  }

  lemma ProposeCommits(ns: Nodes, h: History, ns': Nodes, h': History, i: NodeId)
    requires Proposes(ns, h, ns', h', i) && LeaderLogsOk(ns, h) && LogsOk(ns, h) && CommitInv(ns, h)
    ensures CommitInv(ns', h')
  {
    ProposeGrows(ns, h, ns', h', i);
    assert Ordered(ns[i]) && ProgressOk(ns, h, ns[i]);
    ProposerCommits(ns, h, ns', h', ns[i], ns'[i]);
    ProgressFrame(ns, h, ns', h', ns[i], ns'[i]);
    CommitInvFrame(ns, h, ns', h', i);
  }

  lemma ProposeElection(ns: Nodes, h: History, ns': Nodes, h': History, i: NodeId)
    requires Proposes(ns, h, ns', h', i) && ElectionInv(ns, h)
    ensures ElectionInv(ns', h')
  {
    DemureKeeps(ns, h, i, ns'[i], h');
    ProposeLeaderLogs(ns, h, ns', h', i);
    ProposeLogs(ns, h, ns', h', i);
    ProposeAhead(ns, h, ns', h', i);
  }

  lemma ProposeSafety(ns: Nodes, h: History, ns': Nodes, h': History, i: NodeId)
    requires Proposes(ns, h, ns', h', i) && ElectionInv(ns, h) && SafetyInv(ns, h)
    ensures SafetyInv(ns', h')
  {
    ProposeAcks(ns, h, ns', h', i);
    ProposeAcked(ns, h, ns', h', i);
    ProposeCarried(ns, h, ns', h', i);
    ProposeVoters(ns, h, ns', h', i);
  }

  lemma ProposeKeeps(ns: Nodes, h: History, i: NodeId, data: Payload)
    requires CoreInv(ns, h) && i in ns && ns[i].role.Leader?
    ensures CoreInv(ns[i := Propose(ns[i], data)], NoteEntry(h, Propose(ns[i], data)))
    ensures Grow(ns, h, ns[i := Propose(ns[i], data)], NoteEntry(h, Propose(ns[i], data)))
  {
    var ns', h' := ns[i := Propose(ns[i], data)], NoteEntry(h, Propose(ns[i], data));
    ProposalExtends(ns, h, i, data);
    ProposeGrows(ns, h, ns', h', i);
    ProposeElection(ns, h, ns', h', i);
    ProposeSafety(ns, h, ns', h', i);
    ProposeCommits(ns, h, ns', h', i);
  }
}
