/**
 When a commit index goes back, over every run: a cut leaves the index where it is, so a node may have
 committed past the end of its log, and the next request that names a later index caps it at that end.
 Careful runs never come to that (`RaftSafety.NothingGoesBack`).
 */
module RaftCommit {
  import opened Common
  import opened FsmTypes
  import opened Raft
  import opened Cluster
  import RaftVotes

  /** The request is taken over, names a later commit index, and the log ends before the node's own. */
  predicate EndsShort(n: Node, m: Msg, timeout: nat)
    requires m.AppReq?
  {
    var (n', reply) := HandleAppendEntries(n, m.leader, m.term, m.prev, m.prevTerm, m.entries, m.leaderCommit, timeout);
    reply.success && |n'.log| < n.commit < m.leaderCommit
  }

  ghost predicate TakesUpShort(s: State, s': State, a: NodeId) {
    exists m, t :: OnAppReq(s, s', m, t) && m.dst == a && EndsShort(s.nodes[a], m, t)
  }

  lemma RequestMovesCommit(n: Node, m: Msg, timeout: nat)
    requires m.AppReq?
    ensures var n' := HandleAppendEntries(n, m.leader, m.term, m.prev, m.prevTerm, m.entries, m.leaderCommit,
                timeout).0;
            n'.commit < n.commit <==> EndsShort(n, m, timeout)
  {
    var n2 := ResetHeartbeat(ValidateLeaderRpc(n, m.term, m.leader, timeout).0);
    RaftVotes.CutKeepsRole(n2, m.entries);
  }

  /** Every commit index stands or advances. */
  ghost predicate Advances(s: State, s': State) {
    s'.nodes.Keys == s.nodes.Keys && forall a :: a in s.nodes ==> s.nodes[a].commit <= s'.nodes[a].commit
  }

  lemma CampaignAdvances(s: State, s': State)
    requires NextCampaign(s, s')
    ensures Advances(s, s')
  {
    if i, h, t, c :| Tick(s, s', i, h, t, c) {
    } else if m, t :| OnPreResp(s, s', m, t) {
    } else {
      var c, t :| EndPreVote(s, s', c, t);
    }
  }

  lemma ElectionAdvances(s: State, s': State)
    requires NextElection(s, s')
    ensures Advances(s, s')
  {
    if i, t :| DoStepDown(s, s', i, t) {
    } else if i, m, t :| OnVoteReq(s, s', i, m, t) {
    } else if i, m, t :| OnVoteResp(s, s', i, m, t) {
    } else if i :| ReadTally(s, s', i) {
    } else if i, k :| EndCampaign(s, s', i, k) {
    } else {
      var i, m :| OnPreReq(s, s', i, m);
    }
  }

  lemma CrashAdvances(s: State, s': State, m: Msg, timeout: nat)
    requires CrashInAppend(s, s', m, timeout)
    ensures Advances(s, s')
  {
    RaftVotes.CutKeepsRole(ValidateLeaderRpc(s.nodes[m.dst], m.term, m.leader, timeout).0, m.entries);
  }

  lemma ReplyAdvances(s: State, s': State, i: NodeId, n': Node, m: Msg, timeout: nat)
    requires OnReply(s, s', i, n', m, timeout)
    ensures Advances(s, s')
  {
  }

  lemma LocalAdvances(s: State, s': State)
    requires NextLocal(s, s')
    ensures Advances(s, s')
  {
  }

  lemma RequestMoves(s: State, s': State, m: Msg, timeout: nat, a: NodeId)
    requires OnAppReq(s, s', m, timeout) && a in s.nodes
    ensures a in s'.nodes
    ensures s'.nodes[a].commit < s.nodes[a].commit <==> a == m.dst && EndsShort(s.nodes[a], m, timeout)
  {
    RequestMovesCommit(s.nodes[m.dst], m, timeout);
  }

  lemma StepMoves(s: State, s': State, a: NodeId)
    requires Next(s, s') && a in s.nodes
    ensures a in s'.nodes
    ensures s'.nodes[a].commit < s.nodes[a].commit ==> TakesUpShort(s, s', a)
  {
    if NextCampaign(s, s') {
      CampaignAdvances(s, s');
    } else if NextElection(s, s') {
      ElectionAdvances(s, s');
    } else if NextSend(s, s') {
    } else if NextLocal(s, s') {
      LocalAdvances(s, s');
    } else if m, t :| OnAppReq(s, s', m, t) {
      RequestMoves(s, s', m, t, a);
    } else if m, t :| CrashInAppend(s, s', m, t) {
      CrashAdvances(s, s', m, t);
    } else if m, t :| OnSnapReq(s, s', m, t) {
    } else {
      var i, n, m, t :| OnReply(s, s', i, n, m, t);
      ReplyAdvances(s, s', i, n, m, t);
    }
  }

  /**
   In every run, careful or not, a commit index goes back in exactly those steps in which the node takes
   over a request that names a later index while its log then ends before the node's own.
   */
  lemma CommitGoesBack(run: seq<State>, i: nat, a: NodeId)
    requires Behaviour(run) && i + 1 < |run| && a in run[i].nodes
    ensures a in run[i + 1].nodes
    ensures run[i + 1].nodes[a].commit < run[i].nodes[a].commit <==> TakesUpShort(run[i], run[i + 1], a)
  {
    assert StepAt(run, i);
    StepMoves(run[i], run[i + 1], a);
    if m, t :| OnAppReq(run[i], run[i + 1], m, t) && m.dst == a && EndsShort(run[i].nodes[a], m, t) {
      RequestMoves(run[i], run[i + 1], m, t, a);
    }
  }
}
