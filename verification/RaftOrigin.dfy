/**
 Where entries come from: what holds of every payload that leaders propose holds of every payload in
 a leader's log, whatever elections and restores come between, and so of everything committed.
 */
module RaftOrigin {
  import opened Common
  import opened FsmTypes
  import opened Raft
  import opened Cluster
  import opened RaftVotes
  import opened RaftInv
  import opened RaftSafety
  import RaftEvents
  import RaftLogs
  import RaftNet

  /** What a leader proposes in the step satisfies `ok`. */
  ghost predicate ProposesOnly(s: State, s': State, ok: Payload -> bool) {
    forall i, data :: ClientPropose(s, s', i, data) ==> ok(data)
  }

  /** Every payload in a leader's log. */
  ghost predicate AllLogged(h: History, ok: Payload -> bool) {
    forall t, k :: t in h.leaderLog && 0 <= k < |h.leaderLog[t]| ==> ok(h.leaderLog[t][k].data)
  }

  lemma CleanEntryIsLogged(h: History, log: seq<Entry>, k: nat, ok: Payload -> bool)
    requires Tracks(h, log) && k < |log| && AllLogged(h, ok)
    ensures ok(log[k].data)
  {
    assert TracksAt(h, log, k);
    assert log[k] == log[..k + 1][k] == LogOf(h, log[k].term)[..k + 1][k];
  }

  lemma AnotherLog(h: History, h': History, t: nat, log: seq<Entry>, ok: Payload -> bool)
    requires AllLogged(h, ok) && h'.leaderLog == h.leaderLog[t := log]
    requires forall k :: 0 <= k < |log| ==> ok(log[k].data)
    ensures AllLogged(h', ok)
  {
  }

  lemma CrownLogs(s: State, s': State, i: NodeId, ws: set<NodeId>, ok: Payload -> bool)
    requires RaftNet.Inv(s) && PromotionTo(s, s', i, ws) && AllLogged(s.hist, ok)
    ensures AllLogged(s'.hist, ok)
  {
    RaftLogs.WinnerIsCrowned(s.nodes, s.hist, i, ws);
    forall k | 0 <= k < |s.nodes[i].log| ensures ok(s.nodes[i].log[k].data) {
      CleanEntryIsLogged(s.hist, s.nodes[i].log, k, ok);
    }
    AnotherLog(s.hist, s'.hist, s.nodes[i].term, s.nodes[i].log, ok);
  }

  lemma ElectionLogs(s: State, s': State, ok: Payload -> bool)
    requires RaftNet.Inv(s) && NextElection(s, s') && AllLogged(s.hist, ok)
    ensures AllLogged(s'.hist, ok)
  {
    if i, m, t :| OnVoteResp(s, s', i, m, t) {
      assert MsgFair(s.nodes, s.hist, m);
      VoteRespIs(s, s', i, m, t);
      if s.nodes[i].role.Candidate? && PromotionTo(s, s', i, s.nodes[i].role.votes + {m.voter}) {
        CrownLogs(s, s', i, s.nodes[i].role.votes + {m.voter}, ok);
      }
    } else if i, k :| EndCampaign(s, s', i, k) {
      EndCampaignIs(s, s', i, k);
      if s.nodes[i].role.Candidate? && PromotionTo(s, s', i, s.nodes[i].role.votes) {
        CrownLogs(s, s', i, s.nodes[i].role.votes, ok);
      }
    }
  }

  lemma LongerLog(h: History, n: Node, data: Payload, ok: Payload -> bool)
    requires n.role.Leader? && LogOf(h, n.term) == n.log && AllLogged(h, ok) && ok(data)
    ensures AllLogged(NoteEntry(h, Propose(n, data)), ok)
  {
    var log := Propose(n, data).log;
    forall k | 0 <= k < |log| ensures ok(log[k].data) {
      if k < |n.log| { assert log[k] == LogOf(h, n.term)[k]; }
    }
    AnotherLog(h, NoteEntry(h, Propose(n, data)), n.term, log, ok);
  }

  lemma ProposalIs(s: State, s': State, i: NodeId, data: Payload)
    requires ClientPropose(s, s', i, data)
    ensures i in s.nodes && s.nodes[i].role.Leader? && s'.hist == NoteEntry(s.hist, Propose(s.nodes[i], data))
  {
  }

  lemma ProposalLogs(s: State, s': State, i: NodeId, data: Payload, ok: Payload -> bool)
    requires RaftNet.Inv(s) && ClientPropose(s, s', i, data) && ok(data) && AllLogged(s.hist, ok)
    ensures AllLogged(s'.hist, ok)
  {
    ProposalIs(s, s', i, data);
    LeaderIsRecorded(s, i);
    LongerLog(s.hist, s.nodes[i], data, ok);
  }

  lemma CampaignKeepsLogs(s: State, s': State)
    requires NextCampaign(s, s')
    ensures s'.hist.leaderLog == s.hist.leaderLog
  {
    if i, h, t, c :| Tick(s, s', i, h, t, c) {
    } else if m, t :| OnPreResp(s, s', m, t) {
    } else {
      var c, t :| EndPreVote(s, s', c, t);
    }
  }

  lemma SendsKeepLogs(s: State, s': State)
    requires NextSend(s, s')
    ensures s'.hist == s.hist
  {
  }

  lemma DeliveriesKeepLogs(s: State, s': State)
    requires NextDelivery(s, s')
    ensures s'.hist.leaderLog == s.hist.leaderLog
  {
    if m, t :| OnAppReq(s, s', m, t) {
    } else if m, t :| CrashInAppend(s, s', m, t) {
    } else if m, t :| OnSnapReq(s, s', m, t) {
    } else {
      var i, n, m, t :| OnReply(s, s', i, n, m, t);
    }
  }

  lemma LocalLogs(s: State, s': State, ok: Payload -> bool)
    requires RaftNet.Inv(s) && NextLocal(s, s') && ProposesOnly(s, s', ok) && AllLogged(s.hist, ok)
    ensures AllLogged(s'.hist, ok)
  {
    if i, data :| ClientPropose(s, s', i, data) {
      ProposalLogs(s, s', i, data, ok);
    }
  }

  lemma StepLogs(s: State, s': State, ok: Payload -> bool)
    requires RaftNet.Inv(s) && Cluster.Next(s, s') && ProposesOnly(s, s', ok) && AllLogged(s.hist, ok)
    ensures AllLogged(s'.hist, ok)
  {
    if NextElection(s, s') {
      ElectionLogs(s, s', ok);
    } else if NextLocal(s, s') {
      LocalLogs(s, s', ok);
    } else if NextCampaign(s, s') {
      CampaignKeepsLogs(s, s');
    } else if NextSend(s, s') {
      SendsKeepLogs(s, s');
    } else {
      DeliveriesKeepLogs(s, s');
    }
  }

  lemma CarefulLogs(cluster: seq<State>, k: nat, ok: Payload -> bool)
    requires Careful(cluster) && k + 1 < |cluster|
    requires ProposesOnly(cluster[k], cluster[k + 1], ok) && AllLogged(cluster[k].hist, ok)
    ensures AllLogged(cluster[k + 1].hist, ok)
  {
    Reachable(cluster, k);
    assert CarefulAt(cluster, k);
    RaftEvents.CarefulIsNext(cluster[k], cluster[k + 1]);
    StepLogs(cluster[k], cluster[k + 1], ok);
  }

  lemma FurthestTracks(s: State, a: NodeId, c: seq<Entry>)
    requires RaftNet.Inv(s) && a in s.nodes && s.nodes[a].commit == |c| && CommittedPrefix(s.nodes[a], c)
    ensures Tracks(s.hist, c)
  {
    CommittedHere(s, a);
    SettledTracks(s.nodes, s.hist, s.nodes[a].log, |c|, s.nodes[a].term);
    assert s.nodes[a].log[..|c|] == c;
  }

  lemma CommittedIsLogged(s: State, c: seq<Entry>, ok: Payload -> bool)
    requires RaftNet.Inv(s) && IsCommittedLog(s, c) && AllLogged(s.hist, ok)
    ensures forall k :: 0 <= k < |c| ==> ok(c[k].data)
  {
    var a :| a in s.nodes && s.nodes[a].commit == |c|;
    FurthestTracks(s, a, c);
    forall k | 0 <= k < |c| ensures ok(c[k].data) {
      CleanEntryIsLogged(s.hist, c, k, ok);
    }
  }

  lemma CommittedWasLogged(run: seq<State>, i: nat, c: seq<Entry>, ok: Payload -> bool)
    requires Careful(run) && i < |run| && IsCommittedLog(run[i], c) && AllLogged(run[i].hist, ok)
    ensures forall k :: 0 <= k < |c| ==> ok(c[k].data)
  {
    Reachable(run, i);
    CommittedIsLogged(run[i], c, ok);
  }

  ghost predicate ProposesAt(run: seq<State>, i: nat, ok: Payload -> bool) {
    i + 1 < |run| ==> ProposesOnly(run[i], run[i + 1], ok)
  }

  ghost predicate ProposedUpTo(run: seq<State>, i: nat, ok: Payload -> bool) {
    forall k: nat :: k < i ==> ProposesAt(run, k, ok)
  }

  lemma {:induction false} LoggedWasProposed(run: seq<State>, i: nat, ok: Payload -> bool)
    requires Careful(run) && i < |run| && ProposedUpTo(run, i, ok)
    ensures AllLogged(run[i].hist, ok)
  {
    if i > 0 {
      LoggedWasProposed(run, i - 1, ok);
      assert ProposesAt(run, i - 1, ok);
      CarefulLogs(run, i - 1, ok);
    }
  }

  /** Whatever is committed was once proposed: what holds of all proposals holds of all committed entries. */
  lemma CommittedWasProposed(run: seq<State>, i: nat, c: seq<Entry>, ok: Payload -> bool)
    requires Careful(run) && i < |run| && IsCommittedLog(run[i], c) && ProposedUpTo(run, i, ok)
    ensures forall k :: 0 <= k < |c| ==> ok(c[k].data)
  {
    LoggedWasProposed(run, i, ok);
    CommittedWasLogged(run, i, c, ok);
  }
}
