/**
 What a grant in a pre-vote means: that the node would vote for the same log in the next term; and so,
 along runs, that whoever wins a pre-vote asked with a log no less up to date than that of any node that
 granted it, when it did. In a careful run that log held everything chosen by then.
 */
module PreVoteLogs {
  import opened Common
  import opened FsmTypes
  import opened Raft
  import opened Cluster
  import opened RaftVotes
  import opened RaftInv
  import opened PreVote
  import RaftEvents
  import RaftNet
  import RaftSafety

  // --- One node ---

  /** The coordinates of a log are not behind those a node reports: the last term decides, then the last index. */
  predicate NoLessUpToDate(lastIndex: nat, lastTerm: nat, v: Node) {
    lastTerm > LastStoredTerm(v) || (lastTerm == LastStoredTerm(v) && lastIndex >= |v.log|)
  }

  /**
   The dry run is exact: a pre-vote is granted if and only if the node follows, is not past the term, and
   would grant its vote in the next term to the same log.
   */
  lemma DryRunIsExact(n: Node, candidate: NodeId, reqTerm: nat, lastIndex: nat, lastTerm: nat, timeout: nat)
    ensures GrantsPreVote(n, reqTerm, lastIndex, lastTerm)
            <==> n.role.Follower? && n.term <= reqTerm
                 && HandleRequestVote(n, candidate, reqTerm + 1, lastIndex, lastTerm, timeout).1
    ensures HandleRequestVote(n, candidate, n.term + 1, lastIndex, lastTerm, timeout).1
            <==> NoLessUpToDate(lastIndex, lastTerm, n)
  {
  }

  // --- One step ---

  /** The step opens campaign `c` of node `a`, and asks with the log the node has. */
  ghost predicate Opens(s: State, s': State, c: nat, a: NodeId) {
    && c !in s.campaigns && c in s'.campaigns && s'.campaigns[c].node == a && a in s.nodes
    && forall m :: m in s'.msgs && m !in s.msgs && m.PreReq? ==>
         m.campaign == c && m.term == s.nodes[a].term && m.lastIndex == |s.nodes[a].log|
         && m.lastTerm == LastStoredTerm(s.nodes[a])
  }

  /** Node `v` grants campaign `c` on a request made for it. */
  ghost predicate Grants(s: State, c: nat, v: NodeId) {
    v in s.nodes && exists m ::
      m in s.msgs && m.PreReq? && m.campaign == c && m.candidate != v
      && GrantsPreVote(s.nodes[v], m.term, m.lastIndex, m.lastTerm)
  }

  ghost predicate IsGrant(m: Msg, c: nat, v: NodeId) {
    m.PreResp? && m.campaign == c && m.voter == v && m.granted
  }

  /** Campaigns are opened by nodes and stay; requests belong to opened ones; grants answer requests. */
  ghost predicate Origins(s: State, s': State) {
    && (forall c :: c in s'.campaigns && c !in s.campaigns ==> Opens(s, s', c, s'.campaigns[c].node))
    && (forall c :: c in s.campaigns ==> c in s'.campaigns && s'.campaigns[c].node == s.campaigns[c].node)
    && (forall m :: m in s'.msgs && m !in s.msgs && m.PreReq? ==> m.campaign !in s.campaigns)
    && (forall m, c, v :: m in s'.msgs && m !in s.msgs && IsGrant(m, c, v) ==> Grants(s, c, v))
  }

  /** A step that neither opens a campaign nor asks or answers. */
  ghost predicate Apart(s: State, s': State) {
    && s'.campaigns.Keys == s.campaigns.Keys
    && (forall c :: c in s.campaigns ==> s'.campaigns[c].node == s.campaigns[c].node)
    && forall m :: m in s'.msgs && m !in s.msgs ==> !m.PreReq? && !m.PreResp?
  }

  lemma TickOrigins(s: State, s': State, i: NodeId, interval: nat, timeout: nat, campaign: nat)
    requires Tick(s, s', i, interval, timeout, campaign)
    ensures Origins(s, s')
  {
    var action := Pulse(s.nodes[i], interval, timeout).1;
    if action != StartPreVote { assert Apart(s, s'); }
  }

  lemma TallyIsApart(s: State, s': State, m: Msg, timeout: nat)
    requires OnPreResp(s, s', m, timeout)
    ensures Apart(s, s')
  {
  }

  lemma EndIsApart(s: State, s': State, campaign: nat, timeout: nat)
    requires EndPreVote(s, s', campaign, timeout)
    ensures Apart(s, s')
  {
  }

  lemma CampaignOrigins(s: State, s': State)
    requires NextCampaign(s, s')
    ensures Origins(s, s')
  {
    if i, h, t, c :| Tick(s, s', i, h, t, c) {
      TickOrigins(s, s', i, h, t, c);
    } else if m, t :| OnPreResp(s, s', m, t) {
      TallyIsApart(s, s', m, t);
    } else {
      var c, t :| EndPreVote(s, s', c, t);
      EndIsApart(s, s', c, t);
    }
  }

  lemma AnswerOrigins(s: State, s': State, i: NodeId, m: Msg)
    requires OnPreReq(s, s', i, m)
    ensures Origins(s, s')
  {
  }

  lemma ElectionOrigins(s: State, s': State)
    requires NextElection(s, s')
    ensures Origins(s, s')
  {
    if i, m :| OnPreReq(s, s', i, m) {
      AnswerOrigins(s, s', i, m);
    } else {
      assert Apart(s, s');
    }
  }

  lemma StepOrigins(s: State, s': State)
    requires Next(s, s')
    ensures Origins(s, s')
  {
    if NextCampaign(s, s') {
      CampaignOrigins(s, s');
    } else if NextElection(s, s') {
      ElectionOrigins(s, s');
    } else {
      OtherStepsAreApart(s, s');
    }
  }

  lemma OtherStepsAreApart(s: State, s': State)
    requires NextSend(s, s') || NextDelivery(s, s') || NextLocal(s, s')
    ensures Apart(s, s')
  {
  }

  // --- Along a run ---

  lemma OriginsAt(run: seq<State>, i: nat)
    requires Behaviour(run) && i + 1 < |run|
    ensures Origins(run[i], run[i + 1])
  {
    assert StepAt(run, i);
    StepOrigins(run[i], run[i + 1]);
  }

  lemma {:induction false} CampaignsPersist(run: seq<State>, i: nat, j: nat, c: nat)
    requires Behaviour(run) && i <= j < |run| && c in run[i].campaigns
    ensures c in run[j].campaigns && run[j].campaigns[c].node == run[i].campaigns[c].node
    decreases j
  {
    if i < j {
      CampaignsPersist(run, i, j - 1, c);
      OriginsAt(run, j - 1);
    }
  }

  lemma {:induction false} CampaignWasOpened(run: seq<State>, i: nat, c: nat) returns (k: nat)
    requires Behaviour(run) && i < |run| && c in run[i].campaigns
    ensures k < i && Opens(run[k], run[k + 1], c, run[i].campaigns[c].node)
  {
    OriginsAt(run, i - 1);
    if c in run[i - 1].campaigns {
      k := CampaignWasOpened(run, i - 1, c);
    } else {
      k := i - 1;
    }
  }

  /** The request carries what node `n` reports. */
  predicate AsksWith(m: Msg, n: Node)
    requires m.PreReq?
  {
    m.term == n.term && m.lastIndex == |n.log| && m.lastTerm == LastStoredTerm(n)
  }

  lemma {:induction false} RequestsAreTheOpeners(run: seq<State>, k: nat, i: nat, c: nat, a: NodeId, m: Msg)
    requires Behaviour(run) && k < i < |run| && Opens(run[k], run[k + 1], c, a)
    requires m in run[i].msgs && m.PreReq? && m.campaign == c
    ensures AsksWith(m, run[k].nodes[a])
    decreases i
  {
    if i == k + 1 {
      PreVotesInOrder(run, k);
      assert m in run[k].msgs ==> PreMsgOk(run[k], m);
    } else {
      OriginsAt(run, i - 1);
      CampaignsPersist(run, k + 1, i - 1, c);
      RequestsAreTheOpeners(run, k, i - 1, c, a, m);
    }
  }

  lemma {:induction false} GrantWasGiven(run: seq<State>, i: nat, m: Msg, c: nat, v: NodeId) returns (j: nat)
    requires Behaviour(run) && i < |run| && m in run[i].msgs && IsGrant(m, c, v)
    ensures j < i && Grants(run[j], c, v)
  {
    OriginsAt(run, i - 1);
    if m in run[i - 1].msgs {
      j := GrantWasGiven(run, i - 1, m, c, v);
    } else {
      j := i - 1;
    }
  }

  /** Between the two moments the node granted a log that `n` had when it asked, and its own was no more up to date. */
  ghost predicate GrantedAt(run: seq<State>, k: nat, j: nat, i: nat, n: Node, v: NodeId) {
    && k < j < i < |run| && v in run[j].nodes && run[j].nodes[v].role.Follower? && run[j].nodes[v].term <= n.term
    && NoLessUpToDate(|n.log|, LastStoredTerm(n), run[j].nodes[v])
  }

  lemma GrantIsOfNoFresherLog(run: seq<State>, k: nat, i: nat, c: nat, a: NodeId, v: NodeId) returns (j: nat)
    requires Behaviour(run) && k < i < |run| && Opens(run[k], run[k + 1], c, a) && Granted(run[i], c, v)
    ensures GrantedAt(run, k, j, i, run[k].nodes[a], v)
  {
    var t :| PreResp(c, v, t, true) in run[i].msgs;
    j := GrantWasGiven(run, i, PreResp(c, v, t, true), c, v);
    var m :| m in run[j].msgs && m.PreReq? && m.campaign == c && m.candidate != v
             && GrantsPreVote(run[j].nodes[v], m.term, m.lastIndex, m.lastTerm);
    RequestComesLater(run, k, j, c, a, m);
    RequestsAreTheOpeners(run, k, j, c, a, m);
    DryRunIsExact(run[j].nodes[v], a, m.term, m.lastIndex, m.lastTerm, 0);
  }

  lemma RequestComesLater(run: seq<State>, k: nat, j: nat, c: nat, a: NodeId, m: Msg)
    requires Behaviour(run) && k + 1 < |run| && j < |run| && Opens(run[k], run[k + 1], c, a)
    requires m in run[j].msgs && m.PreReq? && m.campaign == c
    ensures k < j
  {
    PreVotesInOrder(run, j);
    assert PreMsgOk(run[j], m);
    if j <= k { CampaignsPersist(run, j, k, c); }
  }

  /**
   In every run, whatever campaign and moment: the node asked with the log it had when the campaign was
   opened, and each node that is counted granted that log afterwards, following, in no later term, and
   with no more up-to-date a log of its own.
   */
  lemma GrantersWereNoFresher(run: seq<State>, i: nat, c: nat) returns (k: nat)
    requires Behaviour(run) && i < |run| && c in run[i].campaigns
    ensures k < i && Opens(run[k], run[k + 1], c, run[i].campaigns[c].node)
    ensures forall v :: v in run[i].campaigns[c].granted ==>
              exists j: nat :: GrantedAt(run, k, j, i, run[k].nodes[run[i].campaigns[c].node], v)
  {
    k := CampaignWasOpened(run, i, c);
    PreVotesInOrder(run, i);
    forall v | v in run[i].campaigns[c].granted
      ensures exists j: nat :: GrantedAt(run, k, j, i, run[k].nodes[run[i].campaigns[c].node], v)
    {
      var j := GrantIsOfNoFresherLog(run, k, i, c, run[i].campaigns[c].node, v);
    }
  }

  // --- What the winner held ---

  /** A node that has acknowledged an entry that is not dead holds it. */
  lemma AckerHolds(s: State, v: NodeId, t: nat, k: nat)
    requires RaftNet.Inv(s) && v in s.nodes && Own(s.hist, t, k) && Acked(s.hist, v, t, k)
    requires !Dead(s.nodes, s.hist, t, k)
    ensures Holds(s.hist, s.nodes[v].log, t, k) && LastStoredTerm(s.nodes[v]) >= t && |s.nodes[v].log| >= k
  {
    var n := s.nodes[v];
    assert Firm(s.nodes, s.hist, n, t, k);
    assert Ordered(n) && TailFits(s.hist, n);
    VoterReports(s.nodes, s.hist, n, n.term, t, k);
  }

  /** A node whose coordinates are not behind those of such a node holds it too. */
  lemma UpToDateHolds(s: State, a: NodeId, v: Node, t: nat, k: nat)
    requires RaftNet.Inv(s) && a in s.nodes && Own(s.hist, t, k) && !Dead(s.nodes, s.hist, t, k)
    requires LastStoredTerm(v) >= t && |v.log| >= k
    requires NoLessUpToDate(|s.nodes[a].log|, LastStoredTerm(s.nodes[a]), v)
    ensures Holds(s.hist, s.nodes[a].log, t, k)
  {
    var n := s.nodes[a];
    RaftEvents.NodeReports(s.nodes, s.hist, a);
    assert TailFits(s.hist, n);
    UpToDateIsSafe(s.nodes, s.hist, n, n.term, |n.log|, LastStoredTerm(n), t, k);
  }

  /** An acknowledgement of a chosen entry still counts later. */
  lemma LaterAckerReports(run: seq<State>, k: nat, j: nat, v: NodeId, t: nat, e: nat)
    requires Careful(run) && k <= j < |run| && Chosen(run[k].nodes, run[k].hist, t, e)
    requires v in run[j].nodes && Acked(run[k].hist, v, t, e)
    ensures LastStoredTerm(run[j].nodes[v]) >= t && |run[j].nodes[v].log| >= e
  {
    RaftSafety.Reachable(run, j);
    RaftSafety.GrowsAlong(run, k, j);
    ChosenStable(run[k].nodes, run[k].hist, run[j].nodes, run[j].hist, t, e);
    ChosenIsAlive(run[j].nodes, run[j].hist, t, e);
    AckerHolds(run[j], v, t, e);
  }

  lemma OwnAckCarries(run: seq<State>, k: nat, a: NodeId, t: nat, e: nat)
    requires Careful(run) && k < |run| && a in run[k].nodes && Chosen(run[k].nodes, run[k].hist, t, e)
    requires Acked(run[k].hist, a, t, e)
    ensures Holds(run[k].hist, run[k].nodes[a].log, t, e)
  {
    RaftSafety.Reachable(run, k);
    ChosenIsAlive(run[k].nodes, run[k].hist, t, e);
    AckerHolds(run[k], a, t, e);
  }

  lemma ReachedCarries(run: seq<State>, k: nat, a: NodeId, v: Node, t: nat, e: nat)
    requires Careful(run) && k < |run| && a in run[k].nodes && Chosen(run[k].nodes, run[k].hist, t, e)
    requires LastStoredTerm(v) >= t && |v.log| >= e
    requires NoLessUpToDate(|run[k].nodes[a].log|, LastStoredTerm(run[k].nodes[a]), v)
    ensures Holds(run[k].hist, run[k].nodes[a].log, t, e)
  {
    RaftSafety.Reachable(run, k);
    ChosenIsAlive(run[k].nodes, run[k].hist, t, e);
    UpToDateHolds(run[k], a, v, t, e);
  }

  lemma GranterCarries(run: seq<State>, k: nat, i: nat, a: NodeId, v: NodeId, t: nat, e: nat)
    requires Careful(run) && k < i < |run| && a in run[k].nodes && Chosen(run[k].nodes, run[k].hist, t, e)
    requires Acked(run[k].hist, v, t, e)
    requires v == a || exists j: nat :: GrantedAt(run, k, j, i, run[k].nodes[a], v)
    ensures Holds(run[k].hist, run[k].nodes[a].log, t, e)
  {
    if v == a {
      OwnAckCarries(run, k, a, t, e);
    } else {
      var j: nat :| GrantedAt(run, k, j, i, run[k].nodes[a], v);
      LaterAckerReports(run, k, j, v, t, e);
      ReachedCarries(run, k, a, run[j].nodes[v], t, e);
    }
  }

  lemma SameCluster(run: seq<State>, k: nat, i: nat)
    requires Careful(run) && k <= i < |run|
    ensures run[k].nodes.Keys == run[i].nodes.Keys
  {
    RaftSafety.GrowsAlong(run, k, i);
  }

  /**
   In every careful run, whoever has a pre-vote quorum held, when it asked, whatever a quorum had
   acknowledged of any leader's log by then: only a node that an election could safely make leader gets
   to raise the term.
   */
  lemma WinnersHeldTheChosen(run: seq<State>, i: nat, c: nat, t: nat, e: nat) returns (k: nat)
    requires Careful(run) && i < |run| && c in run[i].campaigns && WonPreVote(run[i], c, run[i].campaigns[c].node)
    ensures var a := run[i].campaigns[c].node;
            && k < i && Opens(run[k], run[k + 1], c, a)
            && (Chosen(run[k].nodes, run[k].hist, t, e) ==> Holds(run[k].hist, run[k].nodes[a].log, t, e))
  {
    RaftSafety.CarefulIsBehaviour(run);
    k := GrantersWereNoFresher(run, i, c);
    if Chosen(run[k].nodes, run[k].hist, t, e) {
      var a := run[i].campaigns[c].node;
      PreVotesInOrder(run, i);
      WonByAQuorum(run[i], c, a);
      SameCluster(run, k, i);
      var vs :| IsQuorum(run[k].nodes, vs) && AllAcked(run[k].hist, vs, t, e);
      var v := QuorumsIntersect(run[i].nodes.Keys, vs, run[i].campaigns[c].granted + {a});
      GranterCarries(run, k, i, a, v, t, e);
    }
  }
}
