/** Pre-votes (section 9.6 of Ongaro's dissertation): who may raise the cluster's highest term. */
module PreVote {
  import opened Common
  import opened FsmTypes
  import opened Raft
  import opened Cluster
  import opened RaftVotes

  /** Some node has reached the term. */
  ghost predicate Known(ns: Nodes, t: nat) {
    exists j :: j in ns && t <= ns[j].term
  }

  /** The term a message carries to its receiver. */
  function TermOf(m: Msg): nat {
    match m
    case VoteReq(_, t, _, _) => t
    case VoteResp(_, _, _, t, _) => t
    case PreReq(_, _, _, _, _) => 0
    case PreResp(_, _, t, _) => t
    case AppReq(_, _, t, _, _, _, _, _) => t
    case AppResp(_, _, _, _, _, reply, _) => reply.term
    case SnapReq(_, _, t, _, _) => t
    case SnapResp(_, _, _, _, t) => t
  }

  ghost predicate Granted(s: State, campaign: nat, v: NodeId) {
    exists t :: PreResp(campaign, v, t, true) in s.msgs
  }

  /** Node `i` won a campaign whose grants, with its own, make a majority. */
  ghost predicate WonPreVote(s: State, campaign: nat, i: NodeId) {
    && campaign in s.campaigns && s.campaigns[campaign].node == i && i in s.nodes
    && |s.campaigns[campaign].granted| + 1 >= Quorum(|s.nodes.Keys|)
  }

  /** Campaign `campaign` of node `i` is won in this step. */
  ghost predicate WonNow(s: State, s': State, campaign: nat, i: NodeId) {
    && campaign in s.campaigns && s.campaigns[campaign].open && campaign in s'.campaigns
    && !s'.campaigns[campaign].open && WonPreVote(s', campaign, i) && i in s'.preVoteWinners
  }

  /** Requests and answers of a pre-vote name their campaign; a node does not answer its own. */
  ghost predicate PreMsgOk(s: State, m: Msg) {
    match m
    case PreReq(c, i, _, _, _) => c in s.campaigns && s.campaigns[c].node == i
    case PreResp(c, v, _, _) => c in s.campaigns && v in s.nodes && v != s.campaigns[c].node
    case _ => true
  }

  ghost predicate PreVoteInv(s: State) {
    && (s.nodes.Keys != {} ==> forall m :: m in s.msgs ==> Known(s.nodes, TermOf(m)))
    && (forall m :: m in s.msgs ==> PreMsgOk(s, m))
    && (forall i :: i in s.nodes && s.nodes[i].role.Candidate? ==> i in s.preVoteWinners)
    && (forall c, v :: c in s.campaigns && v in s.campaigns[c].granted ==> Granted(s, c, v))
    && (forall i :: i in s.preVoteWinners ==>
          exists c :: c in s.campaigns && !s.campaigns[c].open && WonPreVote(s, c, i))
  }

  // --- One step ---

  /** The node's new term was known to some node before, or is that of a fresh candidacy. */
  ghost predicate TermAccounted(s: State, n: Node, n': Node) {
    Known(s.nodes, n'.term) || (n'.role.Candidate? && n'.term == n.term + 1)
  }

  /** What a step does to the facts about pre-votes. */
  ghost predicate Accounted(s: State, s': State) {
    && s'.nodes.Keys == s.nodes.Keys
    && (forall a :: a in s.nodes ==> s.nodes[a].term <= s'.nodes[a].term && TermAccounted(s, s.nodes[a], s'.nodes[a]))
    && (forall m :: m in s'.msgs ==> m in s.msgs || (Known(s'.nodes, TermOf(m)) && PreMsgOk(s', m)))
    && (forall c :: c in s.campaigns ==> c in s'.campaigns && s'.campaigns[c].node == s.campaigns[c].node)
    && s.msgs <= s'.msgs && s.preVoteWinners <= s'.preVoteWinners
    && (forall a :: a in s.nodes && s'.nodes[a].role.Candidate? ==>
          s.nodes[a].role.Candidate? || exists c :: WonNow(s, s', c, a))
    && (forall c :: c in s.campaigns && !s.campaigns[c].open ==> c in s'.campaigns && s'.campaigns[c] == s.campaigns[c])
    && (forall c, v :: c in s'.campaigns && v in s'.campaigns[c].granted ==> Granted(s', c, v))
    && (forall a :: a in s'.preVoteWinners && a !in s.preVoteWinners ==>
          exists c :: c in s'.campaigns && !s'.campaigns[c].open && WonPreVote(s', c, a))
  }

  lemma KnownStable(s: State, s': State, t: nat)
    requires s'.nodes.Keys == s.nodes.Keys && Known(s.nodes, t)
    requires forall a :: a in s.nodes ==> s.nodes[a].term <= s'.nodes[a].term
    ensures Known(s'.nodes, t)
  {
    var j :| j in s.nodes && t <= s.nodes[j].term;
    assert j in s'.nodes && t <= s'.nodes[j].term;
  }

  lemma AccountedKeeps(s: State, s': State)
    requires PreVoteInv(s) && Accounted(s, s')
    ensures PreVoteInv(s')
  {
    if s.nodes.Keys != {} {
      forall m | m in s'.msgs ensures Known(s'.nodes, TermOf(m)) {
        if m in s.msgs { KnownStable(s, s', TermOf(m)); }
      }
    }
    forall a | a in s'.preVoteWinners
      ensures exists c :: c in s'.campaigns && !s'.campaigns[c].open && WonPreVote(s', c, a)
    {
      if a in s.preVoteWinners {
        var c :| c in s.campaigns && !s.campaigns[c].open && WonPreVote(s, c, a);
        assert c in s'.campaigns && !s'.campaigns[c].open && WonPreVote(s', c, a);
      }
    }
  }

  /** Node `i` alone changes; nothing happens to campaigns. */
  ghost predicate Ordinary(s: State, s': State, i: NodeId) {
    && i in s.nodes && i in s'.nodes && s'.nodes == s.nodes[i := s'.nodes[i]]
    && s.nodes[i].term <= s'.nodes[i].term && Known(s.nodes, s'.nodes[i].term)
    && (s'.nodes[i].role.Candidate? ==> s.nodes[i].role.Candidate?)
    && s.msgs <= s'.msgs && s'.campaigns == s.campaigns && s'.preVoteWinners == s.preVoteWinners
  }

  lemma OwnTermIsKnown(ns: Nodes, i: NodeId, t: nat)
    requires i in ns && t <= ns[i].term
    ensures Known(ns, t)
  {
  }

  lemma OrdinaryIsAccounted(s: State, s': State, i: NodeId)
    requires PreVoteInv(s) && Ordinary(s, s', i)
    requires forall m :: m in s'.msgs && m !in s.msgs ==> Known(s'.nodes, TermOf(m)) && PreMsgOk(s', m)
    ensures Accounted(s, s')
  {
    forall a | a in s.nodes ensures TermAccounted(s, s.nodes[a], s'.nodes[a]) {
      if a != i { OwnTermIsKnown(s.nodes, a, s.nodes[a].term); }
    }
    forall c, v | c in s'.campaigns && v in s'.campaigns[c].granted ensures Granted(s', c, v) {
      assert Granted(s, c, v);
    }
  }

  // --- Events ---

  lemma PulseTerms(n: Node, interval: nat, timeout: nat)
    ensures var (n', action) := Pulse(n, interval, timeout);
            && n.term <= n'.term <= n.term + 1
            && (n'.role.Candidate? ==> n.role.Candidate?)
            && (n'.term > n.term ==> n'.role.Candidate?)
  {
  }

  lemma TickIsAccounted(s: State, s': State, i: NodeId, interval: nat, timeout: nat, campaign: nat)
    requires PreVoteInv(s) && Tick(s, s', i, interval, timeout, campaign)
    ensures Accounted(s, s')
  {
    PulseTerms(s.nodes[i], interval, timeout);
    assert s'.nodes == s.nodes[i := s'.nodes[i]];
    assert s'.preVoteWinners == s.preVoteWinners;
    assert forall m :: m in s'.msgs && m !in s.msgs ==> TermOf(m) <= s'.nodes[i].term && PreMsgOk(s', m);
    assert s'.campaigns == s.campaigns || s'.campaigns == s.campaigns[campaign := PreCampaign(i, s.nodes[i].term, {},
          true)];
    TickFrame(s, s', i, campaign);
  }

  lemma TickFrame(s: State, s': State, i: NodeId, campaign: nat)
    requires PreVoteInv(s) && i in s.nodes && i in s'.nodes && s'.nodes == s.nodes[i := s'.nodes[i]]
    requires s.nodes[i].term <= s'.nodes[i].term <= s.nodes[i].term + 1
    requires s'.nodes[i].role.Candidate? ==> s.nodes[i].role.Candidate?
    requires s'.nodes[i].term > s.nodes[i].term ==> s'.nodes[i].role.Candidate?
    requires s.msgs <= s'.msgs && s'.preVoteWinners == s.preVoteWinners
    requires forall m :: m in s'.msgs && m !in s.msgs ==> TermOf(m) <= s'.nodes[i].term && PreMsgOk(s', m)
    requires campaign !in s.campaigns
    requires s'.campaigns == s.campaigns || s'.campaigns == s.campaigns[campaign := PreCampaign(i, s.nodes[i].term,
          {}, true)]
    ensures Accounted(s, s')
  {
    forall a | a in s.nodes ensures TermAccounted(s, s.nodes[a], s'.nodes[a]) {
      OwnTermIsKnown(s.nodes, a, s.nodes[a].term);
    }
    forall c, v | c in s'.campaigns && v in s'.campaigns[c].granted ensures Granted(s', c, v) {
      assert Granted(s, c, v);
    }
    forall m | m in s'.msgs && m !in s.msgs ensures Known(s'.nodes, TermOf(m)) {
      OwnTermIsKnown(s'.nodes, i, TermOf(m));
    }
  }

  lemma WinIsRecorded(s: State, campaign: nat, granted: set<NodeId>, timeout: nat)
    requires campaign in s.campaigns && s.campaigns[campaign].node in s.nodes && |granted| + 1 >= Quorum(|s.nodes.Keys|)
    ensures var s' := WinPreVote(s, campaign, granted, timeout);
            && s'.nodes.Keys == s.nodes.Keys && campaign in s'.campaigns && !s'.campaigns[campaign].open
            && WonPreVote(s', campaign, s.campaigns[campaign].node)
  {
    var s' := WinPreVote(s, campaign, granted, timeout);
    assert s'.nodes.Keys == s.nodes.Keys;
  }

  lemma GrantsStay(s: State, s': State, campaign: nat, granted: set<NodeId>)
    requires PreVoteInv(s) && s.msgs <= s'.msgs && (forall v :: v in granted ==> Granted(s, campaign, v))
    requires campaign in s.campaigns && campaign in s'.campaigns
    requires s'.campaigns == s.campaigns[campaign := s'.campaigns[campaign]]
    requires s'.campaigns[campaign].granted == granted
    ensures forall c, v :: c in s'.campaigns && v in s'.campaigns[c].granted ==> Granted(s', c, v)
  {
    forall c, v | c in s'.campaigns && v in s'.campaigns[c].granted ensures Granted(s', c, v) {
      assert Granted(s, c, v);
    }
  }

  lemma WinFrame(s: State, s': State, i: NodeId, campaign: nat)
    requires PreVoteInv(s) && i in s.nodes && i in s'.nodes && s'.nodes == s.nodes[i := s'.nodes[i]]
    requires s.nodes[i].term <= s'.nodes[i].term <= s.nodes[i].term + 1
    requires s'.nodes[i].term > s.nodes[i].term ==> s'.nodes[i].role.Candidate?
    requires s'.preVoteWinners == s.preVoteWinners + {i} && s.msgs <= s'.msgs
    requires forall m :: m in s'.msgs && m !in s.msgs ==> TermOf(m) <= s'.nodes[i].term && PreMsgOk(s', m)
    requires campaign in s.campaigns && s.campaigns[campaign].open && campaign in s'.campaigns
    requires !s'.campaigns[campaign].open && s'.campaigns[campaign].node == s.campaigns[campaign].node
    requires s'.campaigns == s.campaigns[campaign := s'.campaigns[campaign]] && WonPreVote(s', campaign, i)
    requires forall c, v :: c in s'.campaigns && v in s'.campaigns[c].granted ==> Granted(s', c, v)
    ensures Accounted(s, s')
  {
    forall a | a in s.nodes ensures TermAccounted(s, s.nodes[a], s'.nodes[a]) {
      OwnTermIsKnown(s.nodes, a, s.nodes[a].term);
    }
    forall m | m in s'.msgs && m !in s.msgs ensures Known(s'.nodes, TermOf(m)) {
      OwnTermIsKnown(s'.nodes, i, TermOf(m));
    }
    assert WonNow(s, s', campaign, i);
  }

  lemma WinIsAccounted(s: State, campaign: nat, granted: set<NodeId>, timeout: nat)
    requires PreVoteInv(s) && campaign in s.campaigns && s.campaigns[campaign].open
    requires Alive(s, s.campaigns[campaign].node)
    requires |granted| + 1 >= Quorum(|s.nodes.Keys|)
    requires forall v :: v in granted ==> Granted(s, campaign, v)
    ensures Accounted(s, WinPreVote(s, campaign, granted, timeout))
  {
    var s' := WinPreVote(s, campaign, granted, timeout);
    WinIsRecorded(s, campaign, granted, timeout);
    GrantsStay(s, s', campaign, granted);
    WinFrame(s, s', s.campaigns[campaign].node, campaign);
  }

  lemma GrantIsCounted(s: State, m: Msg, v: NodeId)
    requires PreVoteInv(s) && m in s.msgs && m.PreResp? && m.campaign in s.campaigns
    requires v in (if m.granted then s.campaigns[m.campaign].granted + {m.voter} else s.campaigns[m.campaign].granted)
    ensures Granted(s, m.campaign, v)
  {
    if v !in s.campaigns[m.campaign].granted {
      assert m == PreResp(m.campaign, v, m.respTerm, true);
    }
  }

  lemma OnPreRespIsAccounted(s: State, s': State, m: Msg, timeout: nat)
    requires PreVoteInv(s) && Shape(s.nodes) && OnPreResp(s, s', m, timeout)
    ensures Accounted(s, s')
  {
    var c := s.campaigns[m.campaign];
    var n := s.nodes[c.node];
    var granted := if m.granted then c.granted + {m.voter} else c.granted;
    forall v | v in granted ensures Granted(s, m.campaign, v) {
      GrantIsCounted(s, m, v);
    }
    if !(m.respTerm > c.term && m.respTerm > n.term) && m.granted && |granted| + 1 >= Majority(n) {
      Majorities(s.nodes, c.node);
      WinIsAccounted(s, m.campaign, granted, timeout);
    } else {
      assert Known(s.nodes, TermOf(m));
      QuietCampaign(s, s', m.campaign);
    }
  }

  /** A campaign that does not win only records grants, closes, or demotes its node to a known term. */
  lemma QuietCampaign(s: State, s': State, campaign: nat)
    requires PreVoteInv(s) && campaign in s.campaigns && s.campaigns[campaign].open && campaign in s'.campaigns
    requires s.campaigns[campaign].node in s.nodes && s.campaigns[campaign].node in s'.nodes
    requires var i := s.campaigns[campaign].node;
             && s'.nodes == s.nodes[i := s'.nodes[i]] && s.nodes[i].term <= s'.nodes[i].term
                   && Known(s.nodes, s'.nodes[i].term)
             && (s'.nodes[i].role.Candidate? ==> s.nodes[i].role.Candidate?)
    requires s'.msgs == s.msgs && s'.preVoteWinners == s.preVoteWinners
    requires s'.campaigns == s.campaigns[campaign := s'.campaigns[campaign]]
    requires s'.campaigns[campaign].node == s.campaigns[campaign].node
    requires forall v :: v in s'.campaigns[campaign].granted ==> Granted(s, campaign, v)
    ensures Accounted(s, s')
  {
    forall a | a in s.nodes ensures TermAccounted(s, s.nodes[a], s'.nodes[a]) {
      OwnTermIsKnown(s.nodes, a, s.nodes[a].term);
    }
    forall c, v | c in s'.campaigns && v in s'.campaigns[c].granted ensures Granted(s', c, v) {
      assert Granted(s, c, v);
    }
  }

  lemma EndPreVoteIsAccounted(s: State, s': State, campaign: nat, timeout: nat)
    requires PreVoteInv(s) && Shape(s.nodes) && EndPreVote(s, s', campaign, timeout)
    ensures Accounted(s, s')
  {
    var c := s.campaigns[campaign];
    forall v | v in c.granted ensures Granted(s, campaign, v) {
    }
    if |c.granted| + 1 >= Majority(s.nodes[c.node]) {
      Majorities(s.nodes, c.node);
      WinIsAccounted(s, campaign, c.granted, timeout);
    } else {
      OwnTermIsKnown(s.nodes, c.node, s.nodes[c.node].term);
      assert s.nodes == s.nodes[c.node := s.nodes[c.node]];
      QuietCampaign(s, s', campaign);
    }
  }

  lemma VoteReqIsAccounted(s: State, s': State, i: NodeId, m: Msg, timeout: nat)
    requires PreVoteInv(s) && OnVoteReq(s, s', i, m, timeout)
    ensures Accounted(s, s')
  {
    assert Known(s.nodes, TermOf(m));
    OwnTermIsKnown(s.nodes, i, s.nodes[i].term);
    OwnTermIsKnown(s'.nodes, i, s'.nodes[i].term);
    OrdinaryIsAccounted(s, s', i);
  }

  lemma VoteRespIsAccounted(s: State, s': State, i: NodeId, m: Msg, timeout: nat)
    requires PreVoteInv(s) && OnVoteResp(s, s', i, m, timeout)
    ensures Accounted(s, s')
  {
    assert Known(s.nodes, TermOf(m));
    OwnTermIsKnown(s.nodes, i, s.nodes[i].term);
    OrdinaryIsAccounted(s, s', i);
  }

  /** A step of one node in its term that sends nothing. */
  lemma StillIsAccounted(s: State, s': State, i: NodeId)
    requires PreVoteInv(s) && i in s.nodes && i in s'.nodes && s'.nodes == s.nodes[i := s'.nodes[i]]
    requires s'.nodes[i].term == s.nodes[i].term && (s'.nodes[i].role.Candidate? ==> s.nodes[i].role.Candidate?)
    requires s'.msgs == s.msgs && s'.campaigns == s.campaigns && s'.preVoteWinners == s.preVoteWinners
    ensures Accounted(s, s')
  {
    OwnTermIsKnown(s.nodes, i, s.nodes[i].term);
    OrdinaryIsAccounted(s, s', i);
  }

  lemma PreReqIsAccounted(s: State, s': State, i: NodeId, m: Msg)
    requires PreVoteInv(s) && OnPreReq(s, s', i, m)
    ensures Accounted(s, s')
  {
    OwnTermIsKnown(s.nodes, i, s.nodes[i].term);
    assert s.nodes == s.nodes[i := s.nodes[i]] && PreMsgOk(s, m);
    OrdinaryIsAccounted(s, s', i);
  }

  lemma ElectionIsAccounted(s: State, s': State)
    requires PreVoteInv(s) && NextElection(s, s')
    ensures Accounted(s, s')
  {
    if i, t :| DoStepDown(s, s', i, t) {
      StillIsAccounted(s, s', i);
    } else if i, m, t :| OnVoteReq(s, s', i, m, t) {
      VoteReqIsAccounted(s, s', i, m, t);
    } else if i, m, t :| OnVoteResp(s, s', i, m, t) {
      VoteRespIsAccounted(s, s', i, m, t);
    } else if i :| ReadTally(s, s', i) {
      assert s.nodes == s.nodes[i := s.nodes[i]];
      StillIsAccounted(s, s', i);
    } else if i, k :| EndCampaign(s, s', i, k) {
      StillIsAccounted(s, s', i);
    } else {
      var i, m :| OnPreReq(s, s', i, m);
      PreReqIsAccounted(s, s', i, m);
    }
  }

  lemma AppReqTerm(n: Node, m: Msg, timeout: nat)
    requires m.AppReq?
    ensures var (n', reply) := HandleAppendEntries(n, m.leader, m.term, m.prev, m.prevTerm, m.entries,
            m.leaderCommit, timeout);
            && n.term <= n'.term && (n'.term == n.term || n'.term == m.term) && reply.term <= n'.term
            && (n'.role.Candidate? ==> n.role.Candidate?)
  {
    ReconcileKeepsRole(ResetHeartbeat(ValidateLeaderRpc(n, m.term, m.leader, timeout).0),
                       m.prev, m.prevTerm, m.entries, m.leaderCommit);
  }

  lemma AppReqIsAccounted(s: State, s': State, m: Msg, timeout: nat)
    requires PreVoteInv(s) && OnAppReq(s, s', m, timeout)
    ensures Accounted(s, s')
  {
    assert Known(s.nodes, TermOf(m));
    AppReqTerm(s.nodes[m.dst], m, timeout);
    OwnTermIsKnown(s.nodes, m.dst, s.nodes[m.dst].term);
    var reply := HandleAppendEntries(s.nodes[m.dst], m.leader, m.term, m.prev, m.prevTerm, m.entries, m.leaderCommit,
        timeout).1;
    OwnTermIsKnown(s'.nodes, m.dst, reply.term);
    OrdinaryIsAccounted(s, s', m.dst);
  }

  lemma CrashInAppendIsAccounted(s: State, s': State, m: Msg, timeout: nat)
    requires PreVoteInv(s) && Fair(s) && CrashInAppend(s, s', m, timeout)
    ensures Accounted(s, s')
  {
    assert Known(s.nodes, TermOf(m));
    CrashInAppendIs(s, s', m, timeout);
    OwnTermIsKnown(s.nodes, m.dst, s.nodes[m.dst].term);
    CutKeepsRole(ValidateLeaderRpc(s.nodes[m.dst], m.term, m.leader, timeout).0, m.entries);
    OrdinaryIsAccounted(s, s', m.dst);
  }

  lemma SnapReqIsAccounted(s: State, s': State, m: Msg, timeout: nat)
    requires PreVoteInv(s) && OnSnapReq(s, s', m, timeout)
    ensures Accounted(s, s')
  {
    assert Known(s.nodes, TermOf(m));
    OwnTermIsKnown(s.nodes, m.dst, s.nodes[m.dst].term);
    OwnTermIsKnown(s'.nodes, m.dst, s.nodes[m.dst].term);
    OwnTermIsKnown(s'.nodes, m.dst, s'.nodes[m.dst].term);
    OrdinaryIsAccounted(s, s', m.dst);
  }

  lemma RecordTerm(n: Node, roundTerm: nat, peer: NodeId, o: Outcome, timeout: nat)
    ensures var n1 := RecordOutcome(n, roundTerm, peer, o, timeout).0;
            && (n1.term == n.term || (n1.term == OutcomeTerm(o) && n1.term > n.term))
            && (n1.role.Candidate? ==> n.role.Candidate?)
  {
  }

  lemma ReplyIsAccounted(s: State, s': State, i: NodeId, n': Node, m: Msg, timeout: nat)
    requires PreVoteInv(s) && OnReply(s, s', i, n', m, timeout)
    ensures Accounted(s, s')
  {
    assert Known(s.nodes, TermOf(m));
    RecordTerm(s.nodes[i], m.reqTerm, m.follower, OutcomeOf(m), timeout);
    OwnTermIsKnown(s.nodes, i, s.nodes[i].term);
    OrdinaryIsAccounted(s, s', i);
  }

  lemma SendIsAccounted(s: State, s': State, i: NodeId, m: Msg)
    requires PreVoteInv(s) && SendsOne(s, s', i, m) && m.term <= s.nodes[i].term
    ensures Accounted(s, s')
  {
    OwnTermIsKnown(s.nodes, i, s.nodes[i].term);
    OwnTermIsKnown(s'.nodes, i, m.term);
    assert s.nodes == s.nodes[i := s.nodes[i]];
    OrdinaryIsAccounted(s, s', i);
  }

  lemma SendsAreAccounted(s: State, s': State)
    requires PreVoteInv(s) && Fair(s) && NextSend(s, s')
    ensures Accounted(s, s')
  {
    var i, m, r := SendIs(s, s');
    if StartRound(s, s', i) {
      StartIsAccounted(s, s', i);
    } else {
      RoundIsOfThePast(s, i, r);
      SendIsAccounted(s, s', i, m);
    }
  }

  lemma StartIsAccounted(s: State, s': State, i: NodeId)
    requires PreVoteInv(s) && StartRound(s, s', i)
    ensures Accounted(s, s')
  {
    OwnTermIsKnown(s.nodes, i, s.nodes[i].term);
    assert s.nodes == s.nodes[i := s.nodes[i]];
    OrdinaryIsAccounted(s, s', i);
  }

  lemma DeliveryIsAccounted(s: State, s': State)
    requires PreVoteInv(s) && Fair(s) && NextDelivery(s, s')
    ensures Accounted(s, s')
  {
    if m, t :| OnAppReq(s, s', m, t) {
      AppReqIsAccounted(s, s', m, t);
    } else if m, t :| CrashInAppend(s, s', m, t) {
      CrashInAppendIsAccounted(s, s', m, t);
    } else if m, t :| OnSnapReq(s, s', m, t) {
      SnapReqIsAccounted(s, s', m, t);
    } else {
      var i, n, m, t :| OnReply(s, s', i, n, m, t);
      ReplyIsAccounted(s, s', i, n, m, t);
    }
  }

  lemma LocalIsAccounted(s: State, s': State)
    requires PreVoteInv(s) && NextLocal(s, s')
    ensures Accounted(s, s')
  {
    var i;
    if j, d :| ClientPropose(s, s', j, d) {
      i := j;
    } else if j :| ApplyOne(s, s', j) {
      i := j;
    } else if r :| FinishRestore(s, s', r) {
      i := r.node;
    } else if j, k :| StartCompaction(s, s', j, k) {
      i := j;
    } else if j, k :| FinishCompaction(s, s', j, k) {
      i := j;
    } else {
      var j, t :| Crash(s, s', j, t);
      i := j;
    }
    OwnTermIsKnown(s.nodes, i, s.nodes[i].term);
    OrdinaryIsAccounted(s, s', i);
  }

  lemma StepIsAccounted(s: State, s': State)
    requires PreVoteInv(s) && Fair(s) && Next(s, s')
    ensures Accounted(s, s')
  {
    if NextCampaign(s, s') {
      CampaignIsAccounted(s, s');
    } else if NextElection(s, s') {
      ElectionIsAccounted(s, s');
    } else if NextSend(s, s') {
      SendsAreAccounted(s, s');
    } else if NextDelivery(s, s') {
      DeliveryIsAccounted(s, s');
    } else {
      LocalIsAccounted(s, s');
    }
  }

  lemma CampaignIsAccounted(s: State, s': State)
    requires PreVoteInv(s) && Shape(s.nodes) && NextCampaign(s, s')
    ensures Accounted(s, s')
  {
    if i, h, t, c :| Tick(s, s', i, h, t, c) {
      TickIsAccounted(s, s', i, h, t, c);
    } else if m, t :| OnPreResp(s, s', m, t) {
      OnPreRespIsAccounted(s, s', m, t);
    } else {
      var c, t :| EndPreVote(s, s', c, t);
      EndPreVoteIsAccounted(s, s', c, t);
    }
  }

  // --- Over runs ---

  lemma InitiallyInOrder(s: State)
    requires Init(s)
    ensures PreVoteInv(s)
  {
  }

  lemma StepIsInOrder(run: seq<State>, i: nat)
    requires Behaviour(run) && i + 1 < |run| && PreVoteInv(run[i])
    ensures Accounted(run[i], run[i + 1]) && PreVoteInv(run[i + 1])
  {
    FairAlong(run, i);
    assert StepAt(run, i);
    StepIsAccounted(run[i], run[i + 1]);
    AccountedKeeps(run[i], run[i + 1]);
  }

  lemma {:induction false} PreVotesInOrder(run: seq<State>, i: nat)
    requires Behaviour(run) && i < |run|
    ensures PreVoteInv(run[i])
  {
    if i == 0 {
      InitiallyInOrder(run[0]);
    } else {
      PreVotesInOrder(run, i - 1);
      StepIsInOrder(run, i - 1);
    }
  }

  /** A quorum of the cluster, the node included, answered the campaign with a grant. */
  ghost predicate PreVoteQuorum(s: State, campaign: nat, a: NodeId) {
    && WonPreVote(s, campaign, a)
    && (forall v :: v in s.campaigns[campaign].granted ==> Granted(s, campaign, v))
    && IsQuorum(s.nodes, s.campaigns[campaign].granted + {a})
  }

  lemma WonByAQuorum(s: State, campaign: nat, a: NodeId)
    requires PreVoteInv(s) && WonPreVote(s, campaign, a)
    ensures PreVoteQuorum(s, campaign, a)
  {
    var vs := s.campaigns[campaign].granted;
    forall v | v in vs ensures v in s.nodes && v != a {
      var t :| PreResp(campaign, v, t, true) in s.msgs;
      assert PreMsgOk(s, PreResp(campaign, v, t, true));
    }
    UnionSize(vs, {a});
  }

  /** The step at `j` won the campaign for node `a`, and the node has been a candidate ever since, up to `i`. */
  ghost predicate CandidateSince(run: seq<State>, j: nat, i: nat, campaign: nat, a: NodeId) {
    && j < i < |run| && WonNow(run[j], run[j + 1], campaign, a) && PreVoteQuorum(run[j + 1], campaign, a)
    && forall k :: j < k <= i ==> a in run[k].nodes && run[k].nodes[a].role.Candidate?
  }

  ghost predicate NoCandidate(s: State) {
    forall a :: a in s.nodes ==> !s.nodes[a].role.Candidate?
  }

  lemma StartsWithoutCandidates(run: seq<State>, i: nat)
    requires Behaviour(run) && i < |run| && !NoCandidate(run[i])
    ensures i > 0
  {
  }

  lemma CandidacyBegins(run: seq<State>, i: nat, a: NodeId) returns (c: nat)
    requires Behaviour(run) && i + 1 < |run| && a in run[i].nodes && !run[i].nodes[a].role.Candidate?
    requires a in run[i + 1].nodes && run[i + 1].nodes[a].role.Candidate?
    ensures CandidateSince(run, i, i + 1, c, a)
  {
    StepTaken(run, i);
    c :| WonNow(run[i], run[i + 1], c, a);
    PreVotesInOrder(run, i + 1);
    WonByAQuorum(run[i + 1], c, a);
  }

  lemma SameNodes(run: seq<State>, i: nat)
    requires Behaviour(run) && i + 1 < |run|
    ensures run[i + 1].nodes.Keys == run[i].nodes.Keys
  {
    StepTaken(run, i);
  }

  /** Every candidacy begins with a pre-vote won by a quorum of grants, and lasts without a break from there. */
  lemma {:induction false} CandidatesWonAPreVote(run: seq<State>, i: nat, a: NodeId) returns (j: nat, c: nat)
    requires Behaviour(run) && i < |run| && a in run[i].nodes && run[i].nodes[a].role.Candidate?
    ensures CandidateSince(run, j, i, c, a)
    decreases i
  {
    StartsWithoutCandidates(run, i);
    SameNodes(run, i - 1);
    if run[i - 1].nodes[a].role.Candidate? {
      j, c := CandidatesWonAPreVote(run, i - 1, a);
    } else {
      j := i - 1;
      c := CandidacyBegins(run, j, a);
    }
  }

  /**
   The cluster's highest term rises by one, at a candidate: one that won a pre-vote with a quorum of
   grants in this very step, or did so earlier and has been a candidate without a break since.
   */
  lemma TermsRiseOnlyAfterPreVote(run: seq<State>, i: nat, a: NodeId) returns (j: nat, c: nat)
    requires Behaviour(run) && i + 1 < |run| && a in run[i + 1].nodes
    requires forall b :: b in run[i].nodes ==> run[i].nodes[b].term < run[i + 1].nodes[a].term
    ensures a in run[i].nodes && run[i + 1].nodes[a].term == run[i].nodes[a].term + 1
    ensures CandidateSince(run, j, i + 1, c, a)
  {
    var s, s' := run[i], run[i + 1];
    StepTaken(run, i);
    assert TermAccounted(s, s.nodes[a], s'.nodes[a]);
    j, c := CandidatesWonAPreVote(run, i + 1, a);
  }

  // --- Quiet stretches ---

  ghost predicate TermsWithin(s: State, t: nat) {
    forall a :: a in s.nodes ==> s.nodes[a].term <= t
  }

  ghost predicate NoPreVoteWon(s: State, s': State) {
    forall c, a :: !WonNow(s, s', c, a)
  }

  /** Nobody wins a pre-vote in the step at `i`. */
  ghost predicate QuietAt(run: seq<State>, i: nat) {
    i + 1 < |run| ==> NoPreVoteWon(run[i], run[i + 1])
  }

  ghost predicate AtRest(s: State, t: nat) {
    NoCandidate(s) && TermsWithin(s, t)
  }

  lemma QuietStep(s: State, s': State, t: nat)
    requires Accounted(s, s') && AtRest(s, t) && NoPreVoteWon(s, s')
    ensures AtRest(s', t)
  {
    forall a | a in s'.nodes ensures !s'.nodes[a].role.Candidate? && s'.nodes[a].term <= t {
      assert TermAccounted(s, s.nodes[a], s'.nodes[a]);
    }
  }

  lemma RestsOn(run: seq<State>, i: nat, t: nat)
    requires Behaviour(run) && i + 1 < |run| && AtRest(run[i], t) && QuietAt(run, i)
    ensures AtRest(run[i + 1], t)
  {
    StepTaken(run, i);
    QuietStep(run[i], run[i + 1], t);
  }

  /**
   From any moment without candidates, until somebody wins a pre-vote, no term exceeds those of that
   moment: a node that was cut off and rejoins, even one that won pre-votes before, disturbs nobody.
   */
  lemma {:induction false} TermsRestBetweenPreVotes(run: seq<State>, i: nat, j: nat, t: nat)
    requires Behaviour(run) && i <= j < |run| && AtRest(run[i], t)
    requires forall k: nat :: i <= k < j ==> QuietAt(run, k)
    ensures AtRest(run[j], t)
    decreases j
  {
    if i < j {
      TermsRestBetweenPreVotes(run, i, j - 1, t);
      RestsOn(run, j - 1, t);
    }
  }

  ghost predicate HasPreVoteQuorum(s: State, a: NodeId) {
    exists c :: PreVoteQuorum(s, c, a)
  }

  /** While nobody wins a pre-vote, no term leaves its initial value. */
  lemma {:induction false} NoPreVoteNoNewTerm(run: seq<State>, i: nat, a: NodeId)
    requires Behaviour(run) && i < |run| && a in run[i].nodes
    requires forall b :: b in run[i].nodes ==> !HasPreVoteQuorum(run[i], b)
    ensures run[i].nodes[a].term == 0
  {
    PreVotesInOrder(run, i);
    if b :| b in run[i].preVoteWinners {
      WinnerHasQuorum(run[i], b);
    } else {
      NoWinnerNoTerm(run, i);
    }
  }

  lemma WinnerHasQuorum(s: State, a: NodeId)
    requires PreVoteInv(s) && a in s.preVoteWinners
    ensures HasPreVoteQuorum(s, a) && a in s.nodes
  {
    var c :| c in s.campaigns && !s.campaigns[c].open && WonPreVote(s, c, a);
    WonByAQuorum(s, c, a);
  }

  ghost predicate ZeroTerms(s: State) {
    forall b :: b in s.nodes ==> s.nodes[b].term == 0
  }

  lemma ZeroTermsStay(s: State, s': State)
    requires Accounted(s, s') && PreVoteInv(s') && s'.preVoteWinners == {} && ZeroTerms(s)
    ensures ZeroTerms(s')
  {
    forall a | a in s'.nodes ensures s'.nodes[a].term == 0 {
      assert TermAccounted(s, s.nodes[a], s'.nodes[a]);
    }
  }

  lemma {:induction false} NoWinnerNoTerm(run: seq<State>, i: nat)
    requires Behaviour(run) && i < |run| && run[i].preVoteWinners == {}
    ensures ZeroTerms(run[i])
  {
    if i > 0 {
      StepTaken(run, i - 1);
      WinnersStay(run[i - 1], run[i]);
      NoWinnerNoTerm(run, i - 1);
      PreVotesInOrder(run, i);
      ZeroTermsStay(run[i - 1], run[i]);
    }
  }

  lemma WinnersStay(s: State, s': State)
    requires Accounted(s, s')
    ensures s.preVoteWinners <= s'.preVoteWinners
  {
  }

  lemma StepTaken(run: seq<State>, i: nat)
    requires Behaviour(run) && i + 1 < |run|
    ensures Accounted(run[i], run[i + 1])
  {
    PreVotesInOrder(run, i);
    StepIsInOrder(run, i);
  }
}
