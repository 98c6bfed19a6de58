/** Every careful event of the cluster keeps the invariant. */
module RaftEvents {
  import opened Common
  import opened FsmTypes
  import opened Raft
  import opened Cluster
  import opened RaftVotes
  import opened RaftInv
  import opened RaftQuiet
  import opened RaftLogs
  import opened RaftRewrite
  import opened RaftAppend
  import opened RaftRestore
  import opened RaftNet

  lemma {:induction false} InitKeeps(s: State)
    requires Init(s)
    ensures Inv(s)
  {
    InitIsFair(s);
    assert forall t :: LogOf(s.hist, t) == [];
  }

  /** The invariant holds again, and nothing was forgotten or taken back. */
  ghost predicate Kept(s: State, s': State) {
    Inv(s') && Grow(s.nodes, s.hist, s'.nodes, s'.hist)
  }

  /** The part of it that concerns nodes and history. */
  ghost predicate Held(s: State, s': State) {
    CoreInv(s'.nodes, s'.hist) && Grow(s.nodes, s.hist, s'.nodes, s'.hist)
  }

  lemma HeldSame(s: State, s1: State, s': State)
    requires Held(s, s1) && s'.nodes == s1.nodes && s'.hist == s1.hist
    ensures Held(s, s')
  {
  }

  lemma HeldTrans(a: State, b: State, c: State)
    requires Grow(a.nodes, a.hist, b.nodes, b.hist) && Held(b, c)
    ensures Held(a, c)
  {
    GrowTrans(a.nodes, a.hist, b.nodes, b.hist, c.nodes, c.hist);
  }

  ghost predicate PlainTo(s: State, s': State, i: NodeId) {
    && i in s.nodes && i in s'.nodes && s'.hist == s.hist && s'.nodes == s.nodes[i := s'.nodes[i]]
    && Plain(s.nodes[i], s'.nodes[i]) && Demure(s.nodes[i], s'.nodes[i])
  }

  lemma PlainToHolds(s: State, s': State, i: NodeId)
    requires CoreInv(s.nodes, s.hist) && PlainTo(s, s', i)
    ensures Held(s, s')
  {
    DemureKeeps(s.nodes, s.hist, i, s'.nodes[i], s'.hist);
    PlainKeeps(s.nodes, s.hist, i, s'.nodes[i]);
  }

  lemma IdleHolds(s: State, s': State)
    requires CoreInv(s.nodes, s.hist) && s'.nodes == s.nodes && s'.hist == s.hist
    ensures Held(s, s')
  {
    GrowRefl(s.nodes, s.hist);
  }

  lemma RoleStepIsPlain(n: Node, n': Node)
    requires Demure(n, n') && RoleStep(n, n') && Ordered(n)
    ensures Plain(n, n')
  {
  }

  // --- Candidacies ---

  lemma NodeReports(ns: Nodes, h: History, i: NodeId)
    requires LeaderLogsOk(ns, h) && LogsOk(ns, h) && CommitsOk(ns, h) && i in ns
    ensures Coordinates(h, ns[i], |ns[i].log|, LastStoredTerm(ns[i]))
  {
    assert Ordered(ns[i]) && TailFits(h, ns[i]) && BelowOk(h, ns[i]);
    ReportsCoordinates(ns, h, ns[i], ns[i].term);
  }

  lemma CandidacyCasts(ns: Nodes, h: History, i: NodeId, n: Node, timeout: nat)
    requires Shape(ns) && LogsOk(ns, h) && i in ns && n == ns[i].(tick := n.tick) && CanCampaign(n)
    ensures CastsWell(ns, h, i, IntoCandidate(n, timeout), i)
  {
    assert Ordered(ns[i]);
  }

  lemma CandidacyKeeps(ns: Nodes, h: History, i: NodeId, n: Node, timeout: nat)
    requires CoreInv(ns, h) && i in ns && n == ns[i].(tick := n.tick) && CanCampaign(n)
    ensures var n' := IntoCandidate(n, timeout);
            && CoreInv(ns[i := n'], CastVote(h, i, n'.term, i)) && Grow(ns, h, ns[i := n'], CastVote(h, i, n'.term, i))
            && Coordinates(CastVote(h, i, n'.term, i), n', |n'.log|, LastStoredTerm(n'))
  {
    var n' := IntoCandidate(n, timeout);
    CandidacyCasts(ns, h, i, n, timeout);
    CastWellKeeps(ns, h, i, n', i);
    NodeReports(ns[i := n'], CastVote(h, i, n'.term, i), i);
  }

  lemma CandidacyAdds(s: State, s': State, i: NodeId, n: Node, timeout: nat)
    requires CandidacyTo(s, s', i, n, timeout) && s.nodes[i].id == i
    requires var n' := IntoCandidate(n, timeout);
             Coordinates(CastVote(s.hist, i, n'.term, i), n', |n'.log|, LastStoredTerm(n'))
    ensures Adds(s, s') && s'.nodes == s.nodes[i := IntoCandidate(n, timeout)]
    ensures s'.hist == CastVote(s.hist, i, IntoCandidate(n, timeout).term, i)
  {
  }

  lemma CandidacyHolds(s: State, s': State, i: NodeId, n: Node, timeout: nat)
    requires CoreInv(s.nodes, s.hist) && CandidacyTo(s, s', i, n, timeout)
    ensures Held(s, s') && Adds(s, s')
  {
    assert s.nodes[i].id == i;
    CandidacyKeeps(s.nodes, s.hist, i, n, timeout);
    CandidacyAdds(s, s', i, n, timeout);
  }

  // --- Clock ---

  lemma PulseIsPlain(n: Node, interval: nat, timeout: nat)
    requires !n.role.Poisoned? && Ordered(n)
    ensures var (n', action) := Pulse(n, interval, timeout);
            action != StartElection ==> Plain(n, n')
  {
  }

  lemma RoundIsOk(ns: Nodes, h: History, i: NodeId)
    requires LeaderLogsOk(ns, h) && CommitsOk(ns, h) && i in ns && ns[i].role.Leader?
    ensures RoundOk(ns, h, Round(i, ns[i].term, ns[i].commit))
  {
  }

  lemma TickPlain(s: State, s': State, i: NodeId, interval: nat, timeout: nat, campaign: nat)
    requires Tick(s, s', i, interval, timeout, campaign) && Ordered(s.nodes[i]) && NextsOk(s.nodes[i])
    ensures || CandidacyTo(s, s', i, s.nodes[i].(tick := s.nodes[i].tick + 1), timeout)
            || (PlainTo(s, s', i) && s'.restores == s.restores
                && (forall m :: m in s'.msgs && m !in s.msgs ==> m.PreReq?)
                && (s'.rounds == s.rounds || (s.nodes[i].role.Leader?
                    && s'.rounds == s.rounds + {Round(i, s.nodes[i].term, s.nodes[i].commit)})))
  {
    PulseIs(s.nodes[i], interval, timeout);
    PulseIsPlain(s.nodes[i], interval, timeout);
  }

  lemma RoundAdds(s: State, s': State, i: NodeId)
    requires i in s.nodes && s'.restores == s.restores && (forall m :: m in s'.msgs && m !in s.msgs ==> m.PreReq?)
    requires s'.rounds == s.rounds + {Round(i, s.nodes[i].term, s.nodes[i].commit)}
    requires RoundOk(s'.nodes, s'.hist, Round(i, s.nodes[i].term, s.nodes[i].commit))
    ensures Adds(s, s')
  {
  }

  lemma LeaderRoundHolds(s: State, s': State, i: NodeId)
    requires CoreInv(s.nodes, s.hist) && Held(s, s') && i in s.nodes && s.nodes[i].role.Leader?
    ensures RoundOk(s'.nodes, s'.hist, Round(i, s.nodes[i].term, s.nodes[i].commit))
  {
    RoundIsOk(s.nodes, s.hist, i);
    LeaderCommitStable(s.nodes, s.hist, s'.nodes, s'.hist, s.nodes[i].term, s.nodes[i].commit, s.nodes[i].term);
  }

  lemma NodeIsOrdered(ns: Nodes, h: History, i: NodeId)
    requires CoreInv(ns, h) && i in ns
    ensures Ordered(ns[i]) && NextsOk(ns[i]) && ProgressOk(ns, h, ns[i]) && ns[i].id == i
  {
  }

  lemma TickHolds(s: State, s': State, i: NodeId, interval: nat, timeout: nat, campaign: nat)
    requires CoreInv(s.nodes, s.hist) && Tick(s, s', i, interval, timeout, campaign)
    ensures Held(s, s') && Adds(s, s')
  {
    NodeIsOrdered(s.nodes, s.hist, i);
    TickPlain(s, s', i, interval, timeout, campaign);
    if CandidacyTo(s, s', i, s.nodes[i].(tick := s.nodes[i].tick + 1), timeout) {
      CandidacyHolds(s, s', i, s.nodes[i].(tick := s.nodes[i].tick + 1), timeout);
    } else {
      PlainToHolds(s, s', i);
      if s'.rounds != s.rounds {
        LeaderRoundHolds(s, s', i);
        RoundAdds(s, s', i);
      }
    }
  }

  // --- Votes ---

  lemma AfterRolePlain(s: State, i: NodeId, term: nat, timeout: nat)
    requires i in s.nodes && Ordered(s.nodes[i]) && NextsOk(s.nodes[i])
    ensures PlainTo(s, AfterRole(s, i, term, timeout), i)
  {
    assert s.nodes[i := s.nodes[i]] == s.nodes;
  }

  lemma AfterRoleHolds(s: State, i: NodeId, term: nat, timeout: nat)
    requires CoreInv(s.nodes, s.hist) && i in s.nodes
    ensures Held(s, AfterRole(s, i, term, timeout))
  {
    NodeIsOrdered(s.nodes, s.hist, i);
    AfterRolePlain(s, i, term, timeout);
    PlainToHolds(s, AfterRole(s, i, term, timeout), i);
  }

  lemma GrantCasts(ns: Nodes, h: History, i: NodeId, m: Msg)
    requires VoteInv(ns, h) && LogsOk(ns, h) && i in ns && m.VoteReq? && MsgFair(ns, h, m) && MsgOk(ns, h, m)
    requires m.candidate != i && GrantsVote(ns[i], m.candidate, m.term, m.lastIndex, m.lastTerm)
    ensures CastsWell(ns, h, i, ns[i].(vote := Some(m.candidate)), m.candidate)
  {
    assert Ordered(ns[i]);
    var c := ns[m.candidate];
    if c.role.Candidate? && c.term == m.term {
      assert Coordinates(h, c, m.lastIndex, m.lastTerm) && UpToDate(ns[i], m.lastIndex, m.lastTerm);
    }
  }

  lemma GrantHolds(s: State, s': State, i: NodeId, m: Msg)
    requires CoreInv(s.nodes, s.hist) && i in s.nodes && m.VoteReq? && m.candidate != i
    requires MsgFair(s.nodes, s.hist, m) && MsgOk(s.nodes, s.hist, m)
    requires GrantsVote(s.nodes[i], m.candidate, m.term, m.lastIndex, m.lastTerm) && GrantTo(s, s', i, m)
    ensures Held(s, s')
  {
    GrantCasts(s.nodes, s.hist, i, m);
    CastWellKeeps(s.nodes, s.hist, i, s'.nodes[i], m.candidate);
  }

  lemma VoteReqStays(s: State, s1: State, m: Msg)
    requires m in s.msgs && m.VoteReq? && NetFair(s) && NetOk(s) && Grow(s.nodes, s.hist, s1.nodes, s1.hist)
    ensures MsgFair(s1.nodes, s1.hist, m) && MsgOk(s1.nodes, s1.hist, m)
  {
    MsgStable(s.nodes, s.hist, s1.nodes, s1.hist, m);
    MsgFairStable(s.nodes, s.hist, s1.nodes, s1.hist, m);
  }

  lemma VoteReqAdds(s: State, s1: State, s': State, i: NodeId, m: Msg)
    requires i in s1.nodes && m.VoteReq? && s1 == s.(nodes := s1.nodes)
             && (GrantTo(s1, s', i, m) || DenyTo(s1, s', i, m))
    ensures Adds(s, s')
  {
  }

  lemma OnVoteReqHolds(s: State, s': State, i: NodeId, m: Msg, timeout: nat)
    requires Inv(s) && OnVoteReq(s, s', i, m, timeout)
    ensures Held(s, s') && Adds(s, s')
  {
    var s1 := AfterRole(s, i, m.term, timeout);
    VoteReqIs(s, s', i, m, timeout);
    AfterRoleHolds(s, i, m.term, timeout);
    VoteReqStays(s, s1, m);
    VoteReqAdds(s, s1, s', i, m);
    if GrantsVote(s1.nodes[i], m.candidate, m.term, m.lastIndex, m.lastTerm) {
      GrantHolds(s1, s', i, m);
    } else {
      IdleHolds(s1, s');
    }
    HeldTrans(s, s1, s');
  }

  lemma CountHolds(s: State, s': State, i: NodeId, v: NodeId)
    requires CoreInv(s.nodes, s.hist) && CountTo(s, s', i, v)
    ensures Held(s, s')
  {
    assert Ordered(s.nodes[i]) && CommitOk(s.nodes, s.hist, s.nodes[i].log, s.nodes[i].commit, s.nodes[i].term);
    CountKeeps(s.nodes, s.hist, i, v);
    SoftKeeps(s.nodes, s.hist, i, Counted(s.nodes[i], v));
  }

  lemma PromotionHolds(s: State, s': State, i: NodeId, ws: set<NodeId>)
    requires CoreInv(s.nodes, s.hist) && PromotionTo(s, s', i, ws)
    ensures Held(s, s')
  {
    CrownKeeps(s.nodes, s.hist, i, ws);
  }

  lemma OnVoteRespHolds(s: State, s': State, i: NodeId, m: Msg, timeout: nat)
    requires Inv(s) && OnVoteResp(s, s', i, m, timeout)
    ensures Held(s, s') && Adds(s, s')
  {
    assert MsgFair(s.nodes, s.hist, m);
    VoteRespIs(s, s', i, m, timeout);
    if DemureTo(s, s', i) && s'.hist == s.hist && RoleStep(s.nodes[i], s'.nodes[i]) {
      assert Ordered(s.nodes[i]);
      RoleStepIsPlain(s.nodes[i], s'.nodes[i]);
      PlainToHolds(s, s', i);
    } else if CountTo(s, s', i, m.voter) {
      CountHolds(s, s', i, m.voter);
    } else {
      PromotionHolds(s, s', i, s.nodes[i].role.votes + {m.voter});
    }
  }

  lemma EndCampaignHolds(s: State, s': State, i: NodeId, tally: nat)
    requires Inv(s) && EndCampaign(s, s', i, tally)
    ensures Held(s, s') && Adds(s, s')
  {
    EndCampaignIs(s, s', i, tally);
    if s'.nodes == s.nodes && s'.hist == s.hist {
      IdleHolds(s, s');
    } else {
      PromotionHolds(s, s', i, s.nodes[i].role.votes);
    }
  }

  lemma DoStepDownPlain(s: State, s': State, i: NodeId, timeout: nat)
    requires DoStepDown(s, s', i, timeout) && Ordered(s.nodes[i])
    ensures PlainTo(s, s', i) && Adds(s, s')
  {
  }

  lemma DoStepDownHolds(s: State, s': State, i: NodeId, timeout: nat)
    requires CoreInv(s.nodes, s.hist) && DoStepDown(s, s', i, timeout)
    ensures Held(s, s') && Adds(s, s')
  {
    NodeIsOrdered(s.nodes, s.hist, i);
    DoStepDownPlain(s, s', i, timeout);
    PlainToHolds(s, s', i);
  }

  // --- Pre-votes ---

  /** The winner of a pre-vote that leads by then asks for votes it cannot use. */
  lemma LeaderAsksIdly(s: State, s': State, i: NodeId)
    requires i in s.nodes && s.nodes[i].role.Leader? && s.nodes[i].id == i && s'.nodes == s.nodes
    requires s'.msgs == s.msgs + {Campaigning(s.nodes[i])} && s'.rounds == s.rounds && s'.restores == s.restores
    ensures Adds(s, s')
  {
  }

  lemma WinPreVoteHolds(s: State, campaign: nat, granted: set<NodeId>, timeout: nat)
    requires Inv(s) && campaign in s.campaigns && Alive(s, s.campaigns[campaign].node)
    ensures Held(s, WinPreVote(s, campaign, granted, timeout)) && Adds(s, WinPreVote(s, campaign, granted, timeout))
  {
    var i := s.campaigns[campaign].node;
    var s' := WinPreVote(s, campaign, granted, timeout);
    WinPreVoteIs(s, campaign, granted, timeout);
    if CandidacyTo(s, s', i, s.nodes[i], timeout) {
      CandidacyHolds(s, s', i, s.nodes[i], timeout);
    } else {
      NodeIsOrdered(s.nodes, s.hist, i);
      LeaderAsksIdly(s, s', i);
      IdleHolds(s, s');
    }
  }

  lemma PreRespPlain(s: State, s': State, i: NodeId, term: nat, timeout: nat)
    requires i in s.nodes && Ordered(s.nodes[i]) && term > s.nodes[i].term && s'.hist == s.hist
    requires s'.nodes == s.nodes[i := IntoFollower(s.nodes[i], term, None, timeout)]
    ensures PlainTo(s, s', i)
  {
  }

  lemma OnPreRespHolds(s: State, s': State, m: Msg, timeout: nat)
    requires Inv(s) && OnPreResp(s, s', m, timeout)
    ensures Held(s, s') && Adds(s, s')
  {
    var c := s.campaigns[m.campaign];
    var n := s.nodes[c.node];
    var granted := if m.granted then c.granted + {m.voter} else c.granted;
    if m.respTerm > c.term && m.respTerm > n.term {
      NodeIsOrdered(s.nodes, s.hist, c.node);
      PreRespPlain(s, s', c.node, m.respTerm, timeout);
      PlainToHolds(s, s', c.node);
    } else if m.granted && |granted| + 1 >= Majority(n) {
      WinPreVoteHolds(s, m.campaign, granted, timeout);
    } else {
      IdleHolds(s, s');
    }
  }

  lemma EndPreVoteHolds(s: State, s': State, campaign: nat, timeout: nat)
    requires Inv(s) && EndPreVote(s, s', campaign, timeout)
    ensures Held(s, s') && Adds(s, s')
  {
    var c := s.campaigns[campaign];
    if |c.granted| + 1 >= Majority(s.nodes[c.node]) {
      WinPreVoteHolds(s, campaign, c.granted, timeout);
    } else {
      IdleHolds(s, s');
    }
  }

  // --- Sending ---

  /** What a round committed is a prefix of the sender's present log, even in a later term. */
  lemma RoundIsCarried(ns: Nodes, h: History, r: Round, u: nat)
    requires LeadersSafe(ns, h) && RoundOk(ns, h, r) && r.term <= u && u in h.leaderLog
    ensures CommitOk(ns, h, LogOf(h, u), r.commit, r.term)
  {
    if r.commit > 0 {
      var t: nat, k: nat :| t <= r.term && Backed(ns, h, LogOf(h, r.term), r.commit, t, k);
      BackedIsCarried(ns, h, LogOf(h, r.term), r.commit, t, k, u);
      assert Backed(ns, h, LogOf(h, u), r.commit, t, k);
    }
  }

  lemma SenderLeads(s: State, i: NodeId, r: Round)
    requires Inv(s) && r in s.rounds && r.node == i && i in s.nodes && s.nodes[i].role.Leader?
    ensures var u := s.nodes[i].term;
            && r.term <= u && u in s.hist.leaderLog && LogOf(s.hist, u) == s.nodes[i].log
            && CommitOk(s.nodes, s.hist, LogOf(s.hist, u), r.commit, r.term)
  {
    RoundIsOfThePast(s, i, r);
    assert RoundOk(s.nodes, s.hist, r);
    RoundIsCarried(s.nodes, s.hist, r, s.nodes[i].term);
  }

  lemma RequestOffers(n: Node, next: nat)
    requires n.horizon < next <= |n.log| + 1
    ensures Offers(n.log, next - 1, StoredTerm(n, next - 1), TailFrom(n.log, next - 1))
  {
    assert n.log[next - 1..] == n.log[next - 1..|n.log|];
  }

  /** What a sender's request rests on. */
  ghost predicate Sends(ns: Nodes, h: History, n: Node, r: Round) {
    && n.term in h.leaderLog && LogOf(h, n.term) == n.log && CommitOk(ns, h, n.log, r.commit, r.term)
    && Ordered(n) && n.role.Leader?
  }

  lemma SenderSends(s: State, i: NodeId, r: Round)
    requires Inv(s) && r in s.rounds && r.node == i && i in s.nodes && s.nodes[i].role.Leader?
    ensures Sends(s.nodes, s.hist, s.nodes[i], r) && ProgressOk(s.nodes, s.hist, s.nodes[i]) && s.nodes[i].id == i
  {
    SenderLeads(s, i, r);
    NodeIsOrdered(s.nodes, s.hist, i);
  }

  lemma OneMessageHolds(s: State, s': State, m: Msg)
    requires CoreInv(s.nodes, s.hist) && s' == s.(msgs := s.msgs + {m}) && MsgOk(s.nodes, s.hist, m)
    ensures Held(s, s') && Adds(s, s')
  {
    IdleHolds(s, s');
  }

  lemma AppendIsOk(ns: Nodes, h: History, n: Node, peer: NodeId, r: Round)
    requires Sends(ns, h, n, r) && ProgressOk(ns, h, n) && peer in n.peers && NextOf(n, peer) > n.horizon
    ensures MsgOk(ns, h, BuildAppend(n, peer, r))
  {
    RequestOffers(n, NextOf(n, peer));
  }

  lemma SendAppendHolds(s: State, s': State, i: NodeId, peer: NodeId, r: Round)
    requires Inv(s) && SendAppend(s, s', i, peer, r)
    ensures Held(s, s') && Adds(s, s')
  {
    SenderSends(s, i, r);
    AppendIsOk(s.nodes, s.hist, s.nodes[i], peer, r);
    OneMessageHolds(s, s', BuildAppend(s.nodes[i], peer, r));
  }

  lemma ProbeIsOk(ns: Nodes, h: History, n: Node, peer: NodeId, r: Round)
    requires Sends(ns, h, n, r)
    ensures MsgOk(ns, h, BuildProbe(n, peer, r))
  {
    assert n.log[n.horizon..n.horizon + 0] == [];
  }

  lemma SendProbeHolds(s: State, s': State, i: NodeId, peer: NodeId, r: Round)
    requires Inv(s) && SendProbe(s, s', i, peer, r)
    ensures Held(s, s') && Adds(s, s')
  {
    SenderSends(s, i, r);
    ProbeIsOk(s.nodes, s.hist, s.nodes[i], peer, r);
    OneMessageHolds(s, s', BuildProbe(s.nodes[i], peer, r));
  }

  lemma SnapshotIsOk(ns: Nodes, h: History, i: NodeId, peer: NodeId)
    requires i in ns && Ordered(ns[i]) && CommitOk(ns, h, ns[i].log, ns[i].commit, ns[i].term)
    ensures MsgOk(ns, h, SnapReq(i, peer, ns[i].term, ns[i].log[..ns[i].horizon], ns[i].term))
  {
    var n := ns[i];
    CommitOkLess(ns, h, n.log, n.commit, n.horizon, n.term);
    assert n.log[..n.horizon] == n.log[..n.horizon][..n.horizon];
    CommitOkExtends(ns, h, n.log, n.log[..n.horizon], n.horizon, n.term);
  }

  lemma SendSnapshotHolds(s: State, s': State, i: NodeId, peer: NodeId, r: Round)
    requires Inv(s) && SendSnapshot(s, s', i, peer, r) && r.term == s.nodes[i].term
    ensures Held(s, s') && Adds(s, s')
  {
    NodeIsOrdered(s.nodes, s.hist, i);
    SnapshotIsOk(s.nodes, s.hist, i, peer);
    OneMessageHolds(s, s', SnapReq(i, peer, r.term, s.nodes[i].log[..s.nodes[i].horizon], s.nodes[i].term));
  }

  lemma StartRoundHolds(s: State, s': State, i: NodeId)
    requires CoreInv(s.nodes, s.hist) && StartRound(s, s', i)
    ensures Held(s, s') && Adds(s, s')
  {
    IdleHolds(s, s');
    LeaderRoundHolds(s, s', i);
    RoundAdds(s, s', i);
  }

  // --- Append requests ---

  /** Reading and cutting the store looks at no role. */
  lemma CutIgnoresRole(n: Node, n': Node, entries: seq<Entry>)
    requires n' == n.(term := n'.term, vote := n'.vote, role := n'.role)
    ensures CutConflict(n', entries) == CutConflict(n, entries).(term := n'.term, vote := n'.vote, role := n'.role)
    ensures CutsAbove(n, entries) <==> CutsAbove(n', entries)
  {
    if entries != [] && !Conflicts(n, entries[0]) { CutIgnoresRole(n, n', entries[1..]); }
  }

  lemma ReconcileIgnoresRole(n: Node, n': Node, m: Msg)
    requires n' == n.(term := n'.term, vote := n'.vote, role := n'.role) && m.AppReq?
    ensures CutsAbove(n, m.entries) <==> CutsAbove(n', m.entries)
    ensures CommitsWithin(n, m) <==> CommitsWithin(n', m)
  {
    CutIgnoresRole(n, n', m.entries);
  }

  /** The request as the node meets it after its role step. */
  ghost predicate Taking(ns: Nodes, h: History, m: Msg) {
    && m.AppReq? && m.dst in ns && ns[m.dst].role.Follower? && ns[m.dst].term == m.term && m.term <= m.origin
    && AppReqOk(ns, h, m)
    && (Consistent(ns[m.dst], m.prev, m.prevTerm) ==> CutsAbove(ns[m.dst], m.entries) && CommitsWithin(ns[m.dst], m))
  }

  lemma TakingMeets(ns: Nodes, h: History, m: Msg)
    requires LeaderLogsOk(ns, h) && LogsOk(ns, h) && LeadersSafe(ns, h) && CommitsOk(ns, h) && Taking(ns, h, m)
    ensures Meets(h, ns[m.dst], LogOf(h, m.origin)) && BelowOk(h, ns[m.dst])
    ensures CommitOk(ns, h, ns[m.dst].log, ns[m.dst].commit, ns[m.dst].term)
  {
    assert Ordered(ns[m.dst]) && TailFits(h, ns[m.dst]) && BelowOk(h, ns[m.dst]);
    SourceMeets(ns, h, ns[m.dst], m.origin);
  }

  lemma TakenCommit(ns: Nodes, h: History, n: Node, source: seq<Entry>, m: Msg, n': Node)
    requires m.AppReq? && Merges(n, source, m.prev + |m.entries|, m.leaderCommit, n') && Settled(n, source)
    requires Min(m.leaderCommit, |n'.log|) <= Max(n.commit, m.prev + |m.entries|)
    requires CommitOk(ns, h, source, m.leaderCommit, n.term)
    ensures n.commit <= n'.commit
    ensures n'.commit > n.commit ==> n'.commit <= m.prev + |m.entries| && CommitOk(ns, h, source, n'.commit, n.term)
  {
    MergeKeepsAgreement(n.log, source, m.prev + |m.entries|, n'.log, n.commit);
    if n'.commit > n.commit { CommitOkLess(ns, h, source, m.leaderCommit, n'.commit, n.term); }
  }

  lemma TakingAppends(ns: Nodes, h: History, m: Msg)
    requires LeaderLogsOk(ns, h) && LogsOk(ns, h) && LeadersSafe(ns, h) && CommitsOk(ns, h) && Taking(ns, h, m)
    ensures var n := ns[m.dst];
            var (n', ok) := Reconcile(n, m.prev, m.prevTerm, m.entries, m.leaderCommit);
            && (!ok ==> n' == n)
            && (ok ==> Appends(ns, h, n, m.origin, m.prev + |m.entries|, n'))
  {
    TakingMeets(ns, h, m);
    MeetingAppends(ns, h, ns[m.dst], m);
  }

  lemma MeetingAppends(ns: Nodes, h: History, n: Node, m: Msg)
    requires m.AppReq? && n.role.Follower? && n.term == m.term <= m.origin && AppReqOk(ns, h, m)
    requires Consistent(n, m.prev, m.prevTerm) ==> CutsAbove(n, m.entries) && CommitsWithin(n, m)
    requires Meets(h, n, LogOf(h, m.origin))
    ensures var (n', ok) := Reconcile(n, m.prev, m.prevTerm, m.entries, m.leaderCommit);
            && (!ok ==> n' == n)
            && (ok ==> Appends(ns, h, n, m.origin, m.prev + |m.entries|, n'))
  {
    var source := LogOf(h, m.origin);
    ReconcileMerges(h, n, source, m.prev, m.prevTerm, m.entries, m.leaderCommit);
    var (n', ok) := Reconcile(n, m.prev, m.prevTerm, m.entries, m.leaderCommit);
    if ok { TakenCommit(ns, h, n, source, m, n'); }
  }

  /** The role step of a request. */
  lemma RoleIsPlain(ns: Nodes, h: History, m: Msg, timeout: nat, n1: Node)
    requires VoteInv(ns, h) && (m.AppReq? || m.SnapReq?) && m.dst in ns && !ns[m.dst].role.Poisoned?
             && MsgFair(ns, h, m)
    requires Ordered(ns[m.dst])
    requires var (n0, check) := ValidateLeaderRpc(ns[m.dst], m.term, m.leader, timeout);
             n1 == n0 || (check.Valid? && n1 == ResetHeartbeat(n0))
    ensures Plain(ns[m.dst], n1) && Demure(ns[m.dst], n1) && RoleStep(ns[m.dst], n1) && !n1.role.Poisoned?
    ensures ValidateLeaderRpc(ns[m.dst], m.term, m.leader, timeout).1.Valid? ==> n1.role.Follower? && n1.term == m.term
    ensures m.term <= m.origin
  {
    LeaderRpcIsDemure(ns, h, m.dst, m.term, m.leader, timeout);
    RoleStepIsPlain(ns[m.dst], n1);
  }

  lemma RoleOfRequest(s: State, m: Msg, timeout: nat, n1: Node) returns (s1: State)
    requires Inv(s) && m in s.msgs && (m.AppReq? || m.SnapReq?) && Alive(s, m.dst)
    requires var (n0, check) := ValidateLeaderRpc(s.nodes[m.dst], m.term, m.leader, timeout);
             n1 == n0 || (check.Valid? && n1 == ResetHeartbeat(n0))
    ensures s1 == s.(nodes := s.nodes[m.dst := n1]) && Held(s, s1) && RoleStep(s.nodes[m.dst], n1)
    ensures ValidateLeaderRpc(s.nodes[m.dst], m.term, m.leader, timeout).1.Valid? ==>
              n1.role.Follower? && n1.term == m.term
    ensures m.term <= m.origin && !n1.role.Poisoned?
  {
    s1 := s.(nodes := s.nodes[m.dst := n1]);
    assert MsgFair(s.nodes, s.hist, m);
    NodeIsOrdered(s.nodes, s.hist, m.dst);
    RoleIsPlain(s.nodes, s.hist, m, timeout, n1);
    PlainToHolds(s, s1, m.dst);
  }

  lemma RequestIsTaken(s: State, s1: State, m: Msg)
    requires m.AppReq? && m.dst in s.nodes && m.dst in s1.nodes && SafeToTake(s, m) && AppReqOk(s.nodes, s.hist, m)
    requires Grow(s.nodes, s.hist, s1.nodes, s1.hist) && RoleStep(s.nodes[m.dst], s1.nodes[m.dst])
    requires s1.nodes[m.dst].role.Follower? && s1.nodes[m.dst].term == m.term <= m.origin
    ensures Taking(s1.nodes, s1.hist, m)
  {
    AppReqStable(s.nodes, s.hist, s1.nodes, s1.hist, m);
    ReconcileIgnoresRole(s.nodes[m.dst], s1.nodes[m.dst], m);
  }

  /** The node after a request that succeeds. */
  ghost predicate Takes(ns: Nodes, h: History, m: Msg, n': Node)
    requires m.AppReq? && m.dst in ns
  {
    && Appends(ns, h, ns[m.dst], m.origin, m.prev + |m.entries|, n')
    && Rewrites(ns, h, ns[m.dst], n') && Demure(ns[m.dst], n')
  }

  lemma AppendsTakes(ns: Nodes, h: History, m: Msg, n': Node)
    requires LeaderLogsOk(ns, h) && LeadersSafe(ns, h) && m.AppReq? && m.dst in ns && BelowOk(h, ns[m.dst])
    requires CommitOk(ns, h, ns[m.dst].log, ns[m.dst].commit, ns[m.dst].term)
    requires Appends(ns, h, ns[m.dst], m.origin, m.prev + |m.entries|, n')
    ensures Takes(ns, h, m, n')
  {
    AppendRewrites(ns, h, ns[m.dst], m.origin, m.prev + |m.entries|, n');
  }

  lemma TakingTakes(ns: Nodes, h: History, m: Msg)
    requires LeaderLogsOk(ns, h) && LogsOk(ns, h) && LeadersSafe(ns, h) && CommitsOk(ns, h) && Taking(ns, h, m)
    ensures var (n', ok) := Reconcile(ns[m.dst], m.prev, m.prevTerm, m.entries, m.leaderCommit);
            (!ok ==> n' == ns[m.dst]) && (ok ==> Takes(ns, h, m, n'))
  {
    TakingMeets(ns, h, m);
    TakingAppends(ns, h, m);
    var (n', ok) := Reconcile(ns[m.dst], m.prev, m.prevTerm, m.entries, m.leaderCommit);
    if ok { AppendsTakes(ns, h, m, n'); }
  }

  lemma TakesHolds(s: State, s': State, m: Msg, n': Node)
    requires CoreInv(s.nodes, s.hist) && m.AppReq? && m.dst in s.nodes && Takes(s.nodes, s.hist, m, n')
    requires s' == s.(nodes := s.nodes[m.dst := n'])
    ensures Held(s, s')
  {
    StoreHolds(s, s', m.dst);
  }

  lemma AckIsDue(ns: Nodes, h: History, n: Node, m: Msg, k: nat)
    requires LeaderLogsOk(ns, h) && m.AppReq? && m.dst in ns && m.origin == m.term == n.term && ns[m.dst].term == n.term
    requires Appends(ns, h, n, m.origin, k, ns[m.dst])
    ensures Acknowledges(ns, h, m.dst, n.commit, k)
  {
    forall j: nat | n.commit < j <= k ensures ReportsOwn(h, ns[m.dst], j) {
      if Own(h, m.term, j) { SuccessReports(ns, h, n, m.term, k, ns[m.dst], j); }
    }
  }

  lemma AckHolds(s: State, s': State, i: NodeId, low: nat, k: nat)
    requires CoreInv(s.nodes, s.hist) && Acknowledges(s.nodes, s.hist, i, low, k)
    requires s'.nodes == s.nodes && s'.hist == NoteAcks(s.hist, i, s.nodes[i].term, low, k)
    ensures Held(s, s')
  {
    AckKeeps(s.nodes, s.hist, i, low, k);
  }

  /** After the append: the acknowledgement, if the request was built in the term it was sent in. */
  lemma AckAfter(ns: Nodes, h: History, ns': Nodes, m: Msg, n': Node, k: nat)
    requires LeaderLogsOk(ns', h) && m.AppReq? && m.dst in ns && ns' == ns[m.dst := n']
    requires Appends(ns, h, ns[m.dst], m.origin, k, n') && Demure(ns[m.dst], n')
    requires Grow(ns, h, ns', h) && m.origin == m.term == ns[m.dst].term
    ensures Acknowledges(ns', h, m.dst, ns[m.dst].commit, k) && ns'[m.dst].term == m.term
  {
    AppendsElsewhere(ns, ns', h, ns[m.dst], m.origin, k, n');
    AckIsDue(ns', h, ns[m.dst], m, k);
  }

  lemma AckedHolds(s: State, s1: State, s': State, i: NodeId, t: nat, low: nat, k: nat)
    requires Held(s, s1) && Acknowledges(s1.nodes, s1.hist, i, low, k) && s1.nodes[i].term == t
    requires s'.nodes == s1.nodes && s'.hist == NoteAcks(s1.hist, i, t, low, k)
    ensures Held(s, s')
  {
    AckHolds(s1, s', i, low, k);
    HeldTrans(s, s1, s');
  }

  lemma AppendsElsewhere(ns: Nodes, ns': Nodes, h: History, n: Node, u: nat, k: nat, n': Node)
    requires Appends(ns, h, n, u, k, n') && Grow(ns, h, ns', h)
    ensures Appends(ns', h, n, u, k, n')
  {
    if n'.commit > n.commit { CommitOkStable(ns, h, ns', h, LogOf(h, u), n'.commit, n.term); }
  }

  /** The answer of a success vouches for what it reached. */
  lemma SuccessVouches(ns: Nodes, h: History, ns': Nodes, h': History, m: Msg, k: nat)
    requires LeaderLogsOk(ns, h) && LogsOk(ns, h) && LeadersSafe(ns, h) && CommitsOk(ns, h) && Taking(ns, h, m)
    requires Grow(ns, h, ns', h') && m.origin == m.term && Own(h, m.term, k) && k <= m.prev + |m.entries|
    requires h' == NoteAcks(h, m.dst, m.term, ns[m.dst].commit, m.prev + |m.entries|)
    ensures Vouches(ns', h', m.dst, m.term, k)
  {
    TakingMeets(ns, h, m);
    if k <= ns[m.dst].commit {
      CommittedIsChosen(ns, h, ns[m.dst], m.term, m.prev + |m.entries|, k);
      VouchesStable(ns, h, ns', h', m.dst, m.term, k);
    }
  }

  lemma SuccessIsOk(ns: Nodes, h: History, ns': Nodes, h': History, m: Msg, reply: AppendReply)
    requires LeaderLogsOk(ns, h) && LogsOk(ns, h) && LeadersSafe(ns, h) && CommitsOk(ns, h) && Taking(ns, h, m)
    requires Grow(ns, h, ns', h')
    requires m.origin == m.term ==> h' == NoteAcks(h, m.dst, m.term, ns[m.dst].commit, m.prev + |m.entries|)
    ensures AppRespOk(ns', h', AnswerOf(m, reply))
  {
    assert LogOf(h, m.origin) <= LogOf(h', m.origin);
    if m.origin == m.term {
      forall k: nat | k <= m.prev + |m.entries| && Own(h', m.term, k) ensures Vouches(ns', h', m.dst, m.term, k) {
        assert Own(h, m.term, k);
        SuccessVouches(ns, h, ns', h', m, k);
      }
    }
  }

  lemma RefusalIsOk(ns: Nodes, h: History, m: Msg, reply: AppendReply)
    requires m.AppReq? && AppReqOk(ns, h, m) && !reply.success
    ensures AppRespOk(ns, h, AppResp(m.dst, m.leader, m.term, m.prev, |m.entries|, reply, m.origin))
  {
  }

  function AnswerOf(m: Msg, reply: AppendReply): Msg
    requires m.AppReq?
  {
    AppResp(m.dst, m.leader, m.term, m.prev, |m.entries|, reply, m.origin)
  }

  /** What a request makes of the state, in terms of the node after its role step. */
  ghost predicate RefusedBy(s: State, s1: State, s': State, m: Msg, reply: AppendReply)
    requires m.AppReq?
  {
    s' == s1.(msgs := s.msgs + {AnswerOf(m, reply)}) && !reply.success
  }

  ghost predicate TakenBy(s: State, s1: State, s': State, m: Msg, n': Node, reply: AppendReply)
    requires m.AppReq? && m.dst in s1.nodes
  {
    s' == s1.(nodes := s1.nodes[m.dst := n'], msgs := s.msgs + {AnswerOf(m, reply)},
              hist := if m.origin == m.term
                      then NoteAcks(s.hist, m.dst, m.term, s1.nodes[m.dst].commit, m.prev + |m.entries|) else s.hist)
  }

  lemma StaleRequestIs(s: State, s1: State, s': State, m: Msg, timeout: nat) returns (reply: AppendReply)
    requires OnAppReq(s, s', m, timeout) && ValidateLeaderRpc(s.nodes[m.dst], m.term, m.leader, timeout).1.Stale?
    requires s1 == s.(nodes := s.nodes[m.dst := ValidateLeaderRpc(s.nodes[m.dst], m.term, m.leader, timeout).0])
    requires !s1.nodes[m.dst].role.Poisoned?
    ensures RefusedBy(s, s1, s', m, reply)
  {
    reply := AppendReply(s.nodes[m.dst].term, false, 0);
  }

  lemma ValidRequestIs(s: State, s1: State, s': State, m: Msg, timeout: nat, n2: Node) returns (reply: AppendReply)
    requires OnAppReq(s, s', m, timeout) && ValidateLeaderRpc(s.nodes[m.dst], m.term, m.leader, timeout).1.Valid?
    requires n2 == ResetHeartbeat(ValidateLeaderRpc(s.nodes[m.dst], m.term, m.leader, timeout).0)
    requires s1 == s.(nodes := s.nodes[m.dst := n2]) && n2.role.Follower? && n2.commit == s.nodes[m.dst].commit
    requires !Reconcile(n2, m.prev, m.prevTerm, m.entries, m.leaderCommit).0.role.Poisoned?
    ensures var (n', ok) := Reconcile(n2, m.prev, m.prevTerm, m.entries, m.leaderCommit);
            && (ok ==> TakenBy(s, s1, s', m, n', reply))
            && (!ok ==>
                  !reply.success && s' == s1.(nodes := s1.nodes[m.dst := n'], msgs := s.msgs + {AnswerOf(m, reply)}))
  {
    var (n', ok) := Reconcile(n2, m.prev, m.prevTerm, m.entries, m.leaderCommit);
    reply := AppendReply(n2.term, ok, |n'.log|);
    assert s1.nodes[m.dst := n'] == s.nodes[m.dst := n'];
  }

  lemma AnswerAdds(s: State, s': State, m: Msg)
    requires s'.msgs == s.msgs + {m} && s'.rounds == s.rounds && s'.restores == s.restores
    requires MsgOk(s'.nodes, s'.hist, m)
    ensures Adds(s, s')
  {
  }

  lemma RefusedHolds(s: State, s1: State, s': State, m: Msg, reply: AppendReply)
    requires CoreInv(s1.nodes, s1.hist) && Grow(s.nodes, s.hist, s1.nodes, s1.hist) && m.AppReq?
    requires AppReqOk(s.nodes, s.hist, m)
    requires RefusedBy(s, s1, s', m, reply) && s1.rounds == s.rounds && s1.restores == s.restores
    ensures Held(s, s') && Adds(s, s')
  {
    AppReqStable(s.nodes, s.hist, s1.nodes, s1.hist, m);
    RefusalIsOk(s1.nodes, s1.hist, m, reply);
    AnswerAdds(s, s', AnswerOf(m, reply));
  }

  lemma AckOfTaken(ns: Nodes, h: History, ns': Nodes, m: Msg, n': Node)
    requires LeaderLogsOk(ns', h) && m.AppReq? && m.dst in ns && Takes(ns, h, m, n') && ns' == ns[m.dst := n']
    requires Grow(ns, h, ns', h) && m.origin == m.term == ns[m.dst].term
    ensures Acknowledges(ns', h, m.dst, ns[m.dst].commit, m.prev + |m.entries|) && ns'[m.dst].term == m.term
  {
    AckAfter(ns, h, ns', m, n', m.prev + |m.entries|);
  }

  /** What the history notes of a success is due. */
  lemma NotedAcks(ns: Nodes, h: History, ns': Nodes, h': History, m: Msg, n': Node) returns (low: nat, k: nat)
    requires LeaderLogsOk(ns', h) && m.AppReq? && m.dst in ns && Takes(ns, h, m, n') && ns' == ns[m.dst := n']
    requires Grow(ns, h, ns', h) && m.term == ns[m.dst].term
    requires h' == if m.origin == m.term
                   then NoteAcks(h, m.dst, m.term, ns[m.dst].commit, m.prev + |m.entries|) else h
    ensures m.origin == m.term ==> Acknowledges(ns', h, m.dst, low, k) && ns'[m.dst].term == m.term
    ensures h' == if m.origin == m.term then NoteAcks(h, m.dst, m.term, low, k) else h
  {
    low, k := ns[m.dst].commit, m.prev + |m.entries|;
    if m.origin == m.term { AckOfTaken(ns, h, ns', m, n'); }
  }

  lemma MergedHolds(s: State, s1: State, s': State, m: Msg, low: nat, k: nat)
    requires m.AppReq? && Held(s, s1) && s'.nodes == s1.nodes
    requires m.origin == m.term ==>
               Acknowledges(s1.nodes, s1.hist, m.dst, low, k) && s1.nodes[m.dst].term == m.term
    requires s'.hist == if m.origin == m.term then NoteAcks(s1.hist, m.dst, m.term, low, k) else s1.hist
    ensures Held(s, s')
  {
    if m.origin == m.term {
      AckedHolds(s, s1, s', m.dst, m.term, low, k);
    } else {
      HeldSame(s, s1, s');
    }
  }

  lemma TakenHolds(s: State, s1: State, s': State, m: Msg, n': Node, reply: AppendReply)
    requires CoreInv(s1.nodes, s1.hist) && Grow(s.nodes, s.hist, s1.nodes, s1.hist) && s1 == s.(nodes := s1.nodes)
    requires Taking(s1.nodes, s1.hist, m) && Takes(s1.nodes, s1.hist, m, n') && TakenBy(s, s1, s', m, n', reply)
    ensures Held(s, s') && Adds(s, s')
  {
    var s2 := s1.(nodes := s1.nodes[m.dst := n']);
    var s3 := s2.(hist := s'.hist);
    TakesHolds(s1, s2, m, n');
    var low, k := NotedAcks(s1.nodes, s1.hist, s2.nodes, s3.hist, m, n');
    MergedHolds(s1, s2, s3, m, low, k);
    HeldTrans(s, s1, s3);
    SuccessIsOk(s1.nodes, s1.hist, s3.nodes, s3.hist, m, reply);
    AnswerAdds(s, s', AnswerOf(m, reply));
  }

  lemma ValidRequestHolds(s: State, s1: State, s': State, m: Msg, timeout: nat, n2: Node)
    requires OnAppReq(s, s', m, timeout) && Taking(s1.nodes, s1.hist, m) && AppReqOk(s.nodes, s.hist, m)
    requires CoreInv(s1.nodes, s1.hist) && Grow(s.nodes, s.hist, s1.nodes, s1.hist)
    requires s1 == s.(nodes := s.nodes[m.dst := n2])
    requires var (n1, check) := ValidateLeaderRpc(s.nodes[m.dst], m.term, m.leader, timeout);
             check.Valid? && n2 == ResetHeartbeat(n1) && n2.commit == s.nodes[m.dst].commit
    ensures Held(s, s') && Adds(s, s')
  {
    var (n', ok) := Reconcile(n2, m.prev, m.prevTerm, m.entries, m.leaderCommit);
    ReconcileKeepsRole(n2, m.prev, m.prevTerm, m.entries, m.leaderCommit);
    TakingTakes(s1.nodes, s1.hist, m);
    var reply := ValidRequestIs(s, s1, s', m, timeout, n2);
    if ok {
      TakenHolds(s, s1, s', m, n', reply);
    } else {
      assert s1.nodes[m.dst := n2] == s1.nodes;
      RefusedHolds(s, s1, s', m, reply);
    }
  }

  lemma StaleRequestHolds(s: State, s': State, m: Msg, timeout: nat)
    requires Inv(s) && OnAppReq(s, s', m, timeout) && AppReqOk(s.nodes, s.hist, m)
    requires ValidateLeaderRpc(s.nodes[m.dst], m.term, m.leader, timeout).1.Stale?
    ensures Held(s, s') && Adds(s, s')
  {
    var s1 := RoleOfRequest(s, m, timeout, ValidateLeaderRpc(s.nodes[m.dst], m.term, m.leader, timeout).0);
    var reply := StaleRequestIs(s, s1, s', m, timeout);
    RefusedHolds(s, s1, s', m, reply);
  }

  lemma ValidRoleOf(s: State, m: Msg, timeout: nat, n1: Node) returns (s1: State)
    requires Inv(s) && m in s.msgs && m.AppReq? && Alive(s, m.dst) && SafeToTake(s, m) && AppReqOk(s.nodes, s.hist, m)
    requires var (n0, check) := ValidateLeaderRpc(s.nodes[m.dst], m.term, m.leader, timeout);
             check.Valid? && (n1 == n0 || n1 == ResetHeartbeat(n0))
    ensures s1 == s.(nodes := s.nodes[m.dst := n1]) && Held(s, s1) && n1.commit == s.nodes[m.dst].commit
    ensures Taking(s1.nodes, s1.hist, m)
  {
    s1 := RoleOfRequest(s, m, timeout, n1);
    RequestIsTaken(s, s1, m);
  }

  lemma RequestOk(s: State, m: Msg)
    requires NetOk(s) && m in s.msgs && m.AppReq?
    ensures AppReqOk(s.nodes, s.hist, m)
  {
    assert MsgOk(s.nodes, s.hist, m);
  }

  lemma OnAppReqHolds(s: State, s': State, m: Msg, timeout: nat)
    requires Inv(s) && OnAppReq(s, s', m, timeout) && SafeToTake(s, m)
    ensures Held(s, s') && Adds(s, s')
  {
    RequestOk(s, m);
    if ValidateLeaderRpc(s.nodes[m.dst], m.term, m.leader, timeout).1.Stale? {
      StaleRequestHolds(s, s', m, timeout);
    } else {
      var n2 := ResetHeartbeat(ValidateLeaderRpc(s.nodes[m.dst], m.term, m.leader, timeout).0);
      var s1 := ValidRoleOf(s, m, timeout, n2);
      ValidRequestHolds(s, s1, s', m, timeout, n2);
    }
  }

  lemma CutIsShort(ns: Nodes, h: History, m: Msg, timeout: nat)
    requires LeaderLogsOk(ns, h) && LogsOk(ns, h) && LeadersSafe(ns, h) && CommitsOk(ns, h) && Taking(ns, h, m)
    requires Consistent(ns[m.dst], m.prev, m.prevTerm)
    ensures CutsShort(h, ns[m.dst], m.origin, Restarted(CutConflict(ns[m.dst], m.entries), timeout))
  {
    TakingMeets(ns, h, m);
    ConflictIsCut(h, ns[m.dst], LogOf(h, m.origin), m.prev, m.prevTerm, m.entries);
  }

  lemma CutRewritesIt(ns: Nodes, h: History, m: Msg, timeout: nat)
    requires LeaderLogsOk(ns, h) && LogsOk(ns, h) && LeadersSafe(ns, h) && CommitsOk(ns, h) && Taking(ns, h, m)
    requires Consistent(ns[m.dst], m.prev, m.prevTerm)
    ensures var n' := Restarted(CutConflict(ns[m.dst], m.entries), timeout);
            Rewrites(ns, h, ns[m.dst], n') && Demure(ns[m.dst], n')
  {
    TakingMeets(ns, h, m);
    CutIsShort(ns, h, m, timeout);
    CutRewrites(ns, h, ns[m.dst], m.origin, Restarted(CutConflict(ns[m.dst], m.entries), timeout));
  }

  lemma CutHolds(s: State, s': State, m: Msg, timeout: nat)
    requires CoreInv(s.nodes, s.hist) && Taking(s.nodes, s.hist, m) && Consistent(s.nodes[m.dst], m.prev, m.prevTerm)
    requires s' == s.(nodes := s.nodes[m.dst := Restarted(CutConflict(s.nodes[m.dst], m.entries), timeout)])
    ensures Held(s, s')
  {
    CutRewritesIt(s.nodes, s.hist, m, timeout);
    StoreHolds(s, s', m.dst);
  }

  lemma CrashInAppendHolds(s: State, s': State, m: Msg, timeout: nat)
    requires Inv(s) && CrashInAppend(s, s', m, timeout) && SafeToTake(s, m)
    ensures Held(s, s') && Adds(s, s')
  {
    RequestOk(s, m);
    var n1 := ValidateLeaderRpc(s.nodes[m.dst], m.term, m.leader, timeout).0;
    var s1 := ValidRoleOf(s, m, timeout, n1);
    var s2 := s1.(nodes := s1.nodes[m.dst := Restarted(CutConflict(n1, m.entries), timeout)]);
    CutHolds(s1, s2, m, timeout);
    HeldTrans(s, s1, s2);
    CrashAdds(s, s2, s', m.dst, n1, m.entries, timeout);
    HeldSame(s, s2, s');
  }

  lemma CrashAdds(s: State, s2: State, s': State, i: NodeId, n1: Node, entries: seq<Entry>, timeout: nat)
    requires s2 == s.(nodes := s.nodes[i := n1][i := Restarted(CutConflict(n1, entries), timeout)])
    requires s' == s.(nodes := s.nodes[i := Restarted(CutConflict(n1, entries), timeout)],
                      restores := RestoresBut(s, i))
    ensures s'.nodes == s2.nodes && s'.hist == s2.hist && Adds(s, s')
  {
  }

  // --- Snapshots ---

  lemma SnapReqIs(s: State, s1: State, s': State, m: Msg, timeout: nat)
    requires OnSnapReq(s, s', m, timeout) && MsgOk(s.nodes, s.hist, m)
    requires s1 == s.(nodes := s.nodes[m.dst := HandleInstallSnapshot(s.nodes[m.dst], m.leader, m.term, |m.prefix|,
             timeout).0])
    requires !s1.nodes[m.dst].role.Poisoned? && Grow(s.nodes, s.hist, s1.nodes, s1.hist)
    requires ValidateLeaderRpc(s.nodes[m.dst], m.term, m.leader, timeout).1.Valid? ==> s1.nodes[m.dst].term == m.term
    ensures s'.nodes == s1.nodes && s'.hist == s1.hist && Adds(s, s')
  {
    SnapReqStable(s.nodes, s.hist, s1.nodes, s1.hist, m);
  }

  lemma SnapReqRole(n: Node, leader: NodeId, reqTerm: nat, horizon: nat, timeout: nat)
    ensures var (n0, check) := ValidateLeaderRpc(n, reqTerm, leader, timeout);
            var n1 := HandleInstallSnapshot(n, leader, reqTerm, horizon, timeout).0;
            n1 == n0 || (check.Valid? && n1 == ResetHeartbeat(n0))
  {
  }

  lemma SnapReqHolds(s: State, s1: State, s': State, m: Msg, timeout: nat)
    requires OnSnapReq(s, s', m, timeout) && MsgOk(s.nodes, s.hist, m) && Held(s, s1)
    requires s1 == s.(nodes := s.nodes[m.dst := HandleInstallSnapshot(s.nodes[m.dst], m.leader, m.term, |m.prefix|,
             timeout).0])
    requires !s1.nodes[m.dst].role.Poisoned?
    requires ValidateLeaderRpc(s.nodes[m.dst], m.term, m.leader, timeout).1.Valid? ==> s1.nodes[m.dst].term == m.term
    ensures Held(s, s') && Adds(s, s')
  {
    SnapReqIs(s, s1, s', m, timeout);
  }

  lemma OnSnapReqHolds(s: State, s': State, m: Msg, timeout: nat)
    requires Inv(s) && OnSnapReq(s, s', m, timeout)
    ensures Held(s, s') && Adds(s, s')
  {
    assert MsgOk(s.nodes, s.hist, m);
    SnapReqRole(s.nodes[m.dst], m.leader, m.term, |m.prefix|, timeout);
    var s1 := RoleOfRequest(s, m, timeout,
        HandleInstallSnapshot(s.nodes[m.dst], m.leader, m.term, |m.prefix|, timeout).0);
    SnapReqHolds(s, s1, s', m, timeout);
  }

  lemma NodeIsSound(ns: Nodes, h: History, i: NodeId)
    requires VoteInv(ns, h) && LeaderLogsOk(ns, h) && LogsOk(ns, h) && CommitsOk(ns, h) && i in ns
    ensures Sound(ns, h, ns[i])
    ensures ns[i].role.Leader? ==> ns[i].term in h.leaderLog && LogOf(h, ns[i].term) == ns[i].log
  {
  }

  lemma StoreHolds(s: State, s': State, i: NodeId)
    requires CoreInv(s.nodes, s.hist) && i in s.nodes && i in s'.nodes && s'.hist == s.hist
    requires s'.nodes == s.nodes[i := s'.nodes[i]] && Rewrites(s.nodes, s.hist, s.nodes[i], s'.nodes[i])
    requires Demure(s.nodes[i], s'.nodes[i])
    ensures Held(s, s')
  {
    DemureKeeps(s.nodes, s.hist, i, s'.nodes[i], s.hist);
    RewriteKeeps(s.nodes, s.hist, i, s'.nodes[i]);
  }

  lemma FinishRestoreHolds(s: State, s': State, r: Restore)
    requires Inv(s) && FinishRestore(s, s', r)
    ensures Held(s, s') && Adds(s, s')
  {
    var n := s.nodes[r.node];
    NodeIsSound(s.nodes, s.hist, r.node);
    assert RestoreOk(s.nodes, s.hist, r);
    RestoreRewrites(s.nodes, s.hist, n, r.prefix);
    assert NextsOk(n);
    StoreHolds(s, s', r.node);
  }

  lemma StartCompactionHolds(s: State, s': State, i: NodeId, k: nat)
    requires Inv(s) && StartCompaction(s, s', i, k)
    ensures Held(s, s') && Adds(s, s')
  {
    NodeIsSound(s.nodes, s.hist, i);
    MarkRewrites(s.nodes, s.hist, s.nodes[i], k);
    StoreHolds(s, s', i);
  }

  lemma FinishCompactionHolds(s: State, s': State, i: NodeId, k: nat)
    requires Inv(s) && FinishCompaction(s, s', i, k)
    ensures Held(s, s') && Adds(s, s')
  {
    NodeIsSound(s.nodes, s.hist, i);
    DropRewrites(s.nodes, s.hist, s.nodes[i], k);
    StoreHolds(s, s', i);
  }

  // --- The leader's bookkeeping ---

  /** What a reply says about the log of the leader it is booked at. */
  ghost predicate ReplyOk(ns: Nodes, h: History, n: Node, roundTerm: nat, peer: NodeId, o: Outcome) {
    && peer in n.peers
    && match o
       case Appended(prev, len, reply) =>
         n.role.Leader? && n.term == roundTerm ==>
           && prev + len <= |n.log|
           && (reply.success ==>
                 forall k: nat :: k <= prev + len && Own(h, n.term, k) ==> Vouches(ns, h, peer, n.term, k))
       case SnapshotSent(horizon, _) => horizon <= n.commit
  }

  lemma ReplyIsOk(s: State, i: NodeId, m: Msg)
    requires Inv(s) && i in s.nodes && m in s.msgs && (m.AppResp? || m.SnapResp?) && m.leader == i
    ensures ReplyOk(s.nodes, s.hist, s.nodes[i], m.reqTerm, m.follower, OutcomeOf(m))
  {
    assert MsgOk(s.nodes, s.hist, m) && MsgFair(s.nodes, s.hist, m);
    PeersAreOthers(s, i);
    if m.AppResp? {
      if s.nodes[i].role.Leader? && s.nodes[i].term == m.reqTerm {
        LeaderLeadsItsTerm(s, i, m.origin);
      }
      AppendReplyIsOk(s.nodes, s.hist, s.nodes[i], m);
    }
  }

  lemma PeersAreOthers(s: State, i: NodeId)
    requires Fair(s) && i in s.nodes
    ensures forall p :: p in s.nodes && p != i ==> p in s.nodes[i].peers
  {
  }

  /** What the leader of a term says it built in that term or later, it built in that term. */
  lemma LeaderLeadsItsTerm(s: State, i: NodeId, origin: nat)
    requires Inv(s) && i in s.nodes && s.nodes[i].role.Leader? && Leads(s.hist, origin, i) && s.nodes[i].term <= origin
    ensures origin == s.nodes[i].term && LogOf(s.hist, origin) == s.nodes[i].log
  {
    assert CrownOk(s.nodes, s.hist, origin);
  }

  lemma AppendReplyIsOk(ns: Nodes, h: History, n: Node, m: Msg)
    requires m.AppResp? && AppRespOk(ns, h, m) && m.follower in n.peers
    requires n.role.Leader? && n.term == m.reqTerm ==> m.origin == n.term && LogOf(h, m.origin) == n.log
    ensures ReplyOk(ns, h, n, m.reqTerm, m.follower, OutcomeOf(m))
  {
  }

  lemma ProgressSet(ns: Nodes, h: History, n: Node, peer: NodeId, k: nat)
    requires n.role.Leader? && ProgressOk(ns, h, n) && peer in n.peers && k <= |n.log|
    requires forall j: nat :: n.commit < j <= k && Own(h, n.term, j) ==> Vouches(ns, h, peer, n.term, j)
    ensures ProgressOk(ns, h, SetProgress(n, peer, k))
  {
  }

  lemma RecordIsSoft(ns: Nodes, h: History, n: Node, roundTerm: nat, peer: NodeId, o: Outcome, timeout: nat)
    requires !n.role.Poisoned? && Ordered(n) && ProgressOk(ns, h, n) && ReplyOk(ns, h, n, roundTerm, peer, o)
    ensures var (n1, check) := RecordOutcome(n, roundTerm, peer, o, timeout);
            Soft(n, n1) && n1.commit == n.commit && ProgressOk(ns, h, n1)
  {
    if OutcomeTerm(o) <= roundTerm && n.role.Leader? && n.term == roundTerm {
      match o
      case Appended(prev, len, reply) =>
        if reply.success {
          ProgressSet(ns, h, n, peer, prev + len);
        } else {
          assert NextOf(n, peer) >= 1;
        }
      case SnapshotSent(horizon, _) => ProgressSet(ns, h, n, peer, horizon);
    }
  }

  ghost predicate CommitsAt(n: Node, n': Node) {
    n.role.Leader? && n'.commit > n.commit && IsQuorumIndex(n, n'.commit)
    && TermAt(n.log, n'.commit) == n.term && n' == n.(commit := n'.commit)
  }

  /** The role and maps change, then the commit index may. */
  lemma ReplyRecords(s: State, s': State, i: NodeId, n': Node, m: Msg, timeout: nat) returns (s1: State)
    requires Inv(s) && OnReply(s, s', i, n', m, timeout)
    ensures s1 == s.(nodes := s.nodes[i := RecordOutcome(s.nodes[i], m.reqTerm, m.follower, OutcomeOf(m), timeout).0])
    ensures Held(s, s1) && i in s1.nodes && s1.nodes[i].commit == s.nodes[i].commit && s1.hist == s.hist
    ensures s' == s1 || (CommitsAt(s1.nodes[i], n') && s' == s1.(nodes := s1.nodes[i := n']))
  {
    var n1 := RecordOutcome(s.nodes[i], m.reqTerm, m.follower, OutcomeOf(m), timeout).0;
    s1 := s.(nodes := s.nodes[i := n1]);
    assert Ordered(s.nodes[i]) && ProgressOk(s.nodes, s.hist, s.nodes[i]);
    ReplyIsOk(s, i, m);
    RecordIsSoft(s.nodes, s.hist, s.nodes[i], m.reqTerm, m.follower, OutcomeOf(m), timeout);
    RecordIsDemure(s.nodes[i], m.reqTerm, m.follower, OutcomeOf(m), timeout);
    RecordHolds(s, s1, i);
    BookedIs(s, s1, s', i, n', m, timeout);
  }

  lemma RecordHolds(s: State, s1: State, i: NodeId)
    requires CoreInv(s.nodes, s.hist) && i in s.nodes && i in s1.nodes && s1 == s.(nodes := s.nodes[i := s1.nodes[i]])
    requires Soft(s.nodes[i], s1.nodes[i]) && s1.nodes[i].commit == s.nodes[i].commit && Demure(s.nodes[i], s1.nodes[i])
    requires ProgressOk(s.nodes, s.hist, s1.nodes[i])
    ensures Held(s, s1)
  {
    var n, n1 := s.nodes[i], s1.nodes[i];
    assert CommitOk(s.nodes, s.hist, n.log, n.commit, n.term);
    CommitOkWeaken(s.nodes, s.hist, n.log, n.commit, n.term, n1.term);
    DemureKeeps(s.nodes, s.hist, i, n1, s.hist);
    SoftKeeps(s.nodes, s.hist, i, n1);
  }

  lemma BookedIs(s: State, s1: State, s': State, i: NodeId, n': Node, m: Msg, timeout: nat)
    requires OnReply(s, s', i, n', m, timeout)
    requires s1 == s.(nodes := s.nodes[i := RecordOutcome(s.nodes[i], m.reqTerm, m.follower, OutcomeOf(m), timeout).0])
    requires Ordered(s1.nodes[i])
    ensures s' == s1 || (CommitsAt(s1.nodes[i], n') && s' == s1.(nodes := s1.nodes[i := n']))
  {
    assert s1.nodes[i := n'] == s.nodes[i := n'];
  }

  lemma OnReplyHolds(s: State, s': State, i: NodeId, n': Node, m: Msg, timeout: nat)
    requires Inv(s) && OnReply(s, s', i, n', m, timeout)
    ensures Held(s, s') && Adds(s, s')
  {
    var s1 := ReplyRecords(s, s', i, n', m, timeout);
    if s' != s1 {
      CommitKeeps(s1.nodes, s1.hist, i, n'.commit);
      HeldTrans(s, s1, s');
    }
  }

  lemma ClientProposeHolds(s: State, s': State, i: NodeId, data: Payload)
    requires Inv(s) && ClientPropose(s, s', i, data)
    ensures Held(s, s') && Adds(s, s')
  {
    ProposeKeeps(s.nodes, s.hist, i, data);
  }

  lemma ApplyOrCrashPlain(s: State, s': State, i: NodeId, timeout: nat)
    requires (ApplyOne(s, s', i) || Crash(s, s', i, timeout)) && Ordered(s.nodes[i]) && NextsOk(s.nodes[i])
    ensures PlainTo(s, s', i) && Adds(s, s')
  {
  }

  lemma ApplyOrCrashHolds(s: State, s': State, i: NodeId, timeout: nat)
    requires CoreInv(s.nodes, s.hist) && (ApplyOne(s, s', i) || Crash(s, s', i, timeout))
    ensures Held(s, s') && Adds(s, s')
  {
    NodeIsOrdered(s.nodes, s.hist, i);
    ApplyOrCrashPlain(s, s', i, timeout);
    PlainToHolds(s, s', i);
  }

  // --- All events ---

  lemma CampaignHolds(s: State, s': State)
    requires Inv(s) && NextCampaign(s, s')
    ensures Held(s, s') && Adds(s, s')
  {
    if i, h, t, c :| Tick(s, s', i, h, t, c) {
      TickHolds(s, s', i, h, t, c);
    } else if m, t :| OnPreResp(s, s', m, t) {
      OnPreRespHolds(s, s', m, t);
    } else {
      var c, t :| EndPreVote(s, s', c, t);
      EndPreVoteHolds(s, s', c, t);
    }
  }

  lemma ElectionHolds(s: State, s': State)
    requires Inv(s) && NextElection(s, s')
    ensures Held(s, s') && Adds(s, s')
  {
    if i, t :| DoStepDown(s, s', i, t) {
      DoStepDownHolds(s, s', i, t);
    } else if i, m, t :| OnVoteReq(s, s', i, m, t) {
      OnVoteReqHolds(s, s', i, m, t);
    } else if i, m, t :| OnVoteResp(s, s', i, m, t) {
      OnVoteRespHolds(s, s', i, m, t);
    } else if i :| ReadTally(s, s', i) {
      IdleHolds(s, s');
    } else if i, k :| EndCampaign(s, s', i, k) {
      EndCampaignHolds(s, s', i, k);
    } else {
      var i, m :| OnPreReq(s, s', i, m);
      IdleHolds(s, s');
    }
  }

  lemma SendHolds(s: State, s': State)
    requires Inv(s) && CarefulSend(s, s')
    ensures Held(s, s') && Adds(s, s')
  {
    if i :| StartRound(s, s', i) {
      StartRoundHolds(s, s', i);
    } else if i, p, r :| SendAppend(s, s', i, p, r) {
      SendAppendHolds(s, s', i, p, r);
    } else if i, p, r :| SendProbe(s, s', i, p, r) {
      SendProbeHolds(s, s', i, p, r);
    } else {
      var i, p, r :| SendSnapshot(s, s', i, p, r) && r.term == s.nodes[i].term;
      SendSnapshotHolds(s, s', i, p, r);
    }
  }

  lemma DeliveryHolds(s: State, s': State)
    requires Inv(s) && CarefulDelivery(s, s')
    ensures Held(s, s') && Adds(s, s')
  {
    if m, t :| OnAppReq(s, s', m, t) && SafeToTake(s, m) {
      OnAppReqHolds(s, s', m, t);
    } else if m, t :| CrashInAppend(s, s', m, t) && SafeToTake(s, m) {
      CrashInAppendHolds(s, s', m, t);
    } else if m, t :| OnSnapReq(s, s', m, t) {
      OnSnapReqHolds(s, s', m, t);
    } else {
      var i, n, m, t :| OnReply(s, s', i, n, m, t);
      OnReplyHolds(s, s', i, n, m, t);
    }
  }

  lemma LocalHolds(s: State, s': State)
    requires Inv(s) && NextLocal(s, s')
    ensures Held(s, s') && Adds(s, s')
  {
    if i, d :| ClientPropose(s, s', i, d) {
      ClientProposeHolds(s, s', i, d);
    } else if i :| ApplyOne(s, s', i) {
      ApplyOrCrashHolds(s, s', i, 0);
    } else if r :| FinishRestore(s, s', r) {
      FinishRestoreHolds(s, s', r);
    } else if i, k :| StartCompaction(s, s', i, k) {
      StartCompactionHolds(s, s', i, k);
    } else if i, k :| FinishCompaction(s, s', i, k) {
      FinishCompactionHolds(s, s', i, k);
    } else {
      var i, t :| Crash(s, s', i, t);
      ApplyOrCrashHolds(s, s', i, t);
    }
  }

  /** A careful step is a step. */
  lemma CarefulIsNext(s: State, s': State)
    requires CarefulNext(s, s')
    ensures Next(s, s')
  {
  }

  /** Every careful event keeps the invariant and takes nothing back. */
  lemma NextKeeps(s: State, s': State)
    requires Inv(s) && CarefulNext(s, s')
    ensures Kept(s, s')
  {
    CarefulIsNext(s, s');
    NextIsFair(s, s');
    if NextCampaign(s, s') {
      CampaignHolds(s, s');
    } else if NextElection(s, s') {
      ElectionHolds(s, s');
    } else if CarefulSend(s, s') {
      SendHolds(s, s');
    } else if CarefulDelivery(s, s') {
      DeliveryHolds(s, s');
    } else {
      LocalHolds(s, s');
    }
    NetKeeps(s, s');
  }
}
