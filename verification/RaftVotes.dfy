/**
 Terms, votes and roles. Nothing here depends on what the logs hold, so it is true of every run of
 the cluster, whatever a snapshot or a probe does to a log (section 5.2 of the Raft paper).
 */
module RaftVotes {
  import opened Common
  import opened FsmTypes
  import opened Raft
  import opened Cluster

  type Nodes = map<NodeId, Node>

  ghost predicate IsQuorum(ns: Nodes, vs: set<NodeId>) {
    vs <= ns.Keys && |vs| >= Quorum(|ns.Keys|)
  }

  predicate VotedFor(h: History, v: NodeId, t: nat, c: NodeId) {
    (v, t) in h.votes && h.votes[(v, t)] == c
  }

  /** Node `i` was elected leader of term `t`. */
  predicate Leads(h: History, t: nat, i: NodeId) {
    t in h.leaderOf && h.leaderOf[t] == i
  }

  // --- Invariants over nodes and history ---

  ghost predicate Shape(ns: Nodes) {
    forall i :: i in ns ==> ns[i].id == i && ns[i].peers == ns.Keys - {i}
  }

  ghost predicate VoteOk(ns: Nodes, v: NodeId, t: nat, c: NodeId) {
    && v in ns && c in ns && 1 <= t <= ns[v].term && t <= ns[c].term
    && (t == ns[v].term ==> ns[v].vote == Some(c))
  }

  ghost predicate VotesOk(ns: Nodes, h: History) {
    && (forall v, t, c :: VotedFor(h, v, t, c) ==> VoteOk(ns, v, t, c))
    && (forall i :: i in ns && ns[i].vote.Some? ==> VotedFor(h, i, ns[i].term, ns[i].vote.value))
  }

  ghost predicate CandidateOk(ns: Nodes, h: History, i: NodeId)
    requires i in ns
  {
    ns[i].role.Candidate? ==>
      && i in ns[i].role.votes
      && (forall v :: v in ns[i].role.votes ==> VotedFor(h, v, ns[i].term, i))
      && (|ns[i].role.votes| < Quorum(|ns.Keys|) || |ns.Keys| == 1)
      && !Leads(h, ns[i].term, i)
  }

  ghost predicate CandidatesOk(ns: Nodes, h: History) {
    forall i :: i in ns ==> CandidateOk(ns, h, i)
  }

  ghost predicate CrownOk(ns: Nodes, h: History, t: nat)
    requires t in h.leaderOf
  {
    && t >= 1 && t in h.quorumOf
    && h.leaderOf[t] in ns && ns[h.leaderOf[t]].term >= t
    && IsQuorum(ns, h.quorumOf[t])
    && (forall v :: v in h.quorumOf[t] ==> VotedFor(h, v, t, h.leaderOf[t]))
  }

  ghost predicate CrownsOk(ns: Nodes, h: History) {
    h.leaderOf.Keys == h.quorumOf.Keys && forall t :: t in h.leaderOf ==> CrownOk(ns, h, t)
  }

  predicate NextsOk(n: Node) {
    n.role.Leader? ==> forall p :: p in n.role.nextIndex ==> n.role.nextIndex[p] >= 1
  }

  ghost predicate RulersOk(ns: Nodes, h: History) {
    forall i :: i in ns && ns[i].role.Leader? ==> Leads(h, ns[i].term, i) && NextsOk(ns[i])
  }

  ghost predicate VoteInv(ns: Nodes, h: History) {
    Shape(ns) && VotesOk(ns, h) && CandidatesOk(ns, h) && CrownsOk(ns, h) && RulersOk(ns, h)
  }

  // --- How a step may move them ---

  ghost predicate VotesGrow(ns: Nodes, h: History, h': History) {
    && (forall v, t, c :: VotedFor(h, v, t, c) ==> VotedFor(h', v, t, c))
    && (forall v, t, c :: VotedFor(h', v, t, c) && !VotedFor(h, v, t, c) ==> v in ns && ns[v].term <= t)
  }

  ghost predicate CrownsGrow(h: History, h': History) {
    && (forall t :: t in h.leaderOf ==> t in h'.leaderOf && h'.leaderOf[t] == h.leaderOf[t])
    && (forall t :: t in h.quorumOf ==> t in h'.quorumOf && h'.quorumOf[t] == h.quorumOf[t])
  }

  ghost predicate VoteGrow(ns: Nodes, h: History, ns': Nodes, h': History) {
    && ns'.Keys == ns.Keys && (forall i :: i in ns ==> ns[i].term <= ns'[i].term)
    && VotesGrow(ns, h, h') && CrownsGrow(h, h')
  }

  /** Votes and crowns stay; leaders' logs and acknowledgements may move. */
  predicate SameCrowns(h: History, h': History) {
    h'.votes == h.votes && h'.leaderOf == h.leaderOf && h'.quorumOf == h.quorumOf
  }

  lemma SameVotes(h: History, h': History)
    requires SameCrowns(h, h')
    ensures forall v, t, c :: VotedFor(h', v, t, c) <==> VotedFor(h, v, t, c)
    ensures forall t, i :: Leads(h', t, i) <==> Leads(h, t, i)
  {
  }

  lemma VoteGrowTrans(a: Nodes, ha: History, b: Nodes, hb: History, c: Nodes, hc: History)
    requires VoteGrow(a, ha, b, hb) && VoteGrow(b, hb, c, hc)
    ensures VoteGrow(a, ha, c, hc)
  {
    forall v, t, x | VotedFor(hc, v, t, x) && !VotedFor(ha, v, t, x) ensures v in a && a[v].term <= t {
      if VotedFor(hb, v, t, x) { assert a[v].term <= t; } else { assert b[v].term <= t; }
    }
  }

  lemma CrownStable(ns: Nodes, h: History, ns': Nodes, h': History, t: nat)
    requires VoteGrow(ns, h, ns', h') && t in h.leaderOf && CrownOk(ns, h, t)
    ensures t in h'.leaderOf && CrownOk(ns', h', t)
  {
    assert IsQuorum(ns', h.quorumOf[t]);
    forall v | v in h.quorumOf[t] ensures VotedFor(h', v, t, h.leaderOf[t]) {
      assert VotedFor(h, v, t, h.leaderOf[t]);
    }
  }

  // --- Steps of one node that cast no vote and crown nobody ---

  ghost predicate Demure(n: Node, n': Node) {
    && n'.id == n.id && n'.peers == n.peers && n.term <= n'.term
    && n'.vote == (if n'.term == n.term then n.vote else None)
    && (n'.role.Candidate? ==> n.role.Candidate? && n'.term == n.term && n'.role.votes == n.role.votes)
    && (n'.role.Leader? ==> n.role.Leader? && n'.term == n.term && NextsOk(n'))
  }

  /** Only term, vote and role move, and the role to nobody's leader or candidate. */
  predicate RoleStep(n: Node, n': Node) {
    && n' == n.(term := n'.term, vote := n'.vote, role := n'.role)
    && (n'.role == n.role || !(n'.role.Leader? || n'.role.Candidate?))
  }

  lemma DemureGrows(ns: Nodes, h: History, i: NodeId, n': Node, h': History)
    requires i in ns && Demure(ns[i], n') && SameCrowns(h, h')
    ensures VoteGrow(ns, h, ns[i := n'], h')
  {
    SameVotes(h, h');
    assert ns[i := n'].Keys == ns.Keys;
  }

  lemma DemureVotes(ns: Nodes, h: History, i: NodeId, n': Node, h': History)
    requires i in ns && Demure(ns[i], n') && SameCrowns(h, h') && VotesOk(ns, h)
    ensures VotesOk(ns[i := n'], h')
  {
    var ns' := ns[i := n'];
    SameVotes(h, h');
    forall v, t, c | VotedFor(h', v, t, c) ensures VoteOk(ns', v, t, c) {
      assert VotedFor(h, v, t, c);
      assert VoteOk(ns, v, t, c);
    }
    forall j | j in ns' && ns'[j].vote.Some? ensures VotedFor(h', j, ns'[j].term, ns'[j].vote.value) {
      assert VotedFor(h, j, ns[j].term, ns[j].vote.value);
    }
  }

  lemma DemureRoles(ns: Nodes, h: History, i: NodeId, n': Node, h': History)
    requires i in ns && Demure(ns[i], n') && SameCrowns(h, h') && CandidatesOk(ns, h) && RulersOk(ns, h)
    ensures CandidatesOk(ns[i := n'], h') && RulersOk(ns[i := n'], h')
  {
    var ns' := ns[i := n'];
    SameVotes(h, h');
    assert ns'.Keys == ns.Keys;
    forall j | j in ns' ensures CandidateOk(ns', h', j) {
      assert CandidateOk(ns, h, j);
      if ns'[j].role.Candidate? {
        forall v | v in ns'[j].role.votes ensures VotedFor(h', v, ns'[j].term, j) {
          assert VotedFor(h, v, ns[j].term, j);
        }
      }
    }
  }

  lemma CrownsFrame(ns: Nodes, h: History, ns': Nodes, h': History)
    requires VoteGrow(ns, h, ns', h') && CrownsOk(ns, h) && h'.leaderOf == h.leaderOf && h'.quorumOf == h.quorumOf
    ensures CrownsOk(ns', h')
  {
    forall t | t in h'.leaderOf ensures CrownOk(ns', h', t) {
      CrownStable(ns, h, ns', h', t);
    }
  }

  lemma DemureKeeps(ns: Nodes, h: History, i: NodeId, n': Node, h': History)
    requires VoteInv(ns, h) && i in ns && Demure(ns[i], n') && SameCrowns(h, h')
    ensures VoteInv(ns[i := n'], h') && VoteGrow(ns, h, ns[i := n'], h')
  {
    assert ns[i := n'].Keys == ns.Keys;
    DemureGrows(ns, h, i, n', h');
    DemureVotes(ns, h, i, n', h');
    DemureRoles(ns, h, i, n', h');
    CrownsFrame(ns, h, ns[i := n'], h');
  }

  // --- Casting a vote: a candidacy (for oneself, in a new term) or a grant ---

  /** Node `i` becomes `n'`, having voted for `c` in its term. */
  ghost predicate Casts(ns: Nodes, i: NodeId, n': Node, c: NodeId) {
    && i in ns && c in ns
    && var n := ns[i];
    && n'.id == n.id && n'.peers == n.peers
    && n'.term >= 1 && n'.vote == Some(c)
    && ((n.role.Follower? && n'.role == n.role && n'.term == n.term && (n.vote == None || n.vote == Some(c)) && c != i
         && n.term <= ns[c].term)
        || (n'.term == n.term + 1 && c == i && n'.role.Candidate? && n'.role.votes == {i}))
  }

  lemma CastVotes(ns: Nodes, h: History, i: NodeId, n': Node, c: NodeId)
    requires VotesOk(ns, h) && Casts(ns, i, n', c)
    ensures VoteGrow(ns, h, ns[i := n'], CastVote(h, i, n'.term, c))
    ensures forall v, t, d :: VotedFor(CastVote(h, i, n'.term, c), v, t, d) <==>
                              VotedFor(h, v, t, d) || (v == i && t == n'.term && d == c)
  {
    var h' := CastVote(h, i, n'.term, c);
    assert ns[i := n'].Keys == ns.Keys;
    if (i, n'.term) in h.votes {
      var d := h.votes[(i, n'.term)];
      assert VotedFor(h, i, n'.term, d);
      assert VoteOk(ns, i, n'.term, d);
    }
    forall v, t, d ensures VotedFor(h', v, t, d) <==> VotedFor(h, v, t, d) || (v == i && t == n'.term && d == c) {
    }
  }

  lemma CastVotesOk(ns: Nodes, h: History, i: NodeId, n': Node, c: NodeId)
    requires VotesOk(ns, h) && Casts(ns, i, n', c)
    ensures VotesOk(ns[i := n'], CastVote(h, i, n'.term, c))
  {
    var ns', h' := ns[i := n'], CastVote(h, i, n'.term, c);
    CastVotes(ns, h, i, n', c);
    forall v, t, d | VotedFor(h', v, t, d) ensures VoteOk(ns', v, t, d) {
      if VotedFor(h, v, t, d) {
        assert VoteOk(ns, v, t, d);
        if v == i && t == n'.term { assert (i, n'.term) in h.votes; }
      }
    }
    forall j | j in ns' && ns'[j].vote.Some? ensures VotedFor(h', j, ns'[j].term, ns'[j].vote.value) {
      if j != i { assert VotedFor(h, j, ns[j].term, ns[j].vote.value); }
    }
  }

  lemma CastCandidates(ns: Nodes, h: History, i: NodeId, n': Node, c: NodeId)
    requires VotesOk(ns, h) && CandidatesOk(ns, h) && CrownsOk(ns, h) && Casts(ns, i, n', c)
    ensures CandidatesOk(ns[i := n'], CastVote(h, i, n'.term, c))
  {
    var ns', h' := ns[i := n'], CastVote(h, i, n'.term, c);
    CastVotes(ns, h, i, n', c);
    forall j | j in ns' ensures CandidateOk(ns', h', j) {
      if j == i {
        CastSelf(ns, h, i, n', c);
      } else {
        assert CandidateOk(ns, h, j);
        if ns'[j].role.Candidate? {
          forall v | v in ns'[j].role.votes ensures VotedFor(h', v, ns'[j].term, j) {
            assert VotedFor(h, v, ns[j].term, j);
          }
        }
      }
    }
  }

  lemma CastSelf(ns: Nodes, h: History, i: NodeId, n': Node, c: NodeId)
    requires VotesOk(ns, h) && CrownsOk(ns, h) && Casts(ns, i, n', c)
    ensures CandidateOk(ns[i := n'], CastVote(h, i, n'.term, c), i)
  {
    var ns' := ns[i := n'];
    assert ns'.Keys == ns.Keys;
    if n'.role.Candidate? {
      assert n'.term in h.leaderOf ==> CrownOk(ns, h, n'.term);
      if |ns.Keys| < 2 { SubsetSize({i}, ns.Keys); }
    }
  }

  lemma CastKeeps(ns: Nodes, h: History, i: NodeId, n': Node, c: NodeId)
    requires VoteInv(ns, h) && Casts(ns, i, n', c)
    ensures VoteInv(ns[i := n'], CastVote(h, i, n'.term, c))
    ensures VoteGrow(ns, h, ns[i := n'], CastVote(h, i, n'.term, c))
  {
    assert ns[i := n'].Keys == ns.Keys;
    CastVotes(ns, h, i, n', c);
    CastVotesOk(ns, h, i, n', c);
    CastCandidates(ns, h, i, n', c);
    CrownsFrame(ns, h, ns[i := n'], CastVote(h, i, n'.term, c));
  }

  // --- Counting a vote ---

  function Counted(n: Node, v: NodeId): Node
    requires n.role.Candidate?
  {
    n.(role := n.role.(votes := n.role.votes + {v}))
  }

  lemma CountKeeps(ns: Nodes, h: History, i: NodeId, v: NodeId)
    requires VoteInv(ns, h) && i in ns && ns[i].role.Candidate? && VotedFor(h, v, ns[i].term, i)
    requires |ns[i].role.votes + {v}| < Quorum(|ns.Keys|)
    ensures VoteInv(ns[i := Counted(ns[i], v)], h) && VoteGrow(ns, h, ns[i := Counted(ns[i], v)], h)
  {
    var ns' := ns[i := Counted(ns[i], v)];
    assert ns'.Keys == ns.Keys;
    forall j | j in ns' ensures CandidateOk(ns', h, j) {
      assert CandidateOk(ns, h, j);
    }
    forall w, t, c | VotedFor(h, w, t, c) ensures VoteOk(ns', w, t, c) {
      assert VoteOk(ns, w, t, c);
    }
    CrownsFrame(ns, h, ns', h);
  }

  // --- Promotion ---

  ghost predicate Wins(ns: Nodes, h: History, i: NodeId, ws: set<NodeId>) {
    && i in ns && ns[i].role.Candidate? && IsQuorum(ns, ws)
    && forall v :: v in ws ==> VotedFor(h, v, ns[i].term, i)
  }

  /** Election safety, at the moment of a promotion: the term has no leader yet. */
  lemma TermIsFree(ns: Nodes, h: History, i: NodeId, ws: set<NodeId>)
    requires CandidatesOk(ns, h) && CrownsOk(ns, h) && Wins(ns, h, i, ws)
    ensures ns[i].term !in h.leaderOf
  {
    var u := ns[i].term;
    if u in h.leaderOf {
      assert CrownOk(ns, h, u) && CandidateOk(ns, h, i);
      var _ := QuorumsIntersect(ns.Keys, ws, h.quorumOf[u]);
    }
  }

  function Promoted(n: Node): Node {
    n.(role := FreshLeader(n))
  }

  lemma VotersAreQuorum(ns: Nodes, h: History, i: NodeId, ws: set<NodeId>)
    requires VotesOk(ns, h) && Wins(ns, h, i, ws)
    ensures IsQuorum(ns, Voters(h, ns[i].term, i))
    ensures forall v :: v in Voters(h, ns[i].term, i) ==> VotedFor(h, v, ns[i].term, i)
  {
    var vs := Voters(h, ns[i].term, i);
    forall v | v in ws ensures v in vs {
      assert VotedFor(h, v, ns[i].term, i);
      assert (v, ns[i].term) in h.votes;
    }
    forall v | v in vs ensures v in ns && VotedFor(h, v, ns[i].term, i) {
      assert VotedFor(h, v, ns[i].term, i);
      assert VoteOk(ns, v, ns[i].term, i);
    }
    SubsetSize(ws, vs);
  }

  lemma PromoteGrows(ns: Nodes, h: History, i: NodeId)
    requires CrownsOk(ns, h) && i in ns && ns[i].term !in h.leaderOf
    ensures VoteGrow(ns, h, ns[i := Promoted(ns[i])], Enthrone(h, Promoted(ns[i])))
    ensures forall v, t, c :: VotedFor(Enthrone(h, Promoted(ns[i])), v, t, c) <==> VotedFor(h, v, t, c)
  {
    assert ns[i := Promoted(ns[i])].Keys == ns.Keys;
  }

  lemma PromoteCrown(ns: Nodes, h: History, i: NodeId, ws: set<NodeId>)
    requires VoteInv(ns, h) && Wins(ns, h, i, ws)
    ensures CrownOk(ns[i := Promoted(ns[i])], Enthrone(h, Promoted(ns[i])), ns[i].term)
  {
    var ns' := ns[i := Promoted(ns[i])];
    assert ns'.Keys == ns.Keys;
    VotersAreQuorum(ns, h, i, ws);
    assert CandidateOk(ns, h, i);
    assert VotedFor(h, i, ns[i].term, i);
    assert VoteOk(ns, i, ns[i].term, i);
    assert IsQuorum(ns', Voters(h, ns[i].term, i));
  }

  lemma PromoteCrowns(ns: Nodes, h: History, i: NodeId, ws: set<NodeId>)
    requires VoteInv(ns, h) && Wins(ns, h, i, ws) && ns[i].term !in h.leaderOf
    ensures CrownsOk(ns[i := Promoted(ns[i])], Enthrone(h, Promoted(ns[i])))
  {
    var ns', h' := ns[i := Promoted(ns[i])], Enthrone(h, Promoted(ns[i]));
    PromoteGrows(ns, h, i);
    PromoteCrown(ns, h, i, ws);
    forall t | t in h'.leaderOf ensures CrownOk(ns', h', t) {
      if t != ns[i].term { CrownStable(ns, h, ns', h', t); }
    }
  }

  lemma PromoteRoles(ns: Nodes, h: History, i: NodeId)
    requires CandidatesOk(ns, h) && RulersOk(ns, h) && i in ns && ns[i].id == i && ns[i].term !in h.leaderOf
    ensures CandidatesOk(ns[i := Promoted(ns[i])], Enthrone(h, Promoted(ns[i])))
    ensures RulersOk(ns[i := Promoted(ns[i])], Enthrone(h, Promoted(ns[i])))
  {
    var ns', h' := ns[i := Promoted(ns[i])], Enthrone(h, Promoted(ns[i]));
    assert ns'.Keys == ns.Keys;
    forall j | j in ns' ensures CandidateOk(ns', h', j) {
      assert CandidateOk(ns, h, j);
      if j != i && ns[j].role.Candidate? {
        forall v | v in ns[j].role.votes ensures VotedFor(h', v, ns[j].term, j) {
          assert VotedFor(h, v, ns[j].term, j);
        }
      }
    }
  }

  lemma PromoteVotes(ns: Nodes, h: History, i: NodeId)
    requires VotesOk(ns, h) && i in ns
    ensures VotesOk(ns[i := Promoted(ns[i])], Enthrone(h, Promoted(ns[i])))
  {
    var ns', h' := ns[i := Promoted(ns[i])], Enthrone(h, Promoted(ns[i]));
    forall v, t, c | VotedFor(h', v, t, c) ensures VoteOk(ns', v, t, c) {
      assert VotedFor(h, v, t, c);
      assert VoteOk(ns, v, t, c);
    }
    forall j | j in ns' && ns'[j].vote.Some? ensures VotedFor(h', j, ns'[j].term, ns'[j].vote.value) {
      assert VotedFor(h, j, ns[j].term, ns[j].vote.value);
    }
  }

  lemma PromoteKeeps(ns: Nodes, h: History, i: NodeId, ws: set<NodeId>)
    requires VoteInv(ns, h) && Wins(ns, h, i, ws)
    ensures VoteInv(ns[i := Promoted(ns[i])], Enthrone(h, Promoted(ns[i])))
    ensures VoteGrow(ns, h, ns[i := Promoted(ns[i])], Enthrone(h, Promoted(ns[i])))
  {
    assert ns[i := Promoted(ns[i])].Keys == ns.Keys;
    TermIsFree(ns, h, i, ws);
    PromoteGrows(ns, h, i);
    PromoteCrowns(ns, h, i, ws);
    PromoteRoles(ns, h, i);
    PromoteVotes(ns, h, i);
  }

  // --- The network and the tasks between two lock acquisitions ---

  ghost predicate MsgFair(ns: Nodes, h: History, m: Msg) {
    match m
    case VoteReq(c, t, _, _) => c in ns && 1 <= t <= ns[c].term
    case VoteResp(v, c, t, _, granted) => granted ==> VotedFor(h, v, t, c)
    case PreReq(_, _, _, _, _) => true
    case PreResp(_, _, _, _) => true
    case AppReq(l, d, t, _, _, _, _, o) => d in ns && l != d && t <= o && Leads(h, t, l) && Leads(h, o, l)
    case AppResp(f, l, t, _, _, _, o) => f in ns && l in ns && f != l && t <= o && Leads(h, o, l)
    case SnapReq(l, d, t, _, o) => d in ns && l != d && t <= o && Leads(h, t, l) && Leads(h, o, l)
    case SnapResp(f, l, _, _, _) => f in ns && l in ns && f != l
  }

  ghost predicate TallyOk(ns: Nodes, k: nat) {
    |ns.Keys| == 1 || k < Quorum(|ns.Keys|)
  }

  ghost predicate RoundFair(ns: Nodes, h: History, r: Round) {
    r.node in ns && Leads(h, r.term, r.node)
  }

  ghost predicate NetFair(s: State) {
    && (forall m :: m in s.msgs ==> MsgFair(s.nodes, s.hist, m))
    && (forall r :: r in s.rounds ==> RoundFair(s.nodes, s.hist, r))
    && (forall p :: p in s.tallies ==> TallyOk(s.nodes, p.1))
    && (forall c :: c in s.campaigns ==> s.campaigns[c].node in s.nodes)
    && (forall r :: r in s.restores ==> r.node in s.nodes)
  }

  /** What every reachable state satisfies. */
  ghost predicate Fair(s: State) {
    VoteInv(s.nodes, s.hist) && NetFair(s)
  }

  lemma MsgFairStable(ns: Nodes, h: History, ns': Nodes, h': History, m: Msg)
    requires VoteGrow(ns, h, ns', h') && MsgFair(ns, h, m)
    ensures MsgFair(ns', h', m)
  {
  }

  /** What a step adds to the network was in order before the step. */
  ghost predicate AddsFair(s: State, s': State) {
    && (forall m :: m in s'.msgs && m !in s.msgs ==> MsgFair(s'.nodes, s'.hist, m))
    && (forall r :: r in s'.rounds && r !in s.rounds ==> RoundFair(s.nodes, s.hist, r))
    && (forall p :: p in s'.tallies && p !in s.tallies ==> TallyOk(s.nodes, p.1))
    && (forall r :: r in s'.restores && r !in s.restores ==> r.node in s.nodes)
    && CampaignsStay(s, s')
  }

  ghost predicate CampaignsStay(s: State, s': State) {
    forall c :: c in s'.campaigns ==>
      s'.campaigns[c].node in s.nodes || (c in s.campaigns && s'.campaigns[c].node == s.campaigns[c].node)
  }

  lemma AddsFairKeep(s: State, s': State)
    requires NetFair(s) && VoteGrow(s.nodes, s.hist, s'.nodes, s'.hist) && AddsFair(s, s')
    ensures NetFair(s')
  {
    forall m | m in s'.msgs ensures MsgFair(s'.nodes, s'.hist, m) {
      if m in s.msgs { MsgFairStable(s.nodes, s.hist, s'.nodes, s'.hist, m); }
    }
  }

  ghost predicate FairStep(s: State, s': State) {
    Fair(s') && VoteGrow(s.nodes, s.hist, s'.nodes, s'.hist)
  }

  // --- Kinds of step ---

  ghost predicate DemureTo(s: State, s': State, i: NodeId) {
    && i in s.nodes && i in s'.nodes && SameCrowns(s.hist, s'.hist)
    && s'.nodes == s.nodes[i := s'.nodes[i]] && Demure(s.nodes[i], s'.nodes[i])
  }

  lemma DemureToKeeps(s: State, s': State, i: NodeId)
    requires Fair(s) && DemureTo(s, s', i) && AddsFair(s, s')
    ensures FairStep(s, s')
  {
    DemureKeeps(s.nodes, s.hist, i, s'.nodes[i], s'.hist);
    AddsFairKeep(s, s');
  }

  lemma IdleKeeps(s: State, s': State)
    requires Fair(s) && s'.nodes == s.nodes && s'.hist == s.hist && AddsFair(s, s')
    ensures FairStep(s, s')
  {
    AddsFairKeep(s, s');
  }

  ghost predicate CandidacyTo(s: State, s': State, i: NodeId, n: Node, timeout: nat) {
    && i in s.nodes && n == s.nodes[i].(tick := n.tick) && CanCampaign(n)
    && var n' := IntoCandidate(n, timeout);
    && s'.nodes == s.nodes[i := n'] && s'.hist == NoteCandidacy(s.hist, s.nodes[i], n')
    && s'.msgs == s.msgs + {Campaigning(n')}
    && s'.rounds == s.rounds && s'.tallies == s.tallies && s'.restores == s.restores && CampaignsStay(s, s')
  }

  lemma CandidacyToKeeps(s: State, s': State, i: NodeId, n: Node, timeout: nat)
    requires Fair(s) && CandidacyTo(s, s', i, n, timeout)
    ensures FairStep(s, s')
  {
    assert Casts(s.nodes, i, s'.nodes[i], i);
    CastKeeps(s.nodes, s.hist, i, s'.nodes[i], i);
    AddsFairKeep(s, s');
  }

  // --- Clock ---

  lemma PulseIs(n: Node, interval: nat, timeout: nat)
    requires !n.role.Poisoned? && NextsOk(n)
    ensures var (n', action) := Pulse(n, interval, timeout);
            && (action != StartElection ==> Demure(n, n'))
            && (action == StartElection ==>
                  var n1 := n.(tick := n.tick + 1); CanCampaign(n1) && n' == IntoCandidate(n1, timeout))
            && (action == SendHeartbeat ==> n.role.Leader?)
  {
  }

  lemma TickKeeps(s: State, s': State, i: NodeId, interval: nat, timeout: nat, campaign: nat)
    requires Fair(s) && Tick(s, s', i, interval, timeout, campaign)
    ensures FairStep(s, s')
  {
    PulseIs(s.nodes[i], interval, timeout);
    if Pulse(s.nodes[i], interval, timeout).1 == StartElection {
      CandidacyToKeeps(s, s', i, s.nodes[i].(tick := s.nodes[i].tick + 1), timeout);
    } else {
      DemureToKeeps(s, s', i);
    }
  }

  // --- Votes ---

  /** The role step of a vote request. */
  function AfterRole(s: State, i: NodeId, term: nat, timeout: nat): State
    requires i in s.nodes
  {
    if term > s.nodes[i].term then s.(nodes := s.nodes[i := IntoFollower(s.nodes[i], term, None, timeout)]) else s
  }

  lemma AfterRoleKeeps(s: State, i: NodeId, term: nat, timeout: nat)
    requires Fair(s) && i in s.nodes
    ensures FairStep(s, AfterRole(s, i, term, timeout))
  {
    var s1 := AfterRole(s, i, term, timeout);
    assert s1.nodes == s.nodes[i := s1.nodes[i]];
    DemureToKeeps(s, s1, i);
  }

  ghost predicate GrantTo(s: State, s': State, i: NodeId, m: Msg)
    requires i in s.nodes && m.VoteReq?
  {
    s' == s.(nodes := s.nodes[i := s.nodes[i].(vote := Some(m.candidate))],
             hist := CastVote(s.hist, i, m.term, m.candidate),
             msgs := s.msgs + {VoteResp(i, m.candidate, m.term, s.nodes[i].term, true)})
  }

  ghost predicate DenyTo(s: State, s': State, i: NodeId, m: Msg)
    requires i in s.nodes && m.VoteReq?
  {
    s' == s.(msgs := s.msgs + {VoteResp(i, m.candidate, m.term, s.nodes[i].term, false)})
  }

  lemma VoteReqIs(s: State, s': State, i: NodeId, m: Msg, timeout: nat)
    requires OnVoteReq(s, s', i, m, timeout)
    ensures var s1 := AfterRole(s, i, m.term, timeout);
            && i in s1.nodes && s1 == s.(nodes := s1.nodes)
            && if GrantsVote(s1.nodes[i], m.candidate, m.term, m.lastIndex, m.lastTerm)
               then GrantTo(s1, s', i, m) else DenyTo(s1, s', i, m)
  {
    var s1 := AfterRole(s, i, m.term, timeout);
    assert s1.nodes[i := s1.nodes[i]] == s1.nodes;
    var n' := s'.nodes[i];
    assert s1.nodes[i := n'] == s.nodes[i := n'];
  }

  lemma GrantKeeps(s: State, s': State, i: NodeId, m: Msg)
    requires Fair(s) && i in s.nodes && m.VoteReq? && MsgFair(s.nodes, s.hist, m) && m.candidate != i
    requires GrantsVote(s.nodes[i], m.candidate, m.term, m.lastIndex, m.lastTerm) && GrantTo(s, s', i, m)
    ensures FairStep(s, s')
  {
    assert Casts(s.nodes, i, s'.nodes[i], m.candidate);
    CastKeeps(s.nodes, s.hist, i, s'.nodes[i], m.candidate);
    assert VotedFor(s'.hist, i, m.term, m.candidate);
    AddsFairKeep(s, s');
  }

  lemma OnVoteReqKeeps(s: State, s': State, i: NodeId, m: Msg, timeout: nat)
    requires Fair(s) && OnVoteReq(s, s', i, m, timeout)
    ensures FairStep(s, s')
  {
    var s1 := AfterRole(s, i, m.term, timeout);
    VoteReqIs(s, s', i, m, timeout);
    AfterRoleKeeps(s, i, m.term, timeout);
    assert MsgFair(s1.nodes, s1.hist, m);
    if GrantsVote(s1.nodes[i], m.candidate, m.term, m.lastIndex, m.lastTerm) {
      GrantKeeps(s1, s', i, m);
    } else {
      IdleKeeps(s1, s');
    }
    VoteGrowTrans(s.nodes, s.hist, s1.nodes, s1.hist, s'.nodes, s'.hist);
  }

  lemma Majorities(ns: Nodes, i: NodeId)
    requires Shape(ns) && i in ns
    ensures Majority(ns[i]) == Quorum(|ns.Keys|)
  {
    UnionSize(ns[i].peers, {i});
    assert ns[i].peers + {i} == ns.Keys;
  }

  ghost predicate AddsNothing(s: State, s': State) {
    && s'.msgs == s.msgs && s'.rounds == s.rounds && s'.tallies == s.tallies && s'.campaigns == s.campaigns
    && s'.restores == s.restores
  }

  ghost predicate CountTo(s: State, s': State, i: NodeId, v: NodeId) {
    && i in s.nodes && s.nodes[i].role.Candidate? && VotedFor(s.hist, v, s.nodes[i].term, i)
    && |s.nodes[i].role.votes + {v}| < Quorum(|s.nodes.Keys|)
    && s'.hist == s.hist && s'.nodes == s.nodes[i := Counted(s.nodes[i], v)]
  }

  ghost predicate PromotionTo(s: State, s': State, i: NodeId, ws: set<NodeId>) {
    && Wins(s.nodes, s.hist, i, ws)
    && s'.nodes == s.nodes[i := Promoted(s.nodes[i])] && s'.hist == Enthrone(s.hist, Promoted(s.nodes[i]))
  }

  /** A vote response either leaves the tally alone, is counted, or wins the election. */
  lemma VoteRespIs(s: State, s': State, i: NodeId, m: Msg, timeout: nat)
    requires VoteInv(s.nodes, s.hist) && OnVoteResp(s, s', i, m, timeout)
    requires m.granted ==> VotedFor(s.hist, m.voter, m.reqTerm, m.candidate)
    ensures AddsNothing(s, s')
    ensures || (DemureTo(s, s', i) && s'.hist == s.hist && RoleStep(s.nodes[i], s'.nodes[i]))
            || CountTo(s, s', i, m.voter)
            || (s.nodes[i].role.Candidate? && PromotionTo(s, s', i, s.nodes[i].role.votes + {m.voter}))
  {
    var n := s.nodes[i];
    if m.respTerm > m.reqTerm || !m.granted || !n.role.Candidate? || n.term != m.reqTerm {
      assert Demure(n, s'.nodes[i]);
    } else {
      Majorities(s.nodes, i);
      if |n.role.votes + {m.voter}| >= Majority(n) {
        VotesWin(s.nodes, s.hist, i, m.voter);
        assert s'.nodes[i] == Promoted(n);
      }
    }
  }

  lemma VotesWin(ns: Nodes, h: History, i: NodeId, v: NodeId)
    requires VotesOk(ns, h) && CandidatesOk(ns, h) && i in ns && ns[i].role.Candidate? && VotedFor(h, v, ns[i].term, i)
    requires |ns[i].role.votes + {v}| >= Quorum(|ns.Keys|)
    ensures Wins(ns, h, i, ns[i].role.votes + {v})
  {
    var ws := ns[i].role.votes + {v};
    assert CandidateOk(ns, h, i);
    forall w | w in ws ensures w in ns && VotedFor(h, w, ns[i].term, i) {
      assert VotedFor(h, w, ns[i].term, i);
      assert VoteOk(ns, w, ns[i].term, i);
    }
    assert IsQuorum(ns, ws);
  }

  lemma PromotionToKeeps(s: State, s': State, i: NodeId, ws: set<NodeId>)
    requires Fair(s) && PromotionTo(s, s', i, ws) && AddsNothing(s, s')
    ensures FairStep(s, s')
  {
    PromoteKeeps(s.nodes, s.hist, i, ws);
    AddsFairKeep(s, s');
  }

  lemma OnVoteRespKeeps(s: State, s': State, i: NodeId, m: Msg, timeout: nat)
    requires Fair(s) && OnVoteResp(s, s', i, m, timeout)
    ensures FairStep(s, s')
  {
    assert MsgFair(s.nodes, s.hist, m);
    VoteRespIs(s, s', i, m, timeout);
    if DemureTo(s, s', i) {
      DemureToKeeps(s, s', i);
    } else if CountTo(s, s', i, m.voter) {
      CountKeeps(s.nodes, s.hist, i, m.voter);
      AddsFairKeep(s, s');
    } else {
      PromotionToKeeps(s, s', i, s.nodes[i].role.votes + {m.voter});
    }
  }

  lemma ReadTallyKeeps(s: State, s': State, i: NodeId)
    requires Fair(s) && ReadTally(s, s', i)
    ensures FairStep(s, s')
  {
    assert CandidateOk(s.nodes, s.hist, i);
    IdleKeeps(s, s');
  }

  lemma SingletonOf<T>(a: set<T>, x: T)
    requires |a| == 1 && x in a
    ensures a == {x}
  {
    SubsetSize(a - {x}, a);
    UnionSize(a - {x}, {x});
    assert a - {x} + {x} == a;
  }

  /** The promotion after the response loop needs a tally that only a cluster of one can reach. */
  lemma LoopEndsShort(s: State, i: NodeId, tally: nat)
    requires Shape(s.nodes) && NetFair(s) && i in s.nodes
    requires (tally == 1 || (i, tally) in s.tallies) && tally >= Majority(s.nodes[i])
    ensures s.nodes.Keys == {i}
  {
    Majorities(s.nodes, i);
    assert (i, tally) in s.tallies ==> TallyOk(s.nodes, (i, tally).1);
    SubsetSize({i}, s.nodes.Keys);
    assert |s.nodes.Keys| == 1;
    SingletonOf(s.nodes.Keys, i);
  }

  lemma EndCampaignIs(s: State, s': State, i: NodeId, tally: nat)
    requires Fair(s) && EndCampaign(s, s', i, tally)
    ensures AddsNothing(s, s')
    ensures || (s'.nodes == s.nodes && s'.hist == s.hist)
            || (s.nodes[i].role.Candidate? && PromotionTo(s, s', i, s.nodes[i].role.votes))
  {
    var n := s.nodes[i];
    if tally >= Majority(n) && n.role.Candidate? {
      LoopEndsShort(s, i, tally);
      assert CandidateOk(s.nodes, s.hist, i);
      assert n.role.votes + {i} == n.role.votes;
      SubsetSize({i}, n.role.votes);
      VotesWin(s.nodes, s.hist, i, i);
      assert s'.nodes[i] == Promoted(n);
    } else {
      assert s.nodes[i := n] == s.nodes;
    }
  }

  lemma EndCampaignKeeps(s: State, s': State, i: NodeId, tally: nat)
    requires Fair(s) && EndCampaign(s, s', i, tally)
    ensures FairStep(s, s')
  {
    EndCampaignIs(s, s', i, tally);
    if s'.nodes == s.nodes && s'.hist == s.hist {
      IdleKeeps(s, s');
    } else {
      PromotionToKeeps(s, s', i, s.nodes[i].role.votes);
    }
  }

  // --- Pre-votes ---

  lemma WinPreVoteIs(s: State, campaign: nat, granted: set<NodeId>, timeout: nat)
    requires Fair(s) && campaign in s.campaigns && Alive(s, s.campaigns[campaign].node)
    ensures var s' := WinPreVote(s, campaign, granted, timeout);
            var i := s.campaigns[campaign].node;
            && CampaignsStay(s, s')
            && (CandidacyTo(s, s', i, s.nodes[i], timeout)
                || (s.nodes[i].role.Leader? && s'.nodes == s.nodes && s'.hist == s.hist
                    && s'.msgs == s.msgs + {Campaigning(s.nodes[i])} && Leads(s.hist, s.nodes[i].term, i)
                    && s'.rounds == s.rounds && s'.tallies == s.tallies && s'.restores == s.restores))
  {
    var i := s.campaigns[campaign].node;
    if !CanCampaign(s.nodes[i]) {
      assert s.nodes[i := s.nodes[i]] == s.nodes;
    }
  }

  lemma WinPreVoteKeeps(s: State, campaign: nat, granted: set<NodeId>, timeout: nat)
    requires Fair(s) && campaign in s.campaigns && Alive(s, s.campaigns[campaign].node)
    ensures FairStep(s, WinPreVote(s, campaign, granted, timeout))
  {
    var i := s.campaigns[campaign].node;
    var s' := WinPreVote(s, campaign, granted, timeout);
    WinPreVoteIs(s, campaign, granted, timeout);
    if CandidacyTo(s, s', i, s.nodes[i], timeout) {
      CandidacyToKeeps(s, s', i, s.nodes[i], timeout);
    } else {
      assert CrownOk(s.nodes, s.hist, s.nodes[i].term);
      IdleKeeps(s, s');
    }
  }

  lemma OnPreRespKeeps(s: State, s': State, m: Msg, timeout: nat)
    requires Fair(s) && OnPreResp(s, s', m, timeout)
    ensures FairStep(s, s')
  {
    var c := s.campaigns[m.campaign];
    var n := s.nodes[c.node];
    var granted := if m.granted then c.granted + {m.voter} else c.granted;
    if m.respTerm > c.term && m.respTerm > n.term {
      DemureToKeeps(s, s', c.node);
    } else if m.granted && |granted| + 1 >= Majority(n) {
      WinPreVoteKeeps(s, m.campaign, granted, timeout);
    } else {
      IdleKeeps(s, s');
    }
  }

  lemma EndPreVoteKeeps(s: State, s': State, campaign: nat, timeout: nat)
    requires Fair(s) && EndPreVote(s, s', campaign, timeout)
    ensures FairStep(s, s')
  {
    var c := s.campaigns[campaign];
    if |c.granted| + 1 >= Majority(s.nodes[c.node]) {
      WinPreVoteKeeps(s, campaign, c.granted, timeout);
    } else {
      IdleKeeps(s, s');
    }
  }

  // --- Requests of a leader ---

  lemma RoundIsOfThePast(s: State, i: NodeId, round: Round)
    requires Fair(s) && round in s.rounds && round.node == i
    ensures i in s.nodes && round.term <= s.nodes[i].term && Leads(s.hist, round.term, i)
  {
    assert RoundFair(s.nodes, s.hist, round);
    assert CrownOk(s.nodes, s.hist, round.term);
  }

  /** A send adds one request of the round's term, built in the term the sender leads. */
  ghost predicate SendsOne(s: State, s': State, i: NodeId, m: Msg) {
    && s' == s.(msgs := s.msgs + {m}) && i in s.nodes && s.nodes[i].role.Leader?
    && ((m.AppReq? && m.leader == i && m.dst in s.nodes[i].peers && m.origin == s.nodes[i].term)
        || (m.SnapReq? && m.leader == i && m.dst in s.nodes[i].peers && m.origin == s.nodes[i].term))
  }

  lemma SendsOneKeeps(s: State, s': State, i: NodeId, m: Msg)
    requires Fair(s) && SendsOne(s, s', i, m) && m.term <= s.nodes[i].term && Leads(s.hist, m.term, i)
    ensures FairStep(s, s')
  {
    assert MsgFair(s.nodes, s.hist, m);
    IdleKeeps(s, s');
  }

  lemma SendIs(s: State, s': State) returns (i: NodeId, m: Msg, r: Round)
    requires Shape(s.nodes) && NextSend(s, s')
    ensures StartRound(s, s', i) || (SendsOne(s, s', i, m) && r in s.rounds && r.node == i && m.term == r.term)
  {
    if j :| StartRound(s, s', j) {
      i, m, r := j, PreResp(0, 0, 0, false), Round(j, 0, 0);
    } else if j, p, x :| SendAppend(s, s', j, p, x) {
      i, m, r := j, BuildAppend(s.nodes[j], p, x), x;
    } else if j, p, x :| SendProbe(s, s', j, p, x) {
      i, m, r := j, BuildProbe(s.nodes[j], p, x), x;
    } else {
      var j, p, x :| SendSnapshot(s, s', j, p, x);
      i, m, r := j, SnapReq(j, p, x.term, s.nodes[j].log[..s.nodes[j].horizon], s.nodes[j].term), x;
    }
  }

  lemma StartRoundKeeps(s: State, s': State, i: NodeId)
    requires Fair(s) && StartRound(s, s', i)
    ensures FairStep(s, s')
  {
    IdleKeeps(s, s');
  }

  lemma SendKeeps(s: State, s': State)
    requires Fair(s) && NextSend(s, s')
    ensures FairStep(s, s')
  {
    var i, m, r := SendIs(s, s');
    if StartRound(s, s', i) {
      StartRoundKeeps(s, s', i);
    } else {
      RoundIsOfThePast(s, i, r);
      SendsOneKeeps(s, s', i, m);
    }
  }

  /** The role step of a leader's request; a rival leader of the same term cannot exist. */
  lemma LeaderRpcIsDemure(ns: Nodes, h: History, i: NodeId, term: nat, leader: NodeId, timeout: nat)
    requires VoteInv(ns, h) && i in ns && !ns[i].role.Poisoned? && Leads(h, term, leader) && leader != i
    ensures var (n1, check) := ValidateLeaderRpc(ns[i], term, leader, timeout);
            && Demure(ns[i], n1) && Demure(ns[i], ResetHeartbeat(n1)) && !n1.role.Poisoned?
            && (check.Valid? ==> n1.role.Follower? && n1.term == term)
            && (check.Stale? ==> n1 == ns[i])
            && n1 == ns[i].(term := n1.term, vote := n1.vote, role := n1.role)
  {
  }

  lemma CutKeepsRole(n: Node, entries: seq<Entry>)
    ensures var n' := CutConflict(n, entries); n' == n.(log := n'.log, below := n'.below)
  {
    if entries != [] && !Conflicts(n, entries[0]) { CutKeepsRole(n, entries[1..]); }
  }

  lemma ReconcileKeepsRole(n: Node, prev: nat, prevTerm: nat, entries: seq<Entry>, leaderCommit: nat)
    ensures var n' := Reconcile(n, prev, prevTerm, entries, leaderCommit).0;
            n' == n.(log := n'.log, below := n'.below, commit := n'.commit)
  {
    CutKeepsRole(n, entries);
  }

  lemma OnAppReqIs(s: State, s': State, m: Msg, timeout: nat)
    requires Fair(s) && OnAppReq(s, s', m, timeout)
    ensures DemureTo(s, s', m.dst) && !s'.nodes[m.dst].role.Poisoned?
    ensures s'.restores == s.restores && AddsFair(s, s')
  {
    assert MsgFair(s.nodes, s.hist, m);
    var n := s.nodes[m.dst];
    LeaderRpcIsDemure(s.nodes, s.hist, m.dst, m.term, m.leader, timeout);
    var n2 := ResetHeartbeat(ValidateLeaderRpc(n, m.term, m.leader, timeout).0);
    ReconcileKeepsRole(n2, m.prev, m.prevTerm, m.entries, m.leaderCommit);
    assert CrownOk(s.nodes, s.hist, m.origin);
    AnswerIsFair(s, s', m, timeout);
  }

  lemma AnswerIsFair(s: State, s': State, m: Msg, timeout: nat)
    requires OnAppReq(s, s', m, timeout) && MsgFair(s.nodes, s.hist, m) && CrownOk(s.nodes, s.hist, m.origin)
    ensures AddsFair(s, s')
  {
    assert s'.nodes.Keys == s.nodes.Keys;
  }

  lemma CrashInAppendIs(s: State, s': State, m: Msg, timeout: nat)
    requires Fair(s) && CrashInAppend(s, s', m, timeout)
    ensures DemureTo(s, s', m.dst) && AddsFair(s, s') && !s'.nodes[m.dst].role.Poisoned?
  {
    assert MsgFair(s.nodes, s.hist, m);
    LeaderRpcIsDemure(s.nodes, s.hist, m.dst, m.term, m.leader, timeout);
    CutKeepsRole(ValidateLeaderRpc(s.nodes[m.dst], m.term, m.leader, timeout).0, m.entries);
  }

  lemma OnSnapReqIs(s: State, s': State, m: Msg, timeout: nat)
    requires Fair(s) && OnSnapReq(s, s', m, timeout)
    ensures DemureTo(s, s', m.dst) && AddsFair(s, s') && !s'.nodes[m.dst].role.Poisoned?
  {
    assert MsgFair(s.nodes, s.hist, m);
    LeaderRpcIsDemure(s.nodes, s.hist, m.dst, m.term, m.leader, timeout);
    SnapAnswerIsFair(s, s', m, timeout);
  }

  lemma SnapAnswerIsFair(s: State, s': State, m: Msg, timeout: nat)
    requires OnSnapReq(s, s', m, timeout) && MsgFair(s.nodes, s.hist, m) && CrownsOk(s.nodes, s.hist)
    ensures AddsFair(s, s')
  {
    assert CrownOk(s.nodes, s.hist, m.origin);
    assert s'.nodes.Keys == s.nodes.Keys;
  }

  /** The bookkeeping of a reply; it never meets the underflow that would halt the node. */
  lemma RecordIsDemure(n: Node, roundTerm: nat, peer: NodeId, o: Outcome, timeout: nat)
    requires !n.role.Poisoned? && NextsOk(n)
    ensures var (n1, check) := RecordOutcome(n, roundTerm, peer, o, timeout);
            && (OutcomeTerm(o) < n.term && OutcomeTerm(o) > roundTerm <==> n1.role.Poisoned?)
            && Demure(n, n1) && (check ==> n1.role.Leader?)
            && n1 == n.(term := n1.term, vote := n1.vote, role := n1.role)
  {
    if OutcomeTerm(o) <= roundTerm && n.role.Leader? && n.term == roundTerm {
      assert NextOf(n, peer) >= 1;
    }
  }

  lemma OnReplyIs(s: State, s': State, i: NodeId, n': Node, m: Msg, timeout: nat)
    requires Fair(s) && OnReply(s, s', i, n', m, timeout)
    ensures DemureTo(s, s', i) && AddsNothing(s, s')
  {
    RecordIsDemure(s.nodes[i], m.reqTerm, m.follower, OutcomeOf(m), timeout);
  }

  lemma DeliveryKeeps(s: State, s': State)
    requires Fair(s) && NextDelivery(s, s')
    ensures FairStep(s, s')
  {
    if m, t :| OnAppReq(s, s', m, t) {
      OnAppReqIs(s, s', m, t);
      DemureToKeeps(s, s', m.dst);
    } else if m, t :| CrashInAppend(s, s', m, t) {
      CrashInAppendIs(s, s', m, t);
      DemureToKeeps(s, s', m.dst);
    } else if m, t :| OnSnapReq(s, s', m, t) {
      OnSnapReqIs(s, s', m, t);
      DemureToKeeps(s, s', m.dst);
    } else {
      var i, n, m, t :| OnReply(s, s', i, n, m, t);
      OnReplyIs(s, s', i, n, m, t);
      DemureToKeeps(s, s', i);
    }
  }

  lemma LocalIs(s: State, s': State) returns (i: NodeId)
    requires Fair(s) && NextLocal(s, s')
    ensures DemureTo(s, s', i) && AddsFair(s, s')
    ensures !s.nodes[i].role.Poisoned? ==> !s'.nodes[i].role.Poisoned?
  {
    if j, d :| ClientPropose(s, s', j, d) {
      i := j;
    } else if j :| ApplyOne(s, s', j) {
      i := j;
    } else if r :| FinishRestore(s, s', r) {
      i := r.node;
    } else if j, k :| StartCompaction(s, s', j, k) {
      i := j;
    } else if j, k :| FinishCompaction(s, s', j, k) {
      i := j;
    } else {
      var j, t :| Crash(s, s', j, t);
      i := j;
    }
  }

  lemma LocalKeeps(s: State, s': State)
    requires Fair(s) && NextLocal(s, s')
    ensures FairStep(s, s')
  {
    var i := LocalIs(s, s');
    DemureToKeeps(s, s', i);
  }

  lemma DoStepDownIs(s: State, s': State, i: NodeId, timeout: nat)
    requires DoStepDown(s, s', i, timeout)
    ensures DemureTo(s, s', i) && AddsNothing(s, s') && !s'.nodes[i].role.Poisoned?
  {
  }

  // --- All events ---

  lemma CampaignKeeps(s: State, s': State)
    requires Fair(s) && NextCampaign(s, s')
    ensures FairStep(s, s')
  {
    if i, h, t, c :| Tick(s, s', i, h, t, c) {
      TickKeeps(s, s', i, h, t, c);
    } else if m, t :| OnPreResp(s, s', m, t) {
      OnPreRespKeeps(s, s', m, t);
    } else {
      var c, t :| EndPreVote(s, s', c, t);
      EndPreVoteKeeps(s, s', c, t);
    }
  }

  lemma ElectionKeeps(s: State, s': State)
    requires Fair(s) && NextElection(s, s')
    ensures FairStep(s, s')
  {
    if i, t :| DoStepDown(s, s', i, t) {
      DoStepDownIs(s, s', i, t);
      DemureToKeeps(s, s', i);
    } else if i, m, t :| OnVoteReq(s, s', i, m, t) {
      OnVoteReqKeeps(s, s', i, m, t);
    } else if i, m, t :| OnVoteResp(s, s', i, m, t) {
      OnVoteRespKeeps(s, s', i, m, t);
    } else if i :| ReadTally(s, s', i) {
      ReadTallyKeeps(s, s', i);
    } else if i, k :| EndCampaign(s, s', i, k) {
      EndCampaignKeeps(s, s', i, k);
    } else {
      var i, m :| OnPreReq(s, s', i, m);
      IdleKeeps(s, s');
    }
  }

  /** Every event of the cluster keeps terms, votes, crowns and roles in order, and takes none of them back. */
  lemma NextIsFair(s: State, s': State)
    requires Fair(s) && Next(s, s')
    ensures FairStep(s, s')
  {
    if NextCampaign(s, s') {
      CampaignKeeps(s, s');
    } else if NextElection(s, s') {
      ElectionKeeps(s, s');
    } else if NextSend(s, s') {
      SendKeeps(s, s');
    } else if NextDelivery(s, s') {
      DeliveryKeeps(s, s');
    } else {
      LocalKeeps(s, s');
    }
  }

  lemma InitIsFair(s: State)
    requires Init(s)
    ensures Fair(s)
  {
    assert forall v, t, c :: !VotedFor(s.hist, v, t, c);
  }

  lemma {:induction false} FairAlong(run: seq<State>, i: nat)
    requires Behaviour(run) && i < |run|
    ensures Fair(run[i])
  {
    if i == 0 {
      InitIsFair(run[0]);
    } else {
      FairAlong(run, i - 1);
      assert StepAt(run, i - 1);
      NextIsFair(run[i - 1], run[i]);
    }
  }

  lemma VotesGrowOnce(run: seq<State>, i: nat)
    requires Behaviour(run) && i + 1 < |run|
    ensures VoteGrow(run[i].nodes, run[i].hist, run[i + 1].nodes, run[i + 1].hist)
  {
    FairAlong(run, i);
    assert StepAt(run, i);
    NextIsFair(run[i], run[i + 1]);
  }

  lemma {:induction false} VotesGrowAlong(run: seq<State>, i: nat, j: nat)
    requires Behaviour(run) && i <= j < |run|
    ensures VoteGrow(run[i].nodes, run[i].hist, run[j].nodes, run[j].hist)
    decreases j
  {
    if i < j {
      VotesGrowAlong(run, i, j - 1);
      VotesGrowOnce(run, j - 1);
      VoteGrowTrans(run[i].nodes, run[i].hist, run[j - 1].nodes, run[j - 1].hist, run[j].nodes, run[j].hist);
    }
  }
}
