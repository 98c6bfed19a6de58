/** What the logs behind every message in flight, and behind every task between two lock acquisitions, satisfy. */
module RaftNet {
  import opened Common
  import opened FsmTypes
  import opened Raft
  import opened Cluster
  import opened RaftVotes
  import opened RaftInv
  import opened RaftAppend

  /** The coordinates of a vote request are those of its candidate, as long as the candidacy lasts. */
  ghost predicate VoteReqOk(ns: Nodes, h: History, c: NodeId, t: nat, lastIndex: nat, lastTerm: nat) {
    c in ns && ns[c].role.Candidate? && ns[c].term == t ==> Coordinates(h, ns[c], lastIndex, lastTerm)
  }

  ghost predicate AppReqOk(ns: Nodes, h: History, m: Msg)
    requires m.AppReq?
  {
    && m.origin in h.leaderLog && Offers(LogOf(h, m.origin), m.prev, m.prevTerm, m.entries)
    && CommitOk(ns, h, LogOf(h, m.origin), m.leaderCommit, m.term)
  }

  /** A success in the sender's own term vouches for every entry of that term it reached. */
  ghost predicate AppRespOk(ns: Nodes, h: History, m: Msg)
    requires m.AppResp?
  {
    && m.prev + m.len <= |LogOf(h, m.origin)|
    && (m.reply.success && m.origin == m.reqTerm ==>
          forall k: nat :: k <= m.prev + m.len && Own(h, m.reqTerm, k) ==> Vouches(ns, h, m.follower, m.reqTerm, k))
  }

  ghost predicate MsgOk(ns: Nodes, h: History, m: Msg) {
    match m
    case VoteReq(c, t, li, lt) => VoteReqOk(ns, h, c, t, li, lt)
    case AppReq(_, _, _, _, _, _, _, _) => AppReqOk(ns, h, m)
    case AppResp(_, _, _, _, _, _, _) => AppRespOk(ns, h, m)
    case SnapReq(l, _, t, prefix, _) =>
      l in ns && |prefix| <= ns[l].commit && CommitOk(ns, h, prefix, |prefix|, t)
    case SnapResp(_, l, _, k, _) => l in ns && k <= ns[l].commit
    case _ => true
  }

  ghost predicate RoundOk(ns: Nodes, h: History, r: Round) {
    CommitOk(ns, h, LogOf(h, r.term), r.commit, r.term)
  }

  ghost predicate RestoreOk(ns: Nodes, h: History, r: Restore) {
    r.node in ns && CommitOk(ns, h, r.prefix, |r.prefix|, ns[r.node].term)
  }

  ghost predicate NetOk(s: State) {
    && (forall m :: m in s.msgs ==> MsgOk(s.nodes, s.hist, m))
    && (forall r :: r in s.rounds ==> RoundOk(s.nodes, s.hist, r))
    && (forall r :: r in s.restores ==> RestoreOk(s.nodes, s.hist, r))
  }

  ghost predicate Inv(s: State) {
    Fair(s) && CoreInv(s.nodes, s.hist) && NetOk(s)
  }

  // --- Stability ---

  lemma OffersStable(log: seq<Entry>, log': seq<Entry>, prev: nat, prevTerm: nat, entries: seq<Entry>)
    requires log <= log' && Offers(log, prev, prevTerm, entries)
    ensures Offers(log', prev, prevTerm, entries)
  {
    assert log'[prev..prev + |entries|] == log[prev..prev + |entries|];
  }

  lemma LeaderCommitStable(ns: Nodes, h: History, ns': Nodes, h': History, t: nat, c: nat, bound: nat)
    requires Grow(ns, h, ns', h') && CommitOk(ns, h, LogOf(h, t), c, bound)
    ensures CommitOk(ns', h', LogOf(h', t), c, bound)
  {
    CommitOkStable(ns, h, ns', h', LogOf(h, t), c, bound);
    assert LogOf(h, t) <= LogOf(h', t);
    CommitOkExtends(ns', h', LogOf(h, t), LogOf(h', t), c, bound);
  }

  lemma CoordinatesStable(h: History, h': History, n: Node, n': Node, lastIndex: nat, lastTerm: nat)
    requires HistoryGrows(h, h') && LogKept(n, n') && Coordinates(h, n, lastIndex, lastTerm)
    ensures Coordinates(h', n', lastIndex, lastTerm)
  {
    if lastTerm > 0 {
      var e: nat :| e <= |n.log| && Own(h, lastTerm, e);
      OwnStable(h, h', lastTerm, e);
      assert e <= |n'.log| && Own(h', lastTerm, e);
    }
  }

  lemma VoteReqStable(ns: Nodes, h: History, ns': Nodes, h': History, m: Msg)
    requires Grow(ns, h, ns', h') && m.VoteReq? && MsgFair(ns, h, m) && MsgOk(ns, h, m)
    ensures MsgOk(ns', h', m)
  {
    var n, n' := ns[m.candidate], ns'[m.candidate];
    assert NodeGrows(n, n');
    if n'.role.Candidate? && n'.term == m.term {
      CoordinatesStable(h, h', n, n', m.lastIndex, m.lastTerm);
    }
  }

  lemma AppReqStable(ns: Nodes, h: History, ns': Nodes, h': History, m: Msg)
    requires Grow(ns, h, ns', h') && m.AppReq? && AppReqOk(ns, h, m)
    ensures AppReqOk(ns', h', m)
  {
    assert LogOf(h, m.origin) <= LogOf(h', m.origin);
    OffersStable(LogOf(h, m.origin), LogOf(h', m.origin), m.prev, m.prevTerm, m.entries);
    LeaderCommitStable(ns, h, ns', h', m.origin, m.leaderCommit, m.term);
  }

  lemma AppRespStable(ns: Nodes, h: History, ns': Nodes, h': History, m: Msg)
    requires Grow(ns, h, ns', h') && m.AppResp? && AppRespOk(ns, h, m)
    ensures AppRespOk(ns', h', m)
  {
    assert LogOf(h, m.origin) <= LogOf(h', m.origin);
    if m.reply.success && m.origin == m.reqTerm {
      forall k: nat | k <= m.prev + m.len && Own(h', m.reqTerm, k) ensures Vouches(ns', h', m.follower, m.reqTerm, k) {
        OwnStable(h, h', m.reqTerm, k);
        VouchesStable(ns, h, ns', h', m.follower, m.reqTerm, k);
      }
    }
  }

  lemma SnapReqStable(ns: Nodes, h: History, ns': Nodes, h': History, m: Msg)
    requires Grow(ns, h, ns', h') && m.SnapReq? && MsgOk(ns, h, m)
    ensures MsgOk(ns', h', m)
  {
    assert NodeGrows(ns[m.leader], ns'[m.leader]);
    CommitOkStable(ns, h, ns', h', m.prefix, |m.prefix|, m.term);
  }

  lemma MsgStable(ns: Nodes, h: History, ns': Nodes, h': History, m: Msg)
    requires Grow(ns, h, ns', h') && MsgFair(ns, h, m) && MsgOk(ns, h, m)
    ensures MsgOk(ns', h', m)
  {
    match m
    case VoteReq(_, _, _, _) => VoteReqStable(ns, h, ns', h', m);
    case AppReq(_, _, _, _, _, _, _, _) => AppReqStable(ns, h, ns', h', m);
    case AppResp(_, _, _, _, _, _, _) => AppRespStable(ns, h, ns', h', m);
    case SnapReq(_, _, _, _, _) => SnapReqStable(ns, h, ns', h', m);
    case SnapResp(_, l, _, _, _) => assert NodeGrows(ns[l], ns'[l]);
    case _ =>
  }

  lemma RestoreStable(ns: Nodes, h: History, ns': Nodes, h': History, r: Restore)
    requires Grow(ns, h, ns', h') && RestoreOk(ns, h, r)
    ensures RestoreOk(ns', h', r)
  {
    assert NodeGrows(ns[r.node], ns'[r.node]);
    CommitOkStable(ns, h, ns', h', r.prefix, |r.prefix|, ns[r.node].term);
    CommitOkWeaken(ns', h', r.prefix, |r.prefix|, ns[r.node].term, ns'[r.node].term);
  }

  /** What a step adds to the network is in order after it. */
  ghost predicate Adds(s: State, s': State) {
    && (forall m :: m in s'.msgs && m !in s.msgs ==> MsgOk(s'.nodes, s'.hist, m))
    && (forall r :: r in s'.rounds && r !in s.rounds ==> RoundOk(s'.nodes, s'.hist, r))
    && (forall r :: r in s'.restores && r !in s.restores ==> RestoreOk(s'.nodes, s'.hist, r))
  }

  lemma NetKeeps(s: State, s': State)
    requires NetFair(s) && NetOk(s) && Grow(s.nodes, s.hist, s'.nodes, s'.hist) && Adds(s, s')
    ensures NetOk(s')
  {
    forall m | m in s'.msgs ensures MsgOk(s'.nodes, s'.hist, m) {
      if m in s.msgs { MsgStable(s.nodes, s.hist, s'.nodes, s'.hist, m); }
    }
    forall r | r in s'.rounds ensures RoundOk(s'.nodes, s'.hist, r) {
      if r in s.rounds { LeaderCommitStable(s.nodes, s.hist, s'.nodes, s'.hist, r.term, r.commit, r.term); }
    }
    forall r | r in s'.restores ensures RestoreOk(s'.nodes, s'.hist, r) {
      if r in s.restores { RestoreStable(s.nodes, s.hist, s'.nodes, s'.hist, r); }
    }
  }
}
