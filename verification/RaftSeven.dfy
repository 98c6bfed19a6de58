/**
 Why the term of a snapshot is checked: a run of a cluster of seven whose steps pass every other check
 and that loses a committed entry. Node 0 leads terms 1 and 4, node 1 leads term 2 and hears of nothing
 later, node 3 campaigns in term 3 and is elected late. A replication round of term 1 hands node 2, still
 in term 1, what node 0 has committed in term 4; so node 2 can confirm to node 1 entries that it never
 stored, and then vote in term 3, because the last term it reports is that of an entry the snapshot has
 replaced.
 */
module RaftSeven {
  import opened Common
  import opened FsmTypes
  import opened Raft
  import opened Cluster
  import opened RaftRuns
  import RaftAppend
  import RaftEvents
  import RaftSafety

  // --- Steps of any cluster ---

  /** A follower, or a node of an earlier term, after a request of a leader has left it with a log. */
  function Took(v: Node, leader: NodeId, term: nat, log: seq<Entry>): Node {
    v.(term := term, vote := if term > v.term then None else v.vote, log := log,
       role := Follower(Some(leader), v.tick, if term == v.term && v.role.Follower? then v.role.timeout else 0))
  }

  predicate Follows(v: Node, term: nat) {
    if v.term == term then v.role.Follower? else v.term < term && !v.role.Poisoned?
  }

  /** What a request meets at a node that holds everything before it. */
  lemma AppendsAtEnd(v: Node, leader: NodeId, term: nat, prev: nat, entries: seq<Entry>)
    requires Follows(v, term) && |v.log| == prev && v.horizon == 0 && v.below == []
    requires RaftAppend.Indexed(entries, prev)
    ensures HandleAppendEntries(v, leader, term, prev, TermAt(v.log, prev), entries, 0, 0)
            == (Took(v, leader, term, v.log + entries), AppendReply(term, true, prev + |entries|))
    ensures CutsAbove(v, entries)
  {
    var n2 := ResetHeartbeat(ValidateLeaderRpc(v, term, leader, 0).0);
    var c := RaftAppend.CutAtFirstConflict(n2, entries, prev);
    RaftAppend.MissingIsTail(entries, prev, prev + 1);
    assert entries[0..] == entries;
  }

  lemma Hand(s: State, i: NodeId, peer: NodeId, r: Round, v': Node, reply: AppendReply) returns (s': State)
    requires Present(s, i) && Present(s, peer) && s.nodes[i].role.Leader? && r in s.rounds && r.node == i
    requires peer in s.nodes[i].peers && NextOf(s.nodes[i], peer) > s.nodes[i].horizon && r.commit == 0
    requires var m := BuildAppend(s.nodes[i], peer, r);
             && (v', reply) == HandleAppendEntries(s.nodes[peer], i, m.term, m.prev, m.prevTerm, m.entries, 0, 0)
             && CutsAbove(s.nodes[peer], m.entries)
    requires !v'.role.Poisoned?
    ensures Reaches(s, s') && s'.nodes == s.nodes[peer := v'] && s'.campaigns == s.campaigns
    ensures var m := BuildAppend(s.nodes[i], peer, r);
            AppResp(peer, i, r.term, m.prev, |m.entries|, reply, s.nodes[i].term) in s'.msgs
  {
    var s1 := SendEntries(s, i, peer, r);
    var m := BuildAppend(s.nodes[i], peer, r);
    s' := TakeEntries(s1, m, v', reply);
    Then(s, s1, s');
  }

  lemma BookRejection(s: State, i: NodeId, m: Msg, next: nat) returns (s': State)
    requires Present(s, i) && m in s.msgs && m.AppResp? && m.leader == i && !m.reply.success
    requires s.nodes[i].role.Leader? && m.reqTerm == m.reply.term == s.nodes[i].term
    requires BackedOff(NextOf(s.nodes[i], m.follower), m.reply.lastIndex) == Some(next)
    ensures Reaches(s, s') && s'.campaigns == s.campaigns
    ensures s'.nodes == s.nodes[i := SetNext(s.nodes[i], m.follower, next)]
  {
    s' := s.(nodes := s.nodes[i := SetNext(s.nodes[i], m.follower, next)]);
    assert OnReply(s, s', i, SetNext(s.nodes[i], m.follower, next), m, 0);
    Step(s, s');
  }

  /** A candidate asks again, in the next term. */
  lemma CampaignAgain(s: State, i: NodeId, c: nat) returns (s': State, n': Node)
    requires Present(s, i) && c !in s.campaigns && s.nodes[i].role.Candidate? && s.nodes[i].role.timeout == 0
    requires s.nodes[i].role.electionStart <= s.nodes[i].tick
    ensures n' == s.nodes[i].(tick := s.nodes[i].tick + 1, term := s.nodes[i].term + 1, vote := Some(i),
                              role := Candidate({i}, s.nodes[i].tick + 1, 0))
    ensures Reaches(s, s') && s'.nodes == s.nodes[i := n'] && Campaigning(n') in s'.msgs
    ensures s'.campaigns == s.campaigns
  {
    var n := s.nodes[i];
    n' := n.(tick := n.tick + 1, term := n.term + 1, vote := Some(i), role := Candidate({i}, n.tick + 1, 0));
    s' := s.(nodes := s.nodes[i := n'], hist := NoteCandidacy(s.hist, n, n'), msgs := s.msgs + {Campaigning(n')});
    assert Tick(s, s', i, 0, 0, c);
    Step(s, s');
  }

  // --- Elections among seven ---

  const SEVEN: set<NodeId> := {0, 1, 2, 3, 4, 5, 6}

  function Others(i: NodeId): set<NodeId> {
    SEVEN - {i}
  }

  lemma SixOthers(i: NodeId)
    requires i in SEVEN
    ensures |Others(i)| == 6
  {
    assert |SEVEN| == 7;
    assert Others(i) + {i} == SEVEN;
    UnionSize(Others(i), {i});
  }

  predicate Awaits(n: Node) {
    n.role.Follower? && EvaluateTick(n.(tick := n.tick + 1), 0) == StartPreVote && |n.peers| == 6
  }

  /** Three grants make a node of seven a candidate. */
  lemma CampaignOfSeven(s: State, i: NodeId, p: NodeId, q: NodeId, r: NodeId, c: nat) returns (s': State, n': Node)
    requires Present(s, i) && Present(s, p) && Present(s, q) && Present(s, r) && |{i, p, q, r}| == 4
    requires Awaits(s.nodes[i]) && c !in s.campaigns
    requires Backs(s.nodes[p], s.nodes[i]) && Backs(s.nodes[q], s.nodes[i]) && Backs(s.nodes[r], s.nodes[i])
    ensures n' == s.nodes[i].(tick := s.nodes[i].tick + 1, term := s.nodes[i].term + 1, vote := Some(i),
                              role := Candidate({i}, s.nodes[i].tick + 1, 0))
    ensures Reaches(s, s') && s'.nodes == s.nodes[i := n'] && Campaigning(n') in s'.msgs
    ensures s'.campaigns.Keys == s.campaigns.Keys + {c}
  {
    Distinct(i, p, q, r);
    var n := s.nodes[i];
    var s1 := AskPreVote(s, i, c);
    var ask := PreReq(c, i, n.term, |n.log|, LastStoredTerm(n));
    var s2 := ThreeGrant(s1, p, q, r, ask);
    s' := ThreeGrantsWin(s2, i, c, PreResp(c, p, s.nodes[p].term, true), PreResp(c, q, s.nodes[q].term, true),
                         PreResp(c, r, s.nodes[r].term, true));
    n' := s'.nodes[i];
    assert s1.campaigns.Keys == s.campaigns.Keys + {c};
    Then(s, s1, s2);
    Then(s, s2, s');
  }

  lemma Distinct(i: NodeId, p: NodeId, q: NodeId, r: NodeId)
    requires |{i, p, q, r}| == 4
    ensures i != p && i != q && i != r && p != q && p != r && q != r
    ensures |{p, q, r}| == 3 && |{p, q}| == 2 && |{p}| == 1
  {
    if i == p { SubsetSize({i, p, q, r}, {i, q, r}); }
    if i == q { SubsetSize({i, p, q, r}, {i, p, r}); }
    if i == r { SubsetSize({i, p, q, r}, {i, p, q}); }
    if p == q { SubsetSize({i, p, q, r}, {i, p, r}); }
    if p == r { SubsetSize({i, p, q, r}, {i, p, q}); }
    if q == r { SubsetSize({i, p, q, r}, {i, p, q}); }
  }

  lemma ThreeGrant(s: State, p: NodeId, q: NodeId, r: NodeId, m: Msg) returns (s': State)
    requires Present(s, p) && Present(s, q) && Present(s, r) && m in s.msgs && m.PreReq?
    requires m.candidate != p && m.candidate != q && m.candidate != r
    requires GrantsPreVote(s.nodes[p], m.term, m.lastIndex, m.lastTerm)
    requires GrantsPreVote(s.nodes[q], m.term, m.lastIndex, m.lastTerm)
    requires GrantsPreVote(s.nodes[r], m.term, m.lastIndex, m.lastTerm)
    ensures Reaches(s, s') && s'.nodes == s.nodes && s'.campaigns == s.campaigns
    ensures PreResp(m.campaign, p, s.nodes[p].term, true) in s'.msgs
    ensures PreResp(m.campaign, q, s.nodes[q].term, true) in s'.msgs
    ensures PreResp(m.campaign, r, s.nodes[r].term, true) in s'.msgs
  {
    var s1 := GrantPreVote(s, p, m);
    var s2 := GrantPreVote(s1, q, m);
    s' := GrantPreVote(s2, r, m);
    Then(s, s1, s2);
    Then(s, s2, s');
  }

  predicate Grants(m: Msg, c: nat, term: nat) {
    m.PreResp? && m.campaign == c && m.granted && m.respTerm <= term
  }

  lemma ThreeGrantsWin(s: State, i: NodeId, c: nat, m1: Msg, m2: Msg, m3: Msg) returns (s': State)
    requires Present(s, i) && |s.nodes[i].peers| == 6 && CanCampaign(s.nodes[i])
    requires m1 in s.msgs && m2 in s.msgs && m3 in s.msgs
    requires Grants(m1, c, s.nodes[i].term) && Grants(m2, c, s.nodes[i].term) && Grants(m3, c, s.nodes[i].term)
    requires |{m1.voter, m2.voter, m3.voter}| == 3 && |{m1.voter, m2.voter}| == 2 && |{m1.voter}| == 1
    requires c in s.campaigns && s.campaigns[c] == PreCampaign(i, s.nodes[i].term, {}, true)
    ensures Reaches(s, s') && s'.nodes == s.nodes[i := IntoCandidate(s.nodes[i], 0)]
    ensures Campaigning(IntoCandidate(s.nodes[i], 0)) in s'.msgs && s'.campaigns.Keys == s.campaigns.Keys
  {
    assert {} + {m1.voter} == {m1.voter} && {m1.voter} + {m2.voter} == {m1.voter, m2.voter};
    assert {m1.voter, m2.voter} + {m3.voter} == {m1.voter, m2.voter, m3.voter};
    var s1 := CountPreGrant(s, i, c, m1, {});
    var s2 := CountPreGrant(s1, i, c, m2, {m1.voter});
    s' := LastPreGrant(s2, i, c, m3, {m1.voter, m2.voter});
    Then(s, s1, s2);
    Then(s, s2, s');
  }

  predicate Gives(v: Node, n: Node) {
    v.term < n.term && UpToDate(v, |n.log|, LastStoredTerm(n))
  }

  /** A vote that does not decide the election. */
  lemma CollectVote(s: State, i: NodeId, v: NodeId) returns (s': State)
    requires Present(s, i) && Present(s, v) && i != v && s.nodes[i].role.Candidate? && |s.nodes[i].peers| == 6
    requires Campaigning(s.nodes[i]) in s.msgs && Gives(s.nodes[v], s.nodes[i])
    requires |s.nodes[i].role.votes + {v}| < 4
    ensures Reaches(s, s') && s'.campaigns == s.campaigns
    ensures var n := s.nodes[i];
            s'.nodes == s.nodes[v := Voted(s.nodes[v], n.term, i)]
                               [i := n.(role := n.role.(votes := n.role.votes + {v}))]
  {
    var n := s.nodes[i];
    var s1 := GrantVote(s, v, Campaigning(n));
    s' := CountVote(s1, i, VoteResp(v, i, n.term, n.term, true));
    Then(s, s1, s');
  }

  /** The vote that does. */
  lemma CollectLastVote(s: State, i: NodeId, v: NodeId) returns (s': State)
    requires Present(s, i) && Present(s, v) && i != v && s.nodes[i].role.Candidate? && |s.nodes[i].peers| == 6
    requires Campaigning(s.nodes[i]) in s.msgs && Gives(s.nodes[v], s.nodes[i])
    requires |s.nodes[i].role.votes + {v}| >= 4
    ensures Reaches(s, s') && s'.campaigns == s.campaigns
    ensures var n := s.nodes[i];
            s'.nodes == s.nodes[v := Voted(s.nodes[v], n.term, i)][i := n.(role := FreshLeader(n))]
  {
    var n := s.nodes[i];
    var s1 := GrantVote(s, v, Campaigning(n));
    s' := LastVote(s1, i, VoteResp(v, i, n.term, n.term, true));
    Then(s, s1, s');
  }

  /** Two votes, which do not suffice. */
  lemma CollectTwo(s: State, i: NodeId, p: NodeId, q: NodeId) returns (s': State)
    requires Present(s, i) && Present(s, p) && Present(s, q) && i != p && i != q && p != q
    requires s.nodes[i].role.Candidate? && |s.nodes[i].peers| == 6 && s.nodes[i].role.votes == {i}
    requires Campaigning(s.nodes[i]) in s.msgs && Gives(s.nodes[p], s.nodes[i]) && Gives(s.nodes[q], s.nodes[i])
    ensures Reaches(s, s') && s'.campaigns == s.campaigns
    ensures var n := s.nodes[i];
            s'.nodes == s.nodes[p := Voted(s.nodes[p], n.term, i)][q := Voted(s.nodes[q], n.term, i)]
                               [i := n.(role := n.role.(votes := {i, p, q}))]
  {
    assert {i} + {p} == {i, p} && {i, p} + {q} == {i, p, q} && |{i, p}| == 2 && |{i, p, q}| == 3;
    var s1 := CollectVote(s, i, p);
    s' := CollectVote(s1, i, q);
    Then(s, s1, s');
  }

  /** Three voters elect a candidate. */
  lemma WinVotes(s: State, i: NodeId, p: NodeId, q: NodeId, r: NodeId) returns (s': State)
    requires Present(s, i) && Present(s, p) && Present(s, q) && Present(s, r) && |{i, p, q, r}| == 4
    requires s.nodes[i].role.Candidate? && |s.nodes[i].peers| == 6 && s.nodes[i].role.votes == {i}
    requires Campaigning(s.nodes[i]) in s.msgs
    requires Gives(s.nodes[p], s.nodes[i]) && Gives(s.nodes[q], s.nodes[i]) && Gives(s.nodes[r], s.nodes[i])
    ensures Reaches(s, s') && s'.campaigns == s.campaigns
    ensures var n := s.nodes[i];
            s'.nodes == s.nodes[p := Voted(s.nodes[p], n.term, i)][q := Voted(s.nodes[q], n.term, i)]
                               [r := Voted(s.nodes[r], n.term, i)][i := n.(role := FreshLeader(n))]
  {
    Distinct(i, p, q, r);
    assert {i, p, q} + {r} == {i, p, q, r};
    var s1 := CollectTwo(s, i, p, q);
    s' := CollectLastVote(s1, i, r);
    Then(s, s1, s');
  }

  /** Three backers elect a follower. */
  lemma ElectOfSeven(s: State, i: NodeId, p: NodeId, q: NodeId, r: NodeId, c: nat) returns (s': State)
    requires Present(s, i) && Present(s, p) && Present(s, q) && Present(s, r) && |{i, p, q, r}| == 4
    requires Awaits(s.nodes[i]) && c !in s.campaigns
    requires Backs(s.nodes[p], s.nodes[i]) && Backs(s.nodes[q], s.nodes[i]) && Backs(s.nodes[r], s.nodes[i])
    ensures Reaches(s, s') && s'.campaigns.Keys == s.campaigns.Keys + {c}
    ensures var t := s.nodes[i].term + 1;
            s'.nodes == s.nodes[p := Voted(s.nodes[p], t, i)][q := Voted(s.nodes[q], t, i)]
                               [r := Voted(s.nodes[r], t, i)][i := Elected(s.nodes[i])]
  {
    Distinct(i, p, q, r);
    var s1, n := CampaignOfSeven(s, i, p, q, r, c);
    s' := WinVotes(s1, i, p, q, r);
    Then(s, s1, s');
  }

  // --- Replication ---

  /** A leader hands a peer all that the peer lacks; the peer takes it over. */
  lemma Extend(s: State, i: NodeId, peer: NodeId, r: Round) returns (s': State)
    requires Present(s, i) && Present(s, peer) && s.nodes[i].role.Leader? && r in s.rounds && r.node == i
    requires peer in s.nodes[i].peers && r.commit == 0 && r.term == s.nodes[i].term && s.nodes[i].horizon == 0
    requires NextOf(s.nodes[i], peer) == |s.nodes[peer].log| + 1 && s.nodes[peer].log <= s.nodes[i].log
    requires Follows(s.nodes[peer], r.term) && s.nodes[peer].horizon == 0 && s.nodes[peer].below == []
    requires RaftAppend.Indexed(s.nodes[i].log, 0)
    ensures Reaches(s, s') && s'.campaigns == s.campaigns
    ensures s'.nodes == s.nodes[peer := Took(s.nodes[peer], i, r.term, s.nodes[i].log)]
    ensures var n, k := s.nodes[i], |s.nodes[peer].log|;
            AppResp(peer, i, r.term, k, |n.log| - k, AppendReply(r.term, true, |n.log|), n.term) in s'.msgs
  {
    var n, v := s.nodes[i], s.nodes[peer];
    var k := |v.log|;
    assert v.log + n.log[k..] == n.log && TermAt(v.log, k) == TermAt(n.log, k);
    AppendsAtEnd(v, i, r.term, k, n.log[k..]);
    s' := Hand(s, i, peer, r, Took(v, i, r.term, n.log), AppendReply(r.term, true, |n.log|));
  }

  /** A request that starts behind the peer's end is refused, and the leader backs off to that end. */
  lemma Refuse(s: State, i: NodeId, peer: NodeId, r: Round) returns (s': State)
    requires Present(s, i) && Present(s, peer) && s.nodes[i].role.Leader? && r in s.rounds && r.node == i
    requires peer in s.nodes[i].peers && r.commit == 0 && r.term == s.nodes[i].term && s.nodes[i].horizon == 0
    requires NextOf(s.nodes[i], peer) > |s.nodes[peer].log| + 1 && s.nodes[peer].log != []
    requires Follows(s.nodes[peer], r.term) && s.nodes[peer].horizon == 0 && i != peer
    ensures Reaches(s, s') && s'.campaigns == s.campaigns
    ensures var n, v := s.nodes[i], s.nodes[peer];
            s'.nodes == s.nodes[peer := Took(v, i, r.term, v.log)][i := SetNext(n, peer, |v.log| + 1)]
  {
    var n, v := s.nodes[i], s.nodes[peer];
    var reply := AppendReply(r.term, false, |v.log|);
    var m := BuildAppend(n, peer, r);
    var s1 := Hand(s, i, peer, r, Took(v, i, r.term, v.log), reply);
    s' := BookRejection(s1, i, AppResp(peer, i, r.term, m.prev, |m.entries|, reply, n.term), |v.log| + 1);
    Then(s, s1, s');
  }

  /** So the next request brings everything. */
  lemma Bring(s: State, i: NodeId, peer: NodeId, r: Round) returns (s': State)
    requires Present(s, i) && Present(s, peer) && s.nodes[i].role.Leader? && r in s.rounds && r.node == i
    requires peer in s.nodes[i].peers && r.commit == 0 && r.term == s.nodes[i].term && s.nodes[i].horizon == 0
    requires NextOf(s.nodes[i], peer) > |s.nodes[peer].log| + 1 && s.nodes[peer].log != []
    requires Follows(s.nodes[peer], r.term) && s.nodes[peer].horizon == 0 && s.nodes[peer].below == [] && i != peer
    requires s.nodes[peer].log <= s.nodes[i].log && RaftAppend.Indexed(s.nodes[i].log, 0)
    ensures Reaches(s, s') && s'.campaigns == s.campaigns
    ensures var n, v := s.nodes[i], s.nodes[peer];
            && s'.nodes == s.nodes[peer := Took(v, i, r.term, n.log)][i := SetNext(n, peer, |v.log| + 1)]
            && AppResp(peer, i, r.term, |v.log|, |n.log| - |v.log|, AppendReply(r.term, true, |n.log|), n.term)
               in s'.msgs
  {
    var s1 := Refuse(s, i, peer, r);
    s' := Extend(s1, i, peer, r);
    var v := s.nodes[peer];
    assert Took(Took(v, i, r.term, v.log), i, r.term, s.nodes[i].log) == Took(v, i, r.term, s.nodes[i].log);
    Then(s, s1, s');
  }

  /** The peers that are known to hold the leader's whole log; of the others nothing is known. */
  ghost predicate HeldBy(n: Node, holders: set<NodeId>) {
    && n.role.Leader? && n.id in SEVEN && n.log != [] && n.horizon == 0 && LastTerm(n.log) == n.term
    && n.role.matchIndex.Keys == Others(n.id) && holders <= Others(n.id)
    && forall p :: p in Others(n.id) ==> n.role.matchIndex[p] == if p in holders then |n.log| else 0
  }

  lemma QuorumIndexOfSeven(n: Node, k: nat, vs: set<NodeId>, ws: set<NodeId>)
    requires n.role.Leader? && |n.role.matchIndex| == 6
    requires vs <= Holders(n, k) && |vs| >= 4 && |ws| <= 3 && forall j :: j > k ==> Holders(n, j) <= ws
    ensures IsQuorumIndex(n, k)
  {
    SubsetSize(vs, Holders(n, k));
    forall j | j > k ensures |Holders(n, j)| < Quorum(7) {
      SubsetSize(Holders(n, j), ws);
    }
  }

  lemma QuorumOf(n: Node, holders: set<NodeId>)
    requires HeldBy(n, holders)
    ensures |holders| <= 2 ==> IsQuorumIndex(n, 0)
    ensures |holders| >= 3 ==> IsQuorumIndex(n, |n.log|)
  {
    SixOthers(n.id);
    assert |n.role.matchIndex| == |n.role.matchIndex.Keys|;
    UnionSize(holders, {n.id});
    if |holders| <= 2 {
      UnionSize(Others(n.id), {n.id});
      assert Holders(n, 0) == Others(n.id) + {n.id};
      QuorumIndexOfSeven(n, 0, Holders(n, 0), holders + {n.id});
    } else {
      QuorumIndexOfSeven(n, |n.log|, holders + {n.id}, {});
    }
  }

  /** The third such reply commits. */
  lemma BookHolder(s: State, i: NodeId, m: Msg, holders: set<NodeId>) returns (s': State, n': Node)
    requires Present(s, i) && HeldBy(s.nodes[i], holders) && s.nodes[i].commit == 0 && |holders| <= 2
    requires m in s.msgs && m.AppResp? && m.leader == i && m.follower in Others(i) - holders && m.reply.success
    requires m.reply.term == m.reqTerm == s.nodes[i].term && m.prev + m.len == |s.nodes[i].log|
    ensures Reaches(s, s') && s'.nodes == s.nodes[i := n'] && s'.campaigns == s.campaigns
    ensures var n := s.nodes[i];
            && n' == SetProgress(n, m.follower, |n.log|).(commit := if |holders| == 2 then |n.log| else 0)
            && HeldBy(n', holders + {m.follower})
  {
    var n := s.nodes[i];
    var n1 := SetProgress(n, m.follower, |n.log|);
    assert HeldBy(n1, holders + {m.follower});
    UnionSize(holders, {m.follower});
    QuorumOf(n1, holders + {m.follower});
    s' := BookSuccess(s, i, m, if |holders| == 2 then |n.log| else 0);
    n' := s'.nodes[i];
  }

  /** The reply of a peer that has the leader's whole log, as far as the leader can tell. */
  ghost predicate Confirms(s: State, i: NodeId, m: Msg) {
    && m in s.msgs && m.AppResp? && m.leader == i && m.follower in Others(i) && m.reply.success
    && i in s.nodes && m.reply.term == m.reqTerm == s.nodes[i].term && m.prev + m.len == |s.nodes[i].log|
  }

  lemma BookTwo(s: State, i: NodeId, m1: Msg, m2: Msg) returns (s': State, n': Node)
    requires Present(s, i) && HeldBy(s.nodes[i], {}) && s.nodes[i].commit == 0
    requires Confirms(s, i, m1) && Confirms(s, i, m2) && m1.follower != m2.follower
    ensures Reaches(s, s') && s'.nodes == s.nodes[i := n'] && s'.campaigns == s.campaigns
    ensures HeldBy(n', {m1.follower, m2.follower}) && n' == s.nodes[i].(role := n'.role)
    ensures forall p :: p !in {m1.follower, m2.follower} ==> NextOf(n', p) == NextOf(s.nodes[i], p)
  {
    var s1, n1 := BookHolder(s, i, m1, {});
    assert {} + {m1.follower} == {m1.follower} && {m1.follower} + {m2.follower} == {m1.follower, m2.follower};
    s', n' := BookHolder(s1, i, m2, {m1.follower});
    Then(s, s1, s');
  }

  lemma BookThree(s: State, i: NodeId, m1: Msg, m2: Msg, m3: Msg) returns (s': State, n': Node)
    requires Present(s, i) && HeldBy(s.nodes[i], {}) && s.nodes[i].commit == 0
    requires Confirms(s, i, m1) && Confirms(s, i, m2) && Confirms(s, i, m3)
    requires |{i, m1.follower, m2.follower, m3.follower}| == 4
    ensures Reaches(s, s') && s'.nodes == s.nodes[i := n'] && s'.campaigns == s.campaigns
    ensures n' == s.nodes[i].(role := n'.role, commit := |n'.log|) && n'.role.Leader?
    ensures forall p :: p !in {m1.follower, m2.follower, m3.follower} ==> NextOf(n', p) == NextOf(s.nodes[i], p)
  {
    Distinct(i, m1.follower, m2.follower, m3.follower);
    var s1, n1 := BookTwo(s, i, m1, m2);
    s', n' := BookHolder(s1, i, m3, {m1.follower, m2.follower});
    Then(s, s1, s');
  }

  lemma {:induction false} ApplyAll(s: State, i: NodeId) returns (s': State)
    requires Present(s, i) && s.nodes[i].applied < s.nodes[i].commit
    ensures Reaches(s, s') && s'.nodes == s.nodes[i := s.nodes[i].(applied := s.nodes[i].commit)]
    ensures s'.campaigns == s.campaigns
    decreases s.nodes[i].commit - s.nodes[i].applied
  {
    s' := ApplyNext(s, i);
    if s'.nodes[i].applied < s'.nodes[i].commit {
      var s1 := s';
      s' := ApplyAll(s1, i);
      Then(s, s1, s');
    }
  }

  // --- The run: term 1 ---

  function One(d: Payload): seq<Entry> {
    [Entry(1, 1, d)]
  }

  function Two(d: Payload): seq<Entry> {
    [Entry(1, 1, d), Entry(2, 2, d)]
  }

  function Three(d: Payload): seq<Entry> {
    [Entry(1, 1, d), Entry(2, 2, d), Entry(3, 2, d)]
  }

  function Four(d: Payload): seq<Entry> {
    Three(d) + [Entry(4, 4, d)]
  }

  function Following(i: NodeId, tick: nat, term: nat, vote: Option<NodeId>, log: seq<Entry>,
      leader: Option<NodeId>): Node
  {
    Node(i, Others(i), term, vote, log, 0, 0, [], 0, tick, Follower(leader, tick, 0))
  }

  function Leading(i: NodeId, tick: nat, term: nat, log: seq<Entry>, next: nat): Node {
    Node(i, Others(i), term, Some(i), log, 0, 0, [], 0, tick,
         Leader(Progress(SEVEN, i, next), Progress(SEVEN, i, 0), tick))
  }

  lemma ElectedLeads(i: NodeId, tick: nat, term: nat, vote: Option<NodeId>, log: seq<Entry>, leader: Option<NodeId>)
    ensures Elected(Following(i, tick, term, vote, log, leader)) == Leading(i, tick + 1, term + 1, log, |log| + 1)
  {
    var n := Elected(Following(i, tick, term, vote, log, leader));
    assert n.role.nextIndex == Progress(SEVEN, i, |log| + 1);
    assert n.role.matchIndex == Progress(SEVEN, i, 0);
  }

  /** An election of a node that has led nothing, by nodes 4, 5 and 6. */
  lemma Crown(s: State, i: NodeId, term: nat, log: seq<Entry>, leader: Option<NodeId>, c: nat) returns (s': State)
    requires i in {0, 1} && i in s.nodes && s.nodes[i] == Following(i, 0, term, None, log, leader)
    requires Present(s, 4) && Present(s, 5) && Present(s, 6) && c !in s.campaigns
    requires Backs(s.nodes[4], s.nodes[i]) && Backs(s.nodes[5], s.nodes[i]) && Backs(s.nodes[6], s.nodes[i])
    ensures Reaches(s, s') && s'.campaigns.Keys == s.campaigns.Keys + {c}
    ensures s'.nodes == s.nodes[4 := Voted(s.nodes[4], term + 1, i)][5 := Voted(s.nodes[5], term + 1, i)]
                               [6 := Voted(s.nodes[6], term + 1, i)][i := Leading(i, 1, term + 1, log, |log| + 1)]
  {
    SixOthers(i);
    assert |{i, 4, 5, 6}| == 4;
    s' := ElectOfSeven(s, i, 4, 5, 6, c);
    ElectedLeads(i, 0, term, None, log, leader);
  }

  /** The seven nodes, by name. */
  datatype Cast = Cast(first: Node, second: Node, third: Node, late: Node, b: Node, c: Node, e: Node)

  ghost predicate Stands(s: State, g: Cast) {
    && s.nodes.Keys == SEVEN
    && s.nodes[0] == g.first && s.nodes[1] == g.second && s.nodes[2] == g.third && s.nodes[3] == g.late
    && s.nodes[4] == g.b && s.nodes[5] == g.c && s.nodes[6] == g.e
  }

  function Elected1(log: seq<Entry>): Cast {
    Cast(Leading(0, 1, 1, log, 1), Following(1, 0, 0, None, [], None), Following(2, 0, 0, None, [], None),
         Following(3, 0, 0, None, [], None), Following(4, 0, 1, Some(0), [], None),
         Following(5, 0, 1, Some(0), [], None), Following(6, 0, 1, Some(0), [], None))
  }

  function Opening(): Cast {
    Cast(Following(0, 0, 0, None, [], None), Following(1, 0, 0, None, [], None), Following(2, 0, 0, None, [], None),
         Following(3, 0, 0, None, [], None), Following(4, 0, 0, None, [], None), Following(5, 0, 0, None, [], None),
         Following(6, 0, 0, None, [], None))
  }

  lemma Opens() returns (s: State)
    ensures Init(s) && Path(s, s) && s.campaigns == map[] && Stands(s, Opening())
  {
    s := Begin(SEVEN);
    forall i | i in SEVEN ensures s.nodes[i] == Following(i, 0, 0, None, [], None) {
    }
  }

  lemma FirstTerm(s: State, d: Payload) returns (s': State)
    requires Stands(s, Opening()) && s.campaigns == map[]
    ensures Reaches(s, s') && s'.campaigns.Keys == {0}
    ensures Stands(s', Elected1(One(d))) && Round(0, 1, 0) in s'.rounds
  {
    var s1 := Crown(s, 0, 0, [], None, 0);
    s' := WriteFirst(s1, d);
    Then(s, s1, s');
  }

  lemma WriteFirst(s: State, d: Payload) returns (s': State)
    requires Stands(s, Elected1([]))
    ensures Reaches(s, s') && s'.campaigns == s.campaigns
    ensures Stands(s', Elected1(One(d))) && Round(0, 1, 0) in s'.rounds
  {
    var s1 := AddEntry(s, 0, d);
    assert [] + [Entry(1, 1, d)] == One(d);
    s' := BeginRound(s1, 0);
    Then(s, s1, s');
  }

  function Spread1(d: Payload): Cast {
    Cast(Leading(0, 1, 1, One(d), 1), Following(1, 0, 1, None, One(d), Some(0)),
         Following(2, 0, 1, None, One(d), Some(0)), Following(3, 0, 1, None, One(d), Some(0)),
         Following(4, 0, 1, Some(0), One(d), Some(0)), Following(5, 0, 1, Some(0), One(d), Some(0)),
         Following(6, 0, 1, Some(0), One(d), Some(0)))
  }

  /** Three peers in turn take over what the leader has. */
  lemma ExtendThree(s: State, g: Cast, p: NodeId, q: NodeId, t: NodeId, d: Payload) returns (s': State)
    requires Stands(s, g) && Round(0, 1, 0) in s.rounds && g.first == Leading(0, 1, 1, One(d), 1)
    requires {p, q, t} <= Others(0) && |{0, p, q, t}| == 4
    requires Starts(s.nodes[p], p) && Starts(s.nodes[q], q) && Starts(s.nodes[t], t)
    ensures Reaches(s, s') && s'.campaigns == s.campaigns
    ensures s'.nodes == s.nodes[p := Took(s.nodes[p], 0, 1, One(d))][q := Took(s.nodes[q], 0, 1, One(d))]
                               [t := Took(s.nodes[t], 0, 1, One(d))]
  {
    Distinct(0, p, q, t);
    var r := Round(0, 1, 0);
    var s1 := Extend(s, 0, p, r);
    var s2 := Extend(s1, 0, q, r);
    s' := Extend(s2, 0, t, r);
    Then(s, s1, s2);
    Then(s, s2, s');
  }

  predicate Starts(v: Node, i: NodeId) {
    Untouched(v) && v.term <= 1 && v.id == i
  }

  lemma FirstSpread(s: State, d: Payload) returns (s': State)
    requires Stands(s, Elected1(One(d))) && Round(0, 1, 0) in s.rounds
    ensures Reaches(s, s') && s'.campaigns == s.campaigns && Stands(s', Spread1(d))
  {
    assert |{0, 1, 2, 3}| == 4 && |{0, 4, 5, 6}| == 4;
    var g := Elected1(One(d));
    var s1 := ExtendThree(s, g, 1, 2, 3, d);
    var g1 := Spread1(d).(b := g.b, c := g.c, e := g.e);
    s' := ExtendThree(s1, g1, 4, 5, 6, d);
    Then(s, s1, s');
  }

  // --- Term 2 ---

  function Elected2(d: Payload, log: seq<Entry>): Cast {
    Spread1(d).(second := Leading(1, 1, 2, log, 2), b := Following(4, 0, 2, Some(1), One(d), None),
                c := Following(5, 0, 2, Some(1), One(d), None), e := Following(6, 0, 2, Some(1), One(d), None))
  }

  lemma SecondTerm(s: State, d: Payload) returns (s': State)
    requires Stands(s, Spread1(d)) && s.campaigns.Keys == {0}
    ensures Reaches(s, s') && s'.campaigns.Keys == {0, 1}
    ensures Stands(s', Elected2(d, Two(d))) && Round(1, 2, 0) in s'.rounds
  {
    var s1 := Crown(s, 1, 1, One(d), Some(0), 1);
    var s2 := AddEntry(s1, 1, d);
    assert One(d) + [Entry(2, 2, d)] == Two(d);
    s' := BeginRound(s2, 1);
    Then(s, s1, s2);
    Then(s, s2, s');
  }

  function Spread2(d: Payload): Cast {
    Elected2(d, Three(d)).(first := Following(0, 1, 2, None, Three(d), Some(1)),
                           late := Following(3, 0, 2, None, Two(d), Some(1)),
                           e := Following(6, 0, 2, Some(1), Three(d), Some(1)))
  }

  /** What is still under way: a round of term 1, one of term 2, and two replies to node 1. */
  ghost predicate UnderWay(s: State) {
    && Round(0, 1, 0) in s.rounds && Round(1, 2, 0) in s.rounds
    && AppResp(0, 1, 2, 1, 2, AppendReply(2, true, 3), 2) in s.msgs
    && AppResp(6, 1, 2, 1, 2, AppendReply(2, true, 3), 2) in s.msgs
  }

  lemma SecondSpread(s: State, d: Payload) returns (s': State)
    requires Stands(s, Elected2(d, Two(d))) && Round(1, 2, 0) in s.rounds && Round(0, 1, 0) in s.rounds
    ensures Reaches(s, s') && s'.campaigns == s.campaigns && Stands(s', Spread2(d)) && UnderWay(s')
  {
    var r := Round(1, 2, 0);
    var s1 := Extend(s, 1, 3, r);
    var s2 := AddEntry(s1, 1, d);
    assert Two(d) + [Entry(3, 2, d)] == Three(d);
    var s3 := Extend(s2, 1, 0, r);
    s' := Extend(s3, 1, 6, r);
    Then(s, s1, s2);
    Then(s, s2, s3);
    Then(s, s3, s');
  }

  // --- Term 3 and term 4 ---

  function Asking(i: NodeId, tick: nat, term: nat, log: seq<Entry>, votes: set<NodeId>): Node {
    Node(i, Others(i), term, Some(i), log, 0, 0, [], 0, tick, Candidate(votes, tick, 0))
  }

  lemma LateCandidate(s: State, d: Payload) returns (s': State)
    requires Stands(s, Spread2(d)) && s.campaigns.Keys == {0, 1}
    ensures Reaches(s, s') && s'.campaigns.Keys == {0, 1, 2} && VoteReq(3, 3, 2, 2) in s'.msgs
    ensures Stands(s', Spread2(d).(late := Asking(3, 1, 3, Two(d), {3})))
  {
    SixOthers(3);
    assert |{3, 2, 4, 5}| == 4;
    var n;
    s', n := CampaignOfSeven(s, 3, 2, 4, 5, 2);
    assert Campaigning(n) == VoteReq(3, 3, 2, 2);
  }

  /** Nodes 3 and 0 become candidates of term 3. */
  lemma TwoCandidates(s: State, d: Payload) returns (s': State)
    requires Stands(s, Spread2(d)) && s.campaigns.Keys == {0, 1}
    ensures Reaches(s, s') && s'.campaigns.Keys == {0, 1, 2, 3} && VoteReq(3, 3, 2, 2) in s'.msgs
    ensures Stands(s', Spread2(d).(first := Asking(0, 2, 3, Three(d), {0}), late := Asking(3, 1, 3, Two(d), {3})))
  {
    SixOthers(0);
    assert |{0, 4, 5, 6}| == 4;
    var s1 := LateCandidate(s, d);
    var n;
    s', n := CampaignOfSeven(s1, 0, 4, 5, 6, 3);
    Then(s, s1, s');
  }

  /** Node 3 has three votes of four, and waits. */
  function Split3(d: Payload): Cast {
    Spread2(d).(first := Asking(0, 2, 3, Three(d), {0}), late := Asking(3, 1, 3, Two(d), {3, 4, 5}),
                b := Following(4, 0, 3, Some(3), One(d), None), c := Following(5, 0, 3, Some(3), One(d), None))
  }

  lemma TwoVotes(s: State, d: Payload) returns (s': State)
    requires VoteReq(3, 3, 2, 2) in s.msgs
    requires Stands(s, Spread2(d).(first := Asking(0, 2, 3, Three(d), {0}), late := Asking(3, 1, 3, Two(d), {3})))
    ensures Reaches(s, s') && s'.campaigns == s.campaigns && Stands(s', Split3(d))
  {
    SixOthers(3);
    s' := CollectTwo(s, 3, 4, 5);
  }

  function Elected4(d: Payload): Cast {
    Split3(d).(first := Leading(0, 3, 4, Three(d), 4), b := Following(4, 0, 4, Some(0), One(d), None),
               c := Following(5, 0, 4, Some(0), One(d), None), e := Following(6, 0, 4, Some(0), Three(d), None))
  }

  lemma FourthTerm(s: State, d: Payload) returns (s': State)
    requires Stands(s, Split3(d)) && s.campaigns.Keys == {0, 1, 2, 3}
    ensures Reaches(s, s') && Stands(s', Elected4(d))
  {
    SixOthers(0);
    assert |{0, 4, 5, 6}| == 4;
    var s1, n := CampaignAgain(s, 0, 4);
    assert n == Asking(0, 3, 4, Three(d), {0});
    s' := WinVotes(s1, 0, 4, 5, 6);
    AskedLeads(0, 3, 4, Three(d), {0});
    Then(s, s1, s');
  }

  lemma AskedLeads(i: NodeId, tick: nat, term: nat, log: seq<Entry>, votes: set<NodeId>)
    ensures var n := Asking(i, tick, term, log, votes);
            n.(role := FreshLeader(n)) == Leading(i, tick, term, log, |log| + 1)
  {
    var n := FreshLeader(Asking(i, tick, term, log, votes));
    assert n.nextIndex == Progress(SEVEN, i, |log| + 1);
    assert n.matchIndex == Progress(SEVEN, i, 0);
  }

  // --- A commitment in term 4 ---

  function Written4(d: Payload): Cast {
    Elected4(d).(first := Leading(0, 3, 4, Three(d), 4).(log := Four(d)))
  }

  lemma WriteFourth(s: State, d: Payload) returns (s': State)
    requires Stands(s, Elected4(d))
    ensures Reaches(s, s') && Stands(s', Written4(d)) && Round(0, 4, 0) in s'.rounds
  {
    var s1 := AddEntry(s, 0, d);
    s' := BeginRound(s1, 0);
    Then(s, s1, s');
  }

  /** Nodes 1, 2 and 3 have seen nothing of term 4. */
  ghost predicate Aside(s: State, d: Payload) {
    && s.nodes.Keys == SEVEN && s.nodes[1] == Elected4(d).second && s.nodes[2] == Elected4(d).third
    && s.nodes[3] == Elected4(d).late
  }

  function Fourth(d: Payload): Node {
    SetNext(SetNext(Written4(d).first, 4, 2), 5, 2)
  }

  lemma FourthToOne(s: State, d: Payload) returns (s': State)
    requires Stands(s, Written4(d)) && Round(0, 4, 0) in s.rounds
    ensures Reaches(s, s') && Stands(s', Written4(d).(e := Following(6, 0, 4, Some(0), Four(d), Some(0))))
    ensures AppResp(6, 0, 4, 3, 1, AppendReply(4, true, 4), 4) in s'.msgs
  {
    s' := Extend(s, 0, 6, Round(0, 4, 0));
  }

  lemma FourthToTwo(s: State, d: Payload) returns (s': State)
    requires Stands(s, Written4(d)) && Round(0, 4, 0) in s.rounds
    ensures Reaches(s, s') && Aside(s', d) && s'.nodes[5] == Written4(d).c
    ensures s'.nodes[0] == SetNext(Written4(d).first, 4, 2)
    ensures AppResp(6, 0, 4, 3, 1, AppendReply(4, true, 4), 4) in s'.msgs
    ensures AppResp(4, 0, 4, 1, 3, AppendReply(4, true, 4), 4) in s'.msgs
  {
    var s1 := FourthToOne(s, d);
    s' := Bring(s1, 0, 4, Round(0, 4, 0));
    Then(s, s1, s');
  }

  lemma FourthSpread(s: State, d: Payload) returns (s': State)
    requires Stands(s, Written4(d)) && Round(0, 4, 0) in s.rounds
    ensures Reaches(s, s') && Aside(s', d)
    ensures s'.nodes[0] == Fourth(d)
    ensures AppResp(6, 0, 4, 3, 1, AppendReply(4, true, 4), 4) in s'.msgs
    ensures AppResp(4, 0, 4, 1, 3, AppendReply(4, true, 4), 4) in s'.msgs
    ensures AppResp(5, 0, 4, 1, 3, AppendReply(4, true, 4), 4) in s'.msgs
  {
    var s1 := FourthToTwo(s, d);
    s' := Bring(s1, 0, 5, Round(0, 4, 0));
    Then(s, s1, s');
  }

  /** Node 0, ready to send what it has committed. */
  predicate Snapshotter(n: Node, d: Payload) {
    && n.id == 0 && n.role.Leader? && n.term == 4 && n.log == Four(d) && n.peers == Others(0)
    && n.commit == n.applied == n.horizon == 4 && NextOf(n, 2) == 4
  }

  lemma FourthIsReady(d: Payload)
    ensures var n := Fourth(d);
            && HeldBy(n, {}) && n.id == 0 && n.peers == Others(0) && n.log == Four(d) && n.term == 4
            && n.commit == n.applied == 0 && NextOf(n, 2) == 4
  {
  }

  lemma FourthCommit(s: State, d: Payload) returns (s': State)
    requires Aside(s, d) && s.nodes[0] == Fourth(d)
    requires AppResp(6, 0, 4, 3, 1, AppendReply(4, true, 4), 4) in s.msgs
    requires AppResp(4, 0, 4, 1, 3, AppendReply(4, true, 4), 4) in s.msgs
    requires AppResp(5, 0, 4, 1, 3, AppendReply(4, true, 4), 4) in s.msgs
    ensures Reaches(s, s') && Aside(s', d) && Snapshotter(s'.nodes[0], d)
  {
    FourthIsReady(d);
    assert |{0, 6, 4, 5}| == 4;
    var s1, n := BookThree(s, 0, AppResp(6, 0, 4, 3, 1, AppendReply(4, true, 4), 4),
                           AppResp(4, 0, 4, 1, 3, AppendReply(4, true, 4), 4),
                           AppResp(5, 0, 4, 1, 3, AppendReply(4, true, 4), 4));
    var s2 := ApplyAll(s1, 0);
    s' := Compact(s2, 0);
    Then(s, s1, s2);
    Then(s, s2, s');
  }

  /** All of the run that passes the three checks. */
  lemma UpToTheSnapshot(d: Payload) returns (s0: State, s: State)
    ensures Init(s0) && Path(s0, s) && UnderWay(s) && VoteReq(3, 3, 2, 2) in s.msgs
    ensures Aside(s, d) && Snapshotter(s.nodes[0], d)
  {
    var s3;
    s0, s3 := UpToTermTwo(d);
    var s4 := TwoCandidates(s3, d);
    var s5 := TwoVotes(s4, d);
    Then(s0, s3, s4);
    Then(s0, s4, s5);
    var s6 := FourthTerm(s5, d);
    s := CommitInFour(s6, d);
    Then(s0, s5, s6);
    Then(s0, s6, s);
  }

  lemma UpToTermTwo(d: Payload) returns (s0: State, s: State)
    ensures Init(s0) && Reaches(s0, s) && UnderWay(s) && Stands(s, Spread2(d)) && s.campaigns.Keys == {0, 1}
  {
    s0 := Opens();
    var s1 := FirstTerm(s0, d);
    var s2 := FirstSpread(s1, d);
    var s3 := SecondTerm(s2, d);
    s := SecondSpread(s3, d);
    Then(s0, s1, s2);
    Then(s0, s2, s3);
    Then(s0, s3, s);
  }

  lemma CommitInFour(s: State, d: Payload) returns (s': State)
    requires Stands(s, Elected4(d))
    ensures Reaches(s, s') && Aside(s', d) && Snapshotter(s'.nodes[0], d)
  {
    var s1 := WriteFourth(s, d);
    var s2 := FourthSpread(s1, d);
    s' := FourthCommit(s2, d);
    Then(s, s1, s2);
    Then(s, s2, s');
  }

  // --- The snapshot under a label of term 1 ---

  lemma SendLate(s: State, d: Payload) returns (s': State)
    requires Aside(s, d) && Snapshotter(s.nodes[0], d) && Round(0, 1, 0) in s.rounds
    ensures SendSnapshot(s, s', 0, 2, Round(0, 1, 0)) && More(s, s') && s'.nodes == s.nodes
    ensures SnapReq(0, 2, 1, Four(d), 4) in s'.msgs
  {
    var n := s.nodes[0];
    assert n.log[..n.horizon] == Four(d);
    s' := s.(msgs := s.msgs + {SnapReq(0, 2, 1, Four(d), 4)});
  }

  /** Node 2, which takes it for news of its own term, and still stores the entry of that term. */
  function Restored(d: Payload): Node {
    Node(2, Others(2), 1, None, Four(d), 4, 4, [1], 4, 0, Follower(Some(0), 0, 0))
  }

  lemma RestoredIs(d: Payload)
    ensures AfterRestore(Elected4(d).third, Four(d)) == Restored(d)
  {
    assert StoredUpTo(Elected4(d).third, 4) == [1];
  }

  lemma ThirdRestores(s: State, d: Payload) returns (s': State)
    requires Aside(s, d) && SnapReq(0, 2, 1, Four(d), 4) in s.msgs
    ensures Reaches(s, s') && s'.nodes == s.nodes[2 := Restored(d)]
  {
    RestoredIs(d);
    s' := RestoreState(s, SnapReq(0, 2, 1, Four(d), 4), s.nodes[2]);
    assert Path(s, s');
  }

  function Confirming(d: Payload): Node {
    Restored(d).(term := 2, role := Follower(Some(1), 0, 0))
  }

  /** Below its horizon it stores nothing that could conflict, and it reports success. */
  lemma ConfirmsBlindly(d: Payload)
    ensures HandleAppendEntries(Restored(d), 1, 2, 1, 1, Three(d)[1..], 0, 0)
            == (Confirming(d), AppendReply(2, true, 4))
    ensures CutsAbove(Restored(d), Three(d)[1..])
  {
    var es := Three(d)[1..];
    RaftAppend.MissingIsTail(es, 1, 5);
    var n := ResetHeartbeat(ValidateLeaderRpc(Restored(d), 2, 1, 0).0);
    var c := RaftAppend.CutAtFirstConflict(n, es, 1);
    assert Four(d) + [] == Four(d);
  }

  lemma ThirdConfirms(s: State, d: Payload) returns (s': State)
    requires s.nodes.Keys == SEVEN && s.nodes[1] == Elected4(d).second && s.nodes[2] == Restored(d)
    requires Round(1, 2, 0) in s.rounds
    ensures Reaches(s, s') && s'.nodes == s.nodes[2 := Confirming(d)]
    ensures AppResp(2, 1, 2, 1, 2, AppendReply(2, true, 4), 2) in s'.msgs
  {
    ConfirmsBlindly(d);
    s' := Hand(s, 1, 2, Round(1, 2, 0), Confirming(d), AppendReply(2, true, 4));
  }

  /** So node 1 commits and applies three entries of which only two more nodes have a copy. */
  lemma SecondCommits(s: State, d: Payload) returns (s': State, n': Node)
    requires s.nodes.Keys == SEVEN && s.nodes[1] == Elected4(d).second && UnderWay(s)
    requires AppResp(2, 1, 2, 1, 2, AppendReply(2, true, 4), 2) in s.msgs
    ensures Reaches(s, s') && s'.nodes == s.nodes[1 := n']
    ensures n'.role.Leader? && n' == Elected4(d).second.(role := n'.role, commit := 3, applied := 3)
  {
    assert |{1, 0, 6, 2}| == 4;
    var s1, n := BookThree(s, 1, AppResp(0, 1, 2, 1, 2, AppendReply(2, true, 3), 2),
                           AppResp(6, 1, 2, 1, 2, AppendReply(2, true, 3), 2),
                           AppResp(2, 1, 2, 1, 2, AppendReply(2, true, 4), 2));
    s' := ApplyAll(s1, 1);
    n' := s'.nodes[1];
    Then(s, s1, s');
  }

  // --- The late leader ---

  function Lost(d: Payload): seq<Entry> {
    [Entry(1, 1, d), Entry(2, 2, d), Entry(3, 3, d)]
  }

  /** The last term node 2 reports is that of its oldest entry; so it votes for a log without the third. */
  lemma LateElection(s: State, d: Payload) returns (s': State)
    requires s.nodes.Keys == SEVEN && s.nodes[2] == Confirming(d) && s.nodes[3] == Elected4(d).late
    requires VoteReq(3, 3, 2, 2) in s.msgs
    ensures Reaches(s, s') && s'.nodes == s.nodes[2 := Voted(Confirming(d), 3, 3)][3 := Leading(3, 1, 3, Two(d), 3)]
  {
    SixOthers(3);
    assert {3, 4, 5} + {2} == {2, 3, 4, 5} && |{2, 3, 4, 5}| == 4;
    s' := CollectLastVote(s, 3, 2);
    AskedLeads(3, 1, 3, Two(d), {3, 4, 5});
  }

  lemma LateWrite(s: State, d: Payload) returns (s': State)
    requires s.nodes.Keys == SEVEN && s.nodes[3] == Leading(3, 1, 3, Two(d), 3)
    ensures Reaches(s, s') && s'.nodes == s.nodes[3 := Leading(3, 1, 3, Two(d), 3).(log := Lost(d))]
    ensures Round(3, 3, 0) in s'.rounds
  {
    var s1 := AddEntry(s, 3, d);
    assert Two(d) + [Entry(3, 3, d)] == Lost(d);
    s' := BeginRound(s1, 3);
    Then(s, s1, s');
  }

  function Overwritten(n: Node, d: Payload): Node {
    n.(term := 3, vote := None, log := Lost(d), role := Follower(Some(3), n.tick, 0))
  }

  lemma OverwritesThird(n: Node, d: Payload)
    requires n.role.Leader? && n.term == 2 && n.log == Three(d) && n.horizon == 0 && n.below == [] && n.commit == 3
    ensures HandleAppendEntries(n, 3, 3, 2, 2, [Entry(3, 3, d)], 0, 0) == (Overwritten(n, d), AppendReply(3, true, 3))
    ensures CutsAbove(n, [Entry(3, 3, d)])
  {
    var es := [Entry(3, 3, d)];
    var n2 := ResetHeartbeat(ValidateLeaderRpc(n, 3, 3, 0).0);
    assert Conflicts(n2, es[0]);
    assert CutConflict(n2, es) == n2.(log := Two(d));
    RaftAppend.MissingIsTail(es, 2, 3);
    assert Two(d) + es == Lost(d);
  }

  lemma LateRequest(s: State, d: Payload) returns (s': State)
    requires s.nodes.Keys == SEVEN && s.nodes[3] == Leading(3, 1, 3, Two(d), 3).(log := Lost(d))
    requires Round(3, 3, 0) in s.rounds && s.nodes[1].role.Leader?
    requires s.nodes[1] == Elected4(d).second.(role := s.nodes[1].role, commit := 3, applied := 3)
    ensures Reaches(s, s') && s'.nodes == s.nodes[1 := Overwritten(s.nodes[1], d)]
  {
    OverwritesThird(s.nodes[1], d);
    assert Lost(d)[2..] == [Entry(3, 3, d)];
    s' := Hand(s, 3, 1, Round(3, 3, 0), Overwritten(s.nodes[1], d), AppendReply(3, true, 3));
  }

  /** All of the run that follows the snapshot; it passes the three checks again. */
  lemma AfterTheSnapshot(s: State, d: Payload) returns (s': State)
    requires Aside(s, d) && Snapshotter(s.nodes[0], d) && UnderWay(s) && VoteReq(3, 3, 2, 2) in s.msgs
    requires SnapReq(0, 2, 1, Four(d), 4) in s.msgs
    ensures Path(s, s') && s'.nodes.Keys == SEVEN && s'.nodes[0] == s.nodes[0]
    ensures s'.nodes[1].commit == s'.nodes[1].applied == 3 && s'.nodes[1].log == Lost(d)
  {
    var s1 := ThirdRestores(s, d);
    var s2 := ThirdConfirms(s1, d);
    var s3, n := SecondCommits(s2, d);
    Then(s, s1, s2);
    Then(s, s2, s3);
    var s4 := LateElection(s3, d);
    var s5 := LateWrite(s4, d);
    s' := LateRequest(s5, d);
    Then(s, s3, s4);
    Then(s, s4, s5);
    Then(s, s5, s');
  }

  // --- The run as a whole ---

  /** Every step passes the three checks, but for the one that sends the snapshot. */
  ghost predicate CarefulBut(run: seq<State>, k: nat) {
    && k + 1 < |run| && Init(run[0]) && SendSnapshot(run[k], run[k + 1], 0, 2, Round(0, 1, 0))
    && forall i: nat :: i != k ==> CarefulAt(run, i)
  }

  lemma Around(s0: State, s: State, s1: State, s': State) returns (run: seq<State>, k: nat)
    requires Init(s0) && Path(s0, s) && SendSnapshot(s, s1, 0, 2, Round(0, 1, 0)) && Path(s1, s')
    ensures CarefulBut(run, k) && run[|run| - 1] == s'
  {
    var p :| IsPath(p, s0, s);
    var q :| IsPath(q, s1, s');
    run, k := p + q, |p| - 1;
    forall i: nat | i != k ensures CarefulAt(run, i) {
      assert CarefulAt(p, i);
      if i > k {
        assert CarefulAt(q, i - |p|);
        if i + 1 < |run| { assert run[i] == q[i - |p|] && run[i + 1] == q[i - |p| + 1]; }
      } else if i < k {
        assert run[i] == p[i] && run[i + 1] == p[i + 1];
      }
    }
  }

  lemma CarefulButIsBehaviour(run: seq<State>, k: nat)
    requires CarefulBut(run, k)
    ensures Behaviour(run)
  {
    forall i: nat ensures StepAt(run, i) {
      if i != k {
        assert CarefulAt(run, i);
        if i + 1 < |run| { RaftEvents.CarefulIsNext(run[i], run[i + 1]); }
      } else {
        assert NextSend(run[i], run[i + 1]);
      }
    }
  }

  lemma CommittedThirdIsShared(s: State)
    requires 0 in s.nodes && 1 in s.nodes && s.nodes[0].commit >= 3 && s.nodes[1].commit >= 3
    requires |s.nodes[0].log| >= 3 && |s.nodes[1].log| >= 3
    ensures forall c :: RaftSafety.IsCommittedLog(s, c) ==> s.nodes[0].log[2] == s.nodes[1].log[2]
  {
    forall c | RaftSafety.IsCommittedLog(s, c) ensures s.nodes[0].log[2] == s.nodes[1].log[2] {
      assert RaftSafety.CommittedPrefix(s.nodes[0], c) && RaftSafety.CommittedPrefix(s.nodes[1], c);
    }
  }

  /**
   Without the check on the snapshot's term state machine safety is lost: two nodes have applied
   different entries at the same index.
   */
  lemma StaleSnapshotBreaksSafety(d: Payload) returns (run: seq<State>, k: nat)
    ensures CarefulBut(run, k) && Behaviour(run)
    ensures var s := run[|run| - 1];
            && 0 in s.nodes && 1 in s.nodes && s.nodes[0].applied == s.nodes[0].commit == |s.nodes[0].log| == 4
            && s.nodes[1].applied == s.nodes[1].commit == |s.nodes[1].log| == 3
            && s.nodes[0].log[2] != s.nodes[1].log[2] && forall c :: !RaftSafety.IsCommittedLog(s, c)
  {
    var s0, s := UpToTheSnapshot(d);
    var s1 := SendLate(s, d);
    var s' := AfterTheSnapshot(s1, d);
    run, k := Around(s0, s, s1, s');
    CarefulButIsBehaviour(run, k);
    CommittedThirdIsShared(s');
  }
}
