/**
 Runs of a cluster of five, step by step from its first state: what the code can come to without
 the three checks of a careful step, and where a restored log or a stale reply shows.
 */
module RaftRuns {
  import opened Common
  import opened FsmTypes
  import opened Raft
  import opened Cluster
  import RaftEvents
  import RaftSafety

  // --- Paths of careful steps ---

  ghost predicate IsPath(p: seq<State>, s: State, s': State) {
    |p| > 0 && p[0] == s && p[|p| - 1] == s' && forall i: nat :: CarefulAt(p, i)
  }

  ghost predicate Path(s: State, s': State) {
    exists p :: IsPath(p, s, s')
  }

  lemma Step(s: State, s': State)
    requires CarefulNext(s, s')
    ensures Path(s, s')
  {
    assert IsPath([s, s'], s, s') by {
      forall i: nat ensures CarefulAt([s, s'], i) {
      }
    }
  }

  lemma Join(a: State, b: State, c: State)
    requires Path(a, b) && Path(b, c)
    ensures Path(a, c)
  {
    var p :| IsPath(p, a, b);
    var q :| IsPath(q, b, c);
    var r := p + q[1..];
    forall i: nat ensures CarefulAt(r, i) {
      assert CarefulAt(p, i);
      if i + 1 < |r| {
        if i + 1 < |p| {
          assert r[i] == p[i] && r[i + 1] == p[i + 1];
        } else {
          assert CarefulAt(q, i + 1 - |p|);
          assert r[i] == q[i + 1 - |p|] && r[i + 1] == q[i + 2 - |p|];
        }
      }
    }
    assert IsPath(r, a, c);
  }

  /** The state is the last of some run of the cluster. */
  ghost predicate Arises(s: State) {
    exists run :: Behaviour(run) && run[|run| - 1] == s
  }

  ghost predicate ArisesCarefully(s: State) {
    exists run :: Careful(run) && run[|run| - 1] == s
  }

  lemma CarefulPathArises(s: State, s': State)
    requires Init(s) && Path(s, s')
    ensures ArisesCarefully(s')
  {
    var p :| IsPath(p, s, s');
    assert Careful(p);
  }

  lemma RunExtends(run: seq<State>, s': State)
    requires Behaviour(run) && Next(run[|run| - 1], s')
    ensures Behaviour(run + [s'])
  {
    var r := run + [s'];
    forall i: nat ensures StepAt(r, i) {
      assert StepAt(run, i);
      if i + 1 < |run| { assert r[i] == run[i] && r[i + 1] == run[i + 1]; }
    }
  }

  lemma OneMore(s: State, s': State)
    requires Arises(s) && Next(s, s')
    ensures Arises(s')
  {
    var run :| Behaviour(run) && run[|run| - 1] == s;
    RunExtends(run, s');
    assert (run + [s'])[|run + [s']| - 1] == s';
  }

  lemma {:induction false} PathArises(s: State, p: seq<State>, s': State)
    requires Arises(s) && IsPath(p, s, s')
    ensures Arises(s')
    decreases |p|
  {
    if |p| > 1 {
      assert CarefulAt(p, 0);
      RaftEvents.CarefulIsNext(p[0], p[1]);
      OneMore(s, p[1]);
      assert IsPath(p[1..], p[1], s') by {
        forall i: nat ensures CarefulAt(p[1..], i) {
          assert CarefulAt(p, i + 1);
        }
      }
      PathArises(p[1], p[1..], s');
    }
  }

  lemma ArisesAlong(s: State, s': State)
    requires Arises(s) && Path(s, s')
    ensures Arises(s')
  {
    var p :| IsPath(p, s, s');
    PathArises(s, p, s');
  }

  lemma CarefullyArises(s: State)
    requires ArisesCarefully(s)
    ensures Arises(s)
  {
    var run :| Careful(run) && run[|run| - 1] == s;
    RaftSafety.CarefulIsBehaviour(run);
  }

  // --- The first state ---

  predicate Five(all: set<NodeId>) {
    |all| == 5 && 0 in all && 1 in all && 2 in all && 3 in all && 4 in all
  }

  function Fresh(all: set<NodeId>, i: NodeId): Node {
    Node(i, all - {i}, 0, None, [], 0, 0, [], 0, 0, Follower(None, 0, 0))
  }

  ghost predicate AllFresh(s: State, all: set<NodeId>) {
    s.nodes.Keys == all && forall i :: i in all ==> s.nodes[i] == Fresh(all, i)
  }

  lemma Begin(all: set<NodeId>) returns (s: State)
    ensures Init(s) && Path(s, s) && s.campaigns == map[]
    ensures AllFresh(s, all)
  {
    s := State(map i | i in all :: Fresh(all, i), {}, {}, {}, map[], {}, {}, {}, NO_HISTORY);
    assert IsPath([s], s, s);
  }

  /** Nothing sent or started is lost. */
  ghost predicate More(s: State, s': State) {
    s.msgs <= s'.msgs && s.rounds <= s'.rounds
  }

  /** What a step or a path leaves: the nodes, and more of everything else. */
  ghost predicate Reaches(s: State, s': State) {
    Path(s, s') && More(s, s')
  }

  lemma Then(a: State, b: State, c: State)
    requires Reaches(a, b) && Reaches(b, c)
    ensures Reaches(a, c)
  {
    Join(a, b, c);
  }

  // --- Elections ---

  ghost predicate Present(s: State, i: NodeId) {
    i in s.nodes && s.nodes[i].id == i && !s.nodes[i].role.Poisoned?
  }

  ghost predicate Member(s: State, i: NodeId) {
    Present(s, i) && |s.nodes[i].peers| == 4
  }

  lemma AskPreVote(s: State, i: NodeId, c: nat) returns (s': State)
    requires Present(s, i) && s.nodes[i].role.Follower? && c !in s.campaigns
    requires EvaluateTick(s.nodes[i].(tick := s.nodes[i].tick + 1), 0) == StartPreVote
    ensures var n := s.nodes[i];
            && Reaches(s, s') && s'.nodes == s.nodes[i := IntoPreCandidate(n.(tick := n.tick + 1))]
            && PreReq(c, i, n.term, |n.log|, LastStoredTerm(n)) in s'.msgs
            && s'.campaigns == s.campaigns[c := PreCampaign(i, n.term, {}, true)]
  {
    var n := s.nodes[i];
    s' := s.(nodes := s.nodes[i := IntoPreCandidate(n.(tick := n.tick + 1))],
             campaigns := s.campaigns[c := PreCampaign(i, n.term, {}, true)],
             msgs := s.msgs + {PreReq(c, i, n.term, |n.log|, LastStoredTerm(n))});
    assert Tick(s, s', i, 0, 0, c);
    Step(s, s');
  }

  lemma GrantPreVote(s: State, v: NodeId, m: Msg) returns (s': State)
    requires Present(s, v) && m in s.msgs && m.PreReq? && m.candidate != v
    requires GrantsPreVote(s.nodes[v], m.term, m.lastIndex, m.lastTerm)
    ensures Reaches(s, s') && s'.nodes == s.nodes && s'.campaigns == s.campaigns
    ensures PreResp(m.campaign, v, s.nodes[v].term, true) in s'.msgs
  {
    s' := s.(msgs := s.msgs + {PreResp(m.campaign, v, s.nodes[v].term, true)});
    assert OnPreReq(s, s', v, m);
    Step(s, s');
  }

  /** A grant that does not yet make a majority. */
  lemma CountPreGrant(s: State, i: NodeId, c: nat, m: Msg, granted: set<NodeId>) returns (s': State)
    requires Present(s, i) && m in s.msgs && m.PreResp? && m.campaign == c && m.granted && m.respTerm <= s.nodes[i].term
    requires c in s.campaigns && s.campaigns[c] == PreCampaign(i, s.nodes[i].term, granted, true)
    requires |granted + {m.voter}| + 1 < Majority(s.nodes[i])
    ensures Reaches(s, s') && s'.nodes == s.nodes && s.campaigns.Keys == s'.campaigns.Keys
    ensures s'.campaigns[c] == PreCampaign(i, s.nodes[i].term, granted + {m.voter}, true)
  {
    s' := s.(campaigns := s.campaigns[c := PreCampaign(i, s.nodes[i].term, granted + {m.voter}, true)]);
    assert OnPreResp(s, s', m, 0);
    Step(s, s');
  }

  lemma LastPreGrant(s: State, i: NodeId, c: nat, m: Msg, granted: set<NodeId>) returns (s': State)
    requires Present(s, i) && m in s.msgs && m.PreResp? && m.campaign == c && m.granted && m.respTerm <= s.nodes[i].term
    requires c in s.campaigns && s.campaigns[c] == PreCampaign(i, s.nodes[i].term, granted, true)
    requires |granted + {m.voter}| + 1 >= Majority(s.nodes[i]) && CanCampaign(s.nodes[i])
    ensures Reaches(s, s') && s'.nodes == s.nodes[i := IntoCandidate(s.nodes[i], 0)]
    ensures Campaigning(IntoCandidate(s.nodes[i], 0)) in s'.msgs
    ensures s'.campaigns.Keys == s.campaigns.Keys
  {
    s' := WinPreVote(s, c, granted + {m.voter}, 0);
    assert OnPreResp(s, s', m, 0);
    Step(s, s');
  }

  /** What lets `v` grant a pre-vote and a vote to `i`. */
  predicate Backs(v: Node, i: Node) {
    v.role.Follower? && v.term <= i.term && UpToDate(v, |i.log|, LastStoredTerm(i))
  }

  /** Node `i`, backed by `a` and `b`, becomes a candidate. */
  lemma Campaigns(s: State, i: NodeId, a: NodeId, b: NodeId, c: nat) returns (s': State, n': Node)
    requires Member(s, i) && Member(s, a) && Member(s, b) && i != a && i != b && a != b && c !in s.campaigns
    requires s.nodes[i].role.Follower? && EvaluateTick(s.nodes[i].(tick := s.nodes[i].tick + 1), 0) == StartPreVote
    requires Backs(s.nodes[a], s.nodes[i]) && Backs(s.nodes[b], s.nodes[i])
    ensures n' == s.nodes[i].(tick := s.nodes[i].tick + 1, term := s.nodes[i].term + 1, vote := Some(i),
                              role := Candidate({i}, s.nodes[i].tick + 1, 0))
    ensures Reaches(s, s') && s'.nodes == s.nodes[i := n'] && Campaigning(n') in s'.msgs
    ensures s'.campaigns.Keys == s.campaigns.Keys + {c}
  {
    var n := s.nodes[i];
    var s1 := AskPreVote(s, i, c);
    assert s1.campaigns.Keys == s.campaigns.Keys + {c};
    var ask := PreReq(c, i, n.term, |n.log|, LastStoredTerm(n));
    var s2 := GrantPreVote(s1, a, ask);
    var s3 := GrantPreVote(s2, b, ask);
    assert {} + {a} == {a} && {a} + {b} == {a, b};
    var s4 := CountPreGrant(s3, i, c, PreResp(c, a, s.nodes[a].term, true), {});
    s' := LastPreGrant(s4, i, c, PreResp(c, b, s.nodes[b].term, true), {a});
    n' := s'.nodes[i];
    Then(s, s1, s2);
    Then(s, s2, s3);
    Then(s, s3, s4);
    Then(s, s4, s');
  }

  lemma GrantVote(s: State, v: NodeId, m: Msg) returns (s': State)
    requires Present(s, v) && m in s.msgs && m.VoteReq? && m.candidate != v && s.nodes[v].term < m.term
    requires UpToDate(s.nodes[v], m.lastIndex, m.lastTerm)
    ensures Reaches(s, s') && s'.campaigns == s.campaigns
    ensures s'.nodes == s.nodes[v := s.nodes[v].(term := m.term, vote := Some(m.candidate),
                                                 role := Follower(None, s.nodes[v].tick, 0))]
    ensures VoteResp(v, m.candidate, m.term, m.term, true) in s'.msgs
  {
    var n' := s.nodes[v].(term := m.term, vote := Some(m.candidate), role := Follower(None, s.nodes[v].tick, 0));
    s' := s.(nodes := s.nodes[v := n'], hist := CastVote(s.hist, v, m.term, m.candidate),
             msgs := s.msgs + {VoteResp(v, m.candidate, m.term, m.term, true)});
    assert OnVoteReq(s, s', v, m, 0);
    Step(s, s');
  }

  lemma CountVote(s: State, i: NodeId, m: Msg) returns (s': State)
    requires Present(s, i) && m in s.msgs && m.VoteResp? && m.candidate == i && m.granted
    requires m.reqTerm == m.respTerm == s.nodes[i].term
    requires s.nodes[i].role.Candidate? && |s.nodes[i].role.votes + {m.voter}| < Majority(s.nodes[i])
    ensures Reaches(s, s') && s'.campaigns == s.campaigns
    ensures s'.nodes == s.nodes[i := s.nodes[i].(role := s.nodes[i].role.(votes := s.nodes[i].role.votes + {m.voter}))]
  {
    s' := s.(nodes := s.nodes[i := s.nodes[i].(role := s.nodes[i].role.(votes := s.nodes[i].role.votes + {m.voter}))]);
    assert OnVoteResp(s, s', i, m, 0);
    Step(s, s');
  }

  lemma LastVote(s: State, i: NodeId, m: Msg) returns (s': State)
    requires Present(s, i) && m in s.msgs && m.VoteResp? && m.candidate == i && m.granted
    requires m.reqTerm == m.respTerm == s.nodes[i].term
    requires s.nodes[i].role.Candidate? && |s.nodes[i].role.votes + {m.voter}| >= Majority(s.nodes[i])
    ensures Reaches(s, s') && s'.campaigns == s.campaigns
    ensures s'.nodes == s.nodes[i := s.nodes[i].(role := FreshLeader(s.nodes[i]))]
  {
    var n' := s.nodes[i].(role := FreshLeader(s.nodes[i]));
    s' := s.(nodes := s.nodes[i := n'], hist := Enthrone(s.hist, n'));
    assert OnVoteResp(s, s', i, m, 0);
    Step(s, s');
  }

  function Elected(n: Node): Node {
    var n' := n.(tick := n.tick + 1, term := n.term + 1, vote := Some(n.id));
    n'.(role := FreshLeader(n'))
  }

  function Voted(v: Node, term: nat, i: NodeId): Node {
    v.(term := term, vote := Some(i), role := Follower(None, v.tick, 0))
  }

  /** Node `i`, backed by `a` and `b`, is elected. */
  lemma Elect(s: State, i: NodeId, a: NodeId, b: NodeId, c: nat) returns (s': State)
    requires Member(s, i) && Member(s, a) && Member(s, b) && i != a && i != b && a != b && c !in s.campaigns
    requires s.nodes[i].role.Follower? && EvaluateTick(s.nodes[i].(tick := s.nodes[i].tick + 1), 0) == StartPreVote
    requires Backs(s.nodes[a], s.nodes[i]) && Backs(s.nodes[b], s.nodes[i])
    ensures Reaches(s, s') && s'.campaigns.Keys == s.campaigns.Keys + {c}
    ensures var n := s.nodes[i];
            && s'.nodes == s.nodes[i := Elected(n)]
                                  [a := Voted(s.nodes[a], n.term + 1, i)][b := Voted(s.nodes[b], n.term + 1, i)]
            && VoteReq(i, n.term + 1, |n.log|, LastStoredTerm(n)) in s'.msgs
  {
    var n := s.nodes[i];
    var s1, n1 := Campaigns(s, i, a, b, c);
    var ask := Campaigning(n1);
    var s2 := GrantVote(s1, a, ask);
    var s3 := GrantVote(s2, b, ask);
    var s4 := CountVote(s3, i, VoteResp(a, i, n.term + 1, n.term + 1, true));
    assert {i} + {a} == {i, a} && {i, a} + {b} == {i, a, b};
    s' := LastVote(s4, i, VoteResp(b, i, n.term + 1, n.term + 1, true));
    Then(s, s1, s2);
    Then(s, s2, s3);
    Then(s, s3, s4);
    Then(s, s4, s');
  }

  // --- Replication ---

  lemma AddEntry(s: State, i: NodeId, d: Payload) returns (s': State)
    requires Present(s, i) && s.nodes[i].role.Leader?
    ensures Reaches(s, s') && s'.nodes == s.nodes[i := Propose(s.nodes[i], d)] && s'.campaigns == s.campaigns
  {
    var n' := Propose(s.nodes[i], d);
    s' := s.(nodes := s.nodes[i := n'], hist := NoteEntry(s.hist, n'));
    assert ClientPropose(s, s', i, d);
    Step(s, s');
  }

  lemma BeginRound(s: State, i: NodeId) returns (s': State)
    requires Present(s, i) && s.nodes[i].role.Leader?
    ensures Reaches(s, s') && s'.nodes == s.nodes && s'.campaigns == s.campaigns
    ensures Round(i, s.nodes[i].term, s.nodes[i].commit) in s'.rounds
  {
    s' := s.(rounds := s.rounds + {Round(i, s.nodes[i].term, s.nodes[i].commit)});
    assert StartRound(s, s', i);
    Step(s, s');
  }

  lemma SendEntries(s: State, i: NodeId, peer: NodeId, r: Round) returns (s': State)
    requires Present(s, i) && s.nodes[i].role.Leader? && r in s.rounds && r.node == i && peer in s.nodes[i].peers
    requires NextOf(s.nodes[i], peer) > s.nodes[i].horizon
    ensures Reaches(s, s') && s'.nodes == s.nodes && s'.campaigns == s.campaigns
    ensures BuildAppend(s.nodes[i], peer, r) in s'.msgs
  {
    s' := s.(msgs := s.msgs + {BuildAppend(s.nodes[i], peer, r)});
    assert SendAppend(s, s', i, peer, r);
    Step(s, s');
  }

  /** A careful node takes a request over, whatever that makes of it. */
  lemma TakeEntries(s: State, m: Msg, n': Node, reply: AppendReply) returns (s': State)
    requires m in s.msgs && m.AppReq? && Present(s, m.dst) && SafeToTake(s, m) && !n'.role.Poisoned?
    requires (n', reply)
             == HandleAppendEntries(s.nodes[m.dst], m.leader, m.term, m.prev, m.prevTerm, m.entries, m.leaderCommit, 0)
    ensures Reaches(s, s') && s'.nodes == s.nodes[m.dst := n'] && s'.campaigns == s.campaigns
    ensures AppResp(m.dst, m.leader, m.term, m.prev, |m.entries|, reply, m.origin) in s'.msgs
  {
    var hist := if reply.success && m.origin == m.term
                then NoteAcks(s.hist, m.dst, m.term, s.nodes[m.dst].commit, m.prev + |m.entries|) else s.hist;
    s' := s.(nodes := s.nodes[m.dst := n'], hist := hist,
             msgs := s.msgs + {AppResp(m.dst, m.leader, m.term, m.prev, |m.entries|, reply, m.origin)});
    assert OnAppReq(s, s', m, 0);
    Step(s, s');
  }

  /** The leader books a success; `k` is its quorum index afterwards. */
  lemma BookSuccess(s: State, i: NodeId, m: Msg, k: nat) returns (s': State)
    requires Present(s, i) && m in s.msgs && m.AppResp? && m.leader == i && m.reply.success && m.reply.term <= m.reqTerm
    requires s.nodes[i].role.Leader? && m.reqTerm == s.nodes[i].term && m.prev + m.len > MatchOf(s.nodes[i], m.follower)
    requires IsQuorumIndex(SetProgress(s.nodes[i], m.follower, m.prev + m.len), k)
    ensures Reaches(s, s') && s'.campaigns == s.campaigns
    ensures s'.nodes == s.nodes[i := CommitTo(SetProgress(s.nodes[i], m.follower, m.prev + m.len), k)]
  {
    var n' := CommitTo(SetProgress(s.nodes[i], m.follower, m.prev + m.len), k);
    s' := s.(nodes := s.nodes[i := n']);
    assert OnReply(s, s', i, n', m, 0);
    Step(s, s');
  }

  lemma ApplyNext(s: State, i: NodeId) returns (s': State)
    requires Present(s, i) && s.nodes[i].applied < s.nodes[i].commit
    ensures Reaches(s, s') && s'.nodes == s.nodes[i := s.nodes[i].(applied := s.nodes[i].applied + 1)]
    ensures s'.campaigns == s.campaigns
  {
    s' := s.(nodes := s.nodes[i := s.nodes[i].(applied := s.nodes[i].applied + 1)]);
    assert ApplyOne(s, s', i);
    Step(s, s');
  }

  lemma Compact(s: State, i: NodeId) returns (s': State)
    requires Present(s, i) && s.nodes[i].applied > s.nodes[i].horizon
    ensures Reaches(s, s') && s'.nodes == s.nodes[i := MarkHorizon(s.nodes[i], s.nodes[i].applied)]
    ensures s'.campaigns == s.campaigns
  {
    s' := s.(nodes := s.nodes[i := MarkHorizon(s.nodes[i], s.nodes[i].applied)]);
    assert StartCompaction(s, s', i, s.nodes[i].applied);
    Step(s, s');
  }

  function SnapshotOf(n: Node, peer: NodeId, r: Round): Msg
    requires n.horizon <= |n.log|
  {
    SnapReq(n.id, peer, r.term, n.log[..n.horizon], n.term)
  }

  lemma SendState(s: State, i: NodeId, peer: NodeId, r: Round) returns (s': State)
    requires Present(s, i) && s.nodes[i].role.Leader? && r in s.rounds && r.node == i && peer in s.nodes[i].peers
    requires NextOf(s.nodes[i], peer) <= s.nodes[i].horizon <= |s.nodes[i].log| && r.term == s.nodes[i].term
    ensures Reaches(s, s') && s'.nodes == s.nodes && s'.campaigns == s.campaigns
    ensures SnapshotOf(s.nodes[i], peer, r) in s'.msgs
  {
    s' := s.(msgs := s.msgs + {SnapshotOf(s.nodes[i], peer, r)});
    assert SendSnapshot(s, s', i, peer, r);
    Step(s, s');
  }

  /** The request is accepted and the restore runs to its end; `n1` is the node in between. */
  lemma RestoreState(s: State, m: Msg, n1: Node) returns (s': State)
    requires m in s.msgs && m.SnapReq? && Present(s, m.dst) && AcceptsSnapshot(s.nodes[m.dst], m.term, |m.prefix|)
    requires HandleInstallSnapshot(s.nodes[m.dst], m.leader, m.term, |m.prefix|, 0) == (n1, n1.term)
    requires !n1.role.Poisoned?
    requires n1.applied == s.nodes[m.dst].applied
    ensures Reaches(s, s') && s'.nodes == s.nodes[m.dst := AfterRestore(n1, m.prefix)] && s'.campaigns == s.campaigns
    ensures SnapResp(m.dst, m.leader, m.term, |m.prefix|, n1.term) in s'.msgs
  {
    var answered := n1.term;
    var s1 := s.(nodes := s.nodes[m.dst := n1], restores := s.restores + {Restore(m.dst, m.prefix)},
                 msgs := s.msgs + {SnapResp(m.dst, m.leader, m.term, |m.prefix|, answered)});
    assert OnSnapReq(s, s1, m, 0);
    Step(s, s1);
    s' := s1.(nodes := s1.nodes[m.dst := AfterRestore(n1, m.prefix)],
        restores := s1.restores - {Restore(m.dst, m.prefix)});
    assert FinishRestore(s1, s', Restore(m.dst, m.prefix));
    Step(s1, s');
    Join(s, s1, s');
  }

  // --- The quorum index of a leader of five ---

  lemma QuorumIndexIs(n: Node, k: nat, vs: set<NodeId>, ws: set<NodeId>)
    requires n.role.Leader? && |n.role.matchIndex| == 4
    requires vs <= Holders(n, k) && |vs| >= 3 && |ws| <= 2 && forall j :: j > k ==> Holders(n, j) <= ws
    ensures IsQuorumIndex(n, k)
  {
    SubsetSize(vs, Holders(n, k));
    forall j | j > k ensures |Holders(n, j)| < Quorum(5) {
      SubsetSize(Holders(n, j), ws);
    }
  }

  // --- A restored log of two histories ---

  /** Three entries of the leader of term 1, two of the leader of term 2. */
  function Old(d: Payload): seq<Entry> {
    [Entry(1, 1, d), Entry(2, 1, d), Entry(3, 1, d)]
  }

  function New(d: Payload): seq<Entry> {
    [Entry(1, 2, d), Entry(2, 2, d)]
  }

  function Progress(all: set<NodeId>, i: NodeId, k: nat): map<NodeId, nat> {
    map p | p in all - {i} :: k
  }

  ghost predicate Shows(s: State, n: Node) {
    n.id in s.nodes && s.nodes[n.id] == n
  }

  lemma OthersAreFour(all: set<NodeId>, i: NodeId)
    requires Five(all) && i in all
    ensures |all - {i}| == 4
  {
    UnionSize(all - {i}, {i});
    assert all - {i} + {i} == all;
  }

  lemma ShownMember(s: State, all: set<NodeId>, n: Node)
    requires Five(all) && Shows(s, n) && n.id in all && n.peers == all - {n.id} && !n.role.Poisoned?
    ensures Member(s, n.id)
  {
    OthersAreFour(all, n.id);
  }

  /** An election, for nodes given by name. */
  lemma ElectFrom(s: State, c: nat, n: Node, a: Node, b: Node) returns (s': State)
    requires Member(s, n.id) && Member(s, a.id) && Member(s, b.id) && n.id != a.id && n.id != b.id && a.id != b.id
    requires Shows(s, n) && Shows(s, a) && Shows(s, b) && c !in s.campaigns
    requires n.role.Follower? && EvaluateTick(n.(tick := n.tick + 1), 0) == StartPreVote && Backs(a, n) && Backs(b, n)
    ensures Reaches(s, s') && s'.campaigns.Keys == s.campaigns.Keys + {c}
    ensures s'.nodes
            == s.nodes[n.id := Elected(n)][a.id := Voted(a, n.term + 1, n.id)][b.id := Voted(b, n.term + 1, n.id)]
    ensures VoteReq(n.id, n.term + 1, |n.log|, LastStoredTerm(n)) in s'.msgs
  {
    s' := Elect(s, n.id, a.id, b.id, c);
  }

  lemma FreshBacks(all: set<NodeId>, i: NodeId, v: NodeId)
    ensures Backs(Fresh(all, v), Fresh(all, i))
    ensures EvaluateTick(Fresh(all, i).(tick := 1), 0) == StartPreVote
  {
  }

  lemma FreshMember(s: State, all: set<NodeId>, i: NodeId)
    requires Five(all) && AllFresh(s, all) && i in all
    ensures Member(s, i) && Shows(s, Fresh(all, i)) && s.nodes.Keys == all
  {
    OthersAreFour(all, i);
  }

  lemma FirstElection(s0: State, all: set<NodeId>) returns (s: State)
    requires Five(all) && Path(s0, s0) && AllFresh(s0, all) && s0.campaigns == map[]
    ensures Reaches(s0, s) && s.campaigns.Keys == {0} && VoteReq(0, 1, 0, 0) in s.msgs
    ensures s.nodes
            == s0.nodes[0 := Elected(Fresh(all, 0))][1 := Voted(Fresh(all, 1), 1, 0)][2 := Voted(Fresh(all, 2), 1, 0)]
  {
    FreshMember(s0, all, 0);
    FreshMember(s0, all, 1);
    FreshMember(s0, all, 2);
    FreshBacks(all, 0, 1);
    FreshBacks(all, 0, 2);
    s := ElectFrom(s0, 0, Fresh(all, 0), Fresh(all, 1), Fresh(all, 2));
  }

  /** Node 0 is elected in term 1 by nodes 1 and 2. */
  lemma TermOne(all: set<NodeId>) returns (s0: State, s: State)
    requires Five(all)
    ensures Init(s0) && Reaches(s0, s) && s.nodes.Keys == all && s.campaigns.Keys == {0}
    ensures VoteReq(0, 1, 0, 0) in s.msgs
    ensures Shows(s, Elected(Fresh(all, 0))) && Shows(s, Fresh(all, 3)) && Shows(s, Fresh(all, 4))
    ensures Shows(s, Voted(Fresh(all, 1), 1, 0)) && Shows(s, Voted(Fresh(all, 2), 1, 0))
  {
    s0 := Begin(all);
    FreshMember(s0, all, 3);
    FreshMember(s0, all, 4);
    s := FirstElection(s0, all);
  }

  lemma ThreeEntries(s: State, n: Node, d: Payload) returns (s': State)
    requires Member(s, n.id) && Shows(s, n) && n.role.Leader? && n.log == [] && n.term == 1
    ensures Reaches(s, s') && s'.campaigns == s.campaigns && s'.nodes == s.nodes[n.id := n.(log := Old(d))]
  {
    var s1 := AddEntry(s, n.id, d);
    assert [] + [Entry(1, 1, d)] == [Entry(1, 1, d)];
    var s2 := AddEntry(s1, n.id, d);
    assert s2.nodes[n.id].log == [Entry(1, 1, d), Entry(2, 1, d)];
    s' := AddEntry(s2, n.id, d);
    assert s'.nodes[n.id].log == Old(d);
    Then(s, s1, s2);
    Then(s, s2, s');
  }

  /** And writes three entries. */
  lemma FirstLeader(all: set<NodeId>, d: Payload) returns (s0: State, s: State)
    requires Five(all)
    ensures Init(s0) && Reaches(s0, s) && s.nodes.Keys == all && s.campaigns.Keys == {0}
    ensures Shows(s, Elected(Fresh(all, 0)).(log := Old(d))) && Shows(s, Fresh(all, 3)) && Shows(s, Fresh(all, 4))
    ensures Shows(s, Voted(Fresh(all, 1), 1, 0)) && Shows(s, Voted(Fresh(all, 2), 1, 0))
  {
    var s1;
    s0, s1 := TermOne(all);
    ShownMember(s1, all, Elected(Fresh(all, 0)));
    s := ThreeEntries(s1, Elected(Fresh(all, 0)), d);
    Then(s0, s1, s);
  }

  /** A request with entries for a peer, from a fresh round. */
  lemma Replicate(s: State, peer: NodeId, n: Node) returns (s': State, m: Msg)
    requires Member(s, n.id) && Shows(s, n) && n.role.Leader? && peer in n.peers && NextOf(n, peer) > n.horizon
    ensures Reaches(s, s') && s'.nodes == s.nodes && s'.campaigns == s.campaigns
    ensures m == BuildAppend(n, peer, Round(n.id, n.term, n.commit)) && m in s'.msgs
  {
    var r := Round(n.id, n.term, n.commit);
    var s1 := BeginRound(s, n.id);
    s' := SendEntries(s1, n.id, peer, r);
    m := BuildAppend(n, peer, r);
    Then(s, s1, s');
  }

  /** Whoever holds nothing takes all the entries it is offered. */
  function Copied(v: Node, leader: NodeId, term: nat, log: seq<Entry>): Node
    requires v.role.Follower?
  {
    v.(term := term, vote := if term > v.term then None else v.vote, log := log,
       role := Follower(Some(leader), v.tick, if term > v.term then 0 else v.role.timeout))
  }

  lemma EmptyTakesAll(v: Node, leader: NodeId, term: nat, entries: seq<Entry>)
    requires v.role.Follower? && v.log == [] && v.commit == 0 && v.horizon == 0 && v.below == [] && v.term <= term
    requires forall j :: 0 <= j < |entries| ==> entries[j].index == j + 1 && entries[j].term >= 1
    ensures var n' := Copied(v, leader, term, entries);
            HandleAppendEntries(v, leader, term, 0, 0, entries, 0, 0) == (n', AppendReply(term, true, |entries|))
    ensures forall j :: 0 <= j < |entries| ==> !Conflicts(v, entries[j])
  {
    var n2 := ResetHeartbeat(ValidateLeaderRpc(v, term, leader, 0).0);
    NothingConflicts(n2, entries);
    MissingIsAll(entries, 1);
    assert [] + entries == entries;
  }

  lemma NothingConflicts(n: Node, entries: seq<Entry>)
    requires n.log == [] && n.horizon == 0
    ensures CutConflict(n, entries) == n
  {
    if entries != [] { NothingConflicts(n, entries[1..]); }
  }

  lemma {:induction false} MissingIsAll(entries: seq<Entry>, next: nat)
    requires forall j :: 0 <= j < |entries| ==> entries[j].index == next + j
    ensures Missing(entries, next) == Some(entries)
  {
    if entries != [] {
      MissingIsAll(entries[1..], next + 1);
      assert [entries[0]] + entries[1..] == entries;
    }
  }

  /** A follower with an empty log takes the whole log of a leader that has committed nothing. */
  lemma CopyTo(s: State, m: Msg, v: Node) returns (s': State)
    requires m in s.msgs && m.AppReq? && Member(s, m.dst) && s.nodes[m.dst] == v && m.prev == 0 && m.prevTerm == 0
    requires m.leaderCommit == 0 && v.role.Follower? && v.log == [] && v.commit == 0 && v.horizon == 0 && v.below == []
    requires v.term <= m.term
    requires forall j :: 0 <= j < |m.entries| ==> m.entries[j].index == j + 1 && m.entries[j].term >= 1
    ensures Reaches(s, s') && s'.nodes == s.nodes[m.dst := Copied(v, m.leader, m.term, m.entries)]
    ensures s'.campaigns == s.campaigns
    ensures AppResp(m.dst, m.leader, m.term, 0, |m.entries|, AppendReply(m.term, true, |m.entries|),
            m.origin) in s'.msgs
  {
    EmptyTakesAll(v, m.leader, m.term, m.entries);
    s' := TakeEntries(s, m, Copied(v, m.leader, m.term, m.entries), AppendReply(m.term, true, |m.entries|));
  }

  predicate Numbered(log: seq<Entry>) {
    forall j :: 0 <= j < |log| ==> log[j].index == j + 1 && log[j].term >= 1
  }

  predicate Untouched(v: Node) {
    v.role.Follower? && v.log == [] && v.commit == 0 && v.horizon == 0 && v.below == []
  }

  predicate Beginner(n: Node, peer: NodeId) {
    n.role.Leader? && peer in n.peers && NextOf(n, peer) == 1 && n.horizon == 0 && n.commit == 0 && Numbered(n.log)
  }

  /** The first request of a leader that has written a log, to a peer it knows nothing about. */
  lemma FirstRequest(n: Node, peer: NodeId)
    requires Beginner(n, peer)
    ensures BuildAppend(n, peer, Round(n.id, n.term, 0)) == AppReq(n.id, peer, n.term, 0, 0, n.log, 0, n.term)
  {
    assert n.log[0..] == n.log;
  }

  /** A leader copies its log to a peer that holds nothing. */
  lemma CopyLog(s: State, n: Node, v: Node) returns (s': State)
    requires Member(s, n.id) && Member(s, v.id) && Shows(s, n) && Shows(s, v) && Beginner(n, v.id) && Untouched(v)
    requires v.term <= n.term
    ensures Reaches(s, s') && s'.nodes == s.nodes[v.id := Copied(v, n.id, n.term, n.log)] && s'.campaigns == s.campaigns
    ensures AppResp(v.id, n.id, n.term, 0, |n.log|, AppendReply(n.term, true, |n.log|), n.term) in s'.msgs
  {
    var s1, m := Replicate(s, v.id, n);
    FirstRequest(n, v.id);
    s' := CopyTo(s1, m, v);
    Then(s, s1, s');
  }

  lemma FirstLeaderBegins(all: set<NodeId>, d: Payload)
    requires Five(all)
    ensures Beginner(Elected(Fresh(all, 0)).(log := Old(d)), 3)
  {
  }

  /** Node 3 takes the three entries over, but they stay without a majority. */
  lemma MinorityHolds(all: set<NodeId>, d: Payload) returns (s0: State, s: State)
    requires Five(all)
    ensures Init(s0) && Reaches(s0, s) && s.nodes.Keys == all && s.campaigns.Keys == {0}
    ensures Shows(s, Elected(Fresh(all, 0)).(log := Old(d))) && Shows(s, Copied(Fresh(all, 3), 0, 1, Old(d)))
    ensures Shows(s, Voted(Fresh(all, 1), 1, 0)) && Shows(s, Voted(Fresh(all, 2), 1, 0)) && Shows(s, Fresh(all, 4))
  {
    var s1;
    s0, s1 := FirstLeader(all, d);
    var n := Elected(Fresh(all, 0)).(log := Old(d));
    ShownMember(s1, all, n);
    ShownMember(s1, all, Fresh(all, 3));
    FirstLeaderBegins(all, d);
    s := CopyLog(s1, n, Fresh(all, 3));
    Then(s0, s1, s);
  }

  // --- The second leader ---

  function SecondVoter(all: set<NodeId>): Node {
    Voted(Fresh(all, 2), 1, 0)
  }

  function SecondLeader(all: set<NodeId>): Node {
    Elected(Voted(Fresh(all, 1), 1, 0))
  }

  lemma SecondBacks(all: set<NodeId>)
    ensures Backs(SecondVoter(all), Voted(Fresh(all, 1), 1, 0)) && Backs(Fresh(all, 4), Voted(Fresh(all, 1), 1, 0))
    ensures EvaluateTick(Voted(Fresh(all, 1), 1, 0).(tick := 1), 0) == StartPreVote
  {
  }

  /** What the five nodes hold when node 1 leads term 2. */
  ghost predicate TermTwo(s: State, all: set<NodeId>, d: Payload) {
    && s.nodes.Keys == all && s.campaigns.Keys == {0, 1}
    && Shows(s, Elected(Fresh(all, 0)).(log := Old(d))) && Shows(s, SecondLeader(all))
    && Shows(s, Voted(SecondVoter(all), 2, 1)) && Shows(s, Copied(Fresh(all, 3), 0, 1, Old(d)))
    && Shows(s, Voted(Fresh(all, 4), 2, 1))
  }

  lemma SecondElection(all: set<NodeId>, d: Payload) returns (s0: State, s: State)
    requires Five(all)
    ensures Init(s0) && Reaches(s0, s) && TermTwo(s, all, d)
  {
    var s1;
    s0, s1 := MinorityHolds(all, d);
    var n := Voted(Fresh(all, 1), 1, 0);
    ShownMember(s1, all, n);
    ShownMember(s1, all, SecondVoter(all));
    ShownMember(s1, all, Fresh(all, 4));
    SecondBacks(all);
    s := ElectFrom(s1, 1, n, SecondVoter(all), Fresh(all, 4));
    Then(s0, s1, s);
  }

  lemma TwoEntries(s: State, n: Node, d: Payload) returns (s': State)
    requires Member(s, n.id) && Shows(s, n) && n.role.Leader? && n.log == [] && n.term == 2
    ensures Reaches(s, s') && s'.campaigns == s.campaigns && s'.nodes == s.nodes[n.id := n.(log := New(d))]
  {
    var s1 := AddEntry(s, n.id, d);
    assert [] + [Entry(1, 2, d)] == [Entry(1, 2, d)];
    s' := AddEntry(s1, n.id, d);
    assert s'.nodes[n.id].log == New(d);
    Then(s, s1, s');
  }

  /** The leader's maps after replies from the given peers. */
  lemma NobodyElse(n: Node, all: set<NodeId>, a: NodeId)
    requires Five(all) && n.role.Leader? && n.id in all && a in all && a != n.id
    requires n.role.matchIndex == Progress(all, n.id, 0)[a := |n.log|]
    ensures IsQuorumIndex(n, 0)
  {
    OthersAreFour(all, n.id);
    assert |n.role.matchIndex| == |n.role.matchIndex.Keys| && n.role.matchIndex.Keys == all - {n.id};
    var ws := {a, n.id};
    assert |ws| <= 2;
    assert Holders(n, 0) == all - {n.id} + {n.id};
    UnionSize(all - {n.id}, {n.id});
    forall j | j > 0 ensures Holders(n, j) <= ws {
    }
    QuorumIndexIs(n, 0, Holders(n, 0), ws);
  }

  lemma MajorityHolds(n: Node, all: set<NodeId>, a: NodeId, b: NodeId)
    requires Five(all) && n.role.Leader? && n.id in all && a in all && b in all && a != b && a != n.id && b != n.id
    requires n.role.matchIndex == Progress(all, n.id, 0)[a := |n.log|][b := |n.log|]
    ensures IsQuorumIndex(n, |n.log|)
  {
    OthersAreFour(all, n.id);
    assert |n.role.matchIndex| == |n.role.matchIndex.Keys| && n.role.matchIndex.Keys == all - {n.id};
    var vs := {a, b, n.id};
    assert |vs| == 3;
    forall j | j > |n.log| ensures Holders(n, j) <= {} {
    }
    QuorumIndexIs(n, |n.log|, vs, {});
  }

  /** A leader copies its log to a peer that holds nothing, and books the reply. */
  lemma CopyAndBook(s: State, n: Node, v: Node, k: nat) returns (s': State)
    requires Member(s, n.id) && Member(s, v.id) && Shows(s, n) && Shows(s, v) && n.id != v.id && v.term <= n.term
    requires Beginner(n, v.id) && Untouched(v) && n.log != [] && MatchOf(n, v.id) == 0
    requires IsQuorumIndex(SetProgress(n, v.id, |n.log|), k)
    ensures Reaches(s, s') && s'.campaigns == s.campaigns
    ensures s'.nodes == s.nodes[v.id := Copied(v, n.id, n.term, n.log)]
                                 [n.id := CommitTo(SetProgress(n, v.id, |n.log|), k)]
  {
    var s1 := CopyLog(s, n, v);
    var m := AppResp(v.id, n.id, n.term, 0, |n.log|, AppendReply(n.term, true, |n.log|), n.term);
    s' := BookSuccess(s1, n.id, m, k);
    Then(s, s1, s');
  }

  lemma BookedTwice(ns: map<NodeId, Node>, a: NodeId, b: NodeId, i: NodeId, x: Node, n1: Node, y: Node, n2: Node)
    requires a != b && a != i && b != i
    ensures ns[a := x][i := n1][b := y][i := n2] == ns[a := x][b := y][i := n2]
  {
  }

  /** A leader copies its log to two peers that hold nothing, and commits it. */
  lemma CommitLog(s: State, all: set<NodeId>, n: Node, a: Node, b: Node) returns (s': State)
    requires Five(all) && n.id in all && a.id in all && b.id in all && n.id != a.id && n.id != b.id && a.id != b.id
    requires Member(s, n.id) && Member(s, a.id) && Member(s, b.id) && Shows(s, n) && Shows(s, a) && Shows(s, b)
    requires Beginner(n, a.id) && Beginner(n, b.id) && Untouched(a) && Untouched(b) && a.term <= n.term
    requires b.term <= n.term
    requires n.log != [] && n.role.matchIndex == Progress(all, n.id, 0) && LastTerm(n.log) == n.term && n.commit == 0
    ensures var n' := SetProgress(SetProgress(n, a.id, |n.log|), b.id, |n.log|).(commit := |n.log|);
            s'.nodes == s.nodes[a.id := Copied(a, n.id, n.term, n.log)]
                               [b.id := Copied(b, n.id, n.term, n.log)][n.id := n']
    ensures Reaches(s, s') && s'.campaigns == s.campaigns
  {
    var k := |n.log|;
    var n1 := SetProgress(n, a.id, k);
    NobodyElse(n1, all, a.id);
    assert CommitTo(n1, 0) == n1;
    var s2 := CopyAndBook(s, n, a, 0);
    var n2 := SetProgress(n1, b.id, k);
    MajorityHolds(n2, all, a.id, b.id);
    s' := CopyAndBook(s2, n1, b, k);
    assert CommitTo(n2, k) == n2.(commit := k);
    var x, y := Copied(a, n.id, n.term, n.log), Copied(b, n.id, n.term, n.log);
    BookedTwice(s.nodes, a.id, b.id, n.id, x, n1, y, n2.(commit := k));
    Then(s, s2, s');
  }

  /** A leader applies and compacts the two entries it has committed. */
  function Compacted(n: Node): Node {
    MarkHorizon(n.(applied := n.commit), n.commit)
  }

  lemma CompactTwo(s: State, n: Node) returns (s': State)
    requires Member(s, n.id) && Shows(s, n) && n.applied == 0 && n.commit == 2 && n.horizon == 0
    ensures Reaches(s, s') && s'.nodes == s.nodes[n.id := Compacted(n)] && s'.campaigns == s.campaigns
  {
    var s1 := ApplyNext(s, n.id);
    var s2 := ApplyNext(s1, n.id);
    assert s2.nodes[n.id] == n.(applied := 2);
    s' := Compact(s2, n.id);
    Then(s, s1, s2);
    Then(s, s2, s');
  }

  /** A node that learns of a later leader. */
  function Deposed(v: Node, leader: NodeId, term: nat): Node {
    v.(term := term, vote := None, role := Follower(Some(leader), v.tick, 0))
  }

  lemma DeposedBySnapshot(v: Node, leader: NodeId, term: nat, k: nat)
    requires v.term < term && v.applied < k && !v.role.Poisoned?
    ensures HandleInstallSnapshot(v, leader, term, k, 0) == (Deposed(v, leader, term), term)
    ensures AcceptsSnapshot(v, term, k)
  {
  }

  /** A leader sends the state at its horizon, and a node of an earlier term restores it. */
  lemma Catchup(s: State, n: Node, v: Node) returns (s': State)
    requires Member(s, n.id) && Member(s, v.id) && n.id != v.id && Shows(s, n) && Shows(s, v)
    requires n.role.Leader? && v.id in n.peers && NextOf(n, v.id) <= n.horizon <= |n.log|
    requires v.term < n.term && v.applied < n.horizon
    ensures Reaches(s, s') && s'.campaigns == s.campaigns
    ensures s'.nodes == s.nodes[v.id := AfterRestore(Deposed(v, n.id, n.term), n.log[..n.horizon])]
    ensures SnapResp(v.id, n.id, n.term, n.horizon, n.term) in s'.msgs
  {
    var r := Round(n.id, n.term, n.commit);
    var s1 := BeginRound(s, n.id);
    var s2 := SendState(s1, n.id, v.id, r);
    var m := SnapshotOf(n, v.id, r);
    DeposedBySnapshot(v, n.id, n.term, n.horizon);
    s' := RestoreState(s2, m, Deposed(v, n.id, n.term));
    Then(s, s1, s2);
    Then(s, s2, s');
  }

  // --- Two histories in one log ---

  /** The leader of term 2 with its two entries, not yet replicated. */
  function Author(all: set<NodeId>, d: Payload): Node {
    SecondLeader(all).(log := New(d))
  }

  /** The same, having committed and compacted them. */
  function Committer(all: set<NodeId>, d: Payload): Node {
    Compacted(SetProgress(SetProgress(Author(all, d), 2, 2), 4, 2).(commit := 2))
  }

  /** The leader of term 1, restored by the leader of term 2: its third entry stays behind the horizon. */
  function Grafted(all: set<NodeId>, d: Payload): Node {
    Node(0, all - {0}, 2, None, New(d) + [Entry(3, 1, d)], 2, 2, [1, 1], 2, 1, Follower(Some(1), 1, 0))
  }

  function Delayed(d: Payload): Msg {
    AppReq(1, 0, 2, 0, 0, New(d), 0, 2)
  }

  ghost predicate TwoHistories(s: State, all: set<NodeId>, d: Payload) {
    && s.nodes.Keys == all && Delayed(d) in s.msgs && SnapResp(0, 1, 2, 2, 2) in s.msgs
    && Shows(s, Grafted(all, d)) && Shows(s, Committer(all, d))
    && Shows(s, Copied(Voted(SecondVoter(all), 2, 1), 1, 2, New(d)))
    && Shows(s, Copied(Fresh(all, 3), 0, 1, Old(d)))
    && Shows(s, Copied(Voted(Fresh(all, 4), 2, 1), 1, 2, New(d)))
  }

  lemma AuthorBegins(all: set<NodeId>, d: Payload)
    requires Five(all)
    ensures Beginner(Author(all, d), 0) && Beginner(Author(all, d), 2) && Beginner(Author(all, d), 4)
    ensures Author(all, d).role.matchIndex == Progress(all, 1, 0) && LastTerm(Author(all, d).log) == 2
    ensures Author(all, d).term == 2 && Author(all, d).id == 1 && Author(all, d).peers == all - {1}
  {
  }

  lemma Written(all: set<NodeId>, d: Payload) returns (s0: State, s: State)
    requires Five(all)
    ensures Init(s0) && Reaches(s0, s) && s.nodes.Keys == all && Delayed(d) in s.msgs
    ensures Shows(s, Elected(Fresh(all, 0)).(log := Old(d))) && Shows(s, Author(all, d))
    ensures Shows(s, Voted(SecondVoter(all), 2, 1)) && Shows(s, Copied(Fresh(all, 3), 0, 1, Old(d)))
    ensures Shows(s, Voted(Fresh(all, 4), 2, 1))
  {
    var s1;
    s0, s1 := SecondElection(all, d);
    ShownMember(s1, all, SecondLeader(all));
    var s2 := TwoEntries(s1, SecondLeader(all), d);
    ShownMember(s2, all, Author(all, d));
    AuthorBegins(all, d);
    var m;
    s, m := Replicate(s2, 0, Author(all, d));
    FirstRequest(Author(all, d), 0);
    Then(s0, s1, s2);
    Then(s0, s2, s);
  }

  lemma CommittedByTwo(s: State, all: set<NodeId>, d: Payload) returns (s': State)
    requires Five(all) && s.nodes.Keys == all
    requires Shows(s, Author(all, d)) && Shows(s, Voted(SecondVoter(all), 2, 1)) && Shows(s, Voted(Fresh(all, 4), 2, 1))
    ensures Reaches(s, s')
    ensures s'.nodes == s.nodes[2 := Copied(Voted(SecondVoter(all), 2, 1), 1, 2, New(d))]
                               [4 := Copied(Voted(Fresh(all, 4), 2, 1), 1, 2, New(d))][1 := Committer(all, d)]
  {
    var n, a, b := Author(all, d), Voted(SecondVoter(all), 2, 1), Voted(Fresh(all, 4), 2, 1);
    ShownMember(s, all, n);
    ShownMember(s, all, a);
    ShownMember(s, all, b);
    AuthorBegins(all, d);
    var s1 := CommitLog(s, all, n, a, b);
    s' := CompactTwo(s1, SetProgress(SetProgress(n, 2, 2), 4, 2).(commit := 2));
    Then(s, s1, s');
  }

  lemma CommitterServes(all: set<NodeId>, d: Payload)
    requires Five(all)
    ensures var n := Committer(all, d);
            && n.id == 1 && n.peers == all - {1} && n.role.Leader? && n.term == 2 && n.horizon == 2 && n.log == New(d)
            && n.commit == 2 && NextOf(n, 0) == 1 && NextOf(n, 2) == 3 && NextOf(n, 4) == 3
            && n.role.matchIndex == Progress(all, 1, 0)[2 := 2][4 := 2]
  {
    AuthorBegins(all, d);
  }

  lemma GraftedIs(all: set<NodeId>, d: Payload)
    ensures AfterRestore(Deposed(Elected(Fresh(all, 0)).(log := Old(d)), 1, 2), New(d)) == Grafted(all, d)
  {
    var v := Deposed(Elected(Fresh(all, 0)).(log := Old(d)), 1, 2);
    assert v.log[2..] == [Entry(3, 1, d)];
    assert StoredUpTo(v, 2) == [1, 1];
  }

  /** A careful run that ends with entries of term 1 behind a snapshot of term 2. */
  lemma RestoreKeepsTail(all: set<NodeId>, d: Payload) returns (s0: State, s: State)
    requires Five(all)
    ensures Init(s0) && Reaches(s0, s) && TwoHistories(s, all, d)
  {
    var s1;
    s0, s1 := Written(all, d);
    var s2 := CommittedByTwo(s1, all, d);
    var n, v := Committer(all, d), Elected(Fresh(all, 0)).(log := Old(d));
    CommitterServes(all, d);
    ShownMember(s2, all, n);
    ShownMember(s2, all, v);
    s := Catchup(s2, n, v);
    assert New(d)[..2] == New(d);
    GraftedIs(all, d);
    Then(s0, s1, s2);
    Then(s0, s2, s);
  }

  const ALL: set<NodeId> := {0, 1, 2, 3, 4}

  lemma RunOf(s0: State, s: State) returns (run: seq<State>)
    requires Init(s0) && Path(s0, s)
    ensures Careful(run) && run[|run| - 1] == s
  {
    run :| IsPath(run, s0, s);
  }

  /**
   Where log matching ends: after a careful run two logs have the same term at an index and differ
   before it. One of them was restored over another history.
   */
  lemma RestoreBreaksLogMatching(d: Payload) returns (run: seq<State>)
    ensures Careful(run)
    ensures var ns := run[|run| - 1].nodes;
            && 0 in ns && 3 in ns && |ns[0].log| == |ns[3].log| == 3
            && ns[0].log[2].term == ns[3].log[2].term && ns[0].log[..3] != ns[3].log[..3]
  {
    var s0, s := RestoreKeepsTail(ALL, d);
    run := RunOf(s0, s);
    assert s.nodes[0].log[..3][0] == Entry(1, 2, d) && s.nodes[3].log[..3][0] == Entry(1, 1, d);
  }

  // --- A probe that commits another history ---

  function Third(d: Payload): Entry {
    Entry(3, 2, d)
  }

  /** A peer that holds what the leader has compacted takes the third entry. */
  predicate HoldsTwo(v: Node, d: Payload) {
    v.role.Follower? && v.term == 2 && v.log == New(d) && v.commit == 0 && v.horizon == 0 && v.below == []
  }

  function TookThird(v: Node, leader: NodeId, d: Payload): Node
    requires v.role.Follower?
  {
    v.(log := New(d) + [Third(d)], commit := 2, role := Follower(Some(leader), v.tick, v.role.timeout))
  }

  lemma TakesThird(v: Node, leader: NodeId, d: Payload)
    requires HoldsTwo(v, d)
    ensures HandleAppendEntries(v, leader, 2, 2, 2, [Third(d)], 2, 0)
            == (TookThird(v, leader, d), AppendReply(2, true, 3))
    ensures Reconcile(v, 2, 2, [Third(d)], 2).0.log == New(d) + [Third(d)] && Consistent(v, 2, 2)
  {
    var n2 := ResetHeartbeat(ValidateLeaderRpc(v, 2, leader, 0).0);
    assert CutConflict(n2, [Third(d)]) == n2;
    assert CutConflict(v, [Third(d)]) == v;
    assert Missing([Third(d)], 3) == Some([Third(d)]) by {
      assert Missing([Third(d)][1..], 4) == Some([]);
      assert [Third(d)] + [] == [Third(d)];
    }
  }

  /** The committer of term 2, with a third entry. */
  predicate Writer(n: Node, d: Payload) {
    && n.id == 1 && n.role.Leader? && n.term == 2 && n.horizon == 2 && n.log == New(d) + [Third(d)] && n.commit == 2
  }

  lemma ThirdRequest(n: Node, peer: NodeId, d: Payload)
    requires Writer(n, d) && NextOf(n, peer) == 3
    ensures BuildAppend(n, peer, Round(1, 2, 2)) == AppReq(1, peer, 2, 2, 2, [Third(d)], 2, 2)
  {
    assert n.log[2..] == [Third(d)];
  }

  lemma SendThird(s: State, n: Node, v: Node, d: Payload) returns (s': State)
    requires Member(s, 1) && Member(s, v.id) && Shows(s, n) && Shows(s, v) && Writer(n, d) && HoldsTwo(v, d)
    requires v.id in n.peers && NextOf(n, v.id) == 3
    ensures Reaches(s, s') && s'.nodes == s.nodes[v.id := TookThird(v, 1, d)] && s'.campaigns == s.campaigns
    ensures AppResp(v.id, 1, 2, 2, 1, AppendReply(2, true, 3), 2) in s'.msgs
  {
    var s1, m := Replicate(s, v.id, n);
    ThirdRequest(n, v.id, d);
    TakesThird(v, 1, d);
    s' := TakeEntries(s1, m, TookThird(v, 1, d), AppendReply(2, true, 3));
    Then(s, s1, s');
  }

  /** A quorum index read off two peers that reach it and the nodes that go beyond it. */
  lemma IndexIs(n: Node, all: set<NodeId>, a: NodeId, b: NodeId, k: nat, ws: set<NodeId>)
    requires Five(all) && n.role.Leader? && n.id in all && a in all && b in all && a != b && a != n.id && b != n.id
    requires n.role.matchIndex.Keys == all - {n.id} && |n.log| >= k && |ws| <= 2
    requires n.role.matchIndex[a] >= k && n.role.matchIndex[b] >= k
    requires forall p :: p in n.role.matchIndex && n.role.matchIndex[p] > k ==> p in ws
    requires |n.log| > k ==> n.id in ws
    ensures IsQuorumIndex(n, k)
  {
    OthersAreFour(all, n.id);
    assert |n.role.matchIndex| == |n.role.matchIndex.Keys|;
    var vs := {a, b, n.id};
    assert |vs| == 3;
    QuorumIndexIs(n, k, vs, ws);
  }

  /** The leader books the third entry of a peer. */
  lemma BookThird(s: State, n: Node, peer: NodeId, k: nat) returns (s': State)
    requires Member(s, 1) && Shows(s, n) && n.id == 1 && n.role.Leader? && n.term == 2 && MatchOf(n, peer) < 3
    requires AppResp(peer, 1, 2, 2, 1, AppendReply(2, true, 3), 2) in s.msgs
    requires IsQuorumIndex(SetProgress(n, peer, 3), k)
    ensures Reaches(s, s') && s'.nodes == s.nodes[1 := CommitTo(SetProgress(n, peer, 3), k)]
    ensures s'.campaigns == s.campaigns
  {
    s' := BookSuccess(s, 1, AppResp(peer, 1, 2, 2, 1, AppendReply(2, true, 3), 2), k);
  }

  function Second(all: set<NodeId>, d: Payload): Node {
    Copied(Voted(SecondVoter(all), 2, 1), 1, 2, New(d))
  }

  function Fourth(all: set<NodeId>, d: Payload): Node {
    Copied(Voted(Fresh(all, 4), 2, 1), 1, 2, New(d))
  }

  function ThirdWriter(all: set<NodeId>, d: Payload): Node {
    Committer(all, d).(log := New(d) + [Third(d)])
  }

  lemma AddThird(s: State, all: set<NodeId>, d: Payload) returns (s': State)
    requires Five(all) && s.nodes.Keys == all && Shows(s, Committer(all, d))
    ensures Reaches(s, s') && s'.nodes == s.nodes[1 := ThirdWriter(all, d)] && Writer(ThirdWriter(all, d), d)
  {
    CommitterServes(all, d);
    ShownMember(s, all, Committer(all, d));
    s' := AddEntry(s, 1, d);
  }

  /** The third entry, committed by the leader with nodes 2 and 4. */
  function ThirdCommitter(all: set<NodeId>, d: Payload): Node {
    var n := ThirdWriter(all, d);
    if n.role.Leader? then SetProgress(SetProgress(n, 2, 3), 4, 3).(commit := 3) else n
  }

  lemma ThirdWriterServes(all: set<NodeId>, d: Payload)
    requires Five(all)
    ensures var n := ThirdWriter(all, d);
            && Writer(n, d) && n.peers == all - {1} && NextOf(n, 0) == 1 && NextOf(n, 2) == 3 && NextOf(n, 4) == 3
            && n.role.matchIndex == Progress(all, 1, 0)[2 := 2][4 := 2]
  {
    CommitterServes(all, d);
  }

  /** One peer of two takes the third entry; nothing more is committed. */
  lemma FirstThird(s: State, all: set<NodeId>, n: Node, a: Node, b: NodeId, d: Payload) returns (s': State)
    requires Five(all) && Member(s, 1) && Member(s, a.id) && Shows(s, n) && Shows(s, a) && Writer(n, d)
    requires HoldsTwo(a, d)
    requires a.id in n.peers && n.peers == all - {1} && 1 in all && b in all && b != 1 && b != a.id
    requires NextOf(n, a.id) == 3
    requires n.role.matchIndex.Keys == n.peers && n.role.matchIndex[a.id] == 2 && n.role.matchIndex[b] == 2
    requires forall p :: p in n.peers ==> n.role.matchIndex[p] <= 2
    ensures Reaches(s, s') && s'.nodes == s.nodes[a.id := TookThird(a, 1, d)][1 := SetProgress(n, a.id, 3)]
  {
    var s1 := SendThird(s, n, a, d);
    var n1 := SetProgress(n, a.id, 3);
    assert |{1, a.id}| == 2;
    IndexIs(n1, all, a.id, b, 2, {1, a.id});
    assert CommitTo(n1, 2) == n1;
    s' := BookThird(s1, n, a.id, 2);
    Then(s, s1, s');
  }

  /** The second peer makes the majority. */
  lemma SecondThird(s: State, all: set<NodeId>, n: Node, a: NodeId, b: Node, d: Payload) returns (s': State)
    requires Five(all) && Member(s, 1) && Member(s, b.id) && Shows(s, n) && Shows(s, b) && Writer(n, d)
    requires HoldsTwo(b, d)
    requires b.id in n.peers && n.peers == all - {1} && 1 in all && a in all && a != 1 && a != b.id
    requires NextOf(n, b.id) == 3
    requires n.role.matchIndex.Keys == n.peers && n.role.matchIndex[a] == 3 && n.role.matchIndex[b.id] == 2
    requires forall p :: p in n.peers ==> n.role.matchIndex[p] <= 3
    ensures Reaches(s, s')
    ensures s'.nodes == s.nodes[b.id := TookThird(b, 1, d)][1 := SetProgress(n, b.id, 3).(commit := 3)]
  {
    var s1 := SendThird(s, n, b, d);
    var n1 := SetProgress(n, b.id, 3);
    IndexIs(n1, all, a, b.id, 3, {});
    assert CommitTo(n1, 3) == n1.(commit := 3);
    s' := BookThird(s1, n, b.id, 3);
    Then(s, s1, s');
  }

  lemma CommitThird(s: State, all: set<NodeId>, d: Payload) returns (s': State)
    requires Five(all) && s.nodes.Keys == all
    requires Shows(s, ThirdWriter(all, d)) && Shows(s, Second(all, d)) && Shows(s, Fourth(all, d))
    ensures Reaches(s, s')
    ensures s'.nodes == s.nodes[2 := TookThird(Second(all, d), 1, d)][4 := TookThird(Fourth(all, d), 1, d)]
                               [1 := ThirdCommitter(all, d)]
  {
    var n := ThirdWriter(all, d);
    ThirdWriterServes(all, d);
    ShownMember(s, all, n);
    ShownMember(s, all, Second(all, d));
    var s1 := FirstThird(s, all, n, Second(all, d), 4, d);
    ShownMember(s1, all, SetProgress(n, 2, 3));
    ShownMember(s1, all, Fourth(all, d));
    s' := SecondThird(s1, all, SetProgress(n, 2, 3), 2, Fourth(all, d), d);
    Then(s, s1, s');
  }

  lemma ThirdIsCommitted(all: set<NodeId>, d: Payload) returns (s0: State, s: State)
    requires Five(all)
    ensures Init(s0) && Reaches(s0, s) && s.nodes.Keys == all && Shows(s, Grafted(all, d))
    ensures Shows(s, ThirdCommitter(all, d))
  {
    var s1;
    s0, s1 := RestoreKeepsTail(all, d);
    var s2 := AddThird(s1, all, d);
    s := CommitThird(s2, all, d);
    Then(s0, s1, s2);
    Then(s0, s2, s);
  }

  lemma SendHorizonProbe(s: State, n: Node, peer: NodeId) returns (s': State)
    requires Member(s, n.id) && Shows(s, n) && n.role.Leader? && peer in n.peers && NextOf(n, peer) <= n.horizon
    ensures Reaches(s, s') && s'.nodes == s.nodes && BuildProbe(n, peer, Round(n.id, n.term, n.commit)) in s'.msgs
  {
    var r := Round(n.id, n.term, n.commit);
    var s1 := BeginRound(s, n.id);
    s' := s1.(msgs := s1.msgs + {BuildProbe(n, peer, r)});
    assert SendProbe(s1, s', n.id, peer, r);
    Step(s1, s');
    Then(s, s1, s');
  }

  /** A request is taken over without the checks. */
  lemma TakeUnchecked(s: State, m: Msg, n': Node, reply: AppendReply) returns (s': State)
    requires m in s.msgs && m.AppReq? && Member(s, m.dst) && !n'.role.Poisoned?
    requires (n', reply)
             == HandleAppendEntries(s.nodes[m.dst], m.leader, m.term, m.prev, m.prevTerm, m.entries, m.leaderCommit, 0)
    ensures Next(s, s') && s'.nodes == s.nodes[m.dst := n']
  {
    var hist := if reply.success && m.origin == m.term
                then NoteAcks(s.hist, m.dst, m.term, s.nodes[m.dst].commit, m.prev + |m.entries|) else s.hist;
    s' := s.(nodes := s.nodes[m.dst := n'], hist := hist,
             msgs := s.msgs + {AppResp(m.dst, m.leader, m.term, m.prev, |m.entries|, reply, m.origin)});
    assert OnAppReq(s, s', m, 0);
  }

  lemma ProbeOf(n: Node)
    requires n.id == 1 && n.term == 2 && n.horizon == 2 && |n.log| >= 2 && n.log[1].term == 2 && n.commit == 3
    ensures BuildProbe(n, 0, Round(1, 2, 3)) == AppReq(1, 0, 2, 2, 2, [], 3, 2)
  {
  }

  /** The probe compares the horizon and commits whatever lies behind it. */
  lemma GraftedCommits(all: set<NodeId>, d: Payload)
    ensures HandleAppendEntries(Grafted(all, d), 1, 2, 2, 2, [], 3, 0)
            == (Grafted(all, d).(commit := 3), AppendReply(2, true, 3))
  {
    assert Grafted(all, d).log + [] == Grafted(all, d).log;
  }

  lemma BehaviourOf(s0: State, s: State, s': State) returns (run: seq<State>)
    requires Init(s0) && Path(s0, s) && Next(s, s')
    ensures Behaviour(run) && run[|run| - 1] == s'
  {
    CarefulPathArises(s0, s);
    CarefullyArises(s);
    OneMore(s, s');
    run :| Behaviour(run) && run[|run| - 1] == s';
  }

  lemma ProbeIsSent(all: set<NodeId>, d: Payload) returns (s0: State, s: State)
    requires Five(all)
    ensures Init(s0) && Path(s0, s) && s.nodes.Keys == all && AppReq(1, 0, 2, 2, 2, [], 3, 2) in s.msgs
    ensures Shows(s, Grafted(all, d)) && Shows(s, ThirdCommitter(all, d)) && Member(s, 0)
  {
    var s1;
    s0, s1 := ThirdIsCommitted(all, d);
    var n := ThirdCommitter(all, d);
    ThirdWriterServes(all, d);
    ShownMember(s1, all, n);
    s := SendHorizonProbe(s1, n, 0);
    ProbeOf(n);
    ShownMember(s, all, Grafted(all, d));
    Then(s0, s1, s);
  }

  /**
   Without the check on the commit index state machine safety is lost: a restored follower commits
   the entry of another history that it kept behind the horizon, because the probe that asks whether
   it is there carries the leader's commit index.
   */
  lemma ProbeCommitsAnotherHistory(d: Payload) returns (run: seq<State>)
    ensures Behaviour(run)
    ensures var ns := run[|run| - 1].nodes;
            && 0 in ns && 1 in ns && ns[0].commit == ns[1].commit == 3 && |ns[0].log| == |ns[1].log| == 3
            && ns[0].log[..3] != ns[1].log[..3]
  {
    var s0, s := ProbeIsSent(ALL, d);
    GraftedCommits(ALL, d);
    var s' := TakeUnchecked(s, AppReq(1, 0, 2, 2, 2, [], 3, 2), Grafted(ALL, d).(commit := 3), AppendReply(2, true, 3));
    run := BehaviourOf(s0, s, s');
    ThirdWriterServes(ALL, d);
    assert s'.nodes[0].log[..3][2] == Entry(3, 1, d) && s'.nodes[1].log[..3][2] == Third(d);
  }

  // --- A request that cuts below the horizon ---

  lemma BookSnapshot(s: State, n: Node, peer: NodeId, k: nat) returns (s': State)
    requires Member(s, n.id) && Shows(s, n) && n.role.Leader? && n.term == 2
    requires SnapResp(peer, n.id, 2, 2, 2) in s.msgs && IsQuorumIndex(SetProgress(n, peer, 2), k) && k <= n.commit
    ensures Reaches(s, s') && s'.nodes == s.nodes[n.id := SetProgress(n, peer, 2)]
  {
    s' := s.(nodes := s.nodes[n.id := SetProgress(n, peer, 2)]);
    assert CommitTo(SetProgress(n, peer, 2), k) == SetProgress(n, peer, 2);
    assert OnReply(s, s', n.id, SetProgress(n, peer, 2), SnapResp(peer, n.id, 2, 2, 2), 0);
    Step(s, s');
  }

  function Healed(all: set<NodeId>, d: Payload): Node {
    Grafted(all, d).(log := New(d) + [Third(d)])
  }

  /** A request from the horizon on replaces the other history. */
  lemma GraftedHeals(all: set<NodeId>, d: Payload)
    ensures var v := Grafted(all, d);
            && HandleAppendEntries(v, 1, 2, 2, 2, [Third(d)], 2, 0) == (Healed(all, d), AppendReply(2, true, 3))
            && Reconcile(v, 2, 2, [Third(d)], 2).0.log == New(d) + [Third(d)] && CutsAbove(v, [Third(d)])
  {
    var v := Grafted(all, d);
    assert StoredTerm(v, 3) == 1;
    assert CutConflict(v, [Third(d)]) == v.(log := New(d)) by {
      assert v.log[..2] == New(d);
    }
    assert Missing([Third(d)], 3) == Some([Third(d)]) by {
      assert Missing([Third(d)][1..], 4) == Some([]);
      assert [Third(d)] + [] == [Third(d)];
    }
  }

  lemma SendThirdToGrafted(s: State, n: Node, all: set<NodeId>, d: Payload) returns (s': State)
    requires Member(s, 1) && Member(s, 0) && Shows(s, n) && Shows(s, Grafted(all, d)) && Writer(n, d)
    requires 0 in n.peers && NextOf(n, 0) == 3
    ensures Reaches(s, s') && s'.nodes == s.nodes[0 := Healed(all, d)]
    ensures AppResp(0, 1, 2, 2, 1, AppendReply(2, true, 3), 2) in s'.msgs
  {
    var s1, m := Replicate(s, 0, n);
    ThirdRequest(n, 0, d);
    GraftedHeals(all, d);
    s' := TakeEntries(s1, m, Healed(all, d), AppendReply(2, true, 3));
    Then(s, s1, s');
  }

  /** The leader's maps on the way: the snapshot booked, the third entry at node 0, then at node 2. */
  function HealedOnce(all: set<NodeId>, d: Payload): Node {
    var n := ThirdWriter(all, d);
    if n.role.Leader? then SetProgress(SetProgress(n, 0, 2), 0, 3) else n
  }

  function HealedTwice(all: set<NodeId>, d: Payload): Node {
    var n := HealedOnce(all, d);
    if n.role.Leader? then SetProgress(n, 2, 3).(commit := 3) else n
  }

  lemma HealFrom(s: State, n: Node, all: set<NodeId>, d: Payload) returns (s': State)
    requires Five(all) && Member(s, 1) && Member(s, 0) && SnapResp(0, 1, 2, 2, 2) in s.msgs && 1 in all && 0 in n.peers
    requires Shows(s, n) && Shows(s, Grafted(all, d)) && Writer(n, d) && n.peers == all - {1}
    requires n.role.matchIndex.Keys == n.peers && n.role.matchIndex[2] == 2 && n.role.matchIndex[4] == 2
    requires forall p :: p in n.peers ==> n.role.matchIndex[p] <= 2
    ensures Reaches(s, s') && s'.nodes == s.nodes[0 := Healed(all, d)][1 := SetProgress(SetProgress(n, 0, 2), 0, 3)]
  {
    var n1 := SetProgress(n, 0, 2);
    IndexIs(n1, all, 2, 4, 2, {1});
    var s1 := BookSnapshot(s, n, 0, 2);
    var s2 := SendThirdToGrafted(s1, n1, all, d);
    var n2 := SetProgress(n1, 0, 3);
    assert |{0, 1}| == 2;
    IndexIs(n2, all, 2, 4, 2, {0, 1});
    assert CommitTo(n2, 2) == n2;
    s' := BookThird(s2, n1, 0, 2);
    Then(s, s1, s2);
    Then(s, s2, s');
  }

  lemma HealFirst(s: State, all: set<NodeId>, d: Payload) returns (s': State)
    requires Five(all) && s.nodes.Keys == all && SnapResp(0, 1, 2, 2, 2) in s.msgs
    requires Shows(s, ThirdWriter(all, d)) && Shows(s, Grafted(all, d))
    ensures Reaches(s, s') && s'.nodes == s.nodes[0 := Healed(all, d)][1 := HealedOnce(all, d)]
  {
    ThirdWriterServes(all, d);
    ShownMember(s, all, ThirdWriter(all, d));
    ShownMember(s, all, Grafted(all, d));
    s' := HealFrom(s, ThirdWriter(all, d), all, d);
  }

  lemma HealedOnceServes(all: set<NodeId>, d: Payload)
    requires Five(all)
    ensures var n := HealedOnce(all, d);
            && Writer(n, d) && n.peers == all - {1} && NextOf(n, 0) == 4 && NextOf(n, 2) == 3
            && n.role.matchIndex == Progress(all, 1, 0)[2 := 2][4 := 2][0 := 2][0 := 3]
  {
    ThirdWriterServes(all, d);
  }

  lemma HealSecond(s: State, all: set<NodeId>, d: Payload) returns (s': State)
    requires Five(all) && s.nodes.Keys == all && Shows(s, HealedOnce(all, d)) && Shows(s, Second(all, d))
    ensures Reaches(s, s') && s'.nodes == s.nodes[2 := TookThird(Second(all, d), 1, d)][1 := HealedTwice(all, d)]
  {
    HealedOnceServes(all, d);
    ShownMember(s, all, HealedOnce(all, d));
    ShownMember(s, all, Second(all, d));
    s' := SecondThird(s, all, HealedOnce(all, d), 0, Second(all, d), d);
  }

  /** The heartbeat that lets node 0 commit the third entry. */
  lemma HealedCommits(all: set<NodeId>, d: Payload)
    ensures var v := Healed(all, d);
            && HandleAppendEntries(v, 1, 2, 3, 2, [], 3, 0) == (v.(commit := 3), AppendReply(2, true, 3))
            && Reconcile(v, 3, 2, [], 3).0.log == v.log && CutsAbove(v, [])
  {
    assert Healed(all, d).log + [] == Healed(all, d).log;
  }

  lemma CommitAtHealed(s: State, n: Node, all: set<NodeId>, d: Payload) returns (s': State)
    requires Member(s, 1) && Member(s, 0) && Shows(s, n) && Shows(s, Healed(all, d))
    requires n.id == 1 && n.role.Leader? && n.term == 2 && n.horizon == 2 && n.log == New(d) + [Third(d)]
    requires n.commit == 3
    requires 0 in n.peers && NextOf(n, 0) == 4
    ensures Reaches(s, s') && s'.nodes == s.nodes[0 := Healed(all, d).(commit := 3)]
  {
    var s1, m := Replicate(s, 0, n);
    assert n.log[3..] == [];
    assert m == AppReq(1, 0, 2, 3, 2, [], 3, 2);
    HealedCommits(all, d);
    s' := TakeEntries(s1, m, Healed(all, d).(commit := 3), AppendReply(2, true, 3));
    Then(s, s1, s');
  }

  /** The late request meets the entries left below the horizon. */
  lemma HealedIsCut(all: set<NodeId>, d: Payload)
    ensures var v := Healed(all, d).(commit := 3);
            HandleAppendEntries(v, 1, 2, 0, 0, New(d), 0, 0)
                == (v.(log := New(d), below := []), AppendReply(2, true, 2))
  {
    var v := Healed(all, d).(commit := 3);
    assert Conflicts(v, New(d)[0]);
    assert v.log[..2] == New(d) && Trimmed(v.below[..0]) == [];
    assert CutConflict(v, New(d)) == v.(log := New(d), below := []);
    assert Missing(New(d), 3) == Some([]) by {
      assert New(d)[1..] == [Entry(2, 2, d)] && New(d)[1..][1..] == [];
      assert Missing(New(d)[1..], 3) == Some([]);
    }
    assert New(d) + [] == New(d);
  }

  lemma ThirdIsHeld(all: set<NodeId>, d: Payload) returns (s0: State, s: State)
    requires Five(all)
    ensures Init(s0) && Path(s0, s) && s.nodes.Keys == all && Delayed(d) in s.msgs && Member(s, 0)
    ensures Shows(s, Healed(all, d).(commit := 3)) && Shows(s, HealedTwice(all, d))
    ensures Shows(s, TookThird(Second(all, d), 1, d)) && Shows(s, Copied(Fresh(all, 3), 0, 1, Old(d)))
    ensures Shows(s, Fourth(all, d))
  {
    var s1;
    s0, s1 := RestoreKeepsTail(all, d);
    var s2 := AddThird(s1, all, d);
    var s3 := HealFirst(s2, all, d);
    var s4 := HealSecond(s3, all, d);
    HealedOnceServes(all, d);
    ShownMember(s4, all, HealedTwice(all, d));
    ShownMember(s4, all, Healed(all, d));
    s := CommitAtHealed(s4, HealedTwice(all, d), all, d);
    ShownMember(s, all, Healed(all, d).(commit := 3));
    Then(s0, s1, s2);
    Then(s0, s2, s3);
    Then(s0, s3, s4);
    Then(s0, s4, s);
  }

  lemma LateRequestCuts(all: set<NodeId>, d: Payload) returns (s0: State, s: State, s': State)
    requires Five(all)
    ensures Init(s0) && Path(s0, s) && Next(s, s') && s'.nodes.Keys == all
    ensures s'.nodes[0].commit == 3 && s'.nodes[0].log == New(d) && s'.nodes[3].log == Old(d)
    ensures s'.nodes[4].log == New(d)
    ensures s'.nodes[1].commit == 3 && s'.nodes[1].log == s'.nodes[2].log == New(d) + [Third(d)]
  {
    s0, s := ThirdIsHeld(all, d);
    HealedIsCut(all, d);
    HealedOnceServes(all, d);
    var n' := Healed(all, d).(commit := 3).(log := New(d), below := []);
    s' := TakeUnchecked(s, Delayed(d), n', AppendReply(2, true, 2));
  }

  /**
   Without the check on the cut a committed entry is lost: a request of the same leader, overtaken by
   its snapshot, finds an old entry below the horizon in conflict and cuts everything behind it. The
   third entry, committed by nodes 0, 1 and 2, is left at nodes 1 and 2 only.
   */
  lemma LateRequestCutsCommitted(d: Payload) returns (run: seq<State>)
    ensures Behaviour(run)
    ensures var ns := run[|run| - 1].nodes;
            && ns.Keys == ALL && ns[0].commit == ns[1].commit == 3 && |ns[0].log| == 2
            && Third(d) in ns[1].log && Third(d) in ns[2].log
            && Third(d) !in ns[0].log && Third(d) !in ns[3].log && Third(d) !in ns[4].log
  {
    var s0, s, s' := LateRequestCuts(ALL, d);
    run := BehaviourOf(s0, s, s');
    assert (New(d) + [Third(d)])[2] == Third(d);
  }
}
