/** Runs in which something outlives its term: a replication round, and a reply to a campaign. */
module RaftStale {
  import opened Common
  import opened FsmTypes
  import opened Raft
  import opened Cluster
  import opened RaftRuns
  import RaftSafety

  // --- A snapshot under a label of an earlier term ---

  /** The first leader, back as a follower of nobody. */
  function Former(all: set<NodeId>): Node {
    Voted(Elected(Fresh(all, 0)), 2, 1)
  }

  function Rival(all: set<NodeId>): Node {
    Elected(Voted(Fresh(all, 1), 1, 0))
  }

  /** Node 1 leads term 2; node 0 has granted it its vote, and still runs a round of term 1. */
  lemma TwoTerms(all: set<NodeId>) returns (s0: State, s: State)
    requires Five(all)
    ensures Init(s0) && Reaches(s0, s) && s.nodes.Keys == all && s.campaigns.Keys == {0, 1}
    ensures Round(0, 1, 0) in s.rounds
    ensures Shows(s, Former(all)) && Shows(s, Rival(all)) && Shows(s, Voted(SecondVoter(all), 2, 1))
    ensures Shows(s, Fresh(all, 3)) && Shows(s, Voted(Fresh(all, 4), 2, 1))
  {
    var s1;
    s0, s1 := TermOne(all);
    ShownMember(s1, all, Elected(Fresh(all, 0)));
    var s2 := BeginRound(s1, 0);
    Then(s0, s1, s2);
    s := RivalElected(s2, all);
    Then(s0, s2, s);
  }

  lemma RivalElected(s: State, all: set<NodeId>) returns (s': State)
    requires Five(all) && s.nodes.Keys == all && s.campaigns.Keys == {0}
    requires Shows(s, Elected(Fresh(all, 0))) && Shows(s, Voted(Fresh(all, 1), 1, 0)) && Shows(s, SecondVoter(all))
    requires Shows(s, Fresh(all, 4))
    ensures Reaches(s, s') && s'.campaigns.Keys == {0, 1}
    ensures s'.nodes == s.nodes[1 := Rival(all)][2 := Voted(SecondVoter(all), 2, 1)][4 := Voted(Fresh(all, 4), 2, 1)]
                               [0 := Former(all)]
  {
    var n := Voted(Fresh(all, 1), 1, 0);
    ShownMember(s, all, n);
    ShownMember(s, all, SecondVoter(all));
    ShownMember(s, all, Fresh(all, 4));
    SecondBacks(all);
    var s1 := ElectFrom(s, 1, n, SecondVoter(all), Fresh(all, 4));
    ShownMember(s1, all, Elected(Fresh(all, 0)));
    s' := GrantVote(s1, 0, VoteReq(1, 2, 0, 0));
    Then(s, s1, s');
  }

  /** Node 0 again, as the leader of term 3 with one entry. */
  function Returned(all: set<NodeId>, d: Payload): Node {
    Elected(Former(all)).(log := [Entry(1, 3, d)])
  }

  lemma FormerBacks(all: set<NodeId>)
    ensures Backs(Voted(SecondVoter(all), 2, 1), Former(all)) && Backs(Voted(Fresh(all, 4), 2, 1), Former(all))
    ensures EvaluateTick(Former(all).(tick := Former(all).tick + 1), 0) == StartPreVote && Former(all).id == 0
  {
  }

  function ThirdTerm(v: Node): Node {
    Voted(v, 3, 0)
  }

  /** A node is elected and writes one entry. */
  lemma ElectAndWrite(s: State, c: nat, n: Node, a: Node, b: Node, d: Payload) returns (s': State)
    requires Member(s, n.id) && Member(s, a.id) && Member(s, b.id) && n.id != a.id && n.id != b.id && a.id != b.id
    requires Shows(s, n) && Shows(s, a) && Shows(s, b) && c !in s.campaigns && n.log == []
    requires n.role.Follower? && EvaluateTick(n.(tick := n.tick + 1), 0) == StartPreVote && Backs(a, n) && Backs(b, n)
    ensures Reaches(s, s')
    ensures s'.nodes == s.nodes[n.id := Elected(n).(log := [Entry(1, n.term + 1, d)])]
                               [a.id := Voted(a, n.term + 1, n.id)][b.id := Voted(b, n.term + 1, n.id)]
  {
    var s1 := ElectFrom(s, c, n, a, b);
    s' := AddEntry(s1, n.id, d);
    assert [] + [Entry(1, n.term + 1, d)] == [Entry(1, n.term + 1, d)];
    Then(s, s1, s');
  }

  lemma Comeback(s: State, all: set<NodeId>, d: Payload) returns (s': State)
    requires Five(all) && s.nodes.Keys == all && 2 !in s.campaigns && Shows(s, Former(all))
    requires Shows(s, Voted(SecondVoter(all), 2, 1)) && Shows(s, Voted(Fresh(all, 4), 2, 1))
    ensures Reaches(s, s')
    ensures s'.nodes == s.nodes[0 := Returned(all, d)][2 := ThirdTerm(Voted(SecondVoter(all), 2, 1))]
                               [4 := ThirdTerm(Voted(Fresh(all, 4), 2, 1))]
  {
    ShownMember(s, all, Former(all));
    ShownMember(s, all, Voted(SecondVoter(all), 2, 1));
    ShownMember(s, all, Voted(Fresh(all, 4), 2, 1));
    FormerBacks(all);
    s' := ElectAndWrite(s, 2, Former(all), Voted(SecondVoter(all), 2, 1), Voted(Fresh(all, 4), 2, 1), d);
  }

  /** And with that entry committed and compacted. */
  function ReturnedCommitter(all: set<NodeId>, d: Payload): Node {
    var n := Returned(all, d);
    if n.role.Leader? then Compacted(SetProgress(SetProgress(n, 2, 1), 4, 1).(commit := 1)) else n
  }

  lemma ReturnedBegins(all: set<NodeId>, d: Payload)
    requires Five(all)
    ensures var n := Returned(all, d);
            && n.id == 0 && n.term == 3 && n.peers == all - {0} && Beginner(n, 2) && Beginner(n, 4) && Beginner(n, 3)
            && n.role.matchIndex == Progress(all, 0, 0) && LastTerm(n.log) == 3
  {
  }

  lemma CompactOne(s: State, n: Node) returns (s': State)
    requires Member(s, n.id) && Shows(s, n) && n.applied == 0 && n.commit == 1 && n.horizon == 0
    ensures Reaches(s, s') && s'.nodes == s.nodes[n.id := Compacted(n)]
  {
    var s1 := ApplyNext(s, n.id);
    s' := Compact(s1, n.id);
    Then(s, s1, s');
  }

  lemma CommitReturned(s: State, all: set<NodeId>, d: Payload) returns (s': State)
    requires Five(all) && s.nodes.Keys == all && Shows(s, Returned(all, d))
    requires Shows(s, ThirdTerm(Voted(SecondVoter(all), 2, 1))) && Shows(s, ThirdTerm(Voted(Fresh(all, 4), 2, 1)))
    ensures Reaches(s, s')
    ensures s'.nodes == s.nodes[2 := Copied(ThirdTerm(Voted(SecondVoter(all), 2, 1)), 0, 3, Returned(all, d).log)]
                               [4 := Copied(ThirdTerm(Voted(Fresh(all, 4), 2, 1)), 0, 3, Returned(all, d).log)]
                               [0 := ReturnedCommitter(all, d)]
  {
    var n, a, b := Returned(all, d), ThirdTerm(Voted(SecondVoter(all), 2, 1)), ThirdTerm(Voted(Fresh(all, 4), 2, 1));
    ReturnedBegins(all, d);
    ShownMember(s, all, n);
    ShownMember(s, all, a);
    ShownMember(s, all, b);
    var s1 := CommitLog(s, all, n, a, b);
    s' := CompactOne(s1, SetProgress(SetProgress(n, 2, 1), 4, 1).(commit := 1));
    Then(s, s1, s');
  }

  lemma Relabelled(all: set<NodeId>, d: Payload) returns (s0: State, s: State)
    requires Five(all)
    ensures Init(s0) && Reaches(s0, s) && s.nodes.Keys == all && Round(0, 1, 0) in s.rounds
    ensures Shows(s, ReturnedCommitter(all, d)) && Shows(s, Rival(all)) && Shows(s, Fresh(all, 3))
  {
    var s1;
    s0, s1 := TwoTerms(all);
    var s2 := Comeback(s1, all, d);
    s := CommitReturned(s2, all, d);
    Then(s0, s1, s2);
    Then(s0, s2, s);
  }

  lemma ReturnedServes(all: set<NodeId>, d: Payload)
    requires Five(all)
    ensures var n := ReturnedCommitter(all, d);
            && n.id == 0 && n.role.Leader? && n.peers == all - {0} && n.horizon == 1 && NextOf(n, 3) == 1
            && n.log == [Entry(1, 3, d)] && n.term == 3
  {
    ReturnedBegins(all, d);
  }

  /** The snapshot goes out under the round of term 1. */
  lemma SendStale(s: State, n: Node, all: set<NodeId>) returns (s': State)
    requires Five(all) && Member(s, 0) && Shows(s, n) && n.id == 0 && n.role.Leader? && 3 in n.peers
    requires Round(0, 1, 0) in s.rounds
    requires NextOf(n, 3) <= n.horizon <= |n.log|
    ensures Next(s, s') && s'.nodes == s.nodes && SnapReq(0, 3, 1, n.log[..n.horizon], n.term) in s'.msgs
  {
    s' := s.(msgs := s.msgs + {SnapReq(0, 3, 1, n.log[..n.horizon], n.term)});
    assert SendSnapshot(s, s', 0, 3, Round(0, 1, 0));
  }

  lemma StaleLabel(all: set<NodeId>, d: Payload) returns (s: State)
    requires Five(all)
    ensures Arises(s) && s.nodes.Keys == all && Shows(s, Rival(all))
    ensures s.nodes[3].term == 1 && s.nodes[3].commit == 1 && s.nodes[3].log == [Entry(1, 3, d)]
  {
    var s0, s1 := Relabelled(all, d);
    var n := ReturnedCommitter(all, d);
    ReturnedServes(all, d);
    ShownMember(s1, all, n);
    var s2 := SendStale(s1, n, all);
    CarefulPathArises(s0, s1);
    CarefullyArises(s1);
    OneMore(s1, s2);
    ShownMember(s2, all, Fresh(all, 3));
    DeposedBySnapshot(Fresh(all, 3), 0, 1, 1);
    var m := SnapReq(0, 3, 1, n.log[..n.horizon], n.term);
    s := RestoreState(s2, m, Deposed(Fresh(all, 3), 0, 1));
    ArisesAlong(s2, s);
  }

  /**
   Without the check on the snapshot's term leader completeness is lost: a node of term 1 takes over
   what a leader of term 3 committed, and a leader of term 2 does not have it.
   */
  lemma StaleSnapshotBreaksCompleteness(d: Payload) returns (run: seq<State>)
    ensures Behaviour(run)
    ensures var ns := run[|run| - 1].nodes;
            && 1 in ns && 3 in ns && ns[1].role.Leader? && ns[3].term <= ns[1].term
            && ns[3].commit == |ns[3].log| == 1 && !(ns[3].log <= ns[1].log)
  {
    var s := StaleLabel(ALL, d);
    run :| Behaviour(run) && run[|run| - 1] == s;
  }

  // --- A reply that outlives its campaign ---

  function Restarting(all: set<NodeId>, t: nat): Node {
    Node(0, all - {0}, t, Some(0), [], 0, 0, [], 0, t, Candidate({0}, t, 0))
  }

  lemma RestartCampaign(s: State, n: Node, c: nat) returns (s': State)
    requires Member(s, n.id) && Shows(s, n) && n.role.Candidate? && n.role.timeout == 0
    requires n.role.electionStart == n.tick
    requires n.term == n.tick && n.id == 0 && c !in s.campaigns
    ensures var n' := n.(term := n.term + 1, vote := Some(0), tick := n.tick + 1,
            role := Candidate({0}, n.tick + 1, 0));
            && Reaches(s, s') && s'.nodes == s.nodes[0 := n'] && Campaigning(n') in s'.msgs && s'.campaigns
                == s.campaigns
  {
    var n' := n.(term := n.term + 1, vote := Some(0), tick := n.tick + 1, role := Candidate({0}, n.tick + 1, 0));
    s' := s.(nodes := s.nodes[0 := n'], hist := NoteCandidacy(s.hist, n, n'), msgs := s.msgs + {Campaigning(n')});
    assert Tick(s, s', 0, 0, 0, c);
    Step(s, s');
  }

  /** A voter that has moved on refuses, and says how far it is. */
  lemma RefuseVote(s: State, v: NodeId, m: Msg) returns (s': State)
    requires Member(s, v) && m in s.msgs && m.VoteReq? && m.candidate != v && m.term < s.nodes[v].term
    ensures Reaches(s, s') && s'.nodes == s.nodes && s'.campaigns == s.campaigns
    ensures VoteResp(v, m.candidate, m.term, s.nodes[v].term, false) in s'.msgs
  {
    s' := s.(msgs := s.msgs + {VoteResp(v, m.candidate, m.term, s.nodes[v].term, false)});
    assert s.nodes[v := s.nodes[v]] == s.nodes;
    assert OnVoteReq(s, s', v, m, 0);
    Step(s, s');
  }

  lemma FirstCampaign(all: set<NodeId>) returns (s0: State, s: State)
    requires Five(all)
    ensures Init(s0) && Reaches(s0, s) && s.nodes.Keys == all && s.campaigns.Keys == {0}
    ensures Shows(s, Restarting(all, 1)) && Shows(s, Fresh(all, 3)) && VoteReq(0, 1, 0, 0) in s.msgs
  {
    s0 := Begin(all);
    FreshMember(s0, all, 0);
    FreshMember(s0, all, 1);
    FreshMember(s0, all, 2);
    FreshMember(s0, all, 3);
    FreshBacks(all, 0, 1);
    FreshBacks(all, 0, 2);
    var n;
    s, n := Campaigns(s0, 0, 1, 2, 0);
  }

  /** Terms 2 and 3 of the same candidate, and a voter that has seen term 2. */
  lemma ThirdCampaign(all: set<NodeId>) returns (s0: State, s: State)
    requires Five(all)
    ensures Init(s0) && Path(s0, s) && Shows(s, Restarting(all, 3)) && Member(s, 0)
    ensures VoteResp(3, 0, 1, 2, false) in s.msgs
  {
    var s1;
    s0, s1 := FirstCampaign(all);
    ShownMember(s1, all, Restarting(all, 1));
    var s2 := RestartCampaign(s1, Restarting(all, 1), 1);
    ShownMember(s2, all, Fresh(all, 3));
    var s3 := GrantVote(s2, 3, VoteReq(0, 2, 0, 0));
    ShownMember(s3, all, Voted(Fresh(all, 3), 2, 0));
    var s4 := RefuseVote(s3, 3, VoteReq(0, 1, 0, 0));
    ShownMember(s4, all, Restarting(all, 2));
    s := RestartCampaign(s4, Restarting(all, 2), 1);
    ShownMember(s, all, Restarting(all, 3));
    Then(s0, s1, s2);
    Then(s0, s2, s3);
    Then(s0, s3, s4);
    Then(s0, s4, s);
  }

  /**
   A candidate that has restarted its campaign twice halts on an answer to the first: the voter had
   seen the second campaign, so its term lies between the two.
   */
  lemma RestartedCandidateHalts() returns (run: seq<State>, k: nat)
    ensures Careful(run) && k + 1 < |run| && RaftSafety.Halts(run[k], run[k + 1], 0)
    ensures run[k].nodes[0].role.Candidate? && run[k].nodes[0].term == 3
  {
    var s0, s := ThirdCampaign(ALL);
    var n := Restarting(ALL, 3);
    var s' := s.(nodes := s.nodes[0 := Poison(n)]);
    assert OnVoteResp(s, s', 0, VoteResp(3, 0, 1, 2, false), 0);
    var p :| IsPath(p, s0, s);
    run, k := p + [s'], |p| - 1;
    forall i: nat ensures CarefulAt(run, i) {
      assert CarefulAt(p, i);
      if i + 1 < |p| { assert run[i] == p[i] && run[i + 1] == p[i + 1]; }
    }
  }
}
