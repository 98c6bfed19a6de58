/**
 A cluster of nodes and a network that may delay, reorder, duplicate and lose messages; nodes
 tick, campaign, replicate, crash and restart in any interleaving. The history is auxiliary: no
 handler reads it.
 */
module Cluster {
  import opened Common
  import opened FsmTypes
  import opened Raft

  /**
   Every message ever sent; `origin` is auxiliary: the term the sender led when it built the request.
   A snapshot request names the entries its snapshot stands for: `prefix` ends at the horizon.
   */
  datatype Msg =
    | VoteReq(candidate: NodeId, term: nat, lastIndex: nat, lastTerm: nat)
    | VoteResp(voter: NodeId, candidate: NodeId, reqTerm: nat, respTerm: nat, granted: bool)
    | PreReq(campaign: nat, candidate: NodeId, term: nat, lastIndex: nat, lastTerm: nat)
    | PreResp(campaign: nat, voter: NodeId, respTerm: nat, granted: bool)
    | AppReq(leader: NodeId, dst: NodeId, term: nat, prev: nat, prevTerm: nat,
             entries: seq<Entry>, leaderCommit: nat, origin: nat)
    | AppResp(follower: NodeId, leader: NodeId, reqTerm: nat, prev: nat, len: nat, reply: AppendReply, origin: nat)
    | SnapReq(leader: NodeId, dst: NodeId, term: nat, prefix: seq<Entry>, origin: nat)
    | SnapResp(follower: NodeId, leader: NodeId, reqTerm: nat, horizon: nat, respTerm: nat)

  /** A replication round as captured by a tick; the requests are built later. */
  datatype Round = Round(node: NodeId, term: nat, commit: nat)

  /** A restore that a node has accepted and runs in the background. */
  datatype Restore = Restore(node: NodeId, prefix: seq<Entry>)

  datatype PreCampaign = PreCampaign(node: NodeId, term: nat, granted: set<NodeId>, open: bool)

  datatype History = History(
    leaderLog: map<nat, seq<Entry>>,        // term -> log of its leader, as far as it got
    leaderOf: map<nat, NodeId>,
    quorumOf: map<nat, set<NodeId>>,        // term -> the voters that elected its leader
    votes: map<(NodeId, nat), NodeId>,      // voter, term -> candidate
    acks: set<(NodeId, nat, nat)>)          // node, term, index: acknowledged to the leader of the term

  datatype State = State(
    nodes: map<NodeId, Node>,
    msgs: set<Msg>,
    rounds: set<Round>,
    restores: set<Restore>,
    campaigns: map<nat, PreCampaign>,
    tallies: set<(NodeId, nat)>,
    stepDowns: set<NodeId>,
    preVoteWinners: set<NodeId>,
    hist: History)

  const NO_HISTORY: History := History(map[], map[], map[], map[], {})

  ghost predicate Init(s: State) {
    && (forall i :: i in s.nodes ==>
          && s.nodes[i].id == i && s.nodes[i].peers == s.nodes.Keys - {i}
          && s.nodes[i].term == 0 && s.nodes[i].vote == None && s.nodes[i].log == [] && s.nodes[i].commit == 0
          && s.nodes[i].horizon == 0 && s.nodes[i].below == [] && s.nodes[i].applied == 0
          && s.nodes[i].role.Follower?)
    && s.msgs == {} && s.rounds == {} && s.restores == {} && s.campaigns == map[] && s.tallies == {}
    && s.stepDowns == {} && s.preVoteWinners == {} && s.hist == NO_HISTORY
  }

  predicate Alive(s: State, i: NodeId) {
    i in s.nodes && !s.nodes[i].role.Poisoned?
  }

  // --- History ---

  function CastVote(h: History, voter: NodeId, term: nat, candidate: NodeId): History {
    h.(votes := h.votes[(voter, term) := candidate])
  }

  function Voters(h: History, term: nat, candidate: NodeId): set<NodeId> {
    set p | p in h.votes && p.1 == term && h.votes[p] == candidate :: p.0
  }

  function Enthrone(h: History, n: Node): History {
    h.(leaderLog := h.leaderLog[n.term := n.log],
       leaderOf := h.leaderOf[n.term := n.id],
       quorumOf := h.quorumOf[n.term := Voters(h, n.term, n.id)])
  }

  /** Records a promotion if the step from `n` to `n'` is one. */
  function NotePromotion(h: History, n: Node, n': Node): History {
    if n'.role.Leader? && !n.role.Leader? then Enthrone(h, n') else h
  }

  function NoteCandidacy(h: History, n: Node, n': Node): History {
    if n'.term > n.term then CastVote(h, n.id, n'.term, n.id) else h
  }

  /** The acknowledgement of every index above `low`, up to `high`. */
  function NoteAcks(h: History, v: NodeId, term: nat, low: nat, high: nat): History {
    h.(acks := h.acks + set k | low < k <= high :: (v, term, k))
  }

  function NoteEntry(h: History, n: Node): History {
    h.(leaderLog := h.leaderLog[n.term := n.log], acks := h.acks + {(n.id, n.term, |n.log|)})
  }

  // --- Events ---

  function Campaigning(n: Node): Msg {
    VoteReq(n.id, n.term, |n.log|, LastStoredTerm(n))
  }

  ghost predicate Tick(s: State, s': State, i: NodeId, interval: nat, timeout: nat, campaign: nat) {
    && Alive(s, i) && campaign !in s.campaigns
    && var n := s.nodes[i];
    && var (n', action) := Pulse(n, interval, timeout);
    && var s1 := s.(nodes := s.nodes[i := n']);
    && match action
       case StartElection => s' == s1.(hist := NoteCandidacy(s.hist, n, n'), msgs := s.msgs + {Campaigning(n')})
       case StartPreVote =>
         s' == s1.(campaigns := s.campaigns[campaign := PreCampaign(i, n.term, {}, true)],
                   msgs := s.msgs + {PreReq(campaign, i, n.term, |n.log|, LastStoredTerm(n))})
       case StepDown => s' == s1.(stepDowns := s.stepDowns + {i})
       case SendHeartbeat => s' == s1.(rounds := s.rounds + {Round(i, n.term, n.commit)})
       case _ => s' == s1
  }

  /** The step-down a tick asked for, made under a later lock, whatever the role is by then. */
  ghost predicate DoStepDown(s: State, s': State, i: NodeId, timeout: nat) {
    && Alive(s, i) && i in s.stepDowns
    && s' == s.(nodes := s.nodes[i := IntoFollower(s.nodes[i], s.nodes[i].term, None, timeout)])
  }

  ghost predicate OnVoteReq(s: State, s': State, i: NodeId, m: Msg, timeout: nat) {
    && Alive(s, i) && m in s.msgs && m.VoteReq? && m.candidate != i
    && var (n', granted) := HandleRequestVote(s.nodes[i], m.candidate, m.term, m.lastIndex, m.lastTerm, timeout);
    && s' == s.(nodes := s.nodes[i := n'],
                hist := if granted then CastVote(s.hist, i, m.term, m.candidate) else s.hist,
                msgs := s.msgs + {VoteResp(i, m.candidate, m.term, n'.term, granted)})
  }

  ghost predicate OnVoteResp(s: State, s': State, i: NodeId, m: Msg, timeout: nat) {
    && Alive(s, i) && m in s.msgs && m.VoteResp? && m.candidate == i
    && var n' := ProcessVoteResponse(s.nodes[i], m.reqTerm, m.voter, m.respTerm, m.granted, timeout);
    && s' == s.(nodes := s.nodes[i := n'], hist := NotePromotion(s.hist, s.nodes[i], n'))
  }

  /** A campaign task reads the tally of whatever campaign the node is in. */
  ghost predicate ReadTally(s: State, s': State, i: NodeId) {
    && Alive(s, i) && s.nodes[i].role.Candidate?
    && s' == s.(tallies := s.tallies + {(i, |s.nodes[i].role.votes|)})
  }

  /** The check after a campaign's response loop; the tally starts at the self-vote. */
  ghost predicate EndCampaign(s: State, s': State, i: NodeId, tally: nat) {
    && Alive(s, i) && (tally == 1 || (i, tally) in s.tallies)
    && var n' := FinishCampaign(s.nodes[i], tally);
    && s' == s.(nodes := s.nodes[i := n'], hist := NotePromotion(s.hist, s.nodes[i], n'))
  }

  ghost predicate OnPreReq(s: State, s': State, i: NodeId, m: Msg) {
    && Alive(s, i) && m in s.msgs && m.PreReq? && m.candidate != i
    && var granted := GrantsPreVote(s.nodes[i], m.term, m.lastIndex, m.lastTerm);
    && s' == s.(msgs := s.msgs + {PreResp(m.campaign, i, s.nodes[i].term, granted)})
  }

  /** A pre-vote campaign wins: the node becomes a candidate of its current term plus one. */
  function WinPreVote(s: State, campaign: nat, granted: set<NodeId>, timeout: nat): State
    requires campaign in s.campaigns && s.campaigns[campaign].node in s.nodes
  {
    var i := s.campaigns[campaign].node;
    var n' := IntoCandidate(s.nodes[i], timeout);
    s.(nodes := s.nodes[i := n'],
       hist := NoteCandidacy(s.hist, s.nodes[i], n'),
       msgs := s.msgs + {Campaigning(n')},
       campaigns := s.campaigns[campaign := s.campaigns[campaign].(granted := granted, open := false)],
       preVoteWinners := s.preVoteWinners + {i})
  }

  ghost predicate OnPreResp(s: State, s': State, m: Msg, timeout: nat) {
    && m in s.msgs && m.PreResp? && m.campaign in s.campaigns && s.campaigns[m.campaign].open
    && var c := s.campaigns[m.campaign];
    && Alive(s, c.node)
    && var n := s.nodes[c.node];
    && var granted := if m.granted then c.granted + {m.voter} else c.granted;
    && if m.respTerm > c.term && m.respTerm > n.term then
         s' == s.(nodes := s.nodes[c.node := IntoFollower(n, m.respTerm, None, timeout)],
                  campaigns := s.campaigns[m.campaign := c.(open := false)])
       else if m.granted && |granted| + 1 >= Majority(n) then
         s' == WinPreVote(s, m.campaign, granted, timeout)
       else
         s' == s.(campaigns := s.campaigns[m.campaign := c.(granted := granted)])
  }

  /** The check after a pre-vote response loop. */
  ghost predicate EndPreVote(s: State, s': State, campaign: nat, timeout: nat) {
    && campaign in s.campaigns && s.campaigns[campaign].open
    && var c := s.campaigns[campaign];
    && Alive(s, c.node)
    && if |c.granted| + 1 >= Majority(s.nodes[c.node])
       then s' == WinPreVote(s, campaign, c.granted, timeout)
       else s' == s.(campaigns := s.campaigns[campaign := c.(open := false)])
  }

  function TailFrom(log: seq<Entry>, prev: nat): seq<Entry> {
    if prev <= |log| then log[prev..] else []
  }

  /** A round started at once: after a proposal, or to confirm the leadership for a read. */
  ghost predicate StartRound(s: State, s': State, i: NodeId) {
    && Alive(s, i) && s.nodes[i].role.Leader?
    && s' == s.(rounds := s.rounds + {Round(i, s.nodes[i].term, s.nodes[i].commit)})
  }

  /** The request built for a peer: the round's term and commit, the sender's present log. */
  function BuildAppend(n: Node, peer: NodeId, round: Round): Msg
    requires n.role.Leader? && NextOf(n, peer) >= 1
  {
    var prev := NextOf(n, peer) - 1;
    AppReq(n.id, peer, round.term, prev, StoredTerm(n, prev), TailFrom(n.log, prev), round.commit, n.term)
  }

  ghost predicate Serves(s: State, i: NodeId, peer: NodeId, round: Round) {
    Alive(s, i) && s.nodes[i].role.Leader? && round in s.rounds && round.node == i && peer in s.nodes[i].peers
  }

  /** A peer whose next index lies above the horizon is sent entries. */
  ghost predicate SendAppend(s: State, s': State, i: NodeId, peer: NodeId, round: Round) {
    && Serves(s, i, peer, round) && NextOf(s.nodes[i], peer) > s.nodes[i].horizon
    && s' == s.(msgs := s.msgs + {BuildAppend(s.nodes[i], peer, round)})
  }

  /** Any other peer is first probed at the horizon, with the round's commit index and no entries. */
  function BuildProbe(n: Node, peer: NodeId, round: Round): Msg {
    AppReq(n.id, peer, round.term, n.horizon, TermAt(n.log, n.horizon), [], round.commit, n.term)
  }

  /** The probe. Its reply may be booked like any other here; the program looks only at its term. */
  ghost predicate SendProbe(s: State, s': State, i: NodeId, peer: NodeId, round: Round) {
    && Serves(s, i, peer, round) && NextOf(s.nodes[i], peer) <= s.nodes[i].horizon
    && s' == s.(msgs := s.msgs + {BuildProbe(s.nodes[i], peer, round)})
  }

  /** Then it is sent the snapshot at the horizon. */
  ghost predicate SendSnapshot(s: State, s': State, i: NodeId, peer: NodeId, round: Round) {
    && Serves(s, i, peer, round) && NextOf(s.nodes[i], peer) <= s.nodes[i].horizon <= |s.nodes[i].log|
    && s' == s.(msgs := s.msgs + {SnapReq(i, peer, round.term, s.nodes[i].log[..s.nodes[i].horizon], s.nodes[i].term)})
  }

  ghost predicate OnAppReq(s: State, s': State, m: Msg, timeout: nat) {
    && m in s.msgs && m.AppReq? && Alive(s, m.dst)
    && var n := s.nodes[m.dst];
    && var (n', reply) := HandleAppendEntries(n, m.leader, m.term, m.prev, m.prevTerm, m.entries, m.leaderCommit,
        timeout);
    && var s1 := s.(nodes := s.nodes[m.dst := n']);
    && if n'.role.Poisoned? then s' == s1
       else s' == s1.(
              hist := if reply.success && m.origin == m.term
                      then NoteAcks(s.hist, m.dst, m.term, n.commit, m.prev + |m.entries|) else s.hist,
              msgs := s.msgs + {AppResp(m.dst, m.leader, m.term, m.prev, |m.entries|, reply, m.origin)})
  }

  /** A crash between the two writes of an append: the conflict is cut, nothing is appended. */
  ghost predicate CrashInAppend(s: State, s': State, m: Msg, timeout: nat) {
    && m in s.msgs && m.AppReq? && Alive(s, m.dst)
    && var (n1, check) := ValidateLeaderRpc(s.nodes[m.dst], m.term, m.leader, timeout);
    && check.Valid? && n1.role.Follower? && Consistent(n1, m.prev, m.prevTerm)
    && s' == s.(nodes := s.nodes[m.dst := Restarted(CutConflict(n1, m.entries), timeout)],
                restores := RestoresBut(s, m.dst))
  }

  /** Background restores end with the process. */
  function RestoresBut(s: State, i: NodeId): set<Restore> {
    set r | r in s.restores && r.node != i
  }

  ghost predicate OnSnapReq(s: State, s': State, m: Msg, timeout: nat) {
    && m in s.msgs && m.SnapReq? && Alive(s, m.dst)
    && var (n', answered) := HandleInstallSnapshot(s.nodes[m.dst], m.leader, m.term, |m.prefix|, timeout);
    && var s1 := s.(nodes := s.nodes[m.dst := n']);
    && if n'.role.Poisoned? then s' == s1
       else s' == s1.(msgs := s.msgs + {SnapResp(m.dst, m.leader, m.term, |m.prefix|, answered)},
                      restores := if AcceptsSnapshot(s.nodes[m.dst], m.term, |m.prefix|)
                                  then s.restores + {Restore(m.dst, m.prefix)} else s.restores)
  }

  /** A restore ends, at whatever role the node has by then. */
  ghost predicate FinishRestore(s: State, s': State, r: Restore) {
    && r in s.restores && Alive(s, r.node) && |r.prefix| > s.nodes[r.node].applied
    && s' == s.(nodes := s.nodes[r.node := AfterRestore(s.nodes[r.node], r.prefix)], restores := s.restores - {r})
  }

  /** The leader's bookkeeping of a reply, with the commit check when progress was made. */
  ghost predicate Booked(n: Node, n': Node, roundTerm: nat, peer: NodeId, o: Outcome, timeout: nat) {
    var (n1, check) := RecordOutcome(n, roundTerm, peer, o, timeout);
    if check then n1.role.Leader? && exists k :: IsQuorumIndex(n1, k) && n' == CommitTo(n1, k) else n' == n1
  }

  function OutcomeOf(m: Msg): Outcome
    requires m.AppResp? || m.SnapResp?
  {
    if m.AppResp? then Appended(m.prev, m.len, m.reply) else SnapshotSent(m.horizon, m.respTerm)
  }

  ghost predicate OnReply(s: State, s': State, i: NodeId, n': Node, m: Msg, timeout: nat) {
    && Alive(s, i) && m in s.msgs && (m.AppResp? || m.SnapResp?) && m.leader == i
    && Booked(s.nodes[i], n', m.reqTerm, m.follower, OutcomeOf(m), timeout)
    && s' == s.(nodes := s.nodes[i := n'])
  }

  ghost predicate ClientPropose(s: State, s': State, i: NodeId, data: Payload) {
    && Alive(s, i) && s.nodes[i].role.Leader?
    && var n' := Propose(s.nodes[i], data);
    && s' == s.(nodes := s.nodes[i := n'], hist := NoteEntry(s.hist, n'))
  }

  ghost predicate ApplyOne(s: State, s': State, i: NodeId) {
    && Alive(s, i) && s.nodes[i].applied < s.nodes[i].commit
    && s' == s.(nodes := s.nodes[i := s.nodes[i].(applied := s.nodes[i].applied + 1)])
  }

  ghost predicate Crash(s: State, s': State, i: NodeId, timeout: nat) {
    && i in s.nodes
    && s' == s.(nodes := s.nodes[i := Restarted(s.nodes[i], timeout)], restores := RestoresBut(s, i))
  }

  /** The index was captured by an earlier tick; more may have been applied since. */
  ghost predicate StartCompaction(s: State, s': State, i: NodeId, k: nat) {
    && Alive(s, i) && s.nodes[i].horizon < k <= s.nodes[i].applied
    && s' == s.(nodes := s.nodes[i := MarkHorizon(s.nodes[i], k)])
  }

  ghost predicate FinishCompaction(s: State, s': State, i: NodeId, k: nat) {
    && i in s.nodes && k <= s.nodes[i].horizon
    && s' == s.(nodes := s.nodes[i := DropFront(s.nodes[i], k)])
  }

  /** Events that may raise a term through a candidacy. */
  ghost predicate NextCampaign(s: State, s': State) {
    || (exists i, h, t, c :: Tick(s, s', i, h, t, c))
    || (exists m, t :: OnPreResp(s, s', m, t))
    || (exists c, t :: EndPreVote(s, s', c, t))
  }

  ghost predicate NextElection(s: State, s': State) {
    || (exists i, t :: DoStepDown(s, s', i, t))
    || (exists i, m, t :: OnVoteReq(s, s', i, m, t))
    || (exists i, m, t :: OnVoteResp(s, s', i, m, t))
    || (exists i :: ReadTally(s, s', i))
    || (exists i, k :: EndCampaign(s, s', i, k))
    || (exists i, m :: OnPreReq(s, s', i, m))
  }

  ghost predicate NextSend(s: State, s': State) {
    || (exists i :: StartRound(s, s', i))
    || (exists i, p, r :: SendAppend(s, s', i, p, r))
    || (exists i, p, r :: SendProbe(s, s', i, p, r))
    || (exists i, p, r :: SendSnapshot(s, s', i, p, r))
  }

  ghost predicate NextDelivery(s: State, s': State) {
    || (exists m, t :: OnAppReq(s, s', m, t))
    || (exists m, t :: CrashInAppend(s, s', m, t))
    || (exists m, t :: OnSnapReq(s, s', m, t))
    || (exists i, n, m, t :: OnReply(s, s', i, n, m, t))
  }

  ghost predicate NextLocal(s: State, s': State) {
    || (exists i, d :: ClientPropose(s, s', i, d))
    || (exists i :: ApplyOne(s, s', i))
    || (exists r :: FinishRestore(s, s', r))
    || (exists i, k :: StartCompaction(s, s', i, k))
    || (exists i, k :: FinishCompaction(s, s', i, k))
    || (exists i, t :: Crash(s, s', i, t))
  }

  ghost predicate Next(s: State, s': State) {
    NextCampaign(s, s') || NextElection(s, s') || NextSend(s, s') || NextDelivery(s, s') || NextLocal(s, s')
  }

  ghost predicate StepAt(run: seq<State>, i: nat) {
    i + 1 < |run| ==> Next(run[i], run[i + 1])
  }

  ghost predicate Behaviour(run: seq<State>) {
    |run| > 0 && Init(run[0]) && forall i: nat :: StepAt(run, i)
  }

  // --- Three checks the program does not make ---

  /** An entry at or below the horizon does not conflict with what is stored there. */
  predicate CutsAbove(n: Node, entries: seq<Entry>) {
    forall j :: 0 <= j < |entries| && entries[j].index <= n.horizon ==> !Conflicts(n, entries[j])
  }

  /** The commit index does not pass what the request has compared. */
  predicate CommitsWithin(n: Node, m: Msg)
    requires m.AppReq?
  {
    Min(m.leaderCommit, |Reconcile(n, m.prev, m.prevTerm, m.entries, m.leaderCommit).0.log|)
      <= Max(n.commit, m.prev + |m.entries|)
  }

  /** What a follower could check before it writes. */
  predicate SafeToTake(s: State, m: Msg) {
    m.AppReq? && m.dst in s.nodes && Consistent(s.nodes[m.dst], m.prev, m.prevTerm) ==>
      CutsAbove(s.nodes[m.dst], m.entries) && CommitsWithin(s.nodes[m.dst], m)
  }

  ghost predicate CarefulSend(s: State, s': State) {
    || (exists i :: StartRound(s, s', i))
    || (exists i, p, r :: SendAppend(s, s', i, p, r))
    || (exists i, p, r :: SendProbe(s, s', i, p, r))
    || (exists i, p, r :: SendSnapshot(s, s', i, p, r) && r.term == s.nodes[i].term)
  }

  ghost predicate CarefulDelivery(s: State, s': State) {
    || (exists m, t :: OnAppReq(s, s', m, t) && SafeToTake(s, m))
    || (exists m, t :: CrashInAppend(s, s', m, t) && SafeToTake(s, m))
    || (exists m, t :: OnSnapReq(s, s', m, t))
    || (exists i, n, m, t :: OnReply(s, s', i, n, m, t))
  }

  /** A step that would pass those checks: a snapshot is sent in the term its sender leads. */
  ghost predicate CarefulNext(s: State, s': State) {
    NextCampaign(s, s') || NextElection(s, s') || CarefulSend(s, s') || CarefulDelivery(s, s') || NextLocal(s, s')
  }

  ghost predicate CarefulAt(run: seq<State>, i: nat) {
    i + 1 < |run| ==> CarefulNext(run[i], run[i + 1])
  }

  ghost predicate Careful(run: seq<State>) {
    |run| > 0 && Init(run[0]) && forall i: nat :: CarefulAt(run, i)
  }
}
