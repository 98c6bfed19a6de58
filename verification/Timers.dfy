/**
 The clock of a node: when it does what if it is left alone, and what puts that off. A follower's
 timer runs from the last request of its leader, the timers of campaigns from their start. The timer
 of a leader runs from its election and is never set again: past its first interval the leader begins a
 round at every pulse.
 */
module Timers {
  import opened Common
  import opened Raft
  import opened Cluster
  import RaftVotes

  /** The node after `k` pulses and nothing else. */
  function LeftAlone(n: Node, interval: nat, timeout: nat, k: nat): Node {
    if k == 0 then n else Pulse(LeftAlone(n, interval, timeout, k - 1), interval, timeout).0
  }

  /** What the `k`-th of these pulses asks for. */
  function AskedBy(n: Node, interval: nat, timeout: nat, k: nat): TickAction
    requires k >= 1
  {
    Pulse(LeftAlone(n, interval, timeout, k - 1), interval, timeout).1
  }

  /** When the role's timer was set, and for how long. */
  function SetAt(n: Node): nat {
    match n.role
    case Follower(_, beat, _) => beat
    case PreCandidate(start, _) => start
    case Candidate(_, start, _) => start
    case Leader(_, _, beat) => beat
    case Poisoned => 0
  }

  function Span(n: Node, interval: nat): nat {
    match n.role
    case Follower(_, _, timeout) => timeout
    case PreCandidate(_, timeout) => timeout
    case Candidate(_, _, timeout) => timeout
    case Leader(_, _, _) => interval
    case Poisoned => 0
  }

  /** What a timer that has run out asks for. */
  function Alarm(role: Role): TickAction {
    match role
    case Follower(_, _, _) => StartPreVote
    case PreCandidate(_, _) => StepDown
    case Candidate(_, _, _) => StartElection
    case Leader(_, _, _) => SendHeartbeat
    case Poisoned => Stop
  }

  /** The pulse, counted from now, at which the timer has run out; the next one at the earliest. */
  function DueIn(n: Node, interval: nat): (k: nat)
    ensures k >= 1 && n.tick + k >= SetAt(n) + Span(n, interval)
    ensures k > 1 ==> n.tick + k == SetAt(n) + Span(n, interval)
  {
    if SetAt(n) + Span(n, interval) <= n.tick + 1 then 1 else SetAt(n) + Span(n, interval) - n.tick
  }

  /** The timer was not set in the future; a follower's may have been, before a restart of its clock. */
  predicate TimerSet(n: Node) {
    n.role.Follower? || SetAt(n) <= n.tick
  }

  lemma {:induction false} QuietUntilDue(n: Node, interval: nat, timeout: nat, k: nat)
    requires TimerSet(n) && !n.role.Poisoned? && k < DueIn(n, interval)
    ensures LeftAlone(n, interval, timeout, k) == n.(tick := n.tick + k)
    ensures k >= 1 ==> AskedBy(n, interval, timeout, k) == NoAction
  {
    if k > 0 { QuietUntilDue(n, interval, timeout, k - 1); }
  }

  /**
   Left alone, a node does nothing until its timer has run out, and in that very pulse asks for what its
   role asks for: a follower turns pre-candidate for eight pulses, a candidate starts the next term.
   */
  lemma FirstAlarm(n: Node, interval: nat, timeout: nat)
    requires TimerSet(n) && !n.role.Poisoned?
    ensures forall k :: 1 <= k < DueIn(n, interval) ==> AskedBy(n, interval, timeout, k) == NoAction
    ensures AskedBy(n, interval, timeout, DueIn(n, interval)) == Alarm(n.role)
    ensures var now := n.tick + DueIn(n, interval);
            LeftAlone(n, interval, timeout, DueIn(n, interval))
            == match n.role
               case Follower(_, _, _) => n.(tick := now, role := PreCandidate(now, 8))
               case Candidate(_, _, _) =>
                 n.(tick := now, term := n.term + 1, vote := Some(n.id), role := Candidate({n.id}, now, timeout))
               case _ => n.(tick := now)
  {
    forall k | 1 <= k < DueIn(n, interval) ensures AskedBy(n, interval, timeout, k) == NoAction {
      QuietUntilDue(n, interval, timeout, k);
    }
    QuietUntilDue(n, interval, timeout, DueIn(n, interval) - 1);
  }

  /** The rounds of a leader: none before its first interval is over, then one at every pulse. */
  lemma {:induction false} LeaderBeats(n: Node, interval: nat, timeout: nat, k: nat)
    requires n.role.Leader? && TimerSet(n) && k >= 1
    ensures LeftAlone(n, interval, timeout, k) == n.(tick := n.tick + k)
    ensures AskedBy(n, interval, timeout, k)
            == if n.tick + k >= n.role.lastBeat + interval then SendHeartbeat else NoAction
  {
    if k > 1 { LeaderBeats(n, interval, timeout, k - 1); }
  }

  // --- What keeps a follower quiet ---

  /** A pulse, or a request of another node that does not come from a later term. */
  datatype Event =
    | Clock
    | Append(leader: NodeId, term: nat, prev: nat, prevTerm: nat, entries: seq<Entry>, leaderCommit: nat)
    | Snapshot(leader: NodeId, term: nat, horizon: nat)
    | Vote(candidate: NodeId, term: nat, lastIndex: nat, lastTerm: nat)

  function Receive(n: Node, e: Event, interval: nat, timeout: nat): Node {
    match e
    case Clock => Pulse(n, interval, timeout).0
    case Append(l, t, p, pt, es, c) => HandleAppendEntries(n, l, t, p, pt, es, c, timeout).0
    case Snapshot(l, t, h) => HandleInstallSnapshot(n, l, t, h, timeout).0
    case Vote(c, t, li, lt) => HandleRequestVote(n, c, t, li, lt, timeout).0
  }

  /** Some pulse along the way starts a pre-vote. */
  predicate StartsPreVote(n: Node, events: seq<Event>, interval: nat, timeout: nat)
    decreases |events|
  {
    events != []
    && ((events[0].Clock? && Pulse(n, interval, timeout).1 == StartPreVote)
        || StartsPreVote(Receive(n, events[0], interval, timeout), events[1..], interval, timeout))
  }

  /** The leader of the node's term is heard from: with entries or without, or with state the node lacks. */
  predicate IsBeat(e: Event, term: nat, applied: nat) {
    (e.Append? && e.term == term) || (e.Snapshot? && e.term == term && e.horizon > applied)
  }

  /** After `waited` pulses without a beat, some stretch without one grows to `timeout` pulses. */
  predicate GoesUnheard(events: seq<Event>, waited: nat, timeout: nat, term: nat, applied: nat)
    decreases |events|
  {
    events != []
    && if events[0].Clock?
       then waited + 1 >= timeout || GoesUnheard(events[1..], waited + 1, timeout, term, applied)
       else GoesUnheard(events[1..], if IsBeat(events[0], term, applied) then 0 else waited, timeout, term, applied)
  }

  predicate NotLater(events: seq<Event>, term: nat) {
    forall i :: 0 <= i < |events| && !events[i].Clock? ==> events[i].term <= term
  }

  lemma ReceiveKeepsFollower(n: Node, e: Event, interval: nat, timeout: nat)
    requires n.role.Follower? && n.role.lastHeartbeat <= n.tick && !e.Clock? && e.term <= n.term
    ensures var n' := Receive(n, e, interval, timeout);
            && n'.role.Follower? && n'.role.timeout == n.role.timeout && n'.term == n.term && n'.tick == n.tick
            && n'.applied == n.applied
            && n'.role.lastHeartbeat == if IsBeat(e, n.term, n.applied) then n.tick else n.role.lastHeartbeat
  {
    if e.Append? {
      var n2 := ResetHeartbeat(ValidateLeaderRpc(n, e.term, e.leader, timeout).0);
      RaftVotes.ReconcileKeepsRole(n2, e.prev, e.prevTerm, e.entries, e.leaderCommit);
    }
  }

  /**
   A follower starts a pre-vote if and only if it goes unheard for its timeout: a beat of its leader within
   every `timeout - 1` pulses holds it back, and nothing else does, neither requests of earlier terms nor
   votes, granted or not.
   */
  lemma {:induction false} UnheardStartsPreVote(n: Node, events: seq<Event>, interval: nat, timeout: nat)
    requires n.role.Follower? && n.role.lastHeartbeat <= n.tick && NotLater(events, n.term)
    ensures StartsPreVote(n, events, interval, timeout)
            <==> GoesUnheard(events, n.tick - n.role.lastHeartbeat, n.role.timeout, n.term, n.applied)
    decreases |events|
  {
    if events != [] {
      var n' := Receive(n, events[0], interval, timeout);
      assert NotLater(events[1..], n.term);
      if events[0].Clock? {
        if n.tick + 1 - n.role.lastHeartbeat < n.role.timeout {
          assert n' == n.(tick := n.tick + 1);
          UnheardStartsPreVote(n', events[1..], interval, timeout);
        }
      } else {
        ReceiveKeepsFollower(n, events[0], interval, timeout);
        UnheardStartsPreVote(n', events[1..], interval, timeout);
      }
    }
  }

  // --- Timers along a run ---

  /** The node has taken up a role, or has begun to campaign for another term. */
  predicate RoleBegins(n: Node, n': Node) {
    || (n'.role.Follower? && !n.role.Follower?) || (n'.role.PreCandidate? && !n.role.PreCandidate?)
    || (n'.role.Candidate? && !(n.role.Candidate? && n.term == n'.term)) || (n'.role.Leader? && !n.role.Leader?)
  }

  /**
   A timer is set when its role begins, to the present pulse; otherwise it stays, except that a follower
   may be heard of at the present pulse, or start over after a crash.
   */
  predicate TimerStep(n: Node, n': Node) {
    n'.role.Poisoned?
    || (if RoleBegins(n, n') then SetAt(n') == n'.tick
        else if n'.role.Follower? then SetAt(n') == n'.tick || SetAt(n') == SetAt(n)
        else SetAt(n') == SetAt(n) && n.tick <= n'.tick)
  }

  /** Node `i` alone moves, as a timer may. */
  ghost predicate Moves(s: State, s': State, i: NodeId) {
    i in s.nodes && i in s'.nodes && s'.nodes == s.nodes[i := s'.nodes[i]] && TimerStep(s.nodes[i], s'.nodes[i])
  }

  lemma PulseTimer(n: Node, interval: nat, timeout: nat)
    ensures TimerStep(n, Pulse(n, interval, timeout).0)
  {
  }

  lemma RoleTimers(n: Node, term: nat, leader: Option<NodeId>, timeout: nat)
    ensures TimerStep(n, IntoFollower(n, term, leader, timeout)) && TimerStep(n, IntoCandidate(n, timeout))
    ensures TimerStep(n, IntoLeader(n)) && TimerStep(n, Restarted(n, timeout))
  {
  }

  lemma VoteTimer(n: Node, candidate: NodeId, term: nat, lastIndex: nat, lastTerm: nat, timeout: nat)
    ensures TimerStep(n, HandleRequestVote(n, candidate, term, lastIndex, lastTerm, timeout).0)
  {
  }

  lemma TallyTimer(n: Node, campaign: nat, peer: NodeId, term: nat, granted: bool, tally: nat, timeout: nat)
    ensures TimerStep(n, ProcessVoteResponse(n, campaign, peer, term, granted, timeout))
    ensures TimerStep(n, FinishCampaign(n, tally))
  {
  }

  lemma RequestTimer(n: Node, m: Msg, timeout: nat)
    requires m.AppReq?
    ensures TimerStep(n, HandleAppendEntries(n, m.leader, m.term, m.prev, m.prevTerm, m.entries, m.leaderCommit,
                timeout).0)
  {
    var n2 := ResetHeartbeat(ValidateLeaderRpc(n, m.term, m.leader, timeout).0);
    RaftVotes.ReconcileKeepsRole(n2, m.prev, m.prevTerm, m.entries, m.leaderCommit);
  }

  lemma SnapshotTimer(n: Node, leader: NodeId, term: nat, horizon: nat, timeout: nat)
    ensures TimerStep(n, HandleInstallSnapshot(n, leader, term, horizon, timeout).0)
  {
  }

  lemma RecordTimer(n: Node, roundTerm: nat, peer: NodeId, o: Outcome, timeout: nat)
    ensures var n' := RecordOutcome(n, roundTerm, peer, o, timeout).0;
            TimerStep(n, n') && (n'.role.Leader? ==> n.role.Leader? && SetAt(n') == SetAt(n) && n'.tick == n.tick)
  {
  }

  lemma BookedTimer(n: Node, n': Node, roundTerm: nat, peer: NodeId, o: Outcome, timeout: nat)
    requires Booked(n, n', roundTerm, peer, o, timeout)
    ensures TimerStep(n, n')
  {
    RecordTimer(n, roundTerm, peer, o, timeout);
  }

  lemma TickMoves(s: State, s': State, i: NodeId, interval: nat, timeout: nat, campaign: nat)
    requires Tick(s, s', i, interval, timeout, campaign)
    ensures Moves(s, s', i)
  {
    PulseTimer(s.nodes[i], interval, timeout);
    assert s'.nodes == s.nodes[i := Pulse(s.nodes[i], interval, timeout).0];
  }

  lemma PreRespMoves(s: State, s': State, m: Msg, timeout: nat)
    requires OnPreResp(s, s', m, timeout)
    ensures Moves(s, s', s.campaigns[m.campaign].node)
  {
    RoleTimers(s.nodes[s.campaigns[m.campaign].node], m.respTerm, None, timeout);
  }

  lemma CampaignMoves(s: State, s': State) returns (i: NodeId)
    requires NextCampaign(s, s')
    ensures Moves(s, s', i)
  {
    if j, h, t, c :| Tick(s, s', j, h, t, c) {
      i := j;
      TickMoves(s, s', i, h, t, c);
    } else if m, t :| OnPreResp(s, s', m, t) {
      i := s.campaigns[m.campaign].node;
      PreRespMoves(s, s', m, t);
    } else {
      var c, t :| EndPreVote(s, s', c, t);
      i := s.campaigns[c].node;
      RoleTimers(s.nodes[i], 0, None, t);
    }
  }

  lemma ElectionMoves(s: State, s': State) returns (i: NodeId)
    requires NextElection(s, s')
    ensures Moves(s, s', i)
  {
    if j, t :| DoStepDown(s, s', j, t) {
      i := j;
      RoleTimers(s.nodes[i], s.nodes[i].term, None, t);
    } else if j, m, t :| OnVoteReq(s, s', j, m, t) {
      i := j;
      VoteTimer(s.nodes[i], m.candidate, m.term, m.lastIndex, m.lastTerm, t);
    } else if j, m, t :| OnVoteResp(s, s', j, m, t) {
      i := j;
      TallyTimer(s.nodes[i], m.reqTerm, m.voter, m.respTerm, m.granted, 0, t);
    } else if j :| ReadTally(s, s', j) {
      i := j;
    } else if j, k :| EndCampaign(s, s', j, k) {
      i := j;
      TallyTimer(s.nodes[i], 0, 0, 0, false, k, 0);
    } else {
      var j, m :| OnPreReq(s, s', j, m);
      i := j;
    }
  }

  lemma DeliveryMoves(s: State, s': State) returns (i: NodeId)
    requires NextDelivery(s, s')
    ensures Moves(s, s', i)
  {
    if m, t :| OnAppReq(s, s', m, t) {
      i := m.dst;
      RequestTimer(s.nodes[i], m, t);
    } else if m, t :| CrashInAppend(s, s', m, t) {
      i := m.dst;
      assert s'.nodes[i].role.Follower?;
    } else if m, t :| OnSnapReq(s, s', m, t) {
      i := m.dst;
      SnapshotTimer(s.nodes[i], m.leader, m.term, |m.prefix|, t);
    } else {
      var j, n, m, t :| OnReply(s, s', j, n, m, t);
      i := j;
      BookedTimer(s.nodes[i], n, m.reqTerm, m.follower, OutcomeOf(m), t);
    }
  }

  lemma LocalMoves(s: State, s': State) returns (i: NodeId)
    requires NextLocal(s, s')
    ensures Moves(s, s', i)
  {
    if j, d :| ClientPropose(s, s', j, d) {
      i := j;
    } else if j :| ApplyOne(s, s', j) {
      i := j;
    } else if r :| FinishRestore(s, s', r) {
      i := r.node;
    } else if j, k :| StartCompaction(s, s', j, k) {
      i := j;
    } else if j, k :| FinishCompaction(s, s', j, k) {
      i := j;
    } else {
      var j, t :| Crash(s, s', j, t);
      i := j;
    }
  }

  lemma StepTimers(s: State, s': State, a: NodeId)
    requires Next(s, s') && a in s'.nodes
    ensures a in s.nodes && TimerStep(s.nodes[a], s'.nodes[a])
  {
    if NextCampaign(s, s') {
      var i := CampaignMoves(s, s');
    } else if NextElection(s, s') {
      var i := ElectionMoves(s, s');
    } else if NextDelivery(s, s') {
      var i := DeliveryMoves(s, s');
    } else if NextLocal(s, s') {
      var i := LocalMoves(s, s');
    }
  }

  lemma StepAlong(run: seq<State>, i: nat, a: NodeId)
    requires Behaviour(run) && i + 1 < |run| && a in run[i + 1].nodes
    ensures a in run[i].nodes && TimerStep(run[i].nodes[a], run[i + 1].nodes[a])
  {
    assert StepAt(run, i);
    StepTimers(run[i], run[i + 1], a);
  }

  /** In every run a role's timer is set to the very pulse at which the role begins. */
  lemma RolesStartTheirTimers(run: seq<State>, i: nat, a: NodeId)
    requires Behaviour(run) && i + 1 < |run| && a in run[i + 1].nodes
    ensures a in run[i].nodes
    ensures RoleBegins(run[i].nodes[a], run[i + 1].nodes[a]) ==> SetAt(run[i + 1].nodes[a]) == run[i + 1].nodes[a].tick
  {
    StepAlong(run, i, a);
  }

  lemma InitialTimers(run: seq<State>, a: NodeId)
    requires Behaviour(run) && a in run[0].nodes
    ensures TimerSet(run[0].nodes[a])
  {
  }

  /** And so is never set in the future: what `FirstAlarm` and `LeaderBeats` suppose holds along every run. */
  lemma {:induction false} TimersAreSet(run: seq<State>, i: nat, a: NodeId)
    requires Behaviour(run) && i < |run| && a in run[i].nodes
    ensures TimerSet(run[i].nodes[a])
  {
    if i == 0 {
      InitialTimers(run, a);
    } else {
      StepAlong(run, i - 1, a);
      TimersAreSet(run, i - 1, a);
    }
  }

  ghost predicate LeadsThroughout(run: seq<State>, i: nat, j: nat, a: NodeId) {
    forall k :: i <= k <= j && k < |run| ==> a in run[k].nodes && run[k].nodes[a].role.Leader?
  }

  /** While a node leads, its timer stays where its election has set it. */
  lemma {:induction false} LeaderTimerStays(run: seq<State>, i: nat, j: nat, a: NodeId)
    requires Behaviour(run) && i <= j < |run| && LeadsThroughout(run, i, j, a)
    ensures run[j].nodes[a].role.lastBeat == run[i].nodes[a].role.lastBeat
    decreases j
  {
    if i < j {
      StepAlong(run, j - 1, a);
      LeaderTimerStays(run, i, j - 1, a);
    }
  }
}
