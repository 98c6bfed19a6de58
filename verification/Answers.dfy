/**
 What a node answers, and what the answers do to the one who asked: votes are granted by an exact rule and
 granted again when asked again, and any answer of a node in a later term deposes the sender.
 */
module Answers {
  import opened Common
  import opened Raft
  import opened PreVoteLogs

  // --- Votes ---

  /** The rule of a vote, by the terms, the vote cast before, and the coordinates of the two logs. */
  predicate MayVote(n: Node, candidate: NodeId, reqTerm: nat, lastIndex: nat, lastTerm: nat) {
    && (reqTerm > n.term
        || (reqTerm == n.term && n.role.Follower? && (n.vote == None || n.vote == Some(candidate))))
    && NoLessUpToDate(lastIndex, lastTerm, n)
  }

  /**
   A vote is granted exactly by that rule; the node ends in the greater of the two terms, and what it has
   voted in that term is this candidate if it granted, and what it was before, if anything, if not.
   */
  lemma VoteIsExact(n: Node, candidate: NodeId, reqTerm: nat, lastIndex: nat, lastTerm: nat, timeout: nat)
    ensures var (n', granted) := HandleRequestVote(n, candidate, reqTerm, lastIndex, lastTerm, timeout);
            && (granted <==> MayVote(n, candidate, reqTerm, lastIndex, lastTerm))
            && n'.term == Max(n.term, reqTerm)
            && n'.vote == (if granted then Some(candidate) else if reqTerm > n.term then None else n.vote)
            && n'.role == (if reqTerm > n.term then Follower(None, n.tick, timeout) else n.role)
            && n' == n.(term := n'.term, vote := n'.vote, role := n'.role)
  {
  }

  /** A candidate that asks again, because the answer was lost, is granted again, and nothing moves. */
  lemma VoteIsRepeated(n: Node, candidate: NodeId, reqTerm: nat, lastIndex: nat, lastTerm: nat, timeout: nat)
    requires HandleRequestVote(n, candidate, reqTerm, lastIndex, lastTerm, timeout).1
    ensures var n' := HandleRequestVote(n, candidate, reqTerm, lastIndex, lastTerm, timeout).0;
            && HandleRequestVote(n', candidate, reqTerm, lastIndex, lastTerm, timeout) == (n', true)
            && forall other, li, lt :: other != candidate ==>
                 HandleRequestVote(n', other, reqTerm, li, lt, timeout) == (n', false)
  {
  }

  // --- Late senders ---

  /** A follower in the term, of nobody, with its vote to give. */
  predicate DeposedBy(n: Node, n': Node, term: nat, timeout: nat) {
    n' == n.(term := term, vote := None, role := Follower(None, n.tick, timeout))
  }

  /** A request of a leader to a node of a later term changes nothing there, and the answer deposes the leader. */
  lemma LateLeaderIsDeposed(n: Node, v: Node, prev: nat, prevTerm: nat, entries: seq<Entry>, commit: nat, timeout: nat)
    requires n.term < v.term
    ensures var (v', reply) := HandleAppendEntries(v, n.id, n.term, prev, prevTerm, entries, commit, timeout);
            && v' == v && !reply.success
            && var (n', check) := RecordOutcome(n, n.term, v.id, Appended(prev, |entries|, reply), timeout);
            && !check && DeposedBy(n, n', v.term, timeout)
  {
  }

  lemma LateSnapshotIsRefused(n: Node, v: Node, horizon: nat, timeout: nat)
    requires n.term < v.term
    ensures !AcceptsSnapshot(v, n.term, horizon)
    ensures var (v', answered) := HandleInstallSnapshot(v, n.id, n.term, horizon, timeout);
            && v' == v
            && var (n', check) := RecordOutcome(n, n.term, v.id, SnapshotSent(horizon, answered), timeout);
            && !check && DeposedBy(n, n', v.term, timeout)
  {
  }

  /** The same of a candidate that asks a node of a later term for its vote. */
  lemma LateCandidateIsDeposed(n: Node, v: Node, lastIndex: nat, lastTerm: nat, timeout: nat)
    requires n.term < v.term
    ensures var (v', granted) := HandleRequestVote(v, n.id, n.term, lastIndex, lastTerm, timeout);
            && v' == v && !granted
            && DeposedBy(n, ProcessVoteResponse(n, n.term, v.id, v'.term, granted, timeout), v.term, timeout)
  {
  }

  /** A snapshot request is answered with the term the node ends in if it is accepted, else with its own before. */
  lemma SnapshotAnswer(v: Node, leader: NodeId, reqTerm: nat, horizon: nat, timeout: nat)
    requires !v.role.Poisoned? && (v.role.Leader? ==> reqTerm != v.term)
    ensures var (v', answered) := HandleInstallSnapshot(v, leader, reqTerm, horizon, timeout);
            && v'.term == Max(v.term, reqTerm)
            && answered == (if AcceptsSnapshot(v, reqTerm, horizon) then v'.term else v.term)
            && (AcceptsSnapshot(v, reqTerm, horizon) <==> reqTerm >= v.term && horizon > v.applied)
            && (reqTerm >= v.term ==> v'.role.Follower? && v'.role.leader == Some(leader))
  {
  }

  // --- Progress ---

  /** What one success makes of the progress of its peer: the furthest end that it has confirmed. */
  lemma SuccessConfirmsTheEnd(n: Node, peer: NodeId, prev: nat, len: nat, reply: AppendReply, timeout: nat)
    requires n.role.Leader? && reply.success && reply.term <= n.term
    ensures var (n', check) := RecordOutcome(n, n.term, peer, Appended(prev, len, reply), timeout);
            && n'.role.Leader? && MatchOf(n', peer) == Max(MatchOf(n, peer), prev + len)
            && (check <==> prev + len > MatchOf(n, peer)) && (check ==> NextOf(n', peer) == prev + len + 1)
            && (!check ==> n' == n)
            && forall p :: p != peer ==> MatchOf(n', p) == MatchOf(n, p) && NextOf(n', p) == NextOf(n, p)
  {
  }

  /** A finished snapshot counts for its horizon, even where a later success had been confirmed before. */
  lemma SnapshotConfirmsItsHorizon(n: Node, peer: NodeId, horizon: nat, answered: nat, timeout: nat)
    requires n.role.Leader? && answered <= n.term
    ensures var (n', check) := RecordOutcome(n, n.term, peer, SnapshotSent(horizon, answered), timeout);
            && check && n'.role.Leader? && MatchOf(n', peer) == horizon && NextOf(n', peer) == horizon + 1
            && forall p :: p != peer ==> MatchOf(n', p) == MatchOf(n, p) && NextOf(n', p) == NextOf(n, p)
  {
  }
}
