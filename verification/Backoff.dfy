/** How a leader probes for the point where a peer's log agrees with its own. */
module Backoff {
  import opened Common
  import opened FsmTypes
  import opened Raft

  /**
   A rejected probe moves the leader's next index back exactly when the peer's log ends before the
   probed position. A peer that does hold the probed index, under another term, reports its last
   index; that never lies below the probe, so the leader repeats the very same probe.
   */
  lemma RejectedProbeMovesOnlyPastTheEnd(
    l: Node, f: Node, peer: NodeId, prevTerm: nat, entries: seq<Entry>, leaderCommit: nat, timeout: nat)
    requires l.role.Leader? && NextOf(l, peer) >= 2 && f.role.Follower? && f.term == l.term
    requires !Consistent(f, NextOf(l, peer) - 1, prevTerm)
    ensures var (f', reply) := HandleAppendEntries(f, l.id, l.term, NextOf(l, peer) - 1, prevTerm, entries,
          leaderCommit, timeout);
            var (l', check) := RecordOutcome(l, l.term, peer, Appended(NextOf(l, peer) - 1, |entries|, reply), timeout);
            && !reply.success && f'.log == f.log && f'.commit == f.commit && !check && l'.role.Leader?
            && (NextOf(l', peer) < NextOf(l, peer) <==> |f.log| < NextOf(l, peer) - 1)
            && (|f.log| >= NextOf(l, peer) - 1 ==> NextOf(l', peer) == NextOf(l, peer))
            && (0 < |f.log| < NextOf(l, peer) - 1 ==> NextOf(l', peer) == |f.log| + 1)
            && (|f.log| == 0 ==> NextOf(l', peer) == NextOf(l, peer) - 1)
  {
  }

  /** The peer holds the probed index under another term, and the leader still probes with entries. */
  predicate Stuck(l: Node, f: Node, peer: NodeId) {
    && l.role.Leader? && peer in l.role.nextIndex && f.role.Follower? && f.term == l.term
    && l.horizon < l.role.nextIndex[peer] && 1 <= l.role.nextIndex[peer] - 1 <= |f.log|
    && StoredTerm(f, l.role.nextIndex[peer] - 1) != StoredTerm(l, l.role.nextIndex[peer] - 1)
  }

  /** One exchange of a probe and its answer, seen by both. */
  function Exchange(l: Node, f: Node, peer: NodeId, timeout: nat): (Node, Node)
    requires Stuck(l, f, peer)
  {
    var prev := NextOf(l, peer) - 1;
    var entries := if prev <= |l.log| then l.log[prev..] else [];
    var (f', reply) := HandleAppendEntries(f, l.id, l.term, prev, StoredTerm(l, prev), entries, l.commit, timeout);
    (RecordOutcome(l, l.term, peer, Appended(prev, |entries|, reply), timeout).0, f')
  }

  lemma ExchangeChangesNothing(l: Node, f: Node, peer: NodeId, timeout: nat)
    requires Stuck(l, f, peer)
    ensures var (l', f') := Exchange(l, f, peer, timeout);
            l' == l && Stuck(l, f', peer) && f'.log == f.log && f'.commit == f.commit
  {
    assert l.role.nextIndex[peer := l.role.nextIndex[peer]] == l.role.nextIndex;
  }

  /** Any number of exchanges, while the leader does not compact. */
  function Exchanges(l: Node, f: Node, peer: NodeId, timeout: nat, k: nat): (r: (Node, Node))
    requires Stuck(l, f, peer)
    decreases k
  {
    if k == 0 then (l, f)
    else
      ExchangeChangesNothing(l, f, peer, timeout);
      var (l', f') := Exchange(l, f, peer, timeout);
      Exchanges(l', f', peer, timeout, k - 1)
  }

  lemma ExchangesStep(l: Node, f: Node, f1: Node, peer: NodeId, timeout: nat, k: nat)
    requires Stuck(l, f, peer) && Stuck(l, f1, peer) && k > 0 && Exchange(l, f, peer, timeout) == (l, f1)
    ensures Exchanges(l, f, peer, timeout, k) == Exchanges(l, f1, peer, timeout, k - 1)
  {
  }

  /**
   The repeated probe: as long as the probed position lies above the leader's horizon, a leader and a
   peer whose entry there has another term come to no agreement, however often they talk. Only a
   compaction of the leader ends it: once its horizon reaches the next index it sends a snapshot.
   */
  lemma {:induction false} ConflictIsProbedForEver(l: Node, f: Node, peer: NodeId, timeout: nat, k: nat)
    requires Stuck(l, f, peer)
    ensures var (l', f') := Exchanges(l, f, peer, timeout, k);
            l' == l && f'.log == f.log && f'.commit == f.commit && Stuck(l', f', peer)
    decreases k
  {
    if k > 0 {
      ExchangeChangesNothing(l, f, peer, timeout);
      var f1 := Exchange(l, f, peer, timeout).1;
      ExchangesStep(l, f, f1, peer, timeout, k);
      ConflictIsProbedForEver(l, f1, peer, timeout, k - 1);
    }
  }
}
