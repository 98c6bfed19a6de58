/**
 The logical node as the program runs it: fields updated in place, the role swapped by its
 transitions, loops over entries and over replies. Every method is proved to do exactly what the
 corresponding step of `Raft` says, so what is proved of all runs of the cluster is proved of it.
 A node that halts is left with the role `Poisoned`; its caller does not go on.
 */
module Engine {
  import opened Common
  import opened FsmTypes
  import opened Raft
  import opened Median
  import RaftVotes

  // --- Campaigns as a whole ---

  datatype VoteReply = VoteReply(peer: NodeId, term: nat, granted: bool)

  /** What the loop over the vote responses makes of the node, when nothing else interferes. */
  function Campaign(n: Node, term: nat, tally: nat, replies: seq<VoteReply>, timeout: nat): Node
    decreases |replies|
  {
    if replies == [] then FinishCampaign(n, tally)
    else
      var r := replies[0];
      var n1 := ProcessVoteResponse(n, term, r.peer, r.term, r.granted, timeout);
      if r.term > term || (r.granted && n1.role.Leader? && !n.role.Leader?) then n1
      else Campaign(n1, term, if n1.role.Candidate? then |n1.role.votes| else tally, replies[1..], timeout)
  }

  function Granters(replies: seq<VoteReply>): set<NodeId> {
    set i | 0 <= i < |replies| && replies[i].granted :: replies[i].peer
  }

  /** The first `k` responses neither report a later term nor fall short of a majority. */
  predicate Elects(n: Node, term: nat, replies: seq<VoteReply>, k: nat)
    requires n.role.Candidate? && k <= |replies|
  {
    && (forall i :: 0 <= i < k ==> replies[i].term <= term)
    && |n.role.votes + Granters(replies[..k])| >= Majority(n)
  }

  lemma GrantersSplit(replies: seq<VoteReply>, k: nat)
    requires 0 < k <= |replies|
    ensures Granters(replies[..k])
            == (if replies[0].granted then {replies[0].peer} else {}) + Granters(replies[1..][..k - 1])
  {
    var rest := replies[1..][..k - 1];
    forall p | p in Granters(replies[..k])
      ensures p in (if replies[0].granted then {replies[0].peer} else {}) + Granters(rest)
    {
      var i :| 0 <= i < k && replies[..k][i].granted && replies[..k][i].peer == p;
      if i > 0 { assert rest[i - 1] == replies[i]; }
    }
    forall p | p in (if replies[0].granted then {replies[0].peer} else {}) + Granters(rest)
      ensures p in Granters(replies[..k])
    {
      if replies[0].granted && p == replies[0].peer {
        assert replies[..k][0] == replies[0];
      } else {
        var i :| 0 <= i < |rest| && rest[i].granted && rest[i].peer == p;
        assert replies[..k][i + 1] == rest[i];
      }
    }
  }

  /**
   A campaign of a candidate in its own term, not yet won, makes it leader exactly when the
   distinct grants of some prefix of the responses, none of a later term, complete a majority.
   */
  lemma {:induction false} CampaignWinsOnMajority(n: Node, tally: nat, replies: seq<VoteReply>, timeout: nat)
    requires n.role.Candidate? && |n.role.votes| < Majority(n) && tally < Majority(n)
    ensures Campaign(n, n.term, tally, replies, timeout).role.Leader?
            <==> exists k :: 0 <= k <= |replies| && Elects(n, n.term, replies, k)
    decreases |replies|
  {
    if replies == [] {
      assert replies[..0] == [];
      assert n.role.votes + Granters(replies[..0]) == n.role.votes;
    } else {
      var r := replies[0];
      assert !Elects(n, n.term, replies, 0) by {
        assert n.role.votes + Granters(replies[..0]) == n.role.votes;
      }
      if r.term > n.term {
        assert forall k :: 0 < k <= |replies| ==> replies[0].term > n.term && !Elects(n, n.term, replies, k);
      } else {
        CampaignTail(n, replies, timeout);
        var n1 := ProcessVoteResponse(n, n.term, r.peer, r.term, r.granted, timeout);
        if n1.role.Leader? {
          GrantersSplit(replies, 1);
          assert n.role.votes + Granters(replies[..1]) == n.role.votes + {r.peer};
          assert Elects(n, n.term, replies, 1);
        } else {
          CampaignWinsOnMajority(n1, |n1.role.votes|, replies[1..], timeout);
        }
      }
    }
  }

  /** Counting the first response moves it from the responses into the votes. */
  lemma ElectsTail(n: Node, n1: Node, replies: seq<VoteReply>, k: nat)
    requires n.role.Candidate? && n1.role.Candidate? && Majority(n1) == Majority(n) && 0 < k <= |replies|
    requires n1.role.votes == n.role.votes + (if replies[0].granted then {replies[0].peer} else {})
    requires replies[0].term <= n.term
    ensures Elects(n, n.term, replies, k) <==> Elects(n1, n.term, replies[1..], k - 1)
  {
    GrantersSplit(replies, k);
    assert n.role.votes + Granters(replies[..k]) == n1.role.votes + Granters(replies[1..][..k - 1]);
    if Elects(n1, n.term, replies[1..], k - 1) {
      forall i | 0 <= i < k ensures replies[i].term <= n.term {
        if i > 0 { assert replies[i] == replies[1..][i - 1]; }
      }
    }
  }

  lemma CampaignTail(n: Node, replies: seq<VoteReply>, timeout: nat)
    requires n.role.Candidate? && |n.role.votes| < Majority(n) && replies != [] && replies[0].term <= n.term
    ensures var n1 := ProcessVoteResponse(n, n.term, replies[0].peer, replies[0].term, replies[0].granted, timeout);
            n1.role.Candidate? ==>
              && n1.term == n.term && Majority(n1) == Majority(n) && |n1.role.votes| < Majority(n1)
              && ((exists k :: 0 <= k <= |replies| && Elects(n, n.term, replies, k)) <==>
                  (exists k :: 0 <= k <= |replies| - 1 && Elects(n1, n.term, replies[1..], k)))
  {
    var n1 := ProcessVoteResponse(n, n.term, replies[0].peer, replies[0].term, replies[0].granted, timeout);
    if n1.role.Candidate? {
      assert !Elects(n, n.term, replies, 0) by {
        assert n.role.votes + Granters(replies[..0]) == n.role.votes;
      }
      forall k | 0 < k <= |replies| ensures Elects(n, n.term, replies, k) <==> Elects(n1, n.term, replies[1..], k - 1) {
        ElectsTail(n, n1, replies, k);
      }
      if k :| 0 <= k <= |replies| && Elects(n, n.term, replies, k) {
        assert Elects(n1, n.term, replies[1..], k - 1);
      }
      if k :| 0 <= k <= |replies| - 1 && Elects(n1, n.term, replies[1..], k) {
        assert Elects(n, n.term, replies, k + 1);
      }
    }
  }

  // --- Pre-vote campaigns as a whole ---

  datatype PreVoteEnd = PreVoteEnd(node: Node, won: bool)

  function PreVoteCampaign(n: Node, term: nat, tally: nat, replies: seq<VoteReply>, timeout: nat): PreVoteEnd
    decreases |replies|
  {
    if replies == [] then
      if tally >= Majority(n) then PreVoteEnd(IntoCandidate(n, timeout), true) else PreVoteEnd(n, false)
    else
      var r := replies[0];
      if r.term > term && r.term > n.term then PreVoteEnd(IntoFollower(n, r.term, None, timeout), false)
      else if r.granted && tally + 1 >= Majority(n) then PreVoteEnd(IntoCandidate(n, timeout), true)
      else PreVoteCampaign(n, term, if r.granted then tally + 1 else tally, replies[1..], timeout)
  }

  function GrantCount(replies: seq<VoteReply>, k: nat): nat
    requires k <= |replies|
  {
    if k == 0 then 0 else GrantCount(replies, k - 1) + (if replies[k - 1].granted then 1 else 0)
  }

  lemma {:induction false} GrantCountTail(replies: seq<VoteReply>, k: nat)
    requires 0 < k <= |replies|
    ensures GrantCount(replies, k) == (if replies[0].granted then 1 else 0) + GrantCount(replies[1..], k - 1)
  {
    if k > 1 { GrantCountTail(replies, k - 1); }
  }

  /** The first `k` responses hold no news of a later term and complete the majority. */
  predicate PreElects(n: Node, term: nat, tally: nat, replies: seq<VoteReply>, k: nat)
    requires k <= |replies|
  {
    && (forall i :: 0 <= i < k ==> replies[i].term <= term || replies[i].term <= n.term)
    && tally + GrantCount(replies, k) >= Majority(n)
  }

  lemma PreElectsTail(n: Node, term: nat, tally: nat, replies: seq<VoteReply>, k: nat)
    requires 0 < k <= |replies| && (replies[0].term <= term || replies[0].term <= n.term)
    ensures PreElects(n, term, tally, replies, k)
            <==> PreElects(n, term, if replies[0].granted then tally + 1 else tally, replies[1..], k - 1)
  {
    GrantCountTail(replies, k);
    if PreElects(n, term, if replies[0].granted then tally + 1 else tally, replies[1..], k - 1) {
      forall i | 0 <= i < k ensures replies[i].term <= term || replies[i].term <= n.term {
        if i > 0 { assert replies[i] == replies[1..][i - 1]; }
      }
    }
  }

  /**
   A pre-vote campaign is won exactly when the grants of some prefix of the responses complete a
   majority before any of them reports a term later than the campaign's and the node's own; a
   campaign that is lost never raises the term on its own account.
   */
  lemma {:induction false} PreVoteWinsOnMajority(n: Node, term: nat, tally: nat, replies: seq<VoteReply>, timeout: nat)
    requires tally < Majority(n)
    ensures var end := PreVoteCampaign(n, term, tally, replies, timeout);
            && (end.won <==> exists k :: 0 <= k <= |replies| && PreElects(n, term, tally, replies, k))
            && (end.won ==> end.node == IntoCandidate(n, timeout))
            && (!end.won ==> end.node == n
                             || exists i :: 0 <= i < |replies| && end.node
                                   == IntoFollower(n, replies[i].term, None, timeout))
    decreases |replies|
  {
    assert !PreElects(n, term, tally, replies, 0);
    if replies != [] {
      var r := replies[0];
      if r.term > term && r.term > n.term {
        assert forall k :: 0 < k <= |replies| ==> !(replies[0].term <= term || replies[0].term <= n.term)
                                                  && !PreElects(n, term, tally, replies, k);
      } else {
        var tally1 := if r.granted then tally + 1 else tally;
        forall k | 0 < k <= |replies|
          ensures PreElects(n, term, tally, replies, k) <==> PreElects(n, term, tally1, replies[1..], k - 1)
        {
          PreElectsTail(n, term, tally, replies, k);
        }
        if tally1 >= Majority(n) {
          assert PreElects(n, term, tally1, replies[1..], 0);
          assert PreElects(n, term, tally, replies, 1);
        } else {
          PreVoteRest(n, term, tally, tally1, replies, timeout);
        }
      }
    }
  }

  lemma {:induction false} PreVoteRest(n: Node, term: nat, tally: nat, tally1: nat, replies: seq<VoteReply>,
      timeout: nat)
    requires replies != [] && tally < Majority(n) && tally1
             == (if replies[0].granted then tally + 1 else tally) < Majority(n)
    requires replies[0].term <= term || replies[0].term <= n.term
    requires forall k :: 0 < k <= |replies| ==>
               (PreElects(n, term, tally, replies, k) <==> PreElects(n, term, tally1, replies[1..], k - 1))
    ensures var end := PreVoteCampaign(n, term, tally, replies, timeout);
            && (end.won <==> exists k :: 0 <= k <= |replies| && PreElects(n, term, tally, replies, k))
            && (end.won ==> end.node == IntoCandidate(n, timeout))
            && (!end.won ==> end.node == n
                             || exists i :: 0 <= i < |replies| && end.node
                                   == IntoFollower(n, replies[i].term, None, timeout))
    decreases |replies|, 0
  {
    PreVoteWinsOnMajority(n, term, tally1, replies[1..], timeout);
    var end := PreVoteCampaign(n, term, tally, replies, timeout);
    if k :| 0 <= k <= |replies[1..]| && PreElects(n, term, tally1, replies[1..], k) {
      assert PreElects(n, term, tally1, replies[1..], (k + 1) - 1);
      assert PreElects(n, term, tally, replies, k + 1);
    }
    if k :| 0 <= k <= |replies| && PreElects(n, term, tally, replies, k) {
      assert k > 0;
      assert PreElects(n, term, tally1, replies[1..], k - 1);
    }
    if i :| 0 <= i < |replies[1..]| && end.node == IntoFollower(n, replies[1..][i].term, None, timeout) {
      assert replies[i + 1] == replies[1..][i];
    }
  }

  lemma OneMoreZero(was: seq<nat>, i: nat)
    requires i < |was|
    ensures (seq(i, _ => 0) + was[i..])[i := 0] == seq(i + 1, _ => 0) + was[i + 1..]
  {
  }

  class LogicalNode {
    const id: NodeId
    const peers: set<NodeId>
    const heartbeatInterval: nat
    var term: nat
    var vote: Option<NodeId>
    var log: seq<Entry>
    var commit: nat
    var horizon: nat
    var below: seq<nat>
    var applied: nat
    var tick: nat
    var role: Role

    function Abs(): Node
      reads this
    {
      Node(id, peers, term, vote, log, commit, horizon, below, applied, tick, role)
    }

    /** A node starts as a follower of nobody, at what its stores kept; a state machine ahead of the log is refused. */
    constructor (id: NodeId, peers: set<NodeId>, interval: nat, term: nat, vote: Option<NodeId>,
                 log: seq<Entry>, commit: nat, horizon: nat, below: seq<nat>, fsmApplied: nat, timeout: nat)
      ensures Abs() == Node(id, peers, term, vote, log, commit, horizon, below, fsmApplied, 0,
                            if fsmApplied > commit then Poisoned else Follower(None, 0, timeout))
    {
      this.id, this.peers, heartbeatInterval := id, peers, interval;
      this.term, this.vote, this.log, this.commit := term, vote, log, commit;
      this.horizon, this.below := horizon, below;
      applied, tick := fsmApplied, 0;
      role := if fsmApplied > commit then Poisoned else Follower(None, 0, timeout);
    }

    // --- Role transitions ---

    method IntoFollower(newTerm: nat, leader: Option<NodeId>, timeout: nat)
      requires !role.Poisoned?
      modifies this`term, this`vote, this`role
      ensures Abs() == Raft.IntoFollower(old(Abs()), newTerm, leader, timeout)
    {
      role := Follower(leader, tick, timeout);
      if newTerm < term {
        role := Poisoned;
      } else if newTerm > term {
        term, vote := newTerm, None;
      }
    }

    method IntoCandidate(timeout: nat)
      modifies this`term, this`vote, this`role
      ensures Abs() == Raft.IntoCandidate(old(Abs()), timeout)
    {
      if role.Follower? || role.PreCandidate? || role.Candidate? {
        role := Candidate({}, tick, timeout);
        term, vote := term + 1, Some(id);
        role := role.(votes := role.votes + {id});
        assert role.votes == {id};
      }
    }

    method IntoPreCandidate()
      modifies this`role
      ensures Abs() == Raft.IntoPreCandidate(old(Abs()))
    {
      if role.Follower? {
        role := PreCandidate(tick, PRE_VOTE_CAMPAIGN_TICKS);
      }
    }

    method IntoLeader()
      modifies this`role
      ensures Abs() == Raft.IntoLeader(old(Abs()))
    {
      if role.Candidate? {
        var next := map p | p in peers :: |log| + 1;
        var matched := map p | p in peers :: 0;
        role := Leader(next, matched, tick);
      }
    }

    method ResetHeartbeat()
      modifies this`role
      ensures Abs() == Raft.ResetHeartbeat(old(Abs()))
    {
      match role
      case Follower(l, _, t) => role := Follower(l, tick, t);
      case Leader(x, m, _) => role := Leader(x, m, tick);
      case _ =>
    }

    /** One pulse of the tick loop: the clock, then the transition under the same lock. */
    method TickOnce(timeout: nat) returns (action: TickAction)
      modifies this
      ensures (Abs(), action) == Pulse(old(Abs()), heartbeatInterval, timeout)
    {
      tick := tick + 1;
      action := EvaluateTick(Abs(), heartbeatInterval);
      if action == StartElection {
        IntoCandidate(timeout);
      } else if action == StartPreVote {
        IntoPreCandidate();
      }
    }

    // --- Requests ---

    method ValidateLeaderRpcTerm(reqTerm: nat, leader: NodeId, timeout: nat) returns (check: LeaderCheck)
      requires !role.Poisoned?
      modifies this`term, this`vote, this`role
      ensures (Abs(), check) == ValidateLeaderRpc(old(Abs()), reqTerm, leader, timeout)
    {
      if reqTerm < term { return Stale; }
      if reqTerm > term {
        IntoFollower(reqTerm, Some(leader), timeout);
      } else {
        match role
        case Candidate(_, _, _) => IntoFollower(reqTerm, Some(leader), timeout);
        case PreCandidate(_, _) => IntoFollower(reqTerm, Some(leader), timeout);
        case Leader(_, _, _) => role := Poisoned;
        case Follower(_, h, t) => role := Follower(Some(leader), h, t);
        case Poisoned =>
      }
      check := Valid;
    }

    method HandleRequestVote(candidate: NodeId, reqTerm: nat, lastIndex: nat, lastTerm: nat, timeout: nat)
      returns (answer: nat, granted: bool)
      requires !role.Poisoned?
      modifies this`term, this`vote, this`role
      ensures (Abs(), granted) == Raft.HandleRequestVote(old(Abs()), candidate, reqTerm, lastIndex, lastTerm, timeout)
      ensures answer == term
    {
      granted := false;
      if reqTerm > term {
        IntoFollower(reqTerm, None, timeout);
      }
      if role.Follower? && reqTerm == term && (vote == None || vote == Some(candidate))
         && UpToDate(Abs(), lastIndex, lastTerm) {
        vote := Some(candidate);
        granted := true;
      }
      answer := term;
    }

    /** A dry run of a vote in the next term: no term, vote, role or timer moves. */
    method HandlePreVote(candidate: NodeId, reqTerm: nat, lastIndex: nat, lastTerm: nat)
      returns (answer: nat, granted: bool)
      ensures granted == GrantsPreVote(Abs(), reqTerm, lastIndex, lastTerm) && answer == term
      ensures granted <==> role.Follower? && term <= reqTerm
                           && Raft.HandleRequestVote(Abs(), candidate, reqTerm + 1, lastIndex, lastTerm, 0).1
    {
      answer := term;
      granted := role.Follower? && reqTerm >= term && UpToDate(Abs(), lastIndex, lastTerm);
    }

    /** The term read at an index: of the snapshot at the horizon, of a stored entry elsewhere. */
    function GetTermAt(index: nat): (t: nat)
      reads this
      ensures t == StoredTerm(Abs(), index)
    {
      if index == horizon then TermAt(log, index)
      else if index > horizon then TermAt(log, index)
      else if 1 <= index <= |below| then below[index - 1] else 0
    }

    /** Back truncation: the stored entries from the index on go, the snapshot stays. */
    method TruncateLog(index: nat)
      requires index >= 1
      modifies this`log, this`below
      ensures Abs() == CutAt(old(Abs()), index)
    {
      if index > horizon {
        log := log[..Min(index - 1, |log|)];
      } else {
        log := log[..Min(horizon, |log|)];
        below := below[..Min(index - 1, |below|)];
        ghost var kept := below;
        while below != [] && below[|below| - 1] == 0
          invariant log == old(log)[..Min(horizon, |old(log)|)] && Trimmed(below) == Trimmed(kept)
          decreases |below|
        {
          below := below[..|below| - 1];
        }
      }
    }

    /** The conflict scan: cut the log before the first entry of another term. */
    method CutAtConflict(entries: seq<Entry>)
      modifies this`log, this`below
      ensures Abs() == CutConflict(old(Abs()), entries)
    {
      var i := 0;
      while i < |entries|
        invariant 0 <= i <= |entries| && Abs() == old(Abs())
        invariant CutConflict(old(Abs()), entries) == CutConflict(old(Abs()), entries[i..])
      {
        var e := entries[i];
        var localTerm := GetTermAt(e.index);
        assert entries[i..][0] == e && entries[i..][1..] == entries[i + 1..];
        if localTerm != 0 && localTerm != e.term {
          TruncateLog(e.index);
          return;
        }
        i := i + 1;
      }
    }

    /** The append filter: the entries past the log's end, unless an index is skipped. */
    method CollectMissing(entries: seq<Entry>) returns (toAppend: Option<seq<Entry>>)
      ensures toAppend == Missing(entries, |log| + 1)
      ensures toAppend.Some? && toAppend.value != [] ==>
                toAppend.value[|toAppend.value| - 1].index == |log| + |toAppend.value|
    {
      var kept: seq<Entry>, next := [], |log| + 1;
      var i := 0;
      assert entries[0..] == entries && forall rest: seq<Entry> :: [] + rest == rest;
      while i < |entries|
        invariant 0 <= i <= |entries| && next == |log| + 1 + |kept|
        invariant kept != [] ==> kept[|kept| - 1].index == next - 1
        invariant Missing(entries, |log| + 1)
                  == match Missing(entries[i..], next) case Some(rest) => Some(kept + rest) case None => None
      {
        var e := entries[i];
        assert entries[i..][0] == e && entries[i..][1..] == entries[i + 1..];
        if e.index >= next {
          if e.index != next { return None; }
          ghost var before := kept;
          kept, next := kept + [e], next + 1;
          assert forall rest: seq<Entry> :: before + ([e] + rest) == kept + rest;
        }
        i := i + 1;
      }
      assert kept + [] == kept;
      toAppend := Some(kept);
    }

    method ReconcileLog(prev: nat, prevTerm: nat, entries: seq<Entry>, leaderCommit: nat) returns (ok: bool)
      modifies this`log, this`below, this`commit
      ensures (Abs(), ok) == Reconcile(old(Abs()), prev, prevTerm, entries, leaderCommit)
    {
      if prev != 0 && (prev > |log| || GetTermAt(prev) != prevTerm) { return false; }
      CutAtConflict(entries);
      RaftVotes.CutKeepsRole(old(Abs()), entries);
      var toAppend := CollectMissing(entries);
      if toAppend == None { return false; }
      var lastNew := if toAppend.value != [] then toAppend.value[|toAppend.value| - 1].index else |log|;
      if leaderCommit > commit {
        commit := Min(leaderCommit, lastNew);
      }
      log := log + toAppend.value;
      ok := true;
    }

    method HandleAppendEntries(leader: NodeId, reqTerm: nat, prev: nat, prevTerm: nat,
                               entries: seq<Entry>, leaderCommit: nat, timeout: nat) returns (reply: AppendReply)
      requires !role.Poisoned?
      modifies this
      ensures (Abs(), reply) == Raft.HandleAppendEntries(old(Abs()), leader, reqTerm, prev, prevTerm, entries,
            leaderCommit, timeout)
    {
      var current := term;
      var check := ValidateLeaderRpcTerm(reqTerm, leader, timeout);
      if check == Stale { return AppendReply(current, false, 0); }
      ResetHeartbeat();
      if role.Follower? {
        var ok := ReconcileLog(prev, prevTerm, entries, leaderCommit);
        reply := AppendReply(term, ok, |log|);
      } else {
        reply := AppendReply(term, false, 0);
      }
    }

    /** The synchronous half of a snapshot request; `accepted` starts the restoration. */
    method HandleInstallSnapshot(leader: NodeId, reqTerm: nat, lastIncluded: nat, timeout: nat) returns (answer: nat,
        accepted: bool)
      requires !role.Poisoned?
      modifies this`term, this`vote, this`role
      ensures (Abs(), answer) == Raft.HandleInstallSnapshot(old(Abs()), leader, reqTerm, lastIncluded, timeout)
      ensures accepted <==> AcceptsSnapshot(old(Abs()), reqTerm, lastIncluded)
    {
      var current := term;
      var check := ValidateLeaderRpcTerm(reqTerm, leader, timeout);
      if check == Stale || lastIncluded <= applied { return current, false; }
      ResetHeartbeat();
      answer, accepted := term, true;
    }

    /** The end of a background restore: the metadata first, then the indices; nothing is truncated. */
    method FinishRestore(prefix: seq<Entry>)
      modifies this`log, this`below, this`horizon, this`commit, this`applied
      ensures Abs() == AfterRestore(old(Abs()), prefix)
    {
      var k := |prefix|;
      below := StoredUpTo(Abs(), k);
      log := prefix + if k <= |log| then log[k..] else [];
      horizon := k;
      if k > commit { commit := k; }
      applied := k;
    }

    /** The metadata write of a compaction. */
    method StartCompaction(k: nat)
      modifies this`below, this`horizon
      ensures Abs() == MarkHorizon(old(Abs()), k)
    {
      below := StoredUpTo(Abs(), k);
      horizon := k;
    }

    /** The truncation of a compaction, entry by entry from the front. */
    method TruncateFront(k: nat)
      modifies this`below
      ensures Abs() == DropFront(old(Abs()), k)
    {
      ghost var was := below;
      if k >= |below| {
        below := [];
        return;
      }
      var i := 0;
      while i < k
        invariant 0 <= i <= k < |was| && |below| == |was|
        invariant below == seq(i, _ => 0) + was[i..]
      {
        OneMoreZero(was, i);
        below := below[i := 0];
        i := i + 1;
      }
    }

    method Propose(data: Payload) returns (index: Option<nat>)
      modifies this`log
      ensures Abs() == Raft.Propose(old(Abs()), data)
      ensures index == if role.Leader? then Some(|log|) else None
    {
      if role.Leader? {
        log := log + [Entry(|log| + 1, term, data)];
        index := Some(|log|);
      } else {
        index := None;
      }
    }

    // --- Elections ---

    method ProcessVoteResponse(campaignTerm: nat, reply: VoteReply, timeout: nat) returns (done: bool)
      requires !role.Poisoned?
      modifies this`term, this`vote, this`role
      ensures Abs() == Raft.ProcessVoteResponse(old(Abs()), campaignTerm, reply.peer, reply.term, reply.granted,
            timeout)
      ensures done <==> reply.term > campaignTerm || (reply.granted && role.Leader? && !old(role.Leader?))
    {
      if reply.term > campaignTerm {
        IntoFollower(reply.term, None, timeout);
        return true;
      }
      done := false;
      if reply.granted && role.Candidate? && term == campaignTerm {
        role := role.(votes := role.votes + {reply.peer});
        if |role.votes| >= Quorum(|peers| + 1) {
          IntoLeader();
          done := true;
        }
      }
    }

    /** The loop over the vote responses and the check after it. */
    method InitiateElection(campaignTerm: nat, replies: seq<VoteReply>, timeout: nat)
      requires !role.Poisoned?
      modifies this`term, this`vote, this`role
      ensures Abs() == Campaign(old(Abs()), campaignTerm, 1, replies, timeout)
    {
      var tally: nat := 1;
      var i := 0;
      while i < |replies|
        invariant 0 <= i <= |replies| && !role.Poisoned?
        invariant Campaign(old(Abs()), campaignTerm, 1, replies, timeout)
              == Campaign(Abs(), campaignTerm, tally, replies[i..], timeout)
      {
        assert replies[i..][0] == replies[i] && replies[i..][1..] == replies[i + 1..];
        var done := ProcessVoteResponse(campaignTerm, replies[i], timeout);
        if done { return; }
        if role.Candidate? { tally := |role.votes|; }
        i := i + 1;
      }
      if tally >= Quorum(|peers| + 1) && role.Candidate? {
        IntoLeader();
      }
    }

    /** The loop over the pre-vote responses and the check after it; the self-vote counts. */
    method InitiatePreVote(campaignTerm: nat, replies: seq<VoteReply>, timeout: nat) returns (won: bool)
      requires !role.Poisoned?
      modifies this`term, this`vote, this`role
      ensures PreVoteEnd(Abs(), won) == PreVoteCampaign(old(Abs()), campaignTerm, 1, replies, timeout)
    {
      var tally: nat := 1;
      var i := 0;
      while i < |replies|
        invariant 0 <= i <= |replies| && Abs() == old(Abs())
        invariant PreVoteCampaign(Abs(), campaignTerm, 1, replies, timeout)
                  == PreVoteCampaign(Abs(), campaignTerm, tally, replies[i..], timeout)
      {
        assert replies[i..][0] == replies[i] && replies[i..][1..] == replies[i + 1..];
        if replies[i].term > campaignTerm && replies[i].term > term {
          IntoFollower(replies[i].term, None, timeout);
          return false;
        }
        if replies[i].granted {
          tally := tally + 1;
          if tally >= Quorum(|peers| + 1) {
            IntoCandidate(timeout);
            return true;
          }
        }
        i := i + 1;
      }
      won := tally >= Quorum(|peers| + 1);
      if won {
        IntoCandidate(timeout);
      }
    }

    // --- Replication bookkeeping ---

    method ProcessReplicationResponse(roundTerm: nat, peer: NodeId, o: Outcome, timeout: nat) returns (demoted: bool)
      requires !role.Poisoned? && id !in peers
      requires role.Leader? ==> role.matchIndex.Keys == peers && peer in peers
      modifies this`term, this`vote, this`role, this`commit
      ensures var (n1, check) := RecordOutcome(old(Abs()), roundTerm, peer, o, timeout);
              if check then n1.role.Leader? && exists k :: IsQuorumIndex(n1, k) && Abs() == CommitTo(n1, k)
              else Abs() == n1
      ensures demoted <==> OutcomeTerm(o) > roundTerm
    {
      demoted := false;
      if OutcomeTerm(o) > roundTerm {
        IntoFollower(OutcomeTerm(o), None, timeout);
        return true;
      }
      if role.Leader? && term == roundTerm {
        match o
        case Appended(prev, len, reply) =>
          if reply.success {
            var matched := prev + len;
            if matched > (if peer in role.matchIndex then role.matchIndex[peer] else 0) {
              role := Leader(role.nextIndex[peer := matched + 1], role.matchIndex[peer := matched], role.lastBeat);
              assert role.matchIndex.Keys == peers;
              UpdateLastCommitted();
            }
          } else {
            var current := if peer in role.nextIndex then role.nextIndex[peer] else 1;
            if reply.lastIndex > 0 {
              role := role.(nextIndex := role.nextIndex[peer := Min(current, reply.lastIndex + 1)]);
            } else if current == 0 {
              role := Poisoned;
            } else {
              role := role.(nextIndex := role.nextIndex[peer := if current - 1 > 1 then current - 1 else 1]);
            }
          }
        case SnapshotSent(horizon, _) =>
          role := Leader(role.nextIndex[peer := horizon + 1], role.matchIndex[peer := horizon], role.lastBeat);
          assert role.matchIndex.Keys == peers;
          UpdateLastCommitted();
      }
    }

    /** The match indices, in whatever order the map yields them. */
    method CollectMatches() returns (indices: seq<nat>)
      requires role.Leader?
      ensures Lists(indices, role.matchIndex, role.matchIndex.Keys)
    {
      indices := [];
      var m := role.matchIndex;
      var rest := m.Keys;
      while rest != {}
        invariant rest <= m.Keys && Lists(indices, m, m.Keys - rest)
        decreases |rest|
      {
        var p :| p in rest;
        ListsPush(indices, m, m.Keys - rest, p);
        assert m.Keys - (rest - {p}) == m.Keys - rest + {p};
        indices := indices + [m[p]];
        rest := rest - {p};
      }
      assert m.Keys - rest == m.Keys;
    }

    /** Collect the match indices, push the own last index, sort, take the middle. */
    method UpdateLastCommitted()
      requires role.Leader? && role.matchIndex.Keys == peers && id !in peers
      modifies this`commit
      ensures exists k :: IsQuorumIndex(old(Abs()), k) && Abs() == CommitTo(old(Abs()), k)
    {
      var indices := CollectMatches();
      MedianOfHolders(Abs(), indices);
      indices := indices + [|log|];
      SortReaching(indices, 0);
      var sorted := Sort(indices);
      var median := sorted[(|sorted| - 1) / 2];
      assert IsQuorumIndex(old(Abs()), median);
      if median > commit && GetTermAt(median) == term {
        commit := median;
      }
      assert Abs() == CommitTo(old(Abs()), median);
    }
  }
}
