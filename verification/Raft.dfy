/**
 One Raft node as a value: its persistent state, its role, and what each handler does to it.
 The log is the whole logical log; entry `k` of the sequence has index `k + 1`. Up to `horizon`
 it is known through a snapshot; `below` holds the terms of the entries still stored at or below
 the horizon, 0 where none is stored. A restore leaves them as they were, so they may belong to
 another history than the snapshot.
 */
module Raft {
  import opened Common
  import opened FsmTypes

  type NodeId = nat

  datatype Entry = Entry(index: nat, term: nat, data: Payload)

  datatype Role =
    | Follower(leader: Option<NodeId>, lastHeartbeat: nat, timeout: nat)
    | PreCandidate(campaignStart: nat, timeout: nat)
    | Candidate(votes: set<NodeId>, electionStart: nat, timeout: nat)
    | Leader(nextIndex: map<NodeId, nat>, matchIndex: map<NodeId, nat>, lastBeat: nat)
    | Poisoned

  datatype Node = Node(
    id: NodeId, peers: set<NodeId>,
    term: nat, vote: Option<NodeId>, log: seq<Entry>, commit: nat,  // persistent
    horizon: nat, below: seq<nat>,                                  // persistent
    applied: nat, tick: nat, role: Role)                            // volatile

  const PRE_VOTE_CAMPAIGN_TICKS: nat := 8

  /** Votes, or replicas, that make a majority of the node's cluster. */
  function Majority(n: Node): nat {
    Quorum(|n.peers| + 1)
  }

  // --- Log queries ---

  /** The term at an index; 0 stands for "no such entry". */
  function TermAt(log: seq<Entry>, index: nat): nat {
    if 1 <= index <= |log| then log[index - 1].term else 0
  }

  function LastTerm(log: seq<Entry>): nat {
    TermAt(log, |log|)
  }

  /** The term a node reads at an index: the snapshot's at the horizon, a stored entry's elsewhere. */
  function StoredTerm(n: Node, index: nat): nat {
    if index < n.horizon then (if 1 <= index <= |n.below| then n.below[index - 1] else 0)
    else TermAt(n.log, index)
  }

  /** The last term a node reports: the last stored entry's, or else the snapshot's. */
  function LastStoredTerm(n: Node): nat {
    if |n.log| <= n.horizon && n.below != [] then n.below[|n.below| - 1] else LastTerm(n.log)
  }

  /** The candidate's log coordinates are at least as fresh as this node's. */
  predicate UpToDate(n: Node, lastIndex: nat, lastTerm: nat) {
    if lastTerm != LastStoredTerm(n) then lastTerm > LastStoredTerm(n) else lastIndex >= |n.log|
  }

  // --- Role changes ---

  function Poison(n: Node): Node {
    n.(role := Poisoned)
  }

  /** A demotion; a term below the stored one is a fatal regression. */
  function IntoFollower(n: Node, term: nat, leader: Option<NodeId>, timeout: nat): Node {
    if term < n.term then Poison(n)
    else if term > n.term then n.(term := term, vote := None, role := Follower(leader, n.tick, timeout))
    else n.(role := Follower(leader, n.tick, timeout))
  }

  predicate CanCampaign(n: Node) {
    n.role.Follower? || n.role.PreCandidate? || n.role.Candidate?
  }

  function IntoCandidate(n: Node, timeout: nat): Node {
    if CanCampaign(n)
    then n.(term := n.term + 1, vote := Some(n.id), role := Candidate({n.id}, n.tick, timeout))
    else n
  }

  function IntoPreCandidate(n: Node): Node {
    if n.role.Follower? then n.(role := PreCandidate(n.tick, PRE_VOTE_CAMPAIGN_TICKS)) else n
  }

  function FreshLeader(n: Node): Role {
    Leader(map p | p in n.peers :: |n.log| + 1, map p | p in n.peers :: 0, n.tick)
  }

  function IntoLeader(n: Node): Node {
    if n.role.Candidate? then n.(role := FreshLeader(n)) else n
  }

  function ResetHeartbeat(n: Node): Node {
    match n.role
    case Follower(l, _, t) => n.(role := Follower(l, n.tick, t))
    case Leader(x, m, _) => n.(role := Leader(x, m, n.tick))
    case _ => n
  }

  // --- The clock ---

  datatype TickAction = NoAction | StartElection | StartPreVote | StepDown | SendHeartbeat | Stop

  function Elapsed(now: nat, since: nat): nat {
    if now >= since then now - since else 0
  }

  function EvaluateTick(n: Node, heartbeatInterval: nat): TickAction {
    match n.role
    case Follower(_, since, timeout) =>
      if n.tick >= since && Elapsed(n.tick, since) >= timeout then StartPreVote else NoAction
    case PreCandidate(since, timeout) => if Elapsed(n.tick, since) >= timeout then StepDown else NoAction
    case Candidate(_, since, timeout) => if Elapsed(n.tick, since) >= timeout then StartElection else NoAction
    case Leader(_, _, since) => if Elapsed(n.tick, since) >= heartbeatInterval then SendHeartbeat else NoAction
    case Poisoned => Stop
  }

  /** One pulse of the tick loop, with the role change made under the same lock. */
  function Pulse(n: Node, heartbeatInterval: nat, timeout: nat): (Node, TickAction) {
    var n1 := n.(tick := n.tick + 1);
    var action := EvaluateTick(n1, heartbeatInterval);
    match action
    case StartElection => (IntoCandidate(n1, timeout), action)
    case StartPreVote => (IntoPreCandidate(n1), action)
    case _ => (n1, action)
  }

  // --- Votes ---

  predicate GrantsVote(n: Node, candidate: NodeId, reqTerm: nat, lastIndex: nat, lastTerm: nat) {
    && n.role.Follower? && reqTerm == n.term
    && (n.vote == None || n.vote == Some(candidate))
    && UpToDate(n, lastIndex, lastTerm)
  }

  function HandleRequestVote(n: Node, candidate: NodeId, reqTerm: nat, lastIndex: nat, lastTerm: nat,
      timeout: nat): (Node, bool) {
    var n1 := if reqTerm > n.term then IntoFollower(n, reqTerm, None, timeout) else n;
    if GrantsVote(n1, candidate, reqTerm, lastIndex, lastTerm)
    then (n1.(vote := Some(candidate)), true)
    else (n1, false)
  }

  /** The dry run answers without changing the node. */
  predicate GrantsPreVote(n: Node, reqTerm: nat, lastIndex: nat, lastTerm: nat) {
    n.role.Follower? && reqTerm >= n.term && UpToDate(n, lastIndex, lastTerm)
  }

  function ProcessVoteResponse(n: Node, campaignTerm: nat, peer: NodeId, respTerm: nat, granted: bool,
      timeout: nat): Node {
    if respTerm > campaignTerm then IntoFollower(n, respTerm, None, timeout)
    else if granted && n.role.Candidate? && n.term == campaignTerm then
      var n1 := n.(role := n.role.(votes := n.role.votes + {peer}));
      if |n1.role.votes| >= Majority(n) then IntoLeader(n1) else n1
    else n
  }

  /** The check after the response loop, on a tally read earlier. */
  function FinishCampaign(n: Node, tally: nat): Node {
    if tally >= Majority(n) && n.role.Candidate? then IntoLeader(n) else n
  }

  // --- Append entries ---

  datatype LeaderCheck = Valid | Stale

  function ValidateLeaderRpc(n: Node, reqTerm: nat, leader: NodeId, timeout: nat): (Node, LeaderCheck) {
    if reqTerm < n.term then (n, Stale)
    else if reqTerm > n.term then (IntoFollower(n, reqTerm, Some(leader), timeout), Valid)
    else match n.role
      case Candidate(_, _, _) => (IntoFollower(n, reqTerm, Some(leader), timeout), Valid)
      case PreCandidate(_, _) => (IntoFollower(n, reqTerm, Some(leader), timeout), Valid)
      case Leader(_, _, _) => (Poison(n), Valid)
      case Follower(_, h, t) => (n.(role := Follower(Some(leader), h, t)), Valid)
      case Poisoned => (n, Valid)
  }

  predicate Consistent(n: Node, prev: nat, prevTerm: nat) {
    prev == 0 || (prev <= |n.log| && StoredTerm(n, prev) == prevTerm)
  }

  predicate Conflicts(n: Node, e: Entry) {
    StoredTerm(n, e.index) != 0 && StoredTerm(n, e.index) != e.term
  }

  /** The stored terms without the absent entries at the end. */
  function Trimmed(terms: seq<nat>): seq<nat> {
    if terms == [] || terms[|terms| - 1] != 0 then terms else Trimmed(terms[..|terms| - 1])
  }

  /** A cut removes the entry at the index and all that follow; at or below the horizon that leaves the snapshot. */
  function CutAt(n: Node, index: nat): Node
    requires index >= 1
  {
    if index > n.horizon then n.(log := n.log[..Min(index - 1, |n.log|)])
    else n.(log := n.log[..Min(n.horizon, |n.log|)], below := Trimmed(n.below[..Min(index - 1, |n.below|)]))
  }

  /** The node's log cut before its first conflict with the entries offered. */
  function CutConflict(n: Node, entries: seq<Entry>): Node {
    if entries == [] then n
    else if Conflicts(n, entries[0]) then CutAt(n, entries[0].index)
    else CutConflict(n, entries[1..])
  }

  /** The entries from index `next` on, or `None` if they skip an index. */
  function Missing(entries: seq<Entry>, next: nat): Option<seq<Entry>> {
    if entries == [] then Some([])
    else if entries[0].index < next then Missing(entries[1..], next)
    else if entries[0].index > next then None
    else match Missing(entries[1..], next + 1)
      case Some(rest) => Some([entries[0]] + rest)
      case None => None
  }

  function Min(a: nat, b: nat): nat {
    if a < b then a else b
  }

  function Max(a: nat, b: nat): nat {
    if a < b then b else a
  }

  /** Log reconciliation: consistency check, conflict cut, append, commit advance capped at the log's end. */
  function Reconcile(n: Node, prev: nat, prevTerm: nat, entries: seq<Entry>, leaderCommit: nat): (Node, bool) {
    if !Consistent(n, prev, prevTerm) then (n, false)
    else
      var kept := CutConflict(n, entries);
      match Missing(entries, |kept.log| + 1)
      case None => (kept, false)
      case Some(extra) =>
        var all := kept.log + extra;
        (kept.(log := all, commit := if leaderCommit > n.commit then Min(leaderCommit, |all|) else n.commit), true)
  }

  datatype AppendReply = AppendReply(term: nat, success: bool, lastIndex: nat)

  function HandleAppendEntries(
    n: Node, leader: NodeId, reqTerm: nat, prev: nat, prevTerm: nat,
    entries: seq<Entry>, leaderCommit: nat, timeout: nat): (Node, AppendReply)
  {
    var (n1, check) := ValidateLeaderRpc(n, reqTerm, leader, timeout);
    if check.Stale? then (n1, AppendReply(n.term, false, 0))
    else
      var n2 := ResetHeartbeat(n1);
      if n2.role.Follower? then
        var (n3, ok) := Reconcile(n2, prev, prevTerm, entries, leaderCommit);
        (n3, AppendReply(n2.term, ok, |n3.log|))
      else (n2, AppendReply(n2.term, false, 0))
  }

  /** The synchronous half of a snapshot request: the role step and the term that is answered. */
  function HandleInstallSnapshot(n: Node, leader: NodeId, reqTerm: nat, horizon: nat, timeout: nat): (Node, nat) {
    var (n1, check) := ValidateLeaderRpc(n, reqTerm, leader, timeout);
    if check.Stale? || horizon <= n1.applied then (n1, n.term)
    else (ResetHeartbeat(n1), n1.term)
  }

  // --- Snapshots ---

  predicate AcceptsSnapshot(n: Node, reqTerm: nat, horizon: nat) {
    reqTerm >= n.term && horizon > n.applied
  }

  /** The terms stored at indices up to `k`, which becomes the horizon. */
  function StoredUpTo(n: Node, k: nat): seq<nat> {
    if k <= n.horizon || |n.log| <= n.horizon then n.below
    else seq(Min(k, |n.log|), j requires 0 <= j < |n.log| => StoredAt(n, j))
  }

  function StoredAt(n: Node, j: nat): nat
    requires j < |n.log|
  {
    if j >= n.horizon then n.log[j].term else if j < |n.below| then n.below[j] else 0
  }

  /**
   A finished restore of the first entries of some leader's log: the metadata and both indices
   move, the stored entries stay, so whatever lies behind the horizon stays in the log.
   */
  function AfterRestore(n: Node, prefix: seq<Entry>): Node {
    var k := |prefix|;
    n.(log := prefix + if k <= |n.log| then n.log[k..] else [],
       below := StoredUpTo(n, k), horizon := k, commit := Max(n.commit, k), applied := k)
  }

  /** The first half of a compaction: the horizon moves to an index that was applied when the task began. */
  function MarkHorizon(n: Node, k: nat): Node {
    n.(horizon := k, below := StoredUpTo(n, k))
  }

  /** The second half: the stored entries up to `k` go. */
  function DropFront(n: Node, k: nat): Node {
    n.(below := if k >= |n.below| then [] else seq(k, _ => 0) + n.below[k..])
  }

  // --- Leader bookkeeping ---

  function Propose(n: Node, data: Payload): Node {
    if n.role.Leader? then n.(log := n.log + [Entry(|n.log| + 1, n.term, data)]) else n
  }

  /** Peers and self known to hold index `k`. */
  function Holders(n: Node, k: nat): set<NodeId>
    requires n.role.Leader?
  {
    (set p | p in n.role.matchIndex && n.role.matchIndex[p] >= k) + (if |n.log| >= k then {n.id} else {})
  }

  /** `k` is the largest index held by a majority. */
  ghost predicate IsQuorumIndex(n: Node, k: nat)
    requires n.role.Leader?
  {
    && |Holders(n, k)| >= Quorum(|n.role.matchIndex| + 1)
    && forall j :: j > k ==> |Holders(n, j)| < Quorum(|n.role.matchIndex| + 1)
  }

  /** Commit advance to the quorum index, only onto an entry of the current term. */
  function CommitTo(n: Node, k: nat): Node {
    if n.role.Leader? && k > n.commit && StoredTerm(n, k) == n.term then n.(commit := k) else n
  }

  datatype Outcome =
    | Appended(prev: nat, len: nat, reply: AppendReply)
    | SnapshotSent(horizon: nat, respTerm: nat)

  function OutcomeTerm(o: Outcome): nat {
    match o case Appended(_, _, r) => r.term case SnapshotSent(_, t) => t
  }

  function NextOf(n: Node, peer: NodeId): nat
    requires n.role.Leader?
  {
    if peer in n.role.nextIndex then n.role.nextIndex[peer] else 1
  }

  function MatchOf(n: Node, peer: NodeId): nat
    requires n.role.Leader?
  {
    if peer in n.role.matchIndex then n.role.matchIndex[peer] else 0
  }

  function SetNext(n: Node, peer: NodeId, next: nat): Node
    requires n.role.Leader?
  {
    n.(role := n.role.(nextIndex := n.role.nextIndex[peer := next]))
  }

  function SetProgress(n: Node, peer: NodeId, matched: nat): Node
    requires n.role.Leader?
  {
    n.(role := n.role.(nextIndex := n.role.nextIndex[peer := matched + 1],
                       matchIndex := n.role.matchIndex[peer := matched]))
  }

  /** The new probe position after a rejection; `None` is an underflow, which is fatal. */
  function BackedOff(current: nat, peerLast: nat): Option<nat> {
    if peerLast > 0 then Some(Min(current, peerLast + 1))
    else if current == 0 then None
    else Some(if current - 1 > 1 then current - 1 else 1)
  }

  /** The bookkeeping of a replication reply, and whether a commit check follows. */
  function RecordOutcome(n: Node, roundTerm: nat, peer: NodeId, o: Outcome, timeout: nat): (Node, bool) {
    if OutcomeTerm(o) > roundTerm then (IntoFollower(n, OutcomeTerm(o), None, timeout), false)
    else if !n.role.Leader? || n.term != roundTerm then (n, false)
    else match o
      case Appended(prev, len, reply) =>
        if reply.success then
          if prev + len > MatchOf(n, peer) then (SetProgress(n, peer, prev + len), true) else (n, false)
        else
          (match BackedOff(NextOf(n, peer), reply.lastIndex)
           case Some(next) => (SetNext(n, peer, next), false)
           case None => (Poison(n), false))
      case SnapshotSent(horizon, _) => (SetProgress(n, peer, horizon), true)
  }

  // --- Restart ---

  /** What survives a crash; recovery has replayed the store up to the commit index. */
  function Restarted(n: Node, timeout: nat): Node {
    n.(applied := n.commit, tick := 0, role := Follower(None, 0, timeout))
  }
}
