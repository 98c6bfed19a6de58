/**
 The promises of sections 5.2 to 5.4 of the Raft paper. What concerns terms, votes and roles holds of
 every run of the cluster; what concerns logs holds of every careful run.
 */
module RaftSafety {
  import opened Common
  import opened FsmTypes
  import opened Raft
  import opened Cluster
  import opened RaftVotes
  import opened RaftInv
  import opened RaftQuiet
  import opened RaftAppend
  import opened RaftNet
  import opened RaftEvents

  lemma {:induction false} CarefulIsBehaviour(run: seq<State>)
    requires Careful(run)
    ensures Behaviour(run)
  {
    forall i: nat ensures StepAt(run, i) {
      assert CarefulAt(run, i);
      if i + 1 < |run| { CarefulIsNext(run[i], run[i + 1]); }
    }
  }

  lemma {:induction false} Reachable(run: seq<State>, i: nat)
    requires Careful(run) && i < |run|
    ensures Inv(run[i])
  {
    if i == 0 {
      InitKeeps(run[0]);
    } else {
      Reachable(run, i - 1);
      assert CarefulAt(run, i - 1);
      NextKeeps(run[i - 1], run[i]);
    }
  }

  lemma StepGrows(run: seq<State>, i: nat)
    requires Careful(run) && i + 1 < |run|
    ensures Grow(run[i].nodes, run[i].hist, run[i + 1].nodes, run[i + 1].hist)
  {
    Reachable(run, i);
    assert CarefulAt(run, i);
    NextKeeps(run[i], run[i + 1]);
  }

  lemma {:induction false} GrowsAlong(run: seq<State>, i: nat, j: nat)
    requires Careful(run) && i <= j < |run|
    ensures Grow(run[i].nodes, run[i].hist, run[j].nodes, run[j].hist)
    decreases j
  {
    if i == j {
      GrowRefl(run[i].nodes, run[i].hist);
    } else {
      GrowsAlong(run, i, j - 1);
      StepGrows(run, j - 1);
      GrowTrans(run[i].nodes, run[i].hist, run[j - 1].nodes, run[j - 1].hist, run[j].nodes, run[j].hist);
    }
  }

  // --- Election safety ---

  /** No term ever has two leaders, at whatever two moments of a run. */
  lemma ElectionSafety(run: seq<State>, i: nat, j: nat, a: NodeId, b: NodeId)
    requires Behaviour(run) && i <= j < |run|
    requires a in run[i].nodes && run[i].nodes[a].role.Leader?
    requires b in run[j].nodes && run[j].nodes[b].role.Leader?
    requires run[i].nodes[a].term == run[j].nodes[b].term
    ensures a == b
  {
    FairAlong(run, i);
    FairAlong(run, j);
    VotesGrowAlong(run, i, j);
  }

  lemma LeaderIsRecorded(s: State, a: NodeId)
    requires Inv(s) && a in s.nodes && s.nodes[a].role.Leader?
    ensures var t := s.nodes[a].term; t in s.hist.leaderLog && LogOf(s.hist, t) == s.nodes[a].log
  {
  }

  /** A leader only ever appends to its log, whatever it restores meanwhile. */
  lemma LeaderOnlyAppends(run: seq<State>, i: nat, j: nat, a: NodeId)
    requires Careful(run) && i <= j < |run|
    requires a in run[i].nodes && run[i].nodes[a].role.Leader?
    requires a in run[j].nodes && run[j].nodes[a].role.Leader?
    requires run[i].nodes[a].term == run[j].nodes[a].term
    ensures run[i].nodes[a].log <= run[j].nodes[a].log
  {
    var t := run[i].nodes[a].term;
    Reachable(run, i);
    Reachable(run, j);
    LeaderIsRecorded(run[i], a);
    LeaderIsRecorded(run[j], a);
    GrowsAlong(run, i, j);
    assert LogOf(run[i].hist, t) <= LogOf(run[j].hist, t);
  }

  /**
   In a cluster of several nodes a candidate's tally stays below the quorum, so the promotion
   after the response loop, which looks at neither the term nor the present tally, never fires.
   */
  lemma LatePromotionNeedsALoneNode(run: seq<State>, i: nat, a: NodeId, tally: nat)
    requires Behaviour(run) && i < |run| && a in run[i].nodes && |run[i].nodes.Keys| > 1
    requires tally == 1 || (a, tally) in run[i].tallies
    ensures FinishCampaign(run[i].nodes[a], tally) == run[i].nodes[a]
    ensures run[i].nodes[a].role.Candidate? ==> |run[i].nodes[a].role.votes| < Majority(run[i].nodes[a])
  {
    FairAlong(run, i);
    Majorities(run[i].nodes, a);
    assert CandidateOk(run[i].nodes, run[i].hist, a);
    if tally >= Majority(run[i].nodes[a]) {
      LoopEndsShort(run[i], a, tally);
    }
  }

  /** Terms never go back, through crashes as well. */
  lemma TermsNeverGoBack(run: seq<State>, i: nat, j: nat, a: NodeId)
    requires Behaviour(run) && i <= j < |run| && a in run[i].nodes
    ensures a in run[j].nodes && run[i].nodes[a].term <= run[j].nodes[a].term
  {
    VotesGrowAlong(run, i, j);
  }

  // --- Logs ---

  lemma CommittedHere(s: State, a: NodeId)
    requires Inv(s) && a in s.nodes
    ensures CommitOk(s.nodes, s.hist, s.nodes[a].log, s.nodes[a].commit, s.nodes[a].term)
    ensures s.nodes[a].commit <= |s.nodes[a].log|
  {
    CommitIsInLog(s.nodes, s.hist, s.nodes[a].log, s.nodes[a].commit, s.nodes[a].term);
  }

  /** A committed entry and an equal term elsewhere: the logs are equal up to there. */
  lemma MatchesCommitted(ns: Nodes, h: History, a: Node, b: Node, k: nat)
    requires LeaderLogsOk(ns, h) && LeadersSafe(ns, h) && TailFits(h, b) && b.commit <= |b.log|
    requires CommitOk(ns, h, a.log, a.commit, a.term) && CommitOk(ns, h, b.log, b.commit, b.term)
    requires k < a.commit && k < |b.log| && a.commit <= |a.log| && a.log[k].term == b.log[k].term
    ensures a.log[..k + 1] == b.log[..k + 1]
  {
    if k < b.commit {
      CommittedAgree(ns, h, a.log, a.commit, a.term, b.log, b.commit, b.term, k + 1);
    } else {
      var t := a.log[k].term;
      CommittedAgree(ns, h, a.log, a.commit, a.term, b.log, b.commit, b.term, b.commit);
      SettledTracks(ns, h, a.log, a.commit, a.term);
      assert TracksAt(h, a.log[..a.commit], k);
      assert a.log[..k + 1] == a.log[..a.commit][..k + 1] == LogOf(h, t)[..k + 1];
      TailMatches(ns, h, b, k);
      forall j | 0 <= j <= k ensures a.log[j] == b.log[j] {
        if j < b.commit {
          assert a.log[j] == a.log[..b.commit][j] == b.log[..b.commit][j];
        } else {
          assert a.log[j] == a.log[..k + 1][j];
        }
      }
    }
  }

  /** The tail up to an entry is that of the leader of the entry's term. */
  lemma TailMatches(ns: Nodes, h: History, n: Node, k: nat)
    requires LeaderLogsOk(ns, h) && TailFits(h, n) && n.commit <= k < |n.log|
    ensures k < |LogOf(h, n.log[k].term)|
    ensures forall j :: n.commit <= j <= k ==> n.log[j] == LogOf(h, n.log[k].term)[..k + 1][j]
  {
    var tail := LogOf(h, LastTerm(n.log));
    TailEntry(h, n, k);
    LeaderEntryIsOwn(ns, h, LastTerm(n.log), k);
    forall j | n.commit <= j <= k ensures n.log[j] == LogOf(h, n.log[k].term)[..k + 1][j] {
      TailEntry(h, n, j);
      assert tail[..k + 1][j] == tail[j];
    }
  }

  /** Equal up to the commit index and an equal term behind it: equal up to there. */
  lemma TailsMatch(ns: Nodes, h: History, a: Node, b: Node, k: nat)
    requires LeaderLogsOk(ns, h) && TailFits(h, a) && TailFits(h, b) && b.commit <= a.commit <= k < |a.log|
    requires k < |b.log|
    requires a.log[k].term == b.log[k].term && a.log[..a.commit] == b.log[..a.commit]
    ensures a.log[..k + 1] == b.log[..k + 1]
  {
    TailMatches(ns, h, a, k);
    TailMatches(ns, h, b, k);
    forall j | 0 <= j <= k ensures a.log[j] == b.log[j] {
      if j < a.commit { assert a.log[j] == a.log[..a.commit][j] == b.log[..a.commit][j]; }
    }
  }

  lemma DifferBefore(a: seq<Entry>, b: seq<Entry>, c: nat, k: nat)
    requires 0 < c <= k < |a| && k < |b| && a[c - 1].term != b[c - 1].term
    ensures a[..k + 1] != b[..k + 1]
  {
    assert a[..k + 1][c - 1] == a[c - 1] && b[..k + 1][c - 1] == b[c - 1];
  }

  /** Log matching at one moment, of two nodes of which `a` has committed at least as much. */
  lemma Matches(ns: Nodes, h: History, a: Node, b: Node, k: nat)
    requires LeaderLogsOk(ns, h) && LeadersSafe(ns, h) && TailFits(h, a) && TailFits(h, b)
    requires CommitOk(ns, h, a.log, a.commit, a.term) && CommitOk(ns, h, b.log, b.commit, b.term)
    requires b.commit <= a.commit <= |a.log| && b.commit <= |b.log|
    requires k < |a.log| && k < |b.log| && a.log[k].term == b.log[k].term
    ensures a.log[..k + 1] == b.log[..k + 1] <==> k < a.commit || TermAt(a.log, a.commit) == TermAt(b.log, a.commit)
  {
    var c := a.commit;
    if k < c {
      MatchesCommitted(ns, h, a, b, k);
    } else {
      MatchesBehind(ns, h, a, b, k);
    }
  }

  lemma MatchesBehind(ns: Nodes, h: History, a: Node, b: Node, k: nat)
    requires LeaderLogsOk(ns, h) && LeadersSafe(ns, h) && TailFits(h, a) && TailFits(h, b)
    requires CommitOk(ns, h, a.log, a.commit, a.term) && CommitOk(ns, h, b.log, b.commit, b.term)
    requires b.commit <= a.commit <= k < |a.log| && k < |b.log| && a.log[k].term == b.log[k].term
    ensures a.log[..k + 1] == b.log[..k + 1] <==> TermAt(a.log, a.commit) == TermAt(b.log, a.commit)
  {
    if TermAt(a.log, a.commit) == TermAt(b.log, a.commit) {
      MatchesThrough(ns, h, a, b, k);
    } else {
      DifferBefore(a.log, b.log, a.commit, k);
    }
  }

  lemma MatchesThrough(ns: Nodes, h: History, a: Node, b: Node, k: nat)
    requires LeaderLogsOk(ns, h) && LeadersSafe(ns, h) && TailFits(h, a) && TailFits(h, b)
    requires CommitOk(ns, h, a.log, a.commit, a.term) && CommitOk(ns, h, b.log, b.commit, b.term)
    requires b.commit <= a.commit <= k < |a.log| && k < |b.log| && a.log[k].term == b.log[k].term
    requires TermAt(a.log, a.commit) == TermAt(b.log, a.commit)
    ensures a.log[..k + 1] == b.log[..k + 1]
  {
    if a.commit > 0 { MatchesCommitted(ns, h, a, b, a.commit - 1); }
    TailsMatch(ns, h, a, b, k);
  }

  lemma ReachableLogs(run: seq<State>, i: nat, a: NodeId)
    requires Careful(run) && i < |run| && a in run[i].nodes
    ensures LeaderLogsOk(run[i].nodes, run[i].hist) && LeadersSafe(run[i].nodes, run[i].hist)
    ensures var n := run[i].nodes[a];
            TailFits(run[i].hist, n) && CommitOk(run[i].nodes, run[i].hist, n.log, n.commit, n.term)
            && n.commit <= |n.log|
  {
    Reachable(run, i);
    CommittedHere(run[i], a);
    assert TailFits(run[i].hist, run[i].nodes[a]);
  }

  /**
   Log matching: two logs with the same term at an index are equal up to that index, exactly when
   the index is committed at one of them or they have the same term at the further of the two
   commit indices. The second condition fails only for a log restored over another history.
   */
  lemma LogMatchingHolds(run: seq<State>, i: nat, a: NodeId, b: NodeId, k: nat)
    requires Careful(run) && i < |run| && a in run[i].nodes && b in run[i].nodes
    requires k < |run[i].nodes[a].log| && k < |run[i].nodes[b].log|
    requires run[i].nodes[a].log[k].term == run[i].nodes[b].log[k].term
    ensures var x, y := run[i].nodes[a], run[i].nodes[b];
            var c := Max(x.commit, y.commit);
            x.log[..k + 1] == y.log[..k + 1] <==> k < c || TermAt(x.log, c) == TermAt(y.log, c)
  {
    var s := run[i];
    var x, y := s.nodes[a], s.nodes[b];
    ReachableLogs(run, i, a);
    ReachableLogs(run, i, b);
    if x.commit >= y.commit {
      Matches(s.nodes, s.hist, x, y, k);
    } else {
      Matches(s.nodes, s.hist, y, x, k);
    }
  }

  /** Terms and commit indices never go back, through crashes and restores as well. */
  lemma NothingGoesBack(run: seq<State>, i: nat, j: nat, a: NodeId)
    requires Careful(run) && i <= j < |run| && a in run[i].nodes
    ensures a in run[j].nodes && run[i].nodes[a].term <= run[j].nodes[a].term
    ensures run[i].nodes[a].commit <= run[j].nodes[a].commit
  {
    GrowsAlong(run, i, j);
    assert NodeGrows(run[i].nodes[a], run[j].nodes[a]);
  }

  // --- Committed entries ---

  /** State machine safety: what any two nodes ever commit agrees, at whatever two moments. */
  lemma StateMachineSafety(run: seq<State>, i: nat, j: nat, a: NodeId, b: NodeId, k: nat)
    requires Careful(run) && i <= j < |run| && a in run[i].nodes && b in run[j].nodes
    requires k <= run[i].nodes[a].commit && k <= run[j].nodes[b].commit
    ensures k <= |run[i].nodes[a].log| && k <= |run[j].nodes[b].log|
    ensures run[i].nodes[a].log[..k] == run[j].nodes[b].log[..k]
  {
    Reachable(run, i);
    Reachable(run, j);
    CommittedHere(run[i], a);
    CommittedHere(run[j], b);
    GrowsAlong(run, i, j);
    var x, y := run[i].nodes[a], run[j].nodes[b];
    CommitOkStable(run[i].nodes, run[i].hist, run[j].nodes, run[j].hist, x.log, x.commit, x.term);
    CommittedAgree(run[j].nodes, run[j].hist, x.log, x.commit, x.term, y.log, y.commit, y.term, k);
  }

  /** What a node has committed lies within what the leader of some term up to the node's own has had chosen. */
  lemma CommittedWasChosen(run: seq<State>, i: nat, a: NodeId) returns (t: nat, k: nat)
    requires Careful(run) && i < |run| && a in run[i].nodes && run[i].nodes[a].commit > 0
    ensures t <= run[i].nodes[a].term && Chosen(run[i].nodes, run[i].hist, t, k)
    ensures var x := run[i].nodes[a];
            && x.commit <= |x.log| && x.commit <= k <= |LogOf(run[i].hist, t)|
            && x.log[..x.commit] == LogOf(run[i].hist, t)[..x.commit]
  {
    Reachable(run, i);
    CommittedHere(run[i], a);
    var x := run[i].nodes[a];
    t, k :| t <= x.term && Backed(run[i].nodes, run[i].hist, x.log, x.commit, t, k);
  }

  /**
   Leader completeness: what a quorum has acknowledged of one leader's log, up to an entry of that
   leader's own term, is the beginning of exactly those leaders' logs, then and later, whose term is
   not less.
   */
  lemma LeaderCompleteness(run: seq<State>, i: nat, j: nat, t: nat, k: nat, b: NodeId)
    requires Careful(run) && i <= j < |run| && Chosen(run[i].nodes, run[i].hist, t, k)
    requires b in run[j].nodes && run[j].nodes[b].role.Leader?
    ensures k <= |LogOf(run[i].hist, t)|
    ensures LogOf(run[i].hist, t)[..k] <= run[j].nodes[b].log <==> t <= run[j].nodes[b].term
  {
    GrowsAlong(run, i, j);
    ChosenStable(run[i].nodes, run[i].hist, run[j].nodes, run[j].hist, t, k);
    assert LogOf(run[i].hist, t) <= LogOf(run[j].hist, t);
    assert LogOf(run[i].hist, t)[..k] == LogOf(run[j].hist, t)[..k];
    ChosenAtLeader(run, j, t, k, b);
  }

  lemma ChosenAtLeader(run: seq<State>, j: nat, t: nat, k: nat, b: NodeId)
    requires Careful(run) && j < |run| && Chosen(run[j].nodes, run[j].hist, t, k)
    requires b in run[j].nodes && run[j].nodes[b].role.Leader?
    ensures LogOf(run[j].hist, t)[..k] <= run[j].nodes[b].log <==> t <= run[j].nodes[b].term
  {
    Reachable(run, j);
    LeaderIsRecorded(run[j], b);
    ChosenInLeaderLog(run[j].nodes, run[j].hist, t, k, run[j].nodes[b].term);
  }

  lemma ChosenInLeaderLog(ns: Nodes, h: History, t: nat, k: nat, u: nat)
    requires LeaderLogsOk(ns, h) && LeadersSafe(ns, h) && Chosen(ns, h, t, k) && u in h.leaderLog
    ensures LogOf(h, t)[..k] <= LogOf(h, u) <==> t <= u
  {
    if t <= u {
      ChosenIsCarried(ns, h, t, k, u);
    } else {
      EarlierLeaderLacks(ns, h, t, k, u);
    }
  }

  lemma EarlierLeaderLacks(ns: Nodes, h: History, t: nat, k: nat, u: nat)
    requires LeaderLogsOk(ns, h) && Own(h, t, k) && u < t && u in h.leaderLog
    ensures !(LogOf(h, t)[..k] <= LogOf(h, u))
  {
    assert LeaderLogOk(h, u);
    if k <= |LogOf(h, u)| {
      assert LogOf(h, u)[..k][k - 1].term <= u < LogOf(h, t)[..k][k - 1].term;
    }
  }

  /** So a leader's log begins with whatever any node of its term or an earlier one has committed before. */
  lemma LeadersHoldCommitted(run: seq<State>, i: nat, j: nat, a: NodeId, b: NodeId)
    requires Careful(run) && i <= j < |run| && a in run[i].nodes && b in run[j].nodes
    requires run[j].nodes[b].role.Leader? && run[i].nodes[a].term <= run[j].nodes[b].term
    ensures run[i].nodes[a].commit <= |run[i].nodes[a].log|
    ensures run[i].nodes[a].log[..run[i].nodes[a].commit] <= run[j].nodes[b].log
  {
    var x := run[i].nodes[a];
    if x.commit > 0 {
      var t, k := CommittedWasChosen(run, i, a);
      LeaderCompleteness(run, i, j, t, k, b);
      assert x.log[..x.commit] == LogOf(run[i].hist, t)[..k][..x.commit];
    }
  }

  /** Entries a node applied are the ones every other node applies at the same indices. */
  lemma AppliedEntriesAgree(run: seq<State>, i: nat, j: nat, a: NodeId, b: NodeId)
    requires Careful(run) && i <= j < |run| && a in run[i].nodes && b in run[j].nodes
    requires run[i].nodes[a].applied == run[j].nodes[b].applied
    ensures run[i].nodes[a].applied <= |run[i].nodes[a].log| && run[j].nodes[b].applied <= |run[j].nodes[b].log|
    ensures run[i].nodes[a].log[..run[i].nodes[a].applied] == run[j].nodes[b].log[..run[j].nodes[b].applied]
  {
    Reachable(run, i);
    Reachable(run, j);
    NodeIsOrdered(run[i].nodes, run[i].hist, a);
    NodeIsOrdered(run[j].nodes, run[j].hist, b);
    StateMachineSafety(run, i, j, a, b, run[i].nodes[a].applied);
  }

  // --- One committed log ---

  ghost predicate CommittedPrefix(n: Node, c: seq<Entry>) {
    n.commit <= |n.log| && n.log[..n.commit] <= c
  }

  /** The longest committed prefix of any node; every other node's is a prefix of it. */
  ghost predicate IsCommittedLog(s: State, c: seq<Entry>) {
    && (forall a :: a in s.nodes ==> CommittedPrefix(s.nodes[a], c))
    && exists a :: a in s.nodes && s.nodes[a].commit == |c|
  }

  lemma {:induction false} FurthestNode(s: State, ids: set<NodeId>) returns (a: NodeId)
    requires ids != {} && ids <= s.nodes.Keys
    ensures a in ids && forall b :: b in ids ==> s.nodes[b].commit <= s.nodes[a].commit
    decreases |ids|
  {
    var x :| x in ids;
    if ids == {x} {
      a := x;
    } else {
      var y := FurthestNode(s, ids - {x});
      a := if s.nodes[x].commit > s.nodes[y].commit then x else y;
    }
  }

  /** At every moment of a run the cluster has one committed log. */
  lemma CommittedLogExists(run: seq<State>, i: nat) returns (c: seq<Entry>)
    requires Careful(run) && i < |run| && run[i].nodes.Keys != {}
    ensures IsCommittedLog(run[i], c)
  {
    var a := FurthestNode(run[i], run[i].nodes.Keys);
    c := CommittedOf(run, i, a);
    forall b | b in run[i].nodes ensures CommittedPrefix(run[i].nodes[b], c) {
      PrefixOfFurther(run, i, a, b);
    }
    assert a in run[i].nodes && run[i].nodes[a].commit == |c|;
  }

  lemma CommittedOf(run: seq<State>, i: nat, a: NodeId) returns (c: seq<Entry>)
    requires Careful(run) && i < |run| && a in run[i].nodes
    ensures run[i].nodes[a].commit <= |run[i].nodes[a].log| && c == run[i].nodes[a].log[..run[i].nodes[a].commit]
  {
    Reachable(run, i);
    CommittedHere(run[i], a);
    c := run[i].nodes[a].log[..run[i].nodes[a].commit];
  }

  lemma PrefixOfFurther(run: seq<State>, i: nat, a: NodeId, b: NodeId)
    requires Careful(run) && i < |run| && a in run[i].nodes && b in run[i].nodes
    requires run[i].nodes[b].commit <= run[i].nodes[a].commit <= |run[i].nodes[a].log|
    ensures CommittedPrefix(run[i].nodes[b], run[i].nodes[a].log[..run[i].nodes[a].commit])
  {
    var x, y := run[i].nodes[a], run[i].nodes[b];
    StateMachineSafety(run, i, i, a, b, y.commit);
    assert x.log[..x.commit][..y.commit] == x.log[..y.commit];
  }

  /** And it only ever grows: the replicas are fed one append-only log. */
  lemma CommittedLogOnlyGrows(run: seq<State>, i: nat, j: nat, c: seq<Entry>, c': seq<Entry>)
    requires Careful(run) && i <= j < |run| && IsCommittedLog(run[i], c) && IsCommittedLog(run[j], c')
    ensures c <= c'
  {
    var a :| a in run[i].nodes && run[i].nodes[a].commit == |c|;
    NothingGoesBack(run, i, j, a);
    StateMachineSafety(run, i, j, a, a, |c|);
    var x, y := run[i].nodes[a], run[j].nodes[a];
    assert CommittedPrefix(x, c) && CommittedPrefix(y, c');
    assert c == x.log[..|c|];
    assert y.log[..|c|] == y.log[..y.commit][..|c|] == c'[..|c|];
  }

  // --- What the checks are about ---

  /** Of one request, at a node that meets it: what of the new commit is the source's. */
  lemma CommittedAsOffered(h: History, n: Node, source: seq<Entry>, m: Msg)
    requires m.AppReq? && Meets(h, n, source) && Offers(source, m.prev, m.prevTerm, m.entries)
    requires Consistent(n, m.prev, m.prevTerm) && CutsAbove(n, m.entries) && n.commit < m.leaderCommit <= |source|
    ensures var (n', ok) := Reconcile(n, m.prev, m.prevTerm, m.entries, m.leaderCommit);
            && ok && n'.commit == Min(m.leaderCommit, |n'.log|) <= |source|
            && (n'.log[..n'.commit] == source[..n'.commit]
                <==> n'.commit <= m.prev + |m.entries| || TermAt(n.log, n'.commit) == TermAt(source, n'.commit))
  {
    ReconcileMerges(h, n, source, m.prev, m.prevTerm, m.entries, m.leaderCommit);
    var n' := Reconcile(n, m.prev, m.prevTerm, m.entries, m.leaderCommit).0;
    var k, c := m.prev + |m.entries|, n'.commit;
    MergeKeepsAgreement(n.log, source, k, n'.log, n.commit);
    if c <= k {
      assert n'.log[..c] == n'.log[..k][..c] == source[..k][..c] == source[..c];
    } else {
      assert n'.log == n.log && c >= 1;
      if n.log[c - 1].term == source[c - 1].term {
        AgreeUpTo(h, n, source, c);
      } else {
        assert n.log[..c][c - 1] == n.log[c - 1] && source[..c][c - 1] == source[c - 1];
      }
    }
  }

  lemma GuardsSuffice(h: History, n: Node, source: seq<Entry>, m: Msg)
    requires m.AppReq? && Meets(h, n, source) && Offers(source, m.prev, m.prevTerm, m.entries)
    requires Consistent(n, m.prev, m.prevTerm) && n.below == []
    ensures CutsAbove(n, m.entries)
    ensures m.leaderCommit <= m.prev + |m.entries| || |n.log| <= m.prev + |m.entries| ==> CommitsWithin(n, m)
  {
    OfferIsIndexed(h, source, m.prev, m.prevTerm, m.entries);
    forall j | 0 <= j < |m.entries| && m.entries[j].index <= n.horizon ensures !Conflicts(n, m.entries[j]) {
      if m.entries[j].index == n.horizon {
        assert n.log[n.horizon - 1] == n.log[..n.commit][n.horizon - 1] == source[..n.commit][n.horizon - 1];
        assert m.entries[j] == source[m.prev..m.prev + |m.entries|][j] == source[n.horizon - 1];
      }
    }
    ReconcileMerges(h, n, source, m.prev, m.prevTerm, m.entries, m.leaderCommit);
  }

  lemma CutLosesTheRest(h: History, n: Node, source: seq<Entry>, m: Msg)
    requires m.AppReq? && Meets(h, n, source) && Offers(source, m.prev, m.prevTerm, m.entries)
    requires Consistent(n, m.prev, m.prevTerm) && !CutsAbove(n, m.entries)
    ensures var (n', ok) := Reconcile(n, m.prev, m.prevTerm, m.entries, m.leaderCommit);
            var reach := Max(n.horizon, m.prev + |m.entries|);
            && ok && n'.log == source[..reach]
            && (n.commit <= |n'.log| <==> n.commit <= reach)
  {
    OfferIsIndexed(h, source, m.prev, m.prevTerm, m.entries);
    CutLeavesTheHorizon(n, m.entries, m.prev);
    MissingIsTail(m.entries, m.prev, n.horizon + 1);
    assert n.log[..n.horizon] == n.log[..n.commit][..n.horizon] == source[..n.commit][..n.horizon]
           == source[..n.horizon];
    SegmentsJoin(source, n.horizon, m.prev, m.entries);
  }

  lemma CutLeavesTheHorizon(n: Node, entries: seq<Entry>, base: nat)
    requires Indexed(entries, base) && !CutsAbove(n, entries) && n.horizon <= |n.log|
    ensures base < n.horizon && CutConflict(n, entries).log == n.log[..n.horizon]
  {
    var c := CutAtFirstConflict(n, entries, base);
    FirstConflictIsBelow(n, entries, base, c);
  }

  lemma SegmentsJoin(source: seq<Entry>, horizon: nat, prev: nat, entries: seq<Entry>)
    requires prev < horizon <= |source| && prev + |entries| <= |source| && entries == source[prev..prev + |entries|]
    ensures source[..horizon] + (if horizon - prev <= |entries| then entries[horizon - prev..] else [])
            == source[..Max(horizon, prev + |entries|)]
  {
    if horizon - prev <= |entries| {
      assert entries[horizon - prev..] == source[horizon..prev + |entries|];
    }
  }

  lemma FirstConflictIsBelow(n: Node, entries: seq<Entry>, base: nat, c: nat)
    requires Indexed(entries, base) && c <= |entries| && NoConflict(n, entries, c) && !CutsAbove(n, entries)
    ensures c < |entries| && base + c + 1 <= n.horizon
  {
    var j :| 0 <= j < |entries| && entries[j].index <= n.horizon && Conflicts(n, entries[j]);
    assert c <= j;
  }

  /** A request in flight that its receiver will reconcile with its log. */
  ghost predicate Deliverable(s: State, m: Msg) {
    && m in s.msgs && m.AppReq? && Alive(s, m.dst) && s.nodes[m.dst].term <= m.term
    && Consistent(s.nodes[m.dst], m.prev, m.prevTerm)
  }

  /** The log of the leader that built the request, in the term it led by then. */
  function SenderLog(s: State, m: Msg): seq<Entry>
    requires m.AppReq?
  {
    LogOf(s.hist, m.origin)
  }

  /** What every request of a careful run brings, and meets. */
  lemma RequestMeets(run: seq<State>, i: nat, m: Msg)
    requires Careful(run) && i < |run| && Deliverable(run[i], m)
    ensures Meets(run[i].hist, run[i].nodes[m.dst], SenderLog(run[i], m))
    ensures Offers(SenderLog(run[i], m), m.prev, m.prevTerm, m.entries) && m.leaderCommit <= |SenderLog(run[i], m)|
  {
    Reachable(run, i);
    RequestOffers(run[i], m);
    NodeMeets(run[i].nodes, run[i].hist, m.dst, m.origin);
  }

  lemma RequestOffers(s: State, m: Msg)
    requires NetFair(s) && NetOk(s) && m in s.msgs && m.AppReq?
    ensures m.term <= m.origin && m.origin in s.hist.leaderLog
    ensures Offers(SenderLog(s, m), m.prev, m.prevTerm, m.entries) && m.leaderCommit <= |SenderLog(s, m)|
  {
    RequestOk(s, m);
    CommitIsInLog(s.nodes, s.hist, LogOf(s.hist, m.origin), m.leaderCommit, m.term);
    assert MsgFair(s.nodes, s.hist, m);
  }

  lemma NodeMeets(ns: Nodes, h: History, i: NodeId, u: nat)
    requires CoreInv(ns, h) && i in ns && u in h.leaderLog && ns[i].term <= u
    ensures Meets(h, ns[i], LogOf(h, u))
  {
    assert Ordered(ns[i]) && TailFits(h, ns[i]);
    SourceMeets(ns, h, ns[i], u);
  }

  /** Taking up a request is reconciling its entries with the log. */
  lemma TakingUpReconciles(s: State, s': State, m: Msg, timeout: nat)
    requires Fair(s) && OnAppReq(s, s', m, timeout) && s.nodes[m.dst].term <= m.term
    ensures var r := Reconcile(s.nodes[m.dst], m.prev, m.prevTerm, m.entries, m.leaderCommit).0;
            s'.nodes[m.dst].log == r.log && s'.nodes[m.dst].commit == r.commit
  {
    assert MsgFair(s.nodes, s.hist, m);
    LeaderRpcIsDemure(s.nodes, s.hist, m.dst, m.term, m.leader, timeout);
    var n2 := ResetHeartbeat(ValidateLeaderRpc(s.nodes[m.dst], m.term, m.leader, timeout).0);
    ReconcilesAlike(s.nodes[m.dst], n2, m);
    TakenLog(s, s', m, timeout, n2);
  }

  lemma ReconcilesAlike(n: Node, n': Node, m: Msg)
    requires n' == n.(term := n'.term, vote := n'.vote, role := n'.role) && m.AppReq?
    ensures var r, r' := Reconcile(n, m.prev, m.prevTerm, m.entries, m.leaderCommit).0,
                         Reconcile(n', m.prev, m.prevTerm, m.entries, m.leaderCommit).0;
            r'.log == r.log && r'.commit == r.commit
  {
    CutIgnoresRole(n, n', m.entries);
  }

  lemma TakenLog(s: State, s': State, m: Msg, timeout: nat, n2: Node)
    requires OnAppReq(s, s', m, timeout) && n2.role.Follower?
    requires var (n1, check) := ValidateLeaderRpc(s.nodes[m.dst], m.term, m.leader, timeout);
             check.Valid? && n2 == ResetHeartbeat(n1)
    ensures var r := Reconcile(n2, m.prev, m.prevTerm, m.entries, m.leaderCommit).0;
            s'.nodes[m.dst].log == r.log && s'.nodes[m.dst].commit == r.commit
  {
  }

  lemma TakenUp(run: seq<State>, i: nat, s': State, m: Msg, timeout: nat)
    requires Careful(run) && i < |run| && OnAppReq(run[i], s', m, timeout) && run[i].nodes[m.dst].term <= m.term
    ensures var r := Reconcile(run[i].nodes[m.dst], m.prev, m.prevTerm, m.entries, m.leaderCommit).0;
            s'.nodes[m.dst].log == r.log && s'.nodes[m.dst].commit == r.commit
  {
    Reachable(run, i);
    TakingUpReconciles(run[i], s', m, timeout);
  }

  /**
   After any careful run, a request that moves the commit index commits only its sender's entries
   exactly when the new commit index lies within what the request compared, or the follower's entry
   there has the term of the sender's. A probe compares nothing behind the horizon, and carries the
   leader's commit index.
   */
  lemma CommitIsTheLeaders(run: seq<State>, i: nat, s': State, m: Msg, timeout: nat)
    requires Careful(run) && i < |run| && Deliverable(run[i], m) && OnAppReq(run[i], s', m, timeout)
    requires CutsAbove(run[i].nodes[m.dst], m.entries) && run[i].nodes[m.dst].commit < m.leaderCommit
    ensures var n, n', source := run[i].nodes[m.dst], s'.nodes[m.dst], SenderLog(run[i], m);
            && n'.commit == Min(m.leaderCommit, |n'.log|) <= |source|
            && (n'.log[..n'.commit] == source[..n'.commit]
                <==> n'.commit <= m.prev + |m.entries| || TermAt(n.log, n'.commit) == TermAt(source, n'.commit))
  {
    RequestMeets(run, i, m);
    TakenUp(run, i, s', m, timeout);
    CommittedAsOffered(run[i].hist, run[i].nodes[m.dst], SenderLog(run[i], m), m);
  }

  /**
   Two guards that meet the checks, after any careful run: a store without entries left at or below
   its horizon, and a commit index, or a log, that ends within what the request compares.
   */
  lemma ChecksAreMet(run: seq<State>, i: nat, m: Msg)
    requires Careful(run) && i < |run| && Deliverable(run[i], m) && run[i].nodes[m.dst].below == []
    ensures CutsAbove(run[i].nodes[m.dst], m.entries)
    ensures m.leaderCommit <= m.prev + |m.entries| || |run[i].nodes[m.dst].log| <= m.prev + |m.entries| ==>
              SafeToTake(run[i], m)
  {
    RequestMeets(run, i, m);
    GuardsSuffice(run[i].hist, run[i].nodes[m.dst], SenderLog(run[i], m), m);
  }

  /**
   After any careful run, a conflict with an entry left at or below the horizon cuts everything behind
   the horizon; only what the request itself brings is put back. So what the node had committed
   survives exactly when the horizon or the request reaches it.
   */
  lemma CutBelowHorizonLosesTheRest(run: seq<State>, i: nat, s': State, m: Msg, timeout: nat)
    requires Careful(run) && i < |run| && Deliverable(run[i], m) && OnAppReq(run[i], s', m, timeout)
    requires !CutsAbove(run[i].nodes[m.dst], m.entries)
    ensures var n, n' := run[i].nodes[m.dst], s'.nodes[m.dst];
            var reach := Max(n.horizon, m.prev + |m.entries|);
            && reach <= |SenderLog(run[i], m)| && n'.log == SenderLog(run[i], m)[..reach]
            && (n.commit <= |n'.log| <==> n.commit <= reach)
  {
    RequestMeets(run, i, m);
    TakenUp(run, i, s', m, timeout);
    CutLosesTheRest(run[i].hist, run[i].nodes[m.dst], SenderLog(run[i], m), m);
  }

  // --- What the acknowledgements of the history are ---

  /** `v` has answered with success a request that the leader of term `t` built and sent in term `t`, reaching `k`. */
  ghost predicate AnsweredRequest(s: State, s': State, v: NodeId, t: nat, k: nat) {
    exists m, reply: AppendReply ::
      && m in s.msgs && m.AppReq? && m.dst == v && m.term == t && m.origin == t && k <= m.prev + |m.entries|
      && AnswerOf(m, reply) in s'.msgs && reply.success
  }

  predicate NewlyAcked(h: History, h': History, v: NodeId, t: nat, k: nat) {
    Acked(h', v, t, k) && !Acked(h, v, t, k)
  }

  lemma CampaignAcks(s: State, s': State)
    requires NextCampaign(s, s')
    ensures s'.hist.acks == s.hist.acks
  {
    if i, h, t, c :| Tick(s, s', i, h, t, c) {
    } else if m, t :| OnPreResp(s, s', m, t) {
    } else {
      var c, t :| EndPreVote(s, s', c, t);
    }
  }

  lemma ElectionAcks(s: State, s': State)
    requires NextElection(s, s')
    ensures s'.hist.acks == s.hist.acks
  {
  }

  lemma AppReqAcks(s: State, s': State, m: Msg, timeout: nat, v: NodeId, t: nat, k: nat)
    requires OnAppReq(s, s', m, timeout) && NewlyAcked(s.hist, s'.hist, v, t, k)
    ensures AnsweredRequest(s, s', v, t, k)
  {
    var reply := HandleAppendEntries(s.nodes[m.dst], m.leader, m.term, m.prev, m.prevTerm, m.entries, m.leaderCommit,
        timeout).1;
    assert AnswerOf(m, reply) in s'.msgs && reply.success;
  }

  lemma DeliveryAcks(s: State, s': State, v: NodeId, t: nat, k: nat)
    requires NextDelivery(s, s') && NewlyAcked(s.hist, s'.hist, v, t, k)
    ensures AnsweredRequest(s, s', v, t, k)
  {
    if m, x :| OnAppReq(s, s', m, x) {
      AppReqAcks(s, s', m, x, v, t, k);
    }
  }

  lemma LocalAcks(s: State, s': State, v: NodeId, t: nat, k: nat)
    requires NextLocal(s, s') && Shape(s.nodes) && NewlyAcked(s.hist, s'.hist, v, t, k)
    ensures v in s.nodes && s.nodes[v].role.Leader? && s.nodes[v].term == t && k == |s.nodes[v].log| + 1
  {
    if i, d :| ClientPropose(s, s', i, d) {
      assert s.nodes[i].id == i;
    }
  }

  /**
   An acknowledgement is a leader's own proposal, or the success a follower answered to an
   AppendEntries built and sent in the very term it is counted for; snapshots never contribute.
   */
  lemma AcknowledgementsAreReal(run: seq<State>, i: nat, v: NodeId, t: nat, k: nat)
    requires Behaviour(run) && i + 1 < |run| && NewlyAcked(run[i].hist, run[i + 1].hist, v, t, k)
    ensures || (v in run[i].nodes && run[i].nodes[v].role.Leader? && run[i].nodes[v].term == t
                && k == |run[i].nodes[v].log| + 1)
            || AnsweredRequest(run[i], run[i + 1], v, t, k)
  {
    var s, s' := run[i], run[i + 1];
    FairAlong(run, i);
    assert StepAt(run, i);
    if NextCampaign(s, s') {
      CampaignAcks(s, s');
    } else if NextElection(s, s') {
      ElectionAcks(s, s');
    } else if NextDelivery(s, s') {
      DeliveryAcks(s, s', v, t, k);
    } else if NextLocal(s, s') {
      LocalAcks(s, s', v, t, k);
    }
  }

  // --- Commit advances of a leader ---

  /** The step raised the commit index of leader `i`. */
  ghost predicate LeaderCommits(s: State, s': State, i: NodeId) {
    && i in s.nodes && i in s'.nodes && s.nodes[i].role.Leader? && s'.nodes[i].role.Leader?
    && s'.nodes[i].commit > s.nodes[i].commit
  }

  lemma CampaignsDoNotCommit(s: State, s': State, i: NodeId)
    requires NextCampaign(s, s')
    ensures !LeaderCommits(s, s', i)
  {
    if j, h, t, c :| Tick(s, s', j, h, t, c) {
    } else if m, t :| OnPreResp(s, s', m, t) {
    } else {
      var c, t :| EndPreVote(s, s', c, t);
    }
  }

  lemma ElectionsDoNotCommit(s: State, s': State, i: NodeId)
    requires NextElection(s, s')
    ensures !LeaderCommits(s, s', i)
  {
    if j, t :| DoStepDown(s, s', j, t) {
    } else if j, m, t :| OnVoteReq(s, s', j, m, t) {
    } else if j, m, t :| OnVoteResp(s, s', j, m, t) {
    } else if j :| ReadTally(s, s', j) {
    } else if j, k :| EndCampaign(s, s', j, k) {
    } else {
    }
  }

  lemma AppReqDoesNotCommit(s: State, s': State, m: Msg, timeout: nat, i: NodeId)
    requires Fair(s) && OnAppReq(s, s', m, timeout)
    ensures !LeaderCommits(s, s', i)
  {
    assert MsgFair(s.nodes, s.hist, m);
    LeaderRpcIsDemure(s.nodes, s.hist, m.dst, m.term, m.leader, timeout);
    ReconcileKeepsRole(ResetHeartbeat(ValidateLeaderRpc(s.nodes[m.dst], m.term, m.leader, timeout).0),
                       m.prev, m.prevTerm, m.entries, m.leaderCommit);
  }

  lemma RequestDoesNotCommit(s: State, s': State, m: Msg, timeout: nat, i: NodeId)
    requires CrashInAppend(s, s', m, timeout) || OnSnapReq(s, s', m, timeout)
    ensures !LeaderCommits(s, s', i)
  {
  }

  lemma SendsDoNotCommit(s: State, s': State, i: NodeId)
    requires NextSend(s, s')
    ensures !LeaderCommits(s, s', i)
  {
  }

  lemma OnlyRepliesCommit(s: State, s': State, i: NodeId)
    requires Fair(s) && NextDelivery(s, s') && LeaderCommits(s, s', i)
    ensures exists n, m, t :: OnReply(s, s', i, n, m, t)
  {
    if m, t :| OnAppReq(s, s', m, t) {
      AppReqDoesNotCommit(s, s', m, t, i);
    } else if m, t :| CrashInAppend(s, s', m, t) {
      RequestDoesNotCommit(s, s', m, t, i);
    } else if m, t :| OnSnapReq(s, s', m, t) {
      RequestDoesNotCommit(s, s', m, t, i);
    }
  }

  /** A restore that ends at a leader may move its commit index, onto entries already committed elsewhere. */
  lemma OnlyRestoresCommit(s: State, s': State, i: NodeId)
    requires NextLocal(s, s') && LeaderCommits(s, s', i)
    ensures exists r :: FinishRestore(s, s', r) && r.node == i
  {
    if j, d :| ClientPropose(s, s', j, d) {
    } else if j :| ApplyOne(s, s', j) {
    } else if r :| FinishRestore(s, s', r) {
    } else if j, k :| StartCompaction(s, s', j, k) {
    } else if j, k :| FinishCompaction(s, s', j, k) {
    } else {
    }
  }

  /** The node acknowledged the index or a later one. */
  ghost predicate AckedBeyond(h: History, v: NodeId, t: nat, k: nat) {
    exists j: nat :: k <= j && Acked(h, v, t, j)
  }

  /** The leader's commit index is at an entry of its term, acknowledged in that term by a quorum with the leader. */
  ghost predicate QuorumAcked(s: State, i: NodeId, t: nat)
    requires i in s.nodes
  {
    var n := s.nodes[i];
    && n.term == t && TermAt(n.log, n.commit) == t
    && exists vs :: IsQuorum(s.nodes, vs) && i in vs && forall v :: v in vs ==> AckedBeyond(s.hist, v, t, n.commit)
  }

  /**
   Every commit advance that a leader makes itself reaches an entry of its current term that a
   quorum, the leader included, acknowledged in that term (section 5.4.2), whatever its match indices
   say. Its commit index moves otherwise only when a restore it accepted earlier ends.
   */
  lemma LeaderCommitIsAcknowledged(run: seq<State>, j: nat, i: NodeId)
    requires Careful(run) && j + 1 < |run| && LeaderCommits(run[j], run[j + 1], i)
    ensures (exists r :: FinishRestore(run[j], run[j + 1], r) && r.node == i)
            || QuorumAcked(run[j + 1], i, run[j].nodes[i].term)
  {
    var s, s' := run[j], run[j + 1];
    Reachable(run, j);
    assert CarefulAt(run, j);
    CarefulIsNext(s, s');
    if NextCampaign(s, s') {
      CampaignsDoNotCommit(s, s', i);
    } else if NextElection(s, s') {
      ElectionsDoNotCommit(s, s', i);
    } else if NextSend(s, s') {
      SendsDoNotCommit(s, s', i);
    } else if NextLocal(s, s') {
      OnlyRestoresCommit(s, s', i);
    } else {
      OnlyRepliesCommit(s, s', i);
      var n', m, t :| OnReply(s, s', i, n', m, t);
      ReplyCommitsQuorum(s, s', i, n', m, t);
    }
  }

  lemma CommitIsChosen(ns: Nodes, h: History, i: NodeId, k: nat)
    requires CoreInv(ns, h) && i in ns && ns[i].role.Leader? && k > ns[i].commit && IsQuorumIndex(ns[i], k)
    requires TermAt(ns[i].log, k) == ns[i].term
    ensures ChosenBeyond(ns, h, ns[i].term, k) && Acked(h, i, ns[i].term, k)
  {
    assert CrownOk(ns, h, ns[i].term);
    LeaderChooses(ns, h, i, k);
    LeaderHoldsItsLog(ns, h, i, k);
  }

  lemma CommitIsQuorum(s1: State, s': State, i: NodeId, n': Node)
    requires i in s1.nodes && CommitsAt(s1.nodes[i], n') && s' == s1.(nodes := s1.nodes[i := n'])
    requires ChosenBeyond(s1.nodes, s1.hist, n'.term, n'.commit) && Acked(s1.hist, i, n'.term, n'.commit)
    ensures QuorumAcked(s', i, s1.nodes[i].term)
  {
    ChosenQuorum(s1.nodes, s'.nodes, s1.hist, i, n'.term, n'.commit);
  }

  lemma ReplyCommitsQuorum(s: State, s': State, i: NodeId, n': Node, m: Msg, timeout: nat)
    requires Inv(s) && OnReply(s, s', i, n', m, timeout) && LeaderCommits(s, s', i)
    ensures QuorumAcked(s', i, s.nodes[i].term)
  {
    var s1 := ReplyRecords(s, s', i, n', m, timeout);
    CommitIsChosen(s1.nodes, s1.hist, i, n'.commit);
    CommitIsQuorum(s1, s', i, n');
    RecordKeepsTerm(s.nodes[i], m.reqTerm, m.follower, OutcomeOf(m), timeout);
  }

  lemma RecordKeepsTerm(n: Node, roundTerm: nat, peer: NodeId, o: Outcome, timeout: nat)
    ensures var n1 := RecordOutcome(n, roundTerm, peer, o, timeout).0; n1.role.Leader? ==> n1.term == n.term
  {
  }

  lemma ChosenQuorum(ns: Nodes, ns': Nodes, h: History, i: NodeId, t: nat, k: nat)
    requires ChosenBeyond(ns, h, t, k) && i in ns && ns'.Keys == ns.Keys && Acked(h, i, t, k)
    ensures exists vs :: IsQuorum(ns', vs) && i in vs && forall v :: v in vs ==> AckedBeyond(h, v, t, k)
  {
    var k0: nat :| k <= k0 && Chosen(ns, h, t, k0);
    var vs :| IsQuorum(ns, vs) && AllAcked(h, vs, t, k0);
    QuorumWith(ns, ns', vs, i);
    forall v | v in vs + {i} ensures AckedBeyond(h, v, t, k) {
      if v in vs { assert Acked(h, v, t, k0); }
    }
    assert i in vs + {i};
  }

  lemma QuorumWith(ns: Nodes, ns': Nodes, vs: set<NodeId>, i: NodeId)
    requires IsQuorum(ns, vs) && i in ns && ns'.Keys == ns.Keys
    ensures IsQuorum(ns', vs + {i})
  {
    SubsetSize(vs, vs + {i});
  }

  // --- Halts ---

  /** A reply to an earlier campaign or round, from a term between that one and the node's. */
  ghost predicate StaleReply(n: Node, m: Msg) {
    || (m.VoteResp? && m.candidate == n.id && m.reqTerm < m.respTerm < n.term)
    || ((m.AppResp? || m.SnapResp?) && m.leader == n.id && m.reqTerm < OutcomeTerm(OutcomeOf(m)) < n.term)
  }

  ghost predicate Halts(s: State, s': State, i: NodeId) {
    i in s.nodes && i in s'.nodes && !s.nodes[i].role.Poisoned? && s'.nodes[i].role.Poisoned?
  }

  /**
   The node halts on a vote response exactly when the responder's term lies strictly between the
   campaign's term and the node's own: the reply is compared with the campaign's term, then
   treated as news although the node has already moved past it.
   */
  lemma VoteResponseHalts(n: Node, campaignTerm: nat, peer: NodeId, respTerm: nat, granted: bool, timeout: nat)
    requires !n.role.Poisoned?
    ensures ProcessVoteResponse(n, campaignTerm, peer, respTerm, granted, timeout).role.Poisoned?
            <==> campaignTerm < respTerm < n.term
  {
  }

  /** The same for a replication reply, in every reachable state. */
  lemma ReplicationReplyHalts(s: State, i: NodeId, m: Msg, timeout: nat)
    requires Fair(s) && Alive(s, i) && m in s.msgs && (m.AppResp? || m.SnapResp?) && m.leader == i
    ensures RecordOutcome(s.nodes[i], m.reqTerm, m.follower, OutcomeOf(m), timeout).0.role.Poisoned?
            <==> m.reqTerm < OutcomeTerm(OutcomeOf(m)) < s.nodes[i].term
  {
    RecordIsDemure(s.nodes[i], m.reqTerm, m.follower, OutcomeOf(m), timeout);
  }

  lemma CampaignsDoNotHalt(s: State, s': State, i: NodeId)
    requires NextCampaign(s, s')
    ensures !Halts(s, s', i)
  {
    if j, h, t, c :| Tick(s, s', j, h, t, c) {
    } else if m, t :| OnPreResp(s, s', m, t) {
    } else {
      var c, t :| EndPreVote(s, s', c, t);
    }
  }

  lemma ElectionsHaltOnStaleReplies(s: State, s': State, i: NodeId)
    requires Shape(s.nodes) && NextElection(s, s') && Halts(s, s', i)
    ensures exists m :: m in s.msgs && StaleReply(s.nodes[i], m)
  {
    if j, t :| DoStepDown(s, s', j, t) {
    } else if j, m, t :| OnVoteReq(s, s', j, m, t) {
    } else if j, m, t :| OnVoteResp(s, s', j, m, t) {
      VoteResponseHalts(s.nodes[j], m.reqTerm, m.voter, m.respTerm, m.granted, t);
      assert j == i && StaleReply(s.nodes[i], m);
    } else if j :| ReadTally(s, s', j) {
    } else if j, k :| EndCampaign(s, s', j, k) {
    } else {
    }
  }

  lemma RequestDoesNotHalt(s: State, s': State, m: Msg, timeout: nat, i: NodeId)
    requires Fair(s)
             && (OnAppReq(s, s', m, timeout) || CrashInAppend(s, s', m, timeout) || OnSnapReq(s, s', m, timeout))
    ensures !Halts(s, s', i)
  {
    if OnAppReq(s, s', m, timeout) {
      OnAppReqIs(s, s', m, timeout);
    } else if CrashInAppend(s, s', m, timeout) {
      CrashInAppendIs(s, s', m, timeout);
    } else {
      OnSnapReqIs(s, s', m, timeout);
    }
  }

  lemma ReplyHaltsWhenStale(s: State, s': State, j: NodeId, n': Node, m: Msg, timeout: nat, i: NodeId)
    requires Fair(s) && OnReply(s, s', j, n', m, timeout) && Halts(s, s', i)
    ensures i == j && StaleReply(s.nodes[i], m)
  {
    ReplicationReplyHalts(s, j, m, timeout);
    assert s.nodes[j].id == j;
  }

  lemma DeliveryHaltsOnStaleReplies(s: State, s': State, i: NodeId)
    requires Fair(s) && NextDelivery(s, s') && Halts(s, s', i)
    ensures exists m :: m in s.msgs && StaleReply(s.nodes[i], m)
  {
    if m, t :| OnAppReq(s, s', m, t) {
      RequestDoesNotHalt(s, s', m, t, i);
    } else if m, t :| CrashInAppend(s, s', m, t) {
      RequestDoesNotHalt(s, s', m, t, i);
    } else if m, t :| OnSnapReq(s, s', m, t) {
      RequestDoesNotHalt(s, s', m, t, i);
    } else {
      var j, n, m, t :| OnReply(s, s', j, n, m, t);
      ReplyHaltsWhenStale(s, s', j, n, m, t, i);
    }
  }

  /**
   In every run, what halts a node is a stale reply and nothing else: no request from a rival
   leader of its own term, no underflow of a probe position, no campaign, tick, restore or crash.
   */
  lemma OnlyStaleRepliesHalt(run: seq<State>, k: nat, i: NodeId)
    requires Behaviour(run) && k + 1 < |run| && Halts(run[k], run[k + 1], i)
    ensures exists m :: m in run[k].msgs && StaleReply(run[k].nodes[i], m)
  {
    var s, s' := run[k], run[k + 1];
    FairAlong(run, k);
    assert StepAt(run, k);
    if NextCampaign(s, s') {
      CampaignsDoNotHalt(s, s', i);
    } else if NextElection(s, s') {
      ElectionsHaltOnStaleReplies(s, s', i);
    } else if NextSend(s, s') {
    } else if NextDelivery(s, s') {
      DeliveryHaltsOnStaleReplies(s, s', i);
    } else {
      var j := LocalIs(s, s');
    }
  }
}
