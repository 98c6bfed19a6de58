/**
 Log reconciliation (section 5.3 of the Raft paper) at a follower: what the conflict cut and the
 filtered append make of a request, and why acknowledged and committed entries survive it.
 */
module RaftAppend {
  import opened Common
  import opened FsmTypes
  import opened Raft
  import opened Cluster
  import opened RaftVotes
  import opened RaftInv
  import opened RaftQuiet
  import opened RaftRewrite

  // --- The loops of the reconciliation, on the segment `source[prev..m]` of a leader's log ---

  predicate Indexed(entries: seq<Entry>, base: nat) {
    forall j :: 0 <= j < |entries| ==> entries[j].index == base + j + 1 && entries[j].term >= 1
  }

  /** None of the first entries offered conflicts with what is stored. */
  predicate NoConflict(n: Node, entries: seq<Entry>, c: nat)
    requires c <= |entries|
  {
    forall j :: 0 <= j < c ==> !Conflicts(n, entries[j])
  }

  lemma {:induction false} CutAtFirstConflict(n: Node, entries: seq<Entry>, base: nat) returns (c: nat)
    requires Indexed(entries, base)
    ensures c <= |entries| && NoConflict(n, entries, c)
    ensures c == |entries| ==> CutConflict(n, entries) == n
    ensures c < |entries| ==> Conflicts(n, entries[c]) && CutConflict(n, entries) == CutAt(n, base + c + 1)
  {
    if entries == [] {
      c := 0;
    } else if Conflicts(n, entries[0]) {
      c := 0;
    } else {
      var rest := CutAtFirstConflict(n, entries[1..], base + 1);
      c := rest + 1;
      forall j | 0 <= j < c ensures !Conflicts(n, entries[j]) {
        if j > 0 { assert entries[j] == entries[1..][j - 1]; }
      }
    }
  }

  lemma {:induction false} MissingIsTail(entries: seq<Entry>, base: nat, next: nat)
    requires Indexed(entries, base) && next >= base + 1
    ensures Missing(entries, next) == Some(if next - 1 - base <= |entries| then entries[next - 1 - base..] else [])
  {
    if entries != [] {
      if entries[0].index < next {
        MissingIsTail(entries[1..], base + 1, next);
        if next - 1 - base <= |entries| {
          assert entries[1..][next - 2 - base..] == entries[next - 1 - base..];
        }
      } else {
        MissingIsTail(entries[1..], base + 1, next + 1);
        assert [entries[0]] + entries[1..] == entries;
      }
    }
  }

  /** The log took over the first `m` entries of the source, losing only what conflicts with them. */
  ghost predicate Merged(log: seq<Entry>, source: seq<Entry>, m: nat, log': seq<Entry>) {
    && m <= |source| && m <= |log'| && log'[..m] == source[..m]
    && (log' == log || (log' == source[..m] && (log <= log' || Diverges(log, source, m))))
  }

  predicate DivergesAt(log: seq<Entry>, source: seq<Entry>, c: nat) {
    c < |log| && c < |source| && log[c].term != source[c].term
  }

  ghost predicate Diverges(log: seq<Entry>, source: seq<Entry>, m: nat) {
    exists c: nat :: c < m && DivergesAt(log, source, c)
  }

  /** Whatever the log and the source agree on survives. */
  lemma MergeKeepsAgreement(log: seq<Entry>, source: seq<Entry>, m: nat, log': seq<Entry>, k: nat)
    requires Merged(log, source, m, log') && k <= |log| && k <= |source| && log[..k] == source[..k]
    ensures k <= |log'| && log'[..k] == log[..k]
  {
    if log' != log && !(log <= log') {
      var c: nat :| c < m && DivergesAt(log, source, c);
      if c < k { assert log[..k][c] == source[..k][c]; }
      assert source[..m][..k] == source[..k];
    }
  }

  /** The committed part of the node's log is the source's. */
  predicate Settled(n: Node, source: seq<Entry>) {
    n.commit <= |n.log| && n.commit <= |source| && n.log[..n.commit] == source[..n.commit]
  }

  /** What a request of a leader meets at a follower. */
  ghost predicate Meets(h: History, n: Node, source: seq<Entry>) {
    && Settled(n, source) && Ordered(n) && TailFits(h, n) && Tracks(h, source)
    && (forall k :: 0 <= k < |n.log| ==> n.log[k].term >= 1)
    && (forall t :: t in h.leaderLog ==> Tracks(h, h.leaderLog[t]))
  }

  /** Behind the commit index one equal term is enough: the logs are equal up to there. */
  lemma AgreeUpTo(h: History, n: Node, source: seq<Entry>, j: nat)
    requires Meets(h, n, source) && j <= |n.log| && j <= |source|
    requires j > n.commit ==> n.log[j - 1].term == source[j - 1].term
    ensures n.log[..j] == source[..j]
  {
    if j <= n.commit {
      assert n.log[..j] == n.log[..n.commit][..j] && source[..j] == source[..n.commit][..j];
    } else {
      var tail := LogOf(h, LastTerm(n.log));
      TailEntry(h, n, j - 1);
      LogMatching(h, tail, source, j - 1);
      forall i | 0 <= i < j ensures n.log[i] == source[i] {
        if i < n.commit {
          assert n.log[i] == n.log[..n.commit][i] == source[..n.commit][i];
        } else {
          TailEntry(h, n, i);
          assert tail[..j][i] == source[..j][i];
        }
      }
    }
  }

  /** The segment offered by a request. */
  predicate Offers(source: seq<Entry>, prev: nat, prevTerm: nat, entries: seq<Entry>) {
    prev + |entries| <= |source| && entries == source[prev..prev + |entries|] && prevTerm == TermAt(source, prev)
  }

  lemma OfferIsIndexed(h: History, source: seq<Entry>, prev: nat, prevTerm: nat, entries: seq<Entry>)
    requires Tracks(h, source) && Offers(source, prev, prevTerm, entries)
    ensures Indexed(entries, prev)
  {
    forall j | 0 <= j < |entries| ensures entries[j].index == prev + j + 1 && entries[j].term >= 1 {
      assert TracksAt(h, source, prev + j);
    }
  }

  /** The node and the source agree as far as no offered entry conflicts. */
  lemma AgreeWhileNoConflict(h: History, n: Node, source: seq<Entry>, prev: nat, prevTerm: nat, entries: seq<Entry>,
        c: nat)
    requires Meets(h, n, source) && Offers(source, prev, prevTerm, entries) && Indexed(entries, prev)
    requires Consistent(n, prev, prevTerm) && c <= |entries| && NoConflict(n, entries, c) && prev <= |n.log|
    ensures var j := Min(prev + c, |n.log|); n.log[..j] == source[..j]
  {
    var j := Min(prev + c, |n.log|);
    if j > n.commit {
      if j > prev {
        assert !Conflicts(n, entries[j - prev - 1]) && entries[j - prev - 1] == source[j - 1];
      }
      assert n.log[j - 1].term == source[j - 1].term;
    }
    AgreeUpTo(h, n, source, j);
  }

  /** A conflict above the horizon lies behind the commit index, in the log. */
  lemma ConflictIsInTail(h: History, n: Node, source: seq<Entry>, prev: nat, entries: seq<Entry>, c: nat)
    requires Meets(h, n, source) && prev + |entries| <= |source| && entries == source[prev..prev + |entries|]
    requires Indexed(entries, prev) && c < |entries| && Conflicts(n, entries[c]) && CutsAbove(n, entries)
    ensures n.commit <= prev + c < |n.log| && n.log[prev + c].term != source[prev + c].term
    ensures CutAt(n, prev + c + 1) == n.(log := n.log[..prev + c])
  {
    var p := prev + c;
    assert entries[c] == source[p] && entries[c].index == p + 1 && p + 1 > n.horizon;
    forall i | 0 <= i < n.commit ensures n.log[i] == source[i] {
      assert n.log[..n.commit][i] == source[..n.commit][i];
    }
  }

  /** What the cut leaves: the log as it was, or as far as it agrees with the source. */
  ghost predicate CutTo(n: Node, source: seq<Entry>, n': Node) {
    n' == n || (n' == n.(log := n'.log) && Shortened(n, source, n'.log))
  }

  predicate Shortened(n: Node, source: seq<Entry>, log': seq<Entry>) {
    && n.commit <= |log'| && DivergesAt(n.log, source, |log'|)
    && log' == n.log[..|log'|] && log' == source[..|log'|]
  }

  lemma ConflictIsCut(h: History, n: Node, source: seq<Entry>, prev: nat, prevTerm: nat, entries: seq<Entry>)
    requires Meets(h, n, source) && Offers(source, prev, prevTerm, entries)
    requires Consistent(n, prev, prevTerm) && CutsAbove(n, entries)
    ensures CutTo(n, source, CutConflict(n, entries))
  {
    OfferIsIndexed(h, source, prev, prevTerm, entries);
    var c := CutAtFirstConflict(n, entries, prev);
    if c < |entries| {
      ConflictIsInTail(h, n, source, prev, entries, c);
      AgreeWhileNoConflict(h, n, source, prev, prevTerm, entries, c);
      assert CutConflict(n, entries).log == n.log[..prev + c];
    }
  }

  /** A request succeeds exactly when it is consistent, and then the segment is merged. */
  ghost predicate Merges(n: Node, source: seq<Entry>, m: nat, leaderCommit: nat, n': Node) {
    && n' == n.(log := n'.log, commit := n'.commit) && Merged(n.log, source, m, n'.log)
    && n'.commit == if leaderCommit > n.commit then Min(leaderCommit, |n'.log|) else n.commit
  }

  /** What the reconciliation comes to after a cut, or without one. */
  lemma ReconcileIs(n: Node, prev: nat, prevTerm: nat, entries: seq<Entry>, leaderCommit: nat, kept: Node,
        extra: seq<Entry>)
    requires Consistent(n, prev, prevTerm) && CutConflict(n, entries) == kept == n.(log := kept.log)
    requires Missing(entries, |kept.log| + 1) == Some(extra)
    ensures var all := kept.log + extra;
            Reconcile(n, prev, prevTerm, entries, leaderCommit)
            == (n.(log := all, commit := if leaderCommit > n.commit then Min(leaderCommit, |all|) else n.commit), true)
  {
  }

  lemma ReconcileCuts(
    n: Node, source: seq<Entry>, prev: nat, prevTerm: nat, entries: seq<Entry>, leaderCommit: nat, c: nat)
    requires Offers(source, prev, prevTerm, entries) && Indexed(entries, prev) && Consistent(n, prev, prevTerm)
    requires c < |entries| && prev + c < |n.log| && CutConflict(n, entries) == n.(log := n.log[..prev + c])
    requires n.log[..prev + c] == source[..prev + c] && n.log[prev + c].term != source[prev + c].term
    ensures Reconcile(n, prev, prevTerm, entries, leaderCommit).1
    ensures Merges(n, source, prev + |entries|, leaderCommit, Reconcile(n, prev, prevTerm, entries, leaderCommit).0)
  {
    MissingIsTail(entries, prev, prev + c + 1);
    MergedAfterCut(n.log, source, prev, entries, c);
    ReconcileIs(n, prev, prevTerm, entries, leaderCommit, n.(log := n.log[..prev + c]), entries[c..]);
  }

  lemma ReconcileExtends(
    n: Node, source: seq<Entry>, prev: nat, prevTerm: nat, entries: seq<Entry>, leaderCommit: nat)
    requires Offers(source, prev, prevTerm, entries) && Indexed(entries, prev) && Consistent(n, prev, prevTerm)
    requires prev <= |n.log| && CutConflict(n, entries) == n
    requires var j := Min(prev + |entries|, |n.log|); n.log[..j] == source[..j]
    ensures Reconcile(n, prev, prevTerm, entries, leaderCommit).1
    ensures Merges(n, source, prev + |entries|, leaderCommit, Reconcile(n, prev, prevTerm, entries, leaderCommit).0)
  {
    var extra := if |n.log| - prev <= |entries| then entries[|n.log| - prev..] else [];
    MissingIsTail(entries, prev, |n.log| + 1);
    MergedWithoutCut(n.log, source, prev, entries);
    ReconcileIs(n, prev, prevTerm, entries, leaderCommit, n, extra);
  }

  /**
   The reconciliation succeeds exactly on a consistent request. Then the log holds the segment and
   has lost only what conflicts with it, and a commit index ahead is taken over as far as the log
   reaches, which may be further than the segment does.
   */
  lemma ReconcileMerges(
    h: History, n: Node, source: seq<Entry>, prev: nat, prevTerm: nat, entries: seq<Entry>, leaderCommit: nat)
    requires Meets(h, n, source) && Offers(source, prev, prevTerm, entries)
    requires Consistent(n, prev, prevTerm) ==> CutsAbove(n, entries)
    ensures var (n', ok) := Reconcile(n, prev, prevTerm, entries, leaderCommit);
            && ok == Consistent(n, prev, prevTerm)
            && (!ok ==> n' == n)
            && (ok ==> Merges(n, source, prev + |entries|, leaderCommit, n'))
  {
    if Consistent(n, prev, prevTerm) {
      OfferIsIndexed(h, source, prev, prevTerm, entries);
      var c := CutAtFirstConflict(n, entries, prev);
      if c < |entries| {
        ConflictIsInTail(h, n, source, prev, entries, c);
        AgreeWhileNoConflict(h, n, source, prev, prevTerm, entries, c);
        ReconcileCuts(n, source, prev, prevTerm, entries, leaderCommit, c);
      } else {
        AgreeWhileNoConflict(h, n, source, prev, prevTerm, entries, |entries|);
        ReconcileExtends(n, source, prev, prevTerm, entries, leaderCommit);
      }
    }
  }

  lemma MergedAfterCut(log: seq<Entry>, source: seq<Entry>, prev: nat, entries: seq<Entry>, c: nat)
    requires prev + |entries| <= |source| && entries == source[prev..prev + |entries|]
    requires c < |entries| && prev + c < |log| && log[..prev + c] == source[..prev + c]
    requires log[prev + c].term != source[prev + c].term
    ensures Merged(log, source, prev + |entries|, log[..prev + c] + entries[c..])
  {
    var m := prev + |entries|;
    assert source[..prev + c] + source[prev + c..m] == source[..m] && entries[c..] == source[prev + c..m];
    assert DivergesAt(log, source, prev + c);
  }

  lemma MergedWithoutCut(log: seq<Entry>, source: seq<Entry>, prev: nat, entries: seq<Entry>)
    requires prev + |entries| <= |source| && entries == source[prev..prev + |entries|] && prev <= |log|
    requires var j := Min(prev + |entries|, |log|); log[..j] == source[..j]
    ensures Merged(log, source, prev + |entries|, log + if |log| - prev <= |entries| then entries[|log| - prev..]
            else [])
  {
    var m := prev + |entries|;
    if |log| < m {
      assert log == log[..|log|] && entries[|log| - prev..] == source[|log|..m];
      assert source[..|log|] + source[|log|..m] == source[..m];
    } else {
      assert log + [] == log;
    }
  }

  // --- Requests of leaders meet the invariant ---

  lemma SourceMeets(ns: Nodes, h: History, n: Node, u: nat)
    requires LeaderLogsOk(ns, h) && LeadersSafe(ns, h) && Ordered(n) && TailFits(h, n) && u in h.leaderLog
    requires n.term <= u
    requires CommitOk(ns, h, n.log, n.commit, n.term)
    ensures Meets(h, n, LogOf(h, u))
  {
    if n.commit > 0 {
      var t: nat, k: nat :| t <= n.term && Backed(ns, h, n.log, n.commit, t, k);
      BackedIsCarried(ns, h, n.log, n.commit, t, k, u);
    }
    forall k | 0 <= k < |n.log| ensures n.log[k].term >= 1 {
      EntryIsOwn(ns, h, n, n.term, k);
    }
    forall t | t in h.leaderLog ensures Tracks(h, h.leaderLog[t]) {
      assert LeaderLogOk(h, t);
    }
  }

  // --- What the append keeps ---

  /** A follower takes over `m` entries of the leader of term `u`; its commit index stays within them. */
  ghost predicate Appends(ns: Nodes, h: History, n: Node, u: nat, m: nat, n': Node) {
    && n.role.Follower? && n' == n.(log := n'.log, commit := n'.commit) && u in h.leaderLog && n.term <= u
    && Meets(h, n, LogOf(h, u)) && Merged(n.log, LogOf(h, u), m, n'.log) && n.commit <= n'.commit
    && (n'.commit > n.commit ==> n'.commit <= m && CommitOk(ns, h, LogOf(h, u), n'.commit, n.term))
  }

  /** Committed entries are never cut. */
  lemma CommittedSurvives(ns: Nodes, h: History, n: Node, u: nat, m: nat, n': Node)
    requires Appends(ns, h, n, u, m, n')
    ensures n.commit <= |n'.log| && n'.log[..n.commit] == n.log[..n.commit]
  {
    MergeKeepsAgreement(n.log, LogOf(h, u), m, n'.log, n.commit);
  }

  lemma AppendTail(ns: Nodes, h: History, n: Node, u: nat, m: nat, n': Node)
    requires Appends(ns, h, n, u, m, n')
    ensures Ordered(n') && TailFits(h, n')
  {
    CommittedSurvives(ns, h, n, u, m, n');
    if n'.log == n.log {
      if |n'.log| > n'.commit { TailKeepsFitting(h, n, n'); }
    } else if |n'.log| > n'.commit {
      var source := LogOf(h, u);
      assert TracksAt(h, source, m - 1) && n'.log[m - 1] == source[m - 1];
      var tail := LogOf(h, LastTerm(n'.log));
      assert source[..m] == tail[..m];
      assert n'.log[n'.commit..] == source[..m][n'.commit..] == tail[..m][n'.commit..];
      assert tail[n'.commit..m] == tail[..m][n'.commit..];
    }
  }

  lemma AppendCommit(ns: Nodes, h: History, n: Node, u: nat, m: nat, n': Node)
    requires Appends(ns, h, n, u, m, n') && CommitOk(ns, h, n.log, n.commit, n.term)
    ensures CommitOk(ns, h, n'.log, n'.commit, n'.term)
  {
    if n'.commit > n.commit {
      assert n'.log[..n'.commit] == n'.log[..m][..n'.commit] == LogOf(h, u)[..m][..n'.commit]
             == LogOf(h, u)[..n'.commit];
      CommitOkExtends(ns, h, LogOf(h, u), n'.log, n'.commit, n.term);
    } else {
      CommittedSurvives(ns, h, n, u, m, n');
      CommitOkExtends(ns, h, n.log, n'.log, n.commit, n.term);
    }
  }

  /** A leader at least as late as the node holds what the node acknowledged and is not dead. */
  lemma SourceHolds(ns: Nodes, h: History, u: nat, t: nat, k: nat)
    requires LeadersSafe(ns, h) && u in h.leaderLog && t <= u && Own(h, t, k) && !Dead(ns, h, t, k)
    ensures Holds(h, LogOf(h, u), t, k)
  {
    if t < u { assert Safe(ns, h, LogOf(h, u), t, k); }
  }

  /** An entry the follower acknowledged survives the conflict cut and stays reported, or it is dead. */
  lemma AcknowledgedSurvives(ns: Nodes, h: History, n: Node, u: nat, m: nat, n': Node, t: nat, k: nat)
    requires LeaderLogsOk(ns, h) && LeadersSafe(ns, h) && Appends(ns, h, n, u, m, n')
    requires Own(h, t, k) && t <= n.term && Firm(ns, h, n, t, k)
    ensures Firm(ns, h, n', t, k)
  {
    if !Dead(ns, h, t, k) {
      SourceHolds(ns, h, u, t, k);
      MergeKeepsAgreement(n.log, LogOf(h, u), m, n'.log, k);
      if n'.log != n.log {
        assert LogOf(h, u)[k - 1] == LogOf(h, u)[..k][k - 1] == LogOf(h, t)[..k][k - 1];
        LeaderTermsAscend(ns, h, u, k - 1, m - 1);
        assert n'.log[m - 1] == LogOf(h, u)[m - 1];
      }
    }
  }

  lemma AppendRewrites(ns: Nodes, h: History, n: Node, u: nat, m: nat, n': Node)
    requires LeaderLogsOk(ns, h) && LeadersSafe(ns, h) && Appends(ns, h, n, u, m, n') && BelowOk(h, n)
    requires CommitOk(ns, h, n.log, n.commit, n.term)
    ensures Rewrites(ns, h, n, n')
  {
    AppendTail(ns, h, n, u, m, n');
    AppendCommit(ns, h, n, u, m, n');
    forall t: nat, k: nat | Own(h, t, k) && t <= n.term && Firm(ns, h, n, t, k) ensures Firm(ns, h, n', t, k) {
      AcknowledgedSurvives(ns, h, n, u, m, n', t, k);
    }
  }

  // --- A crash between the cut and the append ---

  /** The follower restarts with its log cut at a conflict with the leader of term `u`. */
  ghost predicate CutsShort(h: History, n: Node, u: nat, n': Node) {
    && n' == n.(log := n'.log, applied := n.commit, tick := n'.tick, role := n'.role) && n'.role.Follower?
    && u in h.leaderLog && n.term <= u && Ordered(n) && TailFits(h, n)
    && (n'.log == n.log || Shortened(n, LogOf(h, u), n'.log))
  }

  lemma CutTail(h: History, n: Node, u: nat, n': Node)
    requires CutsShort(h, n, u, n') && Tracks(h, LogOf(h, u))
    ensures Ordered(n') && TailFits(h, n')
  {
    var j := |n'.log|;
    if n'.log != n.log && j > n'.commit {
      var source := LogOf(h, u);
      assert n'.log[j - 1] == source[..j][j - 1] == source[j - 1];
      assert TracksAt(h, source, j - 1);
      var tail := LogOf(h, LastTerm(n'.log));
      assert source[..j] == tail[..j];
      assert n'.log[n'.commit..] == tail[..j][n'.commit..] == tail[n'.commit..j];
    }
  }

  lemma AgreementEndsBefore(log: seq<Entry>, source: seq<Entry>, k: nat, j: nat)
    requires k <= |log| && k <= |source| && log[..k] == source[..k] && DivergesAt(log, source, j)
    ensures k <= j
  {
    forall i | 0 <= i < k ensures log[i] == source[i] {
      assert log[..k][i] == source[..k][i];
    }
  }

  lemma CutKeepsAcknowledged(ns: Nodes, h: History, n: Node, u: nat, n': Node, t: nat, k: nat)
    requires LeaderLogsOk(ns, h) && LeadersSafe(ns, h) && CutsShort(h, n, u, n')
    requires Own(h, t, k) && t <= n.term && Firm(ns, h, n, t, k)
    ensures Firm(ns, h, n', t, k)
  {
    if !Dead(ns, h, t, k) && n'.log != n.log {
      var j, source := |n'.log|, LogOf(h, u);
      SourceHolds(ns, h, u, t, k);
      AgreementEndsBefore(n.log, source, k, j);
      assert n'.log[..k] == n.log[..k];
      assert source[k - 1] == source[..k][k - 1] == LogOf(h, t)[..k][k - 1];
      LeaderTermsAscend(ns, h, u, k - 1, j - 1);
      assert n'.log[j - 1] == source[..j][j - 1];
    }
  }

  lemma CutRewrites(ns: Nodes, h: History, n: Node, u: nat, n': Node)
    requires LeaderLogsOk(ns, h) && LeadersSafe(ns, h) && CutsShort(h, n, u, n') && BelowOk(h, n)
    requires CommitOk(ns, h, n.log, n.commit, n.term)
    ensures Rewrites(ns, h, n, n')
  {
    assert LeaderLogOk(h, u);
    CutTail(h, n, u, n');
    CommitOkExtends(ns, h, n.log, n'.log, n.commit, n.term) by {
      assert n'.log[..n.commit] == n.log[..n.commit];
    }
    forall t: nat, k: nat | Own(h, t, k) && t <= n.term && Firm(ns, h, n, t, k) ensures Firm(ns, h, n', t, k) {
      CutKeepsAcknowledged(ns, h, n, u, n', t, k);
    }
  }

  // --- The acknowledgement of a successful append ---

  predicate ReportsOwn(h: History, n: Node, k: nat) {
    Own(h, n.term, k) ==> Reports(n, n.term, k)
  }

  /** The node holds `m` entries of its term's leader, and reports its own above `low`. */
  ghost predicate Acknowledges(ns: Nodes, h: History, i: NodeId, low: nat, m: nat) {
    && i in ns && ns[i].term in h.leaderLog && Holds(h, ns[i].log, ns[i].term, m)
    && forall k: nat :: low < k <= m ==> ReportsOwn(h, ns[i], k)
  }

  lemma AckGrow(ns: Nodes, h: History, i: NodeId, low: nat, m: nat)
    requires Acknowledges(ns, h, i, low, m)
    ensures Grow(ns, h, ns, NoteAcks(h, i, ns[i].term, low, m))
    ensures forall v, t, k: nat :: Acked(NoteAcks(h, i, ns[i].term, low, m), v, t, k) <==>
                              Acked(h, v, t, k) || (v == i && t == ns[i].term && low < k <= m)
  {
    assert forall t :: LogOf(h, t) <= LogOf(NoteAcks(h, i, ns[i].term, low, m), t);
  }

  lemma AckElection(ns: Nodes, h: History, i: NodeId, low: nat, m: nat)
    requires Acknowledges(ns, h, i, low, m) && ElectionInv(ns, h)
    ensures ElectionInv(ns, NoteAcks(h, i, ns[i].term, low, m))
  {
    var h' := NoteAcks(h, i, ns[i].term, low, m);
    AckVotes(ns, h, h');
    AckLogs(ns, h, h');
  }

  /** Votes and crowns do not look at acknowledgements. */
  lemma AckVotes(ns: Nodes, h: History, h': History)
    requires VoteInv(ns, h) && h' == h.(acks := h'.acks)
    ensures VoteInv(ns, h')
  {
    SameVotes(h, h');
    forall v, t, c | VotedFor(h', v, t, c) ensures VoteOk(ns, v, t, c) {
      assert VotedFor(h, v, t, c);
    }
    forall i | i in ns ensures CandidateOk(ns, h', i) {
      assert CandidateOk(ns, h, i);
    }
    forall t | t in h'.leaderOf ensures CrownOk(ns, h', t) {
      assert CrownOk(ns, h, t);
    }
  }

  lemma AckLogs(ns: Nodes, h: History, h': History)
    requires LeaderLogsOk(ns, h) && LogsOk(ns, h) && AheadLogsLose(ns, h) && h' == h.(acks := h'.acks)
    ensures LeaderLogsOk(ns, h') && LogsOk(ns, h') && AheadLogsLose(ns, h')
  {
    assert forall t :: LogOf(h, t) <= LogOf(h', t);
    forall t | t in h'.leaderLog ensures LeaderLogOk(h', t) {
      assert LeaderLogOk(h, t);
      TracksStable(h, h', h.leaderLog[t]);
    }
    forall i | i in ns ensures Ordered(ns[i]) && TailFits(h', ns[i]) && BelowOk(h', ns[i]) {
      LogFrame(h, h', ns[i], ns[i]);
    }
    forall i, k | i in ns && ns[i].role.Candidate? && ns[i].commit <= k < |ns[i].log| && ns[i].log[k].term >= ns[i].term
      ensures NotElectedBy(h', ns[i].log[k].term, ns[i].term, i)
    {
      assert NotElectedBy(h, ns[i].log[k].term, ns[i].term, i);
      forall v | ns[i].log[k].term in h.quorumOf && v in h.quorumOf[ns[i].log[k].term]
        ensures !VotedFor(h', v, ns[i].term, i)
      {
        assert !VotedFor(h, v, ns[i].term, i);
      }
    }
  }

  lemma AckAcks(ns: Nodes, h: History, i: NodeId, low: nat, m: nat)
    requires Acknowledges(ns, h, i, low, m) && AcksOk(ns, h)
    ensures AcksOk(ns, NoteAcks(h, i, ns[i].term, low, m))
  {
    var h' := NoteAcks(h, i, ns[i].term, low, m);
    AckGrow(ns, h, i, low, m);
    forall v, t, k | Acked(h', v, t, k) ensures AckOk(ns, h', v, t, k) {
      if Acked(h, v, t, k) { assert AckOk(ns, h, v, t, k); }
    }
    forall t: nat, k: nat | t in h'.leaderOf && Own(h', t, k) ensures Acked(h', h'.leaderOf[t], t, k) {
      assert Own(h, t, k);
    }
  }

  lemma AckAcked(ns: Nodes, h: History, i: NodeId, low: nat, m: nat)
    requires Acknowledges(ns, h, i, low, m) && AckedSafe(ns, h) && LeadersSafe(ns, h)
    ensures AckedSafe(ns, NoteAcks(h, i, ns[i].term, low, m)) && LeadersSafe(ns, NoteAcks(h, i, ns[i].term, low, m))
  {
    var h' := NoteAcks(h, i, ns[i].term, low, m);
    AckGrow(ns, h, i, low, m);
    forall v, t: nat, k: nat | v in ns && Own(h', t, k) && Acked(h', v, t, k) ensures Firm(ns, h', ns[v], t, k) {
      assert Own(h, t, k);
      if Acked(h, v, t, k) {
        FirmStable(ns, h, ns, h', ns[v], ns[v], t, k);
      } else {
        assert ns[i].log[..m][..k] == ns[i].log[..k] && LogOf(h, t)[..m][..k] == LogOf(h, t)[..k];
        assert ReportsOwn(h, ns[i], k);
      }
    }
    forall t, k, u | t < u && u in h'.leaderLog && Own(h', t, k) ensures Safe(ns, h', LogOf(h', u), t, k) {
      assert Own(h, t, k);
      SafeStable(ns, h, ns, h', LogOf(h, u), t, k);
    }
  }

  lemma AckVoters(ns: Nodes, h: History, i: NodeId, low: nat, m: nat)
    requires Acknowledges(ns, h, i, low, m) && VotesOk(ns, h) && VotersSafe(ns, h)
    ensures VotersSafe(ns, NoteAcks(h, i, ns[i].term, low, m))
  {
    var h' := NoteAcks(h, i, ns[i].term, low, m);
    AckGrow(ns, h, i, low, m);
    forall j, v, t: nat, k: nat |
      j in ns && ns[j].role.Candidate? && VotedFor(h', v, ns[j].term, j)
      && t < ns[j].term && Own(h', t, k) && Acked(h', v, t, k)
      ensures Carried(ns, h', ns[j], t, k)
    {
      assert VotedFor(h, v, ns[j].term, j) && Own(h, t, k);
      assert VoteOk(ns, v, ns[j].term, j);
      assert Acked(h, v, t, k);
      CarriedStable(ns, h, ns, h', ns[j], ns[j], t, k);
    }
  }

  lemma AckCommits(ns: Nodes, h: History, i: NodeId, low: nat, m: nat)
    requires Acknowledges(ns, h, i, low, m) && LeaderLogsOk(ns, h) && CommitInv(ns, h)
    ensures CommitInv(ns, NoteAcks(h, i, ns[i].term, low, m))
  {
    var h' := NoteAcks(h, i, ns[i].term, low, m);
    AckGrow(ns, h, i, low, m);
    assert ProgressOk(ns, h, ns[i]);
    ProgressFrame(ns, h, ns, h', ns[i], ns[i]);
    CommitOkStable(ns, h, ns, h', ns[i].log, ns[i].commit, ns[i].term);
    assert ns == ns[i := ns[i]];
    CommitInvFrame(ns, h, ns, h', i);
  }

  lemma AckKeeps(ns: Nodes, h: History, i: NodeId, low: nat, m: nat)
    requires CoreInv(ns, h) && Acknowledges(ns, h, i, low, m)
    ensures CoreInv(ns, NoteAcks(h, i, ns[i].term, low, m))
    ensures Grow(ns, h, ns, NoteAcks(h, i, ns[i].term, low, m))
  {
    AckGrow(ns, h, i, low, m);
    AckElection(ns, h, i, low, m);
    AckAcks(ns, h, i, low, m);
    AckAcked(ns, h, i, low, m);
    AckVoters(ns, h, i, low, m);
    AckCommits(ns, h, i, low, m);
  }

  /** A success acknowledges exactly what it reached and the follower had not committed. */
  lemma SuccessReports(ns: Nodes, h: History, n: Node, u: nat, m: nat, n': Node, k: nat)
    requires LeaderLogsOk(ns, h) && Appends(ns, h, n, u, m, n') && n.term == u && Own(h, u, k) && n.commit < k <= m
    ensures Reports(n', u, k)
  {
    var source := LogOf(h, u);
    if n'.log == n.log {
      assert n.log[k - 1] == n.log[..m][k - 1] == source[..m][k - 1];
      if |n'.log| > n'.commit {
        TailEntry(h, n, k - 1);
        LeaderTermsAscend(ns, h, LastTerm(n.log), k - 1, |n.log| - 1);
      }
    } else {
      LeaderTermsAscend(ns, h, u, k - 1, m - 1);
      assert n'.log[m - 1] == source[m - 1];
    }
  }

  /** What a follower had committed of its leader's own entries was chosen in that very term. */
  lemma CommittedIsChosen(ns: Nodes, h: History, n: Node, u: nat, m: nat, k: nat)
    requires LeaderLogsOk(ns, h) && LeadersSafe(ns, h) && CommitOk(ns, h, n.log, n.commit, n.term) && n.term == u
    requires u in h.leaderLog && Own(h, u, k) && k <= n.commit
    ensures ChosenBeyond(ns, h, u, k)
  {
    var t: nat, k0: nat :| t <= n.term && Backed(ns, h, n.log, n.commit, t, k0);
    ChosenIsCarried(ns, h, t, k0, u);
    assert LogOf(h, u)[k - 1] == LogOf(h, u)[..k0][k - 1] == LogOf(h, t)[..k0][k - 1];
    LeaderTermsAscend(ns, h, t, k - 1, k - 1);
    assert k <= k0 && Chosen(ns, h, u, k0);
  }
}
