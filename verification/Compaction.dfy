/**
 Compaction beside a live log that no restore has touched: appends, conflict cuts above the commit
 index, commits, applies and the two halves of a compaction in any interleaving. The physical store
 always stands for one logical log, of which only entries already applied are missing.
 */
module Compaction {
  import opened Common
  import opened FsmTypes
  import Raft
  import opened LogStore

  datatype Pending = Idle | Started(index: nat, term: nat) | MetaSaved(index: nat)

  /** `logical` is auxiliary: the whole log from index 1. */
  datatype Node = Node(store: Store, commit: nat, applied: nat, pending: Pending, logical: seq<Entry>)

  ghost predicate StandsFor(s: Store, logical: seq<Entry>) {
    && s.Live() && s.Last() == |logical|
    && s.entries == logical[s.first - 1..]
    && s.snapTerm == Raft.TermAt(logical, s.snapIndex)
  }

  ghost predicate PendingOk(n: Node) {
    match n.pending
    case Idle => true
    case Started(k, t) => n.store.snapIndex < k <= n.applied && t == Raft.TermAt(n.logical, k)
    case MetaSaved(k) => k == n.store.snapIndex
  }

  ghost predicate Inv(n: Node) {
    && StandsFor(n.store, n.logical)
    && (forall i :: 0 <= i < |n.logical| ==> n.logical[i].index == i + 1 && n.logical[i].term >= 1)
    && n.store.snapIndex <= n.applied <= n.commit <= |n.logical|
    && PendingOk(n)
  }

  // --- Steps ---

  ghost predicate AppendStep(n: Node, n': Node, es: seq<Entry>) {
    n.store.Continues(es) && n' == n.(store := n.store.Append(es), logical := n.logical + es)
  }

  /** A conflict cut; reconciliation never cuts at or below the commit index. */
  ghost predicate CutStep(n: Node, n': Node, k: nat) {
    n.commit < k <= |n.logical| && n' == n.(store := n.store.TruncateFrom(k), logical := n.logical[..k - 1])
  }

  ghost predicate CommitStep(n: Node, n': Node, c: nat) {
    n.commit <= c <= n.store.Last() && n' == n.(commit := c)
  }

  ghost predicate ApplyStep(n: Node, n': Node) {
    n.applied < n.commit && n' == n.(applied := n.applied + 1)
  }

  /** The applied log since the last horizon is longer than the threshold, and nothing is frozen. */
  predicate ShouldCompact(n: Node, threshold: nat) {
    n.pending.Idle? && n.applied >= n.store.snapIndex && n.applied - n.store.snapIndex > threshold
  }

  /** The tick loop captures the horizon under its lock; the first half saves it, the second truncates. */
  ghost predicate StartStep(n: Node, n': Node, threshold: nat) {
    ShouldCompact(n, threshold) && n' == n.(pending := Started(n.applied, n.store.TermAt(n.applied)))
  }

  ghost predicate SaveStep(n: Node, n': Node) {
    n.pending.Started? && n' == n.(store := n.store.SaveSnapshot(n.pending.index, n.pending.term),
          pending := MetaSaved(n.pending.index))
  }

  ghost predicate FrontStep(n: Node, n': Node) {
    n.pending.MetaSaved? && n' == n.(store := n.store.TruncateFront(n.pending.index), pending := Idle)
  }

  /** A crash forgets a compaction under way, whatever half it had reached; the store keeps what was flushed. */
  ghost predicate CrashStep(n: Node, n': Node) {
    n' == n.(pending := Idle)
  }

  ghost predicate Next(n: Node, n': Node) {
    || (exists es :: AppendStep(n, n', es))
    || (exists k :: CutStep(n, n', k))
    || (exists c :: CommitStep(n, n', c))
    || ApplyStep(n, n')
    || (exists t :: StartStep(n, n', t))
    || SaveStep(n, n')
    || FrontStep(n, n')
    || CrashStep(n, n')
  }

  // --- The physical answers are the logical ones ---

  lemma TermIsLogical(n: Node, k: nat)
    requires Inv(n) && (k == 0 || n.store.snapIndex <= k)
    ensures n.store.TermAt(k) == Raft.TermAt(n.logical, k)
  {
  }

  /** Last index, last term, and every read above the horizon are those of the logical log. */
  lemma LiveLogIsReadable(n: Node, k: nat)
    requires Inv(n)
    ensures n.store.Last() == |n.logical| && n.store.LastTerm() == Raft.LastTerm(n.logical)
    ensures n.store.snapIndex < k <= |n.logical| ==> n.store.Read(k) == Some(n.logical[k - 1])
    ensures k > |n.logical| ==> n.store.Read(k) == None
  {
    if n.store.entries != [] { assert n.logical[|n.logical| - 1] == n.store.entries[|n.store.entries| - 1]; }
  }

  lemma AppendKeeps(n: Node, n': Node, es: seq<Entry>)
    requires Inv(n) && AppendStep(n, n', es)
    ensures Inv(n')
  {
    OperationsKeepLive(n.store, es, 0);
    assert (n.logical + es)[n.store.first - 1..] == n.logical[n.store.first - 1..] + es;
  }

  lemma CutKeeps(n: Node, n': Node, k: nat)
    requires Inv(n) && CutStep(n, n', k)
    ensures Inv(n')
  {
    OperationsKeepLive(n.store, [], k);
    assert n.logical[..k - 1][n.store.first - 1..] == n.logical[n.store.first - 1..][..k - n.store.first];
  }

  lemma SaveKeeps(n: Node, n': Node)
    requires Inv(n) && SaveStep(n, n')
    ensures Inv(n')
  {
    TermIsLogical(n, n.pending.index);
    OperationsKeepLive(n.store, [], n.pending.index);
  }

  lemma FrontKeeps(n: Node, n': Node)
    requires Inv(n) && FrontStep(n, n')
    ensures Inv(n')
  {
    var k := n.pending.index;
    OperationsKeepLive(n.store, [], k);
    if k >= n.store.first {
      assert n.logical[n.store.first - 1..][k + 1 - n.store.first..] == n.logical[k..];
    }
  }

  lemma StartKeeps(n: Node, n': Node, threshold: nat)
    requires Inv(n) && StartStep(n, n', threshold)
    ensures Inv(n')
  {
    TermIsLogical(n, n.applied);
  }

  lemma NextKeeps(n: Node, n': Node)
    requires Inv(n) && Next(n, n')
    ensures Inv(n')
  {
    if es :| AppendStep(n, n', es) {
      AppendKeeps(n, n', es);
    } else if k :| CutStep(n, n', k) {
      CutKeeps(n, n', k);
    } else if SaveStep(n, n') {
      SaveKeeps(n, n');
    } else if FrontStep(n, n') {
      FrontKeeps(n, n');
    } else if t :| StartStep(n, n', t) {
      StartKeeps(n, n', t);
    }
  }

  ghost predicate StepAt(run: seq<Node>, i: nat) {
    i + 1 < |run| ==> Next(run[i], run[i + 1])
  }

  ghost predicate Run(run: seq<Node>) {
    |run| > 0 && run[0] == Node(Store(0, 0, 1, []), 0, 0, Idle, []) && forall i: nat :: StepAt(run, i)
  }

  lemma {:induction false} RunKeeps(run: seq<Node>, i: nat)
    requires Run(run) && i < |run|
    ensures Inv(run[i])
  {
    if i > 0 {
      RunKeeps(run, i - 1);
      assert StepAt(run, i - 1);
      NextKeeps(run[i - 1], run[i]);
    }
  }

  /** In every run, every index above the horizon stays readable, so no committed entry is ever missing. */
  lemma CommittedEntriesAreReadable(run: seq<Node>, i: nat, k: nat)
    requires Run(run) && i < |run| && run[i].applied < k <= run[i].commit
    ensures k <= |run[i].logical| && run[i].store.Read(k) == Some(run[i].logical[k - 1])
  {
    RunKeeps(run, i);
    LiveLogIsReadable(run[i], k);
  }

  /** Neither half of a compaction moves the last index or term. */
  lemma HalvesMoveNothing(n: Node, n': Node)
    requires Inv(n) && (SaveStep(n, n') || FrontStep(n, n'))
    ensures n'.store.Last() == n.store.Last() && n'.store.LastTerm() == n.store.LastTerm() && n'.logical == n.logical
  {
    NextKeeps(n, n');
    LiveLogIsReadable(n, 0);
    LiveLogIsReadable(n', 0);
  }

  // --- The applier ---

  lemma NextIsReadable(n: Node)
    requires Inv(n) && n.applied < n.commit
    ensures n.applied < |n.logical| && n.store.Read(n.applied + 1) == Some(n.logical[n.applied])
    ensures Inv(n.(applied := n.applied + 1))
  {
    LiveLogIsReadable(n, n.applied + 1);
    NextKeeps(n, n.(applied := n.applied + 1));
  }

  /** The applier's loop; `missing` is the halt on a committed entry that cannot be read. */
  method ApplyCommitted(n: Node) returns (n': Node, entries: seq<Entry>, missing: bool)
    requires Inv(n)
    ensures !missing && n' == n.(applied := n.commit) && Inv(n')
    ensures entries == n.logical[n.applied..n.commit]
  {
    n', entries, missing := n, [], false;
    while n'.applied < n'.commit
      invariant Inv(n') && !missing && n.applied <= n'.applied <= n.commit && n' == n.(applied := n'.applied)
      invariant entries == n.logical[n.applied..n'.applied]
      decreases n'.commit - n'.applied
    {
      NextIsReadable(n');
      var e := n'.store.Read(n'.applied + 1);
      if e == None {
        missing := true;
        return;
      }
      entries := entries + [e.value];
      n' := n'.(applied := n'.applied + 1);
    }
  }

  // --- The leader's choice of what to send ---

  datatype Strategy =
    | Append(prev: nat, prevTerm: nat, entries: seq<Entry>)
    | Snapshot(horizon: nat, term: nat)

  function RangeFrom(s: Store, next: nat): seq<Entry>
    requires s.Live() && s.first <= next
  {
    if next > s.Last() then [] else s.entries[next - s.first..]
  }

  /** A peer behind the horizon gets the snapshot's coordinates, any other the rest of the log. */
  function Choose(s: Store, next: nat): Strategy
    requires s.Live() && next >= 1
  {
    if next <= s.snapIndex then Snapshot(s.snapIndex, s.snapTerm)
    else Append(next - 1, s.TermAt(next - 1), RangeFrom(s, next))
  }

  /**
   The AppendEntries branch is taken exactly above the horizon, and sends exactly `next..last` with
   the true previous term; the snapshot branch names an applied horizon with its true term.
   */
  lemma StrategySendsTheLiveLog(n: Node, next: nat)
    requires Inv(n) && 1 <= next <= |n.logical| + 1
    ensures match Choose(n.store, next)
            case Append(prev, prevTerm, entries) =>
              && next > n.store.snapIndex && prev == next - 1 && prevTerm == Raft.TermAt(n.logical, prev)
              && entries == n.logical[prev..] && prev + |entries| == n.store.Last()
            case Snapshot(horizon, term) =>
              next <= horizon <= n.applied && term == Raft.TermAt(n.logical, horizon)
  {
    if next > n.store.snapIndex {
      TermIsLogical(n, next - 1);
      var f := n.store.first;
      if next <= |n.logical| { assert n.logical[f - 1..][next - f..] == n.logical[next - 1..]; }
    }
  }

  // --- The follower's consistency check ---

  predicate PhysicallyConsistent(s: Store, prev: nat, prevTerm: nat) {
    prev == 0 || (prev <= s.Last() && s.TermAt(prev) == prevTerm)
  }

  predicate LogicallyConsistent(log: seq<Entry>, prev: nat, prevTerm: nat) {
    prev == 0 || (prev <= |log| && Raft.TermAt(log, prev) == prevTerm)
  }

  /**
   At or above the horizon the check on the stored log is the check on the logical log; below it
   the check may refuse what the logical log would accept, and only that.
   */
  lemma CheckRefusesOnlyBelowTheHorizon(n: Node, prev: nat, prevTerm: nat)
    requires Inv(n) && prevTerm >= 1
    ensures PhysicallyConsistent(n.store, prev, prevTerm) ==> LogicallyConsistent(n.logical, prev, prevTerm)
    ensures LogicallyConsistent(n.logical, prev, prevTerm) && !PhysicallyConsistent(n.store, prev, prevTerm)
            ==> 0 < prev < n.store.snapIndex <= n.applied
  {
    if prev == 0 || prev >= n.store.snapIndex {
      TermIsLogical(n, prev);
    }
  }
}
