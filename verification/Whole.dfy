/**
 The ledger as a whole: a Raft cluster in which every node feeds its own store from its own
 committed entries. Requests enter through the firewall of some replica, proposals carry admitted
 requests only, and stores may be serialized, restored and purged at any time. What `Replicas` takes
 for granted, one log that only grows, is here the log that the cluster has committed.
 */
module Whole {
  import opened Common
  import opened FsmTypes
  import opened Fsm
  import opened Ledger
  import opened Raft
  import opened Cluster
  import opened RaftVotes
  import opened RaftInv
  import opened RaftSafety
  import opened RaftOrigin
  import Replicas
  import Sequencer

  /** The stores beside a run of the cluster, which has come to its state number `now`. */
  datatype System = System(
    now: nat,
    stores: map<NodeId, Disk>,
    passed: set<(string, nat)>,
    snapshots: set<Replicas.Carried>,
    halted: set<NodeId>)

  /** The replicas beside a log. */
  function Beside(s: System, log: seq<Mutation>): Replicas.System {
    Replicas.System(log, s.stores, s.passed, s.snapshots, s.halted)
  }

  ghost predicate Init(cluster: seq<State>, s: System) {
    && s.now == 0 && |cluster| > 0 && s.stores.Keys == cluster[0].nodes.Keys != {}
    && Replicas.Init(Beside(s, []))
  }

  /** The payload of a request that passed a firewall, as the gateway proposes it. */
  predicate Admitted(data: Payload, passed: set<(string, nat)>) {
    && data.Encoded? && Sequencer.WellProposed(data.mutation)
    && (data.mutation.clientId, data.mutation.sequenceId) in passed
  }

  function AdmittedBy(passed: set<(string, nat)>): Payload -> bool {
    data => Admitted(data, passed)
  }

  /** The cluster takes its next step. */
  ghost predicate ClusterStep(cluster: seq<State>, s: System, s': System) {
    && s.now + 1 < |cluster| && s' == s.(now := s.now + 1)
    && ProposesOnly(cluster[s.now], cluster[s.now + 1], AdmittedBy(s.passed))
  }

  /** Node `n`, whose log is that of `x`, applies the next entry that it has committed; a refusal halts its store. */
  ghost predicate ApplyOwn(x: Node, s: System, s': System, n: NodeId) {
    && n in s.stores && n !in s.halted
    && var i := LastApplied(s.stores[n]);
    && i < x.commit && i < |x.log|
    && match ApplyEntry(s.stores[n], i + 1, x.log[i].data)
       case Applied(d) => s' == s.(stores := s.stores[n := d])
       case Refused(_, _) => s' == s.(halted := s.halted + {n})
  }

  ghost predicate ApplyStep(cluster: seq<State>, s: System, s': System) {
    s.now < |cluster| && exists n :: n in cluster[s.now].nodes && ApplyOwn(cluster[s.now].nodes[n], s, s', n)
  }

  /** Steps of a store that look at no log. */
  ghost predicate StoreStep(s: System, s': System) {
    && s'.now == s.now
    && var r, r' := Beside(s, []), Beside(s', []);
    || (exists n, c, q :: Replicas.PassFirewall(r, r', n, c, q))
    || (exists n, c :: Replicas.TakeSnapshot(r, r', n, c))
    || (exists n, c :: Replicas.Install(r, r', n, c))
    || (exists n :: Replicas.CrashInRestore(r, r', n))
  }

  ghost predicate Next(cluster: seq<State>, s: System, s': System) {
    ClusterStep(cluster, s, s') || ApplyStep(cluster, s, s') || StoreStep(s, s')
  }

  ghost predicate NextAt(cluster: seq<State>, run: seq<System>, i: nat) {
    i + 1 < |run| ==> Next(cluster, run[i], run[i + 1])
  }

  /** Any interleaving of a careful run of the cluster with steps of the stores. */
  ghost predicate Runs(cluster: seq<State>, run: seq<System>) {
    && Careful(cluster) && |run| > 0 && Init(cluster, run[0])
    && forall i: nat :: NextAt(cluster, run, i)
  }

  // --- The committed log as mutations ---

  predicate AllEncoded(c: seq<Entry>) {
    forall k :: 0 <= k < |c| ==> c[k].data.Encoded?
  }

  function Mutations(c: seq<Entry>): seq<Mutation>
    requires AllEncoded(c)
  {
    seq(|c|, k requires 0 <= k < |c| => c[k].data.mutation)
  }

  lemma MutationsPush(c: seq<Entry>, e: Entry)
    requires AllEncoded(c) && e.data.Encoded?
    ensures AllEncoded(c + [e]) && Mutations(c + [e]) == Mutations(c) + [e.data.mutation]
  {
  }

  /** Every replica holds the fold of a prefix of the committed log `c`. */
  ghost predicate Follows(s: System, c: seq<Entry>) {
    AllEncoded(c) && Replicas.Inv(Beside(s, Mutations(c)))
  }

  lemma CommitOneMore(s: System, c: seq<Entry>, e: Entry)
    requires Follows(s, c) && Admitted(e.data, s.passed) && |c| + 1 < U64_MAX
    ensures Follows(s, c + [e])
  {
    MutationsPush(c, e);
    Replicas.CommitEntryInv(Beside(s, Mutations(c)), Beside(s, Mutations(c + [e])), e.data.mutation);
  }

  lemma {:induction false} CommitMore(s: System, c: seq<Entry>, c': seq<Entry>)
    requires Follows(s, c) && c <= c' && |c'| < U64_MAX
    requires forall k :: 0 <= k < |c'| ==> Admitted(c'[k].data, s.passed)
    ensures Follows(s, c')
    decreases |c'|
  {
    if |c| == |c'| {
      assert c == c';
    } else {
      var n := |c'| - 1;
      WithoutLast(c, c');
      CommitMore(s, c, c'[..n]);
      CommitOneMore(s, c'[..n], c'[n]);
    }
  }

  lemma WithoutLast(c: seq<Entry>, c': seq<Entry>)
    requires |c| < |c'| && c <= c'
    ensures c <= c'[..|c'| - 1] && c'[..|c'| - 1] + [c'[|c'| - 1]] == c'
  {
  }

  lemma ApplyOwnFollows(x: Node, s: System, s': System, n: NodeId, c: seq<Entry>)
    requires Follows(s, c) && ApplyOwn(x, s, s', n) && CommittedPrefix(x, c)
    ensures Follows(s', c)
  {
    var i := LastApplied(s.stores[n]);
    assert x.log[i] == x.log[..x.commit][i] == c[i];
    assert Mutations(c)[i] == c[i].data.mutation;
    assert Encoded(Mutations(c)[i]) == x.log[i].data;
    Replicas.ApplyNextInv(Beside(s, Mutations(c)), Beside(s', Mutations(c)), n);
  }

  lemma StoreStepFollows(s: System, s': System, c: seq<Entry>)
    requires Follows(s, c) && StoreStep(s, s')
    ensures Follows(s', c) && s.passed <= s'.passed
  {
    var b, b' := Beside(s, Mutations(c)), Beside(s', Mutations(c));
    var r, r' := Beside(s, []), Beside(s', []);
    if n, x, q :| Replicas.PassFirewall(r, r', n, x, q) {
      Replicas.PassFirewallInv(b, b', n, x, q);
    } else if n, x :| Replicas.TakeSnapshot(r, r', n, x) {
      Replicas.TakeSnapshotInv(b, b', n, x);
    } else if n, x :| Replicas.Install(r, r', n, x) {
      Replicas.InstallInv(b, b', n, x);
    } else {
      var n :| Replicas.CrashInRestore(r, r', n);
      Replicas.CrashInRestoreInv(b, b', n);
    }
  }

  // --- Runs ---

  /** No run commits more entries than a 64-bit index can number. */
  ghost predicate Countable(cluster: seq<State>) {
    forall i, c :: 0 <= i < |cluster| && IsCommittedLog(cluster[i], c) ==> |c| < U64_MAX
  }

  /** The stores follow the committed log `c` of the cluster's present state. */
  ghost predicate Joined(cluster: seq<State>, s: System, c: seq<Entry>) {
    && s.now < |cluster| && IsCommittedLog(cluster[s.now], c)
    && AllLogged(cluster[s.now].hist, AdmittedBy(s.passed)) && Follows(s, c)
  }

  lemma NodesStay(cluster: seq<State>, i: nat)
    requires Careful(cluster) && i < |cluster| && cluster[0].nodes.Keys != {}
    ensures cluster[i].nodes.Keys != {}
  {
    var a :| a in cluster[0].nodes;
    NothingGoesBack(cluster, 0, i, a);
  }

  lemma InitJoins(cluster: seq<State>, s: System) returns (c: seq<Entry>)
    requires Careful(cluster) && Init(cluster, s)
    ensures Joined(cluster, s, c)
  {
    c := CommittedLogExists(cluster, 0);
    assert c == [];
    assert Mutations([]) == [];
    Replicas.InitInv(Beside(s, []));
  }

  /** What a step of the cluster adds to the committed log was admitted. */
  lemma CommitsExtend(cluster: seq<State>, i: nat, j: nat, c: seq<Entry>, c': seq<Entry>, passed: set<(string, nat)>)
    requires Careful(cluster) && Countable(cluster) && i <= j < |cluster|
    requires AllLogged(cluster[j].hist, AdmittedBy(passed))
    requires IsCommittedLog(cluster[i], c) && IsCommittedLog(cluster[j], c')
    ensures c <= c' && |c'| < U64_MAX && forall k :: 0 <= k < |c'| ==> Admitted(c'[k].data, passed)
  {
    CommittedLogOnlyGrows(cluster, i, j, c, c');
    CommittedWasLogged(cluster, j, c', AdmittedBy(passed));
    forall k | 0 <= k < |c'| ensures Admitted(c'[k].data, passed) {
      assert AdmittedBy(passed)(c'[k].data);
    }
  }

  lemma CommitsFollow(s: System, s': System, c: seq<Entry>, c': seq<Entry>)
    requires Follows(s, c) && c <= c' && |c'| < U64_MAX && s' == s.(now := s'.now)
    requires forall k :: 0 <= k < |c'| ==> Admitted(c'[k].data, s.passed)
    ensures Follows(s', c')
  {
    CommitMore(s, c, c');
    LaterFollows(s, s', c');
  }

  lemma CommitsJoin(cluster: seq<State>, s: System, s': System, c: seq<Entry>, c': seq<Entry>)
    requires Careful(cluster) && Countable(cluster) && ClusterStep(cluster, s, s') && Joined(cluster, s, c)
    requires IsCommittedLog(cluster[s'.now], c')
    ensures Joined(cluster, s', c')
  {
    StepStaysAdmitted(cluster, s, s');
    CommitsExtend(cluster, s.now, s'.now, c, c', s.passed);
    CommitsFollow(s, s', c, c');
  }

  lemma StepStaysAdmitted(cluster: seq<State>, s: System, s': System)
    requires Careful(cluster) && ClusterStep(cluster, s, s') && AllLogged(cluster[s.now].hist, AdmittedBy(s.passed))
    ensures s'.passed == s.passed && AllLogged(cluster[s'.now].hist, AdmittedBy(s.passed))
  {
    CarefulLogs(cluster, s.now, AdmittedBy(s.passed));
  }

  lemma LaterFollows(s: System, s': System, c: seq<Entry>)
    requires Follows(s, c) && s' == s.(now := s'.now)
    ensures Follows(s', c)
  {
    assert Beside(s', Mutations(c)) == Beside(s, Mutations(c));
  }

  lemma ClusterStepJoins(cluster: seq<State>, s: System, s': System, c: seq<Entry>) returns (c': seq<Entry>)
    requires Careful(cluster) && Countable(cluster) && cluster[0].nodes.Keys != {}
    requires ClusterStep(cluster, s, s') && Joined(cluster, s, c)
    ensures Joined(cluster, s', c')
  {
    NodesStay(cluster, s'.now);
    c' := CommittedLogExists(cluster, s'.now);
    CommitsJoin(cluster, s, s', c, c');
  }

  lemma ApplyStepJoins(cluster: seq<State>, s: System, s': System, c: seq<Entry>)
    requires ApplyStep(cluster, s, s') && Joined(cluster, s, c)
    ensures Joined(cluster, s', c)
  {
    var n :| n in cluster[s.now].nodes && ApplyOwn(cluster[s.now].nodes[n], s, s', n);
    ApplyOwnFollows(cluster[s.now].nodes[n], s, s', n, c);
  }

  lemma StoreStepJoins(cluster: seq<State>, s: System, s': System, c: seq<Entry>)
    requires StoreStep(s, s') && Joined(cluster, s, c)
    ensures Joined(cluster, s', c)
  {
    StoreStepFollows(s, s', c);
  }

  lemma StepJoins(cluster: seq<State>, s: System, s': System, c: seq<Entry>) returns (c': seq<Entry>)
    requires Careful(cluster) && Countable(cluster) && cluster[0].nodes.Keys != {}
    requires Next(cluster, s, s') && Joined(cluster, s, c)
    ensures Joined(cluster, s', c')
  {
    if ClusterStep(cluster, s, s') {
      c' := ClusterStepJoins(cluster, s, s', c);
    } else {
      c' := c;
      if ApplyStep(cluster, s, s') {
        ApplyStepJoins(cluster, s, s', c);
      } else {
        StoreStepJoins(cluster, s, s', c);
      }
    }
  }

  ghost predicate Joins(cluster: seq<State>, s: System) {
    exists c :: Joined(cluster, s, c)
  }

  lemma NextJoins(cluster: seq<State>, s: System, s': System)
    requires Careful(cluster) && Countable(cluster) && cluster[0].nodes.Keys != {}
    requires Next(cluster, s, s') && Joins(cluster, s)
    ensures Joins(cluster, s')
  {
    var b :| Joined(cluster, s, b);
    var c := StepJoins(cluster, s, s', b);
  }

  lemma JoinedAlong(cluster: seq<State>, run: seq<System>, i: nat)
    requires Runs(cluster, run) && Countable(cluster) && i < |run|
    ensures Joins(cluster, run[i])
  {
    var c := InitJoins(cluster, run[0]);
    for k := 0 to i
      invariant Joins(cluster, run[k])
    {
      assert NextAt(cluster, run, k);
      NextJoins(cluster, run[k], run[k + 1]);
    }
  }

  // --- Main results ---

  /** The store holds the fold of the first `m` entries of `c`, among them every one it says it applied. */
  ghost predicate HoldsPrefix(d: Disk, c: seq<Entry>, m: nat)
    requires AllEncoded(c)
  {
    LastApplied(d) <= m <= |c| && View(d) == Fold(Mutations(c)[..m])
  }

  /**
   The ledger's promise: at every moment of every run the cluster has one committed log, and each
   replica's inventory, sessions and clock are those of some prefix of it at least as long as the
   replica's applied index. No replica ever halts on an entry.
   */
  lemma EveryReplicaHoldsACommittedPrefix(cluster: seq<State>, run: seq<System>, i: nat) returns (c: seq<Entry>)
    requires Runs(cluster, run) && Countable(cluster) && i < |run|
    ensures run[i].now < |cluster| && IsCommittedLog(cluster[run[i].now], c) && AllEncoded(c)
    ensures forall n :: n in run[i].stores ==> exists m: nat :: HoldsPrefix(run[i].stores[n], c, m)
    ensures run[i].halted == {}
  {
    JoinedAlong(cluster, run, i);
    c :| Joined(cluster, run[i], c);
    forall n | n in run[i].stores ensures exists m: nat :: HoldsPrefix(run[i].stores[n], c, m) {
      var m := Replicas.StoreWitness(run[i].stores[n], Mutations(c));
      assert HoldsPrefix(run[i].stores[n], c, m);
    }
  }

  lemma {:induction false} TimeAdvances(cluster: seq<State>, run: seq<System>, i: nat, j: nat)
    requires Runs(cluster, run) && i <= j < |run|
    ensures run[i].now <= run[j].now < |cluster|
    decreases j
  {
    if j > 0 {
      TimeAdvances(cluster, run, if i < j then i else j - 1, j - 1);
      assert NextAt(cluster, run, j - 1);
    }
  }

  /** Two replicas, at any two moments: what one holds is a continuation of what the other holds. */
  lemma ReplicasHoldOneHistory(cluster: seq<State>, run: seq<System>, i: nat, j: nat, n: NodeId, p: NodeId)
    returns (c: seq<Entry>, m: nat, k: nat)
    requires Runs(cluster, run) && Countable(cluster) && i <= j < |run| && n in run[i].stores && p in run[j].stores
    ensures run[j].now < |cluster| && IsCommittedLog(cluster[run[j].now], c) && AllEncoded(c)
    ensures HoldsPrefix(run[i].stores[n], c, m) && HoldsPrefix(run[j].stores[p], c, k)
  {
    var b := EveryReplicaHoldsACommittedPrefix(cluster, run, i);
    c := EveryReplicaHoldsACommittedPrefix(cluster, run, j);
    TimeAdvances(cluster, run, i, j);
    CommittedLogOnlyGrows(cluster, run[i].now, run[j].now, b, c);
    m := PrefixOfLonger(run[i].stores[n], b, c);
    k :| HoldsPrefix(run[j].stores[p], c, k);
  }

  lemma PrefixOfLonger(d: Disk, b: seq<Entry>, c: seq<Entry>) returns (m: nat)
    requires AllEncoded(b) && AllEncoded(c) && b <= c && exists m: nat :: HoldsPrefix(d, b, m)
    ensures HoldsPrefix(d, c, m)
  {
    m :| HoldsPrefix(d, b, m);
    assert Mutations(b)[..m] == Mutations(c)[..m];
  }
}
