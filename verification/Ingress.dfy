/**
 The gateway before the whole ledger: every request is stabilized against what some store held at
 some moment, however stale, and what the oracle's answer resolves to is what leaders propose.
 */
module Ingress {
  import opened Common
  import opened FsmTypes
  import opened Raft
  import opened Cluster
  import opened RaftSafety
  import opened RaftOrigin
  import opened Stabilizer
  import opened Gateway
  import Ledger
  import Whole

  /** The proposal of a request that was resolved against the listed items. */
  ghost predicate Resolves(data: Payload, items: seq<GroceryItem>, intent: Intent, r: Resolution, client: string,
      sequenceId: nat, rawInput: string, now: Timestamp)
  {
    CanResolve(intent, items, r) && data == Encoded(Proposal(client, sequenceId, intent, r, rawInput, now))
  }

  ghost predicate FromStore(d: Disk, data: Payload) {
    exists items, intent, r, client, sequenceId: nat, rawInput, now ::
      Lists(items, d.inventory) && Resolves(data, items, intent, r, client, sequenceId, rawInput, now)
  }

  /** The payload comes from what some store held at some moment up to `i`. */
  ghost predicate FromSomeStore(run: seq<Whole.System>, i: nat, data: Payload) {
    exists j: nat, n :: j <= i && j < |run| && n in run[j].stores && FromStore(run[j].stores[n], data)
  }

  ghost predicate ProposesFromStores(s: State, s': State, run: seq<Whole.System>, i: nat) {
    forall a, data :: ClientPropose(s, s', a, data) ==> FromSomeStore(run, i, data)
  }

  ghost predicate GatewayAt(cluster: seq<State>, run: seq<Whole.System>, i: nat) {
    i + 1 < |run| && Whole.ClusterStep(cluster, run[i], run[i + 1]) ==>
      ProposesFromStores(cluster[run[i].now], cluster[run[i].now + 1], run, i)
  }

  /** A run of the whole in which leaders propose what the gateway resolved. */
  ghost predicate Serves(cluster: seq<State>, run: seq<Whole.System>) {
    Whole.Runs(cluster, run) && forall i: nat :: GatewayAt(cluster, run, i)
  }

  // --- Payloads ---

  predicate IsWellFormed(data: Payload) {
    data.Encoded? && (data.mutation.status == STATUS_COMMITTED ==> WellFormedEntry(data.mutation))
  }

  lemma FromStoreIsWellFormed(d: Disk, data: Payload)
    requires WellFormedInventory(d.inventory) && FromStore(d, data)
    ensures IsWellFormed(data)
  {
    var items, intent, r, client, sequenceId: nat, rawInput, now :|
      Lists(items, d.inventory) && Resolves(data, items, intent, r, client, sequenceId, rawInput, now);
    ProposedIsWellFormed(d.inventory, items, intent, r);
  }

  lemma {:induction false} FoldIsWellFormed(log: seq<Mutation>)
    requires forall k :: 0 <= k < |log| ==> IsWellFormed(Encoded(log[k]))
    ensures WellFormedInventory(Ledger.Fold(log).inventory)
    decreases |log|
  {
    if log != [] {
      var n := |log| - 1;
      FoldIsWellFormed(log[..n]);
      assert IsWellFormed(Encoded(log[n]));
      StepIsWellFormed(Ledger.Fold(log[..n]), |log|, log[n]);
    }
  }

  lemma PrefixIsWellFormed(d: Disk, c: seq<Entry>)
    requires Whole.AllEncoded(c) && exists m: nat :: Whole.HoldsPrefix(d, c, m)
    requires forall k :: 0 <= k < |c| ==> IsWellFormed(c[k].data)
    ensures WellFormedInventory(d.inventory)
  {
    var m: nat :| Whole.HoldsPrefix(d, c, m);
    var log := Whole.Mutations(c)[..m];
    forall k | 0 <= k < |log| ensures IsWellFormed(Encoded(log[k])) {
      assert IsWellFormed(c[k].data);
    }
    FoldIsWellFormed(log);
    assert Ledger.View(d).inventory == d.inventory;
  }

  // --- Runs ---

  lemma NothingLogged(cluster: seq<State>, run: seq<Whole.System>)
    requires Whole.Runs(cluster, run)
    ensures run[0].now < |cluster| && AllLogged(cluster[run[0].now].hist, IsWellFormed)
  {
  }

  lemma LoggedNext(cluster: seq<State>, s: Whole.System, s': Whole.System)
    requires Careful(cluster) && s.now + 1 < |cluster| && s'.now == s.now + 1
    requires AllLogged(cluster[s.now].hist, IsWellFormed)
    requires ProposesOnly(cluster[s.now], cluster[s.now + 1], IsWellFormed)
    ensures AllLogged(cluster[s'.now].hist, IsWellFormed)
  {
    CarefulLogs(cluster, s.now, IsWellFormed);
  }

  /** The cluster is at a moment of its run, and its leaders have logged well-formed payloads only. */
  ghost predicate LoggedAt(cluster: seq<State>, s: Whole.System) {
    s.now < |cluster| && AllLogged(cluster[s.now].hist, IsWellFormed)
  }

  lemma LoggedStep(cluster: seq<State>, s: Whole.System, s': Whole.System)
    requires Careful(cluster) && LoggedAt(cluster, s) && Whole.ClusterStep(cluster, s, s')
    requires ProposesOnly(cluster[s.now], cluster[s.now + 1], IsWellFormed)
    ensures LoggedAt(cluster, s')
  {
    LoggedNext(cluster, s, s');
  }

  lemma MoveIsClusterStep(cluster: seq<State>, run: seq<Whole.System>, i: nat)
    requires Whole.Runs(cluster, run) && i + 1 < |run| && run[i + 1].now != run[i].now
    ensures Careful(cluster) && Whole.ClusterStep(cluster, run[i], run[i + 1])
  {
    assert Whole.NextAt(cluster, run, i);
  }

  /** In the step at `i` leaders propose well-formed payloads only, if the cluster moves at all. */
  ghost predicate MovesWell(cluster: seq<State>, run: seq<Whole.System>, i: nat) {
    i + 1 < |run| && Whole.ClusterStep(cluster, run[i], run[i + 1]) ==>
      ProposesOnly(cluster[run[i].now], cluster[run[i].now + 1], IsWellFormed)
  }

  ghost predicate AllMoveWell(cluster: seq<State>, run: seq<Whole.System>, i: nat) {
    forall k: nat :: k < i ==> MovesWell(cluster, run, k)
  }

  lemma LoggedMove(cluster: seq<State>, run: seq<Whole.System>, i: nat)
    requires Whole.Runs(cluster, run) && i + 1 < |run| && LoggedAt(cluster, run[i]) && MovesWell(cluster, run, i)
    ensures LoggedAt(cluster, run[i + 1])
  {
    if run[i + 1].now != run[i].now {
      MoveIsClusterStep(cluster, run, i);
      LoggedStep(cluster, run[i], run[i + 1]);
    }
  }

  lemma {:induction false} LoggedAlong(cluster: seq<State>, run: seq<Whole.System>, i: nat)
    requires Whole.Runs(cluster, run) && i < |run| && AllMoveWell(cluster, run, i)
    ensures LoggedAt(cluster, run[i])
  {
    if i == 0 {
      NothingLogged(cluster, run);
    } else {
      LoggedAlong(cluster, run, i - 1);
      LoggedMove(cluster, run, i - 1);
    }
  }

  lemma PrefixStoreIsWellFormed(cluster: seq<State>, run: seq<Whole.System>, i: nat, n: NodeId)
    requires Whole.Runs(cluster, run) && Whole.Countable(cluster) && i < |run| && n in run[i].stores
    requires AllMoveWell(cluster, run, i)
    ensures WellFormedInventory(run[i].stores[n].inventory)
  {
    LoggedAlong(cluster, run, i);
    var c := Whole.EveryReplicaHoldsACommittedPrefix(cluster, run, i);
    CommittedWasLogged(cluster, run[i].now, c, IsWellFormed);
    PrefixIsWellFormed(run[i].stores[n], c);
  }

  lemma SourcedIsWellFormed(cluster: seq<State>, run: seq<Whole.System>, i: nat, data: Payload)
    requires Serves(cluster, run) && Whole.Countable(cluster) && FromSomeStore(run, i, data)
    ensures IsWellFormed(data)
    decreases i, 1
  {
    var j: nat, n :| j <= i && j < |run| && n in run[j].stores && FromStore(run[j].stores[n], data);
    EveryStoreIsWellFormed(cluster, run, j, n);
    FromStoreIsWellFormed(run[j].stores[n], data);
  }

  lemma ProposesWellFormed(cluster: seq<State>, run: seq<Whole.System>, i: nat)
    requires Serves(cluster, run) && Whole.Countable(cluster)
    requires i + 1 < |run| && Whole.ClusterStep(cluster, run[i], run[i + 1])
    ensures ProposesOnly(cluster[run[i].now], cluster[run[i].now + 1], IsWellFormed)
    decreases i, 2
  {
    assert GatewayAt(cluster, run, i);
    var s, s' := cluster[run[i].now], cluster[run[i].now + 1];
    forall a, data | ClientPropose(s, s', a, data) ensures IsWellFormed(data) {
      SourcedIsWellFormed(cluster, run, i, data);
    }
  }

  lemma AllMovesAreWell(cluster: seq<State>, run: seq<Whole.System>, i: nat)
    requires Serves(cluster, run) && Whole.Countable(cluster)
    ensures MovesWell(cluster, run, i)
    decreases i, 3
  {
    if i + 1 < |run| && Whole.ClusterStep(cluster, run[i], run[i + 1]) { ProposesWellFormed(cluster, run, i); }
  }

  /**
   Whatever the gateway read, however stale, and whatever the cluster and the stores went through: each
   item of each store sits under its own key, which is a slug, in a base unit, at a non-negative
   quantity of four decimals.
   */
  lemma EveryStoreIsWellFormed(cluster: seq<State>, run: seq<Whole.System>, i: nat, n: NodeId)
    requires Serves(cluster, run) && Whole.Countable(cluster) && i < |run| && n in run[i].stores
    ensures WellFormedInventory(run[i].stores[n].inventory)
    decreases i, 0
  {
    forall k: nat | k < i ensures MovesWell(cluster, run, k) {
      AllMovesAreWell(cluster, run, k);
    }
    PrefixStoreIsWellFormed(cluster, run, i, n);
  }

  /** So no request is ever refused because of what an earlier one stored. */
  lemma NoStoreIsBlamed(cluster: seq<State>, run: seq<Whole.System>, i: nat, n: NodeId,
      items: seq<GroceryItem>, intent: Intent, v: Veto)
    requires Serves(cluster, run) && Whole.Countable(cluster) && i < |run| && n in run[i].stores
    requires Lists(items, run[i].stores[n].inventory)
    ensures var r := ValidateAndStabilize(intent, v, items); r.Denied? ==> !BlamesStoredItem(r.reason)
  {
    EveryStoreIsWellFormed(cluster, run, i, n);
    ListedAreWellFormed(items, run[i].stores[n].inventory);
    StabilizedIsWellFormed(intent, v, items);
  }
}
