/**
 Replicas of one committed log. Requests pass the firewall of some replica, later enter the log,
 and are applied by each replica in order; snapshots carry whatever a replica holds when it is
 serialized, under an older label, and are installed anywhere at any later time; a crash inside
 a restore leaves a purged store.
 */
module Replicas {
  import opened Common
  import opened FsmTypes
  import opened Fsm
  import opened Ledger
  import opened Sequencer
  import ClientIds

  datatype Carried = Carried(horizon: nat, data: SnapshotData)

  datatype System = System(
    log: seq<Mutation>,
    stores: map<nat, Disk>,
    passed: set<(string, nat)>,
    snapshots: set<Carried>,
    halted: set<nat>)

  ghost predicate Init(s: System) {
    && s.log == [] && s.passed == {} && s.snapshots == {} && s.halted == {}
    && forall n :: n in s.stores ==> s.stores[n] == EMPTY_DISK
  }

  /** A request gets through the firewall of replica `n`. */
  ghost predicate PassFirewall(s: System, s': System, n: nat, client: string, sequenceId: nat) {
    && n in s.stores && ClientIds.IsCanonical(client) && sequenceId <= U64_MAX
    && EnforceSequenceFirewall(SessionOf(s.stores[n], client), sequenceId).Pass?
    && s' == s.(passed := s.passed + {(client, sequenceId)})
  }

  /** An entry for a request that once passed is committed; duplicates may be committed too. */
  ghost predicate CommitEntry(s: System, s': System, m: Mutation) {
    && WellProposed(m) && (m.clientId, m.sequenceId) in s.passed
    && |s.log| + 1 < U64_MAX
    && s' == s.(log := s.log + [m])
  }

  /** Replica `n` applies its next committed entry; a refusal halts it. */
  ghost predicate ApplyNext(s: System, s': System, n: nat) {
    && n in s.stores && n !in s.halted
    && var i := LastApplied(s.stores[n]);
    && i < |s.log|
    && match ApplyEntry(s.stores[n], i + 1, Encoded(s.log[i]))
       case Applied(d) => s' == s.(stores := s.stores[n := d])
       case Refused(_, _) => s' == s.(halted := s.halted + {n})
  }

  /** Replica `n` serializes its store under a label it has reached. */
  ghost predicate TakeSnapshot(s: System, s': System, n: nat, carried: Carried) {
    && n in s.stores
    && carried.horizon <= LastApplied(s.stores[n])
    && IsSnapshotOf(carried.data, s.stores[n])
    && s' == s.(snapshots := s.snapshots + {carried})
  }

  /** Replica `n` restores a snapshot taken anywhere, at any earlier time. */
  ghost predicate Install(s: System, s': System, n: nat, carried: Carried) {
    && n in s.stores && n !in s.halted && carried in s.snapshots
    && s' == s.(stores := s.stores[n := Restored(carried.horizon, carried.data)])
  }

  /** Replica `n` crashes inside a restore and reopens purged. */
  ghost predicate CrashInRestore(s: System, s': System, n: nat) {
    && n in s.stores
    && s' == s.(stores := s.stores[n := EMPTY_DISK])
  }

  ghost predicate Next(s: System, s': System) {
    || (exists n, c, q :: PassFirewall(s, s', n, c, q))
    || (exists m :: CommitEntry(s, s', m))
    || (exists n :: ApplyNext(s, s', n))
    || (exists n, c :: TakeSnapshot(s, s', n, c))
    || (exists n, c :: Install(s, s', n, c))
    || (exists n :: CrashInRestore(s, s', n))
  }

  ghost predicate Behaviour(run: seq<System>) {
    && |run| > 0 && Init(run[0])
    && forall i :: 0 <= i < |run| - 1 ==> Next(run[i], run[i + 1])
  }

  // --- Invariants ---

  /** The content is that of the first `m` entries of the log. */
  predicate Holds(c: Content, log: seq<Mutation>, m: nat) {
    m <= |log| && c == Fold(log[..m])
  }

  /** The store holds the fold of some prefix at least as long as its applied index. */
  ghost predicate StoreOk(d: Disk, log: seq<Mutation>) {
    && !d.meta.restoring
    && exists m :: LastApplied(d) <= m && Holds(View(d), log, m)
  }

  ghost predicate CarriedOk(c: Carried, log: seq<Mutation>) {
    && c.data.lastTime.Some?
    && exists m :: c.horizon <= m && Holds(View(Restored(c.horizon, c.data)), log, m)
  }

  ghost predicate LogOk(s: System) {
    && Accepted(s.log) && CanonicalIds(s.log) && |s.log| < U64_MAX
    && forall p :: p in s.passed ==> p.1 <= LastSeen(Fold(s.log).sessions, p.0) + 1
  }

  ghost predicate Inv(s: System) {
    && LogOk(s)
    && (forall n :: n in s.stores ==> StoreOk(s.stores[n], s.log))
    && (forall c :: c in s.snapshots ==> CarriedOk(c, s.log))
    && s.halted == {}
  }

  lemma StoreWitness(d: Disk, log: seq<Mutation>) returns (m: nat)
    requires StoreOk(d, log)
    ensures LastApplied(d) <= m && Holds(View(d), log, m)
  {
    m :| LastApplied(d) <= m && Holds(View(d), log, m);
  }

  /** A prefix content stays one when the log grows. */
  lemma HoldsGrows(c: Content, log: seq<Mutation>, m: nat, entry: Mutation)
    requires Holds(c, log, m)
    ensures Holds(c, log + [entry], m)
  {
    assert (log + [entry])[..m] == log[..m];
  }

  /** Whatever prefix a replica holds, the next entry it must apply fits, and leaves it well placed. */
  lemma ApplyFits(d: Disk, log: seq<Mutation>)
    requires Accepted(log) && |log| < U64_MAX && StoreOk(d, log) && LastApplied(d) < |log|
    ensures var i := LastApplied(d);
            var r := ApplyEntry(d, i + 1, Encoded(log[i]));
            r.Applied? && StoreOk(r.disk, log) && LastApplied(r.disk) == i + 1
  {
    var m := StoreWitness(d, log);
    var i := LastApplied(d);
    NextEntryFits(log, i, m);
    ApplyIsStep(d, i + 1, log[i]);
    var v := View(ApplyEntry(d, i + 1, Encoded(log[i])).disk);
    assert Holds(v, log, Max(m, i + 1));
  }

  lemma InitInv(s: System)
    requires Init(s)
    ensures Inv(s)
  {
    forall n | n in s.stores
      ensures StoreOk(s.stores[n], s.log)
    {
      assert Holds(View(s.stores[n]), s.log, 0);
    }
  }

  lemma PassFirewallInv(s: System, s': System, n: nat, client: string, sequenceId: nat)
    requires Inv(s) && PassFirewall(s, s', n, client, sequenceId)
    ensures Inv(s')
  {
    FirewallPassesExactlyTheNextSequence(s.stores[n], client, sequenceId);
    var m := StoreWitness(s.stores[n], s.log);
    LastSeenMonotone(s.log, m, |s.log|, client);
    assert s.log[..|s.log|] == s.log;
  }

  lemma CommitEntryInv(s: System, s': System, m: Mutation)
    requires Inv(s) && CommitEntry(s, s', m)
    ensures Inv(s')
  {
    LastSeenAtMostLength(s.log, m.clientId);
    AcceptedPush(s.log, m);
    FoldPush(s.log, m);
    forall p | p in s'.passed
      ensures p.1 <= LastSeen(Fold(s'.log).sessions, p.0) + 1
    {
      LastSeenOfStep(Fold(s.log), |s.log| + 1, m, p.0);
    }
    forall n | n in s'.stores
      ensures StoreOk(s'.stores[n], s'.log)
    {
      var k := StoreWitness(s.stores[n], s.log);
      HoldsGrows(View(s.stores[n]), s.log, k, m);
    }
    forall c | c in s'.snapshots
      ensures CarriedOk(c, s'.log)
    {
      assert CarriedOk(c, s.log);
      var v := View(Restored(c.horizon, c.data));
      var k :| c.horizon <= k && Holds(v, s.log, k);
      HoldsGrows(v, s.log, k, m);
    }
  }

  lemma ReplaceStore(s: System, n: nat, d: Disk)
    requires Inv(s) && StoreOk(d, s.log)
    ensures Inv(s.(stores := s.stores[n := d]))
  {
  }

  lemma ApplyNextIs(s: System, s': System, n: nat, d: Disk)
    requires ApplyNext(s, s', n)
    requires ApplyEntry(s.stores[n], LastApplied(s.stores[n]) + 1, Encoded(s.log[LastApplied(s.stores[n])]))
          == Applied(d)
    ensures s' == s.(stores := s.stores[n := d])
  {
  }

  lemma NextStore(d: Disk, log: seq<Mutation>) returns (d': Disk)
    requires Accepted(log) && |log| < U64_MAX && StoreOk(d, log) && LastApplied(d) < |log|
    ensures ApplyEntry(d, LastApplied(d) + 1, Encoded(log[LastApplied(d)])) == Applied(d')
    ensures StoreOk(d', log)
  {
    ApplyFits(d, log);
    d' := ApplyEntry(d, LastApplied(d) + 1, Encoded(log[LastApplied(d)])).disk;
  }

  lemma ApplyNextStep(s: System, s': System, n: nat) returns (d: Disk)
    requires Accepted(s.log) && |s.log| < U64_MAX && ApplyNext(s, s', n) && StoreOk(s.stores[n], s.log)
    ensures StoreOk(d, s.log) && s' == s.(stores := s.stores[n := d])
  {
    d := NextStore(s.stores[n], s.log);
    ApplyNextIs(s, s', n, d);
  }

  lemma ApplyNextInv(s: System, s': System, n: nat)
    requires Inv(s) && ApplyNext(s, s', n)
    ensures Inv(s')
  {
    var d := ApplyNextStep(s, s', n);
    ReplaceStore(s, n, d);
  }

  lemma TakeSnapshotInv(s: System, s': System, n: nat, c: Carried)
    requires Inv(s) && TakeSnapshot(s, s', n, c)
    ensures Inv(s')
  {
    var d := s.stores[n];
    var m := StoreWitness(d, s.log);
    assert CanonicalIds(s.log[..m]);
    CanonicalLogsAreSelfKeyed(s.log[..m]);
    assert SelfKeyed(d);
    SnapshotRoundTrip(d, c.data, c.horizon);
    assert Holds(View(Restored(c.horizon, c.data)), s.log, m);
  }

  lemma InstallInv(s: System, s': System, n: nat, c: Carried)
    requires Inv(s) && Install(s, s', n, c)
    ensures Inv(s')
  {
    assert CarriedOk(c, s.log);
  }

  lemma CrashInRestoreInv(s: System, s': System, n: nat)
    requires Inv(s) && CrashInRestore(s, s', n)
    ensures Inv(s')
  {
    assert Holds(View(EMPTY_DISK), s.log, 0);
  }

  lemma NextInv(s: System, s': System)
    requires Inv(s) && Next(s, s')
    ensures Inv(s')
  {
    if n, c, q :| PassFirewall(s, s', n, c, q) {
      PassFirewallInv(s, s', n, c, q);
    } else if m :| CommitEntry(s, s', m) {
      CommitEntryInv(s, s', m);
    } else if n :| ApplyNext(s, s', n) {
      ApplyNextInv(s, s', n);
    } else if n, c :| TakeSnapshot(s, s', n, c) {
      TakeSnapshotInv(s, s', n, c);
    } else if n, c :| Install(s, s', n, c) {
      InstallInv(s, s', n, c);
    } else {
      var n :| CrashInRestore(s, s', n);
      CrashInRestoreInv(s, s', n);
    }
  }

  lemma {:induction false} BehaviourInv(run: seq<System>, i: nat)
    requires Behaviour(run) && i < |run|
    ensures Inv(run[i])
  {
    if i == 0 {
      InitInv(run[0]);
    } else {
      BehaviourInv(run, i - 1);
      NextInv(run[i - 1], run[i]);
    }
  }

  // --- Main results ---

  /**
   Replica content: at every moment of every run, each replica's inventory, sessions and clock
   are those of some prefix of the log at least as long as its applied index.
   */
  lemma EveryReplicaHoldsALogPrefix(run: seq<System>, i: nat, n: nat)
    requires Behaviour(run) && i < |run| && n in run[i].stores
    ensures exists m :: LastApplied(run[i].stores[n]) <= m <= |run[i].log|
                        && View(run[i].stores[n]) == Fold(run[i].log[..m])
  {
    BehaviourInv(run, i);
    var m := StoreWitness(run[i].stores[n], run[i].log);
  }

  /** No committed entry is ever refused: no replica halts, whatever duplicates got in. */
  lemma NoReplicaEverHalts(run: seq<System>, i: nat)
    requires Behaviour(run) && i < |run|
    ensures run[i].halted == {}
    ensures forall n :: n in run[i].stores && LastApplied(run[i].stores[n]) < |run[i].log| ==>
              ApplyEntry(run[i].stores[n], LastApplied(run[i].stores[n]) + 1,
                         Encoded(run[i].log[LastApplied(run[i].stores[n])])).Applied?
  {
    BehaviourInv(run, i);
    forall n | n in run[i].stores && LastApplied(run[i].stores[n]) < |run[i].log|
      ensures ApplyEntry(run[i].stores[n], LastApplied(run[i].stores[n]) + 1,
                         Encoded(run[i].log[LastApplied(run[i].stores[n])])).Applied?
    {
      ApplyFits(run[i].stores[n], run[i].log);
    }
  }
}
