/** Cold-boot recovery: replaying committed log entries into the store, halting on a missing one. */
module Recovery {
  import opened Common
  import opened FsmTypes
  import opened Fsm
  import opened Ledger
  import ClientIds
  import Replicas
  import opened Sequencer

  datatype Outcome =
    | Synchronized(disk: Disk)
    | Regressed                                // the store is ahead of the commit index
    | Missing(index: nat, disk: Disk)          // a committed entry is not in the log
    | Failed(error: FsmError, disk: Disk)      // the store refused an entry

  /** Replay of the entries after the applied index up to `committed`. */
  function Replay(d: Disk, entries: map<nat, Payload>, committed: nat): Outcome
    decreases committed - LastApplied(d)
  {
    var next := LastApplied(d) + 1;
    if LastApplied(d) >= committed then Synchronized(d)
    else if next !in entries then Missing(next, d)
    else match ApplyEntry(d, next, entries[next])
      case Applied(d') => Replay(d', entries, committed)
      case Refused(e, _) => Failed(e, d)
  }

  /** Specification of the whole recovery. */
  function Recovered(d: Disk, entries: map<nat, Payload>, committed: nat): Outcome {
    if LastApplied(d) > committed then Regressed else Replay(d, entries, committed)
  }

  /** The replay loop over a store, against the log's entries. */
  method Recover(store: LactoStore, entries: map<nat, Payload>, committed: nat) returns (r: Outcome)
    requires !store.poisoned && committed <= U64_MAX
    modifies store
    ensures r == Recovered(old(store.Contents()), entries, committed)
    ensures match r
            case Synchronized(d) => store.Contents() == d && !store.poisoned
            case Regressed => store.Contents() == old(store.Contents())
            case Missing(_, d) => store.Contents() == d
            case Failed(_, d) => store.Contents() == d
    ensures r.Regressed? <==> LastApplied(old(store.Contents())) > committed
    ensures r.Regressed? ==> store.journal == old(store.journal) && !store.poisoned
    ensures |store.journal| - |old(store.journal)|
            == LastApplied(store.Contents()) - LastApplied(old(store.Contents()))
  {
    var lastApplied := match store.meta.lastApplied case Some(i) => i case None => 0;
    if lastApplied > committed { return Regressed; }
    var current := lastApplied;
    while current < committed
      invariant current == LastApplied(store.Contents()) <= committed
      invariant !store.poisoned
      invariant |store.journal| - |old(store.journal)| == current - LastApplied(old(store.Contents()))
      invariant Replay(store.Contents(), entries, committed) == Replay(old(store.Contents()), entries, committed)
      decreases committed - current
    {
      var next := current + 1;
      if next !in entries { return Missing(next, store.Contents()); }
      ghost var before := store.Contents();
      var error := store.Apply(next, entries[next]);
      if error.Some? {
        ReplayRefused(before, entries, committed);
        return Failed(error.value, store.Contents());
      }
      ReplayUnfold(before, entries, committed, store.Contents());
      current := next;
    }
    return Synchronized(store.Contents());
  }

  /** Entry `i` is the first that was not replayed. */
  predicate StopsAt(d: Disk, d': Disk, i: nat, committed: nat) {
    LastApplied(d) < i <= committed && LastApplied(d') == i - 1
  }

  /**
   How a recovery ends, whatever the store and the log hold: it is refused exactly when the store is past
   the commit index; else it reaches the commit index, or stops before the first entry that is absent or
   that the store refuses.
   */
  lemma {:induction false} RecoveryEnds(d: Disk, entries: map<nat, Payload>, committed: nat)
    ensures match Recovered(d, entries, committed)
            case Regressed => LastApplied(d) > committed
            case Synchronized(d') => LastApplied(d) <= LastApplied(d') == committed
            case Missing(i, d') => StopsAt(d, d', i, committed) && i !in entries
            case Failed(e, d') =>
              var i := LastApplied(d') + 1;
              StopsAt(d, d', i, committed) && i in entries && ApplyEntry(d', i, entries[i]).Refused?
              && ApplyEntry(d', i, entries[i]).error == e
    decreases committed - LastApplied(d)
  {
    var next := LastApplied(d) + 1;
    if LastApplied(d) < committed && next in entries && ApplyEntry(d, next, entries[next]).Applied? {
      ReplayUnfold(d, entries, committed, ApplyEntry(d, next, entries[next]).disk);
      RecoveryEnds(ApplyEntry(d, next, entries[next]).disk, entries, committed);
    }
  }

  /**
   Restartability: stop a replay after any number of entries, reopen, replay again: the final
   outcome is that of the uninterrupted replay.
   */
  lemma {:induction false} InterruptedReplayResumes(d: Disk, entries: map<nat, Payload>, stop: nat, committed: nat)
    requires stop <= committed && Replay(d, entries, stop).Synchronized?
    ensures Replay(Replay(d, entries, stop).disk, entries, committed) == Replay(d, entries, committed)
    decreases stop - LastApplied(d)
  {
    if LastApplied(d) < stop {
      var d' := ReplayTakes(d, entries, stop);
      ReplayUnfold(d, entries, stop, d');
      ReplayUnfold(d, entries, committed, d');
      InterruptedReplayResumes(d', entries, stop, committed);
    } else {
      ReplayKeeps(d, entries, stop);
    }
  }

  lemma ReplayTakes(d: Disk, entries: map<nat, Payload>, committed: nat) returns (d': Disk)
    requires Replay(d, entries, committed).Synchronized? && LastApplied(d) < committed
    ensures LastApplied(d) + 1 in entries
    ensures ApplyEntry(d, LastApplied(d) + 1, entries[LastApplied(d) + 1]) == Applied(d')
  {
    d' := ApplyEntry(d, LastApplied(d) + 1, entries[LastApplied(d) + 1]).disk;
  }

  lemma ReplayKeeps(d: Disk, entries: map<nat, Payload>, committed: nat)
    requires LastApplied(d) >= committed
    ensures Replay(d, entries, committed) == Synchronized(d)
  {
  }

  /** The entries are those of the log wherever they are present. */
  predicate EntriesOf(entries: map<nat, Payload>, log: seq<Mutation>) {
    forall i :: i in entries && 1 <= i <= |log| ==> entries[i] == Encoded(log[i - 1])
  }

  predicate Available(entries: map<nat, Payload>, lo: nat, hi: nat) {
    forall i :: lo < i <= hi ==> i in entries
  }

  /** One replayed entry of an accepted log. */
  lemma ReplayStep(d: Disk, log: seq<Mutation>, m: nat) returns (d': Disk)
    requires Accepted(log) && |log| < U64_MAX
    requires LastApplied(d) <= m <= |log| && View(d) == Fold(log[..m]) && LastApplied(d) < |log|
    ensures ApplyEntry(d, LastApplied(d) + 1, Encoded(log[LastApplied(d)])) == Applied(d')
    ensures LastApplied(d') == LastApplied(d) + 1
    ensures View(d') == Fold(log[..Max(m, LastApplied(d'))])
  {
    var i := LastApplied(d);
    NextEntryFits(log, i, m);
    ApplyIsStep(d, i + 1, log[i]);
    d' := ApplyEntry(d, i + 1, Encoded(log[i])).disk;
  }

  /**
   Recovery is correct: from a store holding the first `m` entries, an accepted log whose tail
   is present replays completely, and leaves the content of the first max(m, committed) entries.
   */
  lemma {:induction false} ReplayReachesTheFold(d: Disk, entries: map<nat, Payload>, log: seq<Mutation>, m: nat,
      committed: nat)
    requires Accepted(log) && |log| < U64_MAX && EntriesOf(entries, log)
    requires LastApplied(d) <= m <= |log| && View(d) == Fold(log[..m])
    requires LastApplied(d) <= committed <= |log| && Available(entries, LastApplied(d), committed)
    ensures var r := Replay(d, entries, committed);
            r.Synchronized? && LastApplied(r.disk) == committed && View(r.disk) == Fold(log[..Max(m, committed)])
    decreases committed - LastApplied(d)
  {
    if LastApplied(d) < committed {
      var d' := ReplayStep(d, log, m);
      ReplayUnfold(d, entries, committed, d');
      ReplayReachesTheFold(d', entries, log, Max(m, LastApplied(d')), committed);
      assert Max(Max(m, LastApplied(d')), committed) == Max(m, committed);
    } else {
      ReplayDone(d, entries, committed);
    }
  }

  /** The outcome of a replay from `lo`: complete if nothing is absent, else halted at the first gap. */
  predicate CompleteOrGap(r: Outcome, entries: map<nat, Payload>, lo: nat, committed: nat) {
    match r
    case Synchronized(_) => Available(entries, lo, committed)
    case Missing(i, d) => lo < i <= committed && i !in entries && Available(entries, lo, i - 1) && LastApplied(d)
          == i - 1
    case _ => false
  }

  lemma ReplayUnfold(d: Disk, entries: map<nat, Payload>, committed: nat, d': Disk)
    requires LastApplied(d) < committed && LastApplied(d) + 1 in entries
    requires ApplyEntry(d, LastApplied(d) + 1, entries[LastApplied(d) + 1]) == Applied(d')
    ensures LastApplied(d') == LastApplied(d) + 1
    ensures Replay(d, entries, committed) == Replay(d', entries, committed)
  {
  }

  lemma ReplayRefused(d: Disk, entries: map<nat, Payload>, committed: nat)
    requires LastApplied(d) < committed && LastApplied(d) + 1 in entries
    requires ApplyEntry(d, LastApplied(d) + 1, entries[LastApplied(d) + 1]).Refused?
    ensures Replay(d, entries, committed)
            == Failed(ApplyEntry(d, LastApplied(d) + 1, entries[LastApplied(d) + 1]).error, d)
  {
  }

  lemma ReplayDone(d: Disk, entries: map<nat, Payload>, committed: nat)
    requires LastApplied(d) == committed
    ensures Replay(d, entries, committed) == Synchronized(d)
  {
  }

  lemma ReplayStops(d: Disk, entries: map<nat, Payload>, committed: nat)
    requires LastApplied(d) <= committed
    requires LastApplied(d) == committed || LastApplied(d) + 1 !in entries
    ensures CompleteOrGap(Replay(d, entries, committed), entries, LastApplied(d), committed)
  {
  }

  lemma GapFromEarlier(r: Outcome, entries: map<nat, Payload>, lo: nat, committed: nat)
    requires lo + 1 in entries && CompleteOrGap(r, entries, lo + 1, committed)
    ensures CompleteOrGap(r, entries, lo, committed)
  {
  }

  /** A replay of an accepted log never fails: it completes, or halts at the first absent entry. */
  lemma {:induction false} ReplayCompletesOrHaltsAtAGap(d: Disk, entries: map<nat, Payload>, log: seq<Mutation>,
      m: nat, committed: nat)
    requires Accepted(log) && |log| < U64_MAX && EntriesOf(entries, log)
    requires LastApplied(d) <= m <= |log| && View(d) == Fold(log[..m])
    requires LastApplied(d) <= committed <= |log|
    ensures CompleteOrGap(Replay(d, entries, committed), entries, LastApplied(d), committed)
    decreases committed - LastApplied(d)
  {
    var i := LastApplied(d);
    if i < committed && i + 1 in entries {
      var d' := ReplayStep(d, log, m);
      ReplayUnfold(d, entries, committed, d');
      ReplayCompletesOrHaltsAtAGap(d', entries, log, Max(m, i + 1), committed);
      GapFromEarlier(Replay(d', entries, committed), entries, i, committed);
    } else {
      ReplayStops(d, entries, committed);
    }
  }

  /**
   Snapshot under an old label: install at label L the content of the first A entries, replay
   L+1..A, and the store is exactly at A: every re-applied entry is a duplicate.
   */
  lemma StaleLabelIsHarmless(data: SnapshotData, horizon: nat, log: seq<Mutation>, a: nat, entries: map<nat, Payload>)
    requires Accepted(log) && |log| < U64_MAX && EntriesOf(entries, log) && Available(entries, horizon, a)
    requires horizon <= a <= |log| && View(Restored(horizon, data)) == Fold(log[..a])
    ensures var r := Replay(Restored(horizon, data), entries, a);
            r.Synchronized? && LastApplied(r.disk) == a && View(r.disk) == Fold(log[..a])
    ensures forall i :: horizon <= i < a ==> !IsFresh(Fold(log[..a]), log[i])
  {
    ReplayReachesTheFold(Restored(horizon, data), entries, log, a, a);
    forall i | horizon <= i < a
      ensures !IsFresh(Fold(log[..a]), log[i])
    {
      PastEntriesAreDuplicates(log, i, a);
    }
  }

  // --- When the store runs ahead of the commit index ---

  lemma {:induction false} NoEffectNoChange(log: seq<Mutation>, i: nat, j: nat)
    requires i <= j <= |log|
    requires forall k :: i <= k < j ==> !TookEffect(log, k)
    ensures Fold(log[..j]) == Fold(log[..i])
    decreases j - i
  {
    if i < j {
      NoEffectNoChange(log, i, j - 1);
      FoldNext(log, j - 1);
      assert !TookEffect(log, j - 1);
    }
  }

  /** If entry `k` took effect, no prefix past it has the content of a prefix before it. */
  lemma EffectShows(log: seq<Mutation>, i: nat, k: nat, j: nat)
    requires i <= k < j <= |log| && TookEffect(log, k)
    ensures Fold(log[..j]) != Fold(log[..i])
  {
    LastSeenMonotone(log, i, k, log[k].clientId);
    FoldNext(log, k);
    LastSeenMonotone(log, k + 1, j, log[k].clientId);
  }

  /**
   A recovered store equals the fold up to the commit index exactly when none of the entries it
   already held beyond that index took effect.
   */
  lemma RecoveredContentMatchesCommit(d: Disk, entries: map<nat, Payload>, log: seq<Mutation>, m: nat, committed: nat)
    requires Accepted(log) && |log| < U64_MAX && EntriesOf(entries, log)
    requires LastApplied(d) <= m <= |log| && View(d) == Fold(log[..m])
    requires LastApplied(d) <= committed <= |log| && Available(entries, LastApplied(d), committed)
    ensures Replay(d, entries, committed).Synchronized?
    ensures View(Replay(d, entries, committed).disk) == Fold(log[..committed]) <==>
            forall k :: committed <= k < m ==> !TookEffect(log, k)
  {
    ReplayReachesTheFold(d, entries, log, m, committed);
    if k :| committed <= k < m && TookEffect(log, k) {
      EffectShows(log, committed, k, m);
    } else if committed <= m {
      NoEffectNoChange(log, committed, m);
    }
  }

  function Sample(client: string, sequenceId: nat): Mutation {
    Mutation(client, sequenceId, "milk", "Milk", 1.0, "ml", "ml", "AnimalSecretions", "add 1 ml milk", "",
             Some(Timestamp(1, 0)), false, STATUS_COMMITTED)
  }

  /** A store labelled 1 that holds the content of two entries. */
  function Ahead(client: string): Disk {
    var c := Fold([Sample(client, 1), Sample(client, 2)]);
    Disk(c.inventory, c.sessions, Meta(Some(1), Some(c.clock), false))
  }

  /**
   The content can indeed run ahead: a snapshot of two entries installed under label 1 recovers,
   at commit index 1, to the content of both.
   */
  lemma RecoveryCanShowUncommittedTail(client: string)
    requires ClientIds.IsCanonical(client)
    ensures Accepted([Sample(client, 1), Sample(client, 2)])
    ensures Replay(Ahead(client), map[], 1).Synchronized?
    ensures View(Replay(Ahead(client), map[], 1).disk) != Fold([Sample(client, 1)])
  {
    var a, b := Sample(client, 1), Sample(client, 2);
    var log := [a, b];
    assert log[..0] == [] && log[..1] == [a] && log[..2] == log && [a][..0] == [];
    FoldNext(log, 0);
    FoldNext(log, 1);
    assert Fold([]) == NOTHING;
    assert LastSeen(Fold([a]).sessions, client) == 1;
    assert LastSeen(Fold(log).sessions, client) == 2;
    forall i | 0 <= i < |log|
      ensures Fits(Fold(log[..i]), log[i])
    {
      if i == 0 {
        assert Fits(Fold([]), a);
      } else {
        assert Fits(Fold([a]), b);
      }
    }
    assert View(Ahead(client)) == Fold(log);
  }

  /** A run of the replicas can go on with any step. */
  lemma GoOn(run: seq<Replicas.System>, s: Replicas.System) returns (longer: seq<Replicas.System>)
    requires Replicas.Behaviour(run) && Replicas.Next(run[|run| - 1], s)
    ensures Replicas.Behaviour(longer) && longer[|longer| - 1] == s
  {
    longer := run + [s];
    forall i | 0 <= i < |longer| - 1 ensures Replicas.Next(longer[i], longer[i + 1]) {
      if i < |run| - 1 { assert Replicas.Next(run[i], run[i + 1]); }
    }
  }

  /** The next request of a client is let in at replica 0, committed there and applied there. */
  lemma Served(run: seq<Replicas.System>, m: Mutation, d: Disk) returns (longer: seq<Replicas.System>)
    requires Replicas.Behaviour(run) && WellProposed(m) && m.sequenceId <= U64_MAX
    requires var s := run[|run| - 1];
             && 0 in s.stores && s.halted == {} && |s.log| + 1 < U64_MAX && LastApplied(s.stores[0]) == |s.log|
             && m.sequenceId == LastSeen(s.stores[0].sessions, m.clientId) + 1
             && ApplyEntry(s.stores[0], |s.log| + 1, Encoded(m)) == Applied(d)
    ensures Replicas.Behaviour(longer)
    ensures var s, s' := run[|run| - 1], longer[|longer| - 1];
            s' == s.(log := s.log + [m], passed := s.passed + {(m.clientId, m.sequenceId)}, stores := s.stores[0 := d])
  {
    var s := run[|run| - 1];
    FirewallPassesExactlyTheNextSequence(s.stores[0], m.clientId, m.sequenceId);
    var s1 := s.(passed := s.passed + {(m.clientId, m.sequenceId)});
    assert Replicas.PassFirewall(s, s1, 0, m.clientId, m.sequenceId);
    longer := GoOn(run, s1);
    var s2 := s1.(log := s.log + [m]);
    assert Replicas.CommitEntry(s1, s2, m);
    longer := GoOn(longer, s2);
    var s3 := s2.(stores := s.stores[0 := d]);
    assert Replicas.ApplyNext(s2, s3, 0);
    longer := GoOn(longer, s3);
  }

  /** What replica 0 holds can be installed at replica 1 under any label that replica 0 has reached. */
  lemma Shipped(run: seq<Replicas.System>, data: SnapshotData, horizon: nat) returns (longer: seq<Replicas.System>)
    requires Replicas.Behaviour(run)
    requires var s := run[|run| - 1];
             && 0 in s.stores && 1 in s.stores && s.halted == {}
             && horizon <= LastApplied(s.stores[0]) && IsSnapshotOf(data, s.stores[0])
    ensures Replicas.Behaviour(longer)
    ensures longer[|longer| - 1].log == run[|run| - 1].log
    ensures longer[|longer| - 1].stores == run[|run| - 1].stores[1 := Restored(horizon, data)]
  {
    var s, c := run[|run| - 1], Replicas.Carried(horizon, data);
    var s1 := s.(snapshots := s.snapshots + {c});
    assert Replicas.TakeSnapshot(s, s1, 0, c);
    longer := GoOn(run, s1);
    var s2 := s1.(stores := s.stores[1 := Restored(horizon, data)]);
    assert Replicas.Install(s1, s2, 1, c);
    longer := GoOn(longer, s2);
  }

  lemma TwoSamples(client: string) returns (d1: Disk, d2: Disk)
    requires ClientIds.IsCanonical(client)
    ensures ApplyEntry(EMPTY_DISK, 1, Encoded(Sample(client, 1))) == Applied(d1) && LastApplied(d1) == 1
    ensures ApplyEntry(d1, 2, Encoded(Sample(client, 2))) == Applied(d2) && LastApplied(d2) == 2
    ensures LastSeen(EMPTY_DISK.sessions, client) == 0 && LastSeen(d1.sessions, client) == 1
    ensures d2.inventory == map["milk" := ItemOf(2, Sample(client, 2), Timestamp(1, 0))]
    ensures d2.sessions == map[client := RecordOf(2, Sample(client, 2), client, Timestamp(1, 0))]
    ensures View(d2) == Step(Step(NOTHING, 1, Sample(client, 1)), 2, Sample(client, 2))
  {
    d1 := ApplyEntry(EMPTY_DISK, 1, Encoded(Sample(client, 1))).disk;
    d2 := ApplyEntry(d1, 2, Encoded(Sample(client, 2))).disk;
  }

  lemma TwoSamplesShipped(client: string, d2: Disk) returns (data: SnapshotData)
    requires d2.inventory == map["milk" := ItemOf(2, Sample(client, 2), Timestamp(1, 0))]
    requires d2.sessions == map[client := RecordOf(2, Sample(client, 2), client, Timestamp(1, 0))]
    requires View(d2) == Step(Step(NOTHING, 1, Sample(client, 1)), 2, Sample(client, 2))
    ensures IsSnapshotOf(data, d2) && Restored(1, data) == Ahead(client)
  {
    var a, b := Sample(client, 1), Sample(client, 2);
    FoldPush([], a);
    FoldPush([a], b);
    assert [] + [a] == [a] && [a] + [b] == [a, b];
    var item, r := d2.inventory["milk"], d2.sessions[client];
    data := SnapshotData([item], [r], Some(Clock(d2)));
    SmallSnapshot(d2, "milk", item, client, r);
    SnapshotRoundTrip(d2, data, 1);
  }

  lemma SmallSnapshot(d: Disk, key: string, item: GroceryItem, client: string, r: SessionRecord)
    requires d.inventory == map[key := item] && d.sessions == map[client := r]
    ensures IsSnapshotOf(SnapshotData([item], [r], Some(Clock(d))), d)
  {
    assert d.inventory[key] == item && d.sessions[client] == r;
    assert item in d.inventory.Values && r in d.sessions.Values;
  }

  lemma TwoServed(client: string, d1: Disk, d2: Disk) returns (run: seq<Replicas.System>)
    requires ClientIds.IsCanonical(client)
    requires ApplyEntry(EMPTY_DISK, 1, Encoded(Sample(client, 1))) == Applied(d1) && LastApplied(d1) == 1
    requires ApplyEntry(d1, 2, Encoded(Sample(client, 2))) == Applied(d2)
    requires LastSeen(EMPTY_DISK.sessions, client) == 0 && LastSeen(d1.sessions, client) == 1
    ensures Replicas.Behaviour(run)
    ensures var s := run[|run| - 1];
            && s.log == [Sample(client, 1), Sample(client, 2)] && s.halted == {}
            && s.stores == map[0 := d2, 1 := EMPTY_DISK]
  {
    run := [Replicas.System([], map[0 := EMPTY_DISK, 1 := EMPTY_DISK], {}, {}, {})];
    run := Served(run, Sample(client, 1), d1);
    run := Served(run, Sample(client, 2), d2);
  }

  /**
   And a run of the replicas leads there: replica 0 applies both entries and serializes its store
   under label 1, replica 1 installs that, and its recovery at commit index 1 shows both.
   */
  lemma ARunShowsAnUncommittedTail(client: string) returns (run: seq<Replicas.System>)
    requires ClientIds.IsCanonical(client)
    ensures Replicas.Behaviour(run)
    ensures var s := run[|run| - 1];
            && 1 in s.stores && s.log == [Sample(client, 1), Sample(client, 2)] && LastApplied(s.stores[1]) == 1
            && Replay(s.stores[1], map[], 1).Synchronized?
            && View(Replay(s.stores[1], map[], 1).disk) != Fold([Sample(client, 1)])
  {
    var d1, d2 := TwoSamples(client);
    var data := TwoSamplesShipped(client, d2);
    run := TwoServed(client, d1, d2);
    run := Shipped(run, data, 1);
    RecoveryCanShowUncommittedTail(client);
  }

  // --- Why identifiers must be canonical ---

  /** The store after the first requests of two clients. */
  function TwoClients(other: string, client: string): ApplyOutcome {
    match ApplyEntry(EMPTY_DISK, 1, Encoded(Sample(other, 1)))
    case Applied(d) => ApplyEntry(d, 2, Encoded(Sample(client, 1)))
    case Refused(e, p) => Refused(e, p)
  }

  lemma TwoClientsHold(other: string, client: string)
    requires ClientIds.IsCanonical(other) && ClientIds.Parse(client).Some? && other != client
    ensures TwoClients(other, client).Applied?
    ensures TwoClients(other, client).disk.sessions
            == map[other := RecordOf(1, Sample(other, 1), other, Timestamp(1, 0)),
                   client := RecordOf(2, Sample(client, 1), ClientIds.Parse(client).value, Timestamp(1, 0))]
  {
  }

  /** No key of a rebuilt session table is a spelling that no record carries. */
  lemma NoSuchKey(records: seq<SessionRecord>, sessions: map<string, SessionRecord>, client: string)
    requires forall r :: r in records <==> r in sessions.Values
    requires forall k :: k in sessions ==> sessions[k].clientId != client
    ensures client !in KeyedSessions(records)
  {
    var r := KeyedSessions(records);
    forall k | k in r ensures k != client {
      assert r[k] in sessions.Values;
    }
  }

  lemma FirstRequestApplies(d: Disk, client: string)
    requires ClientIds.Parse(client).Some? && client !in d.sessions && LastApplied(d) == 1
    ensures IsFresh(View(d), Sample(client, 1)) && ApplyEntry(d, 2, Encoded(Sample(client, 1))).Applied?
  {
  }

  /**
   With an identifier in another accepted spelling, a snapshot moves the session to a different
   key, and an entry behind its label takes effect a second time when it is replayed.
   */
  lemma NonCanonicalIdReappliesEntry(other: string, client: string, data: SnapshotData)
    requires ClientIds.IsCanonical(other) && ClientIds.Parse(client).Some? && !ClientIds.IsCanonical(client)
    requires TwoClients(other, client).Applied? ==> IsSnapshotOf(data, TwoClients(other, client).disk)
    ensures TwoClients(other, client).Applied?
    ensures !IsFresh(View(TwoClients(other, client).disk), Sample(client, 1))
    ensures IsFresh(View(Restored(1, data)), Sample(client, 1))
    ensures ApplyEntry(Restored(1, data), 2, Encoded(Sample(client, 1))).Applied?
  {
    TwoClientsHold(other, client);
    NoSuchKey(data.sessions, TwoClients(other, client).disk.sessions, client);
    FirstRequestApplies(Restored(1, data), client);
  }
}
