/**
 What a log of mutations means: the fold of its entries over inventory, sessions and clock,
 with duplicates skipped. Exactly-once semantics are theorems about this fold.
 */
module Ledger {
  import opened Common
  import opened FsmTypes
  import opened Fsm
  import ClientIds

  /** The replicated content of a store; the applied index is bookkeeping beside it. */
  datatype Content = Content(
    inventory: map<string, GroceryItem>, sessions: map<string, SessionRecord>, clock: Timestamp)

  const NOTHING: Content := Content(map[], map[], EPOCH)

  function View(d: Disk): Content {
    Content(d.inventory, d.sessions, Clock(d))
  }

  function CanonicalOf(m: Mutation): string {
    match ClientIds.Parse(m.clientId) case Some(id) => id case None => m.clientId
  }

  function TimeOf(m: Mutation): Timestamp {
    match m.eventTime case Some(t) => t case None => EPOCH
  }

  predicate IsFresh(c: Content, m: Mutation) {
    m.sequenceId > LastSeen(c.sessions, m.clientId)
  }

  /** The effect of a fresh entry at an index. */
  function Effect(c: Content, index: nat, m: Mutation): Content {
    Content(
      NextInventory(c.inventory, index, m, TimeOf(m)),
      c.sessions[m.clientId := RecordOf(index, m, CanonicalOf(m), TimeOf(m))],
      MaxTimestamp(TimeOf(m), c.clock))
  }

  function Step(c: Content, index: nat, m: Mutation): Content {
    if IsFresh(c, m) then Effect(c, index, m) else c
  }

  /** The content after a log whose first entry has index 1. */
  function Fold(log: seq<Mutation>): Content
    decreases |log|
  {
    if log == [] then NOTHING else Step(Fold(log[..|log| - 1]), |log|, log[|log| - 1])
  }

  /** The entry is one that `apply` takes over this content, apart from its index. */
  predicate Fits(c: Content, m: Mutation) {
    var lastSeen := LastSeen(c.sessions, m.clientId);
    && ClientIds.Parse(m.clientId).Some?
    && lastSeen < U64_MAX
    && m.sequenceId <= lastSeen + 1
    && (m.sequenceId == lastSeen + 1 ==> 0 <= m.status <= 3 && m.eventTime.Some?)
  }

  /** Every entry fits the content its predecessors leave. */
  ghost predicate Accepted(log: seq<Mutation>) {
    forall i :: 0 <= i < |log| ==> Fits(Fold(log[..i]), log[i])
  }

  // --- apply and the fold ---

  /** `apply` accepts exactly the fitting entry at the next index, and then takes one fold step. */
  lemma ApplyIsStep(d: Disk, index: nat, m: Mutation)
    ensures ApplyEntry(d, index, Encoded(m)).Applied? <==>
            LastApplied(d) < U64_MAX && index == LastApplied(d) + 1 && Fits(View(d), m)
    ensures ApplyEntry(d, index, Encoded(m)).Applied? ==>
              var d' := ApplyEntry(d, index, Encoded(m)).disk;
              View(d') == Step(View(d), index, m) && LastApplied(d') == index
              && d'.meta.lastApplied.Some? && d'.meta.restoring == d.meta.restoring
  {
  }

  /** While no counter is exhausted, the store halts exactly on the entries that are not next or do not fit. */
  lemma MisfitsHalt(d: Disk, index: nat, m: Mutation)
    requires LastApplied(d) < U64_MAX && LastSeen(d.sessions, m.clientId) < U64_MAX
    ensures ApplyEntry(d, index, Encoded(m)) == Refused(InvariantError, true)
            <==> index != LastApplied(d) + 1 || !Fits(View(d), m)
    ensures ApplyEntry(d, index, Undecodable) == Refused(DeserializationError, false)
  {
  }

  /** An exhausted counter refuses without halting, and a bad index or identifier is noticed before the second one. */
  lemma ExhaustedCountersRefuse(d: Disk, index: nat, m: Mutation)
    ensures ApplyEntry(d, index, Encoded(m)) == Refused(ArithmeticError, false)
            <==> LastApplied(d) >= U64_MAX
                 || (index == LastApplied(d) + 1 && ClientIds.Parse(m.clientId).Some?
                     && LastSeen(d.sessions, m.clientId) >= U64_MAX)
  {
  }

  lemma FoldPush(log: seq<Mutation>, m: Mutation)
    ensures Fold(log + [m]) == Step(Fold(log), |log| + 1, m)
  {
    assert (log + [m])[..|log|] == log;
  }

  /** Folding one more entry of a longer log. */
  lemma FoldNext(log: seq<Mutation>, n: nat)
    requires n < |log|
    ensures Fold(log[..n + 1]) == Step(Fold(log[..n]), n + 1, log[n])
  {
    assert log[..n + 1] == log[..n] + [log[n]];
    FoldPush(log[..n], log[n]);
  }

  lemma AcceptedPrefix(log: seq<Mutation>, n: nat)
    requires Accepted(log) && n <= |log|
    ensures Accepted(log[..n])
  {
    forall i | 0 <= i < n
      ensures Fits(Fold(log[..n][..i]), log[..n][i])
    {
      assert log[..n][..i] == log[..i];
    }
  }

  // --- Exactly once ---

  lemma LastSeenOfStep(c: Content, index: nat, m: Mutation, client: string)
    ensures LastSeen(Step(c, index, m).sessions, client) ==
            if client == m.clientId && IsFresh(c, m) then m.sequenceId else LastSeen(c.sessions, client)
  {
  }

  lemma LastSeenNext(log: seq<Mutation>, j: nat, client: string)
    requires j < |log|
    ensures LastSeen(Fold(log[..j]).sessions, client) <= LastSeen(Fold(log[..j + 1]).sessions, client)
  {
    FoldNext(log, j);
    LastSeenOfStep(Fold(log[..j]), j + 1, log[j], client);
  }

  /** The last sequence number seen from a client never goes back along a log. */
  lemma {:induction false} LastSeenMonotone(log: seq<Mutation>, i: nat, j: nat, client: string)
    requires i <= j <= |log|
    ensures LastSeen(Fold(log[..i]).sessions, client) <= LastSeen(Fold(log[..j]).sessions, client)
    decreases j - i
  {
    if i < j {
      LastSeenMonotone(log, i, j - 1, client);
      LastSeenNext(log, j - 1, client);
    }
  }

  /** Once an accepted entry has been folded in, offering it again is a duplicate. */
  lemma PastEntriesAreDuplicates(log: seq<Mutation>, i: nat, m: nat)
    requires Accepted(log) && i < m <= |log|
    ensures !IsFresh(Fold(log[..m]), log[i])
    ensures LastSeen(Fold(log[..m]).sessions, log[i].clientId) < U64_MAX ==> Fits(Fold(log[..m]), log[i])
  {
    FoldNext(log, i);
    assert Fits(Fold(log[..i]), log[i]);
    assert log[i].sequenceId <= LastSeen(Fold(log[..i + 1]).sessions, log[i].clientId);
    LastSeenMonotone(log, i + 1, m, log[i].clientId);
  }

  /** The sequence numbers of a client's effective entries, in log order. */
  function EffectiveSeqs(log: seq<Mutation>, client: string): seq<nat>
    decreases |log|
  {
    if log == [] then []
    else
      var n := |log| - 1;
      EffectiveSeqs(log[..n], client) +
      if log[n].clientId == client && IsFresh(Fold(log[..n]), log[n]) then [log[n].sequenceId] else []
  }

  function UpTo(n: nat): (r: seq<nat>)
    ensures |r| == n && forall i :: 0 <= i < n ==> r[i] == i + 1
  {
    seq(n, i requires 0 <= i < n => i + 1)
  }

  lemma NextEffectiveSeq(c: Content, index: nat, m: Mutation, client: string)
    requires Fits(c, m)
    ensures var before, after := LastSeen(c.sessions, client), LastSeen(Step(c, index, m).sessions, client);
            if client == m.clientId && IsFresh(c, m) then m.sequenceId == after == before + 1 else after == before
  {
    LastSeenOfStep(c, index, m, client);
  }

  /**
   Exactly once: in an accepted log, the effective entries of each client carry the sequence
   numbers 1, 2, ..., last, once each and in order.
   */
  lemma {:induction false} EachSequenceTakesEffectOnce(log: seq<Mutation>, client: string)
    requires Accepted(log)
    ensures EffectiveSeqs(log, client) == UpTo(LastSeen(Fold(log).sessions, client))
    decreases |log|
  {
    if log != [] {
      var n := |log| - 1;
      AcceptedPrefix(log, n);
      EachSequenceTakesEffectOnce(log[..n], client);
      assert Fits(Fold(log[..n]), log[n]);
      NextEffectiveSeq(Fold(log[..n]), |log|, log[n], client);
      UpToNext(LastSeen(Fold(log[..n]).sessions, client));
      EffectiveSeqsStep(log, client);
    }
  }

  lemma EffectiveSeqsStep(log: seq<Mutation>, client: string)
    requires log != []
    ensures var n := |log| - 1;
            EffectiveSeqs(log, client)
            == if log[n].clientId == client && IsFresh(Fold(log[..n]), log[n])
               then EffectiveSeqs(log[..n], client) + [log[n].sequenceId] else EffectiveSeqs(log[..n], client)
  {
  }

  lemma UpToNext(n: nat)
    ensures UpTo(n + 1) == UpTo(n) + [n + 1]
  {
  }

  /** A client's last sequence number counts its effective entries, so it is below the log length. */
  lemma {:induction false} LastSeenAtMostLength(log: seq<Mutation>, client: string)
    requires Accepted(log)
    ensures LastSeen(Fold(log).sessions, client) <= |log|
    decreases |log|
  {
    if log != [] {
      var n := |log| - 1;
      AcceptedPrefix(log, n);
      LastSeenAtMostLength(log[..n], client);
      assert Fits(Fold(log[..n]), log[n]);
    }
  }

  // --- Sessions ---

  /** Entry `i` took effect when it was first folded in. */
  predicate TookEffect(log: seq<Mutation>, i: nat)
    requires i < |log|
  {
    IsFresh(Fold(log[..i]), log[i])
  }

  /** Entry `i` is the last of the client's entries that took effect. */
  predicate IsLatestEffect(log: seq<Mutation>, client: string, i: nat) {
    && i < |log| && log[i].clientId == client && TookEffect(log, i)
    && forall j :: i < j < |log| && log[j].clientId == client ==> !TookEffect(log, j)
  }

  /** Entry `j` is one of the client's that took effect. */
  predicate EffectOf(log: seq<Mutation>, client: string, j: nat) {
    j < |log| && log[j].clientId == client && TookEffect(log, j)
  }

  lemma EffectBefore(log: seq<Mutation>, client: string, j: nat)
    requires j < |log| - 1
    ensures EffectOf(log[..|log| - 1], client, j) <==> EffectOf(log, client, j)
  {
    assert log[..|log| - 1][..j] == log[..j];
  }

  /** Some entry of the client took effect under the number. */
  ghost predicate InEffect(log: seq<Mutation>, client: string, n: nat) {
    exists j: nat :: EffectOf(log, client, j) && log[j].sequenceId == n
  }

  lemma InEffectStep(log: seq<Mutation>, client: string, n: nat)
    requires log != []
    ensures var last := |log| - 1;
            InEffect(log, client, n)
            <==> InEffect(log[..last], client, n) || (EffectOf(log, client, last) && log[last].sequenceId == n)
  {
    var last := |log| - 1;
    if j: nat :| EffectOf(log, client, j) && log[j].sequenceId == n && j < last {
      EffectBefore(log, client, j);
      assert log[..last][j].sequenceId == n;
    }
    if j: nat :| EffectOf(log[..last], client, j) && log[..last][j].sequenceId == n {
      EffectBefore(log, client, j);
    }
  }

  lemma {:induction false} EffectiveSeqIsOfAnEffect(log: seq<Mutation>, client: string, n: nat)
    ensures n in EffectiveSeqs(log, client) <==> InEffect(log, client, n)
    decreases |log|
  {
    if log != [] {
      EffectiveSeqIsOfAnEffect(log[..|log| - 1], client, n);
      EffectiveSeqsStep(log, client);
      InEffectStep(log, client, n);
    }
  }

  /** In an accepted log the numbers of a client's effective entries are exactly 1 to the last. */
  lemma NumbersInEffect(log: seq<Mutation>, client: string, n: nat)
    requires Accepted(log)
    ensures InEffect(log, client, n) <==> 1 <= n <= LastSeen(Fold(log).sessions, client)
  {
    EachSequenceTakesEffectOnce(log, client);
    EffectiveSeqIsOfAnEffect(log, client, n);
    var last := LastSeen(Fold(log).sessions, client);
    if 1 <= n <= last { assert UpTo(last)[n - 1] == n; }
  }

  /** The record that entry `i` leaves: its own outcome, under the canonical identifier, at its index. */
  function RecordAt(log: seq<Mutation>, i: nat): SessionRecord
    requires i < |log|
  {
    var m := log[i];
    SessionRecord(CanonicalOf(m), m.sequenceId, m.status, i + 1, m.justification, TimeOf(m))
  }

  lemma LatestEffectBefore(log: seq<Mutation>, client: string, i: nat)
    requires log != []
    requires !(log[|log| - 1].clientId == client && TookEffect(log, |log| - 1))
    ensures IsLatestEffect(log, client, i) <==> IsLatestEffect(log[..|log| - 1], client, i)
  {
    var n := |log| - 1;
    forall j: nat | j < n ensures TookEffect(log[..n], j) <==> TookEffect(log, j) {
      assert log[..n][..j] == log[..j];
    }
    if IsLatestEffect(log[..n], client, i) {
      forall j | i < j < |log| && log[j].clientId == client ensures !TookEffect(log, j) {
        if j < n { assert log[..n][j].clientId == client; }
      }
    }
  }

  /** A client's session is the record of its latest effective entry; without one there is none. */
  lemma {:induction false} SessionIsTheLatestEffect(log: seq<Mutation>, client: string)
    ensures client in Fold(log).sessions <==> exists i: nat :: IsLatestEffect(log, client, i)
    ensures forall i: nat :: IsLatestEffect(log, client, i) ==> Fold(log).sessions[client] == RecordAt(log, i)
    decreases |log|
  {
    if log != [] {
      var n := |log| - 1;
      if log[n].clientId == client && TookEffect(log, n) {
        assert IsLatestEffect(log, client, n);
      } else {
        SessionIsTheLatestEffect(log[..n], client);
        forall i: nat ensures IsLatestEffect(log, client, i) <==> IsLatestEffect(log[..n], client, i) {
          LatestEffectBefore(log, client, i);
        }
        if client in Fold(log).sessions {
          var i: nat :| IsLatestEffect(log[..n], client, i);
          assert IsLatestEffect(log, client, i);
        }
      }
    }
  }

  /**
   What the gateway's lookup means: on a store that holds the fold of a log, sequence 0 finds the
   record of the client's latest effective entry, the number of that entry finds it too, and
   nothing else finds anything: an older number is forgotten, a newer one is not yet known.
   */
  lemma CheckSessionFindsTheLatestEffect(store: LactoStore, log: seq<Mutation>, client: string, sequenceId: nat)
    requires !store.poisoned && View(store.Contents()) == Fold(log)
    ensures store.CheckSession(client, sequenceId).Some?
    ensures store.CheckSession(client, sequenceId).value.Some? <==>
            exists i: nat :: IsLatestEffect(log, client, i) && sequenceId in {0, log[i].sequenceId}
    ensures forall i: nat :: IsLatestEffect(log, client, i) && sequenceId in {0, log[i].sequenceId} ==>
              store.CheckSession(client, sequenceId).value == Some(RecordAt(log, i))
  {
    SessionIsTheLatestEffect(log, client);
  }

  // --- Items ---

  /** Entry `i` took effect on the item under the key: a committed one, not vetoed. */
  predicate Changes(log: seq<Mutation>, key: string, i: nat) {
    i < |log| && log[i].itemKey == key && log[i].status == STATUS_COMMITTED && TookEffect(log, i)
  }

  predicate IsLatestChange(log: seq<Mutation>, key: string, i: nat) {
    Changes(log, key, i) && forall j :: i < j < |log| ==> !Changes(log, key, j)
  }

  /** The item that entry `i` leaves: its own fields, and its index for a version. */
  function ItemAt(log: seq<Mutation>, i: nat): GroceryItem
    requires i < |log|
  {
    var m := log[i];
    GroceryItem(m.itemKey, m.quantity, m.baseUnit, m.category, m.clientId, TimeOf(m), i + 1, m.displayUnit)
  }

  lemma ChangesBefore(log: seq<Mutation>, key: string, i: nat)
    requires i < |log| - 1
    ensures Changes(log[..|log| - 1], key, i) <==> Changes(log, key, i)
  {
    assert log[..|log| - 1][..i] == log[..i];
  }

  lemma LatestChangeBefore(log: seq<Mutation>, key: string, i: nat)
    requires log != [] && !Changes(log, key, |log| - 1)
    ensures IsLatestChange(log, key, i) <==> IsLatestChange(log[..|log| - 1], key, i)
  {
    var n := |log| - 1;
    forall j: nat | j < n ensures Changes(log[..n], key, j) <==> Changes(log, key, j) {
      ChangesBefore(log, key, j);
    }
  }

  /** A vetoed entry, a duplicate and an entry on another key leave the item as it was. */
  lemma OthersLeaveTheItem(log: seq<Mutation>, key: string)
    requires log != [] && !Changes(log, key, |log| - 1)
    ensures var past := Fold(log[..|log| - 1]).inventory;
            && (key in Fold(log).inventory <==> key in past)
            && (key in past ==> Fold(log).inventory[key] == past[key])
  {
  }

  /**
   What the inventory means: a key is present exactly when the last entry that changed it exists and is
   not a deletion, and the item is that entry's own.
   */
  lemma {:induction false} ItemIsTheLatestChange(log: seq<Mutation>, key: string)
    ensures key in Fold(log).inventory <==> exists i: nat :: IsLatestChange(log, key, i) && !log[i].isDelete
    ensures forall i: nat :: IsLatestChange(log, key, i) && !log[i].isDelete ==>
              Fold(log).inventory[key] == ItemAt(log, i)
    decreases |log|
  {
    if log != [] {
      var n := |log| - 1;
      if Changes(log, key, n) {
        assert IsLatestChange(log, key, n);
      } else {
        ItemIsTheLatestChange(log[..n], key);
        OthersLeaveTheItem(log, key);
        forall i: nat ensures IsLatestChange(log, key, i) <==> IsLatestChange(log[..n], key, i) {
          LatestChangeBefore(log, key, i);
        }
        if key in Fold(log).inventory {
          var i: nat :| IsLatestChange(log[..n], key, i) && !log[..n][i].isDelete;
          assert IsLatestChange(log, key, i) && !log[i].isDelete;
        }
      }
    }
  }

  // --- Duplicates leave no trace ---

  function EraseItem(item: GroceryItem): GroceryItem {
    item.(stateVersion := 0)
  }

  function EraseRecord(r: SessionRecord): SessionRecord {
    r.(logIndex := 0)
  }

  /** The content without the log positions stored in it. */
  function Erase(c: Content): Content {
    Content(
      map k | k in c.inventory :: EraseItem(c.inventory[k]),
      map k | k in c.sessions :: EraseRecord(c.sessions[k]),
      c.clock)
  }

  /** The log with its duplicates removed. */
  function Deduplicated(log: seq<Mutation>): seq<Mutation>
    decreases |log|
  {
    if log == [] then []
    else
      var n := |log| - 1;
      Deduplicated(log[..n]) + if IsFresh(Fold(log[..n]), log[n]) then [log[n]] else []
  }

  /** Erasing after a fresh entry is the same as applying it, unnumbered, to erased content. */
  lemma EraseOfEffect(c: Content, index: nat, m: Mutation)
    ensures Erase(Effect(c, index, m)) == Effect(Erase(c), 0, m)
  {
    var x, y := Erase(Effect(c, index, m)), Effect(Erase(c), 0, m);
    assert x.sessions == y.sessions;
    assert x.inventory == y.inventory;
  }

  lemma EraseKeepsLastSeen(c: Content, client: string)
    ensures LastSeen(Erase(c).sessions, client) == LastSeen(c.sessions, client)
  {
  }

  lemma StepRespectsErase(a: Content, i: nat, b: Content, j: nat, m: Mutation)
    requires Erase(a) == Erase(b)
    ensures Erase(Step(a, i, m)) == Erase(Step(b, j, m))
    ensures IsFresh(a, m) <==> IsFresh(b, m)
    ensures Fits(a, m) <==> Fits(b, m)
  {
    EraseKeepsLastSeen(a, m.clientId);
    EraseKeepsLastSeen(b, m.clientId);
    EraseOfEffect(a, i, m);
    EraseOfEffect(b, j, m);
  }

  /**
   Up to the stored log positions, an accepted log leaves the same inventory, sessions and
   clock as the log with its duplicates removed; and that log is itself accepted.
   */
  lemma {:induction false} DuplicatesLeaveNoTrace(log: seq<Mutation>)
    requires Accepted(log)
    ensures Erase(Fold(Deduplicated(log))) == Erase(Fold(log))
    ensures Accepted(Deduplicated(log))
    decreases |log|
  {
    if log != [] {
      var n := |log| - 1;
      AcceptedPrefix(log, n);
      DuplicatesLeaveNoTrace(log[..n]);
      var before, m := Deduplicated(log[..n]), log[n];
      assert Fits(Fold(log[..n]), m);
      StepRespectsErase(Fold(log[..n]), |log|, Fold(before), |before| + 1, m);
      if IsFresh(Fold(log[..n]), m) {
        FoldPush(before, m);
        AcceptedPush(before, m);
      } else {
        assert Deduplicated(log) == before;
      }
    }
  }

  lemma AcceptedPush(log: seq<Mutation>, m: Mutation)
    requires Accepted(log) && Fits(Fold(log), m)
    ensures Accepted(log + [m])
  {
    forall i | 0 <= i < |log + [m]|
      ensures Fits(Fold((log + [m])[..i]), (log + [m])[i])
    {
      assert (log + [m])[..i] == log[..i];
      assert log[..|log|] == log;
    }
  }

  // --- The clock ---

  /** Not before, by seconds and then by nanoseconds. */
  predicate Reaches(a: Timestamp, b: Timestamp) {
    a.seconds > b.seconds || (a.seconds == b.seconds && a.nanos >= b.nanos)
  }

  /** The clock is not before the epoch or any effective event time, and is one of them. */
  lemma {:induction false} ClockIsLatestEffectiveTime(log: seq<Mutation>)
    ensures Reaches(Fold(log).clock, Timestamp(0, 0))
    ensures forall m :: m in Deduplicated(log) ==> Reaches(Fold(log).clock, TimeOf(m))
    ensures Fold(log).clock == Timestamp(0, 0) || exists m :: m in Deduplicated(log) && Fold(log).clock == TimeOf(m)
    decreases |log|
  {
    if log != [] {
      var n := |log| - 1;
      ClockIsLatestEffectiveTime(log[..n]);
      if IsFresh(Fold(log[..n]), log[n]) {
        assert log[n] in Deduplicated(log);
        assert forall m :: m in Deduplicated(log[..n]) ==> m in Deduplicated(log);
        assert forall m :: m in Deduplicated(log) ==> m in Deduplicated(log[..n]) || m == log[n];
      }
    }
  }

  // --- Keys ---

  predicate CanonicalIds(log: seq<Mutation>) {
    forall m :: m in log ==> ClientIds.IsCanonical(m.clientId)
  }

  predicate SelfKeyedContent(c: Content) {
    && (forall k :: k in c.inventory ==> c.inventory[k].itemKey == k)
    && (forall k :: k in c.sessions ==> c.sessions[k].clientId == k)
  }

  /** With canonical identifiers every record sits under its own key. */
  lemma {:induction false} CanonicalLogsAreSelfKeyed(log: seq<Mutation>)
    requires CanonicalIds(log)
    ensures SelfKeyedContent(Fold(log))
    decreases |log|
  {
    if log != [] {
      CanonicalLogsAreSelfKeyed(log[..|log| - 1]);
      assert log[|log| - 1] in log;
    }
  }

  // --- The next entry of a replica ---

  function Max(a: nat, b: nat): nat {
    if a < b then b else a
  }

  /** An entry of an accepted log fits the content of any prefix that ends at it or later. */
  lemma NextEntryFits(log: seq<Mutation>, i: nat, m: nat)
    requires Accepted(log) && |log| < U64_MAX && i <= m <= |log| && i < |log|
    ensures Fits(Fold(log[..m]), log[i])
    ensures Step(Fold(log[..m]), i + 1, log[i]) == Fold(log[..Max(m, i + 1)])
  {
    if i < m {
      AcceptedPrefix(log, m);
      LastSeenAtMostLength(log[..m], log[i].clientId);
      PastEntriesAreDuplicates(log, i, m);
    } else {
      FoldNext(log, m);
    }
  }
}
