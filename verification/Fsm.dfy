/**
 The persistent state machine: deduplicating `apply`, `snapshot`, and the tombstone protocol
 of `install_snapshot`, as updates of three trees. The ghost `journal` records the durable
 writes in order, so that a crash can be placed between any two of them.
 */
module Fsm {
  import opened Common
  import opened FsmTypes
  import ClientIds

  datatype FsmError = PoisonedError | DeserializationError | InvariantError | ArithmeticError

  /** Outcome of offering an entry: the new disk, or an error that may poison the node. */
  datatype ApplyOutcome = Applied(disk: Disk) | Refused(error: FsmError, poisons: bool)

  function LastSeen(sessions: map<string, SessionRecord>, client: string): nat {
    if client in sessions then sessions[client].lastSequenceId else 0
  }

  function ItemOf(index: nat, m: Mutation, time: Timestamp): GroceryItem {
    GroceryItem(m.itemKey, m.quantity, m.baseUnit, m.category, m.clientId, time, index, m.displayUnit)
  }

  function RecordOf(index: nat, m: Mutation, canonicalId: string, time: Timestamp): SessionRecord {
    SessionRecord(canonicalId, m.sequenceId, m.status, index, m.justification, time)
  }

  /** The inventory after a fresh mutation: only committed ones touch it. */
  function NextInventory(inventory: map<string, GroceryItem>, index: nat, m: Mutation, time: Timestamp): map<string,
      GroceryItem> {
    if m.status != STATUS_COMMITTED then inventory
    else if m.isDelete then inventory - {m.itemKey}
    else inventory[m.itemKey := ItemOf(index, m, time)]
  }

  /** Specification of `apply`: which of its checks comes first decides the error. */
  function ApplyEntry(d: Disk, index: nat, data: Payload): ApplyOutcome {
    if data.Undecodable? then Refused(DeserializationError, false)
    else if LastApplied(d) >= U64_MAX then Refused(ArithmeticError, false)
    else if index != LastApplied(d) + 1 then Refused(InvariantError, true)
    else
      var m := data.mutation;
      var id := ClientIds.Parse(m.clientId);
      var lastSeen := LastSeen(d.sessions, m.clientId);
      if id.None? then Refused(InvariantError, true)
      else if lastSeen >= U64_MAX then Refused(ArithmeticError, false)
      else if m.sequenceId <= lastSeen then
        Applied(d.(meta := d.meta.(lastApplied := Some(index))))
      else if m.sequenceId > lastSeen + 1 then Refused(InvariantError, true)
      else if !KnownStatus(m.status) then Refused(InvariantError, true)
      else if m.eventTime.None? then Refused(InvariantError, true)
      else
        var time := m.eventTime.value;
        Applied(Disk(
          NextInventory(d.inventory, index, m, time),
          d.sessions[m.clientId := RecordOf(index, m, id.value, time)],
          Meta(Some(index), Some(MaxTimestamp(time, Clock(d))), d.meta.restoring)))
  }

  // --- Shapes of the multi-write protocols ---

  predicate KeepsTombstone(w: Write) {
    RaiseTombstone !in w && DropTombstone !in w
  }

  /** A restore: tombstone first, nothing touches it in between, the last write lands the snapshot. */
  ghost predicate IsRestorePlan(ws: seq<Write>, d: Disk, result: Disk) {
    && |ws| >= 2
    && ws[0] == [RaiseTombstone]
    && (forall j :: 0 < j < |ws| - 1 ==> KeepsTombstone(ws[j]))
    && Run(ws, d) == result
  }

  lemma RestorePlan(prep: seq<Write>, w1: Write, w2: Write, w3: Write, d: Disk, result: Disk)
    requires |prep| >= 1 && prep[0] == [RaiseTombstone] && forall j :: 0 < j < |prep| ==> KeepsTombstone(prep[j])
    requires KeepsTombstone(w1) && KeepsTombstone(w2)
    requires Exec(w3, Exec(w2, Exec(w1, Run(prep, d)))) == result
    ensures IsRestorePlan(prep + [w1, w2, w3], d, result)
  {
    RunPush(prep, w1, d);
    RunPush(prep + [w1], w2, d);
    RunPush(prep + [w1] + [w2], w3, d);
    assert prep + [w1] + [w2] + [w3] == prep + [w1, w2, w3];
  }

  /** A purge: the tombstone is the last key to go. */
  ghost predicate IsPurgePlan(ws: seq<Write>, d: Disk) {
    && |ws| >= 1
    && (forall j :: 0 <= j < |ws| - 1 ==> KeepsTombstone(ws[j]))
    && Run(ws, d) == EMPTY_DISK
  }

  /** The operations of a fresh mutation's transaction, in the order they are issued. */
  function Transaction(index: nat, m: Mutation, canonicalId: string, time: Timestamp, next: Timestamp): Write {
    InventoryOps(index, m, time) + [PutSession(m.clientId, RecordOf(index, m, canonicalId, time)), SetApplied(index),
          SetTime(next)]
  }

  function InventoryOps(index: nat, m: Mutation, time: Timestamp): Write {
    if m.status != STATUS_COMMITTED then []
    else if m.isDelete then [DropItem(m.itemKey)]
    else [PutItem(m.itemKey, ItemOf(index, m, time))]
  }

  lemma TransactionEffect(d: Disk, index: nat, m: Mutation, canonicalId: string, time: Timestamp, next: Timestamp)
    ensures Exec(Transaction(index, m, canonicalId, time, next), d)
            == Disk(NextInventory(d.inventory, index, m, time),
                    d.sessions[m.clientId := RecordOf(index, m, canonicalId, time)],
                    Meta(Some(index), Some(next), d.meta.restoring))
  {
    var w0 := InventoryOps(index, m, time);
    InventoryEffect(d, index, m, time);
    var put := PutSession(m.clientId, RecordOf(index, m, canonicalId, time));
    ExecPush(w0, put, d);
    ExecPush(w0 + [put], SetApplied(index), d);
    ExecPush(w0 + [put] + [SetApplied(index)], SetTime(next), d);
    assert w0 + [put] + [SetApplied(index)] + [SetTime(next)] == Transaction(index, m, canonicalId, time, next);
  }

  lemma OneOp(op: Op, d: Disk)
    ensures Exec([op], d) == ExecOp(op, d)
  {
    ExecPush([], op, d);
    assert [] + [op] == [op];
  }

  lemma InventoryEffect(d: Disk, index: nat, m: Mutation, time: Timestamp)
    ensures Exec(InventoryOps(index, m, time), d) == d.(inventory := NextInventory(d.inventory, index, m, time))
  {
    if m.status == STATUS_COMMITTED {
      OneOp(if m.isDelete then DropItem(m.itemKey) else PutItem(m.itemKey, ItemOf(index, m, time)), d);
    }
  }

  class LactoStore {
    var inventory: map<string, GroceryItem>
    var sessions: map<string, SessionRecord>
    var meta: Meta
    var poisoned: bool
    /** The durable writes performed so far, oldest first. */
    ghost var journal: seq<Write>

    function Contents(): Disk
      reads this
    {
      Disk(inventory, sessions, meta)
    }

    /** Opens the store on what is on disk; a leftover tombstone purges everything. */
    constructor Open(disk: Disk)
      ensures !poisoned
      ensures Contents() == if disk.meta.restoring then EMPTY_DISK else disk
      ensures if disk.meta.restoring then IsPurgePlan(journal, disk) else journal == []
    {
      inventory, sessions, meta := disk.inventory, disk.sessions, disk.meta;
      poisoned, journal := false, [];
      new;
      if meta.restoring {
        ghost var ws := PurgeAllData();
        assert journal == ws;
      }
    }

    /** Clears the inventory tree key by key. */
    method ClearInventory() returns (ghost ws: seq<Write>)
      modifies this`inventory, this`journal
      ensures inventory == map[] && journal == old(journal) + ws
      ensures forall w :: w in ws ==> KeepsTombstone(w)
      ensures Run(ws, old(Contents())) == Contents()
    {
      ws := [];
      while inventory != map[]
        invariant journal == old(journal) + ws
        invariant forall w :: w in ws ==> KeepsTombstone(w)
        invariant Run(ws, old(Contents())) == Contents()
        decreases inventory.Keys
      {
        var key :| key in inventory;
        RunPushOp(ws, DropItem(key), old(Contents()));
        inventory, journal, ws := inventory - {key}, journal + [[DropItem(key)]], ws + [[DropItem(key)]];
      }
    }

    /** Clears the session tree key by key. */
    method ClearSessions() returns (ghost ws: seq<Write>)
      modifies this`sessions, this`journal
      ensures sessions == map[] && journal == old(journal) + ws
      ensures forall w :: w in ws ==> KeepsTombstone(w)
      ensures Run(ws, old(Contents())) == Contents()
    {
      ws := [];
      while sessions != map[]
        invariant journal == old(journal) + ws
        invariant forall w :: w in ws ==> KeepsTombstone(w)
        invariant Run(ws, old(Contents())) == Contents()
        decreases sessions.Keys
      {
        var key :| key in sessions;
        RunPushOp(ws, DropSession(key), old(Contents()));
        sessions, journal, ws := sessions - {key}, journal + [[DropSession(key)]], ws + [[DropSession(key)]];
      }
    }

    /** Drops the applied index and the clock. */
    method ClearMarks() returns (ghost ws: seq<Write>)
      modifies this`meta, this`journal
      ensures meta == Meta(None, None, old(meta.restoring)) && journal == old(journal) + ws
      ensures forall w :: w in ws ==> KeepsTombstone(w)
      ensures Run(ws, old(Contents())) == Contents()
    {
      ghost var d := Contents();
      ws := [];
      RunPushOp(ws, DropApplied, d);
      meta, journal, ws := meta.(lastApplied := None), journal + [[DropApplied]], ws + [[DropApplied]];
      RunPushOp(ws, DropTime, d);
      meta, journal, ws := meta.(lastTime := None), journal + [[DropTime]], ws + [[DropTime]];
    }

    /** Clears the inventory, the sessions, and then the metadata except the tombstone key. */
    method ClearStateExceptTombstone() returns (ghost ws: seq<Write>)
      modifies this`inventory, this`sessions, this`meta, this`journal
      ensures Contents() == Disk(map[], map[], Meta(None, None, old(meta.restoring)))
      ensures journal == old(journal) + ws
      ensures forall w :: w in ws ==> KeepsTombstone(w)
      ensures Run(ws, old(Contents())) == Contents()
    {
      ghost var d := Contents();
      ghost var a := ClearInventory();
      ghost var b := ClearSessions();
      RunConcat(a, b, d);
      ghost var c := ClearMarks();
      RunConcat(a + b, c, d);
      ws := a + b + c;
    }

    /** Hard wipe of all trees; the tombstone key, last in key order, goes last. */
    method PurgeAllData() returns (ghost ws: seq<Write>)
      modifies this`inventory, this`sessions, this`meta, this`journal
      ensures Contents() == EMPTY_DISK && journal == old(journal) + ws
      ensures IsPurgePlan(ws, old(Contents()))
    {
      ghost var d := Contents();
      ws := ClearStateExceptTombstone();
      RunPushOp(ws, DropTombstone, d);
      meta, journal, ws := meta.(restoring := false), journal + [[DropTombstone]], ws + [[DropTombstone]];
    }

    /** The transaction over the three trees that a fresh mutation commits. */
    method CommitTransaction(index: nat, m: Mutation, canonicalId: string, time: Timestamp) returns (ghost w: Write)
      modifies this`inventory, this`sessions, this`meta, this`journal
      ensures journal == old(journal) + [w] && Exec(w, old(Contents())) == Contents()
      ensures inventory == NextInventory(old(inventory), index, m, time)
      ensures sessions == old(sessions)[m.clientId := RecordOf(index, m, canonicalId, time)]
      ensures meta == Meta(Some(index), Some(MaxTimestamp(time, Clock(old(Contents())))), old(meta.restoring))
    {
      var current := match meta.lastTime case Some(t) => t case None => EPOCH;
      var next := MaxTimestamp(time, current);
      TransactionEffect(Contents(), index, m, canonicalId, time, next);
      w := Transaction(index, m, canonicalId, time, next);
      if m.status == STATUS_COMMITTED {
        if m.isDelete {
          inventory := inventory - {m.itemKey};
        } else {
          inventory := inventory[m.itemKey := ItemOf(index, m, time)];
        }
      }
      sessions := sessions[m.clientId := RecordOf(index, m, canonicalId, time)];
      meta := meta.(lastApplied := Some(index), lastTime := Some(next));
      journal := journal + [w];
    }

    /**
     Offers a log entry. Refused entries write nothing, and some of them poison the store;
     an accepted one is a single atomic write.
     */
    method Apply(index: nat, data: Payload) returns (error: Option<FsmError>)
      modifies this
      ensures old(poisoned) ==> error == Some(PoisonedError) && Contents() == old(Contents()) && poisoned
      ensures !old(poisoned) ==>
                match ApplyEntry(old(Contents()), index, data)
                case Applied(d) => error == None && Contents() == d && !poisoned
                case Refused(e, p) => error == Some(e) && Contents() == old(Contents()) && poisoned == p
      ensures if error == None
              then |journal| == |old(journal)| + 1 && journal[..|old(journal)|] == old(journal)
                   && Exec(journal[|old(journal)|], old(Contents())) == Contents()
              else journal == old(journal)
    {
      if poisoned { return Some(PoisonedError); }
      if data.Undecodable? { return Some(DeserializationError); }
      var m := data.mutation;
      var applied := match meta.lastApplied case Some(i) => i case None => 0;
      if applied >= U64_MAX { return Some(ArithmeticError); }
      if index != applied + 1 {
        poisoned := true;
        return Some(InvariantError);
      }
      var id := ClientIds.Parse(m.clientId);
      if id.None? {
        poisoned := true;
        return Some(InvariantError);
      }
      var lastSeen := if m.clientId in sessions then sessions[m.clientId].lastSequenceId else 0;
      if lastSeen >= U64_MAX { return Some(ArithmeticError); }
      if m.sequenceId <= lastSeen {
        AdvanceLastAppliedForDuplicate(index);
        return None;
      }
      if m.sequenceId > lastSeen + 1 || !KnownStatus(m.status) || m.eventTime.None? {
        poisoned := true;
        return Some(InvariantError);
      }
      ghost var w := CommitTransaction(index, m, id.value, m.eventTime.value);
      return None;
    }

    method AdvanceLastAppliedForDuplicate(index: nat)
      modifies this`meta, this`journal
      ensures meta == old(meta).(lastApplied := Some(index))
      ensures journal == old(journal) + [[SetApplied(index)]]
      ensures Exec([SetApplied(index)], old(Contents())) == Contents()
    {
      ExecPush([], SetApplied(index), Contents());
      assert [] + [SetApplied(index)] == [SetApplied(index)];
      meta, journal := meta.(lastApplied := Some(index)), journal + [[SetApplied(index)]];
    }

    /** Session lookup of the gateway: `None` is the refusal of a poisoned store, and sequence 0 asks for the latest
      * record. */
    function CheckSession(client: string, sequenceId: nat): (r: Option<Option<SessionRecord>>)
      reads this
      ensures r.None? <==> poisoned
      ensures r.Some? && sequenceId == 0 ==> (r.value.Some? <==> client in sessions)
      ensures r.Some? && sequenceId != 0 ==>
                (r.value.Some? <==> client in sessions && sessions[client].lastSequenceId == sequenceId)
      ensures r.Some? && r.value.Some? ==> r.value.value == sessions[client]
    {
      if poisoned then None
      else if client in sessions && (sequenceId == 0 || sessions[client].lastSequenceId == sequenceId)
      then Some(Some(sessions[client])) else Some(None)
    }

    /** Serializes the trees. */
    method Snapshot() returns (r: Option<SnapshotData>)
      ensures poisoned <==> r.None?
      ensures r.Some? ==> IsSnapshotOf(r.value, Contents())
      ensures r.Some? ==> |r.value.inventory| == |inventory| && |r.value.sessions| == |sessions|
    {
      if poisoned { return None; }
      var items: seq<GroceryItem> := [];
      var left := inventory.Keys;
      while left != {}
        invariant left <= inventory.Keys
        invariant |items| + |left| == |inventory|
        invariant forall k :: k in inventory && k !in left ==> inventory[k] in items
        invariant forall item :: item in items ==> item in inventory.Values
        decreases left
      {
        var k :| k in left;
        assert inventory[k] in inventory.Values;
        items, left := items + [inventory[k]], left - {k};
      }
      var records: seq<SessionRecord> := [];
      left := sessions.Keys;
      while left != {}
        invariant left <= sessions.Keys
        invariant |records| + |left| == |sessions|
        invariant forall k :: k in sessions && k !in left ==> sessions[k] in records
        invariant forall s :: s in records ==> s in sessions.Values
        decreases left
      {
        var k :| k in left;
        assert sessions[k] in sessions.Values;
        records, left := records + [sessions[k]], left - {k};
      }
      var time := match meta.lastTime case Some(t) => t case None => EPOCH;
      return Some(SnapshotData(items, records, Some(time)));
    }

    method RestoreInventoryBatch(items: seq<GroceryItem>) returns (ghost w: Write)
      requires inventory == map[]
      modifies this`inventory, this`journal
      ensures inventory == KeyedItems(items) && journal == old(journal) + [w]
      ensures KeepsTombstone(w) && Exec(w, old(Contents())) == Contents()
    {
      w := [];
      for i := 0 to |items|
        invariant inventory == KeyedItems(items[..i])
        invariant KeepsTombstone(w) && Exec(w, old(Contents())) == Contents()
        invariant journal == old(journal)
      {
        assert items[..i + 1][..i] == items[..i];
        ExecPush(w, PutItem(items[i].itemKey, items[i]), old(Contents()));
        inventory, w := inventory[items[i].itemKey := items[i]], w + [PutItem(items[i].itemKey, items[i])];
      }
      assert items[..|items|] == items;
      journal := journal + [w];
    }

    method RestoreSessionBatch(records: seq<SessionRecord>) returns (ghost w: Write)
      requires sessions == map[]
      modifies this`sessions, this`journal
      ensures sessions == KeyedSessions(records) && journal == old(journal) + [w]
      ensures KeepsTombstone(w) && Exec(w, old(Contents())) == Contents()
    {
      w := [];
      for i := 0 to |records|
        invariant sessions == KeyedSessions(records[..i])
        invariant KeepsTombstone(w) && Exec(w, old(Contents())) == Contents()
        invariant journal == old(journal)
      {
        assert records[..i + 1][..i] == records[..i];
        ExecPush(w, PutSession(records[i].clientId, records[i]), old(Contents()));
        sessions, w := sessions[records[i].clientId := records[i]], w + [PutSession(records[i].clientId, records[i])];
      }
      assert records[..|records|] == records;
      journal := journal + [w];
    }

    /** One metadata batch: index, clock if present, and removal of the tombstone. */
    method FinalizeRestoration(index: nat, lastTime: Option<Timestamp>) returns (ghost w: Write)
      requires meta.lastTime == None
      modifies this`meta, this`journal
      ensures meta == Meta(Some(index), lastTime, false) && journal == old(journal) + [w]
      ensures Exec(w, old(Contents())) == Contents()
    {
      ghost var before := Contents();
      w := [];
      ExecPush(w, SetApplied(index), before);
      meta, w := meta.(lastApplied := Some(index)), w + [SetApplied(index)];
      if lastTime.Some? {
        ExecPush(w, SetTime(lastTime.value), before);
        meta, w := meta.(lastTime := lastTime), w + [SetTime(lastTime.value)];
      }
      ExecPush(w, DropTombstone, before);
      meta, w := meta.(restoring := false), w + [DropTombstone];
      journal := journal + [w];
    }

    /**
     Destructive restore: tombstone, clear, inventory batch, session batch, final metadata batch.
     `None` stands for bytes that do not decode; they are refused before anything is written.
     */
    method InstallSnapshot(index: nat, bytes: Option<SnapshotData>)
      returns (error: Option<FsmError>, ghost ws: seq<Write>)
      modifies this
      ensures poisoned == old(poisoned) && journal == old(journal) + ws
      ensures error == if old(poisoned) then Some(PoisonedError)
                       else if bytes.None? then Some(DeserializationError) else None
      ensures if error.Some? then Contents() == old(Contents()) && ws == []
              else IsRestorePlan(ws, old(Contents()), Contents()) && Contents() == Restored(index, bytes.value)
    {
      ws := [];
      if poisoned { return Some(PoisonedError), ws; }
      if bytes.None? { return Some(DeserializationError), ws; }
      ghost var d := Contents();
      ghost var prep := PrepareRestoration();
      ghost var w1 := RestoreInventoryBatch(bytes.value.inventory);
      ghost var w2 := RestoreSessionBatch(bytes.value.sessions);
      ghost var w3 := FinalizeRestoration(index, bytes.value.lastTime);
      RestorePlan(prep, w1, w2, w3, d, Contents());
      ws := prep + [w1, w2, w3];
      error := None;
    }

    /** The first two phases: the tombstone is down before anything else is touched. */
    method PrepareRestoration() returns (ghost ws: seq<Write>)
      modifies this`inventory, this`sessions, this`meta, this`journal
      ensures Contents() == Disk(map[], map[], Meta(None, None, true))
      ensures journal == old(journal) + ws && Run(ws, old(Contents())) == Contents()
      ensures |ws| >= 1 && ws[0] == [RaiseTombstone] && forall j :: 0 < j < |ws| ==> KeepsTombstone(ws[j])
    {
      ghost var d := Contents();
      RunPushOp([], RaiseTombstone, d);
      assert [] + [[RaiseTombstone]] == [[RaiseTombstone]];
      meta, journal := meta.(restoring := true), journal + [[RaiseTombstone]];
      ghost var cleared := ClearStateExceptTombstone();
      RunConcat([[RaiseTombstone]], cleared, d);
      ws := [[RaiseTombstone]] + cleared;
      assert forall j :: 0 < j < |ws| ==> ws[j] in cleared;
    }
  }
}
