/**
 The records of the replicated state machine, the three trees they are kept in, and the
 durable writes that change those trees.
 */
module FsmTypes {
  import opened Common

  datatype Timestamp = Timestamp(seconds: int, nanos: int)

  const EPOCH: Timestamp := Timestamp(0, 0)

  predicate Later(a: Timestamp, b: Timestamp) {
    a.seconds > b.seconds || (a.seconds == b.seconds && a.nanos > b.nanos)
  }

  function MaxTimestamp(a: Timestamp, b: Timestamp): Timestamp {
    if Later(a, b) then a else b
  }

  const STATUS_COMMITTED: int := 1
  const STATUS_VETOED: int := 3

  predicate KnownStatus(status: int) {
    0 <= status <= 3
  }

  /** A log entry's payload once decoded. Its quantity travels as decimal text and is taken here as the number. */
  datatype Mutation = Mutation(
    clientId: string, sequenceId: nat,
    itemKey: string, displayName: string, quantity: real, baseUnit: string, displayUnit: string,
    category: string, rawInput: string, justification: string,
    eventTime: Option<Timestamp>, isDelete: bool, status: int)

  datatype Payload = Encoded(mutation: Mutation) | Undecodable

  datatype GroceryItem = GroceryItem(
    itemKey: string, quantity: real, unit: string, category: string,
    lastModifier: string, lastActivity: Timestamp, stateVersion: nat, displayUnit: string)

  datatype SessionRecord = SessionRecord(
    clientId: string, lastSequenceId: nat, status: int, logIndex: nat,
    justification: string, lastActivity: Timestamp)

  datatype Meta = Meta(lastApplied: Option<nat>, lastTime: Option<Timestamp>, restoring: bool)

  /** Everything the store keeps on disk. */
  datatype Disk = Disk(
    inventory: map<string, GroceryItem>,
    sessions: map<string, SessionRecord>,
    meta: Meta)

  const EMPTY_DISK: Disk := Disk(map[], map[], Meta(None, None, false))

  function LastApplied(d: Disk): nat {
    match d.meta.lastApplied case Some(i) => i case None => 0
  }

  function Clock(d: Disk): Timestamp {
    match d.meta.lastTime case Some(t) => t case None => EPOCH
  }

  // --- Durable writes ---

  datatype Op =
    | PutItem(key: string, item: GroceryItem)
    | DropItem(key: string)
    | PutSession(key: string, record: SessionRecord)
    | DropSession(key: string)
    | SetApplied(index: nat)
    | DropApplied
    | SetTime(time: Timestamp)
    | DropTime
    | RaiseTombstone
    | DropTombstone

  /** One atomic unit of durability: a single insert, a batch, or a transaction. */
  type Write = seq<Op>

  function ExecOp(op: Op, d: Disk): Disk {
    match op
    case PutItem(k, item) => d.(inventory := d.inventory[k := item])
    case DropItem(k) => d.(inventory := d.inventory - {k})
    case PutSession(k, r) => d.(sessions := d.sessions[k := r])
    case DropSession(k) => d.(sessions := d.sessions - {k})
    case SetApplied(i) => d.(meta := d.meta.(lastApplied := Some(i)))
    case DropApplied => d.(meta := d.meta.(lastApplied := None))
    case SetTime(t) => d.(meta := d.meta.(lastTime := Some(t)))
    case DropTime => d.(meta := d.meta.(lastTime := None))
    case RaiseTombstone => d.(meta := d.meta.(restoring := true))
    case DropTombstone => d.(meta := d.meta.(restoring := false))
  }

  function Exec(w: Write, d: Disk): Disk
    decreases |w|
  {
    if w == [] then d else ExecOp(w[|w| - 1], Exec(w[..|w| - 1], d))
  }

  /** The disk after a sequence of writes; a crash leaves the disk after some prefix of them. */
  function Run(ws: seq<Write>, d: Disk): Disk
    decreases |ws|
  {
    if ws == [] then d else Exec(ws[|ws| - 1], Run(ws[..|ws| - 1], d))
  }

  lemma ExecPush(w: Write, op: Op, d: Disk)
    ensures Exec(w + [op], d) == ExecOp(op, Exec(w, d))
  {
    assert (w + [op])[..|w|] == w;
  }

  lemma RunPush(ws: seq<Write>, w: Write, d: Disk)
    ensures Run(ws + [w], d) == Exec(w, Run(ws, d))
  {
    assert (ws + [w])[..|ws|] == ws;
  }

  /** A write of a single operation. */
  lemma RunPushOp(ws: seq<Write>, op: Op, d: Disk)
    ensures Run(ws + [[op]], d) == ExecOp(op, Run(ws, d))
  {
    RunPush(ws, [op], d);
    ExecPush([], op, Run(ws, d));
    assert [] + [op] == [op];
  }

  lemma {:induction false} RunConcat(a: seq<Write>, b: seq<Write>, d: Disk)
    ensures Run(a + b, d) == Run(b, Run(a, d))
    decreases |b|
  {
    if b == [] {
      assert a + b == a;
    } else {
      var n := |b| - 1;
      assert a + b == (a + b[..n]) + [b[n]];
      RunPush(a + b[..n], b[n], d);
      RunConcat(a, b[..n], d);
    }
  }

  // --- Snapshots ---

  datatype SnapshotData = SnapshotData(
    inventory: seq<GroceryItem>, sessions: seq<SessionRecord>, lastTime: Option<Timestamp>)

  /** Inventory rebuilt from a snapshot: keyed by the items' own keys, later items winning. */
  function KeyedItems(items: seq<GroceryItem>): (m: map<string, GroceryItem>)
    ensures forall k :: k in m ==> m[k].itemKey == k && m[k] in items
    ensures forall item :: item in items ==> item.itemKey in m
  {
    if items == [] then map[]
    else KeyedItems(items[..|items| - 1])[items[|items| - 1].itemKey := items[|items| - 1]]
  }

  /** Session table rebuilt from a snapshot: keyed by the records' own client identifiers. */
  function KeyedSessions(records: seq<SessionRecord>): (m: map<string, SessionRecord>)
    ensures forall k :: k in m ==> m[k].clientId == k && m[k] in records
    ensures forall r :: r in records ==> r.clientId in m
  {
    if records == [] then map[]
    else KeyedSessions(records[..|records| - 1])[records[|records| - 1].clientId := records[|records| - 1]]
  }

  /** What a store holds once a snapshot has been installed at an index. */
  function Restored(index: nat, data: SnapshotData): Disk {
    Disk(KeyedItems(data.inventory), KeyedSessions(data.sessions), Meta(Some(index), data.lastTime, false))
  }

  /** The data is a serialization of the disk, in any order. */
  ghost predicate IsSnapshotOf(data: SnapshotData, d: Disk) {
    && (forall item :: item in data.inventory <==> item in d.inventory.Values)
    && (forall r :: r in data.sessions <==> r in d.sessions.Values)
    && data.lastTime == Some(Clock(d))
  }

  /** Every record sits under the key that a restore would give it. */
  predicate SelfKeyed(d: Disk) {
    && (forall k :: k in d.inventory ==> d.inventory[k].itemKey == k)
    && (forall k :: k in d.sessions ==> d.sessions[k].clientId == k)
  }

  lemma KeyedItemsRebuild(items: seq<GroceryItem>, inventory: map<string, GroceryItem>)
    requires forall item :: item in items <==> item in inventory.Values
    requires forall k :: k in inventory ==> inventory[k].itemKey == k
    ensures KeyedItems(items) == inventory
  {
    var m := KeyedItems(items);
    forall k | k in inventory
      ensures k in m && m[k] == inventory[k]
    {
      assert inventory[k] in inventory.Values;
      assert m[k] in inventory.Values;
    }
    forall k | k in m
      ensures k in inventory
    {
      assert m[k] in inventory.Values;
    }
  }

  lemma KeyedSessionsRebuild(records: seq<SessionRecord>, sessions: map<string, SessionRecord>)
    requires forall r :: r in records <==> r in sessions.Values
    requires forall k :: k in sessions ==> sessions[k].clientId == k
    ensures KeyedSessions(records) == sessions
  {
    var m := KeyedSessions(records);
    forall k | k in sessions
      ensures k in m && m[k] == sessions[k]
    {
      assert sessions[k] in sessions.Values;
      assert m[k] in sessions.Values;
    }
    forall k | k in m
      ensures k in sessions
    {
      assert m[k] in sessions.Values;
    }
  }

  /**
   Snapshot round trip. Installing a snapshot of `d` at any index gives back exactly the
   inventory, sessions and clock of `d` if and only if every record of `d` sits under its
   own key; the target's previous content plays no part.
   */
  lemma SnapshotRoundTrip(d: Disk, data: SnapshotData, index: nat)
    requires IsSnapshotOf(data, d)
    ensures SelfKeyed(d) <==>
            Restored(index, data) == Disk(d.inventory, d.sessions, Meta(Some(index), Some(Clock(d)), false))
  {
    if SelfKeyed(d) {
      KeyedItemsRebuild(data.inventory, d.inventory);
      KeyedSessionsRebuild(data.sessions, d.sessions);
    } else {
      var r := Restored(index, data);
      assert r.inventory != d.inventory || r.sessions != d.sessions;
    }
  }
}
