/** The order of the log tree's keys: indices as eight bytes, most significant first. */
module Keys {
  import opened Common

  type Byte = x: nat | x < 256

  function Width(k: nat): (w: nat)
    ensures w >= 1
  {
    if k == 0 then 1 else 256 * Width(k - 1)
  }

  /** `n` in `k` bytes, most significant first. */
  function BigEndian(n: nat, k: nat): (b: seq<Byte>)
    requires n < Width(k)
    ensures |b| == k
  {
    if k == 0 then [] else BigEndian(n / 256, k - 1) + [n % 256]
  }

  /** Lexicographic order, as an ordered tree compares keys. */
  predicate Below(a: seq<Byte>, b: seq<Byte>) {
    b != [] && (a == [] || a[0] < b[0] || (a[0] == b[0] && Below(a[1..], b[1..])))
  }

  lemma {:induction false} BelowSnoc(a: seq<Byte>, b: seq<Byte>, x: Byte, y: Byte)
    requires |a| == |b|
    ensures Below(a + [x], b + [y]) <==> Below(a, b) || (a == b && x < y)
  {
    if a == [] {
      assert !Below([x][1..], [y][1..]);
      assert a + [x] == [x] && b + [y] == [y];
    } else {
      assert (a + [x])[1..] == a[1..] + [x] && (b + [y])[1..] == b[1..] + [y];
      BelowSnoc(a[1..], b[1..], x, y);
      assert a == b <==> a[0] == b[0] && a[1..] == b[1..];
    }
  }

  /** Byte order is numeric order. */
  lemma {:induction false} OrderIsNumeric(m: nat, n: nat, k: nat)
    requires m < Width(k) && n < Width(k)
    ensures Below(BigEndian(m, k), BigEndian(n, k)) <==> m < n
    ensures BigEndian(m, k) == BigEndian(n, k) <==> m == n
  {
    if k > 0 {
      var a, b := BigEndian(m / 256, k - 1), BigEndian(n / 256, k - 1);
      OrderIsNumeric(m / 256, n / 256, k - 1);
      BelowSnoc(a, b, m % 256, n % 256);
      assert BigEndian(m, k)[k - 1] == m % 256 && BigEndian(n, k)[k - 1] == n % 256;
      assert BigEndian(m, k)[..k - 1] == a && BigEndian(n, k)[..k - 1] == b;
    }
  }

  lemma WidthOfEight()
    ensures Width(8) == U64_MAX + 1
  {
    assert Width(1) == 256;
    assert Width(2) == 65536;
    assert Width(3) == 256 * Width(2);
    assert Width(4) == 256 * Width(3);
    assert Width(5) == 256 * Width(4);
    assert Width(6) == 256 * Width(5);
    assert Width(7) == 256 * Width(6);
    assert Width(8) == 256 * Width(7);
  }

  /** The byte of weight `256^j`. */
  function Digit(n: nat, j: nat): Byte {
    if j == 0 then n % 256 else Digit(n / 256, j - 1)
  }

  lemma {:induction false} DigitOfBigEndian(n: nat, k: nat, i: nat)
    requires n < Width(k) && i < k
    ensures BigEndian(n, k)[i] == Digit(n, k - 1 - i)
  {
    if i < k - 1 { DigitOfBigEndian(n / 256, k - 1, i); }
  }

  /** A 64-bit index as a tree key. */
  function Key(n: nat): seq<Byte> {
    seq(8, i requires 0 <= i < 8 => Digit(n, 7 - i))
  }

  lemma KeyIsBigEndian(n: nat)
    requires n <= U64_MAX
    ensures n < Width(8) && Key(n) == BigEndian(n, 8)
  {
    WidthOfEight();
    forall i | 0 <= i < 8 ensures Key(n)[i] == BigEndian(n, 8)[i] {
      DigitOfBigEndian(n, 8, i);
    }
  }

  lemma KeyOrder(m: nat, n: nat)
    requires m <= U64_MAX && n <= U64_MAX
    ensures Below(Key(m), Key(n)) <==> m < n
    ensures Key(m) == Key(n) <==> m == n
  {
    KeyIsBigEndian(m);
    KeyIsBigEndian(n);
    OrderIsNumeric(m, n, 8);
  }

  /** The number a key spells. */
  function FromBytes(b: seq<Byte>): nat {
    if b == [] then 0 else 256 * FromBytes(b[..|b| - 1]) + b[|b| - 1]
  }

  lemma {:induction false} BytesRoundTrip(n: nat, k: nat)
    requires n < Width(k)
    ensures FromBytes(BigEndian(n, k)) == n
  {
    if k > 0 {
      BytesRoundTrip(n / 256, k - 1);
      assert BigEndian(n, k)[..k - 1] == BigEndian(n / 256, k - 1);
    }
  }

  /** Reading a key back gives its index. */
  lemma KeyRoundTrip(n: nat)
    requires n <= U64_MAX
    ensures FromBytes(Key(n)) == n
  {
    KeyIsBigEndian(n);
    BytesRoundTrip(n, 8);
  }
}

/**
 What a log storage holds. In general any entries, each under its own index, beside the coordinates
 of a snapshot; in the usual case a log that has lost its front to compaction.
 */
module LogStore {
  import opened Common
  import opened FsmTypes
  import Raft

  type Entry = Raft.Entry

  // --- Any entries ---

  type Stored = map<nat, Entry>

  /** A batch: each entry under its own index, later ones winning. */
  function Put(stored: Stored, es: seq<Entry>): Stored
    decreases |es|
  {
    if es == [] then stored else Put(stored[es[0].index := es[0]], es[1..])
  }

  function CutBack(stored: Stored, k: nat): Stored {
    map i | i in stored && i < k :: stored[i]
  }

  /** Index 0 names no entry of a log, and a front cut does not reach it. */
  function CutFront(stored: Stored, k: nat): Stored {
    map i | i in stored && !(1 <= i <= k) :: stored[i]
  }

  /** The entries present from `lo` up to but not including `hi`, in order. */
  function Scan(stored: Stored, lo: nat, hi: nat): seq<Entry> {
    if hi <= lo then []
    else Scan(stored, lo, hi - 1) + if hi - 1 in stored then [stored[hi - 1]] else []
  }

  ghost predicate IsGreatest(stored: Stored, k: nat) {
    k in stored && forall i :: i in stored ==> i <= k
  }

  /** The last index: that of the last entry, or the snapshot's. */
  ghost predicate IsLastIndex(stored: Stored, snapIndex: nat, k: nat) {
    && snapIndex <= k && (forall i :: i in stored ==> i <= k)
    && (k == snapIndex || k in stored)
  }

  /** The last term: the last entry's, or else the snapshot's. */
  ghost predicate IsLastTerm(stored: Stored, snapTerm: nat, t: nat) {
    if stored == map[] then t == snapTerm
    else exists k :: IsGreatest(stored, k) && t == if stored[k].term > 0 then stored[k].term else snapTerm
  }

  /** The node's term lookup: the snapshot's coordinates come before the stored entries. */
  function TermOf(stored: Stored, snapIndex: nat, snapTerm: nat, k: nat): nat {
    if k == 0 then 0
    else if k == snapIndex then snapTerm
    else if k in stored then stored[k].term else 0
  }

  lemma {:induction false} ScanSkips(stored: Stored, lo: nat, mid: nat, hi: nat)
    requires lo <= mid <= hi && forall i :: mid <= i < hi ==> i !in stored
    ensures Scan(stored, lo, hi) == Scan(stored, lo, mid)
    decreases hi
  {
    if mid < hi {
      ScanSkips(stored, lo, mid, hi - 1);
    }
  }

  // --- A log from index `first` on ---

  datatype Store = Store(snapIndex: nat, snapTerm: nat, first: nat, entries: seq<Entry>) {
    function Last(): nat {
      if first + |entries| >= 1 && first + |entries| - 1 > snapIndex then first + |entries| - 1 else snapIndex
    }

    function LastTerm(): nat {
      if entries == [] then snapTerm else entries[|entries| - 1].term
    }

    function Read(k: nat): Option<Entry> {
      if first <= k < first + |entries| then Some(entries[k - first]) else None
    }

    /** The node's term lookup: index 0, the snapshot's coordinates, then the stored entries. */
    function TermAt(k: nat): nat {
      if k == 0 then 0
      else if k == snapIndex then snapTerm
      else match Read(k)
        case Some(e) => e.term
        case None => 0
    }

    /** Stored entries are consecutive and reach down to the horizon. */
    predicate Live() {
      && 1 <= first <= snapIndex + 1 <= first + |entries| <= U64_MAX
      && (forall i :: 0 <= i < |entries| ==> entries[i].index == first + i && entries[i].term >= 1)
      && (snapIndex == 0 <==> snapTerm == 0)
      && (first <= snapIndex ==> entries[snapIndex - first].term == snapTerm)
    }

    predicate Continues(es: seq<Entry>) {
      && Last() + |es| < U64_MAX
      && forall i :: 0 <= i < |es| ==> es[i].index == Last() + 1 + i && es[i].term >= 1
    }

    function Append(es: seq<Entry>): Store {
      this.(entries := entries + es)
    }

    function TruncateFrom(k: nat): Store {
      if k >= first + |entries| then this
      else this.(entries := entries[..if k < first then 0 else k - first])
    }

    function TruncateFront(k: nat): Store {
      if k < first then this
      else this.(first := k + 1, entries := if k + 1 - first <= |entries| then entries[k + 1 - first..] else [])
    }

    function SaveSnapshot(k: nat, t: nat): Store {
      this.(snapIndex := k, snapTerm := t)
    }
  }

  /** Every operation within its terms keeps the store live. */
  lemma OperationsKeepLive(s: Store, es: seq<Entry>, k: nat)
    requires s.Live()
    ensures s.Last() == s.first + |s.entries| - 1
    ensures s.Continues(es) ==> s.Append(es).Live() && s.Append(es).Last() == s.Last() + |es|
    ensures k > s.snapIndex ==> s.TruncateFrom(k).Live() && (k <= s.Last() ==> s.TruncateFrom(k).Last() == k - 1)
    ensures 1 <= k && s.snapIndex <= k <= s.Last() ==> s.SaveSnapshot(k, s.TermAt(k)).Live()
    ensures k <= s.snapIndex ==> s.TruncateFront(k).Live()
  {
  }

  /** Cutting off what a contiguous append added gives the store back. */
  lemma TruncateUndoesAppend(s: Store, es: seq<Entry>)
    requires s.Live() && s.Continues(es)
    ensures s.Append(es).TruncateFrom(s.Last() + 1) == s
  {
    assert (s.entries + es)[..|s.entries|] == s.entries;
  }

  // --- A log among stored entries ---

  function Laid(first: nat, entries: seq<Entry>): (stored: Stored)
    ensures forall i :: i in stored <==> first <= i < first + |entries|
    ensures forall i :: i in stored ==> stored[i] == entries[i - first]
    decreases |entries|
  {
    if entries == [] then map[]
    else Laid(first, entries[..|entries| - 1])[first + |entries| - 1 := entries[|entries| - 1]]
  }

  lemma {:induction false} PutExtends(first: nat, entries: seq<Entry>, es: seq<Entry>)
    requires forall i :: 0 <= i < |es| ==> es[i].index == first + |entries| + i
    ensures Put(Laid(first, entries), es) == Laid(first, entries + es)
    decreases |es|
  {
    if es == [] {
      assert entries + es == entries;
    } else {
      assert Laid(first, entries)[es[0].index := es[0]] == Laid(first, entries + [es[0]]);
      assert entries + [es[0]] + es[1..] == entries + es;
      forall i | 0 <= i < |es| - 1 ensures es[1..][i].index == first + |entries + [es[0]]| + i {
        assert es[1..][i] == es[i + 1];
      }
      PutExtends(first, entries + [es[0]], es[1..]);
    }
  }

  /** On a log that is live, what happens to the stored entries is what happens to the log. */
  lemma StoredOperationsAreTheLogs(s: Store, es: seq<Entry>, k: nat)
    requires s.Live()
    ensures s.Continues(es) ==> Put(Laid(s.first, s.entries), es) == Laid(s.first, s.Append(es).entries)
    ensures CutBack(Laid(s.first, s.entries), k) == Laid(s.first, s.TruncateFrom(k).entries)
    ensures CutFront(Laid(s.first, s.entries), k) == Laid(s.TruncateFront(k).first, s.TruncateFront(k).entries)
    ensures IsLastIndex(Laid(s.first, s.entries), s.snapIndex, s.Last())
    ensures IsLastTerm(Laid(s.first, s.entries), s.snapTerm, s.LastTerm())
  {
    if s.Continues(es) { PutExtends(s.first, s.entries, es); }
    LaidBack(s, k);
    LaidFront(s, k);
    LaidEnd(s);
  }

  lemma LaidBack(s: Store, k: nat)
    ensures CutBack(Laid(s.first, s.entries), k) == Laid(s.first, s.TruncateFrom(k).entries)
  {
  }

  lemma LaidFront(s: Store, k: nat)
    requires s.first >= 1
    ensures CutFront(Laid(s.first, s.entries), k) == Laid(s.TruncateFront(k).first, s.TruncateFront(k).entries)
  {
  }

  lemma LaidEnd(s: Store)
    requires s.Live()
    ensures IsLastIndex(Laid(s.first, s.entries), s.snapIndex, s.Last())
    ensures IsLastTerm(Laid(s.first, s.entries), s.snapTerm, s.LastTerm())
  {
    var stored := Laid(s.first, s.entries);
    if s.entries == [] {
      assert stored == map[];
    } else {
      var last := s.first + |s.entries| - 1;
      assert last in stored;
      assert IsGreatest(stored, last);
    }
  }

  function Clamp(s: Store, k: nat): nat {
    if k < s.first then s.first else if k > s.first + |s.entries| then s.first + |s.entries| else k
  }

  /** A scan of a log is a slice of it. */
  lemma {:induction false} ScanIsSlice(s: Store, lo: nat, hi: nat)
    requires lo <= hi
    ensures Clamp(s, lo) <= Clamp(s, hi)
    ensures Scan(Laid(s.first, s.entries), lo, hi) == s.entries[Clamp(s, lo) - s.first..Clamp(s, hi) - s.first]
    decreases hi
  {
    if lo < hi {
      ScanIsSlice(s, lo, hi - 1);
    }
  }
}

/** The durable store: an ordered tree under big-endian keys, and the snapshot coordinates. */
module Sled {
  import opened Common
  import opened FsmTypes
  import opened Keys
  import opened LogStore

  type Tree = map<seq<Byte>, Entry>

  /** The tree holds exactly the stored entries, each under the key of its index. */
  ghost predicate Represents(log: Tree, stored: Stored) {
    && (forall i :: i in stored ==>
          i <= U64_MAX && stored[i].index == i && Key(i) in log && log[Key(i)] == stored[i])
    && (forall b :: b in log ==> FromBytes(b) in stored && b == Key(FromBytes(b)))
  }

  predicate Representable(es: seq<Entry>) {
    forall i :: 0 <= i < |es| ==> es[i].index <= U64_MAX
  }

  lemma InsertRepresents(log: Tree, stored: Stored, e: Entry)
    requires Represents(log, stored) && e.index <= U64_MAX
    ensures Represents(log[Key(e.index) := e], stored[e.index := e])
  {
    KeyRoundTrip(e.index);
    forall i | i in stored ensures Key(i) == Key(e.index) <==> i == e.index {
      KeyOrder(i, e.index);
    }
  }

  /** The keys of the indices from `lo` up to but not including `hi`. */
  function KeysBetween(lo: nat, hi: nat): set<seq<Byte>> {
    set i | lo <= i < hi :: Key(i)
  }

  lemma KeyIn(i: nat, lo: nat, hi: nat)
    requires i <= U64_MAX && hi <= U64_MAX + 1
    ensures Key(i) in KeysBetween(lo, hi) <==> lo <= i < hi
  {
    if Key(i) in KeysBetween(lo, hi) {
      var j: nat :| lo <= j < hi && Key(i) == Key(j);
      KeyOrder(i, j);
    }
  }

  /** Removing the keys of a range of indices removes the entries of that range. */
  lemma RemoveRepresents(log: Tree, stored: Stored, lo: nat, hi: nat, after: Stored)
    requires Represents(log, stored) && hi <= U64_MAX + 1
    requires forall i :: i in after <==> i in stored && !(lo <= i < hi)
    requires forall i :: i in after ==> after[i] == stored[i]
    ensures Represents(log - KeysBetween(lo, hi), after)
  {
    forall i | i in stored ensures Key(i) in KeysBetween(lo, hi) <==> lo <= i < hi {
      KeyIn(i, lo, hi);
    }
  }

  lemma BackRepresents(log: Tree, stored: Stored, snapIndex: nat, last: nat, k: nat)
    requires Represents(log, stored) && snapIndex <= U64_MAX && IsLastIndex(stored, snapIndex, last)
    ensures Represents(if k <= last then log - KeysBetween(k, last + 1) else log, CutBack(stored, k))
  {
    if k <= last {
      RemoveRepresents(log, stored, k, last + 1, CutBack(stored, k));
    } else {
      assert CutBack(stored, k) == stored;
    }
  }

  lemma FrontRepresents(log: Tree, stored: Stored, k: nat)
    requires Represents(log, stored) && k <= U64_MAX
    ensures Represents(log - KeysBetween(1, k + 1), CutFront(stored, k))
  {
    RemoveRepresents(log, stored, 1, k + 1, CutFront(stored, k));
  }

  /** The order of the tree is the order of the indices. */
  lemma TreeOrder(log: Tree, stored: Stored, b: seq<Byte>, c: seq<Byte>)
    requires Represents(log, stored) && b in log && c in log
    ensures Below(b, c) <==> FromBytes(b) < FromBytes(c)
  {
    KeyOrder(FromBytes(b), FromBytes(c));
  }

  class SledStorage {
    var log: Tree
    var snapshotIndex: nat
    var snapshotTerm: nat
    ghost var stored: Stored

    ghost predicate Valid()
      reads this
    {
      Represents(log, stored) && snapshotIndex <= U64_MAX
    }

    constructor ()
      ensures Valid() && stored == map[] && snapshotIndex == 0 && snapshotTerm == 0
    {
      log, snapshotIndex, snapshotTerm, stored := map[], 0, 0, map[];
    }

    /** The tree's greatest entry, with the index its key spells. */
    method LastEntry() returns (e: Option<(nat, Entry)>)
      requires Valid()
      ensures match e
              case None => stored == map[]
              case Some((k, x)) => IsGreatest(stored, k) && x == stored[k]
    {
      if log == map[] {
        assert forall i :: i in stored ==> Key(i) in log;
        return None;
      }
      ghost var g := GreatestKey(log, stored, log.Keys);
      var b :| b in log && forall c :: c in log ==> !Below(b, c);
      forall i | i in stored ensures i <= FromBytes(b) {
        KeyRoundTrip(i);
        TreeOrder(log, stored, b, Key(i));
      }
      e := Some((FromBytes(b), log[b]));
    }

    method LastLogIndex() returns (index: nat)
      requires Valid()
      ensures IsLastIndex(stored, snapshotIndex, index)
    {
      var e := LastEntry();
      var physical := match e case Some((i, _)) => i case None => 0;
      index := if physical > snapshotIndex then physical else snapshotIndex;
    }

    method LastLogTerm() returns (term: nat)
      requires Valid()
      ensures IsLastTerm(stored, snapshotTerm, term)
    {
      var e := LastEntry();
      var physical := match e case Some((_, x)) => x.term case None => 0;
      term := if physical > 0 then physical else snapshotTerm;
    }

    method ReadEntry(k: nat) returns (e: Option<Entry>)
      requires Valid() && k <= U64_MAX
      ensures e == if k in stored then Some(stored[k]) else None
    {
      KeyRoundTrip(k);
      e := if Key(k) in log then Some(log[Key(k)]) else None;
    }

    /** One batch: every entry under its own index, whatever was there. */
    method AppendEntries(es: seq<Entry>)
      requires Valid() && Representable(es)
      modifies this`log, this`stored
      ensures Valid() && stored == Put(old(stored), es)
    {
      var i := 0;
      while i < |es|
        invariant 0 <= i <= |es| && Valid() && Put(stored, es[i..]) == Put(old(stored), es)
      {
        InsertRepresents(log, stored, es[i]);
        assert es[i..][1..] == es[i + 1..];
        log := log[Key(es[i].index) := es[i]];
        stored := stored[es[i].index := es[i]];
        i := i + 1;
      }
    }

    /** Back truncation: the keys from `k` to the last index go. */
    method TruncateLog(k: nat)
      requires Valid()
      modifies this`log, this`stored
      ensures Valid() && stored == CutBack(old(stored), k)
    {
      var last := LastLogIndex();
      BackRepresents(log, stored, snapshotIndex, last, k);
      if k <= last {
        log := log - KeysBetween(k, last + 1);
      }
      stored := CutBack(stored, k);
    }

    /** Front truncation: the keys from 1 to `k` go. */
    method TruncateLogFront(k: nat)
      requires Valid() && k <= U64_MAX
      modifies this`log, this`stored
      ensures Valid() && stored == CutFront(old(stored), k)
    {
      FrontRepresents(log, stored, k);
      log := log - KeysBetween(1, k + 1);
      stored := CutFront(stored, k);
    }

    method SaveSnapshotMetadata(k: nat, t: nat)
      requires Valid() && k <= U64_MAX
      modifies this`snapshotIndex, this`snapshotTerm
      ensures Valid() && snapshotIndex == k && snapshotTerm == t
    {
      snapshotIndex, snapshotTerm := k, t;
    }

    /** The range scan visits the keys from `start` to `end` in ascending order. */
    method ReadEntries(start: nat, end: nat) returns (r: Option<seq<Entry>>)
      requires Valid() && start <= U64_MAX && end <= U64_MAX
      ensures r == if start == 0 then None else Some(Scan(stored, start, end + 1))
    {
      if start == 0 { return None; }
      if start > end { return Some([]); }
      var lo, hi := Key(start), Key(end);
      var rest := set b | b in log && !Below(b, lo) && !Below(hi, b);
      RangeIs(log, stored, start, end, rest);
      var out := Collect(log, stored, start, end, rest);
      r := Some(out);
    }
  }

  // --- Scans ---

  /** The keys of the indices from `j` to `end` that are stored. */
  ghost predicate IsRange(log: Tree, j: nat, end: nat, range: set<seq<Byte>>) {
    forall b :: b in range <==> b in log && j <= FromBytes(b) <= end
  }

  /** Visits the keys of a range in ascending order. */
  method Collect(log: Tree, ghost stored: Stored, ghost start: nat, ghost end: nat, range: set<seq<Byte>>)
    returns (out: seq<Entry>)
    requires Represents(log, stored) && start <= end && IsRange(log, start, end, range)
    ensures out == Scan(stored, start, end + 1)
  {
    out := [];
    var rest := range;
    ghost var j := start;
    while rest != {}
      invariant start <= j <= end + 1 && out == Scan(stored, start, j) && IsRange(log, j, end, rest)
      decreases rest
    {
      ghost var g := LeastKey(log, stored, rest);
      var b :| b in rest && forall c :: c in rest ==> !Below(c, b);
      ghost var i := LeastIsNext(log, stored, rest, b, start, j, end);
      out, rest, j := out + [log[b]], rest - {b}, i + 1;
    }
    NoneLeft(log, stored, j, end, rest);
    ScanSkips(stored, start, j, end + 1);
  }

  lemma RangeIs(log: Tree, stored: Stored, start: nat, end: nat, range: set<seq<Byte>>)
    requires Represents(log, stored) && start <= U64_MAX && end <= U64_MAX
    requires range == set b | b in log && !Below(b, Key(start)) && !Below(Key(end), b)
    ensures IsRange(log, start, end, range)
  {
    forall b | b in log ensures b in range <==> start <= FromBytes(b) <= end {
      KeyOrder(FromBytes(b), start);
      KeyOrder(end, FromBytes(b));
    }
  }

  lemma {:induction false} LeastKey(log: Tree, stored: Stored, range: set<seq<Byte>>) returns (b: seq<Byte>)
    requires Represents(log, stored) && range <= log.Keys && range != {}
    ensures b in range && forall c :: c in range ==> !Below(c, b)
    decreases |range|
  {
    var x :| x in range;
    if range == {x} {
      b := x;
      TreeOrder(log, stored, x, x);
    } else {
      var y := LeastKey(log, stored, range - {x});
      b := if Below(x, y) then x else y;
      forall c | c in range ensures !Below(c, b) {
        TreeOrder(log, stored, c, x);
        TreeOrder(log, stored, c, y);
        TreeOrder(log, stored, x, y);
      }
    }
  }

  lemma {:induction false} GreatestKey(log: Tree, stored: Stored, range: set<seq<Byte>>) returns (b: seq<Byte>)
    requires Represents(log, stored) && range <= log.Keys && range != {}
    ensures b in range && forall c :: c in range ==> !Below(b, c)
    decreases |range|
  {
    var x :| x in range;
    if range == {x} {
      b := x;
      TreeOrder(log, stored, x, x);
    } else {
      var y := GreatestKey(log, stored, range - {x});
      b := if Below(y, x) then x else y;
      forall c | c in range ensures !Below(b, c) {
        TreeOrder(log, stored, x, c);
        TreeOrder(log, stored, y, c);
        TreeOrder(log, stored, y, x);
      }
    }
  }

  /** Nothing is stored before the least key of a range, and the other keys lie behind it. */
  lemma LeastIsNext(log: Tree, stored: Stored, range: set<seq<Byte>>, b: seq<Byte>, start: nat, j: nat, end: nat)
    returns (i: nat)
    requires start <= j && Represents(log, stored) && b in range && forall c :: c in range ==> !Below(c, b)
    requires IsRange(log, j, end, range)
    ensures j <= i <= end && b in log && IsRange(log, i + 1, end, range - {b})
    ensures Scan(stored, start, i + 1) == Scan(stored, start, j) + [log[b]]
  {
    i := FromBytes(b);
    forall m | m in stored && j <= m <= end ensures i <= m {
      KeyRoundTrip(m);
      TreeOrder(log, stored, Key(m), b);
    }
    forall c | c in range ensures i <= FromBytes(c) && (c != b ==> i != FromBytes(c)) {
      TreeOrder(log, stored, c, b);
    }
    ScanTakes(stored, start, j, i);
  }

  lemma ScanTakes(stored: Stored, start: nat, j: nat, i: nat)
    requires start <= j <= i && i in stored && forall m :: j <= m < i ==> m !in stored
    ensures Scan(stored, start, i + 1) == Scan(stored, start, j) + [stored[i]]
  {
    ScanSkips(stored, start, j, i);
  }

  lemma NoneLeft(log: Tree, stored: Stored, j: nat, end: nat, range: set<seq<Byte>>)
    requires Represents(log, stored) && IsRange(log, j, end, range) && range == {}
    ensures forall i :: j <= i < end + 1 ==> i !in stored
  {
    forall i | i in stored ensures !(j <= i <= end) {
      KeyRoundTrip(i);
    }
  }

  /** What a scan returns of a log: an error below index 1, else the stored part of the range. */
  function SledRange(s: Store, start: nat, end: nat): Option<seq<Entry>> {
    if start == 0 then None else Some(Scan(Laid(s.first, s.entries), start, end + 1))
  }
}

/** The in-memory store: a vector of entries whose first element carries the offset. */
module Memory {
  import opened Common
  import opened FsmTypes
  import opened LogStore
  import opened Sled

  /** The contiguous part of what is offered after index `last`. */
  function Contiguous(last: nat, es: seq<Entry>): seq<Entry>
    decreases |es|
  {
    if es == [] || es[0].index != last + 1 then [] else [es[0]] + Contiguous(last + 1, es[1..])
  }

  /** What a range read of the vector returns: an error below its start, nothing if it runs past its end. */
  function MemoryRange(s: Store, start: nat, end: nat): Option<seq<Entry>> {
    if start == 0 then None
    else if start > end then Some([])
    else if s.entries == [] then Some([])
    else if start < s.first then None
    else if end >= s.first + |s.entries| then Some([])
    else Some(s.entries[start - s.first..end + 1 - s.first])
  }

  predicate Consecutive(log: seq<Entry>) {
    forall i :: 0 <= i < |log| ==> log[i].index == log[0].index + i >= 1
  }

  /** One entry further: the contiguous part takes it if it comes next. */
  lemma ContiguousStep(log: seq<Entry>, last: nat, es: seq<Entry>, i: nat)
    requires i < |es| && es[i].index == last + 1
    ensures log + Contiguous(last, es[i..]) == log + [es[i]] + Contiguous(last + 1, es[i + 1..])
    ensures Contiguous(last, es[i..]) == es[i..] <==> Contiguous(last + 1, es[i + 1..]) == es[i + 1..]
  {
    var rest := Contiguous(last + 1, es[i + 1..]);
    assert es[i..][0] == es[i] && es[i..][1..] == es[i + 1..];
    assert es[i..] == [es[i]] + es[i + 1..];
    assert ([es[i]] + rest)[1..] == rest;
  }

  lemma PushKeepsConsecutive(log: seq<Entry>, e: Entry)
    requires Consecutive(log) && e.index >= 1 && (log != [] ==> e.index == log[|log| - 1].index + 1)
    ensures Consecutive(log + [e])
  {
  }

  function FirstOf(log: seq<Entry>, snapIndex: nat): nat {
    if log == [] then snapIndex + 1 else log[0].index
  }

  /** Draining the vector's front is the cut. */
  lemma DrainIsCut(log: seq<Entry>, snapIndex: nat, k: nat)
    requires Consecutive(log) && log != [] && k >= log[0].index
    ensures var count := k - log[0].index + 1;
            var rest := log[if count < |log| then count else |log|..];
            && Consecutive(rest)
            && CutFront(Laid(log[0].index, log), k) == Laid(FirstOf(rest, snapIndex), rest)
  {
    var count := k - log[0].index + 1;
    if count < |log| {
      SuffixIsConsecutive(log, count);
      DrainSome(log[0].index, log, count);
    } else {
      DrainAll(log[0].index, log, k);
    }
  }

  lemma DrainSome(first: nat, log: seq<Entry>, count: nat)
    requires first >= 1 && count <= |log|
    ensures CutFront(Laid(first, log), first + count - 1) == Laid(first + count, log[count..])
  {
  }

  lemma DrainAll(first: nat, log: seq<Entry>, k: nat)
    requires first >= 1 && k >= first + |log| - 1
    ensures CutFront(Laid(first, log), k) == map[]
  {
  }

  lemma SuffixIsConsecutive(log: seq<Entry>, count: nat)
    requires Consecutive(log) && count < |log|
    ensures Consecutive(log[count..]) && log[count..][0].index == log[0].index + count
  {
    assert log[count..][0] == log[count];
    forall i | 0 <= i < |log| - count ensures log[count..][i].index == log[count].index + i >= 1 {
      assert log[count..][i] == log[count + i];
    }
  }

  lemma NothingToCut(first: nat, log: seq<Entry>, k: nat)
    requires log == [] || k < first
    ensures CutFront(Laid(first, log), k) == Laid(first, log)
  {
  }

  class MemoryStorage {
    var log: seq<Entry>
    var lastIncludedIndex: nat
    var lastIncludedTerm: nat

    predicate Valid()
      reads this
    {
      Consecutive(log)
    }

    /** The vector with its offset; an empty one continues at the snapshot. */
    function Held(): Store
      reads this
    {
      Store(lastIncludedIndex, lastIncludedTerm, FirstOf(log, lastIncludedIndex), log)
    }

    function Contents(): Stored
      reads this
    {
      Laid(Held().first, log)
    }

    /** The index after which the next entry must come. */
    function End(): nat
      reads this
    {
      if log == [] then lastIncludedIndex else log[|log| - 1].index
    }

    constructor ()
      ensures Valid() && log == [] && lastIncludedIndex == 0 && lastIncludedTerm == 0
    {
      log, lastIncludedIndex, lastIncludedTerm := [], 0, 0;
    }

    method LastLogIndex() returns (index: nat)
      requires Valid()
      ensures IsLastIndex(Contents(), lastIncludedIndex, index)
    {
      var physical := if log != [] then log[|log| - 1].index else 0;
      index := if physical > lastIncludedIndex then physical else lastIncludedIndex;
    }

    method LastLogTerm() returns (term: nat)
      requires Valid()
      ensures IsLastTerm(Contents(), lastIncludedTerm, term)
    {
      var physical := if log != [] then log[|log| - 1].term else 0;
      term := if physical > 0 then physical else lastIncludedTerm;
      if log != [] {
        assert End() in Contents();
        assert IsGreatest(Contents(), End());
      } else {
        assert Contents() == map[];
      }
    }

    method ReadEntry(k: nat) returns (e: Option<Entry>)
      requires Valid()
      ensures e == if k in Contents() then Some(Contents()[k]) else None
    {
      if k == 0 || log == [] || k < log[0].index { return None; }
      var offset := k - log[0].index;
      e := if offset < |log| then Some(log[offset]) else None;
    }

    method ReadEntries(start: nat, end: nat) returns (r: Option<seq<Entry>>)
      requires Valid()
      ensures r == MemoryRange(Held(), start, end)
    {
      if start == 0 { return None; }
      if start > end || log == [] { return Some([]); }
      if start < log[0].index { return None; }
      var i, j := start - log[0].index, end - log[0].index;
      r := Some(if j < |log| then log[i..j + 1] else []);
    }

    /** Pushes entry by entry and stops at the first that skips an index. */
    method AppendEntries(es: seq<Entry>) returns (ok: bool)
      requires Valid()
      modifies this`log
      ensures Valid() && log == old(log) + Contiguous(old(End()), es)
      ensures ok <==> Contiguous(old(End()), es) == es
    {
      var i := 0;
      while i < |es|
        invariant 0 <= i <= |es| && Valid()
        invariant log + Contiguous(End(), es[i..]) == old(log) + Contiguous(old(End()), es)
        invariant Contiguous(End(), es[i..]) == es[i..] <==> Contiguous(old(End()), es) == es
      {
        var last := if log != [] then log[|log| - 1].index else lastIncludedIndex;
        if es[i].index != last + 1 {
          assert Contiguous(last, es[i..]) == [];
          return false;
        }
        ContiguousStep(log, last, es, i);
        PushKeepsConsecutive(log, es[i]);
        log := log + [es[i]];
        i := i + 1;
      }
      ok := true;
    }

    method TruncateLog(k: nat)
      requires Valid()
      modifies this`log
      ensures Valid() && Contents() == CutBack(old(Contents()), k)
    {
      LaidBack(Held(), k);
      if log != [] {
        if k <= log[0].index {
          log := [];
        } else if k - log[0].index < |log| {
          log := log[..k - log[0].index];
        }
      }
    }

    method TruncateLogFront(k: nat)
      requires Valid()
      modifies this`log
      ensures Valid() && Contents() == CutFront(old(Contents()), k)
    {
      if log != [] && k >= log[0].index {
        var count := k - log[0].index + 1;
        DrainIsCut(log, lastIncludedIndex, k);
        log := log[if count < |log| then count else |log|..];
      } else {
        NothingToCut(Held().first, log, k);
      }
    }

    method SaveSnapshotMetadata(k: nat, t: nat)
      requires Valid()
      modifies this`lastIncludedIndex, this`lastIncludedTerm
      ensures Valid() && lastIncludedIndex == k && lastIncludedTerm == t && Contents() == old(Contents())
    {
      lastIncludedIndex, lastIncludedTerm := k, t;
      assert log == [] ==> Contents() == map[] == old(Contents());
    }
  }

  lemma SledRangeIsSlice(s: Store, start: nat, end: nat)
    requires 1 <= start <= end
    ensures Clamp(s, start) <= Clamp(s, end + 1)
    ensures SledRange(s, start, end) == Some(s.entries[Clamp(s, start) - s.first..Clamp(s, end + 1) - s.first])
  {
    ScanIsSlice(s, start, end + 1);
  }

  lemma RangeWithinTheLog(s: Store, start: nat, end: nat)
    requires 1 <= s.first <= start <= end && s.entries != []
    ensures SledRange(s, start, end) == MemoryRange(s, start, end)
            <==> end < s.first + |s.entries| || start >= s.first + |s.entries|
  {
    SledRangeIsSlice(s, start, end);
    if start < s.first + |s.entries| <= end {
      assert |SledRange(s, start, end).value| > 0;
    }
  }

  /**
   The two stores return the same range exactly when the range is refused, empty or inside what is
   stored, lies wholly past the end, or nothing is stored at all.
   */
  lemma RangesAgreeWithinTheLog(s: Store, start: nat, end: nat)
    requires s.Live() && end < U64_MAX
    ensures SledRange(s, start, end) == MemoryRange(s, start, end)
            <==> || start == 0 || start > end || s.entries == []
                 || (s.first <= start && (end <= s.Last() || start > s.Last()))
  {
    if start != 0 && start <= end && s.entries != [] && s.first <= start {
      RangeWithinTheLog(s, start, end);
    } else if 1 <= start <= end {
      SledRangeIsSlice(s, start, end);
    }
  }
}

/**
 The log of a node of the cluster is what the durable store holds beside its snapshot coordinates:
 every term the node looks up, its last index and its last term are the store's answers, and each
 operation of the node is the operation on the store, through restores that leave old entries.
 */
module NodeLog {
  import opened Common
  import opened FsmTypes
  import opened Raft
  import opened LogStore

  /** Index `i` is stored: behind the horizon always, at or below it where a restore or a compaction left it. */
  predicate IsStored(n: Raft.Node, i: nat) {
    n.horizon < i <= |n.log| || (1 <= i <= |n.below| && n.below[i - 1] != 0)
  }

  ghost predicate OnDisk(n: Raft.Node, stored: Stored) {
    && n.horizon <= |n.log| && |n.below| <= n.horizon && (n.below != [] ==> n.below[|n.below| - 1] != 0)
    && (forall j :: 0 <= j < |n.log| ==> n.log[j].term >= 1)
    && (forall i :: i in stored <==> IsStored(n, i))
    && (forall i :: i in stored && i > n.horizon ==> stored[i] == n.log[i - 1])
    && (forall i :: i in stored && i <= n.horizon ==> stored[i].term == n.below[i - 1])
  }

  /** The store's answers are the node's. */
  lemma StoreAnswersForTheNode(n: Raft.Node, stored: Stored, k: nat)
    requires OnDisk(n, stored)
    ensures TermOf(stored, n.horizon, TermAt(n.log, n.horizon), k) == StoredTerm(n, k)
    ensures IsLastIndex(stored, n.horizon, |n.log|)
    ensures IsLastTerm(stored, TermAt(n.log, n.horizon), LastStoredTerm(n))
  {
    LookupIsTheNodes(n, stored, k);
    EndIsTheNodes(n, stored);
  }

  lemma LookupIsTheNodes(n: Raft.Node, stored: Stored, k: nat)
    requires OnDisk(n, stored)
    ensures TermOf(stored, n.horizon, TermAt(n.log, n.horizon), k) == StoredTerm(n, k)
  {
    assert k in stored <==> IsStored(n, k);
  }

  lemma EndIsTheNodes(n: Raft.Node, stored: Stored)
    requires OnDisk(n, stored)
    ensures IsLastIndex(stored, n.horizon, |n.log|)
    ensures IsLastTerm(stored, TermAt(n.log, n.horizon), LastStoredTerm(n))
  {
    if |n.log| > n.horizon {
      assert IsStored(n, |n.log|) && IsGreatest(stored, |n.log|);
    } else if n.below != [] {
      assert IsStored(n, |n.below|) && IsGreatest(stored, |n.below|);
    } else {
      forall i ensures i !in stored {
        assert !IsStored(n, i);
      }
    }
  }

  lemma CutIsOnDisk(n: Raft.Node, stored: Stored, k: nat)
    requires OnDisk(n, stored) && k >= 1
    ensures OnDisk(CutAt(n, k), CutBack(stored, k))
  {
    if k <= n.horizon { TrimmedIs(n.below[..Min(k - 1, |n.below|)]); }
  }

  lemma {:induction false} TrimmedIs(terms: seq<nat>)
    ensures Trimmed(terms) <= terms && (Trimmed(terms) != [] ==> Trimmed(terms)[|Trimmed(terms)| - 1] != 0)
    ensures forall j :: |Trimmed(terms)| <= j < |terms| ==> terms[j] == 0
    decreases |terms|
  {
    if terms != [] && terms[|terms| - 1] == 0 { TrimmedIs(terms[..|terms| - 1]); }
  }

  lemma {:induction false} AppendIsOnDisk(n: Raft.Node, stored: Stored, es: seq<Entry>)
    requires OnDisk(n, stored) && forall i :: 0 <= i < |es| ==> es[i].index == |n.log| + 1 + i && es[i].term >= 1
    ensures OnDisk(n.(log := n.log + es), Put(stored, es))
    decreases |es|
  {
    if es == [] {
      assert n.log + es == n.log;
    } else {
      OneMoreOnDisk(n, stored, es[0]);
      assert n.log + [es[0]] + es[1..] == n.log + es;
      forall i | 0 <= i < |es| - 1 ensures es[1..][i].index == |n.log + [es[0]]| + 1 + i && es[1..][i].term >= 1 {
        assert es[1..][i] == es[i + 1];
      }
      AppendIsOnDisk(n.(log := n.log + [es[0]]), stored[es[0].index := es[0]], es[1..]);
    }
  }

  lemma OneMoreOnDisk(n: Raft.Node, stored: Stored, e: Entry)
    requires OnDisk(n, stored) && e.index == |n.log| + 1 && e.term >= 1
    ensures OnDisk(n.(log := n.log + [e]), stored[e.index := e])
  {
  }

  /** The first half of a compaction, and the end of a restore, write no entry. */
  lemma MarkedHorizonIsOnDisk(n: Raft.Node, stored: Stored, k: nat)
    requires OnDisk(n, stored) && n.horizon <= k <= |n.log|
    ensures OnDisk(MarkHorizon(n, k), stored)
  {
    StoredBelow(n, k);
  }

  lemma RestoreIsOnDisk(n: Raft.Node, stored: Stored, prefix: seq<Entry>)
    requires OnDisk(n, stored) && n.horizon <= |prefix| && forall j :: 0 <= j < |prefix| ==> prefix[j].term >= 1
    ensures OnDisk(AfterRestore(n, prefix), stored)
  {
    StoredBelow(n, |prefix|);
  }

  /** What is stored up to `k` is what `StoredUpTo` lists. */
  lemma StoredBelow(n: Raft.Node, k: nat)
    requires n.horizon <= |n.log| && |n.below| <= n.horizon <= k
    requires n.below != [] ==> n.below[|n.below| - 1] != 0
    requires forall j :: 0 <= j < |n.log| ==> n.log[j].term >= 1
    ensures var b := StoredUpTo(n, k);
            && |b| <= k && (b != [] ==> b[|b| - 1] != 0)
            && forall i: nat :: (i <= k && IsStored(n, i)) <==> (1 <= i <= |b| && b[i - 1] != 0)
    ensures var b := StoredUpTo(n, k);
            forall j :: 0 <= j < |b| && b[j] != 0 ==> b[j] == if j >= n.horizon then n.log[j].term else n.below[j]
  {
  }

  lemma FrontIsOnDisk(n: Raft.Node, stored: Stored, k: nat)
    requires OnDisk(n, stored) && k <= n.horizon
    ensures OnDisk(DropFront(n, k), CutFront(stored, k))
  {
    forall i: nat ensures IsStored(DropFront(n, k), i) <==> IsStored(n, i) && !(1 <= i <= k) {
      DroppedBelow(n, k, i);
    }
  }

  lemma DroppedBelow(n: Raft.Node, k: nat, i: nat)
    requires k <= n.horizon && |n.below| <= n.horizon
    ensures IsStored(DropFront(n, k), i) <==> IsStored(n, i) && !(1 <= i <= k)
  {
  }
}
