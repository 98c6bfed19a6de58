/**
 Crashes during a restore. Durable writes reach the disk in order and each is atomic, so a
 crash leaves the disk after a prefix of them; on every reopening a leftover tombstone starts
 a purge, which may itself be cut short by another crash.
 */
module Crash {
  import opened FsmTypes
  import opened Fsm

  /** One reopening that did not survive: the purge it had begun and how many writes landed. */
  datatype Attempt = Attempt(purge: seq<Write>, landed: nat)

  /** `r` is the content after the given failed reopenings and a final successful one. */
  ghost predicate Reopens(d: Disk, failed: seq<Attempt>, r: Disk)
    decreases |failed|
  {
    if failed == [] then
      if d.meta.restoring then exists ws :: IsPurgePlan(ws, d) && r == Run(ws, d) else r == d
    else
      var a := failed[0];
      if d.meta.restoring then
        IsPurgePlan(a.purge, d) && a.landed <= |a.purge| && Reopens(Run(a.purge[..a.landed], d), failed[1..], r)
      else
        Reopens(d, failed[1..], r)
  }

  lemma {:induction false} KeptTombstone(w: Write, d: Disk)
    requires KeepsTombstone(w)
    ensures Exec(w, d).meta.restoring == d.meta.restoring
    decreases |w|
  {
    if w != [] {
      var n := |w| - 1;
      assert w[n] in w;
      assert forall op :: op in w[..n] ==> op in w;
      KeptTombstone(w[..n], d);
    }
  }

  lemma {:induction false} TombstoneSurvives(ws: seq<Write>, d: Disk, lo: nat, hi: nat)
    requires lo <= hi <= |ws|
    requires forall j :: lo <= j < hi ==> KeepsTombstone(ws[j])
    ensures Run(ws[..hi], d).meta.restoring == Run(ws[..lo], d).meta.restoring
    decreases hi
  {
    if lo < hi {
      TombstoneSurvives(ws, d, lo, hi - 1);
      assert ws[..hi] == ws[..hi - 1] + [ws[hi - 1]];
      RunPush(ws[..hi - 1], ws[hi - 1], d);
      KeptTombstone(ws[hi - 1], Run(ws[..hi - 1], d));
    }
  }

  /** A purge cut anywhere either still shows the tombstone or has emptied the store. */
  lemma CutPurge(ws: seq<Write>, d: Disk, landed: nat)
    requires IsPurgePlan(ws, d) && d.meta.restoring && landed <= |ws|
    ensures landed < |ws| ==> Run(ws[..landed], d).meta.restoring
    ensures landed == |ws| ==> Run(ws[..landed], d) == EMPTY_DISK
  {
    assert ws[..|ws|] == ws;
    if landed < |ws| {
      TombstoneSurvives(ws, d, 0, landed);
      assert ws[..0] == [];
    }
  }

  lemma {:induction false} ReopeningClean(d: Disk, failed: seq<Attempt>, r: Disk)
    requires !d.meta.restoring && Reopens(d, failed, r)
    ensures r == d
    decreases |failed|
  {
    if failed != [] {
      ReopeningClean(d, failed[1..], r);
    }
  }

  /** However many purges a stale tombstone takes, the store ends up empty. */
  lemma {:induction false} ReopeningStale(d: Disk, failed: seq<Attempt>, r: Disk)
    requires d.meta.restoring && Reopens(d, failed, r)
    ensures r == EMPTY_DISK
    decreases |failed|
  {
    if failed != [] {
      var a := failed[0];
      CutPurge(a.purge, d, a.landed);
      if a.landed < |a.purge| {
        ReopeningStale(Run(a.purge[..a.landed], d), failed[1..], r);
      } else {
        ReopeningClean(EMPTY_DISK, failed[1..], r);
      }
    }
  }

  /**
   Crash atomicity of a restore. Cut the writes of an install anywhere, crash any number of
   further times while reopening: the store is the old one if nothing landed, the snapshot if
   everything did, and empty in every other case.
   */
  lemma RestoreIsCrashAtomic(d: Disk, ws: seq<Write>, result: Disk, landed: nat, failed: seq<Attempt>, r: Disk)
    requires !d.meta.restoring && !result.meta.restoring
    requires IsRestorePlan(ws, d, result) && landed <= |ws|
    requires Reopens(Run(ws[..landed], d), failed, r)
    ensures r == if landed == 0 then d else if landed < |ws| then EMPTY_DISK else result
  {
    if landed == 0 {
      assert ws[..0] == [];
      ReopeningClean(d, failed, r);
    } else if landed == |ws| {
      assert ws[..|ws|] == ws;
      ReopeningClean(result, failed, r);
    } else {
      RunPushOp([], RaiseTombstone, d);
      assert ws[..1] == [] + [[RaiseTombstone]];
      TombstoneSurvives(ws, d, 1, landed);
      ReopeningStale(Run(ws[..landed], d), failed, r);
    }
  }

  // --- The key order that a metadata clear follows ---

  const KEY_LAST_APPLIED: string := "last_applied"
  const KEY_LAST_EFFECTIVE_TIME: string := "last_effective_time"
  const KEY_RESTORE_IN_PROGRESS: string := "restore_in_progress"

  /** Strict lexicographic order at the first difference. */
  predicate DiffersAt(a: string, b: string, i: nat) {
    i < |a| && i < |b| && a[..i] == b[..i] && a[i] < b[i]
  }

  /** Clearing metadata in ascending key order removes the tombstone last. */
  lemma TombstoneKeySortsLast()
    ensures exists i :: DiffersAt(KEY_LAST_APPLIED, KEY_LAST_EFFECTIVE_TIME, i)
    ensures exists i :: DiffersAt(KEY_LAST_EFFECTIVE_TIME, KEY_RESTORE_IN_PROGRESS, i)
  {
    assert KEY_LAST_APPLIED[..5] == "last_" == KEY_LAST_EFFECTIVE_TIME[..5];
    assert DiffersAt(KEY_LAST_APPLIED, KEY_LAST_EFFECTIVE_TIME, 5);
    assert DiffersAt(KEY_LAST_EFFECTIVE_TIME, KEY_RESTORE_IN_PROGRESS, 0);
  }
}
