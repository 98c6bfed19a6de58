/**
 One request on its way: let in by the firewall against some state, proposed as its resolution says,
 recorded by the ledger, and answered alike when it is retried.
 */
module Requests {
  import opened Common
  import opened FsmTypes
  import opened Fsm
  import opened Ledger
  import opened Sequencer
  import opened Stabilizer
  import opened Gateway

  /** The answer to a request once its entry is committed at the index. */
  function BuildReply(index: nat, status: int, justification: string): Sequencer.Verdict {
    Cached(status, index, if status == STATUS_VETOED then justification else "")
  }

  // --- Once ---

  /** Between the two moments the client's number went through the log. */
  ghost predicate Repeated(log: seq<Mutation>, k: nat, i: nat) {
    exists j: nat :: k <= j < i < |log| && log[j].clientId == log[i].clientId && log[j].sequenceId == log[i].sequenceId
  }

  lemma RepeatedIsDuplicate(log: seq<Mutation>, k: nat, i: nat)
    requires Accepted(log) && Repeated(log, k, i)
    ensures !TookEffect(log, i)
  {
    var j: nat :| k <= j < i < |log| && log[j].clientId == log[i].clientId && log[j].sequenceId == log[i].sequenceId;
    PastEntriesAreDuplicates(log, j, i);
  }

  function Seen(log: seq<Mutation>, i: nat, client: string): nat
    requires i <= |log|
  {
    LastSeen(Fold(log[..i]).sessions, client)
  }

  lemma SeenStep(log: seq<Mutation>, i: nat, client: string)
    requires Accepted(log) && i < |log|
    ensures Seen(log, i + 1, client) == Seen(log, i, client)
            || (log[i].clientId == client && log[i].sequenceId == Seen(log, i + 1, client) == Seen(log, i, client) + 1)
  {
    FoldNext(log, i);
    assert Fits(Fold(log[..i]), log[i]);
    NextEffectiveSeq(Fold(log[..i]), i + 1, log[i], client);
  }

  /** A number that is taken between two moments went through in between. */
  lemma {:induction false} TakenInBetween(log: seq<Mutation>, k: nat, i: nat, client: string, n: nat) returns (j: nat)
    requires Accepted(log) && k <= i <= |log| && Seen(log, k, client) < n <= Seen(log, i, client)
    ensures k <= j < i && log[j].clientId == client && log[j].sequenceId == n
    decreases i - k
  {
    SeenStep(log, i - 1, client);
    if n <= Seen(log, i - 1, client) {
      j := TakenInBetween(log, k, i - 1, client, n);
    } else {
      j := i - 1;
    }
  }

  /**
   A request that the firewall let in against any earlier state takes effect, whenever its entry is
   committed, if and only if no entry of the same number got there first.
   */
  lemma AdmittedTakesEffectOnce(d: Disk, log: seq<Mutation>, k: nat, i: nat)
    requires Accepted(log) && k <= i < |log| && View(d) == Fold(log[..k]) && log[i].sequenceId <= U64_MAX
    requires EnforceSequenceFirewall(SessionOf(d, log[i].clientId), log[i].sequenceId).Pass?
    ensures TookEffect(log, i) <==> !Repeated(log, k, i)
  {
    FirewallPassesExactlyTheNextSequence(d, log[i].clientId, log[i].sequenceId);
    if Repeated(log, k, i) {
      RepeatedIsDuplicate(log, k, i);
    } else if !TookEffect(log, i) {
      var j := TakenInBetween(log, k, i, log[i].clientId, log[i].sequenceId);
    }
  }

  // --- Recorded ---

  /** Entry `i` is the proposal of a resolved request. */
  predicate IsProposal(log: seq<Mutation>, i: nat, client: string, n: nat, intent: Intent, r: Resolution,
      raw: string, now: Timestamp)
  {
    i < |log| && r.Resolved? && log[i] == Proposal(client, n, intent, r, raw, now)
  }

  /**
   What takes effect is recorded as it was resolved: the client's session has the number, the outcome, the
   index, the justification and the time of the request; a committed one leaves the stabilized item, or
   no item if it deletes; a vetoed one leaves the inventory alone.
   */
  lemma EffectIsRecorded(log: seq<Mutation>, i: nat, client: string, n: nat, intent: Intent, r: Resolution,
      raw: string, now: Timestamp)
    requires IsProposal(log, i, client, n, intent, r, raw, now) && TookEffect(log, i)
    ensures var s, before, after := r.mutation, Fold(log[..i]), Fold(log[..i + 1]);
            && client in after.sessions && after.sessions[client].lastSequenceId == n
            && after.sessions[client].status == r.status && after.sessions[client].logIndex == i + 1
            && after.sessions[client].justification == s.justification && after.sessions[client].lastActivity == now
            && (r.status != STATUS_COMMITTED ==> after.inventory == before.inventory)
            && (r.status == STATUS_COMMITTED && intent.operation.Delete? ==> s.itemKey !in after.inventory)
            && (r.status == STATUS_COMMITTED && !intent.operation.Delete? ==>
                  s.itemKey in after.inventory
                  && after.inventory[s.itemKey]
                     == GroceryItem(s.itemKey, s.quantity, s.baseUnit, s.category, client, now, i + 1, s.displayUnit))
  {
    FoldNext(log, i);
  }

  // --- Answered ---

  /** As long as it is the client's latest, a retry gets the answer that the request itself got. */
  lemma RetryIsAnsweredAlike(d: Disk, log: seq<Mutation>, i: nat, client: string, n: nat, intent: Intent,
      r: Resolution, raw: string, now: Timestamp)
    requires Accepted(log) && View(d) == Fold(log) && n <= U64_MAX
    requires IsProposal(log, i, client, n, intent, r, raw, now) && IsLatestEffect(log, client, i)
    ensures EnforceSequenceFirewall(SessionOf(d, client), n) == BuildReply(i + 1, r.status, r.mutation.justification)
  {
    FirewallKnowsTheLatest(d, log, client, n, i);
  }
}
