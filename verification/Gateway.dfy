/**
 From a request to a log entry: the oracle's retry loop, the proposal built from its outcome, and
 what the ledger's inventory looks like in every run in which proposals were computed from
 inventories that may have been read long before they were committed.
 */
module Gateway {
  import opened Common
  import opened FsmTypes
  import opened Units
  import opened Slugs
  import opened Stabilizer
  import Fsm
  import Ledger
  import Replicas
  import Sequencer
  import ClientIds

  // --- The retry loop ---

  /** One evaluation by the oracle: an outcome, or a failure of whatever kind. */
  datatype Answer = Failure | Reading(veto: Veto)

  datatype Resolution =
    | Resolved(status: int, mutation: Stabilized)
    | OracleFailed
    | NoOutcome

  const MISMATCH: string :=
    "A physical unit mismatch was detected between this request and the existing inventory record for this item. " +
    "Please ensure the units are compatible with previous entries."

  function Placeholder(v: Veto, justification: string): Stabilized {
    Stabilized(v.itemKey, v.displayName, 0.0, "units", "units", "Anomalous Inputs", justification)
  }

  /** A vetoed request keeps the oracle's names, claims no amount, and says why. */
  predicate Vetoes(s: Stabilized, v: Veto, why: string) {
    && s.itemKey == v.itemKey && s.displayName == v.displayName && s.justification == why
    && s.quantity == 0.0 && s.baseUnit == "units" && s.displayUnit == "units" && s.category == "Anomalous Inputs"
  }

  predicate Stabilizes(a: Answer, intent: Intent, inventory: seq<GroceryItem>) {
    a.Reading? && a.veto.approved && ValidateAndStabilize(intent, a.veto, inventory).Taken?
  }

  predicate IsVeto(a: Answer) {
    a.Reading? && !a.veto.approved
  }

  /** The answer does not end the loop by itself. */
  predicate Inconclusive(a: Answer, intent: Intent, inventory: seq<GroceryItem>) {
    !IsVeto(a) && !Stabilizes(a, intent, inventory)
  }

  predicate AllInconclusive(answers: seq<Answer>, k: nat, intent: Intent, inventory: seq<GroceryItem>)
    requires k <= |answers|
  {
    forall j :: 0 <= j < k ==> Inconclusive(answers[j], intent, inventory)
  }

  /** What a reading makes of the request when it ends the loop. */
  predicate Decides(a: Answer, intent: Intent, inventory: seq<GroceryItem>, status: int, s: Stabilized) {
    && a.Reading?
    && (Stabilizes(a, intent, inventory) ==>
          status == STATUS_COMMITTED && s == ValidateAndStabilize(intent, a.veto, inventory).value)
    && (IsVeto(a) ==> status == STATUS_VETOED && Vetoes(s, a.veto, a.veto.justification))
    && (Inconclusive(a, intent, inventory) ==> status == STATUS_VETOED && Vetoes(s, a.veto, MISMATCH))
  }

  /** Answer `k` stabilizes, and every earlier one failed or did not. */
  predicate FirstToStabilize(answers: seq<Answer>, k: nat, intent: Intent, inventory: seq<GroceryItem>) {
    k < |answers| && Stabilizes(answers[k], intent, inventory) && AllInconclusive(answers, k, intent, inventory)
  }

  // --- The loop over the marks of the answers: which of them are inconclusive ---

  function Marks(answers: seq<Answer>, intent: Intent, inventory: seq<GroceryItem>): (marks: seq<bool>)
    ensures |marks| == |answers|
    ensures forall j :: 0 <= j < |answers| ==> marks[j] == Inconclusive(answers[j], intent, inventory)
  {
    seq(|answers|, j requires 0 <= j < |answers| => Inconclusive(answers[j], intent, inventory))
  }

  predicate AllTrue(marks: seq<bool>, k: nat)
    requires k <= |marks|
  {
    forall j :: 0 <= j < k ==> marks[j]
  }

  /** After so many calls all answers but the last were inconclusive, and it was not, or none is left. */
  predicate Ended(marks: seq<bool>, calls: nat) {
    1 <= calls <= |marks| && AllTrue(marks, calls - 1) && (calls < |marks| ==> !marks[calls - 1])
  }

  lemma EndIsUnique(marks: seq<bool>, calls: nat, k: nat)
    requires Ended(marks, calls) && k < |marks| && AllTrue(marks, k) && !marks[k]
    ensures k == calls - 1
  {
  }

  lemma MarksAgree(answers: seq<Answer>, k: nat, intent: Intent, inventory: seq<GroceryItem>)
    requires k <= |answers|
    ensures AllTrue(Marks(answers, intent, inventory), k) <==> AllInconclusive(answers, k, intent, inventory)
  {
  }

  lemma StabilizedIsConclusive(answers: seq<Answer>, k: nat, intent: Intent, inventory: seq<GroceryItem>)
    requires k < |answers| && Stabilizes(answers[k], intent, inventory)
    ensures !Marks(answers, intent, inventory)[k]
  {
  }

  lemma FirstIsLast(answers: seq<Answer>, calls: nat, intent: Intent, inventory: seq<GroceryItem>, k: nat)
    requires Ended(Marks(answers, intent, inventory), calls) && FirstToStabilize(answers, k, intent, inventory)
    ensures k == calls - 1
  {
    StabilizedIsConclusive(answers, k, intent, inventory);
    MarksAgree(answers, k, intent, inventory);
    EndIsUnique(Marks(answers, intent, inventory), calls, k);
  }

  lemma LastIsFirst(answers: seq<Answer>, calls: nat, intent: Intent, inventory: seq<GroceryItem>)
    requires Ended(Marks(answers, intent, inventory), calls) && Stabilizes(answers[calls - 1], intent, inventory)
    ensures FirstToStabilize(answers, calls - 1, intent, inventory)
  {
    MarksAgree(answers, calls - 1, intent, inventory);
  }

  ghost predicate SomeStabilizes(answers: seq<Answer>, intent: Intent, inventory: seq<GroceryItem>) {
    exists k: nat :: FirstToStabilize(answers, k, intent, inventory)
  }

  lemma ThenSomeStabilizes(answers: seq<Answer>, calls: nat, intent: Intent, inventory: seq<GroceryItem>)
    requires Ended(Marks(answers, intent, inventory), calls) && Stabilizes(answers[calls - 1], intent, inventory)
    ensures SomeStabilizes(answers, intent, inventory)
  {
    LastIsFirst(answers, calls, intent, inventory);
  }

  lemma ThenTheLastDoes(answers: seq<Answer>, calls: nat, intent: Intent, inventory: seq<GroceryItem>)
    requires Ended(Marks(answers, intent, inventory), calls) && SomeStabilizes(answers, intent, inventory)
    ensures Stabilizes(answers[calls - 1], intent, inventory)
  {
    var k: nat :| FirstToStabilize(answers, k, intent, inventory);
    FirstIsLast(answers, calls, intent, inventory, k);
  }

  /** What one evaluation comes to; only the last one turns a failure or an unstable reading into an outcome. */
  method Attempt(answer: Answer, last: bool, intent: Intent, inventory: seq<GroceryItem>)
    returns (outcome: Option<Stabilized>, status: int, failed: bool)
    ensures failed <==> last && answer.Failure?
    ensures outcome.None? ==> Inconclusive(answer, intent, inventory) && (last ==> failed) && status == STATUS_COMMITTED
    ensures outcome.Some? ==>
              !failed && Decides(answer, intent, inventory, status, outcome.value)
              && (Inconclusive(answer, intent, inventory) ==> last)
  {
    outcome, status, failed := None, STATUS_COMMITTED, false;
    if answer.Failure? {
      failed := last;
    } else if !answer.veto.approved {
      status, outcome := STATUS_VETOED, Some(Placeholder(answer.veto, answer.veto.justification));
    } else {
      match ValidateAndStabilize(intent, answer.veto, inventory)
      case Taken(s) => outcome := Some(s);
      case Denied(_) =>
        if last {
          status, outcome := STATUS_VETOED, Some(Placeholder(answer.veto, MISMATCH));
        }
    }
  }

  /** The loop: until an evaluation has an outcome, or the last one has failed. */
  method AskOracle(intent: Intent, inventory: seq<GroceryItem>, answers: seq<Answer>)
    returns (outcome: Option<Stabilized>, status: int, failed: bool, calls: nat)
    requires answers != []
    ensures Ended(Marks(answers, intent, inventory), calls) && (failed <==> outcome.None?)
    ensures failed ==> answers[calls - 1].Failure?
    ensures outcome.Some? ==> Decides(answers[calls - 1], intent, inventory, status, outcome.value)
  {
    outcome, status, failed, calls := None, STATUS_COMMITTED, false, 0;
    ghost var marks := Marks(answers, intent, inventory);
    while calls < |answers| && outcome.None? && !failed
      invariant calls <= |answers|
      invariant outcome.None? && !failed ==> calls < |answers| && AllTrue(marks, calls)
      invariant outcome.Some? || failed ==> Ended(marks, calls)
      invariant outcome.Some? ==> !failed && Decides(answers[calls - 1], intent, inventory, status, outcome.value)
      invariant failed ==> answers[calls - 1].Failure?
      decreases |answers| - calls
    {
      outcome, status, failed := Attempt(answers[calls], calls + 1 == |answers|, intent, inventory);
      calls := calls + 1;
    }
  }

  lemma DecidesStatus(a: Answer, intent: Intent, inventory: seq<GroceryItem>, status: int, s: Stabilized)
    requires Decides(a, intent, inventory, status, s)
    ensures status == STATUS_COMMITTED <==> Stabilizes(a, intent, inventory)
  {
  }

  /**
   The loop asks at most `maxRetries + 1` times. The result is committed exactly when some answer
   stabilizes and every earlier one failed or did not stabilize; a veto ends it at once; only the
   last attempt turns a failure into an error and an unstable reading into a veto.
   */
  method ResolveSemanticMutation(intent: Intent, inventory: seq<GroceryItem>, answers: seq<Answer>, maxRetries: nat)
    returns (r: Resolution, calls: nat)
    requires |answers| == maxRetries + 1
    ensures 1 <= calls <= maxRetries + 1 && AllInconclusive(answers, calls - 1, intent, inventory)
    ensures calls <= maxRetries ==> !Inconclusive(answers[calls - 1], intent, inventory)
    ensures match r
            case Resolved(status, s) => Decides(answers[calls - 1], intent, inventory, status, s)
            case OracleFailed => answers[calls - 1].Failure?
            case NoOutcome => false
    ensures r.Resolved? && r.status == STATUS_COMMITTED <==> SomeStabilizes(answers, intent, inventory)
  {
    var outcome, status, failed;
    outcome, status, failed, calls := AskOracle(intent, inventory, answers);
    MarksAgree(answers, calls - 1, intent, inventory);
    if SomeStabilizes(answers, intent, inventory) { ThenTheLastDoes(answers, calls, intent, inventory); }
    if failed { return OracleFailed, calls; }
    r := match outcome case Some(s) => Resolved(status, s) case None => NoOutcome;
    DecidesStatus(answers[calls - 1], intent, inventory, status, outcome.value);
    if status == STATUS_COMMITTED { ThenSomeStabilizes(answers, calls, intent, inventory); }
  }

  // --- Proposals ---

  /** The entry encoded for a resolved request. */
  function Proposal(client: string, sequenceId: nat, intent: Intent, r: Resolution, rawInput: string,
      now: Timestamp): Mutation
    requires r.Resolved?
  {
    var s := r.mutation;
    Mutation(client, sequenceId, s.itemKey, s.displayName, s.quantity, s.baseUnit, s.displayUnit, s.category,
             rawInput, s.justification, Some(now), intent.operation.Delete?, r.status)
  }

  /** A resolution the retry loop can end with, against this inventory. */
  ghost predicate CanResolve(intent: Intent, inventory: seq<GroceryItem>, r: Resolution) {
    && r.Resolved?
    && (r.status == STATUS_COMMITTED || r.status == STATUS_VETOED)
    && (r.status == STATUS_COMMITTED ==>
          exists v :: ValidateAndStabilize(intent, v, inventory) == Verdict.Taken(r.mutation))
  }

  /** Whatever the loop resolves is proposed as a well-formed entry; its content can never make `apply` halt. */
  lemma ProposalsAreWellProposed(client: string, sequenceId: nat, intent: Intent, inventory: seq<GroceryItem>,
                                 r: Resolution, rawInput: string, now: Timestamp)
    requires ClientIds.IsCanonical(client) && CanResolve(intent, inventory, r)
    ensures var m := Proposal(client, sequenceId, intent, r, rawInput, now);
            Sequencer.WellProposed(m) && KnownStatus(m.status) && (m.isDelete <==> intent.operation.Delete?)
  {
  }

  // --- Inventories over runs ---

  ghost predicate Lists(items: seq<GroceryItem>, inventory: map<string, GroceryItem>) {
    forall i :: 0 <= i < |items| ==> items[i].itemKey in inventory && inventory[items[i].itemKey] == items[i]
  }

  /** The entry was proposed from the inventory after some earlier prefix of the log, however stale. */
  ghost predicate FromGateway(log: seq<Mutation>, i: nat)
    requires i < |log|
  {
    exists k: nat, items, intent, r, client, sequenceId: nat, rawInput, now ::
      ProposedFrom(log, i, k, items, intent, r, client, sequenceId, rawInput, now)
  }

  ghost predicate ProposedFrom(
    log: seq<Mutation>, i: nat, k: nat, items: seq<GroceryItem>, intent: Intent, r: Resolution,
    client: string, sequenceId: nat, rawInput: string, now: Timestamp)
    requires i < |log|
  {
    && k <= i && Lists(items, Ledger.Fold(log[..k]).inventory) && CanResolve(intent, items, r)
    && log[i] == Proposal(client, sequenceId, intent, r, rawInput, now)
  }

  ghost predicate AllFromGateway(log: seq<Mutation>) {
    forall i :: 0 <= i < |log| ==> FromGateway(log, i)
  }

  /** Each item sits under its own key, which is a slug, in a base unit, at a non-negative four-decimal quantity. */
  predicate WellFormedInventory(inventory: map<string, GroceryItem>) {
    forall k :: k in inventory ==> inventory[k].itemKey == k && WellFormedItem(inventory[k])
  }

  lemma ListedAreWellFormed(items: seq<GroceryItem>, inventory: map<string, GroceryItem>)
    requires Lists(items, inventory) && WellFormedInventory(inventory)
    ensures AllWellFormed(items)
  {
  }

  lemma CommittedIsWellFormed(intent: Intent, items: seq<GroceryItem>, r: Resolution)
    requires AllWellFormed(items) && CanResolve(intent, items, r) && r.status == STATUS_COMMITTED
    ensures WellFormedResult(r.mutation)
  {
    var v :| ValidateAndStabilize(intent, v, items) == Verdict.Taken(r.mutation);
    StabilizedIsWellFormed(intent, v, items);
  }

  lemma StepIsWellFormed(c: Ledger.Content, index: nat, m: Mutation)
    requires WellFormedInventory(c.inventory)
    requires m.status == STATUS_COMMITTED ==> WellFormedEntry(m)
    ensures WellFormedInventory(Ledger.Step(c, index, m).inventory)
  {
  }

  ghost predicate WellFormedUpTo(log: seq<Mutation>, n: nat)
    requires n <= |log|
  {
    forall k :: 0 <= k <= n ==> WellFormedInventory(Ledger.Fold(log[..k]).inventory)
  }

  lemma EntryIsWellFormed(log: seq<Mutation>, i: nat)
    requires i < |log| && FromGateway(log, i) && log[i].status == STATUS_COMMITTED && WellFormedUpTo(log, i)
    ensures WellFormedEntry(log[i])
  {
    var k: nat, items, intent, r, client, sequenceId: nat, rawInput, now :|
      ProposedFrom(log, i, k, items, intent, r, client, sequenceId, rawInput, now);
    ProposedIsWellFormed(Ledger.Fold(log[..k]).inventory, items, intent, r);
  }

  predicate WellFormedEntry(m: Mutation) {
    IsSlug(m.itemKey) && IsBaseUnit(m.baseUnit) && m.quantity >= 0.0 && FourDecimals(m.quantity)
  }

  lemma ProposedIsWellFormed(inventory: map<string, GroceryItem>, items: seq<GroceryItem>, intent: Intent,
      r: Resolution)
    requires WellFormedInventory(inventory) && Lists(items, inventory) && CanResolve(intent, items, r)
    ensures r.status == STATUS_COMMITTED ==> WellFormedResult(r.mutation)
  {
    ListedAreWellFormed(items, inventory);
    if r.status == STATUS_COMMITTED { CommittedIsWellFormed(intent, items, r); }
  }

  /** In every run, even on stale reads, every replica's inventory is well-formed. */
  lemma {:induction false} InventoryStaysWellFormed(log: seq<Mutation>, n: nat)
    requires AllFromGateway(log) && n <= |log|
    ensures WellFormedUpTo(log, n)
  {
    if n == 0 {
      assert log[..0] == [];
    } else {
      InventoryStaysWellFormed(log, n - 1);
      NextIsWellFormed(log, n - 1);
    }
  }

  lemma NextIsWellFormed(log: seq<Mutation>, i: nat)
    requires i < |log| && FromGateway(log, i) && WellFormedUpTo(log, i)
    ensures WellFormedInventory(Ledger.Fold(log[..i + 1]).inventory)
  {
    if log[i].status == STATUS_COMMITTED { EntryIsWellFormed(log, i); }
    StepIsWellFormed(Ledger.Fold(log[..i]), i + 1, log[i]);
    Ledger.FoldNext(log, i);
  }

  /** So no request is ever refused because of what an earlier one stored. */
  lemma StoredItemsAreNeverBlamed(log: seq<Mutation>, k: nat, items: seq<GroceryItem>, intent: Intent, v: Veto)
    requires AllFromGateway(log) && k <= |log| && Lists(items, Ledger.Fold(log[..k]).inventory)
    ensures var r := ValidateAndStabilize(intent, v, items); r.Denied? ==> !BlamesStoredItem(r.reason)
  {
    InventoryStaysWellFormed(log, k);
    ListedAreWellFormed(items, Ledger.Fold(log[..k]).inventory);
    StabilizedIsWellFormed(intent, v, items);
  }

  /** Every replica, at every moment, whatever it has applied, restored or lost to a crash, holds such an inventory. */
  lemma EveryReplicaIsWellFormed(run: seq<Replicas.System>, i: nat, n: nat)
    requires Replicas.Behaviour(run) && i < |run| && n in run[i].stores && AllFromGateway(run[i].log)
    ensures WellFormedInventory(run[i].stores[n].inventory)
  {
    Replicas.EveryReplicaHoldsALogPrefix(run, i, n);
    InventoryStaysWellFormed(run[i].log, |run[i].log|);
  }
}
