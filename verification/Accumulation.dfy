/**
 What the store holds under a key after any history of additions, subtractions, replacements and
 deletions, each computed against the state the previous one left: the exact sum of the amounts as they
 were individually rounded, since the last replacement or deletion.
 */
module Accumulation {
  import opened Common
  import opened FsmTypes
  import opened Units
  import opened Slugs
  import opened Stabilizer
  import opened Gateway
  import opened Ledger

  datatype Request = Request(intent: Intent, veto: Veto, inventory: seq<GroceryItem>)

  function Outcome(q: Request): Verdict<Stabilized> {
    ValidateAndStabilize(q.intent, q.veto, q.inventory)
  }

  function Amount(q: Request): real {
    Rounded(q.intent, q.veto)
  }

  /** What a store holds under a key. */
  function ItemIn(inventory: map<string, GroceryItem>, key: string): Option<GroceryItem> {
    if key in inventory then Some(inventory[key]) else None
  }

  function HeldAfter(log: seq<Mutation>, key: string): Option<GroceryItem> {
    ItemIn(Fold(log).inventory, key)
  }

  function Quantity(held: Option<GroceryItem>): real {
    match held case Some(item) => item.quantity case None => 0.0
  }

  /** Entry `i` was proposed for the request, and the request read what the entries before it left under the key. */
  ghost predicate Answers(log: seq<Mutation>, i: nat, q: Request, key: string)
    requires i < |log|
  {
    && Outcome(q).Taken? && q.veto.itemKey == key && Find(q.inventory, key) == HeldAfter(log[..i], key)
    && exists client, n: nat, raw, now ::
         log[i] == Proposal(client, n, q.intent, Resolved(STATUS_COMMITTED, Outcome(q).value), raw, now)
  }

  /** Whatever changes the key was proposed so; entries on other keys, vetoed ones and duplicates may lie between. */
  ghost predicate Sequential(log: seq<Mutation>, reqs: seq<Request>, key: string) {
    |reqs| == |log| && forall i: nat :: Changes(log, key, i) ==> Answers(log, i, reqs[i], key)
  }

  /** One change of a running sum; a subtraction from nothing creates the item, so it counts as an addition. */
  function Follow(op: Operation, present: bool, sum: real, amount: real): real {
    match op
    case Add => sum + amount
    case Subtract => if present then sum - amount else amount
    case Set => amount
    case Delete => 0.0
  }

  /** The sum of the rounded amounts since the last Set or Delete. */
  function ExactSum(log: seq<Mutation>, reqs: seq<Request>, key: string): real
    requires |reqs| == |log|
    decreases |log|
  {
    if log == [] then 0.0
    else
      var n := |log| - 1;
      var sum := ExactSum(log[..n], reqs[..n], key);
      if Changes(log, key, n)
      then Follow(reqs[n].intent.operation, HeldAfter(log[..n], key).Some?, sum, Amount(reqs[n])) else sum
  }

  /** The same of the amounts as they were asked for. */
  function TrueSum(log: seq<Mutation>, reqs: seq<Request>, key: string): real
    requires |reqs| == |log|
    decreases |log|
  {
    if log == [] then 0.0
    else
      var n := |log| - 1;
      var sum := TrueSum(log[..n], reqs[..n], key);
      if Changes(log, key, n)
      then Follow(reqs[n].intent.operation, HeldAfter(log[..n], key).Some?, sum, Raw(reqs[n].intent, reqs[n].veto))
      else sum
  }

  /** How many of them there are. */
  function Summands(log: seq<Mutation>, reqs: seq<Request>, key: string): nat
    requires |reqs| == |log|
    decreases |log|
  {
    if log == [] then 0
    else
      var n := |log| - 1;
      var k := Summands(log[..n], reqs[..n], key);
      if !Changes(log, key, n) then k
      else match reqs[n].intent.operation
        case Delete => 0
        case Set => 1
        case _ => k + 1
  }

  lemma SequentialPrefix(log: seq<Mutation>, reqs: seq<Request>, key: string)
    requires log != [] && Sequential(log, reqs, key)
    ensures Sequential(log[..|log| - 1], reqs[..|log| - 1], key)
  {
    var n := |log| - 1;
    forall i: nat | Changes(log[..n], key, i) ensures Answers(log[..n], i, reqs[..n][i], key) {
      ChangesBefore(log, key, i);
      assert Answers(log, i, reqs[i], key);
      assert log[..n][..i] == log[..i] && log[..n][i] == log[i];
    }
  }

  /** What is held is the sum so far, in an item that is well formed. */
  predicate Balanced(held: Option<GroceryItem>, sum: real) {
    Quantity(held) == sum && WellHeld(held)
  }

  /** What the request leaves in the store is what it was accepted for. */
  lemma ChangeIsStored(log: seq<Mutation>, q: Request, key: string)
    requires log != [] && Changes(log, key, |log| - 1) && Answers(log, |log| - 1, q, key)
    requires WellHeld(HeldAfter(log[..|log| - 1], key))
    ensures var held := HeldAfter(log[..|log| - 1], key);
            && (HeldAfter(log, key).None? <==> q.intent.operation.Delete?)
            && Quantity(HeldAfter(log, key)) == Total(q.intent.operation, held, Amount(q))
            && WellHeld(HeldAfter(log, key))
  {
    var n := |log| - 1;
    assert IsLatestChange(log, key, n);
    ItemIsTheLatestChange(log, key);
    AcceptedResult(q.intent, q.veto, q.inventory);
    AcceptedExactly(q.intent, q.veto, q.inventory);
    assert log[n].isDelete <==> q.intent.operation.Delete?;
    if !q.intent.operation.Delete? {
      assert HeldAfter(log, key) == Some(ItemAt(log, n));
    }
  }

  lemma TotalFollows(op: Operation, held: Option<GroceryItem>, sum: real, amount: real)
    requires Quantity(held) == sum
    ensures Total(op, held, amount) == Follow(op, held.Some?, sum, amount)
  {
  }

  lemma BalanceStep(log: seq<Mutation>, reqs: seq<Request>, key: string)
    requires log != [] && Sequential(log, reqs, key)
    requires var n := |log| - 1; Balanced(HeldAfter(log[..n], key), ExactSum(log[..n], reqs[..n], key))
    ensures Balanced(HeldAfter(log, key), ExactSum(log, reqs, key))
  {
    var n := |log| - 1;
    if Changes(log, key, n) {
      assert Answers(log, n, reqs[n], key);
      ChangeIsStored(log, reqs[n], key);
      TotalFollows(reqs[n].intent.operation, HeldAfter(log[..n], key), ExactSum(log[..n], reqs[..n], key),
        Amount(reqs[n]));
    } else {
      OthersLeaveTheItem(log, key);
    }
  }

  lemma {:induction false} StoredIsExactSum(log: seq<Mutation>, reqs: seq<Request>, key: string)
    requires Sequential(log, reqs, key)
    ensures Balanced(HeldAfter(log, key), ExactSum(log, reqs, key))
    decreases |log|
  {
    if log != [] {
      SequentialPrefix(log, reqs, key);
      StoredIsExactSum(log[..|log| - 1], reqs[..|log| - 1], key);
      BalanceStep(log, reqs, key);
    }
  }

  /** The two sums are at most so many rounding errors apart. */
  predicate Near(exact: real, truth: real, k: nat) {
    -(k as real) * 0.00005 <= exact - truth <= (k as real) * 0.00005
  }

  lemma FollowNear(op: Operation, present: bool, x: real, y: real, k: nat, q: Request)
    requires Near(x, y, k)
    ensures var k' := if op.Delete? then 0 else if op.Set? then 1 else k + 1;
            Near(Follow(op, present, x, Amount(q)), Follow(op, present, y, Raw(q.intent, q.veto)), k')
  {
    RoundedIsNearRaw(q.intent, q.veto);
    assert (k + 1) as real == k as real + 1.0;
  }

  lemma {:induction false} RoundingNeverCompounds(log: seq<Mutation>, reqs: seq<Request>, key: string)
    requires |reqs| == |log|
    ensures Near(ExactSum(log, reqs, key), TrueSum(log, reqs, key), Summands(log, reqs, key))
    decreases |log|
  {
    if log != [] {
      var n := |log| - 1;
      RoundingNeverCompounds(log[..n], reqs[..n], key);
      FollowNear(reqs[n].intent.operation, HeldAfter(log[..n], key).Some?, ExactSum(log[..n], reqs[..n], key),
        TrueSum(log[..n], reqs[..n], key), Summands(log[..n], reqs[..n], key), reqs[n]);
    }
  }

  /**
   Exact accumulation: what the store holds under the key is the exact sum of the individually rounded
   amounts since the last Set or Delete, is never negative, and is within one rounding error per summand
   of the sum of what was asked for.
   */
  lemma AccumulationIsExact(log: seq<Mutation>, reqs: seq<Request>, key: string)
    requires Sequential(log, reqs, key)
    ensures var stored := Quantity(HeldAfter(log, key));
            && stored == ExactSum(log, reqs, key) && stored >= 0.0
            && Near(stored, TrueSum(log, reqs, key), Summands(log, reqs, key))
    ensures WellHeld(HeldAfter(log, key))
  {
    StoredIsExactSum(log, reqs, key);
    RoundingNeverCompounds(log, reqs, key);
  }
}
