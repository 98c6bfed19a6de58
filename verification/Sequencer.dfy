/** The gateway's sequence firewall, and what a proposal can put in the log. */
module Sequencer {
  import opened Common
  import opened FsmTypes
  import opened Fsm
  import opened Ledger
  import ClientIds

  datatype Refusal = SequenceZero | StaleSequence | SequenceGap | BootstrapGap

  datatype Verdict =
    | Pass
    | Cached(status: int, version: nat, message: string)
    | Rejected(version: nat, why: Refusal)

  /** Decides on a request from the client's latest session record. */
  function EnforceSequenceFirewall(session: Option<SessionRecord>, sequenceId: nat): Verdict
    requires sequenceId <= U64_MAX
  {
    if sequenceId == 0 then Rejected(0, SequenceZero)
    else match session
      case Some(r) =>
        if sequenceId == r.lastSequenceId then
          Cached(r.status, r.logIndex, if r.status == STATUS_VETOED then r.justification else "")
        else if sequenceId < r.lastSequenceId then Rejected(r.logIndex, StaleSequence)
        else
          assert r.lastSequenceId + 1 <= U64_MAX; // the sum below cannot wrap
          if sequenceId > r.lastSequenceId + 1 then Rejected(0, SequenceGap) else Pass
      case None =>
        if sequenceId != 1 then Rejected(0, BootstrapGap) else Pass
  }

  function SessionOf(d: Disk, client: string): Option<SessionRecord> {
    if client in d.sessions then Some(d.sessions[client]) else None
  }

  /**
   The firewall and `apply` agree: against a store, a request passes exactly when it carries the
   one sequence number that `apply` on that store would treat as fresh.
   */
  lemma FirewallPassesExactlyTheNextSequence(d: Disk, client: string, sequenceId: nat)
    requires sequenceId <= U64_MAX
    ensures EnforceSequenceFirewall(SessionOf(d, client), sequenceId).Pass? <==>
            sequenceId == LastSeen(d.sessions, client) + 1
  {
  }

  /** Some entry of the client took effect under the number, but not the latest. */
  ghost predicate Superseded(log: seq<Mutation>, client: string, sequenceId: nat) {
    exists j: nat :: EffectOf(log, client, j) && log[j].sequenceId == sequenceId && !IsLatestEffect(log, client, j)
  }

  /** Entry `i` is the client's latest effective one, under a session record of its own. */
  lemma LatestRecord(log: seq<Mutation>, client: string, i: nat)
    requires IsLatestEffect(log, client, i)
    ensures client in Fold(log).sessions && Fold(log).sessions[client] == RecordAt(log, i)
    ensures LastSeen(Fold(log).sessions, client) == log[i].sequenceId
  {
    SessionIsTheLatestEffect(log, client);
  }

  lemma EffectsAscend(log: seq<Mutation>, client: string, j: nat, i: nat)
    requires EffectOf(log, client, j) && EffectOf(log, client, i) && j < i
    ensures 1 <= log[j].sequenceId < log[i].sequenceId && !IsLatestEffect(log, client, j)
  {
    FoldNext(log, j);
    LastSeenMonotone(log, j + 1, i, client);
  }

  lemma SupersededIsEarlier(log: seq<Mutation>, client: string, i: nat, sequenceId: nat)
    requires IsLatestEffect(log, client, i) && Superseded(log, client, sequenceId)
    ensures 1 <= sequenceId < log[i].sequenceId
  {
    var j: nat :| EffectOf(log, client, j) && log[j].sequenceId == sequenceId && !IsLatestEffect(log, client, j);
    assert EffectOf(log, client, i) && j < i;
    EffectsAscend(log, client, j, i);
  }

  lemma EarlierIsSuperseded(log: seq<Mutation>, client: string, i: nat, j: nat)
    requires IsLatestEffect(log, client, i) && EffectOf(log, client, j) && log[j].sequenceId < log[i].sequenceId
    ensures Superseded(log, client, log[j].sequenceId)
  {
    assert EffectOf(log, client, i) && j < i;
    EffectsAscend(log, client, j, i);
  }

  lemma SupersededExactly(log: seq<Mutation>, client: string, i: nat, sequenceId: nat)
    requires Accepted(log) && IsLatestEffect(log, client, i)
    ensures Superseded(log, client, sequenceId) <==> 1 <= sequenceId < log[i].sequenceId
  {
    LatestRecord(log, client, i);
    NumbersInEffect(log, client, sequenceId);
    if Superseded(log, client, sequenceId) {
      SupersededIsEarlier(log, client, i, sequenceId);
    } else if j: nat :| EffectOf(log, client, j) && log[j].sequenceId == sequenceId < log[i].sequenceId {
      EarlierIsSuperseded(log, client, i, j);
    }
  }

  /** What the client reads in the answer: a veto comes with its justification. */
  function Message(m: Mutation): string {
    if m.status == STATUS_VETOED then m.justification else ""
  }

  /**
   The firewall against the log. To a client with effective entries: the number of the latest is answered
   with that entry's own status, index and message; the number of an earlier one is stale, at the latest
   one's index; one beyond the next is a gap.
   */
  lemma FirewallKnowsTheLatest(d: Disk, log: seq<Mutation>, client: string, sequenceId: nat, i: nat)
    requires Accepted(log) && View(d) == Fold(log) && IsLatestEffect(log, client, i) && sequenceId <= U64_MAX
    ensures var v := EnforceSequenceFirewall(SessionOf(d, client), sequenceId);
            && (v == Rejected(0, SequenceZero) <==> sequenceId == 0)
            && (v.Cached? <==> sequenceId == log[i].sequenceId)
            && (v.Cached? ==> v == Cached(log[i].status, i + 1, Message(log[i])))
            && (v == Rejected(i + 1, StaleSequence) <==> Superseded(log, client, sequenceId))
            && (v == Rejected(0, SequenceGap) <==> sequenceId > log[i].sequenceId + 1)
            && (v.Pass? <==> sequenceId == log[i].sequenceId + 1)
  {
    LatestRecord(log, client, i);
    SupersededExactly(log, client, i, sequenceId);
    assert log[i].sequenceId >= 1;
  }

  /** To a client of which nothing has taken effect: only number 1 passes. */
  lemma FirewallMeetsANewClient(d: Disk, log: seq<Mutation>, client: string, sequenceId: nat)
    requires View(d) == Fold(log) && sequenceId <= U64_MAX && forall i: nat :: !IsLatestEffect(log, client, i)
    ensures var v := EnforceSequenceFirewall(SessionOf(d, client), sequenceId);
            && (v.Pass? <==> sequenceId == 1) && (v == Rejected(0, SequenceZero) <==> sequenceId == 0)
            && (v == Rejected(0, BootstrapGap) <==> sequenceId > 1)
  {
    SessionIsTheLatestEffect(log, client);
  }

  /** A retry of the latest request is answered with the recorded outcome of its own entry. */
  lemma RetryGetsRecordedOutcome(d: Disk, index: nat, m: Mutation)
    requires ApplyEntry(d, index, Encoded(m)).Applied? && m.sequenceId > LastSeen(d.sessions, m.clientId)
    requires m.sequenceId <= U64_MAX
    ensures EnforceSequenceFirewall(
              SessionOf(ApplyEntry(d, index, Encoded(m)).disk, m.clientId), m.sequenceId)
            == Cached(m.status, index, if m.status == STATUS_VETOED then m.justification else "")
  {
    var d' := ApplyEntry(d, index, Encoded(m)).disk;
    assert d'.sessions[m.clientId].lastSequenceId == m.sequenceId;
  }

  /** What the proposer guarantees of every entry it encodes. */
  predicate WellProposed(m: Mutation) {
    && ClientIds.IsCanonical(m.clientId)
    && (m.status == STATUS_COMMITTED || m.status == STATUS_VETOED)
    && m.eventTime.Some?
  }
}
