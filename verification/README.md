# Formal model of the replicated grocery ledger

A Dafny 4.11 model of the Lact-O-Sensus ledger and proofs about it. Run
`dafny verify dfyconfig.toml` to check everything.

The ledger is a Raft cluster whose log entries are grocery mutations. The model has three parts.

**State machine and its way into the log.** `Fsm` models the durable store as a class over three
trees with a ghost journal of the durable writes; `Ledger` gives the meaning of a log as a fold in
which duplicates are skipped; `Crash` cuts the journal at any point; `Replicas` lets replicas apply,
snapshot, restore and crash in any interleaving; `Recovery` replays a log at start-up; `Sequencer`
is the gateway's firewall, `Requests` the way of one request from the firewall to its record and its
answer; `ClientIds` the spellings of client identifiers.

**Raft.** `Raft` holds one node's steps as functions; `Engine` the node as the program runs it, a
class with fields updated in place and loops over entries and replies, each method proved equal to
its step; `Cluster` a transition system with a network that delays, reorders, duplicates and loses
messages, background restores and compactions, and nodes that crash and restart, also between the two
writes of an append. `RaftVotes` is the invariant of terms, votes and roles, kept by every step.
`RaftInv`, `RaftQuiet`, `RaftLogs`, `RaftRewrite`, `RaftAppend`, `RaftRestore`, `RaftNet` and
`RaftEvents` are the invariant of the logs, kept by every careful step. A step is careful if it would
pass three checks that the program does not make (`Cluster.CarefulNext`): a follower cuts nothing at or
below its horizon (`CutsAbove`), its commit index does not pass what the request has compared
(`CommitsWithin`), and a snapshot is sent in the term its sender leads. `RaftSafety` and `PreVote` state
what follows over all runs and all careful runs; `RaftRuns`, `RaftStale` and `RaftSeven` are runs, from
the first state, that show what each missing check costs: without any one of them state machine safety
or a committed entry is lost. `RaftCommit` says of every run when a commit index goes back, `RaftOrigin`
follows a payload from its proposal to the committed log. `PreVoteLogs` says what a granted pre-vote
means for the logs, `Timers` when a node acts and what puts it off, `Answers` what its answers do to the
one who asked. `Median` treats the quorum index, `Backoff` the probing of a peer's log, `Storage`
(modules `Keys`, `LogStore`, `Sled`, `Memory`, `NodeLog`) the two log stores and what they hold of a
node's log, `Compaction` the physical log beside its logical one.

**The whole.** `Whole` puts a store beside every node of the cluster: requests pass firewalls, leaders
propose what has passed, each store applies the entries its own node has committed, and stores are
serialized, restored and purged at any time. Every store then holds the fold of a prefix of the
cluster's one committed log. `Ingress` adds the gateway: where leaders propose what it resolved against
any store at any earlier moment, the inventory of every store stays well formed.

**Quantities.** `Units` has half-even rounding to four decimals over exact decimals (type `real`),
the unit registry and conversions; `Slug` the item keys; `Stabilizer` the gateway's physical checks;
`Accumulation` what the store holds after any history of requests on a key; `Gateway` the oracle's retry loop, the proposal built from it,
and the inventories of every run.

Where code and documentation or expectation differ, the model follows the code:

- A node that receives a reply to an earlier campaign or replication round, from a term between
  that one and its own, treats it as a later term and halts on a term regression
  (`crates/raft-engine/src/consensus/election.rs:198-209`,
  `crates/raft-engine/src/node/shared.rs:221-229`). `RaftSafety.OnlyStaleRepliesHalt` shows that
  nothing else halts a node.
- After a rejected probe the leader moves back only if the peer's log ends before the probed
  position; a conflicting entry inside the peer's log is probed again with the same request as long as
  the probed position lies above the leader's horizon; only a compaction, which turns the next request
  into a snapshot, ends it (`crates/raft-engine/src/consensus/replication.rs:224-258`,
  `crates/raft-engine/src/consensus/rpc.rs:65-80`). `Backoff` has the exact condition.
- The probe that precedes a snapshot carries the leader's commit index and no entries
  (`crates/raft-engine/src/consensus/replication.rs:441-448`), the follower caps a commit index at the end
  of its log (`crates/raft-engine/src/node/follower.rs:186-200`), and a finished restore leaves the entries
  behind its index in place (`crates/raft-engine/src/orchestration.rs:212-221`). Together they let a
  follower commit entries of another history: `RaftRuns.ProbeCommitsAnotherHistory` is such a run, and
  `RaftSafety.CommitIsTheLeaders` says exactly which requests commit only the leader's entries. Two
  guards that exclude it are in `RaftSafety.ChecksAreMet`: a commit index, or a follower's log, that ends
  within what the request compares.
- A restore also leaves old entries below its index, and the conflict check compares offered entries
  with them, although the snapshot has replaced them (`crates/raft-engine/src/node/follower.rs:155-170`).
  A delayed request can so cut committed entries: `RaftRuns.LateRequestCutsCommitted` is the run,
  `RaftSafety.CutBelowHorizonLosesTheRest` the exact loss.
- A replication round keeps its term while its sender may have moved on; a snapshot sent by such a round
  (`crates/raft-engine/src/consensus/rpc.rs:57-90`) hands entries committed in a later term to a node
  of an earlier one. A leader between the two lacks them (`RaftStale.StaleSnapshotBreaksCompleteness`);
  worse, that node reports the last term of an entry the snapshot has replaced and confirms entries it
  never stored, so two nodes come to apply different entries at one index: `RaftSeven.StaleSnapshotBreaksSafety`,
  a run of seven nodes in which every other step passes the checks.
- Equal terms at an index do not always mean equal logs up to it: a log restored over another history
  differs below. `RaftSafety.LogMatchingHolds` has the exact condition, `RaftRuns.RestoreBreaksLogMatching`
  a careful run where it fails.
- A restored store may hold more than its applied index says, so recovery can show entries past
  the commit index; `Recovery.RecoveredContentMatchesCommit` says exactly when it does not.
- A client identifier in a non-canonical spelling keys sessions by its spelling before a snapshot and
  by its canonical form after it; `FsmTypes.SnapshotRoundTrip` says exactly which stores survive, and
  `Recovery.NonCanonicalIdReappliesEntry` shows a store that does not.
- A leader's heartbeat timer is set at its election and never again
  (`crates/raft-engine/src/node/leader.rs:97-103`, `crates/raft-engine/src/engine.rs:770-778`), so the
  heartbeat interval delays its first round only, and after that it begins one at every pulse
  (`Timers.LeaderBeats`, `Timers.LeaderTimerStays`).
- A late reply to a snapshot sets a peer's match index to the snapshot's horizon, also back
  (`crates/raft-engine/src/consensus/replication.rs:260-291`, `Answers.SnapshotConfirmsItsHorizon`).
- A Subtract on an absent item creates it with the subtracted quantity.

## Model

| member | source | states |
|---|---|---|
| Fsm.LactoStore.Open | crates/lacto-fsm/src/lib.rs:89-149 | opening keeps what is on disk, or, under a leftover tombstone, performs a purge whose last write is the tombstone's removal |
| Fsm.LactoStore.PurgeAllData | crates/lacto-fsm/src/lib.rs:135-149 | the wipe ends at the empty store and touches the tombstone only in its last write |
| Fsm.LactoStore.CommitTransaction | crates/lacto-fsm/src/lib.rs:537-568 | one atomic write moves inventory, session, index and clock together |
| Fsm.LactoStore.Apply | crates/lacto-fsm/src/lib.rs:438-584 | the new store, the error and the poisoning are those of the specification, whose items, sessions and halts the rows on the ledger state; an accepted entry is exactly one durable write, a refused one none |
| Fsm.LactoStore.Snapshot | crates/lacto-fsm/src/lib.rs:594-632 | a snapshot lists every record of the trees once and carries the clock; a poisoned store refuses |
| Fsm.LactoStore.InstallSnapshot | crates/lacto-fsm/src/lib.rs:634-667 | the restore ends at the snapshot's content at the given index, and its journal is a restore plan: tombstone first, untouched until the final batch |
| Fsm.TransactionEffect | crates/lacto-fsm/src/lib.rs:537-568 | what the operations of a transaction, executed in order, make of any disk |
| Ledger.CheckSessionFindsTheLatestEffect | crates/lacto-fsm/src/lib.rs:376-392 | on a store holding the fold of a log, the lookup finds a record exactly for number 0 and the number of the client's latest effective entry, and it is that entry's record |
| FsmTypes.SnapshotRoundTrip | crates/lacto-fsm/src/lib.rs:594-667 | installing a snapshot of a store gives that store back, whatever the target held, if and only if every record sits under its own key |
| Ledger.ApplyIsStep | crates/lacto-fsm/src/lib.rs:438-584 | apply accepts exactly the entry that fits at the next index, and then the content takes one step of the fold |
| Ledger.MisfitsHalt | crates/lacto-fsm/src/lib.rs:438-523 | while no counter is exhausted the store halts on an entry if and only if it is not the next one or does not fit; an undecodable one is refused without a halt |
| Ledger.ExhaustedCountersRefuse | crates/lacto-fsm/src/lib.rs:456-480 | an exhausted index or sequence counter refuses without a halt, exactly when it is the first fault met |
| Ledger.EachSequenceTakesEffectOnce | crates/lacto-fsm/src/lib.rs:456-523 | in every accepted log each client's effective entries are the sequence numbers 1 to the last, once each and in order |
| Ledger.DuplicatesLeaveNoTrace | crates/lacto-fsm/src/lib.rs:456-568 | up to index fields, a log and the log without its duplicates have the same inventory, sessions and clock |
| Ledger.ClockIsLatestEffectiveTime | crates/lacto-fsm/src/lib.rs:204-215 | by seconds and then nanoseconds the clock reaches the epoch and every effective event time, and is one of them |
| Ledger.LastSeenMonotone | crates/lacto-fsm/src/lib.rs:456-500 | a client's last sequence number never goes back along a log |
| Ledger.PastEntriesAreDuplicates | crates/lacto-fsm/src/lib.rs:284-295 | an entry folded in once is a duplicate ever after, and still fits |
| Ledger.SessionIsTheLatestEffect | crates/lacto-fsm/src/lib.rs:500-568 | a client has a session exactly if some entry of its took effect, and the session is the record of the last one |
| Ledger.ItemIsTheLatestChange | crates/lacto-fsm/src/lib.rs:167-178 | after any log a key is present if and only if the last effective committed entry on it exists and is no deletion, and the item is that entry's quantity, unit, category, display unit, client, time and index |
| Ledger.OthersLeaveTheItem | crates/lacto-fsm/src/lib.rs:537-549 | vetoed entries, duplicates and entries on other keys leave an item as it was |
| Ledger.NumbersInEffect | crates/lacto-fsm/src/lib.rs:456-500 | in an accepted log the numbers under which a client's entries took effect are exactly 1 to the last |
| Ledger.CanonicalLogsAreSelfKeyed | crates/common/src/proto.rs:349-379 | logs of canonical client identifiers keep every record under its own key |
| ClientIds.ParseGivesCanonical | crates/common/src/types/client.rs:59-67 | every accepted spelling parses to a canonical one, which parses to itself |
| ClientIds.AcceptedSpellings | crates/common/src/types/client.rs:59-67 | what is accepted is 32 hexadecimal digits, bare, hyphenated, in braces or as a URN, and it is printed hyphenated in lower case |
| ClientIds.OneClientPerNumber | crates/common/src/types/client.rs:59-67 | two texts of digits name one client if and only if they differ in case alone |
| ClientIds.BareDigitsAreNotCanonical | crates/common/src/types/client.rs:59-67 | a spelling that parses and is not canonical |
| Crash.RestoreIsCrashAtomic | crates/lacto-fsm/src/lib.rs:108-149 | after a crash inside a restore, and any number of crashes inside the purges that follow, the reopened store is the old state, the empty state or the snapshot state |
| Crash.TombstoneKeySortsLast | crates/lacto-fsm/src/lib.rs:135-149 | in key order the tombstone comes after the two other metadata keys, so a clear in that order removes it last |
| Sequencer.FirewallPassesExactlyTheNextSequence | crates/gateway/src/ingress/sequencer.rs:25-120 | against a store, the firewall passes exactly the sequence number apply would treat as fresh |
| Sequencer.FirewallKnowsTheLatest | crates/gateway/src/ingress/sequencer.rs:25-104 | to a client whose latest effective entry is entry i: cached, with that entry's status, index and message, if and only if the number is its; stale, at its index, if and only if an earlier effective entry carries the number; a gap if and only if it is beyond the next |
| Sequencer.FirewallMeetsANewClient | crates/gateway/src/ingress/sequencer.rs:105-120 | to a client of which nothing took effect, only number 1 passes, and every later one is a bootstrap gap |
| Sequencer.RetryGetsRecordedOutcome | crates/gateway/src/ingress/sequencer.rs:40-80 | a retry of the latest request is answered with the recorded outcome of its own entry |
| Replicas.EveryReplicaHoldsALogPrefix | crates/raft-engine/src/consensus/replication.rs:497-546 | through apply, stale-labelled snapshots, restores and crashes, a replica's content is the fold of some prefix of the log at least as long as its applied index |
| Replicas.NoReplicaEverHalts | crates/gateway/src/ingress/dispatcher.rs:157-234 | entries that passed the firewall against any earlier state, duplicates included, never make any replica halt |
| Requests.AdmittedTakesEffectOnce | crates/gateway/src/ingress/dispatcher.rs:157-234 | a request let in against any earlier state takes effect, whenever its entry is committed, if and only if no entry of its number got there first |
| Requests.EffectIsRecorded | crates/gateway/src/ingress/proposer.rs:28-49 | what takes effect is recorded as it was resolved: the session with the number, outcome, index, justification and time, the stabilized item or its deletion, and for a veto no change of the inventory |
| Requests.RetryIsAnsweredAlike | crates/gateway/src/ingress/proposer.rs:86-107 | as long as it is the client's latest, a retry gets the very answer the request got |
| Whole.EveryReplicaHoldsACommittedPrefix | crates/raft-engine/src/orchestration.rs:67-139 | over every careful run of the cluster and any interleaving of the stores' steps, each store holds the fold of a prefix of the one committed log, at least as long as its applied index, and no store halts |
| Whole.ReplicasHoldOneHistory | crates/raft-engine/src/orchestration.rs:67-139 | what two stores hold at any two moments are folds of two prefixes of one log |
| RaftOrigin.CommittedWasProposed | crates/raft-engine/src/node/leader.rs:141-146 | in every careful run, what holds of every payload that leaders have proposed so far holds of every committed entry, whatever elections, restores and crashes came between |
| Ingress.EveryStoreIsWellFormed | crates/gateway/src/ingress/proposer.rs:28-49 | over every careful run of the cluster whose proposals the gateway resolved against any store at any earlier moment, every store's inventory is well formed at every moment |
| Ingress.NoStoreIsBlamed | crates/gateway/src/ingress/stabilizer.rs:149-215 | so against what any store holds at any moment no request is refused because of what an earlier one stored |
| Recovery.Recover | crates/raft-engine/src/recovery.rs:44-163 | the replay loop computes the specified outcome and leaves the store there, with one durable write for each replayed entry; it is refused if and only if the store is past the commit index, and then writes nothing |
| Recovery.RecoveryEnds | crates/raft-engine/src/recovery.rs:78-163 | whatever store and log hold, a recovery is refused exactly past the commit index, and else reaches it or stops before the first entry that is absent or that the store refuses, with that error |
| Recovery.ReplayCompletesOrHaltsAtAGap | crates/raft-engine/src/recovery.rs:106-163 | a replay of an accepted log completes, or halts exactly at the first absent entry |
| Recovery.ReplayReachesTheFold | crates/raft-engine/src/recovery.rs:106-163 | a complete replay leaves the fold of the log up to the commit index, or of the longer prefix the store already held |
| Recovery.InterruptedReplayResumes | crates/raft-engine/src/recovery.rs:106-163 | crashing in mid-replay and recovering again gives the same outcome |
| Recovery.StaleLabelIsHarmless | crates/raft-engine/src/consensus/replication.rs:497-546 | a snapshot of the first A entries under a label L replays L+1 to A into exactly the state at A, every entry a duplicate |
| Recovery.RecoveredContentMatchesCommit | crates/raft-engine/src/recovery.rs:44-163 | the recovered content is that of the commit index if and only if no entry past it had taken effect |
| Recovery.RecoveryCanShowUncommittedTail | crates/raft-engine/src/recovery.rs:78-104 | a concrete store whose recovered content runs ahead of the commit index |
| Recovery.ARunShowsAnUncommittedTail | crates/raft-engine/src/recovery.rs:78-104 | a run of the replicas that ends with such a store |
| Recovery.NonCanonicalIdReappliesEntry | crates/lacto-fsm/src/lib.rs:268-283 | a store of two clients whose snapshot, restored under label 1, applies the second entry again |
| Engine.LogicalNode.IntoFollower | crates/raft-engine/src/node/shared.rs:205-243 | never lowers the stored term; keeps the vote at an equal term, clears it at a higher one, halts at a lower one |
| Engine.LogicalNode.IntoCandidate | crates/raft-engine/src/engine.rs:669-697 | a new term with a self-vote and a fresh tally, from every role but leader |
| Engine.LogicalNode.TickOnce | crates/raft-engine/src/consensus/lifecycle.rs:76-145 | one pulse: the clock, the action and the transition made under the same lock, which are those of `Timers` |
| Timers.FirstAlarm | crates/raft-engine/src/engine.rs:755-768 | left alone a node does nothing until its beat or start plus its timeout, counted in pulses, and in that very pulse a follower asks for a pre-vote, a pre-candidate for a step-down, a candidate restarts in the next term, a leader begins a round |
| Timers.LeaderBeats | crates/raft-engine/src/node/leader.rs:97-103 | a leader begins no round before its first interval is over, and one at every pulse from then on |
| Timers.LeaderTimerStays | crates/raft-engine/src/engine.rs:770-778 | in every run a leader's timer stays where its election has set it |
| Timers.RolesStartTheirTimers | crates/raft-engine/src/engine.rs:669-740 | in every run a role's timer is set to the very pulse at which the role begins |
| Timers.TimersAreSet | crates/raft-engine/src/engine.rs:669-740 | and so never in the future, as `FirstAlarm` and `LeaderBeats` suppose |
| Timers.UnheardStartsPreVote | crates/raft-engine/src/node/follower.rs:89-99 | a follower starts a pre-vote if and only if no request of its leader comes for its timeout in pulses; requests of earlier terms and votes hold nothing back |
| Engine.LogicalNode.ValidateLeaderRpcTerm | crates/raft-engine/src/engine.rs:246-314 | the role step of a leader's request |
| Engine.LogicalNode.HandleRequestVote | crates/raft-engine/src/engine.rs:501-549 | grants only in the current term, to one candidate per term, to an up-to-date log, and records the vote before answering |
| Engine.LogicalNode.HandlePreVote | crates/raft-engine/src/engine.rs:555-593 | grants if and only if the node follows, is not past the term, and would grant its vote in the next term to the same log; term, vote, role and timer stay as they were |
| PreVoteLogs.DryRunIsExact | crates/raft-engine/src/node/follower.rs:252-269 | the dry run agrees with the vote of the next term, which is granted exactly to a log no less up to date by last term and then last index |
| PreVoteLogs.GrantersWereNoFresher | crates/raft-engine/src/consensus/election.rs:355-512 | in every run each node counted in a pre-vote granted it after it was opened, following, in no later term, and with a log no more up to date than the asking node's when it asked |
| PreVoteLogs.WinnersHeldTheChosen | crates/raft-engine/src/consensus/election.rs:355-512 | in every careful run whoever has a pre-vote quorum held, when it asked, whatever a quorum had acknowledged of any leader's log by then |
| Answers.VoteIsExact | crates/raft-engine/src/engine.rs:501-549 | a vote is granted exactly in a later term, or in the same one by a follower that has given it to nobody else, to a log no less up to date; term, vote and role afterwards |
| Answers.VoteIsRepeated | crates/raft-engine/src/node/follower.rs:230-251 | who asks again in the same term is granted again and nothing moves, and nobody else is granted |
| Answers.LateLeaderIsDeposed | crates/raft-engine/src/consensus/replication.rs:152-168 | a leader's request to a node of a later term changes nothing there, and its answer makes the leader a follower of nobody in that term |
| Answers.LateSnapshotIsRefused | crates/raft-engine/src/engine.rs:396-431 | the same of a snapshot |
| Answers.SnapshotAnswer | crates/raft-engine/src/engine.rs:396-431 | when a snapshot is accepted, and the term that is answered: the one the node ends in if it is, its own before if it is not |
| Answers.LateCandidateIsDeposed | crates/raft-engine/src/consensus/election.rs:197-209 | the same of a candidate's request for a vote |
| Answers.SuccessConfirmsTheEnd | crates/raft-engine/src/consensus/replication.rs:183-222 | after a success the peer's match is the furthest end confirmed so far, the next index follows it if it moved, and no other peer's progress changes |
| Answers.SnapshotConfirmsItsHorizon | crates/raft-engine/src/consensus/replication.rs:260-291 | a finished snapshot sets the match to its horizon, even back from a later success |
| Engine.LogicalNode.ReconcileLog | crates/raft-engine/src/node/follower.rs:144-227 | the three loops compute the specified log and commit index |
| Engine.LogicalNode.HandleAppendEntries | crates/raft-engine/src/engine.rs:449-498 | new state and reply of an append request |
| Engine.LogicalNode.HandleInstallSnapshot | crates/raft-engine/src/engine.rs:396-431 | new state and answered term; accepted exactly at a current term above the applied index |
| Engine.LogicalNode.TruncateFront | crates/raft-engine/src/storage.rs:441-461 | the loop blanks exactly the stored entries up to the index |
| Engine.LogicalNode.TruncateLog | crates/raft-engine/src/storage.rs:417-439 | a cut above the horizon shortens the log; at or below it the log ends at the horizon and the entries left there are cut |
| Engine.LogicalNode.InitiateElection | crates/raft-engine/src/consensus/election.rs:77-170 | the loop over vote responses and the check after it |
| Engine.CampaignWinsOnMajority | crates/raft-engine/src/consensus/election.rs:103-142 | a campaign makes its candidate leader if and only if the distinct grants of some prefix of the responses, none of a later term, complete a majority |
| Engine.LogicalNode.InitiatePreVote | crates/raft-engine/src/consensus/election.rs:355-512 | the loop over pre-vote responses and the check after it |
| Engine.PreVoteWinsOnMajority | crates/raft-engine/src/consensus/election.rs:384-496 | a pre-vote campaign is won if and only if the grants of some prefix complete a majority before news of a later term; a lost one raises no term of its own |
| Engine.LogicalNode.ProcessReplicationResponse | crates/raft-engine/src/consensus/replication.rs:130-291 | the bookkeeping of a reply, then the commit step at the true quorum index |
| Engine.LogicalNode.UpdateLastCommitted | crates/raft-engine/src/consensus/rpc.rs:129-153 | collecting, sorting and taking the middle commits to the quorum index, and only onto an entry of the current term |
| Median.MedianIsQuorumIndex | crates/raft-engine/src/consensus/rpc.rs:132-142 | an index is held by a majority if and only if it is at most the element at (n-1)/2 of the sorted vector |
| Median.QuorumIndexExists | crates/raft-engine/src/consensus/rpc.rs:132-142 | every leader has exactly one quorum index |
| Median.SortSorts | crates/raft-engine/src/consensus/rpc.rs:137-139 | the sorted vector ascends and is a permutation |
| RaftAppend.ReconcileMerges | crates/raft-engine/src/node/follower.rs:144-227 | reconciliation succeeds exactly on a consistent request; then the log holds the leader's segment and has lost only what conflicts with it, and a commit index that moves is the least of the leader's and the log's end |
| RaftAppend.CutAtFirstConflict | crates/raft-engine/src/node/follower.rs:155-170 | the cut falls exactly before the first entry of another term |
| RaftAppend.CommittedSurvives | crates/raft-engine/src/node/follower.rs:144-227 | no append that passes the checks cuts a committed entry, restored logs included |
| RaftAppend.AcknowledgedSurvives | crates/raft-engine/src/node/follower.rs:144-227 | an acknowledged entry survives every later append that passes the checks, unless a quorum has passed it by |
| RaftAppend.CutRewrites | crates/raft-engine/src/node/follower.rs:155-170 | a crash after the conflict cut and before the append keeps everything committed or acknowledged |
| RaftRestore.RestoreHolds | crates/raft-engine/src/orchestration.rs:212-221 | a restore keeps every leader's entry that the log held and that is not dead |
| RaftRestore.RestoreRewrites | crates/raft-engine/src/orchestration.rs:212-221 | a finished restore keeps what the node committed and acknowledged, whatever tail it retains and whatever role it has |
| RaftInv.UpToDateIsSafe | crates/raft-engine/src/node/follower.rs:325-340 | a log as up to date as a voter's carries what the voter's carries, unless it is dead |
| RaftVotes.TermIsFree | crates/raft-engine/src/consensus/election.rs:211-238 | at every promotion the term has no leader yet |
| RaftVotes.NextIsFair | crates/raft-engine/src/engine.rs:246-790 | every step of the cluster, careful or not, keeps the invariant of terms, votes and roles |
| RaftEvents.NextKeeps | crates/raft-engine/src/engine.rs:246-790 | every careful step, the horizon probe, finished restores, compactions and crashes inside an append included, keeps the invariant of the logs and takes nothing back |
| RaftSafety.ElectionSafety | crates/raft-engine/src/consensus/election.rs:197-241 | in every run no term has two leaders, at whatever two moments |
| RaftSafety.LeaderOnlyAppends | crates/raft-engine/src/node/leader.rs:141-146 | while a node leads a term its log only grows, whatever it restores meanwhile |
| RaftSafety.TermsNeverGoBack | crates/raft-engine/src/node/shared.rs:221-243 | in every run the stored term of a node never decreases |
| RaftSafety.LatePromotionNeedsALoneNode | crates/raft-engine/src/consensus/election.rs:125-142 | with several nodes the tally stays below the quorum, so the unchecked promotion after the loop never fires |
| RaftSafety.LogMatchingHolds | crates/raft-engine/src/node/follower.rs:144-227 | with equal terms at an index two logs are equal up to it if and only if the index is committed at one of them or they have equal terms at the further commit index |
| RaftRuns.RestoreBreaksLogMatching | crates/raft-engine/src/orchestration.rs:212-221 | a careful run after which two logs have the same term at an index and differ before it |
| RaftSafety.LeaderCompleteness | crates/raft-engine/src/node/follower.rs:230-251 | in every careful run, what a quorum has acknowledged of one leader's log up to an entry of its own term begins a leader's log, then and later, if and only if that leader's term is not less |
| RaftSafety.CommittedWasChosen | crates/raft-engine/src/consensus/rpc.rs:129-153 | in every careful run what a node has committed lies within what the leader of some term up to its own has had acknowledged so |
| RaftSafety.LeadersHoldCommitted | crates/raft-engine/src/node/follower.rs:230-251 | so a leader's log begins with what any node of its term or an earlier one has committed before |
| RaftSafety.StateMachineSafety | crates/raft-engine/src/consensus/rpc.rs:129-153 | in every careful run what any two nodes ever commit agrees, at any two moments, restored logs and horizon probes included |
| RaftSafety.AppliedEntriesAgree | crates/raft-engine/src/orchestration.rs:42-139 | in every careful run nodes at the same applied index have applied the same entries |
| RaftSafety.CommittedLogExists | crates/raft-engine/src/consensus/rpc.rs:129-153 | at every moment of a careful run there is one committed log of which every node's committed entries are a prefix |
| RaftSafety.CommittedLogOnlyGrows | crates/raft-engine/src/consensus/rpc.rs:129-153 | that log only grows |
| RaftSafety.NothingGoesBack | crates/raft-engine/src/node/fsm_ops.rs:37-92 | in every careful run commit indices never decrease, through crashes and finished restores as well |
| RaftCommit.CommitGoesBack | crates/raft-engine/src/node/follower.rs:183-200 | in every run, careful or not, a commit index goes back in a step if and only if the node then takes over a request that names a later index while its log ends before its own |
| RaftSafety.CommitIsTheLeaders | crates/raft-engine/src/consensus/replication.rs:441-448 | after any careful run, every request that may be delivered and moves the commit index commits only its sender's entries if and only if the new index lies within what the request compared or the follower's entry there has the sender's term |
| RaftSafety.ChecksAreMet | crates/raft-engine/src/node/follower.rs:183-200 | after any careful run, a request to a store without entries left below its horizon passes the cut check, and the commit check too if its commit index or the store's log ends within it |
| RaftSafety.CutBelowHorizonLosesTheRest | crates/raft-engine/src/node/follower.rs:155-170 | after any careful run, a delivered request in conflict with an entry left below the horizon leaves exactly the sender's entries up to the horizon or the request's end; what was committed survives if and only if that reaches it |
| RaftRuns.ProbeCommitsAnotherHistory | crates/raft-engine/src/consensus/replication.rs:441-448 | a run in which a probe makes a restored follower commit an entry that differs from its leader's |
| RaftRuns.LateRequestCutsCommitted | crates/raft-engine/src/node/follower.rs:155-170 | a run in which a delayed request leaves an entry that three of five nodes had committed at two of them |
| RaftStale.StaleSnapshotBreaksCompleteness | crates/raft-engine/src/consensus/rpc.rs:57-90 | a run in which a leader lacks what a node of an earlier term has committed, because a snapshot was sent in a round of an earlier term |
| RaftSeven.StaleSnapshotBreaksSafety | crates/raft-engine/src/consensus/rpc.rs:57-90 | a run whose steps pass the checks but for one snapshot sent in a round of an earlier term, and after which two nodes have applied different entries at one index and no committed log exists |
| RaftSafety.LeaderCommitIsAcknowledged | crates/raft-engine/src/consensus/replication.rs:169-291 | every commit advance of a leader that is not the end of its own restore reaches an entry of its current term that a quorum including itself acknowledged in that term |
| RaftSafety.AcknowledgementsAreReal | crates/raft-engine/src/consensus/replication.rs:183-288 | in every run an acknowledgement is a leader's own proposal, or a request built and sent in that term that is answered with success in the same step; snapshots and probes of older terms never contribute |
| RaftSafety.VoteResponseHalts | crates/raft-engine/src/consensus/election.rs:198-209 | a vote response halts the node if and only if its term lies strictly between the campaign's and the node's |
| RaftSafety.ReplicationReplyHalts | crates/raft-engine/src/consensus/replication.rs:152-168 | the same for a replication reply, in every reachable state |
| RaftSafety.OnlyStaleRepliesHalt | crates/raft-engine/src/engine.rs:285-303 | in every run nothing else halts a node: the rival-leader halt and the probe underflow are unreachable, and no finished restore halts |
| RaftStale.RestartedCandidateHalts | crates/raft-engine/src/consensus/election.rs:198-209 | a run in which a candidate that has restarted its campaign twice is halted by an answer to the first |
| PreVote.CandidatesWonAPreVote | crates/raft-engine/src/consensus/election.rs:384-496 | in every run every candidacy begins with a step that wins a pre-vote of that node with a quorum of grants, and lasts without a break from there |
| PreVote.TermsRiseOnlyAfterPreVote | crates/raft-engine/src/consensus/election.rs:384-496 | the highest term rises by one, at a node that has been a candidate without a break since a step in which it won a pre-vote with a quorum of grants, this one or an earlier one |
| PreVote.TermsRestBetweenPreVotes | crates/raft-engine/src/consensus/lifecycle.rs:103-126 | from any moment of a run without candidates, as long as nobody wins a pre-vote, no term exceeds those of that moment |
| PreVote.NoPreVoteNoNewTerm | crates/raft-engine/src/consensus/lifecycle.rs:103-126 | while nobody wins a pre-vote no term leaves its initial value |
| Backoff.RejectedProbeMovesOnlyPastTheEnd | crates/raft-engine/src/consensus/replication.rs:224-258 | a rejected probe moves the next index back if and only if the peer's log ends before the probed position, to just past that end, or by one from an empty log |
| Backoff.ConflictIsProbedForEver | crates/raft-engine/src/consensus/replication.rs:224-258 | for every leader and follower with different terms at a probed position above the leader's horizon, any number of exchanges leaves both as they were |
| Keys.KeyOrder | crates/raft-engine/src/storage.rs:278-328 | under eight-byte big-endian keys byte order is numeric order and keys are distinct |
| Keys.KeyRoundTrip | crates/raft-engine/src/storage.rs:204-223 | reading a key's eight bytes back gives the index |
| LogStore.OperationsKeepLive | crates/raft-engine/src/storage.rs:363-491 | append, cuts above the horizon and both halves of a compaction keep the stored log contiguous down to the horizon, with the expected last index |
| LogStore.TruncateUndoesAppend | crates/raft-engine/src/storage.rs:363-439 | cutting off what a contiguous append added gives the store back |
| LogStore.StoredOperationsAreTheLogs | crates/raft-engine/src/storage.rs:204-461 | on a live log, inserting, cutting and reading stored entries by index are appending to, cutting and reading the log |
| LogStore.ScanIsSlice | crates/raft-engine/src/storage.rs:300-328 | a scan of a log is a slice of it |
| NodeLog.StoreAnswersForTheNode | crates/raft-engine/src/node/shared.rs:146-175 | every term a node looks up, its last index and its last term are what its store answers, old entries at and below the horizon included |
| NodeLog.CutIsOnDisk | crates/raft-engine/src/storage.rs:417-439 | the node's back cut is the store's, above and below the horizon |
| NodeLog.AppendIsOnDisk | crates/raft-engine/src/storage.rs:363-382 | the node's append is the store's |
| NodeLog.RestoreIsOnDisk | crates/raft-engine/src/orchestration.rs:212-221 | a finished restore, which writes no entry, is on disk what the node takes it to be |
| NodeLog.MarkedHorizonIsOnDisk | crates/raft-engine/src/consensus/lifecycle.rs:331-339 | so is the first half of a compaction |
| NodeLog.FrontIsOnDisk | crates/raft-engine/src/storage.rs:441-461 | so is the second |
| Sled.SledStorage.LastLogIndex | crates/raft-engine/src/storage.rs:204-223 | the greatest stored index, or the snapshot's if that is greater |
| Sled.SledStorage.LastLogTerm | crates/raft-engine/src/storage.rs:230-253 | the term of the entry at the greatest index, or the snapshot's |
| Sled.SledStorage.AppendEntries | crates/raft-engine/src/storage.rs:363-382 | any batch puts each entry under its own index, later ones winning |
| Sled.SledStorage.TruncateLog | crates/raft-engine/src/storage.rs:417-439 | from any index on, exactly the entries below it remain |
| Sled.SledStorage.TruncateLogFront | crates/raft-engine/src/storage.rs:441-461 | up to any index, exactly the entries from 1 to it go |
| Sled.SledStorage.ReadEntries | crates/raft-engine/src/storage.rs:300-328 | the scan in key order lists exactly the entries stored in the range, in index order |
| Memory.MemoryStorage.AppendEntries | crates/raft-engine/src/storage.rs:680-698 | pushes exactly the contiguous part and reports whether that was all |
| Memory.MemoryStorage.ReadEntries | crates/raft-engine/src/storage.rs:632-665 | what an offset read returns, its error and its empty answer included |
| Memory.MemoryStorage.TruncateLogFront | crates/raft-engine/src/storage.rs:714-725 | up to any index, the drain drops exactly the entries up to it |
| Memory.RangesAgreeWithinTheLog | crates/raft-engine/src/storage.rs:300-328 | the two stores return the same range if and only if it is refused, empty, inside the stored log, wholly past its end, or nothing is stored |
| Compaction.NextKeeps | crates/raft-engine/src/consensus/lifecycle.rs:315-386 | appends, cuts above the commit index, commits, applies, both halves of a compaction and a crash between them keep the store standing for one logical log |
| Compaction.LiveLogIsReadable | crates/raft-engine/src/storage.rs:204-253 | last index, last term and every read above the horizon are those of the logical log |
| Compaction.HalvesMoveNothing | crates/raft-engine/src/storage.rs:441-491 | neither half of a compaction changes the last index or the last term |
| Compaction.ApplyCommitted | crates/raft-engine/src/orchestration.rs:67-139 | the applier's loop hands over exactly the committed entries and never finds one missing |
| Compaction.CommittedEntriesAreReadable | crates/raft-engine/src/orchestration.rs:67-113 | in every run every committed, unapplied entry is in the store |
| Compaction.StrategySendsTheLiveLog | crates/raft-engine/src/consensus/rpc.rs:53-123 | the append branch is taken exactly above the horizon and sends exactly next to last with the true previous term |
| Compaction.CheckRefusesOnlyBelowTheHorizon | crates/raft-engine/src/node/follower.rs:290-323 | the consistency check on the stored log differs from the logical one only by refusing below the horizon |
| Units.RoundingIsStable | crates/common/src/units.rs:352-366 | rounding lands on four decimals, is the identity there, and breaks ties to even |
| Units.RoundingIsSymmetric | crates/common/src/units.rs:352-366 | negative quantities round as their mirror images |
| Units.RoundingError | crates/common/src/units.rs:352-366 | rounding moves a quantity by at most 0.00005 |
| Units.BaseUnitsResolveToThemselves | crates/common/src/units.rs:62-69 | every base unit resolves to its own dimension with multiplier one |
| Units.MassLaws | crates/common/src/units.rs:258-283 | a kilogram is 1000 grams, a pound 453.59237 grams and, to the stated digits, 16 ounces; every spelling names its unit |
| Units.VolumeLaws | crates/common/src/units.rs:284-311 | a liter is 1000 milliliters, a gallon, to the stated digits, 3.785411784 liters and 128 fluid ounces; every spelling names its unit |
| Units.CountLaws | crates/common/src/units.rs:312-331 | a dozen is 12 units; every spelling names its unit |
| Units.AnomalousLaws | crates/common/src/units.rs:333-339 | handfuls and bunches, in every spelling, are of the anomalous dimension |
| Units.ContextualLaw | crates/common/src/units.rs:324-339 | the oracle's multiplier is in force for packs and handfuls and for nothing else |
| Units.PlainResolves | crates/common/src/units.rs:254-258 | a symbol of lower-case letters and underscores is looked up as it is written |
| Units.AlikeResolvesAlike | crates/common/src/units.rs:209-211 | symbols that differ in case, hyphens, spaces and underscores alone name one unit |
| Units.OuterSpaceIsIgnored | crates/common/src/units.rs:209-211 | white space around a symbol does not matter |
| Units.DisplayRoundTrip | crates/common/src/units.rs:389-402 | for every physical unit, four-decimal quantities survive the conversion to base and back |
| Units.DisplayError | crates/common/src/units.rs:389-402 | for any quantity the displayed value is within 0.00005/m + 0.00005 |
| Units.DisplayIsPhysical | crates/common/src/units.rs:389-402 | a display value exists exactly for registered units that are not contextual |
| Units.FenceArithmetic | crates/common/src/units.rs:127-179 | sums and differences are refused exactly across dimensions, undo each other, and stay on the grid |
| Slugs.Slugify | crates/common/src/slug.rs:14-33 | the character loop computes the lower-case words joined by single underscores |
| Slugs.FixedPointsAreTheSlugs | crates/common/src/slug.rs:14-33 | every result is well formed, and the fixed points are exactly the well-formed slugs |
| Slugs.WordIsLowered | crates/common/src/slug.rs:14-33 | a run of letters and digits becomes itself in lower case |
| Slugs.SeparatorsPart | crates/common/src/slug.rs:14-33 | any other character parts what is before it from what is behind it, and leaves one underscore if there is something on both sides |
| Slugs.CaseIsIgnored | crates/common/src/slug.rs:14-33 | texts that differ in the case of letters have one slug |
| Stabilizer.StabilizedIsWellFormed | crates/gateway/src/ingress/stabilizer.rs:20-182 | against well-formed items every accepted result is well formed, and the refusals blaming the stored item cannot occur |
| Stabilizer.AcceptedExactly | crates/gateway/src/ingress/stabilizer.rs:20-182 | a request is accepted if and only if its category is registered, its key a slug and, unless it deletes, its amount positive and, where it adds to or subtracts from a held item, of the same base unit and not more than is there to subtract |
| Stabilizer.AcceptedResult | crates/gateway/src/ingress/stabilizer.rs:20-233 | the result carries the oracle's key, name, unit and justification and the registered category; a Set gives the rounded amount whatever is held, an Add or Subtract the sum or difference, a Delete nothing |
| Stabilizer.RefusalsAreFaults | crates/gateway/src/ingress/stabilizer.rs:20-233 | every refusal names a fault that is there |
| Stabilizer.FindsTheFirst | crates/gateway/src/ingress/stabilizer.rs:156-160 | the lookup finds the first item listed under the key, if any |
| Stabilizer.AccumulateExactly | crates/gateway/src/ingress/stabilizer.rs:187-233 | against a stored item the result is the plain sum or difference, refused only across dimensions or below zero |
| Accumulation.AccumulationIsExact | crates/gateway/src/ingress/stabilizer.rs:98-233 | for every log whose changes of a key were each proposed for a request that read what the log had left there, what the store holds under the key is the exact sum of the rounded amounts since the last Set or Delete, never negative, and within one rounding error per summand of what was asked for |
| Accumulation.ChangeIsStored | crates/lacto-fsm/src/lib.rs:537-549 | what a request was accepted for is what the store holds once its entry took effect, with its unit |
| Gateway.ResolveSemanticMutation | crates/gateway/src/ingress/ai_oracle.rs:125-228 | committed if and only if some answer stabilizes and every earlier one failed or did not; at most one call more than the retry bound; the missing outcome is unreachable |
| Gateway.ProposalsAreWellProposed | crates/gateway/src/ingress/proposer.rs:28-49 | whatever the loop resolves is proposed with a known status, a time, and the deletion flag of a Delete |
| Gateway.InventoryStaysWellFormed | crates/lacto-fsm/src/lib.rs:537-549 | in every run, even on stale reads, every item has its slug for a key, a base unit, and a non-negative four-decimal quantity |
| Gateway.EveryReplicaIsWellFormed | crates/lacto-fsm/src/lib.rs:537-549 | so does the store of every replica at every moment |
| Gateway.StoredItemsAreNeverBlamed | crates/gateway/src/ingress/stabilizer.rs:149-215 | so no request is refused because of what an earlier one stored |

## Left out

- The heartbeat sent while a snapshot is in flight (`crates/raft-engine/src/consensus/replication.rs:388-419`), which skips the horizon check and can carry entries that do not follow its previous index: no run of `Cluster` contains it, so neither the theorems of `RaftSafety` and `PreVote` nor `Whole` and `Ingress` cover a run that does.
- Replies to a horizon probe: the program looks only at their term, `Cluster` may book them like any other.
- A restore that ends at or below an index applied in the meantime, and a compaction whose index was captured before a restore moved past it.
- A restore racing the applier between the release of its lock and the advance of the horizon, and a crash between the restored state machine and the saved metadata.
- A crash between the two writes of a finished restore, its metadata and its commit index.
- `Compaction` treats a log that no restore has touched; for restored ones `NodeLog` relates node and store.
- Linearizable reads: read epochs and heartbeat acknowledgements.
- Overflow of 64-bit terms and log indices in the Raft part; the state machine part models it, and `Whole` supposes that no run commits 2^64 - 1 entries.
- Limits of the decimal type: 28 digits, overflow of products and sums, negative zero.
- Units.FenceArithmetic: sums and products that overflow the decimal type are refused by the program; over `real` they are not.
- Non-ASCII letters whose lower case is ASCII, in unit symbols and category names.
- Errors of the storage engine, corrupt bytes on disk, and the order in which a tree is cleared (any order is allowed, the tombstone last).
- Freeze depth and snapshot permits of the shell, which gate when steps run but change none of them.
- Transport, timeouts of calls, tracing, configuration, identity headers, the oracle's prompts, the client's write-ahead log and the command line: plumbing.
- Conservation through the live gateway: it waits for commit, not for apply, so `Accumulation.AccumulationIsExact` keeps the hypothesis that each request reads the state its predecessor left.
- Engine.LogicalNode.InitiateElection: covers a campaign whose responses are processed without other steps in between; with such steps the campaign is the separate events of `Cluster`.
- Engine.LogicalNode.InitiatePreVote: the same restriction, with the same remedy.
- Restarts of a node recover its state machine up to the commit index in one step of `Cluster`; `Recovery` treats the replay itself.
- `Whole` lets a store restore any snapshot taken anywhere at any earlier time, more than the cluster's snapshot requests would; it does not tie a restore of a store to the restore of its node's log.
