# Openraft: a verified model

A Dafny model of openraft and of the simulation tools it is tested with, and proofs of what they promise over every
run. `dafny verify dfyconfig.toml` checks all of it.

Imperative parts of the source are classes whose methods are tied, by `ensures State() == ...`, to functions on
values. Runs are sequences of events folded by those functions, one event per step that the program takes without
being interrupted: a handler of the Raft engine, the code between two awaits, or one lock section. An event that is
not possible in a state leaves the state as it is. The theorems speak of every sequence of events, so of every
schedule, message loss, crash and input; those on Raft leave out one kind of restart, described below, for which they
are false.

| files | what they model |
|---|---|
| `RaftStorage` | a node's disk, the writes it submitted that are not there yet, and what startup makes of them |
| `RaftEngine` | one node of the Raft engine: votes, elections, replication, snapshots, commit, storage, restart |
| `RaftCluster` | any number of nodes over a network that loses, repeats and reorders messages, on disks that lose what was not flushed |
| `RaftInvariant`, `RaftGrowth`, `RaftImages`, `RaftSteps`, `RaftElections`, `RaftAppends`, `RaftRestarts`, `RaftSafety` | the invariant, that each step keeps it, and the safety of every run |
| `RaftWitness` | a run that commits, one that loses a committed entry, and one in which startup breaks safety |
| `RaftContract` | the storage of a node as an instance of the storage contract |
| `LogIdList` | the engine's compact list of log ids |
| `LogDisk`, `StorageContract`, `LogStore`, `LogStoreRuns` | the crash-faulty log store of the fuzz tests and the storage contract it must keep |
| `ClientHistory`, `OracleDetection`, `OracleDurability`, `OracleSoundness` | the consistency oracle of the fuzz tests |
| `EntryHistory` | the detector of log ids used for two entries |
| `WatchChannel`, `WatchRuns` | the simulator's watch channel |
| `Executor`, `ExecutorRuns` | the simulator's virtual clock, timers and run queue |
| `SplitMix`, `TaskSeeds` | the seed mixer, and seeds in task-local storage |
| `SimLog` | masking wall-clock times in the simulator's log |
| `Crc64`, `DirFrames`, `DirWriter`, `DirWriterRuns`, `FrameProducer`, `DirTransfer`, `DirTransport` | the directory transfer protocol |
| `VariantName` | the tables generated by the name-enum derive macro |
| `RaftTypes`, `ByteStrings` | votes, log ids and byte strings with their orders |

The main results:

- Raft safety with separate read and write quorums, where each read quorum must meet each write quorum, on disks that
  lose at a crash any writes that were not flushed, appended entries and truncations, a leader's own included: what any
  node ever holds to be committed is the same everywhere and forever, state machines never diverge, and every later
  leader has it. It leaves the log of a node that knew it exactly in a crash before the node had it on disk or applied
  it.
- What a node confirmed to a leader is in every state that a crash can leave, unless a later leader lacks it or a
  committed snapshot replaced it.
- Where startup breaks this: a condition on what the crash left that holds exactly if the restart is safe.
- An acknowledged write to the log store survives every later crash, together with everything before it.
- The oracle reports violations exactly when the calls show them, with the limits listed at the end, and raises no alarm
  on a run that one log explains.
- No wakeup of the watch channel is lost, and a notifier wakes in the order of registration; timers fire in order, each
  at its deadline; any two schedules of the same tasks draw the same seeds.
- The directory writer accepts exactly the valid streams, and a transfer rebuilds exactly the sender's directory.

Writes of a Raft node take effect in memory at once and reach the disk in the order they were submitted, at any later
time (`Persist`). A restart finds the disk after any prefix of the submitted writes, and what the state machine
applied, which is durable (tests-turmoil/src/storage_model.rs:15-21). A confirmation is sent only for entries that are
accepted and flushed. Saving a vote returns once the vote and every write before it are on disk
(openraft/src/storage/v2/raft_log_storage.rs:58-63, openraft/src/core/raft_core.rs:2555-2577), and handling a message
waits for it, so in the model it is part of the same step: a crash during it is a crash before the message.

One promise of the code is false. Startup compares log ids to see whether the log has what the state machine applied
(openraft/src/storage/helper.rs:177-187). After a crash that undid a truncation and the append after it, the log can
end with a greater log id and yet not have the applied entry; startup accepts it, and from then on holds an entry to be
committed that no leader committed. `RaftWitness.DisagreeingStartIsUnsafe` is such a run.
`RaftRestarts.RestartIsSafeExactlyWhenAgrees` gives the exact condition, `RaftStorage.Agrees`: the log ends below the
last applied log id, or has it at its index. The theorems about runs therefore speak of runs in which every restart
meets it (`RaftCluster.SoundStarts`).

The code and its documentation differ in one place, and the code is followed: the documentation asks that a node accept
a leader's vote before its committed log id (openraft/src/docs/protocol/commit.md:69-77), but the code takes the
committed log id of an append request also when the request's vote was refused
(openraft/src/core/raft_core.rs:1804-1817). `AppendKeepsInv` shows that this is safe. `HasIsTrue` proves the assumption
stated at openraft/src/raft_state/log_state_reader.rs:22, that a log id below the committed index is present.

## Model

| member | source | states |
|---|---|---|
| `RaftSafety.StateMachineSafety` | openraft/src/docs/protocol/commit.md:7-14 | in every run, with any crashes that lose unflushed writes, what a node holds committed at an index and what any node later holds committed there is the same entry |
| `RaftSafety.StateMachinesAgree` | openraft/src/docs/protocol/commit.md:7-14 | of what two state machines applied, at whatever times, one is a prefix of the other |
| `RaftSafety.LeaderCompleteness` | openraft/src/docs/protocol/election_quorum.md:26-28 | an entry once held committed is in the log of every leader, then or later, not older than the vote under which it was held |
| `RaftSafety.CommittedStaysInLog` | openraft/src/storage/helper.rs:165-176 | an entry a node held committed is in its log at every later moment exactly if, at each crash of the node in between, it was on disk or applied: nothing else removes it |
| `RaftSafety.StepHolds` | openraft/src/engine/handler/following_handler/mod.rs:192-216 | a committed prefix leaves a node's log in a step exactly if the step is a crash that it does not survive |
| `RaftSafety.ConfirmedStaysInLog` | openraft/src/engine/engine_impl.rs:664-676 | an own entry of a leader that a node confirmed to it is on disk after every crash the node may suffer, unless a later leader the node may follow lacks it or a committed snapshot replaced it |
| `RaftSafety.LogMatching` | openraft/src/raft_state/log_state_reader.rs:20-35 | two logs with an entry of one leader at one index agree on everything up to there |
| `RaftSafety.RunIsSafe` | openraft/src/docs/protocol/election_quorum.md:9-28 | every state of every run, with any crashes, satisfies the invariant, for any quorums of which each read quorum meets each write quorum |
| `RaftSafety.StepIsSafe` | openraft/src/engine/engine_impl.rs:227-728 | every event, possible or not, keeps the invariant |
| `RaftSafety.RunGrows` | openraft/src/engine/handler/leader_handler/mod.rs:82-130 | leaders' logs only grow and messages are only added along a run |
| `RaftSafety.CommittedAgree` | openraft/src/engine/handler/replication_handler/mod.rs:225-253 | two committed log ids at one index are equal, whichever leaders committed them |
| `RaftSafety.MajoritiesIntersect` | openraft/src/membership/membership_impl_quorum_set.rs:16-24 | quorums of one membership, joint of any number of configurations, or of two that share a configuration, meet the demand the theorems put on quorums |
| `RaftSafety.SharedConfigMeets` | openraft/src/membership/membership_impl_raft_membership.rs:55-66 | quorums of two memberships that share a configuration have a voter of it in common |
| `RaftSafety.QuorumsMeetExactly` | openraft/src/membership/membership_impl_quorum_set.rs:16-24 | any two quorums of a joint membership meet exactly if it has a configuration |
| `RaftWitness.SomeRunCommits` | openraft/src/engine/engine_impl.rs:946-978 | a run exists that initialises, elects and commits, so the theorems are not empty |
| `RaftWitness.CommittedEntryLost` | openraft/src/core/raft_core.rs:1804-1817 | a run in which a node holds an entry committed, crashes before it was flushed or applied, and starts without it |
| `RaftWitness.DisagreeingStartIsUnsafe` | openraft/src/storage/helper.rs:177-206 | a run in which startup accepts a log without the applied entry, after which two nodes differ on a committed entry |
| `RaftRestarts.RestartIsSafeExactlyWhenAgrees` | openraft/src/storage/helper.rs:177-206 | a restart that startup does not refuse keeps the invariant exactly if the log left by the crash ends below the last applied log id or has it at its index |
| `RaftRestarts.HoldsAppliedExactlyWhenAgrees` | openraft/src/storage/helper.rs:177-206 | after such a restart the log has everything applied exactly under that condition |
| `RaftRestarts.RestartKeepsInv` | openraft/src/engine/engine_impl.rs:173-212 | a restart from any disk a crash can leave is sound: appended entries lost, a leader's too, truncations undone, holes purged, a leader's vote held back |
| `RaftRestarts.RecoveredIs` | openraft/src/storage/helper.rs:86-206 | under that condition, unless startup refuses, its log is the one on disk, or all that was applied if the log ends before that; what was applied or saved as committed is in it, committed |
| `RaftRestarts.CommittedNest` | openraft/src/docs/protocol/commit.md:7-14 | of two committed logs one is a prefix of the other |
| `RaftRestarts.ConflictIsLost` | openraft/src/storage/helper.rs:188-206 | entries that a node confirmed and that conflict with what it applied are lost to a later leader or a committed snapshot, so that purging them breaks no promise |
| `RaftInvariant.LaterLeadersHave` | openraft/src/engine/engine_impl.rs:435-461 | every leader elected after a committing leader has its committed entries, from the quorums' shared voter and the log check of the vote |
| `RaftInvariant.LeaderHasCommitted` | openraft/src/raft_state/io_state.rs:252-285 | a leader no older than a committed log id has it at its index |
| `RaftInvariant.NewerLogHas` | openraft/src/engine/engine_impl.rs:437-451 | a log whose last log id is not below a voter's has the committed entries the voter has |
| `RaftInvariant.IdsFollowIndexes` | openraft/src/engine/handler/following_handler/mod.rs:93-97 | along any log, log ids are ordered as their indexes |
| `RaftInvariant.LogsMatch` | openraft/src/raft_state/log_state_reader.rs:29-34 | equal log ids imply equal prefixes |
| `RaftGrowth.LackStays` | openraft/src/proposer/leader.rs:241-255 | a later leader that lacks an earlier leader's entries never gets them |
| `RaftSteps.MatchedIsCommitted` | openraft/src/engine/handler/replication_handler/mod.rs:198-235 | what a write quorum confirmed, by flushed entries or by snapshots it holds committed, and the leader proposed itself, is committed |
| `RaftSteps.CommitKeepsInv` | openraft/src/engine/handler/replication_handler/mod.rs:229-253 | a leader's commit is sound |
| `RaftSteps.MatchedKeepsInv` | openraft/src/engine/handler/replication_handler/mod.rs:198-223 | taking a confirmation is sound |
| `RaftSteps.ReplicationKeepsInv` | openraft/src/engine/handler/leader_handler/mod.rs:106-127 | any stretch of a leader's log may be sent |
| `RaftSteps.ConfirmKeepsInv` | openraft/src/engine/engine_impl.rs:664-676 | a follower's reply, and a leader's count of its own disk, are sound for entries accepted and flushed |
| `RaftSteps.PersistKeepsInv` | openraft/src/core/raft_core.rs:2208-2232 | the oldest submitted write may reach the disk at any time |
| `RaftSteps.ApplyKeepsInv` | openraft/src/core/raft_core.rs:2630-2646 | a node may apply what it holds committed before it is flushed |
| `RaftSteps.SaveCommitKeepsInv` | openraft/src/core/raft_core.rs:2630-2640 | saving the committed log id is sound, also if a crash undoes it |
| `RaftImages.SubmitSound` | tests-turmoil/src/storage_model.rs:15-21 | a write that fits the node's log keeps every disk sound that a crash can leave |
| `RaftImages.PersistedSound` | tests-turmoil/src/storage_model.rs:15-21 | progress of the disk only removes disks from those a crash can leave, and what it reports flushed is in all the others |
| `RaftImages.VoteSavedSound` | openraft/src/core/raft_core.rs:2555-2577 | once a vote is saved, every disk a crash can leave has it and everything before it |
| `RaftImages.AppliedSound` | tests-turmoil/src/storage_model.rs:21 | applying committed entries keeps the storage sound |
| `RaftElections.ElectionKeepsInv` | openraft/src/engine/engine_impl.rs:266-311 | starting an election is sound: the leader id was never used before |
| `RaftElections.VoteRequestKeepsInv` | openraft/src/engine/engine_impl.rs:393-462 | granting or refusing a vote is sound |
| `RaftElections.VoteReplyKeepsInv` | openraft/src/engine/engine_impl.rs:517-576 | counting a vote, taking office and adopting a refuser's vote are sound |
| `RaftElections.NewGrantKept` | openraft/src/engine/engine_impl.rs:453-461 | a voter still has what it confirmed when it grants a later vote, unless a leader in between lacks it |
| `RaftElections.EstablishedIs` | openraft/src/engine/engine_impl.rs:948-978 | the winner's vote is committed, its log ends with its own blank entry, and all of it is accepted |
| `RaftElections.ProposalKeepsInv` | openraft/src/engine/handler/leader_handler/mod.rs:82-130 | a leader's proposal is sound |
| `RaftElections.InitializationKeepsInv` | openraft/src/engine/engine_impl.rs:227-248 | the first entry of a cluster, also when several nodes write one, is sound |
| `RaftAppends.HasIsTrue` | openraft/src/raft_state/log_state_reader.rs:20-35 | a log id of the leader's that the follower claims to have it has, with everything before it, also below its committed index where it does not look |
| `RaftAppends.FirstConflictIs` | openraft/src/raft_state/mod.rs:385-402 | before the first conflicting index the logs agree; there, if entries are left, the follower's log ends or differs |
| `RaftAppends.SegmentLog` | openraft/src/engine/engine_impl.rs:679-695 | after a request the follower's log is its own if it already had the entries, the leader's up to the last of them otherwise; after a conflict it is cut where it differs |
| `RaftAppends.CommonStays` | openraft/src/engine/handler/following_handler/mod.rs:72-144 | what follower and leader have in common survives any request |
| `RaftAppends.LocalCommitSound` | openraft/src/raft_state/io_state.rs:226-285 | what a node may apply it has, and it is committed |
| `RaftAppends.SnapshotIsAhead` | openraft/src/engine/handler/following_handler/mod.rs:276-311 | a snapshot is beyond the committed log id exactly when it is beyond its index, so the corruption check cannot fail |
| `RaftAppends.AppendKeepsInv` | openraft/src/core/raft_core.rs:1804-1817 | an append request of a current or an old leader is handled soundly |
| `RaftAppends.SnapshotKeepsInv` | openraft/src/engine/handler/following_handler/mod.rs:270-347 | installing or skipping a snapshot is sound |
| `RaftAppends.SendSnapshotKeepsInv` | openraft/src/replication/snapshot_transmitter.rs:202-252 | a leader may send a snapshot of entries it knows committed |
| `RaftEngine.Engine.constructor` | openraft/src/raft_state/mod.rs:176-190 | a node without log whose vote is its own in term zero, uncommitted |
| `RaftEngine.Engine.AcceptLogIo` | openraft/src/raft_state/mod.rs:256-282 | accepted writes only advance, by vote, then by log id |
| `RaftEngine.Engine.UpdateVote` | openraft/src/engine/handler/vote_handler/mod.rs:110-166 | a smaller vote is refused, a greater one adopted; another's vote ends candidacy and leadership |
| `RaftEngine.Engine.Elect` | openraft/src/engine/engine_impl.rs:266-311 | the node votes for itself in the next term and is a candidate with its last log id |
| `RaftEngine.Engine.HandleVoteReq` | openraft/src/engine/engine_impl.rs:435-461 | the vote is granted exactly if the log check and the vote check pass |
| `RaftEngine.Engine.HandleVoteResp` | openraft/src/engine/engine_impl.rs:517-576 | a grant of the current vote is counted and may elect; otherwise the other vote is adopted, uncommitted |
| `RaftEngine.Engine.EstablishLeader` | openraft/src/engine/engine_impl.rs:948-978 | the winner leads with a committed vote and writes a blank entry |
| `RaftEngine.Engine.LeaderAppendEntry` | openraft/src/engine/handler/leader_handler/mod.rs:82-116 | the entry carries the leader's id and the next index |
| `RaftEngine.Engine.FirstConflictingIndex` | openraft/src/raft_state/mod.rs:387-402 | how many of the entries the node has |
| `RaftEngine.Engine.TruncateLogs` | openraft/src/engine/handler/following_handler/mod.rs:197-216 | the log is cut at an index it has, else unchanged |
| `RaftEngine.Engine.FollowerAppend` | openraft/src/engine/handler/following_handler/mod.rs:72-119 | the missing entries replace whatever followed |
| `RaftEngine.Engine.AppendSegment` | openraft/src/engine/engine_impl.rs:679-695 | vote first, then the preceding log id, then the entries |
| `RaftEngine.Engine.UpdateLocalCommitted` | openraft/src/raft_state/mod.rs:331-337 | the local commit only advances |
| `RaftEngine.Engine.UpdateCommitted` | openraft/src/raft_state/mod.rs:307-321 | the reported commit advances, and the local one as far as it may |
| `RaftEngine.Engine.HandleAppendEntries` | openraft/src/core/raft_core.rs:1804-1817 | the segment is handled, then the commit, even after a refusal |
| `RaftEngine.Engine.InstallSnapshot` | openraft/src/engine/handler/following_handler/mod.rs:313-347 | conflicting entries after the commit are dropped and the snapshot's entries are committed |
| `RaftEngine.Engine.HandleInstallSnapshot` | openraft/src/engine/engine_impl.rs:699-728 | a snapshot under an old vote is refused, one of known entries skipped |
| `RaftEngine.Engine.UpdateMatching` | openraft/src/engine/handler/replication_handler/mod.rs:198-223 | a node's confirmed log id only advances |
| `RaftEngine.Engine.TryCommitQuorumAccepted` | openraft/src/engine/handler/replication_handler/mod.rs:229-253 | only log ids the current leader proposed are committed |
| `RaftEngine.Engine.Startup` | openraft/src/storage/helper.rs:86-206 | vote and log are those of the disk after the writes the crash kept, applied entries are restored and a hole purged or the start refused; a leader's vote is held back, everything volatile is gone |
| `RaftEngine.Engine.Replay` | tests-turmoil/src/storage_model.rs:15-16 | the disk after a prefix of the submitted writes |
| `RaftEngine.Engine.Submit` | openraft/src/storage/v2/raft_log_storage.rs:102-148 | the write is last in the queue and not on disk |
| `RaftEngine.Engine.Sync` | openraft/src/storage/v2/raft_log_storage.rs:58-63 | the write and all before it are on disk |
| `RaftEngine.Engine.SaveVoteNow` | openraft/src/core/raft_core.rs:2555-2577 | a saved vote is on disk, with every write before it, and counts as flushed |
| `RaftEngine.Engine.Flushed` | openraft/src/core/raft_core.rs:2208-2210 | flushed progress only advances, by vote, then by log id |
| `RaftEngine.Engine.Persist` | openraft/src/core/raft_core.rs:2208-2232 | the oldest write reaches the disk and its progress is flushed |
| `RaftEngine.Engine.Apply` | openraft/src/core/raft_core.rs:2630-2646 | the state machine stands for the log up to there |
| `RaftEngine.Engine.SaveCommittedUpto` | openraft/src/core/raft_core.rs:2630-2640 | the log id of the last entry is submitted as committed |
| `RaftContract.SubmitIsWork` | tests-turmoil/src/storage_model.rs:15-18 | submitting is a step of the contract |
| `RaftContract.PersistIsWork` | tests-turmoil/src/storage_model.rs:15-18 | the progress of the disk is a step of the contract |
| `RaftContract.SyncIsWork` | tests-turmoil/src/storage_model.rs:19 | waiting for a write makes it and all before it durable in the contract |
| `RaftContract.CrashKeepsAsContract` | tests-turmoil/src/storage_model.rs:15-20 | a node's crash may keep exactly what the contract lets a crash keep, and startup finds just that |
| `RaftEngine.Engine.Initialize` | openraft/src/engine/engine_impl.rs:227-248 | only a node without log and with a vote of term zero is initialised, with a committed vote of its own |
| `LogIdLists.GetKeyLogIds` | openraft/src/engine/log_id_list.rs:100-154 | bisection with a stack finds exactly the last log id of every leader of a stored log |
| `LogIdLists.LogIdList.constructor` | openraft/src/engine/log_id_list.rs:35-44 | an empty list |
| `LogIdLists.LogIdList.Append` | openraft/src/engine/log_id_list.rs:218-224 | the list stands for one more log id |
| `LogIdLists.LogIdList.ExtendFromSameLeader` | openraft/src/engine/log_id_list.rs:182-200 | it stands for all the log ids though only first and last are looked at |
| `LogIdLists.LogIdList.Truncate` | openraft/src/engine/log_id_list.rs:233-271 | it stands for the log ids before the cut, wherever the cut falls |
| `LogIdLists.LogIdList.Purge` | openraft/src/engine/log_id_list.rs:278-309 | it stands for the log ids after the purged one, which may lie before, within or beyond |
| `LogIdLists.LogIdList.Get` | openraft/src/engine/log_id_list.rs:353-392 | the log id at an index, the purge boundary included, or none |
| `LogIdLists.LogIdList.GetAtOrBefore` | openraft/src/engine/log_id_list.rs:321-343 | the greatest known log id of a leader at or before an index, or none exactly if there is none |
| `LogIdLists.LogIdList.First` | openraft/src/engine/log_id_list.rs:398-402 | the first log id after the purged ones |
| `LogIdLists.LogIdList.Last` | openraft/src/engine/log_id_list.rs:405-407 | the last log id, else the purge boundary |
| `LogIdLists.LogIdList.ByLastLeader` | openraft/src/engine/log_id_list.rs:434-454 | first and last of exactly the log ids of the last leader |
| `LogIdLists.PushSummarises` | openraft/src/engine/log_id_list.rs:56-73 | replacing the last key of the same leader keeps one key per leader |
| `LogIdLists.LookupIs` | openraft/src/engine/log_id_list.rs:365-391 | the first key at or beyond an index tells the leader there |
| `LogDisks.LogDisk.constructor` | tests-turmoil/src/store.rs:71-94 | an empty disk |
| `LogDisks.LogDisk.CloneOf` | tests-turmoil/src/store.rs:220-234 | a copy with the same contents |
| `LogDisks.LogDisk.Apply` | tests-turmoil/src/store.rs:96-117 | one write applied in place |
| `LogDisks.ReadableExactlyWhenWrittenLast` | tests-turmoil/src/store.rs:96-117 | an entry is found at an index exactly if it was written there and not overwritten, truncated or purged since |
| `LogDisks.MarksAreLastWritten` | tests-turmoil/src/store.rs:96-117 | vote, commit mark and purge mark are those last written |
| `StorageContract.ReportedStaysDurable` | tests-turmoil/src/storage_model.rs:15-21 | under the contract a reported write and all before it stay durable, in place |
| `StorageContract.DurablePrefixGrows` | tests-turmoil/src/storage_model.rs:15-21 | the durable prefix never shrinks or changes |
| `LogStores.LogStore.constructor` | tests-turmoil/src/store.rs:172-190 | two empty copies and no flush task |
| `LogStores.LogStore.Submit` | tests-turmoil/src/store.rs:237-256 | the write is readable at once, durable at once or queued, and starts a flush task if none runs |
| `LogStores.LogStore.Crash` | tests-turmoil/src/store.rs:220-234 | both copies hold what survives and the epoch moves on |
| `LogStores.LogStore.StartRound` | tests-turmoil/src/store.rs:260-274 | a round covers the writes queued when it starts |
| `LogStores.LogStore.FinishRound` | tests-turmoil/src/store.rs:274-306 | the round's writes become durable in order and their waiters are told, unless a crash came first |
| `LogStoreRuns.StoreRefinesContract` | tests-turmoil/src/store.rs:220-306 | every run of the store is a run of the storage contract |
| `LogStoreRuns.AcknowledgedMeansDurableForever` | tests-turmoil/src/store.rs:128-145 | a write whose vote call returned or callback fired stays on disk with every write before it, whatever follows |
| `LogStoreRuns.SingleFlusherAlways` | tests-turmoil/src/store.rs:237-306 | a task of the current epoch exists exactly while the queue is non-empty, never two, and no round finds the queue short |
| `LogStoreRuns.StaleTaskChangesNothing` | tests-turmoil/src/store.rs:260-306 | a flush task from before a crash might as well not run: however often it wakes and whatever else happens, copies, queue, notices, delayed callbacks and other tasks are as without it |
| `LogStoreRuns.FlushMakesProgress` | tests-turmoil/src/store.rs:260-306 | when the live task wakes unpaused, writes wait and it takes at least the oldest off the queue |
| `LogStoreRuns.DisksHoldPrefixes` | tests-turmoil/src/store.rs:220-306 | readers see the surviving writes in order, the durable copy a prefix of them |
| `LogStoreRuns.CrashKeepsPrefix` | tests-turmoil/src/store.rs:220-234 | a power loss keeps exactly the durable prefix, a process crash everything |
| `LogStoreRuns.HistoryIsSubmitted` | tests-turmoil/src/store.rs:237-256 | surviving writes are submitted writes, once each and in order |
| `LogStoreRuns.NothingSkippedBetweenCrashes` | tests-turmoil/src/store.rs:237-256 | between crashes every submission is kept |
| `LogStoreRuns.NoPowerLossLosesNothing` | tests-turmoil/src/store.rs:220-234 | without power loss nothing is ever lost |
| `ClientHistories.ClientHistory.constructor` | tests-turmoil/src/oracle.rs:258-279 | an oracle that knows nothing |
| `ClientHistories.ClientHistory.RecordWriteAttempt` | tests-turmoil/src/oracle.rs:281-294 | the attempt is known under its serial |
| `ClientHistories.ClientHistory.RecordWriteAcked` | tests-turmoil/src/oracle.rs:296-310 | the ack is resolved, its predecessor checked, the highest ack raised |
| `ClientHistories.ClientHistory.RecordWriteFailed` | tests-turmoil/src/oracle.rs:313-321 | a failed write stays possible |
| `ClientHistories.ClientHistory.RecordRead` | tests-turmoil/src/oracle.rs:348-415 | the read is checked against attempts, floor, earlier reads and barrier |
| `ClientHistories.ClientHistory.CheckFinalDurability` | tests-turmoil/src/oracle.rs:425-462 | every member is checked against the acks, the reads and the attempts |
| `ClientHistories.ClientHistory.ResolveWrite` | tests-turmoil/src/oracle.rs:476-521 | serial and log id are pinned to each other and to no other |
| `ClientHistories.ClientHistory.CheckPrevChain` | tests-turmoil/src/oracle.rs:523-554 | the predecessor is checked against the known writes of the key |
| `ClientHistories.ClientHistory.RaiseAbsenceFloor` | tests-turmoil/src/oracle.rs:558-563 | the point below which a key is absent only rises |
| `ClientHistories.ClientHistory.CheckValueIsAttempted` | tests-turmoil/src/oracle.rs:571-583 | a value that its serial did not attempt is reported |
| `ClientHistories.ClientHistory.DrainViolations` | tests-turmoil/src/oracle.rs:566-568 | the reports are handed over once |
| `OracleDetection.ContradictionsExactlyReported` | tests-turmoil/src/oracle.rs:476-563 | duplicate applies, divergent entries and writes below an absence are reported exactly when the evidence shows them, in whichever order it came |
| `OracleDetection.RunIsExact` | tests-turmoil/src/oracle.rs:397-415 | the oracle's maps summarise all claims of the calls exactly |
| `OracleDetection.AttemptsKnown` | tests-turmoil/src/oracle.rs:281-294 | exactly the attempted serials are known, under their keys |
| `OracleDurability.CleanRunMeansDurable` | tests-turmoil/src/oracle.rs:425-462 | with no report, every member holds every key at or above each ack and each read |
| `OracleDurability.LossesExactlyReported` | tests-turmoil/src/oracle.rs:425-462 | the first final check reports a loss exactly when a member is below an ack and, if no regression was reported, below a read |
| `OracleDurability.StaleExactlyWhenAckMissed` | tests-turmoil/src/oracle.rs:324-326 | a read is stale exactly when it misses a write acked before it began |
| `OracleDurability.RegressionExactlyWhenReadMissed` | tests-turmoil/src/oracle.rs:362-395 | the first regression is reported exactly when a read misses an earlier read |
| `OracleDurability.RegressionExactlyWhenBelowLatest` | tests-turmoil/src/oracle.rs:362-395 | whatever was reported before, a read is reported as a regression exactly when it is below the latest earlier read of its key that found a value |
| `OracleDurability.SomeMissedReadIsSilent` | tests-turmoil/src/oracle.rs:393-395 | after a regression a read may miss an earlier read and not be reported: reads of 5, 3 and 4 |
| `OracleDurability.LostReadsExactlyReported` | tests-turmoil/src/oracle.rs:425-462 | the first final check reports a lost read exactly when a member is below the latest read of some key |
| `OracleDurability.PhantomsExactlyReported` | tests-turmoil/src/oracle.rs:571-583 | phantoms are reported exactly when a call saw a value not attempted |
| `OracleDurability.MaximaKnown` | tests-turmoil/src/oracle.rs:296-310 | the highest ack per key is the maximum over the history, and so is the last read unless a regression was reported |
| `OracleSoundness.ConsistentRunsRaiseNoAlarm` | tests-turmoil/src/oracle.rs:281-592 | a run that one committed log explains raises no alarm, whatever the order of calls |
| `OracleSoundness.PredecessorExactlyChecked` | tests-turmoil/src/oracle.rs:523-554 | a predecessor is reported exactly when it is not below its successor or a known write lies between |
| `OracleSoundness.BelowAfter` | tests-turmoil/src/oracle.rs:586-592 | no log id lies between a log id and its successor |
| `EntryHistories.EntryHistory.constructor` | tests-turmoil/src/entry_history.rs:10-16 | an empty history |
| `EntryHistories.EntryHistory.Record` | tests-turmoil/src/entry_history.rs:18-39 | one append taken into account |
| `EntryHistories.ReuseExactlyReported` | tests-turmoil/src/entry_history.rs:18-39 | reuse of a log id is reported exactly when the appends since a second node wrote it are not all of one entry |
| `EntryHistories.NoReportMeansNodesAgree` | tests-turmoil/src/entry_history.rs:18-39 | without a report the latest entries of all nodes under a log id agree |
| `WatchChannel.Channel.constructor` | rt-sim/src/watch.rs:98-114 | a channel with one sender and one receiver |
| `WatchChannel.Channel.CloneSender` | rt-sim/src/watch.rs:119-124 | one more sender |
| `WatchChannel.Channel.DropSender` | rt-sim/src/watch.rs:128-138 | one fewer, and whether it was the last |
| `WatchChannel.Channel.AddReceiver` | rt-sim/src/watch.rs:178-196 | one more receiver |
| `WatchChannel.Channel.DropReceiver` | rt-sim/src/watch.rs:199-202 | one fewer |
| `WatchChannel.Channel.Write` | rt-sim/src/watch.rs:143-153 | the value is set under a new version; that nobody may listen is checked in an earlier lock section, a step of its own in `WatchRuns` |
| `WatchChannel.Channel.WriteIfModified` | rt-sim/src/watch.rs:156-170 | the version moves exactly if the value was modified |
| `WatchChannel.Channel.TakeQueue` | rt-sim/src/watch.rs:61-66 | the whole queue is taken |
| `WatchChannel.Channel.Register` | rt-sim/src/watch.rs:245-289 | a waiter is queued last or keeps its place with a new waker |
| `WatchChannel.Channel.Deregister` | rt-sim/src/watch.rs:235-243 | the waiter leaves and the others keep their order |
| `WatchRuns.NoLostWakeup` | rt-sim/src/watch.rs:245-289 | a parked future with news has been woken, or a notifier is on its way to it, on every interleaving of lock sections |
| `WatchRuns.QuietMeansEveryoneWoken` | rt-sim/src/watch.rs:61-66 | once no notifier is in flight nobody with news is asleep |
| `WatchRuns.OkRaisesSeen` | rt-sim/src/watch.rs:245-289 | each success raises the seen version to the current one |
| `WatchRuns.ErrorMeansEverythingSeen` | rt-sim/src/watch.rs:245-289 | an error means every version there will ever be was seen |
| `WatchRuns.ClosedForever` | rt-sim/src/watch.rs:127-138 | without senders the version never moves again |
| `WatchRuns.WaitersKeepOrder` | rt-sim/src/watch.rs:245-289 | queued waiters keep their order however often they are polled |
| `WatchRuns.QueueNeverRepeats` | rt-sim/src/watch.rs:235-289 | no waiter is queued twice |
| `WatchRuns.JoinsLastOrKeepsPlace` | rt-sim/src/watch.rs:245-289 | in every run a new waiter joins last, a queued one keeps its place |
| `WatchRuns.WakesInQueueOrder` | rt-sim/src/watch.rs:61-66 | a notifier about to wake a waiter has woken everyone before it in the queue it took, on every interleaving |
| `WatchRuns.FirstRegisteredFirstWoken` | rt-sim/src/watch.rs:61-66 | of two waiters that stay queued until a notifier takes the queue, it wakes the one that registered first before the other |
| `Executors.Executor.constructor` | rt-sim/src/executor/state.rs:41-56 | the clock stands at the epoch, nothing is queued |
| `Executors.Executor.Enqueue` | rt-sim/src/executor/state.rs:73-80 | a task is queued last unless it is queued |
| `Executors.Executor.Wake` | rt-sim/src/executor/state.rs:82-94 | a task that is gone is not woken |
| `Executors.Executor.PopRunnable` | rt-sim/src/executor/state.rs:96-98 | the first runnable task |
| `Executors.Executor.BeginPoll` | rt-sim/src/executor/state.rs:100-111 | polls without the clock moving are counted and limited |
| `Executors.Executor.StartPoll` | rt-sim/src/executor.rs:66-106 | the first runnable task is taken and polled, unless it is gone or already out |
| `Executors.Executor.EndPoll` | rt-sim/src/executor.rs:108-127 | a finished task is gone, a pending one back in its slot |
| `Executors.Executor.NewTimerSeq` | rt-sim/src/executor/state.rs:114-118 | a number no timer had |
| `Executors.Executor.SetTimer` | rt-sim/src/executor/state.rs:121-126 | the timer wakes the given task |
| `Executors.Executor.CancelTimer` | rt-sim/src/executor/state.rs:129-133 | the timer is gone |
| `Executors.Executor.Spawn` | rt-sim/src/executor/shared.rs:65-73 | a new task, runnable |
| `Executors.Executor.TakeDue` | rt-sim/src/executor.rs:143-154 | exactly the due timers are removed, and whom they wake, in order |
| `Executors.Executor.FireNextTimers` | rt-sim/src/executor.rs:131-160 | the clock moves to the earliest timer and everyone due is woken in order |
| `Executors.SimSleep.Create` | rt-sim/src/sleep.rs:27-35 | a sleep with a number of its own |
| `Executors.SimSleep.Poll` | rt-sim/src/sleep.rs:41-57 | ready once the clock is there, else the timer is set |
| `Executors.SimSleep.Drop` | rt-sim/src/sleep.rs:61-66 | the timer is cancelled |
| `Executors.DueKeysExact` | rt-sim/src/executor.rs:145-153 | the timers due, each once, in firing order |
| `ExecutorRuns.TimersFireInOrder` | rt-sim/src/executor.rs:131-160 | over a whole run timers fire in increasing order of deadline and creation, each at its deadline |
| `ExecutorRuns.SleepsFireExactlyWhenDue` | rt-sim/src/sleep.rs:41-66 | a polled, undropped sleep has its timer, for its latest waker, until its deadline, and then has fired; no other timer is pending |
| `ExecutorRuns.ClockMovesOnlyWhenIdle` | rt-sim/src/executor.rs:66-92 | the clock moves only forward, only when nothing is runnable, to the earliest deadline, and all tasks due are then runnable |
| `ExecutorRuns.FirstComeFirstPolled` | rt-sim/src/executor.rs:66-92 | a runnable task waits only for those queued before it |
| `SplitMix.MixInverts` | rt/src/deterministic_rng.rs:50-55 | each gamma's mixer has an explicit two-sided inverse |
| `SplitMix.MixIsBijective` | rt/src/deterministic_rng.rs:44-55 | the mixer is a bijection on 64-bit words, and no two gammas agree on a seed |
| `SplitMix.ForkDiverges` | rt/src/deterministic_rng.rs:58-65 | child seeds are equal exactly if the parents' were, and differ from the seed the parent goes on with |
| `SplitMix.KnownValue` | rt/src/deterministic_rng.rs:50-60 | the mixer is SplitMix64: its published first output |
| `SplitMix.DrawSeedsDiffer` | rt-sim/src/executor/state.rs:136-141 | no two draws of a runtime share a seed, nor one draw of two runtimes |
| `TaskSeeds.SeedCell.constructor` | rt/src/task_local.rs:116-124 | a slot with a value |
| `TaskSeeds.SeedCell.Swap` | rt/src/task_local.rs:147-185 | cell and slot trade values on entering and leaving |
| `TaskSeeds.SeedCell.TakeAndAdvance` | rt/src/deterministic_rng.rs:68-74 | the seed is handed out and advanced |
| `TaskSeeds.SeedCell.SpawnSeed` | rt/src/deterministic_rng.rs:129-136 | the child's seed is derived from the one taken |
| `TaskSeeds.SeedsIgnoreTheSchedule` | rt/src/deterministic_rng.rs:68-74 | the n-th seed a scope takes is its origin's seed advanced n times, on any threads and any interleaving of polls and nested scopes |
| `TaskSeeds.AnyTwoSchedulesDrawAlike` | rt/src/deterministic_rng.rs:8-17 | in any two runs with the same given seeds in which each scope draws and spawns in the same order, each scope takes the same seeds |
| `TaskSeeds.SeedsAreRestored` | rt/src/task_local.rs:307-327 | between polls cells are empty and a scope holds the seed its stream goes on with, so a later `block_on` continues it |
| `TaskSeeds.SameSpawnsSameSeeds` | rt/src/deterministic_rng.rs:8-17 | tasks at the same place of two spawn trees have equal seeds exactly if the roots do |
| `SimLogs.MaskWallClock` | rt-sim/src/sim_log.rs:94-128 | the scanning loop computes the recursive definition; its slices require character boundaries |
| `SimLogs.MaskingIsFinal` | rt-sim/src/sim_log.rs:94-128 | a masked line shows no time anywhere, masking is idempotent, and a line changes exactly if it shows a time |
| `SimLogs.LeftmostTimeMasked` | rt-sim/src/sim_log.rs:112-127 | the leftmost time is replaced, a full rendering as a whole |
| `SimLogs.MaskedIsUtf8` | rt-sim/src/sim_log.rs:121-127 | masking keeps UTF-8 valid |
| `SimLogs.MaskedTimesDoNotShow` | rt-sim/src/sim_log.rs:94-128 | lines that differ only in their times, each in the same format, mask to the same text |
| `Crc64.CheckValue` | examples/dir-transfer/src/frame.rs:118-123 | the published check value of CRC-64/XZ |
| `Crc64.UpdateInParts` | examples/dir-transfer/src/frame.rs:125-129 | hashing in parts equals hashing at once |
| `DirWriters.DirWriter.constructor` | examples/dir-transfer/src/writer.rs:70-79 | a writer over an empty directory |
| `DirWriters.DirWriter.WriteFrame` | examples/dir-transfer/src/writer.rs:82-100 | one frame applied or refused for good |
| `DirWriters.DirWriter.Finish` | examples/dir-transfer/src/writer.rs:103-111 | success exactly after a complete stream, if the directory can be synced |
| `DirWriters.DirWriter.AcceptManifest` | examples/dir-transfer/src/writer.rs:114-132 | accepted exactly if the version fits and all names are valid and distinct |
| `DirWriters.DirWriter.StartFile` | examples/dir-transfer/src/writer.rs:144-159 | the next file of the manifest is created empty |
| `DirWriters.DirWriter.WriteChunk` | examples/dir-transfer/src/writer.rs:162-185 | a chunk of allowed size within the file's size is appended |
| `DirWriters.DirWriter.FinishFile` | examples/dir-transfer/src/writer.rs:188-207 | size and checksum must agree |
| `DirWriterRuns.AcceptsExactlyTheStreams` | examples/dir-transfer/src/writer.rs:82-207 | a frame sequence completes exactly if it is a valid stream and the disk works; the directory then holds exactly the manifest's files with their joined chunks |
| `DirWriterRuns.RefusalIsFinal` | examples/dir-transfer/src/writer.rs:82-100 | after a refusal nothing is accepted or changed |
| `DirFrames.ContentsAt` | examples/dir-transfer/src/frame.rs:45-75 | each file of a stream holds its own chunks |
| `DirFrames.ContentsOnly` | examples/dir-transfer/src/frame.rs:45-75 | a stream describes no file but the manifest's |
| `FrameProducers.ReadChunk` | examples/dir-transfer/src/frame_producer.rs:167-179 | whatever parts the reads return, the next window of the file |
| `FrameProducers.SortByName` | examples/dir-transfer/src/frame_producer.rs:77-77 | the same entries in name order |
| `FrameProducers.DirFrameProducer.New` | examples/dir-transfer/src/frame_producer.rs:52-88 | a producer exactly if the chunk size and every entry are allowed |
| `FrameProducers.DirFrameProducer.NextFrame` | examples/dir-transfer/src/frame_producer.rs:91-123 | the next frame, the end, or a lasting failure |
| `FrameProducers.DirFrameProducer.NextFileFrame` | examples/dir-transfer/src/frame_producer.rs:135-163 | the next chunk or the end of the file, unless its size drifted |
| `DirTransfers.DriftNeverCompletes` | examples/dir-transfer/src/frame_producer.rs:91-163 | however the directory changes between calls, every frame sent is accepted, and a complete stream was sent exactly if the producer finished |
| `DirTransfers.SucceedsExactlyWhenSizesHold` | examples/dir-transfer/src/frame_producer.rs:135-163 | a session over a still directory succeeds exactly if every listed file is there at its listed size |
| `DirTransfers.TransferCopiesDirectory` | examples/dir-transfer/src/transport.rs:30-52 | for every directory, listing order and chunk size, the receiver completes with the same directory |
| `DirTransfers.EnumerationOrderDoesNotMatter` | examples/dir-transfer/src/frame_producer.rs:59-77 | any two listings of a directory give the same producer |
| `DirTransfers.ChunksAreCutEvenly` | examples/dir-transfer/src/frame_producer.rs:167-179 | only a file's last chunk is shorter than the chunk size, and none is empty |
| `DirTransfers.FramesRunOut` | examples/dir-transfer/src/frame_producer.rs:91-163 | every frame lowers a bound on the frames to come, whatever the directory does |
| `DirTransports.QueueTransport.constructor` | examples/dir-transfer/src/transport.rs:72-76 | a transport with frames in it |
| `DirTransports.QueueTransport.SendFrame` | examples/dir-transfer/src/transport.rs:78-106 | the frame is queued last unless the peer is gone |
| `DirTransports.QueueTransport.RecvFrame` | examples/dir-transfer/src/transport.rs:85-91 | the first frame, if any |
| `DirTransports.SendDir` | examples/dir-transfer/src/transport.rs:30-36 | the producer's frames are sent in order as far as the transport takes them; success exactly if all were |
| `DirTransports.RecvDir` | examples/dir-transfer/src/transport.rs:42-52 | frames are taken until the end or the first refusal, and no further |
| `DirTransports.ReceivesExactlyOneStream` | examples/dir-transfer/src/transport.rs:38-52 | receiving succeeds exactly if the input begins with a valid stream, and takes exactly that stream |
| `DirTransports.SessionRoundTrip` | examples/dir-transfer/src/transport.rs:30-52 | over a transport with later traffic, the receiver rebuilds the directory and leaves the rest |
| `VariantNames.BuildAll` | macros/src/variant_name.rs:98-102 | for every nesting the table holds at each index the value with that index, and each slot is written exactly once after the filler |
| `VariantNames.FillNested` | macros/src/variant_name.rs:46-55 | the slots of a wrapping variant |
| `VariantNames.IndexAndAllAreInverse` | macros/src/variant_name.rs:82-88 | every value stands in the table at its index, and no value stands there twice |
| `VariantNames.IndexInSlots` | macros/src/variant_name.rs:36-63 | a value's index lies within its variant's slots |

## Left out

- Membership changes: the quorums of a cluster are fixed. Any quorums that meet each other as demanded are covered, and joint majorities are shown to be such; the change from one membership to another is not modelled.
- The partially ordered leader id of standard Raft, leases, pre-votes, and linearizable reads. Of leadership transfer only its timeout is modelled, as a leader that campaigns again.
- `RaftSafety.RunIsSafe`, and with it the theorems about runs: speak of runs in which every restart meets `RaftStorage.Agrees`, because otherwise they are false of the code. A restart that startup refuses is a run in which the node takes no more steps.
- The reply to a snapshot is sent when it is accepted, maybe before it is installed; the source sends it no earlier. A purge is written once the state machine has the snapshot.
- `RaftEngine.Engine.Initialize`: its entry is on disk at once, because the election that follows saves a vote after it. The checks of the membership given are left out, because memberships are not modelled.
- `RaftEngine.Engine.HandleVoteReq`: does not model the test of an unexpired lease of a leader, by which the source refuses more votes.
- `RaftEngine.Engine.UpdateVote`: does not build leader state when a node's own committed vote reaches it from outside (openraft/src/engine/handler/vote_handler/mod.rs:177-235), because in the cluster model no request of a leader is delivered to that leader.
- `RaftEngine.Engine.Elect`: the test that a leader does not campaign is a guard in `RaftCluster.Step` and not in the method.
- `RaftEngine.Engine.TryCommitQuorumAccepted`: takes any log id a write quorum confirmed, where the source takes the greatest, computed from its progress list.
- Purging: a log in the Raft model includes the entries that a snapshot stands for. `LogIdLists` models purging by itself.
- Recovery from storage that went back in time, the progress search with conflict hints, and metrics.
- 64-bit overflow of indexes, terms, serials, clocks and sizes: numbers are unbounded.
- `LogIdLists.LogIdList.Append`: requires the next index and a leader not below the last. The source asserts only, in debug builds, that the log id is greater than the last; with a gap the list would name log ids that were never appended.
- `LogIdLists.LogIdList.ExtendFromSameLeader`: takes a leader and a count instead of log ids, which the source requires to be continuous.
- `LogIdLists.LogIdList.Purge`: requires that a purged log id within the list is the one the list holds at its index, which the source does not check.
- `LogStores.LogStore.FinishRound`: the code between two awaits is one step, so a submit from another thread between a round and the task's last look at the queue is not modelled.
- Random delays of the log store are parameters; its state machine, snapshots and statistics counters are not modelled.
- `OracleDurability.RegressionExactlyWhenReadMissed`: holds up to the first report, because the oracle then takes the older read as its new mark. `RegressionExactlyWhenBelowLatest` has no such limit.
- `OracleDurability.LossesExactlyReported`: speaks of the first final check, and of all earlier reads only up to the first regression; `LostReadsExactlyReported` speaks of the latest reads without that limit.
- The turmoil network, the fuzz driver and the invariant checks over whole clusters.
- The simulator's traces, join handles, timeouts and panics; wakers are those of tasks.
- Whether the file system tells apart names that the protocol tells apart.
- `DirWriters.DirWriter.WriteFrame`: a failing disk operation leaves a prefix of its bytes, or a file created or not; other damage is not modelled.
- Generated `as_str` and `Display` of name enums, and the parsing of the derive input.
- The Tokio, Monoio and Compio runtimes, HTTP, multi-Raft, and stores over other libraries.
