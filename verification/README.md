# Promtact in Dafny

A Dafny model of the parts of Promtact whose correctness is an argument about every run, and
proofs of those arguments. Where the Go code works by updating an object, the model has an
object whose methods are proved equal to functions on values; the theorems are about those
functions. Where a claim turned out not to hold of the code, there is a lemma with a failing
run or input and a lemma with the exact condition under which it holds; for repeated ids in a
voter list there is only the failing input and a condition that is enough.

## What is modelled

**Raft** (`Masks`, `RaftTypes`, `RaftDisk`, `RaftNode`, `RaftNodeClass`, `RaftHistory`,
`RaftExtend`, `RaftFixed`, `RaftSteps`, `RaftElect`, `RaftReplicate`, `RaftCluster`,
`RaftBarrier`, `RaftDurable`, `RaftSim`, `RaftInstall`, `RaftAdopt`, `RaftCompaction`, `RaftSafety`,
`RaftMembership`, `RaftJoint`, `RaftFailures`). The whole node of `raft/node.go` and
`raft/recover.go`: pre-vote, elections, one-entry replication, the current-term commit rule,
joint quorums, read barriers, leadership transfer, snapshots and fail-stop storage. A write to
the store may succeed, fail, or reach the medium and still be reported as failed; after a
reported failure the store remembers what it did before, whatever the medium holds. The cluster
is a map of nodes and the set of every message ever sent, so loss, delay, duplication and
reordering need no steps of their own; a restart keeps only what is durable. Whole-run safety
is proved for a fixed voter set, with compaction and snapshots: beside the cluster moves one of
whole logs, for which the Raft invariant is proved, and each node stays alike its partner there.
The durability results hold for every call, membership changes included. `RaftFailures` holds the runs that break
what the code's own rules suggest, each from a new node by calls alone.

**Durability** (`Bytes`, `WalFormat`, `Wal`, `RaftWal`, `RaftStore`, `RaftBuffer`). The 112-byte record, the
log over a device that loses or tears whatever was not synced, the replay of records into a
hard state, base and log, and the two-step snapshot and fence protocol. CRC32C is an
uninterpreted function of the bytes it covers. The snapshot file is a cell replaced as a whole.

**Paxos** (`Paxos`, `PaxosSafety`, `PaxosChosen`). The node of `examples/paxos`, for any
cluster size and any run, and the counting definition of "chosen".

**The scheduler** (`Schedule`, `ScheduleRuns`, `Heap`, `Engine`). The heap engine and the
linear-scan simulator over one protocol-independent meaning: a list sorted by due time and
sequence number. The protocol is a set of deterministic functions on an arbitrary cluster
state; the random source is a function from state and bound to value and state.

**The state machine** (`StateMachine`, `MachineCodec`). Deduplicated application of entries and
the canonical snapshot.

## How to read the model

- A `uint64` is a natural number. `WalFormat` and `Wal` bound the fields and let sequence
  numbers wrap, and `RaftWal` also models the wrap of `base + len(data)` at the highest index;
  elsewhere no bound is modelled. Bit masks are the naturals with those binary
  digits, and each mask operation is proved to be the set operation it stands for.
- The Go struct's fields are the fields of one record held by the object, because a method's
  contract then speaks of one value. Lists and maps are `seq` and `map` fields of it.
- A queued Raft message carries the durable state at the moment it was queued. That is what
  "persisted before promised" is about; the source has no such field.
- `Step(fuel)` of the schedulers stops after `fuel` deliveries and says whether it finished,
  because zero delays allow endless cascades. More fuel never changes a step that finished.
- `Disk` keeps the medium and the store's memory apart. Calls consult the memory; a restart
  reads the medium. The medium of a WAL is the replay of its records, up to the first one that
  cannot be replayed.
- `Compact` does not look at the fault flag, so a node that already fail-stopped can still
  write, from a memory that its medium may have left behind. Such a call can leave a medium
  that no longer fits together: `Tears` says exactly when. The durability theorems take a
  claim `c`; with `c.whole` they also speak of that fit and exclude the tear, without it they
  hold for every call.
- A record whose sync failed stays in the device's buffer and may be stored later.
  `RaftBuffer` shows that such a write can be counted as lost or as kept, so that runs need no
  fourth outcome.
- `StartReadIndex` contexts are unique in a run, as the comment at `raft/node.go:286-287` asks.
- `storage/raftwal` reserves index 0 and the two highest indexes but accepts an append there.
  Such an append is not `Faithful`: replay loses it. Every other operation replays.

## Model

The contract of a method of an object equates the new state with a function of the old one.
A method has a row when it refines a loop, or when its contract says more than that equation;
the others are covered by the rows of lemmas about the functions.

| member | source | states |
|---|---|---|
| Masks.BitsSet | raft/node.go:760-767 | The bit-clearing loop returns the number of ids in the mask. |
| Masks.ClearingLowestRemovesOne | raft/node.go:760-767 | `mask &= mask - 1` removes exactly one id. |
| Masks.RecordingAddsSender | raft/node.go:781-786 | Setting a node's bit adds exactly that id. |
| Masks.TestingIsMembership | raft/node.go:775-779 | A mask meets a node's bit iff the id is in the set. |
| Masks.IdsDetermineMask | raft/node.go:781-786 | A mask is determined by the ids it holds. |
| Masks.MajorityMask | raft/node.go:756-758 | True iff the acknowledged ids hold a strict majority of a non-empty voter set. |
| Masks.VoterMask | raft/node.go:467-480 | Accepts a list iff it is non-empty and has no repetition, and then the mask holds exactly its ids. |
| Masks.ListMajority | raft/membership.go:23-34 | The counting loop over a list decides the list majority. |
| Masks.ListAndMaskMajorityAgree | raft/membership.go:12-34 | For distinct ids the list majority and the mask majority are the same. |
| Masks.RepeatedIdsBreakTheAgreement | raft/membership.go:23-34 | With a repeated id they differ: one id of two counts as a majority of the list. |
| Masks.MajoritiesIntersect | raft/node.go:756-758 | Two majorities of one voter set share an id. |
| Masks.AdjacentQuorumsIntersect | raft/node.go:743-773 | Quorums of the same or adjacent configurations (old, joint, new) share an id. |
| Masks.OldAndNewQuorumsMayMiss | raft/node.go:743-773 | Without the joint phase, disjoint quorums exist. |
| RaftMembership.CommitPastJointNeedsBoth | raft/node.go:436-460 | With one pending change, the commit scan passes a joint entry only if the ids holding the new commit index are majorities of both sets. |
| RaftMembership.SelfCommitPastJointNeedsBoth | raft/node.go:515-531 | The immediate commit of a local append obeys the same rule. |
| RaftMembership.CommitUnderJointNeedsBoth | raft/node.go:743-755 | After the joint entry is committed, everything up to and including the final entry still needs both majorities. |
| RaftMembership.SecondJointHidesFirst | raft/node.go:743-755 | With two joint entries pending, exactly the second one's voters decide. |
| RaftMembership.AckedMembers | raft/node.go:440-446 | The ids counted for an index are the leader and the peers whose match reaches it. |
| RaftJoint.EveryCommitHasBothMajorities | raft/node.go:436-460 | Over every run with failures and restarts: a call by which the node itself moves its commit index past one joint entry leaves it knowing holders that are majorities of both sets. |
| RaftNodeClass.Blank | raft/node.go:42-62 | The loop over ids gives a fresh node whose voters are its own id and its peers. |
| RaftNodeClass.RaftNode.constructor | raft/node.go:42-62 | A new node. |
| RaftNodeClass.RaftNode.Recovered | raft/recover.go:5-32 | The node rebuilt from a hard state and a log, stopped if a check fails. |
| RaftNodeClass.RaftNode.RecoveredWithSnapshot | raft/recover.go:36-69 | The node rebuilt from a snapshot and the WAL suffix, stopped if a check fails. |
| RaftNodeClass.RaftNode.RestoreConfigurationState | raft/node.go:677-718 | The scan over recovered entries agrees with its recursive meaning, including the refusals. |
| RaftNodeClass.RaftNode.VotersUpTo | raft/node.go:732-755 | The last joint entry of the range decides the voters. |
| RaftNodeClass.RaftNode.QuorumMask | raft/node.go:769-773 | True iff the mask is a quorum under the effective voters. |
| RaftNodeClass.RaftNode.IsVoter | raft/node.go:775-779 | True iff the id is in the old or the new effective voters. |
| RaftNodeClass.RaftNode.CanCommitIndex | raft/node.go:743-755 | True iff the mask is a quorum of the voters in force at the index. |
| RaftNodeClass.RaftNode.EnsurePeers | raft/node.go:533-548 | Adds exactly the missing members of the mask, with fresh progress. |
| RaftNodeClass.RaftNode.ApplyCommittedConfigurations | raft/node.go:550-570 | Applies every configuration entry between the two commit indexes, in order. |
| RaftNodeClass.RaftNode.RebuildPendingConfig | raft/node.go:719-730 | After a truncation the pending change is the last one left above the commit index. |
| RaftNodeClass.RaftNode.PersistHard | raft/node.go:787-793 | On success nothing but the store changed, and a store in step with its medium holds this hard state and is still in step; on failure the node is stopped with an empty queue and its term, vote, log and commit index as before. |
| RaftNodeClass.RaftNode.BroadcastAppend | raft/node.go:609-615 | One append to each peer that is a voter. |
| RaftNodeClass.RaftNode.AppendLocal | raft/node.go:515-531 | On success the entry is the last of the log and the last of the durable log, and the stored ballot is kept; on failure the node is stopped with an empty queue. |
| RaftNodeClass.RaftNode.AckedMask | raft/node.go:440-446 | The mask of the leader and the peers that hold the index. |
| RaftNodeClass.RaftNode.AdvanceCommit | raft/node.go:436-460 | The scan from the last index down finds the highest committable index of the current term. |
| RaftNodeClass.RaftNode.BecomeLeader | raft/node.go:597-607 | Appends the no-op, resets all progress, broadcasts. |
| RaftNodeClass.RaftNode.StartElection | raft/node.go:144-160 | A node still running has the next term and its own vote in memory and in the store; a node that stopped has nothing queued. |
| RaftNodeClass.RaftNode.OnPreVote | raft/node.go:326-334 | Changes nothing but the queue, answers once, and grants only a higher term to an up-to-date voter. |
| RaftNodeClass.RaftNode.OnVote | raft/node.go:335-348 | The vote changes only from none to the candidate; a queued grant means that vote is in the store and the candidate is up to date. |
| RaftNodeClass.RaftNode.TakeCommit | raft/node.go:393-405 | The commit index becomes the larger of itself and the smaller of the sent and the acknowledged index, and is stored when it moves. |
| RaftNodeClass.RaftNode.Compact | raft/node.go:209-235 | Snapshot, then fence, then the in-memory cut; true iff the base moved up to the index. |
| RaftNodeClass.RaftNode.Propose | raft/node.go:571-581 | Accepted iff the node led, was running and still is. |
| RaftNodeClass.RaftNode.ProposeRequest | raft/node.go:583-595 | Accepted iff the request is well formed and the node led, was running and still is. |
| RaftNodeClass.RaftNode.ProposeJoint | raft/node.go:484-498 | Accepted iff the list is non-empty without repetition, the node leads a simple configuration with nothing pending, and the write succeeded; the mask proposed holds exactly the list. |
| RaftNodeClass.RaftNode.ProposeFinal | raft/node.go:502-513 | Accepted iff the node leads a joint configuration with nothing pending and the write succeeded. |
| RaftNodeClass.RaftNode.StartReadIndex | raft/node.go:288-302 | Started iff the leader has committed in its term or is alone. |
| RaftNodeClass.RaftNode.TransferLeadership | raft/node.go:314-325 | TimeoutNow is queued iff the node leads and the target is another, caught-up voter. |
| RaftNodeClass.RaftNode.Drain | raft/node.go:651-655 | Hands over the queue in order and empties it. |
| RaftNodeClass.RaftNode.ApplyEntries | raft/node.go:657-666 | Returns the newly committed ordinary entries in log order. |
| RaftElect.OnVoteOk | raft/node.go:335-348 | Answering a vote request keeps the cluster invariant. |
| RaftElect.StartElectionOk | raft/node.go:144-160 | Starting an election keeps it. |
| RaftElect.BecomeLeaderOk | raft/node.go:597-607 | Becoming leader with a majority of votes keeps it. |
| RaftElect.AppendLocalOk | raft/node.go:515-531 | A leader's own append keeps it. |
| RaftReplicate.OnAppendOk | raft/node.go:367-416 | Following a leader, with conflicts and failed writes, keeps it. |
| RaftReplicate.LeaderCommitOk | raft/node.go:436-460 | The commit scan keeps it: what it commits is held by a majority in the current term. |
| RaftReplicate.OnAppendResponseOk | raft/node.go:418-465 | Handling an acknowledgement keeps it. |
| RaftCluster.PerformOk | raft/node.go:112-205 | Every supported call, under every outcome of its writes, keeps it. |
| RaftCluster.RestartOk | raft/recover.go:5-32 | A restart from the durable state keeps it. |
| RaftHistory.OneWinnerPerTerm | raft/node.go:335-348 | Two majorities of durable votes in one term elect the same node. |
| RaftHistory.SameTermSamePrefix | raft/node.go:367-392 | Logs with the same term at an index agree up to it. |
| RaftHistory.LeaderCompleteness | raft/node.go:335-348 | An entry a majority acknowledged in its own term is in every later leader's log. |
| RaftBarrier.StepPreserves | raft/node.go:162-205 | Every step of a cluster of whole logs keeps the invariant and forgets nothing. |
| RaftSim.PerformAlike | raft/node.go:112-205 | Asked the same, a node with a compacted log and one with the whole log stay alike: same fields, logs and stores above the base, and the same messages but for a snapshot where the other sends an entry. |
| RaftInstall.CompactAlike | raft/node.go:209-235 | Compaction, with any outcome of its two writes, is invisible to the whole log: it stands still, or stops with the node. |
| RaftInstall.InstallAlike | raft/node.go:245-266 | Installing a snapshot, with any outcome of its two writes, is to the whole log the adoption of the prefix it stands for. |
| RaftInstall.RestartAlike | raft/recover.go:36-69 | A restart from snapshot and suffix and one from the whole log run on alike, also after an interrupted compaction or installation that opening completes. |
| RaftAdopt.AdoptingOk | raft/node.go:245-266 | Adopting the committed prefix of the term's leader keeps the cluster invariant: no vote, acknowledgement or committed entry is lost with what it replaces. |
| RaftCompaction.MoveOk | raft/node.go:162-266 | Every step of the compacting cluster, crash and restart included, has a partner step, and the invariant of both survives. |
| RaftSafety.ElectionSafety | dst/raftcluster/invariants.go:26-39 | Over whole runs with crashes, compaction and snapshots, two leaders of one term are the same node. |
| RaftSafety.LogMatching | raft/node.go:367-392 | In every reachable state, the same term at an index means the same entries from the later base up to it. |
| RaftSafety.CommittedPrefix | dst/raftcluster/invariants.go:57-77 | What any node ever committed at an index is what every node commits there, at any two moments: by term from the later base on, the whole entry above it. |
| RaftSafety.ReadBarrier | raft/node.go:288-310 | The index a read returns is at least every index any node had ever committed, in any state up to the start of the read, restarts and snapshots included. |
| RaftSafety.StoredCommitGrows | raft/node.go:787-793 | What a node committed in one state of a cluster run, its store holds in every later one. |
| RaftSafety.IndexesStayInRange | dst/raftcluster/invariants.go:43-53 | Base, applied, commit and last index of every node stay in this order. |
| RaftSafety.RestartsUnlessTorn | storage/raftstore/store.go:43-46 | A restart is refused iff the stored snapshot lies beyond the WAL, never for a running node; otherwise it does not fail-stop. |
| RaftFailures.TornInstallIsRefused | storage/raftstore/store.go:43-46 | The failing run: a snapshot beyond the log is stored, its save reported as failed, and the store cannot be opened again. |
| RaftDurable.PerformSound | raft/node.go:112-235 | Every call, with any message and any write failures, keeps memory and store in step. |
| RaftDurable.PerformSoundIff | raft/node.go:209-235 | The WAL stays replayable, not past the snapshot and with its term where it starts there, iff the call does not tear it: a condition on the node, its medium, the call and the write outcomes. |
| RaftFailures.FaultedCompactTearsTheBase | raft/node.go:209-235 | The failing runs: four calls from a new node, the last under any outcomes but a lost first write, after which the snapshot and the WAL base have different terms and opening does not repair it. |
| RaftDurable.AcceptanceIsDurable | raft/node.go:367-416 | When an acceptance is queued, the store holds the previous entry's term and at the next index the entry itself, or the one already held there with its term; the log is the one that follows from the message. |
| RaftDurable.StepAcceptance | raft/node.go:162-205 | The same for a whole delivery, with the term it takes over first. |
| RaftDurable.AcceptancesAreDurable | raft/node.go:162-205 | The same for every delivery of every run with failures and restarts. |
| RaftDurable.EveryStateIsSound | raft/node.go:787-811 | Over every run: vote grants and snapshot acknowledgements were durable when queued, acceptances lie inside the durable log, memory and store agree, and a stopped node has an empty queue. |
| RaftDurable.FaultIsFinal | raft/node.go:803-811 | After a storage failure nothing is queued in any state up to the next restart. |
| RaftDurable.CommitNeverGoesBack | raft/node.go:787-793 | Over every run with failures, snapshots and restarts: the stored commit index never drops below anything a node once committed, and a running node has exactly it. |
| RaftDurable.StoredCommitDropsIff | storage/snapshot/store.go:35-38 | A call lowers the stored commit index iff a stopped node saves a snapshot below one whose own save was reported as failed and which no stored commit index covers. |
| RaftDurable.StoredCommitStays | storage/snapshot/store.go:35-76 | Over every run without such a save the stored commit index only grows. |
| RaftFailures.FaultedCompactLowersTheCommit | storage/snapshot/store.go:35-76 | The failing run: it goes from 5 to 1. |
| RaftDurable.RestartEquivalence | raft/recover.go:5-69 | A crash after any call that left the node running rebuilds the same term, vote, commit, base and entries, iff recovery's checks accept. |
| RaftDurable.RestartRefusedIff | raft/recover.go:23-69 | A restart of a running node is refused iff the commit index is past the log, the snapshot names no voter, or the scan of its entries refuses one. |
| RaftDurable.PlainRestart | raft/recover.go:23-31 | With ordinary and no-op entries, recovery stops iff the commit index is past the log or the snapshot names no voter. |
| RaftFailures.OverwriteMakesRecoveryFail | raft/node.go:370-392 | A run of two messages after which a running node's log holds an entry that its own restart refuses, because an overwriting entry is not validated. |
| RaftFailures.PlainAfterAppendIff | raft/node.go:370-392 | An accepted Append keeps the log free of configuration and malformed entries iff it stores nothing or stores such an entry. |
| RaftFailures.RestartAfterAppendIff | raft/node.go:370-405 | After any accepted Append a restart is refused iff, on the node before and the message, the commit index is past the log it will leave, the snapshot names no voter, the kept prefix does not scan, or the stored entry does not continue the scan. |
| RaftFailures.TwoPendingChangesBreakTheRule | raft/node.go:743-755 | With two pending changes the joint rule fails: five messages to a new node after which it alone commits past a change it is no member of. |
| WalFormat.Put | storage/wal/format.go:32-49 | Writes exactly the little-endian bytes of a field and nothing else. |
| WalFormat.Encode | storage/wal/format.go:30-50 | The buffer holds every field at its offset, zeros between, and the checksum. |
| WalFormat.DecodeEncoded | storage/wal/format.go:52-77 | Decoding an encoded record gives it back, for every record and every checksum function. |
| WalFormat.DecodedBytes | storage/wal/format.go:52-77 | Whatever Decode accepts equals its record's encoding at every byte that is not reserved, and carries its own checksum. |
| Wal.Recover | storage/wal/wal.go:59-74 | Succeeds iff every complete slot holds a valid record in sequence; on failure names the first bad slot. |
| Wal.RecoveredMeans | storage/wal/wal.go:59-74 | The same, about the function the loop computes. |
| Wal.MemoryDevice.TruncateDurable | storage/wal/device.go:70-78 | Shortens the durable bytes, or refuses and changes nothing. |
| Wal.MemoryDevice.Crash | storage/wal/device.go:83-93 | The rebooted device holds the durable bytes and exactly the first `torn` volatile ones. |
| Wal.MemoryDevice.Sync | storage/wal/device.go:56-62 | Everything appended becomes durable. |
| Wal.Log.Append | storage/wal/wal.go:36-48 | Stages the records with consecutive numbers, up to a cancellation. |
| Wal.Log.Sync | storage/wal/wal.go:50-55 | Makes the staged records durable, or changes nothing when cancelled. |
| Wal.Open | storage/wal/wal.go:17-34 | Cuts the torn tail off and continues the numbering, or reports the failure unchanged. |
| Wal.CrashRecovers | storage/wal/device.go:83-93 | After a tear at any byte, recovery returns every synced entry and then a prefix of the staged ones, numbered 1..n. |
| Wal.RunsRecover | storage/wal/wal.go:17-74 | Over every run of append, sync, crash and reopen, recovery succeeds and the medium holds exactly the entries a caller may rely on. |
| Wal.OpenedKeeps | storage/wal/wal.go:17-34 | Whatever bytes can be opened at all leave a medium whose slots are exactly the recovered records, ready to continue. |
| Wal.TornAppend | storage/wal/wal.go:36-55 | On any such medium, one record torn at any byte reopens as the medium before it, or as all of it. |
| RaftWal.ReplayMatchesLiveIff | storage/raftwal/store.go:34-72 | Replaying an operation's record gives the state the operation gave, iff it is not an append at one of the two reserved indexes. |
| RaftWal.ReplayEqualsLive | storage/raftwal/store.go:27-160 | After any calls without such an append, the records replay without error to exactly the live state. |
| RaftWal.ReservedAppendIsLost | storage/raftwal/store.go:14-18 | Two runs of two calls whose appended entry is gone after replay: one reads it as a reset, one as a compaction. |
| RaftWal.RecordsAgree | storage/raftwal/store.go:33-72 | Replaying the bytes of a record, on whatever state, is what the abstract store says of it. |
| RaftWal.CrashInsideOperation | storage/raftwal/store.go:154-160 | A crash inside an operation, after any number of its bytes, recovers the state before it; with all 112 the state after it, iff the operation replays. |
| RaftWal.EveryCrashRecovers | storage/raftwal/store.go:27-160 | Calls and crashes inside calls in any order: reopening never fails, and gives the run of exactly the operations whose record was complete. |
| RaftWal.Store.SaveHardState | storage/raftwal/store.go:76-88 | Refuses regressions; otherwise one record and the new hard state. When the device fails the fields are unchanged, whether or not the record was stored; without a kept failure replay still equals live. |
| RaftWal.Store.Append | storage/raftwal/store.go:90-108 | Refuses gaps and everything once the log has reached the highest index; otherwise truncates and appends, under the same rule for failures; after a success replay still equals live iff the index is not reserved. |
| RaftWal.Store.Term | storage/raftwal/store.go:118-123 | The term at an index inside the log, the base included. |
| RaftWal.Store.ResetBase | storage/raftwal/store.go:127-137 | Discards the log for a new base, under the same rule for failures. |
| RaftWal.Store.CompactLog | storage/raftwal/store.go:141-153 | Cuts the prefix, under the same rule for failures. |
| RaftWal.Open | storage/raftwal/store.go:27-74 | From any bytes: the state of the recovered records or an error, and the store's invariant holds again. |
| RaftStore.OpenSucceedsIff | storage/raftstore/store.go:36-60 | Opening succeeds iff the WAL replays and the snapshot lies between its base and its last index. |
| RaftStore.InterruptedCompactionCompletes | storage/raftstore/store.go:26-74 | A compaction within any readable WAL, its fence torn at any byte, and then any number of openings torn at any byte, ends where the uninterrupted one ends. |
| RaftStore.CrashBeyondTheWalIsFatal | storage/raftstore/store.go:43-46 | It completes iff the snapshot index is within the WAL; beyond it Open reports an error. |
| RaftStore.CrashInsideFence | storage/raftstore/store.go:98-112 | A crash inside the fence is all or nothing: with fewer than 112 bytes the WAL reopens as it was, with all of them fenced. |
| RaftStore.CompactionKeepsSuffix | storage/raftstore/store.go:98-112 | The hard state and every entry above the snapshot survive. |
| RaftStore.RanIsWritten | storage/raftwal/store.go:154-160 | A WAL call under any device outcome changes medium and memory as the abstract store says. |
| RaftStore.WriteFence | storage/raftstore/store.go:47-53 | Compacts when the remembered terms agree, otherwise resets, on whatever the medium holds. |
| RaftStore.Store.SaveHardState | storage/raftstore/store.go:76-78 | Under any device outcome, exactly the abstract write. |
| RaftStore.Store.Append | storage/raftstore/store.go:80-82 | The same, for an index that is not reserved. |
| RaftStore.Store.SaveSnapshot | storage/raftstore/store.go:84-96 | Under any outcome of the file: replaces the image and remembers it, or leaves the memory as it was. |
| RaftStore.Store.CompactLog | storage/raftstore/store.go:98-112 | Fences only for the snapshot just saved. |
| RaftStore.OpenStore | storage/raftstore/store.go:26-74 | From any bytes: every refusal, a failing fence included, and otherwise a valid store with the compaction completed. |
| RaftBuffer.BufferedRunsResolve | storage/wal/wal.go:36-55 | For every run over a device that keeps unsynced records in its buffer, and wherever it crashes, some run of succeeding, lost and kept writes has the same reports, memory and medium. |
| Paxos.PaxosNode.constructor | examples/paxos/paxos.go:99-108 | A new node whose peers are the other ids up to the size. |
| Paxos.PaxosNode.HandlePrepare | examples/paxos/paxos.go:201-207 | Promises iff the number is above the promise, which never drops; accepts nothing. |
| Paxos.PaxosNode.HandleAccept | examples/paxos/paxos.go:211-219 | Accepts iff the number is not below the promise, records exactly that acceptance, and never lowers the promise. |
| Paxos.PaxosNode.HandlePromise | examples/paxos/paxos.go:224-252 | Without a quorum of promises the node proposes, accepts and sends nothing. |
| PaxosSafety.NumbersNeverCollide | examples/paxos/paxos.go:128-133 | Equal numbers mean the same proposer and the same round. |
| PaxosSafety.RoundGoesUp | examples/paxos/paxos.go:128-133 | A new round's number is above the proposer's earlier ones and above its promise. |
| PaxosSafety.OwnPrepareIsGranted | examples/paxos/paxos.go:140-144 | A proposer's own Prepare always succeeds. |
| PaxosSafety.RunsAreSafe | examples/paxos/paxos.go:128-252 | Every run keeps the invariant: each phase-two value is backed by a quorum of pledges. |
| PaxosSafety.LaterProposalsAgree | examples/paxos/paxos.go:224-252 | Once a value is chosen, every later proposal carries it. |
| PaxosSafety.Agreement | examples/paxos/paxos.go:201-252 | At most one value is accepted by a quorum at a common number. |
| PaxosSafety.AgreementOverTime | examples/paxos/cluster.go:78-87 | The same between any two moments of a run. |
| PaxosSafety.DecisionsAreReal | examples/paxos/paxos.go:181-188 | A decided node's number and value were accepted by a quorum. |
| PaxosSafety.DecidedNodesAgree | examples/paxos/cluster.go:78-87 | Two nodes that decided, at whatever two moments, decided the same value. |
| PaxosSafety.AcceptedValuesWereProposed | examples/paxos/paxos.go:128-148 | Every accepted value was the argument of some Propose call. |
| PaxosChosen.ChosenValues | examples/paxos/cluster.go:91-114 | The two passes return each value with a quorum of entries once, in first-seen order. |
| PaxosChosen.FoundMeans | examples/paxos/cluster.go:91-114 | A value is returned iff some number has a quorum of entries with it. |
| PaxosChosen.CountsAcceptorsIff | examples/paxos/cluster.go:94-99 | Counting entries counts acceptors iff no history repeats the entry. |
| PaxosChosen.DoubleDeliveryRepeats | examples/paxos/paxos.go:211-219 | An Accept delivered twice is recorded twice whenever it is accepted. |
| PaxosChosen.DuplicatedAcceptIsCountedTwice | examples/paxos/cluster.go:94-99 | A run of three nodes in which one duplicated Accept makes a single acceptor count as a quorum. |
| PaxosChosen.CountingIsRight | examples/paxos/cluster.go:91-114 | With at-most-once delivery the result is exactly the chosen values, and never two. |
| Heap.RootIsFirst | dst/engine.go:111-114 | No event of a heap is earlier than its root. |
| Heap.FirstIsHead | dst/engine.go:258-264 | The event no other is earlier than is the head of the sorted schedule. |
| Engine.Blocker | dst/engine.go:243-250 | The name of the first injector that denies, or the empty string. |
| Engine.HeapEngine.Push | dst/engine.go:266-276 | Keeps the heap and adds exactly the event. |
| Engine.HeapEngine.Pop | dst/engine.go:278-287 | Returns the root, keeps the heap, removes exactly it. |
| Engine.HeapEngine.SiftDown | dst/engine.go:289-305 | Restores the order from a position on, with the same events. |
| Engine.HeapEngine.Collect | dst/engine.go:175-197 | Every node drained in order, each message drawn, blocked or scheduled. |
| Engine.HeapEngine.Step | dst/engine.go:105-120 | Delivers the schedule's head while it is due, collecting after each delivery. |
| Engine.HeapEngine.Isolate | dst/engine.go:203-218 | Removes exactly the node's events, rebuilds the heap, reports their number. |
| Engine.Simulator.NextReady | sim/sim.go:163-175 | The scan returns an earliest due event, or none iff none is due. |
| Engine.Simulator.Collect | sim/sim.go:146-161 | The same collection as the engine's. |
| Engine.Simulator.Step | sim/sim.go:72-89 | The same step, over an unsorted list. |
| Engine.Simulator.Isolate | sim/crash.go:39-45 | The same removal. |
| Engine.Lockstep | dst/engine.go:258-264 | Under the same commands, engine and simulator end with the same deliveries, cluster, counters, random state and pending events. |
| Schedule.InsertSorts | dst/engine.go:258-264 | Scheduling an event with a new number keeps the order total. |
| Schedule.KeptMeans | dst/engine.go:203-212 | Isolation removes all of the node's events and none else. |
| ScheduleRuns.RunOk | dst/engine.go:105-120 | Every run keeps order, numbering and conservation. |
| ScheduleRuns.DeliveriesIncrease | dst/engine.go:105-120 | Deliveries strictly increase in due time and number over a whole run. |
| ScheduleRuns.Conservation | dst/engine.go:175-218 | Scheduled = delivered + pending + discarded by isolation. |
| ScheduleRuns.NothingDueAfterStep | dst/engine.go:111-119 | After a step that finished, no pending event is due. |
| ScheduleRuns.MoreFuelChangesNothing | dst/engine.go:105-120 | A finished step does not depend on the delivery bound. |
| ScheduleRuns.FaultsNeverShiftTheDraws | dst/engine.go:186-192 | The fate of the k-th drained message is the same in any two runs with the same seed, rate and delay bound. |
| ScheduleRuns.AllowingInjectorsChangeNothing | dst/engine.go:223-227 | Injectors that allow everything leave the run identical. |
| ScheduleRuns.FirstDenialDecides | dst/engine.go:186-192 | The first denial decides, so one under an empty name does not block. |
| StateMachine.ApplyInParts | statemachine/machine.go:40-65 | Applying a log in two parts is applying it at once, results included. |
| StateMachine.ChangesIff | statemachine/machine.go:40-65 | An entry changes the machine iff it is a put or delete its client has not reached. |
| StateMachine.AtMostOneEffect | statemachine/machine.go:44-51 | Over any log, a (client, request) pair changes the machine at most once. |
| StateMachine.RetryGetsTheSameAnswer | statemachine/machine.go:72-81 | A retry before the client's next request gets the original answer, from Apply and from the cache. |
| MachineCodec.StateMachineObject.Snapshot | statemachine/machine.go:83-119 | The bytes are the canonical snapshot of both tables. |
| MachineCodec.SortedKeys | statemachine/machine.go:84-93 | The keys in increasing order, each once. |
| MachineCodec.SnapshotIsCanonical | statemachine/machine.go:83-119 | A machine has only one snapshot. |
| MachineCodec.RestoreObject | statemachine/machine.go:121-152 | The checks and the two loops that fill the tables. |
| MachineCodec.RestoreSnapshot | statemachine/machine.go:121-152 | Restoring a snapshot gives the machine back iff both counts fit 32 bits; otherwise it is refused. |
| MachineCodec.SnapshotCommutesWithReplay | statemachine/machine.go:83-152 | Cut a log anywhere, snapshot, restore, apply the rest: same values, table and results. |

## Left out

- Whole-run safety with membership change: the cluster theorems are for a fixed voter set; membership is treated at the quorum level and over runs of one node.
- Whole-run safety when a node that already stopped is compacted: the cluster's steps leave that call out, because it can tear the store (`FaultedCompactTearsTheBase`); the durability results include it.
- Wal.RunsRecover: for fewer than 2^64 events, because sequence numbers wrap there.
- RaftWal.ReplayEqualsLive: for runs without an append stored at a reserved index, which `ReplayMatchesLiveIff` shows is exactly where one call goes wrong; a later reset can make such a run right again.
- RaftWal.EveryCrashRecovers: for fewer than 2^64 - 1 events, for the same reason as `Wal.RunsRecover`; `TornAppend`, `CrashInsideOperation`, `CrashInsideFence` and `InterruptedCompactionCompletes` bound the number of records likewise.
- RaftStore.OpenStore: the device has nothing buffered, as a device that was just opened.
- Masks.ListAndMaskMajorityAgree: distinct ids are enough, not necessary; with equal repetition of every id the two also agree.
- MachineCodec.SnapshotCommutesWithReplay: for tables of fewer than 2^32 entries at the cut, which `RestoreSnapshot` shows is exactly when a snapshot can be restored.
- RaftStore.SnapshotFile: the file's encoding, temporary files and directory syncs are one atomic replacement.
- A device append that fails after writing part of a record: a failed append leaves nothing behind.
- uint64 wrap-around of terms, indexes and times outside the WAL, the panic past 4096 queued messages and the panics on ids outside 1..64.
- `pendingConfig` as an exact account of the pending change.
- Liveness, wall-clock time, trace hashes and the strength of CRC32C.
- The server, the protocol codecs, the snapshot file format, backup, `FileDevice`, io_uring and BPF code, fault-injection tooling, the CLI and the checkers for TLC output.
