# A verified model of raft-kv-store

This project models a three-node replicated key-value store built on Raft, and proves what it
promises: one committed log, equal maps for equal applied indexes, no loss of committed data
across crashes, fresh reads, and truthful client replies. The protocol follows sections 5.2-5.4
and 7 of the extended Raft paper and sections 6.4 and 9.6 of Ongaro's dissertation; where the
code departs from them, the model follows the code.

How the modules build on each other:

- `Proto`, `RaftNode`: values, and for every entry point of the Raft core the new state, the
  write-ahead-log records it makes durable and the messages it sends.
- `RaftCore`: the Raft class itself, with its loops and flushes, proved to compute `RaftNode`.
- `WalBytes`, `WalFile`: the log's byte format, torn-tail repair, and the log object.
- `Replay`: what records mean, and that replaying them gives back the node's memory.
- `Consensus`, `ConsensusSteps`: the agreement argument over durable states and a ghost history
  (leaders by term, ballots, acknowledgments, commits).
- `Cluster`: three nodes, a network that loses, duplicates, delays and reorders, crashes at any
  record, restarts and compaction.
- `Durability`, `Voting`, `PreVoting`: what every run keeps: disks that can be read back, order
  and durability of term, vote and commit index; one leader per term; terms backed by pre-votes.
- `Invariant`, `Elections`, `Replication`, `Safety`, `Reads`: the invariant behind agreement, and
  safety and read freshness over whole runs.
- `Runs`, `Counterexample`, `StaleJoin`: runs that show what the code does not guarantee.
- `Kv`, `Runtime`, `RuntimeCore`, `Effects`, `System`, `Circulation`, `ApplyOnce`, `EndToEnd`,
  `Replies`, `ReadOrigins`, `ReadPath`: the store, the two loops of a process with their queues,
  the whole system, and the end-to-end results.
- `Resp`, `RespDecoder`, `PeerQueue`: the client protocol and the outbound queue of a peer.

Three results differ from what a reader of the documentation may expect.

- Installing a snapshot clears the receiver's whole log, also a suffix that agrees with the
  snapshot and was already acknowledged. `Counterexample.CommittedEntryLost` is a crash-free run
  in which this loses a committed entry. What follows from agreement on one log is therefore
  stated for runs in which no snapshot is installed over such a suffix (`Cluster.Careful`);
  `InstallFollowsPaper` shows that this condition is exactly when the code does what section 7 of
  the paper prescribes. Everything else is stated for every run (`Cluster.Run`, `System.SysRun`).
- A read that joins a pending round is as fresh as the opening of that round
  (`Reads.ReadFreshness`), not as its own call (`StaleJoin.JoinedReadMissesCommit`), unless the
  round's index covers what was committed at the call (`ReadPath.JoinedReadIsFresh`). If its call
  found no round pending, it sees every write reported done before the client asked
  (`ReadPath.ReadSeesDoneWrites`).
- A protocol error makes the decoder discard the commands that precede it in the same chunk, so
  what reaches the server depends on how the bytes were cut (`Resp.EmptyArrayLost`).
  `Resp.CutsAgree` says exactly when it does not.

Modelling choices:

- Terms, indexes, request ids and read contexts are unbounded naturals.
- MessagePack is taken to be lossless; the checksum is an arbitrary function of its input.
- Timers and random jitter are open: an election, a heartbeat or an expiry may happen at any
  time, and whether a leader was heard recently is a parameter. The class `RaftCore.Raft` keeps
  the counters.
- A flush writes any prefix of its bytes before it fails; a failed flush, and a record over the
  log's size limit, end the process before any message of the call is sent.
- A process may die at any point of a call, or stop itself there, for whatever reason: a failed
  flush, a full outbound queue, a restoration that takes too long, a signal. Its core is then down;
  its store loop goes on with what is queued and answers what is pending.
- Request ids are taken to be fresh, also across restarts, and clients send well-formed commands,
  as the front end checks.

## Model

| member | source | states |
|---|---|---|
| `Safety.StateMachineSafety` | src/raft/raft.cpp:513-665 | One log exists of which every node's committed entries, at every moment, are a prefix; at the end some disk has all of it committed. |
| `Safety.CommittedEntriesAgree` | src/raft/raft.cpp:583-599 | Two nodes that have an index committed, at any two moments, hold the same entry there. |
| `Voting.ElectionSafety` | src/raft/raft.cpp:256-330 | In every run at most one node is ever leader in a term, across crashes, stale responses and retries. |
| `Safety.LeadersHoldCommitted` | src/raft/raft.cpp:131-138 | Whatever a node had committed is in the log of every leader of a later term. |
| `Safety.LogsMatch` | src/raft/raft.cpp:86-97 | If two nodes have the same term at an index, including at a snapshot boundary, they agree on everything up to it. |
| `Safety.TruthfulProgress` | src/raft/raft.cpp:623-655 | A leader's record of a follower is within its own log and names a prefix on the follower's disk while the follower stays in the term. |
| `Durability.SentCommitIsCarried` | src/raft/raft.cpp:492-508 | In every run every AppendEntries ever sent announces a commit index within what it carries, with consecutively numbered entries. |
| `Durability.OrderKept` | src/raft/raft.cpp:711-779 | In every run, while a process lives, term, commit, applied and snapshot index never go back, and offset <= applied <= commit <= last index. |
| `Durability.RestartSucceeds` | src/raft/raft.cpp:58-84 | In every run, whatever prefix of its records a node wrote before going down, reading the log back raises no error; a running node equals its replayed log. |
| `Durability.DurableNeverGoesBack` | src/wal/wal.cpp:253-285 | In every run, across crashes, durable term and commit index never go back and a vote stands for the rest of its term. |
| `Safety.AcknowledgedIsKept` | src/raft/raft.cpp:544-602 | The leaders of a term write one log, and from the moment a member has acknowledged an index in that term its disk holds that log up to the index, through every crash, while its durable term stays. |
| `Safety.StepInv` | src/app/node_runtime.cpp:386-429 | Every step of the cluster, complete or cut by a crash, keeps the invariant. |
| `Consensus.LeaderCompleteness` | src/raft/raft.cpp:637-655 | An entry of a term held by a quorum is in the starting log of every later leader. |
| `Consensus.LogMatching` | src/raft/raft.cpp:526-534 | Logs rooted in leaders' logs that agree on the term at an index agree up to it. |
| `Consensus.CommitsNest` | src/raft/raft.cpp:637-655 | What one leader committed is in the log of every leader of the same or a later term. |
| `ConsensusSteps.Vote` | src/raft/raft.cpp:280-292 | Granting a vote to an up-to-date candidate keeps the agreement invariant. |
| `ConsensusSteps.Elect` | src/raft/raft.cpp:317-329 | A majority of ballots founds a leader and keeps the agreement invariant. |
| `ConsensusSteps.Commit` | src/raft/raft.cpp:637-655 | Committing what a quorum acknowledged extends the chosen log consistently. |
| `ConsensusSteps.Overwrite` | src/raft/raft.cpp:551-573 | Replacing a diverging suffix by the leader's entries keeps the agreement invariant. |
| `Replication.SharedPrefix` | src/raft/raft.cpp:526-573 | The consistency check and the append loop find exactly the prefix shared with the sender; no conflict is found at or below the commit index. |
| `Replication.FollowerCommitRule` | src/raft/raft.cpp:587-588 | The minimum of the sender's commit index and the last index is the sender's commit index, and what it commits is settled. |
| `Replication.ScanCommits` | src/raft/raft.cpp:637-655 | The commit scan commits only what a quorum durably holds in the leader's term. |
| `Replication.InstallCompletes` | src/raft/raft.cpp:861-936 | Installing a snapshot, unless over an agreeing suffix, keeps the invariant with its records and answer. |
| `Replication.TakeSnapshotCompletes` | src/raft/raft.cpp:734-779 | Local compaction keeps the invariant. |
| `Elections.NoOtherLeader` | src/raft/raft.cpp:300-330 | A candidate with a majority finds no other leader of its term. |
| `Elections.RequestVoteCrash` | src/raft/raft.cpp:256-298 | A crash anywhere inside the vote handler leaves a consistent disk. |
| `Replay.WalRefinement` | src/raft/raft.cpp:107-129 | Replaying the records of any entry point gives exactly the in-memory term, vote, commit, log, offset, offset term and snapshot. |
| `Replay.RestoreMirrors` | src/raft/raft.cpp:58-84 | The restarted node equals the recovered records and is well formed. |
| `Replay.ReplayEntries` | src/wal/wal.cpp:379-388 | Replaying consecutive entry records truncates at the first and appends all. |
| `RaftNode.FirstNew` | src/raft/raft.cpp:545-573 | The first request entry that is missing or differs in term, none before it being so. |
| `RaftNode.HighestCommittable` | src/raft/raft.cpp:637-655 | The highest uncommitted current-term index held by a majority, never below the commit index. |
| `Counterexample.InstallFollowsPaper` | src/raft/raft.cpp:910-916 | The installed log is the one the paper prescribes if and only if the receiver has no agreeing suffix beyond the snapshot. |
| `Counterexample.CommittedEntryLost` | src/raft/raft.cpp:884-916 | A run without crashes at whose end two nodes have committed different entries at one index. |
| `Reads.ReadFreshness` | src/raft/raft.cpp:783-847 | If a round is reported ready, the node has applied every index that any node had committed when the round opened. |
| `Reads.SafeIndexCovers` | src/raft/raft.cpp:799-810 | The fence of a confirmed round covers everything committed when it opened. |
| `StaleJoin.JoinedReadMissesCommit` | src/raft/raft.cpp:789-791 | A crash-free run without snapshots in which a read joins a pending round and is ready although an index committed before the call is not applied. |
| `PreVoting.ReachedTermsBacked` | src/raft/raft.cpp:369-429 | In every run, every term a node reaches was backed by pre-vote grants of a majority for that term. |
| `PreVoting.CutOffKeepsTerm` | src/raft/raft.cpp:214-248 | In every run, as long as a node handles no message, its durable term stays, and whenever it is up that is its term, through timeouts, crashes and restarts. |
| `WalBytes.HeaderRoundTrip` | src/wal/proto.h:78-110 | A header with a 24-bit length and a 32-bit checksum decodes to itself. |
| `WalBytes.TornTailRecovered` | src/wal/wal.cpp:329-450 | Encoded records followed by any strict prefix of one more recover as the records, are cut to their end, and later appends recover behind them. |
| `WalBytes.SplitPrefix` | src/wal/wal.cpp:253-264 | Any prefix of an encoded log is some of its records and a strict prefix of the next. |
| `WalBytes.ScanContinues` | src/wal/wal.cpp:329-423 | Appending to a file that is readable to its end continues its records. |
| `WalBytes.ScanTruncated` | src/wal/wal.cpp:425-450 | Cutting a file after its last readable record leaves the same records, readable to the end. |
| `WalBytes.ParseEncoded` | src/wal/wal.cpp:329-366 | A written record is read back with its size, whatever follows it. |
| `WalBytes.TornRecordRefused` | src/wal/wal.cpp:329-366 | A record cut anywhere is not taken for a record, by its size alone. |
| `WalFile.LowerBound` | src/wal/wal.cpp:379-388 | Binary search finds the first entry at or after an index. |
| `WalFile.Replayed` | src/wal/wal.cpp:368-412 | One record of recovery truncates, appends, compacts or updates as `Replay` says, and indexes stay ascending. |
| `WalFile.ReadLog` | src/wal/wal.cpp:325-423 | The recovery loop yields the replay of all readable records and where they end. |
| `WalFile.Wal.AppendRecord` | src/wal/wal.cpp:214-223 | Appends the encoded record to the buffer, or refuses one over the limit and changes nothing. |
| `WalFile.Wal.SaveHardState` | src/wal/wal.cpp:225-233 | The all-zero hard state is not written; any other is appended. |
| `WalFile.Wal.Sync` | src/wal/wal.cpp:253-285 | A successful flush makes all buffered records durable; a failed one some first records of them, for good. |
| `WalFile.Wal.Recover` | src/wal/wal.cpp:290-454 | Returns the replay of the readable records and cuts the file after them, or fails if that repair fails. |
| `RaftCore.Raft.constructor` | src/raft/raft.cpp:26-52 | A new node is the fresh state with an election timeout in range. |
| `RaftCore.Raft.Restore` | src/raft/raft.cpp:58-84 | Succeeds exactly if the entries above the snapshot are consecutive and reach the commit index, and then takes them over. |
| `RaftCore.Raft.SyncWal` | src/raft/raft.cpp:99-105 | Flushes the given records completely or up to some point, marking storage as failed. |
| `RaftCore.Raft.BecomeFollower` | src/raft/raft.cpp:107-129 | Leaves the node a follower in the given term, without a vote in a new one and without a pending read, durably; or storage failed on the way with a prefix of the records durable. |
| `RaftCore.Raft.PrepareForLeaderRpc` | src/raft/raft.cpp:145-161 | Accepts a sender of the current or a newer term only with healthy storage, as its follower in that term. |
| `RaftCore.Raft.BecomeCandidate` | src/raft/raft.cpp:176-190 | Raises the term and votes for itself, durably or with storage failed. |
| `RaftCore.Raft.BecomeLeader` | src/raft/raft.cpp:192-212 | The loop starts the progress of both peers behind the last entry and sends both their first heartbeat. |
| `RaftCore.Raft.Tick` | src/raft/raft.cpp:214-248 | Fires exactly when its counter runs out: a leader then sends heartbeats, any other node asks for pre-votes. |
| `RaftCore.Raft.ResetElectionTimeout` | src/raft/raft.cpp:250-254 | The randomized timeout lies between one and two election timeouts. |
| `RaftCore.Raft.HandleRequestVote` | src/raft/raft.cpp:256-298 | Ends in the term of a newer candidate with its one vote of the term given to an up-to-date one; a vote is granted only if it is durable. |
| `RaftCore.Raft.HandleRequestVoteResponse` | src/raft/raft.cpp:300-330 | Steps down for a newer term, counts a vote once per member, and takes office exactly with a majority, sending the first heartbeats. |
| `RaftCore.Raft.HandlePreVote` | src/raft/raft.cpp:333-366 | Grants, without changing anything, only a later term with an up-to-date log while no leader was heard, and never with failed storage. |
| `RaftCore.Raft.HandlePreVoteResponse` | src/raft/raft.cpp:369-405 | Counts a pre-vote once per member for the pending term; the campaign starts only after the new term is durable. |
| `RaftCore.Raft.PreCampaign` | src/raft/raft.cpp:408-429 | The loop queues exactly the pre-vote requests to both peers. |
| `RaftCore.Raft.Campaign` | src/raft/raft.cpp:432-451 | The loop queues exactly the vote requests to both peers. |
| `RaftCore.Raft.EntriesAfter` | src/raft/raft.cpp:501-503 | The loop collects everything the log holds after an index. |
| `RaftCore.Raft.HeartbeatFor` | src/raft/raft.cpp:474-508 | A peer gets everything from its next entry on, or the snapshot if that entry is compacted away. |
| `RaftCore.Raft.BroadcastHeartbeat` | src/raft/raft.cpp:474-511 | Queues exactly one message per peer, what `HeartbeatFor` builds. |
| `RaftCore.Raft.MergeEntries` | src/raft/raft.cpp:545-573 | The append loop refuses exactly the conflicts at or below the commit index, and otherwise leaves the shared prefix followed by the new entries, with a record for each. |
| `RaftCore.Raft.LearnCommit` | src/raft/raft.cpp:586-599 | The follower's commit rule, durable or with storage failed. |
| `RaftCore.Raft.HandleAppendEntries` | src/raft/raft.cpp:513-602 | Merges what follows the shared prefix and learns the commit index, or refuses; success is answered only if everything is durable. |
| `RaftCore.MajorityCommits` | src/raft/raft.cpp:643-654 | Counting the leader and the peers that hold an index beyond half of the members is the same as some peer holding it. |
| `RaftCore.Raft.AdvanceCommit` | src/raft/raft.cpp:633-655 | The ascending scan ends at the highest committable index. |
| `RaftCore.Raft.HandleAppendEntriesResponse` | src/raft/raft.cpp:604-683 | A success moves the follower's progress, confirms a pending read and commits the highest index a majority holds, durably; a failure backs up by one. |
| `RaftCore.Raft.Propose` | src/raft/raft.cpp:685-709 | A leader's entry is in its log and sent on only if durable; a failed flush takes it back and gives no index. |
| `RaftCore.Raft.TakeSnapshot` | src/raft/raft.cpp:734-779 | The search loop and truncation leave exactly the entries after the snapshot, once it is durable. |
| `RaftCore.Raft.ReadIndex` | src/raft/raft.cpp:783-813 | Opens a round at the commit index, or behind a no-op if nothing of the term is committed, or joins the pending one; no token with failed storage. |
| `RaftCore.Raft.ReadIndexReady` | src/raft/raft.cpp:816-847 | True exactly if storage is healthy and the round is ready. |
| `RaftCore.Raft.HandleInstallSnapshot` | src/raft/raft.cpp:861-936 | Replaces log and snapshot and moves commit and applied index to it, or refuses an old or empty one; success is answered only if snapshot and hard state are durable. |
| `RaftCore.Raft.HandleInstallSnapshotResponse` | src/raft/raft.cpp:939-963 | A success makes the leader go on behind the snapshot. |
| `RaftCore.Raft.Receive` | src/app/node_runtime.cpp:386-417 | Every message type reaches its handler and the answer is queued. |
| `Kv.KvStore.Apply` | src/server/kv_store.cpp:22-48 | Applies a command or refuses it unchanged; a delete counts the distinct keys that were present. |
| `Kv.FoldResumes` | src/server/kv_store.cpp:50-64 | A snapshot and the entries after it give the same store as all entries. |
| `Kv.LastWriteWins` | src/server/kv_store.cpp:22-48 | A key holds what the last entry that wrote it left. |
| `RuntimeCore.NodeRuntime.RecoverStorage` | src/app/node_runtime.cpp:300-336 | Start-up leaves the core at the recovered log and the store at its commit index; it fails exactly on a gap, a missing committed entry, unreadable snapshot data or a malformed committed command. |
| `RuntimeCore.NodeRuntime.AfterRaftActivity` | src/app/node_runtime.cpp:419-451 | With failed storage the process stops and sends nothing; otherwise the next entry is handed on, ready reads too, and the queued messages leave, up to a full queue, which stops the process. |
| `RuntimeCore.NodeRuntime.FlushRaftMessages` | src/app/node_runtime.cpp:431-451 | The loop hands on exactly the messages with a peer to go to, in order, up to a full queue. |
| `RuntimeCore.NodeRuntime.OnMessage` | src/app/node_runtime.cpp:386-429 | What a received message makes the core send leaves the process only after all records of the call are durable; otherwise the process stops and sends nothing. |
| `RuntimeCore.NodeRuntime.OnTick` | src/app/node_runtime.cpp:363-374 | The same gate behind a tick. |
| `RuntimeCore.NodeRuntime.OnPropose` | src/app/node_runtime.cpp:526-542 | The same gate behind a proposal. |
| `RuntimeCore.NodeRuntime.OnRead` | src/app/node_runtime.cpp:552-566 | The same gate behind a read, which may propose a no-op. |
| `RuntimeCore.NodeRuntime.OnCaptured` | src/app/node_runtime.cpp:794-802 | The same gate behind a captured snapshot. |
| `RuntimeCore.NodeRuntime.RunPropose` | src/app/node_runtime.cpp:526-541 | A proposal that the core does not accept is refused as not led if storage is healthy, and as of unknown outcome if not. |
| `RuntimeCore.NodeRuntime.CancelRaftRead` | src/app/node_runtime.cpp:768-783 | A cancelled read gives up its round, and the round ends exactly if no other read uses it. |
| `RuntimeCore.NodeRuntime.DispatchNext` | src/app/node_runtime.cpp:657-672 | Hands the next committed entry to the store loop unless one is in flight. |
| `RuntimeCore.NodeRuntime.ApplyCommittedEntry` | src/app/node_runtime.cpp:674-702 | Applies the entry after the last applied and answers its own writer with what it affected; repeats an acknowledgment, stops at a gap, and does nothing when stopping. |
| `RuntimeCore.NodeRuntime.TakeAck` | src/app/node_runtime.cpp:704-725 | An expected acknowledgment advances the core; others are dropped or stop the process. |
| `RuntimeCore.NodeRuntime.OnAck` | src/app/node_runtime.cpp:704-725 | The same gate behind an acknowledgment; one out of order changes nothing in the core. |
| `RuntimeCore.NodeRuntime.PollReadIndexes` | src/app/node_runtime.cpp:595-642 | Ends the first ready round and hands all its reads on, drops all reads of a deposed leader, or finds none ready. |
| `RuntimeCore.NodeRuntime.CompleteRead` | src/app/node_runtime.cpp:644-655 | Answers a pending read with the store's value, once. |
| `RuntimeCore.NodeRuntime.CompleteWrite` | src/app/node_runtime.cpp:727-740 | Answers a pending write, once. |
| `RuntimeCore.NodeRuntime.RejectWrite` | src/app/node_runtime.cpp:575-583 | Rejects a pending write, once. |
| `RuntimeCore.NodeRuntime.RunStoreTask` | src/app/node_runtime.cpp:674-834 | The head of the queue is applied, captured, restored or answered, and everything else stays. |
| `System.Projects` | src/app/node_runtime.cpp:386-429 | Every step of the system is a step of the cluster or leaves it alone. |
| `ApplyOnce.RaftKeeps` | src/app/node_runtime.cpp:657-725 | Whatever the Raft loop runs keeps the handoff invariant of the two queues. |
| `ApplyOnce.ServeKeeps` | src/app/node_runtime.cpp:674-702 | Whatever the store loop runs keeps it, too. |
| `ApplyOnce.ApplyHeadKeeps` | src/app/node_runtime.cpp:674-702 | The entry handed over is the next chosen one and committed by the node, and applying it extends the fold by it. |
| `ApplyOnce.TailServes` | src/app/node_runtime.cpp:674-677 | The store loop of a stopping process keeps its store a fold of the chosen log and no read behind its fence. |
| `ApplyOnce.BootOk` | src/app/node_runtime.cpp:300-329 | A restarted store equals the fold up to the recovered commit index. |
| `EndToEnd.StoresAreFolds` | src/app/node_runtime.cpp:657-725 | Each store, also of a stopping process, is the fold of one chosen log up to its applied index, and that much is committed on some disk. |
| `EndToEnd.NeverStops` | src/app/node_runtime.cpp:657-725 | In every run, while a process is up, no gap, order or apply error has stopped it and its store is not behind its core. |
| `EndToEnd.AppliedIsCommitted` | src/app/node_runtime.cpp:657-702 | In every run, at every moment, what a store has applied is committed on some disk at that moment. |
| `Circulation.RunCirculates` | src/app/node_runtime.cpp:518-543 | In every run, every entry in a log, record, message or queue was created by a proposal or a read and holds a well-formed command or none, and every snapshot has data. |
| `Circulation.RecoverySucceeds` | src/app/node_runtime.cpp:300-329 | In every run, at every moment, for every node up or down, reading its records back and replaying the committed ones into the store raises no error, so a node that is down can start. |
| `EndToEnd.EqualAppliedEqualStores` | src/server/kv_store.cpp:22-48 | Equal applied indexes mean equal maps, on any two nodes at any two moments. |
| `EndToEnd.AppliedInOrder` | src/app/node_runtime.cpp:674-702 | In every run, every entry the store loop of a running process takes is the one after the last applied, committed by its own node, and is applied. |
| `EndToEnd.AcknowledgmentsInOrder` | src/app/node_runtime.cpp:704-725 | In every run the stop for an out-of-order acknowledgment is unreachable. |
| `EndToEnd.SnapshotsAreFolds` | src/app/node_runtime.cpp:785-834 | Every snapshot in memory, on disk or in a message is the fold up to its index. |
| `Replies.AnsweredOnce` | src/app/node_runtime.cpp:575-593 | In every run each request is answered at most once, also by a process that is stopping. |
| `Replies.DoneMeansApplied` | src/app/node_runtime.cpp:727-740 | In every run the step that reports a write done applies the very command sent as the entry after everything applied, at an index its own node has committed, with the reported count. |
| `Replies.DoneIsChosen` | src/app/node_runtime.cpp:727-740 | Every command reported done is the chosen entry at the reported index, and the reported count is what it affects there. |
| `Replies.RefusedNeverLogged` | src/app/node_runtime.cpp:518-543 | In every run a write answered NOT_LEADER is never in any log, record or message. |
| `ReadPath.ServedReadIsTraced` | src/app/node_runtime.cpp:545-655 | In every run, every value ever returned comes from a request, a call, the opening of its round and a ready round, in this order and one process lifetime, and is what the store holds when it has applied at least what the core had when the round was ready. |
| `ReadPath.ServedReadIsFresh` | src/app/node_runtime.cpp:595-655 | Every value ever returned is that of the chosen log up to the applied index, which is committed by then and covers everything committed when the read's round opened. |
| `ReadPath.ReadSeesDoneWrites` | src/app/node_runtime.cpp:545-655 | A read covers every write reported done before its round opened or at an index within the round's, and, if its call found no round pending, every write reported done before the client asked. |
| `ReadPath.JoinedReadIsFresh` | src/raft/raft.cpp:789-791 | A read that joins a round covers everything committed at its own call if the round's index does. |
| `ReadOrigins.AllTracked` | src/app/node_runtime.cpp:545-642 | In every run, at every moment, every pending round, pending read and read to serve of a process traces back to the steps that made it, in the same process lifetime. |
| `Resp.CommandExtends` | src/server/resp_codec.cpp:41-94 | A complete command or an error is not changed by bytes that follow. |
| `Resp.DecodeResumes` | src/server/resp_codec.cpp:97-119 | Decoding may stop anywhere and resume with the leftover. |
| `Resp.HandedOnOrLost` | src/server/resp_server.cpp:90-113 | However the bytes are cut and wherever the connection ends, the commands of the stream are those handed on, followed by those lost. |
| `Resp.ChunkingInvariant` | src/server/resp_codec.cpp:97-119 | If every call succeeds, commands and leftover are those of the whole stream. |
| `Resp.ChunkingSucceeds` | src/server/resp_codec.cpp:97-119 | Every call succeeds if and only if the stream has no error and every chunk fits beside the leftover of the bytes before it. |
| `Resp.ChunkingIrrelevant` | src/server/resp_codec.cpp:97-119 | Two ways to cut the same bytes hand on the same commands if and only if equally many are lost; on a stream without error, cut with room, nothing is lost and the leftover is the same. |
| `Resp.CutsAgree` | src/server/resp_codec.cpp:97-119 | All cuts of a stream, of any length, hand on the same commands if and only if no cut can hand on any, or the stream holds no error and fits the buffer. |
| `Resp.LostBeforeError` | src/server/resp_server.cpp:97-106 | A printed command followed by an error is handed on if cut between them and lost in one chunk. |
| `Resp.EmptyArrayLost` | src/server/resp_server.cpp:97-106 | The smallest such bytes: an empty array and a letter. |
| `Resp.Print` | scripts/resp_client.py:27-34 | The decimal digits of a number, which read back as that number. |
| `Resp.PrintCommand` | scripts/resp_client.py:27-34 | The printing loop builds the array of the parts as bulk strings, which `CommandRoundTrip` reads back. |
| `Resp.CommandRoundTrip` | src/server/resp_codec.cpp:41-94 | The decoder inverts the printer, whatever follows. |
| `Resp.StreamRoundTrip` | src/server/resp_codec.cpp:97-119 | Any sequence of printed commands decodes to itself, then what the tail holds. |
| `Resp.PrintedCommandsArrive` | src/server/resp_codec.cpp:97-119 | Of printed commands, cut in any way, the first ones arrive; all of them with nothing left over if and only if every call has room. |
| `RespDecoder.FindLine` | src/server/resp_codec.cpp:15-25 | The scan finds the first line end. |
| `RespDecoder.ReadSize` | src/server/resp_codec.cpp:27-39 | Accepts exactly non-empty digit strings below 2^64, with their value. |
| `RespDecoder.ReadOne` | src/server/resp_codec.cpp:63-88 | One bulk string with its limits: the string and where it ends, more bytes needed, or an error. |
| `RespDecoder.ReadElements` | src/server/resp_codec.cpp:60-91 | The cursor loop reads as many bulk strings as the array announces. |
| `RespDecoder.ReadCommand` | src/server/resp_codec.cpp:41-94 | One command and its size, more bytes needed, or an error. |
| `RespDecoder.Decoder.Feed` | src/server/resp_codec.cpp:99-119 | The decoding loop returns all complete commands and keeps the leftover, or fails on an error or a full buffer. |
| `PeerQueue.Queue.Reserve` | src/transport/peer.cpp:96-106 | Admits a frame exactly within the frame and byte limits. |
| `PeerQueue.Queue.Send` | src/transport/peer.cpp:114-175 | Accepts and posts a frame, or refuses it unchanged. |
| `PeerQueue.Queue.RunPosted` | src/transport/peer.cpp:131-168 | Queues the frame, replaces an older one of the same stream that is not being written, or drops it when stopping; only a queued frame can start a connection. |
| `PeerQueue.Queue.WriteNext` | src/transport/peer.cpp:233-258 | Gives the first queued frame to the socket, one at a time. |
| `PeerQueue.Queue.WriteDone` | src/transport/peer.cpp:241-257 | Only a successful write completes a frame, the one given to the socket. |
| `PeerQueue.Queue.MarkDisconnected` | src/transport/peer.cpp:281-286 | Ends the write under way and keeps the queue. |
| `PeerQueue.Queue.StopNow` | src/transport/peer.cpp:288-312 | Releases every queued frame. |
| `PeerQueue.CompletedInOrder` | src/transport/peer.cpp:233-258 | Completed writes are accepted frames in the order of acceptance. |
| `PeerQueue.NothingElseDropped` | src/transport/peer.cpp:138-161 | A frame is dropped only if the next accepted frame is an AppendEntries of the same stream. |
| `PeerQueue.StoppedCountsNothing` | src/transport/peer.cpp:288-312 | After stopping, with callbacks run, frame and byte counts are zero. |

## Left out

- Runs that install a snapshot over an agreeing suffix: the theorems of `Safety` and `Reads`, and those of `EndToEnd`, `Replies` and `ReadPath` about the contents of stores or the freshness of reads, exclude them, because state machine safety fails there (`Counterexample.CommittedEntryLost`).
- Replication.InstallCompletes: excludes the install over an agreeing suffix, which the code accepts; the invariant does not survive it (`Counterexample.CommittedEntryLost`), and `Counterexample.InstallFollowsPaper` gives the exact condition.
- Liveness: nothing is said about elections succeeding or requests being answered in time.
- `RaftCore.Raft` keeps the core's fields in one record that its methods update; the code has one member per field.
- Raft without an attached write-ahead log, and the test-only entry points of the class.
- 64-bit wrap-around of terms, indexes, request ids and read contexts.
- MessagePack, CRC-32 arithmetic, file names, directories and the reading of several log files: one byte sequence stands for the log.
- Sockets, resolvers, timers, threads and signals: only the order of posted work is kept.
- PeerQueue.Queue.Send: reserving and posting are one step, so a stop request cannot fall between the two.
- Unknown and misspelt client commands, PING, and the textual form of replies; TRYAGAIN covers every reply that leaves the outcome open.
- Exit codes, and the message that a stopping process logs.
- Configuration and address parsing, logging, the transport header and byte buffer.
