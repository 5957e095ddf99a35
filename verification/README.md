# A verified model of the Raft key-value store

This project models one node of the replicated key-value store - leader election, log replication, commitment, the
key-value state machine, log compaction and snapshot transfer - and the cluster that such nodes form, and proves what
the protocol is for: one leader a term, matching logs, committed entries that every later leader has, state machines
that follow one sequence, and acknowledged writes that are never lost, over every run with lost, repeated and
reordered messages and with a crash after any transaction.

The model has three layers.

* **Store.** `Store.dfy` is the database of one node as a class: the metadata, the `log_entries`, `kv` and `snapshot`
  tables, and one method for each transaction or query. Its ghost state is the rows in index order and the list of
  everything that was ever on disk between two transactions. `Disk.dfy` and `Table.dfy` give each transaction as a
  function; `Compaction.dfy` relates a compacted table to the log on which no snapshot was ever taken.
* **Node.** `Node.dfy` is the node as a class, one method for each region of code that runs under the lock. The lock is
  not held around a remote call, so sending and handling the answer are separate methods. Each method is proved equal
  to a step function of `NodeSpec.dfy`: its new state, its reply, and the disk after each of its transactions.
* **Cluster.** `Cluster.dfy` lets nodes take these steps in any order. A message that was sent may be delivered at any
  later time, any number of times, or never. A crash may come after any number of the transactions of a step; the node
  then restarts from its disk. `Protocol.dfy`, `Actions.dfy` and `Elections.dfy` hold the protocol on complete logs,
  with the history of votes, of reigns (each elected leader's log) and of confirmations, and its inductive invariant;
  `Runs.dfy`, `Handlers.dfy`, `FollowerRuns.dfy` and `LeaderRuns.dfy` show that every step of a node, and every
  crash inside it, is a sequence of moves of that protocol; `ClusterSafety.dfy` and `OldMatches.dfy` put them together.

The theorems about runs are in `Safety.dfy` and `Durability.dfy`. A node's complete log (`full` in a cluster) is
bookkeeping; the theorems `RaftDurability.KvIsReplay`, `SameTable`, `SameRow` and `RowMatching` say what it means for
the tables. `Applying.dfy` is about the apply loop and compaction, `Snapshots.dfy` about one snapshot at two stores.

Safety alone would let nodes do nothing, so other files say what nodes do. `Answers.dfy`: who hears of a later term
follows it, every reply carries the replier's term, and roles change for no other reason. `Prompt.dfy`: leaders have
always committed what they may, candidates lead as soon as a quorum has voted, and every replication attempt sends.
`Compacting.dfy`: logs stay below their thresholds, and applied writes are reported. `Repair.dfy` and
`SnapshotRepair.dfy`: a peer's log comes to agree with the leader's, by entries or through a snapshot. `Progress.dfy`:
the cluster is never stuck, since every reachable state can go on to an acknowledged write. `Scenario.dfy` is one such
run in full, and `Stepping.dfy` has the steps that such runs are built from.

Four places in the code do something else than section 5 and Figure 13 of the Raft paper ("In Search of an
Understandable Consensus Algorithm", extended version). `Departures.dfy` says when they do no harm, and the cluster
delivers those messages only then (for the third, only when the snapshot covers all that is applied). For each there is
an input on which it goes wrong; for two of them it is the last state of a run.

* A follower commits `min(leaderCommit, own last index)` (`internal/raft/rpc.go:131`), not the minimum with the last
  carried index. A request that is not cut at 128 entries always carries what it commits. A cut one does no harm to a
  follower whose log the sender must have, because its last row is of the request's term, or of the term before and
  the follower voted for the sender; nor in a cluster of two. `CutBatch.dfy` is a run in which one does harm.
* Installing a snapshot keeps every row above it, whatever the local term at its index is
  (`internal/storage/storage.go:396`).
* Installing a snapshot below the apply position rolls the key-value table back, but not the position in memory
  (`internal/raft/rpc.go:172`).
* The answer to a snapshot is handled without looking at the role or at the term of the call
  (`internal/raft/node.go:445`). This is safe at a leader of any term, and at every node of a cluster of up to three. In
  a larger one it is wrong at a follower: `StaleReply.dfy` is a run of five nodes in which the commit index moves to an
  entry that a later leader does not have.

Every node's peer list is exactly the other nodes, each once. Store calls succeed, or the node crashes. An identifier is
a natural number, and an empty vote is `None`. A decoded command stands for its bytes, with a constructor for bytes that
do not decode; the same for the image in a snapshot. The vote counter of an election is the set of the nodes that have
answered, since each peer is asked once.

## Model

| member | source | states |
|---|---|---|
| `RaftSafety.ElectionSafety` | internal/raft/node.go:245-335 | Over a whole run, with crashes and restarts, no two different nodes are ever leaders of the same term, at whatever two moments one looks. |
| `RaftSafety.VotesOnce` | internal/raft/rpc.go:30-42 | Whatever shows at two moments of a run that a node voted in a term - its disk, which also holds its own vote when it stands itself, or a granting answer on the network - names the same candidate, across restarts. |
| `RaftSafety.LeaderAppendOnly` | internal/raft/rpc.go:198-208 | Between any two moments at which a node leads the same term its log has only grown, and only by entries of that term. |
| `RaftSafety.FrozenAtElection` | internal/raft/node.go:262-304 | A leader's log has, at the last index its vote requests for the term claimed, the term they claimed; everything up to there is of earlier terms and everything behind it of the leader's own. |
| `Answers.LaterTermIsFollowed` | internal/raft/node.go:337-349 | Whatever message arrives, its receiver is afterwards in the message's term or a later one, on disk too; a receiver that was behind is a follower then, with no vote but one that it gives with this message. |
| `Answers.RepliesCarryTerm` | internal/raft/rpc.go:15-175 | Every reply, to a vote request, to entries or to a snapshot, carries the term that the replier is in by then, which is the later of its own and the request's. |
| `Answers.StaleSenderIsDeposed` | internal/raft/node.go:504-508 | A request of an old term is answered, and the answer, whenever it arrives, takes the sender to the replier's term, as a follower if it was behind. |
| `Answers.RoleChanges` | internal/raft/node.go:245-349 | An operation changes a role only if a later term is heard of, the time of a node that does not lead is up, the leader of the term is heard of, or a candidate wins; a leader leads on otherwise. |
| `Answers.LateAnswerIsIgnored` | internal/raft/node.go:509-512 | An answer to entries of another term, or at a node that does not lead, changes nothing. |
| `Answers.LateVoteIsIgnored` | internal/raft/node.go:299-301 | An answer to a vote request of another term, at a node that is no candidate, or without a vote, changes nothing. |
| `Answers.LateElectionIsIgnored` | internal/raft/node.go:308-314 | Winning without peers needs a candidate still in the term that it stood for, and no peers. |
| `Answers.FollowsCommitIndex` | internal/raft/rpc.go:130-136 | A follower that accepts a request reports a match through the last carried entry, and its commit index becomes the leader's, cut at its own last index, unless it is that far already. |
| `Promptness.CandidateLacksVotes` | internal/raft/node.go:302-304 | In every reachable state a candidate with peers has not counted the votes of a quorum: with those it leads. |
| `Promptness.LeaderCommitsAll` | internal/raft/node.go:539-566 | In every reachable state no entry of a leader's term behind its commit index is known to be on a quorum. |
| `Promptness.AttemptSends` | internal/raft/node.go:405-487 | In every reachable state a replication attempt at a leader sends: its recorded snapshot exactly if the next index is covered by it, and otherwise the next batch behind an entry whose term it knows. |
| `Promptness.AttemptsReachTheLog` | internal/raft/node.go:466-470 | A next index beyond the end of the log is lowered one by one until the attempt can be sent at the end. |
| `Promptness.AcceptsAsLeader` | internal/raft/rpc.go:179-208 | A write is accepted exactly if it has a key and the node leads, as the next entry of the leader's term. |
| `RaftSafety.LogMatching` | internal/raft/rpc.go:72-123 | In every reachable state two nodes' complete logs with equal terms at an index are identical up to it. |
| `RaftSafety.RequestMatching` | internal/raft/node.go:459-497 | The same between a log and the entries of any request in flight, including the entry before them. |
| `RaftDurability.RowMatching` | internal/raft/rpc.go:72-123 | Log matching on the stored rows of two compacted tables. |
| `Protocol.HeldSurvives` | internal/raft/rpc.go:28-32 | An entry of a leader's own term that is held by voters of whom every election needs one is in the log of every leader of a later term when it is elected: the up-to-date check, by induction over terms. |
| `Protocol.CommittedSurvives` | internal/raft/rpc.go:28-32 | So is what a quorum has confirmed, because quorums intersect. |
| `FollowerRuns.PairAgrees` | internal/raft/rpc.go:28-32 | In a cluster of up to two nodes a leader has all that the other node stores. |
| `FollowerRuns.VoterIsPrefix` | internal/raft/rpc.go:28-42 | A leader elected with a node's vote, in the term right after that of the node's last entry, has all that the node stores. |
| `LeaderRuns.CommittableIsCommitted` | internal/raft/node.go:546-564 | An index that passes the own-term and majority-count check is held by a quorum of the cluster in the leader's own term. |
| `LeaderRuns.CountedQuorum` | internal/raft/node.go:360-362 | The count of matching peers plus one reaches the majority exactly when these peers and the node are a quorum of all nodes. |
| `RaftSafety.LeaderCompleteness` | internal/raft/node.go:546-564 | The prefix that a leader has committed is, entry by entry, in the log of every leader of a later term at any moment of the run. |
| `RaftSafety.CommittedLater` | internal/raft/node.go:539-566 | What a node has committed at one moment counts as committed at every later moment. |
| `RaftSafety.AppliedAgree` | internal/raft/node.go:568-599 | Any two nodes at any two moments have applied the same entries, as far as both have applied. |
| `RaftDurability.StateMachineSafety` | internal/raft/node.go:568-599 | For every run there is one sequence of entries of which every node, at every moment, has applied a prefix, and its key-value table is the replay of that prefix. |
| `RaftDurability.SameTable` | internal/raft/node.go:594-598 | Two nodes with equal apply positions hold equal key-value tables, whenever one looks. |
| `RaftDurability.SameRow` | internal/raft/node.go:570-571 | An index that two nodes have applied and still store holds the same entry on both. |
| `RaftDurability.KvIsReplay` | internal/storage/storage.go:278-293 | In every reachable state the key-value table is the replay of the entries 1 to last applied, and the stored rows are the compacted form of the complete log. |
| `RaftDurability.RowsCarryIndices` | internal/storage/storage.go:278-293 | The index column of a key-value row is an index at which the key had the row's value, and behind which nothing applied has written the key. |
| `RaftDurability.AckedWrites` | internal/raft/rpc.go:203-237 | Once a client was told that its write succeeded, that entry is at its index in the log of every leader of the same or a later term, at every moment after the write was accepted. |
| `RaftDurability.CommittedOnMajority` | internal/raft/node.go:546-564 | What a node has committed at one moment is, at every later moment, in the logs of all members of some quorum. |
| `RaftDurability.WriteLands` | internal/raft/rpc.go:198-208 | An accepted write leaves its entry at the end of the log of a node that is still leader of the entry's term. |
| `Progress.AWriteCanSucceed` | internal/raft/rpc.go:178-237 | From every reachable state, whatever was compacted and will be, events that the guards allow lead to a leader that accepts any given write, and on to the moment it reports success. |
| `Scenarios.AWriteSucceeds` | internal/raft/rpc.go:203-237 | There is a run of three nodes, under all guards, in which a leader is elected and tells a client that its write succeeded; the write is in its table. |
| `RaftDurability.IndicesOrdered` | internal/raft/node.go:568-629 | In every reachable state snapshot index <= last applied = commit index <= last index, and memory and disk agree on the apply position. |
| `RaftDurability.CommittedStays` | internal/raft/rpc.go:130-133 | No event, a crash after any transaction included, lowers a node's commit index or changes its log up to it. |
| `RaftDurability.DeletedAboveCommit` | internal/raft/rpc.go:109-123 | A request deletes or inserts rows only above the follower's commit index. |
| `RaftDurability.InFlight` | internal/raft/node.go:475-497 | Every request in flight carries entries without a gap, and fits the table of a node that accepts it. |
| `RaftDurability.CarryingIsEnabled` | internal/raft/node.go:490-497 | In every reachable state a request may be delivered if its commit index is at most its last carried index, so that the guard excludes only cut batches; and any request in a cluster of two, or to a follower whose log the sender must have. |
| `RaftDurability.MatchTruth` | internal/raft/node.go:513-521 | A peer still in the leader's term has the leader's log up to the match index that the leader holds for it, whatever the order of answers: in every run whose snapshot answers reach the leader of the call's term, and in any run for a match index above the commit index. |
| `RaftSafety.NextKeeps` | internal/raft/node.go:94-117 | Every event, and every crash after any number of a step's transactions followed by a restart, keeps the cluster invariant, and history only grows. |
| `RaftSafety.CrashIsSafe` | internal/raft/node.go:94-117 | Stopping any step of a reachable state after any number of its transactions and reloading the disk leaves a state that satisfies the cluster invariant, with no vote, reign or confirmation forgotten. |
| `RaftSafety.RunInv` | internal/raft/node.go:94-117 | The invariant holds in every state of every run from empty nodes. |
| `NodeRuns.ApplyLoopRuns` | internal/raft/node.go:569-599 | In a reachable state the apply loop ends with everything committed applied, meets no missing entry, and is safe to stop after any transaction. |
| `Applying.ApplyLoopReplays` | internal/raft/node.go:568-599 | On its own, the loop finishes if and only if every pending command decodes; then the table is the replay of the pending entries on the old one, one transaction each. |
| `Applying.CompactionKeepsUp` | internal/raft/node.go:604-629 | A snapshot is taken exactly when the threshold is reached; afterwards fewer applied entries than the threshold are stored, and what was dropped is in the snapshot. |
| `Applying.ApplyCompacts` | internal/raft/node.go:568-629 | Whenever entries are applied, whether or not there was a snapshot before, one is taken exactly if the threshold is reached by then, at the new apply position and with the table as its image. |
| `Applying.ApplyStops` | internal/raft/node.go:586-594 | An entry that does not decode stops the loop before it, and no snapshot is taken. |
| `Applying.ApplyStartsAtSnapshot` | internal/raft/node.go:576-585 | An apply position behind the snapshot is moved up to it, and nothing below it is applied again. |
| `Compacting.EventKeepsCompact` | internal/raft/node.go:600-629 | In every run, an event that commits something at a node leaves fewer applied entries stored there than the threshold, and no event but a crash undoes that. |
| `Compacting.StaysCompact` | internal/raft/node.go:604-629 | As long as no node crashes, every node always stores fewer applied entries than its threshold. |
| `Compacting.WriteIsReported` | internal/raft/rpc.go:223-237 | In every run, with any thresholds, the node that accepted a write reports success exactly while it leads the entry's term and has applied the entry, as a row or in a snapshot; the entry is then in its log and in its table. |
| `Applying.GrantedIsPersisted` | internal/raft/rpc.go:15-42 | A vote is granted exactly when the term, the earlier vote and the log allow it, and then it is on disk first. |
| `Applying.InstallTwice` | internal/raft/rpc.go:158-161 | Delivering a snapshot again changes nothing and answers the same. |
| `NodeSpec.HighestCommittable` | internal/raft/node.go:546-564 | The result is the greatest index above the old commit index that is of the current term and held by a majority, or the old index when there is none. |
| `Compaction.CompactionIsTransparent` | internal/storage/storage.go:139-252 | Wherever the compacted table is defined, its four reads agree with the complete log. |
| `Compaction.AnyMixIsTransparent` | internal/storage/storage.go:254-372 | The same after any mix of appends, overwrites, truncations and snapshots, which also leave exactly the rows above the snapshot without a gap. |
| `Compaction.OneOperation` | internal/storage/storage.go:254-276 | Every table operation commutes with compaction. |
| `Compaction.MergeRefines` | internal/raft/rpc.go:83-123 | Scan, delete and append leave the log alone when it has all carried entries and otherwise make it the sender's log up to the last carried entry; nothing the two agree on is lost, also not between the deletion and the insertion. |
| `Compaction.FirstDifferenceParts` | internal/raft/rpc.go:99-117 | The scan stops exactly where the two logs part. |
| `LogTables.MergeIdempotent` | internal/raft/rpc.go:98-123 | Delivering the same entries again changes nothing. |
| `LogTables.MergeContains` | internal/raft/rpc.go:118-123 | After the merge every carried entry is found with its carried term. |
| `Compaction.TruncateKeepsBelow` | internal/storage/storage.go:273-276 | Deleting from any index removes exactly the rows from it on. |
| `Compaction.EntriesStartBehindSnapshot` | internal/storage/storage.go:225-252 | A batch asked for at or below the snapshot starts right behind it. |
| `Snapshots.SnapshotThenReplay` | internal/storage/storage.go:326-418 | Installing on any store what was recorded at k, then applying k+1 to m, gives the map of applying 1 to m on an empty store. |
| `Snapshots.NoDataIsEmpty` | internal/storage/storage.go:167-181 | A store without a snapshot offers index 0 and no data, and no data install as the empty map. |
| `LogRepair.RoundStep` | internal/raft/node.go:503-534 | One replication round fails exactly when it probes beyond the shared prefix, and then lowers the next index by one but never below the index behind that prefix; otherwise the two logs share exactly what was carried. |
| `Answers.LowestProbeStays` | internal/raft/node.go:530-532 | A refused probe at the first index leaves the next index where it is. |
| `LogRepair.RoundCanHappen` | internal/raft/node.go:397-534 | A round is never blocked: each of its three events can happen, under all guards, as long as the leader stores the rows behind the index that it probes. |
| `LogRepair.RepairConverges` | internal/raft/node.go:397-537 | With one call in flight the peer agrees with the leader's whole log after as many failing rounds as the next index is too high and one round for each batch of 128 missing entries, and the number of calls of up to 64 attempts follows; the leader may compact on the way. |
| `LogRepair.RepairCanHappen` | internal/raft/node.go:397-537 | Every run that has come to a leader ready to repair can go on with exactly these rounds to full agreement, if the leader still has the rows and no snapshot is due that would drop them. |
| `SnapshotRepair.ContinuesBehindSnapshot` | internal/raft/node.go:451-453 | After the answer to a snapshot at k, a leader that has not compacted beyond k sends entries from k + 1 on, behind k, and no snapshot again. |
| `SnapshotRepair.Exchange` | internal/raft/node.go:417-456 | One exchange of the leader's snapshot with a peer whose log ends at it or before leaves the two logs sharing exactly the snapshot's prefix, with the leader probing there and storing what is behind it. |
| `SnapshotRepair.SnapshotRepairCanHappen` | internal/raft/node.go:397-537 | Every run that has come to a leader that has compacted away what such a peer lacks can go on with one failing round for each index above the snapshot, one exchange, and one round for each batch behind it, to agreement with the whole log. |
| `LogRepair.MatchIsShared` | internal/raft/node.go:513-521 | In a run whose snapshot answers reach the leader of the call's term, the match index for a peer lies within the prefix that the two logs share. |
| `Departures.FollowerCommitSafeIff` | internal/raft/rpc.go:130-133 | What the follower commits is in the sender's log, for every log that the sender may have by the follower's own log, term, vote and commit index, if and only if the request carries it, or nothing lies behind what it carries, or the follower's last row is of the request's term, or it is of the term before and the follower voted for the sender. |
| `Departures.SenderIsSource` | internal/raft/rpc.go:72-97 | In every run, when a request is accepted, the log of its sender is among those logs. |
| `Departures.SendVouchesIff` | internal/raft/node.go:475-497 | A request carries its own commit index exactly when the batch limit does not cut below it. |
| `CutBatch.CutBatchCommitsForeignEntry` | internal/raft/rpc.go:130-133 | A run of three nodes, with two elections of the same leader, a restart and 129 refused answers, ends with a request in flight that is cut at 128 and carries commit index 130; the follower would commit and apply an entry 129 that its leader does not have. |
| `Departures.InstallSuffixSafeIff` | internal/storage/storage.go:396-398 | The log after installing a snapshot still matches the log before if and only if the local log ends at the snapshot or has its term there. |
| `Departures.InstallKeepsForeignRow` | internal/storage/storage.go:396-398 | A row of term 1 stays behind a snapshot of term 2. |
| `Departures.InstallTableSafeIff` | internal/raft/rpc.go:163-172 | After installing, the key-value table is the replay of everything counted as applied if and only if the snapshot covers it all, or the image already holds the last write of every key that the stored rows behind the snapshot have written; memory and disk agree on the apply position exactly in the first case. |
| `Departures.ReplayStaysIff` | internal/raft/node.go:568-599 | Replaying entries leaves a map as it is if and only if the map holds the last write of every key that they write. |
| `Departures.InstallForgetsAppliedWrite` | internal/raft/rpc.go:163-172 | An older snapshot takes an applied write out of the table, and the apply loop does not bring it back. |
| `Departures.InstallReplySafe` | internal/raft/node.go:445-456 | In every reachable state the answer to a snapshot leaves only committed entries below the commit index, if it reaches a leader of whatever term, or a node whose match indices count nothing above its commit index, or any node of a cluster of up to three. |
| `LeaderRuns.RememberedIsCommitted` | internal/raft/node.go:445-456 | In a cluster of two or three, an entry of its term that a node counts on matches of an earlier reign is committed, because the node and the leader that sent it are a quorum. |
| `OldMatches.BackedNext` | internal/raft/node.go:445-456 | Every event keeps it so that a node which remembers a match above its commit index has got the rows of its term from another leader, and has confirmed them. |
| `StaleReply.LateAnswerCommitsUncommitted` | internal/raft/node.go:445-456 | A run of five nodes reaches a state in which the answer to a snapshot would make a follower commit, on matches of an earlier reign, an entry that is not committed; the run can go on to a leader of the next term with another entry there. |
| `Departures.RefusalCountsAsMatch` | internal/raft/node.go:446-452 | A peer that refuses a snapshot of an old term, answering in its own, is taken for a match by a leader of a later term, though it stores nothing. |
| `Nodes.Node.constructor` | internal/raft/node.go:94-128 | A node starts as a follower with exactly what its store holds. |
| `Nodes.Node.StepDown` | internal/raft/node.go:337-349 | Equals the step function: a higher term is adopted and persisted without a vote, and the role is follower. |
| `Nodes.Node.StartElection` | internal/raft/node.go:245-274 | Equals the step function: nothing at a leader; otherwise the new term and the own vote are persisted, and the request carries the last index and term. |
| `Nodes.Node.RequestVote` | internal/raft/rpc.go:11-46 | Equals the step function, reply and transactions included. |
| `Nodes.Node.VoteReply` | internal/raft/node.go:293-304 | Equals the step function: only a granted vote for the current candidacy counts, and the majority makes the node leader. |
| `Nodes.Node.ElectAlone` | internal/raft/node.go:308-314 | Equals the step function for a node without peers. |
| `Nodes.Node.BecomeLeader` | internal/raft/node.go:317-331 | The loop over the peers leaves next index last + 1 and match index 0 for each, and the own last index for the node. |
| `Nodes.Node.ApplyCommitted` | internal/raft/node.go:568-602 | The loop equals the recursive step function, with every transaction in order, and compacts only if it finished. |
| `Nodes.Node.CompactIfNeeded` | internal/raft/node.go:604-629 | Equals the step function. |
| `Nodes.Node.AdvanceCommit` | internal/raft/node.go:539-566 | The upward scan that overwrites as it goes computes the greatest committable index, and applies up to it. |
| `Nodes.Node.CountHolders` | internal/raft/node.go:555-560 | The loop counts the peers whose match index reaches the entry, and the node itself. |
| `Nodes.Node.Replicate` | internal/raft/node.go:405-487 | Equals the step function: a snapshot when the next index is compacted away, a retry one lower when the previous term is unknown, and otherwise at most 128 entries with the commit index read under the same lock. |
| `Nodes.Node.AppendReply` | internal/raft/node.go:503-534 | Equals the step function. |
| `Nodes.Node.InstallReply` | internal/raft/node.go:445-456 | Equals the step function, without a role or term check. |
| `Nodes.Node.WriteAppend` | internal/raft/rpc.go:178-214 | Equals the step function: an entry of the current term behind the last one, committed at once in a cluster of one. |
| `Nodes.Node.WriteLook` | internal/raft/rpc.go:223-237 | Success is reported exactly when the node still leads the entry's term and has committed its index. |
| `Nodes.Node.AppendEntries` | internal/raft/rpc.go:48-137 | Equals the step function, reply and every transaction included. |
| `Nodes.Node.FollowEntries` | internal/raft/rpc.go:63-136 | The part after the term check equals its step function; the collecting loop drops nothing of an accepted request. |
| `Nodes.Node.MergeIncoming` | internal/raft/rpc.go:98-123 | Scanning, deleting and appending in place equal the pure merge, with the deletion and the insertion as separate transactions. |
| `Nodes.Node.Scan` | internal/raft/rpc.go:99-117 | The loop finds the first carried entry that is missing or of another term, and which of the two it is. |
| `Nodes.Node.InstallSnapshot` | internal/raft/rpc.go:139-176 | Equals the step function; undecodable data gets no response. |
| `Stores.Store.Open` | internal/storage/storage.go:31-99 | An existing database keeps all it holds, and a new one holds term 0, no vote, and nothing else. |
| `Stores.Store.LastIndexAndTerm` | internal/storage/storage.go:139-153 | The last stored entry's index and term, or the snapshot's when no row is left. |
| `Stores.Store.Term` | internal/storage/storage.go:183-207 | Defined at 0, at the snapshot index and at the stored rows only. |
| `Stores.Store.Entry` | internal/storage/storage.go:209-223 | The stored row at an index above the snapshot, if there is one. |
| `Stores.Store.EntriesFrom` | internal/storage/storage.go:225-252 | The rows from an index on, in order, at most `limit`. |
| `Stores.Store.Get` | internal/storage/storage.go:295-305 | The value of a key in the current table. |
| `Stores.Store.All` | internal/storage/storage.go:307-324 | The loop over the rows returns exactly the key-value map. |
| `Stores.Store.LoadSnapshot` | internal/storage/storage.go:167-181 | The recorded snapshot, or an empty one. |
| `Stores.Store.SaveTermVote` | internal/storage/storage.go:113-127 | Term and vote in one transaction, nothing else. |
| `Stores.Store.AppendEntries` | internal/storage/storage.go:254-271 | The insert loop equals overwriting a run of the table, in one transaction; no entries, no transaction. |
| `Stores.Store.DeleteFrom` | internal/storage/storage.go:273-276 | The rows from an index on are gone, and no others. |
| `Stores.Store.ApplySet` | internal/storage/storage.go:278-293 | The value and the apply position in one transaction. |
| `Stores.Store.CreateSnapshot` | internal/storage/storage.go:326-372 | The snapshot records the key-value map, covers the rows it drops, and leaves the reads of the rest unchanged. |
| `Stores.Store.InstallSnapshot` | internal/storage/storage.go:374-418 | Undecodable data changes nothing; otherwise the table is the image, and rows up to the index are gone. |

## Left out

- RaftSafety.NextKeeps: in a cluster of three or more, the run theorems let a request be delivered only if the follower's commit index stays within what it carries, or the follower has nothing behind that, or its log is one that the sender must have; `Departures.FollowerCommitSafeIff` and `CarryingIsEnabled` say what this excludes.
- Departures.FollowerCommitSafeIff: the logs that the sender may have do not depend on the size of the cluster or on the match indices that a former leader remembers; for a cluster of up to two nodes, `FollowerRuns.PairAgrees` shows that nothing needs to be guarded.
- RaftSafety.RunInv: snapshot transfer is part of a run when the snapshot covers what the receiver has applied, and the receiver's log ends there or has its term there; its answer is delivered to a leader of any term, and to another node only if that node counts no majority above its commit index or the cluster has up to three nodes.
- Departures.InstallReplySafe: the condition is sufficient in all reachable states; outside of it `StaleReply` gives a run that goes wrong, not a run for every such state.
- RaftDurability.MatchTruth: a match index at or below the commit index may be untrue after a snapshot answer from another term (`Departures.RefusalCountsAsMatch`); it can no longer commit anything.
- LogRepair.RepairConverges: a leader that restarted between applying and compacting may be due to drop rows that the peer lacks; this is excluded at the start of the repair.
- SnapshotRepair.SnapshotRepairCanHappen: the peer's log ends at the snapshot or before it; otherwise the peer's guard does not let the snapshot through, since the source would keep the rows behind it (`Departures.InstallSuffixSafeIff`).
- Nodes.Node.AppendEntries: requires entries that follow the previous index without a gap; the source takes any list, and every request that is ever sent has this form (`RaftDurability.InFlight`).
- Nodes.Node.FollowEntries: the same requirement.
- Nodes.Node.MergeIncoming: requires entries that start within the table or right behind it and have no gap, which is what its caller has left of such a request.
- Stores.Store.AppendEntries: requires a run of entries that starts above the snapshot and not behind the end, as its callers pass.
- Stores.Store.CreateSnapshot: requires an index not below the current snapshot, which its caller checks (`internal/raft/node.go:613`).
- Stores.Store.InstallSnapshot: requires an index not below the current snapshot, which its caller checks (`internal/raft/rpc.go:158`).
- A store call that fails without a crash; in particular a step-down whose persistence failed, which the source only logs.
- Real time: tickers, deadlines, jitter, timeouts, and that a leader is eventually elected. Timeouts and heartbeats are events that may come at any moment.
- gRPC, protobuf and HTTP plumbing, connections, start and stop, metrics, logging, command-line tools and deployment.
- SQL and write-ahead logging: tables are maps, and a transaction is atomic. Numbers are unbounded; the casts between unsigned and signed 64-bit integers are not modelled.
- JSON text: encoding a command or a snapshot and decoding it again is the identity; the source replaces invalid UTF-8.
- Reads: the quorum check of a read does not order it after earlier writes, so nothing is claimed about freshness; a value comes from an applied prefix (`RaftDurability.KvIsReplay`).
- Proxying to the known leader, leader hints, status, and environment parsing, which only forward values.
- Membership change, which the source does not have.
