# NuKV in Dafny

NuKV is a replicated key-value store: a hand-written Raft with log compaction, chunked
snapshot installation, ReadIndex reads and request deduplication, over one RocksDB database
per node. This project models its core in three layers that meet, and proves what the
layers promise to each other.

**The protocol** (`Cluster`, `Steps`, `Invariant`, `Growth`, `HistoryGrowth`,
`Completeness`, `ElectionSteps`, `ReplicationSteps`, `SnapshotSteps`, `LocalSteps`,
`Safety`, `Moments`, `Freshness`, `Repair`, `Transfer`, `Progress`, `Availability`, and the
constructed runs in `StaleRead`, `Scenes`, `Stall`, `Divergence`). A cluster of any size is a set of nodes and a growing set of messages, so loss, duplication, delay and reordering
are all runs. A step is one atomic write batch of one node, so a crash may fall between any
two batches of a handler. A node carries its full log; the pair of snapshot index and the
entries after it is what the program keeps. A history records elections, leader logs,
acknowledgements and commits; steps write it and never read it. `Invariant` is the inductive
invariant, one `...Keeps` lemma per step preserves it, and `Safety` states the results over
arbitrary runs and arbitrary pairs of moments. `Progress` and `Availability` state what can
always be done: from whatever a run left behind, a majority of idle nodes can elect a leader,
repair its members' logs and commit a new command (`MajorityCanElect`, `MajorityCanCommit`).

**The node** (`Handlers`, `Draining`, `Server`). `Server.RaftNode` has the program's fields
and its loops. Every handler is specified by what it does to the protocol's view of the node
(`View`), also when applying a committed command throws, and `Handlers` shows that each of
them is a run of protocol steps. A node that threw stands in its apply phase.

**The database** (`Keys`, `Storage`, `Persistence`, `Applier`, `Disk`, `Recovery`,
`Commands`, `Framing`). `Database.Store` is a map from keys to records with atomic batches that delete
before they put. `Represents` says how a node's durable state lies under the `__raft/` keys,
each storage operation is proved to apply one named batch that moves from one represented
state to the next, `Disk` does so for every sequence of writes and shows that a database
determines the state it holds, and `Recovery` follows a node's database along a whole run of
the protocol and restarts the node from it.

"Every run" below means every run of these steps. A node whose next committed command is
rejected takes no further step until it crashes. In the program the exception closes the
connection and the node lives on, with its commit index raised and no compaction, so the
distance between commit index and snapshot can grow past the batch limit there; such runs are
outside the model.

Four places where the program differs from textbook Raft are modelled as written:

- `commit_index_` is assigned without a maximum when entries are accepted, so it may fall,
  even below `last_applied_` (src/raft_node.cpp:1246). Nothing here claims it is monotone.
  The field `high` of a node is bookkeeping: the furthest index it ever knew committed.
- The same line uses the last index of the follower's log where Raft uses the last new
  entry. It is sound because the threshold of 8 is below the batch limit of 64
  (`CommitBoundOnWire`).
- A restart lowers `last_applied_` to the stored commit index (src/raft_node.cpp:143), so it
  may replay entries. Commands with a request id are skipped, commands without one write
  again. The history's flag `clean` is true until a restart replays a command without a
  request id. Log-level results (elections, log matching, leader completeness, agreement on
  committed entries) hold in every run; results about store contents hold while `clean`
  does. `IdentifiedIsClean` shows that it always does when every submitted command has an
  id, `AppliedIsState` when every restart finds its stored commit index at or above its
  stored progress. `ReplayInvisibleIff` says exactly when a replay changes nothing, and
  `ReplayDiverges` constructs a run of three nodes in which two idle replicas with equal logs
  and equal last_applied end with different values of a key.
- A rejected AppendEntries never lowers `next_index_` below the snapshot index plus one
  (src/raft_node.cpp:1625), and a snapshot is sent only when it is at or below the snapshot
  index (src/raft_node.cpp:695). `RepairIff` gives the exact condition under which a new
  leader can repair a follower with AppendEntries; `RepairStalls` shows that otherwise it
  repeats the same request until its next compaction, and `RepairCanStall` constructs a run of
  three nodes that ends there.

README.md of the repository calls ReadIndex reads linearizable. The code gives that only
when no entry above the leader's commit index was inherited from an earlier term, which a
commit in its own term ensures (`OwnTermSuffices`): `ReadFreshness` proves it under that
condition, `MissedIsInherited` shows that only such an inherited entry can be missed, and
`ConfirmedReadCanBeStale` constructs a run of three nodes where the condition fails and a
confirmed read misses a committed write.

Commands, log entries and snapshots are values instead of serialized messages; the snapshot
codec of the protocol is any pair of functions that round-trips. Integers are unbounded.
Timers, the network and the scheduler are steps that may happen at any time.

## Model

| member | source | states |
|---|---|---|
| `Safety.InvariantHolds` | src/raft_node.cpp:445-1809 | every state of every run, with any loss, duplication, reordering and any crashes, satisfies the inductive invariant; runs in which a node lives on after an exception are outside the model |
| `Safety.RunGrows` | src/raft_node.cpp:445-1809 | along a run nothing recorded is ever taken back: elections, ballots and commits stay, leader logs and acknowledgements only grow |
| `Safety.ElectionSafety` | src/raft_node.cpp:445-500 | two nodes that lead the same term, at any two moments of a run, are the same node |
| `Safety.LeaderAppendOnly` | src/raft_node.cpp:1852-1853 | while a node leads a term its log is only extended, across compaction and at any two moments |
| `Safety.LogsMatch` | src/raft_node.cpp:1206-1241 | two nodes at any two moments with the same term at an index hold the same entries up to it |
| `Safety.LeaderHasCommitted` | src/raft_node.cpp:890-915 | what a leader commits is a prefix of the log of every leader of a later term, whenever that one leads |
| `Safety.StateMachineSafety` | src/raft_node.cpp:1723-1746 | any two nodes at any two moments agree on every entry at or below both commit indexes, and on all entries both ever knew committed; in clean runs stores that stand for equally long prefixes are equal |
| `Safety.StoreIsFold` | src/raft_node.cpp:1723-1746 | at every batch boundary of a clean run the store is the fold of an accepted committed prefix, the snapshot bytes encode the fold up to the snapshot index, and what may be replayed has request ids |
| `Safety.IdentifiedIsClean` | src/raft_node.cpp:138-145 | if every submitted command has a request id, no restart anywhere in the run replays a command without one |
| `Safety.AppliedIsState` | src/raft_node.cpp:138-145 | if every restart finds stored commit at or above stored progress, last_applied is at every moment exactly the prefix the store stands for, and the run is clean |
| `Safety.ReplicasConverge` | src/raft_node.cpp:1723-1746 | in such runs two replicas with equal last_applied have equal user entries and equal request tables |
| `Safety.CommitBoundSent` | src/raft_node.cpp:695-720 | every AppendEntries ever sent announces a commit index no larger than the last entry it carries, and that prefix of its leader's log is committed |
| `Safety.CommitBoundOnWire` | src/raft_node.cpp:1206-1249 | a follower of that term that passes the consistency check takes the request, ends with the leader's entries through the last one sent, commits exactly the announced index and keeps everything it knew committed |
| `Completeness.LogMatching` | src/raft_node.cpp:1206-1241 | two logs that are each a prefix of a leader log agree up to any index at which their terms agree |
| `Completeness.LeaderCompleteness` | src/raft_node.cpp:1110-1123 | a committed prefix is in the log every later winner started with, by induction over terms |
| `Completeness.CandidateHolds` | src/raft_node.cpp:1936-1942 | a candidate that a voter finds at least as up to date holds every committed entry the voter holds, given that the winners in between do |
| `Completeness.SafePrefixesAgree` | src/raft_node.cpp:890-915 | two committed prefixes of two logs never disagree |
| `ElectionSteps.TermNotWonBefore` | src/raft_node.cpp:1152-1173 | a candidate whose distinct granters are a majority is the first winner of its term |
| `ElectionSteps.TimeoutKeeps` | src/raft_node.cpp:445-462 | becoming a candidate keeps the invariant |
| `ElectionSteps.ObserveKeeps` | src/raft_node.cpp:492-511 | stepping down on a newer term or on a message of the current leader keeps the invariant |
| `ElectionSteps.AnswerVoteKeeps` | src/raft_node.cpp:1105-1123 | answering a vote request, with the vote stored before the reply, keeps the invariant |
| `ElectionSteps.CountVoteKeeps` | src/raft_node.cpp:1158-1169 | counting a granted vote once per responder keeps the invariant |
| `ElectionSteps.WinKeeps` | src/raft_node.cpp:464-490 | becoming leader on a majority keeps the invariant |
| `ReplicationSteps.SubmitKeeps` | src/raft_node.cpp:1852-1853 | appending a client's command to the leader's log keeps the invariant |
| `ReplicationSteps.CommitBound` | src/raft_node.cpp:27-28 | between handlers a request built for any next index above the snapshot carries entries through the leader's commit index, by the relation of 8 and 64 |
| `ReplicationSteps.SendAppendKeeps` | src/raft_node.cpp:695-720 | sending entries from any next index above the snapshot keeps the invariant |
| `ReplicationSteps.AbsorbIsMerge` | src/raft_node.cpp:1214-1241 | the entry loop, which compares terms one index at a time and truncates, keeps the log if it already contains the leader's prefix and replaces it by that prefix otherwise, and never meets a conflict at a committed index |
| `ReplicationSteps.MergedIsMerge` | src/raft_node.cpp:1206-1241 | a request that passes the consistency check is never refused by the loop and merges the leader's log into the follower's |
| `ReplicationSteps.AnswerAppendKeeps` | src/raft_node.cpp:1190-1258 | accepting or refusing entries keeps the invariant |
| `ReplicationSteps.AckAppendKeeps` | src/raft_node.cpp:1618-1623 | recording any response of the current term, stale or repeated, keeps the invariant |
| `ReplicationSteps.AckSnapshotKeeps` | src/raft_node.cpp:1490-1501 | raising the match index to the snapshot index when a peer has taken all its bytes keeps the invariant |
| `ReplicationSteps.HoldersHold` | src/raft_node.cpp:899-909 | everyone counted for an eligible index is a configured peer that has stored the leader's log through it in this term |
| `ReplicationSteps.AdvanceKeeps` | src/raft_node.cpp:883-916 | committing an own-term entry held by more than half keeps the invariant |
| `SnapshotSteps.SendSnapshotKeeps` | src/raft_node.cpp:799-817 | sending a chunk from any offset keeps the invariant |
| `SnapshotSteps.SnapshotName` | src/raft_node.cpp:1334-1339 | last included index and term name a snapshot: every leader log through them has the same prefix |
| `SnapshotSteps.Reassembly` | src/raft_node.cpp:1334-1367 | whatever chunks were lost, repeated or interleaved, the buffer is a prefix of the one snapshot it is labelled with, and the last chunk makes it the whole of it |
| `SnapshotSteps.InstallIsMerge` | src/raft_node.cpp:1369-1381 | keeping the suffix exactly when the term at the snapshot index agrees is merging the leader's prefix into the log |
| `SnapshotSteps.InstallKeepsHigh` | src/raft_node.cpp:1369-1400 | installing a snapshot drops no entry the node ever knew committed |
| `SnapshotSteps.AnswerSnapshotKeeps` | src/raft_node.cpp:1291-1420 | refusing, buffering or installing a chunk keeps the invariant |
| `LocalSteps.ApplyNextKeeps` | src/raft_node.cpp:1730-1743 | applying one committed entry keeps the invariant, also when it is a replay |
| `LocalSteps.ApplyState` | src/raft_node.cpp:1730-1743 | applying the next entry leaves the store at the fold of the prefix, whether the entry is new or was applied before a restart |
| `LocalSteps.PersistProgressKeeps` | src/raft_node.cpp:1744-1744 | storing the progress after the apply loop keeps the invariant |
| `LocalSteps.SnapshotLabel` | src/raft_node.cpp:1748-1766 | when a snapshot is due, last_applied, commit_index and the store's prefix coincide |
| `LocalSteps.CompactLogKeeps` | src/raft_node.cpp:1748-1800 | taking a snapshot and dropping the prefix keeps the invariant |
| `LocalSteps.CrashKeeps` | src/raft_node.cpp:130-145 | a crash at any batch boundary followed by a reload keeps the invariant |
| `LocalSteps.RestartReplaysNothing` | src/raft_node.cpp:138-143 | a restart replays nothing if and only if the stored commit index or the snapshot covers the stored progress |
| `ReadSteps.StartReadKeeps` | src/raft_node.cpp:566-584 | opening a read at the current commit index keeps the invariant |
| `ReadSteps.AnswerReadKeeps` | src/raft_node.cpp:1518-1533 | confirming a term only while in it keeps the invariant |
| `ReadSteps.AckReadKeeps` | src/raft_node.cpp:1561-1582 | counting a confirmation once per responder keeps the invariant |
| `Moments.MatchIndexSound` | src/raft_node.cpp:1601-1623 | if a leader's match index for a peer reaches an index above its snapshot, then at some earlier moment of the same term that peer's log contained the leader's log up to that index |
| `Moments.SnapshotLabelled` | src/raft_node.cpp:1748-1766 | in every run, between handlers fewer than eight applied entries wait for a snapshot, and a snapshot that is due has last_applied equal to commit_index and the state of exactly those entries |
| `Moments.InstallRefines` | src/raft_node.cpp:1366-1398 | in every run the installing batch leaves the leader's prefix, keeps the suffix exactly when the terms agree, drops nothing committed and nothing acknowledged to the current leader, and in clean runs leaves the fold of the prefix |
| `Moments.InstallReplays` | src/raft_node.cpp:1383-1401 | in every clean run the whole handler ends normally with last_applied equal to commit_index and the store equal to the fold of the log up to it |
| `Moments.RestartReplays` | src/raft_node.cpp:130-145 | in every clean run, if what a node has stored as committed can be applied, the restarted node is an idle follower with the same term, vote and log, everything committed applied, and the store of exactly that prefix |
| `Draining.DrainFolds` | src/raft_node.cpp:1730-1743 | if the store is the fold of a prefix, everything up to the commit index is acceptable and what may be repeated has request ids, the loop reaches the commit index and the store is the fold of what was applied or committed |
| `Freshness.NoNewerLeader` | src/raft_node.cpp:1568-1582 | when a read has been confirmed by a majority, no node had led a later term by the time its index was taken |
| `Freshness.ReadFreshness` | src/raft_node.cpp:638-661 | a confirmed read is served after its index was applied, and if no entry above that index was inherited from an earlier term, from a state containing every entry any node knew committed when the index was taken |
| `Freshness.TrueAnswerIsFresh` | src/raft_node.cpp:1546-1583 | the response that completes a majority answers its read true, from a store that has applied the index the read took when it was opened, and if nothing above that index was inherited, from one that holds everything any node knew committed by then |
| `Freshness.ReadOpened` | src/raft_node.cpp:566-584 | every open read was opened at an earlier moment of the same term by the same node |
| `Freshness.OwnTermSuffices` | src/raft_node.cpp:579-580 | a commit index that covers an entry of the leader's own term meets that condition in every reachable state |
| `Freshness.MissedIsInherited` | src/raft_node.cpp:566-604 | if any node knew more committed than a confirmed read's index, the leader's own log holds the first missed entry, with a term before its own |
| `Freshness.CommitBelowIndex` | src/raft_node.cpp:579-580 | a commit made before the index was taken lies at or below it, once the index covers the log the leader was elected with |
| `StaleRead.ConfirmedReadCanBeStale` | src/raft_node.cpp:566-604 | from every initial state of three nodes there is a run in which a confirmed read is served from the empty store although a write was committed before the read began |
| `Repair.PairCompatible` | src/raft_node.cpp:682-720 | in every reachable state a leader and a follower of its term satisfy the premises of the repair results |
| `Repair.TurnMerges` | src/raft_node.cpp:1206-1241 | the follower accepts a request exactly when the previous index is within both logs and at or above both snapshots with equal terms, and then holds the leader's entries through the last one sent |
| `Repair.CatchUp` | src/raft_node.cpp:1618-1633 | once the logs meet, one request per 64 missing entries makes the follower's log contain the leader's and its commit index equal |
| `Repair.RepairConverges` | src/raft_node.cpp:1618-1633 | from the largest meeting index a, exactly next - 1 - a rejections, each lowering next_index by one, and then one request per 64 missing entries complete the repair |
| `Repair.RepairStalls` | src/raft_node.cpp:1625-1628 | without a meeting index every request is rejected and next_index stays just above the snapshot forever |
| `Repair.MeetIff` | src/raft_node.cpp:1206-1209 | the logs meet somewhere if and only if the follower has every entry under the leader's snapshot |
| `Repair.RepairIff` | src/raft_node.cpp:695-699 | a new leader's AppendEntries bring a follower up to date if and only if the follower already has every entry the leader has compacted |
| `Repair.EveryTurnEnds` | src/raft_node.cpp:1243-1255 | in clean runs every accepted turn of a repair applies to its end, so its reply is sent |
| `Repair.PairSound` | src/raft_node.cpp:682-720 | in every clean reachable state an idle leader and an idle follower of its term satisfy the premises of that result |
| `Stall.RepairCanStall` | src/raft_node.cpp:1625-1628 | from every initial state of three nodes a run leads to a new leader that has compacted eight entries and a follower that has none, which its AppendEntries never repair |
| `Progress.RecencyIsOrder` | src/raft_node.cpp:1936-1942 | of two logs one is at least as up to date as the other, and the rule is transitive |
| `Progress.GrantIff` | src/raft_node.cpp:1105-1123 | a vote is granted if and only if the term is newer, or current with no other vote given, and the last entry is later by term and then index |
| `Progress.SomeoneIsGranted` | src/raft_node.cpp:1105-1123 | among any nodes that have not voted in a term there is one whose request in that term all of them grant |
| `Progress.LeadsIff` | src/raft_node.cpp:1158-1173 | a granted vote of the current term makes a candidate leader if and only if its distinct granters are then more than half of the peers, with every match index at 0; a newer term makes it a follower without a vote |
| `Progress.ReadConfirmedIff` | src/raft_node.cpp:1518-1533 | a read is confirmed if and only if the peer's term is not newer, and the peer is then in that term |
| `Progress.CompletesIff` | src/raft_node.cpp:1561-1582 | a confirmation answers the active read if and only if its distinct confirmers are then more than half of the peers; otherwise it only joins them |
| `Progress.SnapshotCredited` | src/raft_node.cpp:1490-1501 | a peer is credited with the snapshot if and only if it has taken all its bytes |
| `Progress.MajorityCanElect` | src/raft_node.cpp:445-490 | from any terms, votes and logs, a majority of idle nodes of which none leads can elect one of its own, by a run in which no other node moves, in a term above all of theirs and with every log, snapshot and store unchanged |
| `Availability.TurnIsRun` | src/raft_node.cpp:682-720 | one turn of log repair, request, answer and what the leader makes of it, is a run of protocol steps |
| `Availability.OneFollower` | src/raft_node.cpp:1585-1628 | in every reachable state a leader with one new entry brings an idle node that has what the leader compacted to its own log and commits the entry, or records the node for it |
| `Availability.MajorityCanCommit` | src/raft_node.cpp:1811-1857 | from every state of every clean run, a majority of idle nodes of which none leads and none lacks an entry another has compacted can elect one of its own and have it append and commit any new command, by a run in which no other node moves; if every command of its log can be applied, it has applied them all |
| `Transfer.PairReceiving` | src/raft_node.cpp:784-817 | in every clean reachable state a leader and a follower behind its snapshot satisfy the premises of the transfer results, and the snapshot decodes to the fold of the leader's prefix |
| `Transfer.TurnFits` | src/raft_node.cpp:1345-1367 | a chunk that continues the buffer extends it to the next chunk boundary, or installs the whole snapshot if it is the last |
| `Transfer.TransferCompletes` | src/raft_node.cpp:1473-1500 | without loss a transfer takes exactly max(1, ceil(size / 256 KiB)) requests and then the snapshot is installed, not earlier |
| `Transfer.TransferFromAnywhere` | src/raft_node.cpp:1473-1500 | whatever the follower had buffered and whatever offset the leader had recorded, at most one request is wasted |
| `Transfer.PairHolding` | src/raft_node.cpp:1318-1324 | in every clean reachable state the snapshots of a leader and of a node of its term that end at the same index have the same label and the same bytes |
| `Transfer.RepeatCloses` | src/raft_node.cpp:1318-1332 | if the answer to the last chunk was lost, the next request, whatever its offset, changes nothing and closes the transfer; a node with a later snapshot refuses it and the leader starts over |
| `Handlers.Largest` | src/raft_node.cpp:890-915 | the search returns the largest index above the commit index that has the current term and a majority, or nothing if there is none |
| `Handlers.AdvanceCommits` | src/raft_node.cpp:883-916 | a leader's commit index reaches every index above it that is of the current term and stored by more than half of the peers, the leader counted, and moves to no other |
| `Handlers.ReplyCommits` | src/raft_node.cpp:1618-1623 | a success of the current term is recorded as the peer's match index, capped at the last index, and everything that may be committed with it is |
| `Handlers.SubmitAppends` | src/raft_node.cpp:1852-1857 | an admitted command becomes the last entry of the log, in the leader's term, and everything that may be committed with it is |
| `Handlers.RetryIff` | src/raft_node.cpp:1833-1853 | only a leader admits; a retried request succeeds without a second entry if and only if that very command was applied, is refused if and only if another command with its id was, and every other command is appended |
| `Handlers.ServeOpens` | src/raft_node.cpp:579-584 | a leader of more than one peer with no active read opens the head of its queue at the commit index, confirmed by itself, and keeps the rest of the queue |
| `Handlers.ServeAlone` | src/raft_node.cpp:586-591 | in a cluster of one an idle leader serves the whole queue and nothing else of it changes |
| `Handlers.ServeLeavesNone` | src/raft_node.cpp:566-591 | whoever leads or does not, no read is left waiting without an active one |
| `Handlers.FinishOpens` | src/raft_node.cpp:638-661 | closing a read, confirmed or timed out, opens the next one of the queue |
| `Handlers.ClosedApplies` | src/raft_node.cpp:653-658 | a confirmed read is closed only once everything committed has been applied |
| `Handlers.VoteRequestIsRun` | src/raft_node.cpp:1093-1139 | the whole handler is a run of protocol steps of this node that sends its reply; `Progress.GrantIff` says which reply |
| `Handlers.VoteReplyIsRun` | src/raft_node.cpp:1141-1174 | the whole handler is a run of protocol steps of this node |
| `Handlers.AppendIsRun` | src/raft_node.cpp:1176-1267 | the whole handler, with apply loop and compaction, is a run of protocol steps that sends its reply |
| `Handlers.AppendReplyIsRun` | src/raft_node.cpp:1585-1634 | the whole handler, with the commit it may cause, is a run of protocol steps; `Handlers.ReplyCommits` says which commit |
| `Handlers.SnapshotIsRun` | src/raft_node.cpp:1269-1438 | the whole handler, with installation, replay and compaction, is a run of protocol steps that sends its reply |
| `Handlers.SubmitIsRun` | src/raft_node.cpp:1811-1857 | admitting a command is a run of protocol steps |
| `Handlers.RestartIsRun` | src/raft_node.cpp:130-145 | reloading after a crash is a run of protocol steps |
| `Handlers.CandidacyIsRun` | src/raft_node.cpp:445-462 | becoming a candidate, and leader at once in a cluster of one, is a run of protocol steps |
| `Handlers.SnapshotReplyIsRun` | src/raft_node.cpp:1440-1502 | the whole handler is a run of protocol steps |
| `Handlers.ReadRequestIsRun` | src/raft_node.cpp:1504-1544 | the whole handler is a run of protocol steps that sends its reply |
| `Handlers.ServeIsRun` | src/raft_node.cpp:566-591 | opening the next read, or in a cluster of one serving the whole queue, is a run of protocol steps; `Handlers.ServeOpens` and `Handlers.ServeAlone` say what it leaves |
| `Handlers.FinishIsRun` | src/raft_node.cpp:638-661 | closing a read, confirmed or timed out, and opening the next is a run of protocol steps; `Handlers.FinishOpens` says what it leaves |
| `Handlers.ReadReplyIsRun` | src/raft_node.cpp:1546-1583 | the whole handler, with the answer it may give and the read it may open, is a run of protocol steps |
| `Handlers.SettleIdle` | src/raft_node.cpp:653-657 | between handlers ApplyCommitted finds nothing to do |
| `Server.RaftNode.constructor` | include/raft_node.hpp:169-223 | a new node's view is the protocol's initial node |
| `Server.RaftNode.LastIndex` | src/raft_node.cpp:98-101 | on the compacted representation the last index is the length of the full log |
| `Server.RaftNode.LastLogTerm` | src/raft_node.cpp:103-106 | the last term is that of the full log, read from the snapshot when no entry is retained |
| `Server.RaftNode.TermOfIndex` | src/raft_node.cpp:108-119 | the term at an index is that of the full log at and above the snapshot, and 0 elsewhere |
| `Server.RaftNode.ApplyEntry` | src/raft_node.cpp:1730-1742 | one turn of the loop applies the entry after last_applied of the full log, or stops unchanged where the program throws |
| `Server.RaftNode.ApplyLoop` | src/raft_node.cpp:1730-1743 | the loop reaches the commit index or stops at the first rejected command |
| `Server.RaftNode.ApplyCommitted` | src/raft_node.cpp:1723-1746 | apply, store progress and compact, as the protocol's three kinds of step, with the node left behind when it throws |
| `Server.RaftNode.CreateSnapshotIfNeeded` | src/raft_node.cpp:1748-1809 | compaction is invisible: the full log, last index, last term and every term at or above the new snapshot are unchanged |
| `Server.RaftNode.StepDownTo` | src/raft_node.cpp:492-511 | stepping down clears the vote only in a newer term, answers every waiting read false and keeps every answer given |
| `Server.RaftNode.BecomeCandidate` | src/raft_node.cpp:445-462 | a candidacy votes for itself in the next term and wins at once in a cluster of one |
| `Server.RaftNode.BecomeLeader` | src/raft_node.cpp:464-490 | a leader starts every other peer at match 0 and next index last + 1 |
| `Server.RaftNode.HandleRequestVote` | src/raft_node.cpp:1093-1139 | view and reply are those of the protocol's handler; the vote is granted if and only if the term is newer, or current with no other vote given, and the candidate's last entry has a later term than the full log's, or the same term and no smaller index |
| `Server.RaftNode.BuildVoteRequest` | src/raft_node.cpp:524-541 | the request carries last index and term of the full log and its id is remembered for the answer |
| `Server.RaftNode.HandleRequestVoteResponse` | src/raft_node.cpp:1141-1174 | apart from a newer term only the awaited answer counts, once per responder, and a majority makes the node leader, with every other peer's next index just past its log |
| `Server.RaftNode.AbsorbEntries` | src/raft_node.cpp:1214-1241 | the in-place loop with truncation computes the protocol's absorption of the entries, and a refusal of numbered entries leaves the log as it was |
| `Server.RaftNode.HandleAppendEntries` | src/raft_node.cpp:1176-1267 | view and reply are those of the protocol's handler; misnumbered entries are refused; when applying throws, the view is the node that stopped and no reply is sent |
| `Server.RaftNode.FindCommit` | src/raft_node.cpp:890-915 | the downward search finds the largest eligible index |
| `Server.RaftNode.TryAdvanceCommit` | src/raft_node.cpp:883-916 | a leader's commit index reaches every index of the current term stored by more than half of the peers and moves to no other, and what became committed is applied |
| `Server.RaftNode.SubmitCommand` | src/raft_node.cpp:1833-1857 | refused without leadership, answered from the request table if known, appended otherwise, with everything committed that then may be |
| `Server.RaftNode.HandleAppendEntriesResponse` | src/raft_node.cpp:1585-1628 | only the response the peer owes changes match and next index, and it is then no longer owed; next index moves past the match index on a success and falls by one on a rejection, never below the snapshot index plus one |
| `Server.RaftNode.RecordSuccess` | src/raft_node.cpp:1618-1623 | match and next index move, and the commit index reaches every index that may be committed with them and no other |
| `Server.RaftNode.CollectEntries` | src/raft_node.cpp:709-719 | the loop copies the entries from next on, at most 64, with their own indexes |
| `Server.RaftNode.BuildAppend` | src/raft_node.cpp:701-740 | the request is the protocol's message for the clamped next index |
| `Server.RaftNode.BuildChunk` | src/raft_node.cpp:799-837 | the request is the protocol's chunk from the offset the peer reported, or from the start if that is beyond the snapshot |
| `Server.RaftNode.SendAppend` | src/raft_node.cpp:682-699 | nothing is sent without leadership, without a connection or while the peer owes an answer; otherwise the snapshot if and only if the peer's next index is at or below it, and entries if not |
| `Server.RaftNode.BufferChunk` | src/raft_node.cpp:1336-1364 | a chunk joins the buffer exactly when it continues it or starts a new one at offset 0 |
| `Server.RaftNode.ReplaceLog` | src/raft_node.cpp:1369-1398 | the retained suffix stays exactly when the term at the snapshot index agrees |
| `Server.RaftNode.InstallSnapshot` | src/raft_node.cpp:1383-1405 | the view is the protocol's installation followed by replay and compaction |
| `Server.RaftNode.HandleInstallSnapshot` | src/raft_node.cpp:1269-1438 | view and reply are those of the protocol's handler; when applying throws after the installation, the reply is a failure |
| `Server.RaftNode.HandleInstallSnapshotResponse` | src/raft_node.cpp:1440-1502 | the match index moves only when the peer owed this answer and has taken all bytes; otherwise the transfer continues where the peer says, or from the start; the answer is then no longer owed |
| `Server.RaftNode.FailPendingReadIndexes` | src/raft_node.cpp:663-680 | every unanswered read is answered false, every answered one keeps its answer, none is left |
| `Server.RaftNode.RequestRead` | src/raft_node.cpp:1907-1921 | a read is refused at once without leadership and otherwise queued and served in turn, in a cluster of one at once; a leader leaves no read waiting without an active one; no answer given changes and no waiting read has one |
| `Server.RaftNode.OpenNextRead` | src/raft_node.cpp:579-584 | the head of the queue becomes the active read at the current commit index |
| `Server.RaftNode.StartNextReadIndex` | src/raft_node.cpp:566-591 | the head of a leader's queue becomes the active read at the commit index, or in a cluster of one every queued read is answered true; no read is left waiting without an active one; every read is answered or still waiting, and answers given stay |
| `Server.RaftNode.FinishReadIndex` | src/raft_node.cpp:638-661 | the read is answered, in a cluster of any size, by whether it was confirmed and its index applied; view and queue are those of closing it and serving the next, and no read is left waiting without an active one |
| `Server.RaftNode.CloseRead` | src/raft_node.cpp:650-658 | a confirmed read waits for what is committed to be applied, with the view that leaves |
| `Server.RaftNode.HandleReadIndexResponse` | src/raft_node.cpp:1546-1583 | a confirmation counts once per responder, for the active read of the current term only; a majority answers it and no other read; view and queue are those of the protocol's handler |
| `Server.RaftNode.HandleReadIndexRequest` | src/raft_node.cpp:1504-1544 | a term is confirmed only by a node that is in it |
| `Server.RaftNode.LoadState` | src/raft_node.cpp:130-145 | from the records and the store of a node, and nothing in memory, the restarted node of the protocol with what is left applied |
| `ExactlyOnce.TableIsExact` | src/command_applier.cpp:74-130 | the request table holds exactly the identified requests of the log, each with its own command |
| `ExactlyOnce.AcceptsIff` | src/command_applier.cpp:68-119 | a log can be continued by a command if and only if it is a PUT or DELETE of a key outside the reserved prefix and no other command of the log carries its request id |
| `ExactlyOnce.NewCommandTakesEffect` | src/command_applier.cpp:101-130 | a command with a new id or none leaves its value under its key, or nothing there after a DELETE, and every other key as before |
| `ExactlyOnce.ExactlyOnceApplication` | src/command_applier.cpp:63-131 | the user entries equal a plain replay of the first occurrence of each identified request |
| `ExactlyOnce.RepeatIsNoOp` | src/command_applier.cpp:76-93 | applying an identified command of the log again, at any later time, changes nothing |
| `ExactlyOnce.ReplayEffect` | src/raft_node.cpp:138-145 | replaying an applied suffix leaves the request table alone and gives each key its last write without an id in that suffix |
| `ExactlyOnce.ReplayInvisibleIff` | src/raft_node.cpp:138-145 | a replay changes nothing if and only if, for every key, the last write without an id in the suffix is its current value |
| `ExactlyOnce.IdentifiedReplayIsNoOp` | src/command_applier.cpp:76-93 | a suffix of identified commands replays without effect at every point |
| `ExactlyOnce.MixedReplayDiverges` | src/command_applier.cpp:74-130 | a log of two commands on one key whose replay ends with the older value |
| `Divergence.ReplayDiverges` | src/raft_node.cpp:138-145 | from every initial state of three nodes a run leads to two idle replicas with the same log and the same last_applied, one holding the fold of that log and the other, which learned a lower commit index, crashed and replayed, an older value of a key |
| `ExactlyOnce.ReusedIdIsRejected` | src/command_applier.cpp:76-83 | a command with a used id is applicable if and only if it is the same command |
| `Keys.DecimalInjective` | src/raft_storage.cpp:50-57 | different numbers have different decimal texts |
| `Keys.SuffixInjective` | src/command_applier.cpp:10-15 | different (client, request) pairs have different record keys |
| `Keys.TextInjective` | src/raft_storage.cpp:222-289 | different records have different keys: progress, snapshot, log, request and user keys never collide |
| `Database.Store.WriteAtomically` | src/rocks_kv_store.cpp:79-104 | a batch deletes first and then puts in order |
| `Database.Store.GetAllPrefixedEntries` | src/rocks_kv_store.cpp:122-179 | seeking to a prefix and stopping at the first key without it yields exactly the entries with that prefix |
| `Database.Store.GetAllUserEntries` | src/rocks_kv_store.cpp:106-120 | the scan yields exactly the entries outside the reserved prefix |
| `Persistence.RaftStorage.StaleKeys` | src/raft_storage.cpp:266-283 | deleting up to the snapshot and then until the first missing key covers every stale log record |
| `Persistence.RaftStorage.PersistState` | src/raft_storage.cpp:222-240 | only term, vote, commit index and last applied of the stored state change, by the batch of the six progress records |
| `Persistence.RaftStorage.PersistLog` | src/raft_storage.cpp:242-289 | the stored log becomes exactly the given one, as one contiguous block, and nothing else changes |
| `Persistence.RaftStorage.PersistSnapshot` | src/raft_storage.cpp:291-344 | progress, snapshot and shortened log replace the old ones in one batch; user entries and request records stay |
| `Persistence.RaftStorage.ApplySnapshot` | src/raft_storage.cpp:346-410 | from any prior contents the store ends with exactly the snapshot's user entries and request table, the given log and the given progress |
| `Persistence.RaftStorage.Load` | src/raft_storage.cpp:144-199 | loading returns exactly the progress, snapshot and log last persisted, and never fails on a represented state |
| `Persistence.RaftStorage.GetAppliedRequests` | src/raft_storage.cpp:208-220 | the list holds exactly the request table with the prefix cut off |
| `Persistence.RaftStorage.Capture` | src/raft_node.cpp:1768-1774 | the captured contents list exactly the user entries and the request table, and parse |
| `Persistence.ParseSnapshotState` | src/raft_storage.cpp:101-138 | contents are accepted if and only if no key is reserved or repeated and every request key has a separator |
| `Persistence.ContentsDetermine` | src/raft_storage.cpp:75-138 | a snapshot's contents determine the user entries and request table installed from it |
| `Applier.CommandApplier.ApplyAtomically` | src/command_applier.cpp:63-131 | it succeeds if and only if the command is applicable; then one batch changes user entries, request table and progress exactly as the state machine says; otherwise nothing changes; no other reserved record is touched. On the records: a user key and either a PUT or DELETE without a request record, or a record of the very same command; in the first case the value is put or the key removed and the request recorded, in the second every user entry stays |
| `Applier.AppliedState` | src/command_applier.cpp:96-130 | the batch of one command performs exactly one step of the state machine on what the database holds |
| `Disk.WrittenRepresents` | src/raft_storage.cpp:222-410 | each kind of batch takes a database that holds a durable state to one that holds the state the call stands for |
| `Disk.DatabasesFollow` | src/raft_storage.cpp:144-410 | over every sequence of writes there are databases, the first empty and each the exact batch of its write on the one before, that hold the durable states throughout: stored log records stay one block and loading returns what was last persisted |
| `Disk.RepresentsUnique` | src/raft_storage.cpp:144-199 | a database holds at most one durable state |
| `Disk.StateInUnique` | src/command_applier.cpp:10-15 | a database holds at most one state of the state machine |
| `Recovery.StepStored` | src/raft_node.cpp:445-1809 | every protocol step of a node is at most one write of its durable state, after which that is again the node's; a crash writes nothing |
| `Recovery.DiskFollows` | src/raft_node.cpp:130-161 | along every clean run a node's database starts empty, each step leaves it alone or applies one batch of the storage code, and it holds the node's durable state at every moment |
| `Recovery.RecoveredIsNode` | src/raft_node.cpp:130-145 | whatever durable state, store contents and snapshot a node's database is read as, they are the records and the store of that node |
| `Recovery.Boot` | src/raft_node.cpp:130-145 | loading the database and restarting from what was loaded gives the node the protocol restarts, with what is left applied |
| `Recovery.CrashRecovery` | src/raft_node.cpp:130-145 | at every moment of every clean run the node's database holds the fold of a committed prefix and whatever is read from it restarts the node |
| `Framing.ParseStream` | src/raft_node.cpp:40-53 | a stream of frames parses into exactly its payloads, in order, with nothing left |
| `Framing.ParseOn` | src/raft_node.cpp:954-981 | parsing can stop anywhere and go on with what was left |
| `Framing.Connection.HandleMessage` | src/raft_node.cpp:954-981 | the loop hands over the complete frames of buffer and arrival, keeps the rest and shuts down on an oversized frame |
| `Framing.AnySplit` | src/raft_node.cpp:954-981 | however the stream is cut, the connection ends as if it had come in one piece |
| `Framing.FramesArrive` | src/raft_node.cpp:33-53 | any payloads of at most 16 MiB, in any cut of their frames, arrive exactly, in order, with nothing left over and no shutdown |
| `Framing.FramesInOrder` | src/raft_node.cpp:954-981 | before the end of the stream only whole payloads have come out, in order |
| `Framing.OversizedRefused` | src/raft_node.cpp:961-965 | a length above 16 MiB is refused after all frames before it, whatever follows |

## Left out

- Sockets, connection maps, reconnects and the event loop: a message is addressed to a node and may arrive any number of times or never; a reply is on the network from the batch that makes it true.
- Timers and jitter: an election timeout, a heartbeat and a resend are steps that may happen at any time; what is claimed about progress is that it is possible (`MajorityCanElect`, `MajorityCanCommit`) and what the lossless exchanges of `Repair` and `Transfer` reach, not when it happens.
- Protobuf encoding and RocksDB internals: messages, commands and records are values, the snapshot codec is any pair of functions that round-trips, the database iterator is the sorted sequence of its keys, and writes succeed.
- Life after an exception: where applying throws inside a handler, the class methods report it in their outcome with the node it leaves; in the protocol that node stays in its apply phase until it crashes, while the program's node goes on with its commit index raised and no compaction, so the commit bound of `Safety.CommitBoundSent` and what rests on it are not claimed for such runs.
- Request ids of responses are checked in `Server.RaftNode.HandleAppendEntriesResponse` and `Server.RaftNode.HandleInstallSnapshotResponse`; the protocol's steps accept any response of the current term, which allows more runs, so its results do not depend on the check.
- Misconfigured or dishonest senders: every message of a run was sent by a configured peer.
- Waiting for a commit in Submit, promises with timeouts, thread start and stop, client dispatch and option parsing: they would only add easy members.
- Membership changes, pre-vote and leadership transfer: the program has none.
- 64-bit overflow of terms, indexes and offsets: integers are unbounded, so the checks against overflow are not modelled.
- Server.RaftNode.HandleRequestVoteResponse: does not model the check of the connection the answer came on.
- Server.RaftNode.HandleAppendEntries: says nothing about the log after misnumbered entries beyond the refusal, because the program may then have changed its log in memory without storing it and an honest leader never sends them.
- Server.RaftNode.HandleInstallSnapshot: takes the entries a snapshot stands for as part of the message, as bookkeeping that only the view uses.
- Server.RaftNode.StepDownTo: changes term and vote on disk only; the commit index it also stores is already there between handlers, by the invariant.
- Freshness.ReadFreshness: the condition is sufficient, not necessary; a read may be fresh without it, when the inherited entry was never committed by anyone, which a leader cannot know before it commits in its own term. `MissedIsInherited` is what holds in the other direction.
- Persistence.ParseSnapshotState: record values are typed, so a snapshot whose values are not user bytes or commands does not exist in the model, where the program would accept it.
- Recovery.DiskFollows: speaks of clean runs, because chunks of two different snapshots with one label may meet in a buffer of a tainted run and then decode to anything.
- Recovery.Boot: takes the store's contents and the state the snapshot stands for as values that the database is shown to determine, because snapshot bytes and the snapshot record are related by their state and not by a byte format.
