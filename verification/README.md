# toyDB, verified

A Dafny model of the parts of toyDB that its correctness rests on: the Raft consensus
protocol, MVCC transactions, the Keycode key encoding, the BitCask storage engine, the
LRU/FIFO cache, and SQL row, index and join execution. `dafny verify dfyconfig.toml`
checks everything.

**Raft** (`RaftLog`, `RaftNode`, `RaftHistory`, `RaftGrowth`, `RaftInvariant`,
`RaftFollower`, `RaftLeader`, `RaftStep`, `RaftCluster`, `RaftDecisions`, `RaftRuns`,
`RaftElection`, `RaftClients`, `RaftService`, `RaftDuties`, `RaftProbe`, `RaftProgress`,
`RaftWitness`, `RaftLogStore`, `RaftQuorum`, `RaftMachine`). A node is a transition function over its
log, state machine and role; each assertion of the source is a panic that halts the node. A
cluster is a step relation: messages may be lost, reordered and duplicated, timers may fire
at any time, and a node may restart at any time on its term, vote and entries, with an
older commit index and an older state machine. The theorems of `RaftCluster` are about
every state of every run and mention nothing but states and actions; the proof keeps a
history of votes, reigns, acknowledgements, commits and restarts on the side. Three files
say what a cluster does for its clients: `RaftClients`, that every answer is the leader's
answer to what the client asked; `RaftDuties` (with `RaftService`), that every node commits,
applies and answers as soon as it can, and loses no request; `RaftElection` and
`RaftProgress`, that with a live majority a leader can always be elected and can always
serve writes and reads. `RaftWitness`
runs a two-node cluster through an election, a replicated write and a confirmed read, and
into each panic that a restart allows. `RaftProbe` follows the exchange of appends and
responses between a leader and one follower to its end. `RaftMachine` and
`RaftLogStore` are the node and its key/value-backed log as objects that change in place,
proved to do exactly what those functions do, so that the theorems hold of them.

**MVCC** (`MvccKeys`, `Mvcc`, `MvccInvariant`, `MvccRun`, `MvccRead`, `MvccScan`,
`MvccEngine`, `MvccStore`). Every operation runs under one mutex and is one atomic step. Runs
interleave any number of transactions, and `MvccRead` says from their actions alone what each
transaction reads. Stored versions are a sequence in engine key order; `MvccKeys`
shows that the byte ranges the code scans select exactly the intended keys. `MvccEngine` is
the one byte-keyed map that all of it is stored in, and `MvccStore` holds the methods,
cursors and the buffered scan as objects over it: they get, set, delete and scan encoded
keys, and the map keeps representing the state.

**Keycode** (`Bytes`, `Keycode`, `KeycodeCodec`). Values and their types are data, so that
round trip, order and prefix-freedom are proved for every key type built from booleans,
integers, floats, byte strings, UTF-8 strings, tuples and enums.

**BitCask** (`BitcaskLog`, `Bitcask`). The file is a byte sequence, its meaning is the plain
map that its whole records build, and the directory must agree with that map.

**Cache** (`Cache`). The doubly linked list threaded through the map, what any access
trace leaves in it, and the workload's batches as such traces.

**SQL** (`SqlValues`, `SqlSchema`, `LocalEngine`, `Joins`, `JoinMeaning`, `JoinRewrite`).
Rows and secondary indexes within one transaction, the two join iterators, what rows they
yield, and the rewrite between them. `Common` and `Bytes` hold what several components use.

## Findings

Four promises turned out not to hold of the code as it is. Each has a lemma with a
concrete input and an exact condition.

- **Hash join.** `Expression::Equal` says that the integer 1 equals the float 1.0, but
  `Hash` for values hashes the type first, so the hash join does not find the pair that the
  nested loop finds; and values of types that cannot be compared make the nested loop fail
  while the hash join goes on. `JoinRewrite.HashJoinAgrees`: the two joins agree if and only
  if no pair of join values is of either kind; `JoinRewrite.MixedColumnsDiffer` is the input.
- **Index agreement.** `Table::validate` accepts two columns with the same name, and index
  entries are keyed by column name. `LocalEngine.InsertAgreesIff`: an insert leaves the
  index in agreement with the rows if and only if indexed columns of one name hold the same
  value in the new row; `LocalEngine.DuplicateNamesBreakIndex` is the input.
- **Restarted nodes.** Assertions of the node do fail, but only after a restart.
  `RaftCluster.HaltsOnlyAfterRestart`: a node halts in a term only if, in that term, it
  restarted while it led or knew its leader; so a run without restarts never halts a node
  (`RaftCluster.NeverHaltsWithoutRestart`). `RaftWitness.RestartedLeaderCanHalt`: and every
  leader with a live peer that is not ahead of it halts in some continuation: it sends a
  heartbeat, restarts, and gets the answer. `RaftWitness.ReachablePanics`: the assertions
  that fail in some run are exactly "unexpected message", "client response from non-leader"
  and "client request from other node"; the runs in `RaftWitness` are the inputs.
- **Negative zero keys.** An update compares the new key with `==`, which takes -0.0 for
  0.0, but then ignores the row itself by the total order, which does not.
  `LocalEngine.RefusedUpdateIff`: of the updates that keep the key and that the constraints
  allow, exactly those are refused that give the key as -0.0 and keep the value of some
  unique column; `LocalEngine.NegativeZeroRefused` is the input.

## Model

| member | source | states |
|---|---|---|
| RaftCluster.ElectionSafety | src/raft/node.rs:564-606 | over every run: two leaders of one term, at any two times and across restarts, are the same node |
| RaftCluster.LogMatching | src/raft/log.rs:80-91 | over every run: two logs, of any nodes at any times, with the same index and term agree on all entries up to it |
| RaftCluster.LeadersAreComplete | src/raft/node.rs:425-449 | over every run: what any node knows to be committed in a term is in the log of every leader of a later term |
| RaftCluster.StateMachineSafety | src/raft/node.rs:984-1032 | over every run: the applied entries of any two nodes at any times, and their committed prefixes, never disagree |
| RaftCluster.LinearizableReads | src/raft/node.rs:1036-1066 | over every run: a read is answered on a state that holds everything any node knew to be committed when the request was delivered to the leader of the answer's term, or earlier; and some node knew the whole of that state to be committed |
| RaftCluster.WritesAreCommitted | src/raft/node.rs:984-1032 | over every run: an answer to a write follows a delivery of that write to the leader of the answer's term, and carries a state that ends with the write's command in that term; some node knew the whole of that state to be committed |
| RaftCluster.HaltsOnlyAfterRestart | src/raft/node.rs:479-484 | over every run: a node whose assertion failed has, in the same term, restarted while it led the term or knew its leader; and the assertion is one of three |
| RaftCluster.NeverHaltsWithoutRestart | src/raft/node.rs:108-132 | over every run without a restart: no assertion of the log or the node ever fails |
| RaftCluster.OneVotePerTerm | src/raft/node.rs:425-449 | over every run: all votes that a node grants in one term, across restarts, are for one candidate |
| RaftCluster.ProgressInvariant | src/raft/node.rs:682-698 | over every run: match index < next index <= last index + 1 for every peer of every leader, and a peer in the leader's term does hold the leader's log up to its match index |
| RaftCluster.NoEmptyAppendAtStart | src/raft/node.rs:1105-1127 | over every run: no empty append at base 0 is ever sent, which a follower would answer with two zero indexes |
| RaftHistory.QuorumsMeet | src/raft/node.rs:203-206 | any two quorums of a cluster share a node |
| RaftHistory.LeaderCompleteness | src/raft/node.rs:435-449 | in every consistent history, a committed prefix is in the log that any later leader was elected with |
| RaftHistory.CommittedAgree | src/raft/node.rs:999-1008 | in every consistent history, of two committed prefixes one is a prefix of the other |
| RaftStep.StepGood | src/raft/node.rs:108-123 | stepping any message the invariants allow leads to a node, messages and a history that keep them |
| RaftStep.TickGood | src/raft/node.rs:126-132 | so does a timer that fires |
| RaftStep.StartGood | src/raft/node.rs:73-87 | so does starting a node on any durable log |
| RaftFollower.SpliceFollows | src/raft/log.rs:278-343 | splicing a leader's append never panics, and leaves the follower with the leader's log up to the appended entries |
| RaftDecisions.ElectedIff | src/raft/node.rs:598-609 | a candidate becomes leader exactly when the votes are a strict majority of the cluster |
| RaftDecisions.LeadsWithNoop | src/raft/node.rs:564-583 | a new leader appends one empty entry of its own term, and sends it and a heartbeat to every peer |
| RaftDecisions.ProposedToIff | src/raft/node.rs:969-980 | a new entry is sent at once to exactly the peers that have been sent everything before it, from the entry before; nothing is sent to others |
| RaftDecisions.CommittedIff | src/raft/node.rs:984-1008 | an entry of the leader's term is committed exactly when a quorum is known to store it; commits never go beyond that, nor back |
| RaftDecisions.ReadAnsweredIff | src/raft/node.rs:1036-1066 | a queued read is answered exactly when a quorum confirmed its sequence number; the others stay, in order |
| RaftElection.VotesIff | src/raft/node.rs:425-449 | over every run: a campaign is granted, and the vote kept, exactly if the voter is new to the term or follows in it without another vote, and its log's last term and index are at most the candidate's; otherwise it is refused |
| RaftElection.PrefixGranted | src/raft/node.rs:435-449 | over every run: a voter whose log is a prefix of the candidate's, however much longer that is, grants its vote |
| RaftElection.CanLead | src/raft/node.rs:586-609 | every run that ends with a live majority, whose logs are not ahead of that of one of them, goes on to a state where that node leads and none of them is in a later term |
| RaftElection.AloneLeads | src/raft/node.rs:73-87 | over every run: a node without peers leads at all times |
| RaftElection.FollowsSender | src/raft/node.rs:354-423 | over every run: every live node in no later term follows the sender of a heartbeat, append or read, confirms reads at once, and tells of a heartbeat whether it has the last entry |
| RaftClients.AnswersPassedOn | src/raft/node.rs:474-484 | over every run: a follower passes on unchanged every answer to a request it holds as forwarded, then holds it no longer, and drops the others |
| RaftClients.AnswersFromLeader | src/raft/node.rs:474-484 | over every run: every answer other than an abort, whoever passes it on, was sent to that node under that id by the leader of its term |
| RaftClients.RequestsAsked | src/raft/node.rs:454-470 | over every run: every request in the network was asked by a client of the node that forwarded it |
| RaftClients.WriteAnswersClient | src/raft/node.rs:897-906 | over every run: a node told that its write succeeded had a client ask for it under that id, and the committed state ends with that client's command |
| RaftClients.ReadAnswersClient | src/raft/node.rs:908-917 | over every run: an answered read was asked by a client under that id, with that command |
| RaftClients.StatusIsLeaders | src/raft/node.rs:1131-1146 | over every run: every status told was the status of the leader of its term: its last index, what it knows of its peers, and what it has committed and applied |
| RaftDuties.CommittedExactly | src/raft/node.rs:984-1008 | in every state of every run: an entry of a leader's own term is committed exactly if the leader knows a majority of the cluster, itself included, to hold it |
| RaftDuties.CommittedIsApplied | src/raft/node.rs:510-520 | in every state of every run: a live node has applied all it knows to be committed, and nothing that is not in its log |
| RaftDuties.ReadsNotHeldBack | src/raft/node.rs:1036-1066 | in every state of every run: a leader that has committed in its term holds back no read that a majority, itself included, has confirmed |
| RaftDuties.NoRequestLost | src/raft/node.rs:499-508 | over every run: a request that reaches a live node is from then on in its hands, or its client has been sent a response, whatever roles and terms the node goes through, as long as it neither halts nor restarts |
| RaftDuties.WriteAnswered | src/raft/node.rs:1010-1026 | over every run: while a leader leads, each pending write stays pending until it is applied, and is then answered with the state applied up to it |
| RaftDuties.ReadAnswered | src/raft/node.rs:1036-1066 | over every run: while a leader leads, each pending read stays pending until it is answered |
| RaftDuties.TermsRise | src/raft/log.rs:172-188 | over every run: a node's term never falls, restarts included |
| RaftProgress.CatchesUp | src/raft/node.rs:846-893 | every run with an append in flight to a follower goes on, by its delivery and those that follow from it, until the leader knows the follower to hold its whole log |
| RaftProgress.CanWrite | src/raft/node.rs:897-906 | every run that ends with a leader and a live majority in no later term goes on so that a client of any of those nodes has its write appended to the leader's log, committed, applied and answered |
| RaftProgress.CanRead | src/raft/node.rs:908-917 | and so that a client of any of them has a read answered |
| RaftProgress.CanLearn | src/raft/node.rs:354-381 | and so that all of them hold the leader's whole log, committed and applied |
| RaftWitness.ServingRunExists | src/raft/node.rs:564-606 | in any cluster of two there is a run that elects a leader by both votes, commits a write that both hold, and answers a read, confirmed by the other, on a state that holds it |
| RaftWitness.RestartedLeaderCanHalt | src/raft/node.rs:479-484 | every run that ends with a leader and a live peer not ahead of it extends, by a heartbeat, a restart and the answer, to one where that leader has halted |
| RaftWitness.ReachablePanics | src/raft/node.rs:341-487 | an assertion fails in some run if and only if it is one of three |
| RaftProbe.FollowerRejectsIff | src/raft/node.rs:398-409 | a follower rejects an append exactly if it lacks its base entry, skipping entries it does not have, and is then unchanged |
| RaftProbe.RejectionLowers | src/raft/node.rs:700-730 | a rejection that is not stale moves the next index back to it, above the match index, and skips no index at which the logs agree |
| RaftProbe.LeaderProbes | src/raft/node.rs:874-890 | the leader answers a rejection with a probe, or the entries, at the entry before the rejected one |
| RaftProbe.StaleIgnored | src/raft/node.rs:874-884 | a stale rejection changes nothing and sends nothing |
| RaftProbe.ProbingFindsGreatest | src/raft/node.rs:1068-1080 | the exchange of appends and rejections between the two nodes reaches, in finitely many rounds, the greatest agreeing index not above its first base |
| RaftProbe.ReplicationCompletes | src/raft/node.rs:1081-1128 | in any consistent state, the exchange that starts with the last append sent ends with the leader's whole log in the follower's, and the leader's match index at its end |
| RaftProbe.FollowerCatchesUp | src/raft/node.rs:846-893 | so it does in every state of every run, for every follower of the current leader |
| RaftLogStore.SpliceReplaces | src/raft/log.rs:269-277 | splice leaves the log unchanged if every entry is present, otherwise yields the prefix before the first entry and the entries, and never touches a committed entry |
| RaftLogStore.SpliceKeeps | src/raft/log.rs:80-91 | a spliced log is gap-free with non-decreasing terms up to the current one |
| RaftLogStore.OthersKeep | src/raft/log.rs:172-222 | so are the logs after setting a term and vote, appending and committing |
| RaftLogStore.LogStore.constructor | src/raft/log.rs:120-146 | opening an engine restores the log it holds, last index and term included |
| RaftLogStore.LogStore.SetTermVote | src/raft/log.rs:172-188 | stores term and vote, and panics exactly on term zero, a term regression or a changed vote |
| RaftLogStore.LogStore.Append | src/raft/log.rs:193-203 | the stored log gains one entry of the current term |
| RaftLogStore.LogStore.Commit | src/raft/log.rs:207-222 | moves the commit position to an existing entry, and panics exactly on a regression or a missing entry |
| RaftLogStore.LogStore.Has | src/raft/log.rs:230-240 | the fast path on the cached last position answers as a lookup would |
| RaftLogStore.LogStore.ScanApply | src/raft/log.rs:259-267 | the committed entries after the applied index, in order |
| RaftLogStore.LogStore.Splice | src/raft/log.rs:278-343 | the skip, write and delete loops do what sequence replacement does, and panic exactly when it is refused, leaving the log alone |
| RaftQuorum.SelectQuorum | src/raft/node.rs:208-213 | in-place selection finds the greatest value that a quorum of nodes has reached |
| RaftQuorum.SelectedIsQuorum | src/raft/node.rs:208-213 | the value in the quorum's place is reached by a quorum, and the next higher one is not |
| RaftQuorum.QuorumValueUnique | src/raft/node.rs:208-213 | there is only one such value |
| RaftMachine.NewNode | src/raft/node.rs:73-87 | an error if the node is among its own peers, otherwise the node started on its stored log, elected at once if it has no peers |
| RaftMachine.RawNode.constructor | src/raft/node.rs:279-290 | a new node is a leaderless follower with all committed entries applied |
| RaftMachine.RawNode.ElectIfAlone | src/raft/node.rs:73-87 | a node without peers becomes leader at once |
| RaftMachine.RawNode.StepMessage | src/raft/node.rs:108-123 | stepping a message changes the object, and sends, exactly as the transition function says |
| RaftMachine.RawNode.TimerTick | src/raft/node.rs:126-132 | so does a timer that fires |
| RaftMachine.RawNode.FollowerStep | src/raft/node.rs:341-487 | so does a follower's step |
| RaftMachine.RawNode.CandidateStep | src/raft/node.rs:586-635 | so does a candidate's step |
| RaftMachine.RawNode.LeaderStep | src/raft/node.rs:797-943 | so does a leader's step; progress stays within the log at every point |
| RaftMachine.RawNode.Advance | src/raft/node.rs:776-794 | discovering a later term aborts all client requests held, and follows no leader |
| RaftMachine.RawNode.ApplyPending | src/raft/node.rs:510-520 | the loop applies exactly the committed entries not applied yet |
| RaftMachine.RawNode.Campaigning | src/raft/node.rs:649-658 | an election raises the term, votes for itself and asks every peer |
| RaftMachine.RawNode.IntoLeader | src/raft/node.rs:564-583 | becoming leader proposes, commits and sends heartbeats, in that order |
| RaftMachine.RawNode.SendPending | src/raft/node.rs:1081-1128 | sends a batch or a probe to one peer and advances its next index |
| RaftMachine.RawNode.Proposal | src/raft/node.rs:969-980 | the loop sends a new entry to exactly the peers that have been sent everything before it |
| RaftMachine.RawNode.CommitAndApply | src/raft/node.rs:984-1032 | commits the quorum's index, applies in order, answers each pending write with the state after it, then serves reads |
| RaftMachine.RawNode.ExecuteReads | src/raft/node.rs:1036-1066 | the loop answers exactly the confirmed reads at the front of the queue |
| RaftMachine.RawNode.TakeHeartbeatResponse | src/raft/node.rs:812-842 | confirms reads, probes a lagging peer, and commits on a new match |
| RaftMachine.RawNode.TakeAppendResponse | src/raft/node.rs:846-893 | records a match and sends more, or moves back and probes, or ignores a stale rejection |
| MvccInvariant.NewestDecides | src/storage/mvcc.rs:534-553 | testing only the newest version of a key finds a conflict if and only if some version of the key is invisible |
| MvccInvariant.RollbackRemovesOwn | src/storage/mvcc.rs:490-512 | since every stored version of an active transaction has a write record, rollback removes exactly its versions |
| MvccInvariant.WriteKeeps | src/storage/mvcc.rs:528-562 | a write keeps all invariants, among them that whoever wrote a newer version had seen the older one |
| MvccInvariant.BeginKeeps | src/storage/mvcc.rs:371-391 | beginning keeps them, returns the state that its version resumes with, and changes no earlier snapshot |
| MvccRun.AlwaysValid | src/storage/mvcc.rs:367-562 | every state of every run keeps the invariants |
| MvccRun.FirstUpdaterWins | src/storage/mvcc.rs:528-562 | over every run: of two transactions that each began before the other committed, at most one commits a write to any one key |
| MvccRun.StableSnapshot | src/storage/mvcc.rs:344-352 | over every run: a transaction's view is the one it had plus its own writes since, whatever others do |
| MvccRun.TimeTravel | src/storage/mvcc.rs:393-425 | over every run: begin_as_of(v) at any later time sees exactly what transaction v saw when it began |
| MvccRun.AtomicCommit | src/storage/mvcc.rs:466-485 | over every run: a transaction sees all of another's writes if that committed before it began, and none otherwise, for ever |
| MvccRun.TracelessRollback | src/storage/mvcc.rs:487-512 | over every run: rollback removes every version of the transaction, no other, and changes no other view |
| MvccRun.BeginIsolates | src/storage/mvcc.rs:371-425 | all three ways to begin hide every other active transaction |
| MvccRun.ResumesIff | src/storage/mvcc.rs:428-435 | over every run, from its actions alone: a read-write transaction resumes exactly if it has begun, and has neither committed nor rolled back since; a read-only one always does |
| MvccRun.AsOfIff | src/storage/mvcc.rs:397-425 | over every run, from its actions alone: `begin_as_of` is refused exactly for versions other than 0 that have not begun; otherwise it is read-only at that version, and hides what was active when that version began |
| MvccRun.ActiveIff | src/storage/mvcc.rs:438-448 | over every run, from its actions alone: the active transactions are exactly those begun and not ended |
| MvccRead.VersionsAreWrites | src/storage/mvcc.rs:528-562 | over every run, from its actions alone: the stored versions are exactly the last writes per key of the transactions not rolled back |
| MvccRead.ReadsLastCommitted | src/storage/mvcc.rs:565-581 | over every run, from its actions alone: a transaction that begins reads, for every key, the last write of the transaction that was the last to commit one, and nothing if none has |
| MvccRead.ReadsOwnOrSnapshot | src/storage/mvcc.rs:565-581 | over every run: a read-write transaction reads its own last write, and otherwise what it read when it began |
| MvccRead.VersionOrder | src/storage/mvcc.rs:534-553 | over every run: of two committed writers of a key, the one with the greater version committed later |
| MvccScan.RowsAreReads | src/storage/mvcc.rs:673-683 | scanned rows come in key order and are exactly the keys that read as a value, each once |
| MvccScan.FillKeeps | src/storage/mvcc.rs:661-698 | refilling the buffer loses and repeats no row, and finds one if any is left |
| MvccScan.RangesSelect | src/storage/mvcc.rs:585-608 | the engine ranges of scan and scan_prefix select whole user keys: those in the range, those with the prefix |
| MvccScan.BatchedScan | src/storage/mvcc.rs:611-711 | over every run, range and buffer size, and any steps of others between refills: a scan emits exactly the keys of the range whose get is a value, in order, and then nothing |
| MvccKeys.KeyOrder | src/storage/mvcc.rs:162-200 | byte order of encoded engine keys is kind by kind, then field by field, and encodings are distinct |
| MvccKeys.OneKeyRange | src/storage/mvcc.rs:566-569 | the range of a point read or conflict check holds exactly the versions of that key between the bounds |
| MvccKeys.ScanRangeExact | src/storage/mvcc.rs:585-597 | for every kind of bound, the range holds exactly the versions of the user keys in it |
| MvccKeys.ScanPrefixExact | src/storage/mvcc.rs:600-608 | chopping the terminator selects exactly the versions whose user key starts with the prefix, despite escaping |
| MvccKeys.ActivePrefixExact | src/storage/mvcc.rs:438-448 | the active set scan reads exactly the active transactions' keys |
| MvccKeys.WritePrefixExact | src/storage/mvcc.rs:477-480 | a transaction's write scan reads exactly its own write records |
| MvccEngine.DecodesKey | src/storage/mvcc.rs:162-200 | bytes decode to an engine key if and only if they are its encoding |
| MvccEngine.YieldsSlice | src/storage/mvcc.rs:661-698 | in an engine that represents a state, scanning a range of version keys yields exactly the versions in it, in key and version order |
| MvccEngine.UnversionedApart | src/storage/mvcc.rs:264-267 | setting an unversioned key leaves the represented state alone |
| MvccStore.Store.ScanActive | src/storage/mvcc.rs:438-448 | decoding the keys with the prefix yields exactly the active transactions |
| MvccStore.Store.ScanWrites | src/storage/mvcc.rs:474-480 | the keys with the prefix are exactly the version's write records |
| MvccStore.Store.Resume | src/storage/mvcc.rs:428-435 | a read-write transaction resumes exactly if it is still active, a read-only one always |
| MvccStore.ScansReadVersions | src/storage/mvcc.rs:585-608 | only version keys lie in the ranges of scan and scan_prefix |
| MvccStore.Store.Begin | src/storage/mvcc.rs:371-391 | allocates the next version, persists a non-empty active set, and becomes active |
| MvccStore.Store.BeginReadOnly | src/storage/mvcc.rs:397-425 | the latest state or a past version's, or an error for a version that does not exist |
| MvccStore.Store.Write | src/storage/mvcc.rs:528-562 | stores version and write record, or reports a conflict and changes nothing |
| MvccStore.Store.Commit | src/storage/mvcc.rs:472-485 | removes exactly the transaction's write records and ends it |
| MvccStore.Store.Rollback | src/storage/mvcc.rs:490-512 | undoes each recorded write and ends the transaction |
| MvccStore.Store.Get | src/storage/mvcc.rs:565-581 | walking down the versions that the engine yields for the key finds the newest visible value |
| MvccStore.VersionIterator.TryNext | src/storage/mvcc.rs:730-741 | yields the next visible version and skips the others |
| MvccStore.ScanIterator.FillBuffer | src/storage/mvcc.rs:661-698 | the peeking loop fills the buffer and keeps the unread rest of the range |
| MvccStore.ScanIterator.Next | src/storage/mvcc.rs:704-711 | takes a row from the buffer, refilling an empty one |
| Keycode.RoundTrip | src/encoding/keycode.rs:66-76 | for every type: decoding succeeds with a value if and only if the bytes are exactly its encoding |
| Keycode.DecodeInvertsEncode | src/encoding/keycode.rs:382-535 | at the front of any input, decoding and encoding are inverse to each other, and the rest is left |
| Keycode.OrderPreserved | src/encoding/keycode.rs:131-205 | for every type: byte order of encodings, whatever follows them, is the order of the values, and no encoding is a prefix of another |
| Keycode.PrecedesTotal | src/encoding/keycode.rs:1-30 | any two different values of a type are ordered one way or the other |
| Keycode.EncodesRank | src/encoding/keycode.rs:131-178 | 64-bit integers and floats encode as the big-endian bytes of an unsigned number that orders as they do |
| Keycode.EscapeOrder | src/encoding/keycode.rs:190-205 | escaping and terminating byte strings keeps their order, decided by a differing byte |
| Keycode.TestVectors | src/encoding/keycode.rs:651-681 | booleans and byte strings encode as in the repository's own test vectors |
| Keycode.CompoundVectors | src/encoding/keycode.rs:683-692 | so do tuples and enums |
| Keycode.PrefixRangeExact | src/encoding/keycode.rs:78-94 | the range contains exactly the strings that start with the prefix, empty and all-0xff ones included |
| KeycodeCodec.Serializer.Serialize | src/encoding/keycode.rs:57-63 | appends exactly the encoding of the value |
| KeycodeCodec.Serializer.SerializeBytes | src/encoding/keycode.rs:195-205 | appends the escaped bytes and the terminator |
| KeycodeCodec.Deserializer.TakeBytes | src/encoding/keycode.rs:352-359 | splits off exactly the asked number of bytes, or fails and takes none |
| KeycodeCodec.Deserializer.DecodeNextBytes | src/encoding/keycode.rs:362-378 | unescapes up to the terminator and chops it off, or fails and takes nothing |
| KeycodeCodec.Deserializer.DecodeValue | src/encoding/keycode.rs:382-535 | consumes exactly one value of the type, or fails |
| KeycodeCodec.DeserializeKey | src/encoding/keycode.rs:66-76 | returns a value exactly if the whole input is its encoding |
| KeycodeCodec.SerializeKey | src/encoding/keycode.rs:57-63 | what it writes deserializes to the key |
| BitcaskLog.AppendRecord | src/storage/bitcask.rs:344-365 | a written record reads back as the last of the file's records |
| BitcaskLog.Truncated | src/storage/bitcask.rs:266-331 | a file cut at any byte reads as exactly the records that end at or before it |
| BitcaskLog.RecoveredIsWhole | src/storage/bitcask.rs:319-325 | cutting off the incomplete end leaves a whole file with the same records |
| BitcaskLog.TornWrite | src/storage/bitcask.rs:344-358 | a write cut off before its last byte leaves the map from before it, a complete one the map after it |
| BitcaskLog.LiveAtMostDisk | src/storage/bitcask.rs:160-167 | the live size never exceeds the file size |
| Bitcask.BitCask.Open | src/storage/bitcask.rs:75-80 | any file opens to the map of its whole records, with an agreeing directory and the rest cut off |
| Bitcask.BitCask.ReadRecord | src/storage/bitcask.rs:279-313 | reads a record's key and value location, or finds it incomplete |
| Bitcask.BitCask.Get | src/storage/bitcask.rs:136-141 | looks up as the plain map does |
| Bitcask.BitCask.Set | src/storage/bitcask.rs:154-158 | updates as the plain map does, by appending one record |
| Bitcask.BitCask.Delete | src/storage/bitcask.rs:121-125 | removes as the plain map does, by appending a tombstone |
| Bitcask.BitCask.Status | src/storage/bitcask.rs:160-167 | counts and sizes of the live map; live size at most disk size |
| Bitcask.BitCask.Compact | src/storage/bitcask.rs:170-195 | keeps the map and leaves no garbage: file size equals live size |
| Bitcask.Reopen | src/storage/bitcask.rs:266-331 | reopening a file cut at any byte gives the map after the longest whole prefix of its records |
| Bitcask.Execute | src/storage/bitcask.rs:118-195 | after any run of sets, deletes and compactions, directory and file both mean the plain map |
| Cache.LinksTraverse | src/cache/cache.rs:32-36 | next and prev links end, and visit exactly the map's keys, once each, in opposite orders |
| Cache.LruIsMostRecent | src/cache/cache.rs:95-154 | after any access trace an LRU cache of size n holds exactly the n most recently accessed distinct keys, in order |
| Cache.LruInclusion | src/bin/workload.rs:434-463 | a larger LRU cache contains every smaller one, as its front |
| Cache.FifoIsInsertionOrder | src/cache/cache.rs:130-154 | after any access trace a FIFO cache of size n holds the last n insertions, newest first |
| Cache.Cache.Detach | src/cache/cache.rs:43-56 | takes a key out of the list and leaves the others linked in order |
| Cache.Cache.AttachToFront | src/cache/cache.rs:58-70 | links a key in front of the others |
| Cache.Cache.PopTail | src/cache/cache.rs:72-76 | takes the last key out of the list |
| Cache.Cache.Insert | src/cache/cache.rs:130-154 | adds or replaces a value and evicts the last entry when over the bound |
| Cache.Cache.FilterUncached | src/cache/cache.rs:95-116 | returns exactly the keys not cached, counts hits and misses, and under LRU moves hits to the front |
| Cache.AccessBatch | src/bin/workload.rs:434-463 | looking up a batch and then inserting the rows of its misses, in any order, is the trace of its hits followed by its misses; hits and misses are counted exactly |
| Cache.Workload | src/bin/workload.rs:434-463 | after any batches, an LRU cache holds the most recently accessed keys and a FIFO cache those inserted last |
| SqlSchema.Validate | src/sql/types/schema.rs:100-170 | accepts exactly the schemas that meet the column, default, index and reference rules |
| SqlSchema.InsertKeeps | src/sql/types/schema.rs:172-236 | a row that passes validation keeps shape, uniqueness and foreign keys of all rows |
| SqlSchema.FitsIff | src/sql/types/schema.rs:181-236 | a row passes validation if and only if it has the table's shape, its key is free or the one to be replaced, and the rows with it keep uniqueness and foreign keys |
| SqlSchema.DeletableIff | src/sql/engine/local.rs:198-228 | rows may be deleted if and only if the rest keeps its foreign keys, for all keys but NULL |
| SqlSchema.DeleteKeeps | src/sql/engine/local.rs:198-228 | deleting rows that nothing else refers to keeps them too |
| LocalEngine.Transaction.LookupIndex | src/sql/engine/local.rs:270-273 | returns exactly the primary keys of the rows that hold one of the values |
| LocalEngine.Transaction.ValidateRow | src/sql/types/schema.rs:181-236 | accepts exactly the rows that fit: shape, types, key, references and uniqueness, where an update ignores the row with the key as given |
| LocalEngine.Transaction.Insert | src/sql/engine/local.rs:252-268 | stores rows in normal form up to the first that does not fit; indexes agree, unique columns stay unique, foreign keys name rows |
| LocalEngine.Transaction.InsertRow | src/sql/engine/local.rs:256-266 | stores one row and its index entries |
| LocalEngine.Transaction.Unreferenced | src/sql/engine/local.rs:198-228 | finds a reference from a row that stays exactly if there is one |
| LocalEngine.Transaction.Delete | src/sql/engine/local.rs:194-246 | deletes exactly the given rows if no other row refers to them, otherwise changes nothing; all constraints hold |
| LocalEngine.Transaction.UpdateRow | src/sql/engine/local.rs:298-335 | replaces a row, by delete and insert if the key changes, exactly when the constraints on the stored rows allow it and the row is not held up by its own negative zero key |
| LocalEngine.Transaction.Update | src/sql/engine/local.rs:296-337 | replaces rows in order up to the first that the constraints refuse; they hold at every outcome |
| LocalEngine.MoveAllowedIff | src/sql/engine/local.rs:301-304 | an update that changes the key goes through if and only if the rows without the old one keep their foreign keys, the new key is free there, and the rows with the new one keep shape, uniqueness and foreign keys |
| LocalEngine.KeepAllowedIff | src/sql/engine/local.rs:305-335 | an update that keeps the key goes through if and only if the rows with the new row keep every constraint, negative zero keys beside a kept unique value excepted |
| LocalEngine.RefusedUpdateIff | src/sql/types/schema.rs:225-232 | an update that keeps the key and that the constraints allow is refused if and only if it gives the key as negative zero and keeps the value of a unique column |
| LocalEngine.NegativeZeroRefused | src/sql/engine/local.rs:301-309 | a table, a row and such an update |
| LocalEngine.InsertAgreesIff | src/sql/engine/local.rs:260-265 | an insert leaves the index in agreement with the rows if and only if indexed columns of one name hold one value |
| LocalEngine.DuplicateNamesBreakIndex | src/sql/types/schema.rs:100-170 | a schema that validation accepts and a row that then breaks the index |
| SqlValues.HashingDecides | src/sql/types/value.rs:91-128 | two values hash alike exactly when SQL finds them equal, if and only if they are compatible |
| Joins.NestedLoopJoiner.TryNext | src/sql/execution/join.rs:54-92 | yields the next joined row, the row with nulls, or the error, and leaves exactly the rest |
| Joins.HashJoiner.constructor | src/sql/execution/join.rs:129-150 | the table holds, per join value, exactly the right rows with that value, in order |
| Joins.HashJoiner.TryNext | src/sql/execution/join.rs:153-182 | yields the next joined row and leaves exactly the rest |
| JoinMeaning.JoinedShape | src/sql/execution/join.rs:74-81 | for rows of the declared widths, every joined row of either join has as many values as both sides together |
| JoinMeaning.NestedLoopYields | src/sql/execution/join.rs:54-92 | when no comparison fails, the nested loop yields, for each left row in order, its concatenations with the right rows that the predicate accepts, in order; if there are none and the join is outer, the one row that continues with as many NULLs as there are right columns |
| JoinMeaning.HashJoinYields | src/sql/execution/join.rs:153-182 | the hash join yields the same for the right rows whose join value hashes alike |
| JoinMeaning.RunNestedLoop | src/sql/execution/join.rs:54-92 | polling the nested loop iterator to its end collects exactly these rows, or those before the first comparison that fails |
| JoinMeaning.RunHashJoin | src/sql/execution/join.rs:129-182 | so does polling the hash join iterator |
| JoinRewrite.HashJoinAgrees | src/sql/planner/optimizer.rs:317-347 | inner or outer, in either column order: the rewritten join yields the same rows in the same order if and only if all pairs of join values are compatible |
| JoinRewrite.SameTypeHashJoin | src/sql/planner/optimizer.rs:317-347 | it does for columns of one declared type |
| JoinRewrite.MixedColumnsDiffer | src/sql/types/value.rs:109-128 | an integer column and a float column on which it does not |
| JoinRewrite.RewriteInRange | src/sql/planner/optimizer.rs:331-338 | the swapped and shifted columns exist in their tables exactly if the equality is across the two tables |

## Left out

- Raft timers and randomized timeouts: a timer may fire at any step. Progress is stated as what every run can go on to (`RaftElection.CanLead`, `RaftProgress`), not as what must happen within some time.
- Raft with `fsync` off, and crashes in the middle of a step: a restart keeps term, vote and all entries.
- `max_append_entries` of 0: at least 1 is assumed; with 0 an empty append at base 0 would be sent.
- The order and multiplicity of a node's outgoing messages: the outbox is a set, as the network may reorder and duplicate.
- A node's state machine is the sequence of entries applied to it; the results of commands are not modelled further.
- A node's storage engine errors, and `Status` apart from its indexes.
- RaftProgress.CanWrite: is about a leader that is not behind in term; electing one is `RaftElection.CanLead`.
- RaftMachine.RawNode.constructor: requires that the node is not its own peer; `RaftMachine.NewNode` reports the error.
- MVCC version numbers at the end of the 64-bit range: a transaction cannot begin at the last version.
- MvccStore.Store.Write: takes the state that `begin` returned for a version that is still active, as `resume` checks; writes through a state made up by the caller are not covered.
- MvccStore.Store.Commit: takes such a state too.
- MvccStore.Store.Rollback: takes such a state too.
- MVCC status, and the value encoding (bincode), which is taken as given.
- MvccStore.ScanIterator.constructor: requires a range in which only version keys lie, as those of `scan` and `scan_prefix`; others end in a decoding error.
- Keycode.RoundTrip: does not cover sequences (`Vec<T>`), which have no terminator and can only end a key.
- Keycode.DecodeInvertsEncode: does not cover them either.
- KeycodeCodec.Deserializer.DecodeValue: does not cover them either.
- KeycodeCodec.DeserializeKey: does not cover them either.
- KeycodeCodec.Serializer.Serialize: requires a value of some key type; the source panics on others.
- Bitcask.BitCask.Set: requires keys under 2^32 and values under 2^31 bytes, the limits of the length fields; the source truncates longer lengths.
- Bitcask.BitCask.Delete: requires keys under 2^32 bytes likewise.
- Bitcask.BitCask.Compact: visits the live keys in any order, where the source visits them in key order.
- BitCask file locking, fsync, the rename that ends a compaction, scans, and the automatic compaction on opening.
- Cache counters as atomics, hit ratios, switching the cache off, and shrinking its bound while it holds more.
- SQL: creating and dropping tables, scans with filters, expression evaluation other than `=`, and everything above the local engine.
- LocalEngine.Transaction.Delete: takes primary keys in the form they are stored in, as the executor reads them from rows; a negative zero passed in directly is not covered.
- LocalEngine.Transaction.UpdateRow: takes the old primary key in that form too, and of the key column's type; the new row is taken as given.
- LocalEngine.Transaction.Update: takes old primary keys in that form too.
- LocalEngine.Transaction.constructor: requires that no two indexed columns of a table share a name, since the index cannot agree with the rows otherwise (see Findings).
- LocalEngine.Transaction.Insert: normalizes negative zero before it validates a row, where the source does so when it encodes keys and values.
- SQL statements that fail part way with a serialization error, and foreign keys across concurrent transactions.
- Joins over sources that fail, and 64-bit hash collisions: distinct hash inputs are taken to have distinct hashes.
- Rounding of integers to floats: every statement holds for any conversion.
