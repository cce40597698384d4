# Verified models of Raft, Porcupine and the MapReduce data path

A Dafny project about three components of the repository: the Raft peer (`src/raft`), the Porcupine
linearizability checker with its key/value model (`src/porcupine`, `src/models/kv.go`) and the data path
of MapReduce (`src/mr/worker.go`, `src/main/mrsequential.go`). `dafny verify dfyconfig.toml` checks all of it.

## Raft

`RaftPeer.Peer` is the peer as the program has it: a class whose handlers update term, vote, log, indices
and disk in place. Each handler is proved equal to a function on a peer value (`RaftServer`).
`RaftSystem` puts N such peers on a network that loses, delays, duplicates and reorders messages, with
timeouts at any moment, client requests, and crashes that keep only the disk; an action is one
lock-protected handler of one peer. `RaftProtocol` describes the same system by small steps and a history
(votes granted, candidacies, reigns, acknowledgements), `RaftInvariant` shows that every small step keeps the
invariant, `RaftRefinement` that every handler is made of small steps, and `RaftSafety` draws the conclusions
of Figure 3 of "In Search of an Understandable Consensus Algorithm (Extended Version)" for every run.

Two assumptions the code does not enforce:

* The protocol runs uncompacted (`Index0 = 0`). The `InstallSnapShot` RPC overwrites `votedFor` with a
  `LeaderID` the sender never sets for itself (src/raft/entry.go:81, src/raft/entry.go:117), and the scans at
  src/raft/entry.go:253-260 and src/raft/entry.go:294-301 stop at 0 rather than at `Index0`. Compaction is
  modelled on one peer.
* `guarded`: a leader counts a reply to AppendEntries only in the term of the request it answers.
  src/raft/entry.go:145 tests only the role. Election safety, append-only leaders and log matching are
  proved with and without it.

State machine safety without the guard is false in general. `RaftSmallCluster.SafeIffAtMostTwoPeers` says
exactly when it holds: all runs of the program as it is, with a cluster of n peers, are safe if and only if
n is at most 2. For every n from 3 on, `RaftStaleReply.StaleReplyBreaksSafety` builds a run in which a
leader takes acknowledgements of an earlier reign of its own for ones of the current reign, commits alone,
and two peers apply different commands at index 2. Within one run, `OnlyStaleRepliesBreakSafety`: peers apply
different commands at one index only after a leader has counted a stale reply.

Beside safety: `RaftValidity` shows that logs and services hold only what clients started, `RaftReaction` how
peers react to what they hear, and `RaftProgress` that no run is ever a dead end: from every state of every
guarded run there is a continuation in which every peer applies any given command. A cluster of one peer is the
exact exception, because a candidate takes office only when the vote of another peer arrives
(src/raft/leaderElection.go:24-28), so it never elects itself.

A crash falls between two handlers, not inside one. Commands are `Nil` or an integer payload. Vote and append
replies carry the request they answer, since the goroutine that receives them still holds it; the peers a
candidate still waits for are part of its election, so a vote is counted at most once.

## Porcupine

`Checker.CheckSingle` is the backtracking search on the heap: linked list with `Lift` and `Unlift`, undo stack,
mutable bitset, memo cache in hash buckets, longest partial linearizations, kill flag. `Linearizability` is the
notion it decides, stated without reference to the search. `Search` holds what the search knows, apart from
its storage: configurations in the cache stand for orders, and an order that has left the stack has been explored.
`Entries` relates time stamps to the event lists the search takes and `ClientEvents` client histories with ids of
their own, `Locality` relates a store to its keys, `ParallelCheck` is the select loop over any arrival order and
any timeout, `Visualization` gathers and replays what the searches recorded, and `CheckHistory` puts everything
together. `kill(i)` is what the i-th poll of the kill flag reads.

Modelling choices: a 64-bit word is the sequence of its bits; the cache stores the value of a bitset where the
program stores a clone; sorting is by insertion, and only "some sorted rearrangement" is ever used of it; recorded partial
linearizations are told apart by content where the program compares pointers; a value of the wrong dynamic type, on which the key/value model panics, is refused by it; states and values are
arbitrary types, `Equal` is an equivalence that `Step` respects (`Lawful`).

A finding: `checkParallel` on no partitions and with no timeout never returns, because its loop looks at the
count only after receiving a result. `KvModel.Partition` makes no partitions of an empty history. The exact
condition is in `ParallelCheck.MovesUnlessNothingArrives`.

## MapReduce

`Mapper`, `Distributed` and `Sequential` are the bucket loop, the reducers and the sequential program. The hash is an
arbitrary function, files are sequences, and map results may be recorded in any order.

## Model

| member | source | states |
|---|---|---|
| `RaftSafety.StateMachineSafety` | src/raft/raft.go:367-385 | in every guarded run, two ApplyNext actions of any peers at one index hand out the same command, and the entry applied exists |
| `RaftSafety.CommittedLogsAgree` | src/raft/entry.go:175-196 | committed prefixes of any two peers at any two moments of a guarded run are prefixes of one another |
| `RaftSafety.CommittedInLaterLeaders` | src/raft/entry.go:179-193 | what any peer holds committed in a term is a prefix of the log of every leader of every later term, whenever it leads |
| `RaftInvariant.LeaderCompleteness` | src/raft/vote.go:65-74 | a prefix that a majority acknowledged in the term of its last entry is in the starting log of every later reign, by induction over terms |
| `RaftInvariant.RecentHoldsPrefix` | src/raft/vote.go:66-68 | the vote rule: a candidate log at least as recent as the voter's contains every committed prefix the voter holds |
| `RaftSafety.ElectionSafety` | src/raft/vote.go:49-76 | over a whole run, crashes and restarts included and with or without the guard, leaders of one term are the same peer |
| `RaftInvariant.CrownIsFirst` | src/raft/vote.go:83-116 | a candidate whose counted voters are a majority is the first to take office in its term |
| `RaftSafety.LeaderAppendOnly` | src/raft/raft.go:252-270 | while it leads one term, a leader's log only grows at its end |
| `RaftSafety.LogMatching` | src/raft/entry.go:250-281 | in every run, guarded or not, logs of any peers at any two moments that agree on the term at an index are equal up to that index |
| `RaftInvariant.MergeIsLeaderPrefix` | src/raft/entry.go:268-281 | whatever stale or overlapping request arrives, merging it into a log of the same history yields the sender's log up to the end of the request, or a log that already extends it |
| `RaftSafety.CommitIndexNeverFalls` | src/raft/entry.go:282-288 | a step other than a peer's own crash never lowers its commit index |
| `RaftSafety.RequestsReachTheirCommit` | src/raft/entry.go:44-68 | every AppendEntries request ever in the network ships at least up to the commit index it carries |
| `RaftSafety.LeaderNeverNeedsSnapshot` | src/raft/entry.go:44-57 | in a guarded run a leader's nextIndex stays within 1 and its log length, so no clamp applies and the snapshot branch is dead |
| `RaftSafety.RunHolds` | src/raft/raft.go:146-177 | every state of every run satisfies the invariant, including that the disk holds what memory holds |
| `RaftRefinement.TimeoutKeepsInv` | src/raft/leaderElection.go:5-29 | opening an election is a sequence of invariant-keeping small steps |
| `RaftRefinement.VoteRequestKeepsInv` | src/raft/vote.go:49-76 | answering a vote request, in every branch, keeps the system invariant |
| `RaftRefinement.VoteResponseKeepsInv` | src/raft/vote.go:83-116 | counting a vote and taking office keep it |
| `RaftRefinement.StartKeepsInv` | src/raft/raft.go:252-270 | a client command on a leader and the broadcast it causes keep it |
| `RaftRefinement.AppendRequestKeepsInv` | src/raft/entry.go:198-290 | the follower's handler, with refusals, conflicts and merges, keeps it |
| `RaftRefinement.AppendResponseKeepsInv` | src/raft/entry.go:132-173 | the leader's handling of a reply keeps it, with the matchIndex part only for replies that are not stale |
| `RaftRefinement.MajorityCommits` | src/raft/entry.go:179-193 | the counting loop's verdict and the current-term test mean that a quorum has acknowledged the leader's log up to that index in its term |
| `RaftRefinement.CrashKeepsInv` | src/raft/raft.go:146-177 | a restart from disk with empty volatile state keeps it |
| `RaftSmallCluster.SafeIffAtMostTwoPeers` | src/raft/entry.go:145-151 | every run of the unguarded system of n peers keeps state machine safety if and only if n <= 2 |
| `RaftSmallCluster.LogsNeverPart` | src/raft/vote.go:66-68 | with at most two peers, logs of any peers at any two moments are prefixes of one another, stale replies or not |
| `RaftStaleReply.StaleReplyBreaksSafety` | src/raft/entry.go:145-151 | for every n >= 3, a run of n peers of the unguarded system in which two peers apply different commands at index 2 |
| `RaftStaleReply.OnlyStaleRepliesBreakSafety` | src/raft/entry.go:145-151 | in every run of the unguarded system, different commands at one index come only after a leader counted a reply to a request of another term |
| `RaftProgress.NeverStuckUnlessAlone` | src/raft/vote.go:83-116 | every guarded run of n peers can go on so that all peers apply any given command at one index, if and only if n is not 1 |
| `RaftProgress.GoesOn` | src/raft/entry.go:132-196 | from every good state of two or more peers an election, a client command, retried replication, commitment, its spread and the apply loops lead to the command applied by everybody |
| `RaftProgress.ExchangeRuns` | src/raft/entry.go:35-75 | a heartbeat, its handling and the handling of the reply are one exchange between leader and peer |
| `RaftValidity.LogsHoldWhatClientsStarted` | src/raft/raft.go:252-270 | in every run, guarded or not, each entry of each log was started by a client, with that command, on a leader of the entry's term whose log then was exactly the entries before it |
| `RaftValidity.OnlyStartedCommandsAreApplied` | src/raft/raft.go:372-385 | whatever a peer applies was started so |
| `RaftValidity.StartAnswersTruly` | src/raft/raft.go:252-270 | the index and term Start answers are where the command is, on top of the same log, while that leader stays in office |
| `RaftReaction.TermsNeverFall` | src/raft/vote.go:36-44 | no peer's term falls within a run, crashes included |
| `RaftReaction.LaterTermIsAdopted` | src/raft/entry.go:140-144 | whoever takes a request, a refusal or a reply of a later term is a follower of exactly that term afterwards |
| `RaftReaction.VoteReplyTellsTerm` | src/raft/vote.go:49-76 | the answer carries the voter's term after the step and is a grant exactly under the vote rule |
| `RaftReaction.RefusedCandidateLearns` | src/raft/vote.go:54-58 | a refusal of an old candidate carries the voter's term, and the candidate that takes it ends as a follower of that term or is past it |
| `RaftReaction.DeposedLeaderLearns` | src/raft/entry.go:203-206 | an old request is refused with the peer's own term and no other effect, and the leader that takes the refusal steps down to it or is past it |
| `RaftReaction.AppliesInOrder` | src/raft/raft.go:367-385 | within one incarnation a peer hands exactly indices 1, 2, 3, ... of its log to the service, in order |
| `RaftBackup.ConflictLowersNextIndex` | src/raft/entry.go:153-170 | in every guarded run a conflict reply to a request sent at the current nextIndex gives a smaller nextIndex that is at least 1 |
| `RaftBackup.LastInTermBeforeConflict` | src/raft/entry.go:293-303 | the leader's last entry of the conflicting term lies before the conflict, by log matching |
| `RaftBackup.RetriesReachAgreementInRun` | src/raft/entry.go:229-264 | from every state of every guarded run, a leader that keeps asking a peer of no later term, deposed leaders included, succeeds within nextIndex exchanges, and that peer's log then begins with the leader's |
| `RaftBackup.RetriesReachAgreement` | src/raft/entry.go:153-170 | the same for any leader and peer whose logs come from one history |
| `RaftBackup.BackupSkipsNothing` | src/raft/entry.go:229-264 | the hints never lead back past an index where both logs hold an entry of the same term |
| `RaftBackup.BackupSkipsNothingInRun` | src/raft/entry.go:153-170 | the same in every guarded run, together with strict progress |
| `RaftBackup.RetriesPerTermInRun` | src/raft/entry.go:250-264 | agreement costs at most one exchange per change of term in the peer's log, plus two, however long the runs of equal terms are |
| `RaftBackup.ExchangeAgrees` | src/raft/entry.go:147-152 | a successful exchange gives the peer the leader's log and commit index, and the leader exact knowledge of what the peer holds |
| `RaftServer.AppendReplyMeans` | src/raft/entry.go:198-290 | outcome by outcome: the term a reply carries, when it succeeds, what then changes and what does not, and the exact hints of a conflict |
| `RaftServer.BroadcastTail` | src/raft/entry.go:35-75 | a peer gets everything from its nextIndex on, with the leader's commit index, exactly if it lags or on a heartbeat |
| `RaftServer.CommitFromIsHighest` | src/raft/entry.go:179-193 | the commit rule picks the highest index beyond the old one with a majority and an entry of the current term, or keeps the old |
| `RaftServer.LastInTermIsLast` | src/raft/entry.go:293-303 | on logs whose terms never fall, the scan's early exit misses nothing: the last entry of the term, -1 exactly if there is none |
| `RaftServer.RunStartIsFirst` | src/raft/entry.go:250-264 | the scan for XIndex finds the first entry of the conflicting term |
| `RaftPeer.Peer.LeaderElection` | src/raft/leaderElection.go:5-29 | in place, equal to the specified campaign step; the requests sent are exactly one for every other peer |
| `RaftPeer.Peer.SetNewTerm` | src/raft/vote.go:36-44 | in place, equal to the specified change of term, with the vote reset and persisted |
| `RaftPeer.Peer.RequestVote` | src/raft/vote.go:49-76 | the reply carries the term after the call and grants exactly under the vote rule; state and reply equal the specified answer |
| `RaftPeer.Peer.CandidateRequest` | src/raft/vote.go:83-116 | the candidate wins exactly on the vote that completes a majority of its current term, once; a refusal of a later term makes it a follower of it |
| `RaftPeer.Peer.BecomeLeader` | src/raft/vote.go:96-113 | the loops over nextIndex and matchIndex produce the state of a leader that takes office |
| `RaftPeer.Peer.AppendEntriesToPeers` | src/raft/entry.go:35-75 | the loop with its clamps sends exactly the specified set of requests |
| `RaftPeer.Peer.Start` | src/raft/raft.go:252-270 | on a leader the log becomes the old one plus exactly the client's command at the index and term returned, and is broadcast; elsewhere nothing changes |
| `RaftPeer.Peer.Commit` | src/raft/entry.go:175-196 | the double loop with its early exit sets commitIndex to the highest index with a majority and an entry of the current term |
| `RaftPeer.Peer.FindLastLogInTerm` | src/raft/entry.go:293-303 | the downward scan with its early exit finds the specified index or -1 |
| `RaftPeer.Peer.LeaderSendEntries` | src/raft/entry.go:132-173 | a reply of a later term makes the peer a follower of it; otherwise role and term stay, a success raises matchIndex to what was sent, and the whole state equals the specified step |
| `RaftPeer.Peer.AppendEntries` | src/raft/entry.go:198-290 | new state and reply, conflict hints included, equal the specified answer |
| `RaftPeer.Peer.MergeEntries` | src/raft/entry.go:268-281 | the truncate-and-append loop computes the specified merge and writes the disk exactly when the log changed |
| `RaftPeer.Peer.ApplyOne` | src/raft/raft.go:372-385 | applies the entry at lastApplied + 1 exactly when one is committed and present |
| `RaftPeer.Peer.constructor` | src/raft/raft.go:323-352 | a fresh peer, or the one the disk describes with both indices at Index0 |
| `RaftPeer.Peer.Snapshot` | src/raft/raft.go:214-236 | keeps every entry from the new Index0 on, writes disk and snapshot together, and keeps the bounds if and only if the request is turned down or covers only applied entries |
| `RaftPeer.Peer.CondInstallSnapshot` | src/raft/raft.go:183-208 | keeps the bounds always; keeps matching entries or resets to the snapshot's one, and changes nothing when it answers false |
| `RaftPeer.RecoverFromSnapshot` | src/raft/raft.go:146-163 | a restart after compaction has the same log, term and vote and resumes right after the snapshot |
| `Checker.CheckSingle` | src/porcupine/checker.go:179-253 | terminates; true only for linearizable histories; false without kill only for others; partial results are always valid and, on an unkilled failure, longest for each operation and absent only where none exists; a search that finds the kill flag up at its first poll gives up with nothing recorded |
| `Checker.CacheContains` | src/porcupine/checker.go:145-152 | whatever collides in a bucket, true exactly when a configuration with the same operations and an equal state is cached |
| `Checker.Record` | src/porcupine/checker.go:218-234 | records the current order for each of its operations where longer, never losing a longer one |
| `Checker.TryCall` | src/porcupine/checker.go:192-214 | the call branch keeps the loop invariant: pushed and lifted if new and accepted, cursor moved otherwise |
| `Checker.Backtrack` | src/porcupine/checker.go:235-241 | the pop restores pointers, bitset, state and cursor to the level below |
| `Checker.OrdersComplete` | src/porcupine/checker.go:190-243 | the finite set from which every pushed order comes, the first component of the termination measure |
| `Search.PushHolds` | src/porcupine/checker.go:197-207 | pushing a configuration the cache lacks keeps what the search knows |
| `Search.PopHolds` | src/porcupine/checker.go:235-241 | popping an explored order keeps it, and the operation taken back counts as tried one level down |
| `Search.AllRepresented` | src/porcupine/checker.go:145-152 | once everything cached is explored, every partial linearization has a cached representative with the same operations and an equal state, despite pruning |
| `Search.ExhaustedMeansIllegal` | src/porcupine/checker.go:215-217 | an exhausted search refutes linearizability |
| `Search.ExhaustedMeansLongest` | src/porcupine/checker.go:218-234 | after an exhausted search the recorded partial of an operation is longest among all that contain it |
| `Linearizability.FullPartialIsLinearization` | src/porcupine/checker.go:244-252 | orders built step by step from operations that may follow are, when complete, exactly the linearizations |
| `EventList.LiftedChain` | src/porcupine/checker.go:159-177 | lifting removes exactly the two events from the list, adjacent or not, and relinking in reverse order restores every pointer |
| `EventList.Lift` | src/porcupine/checker.go:159-167 | the heap pointers follow the lifted links |
| `EventList.Unlift` | src/porcupine/checker.go:169-177 | the heap pointers are those from before the lift |
| `EventList.MakeLinkedEntries` | src/porcupine/checker.go:121-138 | a list of the events in order, each call matched with its own return |
| `EventList.InsertBefore` | src/porcupine/checker.go:70-81 | the two or three pointers changed, and no others |
| `EventList.Length` | src/porcupine/checker.go:83-90 | the number of nodes |
| `Entries.MakeEntries` | src/porcupine/checker.go:48-60 | both ends of every operation, rearranged in time order with calls first on ties |
| `Entries.EntriesWellFormed` | src/porcupine/checker.go:39-60 | when no operation returns before its call, each call comes before its own return |
| `Entries.EntriesOrder` | src/porcupine/checker.go:39-46 | return a comes before call b if and only if a.Return is less than b.Call |
| `Entries.EntriesKeepMeaning` | src/porcupine/checker.go:48-60 | linearizability by time stamps and by entry order coincide |
| `Entries.Renumber` | src/porcupine/checker.go:92-106 | a one-to-one renaming of ids onto 0, 1, 2, ... that changes nothing else |
| `Entries.ConvertedWellFormed` | src/porcupine/checker.go:108-119 | a paired event history becomes a list the search accepts, with the same events belonging together |
| `ClientEvents.ConvertedKeepsMeaning` | src/porcupine/checker.go:92-119 | a client event history is linearizable, by its own ids and positions, if and only if its renumbered and converted list is |
| `KvModel.Partition` | src/models/kv.go:18-34 | one part per key that occurs, in ascending key order, each holding its key's operations in history order |
| `KvModel.KeyModelLawful` | src/models/kv.go:35-54 | equality of strings is an equivalence that Step respects |
| `KvModel.KeyModelReadsLatest` | src/models/kv.go:40-54 | an order is accepted if and only if every get returned the last value put before it followed by everything appended since |
| `Locality.StoreRunsAsKeys` | src/models/kv.go:40-54 | an order is accepted by the store if and only if each key's suborder is accepted by the single-key model |
| `Locality.WeaveInTime` | src/porcupine/model.go:28-31 | two orders on disjoint operations, each respecting real time, weave into one that does |
| `Locality.LocalityOfKeys` | src/models/kv.go:18-54 | a history is linearizable against the whole store if and only if every part is against the single-string model |
| `ParallelCheck.VerdictIsSound` | src/porcupine/checker.go:274-310 | for every arrival order and timeout point: Ok means all partitions linearizable, Illegal exactly that the loop read the answer of one that is not, Unknown exactly that it read none such and the timer fired |
| `ParallelCheck.KillMeansDone` | src/porcupine/checker.go:297-309 | the kill flag is up exactly after a timeout or, without information wanted, after a false answer, so never while an answer is still read |
| `ParallelCheck.VerdictIsExact` | src/porcupine/checker.go:342-352 | without a timeout the verdict is Ok if and only if all partitions are linearizable |
| `ParallelCheck.EveryStepShrinks` | src/porcupine/checker.go:293-320 | every step lowers a measure, so no run goes on forever |
| `ParallelCheck.MovesUnlessNothingArrives` | src/porcupine/checker.go:288-310 | a reachable state that has not returned can move if and only if there is a partition or a timeout |
| `CheckHistory.CheckParallel` | src/porcupine/checker.go:274-353 | Illegal exactly if a search that refutes arrives in time, Unknown exactly if none does and the timer cuts the results short, Ok only if all partitions are linearizable; per partition the distinct partial linearizations recorded, all valid and, where the result came in time, longest for every operation and full if the partition is linearizable |
| `CheckHistory.CheckAndDraw` | src/porcupine/visualization.go:33-87 | checking and drawing together: replay never meets a refusal, killed searches included, and in a partition whose result came in time what is drawn for an operation is a longest partial linearization with it, nothing exactly where there is none |
| `CheckHistory.CheckEvents` | src/porcupine/checker.go:355-363 | with the default partition, Illegal exactly if the event history is not linearizable and its result comes in time, Unknown exactly if it does not come in time, Ok only if it is linearizable |
| `CheckHistory.CheckKvOperations` | src/porcupine/checker.go:365-373 | on the key/value model Ok and Illegal decide linearizability of the whole store; Illegal exactly if a key that is not linearizable arrives in time, Unknown exactly if none does and the timer cuts the keys short |
| `Visualization.Replay` | src/porcupine/visualization.go:57-73 | a partial linearization replays from Init with every step accepted, so the panic is unreachable |
| `Visualization.CollectPartials` | src/porcupine/checker.go:318-340 | every partial linearization recorded for some operation, each once, and no others |
| `Visualization.ComputePartition` | src/porcupine/visualization.go:33-87 | partials by decreasing length, each replayed, and Largest points every operation that occurs at a longest given partial containing it |
| `Visualization.ShownIsLongest` | src/porcupine/visualization.go:57-79 | when the records are longest, so is the linearization Largest leads to, and Largest has an operation exactly if something was recorded for it |
| `Bitset.Set` | src/porcupine/bitset.go:29-33 | adds one position to the set and nothing else |
| `Bitset.Clear` | src/porcupine/bitset.go:35-39 | removes one position and nothing else |
| `Bitset.PopCount` | src/porcupine/bitset.go:46-52 | the number of positions set |
| `Bitset.EqualMembers` | src/porcupine/bitset.go:62-72 | bitsets of one size are equal word by word if and only if they hold the same positions |
| `MapReduce.GroupAndReduce` | src/mr/worker.go:78-94 | on key-sorted pairs, one line per key that occurs, with the reduction of all its values, in key order |
| `MapReduce.Mapper` | src/mr/worker.go:102-125 | each buffer holds exactly the pairs that hash to it, in order |
| `MapReduce.Distributed` | src/mr/worker.go:66-100 | reducer r prints the reduction of the pairs that hash to r across all map tasks |
| `MapReduce.Sequential` | src/main/mrsequential.go:38-84 | prints the reduction of everything the map function made |
| `MapReduce.ReductionIsUnique` | src/main/mrsequential.go:63-84 | two outputs that reduce the same pairs hold the same lines, equally often |
| `MapReduce.DistributedIsSequential` | src/mr/worker.go:113-117 | for an order-insensitive reduce, all reducers together print exactly the sequential lines, each key from the one reducer its hash selects, whatever order map results were recorded in |
| `MapReduce.ReducerFileIsSequentialPart` | src/mr/worker.go:78-94 | the file of reducer r is exactly the sequential output with the lines of other reducers left out, in the same order |

## Left out

- `SendSnapshot` and `InstallSnapShot` (src/raft/entry.go:77-130): the vote overwrite and the unlock around the channel send do not fit the election and apply-order invariants.
- Compacted logs in the protocol model: snapshots are proved on one peer only.
- RaftSafety.StateMachineSafety: assumes the guard, because without it the property holds only for clusters of at most two peers.
- A crash in the middle of a handler, between two writes of the disk.
- Timers, random timeouts and liveness of elections: a timeout may happen at any moment.
- checkEvents with a caller's own PartitionEvent: whether such a partition is sound is the caller's claim; locality is proved for the key/value partition.
- DescribeOperation, DescribeState and the HTML and JavaScript of the visualizer: presentation.
- The FNV hash behind ihash: the theorems hold for every hash.
- src/mr/coordinator.go: completion is recorded and processed in separate goroutine steps, and a re-queued task can go back to InProgress, so exactly-once claims need scheduling assumptions.
- File reads, JSON encoding, renames, plugins and sockets of the MapReduce programs: files are sequences.
- labrpc and labgob: the network is a set of messages that never forgets, and encoding is the identity.
- kvraft, shardctrler and shardkv: stubs or retry loops around RPCs.
