# Replicated key/value service, its consensus layer and its checker

A Dafny model of four connected programs: a Raft library with log compaction, the key/value service built on it, the
linearizability checker that judges the service's histories, and the data path of a small MapReduce. What is proved
are statements about every run, every history and every input.

`dafny verify dfyconfig.toml` checks everything.

## How the project is laid out

**Raft.** `RaftTypes` and `RaftHandlers` give one peer's reaction to each event as functions on a logical state: the
whole log, and a `base` up to which it has been compacted. `RaftServer` holds the peer as the program has it, an object
with a log kept at an offset behind a dummy slot, updated in place and saved before a method returns; every method is
proved to do to the logical state what the function does, so an offset log behaves as a whole one. `RaftCluster` is
the step relation of a cluster: timeouts, calls and answers that may be lost, delayed, repeated or reordered (a growing
set of messages), client commands, compaction, snapshots, the apply loop, and crashes, also inside a handler that has
saved no more than a newer term, that keep only what was saved.
`RaftHistory`, `RaftInvariant`, `RaftSteps` and `RaftReplication` carry the inductive proof; `RaftSafety` states the
properties of figure 3 of the extended Raft paper (sections 5.2 to 5.4) over whole runs. `RaftBackup`, `RaftCompaction`
and `RaftApply` treat conflict back-up, compaction and the stream of applied messages.

That peers only do what is right would be little if they did nothing, so the other direction is proved too. `RaftVote`
says exactly who gets a vote, `RaftBackup` that refusals and snapshots bring a follower up to its leader's log however
the two have parted, `RaftDelivery` that what is committed is delivered. `RaftElection` and `RaftProgress` put these
together over runs: from every reachable state, any majority of the peers can go on without the others, elect one of
them, and commit and apply any command. No fairness is assumed and none is proved; what is shown is that no state is a
dead end.

`RaftCommitted` defines the committed log of a run: it only grows, every peer's own is a beginning of it, everything
delivered is taken from it, and clients submitted all of it.

Two side conditions come from the code, and both are needed: without either one the safety properties are false.

- `InstallSnapshot` clears the vote even when the message belongs to the term of the vote (src/raft/raft.go:522-523).
  `RaftDoubleVote` shows exactly when a peer can then vote twice, and gives a run of three peers with two leaders in one
  term.
- A heartbeat that finds a snapshot on its way to the peer goes on to send log entries, and when the next entry is the
  last one compacted the first of them is the dummy slot (src/raft/raft.go:990-1029). `RaftStray` shows exactly when a
  peer takes the dummy for its first entry, and gives a run of three peers, with every vote kept, in which two of them
  apply different commands at index 1.

Both sends and both handlers are steps of the cluster. The run theorems hold for every run in which no peer is seen to
vote for two candidates in one term and no peer takes a dummy slot (`IsSoundRun`). That covers all runs without
compaction (`UncompactedRunsAreSound`), all runs that take no dummy and in which no snapshot erases a vote of the
current term (`VoteKeepingRunsAreSound`), and every other run in which the code does not go wrong in one of these two ways.

**Key/value service.** `KvReplica` is the state machine as a function of the committed log. `KvSystem` puts clerks, the
log and replicas together: retries put operations into the log again, stale snapshots make Raft deliver commands again,
newer ones skip ahead, replicas restart. There, that the apply stream is gap-free and taken from one log is how messages
are delivered; `KvOverRaft` drops that assumption and puts replicas, with their channels, snapshots and restarts, on top
of the Raft model itself. `KvHistory` and `KvSession` put clerks on top of that and prove the service linearizable:
every session of clerks with the peers and replicas below has a history that one store could have produced in real time. A
key that holds the text "ErrNoKey" reads as a missing one, which no store would do (`KvHistory.ErrNoKeyIsLost`), so the
theorem has two forms. `KvProgress` adds that no session is a dead end: any majority of the servers can answer any call
that is still open. `KvServer` holds the server and the clerk as objects,
with the notification channels.

**Checker.** `Linearizability` says what is decided. `PorcupineList` is the doubly linked list of entries with its
pointer surgery, `PorcupineBitset` the bit set, `PorcupinePositions` relates list and history, `PorcupineSearch` is the
reasoning about the search space, and `PorcupineChecker` the search loop itself. `PorcupineEntries` and
`PorcupineEvents` make histories, `PorcupineParallel` combines partitions, `Locality` proves the theorem that makes
partitioning sound, and `KvModel` instantiates it for the key/value specification.

**MapReduce.** `MapReduce` compares the distributed data path with the sequential program.

## Model

| member | source | states |
|---|---|---|
| `RaftSafety.ElectionSafety` | src/raft/raft.go:250-306 | no two peers lead in one term, at any two moments of a run, across crashes and restarts |
| `RaftSafety.LeaderAppendOnly` | src/raft/raft.go:583-623 | the log of a term's leader only grows while the term lasts |
| `RaftSafety.LogMatching` | src/raft/raft.go:357-404 | any two logs, at any two moments, with the same term at an index are identical up to it, whatever stale or repeated messages arrived |
| `RaftSafety.LeaderCompleteness` | src/raft/raft.go:824-840 | what any peer counts as committed is in the log of every leader of a later term |
| `RaftSafety.CommittedLogsAgree` | src/raft/raft.go:411-421 | committed prefixes of any peers at any moments agree wherever both reach |
| `RaftSafety.StateMachineSafety` | src/raft/raft.go:1093-1156 | no two messages ever put on apply channels, commands or snapshots, disagree about the command at an index |
| `RaftCommitted.OneLog` | src/raft/raft.go:1093-1156 | at every point of a run every command ever put on an apply channel is the committed log's at its index, and every snapshot a beginning of that log |
| `RaftCommitted.PeersFollow` | src/raft/raft.go:411-421 | what any peer counts as committed, now or at any earlier moment, is a beginning of the committed log |
| `RaftCommitted.CommittedLogGrows` | src/raft/raft.go:824-840 | the committed log of a run only grows, through crashes that set commit indices back |
| `RaftCommitted.OnlySubmitted` | src/raft/raft.go:583-623 | every command of the committed log was submitted by a client before; no dummy slot is among them |
| `RaftSafety.PositionsInOrder` | src/raft/raft.go:553-563 | in every reachable state snapshot index, commit index and last log index are in that order |
| `RaftSafety.AppendCarriesCommit` | src/raft/raft.go:1007-1029 | every AppendEntries ever sent, those that start with a dummy slot included, reaches at least to the commit index it announces |
| `RaftSafety.CommitIndexMonotone` | src/raft/raft.go:411-421 | between restarts a peer's commit index never decreases |
| `RaftSafety.StepInv` | src/raft/raft.go:250-1156 | each of the sixteen kinds of step keeps the global invariant behind the theorems above |
| `RaftSafety.LeaderCommitHighest` | src/raft/raft.go:824-840 | the leader's downward search ends at the highest index of its own term that the leader and the set of peers with that match index, a majority together, hold; it stays where it is if there is none |
| `RaftHandlers.HoldersCounts` | src/raft/raft.go:828-834 | the running count is the cardinality of the set of other peers whose match index reaches the index |
| `RaftSafety.FollowerCommits` | src/raft/raft.go:411-421 | in every run a peer that accepts a call stands at the larger of its own and the announced commit index |
| `RaftSafety.AcceptedCallCatchesUp` | src/raft/raft.go:1007-1029 | whoever accepts a heartbeat, whenever it arrives, has the log the leader had when it sent it and is committed at least as far as the leader then was |
| `RaftVote.ComparisonIsTotal` | src/raft/raft.go:295-306 | of any two logs one is up to date for the other, and both are only with equal length and last term |
| `RaftVote.GrantsIff` | src/raft/raft.go:250-306 | in every run a vote is granted if and only if the candidate's term is not behind, no other has the vote of that term, and the candidate's log extends the voter's or ends in a later term |
| `RaftVote.BestCandidate` | src/raft/raft.go:295-306 | among any peers there is one whose log is up to date for all of them |
| `RaftElection.NewerTermIsTakenOver` | src/raft/raft.go:789-806 | a newer term is taken over from every call and every current answer, and the peer neither leads nor stands in it |
| `RaftElection.StaleCallersLearn` | src/raft/raft.go:250-285 | the answer to a call from an older term carries the newer one, for all three kinds of call, and no other answer does |
| `RaftElection.MajorityElects` | src/raft/raft.go:701-785 | from every state of every run any majority of at least two peers can elect one of them without the others |
| `RaftProgress.BringUp` | src/raft/raft.go:842-1046 | in every run a newly elected leader can bring a peer in its term up to its log, by back-up, entries and snapshots, whatever either has compacted |
| `RaftProgress.AllCommitted` | src/raft/raft.go:824-840 | a leader whose log ends with an entry of its term and is known on a majority has committed all of it |
| `RaftProgress.MajorityMakesProgress` | src/raft/raft.go:583-1156 | from every state of every run any majority of at least two peers can, without the others, have any command committed and applied by every one of them at one index |
| `RaftDelivery.TwoRoundsDeliverAll` | src/raft/raft.go:1093-1156 | after two rounds of the apply loop every index committed and not applied before has been told to the service, and a third round delivers nothing |
| `RaftDelivery.InstalledIsDelivered` | src/raft/raft.go:507-563 | a snapshot ahead of the peer's is in place at once with the commit index, and is the next thing delivered |
| `RaftDelivery.AppliedIsCommitted` | src/raft/raft.go:1093-1156 | in every run what a peer has applied is committed |
| `RaftCluster.UncompactedRunsAreSound` | src/raft/raft.go:192-229 | a run in which no service compacts and no snapshot is installed meets both side conditions of those theorems |
| `RaftCluster.KeptVotesAreSingle` | src/raft/raft.go:507-530 | if no snapshot erases a vote of the current term, no peer is seen to vote for two candidates in a term |
| `RaftCluster.VoteKeepingRunsAreSound` | src/raft/raft.go:507-563 | a run that takes no dummy slot and erases no current vote meets both side conditions |
| `RaftStray.StrayTakenIff` | src/raft/raft.go:990-1029 | a peer takes the dummy slot sent by a leader if and only if the leader has compacted exactly one entry and the peer none, the call is not from an older term, and the peer's first entry, if any, has another term than the dummy |
| `RaftStray.TwoCommands` | src/raft/raft.go:990-1029 | a concrete run, for every command, in which every vote is kept, one peer applies the command at index 1 and another the dummy's unset one |
| `RaftHistory.QuorumsMeet` | src/raft/raft.go:740-785 | any two majorities share a peer |
| `RaftReplication.LeaderCommitOk` | src/raft/raft.go:824-840 | what the leader's downward search commits is stored by a majority under its own term, the rule of section 5.4.2 |
| `RaftReplication.MergeFollows` | src/raft/raft.go:379-396 | the truncate-or-append loop gives up nothing the leader's log shares with the follower's |
| `RaftDoubleVote.VotesTwiceIff` | src/raft/raft.go:507-530 | a snapshot lets a peer grant a second vote in a term if and only if it arrives in the term of its first |
| `RaftDoubleVote.TwoLeaders` | src/raft/raft.go:522-523 | a concrete run, for every command, that ends with two leaders of one term |
| `RaftDoubleVote.CommandIsCommitted` | src/raft/raft.go:824-840 | the runs the theorems speak of include, for every command, one with a leader that commits it |
| `RaftCompaction.CompactedMatches` | src/raft/raft.go:425-474 | compaction changes the verdict on a previous entry exactly for entries strictly below the snapshot |
| `RaftCompaction.CompactedAppends` | src/raft/raft.go:357-404 | everywhere else a compacted peer changes log, term, vote and commit index as the whole peer would |
| `RaftCompaction.InstallKeepsSuffix` | src/raft/raft.go:532-558 | a snapshot leaves the logical log alone exactly when the peer has its last entry with the same term |
| `RaftBackup.BackUpBounds` | src/raft/raft.go:880-897 | handling a refusal of its own call, the leader lowers nextIndex strictly, not into what the follower has compacted, and not past an agreeing index unless into its own snapshot; nothing else changes |
| `RaftBackup.ConflictIsReported` | src/raft/raft.go:425-488 | a refusal names the term of the conflicting entry and the first index, above the snapshot, of the run of that term, or the first missing index |
| `RaftBackup.LastOfTermFound` | src/raft/raft.go:899-912 | the search finds the last index with the term from the snapshot position on, and -1 exactly if there is none |
| `RaftBackup.RefusedForeverIff` | src/raft/raft.go:880-897 | once nextIndex lies in what the follower has compacted, a refusal leaves the leader as it was if and only if it has a snapshot itself |
| `RaftBackup.CatchUp` | src/raft/raft.go:842-971 | exchanges of a newly elected leader with a peer in its term end, with the leader's whole log at the peer and the leader knowing it |
| `RaftBackup.AcceptedHolds` | src/raft/raft.go:379-396 | an accepted call leaves the follower with the leader's whole log |
| `RaftBackup.AnsweredSnapshotCounts` | src/raft/raft.go:914-964 | an answered snapshot moves matchIndex and nextIndex past it, so that it is not offered again |
| `RaftBackup.MatchNeverFalls` | src/raft/raft.go:966-971 | while a peer leads, its match indices never fall, however late answers arrive |
| `RaftBackup.BackUpFindsCommonPrefix` | src/raft/raft.go:842-897 | in every reachable state, sending, refusing and handling the refusal again and again settles at exactly the longest common prefix of two uncompacted logs |
| `RaftApply.DeliversWithoutGaps` | src/raft/raft.go:1093-1156 | in every run each command delivered has the index one above the message before it, be that a command, a snapshot or the boot snapshot |
| `RaftServer.Raft.RequestVote` | src/raft/raft.go:250-306 | the object with the offset log votes as the peer with the whole log does, which GrantsIff characterises, and has saved its vote |
| `RaftServer.Raft.StartElection` | src/raft/raft.go:701-738 | standing for election refines the logical step, with term and vote saved before the calls leave |
| `RaftServer.Raft.HandleRequestVoteReply` | src/raft/raft.go:740-785 | counting votes and winning refine the logical step |
| `RaftServer.Raft.BecomeLeader` | src/raft/raft.go:1048-1069 | nextIndex and matchIndex are reset against the logical last index |
| `RaftServer.Raft.StepDown` | src/raft/raft.go:789-806 | only a newer term makes a peer a follower without a vote |
| `RaftServer.Raft.MatchPrevLog` | src/raft/raft.go:425-488 | the offset search for a conflict gives the whole log's verdict and refusal |
| `RaftServer.Raft.AppendEntries` | src/raft/raft.go:357-404 | the handler refines the logical step on every message, stale or not |
| `RaftServer.Raft.MergeEntries` | src/raft/raft.go:379-396 | the loop over physical slots merges as the recursive definition on the whole log does |
| `RaftServer.Raft.UpdateFollowerCommitIndex` | src/raft/raft.go:411-421 | the commit index moves exactly when the leader's is ahead of it, and then to the smaller of that and the last new index; FollowerCommits and CommitIndexMonotone say what this comes to in runs |
| `RaftServer.Raft.Start` | src/raft/raft.go:583-623 | a leader's new entry goes to the logical end and its logical index is reported |
| `RaftServer.Raft.HeartbeatWorker` | src/raft/raft.go:973-1046 | what is sent is the logical suffix, the snapshot when the next entry is compacted and none is on its way, or else the suffix behind a dummy slot whose term is zero or the snapshot's |
| `RaftServer.Raft.UpdateMatchAndNextIndex` | src/raft/raft.go:966-971 | matchIndex never moves back |
| `RaftServer.Raft.UpdateLeaderCommitIndex` | src/raft/raft.go:824-840 | the two loops compute what the search on the whole log does, which LeaderCommitHighest characterises with the set of holders |
| `RaftServer.Raft.FindLastIndexOfTerm` | src/raft/raft.go:899-912 | the offset search finds the whole log's last index of a term above the snapshot |
| `RaftServer.Raft.HandleAppendReply` | src/raft/raft.go:842-897 | success, refusal and newer terms refine the logical step, which BackUpBounds, SuccessCounts and NewerTermIsTakenOver characterise |
| `RaftBackup.SuccessCounts` | src/raft/raft.go:862-866 | handling a success, the leader knows that the peer has its whole log and goes on behind it |
| `RaftServer.Raft.Snapshot` | src/raft/raft.go:192-229 | dropping slots leaves the logical log unchanged |
| `RaftServer.Raft.InstallSnapshot` | src/raft/raft.go:507-563 | the slot search and cut refine the logical step, for snapshots behind, inside and beyond the log |
| `RaftServer.Raft.HandleInstallReply` | src/raft/raft.go:914-964 | a snapshot answered counts as a match up to its index |
| `RaftServer.Raft.ApplyCommitted` | src/raft/raft.go:1093-1156 | one round of the apply loop delivers the logical log's entries by their logical indices, or the snapshot; TwoRoundsDeliverAll says that nothing is kept back |
| `RaftServer.Raft.Make` | src/raft/raft.go:1169-1226 | a peer built from a store stands at the saved term, vote, log and snapshot position, with the saved snapshot |
| `RaftServer.CrashAndRestart` | src/raft/config.go:113-160 | between critical sections a crash loses only what the logical restart loses, and no snapshot bytes; with StepDown this holds for a store copied inside a handler too |
| `RaftServer.Persister.Save` | src/raft/persister.go:53-58 | state and snapshot are replaced together |
| `RaftServer.Persister.Copy` | src/raft/persister.go:30-37 | a copy has the same contents |
| `KvReplica.DuplicateIff` | src/kvraft/server.go:281-285 | for every log, an operation is refused exactly when the log holds one of its client with the same or a later number |
| `KvReplica.Redelivery` | src/kvraft/server.go:228-232 | delivering again anything a state accounts for leaves it unchanged |
| `KvReplica.ValueIs` | src/kvraft/server.go:257-268 | a key has what was put last, if anything, and everything appended since, in order |
| `KvReplica.KeyIsThere` | src/kvraft/server.go:271-277 | a key exists if and only if something was put or appended |
| `KvReplica.ExactlyOnce` | src/kvraft/server.go:257-268 | if each client's number appears only after the one before, the de-duplicating fold equals the plain fold of first appearances |
| `KvReplica.FirstsInOrder` | src/kvraft/client.go:83-106 | first appearances are in order of number for each client, none twice |
| `KvSystem.StepInv` | src/kvraft/server.go:202-252 | every step of clerks, log and replicas keeps the replay invariant |
| `KvSystem.CommandAccounts` | src/kvraft/server.go:223-234 | a command at or below the next index extends the prefix accounted for or leaves it |
| `KvSystem.Replay` | src/kvraft/server.go:202-252 | in every run each replica holds the fold of a log prefix at least as long as its lastApplied, through re-delivery, stale and newer snapshots and restarts |
| `KvSystem.AppliedOnce` | src/kvraft/server.go:257-285 | in every run a replica's values are those of each operation once, at its first appearance |
| `KvSystem.AnsweredIsApplied` | src/kvraft/server.go:161-166 | whenever a call is answered OK the answering replica's state accounts for that operation |
| `KvSystem.AnsweredIsCommitted` | src/kvraft/client.go:98-101 | what a clerk sent under an answered number stays in the log |
| `KvOverRaft.ReplicasFollowOneLog` | src/kvraft/server.go:202-252 | end to end: at every point of every run of Raft with services on top, each replica holds the fold of a prefix of the committed log, at least as long as it has applied |
| `KvOverRaft.RunChannels` | src/raft/raft.go:1118-1153 | what waits on a peer's apply channel continues what its service has taken, and the apply loop continues that, also after a stale snapshot moves it back |
| `KvOverRaft.RunFollows` | src/kvraft/server.go:295-329 | relative to the one log every message waiting, every replica and every snapshot ever saved is right |
| `KvOverRaft.CompactionIsPossible` | src/kvraft/server.go:295-303 | the index at which a service compacts is never beyond its peer's commit index, so the branch of Raft for a snapshot beyond the log is dead |
| `KvOverRaft.SnapshotsExist` | src/kvraft/server.go:287-303 | whenever a peer restarts or a snapshot reaches a service, a state saved at exactly that index exists |
| `KvServer.Server.Update` | src/kvraft/server.go:202-252 | one message moves the object as the replica step does, snapshots the new state if due, and wakes the waiting call with the value read |
| `KvServer.Server.ApplyOp` | src/kvraft/server.go:257-277 | values, cache and the answer after a new operation |
| `KvServer.Server.ReadSnapshot` | src/kvraft/server.go:305-329 | a saved state is restored whole, and nothing happens without one |
| `KvServer.Server.constructor` | src/kvraft/server.go:359-382 | a server boots from its snapshot, or empty |
| `KvServer.Server.Wake` | src/kvraft/server.go:241-250 | the waiting channel is removed and filled only if it has room; others are untouched |
| `KvServer.Server.GetNotifyCh` | src/kvraft/server.go:333-345 | one channel for each index |
| `KvServer.Server.FinishPutAppend` | src/kvraft/server.go:148-173 | OK exactly when woken with the caller's own client and number |
| `KvServer.Server.FinishGet` | src/kvraft/server.go:78-107 | OK, no key or wrong leader, decided by client, number and value |
| `KvServer.Clerk.Call` | src/kvraft/client.go:47-106 | every attempt carries the same number, each goes to the next server round and round, and the next call has the next number |
| `KvServer.EveryServerIsTried` | src/kvraft/client.go:67-71 | as many attempts as there are servers reach every one |
| `KvServer.Serve` | src/kvraft/server.go:78-107 | on the objects: a waiting call ends with something final exactly if the command delivered is its own, the state then accounts for it, and a Get is told what the values say, ErrNoKey exactly for a missing key or the text that stands for one |
| `KvHistory.LogIsSequential` | src/kvraft/client.go:47-106 | clerks that wait for one answer before the next call make a log in which numbers appear in turn |
| `KvHistory.ExplainedIsLinearizable` | src/kvraft/server.go:257-285 | if each answer was read after a prefix of the log that holds its operation and none called later, the history is linearizable |
| `KvHistory.ErrNoKeyIsLost` | src/kvraft/server.go:271-277 | a clerk that puts the text ErrNoKey and gets it is told what no store that keeps its values would tell, whatever the key |
| `KvSession.ServiceIsLinearizable` | src/kvraft/test_test.go:369-385 | in every session of any clerks over Raft with services on top, the finished calls, with some of the open ones, are linearizable: as the checker's own store when no key ever holds the text ErrNoKey, and always as the store that shows that text as a missing key |
| `KvProgress.OpenCallCanBeAnswered` | src/kvraft/client.go:47-106 | from every session, with any majority of at least two servers and nobody else, a call that is still open can be answered |
| `KvProgress.CallCanBegin` | src/kvraft/client.go:47-58 | a clerk whose last call is over may begin the next at any time |
| `KvSession.LogIsCalled` | src/kvraft/client.go:59-62 | whatever is committed after an event is an operation that some clerk called before it |
| `KvServer.ClerkReads` | src/kvraft/server.go:271-277 | a clerk reads the stored value, or nothing for a missing key, if and only if the key does not hold the text ErrNoKey |
| `PorcupineChecker.CheckSingle` | src/porcupine/checker.go:179-253 | terminates; true exactly when the history is linearizable; on success every record is a linearization, on failure each is a longest partial linearization with its operation, or absent because there is none |
| `PorcupineChecker.Search` | src/porcupine/checker.go:190-243 | the loop over list, stack, bit set and cache ends with a linearization or with none possible |
| `PorcupineChecker.Step` | src/porcupine/checker.go:190-243 | one round keeps the invariant and moves to a new pair, a shorter path or a later entry |
| `PorcupineChecker.CacheContains` | src/porcupine/checker.go:145-152 | the bucket search finds a pair exactly when it has been visited, hash collisions or not |
| `PorcupineChecker.RecordLongest` | src/porcupine/checker.go:218-234 | each operation on the path keeps the longer of its record and the path |
| `PorcupineSearch.Exhausted` | src/porcupine/checker.go:205-243 | when the search is stuck every reachable pair has been finished, so pruning lost nothing |
| `PorcupineSearch.Skip` | src/porcupine/checker.go:205-214 | passing an operation that leads to a cached pair is sound, since that pair is off the path |
| `PorcupineSearch.Pop` | src/porcupine/checker.go:235-242 | what is taken off the path has been tried in full |
| `PorcupineSearch.ReachableInUniverse` | src/porcupine/checker.go:190-243 | every pair visited is one of finitely many, the measure of termination |
| `PorcupineSearch.LongestIsMaximal` | src/porcupine/checker.go:218-234 | no partial linearization with an operation is longer than its record |
| `PorcupineList.MakeLinkedEntries` | src/porcupine/checker.go:121-143 | the pointers run through the history both ways and each call knows its return |
| `PorcupineList.InsertBefore` | src/porcupine/checker.go:70-81 | a node is linked in front of another, or alone |
| `PorcupineList.Lift` | src/porcupine/checker.go:159-167 | the list becomes itself without one call and return, which remember their neighbours |
| `PorcupineList.Unlift` | src/porcupine/checker.go:169-177 | undoing the last lift restores the list before it, every link included |
| `PorcupineBitset.Bitset.Set` | src/porcupine/bitset.go:29-33 | adds one member |
| `PorcupineBitset.Bitset.Clear` | src/porcupine/bitset.go:35-39 | removes one member |
| `PorcupineBitset.Bitset.Clone` | src/porcupine/bitset.go:19-23 | a fresh array with the same words |
| `PorcupineBitset.Bitset.Hash` | src/porcupine/bitset.go:46-60 | the count of members combined with all words, so equal sets have equal hashes |
| `PorcupineBitset.Equals` | src/porcupine/bitset.go:62-72 | word-wise comparison decides equality |
| `PorcupineBitset.SameMembers` | src/porcupine/bitset.go:62-72 | bit sets of one length with the same members are equal |
| `PorcupineEntries.MakeEntries` | src/porcupine/checker.go:29-60 | sorting by time gives each call and return one position, with one operation before another by position exactly when it is by time |
| `PorcupineEntries.SameVerdict` | src/porcupine/checker.go:39-46 | positions decide linearizability as the times do, ties included |
| `PorcupineEvents.Renumber` | src/porcupine/checker.go:92-106 | numbers follow first appearance, different ids get different ones, they are dense, and the events are otherwise unchanged |
| `PorcupineEvents.CheckEvents` | src/porcupine/checker.go:355-363 | Ok exactly when the operations of a paired event history are linearizable |
| `PorcupineParallel.CheckParallel` | src/porcupine/checker.go:274-353 | Ok exactly when every partition is linearizable, whatever order verdicts arrive in; with information asked for, each partition's records are longest ones |
| `PorcupineParallel.ReportedReplays` | src/porcupine/visualization.go:62-70 | every reported order replays on the model without a refusal, so the display's panic is unreachable |
| `Linearizability.PartialIsReachable` | src/porcupine/checker.go:190-243 | placing accepted minimal operations one at a time gives exactly the partial linearizations |
| `Linearizability.CompleteIsLinearization` | src/porcupine/checker.go:244-252 | and those with everything placed are exactly the linearizations |
| `Locality.Local` | src/porcupine/model.go:28-32 | a history over many independent objects is linearizable exactly when each object's part is |
| `Locality.SubLinearizable` | src/porcupine/model.go:28-32 | an object's part can be checked as a history of its own with its own numbering |
| `KvModel.StoreIsProduct` | src/models/kv.go:37-57 | one key-to-value map accepts what one string for each key accepts |
| `KvModel.Partition` | src/models/kv.go:18-36 | the parts are, for each key that occurs, all its operations in history order |
| `KvModel.PartsDecide` | src/models/kv.go:18-57 | the whole history is linearizable against one map exactly when every part is against one string |
| `KvModel.CheckOperations` | src/porcupine/checker.go:365-373 | Ok exactly when the timed history is linearizable against one key-to-value map |
| `MapReduce.PerformReduce` | src/mr/worker.go:175-200 | one line for each key, reduced over all its values |
| `MapReduce.StoreIntermediate` | src/mr/worker.go:128-151 | each bucket gets the pairs that hash to it, in order |
| `MapReduce.GetIntermediate` | src/mr/worker.go:153-173 | a reduce task collects its bucket from every map task |
| `MapReduce.Sequential` | src/main/mrsequential.go:38-84 | the reference program's lines come from all pairs, sorted |
| `MapReduce.Distributed` | src/mr/worker.go:38-75 | each reduce task's lines come from its own bucket of all pairs |
| `MapReduce.SameOutput` | src/main/test-mr.sh:103-104 | for any hash, any number of reduce tasks and any reduce insensitive to value order, all outputs together are the sequential lines as a multiset, no key twice |
| `MapReduce.Compare` | src/main/test-mr.sh:103-104 | both programs on the same input print the same lines, which are one for each key over all its values |

## Left out

- RaftSafety.ElectionSafety: for arbitrary runs it is false (RaftDoubleVote.TwoLeaders); like the other run theorems it is stated for runs in which no peer votes for two candidates in a term and no peer takes a dummy slot.
- RaftServer.Raft.Snapshot: an index beyond the last log entry (src/raft/raft.go:206-216) is not modelled, because no service reaches it: KvOverRaft.CompactionIsPossible.
- RaftServer.CrashAndRestart: `Kill` saving a cleared vote is not modelled; a crash restarts from the store as it was before `Kill`, as src/raft/config.go does. A crash inside a handler is the step `Interrupt` of RaftCluster.
- RaftBackup.BackUpFindsCommonPrefix: for logs that do not change between rounds and have not been compacted; RaftBackup.CatchUp is for compacted ones.
- RaftBackup.CatchUp: for a leader that does not yet know of anything beyond its own snapshot, as after its election. Where nextIndex has come to lie in what the follower has compacted, RaftBackup.RefusedForeverIff says what refusals do.
- RaftProgress.MajorityMakesProgress: that progress is possible, not that it is made; a cluster of one peer never elects a leader, since votes are counted only when answers arrive, and has no timeouts in the model.
- KvServer.Server.Update: `killed`, locking and blocking sends are not modelled; gob is a lossless codec, so a snapshot is the state it encodes.
- KvServer.Clerk.Call: the retry loop is given the replies it will receive up to the first final one; which peer it asks is kept in range only, and sleeping is not modelled.
- KvSystem.Replay: the log and the gap-free stream are the delivery rule there; KvOverRaft and KvSession derive them from Raft, with clerks.
- KvOverRaft.ReplicasFollowOneLog: for runs in which no peer votes for two candidates in a term and none takes a dummy slot; a service compacts at the index it has applied, and commands are decoded by any fixed function.
- KvSession.ServiceIsLinearizable: for such runs; client identities, random in the program, are taken to be distinct, and that a call's answer comes from the channel at its index is kept only as far as some replica delivered a command with the call's client and number.
- PorcupineEvents.CheckEvents: `PartitionEvent` is not modelled; the events are one partition.
- PorcupineChecker.CheckSingle: `kill` stays 0, `Equal` is equality, and a cache entry holds the contents of its cloned bit set, not the array.
- PorcupineBitset.Bitset.Hash: a word is the set of its one-bits, so `popcnt` and exclusive-or are on sets rather than on machine words.
- PorcupineParallel.CheckParallel: no timeout, at least one partition, and reports are values rather than shared pointers.
- KvModel.Partition: the order of the parts is left open instead of sorted by key.
- KvModel.CheckOperations: histories are non-empty with calls no later than their returns; inputs and outputs have the key/value types.
- Sorting: `sort.Sort` is an insertion sort known to its callers only as a sorted permutation.
- Timing, election timeouts, heartbeat rates, goroutine scheduling, and liveness under fairness.
- labrpc and labgob internals, the configuration and test files, shardctrler and shardkv (empty stubs), kvsrv (a simpler copy of the de-duplication), the MapReduce coordinator, file and JSON input and output, the HTML of the visualizer, and the arithmetic of `ihash`.
