# A verified model of a Raft key/value store, its checker and its MapReduce

This project models, in Dafny, the core of a set of distributed-systems components written in Go: a
Raft implementation with snapshots (`src/raft`), the key/value service built on it (`src/kvraft`), the
linearizability checker used to test that service (`src/porcupine`, `src/models`), and a small
MapReduce (`src/mr`). It proves what each of them is for, over every run and every input.

`dafny verify dfyconfig.toml` checks everything.

## Main results

* **The service is linearizable** (`KvSystem.ServiceLinearizable`). One transition system contains the
  clerks, the key/value servers and the whole Raft cluster, with messages lost, delayed, reordered and
  repeated, crashes, elections, log compaction and snapshot installation. Whatever the clerks saw in a
  run is explained by one store that executes each call once, between its start and its return.
  `KvCheck.TestPasses` carries this through partitioning by key and the event order to the checker:
  the history of every such run passes.
* **Any majority is enough** (`RaftAvailability.Available`): from every state a run can reach, any
  majority of the servers, alone and without restarting, can elect a leader, commit a new command and
  hand it to the service, however far its logs have come apart. `KvAvailability.CallCanComplete` carries
  this to the clerks: a call that waits can always be answered and return. One server by itself is the
  exception: its candidate counts votes only when another server replies, so it never leads. All
  majorities of `n` servers suffice in all runs **if and only if `n` is not 1**
  (`RaftAvailability.AvailabilityLimit`).
* **Raft is safe**: Election Safety, Log Matching, Leader Completeness, State Machine Safety, gap-free
  delivery, durability and monotonicity, each over whole runs (`RaftTheorems`). Two of the promises are
  not kept by the code as it stands, and the exact limits are proved:
  * the vote counter is shared by the goroutines of one round, which read the term only when they run,
    so a late goroutine can count a vote of a later term. Election Safety holds of all runs of `n`
    servers **if and only if `n <= 3`** (`RaftElectionLimits.ElectionSafetyLimit`); for more servers it
    holds when no vote of a later term is counted in a round (`RaftSystem.Punctual`; late requests and
    replies are allowed). `Admissible` is the disjunction of the two, and every Raft theorem that rests
    on elections holds under it. Durability and monotonicity hold of all runs. With two leaders of a term
    one can overwrite the other's log, which then reads an index that no longer exists: all accesses of
    all runs are in range, too, **if and only if `n <= 3`** (`RaftElectionLimits.AccessLimit`).
  * a snapshot for the service is sent by a goroutine of its own and can be overtaken by later commands.
    `LostWrite.OrderNeeded` is a run of three servers, from the first timeout to the last reply, in which
    this happens, an answered write is lost, and what the clerks saw is not linearizable. The service has
    the effect of exactly what was handed over **if and only if every message arrives in its turn**
    (`ApplyOrder.FaithfulIffOrderly`); `KvSystem.InOrder` is that condition over a run.
* **Compaction is transparent exactly if follower and leader agree under the snapshot**
  (`RaftCompaction.CompactionExact`): then, and only then, the AppendEntries handler gives the reply, the
  commit index and the visible log that a server with its whole log would. `CompactionTransparent`: in
  every run, each server has one whole log, its snapshot followed by its visible log, and handles every
  request in the network as if it had kept all of it.
* **The checker is exact and terminates** (`Checker.CheckSingle`): true if and only if the history is
  linearizable, with the doubly linked list, its undo, the cache and the call stack as in the source.
* **Partitioning by key is exact** (`Locality.PartitionExact`): a history is linearizable for the whole
  store if and only if every key's part of it is linearizable by itself.
* **Fast backup** needs at most one rejection for a short log plus one per distinct term of the
  follower, passes over no index at which the logs agree, and ends with the follower holding the leader's
  entries or a snapshot due (`RaftFastBackup.FastBackup`), in every run.
* **A finished MapReduce job is the sequential program** (`MapReduceJob.FinishedJob`), in every run of
  coordinator and workers with tasks timed out, given out twice and reported late, **exactly if** the
  reduction does not see the order in which the sort left the values of a key. No job hangs
  (`MapReduceJob.CanFinish`): whatever workers have failed, every run can go on to the end.

## Layout

| files | what they hold |
|---|---|
| `RaftLog`, `Consensus`, `ConsensusProof` | full logs and the history of a cluster (terms, votes, elections, acknowledgements, choices), and the invariant every event keeps |
| `RaftPeer`, `RaftServer` | one server as a value with what each critical section does to it; and as an object whose methods do that |
| `RaftSystem` | servers and network as a transition system |
| `RaftInvariant`, `Raft*Steps` | the invariant that ties compacted servers and messages to the history, and its preservation by every step |
| `RaftRules` | what each critical section must achieve, message by message and index by index |
| `RaftTheorems`, `RaftAvailability`, `RaftElectionLimits`, `RaftFastBackup`, `RaftCompaction`, `RaftProvenance` | what follows for every run |
| `KvOps`, `KvStore`, `KvServer`, `KvClerk`, `ApplyOrder` | the service: deduplication, snapshots, apply loop, handlers, clerk |
| `KvFront`, `KvLinearization`, `KvSystem`, `KvCheck`, `KvAvailability` | calls and replies, the linearization order, the composed system, the end-to-end theorems |
| `LostWriteSteps`, `LostWrite` | the run in which a write is lost |
| `Linearizability`, `Operations`, `StringOrder`, `KvModel`, `Locality` | histories, events, sorted keys, the key/value model, partitioning |
| `DancingLinks`, `CheckerSearch`, `CheckerInvariant`, `Checker` | the checker |
| `MapReduce`, `MapReduceCoordinator`, `MapReduceJob` | what the tasks compute, the coordinator, and the two together |

Each critical section under a server's lock is one step. The clock, the network and the scheduler are
choices of the run. A snapshot's bytes are the encoding of the service state reached by a sequence of
commands, so Raft carries that sequence.

## Model

| member | source | states |
|---|---|---|
| `RaftServer.Persister.Save` | src/raft/persister.go:164-169 | the persister holds exactly the last saved state and snapshot, together |
| `RaftServer.Raft.constructor` | src/raft/raft.go:15-45 | a new or restarted server is the one booted from the persister |
| `RaftServer.Raft.ReadPersist` | src/raft/persister.go:26-47 | term, vote, log, snapshot index and snapshot come back from the disk; an empty disk changes nothing |
| `RaftServer.Raft.Persist` | src/raft/persister.go:14-23 | everything durable is on disk, nothing else changes |
| `RaftServer.Raft.BatchAppend` | src/raft/help_log.go:58-62 | the entries are appended and persisted |
| `RaftServer.Raft.NewGen` | src/raft/help_election.go:53-60 | a later term is adopted as follower without a vote, durably |
| `RaftServer.Raft.BecomeCandidate` | src/raft/help_election.go:20-27 | next term, own vote, durably |
| `RaftServer.Raft.BecomeLeader` | src/raft/help_election.go:30-50 | leadership with every peer's indices reset |
| `RaftServer.Raft.TryVotingFor` | src/raft/help_election.go:66-86 | grants exactly under the one-vote and up-to-date rules, and persists the vote |
| `RaftServer.Raft.RequestVote` | src/raft/election.go:94-124 | the vote handler, refining the transition system's step |
| `RaftServer.Raft.AskForVote` | src/raft/election.go:39-49 | a round's goroutine sends what the server holds when it runs |
| `RaftServer.Raft.CountVote` | src/raft/election.go:59-72 | the shared counter grows exactly on a counted vote, and passing half makes the leader |
| `RaftServer.Raft.ReconcileEntries` | src/raft/help_replicate.go:91-101 | the loop over both logs keeps the agreeing part, cuts at the first conflict, appends the rest |
| `RaftServer.Raft.TryUpdateCommit` | src/raft/help_replicate.go:103-110 | the commit index rises to the smaller of the leader's and the last index |
| `RaftServer.Raft.FirstOfRun` | src/raft/replicate.go:212-223 | the first index of the conflicting term above the snapshot |
| `RaftServer.Raft.AppendEntries` | src/raft/replicate.go:154-184 | the handler up to the log check, refining the transition system's step |
| `RaftServer.Raft.TakeEntries` | src/raft/replicate.go:186-251 | under, at and above the snapshot: accept, or reject with the term, index and length the leader needs |
| `RaftServer.Raft.PrepareAppend` | src/raft/replicate.go:55-79 | the suffix sent, with the entry before it |
| `RaftServer.Raft.CountHolders` | src/raft/help_replicate.go:35-55 | how many servers hold an index |
| `RaftServer.Raft.UpdateCommitIndex` | src/raft/help_replicate.go:35-55 | the largest index of the current term held by a majority, or the old commit index |
| `RaftServer.Raft.LastIndexOfTerm` | src/raft/help_replicate.go:62-69 | the last visible index of a term, or -1 |
| `RaftServer.Raft.StepBack` | src/raft/help_replicate.go:72-86 | where the leader resumes after a rejection |
| `RaftServer.Raft.AppendReplied` | src/raft/replicate.go:91-117 | the reply handler, stale replies ignored |
| `RaftServer.Raft.Start` | src/raft/log_commit.go:5-29 | only a leader appends, and reports the index the command will have |
| `RaftServer.Raft.Snapshot` | src/raft/persister.go:55-72 | an old index is ignored; otherwise the log is cut there, durably |
| `RaftServer.Raft.PrepareInstall` | src/raft/install.go:21-28 | the snapshot sent to a peer that is too far behind |
| `RaftServer.Raft.ReplaceLog` | src/raft/install.go:82-91 | the log after the snapshot is kept by length alone |
| `RaftServer.Raft.InstallSnapshot` | src/raft/install.go:63-107 | the handler, with what it sends to the service |
| `RaftServer.Raft.InstallReplied` | src/raft/install.go:35-43 | the reply handler |
| `RaftServer.Raft.Kick` | src/raft/log_commit.go:41-75 | exactly the commands after the last applied one, up to the commit index, that the snapshot does not cover |
| `RaftRules.Stands` | src/raft/help_election.go:20-27 | a candidate is in the very next term with its own vote, which survives a crash |
| `RaftRules.VoteExact` | src/raft/election.go:94-118 | a vote is granted if and only if the term is not old, no other candidate has it, and the candidate's log ends in a later term or is as long; what changes otherwise |
| `RaftRules.ElectedExact` | src/raft/election.go:59-72 | a waited-for reply makes a leader if and only if it grants the vote of the current term and completes a majority |
| `RaftRules.LeaderProbes` | src/raft/help_election.go:30-50 | a new leader first asks each peer about its last entry, with no entries |
| `RaftRules.AppendRoles` | src/raft/replicate.go:154-184 | an old leader changes nothing; everybody else becomes a follower of the sender's term; a vote is cleared only with the term |
| `RaftRules.AppendReplies` | src/raft/replicate.go:186-245 | entries are taken if and only if they follow on; the conflict term is reported with the first index of its run; the commit index moves as the rule says |
| `RaftRules.AppendMerges` | src/raft/help_replicate.go:91-101 | index by index: kept in front, kept while terms agree, replaced behind, and what lies behind the message stays if and only if all agreed |
| `RaftRules.CommitExact` | src/raft/help_replicate.go:35-55 | the commit index moves exactly to the last own-term index that more than half of the servers hold |
| `RaftRules.ResumeExact` | src/raft/help_replicate.go:72-86 | the follower's length, or behind the leader's last entry of the conflict term, or the follower's first of it |
| `RaftRules.ReplyExact` | src/raft/replicate.go:91-117 | a later term steps down; stale replies change nothing; a rejection moves one next index; a success records the match and commits all that a majority holds |
| `RaftRules.ExchangeReplicates` | src/raft/replicate.go:53-117 | request, handler and reply together: a follower that takes the entries holds all the leader's from there on, and the leader knows it |
| `RaftRules.CompactExact` | src/raft/persister.go:55-72 | exactly what a newer snapshot covers is replaced, the rest is kept and saved |
| `RaftRules.InstallExact` | src/raft/install.go:63-107 | old leaders and old snapshots change no log; a newer one is taken, what lies beyond is kept, and the service is told exactly if it is behind |
| `RaftRules.InstallCatchesUp` | src/raft/install.go:21-43 | after a snapshot exchange the leader's next entries are accepted |
| `RaftRules.KickExact` | src/raft/log_commit.go:41-75 | exactly the committed commands not yet handed over and not in the snapshot, each under its index |
| `RaftRules.RestartRedelivers` | src/raft/raft.go:15-45 | a restarted server hands over everything behind its snapshot again |
| `RaftAvailability.CatchUp` | src/raft/replicate.go:53-117 | in every run, a leader can bring any server not in a later term up to its own log |
| `RaftAvailability.CanElect` | src/raft/election.go:25-81 | from every reachable state, any majority of two or more servers can get a leader it follows |
| `RaftAvailability.Available` | src/raft/log_commit.go:5-75 | from every reachable state, any majority can commit a command and hand it to a service |
| `RaftAvailability.AloneNeverLeads` | src/raft/election.go:25-81 | a single server never leads and never hands anything over |
| `RaftAvailability.AvailabilityLimit` | src/raft/election.go:25-81 | every majority suffices in all runs if and only if there is not exactly one server |
| `ConsensusProof.UpToDateKeeps` | src/raft/help_election.go:66-86 | the election restriction: a candidate the voter finds up to date holds all the voter has acknowledged that may be chosen |
| `ConsensusProof.LeaderHasChosen` | src/raft/help_replicate.go:35-55 | a prefix chosen in one term is in the log every later leader was elected with |
| `ConsensusProof.CommittedAgree` | src/raft/help_replicate.go:35-55 | two committed prefixes never disagree |
| `RaftReplicationSteps.ReconcileRefines` | src/raft/help_replicate.go:91-101 | matching entries against a compacted log gives the visible part of the merge of the full logs |
| `RaftReplicationSteps.ReconcileVisible` | src/raft/replicate.go:186-231 | the same for what the handler does, at and above the snapshot |
| `RaftCompaction.RunStartCut` | src/raft/replicate.go:212-219 | a rejection's first index is the whole log's, cut off at the snapshot |
| `RaftCompaction.CompactionExact` | src/raft/replicate.go:186-251 | reply, commit index and visible log are those of the server with its whole log if and only if follower and leader agree under the snapshot |
| `RaftCompaction.CompactionByTerms` | src/raft/replicate.go:186-251 | the handler refines the whole-log one wherever the message gives the whole log's terms under the snapshot; commands may differ there |
| `RaftCompaction.CompactionTransparent` | src/raft/replicate.go:154-251 | in every run, one whole log per server, with the snapshot's commands and the visible log as its parts, for which every request in the network has the same outcome as on the compacted server |
| `RaftCommitSteps.CountedIsCommitted` | src/raft/help_replicate.go:35-55 | an index the leader counts as held by a majority, with an entry of its term, is chosen |
| `RaftSnapshotSteps.ReplayGrows` | src/raft/log_commit.go:41-75 | consuming more of a stream without gaps only extends the service's state |
| `RaftTheorems.NextOK` | src/raft/raft.go:47-70 | every step of the cluster keeps the invariant |
| `RaftTheorems.AccessesInRange` | src/raft/help_log.go:24-34 | no step of any run reads or writes an index out of range |
| `RaftTheorems.ElectionSafety` | src/raft/election.go:25-81 | over a whole run, at most one server is ever leader of a term |
| `RaftTheorems.LogMatching` | src/raft/replicate.go:204-231 | equal terms at an index above both snapshots mean equal entries up to it |
| `RaftTheorems.LeaderCompleteness` | src/raft/help_replicate.go:35-55 | an entry committed anywhere is held, in log or snapshot, by every later leader |
| `RaftTheorems.StateMachineSafety` | src/raft/log_commit.go:41-75 | what any two services have been handed, at any two points of a run, is one sequence extending the other |
| `RaftTheorems.SameCommandAtIndex` | src/raft/log_commit.go:41-75 | no two servers ever hand over different commands at one index |
| `RaftTheorems.DeliveryContiguous` | src/raft/install.go:93-104 | commands and snapshots are handed over without gap, repetition or regression, and a snapshot is a prefix of what was handed over |
| `RaftTheorems.CrashLosesNothing` | src/raft/persister.go:14-47 | in all runs, a crash at any point loses no term, vote, log or snapshot |
| `RaftTheorems.NextProgress` | src/raft/persister.go:14-23 | every step, from any state, leaves a durable server durable and takes neither term nor snapshot back |
| `RaftTheorems.TermNeverDecreases` | src/raft/help_election.go:53-60 | in all runs, terms never go back, over crashes too |
| `RaftTheorems.SnapshotNeverShrinks` | src/raft/install.go:77-91 | in all runs, snapshot indices never go back, over crashes too |
| `RaftTheorems.FollowerCommitRule` | src/raft/help_replicate.go:103-110 | for every message of a run, the commit rule by log length is the rule by last new entry |
| `RaftElectionLimits.TwoLeaders` | src/raft/election.go:25-81 | with four servers or more, a run with two leaders of one term |
| `RaftElectionLimits.ElectionSafetyLimit` | src/raft/election.go:25-81 | Election Safety of all runs of n servers if and only if n is at most 3 |
| `RaftElectionLimits.OutOfRange` | src/raft/replicate.go:55-79 | with four servers or more, a run in which a leader's log is overwritten by the other leader of its term, and its next send reads behind the log |
| `RaftElectionLimits.AccessLimit` | src/raft/help_log.go:24-34 | all accesses of all runs of n servers are in range if and only if n is at most 3 |
| `RaftFastBackup.RejectionLowers` | src/raft/help_replicate.go:72-86 | every rejection makes the leader resume strictly earlier |
| `RaftFastBackup.ConflictsUseTerms` | src/raft/replicate.go:204-223 | inside the follower's log, every rejection uses up one of its terms |
| `RaftFastBackup.BackupBound` | README.md:72-89 | at most one rejection plus one per distinct term of the follower |
| `RaftFastBackup.FastBackup` | README.md:72-89 | the bound for every leader and follower of every run |
| `RaftProvenance.OnlySubmitted` | src/raft/log_commit.go:5-29 | every command in a log, snapshot, message or stream was submitted before |
| `KvStore.LastSeqMeans` | src/kvraft/server.go:139-145 | the one number kept per client stands for all its executed requests |
| `KvStore.DuplicateTest` | src/kvraft/server.go:139-143 | the test finds exactly the requests that occurred before |
| `KvStore.DedupExact` | README.md:139-151 | constant-space deduplication builds the store that remembering every request builds |
| `KvStore.Reapplied` | src/kvraft/server.go:139-143 | applying a request again changes nothing |
| `ApplyOrder.FaithfulIffOrderly` | src/raft/install.go:93-104 | the service has the effect of exactly what was handed over if and only if each message arrives in its turn |
| `ApplyOrder.FifoIsOrderly` | src/raft/log_commit.go:66-71 | arrival in the order of handing over is orderly |
| `ApplyOrder.LateSnapshotLoses` | src/raft/install.go:93-104 | an order the goroutines allow in which a command is lost |
| `KvServer.OvertakenSnapshot` | src/raft/install.go:93-104 | on a stream that `LostWrite.OrderNeeded` reaches: both messages arrive, and the later write is gone |
| `LostWrite.OrderNeeded` | src/raft/install.go:93-104 | a run of three servers and three clerks with an overtaken snapshot whose history is not linearizable |
| `LostWrite.StaleNotLinearizable` | src/models/kv.go:40-54 | a read that misses a write answered before it fits no order |
| `KvServer.OrderlyStore` | src/kvraft/help_snapshot.go:10-41 | starting from a snapshot and taking commands and snapshots in their turn gives the store of the whole command sequence |
| `KvServer.StaleCommand` | src/kvraft/server.go:139-143 | a command overtaken by a snapshot that covers it changes nothing |
| `KvServer.ArrivalsRaise` | src/kvraft/server.go:139-145 | with messages in their turn, no arrival takes a client's last sequence number back |
| `KvServer.WokenIsExecuted` | src/kvraft/server.go:153-155 | a request whose command has arrived is not above its client's last sequence number |
| `KvServer.HandedIsPrefix` | src/kvraft/server.go:127-161 | with every message in its turn, every snapshot handed to Raft is the state after a prefix of the stream, under that prefix's index |
| `KvServer.HandedExact` | src/kvraft/server.go:135-161 | a snapshot is handed over if and only if a command was executed and left the Raft state above the limit |
| `KvServer.HandedIsState` | src/kvraft/server.go:157-161 | every snapshot handed to Raft is the server after some of the messages, under the index it then had |
| `KvServer.KVServer.constructor` | src/kvraft/server.go:87-113 | a server starts empty or from the persisted snapshot |
| `KvServer.KVServer.EncodeSnapshot` | src/kvraft/help_snapshot.go:10-17 | decoding what was encoded restores the server exactly |
| `KvServer.KVServer.DecodeSnapshot` | src/kvraft/help_snapshot.go:20-41 | missing or broken bytes change nothing |
| `KvServer.KVServer.Notify` | src/kvraft/server.go:170-182 | only the handler of that request is signalled, if it waits |
| `KvServer.KVServer.ApplyOne` | src/kvraft/server.go:123-155 | one message: the new store, whether it was executed, and exactly its own request signalled, after it is in the store |
| `KvServer.KVServer.MaybeSnapshot` | src/kvraft/server.go:157-161 | a snapshot exactly when the Raft state is too large, of exactly what has been applied |
| `KvServer.KVServer.GuardApply` | src/kvraft/server.go:123-167 | the loop: the store, exactly the requests signalled, and the snapshots handed to Raft behind commands that were not duplicates |
| `KvServer.KVServer.Register` | src/kvraft/server.go:196-199 | a handler waits, not signalled |
| `KvServer.KVServer.FinishGet` | src/kvraft/server.go:200-230 | an answer only when started and signalled, with the store's value then |
| `KvServer.KVServer.FinishPutAppend` | src/kvraft/server.go:248-269 | success only when started and signalled |
| `KvClerk.Clerk.constructor` | src/kvraft/client.go:28-34 | sequence numbers start at 1 |
| `KvClerk.Clerk.Get` | src/kvraft/client.go:46-70 | one number for all attempts, raised by one exactly when answered; each attempt goes to the next server modulo their number; the first answer's value |
| `KvClerk.EveryServerAsked` | src/kvraft/client.go:56-60 | among as many attempts in a row as there are servers, each server is asked exactly once |
| `KvFront.CallCompletes` | src/kvraft/client.go:46-70 | an idle clerk's call, answered by a store that has executed it, returns that store's value and frees the clerk |
| `KvFront.InvokeOK` | src/kvraft/client.go:46-56 | making a call keeps the service's invariant |
| `KvFront.AnswerOK` | src/kvraft/server.go:214-230 | answering from a store that a prefix of the log built keeps it |
| `KvFront.ReturnOK` | src/kvraft/client.go:62-69 | taking an answer keeps it |
| `KvFront.ClerkNumbers` | src/kvraft/client.go:46-70 | a call carries the clerk's number, an answer taken raises it by one, nothing else changes it |
| `KvFront.LogSerial` | README.md:139-151 | in the log the clerks produce, each client's requests first occur in order |
| `KvLinearization.Linearization` | src/kvraft/server.go:123-269 | the order of first log positions and read points linearizes all calls |
| `KvSystem.KvNextOK` | src/kvraft/server.go:123-269 | every step of the composed system keeps its invariant |
| `KvSystem.StorePrefix` | src/kvraft/server.go:123-167 | every server's store is the one built by a prefix of the common log |
| `KvSystem.StoresAgree` | src/kvraft/server.go:123-167 | all servers hold the stores of prefixes of one log, which holds only calls made, each client's in order, and every call that has returned |
| `KvSystem.HandedIsCompact` | src/kvraft/server.go:127-161 | in every run, each snapshot a service hands over is one the `Compact` step takes: index and contents of a prefix of the stream |
| `KvSystem.WokenCanAnswer` | src/kvraft/server.go:170-230 | in every run, a handler that is woken finds its request executed in the store it reads |
| `KvSystem.ServiceLinearizable` | src/kvraft/server.go:185-269 | what the clerks saw in any run is linearizable |
| `KvAvailability.CallCanComplete` | src/kvraft/server.go:185-269 | after any run, any majority of two or more servers can answer any waiting call, and it returns |
| `KvCheck.TestPasses` | src/kvraft/test_test.go:369 | the recorded history of a run with all calls returned passes the check of every key |
| `KvModel.StoreStepByKey` | src/models/kv.go:35-54 | a step of the whole store is a step of its key and leaves the others alone |
| `KvModel.Group` | src/models/kv.go:19-23 | the map holds each key's operations in order, and no other keys |
| `KvModel.RestrictAt` | src/models/kv.go:19-23 | a key's part is its operations at increasing positions of the history |
| `KvModel.Partition` | src/models/kv.go:18-34 | the occurring keys in sorted order, each once with its operations in order |
| `StringOrder.BeforeMeans` | src/models/kv.go:28 | the order is the dictionary's |
| `StringOrder.SortStrings` | src/models/kv.go:24-28 | exactly the keys, in strictly increasing order |
| `Locality.WholeToKey` | src/models/kv.go:18-34 | a linearization of the whole store gives one of each key |
| `Locality.Merge` | src/models/kv.go:18-34 | linearizations of all keys merge into one of the whole store |
| `Locality.PartitionExact` | src/models/kv.go:18-54 | linearizable for the store if and only if linearizable key by key |
| `Operations.ArrangedWellFormed` | src/porcupine/checker.go:48-60 | sorted events are a well-formed history |
| `Operations.PrecedesMeans` | src/porcupine/checker.go:39-46 | event positions say exactly which call came after which return |
| `Operations.EntriesExact` | src/porcupine/checker.go:39-60 | events are linearizable if and only if the operations are, however equal times are arranged |
| `DancingLinks.UnlinkConsistent` | src/porcupine/checker.go:159-167 | unlinking leaves every remaining entry pointing to its nearest remaining neighbours |
| `DancingLinks.RelinkUndoes` | src/porcupine/checker.go:169-177 | relinking restores the list exactly |
| `Checker.InsertBefore` | src/porcupine/checker.go:70-81 | the pointers of the new node and its neighbours |
| `Checker.MakeLinkedEntries` | src/porcupine/checker.go:121-138 | the list carries the events in order, and each call knows its return |
| `Checker.CacheContains` | src/porcupine/checker.go:145-152 | found if and only if the configuration was stored, whatever the hash |
| `Checker.Lift` | src/porcupine/checker.go:159-167 | a call and its return leave the list; the call's successor is used without a test, the return's with one |
| `Checker.Unlift` | src/porcupine/checker.go:169-177 | the list is exactly what it was before, with the same tests |
| `Checker.CallHasNext` | src/porcupine/checker.go:160-162 | a call in the list always has a successor, so the untested pointer is never nil |
| `CheckerSearch.ScanReachesCall` | src/porcupine/checker.go:194-196 | a call reached by the scan is one that may be linearized next |
| `CheckerSearch.ScanReachesReturn` | src/porcupine/checker.go:214-217 | a return reached by the scan means no choice at this level can be completed |
| `CheckerInvariant.Push` | src/porcupine/checker.go:194-207 | choosing an operation keeps the search invariant and remembers a reachable configuration |
| `CheckerInvariant.Skip` | src/porcupine/checker.go:208-213 | moving past a failed call keeps it |
| `CheckerInvariant.Pop` | src/porcupine/checker.go:214-242 | undoing the last choice keeps it |
| `Checker.CheckSingle` | src/porcupine/checker.go:179-253 | terminates, and answers true if and only if the history is linearizable |
| `MapReduce.Mapper` | src/mr/worker.go:107-140 | each bucket's file holds exactly the pairs whose key hashes to it |
| `MapReduce.ShareInOrder` | src/mr/worker.go:35-37 | a bucket's share is the pairs whose hash modulo the buckets is its number, in the order emitted |
| `MapReduce.ValuesInOrder` | src/mr/worker.go:165-210 | a key's values are those of all its pairs, in their order |
| `MapReduce.Reducer` | src/mr/worker.go:165-210 | one line per key of the bucket, reducing all its values in order |
| `MapReduce.SortByKey` | src/main/mrsequential.go:59 | the same pairs, in key order |
| `MapReduce.Sequential` | src/main/mrsequential.go:38-84 | the emitted pairs sorted by key, and one line per key, reducing its values in that order |
| `MapReduce.EachKeyOnce` | src/mr/worker.go:165-210 | for every reduction: both programs reduce each key exactly once, on the same values up to order |
| `MapReduce.JobExact` | src/main/mrsequential.go:38-84 | for every reduction: the outputs agree if and only if it gives the same on the two orders of each key's values |
| `MapReduce.JobIsSequential` | src/main/mrsequential.go:38-84 | for every reduction that ignores the order of its values, all reduce outputs together are the sequential output |
| `MapReduceCoordinator.Coordinator.constructor` | src/mr/coordinator.go:47-69 | all map tasks to do, no reduce task yet |
| `MapReduceCoordinator.Coordinator.Scan` | src/mr/coordinator.go:132-183 | the first task not begun or overdue, all before it done or in time, and whether all are done |
| `MapReduceCoordinator.Coordinator.FetchMap` | src/mr/coordinator.go:132-159 | the map phase ends exactly when every map task is done |
| `MapReduceCoordinator.Coordinator.FetchReduce` | src/mr/coordinator.go:161-183 | the reduce phase ends exactly when every reduce task is done |
| `MapReduceCoordinator.Coordinator.RequestTask` | src/mr/coordinator.go:78-129 | the assignment and the new state, phase changes included |
| `MapReduceCoordinator.Coordinator.ResponseTask` | src/mr/coordinator.go:185-200 | the reported task becomes done, and nothing else changes |
| `MapReduceCoordinator.MapGiven` | src/mr/coordinator.go:132-159 | a map task not begun, or begun over 15 seconds ago, is given out: the first such |
| `MapReduceCoordinator.ReduceGiven` | src/mr/coordinator.go:161-183 | the same for reduce tasks, after 10 seconds |
| `MapReduceCoordinator.WaitsExact` | src/mr/coordinator.go:78-129 | a worker is sent away if and only if every unfinished task of the phase is in hand and within its time |
| `MapReduceCoordinator.PhaseExact` | src/mr/coordinator.go:78-183 | a phase ends if and only if all its tasks are done, and exit is said if and only if the job has ended |
| `MapReduceCoordinator.ReportExact` | src/mr/coordinator.go:185-200 | a report finishes the task it names and touches no other |
| `MapReduceCoordinator.Barriers` | src/mr/coordinator.go:78-200 | in every run, reduce tasks only after all maps, exit only after everything, every report in range |
| `MapReduceCoordinator.DoneStays` | src/mr/coordinator.go:185-200 | in every run, a finished task stays finished |
| `MapReduceJob.ReduceFindsFiles` | src/mr/worker.go:165-190 | in every run, a reduce task finds all the files it reads, complete |
| `MapReduceJob.FinishedJob` | src/mr/coordinator.go:78-200 | in every run, when a worker is told to exit, all outputs are there, and are the sequential output if and only if the reduction does not see the sort's order |
| `MapReduceJob.CanFinish` | src/mr/coordinator.go:78-200 | after any run, the job can go on to its end with every output written |

## Left out

- The condition `Admissible`: for more than three servers the Raft theorems that rest on elections assume that no vote of a later term is counted in a round, because without it Election Safety is false; `ElectionSafetyLimit` proves that.
- RaftTheorems.AccessesInRange: assumes `Admissible` too, because without it a leader can be made to read behind its log; `AccessLimit` proves that.
- The condition `InOrder`: the service theorems assume that no snapshot for the service is overtaken, because without it an answered write can be lost, as `LostWrite.OrderNeeded` shows; the Raft theorems speak of the order in which messages are handed over, which needs no such condition.
- A snapshot handed back to Raft is the state after a prefix of the stream, which `KvSystem.HandedIsCompact` proves under `InOrder`; what a service behind an overtaken snapshot hands over is not modelled.
- Liveness under fairness: that an election, a call or a job does complete; the model proves that it always can.
- RaftAvailability.Available: assumes two servers or more, because one alone never leads; `AvailabilityLimit` proves that.
- The remote-call layer, its encoding and its faults (`labrpc`, `labgob`): messages may be lost, delayed, reordered and repeated, and bytes decode to what was encoded or not at all.
- Election and heartbeat timers, sleeps and timeouts as times: they are choices of the run; the coordinator's time limits are modelled.
- Channels, goroutines and locks as mechanisms: critical sections are steps, and a waiting handler is an entry that can be signalled once.
- KvClerk.Clerk.Get: takes the outcomes of its remote calls as a list and stops at its end, because the source's loop has no bound; `PutAppend` is the same loop and is not written out.
- KvServer.KVServer.FinishGet: the 500 ms timeout is the case of a handler that has not been signalled.
- Operations.EntriesExact: the sort is any arrangement the comparison allows, with operations that do not return before their call.
- Checker.CheckSingle: the bit set is a set of operation numbers with any hash; the word layout, the kill flag, the longest partial linearizations and the parallel driver are not modelled.
- MapReduce.Sequential: the lines are a table by key; the order in which they are printed is not modelled.
- MapReduceJob.FinishedJob: a reduce output is written in one step; two workers writing the same output file at once are not modelled.
- Files, temporary names, JSON and the FNV hash of MapReduce: a bucket function of any hash stands for the last.
- Client identifiers are drawn at random in the source; distinct clients have distinct identifiers here.
- Command types other than Get, Put and Append, and 64-bit wrap-around of sequence numbers and terms.
- Visualization, test harnesses, and the `shardctrler` and `shardkv` stubs.
