# Verified models of the distributed systems labs

A Dafny model of the Go solutions to the MIT 6.5840 labs in this repository, with proofs of what
those solutions are for.

- **Raft** (`RaftSpec`, `RaftSystem`, `RaftHistory`, `RaftInvariant`, `RaftSteps`,
  `RaftReplication`, `RaftSafety`, `RaftProgress`, `RaftLiveness`, `RaftPeer`). A cluster of any
  number of peers over a network that loses, repeats and reorders messages, with elections, log
  replication, commit, crash and restart from what is persisted, and local log compaction.
  `RaftPeer` is one server with its cut-off log and index arrays, proved to act as the specification says on the whole log.
  `RaftSafety` holds the theorems over all runs, `RaftProgress` what messages bring about and where
  entries come from, and `RaftLiveness` a run for every command.
- **The sharded store** (`ShardSpec`, `ShardWorld`, `ShardInvariant`, `ShardSteps`,
  `ShardEntries`, `ShardSafety`, `ShardMeaning`, `ShardLiveness`, `ShardServer`). Several groups,
  each one sequential replicated log, move through numbered configurations at their own pace; leaders read any earlier state of
  their group, and proposed entries wait and may be applied late, again, or in any order.
  `ShardServer` is one server; `ShardSafety` holds the theorems over all runs,
  `ShardMeaning` what clients are told, in terms of the writes that took effect alone, and
  `ShardLiveness` that no state is a dead end.
- **The shard controller** (`Rebalance`, `ShardController`, `ConfigMachine`, `ControllerPlan`).
  The greedy balancing of Join and Leave, and the state machine that keeps every configuration.
  `ControllerPlan` shows when its configurations are such as the sharded store relies on.
- **The linearizability checker** (`Linearizability`, `Search`, `LinkedHistory`, `SearchList`,
  `SearchSpot`, `SearchHeap`, `Longest`, `Effort`, `Bitset`, `Checker`, `Histories`, `Locality`,
  `Relabel`, `KvModel`). The backtracking search over a doubly linked list with its cache of
  (set of operations, state) pairs, and the split of a history by key.
- **The replicated key/value server** (`KvRaft`, `KvServer`, `KvCluster`, `KvSystem`): duplicate
  suppression, snapshots and restarts. `KvSystem` puts a server on every peer of the Raft cluster and
  proves that all servers agree, in every history.
- **MapReduce** (`MapReduce`): the partitioned job against the sequential one.
- `Writes` says what a list of writes leaves at a key; the key/value server, the sharded store and the
  key/value specification of the checker are each proved to agree with it. `Sets`, `Strings` and
  `Options` hold what else the others share.

Code that updates state step by step is modelled by classes and methods with loops; each is proved
against a function of the state before, and the theorems are about those functions. Go maps are
walked in an arbitrary order, here by picking arbitrary keys. Encoding and decoding are the
identity. `sort.Sort`, `sort.Slice`, `sort.Ints` and `sort.Strings` are stood in for by insertion
sorts; the proofs use only that the result is sorted and a rearrangement.

## Where the code decides

- The comment in `src/raft/append.go:209` states the rule of the Raft paper for commitIndex; the
  code clamps by the last index of the log. The model clamps as the code does, and
  `RaftSafety.CommitShortcut` proves that both give the same.
- `src/raft/vote.go:74-78` lets any refusal in the current term demote even a sitting leader, and
  `src/raft/vote.go:170-173` lets a server become candidate again in the same term; both are in the
  model.
- `src/shardctrler/common.go:15` says that Query with -1 gives the latest configuration; the code
  does so for every number out of range.
- `src/models/kv.go:8` lists three operations; the code treats every other number as an append
  that returns the old value, and so does the model.
- Three promises are false of the code as they stand, and are proved with their exact conditions.
  A Join does not always leave every shard with a group of the configuration
  (`ShardController.JoinPlaces`, `ShardController.JoinOfNothing`). Applying a log with repeated
  requests does not always execute every first occurrence (`KvRaft.ExactlyFirsts`,
  `KvRaft.LateRequestIsLost`). A key/value server that was started from a snapshot has lastApplied 0,
  so the test of `src/kvraft/server.go:334` does not always keep an older snapshot out
  (`KvServer.OldSnapshotTakesBack`, `KvServer.RestartedServerGoesBack`).

## Model

| member | source | states |
|---|---|---|
| RaftSafety.ElectionSafety | src/raft/vote.go:45-78 | over every run, two peers that are ever leader in the same term are the same peer, late refusals and re-entered candidacies included |
| RaftSafety.LogMatching | src/raft/append.go:163-199 | logs of any two peers at any two moments that have the same term at an index are identical up to it |
| RaftSafety.StateMachineSafety | src/raft/append.go:89-119 | whenever two peers at any two moments have commitIndex at or above x, their logs hold the same entries up to x |
| RaftSafety.LeadersAreComplete | src/raft/vote.go:110-125 | what is committed at a peer in some term is in the log of every leader of a later term, at every moment of its leadership |
| RaftSafety.ApplySafety | src/raft/raft.go:304-359 | no two messages ever handed up for one index differ, at any peers, before or after restarts |
| RaftSafety.CommittedIsDurable | src/raft/persistence.go:39-73 | what a peer has committed stays in its own log for ever, through crashes and restarts |
| RaftSafety.CommitShortcut | src/raft/append.go:208-211 | every append message reaches at least to its LeaderCommit, so clamping by the last index of the log commits exactly what the rule of the Raft paper commits |
| RaftSafety.CompactionIsInvisible | src/raft/persistence.go:91-124 | votes, merges, commits and successful replies on a compacted log equal those on the whole log for every message that does not reach below the snapshot point |
| RaftSafety.PeersStayWellFormed | src/raft/raft.go:82-90 | no reachable state lets a handler index outside its log or tables, and commitIndex stays inside the log |
| RaftSafety.RepliesFit | src/raft/append.go:89-91 | a reply that is in flight fits the log of the leader it returns to |
| RaftSafety.RequestsFit | src/raft/raft.go:361-401 | no leader is ever sent an append message of its own term |
| RaftSafety.StepHolds | src/raft/raft.go:191-245 | every event of the cluster keeps the invariant that ties peers, network and history |
| RaftSafety.RunExplained | src/raft/raft.go:261-302 | every run from the initial state has a history of votes, reigns and acknowledgements that explains each of its states |
| RaftHistory.LogsMatch | src/raft/append.go:163-199 | logs backed by the logs of leaders agree below any index at which their terms agree |
| RaftHistory.MergeFollows | src/raft/append.go:187-199 | a merge leaves the log of the leader up to the last entry sent, or the old log when that already holds them |
| RaftHistory.MergeKeeps | src/raft/append.go:187-199 | a merge never loses what the old log and the log of the leader share with a third log |
| RaftHistory.LeaderCompleteness | src/raft/vote.go:110-125 | an entry acknowledged by a majority in its own term is in the log of every later leader |
| RaftHistory.ChosenAgree | src/raft/append.go:94-119 | two chosen entries lie on one log |
| RaftHistory.CommittedAgree | src/raft/append.go:89-119 | two committed prefixes agree |
| RaftSteps.UpToDateHolds | src/raft/vote.go:113-114 | a candidate whose log is at least as up to date as the log of a voter holds what the voter holds, unless a leader in between dropped it |
| RaftSteps.OneWinner | src/raft/vote.go:57-66 | a second majority of voters in one term has the same winner |
| RaftSteps.WinningVote | src/raft/vote.go:50-73 | the vote that makes a majority makes a leader whose log covers what its voters acknowledged |
| RaftReplication.ClampIsExact | src/raft/append.go:208-211 | the clamped commitIndex equals the minimum of LeaderCommit and the last index sent |
| RaftReplication.MergeCommitted | src/raft/append.go:187-199 | a merge keeps committed entries |
| RaftReplication.ScanChooses | src/raft/append.go:94-119 | an index that the commit scan of a leader accepts is acknowledged by a majority in the current term |
| RaftReplication.HandleAppendKeeps | src/raft/append.go:131-218 | handling an append message keeps the invariant |
| RaftReplication.AppendReturnsKeeps | src/raft/append.go:29-122 | handling the reply to an append message keeps the invariant |
| RaftSteps.VoteReturnsKeeps | src/raft/vote.go:42-79 | handling the reply to a vote request keeps the invariant |
| RaftReplication.HandleVoteKeeps | src/raft/vote.go:85-139 | handling a vote request keeps the invariant |
| RaftReplication.StartKeeps | src/raft/raft.go:137-170 | a command accepted by a leader keeps the invariant |
| RaftReplication.CampaignKeeps | src/raft/raft.go:214-237 | starting an election keeps the invariant |
| RaftReplication.HandUpKeeps | src/raft/raft.go:304-359 | handing committed entries to the service keeps the invariant |
| RaftReplication.QuietKeeps | src/raft/persistence.go:91-124 | snapshots, restarts and timeouts that start no election keep the invariant |
| RaftProgress.DeliveryReplicates | src/raft/raft.go:371-397 | over every run, a message that a leader sends in one state and a peer takes in a later one brings that peer the whole log the leader had when it sent it, and at least its commitIndex |
| RaftProgress.HandedWasStarted | src/raft/raft.go:137-170 | over every run, the command of every entry ever handed up was given earlier to a leader of the term of the entry |
| RaftProgress.VoteIsGiven | src/raft/vote.go:85-139 | a vote is granted exactly when the term is not behind, no other candidate has it in that term, and the log of the candidate has a later last term or the same and no less entries; then the voter records it and answers with that term |
| RaftProgress.LikeLogsAgree | src/raft/vote.go:110-125 | over every run, a candidate of a later term whose log ends like that of the peer it asks gets its vote |
| RaftProgress.MajorityWins | src/raft/vote.go:57-73 | a counted vote makes a leader exactly when it makes a majority, with nextIndex at the end of its log and matchIndex 0 for everybody |
| RaftProgress.RefusalDemotes | src/raft/vote.go:74-78 | a refusal in the current term makes a follower whatever the role was; lost and outdated replies change nothing |
| RaftProgress.EntriesAreTaken | src/raft/append.go:131-218 | entries are taken exactly when the term is not behind and the entry before them is in the log, above the snapshot point, with the term named; then the log holds all of them after what it had, and what the leader committed of them is committed; otherwise log and commitIndex stay |
| RaftProgress.RefusalStepsBack | src/raft/append.go:51-85 | a refusal in the current term moves nextIndex strictly back, no further than the snapshot point, and changes nothing else |
| RaftProgress.LaterTermDemotes | src/raft/append.go:36-47 | a refusal from a later term makes a follower of that term without a vote |
| RaftProgress.MajorityCommits | src/raft/append.go:89-119 | a success is noted in both tables, and an entry of the current term that a majority is then known to hold is committed |
| RaftProgress.SnapshotCuts | src/raft/persistence.go:91-124 | the snapshot point moves exactly for an index above it and not above commitIndex, lastApplied follows, and the log as a whole stays |
| RaftProgress.CommittedIsHandedUp | src/raft/raft.go:304-359 | over every run, each committed entry above lastApplied that is still in the log is handed up by the next hand-up of its peer |
| RaftLiveness.EveryCommandCanBeHandedUp | src/raft/raft.go:191-359 | in a cluster of any size above one every command has a run from the initial state in which a leader is elected and every peer hands that command up |
| RaftSpec.MatchLen | src/raft/append.go:187-199 | the number of leading entries that the log already holds by term, and where the first difference is |
| RaftSpec.ScanCommit | src/raft/append.go:94-119 | the greatest index above commitIndex that a majority holds and that is of the current term, else commitIndex |
| RaftSpec.BackOff | src/raft/append.go:54-83 | where the back-off over the term of the refused entry stops |
| RaftPeer.RaftPeer.Make | src/raft/raft.go:261-302 | a started server is the restart of what was persisted, or a fresh peer |
| RaftPeer.RaftPeer.Persist | src/raft/persistence.go:17-36 | the persisted state becomes the state in memory |
| RaftPeer.RaftPeer.ReadPersist | src/raft/persistence.go:39-73 | what was stored is taken over and the log counts as applied up to the snapshot point; with nothing stored nothing changes |
| RaftPeer.RaftPeer.ResetTables | src/raft/raft.go:294-297 | every nextIndex is one past the log and every matchIndex the given value |
| RaftPeer.RaftPeer.RequestVote | src/raft/vote.go:85-139 | the handler acts on the whole log as the specification says and leaves the persisted state equal to memory |
| RaftPeer.RaftPeer.AdoptTerm | src/raft/vote.go:98-107 | a higher term is adopted, the vote forgotten and the role given up, and all of it persisted |
| RaftPeer.RaftPeer.VoteReturned | src/raft/vote.go:42-79 | the reply handler acts as the specification says: stale terms ignored, refusals demote, a majority makes a leader |
| RaftPeer.RaftPeer.ElectionTimeout | src/raft/raft.go:205-240 | a timeout moves a follower to the pre-vote, a candidate to the next term with a vote for itself |
| RaftPeer.RaftPeer.Start | src/raft/raft.go:137-170 | a leader appends exactly the command under its term and answers its index and term; others change nothing and refuse |
| RaftPeer.RaftPeer.HeartbeatTo | src/raft/raft.go:371-397 | the message for one peer carries the current term, the sender, commitIndex and every entry after PrevLogIndex to the end of the log, or there is none below the snapshot point |
| RaftPeer.RaftPeer.Heartbeat | src/raft/raft.go:361-402 | exactly one message for every other peer that is not behind the snapshot point, each with the current term, the sender, commitIndex and the rest of the log |
| RaftPeer.RaftPeer.FirstNew | src/raft/append.go:187-199 | the first entry that conflicts with the log or lies beyond its end |
| RaftPeer.RaftPeer.MergeEntries | src/raft/append.go:187-199 | the cut-off log with its compacted prefix becomes the merge of the whole log |
| RaftPeer.RaftPeer.Accept | src/raft/append.go:175-216 | merge, persist and clamp commitIndex |
| RaftPeer.RaftPeer.AppendEntries | src/raft/append.go:131-218 | the handler acts on the whole log as the specification says and leaves the persisted state equal to memory |
| RaftPeer.RaftPeer.CountHolders | src/raft/append.go:97-107 | the number of peers, the leader included, whose matchIndex reaches N when the entry is of the current term |
| RaftPeer.RaftPeer.AdvanceCommit | src/raft/append.go:94-119 | commitIndex becomes the result of the commit scan |
| RaftPeer.RaftPeer.BackOffFor | src/raft/append.go:54-83 | the back-off loop computes the specified next index |
| RaftPeer.RaftPeer.StepBack | src/raft/append.go:51-87 | only nextIndex of that peer changes, to the specified value |
| RaftPeer.RaftPeer.AppendReturned | src/raft/append.go:29-122 | the reply handler acts as the specification says in all cases: stale, higher term, refusal, success |
| RaftPeer.RaftPeer.NowMatches | src/raft/append.go:89-119 | after a success both index tables of the peer and the commit index are the specified ones |
| RaftPeer.RaftPeer.Snapshot | src/raft/persistence.go:91-124 | the log is cut at an index between the old snapshot point and commitIndex, else nothing changes; slot 0 keeps the entry and its term |
| RaftPeer.RaftPeer.CollectCommitted | src/raft/raft.go:304-332 | the buffered messages are the committed entries above lastApplied that are not compacted, in order |
| RaftPeer.RestartIsLossless | src/raft/persistence.go:39-73 | restarting from what is persisted loses nothing but volatile state |
| RaftPeer.MergeAt | src/raft/append.go:187-199 | stopping at the first new entry gives the merge |
| RaftPeer.MergeOffset | src/raft/raft.go:82-90 | merging the cut-off log is merging the whole log |
| ShardSafety.SingleServer | src/shardkv/server.go:423-425 | in every reachable state at most one group can serve a shard |
| ShardSafety.SafeReconfiguration | src/shardkv/server.go:251-268 | a configuration entry that takes effect finds every shard of its group Serving, although only its number is checked when it is applied |
| ShardSafety.ActsAsOneMap | src/shardkv/server.go:222-248 | every operation that takes effect is answered as by one global map of all earlier writes and becomes its next write; nothing else changes that map; ShardMeaning.ReplayMeans says what that map is |
| ShardLiveness.NeverStuck | src/shardkv/server.go:442-523 | from every state of every run, stale leaders and waiting entries included, and for every configuration that no group is past, the run can go on to a state in which all groups are at that configuration, no shard is on its way and every shard is served by its owner |
| ShardLiveness.CanCalm | src/shardkv/server.go:467-523 | the migration of any shard at the least configuration of all groups can be completed on both sides, and completing it undoes no other |
| ShardLiveness.Pulls | src/shardkv/server.go:467-493 | a batch that a group waits for can be pulled and inserted as soon as its former owner is at the configuration |
| ShardLiveness.LetsGo | src/shardkv/server.go:496-522 | the former owner can be made to delete a batch that was inserted |
| ShardLiveness.Confirms | src/shardkv/server.go:496-522 | after that the new owner can take the batch for its own |
| ShardLiveness.OneAdvances | src/shardkv/server.go:442-464 | a group whose shards are all Serving can take the next configuration |
| ShardMeaning.ReplayMeans | src/shardkv/shard.go:17-32 | the one map holds exactly the keys that were written, each with its last Put and all that was appended after it |
| ShardMeaning.RepliesMean | src/shardkv/server.go:222-248 | over every run, an operation is answered ErrWrongGroup exactly when the group does not own its shard or lacks the data; a write OK; a Get the value of the writes so far with OK, or ErrNoKey with nothing exactly when no write so far named the key |
| ShardMeaning.WritesMean | src/shardkv/server.go:222-248 | over every run, a step adds a write exactly when a write reaches a group that serves its key and has not been done before; no other step changes what was written |
| ShardMeaning.ServersMean | src/shardkv/server.go:358-369 | over every run, a group that serves a shard has exactly the keys of the shard that were written, with their values |
| ShardMeaning.ServesMeans | src/shardkv/server.go:423-425 | over every run, a group serves a shard exactly when the controller gave it that shard in the configuration the group is at and it is not waiting for it or giving it up |
| ShardMeaning.ConfigurationMeans | src/shardkv/server.go:251-268 | over every run, the next configuration marks exactly the shards that come from another group as to be pulled and exactly those that go to another group as to be given up, and changes no data |
| ShardMeaning.InsertMeans | src/shardkv/server.go:271-301 | over every run, a shard that is waited for and in the batch gets exactly the data frozen at its former owner; others stay |
| ShardMeaning.DeleteMeans | src/shardkv/server.go:304-325 | over every run, a delete empties the copy of a former owner, makes the copy of the new owner its own and leaves other shards alone |
| ShardSafety.EffectIsAnswered | src/shardkv/server.go:222-248 | an operation that takes effect is answered as by the map of all earlier writes |
| ShardSafety.LogChanges | src/shardkv/server.go:222-248 | only a write that takes effect is added to the writes of that map, in every kind of step |
| ShardSafety.ServerHasItsPart | src/shardkv/server.go:222-248 | in every reachable state a group that can serve a shard has exactly the part of that global map that belongs to the shard |
| ShardSafety.ExactlyOnce | src/shardkv/server.go:231-244 | each command changes the store at most once in every run, retries at successive owners included, and a command a client was told is done is in the log of writes |
| ShardSafety.PulledEqualsFrozen | src/shardkv/server.go:276-285 | a pulled shard that is about to be inserted lands in an empty shard and equals the copy frozen at its source, which is still there |
| ShardSafety.BatchesInLockstep | src/shardkv/server.go:543-560 | all shards moving between the same two groups in one configuration have the same status |
| ShardSafety.ReplicasAgree | src/shardkv/server.go:276-289 | whatever order the map is walked in, an insertion takes the whole batch or nothing, so replicas agree |
| ShardSafety.WorldsStayWellFormed | src/shardkv/server.go:148-219 | every step keeps the shape that the handlers rely on |
| ShardSafety.StepHolds | src/shardkv/server.go:148-219 | every event keeps the invariant |
| ShardSafety.OperationKeeps | src/shardkv/server.go:222-248 | applying an operation keeps the invariant |
| ShardSafety.ConfigurationKeeps | src/shardkv/server.go:251-268 | applying a configuration keeps the invariant |
| ShardSafety.InsertKeeps | src/shardkv/server.go:271-301 | applying an insertion, timely or late, keeps the invariant |
| ShardSafety.DeleteKeeps | src/shardkv/server.go:304-325 | applying a deletion, timely or late, keeps the invariant |
| ShardSafety.PullProposal | src/shardkv/server.go:90-121 | what a leader reads from any earlier state of the source, and proposes, is sound to insert while the target still pulls |
| ShardSafety.AskProposal | src/shardkv/server.go:496-518 | a deletion asked of the source comes after the target has the shards |
| ShardSafety.ConfirmProposal | src/shardkv/server.go:510-518 | a confirmation at the target comes after the source has let go |
| ShardSafety.ConfigProposal | src/shardkv/server.go:442-464 | a configuration proposed from a state in which all shards were Serving is sound whenever it is applied |
| ShardEntries.InsertAllOrNothing | src/shardkv/server.go:276-289 | the early break never splits a batch |
| ShardEntries.EffectIsNew | src/shardkv/server.go:231-244 | a write that takes effect has never taken effect before, at any group |
| ShardSteps.ServerHolds | src/shardkv/server.go:423-425 | a group that can serve a shard is the one that holds its token |
| ShardSteps.FrozenHolds | src/shardkv/server.go:347-353 | a group with a frozen shard still holds its token |
| ShardServer.StoredShard.constructor | src/shardkv/shard.go:10-15 | a new shard is empty and Serving |
| ShardServer.StoredShard.Get | src/shardkv/shard.go:17-22 | the value of the key, or ErrNoKey and the empty string |
| ShardServer.StoredShard.Put | src/shardkv/shard.go:24-27 | the key has the value; nothing else changes |
| ShardServer.StoredShard.Append | src/shardkv/shard.go:29-32 | the value is appended to what the key had, or to nothing; nothing else changes |
| ShardServer.StoredShard.DeepCopy | src/shardkv/shard.go:36-42 | the copy equals the contents |
| ShardServer.StoredShard.PutAll | src/shardkv/server.go:280-282 | every pulled pair overlays the contents |
| ShardServer.ShardKV.constructor | src/shardkv/server.go:407-413 | a new server is the fresh group |
| ShardServer.ShardKV.CanServeHere | src/shardkv/server.go:423-425 | the shard is owned and Serving or GCing |
| ShardServer.ShardKV.ApplyOperation | src/shardkv/server.go:222-248 | the group becomes what the specification says and the reply is the specified one: wrong group, duplicate, or executed |
| ShardServer.ShardKV.ApplyToShard | src/shardkv/server.go:358-369 | the shard executes the operation and answers it; an append adds to the value there was |
| ShardServer.ShardKV.ApplyConfiguration | src/shardkv/server.go:251-268 | the next configuration takes effect with its new statuses, any other is refused |
| ShardServer.ShardKV.UpdateShardStatus | src/shardkv/server.go:333-355 | statuses change to Pulling and BePulling exactly where ownership changes between two groups |
| ShardServer.ShardKV.ApplyInsertShards | src/shardkv/server.go:271-301 | the group becomes the insertion of some set of shards that the loop may reach |
| ShardServer.ShardKV.InsertShards | src/shardkv/server.go:276-289 | the loop over the map in any order inserts a set it may reach and stops at the first shard that is not Pulling |
| ShardServer.ShardKV.InsertOne | src/shardkv/server.go:277-288 | a Pulling shard takes the data and becomes GCing; any other is left alone |
| ShardServer.ShardKV.MergeOperations | src/shardkv/server.go:291-295 | the table keeps the later entry of each client |
| ShardServer.ShardKV.ApplyDeleteShards | src/shardkv/server.go:304-325 | the group becomes the specified deletion |
| ShardServer.ShardKV.DeleteShards | src/shardkv/server.go:308-319 | the loop deletes in order up to the first shard that is neither GCing nor BePulling |
| ShardServer.ShardKV.DeleteOne | src/shardkv/server.go:310-318 | GCing becomes Serving, BePulling is emptied, others stop the loop |
| ShardServer.ShardKV.GetShardsData | src/shardkv/server.go:90-121 | not ready below the requested configuration, else exactly the asked shards and the whole table |
| ShardServer.ShardKV.CanPerformNextConfig | src/shardkv/server.go:442-454 | true exactly when all shards are Serving |
| ShardServer.ShardKV.GetShardIDsByStatus | src/shardkv/server.go:543-560 | for each last owner other than 0, exactly its shards with that status, each once |
| Checker.CheckSingle | src/porcupine/checker.go:179-253 | the search ends and answers true exactly when some order of all operations respects real time and is accepted by the model; the partial results are legal orders that contain their operation and, with computePartial or on success, none longer exists |
| KvModel.CheckOperations | src/porcupine/checker.go:365-373 | splitting by key and checking each part answers Ok exactly when some order of all operations respects real time and explains every answer, each read by the last put on its key before it and the appends since; equally, when every key has such an order of its own; Illegal otherwise; only the empty history gets no answer |
| KvModel.StepMeans | src/models/kv.go:34-57 | from the value that some operations on a key have written, the step accepts a read exactly when it was answered with that value, and leads to the value written with one more operation |
| KvModel.KeyMeans | src/models/kv.go:34-57 | one key is linearizable exactly when some order of its operations respects real time and explains every answer by the last put before it and the appends since |
| KvModel.MapMeans | src/models/kv.go:34-57 | a whole history is linearizable exactly when some order of all its operations does |
| KvModel.KeyRunsMean | src/models/kv.go:34-57 | operations on one key can run in an order exactly when every answer is explained |
| KvModel.MapRunsMean | src/models/kv.go:34-57 | operations on any keys can run in an order exactly when every answer is explained, and leave each key with what was written to it |
| Linearizability.LegalIsSeen | src/porcupine/checker.go:195-208 | if everything cached has been explored, every legal order ends in something cached, with an equal state: pruning loses no solution |
| Linearizability.LegalExtends | src/porcupine/checker.go:194-205 | adding an operation that nothing left precedes and whose output is possible keeps an order legal |
| Linearizability.LegalShrinks | src/porcupine/checker.go:236-243 | taking the last operation back leaves a legal order after which it was possible |
| Search.PushKeeps | src/porcupine/checker.go:201-208 | linearizing an operation keeps the invariant of the search |
| Search.SkipKeeps | src/porcupine/checker.go:209-214 | passing over a call that is impossible or cached keeps it |
| Search.PopKeeps | src/porcupine/checker.go:236-243 | backtracking keeps it |
| Search.DeadEnd | src/porcupine/checker.go:215-218 | when the first return of what is left is reached, every way on has been tried |
| Search.GiveUp | src/porcupine/checker.go:216-218 | giving up means that no linearization exists |
| Longest.RecordPop | src/porcupine/checker.go:219-235 | remembering the stack before backtracking accounts for every set that has been left |
| Longest.GaveUpMaximal | src/porcupine/checker.go:185-186 | when the search gives up, what is remembered for an operation is as long as any legal order that contains it |
| Effort.PushLess | src/porcupine/checker.go:190-244 | a push leaves strictly less to visit |
| Effort.SkipLess | src/porcupine/checker.go:190-244 | a skip leaves strictly less to visit |
| Effort.PopLess | src/porcupine/checker.go:190-244 | a backtrack leaves strictly less to visit, so the loop ends |
| LinkedHistory.InsertBefore | src/porcupine/checker.go:70-81 | the list has the node before the mark; without a mark the node is the list |
| LinkedHistory.Length | src/porcupine/checker.go:83-90 | the number of nodes |
| LinkedHistory.MakeLinkedEntries | src/porcupine/checker.go:121-138 | one fresh node per entry in order, calls pointing to their returns, doubly linked |
| LinkedHistory.Lift | src/porcupine/checker.go:159-167 | a call and its return leave the list, and keep pointing to where they were |
| LinkedHistory.Unlift | src/porcupine/checker.go:169-177 | the exact inverse of Lift, from the kept pointers alone |
| SearchHeap.LiftSpot | src/porcupine/checker.go:206-208 | lifting leaves every earlier lifted pair able to be put back |
| SearchHeap.UnliftSpot | src/porcupine/checker.go:240-243 | putting back restores the list of one level below and leaves the rest able to be put back |
| SearchList.CallIsReady | src/porcupine/checker.go:194-197 | a call reached before any return may be linearized next, and its return is further on |
| SearchSpot.PushSpot | src/porcupine/checker.go:201-208 | a push takes list, finger and stack to a sound spot |
| SearchSpot.SkipSpot | src/porcupine/checker.go:209-214 | a skip takes list, finger and stack to a sound spot |
| SearchSpot.PopSpot | src/porcupine/checker.go:236-243 | a backtrack takes list, finger and stack to a sound spot |
| SearchSpot.AllLifted | src/porcupine/checker.go:245-249 | when only the head is left, the stack holds every operation |
| Checker.CacheContains | src/porcupine/checker.go:145-152 | true exactly when the same set of operations was seen with an equal state |
| Checker.CacheGrows | src/porcupine/checker.go:202-203 | appending under the hash keeps the cache equal to what has been seen |
| Checker.CallIds | src/porcupine/checker.go:226-229 | the ids on the stack in order |
| Checker.Remember | src/porcupine/checker.go:219-235 | exactly the operations on the stack whose remembered order is missing or shorter get the stack |
| Checker.Push | src/porcupine/checker.go:198-208 | the variables follow the push, and less is left to do |
| Checker.Backtrack | src/porcupine/checker.go:219-243 | the variables follow the backtrack, and less is left to do |
| Checker.TryCall | src/porcupine/checker.go:194-214 | a call is linearized if that is possible and new, else passed over; the invariant is kept and less is left to do |
| Checker.Turn | src/porcupine/checker.go:190-243 | one turn of the search keeps its invariant and lowers the measure, or it is stuck and the history is refuted with maximal partial results |
| Checker.Prepare | src/porcupine/checker.go:180-189 | the list with a head stands for the history |
| Checker.Refuted | src/porcupine/checker.go:216-218 | an empty stack at a return refutes linearizability, with maximal partial results |
| Checker.Confirmed | src/porcupine/checker.go:245-253 | an empty list confirms it, with the whole order for every operation |
| Bitset.Fresh | src/porcupine/bitset.go:10-17 | one word per started 64 bits |
| Bitset.FreshIsEmpty | src/porcupine/bitset.go:10-17 | a new bitset is the empty set and has room for its bits |
| Bitset.MembersOf | src/porcupine/bitset.go:29-39 | set adds and clear removes exactly that number |
| Bitset.SameMembers | src/porcupine/bitset.go:62-73 | equal length and equal sets make equal words |
| Bitset.CountsMembers | src/porcupine/bitset.go:46-52 | the bits set are as many as the members |
| Bitset.Popcnt | src/porcupine/bitset.go:46-52 | the number of members |
| Bitset.Hash | src/porcupine/bitset.go:54-60 | the loop computes the hash that buckets are keyed by |
| Bitset.Equals | src/porcupine/bitset.go:62-73 | true exactly for the same length and the same set |
| Histories.SortByTime | src/porcupine/checker.go:39-46 | a sorted rearrangement, calls before returns at one time |
| Histories.SortedPairs | src/porcupine/checker.go:48-60 | in any such sorting every call precedes its return, and a return precedes a call exactly when its time is smaller |
| Histories.MakeEntries | src/porcupine/checker.go:48-60 | the sorted entries of a history, each operation called and returning once |
| Histories.EntriesKeepMeaning | src/porcupine/checker.go:48-60 | the entries are linearizable exactly when the operations with their times are |
| Locality.Local | src/porcupine/model.go:28-32 | a history over many keys is linearizable against the whole map exactly when the operations on each key are by themselves |
| Locality.ProjState | src/models/kv.go:39-57 | the value of a key after any order depends on the operations on that key alone |
| Locality.ProjLegal | src/porcupine/model.go:28-32 | a linearization of the whole gives one of each key |
| Locality.HeadIsReady | src/porcupine/model.go:28-32 | the head of the order of that key to which the operation returning first belongs may come next |
| Locality.Merge | src/porcupine/model.go:28-32 | orders of the keys merge into one of the whole |
| Relabel.PartIsKey | src/models/kv.go:18-33 | a part numbered by itself is linearizable exactly when its key is within the whole history |
| KvModel.KvModel | src/models/kv.go:34-57 | equality of strings is a congruence for the step; KvModel.StepMeans says what the step means |
| KvModel.GroupByKey | src/models/kv.go:19-23 | each key that occurs has its operations in order |
| KvModel.SortKeys | src/models/kv.go:24-28 | the keys in order, each once, however the map is walked |
| KvModel.Partition | src/models/kv.go:18-33 | one part per key that occurs, in the order of the keys, each the operations on the key in order |
| KvModel.PartMeans | src/models/kv.go:18-33 | a part is linearizable exactly when its key is |
| KvModel.CheckPart | src/porcupine/checker.go:365-373 | one part is answered exactly |
| Rebalance.Settle | src/shardctrler/configStateMachine.go:43-51 | the loop of Join ends, and every shard is in exactly one list, once |
| Rebalance.SettledIsEven | src/shardctrler/configStateMachine.go:46-48 | when it ends no shard is without a group and loads differ by at most one |
| Rebalance.SettleEnds | src/shardctrler/configStateMachine.go:43-51 | each move lowers the unassigned shards, else the greatest load, else the number of groups that have it |
| Rebalance.SettleKeys | src/shardctrler/configStateMachine.go:148-164 | the groups with lists take part, and the invented group -1 exactly when there is none |
| Rebalance.SettleKeepsOwners | src/shardctrler/configStateMachine.go:43-51 | a group that has a shard keeps one |
| Rebalance.SettleMovesLittle | src/shardctrler/configStateMachine.go:43-51 | from even old groups, only unassigned shards move or shards that go to a new group |
| Rebalance.MovedOnce | src/shardctrler/configStateMachine.go:43-51 | whatever the lists, no shard moves twice: a group that took a shard never again has two more than another |
| Rebalance.MovedFromOld | src/shardctrler/configStateMachine.go:43-51 | from even old groups, a shard that moves had no group or was with an old one |
| Rebalance.ChoicesUnique | src/shardctrler/configStateMachine.go:147-186 | minimum and maximum group are fixed by the lists, however the map is walked |
| Rebalance.DropPartial | src/shardctrler/configStateMachine.go:77-87 | the groups that leave give up exactly their shards, each once |
| Rebalance.AdoptKeeps | src/shardctrler/configStateMachine.go:90-97 | orphans get a group that was there, other shards stay, even lists stay even |
| ShardController.JoinBalances | src/shardctrler/configStateMachine.go:26-63 | after any Join the groups are balanced and no shard is without a group, whatever was before |
| ShardController.JoinPlaces | src/shardctrler/configStateMachine.go:42-60 | after a Join every shard is with a group of the configuration exactly when there is a group other than 0 among the old and the joining ones and no shard was with a group outside them |
| ShardController.JoinOfNothing | src/shardctrler/configStateMachine.go:147-164 | a Join of no groups from the start sends every shard to the group -1, which nobody named |
| ShardController.JoinMovesLittle | src/shardctrler/configStateMachine.go:43-51 | from a balanced configuration a shard that had a group moves only to a group that joined |
| ShardController.JoinMovesOnce | src/shardctrler/configStateMachine.go:43-51 | from any configuration whatsoever, no shard moves twice during a Join |
| ShardController.JoinTakesLowest | src/shardctrler/configStateMachine.go:43-51 | a group that gives shards away in a Join gives its lowest ones |
| ShardController.BeginsEmpty | src/shardctrler/configStateMachine.go:19-23 | in every run there is no group at first and no shard is with one |
| ShardController.JoinAddsGroups | src/shardctrler/configStateMachine.go:26-63 | in every run a Join adds exactly the groups it names, and a group that is there keeps its servers |
| ShardController.LeaveTakesGroups | src/shardctrler/configStateMachine.go:66-108 | in every run a Leave takes exactly the groups it names; if any is left the shards of the others stay, else every shard is unassigned |
| ShardController.MoveMovesOne | src/shardctrler/configStateMachine.go:124-136 | in every run a Move puts that shard with that group and changes nothing else |
| ShardController.LeaveMovesOnlyOrphans | src/shardctrler/configStateMachine.go:74-105 | a Leave moves exactly the shards of the groups that leave; if none stays all shards are unassigned |
| ShardController.LeaveKeepsBalance | src/shardctrler/configStateMachine.go:90-104 | a Leave keeps a balanced configuration balanced and placed |
| ShardController.History | src/shardctrler/configStateMachine.go:19-23 | after any commands configuration i has number i |
| ShardController.HistoryGrows | src/shardctrler/configStateMachine.go:61-61 | the configurations after the first k commands are the first k + 1 of those after all; that the in-place updates of Join and Leave respect this is in their contracts in ConfigMachine |
| ShardController.AlwaysPlaced | src/shardctrler/configStateMachine.go:26-136 | in every run of proper commands every shard is with a group as long as there is one, and without Moves the load is always even |
| ControllerPlan.HandedBack | src/shardctrler/configStateMachine.go:89-105 | in a run of proper commands a shard goes back to nobody exactly by a Leave of all groups there are |
| ControllerPlan.PlanFits | src/shardkv/server.go:455-463 | what the controller hands out in a run of proper commands is a sequence of configurations on which the theorems of the sharded store hold, if and only if no Leave takes the last group |
| ConfigMachine.GetGIDWithMinimumShards | src/shardctrler/configStateMachine.go:148-164 | the smallest group other than 0 among those with the fewest shards, or -1; a list longer than there are shards is passed over |
| ConfigMachine.GetGIDWithMaximumShards | src/shardctrler/configStateMachine.go:167-186 | 0 while it has shards, else the smallest group among those with the most |
| ConfigMachine.Group2Shards | src/shardctrler/configStateMachine.go:112-121 | for every group, listed or owning, its shards in ascending order |
| ConfigMachine.DeepCopy | src/shardctrler/configStateMachine.go:189-197 | a new map object with the same contents |
| ConfigMachine.AddGroups | src/shardctrler/configStateMachine.go:34-41 | in place: groups that are there keep their servers, others are added |
| ConfigMachine.Level | src/shardctrler/configStateMachine.go:43-51 | the loop computes the settled lists |
| ConfigMachine.Assign | src/shardctrler/configStateMachine.go:54-59 | writing the lists into the array in any order gives the assignment |
| ConfigMachine.RemoveGroups | src/shardctrler/configStateMachine.go:77-81 | in place: exactly the groups that do not leave stay |
| ConfigMachine.TakeOut | src/shardctrler/configStateMachine.go:77-87 | the lists that stay, and the orphans in order |
| ConfigMachine.GiveAway | src/shardctrler/configStateMachine.go:90-97 | every orphan in turn goes to the group with the fewest shards |
| ConfigMachine.MakeJoined | src/shardctrler/configStateMachine.go:29-60 | the shards and a fresh map of groups of the configuration after the Join |
| ConfigMachine.MakeLeft | src/shardctrler/configStateMachine.go:69-105 | the shards and a fresh map of groups of the configuration after the Leave |
| ConfigMachine.MemoryConfigStateMachine.constructor | src/shardctrler/configStateMachine.go:19-23 | the history is the default configuration |
| ConfigMachine.MemoryConfigStateMachine.Append | src/shardctrler/configStateMachine.go:61-61 | one configuration is added, and what the others say stays |
| ConfigMachine.MemoryConfigStateMachine.Join | src/shardctrler/configStateMachine.go:26-63 | the history grows by the specified configuration, whatever order maps are walked in: the groups named are added and those there were keep their servers; no object that an earlier configuration holds is changed |
| ConfigMachine.MemoryConfigStateMachine.Leave | src/shardctrler/configStateMachine.go:66-108 | the history grows by the specified configuration, whatever order maps are walked in: exactly the groups named are taken away; no object that an earlier configuration holds is changed |
| ConfigMachine.MemoryConfigStateMachine.Move | src/shardctrler/configStateMachine.go:124-136 | the history grows by a configuration in which that shard is with that group, every other shard is where it was and the groups are the same; no object that an earlier configuration holds is changed |
| ConfigMachine.MemoryConfigStateMachine.Query | src/shardctrler/configStateMachine.go:139-145 | the configuration of that number, or the latest for any number out of range |
| ConfigMachine.MemoryConfigStateMachine.Execute | src/shardctrler/server.go:123-136 | one command of the log adds the configuration that the command makes of the last |
| ConfigMachine.Run | src/shardctrler/server.go:123-136 | any sequence of commands, from a new machine, ends with exactly the specified history, whatever order the maps are walked in on the way: equal commands give equal configurations |
| KvRaft.ReplayIsRun | src/kvraft/server.go:277-303 | applying a log is executing some of its entries, each once, in order, with the results of those executions in the table |
| KvRaft.TableIsGreatest | src/kvraft/server.go:283-303 | the table holds for each client the greatest number among its requests |
| KvRaft.NewMeans | src/kvraft/server.go:282-294 | a request is executed exactly when every earlier one of its client has a smaller number |
| KvRaft.ExactlyFirsts | src/kvraft/server.go:282-303 | exactly the first occurrences are executed if and only if no request enters the log for the first time behind a later one of its client |
| KvRaft.InOrderRunsFirsts | src/kvraft/server.go:282-303 | then applying the log gives what executing each request once, where it first stands, gives |
| KvRaft.LateRequestIsLost | src/kvraft/server.go:287-290 | two requests of one client in the wrong order: the late one is never executed |
| KvRaft.OneAtATimeIsInOrder | src/kvraft/client.go:91-124 | clients that send the next request only after the answer get every request executed exactly once, where it first stands, and the data are those of that execution |
| KvServer.SnapshotsAreInvisible | src/kvraft/server.go:264-341 | whatever entries and snapshots of a log arrive, late or twice but without a gap, at a server that may have started from a snapshot without counting its entries, the server is where a full replay of a known part of the log would be |
| KvServer.ServerMeans | src/kvraft/server.go:264-341 | a server that holds a part of the log has exactly the keys written by the requests executed in it, each with its last Put and all that was appended after it |
| KvSystem.ServersMean | src/kvraft/server.go:264-341 | the same of every server of the cluster at every moment of every history, crashes and restarts included |
| KvRaft.RunMeans | src/kvraft/server.go:132-165 | executing operations one after another leaves exactly the keys written, each with its last Put and all that was appended after it |
| KvRaft.SavedMeans | src/kvraft/server.go:132-165 | the result saved for a client is the answer to its last operation: for a Get the value at that point, or KeyNotExist exactly when no write before it named the key |
| KvRaft.ReplayMeans | src/kvraft/server.go:267-303 | the same of a log with repeated requests, over the requests of it that are executed |
| KvRaft.SavedAnswer | src/kvraft/server.go:267-303 | a request with a number above all earlier ones of its client is executed, and the result saved for it is the answer after the writes executed before it |
| KvServer.DeliverKeeps | src/kvraft/server.go:272-337 | one message keeps that; the server has less afterwards exactly when a snapshot comes that is between what it has counted and what it has |
| KvServer.OldEntryIsKnown | src/kvraft/server.go:283-303 | an entry that a snapshot covers already changes nothing |
| KvServer.CatchesUp | src/kvraft/server.go:264-303 | from any part of the log, with any overlap, the entries up to n lead to the replay of the first n |
| KvServer.RestoreThenReplay | src/kvraft/server.go:399-402 | starting from a snapshot and applying the rest of the log, from any entry the snapshot covers on, is a full replay |
| KvServer.ReplayMore | src/kvraft/server.go:279-303 | replaying more of a log loses no result, and taking the last part away loses one exactly when an entry of it was executed |
| KvServer.OldSnapshotTakesBack | src/kvraft/server.go:334-337 | a snapshot makes the server lose results exactly when its index is not below lastApplied and something the server has was executed behind it |
| KvServer.RestartedServerGoesBack | src/kvraft/server.go:331-338 | a server started from a snapshot of two entries and then given one of the first entry forgets the second |
| KvServer.KVServer.constructor | src/kvraft/server.go:380-407 | a server starts with the stored snapshot, or empty, and counts from 0 |
| KvServer.KVServer.DBExecute | src/kvraft/server.go:132-165 | the database and the result are the specified ones; no other key changes, and an append adds to the value there was |
| KvServer.KVServer.ApplyCommand | src/kvraft/server.go:267-303 | the server becomes what the specification says; the result is that of the latest request, or none for an older one |
| KvServer.KVServer.GenSnapShot | src/kvraft/server.go:344-354 | whatever part of a log the server has, a server started from the snapshot has that part, and with the rest of the log it reaches the full replay |
| KvServer.KVServer.LoadSnapShot | src/kvraft/server.go:357-377 | a snapshot that is not empty replaces database and table |
| KvServer.KVServer.ApplyHandler | src/kvraft/server.go:264-341 | the loop delivers all messages in turn |
| KvServer.Restart | src/kvraft/server.go:324-329 | a server that is started again from the snapshot of another goes on where that one was |
| KvCluster.LifeHolds | src/kvraft/server.go:264-341 | a server fed without gaps from a Raft run, through any snapshots and restarts, is where a replay of the entries it has would be |
| KvCluster.ServersAgree | src/kvraft/server.go:264-341 | any two servers fed without gaps from one Raft run agree on the entries both have, and with equally many they hold the same data and the same saved results |
| KvCluster.HandedOnce | src/raft/raft.go:304-349 | all peers hand up the same request for an index |
| KvSystem.ServersAlwaysAgree | src/kvraft/server.go:264-407 | any two servers of a cluster, at any two moments of any history of crashes, restarts and snapshots: one has the first entries of the other and is where a replay of them would be, and with equally many both hold the same data and saved results |
| KvSystem.HistoryOk | src/kvraft/server.go:264-407 | in every reachable state what a server took from its peer, and what is on its way, came without a gap and was handed up in the run |
| KvSystem.StepKeeps | src/raft/raft.go:304-359 | every step of Raft keeps that, among them handing up, cutting the log off at a snapshot, and restart |
| KvSystem.TakeKeeps | src/kvraft/server.go:266-303 | taking the next message keeps that |
| KvSystem.BatchFollows | src/raft/raft.go:311-332 | what a peer hands up goes on where the messages on their way end, or overlaps them |
| MapReduce.Distributed | src/mr/worker.go:150-223 | for every hash, every number of reduce tasks above 0 and every order-insensitive reduce function, all reduce tasks together print the lines of the sequential program, as a multiset |
| MapReduce.SlotsMakeTheWhole | src/mr/worker.go:153-157 | reducing slot by slot gives the lines of reducing everything in one place, each once |
| MapReduce.SlotVals | src/mr/worker.go:154-157 | a key is found with all its values in the slot of its hash and in no other |
| MapReduce.Gathered | src/mr/worker.go:177-196 | the r-th files of all map tasks together are the r-th slot of everything |
| MapReduce.DoMap | src/mr/worker.go:153-157 | each slot holds the pairs of its hash in order |
| MapReduce.DoReduce | src/mr/worker.go:175-223 | one line per key of the files read, with what reduce makes of all its values |
| MapReduce.SortByKey | src/mr/worker.go:199-201 | a sorted permutation |
| MapReduce.GroupAndReduce | src/mr/worker.go:210-223 | one line per key, with what reduce makes of all its values |
| MapReduce.ReducedPermuted | src/mr/worker.go:199-201 | sorting first makes no difference for an order-insensitive reduce function |
| MapReduce.ReduceAll | src/main/mrsequential.go:62-87 | one line per key, with what reduce makes of all its values |
| MapReduce.Sequential | src/main/mrsequential.go:41-87 | the sequential program prints one line per key of all map outputs |

## Left out

- Raft InstallSnapshot, handleInstallSnapshot and CondInstallSnapshot: a snapshot that arrives from
  a leader wipes the log with slot 0 taking the old term, so the log invariants do not hold through
  it; compaction is modelled as each server's own Snapshot call.
- Timers, randomness and counting of pre-votes: a timeout and a passed pre-vote are steps that may
  happen at any time. That a command must be handed up or a migration completed under some fairness
  is not stated, only that each can be.
- Each call to RequestVote returns at most once per candidate, term and voter, as the network
  library delivers replies; requests and append replies may be repeated.
- Waiting channels and the routing of replies to callers, in the key/value and the sharded server:
  a reply is taken to belong to its own log entry.
- Shards handed back to group 0 after being owned: the sharded store is proved for configurations
  that never do this, and `ControllerPlan.PlanFits` says when the controller never does.
- Server lists of groups, remote calls to every server of a group, and snapshots of the sharded
  server: a group is one sequential log.
- Slices shared between messages and logs, and the in-place update of cached bitsets: messages,
  lists and bitsets are values, so aliasing is not captured. The nodes of the linked list, the
  stored shards and the groups of a configuration are objects and are updated in place.
- ConfigMachine.DeepCopy: the server list of a group is a value, so that the copied lists are separate
  from the old ones is not stated; nothing in the source changes such a list.
- ShardServer.StoredShard.DeepCopy: the copy is a value, so that later writes to the shard do not reach
  it holds by construction.
- 64-bit wrap-around of sequence numbers, command numbers, times and terms: numbers are unbounded.
- Words of a bitset are modelled as their 64 bits rather than as machine words.
- KvModel.CheckOperations: goroutines, timeouts and kill are not modelled, the verdicts of the parts
  are combined in turn; on an empty history, where no part sends a result, Unknown stands for the end
  of the time allowed, and for waiting for ever when none is set.
- Histories.SortedPairs: a history in which an operation returns before it is called is excluded, since
  the tests take both times from one clock in that order.
- Histories.MakeEntries: the same histories are excluded.
- Histories.EntriesKeepMeaning: the same histories are excluded.
- checkEvents, renumber and convertEntries of the checker, and its HTML visualization: the same
  search behind another front end.
- MapReduce.Distributed: the hash is any function rather than FNV-1a, files are sequences, and the
  coordinator with its channels, timeouts and repeated tasks is not modelled.
- The single-server key/value store of the second lab, which would repeat the duplicate suppression
  with easier members.
- labrpc, labgob, reflection, logging, the tests and their configuration, the application plugins
  and the main programs.
