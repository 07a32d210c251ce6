# Verified model of a replicated, sharded key/value store

Dafny models of six parts of this repository, and proofs about them:

- **Raft** (`Raft*.dfy`). Each lock-protected handler is a function on a server value (`RaftServer`);
  a cluster is servers plus a network that loses, delays, reorders and repeats messages
  (`RaftCluster`), and a run is any sequence of actions. An invariant over a recorded history
  (`RaftInvariant`) is kept by every action (`RaftSteps`, `RaftVoting`, `RaftReplication`,
  `RaftHandlers`, `RaftAppends`), and gives the theorems in `RaftSafety`. `RaftResponses` says what a server
  answers, and that refused leaders get through. `RaftNode` is the server as the code has it, with a
  compacted, index-shifted log and loops, proved equal to the functions on the whole log. `RaftRuns` puts runs together, and `RaftLateElections`, `RaftStaleReply` and `RaftHazards` show
  what three unguarded steps of the code do and do not do.
- **Porcupine** (`Bitset`, `EntryList`, `LiveEntries`, `Checker`, `CheckSingle`, with `Linearizability`,
  `Search`, `Operations`, `Locality`, `KvModel`). The checker with its doubly linked list on the heap,
  bit set, hash table and backtracking loop is sound, complete and terminating, from recorded
  operations to the answer for a whole key/value store.
- **Shard hand-over** (`ShardServer`, `ShardProtocol`, `ShardProgress`, `ShardRequests`, `ShardInvariant`,
  `ShardSafety`, `ShardCompletion`, `ShardCounterexample`, `ShardNode`). Groups move through the
  configurations, each as one committed log; replicas act on old states; what they propose may commit late, often or never.
- **Shard controller** (`Totals`, `Rebalance`, `ShardAssign`, `RebalanceMinimal`, `Controller`,
  `ConfigHistory`, `ConfigGroups`, `ControllerNode`). The greedy rebalancing is even and minimal. For every
  sequence of requests the history is numbered and never changes; it is balanced for joins and leaves, and with Moves
  exactly as far as those go to live groups.
- **Replicated key/value server** (`KvServer`, `KvReplicas`, `KvAgreement`, `RaftService`). What a log means,
  which writes take effect, servers that exchange snapshots and restart, and agreement with the sequential
  model Porcupine uses. `RaftService` puts the servers on top of the Raft cluster.
- **MapReduce** (`MapReduce`). Bucketing, sorting and grouping give the sequential result.

`dafny verify dfyconfig.toml` checks everything.

## Where the code does not keep its promise

Three steps of Raft lack a guard. `RaftCluster.Leeway` says how far each may go; the theorems of `RaftSafety`
are for runs without leeway, and `RaftHazards.LeewayExactly` shows that only those keep to one leader in each
term and to leaders that hold what was committed.

- *Starting an election* (`src/raft/raft.go:1343-1351`): the role is read, the lock released, and the term
  raised without looking again, so a leader may do it. Two servers then can lead one term if and only if
  there are three or more (`RaftLateElections.LateElectionsExactly`). `RaftHazards.CampaignExactly` shows that
  the invariant, which is stronger, survives exactly when the server is not leader at that moment.
- *Snapshot* (`src/raft/raft.go:345-349`): the saved state is overwritten with nothing, so a restart loses
  term, vote and log. `RaftHazards.ForgottenVote` is a run in which that gives two leaders of one term.
  `RaftHazards.RestartExactly` shows that a restart keeps the invariant exactly when there is an image.
- *Counting heartbeat replies* (`src/raft/raft.go:966-1005`): term and role are looked at before waiting for a
  reply and not again after. That does no harm as long as a leader counts what an earlier leadership was told
  only up to its last entry of an earlier term, which it could test; one index more and committed entries
  can be lost (`RaftHazards.StaleExactly`, with the run `RaftStaleReply.StaleReplyLosesCommit`).
- *Leave* (`src/shardkv/server_shard_transfer.go:73`): the operation is stamped with the receiver's
  configuration number instead of the sender's. The theorems of `ShardSafety` assume that a receiver has not
  gone past the sender's configuration when it handles a Leave, which it could test as
  `currConfig.Num <= args.ConfigVersion`. A test that lets it be later would not do:
  `ShardCounterexample.LateLeave` is a run in which a Leave handled one configuration late makes two groups
  serve a shard and loses a write, and `ShardCounterexample.ToleranceExactly` says that 0 is the only safe
  tolerance for all configurations. `ShardInvariant.RemovalSafeExactly` says exactly which committed
  LEAVE_SHARDs do no harm.
- *Move* (`src/shardctrler/server.go:347-355`): the target is not looked at. Every shard has a live group in
  every configuration exactly when every Move that takes effect goes to one
  (`ConfigHistory.HistoryOwnedExactly`).
- *Checking an empty history* (`src/porcupine/checker.go:293-310`): with no parts the collecting loop waits
  for a result that never comes. `KvModel.CheckOperations` answers `NoAnswer` exactly then.

## Assumptions

- Each lock-protected handler, the commit scan and the apply step are atomic, and so is sending a heartbeat
  together with the look at term and role before it, which the code does under different locks
  (`src/raft/raft.go:946-957`).
- A restart finds a readable image, an election is not started by a leader, and a leader counts heartbeat
  replies to an earlier leadership only within its entries of earlier terms; see above.
- In `KvReplicas` a command reaches a server only after all before it, by themselves or in a snapshot; old ones
  may come again. `RaftService.ServicesInStep` shows that the Raft model keeps to that; snapshots from other
  servers are only in `KvReplicas`.
- Operations given to Porcupine return no earlier than they are called, a step function is deterministic
  (`src/porcupine/model.go:36-39`), and states are compared by equality, which is the default.
- The answer to a Leave is not relied on: a transfer may be confirmed at any time after the Leave was sent.
- Integers are unbounded; 64-bit words are sequences of 64 bits; maps are values, so the sharing of a pulled
  map with the log entry (`src/shardkv/server.go:376`) is not modelled.
- Where a comment and the code disagree the model follows the code: ErrConfigVersion is said to be for a
  receiver that is behind (`src/shardkv/common.go:17`), but Pull also answers with it when the receiver is
  ahead (`src/shardkv/server_shard_transfer.go:41-46`).

## Model

| member | source | states |
|---|---|---|
| `RaftSafety.StateMachineSafety` | src/raft/raft.go:1363-1412 | In every run, any two commands handed to the service for the same index, by any servers at any times, are equal |
| `RaftSafety.CommittedEntriesAgree` | src/raft/raft.go:1030-1059 | What any two servers have committed at the same index, at any two moments of a run, is the same entry |
| `RaftSafety.LeadersHoldCommitted` | src/raft/raft.go:463-488 | Leader Completeness: an entry committed by any server at an earlier moment is in the log of every leader of that term or a later one |
| `RaftSafety.LogMatching` | src/raft/raft.go:551-592 | Two logs with the same term at an index are identical up to it, in every reachable state |
| `RaftSafety.ElectionSafety` | src/raft/raft.go:1239-1305 | Two leaders of one term, at any two moments of a run with crashes and restarts, are the same server |
| `RaftSafety.AppendCommitsWhatItCarries` | src/raft/raft.go:593-602 | Every AppendEntries on the network, first or retried, has LeaderCommit within the entries it speaks about; a follower that accepts it holds them and commits nothing beyond them or its old commit index |
| `RaftSafety.NeverFatal` | src/raft/raft.go:241-279 | Every action that may happen in a reachable state stays within the stored log and reaches no fatal guard |
| `RaftSafety.DiskIsCurrent` | src/raft/raft.go:176-194 | Between actions a readable image on disk is the current term, vote, snapshot index and log |
| `RaftSafety.RunInvariant` | src/raft/raft.go:1340-1361 | The invariant holds after every run, for the history recorded along it |
| `RaftHazards.CampaignExactly` | src/raft/raft.go:1297-1305 | Starting an election keeps the invariant if and only if the server is not leader at that moment |
| `RaftHazards.LeewayExactly` | src/raft/raft.go:1340-1361 | In every run with the given leeway no term has two leaders and every leader holds what was committed, if and only if there is no leeway: no late election, no lost image, no stale heartbeat reply beyond the entries of earlier terms |
| `RaftHazards.StaleExactly` | src/raft/raft.go:966-1005 | Leaders hold what was committed, in every run in which a serving leader counts heartbeat replies to earlier leaderships at most d indices past its last entry of an earlier term, if and only if d is 0 |
| `RaftLateElections.LateElectionsExactly` | src/raft/raft.go:1343-1351 | If a leader may start an election, every run of n servers has at most one leader in each term if and only if n is at most 2 |
| `RaftLateElections.TwoLeaders` | src/raft/raft.go:1343-1351 | For every n from 3 on, a run of n servers in which a leader starts an election and two servers lead the same term |
| `RaftLateElections.PairStaysOk` | src/raft/raft.go:1239-1305 | With two servers, late elections or not, they never lead at the same time, and a leader has given no vote that could still elect the other |
| `RaftHazards.RestartExactly` | src/raft/raft.go:199-202 | A restart keeps the invariant if and only if there is an image to restart from |
| `RaftHazards.AllTookPart` | src/raft/raft.go:345-349 | In every run a server without a readable image has agreed with some leader on entries, so the equivalence applies to it |
| `RaftHazards.ForgottenVote` | src/raft/raft.go:345-349 | A concrete run in which a server restarts after Snapshot, votes again in the same term, and two servers lead that term while a committed entry is in only one log |
| `RaftStaleReply.StaleReplyLosesCommit` | src/raft/raft.go:966-1005 | A concrete run of five servers in which a reply to an earlier leadership is counted, an entry held by two servers is committed, and a later leader is without it |
| `RaftRuns.Delivers` | src/raft/raft.go:1399-1404 | A concrete run that elects a leader, replicates, commits and hands over a command |
| `RaftResponses.TermsAreSeen` | src/raft/raft.go:452-530 | After any message it looks at, a server is in the higher of the two terms, as a follower with the new term saved if it was higher, and its reply carries that term |
| `RaftResponses.HearersFollow` | src/raft/raft.go:515-530 | In every run, whoever handles a request of its own or a later term is a follower of that term afterwards |
| `RaftResponses.VoteExactly` | src/raft/raft.go:449-491 | A vote is granted if and only if the server is in no later term, has not voted for another in that term, and its log does not end in a later term or, in the same one, at a higher index |
| `RaftResponses.OneVotePerTerm` | src/raft/raft.go:475-488 | In every run a server that has voted in a term keeps that vote as long as the term lasts, through crashes and restarts |
| `RaftResponses.AppendExactly` | src/raft/raft.go:528-603 | A request is accepted if and only if it is of no earlier term and its previous entry is there and not below the snapshot; the commit index then follows, and otherwise log and commit index stay |
| `RaftResponses.RefusalExactly` | src/raft/raft.go:535-571 | A refusal names the index after the snapshot, the end of a shorter log, or the place where walking back over all entries of the conflicting term ends |
| `RaftResponses.FollowersCatchUp` | src/raft/raft.go:535-571 | In every reachable state, a leader with its whole log that sends again from where each refusal says is accepted after no more refusals than the index it began with |
| `RaftResponses.MatchNeverFalls` | src/raft/raft.go:798-806 | In every run, as long as a leadership lasts no matchIndex falls |
| `RaftCompleteness.LeaderCompleteness` | src/raft/raft.go:463-488 | What the leader of a term committed is in the log every later leader starts with |
| `RaftCompleteness.LogsMatch` | src/raft/raft.go:577-584 | Two logs of the cluster with the same term at an index are the same up to it |
| `RaftCompleteness.CommitsAgree` | src/raft/raft.go:1042-1053 | Any two prefixes committed by leaders of any terms agree where both reach |
| `RaftVoting.FirstElected` | src/raft/raft.go:1271-1275 | A candidate that has collected a majority is the first to be elected in its term |
| `RaftReplication.MergeTakes` | src/raft/raft.go:577-584 | The append/truncate loop, given a stretch of a log that agrees term by term, leaves the log as it is if the stretch is already there and otherwise ends with exactly that stretch |
| `RaftReplication.BackoffFinds` | src/raft/raft.go:558-566 | The back-off skips exactly entries of the conflicting term and stops before them, at the first index, or below the snapshot |
| `RaftHandlers.VoteRequestKeeps` | src/raft/raft.go:449-491 | Handling a vote request, granted or refused, keeps the invariant |
| `RaftHandlers.VoteReplyKeeps` | src/raft/raft.go:1253-1287 | Handling a vote reply, including the one that wins the election, keeps the invariant |
| `RaftHandlers.CampaignKeeps` | src/raft/raft.go:1297-1305 | A server that is not leader keeps the invariant when it starts an election |
| `RaftHandlers.ClientStartKeeps` | src/raft/raft.go:656-715 | Taking a command keeps the invariant |
| `RaftHandlers.SendAppendKeeps` | src/raft/raft.go:1064-1107 | Every AppendEntries a leader sends is a stretch of its log with LeaderCommit inside it |
| `RaftHandlers.SendHeartbeatKeeps` | src/raft/raft.go:948-961 | So is every heartbeat |
| `RaftAppends.AppendKeeps` | src/raft/raft.go:509-606 | Handling AppendEntries in all its outcomes keeps the invariant |
| `RaftAppends.AppendReplyKeeps` | src/raft/raft.go:778-859 | Handling the reply, including a retry with the old LeaderCommit, keeps the invariant |
| `RaftAppends.HeartbeatReplyKeeps` | src/raft/raft.go:976-1003 | Counting a heartbeat reply, whoever the server has become, keeps the invariant if a leader gets it for the current leadership or for nothing beyond its entries of earlier terms |
| `RaftAppends.ScanFinds` | src/raft/raft.go:1030-1060 | The commit scan ends at its start or at an index whose entry is of the current term and held by a majority |
| `RaftAppends.ScanIsLargest` | src/raft/raft.go:1030-1060 | No committable index lies beyond where the scan ends |
| `RaftAppends.CommitsWhatMajorityHolds` | src/raft/raft.go:1030-1060 | Over matchIndex alone: no entry of the leader's term that a majority's matchIndex has reached lies beyond the new commit index, and if it rose there is such a majority for it |
| `RaftAppends.CommitKeeps` | src/raft/raft.go:1012-1062 | Raising the commit index keeps the invariant |
| `RaftAppends.ApplyKeeps` | src/raft/raft.go:1375-1410 | Handing over committed entries keeps the invariant |
| `RaftAppends.SnapshotKeeps` | src/raft/raft.go:301-352 | Compacting the log keeps the invariant |
| `RaftAppends.RestartKeeps` | src/raft/raft.go:1443-1463 | Restarting from a readable image keeps the invariant |
| `RaftNode.Raft.GetLogLength` | src/raft/raft.go:237-239 | The shifted accessor gives the length of the uncompacted log |
| `RaftNode.Raft.GetTermOfLog` | src/raft/raft.go:241-255 | and the term the uncompacted log has at the index |
| `RaftNode.Raft.GetLog` | src/raft/raft.go:257-267 | and the entry |
| `RaftNode.Raft.GetLogs` | src/raft/raft.go:270-284 | and the entries of a range |
| `RaftNode.Raft.RequestVote` | src/raft/raft.go:449-491 | On the compacted log, state and reply are those of the specification on the whole log |
| `RaftNode.Raft.IsNewerThanMe` | src/raft/raft.go:466-474 | Compares as the whole log would |
| `RaftNode.Raft.BackOff` | src/raft/raft.go:558-566 | Walks back over the conflicting term as on the whole log |
| `RaftNode.Raft.CopyEntries` | src/raft/raft.go:577-584 | The loop over the compacted log turns the represented log into the merged one |
| `RaftNode.Raft.FollowLeader` | src/raft/raft.go:572-603 | Takes the entries and follows the commit index as specified |
| `RaftNode.Raft.FollowCommitIndex` | src/raft/raft.go:593-602 | Follows the leader's commit index up to the last entry |
| `RaftNode.Raft.AppendEntries` | src/raft/raft.go:509-606 | State and reply of every outcome are those of the specification |
| `RaftNode.Raft.BecomeCandidate` | src/raft/raft.go:1334-1337 | The election timer makes a follower a candidate |
| `RaftNode.Raft.CountVote` | src/raft/raft.go:1269-1279 | Adds a vote, and a candidate with a majority becomes leader |
| `RaftNode.Raft.Campaign` | src/raft/raft.go:1297-1305 | Starts an election as specified |
| `RaftNode.Raft.CountReply` | src/raft/raft.go:1253-1287 | Counts a reply as specified |
| `RaftNode.Raft.BeginLeadership` | src/raft/raft.go:1194-1208 | Sets the peers' indices by loops as specified |
| `RaftNode.Raft.Start` | src/raft/raft.go:656-715 | A serving leader appends exactly the new entry and returns its index; otherwise nothing changes |
| `RaftNode.Raft.MakeAppend` | src/raft/raft.go:1077-1099 | The request carries the whole log's entries from the given index |
| `RaftNode.Raft.MakeHeartbeat` | src/raft/raft.go:953-957 | A heartbeat speaks about the last entry of the whole log |
| `RaftNode.Raft.HandleAppendReply` | src/raft/raft.go:778-859 | New indices, and whether and what to send again, as specified |
| `RaftNode.Raft.HandleHeartbeatReply` | src/raft/raft.go:976-1003 | New term, role and indices as specified, whoever the server has become |
| `RaftNode.Raft.CountHolders` | src/raft/raft.go:1043-1049 | The loop counts the servers whose matchIndex has reached the index |
| `RaftNode.Raft.TryCommit` | src/raft/raft.go:1012-1062 | The scan sets the commit index as specified |
| `RaftNode.Raft.TakeCommitted` | src/raft/raft.go:1375-1408 | Returns exactly the entries after lastApplied up to the commit index |
| `RaftNode.Raft.Snapshot` | src/raft/raft.go:301-352 | Compacts the stored log and leaves the represented log as it is |
| `RaftNode.Raft.FromImage` | src/raft/raft.go:199-234 | A server made from a readable image is the specified restart |
| `CheckSingle.CheckSingle` | src/porcupine/checker.go:179-253 | Terminates, answers true if and only if the history is linearizable, and then returns a linearization |
| `CheckSingle.Explore` | src/porcupine/checker.go:190-242 | The search loop, with its lexicographic measure; the cursor is never nil while the list is not empty |
| `CheckSingle.TryCall` | src/porcupine/checker.go:194-213 | A call is chosen, or skipped when the model refuses it or its configuration was seen; nothing that could lead to a linearization is dropped |
| `CheckSingle.Backtrack` | src/porcupine/checker.go:235-241 | Undoing the last choice restores list, bit set, state and cursor |
| `CheckSingle.AtReturn` | src/porcupine/checker.go:215-218 | When the cursor is at a return, nothing can come of the current choices |
| `Search.RememberedIsDead` | src/porcupine/checker.go:198-210 | A configuration in the cache leads nowhere new, so pruning on it discards no solution |
| `Search.FiniteUniverse` | src/porcupine/checker.go:190-242 | Finitely many configurations can be reached, for any step function |
| `Linearizability.SearchDecides` | src/porcupine/checker.go:179-253 | A history is linearizable exactly when choosing operations that nothing left precedes can complete |
| `Linearizability.SamePrecedence` | src/porcupine/checker.go:39-46 | Only which operations precede which matters for linearizability |
| `EntryList.Lift` | src/porcupine/checker.go:159-167 | Taking a call and its return out leaves the list of the remaining entries, and what was taken out remembers its place |
| `EntryList.Unlift` | src/porcupine/checker.go:169-177 | Undoing the last lift restores every link |
| `EntryList.InsertBefore` | src/porcupine/checker.go:70-81 | Links the node in before the mark |
| `LiveEntries.TakeOut` | src/porcupine/checker.go:159-167 | After the lift the list is, in order, exactly the entries of the operations not chosen |
| `LiveEntries.CursorMoves` | src/porcupine/checker.go:208-213 | Moving past a dead call keeps what the place of the cursor means |
| `Checker.MakeLinkedEntries` | src/porcupine/checker.go:121-138 | One node per entry in order, each call pointing to its return |
| `Checker.Length` | src/porcupine/checker.go:83-90 | The length of the list |
| `Checker.CacheContains` | src/porcupine/checker.go:145-152 | Looking in one hash bucket finds an entry exactly when the table holds it |
| `Checker.NotMissed` | src/porcupine/checker.go:198-202 | An entry is missing from the table exactly when its configuration was never seen |
| `Operations.MakeEntries` | src/porcupine/checker.go:48-60 | Whatever the sort makes of ties, the entries lay out a history with the same inputs, outputs and precedence |
| `Operations.PrecedenceKept` | src/porcupine/checker.go:39-46 | One operation's return comes before another's call in the entries exactly when its return time is smaller |
| `Locality.PartsDecide` | src/porcupine/model.go:28-31 | A history is linearizable against one object per key if and only if each key's part is against one object |
| `Locality.Merge` | src/models/kv.go:18-34 | Orders of the single keys can be merged into one order of the whole |
| `Locality.Project` | src/models/kv.go:18-34 | An order of the whole restricts to one of each key |
| `KvModel.ModelAcceptsExactly` | src/models/kv.go:40-54 | The model accepts an order of operations on one key if and only if each get answers with the value of the last put before it followed by the appends since |
| `KvModel.LinearizableExactly` | src/models/kv.go:35-54 | A history is linearizable against the store if and only if some order that time allows has every get answer with what was last put to its key followed by the appends since |
| `KvModel.NothingExplains` | src/models/kv.go:44-46 | A history with a get whose answer no such order explains is not linearizable |
| `KvModel.Partition` | src/models/kv.go:18-34 | The parts are the operations on each key that appears, in order, by increasing key |
| `KvModel.Group` | src/models/kv.go:19-23 | Each key has its operations in the order of the history |
| `KvModel.PartitionDecides` | src/models/kv.go:18-54 | The partition decides linearizability against the whole store, and is empty exactly for the empty history |
| `KvModel.CheckPart` | src/porcupine/checker.go:365-371 | True if and only if the part is linearizable, that is, some order explains the answer of every get in it |
| `KvModel.CheckOperations` | src/porcupine/checker.go:274-353 | Ok exactly for linearizable histories, which are those that some order explains get by get, Illegal for the others, in whatever order parts finish; no answer for the empty history |
| `Bitset.New` | src/porcupine/bitset.go:10-17 | The empty set, with room for the given positions |
| `Bitset.Clone` | src/porcupine/bitset.go:19-23 | A fresh copy |
| `Bitset.Set` | src/porcupine/bitset.go:29-33 | Adds the position and nothing else |
| `Bitset.Clear` | src/porcupine/bitset.go:35-39 | Removes the position and nothing else |
| `Bitset.Get` | src/porcupine/bitset.go:41-44 | Tells membership |
| `Bitset.Popcnt` | src/porcupine/bitset.go:46-52 | The number of members |
| `Bitset.Hash` | src/porcupine/bitset.go:54-60 | Each bit tells whether an odd number of words have it, turned round by that bit of the member count |
| `Bitset.Equals` | src/porcupine/bitset.go:62-72 | Equal words, which is the same as equal size and equal members |
| `Sorting.Sort` | src/porcupine/checker.go:58-58 | Sorted by the given order, and a rearrangement of the input |
| `ShardSafety.ExclusiveService` | src/shardkv/server.go:328-381 | At most one group serves a shard, whatever configurations the groups have reached and however messages are delayed or repeated, if no Leave is handled by a receiver that has gone past the sender's configuration |
| `ShardSafety.Conservation` | src/shardkv/server.go:371-405 | Some group holds everything that was written to a shard, as soon as its first group has started |
| `ShardSafety.ServedContents` | src/shardkv/server.go:371-381 | The serving group holds every write that took effect, so late or repeated PULL_SHARDs never overwrite newer writes |
| `ShardSafety.ReadsSeeLatestWrites` | src/shardkv/server.go:257-282 | A read is refused by every group but the serving one, and that one answers with the latest write or that there is none |
| `ShardSafety.DeletedOnceInstalled` | src/shardkv/server.go:382-396 | A shard is deleted only when the next group's log has installed it |
| `ShardSafety.NeverPanics` | src/shardkv/server.go:371-405 | No committed operation finds the shard it names missing where that would crash the server |
| `ShardSafety.LeaveHandled` | src/shardkv/server_shard_transfer.go:70-76 | What a receiver that has not gone past the sender's configuration proposes is safe: it never takes effect again, or another group owns the shard and has installed it |
| `ShardInvariant.RemovalSafeExactly` | src/shardkv/server.go:382-396 | Committing a LEAVE_SHARD keeps the shard's invariant if and only if it does not take effect or the shard belongs to another group that has installed it |
| `ShardInvariant.InstalledPassed` | src/shardkv/server.go:371-396 | Once a configuration's group has had the shard's contents, so have the groups of all configurations before it |
| `ShardSafety.TransfersFindShard` | src/shardkv/server.go:435-518 | In every replica state of the configuration a transfer was started in, the goroutine that pulls or sends Leave finds the shard it dereferences |
| `ShardCounterexample.ToleranceExactly` | src/shardkv/server_shard_transfer.go:73-73 | At most one group serves a shard, for every sequence of configurations and every run in which Leaves are handled at most d configurations late, if and only if d is 0 |
| `ShardSafety.PullAnswered` | src/shardkv/server_shard_transfer.go:35-66 | The answer to a Pull is the latest contents, unless the new group has had them already |
| `ShardSafety.AskAddressed` | src/shardkv/server.go:435-518 | Pull and Leave go to the shard's previous group, and Leave only after the contents were installed |
| `ShardCounterexample.LateLeave` | src/shardkv/server_shard_transfer.go:73-73 | A concrete run in which a Leave handled one configuration late makes two groups serve a shard, one of them without a write |
| `ShardProgress.UpdatesFindAllWorking` | src/shardkv/server.go:521-552 | Whenever UPDATE_CONFIG takes effect every shard of the group is WORKING, in every run, although only the number is tested |
| `ShardProgress.ApplyEvolves` | src/shardkv/server.go:328-405 | Any operation raises the configuration number or moves shards forward through their statuses |
| `ShardProgress.WritesInOrder` | src/shardkv/server.go:291-298 | In a group's log each client's writes take effect in increasing request order, so each at most once |
| `ShardInvariant.OnlyOneServes` | src/shardkv/server.go:262-266 | Two groups that serve a shard are the same |
| `ShardInvariant.NobodyWaits` | src/shardkv/server.go:371-381 | While a shard is served, no transfer of it is waiting to be installed |
| `ShardInvariant.AdvanceShard` | src/shardkv/server.go:328-370 | Going to the next configuration keeps the shard's invariant |
| `ShardInvariant.InstallShard` | src/shardkv/server.go:371-381 | Installing the contents keeps it |
| `ShardInvariant.RemoveShard` | src/shardkv/server.go:382-396 | Deleting the old copy keeps it |
| `ShardInvariant.WriteShard` | src/shardkv/server.go:283-327 | A write keeps it |
| `ShardProgress.UpdateExactly` | src/shardkv/server.go:328-335 | UPDATE_CONFIG takes a group to the next configuration and to no other |
| `ShardRequests.WriteExactly` | src/shardkv/server.go:283-327 | A PUT or APPEND to a served shard is answered OK and puts its value, or appends it to the old one, if and only if its request is above all served ones of its client before; otherwise no shard changes |
| `ShardRequests.ReadExactly` | src/shardkv/server.go:257-282 | A GET from a served shard is answered with what is stored, or that nothing is, and changes no shard |
| `ShardRequests.RefusedExactly` | src/shardkv/server.go:262-266 | A request is answered ErrWrongGroup if and only if its shard is not served, and then changes nothing |
| `ShardRequests.TableHoldsHighest` | src/shardkv/server.go:268-274 | The table holds each client's highest served request |
| `ShardRequests.GroupIsItsLog` | src/shardkv/server.go:245-407 | In every run a group is what the operations committed in it make of a new group |
| `ShardRequests.KeysSpread` | src/shardkv/client.go:25-32 | Every shard has keys, and keys with neighbouring first characters are in different shards |
| `ShardCompletion.HandOverCompletes` | src/shardkv/server.go:371-405 | From every state of every run, if a group waits for a shard and the previous group has reached the same configuration, the run can go on until the group has the shard in service with everything written to it, the other has deleted it, and nothing else has changed |
| `ShardCompletion.OtherTransfersIgnored` | src/shardkv/server.go:371-405 | PULL_SHARD, LEAVE_SHARD and TRANSFER_DONE of another configuration change nothing |
| `ShardCompletion.TransfersOnce` | src/shardkv/server.go:371-405 | PULL_SHARD only installs in a shard that is PULLING, TRANSFER_DONE only ends WAITING |
| `ShardCompletion.LeaveAnswer` | src/shardkv/server.go:382-396 | LEAVE_SHARD is answered OK exactly by a group that is not behind, which then is past the configuration or without the shard |
| `ShardNode.ShardKV.ApplyCommand` | src/shardkv/server.go:245-407 | Fields and response after any operation are those of the state machine; old operations change nothing |
| `ShardNode.ShardKV.ApplyGet` | src/shardkv/server.go:257-282 | The GET case |
| `ShardNode.ShardKV.ApplyPutAppend` | src/shardkv/server.go:283-327 | The PUT and APPEND cases |
| `ShardNode.ShardKV.ApplyUpdateConfig` | src/shardkv/server.go:328-370 | The UPDATE_CONFIG case, its loops over shards in any order |
| `ShardNode.ShardKV.ReleaseShards` | src/shardkv/server.go:362-367 | Exactly the shards given away become LEAVING |
| `ShardNode.ShardKV.Pull` | src/shardkv/server_shard_transfer.go:35-66 | The error for every case, and a complete copy of the contents |
| `ShardNode.ShardKV.ReadyForNext` | src/shardkv/server.go:526-531 | True exactly when every shard is WORKING |
| `RebalanceMinimal.JoinIsMinimal` | src/shardctrler/server.go:226-252 | A join reassigns no more shards than any even assignment to the same groups would |
| `RebalanceMinimal.JoinEven` | src/shardctrler/server.go:226-252 | After a join the groups' numbers of shards differ by at most one |
| `RebalanceMinimal.JoinHands` | src/shardctrler/server.go:226-252 | A join reassigns exactly the shards the loop moves, to live groups |
| `RebalanceMinimal.MoveNeedsOneLess` | src/shardctrler/server.go:247-251 | Every move lowers the number of shards that still have to move by exactly one |
| `RebalanceMinimal.EvenTakes` | src/shardctrler/server.go:226-252 | Any even assignment hands over at least the needed number of shards |
| `Rebalance.MovesOnce` | src/shardctrler/server.go:226-252 | No shard moves twice, a moved shard ends with another group, the others stay |
| `Rebalance.MoveLightens` | src/shardctrler/server.go:245-251 | The sum of squared counts falls with every move, so the loop ends |
| `Rebalance.BalanceEven` | src/shardctrler/server.go:245-246 | The loop ends with counts that differ by at most one |
| `Rebalance.Fullest` | src/shardctrler/server.go:234-239 | The last group with the most shards |
| `Rebalance.Emptiest` | src/shardctrler/server.go:240-244 | The last group with the fewest shards |
| `Controller.AdoptBalances` | src/shardctrler/server.go:253-276 | Orphans are spread so that counts differ by at most one, and shards with a live group stay |
| `Controller.FirstJoinBalances` | src/shardctrler/server.go:314-332 | The first join spreads all shards evenly |
| `Controller.LeaveBalances` | src/shardctrler/server.go:333-346 | A leave keeps the assignment balanced over the groups that remain |
| `Controller.JoinBalances` | src/shardctrler/server.go:314-332 | A later join too |
| `ConfigHistory.HistoryBalanced` | src/shardctrler/server.go:314-346 | For every sequence of joins and leaves with non-zero gids, duplicates included, every configuration gives every shard to a live group if there is one, with counts that differ by at most one |
| `ConfigHistory.HistoryOwnedExactly` | src/shardctrler/server.go:314-355 | For every sequence of requests with non-zero gids, every configuration gives every shard to a live group, if there is one, if and only if every Move that took effect was to a group live at the time |
| `ConfigHistory.EvenAfterJoin` | src/shardctrler/server.go:314-355 | With such Moves the counts differ by at most one after every Join |
| `ConfigHistory.JoinEvensOut` | src/shardctrler/server.go:314-332 | A Join evens the counts out however uneven they were, if every shard had a live group |
| `ConfigGroups.GroupsExactly` | src/shardctrler/server.go:314-346 | A group is in the configuration if and only if a Join that took effect names it and no later Leave or Join that took effect does; its servers are those of that Join |
| `ConfigGroups.NewExactly` | src/shardctrler/server.go:300-311 | A request takes effect if and only if it is above all earlier ones of its client |
| `ConfigGroups.NewConfigExactly` | src/shardctrler/server.go:300-355 | A request adds one configuration if and only if it takes effect and is no query, and changes no other |
| `ConfigGroups.MoveExactly` | src/shardctrler/server.go:347-355 | A Move that takes effect gives exactly the named shard to the named group |
| `ConfigGroups.LeaveMovesOrphans` | src/shardctrler/server.go:333-346 | A Leave takes no shard from a group that stays, and leaves none with a group that does not |
| `ConfigGroups.JoinMovesFewest` | src/shardctrler/server.go:314-332 | A Join moves no more shards than any even assignment to the groups there are then |
| `ConfigHistory.RunNumbered` | src/shardctrler/server.go:192-204 | Configuration i has number i, for every sequence of requests |
| `ConfigHistory.AppendOnly` | src/shardctrler/server.go:291-364 | Configurations never change once made |
| `ConfigHistory.QueryIsStable` | src/shardctrler/server.go:356-363 | A query for configuration n is answered with it, now and later, once it exists; before that, and for a negative number, with the latest |
| `ConfigHistory.IncreasingUnique` | src/shardctrler/server.go:212-219 | The sorted group ids do not depend on the order in which the map gave them |
| `ControllerNode.RebalanceShard` | src/shardctrler/server.go:208-289 | With map iterations in any order the result is the specified assignment |
| `ControllerNode.EmptyGroups` | src/shardctrler/server.go:211-219 | The sorted group ids, each with an empty list |
| `ControllerNode.ListShards` | src/shardctrler/server.go:220-225 | Each live group's shards in order |
| `ControllerNode.FindExtremes` | src/shardctrler/server.go:230-244 | The specified fullest and emptiest groups |
| `ControllerNode.MoveUntilEven` | src/shardctrler/server.go:226-252 | The loop reaches the specified balance |
| `ControllerNode.AdoptOrphans` | src/shardctrler/server.go:264-276 | The loop gives the orphans away as specified |
| `ControllerNode.FindOrphans` | src/shardctrler/server.go:257-263 | Exactly the shards without a live group |
| `ControllerNode.WriteDown` | src/shardctrler/server.go:283-287 | Writing the lists down in any order of groups gives the same assignment |
| `ControllerNode.MakeJoin` | src/shardctrler/server.go:319-330 | The configuration a join makes |
| `ControllerNode.MakeLeave` | src/shardctrler/server.go:337-344 | The configuration a leave makes |
| `ControllerNode.ShardCtrler.ApplyCommand` | src/shardctrler/server.go:291-371 | History, request table and query answer after any request; duplicates and old indices change no configuration |
| `KvServer.Replay` | src/kvraft/server.go:178-270 | For any delivery of next commands, old commands and snapshots of prefixes, the state is what the log up to the last applied index means |
| `KvServer.EffectiveExactly` | src/kvraft/server.go:210-243 | A write takes effect if and only if its client has asked for nothing as late before it |
| `KvServer.EffectiveInOrder` | src/kvraft/server.go:210-243 | Each client's writes take effect in increasing request order, so each at most once |
| `KvServer.StorageIsPlain` | src/kvraft/server.go:210-243 | The storage is what exactly the writes that took effect make of it |
| `KvAgreement.LogFollowsModel` | src/kvraft/server.go:189-243 | For every log and key, the sequential model accepts the reads and effective writes with their answers and ends with what is stored |
| `KvAgreement.ShardWritesFollowModel` | src/shardkv/server.go:295-322 | A write to a shard changes its key as the sequential model says and no other key |
| `RaftService.ServicesInStep` | src/raft/raft.go:1363-1412 | In every run of a Raft cluster with a key/value server on each Raft server, what a server has been handed continues without a gap from what it has applied, and its state is what its Raft log up to there means, through crashes, restarts and snapshots |
| `RaftService.ServicesAgree` | src/kvraft/server.go:178-347 | Any two of these key/value servers, at any two moments, that have applied equally much have the same storage and request table |
| `RaftService.ServicesFollowModel` | src/kvraft/server.go:189-243 | For every key, what the Raft log has asked of a server so far is, with its answers, what the sequential model allows, and the server stores what the model ends with |
| `RaftService.AppliedStays` | src/raft/raft.go:551-602 | No action but handing over, a snapshot or a restart changes what a server has applied or where it is in the log |
| `KvServer.LatestIsHighest` | src/kvraft/server.go:195-201 | The table holds each client's highest request |
| `KvReplicas.ReplicasInStep` | src/kvraft/server.go:178-309 | In every run of several servers on a growing log, with commands, snapshots of any server at any time, kept images and restarts, each server's state is what the log up to its last applied index means |
| `KvReplicas.AgreeForever` | src/kvraft/server.go:178-347 | Any two servers, at any two moments, that have applied equally much have the same storage and request table |
| `KvServer.DeliverReaches` | src/kvraft/server.go:181-268 | An old command or snapshot changes nothing, and a new one takes the server to its index |
| `KvServer.AppliedIsHighest` | src/kvraft/server.go:178-268 | A server has applied exactly up to the highest index it was ever handed |
| `KvReplicas.NeverBack` | src/kvraft/server.go:178-309 | In every run, between restarts, a server has applied exactly up to the highest of what it had applied before and what it was handed since |
| `KvServer.KVServer.ApplyLoopBody` | src/kvraft/server.go:178-268 | State and answer for every message are those of the specification |
| `KvServer.KVServer.Deserialize` | src/kvraft/server.go:285-309 | Installs an image, or nothing if there is none |
| `MapReduce.SameAsSequential` | src/mr/worker.go:74-143 | The files of all reduce tasks together hold, as a multiset of lines, exactly the sequential output |
| `MapReduce.Distributed` | src/mr/worker.go:74-143 | For every hash, every number of reduce tasks and every order-insensitive reduce function, so do the files the tasks make |
| `MapReduce.Sequential` | src/main/mrsequential.go:38-84 | One line for each key, with what all its values reduce to |
| `MapReduce.Group` | src/mr/worker.go:128-143 | The loop over sorted pairs makes one line for each key |
| `MapReduce.Bucketize` | src/mr/worker.go:74-81 | Each bucket is the pairs whose key hashes to it, in order |
| `MapReduce.Reduce` | src/mr/worker.go:127-143 | Sorting and grouping gives one line for each key of the unsorted pairs |
| `MapReduce.GatherValues` | src/mr/worker.go:109-121 | A key's values are all in its bucket, in the order of the map tasks |

## Left out

- InstallSnapshot and CondInstallSnapshot in Raft: the handler keeps an old suffix without comparing terms (`src/raft/raft.go:385-398`), which the invariant does not allow for; a leader whose peer needs a snapshot sends nothing here.
- Runs in which a leader starts an election, a server restarts without an image, or a later leadership counts a heartbeat reply about its own entries: the safety theorems do not cover them, as the runs above show they cannot.
- Timers, sleeps, goroutine scheduling, lock order and liveness.
- Kill flags, the timeout of the checker, and the partial linearizations it collects for display.
- Event histories of the checker (`renumber`, `convertEntries`), which would repeat the theorem on other input.
- Replies through wait channels: they are matched by index only, so what a client sees is not a consequence of the state machine.
- Exactly-once effects across a shard transfer: the table of requests is not handed over.
- Snapshots of the sharded server: installing one only takes a replica to a later state of the same log, which views already allow.
- Byte encodings, RPC, persistence formats, clerks and the MapReduce coordinator.
- The hash function of MapReduce: the results hold for every hash.
- KvModel.CheckOperations: parts are checked one after the other in any order; their goroutines share nothing else.
- Sorting.Sort: the library's sort is known by its contract only, so an insertion sort stands for it.
- ShardNode.ShardKV.ApplyCommand: requires that the operation does not follow a nil pointer, which `ShardSafety.NeverPanics` shows for runs that meet its assumption.
- RaftNode.Raft.AppendEntries: requires that the request does not reach the fatal guard at index 0, which `RaftSafety.NeverFatal` shows for every run.
