# RaftDrive: a verified model

RaftDrive is a file drive whose metadata lives in a key-value store replicated by Raft, and whose file contents live
in an S3 bucket. This project models its three layers in Dafny and proves what they are for.

`dafny verify dfyconfig.toml` checks everything.

## What is modelled

**One Raft node.** `RaftNode.dfy` states every handler as a pure step on the node's fields (`RaftTypes.Node`);
`Raft.dfy` is the node as a class with those fields and the loops of `kvcluster/raft/raft.cpp`, each method proved to
leave exactly the state its pure step gives. `LogMerge.dfy` gives the follower's merge loops an independent
specification, `Backtracking.dfy` runs leader and follower against each other until they agree, and `Compaction.dfy`
compares a node that has forgotten part of its log with one that has not.

**A cluster of n nodes.** `Cluster.dfy` is a transition system: a step is one handler of one node (election timeout,
vote request, vote reply, promotion, one request to one peer, its receipt, its reply, a client's command, a restart).
`net` keeps every message ever sent, so messages may be lost, delayed, reordered and duplicated. `History` is
bookkeeping no handler reads. `Invariant.dfy` holds the inductive invariant; `ElectionProof`, `LogProof`,
`SafetyProof`, `CommitProof` and `StepProof` show that every step keeps it; `RaftSafety.dfy` draws the theorems about
all runs, and `Integrity.dfy` traces every entry back to the command a leader was handed. Safety says what handlers must
not do; `Effects.dfy` says, field by field, what they must do for those who wait for them, and `Elections.dfy` and
`Progress.dfy` that this is enough: from every reachable state any majority can, on its own, elect a leader, commit a
command and apply it. The heart of the argument is that an entry a quorum can no longer acknowledge in its term is
*dead*: every log either keeps an acknowledged entry of an earlier term or that entry is dead, and a committed entry is
never dead.

**The replicated key-value machine.** `KvMachine.dfy` is the applier as a fold over a log of operations, with the
duplicate filter; `KvModel.dfy` is the sequential specification of one key and the split of a history by key;
`KvServer.dfy` is the server as a class on top of `Raft.Raft`, with its maps and its waiters; `EndToEnd.dfy` puts
servers on the nodes of a cluster and joins them to Raft's safety.

**The directory tree.** `Paths.dfy` splits and joins paths; `Metadata.dfy` reads the three key families of the flat
store as a tree and says what a well-formed tree is; `MetadataService.dfy`, `ObjectStore.dfy` and `FileSystem.dfy` are
the services as classes; `TreeProof.dfy` holds the lemmas about what each change of keys does to the tree, and
`Unchecked.dfy` the inputs that the services should refuse and do not.

## Assumptions

- Each handler is one atomic step. `appendEntries` and the append-reply handler release their mutex between blocks,
  and `broadcastAppendEntries` reads the term of a request a second time; the model is of the serialised behaviour.
- A granted vote that arrives at all arrives in the term that asked for it (`Cluster.Timely`), and every vote reply is
  handled at most once (`calls`); refusals may come late. The code relies on a 200 ms deadline
  (`kvcluster/transport/client_raft_grpc.hpp:26`) against a 700 ms election timeout (`kvcluster/raft/raft.cpp:570`),
  since its handler compares no terms.
- A node that restarts starts on its own persister; `kvcluster/main.cpp:42` makes a fresh one for each process, and
  such a process is a node that does not come back.
- Terms, indices and sizes are unbounded; a node's number is its place in the cluster.
- Saved state, operations and metadata are structured values: their JSON text is taken to be injective and never empty.
- A reply's unset `conflictIndex` is 0.
- The file services run one operation at a time, writes to the key-value store succeed, and an object-store request that
  fails has changed nothing. Which requests fail is given to the object store from outside (`StorageService.fails`), so
  that an operation may answer that storage failed only if a request of its own did. Paths are valid: the root, or a valid path with a slash and a non-empty name without
  slashes.

## Where the code does less than it should

- *Votes* are counted whatever term they are of. For any two terms, a vote of the earlier one that is counted in the
  later one can make two leaders of the later one (`StaleVotes.StaleVoteElectsTwo`). A check of terms that lets timely
  votes through makes elections safe exactly if it lets no vote of an earlier term through (`StaleVotes.GuardIsExact`).
- *A cluster of one* never commits anything, since the commit index is looked at only when a reply comes
  (`Progress.AloneCommitsNothing`). From two nodes on, any majority can get a command committed (`Progress.CanProgress`).
- *The merge loops* count repeated commands instead of positions. They meet their specification exactly when entries
  with equal terms carry equal commands (`LogMerge.MergeRefinesSplice`), which log matching guarantees in every run.
- *A snapshot* saves the vote under the key `"Voted"`, while a restart reads `"VotedFor"`: the vote survives exactly if
  there was none (`Compaction.SnapshotForgetsVote`), and a node that restarts on the record can vote twice in a term
  (`Compaction.SnapshotVotesTwice`).
- *Sequence numbers*: a client's write that reaches the log after a higher-numbered one is dropped, and its caller is
  told OK all the same (`KvMachine.OvertakenWriteIsLost`). The machine lets exactly one entry of every request through
  exactly if the requests of each client first enter the log in the order of their numbers (`KvMachine.ExactlyOnce`).
- *Waiters* are told apart by client and sequence number only: a get is answered with the value of any entry under its
  numbers (`EndToEnd.SharedNumbersMislead`). The theorems on answers ask that numbers belong to one operation
  (`EndToEnd.Numbered`), as a service sees to by counting its requests under a random client id
  (`kvcluster/service_kv_grpc.hpp:16-33`).
- *A write answered at once* as a repetition may never have been applied: it is in the applied log exactly if it would
  have come in order (`KvMachine.EarlyAnswerIsExact`).
- *A compacted leader* sends nothing a follower with an empty log could accept, goes back to its compacted index, and
  stays there without asking for a snapshot (`Backtracking.ChaseIsExact`).
- *Creating a directory or uploading a file* checks neither that the parent is a directory nor that the path is free of
  the other kind. The tree stays well formed exactly when both hold (`TreeProof.CreateDirKeeps`,
  `TreeProof.CreateFileKeeps`), and the two stores stay in step exactly when the generated key was unused
  (`ObjectStore.UploadSync`). `Unchecked.OrphanDirectory`, `Unchecked.FileOverDirectory` and `Unchecked.KeyInUse` are
  inputs at which they do not.
- *Recursive deletion* is described as breadth-first in the repository's build document; the code, and the model, go
  depth-first.

## Model

| member | source | states |
|---|---|---|
| RaftSafety.ElectionSafety | kvcluster/raft/raft.cpp:94-183 | at most one node is ever the leader of a term, over any two moments of any run |
| RaftSafety.VotesCounted | kvcluster/raft/raft.cpp:136-181 | a candidate's vote counter is the number of distinct nodes that gave it their vote of its term, those that have moved on included |
| RaftSafety.LogMatching | kvcluster/raft/raft.cpp:355-418 | two logs with an entry of the same index and term agree up to it, at any two moments of any run |
| RaftSafety.RequestMatching | kvcluster/raft/raft.cpp:215-228 | a request in flight is a slice of a log that matches every node's log |
| RaftSafety.LeaderCompleteness | kvcluster/raft/raft.cpp:440-465 | what a node has committed is in the log of every leader of every later term, whichever came first |
| RaftSafety.CommitsAgree | kvcluster/raft/raft.cpp:574-606 | what two nodes have committed is the same as far as both go |
| RaftSafety.StateMachineSafety | kvcluster/raft/raft.cpp:280-290 | no two nodes ever push different messages at the same place of their apply streams |
| RaftSafety.MatchIndexSound | kvcluster/raft/raft.cpp:264-278 | a follower in the leader's term holds the leader's log up to its match index, despite reordered replies |
| RaftSafety.CommitOnMajority | kvcluster/raft/raft.cpp:574-606 | whenever a reply lets a leader commit, every node of a strict majority holds its log up to the new commit index, whatever term it is in |
| RaftSafety.EntriesAreFresh | kvcluster/raft/raft.cpp:494-508 | an entry a leader appends, if ever committed, comes after all that any node has ever committed by then, and whoever applies it has applied all that before |
| Progress.CanProgress | kvcluster/raft/raft.cpp:61-465 | from every reachable state any majority of two nodes or more can, with nobody else taking a step, get a command committed and applied by all its members |
| Elections.Electable | kvcluster/raft/raft.cpp:451-463 | every group has a member whose ballot of a new term all of the group grant |
| Elections.Elect | kvcluster/raft/raft.cpp:61-183 | every majority can, on its own, come to have a leader that no member is ahead of in terms |
| Progress.Replicate | kvcluster/raft/raft.cpp:189-316 | such a leader can bring any member to hold its log, and counts it |
| Progress.CommitLast | kvcluster/raft/raft.cpp:574-606 | such a leader can get an entry of its own term committed |
| Progress.AloneCommitsNothing | kvcluster/raft/raft.cpp:245-316 | in a cluster of one node the commit index stays 0 in every run |
| Effects.VoteAnswer | kvcluster/raft/raft.cpp:440-465 | a vote is granted exactly if term, earlier vote and log allow it; the answer carries the voter's term; what the voter is afterwards |
| Effects.BallotsCompare | kvcluster/raft/raft.cpp:451-454 | of any two nodes one has a log the other votes for |
| Effects.StandsWith | kvcluster/raft/raft.cpp:136-161 | a node stands in the next term, with its own vote, and asks with its last index and term |
| Effects.VoteReplyEffect | kvcluster/raft/raft.cpp:168-179 | only a candidate counts a grant or steps down to a later term |
| Effects.StaleCandidateStepsDown | kvcluster/raft/raft.cpp:176-179 | a candidate that asks a node of a later term becomes a follower of that term |
| Effects.LeadsWith | kvcluster/raft/raft.cpp:96-99 | a new leader starts from the end of its log and knows of nobody's |
| Effects.RequestTells | kvcluster/raft/raft.cpp:215-228 | a request reaches to the end of the leader's log, names the entry it builds on, and carries the leader's commit index |
| Effects.AppendAnswer | kvcluster/raft/raft.cpp:336-385 | a request is accepted exactly if its term is not over and the log has the entry it builds on; what a refusal's hint is; the answer carries the follower's term |
| Effects.AcceptFollows | kvcluster/raft/raft.cpp:420-437 | an acceptance commits and applies as far as the leader has and the request reaches |
| Effects.AppendRecognises | kvcluster/raft/raft.cpp:338-352 | a request of no earlier term leaves its receiver in that term and no candidate |
| Effects.SuccessCounts | kvcluster/raft/raft.cpp:274-276 | a success counts everything the request carried, for the peer that answered and no other |
| Effects.SuccessCommits | kvcluster/raft/raft.cpp:278-290 | after a success no entry of the leader's term that a majority holds is left uncommitted or unapplied |
| Effects.RefusalEffect | kvcluster/raft/raft.cpp:257-309 | a refusal sends the leader where the hint says, or one back, or out of office |
| Effects.StaleLeaderStepsDown | kvcluster/raft/raft.cpp:257-261 | a leader that asks a node of a later term becomes a follower of that term |
| Effects.StartTells | kvcluster/raft/raft.cpp:494-508 | a leader appends and saves the command and names its index and term; any other node changes nothing |
| Integrity.EntrySubmitted | kvcluster/raft/raft.cpp:494-508 | every entry of every log was handed to a leader of its term before, which appended it at that index |
| Integrity.PromoteOwns | kvcluster/raft/raft.cpp:94-99 | a new leader's log has no entry of the new term |
| RaftSafety.IndexInvariants | kvcluster/raft/raft.cpp:215-228 | dummy entry, bounds of nextIndex and matchIndex on leaders, lastApplied equal to commitIndex within the log, apply stream 1, 2, 3, and so on |
| RaftSafety.CommitMonotone | kvcluster/raft/raft.cpp:420-437 | the commit index never falls and the apply stream only grows, but for a restart |
| RaftSafety.Durability | kvcluster/raft/raft.cpp:642-720 | at every step boundary, starting on a node's persister restores its term, vote and log |
| StepProof.StepInv | kvcluster/raft/raft.cpp:61-465 | every one of these handlers, a client's command and a restart keeps the whole invariant, and history only grows |
| StepProof.RunInv | kvcluster/raft/raft.cpp:61-465 | the invariant holds in every state of every run |
| SafetyProof.SafetyAdopt | kvcluster/raft/raft.cpp:388-418 | accepting a request keeps the safety invariant: every log holds what its node acknowledged in any term, as far as that can still be committed |
| SafetyProof.SafetyVote | kvcluster/raft/raft.cpp:451-463 | a new vote, if its candidate's log holds what the voter acknowledged and can still be committed, keeps the safety invariant |
| SafetyProof.SafetyWin | kvcluster/raft/raft.cpp:94-99 | a promotion keeps the safety invariant: the new leader's log holds whatever earlier terms can still commit |
| CommitProof.ScanFindsCommitted | kvcluster/raft/raft.cpp:583-604 | what the leader's scan finds has been acknowledged by a quorum in the leader's term |
| CommitProof.ChosenAgree | kvcluster/raft/raft.cpp:598-600 | any two committed prefixes agree as far as both go |
| StaleVotes.StaleVoteElectsTwo | kvcluster/raft/raft.cpp:162-181 | for any terms t < t', a run in which a vote of t, counted in t', makes two leaders of t' |
| StaleVotes.GuardedSafe | kvcluster/raft/raft.cpp:162-181 | with a check that lets no vote of an earlier term through, every run has one leader per term, with no assumption on timing |
| StaleVotes.GuardIsExact | kvcluster/raft/raft.cpp:168-175 | a check of terms that lets timely votes through makes elections safe in every run exactly if it lets no vote of an earlier term through |
| LogMerge.MergeRefinesSplice | kvcluster/raft/raft.cpp:392-416 | the mark, resize and push_back loops keep a log that holds the entries and otherwise cut and append, exactly if equal terms mean equal commands |
| LogProof.MergeAdopts | kvcluster/raft/raft.cpp:392-416 | for a slice of the leader's log the loops leave the follower's log alone or make it the leader's prefix: matching entries are never removed |
| LogProof.AdoptedKeeps | kvcluster/raft/raft.cpp:392-416 | accepting a request never drops a prefix that follower and leader share with a third log |
| Backtracking.RefusalMovesBack | kvcluster/raft/raft.cpp:302-309 | after a refusal the leader's next index is strictly smaller and still at least 1, and both logs are unchanged |
| Backtracking.SuccessHoldsLog | kvcluster/raft/raft.cpp:388-418 | after an acceptance the follower's log starts with the leader's |
| Backtracking.CatchUpConverges | kvcluster/raft/raft.cpp:364-385 | repeated send, refuse, reset ends within nextIndex rounds, with the leader's log a prefix of the follower's |
| Backtracking.ChaseIsExact | kvcluster/raft/raft.cpp:302-313 | catching up from a compacted leader ends with the full log exactly if the full leader would be accepted above the compacted index, and stalls for good exactly if something is compacted and the follower's log is empty |
| Backtracking.NoHintIffEmpty | kvcluster/raft/raft.cpp:364-385 | a refusal carries no hint exactly if the follower's log is empty |
| Compaction.SnapshotCuts | kvcluster/raft/raft.cpp:537-549 | a snapshot cuts the log exactly at its index, with that entry's term, or does nothing |
| Compaction.SnapshotKeepsView | kvcluster/raft/raft.cpp:533-549 | a snapshot keeps the last index and term, the term at every index from its own on, and every entry above it |
| Compaction.SnapshotForgetsVote | kvcluster/raft/raft.cpp:550-559 | the vote read back after a snapshot is the node's vote exactly if it had none |
| Compaction.SnapshotRecord | kvcluster/raft/raft.cpp:550-559 | a restart on the record has the term and the entries above the index |
| Compaction.SnapshotVotesTwice | kvcluster/raft/raft.cpp:550-559 | a node that has voted grants another candidate of the same term its vote once it has made a snapshot and restarted, and not without the snapshot |
| Compaction.AppendUnaffected | kvcluster/raft/raft.cpp:355-437 | from the compacted index on, a request has the same answer and effect on the compacted node as on the full one |
| Compaction.VoteRequestUnaffected | kvcluster/raft/raft.cpp:440-465 | votes are granted alike, and ballots carry the same last index and term |
| Compaction.StartUnaffected | kvcluster/raft/raft.cpp:494-508 | a command gets the same index and term |
| Compaction.RequestUnaffected | kvcluster/raft/raft.cpp:215-228 | the request built for a peer is the same |
| Compaction.ReplyUnaffected | kvcluster/raft/raft.cpp:251-316 | a reply has the same effect exactly unless the leader acts on a refusal without a hint and would have to go back into what it has forgotten |
| Compaction.ScanShift | kvcluster/raft/raft.cpp:574-606 | the scan for the commit index finds the same index |
| Raft.Raft.constructor | kvcluster/raft/raft.cpp:14-39 | fresh fields, and the term, vote and log the persister holds |
| Raft.Raft.PersistState | kvcluster/raft/raft.cpp:642-659 | the persister holds the term, the vote and the log without its dummy |
| Raft.Raft.StepDownToFollower | kvcluster/raft/raft.cpp:626-640 | new term, no vote, follower, saved |
| Raft.Raft.Stand | kvcluster/raft/raft.cpp:136-161 | the node votes for itself in the next term, and every other peer is asked with its last index and term |
| Raft.Raft.HandleVoteReply | kvcluster/raft/raft.cpp:165-180 | a candidate counts a grant or steps down to a higher term |
| Raft.Raft.PromoteToLeader | kvcluster/raft/raft.cpp:94-99 | leader, with next index after its log and match index 0 for every peer |
| Raft.Raft.RequestVote | kvcluster/raft/raft.cpp:440-465 | the node and the reply are those of the pure step |
| Raft.Raft.StartCommand | kvcluster/raft/raft.cpp:494-508 | a leader appends and saves the command and tells its index; any other node refuses |
| Raft.Raft.BuildRequest | kvcluster/raft/raft.cpp:215-228 | everything from the peer's next index on, with the entry before it |
| Raft.Raft.Broadcast | kvcluster/raft/raft.cpp:189-229 | one request for each other peer above the compacted index: everything from its next index on; the bound it needs on nextIndex is part of IndexInvariants |
| Raft.Raft.CountReplicas | kvcluster/raft/raft.cpp:589-596 | one more than the number of other peers whose match index reaches the index |
| Raft.Raft.UpdateLeaderCommitIndex | kvcluster/raft/raft.cpp:574-606 | the commit index becomes the highest index of the current term on a majority, if there is one |
| Raft.Raft.ApplyUpToCommit | kvcluster/raft/raft.cpp:427-436 | exactly the messages between lastApplied and commitIndex are pushed, in order |
| Raft.Raft.HandleAppendReply | kvcluster/raft/raft.cpp:249-316 | the node is that of the pure step, in every branch |
| Raft.Raft.ConflictHint | kvcluster/raft/raft.cpp:373-381 | the first index of the run of the conflicting term |
| Raft.Raft.CutAtConflict | kvcluster/raft/raft.cpp:393-408 | the cut log and the entries from mark on make up the merged log |
| Raft.Raft.Merge | kvcluster/raft/raft.cpp:392-416 | the log is the merged log |
| Raft.Raft.RecogniseTerm | kvcluster/raft/raft.cpp:338-352 | a higher term is taken over, and a candidate of the same term becomes a follower |
| Raft.Raft.AppendNew | kvcluster/raft/raft.cpp:388-418 | the log takes over a consistent request's entries and is saved |
| Raft.Raft.AcceptEntries | kvcluster/raft/raft.cpp:388-437 | merge, save, follow the leader's commit index, apply |
| Raft.Raft.AppendEntries | kvcluster/raft/raft.cpp:331-438 | the node and the reply are those of the pure step, in every branch |
| Raft.Raft.Snapshot | kvcluster/raft/raft.cpp:533-560 | the log is cut behind a dummy with the index's term, and the vote is saved under a name no restart reads |
| RaftNode.ScanCommit | kvcluster/raft/raft.cpp:583-605 | a committable index above the commit index, or the commit index, and nothing committable is higher |
| RaftNode.WalkBack | kvcluster/raft/raft.cpp:376-381 | every entry from the result on has the term, and the one before it has not |
| RaftNode.FirstConflict | kvcluster/raft/raft.cpp:394-407 | no term conflict before the result, and one at it unless the overlap ends there |
| RaftNode.Messages | kvcluster/raft/raft.cpp:427-433 | the message at each place carries its index and that entry's term and command |
| KvServer.KvServer.constructor | kvcluster/kvserver/kvserver.cpp:9-24 | an empty store with nothing applied and nobody waiting |
| KvServer.AppendStreams | kvcluster/raft/raft.cpp:427-436 | a request keeps the numbering of the apply stream and takes nothing back |
| KvServer.ReplyStreams | kvcluster/raft/raft.cpp:280-290 | a reply keeps the numbering of the apply stream and takes nothing back |
| KvServer.KvServer.NodeMoves | kvcluster/raft/raft.cpp:427-436 | a server stays in order while its node only adds to the numbered stream |
| KvServer.KvServer.ReceiveAppend | kvcluster/main.cpp:45-46 | the node takes a request as the pure step says, and the server stays in order |
| KvServer.KvServer.ReceiveAppendReply | kvcluster/raft/raft.cpp:249-316 | the node takes a reply as the pure step says, and the server stays in order |
| KvServer.KvServer.ReceiveVoteRequest | kvcluster/main.cpp:45-46 | the node takes a vote request as the pure step says, and the server stays in order |
| KvServer.KvServer.ReceiveVoteReply | kvcluster/raft/raft.cpp:165-180 | the node takes a vote reply as the pure step says, and the server stays in order |
| KvServer.KvServer.RunElection | kvcluster/raft/raft.cpp:66-107 | a candidate with a majority is promoted, any other node that may stand stands and asks every other peer, and the server stays in order |
| KvServer.KvServer.ApplyOp | kvcluster/kvserver/kvserver.cpp:50-82 | the two maps and the result are those of the pure step, duplicates included |
| KvServer.KvServer.Fulfil | kvcluster/kvserver/kvserver.cpp:84-91 | the promise waiting at the index, and no other, is filled and forgotten |
| KvServer.KvServer.ApplyNext | kvcluster/kvserver/kvserver.cpp:44-92 | one more message is applied, and the waiter at its index gets the outcome of that log entry |
| KvServer.KvServer.ApplierLoop | kvcluster/kvserver/kvserver.cpp:31-94 | the maps become what the whole apply stream amounts to |
| KvServer.KvServer.Register | kvcluster/kvserver/kvserver.cpp:112-114 | a new promise for the index; one that was there is abandoned |
| KvServer.KvServer.BeginGet | kvcluster/kvserver/kvserver.cpp:96-114 | on the leader the operation is appended and its index is waited for; off it nothing is |
| KvServer.KvServer.Unregister | kvcluster/kvserver/kvserver.cpp:120 | whoever waits at the index is forgotten, and abandoned if still waiting |
| KvServer.KvServer.FinishGet | kvcluster/kvserver/kvserver.cpp:118-166 | a reply carries the outcome of the log entry at the index, with the caller's numbers; for the caller's own get it is the value that the log before the index gives the key |
| KvServer.KvServer.BeginWrite | kvcluster/kvserver/kvserver.cpp:168-194 | the write is appended first; a number not above the last applied one is answered at once; any other waits at the index of its own entry |
| KvServer.KvServer.FinishWrite | kvcluster/kvserver/kvserver.cpp:197-236 | OK exactly if the wait ended in time, alive, with the caller's numbers, and then that entry has been applied; the caller's own entry is always answered OK |
| KvServer.KvServer.ApplyUntil | kvcluster/kvserver/kvserver.cpp:31-94 | whoever waits at an index has the outcome of the entry there once the applier has got that far |
| KvServer.KvServer.EndWriteRound | kvcluster/kvserver/kvserver.cpp:195-224 | a write whose own entry is pushed at its index in time is answered OK |
| KvServer.KvServer.EndGetRound | kvcluster/kvserver/kvserver.cpp:116-153 | a get whose own entry is pushed at its index in time is answered with its key's value, or that there is none |
| KvServer.PushedOperation | kvcluster/raft/raft.cpp:427-433 | what a node pushes for a client's command is that command's operation |
| KvMachine.SeqMapIsMaximum | kvcluster/kvserver/kvserver.cpp:61-82 | the sequence map holds exactly the clients that have written, each with its maximum |
| KvMachine.EffectiveIffNotDuplicate | kvcluster/kvserver/kvserver.cpp:63-74 | the duplicate check passes exactly the writes numbered above all earlier ones of their client |
| KvMachine.DedupIsPlainFold | kvcluster/kvserver/kvserver.cpp:61-82 | the store is the plain fold of the effective writes, for every log |
| KvMachine.AtMostOnce | kvcluster/kvserver/kvserver.cpp:61-82 | of all entries of a request only the first can pass the machine's duplicate check |
| KvMachine.ExactlyOnce | kvcluster/kvserver/kvserver.cpp:61-82 | the machine lets exactly one entry of every request through, exactly if the requests of each client first enter the log in the order of their numbers |
| KvMachine.EarlyAnswerIsExact | kvcluster/kvserver/kvserver.cpp:184-189 | a write whose request is in the applied log is answered at once; one answered at once is in it exactly if it would have come in order |
| KvMachine.EarlyAnswerStands | kvcluster/kvserver/kvserver.cpp:184-189 | a write answered at once whose request comes in order has taken effect, by exactly one entry |
| KvMachine.OvertakenWriteIsLost | kvcluster/kvserver/kvserver.cpp:84-90 | a concrete log whose second write is no repetition, is dropped, and still reaches its waiter as its own operation |
| KvMachine.Locality | kvcluster/kvserver/models.hpp:67-130 | for every key, the specification accepts every get's output in the key's group and ends with the key's value |
| KvModel.Group | kvcluster/kvserver/models.hpp:118-120 | a key's group holds exactly the records of that key |
| KvModel.Collect | kvcluster/kvserver/models.hpp:116-120 | every key that occurs is mapped to its group, in history order |
| KvModel.Partition | kvcluster/kvserver/models.hpp:113-130 | one group for each key that occurs, each complete and in history order, and the groups in the order of their keys |
| EndToEnd.ReplicaAgreement | kvcluster/kvserver/kvserver.cpp:44-92 | two servers on nodes of a cluster that have applied equally many entries, at any two moments, have equal stores and sequence maps |
| EndToEnd.AppliedAgree | kvcluster/kvserver/kvserver.cpp:44-92 | what two servers have applied is the same as far as both have got |
| EndToEnd.OwnEntry | kvcluster/kvserver/kvserver.cpp:141-158 | if the numbers belong to one operation, the entry behind an answer is that operation, submitted to a leader of its term |
| EndToEnd.AnswerIsFresh | kvcluster/kvserver/kvserver.cpp:96-166 | the log before an answered entry includes everything that any server had applied before the request was submitted |
| EndToEnd.GetReadsReplicas | kvcluster/kvserver/kvserver.cpp:141-158 | an answered get, if its numbers belong to it, says what any server's store holds that has applied exactly the entries before it |
| EndToEnd.GetIsFresh | kvcluster/kvserver/kvserver.cpp:96-166 | a get, if its numbers belong to it, is answered with its key's value after a log prefix with everything that any server had applied before the get was submitted |
| EndToEnd.SharedNumbersMislead | kvcluster/kvserver/kvserver.cpp:141-147 | an applied log and an OK answer under shared numbers with a value its key never had |
| EndToEnd.WriteStands | kvcluster/kvserver/kvserver.cpp:220-224 | an answered write stands at its index in every server that has got that far, and exactly one entry of it takes effect if requests came in order |
| EndToEnd.GetSeesWrite | kvcluster/kvserver/kvserver.cpp:96-236 | a get that is submitted after a write was answered reads a store that the write has gone into |
| EndToEnd.ServerKept | kvcluster/kvserver/kvserver.cpp:31-94 | a server stays in order through every step of its node in every run, but for a restart |
| EndToEnd.StreamCounts | kvcluster/raft/raft.cpp:427-436 | every node of a run is one that a server can start on |
| Paths.SplitJoin | raftdrive/services/service_metadata.cpp:36-40 | splitting a joined path gives back parent and name |
| Paths.NoSlash | raftdrive/services/service_metadata.cpp:36-40 | a path without a slash is its own name and its own parent |
| Paths.UnderIsPrefix | raftdrive/services/service_fs.cpp:80 | a path lies under another exactly if it is that path or starts with it and a slash |
| Metadata.KeysApart | raftdrive/services/service_metadata.cpp:158-171 | the three key families are disjoint, and each tells paths apart |
| MetadataService.MetadataService.EnsureRoot | raftdrive/services/service_metadata.cpp:9-13 | the root is created exactly if it is absent |
| MetadataService.MetadataService.CreateDir | raftdrive/services/service_metadata.cpp:34-59 | the record, the empty list and the parent's list change as stated, and nothing else |
| MetadataService.MetadataService.DeleteDir | raftdrive/services/service_metadata.cpp:61-75 | record and list are cleared and the name leaves the parent's list; nothing happens without a record |
| MetadataService.MetadataService.CreateFile | raftdrive/services/service_metadata.cpp:96-113 | the record, with missing times filled in, and the parent's list change, and nothing else |
| MetadataService.MetadataService.DeleteFile | raftdrive/services/service_metadata.cpp:115-126 | the record is cleared and the name leaves the parent's list; nothing happens without a record |
| MetadataService.FileRemovedOnly | raftdrive/services/service_metadata.cpp:115-126 | the store that a file's deletion leaves differs in the record and in the parent's list only |
| MetadataService.MetadataService.CreateChild | raftdrive/services/service_metadata.cpp:139-146 | one list gains a name at its end, and nothing else changes |
| MetadataService.MetadataService.DeleteChild | raftdrive/services/service_metadata.cpp:148-155 | one list loses all occurrences of a name, and nothing else changes |
| TreeProof.CreateDirKeeps | raftdrive/services/service_metadata.cpp:34-59 | creating an absent directory keeps the tree well formed exactly when its parent is a directory and no file has its path |
| TreeProof.CreateFileKeeps | raftdrive/services/service_metadata.cpp:96-113 | creating an absent file keeps the tree well formed exactly when its parent is a directory and no directory has its path |
| TreeProof.CreateRootKeeps | raftdrive/services/service_metadata.cpp:9-13 | creating an absent root keeps the tree well formed |
| TreeProof.DeleteDirKeeps | raftdrive/services/service_metadata.cpp:61-75 | deleting a directory without names keeps the tree well formed, the root included |
| TreeProof.FileCleared | raftdrive/services/service_metadata.cpp:115-126 | deleting a file clears exactly its subtree and keeps the tree well formed |
| TreeProof.Descend | raftdrive/services/service_fs.cpp:75-80 | whatever is live below a directory lies under one of its listed names |
| Unchecked.OrphanDirectory | raftdrive/services/service_fs.cpp:57-65 | creating "/a/b" on an empty store is accepted and leaves a tree that is not well formed |
| Unchecked.FileOverDirectory | raftdrive/services/service_fs.cpp:112-141 | uploading a file at the path of a directory is accepted and leaves a path that is both |
| Unchecked.KeyInUse | raftdrive/services/service_fs.cpp:129-137 | an upload under a key that another file's object has leaves a well-formed tree out of step with the objects |
| ObjectStore.StorageService.PutObject | raftdrive/services/service_storage.cpp:23-46 | the object is stored, unless the request is one that fails, and then nothing changes |
| ObjectStore.StorageService.GetObject | raftdrive/services/service_storage.cpp:48-67 | the stored data, unless the request is one that fails or there is no such object |
| ObjectStore.StorageService.DeleteObject | raftdrive/services/service_storage.cpp:69-81 | the object is gone, unless the request is one that fails, and then nothing changes |
| ObjectStore.ClearedSync | raftdrive/services/service_fs.cpp:143-158 | clearing a region of the tree in both stores keeps files and objects in bijection |
| ObjectStore.UploadSync | raftdrive/services/service_fs.cpp:129-137 | storing a new file keeps files and objects in bijection exactly when its key was unused |
| FileSystem.ListingExact | raftdrive/services/service_fs.cpp:19-55 | a listing holds exactly the live children of the directory, each once, with its record |
| FileSystem.FileSystem.ListDir | raftdrive/services/service_fs.cpp:19-55 | the directory's record and the items behind its names in order, or not found |
| FileSystem.FileSystem.EnsureRoot | raftdrive/services/service_fs.cpp:14-17 | the root exists, and tree and stores stay as they should be |
| FileSystem.FileSystem.CreateDir | raftdrive/services/service_fs.cpp:57-65 | refuses what exists; keeps the tree exactly under its two conditions, and the stores always in step |
| FileSystem.FileSystem.DownloadFile | raftdrive/services/service_fs.cpp:102-110 | the data of the file's object with the type on record; with the stores in step it fails only if its request does |
| FileSystem.FileSystem.UploadFile | raftdrive/services/service_fs.cpp:112-141 | refuses what exists; fails exactly if its request does, and then changes nothing; a success changes both stores as stated and keeps tree and bijection exactly under its conditions |
| FileSystem.FileSystem.DeleteFile | raftdrive/services/service_fs.cpp:143-158 | fails exactly if its request does, and then changes nothing; a success erases exactly the file, its name and its object |
| FileSystem.FileSystem.DeleteEntry | raftdrive/services/service_fs.cpp:78-96 | one entry is erased with all it holds, unless a request fails, and then the deletion stops at a file in it with nothing outside it changed |
| FileSystem.FileSystem.DeleteDir | raftdrive/services/service_fs.cpp:67-100 | terminates; erases exactly what lies under the path, in both stores, and its name; it stops half-way exactly if a request fails, at a file that is still there, with nothing outside changed and tree and bijection intact |
| FileSystem.UploadUndone | raftdrive/services/service_fs.cpp:112-158 | deleting an uploaded file restores both stores |
| FileSystem.CreateDirUndone | raftdrive/services/service_fs.cpp:57-100 | deleting a directory just created restores the tree and touches no object |

## Left out

- Raft.Raft.Snapshot: does not save the state machine's snapshot itself, which Raft only passes through.
- `installSnapshot`, `helperTriggerInstallSnapshot`, and snapshots read back by a restart: nothing calls `snapshot` in the deployed program, so the cluster's runs have none. A leader that a reply sends back into what it has compacted sends no snapshot here.
- Interleavings inside one handler, the thread pool, condition variables and mutexes: the steps are atomic.
- Wall-clock timeouts and random delays: a timeout is a step that may happen at any time. Liveness of elections is not stated.
- A killed node (`m_dead`): it is a node that takes no more steps.
- JSON text, gRPC services and clients, the HTTP handlers and router, the AWS SDK, the frontend, scripts and logging.
- `KVStoreClient` retries, and how a service numbers concurrent requests.
- Generation of object keys: the key is a parameter of `UploadFile`.
- Concurrent requests to the file services: the repository's build document names a single writer.
- Renaming, which the repository's build document plans and the services do not have.
- An object-store request that reports failure after it took effect.
