# raftKVDB in Dafny

A Dafny model of the replicated key/value database `raftKVDB` and of the
linearizability checker that comes with it, with proofs of what they are for:

- **Raft** (the modules that start with `Raft`). A cluster is a step machine. One step is
  one critical section of one peer, or the delivery of a message. The network
  loses, delays, reorders and (for appends and snapshots) duplicates messages. A
  crash keeps only what the persister holds. `RaftPeer` has each handler as a
  function on peer states, `RaftServer` the same handlers as methods of an object
  with loops and a persister, proved to compute those functions. `RaftCore` holds
  the history that the safety argument needs: ballots, leaders, the log of each
  leader, acknowledgements, and a whole log per server behind the compacted one.
  Elections and log matching hold in all runs. What is committed is safe in all
  *guarded* runs, compaction, snapshots and crashes included (`RaftSafety`,
  `RaftSafeSteps`, `RaftCommit`), and every run without compaction is guarded
  (`RaftPlain`). A run is guarded if no leader probes a follower from beyond the
  end of its own log, and no peer compacts beyond what it has applied. The second
  half is what the service does: it asks for compaction up to a command it was just
  given (`kvraft/server.go:223-230`). The first half is not checked by the code:
  `RaftOverrun` has a run of three servers in which a probe from beyond the log
  makes two servers apply different commands at one index.
  What the handlers decide, and exactly when, is in `RaftRules`, in terms of whole
  logs. From there goes progress: a leader brings a follower up to its log by probes,
  refusals and snapshots (`RaftBackup`, `RaftCatchUp`), and every run without
  compaction of two servers or more can be carried on until a leader is elected and
  any given command is applied by all servers (`RaftElect`, `RaftProgress`). With
  compaction, catching up can fail: a follower that has compacted further than its
  leader, and differs from it within the run of terms its snapshot ends in, refuses
  all probes in a circle. That is exactly when it fails for a new leader, and
  `RaftStuck` has a guarded run of three servers that gets there; `CatchUpWithinIff`
  has the exact condition for a leader that is under way.
- **The checker** (`Word64`, `Bitset`, `History` … `FanIn`). The search runs on
  a doubly linked list of nodes that it takes apart and puts back in place, with a
  bitset of machine words and a hash-bucketed cache. Its verdict is related to the
  definition of linearizability: some order of the operations respects real time
  and is accepted step by step.
- **The service** (the modules that start with `Kv`, and `EndToEnd`). Replicas fold
  an agreed log into a database and a duplicate table, across snapshots and restarts.
  Clerks retry calls under one number. Every run of the service is linearizable.
  `KvCluster` puts clerks, servers and the Raft cluster into one machine, with
  compaction, snapshots and crashes, and nothing assumed about the log. Its
  *orderly* runs are linearizable, and the checker accepts the history they leave.
  A run is orderly if no leader probes from beyond its log and nothing overtakes
  an installed snapshot on its way to the server; runs without compaction are, and in
  those every call that has not returned can still return (`KvClusterProgress`).

Integers are unbounded except where the width matters: the words of the bitset
are 64-bit, with the wrapping multiplication of the population count, and its
hash is a 64-bit word. Results of calls that crash the process in the original
(an index out of range) are `None`.

What the model takes as given:

- Each vote call is answered at most once, and its answer is used at most once.
- The commands of different clerks carry different client numbers, and a clerk
  makes one call at a time.
- Encoding and decoding of saved state is the identity.
- In a checked history every call comes before its own return, the state equality
  of a model is true equality, and there is at least one part.

Where the comments and the code differ, the model follows the code: the comment
on a node's `match` field has calls and returns the wrong way round
(`linearizability/linearizability.go:53`).

## Model

| member | source | states |
|---|---|---|
| `RaftCommit.StateMachineSafety` | raft/raft.go:576-597 | in every guarded run, with compaction, snapshots and crashes, two commands handed to the services at the same index are the same, whoever applied them and when |
| `RaftCommit.CommittedStays` | raft/appendentries_rpc.go:80-103 | in every guarded run, a server's whole log up to an index it once had committed or compacted is never overwritten, not even after a crash resets the commit index |
| `RaftCommit.CommittedPrefixesAgree` | raft/raft.go:275-293 | in every guarded run, what any two servers at any two moments have committed or compacted agrees on the common length of their whole logs |
| `RaftCommit.CommittedEntriesAgree` | raft/raft.go:599-605 | the same for the entries that the two servers still store, each at its index minus the snapshot index |
| `RaftCommit.LeadersHoldCommitted` | raft/raft.go:282-290 | leader completeness in every guarded run: whatever a server has committed, every leader of that term or a later one holds |
| `RaftCommit.PlainAfter` | raft/raft.go:543-570 | every run without compaction is guarded: no leader ever probes from beyond its log |
| `RaftOverrun.CompactionDiverges` | raft/raft.go:561-570 | a run of three servers in which two of them apply different commands at index 2 |
| `RaftOverrun.CompactionKillsLeader` | raft/raft.go:276-282 | a run of three servers that ends with a reply in the network on which the leader would index past its log |
| `RaftAgreed.OneAgreedLog` | raft/raft.go:576-597 | in every guarded run there is one log of which every server, at every moment, has committed or compacted a prefix |
| `RaftAgreed.AppliesAgreedLog` | raft/raft.go:576-597 | in every guarded run one pass of the apply loop stays inside the log and hands out exactly the committed indices of the agreed log that are neither applied nor covered by the snapshot, in order, and covers them |
| `RaftValidity.OnlyStartedInWhole` | raft/raft.go:391-398 | in all runs, every entry after the first of the whole log behind a server holds a command that some client started before |
| `RaftValidity.OnlyStartedCommands` | raft/raft.go:391-398 | in all runs, so does every entry that a server stores, but for the placeholder |
| `RaftToStore.StoreFollowsLog` | kvraft/server.go:189-204 | in every run without compaction, the store that a server's apply loop feeds, and a crash empties, is at every moment the fold of the agreed log up to what the server has applied |
| `RaftToStore.StoresFollowOneLog` | raft/raft.go:576-597 | there is one sequence of commands such that every server's store is, at every moment, the fold of a prefix of it |
| `RaftTheorems.OneLeaderPerTerm` | raft/raft.go:215-250 | election safety in all runs, with compaction and crashes: two leaders of one term, at any two moments, are the same server |
| `RaftTheorems.VoteCountSound` | raft/raft.go:233-235 | for a candidate's vote count there is a set of that many distinct servers, each of which held a vote for it in its term at some moment of the run |
| `RaftTheorems.BallotsWereCast` | raft/requestvote_rpc.go:54-67 | every recorded ballot was held by its voter at some moment of the run |
| `RaftTheorems.LogMatchingInRuns` | raft/appendentries_rpc.go:67-93 | log matching in all runs, with compaction: behind the peers there are whole logs with entry `k` at index `k`, and equal terms at an index mean equal logs up to it |
| `RaftTheorems.StoredLogsMatch` | raft/installsnapshot_rpc.go:62-79 | the same for the entries two peers still store, each at position index minus snapshot index |
| `RaftCommit.MatchIndexSound` | raft/raft.go:275-297 | without compaction, next indices stay within the leader's log and a follower still in the leader's term agrees with it up to its match index |
| `RaftCommit.RepliesAreSafe` | raft/raft.go:257-297 | in every guarded run, a success the leader accepts answers a request of its own term, and no reply makes it read outside its log |
| `RaftCommit.FollowerCommitRule` | raft/appendentries_rpc.go:96-101 | in every guarded run, because every request carries the whole tail, cutting the leader's commit index off at the local end equals the paper's last-new-entry rule |
| `RaftCommit.ApplyIsSafe` | raft/raft.go:580-593 | in every guarded run, the commit index never lies beyond the log, so the apply loop never reads outside it |
| `RaftSteps.StepKeeps` | raft/raft.go:215-597 | every step of every peer keeps the invariants of logs, ballots, leaders and acknowledgements |
| `RaftSafeSteps.SafeStepKeeps` | raft/raft.go:257-368 | every guarded step, compaction and snapshots included, keeps the commitment invariants |
| `RaftSafeSteps.MajorityChooses` | raft/raft.go:282-290 | counting match indices of an entry of the current term establishes that a majority acknowledged it |
| `RaftSafeSteps.SnapshotReplySafe` | raft/raft.go:306-331 | a snapshot reply, of whatever term its request was, moves a match index only to where the leader's log is committed |
| `RaftCore.LeaderCompleteness` | raft/requestvote_rpc.go:54-67 | what a majority acknowledged in a leader's term is in the log of every later leader |
| `RaftCore.UpToDateHolds` | raft/requestvote_rpc.go:58-58 | a candidate that passes the up-to-date check against a voter that holds a chosen prefix holds it too |
| `RaftCore.ElectionSafety` | raft/raft.go:233-247 | a candidate with a majority of ballots is the first leader of its term |
| `RaftCore.AcceptKeeps` | raft/appendentries_rpc.go:80-93 | taking over a prefix of the current leader's log keeps all history invariants |
| `RaftCore.WinKeeps` | raft/raft.go:233-247 | becoming leader with a majority keeps all history invariants |
| `RaftCore.AppendOwnKeeps` | raft/raft.go:391-398 | a leader's own append keeps all history invariants |
| `RaftSteps.MergeIsAccept` | raft/appendentries_rpc.go:82-93 | merging a piece of a leader's log into a follower's log gives the follower's log if it already holds the piece, and otherwise the leader's prefix |
| `RaftCompaction.VoteRefines` | raft/requestvote_rpc.go:55-58 | voting on a compacted log gives the vote, the term and the state of voting on the whole log |
| `RaftCompaction.AppendRefines` | raft/appendentries_rpc.go:50-103 | for a previous index not below the snapshot, appending to a compacted log gives the verdict, term, whole log and commit index of the uncompacted one, and its conflict index cut off at the snapshot |
| `RaftCompaction.CompactRefines` | raft/raft.go:342-361 | compaction does not change the whole log behind a peer |
| `RaftCompaction.SnapshotRefines` | raft/installsnapshot_rpc.go:62-79 | an installed snapshot leaves the follower's whole log if that has the last included entry, and the leader's prefix otherwise |
| `RaftCompaction.StoredIndices` | raft/raft.go:599-605 | each stored entry's global index is the snapshot index plus its position |
| `RaftCompactionEdge.ProbeFaithfulIff` | raft/raft.go:561-570 | a probe carries the leader's log from its previous index on, with the term found there, if and only if the next index has not passed the leader's last index plus one |
| `RaftCompactionEdge.RefusalOvershootsIff` | raft/appendentries_rpc.go:53-59 | a refusal pushes the next index past the leader's log if and only if the follower's snapshot is ahead of the probe and its log is longer |
| `RaftRules.VoteGrantedIff` | raft/requestvote_rpc.go:30-73 | a request not older than the voter's term is granted if and only if the voter is free in that term, or has voted for this candidate, and the log the candidate campaigned with is up to date with the voter's whole log; the reply carries the larger term |
| `RaftRules.VotesGrantedIff` | raft/requestvote_rpc.go:54-67 | the same for every vote request in flight in every run |
| `RaftRules.CampaignAsksAll` | raft/raft.go:485-514 | a campaign raises the term and asks every other server, with the end of the whole log |
| `RaftRules.CountRule` | raft/raft.go:218-250 | a granted vote is counted, and makes a leader if and only if the count is more than half; the new leader starts every follower at the end of its whole log |
| `RaftRules.ProbeRule` | raft/raft.go:543-574 | a leader is never silent; it sends its snapshot if and only if that covers the next index, with the term of the whole log there, and otherwise its whole log from the next index on |
| `RaftRules.AnswerRule` | raft/appendentries_rpc.go:24-77 | a request not older than the follower's term succeeds if and only if the whole log, from the snapshot on, has the entry it starts from; a refusal names the end of the log, or the start of the run of terms in the way |
| `RaftRules.AcceptRule` | raft/appendentries_rpc.go:80-103 | an accepted request merges its entries into the whole log and moves the commit index as far as that allows |
| `RaftRules.ReplyRule` | raft/raft.go:257-299 | a refusal moves the next index to the conflict; news of a success moves both indices; the commit index follows if and only if a majority matches an entry of the leader's own term; the read outside the log happens exactly for an uncommitted index that is not stored |
| `RaftRules.OtherReplyRule` | raft/raft.go:262-271 | a newer reply deposes the leader, an older one is ignored |
| `RaftRules.CompactRule` | raft/raft.go:333-368 | compaction happens if and only if the index is past the snapshot and in the log; it leaves the entries from there on, and the whole log; otherwise nothing changes |
| `RaftRules.InstallRule` | raft/installsnapshot_rpc.go:18-98 | a snapshot is installed if and only if it is not of an older term and ahead of the own snapshot and of the commit index |
| `RaftRules.SnapshotReplyRule` | raft/raft.go:306-331 | after an answer in its own term the leader goes on right behind the snapshot |
| `RaftRules.ApplyRule` | raft/raft.go:576-597 | one pass hands out exactly what is committed and not covered, and covers it |
| `RaftBackup.StepsBack` | raft/raft.go:294-297 | every refusal of a probe that is not before the follower's snapshot, once the leader has handled it, strictly lowers the next index |
| `RaftBackup.RefusedRound` | raft/appendentries_rpc.go:50-77 | a refused probe and its reply change nothing but terms and where the leader tries next, which is the end of the log or the start of the run in the way |
| `RaftBackup.AcceptedRound` | raft/appendentries_rpc.go:80-103 | a probe from an entry that both have, with its reply, gives the follower the leader's whole log, and the leader knows |
| `RaftBackup.SnapshotRound` | raft/raft.go:551-560 | a snapshot and its reply leave the follower with the leader's entry there, if it was not ahead, and the leader goes on right behind it |
| `RaftBackup.BackupConverges` | raft/appendentries_rpc.go:50-107 | a leader that starts well and a follower that is not stuck, with compacted logs or not, end in acceptance after at most four rounds and one per run of terms in the follower's log, each a probe or snapshot from within the leader's log, its answer and the leader's handling of it |
| `RaftBackup.NeverCatchesUp` | raft/appendentries_rpc.go:53-77 | a stuck follower never catches up, whatever the number of rounds |
| `RaftBackup.CatchUpIff` | raft/raft.go:543-574 | the follower of a new leader catches up, left alone with it, if and only if it is not stuck |
| `RaftBackup.CatchUpWithinIff` | raft/raft.go:543-574 | wherever the leader is with a follower, it can bring it up to its log with probes from within that log alone if and only if it already has, or it starts well (the next index is not past its log, and past the follower's snapshot unless its own snapshot or log reaches as far) and the follower is not stuck or the next probe hits an entry both have |
| `RaftCatchUp.CatchUpInRuns` | raft/raft.go:257-331 | in every guarded run, a leader that starts well and a follower that is not stuck have a guarded continuation of probes, snapshots, deliveries and replies alone, of bounded length, after which the follower's whole log agrees with the leader's to its end, the leader knows, and commits it if a majority has it |
| `RaftCatchUp.CatchUpInRunsIff` | raft/raft.go:543-574 | in every guarded run, the follower of a new leader catches up, left alone with it, if and only if it is not stuck |
| `RaftCatchUp.CatchUpWithinInRunsIff` | raft/raft.go:543-574 | the same in every guarded run, for every leader and every server not beyond its term |
| `RaftStuck.FollowerStuck` | raft/appendentries_rpc.go:53-77 | a guarded run of three servers whose leader probes its follower in a circle for ever |
| `RaftOwnIndex.LeaderKnowsItself` | raft/raft.go:391-398 | in all runs, a leader's next and match index for itself are those of its own log |
| `RaftElect.SomebodyReigns` | raft/raft.go:215-250 | every run without compaction of two servers or more can be carried on, without a crash or a new command, to a leader whose term nobody is beyond |
| `RaftElect.LonelyNeverLeads` | raft/raft.go:233-247 | a cluster of one server never has a leader, because votes are counted only when a reply comes in |
| `RaftProgress.Progress` | raft/raft.go:383-404 | every run without compaction of two servers or more can be carried on, without a crash, until all servers have applied any given command, at one index |
| `RaftServer.Raft.constructor` | raft/raft.go:429-470 | starting from a persister restores the saved state with volatile fields reset and keeps the saved snapshot |
| `RaftServer.Raft.BroadcastVote` | raft/raft.go:485-514 | an election starts exactly if the peer is not leader, and memory and disk agree afterwards |
| `RaftServer.Raft.RequestVote` | raft/requestvote_rpc.go:30-73 | the vote handler that `RaftRules.VoteGrantedIff` describes, with memory and disk in agreement afterwards |
| `RaftServer.Raft.ProcessVoteReply` | raft/raft.go:218-250 | the vote reply handler that `RaftRules.CountRule` describes, likewise |
| `RaftServer.Raft.InitLeader` | raft/raft.go:237-244 | the loop sets every next index to the end of the log and every match index but its own to 0 |
| `RaftServer.Raft.Start` | raft/raft.go:383-404 | a leader appends the command under the index it returns; others are left as they are |
| `RaftServer.Raft.CheckConsistency` | raft/raft.go:543-574 | the probe that `RaftRules.ProbeRule` describes, without a change of state; with a snapshot goes the payload on disk |
| `RaftServer.Raft.ConflictStart` | raft/appendentries_rpc.go:69-77 | the backward scan ends at the first entry of the run of equal terms |
| `RaftServer.Raft.MergeEntries` | raft/appendentries_rpc.go:82-93 | the forward loop keeps what matches and replaces the rest, and reports whether it did |
| `RaftServer.Raft.Reconcile` | raft/appendentries_rpc.go:50-107 | the three conflict cases and the success case of the model |
| `RaftServer.Raft.AppendEntries` | raft/appendentries_rpc.go:24-112 | the append handler that `RaftRules.AnswerRule` and `AcceptRule` describe, with memory and disk in agreement afterwards |
| `RaftServer.Raft.CountMatched` | raft/raft.go:281-288 | the counting loop counts the servers whose match index reaches the index |
| `RaftServer.Raft.ProcessAppendReply` | raft/raft.go:257-299 | the append reply handler that `RaftRules.ReplyRule` describes, or the report that it would index past the log |
| `RaftServer.Raft.Compact` | raft/raft.go:333-368 | the compaction that `RaftRules.CompactRule` describes, with memory and disk in agreement afterwards; the snapshot on disk is replaced exactly when the snapshot index moves |
| `RaftServer.Raft.InstallSnapshot` | raft/installsnapshot_rpc.go:18-98 | the snapshot handler that `RaftRules.InstallRule` describes, likewise; the service is told exactly of what is installed, unless it is empty |
| `RaftServer.Raft.ProcessSnapshotReply` | raft/raft.go:306-331 | the snapshot reply handler that `RaftRules.SnapshotReplyRule` describes, likewise |
| `RaftServer.Raft.ApplyCommitted` | raft/raft.go:576-597 | the apply loop hands out exactly the messages that `RaftRules.ApplyRule` describes and advances the applied index; with a commit index beyond the log it hands out what is there and dies |
| `RaftServer.Recover` | raft/raft.go:138-177 | a restarted peer is the crashed one with its volatile state reset and its disk as it was |
| `Word64.PopCountCorrect` | linearizability/bitset.go:47-51 | the masked additions and the wrapping multiplication give the number of set bits, for every 64-bit word |
| `Word64.FoldsBits` | linearizability/bitset.go:47-47 | adding neighbouring bits keeps the sum over all lanes, so no two-bit lane overflows |
| `Word64.FoldsPairs` | linearizability/bitset.go:48-48 | the same for four-bit lanes |
| `Word64.FoldsNibbles` | linearizability/bitset.go:49-49 | the same for bytes |
| `Word64.SetBit` | linearizability/bitset.go:27-42 | setting or clearing one bit changes that bit and no other |
| `Bitset.NewBitset` | linearizability/bitset.go:8-15 | room for the given number of positions, and none of them set |
| `Bitset.Clone` | linearizability/bitset.go:17-21 | a fresh array with the same words |
| `Bitset.Set` | linearizability/bitset.go:27-31 | adds one member to the set the array stands for |
| `Bitset.Clear` | linearizability/bitset.go:33-37 | removes one member from the set the array stands for |
| `Bitset.Popcnt` | linearizability/bitset.go:44-54 | the size of the set the array stands for |
| `Bitset.Hash` | linearizability/bitset.go:56-62 | a function of the words alone |
| `Bitset.Equals` | linearizability/bitset.go:64-74 | equality of the words, and for equal lengths equality of the sets |
| `Bitset.MembersDecide` | linearizability/bitset.go:5-15 | arrays of one length that stand for the same set have the same words, hence the same hash |
| `Cache.CacheContains` | linearizability/linearizability.go:133-140 | looking in one bucket finds a pair if and only if an equal (set, state) pair was ever inserted |
| `Cache.InsertHolds` | linearizability/linearizability.go:187-188 | inserting a pair adds exactly that pair to what the cache holds |
| `Checker.Remember` | linearizability/linearizability.go:184-191 | the pair is looked up and stored under a copy of the set, which later updates of the set do not reach |
| `EventList.RelinkUndoesUnlink` | linearizability/linearizability.go:157-165 | putting a node back restores every link of the list |
| `EventList.UnlinkChain` | linearizability/linearizability.go:147-155 | taking out a node takes exactly that one off the list |
| `EventList.LiftChain` | linearizability/linearizability.go:147-155 | taking out a call and its return, next to each other or not, leaves the list of the others in order |
| `EventList.Lift` | linearizability/linearizability.go:147-155 | the pointers of all nodes are those of the list without the pair |
| `EventList.Unlift` | linearizability/linearizability.go:157-165 | the pointers of all nodes are again those before the lift |
| `Entries.InsertBefore` | linearizability/linearizability.go:59-70 | the node comes right before the mark, in whatever list the mark is in |
| `Entries.Length` | linearizability/linearizability.go:72-79 | the number of nodes in the list |
| `Entries.LinkEntries` | linearizability/linearizability.go:109-126 | fresh nodes in the order of the entries, with each call pointing at the node of its own return |
| `Entries.MakeEntries` | linearizability/linearizability.go:37-49 | the sorted entries have at least the real-time order of the history, and exactly that order if no return and call share an instant |
| `Entries.SortByTime` | linearizability/linearizability.go:23-35 | the entries in order of time, rearranged and nothing else |
| `CheckHistory.TieIsRefused` | linearizability/linearizability.go:47-47 | a linearizable history with a tie, and entries of it sorted by time that tell a history that is not linearizable |
| `CheckHistory.SortingFaithfulIff` | linearizability/linearizability.go:23-49 | every arrangement of the entries by time tells the real-time order of the history if and only if no return and call share an instant |
| `Pending.LeftWithout` | linearizability/linearizability.go:147-155 | the list without the call and the return of an operation is the original list minus everything done |
| `Search.DeadEnd` | linearizability/linearizability.go:200-211 | a configuration with something left to do is dead once every move from it is |
| `Search.LinearizableIffAlive` | linearizability/linearizability.go:167-214 | the initial configuration can be completed if and only if the history is linearizable |
| `Search.AdvanceKeeps` | linearizability/linearizability.go:194-199 | skipping a call that is rejected or leads to a remembered pair loses no linearization |
| `Search.PopKeeps` | linearizability/linearizability.go:204-210 | backing out of a dead configuration loses no linearization |
| `Search.FewerUnknown` | linearizability/linearizability.go:186-193 | entering a new pair uses up one of the finitely many reachable ones |
| `Walk.PushGood` | linearizability/linearizability.go:187-193 | entering a call keeps what holds of branch, cache, list and cursor |
| `Walk.PopGood` | linearizability/linearizability.go:204-210 | leaving a dead configuration keeps it, with the cursor behind the call that led there |
| `Walk.AdvanceGood` | linearizability/linearizability.go:194-199 | passing over a call keeps it, and the cursor does not run off the list |
| `Checker.TryCall` | linearizability/linearizability.go:180-199 | one turn over a call keeps the invariant and comes closer to the end of the search |
| `Checker.Backtrack` | linearizability/linearizability.go:204-210 | one turn over a return restores list, set, state and stack of the depth before |
| `Checker.CheckSingle` | linearizability/linearizability.go:167-214 | the search ends; `true` means that the history is linearizable, `false` that it is not, unless the last look at the kill flag saw it set |
| `CheckHistory.CheckOperations` | linearizability/linearizability.go:241-246 | from operations to the verdict: `true` is always right; without ties `false` is right unless the last look at the kill flag saw it set |
| `Events.Renumber` | linearizability/linearizability.go:81-95 | events get equal new ids if and only if they had equal ids, numbered by first appearance |
| `Events.CheckEvents` | linearizability/linearizability.go:278-289 | from events with arbitrary ids to the same verdict, with the same exception |
| `CheckHistory.OneKeySameVerdict` | linearizability/models.go:29-48 | events are searched in one piece with the one-key model, which is the verdict on the map if there is one key |
| `CheckHistory.TwoKeysRefused` | linearizability/model.go:24-29 | with two keys it is not: for any two keys, a history of the map that the one-key model refuses |
| `CheckHistory.ModelsAgreeIff` | linearizability/models.go:15-51 | the one-key model and the map agree on all histories over a set of keys if and only if the set has at most one key |
| `Locality.StepByKey` | linearizability/models.go:34-48 | a step of the map is a step of its key and leaves the other keys alone |
| `Locality.Partition` | linearizability/models.go:17-28 | one part per key of the history, each the operations on that key in order |
| `Locality.WholeToKey` | linearizability/model.go:24-28 | a linearization against the map, cut down to one key, is one of that key |
| `Locality.Merge` | linearizability/model.go:24-28 | legal orders of all keys merge into one of the map, always taking the head of the key that owns the earliest return |
| `Locality.PartitionIsSound` | linearizability/model.go:24-28 | a history is linearizable against the map if and only if each part is against the single string |
| `FanIn.FalseIsGenuine` | linearizability/linearizability.go:253-269 | for every arrival order, with or without a timeout, a false verdict on parts without ties comes from a part that fails |
| `FanIn.VerdictIsExact` | linearizability/linearizability.go:253-269 | without a timeout, a finished collection that says yes is right, and for parts without ties it says whether all parts pass |
| `FanIn.StillWaiting` | linearizability/linearizability.go:251-264 | with a part to search, every run of the collection can be carried on to its end without the timeout |
| `FanIn.NothingToWaitFor` | linearizability/linearizability.go:253-264 | without parts and without a timeout the collection never ends |
| `FanIn.ExactIff` | linearizability/linearizability.go:233-270 | for parts without ties, all finished collections are exact if and only if no timeout is asked for or no part fails |
| `FanIn.ExpireAtOnce` | linearizability/linearizability.go:233-234 | a timeout can report success before any part has reported |
| `FanIn.KvVerdict` | linearizability/linearizability.go:235-270 | for every arrival order, a finished collection that says yes is right about the key/value history and the map; for a history without ties it says whether that is linearizable |
| `FanIn.CheckKv` | linearizability/linearizability.go:229-270 | partition, search and collection with the searches one after the other: yes is right, and without ties no is |
| `KvStore.SeenIffReached` | kvraft/server.go:195-204 | the duplicate table has a command if and only if that command or a later one of its client is in the log |
| `KvStore.ReplayChangesNothing` | kvraft/server.go:195-204 | replaying applied commands, in any order and number, changes nothing |
| `KvStore.AtMostOnce` | kvraft/server.go:195-204 | no command takes effect twice |
| `KvStore.OnceIffNotOvertaken` | kvraft/server.go:195-204 | a command takes effect if and only if no later command of its client entered the log before it |
| `KvStore.OvertakenIsLost` | kvraft/server.go:195-204 | a log in which a command is overtaken and never takes effect |
| `KvStore.FoldIsOnceEach` | kvraft/server.go:189-204 | with first occurrences in order, the database is that of executing each command once |
| `KvReplica.StepKeeps` | kvraft/server.go:189-241 | delivery, compaction, sending, installing and handing over of snapshots, and restarts keep every store, saved and sent snapshot a fold of the agreed log, as long as nothing overtakes an installed snapshot |
| `KvReplica.ReplicaIsFold` | kvraft/server.go:189-241 | in every such run, a replica with no snapshot on its way has the database and duplicate table of the agreed log up to the larger of applied and snapshot index |
| `KvReplica.CanCatchUp` | raft/raft.go:576-597 | a replica with no snapshot on its way can be given, in order, all of the agreed log it has not covered |
| `KvReplica.SnapshotCanSpread` | kvraft/server.go:223-241 | a compaction asked for can be done and its snapshot sent, installed and handed over, which brings a server behind it up to it |
| `KvReplica.OvertakenSnapshotLoses` | raft/installsnapshot_rpc.go:76-98 | a run in which a command overtakes an installed snapshot and is lost, although Raft has handed it out |
| `KvReplica.RedeliveryIsHarmless` | raft/raft.go:582-592 | whatever a replica is given again of what it covers leaves it as it is |
| `KvServer.KVServer.Enact` | kvraft/server.go:195-204 | the database and the table after a command |
| `KvServer.KVServer.DealWithCommand` | kvraft/server.go:189-230 | the store after the command, the message in its stub, and a snapshot exactly if Raft's state is too large |
| `KvServer.KVServer.DealWithSnapshot` | kvraft/server.go:232-240 | the snapshot replaces the store, older or newer; waiting messages stay true if it has seen all that the store had |
| `KvServer.KVServer.SeenCmd` | kvraft/server.go:274-279 | whether the store has seen the command |
| `KvServer.KVServer.AwaitIndex` | kvraft/server.go:249-254 | a stub for the index, without losing a message that is already there |
| `KvServer.KVServer.TakeDone` | kvraft/server.go:256-267 | success exactly for the waiting command itself, which the store has then seen; another's message stays |
| `KvServer.KVServer.AnswerGet` | kvraft/server.go:76-89 | the value of the key, the news that it is missing, or failure |
| `KvServer.LongerCovers` | kvraft/server.go:232-240 | a later prefix of the agreed log has seen all that an earlier one has |
| `KvServer.LateSnapshotHarmlessIff` | kvraft/server.go:232-240 | a snapshot of fewer commands than the server has applied leaves it as it is if and only if none of the commands between had an effect |
| `KvServer.Clerk.Call` | kvraft/client.go:49-127 | all attempts of a call carry one number; the call ends with the first attempt answered `OK`, or for a read with the news that the key is missing, and with that value; the leader guess moves once per earlier attempt that was lost or reached a server that is not leader |
| `KvServer.ReadFrom` | kvraft/client.go:49-87 | a read answered by a server ends if and only if the operation was done there, with what the database has under the key; otherwise the clerk turns to the next server if and only if this one is not leader |
| `KvServer.WriteTo` | kvraft/client.go:99-127 | a write answered by a server ends if and only if the operation was done there |
| `KvService.StepKeeps` | kvraft/server.go:56-128 | every call, submission, server move, answer and return keeps the service invariant |
| `KvService.OwnEntry` | kvraft/server.go:274-279 | a server that has seen a pending command covers a prefix that holds that very command |
| `KvService.LogInOrder` | kvraft/client.go:51-54 | with one call at a time per clerk, first occurrences enter the log in order |
| `KvService.CallCanReturn` | kvraft/server.go:56-128 | whatever has happened, a pending call can enter the log, reach a server, be answered and return |
| `KvLinear.RanksFollowTime` | kvraft/server.go:56-128 | a call that returned before another was made is placed before it |
| `KvLinear.WriteBucket` | kvraft/server.go:195-204 | the calls placed at a log entry do to the map what the entry does to the database |
| `KvLinear.ReadBucket` | kvraft/server.go:76-89 | the reads answered from a prefix of the log are right for the database of that prefix |
| `KvLinear.EveryRunLinearizable` | kvraft/server.go:56-128 | every run of the service, seen at any moment, is linearizable against the map |
| `KvCluster.OrderlyGuarded` | kvraft/server.go:223-230 | every orderly run of clerks, servers and Raft is a guarded run of Raft: servers ask for compaction only up to what they have applied |
| `KvClusterStores.EventStores` | kvraft/server.go:189-241 | every orderly event keeps each store, disk, requested compaction, snapshot in the network and snapshot on its way to a server a fold of the agreed log up to its index |
| `KvClusterLinear.EventKeeps` | kvraft/server.go:56-241 | every orderly event of the joint machine is a step of the service over the agreed log, or makes that log longer by submitted commands |
| `KvClusterLinear.ServerStore` | kvraft/server.go:189-204 | in the joint machine each server's store is the fold of the agreed commands up to where it has come |
| `KvClusterLinear.ClusterLinearizable` | kvraft/server.go:56-241 | every orderly run of clerks, servers and Raft, with compaction, snapshots and crashes, seen at any moment, has one agreed log of which the stores are folds, and is linearizable against the map |
| `KvClusterLinear.PlainLinearizable` | kvraft/server.go:56-230 | every run without compaction is orderly, and so linearizable |
| `KvClusterLinear.FinishedLinearizable` | kvraft/client.go:49-127 | once all calls have returned, what the clerks recorded is linearizable |
| `KvClusterProgress.CallsCanReturn` | kvraft/client.go:49-127 | in every run without compaction of two servers or more, a call that has not returned can still return: its command goes through Raft to all servers, and one answers |
| `KvClusterProgress.NewCallsCanReturn` | kvraft/client.go:49-127 | a clerk with no call outstanding can make any call, and that can return |
| `KvClusterSnapshots.CanCompact` | kvraft/server.go:223-230 | a server with committed entries to apply can apply them and compact its log up to the last of them; its disk then holds its store |
| `KvClusterSnapshots.CanHandOver` | kvraft/server.go:232-240 | a leader whose snapshot is ahead of a follower can hand it over; the follower's store and disk are then what the leader had on disk |
| `EndToEnd.QuietHistory` | kvraft/client.go:49-127 | once all calls have returned, the history is what the clerks saw, with no ties |
| `EndToEnd.AcceptQuietRun` | linearizability/linearizability.go:229-231 | the checker accepts the history of every finished run of the service |
| `EndToEnd.QuietRunAccepted` | linearizability/linearizability.go:235-270 | so does the collection of concurrent searches, in every arrival order |
| `EndToEnd.ClusterRunAccepted` | linearizability/linearizability.go:235-270 | the same for what the clerks of the joint machine recorded in an orderly run |

## Left out

- Timers, sleeps, election randomness, daemon scheduling, `Kill` and channel capacities: a timeout is a step that may happen at any time.
- Progress is stated as what can still happen after every run, not as what fair timers and a fair network make happen.
- Progress of the whole cluster with compaction: `RaftProgress` and `KvClusterProgress` are about runs without; with it, `RaftCatchUp` has the exact condition for one leader and one follower.
- The converse of the guard: a run in which a leader probes from beyond its log need not diverge; `RaftOverrun` shows that it can, and `RaftCompactionEdge` says exactly when a probe and a refusal go wrong.
- The converse of orderly runs for snapshots: `KvReplica` shows that a command that overtakes a snapshot can be lost, `KvServer` when a late snapshot does no harm; that every such run fails is not claimed.
- Steps in which a process dies by an index out of range: `None` in the handlers, and then not part of a run.
- The channel objects behind `applyStub`, their closing, and the handlers' waiting in between: a stub is the message it holds.
- Gob encoding and the sizes of saved state: the disk is a value, the size a parameter.
- Wrap-around of 64-bit client and command numbers.
- `labrpc` and `labgob`: only the lossy, reordering network is modelled.
- `fillDefault`: models here always have an equality and a partition.
- `mapreduce`, `shardmaster`, `shardkv`, `main` and the test harnesses: empty stubs, input and output, or wrappers.
- Entries.SortByTime: stands for the library's sort, which promises nothing about entries of equal time.
- Bitset.Hash: says that the hash depends on the words alone, not how well it spreads.
- KvServer.Clerk.Call: retries without end are cut off at the given outcomes.
