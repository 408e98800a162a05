# A verified model of the Raft key-value store

The repository is a Raft cluster in C++: `RaftNode` runs elections, replication, commit and apply over a persistent
`Storage`; `RPC`, `LogEntry`, `Command` and `crc32` define the bytes on the wire and on disk; `StateMachine` is the
key-value map. This project models that code in Dafny and proves what it is for: that nodes never disagree about
what was applied, over every cluster size and every interleaving of calls, losses, delays and crashes.

`dafny verify dfyconfig.toml` checks everything.

## How the model is built

**The cluster** (`Nodes`, `Clusters`). A node is a value with term, vote, log, role, commit, applied, database,
nextIndex, matchIndex and, while `startElection` has released the lock, the state of that loop. Each protocol action
is one function on it and one event of the cluster. Calls and replies are only ever added to the world, so each may be
handled late, repeatedly or never; a reply is stored with its call, because it carries no index. A crash may fall
between the two metadata writes of a term change, right after them, inside the append pass of a merge, or between any
two actions. Three kinds of runs are used:

| run | allows | used for |
|---|---|---|
| `IsRun` | everything, including sends and replies handled by a node that no longer leads, and restarts | Election Safety, Log Matching |
| `GuardedRun` | sends only while leading; a positive reply is used only while still leading the term it answers; restarts | Leader Completeness, matchIndex soundness, catch-up |
| `SteadyRun` | guarded, and everything in the log a node restarts with lies below an index that a majority had by then confirmed to the leader of its term, a term no later than the node's | State Machine Safety, client guarantees |

The code does not enforce these conditions: the send loops (include/RaftNode.h:132-134, 220-222, 263-265) never look at
the role again, replies (158-169) are not compared with the current term, and `replay` (40-50) counts the whole log as
committed. `Counterexamples`, `StaleReplies` and `StaleRestarts` contain, for each of them, a run in which one action
violates it and different entries are applied at one index; the last also shows that a restart is unsafe when the log
was committed only in a term the node has not reached. The condition on sends is exact for the invariant behind Leader
Completeness (`SendGuard.SendGuardExactly`), the one on restarts for the invariant behind State Machine Safety
(`Safety.RestartKeptExactly`). For safety itself the latter is sufficient, not necessary: `TwoNodes` has a restart that
violates it and that nothing afterwards can turn into a contradiction. A node can check a part of it by itself, namely
that its own commit index has reached the end of its log (`Safety.CommittedLogIsCovered`).

**Clients.** `submit` waits for an index and not for its entry, and `get` asks after waiting whether its node leads; so a
`submit` can return with another command in its place, and a `get` can miss a write that had returned before it was
called, as two runs show. One more comparison in the wait loop, of the term at the awaited index with the term of the
append, is exactly what is missing: it holds if and only if the call's own entry is in place, and under it calls that do
not overlap take effect in order and reads see all earlier writes and reads, whoever leads by then.

**The proof** (`Histories`, `ElectionProof`, `LogProof`, `CompletenessProof`, `CommitProof`, `Runs`). A history, which
no node reads, records votes, reigns, each leader's log, the log behind each message and how far nodes have confirmed a
leader's log. Four invariants are kept by every step; `Safety` turns them into statements about worlds alone.

**The other side** (`Effects`, `Reactions`, `ElectionRuns`, `CallRuns`, `CatchUpRuns`). Safety alone would hold of a
cluster that does nothing. These modules state what every action must bring about, exactly and without the functions that
compute it: when a vote is granted, what a reply of a later term does, how far the commit index moves, which fields an
event may touch. And they show that runs can go on: candidates can win, peers can catch up, accepted calls can return.

**The objects** (`Storages`, `RaftNodes`, `Delivery`). Classes with the program's fields and loops; every method is
proved to compute the function of the same name on the node value, and a whole RPC through bytes has the effect the
cluster model gives it.

**The formats** (`Integers`, `Crc32`, `Codec`, `CodecLoops`, `Rpc`, `Layout`, `Corruption`). Printers, parsers, the loops
that implement them, the place and byte order of every field, and the table-driven CRC against division one bit at a
time.

## Model

| member | source | states |
|---|---|---|
| Safety.StateMachineSafety | include/RaftNode.h:178-208 | two nodes that have applied an entry at an index, at whatever moments of a steady run, applied the same entry |
| Safety.DatabasesAgree | include/RaftNode.h:198-208 | nodes that have applied equally many entries, at whatever moments, hold the same key-value map |
| Safety.RestartKeptExactly | include/RaftNode.h:40-50 | after a steady beginning, a restart, whatever it interrupts, keeps the invariant behind State Machine Safety if and only if everything in the log it leaves lies below an index chosen by then in a term no later than the node's |
| Safety.CommittedIsCovered | include/RaftNode.h:40-50 | a log that some node, in no later term, had in its committed prefix meets that condition |
| Safety.CommittedLogIsCovered | include/RaftNode.h:46-49 | so does the log of a node whose own commit index has reached its end |
| Safety.CommittedPrefixesAgree | include/RaftNode.h:356-410 | of two committed prefixes, on any nodes at any moments, one is a prefix of the other |
| Safety.CommittedStays | include/RaftNode.h:384-399 | commit indices never fall; truncation never removes or replaces a committed entry |
| Safety.AppliedIsFold | include/RaftNode.h:198-208 | between actions lastApplied equals commitIndex, does not exceed the log, and the map is the fold of exactly that prefix, each entry once and in order |
| Safety.LeaderCompleteness | include/RaftNode.h:178-196 | what the majority scan of a leader of term t commits is in the log of every leader of every later term, restarts allowed |
| Safety.ChosenSurvives | include/RaftNode.h:343-348 | an index that a majority has confirmed to the leader of its entry's term is in the log of every leader of every later term, whether or not any scan ever commits it |
| Safety.FollowerCommitSound | include/RaftNode.h:402-405 | an accepted message reaches its own leaderCommit, so the cap at the follower's last index never bites, and what becomes committed is what its sender held while leading |
| Safety.ElectionSafety | include/RaftNode.h:108-116 | at most one node ever leads a term, over all runs, with a crash possible between and after the writes of term and vote |
| Safety.TallyByRoleIsSound | include/RaftNode.h:75-112 | a node that is still a candidate at the tally is in the term it asked votes for, and a win means a majority voted for it in that term |
| Safety.LogMatching | include/RaftNode.h:379-399 | two logs or messages, at any moments of any run, that name the same term at an index, prevLogIndex and prevLogTerm included, hold the same entries and name the same terms at every common index up to it |
| Safety.LogsBehindMatch | include/RaftNode.h:137-149 | under the same premise both are windows into logs that nodes once held and that are identical up to that index |
| Safety.EntriesComeFromLeaders | include/RaftNode.h:127-129 | every entry, in a log or in a message, was in the log of a leader of its term, behind the same entries |
| Safety.MessagesAreNumbered | include/RaftNode.h:143-149 | the entries of every message of every run are numbered on from its prevLogIndex |
| Safety.MatchIndexSound | include/RaftNode.h:154-175 | while leader and peer are in one term the peer's log agrees with the leader's up to matchIndex; nextIndex stays in 1..last+1 |
| Safety.CallsAreEvents | include/RaftNode.h:255-283 | a refused call changes nothing; an accepted one appends its entry behind the log and waits for exactly that entry's index |
| Safety.OwnEntryExactly | include/RaftNode.h:255-275 | at any moment of any run, on any node that reaches the index a call was given, the term there is the call's term if and only if the call's own entry is there behind everything its leader had |
| Safety.SubmitGuarantee | include/RaftNode.h:255-275 | when the wait for the returned index is over it is committed and applied, and the own command stands at it if and only if the term there is unchanged; leadership may have changed |
| Safety.GetGuarantee | include/RaftNode.h:277-300 | get errs exactly when its node does not lead by then; else the value is that of the last PUT not followed by a DELETE in the applied prefix, which contains the get's own NOOP if and only if the term at its index is unchanged |
| Safety.LeadingIsEnough | include/RaftNode.h:295-298 | a node that still leads the term of the call has the call's entry in place |
| Safety.NothingBeyondOwnEntry | include/RaftNode.h:277-300 | everything any node had committed before such a call lies in front of the call's own entry and in the answering node's log |
| Safety.CallsInOrder | include/RaftNode.h:255-300 | of two such calls on any nodes, the one called after the other returned has the larger index and its node has applied both |
| Safety.GetSeesEarlierSubmit | include/RaftNode.h:255-300 | a get called after a submit returned, on any two nodes, reads a prefix with the submitted command at its index |
| Safety.GetSeesEarlierGet | include/RaftNode.h:277-300 | a get reads a longer prefix, in agreement with it, than any node had applied, and so any get had read, before it was called |
| CallRuns.CallsCanReturn | include/RaftNode.h:255-300 | every guarded run whose leader accepts a call, with more than half of the cluster connected and in no later term, can go on to where the index it was given is committed with its own entry in place |
| CallRuns.AloneNeverCommits | include/RaftNode.h:165-169 | in a cluster of one node nothing is committed without a restart, since the scan runs only on replies |
| ElectionRuns.CandidatesCanWin | include/RaftNode.h:75-116 | every run in which a candidate's counted votes and willing peers still to be asked exceed half can go on to where it leads its term; willing means in no later term, the vote of that term free or its own, no newer log |
| ElectionRuns.NodesCanWin | include/RaftNode.h:56-116 | every run with a node at least as up to date, in term and log, as more than half of its cluster can go on to where it leads the next term |
| Reactions.EveryEventReacts | include/RaftNode.h:56-410 | in every run an event concerns one node; its term becomes the greater of its own and the event's; vote, role and every other field change only as this event may change them |
| Reactions.RepliesAreHeeded | include/RaftNode.h:87-101 | in every run a node that has processed a reply is in no earlier term; if the reply's was later it follows in exactly that term without a vote, and a vote reply ends the election |
| Reactions.MajorityReplyCommits | include/RaftNode.h:165-169 | in every run, after a confirming reply every index of the leader's term that more than half are then known to hold is committed and applied |
| Reactions.AcceptedExactly | include/RaftNode.h:356-382 | in every run a message is accepted if and only if its term is not over and the node's log agrees with the sender's, as it was at the send, up to prevLogIndex |
| Reactions.AnswersAreTruthful | include/RaftNode.h:323-410 | every handled call is answered with the term its node is in by then, and a grant with the vote given |
| Effects.SubmitExactly | include/RaftNode.h:255-261 | NOT_LEADER exactly when the node does not lead, else NOT_ENOUGH_PEERS exactly when it cannot reach more than half; otherwise the log is one entry longer, ends with the command, and its length is the index returned |
| Effects.GetExactly | include/RaftNode.h:277-299 | the same for get, and its answer is the stored value or the empty string |
| Effects.RequestDescribesLog | include/RaftNode.h:56-73 | a new candidate's request compares with any voter's log as its own log does |
| Effects.VoteRefusedExactly | include/RaftNode.h:323-354 | a vote is refused if and only if the term is over, the vote of the term is another candidate's, or the voter's log is more up to date; the answer carries the new term |
| Effects.LogsCompare | include/RaftNode.h:343-344 | of two logs one is always at least as up to date as the other, and both are exactly when length and last term are equal |
| Effects.VoteReplyExactly | include/RaftNode.h:87-105 | a reply of a later term makes a follower of that term without vote or election; any other moves on by one peer and counts exactly a grant |
| Effects.VotesAreCounted | include/RaftNode.h:76-107 | without such a reply the vote loop ends with everyone asked and one vote more for every grant |
| Effects.OutvotedAt | include/RaftNode.h:89-101 | the first reply of a later term ends the loop in that term whatever was counted |
| Effects.TallyExactly | include/RaftNode.h:108-130 | a leader is made exactly of a candidate with the votes of more than half, with a NOOP of its term and fresh index vectors |
| Effects.MessageExactly | include/RaftNode.h:137-150 | log in front of prevLogIndex and entries make the sender's log; prevLogTerm is the term there and leaderCommit its commit index |
| Effects.LostExactly | include/RaftNode.h:156-175 | a lost call sets matchIndex of that peer to 0 and steps back once if entries were sent |
| Effects.LostIsNotCounted | include/RaftNode.h:156-186 | from then on no index counts that peer, connected or not |
| Effects.LaterReplyExactly | include/RaftNode.h:160-164 | a reply of a later term makes a follower of that term without a vote and changes nothing else |
| Effects.RefusalExactly | include/RaftNode.h:170-175 | a reply that confirms nothing changes at most nextIndex of that peer, by one |
| Effects.ConfirmationExactly | include/RaftNode.h:165-169 | matchIndex becomes the greater of itself and the last index sent, nextIndex the one behind it, and the commit index moves all the way |
| Effects.AdvancesFully | include/RaftNode.h:178-196 | the commit index never falls, rises only to an index of the current term that more than half hold, and afterwards no such index is left above it |
| Effects.HandledExactly | include/RaftNode.h:356-410 | a message of a term not over makes a follower of that term, accepted or not; an older one does nothing; commit becomes leaderCommit cut at the end of the log when greater |
| Effects.AcceptedLog | include/RaftNode.h:384-399 | an accepted message leaves the log that the declarative rule gives |
| Effects.AppliesExactly | include/RaftNode.h:198-208 | exactly the committed entries not applied yet are applied, and none when the log does not reach so far |
| Effects.DiskDeterminesRestart | include/RaftNode.h:235-242 | identity, term, vote and log survive a crash and determine the node that comes back |
| ElectionProof.StepKeeps | include/RaftNode.h:56-116 | every step, crashes included, keeps the voting invariant: one vote per term, counted votes are granted votes, one reign per term |
| LogProof.StepKeeps | include/RaftNode.h:356-410 | every step keeps the invariant that each entry is explained by the log of its term's leader |
| CompletenessProof.StepKeeps | include/RaftNode.h:323-354 | every guarded step keeps the invariant that later leaders hold every index a majority confirmed or still could confirm |
| CommitProof.StepKeeps | include/RaftNode.h:198-208 | every guarded step, restarts with chosen entries only included, keeps the invariant that whatever counts as committed lies below an index a majority confirmed in its entry's term |
| CommitProof.RestartKeepsExactly | include/RaftNode.h:40-50 | a restart keeps that invariant if and only if everything in the log it leaves lies below such an index of a term no later than the node's |
| SendGuard.SendGuardExactly | include/RaftNode.h:132-140 | after a guarded beginning, a send keeps the invariant behind Leader Completeness if and only if its node leads |
| TwoNodes.UncoveredYetHarmless | include/RaftNode.h:40-50 | a two-node run ends with a restart that does not meet the condition, and yet in every continuation, guarded or not, no log ever holds another entry at the index it applied |
| Counterexamples.RestartBreaksSafety | include/RaftNode.h:40-50 | a run in which only the final restart is unusual and two nodes have applied different entries at index 1 |
| Counterexamples.StaleSendBreaksSafety | include/RaftNode.h:132-134 | a run in which only the last send comes from a node that stepped down, and an applied entry is replaced |
| StaleReplies.StaleReplyBreaksSafety | include/RaftNode.h:158-169 | a five-node run in which only the last step, a reply of an earlier term, is unguarded, and two nodes have applied different entries at index 2 |
| StaleRestarts.CoverNeedsTerm | include/RaftNode.h:40-50 | a five-node run in which a node restarts with a log that was committed, but in a term it has not reached, and a message of a term in between replaces what it applied; the condition on restarts excludes it |
| Counterexamples.SubmitNeedsOwnEntry | include/RaftNode.h:266-275 | a steady run in which the index submit waits for is committed on its node with another command in it, the term test failing |
| Counterexamples.GetNeedsOwnEntry | include/RaftNode.h:288-299 | a steady run in which get finds its index committed and its node leading, yet misses a write that had returned before the call, the term test failing |
| CatchUp.CatchesUp | include/RaftNode.h:143-174 | with all calls delivered, at most nextIndex exchanges make the leader's log a prefix of the follower's and matchIndex its last index |
| CatchUp.CatchUpExactly | include/RaftNode.h:170-174 | after that many exchanges the follower is caught up if and only if the leader had something to send or it was caught up before: a rejected heartbeat does not step back |
| CatchUp.LeadersCatchUp | include/RaftNode.h:137-176 | the same from every state of every guarded run, for every leader and every peer whose term is not higher |
| CatchUpRuns.RunsCatchUp | include/RaftNode.h:137-176 | every guarded run that ends with such a leader and peer goes on, guarded, by sends, their handling and their replies until the peer is caught up |
| Nodes.ScanIsGreatest | include/RaftNode.h:178-196 | despite `continue` and early `break` the scan yields the greatest new index of the current term held by a connected majority, or leaves commit unchanged |
| Nodes.RequestableExactly | include/RaftNode.h:315-321 | a command is refused if and only if no matchIndex at all could let the scan commit under the present connections |
| Logs.MergeMeetsRule | include/RaftNode.h:384-399 | the two passes keep the log where all overlapping terms agree and otherwise replace it from the first conflict |
| Logs.MergeIsIdempotent | include/RaftNode.h:384-399 | every entry of the message is in the result by term, and handling the message again changes nothing |
| Logs.MergeKeepsAll | include/RaftNode.h:384-399 | a delayed, shorter message of the same leader removes nothing the log shares with that leader, even if interrupted |
| StateMachines.GetReadsBack | include/StateMachine.h:13-33 | reading the folded map gives the last PUT not followed by a DELETE, or the empty string |
| StateMachines.ReadIsDetermined | include/StateMachine.h:24-33 | that description fits one value only |
| Delivery.CallAppend | include/TCP_server.h:36-40 | an AppendEntries call between two node objects, through bytes both ways, has exactly the effect of the model's exchange |
| Delivery.CallVote | include/TCP_server.h:29-33 | the same for RequestVote |
| Delivery.RequestRoundTrip | include/RPC.h:30-69 | every request of constructor-made entries comes back from its bytes, with every inner command, whatever follows in the buffer |
| Delivery.RequestIsGood | include/RPC.h:50-69 | such a request, numbered on from prevLogIndex, is a message the handler object accepts, and stands for the same request |
| RaftNodes.RaftNode.constructor | include/RaftNode.h:40-50 | a new process on a store has its term, vote and log, and everything in the log applied and counted as committed |
| RaftNodes.Reopen | include/RaftNode.h:235-242 | a process that dies between two actions and a new one on the bytes it left make Nodes.Restart |
| RaftNodes.ReopenAfterTerm | include/RaftNode.h:332-334 | dying between the two metadata writes leaves the new term with the old vote |
| RaftNodes.ReopenAfterAdopting | include/RaftNode.h:332-346 | dying after both leaves the new term without a vote |
| RaftNodes.RaftNode.BeginElection | include/RaftNode.h:56-73 | computes Nodes.StartElection |
| RaftNodes.RaftNode.HandleRequestVote | include/RaftNode.h:323-354 | computes Nodes.HandleVote, including the answer |
| RaftNodes.RaftNode.CountVote | include/RaftNode.h:87-106 | computes Nodes.VoteReplied |
| RaftNodes.RaftNode.FinishElection | include/RaftNode.h:108-116 | computes Nodes.Tally |
| RaftNodes.RaftNode.BecomeLeader | include/RaftNode.h:118-130 | computes Nodes.BecomeLeader |
| RaftNodes.RaftNode.AppendCommand | include/RaftNode.h:259-261 | the log grows by one entry of the current term and next index that decodes to the command, cut as Codec.Stored says if key or value exceeds 65535 bytes |
| RaftNodes.RaftNode.Submit | include/RaftNode.h:255-261 | the two errors in their order, or the index to wait for with the command appended |
| RaftNodes.RaftNode.FinishSubmit | include/RaftNode.h:273-275 | applies what is committed by then |
| RaftNodes.RaftNode.StartGet | include/RaftNode.h:277-283 | the error or the index to wait for with a NOOP appended |
| RaftNodes.RaftNode.FinishGet | include/RaftNode.h:295-299 | an error if the node no longer leads, else the value of the key |
| RaftNodes.FirstStart | include/RaftNode.h:235-242 | a process started in an empty directory is the initial node |
| RaftNodes.RaftNode.BuildAppend | include/RaftNode.h:137-150 | the message is Nodes.AppendRequest and its records are intact and numbered on from prevLogIndex |
| RaftNodes.RaftNode.OnAppendLost | include/RaftNode.h:156-175 | computes Nodes.AppendLost: matchIndex 0 and one step back |
| RaftNodes.RaftNode.OnAppendReply | include/RaftNode.h:158-175 | computes Nodes.AppendReplied with the commit scan and the apply that may follow |
| RaftNodes.RaftNode.ScanCommit | include/RaftNode.h:178-191 | the loop computes Nodes.Scan |
| RaftNodes.RaftNode.AdvanceCommitIndex | include/RaftNode.h:178-196 | computes Nodes.AdvanceCommit |
| RaftNodes.RaftNode.ApplyCommitted | include/RaftNode.h:198-208 | computes Nodes.ApplyCommitted and leaves the log alone |
| RaftNodes.RaftNode.HandleAppendEntries | include/RaftNode.h:356-410 | computes Nodes.HandleAppend, including the answer and every early return |
| RaftNodes.RaftNode.MergeEntries | include/RaftNode.h:384-399 | the two loops over the store compute Logs.Merge |
| RaftNodes.SameVote | include/RaftNode.h:342-347 | comparing decimal texts of ids is comparing ids |
| Storages.FileTracksLog | include/Storage.h:106-164 | over every sequence of index-consecutive appends and truncates the bytes on file read back as exactly the described records |
| Storages.Storage.constructor | include/Storage.h:70-80 | opening a store on any two files rebuilds log, length, last term, term and vote from the bytes alone; it is valid if and only if the log file holds nothing but intact records numbered from 1 and the meta file was whole, absent or just rewritten |
| Storages.Storage.Append | include/Storage.h:106-113 | one record more, in the file and in the caches |
| Storages.Storage.Truncate | include/Storage.h:148-164 | exactly the records after the given index are gone, in the file and in the caches; a larger index changes nothing |
| Storages.Storage.ReadAll | include/Storage.h:116-137 | the loop returns the records of the log |
| Storages.Storage.GetTermAt | include/Storage.h:140-146 | the term at a 1-based index, 0 outside the log |
| Storages.Storage.ReadFrom | include/Storage.h:166-171 | the suffix from a 1-based index, empty outside the log |
| Storages.Storage.ReadRange | include/Storage.h:173-178 | the slice between two 1-based indices, empty unless both lie in the log in order |
| Storages.Storage.SetTerm | include/Storage.h:87-90 | the new term is in the meta file together with the old vote |
| Storages.Storage.SetVoted | include/Storage.h:101-104 | the new vote is in the meta file together with the current term |
| Storages.Storage.SaveMeta | include/Storage.h:25-40 | the pushed bytes are the encoding of term and vote |
| Storages.Storage.LoadMeta | include/Storage.h:42-67 | the fields read are the decoding of the meta file, missing bytes being read as 255 and a missing tail of the vote as zeros |
| Storages.MetaRoundTrip | include/Storage.h:25-67 | decoding undoes encoding for every 64-bit term and every vote text |
| Layout.MetaBytes | include/Storage.h:25-40 | term lowest byte first, length of the vote highest byte first, vote |
| Layout.EmptyMeta | include/Storage.h:42-67 | an empty meta file reads as the greatest term and a vote of 2^32 - 1 zeros |
| Layout.DecimalIsText | include/RaftNode.h:60 | a vote is text of decimal digits without leading zero, worth the id |
| Corruption.CorruptionCutOff | include/Storage.h:116-137 | a record changed within four consecutive bytes outside its length field: readAll returns exactly the records before it |
| Corruption.AppendsBehindDamageAreLost | include/Storage.h:70-80 | the constructor leaves a damaged tail in the file, so reading never returns any record appended behind it |
| Corruption.DamageIsNoticed | include/LogEntry.h:65-94 | such a record is rejected whatever follows it |
| Crc32.Compute | include/crc32.h:10-31 | the table-driven loop returns the remainder of dividing one bit at a time, for every byte sequence |
| Crc32.MakeTable | include/crc32.h:14-24 | entry i of the table is eight division steps on i |
| Crc32.TableStepFeeds | include/crc32.h:27-29 | one table step equals feeding the eight bits of the byte |
| Crc32.FeedInjective | include/crc32.h:27-29 | different registers stay different over the same bytes |
| Crc32.ShortChangeDetected | include/crc32.h:25-31 | a change within four consecutive bytes always changes the checksum |
| Crc32.CheckValue | include/crc32.h:10-31 | the checksum of the digits 1 to 9 is 0xCBF43926 |
| Codec.CommandBytes | include/Command.h:26-44 | operation, length of the key, length of the value, both lowest byte first, key, value |
| Codec.RecordBytes | include/LogEntry.h:45-63 | term and index lowest byte first, length highest byte first, command, checksum |
| Codec.Len32IsBigEndian | include/LogEntry.h:53-56 | a length through htonl stands highest byte first |
| Codec.Len16IsLittleEndian | include/Command.h:29-35 | a length through htons, pushed high byte first, stands lowest byte first |
| Layout.WordIsLittleEndian | include/LogEntry.h:59-61 | a byte stands first in its word, and a shift by eight moves every byte one place on |
| Layout.OpBytes | include/Command.h:9-13 | PUT, DELETE and NOOP are 1, 2 and 3 |
| Layout.ChecksumBytes | include/LogEntry.h:33-43 | the checksum covers term, index and command in this order |
| Codec.CommandRoundTrip | include/Command.h:26-66 | a command survives encoding if and only if key and value are at most 65535 bytes |
| Codec.DecodedCommand | include/Command.h:26-66 | what comes back when a length was cut to 16 bits |
| Codec.ParseRecord | include/LogEntry.h:65-94 | a record is accepted if and only if its checksum matches its term, index and command bytes |
| Codec.EntryRoundTrip | include/LogEntry.h:45-94 | a record parses back and exactly its own bytes are consumed |
| Codec.FileRoundTrip | include/Storage.h:116-137 | a file of intact records reads back as those records |
| CodecLoops.SerializeEntry | include/LogEntry.h:45-63 | the push loops produce Codec.EncodeEntry, every field at its place in its byte order |
| CodecLoops.VerifyEntry | include/LogEntry.h:33-43 | true exactly when the stored checksum is that of the covered bytes |
| CodecLoops.DeserializeEntry | include/LogEntry.h:65-94 | the moving offset computes Codec.ParseEntry and stops where it stops |
| CodecLoops.ReadRecords | include/Storage.h:116-137 | the loop computes Codec.ParseLog |
| CodecLoops.SerializeAppend | include/RPC.h:30-48 | the push loops produce Rpc.EncodeAppend, every field at its place |
| CodecLoops.DeserializeAppend | include/RPC.h:50-69 | the moving offset computes Rpc.DecodeAppend |
| Rpc.AppendBytes | include/RPC.h:30-48 | where term, leader, prevLogIndex, prevLogTerm, leaderCommit, count and records stand |
| Layout.FrameBytes | include/RPC.h:41-46 | every record stands behind its own length, lowest byte first |
| Layout.VoteBytes | include/RPC.h:100-108 | where term, candidate, last index and last term stand |
| Layout.ResponseBytes | include/RPC.h:76-131 | letter, term and a byte that is 1 or 0 |
| Layout.Tags | include/TCP_server.h:28-36 | the four payloads start with A, R, V and W |
| Layout.LetterIgnored | include/RPC.h:50-52 | parsers skip the letter |
| Layout.FrameLengthIgnored | include/RPC.h:63-67 | the length in front of a record is read and not used |
| Layout.AnyByteIsYes | include/RPC.h:84-90 | any byte but zero means success |
| Rpc.AppendRoundTrip | include/RPC.h:30-69 | deserialize undoes serialize for any number of intact records |
| Rpc.VoteRoundTrip | include/RPC.h:100-118 | the same for RequestVote |
| Rpc.ResponsesRoundTrip | include/RPC.h:76-139 | the same for both responses |
| Integers.SwapReverses | include/LogEntry.h:53 | swapping, as htons and htonl do, reverses the bytes |
| Integers.LEAt | include/RPC.h:11-13 | byte i is what is left of the number after i divisions by 256 |
| Integers.NextByte | include/RPC.h:11-19 | bytes count from zero upwards by one |
| Integers.PushLE | include/RPC.h:11-13 | the loop pushes the little-endian bytes |
| Integers.ReadLE | include/RPC.h:15-19 | the loop reads the little-endian value and advances by the width |

## Left out

- include/Peer.h, include/TCP_server.h, src/server.cpp, src/client.cpp: sockets, reconnecting, argument parsing, console, the client port and its status and leader queries. `isConnected` is an arbitrary snapshot of booleans, `sendRPC` a call that may be lost.
- Real time: timeouts, random delays, sleeps, the 100 ms heartbeat, and whether an election or a call ever succeeds: it is proved that it can, not that it will. A timeout may occur whenever a node does not lead. The repository's README speaks of 300-500 ms where include/RaftNode.h:53 waits 3000-3200 ms; no result depends on it.
- Data races in unlocked code: each send, each step-down on a reply (160-164) and each commit advance (178-196) is one atomic action, although the program runs them without the mutex.
- The guards of `GuardedRun` and `SteadyRun` are assumptions on the schedule, not checks in the code; see above. Commit safety after restarting a node with uncommitted entries is false, as RestartBreaksSafety shows. include/Storage.h:21-23 calls commitIndex volatile while replay restores it from the log; the model follows replay.
- Crashes in the middle of `truncate` and torn records: nodes are started on well-formed files. Only the constructor of Storage, LoadMeta and the corruption results speak of damaged ones, and the last not of damage to a length field.
- CatchUp.CatchesUp: about one leader and one follower while nothing else happens between their calls; that the calls arrive is assumed.
- RaftNodes.RaftNode.HandleAppendEntries: requires the records of a message to be intact, decodable and numbered on from prevLogIndex. BuildAppend guarantees this of every message, and MessagesAreNumbered with RequestIsGood of every message of every run.
- RaftNodes.RaftNode.MergeEntries: requires the same of the message as HandleAppendEntries; the program would throw on applying an undecodable record and lose its cached length on a misnumbered one.
- RaftNodes.RaftNode.AppendCommand: requires the serialized command to be shorter than 2^32 bytes, beyond which the program writes a record it cannot read back.
- RaftNodes.RaftNode.Submit: requires the same of the command, and ends where the program starts to wait; what it may rely on when it returns is Safety.SubmitGuarantee. The wait loop itself, a sleep between looks at the commit index, is not modelled.
- Overflow of 64-bit terms and indices: the cluster uses unbounded naturals, and the methods of the classes require room for one more.
- Reads past the end of a buffer, undefined in C++, are reported like a failed parse.
- `htons` and `htonl` are modelled as on a little-endian machine, where they swap bytes.
- The crash between the writes of term and vote leaves the new term with the old vote; the model lets that new term be any higher one.
- current_leader_id, noop_committed, getStatus, logging and toString: no result depends on them.
