# RaftrixDB consensus, modelled and proved in Dafny

RaftrixDB replicates a key-value store with a Raft implementation of its own
(`internal/consensus`), following Ongaro and Ousterhout, "In Search of an
Understandable Consensus Algorithm (Extended Version)". This project models that
implementation and proves what it promises: one leader per term, matching logs,
committed entries that no later leader loses, and stores that are the same function
of the same log on every node.

`dafny verify dfyconfig.toml` checks everything.

## How the model is built

**A node** (`NodeModel.dfy`) is a value, and every critical section of the code is a
function on it: start an election, handle a vote request, handle a vote reply, finish
the election, propose, build an AppendEntries request, handle it, handle its reply,
apply, install a snapshot, take one, restart. The log (`LogModel.dfy`) is a map from
index to entry with a compaction boundary in memory and one on disk.

**The objects** (`RaftNode.dfy`, `RaftLog.dfy`, `LeaderMaps.dfy`, `MemoryEngine.dfy`)
are the classes of the source with their fields, loops and in-place updates. Each
method is proved equal to the corresponding function on values, so what is proved of
the functions holds of the objects. `RaftLog` keeps entries under eight-byte
big-endian keys and walks them with a cursor, as the code does.

**The cluster** (`Cluster.dfy`) is a set of nodes and a set of messages that only
grows, so loss, duplication and reordering are all included; any node may crash and
restart at any step. A run is a finite sequence of such steps. The cluster may have
any size. A history of votes, elections and acknowledgements (`History.dfy`) is
computed from the run; the proofs speak of it, the code does not see it.

**Two departures of the code are switches.** `Variant(rereadTerm, checkReplyTerm)`
says whether the entry loop reads the term again after truncating, and whether a reply
is used only in the term its request was sent in. The code does neither (`WRITTEN`);
`INTENDED` does both.

**A third departure is the cluster size.** The election quorum is computed from the
peers alone, so it is a majority only in odd clusters and in a cluster of two.

**Where each property holds is settled cluster by cluster.** Over all runs of a cluster,
with "repaired loop" for an entry loop that reads the term again and "safe size" for odd or
two:

| property | holds exactly when | lemma |
|---|---|---|
| Election Safety | safe size | `EvenCluster.ElectionSafetyIff` |
| a winner's log is the one it advertised | safe size | `Advertised.AdvertisedIff` |
| logs are contiguous, with rising terms | repaired loop, or at most two nodes | `LogRepairs.LogShapeIff` |
| Log Matching | safe size, and repaired loop or at most two nodes | `LogRepairs.LogMatchingIff` |
| acknowledgements are true | the same | `LogRepairs.AcksTrueIff` |
| Leader Completeness | safe size, and `INTENDED`, or at most two nodes, or three and repaired loop | `Repairs.CompletenessIff` |
| State Machine Safety | the same | `Repairs.StateMachineSafetyIff` |
| clients are answered about their own command | at most two nodes | `ClientReplies.ClientsToldRightIff` |

The code as written therefore keeps committed entries in clusters of one and two nodes
only. Each way to fail has a reachable state for every size it concerns (`LostCommit.dfy`,
`StaleReply.dfy`, `SplitBrain.dfy`). The theorems of `Safety.dfy` and `StoreSafety.dfy` hold
in all clusters that satisfy the condition: a `LogRun` is a run of a cluster where Log
Matching holds, a `SafeRun` one where Leader Completeness does.
`AsWritten.CleanRunIsIntended` says which runs of the code as written are covered in the
other clusters of safe size.

**Replaying a store is settled by operations and keys.** A node that restarts over a
store that survived applies its log again from the start. Whatever the values, the
result is the store of one pass exactly when every key with two CASes or more also has
a Put or a Delete (`Replay.ReplayIff`, and `CasReplay.RestartsKeepStoresIff` over runs).

The proof has layers: election (`ElectionSafety.dfy`), logs (`LogHistory.dfy` for the
argument about histories, `LogSafety.dfy` for every step, `PairLogs.dfy` for what two
nodes add, `LogRuns.dfy` and `Safety.dfy` for runs, `LogShapes.dfy` for all sizes),
stores (`Replay.dfy`, `StoreSafety.dfy`). `Scenario.dfy` builds concrete runs move by move, for clusters of any
size: `EvenCluster.dfy`, `Advertised.dfy`, `LostCommit.dfy`, `StaleReply.dfy`,
`SplitBrain.dfy`, `CasReplay.dfy` and `ClientReplies.dfy` use it for the runs that go wrong, `Progress.dfy`
for runs that commit and apply any commands one likes. `Recovery.dfy` and `CatchingUp.dfy`
show that no run is stuck. `Handlers.dfy` states what each handler answers and leaves in
every case, `Terms.dfy` what follows for terms over runs.

## Assumptions

- Peer names are distinct, do not include the node itself, and none is empty; the empty
  name, 0 here, means "no vote" or "no leader".
- Transactions of the log store and `SaveMeta` succeed. The code ignores or logs their
  errors.
- Entry terms are at least 1, because the code uses term 0 for "absent". In runs this is
  proved (`LogShapes.LogShape`); single-handler lemmas that need it say so.
- Values compare as byte sequences with nil equal to empty. The source file that does
  this lacks the import of the package it calls.
- JSON encoding of log entries, metadata and snapshots round-trips exactly; a snapshot
  that does not decode is the value `Malformed`.
- A vote reply is counted for the peer that was called, once.

## Where code and comments disagree

- `internal/consensus/raft.go:270` announces that a conflicting tail is truncated and
  replaced. The entry at the conflict is truncated and not replaced.
- `internal/consensus/raft.go:462` calls `len(peers)/2 + 1` a quorum. It is one only at
  the sizes given above, and a cluster of one never elects itself.
- `internal/consensus/log.go:257-259` describes a compacted log. The boundary in memory
  changes only when the store is opened again.

The model follows the code in all three.

## Model

| member | source | states |
|---|---|---|
| `Safety.LeaderCompleteness` | internal/consensus/raft.go:662-679 | Whatever any node has committed at any point of a run is, entry for entry, in the log of every leader of every later term, at every point of the run. |
| `Safety.CommittedNeverDiffers` | internal/consensus/raft.go:292-303 | Two nodes' logs agree on every index both have committed, at any two points of a run. |
| `Safety.LogMatching` | internal/consensus/raft.go:243-290 | At safe sizes, with the repaired loop or at most two nodes and whether replies are checked or not: if two logs, of any nodes at any two points of a run, have equal terms at an index, they are identical up to it. |
| `LogRepairs.LogMatchingIff` | internal/consensus/raft.go:243-290 | For every cluster, that holds over all its runs if and only if its size is odd or two and the entry loop re-reads the term or there are at most two nodes. |
| `LogShapes.LogShape` | internal/consensus/raft.go:163-172 | With the repaired loop at any cluster size, and in any variant with at most two nodes: every log in every run is contiguous from 1, entries carry their own positions, terms start at 1, never decrease and never exceed the node's term. |
| `LogRepairs.LogShapeIff` | internal/consensus/raft.go:270-290 | For every cluster, that holds over all its runs if and only if the entry loop re-reads the term or there are at most two nodes. |
| `LogShapes.ShapeInvStep` | internal/consensus/raft.go:216-552 | With the repaired loop every step of every node, at any cluster size, keeps logs and requests in shape. |
| `Safety.MatchSoundness` | internal/consensus/raft.go:662-667 | `matchIndex[p] = m` at a leader means that p, in that term, held a log identical to the leader's through m, although followers report their whole last index; in clusters small enough to do without the reply check, an m without that backing lies below the leader's own entries. |
| `Safety.ReplyWasTrue` | internal/consensus/raft.go:305-306 | Where Log Matching holds, every successful reply in flight was sent by the follower it names, in a step that handled its request; right after that step its whole log, which is what it reported, agreed with the log of whoever leads that term then or later. |
| `Safety.AcknowledgedIsHeld` | internal/consensus/raft.go:292-306 | The same of every step that acknowledges a request: the node is then in the request's term, and what it reports is its whole log and the leader's. |
| `LogRepairs.AcksTrueIff` | internal/consensus/raft.go:292-306 | For every cluster, acknowledgements are true over all its runs if and only if its size is odd or two and the entry loop re-reads the term or there are at most two nodes. |
| `Advertised.WinnerIsAsAdvertised` | internal/consensus/raft.go:503-527 | At safe sizes and in any variant: at the moment a candidate wins, its outstanding election is of its current term and its log still ends as each of its vote requests of that term said. |
| `Advertised.AdvertisedIff` | internal/consensus/raft.go:218-241 | For every cluster, that holds over all its runs if and only if its size is odd or two; at other sizes a rival leader of the term changes the log of a candidate about to win. |
| `Handlers.VoteLaw` | internal/consensus/raft.go:310-355 | A vote is granted if and only if the request's term is not older, no vote of that term went to another, and the last term and index it names are lexicographically no less than the voter's; the reply's term, the vote left and saved, and everything kept, in every case. |
| `Handlers.OneWouldVote` | internal/consensus/raft.go:340-348 | Of any two nodes with contiguous logs at least one votes for the other in a new term. |
| `Handlers.VoteReplyLaw` | internal/consensus/raft.go:478-512 | A vote reply of a later term makes the candidate a follower of exactly that term, without vote and maps, counts nothing and ends its chance to lead when that election ends; any other reply changes the count only. |
| `Handlers.StandLaw` | internal/consensus/raft.go:435-458 | A node that stands does so for the next term with its own vote, saved, asks every peer, tells them how its log ends, and keeps its data. |
| `Handlers.ElectionEndLaw` | internal/consensus/raft.go:503-540 | At the end of an election the node leads if and only if it is still a candidate, somebody granted it a vote, and the votes with its own are more than half the number of its peers; it then adds a no-op of its term, means to send each peer what follows its log, and counts nothing as held. |
| `Terms.HeardTermsBind` | internal/consensus/raft.go:216-241 | Over all runs, in every variant and at every size: after a step that heeds a message of term t a node's term is at least t ever after, and if t was later it has stepped down to exactly t, so it never again leads or stands for an earlier term. |
| `Terms.ElectionLost` | internal/consensus/raft.go:478-485 | A candidate that has read a vote reply of a later term never leads the term it stood for, at any later point of the run. |
| `Terms.DeposedLeaderLearns` | internal/consensus/raft.go:222-230 | A request of an older term leaves the node that handles it unchanged, and the answer makes the leader that reads it a follower of that node's term. |
| `Terms.RepliesSay` | internal/consensus/raft.go:218-268 | Every reply in flight is of the request's term or a later one; an AppendEntries reply is of a later one if and only if it neither succeeds nor gives a hint. |
| `Terms.NoBlindStep` | internal/consensus/raft.go:680-687 | So the branch that lowers `nextIndex` without a hint is taken for no reply a leader reads in the term of its request. |
| `Recovery.AlwaysElectable` | internal/consensus/raft.go:435-512 | Every run, in every variant and at every size from two, can go on until a node whose log is no worse than any other leads a term later than all before, with every node in that term. |
| `CatchingUp.AlwaysCommittable` | internal/consensus/raft.go:572-717 | With the repaired loop, at every size from two, every run can go on until any given command is committed and applied by the leader of a new term: elections, backtracking, acceptance, counting and applying never get stuck. |
| `LogHistory.LaterLeadersHold` | internal/consensus/raft.go:336-354 | If enough nodes acknowledged a term's log up to one of its own entries, the log of every later elected leader starts with that prefix. |
| `LogSafety.LogsInvStep` | internal/consensus/raft.go:216-717 | Every step of every node, with any message in flight, keeps the log invariant (logs grounded in leaders' logs, acknowledgements kept or overtaken, messages true, and where replies are checked or there are at most three nodes, commits backed by a majority), provided a request meets no conflict the loop mishandles. |
| `LogRuns.LogsInvAlways` | internal/consensus/raft.go:216-717 | In every cluster where Log Matching holds the proviso is always met: the invariant holds at every point of every run. |
| `PairLogs.PairInvStep` | internal/consensus/raft.go:216-552 | In clusters of one or two nodes, in any variant, every step keeps every log a prefix of the latest leader's. |
| `PairLogs.PairAsIntended` | internal/consensus/raft.go:270-290 | In those clusters the handler as written therefore does what the intended one does, on every message that can arrive. |
| `Progress.AnyCommandsCommit` | internal/consensus/raft.go:154-178 | In every cluster of two nodes or more, in any variant, any sequence of commands is committed and applied by the leader of some run, which ends with their fold as its store; at safe sizes that run is one the safety theorems cover. |
| `ElectionSafety.VotesInvStep` | internal/consensus/raft.go:310-552 | At safe sizes and in any variant, every step keeps the vote invariant: the vote recorded for a node's current term is the one it holds, every leader and every granted reply is backed by recorded votes, every AppendEntries message belongs to its term's elected leader. |
| `ElectionSafety.OneLeaderPerTerm` | internal/consensus/raft.go:311-355 | At odd sizes and at size two, over every run with crashes, whoever leads a term at any point is the only node ever to lead it, for the code as written too. |
| `EvenCluster.ElectionSafetyIff` | internal/consensus/raft.go:460-462 | Election Safety holds over all runs of a cluster exactly when its size is odd or two. |
| `EvenCluster.TwoLeaders` | internal/consensus/raft.go:491-512 | Every cluster of even size four or more has a run that ends with two leaders of term 1. |
| `EvenCluster.LoneNodeNeverLeads` | internal/consensus/raft.go:491-499 | A cluster of one never has a leader, because a win is signalled only on a reply. |
| `Quorum.WinnersMeet` | internal/consensus/raft.go:460-462 | At safe sizes any two sets of voters large enough to win share a node. |
| `Quorum.WinnerMeetsCommitters` | internal/consensus/state.go:41 | At every size, a set of election-quorum size and a set of commit-majority size share a node. |
| `Quorum.DisjointWinners` | internal/consensus/raft.go:460-462 | At every other size the nodes contain two disjoint sets, each large enough to win. |
| `VoteDiscipline.VoteDisciplineHolds` | internal/consensus/raft.go:325-354 | Over any sequence of inputs, crashes and snapshots included, the term never decreases, a vote once cast in a term is never changed, and the pair on disk is the pair in memory. |
| `VoteDiscipline.OutstandingElectionIsCurrent` | internal/consensus/raft.go:400-414 | Over any inputs in which elections are started one at a time, at any cluster size, a candidate's outstanding election is of its current term and no leader has one outstanding. |
| `Repairs.CompletenessIff` | internal/consensus/raft.go:270-290 | For every cluster, Leader Completeness holds over all its runs if and only if its size is odd or two and both repairs are made, or it has at most two nodes, or it has three and the entry loop re-reads the term. |
| `Repairs.StateMachineSafetyIff` | internal/consensus/raft.go:690-717 | For every cluster, nodes that have applied an index have applied the same entry there, over all its runs, if and only if the same condition holds. |
| `LostCommit.CommittedEntryLost` | internal/consensus/raft.go:273-289 | With the entry loop as written, every cluster of odd size three or more reaches a state where a leader of term 3 lacks an entry that the leader of term 2 has committed. |
| `LostCommit.PassedOver` | internal/consensus/raft.go:692-700 | In the same clusters a state is reached where one node has applied an entry that another, with a hole in its log, has passed over. |
| `StaleReply.CommittedEntryReplaced` | internal/consensus/raft.go:652-667 | With the entry loop repaired and replies accepted in any term, every cluster of odd size five or more reaches a state where a leader of term 4 holds another entry at an index that the leader of term 3 has committed. |
| `StaleReply.AppliedDifferently` | internal/consensus/raft.go:652-667 | In the same clusters a state is reached where two nodes have applied different entries at one index. |
| `SplitBrain.CommittedEntryOverruled` | internal/consensus/raft.go:460-462 | In every variant, every cluster of even size four or more reaches a state where a leader of term 2 holds another entry at an index that a leader of term 1 has committed. |
| `SplitBrain.AppliedDifferently` | internal/consensus/raft.go:460-462 | In the same clusters a state is reached where two leaders of one term have each committed and applied their own command at one index. |
| `WrittenHandler.HandlerAsIntendedIff` | internal/consensus/raft.go:270-290 | On a contiguous log the handler as written and as intended do the same to node and reply exactly when the request is refused or meets no conflict. |
| `WrittenHandler.WrittenClaimsHoleIff` | internal/consensus/raft.go:305-306 | The written handler acknowledges up to its last index always, and its log is then without holes exactly unless a conflict was met with entries after it. |
| `AsWritten.CleanRunIsIntended` | internal/consensus/raft.go:649-688 | A run of the code as written in which no accepted request conflicts and no stale reply arrives is a run of the intended protocol, so every safety theorem applies to it. |
| `Splice.IntendedIsMerge` | internal/consensus/raft.go:270-290 | The entry loop with the term read again keeps a log that has all the entries, and otherwise keeps the agreeing prefix and replaces the rest. |
| `Splice.WrittenDropsConflict` | internal/consensus/raft.go:270-290 | The loop as written yields the same log without the one entry at the first conflict. |
| `Splice.WrittenIsIntendedIff` | internal/consensus/raft.go:270-290 | The two loops agree exactly when the request meets no conflict. |
| `Splice.MergeTwice` | internal/consensus/raft.go:270-290 | A request delivered again changes nothing. |
| `Backtracking.HintIsRunStart` | internal/consensus/raft.go:256-265 | The conflict index is the first index of the stretch of equal term that holds the probed one. |
| `Backtracking.ExchangeIs` | internal/consensus/raft.go:243-268 | A request is refused exactly when the follower's log ends before the probed index or has another term there; a refusal leaves log, store and commit index and sends the leader to the hint. |
| `Backtracking.ExchangeDeposes` | internal/consensus/raft.go:656-660 | With a follower of a later term one exchange ends the leadership: the follower is unchanged, and the leader follows its term without vote or maps and with all its data. |
| `Handlers.AppendLaw` | internal/consensus/raft.go:216-268 | Every reply carries the node's term after the step, the greater of its own and the request's; success if and only if the request is not of an older term and agrees with the log where it probes; an older request changes nothing, any other names its sender as leader; a refusal keeps log, indices and store and gives a hint and the term found. |
| `Handlers.AcceptLaw` | internal/consensus/raft.go:270-307 | With the repaired loop an accepted request leaves the merged log and reports its length, and the commit index is the greater of the old one and what the leader had committed of what the request covers. |
| `Handlers.AppendReplyLaw` | internal/consensus/raft.go:649-660 | A leader that reads a reply of a later term is a follower of exactly that term, without vote or maps, its data unchanged; a node that does not lead ignores the reply, and so does one that checks terms and reads it in another. |
| `Handlers.UsedReplyLaw` | internal/consensus/raft.go:662-687 | A used reply concerns one peer: success raises its match and puts next after it, a refusal moves its next index to the hint or else back by one but not below 1, and nothing else. |
| `Handlers.ProposeLaw` | internal/consensus/raft.go:154-172 | A leader puts the command after its last entry, in its term, and changes nothing else; any other node changes nothing. |
| `Handlers.SendLaw` | internal/consensus/raft.go:572-639 | A leader sends a peer exactly the entries from its next index to the end, with the term just before them, its own term and its commit index; beyond the end it sends nothing and names no term. |
| `Backtracking.RefusalLowersNext` | internal/consensus/raft.go:680-686 | Every refusal strictly lowers `nextIndex`, keeps it at least 1 and leaves the follower's log. |
| `Backtracking.BacktrackingBound` | internal/consensus/raft.go:615-616 | However long a series of refused exchanges, it is at most one longer than the number of stretches of equal term in the follower's log. |
| `CommitRule.ScanIsGreatest` | internal/consensus/state.go:35-58 | The scan returns the greatest index above the commit index, of the current term and held by a majority, and 0 exactly when there is none. |
| `CommitRule.ScanIsOrderStatistic` | internal/consensus/state.go:35-58 | The peers can be ranked by `matchIndex`, and on logs whose terms never decrease and never exceed the current one every ranking gives the scan: the (majority-1)-th largest `matchIndex`, capped at the last index, if that is above the commit index and of the current term, and 0 otherwise. |
| `StoreSafety.StateMachineSafety` | internal/consensus/raft.go:690-742 | Two nodes, at any two points of a run, have applied the same entries at every index both have applied. |
| `StoreSafety.StoresAgree` | internal/consensus/raft.go:690-742 | Two nodes with equal `lastApplied` have equal stores, if each lost its store at crashes, never crashed, or has caught up over a replayable log. |
| `StoreSafety.StoreIsFold` | internal/consensus/raft.go:692-742 | The store is the fold of the commands over the log up to `lastApplied`, if the store is lost with the process or the node has not crashed. |
| `StoreSafety.StoreIsFoldAfterRestarts` | internal/consensus/raft.go:107-119 | After any number of restarts over a surviving store, a node that has caught up holds that fold again, if every key with two CASes or more in what it applied also has a Put or a Delete there. |
| `CasReplay.RestartsKeepStoresIff` | internal/consensus/raft.go:107-119 | In every cluster the theorems cover, for any operations and keys: whatever the values, every node that has caught up holds the store of one pass, over all runs, if and only if that condition holds. |
| `CasReplay.RestartedStoresDiffer` | internal/consensus/raft.go:719-742 | For operations and keys that fail it, in every cluster of two nodes or more and in any variant, some values lead to a state in which two nodes have applied the same log and hold different stores. |
| `CasReplay.CasBreaksReplay` | internal/consensus/raft.go:728-738 | Two CASes after the no-op do it: the leader that applied them once holds [1], the follower that crashed and applied them again holds [2]. |
| `StoreSafety.ApplyOrder` | internal/consensus/raft.go:292-303 | `lastApplied <= commitIndex <=` last index, in every state of every run. |
| `StoreSafety.ApplyOnceInOrder` | internal/consensus/raft.go:692-717 | A step that is not a crash lowers neither index, and changes the store by exactly the commands between the old and the new `lastApplied`, in order. |
| `ClientReplies.ToldRightIff` | internal/consensus/raft.go:174-185 | Where Log Matching holds, a waiting client is answered about the command it proposed if and only if the entry applied at its index has the term of the proposal, and always while the node still leads that term. |
| `ClientReplies.SuccessMeans` | internal/consensus/raft.go:702-742 | Where the terms agree and the store was filled in one pass: the client is told success exactly when its operation is a no-op, a Put or a Delete, or a CAS that expects what its key holds after all commands before it, an absent key holding the empty value; the key then holds what the operation makes of that, and after a failure what it held. |
| `ClientReplies.ClientsToldRightIff` | internal/consensus/raft.go:174-185 | For every cluster, in any variant, every answered client is answered about its own command, over all runs, if and only if the cluster has at most two nodes. |
| `ClientReplies.SomeoneMisled` | internal/consensus/raft.go:544-552 | In every larger cluster a deposed leader tells a client of success for the command another leader put at its index. |
| `Replay.ReplayOverlap` | internal/consensus/raft.go:692-742 | Replaying a stretch that starts at or before the point a store stands at, and ends at or after it, gives the store of the whole prefix, if every key with two CASes or more in the stretch also has a Put or a Delete there. |
| `Replay.ReplayIff` | internal/consensus/raft.go:719-742 | For any operations and keys, replaying the stretch is right whatever the values and wherever in it the store stands, if and only if that condition holds. |
| `Replay.CommandAnswers` | internal/consensus/raft.go:719-742 | What a command answers and what it leaves of every key, from what the keys held; a failed command leaves the store as it was. |
| `Replay.RestartReplay` | internal/consensus/raft.go:107-119 | A restarted node over a surviving store that applies up to any index at or past the old `lastApplied` holds what applying from empty gives, for replayable logs. |
| `Replay.RestartReplayIff` | internal/consensus/raft.go:107-119 | For any operations and keys this holds of every node and all values if and only if the log is replayable. |
| `Replay.SnapshotCatchUp` | internal/consensus/raft.go:357-396 | Installing the snapshot of index i and applying up to j gives the store of applying 1 to j, and moves both indices to i whatever they were. |
| `Replay.LateSnapshotCatchUp` | internal/consensus/raft.go:745-762 | The same with data captured later than its index, for a replayable stretch. |
| `Replay.LateSnapshotIff` | internal/consensus/raft.go:745-762 | For any operations and keys, a late snapshot is caught up rightly by every node, whatever the values and however late, if and only if the stretch after its index is replayable. |
| `Handlers.SnapshotLaw` | internal/consensus/raft.go:357-396 | A snapshot is installed if and only if the request is not of an older term and its data decodes; then store and kept snapshot are its data, both indices its index, and exactly the entries above it are left; an older request changes nothing, and one that does not decode only term, vote, role, maps and leader name. |
| `Handlers.TakeSnapshotLaw` | internal/consensus/raft.go:744-762 | Taking a snapshot keeps the given data, drops exactly the entries up to the index, saves the boundary without telling memory, and changes nothing else. |
| `Handlers.RestartLaw` | internal/consensus/raft.go:84-122 | A restarted node is a follower that knows no leader, with the term and vote it saved, the entries it stored and the boundary it saved, nothing committed or applied, and its store if that survives. |
| `Snapshots.StaleSnapshotsDoNothing` | internal/consensus/raft.go:367-369 | Over any sequence of inputs, leaving out the snapshot requests that were of an older term when they arrived changes nothing. |
| `Snapshots.SnapshotKept` | internal/consensus/raft.go:388-392 | Over any sequence of inputs the snapshot a node keeps for its peers is the last one installed or taken since it started. |
| `Compaction.CompactionReads` | internal/consensus/log.go:171-251 | After compacting up to i and reopening, last index, last term, terms from i up, and entries and ranges above i read as on the whole log. |
| `Compaction.BoundaryUnknownUntilReopened` | internal/consensus/log.go:257-282 | Before reopening, the last index is right exactly when something was left above the boundary, and the term at the boundary reads as absent. |
| `Compaction.TrimmedSplice` | internal/consensus/raft.go:270-290 | Either entry loop, on any log trimmed at a boundary and entered at or above it, leaves the trimmed form of what it leaves on the whole log, whether memory knows the boundary or not. |
| `Compaction.AppendOnCompacted` | internal/consensus/raft.go:216-308 | In any variant, a request that probes at or above the boundary gets from the compacted log the reply of the whole one, but that a conflict hint stops at the boundary, and leaves the compacted form of the same log. |
| `Compaction.AppendBelowBoundary` | internal/consensus/raft.go:243-290 | A request that probes below the boundary is refused with the probed index as the hint, unless it starts at 0 or names no term; then it is accepted, the entries below the boundary are stored again, the one at the boundary never is, and if its term is another than the boundary's the log above is emptied before the loop goes on. |
| `Compaction.AppendUnawareBelow` | internal/consensus/raft.go:243-290 | A running node that has compacted its log and not reopened it refuses every probe at or below the boundary that names a term with hint 1, and stores again what it accepts there, the boundary's own entry included. |
| `Compaction.AppendUnawareAbove` | internal/consensus/raft.go:243-290 | Above the boundary it answers as with the whole log, but that a conflict hint stays above the boundary, unless nothing is left: then the hint is 1. |
| `Compaction.BlindMatch` | internal/consensus/raft.go:615-639 | A leader in that state sends a peer with `nextIndex` 1 an empty request from 0; any follower of no later term accepts it, and the leader counts it as matching to the end of whatever log it has. |
| `Compaction.BlindCommit` | internal/consensus/raft.go:662-679 | On such an answer the leader commits any entry of its term, within that length, that lacked one holder. |
| `CompactedRestart.EndsWith` | internal/consensus/raft.go:692-717 | A node restarted over a log compacted up to i, with j committed again, passes over one compacted index per apply call, and from call i + 1 on has applied exactly the entries from i + 1 to j to the store it restarted with. |
| `CompactedRestart.CompactedRestartIff` | internal/consensus/raft.go:107-119 | For any operations and keys, that store is the one of a whole pass for all values: with the store lost at the crash, if and only if every key the compacted entries may leave a value in has a Put or a Delete after them; with the store kept, if and only if the entries after them are replayable. |
| `Compaction.SnapshotRoundTrip` | internal/consensus/raft.go:744-762 | What one node snapshots at its `lastApplied`, another installs and completes from its own log to the store of the whole prefix; both logs, once reopened, read the right terms from the boundary up. |
| `IndexKeys.KeyRoundTrip` | internal/consensus/log.go:289-302 | Encoding and decoding of 64-bit indices undo each other, both ways. |
| `IndexKeys.KeyOrder` | internal/consensus/log.go:289-302 | Byte order of keys is numeric order of indices. |
| `RaftLog.LastKeyIsLastIndex` | internal/consensus/log.go:209-219 | The cursor's last key decodes to the greatest index in the log. |
| `RaftLog.DeleteFrom` | internal/consensus/log.go:194-205 | The cursor walk from a key to the end deletes exactly the entries with an index at or above it. |
| `RaftLog.DeleteUpTo` | internal/consensus/log.go:260-273 | The cursor walk from the first key deletes exactly the entries with an index at or below the given one. |
| `RaftLog.RaftLog.constructor` | internal/consensus/log.go:39-83 | Opening a store takes log, term, vote and boundary from disk, with zero for what was never saved. |
| `RaftLog.RaftLog.SaveMeta` | internal/consensus/log.go:86-99 | Saves term and vote and leaves the log. |
| `RaftLog.RaftLog.LoadMeta` | internal/consensus/log.go:101-120 | Returns the saved pair, or zero and the empty name. |
| `RaftLog.RaftLog.Append` | internal/consensus/log.go:126-135 | Stores the entry at its own index and nothing else. |
| `RaftLog.RaftLog.AppendBatch` | internal/consensus/log.go:137-155 | Stores the entries in order, the later of two with one index winning. |
| `RaftLog.RaftLog.Get` | internal/consensus/log.go:157-169 | Finds an entry exactly when one is stored at the index. |
| `RaftLog.RaftLog.GetRange` | internal/consensus/log.go:171-190 | Returns the entries from one index to another, up to the first one missing. |
| `RaftLog.RaftLog.TruncateFrom` | internal/consensus/log.go:192-205 | Leaves exactly the entries below the index. |
| `RaftLog.RaftLog.LastIndex` | internal/consensus/log.go:207-219 | Returns the greatest stored index, or the boundary when nothing is stored. |
| `RaftLog.RaftLog.LastTerm` | internal/consensus/log.go:221-235 | Returns the term of the last entry, falling back to the boundary's. |
| `RaftLog.RaftLog.TermAt` | internal/consensus/log.go:237-251 | Returns the term at an index, the boundary's term at the boundary, and 0 when absent. |
| `RaftLog.RaftLog.Compact` | internal/consensus/log.go:257-282 | Leaves exactly the entries above the index and saves the boundary, while the boundary in memory stays. |
| `LeaderMaps.LeaderState.constructor` | internal/consensus/state.go:17-27 | Every peer, and no other, starts with the entry after the last one to be sent and nothing matched. |
| `LeaderMaps.LeaderState.CountHolders` | internal/consensus/state.go:47-52 | The counting loop returns one plus the number of peers known to hold the index. |
| `LeaderMaps.LeaderState.CommitCandidate` | internal/consensus/state.go:35-58 | The two nested loops return the greatest committable index, or 0 when there is none. |
| `LeaderMaps.LeaderState.RecordMatch` | internal/consensus/raft.go:663-667 | A match is raised and never lowered, and the next index follows it. |
| `MemoryEngine.MemoryEngine.Get` | internal/storage/memory.go:21-32 | Finds a value exactly when the key is stored. |
| `MemoryEngine.MemoryEngine.Delete` | internal/storage/memory.go:44-50 | Removes the one key, present or not. |
| `MemoryEngine.MemoryEngine.Scan` | internal/storage/memory.go:52-65 | The loop returns exactly the keys that start with the prefix, with their values. |
| `MemoryEngine.MemoryEngine.RestoreSnapshot` | internal/storage/memory.go:74-84 | Replaces the contents, or changes nothing when the snapshot does not decode. |
| `MemoryEngine.TransferSnapshot` | internal/storage/memory.go:67-84 | What one engine snapshots another restores: both then hold the same data. |
| `MemoryEngine.MemoryEngine.Apply` | internal/consensus/raft.go:719-742 | A no-op, a Put and a Delete succeed, a CAS exactly when the key holds what it expects, an absent key holding the empty value, an unknown operation never; success sets or removes the one key, failure changes nothing. |
| `RaftNode.RaftNode.constructor` | internal/consensus/raft.go:84-122 | A node opens as a follower with the saved term, vote and log, and everything else at zero. |
| `RaftNode.Restarted` | internal/consensus/raft.go:84-122 | Opening a node over the disk of another is the restart step of the cluster model. |
| `RaftNode.RaftNode.BecomeFollower` | internal/consensus/raft.go:542-552 | Stepping down sets the term, clears vote and leader maps and saves the pair. |
| `RaftNode.RaftNode.HandleRequestVote` | internal/consensus/raft.go:310-355 | Node and reply are those of the vote step, in all its refusals. |
| `RaftNode.RaftNode.StartElection` | internal/consensus/raft.go:435-458 | The node stands for the next term, and the request advertises the log it then has. |
| `RaftNode.RaftNode.OnVoteReply` | internal/consensus/raft.go:478-499 | The running count and the win signal stay what the set of granted votes says. |
| `RaftNode.RaftNode.BecomeLeader` | internal/consensus/raft.go:514-540 | A candidate starts leading with fresh maps and a no-op; any other node is left alone. |
| `RaftNode.RaftNode.FinishElection` | internal/consensus/raft.go:503-512 | The node becomes leader exactly when the granted votes reach the quorum and it is still a candidate. |
| `RaftNode.RaftNode.Propose` | internal/consensus/raft.go:154-178 | A leader appends the command after its last entry; any other node names the leader it knows and changes nothing. |
| `RaftNode.RaftNode.MakeAppend` | internal/consensus/raft.go:572-639 | The request carries everything from `nextIndex` to the end with the term before it, unless a snapshot is due. |
| `RaftNode.ConflictIndex` | internal/consensus/raft.go:258-265 | The backward loop finds the hint of the model, which `Backtracking.HintIsRunStart` characterises. |
| `RaftNode.SpliceEntries` | internal/consensus/raft.go:270-290 | The entry loop over the store is the splice of the model, in either variant. |
| `RaftNode.RaftNode.HandleAppendEntries` | internal/consensus/raft.go:216-308 | Node and reply are those of the AppendEntries step: stale term, missing entries, conflict with hint, acceptance and commit. |
| `RaftNode.RaftNode.OnAppendReply` | internal/consensus/raft.go:649-688 | The node is that of the reply step: step down, raise match and commit, or back up. |
| `RaftNode.RaftNode.ApplyCommitted` | internal/consensus/raft.go:690-717 | The apply loop is the apply step, an unreadable entry passed over and ending the loop included. |
| `RaftNode.RaftNode.HandleInstallSnapshot` | internal/consensus/raft.go:357-396 | Node and reply are those of the snapshot step, with the term of the reply taken before stepping down. |
| `RaftNode.RaftNode.TakeSnapshot` | internal/consensus/raft.go:744-762 | Compacts the log and keeps the data, whatever index it was read at. |

## Left out

- HTTP transport, API server, JSON encoding and `main`: messages are values and arrive in any order, any number of times or never.
- Timers, random timeouts, contexts and deadlines: a timeout may fire at any step; that commands can always be committed is proved (`CatchingUp.AlwaysCommittable`), that they will be is not.
- Goroutines, mutexes and channels: each critical section is one step, and steps interleave where the lock is released.
- The inside of BoltDB, including what its cursor does when keys are deleted under it: the bucket is an ordered map.
- `BoltEngine` as a class of its own: it is the same map as `MemoryEngine` that survives a restart.
- Snapshots sent by a leader, in the cluster runs: snapshots and compaction are covered for one node by `Replay.dfy`, `Compaction.dfy`, `CompactedRestart.dfy` and `VoteDiscipline.dfy`.
- 64-bit wrap-around above the log store: indices and terms are unbounded in the node; methods that store or read an entry require its index, and the one after the last, to fit 64 bits.
- Giving up on a waiting write: a call that is cancelled leaves the table of waiting calls, with whatever call waits at its index by then; that somebody is never answered is not modelled. The table itself is kept along runs (`ClientReplies.dfy`), not in the `RaftNode` object.
- Triggering a snapshot by log length: when one is taken is open, what it does is modelled.
- Errors of the log store other than an absent entry.
- Health tracking, metrics, configuration, transaction batching and status getters.
- AsWritten.CleanRunIsIntended: gives a sufficient condition on runs, not an exact one, because a conflict or a stale reply may by chance change nothing that matters; the exact statement per request is `WrittenHandler.HandlerAsIntendedIff` and per cluster `Repairs.CompletenessIff`.
- CatchingUp.AlwaysCommittable: needs the entry loop that reads the term again; with the loop as written followers may hold logs with holes.
- CasReplay.RestartsKeepStoresIff: speaks of the logs a first leader writes, the no-op followed by client commands, in any order and number.
