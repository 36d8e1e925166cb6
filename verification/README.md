# Verified model of the job scheduler

The repository is a replicated cron service: a hand-written Raft (`internal/raft`), a job store on
top of it (`internal/store`), a cron parser (`pkg/cron`), a scheduler that fires jobs on the leader
(`internal/scheduler`), and technical indicators computed in C++ (`ml/indicators`). This project
models the logic of these parts in Dafny and proves what they are for.

## How the files fit together

| files | what they hold |
|---|---|
| `Quorum`, `StoreTypes`, `RaftTypes` | majorities, the values that travel through the log, log entries and messages |
| `RaftNode` | what each handler of a Raft node computes, disk included, as functions on a node |
| `RaftServer` | the objects `Raft` and `Persister`, updated in place, each method proved equal to its function |
| `RaftCluster` | the running cluster: nodes with disks, all messages ever sent, heartbeat rounds in flight, crashes and restarts, also between the two saves of one handler |
| `RaftProtocol`, `RaftInvariant` | six small protocol steps with history, and the invariant they keep |
| `RaftRefinement` | every event of the cluster is one protocol step, or none |
| `RaftSafety` | the theorems about all runs of the cluster |
| `RaftHandlers` | what each handler must do in a run: grant, count, commit, acknowledge, step down |
| `RaftReplication`, `RaftCompaction` | duplicated and late messages, fast backup, log compaction |
| `RaftInstall`, `RaftInstallRun` | what installing a leader's snapshot does to a node; a run in which it breaks Log Matching |
| `Store`, `StoreEffects`, `RunHistory`, `StoreServer` | applying commands; what each command and a history of commands does to jobs and runs; which command each kept run came from and where the others went; the store object with its loops |
| `ReplicatedStore` | cluster and stores together, from election to the apply loop, the snapshot and the woken waiter |
| `Calendar`, `Cron`, `CronText`, `CronRoundTrip`, `CronGrammar` | the civil calendar, the search for the next minute, the parser, text and meaning both ways, the grammar it accepts |
| `RunKeys`, `Scheduler`, `SchedulerEffects`, `SchedulerRaces`, `SchedulerServer` | run keys, the firing protocol over the store, what it leaves of jobs and runs, fires interleaved step by step, the scheduler's loops |
| `Indicators`, `IndicatorLaws` | the indicator loops over the reals; closed forms and exact values that fix them |

The central results, each over every run or every input:

* Raft: Election Safety, Log Matching, Leader Completeness and State Machine Safety hold in every run
  with lost, duplicated, delayed and reordered messages, crashes (between the two saves of a handler
  too), restarts and log compaction. No index in the code is ever out of range, `commitIndex` never
  decreases while a node stays up, and no committed entry is ever cut. A vote is granted, and a
  request accepted, exactly when the two full logs say so, and what a leader has committed when it
  begins a round is committed by whoever accepts a request of that round.
* Replicated store: two stores that have consumed equally many entries are equal but for `UpdatedAt`,
  whatever crashed in between; the snapshot on disk is always the fold of the entries through
  `lastIncludedIndex`; a woken waiter's index is on disk for good.
* Cron: the search that skips months, days and hours finds exactly what a search minute by minute
  finds, the first match in civil time; for every expression `Parse` accepts there is always a next
  minute; the accepted texts are exactly those of a grammar, and text reads back as its meaning.
* Run table: its runs stand in the order of the commands that added them, each held ever since, and
  every run no longer there was deleted with its job or was older than all that is kept when the
  table was full.
* Scheduler: with fires as single steps, a scheduled dispatch never repeats a job and minute, even
  when the run table has forgotten it, and no due job is held back by its own history; every cursor
  is at all times a minute its own expression matches, the first after the fire that set it. With fires
  cut into their steps and anything in between, it is known exactly which fires repeat a minute.

Statements that are false of the code, each with the exact condition under which it holds, and where
that leaves room for doubt an input or a run that shows it:

* Fast backup can move `nextIndex` forward between arbitrary logs (`BackUpMayJumpForward`); it moves
  back exactly when the leader does not hold the conflicting term further on (`BacksUpIff`), which is
  so between any two nodes of a run (`BackUpConverges`).
* A compacted follower's conflict hint stops at the first index it still has (`AppendEntriesCommutes`).
* `InstallSnapshot` keeps the follower's suffix without comparing terms. In some run of three nodes the
  snapshot a leader sends breaks Log Matching on the follower (`RunBreaksLogMatching`). Against
  another node a call keeps it exactly when the terms agree at the snapshot's index or the two share
  no term beyond it (`InstallKeepsMatchingIff`); against every node, exactly when the call does what
  Figure 13 of the Raft paper asks for (`InstallAlwaysMatchesIff`, `InstallIsFigure13Iff`).
* `InstallSnapshot` can leave a new term unsaved (`InstallSavesIff`).
* The day rule of `Next` is not the Vixie rule its comment names (`DayRuleIsVixieIff`): a `*` in one
  day field makes the other one idle, so `0 0 13 * *` fires at every midnight
  (`ThirteenthFiresDaily`).
* A minute can be dispatched twice when fires interleave (`BothDispatch`): a second fire repeats it
  exactly when its check came before the first one's record, even if that was already between the
  first one's check and record (`RepeatsIff`).
* For flat prices the RSI is 100 both ways up, so turning prices upside down does not give the
  complement to 100; it does exactly when some change is left in the averages (`RsiMirroredIff`).

Other places where the code and what is written about it differ; the model follows the code:

* `AppendEntries` raises `currentTerm` without clearing `votedFor`, so `votedFor` may be a vote of an
  earlier term, and a voter may refuse a candidate in a term it has not voted in (`VoteGrantedIff`). At
  most one vote per term still holds (`OneVotePerTerm`).
* `sendHeartbeats` reads its term once and re-checks only that the node leads, so a message may carry
  a lower term than its sender has. The cluster allows this.
* After stepping down over a reply's higher term, `sendHeartbeats` goes on to handle the reply.
* `ReconcileMissedJobs` does not look at `Enabled` (`CatchUp`).
* `docs/forward.md` says a manual trigger bypasses the idempotency check; the code makes the check
  (`ManualDispatchIff`).

## Model

| member | source | states |
|---|---|---|
| RaftSafety.ElectionSafety | internal/raft/raft.go:226-275 | at any two moments of a run, two leaders of the same term are the same node, across crashes and restarts |
| RaftSafety.OneVotePerTerm | internal/raft/raft.go:762-767 | no voter grants two candidates its vote in one term, although `votedFor` can be out of date |
| RaftSafety.LogMatching | internal/raft/raft.go:787-825 | two nodes with the same term at the same index hold the same terms and entries through it, a compacted node's last included index too, at any two moments |
| RaftSafety.LeaderCompleteness | internal/raft/raft.go:258-275 | what a node has committed is in the log of every leader of its term or a later one, from then on |
| RaftSafety.StateMachineSafety | internal/raft/raft.go:427-467 | no two nodes ever deliver different commands for the same index |
| RaftSafety.CommittedAgree | internal/raft/raft.go:846-867 | any two nodes agree on what both have committed |
| RaftSafety.CommittedNeverCut | internal/raft/raft.go:800-825 | no event, not even a restart, takes an entry at or below `commitIndex` out of a node's log |
| RaftSafety.CommitWithinMessage | internal/raft/raft.go:587-637 | every request sent carries the log at least as far as its LeaderCommit |
| RaftSafety.EventKeepsCommit | internal/raft/raft.go:830-840 | on any cluster, only a restart or a request that claims too much can lower `commitIndex` |
| RaftSafety.CommitMonotone | internal/raft/raft.go:830-840 | in a run `commitIndex` never decreases while a node stays up, although the clamp alone could lower it |
| RaftSafety.IndicesOrdered | internal/raft/raft.go:51-88 | lastIncludedIndex <= lastApplied <= commitIndex <= lastLogIndex, and the disk holds the current Raft state, always |
| RaftSafety.NeverPanics | internal/raft/raft.go:1019-1042 | no event of any run makes the code index its log or its peers out of range |
| RaftSafety.SuccessAgrees | internal/raft/raft.go:800-842 | after a successful AppendEntries the follower holds exactly the message's entries at their indices |
| RaftSafety.SuccessAgreesWithSender | internal/raft/raft.go:779-842 | in every run, after a successful AppendEntries, however late and even without entries, the follower agrees with the log its sender had through PrevLogIndex plus the number of entries |
| RaftSafety.LateMessageHarmless | internal/raft/raft.go:800-825 | in every run a late request of a leader takes away nothing the follower shares with that leader's log, what it has acknowledged included |
| RaftSafety.BackUpConverges | internal/raft/raft.go:691-721 | between uncompacted nodes of a run each rejection lowers nextIndex, and rejections number at most one more than the terms in the follower's log |
| RaftHandlers.VoteGrantedIff | internal/raft/raft.go:226-275 | in every run a vote is granted exactly when the request is not of an earlier term, `votedFor` is empty or names the candidate or the term is new, and the full log the candidate stood with is at least as up-to-date as the voter's full log |
| RaftHandlers.VoteEffect | internal/raft/raft.go:226-275 | a vote request leaves the later of both terms, the vote given or cleared with the term, both on disk, and replies the old term |
| RaftHandlers.VoteCounts | internal/raft/raft.go:543-551 | a granted reply counts its voter once, and the candidate leads exactly when more than half of all nodes have voted for it; a refusal changes nothing |
| RaftHandlers.RequestTeaches | internal/raft/raft.go:237-245 | a request of a later term makes its receiver follow in that term, an AppendEntries without touching its vote; an AppendEntries of an earlier term changes nothing |
| RaftHandlers.ReplyTeaches | internal/raft/raft.go:529-541 | a reply of a later term makes a candidate or leader follow in that term, saved with its vote cleared; replies to an election or reign that is over change nothing |
| RaftHandlers.AppendCommits | internal/raft/raft.go:830-840 | an accepted request with a greater LeaderCommit sets `commitIndex` to it, or to the end of the message if that is lower; nothing else does |
| RaftHandlers.FollowerCommits | internal/raft/raft.go:830-840 | in every run, after an accepted request the follower's `commitIndex` is the greater of its own and LeaderCommit; after a rejected one it is unchanged |
| RaftHandlers.CommitSpreads | internal/raft/raft.go:587-637 | what a node had committed when it began a heartbeat round is committed by every follower that accepts a request of that round, however late |
| RaftHandlers.AcceptedIff | internal/raft/raft.go:754-797 | in every run a request is accepted exactly when it is not of an earlier term and the follower still has the index before its entries and agrees through it with the log its sender had |
| RaftHandlers.FirstHeartbeat | internal/raft/raft.go:555-565 | a new leader knows of no match and asks every peer about the very end of its log, without entries |
| RaftHandlers.AckRecorded | internal/raft/raft.go:665-681 | an acknowledgement raises the peer's match to the end of the message, never lowers it, moves nextIndex just past it and touches no other peer |
| RaftHandlers.LeaderCommits | internal/raft/raft.go:846-867 | after an acknowledgement the leader has committed up to the greatest index of its own term that more than half of all nodes hold, and no further |
| RaftHandlers.HintFitsFollower | internal/raft/raft.go:774-785 | a request from before the follower's snapshot or past its log is followed by one at the nearest index the follower has |
| RaftHandlers.HintOfTerm | internal/raft/raft.go:697-720 | a hint about a term makes the leader, compacted or not, resume after its last entry of that term, or at the start of the follower's run of it |
| RaftHandlers.StartedIndex | internal/raft/raft.go:321-345 | the index and term a leader answers to a submit name its command for good: whoever holds that term at that index later holds the command |
| RaftRefinement.EventRefines | internal/raft/raft.go:488-553 | every event of the cluster keeps the code's indexing in range and is one protocol step, or none |
| RaftInvariant.MoveKeeps | internal/raft/raft.go:226-275 | every protocol step keeps the eleven-part invariant, Leader Completeness by quorum intersection included |
| RaftInvariant.UpToDateKeeps | internal/raft/raft.go:258-275 | a candidate that passes the up-to-date check has every entry its voter holds that can still be committed |
| RaftRefinement.MergeKeepsCovered | internal/raft/raft.go:800-825 | merging a leader's log into a follower's never cuts it where it is committed |
| RaftReplication.AppendTwice | internal/raft/raft.go:747-843 | handling a request twice leaves the node, its disk and the reply of handling it once |
| RaftReplication.OldMessageHarmless | internal/raft/raft.go:800-825 | for any follower and any log: a request cut from that log takes away no entry the follower shares with it |
| RaftReplication.BacksUpIff | internal/raft/raft.go:691-721 | a rejection lowers nextIndex exactly when the leader does not hold the conflicting term beyond the index asked about |
| RaftReplication.BackUpMayJumpForward | internal/raft/raft.go:697-714 | two logs that agree wherever Log Matching asks, for which nextIndex jumps forward |
| RaftReplication.BacksUp | internal/raft/raft.go:691-721 | for logs with one source the new nextIndex lies between 1 and PrevLogIndex |
| RaftReplication.GenuineOneSource | internal/raft/raft.go:779-797 | the logs a protocol can produce have one source and non-decreasing terms |
| RaftReplication.NeverBelowAgreement | internal/raft/raft.go:779-797 | the next attempt never starts below an index where both logs already agree |
| RaftReplication.ConflictTermFalls | internal/raft/raft.go:779-797 | a further rejection is over a strictly lower term of the follower's log |
| RaftReplication.RejectionsBounded | internal/raft/raft.go:691-721 | rejections number at most one more than the distinct terms in the follower's log |
| RaftCompaction.SnapshotKeepsTail | internal/raft/raft.go:184-205 | compaction keeps the last index and every term and entry after the snapshot |
| RaftCompaction.SnapshotSurvivesRestart | internal/raft/raft.go:391-413 | a restart after compaction finds the same log, term, vote and snapshot |
| RaftCompaction.RequestVoteCommutes | internal/raft/raft.go:226-275 | voting on the compacted log is compacting after voting, reply and disk included |
| RaftCompaction.AppendEntriesCommutes | internal/raft/raft.go:747-843 | the same for AppendEntries from the snapshot on, up to a conflict hint that stops at the first index kept |
| RaftInstall.InstallKeepsOrder | internal/raft/raft.go:918-925 | installing a snapshot keeps the indices ordered and lowers none of them |
| RaftInstall.InstallEffect | internal/raft/raft.go:882-960 | role, term, vote, commit and applied index, disk, snapshot and reply after every kind of call |
| RaftInstall.InstallKeepsSuffix | internal/raft/raft.go:907-916 | what is kept is the node's own suffix, whatever its term at the snapshot's index |
| RaftInstall.InstallIsFigure13Iff | internal/raft/raft.go:907-916 | it keeps what Figure 13 of the Raft paper keeps exactly when there is nothing past the snapshot or the terms agree at its index |
| RaftInstall.InstallKeepsMatchingIff | internal/raft/raft.go:907-916 | for a call that adopts its snapshot: Log Matching with another node is kept exactly unless both have the snapshot's index, the node's term there differs from the snapshot's, and the two share a term at a later index |
| RaftInstall.InstallAlwaysMatchesIff | internal/raft/raft.go:907-916 | Log Matching is kept with every node there could be exactly when nothing lies past the snapshot or the terms agree at its index |
| RaftInstall.InstallMayBreakLogMatching | internal/raft/raft.go:907-916 | two matching nodes and a call after which they agree at index 2 and hold different terms at index 1 |
| RaftInstallRun.RunBreaksLogMatching | internal/raft/raft.go:965-973 | a state of some run in which the leader's heartbeat to a node is its snapshot of a committed entry, and after installing it the node and its former self have the same term at index 2 and different terms at index 1 |
| RaftInstall.InstallSavesIff | internal/raft/raft.go:895-905 | the disk stays up to date exactly when the term is not new or the snapshot is adopted |
| RaftNode.CommitBelow | internal/raft/raft.go:846-867 | the greatest index above `commitIndex` that has the current term and a majority, or `commitIndex` if there is none |
| RaftNode.LastOfTerm | internal/raft/raft.go:697-705 | the last index of a term after the snapshot, or -1 when there is none |
| RaftNode.RunStart | internal/raft/raft.go:787-797 | the first index of the run of equal terms that ends at the conflict |
| RaftServer.Raft.constructor | internal/raft/raft.go:391-422 | a new node is what its disk says, applied and committed through lastIncludedIndex |
| RaftServer.Raft.Persist | internal/raft/raft.go:114-143 | the Raft state goes to disk beside the old snapshot |
| RaftServer.Raft.RequestVote | internal/raft/raft.go:226-275 | the method's new state and reply are those of the function the cluster's theorems are about |
| RaftServer.Raft.StartElection | internal/raft/raft.go:488-515 | the same for standing as a candidate |
| RaftServer.Raft.HandleVoteReply | internal/raft/raft.go:524-551 | the same for a vote reply, with the step to leader at a majority |
| RaftServer.Raft.BecomeLeader | internal/raft/raft.go:555-565 | the loop sets every nextIndex past the log and every matchIndex to 0 |
| RaftServer.Raft.Start | internal/raft/raft.go:321-345 | a leader appends and persists the command; any other node changes nothing |
| RaftServer.Raft.MakeAppend | internal/raft/raft.go:603-637 | the request of a heartbeat round, its term and commit index from the round's start |
| RaftServer.Raft.HandleAppendReply | internal/raft/raft.go:646-722 | the new leader state after a reply, match, commit and backup included |
| RaftServer.Raft.FindTerm | internal/raft/raft.go:697-705 | the backward loop finds the index just past the last entry of the term, or -1 |
| RaftServer.Raft.MaybeAdvanceCommitIndex | internal/raft/raft.go:846-867 | the upward loop ends with the greatest committable index |
| RaftServer.Raft.CountReplicas | internal/raft/raft.go:853-860 | the loop counts exactly the nodes known to hold the entry |
| RaftServer.Raft.AppendEntries | internal/raft/raft.go:747-843 | the method's new state and reply are those of the function the cluster's theorems are about |
| RaftServer.Raft.ConflictStart | internal/raft/raft.go:787-797 | the walk back stops at the start of the conflicting term |
| RaftServer.Raft.AppendNew | internal/raft/raft.go:800-825 | the entry loop skips what is there, cuts at the first conflict and appends the rest |
| RaftServer.Raft.ApplyNext | internal/raft/raft.go:446-462 | one round of the inner apply loop |
| RaftServer.Raft.Snapshot | internal/raft/raft.go:184-205 | the log is trimmed in place, its head made a sentinel, and state and snapshot saved together |
| RaftServer.Raft.InstallSnapshot | internal/raft/raft.go:882-960 | the method's new state is that of the function the snapshot lemmas are about |
| RaftServer.Persister.Save | internal/raft/persister.go:70-80 | Raft state and snapshot are replaced together |
| ReplicatedStore.ReplicasAgree | internal/store/store.go:226-261 | in every run of cluster and stores, two stores that have consumed equally many entries are equal but for `UpdatedAt` |
| ReplicatedStore.SameEntries | internal/raft/raft.go:446-462 | any two stores consumed the same entry at every index both have reached, across restarts |
| ReplicatedStore.RestartLosesNothing | internal/store/store.go:49-65 | the snapshot on disk is the fold of the entries through lastIncludedIndex, and replaying the rest gives the state before the crash |
| ReplicatedStore.NotifiedIsDurable | internal/store/store.go:251-260 | once a waiter's index was woken, that machine's disk holds for good a snapshot that covers it |
| ReplicatedStore.WakesExactly | internal/store/store.go:216-224 | waking an index removes that waiter alone, and marks it exactly if it was waiting |
| ReplicatedStore.NeverStuck | internal/store/store.go:255-258 | a store never asks Raft for a snapshot beyond what was applied, and no step makes Raft index out of range |
| ReplicatedStore.RunTables | internal/store/store.go:321-336 | in every run each replica's run table is bounded, has no duplicate key, stands in the order of the commands that added its runs, and lacks only what was deleted or evicted as oldest |
| Store.ApplySame | internal/store/store.go:281-319 | applying a command is deterministic but for `UpdatedAt`, whatever two clocks say |
| Store.FoldRunsOk | internal/store/store.go:321-336 | after any commands at most 1000 runs, at most one for each non-empty key |
| Store.RecordTwice | internal/store/store.go:321-359 | recording the same keyed run again changes nothing but `UpdatedAt` |
| RunHistory.InsertionOrder | internal/store/store.go:321-336 | after any commands each run in the table was added by a command since which the table has held it, in the order of those commands; any other run ever added was deleted with its job, or is older than all those kept and the table has been full since |
| Store.KeyKept | internal/store/store.go:330-334 | a key just recorded is still found after any 999 further commands that spare its job |
| Store.WithoutIsFilter | internal/store/store.go:304-312 | deleting keeps exactly the other jobs' runs, each once and in order |
| StoreEffects.DeleteEffect | internal/store/store.go:303-312 | after a delete the job is gone and every other job as before |
| StoreEffects.PutEffect | internal/store/store.go:285-302 | after a create or update the job is stored field by field, each default only where the field was empty, its creation time kept from before if not given; an update of a disabled job with a creation time leaves it disabled |
| StoreEffects.RecordEffect | internal/store/store.go:321-371 | after a record the first run with its key holds each later non-empty field, or the run is added and the oldest of a thousand goes; the job's last run and status are that run's, and nothing else about any job changes but `UpdatedAt` |
| StoreEffects.JobsAreLastPuts | internal/store/store.go:281-319 | after any commands a job is there exactly when its last create or update has no later delete, and is what that one stored |
| StoreServer.Store.constructor | internal/store/store.go:49-65 | a new store starts from the persisted snapshot, or empty |
| StoreServer.Store.ApplySnapshot | internal/store/snapshot.go:24-45 | a snapshot replaces jobs and runs together; an empty one changes nothing |
| StoreServer.Store.Submit | internal/store/store.go:73-94 | a leader appends the command and registers a waiter for its index; otherwise nothing changes |
| StoreServer.Store.HandleCommand | internal/store/store.go:226-261 | apply, snapshot, then wake the waiter; an entry that does not decode changes nothing |
| StoreServer.Store.ApplyCommand | internal/store/store.go:281-319 | the new jobs and runs are the fold's next state |
| StoreServer.Store.DropRuns | internal/store/store.go:304-312 | the filter that overwrites the slice it reads leaves exactly the other jobs' runs, in order |
| StoreServer.Store.UpsertRun | internal/store/store.go:321-336 | the loop merges into the first run with the key, or appends and evicts from the front |
| StoreServer.Store.MergeRun | internal/store/store.go:338-359 | fields the later record leaves empty keep their old values |
| StoreServer.Store.NormalizeJob | internal/store/store.go:373-389 | the defaults a job gets |
| StoreServer.Store.AlreadyFired | internal/store/store.go:163-173 | true exactly when some run has the key |
| StoreServer.Store.ListJobs | internal/store/store.go:141-149 | every job once, in no fixed order |
| Calendar.DayOfDate | pkg/cron/parser.go:175-182 | the date of a day is a date of the calendar, and counting it again gives the day |
| Calendar.DateOfDay | pkg/cron/parser.go:175-182 | every date of the calendar is the date of the day it counts |
| Calendar.MonthUntilNext | pkg/cron/parser.go:175-177 | all days before the first of the next month are in this month |
| Calendar.DateOfTomorrow | pkg/cron/parser.go:71-79 | from each day to the next the date goes on as the civil calendar does: month lengths, leap years and year ends |
| Calendar.FirstDay | pkg/cron/parser.go:56-60 | 1 January of year 1 is day 0 and no other |
| Calendar.WeekdaysTakeTurns | pkg/cron/parser.go:74 | the weekday of the next day is the next weekday, Saturday before Sunday |
| Calendar.EpochIsThursday | pkg/cron/parser.go:74 | 1 January 1970 is day 719162, a Thursday |
| Cron.Least | pkg/cron/parser.go:55-97 | the plain search returns the least accepted minute of the interval, or none if there is none |
| Cron.SkipMonth | pkg/cron/parser.go:66-69 | skipping to the next month passes over no match |
| Cron.SkipDay | pkg/cron/parser.go:71-79 | skipping to the next day passes over no match |
| Cron.SkipHour | pkg/cron/parser.go:81-85 | skipping to the next hour passes over no match |
| Cron.Search | pkg/cron/parser.go:63-96 | the loop with skips ends, and returns what the plain search finds |
| Cron.Next | pkg/cron/parser.go:56-97 | the least matching minute after t within four years, or the zero time |
| Cron.MinuteMeans | pkg/cron/parser.go:63-96 | the minute h:mi of a civil date matches exactly when mi, h and the month are in their masks and the day of the month or the weekday of that date is |
| Cron.NextIsFirst | pkg/cron/parser.go:56-97 | for a usable expression the answer is the one whole minute after now that matches with no match in between |
| Cron.LimitIsFourYears | pkg/cron/parser.go:60 | the search may go on to the same time of the same date four years later, 1 March for a 29 February that year lacks |
| Cron.NextTotal | pkg/cron/parser.go:60-96 | with no field empty there is always a next minute, after t and within 374 days |
| Cron.NextMonotone | pkg/cron/parser.go:56-97 | a later start gives no earlier minute |
| Cron.NextEnumerates | pkg/cron/parser.go:56-97 | asking again from the answer leaves out no match and repeats none |
| Cron.DayRuleIsVixieIff | pkg/cron/parser.go:71-79 | the day rule is the Vixie rule on all days exactly when both day fields are full or neither is |
| Cron.OrIsUnion | pkg/cron/parser.go:113 | OR of 64-bit words is union of their bit positions |
| Cron.ShiftIsPosition | pkg/cron/parser.go:167-169 | `1<<k` has exactly bit k, for all k and bits below 64 |
| CronText.FillRangeStep | pkg/cron/parser.go:163-171 | the loop collects the span's members |
| CronText.StepsExact | pkg/cron/parser.go:163-171 | the members are exactly lo, lo + step, lo + 2 step and so on up to hi |
| CronText.ParsePart | pkg/cron/parser.go:118-161 | a part gives the members of its span, or an error |
| CronText.ParseField | pkg/cron/parser.go:100-116 | a field gives the union over its comma parts, or an error, the `*` shortcut included |
| CronText.Parse | pkg/cron/parser.go:24-53 | five fields with their limits, or an error |
| CronText.FieldExact | pkg/cron/parser.go:100-171 | a field is accepted exactly when each part is, and holds exactly the values of its parts |
| CronText.FieldUsable | pkg/cron/parser.go:155-158 | an accepted field is not empty and stays within its limits |
| CronText.ParsedUsable | pkg/cron/parser.go:24-53 | an accepted expression has no empty field, so it always has a next minute |
| CronGrammar.NumeralIff | pkg/cron/parser.go:123-152 | a number is read exactly from digits, perhaps after one sign, that fit in 64 bits, as their place value |
| CronGrammar.PartIff | pkg/cron/parser.go:118-161 | a part is accepted with a span exactly when it is `*`, a number or two numbers with a dash, perhaps with a slash and a step, positive and within the limits |
| CronGrammar.SplitIff | pkg/cron/parser.go:105-111 | a field's parts are the one way to write it as comma-free texts joined by commas |
| CronGrammar.SpacingIsIdle | pkg/cron/parser.go:24-29 | however an expression is spaced, its words are read and nothing else |
| CronGrammar.ExpressionIff | pkg/cron/parser.go:24-53 | an expression is accepted exactly when it has five words and each is a field within its own limits |
| CronRoundTrip.AtoiOfDecimal | pkg/cron/parser.go:148-152 | a number in decimal reads back as itself, or is refused when it does not fit |
| CronRoundTrip.PartOfItem | pkg/cron/parser.go:118-161 | a written part reads back as its span, or is refused exactly when it is out of range |
| CronRoundTrip.FieldRoundTrip | pkg/cron/parser.go:100-116 | a written field reads back as the set of values it means |
| CronRoundTrip.ExpressionRoundTrip | pkg/cron/parser.go:24-53 | a written expression reads back as what its five fields mean, with an error exactly when one is out of range |
| CronRoundTrip.ThirteenthFiresDaily | pkg/cron/parser.go:71-79 | `0 0 13 * *` parses, and accepts every midnight and nothing else |
| RunKeys.KeyInjective | internal/store/store.go:194-199 | what the key hashes names one job and one minute |
| RunKeys.RunKeyText | internal/store/store.go:194-199 | what the key hashes is the job's id, a colon and the minute as year-month-dayThour:minute with leading zeros |
| Scheduler.NextRunIff | internal/scheduler/recovery.go:52-62 | the next occurrence is t exactly when the expression parses and t is the first minute after now that it matches, other than the zero time |
| SchedulerEffects.CursorsOnCron | internal/scheduler/scheduler.go:82-91 | in every run and whatever became of the submits, every job's cursor is a whole minute that its own expression matches |
| SchedulerEffects.CursorsInherit | internal/scheduler/scheduler.go:82-91 | any property that all next occurrences of an expression have, all cursors have in every run |
| SchedulerEffects.JobStays | internal/scheduler/scheduler.go:82-91 | until it is created again or deleted, a job stays in the store as it is, but for its cursor, its last run and `UpdatedAt` |
| SchedulerEffects.FireDecides | internal/scheduler/scheduler.go:76-107 | for every fate of the two submits: a fire dispatches exactly when its key is free, its expression parses and both are committed and reported; when its cursor moves, and when its run is recorded |
| SchedulerEffects.FinishRecorded | internal/scheduler/scheduler.go:108-120 | at the end of a run its record gets the end time, whole milliseconds rounded toward zero, and success, or failure with its message; the job's last status is that outcome |
| Scheduler.ScheduledAtMostOnce | internal/scheduler/scheduler.go:65-121 | over a whole run a scheduled dispatch is the first of its job and minute, manual ones and forgotten history included |
| Scheduler.DueIsDispatched | internal/scheduler/scheduler.go:65-89 | a tick whose submits commit dispatches exactly the enabled jobs whose cursor has come, for the cursor's minute, with a running record in the table, and sets the cursor to the first matching minute after now; all else is left as it was, and history never blocks one |
| Scheduler.CursorKeyFree | internal/store/store.go:163-173 | the run table never holds the key a job's cursor points at |
| Scheduler.CatchUp | internal/scheduler/recovery.go:20-36 | a missed job fires exactly when its policy is run_once, and then once; run_once and skip set its cursor to the first matching minute after now; any other policy leaves it as it is |
| Scheduler.ManualDispatchIff | internal/scheduler/scheduler.go:123-130 | a manual trigger changes nothing when the run table holds a run of the job in this minute, and otherwise dispatches it and sets the cursor to the first matching minute after now |
| Scheduler.CheckDecides | internal/scheduler/scheduler.go:76-107 | for any table checked, however old: a fire whose submits commit dispatches exactly when that table lacks its key |
| SchedulerRaces.AloneIsFire | internal/scheduler/scheduler.go:76-107 | the three steps of a fire with nothing in between are the protocol's one step |
| SchedulerRaces.DispatchesIff | internal/scheduler/scheduler.go:78-107 | in every interleaving, a finished fire whose submits commit dispatched exactly when the table held no such key at its check |
| SchedulerRaces.RepeatsIff | internal/scheduler/scheduler.go:76-107 | in every interleaving, after the first record of a minute by one fire, another fire of that minute repeats it exactly when its check came before that record; a check up to 1000 sparing acts after it is stopped |
| SchedulerRaces.BothDispatch | internal/scheduler/scheduler.go:76-107 | two fires of any minute not yet recorded, both checking before either records, both dispatch it |
| Scheduler.MoveKeeps | internal/scheduler/scheduler.go:76-121 | every move, with every fate of its submits, keeps all recorded and dispatched minutes strictly before the cursor |
| Scheduler.PassIsMoves | internal/scheduler/scheduler.go:65-74 | the job copies a pass works on never go out of date: a pass is one move for each job, in turn |
| SchedulerServer.SchedulerLoop.FireJob | internal/scheduler/scheduler.go:76-107 | the step-by-step fire leaves the state and dispatches the run that the protocol's fire does |
| SchedulerServer.SchedulerLoop.Finish | internal/scheduler/scheduler.go:109-120 | the finished record is submitted under the same key |
| SchedulerServer.SchedulerLoop.Tick | internal/scheduler/scheduler.go:65-74 | the loop is a pass over a listing of all jobs |
| SchedulerServer.SchedulerLoop.ReconcileMissedJobs | internal/scheduler/recovery.go:20-36 | the same for catching up |
| SchedulerServer.SchedulerLoop.FireNow | internal/scheduler/scheduler.go:123-130 | an unknown job is reported and changes nothing; a known one is fired for now |
| SchedulerServer.SchedulerLoop.NextRun | internal/scheduler/recovery.go:52-62 | the next occurrence, or none for an expression that does not parse |
| Indicators.Sma | ml/indicators/indicators.cpp:81-101 | the rolling sum gives each window's mean; empty before the first full window; an error for a bad period |
| Indicators.Ema | ml/indicators/indicators.cpp:104-125 | seeded with a mean, then smoothed; empty slots and errors as in the code |
| Indicators.EmaWithin | ml/indicators/indicators.cpp:119-122 | an EMA value lies between the least and the greatest price so far |
| Indicators.EmaShifted | ml/indicators/indicators.cpp:104-125 | moving all prices by a constant moves the EMA by it |
| Indicators.Macd | ml/indicators/indicators.cpp:128-168 | the inline signal line is the EMA of the MACD line from index slow-1, and the histogram is their difference |
| Indicators.MacdShifted | ml/indicators/indicators.cpp:147-149 | moving all prices by a constant leaves the MACD line unchanged |
| Indicators.Rsi | ml/indicators/indicators.cpp:44-78 | Wilder's averages of gains and losses, and their index, at every defined slot |
| Indicators.StrengthIsShare | ml/indicators/indicators.cpp:65 | the index is the gain's share in percent, and 100 exactly when the average loss is zero |
| Indicators.RsiWithin | ml/indicators/indicators.cpp:67-75 | every defined RSI lies in 0 to 100 |
| Indicators.RsiMirroredIff | ml/indicators/indicators.cpp:44-78 | for prices turned upside down the RSI is its complement to 100 exactly when the average gain and the average loss are not both zero |
| Indicators.Atr | ml/indicators/indicators.cpp:171-208 | true ranges, seeded with a mean, then smoothed |
| Indicators.TrueRangeIsSpan | ml/indicators/indicators.cpp:187-192 | the true range is the day's range, from the second day on stretched to reach the previous close |
| Indicators.AtrWithin | ml/indicators/indicators.cpp:203-205 | an ATR value lies between the least and the greatest true range so far |
| Indicators.Bollinger | ml/indicators/indicators.cpp:211-237 | middle, upper and lower bands from the window's mean and variance |
| Indicators.BandsAround | ml/indicators/indicators.cpp:231-233 | the root is taken of a non-negative number, and the bands lie evenly around the middle |
| IndicatorLaws.EmaClosed | ml/indicators/indicators.cpp:104-125 | in closed form: the newest price weighs 2 / (period + 1), each older one as much less, the seed mean the rest |
| IndicatorLaws.EmaOnRamp | ml/indicators/indicators.cpp:104-125 | on a ramp the EMA lags by exactly half a period less half a step, for good |
| IndicatorLaws.MeanOnRamp | ml/indicators/indicators.cpp:81-101 | and so does the mean of the window that ends at the price |
| IndicatorLaws.MacdOnRamp | ml/indicators/indicators.cpp:147-149 | on a ramp the MACD line is the slope times half the difference of the periods, up for rising prices |
| IndicatorLaws.MacdAddsUp | ml/indicators/indicators.cpp:128-168 | where each of the three lines is defined, and MACD is signal plus histogram |
| IndicatorLaws.GainClosed | ml/indicators/indicators.cpp:44-78 | the average gain in closed form over the rises, the newest weighing 1 / period |
| IndicatorLaws.LossClosed | ml/indicators/indicators.cpp:44-78 | the average loss likewise over the falls |
| IndicatorLaws.RisingIsHundred | ml/indicators/indicators.cpp:44-78 | prices that never fall have an RSI of 100 |
| IndicatorLaws.FallingIsZero | ml/indicators/indicators.cpp:44-78 | prices that never rise have an RSI of 0 once a fall is left in the average |
| IndicatorLaws.AtrClosed | ml/indicators/indicators.cpp:171-208 | the ATR in closed form over the true ranges, the newest weighing 1 / period |
| IndicatorLaws.VarianceIsMeanOfSquares | ml/indicators/indicators.cpp:211-237 | the variance is the mean of the squares less the square of the mean |
| IndicatorLaws.BandsApart | ml/indicators/indicators.cpp:231-233 | the bands are 2 k standard deviations apart |

## Left out

- `InstallSnapshot` and `sendSnapshot` are not events of the cluster: Log Matching is false with them (`RunBreaksLogMatching`), and it is not settled which of the other theorems would survive. RaftInstall is about single calls. In the cluster a follower too far behind receives nothing. The store's snapshot messages and `pendingSnapshot` are left out with them.
- Liveness: election timeouts, random delays, goroutine scheduling, tickers, `Kill`. A one-node cluster never elects itself.
- TCP and `net/rpc` (`internal/raft/rpc.go`), gob and JSON bytes and their errors, the file persister's rename: encoding is the identity, and a save is one step.
- RaftServer.Raft.HandleVoteReply: keeps the set of voters where the code keeps their number; a reply may be handled more than once, which the code rules out.
- Messages stay in the network for ever and may arrive after a restart of either end; the code's RPCs end with their connection.
- ReplicatedStore.NotifiedIsDurable: is about the index a `Submit` waits for, not its own command, because another leader's entry may take that index.
- A store without a Raft node (`rf == nil`), and the legacy command type `Cmd`, which only older callers use.
- `GetRuns`, `GetJob` and `LastRunTime`: plain reads. `CreateJob` and `UpdateJob` of the store, which stamp a job's times before they submit it: the model's commands carry any times.
- Cron.Next: UTC only, without time zones and daylight saving. Times are nanoseconds since year 1, and from the first line on whole minutes.
- CronText.FillRangeStep: integers are unbounded, so a step near the 64-bit limit does not wrap around.
- Masks are sets of bit positions; `OrIsUnion` and `ShiftIsPosition` justify this for 64-bit words. The second field and `nextBit` are unused. The texts of parse errors are not modelled.
- RunKeys.KeyInjective: is about the text that is hashed; SHA-256, its truncation and collisions are not modelled. Minutes are those of years 1 to 9999, the range JSON can carry.
- Scheduler.ScheduledAtMostOnce: takes a fire as one step and a clock that does not go back; `SchedulerRaces.RepeatsIff` says what interleaving does.
- Scheduler.PassIsMoves: fires run one after another, where the code starts a goroutine for each; `SchedulerRaces` has them interleave.
- SchedulerServer.SchedulerLoop.Tick: the same, each fire ends before the next begins.
- SchedulerServer.SchedulerLoop.ReconcileMissedJobs: the same for the run_once fires.
- Scheduler.MoveKeeps: jobs enter through `POST /jobs` (internal/api/handlers.go:44-66), which sets NextRun to the next occurrence. Computing it and applying the command are one step here, like a fire; in the code a fire of that very minute may fall in between, and the new cursor would then point at a recorded key.
- Executors, leadership checks and the tick's timing: their outcomes are parameters of the moves.
- Indicators over floating point: rounding and not-a-number arithmetic. `sqrt` is a parameter, assumed non-negative. `obv` is left out: it would only add an easy member.
- REST API, Kafka worker, Redis and Timescale clients, forecasting models, probes, scripts, SQL and `ClusterRouter`: input and output, or thin wrappers.
