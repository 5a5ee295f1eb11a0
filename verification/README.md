# LinkRaft in Dafny

A model of LinkRaft's replicated key-value store and of the link-sharing
application on top of it, with proofs of what they promise. `dafny verify
dfyconfig.toml` checks everything (Dafny 4.11, no other dependency).

LinkRaft is a Raft written from scratch (`internal/raft`) that drives a key-value
store with a write-ahead log and snapshots (`internal/kvs`); a web application
(`internal/api/handler`) keeps links, comments and votes in that store together
with hand-maintained lists and counters.

## How the model is laid out

**The cluster.** `Protocol.dfy` has a node's state under its lock and every handler
as a function on it: elections, pre-vote, vote and append handlers, back-off, commit
rule, waiting calls, and the configuration derived from the log. `Cluster.dfy` runs
these against each other: sixteen kinds of step, a network that loses, duplicates,
delays and reorders, timers that expire whenever they may, crashes anywhere, also
between two durable writes of one handler. A run is any sequence of such steps.

The protocol argument is kept apart from the handlers. `Consensus.dfy` has a history
of votes, reigns and acknowledgements, ten small actions that extend it, and an
invariant that all ten keep; `Reigns.dfy` proves that for those that change logs and
reigns. `Simulation.dfy` shows that every step of the cluster is
a composition of these actions, so that a history can be kept beside any run. The
theorems on runs are in `Safety.dfy`, `Reads.dfy`, `Proposals.dfy` and `PreVote.dfy`;
`Counters.dfy` says what a counter holds after a log. They hold for a fixed membership;
`TwoChanges.dfy` is a run with membership changes for which they fail, built from the
moves of `Elections.dfy`.

Safety would also hold of a cluster that does nothing. That this one does what it should
is proved beside it: `Voting.dfy` says exactly when votes are given, and that among any
nodes somebody can be elected; `Commits.dfy` that a leader holds nothing back;
`Calls.dfy` where each call is at every moment; `ReadReturns.dfy` what a read waits for.
`Liveness.dfy` has the sum of it: from every reachable state, whatever was lost or
crashed before, some way on without further crashes elects a leader, has all nodes apply
one log, answers every call and lets a read return. The way is found in `Progress.dfy`
(elections) and `Delivery.dfy` (replication and applying), out of the steps of
`Trails.dfy`.

**One node.** `RaftNode.dfy` is the node as an object: fields changed in place, loops
over entries, peers and waiting calls, and each method proved equal to the function
the cluster is made of. `RaftLog.dfy` is the log with its file, `ReadWaiters.dfy` the
loops of ReadIndex. `CompactLog.dfy`, `LogRefinement.dfy` and `LineFile.dfy` say what
compaction, truncation and torn files do to a log. `Membership.dfy` and
`Snapshots.dfy` treat the configuration, `MembershipRuns.dfy` what it is after any
elections, entries, membership changes, snapshots and restarts of a group of nodes;
`CatchUp.dfy` the exchange between a new leader and a follower.

**The store.** `StoreSpec.dfy` has the store as a function of the entries applied,
`Decimal.dfy` the text of counters, `KvStore.dfy` the store and the write-ahead log as
objects. `ApplyLoop.dfy` is the apply loop with snapshots and crashes: each stretch
under the lock and each durable write is a step of its own, so that a snapshot from
the leader may be installed while an entry is being applied or the node's own
snapshot is being taken. `ApplyRuns.dfy` has the runs of several such nodes, with
calls that wait and are answered, and `ApplyDrains.dfy` shows that a node left to itself
finishes all it holds; `Overtaken.dfy` is one run, step by step.

**The application.** `StoreKeys.dfy` has the keys and their texts, `Links.dfy` the
operations and what must agree, `LinkRules.dfy` who is refused what and what any
requests leave of links, comments and votes, `LinkRepo.dfy` the handlers as they change
the store key by key.

## What the proofs found

- *A leader may change the members too early.* It refuses while an earlier change in its
  own log is not committed, but does not wait until it has committed an entry of its own
  term (internal/raft/membership.go:100-117). Two leaders of different terms can then
  change the same configuration, each by one member, and go on with majorities that do
  not meet (`TwoChanges.MajoritiesMiss`; `MembershipRules.MajoritiesMeetIff` says exactly
  when all majorities of two configurations meet). `TwoChanges.CommittedEntriesDiffer` is
  a run of four nodes, from their first start and through three elections, in which two
  nodes commit different entries at index 1. As long as no change is made, committed
  entries are safe (`Safety.StateMachineSafety`).
- *A caller can get another Incr's number.* `Store.Apply` skips an index that is
  already applied and returns the present value of the counter. When a snapshot is
  installed between the apply loop's taking an entry and its call of the store, the
  skip happens to an entry with a waiting caller. `ApplyRuns.ResultOwnIff` says
  exactly when the result is right: it depends on what the committed commands past the
  entry, up to where the snapshot reaches, do to the number. For a key written by Incr
  only, there must be none among them (`ApplyRuns.CounterResultOwnIff`), and
  `ApplyRuns.SameNumberIff` says exactly when two calls are told the same number.
  `Overtaken.TwoCallsToldOneNumber` is a run of two nodes in which both are told 2. The
  stored state is right in every case.
- *Members captured for a snapshot can be wrong by the time it is saved.* They are
  captured under the lock, which is given up while the state is read. If the next
  leader cuts a membership change off meanwhile, the snapshot names members that never
  were agreed on (`MembershipRuns.CapturedMembersLost`, a run of events at one
  follower). `MembershipRules.CompactDerivesIff` says exactly when this happens.
- *A snapshot without members can leave the wrong configuration in effect* once it
  covers the entry the configuration came from: `MembershipRules.InstallDerivesIff`
  says exactly when, `MembershipRuns.OlderSnapshotLosesMembers` gives a case. It takes
  a file of the older format that internal/raft/snapshot.go:18-20 allows for: every
  snapshot that this program itself writes and sends names its members
  (`MembershipRuns.DerivedForever`).
- *An entry of equal index and term being equal is not enough to catch up*: the logs
  may still differ below it (`CatchUp.EqualEntriesDoNotSuffice`). Prefix agreement,
  which log matching provides, is enough.
- *Records appended after a torn line are lost* at the next start, because neither
  file is cut on opening (`LineFile.WrittenIsReadIffClean`).

## Model

| member | source | states |
|---|---|---|
| `Safety.ElectionSafety` | internal/raft/raft.go:474-524 | With a fixed membership, two nodes that lead in the same term, at any two moments of any run with restarts, are the same node. |
| `Safety.LogMatching` | internal/raft/raft.go:843-881 | Logs of any two nodes at any two moments that have an entry of the same index and term agree on the whole prefix. |
| `Safety.StateMachineSafety` | internal/raft/raft.go:753-769 | With a fixed membership, no two nodes, at any two moments, regard different entries as committed at one index. |
| `Safety.LeaderCompleteness` | internal/raft/raft.go:806-825 | With a fixed membership, what any node regards as committed is in the log of every leader of a later term, and of its own term from then on. |
| `Safety.CommitClampSound` | internal/raft/raft.go:883-890 | Every request ever sent reaches at least to its own commit index, so clamping to the last index never passes what the request verified; an accepted request leaves the larger of the two commit indices and its entries in place. |
| `Safety.PositionOrder` | internal/raft/raft.go:961-985 | Boundary, apply index, commit index and last index are in order in every state, and the next entry to apply is there. |
| `Safety.PositionsGrow` | internal/raft/raft.go:883-890 | Commit and apply index of a node never go back in any step but its own crash. |
| `Reads.LinearizableRead` | internal/raft/readindex.go:32-57 | Once ReadIndex returns, whatever any node had committed when the call began is applied at the reading node, and stays so while it is up, whoever leads by then. |
| `Reads.ReadSeesWrites` | internal/raft/readindex.go:60-138 | Every write answered by any node when the read began is in the prefix the store has applied. |
| `Proposals.ProposeReturnsOwn` | internal/raft/raft.go:353-383 | In runs without snapshots: a Propose call that returns a result has the result of the very entry it appended: its command, term and index; the node had committed it, and so has every log committed as far. |
| `Proposals.OwnResult` | internal/raft/raft.go:549-570 | A call's channel receives at most one outcome, so no send blocks under the lock. |
| `Proposals.CommittedFirst` | internal/raft/raft.go:975-1004 | Before a result is given at a node, that node has committed the call's entry. |
| `Proposals.CountReturned` | internal/kvs/store.go:173-201 | In runs without snapshots, on a key written by Incr only: an Incr returns how many Incr are committed up to and including it. |
| `StoreSpec.HoldsLastWrite` | internal/kvs/store.go:173-188 | A key no Incr touches holds what the last Set or Delete in the log left there. |
| `Proposals.CounterUnique` | internal/kvs/server.go:94-107 | In runs without snapshots, on a key written by Incr only: no two successful Incr calls anywhere in the cluster, at any time, return the same number. |
| `PreVote.HealthyMajorityStopsRound` | internal/raft/raft.go:423-471 | If a majority without the requester answers while leading or freshly in touch with a leader, no reply makes the requester start an election, and no term grows past what a peer had reached. |
| `PreVote.NothingGranted` | internal/raft/raft.go:786-803 | Peers that are healthy whenever they answer never grant the round anything, however its messages are delayed or duplicated. |
| `PreVote.RepliedTerm` | internal/raft/raft.go:786-803 | No vote reply, real or pre-vote, carries a term its sender has not reached. |
| `PreVote.TermsGrow` | internal/raft/state.go:39-70 | A node's term never goes back, not even over a restart. |
| `Liveness.CallAnswered` | internal/raft/raft.go:353-383 | From every state a run reaches, whatever was lost or crashed before, some way on without crashes elects a leader that takes a call in and gives it its result, and all nodes have then applied one log. |
| `Liveness.EveryCallSettles` | internal/raft/raft.go:549-570 | From every reachable state some way on leaves no call ever made without its outcome, unless it gave up or its node crashed since. |
| `Liveness.ReadAnswered` | internal/raft/readindex.go:32-57 | From every reachable state some way on, with no write on it, leads to a ReadIndex call that returns. |
| `Liveness.ClusterConverges` | internal/raft/raft.go:573-645 | From every reachable state some calm way leads to one leader and to nodes that have committed and applied exactly its log, with equal stores. |
| `Progress.SomeoneLeads` | internal/raft/raft.go:423-524 | From every reachable state stale leaders can step down, timers run out, and the node with the most recent log win its pre-vote round and its election. |
| `Progress.AllStepDown` | internal/raft/raft.go:616-622 | Every leader of an earlier term steps down once it asks a node of a later one. |
| `Progress.RoundSucceeds` | internal/raft/raft.go:448-470 | A pre-vote round in which nobody refuses leads to an election, for any number of nodes. |
| `Progress.ElectionSucceeds` | internal/raft/raft.go:500-523 | An election in which nobody refuses leads to a leader. |
| `Voting.CampaignIs` | internal/raft/raft.go:423-447 | When its timer fires, a node that waits to be taken in or is no member does nothing, one that is alone leads the next term, and any other asks all its peers and stays in its own term. |
| `Delivery.Brings` | internal/raft/raft.go:581-643 | From any next index, requests and refusals end with the peer holding all of the leader's log and committed as far as the leader had. |
| `Delivery.Applies` | internal/raft/raft.go:961-1005 | A node can always apply all that it has committed. |
| `Commits.NothingHeldBack` | internal/raft/raft.go:753-769 | In every reachable state a leader has committed every entry of its own term that a majority is known to hold. |
| `Commits.NothingForgotten` | internal/raft/raft.go:626-631 | While a node leads in a term, what it knows a peer to hold never shrinks, whatever late answers come. |
| `Calls.CallAccounted` | internal/raft/raft.go:353-383 | From when it is made until its node crashes, a call is in exactly one place: waiting at its entry, which is not applied yet; with its entry in the apply loop's hands; told exactly one outcome; or given up. Told that the node does not lead, it does not in the call's term. |
| `Calls.CallNotForgotten` | internal/raft/raft.go:975-1004 | Once its entry is applied, or its node does not lead in its term any more, a call has been told or gave up, unless its entry is just being applied. |
| `Voting.VoteGrantedIff` | internal/raft/raft.go:806-825 | A vote is given exactly in the voter's term or a later one, if it has voted for nobody else, and to a last entry of a later term, or of the same term and no earlier index; it is then on record. |
| `Voting.PreVoteGrantedIff` | internal/raft/raft.go:786-803 | A pre-vote is given exactly for a later term, by a node that neither leads nor has a fresh leader, to such a last entry. |
| `Voting.EitherVotes` | internal/raft/raft.go:811-825 | Of two nodes one gets the other's vote in a new term, and both do only if their logs end alike. |
| `Voting.SomeoneElectable` | internal/raft/raft.go:784-825 | In every non-empty set of nodes one gets every other's vote in any term later than all of theirs, and the pre-vote of all that neither lead nor have a fresh leader. |
| `Voting.HeardIsHealthy` | internal/raft/raft.go:828-841 | Whoever answers a leader's request in its term follows it, freshly, and grants no pre-vote until its timer has run. |
| `Voting.InstallIsHeard` | internal/raft/raft.go:897-911 | The same of whoever answers a leader's snapshot. |
| `Voting.LaterTermTaken` | internal/raft/raft.go:457-460 | Any answer, to a vote, a pre-vote, a request or a probe, in a later term makes the node a follower in that term that has not voted. |
| `ReadReturns.CaptureIs` | internal/raft/readindex.go:39-46 | A call captures the leader's commit index if the first entry of its own term in its log is committed, else that entry's index; never past the end of its log. |
| `ReadReturns.ReadMayReturn` | internal/raft/readindex.go:47-57 | A call confirmed by a majority may return as soon as what was committed when it began, and the first entry of its leader's term, are applied. |
| `ReadReturns.AskingReaches` | internal/raft/readindex.go:60-101 | While the node leads in the read's term, every peer is asked. |
| `ReadReturns.AnswerConfirms` | internal/raft/readindex.go:85-117 | A peer's answer in the read's term is counted. |
| `Simulation.RunSimulated` | internal/raft/raft.go:474-547 | Every run of the cluster can be accompanied by a history of votes, reigns and acknowledgements that keeps the protocol invariant. |
| `Simulation.StepSimulated` | internal/raft/raft.go:780-895 | Each of the sixteen steps is a composition of history actions and keeps the relation between history and cluster. |
| `Simulation.SoundForever` | internal/raft/log.go:24-30 | Log entries stay consecutive and requests well formed in every run, so no index is ever out of range. |
| `Simulation.BuildAppendOk` | internal/raft/raft.go:587-607 | A leader's request is its whole log from the next index on, so it reaches past the commit index it carries. |
| `Simulation.AnswerersVoted` | internal/raft/readindex.go:85-101 | A peer that answers a probe in the read's term had voted for no leader of a later term when the read began. |
| `Simulation.AppendRequestMoves` | internal/raft/raft.go:828-895 | The append handler keeps what relates a node to the history, and what it confirms it holds. |
| `Simulation.CrashMoves` | internal/raft/raft.go:134-245 | A restart from term, vote, log and store keeps what relates a node to the history, also if the crash came between two durable writes of a vote, of a lone node's election, or of the append loop, with a conflicting tail cut and nothing appended yet. |
| `Consensus.LeaderCompleteness` | internal/raft/raft.go:811-825 | An entry a quorum acknowledged in its own term is in the log of every leader elected later. |
| `Consensus.SafeInReign` | internal/raft/raft.go:753-769 | A prefix safe in one reign is a prefix of every later leader's log, and of the log it was elected with. |
| `Consensus.UpToDateKeeps` | internal/raft/raft.go:813-814 | A candidate at least as up to date as a log with a certified prefix has that prefix itself. |
| `Reigns.WinKeeps` | internal/raft/raft.go:526-547 | A won election keeps the protocol invariant. |
| `Consensus.GrantKeeps` | internal/raft/raft.go:815-823 | A granted vote keeps the protocol invariant. |
| `Reigns.FollowKeeps` | internal/raft/raft.go:855-881 | Taking in entries of a leader, with truncation, keeps the protocol invariant. |
| `Reigns.CommitLeaderKeeps` | internal/raft/raft.go:755-767 | Committing an entry of the current term that a quorum holds keeps the protocol invariant. |
| `Protocol.CommitFound` | internal/raft/raft.go:753-769 | The commit loop ends at the greatest index of the current term that a majority holds, or where it began if there is none. |
| `CompactLog.MergeFollows` | internal/raft/raft.go:855-881 | The skip, truncate and append loop leaves a log that agrees with the leader's up to the last entry sent, and cuts only at a conflict. |
| `Decimal.ParseFormat` | internal/kvs/store.go:181-201 | Every 64-bit counter value the store writes is read back. |
| `Decimal.ParseIff` | internal/kvs/store.go:190-201 | A value counts as a number exactly if it is digits, at least one, perhaps after a sign, for a number of 64 bits. |
| `Decimal.DigitsRoundTrip` | internal/kvs/store.go:181-184 | Decimal digits of a number have its value. |
| `Decimal.FormatInjective` | internal/api/handler/repo.go:36-38 | Distinct ids have distinct texts. |
| `LineFile.WrittenIsReadIffClean` | internal/raft/log.go:51-71 | What is appended to a file is read back at the next opening exactly if the file had no torn line. |
| `LineFile.ReadWritten` | internal/kvs/wal.go:100-131 | Records written to a clean file are read back in order, also with a torn line behind them. |
| `RaftLog.Log.Open` | internal/raft/log.go:39-73 | Opening reads up to a torn line and drops what the snapshot covers. |
| `RaftLog.Log.At` | internal/raft/log.go:111-116 | An entry inside the log past the boundary, nothing else. |
| `RaftLog.Log.TermAt` | internal/raft/log.go:99-108 | The boundary answers with the snapshot's term, an index outside with 0. |
| `RaftLog.Log.From` | internal/raft/log.go:121-132 | The tail from an index, or from the first entry kept. |
| `RaftLog.Log.LatestConfig` | internal/raft/log.go:135-142 | The backward scan finds the last configuration entry. |
| `RaftLog.Log.Append` | internal/raft/log.go:145-166 | Entries go to the end of the file and of the log; opening the file still gives the log in memory. |
| `RaftLog.Log.TruncateFrom` | internal/raft/log.go:170-179 | Entries from an index on are gone, in memory and in the file. |
| `RaftLog.Log.CompactTo` | internal/raft/log.go:183-197 | Entries up to an index are gone, in memory and in the file, and the boundary is there. |
| `RaftLog.Log.Rewrite` | internal/raft/log.go:200-239 | The new file holds exactly the entries in memory. |
| `RaftLog.SnapshotThenCrash` | internal/raft/log.go:36-38 | After a crash between saving a snapshot and rewriting the log, the old file opens to the log that compaction would have left. |
| `RaftLog.AppendThenCrash` | internal/raft/log.go:61-63 | After a crash in the middle of an append, exactly the entries wholly written are there. |
| `LogRefinement.QueriesAgree` | internal/raft/log.go:82-132 | From the boundary up, every query of a compacted log has the answer of the log never compacted. |
| `LogRefinement.CompactedRefinesFull` | internal/raft/log.go:145-197 | This stays so under any sequence of appends, cuts above the boundary and compactions. |
| `LogRefinement.TruncateKeepsViewIff` | internal/raft/log.go:170-179 | A cut leaves a view of the equally cut full log exactly if it starts above the boundary. |
| `RaftNode.Raft.constructor` | internal/raft/raft.go:134-245 | A start derives term, vote, log, positions and configuration from what is on disk. |
| `RaftNode.RestoreConfig` | internal/raft/raft.go:173-192 | The configuration a start finds: the log's last, else the snapshot's, else that of the flags. |
| `RaftNode.Raft.AdvanceCommit` | internal/raft/raft.go:753-769 | The upward loop reaches the commit index of the commit rule. |
| `RaftNode.Raft.FlushWaiters` | internal/raft/raft.go:565-568 | Every waiting call is told once that the node leads no more, and none waits any longer. |
| `RaftNode.Raft.BecomeFollower` | internal/raft/raft.go:549-570 | Stepping down forgets the vote only in a later term, which is durable before anything else happens. |
| `RaftNode.Raft.BecomeLeader` | internal/raft/raft.go:526-547 | A new leader's indices, its empty entry, and what it may commit at once. |
| `RaftNode.Raft.StartElection` | internal/raft/raft.go:474-492 | A candidate votes for itself durably, and leads at once if it is alone. |
| `RaftNode.Raft.HandlePreVote` | internal/raft/raft.go:784-804 | The pre-vote answer, with no change of the node. |
| `RaftNode.Raft.HandleVote` | internal/raft/raft.go:806-825 | The vote rule: one durable vote a term, for a log at least as up to date. |
| `RaftNode.Raft.OnVoteResp` | internal/raft/raft.go:509-521 | Votes are counted only for the election still under way. |
| `RaftNode.Raft.ApplyConfig` | internal/raft/membership.go:150-176 | A configuration takes effect; a leader starts tracking new peers and forgets removed ones, also that a snapshot is on its way to them. |
| `RaftNode.Raft.RecomputeConfig` | internal/raft/membership.go:180-193 | The configuration falls back from log to snapshot to bootstrap set. |
| `RaftNode.Raft.MergeEntry` | internal/raft/raft.go:856-880 | One entry is skipped, or appended after a conflicting tail is cut. |
| `RaftNode.Raft.HandleAppend` | internal/raft/raft.go:828-895 | The whole append handler, with consistency check, hint, loop and commit index. |
| `RaftNode.Raft.BuildAppend` | internal/raft/raft.go:587-607 | The request to a peer, none if the entries it needs are compacted away. |
| `RaftNode.Raft.SendAppend` | internal/raft/raft.go:581-609 | Entries go out, or else a snapshot, of which one at a time is on its way to a peer. |
| `RaftNode.Raft.OnAppendResp` | internal/raft/raft.go:616-643 | What success and rejection do to the leader's indices and commit index. |
| `RaftNode.Raft.Propose` | internal/raft/raft.go:360-371 | A command is appended and its call waits at its index. |
| `RaftNode.Raft.ProposeConfig` | internal/raft/membership.go:100-134 | A membership change is refused or appended and in effect. |
| `RaftNode.Raft.Install` | internal/raft/raft.go:942-953 | What installing a snapshot does to log, positions and configuration. |
| `RaftNode.Raft.ChooseSnapshot` | internal/raft/raft.go:704-722 | Whether a snapshot is due, for which entry, and the members captured for it. |
| `RaftNode.Raft.Compact` | internal/raft/raft.go:732-745 | The last critical section of taking a snapshot, void if one was installed meanwhile. |
| `RaftNode.Raft.TakeEntry` | internal/raft/raft.go:970-985 | The apply loop takes the next entry and the call that waits for it. |
| `RaftNode.Raft.FinishEntry` | internal/raft/raft.go:996-1000 | The apply index moves to the entry, never back. |
| `RaftNode.CrashRestarts` | internal/raft/raft.go:134-245 | What is on disk between any two methods, opened again, is the restarted node of the cluster's crash step, its configuration recomputed: the members are those in effect before, for any log and snapshot. |
| `ReadWaiters.ConfirmLeadership` | internal/raft/readindex.go:103-117 | The leadership is confirmed exactly if enough peers confirm before the time is over. |
| `ReadWaiters.NotifyApplyWaiters` | internal/raft/readindex.go:141-154 | The waiting list filtered within its own array, in order, and the calls woken, in order. |
| `ReadWaiters.WokenOnce` | internal/raft/readindex.go:141-154 | Each waiting call is either woken or kept, so no channel is closed twice and none is lost. |
| `ReadWaiters.WokenApplied` | internal/raft/readindex.go:120-138 | Woken are exactly the calls whose index is applied. |
| `MembershipRuns.DerivedForever` | internal/raft/membership.go:178-193 | In every run of a group of nodes, with elections, entries taken in and cut, commands, membership changes, snapshots taken, sent and installed, and restarts, the members in effect are the log's last configuration, else the snapshot's, else the bootstrap set; the configuration index is that entry's or lies in the compacted prefix; and every snapshot sent names its members. |
| `MembershipRuns.EventDerives` | internal/raft/membership.go:150-193 | Each of these events keeps it so at its node, and the members known for the file on disk. |
| `MembershipRuns.CapturedMembersLost` | internal/raft/raft.go:714-743 | Events that lead a follower from its first start to choosing a snapshot, then to a cut by the next leader, after which saving the captured members leaves members in effect that nothing on disk names. |
| `MembershipRuns.OlderSnapshotLosesMembers` | internal/raft/snapshot.go:18-20 | Events after which installing a snapshot without members leaves such members in effect. |
| `MembershipRules.MergeDerives` | internal/raft/raft.go:863-879 | The append handler's loop keeps the configuration derived. |
| `MembershipRules.CompactDerivesIff` | internal/raft/raft.go:714-743 | Members captured earlier and saved with a snapshot keep it derived exactly if a configuration past the boundary remains, or they are those in effect. |
| `MembershipRules.InstallDerivesIff` | internal/raft/raft.go:948-953 | Installing a snapshot keeps it derived exactly if the snapshot has members, or covers no configuration of the log, or the fallback is the configuration in effect. |
| `MembershipRules.BootDerives` | internal/raft/raft.go:173-192 | A start derives it from disk. |
| `MembershipRules.SingleServerChange` | internal/raft/membership.go:100-130 | A configuration a leader appends differs by one member from the one in effect, and every earlier one in its log is committed. |
| `MembershipRules.MajoritiesMeetIff` | internal/raft/raft.go:274-275 | For any two sets of members, all majorities of one meet all of the other exactly if the smallest ones cannot make do with different shared members. |
| `TwoChanges.CommittedEntriesDiffer` | internal/raft/membership.go:100-134 | A run of four nodes, handlers and network as in the cluster, in which two leaders each remove a member before committing anything, and two nodes end up with different committed entries at index 1. |
| `TwoChanges.MajoritiesMiss` | internal/raft/membership.go:107-111 | The two configurations each differ from the first by one member, and have majorities with no member in common. |
| `MembershipRules.MajoritiesMeet` | internal/raft/raft.go:274-275 | Every majority of one of two configurations that differ by one member meets every majority of the other. |
| `Snapshots.InstallMoves` | internal/raft/raft.go:897-957 | A snapshot in an earlier term changes nothing; any other leaves the larger commit index, and log and apply index change only if it reaches past the commit index. |
| `Snapshots.DueIff` | internal/raft/raft.go:704-722 | A snapshot is due exactly when something is applied and compacting to it drops at least the threshold of entries. |
| `MembershipRules.RefusedIff` | internal/raft/membership.go:72-121 | When a change is refused and why: nobody else than the leader takes it, not while an earlier one is uncommitted, not to remove the leader, to add who is there, to remove who is not, or without id and address; else it is accepted. |
| `MembershipRules.AcceptedIs` | internal/raft/membership.go:111-130 | An accepted change leaves exactly the members before, at their addresses, with the one added at the address given or without the one removed; it is the log's last entry, its call waits there, and a new peer is tracked from behind it. |
| `KvStore.KvStore.OpenAt` | internal/kvs/store.go:63-89 | Opening replays on the snapshot every record it does not cover, up to a torn one. |
| `KvStore.KvStore.Apply` | internal/kvs/store.go:151-171 | An index already applied changes nothing; any other is applied and logged, and opening the files again still gives the store in memory. |
| `KvStore.KvStore.ApplyLocked` | internal/kvs/store.go:173-188 | What each command does to the map, and what it returns. |
| `KvStore.KvStore.Restore` | internal/kvs/store.go:214-229 | A snapshot takes the place of map, index and write-ahead log. |
| `KvStore.KvStore.Compacted` | internal/kvs/store.go:233-240 | The write-ahead log is emptied unless the store is past the snapshot. |
| `KvStore.Wal.Append` | internal/kvs/wal.go:43-63 | When Append returns, reading the file gives all records it gave before and then this one, also with a torn line behind it; behind a torn line the record is lost. |
| `KvStore.ApplyDurable` | internal/kvs/store.go:163-170 | After each applied command, and also after a crash in the middle of the next write, the files give back exactly the store. |
| `ApplyRuns.ExactlyOnce` | internal/kvs/store.go:63-89 | In every reachable state the store is the fold of the committed commands up to its applied index, each once, and a crash right there brings back all of it. |
| `ApplyRuns.StoreUpToDate` | internal/raft/raft.go:986-1000 | Between two entries the store is the fold of everything applied. |
| `ApplyLoop.RecoveryExact` | internal/kvs/store.go:71-80 | Snapshot and write-ahead log, at any moment, replay to an exact fold that covers what the store had applied. |
| `ApplyRuns.SnapshotExact` | internal/raft/raft.go:704-749 | Every snapshot saved or sent holds the fold of exactly the entries up to its index, although the lock is free while the state is read and one may be installed meanwhile. |
| `ApplyRuns.PositionOrder` | internal/raft/raft.go:897-957 | With compaction and installs, boundary, apply, commit and last index are in order whenever the lock is free. |
| `ApplyRuns.PositionsGrow` | internal/raft/raft.go:945-946 | With compaction and installs, commit and apply index never go back while the node is up. |
| `ApplyLoop.TakeFinds` | internal/raft/raft.go:979-985 | The branch for a committed entry missing from the log is never taken. |
| `ApplyRuns.ResultOwnIff` | internal/kvs/store.go:154-160 | An entry in hand returns its own result exactly if it executes, is no Incr, or the committed commands on its key past it, up to where the store is, add nothing or end with the same number. |
| `ApplyRuns.CounterResultOwnIff` | internal/kvs/store.go:154-160 | On a key written by Incr only: exactly if it executes or no Incr of the key lies between it and where the store is. |
| `ApplyRuns.NumberTold` | internal/kvs/store.go:151-201 | With snapshots installed at any time, a call whose Incr is answered has its entry committed, and is told how many Incr are committed up to where the store had come. |
| `ApplyRuns.SameNumberIff` | internal/kvs/server.go:94-107 | Two Incr calls are told the same number exactly if no Incr of the key lies between the points to which the two stores had come; two calls that no snapshot overtook never are. |
| `Overtaken.TwoCallsToldOneNumber` | internal/raft/raft.go:975-992 | A run of two nodes, from their first start, in which a snapshot sent by one overtakes the other's entry and both of two Incr calls are told 2. |
| `ApplyDrains.Drains` | internal/raft/raft.go:961-1005 | From every state of every run with snapshots and crashes, a node left to itself gives up the lock, finishes its snapshot and its entry, applies all it has committed, and answers every call that waited for a committed entry. |
| `CatchUp.RejectionLowers` | internal/raft/raft.go:635-643 | Each rejection strictly lowers the next index, to behind the follower's last entry at once if that is less, never to what the follower has committed. |
| `CatchUp.AcceptanceCompletes` | internal/raft/raft.go:626-633 | The first accepted request brings the follower to the end of the leader's log, and the leader knows. |
| `CatchUp.SnapshotBrings` | internal/raft/raft.go:897-957 | A snapshot makes the follower agree up to the boundary, and the next request is accepted. |
| `CatchUp.CatchesUp` | internal/raft/raft.go:581-699 | The exchange ends within a bound, with at most one snapshot, and the follower agrees with the leader up to the leader's last index. |
| `CatchUp.CatchesUpAfterElection` | internal/raft/raft.go:526-547 | This holds from the indices a new leader starts with. |
| `CatchUp.MergeViews` | internal/raft/raft.go:855-881 | The append loop does to a compacted log what it does to the full one. |
| `CatchUp.EqualEntriesDoNotSuffice` | internal/raft/raft.go:843-852 | A leader and a follower whose entries of equal index and term are equal, and whose logs differ after an accepted request. |
| `StoreKeys.EncodeInjective` | internal/api/handler/repo.go:28-55 | Different keys have different texts. |
| `StoreKeys.VoteScanExact` | internal/api/handler/repo.go:43-48 | The prefix scan for a link's votes finds exactly these, no other link's votes and no other keys. |
| `Links.AgreeForever` | internal/api/handler/link.go:190-223 | After any requests in any order, tag and user lists are the recent list filtered in the same order, vote counts are numbers of vote keys, comment counts are lengths of comment lists. |
| `Links.CreateKeeps` | internal/api/handler/link.go:204-222 | Creating a link keeps this agreement. |
| `Links.DeleteKeeps` | internal/api/handler/link.go:250-311 | Deleting a link, with its comments and votes, keeps it. |
| `Links.CommentKeeps` | internal/api/handler/comment.go:57-122 | Commenting, and being refused, keeps it. |
| `Links.DeleteCommentKeeps` | internal/api/handler/comment.go:125-162 | Deleting a comment keeps it. |
| `Links.ToggleKeeps` | internal/api/handler/vote.go:15-56 | Casting or taking back a vote keeps it. |
| `Links.CreateLooks` | internal/api/handler/link.go:206-222 | A new link is at the head of the recent list, of its owner's and of each of its tags', and nothing else differs. |
| `Links.DropLooks` | internal/api/handler/link.go:266-309 | A deleted link is gone from these lists; its comments, votes and own record are gone, and nothing else differs. |
| `Links.VoteTwice` | internal/api/handler/vote.go:36-55 | A second toggle undoes the first, with opposite replies. |
| `Links.CommentUndone` | internal/api/handler/comment.go:98-162 | Deleting a comment just made undoes it, but for the comment counter. |
| `Links.LinkUndone` | internal/api/handler/link.go:266-275 | Deleting a link just made leaves every list as it was. |
| `LinkRules.DeleteRefusals` | internal/api/handler/link.go:250-275 | Deleting a link is refused as not found exactly if it is not there, as forbidden exactly if it is there with another owner, and a refused request changes nothing. |
| `LinkRules.UncommentRefusals` | internal/api/handler/comment.go:125-146 | The same of a comment and its author. |
| `LinkRules.CommentRefusals` | internal/api/handler/comment.go:57-97 | A comment is refused exactly if its link is not there, or as a bad request if it replies to what is no comment on the link or is a reply itself. |
| `LinkRules.VoteRefusals` | internal/api/handler/vote.go:15-35 | A vote is refused exactly if its link is not there. |
| `LinkRules.CommentLooks` | internal/api/handler/comment.go:98-122 | A comment is recorded as made under an id no comment has, comes last on its link's list and is counted; nothing else differs. |
| `LinkRules.UncommentLooks` | internal/api/handler/comment.go:146-162 | A deleted comment is gone from the records, the list and the count; nothing else differs. |
| `LinkRules.VoteLooks` | internal/api/handler/vote.go:36-56 | A vote is there afterwards exactly if it was not, the count follows, the reply tells both, and nothing else differs. |
| `LinkRules.LinkThereIff` | internal/api/handler/link.go:250-311 | After any requests in any order a link is there exactly if its owner has not asked for its deletion, and is the same but for its counts. |
| `LinkRules.CommentThereIff` | internal/api/handler/comment.go:125-162 | After any requests a comment is there exactly if neither its author asked for its deletion nor its link's owner for the link's. |
| `LinkRules.VotedIff` | internal/api/handler/vote.go:36-55 | After any requests a user's vote on a link that is still there has changed exactly if it was pressed an odd number of times. |
| `LinkRepo.AcceptTags` | internal/api/handler/link.go:173-188 | At most five tags, each well formed once trimmed and in lower case, each kept once in that form, where it came first. |
| `LinkRepo.Repo.RemoveIndex` | internal/api/handler/repo.go:124-136 | The list without the id, in order. |
| `LinkRepo.Repo.CreateLink` | internal/api/handler/link.go:204-222 | The record and the id at the head of each list it belongs to. |
| `LinkRepo.Repo.DeleteLink` | internal/api/handler/link.go:250-311 | Refused, or gone with its place in every list, its comments and its votes. |
| `LinkRepo.Repo.CreateComment` | internal/api/handler/comment.go:57-122 | Refused, or recorded, listed and counted. |
| `LinkRepo.Repo.DeleteComment` | internal/api/handler/comment.go:125-162 | Refused, or gone, unlisted and uncounted. |
| `LinkRepo.Repo.ToggleVote` | internal/api/handler/vote.go:15-56 | Cast or taken back, counted, and the reply says which. |

## Left out

- Safety.StateMachineSafety: a fixed membership, as for all theorems on runs of the cluster; with membership changes it is false (`TwoChanges.CommittedEntriesDiffer`). That it would hold if a leader first committed an entry of its term is not proved.
- Safety.ElectionSafety, Safety.LeaderCompleteness: a fixed membership, likewise.
- Safety.LogMatching: logs without compacted prefix, as for all theorems on runs of the cluster; compaction keeps a suffix without comparing the term at the boundary. `ApplyLoop` and `CatchUp` treat compaction.
- Proposals.ProposeReturnsOwn: runs without snapshots; with them `ApplyRuns.ResultOwnIff` says exactly when the result is the entry's own.
- Proposals.CountReturned: runs without snapshots, and logs no longer than the largest 64-bit integer, so that no counter wraps; with snapshots `ApplyRuns.NumberTold` says which number is told.
- Proposals.CounterUnique: the same, and false with snapshots; `ApplyRuns.SameNumberIff` says exactly when.
- PreVote.HealthyMajorityStopsRound: a fresh heartbeat is a flag that may be cleared at any time after the timer is reset; real time is not modelled.
- CatchUp.CatchesUp: one request outstanding, none lost, and the leader's log unchanged meanwhile; overlapping stale rejections can push the next index below the follower's boundary.
- MembershipRuns.DerivedForever: a snapshot is taken in one step, since with two it is false (`MembershipRuns.CapturedMembersLost`); `MembershipRules.CompactDerivesIff` says when two steps are safe. Elections are won at any time; who votes does not matter to the configuration.
- ApplyRuns.ExactlyOnce: a write is durable when it returns and no torn record is left behind in the run; torn records are treated in `LineFile` and `KvStore.ApplyDurable`. Commands from outside the log, at index 0, are not part of these runs.
- The agreed ledger of `ApplyRuns` is any contiguous sequence; that nodes agree on one is `Safety.StateMachineSafety`. Likewise its runs presuppose that an entry whose call waits is not replaced meanwhile and that no two calls append entries of equal index and term: calls wait only at a leader (part of the relation kept by `Simulation.StepSimulated`), and `Proposals.CounterUnique` rests on the other.
- Terms, indices and ids are unbounded, except that the back-off of a next index of 0 wraps to the largest 64-bit value and that counters are 64-bit.
- Failed file operations and failed store operations: several of the program's error paths only log.
- JSON: each codec is taken as a bijection, each file as a sequence of records with an optional torn tail, a rename as atomic.
- The pre-vote round is part of the cluster's steps; the node object has its answer but not the goroutines that collect replies.
- gRPC, the transport, HTTP routing, authentication, page fetching, the web pages, logging, status reports.
- What trimming and lower-casing do to a text (`LinkRepo.AcceptTags` holds for any such function), checks of URLs and lengths of texts; they do not touch lists or counters.
- Listing, searching and sorting of links: reads that change nothing.
- The client's retries: a failed Incr may be tried again on another node.
- Liveness.CallAnswered: a fixed membership, logs without compacted prefix, and no node that waits to be taken in, since such a node does not campaign (internal/raft/raft.go:426-428); the same holds of the other results on ways on.
- Liveness: proved is what can always still happen, not that it must: timers, delays and losses have no bounds in the model. A call that gives up may remove the waiting entry of a later call at its index, which then hears nothing.
