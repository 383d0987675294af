# Raft engine: model and proofs

The repository holds one Raft consensus engine twice: a Python `RaftNode` and a C `raft_node_t`. Each
node is a table-driven state machine with a replicated log, write-ahead files, joint-consensus membership
changes, log compaction and a replicated application. This project models both engines as their code has
them and proves what they promise.

`dafny verify dfyconfig.toml` checks everything.

## How it is laid out

**The Python cluster.** `NodeSpec` gives what each handler computes as a function on the node's state, and
`RaftNode` is the object itself: a class with the source's fields, whose methods update them in place and
are proved to compute just that. `Cluster` makes nodes, disks and a network into a transition system:
ticks, requests for membership changes, stops, crashes between ticks, crashes between the two files of a
save, and starts. The network keeps every message ever sent and delivers any of them to its addressee any
number of times, so loss, repetition and reordering are all covered. `RaftNode.Tick` is one tick of that
system. `Protocol`, `ProtocolSteps` and `ProtocolAccept` prove safety for a small protocol with auxiliary
histories (who voted for whom, who reigned in each term with which log, how far each node acknowledged
each term); `NodeLocal`, `Refinement`, `TickRefinement`, `TornSaves`, `SoleVoter` and `ClusterSafety` show
that every step of the cluster is a sequence of protocol steps. `RunProofs` carries that through whole runs,
and the results stand in `ClusterTheorems` (elections, logs, commitment), `Durability` (write-ahead), `TornRestarts`
(crashes between the two files), `OneMember` (clusters of one member) and `TickFaults` (ticks that raise).

Those results say what never goes wrong. What the node does do is stated beside them, against definitions of
its own: `TransitionTables` has the source's tables as data and a machine that fires the first enabled row;
`Elections` when a candidate leads, `Replication` what is sent, recorded, committed and accepted,
`MembershipDriver` when a change of members is opened and ended and what its entries install, and
`NodeRestarts` what stopping and starting gives back.

Two hypotheses are needed for the results about committed entries, because the code departs from the
published algorithm, and `DivergingRuns` gives for each a concrete run in which dropping it makes two nodes
commit different entries at one index:

* A success reply reports the follower's last index, not the last index it was sent. It is *honest* if no
  entry beyond those sent is older than the message's term. `HonestReplyIff` shows this is exactly when
  the reply is true of the leader's log. In a run of honest replies no leader ever sends beyond its log
  (`TrustedRaises`); `OverclaimRaises` is a run in which one reply that is not honest leaves a leader
  unable to send another heartbeat.
* The meta file is replaced before the log file. A crash between the two leaves a new commit index with an
  old log. That tear is *harmless* if the old log agrees with the new one as far as the commit index reaches
  in it and, should the node have committed alone in the very tick that was cut off (its configuration's
  quorums need nobody but itself), what is left is *covered*: the last of it, or an entry beyond it on the
  disk, is the node's own, or was on its disk, with all before it, while the node was in that entry's own
  term. `HarmlessIffChosen` shows that this is exactly when the next start takes for committed nothing but
  entries chosen before the crash; `HarmlessTearIff` and `TornLeaderIff` say it in terms of what other nodes
  have committed and of leaders' logs. In a cluster of one member without joint phases it always holds, and
  every run is trusted (`OneMemberTrusted`).

`TrustedRunCommits` is a run that meets both hypotheses and commits an entry.

Election safety, log matching, leader append-only, write-ahead durability and the applied window hold
without them. All run theorems assume that every running node's configuration is stable in, or joint from,
one fixed member list, because configurations take effect when applied, not when appended.

**Membership, repair, quorums.** `JointTarget` (no joint phase forgets its target), `JointQuorums` (which
pairs of configurations may coexist), `LogRepair` (back-off repairs a follower's log), `Members` (normal
form of member lists).

**The C engine.** `CompactedLog` says what the append loop computes on the whole logical log;
`CompactingNode` is the node, an array of fixed size behind a snapshot, with the logical log as ghost
state. `OrderStatistic` is the commit rule. `KeyValue`, `KvTable` and `KvSnapshot` are the key-value
application: the map, the slot table with tombstones, the snapshot text. `MemberLists` normalises, encodes
and decodes member lists in fixed arrays. `LogText`, `LogFile`, `MetaText`, `Numerals` and `Strings` are
the files as text. `Restart` shows what stopping and starting gives back, `ConfigEntries` what its entries install, `EngineRuns` that every run of a
node ends its ticks in states where it can be stopped, `EngineOfNode` that the moves of those runs are what
the array's methods do, and `SnapshotReplay` what the snapshot being text means for them. `Sizes` has the
fixed sizes.

Code and documentation differ in two places, and the model follows the code: the Python node saves, then
applies, then sends (`docs/design.md` lists sending before applying), and a heartbeat carries the log's
suffix from the peer's next index (the document calls it empty).

## Model

| member | source | states |
|---|---|---|
| ClusterTheorems.ElectionSafety | python/src/raft_rx/node.py:286-330 | In every run two nodes that lead in one term, at whatever moments, are the same node. |
| ClusterTheorems.LeaderAppendOnly | python/src/raft_rx/node.py:431-443 | While a node leads a term, its log only grows, across all events of the run. |
| ClusterTheorems.LogsMatch | python/src/raft_rx/node.py:367-403 | Any two logs of a run, at any moments, in memory or on disk, that hold one term at one index agree on everything up to it. |
| ClusterTheorems.LogsOrdered | python/src/raft_rx/node.py:431-443 | Indices count up from one; terms along a log never decrease and never exceed the node's term. |
| Durability.WriteAhead | python/src/raft_rx/node.py:240-284 | No message on the network is ahead of its sender's durable term, and a granted vote is on disk for as long as its term is, crashes and torn saves included. |
| Durability.OneVotePerTerm | python/src/raft_rx/node.py:302-322 | All grants of one voter in one term name one candidate, whatever crashed in between. |
| Durability.AcknowledgedOnDisk | python/src/raft_rx/node.py:332-349 | In every run, dishonest replies and torn saves included: once a tick accepts a message, its sender's entries up to the last one sent are on the node's disk and stay there for as long as the term is; if that one reply is honest, so does all it reports. |
| Durability.AcknowledgedOfLeader | python/src/raft_rx/node.py:367-403 | At any later moment of the term its leader has those entries too. |
| Durability.AcknowledgementSent | python/src/raft_rx/node.py:240-284 | The tick sends the reply, and its index is the length of the log that is then on disk, unless the node has just applied its own removal. |
| Durability.RepliesOnDisk | python/src/raft_rx/node.py:332-349 | In a trusted run the disk keeps, for as long as the term lasts, the entries any reply of that term acknowledged, equal to those of the term's leader whenever it led after the reply. |
| Durability.HonestReplyIff | python/src/raft_rx/node.py:332-349 | The log behind a success reply is a prefix of the answered leader's log, at that or any later moment of its term, if and only if no entry beyond those sent is older than the term. |
| TornRestarts.HarmlessIffChosen | python/src/raft_rx/storage.py:78-105 | At any moment of a trusted run a torn save is harmless if and only if the node, started again, takes for committed only what was chosen before the crash, whatever its part in the cluster. |
| TornRestarts.HarmlessTearIff | python/src/raft_rx/storage.py:78-105 | A node that starts again after a crash between its two files, and any node that has by the crash committed as much, agree if and only if the tear was harmless; unless the node committed alone in that tick, so do those that commit as much later in the run. A harmless tear contradicts nobody, ever. |
| TornRestarts.TornLeaderIff | python/src/raft_rx/storage.py:78-105 | What it takes for committed is in the log of every leader of that or a later term, then or later, if the tear was harmless; and, unless it committed alone in that tick, in the log of any one of them only if it was. |
| OneMember.OneMemberTrusted | python/src/raft_rx/node.py:555-567 | In a cluster of one member without joint phases every run is trusted: every tear is harmless, and no reply is ever asked for. |
| OneMember.OneMemberSafety | python/src/raft_rx/node.py:555-567 | So committed logs never disagree there, with no hypothesis on replies or saves. |
| TickFaults.RaisesIff | python/src/raft_rx/node.py:531-553 | A tick raises if and only if, its messages handled in order, its leader gets a refusal of its own term from a node it has no next index for, or sends to a peer whose next index lies beyond its log; the condition is on the state before the tick and its messages. |
| TickFaults.TicksUnlessItRaises | python/src/raft_rx/node.py:217-238 | In every run a running node can take a tick on any messages addressed to it unless that condition holds; queues and apply window are never the obstacle. |
| TickFaults.TrustedRaises | python/src/raft_rx/node.py:351-365 | In a trusted run no leader ever sends beyond its log; only a refusal from a node that is no longer a peer stops a tick. |
| ClusterTheorems.AppliedWindow | python/src/raft_rx/node.py:265-278 | In every run applied <= committed <= last index, and the application has seen exactly the applied commands in order. |
| ClusterTheorems.CommittedInLaterLeaders | python/src/raft_rx/node.py:555-576 | Leader completeness: what any node has committed is in the log of every leader of its term or a later one, from then on. |
| ClusterTheorems.StateMachineSafety | python/src/raft_rx/node.py:555-576 | The committed logs of any two nodes at any two moments agree as far as both go. |
| ClusterTheorems.ApplicationsAgree | python/src/raft_rx/node.py:265-278 | Of the command sequences two applications have seen, one continues the other. |
| DivergingRuns.TrustedRunCommits | python/src/raft_rx/node.py:555-567 | A trusted run in which an entry is committed while another node still holds a different one at its index: the hypotheses of the safety theorems leave room for progress. |
| DivergingRuns.OverclaimRaises | python/src/raft_rx/node.py:361-362 | A run of ticks alone after which a leader that believed one reply that was not honest raises on its next heartbeat. |
| DivergingRuns.DishonestReplyDiverges | python/src/raft_rx/node.py:347-347 | A run of ticks alone, with one reply that is not honest, in which two nodes commit different entries at index 1. |
| DivergingRuns.TornSaveDiverges | python/src/raft_rx/storage.py:78-105 | A run with only honest replies and one crash between meta and log file, in which two nodes commit different entries at index 1. |
| Elections.ElectionDecided | python/src/raft_rx/node.py:324-330 | A candidate with any vote replies to take leads its term, unless its deadline passes, if and only if its votes and those granted, up to the first reply of a later term, are more than half of its members, and of the new ones in a joint phase; otherwise it stays a candidate with just those votes, or follows the later term. |
| Elections.ElectionHeld | python/src/raft_rx/node.py:445-481 | From the deadline to office: a member asks every peer, and after taking the answers of any nodes it leads the next term if and only if it and those that may vote for it are a majority. |
| Elections.VoteTaken | python/src/raft_rx/node.py:324-330 | Taking a reply loses no earlier vote and adds the source's if it is granted, of the candidate's term and the candidate is a member; a later term ends the candidacy. |
| Elections.Wins | python/src/raft_rx/node.py:471-481 | With a majority the next role transition makes the candidate leader, with every peer's next index after its log and nothing acknowledged but by itself, and tells each peer once. |
| Elections.Stands | python/src/raft_rx/node.py:445-469 | A follower stands exactly if its deadline has passed, it is a member and no leader's message waits; it then asks each peer once, with its last index and term. |
| Elections.Answered | python/src/raft_rx/node.py:302-322 | A vote is granted if and only if the voter is a member, is not in a later term, has not voted for another in this one, and its last entry is not ahead of the candidate's. |
| TransitionTables.RoleTable | python/src/raft_rx/node.py:718-736 | What a tick does to the role is the first enabled row of the table of fifteen. |
| MembershipDriver.MembershipTable | python/src/raft_rx/node.py:746-753 | What a tick does to the membership phase is the first enabled row of the table of four, with the guards written out. |
| MembershipDriver.ChangeEntries | python/src/raft_rx/node.py:861-933 | In every run, after its role transition a tick appends the entry that opens a joint phase if and only if the node leads, is stable and was asked for other members; and the entry that ends it if and only if it leads in the joint phase and every new member but itself has acknowledged the whole log. Each names its members. |
| MembershipDriver.OpeningDrops | python/src/raft_rx/node.py:888-905 | Opening a joint phase drops all the tick has queued to send before. |
| MembershipDriver.EnterInstalls | python/src/raft_rx/node.py:977-1007 | Applying the opening entry keeps the old member set, installs exactly the set it names as the new one, and follows it with peers and indices; an entry already covered does nothing. |
| MembershipDriver.LeaveInstalls | python/src/raft_rx/node.py:1009-1037 | Applying the ending entry installs exactly the set it names; a member that is not in it stops, and nobody else does. |
| MembershipDriver.OthersInstall | python/src/raft_rx/node.py:962-975 | A threshold entry sets the threshold, a client's command goes to the application, and neither touches membership. |
| Replication.Latches | python/src/raft_rx/node.py:217-238 | Messages wait in order of arrival, and a leader, nobody else, appends all commands in order. |
| Replication.HeartbeatSends | python/src/raft_rx/node.py:527-553 | A heartbeat sends every peer, once and in order, all entries from its next index on with the entry before them and the commit index. |
| Replication.AckCommits | python/src/raft_rx/node.py:351-365 | A success reply is recorded for its sender alone, and the commit index becomes the highest of the current term that a majority is then known to hold. |
| Replication.RefusalResends | python/src/raft_rx/node.py:351-365 | A refusal moves its sender's next index back by one, not below one, and resends what is then owed. |
| Replication.OthersUnrecorded | python/src/raft_rx/node.py:351-355 | A reply of an earlier term, or to a node that does not lead, changes nothing. |
| Replication.AcceptedCommit | python/src/raft_rx/node.py:405-417 | An accepted message raises the commit index to the leader's as far as the log goes, and starts the application over if and only if it has overwritten an applied entry. |
| Replication.AppendAnswered | python/src/raft_rx/node.py:332-349 | A leader's message is accepted if and only if its term is not earlier and the log reaches its previous entry with equal term and, if named, creator; term, leader, vote and the one reply follow, and a refusal leaves the log alone. |
| Replication.RoundCommits | python/src/raft_rx/node.py:531-567 | One round from both ends, with any followers: a leader's whole log is committed after it if and only if those known to hold it and those whose logs agreed up to what they were sent are a majority; the latter then hold it. |
| Replication.AppendSettles | python/src/raft_rx/node.py:431-443 | A leader that appends a command has its whole log committed at once if and only if a majority holds it already, so that such a round decides the command. |
| NodeRestarts.RestartTransparent | python/src/raft_rx/node.py:647-710 | In every run without an empty member list, whatever was requested, changed, overwritten or lost, a node that stops or crashes between ticks and starts again has, once caught up, the term, vote, log, commit index, configuration, peers, threshold and application it would have had. |
| NodeRestarts.StartsOver | python/src/raft_rx/node.py:205-215 | A started node follows nobody, with empty queues; from a joint configuration it goes on with the change it was in, and otherwise no change is under way. |
| NodeRestarts.EmptyForgotten | python/src/raft_rx/node.py:653-667 | An empty member list does not survive a restart: the initial members take its place. |
| Protocol.LogMatching | python/src/raft_rx/node.py:367-403 | Two logs that are prefixes of what the leaders of their last terms had match. |
| Protocol.LeaderCompleteness | python/src/raft_rx/node.py:569-576 | A prefix acknowledged by a majority in its own term is in the log with which every later leader was elected. |
| Protocol.CommittedAgree | python/src/raft_rx/node.py:555-576 | Of two committed prefixes one extends the other. |
| ProtocolAccept.HonestLog | python/src/raft_rx/node.py:367-417 | After an accepted message the follower's log is a prefix of the sender's exactly when nothing older than the term is left beyond what was sent. |
| ProtocolAccept.AcceptCommitted | python/src/raft_rx/node.py:405-416 | Accepting never drops a committed entry, never rebuilds the application, never lowers the commit index. |
| ClusterSafety.TickSim | python/src/raft_rx/node.py:217-284 | A whole tick, dump included, is a sequence of protocol steps that keeps the invariants. |
| ClusterSafety.TornChosenIff | python/src/raft_rx/storage.py:78-105 | What a torn save leaves as committed was chosen before the tick if and only if the old log agrees with the new one that far and, if the node committed alone in that tick, it had acknowledged that much in the term of its last entry or of one beyond. |
| ClusterSafety.AloneKeepsLog | python/src/raft_rx/node.py:302-322 | A node that commits alone in a tick loses no entry in it: nobody can have been elected past it without its own vote. |
| SoleVoter.SoleChosen | python/src/raft_rx/node.py:555-567 | Of the log of a node that is a majority by itself, exactly what it acknowledged in an entry's own term is chosen. |
| ClusterSafety.TornSim | python/src/raft_rx/storage.py:78-105 | So is a tick cut off between the two files. |
| ClusterSafety.StartSim | python/src/raft_rx/node.py:647-672 | So is a start from disk. |
| LogMerge.MergeShape | python/src/raft_rx/node.py:387-403 | The merge loop leaves the log alone if it holds everything sent, and otherwise makes it the sender's log up to the last entry sent; applied entries that agree with the sender are never rebuilt. |
| LogMerge.EntryMerged | python/src/raft_rx/node.py:387-403 | One entry leaves the log alone if it is there already, of the same term and, if named, creator; replaces the log from its index otherwise, extends it if it is the next, and is passed over if it lies beyond. |
| NodeSpec.CommitScan | python/src/raft_rx/node.py:555-567 | The commit index stays or rises to an index of the current term that the configuration's quorums hold. |
| NodeSpec.CommitScanHighest | python/src/raft_rx/node.py:555-567 | No higher index of the current term is held by them. |
| JointTarget.TargetKept | python/src/raft_rx/node.py:157-160 | In every run, whatever requests, elections, crashes and restarts happen, a running node in a joint configuration has its new members as pending members. |
| JointTarget.FinalEntryNamesTarget | python/src/raft_rx/node.py:919-933 | The entry that a leader appends to end a joint phase names exactly the new members, in normal form. |
| JointQuorums.SharedQuorumsMeet | python/src/raft_rx/node.py:1069-1074 | Quorums of two configurations with a member list in common, of any size, share a member of that list: stable(O)/joint(O,N) and joint(O,N)/stable(N) among them. |
| JointQuorums.StablePairsMiss | python/src/raft_rx/configuration.py:42-49 | Stable configurations with different members have quorums that do not meet. |
| Quorum.QuorumsMeet | python/src/raft_rx/node.py:1056-1057 | Two majorities of one list share a member of it. |
| LogRepair.RepairConverges | python/src/raft_rx/node.py:351-365 | Reject, decrement, resend takes exactly as many rejections as the next index lies beyond the common prefix, at most next index less one, and ends with the leader's log unless the follower's properly extends it. |
| LogRepair.OneExchange | python/src/raft_rx/node.py:332-349 | A message is accepted if and only if the logs agree up to its previous index; what the answer says and what the log becomes. |
| Members.NormalizeBySet | python/src/raft_rx/configuration.py:34-40 | Normal forms are equal if and only if the sets of nonempty ids are, and normalising twice is normalising once. |
| Members.NormalizeSpec | python/src/raft_rx/configuration.py:34-40 | The normal form is strictly ascending and holds exactly the nonempty ids. |
| RaftNode.JsonFileStorage.Save | python/src/raft_rx/storage.py:78-105 | Both files hold the new values after a save. |
| RaftNode.NormalizeMembers | python/src/raft_rx/configuration.py:34-40 | The loop computes the normal form. |
| RaftNode.AllMembersOf | python/src/raft_rx/configuration.py:19-26 | Old members, then the new ones not among them. |
| RaftNode.HasVotes | python/src/raft_rx/node.py:1056-1057 | The count decides whether the votes are a majority of the list. |
| RaftNode.RaftNode.constructor | python/src/raft_rx/node.py:62-143 | On an empty storage the new object is the cluster model's fresh node. |
| RaftNode.RaftNode.HandleTermUpdate | python/src/raft_rx/node.py:286-300 | A higher term is adopted with vote and leader cleared and the role follower; nothing changes otherwise. |
| RaftNode.RaftNode.CandidateIsUpToDate | python/src/raft_rx/node.py:569-576 | Last terms are compared first, then last indices. |
| RaftNode.RaftNode.HandleRequestVote | python/src/raft_rx/node.py:302-322 | The new state is the specified one: the vote, and the answer queued. |
| RaftNode.RaftNode.HandleRequestVoteResponse | python/src/raft_rx/node.py:324-330 | A granted vote of the term counts for a voting candidate, once. |
| RaftNode.RaftNode.BecomeCandidate | python/src/raft_rx/node.py:445-469 | Next term, own vote, one request to each peer. |
| RaftNode.RaftNode.SendAppendEntries | python/src/raft_rx/node.py:531-553 | Sends the suffix from the peer's next index with the entry before it and the commit index. |
| RaftNode.RaftNode.BroadcastAppendEntries | python/src/raft_rx/node.py:527-529 | The same to every peer in order. |
| RaftNode.RaftNode.BecomeLeader | python/src/raft_rx/node.py:471-481 | Replication state is reset and the first broadcast is queued. |
| RaftNode.RaftNode.ReplicatedOn | python/src/raft_rx/node.py:1059-1067 | The count decides whether a majority of the list holds the index. |
| RaftNode.RaftNode.IsCommitted | python/src/raft_rx/node.py:1069-1074 | Both lists of a joint configuration must hold it. |
| RaftNode.RaftNode.AdvanceCommitIndex | python/src/raft_rx/node.py:555-567 | The downward scan sets the commit index that the specification's scan finds. |
| RaftNode.RaftNode.AppendClientCommand | python/src/raft_rx/node.py:431-443 | Appends, scans for commit, broadcasts. |
| RaftNode.RaftNode.MergeEntries | python/src/raft_rx/node.py:387-403 | The loop's log and rebuild flag are the merge of the entries into the old log. |
| RaftNode.RaftNode.SettleCommit | python/src/raft_rx/node.py:405-416 | Commit index, application and applied index after a merge. |
| RaftNode.RaftNode.AppendEntriesFromLeader | python/src/raft_rx/node.py:367-417 | Succeeds exactly when the previous entry is accepted, and leaves everything alone otherwise. |
| RaftNode.RaftNode.HandleAppendEntries | python/src/raft_rx/node.py:332-349 | Term, leader, log, and the reply with the last index. |
| RaftNode.RaftNode.HandleAppendEntriesResponse | python/src/raft_rx/node.py:351-365 | Records an acknowledgement and scans, or backs off and resends. |
| RaftNode.RaftNode.Latch | python/src/raft_rx/node.py:217-238 | Messages are queued or answered in order, then a leader appends the commands. |
| RaftNode.RaftNode.RoleTransition | python/src/raft_rx/node.py:718-736 | The first enabled row of the role table, guard and action together. |
| RaftNode.RaftNode.JointMembersAreCaughtUp | python/src/raft_rx/node.py:951-960 | Every new member but this node has acknowledged the whole log. |
| RaftNode.RaftNode.BeginMembershipChange | python/src/raft_rx/node.py:888-905 | Fixes the target, clears the outbox, appends the joint entry. |
| RaftNode.RaftNode.AppendFinalConfig | python/src/raft_rx/node.py:919-933 | Appends the final entry for the pending members. |
| RaftNode.RaftNode.MembershipTransition | python/src/raft_rx/node.py:746-753 | The first enabled row of the membership table. |
| RaftNode.RaftNode.ApplyCommittedCommand | python/src/raft_rx/node.py:962-975 | Cluster commands change the node, others go to the application. |
| RaftNode.RaftNode.ApplyEnterJoint | python/src/raft_rx/node.py:977-1007 | Joint configuration at the applied index unless the configuration is already as recent. |
| RaftNode.RaftNode.ApplyLeaveJoint | python/src/raft_rx/node.py:1009-1037 | Stable configuration, and an expelled member stops. |
| RaftNode.RaftNode.RefreshMembershipState | python/src/raft_rx/node.py:1039-1046 | Known peers keep their indices, new ones start from the log's first index. |
| RaftNode.RaftNode.DumpOutputs | python/src/raft_rx/node.py:240-284 | Saves if dirty, applies everything committed, hands over the outbox. |
| RaftNode.RaftNode.Stop | python/src/raft_rx/node.py:188-203 | Queues, votes and roles are cleared; log, term, vote and configuration are not. |
| RaftNode.RaftNode.Start | python/src/raft_rx/node.py:647-710 | State from the files, commit index cut to the log, application started over. |
| RaftNode.RaftNode.RequestMembershipChange | python/src/raft_rx/node.py:157-160 | Records the normalised request. |
| RaftNode.RaftNode.Tick | python/src/raft_rx/node.py:217-284 | Node, disk and messages sent are those of the cluster model's tick. |
| CompactedLog.AbsorbCuts | c/src/raft.c:488-516 | The append loop leaves the log if it holds all entries, and otherwise cuts it before the first one it lacks or contradicts and continues with the rest, as far as the array has room; applied entries are rebuilt exactly when the cut reaches them. |
| CompactedLog.EntryAbsorbed | c/src/raft.c:488-515 | One entry likewise, passed over also if the snapshot covers it or the array is full. |
| CompactedLog.HandledCommit | c/src/raft.c:518-539 | An accepted message raises the commit index to the leader's as far as the log goes; exactly if an applied entry was overwritten a rebuild is due and the leader's index alone counts. |
| CompactedLog.HandleTwice | c/src/raft.c:472-541 | Handling a message twice equals handling it once, full array included. |
| CompactedLog.OlderChangesNothing | c/src/raft.c:472-541 | An older message of the same leader handled after a newer one changes neither log nor commit index. |
| CompactedLog.CompactionRefines | c/src/raft.c:472-541 | A compacted node and one that never compacted accept, reject and end alike, given room and equal creators at the boundary. |
| CompactedLog.BoundaryAcceptsMore | c/src/raft.c:483-486 | Exactly which messages the compacted node accepts and the full one rejects at the snapshot boundary. |
| CompactingNode.Node.LastIndex | c/src/raft.c:67-69 | The length of the logical log. |
| CompactingNode.Node.LastLogTerm | c/src/raft.c:71-74 | The last term of the logical log, also when the array is empty. |
| CompactingNode.Node.EntryAt | c/src/raft.c:81-88 | The entry of the logical log at a retained index, within the array. |
| CompactingNode.Node.TermAtIndex | c/src/raft.c:90-94 | The term of the logical log from the snapshot index on. |
| CompactingNode.Node.LeaderAtIndex | c/src/raft.c:96-99 | The creator of the logical log's entry, or nothing for indices not retained. |
| CompactingNode.Node.CheckPrevious | c/src/raft.c:476-486 | A message is accepted if and only if its previous index lies between snapshot and end of the logical log with equal terms and, beyond the snapshot, equal named creators. |
| CompactingNode.Node.AppendOne | c/src/raft.c:488-515 | One pass of the loop over the array is one step on the logical log. |
| CompactingNode.Node.AppendLoop | c/src/raft.c:488-516 | The loop over the array is the specified loop on the logical log. |
| CompactingNode.Node.AppendFromLeader | c/src/raft.c:472-541 | Log, commit index and rebuild as specified; the replay invariant is kept; the index window is kept if and only if no rebuild has a leader commit below the snapshot. |
| CompactingNode.Node.AppendCommand | c/src/raft.c:627-643 | A leader with room appends its entry and returns its index, others return nothing. |
| CompactingNode.Node.ApplyCommitted | c/src/raft.c:919-927 | Everything committed is applied in order, with every array access in bounds. |
| CompactingNode.Node.CompactibleIndex | c/src/raft.c:731-739 | The least acknowledged index for a leader, the applied index for others. |
| CompactingNode.Node.MoveDown | c/src/raft.c:767-775 | The kept entries stand at the front of the array, in order. |
| CompactingNode.Node.Compact | c/src/raft.c:747-784 | The snapshot boundary becomes the larger of what it was and the target, the array loses exactly the entries in between, the snapshot is the application exactly if it moves; the logical log and the replay invariant survive; the label is true exactly when the state at the label equals the state at the applied index. |
| CompactingNode.Node.PeerIndex | c/src/raft.c:301-307 | The first position of the id among the peers. |
| CompactingNode.Node.ReplicatedOn | c/src/raft.c:385-398 | A majority of the list holds the index if and only if it is at most the majority-th largest acknowledgement. |
| CompactingNode.Node.AdvanceCommitIndex | c/src/raft.c:422-435 | The new commit index is the largest current-term index at most the majority-th largest acknowledgement of old and new members, else unchanged; it never decreases. |
| CompactingNode.Node.DumpOutputs | c/src/raft.c:903-932 | A tick's outputs keep all invariants, commit what the quorums hold if leading, apply everything committed, and compact to the target if and only if a positive threshold is reached, so that afterwards less than that is left to compact. |
| OrderStatistic.MajorityReaches | c/src/raft.c:385-398 | Counting who reaches an index is comparing it with the order statistic, for lists of any length. |
| KeyValue.LastWriteWins | c/src/raft_kv_app.c:22-47 | The last command on a key decides its value whatever the state before; untouched keys keep theirs. |
| KeyValue.LastWriteIs | c/src/raft_kv_app.c:22-47 | A last set leaves the key its value, empty if it carries none; a last deletion leaves it without one. |
| KeyValue.RunTwice | c/src/raft.c:725-784 | Replaying a stretch of log over a state that already has it changes nothing. |
| KvTable.Table.Get | c/src/raft_kv_app.c:13-20 | The map's value, or the empty string. |
| KvTable.Table.Apply | c/src/raft_kv_app.c:22-47 | A command does to the map what it says, except that a full table drops a new key; slots are never given back. |
| KvTable.Table.ApplyAll | c/src/raft_kv_app.c:22-47 | As long as the table cannot fill up, any command sequence leaves what a map would hold, one live slot for each key. |
| KvSnapshot.Snapshot | c/src/raft_kv_app.c:54-70 | The buffer holds the lines of the live slots up to the first that does not fit. |
| KvSnapshot.Restore | c/src/raft_kv_app.c:72-96 | The slots are those the text's lines give. |
| KvSnapshot.SnapshotRoundTrip | c/src/raft_kv_app.c:54-96 | Restoring a snapshot gives back the table's contents if and only if all live pairs are clean and all lines fit. |
| MemberLists.NormalizeMembers | c/src/raft.c:200-228 | In place: the distinct ids as far as they fit, in order; within capacity the normal form. |
| MemberLists.EncodeMembers | c/src/raft.c:594-605 | The ids joined by commas, cut to the field. |
| MemberLists.DecodeMembers | c/src/raft.c:607-625 | The different tokens of the value, each cut to an id field, up to eight. |
| MemberLists.EncodeDecode | c/src/raft.c:594-625 | Decoding inverts encoding if and only if there are at most eight different ids, nonempty, without commas and short enough. |
| MemberLists.JoinFills | c/include/raft/raft.h:24-46 | Eight ids of the greatest length exactly fill the value field. |
| LogText.ParsePrinted | c/src/raft_storage.c:153-170 | A printed entry's line gives the entry back, bars in its value included. |
| LogText.LoadPrinted | c/src/raft_storage.c:285-316 | A printed log loads as its entries after the snapshot. |
| LogText.LogRoundTrip | c/src/raft_storage.c:124-133 | A printed log loads back as itself if and only if its fields are free of separators and fit, it starts after the snapshot and the array has room. |
| LogText.ParseOlder | c/src/raft_storage.c:305-312 | A line of an older file, without a creator, gives back its entry if and only if its value has no bar. |
| LogText.LoadOlder | c/src/raft_storage.c:285-316 | A file of such lines loads as its entries after the snapshot. |
| LogFile.SplitInPlace | c/src/raft_storage.c:153-170 | Cutting the line where it stands leaves each field as a C string at its start, and fails exactly when there are too few bars. |
| LogFile.ParseInPlace | c/src/raft_storage.c:288-312 | Six fields, or five in the older format. |
| LogFile.WriteLog | c/src/raft_storage.c:124-133 | The loop prints the log. |
| LogFile.ReadLog | c/src/raft_storage.c:285-316 | The loop fills the array with the loaded entries. |
| MetaText.MetaRoundTrip | c/src/raft_storage.c:100-118 | The meta file gives back term, vote, threshold, indices and configuration if and only if vote and members are words that fit their fields, the vote is no dash, the members are at most as many as there are slots and no empty one stands before another. |
| MetaText.MetaLines | c/src/raft_storage.c:100-118 | The meta file line by line: which name stands before which value, in which order. |
| MetaText.VoteBack | c/src/raft_storage.c:228-230 | A vote is read back if and only if it has no blanks, fits its field and is no dash. |
| MetaText.WriteMembers | c/src/raft_storage.c:110-117 | One line for each member. |
| MetaText.LoadMeta | c/src/raft_storage.c:223-263 | The loop over the lines. |
| Restart.ReplayOnce | c/src/raft.c:645-709 | Replaying applied entries over the saved configuration and threshold, from the base application state, changes nothing: no configuration entry is applied twice. |
| ConfigEntries.LastEntryDecides | c/src/raft.c:645-709 | After replaying a log the configuration is the one its last configuration entry spells: an ending entry leaves its members alone, an opening one the old members with its own as new ones, at its index. |
| ConfigEntries.EnterInstalls | c/src/raft.c:654-680 | An opening entry whose value spells a list leaves the old member set current and exactly that list's set joining, in order, from its index on, and nothing else changed. |
| ConfigEntries.LeaveInstalls | c/src/raft.c:681-705 | An ending entry leaves exactly the set it spells, and no new members. |
| ConfigEntries.LimitInstalls | c/src/raft.c:645-653 | A threshold entry sets the number it spells, unless that is zero. |
| Restart.RestartTransparent | c/src/raft_storage.c:201-346 | Saved at the end of a tick and started again, a node has the same term, vote, threshold, indices, configuration, log and application once the apply loop has caught up. |
| Restart.FilesLoad | c/src/raft_storage.c:201-346 | What a start finds in any meta, log and snapshot files: the meta values with the commit index cut to what is there, the entries after the snapshot, and the snapshot's state exactly if the meta file names it. |
| EngineRuns.AlwaysRestartable | c/src/raft.c:903-932 | In every run of a node from new, whatever it hears, appends, commits and compacts and at whatever point of a tick, between its files too, it crashes and is started again, every tick and every start ends with the application equal to the replay, and a node whose values the files can hold comes back from its files as it was. |
| EngineRuns.CutCrash | c/src/raft.c:747-784 | A crash within a compaction leaves the node as it was before any file is replaced, and in the first compaction also before the meta file is; the compacted node after the meta file; and in a later compaction, between snapshot file and meta file, a node below its own snapshot. |
| EngineRuns.ReceivedWindow | c/src/raft.c:518-539 | Handling a message keeps the index window if and only if no rebuild has a leader commit below the snapshot. |
| EngineRuns.LoadWindow | c/src/raft_storage.c:318-345 | A started node is within its window if and only if its snapshot file is the one its meta file names, or its meta file names none. |
| EngineRuns.FirstCompactionCut | c/src/raft.c:747-784 | A crash during the first compaction, snapshot file written and meta file not, leaves the node as restartable as it was. |
| EngineOfNode.HandleAlike | c/src/raft.c:472-541 | What the snapshot covers makes no difference to how a message is handled, but for its last term. |
| EngineOfNode.Hear | c/src/raft.c:472-541 | Handling a message over the array is the engine's move. |
| EngineOfNode.Compact | c/src/raft.c:747-784 | Compacting the array cuts the engine's log at the target if that lies beyond the snapshot, and changes nothing otherwise. |
| EngineOfNode.Apply | c/src/raft.c:919-927 | The apply loop over the array leaves application, applied index and log as the engine's does. |
| SnapshotReplay.RebuildFromText | c/src/raft_kv_app.c:54-96 | Replaying from the snapshot's text gives the application back if and only if every key the replay does not touch is in the text as it is in the application; with a label at the applied index, if and only if all live pairs are clean and fit. |
| SnapshotReplay.RebuildOverrun | c/src/raft_kv_app.c:54-70 | With clean pairs that is: if and only if the replay touches every live slot that no longer fitted. |
| SnapshotReplay.CompactOver | c/src/raft.c:725-784 | Compaction over a slot table and a text buffer leaves a text that gives the application back under exactly those conditions. |
| Restart.OldLogFileLoadsSame | c/src/raft_storage.c:197-198 | After a compaction, the new meta file with the old log file loads the same node as both new files. |
| Restart.CompactedAtRest | c/src/raft.c:747-784 | A compaction at or below the applied index keeps the node restartable with all its state. |

## Left out

- ClusterTheorems.StateMachineSafety: assumes honest replies and harmless torn saves; without either it is false of the code, as the two diverging runs show.
- ClusterTheorems.CommittedInLaterLeaders: assumes the same two hypotheses.
- ClusterTheorems.ApplicationsAgree: assumes the same two hypotheses.
- Durability.RepliesOnDisk: assumes the same two hypotheses, since a reply that is not honest acknowledges entries the leader does not have; AcknowledgedOnDisk says what holds without them.
- ClusterTheorems.ElectionSafety: assumes, like every run theorem, that all running nodes are stable in or joint from one member list; across stable(O) and stable(N) in force together the code gives no such guarantee (StablePairsMiss).
- TornRestarts.HarmlessTearIff: when the node has committed alone in the tick cut off, commits made later in the run are compared one way only: had it not crashed, the node would itself have committed the same, chosen by then.
- TornRestarts.TornLeaderIff: one way only in the same case, because the node may itself be that leader.
- NodeRestarts.RestartTransparent: assumes that no running node's member list is empty; EmptyForgotten says what happens to one.
- RaftNode.JsonFileStorage.Save: the snapshot index and term and the application snapshot that the file also holds are left out, with Python compaction.
- RaftNode.RaftNode.Start: starts from meta and log file, without a snapshot, for the same reason.
- CompactingNode.Node.AppendCommand: the broadcast that follows is left out, with the C engine's sends.
- CompactingNode.Node.ApplyCommitted: what configuration entries do is in Restart, which has the configuration and the threshold.
- CompactingNode.Node.DumpOutputs: the membership driver, the save and the sends are left out.
- CompactingNode.Node.Compact: keeps the snapshot as the map it stands for; SnapshotReplay.CompactOver has it as text.
- EngineOfNode.Apply: configuration and threshold, which the engine's apply loop also changes, are not in the array node.
- CompactedLog.CompactionRefines: assumes equal creators at the snapshot boundary; BoundaryAcceptsMore says exactly what happens otherwise.
- MetaText.MetaRoundTrip: for numbers that an int holds, as the fields do.
- Restart.RestartTransparent: needs values the files can hold and the snapshot file the meta file names; EngineRuns.CutCrash says what a crash within a compaction leaves instead. A configuration with no members is replaced by the initial one at start, which is not modelled.
- The runtime that drives the state machines, its periods and threads: a tick is latch, role row, membership row, dump, each row's guard and action together; compaction rows of the Python node are not modelled.
- Clocks and timeout jitter: whether a deadline has passed is an input of the tick.
- Transports, join and merge between clusters, learners, shells, telemetry and tracing.
- JSON: each Python file is one value replaced as a whole, and commands carry member lists and thresholds decoded, so malformed payloads and the errors they raise do not arise.
- A tick that raises an index or key error has no effect but may be followed by a crash; what a half-finished tick leaves in memory is not modelled.
- Python compaction and restart from a snapshot; the compaction model is the C engine's.
- The C role machine, its bounded queues, vote counting and batching of sends; roles and elections are the Python engine's. The C membership driver too.
- C integers are unbounded here, except where the files' line length depends on their width; C strings hold no NUL, and `atoi` meets only digits.
- Directories, file-system errors and the formatting library.
