# A verified model of the replicated key-value store

The program is a per-user key-value store. A Raft implementation written for it
(`raft/`) replicates a log of commands; every node applies the committed entries, in
order, to a state machine (`server/state_machine.py`) that keeps a bounded LRU cache and
an expiry table in RAM over database rows. This project models the three parts that meet
at that log, and proves what they are for.

## The Raft protocol

`Nodes` holds one node as a value (the fields of `RaftNode` and of the engine) and every
handler as a function from old fields to new fields and reply, with log compaction inside
the consistency check, commit counting over a changing membership and numbered requests.
`Clusters` makes a step system of it: nodes, a set of every packet ever sent (so packets
are lost, duplicated, delayed and reordered), and received snapshot files that wait for
the state machine. There are 18 kinds of step: time-outs and transfers, votes and their
answers, client writes, membership changes, entries and snapshots sent, received and
answered, step-downs, applying with compaction, and crashes. Clocks, leases and
check-quorum only choose which step happens.

The safety proof keeps a ghost history (`Histories`): every candidacy, vote, election,
leader log, acknowledgement and commit so far, with logs as they are without compaction.
`LeaderCompleteness` proves leader completeness and election safety from facts about
this record alone, for memberships that change one node at a time any number of times.
`Worlds` and `WorldSteps` show that elementary moves keep those facts; `Compaction`,
`Tracking`, `Leading` and `Following` tie the running nodes to the record;
`ClusterInvariant` shows that each of the 18 steps keeps the whole invariant. On top:
`RaftSafety` (what holds in every run), `Waiters` (what `propose` returns),
`ReadBarrier` (linearizable reads), `StaleReads` (runs in which the read barrier fails),
`Reconfiguration`, `LostWrites` (a run in which a membership change loses a committed
entry; `Stretches` puts such runs together), `Bootstraps` (clusters in which that cannot
happen), `TwinMembers` and `Twins` (compaction is invisible), `BackOffs` (the bound on
retries), `PreVotes`. `Elections`, `Replication` and `StepEffects` say exactly when a node
grants, accepts, counts and commits, on whole logs, so that it does no less than it may.

`Storages` and `Engines` are the imperative form of one node: the in-memory storage with
its deletion loops, and the engine with its fields changed in place and its loops over the
log. Every engine method is proved to do to the fields what the function of `Nodes` says,
and to leave the storage an exact mirror; a new engine over the storage is the `Restart`
of the step system. `Chunks` is the reassembly of snapshot files.

## The state machine

`PlainMaps` is the meaning: a plain map from user and key to value and expiry; `PlainLaws`
says of every command what later reads return. `Recency`
and `LruCaches` are the bounded cache, as a value and as a class. `Machines` and
`StateMachines` are the state machine, as functions and as a class with the program's
loops. `WriteThrough` proves that with the database on it is the plain map, for every
capacity, warm state and interleaving of reads, also in the middle of a SWEEP; `RamOnly`
proves the same without the database while every user fits, and that replicas can diverge
from the first command after which one does not. `Sessions` proves exactly-once writes,
`Replays` when applying entries again after a restart changes nothing, `Snapshots` and
`Databases` that snapshots round-trip and that the batched loader does what a row-by-row
load does. `Restores` joins dump and restore without a database: the node that loaded a
snapshot carries on as the node that wrote it. `LogRuns` is a replica's whole life: entries,
reads at any moment, also between the halves of a SWEEP, restarts with the replay that
follows, and snapshots installed from other replicas. Its answers are a function of its log.

## The service

`Services` puts both together: a run of the cluster in which every node drives a state
machine on a database, with an event of the machine's life for every entry applied, every
restart and every snapshot installed (`Progress` says which steps these are). All replicas
agree with one committed log; what `propose` returns is that log's answer to the proposal;
and a read behind the read barrier, at any node, sees every write acknowledged before it.

## Where the code does not meet the property

* **Read barrier.** `_confirm_read_index` checks leadership and term only before it
  waits (raft/node.py:1116-1127, 875-883), and counts answers by number alone. A leader
  that is replaced and elected again while the call sleeps counts answers of its new term
  and returns the index it took in the old one. `StaleReads.ReadAcrossTermsIsStale`: for
  every membership of three nodes or more and any two of them there is a run, without a
  crash, in which that index is below what the other had committed before the read began.
  `ReadBarrier.ReadIndexIsCurrent` proves that the index is never stale when the term at
  the return is the term at the start, which a caller can check; it holds for every run
  and every membership change. A call that returns in a later term may still be lucky;
  whether it is depends on commit indices of other nodes that no caller can see.
* **Snapshots of a joining node.** A node started with `join=True` stores an empty
  bootstrap membership (raft/node.py:1607-1612). If it compacts, or sends a snapshot,
  before a CONFIG entry reached it, the snapshot says that nobody is a member
  (raft/node.py:1007, raft/types.py:200-207). `Reconfiguration.JoinerForgets` is a
  concrete case; `Reconfiguration.SnapshotKnowsMembership` says exactly when the
  membership in a snapshot is the true one.
* **Adding a member when none is known.** `add_member` does not look at the membership it
  adds to (raft/node.py:475-511). A leader into which a late snapshot of a joining node
  is installed may believe that nobody is a member; the CONFIG it then appends makes the
  added node the only one, and a majority of one commits it. In the run of
  `LostWrites.CommittedEntryIsLost`, with three members and one joining node, the leader
  is asked to add its own node after such an install, commits the change alone, and the
  committed entry is lost. `Reconfiguration.AddChangesOneIffKnown`: what `add_member`
  appends is one node away from the true membership if and only if the leader knows of
  some member, or nobody is a member, or there are two members and the node added is one
  of them. The theorems about runs hold for every run in which each `add_member` is taken
  at a leader that knows of some member (`Clusters.IsKnowingRun`), which the program could
  check in that call. `Bootstraps.BootstrappedRunsKnow`: that is every run of a cluster in
  which no node starts with an empty membership.
* **Empty keys.** With the database on, a SET or SETEX with an empty key writes the row and
  then raises in the cache (cache/lru_cache.py:46-47), and the applier retries it for ever.
  `WriteThrough.EmptyKeyRaises`: the answer is the plain map's exactly when a key is
  given or the user is unknown. The theorems about whole logs assume that keys are given.
* **Session of the empty client id.** The database forgets the evicted session only if its
  client id is not empty (server/state_machine.py:353-354). `StateMachines.TablesDiffer`:
  after a new session is recorded RAM and database differ if and only if the table was
  full, the client was not in it, and its oldest session was that of the empty id; the
  database then remembers that one more. `StateMachines.EmptyClientRunsAgain` is a full
  table after which a repeated request is new before a restart and known after it.
* Neither of these two inputs can come from a client of the text protocol: it splits
  commands at blanks (server/tcp_server.py:534-545), demands a client id of 1 to 64
  characters in a tag (server/tcp_server.py:70), and gives an id to untagged writes
  (server/tcp_server.py:87, 712). Only an entry handed to `raft.submit`, or to the Forward
  call of another node, can carry them.
* **Replay.** A replayed SWEEP removes rows that were stored after it was logged and had
  expired by its time (`Replays.ReplayCanLoseKeys`). For logs of identified writes whose
  sessions are still remembered, `Replays.ReplayChangesNothingIff` is exact: applying the
  entries again changes nothing if and only if no row stored before the restart is
  expired at the time of a SWEEP among them. `Replays.UnidentifiedWriteRunsAgain` and
  `Replays.EvictedSessionRunsAgain` are logs that need those two hypotheses.
* **RAM-only replicas.** For every capacity of two or more, and every log at its first
  command after which a user holds more keys than the capacity, there is a local read
  just before that command and a DELETE after it that a replica with the read and one
  without it answer differently: `RamOnly.ReplicasDiverge`. With a capacity of one a slot
  has no order to disturb, and replicas agree whatever overflows:
  `RamOnly.SingleSlotsAgree`.

## Assumptions

* `add_member` and `remove_member` compute the new membership and append the entry in one
  step; the program releases the lock in between (raft/node.py:501-507, 525-527).
* A crash happens between handlers, and a restart has the storage of the crashed node.
* The theorems about runs assume `Clusters.IsKnowingRun`: a leader that takes an
  `add_member` knows of some member (see above for what happens otherwise).
* A replicator's snapshot transfer appears as packets of its index and term sent when the
  transfer starts; the content of the chunks is in `Chunks`.
* A SWEEP entry carries no request id (server/tcp_server.py:322).
* In `LogRuns` and `Services` client ids are not empty, so that the sessions a restart
  loads are those that were in RAM, and every state machine is on a database.
* A restart in `LogRuns` and `Services` is one from which a replay changes nothing
  (`LogRuns.Repeatable`); `Replays` says exactly when that is.
* Users in RAM are the users in the database.

## Model

| member | source | states |
|---|---|---|
| RaftSafety.ElectionSafety | raft/node.py:665-772 | in every run, with loss, duplication, crashes, transfers, compaction and membership changes, in which each add_member is taken at a leader that knows of some member, two leaders of one term at any two moments are the same node |
| RaftSafety.CommittedEntriesStay | raft/node.py:1060-1082 | in every such run an entry once at or below any node's commit index is in the log or the compacted prefix of every leader of a later term, and of later leaders of the same term |
| RaftSafety.StateMachineSafety | raft/node.py:1156-1196 | in every such run two nodes that apply an entry at one index, at any two moments, apply the same entry |
| RaftSafety.SameEntryApplied | raft/node.py:1168-1176 | in every such run committed entries at one index agree between any two nodes at any two moments |
| RaftSafety.LogMatching | raft/node.py:1407-1445 | in every state of such a run equal terms at an index mean equal entries up to it; terms never decrease along a log nor exceed the node's term |
| RaftSafety.ProgressIsOrdered | raft/node.py:1489-1511 | in every such run snapshot index <= last applied <= commit index <= last log index, also when a snapshot jumps ahead |
| RaftSafety.AcknowledgedWriteIsTheProposal | raft/node.py:384-394 | in every such run, if what any node has committed at the index a leader appended to has the term of the append, it is that very entry, with its command, user and request |
| Waiters.ReturnedIsApplied | raft/node.py:384-418 | the result that propose may return, from the slot at its index with its own term, is the state machine's answer to exactly the entry it appended, applied by this node after the append, also when another proposal or leader used the index |
| Waiters.ProposalStarts | raft/node.py:389-391 | an append starts its slot anew, so an earlier result at the index is never returned for it |
| Waiters.SlotIsFilled | raft/node.py:1181-1185 | the applier leaves term and answer of the entry it applied with whoever still waits at its index |
| LostWrites.CommittedEntryIsLost | raft/node.py:475-511 | a run without a crash in which a leader that knows of no member adds one, commits an entry by that step alone, and a leader of a later term has another entry at the committed index |
| Bootstraps.BootstrappedRunsKnow | raft/node.py:1607-1616 | in every run of a cluster where no node starts with an empty membership, every add_member is taken at a leader that knows of some member |
| LeaderCompleteness.Complete | raft/node.py:1060-1082 | from the recorded history alone: every elected leader had everything committed in earlier terms, whatever one-node membership changes lie between |
| LeaderCompleteness.OneWinner | raft/node.py:721-723 | two elections of one term with voters from their own log's membership have the same winner |
| LeaderCompleteness.ForkedMajoritiesMeet | raft/node.py:865-873 | two logs that fork, each with its last change settled by a commit before the fork, have memberships whose majorities share a node |
| LeaderCompleteness.NoSnapshotDuringCampaign | raft/node.py:1488-1511 | a candidate whose log a snapshot replaces during its campaign cannot win with something its campaign log lacked |
| Quorums.MajoritiesMeet | raft/node.py:721-723 | majorities of equal memberships, or of memberships one node apart, share a node |
| ClusterInvariant.StepKeepsInv | raft/node.py:647-1541 | each of the 18 steps keeps the invariant that ties nodes, packets and waiting snapshots to the history; an add_member when it changes the true membership by one node, which KnowingAddsOne gives for a leader that knows of some member |
| ClusterInvariant.KnowingAddsOne | raft/node.py:501-507 | an add_member at a leader that knows of some member changes the true membership by one node |
| ClusterInvariant.InitInv | raft/node.py:1593-1616 | first starts, with the bootstrap membership or none, satisfy the invariant |
| ClusterInvariant.HandleVoteTracks | raft/node.py:1319-1379 | a vote is granted only once per term, only to a candidate whose campaign log is up to date, and is on record before the reply |
| Elections.VoteGrantedIff | raft/node.py:1319-1379 | a vote is granted if and only if the term is not behind, no live leader is disturbed, the vote of the term is free or the candidate's own, and the candidate's whole log is up to date |
| Elections.VoteIsCast | raft/node.py:1340-1379 | a granted vote is the candidate's in its term, a refusal gives nobody a vote, and a later term is taken unless a live leader would be disturbed |
| Elections.CampaignNamesLog | raft/node.py:665-698 | a campaign names the end of the candidate's whole log, compacted or not, in the next term |
| Elections.CandidateStands | raft/node.py:665-698 | a candidate stands in the next term with its own vote and leads at once if and only if it is the only voter |
| Elections.VoteIsCounted | raft/node.py:700-723 | a granted vote of the candidate's term makes a leader if and only if a majority of the members has now granted |
| Elections.OfficeFacts | raft/node.py:729-757 | a new leader has its no-op at the end of its log, asks everybody from there on and has forgotten earlier acknowledgements |
| Elections.TransferStands | raft/node.py:1533-1541 | a node told to take over in a term not behind its own stands in the next term if it is a member and does not lead; else nothing changes |
| Elections.TransferStep | raft/node.py:1533-1541 | the step of the cluster is that handler, with a request to every other member |
| Elections.TimeoutStep | raft/node.py:665-698 | a time-out makes the node stand, with a request to every other member |
| Elections.LaterTermIsTaken | raft/node.py:700-707 | whatever answer tells of a later term, the node takes it, without a vote, and follows |
| Elections.PreVoteGrantedIff | raft/node.py:1331-1335 | a pre-vote is granted if and only if the term is above the node's, no live leader is heard and the candidate's whole log is up to date |
| Elections.PreVoteForeseesVote | raft/node.py:1331-1379 | for a new term the pre-vote is granted if and only if the unchanged node would grant the vote |
| ClusterInvariant.AppendReplyTracks | raft/node.py:949-977 | a reply moves match index only to what the follower acknowledged in this term |
| ClusterInvariant.HandleChunkTracks | raft/node.py:1458-1486 | a chunk answered with success in the leader's term means that the node holds the snapshot's entries |
| Leading.TakeOfficeTracks | raft/node.py:729-757 | an elected candidate becomes the one recorded winner of its term and adds its no-op |
| Leading.CountedIsCommit | raft/node.py:1070-1082 | the index found by counting members of the current membership, of the current term, is backed by acknowledgements of a true majority |
| Leading.ScanFinds | raft/node.py:1073-1082 | the commit scan stays put or ends on an entry of the own term held by a majority |
| Replication.CommitsAllItMay | raft/node.py:1060-1082 | the leader ends on the highest index of its own term that a majority of its members holds, and leaves none above it uncommitted |
| Replication.NothingIsLeftUncommitted | raft/node.py:1060-1082 | in every run, after every step that makes a leader or gives it an entry or a success to count, no entry of its term that a majority holds is left uncommitted |
| Replication.AppendAnswerTeaches | raft/node.py:957-977 | an answer in the leader's term notes the contact; a success raises what is known to match to the farthest of what was known, quoted and reported, with the next request right behind it; nothing known of any peer is lost |
| Replication.SnapshotAnswerTeaches | raft/node.py:1026-1046 | the last chunk of a snapshot taken, the peer is known to hold its index; before that only the contact counts |
| Replication.StrayAnswersTeachNothing | raft/node.py:957-964 | answers of another term, or to a node that does not lead, change nothing |
| Replication.RequestQuotesLog | raft/node.py:924-947 | a request quotes the whole log from the position it tries, as much as fits, and the leader's commit index |
| Replication.SnapshotNamesLog | raft/node.py:1000-1007 | a snapshot is offered for exactly what is applied, with the term of the whole log there |
| Replication.LeaderIsHeard | raft/node.py:1389-1406 | every request of a leader whose term is not behind makes a follower of that leader, whatever the answer; one from behind changes nothing and is told the term |
| Replication.ChunkIsAnswered | raft/node.py:1458-1484 | chunks of a snapshot already applied are acknowledged; of one that is lacking, in order acknowledged or complete, out of order refused |
| Replication.InstallIsDone | raft/node.py:1488-1511 | an installed snapshot is applied and committed and its sender told so; one already applied changes nothing |
| Replication.CompactsInTime | raft/node.py:1218-1234 | after an entry is applied fewer than the threshold of applied entries are left above the snapshot; below it nothing is folded |
| Replication.RemovedLeaderLeaves | raft/node.py:1189-1195 | a leader leaves office over an applied entry if and only if it is a CONFIG, no newer one is left to apply, and its membership does not name the leader |
| StepEffects.RequestsAreAnswered | raft/node.py:1257-1313 | every vote request, AppendEntries and early chunk is answered, with the request and number it answers |
| StepEffects.InstallIsAnswered | raft/node.py:1486-1511 | a complete file is installed once and its sender gets the success |
| StepEffects.RequestsAreNumbered | raft/node.py:924-947 | every request for entries and every snapshot goes out under the next number, and changes nothing else at the leader |
| StepEffects.NewPeerStartsAtEnd | raft/node.py:889-897 | a new peer is asked from the end of the log on and taken to have nothing |
| StepEffects.StepDownFollows | raft/node.py:774-799 | stepping down makes a follower of the given term that keeps its log and, in its own term, its vote |
| StepEffects.OnlyActorMoves | raft/node.py:1257-1313 | a step changes only the node it runs at, and takes nothing out of the network |
| StepEffects.CrashLosesOnlyItsOwn | raft/node.py:1593-1616 | a crash loses the role, progress and files of its own process, and nothing it stored or sent |
| Leading.ProposeTracks | raft/node.py:372-395 | an append keeps the leader in step with the history; for a CONFIG under the idle check and when it is one node away from the true membership |
| Following.HandleAppendTracks | raft/node.py:1389-1456 | an accepted AppendEntries leaves the follower's whole log a prefix-merge of the leader's, never loses committed entries, and its match index is true |
| Following.NewCommitIndex | raft/node.py:1447-1451 | the commit index taken from a leader covers only entries some leader committed |
| Following.InstallTracks | raft/node.py:1488-1511 | installing a snapshot, even one from an older term, keeps everything committed |
| Following.RestartTracks | raft/node.py:1593-1616 | a restarted node still fits the history it left |
| Compaction.Queries | raft/types.py:156-186 | above the snapshot boundary the offset log gives the index, term and entry of the whole log, below it nothing |
| Compaction.BatchIsSlice | raft/types.py:183-186 | a batch of entries is that slice of the whole log |
| Compaction.ConfigAtIsMembership | raft/types.py:200-207 | the membership reported for an index is the one in effect there, or unknown if none was ever told |
| Compaction.CompactRepresents | raft/types.py:209-224 | folding applied entries into the snapshot changes nothing the node stands for |
| Compaction.InstallRepresents | raft/node.py:1499-1509 | a received snapshot leaves the old log if it contains the snapshot, else exactly the snapshot |
| Compaction.MergeRepresents | raft/node.py:1429-1445 | the skip, cut and append loop leaves the old log if it contains the entries, else exactly the leader's prefix |
| ReadBarrier.ReadIndexIsCurrent | raft/node.py:1108-1127 | in every run in which a leader that adds a member knows of some member, a read that ends in the term it began in, in one life of the leader, gets an index at or above everything any node had committed when it began |
| ReadBarrier.ReadersMeetVoters | raft/node.py:1120-1126 | the members that answered in the term share a node with the voters of the first leader of any later term |
| ReadBarrier.NumbersStay | raft/node.py:979-988 | every request of a leader's term in the network, and every noted answer, has a number up to the leader's counter |
| ReadBarrier.WaitingStays | raft/node.py:990-994 | while a read waits, an answer noted above its start comes from a node that had not passed the term when the read began |
| StaleReads.ReadAcrossTermsIsStale | raft/node.py:1116-1127 | for every membership of three nodes or more and any two of them, a run without a crash in which the same call, returning in a later term, yields an index below what the other had committed before it began |
| Reconfiguration.ChangeStartsSettled | raft/node.py:865-873 | in every run in which a leader that adds a member knows of some member, a leader appends a CONFIG only when its own no-op and all earlier CONFIG entries of its log are committed, changing one node, so that majorities of old and new meet; the CONFIG is in its log and in effect after the step |
| Reconfiguration.RemoveMemberRemoves | raft/node.py:513-528 | after remove_member the newest entry of the leader is a CONFIG of its term with all members but the one asked for, it goes by it at once, and nothing else has changed |
| Reconfiguration.AddMemberAdds | raft/node.py:501-507 | after add_member the newest entry is a CONFIG with all members and the one asked for, likewise |
| Reconfiguration.IdleLeaderMayChange | raft/node.py:475-528 | an idle leader may add any node that is no member and remove any member but the last |
| Reconfiguration.ChainOfMemberships | raft/node.py:475-528 | along every log of every such run neighbouring CONFIG entries differ by one node and all their majorities meet |
| Reconfiguration.AddChangesOneIffKnown | raft/node.py:475-511 | what an idle leader appends for add_member is one node away from the true membership if and only if the leader knows of some member, or nobody is a member, or there are two members and the node added is one of them |
| Reconfiguration.SnapshotDiffersByOne | raft/types.py:192-198 | so do a snapshot's known membership and the first CONFIG above it |
| Reconfiguration.SnapshotKnowsMembership | raft/node.py:1005-1007 | the membership in a snapshot is the true one if and only if the sender was told one, by its own snapshot or a CONFIG up to the index |
| Reconfiguration.JoinerForgets | raft/node.py:1607-1612 | a joining node that compacts before its first CONFIG sends a snapshot with nobody in it |
| Twins.CompactionInvisible | raft/node.py:1389-1456 | two nodes with one whole log, differently compacted, are twins again after every request from a leader that agrees on the compacted part: same verdict, full log, commit index and membership; the compacted one's hints are never lower and its match index is what the leader has |
| Twins.TwinsForEver | raft/node.py:1389-1456 | so they are after every sequence of such requests |
| Twins.AppendOutcome | raft/node.py:1407-1456 | the reply and new log stated on the whole log alone: success exactly when the logs agree at the named position |
| Twins.SameVote | raft/node.py:1319-1387 | both answer every vote request alike |
| Elections.SamePreVote | raft/node.py:1331-1335 | both answer every pre-vote alike |
| Twins.SameCommit | raft/node.py:1060-1082 | with the same progress of their peers, both find the same commit index |
| Twins.SameIdle | raft/node.py:865-873 | both accept, or both refuse, to start a membership change |
| Twins.SameRequest | raft/node.py:924-936 | both ask a follower the same question when no snapshot is due |
| Twins.CompactingMakesTwin | raft/node.py:1218-1234 | compacting turns a node into a twin of itself |
| BackOffs.MismatchBound | raft/node.py:966-975 | at most one mismatch reply plus one per distinct term above the follower's snapshot before success or a snapshot |
| BackOffs.RefusalsBounded | raft/node.py:949-977 | for every sequence of refused exchanges between a leader and a follower whose log stays, the follower's answer handled each time by the leader: at most one for a log too short and one per term above the snapshot, next index falling each time |
| BackOffs.NextIndexFalls | raft/node.py:974-975 | each mismatch reply lowers next index strictly, and never into the follower's snapshot |
| BackOffs.VerdictOfProbe | raft/node.py:1415-1427 | the handler's verdict and hint on a probe, from the follower's log and the leader's term at the position |
| PreVotes.OneElectionPerRound | raft/node.py:647-663 | whatever else happens at the node, one pre-vote round starts at most one election |
| PreVotes.NewRoundEndsEarlier | raft/node.py:627-640 | answers to a round older than the newest question start nothing |
| PreVotes.ElectionIffBacked | raft/node.py:647-663 | an answer starts the election if and only if the round is current and a majority of voters, with this answer, has said yes; the node then stands, and no answer starts it twice |
| PreVotes.AsksAboutNextTerm | raft/node.py:647-663 | a round asks about the very term the election would be in, and one voter alone never has its majority |
| PreVotes.RoundsEnd | raft/node.py:647-663 | hearing a leader, giving way, voting and standing end the rounds under way |
| StepShapes.StepShape | raft/node.py:774-799 | between crashes terms, commit indices, counters and timer generations never go back, offices start with no answers noted, answers carry the number of their request |
| Engines.RaftEngine.constructor | raft/node.py:1593-1616 | an engine over a storage is the restart of the node the storage mirrors, with everything volatile reset |
| Engines.RestartOver | raft/node.py:1593-1616 | term, vote, log, snapshot boundary and membership survive a crash at any point between methods |
| Engines.FirstStart | raft/node.py:1607-1612 | the first start remembers the bootstrap membership and is a start of the step system |
| Engines.RaftEngine.FindLatestConfig | raft/types.py:192-198 | the backward scan finds the newest CONFIG of the log, else the snapshot's membership |
| Engines.RaftEngine.FindConfigAt | raft/types.py:200-207 | the backward scan finds the membership in effect at an index |
| Engines.RaftEngine.AppendLocal | raft/node.py:1240-1245 | memory, storage and membership after an append |
| Engines.RaftEngine.TruncateLocal | raft/node.py:1247-1251 | memory, storage and membership after a cut; a cut CONFIG is undone |
| Engines.RaftEngine.CompactThrough | raft/types.py:209-224 | entries after the boundary stay if the own entry has its term, else none |
| Engines.RaftEngine.MaybeSnapshot | raft/node.py:1218-1234 | compaction at the threshold, in memory and storage alike |
| Engines.RaftEngine.AdvanceCommitIndex | raft/node.py:1060-1082 | the downward loop computes the commit scan, which leaves nothing uncommitted |
| Engines.RaftEngine.BecomeFollower | raft/node.py:774-799 | term, vote and role after a step-down, stored if the term rose |
| Engines.RaftEngine.BecomeLeader | raft/node.py:729-772 | the new leader's fields with its no-op appended and stored, and a commit if it is alone |
| Engines.RaftEngine.BecomeCandidate | raft/node.py:665-698 | the raised term and own vote are stored before anything else |
| Engines.RaftEngine.Propose | raft/node.py:384-395 | the appended entry, stored, and a commit if the node is alone |
| Engines.RaftEngine.HandleRequestVote | raft/node.py:1319-1379 | the new fields and reply of every branch, with the vote stored before the reply |
| Engines.RaftEngine.HandlePreVote | raft/node.py:1331-1335 | a pre-vote changes nothing |
| Engines.RaftEngine.HandleVoteReply | raft/node.py:700-719 | the vote counted once, and leadership at the majority |
| Engines.RaftEngine.HandleTimeoutNow | raft/node.py:1533-1541 | a transfer starts an election at a voter that does not lead |
| Engines.RaftEngine.MergeEntries | raft/node.py:1429-1445 | the loop over the entries is the merge, in memory and storage |
| Engines.RaftEngine.HandleAppendEntries | raft/node.py:1389-1456 | the new fields and reply of every branch, with the storage still a mirror |
| Engines.RaftEngine.HandleAppendReply | raft/node.py:957-977 | contact, match and next index after a reply |
| Engines.RaftEngine.InstallSnapshot | raft/node.py:1488-1511 | memory, storage and membership after an install, or nothing if already applied |
| Engines.RaftEngine.HandleSnapshotReply | raft/node.py:1026-1046 | contact and match index after a snapshot reply |
| Engines.RaftEngine.FinishApply | raft/node.py:1181-1196 | progress, step-down of a removed leader, compaction |
| Storages.MemoryRaftStorage.Load | raft/storage.py:88-99 | the entries above the snapshot in index order, with the rest of the stored state |
| Storages.MemoryRaftStorage.Append | raft/storage.py:106-112 | stored entries from the first new index on are replaced |
| Storages.MemoryRaftStorage.TruncateFrom | raft/storage.py:114-116 | entries from the index on are gone, the others stay |
| Storages.MemoryRaftStorage.SaveSnapshot | raft/storage.py:118-127 | the boundary is stored, covered entries are gone, no membership keeps the stored one |
| Storages.ReadsBack | raft/storage.py:88-99 | reading entries that were stored from a log gives that log |
| Storages.AppendedHolds | raft/storage.py:106-112 | storing new entries behind a log stores the longer log |
| Chunks.FilesArriveWhole | raft/node.py:1467-1486 | under any loss, duplication, reordering or mixing of transfers the file at hand is a prefix of the dump, and a completed one is the dump |
| Chunks.TransferCompletes | raft/node.py:1014-1038 | an undisturbed transfer of any chunk size completes with the whole dump, whatever was there before |
| Chunks.SnapshotReceiver.ReceiveChunk | raft/node.py:1467-1486 | the receiver's state and outcome for every chunk |
| Recency.OrderIsOrderOfUse | cache/lru_cache.py:39-70 | the contents are always in order of last set or successful get |
| Recency.EvictsOldest | cache/lru_cache.py:112-122 | a new key on a full cache drops exactly the key whose last use is oldest |
| Recency.ValuesAreLastSet | cache/lru_cache.py:39-70 | every cached value is the last one set for its key |
| Recency.AfterUnique | cache/lru_cache.py:50-58 | a cache never holds a key twice nor more than its capacity |
| Recency.Inclusion | cache/lru_cache.py:39-122 | on one trace a smaller cache holds a sub-sequence, in the same order and with the same values, of what a larger one holds |
| LruCaches.LRUCache.Set | cache/lru_cache.py:39-58 | order, values and eviction count after a set; an empty key is refused |
| LruCaches.LRUCache.Get | cache/lru_cache.py:60-70 | the value, and the key moved to the most recent end |
| LruCaches.LRUCache.Delete | cache/lru_cache.py:77-83 | the key is gone, the others keep their order |
| LruCaches.LRUCache.EvictLru | cache/lru_cache.py:112-122 | the first key goes and is counted; an empty cache stays |
| LruCaches.LRUCache.Clear | cache/lru_cache.py:85-88 | nothing is left |
| LruCaches.LRUCache.ListItems | cache/lru_cache.py:95-101 | the pairs, least recent first |
| PlainMaps.SweepErased | server/state_machine.py:311-325 | taking a SWEEP out of a log changes no later result but later sweep counts, and no later read, when all that follows is stamped at or after it |
| PlainMaps.PerformSame | server/state_machine.py:276-309 | a command stamped at or after t gives the same result with and without rows expired at t |
| PlainLaws.SetReads | server/state_machine.py:257-274 | after a set the key reads as its value until, exclusively, it expires, and nothing else changes |
| PlainLaws.DeleteReads | server/state_machine.py:276-290 | after a delete the key reads as nothing at any time; the answer is whether it could be read at the stamp, or at some time |
| PlainLaws.ExpireReads | server/state_machine.py:292-309 | a key that can be read keeps its value until the new time, any other is left alone |
| PlainLaws.PersistReads | server/state_machine.py:292-309 | a key that can be read, but not for ever, is kept for ever, any other is left alone |
| PlainLaws.SweepReads | server/state_machine.py:311-325 | what can be read at the time of the sweep stays at any time, what cannot is gone at any time, and the answer counts it |
| PlainLaws.SignUpOnce | server/state_machine.py:246-255 | the first sign-up makes the user, a second one changes nothing |
| PlainLaws.StrangersDoNothing | server/state_machine.py:220-243 | a user that does not exist can only sign up, and an unknown command does nothing |
| WriteThrough.ApplyRight | server/state_machine.py:220-325 | with the database on every command gives the plain map's answer and the machine still agrees with it |
| WriteThrough.GetRight | server/state_machine.py:127-135 | every read gives the plain map's value; in a store still to be swept one whose clock is behind the SWEEP may see the value from before |
| WriteThrough.RunRight | server/state_machine.py:311-325 | over every interleaving of writes, sweep halves and reads, from every warm state and for every capacity, every result is the plain map's; only a read of a store still to be swept, with its clock behind the SWEEP, may see the value from before it |
| WriteThrough.LookupRight | server/state_machine.py:408-426 | a lookup finds the row and leaves RAM agreeing with the database |
| WriteThrough.LookupWarms | server/state_machine.py:408-426 | what a lookup finds is in RAM afterwards as the most recently used key, with its expiry |
| WriteThrough.SweepRowsRight | server/state_machine.py:311-315 | after the database half every cached key shows its row, or one just removed |
| WriteThrough.SweepStoreRight | server/state_machine.py:316-325 | after the RAM half of a store every cached key shows its row |
| WriteThrough.EmptyKeyRaises | server/state_machine.py:257-274 | a set answers like the plain map if and only if a key is given or the user is unknown |
| RamOnly.RamApplyRight | server/state_machine.py:220-325 | without the database every command gives the plain map's answer as long as no user exceeds the capacity |
| RamOnly.ReplicasAgree | server/state_machine.py:408-413 | two replicas of one log with their own reads and capacities then answer every command and read alike |
| RamOnly.OnlyNewKeysOverflow | cache/lru_cache.py:50-58 | a command leaves what fits if and only if it sets a new key for a user who is at the capacity |
| RamOnly.OverflowDiverges | cache/lru_cache.py:60-70 | at the first such command, a read of the oldest key just before it changes which key goes |
| RamOnly.ReplicasDiverge | cache/lru_cache.py:60-70 | for every capacity of two or more and every log whose last command is the first to exceed it, a local read before that command and a DELETE after it are answered differently by two replicas of one log |
| RamOnly.SingleSlotsAgree | cache/lru_cache.py:50-70 | with a capacity of one, replicas of one log are equal whatever they read and however many keys are set |
| Sessions.ExactlyOnce | server/state_machine.py:196-218 | the data is that of the log keeping only entries whose number exceeds every earlier number of their client, when fewer than the limit of other clients were recorded since a client's last record |
| Sessions.RepeatGetsFirstResult | server/state_machine.py:331-339 | a repeat of a client's newest request gets the first result and changes nothing |
| Sessions.OvertakenGetsNothing | server/state_machine.py:331-339 | a request behind a later one of its client is answered nothing and changes nothing |
| Sessions.TableIsMostRecent | server/state_machine.py:341-351 | for every log the table is exactly the most recently recorded clients, as many as fit, each with its last record |
| Sessions.TableMatchesUnlimited | server/state_machine.py:341-351 | when fewer than the limit of other clients were recorded since a client's last record, it is the same part of what an unlimited table would hold |
| Sessions.TableStaysOrdered | server/state_machine.py:341-351 | for every log the table keeps its limit and the session to evict is unique |
| Sessions.OldestIsUnique | server/state_machine.py:346-351 | which session goes does not depend on the order of the dictionary |
| Sessions.RecordBounded | server/state_machine.py:341-351 | recording with a limit is a set of a bounded cache ordered by record |
| Replays.ReplayChangesNothingIff | raft/node.py:1601-1606 | for every log of identified writes with remembered sessions, applying the entries after the snapshot again to the state that reflects them changes nothing if and only if no stored row is expired at the time of a SWEEP among them |
| Replays.ReplayChangesNothing | raft/node.py:1601-1606 | in particular when everything logged after a SWEEP expires after it |
| Replays.ReplayCanLoseKeys | server/state_machine.py:311-325 | a log of identified writes whose replay removes a key |
| Replays.UnidentifiedWriteRunsAgain | server/state_machine.py:196-218 | a log whose write without a request id runs again and changes the data |
| Replays.EvictedSessionRunsAgain | server/state_machine.py:341-351 | a log of identified writes whose evicted session lets a write run again and change the data |
| StateMachines.EntryMeansPlain | server/state_machine.py:196-218 | a committed entry has the answer, data and session table of the plain map with sessions |
| StateMachines.CacheStateMachine.Apply | server/state_machine.py:196-218 | a repeat of the newest request gets its stored answer, an overtaken one nothing, and neither changes anything; a raising command is not recorded |
| StateMachines.CacheStateMachine.CheckSession | server/state_machine.py:331-339 | no answer for a new request, the stored one for a repeat of the newest, nothing for one overtaken |
| StateMachines.CacheStateMachine.Find | server/state_machine.py:408-426 | the item from RAM or the database, and RAM warmed |
| StateMachines.CacheStateMachine.Get | server/state_machine.py:127-135 | what the plain map holds at the given time; without a time, or with time 0, what it holds now |
| StateMachines.CacheStateMachine.ApplySet | server/state_machine.py:257-274 | row, cache and expiry after a set, and the half-done state when the key is empty |
| StateMachines.CacheStateMachine.ApplyDelete | server/state_machine.py:276-290 | row, cache and expiry after a delete, and whether a live key went |
| StateMachines.CacheStateMachine.ApplyExpiry | server/state_machine.py:292-309 | row and table after a changed expiry, or none for a dead key |
| StateMachines.CacheStateMachine.SweepOne | server/state_machine.py:318-325 | the loop over the expiry table removes exactly the expired keys and counts those that were cached |
| StateMachines.CacheStateMachine.ApplySweep | server/state_machine.py:311-325 | both halves with the count of rows or of cached keys |
| StateMachines.CacheStateMachine.RecordSession | server/state_machine.py:341-354 | the table with one of the oldest sessions gone; the database's table is the same, but keeps a session of the empty id that is gone from RAM |
| StateMachines.TablesDiffer | server/state_machine.py:341-354 | the two tables differ after a record if and only if the table was full, the client was not in it and its oldest session was that of the empty id; the database then has that one more |
| StateMachines.EmptyClientRunsAgain | server/state_machine.py:353-354 | a full table after which a repeat of the empty client's request is new to RAM and known to the database |
| StateMachines.CacheStateMachine.Oldest | server/state_machine.py:346-350 | the session found has the least index, in whatever order the table is walked |
| StateMachines.CacheStateMachine.SnapshotRam | server/state_machine.py:360-377 | the lines are users, then entries in recency order, then sessions |
| StateMachines.CacheStateMachine.SnapshotDb | apps/users/db_service.py:276-295 | the lines are the three tables |
| StateMachines.CacheStateMachine.RestoreRam | server/state_machine.py:379-404 | stores and sessions loaded line by line, or nothing changed |
| StateMachines.CacheStateMachine.RestoreDb | server/state_machine.py:379-384 | tables replaced all or nothing, then RAM warmed from them |
| StateMachines.CacheStateMachine.LoadFromDb | server/state_machine.py:74-106 | one store per user, warmed with the newest rows, and the stored sessions |
| Snapshots.RoundTrip | server/state_machine.py:360-404 | restore after snapshot gives back users, values, recency order, sessions and the expiry of every cached key, in whatever order dictionaries are walked |
| Snapshots.RestoreFailsIff | server/state_machine.py:386-404 | a restore without a database fails if and only if an entry comes before its user or has no key |
| Snapshots.SameApply | server/state_machine.py:257-325 | every command has the same result with and without expiries of keys that are not cached |
| Snapshots.SameGet | server/state_machine.py:127-135 | so has every read |
| Restores.RestoredCarriesOn | server/state_machine.py:360-404 | a node without a database that loads the dump of another, whatever that one has lived through, gets its sessions and gives the same outcome as that one for every sequence of commands and reads |
| Restores.AlwaysRestorable | server/state_machine.py:379-404 | whatever is committed and read, the next dump can be loaded |
| Snapshots.TableRoundTrip | apps/users/db_service.py:276-351 | loading the dump of a database gives the same tables |
| Databases.LoadFailsIff | apps/users/db_service.py:298-351 | a load fails if and only if a user, key or client comes twice or an entry before its user |
| Snapshots.ReloadAgrees | server/state_machine.py:74-106 | after a restart, also in the middle of a SWEEP, warmed with whichever rows, the machine agrees with the same plain map |
| Snapshots.WarmedExactly | server/state_machine.py:88-97 | a store is warmed with exactly the listed rows, in their order, with their expiries |
| Databases.Database.ReplaceFrom | apps/users/db_service.py:298-351 | for every batch size the result is that of loading row by row: the same tables, or a failure that changes nothing |
| Databases.Database.SaveEntry | apps/users/db_service.py:97-119 | an upsert, ignored for an unknown user |
| Databases.Database.SetExpiry | apps/users/db_service.py:164-170 | only an existing row changes |
| Databases.Database.DeleteExpired | apps/users/db_service.py:217-221 | exactly the rows expired at the time go, and are counted |
| LogRuns.LifeFollowsLog | server/state_machine.py:74-218 | over a replica's whole life, with reads at any moment, a SWEEP in its two halves, restarts with replays and snapshots installed, every answer to a new entry is that of the log and every read sees the log applied so far, or, in a store still to be swept with its clock behind the SWEEP, the data from before it |
| LogRuns.ReplicasAnswerAlike | server/state_machine.py:196-218 | two replicas that reflect one log answer a new entry alike, and every equal read that is not behind a SWEEP under way, whatever their caches hold and however they came there |
| LogRuns.CommitAgain | raft/node.py:1601-1606 | an entry applied again after a restart leaves the replica in agreement with the same log |
| LogRuns.InstallFollows | server/state_machine.py:379-384 | a replica that loads the dump of another agrees with that one's log |
| Progress.StepAdvances | raft/node.py:1181-1183 | only an applied entry, an installed snapshot and a crash change how far a node has applied, by how much each does, and terms never fall |
| Services.StaysInStep | raft/node.py:1156-1196 | at every moment of every run every replica follows a committed log and has applied as much of it as its node says |
| Services.ReplicasShareOneLog | raft/node.py:1156-1196 | any two replicas at any two moments agree with one log as far as each has come, across restarts and installed snapshots |
| Services.ProposeIsAnswered | raft/node.py:372-418 | the result that propose returns is the answer of the plain map with sessions to the proposal in the committed log, unless a snapshot was installed at the node meanwhile |
| Services.ReadsSeeAcknowledgedWrites | raft/node.py:1108-1150 | a read behind the barrier, at any node, returns what the plain map holds after some log, and every write acknowledged before the read began is in that log with the result that was returned |

## Left out

- Sockets, TLS, threads, JSON text, base64 and temporary files: messages, snapshot lines and chunks are values (raft/node.py:1257-1313, 1562-1587).
- Clocks, timers, leases and check-quorum: their outcomes are nondeterministic choices; election liveness is not modelled.
- Learners and the catch-up wait of `add_member` (raft/node.py:491-504): they only delay the CONFIG step.
- The choice of a transfer target (raft/node.py:530-568): a transfer is a time-out at any voter.
- The waiting loops of `propose`, `read_index` and `_wait_leader`: the model states what holds at the moments they look; the slots they look into are in `Waiters` and `Nodes`.
- The database engine's errors and retries (raft/node.py:1198-1216): each call is atomic and succeeds.
- Loading a user missing from RAM (server/state_machine.py:428-439): users in RAM are the users in the database.
- The order in which the database lists rows (`updated_at`): a parameter of the loading members.
- `keys`, `ttl`, `next_expiry` and `session_result` of the state machine: easy queries.
- The text protocol, authentication, password hashing, glob matching, the command line client, cluster.json, certificates and scripts.
- The plain dictionary cache, the factory and the `Store` wrapper: a store is a value in the state machine's dictionary, so two users can never share one.
- ReadBarrier.ReadIndexIsCurrent: assumes that the term at the return is the term at the start, because without it the claim is false in every cluster of three nodes or more (`StaleReads`); that every such call is stale is not claimed.
- Services.ProposeIsAnswered: assumes that the proposing node neither crashes nor installs a snapshot while the call waits; a snapshot sent by a node that is itself repeating entries after a restart can already hold the proposal, and the result is then what the session table has for the request.
- Services.ReadsSeeAcknowledgedWrites: the same assumption on the acknowledged write, and that of ReadBarrier.ReadIndexIsCurrent on the barrier; replicas without a database are not part of it.
- Machines.Lookup: a lookup of an empty key whose row exists would raise in the cache; such rows exist only after a SET that raised, which the theorems exclude.
- LruCaches.LRUCache.constructor: the refusal of a capacity below one is its precondition.
- Databases.Database.ReplaceFrom: the transaction is a local copy stored at the end; row ids and time stamps are not modelled.
