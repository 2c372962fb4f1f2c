// One node of the program as a value: the fields of RaftNode and of the engine, and
// every handler as a function from the old fields to the new ones and the reply.
module Nodes {
  import opened Types
  import opened Logs

  const MAX_ENTRIES_PER_RPC: nat := 100

  datatype Role = Follower | Candidate | Leader

  datatype Node = Node(
    id: NodeId,
    // kept in storage
    term: nat,
    votedFor: Option<NodeId>,
    log: seq<Entry>,
    snapIndex: nat,
    snapTerm: nat,
    snapConfig: set<NodeId>,
    // lost in a crash
    role: Role,
    leaderId: Option<NodeId>,
    commitIndex: nat,
    lastApplied: nat,
    nextIndex: map<NodeId, nat>,
    matchIndex: map<NodeId, nat>,
    members: set<NodeId>,
    configIndex: nat,
    termStart: nat,
    sendSeq: nat,
    lastAck: map<NodeId, nat>,
    votes: set<NodeId>,
    generation: nat)

  datatype VoteRequest = VoteRequest(term: nat, candidate: NodeId, lastLogIndex: nat, lastLogTerm: nat, transfer: bool)
  datatype VoteReply = VoteReply(term: nat, granted: bool)
  datatype AppendRequest = AppendRequest(
    term: nat, leader: NodeId, prevIndex: nat, prevTerm: nat, entries: seq<Entry>, leaderCommit: nat)
  datatype AppendReply = AppendReply(term: nat, success: bool, matchIndex: nat, conflictIndex: nat)
  datatype SnapshotRequest = SnapshotRequest(
    term: nat, leader: NodeId, index: nat, lastTerm: nat, config: set<NodeId>, done: bool)
  datatype SnapshotReply = SnapshotReply(term: nat, success: bool)

  function Max(a: nat, b: nat): nat {
    if a >= b then a else b
  }

  function Min(a: nat, b: nat): nat {
    if a <= b then a else b
  }

  function Lookup(m: map<NodeId, nat>, v: NodeId): nat {
    if v in m then m[v] else 0
  }

  // ------------------------------------------------------------ Log queries

  function LastIndex(n: Node): nat {
    n.snapIndex + |n.log|
  }

  function NodeLastTerm(n: Node): nat {
    if n.log != [] then n.log[|n.log| - 1].term else n.snapTerm
  }

  // None outside the log: compacted away, or past its end.
  function NodeTermAt(n: Node, i: nat): Option<nat> {
    if i == n.snapIndex then Some(n.snapTerm)
    else if i < n.snapIndex || i > LastIndex(n) then None
    else Some(n.log[i - n.snapIndex - 1].term)
  }

  function EntryAt(n: Node, i: nat): Option<Entry> {
    if i <= n.snapIndex || i > LastIndex(n) then None else Some(n.log[i - n.snapIndex - 1])
  }

  function EntriesFrom(n: Node, i: nat, limit: nat): seq<Entry>
    requires n.snapIndex < i <= LastIndex(n) + 1
  {
    var start := i - n.snapIndex - 1;
    n.log[start..Min(start + limit, |n.log|)]
  }

  // (index, members) of the newest CONFIG in the log, else those of the snapshot.
  function LatestConfig(n: Node): (nat, set<NodeId>) {
    var j := NewestConfig(n.log);
    if j == 0 then (n.snapIndex, n.snapConfig) else (n.log[j - 1].index, n.log[j - 1].command.members)
  }

  function ConfigUpTo(l: seq<Entry>, i: nat, default: set<NodeId>): set<NodeId> {
    if l == [] then default
    else
      var e := l[|l| - 1];
      if e.index <= i && e.command.Config? then e.command.members else ConfigUpTo(l[..|l| - 1], i, default)
  }

  // The membership in effect at an index, as far as this node can tell.
  function ConfigAt(n: Node, i: nat): set<NodeId> {
    ConfigUpTo(n.log, i, n.snapConfig)
  }

  // ------------------------------------------------------------ Log changes

  function Refresh(n: Node): Node {
    var (index, members) := LatestConfig(n);
    n.(members := members, configIndex := index)
  }

  function AppendLocal(n: Node, entries: seq<Entry>): Node {
    var m := n.(log := n.log + entries);
    if exists e :: e in entries && e.command.Config? then Refresh(m) else m
  }

  function TruncateLocal(n: Node, i: nat): Node
    requires n.snapIndex < i <= LastIndex(n) + 1
  {
    Refresh(n.(log := n.log[..i - n.snapIndex - 1]))
  }

  // Folds the entries up to index i into the snapshot; a log that disagrees goes away.
  function CompactThrough(n: Node, i: nat, t: nat, config: set<NodeId>): Node
    requires i >= n.snapIndex
  {
    n.(log := if NodeTermAt(n, i) == Some(t) then n.log[i - n.snapIndex..] else [],
       snapIndex := i, snapTerm := t, snapConfig := config)
  }

  // ------------------------------------------------------------ Roles

  function BecomeFollower(n: Node, t: nat): Node {
    var m := if t > n.term then n.(term := t, votedFor := None, leaderId := None) else n;
    var m := if n.role.Leader? then m.(leaderId := None) else m;
    m.(role := Follower, generation := n.generation + 1)
  }

  function AcceptLeader(n: Node, t: nat, leader: NodeId): Node {
    var m := if t > n.term || !n.role.Follower? then BecomeFollower(n, t) else n.(generation := n.generation + 1);
    m.(leaderId := Some(leader))
  }

  function Majority(n: Node): nat {
    |n.members| / 2 + 1
  }

  function StartCampaign(n: Node): Node {
    n.(term := n.term + 1, role := Candidate, votedFor := Some(n.id), leaderId := None,
       votes := {n.id}, generation := n.generation + 1)
  }

  predicate Elected(n: Node) {
    |n.votes * n.members| >= Majority(n)
  }

  function TakeOffice(n: Node): Node {
    var next := LastIndex(n) + 1;
    var peers := n.members - {n.id};
    var m := n.(role := Leader, leaderId := Some(n.id), generation := n.generation + 1,
                nextIndex := map p | p in peers :: next, matchIndex := map p | p in peers :: 0,
                lastAck := map[], termStart := next);
    AppendLocal(m, [Entry(n.term, next, Noop, "", None)])
  }

  function BecomeLeader(n: Node): Node {
    AdvanceCommit(TakeOffice(n))
  }

  function BecomeCandidate(n: Node): Node {
    var m := StartCampaign(n);
    if Elected(m) then BecomeLeader(m) else m
  }

  function CampaignRequest(n: Node, transfer: bool): VoteRequest {
    VoteRequest(n.term, n.id, LastIndex(n), NodeLastTerm(n), transfer)
  }

  // ------------------------------------------------------------ Commit

  // The members known to hold the entry at index i.
  function Replicas(n: Node, i: nat): set<NodeId> {
    set m | m in n.members && (m == n.id || Lookup(n.matchIndex, m) >= i)
  }

  // Scans down from i for the highest index of the current term on a majority.
  function CommitScan(n: Node, i: nat): (c: nat)
    requires i <= LastIndex(n)
    ensures c >= n.commitIndex
    ensures c <= Max(i, n.commitIndex)
  {
    if i <= n.commitIndex || NodeTermAt(n, i) != Some(n.term) then n.commitIndex
    else if |Replicas(n, i)| >= Majority(n) then i
    else CommitScan(n, i - 1)
  }

  function AdvanceCommit(n: Node): Node {
    if n.role.Leader? then n.(commitIndex := CommitScan(n, LastIndex(n))) else n
  }

  // ------------------------------------------------------------ Votes

  predicate LogOk(n: Node, req: VoteRequest) {
    || req.lastLogTerm > NodeLastTerm(n)
    || (req.lastLogTerm == NodeLastTerm(n) && req.lastLogIndex >= LastIndex(n))
  }

  // inLease: whether a live leader was heard from, decided by clocks.
  function HandleVoteRequest(n: Node, req: VoteRequest, inLease: bool): (Node, VoteReply) {
    if req.term > n.term && !req.transfer && inLease then (n, VoteReply(n.term, false))
    else
      var m := if req.term > n.term then BecomeFollower(n, req.term) else n;
      if req.term < m.term then (m, VoteReply(m.term, false))
      else if m.votedFor.Some? && m.votedFor.value != req.candidate then (m, VoteReply(m.term, false))
      else if !LogOk(m, req) then (m, VoteReply(m.term, false))
      else (m.(votedFor := Some(req.candidate), generation := m.generation + 1), VoteReply(m.term, true))
  }

  // The answer to a pre-vote changes nothing.
  function HandlePreVote(n: Node, req: VoteRequest, inLease: bool): VoteReply {
    VoteReply(n.term, req.term > n.term && !inLease && LogOk(n, req))
  }

  function HandleVoteReply(n: Node, from: NodeId, req: VoteRequest, reply: VoteReply): Node {
    if reply.term > n.term then BecomeFollower(n, reply.term)
    else if !n.role.Candidate? || n.term != req.term || !reply.granted then n
    else
      var m := n.(votes := n.votes + {from});
      if Elected(m) then BecomeLeader(m) else m
  }

  function HandleTimeoutNow(n: Node, t: nat): Node {
    if t >= n.term && n.id in n.members && !n.role.Leader? then BecomeCandidate(n) else n
  }

  // ------------------------------------------------------------ AppendEntries

  // First index of the run of equal terms that ends at i, above the snapshot.
  function FirstOfTerm(n: Node, i: nat): (f: nat)
    ensures f <= i
    ensures i > n.snapIndex ==> f > n.snapIndex
    decreases i
  {
    if i > 0 && i - 1 > n.snapIndex && NodeTermAt(n, i - 1) == NodeTermAt(n, i) then FirstOfTerm(n, i - 1) else i
  }

  // How many of the entries the node already has.
  function Known(n: Node, entries: seq<Entry>): (k: nat)
    ensures k <= |entries|
  {
    if entries == [] || NodeTermAt(n, entries[0].index) != Some(entries[0].term) then 0
    else 1 + Known(n, entries[1..])
  }

  // Entries and position of a request with the part inside the snapshot skipped.
  function Trimmed(n: Node, req: AppendRequest): (nat, nat, seq<Entry>) {
    if req.prevIndex < n.snapIndex then
      (n.snapIndex, n.snapTerm, req.entries[Min(n.snapIndex - req.prevIndex, |req.entries|)..])
    else (req.prevIndex, req.prevTerm, req.entries)
  }

  // Cuts a conflicting tail and appends what is new.
  function Merge(n: Node, entries: seq<Entry>): Node {
    var k := Known(n, entries);
    if k == |entries| then n
    else
      var e := entries[k];
      var m := if NodeTermAt(n, e.index).Some? && e.index > n.snapIndex then TruncateLocal(n, e.index) else n;
      AppendLocal(m, entries[k..])
  }

  function HandleAppend(n: Node, req: AppendRequest): (Node, AppendReply) {
    if req.term < n.term then (n, AppendReply(n.term, false, 0, 0))
    else
      var m := AcceptLeader(n, req.term, req.leader);
      var (prev, prevTerm, entries) := Trimmed(m, req);
      if prev > LastIndex(m) then (m, AppendReply(m.term, false, 0, LastIndex(m) + 1))
      else if NodeTermAt(m, prev) != Some(prevTerm) then (m, AppendReply(m.term, false, 0, FirstOfTerm(m, prev)))
      else
        var r := Merge(m, entries);
        var lastNew := prev + |entries|;
        var c := if req.leaderCommit > r.commitIndex then Max(r.commitIndex, Min(req.leaderCommit, lastNew)) else r.commitIndex;
        (r.(commitIndex := c), AppendReply(m.term, true, lastNew, 0))
  }

  // What the replicator of a peer sends next; None means a snapshot is due.
  function AppendRequestFor(n: Node, to: NodeId): Option<AppendRequest>
    requires to in n.nextIndex && 1 <= n.nextIndex[to] <= LastIndex(n) + 1
  {
    var next := n.nextIndex[to];
    if next <= n.snapIndex then None
    else
      Some(AppendRequest(n.term, n.id, next - 1, NodeTermAt(n, next - 1).value,
                         EntriesFrom(n, next, MAX_ENTRIES_PER_RPC), n.commitIndex))
  }

  function NoteContact(n: Node, from: NodeId, number: nat): Node {
    n.(lastAck := n.lastAck[from := Max(Lookup(n.lastAck, from), number)])
  }

  function NoteMatch(n: Node, from: NodeId, match': nat): Node {
    var k := Max(Lookup(n.matchIndex, from), match');
    AdvanceCommit(n.(matchIndex := n.matchIndex[from := k], nextIndex := n.nextIndex[from := k + 1]))
  }

  // Where to retry after a mismatch at prevIndex.
  function BackOff(req: AppendRequest, reply: AppendReply): (next: nat)
    ensures next >= 1
  {
    var hint := if reply.conflictIndex != 0 then reply.conflictIndex else req.prevIndex;
    Max(1, Min(hint, req.prevIndex))
  }

  function HandleAppendReply(n: Node, from: NodeId, number: nat, req: AppendRequest, reply: AppendReply): Node {
    if reply.term > n.term then BecomeFollower(n, reply.term)
    else if !n.role.Leader? || n.term != req.term then n
    else
      var m := NoteContact(n, from, number);
      if reply.success then NoteMatch(m, from, Max(req.prevIndex + |req.entries|, reply.matchIndex))
      else m.(nextIndex := m.nextIndex[from := BackOff(req, reply)])
  }

  // ------------------------------------------------------------ Snapshots

  function SnapshotRequestFor(n: Node, done: bool): SnapshotRequest
    requires n.snapIndex <= n.lastApplied <= LastIndex(n)
  {
    SnapshotRequest(n.term, n.id, n.lastApplied, NodeTermAt(n, n.lastApplied).value, ConfigAt(n, n.lastApplied), done)
  }

  // The fate of one chunk: an answer at once, or a complete file to install.
  datatype ChunkResult = Answer(reply: SnapshotReply) | FileComplete

  // inOrder: whether the chunk continues the file received so far.
  function HandleChunk(n: Node, req: SnapshotRequest, inOrder: bool): (Node, ChunkResult) {
    if req.term < n.term then (n, Answer(SnapshotReply(n.term, false)))
    else
      var m := AcceptLeader(n, req.term, req.leader);
      if req.index <= m.lastApplied then (m, Answer(SnapshotReply(m.term, true)))
      else if !inOrder then (m, Answer(SnapshotReply(m.term, false)))
      else if !req.done then (m, Answer(SnapshotReply(m.term, true)))
      else (m, FileComplete)
  }

  // Runs later, when the state machine is free; the term may have moved meanwhile.
  function InstallSnapshot(n: Node, req: SnapshotRequest): (Node, SnapshotReply)
    requires n.snapIndex <= n.lastApplied
  {
    if req.index <= n.lastApplied then (n, SnapshotReply(n.term, true))
    else
      var m := CompactThrough(n, req.index, req.lastTerm, req.config);
      var m := Refresh(m.(commitIndex := Max(n.commitIndex, req.index), lastApplied := Max(n.lastApplied, req.index)));
      (m, SnapshotReply(n.term, true))
  }

  function HandleSnapshotReply(n: Node, from: NodeId, number: nat, req: SnapshotRequest, reply: SnapshotReply): Node {
    if reply.term > n.term then BecomeFollower(n, reply.term)
    else if !n.role.Leader? || n.term != req.term then n
    else
      var m := NoteContact(n, from, number);
      if reply.success && req.done then NoteMatch(m, from, req.index) else m
  }

  // ------------------------------------------------------------ Local transitions

  function Propose(n: Node, c: Command, username: string, request: Option<RequestId>): Node {
    AdvanceCommit(AppendLocal(n, [Entry(n.term, LastIndex(n) + 1, c, username, request)]))
  }

  // No membership change while our no-op or the newest CONFIG is uncommitted.
  predicate ConfigIdle(n: Node) {
    n.commitIndex >= Max(n.termStart, n.configIndex)
  }

  function MaybeSnapshot(n: Node, threshold: nat): Node
    requires n.snapIndex <= n.lastApplied <= LastIndex(n)
  {
    if threshold == 0 || n.lastApplied - n.snapIndex < threshold then n
    else CompactThrough(n, n.lastApplied, NodeTermAt(n, n.lastApplied).value, ConfigAt(n, n.lastApplied))
  }

  // After entry e at lastApplied + 1 went through the state machine.
  function Applied(n: Node, e: Entry): Node {
    var m := n.(lastApplied := n.lastApplied + 1);
    if e.command.Config? && m.role.Leader? && m.id !in m.members && m.lastApplied >= m.configIndex
    then BecomeFollower(m, m.term) else m
  }

  // A new engine on the same storage, which recorded `applied` with the last snapshot.
  function Restart(n: Node, applied: nat): Node {
    var done := Max(applied, n.snapIndex);
    Refresh(n.(role := Follower, leaderId := None, commitIndex := done, lastApplied := done,
               nextIndex := map[], matchIndex := map[], termStart := 0, sendSeq := 0, lastAck := map[],
               votes := {}, generation := 0))
  }
}
