// The invariant of the step system: some world and history explain every node, every
// packet in the network and every waiting snapshot file. Each step keeps it.
module ClusterInvariant {
  import opened Types
  import opened Logs
  import opened Quorums
  import opened Histories
  import opened HistoryGrowth
  import opened Worlds
  import opened WorldSteps
  import opened Nodes
  import opened Compaction
  import opened Tracking
  import opened Leading
  import opened Following
  import C = Clusters

  ghost predicate VoteAnswerGood(h: History, from: NodeId, req: VoteRequest, reply: VoteReply) {
    reply.granted ==> Slot(req.term, from) in h.votes && h.votes[Slot(req.term, from)].candidate == req.candidate
  }

  ghost predicate AppendAnswerGood(h: History, from: NodeId, req: AppendRequest, reply: AppendReply) {
    && reply.term >= req.term
    && (reply.success ==>
          && reply.term == req.term
          && reply.matchIndex >= req.prevIndex + |req.entries|
          && AckedUpTo(h, req.term, from, reply.matchIndex))
  }

  ghost predicate SnapshotAnswerGood(h: History, from: NodeId, req: SnapshotRequest, reply: SnapshotReply) {
    && reply.term >= req.term
    && (reply.success && req.done && reply.term == req.term ==> AckedUpTo(h, req.term, from, req.index))
  }

  ghost predicate PacketGood(h: History, p: C.Packet) {
    match p
    case VoteAsk(_, req) => VoteAskGood(h, req)
    case VoteAnswer(from, req, reply) => VoteAskGood(h, req) && VoteAnswerGood(h, from, req, reply)
    case AppendAsk(_, _, req) => AppendAskGood(h, req)
    case AppendAnswer(from, _, req, reply) => AppendAskGood(h, req) && AppendAnswerGood(h, from, req, reply)
    case SnapshotAsk(_, _, req) => SnapshotAskGood(h, req)
    case SnapshotAnswer(from, _, req, reply) => SnapshotAskGood(h, req) && SnapshotAnswerGood(h, from, req, reply)
  }

  // The snapshot was accepted from a leader of the node's term, or of an earlier one.
  ghost predicate TaskGood(h: History, nodes: map<NodeId, Node>, task: C.Task) {
    && SnapshotAskGood(h, task.request)
    && task.node in nodes
    && task.request.term <= nodes[task.node].term
    && (!nodes[task.node].role.Follower? ==> task.request.term < nodes[task.node].term)
  }

  ghost predicate NodesTracked(w: World, nodes: map<NodeId, Node>) {
    && nodes.Keys == w.replicas.Keys
    && forall v :: v in nodes ==> nodes[v].id == v && Tracks(w, nodes[v])
  }

  ghost predicate Inv(c: C.Cluster, w: World) {
    && Good(w)
    && NodesTracked(w, c.nodes)
    && (forall p :: p in c.net ==> PacketGood(w.history, p))
    && (forall t :: t in c.tasks ==> TaskGood(w.history, c.nodes, t))
  }

  // ------------------------------------------------------------ Packets only gain truth

  lemma AppendAskGrows(h: History, k: History, req: AppendRequest)
    requires Grows(h, k) && AppendAskGood(h, req)
    ensures AppendAskGood(k, req)
  {
    hide CommittedBy;
    var m, m' := h.logs[req.term], k.logs[req.term];
    assert m'[..req.leaderCommit] == m[..req.leaderCommit];
    CommittedGrows(h, k, m[..req.leaderCommit], req.term, req.term);
    assert m'[req.prevIndex..req.prevIndex + |req.entries|] == m[req.prevIndex..req.prevIndex + |req.entries|];
  }

  lemma SnapshotAskGrows(h: History, k: History, req: SnapshotRequest)
    requires Grows(h, k) && SnapshotAskGood(h, req)
    ensures SnapshotAskGood(k, req)
  {
    hide CommittedBy, Membership, NewestConfig;
    var m, m' := h.logs[req.term], k.logs[req.term];
    assert m'[..req.index] == m[..req.index];
    CommittedGrows(h, k, m[..req.index], req.term, req.term);
  }

  lemma PacketGrows(h: History, k: History, p: C.Packet)
    requires Grows(h, k) && PacketGood(h, p)
    ensures PacketGood(k, p)
  {
    hide AppendAskGood, SnapshotAskGood;
    match p
    case VoteAsk(_, req) =>
    case VoteAnswer(from, req, reply) =>
    case AppendAsk(_, _, req) => AppendAskGrows(h, k, req);
    case AppendAnswer(from, _, req, reply) => AppendAskGrows(h, k, req);
    case SnapshotAsk(_, _, req) => SnapshotAskGrows(h, k, req);
    case SnapshotAnswer(from, _, req, reply) => SnapshotAskGrows(h, k, req);
  }

  // A node leaves the follower role only into a later term.
  ghost predicate RoleRule(n: Node, m: Node) {
    && m.id == n.id && m.term >= n.term
    && (!m.role.Follower? ==> (!n.role.Follower? && m.term == n.term) || m.term > n.term)
  }

  // One node moved, the network and the waiting files changed: what is left to show.
  lemma NodeMoved(c: C.Cluster, w: World, x: World, v: NodeId, m: Node, net: set<C.Packet>, tasks: set<C.Task>)
    requires Inv(c, w) && v in c.nodes
    requires Good(x) && Moves(w, x, v) && Tracks(x, m) && RoleRule(c.nodes[v], m)
    requires forall p :: p in net && p !in c.net ==> PacketGood(x.history, p)
    requires forall t :: t in tasks && t !in c.tasks ==> TaskGood(x.history, c.nodes[v := m], t)
    ensures Inv(C.Cluster(c.nodes[v := m], net, tasks), x)
  {
    hide Good, Tracks, PacketGood, SnapshotAskGood;
    var nodes := c.nodes[v := m];
    forall u | u in nodes
      ensures nodes[u].id == u && Tracks(x, nodes[u])
    {
      if u != v {
        OthersTrack(w, x, v, c.nodes[u]);
      }
    }
    forall p | p in net && p in c.net
      ensures PacketGood(x.history, p)
    {
      PacketGrows(w.history, x.history, p);
    }
    forall t | t in tasks && t in c.tasks
      ensures TaskGood(x.history, nodes, t)
    {
      SnapshotAskGrows(w.history, x.history, t.request);
    }
  }

  // ------------------------------------------------------------ Elections

  lemma CampaignKeepsInv(c: C.Cluster, w: World, v: NodeId, transfer: bool) returns (x: World)
    requires Inv(c, w) && v in c.nodes
    ensures Inv(C.Campaign(c, v, transfer), x) && Moves(w, x, v)
  {
    hide Good, Represents, Elected, BecomeLeader, PacketGood, CommitTracked, LeadTracked;
    var n := c.nodes[v];
    x := BecomeCandidateTracks(w, n);
    var req := CampaignRequest(StartCampaign(n), transfer);
    BecomeCandidateRole(n);
    RepresentsStores(w.history.base, n, w.replicas[v].log);
    Queries(w.history.base, n, w.replicas[v].log);
    forall p | p in C.CampaignPackets(n, transfer)
      ensures PacketGood(x.history, p)
    {
      VoteAskIsGood(x.history, p);
    }
    NodeMoved(c, w, x, v, BecomeCandidate(n), c.net + C.CampaignPackets(n, transfer), c.tasks);
  }

  lemma VoteAskIsGood(h: History, p: C.Packet)
    requires p.VoteAsk? && VoteAskGood(h, p.vote)
    ensures PacketGood(h, p)
  {
  }

  lemma BecomeLeaderRole(n: Node)
    ensures BecomeLeader(n).id == n.id && BecomeLeader(n).term == n.term
  {
    hide CommitScan;
  }

  lemma BecomeCandidateRole(n: Node)
    ensures BecomeCandidate(n).id == n.id && BecomeCandidate(n).term == n.term + 1
  {
    BecomeLeaderRole(StartCampaign(n));
  }

  lemma VoteAskKeepsInv(c: C.Cluster, w: World, p: C.Packet, inLease: bool) returns (x: World)
    requires Inv(c, w) && C.Enabled(c, C.ReceiveVoteAsk(p, inLease))
    ensures Inv(C.Do(c, C.ReceiveVoteAsk(p, inLease)), x) && Moves(w, x, p.to)
  {
    hide Good, Represents, CommitTracked, LeadTracked, UpToDate, VoteAnswerGood;
    var n := c.nodes[p.to];
    var req := p.vote;
    var (m, reply) := HandleVoteRequest(n, req, inLease);
    assert PacketGood(w.history, p);
    x := HandleVoteTracks(w, n, req, inLease);
    HandleVoteRole(n, req, inLease);
    assert VoteAskGood(x.history, req);
    NodeMoved(c, w, x, p.to, m, c.net + {C.VoteAnswer(p.to, req, reply)}, c.tasks);
  }

  lemma HandleVoteRole(n: Node, req: VoteRequest, inLease: bool)
    ensures RoleRule(n, HandleVoteRequest(n, req, inLease).0)
  {
  }

  lemma HandleVoteTracks(w: World, n: Node, req: VoteRequest, inLease: bool) returns (x: World)
    requires Good(w) && Tracks(w, n) && VoteAskGood(w.history, req)
    ensures Good(x) && Moves(w, x, n.id) && Tracks(x, HandleVoteRequest(n, req, inLease).0)
    ensures VoteAnswerGood(x.history, n.id, req, HandleVoteRequest(n, req, inLease).1)
  {
    hide Good, Represents, CommitTracked, CampaignTracked, LeadTracked, LogOk, UpToDate;
    x := w;
    MovesSelf(w, n.id);
    if !(req.term > n.term && !req.transfer && inLease) {
      var m := n;
      if req.term > n.term {
        m := BecomeFollower(n, req.term);
        x := FollowerTracks(w, n, req.term);
      }
      if req.term == m.term && (m.votedFor == None || m.votedFor == Some(req.candidate)) && LogOk(m, req) {
        LogOkIsUpToDate(x, m, req);
        var y := VoteTracks(x, m, req.candidate);
        MovesTransitive(w, x, y, n.id);
        x := y;
      }
    }
  }

  lemma LogOkIsUpToDate(w: World, n: Node, req: VoteRequest)
    requires Good(w) && Tracks(w, n) && VoteAskGood(w.history, req) && LogOk(n, req)
    ensures UpToDate(w.history.campaigns[Slot(req.term, req.candidate)], w.replicas[n.id].log)
  {
    hide Good, Represents;
    RepresentsStores(w.history.base, n, w.replicas[n.id].log);
    Queries(w.history.base, n, w.replicas[n.id].log);
  }

  lemma HandleVoteReplyTracks(w: World, n: Node, from: NodeId, req: VoteRequest, reply: VoteReply) returns (x: World)
    requires Good(w) && Tracks(w, n) && req.candidate == n.id
    requires VoteAnswerGood(w.history, from, req, reply)
    ensures Good(x) && Moves(w, x, n.id) && Tracks(x, HandleVoteReply(n, from, req, reply))
    ensures RoleRule(n, HandleVoteReply(n, from, req, reply))
  {
    hide Good, Represents, CommitTracked, LeadTracked, Elected, BecomeLeader;
    x := w;
    MovesSelf(w, n.id);
    if reply.term > n.term {
      x := FollowerTracks(w, n, reply.term);
    } else if n.role.Candidate? && n.term == req.term && reply.granted {
      var m := n.(votes := n.votes + {from});
      SameRepresents(w.history.base, n, m, w.replicas[n.id].log);
      SameCommit(w.history, n, m, w.replicas[n.id].log);
      assert Tracks(w, m);
      BecomeLeaderRole(m);
      if Elected(m) {
        x := BecomeLeaderTracks(w, m);
      }
    }
  }

  lemma SameCommit(h: History, n: Node, m: Node, l: Log)
    requires CommitTracked(h, n, l)
    requires m.snapIndex == n.snapIndex && m.lastApplied == n.lastApplied && m.commitIndex == n.commitIndex && m.term == n.term
    ensures CommitTracked(h, m, l)
  {
  }

  lemma VoteAnswerKeepsInv(c: C.Cluster, w: World, p: C.Packet) returns (x: World)
    requires Inv(c, w) && C.Enabled(c, C.ReceiveVoteAnswer(p))
    ensures Inv(C.Do(c, C.ReceiveVoteAnswer(p)), x) && Moves(w, x, C.Receiver(p))
  {
    hide Good, Tracks, HandleVoteReply, VoteAnswerGood, VoteAskGood;
    var v := C.Receiver(p);
    var n := c.nodes[v];
    assert PacketGood(w.history, p);
    assert Tracks(w, n) && n.id == v;
    x := HandleVoteReplyTracks(w, n, p.from, p.vote, p.voteReply);
    NodeMoved(c, w, x, v, HandleVoteReply(n, p.from, p.vote, p.voteReply), c.net, c.tasks);
  }

  // ------------------------------------------------------------ Leader steps

  lemma ProposeKeepsInv(c: C.Cluster, w: World, v: NodeId, command: Command, username: string, request: Option<RequestId>) returns (x: World)
    requires Inv(c, w) && v in c.nodes && c.nodes[v].role.Leader?
    requires v in w.replicas
    requires command.Config? ==> ConfigIdle(c.nodes[v]) && OneChange(TrueMembers(w, v), command.members)
    ensures Inv(c.(nodes := c.nodes[v := Propose(c.nodes[v], command, username, request)]), x) && Moves(w, x, v)
  {
    hide Good, Tracks, PacketGood, ConfigIdle, OneChange;
    var n := c.nodes[v];
    x := ProposeTracks(w, n, command, username, request);
    ProposeRole(n, command, username, request);
    NodeMoved(c, w, x, v, Propose(n, command, username, request), c.net, c.tasks);
  }

  lemma ProposeRole(n: Node, command: Command, username: string, request: Option<RequestId>)
    ensures RoleRule(n, Propose(n, command, username, request))
  {
    hide CommitScan;
  }

  lemma AddIsOneChange(c: set<NodeId>, u: NodeId)
    requires u !in c
    ensures OneChange(c, c + {u})
  {
  }

  lemma RemoveIsOneChange(c: set<NodeId>, u: NodeId)
    requires u in c
    ensures OneChange(c, c - {u})
  {
  }

  // A leader's bookkeeping about its peers may change within what the history backs.
  ghost predicate PeersBacked(h: History, n: Node, l: Log) {
    && (forall u :: u in n.matchIndex ==> AckedUpTo(h, n.term, u, n.matchIndex[u]))
    && (forall u :: u in n.nextIndex ==> 1 <= n.nextIndex[u] <= |l| + 1)
  }

  lemma BookkeepingTracks(w: World, n: Node, m: Node)
    requires Tracks(w, n)
    requires m == n.(nextIndex := m.nextIndex, matchIndex := m.matchIndex, lastAck := m.lastAck, sendSeq := m.sendSeq)
    requires n.role.Leader? ==> PeersBacked(w.history, m, w.replicas[n.id].log)
    ensures Tracks(w, m)
  {
    hide Represents;
    var l := w.replicas[n.id].log;
    SameRepresents(w.history.base, n, m, l);
    SameCommit(w.history, n, m, l);
    if n.role.Leader? {
      BookkeepingLeads(w.history, n, m, l);
    }
  }

  lemma BookkeepingLeads(h: History, n: Node, m: Node, l: Log)
    requires LeadTracked(h, n, l) && PeersBacked(h, m, l)
    requires m == n.(nextIndex := m.nextIndex, matchIndex := m.matchIndex, lastAck := m.lastAck, sendSeq := m.sendSeq)
    ensures LeadTracked(h, m, l)
  {
    hide AckedUpTo;
  }

  lemma PeersBackedOf(h: History, n: Node, l: Log)
    requires LeadTracked(h, n, l)
    ensures PeersBacked(h, n, l)
  {
    hide AckedUpTo;
  }

  lemma LengthKnown(w: World, n: Node)
    requires Tracks(w, n)
    ensures LastIndex(n) == |w.replicas[n.id].log|
  {
    hide Represents, Stores;
    RepresentsStores(w.history.base, n, w.replicas[n.id].log);
    Queries(w.history.base, n, w.replicas[n.id].log);
  }

  lemma StartReplicatorKeepsInv(c: C.Cluster, w: World, v: NodeId, u: NodeId)
    requires Inv(c, w) && C.Enabled(c, C.StartReplicator(v, u))
    ensures Inv(C.Do(c, C.StartReplicator(v, u)), w)
  {
    hide Inv, Good, Represents, CommitTracked, LeadTracked;
    var n := c.nodes[v];
    NodePromises(c, w, v);
    var m := n.(nextIndex := n.nextIndex[u := LastIndex(n) + 1], matchIndex := n.matchIndex[u := 0]);
    LengthKnown(w, n);
    PeersBackedOf(w.history, n, w.replicas[v].log);
    assert PeersBacked(w.history, m, w.replicas[v].log);
    hide Tracks, PeersBacked;
    BookkeepingTracks(w, n, m);
    MovesSelf(w, v);
    NodeMoved(c, w, w, v, m, c.net, c.tasks);
  }

  // ------------------------------------------------------------ Replication

  lemma EntriesRequestGood(w: World, n: Node, u: NodeId)
    requires Good(w) && Tracks(w, n) && n.role.Leader?
    requires u in n.nextIndex && n.snapIndex < n.nextIndex[u] <= LastIndex(n) + 1
    ensures AppendRequestFor(n, u).Some? && AppendAskGood(w.history, AppendRequestFor(n, u).value)
  {
    hide Good, Represents, CommittedBy, EntriesFrom;
    var h, l := w.history, w.replicas[n.id].log;
    RepresentsStores(h.base, n, l);
    Queries(h.base, n, l);
    BatchIsSlice(h.base, n, l, n.nextIndex[u]);
    LeaderHasItsLog(w, n);
  }

  lemma SendEntriesKeepsInv(c: C.Cluster, w: World, v: NodeId, u: NodeId)
    requires Inv(c, w) && C.Enabled(c, C.SendEntries(v, u))
    ensures Inv(C.Do(c, C.SendEntries(v, u)), w)
  {
    hide Inv, Good, Represents, CommitTracked, LeadTracked, AppendRequestFor, AppendAskGood;
    var n := c.nodes[v];
    NodePromises(c, w, v);
    EntriesRequestGood(w, n, u);
    var m := n.(sendSeq := n.sendSeq + 1);
    PeersBackedOf(w.history, n, w.replicas[v].log);
    assert PeersBacked(w.history, m, w.replicas[v].log);
    hide Tracks, PeersBacked;
    BookkeepingTracks(w, n, m);
    MovesSelf(w, v);
    NodeMoved(c, w, w, v, m, c.net + {C.AppendAsk(u, m.sendSeq, AppendRequestFor(n, u).value)}, c.tasks);
  }

  // The packet at hand keeps its promises.
  lemma PacketPromises(c: C.Cluster, w: World, p: C.Packet)
    requires Inv(c, w) && p in c.net
    ensures PacketGood(w.history, p)
  {
    hide Good, PacketGood, NodesTracked, TaskGood;
  }

  lemma NodePromises(c: C.Cluster, w: World, v: NodeId)
    requires Inv(c, w) && v in c.nodes
    ensures Good(w) && Tracks(w, c.nodes[v]) && c.nodes[v].id == v
  {
    hide Good, PacketGood, Tracks, TaskGood;
  }

  lemma AppendKeepsInv(c: C.Cluster, w: World, p: C.Packet) returns (x: World)
    requires p in c.net && p.AppendAsk? && p.to in c.nodes && Inv(c, w)
    ensures Inv(AfterAppend(c, p), x) && Moves(w, x, p.to)
  {
    hide Inv, Good, Tracks, HandleAppend, AppendAskGood, AckedUpTo, RoleRule, Moves;
    var n := c.nodes[p.to];
    PacketPromises(c, w, p);
    NodePromises(c, w, p.to);
    x := HandleAppendTracks(w, n, p.append);
    HandleAppendRole(n, p.append);
    MovesGrows(w, x, p.to);
    AppendAskGrows(w.history, x.history, p.append);
    var (m, reply) := HandleAppend(n, p.append);
    NodeMoved(c, w, x, p.to, m, c.net + {C.AppendAnswer(p.to, p.number, p.append, reply)}, c.tasks);
  }

  lemma MovesGrows(w: World, x: World, v: NodeId)
    requires Moves(w, x, v)
    ensures Grows(w.history, x.history)
  {
  }

  function AfterAppend(c: C.Cluster, p: C.Packet): C.Cluster
    requires p.AppendAsk? && p.to in c.nodes
  {
    var (m, reply) := HandleAppend(c.nodes[p.to], p.append);
    C.Cluster(c.nodes[p.to := m], c.net + {C.AppendAnswer(p.to, p.number, p.append, reply)}, c.tasks)
  }

  function AfterChunk(c: C.Cluster, p: C.Packet, inOrder: bool): C.Cluster
    requires p.SnapshotAsk? && p.to in c.nodes
  {
    var (m, result) := HandleChunk(c.nodes[p.to], p.snapshot, inOrder);
    if result.Answer?
    then C.Cluster(c.nodes[p.to := m], c.net + {C.SnapshotAnswer(p.to, p.number, p.snapshot, result.reply)}, c.tasks)
    else C.Cluster(c.nodes[p.to := m], c.net, c.tasks + {C.Task(p.to, p.number, p.snapshot)})
  }

  lemma DoReceiveAppend(c: C.Cluster, p: C.Packet)
    requires C.Enabled(c, C.ReceiveAppend(p))
    ensures p in c.net && p.AppendAsk? && p.to in c.nodes
    ensures
      C.Do(c, C.ReceiveAppend(p)) == AfterAppend(c, p)
  {
    hide HandleAppend;
  }

  lemma DoReceiveChunk(c: C.Cluster, p: C.Packet, inOrder: bool)
    requires C.Enabled(c, C.ReceiveChunk(p, inOrder))
    ensures p in c.net && p.SnapshotAsk? && p.to in c.nodes
    ensures
      C.Do(c, C.ReceiveChunk(p, inOrder)) == AfterChunk(c, p, inOrder)
  {
    hide HandleChunk;
  }

  lemma HandleAppendRole(n: Node, req: AppendRequest)
    ensures RoleRule(n, HandleAppend(n, req).0)
  {
    hide Merge, NodeTermAt, FirstOfTerm, AcceptLeader;
    if req.term >= n.term {
      var m := AcceptLeader(n, req.term, req.leader);
      AcceptShape(n, req.term, req.leader);
      AcceptKeepsId(n, req.term, req.leader);
      MergeShape(m, Trimmed(m, req).2);
    }
  }

  lemma MatchIsBacked(h: History, n: Node, from: NodeId, k: nat)
    requires h.wins.Keys == h.logs.Keys && AcksGood(h) && n.term in h.logs
    requires AckedUpTo(h, n.term, from, k)
    requires forall u :: u in n.matchIndex ==> AckedUpTo(h, n.term, u, n.matchIndex[u])
    ensures AckedUpTo(h, n.term, from, Max(Lookup(n.matchIndex, from), k))
    ensures Max(Lookup(n.matchIndex, from), k) <= |h.logs[n.term]|
  {
    var i := Max(Lookup(n.matchIndex, from), k);
    assert i > 0 ==> Ack(n.term, from, i) in h.acks;
  }

  lemma NoteMatchTracks(w: World, n: Node, from: NodeId, k: nat) returns (x: World)
    requires Good(w) && Tracks(w, n) && n.role.Leader?
    requires AckedUpTo(w.history, n.term, from, k)
    ensures Good(x) && Moves(w, x, n.id) && Tracks(x, NoteMatch(n, from, k))
    ensures RoleRule(n, NoteMatch(n, from, k))
  {
    hide Represents, CommitTracked, WinsGood, LogsGood, ConfigsGood, CampaignsGood, VotesGood, VotesKeepAcks, CommitsGood, AcksHeld, LeadersInStep, ReplicasGood, AckedUpTo, CommitScan;
    var l := w.replicas[n.id].log;
    LeaderHasItsLog(w, n);
    MatchIsBacked(w.history, n, from, k);
    var i := Max(Lookup(n.matchIndex, from), k);
    var m := n.(matchIndex := n.matchIndex[from := i], nextIndex := n.nextIndex[from := i + 1]);
    assert PeersBacked(w.history, m, l);
    hide Tracks, Good, Moves, PeersBacked;
    BookkeepingTracks(w, n, m);
    x := AdvanceTracks(w, m);
  }

  lemma AppendReplyTracks(w: World, n: Node, from: NodeId, number: nat, req: AppendRequest, reply: AppendReply) returns (x: World)
    requires Good(w) && Tracks(w, n) && AppendAskGood(w.history, req) && AppendAnswerGood(w.history, from, req, reply)
    ensures Good(x) && Moves(w, x, n.id) && Tracks(x, HandleAppendReply(n, from, number, req, reply))
    ensures RoleRule(n, HandleAppendReply(n, from, number, req, reply))
  {
    hide Good, Represents, CommitTracked, AckedUpTo, NoteMatch;
    x := w;
    MovesSelf(w, n.id);
    if reply.term > n.term {
      x := FollowerTracks(w, n, reply.term);
    } else if n.role.Leader? && n.term == req.term {
      var l := w.replicas[n.id].log;
      LeaderHasItsLog(w, n);
      PeersBackedOf(w.history, n, l);
      var m := NoteContact(n, from, number);
      assert PeersBacked(w.history, m, l);
      BookkeepingTracks(w, n, m);
      if reply.success {
        x := NoteMatchTracks(w, m, from, Max(req.prevIndex + |req.entries|, reply.matchIndex));
      } else {
        var k := m.(nextIndex := m.nextIndex[from := BackOff(req, reply)]);
        assert PeersBacked(w.history, k, l);
        BookkeepingTracks(w, m, k);
      }
    }
  }

  lemma AppendAnswerKeepsInv(c: C.Cluster, w: World, p: C.Packet) returns (x: World)
    requires Inv(c, w) && C.Enabled(c, C.ReceiveAppendAnswer(p))
    ensures Inv(C.Do(c, C.ReceiveAppendAnswer(p)), x) && Moves(w, x, C.Receiver(p))
  {
    hide Good, Tracks, HandleAppendReply, AppendAskGood, AppendAnswerGood;
    var v := C.Receiver(p);
    var n := c.nodes[v];
    assert PacketGood(w.history, p);
    assert Tracks(w, n) && n.id == v;
    x := AppendReplyTracks(w, n, p.from, p.number, p.append, p.appendReply);
    NodeMoved(c, w, x, v, HandleAppendReply(n, p.from, p.number, p.append, p.appendReply), c.net, c.tasks);
  }

  // ------------------------------------------------------------ Snapshots

  lemma SnapshotRequestGood(w: World, n: Node, done: bool)
    requires Good(w) && Tracks(w, n) && n.role.Leader?
    requires 1 <= n.snapIndex <= n.lastApplied <= LastIndex(n)
    ensures SnapshotAskGood(w.history, SnapshotRequestFor(n, done))
  {
    hide Good, Represents, CommittedBy, ConfigAt, ConfigOf;
    var h, l := w.history, w.replicas[n.id].log;
    RepresentsStores(h.base, n, l);
    Queries(h.base, n, l);
    ReplicaWellFormed(w, n.id);
    ConfigAtIsMembership(h.base, n, l, n.lastApplied);
    PrefixCommitted(h, l, n.lastApplied, n.commitIndex, n.term);
    LeaderHasItsLog(w, n);
  }

  lemma SendSnapshotKeepsInv(c: C.Cluster, w: World, v: NodeId, u: NodeId, done: bool)
    requires Inv(c, w) && C.Enabled(c, C.SendSnapshot(v, u, done))
    ensures Inv(C.Do(c, C.SendSnapshot(v, u, done)), w)
  {
    hide Inv, Good, Represents, CommitTracked, LeadTracked, SnapshotRequestFor, SnapshotAskGood;
    var n := c.nodes[v];
    NodePromises(c, w, v);
    PeersBackedOf(w.history, n, w.replicas[v].log);
    SnapshotRequestGood(w, n, done);
    var m := n.(sendSeq := n.sendSeq + 1);
    assert PeersBacked(w.history, m, w.replicas[v].log);
    hide Tracks, PeersBacked;
    BookkeepingTracks(w, n, m);
    MovesSelf(w, v);
    NodeMoved(c, w, w, v, m, c.net + {C.SnapshotAsk(u, m.sendSeq, SnapshotRequestFor(n, done))}, c.tasks);
  }

  // A node that applied up to the snapshot, in the leader's term, holds its entries.
  lemma AckSnapshot(w: World, n: Node, req: SnapshotRequest) returns (x: World)
    requires Good(w) && Tracks(w, n) && SnapshotAskGood(w.history, req)
    requires req.term == n.term && req.index <= n.lastApplied
    ensures Good(x) && Moves(w, x, n.id) && Tracks(x, n)
    ensures AckedUpTo(x.history, req.term, n.id, req.index)
  {
    hide Good, Represents, CommittedBy, Overwrite, AckedUpTo;
    var h, l := w.history, w.replicas[n.id].log;
    SnapshotContained(w, n, req);
    x := Adopt(w, n.id, req.index);
    AdoptKeepsGood(w, n.id, req.index);
    assert x.replicas == w.replicas by {
      OverwriteSame(l, SnapshotLog(h, req));
    }
    CommittedGrows(h, x.history, l[..n.commitIndex], n.term, n.term);
    if n.role.Candidate? {
      CampaignTrackedGrows(h, x.history, n, l);
    }
    if n.role.Leader? {
      LeadTrackedGrows(h, x.history, n, l);
    }
    AckedByAdopt(w, n.id, req.index);
  }

  lemma OverwriteSame(l: Log, q: Log)
    requires q <= l
    ensures Overwrite(l, q) == l
  {
  }

  lemma AckedByAdopt(w: World, v: NodeId, k: nat)
    requires MayAdopt(w, v, k)
    ensures AckedUpTo(Adopt(w, v, k).history, w.replicas[v].term, v, k)
  {
  }

  lemma SnapshotContained(w: World, n: Node, req: SnapshotRequest)
    requires Good(w) && Tracks(w, n) && SnapshotAskGood(w.history, req)
    requires req.term == n.term && req.index <= n.lastApplied
    ensures SnapshotLog(w.history, req) <= w.replicas[n.id].log
  {
    hide Represents, WinsGood, LogsGood, ConfigsGood, CampaignsGood, VotesGood, VotesKeepAcks, CommitsGood, AcksGood, AcksHeld, LeadersInStep, ReplicasGood, CommittedBy, CampaignTracked, LeadTracked, VoteTracked;
    var h, l := w.history, w.replicas[n.id].log;
    var q := SnapshotLog(h, req);
    PrefixCommitted(h, l, n.lastApplied, n.commitIndex, n.term);
    CommittedComparable(h, l[..n.lastApplied], q, n.term);
  }

  lemma HandleChunkTracks(w: World, n: Node, req: SnapshotRequest, inOrder: bool) returns (x: World)
    requires Good(w) && Tracks(w, n) && SnapshotAskGood(w.history, req)
    ensures
      var (m, result) := HandleChunk(n, req, inOrder);
      && Good(x) && Moves(w, x, n.id) && Tracks(x, m)
      && (result.Answer? ==> SnapshotAnswerGood(x.history, n.id, req, result.reply))
      && (result.FileComplete? ==> m.term == req.term && m.role.Follower?)
  {
    hide Good, Tracks, SnapshotAskGood, AcceptLeader, AckedUpTo, Moves;
    var m := HandleChunk(n, req, inOrder).0;
    x := w;
    MovesSelf(w, n.id);
    if req.term >= n.term {
      AcceptShape(n, req.term, req.leader);
      AcceptKeepsId(n, req.term, req.leader);
      x := AcceptTracks(w, n, req.term, req.leader);
      if req.index <= m.lastApplied {
        var y := AckSnapshot(x, m, req);
        MovesTransitive(w, x, y, n.id);
        x := y;
      }
    }
  }

  lemma ChunkKeepsInv(c: C.Cluster, w: World, p: C.Packet, inOrder: bool) returns (x: World)
    requires p in c.net && p.SnapshotAsk? && p.to in c.nodes && Inv(c, w)
    ensures Inv(AfterChunk(c, p, inOrder), x) && Moves(w, x, p.to)
  {
    hide Inv, Good, Tracks, SnapshotAskGood, AckedUpTo, HandleChunk, SnapshotAnswerGood, Moves;
    var n := c.nodes[p.to];
    var req := p.snapshot;
    PacketPromises(c, w, p);
    NodePromises(c, w, p.to);
    var (m, result) := HandleChunk(n, req, inOrder);
    HandleChunkRole(n, req, inOrder);
    x := HandleChunkTracks(w, n, req, inOrder);
    MovesGrows(w, x, p.to);
    SnapshotAskGrows(w.history, x.history, req);
    match result
    case Answer(reply) =>
      NodeMoved(c, w, x, p.to, m, c.net + {C.SnapshotAnswer(p.to, p.number, req, reply)}, c.tasks);
    case FileComplete =>
      NodeMoved(c, w, x, p.to, m, c.net, c.tasks + {C.Task(p.to, p.number, req)});
  }

  lemma HandleChunkRole(n: Node, req: SnapshotRequest, inOrder: bool)
    ensures RoleRule(n, HandleChunk(n, req, inOrder).0)
  {
  }

  lemma InstallKeepsInv(c: C.Cluster, w: World, task: C.Task) returns (x: World)
    requires Inv(c, w) && C.Enabled(c, C.FinishInstall(task))
    ensures Inv(C.Do(c, C.FinishInstall(task)), x) && Moves(w, x, task.node)
  {
    hide Good, Tracks, SnapshotAskGood, InstallSnapshot, AckedUpTo;
    var v := task.node;
    var n := c.nodes[v];
    var req := task.request;
    assert TaskGood(w.history, c.nodes, task);
    assert Tracks(w, n) && n.id == v;
    x := InstallTracks(w, n, req);
    InstallOutcome(n, req);
    var (m, reply) := InstallSnapshot(n, req);
    if req.term == m.term {
      var y := AckSnapshot(x, m, req);
      MovesTransitive(w, x, y, v);
      x := y;
    }
    SnapshotAskGrows(w.history, x.history, req);
    NodeMoved(c, w, x, v, m, c.net + {C.SnapshotAnswer(v, task.number, req, reply)}, c.tasks - {task});
  }

  lemma SnapshotReplyTracks(w: World, n: Node, from: NodeId, number: nat, req: SnapshotRequest, reply: SnapshotReply) returns (x: World)
    requires Good(w) && Tracks(w, n) && SnapshotAnswerGood(w.history, from, req, reply)
    ensures Good(x) && Moves(w, x, n.id) && Tracks(x, HandleSnapshotReply(n, from, number, req, reply))
    ensures RoleRule(n, HandleSnapshotReply(n, from, number, req, reply))
  {
    hide Good, Represents, CommitTracked, AckedUpTo, NoteMatch;
    x := w;
    MovesSelf(w, n.id);
    if reply.term > n.term {
      x := FollowerTracks(w, n, reply.term);
    } else if n.role.Leader? && n.term == req.term {
      PeersBackedOf(w.history, n, w.replicas[n.id].log);
      var m := NoteContact(n, from, number);
      assert PeersBacked(w.history, m, w.replicas[n.id].log);
      BookkeepingTracks(w, n, m);
      if reply.success && req.done {
        x := NoteMatchTracks(w, m, from, req.index);
      }
    }
  }

  lemma SnapshotAnswerKeepsInv(c: C.Cluster, w: World, p: C.Packet) returns (x: World)
    requires Inv(c, w) && C.Enabled(c, C.ReceiveSnapshotAnswer(p))
    ensures Inv(C.Do(c, C.ReceiveSnapshotAnswer(p)), x) && Moves(w, x, C.Receiver(p))
  {
    hide Good, Tracks, HandleSnapshotReply, SnapshotAskGood, SnapshotAnswerGood;
    var v := C.Receiver(p);
    var n := c.nodes[v];
    assert PacketGood(w.history, p);
    assert Tracks(w, n) && n.id == v;
    x := SnapshotReplyTracks(w, n, p.from, p.number, p.snapshot, p.snapshotReply);
    NodeMoved(c, w, x, v, HandleSnapshotReply(n, p.from, p.number, p.snapshot, p.snapshotReply), c.net, c.tasks);
  }

  // ------------------------------------------------------------ Local steps

  lemma StepDownKeepsInv(c: C.Cluster, w: World, v: NodeId, t: nat) returns (x: World)
    requires Inv(c, w) && C.Enabled(c, C.StepDown(v, t))
    ensures Inv(C.Do(c, C.StepDown(v, t)), x) && Moves(w, x, v)
  {
    hide Good, Tracks, PacketGood;
    var n := c.nodes[v];
    x := FollowerTracks(w, n, t);
    NodeMoved(c, w, x, v, BecomeFollower(n, t), c.net, c.tasks);
  }

  lemma ApplyKeepsInv(c: C.Cluster, w: World, v: NodeId, threshold: nat) returns (x: World)
    requires Inv(c, w) && C.Enabled(c, C.Apply(v, threshold))
    ensures Inv(C.Do(c, C.Apply(v, threshold)), x) && Moves(w, x, v)
  {
    hide Inv, Good, Tracks, EntryAt, NodeTermAt, ConfigAt, MaybeSnapshot, Applied;
    var n := c.nodes[v];
    var e := ApplyEntry(n);
    NodePromises(c, w, v);
    ProgressOrdered(w, n);
    x := AppliedTracks(w, n, e);
    var m := Applied(n, e);
    AppliedRole(n, e);
    ProgressOrdered(x, m);
    CompactTracks(x, m, threshold);
    CompactRole(m, threshold);
    NodeMoved(c, w, x, v, MaybeSnapshot(m, threshold), c.net, c.tasks);
  }

  lemma ProgressOrdered(w: World, n: Node)
    requires Tracks(w, n)
    ensures n.snapIndex <= n.lastApplied <= n.commitIndex <= LastIndex(n)
  {
    hide Represents;
    LengthKnown(w, n);
  }

  lemma AppliedRole(n: Node, e: Entry)
    ensures RoleRule(n, Applied(n, e))
  {
  }

  lemma CompactRole(n: Node, threshold: nat)
    requires n.snapIndex <= n.lastApplied <= LastIndex(n)
    ensures MaybeSnapshot(n, threshold).id == n.id && MaybeSnapshot(n, threshold).term == n.term
    ensures MaybeSnapshot(n, threshold).role == n.role
  {
    hide ConfigAt;
  }

  function ApplyEntry(n: Node): Entry
    requires n.snapIndex <= n.lastApplied < n.commitIndex <= LastIndex(n)
  {
    EntryAt(n, n.lastApplied + 1).value
  }

  // A crash forgets the waiting files with the rest.
  lemma CrashKeepsInv(c: C.Cluster, w: World, v: NodeId)
    requires Inv(c, w) && C.Enabled(c, C.Crash(v))
    ensures Inv(C.Do(c, C.Crash(v)), w)
  {
    hide Good, Tracks, PacketGood, SnapshotAskGood, LatestConfig;
    var n := c.nodes[v];
    var m := Restart(n, n.snapIndex);
    RestartTracks(w, n);
    MovesSelf(w, v);
    NodeMoved(c, w, w, v, m, c.net, set t | t in c.tasks && t.node != v);
  }

  // ------------------------------------------------------------ Start and every step

  lemma ReplicaKnown(c: C.Cluster, w: World, v: NodeId)
    requires Inv(c, w) && v in c.nodes
    ensures v in w.replicas
  {
    hide Good, Tracks, PacketGood, TaskGood;
  }

  // A step that adds a member must come out one node away from the true membership.
  ghost predicate AddsOne(c: C.Cluster, w: World, s: C.Step) {
    s.AddMember? && s.v in c.nodes && s.v in w.replicas ==> OneChange(TrueMembers(w, s.v), c.nodes[s.v].members + {s.member})
  }

  // A node that knows of some member knows all members.
  lemma KnownIsTrue(w: World, n: Node)
    requires Tracks(w, n) && n.members != {}
    ensures n.id in w.replicas && n.members == TrueMembers(w, n.id)
  {
    hide CommitTracked, CampaignTracked, LeadTracked, VoteTracked, Stores, NewestConfig;
  }

  lemma KnowingAddsOne(c: C.Cluster, w: World, s: C.Step)
    requires Inv(c, w) && C.Enabled(c, s) && C.AddsKnowing(c, s)
    ensures AddsOne(c, w, s)
  {
    hide Inv, Tracks, Good, OneChange;
    if s.AddMember? {
      NodePromises(c, w, s.v);
      KnownIsTrue(w, c.nodes[s.v]);
      AddIsOneChange(c.nodes[s.v].members, s.member);
    }
  }

  lemma StepKeepsInv(c: C.Cluster, w: World, s: C.Step) returns (x: World)
    requires Inv(c, w) && C.Enabled(c, s) && AddsOne(c, w, s)
    ensures Inv(C.Do(c, s), x) && Moves(w, x, C.Actor(s))
  {
    hide Inv, Moves, OneChange;
    x := w;
    MovesSelf(w, C.Actor(s));
    ReplicaKnown(c, w, C.Actor(s));
    match s
    case Timeout(v) => x := CampaignKeepsInv(c, w, v, false);
    case TimeoutNow(v, _) => x := CampaignKeepsInv(c, w, v, true);
    case ReceiveVoteAsk(p, inLease) => x := VoteAskKeepsInv(c, w, p, inLease);
    case ReceiveVoteAnswer(p) => x := VoteAnswerKeepsInv(c, w, p);
    case ClientWrite(v, op, username, request) => x := ProposeKeepsInv(c, w, v, Run(op), username, request);
    case AddMember(v, u) =>
      x := ProposeKeepsInv(c, w, v, Config(c.nodes[v].members + {u}), "", None);
    case RemoveMember(v, u) =>
      NodePromises(c, w, v);
      KnownIsTrue(w, c.nodes[v]);
      RemoveIsOneChange(c.nodes[v].members, u);
      x := ProposeKeepsInv(c, w, v, Config(c.nodes[v].members - {u}), "", None);
    case StartReplicator(v, u) => StartReplicatorKeepsInv(c, w, v, u);
    case SendEntries(v, u) => SendEntriesKeepsInv(c, w, v, u);
    case ReceiveAppend(p) =>
      DoReceiveAppend(c, p);
      x := AppendKeepsInv(c, w, p);
    case ReceiveAppendAnswer(p) => x := AppendAnswerKeepsInv(c, w, p);
    case SendSnapshot(v, u, done) => SendSnapshotKeepsInv(c, w, v, u, done);
    case ReceiveChunk(p, inOrder) =>
      DoReceiveChunk(c, p, inOrder);
      x := ChunkKeepsInv(c, w, p, inOrder);
    case FinishInstall(task) => x := InstallKeepsInv(c, w, task);
    case ReceiveSnapshotAnswer(p) => x := SnapshotAnswerKeepsInv(c, w, p);
    case StepDown(v, t) => x := StepDownKeepsInv(c, w, v, t);
    case Apply(v, threshold) => x := ApplyKeepsInv(c, w, v, threshold);
    case Crash(v) => CrashKeepsInv(c, w, v);
  }

  // Nothing has happened yet.
  function EmptyWorld(c: C.Cluster, base: set<NodeId>): World {
    World(History(base, map[], map[], map[], map[], {}, {}), map v | v in c.nodes :: Replica(0, []))
  }

  lemma InitInv(c: C.Cluster, base: set<NodeId>)
    requires C.Init(c, base)
    ensures Inv(c, EmptyWorld(c, base))
  {
    var w := EmptyWorld(c, base);
    forall v | v in c.nodes
      ensures Tracks(w, c.nodes[v])
    {
      FreshTracks(w, c.nodes[v], base);
    }
  }

  lemma FreshTracks(w: World, n: Node, base: set<NodeId>)
    requires C.FreshNode(n, base) && w.history == History(base, map[], map[], map[], map[], {}, {})
    requires n.id in w.replicas && w.replicas[n.id] == Replica(0, [])
    ensures Tracks(w, n)
  {
    hide Represents;
    var l: Log := [];
    assert l[..0] == [];
    assert Stores(base, n, l);
    RefreshRepresents(base, n, l);
    assert Refresh(n) == n;
  }
}
