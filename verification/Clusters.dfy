// The cluster as a step system: nodes, every packet ever sent, and snapshot files
// waiting to be installed. Packets stay in the network, so they may be lost (never
// handled), duplicated, delayed and reordered. Clocks only choose which step happens.
module Clusters {
  import opened Types
  import opened Nodes

  // A reply carries its request: the thread that asked still holds it. The number is
  // the one the sending thread drew from sendSeq.
  datatype Packet =
    | VoteAsk(to: NodeId, vote: VoteRequest)
    | VoteAnswer(from: NodeId, vote: VoteRequest, voteReply: VoteReply)
    | AppendAsk(to: NodeId, number: nat, append: AppendRequest)
    | AppendAnswer(from: NodeId, number: nat, append: AppendRequest, appendReply: AppendReply)
    | SnapshotAsk(to: NodeId, number: nat, snapshot: SnapshotRequest)
    | SnapshotAnswer(from: NodeId, number: nat, snapshot: SnapshotRequest, snapshotReply: SnapshotReply)

  // A complete snapshot file that waits for the state machine to be free.
  datatype Task = Task(node: NodeId, number: nat, request: SnapshotRequest)

  datatype Cluster = Cluster(nodes: map<NodeId, Node>, net: set<Packet>, tasks: set<Task>)

  datatype Step =
    | Timeout(v: NodeId)
    | TimeoutNow(v: NodeId, term: nat)
    | ReceiveVoteAsk(p: Packet, inLease: bool)
    | ReceiveVoteAnswer(p: Packet)
    | ClientWrite(v: NodeId, op: Operation, username: string, request: Option<RequestId>)
    | AddMember(v: NodeId, member: NodeId)
    | RemoveMember(v: NodeId, member: NodeId)
    | StartReplicator(v: NodeId, peer: NodeId)
    | SendEntries(v: NodeId, peer: NodeId)
    | ReceiveAppend(p: Packet)
    | ReceiveAppendAnswer(p: Packet)
    | SendSnapshot(v: NodeId, peer: NodeId, done: bool)
    | ReceiveChunk(p: Packet, inOrder: bool)
    | FinishInstall(task: Task)
    | ReceiveSnapshotAnswer(p: Packet)
    | StepDown(v: NodeId, term: nat)
    | Apply(v: NodeId, threshold: nat)
    | Crash(v: NodeId)

  // ------------------------------------------------------------ Start

  // A first start: the bootstrap membership, or none for a node that will join.
  predicate FreshNode(n: Node, base: set<NodeId>) {
    && n.term == 0 && n.votedFor == None && n.log == [] && n.snapIndex == 0 && n.snapTerm == 0
    && (n.snapConfig == base || n.snapConfig == {})
    && n == Restart(n, 0)
  }

  predicate Init(c: Cluster, base: set<NodeId>) {
    && (forall v :: v in c.nodes ==> c.nodes[v].id == v && FreshNode(c.nodes[v], base))
    && c.net == {}
    && c.tasks == {}
  }

  // ------------------------------------------------------------ Steps

  // The requests a new candidate sends to its peers.
  function CampaignPackets(n: Node, transfer: bool): set<Packet> {
    set u | u in n.members - {n.id} :: VoteAsk(u, CampaignRequest(StartCampaign(n), transfer))
  }

  function Campaign(c: Cluster, v: NodeId, transfer: bool): Cluster
    requires v in c.nodes
  {
    c.(nodes := c.nodes[v := BecomeCandidate(c.nodes[v])], net := c.net + CampaignPackets(c.nodes[v], transfer))
  }

  // The process that a step runs at.
  function Actor(s: Step): NodeId {
    match s
    case ReceiveVoteAsk(p, _) => Receiver(p)
    case ReceiveVoteAnswer(p) => Receiver(p)
    case ReceiveAppend(p) => Receiver(p)
    case ReceiveAppendAnswer(p) => Receiver(p)
    case ReceiveChunk(p, _) => Receiver(p)
    case ReceiveSnapshotAnswer(p) => Receiver(p)
    case FinishInstall(task) => task.node
    case _ => s.v
  }

  function Receiver(p: Packet): NodeId {
    match p
    case VoteAsk(to, _) => to
    case VoteAnswer(_, req, _) => req.candidate
    case AppendAsk(to, _, _) => to
    case AppendAnswer(_, _, req, _) => req.leader
    case SnapshotAsk(to, _, _) => to
    case SnapshotAnswer(_, _, req, _) => req.leader
  }

  predicate Enabled(c: Cluster, s: Step) {
    && Actor(s) in c.nodes
    && var n := c.nodes[Actor(s)];
    match s
    case Timeout(_) => !n.role.Leader?
    case TimeoutNow(_, t) => t >= n.term && n.id in n.members && !n.role.Leader?
    case ReceiveVoteAsk(p, _) => p in c.net && p.VoteAsk?
    case ReceiveVoteAnswer(p) => p in c.net && p.VoteAnswer?
    case ClientWrite(_, _, _, _) => n.role.Leader?
    // Check and append are one step.
    case AddMember(_, u) => n.role.Leader? && u !in n.members && ConfigIdle(n)
    case RemoveMember(_, u) => n.role.Leader? && u in n.members && |n.members| != 1 && ConfigIdle(n)
    case StartReplicator(_, u) => n.role.Leader? && u !in n.nextIndex
    case SendEntries(_, u) => n.role.Leader? && u in n.nextIndex && n.snapIndex < n.nextIndex[u] <= LastIndex(n) + 1
    case ReceiveAppend(p) => p in c.net && p.AppendAsk?
    case ReceiveAppendAnswer(p) => p in c.net && p.AppendAnswer?
    case SendSnapshot(_, u, _) => n.role.Leader? && u in n.nextIndex && n.nextIndex[u] <= n.snapIndex && n.snapIndex <= n.lastApplied <= LastIndex(n)
    case ReceiveChunk(p, _) => p in c.net && p.SnapshotAsk?
    case FinishInstall(task) => task in c.tasks && n.snapIndex <= n.lastApplied
    case ReceiveSnapshotAnswer(p) => p in c.net && p.SnapshotAnswer?
    case StepDown(_, t) => t >= n.term
    case Apply(_, _) => n.snapIndex <= n.lastApplied < n.commitIndex <= LastIndex(n)
    case Crash(_) => true
  }

  function Do(c: Cluster, s: Step): Cluster
    requires Enabled(c, s)
  {
    var v := Actor(s);
    var n := c.nodes[v];
    match s
    case Timeout(_) => Campaign(c, v, false)
    case TimeoutNow(_, _) => Campaign(c, v, true)
    case ReceiveVoteAsk(p, inLease) =>
      var (m, reply) := HandleVoteRequest(n, p.vote, inLease);
      c.(nodes := c.nodes[v := m], net := c.net + {VoteAnswer(v, p.vote, reply)})
    case ReceiveVoteAnswer(p) =>
      c.(nodes := c.nodes[v := HandleVoteReply(n, p.from, p.vote, p.voteReply)])
    case ClientWrite(_, op, username, request) =>
      c.(nodes := c.nodes[v := Propose(n, Run(op), username, request)])
    case AddMember(_, u) =>
      c.(nodes := c.nodes[v := Propose(n, Config(n.members + {u}), "", None)])
    case RemoveMember(_, u) =>
      c.(nodes := c.nodes[v := Propose(n, Config(n.members - {u}), "", None)])
    case StartReplicator(_, u) =>
      c.(nodes := c.nodes[v := n.(nextIndex := n.nextIndex[u := LastIndex(n) + 1], matchIndex := n.matchIndex[u := 0])])
    case SendEntries(_, u) =>
      var m := n.(sendSeq := n.sendSeq + 1);
      c.(nodes := c.nodes[v := m], net := c.net + {AppendAsk(u, m.sendSeq, AppendRequestFor(n, u).value)})
    case ReceiveAppend(p) =>
      var (m, reply) := HandleAppend(n, p.append);
      c.(nodes := c.nodes[v := m], net := c.net + {AppendAnswer(v, p.number, p.append, reply)})
    case ReceiveAppendAnswer(p) =>
      c.(nodes := c.nodes[v := HandleAppendReply(n, p.from, p.number, p.append, p.appendReply)])
    case SendSnapshot(_, u, done) =>
      var m := n.(sendSeq := n.sendSeq + 1);
      c.(nodes := c.nodes[v := m], net := c.net + {SnapshotAsk(u, m.sendSeq, SnapshotRequestFor(n, done))})
    case ReceiveChunk(p, inOrder) =>
      var (m, result) := HandleChunk(n, p.snapshot, inOrder);
      (match result
       case Answer(reply) => c.(nodes := c.nodes[v := m], net := c.net + {SnapshotAnswer(v, p.number, p.snapshot, reply)})
       case FileComplete => c.(nodes := c.nodes[v := m], tasks := c.tasks + {Task(v, p.number, p.snapshot)}))
    case FinishInstall(task) =>
      var (m, reply) := InstallSnapshot(n, task.request);
      Cluster(c.nodes[v := m], c.net + {SnapshotAnswer(v, task.number, task.request, reply)}, c.tasks - {task})
    case ReceiveSnapshotAnswer(p) =>
      c.(nodes := c.nodes[v := HandleSnapshotReply(n, p.from, p.number, p.snapshot, p.snapshotReply)])
    case StepDown(_, t) =>
      c.(nodes := c.nodes[v := BecomeFollower(n, t)])
    case Apply(_, threshold) =>
      var m := Applied(n, EntryAt(n, n.lastApplied + 1).value);
      c.(nodes := c.nodes[v := MaybeSnapshot(m, threshold)])
    case Crash(_) =>
      c.(nodes := c.nodes[v := Restart(n, n.snapIndex)], tasks := set t | t in c.tasks && t.node != v)
  }

  // ------------------------------------------------------------ Runs

  // cs[0] is a start and each step leads to the next cluster.
  ghost predicate IsRun(cs: seq<Cluster>, steps: seq<Step>, base: set<NodeId>) {
    && |cs| == |steps| + 1
    && Init(cs[0], base)
    && forall i :: 0 <= i < |steps| ==> Enabled(cs[i], steps[i]) && cs[i + 1] == Do(cs[i], steps[i])
  }

  // A leader that adds a member knows of some member. An engine may have been told, by a
  // snapshot, that there is none.
  predicate AddsKnowing(c: Cluster, s: Step) {
    s.AddMember? && s.v in c.nodes ==> c.nodes[s.v].members != {}
  }

  // A run in which this holds at every step.
  ghost predicate IsKnowingRun(cs: seq<Cluster>, steps: seq<Step>, base: set<NodeId>) {
    IsRun(cs, steps, base) && forall i :: 0 <= i < |steps| ==> AddsKnowing(cs[i], steps[i])
  }
}
