// What every step does to the volatile fields of its node and which packets it adds:
// terms and commit indices never go back before a crash, offices start fresh, and
// numbered requests keep their numbers on the way back.
module StepShapes {
  import opened Types
  import opened Nodes
  import opened Following
  import opened ClusterInvariant
  import C = Clusters

  // A step at a node other than a crash; answers to its own requests aside.
  ghost predicate Forward(n: Node, m: Node) {
    && m.id == n.id
    && m.term >= n.term
    && m.commitIndex >= n.commitIndex
    && (m.term == n.term && !n.role.Candidate? ==> m.termStart == n.termStart && !m.role.Candidate?)
    && (m.term == n.term && n.role.Follower? ==> m.role.Follower?)
    && m.sendSeq >= n.sendSeq
    && m.generation >= n.generation
    && (m.lastAck == n.lastAck || m.lastAck == map[])
    && (m.role.Leader? && (!n.role.Leader? || m.term > n.term) ==> m.lastAck == map[])
  }

  // The same, with the number of an answered request noted.
  ghost predicate Noted(n: Node, m: Node, from: NodeId, number: nat) {
    Forward(n, m) || (n.role.Leader? && Forward(NoteContact(n, from, number), m))
  }

  // ------------------------------------------------------------ Handlers

  lemma FollowerForward(n: Node, t: nat)
    ensures Forward(n, BecomeFollower(n, t)) && BecomeFollower(n, t).role.Follower?
  {
  }

  lemma AdvanceForward(n: Node)
    ensures Forward(n, AdvanceCommit(n)) && AdvanceCommit(n).role == n.role && AdvanceCommit(n).term == n.term
  {
    hide CommitScan;
  }

  lemma TakeOfficeForward(n: Node)
    requires n.role.Candidate?
    ensures Forward(n, BecomeLeader(n))
  {
    hide CommitScan, LatestConfig;
    AdvanceForward(TakeOffice(n));
  }

  lemma CandidateForward(n: Node)
    ensures Forward(n, BecomeCandidate(n)) && BecomeCandidate(n).term == n.term + 1
  {
    hide Elected, BecomeLeader;
    var m := StartCampaign(n);
    BecomeLeaderRole(m);
    TakeOfficeForward(m);
  }

  lemma VoteForward(n: Node, req: VoteRequest, inLease: bool)
    ensures Forward(n, HandleVoteRequest(n, req, inLease).0)
  {
  }

  lemma VoteReplyForward(n: Node, from: NodeId, req: VoteRequest, reply: VoteReply)
    ensures Forward(n, HandleVoteReply(n, from, req, reply))
  {
    hide BecomeLeader, Elected, BecomeFollower;
    FollowerForward(n, reply.term);
    if n.role.Candidate? {
      TakeOfficeForward(n.(votes := n.votes + {from}));
    }
  }

  lemma AcceptForward(n: Node, t: nat, leader: NodeId)
    ensures Forward(n, AcceptLeader(n, t, leader))
  {
  }

  lemma AppendForward(n: Node, req: AppendRequest)
    ensures Forward(n, HandleAppend(n, req).0) && HandleAppend(n, req).1.term >= n.term
  {
    hide Merge, NodeTermAt, FirstOfTerm, AcceptLeader, Trimmed;
    if req.term >= n.term {
      var m := AcceptLeader(n, req.term, req.leader);
      AcceptForward(n, req.term, req.leader);
      AcceptShape(n, req.term, req.leader);
      MergeShape(m, Trimmed(m, req).2);
    }
  }

  lemma ChunkForward(n: Node, req: SnapshotRequest, inOrder: bool)
    ensures Forward(n, HandleChunk(n, req, inOrder).0)
    ensures var r := HandleChunk(n, req, inOrder).1; r.Answer? ==> r.reply.term >= n.term
  {
    hide AcceptLeader;
    if req.term >= n.term {
      AcceptForward(n, req.term, req.leader);
      AcceptShape(n, req.term, req.leader);
    }
  }

  lemma InstallForward(n: Node, req: SnapshotRequest)
    requires n.snapIndex <= n.lastApplied
    ensures Forward(n, InstallSnapshot(n, req).0)
  {
    hide LatestConfig;
  }

  lemma NoteMatchForward(n: Node, from: NodeId, k: nat)
    ensures Forward(n, NoteMatch(n, from, k))
  {
    hide CommitScan;
  }

  lemma AppendReplyForward(n: Node, from: NodeId, number: nat, req: AppendRequest, reply: AppendReply)
    ensures Noted(n, HandleAppendReply(n, from, number, req, reply), from, number)
    ensures !(n.role.Leader? && n.term == req.term && reply.term <= n.term) ==> Forward(n, HandleAppendReply(n, from, number, req, reply))
  {
    hide NoteMatch, BackOff, BecomeFollower;
    FollowerForward(n, reply.term);
    NoteMatchForward(NoteContact(n, from, number), from, Max(req.prevIndex + |req.entries|, reply.matchIndex));
  }

  lemma SnapshotReplyForward(n: Node, from: NodeId, number: nat, req: SnapshotRequest, reply: SnapshotReply)
    ensures Noted(n, HandleSnapshotReply(n, from, number, req, reply), from, number)
    ensures !(n.role.Leader? && n.term == req.term && reply.term <= n.term) ==> Forward(n, HandleSnapshotReply(n, from, number, req, reply))
  {
    hide NoteMatch, BecomeFollower;
    FollowerForward(n, reply.term);
    NoteMatchForward(NoteContact(n, from, number), from, req.index);
  }

  lemma ProposeForward(n: Node, c: Command, username: string, request: Option<RequestId>)
    ensures Forward(n, Propose(n, c, username, request))
  {
    hide CommitScan, LatestConfig;
  }

  lemma ApplyForward(n: Node, e: Entry, threshold: nat)
    requires n.snapIndex <= n.lastApplied < n.commitIndex <= LastIndex(n)
    ensures Forward(n, MaybeSnapshot(Applied(n, e), threshold))
  {
    hide ConfigAt, NodeTermAt;
  }

  // ------------------------------------------------------------ Packets

  predicate Numbered(p: C.Packet) {
    p.AppendAsk? || p.AppendAnswer? || p.SnapshotAsk? || p.SnapshotAnswer?
  }

  predicate IsAnswer(p: C.Packet) {
    p.AppendAnswer? || p.SnapshotAnswer?
  }

  function LeaderOf(p: C.Packet): NodeId
    requires Numbered(p)
  {
    if p.AppendAsk? || p.AppendAnswer? then p.append.leader else p.snapshot.leader
  }

  function TermOf(p: C.Packet): nat
    requires Numbered(p)
  {
    if p.AppendAsk? || p.AppendAnswer? then p.append.term else p.snapshot.term
  }

  function ReplyTerm(p: C.Packet): nat
    requires IsAnswer(p)
  {
    if p.AppendAnswer? then p.appendReply.term else p.snapshotReply.term
  }

  // The packet carries on a number that is already on its way.
  ghost predicate CarriesOn(c: C.Cluster, p: C.Packet)
    requires Numbered(p)
  {
    || (exists q :: q in c.net && Numbered(q) && LeaderOf(q) == LeaderOf(p) && TermOf(q) == TermOf(p) && q.number == p.number)
    || (exists t: C.Task :: t in c.tasks && t.request.leader == LeaderOf(p) && t.request.term == TermOf(p) && t.number == p.number)
  }

  // A new request carries the sender's fresh number.
  ghost predicate FreshNumber(n: Node, m: Node, p: C.Packet)
    requires Numbered(p)
  {
    n.role.Leader? && m.role.Leader? && m.term == n.term && LeaderOf(p) == n.id && p.number <= m.sendSeq
  }

  // What one step other than a crash does to the cluster.
  ghost predicate Shape(c: C.Cluster, d: C.Cluster, s: C.Step) {
    var v := C.Actor(s);
    && v in c.nodes && v in d.nodes
    && d.nodes == c.nodes[v := d.nodes[v]]
    && (s.ReceiveAppendAnswer? || s.ReceiveSnapshotAnswer? || Forward(c.nodes[v], d.nodes[v]))
    && (s.ReceiveAppendAnswer? || s.ReceiveSnapshotAnswer? ==> AnswerNoted(c, d, s))
    && (forall p :: p in d.net && p !in c.net && Numbered(p) ==> CarriesOn(c, p) || FreshNumber(c.nodes[v], d.nodes[v], p))
    && (forall p :: p in d.net && p !in c.net && IsAnswer(p) ==> p.from == v && ReplyTerm(p) >= c.nodes[v].term)
    && (forall t: C.Task :: t in d.tasks && t !in c.tasks ==>
          exists q :: q in c.net && q.SnapshotAsk? && q.snapshot == t.request && q.number == t.number)
    && c.net <= d.net
  }

  // An answer of the leader's own term, not from a later one, is noted; others are not.
  ghost predicate AnswerNoted(c: C.Cluster, d: C.Cluster, s: C.Step)
    requires s.ReceiveAppendAnswer? || s.ReceiveSnapshotAnswer?
    requires C.Actor(s) in c.nodes && C.Actor(s) in d.nodes
  {
    var n, m, p := c.nodes[C.Actor(s)], d.nodes[C.Actor(s)], s.p;
    && p in c.net && IsAnswer(p) && LeaderOf(p) == C.Actor(s)
    && Noted(n, m, p.from, p.number)
    && (!(n.role.Leader? && n.term == TermOf(p) && ReplyTerm(p) <= n.term) ==> Forward(n, m))
  }

  lemma StepShape(c: C.Cluster, s: C.Step)
    requires C.Enabled(c, s) && !s.Crash?
    requires forall v :: v in c.nodes ==> c.nodes[v].id == v
    ensures Shape(c, C.Do(c, s), s)
  {
    hide Forward, BecomeCandidate, HandleVoteRequest, HandleVoteReply, HandleAppend, HandleAppendReply, AppendRequestFor,
      HandleChunk, InstallSnapshot, HandleSnapshotReply, SnapshotRequestFor, BecomeFollower, Propose, MaybeSnapshot, Applied, StartCampaign, EntryAt;
    match s
    case Timeout(v) => CandidateForward(c.nodes[v]);
    case TimeoutNow(v, _) => CandidateForward(c.nodes[v]);
    case ReceiveVoteAsk(p, inLease) => VoteForward(c.nodes[p.to], p.vote, inLease);
    case ReceiveVoteAnswer(p) => VoteReplyForward(c.nodes[C.Receiver(p)], p.from, p.vote, p.voteReply);
    case ClientWrite(v, op, username, request) => ProposeForward(c.nodes[v], Run(op), username, request);
    case AddMember(v, u) => ProposeForward(c.nodes[v], Config(c.nodes[v].members + {u}), "", None);
    case RemoveMember(v, u) => ProposeForward(c.nodes[v], Config(c.nodes[v].members - {u}), "", None);
    case StartReplicator(v, u) => BookkeepingForward(c, s);
    case SendEntries(v, u) => SendShape(c, s);
    case ReceiveAppend(p) => ReceiveAppendShape(c, p);
    case ReceiveAppendAnswer(p) =>
      AppendReplyForward(c.nodes[C.Receiver(p)], p.from, p.number, p.append, p.appendReply);
    case SendSnapshot(v, u, done) => SendShape(c, s);
    case ReceiveChunk(p, inOrder) => ReceiveChunkShape(c, p, inOrder);
    case FinishInstall(task) => InstallShapeOfStep(c, task);
    case ReceiveSnapshotAnswer(p) =>
      SnapshotReplyForward(c.nodes[C.Receiver(p)], p.from, p.number, p.snapshot, p.snapshotReply);
    case StepDown(v, t) => FollowerForward(c.nodes[v], t);
    case Apply(v, threshold) => ApplyForward(c.nodes[v], ApplyEntry(c.nodes[v]), threshold);
  }

  lemma BookkeepingForward(c: C.Cluster, s: C.Step)
    requires C.Enabled(c, s) && s.StartReplicator?
    ensures Shape(c, C.Do(c, s), s)
  {
  }

  lemma SendShape(c: C.Cluster, s: C.Step)
    requires C.Enabled(c, s) && (s.SendEntries? || s.SendSnapshot?)
    requires forall v :: v in c.nodes ==> c.nodes[v].id == v
    ensures Shape(c, C.Do(c, s), s)
  {
    hide NodeTermAt, EntriesFrom, ConfigAt;
  }

  lemma ReceiveAppendShape(c: C.Cluster, p: C.Packet)
    requires C.Enabled(c, C.ReceiveAppend(p))
    ensures Shape(c, C.Do(c, C.ReceiveAppend(p)), C.ReceiveAppend(p))
  {
    hide HandleAppend, Forward;
    AppendForward(c.nodes[p.to], p.append);
    DoReceiveAppend(c, p);
    var (m, reply) := HandleAppend(c.nodes[p.to], p.append);
    assert CarriesOn(c, C.AppendAnswer(p.to, p.number, p.append, reply));
  }

  lemma ReceiveChunkShape(c: C.Cluster, p: C.Packet, inOrder: bool)
    requires C.Enabled(c, C.ReceiveChunk(p, inOrder))
    ensures Shape(c, C.Do(c, C.ReceiveChunk(p, inOrder)), C.ReceiveChunk(p, inOrder))
  {
    hide HandleChunk, Forward;
    ChunkForward(c.nodes[p.to], p.snapshot, inOrder);
    DoReceiveChunk(c, p, inOrder);
    var (m, result) := HandleChunk(c.nodes[p.to], p.snapshot, inOrder);
    if result.Answer? {
      assert CarriesOn(c, C.SnapshotAnswer(p.to, p.number, p.snapshot, result.reply));
    }
  }

  lemma InstallShapeOfStep(c: C.Cluster, task: C.Task)
    requires C.Enabled(c, C.FinishInstall(task))
    ensures Shape(c, C.Do(c, C.FinishInstall(task)), C.FinishInstall(task))
  {
    hide InstallSnapshot, Forward;
    InstallForward(c.nodes[task.node], task.request);
    InstallOutcome(c.nodes[task.node], task.request);
    var (m, reply) := InstallSnapshot(c.nodes[task.node], task.request);
    assert CarriesOn(c, C.SnapshotAnswer(task.node, task.number, task.request, reply));
  }
}
