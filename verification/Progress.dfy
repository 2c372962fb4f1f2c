// Which steps change what a node has applied: an entry applied, a snapshot installed, a
// crash; no other.
module Progress {
  import opened Types
  import opened Nodes
  import opened ClusterInvariant
  import opened StepShapes
  import C = Clusters

  // The step changes how far v has applied.
  predicate Advances(n: Node, s: C.Step, v: NodeId) {
    || ((s.Apply? || s.Crash?) && s.v == v)
    || (s.FinishInstall? && s.task.node == v && s.task.request.index > n.lastApplied)
  }

  function AppliedAfter(n: Node, s: C.Step, v: NodeId): nat {
    if !Advances(n, s, v) then n.lastApplied
    else if s.Apply? then n.lastApplied + 1
    else if s.Crash? then n.snapIndex
    else s.task.request.index
  }

  lemma LocalKeeps(n: Node, entries: seq<Entry>, i: nat)
    ensures AppendLocal(n, entries).lastApplied == n.lastApplied
    ensures n.snapIndex < i <= LastIndex(n) + 1 ==> TruncateLocal(n, i).lastApplied == n.lastApplied
  {
  }

  lemma CommitKeeps(n: Node)
    ensures AdvanceCommit(n).lastApplied == n.lastApplied
  {
    hide CommitScan;
  }

  lemma OfficeKeeps(n: Node)
    ensures BecomeLeader(n).lastApplied == n.lastApplied
  {
    hide AppendLocal, AdvanceCommit;
    CommitKeeps(TakeOffice(n));
    var next := LastIndex(n) + 1;
    var m := n.(role := Leader, leaderId := Some(n.id), generation := n.generation + 1,
                nextIndex := map p | p in n.members - {n.id} :: next, matchIndex := map p | p in n.members - {n.id} :: 0,
                lastAck := map[], termStart := next);
    LocalKeeps(m, [Entry(n.term, next, Noop, "", None)], 0);
  }

  lemma VotesKeep(n: Node, from: NodeId, req: VoteRequest, reply: VoteReply, inLease: bool)
    ensures BecomeCandidate(n).lastApplied == n.lastApplied
    ensures HandleVoteRequest(n, req, inLease).0.lastApplied == n.lastApplied
    ensures HandleVoteReply(n, from, req, reply).lastApplied == n.lastApplied
  {
    hide BecomeLeader, Elected;
    OfficeKeeps(StartCampaign(n));
    OfficeKeeps(n.(votes := n.votes + {from}));
  }

  lemma ProposeKeeps(n: Node, c: Types.Command, username: string, request: Option<RequestId>)
    ensures Propose(n, c, username, request).lastApplied == n.lastApplied
  {
    hide AppendLocal, AdvanceCommit;
    LocalKeeps(n, [Entry(n.term, LastIndex(n) + 1, c, username, request)], 0);
    CommitKeeps(AppendLocal(n, [Entry(n.term, LastIndex(n) + 1, c, username, request)]));
  }

  lemma MergeKeeps(n: Node, entries: seq<Entry>)
    ensures Merge(n, entries).lastApplied == n.lastApplied
  {
    hide AppendLocal, TruncateLocal, NodeTermAt, Known;
    var k := Known(n, entries);
    if k < |entries| {
      var e := entries[k];
      LocalKeeps(n, entries[k..], 0);
      if NodeTermAt(n, e.index).Some? && e.index > n.snapIndex {
        TermWithin(n, e.index);
        LocalKeeps(n, entries, e.index);
        LocalKeeps(TruncateLocal(n, e.index), entries[k..], 0);
      }
    }
  }

  lemma TermWithin(n: Node, i: nat)
    requires NodeTermAt(n, i).Some? && i > n.snapIndex
    ensures i <= LastIndex(n)
  {
  }

  lemma AcceptKeeps(n: Node, t: nat, leader: NodeId)
    ensures AcceptLeader(n, t, leader).lastApplied == n.lastApplied && AcceptLeader(n, t, leader).snapIndex == n.snapIndex
  {
  }

  lemma AppendKeeps(n: Node, req: AppendRequest)
    ensures HandleAppend(n, req).0.lastApplied == n.lastApplied
  {
    hide AcceptLeader, Merge, FirstOfTerm, NodeTermAt, Nodes.Trimmed;
    var m := AcceptLeader(n, req.term, req.leader);
    AcceptKeeps(n, req.term, req.leader);
    MergeKeeps(m, Nodes.Trimmed(m, req).2);
  }

  lemma RepliesKeep(n: Node, from: NodeId, number: nat, req: AppendRequest, reply: AppendReply, snap: SnapshotRequest, answer: SnapshotReply)
    ensures HandleAppendReply(n, from, number, req, reply).lastApplied == n.lastApplied
    ensures HandleSnapshotReply(n, from, number, snap, answer).lastApplied == n.lastApplied
  {
    hide CommitScan;
  }

  lemma ChunkKeeps(n: Node, req: SnapshotRequest, inOrder: bool)
    ensures HandleChunk(n, req, inOrder).0.lastApplied == n.lastApplied
  {
    hide AcceptLeader;
    AcceptKeeps(n, req.term, req.leader);
  }

  lemma InstallAdvances(n: Node, req: SnapshotRequest)
    requires n.snapIndex <= n.lastApplied
    ensures InstallSnapshot(n, req).0.lastApplied == if req.index > n.lastApplied then req.index else n.lastApplied
  {
    hide LatestConfig, CompactThrough;
  }

  lemma ApplyAdvances(n: Node, e: Entry, threshold: nat)
    requires n.snapIndex <= n.lastApplied < n.commitIndex <= LastIndex(n)
    ensures MaybeSnapshot(Applied(n, e), threshold).lastApplied == n.lastApplied + 1
  {
    hide ConfigAt, NodeTermAt;
  }

  lemma RestartAdvances(n: Node)
    ensures Restart(n, n.snapIndex).lastApplied == n.snapIndex && Restart(n, n.snapIndex).term == n.term && Restart(n, n.snapIndex).id == n.id
  {
    hide LatestConfig;
  }

  // How far every node has applied after a step, and that terms never fall.
  lemma StepAdvances(c: C.Cluster, s: C.Step, v: NodeId)
    requires C.Enabled(c, s) && v in c.nodes && forall u :: u in c.nodes ==> c.nodes[u].id == u
    ensures var d := C.Do(c, s);
      && d.nodes.Keys == c.nodes.Keys
      && d.nodes[v].lastApplied == AppliedAfter(c.nodes[v], s, v)
      && d.nodes[v].term >= c.nodes[v].term
  {
    hide C.Enabled, C.Do;
    if s.Crash? {
      CrashAdvances(c, s, v);
    } else {
      hide AnswerNoted, Forward;
      StepShape(c, s);
      StepTerm(c, C.Do(c, s), s, v);
      if C.Actor(s) == v {
        ActorAdvances(c, s);
      }
    }
  }

  lemma CrashAdvances(c: C.Cluster, s: C.Step, v: NodeId)
    requires C.Enabled(c, s) && s.Crash? && v in c.nodes
    ensures var d := C.Do(c, s);
      d.nodes.Keys == c.nodes.Keys && d.nodes[v].lastApplied == AppliedAfter(c.nodes[v], s, v) && d.nodes[v].term >= c.nodes[v].term
  {
    hide Restart;
    RestartAdvances(c.nodes[s.v]);
  }

  lemma StepTerm(c: C.Cluster, d: C.Cluster, s: C.Step, v: NodeId)
    requires Shape(c, d, s) && v in c.nodes
    ensures d.nodes.Keys == c.nodes.Keys && d.nodes[v].term >= c.nodes[v].term
    ensures v != C.Actor(s) ==> d.nodes[v] == c.nodes[v]
  {
    if s.ReceiveAppendAnswer? || s.ReceiveSnapshotAnswer? {
      assert AnswerNoted(c, d, s);
    }
  }

  lemma ActorAdvances(c: C.Cluster, s: C.Step)
    requires C.Enabled(c, s) && !s.Crash?
    ensures var v := C.Actor(s); v in C.Do(c, s).nodes && C.Do(c, s).nodes[v].lastApplied == AppliedAfter(c.nodes[v], s, v)
  {
    hide BecomeCandidate, HandleVoteRequest, HandleVoteReply, HandleAppend, HandleAppendReply, AppendRequestFor,
      HandleChunk, InstallSnapshot, HandleSnapshotReply, SnapshotRequestFor, BecomeFollower, Propose, MaybeSnapshot, Applied, StartCampaign, EntryAt;
    var n := c.nodes[C.Actor(s)];
    match s
    case Timeout(v) => VotesKeep(n, v, VoteRequest(0, v, 0, 0, false), VoteReply(0, false), false);
    case TimeoutNow(v, _) => VotesKeep(n, v, VoteRequest(0, v, 0, 0, false), VoteReply(0, false), false);
    case ReceiveVoteAsk(p, inLease) => VotesKeep(n, n.id, p.vote, VoteReply(0, false), inLease);
    case ReceiveVoteAnswer(p) => VotesKeep(n, p.from, p.vote, p.voteReply, false);
    case ClientWrite(v, op, username, request) => ProposeKeeps(n, Run(op), username, request);
    case AddMember(v, u) => ProposeKeeps(n, Config(n.members + {u}), "", None);
    case RemoveMember(v, u) => ProposeKeeps(n, Config(n.members - {u}), "", None);
    case ReceiveAppend(p) => AppendKeeps(n, p.append);
    case ReceiveAppendAnswer(p) =>
      RepliesKeep(n, p.from, p.number, p.append, p.appendReply, SnapshotRequest(0, n.id, 0, 0, {}, false), SnapshotReply(0, false));
    case ReceiveChunk(p, inOrder) => ChunkKeeps(n, p.snapshot, inOrder);
    case FinishInstall(task) => InstallAdvances(n, task.request);
    case ReceiveSnapshotAnswer(p) =>
      RepliesKeep(n, p.from, p.number, AppendRequest(0, n.id, 0, 0, [], 0), AppendReply(0, false, 0, 0), p.snapshot, p.snapshotReply);
    case StepDown(v, t) => FollowerKeeps(n, t);
    case Apply(v, threshold) => ApplyAdvances(n, ApplyEntry(n), threshold);
    case _ =>
  }

  lemma FollowerKeeps(n: Node, t: nat)
    ensures BecomeFollower(n, t).lastApplied == n.lastApplied
  {
  }
}
