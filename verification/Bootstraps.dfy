// Where no node starts without a membership, none ever loses it: then every leader that
// adds a member knows the members there are.
module Bootstraps {
  import opened Types
  import opened Logs
  import opened Nodes
  import opened Following
  import opened ClusterInvariant
  import C = Clusters

  ghost predicate Named(entries: seq<Entry>) {
    forall e :: e in entries && e.command.Config? ==> e.command.members != {}
  }

  // The node, its snapshot and every CONFIG in its log name some member.
  ghost predicate NodeNamed(n: Node) {
    n.members != {} && n.snapConfig != {} && Named(n.log)
  }

  ghost predicate PacketNamed(p: C.Packet) {
    && (p.AppendAsk? ==> Named(p.append.entries))
    && (p.SnapshotAsk? ==> p.snapshot.config != {})
  }

  ghost predicate AllNamed(c: C.Cluster) {
    && (forall v :: v in c.nodes ==> NodeNamed(c.nodes[v]))
    && (forall p :: p in c.net ==> PacketNamed(p))
    && (forall t: C.Task :: t in c.tasks ==> t.request.config != {})
  }

  // ------------------------------------------------------------ Log changes

  lemma LatestNamed(n: Node)
    requires n.snapConfig != {} && Named(n.log)
    ensures NodeNamed(Refresh(n))
  {
    hide NewestConfig;
    var j := NewestConfig(n.log);
    assert j > 0 ==> n.log[j - 1] in n.log;
  }

  lemma {:induction false} UpToNamed(l: seq<Entry>, i: nat, c: set<NodeId>)
    requires Named(l) && c != {}
    ensures ConfigUpTo(l, i, c) != {}
  {
    if l != [] {
      assert l[|l| - 1] in l;
      assert Named(l[..|l| - 1]);
      UpToNamed(l[..|l| - 1], i, c);
    }
  }

  lemma AppendNamed(n: Node, entries: seq<Entry>)
    requires NodeNamed(n) && Named(entries)
    ensures NodeNamed(AppendLocal(n, entries))
  {
    hide Refresh;
    LatestNamed(n.(log := n.log + entries));
  }

  lemma TruncateNamed(n: Node, i: nat)
    requires NodeNamed(n) && n.snapIndex < i <= LastIndex(n) + 1
    ensures NodeNamed(TruncateLocal(n, i))
  {
    hide Refresh;
    LatestNamed(n.(log := n.log[..i - n.snapIndex - 1]));
  }

  lemma CompactNamed(n: Node, i: nat, t: nat, config: set<NodeId>)
    requires NodeNamed(n) && i >= n.snapIndex && config != {}
    ensures NodeNamed(CompactThrough(n, i, t, config))
  {
  }

  // Fields that name nobody may change.
  lemma StaysNamed(n: Node, m: Node)
    requires NodeNamed(n) && m.log == n.log && m.members == n.members && m.snapConfig == n.snapConfig
    ensures NodeNamed(m)
  {
  }

  // ------------------------------------------------------------ Handlers

  lemma AdvanceNamed(n: Node)
    requires NodeNamed(n)
    ensures NodeNamed(AdvanceCommit(n))
  {
    hide CommitScan;
    StaysNamed(n, AdvanceCommit(n));
  }

  lemma ProposeNamed(n: Node, c: Command, username: string, request: Option<RequestId>)
    requires NodeNamed(n) && (c.Config? ==> c.members != {})
    ensures NodeNamed(Propose(n, c, username, request))
  {
    hide AppendLocal, AdvanceCommit, NodeNamed;
    var e := Entry(n.term, LastIndex(n) + 1, c, username, request);
    assert Named([e]);
    AppendNamed(n, [e]);
    AdvanceNamed(AppendLocal(n, [e]));
  }

  lemma LeaderNamed(n: Node)
    requires NodeNamed(n)
    ensures NodeNamed(BecomeLeader(n))
  {
    hide AppendLocal, AdvanceCommit;
    var next, peers := LastIndex(n) + 1, n.members - {n.id};
    var m := n.(role := Leader, leaderId := Some(n.id), generation := n.generation + 1,
                nextIndex := map p | p in peers :: next, matchIndex := map p | p in peers :: 0,
                lastAck := map[], termStart := next);
    var e := Entry(n.term, next, Noop, "", None);
    assert Named([e]);
    AppendNamed(m, [e]);
    AdvanceNamed(TakeOffice(n));
  }

  lemma CandidateNamed(n: Node)
    requires NodeNamed(n)
    ensures NodeNamed(BecomeCandidate(n))
  {
    hide BecomeLeader, Elected;
    LeaderNamed(StartCampaign(n));
  }

  lemma VoteNamed(n: Node, req: VoteRequest, inLease: bool)
    requires NodeNamed(n)
    ensures NodeNamed(HandleVoteRequest(n, req, inLease).0)
  {
    hide Named;
  }

  lemma VoteReplyNamed(n: Node, from: NodeId, req: VoteRequest, reply: VoteReply)
    requires NodeNamed(n)
    ensures NodeNamed(HandleVoteReply(n, from, req, reply))
  {
    hide BecomeLeader, Elected, Named;
    LeaderNamed(n.(votes := n.votes + {from}));
  }

  lemma MergeNamed(n: Node, entries: seq<Entry>)
    requires NodeNamed(n) && Named(entries)
    ensures NodeNamed(Merge(n, entries))
  {
    hide Known, NodeTermAt, AppendLocal, TruncateLocal, NodeNamed;
    var k := Known(n, entries);
    if k < |entries| {
      var e := entries[k];
      assert Named(entries[k..]);
      if NodeTermAt(n, e.index).Some? && e.index > n.snapIndex {
        InsideLog(n, e.index);
        TruncateNamed(n, e.index);
        AppendNamed(TruncateLocal(n, e.index), entries[k..]);
      } else {
        AppendNamed(n, entries[k..]);
      }
    }
  }

  lemma InsideLog(n: Node, i: nat)
    requires NodeTermAt(n, i).Some?
    ensures i <= LastIndex(n)
  {
  }

  lemma HandleAppendNamed(n: Node, req: AppendRequest)
    requires NodeNamed(n) && Named(req.entries)
    ensures NodeNamed(HandleAppend(n, req).0)
  {
    hide Merge, NodeTermAt, FirstOfTerm, AcceptLeader, NodeNamed;
    if req.term >= n.term {
      var m := AcceptLeader(n, req.term, req.leader);
      AcceptNamed(n, req.term, req.leader);
      var entries := Trimmed(m, req).2;
      assert forall e :: e in entries ==> e in req.entries;
      MergeNamed(m, entries);
      MergeShape(m, entries);
      StaysNamed(Merge(m, entries), HandleAppend(n, req).0.(log := Merge(m, entries).log, members := Merge(m, entries).members, snapConfig := Merge(m, entries).snapConfig));
      HandledIsMerged(n, req);
    }
  }

  // The log and membership after the handler are those of the merge, or of the node.
  lemma HandledIsMerged(n: Node, req: AppendRequest)
    requires req.term >= n.term
    ensures var m := AcceptLeader(n, req.term, req.leader);
      var r, a := Merge(m, Trimmed(m, req).2), HandleAppend(n, req).0;
      (a.log == r.log && a.members == r.members && a.snapConfig == r.snapConfig)
      || (a.log == m.log && a.members == m.members && a.snapConfig == m.snapConfig)
    ensures var m := AcceptLeader(n, req.term, req.leader);
      var a := HandleAppend(n, req).0;
      NodeNamed(m) && NodeNamed(Merge(m, Trimmed(m, req).2)) ==> NodeNamed(a)
  {
    hide Merge, NodeTermAt, FirstOfTerm, AcceptLeader, Trimmed, Named;
  }

  lemma AcceptNamed(n: Node, t: nat, leader: NodeId)
    requires NodeNamed(n)
    ensures NodeNamed(AcceptLeader(n, t, leader))
  {
    hide Named;
  }

  lemma FollowerNamed(n: Node, t: nat)
    requires NodeNamed(n)
    ensures NodeNamed(BecomeFollower(n, t))
  {
    hide Named;
  }

  lemma NoteMatchNamed(n: Node, from: NodeId, k: nat)
    requires NodeNamed(n)
    ensures NodeNamed(NoteMatch(n, from, k))
  {
    hide CommitScan, Named;
  }

  lemma AppendReplyNamed(n: Node, from: NodeId, number: nat, req: AppendRequest, reply: AppendReply)
    requires NodeNamed(n)
    ensures NodeNamed(HandleAppendReply(n, from, number, req, reply))
  {
    hide NoteMatch, BackOff, BecomeFollower, Named;
    FollowerNamed(n, reply.term);
    NoteMatchNamed(NoteContact(n, from, number), from, Max(req.prevIndex + |req.entries|, reply.matchIndex));
  }

  lemma SnapshotReplyNamed(n: Node, from: NodeId, number: nat, req: SnapshotRequest, reply: SnapshotReply)
    requires NodeNamed(n)
    ensures NodeNamed(HandleSnapshotReply(n, from, number, req, reply))
  {
    hide NoteMatch, BecomeFollower, Named;
    FollowerNamed(n, reply.term);
    NoteMatchNamed(NoteContact(n, from, number), from, req.index);
  }

  lemma ChunkNamed(n: Node, req: SnapshotRequest, inOrder: bool)
    requires NodeNamed(n)
    ensures NodeNamed(HandleChunk(n, req, inOrder).0)
  {
    hide AcceptLeader, NodeNamed;
    AcceptNamed(n, req.term, req.leader);
  }

  lemma InstallNamed(n: Node, req: SnapshotRequest)
    requires NodeNamed(n) && n.snapIndex <= n.lastApplied && req.config != {}
    ensures NodeNamed(InstallSnapshot(n, req).0)
  {
    hide CompactThrough, Refresh;
    if req.index > n.lastApplied {
      var m := CompactThrough(n, req.index, req.lastTerm, req.config);
      CompactNamed(n, req.index, req.lastTerm, req.config);
      LatestNamed(m.(commitIndex := Max(n.commitIndex, req.index), lastApplied := Max(n.lastApplied, req.index)));
    }
  }

  lemma ApplyNamed(n: Node, e: Entry, threshold: nat)
    requires NodeNamed(n) && n.snapIndex <= n.lastApplied < n.commitIndex <= LastIndex(n)
    ensures NodeNamed(MaybeSnapshot(Applied(n, e), threshold))
  {
    hide ConfigAt, CompactThrough;
    var m := Applied(n, e);
    StaysNamed(n, m);
    ConfigNamed(m, m.lastApplied);
    if threshold != 0 && m.lastApplied - m.snapIndex >= threshold {
      CompactNamed(m, m.lastApplied, NodeTermAt(m, m.lastApplied).value, ConfigAt(m, m.lastApplied));
    }
  }

  lemma ConfigNamed(n: Node, i: nat)
    requires NodeNamed(n)
    ensures ConfigAt(n, i) != {}
  {
    UpToNamed(n.log, i, n.snapConfig);
  }

  lemma RestartNamed(n: Node)
    requires NodeNamed(n)
    ensures NodeNamed(Restart(n, n.snapIndex))
  {
    hide Refresh;
    var done := Max(n.snapIndex, n.snapIndex);
    LatestNamed(n.(role := Follower, leaderId := None, commitIndex := done, lastApplied := done,
               nextIndex := map[], matchIndex := map[], termStart := 0, sendSeq := 0, lastAck := map[],
               votes := {}, generation := 0));
  }

  lemma RequestNamed(n: Node, u: NodeId)
    requires NodeNamed(n) && u in n.nextIndex && n.snapIndex < n.nextIndex[u] <= LastIndex(n) + 1
    ensures AppendRequestFor(n, u).Some? && Named(AppendRequestFor(n, u).value.entries)
  {
    assert forall e :: e in EntriesFrom(n, n.nextIndex[u], MAX_ENTRIES_PER_RPC) ==> e in n.log;
  }

  // ------------------------------------------------------------ Steps and runs

  lemma StepNamed(c: C.Cluster, s: C.Step)
    requires AllNamed(c) && C.Enabled(c, s)
    ensures AllNamed(C.Do(c, s))
  {
    hide NodeNamed, BecomeCandidate, HandleVoteRequest, HandleVoteReply, HandleAppend, HandleAppendReply, AppendRequestFor,
      HandleChunk, InstallSnapshot, HandleSnapshotReply, SnapshotRequestFor, BecomeFollower, Propose, MaybeSnapshot, Applied,
      StartCampaign, EntryAt, Restart, Named;
    assert NodeNamed(c.nodes[C.Actor(s)]);
    match s
    case Timeout(v) => CandidateNamed(c.nodes[v]);
    case TimeoutNow(v, _) => CandidateNamed(c.nodes[v]);
    case ReceiveVoteAsk(p, inLease) => VoteNamed(c.nodes[p.to], p.vote, inLease);
    case ReceiveVoteAnswer(p) => VoteReplyNamed(c.nodes[C.Receiver(p)], p.from, p.vote, p.voteReply);
    case ClientWrite(v, op, username, request) => ProposeNamed(c.nodes[v], Run(op), username, request);
    case AddMember(v, u) =>
      assert u in c.nodes[v].members + {u};
      ProposeNamed(c.nodes[v], Config(c.nodes[v].members + {u}), "", None);
    case RemoveMember(v, u) =>
      SomeoneStays(c.nodes[v].members, u);
      ProposeNamed(c.nodes[v], Config(c.nodes[v].members - {u}), "", None);
    case StartReplicator(v, u) =>
      var n := c.nodes[v];
      StaysNamed(n, n.(nextIndex := n.nextIndex[u := LastIndex(n) + 1], matchIndex := n.matchIndex[u := 0]));
    case SendEntries(v, u) =>
      StaysNamed(c.nodes[v], c.nodes[v].(sendSeq := c.nodes[v].sendSeq + 1));
      RequestNamed(c.nodes[v], u);
    case ReceiveAppend(p) => HandleAppendNamed(c.nodes[p.to], p.append);
    case ReceiveAppendAnswer(p) => AppendReplyNamed(c.nodes[C.Receiver(p)], p.from, p.number, p.append, p.appendReply);
    case SendSnapshot(v, u, done) =>
      StaysNamed(c.nodes[v], c.nodes[v].(sendSeq := c.nodes[v].sendSeq + 1));
      SnapshotNamed(c.nodes[v], done);
    case ReceiveChunk(p, inOrder) => ChunkNamed(c.nodes[p.to], p.snapshot, inOrder);
    case FinishInstall(task) => InstallNamed(c.nodes[task.node], task.request);
    case ReceiveSnapshotAnswer(p) => SnapshotReplyNamed(c.nodes[C.Receiver(p)], p.from, p.number, p.snapshot, p.snapshotReply);
    case StepDown(v, t) => FollowerNamed(c.nodes[v], t);
    case Apply(v, threshold) => ApplyNamed(c.nodes[v], ApplyEntry(c.nodes[v]), threshold);
    case Crash(v) => RestartNamed(c.nodes[v]);
  }

  lemma SnapshotNamed(n: Node, done: bool)
    requires NodeNamed(n) && n.snapIndex <= n.lastApplied <= LastIndex(n)
    ensures SnapshotRequestFor(n, done).config != {}
  {
    ConfigNamed(n, n.lastApplied);
  }

  lemma SomeoneStays(members: set<NodeId>, u: NodeId)
    requires u in members && |members| != 1
    ensures members - {u} != {}
  {
    assert members - {u} == {} ==> members == {u};
  }

  lemma {:induction false} RunNamed(cs: seq<C.Cluster>, steps: seq<C.Step>, base: set<NodeId>, i: nat)
    requires C.IsRun(cs, steps, base) && i < |cs|
    requires forall v :: v in cs[0].nodes ==> cs[0].nodes[v].snapConfig != {}
    ensures AllNamed(cs[i])
    decreases i
  {
    hide AllNamed, C.Do, C.Enabled;
    if i == 0 {
      StartNamed(cs[0], base);
    } else {
      RunNamed(cs, steps, base, i - 1);
      assert C.Enabled(cs[i - 1], steps[i - 1]) && cs[i - 1 + 1] == C.Do(cs[i - 1], steps[i - 1]);
      StepNamed(cs[i - 1], steps[i - 1]);
    }
  }

  lemma StartNamed(c: C.Cluster, base: set<NodeId>)
    requires C.Init(c, base) && forall v :: v in c.nodes ==> c.nodes[v].snapConfig != {}
    ensures AllNamed(c)
  {
    hide NewestConfig;
    forall v | v in c.nodes
      ensures NodeNamed(c.nodes[v])
    {
      LatestNamed(c.nodes[v]);
      RestartNamesLatest(c.nodes[v]);
    }
  }

  lemma RestartNamesLatest(n: Node)
    requires n == Restart(n, 0) && n.log == [] && n.snapConfig != {}
    ensures n.members == n.snapConfig
  {
  }

  // The condition on add_member never binds in a cluster where every node was started
  // with the bootstrap membership, whatever members are added and removed later.
  lemma BootstrappedRunsKnow(cs: seq<C.Cluster>, steps: seq<C.Step>, base: set<NodeId>)
    requires |cs| > 0 && forall v :: v in cs[0].nodes ==> cs[0].nodes[v].snapConfig != {}
    requires C.IsRun(cs, steps, base)
    ensures C.IsKnowingRun(cs, steps, base)
  {
    hide C.IsRun, AllNamed;
    RunLength(cs, steps, base);
    forall i | 0 <= i < |steps|
      ensures C.AddsKnowing(cs[i], steps[i])
    {
      RunNamed(cs, steps, base, i);
      NamedKnows(cs[i], steps[i]);
    }
    KnowingFrom(cs, steps, base);
  }

  lemma RunLength(cs: seq<C.Cluster>, steps: seq<C.Step>, base: set<NodeId>)
    requires C.IsRun(cs, steps, base)
    ensures |cs| == |steps| + 1
  {
  }

  lemma NamedKnows(c: C.Cluster, s: C.Step)
    requires AllNamed(c)
    ensures C.AddsKnowing(c, s)
  {
    hide PacketNamed;
  }

  lemma KnowingFrom(cs: seq<C.Cluster>, steps: seq<C.Step>, base: set<NodeId>)
    requires C.IsRun(cs, steps, base) && |cs| == |steps| + 1
    requires forall i :: 0 <= i < |steps| ==> C.AddsKnowing(cs[i], steps[i])
    ensures C.IsKnowingRun(cs, steps, base)
  {
    hide C.IsRun;
  }
}
