// What the steps of the cluster leave in the network: every request is answered under its
// own number, and every request carries a number of its own.
module StepEffects {
  import opened Types
  import opened Nodes
  import opened StepShapes
  import C = Clusters

  // Nothing is lost from the network, and only the actor moves.
  lemma OnlyActorMoves(c: C.Cluster, s: C.Step)
    requires C.Enabled(c, s) && !s.Crash? && forall v :: v in c.nodes ==> c.nodes[v].id == v
    ensures var d := C.Do(c, s);
      && c.net <= d.net && d.nodes.Keys == c.nodes.Keys
      && forall v :: v in c.nodes && v != C.Actor(s) ==> d.nodes[v] == c.nodes[v]
  {
    hide C.Do, C.Enabled, Forward, AnswerNoted;
    StepShape(c, s);
  }

  // A vote request, an AppendEntries and an early chunk are answered at once, to the
  // one who asked, with the request they answer.
  lemma RequestsAreAnswered(c: C.Cluster, p: C.Packet, inLease: bool, inOrder: bool)
    requires p in c.net && C.Receiver(p) in c.nodes
    ensures p.VoteAsk? ==>
      && C.Enabled(c, C.ReceiveVoteAsk(p, inLease))
      && C.VoteAnswer(p.to, p.vote, HandleVoteRequest(c.nodes[p.to], p.vote, inLease).1) in C.Do(c, C.ReceiveVoteAsk(p, inLease)).net
    ensures p.AppendAsk? ==>
      && C.Enabled(c, C.ReceiveAppend(p))
      && C.AppendAnswer(p.to, p.number, p.append, HandleAppend(c.nodes[p.to], p.append).1) in C.Do(c, C.ReceiveAppend(p)).net
    ensures p.SnapshotAsk? ==> C.Enabled(c, C.ReceiveChunk(p, inOrder)) && ChunkHandled(c, C.Do(c, C.ReceiveChunk(p, inOrder)), p, inOrder)
  {
    hide HandleVoteRequest, HandleAppend, HandleChunk;
  }

  // The chunk is answered, or the file is complete and waits for the state machine.
  ghost predicate ChunkHandled(c: C.Cluster, d: C.Cluster, p: C.Packet, inOrder: bool)
    requires p.SnapshotAsk? && p.to in c.nodes
  {
    match HandleChunk(c.nodes[p.to], p.snapshot, inOrder).1
    case Answer(reply) => C.SnapshotAnswer(p.to, p.number, p.snapshot, reply) in d.net && d.tasks == c.tasks
    case FileComplete => C.Task(p.to, p.number, p.snapshot) in d.tasks && d.net == c.net
  }

  // A complete file is installed once, and its sender gets the success under the number
  // of the last chunk.
  lemma InstallIsAnswered(c: C.Cluster, task: C.Task)
    requires C.Enabled(c, C.FinishInstall(task))
    ensures var d := C.Do(c, C.FinishInstall(task));
      && task.node in c.nodes && d.tasks == c.tasks - {task}
      && C.SnapshotAnswer(task.node, task.number, task.request, SnapshotReply(c.nodes[task.node].term, true)) in d.net
  {
    hide CompactThrough, Refresh;
  }

  // A request for entries, or a snapshot, goes out under the next number, to the peer it
  // is meant for; the leader is otherwise as it was.
  lemma RequestsAreNumbered(c: C.Cluster, v: NodeId, u: NodeId, done: bool)
    ensures C.Enabled(c, C.SendEntries(v, u)) ==>
      var n, d := c.nodes[v], C.Do(c, C.SendEntries(v, u));
      && d.nodes == c.nodes[v := n.(sendSeq := n.sendSeq + 1)] && AppendRequestFor(n, u).Some?
      && d.net == c.net + {C.AppendAsk(u, n.sendSeq + 1, AppendRequestFor(n, u).value)}
    ensures C.Enabled(c, C.SendSnapshot(v, u, done)) ==>
      var n, d := c.nodes[v], C.Do(c, C.SendSnapshot(v, u, done));
      && d.nodes == c.nodes[v := n.(sendSeq := n.sendSeq + 1)]
      && d.net == c.net + {C.SnapshotAsk(u, n.sendSeq + 1, SnapshotRequestFor(n, done))}
  {
    hide EntriesFrom, ConfigAt, NodeTermAt;
  }

  // A new peer is asked from the end of the log on, and is not taken to have anything.
  lemma NewPeerStartsAtEnd(c: C.Cluster, v: NodeId, u: NodeId)
    requires C.Enabled(c, C.StartReplicator(v, u))
    ensures var n, m := c.nodes[v], C.Do(c, C.StartReplicator(v, u)).nodes[v];
      && Lookup(m.nextIndex, u) == LastIndex(n) + 1 && Lookup(m.matchIndex, u) == 0 && m.role.Leader? && m.log == n.log
      && forall p :: p != u ==> Lookup(m.nextIndex, p) == Lookup(n.nextIndex, p) && Lookup(m.matchIndex, p) == Lookup(n.matchIndex, p)
  {
  }

  // Lost contact, or a later term seen elsewhere, makes a follower.
  lemma StepDownFollows(c: C.Cluster, v: NodeId, t: nat)
    requires C.Enabled(c, C.StepDown(v, t))
    ensures var n, m := c.nodes[v], C.Do(c, C.StepDown(v, t)).nodes[v];
      && m.role.Follower? && m.term == t && m.log == n.log && m.generation > n.generation
      && (t > n.term ==> m.votedFor == None) && (t == n.term ==> m.votedFor == n.votedFor)
      && (n.role.Leader? || t > n.term ==> m.leaderId == None)
  {
  }

  // Only the process that crashes loses its files and its role; it comes back with what
  // it stored.
  lemma CrashLosesOnlyItsOwn(c: C.Cluster, v: NodeId)
    requires C.Enabled(c, C.Crash(v))
    ensures var n, d := c.nodes[v], C.Do(c, C.Crash(v));
      && d.net == c.net && d.nodes.Keys == c.nodes.Keys
      && (forall u :: u in c.nodes && u != v ==> d.nodes[u] == c.nodes[u])
      && (forall t: C.Task :: t in d.tasks <==> t in c.tasks && t.node != v)
      && var m := d.nodes[v];
      && m.role.Follower? && m.leaderId == None && m.commitIndex == m.lastApplied == m.snapIndex
      && m.id == n.id && m.term == n.term && m.votedFor == n.votedFor && m.log == n.log
      && m.snapIndex == n.snapIndex && m.snapTerm == n.snapTerm && m.snapConfig == n.snapConfig
  {
    hide LatestConfig;
  }
}
