// What leader and follower tell each other about the log, and what the leader makes of
// it: exact outcomes on whole logs, and that nothing that could be committed is left.
module Replication {
  import opened Types
  import opened Logs
  import opened Histories
  import opened Nodes
  import opened Compaction
  import opened Tracking
  import opened Leading
  import opened Worlds
  import opened ClusterInvariant
  import opened RaftSafety
  import opened Progress
  import C = Clusters

  // ------------------------------------------------------------ Commits

  // Above the commit index no entry of the leader's own term is held by a majority.
  ghost predicate AllCommitted(n: Node) {
    forall i: nat :: n.commitIndex < i <= LastIndex(n) && NodeTermAt(n, i) == Some(n.term) ==> |Replicas(n, i)| < Majority(n)
  }

  // Terms never decrease along the log, nor exceed the node's.
  ghost predicate TermsRise(n: Node) {
    forall i: nat, j: nat :: n.snapIndex <= i <= j <= LastIndex(n) ==>
      NodeTermAt(n, i).Some? && NodeTermAt(n, j).Some? && NodeTermAt(n, i).value <= NodeTermAt(n, j).value <= n.term
  }

  lemma {:induction false} ScanIsMaximal(n: Node, i: nat)
    requires TermsRise(n) && n.snapIndex <= n.commitIndex && i <= LastIndex(n)
    ensures forall k: nat :: CommitScan(n, i) < k <= i && NodeTermAt(n, k) == Some(n.term) ==> |Replicas(n, k)| < Majority(n)
    decreases i
  {
    hide NodeTermAt, Replicas, Majority;
    if i > n.commitIndex {
      if NodeTermAt(n, i) != Some(n.term) {
        forall k: nat | n.commitIndex < k <= i
          ensures NodeTermAt(n, k) != Some(n.term)
        {
          assert NodeTermAt(n, k).value <= NodeTermAt(n, i).value;
        }
      } else if |Replicas(n, i)| < Majority(n) {
        ScanIsMaximal(n, i - 1);
      }
    }
  }

  // A leader that looks at the progress of its peers commits all it may: the index it
  // ends on is the highest of its own term that a majority holds, if there is a new one.
  lemma CommitsAllItMay(n: Node)
    requires n.role.Leader? && TermsRise(n) && n.snapIndex <= n.commitIndex <= LastIndex(n)
    ensures AllCommitted(AdvanceCommit(n))
    ensures var c := AdvanceCommit(n).commitIndex;
      c == n.commitIndex || (n.commitIndex < c <= LastIndex(n) && NodeTermAt(n, c) == Some(n.term) && |Replicas(n, c)| >= Majority(n))
  {
    ScanIsMaximal(n, LastIndex(n));
    ScanEnds(n, LastIndex(n));
    var m := AdvanceCommit(n);
    assert forall i: nat :: Replicas(m, i) == Replicas(n, i);
  }

  lemma {:induction false} ScanEnds(n: Node, i: nat)
    requires i <= LastIndex(n)
    ensures var c := CommitScan(n, i); c == n.commitIndex || (n.commitIndex < c <= i && NodeTermAt(n, c) == Some(n.term) && |Replicas(n, c)| >= Majority(n))
    decreases i
  {
    if i > n.commitIndex && NodeTermAt(n, i) == Some(n.term) && |Replicas(n, i)| < Majority(n) {
      ScanEnds(n, i - 1);
    }
  }

  // Every node of a run has such terms.
  lemma TrackedTermsRise(w: World, n: Node)
    requires Good(w) && Tracks(w, n)
    ensures TermsRise(n) && n.snapIndex <= n.commitIndex <= LastIndex(n)
  {
    hide Good, Represents, Stores, CommitTracked, CampaignTracked, LeadTracked, VoteTracked;
    var l := w.replicas[n.id].log;
    RepresentsStores(w.history.base, n, l);
    Queries(w.history.base, n, l);
    ReplicaTerms(w, n.id);
    ProgressOrdered(w, n);
    forall i: nat, j: nat | n.snapIndex <= i <= j <= LastIndex(n)
      ensures NodeTermAt(n, i).Some? && NodeTermAt(n, j).Some? && NodeTermAt(n, i).value <= NodeTermAt(n, j).value <= n.term
    {
      TermsOrdered(l, i, j, n.term);
    }
  }

  lemma ReplicaTerms(w: World, v: NodeId)
    requires Good(w) && v in w.replicas
    ensures WellFormed(w.replicas[v].log) && TermsBelow(w.replicas[v].log, w.replicas[v].term + 1)
  {
    hide Sound, AcksHeld, LeadersInStep;
    ReplicaWellFormed(w, v);
  }

  lemma TermsOrdered(l: Log, i: nat, j: nat, t: nat)
    requires WellFormed(l) && TermsBelow(l, t + 1) && i <= j <= |l|
    ensures TermAt(l, i) <= TermAt(l, j) <= t
  {
  }

  // The step makes a leader, or gives a leader an entry or a success to count.
  predicate GivesToCount(n: Node, s: C.Step) {
    match s
    case ClientWrite(_, _, _, _) => true
    case AddMember(_, _) => true
    case RemoveMember(_, _) => true
    case Timeout(_) => true
    case TimeoutNow(_, _) => true
    case ReceiveVoteAnswer(_) => !n.role.Leader?
    case ReceiveAppendAnswer(p) => p.AppendAnswer? && p.append.term == n.term && p.appendReply.success
    case ReceiveSnapshotAnswer(p) => p.SnapshotAnswer? && p.snapshot.term == n.term && p.snapshotReply.success && p.snapshot.done
    case _ => false
  }

  // The node has just looked at the progress of its peers.
  ghost predicate JustAdvanced(m: Node) {
    exists b: Node :: m == AdvanceCommit(b) && b.role.Leader? && b.snapIndex <= b.commitIndex <= LastIndex(b)
  }

  lemma AdvancedAll(m: Node)
    requires JustAdvanced(m) && TermsRise(m)
    ensures AllCommitted(m)
  {
    hide CommitScan, NodeTermAt, Replicas;
    var b: Node :| m == AdvanceCommit(b) && b.role.Leader? && b.snapIndex <= b.commitIndex <= LastIndex(b);
    SameTerms(b, m);
    CommitsAllItMay(b);
  }

  lemma SameTerms(b: Node, m: Node)
    requires m.log == b.log && m.snapIndex == b.snapIndex && m.snapTerm == b.snapTerm && m.term == b.term && TermsRise(m)
    ensures TermsRise(b)
  {
    forall i: nat, j: nat | b.snapIndex <= i <= j <= LastIndex(b)
      ensures NodeTermAt(b, i).Some? && NodeTermAt(b, j).Some? && NodeTermAt(b, i).value <= NodeTermAt(b, j).value <= b.term
    {
      assert NodeTermAt(m, i) == NodeTermAt(b, i) && NodeTermAt(m, j) == NodeTermAt(b, j);
    }
  }

  lemma OfficeAdvances(n: Node)
    requires n.snapIndex <= n.commitIndex <= LastIndex(n)
    ensures JustAdvanced(BecomeLeader(n))
  {
    hide CommitScan;
    var b := TakeOffice(n);
    assert b.log == n.log + [Entry(n.term, LastIndex(n) + 1, Noop, "", None)];
    assert JustAdvanced(AdvanceCommit(b));
  }

  lemma ProposeAdvances(n: Node, c: Command, username: string, request: Option<RequestId>)
    requires n.role.Leader? && n.snapIndex <= n.commitIndex <= LastIndex(n)
    ensures JustAdvanced(Propose(n, c, username, request))
  {
    hide AdvanceCommit, AppendLocal;
    var b := AppendLocal(n, [Entry(n.term, LastIndex(n) + 1, c, username, request)]);
    AppendGrows(n, [Entry(n.term, LastIndex(n) + 1, c, username, request)]);
    assert JustAdvanced(AdvanceCommit(b));
  }

  lemma AppendGrows(n: Node, entries: seq<Entry>)
    ensures var b := AppendLocal(n, entries);
      b.role == n.role && b.snapIndex == n.snapIndex && b.commitIndex == n.commitIndex && LastIndex(b) == LastIndex(n) + |entries|
  {
    hide LatestConfig;
  }

  lemma MatchAdvances(n: Node, from: NodeId, k: nat)
    requires n.role.Leader? && n.snapIndex <= n.commitIndex <= LastIndex(n)
    ensures JustAdvanced(NoteMatch(n, from, k))
  {
    hide CommitScan;
    var j := Max(Lookup(n.matchIndex, from), k);
    var b := n.(matchIndex := n.matchIndex[from := j], nextIndex := n.nextIndex[from := j + 1]);
    assert JustAdvanced(AdvanceCommit(b));
  }

  lemma StepAdvancesCommit(c: C.Cluster, s: C.Step)
    requires C.Enabled(c, s) && GivesToCount(c.nodes[C.Actor(s)], s)
    requires var n := c.nodes[C.Actor(s)]; n.snapIndex <= n.commitIndex <= LastIndex(n)
    ensures C.Actor(s) in C.Do(c, s).nodes
    ensures C.Do(c, s).nodes[C.Actor(s)].role.Leader? ==> JustAdvanced(C.Do(c, s).nodes[C.Actor(s)])
  {
    hide JustAdvanced, BecomeLeader, NoteMatch, Propose, BecomeFollower, Elected, LastIndex;
    var n := c.nodes[C.Actor(s)];
    FollowersFollow(n);
    match s
    case ClientWrite(_, op, username, request) => ProposeAdvances(n, Run(op), username, request);
    case AddMember(_, u) => ProposeAdvances(n, Config(n.members + {u}), "", None);
    case RemoveMember(_, u) => ProposeAdvances(n, Config(n.members - {u}), "", None);
    case Timeout(_) => StandingOffice(n);
    case TimeoutNow(_, _) => StandingOffice(n);
    case ReceiveVoteAnswer(p) => CountingOffice(n, p.from);
    case ReceiveAppendAnswer(p) => ContactMatch(n, p.from, p.number, Max(p.append.prevIndex + |p.append.entries|, p.appendReply.matchIndex));
    case ReceiveSnapshotAnswer(p) => ContactMatch(n, p.from, p.number, p.snapshot.index);
    case _ =>
  }

  lemma FollowersFollow(n: Node)
    ensures forall t :: !BecomeFollower(n, t).role.Leader?
  {
  }

  lemma StandingOffice(n: Node)
    requires n.snapIndex <= n.commitIndex <= LastIndex(n)
    ensures JustAdvanced(BecomeLeader(StartCampaign(n))) && !StartCampaign(n).role.Leader?
  {
    OfficeAdvances(StartCampaign(n));
  }

  lemma CountingOffice(n: Node, from: NodeId)
    requires n.snapIndex <= n.commitIndex <= LastIndex(n)
    ensures JustAdvanced(BecomeLeader(n.(votes := n.votes + {from})))
  {
    OfficeAdvances(n.(votes := n.votes + {from}));
  }

  lemma ContactMatch(n: Node, from: NodeId, number: nat, k: nat)
    requires n.snapIndex <= n.commitIndex <= LastIndex(n)
    ensures n.role.Leader? ==> JustAdvanced(NoteMatch(NoteContact(n, from, number), from, k))
    ensures NoteContact(n, from, number).role == n.role
  {
    if n.role.Leader? {
      MatchAdvances(NoteContact(n, from, number), from, k);
    }
  }

  // In every run, after every step that gives a leader something to count, no entry of
  // its term that a majority holds is left uncommitted.
  lemma NothingIsLeftUncommitted(cs: seq<C.Cluster>, steps: seq<C.Step>, base: set<NodeId>, i: nat)
    requires C.IsKnowingRun(cs, steps, base) && i < |steps| && i + 1 < |cs| && C.Actor(steps[i]) in cs[i].nodes
    requires GivesToCount(cs[i].nodes[C.Actor(steps[i])], steps[i])
    ensures C.Actor(steps[i]) in cs[i + 1].nodes
    ensures cs[i + 1].nodes[C.Actor(steps[i])].role.Leader? ==> AllCommitted(cs[i + 1].nodes[C.Actor(steps[i])])
  {
    var v := C.Actor(steps[i]);
    StepOf(cs, steps, base, i);
    hide C.IsKnowingRun, Explains, Good, Tracks, TermsRise, AllCommitted, JustAdvanced, C.Do, C.Enabled, GivesToCount;
    var ws := RunExplained(cs, steps, base);
    ExplainedAt(ws, cs, steps, i, v);
    TrackedTermsRise(ws[i], cs[i].nodes[v]);
    StepAdvancesCommit(cs[i], steps[i]);
    ExplainedAt(ws, cs, steps, i + 1, v);
    TrackedTermsRise(ws[i + 1], cs[i + 1].nodes[v]);
    if cs[i + 1].nodes[v].role.Leader? {
      AdvancedAll(cs[i + 1].nodes[v]);
    }
  }

  lemma StepOf(cs: seq<C.Cluster>, steps: seq<C.Step>, base: set<NodeId>, i: nat)
    requires C.IsKnowingRun(cs, steps, base) && i < |steps|
    ensures |cs| == |steps| + 1 && C.Enabled(cs[i], steps[i]) && cs[i + 1] == C.Do(cs[i], steps[i])
  {
    hide C.Enabled, C.Do, C.Init;
  }

  // ------------------------------------------------------------ What the leader learns

  // m is n after it heard from a peer in its term: it forgets nothing, notes the contact,
  // and knows no less of any peer.
  ghost predicate Learns(n: Node, m: Node, from: NodeId, number: nat) {
    && m.role.Leader? && m.term == n.term && m.log == n.log && m.snapIndex == n.snapIndex && m.commitIndex >= n.commitIndex
    && (forall p :: p != from ==> Lookup(m.lastAck, p) == Lookup(n.lastAck, p) && Lookup(m.matchIndex, p) == Lookup(n.matchIndex, p) && Lookup(m.nextIndex, p) == Lookup(n.nextIndex, p))
    && Lookup(m.lastAck, from) >= number && Lookup(m.lastAck, from) >= Lookup(n.lastAck, from)
    && (Lookup(m.lastAck, from) == number || Lookup(m.lastAck, from) == Lookup(n.lastAck, from))
    && Lookup(m.matchIndex, from) >= Lookup(n.matchIndex, from)
  }

  // What is known to match is the farthest of what was known, and the next request starts
  // right behind it.
  ghost predicate Matches(n: Node, m: Node, from: NodeId, k: nat) {
    && Lookup(m.matchIndex, from) >= k
    && (Lookup(m.matchIndex, from) == k || Lookup(m.matchIndex, from) == Lookup(n.matchIndex, from))
    && Lookup(m.nextIndex, from) == Lookup(m.matchIndex, from) + 1
  }

  // An answer in the leader's term: a success tells how far the logs match, a mismatch
  // moves only where to try next.
  lemma AppendAnswerTeaches(n: Node, from: NodeId, number: nat, req: AppendRequest, reply: AppendReply)
    requires n.role.Leader? && n.term == req.term && reply.term <= n.term
    ensures var m := HandleAppendReply(n, from, number, req, reply);
      && Learns(n, m, from, number)
      && (reply.success ==> Matches(n, m, from, Max(req.prevIndex + |req.entries|, reply.matchIndex)))
      && (!reply.success ==> Lookup(m.matchIndex, from) == Lookup(n.matchIndex, from) && m.commitIndex == n.commitIndex)
  {
    hide CommitScan;
  }

  // So for a snapshot: its last chunk taken, the peer holds its index; before that only
  // the contact counts.
  lemma SnapshotAnswerTeaches(n: Node, from: NodeId, number: nat, req: SnapshotRequest, reply: SnapshotReply)
    requires n.role.Leader? && n.term == req.term && reply.term <= n.term
    ensures var m := HandleSnapshotReply(n, from, number, req, reply);
      && Learns(n, m, from, number)
      && (reply.success && req.done ==> Matches(n, m, from, req.index))
      && (!(reply.success && req.done) ==> m.matchIndex == n.matchIndex && m.nextIndex == n.nextIndex && m.commitIndex == n.commitIndex)
  {
    hide CommitScan;
  }

  // Answers of other terms, or to a node that does not lead, teach nothing.
  lemma StrayAnswersTeachNothing(n: Node, from: NodeId, number: nat, req: AppendRequest, reply: AppendReply, snap: SnapshotRequest, answer: SnapshotReply)
    ensures reply.term <= n.term && (!n.role.Leader? || n.term != req.term) ==> HandleAppendReply(n, from, number, req, reply) == n
    ensures answer.term <= n.term && (!n.role.Leader? || n.term != snap.term) ==> HandleSnapshotReply(n, from, number, snap, answer) == n
  {
  }

  // ------------------------------------------------------------ What the leader asks

  // A request quotes the whole log right before and from the position it tries, as much
  // as fits, and tells how far the leader has committed.
  lemma RequestQuotesLog(base: set<NodeId>, n: Node, l: Log, to: NodeId)
    requires Represents(base, n, l) && to in n.nextIndex && n.snapIndex < n.nextIndex[to] <= |l| + 1
    ensures LastIndex(n) == |l| && AppendRequestFor(n, to).Some?
    ensures var req, next := AppendRequestFor(n, to).value, n.nextIndex[to];
      && req.term == n.term && req.leader == n.id && req.leaderCommit == n.commitIndex
      && req.prevIndex == next - 1 && req.prevTerm == TermAt(l, next - 1)
      && |req.entries| == Min(MAX_ENTRIES_PER_RPC, |l| + 1 - next)
      && forall i :: 0 <= i < |req.entries| ==> req.entries[i] == l[next - 1 + i]
  {
    hide Represents, Stores, EntriesFrom, NodeTermAt, TermAt, LastIndex;
    RepresentsStores(base, n, l);
    Queries(base, n, l);
    BatchIsSlice(base, n, l, n.nextIndex[to]);
  }

  // A snapshot is offered for exactly what is applied.
  lemma SnapshotNamesLog(base: set<NodeId>, n: Node, l: Log, done: bool)
    requires Represents(base, n, l) && n.snapIndex <= n.lastApplied <= |l|
    ensures LastIndex(n) == |l|
    ensures var req := SnapshotRequestFor(n, done);
      req.term == n.term && req.leader == n.id && req.index == n.lastApplied && req.lastTerm == TermAt(l, n.lastApplied) && req.done == done
  {
    hide Represents, Stores, ConfigAt;
    RepresentsStores(base, n, l);
    Queries(base, n, l);
  }

  // ------------------------------------------------------------ What the follower does

  // m has heard the leader of term t.
  ghost predicate Hears(n: Node, m: Node, t: nat, leader: NodeId) {
    && m.term == t && m.role.Follower? && m.leaderId == Some(leader) && m.generation > n.generation
    && (n.term == t ==> m.votedFor == n.votedFor) && (n.term < t ==> m.votedFor == None)
  }

  lemma AcceptHears(n: Node, t: nat, leader: NodeId)
    requires t >= n.term
    ensures Hears(n, AcceptLeader(n, t, leader), t, leader)
    ensures var m := AcceptLeader(n, t, leader); m.lastApplied == n.lastApplied && m.snapIndex == n.snapIndex && m.log == n.log
  {
  }

  // Every request of a leader whose term is not behind is heard, whatever the answer; one
  // from behind is refused, changes nothing, and is told the term.
  lemma LeaderIsHeard(n: Node, req: AppendRequest, snap: SnapshotRequest, inOrder: bool)
    ensures req.term >= n.term ==> Hears(n, HandleAppend(n, req).0, req.term, req.leader) && HandleAppend(n, req).1.term == req.term
    ensures req.term < n.term ==> HandleAppend(n, req).0 == n && !HandleAppend(n, req).1.success && HandleAppend(n, req).1.term == n.term
    ensures snap.term >= n.term ==> Hears(n, HandleChunk(n, snap, inOrder).0, snap.term, snap.leader)
    ensures snap.term < n.term ==> HandleChunk(n, snap, inOrder) == (n, Answer(SnapshotReply(n.term, false)))
  {
    hide Merge, FirstOfTerm, NodeTermAt, Nodes.Trimmed, AcceptLeader;
    if req.term >= n.term {
      AcceptHears(n, req.term, req.leader);
      MergeHears(AcceptLeader(n, req.term, req.leader), Nodes.Trimmed(AcceptLeader(n, req.term, req.leader), req).2);
    }
    if snap.term >= n.term {
      AcceptHears(n, snap.term, snap.leader);
    }
  }

  // Changing the log changes nothing that hearing a leader changed.
  ghost predicate SameOffice(n: Node, m: Node) {
    m.term == n.term && m.role == n.role && m.leaderId == n.leaderId && m.generation == n.generation && m.votedFor == n.votedFor
  }

  lemma LogChangesOnly(n: Node, entries: seq<Entry>, i: nat)
    ensures SameOffice(n, AppendLocal(n, entries))
    ensures n.snapIndex < i <= LastIndex(n) + 1 ==> SameOffice(n, TruncateLocal(n, i))
  {
    hide LatestConfig;
  }

  lemma MergeHears(n: Node, entries: seq<Entry>)
    ensures SameOffice(n, Merge(n, entries))
  {
    hide AppendLocal, TruncateLocal, Known, NodeTermAt;
    var k := Known(n, entries);
    if k < |entries| {
      var i := entries[k].index;
      LogChangesOnly(n, entries[k..], i);
      if NodeTermAt(n, i).Some? && i > n.snapIndex {
        TermWithin(n, i);
        LogChangesOnly(TruncateLocal(n, i), entries[k..], 0);
      }
    }
  }

  // A snapshot the node has applied is acknowledged chunk by chunk; one it lacks is
  // refused out of order, acknowledged in order, and complete with its last chunk.
  lemma ChunkIsAnswered(n: Node, req: SnapshotRequest, inOrder: bool)
    requires req.term >= n.term
    ensures var result := HandleChunk(n, req, inOrder).1;
      && (req.index <= n.lastApplied ==> result == Answer(SnapshotReply(req.term, true)))
      && (req.index > n.lastApplied && !inOrder ==> result == Answer(SnapshotReply(req.term, false)))
      && (req.index > n.lastApplied && inOrder ==> result == if req.done then FileComplete else Answer(SnapshotReply(req.term, true)))
  {
    hide AcceptLeader;
    AcceptHears(n, req.term, req.leader);
  }

  // Once installed, the snapshot is applied and committed, and the sender is told so; what
  // was applied farther stays as it is.
  lemma InstallIsDone(n: Node, req: SnapshotRequest)
    requires n.snapIndex <= n.lastApplied <= n.commitIndex
    ensures var (m, reply) := InstallSnapshot(n, req);
      && reply == SnapshotReply(n.term, true)
      && (req.index <= n.lastApplied ==> m == n)
      && (req.index > n.lastApplied ==>
            && m.snapIndex == m.lastApplied == req.index && m.snapTerm == req.lastTerm && m.snapConfig == req.config
            && m.commitIndex >= req.index && m.commitIndex >= n.commitIndex
            && (m.commitIndex == req.index || m.commitIndex == n.commitIndex))
  {
    hide LatestConfig, NodeTermAt;
  }

  // ------------------------------------------------------------ What applying brings

  // After an entry is applied, fewer than the threshold of applied entries are left above
  // the snapshot; below the threshold nothing is folded, and without one never.
  lemma CompactsInTime(n: Node, threshold: nat)
    requires n.snapIndex <= n.lastApplied <= LastIndex(n)
    ensures var m := MaybeSnapshot(n, threshold);
      && (threshold > 0 ==> m.lastApplied - m.snapIndex < threshold)
      && (threshold == 0 || n.lastApplied - n.snapIndex < threshold ==> m == n)
      && (m == n || m.snapIndex == m.lastApplied) && m.lastApplied == n.lastApplied
  {
    hide ConfigAt, NodeTermAt;
  }

  // A leader stays in office over an applied entry, unless it is the newest CONFIG of its
  // log, or an earlier one applied behind it, and names the leader no longer.
  lemma RemovedLeaderLeaves(n: Node, e: Entry)
    requires n.role.Leader?
    ensures Applied(n, e).role.Leader? <==> !e.command.Config? || n.id in n.members || n.lastApplied + 1 < n.configIndex
    ensures !Applied(n, e).role.Leader? ==> Applied(n, e).role.Follower? && Applied(n, e).term == n.term
    ensures Applied(n, e).lastApplied == n.lastApplied + 1
  {
  }
}
