// Why a leader must know of some member when it adds one: a run in which a committed
// entry is lost. A node that joined hands on a snapshot in which nobody is a member; a
// leader that installs it late appends a CONFIG of one node and commits it alone, while
// the members it forgot elect a leader without the entry.
module LostWrites {
  import opened Types
  import opened Logs
  import opened Quorums
  import opened Nodes
  import opened Stretches
  import C = Clusters

  const a: NodeId := NodeId("a")
  const f: NodeId := NodeId("f")
  const g: NodeId := NodeId("g")
  const j: NodeId := NodeId("j")
  const BASE: set<NodeId> := {a, f, g}

  // The entries of the run, by the term that made them.
  const N1: Entry := Entry(1, 1, Noop, "", None)
  const C1: Entry := Entry(1, 2, Config(BASE + {j}), "", None)
  const N2: Entry := Entry(2, 3, Noop, "", None)
  const N3: Entry := Entry(3, 2, Noop, "", None)
  const N4: Entry := Entry(4, 3, Noop, "", None)
  const C4: Entry := Entry(4, 4, Config({f}), "", None)
  const N5: Entry := Entry(5, 4, Noop, "", None)

  function First(v: NodeId, members: set<NodeId>): Node {
    Node(v, 0, None, [], 0, 0, members, Follower, None, 0, 0, map[], map[], members, 0, 0, 0, map[], {}, 0)
  }

  lemma Names()
    ensures a != f && a != g && a != j && f != g && f != j && g != j
    ensures |BASE| == 3 && |BASE + {j}| == 4
  {
    assert a.name != f.name && a.name != g.name && a.name != j.name && f.name != g.name && f.name != j.name && g.name != j.name;
  }

  // A node without its bookkeeping on peers, votes and timers.
  function Core(n: Node): Node {
    n.(nextIndex := map[], matchIndex := map[], lastAck := map[], votes := {}, generation := 0)
  }

  // The four nodes of a cluster.
  predicate Are(c: C.Cluster, na: Node, nf: Node, ng: Node, nj: Node) {
    && c.nodes.Keys == BASE + {j}
    && Core(c.nodes[a]) == na && Core(c.nodes[f]) == nf && Core(c.nodes[g]) == ng && Core(c.nodes[j]) == nj
  }

  // Whatever was sent stays on its way, and no file is lost.
  predicate Keeps(c: C.Cluster, d: C.Cluster) {
    c.net <= d.net && c.tasks <= d.tasks
  }

  // ------------------------------------------------------------ Kinds of stretch

  lemma Campaigns(c: C.Cluster, v: NodeId) returns (d: C.Cluster)
    requires v in c.nodes && !c.nodes[v].role.Leader?
    ensures Reaches(c, d) && Keeps(c, d) && d.nodes == c.nodes[v := BecomeCandidate(c.nodes[v])]
    ensures forall u :: u in c.nodes[v].members && u != c.nodes[v].id ==> C.VoteAsk(u, CampaignRequest(StartCampaign(c.nodes[v]), false)) in d.net
  {
    hide BecomeCandidate, StartCampaign, CampaignRequest;
    Once(c, C.Timeout(v));
    d := C.Do(c, C.Timeout(v));
  }

  // u answers v's request, and v counts the answer.
  lemma Polls(c: C.Cluster, v: NodeId, u: NodeId, req: VoteRequest, o: Node, reply: VoteReply, n: Node) returns (d: C.Cluster)
    requires v in c.nodes && u in c.nodes && u != v && req.candidate == v && C.VoteAsk(u, req) in c.net
    requires HandleVoteRequest(c.nodes[u], req, false) == (o, reply)
    requires HandleVoteReply(c.nodes[v], u, req, reply) == n
    ensures Reaches(c, d) && Keeps(c, d) && d.nodes == c.nodes[u := o][v := n]
  {
    hide HandleVoteRequest, HandleVoteReply;
    var p, q := C.VoteAsk(u, req), C.VoteAnswer(u, req, reply);
    Once(c, C.ReceiveVoteAsk(p, false));
    var e := C.Do(c, C.ReceiveVoteAsk(p, false));
    assert q in e.net;
    Once(e, C.ReceiveVoteAnswer(q));
    d := C.Do(e, C.ReceiveVoteAnswer(q));
    Then(c, e, d);
  }

  // v sends entries to u, which handles them.
  lemma Sends(c: C.Cluster, v: NodeId, u: NodeId, req: AppendRequest, o: Node, reply: AppendReply) returns (d: C.Cluster)
    requires v in c.nodes && u in c.nodes && u != v && c.nodes[v].role.Leader? && u in c.nodes[v].nextIndex
    requires c.nodes[v].snapIndex < c.nodes[v].nextIndex[u] <= LastIndex(c.nodes[v]) + 1
    requires AppendRequestFor(c.nodes[v], u) == Some(req) && HandleAppend(c.nodes[u], req) == (o, reply)
    ensures Reaches(c, d) && Keeps(c, d) && d.nodes == c.nodes[v := c.nodes[v].(sendSeq := c.nodes[v].sendSeq + 1)][u := o]
    ensures C.AppendAnswer(u, c.nodes[v].sendSeq + 1, req, reply) in d.net
  {
    hide HandleAppend, AppendRequestFor;
    var p := C.AppendAsk(u, c.nodes[v].sendSeq + 1, req);
    Once(c, C.SendEntries(v, u));
    var e := C.Do(c, C.SendEntries(v, u));
    assert p in e.net && e.nodes == c.nodes[v := c.nodes[v].(sendSeq := c.nodes[v].sendSeq + 1)];
    Once(e, C.ReceiveAppend(p));
    d := C.Do(e, C.ReceiveAppend(p));
    Then(c, e, d);
  }

  // The same, and v handles the reply.
  lemma Exchanges(c: C.Cluster, v: NodeId, u: NodeId, req: AppendRequest, o: Node, reply: AppendReply, n: Node) returns (d: C.Cluster)
    requires v in c.nodes && u in c.nodes && u != v && c.nodes[v].role.Leader? && u in c.nodes[v].nextIndex && req.leader == v
    requires c.nodes[v].snapIndex < c.nodes[v].nextIndex[u] <= LastIndex(c.nodes[v]) + 1
    requires AppendRequestFor(c.nodes[v], u) == Some(req) && HandleAppend(c.nodes[u], req) == (o, reply)
    requires HandleAppendReply(c.nodes[v].(sendSeq := c.nodes[v].sendSeq + 1), u, c.nodes[v].sendSeq + 1, req, reply) == n
    ensures Reaches(c, d) && Keeps(c, d) && d.nodes == c.nodes[u := o][v := n]
  {
    hide HandleAppend, AppendRequestFor, HandleAppendReply, Reaches;
    var e := Sends(c, v, u, req, o, reply);
    var q := C.AppendAnswer(u, c.nodes[v].sendSeq + 1, req, reply);
    Once(e, C.ReceiveAppendAnswer(q));
    d := C.Do(e, C.ReceiveAppendAnswer(q));
    Then(c, e, d);
  }

  lemma Adds(c: C.Cluster, v: NodeId, u: NodeId) returns (d: C.Cluster)
    requires v in c.nodes && c.nodes[v].role.Leader? && u !in c.nodes[v].members && ConfigIdle(c.nodes[v])
    ensures Reaches(c, d) && Keeps(c, d)
    ensures d.nodes == c.nodes[v := Propose(c.nodes[v], Config(c.nodes[v].members + {u}), "", None)]
  {
    hide Propose, ConfigIdle;
    AddEnabled(c, v, u);
    Once(c, C.AddMember(v, u));
    d := C.Do(c, C.AddMember(v, u));
  }

  lemma AddEnabled(c: C.Cluster, v: NodeId, u: NodeId)
    requires v in c.nodes && c.nodes[v].role.Leader? && u !in c.nodes[v].members && ConfigIdle(c.nodes[v])
    ensures C.Enabled(c, C.AddMember(v, u))
  {
  }

  lemma Learns(c: C.Cluster, v: NodeId, u: NodeId) returns (d: C.Cluster)
    requires v in c.nodes && c.nodes[v].role.Leader? && u !in c.nodes[v].nextIndex
    ensures Reaches(c, d) && Keeps(c, d)
    ensures d.nodes == c.nodes[v := c.nodes[v].(nextIndex := c.nodes[v].nextIndex[u := LastIndex(c.nodes[v]) + 1], matchIndex := c.nodes[v].matchIndex[u := 0])]
  {
    Once(c, C.StartReplicator(v, u));
    d := C.Do(c, C.StartReplicator(v, u));
  }

  lemma Applies(c: C.Cluster, v: NodeId, e: Entry, threshold: nat) returns (d: C.Cluster)
    requires v in c.nodes && c.nodes[v].snapIndex <= c.nodes[v].lastApplied < c.nodes[v].commitIndex <= LastIndex(c.nodes[v])
    requires EntryAt(c.nodes[v], c.nodes[v].lastApplied + 1) == Some(e)
    ensures Reaches(c, d) && Keeps(c, d)
    ensures d.nodes == c.nodes[v := MaybeSnapshot(Applied(c.nodes[v], e), threshold)]
  {
    hide MaybeSnapshot, Applied;
    Once(c, C.Apply(v, threshold));
    d := C.Do(c, C.Apply(v, threshold));
  }

  lemma SendsSnapshot(c: C.Cluster, v: NodeId, u: NodeId, req: SnapshotRequest) returns (d: C.Cluster)
    requires v in c.nodes && c.nodes[v].role.Leader? && u in c.nodes[v].nextIndex && c.nodes[v].nextIndex[u] <= c.nodes[v].snapIndex
    requires c.nodes[v].snapIndex <= c.nodes[v].lastApplied <= LastIndex(c.nodes[v]) && SnapshotRequestFor(c.nodes[v], true) == req
    ensures Reaches(c, d) && d.nodes == c.nodes[v := c.nodes[v].(sendSeq := c.nodes[v].sendSeq + 1)]
    ensures C.SnapshotAsk(u, c.nodes[v].sendSeq + 1, req) in d.net
  {
    hide SnapshotRequestFor;
    Once(c, C.SendSnapshot(v, u, true));
    d := C.Do(c, C.SendSnapshot(v, u, true));
  }

  lemma ReceivesFile(c: C.Cluster, u: NodeId, number: nat, req: SnapshotRequest, o: Node) returns (d: C.Cluster)
    requires u in c.nodes && C.SnapshotAsk(u, number, req) in c.net && HandleChunk(c.nodes[u], req, true) == (o, FileComplete)
    ensures Reaches(c, d) && d.nodes == c.nodes[u := o] && C.Task(u, number, req) in d.tasks
  {
    hide HandleChunk;
    var p := C.SnapshotAsk(u, number, req);
    Once(c, C.ReceiveChunk(p, true));
    d := C.Do(c, C.ReceiveChunk(p, true));
  }

  lemma Installs(c: C.Cluster, task: C.Task, o: Node) returns (d: C.Cluster)
    requires task in c.tasks && task.node in c.nodes && c.nodes[task.node].snapIndex <= c.nodes[task.node].lastApplied
    requires InstallSnapshot(c.nodes[task.node], task.request).0 == o
    ensures Reaches(c, d) && d.nodes == c.nodes[task.node := o]
  {
    hide InstallSnapshot;
    Once(c, C.FinishInstall(task));
    d := C.Do(c, C.FinishInstall(task));
  }

  // ------------------------------------------------------------ What handlers do

  lemma Votes(o: Node, req: VoteRequest)
    requires req.term > o.term && LogOk(o, req)
    ensures HandleVoteRequest(o, req, false).1 == VoteReply(req.term, true)
    ensures Core(HandleVoteRequest(o, req, false).0) ==
      Core(o).(term := req.term, votedFor := Some(req.candidate), leaderId := None, role := Follower)
  {
  }

  // A candidate of several members waits for answers.
  lemma Stands(n: Node)
    requires n.id in n.members && |n.members| >= 2
    ensures BecomeCandidate(n) == StartCampaign(n)
    ensures Core(StartCampaign(n)) == Core(n).(term := n.term + 1, role := Candidate, votedFor := Some(n.id), leaderId := None)
    ensures StartCampaign(n).votes == {n.id}
  {
    assert {n.id} * n.members == {n.id};
  }

  lemma NotYet(n: Node, u: NodeId, req: VoteRequest)
    requires n.role.Candidate? && req.term == n.term && |(n.votes + {u}) * n.members| < Majority(n)
    ensures HandleVoteReply(n, u, req, VoteReply(n.term, true)) == n.(votes := n.votes + {u})
  {
  }

  // The vote that makes a majority: the leader's fields, its no-op, and no commit yet.
  lemma Wins(n: Node, u: NodeId, req: VoteRequest)
    requires n.role.Candidate? && req.term == n.term && |(n.votes + {u}) * n.members| >= Majority(n) && |n.members| >= 2
    ensures
      var m := HandleVoteReply(n, u, req, VoteReply(n.term, true));
      && Core(m) == Core(n).(log := n.log + [Entry(n.term, LastIndex(n) + 1, Noop, "", None)], role := Leader, leaderId := Some(n.id),
                             termStart := LastIndex(n) + 1)
      && Fresh(m) && Expects(m, n.members - {n.id}, LastIndex(n) + 1)
  {
    var m := TakeOffice(n.(votes := n.votes + {u}));
    NobodyYet(m);
  }

  // Nothing is known of any peer yet.
  ghost predicate Fresh(n: Node) {
    forall p :: p in n.matchIndex ==> n.matchIndex[p] == 0
  }

  ghost predicate Expects(n: Node, peers: set<NodeId>, i: nat) {
    n.nextIndex.Keys == peers && forall p :: p in n.nextIndex ==> n.nextIndex[p] == i
  }

  lemma NobodyYet(n: Node)
    requires n.role.Leader? && |n.members| >= 2 && Fresh(n)
    ensures AdvanceCommit(n) == n
  {
    forall k | n.commitIndex < k <= LastIndex(n)
      ensures |Replicas(n, k)| < Majority(n)
    {
      assert Replicas(n, k) <= {n.id};
      SubsetSize(Replicas(n, k), {n.id});
    }
    NothingToCommit(n, LastIndex(n));
  }

  // The request for a peer that lacks the given tail of the log.
  lemma RequestIs(n: Node, u: NodeId, tail: seq<Entry>)
    requires u in n.nextIndex && n.snapIndex < n.nextIndex[u] <= LastIndex(n) + 1 && |tail| <= 100
    requires n.log[n.nextIndex[u] - n.snapIndex - 1..] == tail
    ensures NodeTermAt(n, n.nextIndex[u] - 1).Some?
    ensures AppendRequestFor(n, u) ==
      Some(AppendRequest(n.term, n.id, n.nextIndex[u] - 1, NodeTermAt(n, n.nextIndex[u] - 1).value, tail, n.commitIndex))
  {
    var start := n.nextIndex[u] - n.snapIndex - 1;
    assert |tail| == |n.log| - start;
    assert Min(start + MAX_ENTRIES_PER_RPC, |n.log|) == |n.log|;
    assert n.log[start..|n.log|] == n.log[start..];
    assert EntriesFrom(n, n.nextIndex[u], MAX_ENTRIES_PER_RPC) == tail;
  }

  // The consistency check fails at a log that is too short.
  lemma TooShort(o: Node, req: AppendRequest)
    requires req.term >= o.term && o.snapIndex == 0 && o.log == [] && req.prevIndex >= 1
    ensures HandleAppend(o, req).1 == AppendReply(req.term, false, 0, 1)
    ensures Core(HandleAppend(o, req).0) == Core(AcceptLeader(o, req.term, req.leader))
  {
    hide AcceptLeader;
    AcceptedLog(o, req.term, req.leader);
  }

  lemma AcceptedLog(o: Node, t: nat, leader: NodeId)
    requires t >= o.term
    ensures var m := AcceptLeader(o, t, leader);
      && m.log == o.log && m.snapIndex == o.snapIndex && m.snapTerm == o.snapTerm && m.term == t && m.commitIndex == o.commitIndex
      && Core(m) == Core(o).(term := t, votedFor := m.votedFor, leaderId := Some(leader), role := Follower)
      && (t > o.term ==> m.votedFor == None) && (t == o.term ==> m.votedFor == o.votedFor)
  {
  }

  // The entries continue the log; what is new is appended.
  lemma Extends(o: Node, req: AppendRequest)
    requires req.term >= o.term && o.snapIndex == 0 && o.snapTerm == 0 && req.prevIndex == |o.log|
    requires NodeTermAt(o, req.prevIndex) == Some(req.prevTerm)
    requires req.entries != [] && req.entries[0].index == |o.log| + 1
    ensures HandleAppend(o, req).1 == AppendReply(req.term, true, req.prevIndex + |req.entries|, 0)
    ensures
      var m := AcceptLeader(o, req.term, req.leader);
      var r := AppendLocal(m, req.entries);
      HandleAppend(o, req).0 == r.(commitIndex := if req.leaderCommit > o.commitIndex then Max(o.commitIndex, Min(req.leaderCommit, req.prevIndex + |req.entries|)) else o.commitIndex)
  {
    hide AcceptLeader, LatestConfig;
    AcceptedLog(o, req.term, req.leader);
    var m := AcceptLeader(o, req.term, req.leader);
    assert NodeTermAt(m, req.entries[0].index) == None;
    assert Known(m, req.entries) == 0;
    assert req.entries[0..] == req.entries;
  }

  lemma AppendsNoConfig(n: Node, entries: seq<Entry>)
    requires forall e :: e in entries ==> !e.command.Config?
    ensures AppendLocal(n, entries) == n.(log := n.log + entries)
  {
  }

  lemma AppendsConfig(n: Node, entries: seq<Entry>, e: Entry)
    requires entries != [] && entries[|entries| - 1] == e && e.command.Config?
    ensures AppendLocal(n, entries) == n.(log := n.log + entries, members := e.command.members, configIndex := e.index)
  {
    var m := n.(log := n.log + entries);
    assert e in entries;
    assert m.log[|m.log| - 1] == e;
    assert NewestConfig(m.log) == |m.log|;
  }

  // A follower's success for the whole log makes the leader and it a majority of three.
  lemma Commits(n: Node, u: NodeId, number: nat, req: AppendRequest)
    requires n.role.Leader? && u in n.members && n.id in n.members && u != n.id && |n.members| == 3 && req.term == n.term
    requires n.commitIndex < LastIndex(n) && NodeTermAt(n, LastIndex(n)) == Some(n.term)
    requires req.prevIndex + |req.entries| == LastIndex(n)
    ensures
      var m := HandleAppendReply(n, u, number, req, AppendReply(n.term, true, LastIndex(n), 0));
      && Core(m) == Core(n).(commitIndex := LastIndex(n))
      && m.nextIndex.Keys == n.nextIndex.Keys + {u}
      && (forall p :: p in m.matchIndex && p != u ==> p in n.matchIndex && m.matchIndex[p] == n.matchIndex[p])
      && u in m.matchIndex && (Fresh(n) ==> m.matchIndex[u] == LastIndex(n))
  {
    hide AdvanceCommit;
    var c := NoteContact(n, u, number);
    var k := Max(Lookup(c.matchIndex, u), LastIndex(n));
    var m := c.(matchIndex := c.matchIndex[u := k], nextIndex := c.nextIndex[u := k + 1]);
    PairCommits(m, u);
  }

  // The leader and one peer that has the whole log are a majority of three.
  lemma PairCommits(m: Node, u: NodeId)
    requires m.role.Leader? && u in m.members && m.id in m.members && u != m.id && |m.members| == 3
    requires m.commitIndex < LastIndex(m) && NodeTermAt(m, LastIndex(m)) == Some(m.term) && Lookup(m.matchIndex, u) >= LastIndex(m)
    ensures AdvanceCommit(m) == m.(commitIndex := LastIndex(m))
  {
    hide NodeTermAt;
    assert {u, m.id} <= Replicas(m, LastIndex(m));
    SubsetSize({u, m.id}, Replicas(m, LastIndex(m)));
  }

  // A mismatch at a log that was empty sends the leader back to the first entry.
  lemma StartsOver(n: Node, u: NodeId, number: nat, req: AppendRequest)
    requires n.role.Leader? && req.term == n.term && req.prevIndex >= 1
    ensures
      var m := HandleAppendReply(n, u, number, req, AppendReply(n.term, false, 0, 1));
      Core(m) == Core(n) && m.nextIndex == n.nextIndex[u := 1] && m.matchIndex == n.matchIndex
  {
  }

  // ------------------------------------------------------------ Term 1: a leads, and adds j

  const A0: Node := First(a, BASE)
  const F0: Node := First(f, BASE)
  const G0: Node := First(g, BASE)
  const J0: Node := First(j, {})

  const A1: Node := A0.(term := 1, votedFor := Some(a), role := Candidate)
  const A2: Node := A1.(log := [N1], role := Leader, leaderId := Some(a), termStart := 1)
  const A4: Node := A2.(sendSeq := 1, commitIndex := 1)
  const A6: Node := A4.(log := [N1, C1], members := BASE + {j}, configIndex := 2)
  const A9: Node := A6.(sendSeq := 3)
  const G1: Node := G0.(term := 1, votedFor := Some(a))
  const G2: Node := G1.(log := [N1], leaderId := Some(a))
  const J1: Node := J0.(term := 1, leaderId := Some(a))
  const J2: Node := J1.(log := [N1, C1], commitIndex := 1, members := BASE + {j}, configIndex := 2)
  const J3: Node := J2.(log := [C1], snapIndex := 1, snapTerm := 1, lastApplied := 1)

  const VOTE1: VoteRequest := VoteRequest(1, a, 0, 0, false)
  const APPEND1: AppendRequest := AppendRequest(1, a, 0, 0, [N1], 0)
  const PROBE1: AppendRequest := AppendRequest(1, a, 1, 1, [C1], 1)
  const BOTH1: AppendRequest := AppendRequest(1, a, 0, 0, [N1, C1], 1)

  lemma Won1(c: C.Cluster) returns (d: C.Cluster)
    requires Are(c, A0, F0, G0, J0)
    ensures Reaches(c, d) && Are(d, A2, F0, G1, J0)
    ensures Fresh(d.nodes[a]) && Expects(d.nodes[a], BASE - {a}, 1)
  {
    hide Reaches, HandleVoteRequest, HandleVoteReply, BecomeCandidate;
    Names();
    var k, o := c.nodes[a], c.nodes[g];
    Stands(k);
    var n := StartCampaign(k);
    var e := Campaigns(c, a);
    assert C.VoteAsk(g, VOTE1) in e.net;
    Votes(o, VOTE1);
    assert (n.votes + {g}) * n.members == {a, g};
    Wins(n, g, VOTE1);
    d := Polls(e, a, g, VOTE1, HandleVoteRequest(o, VOTE1, false).0, VoteReply(1, true), HandleVoteReply(n, g, VOTE1, VoteReply(1, true)));
    Then(c, e, d);
  }

  lemma Committed1(c: C.Cluster) returns (d: C.Cluster)
    requires Are(c, A2, F0, G1, J0) && Fresh(c.nodes[a]) && Expects(c.nodes[a], BASE - {a}, 1)
    ensures Reaches(c, d) && Are(d, A4, F0, G2, J0)
    ensures j !in d.nodes[a].nextIndex && forall p :: p in d.nodes[a].matchIndex ==> d.nodes[a].matchIndex[p] <= 1
  {
    hide Reaches, AppendRequestFor, HandleAppend, HandleAppendReply;
    Names();
    var n, o := c.nodes[a], c.nodes[g];
    assert n.log[0..] == [N1];
    RequestIs(n, g, [N1]);
    TakesFirst(o);
    var n1 := n.(sendSeq := 1);
    Commits(n1, g, 1, APPEND1);
    d := Exchanges(c, a, g, APPEND1, HandleAppend(o, APPEND1).0, AppendReply(1, true, 1, 0), HandleAppendReply(n1, g, 1, APPEND1, AppendReply(1, true, 1, 0)));
  }

  lemma TakesFirst(o: Node)
    requires Core(o) == G1
    ensures Core(HandleAppend(o, APPEND1).0) == G2 && HandleAppend(o, APPEND1).1 == AppendReply(1, true, 1, 0)
  {
    hide HandleAppend;
    Extends(o, APPEND1);
    AcceptedLog(o, 1, a);
    AppendsNoConfig(AcceptLeader(o, 1, a), [N1]);
    assert [] + [N1] == [N1];
  }

  lemma Added1(c: C.Cluster) returns (d: C.Cluster)
    requires Are(c, A4, F0, G2, J0)
    requires j !in c.nodes[a].nextIndex && forall p :: p in c.nodes[a].matchIndex ==> c.nodes[a].matchIndex[p] <= 1
    ensures Reaches(c, d) && Are(d, A6, F0, G2, J0)
    ensures j in d.nodes[a].nextIndex && d.nodes[a].nextIndex[j] == 2
  {
    hide Reaches, Propose, ConfigIdle;
    Names();
    var e := Learns(c, a, j);
    var n := e.nodes[a];
    IdleFrom(n);
    AddsAlone(n, j, [N1]);
    d := Adds(e, a, j);
    Then(c, e, d);
  }

  lemma IdleFrom(n: Node)
    requires n.commitIndex >= n.termStart && n.commitIndex >= n.configIndex
    ensures ConfigIdle(n)
  {
  }

  // The leader appends a CONFIG that no peer has, and commits nothing with it.
  lemma AddsAlone(n: Node, u: NodeId, l: Log)
    requires n.role.Leader? && n.log == l && n.snapIndex == 0 && n.commitIndex == |l| && |n.members| >= 2 && n.id in n.members
    requires forall p :: p in n.matchIndex ==> n.matchIndex[p] <= |l|
    requires u !in n.members
    ensures
      var e := Entry(n.term, |l| + 1, Config(n.members + {u}), "", None);
      Propose(n, Config(n.members + {u}), "", None) == n.(log := l + [e], members := n.members + {u}, configIndex := |l| + 1)
  {
    var e := Entry(n.term, |l| + 1, Config(n.members + {u}), "", None);
    AppendsConfig(n, [e], e);
    var m := AppendLocal(n, [e]);
    SubsetSize(n.members, m.members);
    assert Replicas(m, |l| + 1) <= {n.id};
    SubsetSize(Replicas(m, |l| + 1), {n.id});
    assert CommitScan(m, |l| + 1) == |l|;
  }

  lemma Taught1(c: C.Cluster) returns (d: C.Cluster)
    requires Are(c, A6, F0, G2, J0) && j in c.nodes[a].nextIndex && c.nodes[a].nextIndex[j] == 2
    ensures Reaches(c, d) && Are(d, A9, F0, G2, J2)
  {
    hide Reaches, AppendRequestFor, HandleAppend, HandleAppendReply;
    Names();
    var n, o := c.nodes[a], c.nodes[j];
    assert n.log[1..] == [C1] && [N1, C1][0..] == [N1, C1];
    RequestIs(n, j, [C1]);
    TooShort(o, PROBE1);
    AcceptedLog(o, 1, a);
    var n1 := n.(sendSeq := 2);
    StartsOver(n1, j, 2, PROBE1);
    var o1, n2 := HandleAppend(o, PROBE1).0, HandleAppendReply(n1, j, 2, PROBE1, AppendReply(1, false, 0, 1));
    var e := Exchanges(c, a, j, PROBE1, o1, AppendReply(1, false, 0, 1), n2);
    RequestIs(n2, j, [N1, C1]);
    TaughtBoth(o1);
    d := Sends(e, a, j, BOTH1, HandleAppend(o1, BOTH1).0, AppendReply(1, true, 2, 0));
    Then(c, e, d);
  }

  lemma TaughtBoth(o: Node)
    requires Core(o) == J1
    ensures Core(HandleAppend(o, BOTH1).0) == J2 && HandleAppend(o, BOTH1).1 == AppendReply(1, true, 2, 0)
  {
    hide HandleAppend;
    Names();
    Extends(o, BOTH1);
    AcceptedLog(o, 1, a);
    AppendsConfig(AcceptLeader(o, 1, a), [N1, C1], C1);
    assert [] + [N1, C1] == [N1, C1];
  }

  lemma Compacted1(c: C.Cluster) returns (d: C.Cluster)
    requires Are(c, A9, F0, G2, J2)
    ensures Reaches(c, d) && Are(d, A9, F0, G2, J3)
  {
    hide Reaches, MaybeSnapshot, Applied;
    Names();
    CompactsFirst(c.nodes[j]);
    d := Applies(c, j, N1, 1);
  }

  lemma CompactsFirst(n: Node)
    requires Core(n) == J2
    ensures EntryAt(n, 1) == Some(N1) && Core(MaybeSnapshot(Applied(n, N1), 1)) == J3
    ensures n.snapIndex <= n.lastApplied < n.commitIndex <= LastIndex(n) && n.lastApplied == 0
  {
    Names();
    assert [N1, C1][..1] == [N1];
    assert ConfigUpTo([N1, C1], 1, {}) == ConfigUpTo([N1], 1, {}) == ConfigUpTo([], 1, {});
    assert [N1, C1][1..] == [C1];
  }

  const START: C.Cluster := C.Cluster(map[a := A0, f := F0, g := G0, j := J0], {}, {})

  lemma StartsAs()
    ensures Are(START, A0, F0, G0, J0)
  {
    Names();
  }

  lemma Term1() returns (d: C.Cluster)
    ensures Reaches(START, d) && Are(d, A9, F0, G2, J3)
  {
    hide Reaches, Are;
    StartsAs();
    var c1 := Won1(START);
    var c2 := Committed1(c1);
    Then(START, c1, c2);
    var c3 := Added1(c2);
    Then(START, c2, c3);
    var c4 := Taught1(c3);
    Then(START, c3, c4);
    d := Compacted1(c4);
    Then(START, c4, d);
  }

  // ------------------------------------------------------------ Term 2: j leads, and sends f a snapshot

  const A10: Node := A9.(term := 2, votedFor := Some(j), role := Follower, leaderId := None)
  const G3: Node := G2.(term := 2, votedFor := Some(j), leaderId := None)
  const J4: Node := J3.(term := 2, votedFor := Some(j), role := Candidate, leaderId := None)
  const J6: Node := J4.(log := [C1, N2], role := Leader, leaderId := Some(j), termStart := 3)
  const J8: Node := J6.(sendSeq := 1)
  const J9: Node := J8.(sendSeq := 2)
  const F1: Node := F0.(term := 2, leaderId := Some(j))

  const VOTE2: VoteRequest := VoteRequest(2, j, 2, 1, false)
  const PROBE2: AppendRequest := AppendRequest(2, j, 2, 1, [N2], 1)
  const NOBODY: SnapshotRequest := SnapshotRequest(2, j, 1, 1, {}, true)
  const FILE: C.Task := C.Task(f, 2, NOBODY)

  lemma Stood2(c: C.Cluster) returns (d: C.Cluster)
    requires Are(c, A9, F0, G2, J3)
    ensures Reaches(c, d) && Are(d, A9, F0, G2, J4) && d.nodes[j].votes == {j}
    ensures C.VoteAsk(a, VOTE2) in d.net && C.VoteAsk(g, VOTE2) in d.net
  {
    hide Reaches, BecomeCandidate;
    Names();
    Stands(c.nodes[j]);
    d := Campaigns(c, j);
  }

  lemma Polled2(c: C.Cluster) returns (d: C.Cluster)
    requires Are(c, A9, F0, G2, J4) && c.nodes[j].votes == {j} && C.VoteAsk(a, VOTE2) in c.net && C.VoteAsk(g, VOTE2) in c.net
    ensures Reaches(c, d) && Are(d, A10, F0, G2, J4) && d.nodes[j].votes == {j} + {a} && C.VoteAsk(g, VOTE2) in d.net
  {
    hide Reaches, HandleVoteRequest, HandleVoteReply;
    Names();
    var n, o := c.nodes[j], c.nodes[a];
    Votes(o, VOTE2);
    assert (n.votes + {a}) * n.members == {j, a};
    NotYet(n, a, VOTE2);
    d := Polls(c, j, a, VOTE2, HandleVoteRequest(o, VOTE2, false).0, VoteReply(2, true), n.(votes := n.votes + {a}));
  }

  lemma Won2(c: C.Cluster) returns (d: C.Cluster)
    requires Are(c, A10, F0, G2, J4) && c.nodes[j].votes == {j} + {a} && C.VoteAsk(g, VOTE2) in c.net
    ensures Reaches(c, d) && Are(d, A10, F0, G3, J6) && f in d.nodes[j].nextIndex && d.nodes[j].nextIndex[f] == 3
  {
    hide Reaches, HandleVoteRequest, HandleVoteReply;
    Names();
    var n, o := c.nodes[j], c.nodes[g];
    Votes(o, VOTE2);
    assert (n.votes + {g}) * n.members == {j, a, g};
    Wins(n, g, VOTE2);
    d := Polls(c, j, g, VOTE2, HandleVoteRequest(o, VOTE2, false).0, VoteReply(2, true), HandleVoteReply(n, g, VOTE2, VoteReply(2, true)));
  }

  lemma Refused2(c: C.Cluster) returns (d: C.Cluster)
    requires Are(c, A10, F0, G3, J6) && f in c.nodes[j].nextIndex && c.nodes[j].nextIndex[f] == 3
    ensures Reaches(c, d) && Are(d, A10, F1, G3, J8) && f in d.nodes[j].nextIndex && d.nodes[j].nextIndex[f] == 1
  {
    hide Reaches, AppendRequestFor, HandleAppend, HandleAppendReply;
    Names();
    var n, o := c.nodes[j], c.nodes[f];
    assert n.log[1..] == [N2];
    RequestIs(n, f, [N2]);
    TooShort(o, PROBE2);
    AcceptedLog(o, 2, j);
    var n1 := n.(sendSeq := 1);
    StartsOver(n1, f, 1, PROBE2);
    d := Exchanges(c, j, f, PROBE2, HandleAppend(o, PROBE2).0, AppendReply(2, false, 0, 1), HandleAppendReply(n1, f, 1, PROBE2, AppendReply(2, false, 0, 1)));
  }

  // The snapshot says that nobody is a member.
  lemma Received2(c: C.Cluster) returns (d: C.Cluster)
    requires Are(c, A10, F1, G3, J8) && f in c.nodes[j].nextIndex && c.nodes[j].nextIndex[f] == 1
    ensures Reaches(c, d) && Are(d, A10, F1, G3, J9) && FILE in d.tasks
  {
    hide Reaches, SnapshotRequestFor, HandleChunk;
    Names();
    SnapshotOfNobody(c.nodes[j]);
    TakesFile(c.nodes[f]);
    var e := SendsSnapshot(c, j, f, NOBODY);
    d := ReceivesFile(e, f, 2, NOBODY, HandleChunk(c.nodes[f], NOBODY, true).0);
    Then(c, e, d);
  }

  lemma SnapshotOfNobody(n: Node)
    requires Core(n) == J8
    ensures n.snapIndex <= n.lastApplied <= LastIndex(n) && SnapshotRequestFor(n, true) == NOBODY
  {
    Names();
    assert [C1, N2][..1] == [C1];
    assert ConfigUpTo([C1, N2], 1, {}) == ConfigUpTo([C1], 1, {}) == ConfigUpTo([], 1, {});
  }

  lemma TakesFile(o: Node)
    requires Core(o) == F1
    ensures Core(HandleChunk(o, NOBODY, true).0) == F1 && HandleChunk(o, NOBODY, true).1 == FileComplete
  {
    hide AcceptLeader;
    AcceptedLog(o, 2, j);
    AcceptedApplied(o, 2, j);
  }

  lemma AcceptedApplied(o: Node, t: nat, leader: NodeId)
    ensures AcceptLeader(o, t, leader).lastApplied == o.lastApplied
  {
  }

  lemma Term2(c: C.Cluster) returns (d: C.Cluster)
    requires Are(c, A9, F0, G2, J3)
    ensures Reaches(c, d) && Are(d, A10, F1, G3, J9) && FILE in d.tasks
  {
    hide Reaches, Are;
    var c1 := Stood2(c);
    var c2 := Polled2(c1);
    Then(c, c1, c2);
    var c3 := Won2(c2);
    Then(c, c2, c3);
    var c4 := Refused2(c3);
    Then(c, c3, c4);
    d := Received2(c4);
    Then(c, c4, d);
  }

  // ------------------------------------------------------------ Term 3: g leads, and brings f up to date

  const G4: Node := G3.(term := 3, votedFor := Some(g), role := Candidate)
  const G5: Node := G4.(log := [N1, N3], role := Leader, leaderId := Some(g), termStart := 2)
  const G7: Node := G5.(sendSeq := 1)
  const G8: Node := G7.(sendSeq := 2)
  const F3: Node := F1.(term := 3, votedFor := Some(g), leaderId := None)
  const F4: Node := F3.(leaderId := Some(g))
  const F5: Node := F4.(log := [N1, N3])

  const VOTE3: VoteRequest := VoteRequest(3, g, 1, 1, false)
  const PROBE3: AppendRequest := AppendRequest(3, g, 1, 1, [N3], 0)
  const BOTH3: AppendRequest := AppendRequest(3, g, 0, 0, [N1, N3], 0)

  lemma Won3(c: C.Cluster) returns (d: C.Cluster)
    requires Are(c, A10, F1, G3, J9) && FILE in c.tasks
    ensures Reaches(c, d) && Are(d, A10, F3, G5, J9) && FILE in d.tasks && f in d.nodes[g].nextIndex && d.nodes[g].nextIndex[f] == 2
  {
    hide Reaches, HandleVoteRequest, HandleVoteReply, BecomeCandidate;
    Names();
    var k, o := c.nodes[g], c.nodes[f];
    Stands(k);
    var n := StartCampaign(k);
    var e := Campaigns(c, g);
    assert C.VoteAsk(f, VOTE3) in e.net;
    Votes(o, VOTE3);
    assert (n.votes + {f}) * n.members == {g, f};
    Wins(n, f, VOTE3);
    assert [N1] + [N3] == [N1, N3];
    d := Polls(e, g, f, VOTE3, HandleVoteRequest(o, VOTE3, false).0, VoteReply(3, true), HandleVoteReply(n, f, VOTE3, VoteReply(3, true)));
    Then(c, e, d);
  }

  lemma Refused3(c: C.Cluster) returns (d: C.Cluster)
    requires Are(c, A10, F3, G5, J9) && FILE in c.tasks && f in c.nodes[g].nextIndex && c.nodes[g].nextIndex[f] == 2
    ensures Reaches(c, d) && Are(d, A10, F4, G7, J9) && FILE in d.tasks && f in d.nodes[g].nextIndex && d.nodes[g].nextIndex[f] == 1
  {
    hide Reaches, AppendRequestFor, HandleAppend, HandleAppendReply;
    Names();
    var n, o := c.nodes[g], c.nodes[f];
    assert n.log[1..] == [N3];
    RequestIs(n, f, [N3]);
    TooShort(o, PROBE3);
    AcceptedLog(o, 3, g);
    var n1 := n.(sendSeq := 1);
    StartsOver(n1, f, 1, PROBE3);
    d := Exchanges(c, g, f, PROBE3, HandleAppend(o, PROBE3).0, AppendReply(3, false, 0, 1), HandleAppendReply(n1, f, 1, PROBE3, AppendReply(3, false, 0, 1)));
  }

  lemma Taught3(c: C.Cluster) returns (d: C.Cluster)
    requires Are(c, A10, F4, G7, J9) && FILE in c.tasks && f in c.nodes[g].nextIndex && c.nodes[g].nextIndex[f] == 1
    ensures Reaches(c, d) && Are(d, A10, F5, G8, J9) && FILE in d.tasks
  {
    hide Reaches, AppendRequestFor, HandleAppend;
    Names();
    var n, o := c.nodes[g], c.nodes[f];
    assert n.log[0..] == [N1, N3];
    RequestIs(n, f, [N1, N3]);
    Extends(o, BOTH3);
    AcceptedLog(o, 3, g);
    AppendsNoConfig(AcceptLeader(o, 3, g), [N1, N3]);
    assert [] + [N1, N3] == [N1, N3];
    d := Sends(c, g, f, BOTH3, HandleAppend(o, BOTH3).0, AppendReply(3, true, 2, 0));
  }

  lemma Term3(c: C.Cluster) returns (d: C.Cluster)
    requires Are(c, A10, F1, G3, J9) && FILE in c.tasks
    ensures Reaches(c, d) && Are(d, A10, F5, G8, J9) && FILE in d.tasks
  {
    hide Reaches, Are;
    var c1 := Won3(c);
    var c2 := Refused3(c1);
    Then(c, c1, c2);
    d := Taught3(c2);
    Then(c, c2, d);
  }

  // ------------------------------------------------------------ Term 4: f leads, forgets, and commits alone

  const F6: Node := F5.(term := 4, votedFor := Some(f), role := Candidate, leaderId := None)
  const F7: Node := F6.(log := [N1, N3, N4], role := Leader, leaderId := Some(f), termStart := 3)
  const F9: Node := F7.(sendSeq := 1, commitIndex := 3)
  const F10: Node := F9.(log := [N3, N4], snapIndex := 1, snapTerm := 1, snapConfig := {}, lastApplied := 1, members := {}, configIndex := 1)
  const F11: Node := F10.(log := [N3, N4, C4], commitIndex := 4, members := {f}, configIndex := 4)
  const G9: Node := G8.(term := 4, votedFor := Some(f), role := Follower, leaderId := None)
  const G10: Node := G9.(log := [N1, N3, N4], leaderId := Some(f))

  const VOTE4: VoteRequest := VoteRequest(4, f, 2, 3, false)
  const APPEND4: AppendRequest := AppendRequest(4, f, 2, 3, [N4], 0)

  lemma Won4(c: C.Cluster) returns (d: C.Cluster)
    requires Are(c, A10, F5, G8, J9) && FILE in c.tasks
    ensures Reaches(c, d) && Are(d, A10, F7, G9, J9) && FILE in d.tasks
    ensures Fresh(d.nodes[f]) && g in d.nodes[f].nextIndex && d.nodes[f].nextIndex[g] == 3
  {
    hide Reaches, HandleVoteRequest, HandleVoteReply, BecomeCandidate;
    Names();
    var k, o := c.nodes[f], c.nodes[g];
    Stands(k);
    var n := StartCampaign(k);
    var e := Campaigns(c, f);
    assert C.VoteAsk(g, VOTE4) in e.net;
    Votes(o, VOTE4);
    assert (n.votes + {g}) * n.members == {f, g};
    Wins(n, g, VOTE4);
    assert [N1, N3] + [N4] == [N1, N3, N4];
    d := Polls(e, f, g, VOTE4, HandleVoteRequest(o, VOTE4, false).0, VoteReply(4, true), HandleVoteReply(n, g, VOTE4, VoteReply(4, true)));
    Then(c, e, d);
  }

  lemma Committed4(c: C.Cluster) returns (d: C.Cluster)
    requires Are(c, A10, F7, G9, J9) && FILE in c.tasks
    requires Fresh(c.nodes[f]) && g in c.nodes[f].nextIndex && c.nodes[f].nextIndex[g] == 3
    ensures Reaches(c, d) && Are(d, A10, F9, G10, J9) && FILE in d.tasks
  {
    hide Reaches, AppendRequestFor, HandleAppend, HandleAppendReply;
    Names();
    var n, o := c.nodes[f], c.nodes[g];
    assert n.log[2..] == [N4];
    RequestIs(n, g, [N4]);
    Extends(o, APPEND4);
    AcceptedLog(o, 4, f);
    AppendsNoConfig(AcceptLeader(o, 4, f), [N4]);
    assert [N1, N3] + [N4] == [N1, N3, N4];
    var n1 := n.(sendSeq := 1);
    Commits(n1, g, 1, APPEND4);
    d := Exchanges(c, f, g, APPEND4, HandleAppend(o, APPEND4).0, AppendReply(4, true, 3, 0), HandleAppendReply(n1, g, 1, APPEND4, AppendReply(4, true, 3, 0)));
  }

  // The late file takes the membership from a leader that has no CONFIG in its log.
  lemma LosesMembers(n: Node)
    requires Core(n) == F9
    ensures n.snapIndex <= n.lastApplied && Core(InstallSnapshot(n, NOBODY).0) == F10
  {
    Names();
    assert [N1, N3, N4][1..] == [N3, N4];
    assert [N3, N4][..1] == [N3] && [N3][..0] == [];
    assert NewestConfig([N3, N4]) == NewestConfig([N3]) == NewestConfig([]);
  }

  // It is idle, and commits a CONFIG of one node with that node alone.
  lemma CommitsAlone(n: Node)
    requires Core(n) == F10
    ensures ConfigIdle(n) && f !in n.members && n.members + {f} == {f}
    ensures Core(Propose(n, Config({f}), "", None)) == F11
  {
    Names();
    AppendsConfig(n, [C4], C4);
    assert [N3, N4] + [C4] == [N3, N4, C4];
    var m := AppendLocal(n, [C4]);
    assert Replicas(m, 4) == {f};
    assert CommitScan(m, 4) == 4;
  }

  // The late install, which leaves f ready to add itself to nobody.
  lemma Forgets4(c: C.Cluster) returns (d: C.Cluster)
    requires Are(c, A10, F9, G10, J9) && FILE in c.tasks
    ensures Reaches(c, d) && Are(d, A10, F10, G10, J9)
  {
    hide Reaches, InstallSnapshot;
    Names();
    LosesMembers(c.nodes[f]);
    d := Installs(c, FILE, InstallSnapshot(c.nodes[f], NOBODY).0);
  }

  lemma Term4(c: C.Cluster) returns (d: C.Cluster)
    requires Are(c, A10, F5, G8, J9) && FILE in c.tasks
    ensures Reaches(c, d) && Are(d, A10, F10, G10, J9)
  {
    hide Reaches, Are;
    var c1 := Won4(c);
    var c2 := Committed4(c1);
    Then(c, c1, c2);
    d := Forgets4(c2);
    Then(c, c2, d);
  }

  lemma AddsItself(c: C.Cluster) returns (d: C.Cluster)
    requires Are(c, A10, F10, G10, J9)
    ensures Leads(c, C.AddMember(f, f), d) && Are(d, A10, F11, G10, J9)
    ensures f in c.nodes && c.nodes[f].members == {}
  {
    hide Propose, ConfigIdle;
    Names();
    CommitsAlone(c.nodes[f]);
    AddEnabled(c, f, f);
    d := C.Do(c, C.AddMember(f, f));
  }

  // ------------------------------------------------------------ Term 5: g leads without the entry

  const A11: Node := A10.(term := 5, votedFor := Some(g))
  const G11: Node := G10.(term := 5, votedFor := Some(g), role := Candidate, leaderId := None)
  const G12: Node := G11.(log := [N1, N3, N4, N5], role := Leader, leaderId := Some(g), termStart := 4)

  const VOTE5: VoteRequest := VoteRequest(5, g, 3, 4, false)

  lemma Term5(c: C.Cluster) returns (d: C.Cluster)
    requires Are(c, A10, F11, G10, J9)
    ensures Reaches(c, d) && Are(d, A11, F11, G12, J9)
  {
    hide Reaches, HandleVoteRequest, HandleVoteReply, BecomeCandidate;
    Names();
    var k, o := c.nodes[g], c.nodes[a];
    Stands(k);
    var n := StartCampaign(k);
    var e := Campaigns(c, g);
    assert C.VoteAsk(a, VOTE5) in e.net;
    Votes(o, VOTE5);
    assert (n.votes + {a}) * n.members == {g, a};
    Wins(n, a, VOTE5);
    assert [N1, N3, N4] + [N5] == [N1, N3, N4, N5];
    d := Polls(e, g, a, VOTE5, HandleVoteRequest(o, VOTE5, false).0, VoteReply(5, true), HandleVoteReply(n, a, VOTE5, VoteReply(5, true)));
    Then(c, e, d);
  }

  // ------------------------------------------------------------ The run

  lemma StartIsInit()
    ensures C.Init(START, BASE)
  {
    Names();
    assert NewestConfig([]) == 0;
    assert Restart(A0, 0) == A0 && Restart(F0, 0) == F0 && Restart(G0, 0) == G0 && Restart(J0, 0) == J0;
  }

  // A run in which leader f, which knows of no member, adds one at step i, commits entry
  // 4 by that step in term 4, and leader g of term 5 has another entry 4 at moment k: a
  // committed entry is lost.
  lemma CommittedEntryIsLost() returns (cs: seq<C.Cluster>, steps: seq<C.Step>, i: nat, k: nat)
    ensures |cs| == |steps| + 1 && i < k < |cs| && C.IsRun(cs, steps, BASE) && NoCrash(steps)
    ensures f in cs[i].nodes && f in cs[i + 1].nodes && g in cs[k].nodes
    ensures steps[i] == C.AddMember(f, f) && cs[i].nodes[f].members == {}
    ensures cs[i + 1].nodes[f].snapIndex < 4 <= cs[i + 1].nodes[f].commitIndex
    ensures cs[k].nodes[g].role.Leader? && cs[k].nodes[g].term > cs[i + 1].nodes[f].term
    ensures 4 > cs[k].nodes[g].snapIndex && EntryAt(cs[k].nodes[g], 4) != EntryAt(cs[i + 1].nodes[f], 4)
  {
    hide Reaches, Are, Joins, NoCrash, C.IsRun, Leads, C.Init;
    StartIsInit();
    var c1 := Term1();
    var c2 := Term2(c1);
    Then(START, c1, c2);
    var c3 := Term3(c2);
    Then(START, c2, c3);
    var c4 := Term4(c3);
    Then(START, c3, c4);
    var c5 := AddsItself(c4);
    var c6 := Term5(c5);
    cs, steps, i, k := RunThrough(c4, C.AddMember(f, f), c5, c6);
    LastNodes(c5, c6);
  }

  lemma LastNodes(c: C.Cluster, d: C.Cluster)
    requires Are(c, A10, F11, G10, J9) && Are(d, A11, F11, G12, J9)
    ensures f in c.nodes && c.nodes[f].snapIndex == 1 && c.nodes[f].commitIndex == 4 && c.nodes[f].term == 4
    ensures g in d.nodes && d.nodes[g].role.Leader? && d.nodes[g].term == 5 && d.nodes[g].snapIndex == 0
    ensures EntryAt(c.nodes[f], 4) == Some(C4) && EntryAt(d.nodes[g], 4) == Some(N5)
  {
    Names();
  }

  lemma RunThrough(c: C.Cluster, s: C.Step, d: C.Cluster, e: C.Cluster) returns (cs: seq<C.Cluster>, steps: seq<C.Step>, i: nat, k: nat)
    requires Reaches(START, c) && Leads(c, s, d) && !s.Crash? && Reaches(d, e) && C.Init(START, BASE)
    ensures |cs| == |steps| + 1 && i < k < |cs| && C.IsRun(cs, steps, BASE) && NoCrash(steps)
    ensures cs[i] == c && steps[i] == s && cs[i + 1] == d && cs[k] == e
  {
    hide Leads, C.Init;
    var bs, t :| Joins(bs, t, START, c);
    var ds, u :| Joins(ds, u, d, e);
    OneStep(c, s, d);
    Join(bs, t, [c, d], [s], START, c, d);
    var es, v := bs + [c, d][1..], t + [s];
    Join(es, v, ds, u, START, d, e);
    cs, steps := es + ds[1..], v + u;
    i, k := |t|, |v + u|;
    StretchIsRun(cs, steps, BASE);
  }
}
