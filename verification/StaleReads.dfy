// Why the read barrier needs the term to stand: the waiting loop looks at the numbers
// of the answers, not at the term they came in. A leader that is replaced and elected
// again before the loop looks counts answers of its new term, and returns the index it
// took in the old one, below what its replacement has committed. This can happen in
// every cluster of three nodes or more, between any two of them.
module StaleReads {
  import opened Types
  import opened Logs
  import opened Quorums
  import opened Nodes
  import opened Following
  import opened Twins
  import opened ReadBarrier
  import opened Stretches
  import opened Bootstraps
  import C = Clusters

  // A node that has compacted nothing, knows who votes, and has only seen elections.
  ghost predicate Plain(n: Node, v: NodeId, all: set<NodeId>) {
    && n.id == v && v in all && |all| >= 3 && n.members == all
    && n.snapIndex == 0 && n.commitIndex <= |n.log| && n.snapTerm == 0
    && forall i :: 0 <= i < |n.log| ==> n.log[i].index == i + 1 && n.log[i].command == Noop
  }

  function Half(all: set<NodeId>): nat {
    |all| / 2
  }

  // ------------------------------------------------------------ One election

  lemma Backers(all: set<NodeId>, v: NodeId, q: set<NodeId>)
    requires v in all && q <= all - {v}
    ensures |({v} + q) * all| == |q| + 1
  {
    assert ({v} + q) * all == {v} + q;
  }

  lemma Alone(n: Node, all: set<NodeId>)
    requires Plain(n, n.id, all)
    ensures BecomeCandidate(n) == StartCampaign(n)
  {
    Backers(all, n.id, {});
    assert {n.id} + {} == {n.id};
  }

  // A vote that makes no majority yet.
  lemma VoteCounts(n: Node, all: set<NodeId>, q: set<NodeId>, u: NodeId)
    requires Plain(n, n.id, all) && n.role.Candidate? && n.votes == {n.id} + q
    requires q + {u} <= all - {n.id} && u !in q && |q| + 1 < Half(all)
    ensures HandleVoteReply(n, u, CampaignRequest(n, false), VoteReply(n.term, true)) == n.(votes := {n.id} + (q + {u}))
  {
    Backers(all, n.id, q + {u});
    assert n.votes + {u} == {n.id} + (q + {u});
  }

  // The leader of a fresh term: its no-op is in its log and nothing more is committed.
  ghost predicate Crowned(n: Node, m: Node, all: set<NodeId>) {
    && Plain(m, n.id, all) && m.role.Leader? && m.term == n.term
    && m.log == n.log + [Entry(n.term, |n.log| + 1, Noop, "", None)]
    && m.commitIndex == n.commitIndex && m.termStart == |n.log| + 1 && m.sendSeq == n.sendSeq && m.lastAck == map[]
    && (forall p :: p in all && p != n.id ==> p in m.nextIndex && m.nextIndex[p] == |n.log| + 1)
  }

  lemma VoteElects(n: Node, all: set<NodeId>, q: set<NodeId>, u: NodeId)
    requires Plain(n, n.id, all) && n.role.Candidate? && n.votes == {n.id} + q
    requires q + {u} <= all - {n.id} && u !in q && |q| + 1 == Half(all)
    ensures Crowned(n, HandleVoteReply(n, u, CampaignRequest(n, false), VoteReply(n.term, true)), all)
  {
    Backers(all, n.id, q + {u});
    assert n.votes + {u} == {n.id} + (q + {u});
    var m := TakeOffice(n.(votes := n.votes + {u}));
    forall k | n.commitIndex < k <= LastIndex(m)
      ensures |Replicas(m, k)| < Majority(m)
    {
      assert Replicas(m, k) == {n.id};
    }
    NothingToCommit(m, LastIndex(m));
  }

  // m has voted, or followed, in a term and kept its log.
  ghost predicate Follows(o: Node, m: Node, t: nat, all: set<NodeId>) {
    && Plain(m, o.id, all) && m.role.Follower? && m.term == t
    && m.log == o.log && m.commitIndex == o.commitIndex && m.sendSeq == o.sendSeq
  }

  lemma VoteGranted(o: Node, n: Node, all: set<NodeId>)
    requires Plain(o, o.id, all) && o.term <= n.term && o.log == n.log && n.snapIndex == o.snapIndex && n.snapTerm == o.snapTerm
    ensures var (m, reply) := HandleVoteRequest(o, CampaignRequest(StartCampaign(n), false), false);
      reply == VoteReply(n.term + 1, true) && Follows(o, m, n.term + 1, all)
  {
    RaisedLooksSame(o, n.term + 1);
  }

  // v stands in c with everybody of q behind it.
  ghost predicate MayElect(c: C.Cluster, v: NodeId, q: set<NodeId>, all: set<NodeId>) {
    && v in c.nodes && Plain(c.nodes[v], v, all) && !c.nodes[v].role.Leader?
    && q <= all - {v}
    && forall u :: u in q ==> u in c.nodes && Plain(c.nodes[u], u, all) && c.nodes[u].log == c.nodes[v].log && c.nodes[u].term <= c.nodes[v].term
  }

  // In d the nodes of done have voted, and v counts their votes.
  ghost predicate Polled(c: C.Cluster, d: C.Cluster, v: NodeId, q: set<NodeId>, done: set<NodeId>, all: set<NodeId>) {
    && v in c.nodes && d.nodes.Keys == c.nodes.Keys && done <= q <= c.nodes.Keys
    && d.nodes[v] == StartCampaign(c.nodes[v]).(votes := {v} + done)
    && (forall x :: x in c.nodes && x != v && x !in done ==> d.nodes[x] == c.nodes[x])
    && (forall u :: u in done ==> Follows(c.nodes[u], d.nodes[u], c.nodes[v].term + 1, all))
    && (forall u :: u in q ==> C.VoteAsk(u, CampaignRequest(StartCampaign(c.nodes[v]), false)) in d.net)
  }

  ghost predicate ElectedBy(c: C.Cluster, d: C.Cluster, v: NodeId, q: set<NodeId>, all: set<NodeId>) {
    && v in c.nodes && d.nodes.Keys == c.nodes.Keys && q <= c.nodes.Keys
    && (forall x :: x in c.nodes && x != v && x !in q ==> d.nodes[x] == c.nodes[x])
    && (forall u :: u in q ==> Follows(c.nodes[u], d.nodes[u], c.nodes[v].term + 1, all))
    && Crowned(StartCampaign(c.nodes[v]), d.nodes[v], all)
  }

  lemma Stands(c: C.Cluster, v: NodeId, q: set<NodeId>, all: set<NodeId>) returns (d: C.Cluster)
    requires MayElect(c, v, q, all)
    ensures Reaches(c, d) && Polled(c, d, v, q, {}, all)
  {
    hide BecomeCandidate, Follows, Reaches, CampaignRequest;
    var n := c.nodes[v];
    Alone(n, all);
    assert {v} + {} == {v};
    Once(c, C.Timeout(v));
    d := C.Do(c, C.Timeout(v));
  }

  // u answers v's request, and v takes the answer.
  lemma Polls(c: C.Cluster, v: NodeId, u: NodeId, req: VoteRequest) returns (d: C.Cluster)
    requires v in c.nodes && u in c.nodes && u != v && req.candidate == v && C.VoteAsk(u, req) in c.net
    ensures Reaches(c, d) && c.net <= d.net
    ensures var (o, reply) := HandleVoteRequest(c.nodes[u], req, false);
      d.nodes == c.nodes[u := o][v := HandleVoteReply(c.nodes[v], u, req, reply)]
  {
    hide HandleVoteRequest, HandleVoteReply, Reaches;
    var reply := HandleVoteRequest(c.nodes[u], req, false).1;
    var p, a := C.VoteAsk(u, req), C.VoteAnswer(u, req, reply);
    Once(c, C.ReceiveVoteAsk(p, false));
    var e := C.Do(c, C.ReceiveVoteAsk(p, false));
    assert a in e.net;
    Once(e, C.ReceiveVoteAnswer(a));
    d := C.Do(e, C.ReceiveVoteAnswer(a));
    Then(c, e, d);
  }

  lemma OneMore(c: C.Cluster, d: C.Cluster, v: NodeId, q: set<NodeId>, done: set<NodeId>, u: NodeId, all: set<NodeId>) returns (e: C.Cluster)
    requires MayElect(c, v, q, all) && Polled(c, d, v, q, done, all) && |q| == Half(all)
    requires u in q && u !in done
    ensures Reaches(d, e)
    ensures |done| + 1 < |q| ==> Polled(c, e, v, q, done + {u}, all)
    ensures |done| + 1 == |q| ==> done + {u} == q && ElectedBy(c, e, v, q, all)
  {
    hide Reaches, Polled, ElectedBy, Follows, Crowned;
    Unpolled(c, d, v, q, done, u, all);
    e := Polls(d, v, u, CampaignRequest(StartCampaign(c.nodes[v]), false));
    SizeAfter(done, u, q);
    if |done| + 1 < |q| {
      PolledOn(c, d, e, v, q, done, u, all);
    } else {
      ElectedOn(c, d, e, v, q, done, u, all);
    }
  }

  lemma Unpolled(c: C.Cluster, d: C.Cluster, v: NodeId, q: set<NodeId>, done: set<NodeId>, u: NodeId, all: set<NodeId>)
    requires MayElect(c, v, q, all) && Polled(c, d, v, q, done, all) && u in q && u !in done
    ensures v in d.nodes && u in d.nodes && u != v && d.nodes[u] == c.nodes[u] && v in c.nodes && c.nodes[v].id == v && done <= q
    ensures CampaignRequest(StartCampaign(c.nodes[v]), false).candidate == v
    ensures C.VoteAsk(u, CampaignRequest(StartCampaign(c.nodes[v]), false)) in d.net
  {
    hide Follows;
  }

  // The answer of u: its vote, and what v makes of it.
  ghost predicate Answers(c: C.Cluster, d: C.Cluster, e: C.Cluster, v: NodeId, u: NodeId) {
    && v in c.nodes && v in d.nodes && u in d.nodes && d.net <= e.net
    && var req := CampaignRequest(StartCampaign(c.nodes[v]), false);
    var (o, reply) := HandleVoteRequest(d.nodes[u], req, false);
    e.nodes == d.nodes[u := o][v := HandleVoteReply(d.nodes[v], u, req, reply)]
  }

  lemma AnswerFacts(c: C.Cluster, d: C.Cluster, e: C.Cluster, v: NodeId, q: set<NodeId>, done: set<NodeId>, u: NodeId, all: set<NodeId>)
    requires MayElect(c, v, q, all) && Polled(c, d, v, q, done, all) && u in q && u !in done && Answers(c, d, e, v, u)
    ensures
      var n := c.nodes[v];
      var m := StartCampaign(n).(votes := {v} + done);
      && v in c.nodes && u in c.nodes && u in e.nodes && v in e.nodes && u != v
      && Plain(m, m.id, all) && m.id == v && m.role.Candidate? && m.votes == {v} + done && n.id == v && q <= all - {v}
      && Follows(c.nodes[u], e.nodes[u], n.term + 1, all)
      && e.nodes[v] == HandleVoteReply(m, u, CampaignRequest(m, false), VoteReply(m.term, true))
      && e.nodes.Keys == d.nodes.Keys && forall x :: x in d.nodes && x != v && x != u ==> e.nodes[x] == d.nodes[x]
  {
    hide HandleVoteRequest, HandleVoteReply, Follows, Plain, StartCampaign, CampaignRequest;
    var n := c.nodes[v];
    PlainFacts(n, v, all);
    PlainFacts(c.nodes[u], u, all);
    CampaignOf(n, done, all);
    VoteGranted(c.nodes[u], n, all);
  }

  lemma PolledOn(c: C.Cluster, d: C.Cluster, e: C.Cluster, v: NodeId, q: set<NodeId>, done: set<NodeId>, u: NodeId, all: set<NodeId>)
    requires MayElect(c, v, q, all) && Polled(c, d, v, q, done, all) && |q| == Half(all) && u in q && u !in done
    requires Answers(c, d, e, v, u) && |done| + 1 < |q|
    ensures Polled(c, e, v, q, done + {u}, all)
  {
    hide HandleVoteReply, HandleVoteRequest, Follows, Plain, CampaignRequest, StartCampaign, MayElect;
    AnswerFacts(c, d, e, v, q, done, u, all);
    CandidateOn(c.nodes[v], e.nodes[v], v, q, done, u, all);
  }

  lemma CandidateOn(n: Node, k: Node, v: NodeId, q: set<NodeId>, done: set<NodeId>, u: NodeId, all: set<NodeId>)
    requires
      var m := StartCampaign(n).(votes := {v} + done);
      && Plain(m, m.id, all) && m.id == v && m.role.Candidate?
      && k == HandleVoteReply(m, u, CampaignRequest(m, false), VoteReply(m.term, true))
    requires q <= all - {v} && u in q && u !in done && done <= q && |done| + 1 < |q| == Half(all)
    ensures k == StartCampaign(n).(votes := {v} + (done + {u}))
  {
    hide HandleVoteReply, Plain, CampaignRequest;
    VoteCounts(StartCampaign(n).(votes := {v} + done), all, done, u);
  }

  lemma ElectedOn(c: C.Cluster, d: C.Cluster, e: C.Cluster, v: NodeId, q: set<NodeId>, done: set<NodeId>, u: NodeId, all: set<NodeId>)
    requires MayElect(c, v, q, all) && Polled(c, d, v, q, done, all) && |q| == Half(all) && u in q && u !in done
    requires Answers(c, d, e, v, u) && |done| + 1 == |q| && done + {u} == q
    ensures ElectedBy(c, e, v, q, all)
  {
    hide Answers, HandleVoteReply, Follows, Plain, CampaignRequest, Crowned, StartCampaign, MayElect;
    AnswerFacts(c, d, e, v, q, done, u, all);
    var m := StartCampaign(c.nodes[v]).(votes := {v} + done);
    VoteElects(m, all, done, u);
    SameCrown(StartCampaign(c.nodes[v]), m, e.nodes[v], all);
  }

  lemma PlainFacts(n: Node, v: NodeId, all: set<NodeId>)
    requires Plain(n, v, all)
    ensures n.id == v && v in all && n.snapIndex == n.snapTerm == 0 && |all| >= 3
  {
  }

  lemma SizeAfter(done: set<NodeId>, u: NodeId, q: set<NodeId>)
    requires done <= q && u in q && u !in done
    ensures |done + {u}| == |done| + 1 <= |q|
    ensures |done| + 1 == |q| ==> done + {u} == q
  {
    SubsetSize(done + {u}, q);
    if |done| + 1 == |q| && done + {u} != q {
      var x :| x in q && x !in done + {u};
      SubsetSize(done + {u} + {x}, q);
    }
  }

  lemma CampaignOf(n: Node, done: set<NodeId>, all: set<NodeId>)
    requires Plain(n, n.id, all)
    ensures
      var m, r := StartCampaign(n).(votes := {n.id} + done), CampaignRequest(StartCampaign(n), false);
      && Plain(m, n.id, all) && m.id == n.id && m.role.Candidate? && m.term == n.term + 1 && n.snapIndex == n.snapTerm == 0
      && r.candidate == n.id && r == CampaignRequest(m, false)
  {
  }

  lemma SameCrown(n: Node, m: Node, k: Node, all: set<NodeId>)
    requires Crowned(m, k, all) && m == n.(votes := m.votes)
    ensures Crowned(n, k, all)
  {
  }

  lemma {:induction false} Counts(c: C.Cluster, d: C.Cluster, v: NodeId, q: set<NodeId>, done: set<NodeId>, all: set<NodeId>) returns (e: C.Cluster)
    requires MayElect(c, v, q, all) && Polled(c, d, v, q, done, all) && |done| < |q| == Half(all)
    ensures Reaches(d, e) && ElectedBy(c, e, v, q, all)
    decreases |q| - |done|
  {
    hide Polled, MayElect, ElectedBy, Reaches;
    DoneWithin(c, d, v, q, done, all);
    var u :| u in q && u !in done;
    var f := OneMore(c, d, v, q, done, u, all);
    SizeAfter(done, u, q);
    if |done| + 1 == |q| {
      e := f;
    } else {
      e := Counts(c, f, v, q, done + {u}, all);
      Then(d, f, e);
    }
  }

  lemma DoneWithin(c: C.Cluster, d: C.Cluster, v: NodeId, q: set<NodeId>, done: set<NodeId>, all: set<NodeId>)
    requires Polled(c, d, v, q, done, all) && |done| < |q|
    ensures done <= q && exists u :: u in q && u !in done
  {
    hide Follows;
    assert q == done + (q - done);
    var u :| u in q - done;
  }

  lemma Elect(c: C.Cluster, v: NodeId, q: set<NodeId>, all: set<NodeId>) returns (d: C.Cluster)
    requires MayElect(c, v, q, all) && |q| == Half(all)
    ensures Reaches(c, d) && ElectedBy(c, d, v, q, all)
  {
    hide Polled, ElectedBy, Reaches;
    var e := Stands(c, v, q, all);
    d := Counts(c, e, v, q, {}, all);
    Then(c, e, d);
  }

  // ------------------------------------------------------------ One round of replication

  // u has all of the leader's log but its last entry, which is of the leader's term.
  ghost predicate MayReplicate(n: Node, o: Node, all: set<NodeId>) {
    && n.id != o.id && Plain(n, n.id, all) && Plain(o, o.id, all)
    && n.role.Leader? && o.term <= n.term
    && n.log != [] && o.log == n.log[..|n.log| - 1] && n.log[|n.log| - 1].term == n.term
    && o.id in n.nextIndex && n.nextIndex[o.id] == |n.log|
  }

  // The leader after the answer of u: it counts u, and commits with a majority.
  ghost predicate Counted(n: Node, m: Node, u: NodeId, all: set<NodeId>) {
    && Plain(m, n.id, all) && m.role.Leader? && m.term == n.term && m.log == n.log && m.termStart == n.termStart
    && m.sendSeq == n.sendSeq + 1 && m.commitIndex >= n.commitIndex
    && (forall p :: p != u ==> Lookup(m.lastAck, p) == Lookup(n.lastAck, p) && Lookup(m.matchIndex, p) == Lookup(n.matchIndex, p))
    && Lookup(m.lastAck, u) > n.sendSeq && Lookup(m.matchIndex, u) >= |n.log|
    && (forall p :: p in n.nextIndex && p != u ==> p in m.nextIndex && m.nextIndex[p] == n.nextIndex[p])
    && (|Replicas(m, |n.log|)| > Half(all) ==> m.commitIndex == |n.log|)
  }

  // The follower: it has the leader's log.
  ghost predicate Taught(n: Node, o: Node, m: Node, all: set<NodeId>) {
    && Plain(m, o.id, all) && m.role.Follower? && m.term == n.term && m.log == n.log && m.sendSeq == o.sendSeq
  }

  function LastEntryRequest(n: Node): AppendRequest
    requires n.log != []
  {
    var k := |n.log|;
    AppendRequest(n.term, n.id, k - 1, if k == 1 then 0 else n.log[k - 2].term, [n.log[k - 1]], n.commitIndex)
  }

  lemma RequestIs(n: Node, u: NodeId, all: set<NodeId>)
    requires Plain(n, n.id, all) && n.log != [] && u in n.nextIndex && n.nextIndex[u] == |n.log|
    ensures AppendRequestFor(n, u) == Some(LastEntryRequest(n))
  {
    assert EntriesFrom(n, |n.log|, MAX_ENTRIES_PER_RPC) == [n.log[|n.log| - 1]];
  }

  lemma AppendTakes(n: Node, o: Node, all: set<NodeId>)
    requires MayReplicate(n, o, all)
    ensures var (m, reply) := HandleAppend(o, LastEntryRequest(n)); reply == AppendReply(n.term, true, |n.log|, 0) && Taught(n, o, m, all)
  {
    hide AcceptLeader;
    var req, k := LastEntryRequest(n), |n.log|;
    var e := n.log[k - 1];
    var a := AcceptLeader(o, req.term, req.leader);
    AcceptShape(o, req.term, req.leader);
    AcceptIsSame(o, req.term, req.leader);
    AcceptRest(o, req.term, req.leader);
    assert NodeTermAt(a, e.index) == None;
    assert Known(a, [e]) == 0;
    assert [e][0..] == [e];
    assert o.log + [e] == n.log;
    assert Merge(a, [e]) == a.(log := n.log);
  }

  lemma AcceptRest(o: Node, t: nat, leader: NodeId)
    requires t >= o.term
    ensures var a := AcceptLeader(o, t, leader); a.id == o.id && a.sendSeq == o.sendSeq
  {
  }

  lemma AnswerCounts(n: Node, u: NodeId, all: set<NodeId>)
    requires Plain(n, n.id, all) && u in all && u != n.id && n.role.Leader?
    requires n.log != [] && n.log[|n.log| - 1].term == n.term
    ensures Counted(n, HandleAppendReply(n.(sendSeq := n.sendSeq + 1), u, n.sendSeq + 1, LastEntryRequest(n), AppendReply(n.term, true, |n.log|, 0)), u, all)
  {
    var c := NoteContact(n.(sendSeq := n.sendSeq + 1), u, n.sendSeq + 1);
    var k := Max(Lookup(c.matchIndex, u), |n.log|);
    var m := c.(matchIndex := c.matchIndex[u := k], nextIndex := c.nextIndex[u := k + 1]);
    assert NodeTermAt(m, |n.log|) == Some(n.term);
    assert AdvanceCommit(m).commitIndex == CommitScan(m, |n.log|);
    assert Replicas(AdvanceCommit(m), |n.log|) == Replicas(m, |n.log|);
  }

  lemma Replicate(c: C.Cluster, v: NodeId, u: NodeId, all: set<NodeId>) returns (d: C.Cluster)
    requires v in c.nodes && u in c.nodes && c.nodes[v].id == v && c.nodes[u].id == u && MayReplicate(c.nodes[v], c.nodes[u], all)
    ensures Reaches(c, d) && d.nodes.Keys == c.nodes.Keys
    ensures forall x :: x in c.nodes && x != v && x != u ==> d.nodes[x] == c.nodes[x]
    ensures Counted(c.nodes[v], d.nodes[v], u, all) && Taught(c.nodes[v], c.nodes[u], d.nodes[u], all)
  {
    hide HandleAppend, HandleAppendReply, AppendRequestFor, Reaches, Counted, Taught;
    var n, o := c.nodes[v], c.nodes[u];
    RequestIs(n, u, all);
    var req := LastEntryRequest(n);
    var n1 := n.(sendSeq := n.sendSeq + 1);
    var p := C.AppendAsk(u, n1.sendSeq, req);
    Once(c, C.SendEntries(v, u));
    var e := C.Do(c, C.SendEntries(v, u));
    AppendTakes(n, o, all);
    var (o', reply) := HandleAppend(o, req);
    var a := C.AppendAnswer(u, n1.sendSeq, req, reply);
    Once(e, C.ReceiveAppend(p));
    var f := C.Do(e, C.ReceiveAppend(p));
    Then(c, e, f);
    AnswerCounts(n, u, all);
    Once(f, C.ReceiveAppendAnswer(a));
    d := C.Do(f, C.ReceiveAppendAnswer(a));
    Then(c, f, d);
  }

  // ------------------------------------------------------------ A whole term

  // The peers have the log of v, and v is not behind any of them in term.
  ghost predicate MayLead(c: C.Cluster, v: NodeId, peers: set<NodeId>, all: set<NodeId>) {
    && c.nodes.Keys == all && v in all && v !in peers && peers <= all && Half(all) <= |peers|
    && Plain(c.nodes[v], v, all) && !c.nodes[v].role.Leader?
    && forall u :: u in peers ==> Plain(c.nodes[u], u, all) && c.nodes[u].log == c.nodes[v].log && c.nodes[u].term <= c.nodes[v].term
  }

  // v, which was n, leads the next term as m and counts the peers in done.
  ghost predicate LeaderSince(n: Node, m: Node, v: NodeId, done: set<NodeId>, all: set<NodeId>) {
    && n.id == v && Plain(m, v, all) && m.role.Leader? && m.term == n.term + 1
    && m.log == n.log + [Entry(m.term, |n.log| + 1, Noop, "", None)] && m.termStart == |m.log| && m.sendSeq >= n.sendSeq
    && (forall p :: p in all && p != v && p !in done ==> p in m.nextIndex && m.nextIndex[p] == |m.log|)
    && (forall u :: u in done ==> Lookup(m.lastAck, u) > n.sendSeq && Lookup(m.matchIndex, u) >= |m.log|)
    && (|done| >= Half(all) ==> m.commitIndex == |m.log|)
  }

  // A peer, which was o, before or after it has taken the leader's entry.
  ghost predicate PeerSince(o: Node, p: Node, n: Node, m: Node, u: NodeId, taken: bool, all: set<NodeId>) {
    && Plain(p, u, all) && p.sendSeq == o.sendSeq
    && if taken then p.log == m.log && p.term == m.term && p.role.Follower? else p.log == n.log && p.term <= m.term
  }

  // In d v leads the next term, and the peers in done have its log.
  ghost predicate Led(c: C.Cluster, d: C.Cluster, v: NodeId, peers: set<NodeId>, done: set<NodeId>, all: set<NodeId>) {
    && c.nodes.Keys == all && v in all && d.nodes.Keys == all && done <= peers <= all - {v}
    && (forall x :: x in all && x != v && x !in peers ==> d.nodes[x] == c.nodes[x])
    && LeaderSince(c.nodes[v], d.nodes[v], v, done, all)
    && forall u :: u in peers ==> PeerSince(c.nodes[u], d.nodes[u], c.nodes[v], d.nodes[v], u, u in done, all)
  }

  lemma JustElected(c: C.Cluster, d: C.Cluster, v: NodeId, q: set<NodeId>, peers: set<NodeId>, all: set<NodeId>)
    requires MayLead(c, v, peers, all) && q <= peers && ElectedBy(c, d, v, q, all)
    ensures Led(c, d, v, peers, {}, all)
  {
    assert Half(all) > 0;
  }

  lemma TeachesOne(c: C.Cluster, d: C.Cluster, v: NodeId, peers: set<NodeId>, done: set<NodeId>, u: NodeId, all: set<NodeId>) returns (e: C.Cluster)
    requires Led(c, d, v, peers, done, all) && u in peers && u !in done
    ensures Reaches(d, e) && Led(c, e, v, peers, done + {u}, all)
  {
    hide Reaches, Counted, Taught, Led;
    ReadyFor(c, d, v, peers, done, u, all);
    e := Replicate(d, v, u, all);
    LedOn(c, d, e, v, peers, done, u, all);
  }

  lemma ReadyFor(c: C.Cluster, d: C.Cluster, v: NodeId, peers: set<NodeId>, done: set<NodeId>, u: NodeId, all: set<NodeId>)
    requires Led(c, d, v, peers, done, all) && u in peers && u !in done
    ensures v in d.nodes && u in d.nodes && d.nodes[v].id == v && d.nodes[u].id == u && MayReplicate(d.nodes[v], d.nodes[u], all)
  {
    var m := d.nodes[v];
    assert m.log[..|m.log| - 1] == c.nodes[v].log;
  }

  lemma LedOn(c: C.Cluster, d: C.Cluster, e: C.Cluster, v: NodeId, peers: set<NodeId>, done: set<NodeId>, u: NodeId, all: set<NodeId>)
    requires Led(c, d, v, peers, done, all) && u in peers && u !in done
    requires e.nodes.Keys == d.nodes.Keys && v in d.nodes && u in d.nodes
    requires forall x :: x in d.nodes && x != v && x != u ==> e.nodes[x] == d.nodes[x]
    requires Counted(d.nodes[v], e.nodes[v], u, all) && Taught(d.nodes[v], d.nodes[u], e.nodes[u], all)
    ensures Led(c, e, v, peers, done + {u}, all)
  {
    hide LeaderSince, PeerSince, Counted, Taught;
    LeaderOn(c.nodes[v], d.nodes[v], e.nodes[v], v, done, u, all);
    assert PeerSince(c.nodes[u], d.nodes[u], c.nodes[v], d.nodes[v], u, false, all);
    PeerTaught(c.nodes[u], d.nodes[u], e.nodes[u], c.nodes[v], d.nodes[v], e.nodes[v], u, all);
    forall x | x in peers && x != u
      ensures PeerSince(c.nodes[x], e.nodes[x], c.nodes[v], e.nodes[v], x, x in done + {u}, all)
    {
      assert PeerSince(c.nodes[x], d.nodes[x], c.nodes[v], d.nodes[v], x, x in done, all);
      PeerWaits(c.nodes[x], d.nodes[x], c.nodes[v], d.nodes[v], e.nodes[v], u, x, x in done, all);
    }
  }

  lemma LeaderOn(n: Node, m: Node, k: Node, v: NodeId, done: set<NodeId>, u: NodeId, all: set<NodeId>)
    requires LeaderSince(n, m, v, done, all) && Counted(m, k, u, all) && done + {u} <= all - {v} && u !in done
    ensures LeaderSince(n, k, v, done + {u}, all)
  {
    hide Replicas;
    if |done + {u}| >= Half(all) {
      CommitsWithHalf(k, done + {u}, all);
    }
  }

  lemma PeerTaught(o: Node, p: Node, r: Node, n: Node, m: Node, k: Node, u: NodeId, all: set<NodeId>)
    requires PeerSince(o, p, n, m, u, false, all) && Taught(m, p, r, all) && Counted(m, k, u, all)
    ensures PeerSince(o, r, n, k, u, true, all)
  {
    hide Replicas;
  }

  lemma PeerWaits(o: Node, p: Node, n: Node, m: Node, k: Node, u: NodeId, x: NodeId, taken: bool, all: set<NodeId>)
    requires PeerSince(o, p, n, m, x, taken, all) && Counted(m, k, u, all)
    ensures PeerSince(o, p, n, k, x, taken, all)
  {
    hide Replicas;
  }

  // Half of the members and the leader itself are a majority.
  lemma CommitsWithHalf(m: Node, done: set<NodeId>, all: set<NodeId>)
    requires m.members == all && m.id in all && done <= all - {m.id} && |done| >= Half(all)
    ensures (forall u :: u in done ==> Lookup(m.matchIndex, u) >= |m.log|) ==> |Replicas(m, |m.log|)| > Half(all)
  {
    if forall u :: u in done ==> Lookup(m.matchIndex, u) >= |m.log| {
      SubsetSize(done + {m.id}, Replicas(m, |m.log|));
    }
  }

  lemma {:induction false} Teaches(c: C.Cluster, d: C.Cluster, v: NodeId, peers: set<NodeId>, done: set<NodeId>, all: set<NodeId>) returns (e: C.Cluster)
    requires Led(c, d, v, peers, done, all)
    ensures Reaches(d, e) && Led(c, e, v, peers, peers, all)
    decreases |peers| - |done|
  {
    hide Led, Reaches;
    DoneAmong(c, d, v, peers, done, all);
    if done == peers {
      Stay(d);
      e := d;
    } else {
      var u :| u in peers && u !in done;
      SizeAfter(done, u, peers);
      var f := TeachesOne(c, d, v, peers, done, u, all);
      e := Teaches(c, f, v, peers, done + {u}, all);
      Then(d, f, e);
    }
  }

  lemma DoneAmong(c: C.Cluster, d: C.Cluster, v: NodeId, peers: set<NodeId>, done: set<NodeId>, all: set<NodeId>)
    requires Led(c, d, v, peers, done, all)
    ensures done <= peers
    ensures done != peers ==> exists u :: u in peers && u !in done
  {
    hide Plain;
  }

  // v is elected and brings its peers up to date.
  lemma Term(c: C.Cluster, v: NodeId, peers: set<NodeId>, all: set<NodeId>) returns (d: C.Cluster)
    requires MayLead(c, v, peers, all)
    ensures Reaches(c, d) && Led(c, d, v, peers, peers, all)
  {
    hide Reaches, ElectedBy, Led;
    var q := OfSize(peers, Half(all));
    assert MayElect(c, v, q, all);
    var e := Elect(c, v, q, all);
    JustElected(c, e, v, q, peers, all);
    d := Teaches(c, e, v, peers, {}, all);
    Then(c, e, d);
  }

  // ------------------------------------------------------------ The run

  function FirstNode(v: NodeId, all: set<NodeId>): Node {
    Node(v, 0, None, [], 0, 0, all, Follower, None, 0, 0, map[], map[], all, 0, 0, 0, map[], {}, 0)
  }

  function Start(all: set<NodeId>): C.Cluster {
    C.Cluster(map v | v in all :: FirstNode(v, all), {}, {})
  }

  lemma FirstIsFresh(v: NodeId, all: set<NodeId>)
    ensures C.FreshNode(FirstNode(v, all), all)
  {
    var n := FirstNode(v, all);
    assert NewestConfig(n.log) == 0;
    assert Restart(n, 0) == n;
  }

  lemma StartIsInit(all: set<NodeId>)
    ensures C.Init(Start(all), all)
  {
    hide C.FreshNode;
    forall v | v in all
      ensures C.FreshNode(FirstNode(v, all), all)
    {
      FirstIsFresh(v, all);
    }
  }

  lemma Others(all: set<NodeId>, a: NodeId, b: NodeId)
    requires |all| >= 3 && a in all && b in all && a != b
    ensures |all - {a}| == |all| - 1 >= Half(all)
    ensures |all - {b} - {a}| == |all| - 2 >= Half(all)
  {
  }

  // a still takes itself for the leader of term 1, b has led term 2 and committed its
  // own entry with all the others.
  ghost predicate Overtaken(d: C.Cluster, a: NodeId, b: NodeId, all: set<NodeId>) {
    && d.nodes.Keys == all && |all| >= 3 && a in all && b in all && a != b
    && Plain(d.nodes[a], a, all) && d.nodes[a].role.Leader? && d.nodes[a].term == 1
    && |d.nodes[a].log| == d.nodes[a].commitIndex == d.nodes[a].termStart == 1
    && Plain(d.nodes[b], b, all) && d.nodes[b].role.Leader? && d.nodes[b].term == 2 && |d.nodes[b].log| == d.nodes[b].commitIndex == 2
    && d.nodes[b].log[..1] == d.nodes[a].log && d.nodes[b].log[1].term == 2
    && a in d.nodes[b].nextIndex && d.nodes[b].nextIndex[a] == 2
    && forall u :: u in all - {a} ==> Plain(d.nodes[u], u, all) && d.nodes[u].log == d.nodes[b].log && d.nodes[u].term == 2
  }

  lemma UntilTheReadBegins(a: NodeId, b: NodeId, all: set<NodeId>) returns (d: C.Cluster)
    requires |all| >= 3 && a in all && b in all && a != b
    ensures Reaches(Start(all), d) && Overtaken(d, a, b, all)
  {
    hide Reaches, Led, Overtaken;
    Others(all, a, b);
    var e := Term(Start(all), a, all - {a}, all);
    FirstTerm(e, a, b, all);
    d := Term(e, b, all - {b} - {a}, all);
    SecondTerm(e, d, a, b, all);
    Then(Start(all), e, d);
  }

  // The end of term 1: all have its entry.
  ghost predicate Settled(e: C.Cluster, a: NodeId, all: set<NodeId>) {
    && e.nodes.Keys == all && a in all && |all| >= 3
    && e.nodes[a].role.Leader? && e.nodes[a].term == 1
    && |e.nodes[a].log| == e.nodes[a].commitIndex == e.nodes[a].termStart == 1
    && (forall u :: u in all ==> Plain(e.nodes[u], u, all) && e.nodes[u].log == e.nodes[a].log && e.nodes[u].term == 1)
    && (forall u :: u in all && u != a ==> e.nodes[u].role.Follower?)
  }

  lemma FirstTerm(e: C.Cluster, a: NodeId, b: NodeId, all: set<NodeId>)
    requires |all| >= 3 && a in all && b in all && a != b && Led(Start(all), e, a, all - {a}, all - {a}, all)
    ensures Settled(e, a, all) && MayLead(e, b, all - {b} - {a}, all)
  {
    Others(all, a, b);
  }

  lemma SecondTerm(e: C.Cluster, d: C.Cluster, a: NodeId, b: NodeId, all: set<NodeId>)
    requires Settled(e, a, all) && b in all && a != b && Led(e, d, b, all - {b} - {a}, all - {b} - {a}, all)
    ensures Overtaken(d, a, b, all)
  {
    Others(all, a, b);
    assert d.nodes[b].log[..1] == e.nodes[b].log;
  }

  // Everybody in d has answered a since it led term 1.
  ghost predicate AllAnswered(d: C.Cluster, a: NodeId, start: nat, all: set<NodeId>) {
    && d.nodes.Keys == all && a in all && d.nodes[a].id == a && d.nodes[a].term == 3 && d.nodes[a].members == all
    && forall u :: u in all - {a} ==> Lookup(d.nodes[a].lastAck, u) > start
  }

  // b brings a up to date, and a is elected again and hears from all the others.
  lemma UntilTheReadReturns(d: C.Cluster, a: NodeId, b: NodeId, all: set<NodeId>) returns (f: C.Cluster)
    requires Overtaken(d, a, b, all)
    ensures Reaches(d, f) && a in d.nodes && AllAnswered(f, a, d.nodes[a].sendSeq, all)
  {
    hide Reaches, Led, Counted, Taught, Plain;
    Others(all, a, b);
    CatchesUp(d, a, b, all);
    var e := Replicate(d, b, a, all);
    Again(d, e, a, b, all);
    f := Term(e, a, all - {a}, all);
    Answered(e, f, a, all);
    Then(d, e, f);
  }

  lemma CatchesUp(d: C.Cluster, a: NodeId, b: NodeId, all: set<NodeId>)
    requires Overtaken(d, a, b, all)
    ensures d.nodes[a].id == a && d.nodes[b].id == b && MayReplicate(d.nodes[b], d.nodes[a], all)
  {
  }

  lemma Again(d: C.Cluster, e: C.Cluster, a: NodeId, b: NodeId, all: set<NodeId>)
    requires Overtaken(d, a, b, all) && e.nodes.Keys == all
    requires forall x :: x in all && x != b && x != a ==> e.nodes[x] == d.nodes[x]
    requires Counted(d.nodes[b], e.nodes[b], a, all) && Taught(d.nodes[b], d.nodes[a], e.nodes[a], all)
    ensures MayLead(e, a, all - {a}, all) && e.nodes[a].term == 2 && e.nodes[a].sendSeq == d.nodes[a].sendSeq
  {
    Others(all, a, b);
    hide Replicas;
  }

  lemma Answered(e: C.Cluster, f: C.Cluster, a: NodeId, all: set<NodeId>)
    requires a in all && Led(e, f, a, all - {a}, all - {a}, all) && e.nodes[a].term == 2
    ensures AllAnswered(f, a, e.nodes[a].sendSeq, all)
  {
  }

  lemma EnoughAckers(d: C.Cluster, a: NodeId, start: nat, all: set<NodeId>)
    requires AllAnswered(d, a, start, all)
    ensures |Ackers(d.nodes[a], start)| >= Majority(d.nodes[a])
  {
    assert Ackers(d.nodes[a], start) == all;
  }

  // In every cluster of three nodes or more, for any two of them: a run without a crash in
  // which a read begins at moment j with leader a of term 1, takes index 1, sees a
  // majority of answers at moment k, in a later term, and would return 1 although b had
  // committed index 2 before the read began.
  lemma ReadAcrossTermsIsStale(all: set<NodeId>, a: NodeId, b: NodeId) returns (cs: seq<C.Cluster>, steps: seq<C.Step>, j: nat, k: nat)
    requires |all| >= 3 && a in all && b in all && a != b
    ensures |cs| == |steps| + 1 && j < k < |cs| && C.IsKnowingRun(cs, steps, all) && NoCrash(steps)
    ensures a in cs[j].nodes && b in cs[j].nodes && a in cs[k].nodes
    ensures cs[j].nodes[a].role.Leader? && cs[j].nodes[a].commitIndex >= cs[j].nodes[a].termStart
    ensures |Ackers(cs[k].nodes[a], cs[j].nodes[a].sendSeq)| >= Majority(cs[k].nodes[a])
    ensures cs[k].nodes[a].term > cs[j].nodes[a].term
    ensures cs[j].nodes[b].commitIndex > cs[j].nodes[a].commitIndex
  {
    hide Stretch, NoCrash, Leads, C.IsRun, Ackers, C.Init, Joins;
    var d := UntilTheReadBegins(a, b, all);
    var f := UntilTheReadReturns(d, a, b, all);
    StartIsInit(all);
    cs, steps, j, k := RunThrough(d, f, all);
    EnoughAckers(f, a, d.nodes[a].sendSeq, all);
  }

  lemma RunThrough(d: C.Cluster, f: C.Cluster, all: set<NodeId>) returns (cs: seq<C.Cluster>, steps: seq<C.Step>, j: nat, k: nat)
    requires Reaches(Start(all), d) && Reaches(d, f) && C.Init(Start(all), all) && d != f
    ensures |cs| == |steps| + 1 && j < k < |cs| && C.IsKnowingRun(cs, steps, all) && NoCrash(steps) && cs[j] == d && cs[k] == f
  {
    hide Leads, C.Init;
    var bs, s :| Joins(bs, s, Start(all), d);
    var ds, t :| Joins(ds, t, d, f);
    Join(bs, s, ds, t, Start(all), d, f);
    cs, steps, j, k := bs + ds[1..], s + t, |s|, |s + t|;
    StretchIsRun(cs, steps, all);
    BootstrappedRunsKnow(cs, steps, all);
  }
}
