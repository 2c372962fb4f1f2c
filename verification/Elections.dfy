// What a node answers to the ones who ask for its vote, said of whole logs, and what it
// does when it stands itself or is told to take over.
module Elections {
  import opened Types
  import opened Logs
  import opened Nodes
  import opened Compaction
  import opened Twins
  import C = Clusters

  // The request of a candidate whose whole log is m.
  ghost predicate Names(req: VoteRequest, m: Log) {
    req.lastLogIndex == |m| && req.lastLogTerm == LastTerm(m)
  }

  // A campaign names the candidate's whole log, compacted or not, and its term.
  lemma CampaignNamesLog(base: set<NodeId>, n: Node, m: Log, transfer: bool)
    requires Represents(base, n, m)
    ensures var req := CampaignRequest(StartCampaign(n), transfer);
      Names(req, m) && req.term == n.term + 1 && req.candidate == n.id && req.transfer == transfer
  {
    hide Represents, Stores;
    RepresentsStores(base, n, m);
    Queries(base, n, m);
    StandingKeepsLog(n);
  }

  lemma StandingKeepsLog(n: Node)
    ensures LastIndex(StartCampaign(n)) == LastIndex(n) && NodeLastTerm(StartCampaign(n)) == NodeLastTerm(n)
  {
  }

  lemma LogRule(base: set<NodeId>, n: Node, l: Log, m: Log, req: VoteRequest)
    requires Represents(base, n, l) && Names(req, m)
    ensures LogOk(n, req) <==> UpToDate(m, l)
  {
    hide Represents, Stores;
    RepresentsStores(base, n, l);
    Queries(base, n, l);
  }

  // ------------------------------------------------------------ Votes

  // A vote is granted if and only if the term is not behind, no live leader is disturbed,
  // the vote of the term is free or the candidate's own, and its log is up to date.
  lemma VoteGrantedIff(base: set<NodeId>, n: Node, l: Log, m: Log, req: VoteRequest, inLease: bool)
    requires Represents(base, n, l) && Names(req, m)
    ensures HandleVoteRequest(n, req, inLease).1.granted <==>
      && req.term >= n.term
      && (req.term > n.term && inLease ==> req.transfer)
      && (req.term == n.term ==> n.votedFor == None || n.votedFor == Some(req.candidate))
      && UpToDate(m, l)
  {
    hide Represents, NodeLastTerm, LastIndex, UpToDate;
    LogRule(base, n, l, m, req);
    RaisedLooksSame(n, req.term);
  }

  // A granted vote is the candidate's in its term; a refusal gives nobody a vote; and a
  // later term is taken, unless a live leader is disturbed.
  lemma VoteIsCast(n: Node, req: VoteRequest, inLease: bool)
    ensures var (m, reply) := HandleVoteRequest(n, req, inLease);
      && reply.term == m.term && m.log == n.log && m.snapIndex == n.snapIndex
      && (reply.granted ==> m.votedFor == Some(req.candidate) && m.term == req.term && m.generation > n.generation)
      && (!reply.granted ==> m.votedFor == n.votedFor || (m.votedFor == None && m.term > n.term))
      && (req.term > n.term && (req.transfer || !inLease) ==> m.term == req.term && m.role.Follower?)
      && (req.term > n.term && !req.transfer && inLease ==> m == n)
      && (req.term <= n.term ==> m.term == n.term && m.role == n.role)
  {
    hide LogOk;
  }

  // ------------------------------------------------------------ Pre-votes

  // A pre-vote is granted if and only if the term is above the node's own, no live leader
  // is heard, and the candidate's log is up to date.
  lemma PreVoteGrantedIff(base: set<NodeId>, n: Node, l: Log, m: Log, req: VoteRequest, inLease: bool)
    requires Represents(base, n, l) && Names(req, m)
    ensures HandlePreVote(n, req, inLease).granted <==> req.term > n.term && !inLease && UpToDate(m, l)
    ensures HandlePreVote(n, req, inLease).term == n.term
  {
    hide Represents, NodeLastTerm, LastIndex, UpToDate;
    LogRule(base, n, l, m, req);
  }

  // The answer to a pre-vote for a new term foresees the answer to the vote itself, of a
  // node that has not changed and hears as much of a leader.
  lemma PreVoteForeseesVote(n: Node, req: VoteRequest, inLease: bool)
    requires !req.transfer && req.term > n.term
    ensures HandlePreVote(n, req, inLease).granted <==> HandleVoteRequest(n, req, inLease).1.granted
  {
    hide NodeLastTerm, LastIndex;
    RaisedLooksSame(n, req.term);
  }

  // Compaction does not show in the answer.
  lemma SamePreVote(base: set<NodeId>, n: Node, o: Node, l: Log, req: VoteRequest, inLease: bool)
    requires Twin(base, n, o, l)
    ensures HandlePreVote(n, req, inLease) == HandlePreVote(o, req, inLease)
  {
    hide Represents, Stores;
    RepresentsStores(base, n, l);
    RepresentsStores(base, o, l);
    Queries(base, n, l);
    Queries(base, o, l);
  }

  // ------------------------------------------------------------ Standing for election

  // The node stands in the next term with its own vote, and leads at once if and only if
  // it is the only voter.
  ghost predicate Stands(n: Node, m: Node) {
    && m.id == n.id && m.term == n.term + 1 && m.votedFor == Some(n.id) && m.members == n.members && m.generation > n.generation
    && (m.role.Leader? <==> n.members == {n.id})
    && (m.role.Candidate? <==> n.members != {n.id})
    && (m.role.Candidate? ==> m.log == n.log && m.votes == {n.id})
    && (m.role.Leader? ==> m.log == n.log + [Entry(m.term, LastIndex(n) + 1, Noop, "", None)])
  }

  lemma SoleVoter(n: Node)
    ensures Elected(StartCampaign(n)) <==> n.members == {n.id}
  {
    if n.id in n.members {
      assert {n.id} * n.members == {n.id};
      if |n.members| == 1 {
        assert |n.members - {n.id}| == 0;
      }
    } else {
      assert {n.id} * n.members == {};
    }
  }

  lemma CandidateStands(n: Node)
    ensures Stands(n, BecomeCandidate(n))
  {
    hide Elected, BecomeLeader;
    SoleVoter(n);
    OfficeFacts(StartCampaign(n));
  }

  // A new leader has its no-op at the end of its log, asks everybody from there on, and
  // has forgotten what peers acknowledged in earlier offices.
  lemma OfficeFacts(n: Node)
    ensures var m := BecomeLeader(n);
      && m.role.Leader? && m.leaderId == Some(n.id) && m.id == n.id && m.term == n.term && m.votedFor == n.votedFor && m.members == n.members
      && m.log == n.log + [Entry(n.term, LastIndex(n) + 1, Noop, "", None)] && m.termStart == LastIndex(n) + 1
      && m.snapIndex == n.snapIndex && m.generation > n.generation && m.lastAck == map[]
      && (forall p :: p in n.members && p != n.id ==> p in m.nextIndex && m.nextIndex[p] == LastIndex(n) + 1 && Lookup(m.matchIndex, p) == 0)
  {
    hide CommitScan;
  }

  // A granted vote of the candidate's own term is counted: with a majority of the members
  // it leads, with fewer it goes on waiting.
  lemma VoteIsCounted(n: Node, from: NodeId, req: VoteRequest, reply: VoteReply)
    requires n.role.Candidate? && n.term == req.term && reply.granted && reply.term <= n.term
    ensures var m := HandleVoteReply(n, from, req, reply);
      && m.term == n.term
      && (m.role.Leader? <==> |(n.votes + {from}) * n.members| >= Majority(n))
      && (!m.role.Leader? ==> m == n.(votes := n.votes + {from}))
      && (m.role.Leader? ==> m.log == n.log + [Entry(n.term, LastIndex(n) + 1, Noop, "", None)])
  {
    hide BecomeLeader;
    OfficeFacts(n.(votes := n.votes + {from}));
  }

  // ------------------------------------------------------------ Leadership transfer

  // A node that is told to take over, in a term not behind its own, stands in the next
  // term if it is a member and does not lead; in all other cases nothing changes.
  lemma TransferStands(n: Node, t: nat)
    ensures t >= n.term && n.id in n.members && !n.role.Leader? ==> Stands(n, HandleTimeoutNow(n, t))
    ensures !(t >= n.term && n.id in n.members && !n.role.Leader?) ==> HandleTimeoutNow(n, t) == n
  {
    hide BecomeCandidate, Stands;
    CandidateStands(n);
  }

  // The step of the cluster is the handler, with the requests to the other members.
  lemma TransferStep(c: C.Cluster, v: NodeId, t: nat)
    requires C.Enabled(c, C.TimeoutNow(v, t))
    ensures var d := C.Do(c, C.TimeoutNow(v, t));
      && v in c.nodes && d.nodes == c.nodes[v := HandleTimeoutNow(c.nodes[v], t)] && Stands(c.nodes[v], d.nodes[v])
      && forall u :: u in c.nodes[v].members && u != c.nodes[v].id ==>
           C.VoteAsk(u, CampaignRequest(StartCampaign(c.nodes[v]), true)) in d.net
  {
    hide BecomeCandidate, Stands, StartCampaign, CampaignRequest;
    CandidateStands(c.nodes[v]);
  }

  // A time-out does the same, as an ordinary campaign.
  lemma TimeoutStep(c: C.Cluster, v: NodeId)
    requires C.Enabled(c, C.Timeout(v))
    ensures var d := C.Do(c, C.Timeout(v));
      && v in c.nodes && d.nodes.Keys == c.nodes.Keys && Stands(c.nodes[v], d.nodes[v])
      && (forall u :: u in c.nodes && u != v ==> d.nodes[u] == c.nodes[u])
      && forall u :: u in c.nodes[v].members && u != c.nodes[v].id ==>
           C.VoteAsk(u, CampaignRequest(StartCampaign(c.nodes[v]), false)) in d.net
  {
    hide BecomeCandidate, Stands, StartCampaign, CampaignRequest;
    CandidateStands(c.nodes[v]);
  }

  // ------------------------------------------------------------ Later terms

  // m has given way to term t.
  ghost predicate GivesWay(n: Node, m: Node, t: nat) {
    m.term == t && m.role.Follower? && m.votedFor == None && m.leaderId == None && m.log == n.log && m.generation > n.generation
  }

  // Whatever answer tells of a later term, the node takes it and follows.
  lemma LaterTermIsTaken(n: Node, from: NodeId, number: nat, vote: VoteRequest, voteReply: VoteReply,
                         append: AppendRequest, appendReply: AppendReply, snapshot: SnapshotRequest, snapshotReply: SnapshotReply)
    ensures voteReply.term > n.term ==> GivesWay(n, HandleVoteReply(n, from, vote, voteReply), voteReply.term)
    ensures appendReply.term > n.term ==> GivesWay(n, HandleAppendReply(n, from, number, append, appendReply), appendReply.term)
    ensures snapshotReply.term > n.term ==> GivesWay(n, HandleSnapshotReply(n, from, number, snapshot, snapshotReply), snapshotReply.term)
  {
    hide CommitScan, Elected, BecomeLeader;
  }
}
