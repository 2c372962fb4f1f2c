// How the fields of a running node relate to the durable world and its history, and
// that every elementary change of a node keeps the relation.
module Tracking {
  import opened Types
  import opened Logs
  import opened Histories
  import opened HistoryGrowth
  import opened Worlds
  import opened Nodes
  import opened Compaction

  // A world that node v moved: only its replica changed, and only its votes and wins are new.
  ghost predicate Moves(w: World, x: World, v: NodeId) {
    && Grows(w.history, x.history)
    && x.replicas.Keys == w.replicas.Keys
    && (forall u :: u in w.replicas && u != v ==> x.replicas[u] == w.replicas[u])
    && (forall s :: s in x.history.votes && s !in w.history.votes ==> s.node == v)
    && (forall t :: t in x.history.wins && t !in w.history.wins ==> x.history.wins[t].leader == v)
    && (forall c :: c in x.history.commits && c !in w.history.commits ==> WonBy(x.history, c.term, v))
    && (v in w.replicas ==> x.replicas[v].term >= w.replicas[v].term)
  }

  lemma MovesTransitive(w: World, x: World, y: World, v: NodeId)
    requires Moves(w, x, v) && Moves(x, y, v)
    ensures Moves(w, y, v)
  {
    GrowsTransitive(w.history, x.history, y.history);
  }

  ghost predicate VoteTracked(h: History, n: Node) {
    var s := Slot(n.term, n.id);
    if s in h.votes then n.votedFor == Some(h.votes[s].candidate) else n.votedFor == None
  }

  ghost predicate CommitTracked(h: History, n: Node, l: Log) {
    && n.snapIndex <= n.lastApplied <= n.commitIndex <= |l|
    && CommittedBy(h, l[..n.commitIndex], n.term)
  }

  ghost predicate WonBy(h: History, t: nat, v: NodeId) {
    t in h.wins && h.wins[t].leader == v
  }

  // The campaign log still stands, or a snapshot replaced it meanwhile.
  ghost predicate CampaignLog(h: History, t: nat, m: Log, l: Log) {
    l == m || (t > 0 && !(l <= m) && CommittedBy(h, l, t - 1))
  }

  ghost predicate CampaignTracked(h: History, n: Node, l: Log) {
    var s := Slot(n.term, n.id);
    && n.term >= 1
    && s in h.campaigns
    && !WonBy(h, n.term, n.id)
    && (forall u :: u in n.votes ==> Slot(n.term, u) in h.votes && h.votes[Slot(n.term, u)].candidate == n.id)
    && CampaignLog(h, n.term, h.campaigns[s], l)
  }

  ghost predicate AckedUpTo(h: History, t: nat, v: NodeId, k: nat) {
    forall i :: 1 <= i <= k ==> Ack(t, v, i) in h.acks
  }

  ghost predicate OwnCommit(h: History, t: nat, i: nat) {
    exists c :: c in h.commits && c.term == t && c.index == i
  }

  ghost predicate LeadTracked(h: History, n: Node, l: Log) {
    && WonBy(h, n.term, n.id)
    && n.termStart == |h.wins[n.term].log| + 1
    && AckedUpTo(h, n.term, n.id, |l|)
    && (forall u :: u in n.matchIndex ==> AckedUpTo(h, n.term, u, n.matchIndex[u]))
    && (n.commitIndex < n.termStart || OwnCommit(h, n.term, n.commitIndex))
    && (forall c :: c in h.commits && c.term == n.term ==> c.index <= n.commitIndex)
    && (forall u :: u in n.nextIndex ==> 1 <= n.nextIndex[u] <= |l| + 1)
  }

  ghost predicate Tracks(w: World, n: Node) {
    && n.id in w.replicas
    && n.term == w.replicas[n.id].term
    && Represents(w.history.base, n, w.replicas[n.id].log)
    && VoteTracked(w.history, n)
    && CommitTracked(w.history, n, w.replicas[n.id].log)
    && (n.role.Candidate? ==> CampaignTracked(w.history, n, w.replicas[n.id].log))
    && (n.role.Leader? ==> LeadTracked(w.history, n, w.replicas[n.id].log))
  }

  // ------------------------------------------------------------ Other nodes

  lemma OwnCommitGrows(h: History, k: History, t: nat, i: nat)
    requires Grows(h, k) && OwnCommit(h, t, i)
    ensures OwnCommit(k, t, i)
  {
  }

  lemma LeadTrackedGrows(h: History, k: History, n: Node, l: Log)
    requires Grows(h, k) && LeadTracked(h, n, l)
    requires forall c :: c in k.commits && c !in h.commits ==> c.term != n.term
    ensures LeadTracked(k, n, l)
  {
    if n.commitIndex >= n.termStart {
      OwnCommitGrows(h, k, n.term, n.commitIndex);
    }
  }

  lemma CampaignTrackedGrows(h: History, k: History, n: Node, l: Log)
    requires Grows(h, k) && CampaignTracked(h, n, l) && !WonBy(k, n.term, n.id)
    ensures CampaignTracked(k, n, l)
  {
    if CommittedBy(h, l, n.term - 1) {
      CommittedGrows(h, k, l, n.term - 1, n.term - 1);
    }
  }

  lemma OthersTrack(w: World, x: World, v: NodeId, n: Node)
    requires Moves(w, x, v) && Tracks(w, n) && n.id != v
    ensures Tracks(x, n)
  {
    hide Represents;
    var h, k := w.history, x.history;
    var l := w.replicas[n.id].log;
    CommittedGrows(h, k, l[..n.commitIndex], n.term, n.term);
    if n.role.Candidate? {
      CampaignTrackedGrows(h, k, n, l);
    }
    if n.role.Leader? {
      LeadTrackedGrows(h, k, n, l);
    }
  }

  // ------------------------------------------------------------ Terms

  lemma CommitTermRises(h: History, n: Node, m: Node, l: Log)
    requires CommitTracked(h, n, l) && m.term >= n.term
    requires m.snapIndex == n.snapIndex && m.lastApplied == n.lastApplied && m.commitIndex == n.commitIndex
    ensures CommitTracked(h, m, l)
  {
    CommittedGrows(h, h, l[..n.commitIndex], n.term, m.term);
  }

  lemma FreshSlot(w: World, v: NodeId, t: nat)
    requires Good(w) && v in w.replicas && t > w.replicas[v].term
    ensures Slot(t, v) !in w.history.votes && !WonBy(w.history, t, v)
  {
    hide WinsGood, LogsGood, ConfigsGood, CampaignsGood, VotesGood, AcksGood, VotesKeepAcks, CommitsGood;
    assert t in w.history.wins ==> LeadsIn(w, t);
  }

  lemma FollowerTracks(w: World, n: Node, t: nat) returns (x: World)
    requires Good(w) && Tracks(w, n)
    ensures Good(x) && Moves(w, x, n.id) && Tracks(x, BecomeFollower(n, t))
    ensures x.history == w.history && x.replicas[n.id].log == w.replicas[n.id].log
  {
    hide Good, Represents;
    var m := BecomeFollower(n, t);
    x := Raise(w, n.id, m.term);
    RaiseKeepsGood(w, n.id, m.term);
    CommitTermRises(w.history, n, m, w.replicas[n.id].log);
    if t > n.term {
      FreshSlot(w, n.id, t);
    }
    SameRepresents(w.history.base, n, m, w.replicas[n.id].log);
  }

  // Fields the representation does not read may change.
  lemma SameRepresents(base: set<NodeId>, n: Node, m: Node, l: Log)
    requires Represents(base, n, l)
    requires m.log == n.log && m.snapIndex == n.snapIndex && m.snapTerm == n.snapTerm && m.snapConfig == n.snapConfig
    requires m.members == n.members && m.configIndex == n.configIndex
    ensures Represents(base, m, l)
  {
  }

  lemma AcceptTracks(w: World, n: Node, t: nat, leader: NodeId) returns (x: World)
    requires Good(w) && Tracks(w, n) && t >= n.term
    ensures Good(x) && Moves(w, x, n.id) && Tracks(x, AcceptLeader(n, t, leader))
    ensures AcceptLeader(n, t, leader).term == t && AcceptLeader(n, t, leader).role.Follower?
    ensures x.history == w.history && x.replicas[n.id].log == w.replicas[n.id].log
  {
    hide Good, Represents;
    var a := AcceptLeader(n, t, leader);
    if t > n.term || !n.role.Follower? {
      x := FollowerTracks(w, n, t);
      SameRepresents(w.history.base, n, a, w.replicas[n.id].log);
    } else {
      x := w;
      SameRepresents(w.history.base, n, a, w.replicas[n.id].log);
    }
  }

  // ------------------------------------------------------------ Campaigning and voting

  lemma StartCampaignTracks(w: World, n: Node) returns (x: World)
    requires Good(w) && Tracks(w, n)
    ensures Good(x) && Moves(w, x, n.id) && Tracks(x, StartCampaign(n))
    ensures Slot(n.term + 1, n.id) in x.history.campaigns
    ensures x.history.campaigns[Slot(n.term + 1, n.id)] == w.replicas[n.id].log
  {
    hide Good, Represents;
    x := Campaign(w, n.id);
    var m := StartCampaign(n);
    var l := w.replicas[n.id].log;
    CampaignKeepsGood(w, n.id);
    FreshSlot(w, n.id, m.term);
    SameRepresents(w.history.base, n, m, l);
    CommittedGrows(w.history, x.history, l[..n.commitIndex], n.term, m.term);
  }

  lemma VoteTracks(w: World, n: Node, c: NodeId) returns (x: World)
    requires Good(w) && Tracks(w, n)
    requires n.votedFor == None || n.votedFor == Some(c)
    requires Slot(n.term, c) in w.history.campaigns
    requires UpToDate(w.history.campaigns[Slot(n.term, c)], w.replicas[n.id].log)
    ensures Good(x) && Moves(w, x, n.id)
    ensures Tracks(x, n.(votedFor := Some(c), generation := n.generation + 1))
    ensures Slot(n.term, n.id) in x.history.votes && x.history.votes[Slot(n.term, n.id)].candidate == c
  {
    hide Good, Represents;
    var m := n.(votedFor := Some(c), generation := n.generation + 1);
    var l := w.replicas[n.id].log;
    if n.votedFor == None {
      x := CastVote(w, n.id, c);
      CastVoteKeepsGood(w, n.id, c);
    } else {
      x := w;
    }
    SameRepresents(w.history.base, n, m, l);
    CommittedGrows(w.history, x.history, l[..n.commitIndex], n.term, n.term);
    if n.role.Candidate? {
      CampaignTrackedGrows(w.history, x.history, n, l);
    }
    if n.role.Leader? {
      LeadTrackedGrows(w.history, x.history, n, l);
    }
  }
}
