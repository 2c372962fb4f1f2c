// The ghost history of a cluster: every candidacy, vote, election, leader log,
// acknowledgement and commit so far. Nothing is ever removed from it, and the
// safety of Raft follows from facts about this record alone.
module Histories {
  import opened Types
  import opened Logs
  import opened Quorums

  // Something one node did in one term.
  datatype Slot = Slot(term: nat, node: NodeId)

  // A vote, with the log the voter had when it voted.
  datatype Vote = Vote(candidate: NodeId, log: Log)

  // An election: the log the candidate campaigned with, the log it won with, its voters.
  datatype Win = Win(leader: NodeId, campaign: Log, log: Log, voters: set<NodeId>)

  // The node held the first index entries of the leader log of that term, while in that term.
  datatype Ack = Ack(term: nat, node: NodeId, index: nat)

  // The leader of the term advanced its commit index to index, with len entries in its log.
  datatype Commit = Commit(term: nat, index: nat, len: nat, quorum: set<NodeId>)

  datatype History = History(
    base: set<NodeId>,
    campaigns: map<Slot, Log>,
    votes: map<Slot, Vote>,
    wins: map<nat, Win>,
    logs: map<nat, Log>,
    acks: set<Ack>,
    commits: set<Commit>)

  // Every prefix of l was the beginning of the log of the leader of its last term.
  ghost predicate Valid(h: History, l: Log) {
    && WellFormed(l)
    && forall i :: 0 <= i < |l| ==> l[i].term in h.logs && l[..i + 1] <= h.logs[l[i].term]
  }

  // The part of a leader log that a commit covers.
  function Covered(h: History, c: Commit): Log
    requires c.term in h.logs && c.index <= |h.logs[c.term]|
  {
    h.logs[c.term][..c.index]
  }

  ghost predicate GoodCommit(h: History, c: Commit) {
    && c.term in h.wins && c.term in h.logs
    && |h.wins[c.term].log| < c.index <= c.len <= |h.logs[c.term]|
    && IsMajority(c.quorum, Membership(h.base, h.logs[c.term][..c.len]))
    && forall v :: v in c.quorum ==> Ack(c.term, v, c.index) in h.acks
  }

  // l is part of what some leader up to term t committed.
  ghost predicate CommittedBy(h: History, l: Log, t: nat) {
    l == [] || exists c :: c in h.commits && CoveredBy(h, l, c, t)
  }

  ghost predicate CoveredBy(h: History, l: Log, c: Commit, t: nat) {
    c.term <= t && c.term in h.logs && |l| <= c.index && l <= h.logs[c.term]
  }

  // A leader elected strictly between the terms lo and hi did not have p.
  ghost predicate LostBetween(h: History, p: Log, lo: nat, hi: nat) {
    exists t :: lo < t < hi && t in h.wins && !(p <= h.wins[t].log)
  }

  // The log won with is the log campaigned with, or a snapshot replaced it meanwhile.
  ghost predicate SnapshotDuringCampaign(h: History, t: nat, w: Win) {
    t > 0 && !(w.log <= w.campaign) && CommittedBy(h, w.log, t - 1)
  }

  ghost predicate GoodWin(h: History, t: nat, w: Win) {
    && Valid(h, w.log) && TermsBelow(w.log, t)
    && Valid(h, w.campaign) && TermsBelow(w.campaign, t)
    && IsMajority(w.voters, Membership(h.base, w.log))
    && (forall v :: v in w.voters ==>
          && Slot(t, v) in h.votes
          && h.votes[Slot(t, v)].candidate == w.leader
          && UpToDate(w.campaign, h.votes[Slot(t, v)].log))
    && (w.log == w.campaign || SnapshotDuringCampaign(h, t, w))
  }

  // A leader log: what it won with, its own no-op, then entries of its term only.
  ghost predicate LeaderLog(h: History, t: nat, w: Win, l: Log) {
    && t >= 1
    && WellFormed(l)
    && |w.log| < |l| && w.log <= l && TermsBelow(w.log, t)
    && l[|w.log|].command == Noop
    && forall i :: |w.log| <= i < |l| ==> l[i].term == t
  }

  // The commit that allowed the CONFIG entry at position j: of the leader's own
  // term, made before the entry, covering every earlier CONFIG.
  ghost predicate Allows(h: History, l: Log, j: nat, c: Commit)
    requires IsConfig(l, j)
  {
    && c in h.commits && c.term == l[j - 1].term && c.len < j
    && forall i :: IsConfig(l, i) && i < j ==> i <= c.index
  }

  ghost predicate GoodConfig(h: History, l: Log, j: int) {
    IsConfig(l, j) ==>
      && OneChange(Membership(h.base, l[..j - 1]), l[j - 1].command.members)
      && exists c :: c in h.commits && Allows(h, l, j, c)
  }

  ghost predicate WinsGood(h: History) {
    forall t :: t in h.wins ==> GoodWin(h, t, h.wins[t])
  }

  ghost predicate LogsGood(h: History)
    requires h.wins.Keys == h.logs.Keys
  {
    forall t :: t in h.wins ==> LeaderLog(h, t, h.wins[t], h.logs[t])
  }

  ghost predicate ConfigsGood(h: History)
    requires h.wins.Keys == h.logs.Keys
  {
    forall t, j {:trigger GoodConfig(h, h.logs[t], j)} :: t in h.wins && |h.wins[t].log| < j ==> GoodConfig(h, h.logs[t], j)
  }

  ghost predicate CampaignsGood(h: History) {
    forall s :: s in h.campaigns ==> Valid(h, h.campaigns[s]) && TermsBelow(h.campaigns[s], s.term)
  }

  ghost predicate VotesGood(h: History) {
    forall s :: s in h.votes ==>
      && Valid(h, h.votes[s].log) && TermsBelow(h.votes[s].log, s.term)
      && Slot(s.term, h.votes[s].candidate) in h.campaigns
      && UpToDate(h.campaigns[Slot(s.term, h.votes[s].candidate)], h.votes[s].log)
  }

  ghost predicate AcksGood(h: History) {
    forall a :: a in h.acks ==> a.term in h.logs && a.index <= |h.logs[a.term]|
  }

  // A vote cast after its term was already won, by a node the leader does not need.
  ghost predicate LateVote(h: History, s: Slot) {
    s.term in h.wins && s.node !in h.wins[s.term].voters
  }

  // A voter still had what it acknowledged earlier, unless a later leader lacked it.
  ghost predicate AckKept(h: History, s: Slot, a: Ack)
    requires s in h.votes && a.term in h.logs && a.index <= |h.logs[a.term]|
  {
    a.node == s.node && a.term < s.term ==>
      var p := h.logs[a.term][..a.index];
      || p <= h.votes[s].log
      || LostBetween(h, p, a.term, s.term)
      || (LateVote(h, s) && !(p <= h.wins[s.term].log))
  }

  ghost predicate VotesKeepAcks(h: History)
    requires AcksGood(h)
  {
    forall s, a {:trigger AckKept(h, s, a)} :: s in h.votes && a in h.acks ==> AckKept(h, s, a)
  }

  ghost predicate CommitsGood(h: History) {
    forall c :: c in h.commits ==> GoodCommit(h, c)
  }

  ghost predicate Sound(h: History) {
    && h.wins.Keys == h.logs.Keys
    && WinsGood(h) && LogsGood(h) && ConfigsGood(h)
    && CampaignsGood(h) && VotesGood(h)
    && AcksGood(h) && VotesKeepAcks(h)
    && CommitsGood(h)
  }
}
