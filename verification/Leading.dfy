// Winning, proposing and committing keep a leader in step with the history.
module Leading {
  import opened Types
  import opened Logs
  import opened Quorums
  import opened Histories
  import opened HistoryGrowth
  import opened LeaderCompleteness
  import opened Worlds
  import opened WorldSteps
  import opened Nodes
  import opened Compaction
  import opened Tracking

  // A node that finds a majority in its membership knows the true membership.
  lemma MembersKnown(base: set<NodeId>, n: Node, l: Log, q: set<NodeId>)
    requires Represents(base, n, l) && q <= n.members && |q| >= Majority(n)
    ensures IsMajority(q, Membership(base, l))
  {
    hide NewestConfig, Stores;
    assert n.members == {} ==> q == {};
  }

  // ------------------------------------------------------------ Election

  lemma CampaignLogBelow(h: History, t: nat, m: Log, l: Log)
    requires Sound(h) && CampaignLog(h, t, m, l) && Valid(h, m) && TermsBelow(m, t)
    ensures Valid(h, l) && TermsBelow(l, t)
  {
    hide WinsGood, LogsGood, ConfigsGood, CampaignsGood, VotesGood, AcksGood, VotesKeepAcks, CommitsGood, Valid;
    if l != m {
      CommittedValid(h, l, t - 1);
    }
  }

  lemma ElectedMayWin(w: World, n: Node)
    requires Good(w) && Tracks(w, n) && n.role.Candidate? && Elected(n)
    ensures MayWin(w, n.id, n.votes * n.members)
    ensures TermsBelow(w.replicas[n.id].log, n.term)
  {
    hide WinsGood, LogsGood, ConfigsGood, AcksGood, VotesKeepAcks, CommitsGood, Valid, TermsBelow, Represents, AcksHeld, CommitTracked, Membership;
    var h, l := w.history, w.replicas[n.id].log;
    var q := n.votes * n.members;
    var s := Slot(n.term, n.id);
    MembersKnown(h.base, n, l, q);
    CampaignFacts(h, s);
    CampaignLogBelow(h, n.term, h.campaigns[s], l);
    var x := Victory(w, n.id, q);
    forall u | u in q
      ensures Slot(n.term, u) in h.votes && h.votes[Slot(n.term, u)].candidate == n.id
      ensures UpToDate(h.campaigns[s], h.votes[Slot(n.term, u)].log)
    {
    }
    assert GoodWin(h, n.term, x);
  }

  lemma NoCommitYet(w: World, t: nat)
    requires Good(w) && t !in w.history.wins
    ensures forall c :: c in w.history.commits ==> c.term != t
  {
    hide WinsGood, LogsGood, ConfigsGood, CampaignsGood, VotesGood, AcksGood, VotesKeepAcks, GoodCommit;
    forall c | c in w.history.commits
      ensures c.term != t
    {
      assert GoodCommit(w.history, c);
      CommitTermWon(w.history, c);
    }
  }

  lemma CommitTermWon(h: History, c: Commit)
    requires GoodCommit(h, c)
    ensures c.term in h.wins
  {
    hide Membership;
  }

  lemma TakeOfficeTracks(w: World, n: Node) returns (x: World)
    requires Good(w) && Tracks(w, n) && n.role.Candidate? && Elected(n)
    ensures Good(x) && Moves(w, x, n.id) && Tracks(x, TakeOffice(n))
    ensures w.replicas[n.id].log <= x.replicas[n.id].log
  {
    hide Good, Represents, MayWin, Elected, WellFormed, TermsBelow, Valid;
    var q := n.votes * n.members;
    var h, l := w.history, w.replicas[n.id].log;
    ElectedMayWin(w, n);
    FreshTerm(w, n.id, q);
    NoCommitYet(w, n.term);
    x := Lead(w, n.id, q);
    LeadKeepsGood(w, n.id, q);
    var k := x.history;
    var m := TakeOffice(n);
    var e := NoopEntry(n.term, |l| + 1);
    TakeOfficeRepresents(w, n);
    CommittedGrows(h, k, l[..n.commitIndex], n.term, n.term);
    assert (l + [e])[..n.commitIndex] == l[..n.commitIndex];
    assert AckedUpTo(k, n.term, n.id, |l| + 1);
  }

  lemma TakeOfficeRepresents(w: World, n: Node)
    requires Good(w) && Tracks(w, n) && n.term >= 1 && TermsBelow(w.replicas[n.id].log, n.term)
    ensures LastIndex(n) == |w.replicas[n.id].log|
    ensures Represents(w.history.base, TakeOffice(n), w.replicas[n.id].log + [NoopEntry(n.term, |w.replicas[n.id].log| + 1)])
    ensures TakeOffice(n).term == n.term && TakeOffice(n).termStart == LastIndex(n) + 1
    ensures TakeOffice(n) == n.(role := Leader, leaderId := Some(n.id), generation := n.generation + 1,
                nextIndex := TakeOffice(n).nextIndex, matchIndex := TakeOffice(n).matchIndex,
                lastAck := map[], termStart := LastIndex(n) + 1,
                log := n.log + [NoopEntry(n.term, LastIndex(n) + 1)])
  {
    hide Sound, AcksHeld, LeadersInStep, TermsSeen, Represents;
    var l := w.replicas[n.id].log;
    var e := NoopEntry(n.term, |l| + 1);
    assert Valid(w.history, l);
    ExtendWellFormed(l, e);
    RepresentsStores(w.history.base, n, l);
    Queries(w.history.base, n, l);
    var next := LastIndex(n) + 1;
    var m := TakeOffice(n).(log := n.log);
    SameRepresents(w.history.base, n, m, l);
    AppendRepresents(w.history.base, m, l, [e]);
  }

  // ------------------------------------------------------------ Commit

  lemma {:induction false} ScanFinds(n: Node, i: nat)
    requires i <= LastIndex(n)
    ensures
      var c := CommitScan(n, i);
      c == n.commitIndex || (n.commitIndex < c <= i && NodeTermAt(n, c) == Some(n.term) && |Replicas(n, c)| >= Majority(n))
  {
    if i > n.commitIndex && NodeTermAt(n, i) == Some(n.term) && |Replicas(n, i)| < Majority(n) {
      ScanFinds(n, i - 1);
    }
  }

  lemma LeaderHasItsLog(w: World, n: Node)
    requires Good(w) && Tracks(w, n) && WonBy(w.history, n.term, n.id)
    ensures n.term in w.history.logs && w.history.logs[n.term] == w.replicas[n.id].log
  {
    hide WinsGood, LogsGood, ConfigsGood, CampaignsGood, VotesGood, AcksGood, VotesKeepAcks, CommitsGood;
    assert LeadsIn(w, n.term);
  }

  lemma OwnTermBeyondWin(h: History, t: nat, i: nat)
    requires h.wins.Keys == h.logs.Keys && LogsGood(h) && t in h.wins
    requires 1 <= i <= |h.logs[t]| && h.logs[t][i - 1].term == t
    ensures i > |h.wins[t].log|
  {
    LeaderLogFacts(h, t);
    assert forall j :: 0 <= j < |h.wins[t].log| ==> h.wins[t].log[j] == h.logs[t][j];
  }

  lemma CountedIsCommit(w: World, n: Node, i: nat)
    requires Good(w) && Tracks(w, n) && n.role.Leader?
    requires n.snapIndex < i <= |w.replicas[n.id].log| && TermAt(w.replicas[n.id].log, i) == n.term
    requires |Replicas(n, i)| >= Majority(n)
    ensures GoodCommit(w.history, Commit(n.term, i, |w.replicas[n.id].log|, Replicas(n, i)))
  {
    hide WinsGood, LogsGood, ConfigsGood, CampaignsGood, VotesGood, AcksGood, VotesKeepAcks, CommitsGood, Represents, Membership, AcksHeld;
    var h, l := w.history, w.replicas[n.id].log;
    LeaderHasItsLog(w, n);
    LeaderLogFacts(h, n.term);
    MembersKnown(h.base, n, l, Replicas(n, i));
    assert l[..|l|] == l;
    OwnTermBeyondWin(h, n.term, i);
    forall v | v in Replicas(n, i)
      ensures Ack(n.term, v, i) in h.acks
    {
      if v != n.id {
        assert v in n.matchIndex;
        assert AckedUpTo(h, n.term, v, n.matchIndex[v]);
      }
    }
  }

  lemma AdvanceTracks(w: World, n: Node) returns (x: World)
    requires Good(w) && Tracks(w, n)
    ensures Good(x) && Moves(w, x, n.id) && Tracks(x, AdvanceCommit(n))
    ensures x.replicas == w.replicas
    ensures x.history == w.history.(commits := x.history.commits)
  {
    hide Good, Tracks, Moves, CommitScan;
    x := w;
    MovesNowhere(w, n.id);
    if n.role.Leader? {
      var i := CommitScan(n, LastIndex(n));
      ScanFinds(n, LastIndex(n));
      if i != n.commitIndex {
        x := NewCommitTracks(w, n, i);
      }
      assert AdvanceCommit(n) == n.(commitIndex := i);
      assert n.(commitIndex := n.commitIndex) == n;
    }
  }

  lemma MovesNowhere(w: World, v: NodeId)
    ensures Moves(w, w, v)
  {
  }

  // A counted index becomes a commit of the history and the node's commit index.
  lemma NewCommitTracks(w: World, n: Node, i: nat) returns (x: World)
    requires Good(w) && Tracks(w, n) && n.role.Leader?
    requires n.commitIndex < i <= LastIndex(n) && NodeTermAt(n, i) == Some(n.term) && |Replicas(n, i)| >= Majority(n)
    ensures Good(x) && Moves(w, x, n.id) && Tracks(x, n.(commitIndex := i))
    ensures x.replicas == w.replicas
    ensures x.history == w.history.(commits := x.history.commits)
  {
    hide Good, Represents, GoodCommit;
    var h, l := w.history, w.replicas[n.id].log;
    RepresentsStores(h.base, n, l);
    Queries(h.base, n, l);
    SameRepresents(h.base, n, n.(commitIndex := i), l);
    CountedIsCommit(w, n, i);
    var c := Commit(n.term, i, |l|, Replicas(n, i));
    x := CommitTo(w, c);
    CommitKeepsGood(w, c);
    LeaderHasItsLog(w, n);
    assert CoveredBy(x.history, l[..i], c, n.term);
    assert OwnCommit(x.history, n.term, i);
  }

  lemma BecomeLeaderTracks(w: World, n: Node) returns (x: World)
    requires Good(w) && Tracks(w, n) && n.role.Candidate? && Elected(n)
    ensures Good(x) && Moves(w, x, n.id) && Tracks(x, BecomeLeader(n))
  {
    hide Good, Tracks, Moves, Elected;
    var y := TakeOfficeTracks(w, n);
    x := AdvanceTracks(y, TakeOffice(n));
    MovesTransitive(w, y, x, n.id);
  }

  lemma BecomeCandidateTracks(w: World, n: Node) returns (x: World)
    requires Good(w) && Tracks(w, n)
    ensures Good(x) && Moves(w, x, n.id) && Tracks(x, BecomeCandidate(n))
    ensures Slot(n.term + 1, n.id) in x.history.campaigns
    ensures x.history.campaigns[Slot(n.term + 1, n.id)] == w.replicas[n.id].log
  {
    hide Good, Tracks, Moves, Elected;
    var m := StartCampaign(n);
    var y := StartCampaignTracks(w, n);
    x := y;
    if Elected(m) {
      x := BecomeLeaderTracks(y, m);
      MovesTransitive(w, y, x, n.id);
      CampaignStays(y, x, n.id, Slot(n.term + 1, n.id));
    }
  }

  lemma CampaignStays(w: World, x: World, v: NodeId, s: Slot)
    requires Moves(w, x, v) && s in w.history.campaigns
    ensures s in x.history.campaigns && x.history.campaigns[s] == w.history.campaigns[s]
  {
  }

  // ------------------------------------------------------------ Proposals

  // The entry a leader appends for a command.
  function NextEntry(n: Node, c: Command, username: string, request: Option<RequestId>): Entry {
    Entry(n.term, LastIndex(n) + 1, c, username, request)
  }

  // The membership in effect after the node's whole log, whether it knows it or not.
  function TrueMembers(w: World, v: NodeId): set<NodeId>
    requires v in w.replicas
  {
    Membership(w.history.base, w.replicas[v].log)
  }

  lemma LeaderMayAppend(w: World, n: Node, c: Command)
    requires Good(w) && Tracks(w, n) && n.role.Leader?
    requires c.Config? ==> ConfigIdle(n) && OneChange(TrueMembers(w, n.id), c.members)
    ensures MayAppend(w, n.id, c)
  {
    hide WinsGood, LogsGood, ConfigsGood, CampaignsGood, VotesGood, AcksGood, VotesKeepAcks, CommitsGood, NewestConfig, AcksHeld, Stores, OneChange;
    if c.Config? {
      var h, l := w.history, w.replicas[n.id].log;
      var d :| d in h.commits && d.term == n.term && d.index == n.commitIndex;
      forall i | IsConfig(l, i)
        ensures i <= d.index
      {
      }
      assert ReadyToChange(w, n.id, d);
    }
  }

  lemma ProposeTracks(w: World, n: Node, c: Command, username: string, request: Option<RequestId>) returns (x: World)
    requires Good(w) && Tracks(w, n) && n.role.Leader?
    requires c.Config? ==> ConfigIdle(n) && OneChange(TrueMembers(w, n.id), c.members)
    ensures Good(x) && Moves(w, x, n.id) && Tracks(x, Propose(n, c, username, request))
  {
    hide Good, Tracks, Moves;
    var e := NextEntry(n, c, username, request);
    var y := AppendOwnTracks(w, n, e);
    x := AdvanceTracks(y, AppendLocal(n, [e]));
    assert AppendLocal(n, [e]).id == n.id;
    MovesTransitive(w, y, x, n.id);
  }

  lemma AppendOwnTracks(w: World, n: Node, e: Entry) returns (x: World)
    requires Good(w) && Tracks(w, n) && n.role.Leader?
    requires e.term == n.term && e.index == LastIndex(n) + 1
    requires e.command.Config? ==> ConfigIdle(n) && OneChange(TrueMembers(w, n.id), e.command.members)
    ensures Good(x) && Moves(w, x, n.id) && Tracks(x, AppendLocal(n, [e]))
  {
    hide Good, Represents, MayAppend, WellFormed, AppendLocal, LeadTracked, VoteTracked;
    var h, l := w.history, w.replicas[n.id].log;
    LeaderMayAppend(w, n, e.command);
    AppendLocalShape(n, [e]);
    RepresentsStores(h.base, n, l);
    Queries(h.base, n, l);
    x := Append(w, n.id, e);
    AppendKeepsGood(w, n.id, e);
    ReplicaWellFormed(x, n.id);
    AppendRepresents(h.base, n, l, [e]);
    AppendGrows(w, n.id, e);
    CommittedGrows(h, x.history, l[..n.commitIndex], n.term, n.term);
    assert (l + [e])[..n.commitIndex] == l[..n.commitIndex];
    LeadTrackedGrows(h, x.history, n, l);
    LeadExtends(x.history, n, AppendLocal(n, [e]), l, e);
    SameVotes(h, x.history, n, AppendLocal(n, [e]));
  }

  lemma SameVotes(h: History, k: History, n: Node, m: Node)
    requires VoteTracked(h, n) && k.votes == h.votes && m.term == n.term && m.id == n.id && m.votedFor == n.votedFor
    ensures VoteTracked(k, m)
  {
  }

  lemma AppendLocalShape(n: Node, entries: seq<Entry>)
    ensures AppendLocal(n, entries) ==
            n.(log := n.log + entries, members := AppendLocal(n, entries).members, configIndex := AppendLocal(n, entries).configIndex)
  {
  }

  lemma LeadExtends(k: History, n: Node, m: Node, l: Log, e: Entry)
    requires LeadTracked(k, n, l) && Ack(n.term, n.id, |l| + 1) in k.acks
    requires m == n.(log := m.log, members := m.members, configIndex := m.configIndex)
    ensures LeadTracked(k, m, l + [e])
  {
  }

  lemma ReplicaWellFormed(w: World, v: NodeId)
    requires Good(w) && v in w.replicas
    ensures WellFormed(w.replicas[v].log) && Valid(w.history, w.replicas[v].log)
    ensures TermsBelow(w.replicas[v].log, w.replicas[v].term + 1)
  {
    hide Sound, AcksHeld, LeadersInStep, TermsSeen;
  }
}
