// Accepting entries and snapshots keeps a follower in step with the history.
module Following {
  import opened Types
  import opened Logs
  import opened Histories
  import opened HistoryGrowth
  import opened LeaderCompleteness
  import opened Worlds
  import opened WorldSteps
  import opened Nodes
  import opened Compaction
  import opened Tracking
  import opened Leading

  // ------------------------------------------------------------ What requests promise

  ghost predicate VoteAskGood(h: History, req: VoteRequest) {
    var s := Slot(req.term, req.candidate);
    s in h.campaigns && req.lastLogIndex == |h.campaigns[s]| && req.lastLogTerm == LastTerm(h.campaigns[s])
  }

  ghost predicate AppendAskGood(h: History, req: AppendRequest) {
    && WonBy(h, req.term, req.leader)
    && req.term in h.logs
    && var m := h.logs[req.term];
    && req.prevIndex + |req.entries| <= |m|
    && req.entries == m[req.prevIndex..req.prevIndex + |req.entries|]
    && req.prevTerm == TermAt(m, req.prevIndex)
    && req.leaderCommit <= |m|
    && CommittedBy(h, m[..req.leaderCommit], req.term)
  }

  ghost predicate SnapshotAskGood(h: History, req: SnapshotRequest) {
    && WonBy(h, req.term, req.leader)
    && req.term in h.logs
    && var m := h.logs[req.term];
    && 1 <= req.index <= |m|
    && req.lastTerm == TermAt(m, req.index)
    && CommittedBy(h, m[..req.index], req.term)
    && ConfigOf(h.base, m[..req.index], req.config)
  }

  // The log a snapshot request stands for.
  function SnapshotLog(h: History, req: SnapshotRequest): Log
    requires req.term in h.logs && req.index <= |h.logs[req.term]|
  {
    h.logs[req.term][..req.index]
  }

  // ------------------------------------------------------------ Log Matching

  lemma ValidLogsMatch(h: History, l: Log, m: Log)
    requires Valid(h, l) && Valid(h, m)
    ensures Matching(l, m)
  {
    hide WellFormed;
    forall i | 1 <= i <= |l| && i <= |m| && l[i - 1].term == m[i - 1].term
      ensures l[..i] == m[..i]
    {
      var c := h.logs[l[i - 1].term];
      assert l[..i - 1 + 1] <= c && m[..i - 1 + 1] <= c;
    }
  }

  // ------------------------------------------------------------ Appending

  // Committed entries survive an overwrite by a leader of the same or a later term.
  lemma OverwriteKeepsCommitted(h: History, l: Log, i: nat, t: nat, n: nat)
    requires Sound(h) && i <= |l| && CommittedBy(h, l[..i], t)
    requires t in h.logs && n <= |h.logs[t]|
    ensures i <= |Overwrite(l, h.logs[t][..n])| && Overwrite(l, h.logs[t][..n])[..i] == l[..i]
  {
    hide WinsGood, LogsGood, ConfigsGood, CampaignsGood, VotesGood, AcksGood, VotesKeepAcks, CommitsGood, CommittedBy;
    var q := h.logs[t][..n];
    CommittedInLeaderLog(h, l[..i], t, t);
    Comparable(l[..i], q, h.logs[t]);
  }

  lemma PrefixCommitted(h: History, l: Log, i: nat, j: nat, t: nat)
    requires i <= j <= |l| && CommittedBy(h, l[..j], t)
    ensures CommittedBy(h, l[..i], t)
  {
    if i > 0 {
      var c :| c in h.commits && CoveredBy(h, l[..j], c, t);
      assert l[..i] <= l[..j];
      assert CoveredBy(h, l[..i], c, t);
    }
  }

  // Where a request meets the node's log, both logs agree.
  lemma RequestMeetsLog(w: World, n: Node, req: AppendRequest)
    requires Good(w) && Tracks(w, n) && AppendAskGood(w.history, req) && n.term == req.term
    ensures
      var (prev, prevTerm, entries) := Trimmed(n, req);
      var l, m := w.replicas[n.id].log, w.history.logs[req.term];
      && n.snapIndex <= prev && prev + |entries| <= |m|
      && entries == m[prev..prev + |entries|]
      && prev + |entries| >= req.prevIndex + |req.entries|
      && (prev <= LastIndex(n) && NodeTermAt(n, prev) == Some(prevTerm) ==> prev <= |l| && l[..prev] == m[..prev])
  {
    hide WinsGood, LogsGood, ConfigsGood, CampaignsGood, VotesGood, AcksGood, VotesKeepAcks, CommitsGood, AcksHeld, LeadersInStep, Represents, Valid, WellFormed, CommittedBy, VoteTracked, CampaignTracked, LeadTracked, Stores, NodeTermAt, Matching;
    var h := w.history;
    var l, m := w.replicas[n.id].log, h.logs[req.term];
    var (prev, prevTerm, entries) := Trimmed(n, req);
    RepresentsStores(h.base, n, l);
    Queries(h.base, n, l);
    PrefixCommitted(h, l, n.snapIndex, n.commitIndex, n.term);
    CommittedInLeaderLog(h, l[..n.snapIndex], n.term, n.term);
    if req.prevIndex >= n.snapIndex && prev <= LastIndex(n) && NodeTermAt(n, prev) == Some(prevTerm) && prev > 0 {
      LeaderLogValid(h, req.term, |m|);
      assert m[..|m|] == m;
      ValidLogsMatch(h, l, m);
      MatchingAt(l, m, prev);
    }
  }

  // Entries prev + 1 .. last of the leader's log, where the logs agree up to prev:
  // the node adopts the leader's log up to last.
  lemma MergeTracks(w: World, n: Node, prev: nat, last: nat) returns (x: World)
    requires Good(w) && Tracks(w, n) && n.role.Follower? && MayAdopt(w, n.id, last)
    requires n.snapIndex <= prev <= last && prev <= |w.replicas[n.id].log|
    requires w.replicas[n.id].log[..prev] == w.history.logs[n.term][..prev]
    ensures x == Adopt(w, n.id, last) && Good(x) && Moves(w, x, n.id)
    ensures Tracks(x, Merge(n, w.history.logs[n.term][prev..last]))
    ensures AckedUpTo(x.history, n.term, n.id, last)
  {
    hide Good, Represents, WellFormed, Matching, Merge, CommittedBy, Overwrite;
    var h := w.history;
    var l, m := w.replicas[n.id].log, h.logs[n.term];
    var r := Merge(n, m[prev..last]);
    x := Adopt(w, n.id, last);
    AdoptKeepsGood(w, n.id, last);
    LogsReadyToMerge(w, n, n.term);
    MergeRepresents(h.base, n, l, m, prev, last);
    MergeShape(n, m[prev..last]);
    OverwriteFacts(w, n, last);
    CommittedGrows(h, x.history, l[..n.commitIndex], n.term, n.term);
    SameVotes(h, x.history, n, r);
  }

  lemma OverwriteFacts(w: World, n: Node, last: nat)
    requires Good(w) && Tracks(w, n) && MayAdopt(w, n.id, last)
    ensures
      var k := Adopt(w, n.id, last).replicas[n.id].log;
      n.commitIndex <= |k| && k[..n.commitIndex] == w.replicas[n.id].log[..n.commitIndex]
  {
    hide WinsGood, LogsGood, ConfigsGood, CampaignsGood, VotesGood, AcksGood, VotesKeepAcks, CommitsGood, AcksHeld, LeadersInStep, Represents, Valid;
    OverwriteKeepsCommitted(w.history, w.replicas[n.id].log, n.commitIndex, n.term, last);
  }

  lemma LogsReadyToMerge(w: World, n: Node, t: nat)
    requires Good(w) && Tracks(w, n) && t in w.history.logs
    ensures WellFormed(w.replicas[n.id].log) && WellFormed(w.history.logs[t])
    ensures Matching(w.replicas[n.id].log, w.history.logs[t])
  {
    hide WinsGood, LogsGood, ConfigsGood, CampaignsGood, VotesGood, AcksGood, VotesKeepAcks, CommitsGood, AcksHeld, LeadersInStep, Represents, WellFormed;
    var m := w.history.logs[t];
    LeaderLogValid(w.history, t, |m|);
    assert m[..|m|] == m;
    ValidLogsMatch(w.history, w.replicas[n.id].log, m);
  }

  // Merging touches the log and the membership read from it, nothing else.
  lemma MergeShape(n: Node, entries: seq<Entry>)
    ensures Merge(n, entries) == n.(log := Merge(n, entries).log, members := Merge(n, entries).members, configIndex := Merge(n, entries).configIndex)
  {
    hide Known, NodeTermAt, LatestConfig;
  }

  lemma RaiseCommitTracks(w: World, n: Node, c: nat)
    requires Tracks(w, n) && n.role.Follower?
    requires n.commitIndex <= c <= |w.replicas[n.id].log|
    requires CommittedBy(w.history, w.replicas[n.id].log[..c], n.term)
    ensures Tracks(w, n.(commitIndex := c))
  {
    hide Represents, CommittedBy;
    SameRepresents(w.history.base, n, n.(commitIndex := c), w.replicas[n.id].log);
  }

  // The whole handler.
  lemma HandleAppendTracks(w: World, n: Node, req: AppendRequest) returns (x: World)
    requires Good(w) && Tracks(w, n) && AppendAskGood(w.history, req)
    ensures Good(x) && Moves(w, x, n.id) && Tracks(x, HandleAppend(n, req).0)
    ensures HandleAppend(n, req).1.term >= req.term
    ensures HandleAppend(n, req).1.term == HandleAppend(n, req).0.term
    ensures HandleAppend(n, req).1.success ==>
              && HandleAppend(n, req).1.term == req.term
              && HandleAppend(n, req).1.matchIndex >= req.prevIndex + |req.entries|
              && AckedUpTo(x.history, req.term, n.id, HandleAppend(n, req).1.matchIndex)
  {
    hide Good, Tracks, Moves, Merge, AppendAskGood, NodeTermAt, FirstOfTerm, AcceptLeader;
    if req.term < n.term {
      x := w;
      MovesSelf(w, n.id);
    } else {
      var m := AcceptLeader(n, req.term, req.leader);
      var y := AcceptTracks(w, n, req.term, req.leader);
      AcceptKeepsId(n, req.term, req.leader);
      var (prev, prevTerm, entries) := Trimmed(m, req);
      x := y;
      if prev <= LastIndex(m) && NodeTermAt(m, prev) == Some(prevTerm) {
        RequestMeetsLog(y, m, req);
        var last := prev + |entries|;
        MayAdoptRequest(y, m, req, last);
        x := MergeTracks(y, m, prev, last);
        MovesTransitive(w, y, x, n.id);
        var r := Merge(m, entries);
        MergeShape(m, entries);
        AcceptShape(n, req.term, req.leader);
        if req.leaderCommit > r.commitIndex {
          NewCommitIndex(y, m, last, req.leaderCommit);
          RaiseCommitTracks(x, r, Max(r.commitIndex, Min(req.leaderCommit, last)));
        }
        SameNode(r);
      }
    }
  }

  lemma MayAdoptRequest(w: World, n: Node, req: AppendRequest, last: nat)
    requires Good(w) && Tracks(w, n) && AppendAskGood(w.history, req) && n.term == req.term
    requires last <= |w.history.logs[req.term]|
    ensures MayAdopt(w, n.id, last)
    ensures req.leaderCommit <= |w.history.logs[req.term]| && CommittedBy(w.history, w.history.logs[req.term][..req.leaderCommit], req.term)
  {
    hide Good, Represents, CommittedBy;
  }

  lemma AcceptShape(n: Node, t: nat, leader: NodeId)
    requires t >= n.term
    ensures AcceptLeader(n, t, leader).term == t && AcceptLeader(n, t, leader).role.Follower?
  {
  }

  lemma SameNode(r: Node)
    ensures r.(commitIndex := r.commitIndex) == r
  {
  }

  lemma MovesSelf(w: World, v: NodeId)
    ensures Moves(w, w, v)
  {
  }

  lemma AcceptKeepsId(n: Node, t: nat, leader: NodeId)
    ensures AcceptLeader(n, t, leader).id == n.id
  {
  }

  // The commit index taken from the leader covers committed entries only.
  lemma NewCommitIndex(w: World, n: Node, last: nat, leaderCommit: nat)
    requires Good(w) && Tracks(w, n) && MayAdopt(w, n.id, last)
    requires n.commitIndex < leaderCommit <= |w.history.logs[n.term]|
    requires CommittedBy(w.history, w.history.logs[n.term][..leaderCommit], n.term)
    ensures
      var c := Max(n.commitIndex, Min(leaderCommit, last));
      var x := Adopt(w, n.id, last);
      var k := x.replicas[n.id].log;
      c <= |k| && CommittedBy(x.history, k[..c], n.term)
  {
    hide Good, Represents, Valid, CommittedBy, Overwrite, VoteTracked, CampaignTracked, LeadTracked;
    var h := w.history;
    var c := Max(n.commitIndex, Min(leaderCommit, last));
    var x := Adopt(w, n.id, last);
    var k := x.replicas[n.id].log;
    var m := h.logs[n.term];
    AdoptKeepsGood(w, n.id, last);
    if c == n.commitIndex {
      OverwriteFacts(w, n, last);
    } else {
      OverwriteContains(w.replicas[n.id].log, m[..last]);
      assert k[..c] == m[..c];
      PrefixCommitted(h, m, c, leaderCommit, n.term);
    }
    CommittedGrows(h, x.history, k[..c], n.term, n.term);
  }

  lemma OverwriteContains(l: Log, q: Log)
    ensures q <= Overwrite(l, q)
  {
  }

  // ------------------------------------------------------------ Snapshots

  // Two committed logs are prefixes of one another.
  lemma CommittedComparable(h: History, p: Log, q: Log, t: nat)
    requires Sound(h) && CommittedBy(h, p, t) && CommittedBy(h, q, t)
    ensures p <= q || q <= p
  {
    hide WinsGood, LogsGood, ConfigsGood, CampaignsGood, VotesGood, AcksGood, VotesKeepAcks, CommitsGood;
    if p != [] && q != [] {
      var c :| c in h.commits && CoveredBy(h, p, c, t);
      var d :| d in h.commits && CoveredBy(h, q, d, t);
      var u := Max(c.term, d.term);
      assert CoveredBy(h, p, c, u) && CoveredBy(h, q, d, u);
      CommittedInLeaderLog(h, p, u, u);
      CommittedInLeaderLog(h, q, u, u);
      Comparable(p, q, h.logs[u]);
    }
  }

  // What was committed in an earlier term lies within what the leader won with.
  lemma CommittedBeforeWin(h: History, q: Log, t: nat, u: nat)
    requires Sound(h) && CommittedBy(h, q, t) && t < u && u in h.wins
    ensures |q| <= |h.wins[u].log|
  {
    hide WinsGood, LogsGood, ConfigsGood, CampaignsGood, VotesGood, AcksGood, VotesKeepAcks, CommitsGood, Valid;
    if q != [] {
      var c :| c in h.commits && CoveredBy(h, q, c, t);
      WinFacts(h, u);
      Complete(h, u, h.wins[u], c);
    }
  }

  lemma SnapshotMeetsLog(w: World, n: Node, q: Log)
    requires Good(w) && Tracks(w, n) && MayInstall(w, n.id, q)
    ensures WellFormed(q) && WellFormed(w.replicas[n.id].log)
    ensures 1 <= |q| <= |w.replicas[n.id].log| && TermAt(w.replicas[n.id].log, |q|) == LastTerm(q) ==> q <= w.replicas[n.id].log
  {
    hide WinsGood, LogsGood, ConfigsGood, CampaignsGood, VotesGood, AcksGood, VotesKeepAcks, CommitsGood, AcksHeld, LeadersInStep, Represents, WellFormed, CommittedBy;
    var l := w.replicas[n.id].log;
    CommittedValid(w.history, q, n.term);
    ValidLogsMatch(w.history, l, q);
    assert q[..|q|] == q;
    WellFormedOf(w.history, q);
    WellFormedOf(w.history, l);
  }

  lemma WellFormedOf(h: History, l: Log)
    requires Valid(h, l)
    ensures WellFormed(l)
  {
  }

  // The committed part of the log stays, and now reaches at least the snapshot.
  lemma CommitAfterInstall(w: World, n: Node, q: Log)
    requires Good(w) && Tracks(w, n) && MayInstall(w, n.id, q)
    ensures
      var k := Overwrite(w.replicas[n.id].log, q);
      var c := Max(n.commitIndex, |q|);
      c <= |k| && CommittedBy(w.history, k[..c], n.term)
  {
    hide WinsGood, LogsGood, ConfigsGood, CampaignsGood, VotesGood, AcksGood, VotesKeepAcks, CommitsGood, AcksHeld, LeadersInStep, Represents, Valid, WellFormed, CommittedBy, VoteTracked, CampaignTracked, LeadTracked;
    var l := w.replicas[n.id].log;
    var p := l[..n.commitIndex];
    CommittedComparable(w.history, p, q, n.term);
    var k := Overwrite(l, q);
    if |q| <= n.commitIndex {
      assert q <= l;
      assert k[..n.commitIndex] == p;
    } else {
      assert k[..|q|] == q;
    }
  }

  lemma CampaignAfterInstall(w: World, n: Node, q: Log, t: nat)
    requires Good(w) && Tracks(w, n) && n.role.Candidate?
    requires CommittedBy(w.history, q, t) && t < n.term
    ensures CampaignLog(w.history, n.term, w.history.campaigns[Slot(n.term, n.id)], Overwrite(w.replicas[n.id].log, q))
  {
    hide WinsGood, LogsGood, ConfigsGood, CampaignsGood, VotesGood, AcksGood, VotesKeepAcks, CommitsGood, AcksHeld, LeadersInStep, Represents, Valid, WellFormed, CommittedBy, VoteTracked, CommitTracked;
    var h := w.history;
    var m, l := h.campaigns[Slot(n.term, n.id)], w.replicas[n.id].log;
    CommittedGrows(h, h, q, t, n.term - 1);
    if l != m {
      CommittedComparable(h, l, q, n.term - 1);
    }
  }

  lemma InstallTracks(w: World, n: Node, req: SnapshotRequest) returns (x: World)
    requires Good(w) && Tracks(w, n) && SnapshotAskGood(w.history, req)
    requires req.term <= n.term && (!n.role.Follower? ==> req.term < n.term)
    ensures Good(x) && Moves(w, x, n.id) && Tracks(x, InstallSnapshot(n, req).0) && x.history == w.history
  {
    hide Good, Represents, CommittedBy, Overwrite, WellFormed, InstallSnapshot;
    if req.index <= n.lastApplied {
      x := w;
      InstallNothing(n, req);
    } else {
      var h := w.history;
      var q := SnapshotLog(h, req);
      CommittedGrows(h, h, q, req.term, n.term);
      x := Install(w, n.id, q);
      InstallKeepsGood(w, n.id, q);
      InstalledRepresents(w, n, req);
      CommitAfterInstall(w, n, q);
      InstallShape(n, req);
      if n.role.Candidate? {
        CampaignAfterInstall(w, n, q, req.term);
      }
      if n.role.Leader? {
        LeaderHasItsLog(w, n);
        LeadAfterInstall(w, n, InstallSnapshot(n, req).0, q, req.term);
      }
    }
  }

  lemma InstallNothing(n: Node, req: SnapshotRequest)
    requires n.snapIndex <= n.lastApplied && req.index <= n.lastApplied
    ensures InstallSnapshot(n, req).0 == n
  {
  }

  // After installing, or finding it done, the node has applied up to the snapshot.
  lemma InstallOutcome(n: Node, req: SnapshotRequest)
    requires n.snapIndex <= n.lastApplied
    ensures
      var (m, reply) := InstallSnapshot(n, req);
      && reply == SnapshotReply(n.term, true)
      && m.id == n.id && m.term == n.term && m.role == n.role
      && m.lastApplied >= req.index
  {
  }

  // Everything but log, snapshot, progress and membership stays.
  lemma InstallShape(n: Node, req: SnapshotRequest)
    requires n.snapIndex <= n.lastApplied < req.index
    ensures
      var m := InstallSnapshot(n, req).0;
      m == n.(log := m.log, snapIndex := req.index, snapTerm := req.lastTerm, snapConfig := req.config,
              commitIndex := Max(n.commitIndex, req.index), lastApplied := req.index,
              members := m.members, configIndex := m.configIndex)
  {
  }

  lemma InstalledRepresents(w: World, n: Node, req: SnapshotRequest)
    requires Good(w) && Tracks(w, n) && SnapshotAskGood(w.history, req)
    requires req.term <= n.term && n.lastApplied < req.index
    ensures Represents(w.history.base, InstallSnapshot(n, req).0, Overwrite(w.replicas[n.id].log, SnapshotLog(w.history, req)))
  {
    hide Good, Represents, CommittedBy, Overwrite, WellFormed, CompactThrough, ConfigOf;
    var h := w.history;
    var q := SnapshotLog(h, req);
    var l := w.replicas[n.id].log;
    CommittedGrows(h, h, q, req.term, n.term);
    SnapshotMeetsLog(w, n, q);
    InstallRepresents(h.base, n, l, q, req.config);
    var c := CompactThrough(n, req.index, req.lastTerm, req.config);
    RefreshShape(c, Max(n.commitIndex, req.index), Max(n.lastApplied, req.index));
    SameRepresents(h.base, Refresh(c), InstallSnapshot(n, req).0, Overwrite(l, q));
  }

  lemma RefreshShape(n: Node, c: nat, a: nat)
    ensures Refresh(n.(commitIndex := c, lastApplied := a)) == Refresh(n).(commitIndex := c, lastApplied := a)
  {
  }

  lemma LeadAfterInstall(w: World, n: Node, m: Node, q: Log, t: nat)
    requires Good(w) && Tracks(w, n) && n.role.Leader?
    requires CommittedBy(w.history, q, t) && t < n.term
    requires n.term in w.history.logs && w.history.logs[n.term] == w.replicas[n.id].log
    requires m.id == n.id && m.term == n.term && m.termStart == n.termStart && m.matchIndex == n.matchIndex && m.nextIndex == n.nextIndex
    requires m.commitIndex == Max(n.commitIndex, |q|)
    ensures LeadTracked(w.history, m, Overwrite(w.replicas[n.id].log, q))
  {
    hide WinsGood, LogsGood, ConfigsGood, CampaignsGood, VotesGood, AcksGood, VotesKeepAcks, CommitsGood, AcksHeld, LeadersInStep, Represents, Valid, WellFormed, CommittedBy, VoteTracked, CommitTracked;
    CommittedInLeaderLog(w.history, q, t, n.term);
    CommittedBeforeWin(w.history, q, t, n.term);
  }

  // ------------------------------------------------------------ Local steps

  lemma AppliedTracks(w: World, n: Node, e: Entry) returns (x: World)
    requires Good(w) && Tracks(w, n) && n.lastApplied < n.commitIndex
    ensures Good(x) && Moves(w, x, n.id) && Tracks(x, Applied(n, e)) && x.history == w.history
    ensures x.replicas[n.id].log == w.replicas[n.id].log
  {
    hide Good, Represents, CommittedBy;
    var m := n.(lastApplied := n.lastApplied + 1);
    SameRepresents(w.history.base, n, m, w.replicas[n.id].log);
    assert Tracks(w, m);
    x := w;
    if Applied(n, e) != m {
      x := FollowerTracks(w, m, m.term);
    }
  }

  lemma CompactTracks(w: World, n: Node, threshold: nat)
    requires Good(w) && Tracks(w, n)
    ensures n.lastApplied <= LastIndex(n)
    ensures Tracks(w, MaybeSnapshot(n, threshold))
  {
    hide Good, Represents, CommittedBy, ConfigAt;
    var h, l := w.history, w.replicas[n.id].log;
    RepresentsStores(h.base, n, l);
    Queries(h.base, n, l);
    ReplicaWellFormed(w, n.id);
    CompactRepresents(h.base, n, l, n.lastApplied);
  }

  lemma RestartTracks(w: World, n: Node)
    requires Good(w) && Tracks(w, n)
    ensures Tracks(w, Restart(n, n.snapIndex))
  {
    hide Good, Represents, CommittedBy, Stores;
    var h, l := w.history, w.replicas[n.id].log;
    RepresentsStores(h.base, n, l);
    ReplicaWellFormed(w, n.id);
    var m := n.(role := Follower, leaderId := None, commitIndex := n.snapIndex, lastApplied := n.snapIndex,
                nextIndex := map[], matchIndex := map[], termStart := 0, sendSeq := 0, lastAck := map[],
                votes := {}, generation := 0);
    SameStores(h.base, n, m, l);
    RefreshRepresents(h.base, m, l);
    PrefixCommitted(h, l, n.snapIndex, n.commitIndex, n.term);
  }

  lemma SameStores(base: set<NodeId>, n: Node, m: Node, l: Log)
    requires Stores(base, n, l)
    requires m.log == n.log && m.snapIndex == n.snapIndex && m.snapTerm == n.snapTerm && m.snapConfig == n.snapConfig
    ensures Stores(base, m, l)
  {
  }
}
