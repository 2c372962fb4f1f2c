// Steps that change logs: adopting a leader's entries, installing a snapshot,
// winning, appending, committing.
module WorldSteps {
  import opened Types
  import opened Logs
  import opened Quorums
  import opened Histories
  import opened HistoryGrowth
  import opened LeaderCompleteness
  import opened Worlds

  // Two prefixes of one log are comparable.
  lemma Comparable(p: Log, q: Log, l: Log)
    requires p <= l && q <= l
    ensures p <= q || q <= p
  {
  }

  // A log that gets a prefix it lacked is cut or extended to exactly that prefix.
  function Overwrite(l: Log, p: Log): Log {
    if p <= l then l else p
  }

  // ------------------------------------------------------------ Adopt leader entries

  ghost predicate MayAdopt(w: World, v: NodeId, n: nat) {
    && v in w.replicas
    && w.replicas[v].term in w.history.logs
    && n <= |w.history.logs[w.replicas[v].term]|
  }

  function AcksUpTo(t: nat, v: NodeId, n: nat): set<Ack> {
    set i | 0 <= i <= n :: Ack(t, v, i)
  }

  // The node now has the first n entries of the leader of its term.
  function Adopt(w: World, v: NodeId, n: nat): World
    requires MayAdopt(w, v, n)
  {
    var r := w.replicas[v];
    var h := w.history;
    World(h.(acks := h.acks + AcksUpTo(r.term, v, n)),
          w.replicas[v := r.(log := Overwrite(r.log, h.logs[r.term][..n]))])
  }

  // Overwriting with part of a later leader's log loses only what that leader lacked.
  lemma OverwriteKeepsAck(h: History, r: Replica, a: Ack, q: Log, u: nat)
    requires Sound(h) && a in h.acks && AckHeld(h, r, a)
    requires u in h.logs && q <= h.logs[u] && a.term <= u <= r.term
    ensures AckHeld(h, r.(log := Overwrite(r.log, q)), a)
  {
    hide WinsGood, ConfigsGood, CampaignsGood, VotesGood, VotesKeepAcks, CommitsGood, Valid, WellFormed;
    var p := h.logs[a.term][..a.index];
    LeaderLogFacts(h, u);
    if p <= r.log && !(q <= r.log) && !(p <= q) {
      if a.term == u {
        Comparable(p, q, h.logs[u]);
      } else if p <= h.wins[u].log {
        Comparable(p, q, h.logs[u]);
      } else {
        assert LostBetween(h, p, a.term, r.term + 1);
      }
    }
  }

  lemma AdoptSound(w: World, v: NodeId, n: nat)
    requires Good(w) && MayAdopt(w, v, n)
    ensures Sound(Adopt(w, v, n).history) && Grows(w.history, Adopt(w, v, n).history)
  {
    hide WinsGood, LogsGood, ConfigsGood, CampaignsGood, VotesGood, VotesKeepAcks, CommitsGood, Valid, WellFormed, TermsBelow, GoodWin, GoodCommit;
    var h, k := w.history, Adopt(w, v, n).history;
    LogsSame(h, k);
    assert NewWinsGood(h, k) && NewConfigsGood(h, k) && NewCommitsGood(h, k);
    assert NewCampaignsGood(h, k) && NewVotesGood(h, k);
    assert NewAcksKept(h, k);
    SoundAfter(h, k);
  }

  lemma AdoptKeepsGood(w: World, v: NodeId, n: nat)
    requires Good(w) && MayAdopt(w, v, n)
    ensures Good(Adopt(w, v, n)) && Grows(w.history, Adopt(w, v, n).history)
  {
    hide WinsGood, LogsGood, ConfigsGood, CampaignsGood, VotesGood, VotesKeepAcks, CommitsGood, Valid, WellFormed;
    var x := Adopt(w, v, n);
    var h, k := w.history, x.history;
    var r := w.replicas[v];
    AdoptSound(w, v, n);
    Inherited(w, x, v);
    LeaderLogValid(k, r.term, n);
    LeaderLogFacts(h, r.term);
    forall a | a in k.acks
      ensures a.node in x.replicas && AckHeld(k, x.replicas[a.node], a)
    {
      if a in h.acks {
        assert AckHeld(h, w.replicas[a.node], a);
        if a.node == v {
          AckHeldGrows(h, k, r, a);
          OverwriteKeepsAck(k, r, a, h.logs[r.term][..n], r.term);
        }
      } else {
        assert h.logs[r.term][..a.index] <= h.logs[r.term][..n];
      }
    }
    forall t | t in k.wins
      ensures LeadsIn(x, t)
    {
      assert LeadsIn(w, t);
    }
  }

  // ------------------------------------------------------------ Install a snapshot

  ghost predicate MayInstall(w: World, v: NodeId, q: Log) {
    v in w.replicas && CommittedBy(w.history, q, w.replicas[v].term)
  }

  function Install(w: World, v: NodeId, q: Log): World
    requires v in w.replicas
  {
    var r := w.replicas[v];
    w.(replicas := w.replicas[v := r.(log := Overwrite(r.log, q))])
  }

  // Committed logs are part of every leader log of the same or a later term.
  lemma CommittedInLeaderLog(h: History, q: Log, t: nat, u: nat)
    requires Sound(h) && CommittedBy(h, q, t) && t <= u && u in h.logs
    ensures q <= h.logs[u]
  {
    hide WinsGood, LogsGood, ConfigsGood, CampaignsGood, VotesGood, VotesKeepAcks, CommitsGood, AcksGood, Valid, WellFormed;
    if q != [] {
      var c :| c in h.commits && CoveredBy(h, q, c, t);
      if c.term < u {
        WinFacts(h, u);
        Complete(h, u, h.wins[u], c);
        LeaderLogFacts(h, u);
      }
    }
  }

  lemma InstallKeepsAck(h: History, r: Replica, a: Ack, q: Log)
    requires Sound(h) && a in h.acks && AckHeld(h, r, a)
    requires CommittedBy(h, q, r.term)
    ensures AckHeld(h, r.(log := Overwrite(r.log, q)), a)
  {
    hide WinsGood, LogsGood, ConfigsGood, CampaignsGood, VotesGood, VotesKeepAcks, CommitsGood, Valid, WellFormed;
    if q != [] {
      var c :| c in h.commits && CoveredBy(h, q, c, r.term);
      if a.term <= c.term {
        OverwriteKeepsAck(h, r, a, q, c.term);
      } else {
        assert CommittedBy(h, q, c.term) by {
          assert CoveredBy(h, q, c, c.term);
        }
        CommittedInLeaderLog(h, q, c.term, a.term);
        OverwriteKeepsAck(h, r, a, q, a.term);
      }
    }
  }

  lemma CommittedValid(h: History, q: Log, t: nat)
    requires Sound(h) && CommittedBy(h, q, t)
    ensures Valid(h, q) && TermsBelow(q, t + 1)
  {
    hide WinsGood, ConfigsGood, CampaignsGood, VotesGood, VotesKeepAcks, CommitsGood, AcksGood;
    if q != [] {
      var c :| c in h.commits && CoveredBy(h, q, c, t);
      LeaderLogValid(h, c.term, |q|);
      LeaderLogFacts(h, c.term);
      assert q == h.logs[c.term][..|q|];
    }
  }

  lemma InstallKeepsGood(w: World, v: NodeId, q: Log)
    requires Good(w) && MayInstall(w, v, q)
    ensures Good(Install(w, v, q))
  {
    hide WinsGood, LogsGood, ConfigsGood, CampaignsGood, VotesGood, VotesKeepAcks, CommitsGood, Valid, WellFormed;
    var x := Install(w, v, q);
    var h := w.history;
    var r := w.replicas[v];
    CommittedValid(h, q, r.term);
    forall a | a in h.acks
      ensures AckHeld(h, x.replicas[a.node], a)
    {
      assert AckHeld(h, w.replicas[a.node], a);
      if a.node == v {
        InstallKeepsAck(h, r, a, q);
      }
    }
    forall t | t in h.wins
      ensures LeadsIn(x, t)
    {
      assert LeadsIn(w, t);
      if h.wins[t].leader == v && t == r.term {
        CommittedInLeaderLog(h, q, t, t);
      }
    }
  }

  // ------------------------------------------------------------ Win an election

  function NoopEntry(t: nat, i: nat): Entry {
    Entry(t, i, Noop, "", None)
  }

  ghost predicate MayWin(w: World, v: NodeId, q: set<NodeId>) {
    && v in w.replicas
    && w.replicas[v].term >= 1
    && Slot(w.replicas[v].term, v) in w.history.campaigns
    && GoodWin(w.history, w.replicas[v].term, Victory(w, v, q))
    && !(w.replicas[v].term in w.history.wins && w.history.wins[w.replicas[v].term].leader == v)
  }

  function Victory(w: World, v: NodeId, q: set<NodeId>): (x: Win)
    requires v in w.replicas && Slot(w.replicas[v].term, v) in w.history.campaigns
    ensures x.leader == v && x.voters == q
  {
    Win(v, w.history.campaigns[Slot(w.replicas[v].term, v)], w.replicas[v].log, q)
  }

  function Lead(w: World, v: NodeId, q: set<NodeId>): World
    requires v in w.replicas && Slot(w.replicas[v].term, v) in w.history.campaigns
  {
    var r := w.replicas[v];
    var h := w.history;
    var l := r.log + [NoopEntry(r.term, |r.log| + 1)];
    World(h.(wins := h.wins[r.term := Victory(w, v, q)], logs := h.logs[r.term := l], acks := h.acks + AcksUpTo(r.term, v, |l|)),
          w.replicas[v := r.(log := l)])
  }

  // A term that is about to be won has no leader yet.
  lemma FreshTerm(w: World, v: NodeId, q: set<NodeId>)
    requires Good(w) && MayWin(w, v, q)
    ensures w.replicas[v].term !in w.history.wins
  {
    hide WinsGood, LogsGood, ConfigsGood, CampaignsGood, VotesGood, VotesKeepAcks, CommitsGood, AcksGood, Valid, WellFormed;
    var h, t := w.history, w.replicas[v].term;
    if t in h.wins {
      WinFacts(h, t);
      OneWinner(h, t, h.wins[t], Victory(w, v, q));
      assert false;
    }
  }

  lemma LeadGrows(w: World, v: NodeId, q: set<NodeId>)
    requires Good(w) && MayWin(w, v, q)
    ensures Grows(w.history, Lead(w, v, q).history)
    ensures Lead(w, v, q).history.wins.Keys == Lead(w, v, q).history.logs.Keys
  {
    hide WinsGood, LogsGood, ConfigsGood, CampaignsGood, VotesGood, VotesKeepAcks, CommitsGood, AcksGood, Valid, WellFormed;
    FreshTerm(w, v, q);
  }

  lemma ExtendWellFormed(l: Log, e: Entry)
    requires WellFormed(l) && TermsBelow(l, e.term + 1) && e.term >= 1 && e.index == |l| + 1
    ensures WellFormed(l + [e]) && TermsBelow(l + [e], e.term + 1)
  {
  }

  lemma LeadLogsGood(w: World, v: NodeId, q: set<NodeId>)
    requires Good(w) && MayWin(w, v, q)
    ensures Lead(w, v, q).history.wins.Keys == Lead(w, v, q).history.logs.Keys
    ensures LogsGood(Lead(w, v, q).history)
  {
    hide WinsGood, LogsGood, ConfigsGood, CampaignsGood, VotesGood, VotesKeepAcks, CommitsGood, AcksGood, WellFormed, AcksHeld;
    LeadGrows(w, v, q);
    var h, k := w.history, Lead(w, v, q).history;
    var r := w.replicas[v];
    assert Valid(h, r.log);
    ExtendWellFormed(r.log, NoopEntry(r.term, |r.log| + 1));
    assert LeaderLog(k, r.term, k.wins[r.term], k.logs[r.term]);
    forall t | t in k.wins && t != r.term
      ensures LeaderLog(k, t, k.wins[t], k.logs[t])
    {
      LeaderLogFacts(h, t);
    }
    LogsFrom(k);
  }

  lemma LogsFrom(k: History)
    requires k.wins.Keys == k.logs.Keys
    requires forall t :: t in k.wins ==> LeaderLog(k, t, k.wins[t], k.logs[t])
    ensures LogsGood(k)
  {
  }

  // A vote cast before its term was won is not late for it.
  lemma LeadKeepsVotes(w: World, v: NodeId, q: set<NodeId>, s: Slot, a: Ack)
    requires Good(w) && MayWin(w, v, q)
    requires s in w.history.votes && a in Lead(w, v, q).history.acks
    ensures a.term in Lead(w, v, q).history.logs && a.index <= |Lead(w, v, q).history.logs[a.term]|
    ensures AckKept(Lead(w, v, q).history, s, a)
  {
    hide WinsGood, LogsGood, ConfigsGood, CampaignsGood, VotesGood, CommitsGood, Valid, WellFormed, GoodWin;
    LeadGrows(w, v, q);
    var h, k := w.history, Lead(w, v, q).history;
    if a in h.acks {
      assert AckKept(h, s, a);
      AckKeptGrows(h, k, s, a);
    }
  }

  lemma LeadSound(w: World, v: NodeId, q: set<NodeId>)
    requires Good(w) && MayWin(w, v, q)
    ensures Sound(Lead(w, v, q).history) && Grows(w.history, Lead(w, v, q).history)
  {
    hide WinsGood, LogsGood, ConfigsGood, CampaignsGood, VotesGood, VotesKeepAcks, CommitsGood, Valid, WellFormed, TermsBelow, GoodWin, GoodCommit, AckKept;
    LeadGrows(w, v, q);
    var h, k := w.history, Lead(w, v, q).history;
    var r := w.replicas[v];
    LeadLogsGood(w, v, q);
    GoodWinGrows(h, k, r.term, Victory(w, v, q));
    assert NewWinsGood(h, k) && NewCommitsGood(h, k);
    assert NewConfigsGood(h, k) by {
      forall j | |r.log| < j
        ensures GoodConfig(k, k.logs[r.term], j)
      {
        assert !IsConfig(k.logs[r.term], j);
      }
    }
    assert NewCampaignsGood(h, k) && NewVotesGood(h, k);
    assert AcksGood(k);
    forall s, a | s in k.votes && a in k.acks
      ensures AckKept(k, s, a)
    {
      LeadKeepsVotes(w, v, q, s, a);
    }
    assert NewAcksKept(h, k);
    SoundAfter(h, k);
  }

  // The node's own log grows by entries of its own: it keeps all it acknowledged.
  lemma ExtendKeepsAck(h: History, r: Replica, a: Ack, e: Entry)
    requires a.term in h.logs && a.index <= |h.logs[a.term]| && AckHeld(h, r, a)
    ensures AckHeld(h, r.(log := r.log + [e]), a)
  {
  }

  // After a node extended its log and its leader log alike, everything is in step.
  lemma OwnLogExtended(w: World, x: World, v: NodeId, e: Entry)
    requires Good(w) && v in w.replicas && Grows(w.history, x.history) && Sound(x.history)
    requires x.replicas == w.replicas[v := w.replicas[v].(log := w.replicas[v].log + [e])]
    requires e.term == w.replicas[v].term && e.index == |w.replicas[v].log| + 1
    requires e.term in x.history.wins && x.history.wins[e.term].leader == v
    requires x.history.logs[e.term] == x.replicas[v].log
    requires forall t :: t in x.history.wins && t != e.term ==> t in w.history.wins && x.history.logs[t] == w.history.logs[t]
    requires x.history.votes == w.history.votes && x.history.campaigns == w.history.campaigns
    requires forall a :: a in x.history.acks && a !in w.history.acks ==> a.node == v && a.term == e.term
    ensures Good(x)
  {
    hide WinsGood, LogsGood, ConfigsGood, CampaignsGood, VotesGood, VotesKeepAcks, CommitsGood, Valid, WellFormed;
    var h, k := w.history, x.history;
    Inherited(w, x, v);
    LeaderLogValid(k, e.term, |k.logs[e.term]|);
    assert k.logs[e.term][..|k.logs[e.term]|] == k.logs[e.term];
    forall a | a in k.acks
      ensures a.node in x.replicas && AckHeld(k, x.replicas[a.node], a)
    {
      if a in h.acks && a.node == v {
        assert AckHeld(h, w.replicas[v], a);
        AckHeldGrows(h, k, w.replicas[v], a);
        ExtendKeepsAck(k, w.replicas[v], a, e);
      }
    }
    forall t | t in k.wins
      ensures LeadsIn(x, t)
    {
      if t != e.term {
        assert LeadsIn(w, t);
      }
    }
  }

  lemma LeadKeepsGood(w: World, v: NodeId, q: set<NodeId>)
    requires Good(w) && MayWin(w, v, q)
    ensures Good(Lead(w, v, q)) && Grows(w.history, Lead(w, v, q).history)
  {
    hide Sound, ReplicasGood, TermsSeen, AcksHeld, LeadersInStep, Valid, WellFormed, GoodWin;
    LeadSound(w, v, q);
    OwnLogExtended(w, Lead(w, v, q), v, NoopEntry(w.replicas[v].term, |w.replicas[v].log| + 1));
  }

  // ------------------------------------------------------------ Append to one's own log

  ghost predicate MayAppend(w: World, v: NodeId, c: Command) {
    && v in w.replicas
    && w.replicas[v].term in w.history.wins
    && w.history.wins[w.replicas[v].term].leader == v
    && (c.Config? ==>
          && OneChange(Membership(w.history.base, w.replicas[v].log), c.members)
          && exists d :: d in w.history.commits && ReadyToChange(w, v, d))
  }

  // The leader committed in its own term, and past every CONFIG in its log.
  ghost predicate ReadyToChange(w: World, v: NodeId, d: Commit)
    requires v in w.replicas
  {
    var l := w.replicas[v].log;
    d.term == w.replicas[v].term && forall i :: IsConfig(l, i) ==> i <= d.index
  }

  function Append(w: World, v: NodeId, e: Entry): World
    requires v in w.replicas
  {
    var r := w.replicas[v];
    var h := w.history;
    var l := r.log + [e];
    World(h.(logs := h.logs[r.term := l], acks := h.acks + {Ack(r.term, v, |l|)}),
          w.replicas[v := r.(log := l)])
  }

  lemma AppendGrows(w: World, v: NodeId, e: Entry)
    requires Good(w) && MayAppend(w, v, e.command)
    ensures Grows(w.history, Append(w, v, e).history)
    ensures Append(w, v, e).history.wins.Keys == Append(w, v, e).history.logs.Keys
    ensures w.history.logs[w.replicas[v].term] == w.replicas[v].log
  {
    hide WinsGood, LogsGood, ConfigsGood, CampaignsGood, VotesGood, VotesKeepAcks, CommitsGood, AcksGood, Valid, WellFormed;
    assert LeadsIn(w, w.replicas[v].term);
  }

  lemma AppendLogsGood(w: World, v: NodeId, e: Entry)
    requires Good(w) && MayAppend(w, v, e.command)
    requires e.term == w.replicas[v].term && e.index == |w.replicas[v].log| + 1
    ensures Append(w, v, e).history.wins.Keys == Append(w, v, e).history.logs.Keys
    ensures LogsGood(Append(w, v, e).history)
  {
    hide WinsGood, LogsGood, ConfigsGood, CampaignsGood, VotesGood, VotesKeepAcks, CommitsGood, AcksGood, WellFormed, AcksHeld;
    AppendGrows(w, v, e);
    var h, k := w.history, Append(w, v, e).history;
    var r := w.replicas[v];
    assert Valid(h, r.log);
    LeaderLogFacts(h, r.term);
    ExtendWellFormed(r.log, e);
    assert LeaderLog(k, r.term, k.wins[r.term], k.logs[r.term]);
    forall t | t in k.wins && t != r.term
      ensures LeaderLog(k, t, k.wins[t], k.logs[t])
    {
      LeaderLogFacts(h, t);
    }
    LogsFrom(k);
  }

  lemma AppendConfigGood(w: World, v: NodeId, e: Entry, j: int)
    requires Good(w) && MayAppend(w, v, e.command)
    requires e.term == w.replicas[v].term && j > |w.replicas[v].log|
    ensures GoodConfig(Append(w, v, e).history, w.replicas[v].log + [e], j)
  {
    hide WinsGood, LogsGood, ConfigsGood, CampaignsGood, VotesGood, VotesKeepAcks, AcksGood, Valid, WellFormed, OneChange, Membership;
    AppendGrows(w, v, e);
    var k := Append(w, v, e).history;
    var l := w.replicas[v].log;
    var m := l + [e];
    if IsConfig(m, j) {
      assert m[..j - 1] == l;
      var d :| d in w.history.commits && ReadyToChange(w, v, d);
      CommitFacts(w.history, d);
      forall i | IsConfig(m, i) && i < j
        ensures i <= d.index
      {
        assert IsConfig(l, i);
      }
      assert Allows(k, m, j, d);
    }
  }

  lemma AppendSound(w: World, v: NodeId, e: Entry)
    requires Good(w) && MayAppend(w, v, e.command)
    requires e.term == w.replicas[v].term && e.index == |w.replicas[v].log| + 1
    ensures Sound(Append(w, v, e).history) && Grows(w.history, Append(w, v, e).history)
  {
    hide WinsGood, LogsGood, ConfigsGood, CampaignsGood, VotesGood, VotesKeepAcks, CommitsGood, Valid, WellFormed, TermsBelow, GoodWin, GoodCommit, GoodConfig;
    AppendGrows(w, v, e);
    var h, k := w.history, Append(w, v, e).history;
    AppendLogsGood(w, v, e);
    assert NewWinsGood(h, k) && NewCommitsGood(h, k);
    forall t, j | t in k.wins && |k.wins[t].log| < j && (t !in h.logs || j > |h.logs[t]|)
      ensures GoodConfig(k, k.logs[t], j)
    {
      if t == e.term {
        AppendConfigGood(w, v, e, j);
      } else {
        BeyondIsGood(k, k.logs[t], j);
      }
    }
    assert NewConfigsGood(h, k);
    assert NewCampaignsGood(h, k) && NewVotesGood(h, k);
    assert AcksGood(k);
    assert NewAcksKept(h, k) by {
      forall s, a | s in k.votes && a in k.acks && (s !in h.votes || a !in h.acks)
        ensures AckKept(k, s, a)
      {
      }
    }
    SoundAfter(h, k);
  }

  lemma BeyondIsGood(k: History, l: Log, j: int)
    requires j > |l|
    ensures GoodConfig(k, l, j)
  {
  }

  lemma AppendKeepsGood(w: World, v: NodeId, e: Entry)
    requires Good(w) && MayAppend(w, v, e.command)
    requires e.term == w.replicas[v].term && e.index == |w.replicas[v].log| + 1
    ensures Good(Append(w, v, e)) && Grows(w.history, Append(w, v, e).history)
  {
    hide Sound, ReplicasGood, TermsSeen, AcksHeld, LeadersInStep, Valid, WellFormed;
    AppendSound(w, v, e);
    OwnLogExtended(w, Append(w, v, e), v, e);
  }

  // ------------------------------------------------------------ Commit

  function CommitTo(w: World, c: Commit): World {
    w.(history := w.history.(commits := w.history.commits + {c}))
  }

  lemma CommitKeepsGood(w: World, c: Commit)
    requires Good(w) && GoodCommit(w.history, c)
    ensures Good(CommitTo(w, c)) && Grows(w.history, CommitTo(w, c).history)
  {
    hide WinsGood, LogsGood, ConfigsGood, CampaignsGood, VotesGood, VotesKeepAcks, CommitsGood, Valid, WellFormed, TermsBelow, GoodWin, GoodCommit, GoodConfig;
    hide ReplicasGood, AcksHeld, LeadersInStep;
    var h, k := w.history, CommitTo(w, c).history;
    LogsSame(h, k);
    GoodCommitGrows(h, k, c);
    assert NewWinsGood(h, k) && NewCommitsGood(h, k);
    assert NewCampaignsGood(h, k) && NewVotesGood(h, k);
    assert NewAcksKept(h, k);
    assert NewConfigsGood(h, k) by {
      forall t, j | t in k.wins && |k.wins[t].log| < j && (t !in h.logs || j > |h.logs[t]|)
        ensures GoodConfig(k, k.logs[t], j)
      {
        BeyondIsGood(k, k.logs[t], j);
      }
    }
    SoundAfter(h, k);
    WithHistory(w, k);
  }
}
