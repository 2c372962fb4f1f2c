// Histories only grow, and everything said about an older part stays true.
module HistoryGrowth {
  import opened Logs
  import opened Quorums
  import opened Histories

  ghost predicate Grows(h: History, k: History) {
    && k.base == h.base
    && (forall s :: s in h.campaigns ==> s in k.campaigns && k.campaigns[s] == h.campaigns[s])
    && (forall s :: s in h.votes ==> s in k.votes && k.votes[s] == h.votes[s])
    && (forall t :: t in h.wins ==> t in k.wins && k.wins[t] == h.wins[t])
    && (forall t :: t in h.logs ==> t in k.logs && h.logs[t] <= k.logs[t])
    && h.acks <= k.acks
    && h.commits <= k.commits
  }

  lemma GrowsTransitive(h: History, k: History, m: History)
    requires Grows(h, k) && Grows(k, m)
    ensures Grows(h, m)
  {
  }

  lemma ValidGrows(h: History, k: History, l: Log)
    requires Grows(h, k) && Valid(h, l)
    ensures Valid(k, l)
  {
    hide WellFormed;
    forall i | 0 <= i < |l|
      ensures l[i].term in k.logs && l[..i + 1] <= k.logs[l[i].term]
    {
    }
  }

  lemma CommittedGrows(h: History, k: History, l: Log, t: nat, u: nat)
    requires Grows(h, k) && CommittedBy(h, l, t) && t <= u
    ensures CommittedBy(k, l, u)
  {
    if l != [] {
      var c :| c in h.commits && CoveredBy(h, l, c, t);
      assert CoveredBy(k, l, c, u);
    }
  }

  lemma LostGrows(h: History, k: History, p: Log, lo: nat, hi: nat, hi': nat)
    requires Grows(h, k) && LostBetween(h, p, lo, hi) && hi <= hi'
    ensures LostBetween(k, p, lo, hi')
  {
    var t :| lo < t < hi && t in h.wins && !(p <= h.wins[t].log);
    assert t in k.wins;
  }

  lemma GoodWinGrows(h: History, k: History, t: nat, w: Win)
    requires Grows(h, k) && GoodWin(h, t, w)
    ensures GoodWin(k, t, w)
  {
    hide Membership, IsMajority, Valid, TermsBelow;
    ValidGrows(h, k, w.log);
    ValidGrows(h, k, w.campaign);
    if t > 0 && CommittedBy(h, w.log, t - 1) {
      CommittedGrows(h, k, w.log, t - 1, t - 1);
    }
    forall v | v in w.voters
      ensures Slot(t, v) in k.votes && k.votes[Slot(t, v)] == h.votes[Slot(t, v)]
    {
    }
  }

  lemma GoodCommitGrows(h: History, k: History, c: Commit)
    requires Grows(h, k) && GoodCommit(h, c)
    ensures GoodCommit(k, c)
  {
    hide Membership, IsMajority;
    assert k.logs[c.term][..c.len] == h.logs[c.term][..c.len];
  }

  lemma GoodConfigGrows(h: History, k: History, l: Log, m: Log, j: nat)
    requires Grows(h, k) && l <= m && 1 <= j <= |l| && GoodConfig(h, l, j)
    ensures GoodConfig(k, m, j)
  {
    hide Membership, OneChange, NewestConfig;
    if IsConfig(m, j) {
      assert IsConfig(l, j);
      var c :| c in h.commits && Allows(h, l, j, c);
      assert m[..j - 1] == l[..j - 1];
      forall i | IsConfig(m, i) && i < j
        ensures i <= c.index
      {
        assert IsConfig(l, i);
      }
      assert Allows(k, m, j, c);
    }
  }

  lemma CampaignsGrow(h: History, k: History, s: Slot)
    requires Grows(h, k) && CampaignsGood(h) && s in h.campaigns
    ensures s in k.campaigns && Valid(k, k.campaigns[s]) && TermsBelow(k.campaigns[s], s.term)
  {
    hide Valid;
    ValidGrows(h, k, h.campaigns[s]);
  }

  lemma VotesGrow(h: History, k: History, s: Slot)
    requires Grows(h, k) && VotesGood(h) && s in h.votes
    ensures s in k.votes
    ensures Valid(k, k.votes[s].log) && TermsBelow(k.votes[s].log, s.term)
    ensures Slot(s.term, k.votes[s].candidate) in k.campaigns
    ensures UpToDate(k.campaigns[Slot(s.term, k.votes[s].candidate)], k.votes[s].log)
  {
    hide Valid;
    ValidGrows(h, k, h.votes[s].log);
  }

  // For an unchanged leader set, what a vote says about acknowledgements stays true.
  lemma AckKeptGrows(h: History, k: History, s: Slot, a: Ack)
    requires Grows(h, k) && s in h.votes && a.term in h.logs && a.index <= |h.logs[a.term]|
    requires AckKept(h, s, a)
    ensures AckKept(k, s, a)
  {
    if a.node == s.node && a.term < s.term {
      var p := h.logs[a.term][..a.index];
      assert p == k.logs[a.term][..a.index];
      if LostBetween(h, p, a.term, s.term) {
        LostGrows(h, k, p, a.term, s.term, s.term);
      }
    }
  }

  // What a step must establish about the records it adds; the rest is inherited.
  ghost predicate NewRecordsGood(h: History, k: History) {
    && k.wins.Keys == k.logs.Keys
    && NewWinsGood(h, k)
    && LogsGood(k)
    && NewConfigsGood(h, k)
    && NewCampaignsGood(h, k)
    && NewVotesGood(h, k)
    && AcksGood(k)
    && NewAcksKept(h, k)
    && NewCommitsGood(h, k)
  }

  ghost predicate NewWinsGood(h: History, k: History) {
    forall t :: t in k.wins && t !in h.wins ==> GoodWin(k, t, k.wins[t])
  }

  ghost predicate NewConfigsGood(h: History, k: History)
    requires k.wins.Keys == k.logs.Keys
  {
    forall t, j {:trigger GoodConfig(k, k.logs[t], j)} ::
      t in k.wins && |k.wins[t].log| < j && (t !in h.logs || j > |h.logs[t]|) ==> GoodConfig(k, k.logs[t], j)
  }

  ghost predicate NewCampaignsGood(h: History, k: History) {
    forall s :: s in k.campaigns && s !in h.campaigns ==> Valid(k, k.campaigns[s]) && TermsBelow(k.campaigns[s], s.term)
  }

  ghost predicate NewVotesGood(h: History, k: History) {
    forall s :: s in k.votes && s !in h.votes ==>
      && Valid(k, k.votes[s].log) && TermsBelow(k.votes[s].log, s.term)
      && Slot(s.term, k.votes[s].candidate) in k.campaigns
      && UpToDate(k.campaigns[Slot(s.term, k.votes[s].candidate)], k.votes[s].log)
  }

  ghost predicate NewAcksKept(h: History, k: History)
    requires AcksGood(k)
  {
    forall s, a {:trigger AckKept(k, s, a)} ::
      s in k.votes && a in k.acks && (s !in h.votes || a !in h.acks) ==> AckKept(k, s, a)
  }

  ghost predicate NewCommitsGood(h: History, k: History) {
    forall c :: c in k.commits && c !in h.commits ==> GoodCommit(k, c)
  }

  lemma WinsAfter(h: History, k: History)
    requires Grows(h, k) && WinsGood(h) && NewWinsGood(h, k)
    ensures WinsGood(k)
  {
    hide GoodWin;
    forall t | t in k.wins && t in h.wins
      ensures GoodWin(k, t, k.wins[t])
    {
      GoodWinGrows(h, k, t, h.wins[t]);
    }
  }

  lemma ConfigsAfter(h: History, k: History)
    requires Grows(h, k) && h.wins.Keys == h.logs.Keys && k.wins.Keys == k.logs.Keys
    requires ConfigsGood(h) && NewConfigsGood(h, k)
    ensures ConfigsGood(k)
  {
    hide GoodConfig;
    forall t, j | t in k.wins && |k.wins[t].log| < j
      ensures GoodConfig(k, k.logs[t], j)
    {
      if t in h.logs && j <= |h.logs[t]| {
        assert GoodConfig(h, h.logs[t], j);
        GoodConfigGrows(h, k, h.logs[t], k.logs[t], j);
      }
    }
  }

  lemma CampaignsAfter(h: History, k: History)
    requires Grows(h, k) && CampaignsGood(h) && NewCampaignsGood(h, k)
    ensures CampaignsGood(k)
  {
    hide Valid, TermsBelow, CampaignsGood;
    forall s | s in k.campaigns && s in h.campaigns
      ensures Valid(k, k.campaigns[s]) && TermsBelow(k.campaigns[s], s.term)
    {
      CampaignsGrow(h, k, s);
    }
    CampaignsFrom(h, k);
  }

  lemma CampaignsFrom(h: History, k: History)
    requires NewCampaignsGood(h, k)
    requires forall s :: s in k.campaigns && s in h.campaigns ==> Valid(k, k.campaigns[s]) && TermsBelow(k.campaigns[s], s.term)
    ensures CampaignsGood(k)
  {
    hide Valid, TermsBelow;
  }

  lemma VotesAfter(h: History, k: History)
    requires Grows(h, k) && VotesGood(h) && NewVotesGood(h, k)
    ensures VotesGood(k)
  {
    hide Valid, TermsBelow, UpToDate;
    forall s | s in k.votes && s in h.votes
      ensures
        && Valid(k, k.votes[s].log) && TermsBelow(k.votes[s].log, s.term)
        && Slot(s.term, k.votes[s].candidate) in k.campaigns
        && UpToDate(k.campaigns[Slot(s.term, k.votes[s].candidate)], k.votes[s].log)
    {
      VotesGrow(h, k, s);
    }
  }

  lemma AcksAfter(h: History, k: History)
    requires Grows(h, k) && AcksGood(h) && VotesKeepAcks(h) && AcksGood(k) && NewAcksKept(h, k)
    ensures VotesKeepAcks(k)
  {
    hide AckKept;
    forall s, a | s in k.votes && a in k.acks
      ensures AckKept(k, s, a)
    {
      if s in h.votes && a in h.acks {
        assert AckKept(h, s, a);
        AckKeptGrows(h, k, s, a);
      }
    }
  }

  lemma CommitsAfter(h: History, k: History)
    requires Grows(h, k) && CommitsGood(h) && NewCommitsGood(h, k)
    ensures CommitsGood(k)
  {
    hide GoodCommit;
    forall c | c in k.commits && c in h.commits
      ensures GoodCommit(k, c)
    {
      GoodCommitGrows(h, k, c);
    }
  }

  lemma SoundAfter(h: History, k: History)
    requires Sound(h) && Grows(h, k) && NewRecordsGood(h, k)
    ensures Sound(k)
  {
    hide WinsGood, LogsGood, ConfigsGood, CampaignsGood, VotesGood, AcksGood, VotesKeepAcks, CommitsGood;
    hide NewWinsGood, NewConfigsGood, NewCampaignsGood, NewVotesGood, NewAcksKept, NewCommitsGood;
    WinsAfter(h, k);
    ConfigsAfter(h, k);
    CampaignsAfter(h, k);
    VotesAfter(h, k);
    AcksAfter(h, k);
    CommitsAfter(h, k);
  }
}
