// The heart of the safety argument: in a sound history every elected leader has
// everything committed in earlier terms, and no term has two leaders. Memberships
// may change any number of times, one node at a time.
module LeaderCompleteness {
  import opened Types
  import opened Logs
  import opened Quorums
  import opened Histories

  // The newest CONFIG of a valid log, if beyond position f, was allowed by a commit
  // that f already covers.
  ghost predicate SettledAt(h: History, l: Log, f: nat) {
    NewestConfig(l) > f ==> exists c :: c in h.commits && c.index <= f && Allows(h, l, NewestConfig(l), c)
  }

  // An entry of a valid log lies in its creator's log, beyond what the creator won with.
  lemma Creator(h: History, l: Log, j: nat)
    requires h.wins.Keys == h.logs.Keys && LogsGood(h) && Valid(h, l) && 1 <= j <= |l|
    ensures
      var t := l[j - 1].term;
      && t in h.wins && t in h.logs
      && |h.wins[t].log| < j <= |h.logs[t]|
      && l[..j] == h.logs[t][..j]
      && h.wins[t].log <= l
  {
    var t := l[j - 1].term;
    var m := h.logs[t];
    assert l[..j - 1 + 1] <= m;
    assert LeaderLog(h, t, h.wins[t], m);
    assert m[j - 1] == l[j - 1];
    assert forall i :: 0 <= i < |h.wins[t].log| ==> h.wins[t].log[i] == m[i];
  }

  lemma LeaderLogFacts(h: History, t: nat)
    requires h.wins.Keys == h.logs.Keys && LogsGood(h) && t in h.wins
    ensures t in h.logs && LeaderLog(h, t, h.wins[t], h.logs[t])
  {
  }

  lemma CommitFacts(h: History, c: Commit)
    requires CommitsGood(h) && c in h.commits
    ensures GoodCommit(h, c)
  {
  }

  lemma ConfigFacts(h: History, t: nat, j: nat) returns (c: Commit)
    requires h.wins.Keys == h.logs.Keys && ConfigsGood(h)
    requires t in h.wins && |h.wins[t].log| < j && IsConfig(h.logs[t], j)
    ensures c in h.commits && Allows(h, h.logs[t], j, c)
    ensures OneChange(Membership(h.base, h.logs[t][..j - 1]), h.logs[t][j - 1].command.members)
  {
    hide Membership, OneChange;
    assert GoodConfig(h, h.logs[t], j);
    c :| c in h.commits && Allows(h, h.logs[t], j, c);
  }

  // A CONFIG in a valid log is one of its creator's: it changes one node, under a commit.
  lemma ConfigOfValid(h: History, l: Log, j: nat) returns (c: Commit)
    requires Sound(h) && Valid(h, l) && IsConfig(l, j)
    ensures c in h.commits && GoodCommit(h, c) && Allows(h, l, j, c)
    ensures OneChange(Membership(h.base, l[..j - 1]), l[j - 1].command.members)
    ensures l[..j] <= h.logs[c.term] && c.index < j
    ensures c.index <= |l| && Covered(h, c) <= l
  {
    hide WinsGood, LogsGood, ConfigsGood, CampaignsGood, VotesGood, AcksGood, VotesKeepAcks, CommitsGood, Membership, OneChange, Valid;
    var t := l[j - 1].term;
    Creator(h, l, j);
    var m := h.logs[t];
    assert l[j - 1] == l[..j][j - 1] == m[..j][j - 1] == m[j - 1];
    c := ConfigFacts(h, t, j);
    CommitFacts(h, c);
    assert m[..j - 1] == l[..j][..j - 1] == l[..j - 1];
    assert forall i :: IsConfig(l, i) && i < j ==> IsConfig(m, i) by {
      assert forall i :: 0 <= i < j ==> l[i] == l[..j][i] == m[i];
    }
  }

  // Two valid logs that fork at f, with at most settled changes after it, have
  // memberships whose majorities meet.
  lemma ForkedMajoritiesMeet(h: History, a: Log, b: Log, f: nat, q: set<NodeId>, r: set<NodeId>) returns (v: NodeId)
    requires Sound(h) && Valid(h, a) && Valid(h, b)
    requires f == Agreement(a, b)
    requires SettledAt(h, a, f) && SettledAt(h, b, f)
    requires IsMajority(q, Membership(h.base, a)) && IsMajority(r, Membership(h.base, b))
    ensures v in q && v in r
  {
    hide NewestConfig, Sound, Agreement;
    var i, j := NewestConfig(a), NewestConfig(b);
    assert a[..f] == b[..f];
    OneSideChanged(h, a, b, f);
    if i > f {
      ChangedOnce(h, a, f);
      MembershipOfPrefix(h.base, b, f);
      v := MajoritiesMeet(r, Membership(h.base, b), q, Membership(h.base, a));
    } else {
      MembershipOfPrefix(h.base, a, f);
      if j > f {
        ChangedOnce(h, b, f);
      } else {
        MembershipOfPrefix(h.base, b, f);
      }
      v := MajoritiesMeet(q, Membership(h.base, a), r, Membership(h.base, b));
    }
  }

  // With its allowing commit inside f, the newest CONFIG is the only one beyond f.
  lemma ChangedOnce(h: History, a: Log, f: nat)
    requires Sound(h) && Valid(h, a) && f <= |a|
    requires SettledAt(h, a, f) && NewestConfig(a) > f
    ensures OneChange(Membership(h.base, a[..f]), Membership(h.base, a))
  {
    hide NewestConfig, Sound, Valid, OneChange;
    var i := NewestConfig(a);
    var c :| c in h.commits && c.index <= f && Allows(h, a, i, c);
    var d := ConfigOfValid(h, a, i);
    var before := a[..i - 1];
    var k := NewestConfig(before);
    assert k > 0 ==> IsConfig(a, k);
    assert k <= f;
    MembershipOfPrefix(h.base, before, f);
    assert before[..f] == a[..f];
  }

  // Two valid logs agree up to entries of one term.
  lemma SameCreator(h: History, a: Log, b: Log, i: nat, j: nat)
    requires Valid(h, a) && Valid(h, b) && 1 <= i <= |a| && 1 <= j <= |b|
    requires a[i - 1].term == b[j - 1].term
    ensures i <= Agreement(a, b) || j <= Agreement(a, b)
  {
    hide NewestConfig, Agreement;
    var m := h.logs[a[i - 1].term];
    var k := if i <= j then i else j;
    assert a[..i] <= m && b[..j] <= m;
    assert a[..k] == m[..k] == b[..k];
    SharedPrefix(a, b, a[..k]);
  }

  // Each side's change needs a committed entry of its creator's own term before the
  // fork, so the two creators would be the same leader, and the fork would come later.
  lemma OneSideChanged(h: History, a: Log, b: Log, f: nat)
    requires Sound(h) && Valid(h, a) && Valid(h, b)
    requires f == Agreement(a, b)
    requires SettledAt(h, a, f) && SettledAt(h, b, f)
    ensures NewestConfig(a) <= f || NewestConfig(b) <= f
  {
    hide NewestConfig, Sound, Agreement;
    var i, j := NewestConfig(a), NewestConfig(b);
    if i > f && j > f {
      var c :| c in h.commits && c.index <= f && Allows(h, a, i, c);
      var d :| d in h.commits && d.index <= f && Allows(h, b, j, d);
      OwnEntryBefore(h, a, i, c);
      OwnEntryBefore(h, b, j, d);
      assert b[c.index - 1] == a[..f][c.index - 1] == b[..f][c.index - 1];
      assert a[d.index - 1] == a[..f][d.index - 1] == b[..f][d.index - 1];
      assert a[i - 1].term == b[j - 1].term;
      SameCreator(h, a, b, i, j);
      assert false;
    }
  }

  lemma OwnEntryBefore(h: History, a: Log, i: nat, c: Commit)
    requires Sound(h) && Valid(h, a) && IsConfig(a, i) && Allows(h, a, i, c)
    ensures 1 <= c.index < i && a[c.index - 1].term == a[i - 1].term
  {
    hide WinsGood, LogsGood, ConfigsGood, CampaignsGood, VotesGood, AcksGood, VotesKeepAcks, CommitsGood, Membership, OneChange, Valid;
    var t := a[i - 1].term;
    CommitFacts(h, c);
    LeaderLogFacts(h, t);
    Creator(h, a, i);
    assert a[c.index - 1] == a[..i][c.index - 1] == h.logs[t][c.index - 1];
  }

  // Recorded winners come first in the induction, other claimants of a term second.
  ghost function Challenger(h: History, t: nat, w: Win): nat {
    if t in h.wins && h.wins[t] == w then 0 else 1
  }

  // What a voter acknowledged and later voted with, the candidate has too.
  lemma VoterHas(h: History, t: nat, w: Win, c: Commit, v: NodeId)
    requires Sound(h) && GoodWin(h, t, w)
    requires c in h.commits && c.term < t
    requires v in c.quorum && v in w.voters
    ensures GoodCommit(h, c) && Covered(h, c) <= w.campaign
    decreases t, Challenger(h, t, w), 1, 0, 0
  {
    hide WinsGood, LogsGood, ConfigsGood, CampaignsGood, AcksGood, CommitsGood, VotesGood, Membership, OneChange, Valid;
    CommitFacts(h, c);
    var a, s := Ack(c.term, v, c.index), Slot(t, v);
    var p := Covered(h, c);
    assert AckKept(h, s, a);
    var l := h.votes[s].log;
    if !(p <= l) {
      var u := t;
      if LostBetween(h, p, c.term, t) {
        u :| c.term < u < t && u in h.wins && !(p <= h.wins[u].log);
      }
      WinFacts(h, u);
      Complete(h, u, h.wins[u], c);
      assert false;
    }
    VoteFacts(h, s);
    CampaignBeatsVote(h, t, w.campaign, l, c);
  }

  lemma WinFacts(h: History, t: nat)
    requires WinsGood(h) && t in h.wins
    ensures GoodWin(h, t, h.wins[t])
  {
  }

  lemma VoteFacts(h: History, s: Slot)
    requires VotesGood(h) && s in h.votes
    ensures Valid(h, h.votes[s].log) && TermsBelow(h.votes[s].log, s.term)
  {
  }

  // A log at least as up-to-date as one that contains a committed prefix contains it.
  lemma CampaignBeatsVote(h: History, t: nat, m: Log, l: Log, c: Commit)
    requires Sound(h) && c in h.commits && c.term < t
    requires Valid(h, m) && TermsBelow(m, t) && Valid(h, l) && TermsBelow(l, t)
    requires UpToDate(m, l)
    requires GoodCommit(h, c) && Covered(h, c) <= l
    ensures Covered(h, c) <= m
    decreases t, 0, 0, 0, 0
  {
    hide WinsGood, LogsGood, ConfigsGood, CampaignsGood, AcksGood, CommitsGood, VotesGood, VotesKeepAcks, Membership, OneChange;
    var p := Covered(h, c);
    LeaderLogFacts(h, c.term);
    assert p[|p| - 1].term == c.term;
    assert l[|p| - 1] == p[|p| - 1];
    assert LastTerm(l) >= c.term;
    var u := LastTerm(m);
    hide WellFormed;
    Creator(h, m, |m|);
    Creator(h, l, |l|);
    if u > LastTerm(l) {
      WinFacts(h, u);
      Complete(h, u, h.wins[u], c);
    }
  }

  // A winner whose log is a snapshot its campaign log lacked cannot exist.
  lemma NoSnapshotDuringCampaign(h: History, t: nat, w: Win, c: Commit)
    requires Sound(h) && GoodWin(h, t, w)
    requires c in h.commits && c.term < t && CoveredBy(h, w.log, c, c.term)
    ensures w.log <= w.campaign
    decreases t, Challenger(h, t, w), 2, c.term, c.len
  {
    hide WinsGood, LogsGood, ConfigsGood, CampaignsGood, AcksGood, CommitsGood, VotesGood, VotesKeepAcks, Membership, OneChange, Valid, NewestConfig;
    CommitFacts(h, c);
    LeaderLogFacts(h, c.term);
    LeaderLogValid(h, c.term, c.len);
    var a := h.logs[c.term][..c.len];
    var q := w.log;
    var f := |q|;
    PrefixAgreement(q, a);
    if NewestConfig(a) > f {
      var d := ConfigOfValid(h, a, NewestConfig(a));
      if d.index >= f {
        assert q <= h.logs[d.term] by {
          assert q == a[..NewestConfig(a)][..f];
        }
        NoSnapshotDuringCampaign(h, t, w, d);
        return;
      }
    }
    var v := ForkedMajoritiesMeet(h, q, a, f, w.voters, c.quorum);
    VoterHas(h, t, w, c, v);
  }

  lemma ValidPrefix(h: History, l: Log, n: nat)
    requires Valid(h, l) && n <= |l|
    ensures Valid(h, l[..n])
  {
    forall i | 0 <= i < n
      ensures l[..n][..i + 1] <= h.logs[l[i].term]
    {
      assert l[..n][..i + 1] == l[..i + 1];
    }
  }

  lemma LeaderLogValid(h: History, t: nat, n: nat)
    requires Sound(h) && t in h.wins && n <= |h.logs[t]|
    ensures Valid(h, h.logs[t][..n])
  {
    hide WinsGood, LogsGood, ConfigsGood, CampaignsGood, AcksGood, CommitsGood, VotesGood, VotesKeepAcks, Membership, OneChange, NewestConfig;
    LeaderLogFacts(h, t);
    WinFacts(h, t);
    var l, k := h.logs[t], h.wins[t].log;
    forall i | 0 <= i < |l|
      ensures l[i].term in h.logs && l[..i + 1] <= h.logs[l[i].term]
    {
      if i < |k| {
        assert k[i] == l[i] && k[..i + 1] == l[..i + 1];
      }
    }
    ValidPrefix(h, l, n);
  }

  lemma PrefixAgreement(q: Log, a: Log)
    requires q <= a
    ensures Agreement(q, a) == |q|
  {
    hide Agreement;
    SharedPrefix(q, a, q);
  }

  // Leader completeness: every elected leader has all that was committed in earlier terms.
  lemma Complete(h: History, t: nat, w: Win, c: Commit)
    requires Sound(h) && GoodWin(h, t, w)
    requires c in h.commits && c.term < t
    ensures GoodCommit(h, c) && Covered(h, c) <= w.log
    decreases t, Challenger(h, t, w), 3, c.term, c.len, 1
  {
    hide WinsGood, LogsGood, ConfigsGood, CampaignsGood, AcksGood, CommitsGood, VotesGood, VotesKeepAcks, Membership, OneChange, Valid, NewestConfig, SettledAt, Agreement;
    CommitFacts(h, c);
    if w.log != w.campaign {
      var d :| d in h.commits && CoveredBy(h, w.log, d, t - 1);
      NoSnapshotDuringCampaign(h, t, w, d);
      assert false;
    }
    LeaderLogFacts(h, c.term);
    LeaderLogValid(h, c.term, c.len);
    var a, b := h.logs[c.term][..c.len], w.log;
    var f := Agreement(a, b);
    if c.index <= f {
      assert Covered(h, c) == a[..f][..c.index] == b[..f][..c.index];
      return;
    }
    CommitSideSettled(h, t, w, c);
    WinSideSettled(h, t, w, c);
    if Covered(h, c) <= b {
      return;
    }
    var v := ForkedMajoritiesMeet(h, a, b, f, c.quorum, w.voters);
    VoterHas(h, t, w, c, v);
  }

  lemma CommitSideSettled(h: History, t: nat, w: Win, c: Commit)
    requires Sound(h) && GoodWin(h, t, w)
    requires c in h.commits && c.term < t && GoodCommit(h, c)
    ensures SettledAt(h, h.logs[c.term][..c.len], Agreement(h.logs[c.term][..c.len], w.log))
    decreases t, Challenger(h, t, w), 3, c.term, c.len, 0
  {
    hide WinsGood, LogsGood, ConfigsGood, CampaignsGood, AcksGood, CommitsGood, VotesGood, VotesKeepAcks, Membership, OneChange, Valid, NewestConfig, Agreement, GoodWin;
    LeaderLogValid(h, c.term, c.len);
    var a := h.logs[c.term][..c.len];
    if NewestConfig(a) > Agreement(a, w.log) {
      var d := ConfigOfValid(h, a, NewestConfig(a));
      ConfigTermBound(h, c, NewestConfig(a));
      Complete(h, t, w, d);
      SharedPrefix(a, w.log, Covered(h, d));
    }
  }

  lemma ConfigTermBound(h: History, c: Commit, j: nat)
    requires h.wins.Keys == h.logs.Keys && LogsGood(h) && GoodCommit(h, c) && 1 <= j <= c.len
    ensures h.logs[c.term][j - 1].term <= c.term
  {
    LeaderLogFacts(h, c.term);
  }

  // If the commit's log goes on with the winner's change, the winner has the commit.
  lemma WinSideSettled(h: History, t: nat, w: Win, c: Commit)
    requires Sound(h) && GoodWin(h, t, w)
    requires c in h.commits && c.term < t && GoodCommit(h, c)
    ensures SettledAt(h, w.log, Agreement(h.logs[c.term][..c.len], w.log)) || Covered(h, c) <= w.log
    decreases t, Challenger(h, t, w), 3, c.term, c.len, 0
  {
    hide WinsGood, LogsGood, ConfigsGood, CampaignsGood, AcksGood, CommitsGood, VotesGood, VotesKeepAcks, Membership, OneChange, Valid, NewestConfig, Agreement;
    var a, b := h.logs[c.term][..c.len], w.log;
    var j := NewestConfig(b);
    if j > Agreement(a, b) {
      var d := ConfigOfValid(h, b, j);
      assert d.term == b[j - 1].term < t;
      if d.term < c.term {
        LeaderLogFacts(h, c.term);
        WinFacts(h, c.term);
        Complete(h, c.term, h.wins[c.term], d);
        SharedPrefix(a, b, Covered(h, d));
      } else if d.term > c.term {
        Creator(h, b, j);
        WinFacts(h, d.term);
        Complete(h, d.term, h.wins[d.term], c);
      } // else both continue one leader's log, so a ends first
    }
  }

  // Election safety: two winners of one term are the same node.
  lemma OneWinner(h: History, t: nat, w: Win, x: Win)
    requires Sound(h) && GoodWin(h, t, w) && GoodWin(h, t, x)
    ensures w.leader == x.leader
  {
    hide WinsGood, LogsGood, ConfigsGood, CampaignsGood, AcksGood, CommitsGood, VotesGood, VotesKeepAcks, Membership, OneChange, Valid, NewestConfig;
    var a, b := w.log, x.log;
    var f := Agreement(a, b);
    if NewestConfig(a) > f {
      SettledByCompleteness(h, t, a, b, x);
    }
    if NewestConfig(b) > f {
      AgreementSymmetric(a, b);
      SettledByCompleteness(h, t, b, a, w);
    }
    var v := ForkedMajoritiesMeet(h, a, b, f, w.voters, x.voters);
  }

  lemma AgreementSymmetric(a: Log, b: Log)
    ensures Agreement(a, b) == Agreement(b, a)
  {
    hide Agreement;
    SharedPrefix(a, b, a[..Agreement(b, a)]);
    SharedPrefix(b, a, a[..Agreement(a, b)]);
  }

  lemma SettledByCompleteness(h: History, t: nat, a: Log, b: Log, x: Win)
    requires Sound(h) && Valid(h, a) && TermsBelow(a, t) && GoodWin(h, t, x) && x.log == b
    requires NewestConfig(a) > Agreement(a, b)
    ensures SettledAt(h, a, Agreement(a, b))
  {
    hide WinsGood, LogsGood, ConfigsGood, CampaignsGood, AcksGood, CommitsGood, VotesGood, VotesKeepAcks, Membership, OneChange, Valid, NewestConfig, Agreement;
    var d := ConfigOfValid(h, a, NewestConfig(a));
    Complete(h, t, x, d);
    SharedPrefix(a, b, Covered(h, d));
  }
}
