// Linearizable reads: the index that a leader confirms covers everything committed
// anywhere before the read began, across crashes of others and membership changes.
module ReadBarrier {
  import opened Types
  import opened Logs
  import opened Quorums
  import opened Histories
  import opened HistoryGrowth
  import opened LeaderCompleteness
  import opened Worlds
  import opened Nodes
  import opened Compaction
  import opened Tracking
  import opened Leading
  import opened Following
  import opened ClusterInvariant
  import opened StepShapes
  import opened RaftSafety
  import C = Clusters

  // ------------------------------------------------------------ Request numbers

  // Everything sent in the office a leader now holds has a number up to its counter.
  ghost predicate LeaderNumbers(c: C.Cluster, n: Node) {
    && (forall u :: u in n.lastAck ==> n.lastAck[u] <= n.sendSeq)
    && (forall p :: p in c.net && Numbered(p) && LeaderOf(p) == n.id && TermOf(p) == n.term ==> p.number <= n.sendSeq)
    && (forall t: C.Task :: t in c.tasks && t.request.leader == n.id && t.request.term == n.term ==> t.number <= n.sendSeq)
  }

  ghost predicate NumbersKnown(c: C.Cluster) {
    forall v :: v in c.nodes && c.nodes[v].role.Leader? ==> LeaderNumbers(c, c.nodes[v])
  }

  lemma PacketWon(h: History, p: C.Packet)
    requires PacketGood(h, p) && Numbered(p)
    ensures WonBy(h, TermOf(p), LeaderOf(p))
  {
    hide CommittedBy, Membership;
  }

  lemma NotWonYet(w: World, n: Node, t: nat)
    requires Good(w) && Tracks(w, n)
    requires t > n.term || (t == n.term && n.role.Candidate?)
    ensures !WonBy(w.history, t, n.id)
  {
    hide Good, Represents, CommitTracked;
    if t > n.term {
      FreshSlot(w, n.id, t);
    }
  }

  // A fresh leader finds no packet of its own term in the network.
  lemma NothingSentYet(c: C.Cluster, w: World, v: NodeId, t: nat)
    requires Inv(c, w) && v in c.nodes
    requires t > c.nodes[v].term || (t == c.nodes[v].term && c.nodes[v].role.Candidate?)
    ensures forall p :: p in c.net && Numbered(p) ==> !(LeaderOf(p) == v && TermOf(p) == t)
    ensures forall k: C.Task :: k in c.tasks ==> !(k.request.leader == v && k.request.term == t)
  {
    hide Good, Tracks, SnapshotAskGood, PacketGood, Represents;
    NodePromises(c, w, v);
    NotWonYet(w, c.nodes[v], t);
    forall p | p in c.net && Numbered(p)
      ensures !(LeaderOf(p) == v && TermOf(p) == t)
    {
      PacketWon(w.history, p);
    }
    forall k: C.Task | k in c.tasks
      ensures !(k.request.leader == v && k.request.term == t)
    {
      assert TaskGood(w.history, c.nodes, k);
      SnapshotAskWon(w.history, k.request);
    }
  }

  lemma SnapshotAskWon(h: History, req: SnapshotRequest)
    requires SnapshotAskGood(h, req)
    ensures WonBy(h, req.term, req.leader)
  {
    hide CommittedBy, Membership;
  }

  // The role rule of a step that does not crash.
  lemma ForwardOffice(n: Node, m: Node)
    requires Forward(n, m) && m.role.Leader?
    ensures (n.role.Leader? && m.term == n.term && m.sendSeq >= n.sendSeq)
         || (m.lastAck == map[] && (m.term > n.term || n.role.Candidate?))
  {
  }

  lemma NumbersStay(c: C.Cluster, w: World, s: C.Step)
    requires Inv(c, w) && C.Enabled(c, s) && NumbersKnown(c)
    ensures NumbersKnown(C.Do(c, s))
  {
    hide Good, Tracks, PacketGood, TaskGood, C.Do, Forward, C.Enabled;
    if s.Crash? {
      CrashNumbers(c, s);
    } else {
      var d := C.Do(c, s);
      StepShape(c, s);
      forall v | v in d.nodes && d.nodes[v].role.Leader?
        ensures LeaderNumbers(d, d.nodes[v])
      {
        NumbersOf(c, w, s, d, v);
      }
    }
  }

  lemma CrashNumbers(c: C.Cluster, s: C.Step)
    requires C.Enabled(c, s) && s.Crash? && NumbersKnown(c)
    ensures NumbersKnown(C.Do(c, s))
  {
    hide LatestConfig;
  }

  lemma NumbersOf(c: C.Cluster, w: World, s: C.Step, d: C.Cluster, v: NodeId)
    requires Inv(c, w) && NumbersKnown(c) && Shape(c, d, s)
    requires v in d.nodes && d.nodes[v].role.Leader?
    ensures LeaderNumbers(d, d.nodes[v])
  {
    hide Good, Tracks, PacketGood, TaskGood, Forward, Inv;
    var m := d.nodes[v];
    IdKept(c, w, s, d, v);
    if v != C.Actor(s) {
      assert LeaderNumbers(c, c.nodes[v]);
      NodePromises(c, w, C.Actor(s));
      PacketNumbers(c, d, s, c.nodes[v], m);
    } else {
      var n := c.nodes[v];
      NodePromises(c, w, v);
      if n.role.Leader? && m.term == n.term {
        ActorNumbers(c, d, s);
        PacketNumbers(c, d, s, n, m);
      } else {
        FreshOffice(c, w, s, d);
      }
    }
  }

  lemma IdKept(c: C.Cluster, w: World, s: C.Step, d: C.Cluster, v: NodeId)
    requires Inv(c, w) && Shape(c, d, s) && v in d.nodes
    ensures v in c.nodes && d.nodes[v].id == v && c.nodes[v].id == v
  {
    hide Good, Tracks, PacketGood, TaskGood, Inv;
    NodePromises(c, w, v);
  }

  // New packets of a known office carry on old numbers, or take the next one.
  lemma PacketNumbers(c: C.Cluster, d: C.Cluster, s: C.Step, n: Node, m: Node)
    requires Shape(c, d, s) && LeaderNumbers(c, n)
    requires m.id == n.id && m.term == n.term && m.sendSeq >= n.sendSeq
    requires c.nodes[C.Actor(s)].id == C.Actor(s)
    requires m.id == C.Actor(s) ==> m == d.nodes[C.Actor(s)]
    requires forall u :: u in m.lastAck ==> m.lastAck[u] <= m.sendSeq
    ensures LeaderNumbers(d, m)
  {
    hide Forward, Noted;
    forall p | p in d.net && Numbered(p) && LeaderOf(p) == m.id && TermOf(p) == m.term
      ensures p.number <= m.sendSeq
    {
      if p !in c.net {
        assert CarriesOn(c, p) || FreshNumber(c.nodes[C.Actor(s)], d.nodes[C.Actor(s)], p);
      }
    }
  }

  lemma ActorNumbers(c: C.Cluster, d: C.Cluster, s: C.Step)
    requires Shape(c, d, s)
    requires var n, m := c.nodes[C.Actor(s)], d.nodes[C.Actor(s)];
      n.id == C.Actor(s) && n.role.Leader? && m.term == n.term && LeaderNumbers(c, n)
    ensures var n, m := c.nodes[C.Actor(s)], d.nodes[C.Actor(s)];
      m.sendSeq >= n.sendSeq && m.id == n.id && forall u :: u in m.lastAck ==> m.lastAck[u] <= m.sendSeq
  {
    var n, m := c.nodes[C.Actor(s)], d.nodes[C.Actor(s)];
    if s.ReceiveAppendAnswer? || s.ReceiveSnapshotAnswer? {
      assert AnswerNoted(c, d, s);
      if !Forward(n, m) {
        assert s.p.number <= n.sendSeq;
        assert Forward(NoteContact(n, s.p.from, s.p.number), m);
      }
    }
  }

  lemma FreshOffice(c: C.Cluster, w: World, s: C.Step, d: C.Cluster)
    requires Inv(c, w) && Shape(c, d, s)
    requires var n, m := c.nodes[C.Actor(s)], d.nodes[C.Actor(s)];
      n.id == C.Actor(s) && m.role.Leader? && !(n.role.Leader? && m.term == n.term)
    ensures LeaderNumbers(d, d.nodes[C.Actor(s)])
  {
    hide Inv;
    var n, m := c.nodes[C.Actor(s)], d.nodes[C.Actor(s)];
    assert Forward(n, m) by {
      if s.ReceiveAppendAnswer? || s.ReceiveSnapshotAnswer? {
        assert AnswerNoted(c, d, s);
      }
    }
    ForwardOffice(n, m);
    NothingSentYet(c, w, C.Actor(s), m.term);
    assert forall p :: p in d.net && p !in c.net && Numbered(p) ==> CarriesOn(c, p);
  }

  // ------------------------------------------------------------ While a read waits

  // The members that answered a request numbered above start.
  function Ackers(n: Node, start: nat): set<NodeId> {
    set u | u in n.members && (u == n.id || Lookup(n.lastAck, u) > start)
  }

  // What holds at c as long as v, a leader in c0, has not crashed since.
  ghost predicate Waiting(c0: C.Cluster, c: C.Cluster, v: NodeId) {
    && v in c0.nodes && c.nodes.Keys == c0.nodes.Keys
    && (forall u :: u in c0.nodes ==> c.nodes[u].id == u && c.nodes[u].term >= c0.nodes[u].term)
    && (c.nodes[v].term == c0.nodes[v].term ==> StillInTerm(c0, c0.nodes[v], c.nodes[v]))
    && (forall p :: p in c.net && IsAnswer(p) && p !in c0.net ==> p.from in c0.nodes && c0.nodes[p.from].term <= ReplyTerm(p))
  }

  ghost predicate StillInTerm(c0: C.Cluster, n: Node, m: Node) {
    && !m.role.Candidate?
    && m.termStart == n.termStart
    && m.commitIndex >= n.commitIndex
    && forall u :: u in m.lastAck && m.lastAck[u] > n.sendSeq ==> u in c0.nodes && c0.nodes[u].term <= n.term
  }

  lemma WaitingStarts(c: C.Cluster, w: World, v: NodeId)
    requires Inv(c, w) && NumbersKnown(c) && v in c.nodes && c.nodes[v].role.Leader?
    ensures Waiting(c, c, v)
  {
    hide Good, Tracks, PacketGood, TaskGood;
    assert LeaderNumbers(c, c.nodes[v]);
  }

  lemma WaitingStays(c0: C.Cluster, c: C.Cluster, w: World, s: C.Step, v: NodeId)
    requires Waiting(c0, c, v) && NumbersKnown(c0) && c0.nodes[v].role.Leader? && c0.nodes[v].id == v
    requires Inv(c, w) && C.Enabled(c, s) && s != C.Crash(v)
    ensures Waiting(c0, C.Do(c, s), v)
  {
    hide Good, Tracks, PacketGood, TaskGood, C.Do, Forward, C.Enabled, Inv, StillInTerm;
    if s.Crash? {
      CrashWaiting(c0, c, s, v);
    } else {
      var d := C.Do(c, s);
      StepShape(c, s);
      TermsRise(c, d, s);
      if C.Actor(s) == v && d.nodes[v].term == c0.nodes[v].term {
        AnswersKnown(c0, c, w, s, d, v);
      }
    }
  }

  lemma CrashWaiting(c0: C.Cluster, c: C.Cluster, s: C.Step, v: NodeId)
    requires Waiting(c0, c, v) && C.Enabled(c, s) && s.Crash? && s.v != v
    ensures Waiting(c0, C.Do(c, s), v)
  {
    hide LatestConfig, StillInTerm;
  }

  lemma TermsRise(c: C.Cluster, d: C.Cluster, s: C.Step)
    requires Shape(c, d, s)
    ensures d.nodes[C.Actor(s)].term >= c.nodes[C.Actor(s)].term && d.nodes[C.Actor(s)].id == c.nodes[C.Actor(s)].id
  {
    if s.ReceiveAppendAnswer? || s.ReceiveSnapshotAnswer? {
      assert AnswerNoted(c, d, s);
    }
  }

  // An answer noted now is to a request from before c0, or its sender is not ahead.
  lemma AnswersKnown(c0: C.Cluster, c: C.Cluster, w: World, s: C.Step, d: C.Cluster, v: NodeId)
    requires Waiting(c0, c, v) && NumbersKnown(c0) && c0.nodes[v].role.Leader? && c0.nodes[v].id == v
    requires Inv(c, w) && Shape(c, d, s) && C.Actor(s) == v && d.nodes[v].term == c0.nodes[v].term
    ensures StillInTerm(c0, c0.nodes[v], d.nodes[v])
  {
    hide Inv;
    var n, m := c.nodes[v], d.nodes[v];
    TermsRise(c, d, s);
    assert LeaderNumbers(c0, c0.nodes[v]);
    if s.ReceiveAppendAnswer? || s.ReceiveSnapshotAnswer? {
      assert AnswerNoted(c, d, s);
      if !Forward(n, m) {
        assert Forward(NoteContact(n, s.p.from, s.p.number), m);
        assert s.p.number > c0.nodes[v].sendSeq ==> s.p !in c0.net;
      }
    }
  }

  lemma {:induction false} WaitingAlong(cs: seq<C.Cluster>, steps: seq<C.Step>, base: set<NodeId>, ws: seq<World>, j: nat, k: nat, v: NodeId)
    requires j <= k < |cs| && v in cs[j].nodes && cs[j].nodes[v].role.Leader?
    requires |steps| + 1 == |cs|
    requires forall x :: j <= x < k ==> steps[x] != C.Crash(v)
    requires C.IsKnowingRun(cs, steps, base) && Explains(ws, cs, steps) && NumbersKnown(cs[j])
    ensures Waiting(cs[j], cs[k], v)
    decreases k
  {
    hide Inv, C.Do, C.Enabled, Moves, NumbersKnown, Waiting, C.Init;
    assert Inv(cs[j], ws[j]);
    NodeIsItself(cs[j], ws[j], v);
    if j == k {
      WaitingStarts(cs[j], ws[j], v);
    } else {
      WaitingAlong(cs, steps, base, ws, j, k - 1, v);
      assert C.Enabled(cs[k - 1], steps[k - 1]) && cs[k - 1 + 1] == C.Do(cs[k - 1], steps[k - 1]);
      assert Inv(cs[k - 1], ws[k - 1]);
      WaitingStays(cs[j], cs[k - 1], ws[k - 1], steps[k - 1], v);
    }
  }

  lemma NodeIsItself(c: C.Cluster, w: World, v: NodeId)
    requires Inv(c, w) && v in c.nodes
    ensures c.nodes[v].id == v
  {
    hide Inv;
    NodePromises(c, w, v);
  }

  lemma {:induction false} NumbersAlong(cs: seq<C.Cluster>, steps: seq<C.Step>, base: set<NodeId>, ws: seq<World>, j: nat)
    requires j < |cs| && |steps| + 1 == |cs|
    requires C.IsKnowingRun(cs, steps, base) && Explains(ws, cs, steps)
    ensures NumbersKnown(cs[j])
    decreases j
  {
    hide Inv, C.Do, C.Enabled, Moves, NumbersKnown, C.Init;
    if j == 0 {
      StartNumbers(cs[0], base);
    } else {
      NumbersAlong(cs, steps, base, ws, j - 1);
      assert C.Enabled(cs[j - 1], steps[j - 1]) && cs[j - 1 + 1] == C.Do(cs[j - 1], steps[j - 1]);
      assert Inv(cs[j - 1], ws[j - 1]);
      NumbersStay(cs[j - 1], ws[j - 1], steps[j - 1]);
    }
  }

  lemma StartNumbers(c: C.Cluster, base: set<NodeId>)
    requires C.Init(c, base)
    ensures NumbersKnown(c)
  {
  }

  // ------------------------------------------------------------ Quorums of readers and voters

  // No leader of a later term existed yet when a majority of the term answered: the
  // first such leader would share a voter with the ones that answered.
  lemma ReadersMeetVoters(h: History, k: History, s: nat, t: nat, q: set<NodeId>) returns (u: NodeId)
    requires Sound(h) && Sound(k) && Grows(h, k) && s < t && s in h.wins && t in h.wins
    requires forall r :: r in h.wins && s < r ==> t <= r
    requires s in k.logs && IsMajority(q, Membership(k.base, k.logs[s]))
    ensures u in q && Slot(t, u) in h.votes
  {
    hide WinsGood, LogsGood, ConfigsGood, CampaignsGood, VotesGood, AcksGood, VotesKeepAcks, CommitsGood, Membership, Valid, NewestConfig, Agreement, SettledAt, OneChange, WellFormed, TermsBelow;
    WinFacts(h, t);
    WinFacts(k, t);
    WinFacts(k, s);
    LeaderLogFacts(k, s);
    var a, b := k.logs[s], k.wins[t].log;
    LeaderLogValid(k, s, |a|);
    assert a[..|a|] == a;
    OldSideSettled(k, s, t);
    NewSideSettled(h, k, s, t);
    u := ForkedMajoritiesMeet(k, a, b, Agreement(a, b), q, k.wins[t].voters);
  }

  lemma OldSideSettled(k: History, s: nat, t: nat)
    requires Sound(k) && s < t && s in k.wins && t in k.wins && s in k.logs && Valid(k, k.logs[s])
    ensures SettledAt(k, k.logs[s], Agreement(k.logs[s], k.wins[t].log))
  {
    hide WinsGood, LogsGood, ConfigsGood, CampaignsGood, VotesGood, AcksGood, VotesKeepAcks, CommitsGood, Membership, Valid, NewestConfig, Agreement, OneChange, GoodWin;
    var a, b := k.logs[s], k.wins[t].log;
    var j := NewestConfig(a);
    if j > Agreement(a, b) {
      var d := ConfigOfValid(k, a, j);
      LeaderLogFacts(k, s);
      EntryTermBound(k, s, j);
      WinFacts(k, t);
      Complete(k, t, k.wins[t], d);
      SharedPrefix(a, b, Covered(k, d));
    }
  }

  lemma EntryTermBound(h: History, t: nat, j: nat)
    requires h.wins.Keys == h.logs.Keys && LogsGood(h) && t in h.wins && t in h.logs && 1 <= j <= |h.logs[t]|
    ensures h.logs[t][j - 1].term <= t
  {
    LeaderLogFacts(h, t);
  }

  lemma NewSideSettled(h: History, k: History, s: nat, t: nat)
    requires Sound(h) && Sound(k) && Grows(h, k) && s < t && s in h.wins && t in h.wins
    requires forall r :: r in h.wins && s < r ==> t <= r
    requires s in k.logs && t in k.wins && s in k.wins
    ensures SettledAt(k, k.wins[t].log, Agreement(k.logs[s], k.wins[t].log))
  {
    hide WinsGood, LogsGood, ConfigsGood, CampaignsGood, VotesGood, AcksGood, VotesKeepAcks, CommitsGood, Membership, NewestConfig, Agreement, OneChange, WellFormed;
    var a, b := k.logs[s], k.wins[t].log;
    var j := NewestConfig(b);
    if j > Agreement(a, b) {
      WinFacts(h, t);
      WinFacts(k, t);
      var d := ConfigOfValid(k, b, j);
      Creator(h, b, j);
      assert d.term == b[j - 1].term < t;
      if d.term == s {
        assert b[..j] <= a;
        assert b[..j] <= b;
        SharedPrefix(a, b, b[..j]);
      } else {
        WinFacts(k, s);
        LeaderLogFacts(k, s);
        Complete(k, s, k.wins[s], d);
        SharedPrefix(a, b, Covered(k, d));
      }
    }
  }

  lemma {:induction false} FirstWinAfter(h: History, s: nat, t: nat) returns (r: nat)
    requires s < t && t in h.wins
    ensures s < r <= t && r in h.wins && forall x :: x in h.wins && s < x ==> r <= x
    decreases t
  {
    if x :| x in h.wins && s < x < t {
      r := FirstWinAfter(h, s, x);
    } else {
      r := t;
    }
  }

  // ------------------------------------------------------------ The barrier

  // When a majority has answered, no leader of a later term had won by c0.
  lemma NobodyNewer(c0: C.Cluster, w0: World, c: C.Cluster, w: World, v: NodeId, t: nat)
    requires Inv(c0, w0) && Inv(c, w) && Grows(w0.history, w.history)
    requires Waiting(c0, c, v) && c0.nodes[v].role.Leader? && c.nodes[v].term == c0.nodes[v].term
    requires |Ackers(c.nodes[v], c0.nodes[v].sendSeq)| >= Majority(c.nodes[v])
    requires t in w0.history.wins
    ensures t <= c0.nodes[v].term
  {
    hide Inv, Good, Tracks, Grows, Sound, IsMajority, Ackers, StillInTerm;
    var n0, n := c0.nodes[v], c.nodes[v];
    hide Waiting;
    var h, k, s := w0.history, w.history, n0.term;
    NodePromises(c0, w0, v);
    NodePromises(c, w, v);
    if t > s {
      var r := FirstWinAfter(h, s, t);
      LeaderTermWon(w0, n0);
      SoundOf(w0);
      SoundOf(w);
      WinStays(h, k, s);
      AckersAreMajority(w, n, n0.sendSeq);
      var u := ReadersMeetVoters(h, k, s, r, Ackers(n, n0.sendSeq));
      AckerNotAhead(c0, c, v, u);
      VoterTerm(w0, Slot(r, u));
      NodePromises(c0, w0, u);
      TrackedTerm(w0, c0.nodes[u]);
      assert false;
    }
  }

  lemma AckersAreMajority(w: World, n: Node, start: nat)
    requires Good(w) && Tracks(w, n) && WonBy(w.history, n.term, n.id)
    requires |Ackers(n, start)| >= Majority(n)
    ensures n.term in w.history.logs && IsMajority(Ackers(n, start), Membership(w.history.base, w.history.logs[n.term]))
  {
    hide Good, Tracks, Represents, IsMajority, Membership;
    LeaderHasItsLog(w, n);
    TracksRepresents(w, n);
    MembersKnown(w.history.base, n, w.replicas[n.id].log, Ackers(n, start));
  }

  lemma AckerNotAhead(c0: C.Cluster, c: C.Cluster, v: NodeId, u: NodeId)
    requires Waiting(c0, c, v) && c.nodes[v].term == c0.nodes[v].term
    requires u in Ackers(c.nodes[v], c0.nodes[v].sendSeq)
    ensures u in c0.nodes && c0.nodes[u].term <= c0.nodes[v].term
  {
  }

  lemma TracksRepresents(w: World, n: Node)
    requires Tracks(w, n)
    ensures n.id in w.replicas && Represents(w.history.base, n, w.replicas[n.id].log)
  {
  }

  lemma TrackedTerm(w: World, n: Node)
    requires Tracks(w, n)
    ensures n.id in w.replicas && w.replicas[n.id].term == n.term
  {
  }

  lemma VoterTerm(w: World, s: Slot)
    requires Good(w) && s in w.history.votes
    ensures s.node in w.replicas && s.term <= w.replicas[s.node].term
  {
    hide Sound, ReplicasGood, AcksHeld, LeadersInStep;
  }

  // Whatever anybody has committed by then, the leader of the newest term covers it,
  // once its commit index has reached the start of its term.
  lemma NewestLeaderCovers(w: World, n: Node, p: Log, t: nat, i: nat)
    requires Good(w) && Tracks(w, n) && n.role.Leader?
    requires forall s :: s in w.history.wins ==> s <= n.term
    requires CommittedBy(w.history, p, t)
    requires i >= n.termStart && i >= n.commitIndex
    ensures |p| <= i
  {
    hide Good, Represents, CommitTracked;
    SoundOf(w);
    if p != [] {
      var h := w.history;
      var c :| c in h.commits && CoveredBy(h, p, c, t);
      CommitWon(h, c);
      if c.term < n.term {
        assert CoveredBy(h, p, c, c.term);
        CommittedBeforeWin(h, p, c.term, n.term);
      }
    }
  }

  lemma CommitWon(h: History, c: Commit)
    requires Sound(h) && c in h.commits
    ensures c.term in h.wins
  {
    hide WinsGood, LogsGood, ConfigsGood, CampaignsGood, VotesGood, AcksGood, VotesKeepAcks, Membership;
    assert GoodCommit(h, c);
  }

  // A read that begins at moment j, takes its index at m and sees a majority of answers
  // at k, all in one term and one life of the leader: everything any node has committed
  // up to moment j is at or below the index.
  lemma ReadIndexIsCurrent(cs: seq<C.Cluster>, steps: seq<C.Step>, base: set<NodeId>,
                           j: nat, m: nat, k: nat, v: NodeId, l: nat, u: NodeId)
    requires l <= j <= m <= k < |cs| && |steps| + 1 == |cs|
    requires v in cs[j].nodes && cs[j].nodes[v].role.Leader?
    requires v in cs[m].nodes && cs[m].nodes[v].commitIndex >= cs[m].nodes[v].termStart
    requires v in cs[k].nodes && cs[k].nodes[v].term == cs[j].nodes[v].term
    requires |Ackers(cs[k].nodes[v], cs[j].nodes[v].sendSeq)| >= Majority(cs[k].nodes[v])
    requires forall x :: j <= x < k ==> steps[x] != C.Crash(v)
    requires u in cs[l].nodes
    requires C.IsKnowingRun(cs, steps, base)
    ensures cs[l].nodes[u].commitIndex <= cs[m].nodes[v].commitIndex
  {
    hide C.IsKnowingRun, Inv, Explains, Good, Tracks, Grows, CommittedBy, Sound, Valid, NumbersKnown, Waiting, Moves, StillInTerm, Ackers;
    var ws := RunExplained(cs, steps, base);
    LengthOf(ws, cs, steps);
    NumbersAlong(cs, steps, base, ws, j);
    WaitingAlong(cs, steps, base, ws, j, m, v);
    WaitingAlong(cs, steps, base, ws, j, k, v);
    InvAt(ws, cs, steps, j);
    InvAt(ws, cs, steps, k);
    ExplainedAt(ws, cs, steps, j, v);
    HistoryGrowsAlong(ws, cs, steps, l, j);
    HistoryGrowsAlong(ws, cs, steps, j, k);
    SameTermBetween(cs, steps, base, ws, j, m, k, v);
    InTermFacts(cs[j], cs[m], v);
    forall t | t in ws[j].history.wins
      ensures t <= cs[j].nodes[v].term
    {
      NobodyNewer(cs[j], ws[j], cs[k], ws[k], v, t);
    }
    var p := CommittedAt(ws, cs, steps, l, u, cs[l].nodes[u].commitIndex);
    CommittedGrows(ws[l].history, ws[j].history, p, cs[l].nodes[u].term, cs[l].nodes[u].term);
    NewestLeaderCovers(ws[j], cs[j].nodes[v], p, cs[l].nodes[u].term, cs[m].nodes[v].commitIndex);
  }

  lemma InvAt(ws: seq<World>, cs: seq<C.Cluster>, steps: seq<C.Step>, i: nat)
    requires Explains(ws, cs, steps) && i < |cs|
    ensures i < |ws| && Inv(cs[i], ws[i])
  {
    hide Inv, Moves;
  }

  lemma InTermFacts(c0: C.Cluster, c: C.Cluster, v: NodeId)
    requires Waiting(c0, c, v) && c.nodes[v].term == c0.nodes[v].term
    ensures c.nodes[v].termStart == c0.nodes[v].termStart && c.nodes[v].commitIndex >= c0.nodes[v].commitIndex
  {
  }

  // Terms never go back, so equal terms at both ends mean the term stood in between.
  lemma SameTermBetween(cs: seq<C.Cluster>, steps: seq<C.Step>, base: set<NodeId>, ws: seq<World>, j: nat, m: nat, k: nat, v: NodeId)
    requires j <= m <= k < |cs| && |steps| + 1 == |cs|
    requires v in cs[j].nodes && v in cs[m].nodes && v in cs[k].nodes && cs[k].nodes[v].term == cs[j].nodes[v].term
    requires Waiting(cs[j], cs[m], v)
    requires Explains(ws, cs, steps)
    ensures cs[m].nodes[v].term == cs[j].nodes[v].term
  {
    hide Inv, Good, Tracks;
    TermsNeverFall(ws, cs, steps, m, k, v);
  }

  lemma {:induction false} TermsNeverFall(ws: seq<World>, cs: seq<C.Cluster>, steps: seq<C.Step>, i: nat, j: nat, v: NodeId)
    requires Explains(ws, cs, steps) && i <= j < |cs| && v in cs[i].nodes
    ensures v in cs[j].nodes && cs[i].nodes[v].term <= cs[j].nodes[v].term
    decreases j
  {
    hide Inv, Good, Tracks;
    ExplainedAt(ws, cs, steps, i, v);
    if i < j {
      TermsNeverFall(ws, cs, steps, i, j - 1, v);
      TermKept(ws[j - 1], ws[j], cs[j - 1], cs[j], C.Actor(steps[j - 1]), v);
    }
  }

  lemma TermKept(w: World, x: World, c: C.Cluster, d: C.Cluster, a: NodeId, v: NodeId)
    requires Inv(c, w) && Inv(d, x) && Moves(w, x, a) && v in c.nodes
    ensures v in d.nodes && d.nodes[v].term >= c.nodes[v].term
  {
    hide Good, PacketGood, TaskGood, Represents, VoteTracked, CommitTracked, CampaignTracked, LeadTracked, Grows;
    assert Tracks(w, c.nodes[v]);
    assert v in d.nodes;
    assert Tracks(x, d.nodes[v]);
  }
}
