// What holds in every run of the cluster, whatever is lost, duplicated, delayed,
// reordered, compacted or crashed, and however the membership changes.
module RaftSafety {
  import opened Types
  import opened Logs
  import opened Histories
  import opened HistoryGrowth
  import opened LeaderCompleteness
  import opened Worlds
  import opened WorldSteps
  import opened Nodes
  import opened Compaction
  import opened Tracking
  import opened Leading
  import opened Following
  import opened ClusterInvariant
  import C = Clusters

  // The worlds that explain a run.
  ghost predicate Explains(ws: seq<World>, cs: seq<C.Cluster>, steps: seq<C.Step>) {
    && |ws| == |cs| == |steps| + 1
    && (forall i :: 0 <= i < |cs| ==> Inv(cs[i], ws[i]))
    && (forall i :: 0 <= i < |steps| ==> Moves(ws[i], ws[i + 1], C.Actor(steps[i])))
  }

  lemma {:induction false} RunExplained(cs: seq<C.Cluster>, steps: seq<C.Step>, base: set<NodeId>) returns (ws: seq<World>)
    requires C.IsKnowingRun(cs, steps, base)
    ensures Explains(ws, cs, steps)
    decreases |steps|
  {
    hide Inv, Moves, C.Do, C.Enabled, C.Init, C.AddsKnowing, AddsOne;
    if steps == [] {
      InitInv(cs[0], base);
      ws := [EmptyWorld(cs[0], base)];
    } else {
      var k := |steps| - 1;
      var vs := RunExplained(cs[..|cs| - 1], steps[..k], base);
      assert C.Enabled(cs[k], steps[k]) && cs[k + 1] == C.Do(cs[k], steps[k]);
      assert C.AddsKnowing(cs[k], steps[k]);
      KnowingAddsOne(cs[k], vs[k], steps[k]);
      var x := StepKeepsInv(cs[k], vs[k], steps[k]);
      ws := vs + [x];
    }
  }

  lemma {:induction false} HistoryGrowsAlong(ws: seq<World>, cs: seq<C.Cluster>, steps: seq<C.Step>, i: nat, j: nat)
    requires Explains(ws, cs, steps) && i <= j < |ws|
    ensures Grows(ws[i].history, ws[j].history)
    decreases j
  {
    hide Inv;
    if i < j {
      HistoryGrowsAlong(ws, cs, steps, i, j - 1);
      MovesGrows(ws[j - 1], ws[j], C.Actor(steps[j - 1]));
      GrowsTransitive(ws[i].history, ws[j - 1].history, ws[j].history);
    }
  }

  lemma ExplainedAt(ws: seq<World>, cs: seq<C.Cluster>, steps: seq<C.Step>, i: nat, v: NodeId)
    requires Explains(ws, cs, steps) && i < |cs| && v in cs[i].nodes
    ensures Good(ws[i]) && Tracks(ws[i], cs[i].nodes[v]) && cs[i].nodes[v].id == v
  {
    hide Inv, Good, Tracks;
    NodePromises(cs[i], ws[i], v);
  }

  // What node v has committed at moment i, as the prefix of its uncompacted log.
  lemma CommittedAt(ws: seq<World>, cs: seq<C.Cluster>, steps: seq<C.Step>, i: nat, v: NodeId, k: nat) returns (p: Log)
    requires Explains(ws, cs, steps) && i < |cs| && v in cs[i].nodes && k <= cs[i].nodes[v].commitIndex
    ensures |p| == k && CommittedBy(ws[i].history, p, cs[i].nodes[v].term)
    ensures v in ws[i].replicas && p <= ws[i].replicas[v].log
    ensures k > cs[i].nodes[v].snapIndex ==> EntryAt(cs[i].nodes[v], k) == Some(p[k - 1])
    ensures Sound(ws[i].history) && Valid(ws[i].history, p)
  {
    LengthOf(ws, cs, steps);
    hide Good, Tracks, CommittedBy, Valid, EntryAt, Inv, Moves, Explains;
    ExplainedAt(ws, cs, steps, i, v);
    p := CommittedPrefix(ws[i], cs[i].nodes[v], k);
  }

  lemma CommittedPrefix(w: World, n: Node, k: nat) returns (p: Log)
    requires Good(w) && Tracks(w, n) && k <= n.commitIndex
    ensures |p| == k && CommittedBy(w.history, p, n.term)
    ensures n.id in w.replicas && p <= w.replicas[n.id].log
    ensures k > n.snapIndex ==> EntryAt(n, k) == Some(p[k - 1])
    ensures Sound(w.history) && Valid(w.history, p)
  {
    hide Good, Represents, Stores, CommittedBy, CampaignTracked, LeadTracked, VoteTracked, Valid, EntryAt, Sound, WellFormed;
    var l := w.replicas[n.id].log;
    p := l[..k];
    PrefixCommitted(w.history, l, k, n.commitIndex, n.term);
    RepresentsStores(w.history.base, n, l);
    Queries(w.history.base, n, l);
    SoundOf(w);
    CommittedValid(w.history, p, n.term);
  }

  lemma SoundOf(w: World)
    requires Good(w)
    ensures Sound(w.history)
  {
    hide Sound;
  }

  // Election safety: no term ever has two leaders, over the whole run.
  lemma ElectionSafety(cs: seq<C.Cluster>, steps: seq<C.Step>, base: set<NodeId>, i: nat, j: nat, u: NodeId, v: NodeId)
    requires C.IsKnowingRun(cs, steps, base) && i < |cs| && j < |cs|
    requires u in cs[i].nodes && cs[i].nodes[u].role.Leader?
    requires v in cs[j].nodes && cs[j].nodes[v].role.Leader?
    requires cs[i].nodes[u].term == cs[j].nodes[v].term
    ensures u == v
  {
    hide C.IsKnowingRun, Explains, Good, Represents, CommitTracked, Grows;
    var ws := RunExplained(cs, steps, base);
    ExplainedAt(ws, cs, steps, i, u);
    ExplainedAt(ws, cs, steps, j, v);
    LengthOf(ws, cs, steps);
    if i <= j {
      HistoryGrowsAlong(ws, cs, steps, i, j);
      WinStays(ws[i].history, ws[j].history, cs[i].nodes[u].term);
    } else {
      HistoryGrowsAlong(ws, cs, steps, j, i);
      WinStays(ws[j].history, ws[i].history, cs[i].nodes[u].term);
    }
  }

  lemma LengthOf(ws: seq<World>, cs: seq<C.Cluster>, steps: seq<C.Step>)
    requires Explains(ws, cs, steps)
    ensures |ws| == |cs|
  {
  }

  lemma WinStays(h: History, k: History, t: nat)
    requires Grows(h, k) && t in h.wins
    ensures t in k.wins && k.wins[t] == h.wins[t]
  {
  }

  // A leader's log holds the prefix p, wherever its snapshot ends.
  lemma LeaderHolds(w: World, n: Node, p: Log, k: nat)
    requires Good(w) && Tracks(w, n) && n.role.Leader?
    requires n.term in w.history.logs ==> p <= w.history.logs[n.term]
    requires 1 <= k <= |p|
    ensures k <= LastIndex(n)
    ensures k <= n.snapIndex || EntryAt(n, k) == Some(p[k - 1])
  {
    hide Good, Represents, Stores, CommitTracked, CampaignTracked, LeadTracked, VoteTracked;
    var l := w.replicas[n.id].log;
    LeaderTermWon(w, n);
    LeaderHasItsLog(w, n);
    RepresentsStores(w.history.base, n, l);
    Queries(w.history.base, n, l);
  }

  // Leader completeness: an entry once committed at some node is in the log, or in the
  // compacted prefix, of every leader of a later term, and of every later leader of
  // the term the node was in.
  lemma CommittedEntriesStay(cs: seq<C.Cluster>, steps: seq<C.Step>, base: set<NodeId>,
                             i: nat, v: NodeId, k: nat, j: nat, u: NodeId)
    requires i < |cs| && j < |cs|
    requires v in cs[i].nodes && cs[i].nodes[v].snapIndex < k <= cs[i].nodes[v].commitIndex
    requires u in cs[j].nodes && cs[j].nodes[u].role.Leader?
    requires cs[j].nodes[u].term > cs[i].nodes[v].term || (j >= i && cs[j].nodes[u].term == cs[i].nodes[v].term)
    requires C.IsKnowingRun(cs, steps, base)
    ensures EntryAt(cs[i].nodes[v], k).Some?
    ensures k <= LastIndex(cs[j].nodes[u])
    ensures k <= cs[j].nodes[u].snapIndex || EntryAt(cs[j].nodes[u], k) == EntryAt(cs[i].nodes[v], k)
  {
    hide C.IsKnowingRun, Explains, Good, Tracks, Grows, Sound, CommittedBy, Valid, EntryAt;
    var ws := RunExplained(cs, steps, base);
    LengthOf(ws, cs, steps);
    var n, m := cs[i].nodes[v], cs[j].nodes[u];
    var p := CommittedAt(ws, cs, steps, i, v, k);
    ExplainedAt(ws, cs, steps, j, u);
    SoundOf(ws[j]);
    LeaderTermWon(ws[j], m);
    if j >= i {
      HistoryGrowsAlong(ws, cs, steps, i, j);
      CommittedGrows(ws[i].history, ws[j].history, p, n.term, n.term);
      CommittedInLeaderLog(ws[j].history, p, n.term, m.term);
    } else {
      HistoryGrowsAlong(ws, cs, steps, j, i);
      CommittedInEarlierWin(ws[j].history, ws[i].history, p, n.term, m.term);
    }
    LeaderHolds(ws[j], m, p, k);
  }

  lemma LeaderTermWon(w: World, n: Node)
    requires Good(w) && Tracks(w, n) && n.role.Leader?
    ensures n.term in w.history.wins && n.term in w.history.logs && WonBy(w.history, n.term, n.id)
  {
    hide Represents, CommitTracked, AcksHeld, LeadersInStep, ReplicasGood, TermsSeen, WinsGood, LogsGood, ConfigsGood, CampaignsGood, VotesGood, AcksGood, VotesKeepAcks, CommitsGood;
  }

  // Whatever earlier terms ever commit is already in the log a leader won with.
  lemma CommittedInEarlierWin(h: History, k: History, p: Log, t: nat, u: nat)
    requires Grows(h, k) && Sound(h) && Sound(k) && CommittedBy(k, p, t) && t < u && u in h.wins
    ensures u in h.logs && p <= h.logs[u]
  {
    hide WinsGood, LogsGood, ConfigsGood, CampaignsGood, VotesGood, AcksGood, VotesKeepAcks, CommitsGood, CommittedBy;
    CommittedInLeaderLog(k, p, t, u);
    CommittedBeforeWin(k, p, t, u);
    LeaderLogFacts(h, u);
    LeaderLogFacts(k, u);
  }

  // State machine safety: two nodes never apply different entries at one index.
  lemma StateMachineSafety(cs: seq<C.Cluster>, steps: seq<C.Step>, base: set<NodeId>, i: nat, j: nat)
    requires C.IsKnowingRun(cs, steps, base) && i < |steps| && j < |steps|
    requires steps[i].Apply? && steps[j].Apply?
    requires C.Enabled(cs[i], steps[i]) && C.Enabled(cs[j], steps[j])
    requires cs[i].nodes[steps[i].v].lastApplied == cs[j].nodes[steps[j].v].lastApplied
    ensures ApplyEntry(cs[i].nodes[steps[i].v]) == ApplyEntry(cs[j].nodes[steps[j].v])
  {
    if i <= j {
      SameEntryApplied(cs, steps, base, i, j, steps[i].v, steps[j].v, cs[i].nodes[steps[i].v].lastApplied + 1);
    } else {
      SameEntryApplied(cs, steps, base, j, i, steps[j].v, steps[i].v, cs[i].nodes[steps[i].v].lastApplied + 1);
    }
  }

  // Committed entries agree between any two nodes at any two moments.
  lemma SameEntryApplied(cs: seq<C.Cluster>, steps: seq<C.Step>, base: set<NodeId>, i: nat, j: nat, u: NodeId, v: NodeId, k: nat)
    requires i <= j < |cs|
    requires u in cs[i].nodes && cs[i].nodes[u].snapIndex < k <= cs[i].nodes[u].commitIndex
    requires v in cs[j].nodes && cs[j].nodes[v].snapIndex < k <= cs[j].nodes[v].commitIndex
    requires C.IsKnowingRun(cs, steps, base)
    ensures EntryAt(cs[i].nodes[u], k).Some? && EntryAt(cs[i].nodes[u], k) == EntryAt(cs[j].nodes[v], k)
  {
    hide C.IsKnowingRun, Explains, Sound, CommittedBy, EntryAt, Valid, Grows;
    var ws := RunExplained(cs, steps, base);
    LengthOf(ws, cs, steps);
    var p := CommittedAt(ws, cs, steps, i, u, k);
    var q := CommittedAt(ws, cs, steps, j, v, k);
    HistoryGrowsAlong(ws, cs, steps, i, j);
    var t := Max(cs[i].nodes[u].term, cs[j].nodes[v].term);
    CommittedGrows(ws[i].history, ws[j].history, p, cs[i].nodes[u].term, t);
    CommittedGrows(ws[j].history, ws[j].history, q, cs[j].nodes[v].term, t);
    CommittedComparable(ws[j].history, p, q, t);
  }

  // Two logs of one world with one term at an index.
  lemma SameTermSameEntries(w: World, n: Node, o: Node, k: nat, m: nat)
    requires Good(w) && Tracks(w, n) && Tracks(w, o)
    requires NodeTermAt(n, k).Some? && NodeTermAt(n, k) == NodeTermAt(o, k)
    requires m <= k && EntryAt(n, m).Some? && EntryAt(o, m).Some?
    ensures EntryAt(n, m) == EntryAt(o, m)
    ensures EntryAt(n, m).value.index == m && EntryAt(n, m).value.term <= NodeTermAt(n, k).value <= n.term
  {
    hide Good, Represents, Stores, CommitTracked, CampaignTracked, LeadTracked, VoteTracked, Valid, WellFormed, TermsBelow, Matching;
    var a, b := w.replicas[n.id].log, w.replicas[o.id].log;
    RepresentsStores(w.history.base, n, a);
    Queries(w.history.base, n, a);
    RepresentsStores(w.history.base, o, b);
    Queries(w.history.base, o, b);
    ReplicaWellFormed(w, n.id);
    ReplicaWellFormed(w, o.id);
    ValidLogsMatch(w.history, a, b);
    MatchingAt(a, b, k);
    assert a[m - 1] == a[..k][m - 1] == b[..k][m - 1] == b[m - 1];
    OrderedTerms(a, m, k, n.term);
  }

  // Log matching: two logs with one term at an index hold the same entries up to it.
  // Terms never decrease along a log, nor exceed the term of the node.
  lemma LogMatching(cs: seq<C.Cluster>, steps: seq<C.Step>, base: set<NodeId>, i: nat, u: NodeId, v: NodeId, k: nat, m: nat)
    requires i < |cs| && u in cs[i].nodes && v in cs[i].nodes
    requires NodeTermAt(cs[i].nodes[u], k).Some? && NodeTermAt(cs[i].nodes[u], k) == NodeTermAt(cs[i].nodes[v], k)
    requires m <= k && EntryAt(cs[i].nodes[u], m).Some? && EntryAt(cs[i].nodes[v], m).Some?
    requires C.IsKnowingRun(cs, steps, base)
    ensures EntryAt(cs[i].nodes[u], m) == EntryAt(cs[i].nodes[v], m)
    ensures EntryAt(cs[i].nodes[u], m).value.index == m
    ensures EntryAt(cs[i].nodes[u], m).value.term <= NodeTermAt(cs[i].nodes[u], k).value <= cs[i].nodes[u].term
  {
    hide C.IsKnowingRun, Explains, Good, Tracks, NodeTermAt, EntryAt;
    var ws := RunExplained(cs, steps, base);
    LengthOf(ws, cs, steps);
    ExplainedAt(ws, cs, steps, i, u);
    ExplainedAt(ws, cs, steps, i, v);
    SameTermSameEntries(ws[i], cs[i].nodes[u], cs[i].nodes[v], k, m);
  }

  lemma OrderedTerms(l: Log, m: nat, k: nat, t: nat)
    requires 1 <= m <= k <= |l| && WellFormed(l) && TermsBelow(l, t + 1)
    ensures l[m - 1].index == m && l[m - 1].term <= TermAt(l, k) <= t
  {
  }

  // Progress indices are ordered at all times, also when a snapshot jumps ahead.
  lemma ProgressIsOrdered(cs: seq<C.Cluster>, steps: seq<C.Step>, base: set<NodeId>, i: nat, v: NodeId)
    requires C.IsKnowingRun(cs, steps, base) && i < |cs| && v in cs[i].nodes
    ensures cs[i].nodes[v].snapIndex <= cs[i].nodes[v].lastApplied <= cs[i].nodes[v].commitIndex <= LastIndex(cs[i].nodes[v])
  {
    hide C.IsKnowingRun, Explains, Good, Tracks;
    var ws := RunExplained(cs, steps, base);
    LengthOf(ws, cs, steps);
    ExplainedAt(ws, cs, steps, i, v);
    ProgressOrdered(ws[i], cs[i].nodes[v]);
  }

  // The entry stands in the log of the leader that created it.
  ghost predicate InLeaderLog(h: History, e: Entry) {
    e.term in h.logs && 1 <= e.index <= |h.logs[e.term]| && h.logs[e.term][e.index - 1] == e
  }

  // What a leader appends is in its term's log.
  lemma ProposalInLog(w: World, n: Node, c: Command, username: string, request: Option<RequestId>)
    requires n.role.Leader?
    requires var m := Propose(n, c, username, request); Good(w) && Tracks(w, m)
    ensures InLeaderLog(w.history, NextEntry(n, c, username, request))
  {
    hide Good, Represents, Stores, CommitTracked, CampaignTracked, LeadTracked, VoteTracked, Propose, EntryAt;
    var m := Propose(n, c, username, request);
    var l := w.replicas[m.id].log;
    ProposedEntry(n, c, username, request);
    RepresentsStores(w.history.base, m, l);
    Queries(w.history.base, m, l);
    LeaderTermWon(w, m);
    LeaderHasItsLog(w, m);
    var k := LastIndex(n) + 1;
    assert EntryAt(m, k) == Some(l[k - 1]);
  }

  lemma ClientWriteRuns(cs: seq<C.Cluster>, steps: seq<C.Step>, base: set<NodeId>, i: nat)
    requires C.IsKnowingRun(cs, steps, base) && i < |steps| && steps[i].ClientWrite?
    ensures i + 1 < |cs| && steps[i].v in cs[i].nodes && steps[i].v in cs[i + 1].nodes
    ensures cs[i].nodes[steps[i].v].role.Leader?
    ensures cs[i + 1].nodes[steps[i].v] == Propose(cs[i].nodes[steps[i].v], Run(steps[i].op), steps[i].username, steps[i].request)
  {
    hide Propose, C.Init;
    assert C.Enabled(cs[i], steps[i]) && cs[i + 1] == C.Do(cs[i], steps[i]);
  }

  // Acknowledged writes: if what any node ever has committed at the index of an append
  // has the term of the append, it is the very entry the leader appended.
  lemma AcknowledgedWriteIsTheProposal(cs: seq<C.Cluster>, steps: seq<C.Step>, base: set<NodeId>, i: nat, j: nat, u: NodeId)
    requires i < j < |cs| && i < |steps|
    requires steps[i].ClientWrite? && steps[i].v in cs[i].nodes && u in cs[j].nodes
    requires
      var n, m := cs[i].nodes[steps[i].v], cs[j].nodes[u];
      && m.snapIndex < LastIndex(n) + 1 <= m.commitIndex
      && NodeTermAt(m, LastIndex(n) + 1) == Some(n.term)
    requires C.IsKnowingRun(cs, steps, base)
    ensures EntryAt(cs[j].nodes[u], LastIndex(cs[i].nodes[steps[i].v]) + 1) ==
            Some(NextEntry(cs[i].nodes[steps[i].v], Run(steps[i].op), steps[i].username, steps[i].request))
  {
    hide C.IsKnowingRun, Explains, Good, Tracks, CommittedBy, Valid, Sound, Propose, Grows;
    ClientWriteRuns(cs, steps, base, i);
    var ws := RunExplained(cs, steps, base);
    var v, n := steps[i].v, cs[i].nodes[steps[i].v];
    var k := LastIndex(n) + 1;
    LengthOf(ws, cs, steps);
    ExplainedAt(ws, cs, steps, i + 1, v);
    ProposalInLog(ws[i + 1], n, Run(steps[i].op), steps[i].username, steps[i].request);
    var p := CommittedAt(ws, cs, steps, j, u, k);
    HistoryGrowsAlong(ws, cs, steps, i + 1, j);
    LogStays(ws[i + 1].history, ws[j].history, n.term);
    CreatorEntry(ws[j].history, p, k);
    assert p[k - 1].term == n.term;
  }

  lemma ProposedEntry(n: Node, c: Command, username: string, request: Option<RequestId>)
    requires n.role.Leader?
    ensures
      var m := Propose(n, c, username, request);
      && m.role.Leader? && m.term == n.term
      && m.snapIndex <= LastIndex(n) && LastIndex(m) == LastIndex(n) + 1 && EntryAt(m, LastIndex(n) + 1) == Some(NextEntry(n, c, username, request))
  {
    hide CommitScan;
  }

  lemma CreatorEntry(h: History, l: Log, k: nat)
    requires Sound(h) && Valid(h, l) && 1 <= k <= |l|
    ensures l[k - 1].term in h.logs && k <= |h.logs[l[k - 1].term]| && h.logs[l[k - 1].term][k - 1] == l[k - 1]
  {
    hide WinsGood, LogsGood, ConfigsGood, CampaignsGood, VotesGood, AcksGood, VotesKeepAcks, CommitsGood;
    assert l[..k - 1 + 1] <= h.logs[l[k - 1].term];
  }

  lemma LogStays(h: History, k: History, t: nat)
    requires Grows(h, k) && t in h.logs
    ensures t in k.logs && h.logs[t] <= k.logs[t]
  {
  }
}
