// Membership changes, one node at a time: when a leader may append a CONFIG, how
// neighbouring memberships relate, and what a joining node's snapshot does not know.
module Reconfiguration {
  import opened Types
  import opened Logs
  import opened Quorums
  import opened Histories
  import opened LeaderCompleteness
  import opened Worlds
  import opened Nodes
  import opened Compaction
  import opened Tracking
  import opened Leading
  import opened ClusterInvariant
  import opened RaftSafety
  import C = Clusters

  ghost predicate MajoritiesMeetAlways(c: set<NodeId>, d: set<NodeId>) {
    forall q, r :: IsMajority(q, c) && IsMajority(r, d) ==> q * r != {}
  }

  lemma NeighboursMeet(c: set<NodeId>, d: set<NodeId>)
    requires OneChange(c, d)
    ensures MajoritiesMeetAlways(c, d)
  {
    forall q, r | IsMajority(q, c) && IsMajority(r, d)
      ensures q * r != {}
    {
      var v := MajoritiesMeet(q, c, r, d);
      assert v in q * r;
    }
  }

  predicate ConfigEntry(n: Node, k: nat) {
    EntryAt(n, k).Some? && EntryAt(n, k).value.command.Config?
  }

  function ConfigMembers(n: Node, k: nat): set<NodeId>
    requires ConfigEntry(n, k)
  {
    EntryAt(n, k).value.command.members
  }

  // ------------------------------------------------------------ Neighbouring memberships

  // A CONFIG of a tracked log changes the membership before it by one node.
  lemma ChangesOne(w: World, n: Node, b: nat)
    requires Good(w) && Tracks(w, n) && ConfigEntry(n, b)
    ensures b <= |w.replicas[n.id].log|
    ensures OneChange(Membership(w.history.base, w.replicas[n.id].log[..b - 1]), ConfigMembers(n, b))
  {
    hide Good, Represents, CommitTracked, CampaignTracked, LeadTracked, VoteTracked, Valid, Sound, OneChange, Membership;
    var l := w.replicas[n.id].log;
    RepresentsStores(w.history.base, n, l);
    Queries(w.history.base, n, l);
    ReplicaWellFormed(w, n.id);
    SoundOf(w);
    var c := ConfigOfValid(w.history, l, b);
  }

  lemma MembershipAfter(base: set<NodeId>, l: Log, a: nat, b: nat)
    requires IsConfig(l, a) && a < b <= |l| + 1
    requires forall k :: a < k < b ==> !IsConfig(l, k)
    ensures Membership(base, l[..b - 1]) == l[a - 1].command.members
  {
    hide NewestConfig;
    assert IsConfig(l[..b - 1], a);
    var j := NewestConfig(l[..b - 1]);
    assert IsConfig(l, j);
  }

  // Two CONFIG entries with none between them are one node apart.
  lemma NeighboursDifferByOne(w: World, n: Node, a: nat, b: nat)
    requires Good(w) && Tracks(w, n) && ConfigEntry(n, a) && ConfigEntry(n, b) && a < b
    requires forall k: nat :: a < k < b ==> !ConfigEntry(n, k)
    ensures OneChange(ConfigMembers(n, a), ConfigMembers(n, b))
  {
    hide Good, Represents, Stores, CommitTracked, CampaignTracked, LeadTracked, VoteTracked, OneChange, Membership;
    var l := w.replicas[n.id].log;
    ChangesOne(w, n, b);
    RepresentsStores(w.history.base, n, l);
    Queries(w.history.base, n, l);
    forall k | a < k < b
      ensures !IsConfig(l, k)
    {
      assert !ConfigEntry(n, k);
    }
    MembershipAfter(w.history.base, l, a, b);
  }

  // So is the first CONFIG above a snapshot that knows its membership.
  lemma SnapshotDiffersByOne(w: World, n: Node, b: nat)
    requires Good(w) && Tracks(w, n) && ConfigEntry(n, b) && n.snapConfig != {}
    requires forall k: nat :: k < b ==> !ConfigEntry(n, k)
    ensures OneChange(n.snapConfig, ConfigMembers(n, b))
  {
    hide Good, Represents, CommitTracked, CampaignTracked, LeadTracked, VoteTracked, OneChange, Membership, NewestConfig;
    var l := w.replicas[n.id].log;
    ChangesOne(w, n, b);
    RepresentsStores(w.history.base, n, l);
    Queries(w.history.base, n, l);
    forall k | n.snapIndex < k < b
      ensures !IsConfig(l, k)
    {
      assert !ConfigEntry(n, k);
    }
    var j := NewestConfig(l[..b - 1]);
    assert j > 0 ==> IsConfig(l, j);
    assert l[..b - 1][..n.snapIndex] == l[..n.snapIndex];
    MembershipOfPrefix(w.history.base, l[..b - 1], n.snapIndex);
  }

  // Along every log of every run, each CONFIG is one node away from the one before it,
  // so every majority of one meets every majority of the next.
  lemma ChainOfMemberships(cs: seq<C.Cluster>, steps: seq<C.Step>, base: set<NodeId>, i: nat, v: NodeId, a: nat, b: nat)
    requires i < |cs| && v in cs[i].nodes && ConfigEntry(cs[i].nodes[v], a) && ConfigEntry(cs[i].nodes[v], b) && a < b
    requires forall k: nat :: a < k < b ==> !ConfigEntry(cs[i].nodes[v], k)
    requires C.IsKnowingRun(cs, steps, base)
    ensures OneChange(ConfigMembers(cs[i].nodes[v], a), ConfigMembers(cs[i].nodes[v], b))
    ensures MajoritiesMeetAlways(ConfigMembers(cs[i].nodes[v], a), ConfigMembers(cs[i].nodes[v], b))
  {
    hide C.IsKnowingRun, Explains, Good, Tracks, ConfigEntry, OneChange, MajoritiesMeetAlways;
    var ws := RunExplained(cs, steps, base);
    LengthOf(ws, cs, steps);
    ExplainedAt(ws, cs, steps, i, v);
    NeighboursDifferByOne(ws[i], cs[i].nodes[v], a, b);
    NeighboursMeet(ConfigMembers(cs[i].nodes[v], a), ConfigMembers(cs[i].nodes[v], b));
  }

  // ------------------------------------------------------------ When a change may start

  // In m the leader n has appended a CONFIG of its term that makes exactly these nodes
  // members, and goes by it at once; what it had in its log is as it was.
  ghost predicate NowMembers(n: Node, m: Node, members: set<NodeId>) {
    && m.role.Leader? && m.id == n.id && m.term == n.term && m.snapIndex == n.snapIndex && LastIndex(m) == LastIndex(n) + 1
    && EntryAt(m, LastIndex(n) + 1) == Some(Entry(n.term, LastIndex(n) + 1, Config(members), "", None))
    && m.members == members && m.configIndex == LastIndex(n) + 1
    && forall k: nat :: k <= LastIndex(n) ==> EntryAt(m, k) == EntryAt(n, k)
  }

  lemma ConfigTakesEffect(n: Node, members: set<NodeId>)
    requires n.role.Leader?
    ensures NowMembers(n, Propose(n, Config(members), "", None), members)
  {
    hide CommitScan;
    var e := Entry(n.term, LastIndex(n) + 1, Config(members), "", None);
    assert e in [e] && e.command.Config?;
    assert (n.log + [e])[|n.log + [e]| - 1] == e;
    assert NewestConfig(n.log + [e]) == |n.log| + 1;
  }

  // remove_member(u): everybody but u stays a member, and nobody joins.
  lemma RemoveMemberRemoves(c: C.Cluster, v: NodeId, u: NodeId)
    requires C.Enabled(c, C.RemoveMember(v, u))
    ensures v in c.nodes && u in c.nodes[v].members
    ensures var d := C.Do(c, C.RemoveMember(v, u));
      && d.net == c.net && d.tasks == c.tasks && d.nodes.Keys == c.nodes.Keys
      && (forall x :: x in c.nodes && x != v ==> d.nodes[x] == c.nodes[x])
      && exists members ::
           && NowMembers(c.nodes[v], d.nodes[v], members)
           && u !in members && forall x :: x != u ==> (x in members <==> x in c.nodes[v].members)
  {
    hide Propose, NowMembers;
    ConfigTakesEffect(c.nodes[v], c.nodes[v].members - {u});
  }

  // add_member(u): everybody stays a member, and u and nobody else joins.
  lemma AddMemberAdds(c: C.Cluster, v: NodeId, u: NodeId)
    requires C.Enabled(c, C.AddMember(v, u))
    ensures v in c.nodes && u !in c.nodes[v].members
    ensures var d := C.Do(c, C.AddMember(v, u));
      && d.net == c.net && d.tasks == c.tasks && d.nodes.Keys == c.nodes.Keys
      && (forall x :: x in c.nodes && x != v ==> d.nodes[x] == c.nodes[x])
      && exists members ::
           && NowMembers(c.nodes[v], d.nodes[v], members)
           && u in members && forall x :: x != u ==> (x in members <==> x in c.nodes[v].members)
  {
    hide Propose, NowMembers;
    ConfigTakesEffect(c.nodes[v], c.nodes[v].members + {u});
  }

  // An idle leader may always add a node that is no member, and remove any member but the
  // last one.
  lemma IdleLeaderMayChange(c: C.Cluster, v: NodeId, u: NodeId)
    requires v in c.nodes && c.nodes[v].role.Leader? && ConfigIdle(c.nodes[v])
    ensures u !in c.nodes[v].members ==> C.Enabled(c, C.AddMember(v, u))
    ensures u in c.nodes[v].members && c.nodes[v].members != {u} ==> C.Enabled(c, C.RemoveMember(v, u))
  {
    if u in c.nodes[v].members && |c.nodes[v].members| == 1 {
      assert |c.nodes[v].members - {u}| == 0;
    }
  }

  predicate Changes(s: C.Step) {
    s.AddMember? || s.RemoveMember?
  }

  function NewMembers(n: Node, s: C.Step): set<NodeId>
    requires Changes(s)
  {
    if s.AddMember? then n.members + {s.member} else n.members - {s.member}
  }

  // The entry at which the leader's term starts is its no-op.
  predicate OwnNoop(n: Node) {
    var e := EntryAt(n, n.termStart);
    e.Some? && e.value.term == n.term && e.value.index == n.termStart && e.value.command == Noop
  }

  // The leader's own no-op, and every CONFIG in its log, is committed.
  lemma IdleMeansSettled(w: World, n: Node)
    requires Good(w) && Tracks(w, n) && n.role.Leader? && ConfigIdle(n)
    ensures forall k: nat :: ConfigEntry(n, k) ==> k <= n.commitIndex
    ensures n.termStart <= n.commitIndex
    ensures n.termStart > n.snapIndex ==> OwnNoop(n)
  {
    hide Good, Tracks, EntryAt, ConfigEntry;
    ConfigsUpToIndex(w, n);
    SnapshotCommitted(w, n);
    LeaderTermWon(w, n);
    LeaderHasItsLog(w, n);
    SoundOf(w);
    NoopAtStart(w, n);
    StartEntry(w, n);
  }

  lemma ConfigsUpToIndex(w: World, n: Node)
    requires Tracks(w, n)
    ensures forall k: nat :: ConfigEntry(n, k) ==> k <= n.configIndex
  {
    hide CommitTracked, CampaignTracked, VoteTracked, LeadTracked, ConfigOf;
    var l := w.replicas[n.id].log;
    RepresentsStores(w.history.base, n, l);
    Queries(w.history.base, n, l);
    assert forall k: nat :: ConfigEntry(n, k) ==> IsConfig(l, k);
  }

  lemma StartEntry(w: World, n: Node)
    requires Tracks(w, n) && 1 <= n.termStart <= |w.replicas[n.id].log|
    ensures n.termStart > n.snapIndex ==> EntryAt(n, n.termStart) == Some(w.replicas[n.id].log[n.termStart - 1])
  {
    hide Represents, CommitTracked, CampaignTracked, VoteTracked, LeadTracked;
    RepresentsStores(w.history.base, n, w.replicas[n.id].log);
    Queries(w.history.base, n, w.replicas[n.id].log);
  }

  lemma SnapshotCommitted(w: World, n: Node)
    requires Tracks(w, n)
    ensures n.snapIndex <= n.commitIndex
  {
    hide Represents, VoteTracked, CampaignTracked, LeadTracked;
  }

  lemma NoopAtStart(w: World, n: Node)
    requires Good(w) && Tracks(w, n) && n.role.Leader?
    requires Sound(w.history) && n.term in w.history.wins && n.term in w.history.logs
    requires w.history.logs[n.term] == w.replicas[n.id].log
    ensures var l := w.replicas[n.id].log;
      && 1 <= n.termStart <= |l| && l[n.termStart - 1].command == Noop && l[n.termStart - 1].term == n.term
      && l[n.termStart - 1].index == n.termStart
  {
    hide Good, Represents, CommitTracked, CampaignTracked, VoteTracked, WinsGood, LogsGood, ConfigsGood, CampaignsGood, VotesGood, AcksGood, VotesKeepAcks, CommitsGood;
    LeaderLogFacts(w.history, n.term);
  }

  // In every run, a leader appends a CONFIG only when its own no-op and every earlier
  // CONFIG of its log are committed, and the new membership is one node away.
  lemma ChangeStartsSettled(cs: seq<C.Cluster>, steps: seq<C.Step>, base: set<NodeId>, i: nat)
    requires i < |steps| && i < |cs| && Changes(steps[i]) && steps[i].v in cs[i].nodes
    requires C.IsKnowingRun(cs, steps, base)
    ensures var n := cs[i].nodes[steps[i].v];
      && n.role.Leader? && n.termStart <= n.commitIndex && (n.termStart > n.snapIndex ==> OwnNoop(n))
      && (forall k: nat :: ConfigEntry(n, k) ==> k <= n.commitIndex)
      && OneChange(n.members, NewMembers(n, steps[i]))
      && MajoritiesMeetAlways(n.members, NewMembers(n, steps[i]))
      && i + 1 < |cs| && steps[i].v in cs[i + 1].nodes && NowMembers(n, cs[i + 1].nodes[steps[i].v], NewMembers(n, steps[i]))
  {
    var n := cs[i].nodes[steps[i].v];
    ChangeEnabled(cs, steps, base, i);
    hide C.IsKnowingRun, Explains, Good, Tracks, ConfigEntry, OneChange, MajoritiesMeetAlways, NowMembers;
    var ws := RunExplained(cs, steps, base);
    LengthOf(ws, cs, steps);
    ExplainedAt(ws, cs, steps, i, steps[i].v);
    IdleMeansSettled(ws[i], n);
    NeighboursMeet(n.members, NewMembers(n, steps[i]));
  }

  lemma ChangeEnabled(cs: seq<C.Cluster>, steps: seq<C.Step>, base: set<NodeId>, i: nat)
    requires i < |steps| && Changes(steps[i])
    requires C.IsKnowingRun(cs, steps, base)
    ensures i < |cs| && steps[i].v in cs[i].nodes
    ensures var n := cs[i].nodes[steps[i].v];
      && n.role.Leader? && ConfigIdle(n)
      && OneChange(n.members, NewMembers(n, steps[i]))
      && i + 1 < |cs| && steps[i].v in cs[i + 1].nodes && NowMembers(n, cs[i + 1].nodes[steps[i].v], NewMembers(n, steps[i]))
  {
    hide C.Init, NowMembers, Propose;
    assert C.Enabled(cs[i], steps[i]) && cs[i + 1] == C.Do(cs[i], steps[i]);
    var n := cs[i].nodes[steps[i].v];
    ConfigTakesEffect(n, NewMembers(n, steps[i]));
    if steps[i].AddMember? {
      AddIsOneChange(n.members, steps[i].member);
    } else {
      RemoveIsOneChange(n.members, steps[i].member);
    }
  }

  // What a leader appends for add_member is one node away from the true membership if
  // and only if the leader knows of some member; or there is none, or there are two and
  // the node added is one of them.
  lemma AddChangesOneIffKnown(w: World, n: Node, u: NodeId)
    requires Good(w) && Tracks(w, n) && n.role.Leader? && ConfigIdle(n) && u !in n.members
    ensures n.id in w.replicas
    ensures
      var truth := TrueMembers(w, n.id);
      OneChange(truth, n.members + {u}) <==> n.members != {} || truth == {} || (|truth| == 2 && u in truth)
  {
    hide Good, Represents, CommitTracked, CampaignTracked, LeadTracked, VoteTracked, OneChange, TrueMembers;
    if n.members != {} {
      KnownIsTrue(w, n);
      AddIsOneChange(n.members, u);
    } else {
      assert n.members + {u} == {u};
      OneFromNobody(TrueMembers(w, n.id), u);
    }
  }

  // Which memberships a single node is one change away from.
  lemma OneFromNobody(c: set<NodeId>, u: NodeId)
    ensures OneChange(c, {u}) <==> c == {} || (|c| == 2 && u in c)
  {
    if u in c {
      assert c == (c - {u}) + {u};
      if |c| == 2 {
        var x :| x in c - {u};
        assert c - {u} == {x} by {
          assert |c - {u} - {x}| == 0;
        }
        assert c == {u} + {x};
      }
    }
    if OneChange(c, {u}) {
      OneChangeSize(c, {u});
    }
  }

  // ------------------------------------------------------------ What a joining node forgets

  // The node has been told a membership: by its snapshot, or by a CONFIG up to index i.
  predicate Told(n: Node, i: nat) {
    n.snapConfig != {} || exists e :: e in n.log && e.command.Config? && e.index <= i
  }

  lemma {:induction false} UntoldGivesDefault(l: seq<Entry>, i: nat, c: set<NodeId>)
    requires forall e :: e in l && e.command.Config? ==> e.index > i
    ensures ConfigUpTo(l, i, c) == c
    decreases |l|
  {
    if l != [] {
      assert l[|l| - 1] in l;
      UntoldGivesDefault(l[..|l| - 1], i, c);
    }
  }

  // The membership a snapshot carries is the true one exactly when the node was told one.
  lemma SnapshotKnowsMembership(w: World, n: Node, done: bool)
    requires Good(w) && Tracks(w, n)
    ensures n.snapIndex <= n.lastApplied <= LastIndex(n) && n.lastApplied <= |w.replicas[n.id].log|
    ensures
      var truth := Membership(w.history.base, w.replicas[n.id].log[..n.lastApplied]);
      truth != {} ==> (SnapshotRequestFor(n, done).config == truth <==> Told(n, n.lastApplied))
  {
    hide Good, CommitTracked, CampaignTracked, VoteTracked, LeadTracked, Membership, ConfigUpTo, NewestConfig;
    var l, i, base := w.replicas[n.id].log, n.lastApplied, w.history.base;
    ProgressOrdered(w, n);
    LengthKnown(w, n);
    RepresentsStores(base, n, l);
    ReplicaWellFormed(w, n.id);
    ConfigAtIsMembership(base, n, l, i);
    if Told(n, i) {
      if e :| e in n.log && e.command.Config? && e.index <= i {
        var k :| 0 <= k < |n.log| && n.log[k] == e;
        assert IsConfig(l[..i], n.snapIndex + k + 1);
      } else {
        ToldBySnapshot(base, n, l, i);
      }
    } else {
      UntoldGivesDefault(n.log, i, n.snapConfig);
    }
  }

  lemma ToldBySnapshot(base: set<NodeId>, n: Node, l: Log, i: nat)
    requires Stores(base, n, l) && WellFormed(l) && n.snapIndex <= i <= |l| && n.snapConfig != {}
    requires forall e :: e in n.log && e.command.Config? ==> e.index > i
    ensures ConfigAt(n, i) == Membership(base, l[..i])
  {
    hide NewestConfig;
    UntoldGivesDefault(n.log, i, n.snapConfig);
    NewestInside(base, n, l, i);
    assert l[..i][..n.snapIndex] == l[..n.snapIndex];
    MembershipOfPrefix(base, l[..i], n.snapIndex);
  }

  lemma NewestInside(base: set<NodeId>, n: Node, l: Log, i: nat)
    requires Stores(base, n, l) && WellFormed(l) && n.snapIndex <= i <= |l|
    requires forall e :: e in n.log && e.command.Config? ==> e.index > i
    ensures NewestConfig(l[..i]) <= n.snapIndex
  {
    hide NewestConfig, ConfigOf;
    var j := NewestConfig(l[..i]);
    assert j > 0 ==> IsConfig(l[..i], j);
  }

  // A node started with join=True that compacts before its first CONFIG: its snapshot
  // says that nobody is a member, although the cluster has members.
  lemma JoinerForgets(v: NodeId, others: set<NodeId>) returns (n: Node, l: Log)
    requires others != {}
    ensures Represents(others, n, l) && n.snapIndex == n.lastApplied == n.commitIndex == |l| == 1
    ensures Membership(others, l[..1]) == others
    ensures SnapshotRequestFor(n, true).config == {} != Membership(others, l[..1])
  {
    var joiner := Node(v, 1, None, [], 0, 0, {}, Follower, None, 0, 0, map[], map[], {}, 0, 0, 0, map[], {}, 0);
    var e := Entry(1, 1, Noop, "", None);
    var req := AppendRequest(1, NodeId("leader"), 0, 0, [e], 1);
    var m := HandleAppend(joiner, req).0;
    assert m.log == [e] && m.commitIndex == 1;
    n := MaybeSnapshot(Applied(m, e), 1);
    l := [e];
    assert l[1..] == [] && l[..1] == l;
    assert l[..|l| - 1] == [];
    assert NewestConfig(l) == 0;
    assert ConfigUpTo(l, 1, {}) == {};
    assert n.snapConfig == {} && n.members == {} && n.log == [];
  }
}
