// The service as a whole: a cluster in which every node drives a state machine on a
// database. All replicas agree with one committed log; what propose returns is its answer
// to the proposal, and a read behind the read barrier sees every write that was
// acknowledged before it began.
module Services {
  import opened Types
  import opened Logs
  import opened Histories
  import opened HistoryGrowth
  import opened Worlds
  import opened WorldSteps
  import opened Nodes
  import opened Tracking
  import opened Leading
  import opened Following
  import opened ClusterInvariant
  import opened RaftSafety
  import opened ReadBarrier
  import opened Waiters
  import opened Progress
  import PlainMaps
  import Sessions
  import StateMachines
  import WriteThrough
  import L = LogRuns
  import C = Clusters

  // The life of one node's state machine, and where the run stands in it: pos[i] events
  // have happened before step i, and at[i] is the event of step i itself, if it has one.
  datatype Life = Life(rs: seq<L.Replica>, hs: seq<L.Happening>, answers: seq<PlainMaps.Answer>, values: seq<Option<string>>, pos: seq<nat>, at: seq<nat>)

  ghost predicate WellShaped(f: Life, n: nat) {
    && L.IsLife(f.rs, f.hs, f.answers, f.values)
    && |f.pos| == n + 1 && |f.at| == n && f.pos[0] == 0
    && (forall i :: 0 <= i < n ==> f.pos[i] <= f.pos[i + 1])
    && (forall i :: 0 <= i <= n ==> f.pos[i] <= |f.hs| && f.pos[i] < |f.rs|)
  }

  // Events that no step stands for: a client reads, a SWEEP goes on.
  predicate Minor(h: L.Happening) {
    h.LocalRead? || h.SweepStoreOf?
  }

  // The leader started the transfer of this snapshot at step b.
  ghost predicate SentAt(c: C.Cluster, s: C.Step, req: SnapshotRequest) {
    && s.SendSnapshot? && s.v == req.leader && C.Enabled(c, s)
    && SnapshotRequestFor(c.nodes[s.v], s.done) == req
  }

  // The event that stands for step i at node v: the entry applied, the restart, or the
  // dump that its sender made when it sent it.
  ghost predicate Stands(cs: seq<C.Cluster>, steps: seq<C.Step>, lives: map<NodeId, Life>, i: nat, v: NodeId, h: L.Happening)
    requires i < |steps| < |cs| && v in cs[i].nodes
  {
    var n := cs[i].nodes[v];
    match steps[i]
    case Apply(_, _) => n.snapIndex <= n.lastApplied < n.commitIndex <= LastIndex(n) && L.Logs(h) && h.e == ApplyEntry(n)
    case Crash(_) => h.Reload? && h.done == n.snapIndex
    case FinishInstall(task) => h.Install? && exists b :: 0 <= b < i && Dumped(cs, steps, lives, b, task.request, h.sender)
    case _ => false
  }

  ghost predicate Dumped(cs: seq<C.Cluster>, steps: seq<C.Step>, lives: map<NodeId, Life>, b: nat, req: SnapshotRequest, sender: L.Replica)
    requires b < |steps| < |cs|
  {
    && SentAt(cs[b], steps[b], req) && req.leader in lives
    && b < |lives[req.leader].pos| && lives[req.leader].pos[b] < |lives[req.leader].rs|
    && sender == lives[req.leader].rs[lives[req.leader].pos[b]]
  }

  // What happens at v's state machine in step i: the event of the step, if the step
  // changes what v has applied, and any minor ones; a SWEEP comes to its end.
  ghost predicate Segment(cs: seq<C.Cluster>, steps: seq<C.Step>, lives: map<NodeId, Life>, i: nat, v: NodeId)
    requires i < |steps| < |cs| && v in cs[i].nodes && v in lives && WellShaped(lives[v], |steps|)
  {
    var f := lives[v];
    && f.rs[f.pos[i + 1]].todo == {}
    && (forall x :: f.pos[i] <= x < f.pos[i + 1] ==> x < |f.hs| && (Minor(f.hs[x]) || (Advances(cs[i].nodes[v], steps[i], v) && x == f.at[i])))
    && (Advances(cs[i].nodes[v], steps[i], v) ==> f.pos[i] <= f.at[i] < f.pos[i + 1] && Stands(cs, steps, lives, i, v, f.hs[f.at[i]]))
  }

  // The state machine of v when step i comes.
  function At(f: Life, i: nat): L.Replica
    requires i < |f.pos| && f.pos[i] < |f.rs|
  {
    f.rs[f.pos[i]]
  }

  // Clients give keys; and a node that starts again holds nothing that a replay of its
  // log from the last snapshot on would change.
  ghost predicate Fair(cs: seq<C.Cluster>, steps: seq<C.Step>, lives: map<NodeId, Life>, i: nat, v: NodeId)
    requires i < |steps| < |cs| && v in cs[i].nodes && v in lives && WellShaped(lives[v], |steps|)
  {
    var n := cs[i].nodes[v];
    && (steps[i].Apply? && steps[i].v == v && n.snapIndex <= n.lastApplied < n.commitIndex <= LastIndex(n) && ApplyEntry(n).command.Run? ==>
          WriteThrough.KeyGiven(ApplyEntry(n).command.op))
    && (steps[i] == C.Crash(v) ==> L.Repeatable(At(lives[v], i).log, n.snapIndex))
  }

  // A run of the cluster with its state machines.
  ghost predicate Served(cs: seq<C.Cluster>, steps: seq<C.Step>, base: set<NodeId>, lives: map<NodeId, Life>) {
    && C.IsKnowingRun(cs, steps, base)
    && (forall v :: v in lives ==> WellShaped(lives[v], |steps|))
    && (forall i, v :: 0 <= i < |steps| && v in cs[i].nodes ==> v in lives && Segment(cs, steps, lives, i, v) && Fair(cs, steps, lives, i, v))
    && (forall v :: v in cs[0].nodes ==> v in lives)
  }

  // ------------------------------------------------------------ The invariant

  // The replica follows a committed log, and Raft knows how far.
  ghost predicate InStep(w: World, n: Node, r: L.Replica) {
    && L.Follows(r)
    && r.applied == n.lastApplied
    && CommittedBy(w.history, r.log, n.term)
  }

  lemma StartInStep(cs: seq<C.Cluster>, steps: seq<C.Step>, base: set<NodeId>, lives: map<NodeId, Life>, w: World, v: NodeId)
    requires Served(cs, steps, base, lives) && v in cs[0].nodes
    ensures v in lives && WellShaped(lives[v], |steps|) && InStep(w, cs[0].nodes[v], At(lives[v], 0)) && At(lives[v], 0).todo == {}
  {
    hide L.Follows, LatestConfig, Segment, Fair, L.Next, CommittedBy;
    L.NewbornFollows(lives[v].rs[0].m.capacity);
    NothingCommitted(w.history, cs[0].nodes[v].term);
  }

  lemma NothingCommitted(h: History, t: nat)
    ensures CommittedBy(h, [], t)
  {
  }

  // Minor events leave the log alone.
  lemma {:induction false} MinorsFollow(f: Life, n: nat, a: nat, b: nat)
    requires WellShaped(f, n) && a <= b <= |f.hs| && L.Follows(f.rs[a])
    requires forall x :: a <= x < b ==> Minor(f.hs[x])
    ensures b < |f.rs| && L.Follows(f.rs[b]) && f.rs[b].log == f.rs[a].log && f.rs[b].applied == f.rs[a].applied
    decreases b
  {
    hide L.Follows;
    if a < b {
      MinorsFollow(f, n, a, b - 1);
      MinorFollows(f.rs[b - 1], f.hs[b - 1], f.rs[b], f.answers[b - 1], f.values[b - 1]);
    }
  }

  lemma MinorFollows(r: L.Replica, h: L.Happening, s: L.Replica, a: PlainMaps.Answer, value: Option<string>)
    requires L.Follows(r) && L.Next(r, h, s, a, value) && Minor(h)
    ensures L.Follows(s) && s.log == r.log && s.applied == r.applied
  {
    L.StepFollows(r, h, s, a, value);
  }

  // What the step of an applied entry finds: the entry comes next in the replica's log.
  lemma EntryComesNext(w: World, n: Node, r: L.Replica)
    requires Good(w) && Tracks(w, n) && InStep(w, n, r)
    requires n.snapIndex <= n.lastApplied < n.commitIndex <= LastIndex(n)
    ensures ApplyEntry(n).index == r.applied + 1
    ensures r.applied < |r.log| ==> ApplyEntry(n) == r.log[r.applied]
    ensures r.applied <= |r.log| && CommittedBy(w.history, L.LogAfter(r, ApplyEntry(n)), n.term)
  {
    hide Good, Tracks, CommittedBy, L.Follows, Sound, Valid, EntryAt;
    var k := n.lastApplied + 1;
    var p := CommittedPrefix(w, n, k);
    AppliedWithin(r);
    IndexOf(w.history, p, k);
    CommittedComparable(w.history, p, r.log, n.term);
    assert p[..k - 1] + [p[k - 1]] == p;
    if r.applied >= |r.log| {
      assert r.log == p[..k - 1];
    }
  }

  lemma IndexOf(h: History, p: Log, k: nat)
    requires Valid(h, p) && 1 <= k <= |p|
    ensures p[k - 1].index == k
  {
  }

  lemma AppliedWithin(r: L.Replica)
    requires L.Follows(r)
    ensures r.applied <= |r.log|
  {
    L.RepeatableWithin(r.log, r.applied);
  }

  // The event of a step: the replica stays in step.
  lemma ApplyInStep(w: World, x: World, n: Node, m: Node, r: L.Replica, h: L.Happening, s: L.Replica, a: PlainMaps.Answer, value: Option<string>)
    requires Good(w) && Tracks(w, n) && InStep(w, n, r) && Grows(w.history, x.history)
    requires n.snapIndex <= n.lastApplied < n.commitIndex <= LastIndex(n)
    requires L.Next(r, h, s, a, value) && L.Logs(h) && h.e == ApplyEntry(n)
    requires ApplyEntry(n).command.Run? ==> WriteThrough.KeyGiven(ApplyEntry(n).command.op)
    requires m.lastApplied == n.lastApplied + 1 && m.term >= n.term
    ensures InStep(x, m, s) && L.AnswerFollows(r, h.e, a) && s.log == L.LogAfter(r, h.e)
  {
    hide Good, Tracks, CommittedBy, L.Follows, L.AnswerFollows, Grows, ApplyEntry, WriteThrough.KeyGiven;
    EntryComesNext(w, n, r);
    L.StepFollows(r, h, s, a, value);
    LogIs(r, h, s, a, value);
    CommittedGrows(w.history, x.history, s.log, n.term, m.term);
  }

  lemma LogIs(r: L.Replica, h: L.Happening, s: L.Replica, a: PlainMaps.Answer, value: Option<string>)
    requires L.Next(r, h, s, a, value) && L.Logs(h)
    ensures s.log == L.LogAfter(r, h.e) && s.applied == r.applied + 1
  {
  }

  lemma ReloadInStep(w: World, x: World, n: Node, m: Node, r: L.Replica, h: L.Happening, s: L.Replica, a: PlainMaps.Answer, value: Option<string>)
    requires InStep(w, n, r) && Grows(w.history, x.history)
    requires L.Next(r, h, s, a, value) && h.Reload? && h.done == n.snapIndex && L.Repeatable(r.log, n.snapIndex)
    requires m.lastApplied == n.snapIndex && m.term >= n.term
    ensures InStep(x, m, s) && s.log == r.log
  {
    hide CommittedBy, L.Follows, Grows, L.Repeatable, L.Next;
    L.StepFollows(r, h, s, a, value);
    ReloadIs(r, h, s, a, value);
    CommittedGrows(w.history, x.history, s.log, n.term, m.term);
  }

  lemma ReloadIs(r: L.Replica, h: L.Happening, s: L.Replica, a: PlainMaps.Answer, value: Option<string>)
    requires L.Next(r, h, s, a, value) && h.Reload?
    ensures s.log == r.log && s.applied == h.done
  {
  }

  lemma InstallInStep(w0: World, x: World, leader: Node, m: Node, r: L.Replica, h: L.Happening, s: L.Replica, a: PlainMaps.Answer, value: Option<string>)
    requires L.Follows(r) && L.Next(r, h, s, a, value) && h.Install? && InStep(w0, leader, h.sender) && Grows(w0.history, x.history)
    requires m.lastApplied == leader.lastApplied && m.term >= leader.term
    ensures InStep(x, m, s) && s.log == h.sender.log && s.applied == h.sender.applied
  {
    hide CommittedBy, L.Follows, Grows, L.Next;
    L.InstallFollows(r, h.sender, h.lines, h.newest, s, a, value);
    CommittedGrows(w0.history, x.history, s.log, leader.term, m.term);
  }

  // ------------------------------------------------------------ Along the run

  // The facts of one step.
  lemma ServedAt(cs: seq<C.Cluster>, steps: seq<C.Step>, base: set<NodeId>, lives: map<NodeId, Life>, ws: seq<World>, i: nat, v: NodeId)
    requires Served(cs, steps, base, lives) && Explains(ws, cs, steps) && i < |steps| && (v in cs[i].nodes || (i < |cs| - 1 && v in cs[i + 1].nodes))
    ensures |ws| == |cs| == |steps| + 1 && v in cs[i].nodes && v in cs[i + 1].nodes
    ensures v in lives && WellShaped(lives[v], |steps|) && Segment(cs, steps, lives, i, v) && Fair(cs, steps, lives, i, v)
    ensures C.Enabled(cs[i], steps[i]) && cs[i + 1] == C.Do(cs[i], steps[i])
    ensures cs[i + 1].nodes[v].lastApplied == AppliedAfter(cs[i].nodes[v], steps[i], v) && cs[i + 1].nodes[v].term >= cs[i].nodes[v].term
    ensures Good(ws[i]) && Tracks(ws[i], cs[i].nodes[v]) && Grows(ws[i].history, ws[i + 1].history)
  {
    hide Segment, Fair, WellShaped, Good, Tracks, Inv, Moves, C.Enabled, C.Do, C.Init, Advances, AppliedAfter, Grows;
    assert C.Enabled(cs[i], steps[i]) && cs[i + 1] == C.Do(cs[i], steps[i]);
    AllThemselves(cs[i], ws[i]);
    StepKeys(cs[i], steps[i], ws[i]);
    StepAdvances(cs[i], steps[i], v);
    ExplainedAt(ws, cs, steps, i, v);
    HistoryGrowsAlong(ws, cs, steps, i, i + 1);
  }

  lemma AllThemselves(c: C.Cluster, w: World)
    requires Inv(c, w)
    ensures forall u :: u in c.nodes ==> c.nodes[u].id == u
  {
    hide Good, Tracks, PacketGood, TaskGood;
  }

  lemma StepKeys(c: C.Cluster, s: C.Step, w: World)
    requires Inv(c, w) && C.Enabled(c, s)
    ensures C.Do(c, s).nodes.Keys == c.nodes.Keys
  {
    hide C.Do, C.Enabled, Inv;
    AllThemselves(c, w);
    StepOwner(c, s);
    StepAdvances(c, s, C.Actor(s));
  }

  lemma StepOwner(c: C.Cluster, s: C.Step)
    requires C.Enabled(c, s)
    ensures C.Actor(s) in c.nodes
  {
  }

  // Where the event of a step finds the replica, and where it leaves it.
  ghost predicate EventIs(x: World, n: Node, m: Node, f: Life, i: nat)
    requires i < |f.at| < |f.pos| && f.pos[i] <= f.at[i] < |f.hs| < |f.rs| && |f.answers| == |f.values| == |f.hs|
  {
    var r, s := f.rs[f.at[i]], f.rs[f.at[i] + 1];
    && L.Follows(r) && r.log == At(f, i).log && r.applied == At(f, i).applied
    && InStep(x, m, s) && |s.log| >= n.lastApplied
    && (L.Logs(f.hs[f.at[i]]) ==> L.AnswerFollows(r, f.hs[f.at[i]].e, f.answers[f.at[i]]) && s.log == L.LogAfter(r, f.hs[f.at[i]].e))
  }

  lemma EventShape(cs: seq<C.Cluster>, steps: seq<C.Step>, lives: map<NodeId, Life>, i: nat, v: NodeId)
    requires i < |steps| < |cs| && v in cs[i].nodes && v in lives && WellShaped(lives[v], |steps|)
    requires Segment(cs, steps, lives, i, v) && Advances(cs[i].nodes[v], steps[i], v) && L.Follows(At(lives[v], i))
    ensures
      var f := lives[v];
      var x := f.at[i];
      && i < |f.at| < |f.pos| && f.pos[i] <= x < f.pos[i + 1] <= |f.hs| && |f.rs| == |f.hs| + 1 && |f.answers| == |f.values| == |f.hs|
      && L.Follows(f.rs[x]) && f.rs[x].log == At(f, i).log && f.rs[x].applied == At(f, i).applied
      && L.Next(f.rs[x], f.hs[x], f.rs[x + 1], f.answers[x], f.values[x])
      && Stands(cs, steps, lives, i, v, f.hs[x])
      && (forall y :: x < y < f.pos[i + 1] ==> Minor(f.hs[y]))
  {
    hide L.Follows, L.Next, Stands, Advances;
    var f := lives[v];
    MinorsFollow(f, |steps|, f.pos[i], f.at[i]);
  }

  // The replica takes the event of a step in step; of the sender of a dump this is known.
  lemma EventInStep(cs: seq<C.Cluster>, steps: seq<C.Step>, base: set<NodeId>, lives: map<NodeId, Life>, ws: seq<World>, i: nat, v: NodeId, b: nat)
    requires Served(cs, steps, base, lives) && Explains(ws, cs, steps) && i < |steps| < |cs| && v in cs[i].nodes && v in lives
    requires WellShaped(lives[v], |steps|) && InStep(ws[i], cs[i].nodes[v], At(lives[v], i)) && Advances(cs[i].nodes[v], steps[i], v)
    requires lives[v].at[i] < |lives[v].hs| && Stands(cs, steps, lives, i, v, lives[v].hs[lives[v].at[i]])
    requires lives[v].hs[lives[v].at[i]].Install? && steps[i].FinishInstall? ==>
      && b < i && Dumped(cs, steps, lives, b, steps[i].task.request, lives[v].hs[lives[v].at[i]].sender)
      && steps[b].SendSnapshot? && steps[b].v in cs[b].nodes && InStep(ws[b], cs[b].nodes[steps[b].v], lives[v].hs[lives[v].at[i]].sender)
    ensures
      var f := lives[v];
      && f.pos[i] <= f.at[i] < |f.hs| < |f.rs| && |f.answers| == |f.values| == |f.hs| && v in cs[i + 1].nodes
      && EventIs(ws[i + 1], cs[i].nodes[v], cs[i + 1].nodes[v], f, i)
  {
    hide Served, Explains, WellShaped, Good, Tracks, Grows, L.Follows, L.AnswerFollows, L.Next, C.Do, CommittedBy, ApplyEntry, SnapshotRequestFor, L.Logs, L.LogAfter,
      WriteThrough.KeyGiven, L.Repeatable;
    ServedAt(cs, steps, base, lives, ws, i, v);
    EventShape(cs, steps, lives, i, v);
    var f, n, m := lives[v], cs[i].nodes[v], cs[i + 1].nodes[v];
    var x := f.at[i];
    var r, h, s := f.rs[x], f.hs[x], f.rs[x + 1];
    match steps[i] {
      case Apply(_, _) => ApplyInStep(ws[i], ws[i + 1], n, m, r, h, s, f.answers[x], f.values[x]);
      case Crash(_) =>
        ReloadInStep(ws[i], ws[i + 1], n, m, r, h, s, f.answers[x], f.values[x]);
        NotLogged(h);
      case FinishInstall(task) =>
        HistoryGrowsAlong(ws, cs, steps, b, i + 1);
        TaskTerm(ws, cs, steps, i, task);
        DumpTerm(cs[b], steps[b], task.request);
        InstallInStep(ws[b], ws[i + 1], cs[b].nodes[steps[b].v], m, r, h, s, f.answers[x], f.values[x]);
        NotLogged(h);
    }
    AppliedWithin(r);
    AppliedWithin(s);
  }

  lemma NotLogged(h: L.Happening)
    requires h.Reload? || h.Install?
    ensures !L.Logs(h)
  {
  }

  lemma DumpTerm(c: C.Cluster, s: C.Step, req: SnapshotRequest)
    requires SentAt(c, s, req)
    ensures s.v in c.nodes && req.term == c.nodes[s.v].term && req.index == c.nodes[s.v].lastApplied
  {
  }

  lemma TaskTerm(ws: seq<World>, cs: seq<C.Cluster>, steps: seq<C.Step>, i: nat, task: C.Task)
    requires Explains(ws, cs, steps) && i < |cs| && task in cs[i].tasks
    ensures task.node in cs[i].nodes && task.request.term <= cs[i].nodes[task.node].term
  {
    hide Good, Tracks, PacketGood, SnapshotAskGood, Moves;
    assert Inv(cs[i], ws[i]);
    assert TaskGood(ws[i].history, cs[i].nodes, task);
  }

  lemma NothingHappens(cs: seq<C.Cluster>, steps: seq<C.Step>, base: set<NodeId>, lives: map<NodeId, Life>, ws: seq<World>, i: nat, v: NodeId)
    requires Served(cs, steps, base, lives) && Explains(ws, cs, steps) && i < |steps| < |cs| == |ws| && v in cs[i].nodes
    requires v in lives && WellShaped(lives[v], |steps|) && InStep(ws[i], cs[i].nodes[v], At(lives[v], i)) && !Advances(cs[i].nodes[v], steps[i], v)
    ensures v in cs[i + 1].nodes && InStep(ws[i + 1], cs[i + 1].nodes[v], At(lives[v], i + 1))
    ensures forall y :: lives[v].pos[i] <= y <= lives[v].pos[i + 1] ==> L.Follows(lives[v].rs[y]) && lives[v].rs[y].log == At(lives[v], i).log
  {
    hide Served, Explains, Good, Tracks, Grows, L.Follows, C.Do, CommittedBy, Fair, Advances, L.IsLife;
    ServedAt(cs, steps, base, lives, ws, i, v);
    var f := lives[v];
    LifeShape(f, |steps|);
    forall y | f.pos[i] <= y <= f.pos[i + 1]
      ensures L.Follows(f.rs[y]) && f.rs[y].log == At(f, i).log && f.rs[y].applied == At(f, i).applied
    {
      MinorsFollow(f, |steps|, f.pos[i], y);
    }
    CommittedGrows(ws[i].history, ws[i + 1].history, At(f, i).log, cs[i].nodes[v].term, cs[i + 1].nodes[v].term);
  }

  lemma LifeShape(f: Life, n: nat)
    requires WellShaped(f, n)
    ensures |f.rs| == |f.hs| + 1 && |f.answers| == |f.values| == |f.hs|
  {
    hide L.Next;
  }

  // The event of a step and what surrounds it.
  lemma EventHappens(cs: seq<C.Cluster>, steps: seq<C.Step>, base: set<NodeId>, lives: map<NodeId, Life>, ws: seq<World>, i: nat, v: NodeId)
    requires Served(cs, steps, base, lives) && Explains(ws, cs, steps) && i < |steps| < |cs| == |ws| && v in cs[i].nodes
    requires v in lives && WellShaped(lives[v], |steps|) && InStep(ws[i], cs[i].nodes[v], At(lives[v], i)) && Advances(cs[i].nodes[v], steps[i], v)
    ensures v in cs[i + 1].nodes && InStep(ws[i + 1], cs[i + 1].nodes[v], At(lives[v], i + 1))
    ensures
      var f := lives[v];
      && f.pos[i] <= f.at[i] < f.pos[i + 1] <= |f.hs| < |f.rs| && |f.answers| == |f.values| == |f.hs|
      && EventIs(ws[i + 1], cs[i].nodes[v], cs[i + 1].nodes[v], f, i)
      && Stands(cs, steps, lives, i, v, f.hs[f.at[i]])
      && (forall y :: f.pos[i] <= y <= f.at[i] ==> L.Follows(f.rs[y]) && f.rs[y].log == At(f, i).log)
      && (forall y :: f.at[i] < y <= f.pos[i + 1] ==> L.Follows(f.rs[y]) && f.rs[y].log == At(f, i + 1).log && f.rs[y].log == f.rs[f.at[i] + 1].log)
    decreases i
  {
    hide Served, Explains, Good, Tracks, Grows, L.Follows, L.AnswerFollows, C.Do, C.Enabled, CommittedBy, Fair, Advances, L.IsLife, L.Logs, L.LogAfter, SentAt, L.Next,
      ApplyEntry;
    ServedAt(cs, steps, base, lives, ws, i, v);
    var f := lives[v];
    LifeShape(f, |steps|);
    EventShape(cs, steps, lives, i, v);
    var x, b := f.at[i], 0;
    if steps[i].FinishInstall? {
      b :| 0 <= b < i && Dumped(cs, steps, lives, b, steps[i].task.request, f.hs[x].sender);
      DumpTerm(cs[b], steps[b], steps[i].task.request);
      SenderIs(cs[b], steps[b], steps[i].task.request);
      StaysInStep(cs, steps, base, lives, ws, b, steps[b].v);
    }
    EventInStep(cs, steps, base, lives, ws, i, v, b);
    forall y | f.pos[i] <= y <= x
      ensures L.Follows(f.rs[y]) && f.rs[y].log == At(f, i).log
    {
      MinorsFollow(f, |steps|, f.pos[i], y);
    }
    forall y | x < y <= f.pos[i + 1]
      ensures L.Follows(f.rs[y]) && f.rs[y].log == f.rs[x + 1].log && f.rs[y].applied == f.rs[x + 1].applied
    {
      MinorsFollow(f, |steps|, x + 1, y);
    }
  }

  lemma SenderIs(c: C.Cluster, s: C.Step, req: SnapshotRequest)
    requires SentAt(c, s, req)
    ensures s.SendSnapshot? && s.v == req.leader
  {
  }

  // At every moment of the run every replica is in step with its node.
  lemma {:induction false} StaysInStep(cs: seq<C.Cluster>, steps: seq<C.Step>, base: set<NodeId>, lives: map<NodeId, Life>, ws: seq<World>, i: nat, v: NodeId)
    requires Served(cs, steps, base, lives) && Explains(ws, cs, steps) && i < |cs| && v in cs[i].nodes
    ensures v in lives && WellShaped(lives[v], |steps|) && i < |ws| && InStep(ws[i], cs[i].nodes[v], At(lives[v], i))
    decreases i
  {
    hide Served, Explains, InStep, Segment, Fair, EventIs, Stands, C.Do, C.Enabled, Good, Tracks, Grows, Advances, L.IsLife;
    RunLength(cs, steps, base, lives, ws);
    if i == 0 {
      StartInStep(cs, steps, base, lives, ws[0], v);
    } else {
      ServedAt(cs, steps, base, lives, ws, i - 1, v);
      StaysInStep(cs, steps, base, lives, ws, i - 1, v);
      if Advances(cs[i - 1].nodes[v], steps[i - 1], v) {
        EventHappens(cs, steps, base, lives, ws, i - 1, v);
      } else {
        NothingHappens(cs, steps, base, lives, ws, i - 1, v);
      }
    }
  }

  lemma RunLength(cs: seq<C.Cluster>, steps: seq<C.Step>, base: set<NodeId>, lives: map<NodeId, Life>, ws: seq<World>)
    requires Served(cs, steps, base, lives) && Explains(ws, cs, steps)
    ensures |ws| == |cs| == |steps| + 1
  {
  }

  // ------------------------------------------------------------ One log

  // Two logs that were ever committed are the same as far as both reach.
  lemma Comparable(ws: seq<World>, cs: seq<C.Cluster>, steps: seq<C.Step>, i: nat, p: Log, t: nat, j: nat, q: Log, u: nat)
    requires Explains(ws, cs, steps) && i < |ws| && j < |ws|
    requires CommittedBy(ws[i].history, p, t) && CommittedBy(ws[j].history, q, u)
    ensures p <= q || q <= p
  {
    hide Sound, CommittedBy, Inv, Grows, Good, Moves;
    var k := Max(i, j);
    HistoryGrowsAlong(ws, cs, steps, i, k);
    HistoryGrowsAlong(ws, cs, steps, j, k);
    CommittedGrows(ws[i].history, ws[k].history, p, t, Max(t, u));
    CommittedGrows(ws[j].history, ws[k].history, q, u, Max(t, u));
    SoundAt(cs[k], ws[k]);
    CommittedComparable(ws[k].history, p, q, Max(t, u));
  }

  lemma SoundAt(c: C.Cluster, w: World)
    requires Inv(c, w)
    ensures Sound(w.history)
  {
    hide Sound, Good, NodesTracked, PacketGood, TaskGood;
    SoundOf(w);
  }

  // At any two moments of the run any two replicas agree with one log, as far as each
  // has come: the plain map with sessions, run on it.
  lemma ReplicasShareOneLog(cs: seq<C.Cluster>, steps: seq<C.Step>, base: set<NodeId>, lives: map<NodeId, Life>, i: nat, u: NodeId, j: nat, v: NodeId)
    requires i < |cs| && u in cs[i].nodes && j < |cs| && v in cs[j].nodes
    requires Served(cs, steps, base, lives)
    ensures u in lives && v in lives && WellShaped(lives[u], |steps|) && WellShaped(lives[v], |steps|) && |cs| == |steps| + 1
    ensures var r, s := At(lives[u], i), At(lives[v], j);
      && L.Follows(r) && L.Follows(s) && (r.log <= s.log || s.log <= r.log)
      && cs[i].nodes[u].lastApplied == r.applied <= |r.log| && cs[j].nodes[v].lastApplied == s.applied <= |s.log|
  {
    hide Served, Explains, L.Follows, CommittedBy, L.IsLife;
    var ws := Explained(cs, steps, base, lives);
    RunLength(cs, steps, base, lives, ws);
    StaysInStep(cs, steps, base, lives, ws, i, u);
    StaysInStep(cs, steps, base, lives, ws, j, v);
    Comparable(ws, cs, steps, i, At(lives[u], i).log, cs[i].nodes[u].term, j, At(lives[v], j).log, cs[j].nodes[v].term);
    AppliedWithin(At(lives[u], i));
    AppliedWithin(At(lives[v], j));
  }

  lemma Explained(cs: seq<C.Cluster>, steps: seq<C.Step>, base: set<NodeId>, lives: map<NodeId, Life>) returns (ws: seq<World>)
    requires Served(cs, steps, base, lives)
    ensures Explains(ws, cs, steps)
  {
    hide C.IsKnowingRun, Explains, WellShaped, Segment, Fair;
    ws := RunExplained(cs, steps, base);
  }

  // Within a step a replica has the log from before or after it, never less than its
  // node had applied.
  lemma WithinStep(cs: seq<C.Cluster>, steps: seq<C.Step>, base: set<NodeId>, lives: map<NodeId, Life>, ws: seq<World>, i: nat, v: NodeId, y: nat)
    requires Served(cs, steps, base, lives) && Explains(ws, cs, steps) && i < |steps| && i < |cs| && v in cs[i].nodes
    requires v in lives && WellShaped(lives[v], |steps|) && lives[v].pos[i] <= y <= lives[v].pos[i + 1]
    ensures |cs| == |ws| == |steps| + 1 && v in cs[i + 1].nodes && y < |lives[v].rs|
    ensures var r := lives[v].rs[y];
      L.Follows(r) && |r.log| >= cs[i].nodes[v].lastApplied && CommittedBy(ws[i + 1].history, r.log, cs[i + 1].nodes[v].term)
  {
    hide Served, Explains, L.Follows, CommittedBy, L.IsLife, Segment, Fair, Advances, Stands, L.Logs, L.AnswerFollows, L.LogAfter, Grows, Good, Tracks;
    RunLength(cs, steps, base, lives, ws);
    ServedAt(cs, steps, base, lives, ws, i, v);
    StaysInStep(cs, steps, base, lives, ws, i, v);
    LifeShape(lives[v], |steps|);
    AppliedWithin(At(lives[v], i));
    CommittedGrows(ws[i].history, ws[i + 1].history, At(lives[v], i).log, cs[i].nodes[v].term, cs[i + 1].nodes[v].term);
    if Advances(cs[i].nodes[v], steps[i], v) {
      EventHappens(cs, steps, base, lives, ws, i, v);
    } else {
      NothingHappens(cs, steps, base, lives, ws, i, v);
    }
  }

  // ------------------------------------------------------------ What propose returns

  // The answers that the applier of v puts into the slots.
  ghost predicate AnswersAre(steps: seq<C.Step>, f: Life, v: NodeId, answers: seq<PlainMaps.Answer>) {
    && |answers| == |steps| == |f.at|
    && forall a :: 0 <= a < |steps| && steps[a].Apply? && steps[a].v == v ==> f.at[a] < |f.answers| && answers[a] == f.answers[f.at[a]]
  }

  // From step i on v neither crashes nor installs a snapshot before moment j.
  ghost predicate Undisturbed(steps: seq<C.Step>, v: NodeId, i: nat, j: nat) {
    forall x :: i <= x < j && x < |steps| ==> steps[x] != C.Crash(v) && !(steps[x].FinishInstall? && steps[x].task.node == v)
  }

  // A leader's replica has nothing the leader's log lacks.
  lemma LeaderLogCovers(w: World, n: Node, r: L.Replica)
    requires Good(w) && Tracks(w, n) && n.role.Leader? && InStep(w, n, r)
    ensures |r.log| <= LastIndex(n)
  {
    hide Good, Tracks, L.Follows, CommittedBy, Sound;
    SoundOf(w);
    LeaderTermWon(w, n);
    if r.log != [] {
      CommittedInLeaderLog(w.history, r.log, n.term, n.term);
      LeaderHolds(w, n, r.log, |r.log|);
    }
  }

  // Undisturbed, a replica that has nothing above index k reaches k only by applying it.
  lemma {:induction false} NothingAhead(cs: seq<C.Cluster>, steps: seq<C.Step>, base: set<NodeId>, lives: map<NodeId, Life>, ws: seq<World>, v: NodeId, i: nat, j: nat, k: nat)
    requires Served(cs, steps, base, lives) && Explains(ws, cs, steps) && i <= j < |cs| == |steps| + 1 && v in cs[i].nodes
    requires v in lives && WellShaped(lives[v], |steps|) && |At(lives[v], i).log| <= k && Undisturbed(steps, v, i, j)
    ensures v in cs[j].nodes && |At(lives[v], j).log| <= Max(k, cs[j].nodes[v].lastApplied)
    decreases j
  {
    hide Served, Explains, L.Follows, CommittedBy, L.IsLife, Segment, Fair, Stands, L.AnswerFollows, Good, Tracks, Grows, C.Do, C.Enabled;
    if i < j {
      NothingAhead(cs, steps, base, lives, ws, v, i, j - 1, k);
      ServedAt(cs, steps, base, lives, ws, j - 1, v);
      StaysInStep(cs, steps, base, lives, ws, j - 1, v);
      LifeShape(lives[v], |steps|);
      if Advances(cs[j - 1].nodes[v], steps[j - 1], v) {
        EventHappens(cs, steps, base, lives, ws, j - 1, v);
        ApplyLogs(cs, steps, lives, j - 1, v, lives[v].hs[lives[v].at[j - 1]]);
      } else {
        NothingHappens(cs, steps, base, lives, ws, j - 1, v);
      }
    }
  }

  lemma ApplyLogs(cs: seq<C.Cluster>, steps: seq<C.Step>, lives: map<NodeId, Life>, i: nat, v: NodeId, h: L.Happening)
    requires i < |steps| < |cs| && v in cs[i].nodes && Stands(cs, steps, lives, i, v, h)
    ensures steps[i].Apply? ==> L.Logs(h) && cs[i].nodes[v].snapIndex <= cs[i].nodes[v].lastApplied < cs[i].nodes[v].commitIndex <= LastIndex(cs[i].nodes[v]) && h.e == ApplyEntry(cs[i].nodes[v])
  {
    hide SentAt, EntryAt;
  }

  // propose, called at step i, has a result of its own at moment j.
  ghost predicate Returned(cs: seq<C.Cluster>, steps: seq<C.Step>, slots: seq<map<nat, Waiters.Slot>>, w: NodeId, i: nat, j: nat, result: PlainMaps.Answer) {
    && i < |steps| && i < j < |slots| && |cs| == |steps| + 1 && steps[i].ClientWrite? && steps[i].v == w && w in cs[i].nodes
    && var k := LastIndex(cs[i].nodes[w]) + 1;
    k in slots[j] && slots[j][k] == Done(cs[i].nodes[w].term, result)
  }

  predicate IsWrite(cs: seq<C.Cluster>, steps: seq<C.Step>, i: nat) {
    i < |steps| < |cs| && steps[i].ClientWrite? && steps[i].v in cs[i].nodes
  }

  // The entry that was proposed at step i.
  function Proposed(cs: seq<C.Cluster>, steps: seq<C.Step>, i: nat): Entry
    requires IsWrite(cs, steps, i)
  {
    NextEntry(cs[i].nodes[steps[i].v], Run(steps[i].op), steps[i].username, steps[i].request)
  }

  // p is a committed log that ends with the proposal, and the result is its answer.
  ghost predicate Answered(cs: seq<C.Cluster>, steps: seq<C.Step>, i: nat, result: PlainMaps.Answer, p: Log)
    requires IsWrite(cs, steps, i)
  {
    var e := Proposed(cs, steps, i);
    && |p| == e.index >= 1 && p[|p| - 1] == e
    && result == Sessions.AnswerAt(Sessions.NEW, p, |p| - 1, Some(StateMachines.MAX_SESSIONS))
  }

  // The step that applied the proposal.
  lemma AppliedBy(cs: seq<C.Cluster>, steps: seq<C.Step>, base: set<NodeId>,
                  w: NodeId, answers: seq<PlainMaps.Answer>, slots: seq<map<nat, Waiters.Slot>>, i: nat, j: nat, result: PlainMaps.Answer) returns (a: nat)
    requires C.IsKnowingRun(cs, steps, base) && AreSlots(cs, steps, w, answers, slots) && Returned(cs, steps, slots, w, i, j, result)
    ensures i < a < j && a < |steps| == |answers| && steps[a].Apply? && steps[a].v == w && C.Enabled(cs[a], steps[a]) && w in cs[a].nodes
    ensures var n := cs[a].nodes[w];
      && n.snapIndex <= n.lastApplied < n.commitIndex <= LastIndex(n) && n.lastApplied == LastIndex(cs[i].nodes[w])
      && ApplyEntry(n) == Proposed(cs, steps, i) && result == answers[a]
  {
    hide C.IsKnowingRun, ApplyEntry, NextEntry;
    a := ReturnedIsApplied(cs, steps, base, w, answers, slots, i, j);
  }

  // It is new to the replica.
  lemma ProposalIsNew(cs: seq<C.Cluster>, steps: seq<C.Step>, base: set<NodeId>, lives: map<NodeId, Life>, ws: seq<World>, w: NodeId, i: nat, a: nat)
    requires Served(cs, steps, base, lives) && Explains(ws, cs, steps) && i <= a < |steps| && i < |cs|
    requires steps[i].ClientWrite? && steps[i].v == w && w in cs[i].nodes && Undisturbed(steps, w, i, a)
    ensures |cs| == |ws| == |steps| + 1 && w in lives && WellShaped(lives[w], |steps|) && w in cs[a].nodes
    ensures |At(lives[w], a).log| <= Max(LastIndex(cs[i].nodes[w]), cs[a].nodes[w].lastApplied)
  {
    hide Served, Explains, CommittedBy, L.IsLife, L.Follows, Segment, Fair, Good, Tracks, Grows, C.Do, C.Enabled;
    RunLength(cs, steps, base, lives, ws);
    ServedAt(cs, steps, base, lives, ws, i, w);
    StaysInStep(cs, steps, base, lives, ws, i, w);
    IsLeader(cs[i], steps[i]);
    LeaderLogCovers(ws[i], cs[i].nodes[w], At(lives[w], i));
    NothingAhead(cs, steps, base, lives, ws, w, i, a, LastIndex(cs[i].nodes[w]));
  }

  // One call of propose at node w and what it returned, undisturbed.
  ghost predicate Call(cs: seq<C.Cluster>, steps: seq<C.Step>, lives: map<NodeId, Life>, w: NodeId, i: nat, j: nat, result: PlainMaps.Answer) {
    exists answers, slots ::
      && AreSlots(cs, steps, w, answers, slots) && w in lives && AnswersAre(steps, lives[w], w, answers)
      && Returned(cs, steps, slots, w, i, j, result) && Undisturbed(steps, w, i, j)
  }

  // At step a node w applied the last entry of p, a committed log.
  ghost predicate LeftAt(cs: seq<C.Cluster>, ws: seq<World>, a: nat, w: NodeId, p: Log) {
    && a + 1 < |cs| == |ws| && w in cs[a].nodes && w in cs[a + 1].nodes
    && |p| <= cs[a].nodes[w].commitIndex && CommittedBy(ws[a + 1].history, p, cs[a + 1].nodes[w].term)
  }

  // The log that the proposal's application left behind answers it.
  lemma ProposeIsAnswered(cs: seq<C.Cluster>, steps: seq<C.Step>, base: set<NodeId>, lives: map<NodeId, Life>, ws: seq<World>,
                          w: NodeId, i: nat, j: nat, result: PlainMaps.Answer) returns (a: nat, p: Log)
    requires Served(cs, steps, base, lives) && Explains(ws, cs, steps) && Call(cs, steps, lives, w, i, j, result)
    ensures i < a < j && LeftAt(cs, ws, a, w, p)
    ensures IsWrite(cs, steps, i) && Answered(cs, steps, i, result, p)
  {
    hide Served, Explains, CommittedBy, L.IsLife, C.Enabled, AreSlots, C.IsKnowingRun, ApplyEntry, Sessions.AnswerAt, LastIndex, Proposed, Undisturbed, Answered,
      AnswersAre;
    var answers, slots :|
      && AreSlots(cs, steps, w, answers, slots) && w in lives && AnswersAre(steps, lives[w], w, answers)
      && Returned(cs, steps, slots, w, i, j, result) && Undisturbed(steps, w, i, j);
    RunLength(cs, steps, base, lives, ws);
    IsKnowing(cs, steps, base, lives);
    SlotsLength(cs, steps, w, answers, slots);
    a := AppliedBy(cs, steps, base, w, answers, slots, i, j, result);
    Sooner(steps, w, i, a, j);
    ProposalIsNew(cs, steps, base, lives, ws, w, i, a);
    p := AnswersNew(cs, steps, base, lives, ws, w, a, LastIndex(cs[i].nodes[w]) + 1);
    AnswerOf(steps, lives[w], w, answers, a);
    IsAnswered(cs, steps, i, result, p);
  }

  lemma SlotsLength(cs: seq<C.Cluster>, steps: seq<C.Step>, w: NodeId, answers: seq<PlainMaps.Answer>, slots: seq<map<nat, Waiters.Slot>>)
    requires AreSlots(cs, steps, w, answers, slots)
    ensures |slots| == |steps| + 1 == |cs|
  {
  }

  lemma Sooner(steps: seq<C.Step>, w: NodeId, i: nat, a: nat, j: nat)
    requires a <= j <= |steps| && Undisturbed(steps, w, i, j)
    ensures Undisturbed(steps, w, i, a)
  {
  }

  lemma AnswerOf(steps: seq<C.Step>, f: Life, v: NodeId, answers: seq<PlainMaps.Answer>, a: nat)
    requires AnswersAre(steps, f, v, answers) && a < |steps| && steps[a].Apply? && steps[a].v == v
    ensures a < |answers| && a < |f.at| && f.at[a] < |f.answers| && answers[a] == f.answers[f.at[a]]
  {
  }

  lemma IsAnswered(cs: seq<C.Cluster>, steps: seq<C.Step>, i: nat, result: PlainMaps.Answer, p: Log)
    requires IsWrite(cs, steps, i)
    requires |p| == LastIndex(cs[i].nodes[steps[i].v]) + 1 && p[|p| - 1] == Proposed(cs, steps, i)
    requires result == Sessions.AnswerAt(Sessions.NEW, p, |p| - 1, Some(StateMachines.MAX_SESSIONS))
    ensures Answered(cs, steps, i, result, p)
  {
    hide Sessions.AnswerAt;
  }

  lemma IsKnowing(cs: seq<C.Cluster>, steps: seq<C.Step>, base: set<NodeId>, lives: map<NodeId, Life>)
    requires Served(cs, steps, base, lives)
    ensures C.IsKnowingRun(cs, steps, base)
  {
    hide C.IsKnowingRun, WellShaped, Segment, Fair;
  }

  lemma IsLeader(c: C.Cluster, s: C.Step)
    requires C.Enabled(c, s) && s.ClientWrite?
    ensures s.v in c.nodes && c.nodes[s.v].role.Leader?
  {
  }

  // At step a node w applies its entry k, which its replica does not reflect yet.
  ghost predicate AppliesNew(cs: seq<C.Cluster>, steps: seq<C.Step>, lives: map<NodeId, Life>, w: NodeId, a: nat, k: nat) {
    && a < |steps| < |cs| && w in cs[a].nodes && w in lives && a < |lives[w].pos| && lives[w].pos[a] < |lives[w].rs|
    && steps[a].Apply? && steps[a].v == w && C.Enabled(cs[a], steps[a])
    && cs[a].nodes[w].lastApplied + 1 == k && |At(lives[w], a).log| < k
  }

  // The answer of that step is the answer of p, a log that ends with the entry.
  ghost predicate AnswersLog(n: Node, f: Life, a: nat, p: Log) {
    && n.snapIndex <= n.lastApplied < n.commitIndex <= LastIndex(n) && |p| == n.lastApplied + 1 && p[|p| - 1] == ApplyEntry(n)
    && a < |f.at| && f.at[a] < |f.answers|
    && f.answers[f.at[a]] == Sessions.AnswerAt(Sessions.NEW, p, |p| - 1, Some(StateMachines.MAX_SESSIONS))
  }

  // An entry that is new to the replica gets the answer of the log it extends.
  lemma AnswersNew(cs: seq<C.Cluster>, steps: seq<C.Step>, base: set<NodeId>, lives: map<NodeId, Life>, ws: seq<World>, w: NodeId, a: nat, k: nat) returns (p: Log)
    requires Served(cs, steps, base, lives) && Explains(ws, cs, steps) && AppliesNew(cs, steps, lives, w, a, k)
    ensures w in lives && w in cs[a].nodes && AnswersLog(cs[a].nodes[w], lives[w], a, p) && LeftAt(cs, ws, a, w, p)
  {
    hide Served, Explains, L.Follows, CommittedBy, L.IsLife, Segment, Fair, Good, Tracks, Grows, C.Do, ApplyEntry, EntryAt, Sessions.AnswerAt, Stands;
    RunLength(cs, steps, base, lives, ws);
    ServedAt(cs, steps, base, lives, ws, a, w);
    StaysInStep(cs, steps, base, lives, ws, a, w);
    EventHappens(cs, steps, base, lives, ws, a, w);
    var f := lives[w];
    ApplyLogs(cs, steps, lives, a, w, f.hs[f.at[a]]);
    AppliedWithin(At(f, a));
    p := f.rs[f.at[a] + 1].log;
  }

  // ------------------------------------------------------------ Linearizable service

  // A read that begins at leader v at moment j, takes its index at m and has its majority
  // at k, in one term and one life of the leader.
  ghost predicate Barrier(cs: seq<C.Cluster>, steps: seq<C.Step>, v: NodeId, j: nat, m: nat, k: nat) {
    && j <= m <= k < |cs| && |steps| + 1 == |cs|
    && v in cs[j].nodes && cs[j].nodes[v].role.Leader?
    && v in cs[m].nodes && cs[m].nodes[v].commitIndex >= cs[m].nodes[v].termStart
    && v in cs[k].nodes && cs[k].nodes[v].term == cs[j].nodes[v].term
    && |Ackers(cs[k].nodes[v], cs[j].nodes[v].sendSeq)| >= Majority(cs[k].nodes[v])
    && forall x :: j <= x < k ==> steps[x] != C.Crash(v)
  }

  // Node u, which has applied at least up to the index, reads its state machine: event y
  // of its life, during step q.
  ghost predicate ReadsBehind(cs: seq<C.Cluster>, steps: seq<C.Step>, lives: map<NodeId, Life>, index: nat, u: NodeId, q: nat, y: nat) {
    && q < |steps| < |cs| && u in cs[q].nodes && cs[q].nodes[u].lastApplied >= index
    && u in lives && WellShaped(lives[u], |steps|) && lives[u].pos[q] <= y < lives[u].pos[q + 1]
    && y < |lives[u].hs| && lives[u].hs[y].LocalRead?
  }

  // The log holds the write, and the result is what the plain map answered to it there.
  ghost predicate Acknowledges(cs: seq<C.Cluster>, steps: seq<C.Step>, i: nat, result: PlainMaps.Answer, l: Log) {
    && IsWrite(cs, steps, i)
    && var e := Proposed(cs, steps, i);
    && 1 <= e.index <= |l| && l[e.index - 1] == e
    && result == Sessions.AnswerAt(Sessions.NEW, l, e.index - 1, Some(StateMachines.MAX_SESSIONS))
  }

  lemma LongerLogExplains(cs: seq<C.Cluster>, steps: seq<C.Step>, i: nat, result: PlainMaps.Answer, p: Log, l: Log)
    requires IsWrite(cs, steps, i) && Answered(cs, steps, i, result, p) && p <= l
    ensures Acknowledges(cs, steps, i, result, l)
  {
    hide Sessions.Process, Sessions.Apply, Proposed;
    assert l[..|p| - 1] == p[..|p| - 1];
  }

  lemma BarrierCovers(cs: seq<C.Cluster>, steps: seq<C.Step>, base: set<NodeId>, ws: seq<World>, v: NodeId, j: nat, m: nat, k: nat, a: nat, w: NodeId, p: Log)
    requires C.IsKnowingRun(cs, steps, base) && Barrier(cs, steps, v, j, m, k) && a <= j && LeftAt(cs, ws, a, w, p)
    ensures |p| <= cs[m].nodes[v].commitIndex
  {
    hide C.IsKnowingRun, CommittedBy, Ackers;
    ReadIndexIsCurrent(cs, steps, base, j, m, k, v, a, w);
  }

  // The value read is that of the plain map at the log the replica reflects.
  lemma ReadIsRight(cs: seq<C.Cluster>, steps: seq<C.Step>, base: set<NodeId>, lives: map<NodeId, Life>, ws: seq<World>, index: nat, u: NodeId, q: nat, y: nat)
    requires Served(cs, steps, base, lives) && Explains(ws, cs, steps) && ReadsBehind(cs, steps, lives, index, u, q, y)
    ensures u in lives && y < |lives[u].hs| < |lives[u].rs| && |lives[u].values| == |lives[u].hs| && lives[u].hs[y].LocalRead?
    ensures var r, h := lives[u].rs[y], lives[u].hs[y];
      L.ReadFollows(r, h.user, h.key, h.now, lives[u].values[y]) && |r.log| >= index
    ensures |ws| == |cs| == |steps| + 1 && u in cs[q + 1].nodes && CommittedBy(ws[q + 1].history, lives[u].rs[y].log, cs[q + 1].nodes[u].term)
  {
    hide Served, Explains, CommittedBy, L.Follows, L.ReadFollows, L.Next;
    WithinStep(cs, steps, base, lives, ws, q, u, y);
    var f := lives[u];
    LifeShape(f, |steps|);
    assert L.Next(f.rs[y], f.hs[y], f.rs[y + 1], f.answers[y], f.values[y]);
    ReadFollowsLog(f.rs[y], f.hs[y], f.rs[y + 1], f.answers[y], f.values[y]);
  }

  lemma ReadFollowsLog(r: L.Replica, h: L.Happening, s: L.Replica, a: PlainMaps.Answer, value: Option<string>)
    requires L.Follows(r) && L.Next(r, h, s, a, value) && h.LocalRead?
    ensures L.ReadFollows(r, h.user, h.key, h.now, value)
  {
    hide L.Follows, L.Next, L.ReadFollows;
    L.StepFollows(r, h, s, a, value);
  }

  // The service is linearizable: a read behind the barrier, at any node, returns what the
  // plain map holds after some log; and for every write that was acknowledged before the
  // read began, that log contains the write, and what propose returned was the plain
  // map's answer to it in that same log.
  lemma ReadsSeeAcknowledgedWrites(cs: seq<C.Cluster>, steps: seq<C.Step>, base: set<NodeId>, lives: map<NodeId, Life>,
                                   w: NodeId, i: nat, t: nat, result: PlainMaps.Answer,
                                   v: NodeId, j: nat, m: nat, k: nat, u: NodeId, q: nat, y: nat)
    requires Served(cs, steps, base, lives)
    requires Call(cs, steps, lives, w, i, t, result) && t <= j
    requires Barrier(cs, steps, v, j, m, k) && k <= q && ReadsBehind(cs, steps, lives, cs[m].nodes[v].commitIndex, u, q, y)
    ensures u in lives && y < |lives[u].hs| < |lives[u].rs| && |lives[u].values| == |lives[u].hs| && lives[u].hs[y].LocalRead?
    ensures var r, h := lives[u].rs[y], lives[u].hs[y];
      L.ReadFollows(r, h.user, h.key, h.now, lives[u].values[y]) && Acknowledges(cs, steps, i, result, r.log)
  {
    hide Served, Explains, CommittedBy, Call, L.ReadFollows, Answered, Acknowledges, WellShaped, IsWrite;
    var ws := Explained(cs, steps, base, lives);
    IsKnowing(cs, steps, base, lives);
    hide C.IsKnowingRun;
    var a, p := ProposeIsAnswered(cs, steps, base, lives, ws, w, i, t, result);
    BarrierCovers(cs, steps, base, ws, v, j, m, k, a, w, p);
    ReadIsRight(cs, steps, base, lives, ws, cs[m].nodes[v].commitIndex, u, q, y);
    var l := lives[u].rs[y].log;
    Comparable(ws, cs, steps, a + 1, p, cs[a + 1].nodes[w].term, q + 1, l, cs[q + 1].nodes[u].term);
    LongerLogExplains(cs, steps, i, result, p, l);
  }
}
