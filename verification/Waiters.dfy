// What a client is told: propose() waits in a slot under the index of its entry, the
// applier fills the slot, and the result is returned only if the applied term is the
// proposal's own.
module Waiters {
  import opened Types
  import opened Nodes
  import opened PlainMaps
  import opened Leading
  import opened ClusterInvariant
  import opened RaftSafety
  import C = Clusters

  datatype Slot = Pending | Done(term: nat, result: Answer)

  // The slots of node v after a step; answer is what the state machine returned if the
  // step applied an entry. A later proposal at the same index starts the slot anew.
  function SlotsAfter(slots: map<nat, Slot>, c: C.Cluster, s: C.Step, v: NodeId, answer: Answer): map<nat, Slot>
    requires C.Enabled(c, s)
  {
    if (s.ClientWrite? || s.AddMember? || s.RemoveMember?) && s.v == v then slots[LastIndex(c.nodes[v]) + 1 := Pending]
    else if s.Apply? && s.v == v && c.nodes[v].lastApplied + 1 in slots then
      slots[c.nodes[v].lastApplied + 1 := Done(ApplyEntry(c.nodes[v]).term, answer)]
    else slots
  }

  // Some waiters have left: they returned, gave up, or died in a crash.
  ghost predicate Fewer(less: map<nat, Slot>, more: map<nat, Slot>) {
    forall k :: k in less ==> k in more && less[k] == more[k]
  }

  ghost predicate SlotStep(cs: seq<C.Cluster>, steps: seq<C.Step>, v: NodeId, answers: seq<Answer>, slots: seq<map<nat, Slot>>, i: nat)
    requires |cs| == |slots| == |steps| + 1 && |answers| == |steps| && i < |steps|
  {
    C.Enabled(cs[i], steps[i]) && Fewer(slots[i + 1], SlotsAfter(slots[i], cs[i], steps[i], v, answers[i]))
  }

  // The slots of node v along a run.
  ghost predicate AreSlots(cs: seq<C.Cluster>, steps: seq<C.Step>, v: NodeId, answers: seq<Answer>, slots: seq<map<nat, Slot>>) {
    && |cs| == |slots| == |steps| + 1 && |answers| == |steps|
    && slots[0] == map[]
    && forall i :: 0 <= i < |steps| ==> SlotStep(cs, steps, v, answers, slots, i)
  }

  // Step a of v applied the entry at index k, with this term and answer.
  ghost predicate AppliedAt(cs: seq<C.Cluster>, steps: seq<C.Step>, v: NodeId, answers: seq<Answer>, a: nat, k: nat, done: Slot)
    requires |cs| == |steps| + 1 && |answers| == |steps|
  {
    && a < |steps| && steps[a].Apply? && steps[a].v == v && C.Enabled(cs[a], steps[a])
    && cs[a].nodes[v].lastApplied + 1 == k && done == Done(ApplyEntry(cs[a].nodes[v]).term, answers[a])
  }

  // A filled slot was filled by the applier, and not started anew since.
  lemma {:induction false} FilledByApplier(cs: seq<C.Cluster>, steps: seq<C.Step>, v: NodeId, answers: seq<Answer>, slots: seq<map<nat, Slot>>, j: nat, k: nat)
    returns (a: nat)
    requires AreSlots(cs, steps, v, answers, slots) && j < |slots| && k in slots[j] && slots[j][k].Done?
    ensures a < j && AppliedAt(cs, steps, v, answers, a, k, slots[j][k])
    ensures forall b :: a < b <= j ==> k in slots[b] && slots[b][k] == slots[j][k]
    decreases j
  {
    hide C.Enabled, ApplyEntry;
    assert SlotStep(cs, steps, v, answers, slots, j - 1);
    if k in slots[j - 1] && slots[j - 1][k] == slots[j][k] && !AppliedAt(cs, steps, v, answers, j - 1, k, slots[j][k]) {
      a := FilledByApplier(cs, steps, v, answers, slots, j - 1, k);
    } else {
      a := j - 1;
    }
  }

  // A proposal starts its slot.
  lemma ProposalStarts(cs: seq<C.Cluster>, steps: seq<C.Step>, v: NodeId, answers: seq<Answer>, slots: seq<map<nat, Slot>>, i: nat)
    requires AreSlots(cs, steps, v, answers, slots) && i < |steps| && steps[i].ClientWrite? && steps[i].v == v
    ensures v in cs[i].nodes
    ensures var k := LastIndex(cs[i].nodes[v]) + 1; k in slots[i + 1] ==> slots[i + 1][k] == Pending
  {
    hide ApplyEntry;
    assert SlotStep(cs, steps, v, answers, slots, i);
  }

  // The applier fills the slot of whoever still waits at the index it applied.
  lemma SlotIsFilled(cs: seq<C.Cluster>, steps: seq<C.Step>, v: NodeId, answers: seq<Answer>, slots: seq<map<nat, Slot>>, a: nat)
    requires AreSlots(cs, steps, v, answers, slots) && a < |steps| && steps[a].Apply? && steps[a].v == v
    ensures v in cs[a].nodes && cs[a].nodes[v].snapIndex <= cs[a].nodes[v].lastApplied < cs[a].nodes[v].commitIndex <= LastIndex(cs[a].nodes[v])
    ensures var k := cs[a].nodes[v].lastApplied + 1;
      k in slots[a + 1] ==> k in slots[a] && slots[a + 1][k] == Done(ApplyEntry(cs[a].nodes[v]).term, answers[a])
  {
    hide ApplyEntry;
    assert SlotStep(cs, steps, v, answers, slots, a);
  }

  // Acknowledged writes are committed writes: the result that propose() may return, for
  // the entry it appended at step i, is the state machine's answer to exactly that
  // entry, which this node applied at its index after it was committed.
  lemma ReturnedIsApplied(cs: seq<C.Cluster>, steps: seq<C.Step>, base: set<NodeId>, v: NodeId, answers: seq<Answer>, slots: seq<map<nat, Slot>>,
                          i: nat, j: nat) returns (a: nat)
    requires AreSlots(cs, steps, v, answers, slots) && i < |steps| && i < j < |slots|
    requires steps[i].ClientWrite? && steps[i].v == v && v in cs[i].nodes
    requires
      var k := LastIndex(cs[i].nodes[v]) + 1;
      k in slots[j] && slots[j][k].Done? && slots[j][k].term == cs[i].nodes[v].term
    requires C.IsKnowingRun(cs, steps, base)
    ensures
      var n := cs[i].nodes[v];
      && i < a < j && AppliedAt(cs, steps, v, answers, a, LastIndex(n) + 1, slots[j][LastIndex(n) + 1])
      && ApplyEntry(cs[a].nodes[v]) == NextEntry(n, Run(steps[i].op), steps[i].username, steps[i].request)
      && slots[j][LastIndex(n) + 1].result == answers[a]
  {
    hide C.IsKnowingRun, C.Enabled, EntryAt, NodeTermAt;
    var n := cs[i].nodes[v];
    var k := LastIndex(n) + 1;
    a := FilledByApplier(cs, steps, v, answers, slots, j, k);
    ProposalStarts(cs, steps, v, answers, slots, i);
    AppliedFacts(cs, steps, v, answers, a, k, slots[j][k]);
    AcknowledgedWriteIsTheProposal(cs, steps, base, i, a, v);
  }

  lemma AppliedFacts(cs: seq<C.Cluster>, steps: seq<C.Step>, v: NodeId, answers: seq<Answer>, a: nat, k: nat, done: Slot)
    requires |cs| == |steps| + 1 && |answers| == |steps| && AppliedAt(cs, steps, v, answers, a, k, done)
    ensures v in cs[a].nodes && cs[a].nodes[v].snapIndex < k <= cs[a].nodes[v].commitIndex
    ensures EntryAt(cs[a].nodes[v], k) == Some(ApplyEntry(cs[a].nodes[v]))
    ensures NodeTermAt(cs[a].nodes[v], k) == Some(done.term)
    ensures done.result == answers[a]
  {
  }
}
