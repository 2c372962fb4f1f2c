// Stretches of a run: step after step, without a crash, from one cluster to another.
// Concrete runs are put together from them.
module Stretches {
  import opened Types
  import opened Nodes
  import C = Clusters

  ghost predicate Leads(c: C.Cluster, s: C.Step, d: C.Cluster) {
    C.Enabled(c, s) && d == C.Do(c, s)
  }

  // A stretch of a run, given by its clusters and steps.
  ghost predicate Stretch(cs: seq<C.Cluster>, steps: seq<C.Step>) {
    && |cs| == |steps| + 1
    && forall i :: 0 <= i < |steps| ==> Leads(cs[i], steps[i], cs[i + 1])
  }

  ghost predicate NoCrash(steps: seq<C.Step>) {
    forall i :: 0 <= i < |steps| ==> !steps[i].Crash?
  }

  ghost predicate Joins(cs: seq<C.Cluster>, steps: seq<C.Step>, c: C.Cluster, d: C.Cluster) {
    Stretch(cs, steps) && NoCrash(steps) && cs[0] == c && cs[|steps|] == d
  }

  ghost predicate Reaches(c: C.Cluster, d: C.Cluster) {
    exists cs, steps :: Joins(cs, steps, c, d)
  }

  lemma Join(a: seq<C.Cluster>, s: seq<C.Step>, b: seq<C.Cluster>, t: seq<C.Step>, c: C.Cluster, d: C.Cluster, e: C.Cluster)
    requires Joins(a, s, c, d) && Joins(b, t, d, e)
    ensures Joins(a + b[1..], s + t, c, e)
    ensures forall i :: 0 <= i < |a| ==> (a + b[1..])[i] == a[i]
  {
    hide Leads;
    var x := a + b[1..];
    forall i | 0 <= i < |s + t|
      ensures Leads(x[i], (s + t)[i], x[i + 1])
    {
      if i >= |s| {
        assert x[i] == b[i - |s|] && x[i + 1] == b[i - |s| + 1];
      }
    }
  }

  lemma Stay(c: C.Cluster)
    ensures Reaches(c, c)
  {
    assert Joins([c], [], c, c);
  }

  lemma Then(c: C.Cluster, d: C.Cluster, e: C.Cluster)
    requires Reaches(c, d) && Reaches(d, e)
    ensures Reaches(c, e)
  {
    hide Leads, NoCrash;
    var cs, s :| Joins(cs, s, c, d);
    var ds, t :| Joins(ds, t, d, e);
    Join(cs, s, ds, t, c, d, e);
    assert Joins(cs + ds[1..], s + t, c, e);
  }

  lemma Once(c: C.Cluster, s: C.Step)
    requires C.Enabled(c, s) && !s.Crash?
    ensures Reaches(c, C.Do(c, s))
  {
    OneStep(c, s, C.Do(c, s));
  }

  lemma OneStep(c: C.Cluster, s: C.Step, d: C.Cluster)
    requires Leads(c, s, d) && !s.Crash?
    ensures Joins([c, d], [s], c, d)
  {
    hide C.Enabled, C.Do;
  }

  lemma StretchIsRun(cs: seq<C.Cluster>, steps: seq<C.Step>, base: set<NodeId>)
    requires Stretch(cs, steps) && C.Init(cs[0], base)
    ensures C.IsRun(cs, steps, base)
  {
    hide C.Init, C.Do, C.Enabled;
    forall i | 0 <= i < |steps|
      ensures C.Enabled(cs[i], steps[i]) && cs[i + 1] == C.Do(cs[i], steps[i])
    {
      assert Leads(cs[i], steps[i], cs[i + 1]);
    }
  }

  // ------------------------------------------------------------ Helpers of concrete runs

  lemma {:induction false} NothingToCommit(n: Node, i: nat)
    requires i <= LastIndex(n) && forall k :: n.commitIndex < k <= i ==> |Replicas(n, k)| < Majority(n)
    ensures CommitScan(n, i) == n.commitIndex
  {
    if i > n.commitIndex && NodeTermAt(n, i) == Some(n.term) {
      NothingToCommit(n, i - 1);
    }
  }

  // Some of the others make a majority with the node itself.
  lemma {:induction false} OfSize(s: set<NodeId>, k: nat) returns (q: set<NodeId>)
    requires k <= |s|
    ensures q <= s && |q| == k
    decreases |s|
  {
    if k == |s| {
      q := s;
    } else {
      var x :| x in s;
      q := OfSize(s - {x}, k);
    }
  }
}
