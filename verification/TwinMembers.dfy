// Two nodes with one whole log, compacted to different points, have the same members,
// and keep them in step through every change of the log.
module TwinMembers {
  import opened Types
  import opened Logs
  import opened Nodes
  import opened Compaction

  // n compacted further than o: its snapshot remembers the membership that o would
  // report for that index.
  ghost predicate SameMembers(n: Node, o: Node) {
    && n.members == o.members
    && n.snapConfig == ConfigAt(o, n.snapIndex)
    && (n.configIndex == o.configIndex || (n.configIndex <= n.snapIndex && o.configIndex <= n.snapIndex))
  }

  function Newest(l: Log, s: nat, i: nat, c: set<NodeId>): set<NodeId>
    requires i <= |l|
  {
    var k := NewestConfig(l[..i]);
    if k > s then l[k - 1].command.members else c
  }

  // What the scan for the membership at an index finds, said on the whole log.
  lemma {:induction false} ConfigUpToIs(l: Log, s: nat, m: nat, i: nat, c: set<NodeId>)
    requires WellFormed(l) && s <= m <= |l| && s <= i <= |l|
    ensures ConfigUpTo(l[s..m], i, c) == Newest(l, s, Min(m, i), c)
    decreases m
  {
    hide WellFormed;
    if s < m {
      assert l[s..m][|l[s..m]| - 1] == l[m - 1];
      assert l[s..m][..|l[s..m]| - 1] == l[s..m - 1];
      IndexOf(l, m - 1);
      ConfigUpToIs(l, s, m - 1, i, c);
      if m <= i {
        assert l[..m][..m - 1] == l[..m - 1];
      }
    }
  }

  lemma ConfigAtIs(base: set<NodeId>, n: Node, l: Log, i: nat)
    requires Stores(base, n, l) && WellFormed(l) && n.snapIndex <= i <= |l|
    ensures ConfigAt(n, i) == Newest(l, n.snapIndex, i, n.snapConfig)
  {
    hide NewestConfig, ConfigOf, WellFormed;
    assert l[n.snapIndex..|l|] == n.log;
    ConfigUpToIs(l, n.snapIndex, |l|, i, n.snapConfig);
  }

  lemma LatestIs(base: set<NodeId>, n: Node, l: Log)
    requires Stores(base, n, l) && WellFormed(l)
    ensures LatestConfig(n) ==
      var k := NewestConfig(l);
      if k > n.snapIndex then (k, l[k - 1].command.members) else (n.snapIndex, n.snapConfig)
  {
    hide NewestConfig, ConfigOf;
    NewestOfSuffix(l, n.snapIndex);
    var k := NewestConfig(l);
    if k > n.snapIndex {
      IndexOf(l, k - 1);
    }
  }

  // Looking the membership up again, both find the same.
  lemma RefreshSame(base: set<NodeId>, n: Node, o: Node, l: Log)
    requires Stores(base, n, l) && Stores(base, o, l) && WellFormed(l) && o.snapIndex <= n.snapIndex
    requires n.snapConfig == ConfigAt(o, n.snapIndex)
    ensures SameMembers(Refresh(n), Refresh(o))
  {
    hide NewestConfig, ConfigOf, LatestConfig, WellFormed, ConfigAt, Stores;
    StoresInside(base, n, l);
    ConfigAtIs(base, o, l, n.snapIndex);
    LatestIs(base, n, l);
    LatestIs(base, o, l);
    RefreshAt(o, n.snapIndex);
    if NewestConfig(l) <= n.snapIndex {
      NewestOfPrefix(l, n.snapIndex);
    }
  }

  lemma RefreshAt(o: Node, i: nat)
    ensures ConfigAt(Refresh(o), i) == ConfigAt(o, i)
  {
    hide LatestConfig;
  }

  // The membership at an index depends on the log up to there.
  lemma SameAt(base: set<NodeId>, o: Node, l: Log, p: Node, k: Log, i: nat)
    requires Stores(base, o, l) && Stores(base, p, k) && WellFormed(l) && WellFormed(k)
    requires p.snapIndex == o.snapIndex && p.snapConfig == o.snapConfig
    requires o.snapIndex <= i <= |l| && i <= |k| && l[..i] == k[..i]
    ensures ConfigAt(p, i) == ConfigAt(o, i)
  {
    hide NewestConfig, ConfigOf, WellFormed;
    ConfigAtIs(base, o, l, i);
    ConfigAtIs(base, p, k, i);
    var j := NewestConfig(l[..i]);
    assert j > 0 ==> l[j - 1] == l[..i][j - 1] == k[..i][j - 1] == k[j - 1];
  }

  lemma TruncateSame(base: set<NodeId>, n: Node, o: Node, l: Log, i: nat)
    requires Represents(base, n, l) && Represents(base, o, l) && WellFormed(l) && o.snapIndex <= n.snapIndex < i <= |l| + 1
    requires SameMembers(n, o)
    ensures LastIndex(n) == LastIndex(o) == |l|
    ensures SameMembers(TruncateLocal(n, i), TruncateLocal(o, i))
  {
    hide Represents, Stores, WellFormed, Refresh, ConfigAt;
    RepresentsStores(base, n, l);
    RepresentsStores(base, o, l);
    Queries(base, n, l);
    Queries(base, o, l);
    var x, y := n.(log := n.log[..i - n.snapIndex - 1]), o.(log := o.log[..i - o.snapIndex - 1]);
    CutStores(base, n, l, i);
    CutStores(base, o, l, i);
    PrefixWellFormed(l, i - 1);
    assert l[..i - 1][..n.snapIndex] == l[..n.snapIndex];
    SameAt(base, o, l, y, l[..i - 1], n.snapIndex);
    RefreshSame(base, x, y, l[..i - 1]);
  }

  lemma CutStores(base: set<NodeId>, n: Node, l: Log, i: nat)
    requires Stores(base, n, l) && n.snapIndex < i <= |l| + 1
    ensures LastIndex(n) == |l| && Stores(base, n.(log := n.log[..i - n.snapIndex - 1]), l[..i - 1])
  {
    hide ConfigOf;
    assert l[..i - 1][n.snapIndex..] == n.log[..i - n.snapIndex - 1];
    assert l[..i - 1][..n.snapIndex] == l[..n.snapIndex];
  }

  lemma AddStores(base: set<NodeId>, n: Node, l: Log, entries: seq<Entry>)
    requires Stores(base, n, l)
    ensures Stores(base, n.(log := n.log + entries), l + entries)
  {
    hide ConfigOf;
    assert (l + entries)[n.snapIndex..] == n.log + entries;
    assert (l + entries)[..n.snapIndex] == l[..n.snapIndex];
  }

  lemma AppendSame(base: set<NodeId>, n: Node, o: Node, l: Log, entries: seq<Entry>)
    requires Stores(base, n, l) && Stores(base, o, l) && WellFormed(l) && WellFormed(l + entries) && o.snapIndex <= n.snapIndex
    requires SameMembers(n, o)
    ensures SameMembers(AppendLocal(n, entries), AppendLocal(o, entries))
  {
    hide Stores, WellFormed, Refresh, ConfigAt;
    var x, y := n.(log := n.log + entries), o.(log := o.log + entries);
    AddStores(base, n, l, entries);
    AddStores(base, o, l, entries);
    StoresInside(base, n, l);
    assert (l + entries)[..n.snapIndex] == l[..n.snapIndex];
    SameAt(base, o, l, y, l + entries, n.snapIndex);
    RefreshSame(base, x, y, l + entries);
  }

  lemma StoresInside(base: set<NodeId>, n: Node, l: Log)
    requires Stores(base, n, l)
    ensures n.snapIndex <= |l|
  {
  }

  // ------------------------------------------------------------ Merging the same request

  // Where the log stops to agree with m, or last.
  ghost predicate StopsAt(l: Log, m: Log, last: nat, q: nat) {
    q <= last <= |m| && q <= |l| && l[..q] == m[..q] && (q < last ==> q == |l| || l[q].term != m[q].term)
  }

  lemma StopsOnce(l: Log, m: Log, last: nat, p: nat, q: nat)
    requires StopsAt(l, m, last, p) && StopsAt(l, m, last, q)
    ensures p == q
  {
    EqualBelow(l, m, p);
    EqualBelow(l, m, q);
  }

  lemma EqualBelow(l: Log, m: Log, q: nat)
    requires q <= |l| && q <= |m| && l[..q] == m[..q]
    ensures forall i :: 0 <= i < q ==> l[i] == m[i]
  {
    forall i | 0 <= i < q
      ensures l[i] == m[i]
    {
      assert l[i] == l[..q][i];
    }
  }

  // The merge, in terms of where the logs stop to agree.
  lemma MergeIs(base: set<NodeId>, n: Node, l: Log, m: Log, prev: nat, last: nat) returns (q: nat)
    requires Stores(base, n, l) && WellFormed(m) && Matching(l, m)
    requires n.snapIndex <= prev <= last <= |m| && prev <= |l| && l[..prev] == m[..prev]
    ensures prev <= q && StopsAt(l, m, last, q) && LastIndex(n) == |l|
    ensures Merge(n, m[prev..last]) ==
      if q == last then n
      else AppendLocal(if q < |l| then TruncateLocal(n, q + 1) else n, m[q..last])
  {
    hide Stores, Matching, NodeTermAt, WellFormed, AppendLocal, TruncateLocal, Known;
    KnownIsAgreement(base, n, l, m, prev, last);
    Queries(base, n, l);
    var entries := m[prev..last];
    var k := Known(n, entries);
    q := prev + k;
    if k < |entries| {
      assert entries[k] == m[q];
      assert entries[k..] == m[q..last];
      IndexOf(m, q);
    }
  }

  // Requests that reach equally far, or not beyond what n has compacted.
  lemma MergeSame(base: set<NodeId>, n: Node, o: Node, l: Log, m: Log, pn: nat, ln: nat, po: nat, lo: nat)
    requires Represents(base, n, l) && Represents(base, o, l) && WellFormed(l) && WellFormed(m) && Matching(l, m)
    requires o.snapIndex <= n.snapIndex <= pn <= ln <= |m| && o.snapIndex <= po <= lo <= ln
    requires pn <= |l| && po <= |l| && l[..pn] == m[..pn] && l[..po] == m[..po]
    requires lo == ln || ln == pn
    requires SameMembers(n, o)
    ensures SameMembers(Merge(n, m[pn..ln]), Merge(o, m[po..lo]))
  {
    hide Represents, Stores, Matching, NodeTermAt, WellFormed, AppendLocal, TruncateLocal, Known, Merge, SameMembers;
    RepresentsStores(base, n, l);
    RepresentsStores(base, o, l);
    var p := MergeIs(base, n, l, m, pn, ln);
    var q := MergeIs(base, o, l, m, po, lo);
    if lo == ln {
      StopsOnce(l, m, ln, p, q);
      if q < ln {
        MergeBoth(base, n, o, l, m, ln, q);
      }
    } else {
      assert l[..lo] == l[..pn][..lo] == m[..pn][..lo] == m[..lo];
      StopsOnce(l, m, lo, lo, q);
    }
  }

  lemma MergeBoth(base: set<NodeId>, n: Node, o: Node, l: Log, m: Log, last: nat, q: nat)
    requires Represents(base, n, l) && Represents(base, o, l) && WellFormed(l) && WellFormed(m) && SameMembers(n, o)
    requires o.snapIndex <= n.snapIndex <= q < last <= |m| && StopsAt(l, m, last, q)
    requires LastIndex(n) == LastIndex(o) == |l|
    ensures SameMembers(AppendLocal(if q < |l| then TruncateLocal(n, q + 1) else n, m[q..last]),
                        AppendLocal(if q < |l| then TruncateLocal(o, q + 1) else o, m[q..last]))
  {
    hide Represents, Stores, NodeTermAt, WellFormed, AppendLocal, TruncateLocal, SameMembers;
    RepresentsStores(base, n, l);
    RepresentsStores(base, o, l);
    PrefixWellFormed(m, last);
    PrefixWellFormed(l, q);
    assert m[..q] + m[q..last] == m[..last];
    if q < |l| {
      TruncateSame(base, n, o, l, q + 1);
      TruncateRepresents(base, n, l, q + 1);
      TruncateRepresents(base, o, l, q + 1);
      RepresentsStores(base, TruncateLocal(n, q + 1), l[..q]);
      RepresentsStores(base, TruncateLocal(o, q + 1), l[..q]);
      CutSnapshot(n, q + 1);
      CutSnapshot(o, q + 1);
      AppendSame(base, TruncateLocal(n, q + 1), TruncateLocal(o, q + 1), l[..q], m[q..last]);
    } else {
      assert l[..q] == l;
      AppendSame(base, n, o, l, m[q..last]);
    }
  }

  lemma CutSnapshot(n: Node, i: nat)
    requires n.snapIndex < i <= LastIndex(n) + 1
    ensures TruncateLocal(n, i).snapIndex == n.snapIndex
  {
    hide NewestConfig;
  }
}
