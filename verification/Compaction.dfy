// An offset log behind a snapshot boundary answers like the whole log it stands for.
module Compaction {
  import opened Types
  import opened Logs
  import opened Nodes
  import opened WorldSteps

  // c is the membership after l, or the node never learned the bootstrap one (join=True)
  // and l has no CONFIG that would tell it.
  ghost predicate ConfigOf(base: set<NodeId>, l: Log, c: set<NodeId>) {
    c == Membership(base, l) || (c == {} && NewestConfig(l) == 0)
  }

  // The node keeps l, its first snapIndex entries folded into the snapshot.
  ghost predicate Stores(base: set<NodeId>, n: Node, l: Log) {
    && n.snapIndex <= |l|
    && n.log == l[n.snapIndex..]
    && n.snapTerm == TermAt(l, n.snapIndex)
    && ConfigOf(base, l[..n.snapIndex], n.snapConfig)
  }

  ghost predicate Represents(base: set<NodeId>, n: Node, l: Log) {
    && Stores(base, n, l)
    && ConfigOf(base, l, n.members)
    && forall j :: IsConfig(l, j) ==> j <= n.configIndex || j <= n.snapIndex
  }

  // ------------------------------------------------------------ Queries

  lemma Queries(base: set<NodeId>, n: Node, l: Log)
    requires Stores(base, n, l)
    ensures LastIndex(n) == |l|
    ensures NodeLastTerm(n) == LastTerm(l)
    ensures forall i: nat :: n.snapIndex <= i <= |l| ==> NodeTermAt(n, i) == Some(TermAt(l, i))
    ensures forall i: nat :: i < n.snapIndex || i > |l| ==> NodeTermAt(n, i) == None
    ensures forall i: nat :: n.snapIndex < i <= |l| ==> EntryAt(n, i) == Some(l[i - 1])
  {
    hide NewestConfig, ConfigOf;
    forall i: nat | n.snapIndex < i <= |l|
      ensures EntryAt(n, i) == Some(l[i - 1])
    {
      assert n.log[i - n.snapIndex - 1] == l[i - 1];
    }
  }

  lemma BatchIsSlice(base: set<NodeId>, n: Node, l: Log, i: nat)
    requires Stores(base, n, l) && n.snapIndex < i <= |l| + 1
    ensures EntriesFrom(n, i, MAX_ENTRIES_PER_RPC) == l[i - 1..Min(i - 1 + MAX_ENTRIES_PER_RPC, |l|)]
  {
    hide NewestConfig, ConfigOf;
    var a, b := i - n.snapIndex - 1, Min(i - 1 + MAX_ENTRIES_PER_RPC, |l|) - n.snapIndex;
    assert EntriesFrom(n, i, MAX_ENTRIES_PER_RPC) == n.log[a..b];
    assert l[n.snapIndex..][a..b] == l[n.snapIndex + a..n.snapIndex + b];
  }

  // The newest CONFIG of a log with its first s entries cut off.
  lemma NewestOfSuffix(l: Log, s: nat)
    requires s <= |l|
    ensures NewestConfig(l[s..]) == 0 ==> NewestConfig(l) <= s
    ensures NewestConfig(l[s..]) > 0 ==> NewestConfig(l) == s + NewestConfig(l[s..])
  {
    hide NewestConfig;
    var j, k := NewestConfig(l), NewestConfig(l[s..]);
    assert j > s ==> IsConfig(l[s..], j - s);
    assert k > 0 ==> IsConfig(l, s + k);
  }

  lemma RefreshRepresents(base: set<NodeId>, n: Node, l: Log)
    requires Stores(base, n, l) && WellFormed(l)
    ensures Represents(base, Refresh(n), l)
  {
    hide NewestConfig;
    NewestOfSuffix(l, n.snapIndex);
    if NewestConfig(n.log) == 0 {
      MembershipOfPrefix(base, l, n.snapIndex);
      NewestOfPrefix(l, n.snapIndex);
    }
  }

  lemma NewestOfPrefix(l: Log, f: nat)
    requires f <= |l| && NewestConfig(l) <= f
    ensures NewestConfig(l[..f]) == NewestConfig(l)
  {
    hide NewestConfig;
    var j, k := NewestConfig(l), NewestConfig(l[..f]);
    assert j > 0 ==> IsConfig(l[..f], j);
    assert k > 0 ==> IsConfig(l, k);
  }

  // The membership a node reports for an index is the one in effect there.
  lemma ConfigAtIsMembership(base: set<NodeId>, n: Node, l: Log, i: nat)
    requires Stores(base, n, l) && WellFormed(l) && n.snapIndex <= i <= |l|
    ensures ConfigOf(base, l[..i], ConfigAt(n, i))
  {
    ConfigUpToIsMembership(base, l, n.snapIndex, |l|, i, n.snapConfig);
    assert l[n.snapIndex..|l|] == n.log;
  }

  lemma {:induction false} ConfigUpToIsMembership(base: set<NodeId>, l: Log, s: nat, m: nat, i: nat, c: set<NodeId>)
    requires WellFormed(l) && s <= m <= |l| && s <= i <= |l|
    requires ConfigOf(base, l[..s], c)
    requires forall j :: m < j <= i ==> !IsConfig(l, j)
    ensures ConfigOf(base, l[..i], ConfigUpTo(l[s..m], i, c))
    decreases m
  {
    hide NewestConfig, ConfigOf, IsConfig;
    if s == m {
      SameConfig(base, l, s, i, c);
    } else {
      assert l[s..m][|l[s..m]| - 1] == l[m - 1];
      assert l[s..m][..|l[s..m]| - 1] == l[s..m - 1];
      if m <= i && l[m - 1].command.Config? {
        NewestIs(base, l, m, i);
      } else {
        NotConfig(l, m, i);
        ConfigUpToIsMembership(base, l, s, m - 1, i, c);
      }
    }
  }

  lemma NotConfig(l: Log, m: nat, i: nat)
    requires 1 <= m <= |l| && (m > i || !l[m - 1].command.Config?)
    ensures m <= i ==> !IsConfig(l, m)
  {
  }

  lemma SameConfig(base: set<NodeId>, l: Log, s: nat, i: nat, c: set<NodeId>)
    requires s <= i <= |l| && ConfigOf(base, l[..s], c)
    requires forall j :: s < j <= i ==> !IsConfig(l, j)
    ensures ConfigOf(base, l[..i], c)
  {
    hide NewestConfig;
    var j := NewestConfig(l[..i]);
    assert j > 0 ==> IsConfig(l, j);
    assert l[..i][..s] == l[..s];
    MembershipOfPrefix(base, l[..i], s);
    NewestOfPrefix(l[..i], s);
  }

  lemma NewestIs(base: set<NodeId>, l: Log, m: nat, i: nat)
    requires 1 <= m <= i <= |l| && WellFormed(l) && l[m - 1].command.Config?
    requires forall j :: m < j <= i ==> !IsConfig(l, j)
    ensures l[m - 1].index == m && ConfigOf(base, l[..i], l[m - 1].command.members)
  {
    hide NewestConfig;
    assert IsConfig(l[..i], m);
    var j := NewestConfig(l[..i]);
    assert IsConfig(l, j);
  }

  // ------------------------------------------------------------ Changes

  lemma AppendRepresents(base: set<NodeId>, n: Node, l: Log, entries: seq<Entry>)
    requires Represents(base, n, l) && WellFormed(l + entries)
    ensures Represents(base, AppendLocal(n, entries), l + entries)
  {
    hide NewestConfig;
    var m := n.(log := n.log + entries);
    assert (l + entries)[n.snapIndex..] == l[n.snapIndex..] + entries;
    assert (l + entries)[..n.snapIndex] == l[..n.snapIndex];
    if exists e :: e in entries && e.command.Config? {
      RefreshRepresents(base, m, l + entries);
    } else {
      assert forall j :: IsConfig(l + entries, j) ==> IsConfig(l, j);
      assert (l + entries)[..|l|] == l;
      MembershipOfPrefix(base, l + entries, |l|);
      NewestOfPrefix(l + entries, |l|);
    }
  }

  lemma TruncateRepresents(base: set<NodeId>, n: Node, l: Log, i: nat)
    requires Stores(base, n, l) && WellFormed(l) && n.snapIndex < i <= |l| + 1
    ensures Represents(base, TruncateLocal(n, i), l[..i - 1])
  {
    hide NewestConfig;
    assert l[..i - 1][n.snapIndex..] == n.log[..i - n.snapIndex - 1];
    assert l[..i - 1][..n.snapIndex] == l[..n.snapIndex];
    RefreshRepresents(base, n.(log := n.log[..i - n.snapIndex - 1]), l[..i - 1]);
  }

  // Compacting one's own log changes nothing it stands for.
  lemma CompactRepresents(base: set<NodeId>, n: Node, l: Log, i: nat)
    requires Represents(base, n, l) && WellFormed(l) && n.snapIndex <= i <= |l|
    ensures Represents(base, CompactThrough(n, i, TermAt(l, i), ConfigAt(n, i)), l)
  {
    hide NewestConfig, ConfigUpTo, WellFormed, ConfigOf, IsConfig, ConfigAt;
    Queries(base, n, l);
    ConfigAtIsMembership(base, n, l, i);
    assert NodeTermAt(n, i) == Some(TermAt(l, i));
    assert l[n.snapIndex..][i - n.snapIndex..] == l[i..];
    assert Stores(base, CompactThrough(n, i, TermAt(l, i), ConfigAt(n, i)), l);
  }

  // A received snapshot replaces the log unless the log contains it.
  lemma InstallRepresents(base: set<NodeId>, n: Node, l: Log, q: Log, c: set<NodeId>)
    requires Represents(base, n, l) && WellFormed(l) && WellFormed(q) && n.snapIndex <= |q|
    requires ConfigOf(base, q, c)
    requires |q| <= |l| && TermAt(l, |q|) == LastTerm(q) ==> q <= l
    ensures Represents(base, Refresh(CompactThrough(n, |q|, LastTerm(q), c)), Overwrite(l, q))
  {
    hide NewestConfig;
    Queries(base, n, l);
    var m := CompactThrough(n, |q|, LastTerm(q), c);
    if q <= l {
      assert l[n.snapIndex..][|q| - n.snapIndex..] == l[|q|..];
      assert l[..|q|] == q;
      RefreshRepresents(base, m, l);
    } else {
      assert q[..|q|] == q && q[|q|..] == [];
      RefreshRepresents(base, m, q);
    }
  }

  // ------------------------------------------------------------ Merging a leader's entries

  // Equal terms at a position mean equal logs up to it.
  ghost predicate Matching(l: Log, m: Log) {
    forall i :: 1 <= i <= |l| && i <= |m| && l[i - 1].term == m[i - 1].term ==> l[..i] == m[..i]
  }

  lemma {:induction false} KnownIsAgreement(base: set<NodeId>, n: Node, l: Log, m: Log, prev: nat, last: nat)
    requires Stores(base, n, l) && WellFormed(m) && Matching(l, m)
    requires n.snapIndex <= prev <= last <= |m| && prev <= |l| && l[..prev] == m[..prev]
    ensures
      var k := Known(n, m[prev..last]);
      && prev + k <= |l| && l[..prev + k] == m[..prev + k]
      && (prev + k < last ==> prev + k == |l| || l[prev + k].term != m[prev + k].term)
    decreases last - prev
  {
    hide Stores, Matching, NodeTermAt, WellFormed;
    Queries(base, n, l);
    if prev < last {
      var e := m[prev..last];
      IndexOf(m, prev);
      assert e[0] == m[prev];
      assert e[1..] == m[prev + 1..last];
      if prev < |l| && l[prev].term == m[prev].term {
        MatchingAt(l, m, prev + 1);
        KnownIsAgreement(base, n, l, m, prev + 1, last);
      }
    }
  }

  lemma IndexOf(m: Log, i: nat)
    requires WellFormed(m) && i < |m|
    ensures m[i].index == i + 1
  {
  }

  lemma MatchingAt(l: Log, m: Log, i: nat)
    requires Matching(l, m) && 1 <= i <= |l| && i <= |m| && l[i - 1].term == m[i - 1].term
    ensures l[..i] == m[..i]
  {
  }

  lemma MergeRepresents(base: set<NodeId>, n: Node, l: Log, m: Log, prev: nat, last: nat)
    requires Represents(base, n, l) && WellFormed(l) && WellFormed(m) && Matching(l, m)
    requires n.snapIndex <= prev <= last <= |m| && prev <= |l| && l[..prev] == m[..prev]
    ensures Represents(base, Merge(n, m[prev..last]), Overwrite(l, m[..last]))
  {
    hide NewestConfig, Represents, Known, Membership, Stores, Matching, NodeTermAt, WellFormed, AppendLocal, TruncateLocal;
    RepresentsStores(base, n, l);
    KnownIsAgreement(base, n, l, m, prev, last);
    Queries(base, n, l);
    var entries := m[prev..last];
    var k := Known(n, entries);
    if k == |entries| {
      assert m[..last] <= l;
    } else {
      assert entries[k] == m[prev + k];
      IndexOf(m, prev + k);
      assert m[..last] == m[..prev + k] + entries[k..];
      assert !(m[..last] <= l) by {
        assert m[..last][prev + k] == m[prev + k];
      }
      PrefixWellFormed(m, last);
      if prev + k < |l| {
        TruncateRepresents(base, n, l, prev + k + 1);
        AppendRepresents(base, TruncateLocal(n, prev + k + 1), m[..prev + k], entries[k..]);
      } else {
        assert l == m[..prev + k];
        AppendRepresents(base, n, l, entries[k..]);
      }
    }
  }

  lemma RepresentsStores(base: set<NodeId>, n: Node, l: Log)
    requires Represents(base, n, l)
    ensures Stores(base, n, l)
  {
  }

  lemma PrefixWellFormed(l: Log, i: nat)
    requires WellFormed(l) && i <= |l|
    ensures WellFormed(l[..i])
  {
  }
}
