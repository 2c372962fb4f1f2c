// The durable mirror of a node: term, vote, entries by index and the snapshot boundary,
// edited in place by the storage that survives an engine.
module Storages {
  import opened Types

  // Everything a node reloads when it starts.
  datatype PersistentState = PersistentState(
    term: nat, votedFor: Option<NodeId>, log: seq<Entry>, snapIndex: nat, snapTerm: nat, lastApplied: nat, config: Option<set<NodeId>>)

  // The n indices that follow start.
  function UpFrom(start: nat, n: nat): (s: set<nat>)
    ensures forall i: nat :: i in s <==> start < i <= start + n
  {
    if n == 0 then {} else UpFrom(start, n - 1) + {start + n}
  }

  // The entries of a log whose first index is start + 1, by index.
  function ByIndex(log: seq<Entry>, start: nat): map<nat, Entry> {
    map i: nat | i in UpFrom(start, |log|) :: log[i - start - 1]
  }

  ghost predicate Consecutive(log: seq<Entry>, start: nat) {
    forall k :: 0 <= k < |log| ==> log[k].index == start + k + 1
  }

  function Below(entries: map<nat, Entry>, index: nat): map<nat, Entry> {
    map i: nat | i in entries && i < index :: entries[i]
  }

  function Above(entries: map<nat, Entry>, index: nat): map<nat, Entry> {
    map i: nat | i in entries && i > index :: entries[i]
  }

  function AddAll(entries: map<nat, Entry>, more: seq<Entry>): map<nat, Entry> {
    if more == [] then entries
    else AddAll(entries, more[..|more| - 1])[more[|more| - 1].index := more[|more| - 1]]
  }

  // Indices in increasing order.
  ghost predicate Ascending(s: seq<nat>) {
    forall i, j :: 0 <= i < j < |s| ==> s[i] < s[j]
  }

  // The entries above the snapshot in index order.
  ghost predicate InOrder(log: seq<Entry>, order: seq<nat>, entries: map<nat, Entry>, above: nat) {
    && |log| == |order| && Ascending(order)
    && (forall i :: i in order <==> i in entries && i > above)
    && forall k :: 0 <= k < |order| ==> order[k] in entries && log[k] == entries[order[k]]
  }

  // The entries read so far, in order, before those still to read.
  ghost predicate PartOrder(log: seq<Entry>, order: seq<nat>, entries: map<nat, Entry>, above: nat, rest: set<nat>) {
    && |log| == |order| && Ascending(order)
    && (forall i :: i in rest ==> i in entries && i > above && i !in order)
    && (forall i :: i in order ==> i in entries && i > above)
    && (forall i :: i in entries && i > above ==> i in order || i in rest)
    && (forall i, k :: i in rest && 0 <= k < |order| ==> order[k] < i)
    && forall k :: 0 <= k < |order| ==> order[k] in entries && log[k] == entries[order[k]]
  }

  lemma NextInOrder(log: seq<Entry>, order: seq<nat>, entries: map<nat, Entry>, above: nat, rest: set<nat>, i: nat)
    requires PartOrder(log, order, entries, above, rest) && i in rest && forall j :: j in rest ==> i <= j
    ensures PartOrder(log + [entries[i]], order + [i], entries, above, rest - {i})
  {
  }

  lemma AllInOrder(log: seq<Entry>, order: seq<nat>, entries: map<nat, Entry>, above: nat)
    requires PartOrder(log, order, entries, above, {})
    ensures InOrder(log, order, entries, above)
  {
  }

  // In an ascending sequence of exactly the n indices after start, each has its place.
  lemma {:induction false} AscendingPlaces(s: seq<nat>, start: nat, n: nat)
    requires Ascending(s) && forall i: nat :: i in s <==> start < i <= start + n
    ensures |s| == n && forall k :: 0 <= k < n ==> s[k] == start + k + 1
    decreases n
  {
    FirstElement(s);
    if n > 0 {
      var last, m := start + n, |s| - 1;
      assert last in s;
      var k :| 0 <= k < |s| && s[k] == last;
      assert s[m] in s;
      assert k == m;
      LastElement(s);
      forall i: nat
        ensures i in s[..m] <==> start < i <= start + (n - 1)
      {
        assert i in s <==> start < i <= start + n;
        assert i in s[..m] <==> i in s && i != s[m];
      }
      AscendingPlaces(s[..m], start, n - 1);
    }
  }

  lemma FirstElement(s: seq<nat>)
    ensures s != [] ==> s[0] in s
  {
  }

  lemma LastElement(s: seq<nat>)
    requires Ascending(s) && s != []
    ensures forall i :: i in s[..|s| - 1] <==> i in s && i != s[|s| - 1]
  {
    var m := |s| - 1;
    assert s == s[..m] + [s[m]];
  }

  // Reading back entries that were stored from a log gives the log.
  lemma ReadsBack(log: seq<Entry>, start: nat, got: seq<Entry>, order: seq<nat>)
    requires InOrder(got, order, ByIndex(log, start), start)
    ensures got == log
  {
    forall i: nat
      ensures i in order <==> start < i <= start + |log|
    {
    }
    AscendingPlaces(order, start, |log|);
  }

  class MemoryRaftStorage {
    var term: nat
    var votedFor: Option<NodeId>
    var entries: map<nat, Entry>
    var snapIndex: nat
    var snapTerm: nat
    var lastApplied: nat
    var config: Option<set<NodeId>>

    constructor ()
      ensures term == 0 && votedFor == None && entries == map[]
      ensures snapIndex == 0 && snapTerm == 0 && lastApplied == 0 && config == None
    {
      term, votedFor, entries, snapIndex, snapTerm, lastApplied, config := 0, None, map[], 0, 0, 0, None;
    }

    // It holds exactly this log above this snapshot.
    ghost predicate Holds(log: seq<Entry>, start: nat)
      reads this
    {
      snapIndex == start && entries == ByIndex(log, start)
    }

    method Load() returns (s: PersistentState)
      ensures s == PersistentState(term, votedFor, s.log, snapIndex, snapTerm, lastApplied, config)
      ensures exists order :: InOrder(s.log, order, entries, snapIndex)
    {
      var log: seq<Entry> := [];
      ghost var order: seq<nat> := [];
      var rest := set i: nat | i in entries && i > snapIndex;
      while rest != {}
        invariant PartOrder(log, order, entries, snapIndex, rest)
        decreases |rest|
      {
        var i := Least(rest);
        NextInOrder(log, order, entries, snapIndex, rest, i);
        log, order, rest := log + [entries[i]], order + [i], rest - {i};
      }
      AllInOrder(log, order, entries, snapIndex);
      return PersistentState(term, votedFor, log, snapIndex, snapTerm, lastApplied, config);
    }

    method SaveTermAndVote(t: nat, v: Option<NodeId>)
      modifies this`term, this`votedFor
      ensures term == t && votedFor == v
    {
      term, votedFor := t, v;
    }

    // Replaces any stored entry at the same index or later.
    method Append(more: seq<Entry>)
      modifies this`entries
      ensures entries == if more == [] then old(entries) else AddAll(Below(old(entries), more[0].index), more)
    {
      if more == [] {
        return;
      }
      DropFrom(more[0].index);
      ghost var kept := entries;
      for k := 0 to |more|
        invariant entries == AddAll(kept, more[..k])
      {
        assert more[..k + 1][..k] == more[..k];
        entries := entries[more[k].index := more[k]];
      }
      assert more[..|more|] == more;
    }

    method TruncateFrom(index: nat)
      modifies this`entries
      ensures entries == Below(old(entries), index)
    {
      DropFrom(index);
    }

    // Records the boundary and drops what it covers; no membership keeps the stored one.
    method SaveSnapshot(index: nat, t: nat, applied: nat, members: Option<set<NodeId>>)
      modifies this`snapIndex, this`snapTerm, this`lastApplied, this`config, this`entries
      ensures snapIndex == index && snapTerm == t && lastApplied == applied
      ensures config == if members.Some? then members else old(config)
      ensures entries == Above(old(entries), index)
    {
      var gone := set i: nat | i in entries && i <= index;
      while gone != {}
        invariant forall i :: i in gone ==> i in entries && i <= index
        invariant forall i :: i in old(entries) && i > index ==> i in entries
        invariant forall i :: i in entries ==> i in old(entries) && entries[i] == old(entries)[i] && (i > index || i in gone)
        invariant config == old(config)
        decreases |gone|
      {
        var i :| i in gone;
        entries, gone := entries - {i}, gone - {i};
      }
      snapIndex, snapTerm, lastApplied := index, t, applied;
      if members.Some? {
        config := members;
      }
    }

    method DropFrom(index: nat)
      modifies this`entries
      ensures entries == Below(old(entries), index)
    {
      var gone := set i: nat | i in entries && i >= index;
      while gone != {}
        invariant forall i :: i in gone ==> i in entries && i >= index
        invariant forall i :: i in old(entries) && i < index ==> i in entries
        invariant forall i :: i in entries ==> i in old(entries) && entries[i] == old(entries)[i] && (i < index || i in gone)
        decreases |gone|
      {
        var i :| i in gone;
        entries, gone := entries - {i}, gone - {i};
      }
    }
  }

  method Least(s: set<nat>) returns (m: nat)
    requires s != {}
    ensures m in s && forall i :: i in s ==> m <= i
  {
    m :| m in s;
    var rest := s - {m};
    while rest != {}
      invariant rest <= s && m in s
      invariant forall i :: i in s && i !in rest ==> m <= i
      decreases |rest|
    {
      var i :| i in rest;
      if i < m {
        m := i;
      }
      rest := rest - {i};
    }
  }

  // ------------------------------------------------------------ What the edits mean for the log

  lemma TruncatedHolds(log: seq<Entry>, start: nat, index: nat)
    requires start < index <= start + |log| + 1
    ensures Below(ByIndex(log, start), index) == ByIndex(log[..index - start - 1], start)
  {
  }

  lemma CompactedHolds(log: seq<Entry>, start: nat, index: nat)
    requires start <= index <= start + |log|
    ensures Above(ByIndex(log, start), index) == ByIndex(log[index - start..], index)
  {
  }

  lemma EmptiedHolds(log: seq<Entry>, start: nat, index: nat)
    requires start <= index
    ensures Above(Below(ByIndex(log, start), start + 1), index) == ByIndex([], index)
  {
  }

  lemma {:induction false} AppendedHolds(log: seq<Entry>, start: nat, more: seq<Entry>)
    requires Consecutive(more, start + |log|)
    ensures AddAll(ByIndex(log, start), more) == ByIndex(log + more, start)
  {
    if more == [] {
      assert log + more == log;
    } else {
      var n := |more| - 1;
      AppendedHolds(log, start, more[..n]);
      assert log + more == (log + more[..n]) + [more[n]];
      AppendedOne(log + more[..n], start, more[n]);
    }
  }

  lemma AppendedOne(log: seq<Entry>, start: nat, e: Entry)
    requires e.index == start + |log| + 1
    ensures ByIndex(log, start)[e.index := e] == ByIndex(log + [e], start)
  {
  }

  lemma NothingBelow(log: seq<Entry>, start: nat)
    ensures Below(ByIndex(log, start), start + |log| + 1) == ByIndex(log, start)
  {
  }
}
