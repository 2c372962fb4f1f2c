// Logs without compaction, positions counted from 1 as in the program.
module Logs {
  import opened Types

  type Log = seq<Entry>

  // Term of the entry at a position; position 0 stands before the log and has term 0.
  function TermAt(l: Log, i: nat): nat
    requires i <= |l|
  {
    if i == 0 then 0 else l[i - 1].term
  }

  function LastTerm(l: Log): nat {
    TermAt(l, |l|)
  }

  // Indices are consecutive from 1, terms are positive and never decrease.
  ghost predicate WellFormed(l: Log) {
    && (forall i :: 0 <= i < |l| ==> l[i].index == i + 1 && l[i].term >= 1)
    && (forall i, j :: 0 <= i < j < |l| ==> l[i].term <= l[j].term)
  }

  ghost predicate TermsBelow(l: Log, t: nat) {
    forall i :: 0 <= i < |l| ==> l[i].term < t
  }

  // The voter's rule for a candidate whose log is a.
  predicate UpToDate(a: Log, b: Log) {
    LastTerm(a) > LastTerm(b) || (LastTerm(a) == LastTerm(b) && |a| >= |b|)
  }

  ghost predicate IsConfig(l: Log, j: int) {
    1 <= j <= |l| && l[j - 1].command.Config?
  }

  // Position of the newest CONFIG entry, 0 if there is none.
  function NewestConfig(l: Log): (j: nat)
    ensures j <= |l|
    ensures j > 0 ==> IsConfig(l, j)
    ensures forall i :: IsConfig(l, i) ==> i <= j
  {
    if l == [] then 0
    else if l[|l| - 1].command.Config? then |l|
    else
      var j := NewestConfig(l[..|l| - 1]);
      assert forall i :: IsConfig(l, i) ==> IsConfig(l[..|l| - 1], i);
      j
  }

  // The membership in effect after the whole log, starting from a bootstrap membership.
  function Membership(base: set<NodeId>, l: Log): set<NodeId> {
    var j := NewestConfig(l);
    if j == 0 then base else l[j - 1].command.members
  }

  // No CONFIG between f and the end of l: the membership is that of the prefix.
  lemma MembershipOfPrefix(base: set<NodeId>, l: Log, f: nat)
    requires f <= |l|
    requires NewestConfig(l) <= f
    ensures Membership(base, l) == Membership(base, l[..f])
  {
    hide NewestConfig;
    var j, k := NewestConfig(l), NewestConfig(l[..f]);
    assert j > 0 ==> IsConfig(l[..f], j);
    assert k > 0 ==> IsConfig(l, k);
  }

  // How far two logs agree: the longest common prefix.
  function Agreement(a: Log, b: Log): (f: nat)
    ensures f <= |a| && f <= |b|
    ensures a[..f] == b[..f]
    ensures f < |a| && f < |b| ==> a[f] != b[f]
  {
    if a == [] || b == [] || a[0] != b[0] then 0
    else
      var f := Agreement(a[1..], b[1..]) + 1;
      assert a[..f] == [a[0]] + a[1..][..f - 1];
      assert b[..f] == [b[0]] + b[1..][..f - 1];
      f
  }

  // Whatever both logs contain lies inside their agreement.
  lemma SharedPrefix(a: Log, b: Log, p: Log)
    requires p <= a && p <= b
    ensures |p| <= Agreement(a, b)
  {
    var f := Agreement(a, b);
    assert forall i :: 0 <= i < |p| ==> a[i] == p[i] && b[i] == p[i];
  }
}
