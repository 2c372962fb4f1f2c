// How often a leader can be told that the logs disagree before AppendEntries succeeds
// or it falls back to a snapshot: against a fixed follower at most once for a log that
// is too short, and once per term above the follower's snapshot.
module BackOffs {
  import opened Types
  import opened Logs
  import opened Nodes
  import opened Compaction
  import opened Following
  import opened Twins

  // The follower's verdict on a probe that names position prev of the leader log m.
  predicate Accepts(f: Node, m: Log, prev: nat)
    requires prev <= |m|
  {
    prev <= f.snapIndex || NodeTermAt(f, prev) == Some(TermAt(m, prev))
  }

  function Hint(f: Node, prev: nat): nat {
    if prev > LastIndex(f) then LastIndex(f) + 1 else FirstOfTerm(f, prev)
  }

  // A probe as the replicator sends it, with whatever entries it carries.
  ghost predicate IsProbe(m: Log, prev: nat, req: AppendRequest) {
    prev <= |m| && req.prevIndex == prev && req.prevTerm == TermAt(m, prev)
  }

  // Accepts and Hint are what the handler answers, as long as the leader's log agrees
  // with the follower on the end of the follower's snapshot.
  lemma VerdictOfProbe(f: Node, m: Log, prev: nat, req: AppendRequest)
    requires IsProbe(m, prev, req) && req.term >= f.term
    requires prev == f.snapIndex ==> f.snapTerm == TermAt(m, prev)
    ensures HandleAppend(f, req).1.success == Accepts(f, m, prev)
    ensures !Accepts(f, m, prev) ==> HandleAppend(f, req).1.conflictIndex == Hint(f, prev) >= 1
    ensures HandleAppend(f, req).1.term == req.term
  {
    hide Merge, AcceptLeader, FirstOfTerm;
    var c := AcceptLeader(f, req.term, req.leader);
    AcceptIsSame(f, req.term, req.leader);
    AcceptShape(f, req.term, req.leader);
    FirstLooksAtLog(c, f, prev);
  }

  lemma {:induction false} FirstLooksAtLog(n: Node, o: Node, i: nat)
    requires n.log == o.log && n.snapIndex == o.snapIndex && n.snapTerm == o.snapTerm
    ensures FirstOfTerm(n, i) == FirstOfTerm(o, i)
    decreases i
  {
    if i > 0 {
      FirstLooksAtLog(n, o, i - 1);
    }
  }

  // The next position the leader tries after a mismatch at prev.
  function NextTry(f: Node, prev: nat): nat {
    Max(1, Min(Hint(f, prev), prev))
  }

  lemma NextTryIsBackOff(f: Node, m: Log, prev: nat, req: AppendRequest)
    requires IsProbe(m, prev, req) && req.term >= f.term && !Accepts(f, m, prev)
    requires prev == f.snapIndex ==> f.snapTerm == TermAt(m, prev)
    ensures BackOff(req, HandleAppend(f, req).1) == NextTry(f, prev)
  {
    hide HandleAppend, Hint;
    VerdictOfProbe(f, m, prev, req);
  }

  // The hint lies above the follower's snapshot, and below what was tried.
  lemma HintBounds(f: Node, m: Log, prev: nat)
    requires prev <= |m| && !Accepts(f, m, prev)
    ensures f.snapIndex < NextTry(f, prev) <= prev
    ensures Hint(f, prev) > 0
  {
  }

  // Mismatch replies until a probe is accepted or position next is in the leader's snapshot.
  function Mismatches(f: Node, m: Log, snap: nat, next: nat): (r: nat)
    requires 1 <= next <= |m| + 1
    decreases next
  {
    if next <= snap || Accepts(f, m, next - 1) then 0
    else
      assert NextTry(f, next - 1) < next by { HintBounds(f, m, next - 1); }
      1 + Mismatches(f, m, snap, NextTry(f, next - 1))
  }

  // next_index strictly decreases with each mismatch, and stays a position of the log.
  lemma NextIndexFalls(f: Node, m: Log, next: nat, req: AppendRequest)
    requires 1 <= next <= |m| + 1 && IsProbe(m, next - 1, req) && req.term >= f.term
    requires next - 1 == f.snapIndex ==> f.snapTerm == TermAt(m, next - 1)
    requires !HandleAppend(f, req).1.success
    ensures f.snapIndex < BackOff(req, HandleAppend(f, req).1) < next
  {
    hide HandleAppend;
    VerdictOfProbe(f, m, next - 1, req);
    NextTryIsBackOff(f, m, next - 1, req);
    HintBounds(f, m, next - 1);
  }

  // ------------------------------------------------------------ The bound

  // The terms of the follower's entries above its snapshot, up to position i.
  function TermsUpTo(f: Node, i: nat): set<nat> {
    set j | 0 <= j < |f.log| && j < i - f.snapIndex :: f.log[j].term
  }

  ghost predicate Ordered(f: Node) {
    forall i, j :: 0 <= i < j < |f.log| ==> f.log[i].term <= f.log[j].term
  }

  // Everything before the hinted position has another term than the entry that failed.
  lemma {:induction false} RunStarts(f: Node, i: nat)
    requires Ordered(f) && f.snapIndex < i <= LastIndex(f)
    ensures f.snapIndex < FirstOfTerm(f, i) <= i
    ensures forall j :: 0 <= j < FirstOfTerm(f, i) - f.snapIndex - 1 ==> f.log[j].term < f.log[i - f.snapIndex - 1].term
    decreases i
  {
    if i - 1 > f.snapIndex {
      var k := i - f.snapIndex - 1;
      assert f.log[k - 1].term <= f.log[k].term;
      if NodeTermAt(f, i - 1) == NodeTermAt(f, i) {
        RunStarts(f, i - 1);
      }
    }
  }

  lemma SubsetCard(a: set<nat>, b: set<nat>)
    requires a <= b
    ensures |a| <= |b|
  {
    assert b == a + (b - a);
  }

  lemma {:induction false} MismatchesInside(f: Node, m: Log, snap: nat, next: nat)
    requires Ordered(f) && 1 <= next <= |m| + 1 && next - 1 <= LastIndex(f)
    ensures Mismatches(f, m, snap, next) <= |TermsUpTo(f, next - 1)|
    decreases next
  {
    if next > snap && !Accepts(f, m, next - 1) {
      var p := next - 1;
      HintBounds(f, m, p);
      var q := NextTry(f, p);
      MismatchesInside(f, m, snap, q);
      RunStarts(f, p);
      var t := f.log[p - f.snapIndex - 1].term;
      assert t in TermsUpTo(f, p) && t !in TermsUpTo(f, q - 1);
      SubsetCard(TermsUpTo(f, q - 1) + {t}, TermsUpTo(f, p));
    }
  }

  lemma MismatchBound(f: Node, m: Log, snap: nat, next: nat)
    requires Ordered(f) && 1 <= next <= |m| + 1
    ensures Mismatches(f, m, snap, next) <= 1 + |TermsUpTo(f, LastIndex(f))|
  {
    if next - 1 <= LastIndex(f) {
      MismatchesInside(f, m, snap, next);
      SubsetCard(TermsUpTo(f, next - 1), TermsUpTo(f, LastIndex(f)));
    } else if next > snap && !Accepts(f, m, next - 1) {
      HintBounds(f, m, next - 1);
      MismatchesInside(f, m, snap, LastIndex(f) + 1);
    }
  }

  // ------------------------------------------------------------ Exchanges

  // A refused exchange between a leader n, whose whole log is l, and a follower f: the
  // replicator's request, the follower's reply, and next index after the reply.
  ghost predicate Refused(base: set<NodeId>, n: Node, l: Log, u: NodeId, f: Node, number: nat, next: nat) {
    && n.role.Leader? && f.term <= n.term && Stores(base, n, l)
    && u in n.nextIndex && n.snapIndex < n.nextIndex[u] <= LastIndex(n) + 1
    && AppendRequestFor(n, u).Some?
    && var req := AppendRequestFor(n, u).value;
       var reply := HandleAppend(f, req).1;
       var m := HandleAppendReply(n, u, number, req, reply);
       !reply.success && u in m.nextIndex && m.nextIndex[u] == next
  }

  ghost predicate SameLog(f: Node, g: Node) {
    f.log == g.log && f.snapIndex == g.snapIndex && f.snapTerm == g.snapTerm
  }

  ghost predicate SomehowRefused(base: set<NodeId>, n: Node, l: Log, u: NodeId, f: Node, number: nat) {
    exists next :: Refused(base, n, l, u, f, number, next)
  }

  ghost predicate NextRefused(base: set<NodeId>, ns: seq<Node>, ls: seq<Log>, u: NodeId, fs: seq<Node>, numbers: seq<nat>, i: int)
    requires |ns| == |ls| == |fs| == |numbers| && forall k :: 0 <= k < |ns| ==> u in ns[k].nextIndex
  {
    0 <= i < |ns| - 1 ==> Refused(base, ns[i], ls[i], u, fs[i], numbers[i], ns[i + 1].nextIndex[u])
  }

  // Refused exchanges one after another: the leader's log may grow and everything else
  // may change in between, but not its next index for u nor the follower's log.
  ghost predicate Refusals(base: set<NodeId>, ns: seq<Node>, ls: seq<Log>, u: NodeId, fs: seq<Node>, numbers: seq<nat>, f: Node, m: Log) {
    && |ns| == |ls| == |fs| == |numbers|
    && (forall i :: 0 <= i < |ns| ==> SameLog(fs[i], f) && ls[i] <= m && u in ns[i].nextIndex)
    && (forall i :: NextRefused(base, ns, ls, u, fs, numbers, i))
    && (|ns| > 0 ==> SomehowRefused(base, ns[|ns| - 1], ls[|ns| - 1], u, fs[|ns| - 1], numbers[|ns| - 1]))
  }

  // The next index is lower after the exchange than before.
  ghost predicate Falls(ns: seq<Node>, u: NodeId, i: int) {
    0 <= i < |ns| - 1 ==> u in ns[i].nextIndex && u in ns[i + 1].nextIndex && ns[i + 1].nextIndex[u] < ns[i].nextIndex[u]
  }

  // The leader holds what the follower has compacted.
  predicate HoldsSnapshot(f: Node, m: Log) {
    f.snapIndex <= |m| ==> f.snapTerm == TermAt(m, f.snapIndex)
  }

  lemma SameVerdict(f: Node, g: Node, m: Log, prev: nat)
    requires SameLog(f, g) && prev <= |m|
    ensures Accepts(f, m, prev) == Accepts(g, m, prev) && NextTry(f, prev) == NextTry(g, prev)
  {
    FirstLooksAtLog(f, g, prev);
  }

  // One refusal is one mismatch.
  lemma RefusalIsMismatch(base: set<NodeId>, n: Node, l: Log, u: NodeId, f: Node, number: nat, next: nat, g: Node, m: Log)
    requires Refused(base, n, l, u, f, number, next) && SameLog(f, g) && l <= m && HoldsSnapshot(g, m)
    ensures 1 <= n.nextIndex[u] <= |m| + 1
    ensures !Accepts(g, m, n.nextIndex[u] - 1) && next == NextTry(g, n.nextIndex[u] - 1) && next < n.nextIndex[u]
  {
    hide HandleAppend, Stores, Accepts, NextTry, EntriesFrom;
    Queries(base, n, l);
    var req, prev := AppendRequestFor(n, u).value, n.nextIndex[u] - 1;
    assert TermAt(l, prev) == TermAt(m, prev);
    VerdictOfProbe(f, m, prev, req);
    SameVerdict(f, g, m, prev);
    NextTryIsBackOff(f, m, prev, req);
    HintBounds(g, m, prev);
  }

  lemma {:induction false} RefusalsAreMismatches(base: set<NodeId>, ns: seq<Node>, ls: seq<Log>, u: NodeId, fs: seq<Node>, numbers: seq<nat>, f: Node, m: Log)
    requires Refusals(base, ns, ls, u, fs, numbers, f, m) && HoldsSnapshot(f, m) && |ns| > 0
    ensures 1 <= ns[0].nextIndex[u] <= |m| + 1 && |ns| <= Mismatches(f, m, 0, ns[0].nextIndex[u])
    ensures forall i :: Falls(ns, u, i)
    decreases |ns|
  {
    hide Refused, Accepts, NextTry, HoldsSnapshot, SameLog;
    if |ns| == 1 {
      assert SomehowRefused(base, ns[0], ls[0], u, fs[0], numbers[0]);
      var next :| Refused(base, ns[0], ls[0], u, fs[0], numbers[0], next);
      RefusalIsMismatch(base, ns[0], ls[0], u, fs[0], numbers[0], next, f, m);
    } else {
      assert NextRefused(base, ns, ls, u, fs, numbers, 0);
      RefusalIsMismatch(base, ns[0], ls[0], u, fs[0], numbers[0], ns[1].nextIndex[u], f, m);
      Later(base, ns, ls, u, fs, numbers, f, m);
      RefusalsAreMismatches(base, ns[1..], ls[1..], u, fs[1..], numbers[1..], f, m);
      forall i
        ensures Falls(ns, u, i)
      {
        assert Falls(ns[1..], u, i - 1);
      }
    }
  }

  lemma Later(base: set<NodeId>, ns: seq<Node>, ls: seq<Log>, u: NodeId, fs: seq<Node>, numbers: seq<nat>, f: Node, m: Log)
    requires Refusals(base, ns, ls, u, fs, numbers, f, m) && |ns| > 1
    ensures Refusals(base, ns[1..], ls[1..], u, fs[1..], numbers[1..], f, m)
  {
    hide Refused, SameLog;
    forall i
      ensures NextRefused(base, ns[1..], ls[1..], u, fs[1..], numbers[1..], i)
    {
      assert NextRefused(base, ns, ls, u, fs, numbers, i + 1);
    }
  }

  // Against a fixed follower log, a leader is refused at most once for a log that is too
  // short and once per term above the follower's snapshot; next index falls every time.
  lemma RefusalsBounded(base: set<NodeId>, ns: seq<Node>, ls: seq<Log>, u: NodeId, fs: seq<Node>, numbers: seq<nat>, f: Node, m: Log)
    requires Refusals(base, ns, ls, u, fs, numbers, f, m) && HoldsSnapshot(f, m) && Ordered(f)
    ensures |ns| <= 1 + |TermsUpTo(f, LastIndex(f))|
    ensures forall i :: Falls(ns, u, i)
  {
    hide Refused, TermsUpTo, Mismatches, Ordered, HoldsSnapshot, SameLog;
    if |ns| > 0 {
      RefusalsAreMismatches(base, ns, ls, u, fs, numbers, f, m);
      MismatchBound(f, m, 0, ns[0].nextIndex[u]);
    }
  }
}
