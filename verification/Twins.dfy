// Compaction is invisible: two nodes that stand for the same log, one with more of it
// folded into a snapshot, answer every request alike. Only hints may differ.
module Twins {
  import opened Types
  import opened Logs
  import opened WorldSteps
  import opened Nodes
  import opened Compaction
  import opened Following
  import opened TwinMembers

  // n compacted at least as far as o; both stand for l and agree in what is not log.
  ghost predicate Twin(base: set<NodeId>, n: Node, o: Node, l: Log) {
    && Represents(base, n, l) && Represents(base, o, l) && WellFormed(l)
    && o.snapIndex <= n.snapIndex <= n.commitIndex
    && n.id == o.id && n.term == o.term && n.role == o.role && n.votedFor == o.votedFor
    && n.commitIndex == o.commitIndex && n.leaderId == o.leaderId
    && SameMembers(n, o)
  }

  // The request quotes the leader log m, which agrees on what n has compacted.
  ghost predicate Quotes(n: Node, l: Log, m: Log, req: AppendRequest) {
    && WellFormed(m) && Matching(l, m)
    && n.snapIndex <= |m| && n.snapIndex <= |l| && l[..n.snapIndex] == m[..n.snapIndex]
    && req.prevIndex + |req.entries| <= |m|
    && req.entries == m[req.prevIndex..req.prevIndex + |req.entries|]
    && req.prevTerm == TermAt(m, req.prevIndex)
  }

  // Compacting turns a node into a twin of itself.
  lemma CompactingMakesTwin(base: set<NodeId>, n: Node, l: Log, threshold: nat)
    requires Represents(base, n, l) && WellFormed(l) && n.snapIndex <= n.lastApplied <= n.commitIndex <= |l|
    ensures LastIndex(n) == |l|
    ensures Twin(base, MaybeSnapshot(n, threshold), n, l)
  {
    hide Represents, Stores, WellFormed, ConfigAt, NodeTermAt;
    RepresentsStores(base, n, l);
    Queries(base, n, l);
    CompactRepresents(base, n, l, n.lastApplied);
    OwnSnapshot(base, n, l);
  }

  // At its own snapshot boundary a node reports the snapshot's membership.
  lemma OwnSnapshot(base: set<NodeId>, n: Node, l: Log)
    requires Stores(base, n, l) && WellFormed(l)
    ensures ConfigAt(n, n.snapIndex) == n.snapConfig
  {
    hide WellFormed, NewestConfig;
    ConfigAtIs(base, n, l, n.snapIndex);
  }

  // ------------------------------------------------------------ Votes and commits

  // Both give every candidate the same answer.
  lemma SameVote(base: set<NodeId>, n: Node, o: Node, l: Log, req: VoteRequest, inLease: bool)
    requires Twin(base, n, o, l)
    ensures HandleVoteRequest(n, req, inLease).1 == HandleVoteRequest(o, req, inLease).1
  {
    hide Represents, Stores, WellFormed, HandleVoteRequest;
    RepresentsStores(base, n, l);
    RepresentsStores(base, o, l);
    Queries(base, n, l);
    Queries(base, o, l);
    VoteLooksAt(n, o, req, inLease);
  }

  // All that the answer to a vote request depends on.
  lemma VoteLooksAt(n: Node, o: Node, req: VoteRequest, inLease: bool)
    requires n.term == o.term && n.votedFor == o.votedFor
    requires LastIndex(n) == LastIndex(o) && NodeLastTerm(n) == NodeLastTerm(o)
    ensures HandleVoteRequest(n, req, inLease).1 == HandleVoteRequest(o, req, inLease).1
  {
    hide LastIndex, NodeLastTerm;
    RaisedLooksSame(n, req.term);
    RaisedLooksSame(o, req.term);
  }

  lemma RaisedLooksSame(n: Node, t: nat)
    ensures LastIndex(BecomeFollower(n, t)) == LastIndex(n) && NodeLastTerm(BecomeFollower(n, t)) == NodeLastTerm(n)
  {
  }

  // Both count the same commits from the same progress of their peers.
  lemma SameCommit(base: set<NodeId>, n: Node, o: Node, l: Log)
    requires Twin(base, n, o, l) && n.matchIndex == o.matchIndex
    ensures AdvanceCommit(n).commitIndex == AdvanceCommit(o).commitIndex
  {
    hide Represents, CommitScan;
    RepresentsStores(base, n, l);
    RepresentsStores(base, o, l);
    Queries(base, n, l);
    Queries(base, o, l);
    SameScan(base, n, o, l, |l|);
  }

  lemma {:induction false} SameScan(base: set<NodeId>, n: Node, o: Node, l: Log, i: nat)
    requires Twin(base, n, o, l) && n.matchIndex == o.matchIndex
    requires LastIndex(n) == LastIndex(o) == |l| && i <= |l|
    ensures CommitScan(n, i) == CommitScan(o, i)
  {
    hide Represents;
    RepresentsStores(base, n, l);
    RepresentsStores(base, o, l);
    Queries(base, n, l);
    Queries(base, o, l);
    if i > n.commitIndex {
      SameScan(base, n, o, l, i - 1);
      assert Replicas(n, i) == Replicas(o, i);
    }
  }

  // Both ask a follower the same question, as long as neither needs a snapshot for it.
  lemma SameRequest(base: set<NodeId>, n: Node, o: Node, l: Log, to: NodeId)
    requires Twin(base, n, o, l) && n.nextIndex == o.nextIndex
    requires to in n.nextIndex && n.snapIndex < n.nextIndex[to] <= |l| + 1
    ensures LastIndex(n) == LastIndex(o) == |l|
    ensures AppendRequestFor(n, to) == AppendRequestFor(o, to)
  {
    hide Represents, EntriesFrom, Stores, WellFormed;
    RepresentsStores(base, n, l);
    RepresentsStores(base, o, l);
    Queries(base, n, l);
    Queries(base, o, l);
    BatchIsSlice(base, n, l, n.nextIndex[to]);
    BatchIsSlice(base, o, l, n.nextIndex[to]);
  }

  // Both are idle, or not, for a membership change.
  lemma SameIdle(base: set<NodeId>, n: Node, o: Node, l: Log)
    requires Twin(base, n, o, l) && n.termStart == o.termStart
    ensures ConfigIdle(n) == ConfigIdle(o)
  {
    hide Represents, WellFormed, ConfigAt;
  }

  // ------------------------------------------------------------ AppendEntries

  // Where the request is found to match, and up to where it reaches.
  function Reach(n: Node, req: AppendRequest): nat {
    Max(n.snapIndex, req.prevIndex + |req.entries|)
  }

  // The consistency check on a compacted log is the one on the whole log.
  lemma TrimmedQuotes(base: set<NodeId>, n: Node, l: Log, m: Log, req: AppendRequest)
    requires Stores(base, n, l) && Quotes(n, l, m, req)
    ensures
      var (prev, prevTerm, entries) := Trimmed(n, req);
      && prev == Max(n.snapIndex, req.prevIndex) && prevTerm == TermAt(m, prev)
      && prev + |entries| == Max(prev, req.prevIndex + |req.entries|)
      && prev + |entries| <= |m|
      && entries == m[prev..prev + |entries|]
  {
    hide ConfigOf, Matching, WellFormed;
    if req.prevIndex < n.snapIndex {
      assert l[n.snapIndex - 1] == l[..n.snapIndex][n.snapIndex - 1] == m[..n.snapIndex][n.snapIndex - 1] == m[n.snapIndex - 1];
    }
  }

  // Whether the leader's log and l agree at the position the request names.
  ghost predicate Agrees(l: Log, m: Log, i: nat)
    requires i <= |m|
  {
    i <= |l| && TermAt(l, i) == TermAt(m, i)
  }

  lemma AgreesUpTo(l: Log, m: Log, i: nat, j: nat)
    requires WellFormed(l) && WellFormed(m) && Matching(l, m) && i <= j <= |m| && Agrees(l, m, j)
    ensures Agrees(l, m, i) && l[..j] == m[..j]
  {
    if j > 0 {
      MatchingAt(l, m, j);
      assert i > 0 ==> l[i - 1] == l[..j][i - 1] == m[..j][i - 1] == m[i - 1];
    }
  }

  // What a node that follows the request's leader does with it, in terms of l alone.
  lemma AppendOutcome(base: set<NodeId>, n: Node, l: Log, m: Log, req: AppendRequest)
    requires Represents(base, n, l) && WellFormed(l) && n.snapIndex <= n.commitIndex
    requires Quotes(n, l, m, req) && req.term >= n.term
    ensures
      var (a, reply) := HandleAppend(n, req);
      && reply.term == a.term == req.term
      && (reply.success <==> Agrees(l, m, req.prevIndex))
      && (reply.success ==>
            && Represents(base, a, Overwrite(l, m[..req.prevIndex + |req.entries|]))
            && reply.matchIndex == Reach(n, req)
            && a.commitIndex == Max(n.commitIndex, Min(req.leaderCommit, req.prevIndex + |req.entries|)))
      && (!reply.success ==>
            && Represents(base, a, l) && a.commitIndex == n.commitIndex
            && reply.conflictIndex == (if req.prevIndex > |l| then |l| + 1 else FirstOfTerm(a, req.prevIndex))
            && a.snapIndex == n.snapIndex && Max(n.snapIndex, 0) < req.prevIndex)
  {
    hide Represents, Stores, WellFormed, Matching, NodeTermAt, FirstOfTerm, Merge, AcceptLeader, Overwrite;
    var c := AcceptLeader(n, req.term, req.leader);
    AcceptShape(n, req.term, req.leader);
    AcceptIsSame(n, req.term, req.leader);
    SameLogRepresents(base, n, c, l);
    RepresentsStores(base, c, l);
    Queries(base, c, l);
    TrimmedQuotes(base, c, l, m, req);
    var (prev, prevTerm, entries) := Trimmed(c, req);
    SnapshotAgrees(l, m, c.snapIndex);
    if req.prevIndex < c.snapIndex {
      AgreesUpTo(l, m, req.prevIndex, c.snapIndex);
    }
    if Agrees(l, m, prev) {
      AgreesUpTo(l, m, prev, prev);
      MergeRepresents(base, c, l, m, prev, prev + |entries|);
      MergeShape(c, entries);
      OverwriteInside(l, m, req.prevIndex + |req.entries|, prev + |entries|);
      SameLogRepresents(base, Merge(c, entries), HandleAppend(n, req).0, Overwrite(l, m[..req.prevIndex + |req.entries|]));
    }
  }

  lemma SnapshotAgrees(l: Log, m: Log, s: nat)
    requires s <= |l| && s <= |m| && l[..s] == m[..s]
    ensures Agrees(l, m, s)
  {
    assert s > 0 ==> l[s - 1] == l[..s][s - 1] == m[..s][s - 1] == m[s - 1];
  }

  lemma AcceptIsSame(n: Node, t: nat, leader: NodeId)
    requires t >= n.term
    ensures var c := AcceptLeader(n, t, leader);
      && c.log == n.log && c.snapIndex == n.snapIndex && c.snapTerm == n.snapTerm && c.snapConfig == n.snapConfig
      && c.members == n.members && c.configIndex == n.configIndex && c.commitIndex == n.commitIndex
  {
  }

  lemma SameLogRepresents(base: set<NodeId>, n: Node, m: Node, l: Log)
    requires Represents(base, n, l)
    requires m.log == n.log && m.snapIndex == n.snapIndex && m.snapTerm == n.snapTerm && m.snapConfig == n.snapConfig
    requires m.members == n.members && m.configIndex == n.configIndex
    ensures Represents(base, m, l)
  {
  }

  lemma OverwriteInside(l: Log, m: Log, i: nat, j: nat)
    requires i <= j <= |m| && (i == j || (j <= |l| && l[..j] == m[..j]))
    ensures Overwrite(l, m[..i]) == Overwrite(l, m[..j])
  {
    if i != j {
      assert m[..i] == l[..i] && m[..j] <= l;
    }
  }

  lemma {:induction false} HintAbove(base: set<NodeId>, n: Node, o: Node, l: Log, i: nat)
    requires Stores(base, n, l) && Stores(base, o, l) && o.snapIndex <= n.snapIndex < i <= |l|
    ensures FirstOfTerm(o, i) <= FirstOfTerm(n, i) <= |l|
    decreases i
  {
    hide Stores;
    Queries(base, n, l);
    Queries(base, o, l);
    if i - 1 > n.snapIndex && TermAt(l, i - 1) == TermAt(l, i) {
      HintAbove(base, n, o, l, i - 1);
    }
  }

  // The whole log after a request.
  function LogAfter(n: Node, l: Log, m: Log, req: AppendRequest): Log
    requires req.prevIndex + |req.entries| <= |m|
  {
    if req.term >= n.term && req.prevIndex <= |l| && TermAt(l, req.prevIndex) == TermAt(m, req.prevIndex)
    then Overwrite(l, m[..req.prevIndex + |req.entries|]) else l
  }

  // Same verdict, same full log, same commit index, same membership: the nodes are twins
  // again. The compacted one's hints are never lower, and what it claims to match is
  // what the leader has.
  lemma CompactionInvisible(base: set<NodeId>, n: Node, o: Node, l: Log, m: Log, req: AppendRequest)
    requires Twin(base, n, o, l) && Quotes(n, l, m, req)
    ensures
      var (a, ra) := HandleAppend(n, req);
      var (b, rb) := HandleAppend(o, req);
      var k := LogAfter(n, l, m, req);
      && ra.success == rb.success && ra.term == rb.term
      && Twin(base, a, b, k) && a.members == b.members && a.commitIndex == b.commitIndex
      && ra.conflictIndex >= rb.conflictIndex && ra.matchIndex >= rb.matchIndex
      && (ra.success ==> ra.matchIndex <= |k| && ra.matchIndex <= |m| && k[..ra.matchIndex] == m[..ra.matchIndex])
  {
    if req.term >= n.term {
      hide Twin, Represents, WellFormed, Matching, HandleAppend, FirstOfTerm, Overwrite;
      TwinOutcome(base, n, o, l, m, req);
      TwinHints(base, n, o, l, m, req);
      TwinParts(base, HandleAppend(n, req).0, HandleAppend(o, req).0, LogAfter(n, l, m, req));
    }
  }

  lemma TwinParts(base: set<NodeId>, n: Node, o: Node, l: Log)
    requires Twin(base, n, o, l)
    ensures n.members == o.members && n.commitIndex == o.commitIndex && n.term == o.term
    ensures Represents(base, n, l) && Represents(base, o, l) && WellFormed(l) && o.snapIndex <= n.snapIndex <= n.commitIndex
  {
    hide Represents, WellFormed, ConfigAt;
  }

  lemma TwinOutcome(base: set<NodeId>, n: Node, o: Node, l: Log, m: Log, req: AppendRequest)
    requires Twin(base, n, o, l) && Quotes(n, l, m, req) && req.term >= n.term
    ensures Twin(base, HandleAppend(n, req).0, HandleAppend(o, req).0, LogAfter(n, l, m, req))
    ensures HandleAppend(n, req).1.success == HandleAppend(o, req).1.success
    ensures HandleAppend(n, req).1.term == HandleAppend(o, req).1.term
  {
    hide Represents, WellFormed, Matching, HandleAppend, FirstOfTerm, Overwrite, SameMembers;
    QuotesLess(n, o, l, m, req);
    AppendOutcome(base, n, l, m, req);
    AppendOutcome(base, o, l, m, req);
    SameSnapshot(n, req);
    SameSnapshot(o, req);
    OutcomeMembers(base, n, o, l, m, req);
    OutcomeFields(n, o, req);
    if Agrees(l, m, req.prevIndex) {
      OverwriteWellFormed(l, m, req.prevIndex + |req.entries|);
    }
  }

  lemma TwinHints(base: set<NodeId>, n: Node, o: Node, l: Log, m: Log, req: AppendRequest)
    requires Twin(base, n, o, l) && Quotes(n, l, m, req) && req.term >= n.term
    ensures
      var ra, rb, k := HandleAppend(n, req).1, HandleAppend(o, req).1, LogAfter(n, l, m, req);
      && ra.conflictIndex >= rb.conflictIndex && ra.matchIndex >= rb.matchIndex
      && (ra.success ==> ra.matchIndex <= |k| && ra.matchIndex <= |m| && k[..ra.matchIndex] == m[..ra.matchIndex])
  {
    hide Represents, WellFormed, Matching, HandleAppend, FirstOfTerm, Overwrite, SameMembers;
    QuotesLess(n, o, l, m, req);
    AppendOutcome(base, n, l, m, req);
    AppendOutcome(base, o, l, m, req);
    AppendBlank(n, req);
    AppendBlank(o, req);
    if Agrees(l, m, req.prevIndex) {
      ReachMatches(n, l, m, req);
    } else {
      var a, b := HandleAppend(n, req).0, HandleAppend(o, req).0;
      RepresentsStores(base, a, l);
      RepresentsStores(base, b, l);
      SameSnapshot(o, req);
      if req.prevIndex <= |l| {
        HintAbove(base, a, b, l, req.prevIndex);
      }
    }
  }

  lemma OverwriteWellFormed(l: Log, m: Log, i: nat)
    requires WellFormed(l) && WellFormed(m) && i <= |m|
    ensures WellFormed(Overwrite(l, m[..i]))
  {
    hide WellFormed;
    PrefixWellFormed(m, i);
  }

  // Fields outside the log change alike.
  lemma OutcomeFields(n: Node, o: Node, req: AppendRequest)
    requires req.term >= n.term && n.id == o.id && n.term == o.term && n.role == o.role && n.votedFor == o.votedFor
    ensures var a, b := HandleAppend(n, req).0, HandleAppend(o, req).0;
      a.id == b.id && a.term == b.term && a.role == b.role && a.votedFor == b.votedFor && a.leaderId == b.leaderId
    ensures HandleAppend(n, req).0.commitIndex >= n.commitIndex
  {
    hide Merge, NodeTermAt, FirstOfTerm, Trimmed, AcceptLeader;
    var c, d := AcceptLeader(n, req.term, req.leader), AcceptLeader(o, req.term, req.leader);
    AcceptSameFields(n, o, req.term, req.leader);
    MergeShape(c, Trimmed(c, req).2);
    MergeShape(d, Trimmed(d, req).2);
  }

  lemma AcceptSameFields(n: Node, o: Node, t: nat, leader: NodeId)
    requires t >= n.term && n.id == o.id && n.term == o.term && n.role == o.role && n.votedFor == o.votedFor
    ensures var c, d := AcceptLeader(n, t, leader), AcceptLeader(o, t, leader);
      c.id == d.id && c.term == d.term && c.role == d.role && c.votedFor == d.votedFor && c.leaderId == d.leaderId
    ensures AcceptLeader(n, t, leader).commitIndex == n.commitIndex
  {
    hide AcceptLeader;
    AcceptFields(n, t, leader);
    AcceptFields(o, t, leader);
  }

  lemma AcceptFields(n: Node, t: nat, leader: NodeId)
    requires t >= n.term
    ensures var c := AcceptLeader(n, t, leader);
      && c.id == n.id && c.term == t && c.role == Follower && c.leaderId == Some(leader) && c.commitIndex == n.commitIndex
      && c.votedFor == if t > n.term then None else n.votedFor
  {
  }

  // The memberships stay in step.
  lemma OutcomeMembers(base: set<NodeId>, n: Node, o: Node, l: Log, m: Log, req: AppendRequest)
    requires Twin(base, n, o, l) && Quotes(n, l, m, req) && req.term >= n.term
    ensures SameMembers(HandleAppend(n, req).0, HandleAppend(o, req).0)
  {
    hide Represents, Stores, WellFormed, Matching, NodeTermAt, FirstOfTerm, Merge, AcceptLeader, Overwrite, SameMembers, HandleAppend;
    var c, d := AcceptLeader(n, req.term, req.leader), AcceptLeader(o, req.term, req.leader);
    AcceptIsSame(n, req.term, req.leader);
    AcceptIsSame(o, req.term, req.leader);
    SameLogRepresents(base, n, c, l);
    SameLogRepresents(base, o, d, l);
    RepresentsStores(base, c, l);
    RepresentsStores(base, d, l);
    SameAgain(n, o, c, d);
    QuotesLess(n, o, l, m, req);
    TrimmedQuotes(base, c, l, m, req);
    TrimmedQuotes(base, d, l, m, req);
    SnapshotAgrees(l, m, c.snapIndex);
    SnapshotAgrees(l, m, d.snapIndex);
    MembersHandled(n, req);
    MembersHandled(o, req);
    QuotesLess(n, o, l, m, req);
    AppendOutcome(base, n, l, m, req);
    AppendOutcome(base, o, l, m, req);
    if Agrees(l, m, req.prevIndex) {
      var pn, po := Max(c.snapIndex, req.prevIndex), Max(d.snapIndex, req.prevIndex);
      AgreesUpTo(l, m, pn, pn);
      AgreesUpTo(l, m, po, po);
      MergeSame(base, c, d, l, m, pn, Max(pn, req.prevIndex + |req.entries|), po, Max(po, req.prevIndex + |req.entries|));
      SameAgain(Merge(c, Trimmed(c, req).2), Merge(d, Trimmed(d, req).2), HandleAppend(n, req).0, HandleAppend(o, req).0);
    } else {
      SameAgain(c, d, HandleAppend(n, req).0, HandleAppend(o, req).0);
    }
  }

  // Fields that hold no membership may change.
  lemma SameAgain(n: Node, o: Node, a: Node, b: Node)
    requires SameMembers(n, o)
    requires a.log == n.log && a.members == n.members && a.snapConfig == n.snapConfig && a.snapIndex == n.snapIndex && a.configIndex == n.configIndex
    requires b.log == o.log && b.members == o.members && b.snapConfig == o.snapConfig && b.snapIndex == o.snapIndex && b.configIndex == o.configIndex
    ensures SameMembers(a, b)
  {
  }

  // After a success the log and members are those of the merge, else the node's own.
  lemma MembersHandled(n: Node, req: AppendRequest)
    requires req.term >= n.term
    ensures
      var c := AcceptLeader(n, req.term, req.leader);
      var a, r := HandleAppend(n, req), Merge(c, Trimmed(c, req).2);
      if a.1.success then
        a.0.log == r.log && a.0.members == r.members && a.0.snapConfig == r.snapConfig && a.0.snapIndex == r.snapIndex && a.0.configIndex == r.configIndex
      else a.0 == c
  {
    hide Merge, NodeTermAt, FirstOfTerm, Trimmed, AcceptLeader;
  }

  // ------------------------------------------------------------ Sequences of requests

  // Each request quotes some leader's log that agrees with what the node has compacted.
  ghost predicate AllQuote(n: Node, l: Log, ms: seq<Log>, reqs: seq<AppendRequest>)
    requires |ms| == |reqs|
    decreases |reqs|
  {
    reqs == [] ||
    (Quotes(n, l, ms[0], reqs[0]) && AllQuote(HandleAppend(n, reqs[0]).0, LogAfter(n, l, ms[0], reqs[0]), ms[1..], reqs[1..]))
  }

  function HandleAll(n: Node, reqs: seq<AppendRequest>): Node
    decreases |reqs|
  {
    if reqs == [] then n else HandleAll(HandleAppend(n, reqs[0]).0, reqs[1..])
  }

  // Whatever sequence of requests arrives, the two end up as twins.
  lemma {:induction false} TwinsForEver(base: set<NodeId>, n: Node, o: Node, l: Log, ms: seq<Log>, reqs: seq<AppendRequest>) returns (k: Log)
    requires |ms| == |reqs| && Twin(base, n, o, l) && AllQuote(n, l, ms, reqs)
    ensures Twin(base, HandleAll(n, reqs), HandleAll(o, reqs), k)
    decreases |reqs|
  {
    hide Twin, Quotes, HandleAppend, LogAfter;
    k := l;
    if reqs != [] {
      CompactionInvisible(base, n, o, l, ms[0], reqs[0]);
      QuoteFits(n, l, ms[0], reqs[0]);
      k := TwinsForEver(base, HandleAppend(n, reqs[0]).0, HandleAppend(o, reqs[0]).0, LogAfter(n, l, ms[0], reqs[0]), ms[1..], reqs[1..]);
    }
  }

  lemma QuoteFits(n: Node, l: Log, m: Log, req: AppendRequest)
    requires Quotes(n, l, m, req)
    ensures req.prevIndex + |req.entries| <= |m|
  {
    hide WellFormed, Matching;
  }

  lemma SameSnapshot(o: Node, req: AppendRequest)
    ensures HandleAppend(o, req).0.snapIndex == o.snapIndex
  {
    hide Merge, NodeTermAt, FirstOfTerm, AcceptLeader, Trimmed;
    if req.term >= o.term {
      AcceptIsSame(o, req.term, req.leader);
      MergeShape(AcceptLeader(o, req.term, req.leader), Trimmed(AcceptLeader(o, req.term, req.leader), req).2);
    }
  }

  lemma QuotesLess(n: Node, o: Node, l: Log, m: Log, req: AppendRequest)
    requires Quotes(n, l, m, req) && o.snapIndex <= n.snapIndex
    ensures Quotes(o, l, m, req)
  {
    hide WellFormed, Matching;
    assert l[..o.snapIndex] == l[..n.snapIndex][..o.snapIndex];
    assert m[..o.snapIndex] == m[..n.snapIndex][..o.snapIndex];
  }

  // A verdict carries only its own hint.
  lemma AppendBlank(n: Node, req: AppendRequest)
    ensures HandleAppend(n, req).1.success ==> HandleAppend(n, req).1.conflictIndex == 0
    ensures !HandleAppend(n, req).1.success ==> HandleAppend(n, req).1.matchIndex == 0
  {
    hide Merge, NodeTermAt, FirstOfTerm, AcceptLeader, Trimmed;
  }

  lemma ReachMatches(n: Node, l: Log, m: Log, req: AppendRequest)
    requires WellFormed(l) && Quotes(n, l, m, req)
    ensures var k := Overwrite(l, m[..req.prevIndex + |req.entries|]);
      Reach(n, req) <= |k| && Reach(n, req) <= |m| && k[..Reach(n, req)] == m[..Reach(n, req)]
  {
    hide WellFormed, Matching;
    var i := req.prevIndex + |req.entries|;
    if i < n.snapIndex {
      assert m[..i] == m[..n.snapIndex][..i] == l[..n.snapIndex][..i] == l[..i];
    }
  }
}
