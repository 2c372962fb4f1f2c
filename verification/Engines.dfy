// The engine of one node: its fields changed in place, its loops over the log, and the
// storage it writes before it answers. Every method does to the fields what the handler
// functions of Nodes say, and leaves the storage an exact mirror.
module Engines {
  import opened Types
  import opened Logs
  import opened Nodes
  import opened Storages

  class RaftEngine {
    const id: NodeId
    const storage: MemoryRaftStorage
    var term: nat
    var votedFor: Option<NodeId>
    var log: seq<Entry>
    var snapIndex: nat
    var snapTerm: nat
    var snapConfig: set<NodeId>
    var role: Role
    var leaderId: Option<NodeId>
    var commitIndex: nat
    var lastApplied: nat
    var nextIndex: map<NodeId, nat>
    var matchIndex: map<NodeId, nat>
    var members: set<NodeId>
    var configIndex: nat
    var termStart: nat
    var sendSeq: nat
    var lastAck: map<NodeId, nat>
    var votes: set<NodeId>
    var generation: nat

    ghost function Value(): Node
      reads this
    {
      Node(id, term, votedFor, log, snapIndex, snapTerm, snapConfig, role, leaderId, commitIndex, lastApplied,
           nextIndex, matchIndex, members, configIndex, termStart, sendSeq, lastAck, votes, generation)
    }

    // What a restart would load is what is in memory.
    ghost predicate Mirrored()
      reads this, storage
    {
      && Consecutive(log, snapIndex)
      && storage.term == term && storage.votedFor == votedFor
      && storage.Holds(log, snapIndex)
      && storage.snapTerm == snapTerm && storage.config == Some(snapConfig)
      && storage.lastApplied == snapIndex
    }

    // ---------------------------------------------------------- Start

    // A new engine over what an earlier one stored: a restart. On the very first start
    // the bootstrap membership is remembered.
    constructor (id: NodeId, storage: MemoryRaftStorage, bootstrap: set<NodeId>, ghost was: Node)
      requires storage.Holds(was.log, was.snapIndex) && Consecutive(was.log, was.snapIndex)
      requires was.id == id && was.term == storage.term && was.votedFor == storage.votedFor && was.snapTerm == storage.snapTerm
      requires was.snapConfig == if storage.config.Some? then storage.config.value else bootstrap
      requires storage.lastApplied == storage.snapIndex
      modifies storage
      ensures Value() == Restart(was, was.snapIndex)
      ensures this.storage == storage && Mirrored()
    {
      this.id, this.storage := id, storage;
      term, votedFor, log, snapIndex, snapTerm, snapConfig := 0, None, [], 0, 0, {};
      role, leaderId, commitIndex, lastApplied := Follower, None, 0, 0;
      nextIndex, matchIndex, members, configIndex := map[], map[], {}, 0;
      termStart, sendSeq, lastAck, votes, generation := 0, 0, map[], {}, 0;
      new;
      RestorePersistentState(bootstrap, was);
    }

    method RestorePersistentState(bootstrap: set<NodeId>, ghost was: Node)
      requires storage.Holds(was.log, was.snapIndex) && Consecutive(was.log, was.snapIndex)
      requires was.id == id && was.term == storage.term && was.votedFor == storage.votedFor && was.snapTerm == storage.snapTerm
      requires was.snapConfig == if storage.config.Some? then storage.config.value else bootstrap
      requires storage.lastApplied == storage.snapIndex
      requires role == Follower && leaderId == None && nextIndex == map[] && matchIndex == map[] && termStart == 0
      requires sendSeq == 0 && lastAck == map[] && votes == {} && generation == 0
      modifies this, storage
      ensures Value() == Restart(was, was.snapIndex)
      ensures Mirrored()
    {
      hide ByIndex, Consecutive, UpFrom, Below, Above, AddAll, LatestConfig, NewestConfig, ConfigUpTo;
      hide InOrder, Refresh;
      LoadLog(was);
      term, votedFor := storage.term, storage.votedFor;
      lastApplied := Max(storage.lastApplied, snapIndex);
      commitIndex := lastApplied;
      LoadMembers(bootstrap);
      Reloaded(Value(), was);
      RefreshConfig();
    }

    method LoadLog(ghost was: Node)
      requires storage.Holds(was.log, was.snapIndex)
      modifies this`log, this`snapIndex, this`snapTerm
      ensures Value() == old(Value()).(log := was.log, snapIndex := was.snapIndex, snapTerm := storage.snapTerm)
    {
      hide InOrder, ByIndex;
      var saved := storage.Load();
      ghost var order :| InOrder(saved.log, order, storage.entries, storage.snapIndex);
      ReadsBack(was.log, was.snapIndex, saved.log, order);
      log, snapIndex, snapTerm := saved.log, saved.snapIndex, saved.snapTerm;
    }

    // The stored membership, else the bootstrap one, which is then stored.
    method LoadMembers(bootstrap: set<NodeId>)
      requires storage.Holds(log, snapIndex) && storage.snapTerm == snapTerm && storage.lastApplied == lastApplied
      modifies this`snapConfig, storage
      ensures snapConfig == if old(storage.config).Some? then old(storage.config).value else bootstrap
      ensures storage.config == Some(snapConfig)
      ensures storage.Holds(log, snapIndex) && storage.snapTerm == snapTerm && storage.lastApplied == lastApplied
      ensures storage.term == old(storage.term) && storage.votedFor == old(storage.votedFor)
      ensures Value() == old(Value()).(snapConfig := snapConfig)
    {
      hide ByIndex, Above;
      if storage.config.Some? {
        snapConfig := storage.config.value;
      } else {
        snapConfig := bootstrap;
        CompactedHolds(log, snapIndex, snapIndex);
        assert log[snapIndex - snapIndex..] == log;
        storage.SaveSnapshot(snapIndex, snapTerm, lastApplied, Some(snapConfig));
      }
    }

    // ---------------------------------------------------------- Log queries

    method TermAtIndex(i: nat) returns (t: Option<nat>)
      ensures t == NodeTermAt(Value(), i)
    {
      if i == snapIndex {
        return Some(snapTerm);
      }
      if i < snapIndex || i > snapIndex + |log| {
        return None;
      }
      return Some(log[i - snapIndex - 1].term);
    }

    // Walks back to the newest CONFIG.
    method FindLatestConfig() returns (index: nat, config: set<NodeId>)
      ensures (index, config) == LatestConfig(Value())
    {
      var k := |log|;
      assert log[..k] == log;
      while k > 0
        invariant k <= |log|
        invariant NewestConfig(log) == NewestConfig(log[..k])
      {
        assert log[..k][..k - 1] == log[..k - 1];
        match log[k - 1].command {
          case Config(m) => return log[k - 1].index, m;
          case _ =>
        }
        k := k - 1;
      }
      return snapIndex, snapConfig;
    }

    method FindConfigAt(i: nat) returns (config: set<NodeId>)
      ensures config == ConfigAt(Value(), i)
    {
      var k := |log|;
      assert log[..k] == log;
      while k > 0
        invariant k <= |log|
        invariant ConfigUpTo(log, i, snapConfig) == ConfigUpTo(log[..k], i, snapConfig)
      {
        assert log[..k][..k - 1] == log[..k - 1];
        if log[k - 1].index <= i {
          match log[k - 1].command {
            case Config(m) => return m;
            case _ =>
          }
        }
        k := k - 1;
      }
      return snapConfig;
    }

    // ---------------------------------------------------------- Log changes

    method RefreshConfig()
      modifies this`members, this`configIndex
      ensures Value() == Refresh(old(Value()))
    {
      configIndex, members := FindLatestConfig();
    }

    method AppendLocal(entries: seq<Entry>)
      requires Mirrored() && Consecutive(entries, snapIndex + |log|)
      modifies this`log, this`members, this`configIndex, storage`entries
      ensures Value() == Nodes.AppendLocal(old(Value()), entries) && Mirrored()
    {
      hide ByIndex, Consecutive, UpFrom, Below, Above, AddAll, LatestConfig, NewestConfig;
      AppendStored(log, snapIndex, entries);
      JoinConsecutive(log, snapIndex, entries);
      log := log + entries;
      storage.Append(entries);
      if exists e :: e in entries && e.command.Config? {
        RefreshConfig();
      }
    }

    method TruncateLocal(i: nat)
      requires Mirrored() && snapIndex < i <= snapIndex + |log| + 1
      modifies this`log, this`members, this`configIndex, storage`entries
      ensures Value() == Nodes.TruncateLocal(old(Value()), i) && Mirrored()
    {
      hide ByIndex, Consecutive, UpFrom, Below, Above, AddAll, LatestConfig, NewestConfig, ConfigUpTo;
      TruncatedHolds(log, snapIndex, i);
      PrefixConsecutive(log, snapIndex, i - snapIndex - 1);
      log := log[..i - snapIndex - 1];
      storage.TruncateFrom(i);
      RefreshConfig();
    }

    method CompactThrough(i: nat, t: nat, config: set<NodeId>)
      requires i >= snapIndex
      modifies this`log, this`snapIndex, this`snapTerm, this`snapConfig
      ensures Value() == Nodes.CompactThrough(old(Value()), i, t, config)
    {
      var own := TermAtIndex(i);
      log := if own == Some(t) then log[i - snapIndex..] else [];
      snapIndex, snapTerm, snapConfig := i, t, config;
    }

    method MaybeSnapshot(threshold: nat)
      requires Mirrored() && snapIndex <= lastApplied <= snapIndex + |log|
      modifies this`log, this`snapIndex, this`snapTerm, this`snapConfig, storage
      ensures Value() == Nodes.MaybeSnapshot(old(Value()), threshold) && Mirrored()
    {
      hide ByIndex, Consecutive, UpFrom, Below, Above, AddAll, LatestConfig, NewestConfig, ConfigUpTo;
      if threshold == 0 || lastApplied - snapIndex < threshold {
        return;
      }
      var t := TermAtIndex(lastApplied);
      var config := FindConfigAt(lastApplied);
      CompactedHolds(log, snapIndex, lastApplied);
      SuffixConsecutive(log, snapIndex, lastApplied - snapIndex);
      CompactThrough(lastApplied, t.value, config);
      storage.SaveSnapshot(snapIndex, snapTerm, lastApplied, Some(snapConfig));
    }

    // ---------------------------------------------------------- Roles

    method PersistTermAndVote()
      modifies storage`term, storage`votedFor
      ensures storage.term == term && storage.votedFor == votedFor
    {
      storage.SaveTermAndVote(term, votedFor);
    }

    // A newer term: no vote in it yet, no leader known; stored at once.
    method AdoptTerm(t: nat)
      requires Mirrored()
      modifies this`term, this`votedFor, this`leaderId, storage`term, storage`votedFor
      ensures Value() == old(Value()).(term := t, votedFor := None, leaderId := None) && Mirrored()
    {
      hide ByIndex, Consecutive;
      term, votedFor, leaderId := t, None, None;
      PersistTermAndVote();
    }

    method StandDown()
      modifies this`role, this`generation
      ensures Value() == old(Value()).(role := Follower, generation := old(generation) + 1)
    {
      role, generation := Follower, generation + 1;
    }

    method BecomeFollower(t: nat)
      requires Mirrored()
      modifies this`term, this`votedFor, this`leaderId, this`role, this`generation, storage`term, storage`votedFor
      ensures Value() == Nodes.BecomeFollower(old(Value()), t) && Mirrored()
    {
      hide ByIndex, Consecutive;
      if t > term {
        AdoptTerm(t);
      }
      if role.Leader? {
        leaderId := None;
      }
      StandDown();
    }

    method AcceptLeader(t: nat, leader: NodeId)
      requires Mirrored()
      modifies this`term, this`votedFor, this`leaderId, this`role, this`generation, storage`term, storage`votedFor
      ensures Value() == Nodes.AcceptLeader(old(Value()), t, leader) && Mirrored()
    {
      hide ByIndex, Consecutive, UpFrom, Below, Above, AddAll, LatestConfig, NewestConfig, ConfigUpTo;
      if t > term || !role.Follower? {
        BecomeFollower(t);
      } else {
        generation := generation + 1;
      }
      leaderId := Some(leader);
    }

    method CountReplicas(index: nat) returns (count: nat)
      ensures count == |Replicas(Value(), index)|
    {
      var replicas := set m | m in members && (m == id || Lookup(matchIndex, m) >= index);
      assert replicas == Replicas(Value(), index);
      return |replicas|;
    }

    // Scans down for the highest entry of this term on a majority of the members.
    method AdvanceCommitIndex()
      modifies this`commitIndex
      ensures Value() == AdvanceCommit(old(Value()))
    {
      hide Replicas, NodeTermAt;
      if !role.Leader? {
        return;
      }
      var index: nat := snapIndex + |log|;
      while index > commitIndex
        invariant commitIndex == old(commitIndex) && index <= snapIndex + |log|
        invariant CommitScan(Value(), index) == CommitScan(Value(), snapIndex + |log|)
      {
        var t := TermAtIndex(index);
        if t != Some(term) {
          break;
        }
        var replicas := CountReplicas(index);
        if replicas >= |members| / 2 + 1 {
          commitIndex := index;
          return;
        }
        index := index - 1;
      }
    }

    // Optimistic: assume every peer has the whole log.
    method ResetPeers(next: nat)
      modifies this`nextIndex, this`matchIndex, this`lastAck, this`termStart
      ensures Value() == old(Value()).(
        nextIndex := map p | p in members - {id} :: next, matchIndex := map p | p in members - {id} :: 0,
        lastAck := map[], termStart := next)
    {
      nextIndex := map p | p in members - {id} :: next;
      matchIndex := map p | p in members - {id} :: 0;
      lastAck := map[];
      termStart := next;
    }

    method TakeSeat()
      modifies this`role, this`leaderId, this`generation, this`nextIndex, this`matchIndex, this`lastAck, this`termStart
      ensures Value() == Seated(old(Value()))
    {
      role, leaderId, generation := Leader, Some(id), generation + 1;
      ResetPeers(snapIndex + |log| + 1);
    }

    method BecomeLeader()
      requires Mirrored()
      modifies this, storage`entries
      ensures Value() == Nodes.BecomeLeader(old(Value())) && Mirrored()
    {
      hide ByIndex, Consecutive, Nodes.AppendLocal, AdvanceCommit, Seated, TakeOffice;
      TakeSeat();
      SeatedKeeps(old(Value()));
      var noop := Entry(term, snapIndex + |log| + 1, Noop, "", None);
      OneConsecutive(noop, snapIndex + |log|);
      AppendLocal([noop]);
      AdvanceCommitIndex();
      TakeOfficeInTwo(old(Value()));
    }

    // The vote for itself is stored before anybody hears of the candidacy.
    method RaiseTerm()
      requires Mirrored()
      modifies this`term, this`votedFor, this`leaderId, storage`term, storage`votedFor
      ensures Value() == old(Value()).(term := old(term) + 1, votedFor := Some(id), leaderId := None) && Mirrored()
    {
      hide ByIndex, Consecutive;
      term, votedFor, leaderId := term + 1, Some(id), None;
      PersistTermAndVote();
    }

    method BecomeCandidate()
      requires Mirrored()
      modifies this, storage
      ensures Value() == Nodes.BecomeCandidate(old(Value())) && Mirrored()
    {
      hide ByIndex, Consecutive, Nodes.BecomeLeader;
      RaiseTerm();
      role, votes, generation := Candidate, {id}, generation + 1;
      if |votes * members| >= |members| / 2 + 1 {
        BecomeLeader();
      }
    }

    method Propose(c: Command, username: string, request: Option<RequestId>)
      requires Mirrored()
      modifies this, storage`entries
      ensures Value() == Nodes.Propose(old(Value()), c, username, request) && Mirrored()
    {
      hide ByIndex, Consecutive, Nodes.AppendLocal, AdvanceCommit;
      var e := Entry(term, snapIndex + |log| + 1, c, username, request);
      OneConsecutive(e, snapIndex + |log|);
      AppendLocal([e]);
      AdvanceCommitIndex();
    }

    // ---------------------------------------------------------- Handlers

    method LogOk(req: VoteRequest) returns (ok: bool)
      ensures ok == Nodes.LogOk(Value(), req)
    {
      var lastTerm := if log != [] then log[|log| - 1].term else snapTerm;
      return req.lastLogTerm > lastTerm || (req.lastLogTerm == lastTerm && req.lastLogIndex >= snapIndex + |log|);
    }

    // Would it vote? The answer changes nothing.
    method HandlePreVote(req: VoteRequest, inLease: bool) returns (reply: VoteReply)
      ensures reply == Nodes.HandlePreVote(Value(), req, inLease)
    {
      var ok := LogOk(req);
      return VoteReply(term, req.term > term && !inLease && ok);
    }

    // Stored before the reply goes out.
    method GrantVote(candidate: NodeId)
      requires Mirrored()
      modifies this`votedFor, this`generation, storage`term, storage`votedFor
      ensures Value() == old(Value()).(votedFor := Some(candidate), generation := old(generation) + 1) && Mirrored()
    {
      hide ByIndex, Consecutive;
      votedFor := Some(candidate);
      PersistTermAndVote();
      generation := generation + 1;
    }

    method HandleRequestVote(req: VoteRequest, inLease: bool) returns (reply: VoteReply)
      requires Mirrored()
      modifies this, storage
      ensures (Value(), reply) == HandleVoteRequest(old(Value()), req, inLease) && Mirrored()
    {
      hide ByIndex, Consecutive, Nodes.BecomeFollower, Nodes.LogOk;
      if req.term > term && !req.transfer && inLease {
        return VoteReply(term, false);
      }
      if req.term > term {
        BecomeFollower(req.term);
      }
      if req.term < term {
        return VoteReply(term, false);
      }
      if votedFor.Some? && votedFor.value != req.candidate {
        return VoteReply(term, false);
      }
      var ok := LogOk(req);
      if !ok {
        return VoteReply(term, false);
      }
      GrantVote(req.candidate);
      return VoteReply(term, true);
    }

    method HandleVoteReply(from: NodeId, req: VoteRequest, reply: VoteReply)
      requires Mirrored()
      modifies this, storage
      ensures Value() == Nodes.HandleVoteReply(old(Value()), from, req, reply) && Mirrored()
    {
      hide ByIndex, Consecutive, UpFrom, Below, Above, AddAll, LatestConfig, NewestConfig, ConfigUpTo;
      if reply.term > term {
        BecomeFollower(reply.term);
        return;
      }
      if !role.Candidate? || term != req.term || !reply.granted {
        return;
      }
      votes := votes + {from};
      if |votes * members| >= |members| / 2 + 1 {
        BecomeLeader();
      }
    }

    method HandleTimeoutNow(t: nat)
      requires Mirrored()
      modifies this, storage
      ensures Value() == Nodes.HandleTimeoutNow(old(Value()), t) && Mirrored()
    {
      hide ByIndex, Consecutive, UpFrom, Below, Above, AddAll, LatestConfig, NewestConfig, ConfigUpTo;
      if t >= term && id in members && !role.Leader? {
        BecomeCandidate();
      }
    }

    // First index of the run of equal terms that ends at i.
    method FindFirstOfTerm(i: nat) returns (first: nat)
      ensures first == FirstOfTerm(Value(), i)
    {
      var t := TermAtIndex(i);
      first := i;
      while first > 0 && first - 1 > snapIndex
        invariant first <= i && NodeTermAt(Value(), first) == t
        invariant FirstOfTerm(Value(), first) == FirstOfTerm(Value(), i)
        decreases first
      {
        var before := TermAtIndex(first - 1);
        if before != t {
          break;
        }
        first := first - 1;
      }
    }

    // How many of the entries the log already has.
    method CountKnown(entries: seq<Entry>, prev: nat) returns (k: nat)
      requires snapIndex <= prev <= snapIndex + |log| && Consecutive(entries, prev)
      ensures k == Known(Value(), entries) && prev + k <= snapIndex + |log|
    {
      assert entries[0..] == entries;
      for i := 0 to |entries|
        invariant Known(Value(), entries) == i + Known(Value(), entries[i..])
        invariant prev + i <= snapIndex + |log|
      {
        assert entries[i..][0] == entries[i] && entries[i..][1..] == entries[i + 1..];
        var existing := TermAtIndex(entries[i].index);
        if existing != Some(entries[i].term) {
          return i;
        }
      }
      assert entries[|entries|..] == [];
      return |entries|;
    }

    // Skips what the log already has, cuts a conflicting tail, appends the rest.
    method MergeEntries(entries: seq<Entry>, prev: nat)
      requires Mirrored() && snapIndex <= prev <= snapIndex + |log| && Consecutive(entries, prev)
      modifies this`log, this`members, this`configIndex, storage`entries
      ensures Value() == Merge(old(Value()), entries) && Mirrored()
    {
      hide ByIndex, Known, NewestConfig;
      var k := CountKnown(entries, prev);
      if k == |entries| {
        return;
      }
      SuffixConsecutive(entries, prev, k);
      var existing := TermAtIndex(entries[k].index);
      if existing.Some? {
        TruncateLocal(entries[k].index);
      }
      AppendLocal(entries[k..]);
    }

    method HandleAppendEntries(req: AppendRequest) returns (reply: AppendReply)
      requires Mirrored() && Consecutive(req.entries, req.prevIndex)
      modifies this, storage
      ensures (Value(), reply) == HandleAppend(old(Value()), req) && Mirrored()
    {
      hide HandleAppend, Consecutive, ByIndex, Nodes.AcceptLeader, AppendTail;
      AppendInTwo(Value(), req);
      if req.term < term {
        return AppendReply(term, false, 0, 0);
      }
      AcceptLeader(req.term, req.leader);
      reply := AppendAccepted(req);
    }

    // The rest, once the sender is accepted as leader.
    method AppendAccepted(req: AppendRequest) returns (reply: AppendReply)
      requires Mirrored() && Consecutive(req.entries, req.prevIndex)
      modifies this, storage
      ensures (Value(), reply) == AppendTail(old(Value()), req) && Mirrored()
    {
      hide Consecutive, ByIndex, Merge, FirstOfTerm;
      var prev, prevTerm, entries := req.prevIndex, req.prevTerm, req.entries;
      if prev < snapIndex {
        var k := Min(snapIndex - prev, |entries|);
        SliceConsecutive(entries, prev, k, snapIndex);
        entries := entries[k..];
        prev, prevTerm := snapIndex, snapTerm;
      }
      assert (prev, prevTerm, entries) == Trimmed(Value(), req);
      if prev > snapIndex + |log| {
        return AppendReply(term, false, 0, snapIndex + |log| + 1);
      }
      var own := TermAtIndex(prev);
      if own != Some(prevTerm) {
        var first := FindFirstOfTerm(prev);
        return AppendReply(term, false, 0, first);
      }
      MergeEntries(entries, prev);
      var lastNew := prev + |entries|;
      if req.leaderCommit > commitIndex {
        commitIndex := Max(commitIndex, Min(req.leaderCommit, lastNew));
      }
      return AppendReply(term, true, lastNew, 0);
    }

    method NoteContact(from: NodeId, number: nat)
      modifies this`lastAck
      ensures Value() == Nodes.NoteContact(old(Value()), from, number)
    {
      lastAck := lastAck[from := Max(Lookup(lastAck, from), number)];
    }

    method NoteMatch(from: NodeId, match': nat)
      modifies this`matchIndex, this`nextIndex, this`commitIndex
      ensures Value() == Nodes.NoteMatch(old(Value()), from, match')
    {
      matchIndex := matchIndex[from := Max(Lookup(matchIndex, from), match')];
      nextIndex := nextIndex[from := matchIndex[from] + 1];
      AdvanceCommitIndex();
    }

    method HandleAppendReply(from: NodeId, number: nat, req: AppendRequest, reply: AppendReply)
      requires Mirrored()
      modifies this, storage
      ensures Value() == Nodes.HandleAppendReply(old(Value()), from, number, req, reply) && Mirrored()
    {
      hide ByIndex, Consecutive, UpFrom, Below, Above, AddAll, LatestConfig, NewestConfig, ConfigUpTo;
      if reply.term > term {
        BecomeFollower(reply.term);
        return;
      }
      if !role.Leader? || term != req.term {
        return;
      }
      NoteContact(from, number);
      if reply.success {
        NoteMatch(from, Max(req.prevIndex + |req.entries|, reply.matchIndex));
      } else {
        var hint := if reply.conflictIndex != 0 then reply.conflictIndex else req.prevIndex;
        nextIndex := nextIndex[from := Max(1, Min(hint, req.prevIndex))];
      }
    }

    // A log that disagrees with the snapshot goes from the storage, too.
    method CutStored(req: SnapshotRequest)
      requires Mirrored() && req.index > snapIndex
      modifies storage`entries
      ensures var m := Nodes.CompactThrough(Value(), req.index, req.lastTerm, req.config);
        Above(storage.entries, req.index) == ByIndex(m.log, req.index) && Consecutive(m.log, req.index)
    {
      hide ByIndex, Consecutive, Above, Below;
      var own := TermAtIndex(req.index);
      if own != Some(req.lastTerm) {
        EmptiedHolds(log, snapIndex, req.index);
        NoneConsecutive(req.index);
        storage.TruncateFrom(snapIndex + 1);
      } else {
        CompactedHolds(log, snapIndex, req.index);
        SuffixConsecutive(log, snapIndex, req.index - snapIndex);
      }
    }

    // The last chunk has arrived and the state machine is free.
    method InstallSnapshot(req: SnapshotRequest) returns (reply: SnapshotReply)
      requires Mirrored() && snapIndex <= lastApplied
      modifies this, storage
      ensures (Value(), reply) == Nodes.InstallSnapshot(old(Value()), req) && Mirrored()
    {
      hide ByIndex, Consecutive, Above, Below, Nodes.CompactThrough, LatestConfig;
      if req.index <= lastApplied {
        return SnapshotReply(term, true);
      }
      CutStored(req);
      CompactedShape(Value(), req.index, req.lastTerm, req.config);
      CompactThrough(req.index, req.lastTerm, req.config);
      commitIndex := Max(commitIndex, req.index);
      lastApplied := Max(lastApplied, req.index);
      storage.SaveSnapshot(snapIndex, snapTerm, lastApplied, Some(req.config));
      RefreshConfig();
      return SnapshotReply(term, true);
    }

    method HandleSnapshotReply(from: NodeId, number: nat, req: SnapshotRequest, reply: SnapshotReply)
      requires Mirrored()
      modifies this, storage
      ensures Value() == Nodes.HandleSnapshotReply(old(Value()), from, number, req, reply) && Mirrored()
    {
      hide ByIndex, Consecutive, UpFrom, Below, Above, AddAll, LatestConfig, NewestConfig, ConfigUpTo;
      if reply.term > term {
        BecomeFollower(reply.term);
        return;
      }
      if !role.Leader? || term != req.term {
        return;
      }
      NoteContact(from, number);
      if reply.success && req.done {
        NoteMatch(from, req.index);
      }
    }

    // Entry e at lastApplied + 1 has gone through the state machine.
    method FinishApply(e: Entry, threshold: nat)
      requires Mirrored() && snapIndex <= lastApplied < snapIndex + |log|
      modifies this, storage
      ensures Value() == Nodes.MaybeSnapshot(Applied(old(Value()), e), threshold) && Mirrored()
    {
      hide ByIndex, Consecutive, UpFrom, Below, Above, AddAll, LatestConfig, NewestConfig, ConfigUpTo;
      lastApplied := lastApplied + 1;
      if e.command.Config? && role.Leader? && id !in members && lastApplied >= configIndex {
        BecomeFollower(term);
      }
      MaybeSnapshot(threshold);
    }
  }

  // ------------------------------------------------------------ Crash and restart

  // Whatever an engine did before it crashed, a new one over its storage has its term,
  // vote, log, snapshot boundary and membership; only volatile state is gone.
  method RestartOver(e: RaftEngine, bootstrap: set<NodeId>) returns (f: RaftEngine)
    requires e.Mirrored()
    modifies e.storage
    ensures f.Value() == Restart(old(e.Value()), old(e.snapIndex)) && f.Mirrored() && f.storage == e.storage
    ensures f.term == e.term && f.votedFor == e.votedFor && f.log == e.log
    ensures f.snapIndex == e.snapIndex && f.snapTerm == e.snapTerm && f.snapConfig == e.snapConfig
    ensures (f.configIndex, f.members) == LatestConfig(f.Value())
  {
    f := new RaftEngine(e.id, e.storage, bootstrap, e.Value());
  }

  // The first start over an empty storage is a start of the cluster model.
  method FirstStart(id: NodeId, bootstrap: set<NodeId>) returns (f: RaftEngine)
    ensures f.Mirrored() && f.id == id && f.term == 0 && f.votedFor == None && f.log == []
    ensures f.snapIndex == 0 && f.snapTerm == 0 && f.snapConfig == bootstrap
    ensures f.Value() == Restart(f.Value(), 0)
  {
    var storage := new MemoryRaftStorage();
    ghost var was := Node(id, 0, None, [], 0, 0, bootstrap, Follower, None, 0, 0, map[], map[], {}, 0, 0, 0, map[], {}, 0);
    EmptyStored();
    f := new RaftEngine(id, storage, bootstrap, was);
    RestartTwice(was);
  }

  lemma EmptyStored()
    ensures ByIndex([], 0) == map[] && Consecutive([], 0)
  {
  }

  lemma RestartTwice(n: Node)
    ensures Restart(Restart(n, n.snapIndex), n.snapIndex) == Restart(n, n.snapIndex)
  {
    hide NewestConfig;
  }

  // ------------------------------------------------------------ Facts for the methods

  // What is left of HandleAppend once the sender is accepted.
  ghost function AppendTail(m: Node, req: AppendRequest): (Node, AppendReply) {
    var (prev, prevTerm, entries) := Trimmed(m, req);
    if prev > LastIndex(m) then (m, AppendReply(m.term, false, 0, LastIndex(m) + 1))
    else if NodeTermAt(m, prev) != Some(prevTerm) then (m, AppendReply(m.term, false, 0, FirstOfTerm(m, prev)))
    else
      var r := Merge(m, entries);
      var lastNew := prev + |entries|;
      var c := if req.leaderCommit > r.commitIndex then Max(r.commitIndex, Min(req.leaderCommit, lastNew)) else r.commitIndex;
      (r.(commitIndex := c), AppendReply(m.term, true, lastNew, 0))
  }

  lemma AppendInTwo(n: Node, req: AppendRequest)
    ensures HandleAppend(n, req) ==
      if req.term < n.term then (n, AppendReply(n.term, false, 0, 0)) else AppendTail(AcceptLeader(n, req.term, req.leader), req)
  {
    hide Merge, FirstOfTerm, AcceptLeader, NodeTermAt, Trimmed;
  }

  lemma CompactedShape(n: Node, i: nat, t: nat, config: set<NodeId>)
    requires i >= n.snapIndex
    ensures var m := CompactThrough(n, i, t, config);
      m == n.(log := m.log, snapIndex := i, snapTerm := t, snapConfig := config)
  {
  }

  // A new leader before it has appended its no-op.
  ghost function Seated(n: Node): Node {
    var next, peers := LastIndex(n) + 1, n.members - {n.id};
    n.(role := Leader, leaderId := Some(n.id), generation := n.generation + 1,
       nextIndex := map p | p in peers :: next, matchIndex := map p | p in peers :: 0,
       lastAck := map[], termStart := next)
  }

  lemma SeatedKeeps(n: Node)
    ensures var m := Seated(n);
      && m.term == n.term && m.log == n.log && m.snapIndex == n.snapIndex && LastIndex(m) == LastIndex(n)
  {
  }

  lemma TakeOfficeInTwo(n: Node)
    ensures TakeOffice(n) == AppendLocal(Seated(n), [Entry(n.term, LastIndex(n) + 1, Noop, "", None)])
  {
    hide AppendLocal;
  }

  // The fields as they are just before the membership is looked up.
  lemma Reloaded(n: Node, was: Node)
    requires n.id == was.id && n.term == was.term && n.votedFor == was.votedFor && n.log == was.log
    requires n.snapIndex == was.snapIndex && n.snapTerm == was.snapTerm && n.snapConfig == was.snapConfig
    requires n.role == Follower && n.leaderId == None && n.commitIndex == n.lastApplied == was.snapIndex
    requires n.nextIndex == map[] && n.matchIndex == map[] && n.termStart == 0 && n.sendSeq == 0
    requires n.lastAck == map[] && n.votes == {} && n.generation == 0
    ensures Refresh(n) == Restart(was, was.snapIndex)
  {
  }

  lemma PrefixConsecutive(log: seq<Entry>, start: nat, n: nat)
    requires Consecutive(log, start) && n <= |log|
    ensures Consecutive(log[..n], start)
  {
  }

  lemma SuffixConsecutive(log: seq<Entry>, start: nat, n: nat)
    requires Consecutive(log, start)
    ensures n <= |log| ==> Consecutive(log[n..], start + n)
  {
  }

  lemma SliceConsecutive(log: seq<Entry>, start: nat, k: nat, above: nat)
    requires Consecutive(log, start) && start < above && k == Min(above - start, |log|)
    ensures Consecutive(log[k..], above)
  {
  }

  lemma JoinConsecutive(log: seq<Entry>, start: nat, more: seq<Entry>)
    requires Consecutive(log, start) && Consecutive(more, start + |log|)
    ensures Consecutive(log + more, start)
  {
  }

  lemma AppendStored(log: seq<Entry>, start: nat, more: seq<Entry>)
    requires Consecutive(more, start + |log|)
    ensures (if more == [] then ByIndex(log, start) else AddAll(Below(ByIndex(log, start), more[0].index), more)) == ByIndex(log + more, start)
  {
    hide ByIndex, Below;
    AppendedHolds(log, start, more);
    NothingBelow(log, start);
  }

  lemma OneConsecutive(e: Entry, start: nat)
    requires e.index == start + 1
    ensures Consecutive([e], start)
  {
  }

  lemma NoneConsecutive(start: nat)
    ensures Consecutive([], start)
  {
  }
}
