// A pre-vote round asks the voters before a real election and may start one. Whatever
// happens at the node meanwhile, one round starts at most one election.
module PreVotes {
  import opened Types
  import opened Nodes
  import opened StepShapes
  import opened Elections

  // number: the timer generation the round began with.
  datatype Round = Round(number: nat, term: nat, grants: set<NodeId>)

  predicate MayAsk(n: Node) {
    !n.role.Leader? && n.id in n.members && n.members != {n.id}
  }

  // Asking resets the timer; the round carries the new number.
  function Ask(n: Node): (Node, Round)
    requires MayAsk(n)
  {
    var m := n.(generation := n.generation + 1);
    (m, Round(m.generation, n.term + 1, {n.id}))
  }

  // A round that is asked for ends the earlier ones: their answers start nothing.
  lemma NewRoundEndsEarlier(n: Node, earlier: Round, from: NodeId, reply: VoteReply)
    requires MayAsk(n) && earlier.number <= n.generation
    ensures var (m, round) := Ask(n);
      !Hear(m, earlier, from, reply).2 && earlier.number < round.number == m.generation
  {
    hide BecomeCandidate;
  }

  // One answer; true if it starts the election.
  function Hear(n: Node, round: Round, from: NodeId, reply: VoteReply): (Node, Round, bool) {
    if reply.term > n.term then (BecomeFollower(n, reply.term), round, false)
    else if round.number != n.generation || n.role.Leader? then (n, round, false)
    else if !reply.granted then (n, round, false)
    else
      var r := round.(grants := round.grants + {from});
      if |r.grants * n.members| >= Majority(n) then (BecomeCandidate(n), r, true) else (n, r, false)
  }

  // What can happen at the node while the round is under way: one of its answers
  // arrives, or any other step of the node is taken.
  datatype Event = Heard(from: NodeId, reply: VoteReply) | Other(after: Node)

  ghost predicate Possible(n: Node, e: Event) {
    e.Other? ==> Forward(n, e.after)
  }

  ghost predicate IsHistory(ns: seq<Node>, rounds: seq<Round>, events: seq<Event>) {
    && |ns| == |rounds| == |events| + 1
    && forall i :: 0 <= i < |events| ==>
         && Possible(ns[i], events[i])
         && (match events[i]
             case Heard(from, reply) => (ns[i + 1], rounds[i + 1]) == (Hear(ns[i], rounds[i], from, reply).0, Hear(ns[i], rounds[i], from, reply).1)
             case Other(after) => ns[i + 1] == after && rounds[i + 1] == rounds[i])
  }

  predicate Starts(n: Node, r: Round, e: Event) {
    e.Heard? && Hear(n, r, e.from, e.reply).2
  }

  lemma HearForward(n: Node, r: Round, from: NodeId, reply: VoteReply)
    ensures var (m, s, started) := Hear(n, r, from, reply);
      && m.generation >= n.generation && s.number == r.number
      && (started ==> r.number == n.generation && m.generation > n.generation && m.term == n.term + 1)
  {
    hide BecomeFollower, BecomeCandidate, Majority;
    FollowerForward(n, reply.term);
    CandidateForward(n);
    CandidateTicks(n);
  }

  lemma CandidateTicks(n: Node)
    ensures BecomeCandidate(n).generation > n.generation
  {
    hide CommitScan, LatestConfig;
  }

  lemma {:induction false} GenerationRises(ns: seq<Node>, rounds: seq<Round>, events: seq<Event>, i: nat, j: nat)
    requires IsHistory(ns, rounds, events) && i <= j < |ns|
    ensures ns[i].generation <= ns[j].generation && rounds[i].number == rounds[j].number
    decreases j
  {
    hide Hear;
    if i < j {
      GenerationRises(ns, rounds, events, i, j - 1);
      assert Possible(ns[j - 1], events[j - 1]);
      if events[j - 1].Heard? {
        HearForward(ns[j - 1], rounds[j - 1], events[j - 1].from, events[j - 1].reply);
      }
    }
  }

  // One round starts at most one election, whatever else the node does.
  lemma OneElectionPerRound(ns: seq<Node>, rounds: seq<Round>, events: seq<Event>, i: nat, j: nat)
    requires IsHistory(ns, rounds, events) && i < |events| && j < |events|
    requires Starts(ns[i], rounds[i], events[i]) && Starts(ns[j], rounds[j], events[j])
    ensures i == j
  {
    hide Hear;
    var a, b := if i <= j then i else j, if i <= j then j else i;
    if a < b {
      StartsTicks(ns[a], rounds[a], events[a]);
      StartsTicks(ns[b], rounds[b], events[b]);
      assert Possible(ns[a], events[a]);
      GenerationRises(ns, rounds, events, a, b);
      GenerationRises(ns, rounds, events, a + 1, b);
      assert false;
    }
  }

  lemma StartsTicks(n: Node, r: Round, e: Event)
    requires Starts(n, r, e)
    ensures r.number == n.generation && Hear(n, r, e.from, e.reply).0.generation > n.generation
  {
    HearForward(n, r, e.from, e.reply);
  }

  // An answer starts the election if and only if nothing moved since the question was
  // asked, so that the round's number is still the node's own, and with this answer a
  // majority of voters has said yes; the node then stands. No answer does so twice.
  lemma ElectionIffBacked(n: Node, r: Round, from: NodeId, reply: VoteReply)
    ensures Starts(n, r, Heard(from, reply)) <==>
      && reply.term <= n.term && r.number == n.generation && !n.role.Leader?
      && reply.granted && |(r.grants + {from}) * n.members| >= Majority(n)
    ensures var (m, s, started) := Hear(n, r, from, reply);
      && (started ==> Stands(n, m) && !Starts(m, s, Heard(from, reply)))
      && (reply.term > n.term ==> GivesWay(n, m, reply.term))
      && (reply.term <= n.term && !started ==> m == n)
      && (reply.term <= n.term && r.number == n.generation && !n.role.Leader? && reply.granted ==> s.grants == r.grants + {from})
  {
    hide BecomeCandidate, Stands;
    CandidateStands(n);
    if Starts(n, r, Heard(from, reply)) {
      StartsTicks(n, r, Heard(from, reply));
      HearForward(n, r, from, reply);
    }
  }

  // A round asks about the very term the election would be in.
  lemma AsksAboutNextTerm(n: Node)
    requires MayAsk(n)
    ensures var (m, r) := Ask(n); m.term == n.term && r.term == BecomeCandidate(m).term && r.grants == {n.id} && n.id in n.members
    ensures |Ask(n).1.grants * n.members| < Majority(n)
  {
    hide BecomeCandidate;
    CandidateStands(Ask(n).0);
    SoleVoter(n);
  }

  // Whoever hears from a leader, gives way, votes for somebody or stands itself has ended
  // its rounds: their answers start nothing any more.
  lemma RoundsEnd(n: Node, r: Round, from: NodeId, reply: VoteReply, t: nat, leader: NodeId, req: VoteRequest, inLease: bool)
    requires r.number <= n.generation
    ensures !Hear(AcceptLeader(n, t, leader), r, from, reply).2
    ensures !Hear(BecomeFollower(n, t), r, from, reply).2
    ensures !Hear(BecomeCandidate(n), r, from, reply).2
    ensures HandleVoteRequest(n, req, inLease).1.granted ==> !Hear(HandleVoteRequest(n, req, inLease).0, r, from, reply).2
  {
    hide BecomeCandidate, HandleVoteRequest, Majority;
    CandidateTicks(n);
    VoteIsCast(n, req, inLease);
  }
}
