// The durable part of a cluster without compaction: one term and one whole log per
// node, beside the ghost history. Every handler of the program moves this state by
// the steps below, or not at all.
module Worlds {
  import opened Types
  import opened Logs
  import opened Quorums
  import opened Histories
  import opened HistoryGrowth

  datatype Replica = Replica(term: nat, log: Log)

  datatype World = World(history: History, replicas: map<NodeId, Replica>)

  ghost predicate ReplicasGood(w: World) {
    forall v :: v in w.replicas ==> Valid(w.history, w.replicas[v].log) && TermsBelow(w.replicas[v].log, w.replicas[v].term + 1)
  }

  // Nobody voted or campaigned in a term it has not reached.
  ghost predicate TermsSeen(w: World) {
    && (forall s :: s in w.history.votes ==> s.node in w.replicas && s.term <= w.replicas[s.node].term)
    && (forall s :: s in w.history.campaigns ==> s.node in w.replicas && s.term <= w.replicas[s.node].term)
  }

  // A node still holds what it acknowledged, unless a later leader lacked it.
  ghost predicate AckHeld(h: History, r: Replica, a: Ack)
    requires a.term in h.logs && a.index <= |h.logs[a.term]|
  {
    var p := h.logs[a.term][..a.index];
    a.term <= r.term && (p <= r.log || LostBetween(h, p, a.term, r.term + 1))
  }

  ghost predicate AcksHeld(w: World)
    requires AcksGood(w.history)
  {
    forall a :: a in w.history.acks ==> a.node in w.replicas && AckHeld(w.history, w.replicas[a.node], a)
  }

  // A node still in the term it won has exactly that leader's log.
  ghost predicate LeadsIn(w: World, t: nat)
    requires t in w.history.wins && t in w.history.logs
  {
    var v := w.history.wins[t].leader;
    v in w.replicas && t <= w.replicas[v].term && (t == w.replicas[v].term ==> w.replicas[v].log == w.history.logs[t])
  }

  ghost predicate LeadersInStep(w: World)
    requires w.history.wins.Keys == w.history.logs.Keys
  {
    forall t :: t in w.history.wins ==> LeadsIn(w, t)
  }

  ghost predicate Good(w: World) {
    && Sound(w.history)
    && ReplicasGood(w)
    && TermsSeen(w)
    && AcksHeld(w)
    && LeadersInStep(w)
  }

  // ------------------------------------------------------------ Raise a term

  function Raise(w: World, v: NodeId, t: nat): World
    requires v in w.replicas
  {
    w.(replicas := w.replicas[v := w.replicas[v].(term := t)])
  }

  lemma RaiseKeepsGood(w: World, v: NodeId, t: nat)
    requires Good(w) && v in w.replicas && t >= w.replicas[v].term
    ensures Good(Raise(w, v, t))
  {
    hide WinsGood, LogsGood, ConfigsGood, CampaignsGood, VotesGood, VotesKeepAcks, CommitsGood, Valid, WellFormed;
    var x := Raise(w, v, t);
    var h := w.history;
    forall a | a in h.acks
      ensures a.node in x.replicas && AckHeld(h, x.replicas[a.node], a)
    {
      assert AckHeld(h, w.replicas[a.node], a);
      var p := h.logs[a.term][..a.index];
      if LostBetween(h, p, a.term, w.replicas[a.node].term + 1) {
        LostGrowsHere(h, p, a.term, w.replicas[a.node].term + 1, x.replicas[a.node].term + 1);
      }
    }
    forall s | s in h.wins
      ensures LeadsIn(x, s)
    {
      assert LeadsIn(w, s);
    }
  }

  lemma LostGrowsHere(h: History, p: Log, lo: nat, hi: nat, hi': nat)
    requires LostBetween(h, p, lo, hi) && hi <= hi'
    ensures LostBetween(h, p, lo, hi')
  {
  }

  // What every replica and leader that a step leaves alone inherits.
  lemma Inherited(w: World, x: World, v: NodeId)
    requires Good(w) && Grows(w.history, x.history) && AcksGood(x.history)
    requires v in w.replicas && x.replicas.Keys == w.replicas.Keys
    requires forall u :: u in w.replicas && u != v ==> x.replicas[u] == w.replicas[u]
    requires x.history.wins.Keys == x.history.logs.Keys
    ensures forall u :: u in w.replicas ==> Valid(x.history, w.replicas[u].log)
    ensures forall a :: a in w.history.acks && a.node != v ==> AckHeld(x.history, x.replicas[a.node], a)
    ensures forall t :: t in w.history.wins && w.history.wins[t].leader != v && x.history.logs[t] == w.history.logs[t] ==> LeadsIn(x, t)
  {
    hide WinsGood, LogsGood, ConfigsGood, CampaignsGood, VotesGood, VotesKeepAcks, CommitsGood, Valid, WellFormed;
    forall u | u in w.replicas
      ensures Valid(x.history, w.replicas[u].log)
    {
      ValidGrows(w.history, x.history, w.replicas[u].log);
    }
    forall a | a in w.history.acks && a.node != v
      ensures AckHeld(x.history, x.replicas[a.node], a)
    {
      assert AckHeld(w.history, w.replicas[a.node], a);
      AckHeldGrows(w.history, x.history, w.replicas[a.node], a);
    }
    forall t | t in w.history.wins && w.history.wins[t].leader != v && x.history.logs[t] == w.history.logs[t]
      ensures LeadsIn(x, t)
    {
      assert LeadsIn(w, t);
    }
  }

  lemma AckHeldGrows(h: History, k: History, r: Replica, a: Ack)
    requires Grows(h, k)
    requires a.term in h.logs && a.index <= |h.logs[a.term]| && AckHeld(h, r, a)
    ensures AckHeld(k, r, a)
  {
    var p := h.logs[a.term][..a.index];
    assert k.logs[a.term][..a.index] == p;
    if LostBetween(h, p, a.term, r.term + 1) {
      LostGrows(h, k, p, a.term, r.term + 1, r.term + 1);
    }
  }

  // ------------------------------------------------------------ Start a campaign

  function Campaign(w: World, v: NodeId): World
    requires v in w.replicas
  {
    var r := w.replicas[v];
    var s := Slot(r.term + 1, v);
    var h := w.history;
    World(h.(campaigns := h.campaigns[s := r.log], votes := h.votes[s := Vote(v, r.log)]),
          w.replicas[v := r.(term := r.term + 1)])
  }

  lemma CampaignSound(w: World, v: NodeId)
    requires Good(w) && v in w.replicas
    ensures Sound(Campaign(w, v).history) && Grows(w.history, Campaign(w, v).history)
  {
    hide WinsGood, LogsGood, ConfigsGood, CampaignsGood, VotesGood, VotesKeepAcks, CommitsGood, Valid, WellFormed, GoodWin, GoodCommit;
    var h, k := w.history, Campaign(w, v).history;
    var r := w.replicas[v];
    var s := Slot(r.term + 1, v);
    assert s !in h.votes && s !in h.campaigns;
    ValidGrows(h, k, r.log);
    LogsSame(h, k);
    assert NewWinsGood(h, k) && NewConfigsGood(h, k) && NewCommitsGood(h, k);
    assert Valid(h, r.log) && TermsBelow(r.log, s.term);
    assert k.campaigns[s] == r.log && k.votes[s] == Vote(v, r.log) && UpToDate(r.log, r.log);
    assert NewCampaignsGood(h, k);
    assert NewVotesGood(h, k);
    forall a | a in k.acks
      ensures AckKept(k, s, a)
    {
      assert AckHeld(h, w.replicas[a.node], a);
      if a.node == v {
        AckHeldGrows(h, k, r, a);
      }
    }
    assert NewAcksKept(h, k);
    SoundAfter(h, k);
  }

  lemma CampaignKeepsGood(w: World, v: NodeId)
    requires Good(w) && v in w.replicas
    ensures Good(Campaign(w, v)) && Grows(w.history, Campaign(w, v).history)
  {
    hide WinsGood, LogsGood, ConfigsGood, CampaignsGood, VotesGood, VotesKeepAcks, CommitsGood, Valid, WellFormed, ReplicasGood, AcksHeld, LeadersInStep;
    var t := w.replicas[v].term + 1;
    CampaignSound(w, v);
    RaiseKeepsGood(w, v, t);
    WithHistory(Raise(w, v, t), Campaign(w, v).history);
  }

  lemma LogsSame(h: History, k: History)
    requires h.wins.Keys == h.logs.Keys && LogsGood(h) && k.wins == h.wins && k.logs == h.logs
    ensures LogsGood(k)
  {
  }

  // A grown history with the same leaders and acknowledgements, on the same replicas.
  lemma WithHistory(w: World, k: History)
    requires Good(w) && Grows(w.history, k) && Sound(k)
    requires k.wins == w.history.wins && k.logs == w.history.logs && k.acks == w.history.acks
    requires forall s :: s in k.votes || s in k.campaigns ==> s.node in w.replicas && s.term <= w.replicas[s.node].term
    ensures Good(w.(history := k))
  {
    hide WinsGood, LogsGood, ConfigsGood, CampaignsGood, VotesGood, VotesKeepAcks, CommitsGood, Valid, WellFormed;
    var x := w.(history := k);
    forall v | v in w.replicas
      ensures Valid(k, x.replicas[v].log)
    {
      ValidGrows(w.history, k, w.replicas[v].log);
    }
    forall a | a in k.acks
      ensures a.node in x.replicas && AckHeld(k, x.replicas[a.node], a)
    {
      assert AckHeld(w.history, w.replicas[a.node], a);
      AckHeldGrows(w.history, k, w.replicas[a.node], a);
    }
    forall t | t in k.wins
      ensures LeadsIn(x, t)
    {
      assert LeadsIn(w, t);
    }
  }

  // ------------------------------------------------------------ Vote

  ghost predicate MayVote(w: World, v: NodeId, c: NodeId) {
    && v in w.replicas
    && Slot(w.replicas[v].term, v) !in w.history.votes
    && Slot(w.replicas[v].term, c) in w.history.campaigns
    && UpToDate(w.history.campaigns[Slot(w.replicas[v].term, c)], w.replicas[v].log)
  }

  function CastVote(w: World, v: NodeId, c: NodeId): World
    requires v in w.replicas
  {
    var r := w.replicas[v];
    var h := w.history;
    w.(history := h.(votes := h.votes[Slot(r.term, v) := Vote(c, r.log)]))
  }

  lemma CastVoteKeepsGood(w: World, v: NodeId, c: NodeId)
    requires Good(w) && MayVote(w, v, c)
    ensures Good(CastVote(w, v, c)) && Grows(w.history, CastVote(w, v, c).history)
  {
    hide WinsGood, LogsGood, ConfigsGood, CampaignsGood, VotesGood, VotesKeepAcks, CommitsGood, Valid, WellFormed;
    var x := CastVote(w, v, c);
    var h, k := w.history, x.history;
    var r := w.replicas[v];
    var s := Slot(r.term, v);
    ValidGrows(h, k, r.log);
    CampaignFacts(h, Slot(r.term, c));
    VoterTermsBelow(h, h.campaigns[Slot(r.term, c)], r.log, r.term);
    assert NewWinsGood(h, k) && NewConfigsGood(h, k) && NewCommitsGood(h, k) && NewCampaignsGood(h, k);
    assert LogsGood(k) by { LogsSame(h, k); }
    assert NewVotesGood(h, k);
    if r.term in h.wins {
      NotAVoter(h, r.term, v);
    }
    forall a | a in k.acks
      ensures AckKept(k, s, a)
    {
      assert AckHeld(h, r, a) || a.node != v;
      if a.node == v && a.term < s.term {
        AckHeldGrows(h, k, r, a);
        NewVoteKeeps(k, r, s, a);
      }
    }
    assert NewAcksKept(h, k);
    SoundAfter(h, k);
    WithHistory(w, k);
  }

  lemma CampaignFacts(h: History, s: Slot)
    requires CampaignsGood(h) && s in h.campaigns
    ensures Valid(h, h.campaigns[s]) && TermsBelow(h.campaigns[s], s.term)
  {
  }

  lemma VoterTermsBelow(h: History, m: Log, l: Log, t: nat)
    requires UpToDate(m, l) && TermsBelow(m, t) && Valid(h, l)
    ensures TermsBelow(l, t)
  {
  }

  // A node that has not voted in a term is not among the voters of its winner.
  lemma NotAVoter(h: History, t: nat, v: NodeId)
    requires WinsGood(h) && t in h.wins && Slot(t, v) !in h.votes
    ensures v !in h.wins[t].voters
  {
    hide Valid, TermsBelow, Membership, IsMajority;
    assert GoodWin(h, t, h.wins[t]);
  }

  lemma NewVoteKeeps(k: History, r: Replica, s: Slot, a: Ack)
    requires a.term in k.logs && a.index <= |k.logs[a.term]| && AckHeld(k, r, a)
    requires a.node == s.node && a.term < s.term == r.term
    requires s in k.votes && k.votes[s].log == r.log
    requires s.term in k.wins ==> s.node !in k.wins[s.term].voters
    ensures AckKept(k, s, a)
  {
    var t := s.term;
    var p := k.logs[a.term][..a.index];
    if !(p <= r.log) {
      var u :| a.term < u < t + 1 && u in k.wins && !(p <= k.wins[u].log);
      if u < t {
        assert LostBetween(k, p, a.term, t);
      } else {
        assert LateVote(k, s);
      }
    }
  }
}
