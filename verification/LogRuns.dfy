// A replica's whole life with the database on: committed entries applied in order, local
// reads at any moment, also between the halves of a SWEEP, restarts after which entries
// are applied again, and snapshots of other replicas installed. Its answers and its state
// are a function of the log alone.
module LogRuns {
  import opened Types
  import opened PlainMaps
  import opened Machines
  import opened Sessions
  import opened Replays
  import opened Databases
  import opened WriteThrough
  import opened Snapshots
  import opened StateMachines

  // at and todo: the time of the last SWEEP and the stores it has still to do; again:
  // that SWEEP was applied before. log: the entries the machine reflects. applied: how
  // many of them Raft takes to be applied; fewer after a restart.
  datatype Replica = Replica(m: Machine, table: Table, at: int, todo: set<string>, again: bool, log: seq<Entry>, applied: nat)

  // One event at a replica: an entry goes through the state machine, a SWEEP entry in
  // two halves, the second one store at a time; a client reads; the process starts again
  // on its database; or a dump of another replica's database takes its place.
  datatype Happening =
    | Commit(e: Entry)
    | SweepRowsOf(e: Entry)
    | SweepStoreOf(user: string)
    | LocalRead(user: string, key: string, now: int)
    | Reload(newest: map<string, seq<string>>, done: nat)
    | Install(sender: Replica, lines: seq<Line>, newest: map<string, seq<string>>)

  predicate IsSweep(e: Entry) {
    e.command.Run? && e.command.op.Sweep? && e.request.None?
  }

  function LogAfter(r: Replica, e: Entry): seq<Entry> {
    if r.applied < |r.log| then r.log else r.log + [e]
  }

  ghost predicate Next(r: Replica, h: Happening, s: Replica, a: Answer, value: Option<string>) {
    match h
    case Commit(e) =>
      && r.todo == {} && s.at == r.at && s.todo == {} && !s.again && s.log == LogAfter(r, e) && s.applied == r.applied + 1
      && if e.command.Run? then EntryApplied(r.m, r.table, e.command.op, e.username, e.request, e.index, s.m, s.table, a)
         else s.m == r.m && s.table == r.table && a == Nothing
    case SweepRowsOf(e) =>
      && r.todo == {} && IsSweep(e)
      && s == Replica(SweepRows(r.m, e.command.op.now).0, r.table, e.command.op.now, r.m.stores.Keys, r.applied < |r.log|,
                      LogAfter(r, e), r.applied + 1)
      && a == Count(SweepRows(r.m, e.command.op.now).1)
    case SweepStoreOf(user) =>
      && user in r.todo && user in r.m.stores
      && s == r.(m := SweepStore(r.m, user, r.at).0, todo := r.todo - {user})
    case LocalRead(user, key, now) =>
      s == r.(m := Get(r.m, user, key, now).0) && value == Get(r.m, user, key, now).1
    case Reload(newest, done) =>
      && done <= r.applied && Newest(newest, r.m.users, r.m.rows)
      && s == r.(m := r.m.(stores := Reloaded(r.m.capacity, r.m.users, r.m.rows, newest)), todo := {}, again := false, applied := done)
    case Install(sender, lines, newest) =>
      && r.todo == {} && IsTableDump(lines, Tables(sender.m.users, sender.m.rows, sender.table))
      && match Load(lines)
         case None => s == r
         case Some(t) =>
           && Newest(newest, t.users, t.rows)
           && s == Replica(r.m.(users := t.users, rows := t.rows, stores := Reloaded(r.m.capacity, t.users, t.rows, newest)), t.sessions,
                           r.at, {}, false, sender.log, sender.applied)
  }

  // An entry goes through the state machine.
  predicate Logs(h: Happening) {
    h.Commit? || h.SweepRowsOf?
  }

  ghost function StateOf(log: seq<Entry>): State {
    Process(NEW, log, Some(MAX_SESSIONS))
  }

  // Applying the entries from s on once more changes nothing.
  ghost predicate Repeatable(log: seq<Entry>, s: nat) {
    s <= |log| && Identified(log, s, Some(MAX_SESSIONS)) && NothingToSweep(log, s, StateOf(log).data)
  }

  // The data from before the SWEEP under way.
  ghost function Earlier(r: Replica): Data {
    if r.todo == {} || r.again || r.log == [] then StateOf(r.log).data else StateOf(r.log[..|r.log| - 1]).data
  }

  // The replica agrees with the log processed so far.
  ghost predicate Follows(r: Replica) {
    var s := StateOf(r.log);
    && Agrees(r.m, s.data, Earlier(r), r.at, r.todo)
    && r.table == s.table && DistinctIndices(s.table) && IndicesBelow(s.table, |r.log| + 1)
    && Repeatable(r.log, r.applied)
  }

  // What the replica is given: the next entry, with a key, and the same one the next
  // time; a restart from which a replay changes nothing; the dump of a replica.
  ghost predicate Given(r: Replica, h: Happening) {
    match h
    case Commit(e) => NextEntryOf(r, e)
    case SweepRowsOf(e) => NextEntryOf(r, e)
    case Reload(_, done) => Repeatable(r.log, done)
    case Install(sender, _, _) => Follows(sender)
    case _ => true
  }

  predicate NextEntryOf(r: Replica, e: Entry) {
    && e.index == r.applied + 1
    && (r.applied < |r.log| ==> e == r.log[r.applied])
    && (r.applied >= |r.log| && e.command.Run? ==> KeyGiven(e.command.op))
  }

  // A read sees the log applied so far; until its user's store is swept, and with its
  // clock behind the sweep, it may see the data from before.
  ghost predicate ReadFollows(r: Replica, user: string, key: string, now: int, value: Option<string>) {
    || value == Read(StateOf(r.log).data, user, key, now)
    || (user in r.todo && now < r.at && value == Read(Earlier(r), user, key, now))
  }

  // An entry that is new to the replica gets the answer of the log; a repeated one has
  // nobody to answer.
  ghost predicate AnswerFollows(r: Replica, e: Entry, a: Answer) {
    r.applied >= |r.log| ==> a == AnswerAt(NEW, r.log + [e], |r.log|, Some(MAX_SESSIONS))
  }

  // ------------------------------------------------------------ New entries

  lemma ResultOf(log: seq<Entry>, e: Entry)
    ensures StateOf(log + [e]) == Sessions.Apply(StateOf(log), e, Some(MAX_SESSIONS)).0
    ensures AnswerAt(NEW, log + [e], |log|, Some(MAX_SESSIONS)) == Sessions.Apply(StateOf(log), e, Some(MAX_SESSIONS)).1
    ensures Repeatable(log + [e], |log| + 1)
  {
    hide Sessions.Apply, NoneExpired, SessionKept;
    assert (log + [e])[..|log|] == log;
  }

  lemma CommitFollows(r: Replica, e: Entry, s: Replica, a: Answer, value: Option<string>)
    requires Follows(r) && Next(r, Commit(e), s, a, value) && NextEntryOf(r, e) && r.applied >= |r.log|
    ensures Follows(s) && AnswerFollows(r, e, a)
  {
    hide Agrees, EntryApplied, Sessions.Apply, AnswerAt, StateOf, Repeatable;
    RepeatableWithin(r.log, r.applied);
    var st := StateOf(r.log);
    ResultOf(r.log, e);
    SweepDone(r.m, st.data, Earlier(r), r.at);
    if e.command.Run? {
      EntryMeansPlain(r.m, st.data, r.table, e, s.m, s.table, a);
    } else {
      SkipsEntry(st, e);
    }
    AnyTime(s.m, StateOf(s.log).data, s.at);
  }

  lemma RepeatableWithin(log: seq<Entry>, s: nat)
    requires Repeatable(log, s)
    ensures s <= |log|
  {
    hide Identified, NothingToSweep;
  }

  lemma SkipsEntry(s: State, e: Entry)
    requires !e.command.Run?
    ensures Sessions.Apply(s, e, Some(MAX_SESSIONS)) == (s, Nothing)
  {
  }

  lemma SweepFollows(r: Replica, e: Entry, s: Replica, a: Answer, value: Option<string>)
    requires Follows(r) && Next(r, SweepRowsOf(e), s, a, value) && NextEntryOf(r, e) && r.applied >= |r.log|
    ensures Follows(s) && AnswerFollows(r, e, a)
  {
    hide Agrees, SweepRows, Perform, Record, AnswerAt, StateOf, Repeatable;
    RepeatableWithin(r.log, r.applied);
    var st, t := StateOf(r.log), e.command.op.now;
    ResultOf(r.log, e);
    assert s.log[..|s.log| - 1] == r.log;
    SweepDone(r.m, st.data, Earlier(r), r.at);
    SweepRowsRight(r.m, st.data, t);
    SweepNames(st.data, e.username, t);
    SomeStore(r.m, t, st.data, Perform(st.data, "", Sweep(t)).0);
  }

  lemma SweepNames(d: Data, user: string, t: int)
    ensures Perform(d, user, Sweep(t)) == Perform(d, "", Sweep(t))
  {
  }

  // Without any store to do there is nothing in between.
  lemma SomeStore(m: Machine, t: int, before: Data, after: Data)
    requires Agrees(SweepRows(m, t).0, after, before, t, m.stores.Keys)
    ensures m.stores.Keys == {} ==> Agrees(SweepRows(m, t).0, after, after, t, m.stores.Keys)
  {
    hide Agrees, SweepRows;
    if m.stores.Keys == {} {
      SweepDone(SweepRows(m, t).0, after, before, t);
      AnyTime(SweepRows(m, t).0, after, t);
    }
  }

  // ------------------------------------------------------------ Entries applied again

  // What the repeated entry is: known to the table, or a SWEEP that finds nothing.
  lemma KnownAgain(log: seq<Entry>, s: nat)
    requires Repeatable(log, s) && s < |log|
    ensures Repeatable(log, s + 1)
    ensures var e := log[s];
      e.command.Run? ==>
        if e.request.Some? then Check(StateOf(log).table, e.request.value).Some?
        else e.command.op.Unknown? || (e.command.op.Sweep? && Perform(StateOf(log).data, "", e.command.op).0 == StateOf(log).data)
  {
    hide Process, Perform, SessionKept, NoneExpired;
    var e := log[s];
    assert log[..|log|] == log;
    if e.command.Run? {
      if e.request.Some? {
        NumberStays(log, s, |log|, Some(MAX_SESSIONS));
      } else if e.command.op.Sweep? {
        assert RunsAgain(e);
        SweepLeavesNone(StateOf(log).data, "", e.command.op.now);
      }
    }
  }

  lemma CommitAgain(r: Replica, e: Entry, s: Replica, a: Answer, value: Option<string>)
    requires Follows(r) && Next(r, Commit(e), s, a, value) && NextEntryOf(r, e) && r.applied < |r.log|
    ensures Follows(s)
  {
    hide Agrees, Machines.Apply, StateOf, Repeatable, Perform;
    var st := StateOf(r.log);
    KnownAgain(r.log, r.applied);
    SweepDone(r.m, st.data, Earlier(r), r.at);
    if e.command.Run? && e.request.None? {
      RunAgain(r.m, st.data, e);
    }
    AnyTime(s.m, st.data, s.at);
  }

  lemma RunAgain(m: Machine, d: Data, e: Entry)
    requires AtRest(m, d) && e.command.Run?
    requires e.command.op.Unknown? || (e.command.op.Sweep? && Perform(d, "", e.command.op).0 == d)
    ensures AtRest(Machines.Apply(m, e.username, e.command.op).0, d)
  {
    hide AtRest, ApplySweep, Perform;
    if e.command.op.Sweep? {
      SweepRight(m, d, e.command.op.now);
    }
  }

  lemma SweepAgain(r: Replica, e: Entry, s: Replica, a: Answer, value: Option<string>)
    requires Follows(r) && Next(r, SweepRowsOf(e), s, a, value) && NextEntryOf(r, e) && r.applied < |r.log|
    ensures Follows(s)
  {
    hide Agrees, SweepRows, Perform, StateOf, Repeatable;
    var st, t := StateOf(r.log), e.command.op.now;
    KnownAgain(r.log, r.applied);
    SweepDone(r.m, st.data, Earlier(r), r.at);
    SweepRowsRight(r.m, st.data, t);
  }

  // ------------------------------------------------------------ The other events

  lemma StoreFollows(r: Replica, user: string, s: Replica, a: Answer, value: Option<string>)
    requires Follows(r) && Next(r, SweepStoreOf(user), s, a, value)
    ensures Follows(s)
  {
    hide Agrees, SweepStore, StateOf, Repeatable;
    var d := StateOf(r.log).data;
    SweepStoreRight(r.m, d, Earlier(r), r.at, r.todo, user);
    if s.todo == {} {
      SweepDone(s.m, d, Earlier(r), r.at);
      AnyTime(s.m, d, r.at);
    }
  }

  lemma LookFollows(r: Replica, user: string, key: string, now: int, s: Replica, a: Answer, value: Option<string>)
    requires Follows(r) && Next(r, LocalRead(user, key, now), s, a, value)
    ensures Follows(s) && ReadFollows(r, user, key, now, value)
  {
    hide Agrees, Get, Read, StateOf, Repeatable;
    GetRight(r.m, StateOf(r.log).data, Earlier(r), r.at, r.todo, user, key, now);
  }

  lemma ReloadFollows(r: Replica, newest: map<string, seq<string>>, done: nat, s: Replica, a: Answer, value: Option<string>)
    requires Follows(r) && Next(r, Reload(newest, done), s, a, value) && Repeatable(r.log, done)
    ensures Follows(s)
  {
    hide Agrees, StateOf, Repeatable, Reloaded, Newest;
    var d := StateOf(r.log).data;
    ReloadAgrees(r.m, d, Earlier(r), r.at, r.todo, newest);
    AnyTime(s.m, d, s.at);
  }

  lemma InstallFollows(r: Replica, sender: Replica, lines: seq<Line>, newest: map<string, seq<string>>, s: Replica, a: Answer, value: Option<string>)
    requires Follows(r) && Next(r, Install(sender, lines, newest), s, a, value) && Follows(sender)
    ensures Follows(s) && s.log == sender.log && s.applied == sender.applied
  {
    hide Agrees, StateOf, Repeatable, Reloaded, Newest, Load, IsTableDump, RowsRight;
    var d := StateOf(sender.log).data;
    AgreesFacts(sender.m, d, Earlier(sender), sender.at, sender.todo);
    AgreesFacts(r.m, StateOf(r.log).data, Earlier(r), r.at, r.todo);
    var t := Tables(sender.m.users, sender.m.rows, sender.table);
    RowsHaveUsers(d);
    TableRoundTrip(lines, t);
    WarmedAgrees(r.m.capacity, d, newest);
    AnyTime(s.m, d, s.at);
  }

  lemma RowsHaveUsers(d: Data)
    requires RowsRight(d)
    ensures forall p :: p in d.rows ==> p.user in d.users
  {
  }

  // ------------------------------------------------------------ Whole lives

  lemma StepFollows(r: Replica, h: Happening, s: Replica, a: Answer, value: Option<string>)
    requires Follows(r) && Next(r, h, s, a, value) && Given(r, h)
    ensures Follows(s)
    ensures Logs(h) ==> AnswerFollows(r, h.e, a)
    ensures h.LocalRead? ==> ReadFollows(r, h.user, h.key, h.now, value)
  {
    hide Follows, Next, ReadFollows, AnswerAt, Repeatable, NextEntryOf;
    match h
    case Commit(e) =>
      if r.applied < |r.log| {
        CommitAgain(r, e, s, a, value);
      } else {
        CommitFollows(r, e, s, a, value);
      }
    case SweepRowsOf(e) =>
      if r.applied < |r.log| {
        SweepAgain(r, e, s, a, value);
      } else {
        SweepFollows(r, e, s, a, value);
      }
    case SweepStoreOf(user) => StoreFollows(r, user, s, a, value);
    case LocalRead(user, key, now) => LookFollows(r, user, key, now, s, a, value);
    case Reload(newest, done) => ReloadFollows(r, newest, done, s, a, value);
    case Install(sender, lines, newest) => InstallFollows(r, sender, lines, newest, s, a, value);
  }

  // A new node with an empty database.
  function Newborn(capacity: nat): Replica {
    Replica(Machine(true, capacity, map[], map[], map[]), map[], 0, {}, false, [], 0)
  }

  lemma NewbornFollows(capacity: nat)
    requires capacity >= 1
    ensures Follows(Newborn(capacity))
  {
    hide Agrees, NoneExpired, SessionKept;
    StartsAgreeing(capacity);
  }

  ghost predicate IsLife(rs: seq<Replica>, hs: seq<Happening>, answers: seq<Answer>, values: seq<Option<string>>) {
    && |rs| == |hs| + 1 && |answers| == |values| == |hs|
    && rs[0].m.capacity >= 1 && rs[0] == Newborn(rs[0].m.capacity)
    && forall i :: 0 <= i < |hs| ==> Next(rs[i], hs[i], rs[i + 1], answers[i], values[i])
  }

  // Whatever was read in between, however small the cache, however often the process
  // started again, and whichever snapshots it was given: every answer is that of the log,
  // and every read sees the log applied so far.
  lemma {:induction false} LifeFollowsLog(rs: seq<Replica>, hs: seq<Happening>, answers: seq<Answer>, values: seq<Option<string>>)
    requires IsLife(rs, hs, answers, values) && forall i :: 0 <= i < |hs| ==> Given(rs[i], hs[i])
    ensures forall i :: 0 <= i <= |hs| ==> Follows(rs[i])
    ensures forall i :: 0 <= i < |hs| && Logs(hs[i]) ==> AnswerFollows(rs[i], hs[i].e, answers[i])
    ensures forall i :: 0 <= i < |hs| && hs[i].LocalRead? ==> ReadFollows(rs[i], hs[i].user, hs[i].key, hs[i].now, values[i])
    decreases |hs|
  {
    hide Next, Follows, ReadFollows, AnswerFollows, Logs, Given, Newborn;
    if hs == [] {
      NewbornFollows(rs[0].m.capacity);
    } else {
      var n := |hs| - 1;
      LifeFollowsLog(rs[..n + 1], hs[..n], answers[..n], values[..n]);
      assert Follows(rs[..n + 1][n]);
      assert Next(rs[n], hs[n], rs[n + 1], answers[n], values[n]);
      StepFollows(rs[n], hs[n], rs[n + 1], answers[n], values[n]);
    }
  }

  // The read's clock is not behind a sweep that has still to reach its user's store.
  predicate InTime(r: Replica, h: Happening) {
    h.LocalRead? && (h.user in r.todo ==> h.now >= r.at)
  }

  // Two replicas give the same answer to the same new entry on the same log, and the same
  // value to the same read, although their caches and their histories differ.
  lemma ReplicasAnswerAlike(rs: seq<Replica>, hs: seq<Happening>, a: seq<Answer>, x: seq<Option<string>>,
                            ss: seq<Replica>, gs: seq<Happening>, b: seq<Answer>, y: seq<Option<string>>, i: nat, j: nat)
    requires IsLife(rs, hs, a, x) && forall k :: 0 <= k < |hs| ==> Given(rs[k], hs[k])
    requires IsLife(ss, gs, b, y) && forall k :: 0 <= k < |gs| ==> Given(ss[k], gs[k])
    requires i < |hs| && j < |gs| && rs[i].log == ss[j].log
    ensures Logs(hs[i]) && Logs(gs[j]) && hs[i].e == gs[j].e && rs[i].applied >= |rs[i].log| && ss[j].applied >= |ss[j].log| ==> a[i] == b[j]
    ensures gs[j] == hs[i] && InTime(rs[i], hs[i]) && InTime(ss[j], gs[j]) ==> x[i] == y[j]
  {
    hide IsLife, Follows, Given, AnswerAt, Read, StateOf, Earlier;
    LifeLength(rs, hs, a, x);
    LifeLength(ss, gs, b, y);
    LifeFollowsLog(rs, hs, a, x);
    LifeFollowsLog(ss, gs, b, y);
  }

  lemma LifeLength(rs: seq<Replica>, hs: seq<Happening>, a: seq<Answer>, x: seq<Option<string>>)
    requires IsLife(rs, hs, a, x)
    ensures |a| == |x| == |hs| && |rs| == |hs| + 1
  {
  }
}
