// After a restart the entries above the snapshot are applied once more, to a database
// that already reflects them. When that changes nothing.
module Replays {
  import opened Types
  import opened PlainMaps
  import opened Sessions

  // From entry i to the end the session of its client was never evicted.
  ghost predicate SessionKept(log: seq<Entry>, i: nat, limit: Option<nat>)
    requires i < |log| && log[i].request.Some?
  {
    forall j :: i < j <= |log| ==> log[i].request.value.client in Process(NEW, log[..j], limit).table
  }

  // Every write from s on carries a request whose session was kept.
  ghost predicate Identified(log: seq<Entry>, s: nat, limit: Option<nat>) {
    forall i :: s <= i < |log| && log[i].command.Run? ==>
      if log[i].request.Some? then SessionKept(log, i, limit)
      else log[i].command.op.Sweep? || log[i].command.op.Unknown?
  }

  // The expiry a command writes, if any, is later than t.
  predicate ExpiresAfter(op: Operation, t: int) {
    match op
    case SetEx(_, expireAt, _) => expireAt > t
    case ExpireAt(_, expireAt, _) => expireAt > t
    case _ => true
  }

  // What follows a SWEEP expires after it.
  ghost predicate SweepsFirst(log: seq<Entry>, s: nat) {
    forall i, j :: s <= i < j < |log| && log[i].command.Run? && log[i].command.op.Sweep? && log[j].command.Run? ==>
      ExpiresAfter(log[j].command.op, log[i].command.op.now)
  }

  // ------------------------------------------------------------ Sessions

  lemma RecordKeepsOthers(table: Table, c: string, s: Session, limit: Option<nat>, d: string)
    requires d in Record(table, c, s, limit)
    ensures d != c ==> d in table && Record(table, c, s, limit)[d] == table[d]
    ensures d == c ==> Record(table, c, s, limit)[d] == s
  {
  }

  lemma {:induction false} NumberStays(log: seq<Entry>, i: nat, n: nat, limit: Option<nat>)
    requires i < n <= |log| && log[i].command.Run? && log[i].request.Some? && SessionKept(log, i, limit)
    ensures var c := log[i].request.value.client; var t := Process(NEW, log[..n], limit).table;
      c in t && t[c].number >= log[i].request.value.number
    decreases n
  {
    hide Perform, Record;
    var c := log[i].request.value.client;
    var b := Process(NEW, log[..n - 1], limit);
    var e := log[n - 1];
    assert log[..n][..n - 1] == log[..n - 1] && log[..n][n - 1] == e;
    assert c in Process(NEW, log[..n], limit).table;
    if n > i + 1 {
      NumberStays(log, i, n - 1, limit);
    }
    if e.command.Run? && e.request.Some? && Check(b.table, e.request.value).None? {
      var (d, a) := Perform(b.data, e.username, e.command.op);
      RecordKeepsOthers(b.table, e.request.value.client, Session(e.request.value.number, a, e.index), limit, c);
    }
  }

  // ------------------------------------------------------------ Sweeps

  ghost predicate NoneExpired(d: Data, t: int) {
    forall p :: p in d.rows ==> !Expired(d.rows[p].expireAt, t)
  }

  lemma StaysUnexpired(d: Data, user: string, op: Operation, t: int)
    requires NoneExpired(d, t) && ExpiresAfter(op, t)
    ensures NoneExpired(Perform(d, user, op).0, t)
  {
  }

  lemma SweepLeavesNone(d: Data, user: string, t: int)
    ensures NoneExpired(Perform(d, user, Sweep(t)).0, t)
    ensures NoneExpired(d, t) ==> Perform(d, user, Sweep(t)).0 == d
  {
  }

  lemma {:induction false} NoneExpiredAfter(log: seq<Entry>, s: nat, i: nat, n: nat, limit: Option<nat>)
    requires s <= i < n <= |log| && SweepsFirst(log, s)
    requires log[i].command.Run? && log[i].command.op.Sweep? && log[i].request.None?
    ensures NoneExpired(Process(NEW, log[..n], limit).data, log[i].command.op.now)
    decreases n
  {
    hide Perform, NoneExpired, Record;
    var b := Process(NEW, log[..n - 1], limit);
    var e := log[n - 1];
    assert log[..n][..n - 1] == log[..n - 1] && log[..n][n - 1] == e;
    if n > i + 1 {
      NoneExpiredAfter(log, s, i, n - 1, limit);
      if e.command.Run? {
        StaysUnexpired(b.data, e.username, e.command.op, log[i].command.op.now);
      }
    } else {
      SweepLeavesNone(b.data, e.username, e.command.op.now);
    }
  }

  // ------------------------------------------------------------ Replay

  // An entry that runs again in a replay because nothing identifies it: a SWEEP.
  predicate RunsAgain(e: Entry) {
    e.command.Run? && e.request.None? && e.command.op.Sweep?
  }

  // No stored row has expired at the time of a SWEEP that will be replayed.
  ghost predicate NothingToSweep(log: seq<Entry>, s: nat, d: Data) {
    forall i :: s <= i < |log| && RunsAgain(log[i]) ==> NoneExpired(d, log[i].command.op.now)
  }

  // What a replay may make of the state: rows are gone, and nothing else has changed.
  ghost predicate Reduced(a: State, b: State) {
    && b.table == a.table && b.data.users == a.data.users
    && forall p :: p in b.data.rows ==> p in a.data.rows && b.data.rows[p] == a.data.rows[p]
  }

  // Entry i, applied again: a SWEEP sweeps, everything else is known already.
  lemma EntryAgain(log: seq<Entry>, s: nat, i: nat, limit: Option<nat>, b: State)
    requires s <= i < |log| && Identified(log, s, limit) && b.table == Process(NEW, log, limit).table
    ensures Apply(b, log[i], limit).0 ==
      if RunsAgain(log[i]) then State(Perform(b.data, log[i].username, log[i].command.op).0, b.table) else b
  {
    hide Process, Perform, Record, SessionKept;
    var e := log[i];
    assert log[..|log|] == log;
    if e.command.Run? {
      if e.request.Some? {
        NumberStays(log, i, |log|, limit);
      } else if e.command.op.Unknown? {
        UnknownDoesNothing(b.data, e.username);
      }
    }
  }

  lemma UnknownDoesNothing(d: Data, user: string)
    ensures Perform(d, user, Unknown).0 == d
  {
  }

  lemma SweepReduces(d: Data, user: string, t: int)
    ensures Perform(d, user, Sweep(t)).0.users == d.users
    ensures forall p :: p in Perform(d, user, Sweep(t)).0.rows <==> p in d.rows && !Expired(d.rows[p].expireAt, t)
    ensures forall p :: p in Perform(d, user, Sweep(t)).0.rows ==> Perform(d, user, Sweep(t)).0.rows[p] == d.rows[p]
  {
  }

  // A replay only ever removes rows.
  lemma {:induction false} ReplayReduces(log: seq<Entry>, s: nat, n: nat, limit: Option<nat>)
    requires s <= n <= |log| && Identified(log, s, limit)
    ensures Reduced(Process(NEW, log, limit), Process(Process(NEW, log, limit), log[s..n], limit))
    decreases n
  {
    hide Apply, Identified;
    if n > s {
      assert log[s..n][..n - s - 1] == log[s..n - 1];
      ReplayReduces(log, s, n - 1, limit);
      var b := Process(Process(NEW, log, limit), log[s..n - 1], limit);
      EntryAgain(log, s, n - 1, limit, b);
      if RunsAgain(log[n - 1]) {
        SweepReduces(b.data, log[n - 1].username, log[n - 1].command.op.now);
      }
    }
  }

  // After the replay of the SWEEP at i no row expired at its time is left.
  lemma {:induction false} ReplaySweeps(log: seq<Entry>, s: nat, i: nat, n: nat, limit: Option<nat>)
    requires s <= i < n <= |log| && Identified(log, s, limit) && RunsAgain(log[i])
    ensures NoneExpired(Process(Process(NEW, log, limit), log[s..n], limit).data, log[i].command.op.now)
    decreases n
  {
    hide Apply, Identified, Perform;
    var b := Process(Process(NEW, log, limit), log[s..n - 1], limit);
    assert log[s..n][..n - s - 1] == log[s..n - 1];
    ReplayReduces(log, s, n - 1, limit);
    EntryAgain(log, s, n - 1, limit, b);
    if RunsAgain(log[n - 1]) {
      SweepReduces(b.data, log[n - 1].username, log[n - 1].command.op.now);
    }
    if n > i + 1 {
      ReplaySweeps(log, s, i, n - 1, limit);
    }
  }

  lemma {:induction false} ReplayKeeps(log: seq<Entry>, s: nat, n: nat, limit: Option<nat>)
    requires s <= n <= |log| && Identified(log, s, limit) && NothingToSweep(log, s, Process(NEW, log, limit).data)
    ensures Process(Process(NEW, log, limit), log[s..n], limit) == Process(NEW, log, limit)
    decreases n
  {
    hide Apply, Identified, NoneExpired, Perform;
    if n > s {
      assert log[s..n][..n - s - 1] == log[s..n - 1];
      ReplayKeeps(log, s, n - 1, limit);
      EntryAgain(log, s, n - 1, limit, Process(NEW, log, limit));
      if RunsAgain(log[n - 1]) {
        SweepLeavesNone(Process(NEW, log, limit).data, log[n - 1].username, log[n - 1].command.op.now);
      }
    }
  }

  // Applying the entries from s on to the state that already reflects all of them
  // changes nothing if and only if no row it holds has expired at the time of a SWEEP
  // among them.
  lemma ReplayChangesNothingIff(log: seq<Entry>, s: nat, limit: Option<nat>)
    requires s <= |log| && Identified(log, s, limit)
    ensures Process(Process(NEW, log, limit), log[s..], limit) == Process(NEW, log, limit)
      <==> NothingToSweep(log, s, Process(NEW, log, limit).data)
  {
    hide Process, Identified, NoneExpired;
    assert log[s..|log|] == log[s..];
    if NothingToSweep(log, s, Process(NEW, log, limit).data) {
      ReplayKeeps(log, s, |log|, limit);
    } else {
      var i :| s <= i < |log| && RunsAgain(log[i]) && !NoneExpired(Process(NEW, log, limit).data, log[i].command.op.now);
      ReplaySweeps(log, s, i, |log|, limit);
    }
  }

  // In particular when everything logged after a SWEEP expires after it.
  lemma ReplayChangesNothing(log: seq<Entry>, s: nat, limit: Option<nat>)
    requires s <= |log| && Identified(log, s, limit) && SweepsFirst(log, s)
    ensures Process(Process(NEW, log, limit), log[s..], limit) == Process(NEW, log, limit)
  {
    hide Process, Identified, NoneExpired, SweepsFirst;
    assert log[..|log|] == log;
    forall i | s <= i < |log| && RunsAgain(log[i])
      ensures NoneExpired(Process(NEW, log, limit).data, log[i].command.op.now)
    {
      NoneExpiredAfter(log, s, i, |log|, limit);
    }
    ReplayChangesNothingIff(log, s, limit);
  }

  // ------------------------------------------------------------ Where it fails

  const SIGN_UP: Entry := Entry(1, 1, Run(SignUp("h")), "u", Some(RequestId("c", 1)))
  const SWEEP: Entry := Entry(1, 2, Run(Sweep(10)), "", None)
  const SET_EX: Entry := Entry(1, 3, Run(SetEx("k", 5, "v")), "u", Some(RequestId("c", 2)))

  const SIGNED_UP: State := State(Data(map["u" := "h"], map[]), map["c" := Session(1, Truth(true), 1)])
  const KEY_SET: State := State(Data(map["u" := "h"], map[Place("u", "k") := Row("v", Some(5))]), map["c" := Session(2, Truth(true), 3)])
  const KEY_LOST: State := State(Data(map["u" := "h"], map[]), map["c" := Session(2, Truth(true), 3)])

  lemma FirstPass()
    ensures Apply(NEW, SIGN_UP, None).0 == SIGNED_UP
    ensures Apply(SIGNED_UP, SWEEP, None).0 == SIGNED_UP
  {
    hide Record;
    FreeRecord(NEW.table, "c", Session(1, Truth(true), 1));
    assert ExpiredPlaces(SIGNED_UP.data.rows, 10) == {};
  }

  lemma KeyIsSet()
    ensures Apply(SIGNED_UP, SET_EX, None).0 == KEY_SET
  {
    hide Record;
    FreeRecord(SIGNED_UP.table, "c", Session(2, Truth(true), 3));
  }

  lemma SecondPass()
    ensures Apply(KEY_SET, SIGN_UP, None).0 == KEY_SET
    ensures Apply(KEY_SET, SWEEP, None).0 == KEY_LOST
    ensures Apply(KEY_LOST, SET_EX, None).0 == KEY_LOST
  {
    hide Record;
    assert ExpiredPlaces(KEY_SET.data.rows, 10) == {Place("u", "k")};
  }

  // Without the condition on expiries it fails: a key set to expire before an earlier
  // SWEEP's time survives the first pass and is removed by the second.
  lemma ReplayCanLoseKeys() returns (log: seq<Entry>)
    ensures Indexed(log) && Identified(log, 0, None)
    ensures Process(Process(NEW, log, None), log, None).data != Process(NEW, log, None).data
  {
    log := [SIGN_UP, SWEEP, SET_EX];
    hide Process, Identified, Record, Apply;
    ThreeSteps(NEW, SIGN_UP, SWEEP, SET_EX);
    ThreeSteps(KEY_SET, SIGN_UP, SWEEP, SET_EX);
    FirstPass();
    KeyIsSet();
    SecondPass();
    assert Place("u", "k") in KEY_SET.data.rows;
    KeptInAll(log, SIGNED_UP, SIGNED_UP, KEY_SET);
  }

  lemma ThreeSteps(s: State, e0: Entry, e1: Entry, e2: Entry)
    ensures Process(s, [e0], None) == Apply(s, e0, None).0
    ensures Process(s, [e0, e1], None) == Apply(Apply(s, e0, None).0, e1, None).0
    ensures Process(s, [e0, e1, e2], None) == Apply(Apply(Apply(s, e0, None).0, e1, None).0, e2, None).0
  {
    hide Apply;
    assert [e0, e1, e2][..2] == [e0, e1];
    assert [e0, e1][..1] == [e0];
    assert [e0][..0] == [];
  }

  lemma FreeRecord(table: Table, c: string, s: Session)
    ensures Record(table, c, s, None) == table[c := s]
  {
  }

  lemma KeptInAll(log: seq<Entry>, s1: State, s2: State, s3: State)
    requires |log| == 3 && log[..1] == [log[0]] && log[..2] == [log[0], log[1]] && log[..3] == log
    requires s1 == Process(NEW, [log[0]], None) && s2 == Process(NEW, [log[0], log[1]], None) && s3 == Process(NEW, log, None)
    requires "c" in s1.table && "c" in s2.table && "c" in s3.table
    requires log[1].command.Run? && log[1].command.op.Sweep? && log[1].request.None?
    requires forall i :: 0 <= i < 3 && i != 1 ==> log[i].request.Some? && log[i].request.value.client == "c"
    ensures Identified(log, 0, None)
  {
    hide Process;
    forall j | 0 < j <= 3
      ensures "c" in Process(NEW, log[..j], None).table
    {
    }
  }

  // ------------------------------------------------------------ Why writes must be identified

  const SET_FIRST: Entry := Entry(1, 1, Run(Set("k", "v")), "u", None)
  const SIGN_UP_THEN: Entry := Entry(1, 2, Run(SignUp("h")), "u", None)
  const SET_ONCE: Entry := Entry(1, 1, Run(Set("k", "v")), "u", Some(RequestId("c", 1)))
  const SIGN_UP_ONCE: Entry := Entry(1, 2, Run(SignUp("h")), "u", Some(RequestId("d", 1)))

  lemma TwoSteps(s: State, e0: Entry, e1: Entry, limit: Option<nat>)
    ensures Process(s, [e0], limit) == Apply(s, e0, limit).0
    ensures Process(s, [e0, e1], limit) == Apply(Apply(s, e0, limit).0, e1, limit).0
  {
    hide Apply;
    assert [e0, e1][..1] == [e0];
    assert [e0][..0] == [];
  }

  // A write without a request id: it failed for want of a user, who signed up next.
  lemma UnidentifiedWriteRunsAgain() returns (log: seq<Entry>)
    ensures Indexed(log) && SweepsFirst(log, 0)
    ensures Process(Process(NEW, log, None), log, None).data != Process(NEW, log, None).data
  {
    log := [SET_FIRST, SIGN_UP_THEN];
    hide Process;
    TwoSteps(NEW, SET_FIRST, SIGN_UP_THEN, None);
    var s := Process(NEW, log, None);
    TwoSteps(s, SET_FIRST, SIGN_UP_THEN, None);
    assert Place("u", "k") !in s.data.rows;
    assert Place("u", "k") in Process(s, log, None).data.rows;
  }

  lemma OnlyRoom(table: Table, c: string, x: Session)
    requires c !in table && |table| <= 1
    ensures |table| == 1 && (forall d :: d in table ==> table[d].index < x.index) ==> Record(table, c, x, Some(1)) == map[c := x]
    ensures |table| == 0 ==> Record(table, c, x, Some(1)) == map[c := x]
  {
    var t := table[c := x];
    assert t.Keys == table.Keys + {c};
    if |table| == 0 {
      assert t == map[c := x];
    } else {
      var k :| k in table;
      assert table.Keys == {k} by {
        assert |table.Keys - {k}| == 0;
      }
      assert t - {k} == map[c := x];
    }
  }

  // The same with request ids, when the session of the write was evicted in between.
  lemma EvictedSessionRunsAgain() returns (log: seq<Entry>)
    ensures Indexed(log) && SweepsFirst(log, 0) && forall i :: 0 <= i < |log| ==> log[i].request.Some?
    ensures Process(Process(NEW, log, Some(1)), log, Some(1)).data != Process(NEW, log, Some(1)).data
  {
    log := [SET_ONCE, SIGN_UP_ONCE];
    hide Process, Record;
    TwoSteps(NEW, SET_ONCE, SIGN_UP_ONCE, Some(1));
    OnlyRoom(map[], "c", Session(1, Truth(false), 1));
    var s1 := Apply(NEW, SET_ONCE, Some(1)).0;
    assert s1.table == map["c" := Session(1, Truth(false), 1)];
    OnlyRoom(s1.table, "d", Session(1, Truth(true), 2));
    var s := Process(NEW, log, Some(1));
    assert s.table == map["d" := Session(1, Truth(true), 2)];
    TwoSteps(s, SET_ONCE, SIGN_UP_ONCE, Some(1));
    assert Place("u", "k") !in s.data.rows;
    var again := Apply(s, SET_ONCE, Some(1)).0;
    assert Place("u", "k") in again.data.rows;
    SignUpKeepsRows(again, SIGN_UP_ONCE, Some(1));
  }

  lemma SignUpKeepsRows(s: State, e: Entry, limit: Option<nat>)
    requires e.command.Run? && e.command.op.SignUp?
    ensures Apply(s, e, limit).0.data.rows == s.data.rows
  {
    hide Record;
  }
}
