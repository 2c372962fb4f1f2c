// Exactly-once writes: a bounded table remembers each client's last request and its
// result. A log with repeated requests then means what the log without them means.
module Sessions {
  import opened Types
  import opened Recency
  import opened PlainMaps

  datatype Session = Session(number: nat, answer: Answer, index: nat)

  type Table = map<string, Session>

  // The data every replica holds, with the table beside it.
  datatype State = State(data: Data, table: Table)

  // None: a new request. Otherwise what to answer without running it again.
  function Check(table: Table, r: RequestId): Option<Answer> {
    if r.client !in table || r.number > table[r.client].number then None
    else if r.number == table[r.client].number then Some(table[r.client].answer)
    else Some(Nothing)
  }

  ghost predicate IsOldest(table: Table, c: string) {
    c in table && forall d :: d in table ==> table[c].index <= table[d].index
  }

  lemma {:induction false} OldestExists(table: Table, within: set<string>)
    requires within != {} && within <= table.Keys
    ensures exists c :: c in within && forall d :: d in within ==> table[c].index <= table[d].index
    decreases |within|
  {
    var x :| x in within;
    if within != {x} {
      OldestExists(table, within - {x});
      var c :| c in within - {x} && forall d :: d in within - {x} ==> table[c].index <= table[d].index;
      var y := if table[x].index <= table[c].index then x else c;
      forall d | d in within
        ensures table[y].index <= table[d].index
      {
        assert d == x || d in within - {x};
      }
    }
  }

  lemma HasOldest(table: Table, c: string)
    requires c in table
    ensures exists x :: IsOldest(table, x)
  {
    OldestExists(table, table.Keys);
    var x :| x in table.Keys && forall d :: d in table.Keys ==> table[x].index <= table[d].index;
    assert IsOldest(table, x);
  }

  // Beyond the limit the session used longest ago goes; without a limit none does.
  ghost function Record(table: Table, c: string, s: Session, limit: Option<nat>): Table {
    var t := table[c := s];
    if limit.Some? && |t| > limit.value then
      HasOldest(t, c);
      var x :| IsOldest(t, x);
      t - {x}
    else t
  }

  // Which session goes does not depend on the order of the dictionary.
  lemma OldestIsUnique(table: Table, c: string, d: string)
    requires forall a, b :: a in table && b in table && a != b ==> table[a].index != table[b].index
    requires IsOldest(table, c) && IsOldest(table, d)
    ensures c == d
  {
  }

  // One committed entry; no-ops and memberships do not reach the state machine.
  ghost function Apply(s: State, e: Entry, limit: Option<nat>): (State, Answer) {
    if !e.command.Run? then (s, Nothing)
    else if e.request.Some? && Check(s.table, e.request.value).Some? then (s, Check(s.table, e.request.value).value)
    else
      var (d, a) := Perform(s.data, e.username, e.command.op);
      var t := if e.request.Some? then Record(s.table, e.request.value.client, Session(e.request.value.number, a, e.index), limit) else s.table;
      (State(d, t), a)
  }

  ghost function Process(start: State, log: seq<Entry>, limit: Option<nat>): State {
    if log == [] then start else Apply(Process(start, log[..|log| - 1], limit), log[|log| - 1], limit).0
  }

  ghost function AnswerAt(start: State, log: seq<Entry>, i: nat, limit: Option<nat>): Answer
    requires i < |log|
  {
    Apply(Process(start, log[..i], limit), log[i], limit).1
  }

  ghost predicate Indexed(log: seq<Entry>) {
    forall i :: 0 <= i < |log| ==> log[i].index == i + 1
  }

  const NEW: State := State(Data(map[], map[]), map[])

  // ------------------------------------------------------------ The table in order of recording

  ghost predicate Listed(s: Items<Session>, table: Table) {
    && Unique(s)
    && Keys(s) == table.Keys
    && (forall i :: 0 <= i < |s| ==> s[i].0 in table && table[s[i].0] == s[i].1)
    && (forall i, j :: 0 <= i < j < |s| ==> s[i].1.index < s[j].1.index)
  }

  ghost predicate IndicesBelow(table: Table, n: nat) {
    forall c :: c in table ==> table[c].index < n
  }

  // Recording without a limit is moving to the end.
  lemma RecordFree(p: Items<Session>, table: Table, c: string, s: Session)
    requires Listed(p, table) && IndicesBelow(table, s.index)
    ensures Listed(Without(p, c) + [(c, s)], table[c := s])
    ensures Record(table, c, s, None) == table[c := s]
  {
    hide Keys, Without, Unique;
    var r := Without(p, c);
    WithoutKeys(p, c);
    WithoutUnique(p, c);
    KeysPush(r, c, s);
    PushUnique(r, c, s);
    WithoutSorted(p, c);
    forall i | 0 <= i < |r|
      ensures r[i].0 in table && r[i].0 != c && table[r[i].0] == r[i].1
    {
      assert r[i] in r;
      assert r[i] in p;
    }
    assert Keys(r + [(c, s)]) == table[c := s].Keys;
  }

  lemma {:induction false} WithoutSorted(p: Items<Session>, c: string)
    requires Unique(p) && forall i, j :: 0 <= i < j < |p| ==> p[i].1.index < p[j].1.index
    ensures var r := Without(p, c); forall i, j :: 0 <= i < j < |r| ==> r[i].1.index < r[j].1.index
  {
    if p != [] {
      var t, e := p[..|p| - 1], p[|p| - 1];
      WithoutSorted(t, c);
      WithoutUnique(t, c);
      var r := Without(t, c);
      forall i | 0 <= i < |r|
        ensures r[i].1.index < e.1.index
      {
        assert r[i] in r;
        assert r[i] in t;
      }
    }
  }

  // Recording with a limit is a set() of a bounded cache.
  lemma RecordBounded(q: Items<Session>, table: Table, c: string, s: Session, max: nat)
    requires Listed(q, table) && IndicesBelow(table, s.index) && max >= 1 && |q| <= max
    ensures Listed(Put(max, q, c, s), Record(table, c, s, Some(max)))
    ensures |Put(max, q, c, s)| <= max
  {
    hide Keys, Without, Unique, IsOldest;
    RecordFree(q, table, c, s);
    UniqueCount(q);
    var t := table[c := s];
    assert t.Keys == table.Keys + {c};
    if c in Keys(q) {
      WithoutUnique(q, c);
      UniqueCount(Without(q, c) + [(c, s)]);
    } else {
      WithoutKeys(q, c);
      UniqueCount(q + [(c, s)]);
      if |q| == max {
        var full := q + [(c, s)];
        FirstIsOldest(full, t);
        SoleOldest(full, t);
        TailListed(full, t);
        assert full[1..] == q[1..] + [(c, s)];
      }
    }
  }

  lemma FirstIsOldest(p: Items<Session>, table: Table)
    requires Listed(p, table) && p != []
    ensures IsOldest(table, p[0].0)
  {
    forall d | d in table
      ensures table[p[0].0].index <= table[d].index
    {
      assert d in Keys(p);
      var i :| 0 <= i < |p| && p[i].0 == d;
    }
  }

  lemma SoleOldest(p: Items<Session>, table: Table)
    requires Listed(p, table) && p != []
    ensures forall c :: IsOldest(table, c) ==> c == p[0].0
  {
    forall c | IsOldest(table, c)
      ensures c == p[0].0
    {
      assert c in Keys(p);
      var i :| 0 <= i < |p| && p[i].0 == c;
      assert table[c].index <= table[p[0].0].index;
    }
  }

  lemma TailListed(p: Items<Session>, table: Table)
    requires Listed(p, table) && p != []
    ensures Listed(p[1..], table - {p[0].0})
  {
    hide Keys;
    TailKeys(p);
    assert forall i :: 0 <= i < |p| - 1 ==> p[1..][i] == p[i + 1];
  }

  // ------------------------------------------------------------ Bounded against unbounded

  // The clients recorded after c.
  function Later(table: Table, c: string): set<string>
    requires c in table
  {
    set d | d in table && table[d].index > table[c].index
  }

  // Fewer than max other clients recorded since this client's last record.
  ghost predicate InWindow(table: Table, e: Entry, max: nat) {
    e.command.Run? && e.request.Some? && e.request.value.client in table ==> |Later(table, e.request.value.client)| < max
  }

  ghost predicate Windowed(log: seq<Entry>, max: nat) {
    forall i :: 0 <= i < |log| ==> InWindow(Process(NEW, log[..i], None).table, log[i], max)
  }

  // b keeps the last of what u keeps: all of it, or max clients.
  ghost predicate KeepsLast(p: Items<Session>, q: Items<Session>, u: State, b: State, max: nat) {
    && Listed(p + q, u.table) && Listed(q, b.table)
    && |q| <= max && (p == [] || |q| == max)
    && b.data == u.data
  }

  lemma LaterCount(p: Items<Session>, q: Items<Session>, table: Table, c: string)
    requires Listed(p + q, table) && c in Keys(p)
    ensures c in table && |Later(table, c)| >= |q|
  {
    assert c in table by { KeysAppend(p, q); }
    var i :| 0 <= i < |p| && p[i].0 == c;
    assert (p + q)[i] == p[i];
    forall j | 0 <= j < |q|
      ensures q[j].0 in Later(table, c)
    {
      assert (p + q)[|p| + j] == q[j];
    }
    assert Keys(q) <= Later(table, c);
    UniqueRight(p, q);
    UniqueCount(q);
    SetSize(Keys(q), Later(table, c));
  }

  lemma UniqueRight<V>(p: Items<V>, q: Items<V>)
    requires Unique(p + q)
    ensures Unique(q) && Unique(p) && Keys(p) !! Keys(q)
  {
    assert forall j :: 0 <= j < |q| ==> (p + q)[|p| + j] == q[j];
    assert forall i :: 0 <= i < |p| ==> (p + q)[i] == p[i];
    forall i, j | 0 <= i < |p| && 0 <= j < |q|
      ensures p[i].0 != q[j].0
    {
      assert (p + q)[i].0 != (p + q)[|p| + j].0;
    }
  }

  lemma SetSize(a: set<string>, b: set<string>)
    requires a <= b
    ensures |a| <= |b|
  {
    assert b == a + (b - a);
  }

  // Inside the window both tables know the same about the client.
  lemma SameCheck(p: Items<Session>, q: Items<Session>, u: State, b: State, max: nat, e: Entry)
    requires KeepsLast(p, q, u, b, max) && InWindow(u.table, e, max)
    requires e.command.Run? && e.request.Some?
    ensures Check(u.table, e.request.value) == Check(b.table, e.request.value)
    ensures e.request.value.client !in Keys(p)
  {
    hide Keys, Unique;
    var c := e.request.value.client;
    KeysAppend(p, q);
    if c in Keys(p) {
      LaterCount(p, q, u.table, c);
      NoKeys<Session>();
    }
    if c in Keys(q) {
      Position(q, c);
      var j :| 0 <= j < |q| && q[j].0 == c;
      assert (p + q)[|p| + j] == q[j];
    }
  }

  lemma Position<V>(q: Items<V>, c: string)
    requires c in Keys(q)
    ensures exists j :: 0 <= j < |q| && q[j].0 == c
  {
  }

  lemma {:induction false} WithoutAppend<V>(p: Items<V>, q: Items<V>, c: string)
    ensures Without(p + q, c) == Without(p, c) + Without(q, c)
  {
    if q == [] {
      assert p + q == p;
    } else {
      var t, e := q[..|q| - 1], q[|q| - 1];
      assert p + q == (p + t) + [e];
      WithoutAppend(p, t, c);
      WithoutPush(p + t, e, c);
      WithoutPush(t, e, c);
      assert t + [e] == q;
    }
  }

  // One more record.
  lemma RecordKeepsLast(p: Items<Session>, q: Items<Session>, u: State, b: State, max: nat, c: string, s: Session, d: Data)
    returns (p': Items<Session>, q': Items<Session>)
    requires KeepsLast(p, q, u, b, max) && max >= 1
    requires IndicesBelow(u.table, s.index)
    ensures KeepsLast(p', q', State(d, Record(u.table, c, s, None)), State(d, Record(b.table, c, s, Some(max))), max)
  {
    hide Keys, Without, Unique, Record;
    KeysAppend(p, q);
    UniqueRight(p, q);
    NoKeys<Session>();
    BelowToo(p, q, u, b, max, s.index);
    RecordFree(p + q, u.table, c, s);
    RecordBounded(q, b.table, c, s, max);
    WithoutAppend(p, q, c);
    WithoutKeys(p, c);
    WithoutKeys(q, c);
    q' := Put(max, q, c, s);
    if c in Keys(q) {
      p' := p;
      assert p + (Without(q, c) + [(c, s)]) == (p + Without(q, c)) + [(c, s)];
      WithoutUnique(q, c);
    } else if |q| == max {
      p' := Without(p, c) + [q[0]];
      assert p' + (q[1..] + [(c, s)]) == (Without(p, c) + q) + [(c, s)];
    } else {
      p' := [];
      assert p == [] && [] + (q + [(c, s)]) == (p + q) + [(c, s)];
    }
  }

  lemma BelowToo(p: Items<Session>, q: Items<Session>, u: State, b: State, max: nat, n: nat)
    requires KeepsLast(p, q, u, b, max) && IndicesBelow(u.table, n)
    ensures IndicesBelow(b.table, n)
  {
    forall c | c in b.table
      ensures b.table[c].index < n
    {
      assert c in Keys(q);
      var j :| 0 <= j < |q| && q[j].0 == c;
      assert (p + q)[|p| + j] == q[j];
    }
  }

  lemma {:induction false} TableIndices(log: seq<Entry>)
    requires Indexed(log)
    ensures IndicesBelow(Process(NEW, log, None).table, |log| + 1)
  {
    hide Perform;
    if log != [] {
      TableIndices(log[..|log| - 1]);
    }
  }

  // With the window condition the bounded table never changes an outcome, and it holds
  // the most recently recorded clients.
  lemma {:induction false} BoundedFollows(log: seq<Entry>, max: nat) returns (p: Items<Session>, q: Items<Session>)
    requires Indexed(log) && max >= 1 && Windowed(log, max)
    ensures KeepsLast(p, q, Process(NEW, log, None), Process(NEW, log, Some(max)), max)
    ensures forall i :: 0 <= i < |log| ==> AnswerAt(NEW, log, i, Some(max)) == AnswerAt(NEW, log, i, None)
  {
    hide KeepsLast, Apply, InWindow;
    if log == [] {
      NothingKept(max);
      p, q := [], [];
    } else {
      var n, e := |log| - 1, log[|log| - 1];
      assert forall i :: 0 <= i <= n ==> log[..n][..i] == log[..i];
      assert Windowed(log[..n], max);
      p, q := BoundedFollows(log[..n], max);
      var u, b := Process(NEW, log[..n], None), Process(NEW, log[..n], Some(max));
      assert InWindow(u.table, e, max);
      p, q := StepFollows(p, q, u, b, max, e, log[..n]);
      forall i | 0 <= i < n
        ensures AnswerAt(NEW, log, i, Some(max)) == AnswerAt(NEW, log, i, None)
      {
        assert AnswerAt(NEW, log[..n], i, Some(max)) == AnswerAt(NEW, log[..n], i, None);
      }
    }
  }

  lemma NothingKept(max: nat)
    ensures KeepsLast([], [], NEW, NEW, max)
  {
    NoKeys<Session>();
    var none: Items<Session> := [];
    assert none + none == none;
  }

  lemma StepFollows(p: Items<Session>, q: Items<Session>, u: State, b: State, max: nat, e: Entry, before: seq<Entry>)
    returns (p': Items<Session>, q': Items<Session>)
    requires KeepsLast(p, q, u, b, max) && InWindow(u.table, e, max) && max >= 1
    requires Indexed(before) && u == Process(NEW, before, None) && e.index == |before| + 1
    ensures KeepsLast(p', q', Apply(u, e, None).0, Apply(b, e, Some(max)).0, max)
    ensures Apply(u, e, None).1 == Apply(b, e, Some(max)).1
  {
    hide KeepsLast, Record, Process, InWindow, Perform;
    p', q' := p, q;
    SameData(p, q, u, b, max);
    if e.command.Run? && e.request.Some? {
      SameCheck(p, q, u, b, max, e);
      var r := e.request.value;
      if Check(u.table, r).None? {
        var (d, a) := Perform(u.data, e.username, e.command.op);
        TableIndices(before);
        p', q' := RecordKeepsLast(p, q, u, b, max, r.client, Session(r.number, a, e.index), d);
      }
    } else if e.command.Run? {
      OtherData(p, q, u, b, max, Perform(u.data, e.username, e.command.op).0);
    }
  }

  lemma SameData(p: Items<Session>, q: Items<Session>, u: State, b: State, max: nat)
    requires KeepsLast(p, q, u, b, max)
    ensures u.data == b.data
  {
  }

  lemma OtherData(p: Items<Session>, q: Items<Session>, u: State, b: State, max: nat, d: Data)
    requires KeepsLast(p, q, u, b, max)
    ensures KeepsLast(p, q, State(d, u.table), State(d, b.table), max)
  {
  }

  // Inside the window the table holds, of what a table without a limit would hold, the
  // most recently recorded clients.
  lemma TableMatchesUnlimited(log: seq<Entry>, max: nat, c: string)
    requires Indexed(log) && max >= 1 && Windowed(log, max)
    ensures var u, b := Process(NEW, log, None).table, Process(NEW, log, Some(max)).table;
      && |b| <= max
      && (c in b <==> c in u && |Later(u, c)| < max)
      && (c in b ==> b[c] == u[c])
  {
    hide Process, KeepsLast, Later;
    var p, q := BoundedFollows(log, max);
    LastAreMostRecent(p, q, Process(NEW, log, None), Process(NEW, log, Some(max)), max, c);
  }

  lemma LastAreMostRecent(p: Items<Session>, q: Items<Session>, us: State, bs: State, max: nat, c: string)
    requires KeepsLast(p, q, us, bs, max)
    ensures |bs.table| <= max
    ensures c in bs.table <==> c in us.table && |Later(us.table, c)| < max
    ensures c in bs.table ==> bs.table[c] == us.table[c]
  {
    hide Keys, Unique;
    var u, b := us.table, bs.table;
    KeysAppend(p, q);
    UniqueRight(p, q);
    UniqueCount(q);
    assert |b| == |b.Keys|;
    NoKeys<Session>();
    if c in Keys(p) {
      LaterCount(p, q, u, c);
    }
    if c in Keys(q) {
      Position(q, c);
      var j :| 0 <= j < |q| && q[j].0 == c;
      assert (p + q)[|p| + j] == q[j];
      FewLater(p, q, u, j);
    }
  }

  lemma FewLater(p: Items<Session>, q: Items<Session>, table: Table, j: nat)
    requires Listed(p + q, table) && j < |q|
    ensures q[j].0 in table && |Later(table, q[j].0)| < |q|
  {
    assert (p + q)[|p| + j] == q[j];
    var c, rest := q[j].0, q[j + 1..];
    forall d | d in Later(table, c)
      ensures d in Keys(rest)
    {
      assert d in Keys(p + q);
      var i :| 0 <= i < |p + q| && (p + q)[i].0 == d;
      assert i > |p| + j;
      assert rest[i - |p| - j - 1] == (p + q)[i];
    }
    SetSize(Later(table, c), Keys(rest));
    UniqueRight(p, q);
    assert q == q[..j + 1] + rest;
    UniqueRight(q[..j + 1], rest);
    UniqueCount(rest);
  }

  // What the entry makes the machine record, if anything.
  ghost function Recording(s: State, e: Entry): seq<(string, Session)> {
    if e.command.Run? && e.request.Some? && Check(s.table, e.request.value).None?
    then [(e.request.value.client, Session(e.request.value.number, Perform(s.data, e.username, e.command.op).1, e.index))]
    else []
  }

  // Everything the machine has recorded, in order, sessions long evicted included.
  ghost function Records(log: seq<Entry>, max: nat): seq<(string, Session)> {
    if log == [] then []
    else
      var n := |log| - 1;
      Records(log[..n], max) + Recording(Process(NEW, log[..n], Some(max)), log[n])
  }

  // The last record of every client.
  function Latest(rs: seq<(string, Session)>): Table {
    if rs == [] then map[] else Latest(rs[..|rs| - 1])[rs[|rs| - 1].0 := rs[|rs| - 1].1]
  }

  lemma LatestPush(rs: seq<(string, Session)>, c: string, s: Session)
    ensures Latest(rs + [(c, s)]) == Latest(rs)[c := s]
  {
    assert (rs + [(c, s)])[..|rs|] == rs;
  }

  lemma {:induction false} LatestBelow(log: seq<Entry>, max: nat)
    requires Indexed(log)
    ensures IndicesBelow(Latest(Records(log, max)), |log| + 1)
  {
    hide Process, Perform;
    if log != [] {
      var n := |log| - 1;
      LatestBelow(log[..n], max);
      var r := Recording(Process(NEW, log[..n], Some(max)), log[n]);
      if r != [] {
        LatestPush(Records(log[..n], max), r[0].0, r[0].1);
      } else {
        assert Records(log[..n], max) + [] == Records(log[..n], max);
      }
    }
  }

  lemma {:induction false} TableFollowsRecords(log: seq<Entry>, max: nat) returns (p: Items<Session>, q: Items<Session>)
    requires Indexed(log) && max >= 1
    ensures KeepsLast(p, q, State(NEW.data, Latest(Records(log, max))), State(NEW.data, Process(NEW, log, Some(max)).table), max)
  {
    hide KeepsLast, Perform, Record;
    if log == [] {
      NothingKept(max);
      p, q := [], [];
    } else {
      var n, e := |log| - 1, log[|log| - 1];
      p, q := TableFollowsRecords(log[..n], max);
      var b := Process(NEW, log[..n], Some(max));
      var r := Recording(b, e);
      if r != [] {
        LatestPush(Records(log[..n], max), r[0].0, r[0].1);
        LatestBelow(log[..n], max);
        FreeRecordIs(Latest(Records(log[..n], max)), r[0].0, r[0].1);
        p, q := RecordKeepsLast(p, q, State(NEW.data, Latest(Records(log[..n], max))), State(NEW.data, b.table), max, r[0].0, r[0].1, NEW.data);
      } else {
        assert Records(log[..n], max) + [] == Records(log[..n], max);
      }
    }
  }

  lemma FreeRecordIs(table: Table, c: string, s: Session)
    ensures Record(table, c, s, None) == table[c := s]
  {
  }

  // For every log, the table is exactly the most recently recorded clients, as many as
  // fit, each with its last record.
  lemma TableIsMostRecent(log: seq<Entry>, max: nat, c: string)
    requires Indexed(log) && max >= 1
    ensures var u, b := Latest(Records(log, max)), Process(NEW, log, Some(max)).table;
      && |b| <= max
      && (c in b <==> c in u && |Later(u, c)| < max)
      && (c in b ==> b[c] == u[c])
  {
    hide Process, KeepsLast, Later, Records, Latest;
    var p, q := TableFollowsRecords(log, max);
    LastAreMostRecent(p, q, State(NEW.data, Latest(Records(log, max))), State(NEW.data, Process(NEW, log, Some(max)).table), max, c);
  }

  // Whatever the log, the table never outgrows its limit, and which session goes next
  // is determined: no two were recorded at the same index.
  lemma {:induction false} TableStaysOrdered(log: seq<Entry>, max: nat) returns (q: Items<Session>)
    requires Indexed(log) && max >= 1
    ensures var t := Process(NEW, log, Some(max)).table;
      Listed(q, t) && |q| <= max && |t| <= max && IndicesBelow(t, |log| + 1)
    ensures var t := Process(NEW, log, Some(max)).table;
      forall c, d :: IsOldest(t, c) && IsOldest(t, d) ==> c == d
  {
    if log == [] {
      q := [];
      NoKeys<Session>();
    } else {
      var n, e := |log| - 1, log[|log| - 1];
      q := TableStaysOrdered(log[..n], max);
      var b := Process(NEW, log[..n], Some(max));
      q := StepStaysOrdered(q, b, max, e);
    }
    Determined(q, Process(NEW, log, Some(max)).table);
  }

  lemma StepStaysOrdered(q: Items<Session>, b: State, max: nat, e: Entry) returns (q': Items<Session>)
    requires Listed(q, b.table) && |q| <= max && max >= 1 && IndicesBelow(b.table, e.index)
    ensures var t := Apply(b, e, Some(max)).0.table; Listed(q', t) && |q'| <= max && IndicesBelow(t, e.index + 1)
  {
    hide Listed, Perform, Record;
    q' := q;
    if e.command.Run? && e.request.Some? && Check(b.table, e.request.value).None? {
      var r, a := e.request.value, Perform(b.data, e.username, e.command.op).1;
      RecordBounded(q, b.table, r.client, Session(r.number, a, e.index), max);
      q' := Put(max, q, r.client, Session(r.number, a, e.index));
      RecordBelow(b.table, r.client, Session(r.number, a, e.index), max);
    }
  }

  lemma RecordBelow(table: Table, c: string, s: Session, max: nat)
    requires IndicesBelow(table, s.index)
    ensures IndicesBelow(Record(table, c, s, Some(max)), s.index + 1)
  {
  }

  lemma Determined(q: Items<Session>, table: Table)
    requires Listed(q, table)
    ensures |table| == |q|
    ensures forall c, d :: IsOldest(table, c) && IsOldest(table, d) ==> c == d
  {
    UniqueCount(q);
    assert |table| == |table.Keys|;
    if q != [] {
      SoleOldest(q, table);
    } else {
      NoKeys<Session>();
    }
  }

  // ------------------------------------------------------------ Exactly once

  // No earlier request of the client has the same or a newer number.
  ghost predicate Fresh(log: seq<Entry>, i: nat)
    requires i < |log|
  {
    log[i].request.Some? ==>
      forall j :: 0 <= j < i && log[j].command.Run? && log[j].request.Some? && log[j].request.value.client == log[i].request.value.client ==>
        log[j].request.value.number < log[i].request.value.number
  }

  // The commands of the fresh entries only.
  ghost function FreshCommands(log: seq<Entry>): seq<PlainMaps.Command> {
    if log == [] then []
    else
      var n := |log| - 1;
      FreshCommands(log[..n]) +
      if log[n].command.Run? && Fresh(log, n) then [PlainMaps.Command(log[n].username, log[n].command.op)] else []
  }

  // The table without a limit knows the newest number of every client.
  ghost predicate KnowsNewest(table: Table, log: seq<Entry>) {
    && (forall j :: 0 <= j < |log| && log[j].command.Run? && log[j].request.Some? ==>
          log[j].request.value.client in table && log[j].request.value.number <= table[log[j].request.value.client].number)
    && (forall c :: c in table ==> exists j :: 0 <= j < |log| && log[j].command.Run? && log[j].request == Some(RequestId(c, table[c].number)))
  }

  lemma {:induction false} TableKnows(log: seq<Entry>)
    ensures KnowsNewest(Process(NEW, log, None).table, log)
  {
    if log != [] {
      var n := |log| - 1;
      TableKnows(log[..n]);
      StepKnows(Process(NEW, log[..n], None), log);
    }
  }

  lemma StepKnows(s: State, log: seq<Entry>)
    requires log != [] && KnowsNewest(s.table, log[..|log| - 1])
    ensures KnowsNewest(Apply(s, log[|log| - 1], None).0.table, log)
  {
    hide Perform;
    var n := |log| - 1;
    var e, t := log[n], Apply(s, log[n], None).0.table;
    forall c | c in t
      ensures exists j :: 0 <= j < |log| && log[j].command.Run? && log[j].request == Some(RequestId(c, t[c].number))
    {
      if c in s.table && t[c] == s.table[c] {
        var j :| 0 <= j < n && log[..n][j].command.Run? && log[..n][j].request == Some(RequestId(c, s.table[c].number));
        assert log[j] == log[..n][j];
      } else {
        assert log[n].request == Some(RequestId(c, t[c].number));
      }
    }
    forall j | 0 <= j < |log| && log[j].command.Run? && log[j].request.Some?
      ensures log[j].request.value.client in t && log[j].request.value.number <= t[log[j].request.value.client].number
    {
      if j < n {
        assert log[j] == log[..n][j];
      }
    }
  }

  // A request is run exactly when it is fresh.
  lemma RunIffFresh(log: seq<Entry>, i: nat)
    requires i < |log| && log[i].command.Run? && log[i].request.Some?
    ensures Check(Process(NEW, log[..i], None).table, log[i].request.value).None? <==> Fresh(log, i)
  {
    hide Process;
    TableKnows(log[..i]);
    var t := Process(NEW, log[..i], None).table;
    var r := log[i].request.value;
    assert forall j :: 0 <= j < i ==> log[..i][j] == log[j];
    if r.client in t {
      var j :| 0 <= j < i && log[..i][j].command.Run? && log[..i][j].request == Some(RequestId(r.client, t[r.client].number));
      assert log[j].request.value.number == t[r.client].number;
    }
  }

  lemma {:induction false} UnboundedIsFresh(log: seq<Entry>)
    ensures Process(NEW, log, None).data == PerformAll(Data(map[], map[]), FreshCommands(log))
  {
    hide Perform;
    if log != [] {
      var n := |log| - 1;
      var e := log[n];
      UnboundedIsFresh(log[..n]);
      if e.command.Run? {
        if e.request.Some? {
          RunIffFresh(log, n);
        }
        var cs := FreshCommands(log[..n]);
        var c := PlainMaps.Command(e.username, e.command.op);
        assert (cs + [c])[..|cs|] == cs;
      }
      assert FreshCommands(log[..n]) + [] == FreshCommands(log[..n]);
    }
  }

  // The data is that of the log keeping only the entries whose number exceeds every
  // earlier number of their client.
  lemma ExactlyOnce(log: seq<Entry>, max: nat)
    requires Indexed(log) && max >= 1 && Windowed(log, max)
    ensures Process(NEW, log, Some(max)).data == PerformAll(Data(map[], map[]), FreshCommands(log))
  {
    hide Process;
    var p, q := BoundedFollows(log, max);
    UnboundedIsFresh(log);
  }

  // j is fresh, and up to i no other request of its client is newer.
  ghost predicate StillNewest(log: seq<Entry>, j: nat, i: nat)
    requires j < i <= |log| && log[j].request.Some?
  {
    && log[j].command.Run? && Fresh(log, j)
    && forall k :: j < k < i && log[k].command.Run? && log[k].request.Some? && log[k].request.value.client == log[j].request.value.client ==>
         log[k].request.value.number <= log[j].request.value.number
  }

  lemma {:induction false} FirstResultStays(log: seq<Entry>, j: nat, i: nat)
    requires j < i <= |log| && log[j].request.Some? && StillNewest(log, j, i)
    ensures var t := Process(NEW, log[..i], None).table;
      var r := log[j].request.value;
      r.client in t && t[r.client] == Session(r.number, AnswerAt(NEW, log, j, None), log[j].index)
    decreases i
  {
    hide Perform;
    assert log[..i][..i - 1] == log[..i - 1];
    if i == j + 1 {
      RunIffFresh(log, j);
    } else {
      FirstResultStays(log, j, i - 1);
    }
  }

  // A repeat of the newest request of a client gets the result of its first run.
  lemma RepeatGetsFirstResult(log: seq<Entry>, j: nat, i: nat, max: nat)
    requires Indexed(log) && max >= 1 && Windowed(log, max)
    requires j < i < |log| && log[j].request.Some? && StillNewest(log, j, i)
    requires log[i].command.Run? && log[i].request == log[j].request
    ensures AnswerAt(NEW, log, i, Some(max)) == AnswerAt(NEW, log, j, Some(max))
    ensures Process(NEW, log[..i + 1], Some(max)) == Process(NEW, log[..i], Some(max))
  {
    hide Perform, KeepsLast;
    FirstResultStays(log, j, i);
    var p, q := BoundedFollows(log, max);
    assert forall k :: 0 <= k <= i ==> log[..i][..k] == log[..k];
    assert Windowed(log[..i], max);
    var p', q' := BoundedFollows(log[..i], max);
    assert InWindow(Process(NEW, log[..i], None).table, log[i], max);
    SameCheck(p', q', Process(NEW, log[..i], None), Process(NEW, log[..i], Some(max)), max, log[i]);
    assert log[..i + 1][..i] == log[..i];
  }

  // ------------------------------------------------------------ Overtaken requests

  // The number on record for a client is never behind one of its requests so far.
  lemma {:induction false} NumbersCaughtUp(log: seq<Entry>, j: nat, n: nat)
    requires j < n <= |log| && log[j].command.Run? && log[j].request.Some?
    ensures var r, t := log[j].request.value, Process(NEW, log[..n], None).table;
      r.client in t && t[r.client].number >= r.number
    decreases n
  {
    hide Perform;
    var e, b := log[n - 1], Process(NEW, log[..n - 1], None);
    assert log[..n][..n - 1] == log[..n - 1] && log[..n][n - 1] == e;
    if j < n - 1 {
      NumbersCaughtUp(log, j, n - 1);
    }
  }

  // A request that reaches the log behind a later one of its client is answered Nothing,
  // and changes neither the data nor what is on record.
  lemma OvertakenGetsNothing(log: seq<Entry>, j: nat, i: nat, max: nat)
    requires Indexed(log) && max >= 1 && Windowed(log, max)
    requires j < i < |log| && log[j].command.Run? && log[j].request.Some? && log[i].command.Run? && log[i].request.Some?
    requires log[i].request.value.client == log[j].request.value.client && log[i].request.value.number < log[j].request.value.number
    ensures AnswerAt(NEW, log, i, Some(max)) == Nothing
    ensures Process(NEW, log[..i + 1], Some(max)) == Process(NEW, log[..i], Some(max))
  {
    hide Perform, KeepsLast;
    NumbersCaughtUp(log, j, i);
    assert forall k :: 0 <= k <= i ==> log[..i][..k] == log[..k];
    assert Windowed(log[..i], max);
    var p, q := BoundedFollows(log[..i], max);
    assert InWindow(Process(NEW, log[..i], None).table, log[i], max);
    SameCheck(p, q, Process(NEW, log[..i], None), Process(NEW, log[..i], Some(max)), max, log[i]);
    assert log[..i + 1][..i] == log[..i];
  }
}
