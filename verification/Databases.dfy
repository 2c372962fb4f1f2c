// The database behind the cache: three tables, the row operations on them, and the
// batched loader of a snapshot.
module Databases {
  import opened Types
  import opened PlainMaps
  import opened Sessions

  // One line of a snapshot, already decoded.
  datatype Line =
    | UserLine(user: string, hash: string)
    | EntryLine(user: string, key: string, value: string, expireAt: Option<int>)
    | SessionLine(client: string, session: Session)
    | BlankLine

  datatype Tables = Tables(users: map<string, string>, rows: map<Place, Row>, sessions: map<string, Session>)

  const NO_ROWS: Tables := Tables(map[], map[], map[])

  // ------------------------------------------------------------ Loading row by row

  // An INSERT under a unique key.
  function Insert<K, V>(t: Option<map<K, V>>, k: K, v: V): Option<map<K, V>> {
    if t.None? || k in t.value then None else Some(t.value[k := v])
  }

  function InsertAll<K, V>(t: map<K, V>, s: seq<(K, V)>): Option<map<K, V>> {
    if s == [] then Some(t) else Insert(InsertAll(t, s[..|s| - 1]), s[|s| - 1].0, s[|s| - 1].1)
  }

  // None: a duplicate, or an entry of an unknown user.
  function LoadLine(t: Tables, line: Line): Option<Tables> {
    match line
    case UserLine(user, hash) => if user in t.users then None else Some(t.(users := t.users[user := hash]))
    case EntryLine(user, key, value, expireAt) =>
      if user !in t.users || Place(user, key) in t.rows then None
      else Some(t.(rows := t.rows[Place(user, key) := Row(value, expireAt)]))
    case SessionLine(client, session) =>
      if client in t.sessions then None else Some(t.(sessions := t.sessions[client := session]))
    case BlankLine => Some(t)
  }

  function Load(lines: seq<Line>): Option<Tables> {
    if lines == [] then Some(NO_ROWS)
    else
      var t := Load(lines[..|lines| - 1]);
      if t.None? then None else LoadLine(t.value, lines[|lines| - 1])
  }

  lemma {:induction false} FailureStays(lines: seq<Line>, i: nat)
    requires i <= |lines| && Load(lines[..i]).None?
    ensures Load(lines).None?
    decreases |lines| - i
  {
    if i < |lines| {
      assert lines[..i + 1][..i] == lines[..i];
      FailureStays(lines, i + 1);
    } else {
      assert lines[..i] == lines;
    }
  }

  predicate NamesUser(lines: seq<Line>, user: string) {
    exists j :: 0 <= j < |lines| && lines[j].UserLine? && lines[j].user == user
  }

  predicate NamesPlace(lines: seq<Line>, p: Place) {
    exists j :: 0 <= j < |lines| && lines[j].EntryLine? && Place(lines[j].user, lines[j].key) == p
  }

  predicate NamesClient(lines: seq<Line>, client: string) {
    exists j :: 0 <= j < |lines| && lines[j].SessionLine? && lines[j].client == client
  }

  // A line that no database accepts behind these: a user, a key or a client for the
  // second time, or an entry whose user has not come yet.
  predicate Unacceptable(before: seq<Line>, line: Line) {
    match line
    case UserLine(user, _) => NamesUser(before, user)
    case EntryLine(user, key, _, _) => !NamesUser(before, user) || NamesPlace(before, Place(user, key))
    case SessionLine(client, _) => NamesClient(before, client)
    case BlankLine => false
  }

  lemma {:induction false} LoadedNames(lines: seq<Line>)
    requires Load(lines).Some?
    ensures forall u :: u in Load(lines).value.users <==> NamesUser(lines, u)
    ensures forall p :: p in Load(lines).value.rows <==> NamesPlace(lines, p)
    ensures forall c :: c in Load(lines).value.sessions <==> NamesClient(lines, c)
  {
    if lines != [] {
      var b, x := lines[..|lines| - 1], lines[|lines| - 1];
      LoadedNames(b);
      hide Load;
      assert lines == b + [x];
      NamesPush(b, x);
    }
  }

  lemma NamesPush(b: seq<Line>, x: Line)
    ensures forall u :: NamesUser(b + [x], u) <==> NamesUser(b, u) || (x.UserLine? && x.user == u)
    ensures forall p :: NamesPlace(b + [x], p) <==> NamesPlace(b, p) || (x.EntryLine? && Place(x.user, x.key) == p)
    ensures forall c :: NamesClient(b + [x], c) <==> NamesClient(b, c) || (x.SessionLine? && x.client == c)
  {
    forall u
      ensures NamesUser(b + [x], u) <==> NamesUser(b, u) || (x.UserLine? && x.user == u)
    {
      if NamesUser(b, u) {
        var j :| 0 <= j < |b| && b[j].UserLine? && b[j].user == u;
        assert (b + [x])[j] == b[j];
      }
      assert (b + [x])[|b|] == x;
    }
    forall p
      ensures NamesPlace(b + [x], p) <==> NamesPlace(b, p) || (x.EntryLine? && Place(x.user, x.key) == p)
    {
      if NamesPlace(b, p) {
        var j :| 0 <= j < |b| && b[j].EntryLine? && Place(b[j].user, b[j].key) == p;
        assert (b + [x])[j] == b[j];
      }
      assert (b + [x])[|b|] == x;
    }
    forall c
      ensures NamesClient(b + [x], c) <==> NamesClient(b, c) || (x.SessionLine? && x.client == c)
    {
      if NamesClient(b, c) {
        var j :| 0 <= j < |b| && b[j].SessionLine? && b[j].client == c;
        assert (b + [x])[j] == b[j];
      }
      assert (b + [x])[|b|] == x;
    }
  }

  // A load fails if and only if some line is unacceptable behind those before it.
  lemma {:induction false} LoadFailsIff(lines: seq<Line>)
    ensures Load(lines).None? <==> exists i :: 0 <= i < |lines| && Unacceptable(lines[..i], lines[i])
  {
    hide Unacceptable;
    if lines != [] {
      var n := |lines| - 1;
      var b := lines[..n];
      LoadFailsIff(b);
      assert forall i :: 0 <= i < n ==> b[..i] == lines[..i] && b[i] == lines[i];
      if Load(b).Some? {
        LastDecides(b, lines[n]);
        assert lines[..n] == b;
      } else {
        var i :| 0 <= i < |b| && Unacceptable(b[..i], b[i]);
        assert Unacceptable(lines[..i], lines[i]);
      }
    }
  }

  lemma LastDecides(b: seq<Line>, x: Line)
    requires Load(b).Some?
    ensures LoadLine(Load(b).value, x).None? <==> Unacceptable(b, x)
  {
    LoadedNames(b);
  }

  // ------------------------------------------------------------ Loading in batches

  lemma InsertAllPush<K, V>(t: map<K, V>, s: seq<(K, V)>, k: K, v: V)
    ensures InsertAll(t, s + [(k, v)]) == Insert(InsertAll(t, s), k, v)
  {
    assert (s + [(k, v)])[..|s|] == s;
  }

  // What the tables and the buffers amount to; None when some flush is bound to fail.
  ghost function Pending(t: Tables, users: seq<(string, string)>, rows: seq<(Place, Row)>, sessions: seq<(string, Session)>): Option<Tables> {
    var u, r, s := InsertAll(t.users, users), InsertAll(t.rows, rows), InsertAll(t.sessions, sessions);
    if u.None? || r.None? || s.None? then None else Some(Tables(u.value, r.value, s.value))
  }

  class Database {
    var users: map<string, string>
    var rows: map<Place, Row>
    var sessions: map<string, Session>

    constructor ()
      ensures users == map[] && rows == map[] && sessions == map[]
    {
      users, rows, sessions := map[], map[], map[];
    }

    method SaveUser(user: string, hash: string)
      modifies this`users
      ensures users == old(users)[user := hash]
    {
      users := users[user := hash];
    }

    // An upsert; the entry of an unknown user is only reported.
    method SaveEntry(user: string, key: string, value: string, expireAt: Option<int>)
      modifies this`rows
      ensures rows == if user in users then old(rows)[Place(user, key) := Row(value, expireAt)] else old(rows)
    {
      if user in users {
        rows := rows[Place(user, key) := Row(value, expireAt)];
      }
    }

    method DeleteEntry(user: string, key: string) returns (found: bool)
      modifies this`rows
      ensures rows == old(rows) - {Place(user, key)} && found == (Place(user, key) in old(rows))
    {
      found := Place(user, key) in rows;
      rows := rows - {Place(user, key)};
    }

    method SetExpiry(user: string, key: string, expireAt: Option<int>) returns (found: bool)
      modifies this`rows
      ensures found == (Place(user, key) in old(rows))
      ensures rows == if found then old(rows)[Place(user, key) := old(rows)[Place(user, key)].(expireAt := expireAt)] else old(rows)
    {
      found := Place(user, key) in rows;
      if found {
        rows := rows[Place(user, key) := rows[Place(user, key)].(expireAt := expireAt)];
      }
    }

    method DeleteExpired(now: int) returns (removed: nat)
      modifies this`rows
      ensures rows == old(rows) - ExpiredPlaces(old(rows), now) && removed == |ExpiredPlaces(old(rows), now)|
    {
      var gone := ExpiredPlaces(rows, now);
      rows := rows - gone;
      removed := |gone|;
    }

    // Overwrites everything with a snapshot, inserting in batches; all or nothing.
    // The result does not depend on the batch size: it is that of the rows one by one.
    method ReplaceFrom(lines: seq<Line>, batch: nat) returns (count: Option<nat>)
      requires batch >= 1
      modifies this
      ensures count.Some? <==> Load(lines).Some?
      ensures count.Some? ==> Tables(users, rows, sessions) == Load(lines).value && count.value == |users|
      ensures count.None? ==> users == old(users) && rows == old(rows) && sessions == old(sessions)
    {
      var t := NO_ROWS;
      var ub: seq<(string, string)> := [];
      var rb: seq<(Place, Row)> := [];
      var sb: seq<(string, Session)> := [];
      assert lines[..0] == [];
      for i := 0 to |lines|
        invariant users == old(users) && rows == old(rows) && sessions == old(sessions)
        invariant Load(lines[..i]) == Pending(t, ub, rb, sb)
      {
        assert lines[..i + 1][..i] == lines[..i];
        match lines[i] {
          case UserLine(user, hash) =>
            InsertAllPush(t.users, ub, user, hash);
            ub := ub + [(user, hash)];
            if |ub| >= batch {
              var u := FlushAll(t.users, ub);
              if u.None? {
                FailureStays(lines, i + 1);
                return None;
              }
              t, ub := t.(users := u.value), [];
            }
          case EntryLine(user, key, value, expireAt) =>
            if ub != [] {
              var u := FlushAll(t.users, ub);
              if u.None? {
                FailureStays(lines, i);
                return None;
              }
              t, ub := t.(users := u.value), [];
            }
            if user !in t.users {
              FailureStays(lines, i + 1);
              return None;
            }
            InsertAllPush(t.rows, rb, Place(user, key), Row(value, expireAt));
            rb := rb + [(Place(user, key), Row(value, expireAt))];
            if |rb| >= batch {
              var r := FlushAll(t.rows, rb);
              if r.None? {
                FailureStays(lines, i + 1);
                return None;
              }
              t, rb := t.(rows := r.value), [];
            }
          case SessionLine(client, session) =>
            InsertAllPush(t.sessions, sb, client, session);
            sb := sb + [(client, session)];
            if |sb| >= batch {
              var s := FlushAll(t.sessions, sb);
              if s.None? {
                FailureStays(lines, i + 1);
                return None;
              }
              t, sb := t.(sessions := s.value), [];
            }
          case BlankLine =>
        }
      }
      assert lines[..|lines|] == lines;
      var u := FlushAll(t.users, ub);
      var r := FlushAll(t.rows, rb);
      var s := FlushAll(t.sessions, sb);
      if u.None? || r.None? || s.None? {
        return None;
      }
      users, rows, sessions := u.value, r.value, s.value;
      return Some(|users|);
    }
  }

  // bulk_create: every row of the buffer, or an integrity error.
  method FlushAll<K(==), V>(t: map<K, V>, buffer: seq<(K, V)>) returns (r: Option<map<K, V>>)
    ensures r == InsertAll(t, buffer)
  {
    var m := t;
    assert buffer[..0] == [];
    for i := 0 to |buffer|
      invariant InsertAll(t, buffer[..i]) == Some(m)
    {
      assert buffer[..i + 1][..i] == buffer[..i];
      if buffer[i].0 in m {
        InsertFailureStays(t, buffer, i + 1);
        return None;
      }
      m := m[buffer[i].0 := buffer[i].1];
    }
    assert buffer[..|buffer|] == buffer;
    return Some(m);
  }

  lemma {:induction false} InsertFailureStays<K, V>(t: map<K, V>, s: seq<(K, V)>, i: nat)
    requires i <= |s| && InsertAll(t, s[..i]).None?
    ensures InsertAll(t, s).None?
    decreases |s| - i
  {
    if i < |s| {
      assert s[..i + 1][..i] == s[..i];
      InsertFailureStays(t, s, i + 1);
    } else {
      assert s[..i] == s;
    }
  }
}
