// The state machine as the program runs it: objects changed in place, loops over the
// dictionaries, database first and RAM second.
module StateMachines {
  import opened Types
  import opened Recency
  import opened PlainMaps
  import opened Machines
  import opened Sessions
  import opened Databases
  import opened WriteThrough
  import opened Snapshots

  const BATCH_SIZE: nat := 1000

  const MAX_SESSIONS: nat := 10000

  // The table after recording: beyond the limit one of the oldest sessions is gone.
  ghost predicate Recorded(before: Table, c: string, s: Session, limit: nat, after: Table) {
    var t := before[c := s];
    if |t| > limit then exists x :: IsOldest(t, x) && after == t - {x} else after == t
  }

  // Entries are recorded at their own log index, so the oldest session is unique.
  lemma RecordedIsRecord(before: Table, c: string, s: Session, limit: nat, after: Table)
    requires Recorded(before, c, s, limit, after)
    requires forall a, b :: a in before && b in before && a != b ==> before[a].index != before[b].index
    requires IndicesBelow(before, s.index)
    ensures after == Record(before, c, s, Some(limit))
  {
    var t := before[c := s];
    if |t| > limit {
      HasOldest(t, c);
      var x :| IsOldest(t, x) && after == t - {x};
      forall y | IsOldest(t, y)
        ensures y == x
      {
        OldestIsUnique(t, x, y);
      }
    }
  }

  // What the database holds when RAM has come to `after`: the session of the client with
  // the empty id is not forgotten.
  function Stored(before: Table, c: string, s: Session, after: Table): Table {
    var t := before[c := s];
    if |t| > MAX_SESSIONS && "" in t && after == t - {""} then t else after
  }

  // The table is full, the client is new to it, and its oldest session is that of the
  // client with the empty id.
  ghost predicate EmptyClientGoes(table: Table, c: string) {
    c !in table && |table| == MAX_SESSIONS && IsOldest(table, "")
  }

  // A new session is never the oldest of a table with others.
  lemma OldestStays(before: Table, c: string, s: Session, x: string)
    requires IndicesBelow(before, s.index) && c !in before && before != map[]
    ensures IsOldest(before[c := s], x) <==> IsOldest(before, x)
  {
    var t := before[c := s];
    var d :| d in before;
    assert d in t && t[d].index < s.index;
    if IsOldest(t, x) {
      assert x != c;
      forall e | e in before
        ensures before[x].index <= before[e].index
      {
        assert e in t;
      }
    }
  }

  // Exactly then RAM and the database remember different sessions: the database one more.
  lemma TablesDiffer(before: Table, c: string, s: Session, after: Table)
    requires Recorded(before, c, s, MAX_SESSIONS, after)
    requires DistinctIndices(before) && IndicesBelow(before, s.index) && |before| <= MAX_SESSIONS
    ensures Stored(before, c, s, after) != after <==> EmptyClientGoes(before, c)
    ensures EmptyClientGoes(before, c) ==> "" !in after && Stored(before, c, s, after) == before[c := s]
  {
    var t := before[c := s];
    assert t.Keys == before.Keys + {c};
    if |t| > MAX_SESSIONS {
      StillDistinct(before, c, s);
      hide IsOldest, IndicesBelow;
      assert c !in before && |before| == MAX_SESSIONS;
      var x :| IsOldest(t, x) && after == t - {x};
      GoneIsOldest(t, x);
      OldestStays(before, c, s, "");
    }
  }

  lemma StillDistinct(before: Table, c: string, s: Session)
    requires DistinctIndices(before) && IndicesBelow(before, s.index)
    ensures DistinctIndices(before[c := s])
  {
  }

  lemma GoneIsOldest(t: Table, x: string)
    requires DistinctIndices(t) && IsOldest(t, x)
    ensures x in t && t - {x} != t
    ensures "" in t && t - {x} == t - {""} <==> IsOldest(t, "")
  {
    assert x !in t - {x};
    if IsOldest(t, "") {
      OldestIsUnique(t, x, "");
    }
    if "" in t && t - {x} == t - {""} {
      assert x !in t - {""};
    }
  }

  // n clients with names of n different lengths, the empty one the oldest.
  function Crowd(n: nat): Table {
    if n == 0 then map[] else Crowd(n - 1)[seq(n - 1, _ => 'c') := Session(1, Truth(true), n)]
  }

  lemma {:induction false} CrowdFacts(n: nat)
    ensures |Crowd(n)| == n && DistinctIndices(Crowd(n)) && IndicesBelow(Crowd(n), n + 1)
    ensures forall c :: c in Crowd(n) ==> |c| < n && Crowd(n)[c] == Session(1, Truth(true), |c| + 1)
    ensures n > 0 ==> "" in Crowd(n)
  {
    if n > 0 {
      CrowdFacts(n - 1);
      var c: string := seq(n - 1, _ => 'c');
      assert c !in Crowd(n - 1);
      assert Crowd(n).Keys == Crowd(n - 1).Keys + {c};
      if n == 1 {
        assert c == "";
      }
    }
  }

  // A full table where it happens: a repeat of the empty client's request is then new to
  // the replica, and known to it again after a restart.
  lemma EmptyClientRunsAgain() returns (before: Table, c: string, s: Session, after: Table)
    ensures DistinctIndices(before) && IndicesBelow(before, s.index) && |before| == MAX_SESSIONS
    ensures Recorded(before, c, s, MAX_SESSIONS, after)
    ensures Check(after, RequestId("", 1)) == None
    ensures Check(Stored(before, c, s, after), RequestId("", 1)) == Some(Truth(true))
  {
    CrowdFacts(MAX_SESSIONS);
    before, c := Crowd(MAX_SESSIONS), seq(MAX_SESSIONS, _ => 'c');
    s := Session(1, Truth(true), MAX_SESSIONS + 1);
    hide Crowd;
    assert c !in before;
    assert IsOldest(before, "");
    OldestStays(before, c, s, "");
    after := before[c := s] - {""};
    TablesDiffer(before, c, s, after);
  }

  // What applying one entry does to the machine and the table. A repeated request gets
  // its answer from the table; a command that raised is not recorded.
  ghost predicate EntryApplied(m: Machine, table: Table, op: Operation, user: string, request: Option<RequestId>, index: nat,
                               after: Machine, tableAfter: Table, a: Answer) {
    var cached := if request.Some? then Check(table, request.value) else None;
    if cached.Some? then a == cached.value && after == m && tableAfter == table
    else
      && (after, a) == Machines.Apply(m, user, op)
      && (if request.None? || a.Raised? then tableAfter == table
          else Recorded(table, request.value.client, Session(request.value.number, a, index), MAX_SESSIONS, tableAfter))
  }

  // at_ms or now_ms(): no time, and time 0, both mean now.
  function AtOrNow(at: Option<int>, now: int): int {
    if at.Some? && at.value != 0 then at.value else now
  }

  lemma ReadsAtRest(m: Machine, user: string, key: string, t: int)
    ensures forall d: Data :: AtRest(m, d) ==> Machines.Get(m, user, key, t).1 == Read(d, user, key, t)
  {
    hide Machines.Get, Read, Agrees;
    forall d: Data | AtRest(m, d)
      ensures Machines.Get(m, user, key, t).1 == Read(d, user, key, t)
    {
      GetRight(m, d, d, 0, {}, user, key, t);
    }
  }

  class CacheStateMachine {
    const useDb: bool
    const capacity: nat
    const db: Database
    var stores: map<string, Store>
    var sessions: Table

    constructor (useDb: bool, capacity: nat, db: Database)
      ensures this.useDb == useDb && this.capacity == capacity && this.db == db
      ensures stores == map[] && sessions == map[]
    {
      this.useDb, this.capacity, this.db := useDb, capacity, db;
      stores, sessions := map[], map[];
    }

    ghost function Value(): Machine
      reads this, db
    {
      Machine(useDb, capacity, stores, db.users, db.rows)
    }

    // ---------------------------------------------------------- Reads

    // From RAM, or from the database on a miss, warming RAM.
    method Find(user: string, key: string) returns (item: Option<Row>)
      requires user in stores
      modifies this`stores
      ensures (Value(), item) == Machines.Lookup(old(Value()), user, key)
      ensures user in stores
    {
      var s := stores[user];
      var value := Recency.Find(s.cache, key);
      if value.Some? {
        stores := stores[user := s.(cache := Touch(s.cache, key))];
        return Some(Row(value.value, ExpiryOf(s.expiry, key)));
      }
      if !useDb || Place(user, key) !in db.rows {
        return None;
      }
      var row := db.rows[Place(user, key)];
      s := s.(cache := Put(capacity, s.cache, key, row.value));
      s := s.(expiry := if row.expireAt.None? then s.expiry - {key} else s.expiry[key := row.expireAt.value]);
      stores := stores[user := s];
      return Some(row);
    }

    // Without a time, or with time 0, a read is made now.
    method Get(user: string, key: string, at: Option<int>, now: int) returns (value: Option<string>)
      modifies this`stores
      ensures (Value(), value) == Machines.Get(old(Value()), user, key, AtOrNow(at, now))
      ensures forall d: Data :: AtRest(old(Value()), d) && (at == None || at == Some(0)) ==> value == Read(d, user, key, now)
      ensures forall d: Data, t: int :: AtRest(old(Value()), d) && at == Some(t) && t != 0 ==> value == Read(d, user, key, t)
    {
      ReadsAtRest(Value(), user, key, AtOrNow(at, now));
      hide AtRest, Read;
      if user !in stores {
        return None;
      }
      var item := Find(user, key);
      if item.None? || Expired(item.value.expireAt, AtOrNow(at, now)) {
        return None;
      }
      return Some(item.value.value);
    }

    // ---------------------------------------------------------- Commands

    method ApplySignUp(user: string, hash: string) returns (a: Answer)
      modifies this`stores, db`users
      ensures (Value(), a) == Machines.ApplySignUp(old(Value()), user, hash)
    {
      if user in stores {
        return Truth(false);
      }
      if useDb {
        db.SaveUser(user, hash);
      }
      stores := stores[user := Store(hash, [], map[])];
      return Truth(true);
    }

    method ApplySet(user: string, key: string, value: string, expireAt: Option<int>) returns (a: Answer)
      modifies this`stores, db`rows
      ensures (Value(), a) == Machines.ApplySet(old(Value()), user, key, Row(value, expireAt))
    {
      if user !in stores {
        return Truth(false);
      }
      if useDb {
        db.SaveEntry(user, key, value, expireAt);
      }
      if key == "" {
        return Raised;
      }
      var s := stores[user];
      s := s.(cache := Put(capacity, s.cache, key, value));
      if expireAt.None? {
        s := s.(expiry := s.expiry - {key});
      } else {
        s := s.(expiry := s.expiry[key := expireAt.value]);
      }
      stores := stores[user := s];
      return Truth(true);
    }

    method ApplyDelete(user: string, key: string, at: Option<int>) returns (a: Answer)
      modifies this`stores, db`rows
      ensures (Value(), a) == Machines.ApplyDelete(old(Value()), user, key, at)
    {
      if user !in stores {
        return Truth(false);
      }
      var item := Find(user, key);
      var existed := item.Some? && !(at.Some? && Expired(item.value.expireAt, at.value));
      if useDb {
        var found := db.DeleteEntry(user, key);
      }
      var s := stores[user];
      s := s.(cache := Without(s.cache, key));
      s := s.(expiry := s.expiry - {key});
      stores := stores[user := s];
      return Truth(existed);
    }

    method ApplyExpiry(user: string, key: string, expireAt: Option<int>, now: int) returns (a: Answer)
      modifies this`stores, db`rows
      ensures (Value(), a) == Machines.ApplyExpiry(old(Value()), user, key, expireAt, now)
    {
      if user !in stores {
        return Truth(false);
      }
      var item := Find(user, key);
      if item.None? || Expired(item.value.expireAt, now) {
        return Truth(false);
      }
      if expireAt.None? && item.value.expireAt.None? {
        return Truth(false);
      }
      if useDb {
        var found := db.SetExpiry(user, key, expireAt);
      }
      var s := stores[user];
      if expireAt.None? {
        s := s.(expiry := s.expiry - {key});
      } else {
        s := s.(expiry := s.expiry[key := expireAt.value]);
      }
      stores := stores[user := s];
      return Truth(true);
    }

    // An expired key leaves the expiry table, and the cache if it is there.
    static method SweepKey(before: Store, key: string, at: int) returns (s: Store, found: bool)
      requires key in before.expiry
      ensures before.expiry[key] > at ==> s == before && !found
      ensures before.expiry[key] <= at ==> s == Forget(before, key) && found == (key in Keys(before.cache))
    {
      if before.expiry[key] > at {
        return before, false;
      }
      s := before.(expiry := before.expiry - {key});
      found := key in Keys(s.cache);
      s := s.(cache := Without(s.cache, key));
    }

    // The RAM half for one user: expired keys leave the table and the cache, one by one.
    method SweepOne(user: string, at: int) returns (removed: nat)
      requires user in stores
      modifies this`stores
      ensures stores == old(stores)[user := SweptStore(old(stores)[user], at)]
      ensures removed == |ExpiredKeys(old(stores)[user], at) * Keys(old(stores)[user].cache)|
    {
      hide Keys, Keep, Without, ExpiredKeys, SweptSoFar, SweptStore, Forget, SweptCount;
      ghost var s0 := stores[user];
      var s := stores[user];
      var keys := s.expiry.Keys;
      removed := 0;
      ghost var done: set<string> := {};
      SweepStarts(s0, at);
      while keys != {}
        invariant keys !! done && keys + done == s0.expiry.Keys
        invariant stores == old(stores) && removed == SweptCount(s0, at, done)
        invariant s == SweptSoFar(s0, at, done)
        decreases |keys|
      {
        var key :| key in keys;
        SweepStep(s0, at, done, key);
        var found;
        s, found := SweepKey(s, key, at);
        removed := removed + if found then 1 else 0;
        keys, done := keys - {key}, done + {key};
      }
      SweepEnds(s0, at, done);
      stores := stores[user := s];
    }

    // The RAM half, one user after another.
    method SweepStores(at: int) returns (removed: nat)
      modifies this`stores
      ensures stores == map u | u in old(stores) :: SweptStore(old(stores)[u], at)
      ensures removed == |SweptOf(old(stores), old(stores).Keys, at)|
    {
      hide SweptStore, ExpiredKeys, Keys, SweptOf;
      ghost var s0 := stores;
      SweptOfNone(s0, at);
      removed := 0;
      var users := stores.Keys;
      ghost var done: set<string> := {};
      while users != {}
        invariant users !! done && users + done == s0.Keys == stores.Keys
        invariant forall u :: u in s0 ==> stores[u] == if u in done then SweptStore(s0[u], at) else s0[u]
        invariant removed == |SweptOf(s0, done, at)|
        decreases |users|
      {
        var user :| user in users;
        var n := SweepOne(user, at);
        removed := removed + n;
        SweptOfGrows(s0, done, user, at);
        users, done := users - {user}, done + {user};
      }
    }

    // In a database cluster the rows are counted, otherwise the cached keys.
    method ApplySweep(at: int) returns (a: Answer)
      modifies this`stores, db`rows
      ensures (Value(), a) == Machines.ApplySweep(old(Value()), at)
    {
      hide SweptStore, ExpiredKeys, Keys, SweptOf;
      var removed := 0;
      if useDb {
        removed := db.DeleteExpired(at);
      }
      SweptOfAll(Value(), at);
      var n := SweepStores(at);
      return Count(removed + if useDb then 0 else n);
    }

    method ApplyCommand(user: string, op: Operation) returns (a: Answer)
      modifies this`stores, db`users, db`rows
      ensures (Value(), a) == Machines.Apply(old(Value()), user, op)
    {
      match op {
        case SignUp(hash) => a := ApplySignUp(user, hash);
        case Set(key, value) => a := ApplySet(user, key, value, None);
        case SetEx(key, expireAt, value) => a := ApplySet(user, key, value, Some(expireAt));
        case Delete(key, stamp) => a := ApplyDelete(user, key, stamp);
        case ExpireAt(key, expireAt, now) => a := ApplyExpiry(user, key, Some(expireAt), now);
        case Persist(key, now) => a := ApplyExpiry(user, key, None, now);
        case Sweep(now) => a := ApplySweep(now);
        case Unknown => a := Nothing;
      }
    }

    // ---------------------------------------------------------- Sessions

    // The first answer to a repeat of the newest request; nothing for one overtaken.
    method CheckSession(r: RequestId) returns (cached: Option<Answer>)
      ensures cached == Check(sessions, r)
      ensures cached.None? <==> r.client !in sessions || sessions[r.client].number < r.number
      ensures r.client in sessions && sessions[r.client].number == r.number ==> cached == Some(sessions[r.client].answer)
      ensures r.client in sessions && sessions[r.client].number > r.number ==> cached == Some(Nothing)
    {
      if r.client !in sessions || r.number > sessions[r.client].number {
        return None;
      }
      if r.number == sessions[r.client].number {
        return Some(sessions[r.client].answer);
      }
      return Some(Nothing);
    }

    // The session used longest ago, whatever order the dictionary is walked in.
    method Oldest() returns (c: string)
      requires sessions != map[]
      ensures IsOldest(sessions, c)
    {
      var rest := sessions.Keys;
      c :| c in rest;
      rest := rest - {c};
      while rest != {}
        invariant rest <= sessions.Keys && c in sessions
        invariant forall d :: d in sessions && d !in rest ==> sessions[c].index <= sessions[d].index
        decreases |rest|
      {
        var d :| d in rest;
        if sessions[d].index < sessions[c].index {
          c := d;
        }
        rest := rest - {d};
      }
    }

    // The database forgets the same session as RAM, unless its client id is empty.
    method RecordSession(r: RequestId, a: Answer, index: nat)
      modifies this`sessions, db`sessions
      ensures Recorded(old(sessions), r.client, Session(r.number, a, index), MAX_SESSIONS, sessions)
      ensures !useDb ==> db.sessions == old(db.sessions)
      ensures useDb && old(db.sessions) == old(sessions) ==>
        db.sessions == Stored(old(sessions), r.client, Session(r.number, a, index), sessions)
    {
      sessions := sessions[r.client := Session(r.number, a, index)];
      var evict := None;
      if |sessions| > MAX_SESSIONS {
        var c := Oldest();
        evict := Some(c);
        sessions := sessions - {c};
      }
      if useDb {
        db.sessions := db.sessions[r.client := Session(r.number, a, index)];
        if evict.Some? && evict.value != "" {
          db.sessions := db.sessions - {evict.value};
        }
      }
    }

    // ---------------------------------------------------------- Snapshots and restarts

    // Without a database: users, then entries in recency order, then sessions.
    method SnapshotRam() returns (lines: seq<Line>)
      ensures IsDump(lines, stores, sessions)
    {
      hide Enumerates, StoreLines;
      var users := Walk(stores.Keys);
      var clients := Walk(sessions.Keys);
      NotYetAll(users, stores.Keys);
      NotYetAll(clients, sessions.Keys);
      var us, es, ss := [], [], [];
      for i := 0 to |users|
        invariant us == UserLines(users[..i], stores)
      {
        assert users[..i + 1][..i] == users[..i];
        us := us + [UserLine(users[i], stores[users[i]].hash)];
      }
      for i := 0 to |users|
        invariant es == EntryLines(users[..i], stores)
      {
        assert users[..i + 1][..i] == users[..i];
        es := es + StoreLines(users[i], stores[users[i]].cache, stores[users[i]].expiry);
      }
      for i := 0 to |clients|
        invariant ss == SessionLines(clients[..i], sessions)
      {
        assert clients[..i + 1][..i] == clients[..i];
        ss := ss + [SessionLine(clients[i], sessions[clients[i]])];
      }
      assert users[..|users|] == users && clients[..|clients|] == clients;
      return us + es + ss;
    }

    // With a database: each table in some order.
    method SnapshotDb() returns (lines: seq<Line>)
      ensures IsTableDump(lines, Tables(db.users, db.rows, db.sessions))
    {
      hide Enumerates;
      var t := Tables(db.users, db.rows, db.sessions);
      var users := Walk(t.users.Keys);
      var places := Walk(t.rows.Keys);
      var clients := Walk(t.sessions.Keys);
      NotYetAll(users, t.users.Keys);
      NotYetAll(places, t.rows.Keys);
      NotYetAll(clients, t.sessions.Keys);
      return TableUserLines(users, t) + TableEntryLines(places, t) + TableSessionLines(clients, t);
    }

    // False: a line that cannot be loaded; then nothing has changed.
    method RestoreRam(lines: seq<Line>) returns (ok: bool)
      modifies this
      ensures ok == RestoreFrom(Restored(map[], map[]), capacity, lines).Some?
      ensures ok ==> Restored(stores, sessions) == RestoreFrom(Restored(map[], map[]), capacity, lines).value
      ensures !ok ==> stores == old(stores) && sessions == old(sessions)
    {
      var r := Restored(map[], map[]);
      for i := 0 to |lines|
        invariant stores == old(stores) && sessions == old(sessions)
        invariant RestoreFrom(Restored(map[], map[]), capacity, lines[..i]) == Some(r)
      {
        assert lines[..i + 1][..i] == lines[..i];
        var next := RestoreLine(r, capacity, lines[i]);
        if next.None? {
          RestoreFails(Restored(map[], map[]), capacity, lines, i + 1);
          return false;
        }
        r := next.value;
      }
      assert lines[..|lines|] == lines;
      stores, sessions := r.stores, r.table;
      return true;
    }

    // newest: the rows the database lists first for each user, at most capacity of them.
    method LoadFromDb(newest: map<string, seq<string>>)
      requires Newest(newest, db.users, db.rows)
      modifies this
      ensures stores == Reloaded(capacity, db.users, db.rows, newest)
      ensures sessions == db.sessions
    {
      stores := LoadStores(capacity, db.users, db.rows, newest);
      sessions := db.sessions;
    }

    // With a database: overwrite the tables, all or nothing, then warm RAM from them.
    method RestoreDb(lines: seq<Line>, newest: map<string, seq<string>>) returns (ok: bool)
      requires Load(lines).Some? ==> Newest(newest, Load(lines).value.users, Load(lines).value.rows)
      modifies this, db
      ensures ok == Load(lines).Some?
      ensures ok ==>
        var t := Load(lines).value;
        && Tables(db.users, db.rows, db.sessions) == t && sessions == t.sessions
        && stores == Reloaded(capacity, t.users, t.rows, newest)
      ensures !ok ==> Value() == old(Value()) && sessions == old(sessions) && db.sessions == old(db.sessions)
    {
      hide Load, LoadStore;
      var count := db.ReplaceFrom(lines, BATCH_SIZE);
      if count.None? {
        return false;
      }
      LoadFromDb(newest);
      return true;
    }

    // One committed entry.
    method Apply(op: Operation, user: string, request: Option<RequestId>, index: nat) returns (a: Answer)
      modifies this, db
      ensures EntryApplied(old(Value()), old(sessions), op, user, request, index, Value(), sessions, a)
      ensures request.Some? && request.value.client in old(sessions) && old(sessions)[request.value.client].number >= request.value.number ==>
        && Value() == old(Value()) && sessions == old(sessions)
        && a == if old(sessions)[request.value.client].number == request.value.number then old(sessions)[request.value.client].answer else Nothing
      ensures a.Raised? && (request.None? || request.value.client !in old(sessions) || old(sessions)[request.value.client].number < request.value.number) ==>
        sessions == old(sessions)
      ensures useDb && old(db.sessions) == old(sessions) && "" !in old(sessions) && (request.Some? ==> request.value.client != "") ==>
        db.sessions == sessions && "" !in sessions
    {
      if request.Some? {
        var cached := CheckSession(request.value);
        if cached.Some? {
          return cached.value;
        }
      }
      a := ApplyCommand(user, op);
      if request.Some? && !a.Raised? {
        RecordSession(request.value, a, index);
      }
    }
  }

  // One store per user, each warmed with its newest rows.
  method LoadStores(capacity: nat, users: map<string, string>, rows: map<Place, Row>, newest: map<string, seq<string>>)
    returns (stores: map<string, Store>)
    requires Newest(newest, users, rows)
    ensures stores == Reloaded(capacity, users, rows, newest)
  {
    hide LoadStore;
    stores := map[];
    var rest := users.Keys;
    while rest != {}
      invariant rest <= users.Keys && stores.Keys == users.Keys - rest
      invariant forall u :: u in stores ==> stores[u] == LoadStore(capacity, users[u], u, newest[u], rows)
      decreases |rest|
    {
      var u :| u in rest;
      stores := stores[u := LoadStore(capacity, users[u], u, newest[u], rows)];
      rest := rest - {u};
    }
  }

  // A dictionary walked in some order.
  method Walk<K(!new,==)>(keys: set<K>) returns (s: seq<K>)
    ensures Enumerates(s, keys)
  {
    s := [];
    var rest := keys;
    while rest != {}
      invariant rest <= keys && Enumerates(s, keys - rest)
      decreases |rest|
    {
      var k :| k in rest;
      s, rest := s + [k], rest - {k};
    }
    assert keys - rest == keys;
  }

  // ------------------------------------------------------------ One entry means one step of the plain map

  ghost predicate DistinctIndices(table: Table) {
    forall a, b :: a in table && b in table && a != b ==> table[a].index != table[b].index
  }

  // With the database on, the machine and the table after a committed entry, and its
  // answer, are those of the plain map with the session table.
  lemma EntryMeansPlain(m: Machine, d: Data, table: Table, e: Entry, after: Machine, tableAfter: Table, a: Answer)
    requires AtRest(m, d) && e.command.Run? && KeyGiven(e.command.op)
    requires DistinctIndices(table) && IndicesBelow(table, e.index)
    requires EntryApplied(m, table, e.command.op, e.username, e.request, e.index, after, tableAfter, a)
    ensures a == Sessions.Apply(State(d, table), e, Some(MAX_SESSIONS)).1
    ensures var s := Sessions.Apply(State(d, table), e, Some(MAX_SESSIONS)).0;
      && AtRest(after, s.data) && tableAfter == s.table
      && DistinctIndices(s.table) && IndicesBelow(s.table, e.index + 1)
  {
    hide AtRest, Machines.Apply, Perform, Record, Recorded;
    ApplyRight(m, d, e.username, e.command.op);
    NeverRaised(d, e.username, e.command.op);
    if e.request.Some? && Check(table, e.request.value).None? {
      var c, s := e.request.value.client, Session(e.request.value.number, a, e.index);
      RecordedIsRecord(table, c, s, MAX_SESSIONS, tableAfter);
      RecordKeepsDistinct(table, c, s);
    }
  }

  lemma NeverRaised(d: Data, user: string, op: Operation)
    ensures !Perform(d, user, op).1.Raised?
  {
  }

  lemma RecordKeepsDistinct(table: Table, c: string, s: Session)
    requires DistinctIndices(table) && IndicesBelow(table, s.index)
    ensures DistinctIndices(Record(table, c, s, Some(MAX_SESSIONS)))
    ensures IndicesBelow(Record(table, c, s, Some(MAX_SESSIONS)), s.index + 1)
  {
  }

  // ------------------------------------------------------------ Sweeping key by key

  lemma {:induction false} KeepAll<V>(s: Items<V>, wanted: set<string>)
    requires Keys(s) <= wanted
    ensures Keep(s, wanted) == s
  {
    if s != [] {
      Split(s);
      KeepAll(s[..|s| - 1], wanted);
    }
  }

  lemma {:induction false} KeptKeys<V>(s: Items<V>, wanted: set<string>)
    ensures Keys(Keep(s, wanted)) == Keys(s) * wanted
  {
    if s != [] {
      var t, e := s[..|s| - 1], s[|s| - 1];
      KeptKeys(t, wanted);
      Split(s);
      KeysPush(Keep(t, wanted), e.0, e.1);
    }
  }

  // The store when some of the keys of its expiry table have been looked at.
  ghost function SweptSoFar(s: Store, at: int, done: set<string>): Store {
    Store(s.hash, Keep(s.cache, Keys(s.cache) - (ExpiredKeys(s, at) * done)), s.expiry - (ExpiredKeys(s, at) * done))
  }

  ghost function SweptCount(s: Store, at: int, done: set<string>): nat {
    |(ExpiredKeys(s, at) * done) * Keys(s.cache)|
  }

  lemma SweepStarts(s: Store, at: int)
    ensures SweptSoFar(s, at, {}) == s && SweptCount(s, at, {}) == 0
  {
    assert ExpiredKeys(s, at) * {} == {};
    assert {} * Keys(s.cache) == {};
    KeepAll(s.cache, Keys(s.cache) - {});
  }

  lemma SweepEnds(s: Store, at: int, done: set<string>)
    requires done == s.expiry.Keys
    ensures SweptSoFar(s, at, done) == SweptStore(s, at)
    ensures SweptCount(s, at, done) == |ExpiredKeys(s, at) * Keys(s.cache)|
  {
    hide Keys;
    assert ExpiredKeys(s, at) * done == ExpiredKeys(s, at);
  }

  // One more key of the expiry table.
  lemma SweepStep(s: Store, at: int, done: set<string>, key: string)
    requires key in s.expiry && key !in done
    ensures key in SweptSoFar(s, at, done).expiry
    ensures s.expiry[key] == SweptSoFar(s, at, done).expiry[key]
    ensures s.expiry[key] > at ==>
      && SweptSoFar(s, at, done + {key}) == SweptSoFar(s, at, done)
      && SweptCount(s, at, done + {key}) == SweptCount(s, at, done)
    ensures s.expiry[key] <= at ==>
      && SweptSoFar(s, at, done + {key}) == Forget(SweptSoFar(s, at, done), key)
      && SweptCount(s, at, done + {key}) == SweptCount(s, at, done) + (if key in Keys(SweptSoFar(s, at, done).cache) then 1 else 0)
  {
    hide Keys, Keep, Without;
    var x, y := ExpiredKeys(s, at) * done, ExpiredKeys(s, at) * (done + {key});
    var k := Keys(s.cache);
    if s.expiry[key] <= at {
      assert y == x + {key};
      KeepWithout(s.cache, key, k - x);
      assert k - x - {key} == k - y;
      KeptKeys(s.cache, k - x);
      WithoutKeys(Keep(s.cache, k - x), key);
      assert s.expiry - y == (s.expiry - x) - {key};
      if key in k {
        assert y * k == x * k + {key};
      } else {
        assert y * k == x * k;
      }
    } else {
      assert y == x;
    }
  }

  // What the RAM half removes for some of the users.
  ghost function SweptOf(stores: map<string, Store>, users: set<string>, at: int): set<Place> {
    set u, k | u in users && u in stores && k in stores[u].expiry && k in ExpiredKeys(stores[u], at) && k in Keys(stores[u].cache) :: Place(u, k)
  }

  lemma SweptOfNone(stores: map<string, Store>, at: int)
    ensures SweptOf(stores, {}, at) == {}
  {
  }

  lemma SweptOfAll(m: Machine, at: int)
    ensures SweptOf(m.stores, m.stores.Keys, at) == SweptPlaces(m, at)
  {
    hide Keys, ExpiredKeys;
  }

  lemma SweptOfGrows(stores: map<string, Store>, users: set<string>, user: string, at: int)
    requires user in stores && user !in users
    ensures |SweptOf(stores, users + {user}, at)| == |SweptOf(stores, users, at)| + |ExpiredKeys(stores[user], at) * Keys(stores[user].cache)|
  {
    hide Keys;
    var keys := ExpiredKeys(stores[user], at) * Keys(stores[user].cache);
    var more := set k | k in keys :: Place(user, k);
    assert SweptOf(stores, users + {user}, at) == SweptOf(stores, users, at) + more;
    assert SweptOf(stores, users, at) !! more;
    PlacesOf(user, keys, more);
  }

  lemma {:induction false} PlacesOf(user: string, keys: set<string>, places: set<Place>)
    requires places == set k | k in keys :: Place(user, k)
    ensures |places| == |keys|
    decreases |keys|
  {
    if keys != {} {
      var k :| k in keys;
      var rest := set x | x in keys - {k} :: Place(user, x);
      PlacesOf(user, keys - {k}, rest);
      assert places == rest + {Place(user, k)};
    }
  }
}
